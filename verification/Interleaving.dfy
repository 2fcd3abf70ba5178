/** Many clients, each reading the ledger, then the Directory, then appending
    by compare-and-swap, while Agents are being created. */
module Interleaving {
  import opened Prelude
  import opened Budget
  import opened Directory
  import opened Projection
  import opened LedgerShape
  import opened LedgerBounds
  import opened DirectoryGrowth
  import opened ManagedHistory
  import opened FactSlots
  import opened Service

  datatype Client =
    | Idle
    | HasLog(q: Request, n: nat)           // read the first n facts
    | HasBoth(q: Request, n: nat, m: nat)  // and then the first m creations

  /** An append a client was told succeeded, and where its fact landed. */
  datatype Ack = Ack(q: Request, at: nat)

  /** The landed write replay will not accept, and how many creations the
      client that decided it had read. */
  datatype Clash = Clash(q: Request, m: nat)

  datatype System = System(
    log: seq<Fact>, agents: seq<Creation>, clients: map<nat, Client>, acks: seq<Ack>, clash: Option<Clash>)
  {
    /** How many facts were decided on a ledger replay then accepted. */
    function Sound(): int { if clash.None? then |log| else |log| - 1 }
  }

  ghost predicate Replays(log: seq<Fact>, agents: seq<Creation>) {
    Rebuilt(agents).Success? && Replay(log, Rebuilt(agents).value).Success?
  }

  ghost function LedgerAt(log: seq<Fact>, agents: seq<Creation>): Ledger
    requires Replays(log, agents)
  {
    Replay(log, Rebuilt(agents).value).value
  }

  ghost function VerdictAt(log: seq<Fact>, agents: seq<Creation>, q: Request): Verdict
    requires Replays(log, agents)
  {
    Decide(LedgerAt(log, agents), Rebuilt(agents).value, q)
  }

  /** The child and creation request whose absence a decided write relies on. */
  function Claim(L: Ledger, q: Request): Option<(Id, Id)> {
    match q
    case AskChild(_, _, _, child, request, _, _, _) => Some((child, request))
    case AskRelease(_, rid, _) => if rid in L.holds then Some((L.holds[rid].child, L.holds[rid].request)) else None
    case _ => None
  }

  /** `x` claims (child, request) while it is about to write. */
  ghost predicate Claims(s: System, x: Client, child: Id, request: Id) {
    && x.HasBoth? && x.n <= |s.log| && x.m <= |s.agents| && Replays(s.log[..x.n], s.agents[..x.m])
    && VerdictAt(s.log[..x.n], s.agents[..x.m], x.q).Write?
    && Claim(LedgerAt(s.log[..x.n], s.agents[..x.m]), x.q) == Some((child, request))
  }

  // ---- steps ----

  ghost predicate Begins(s: System, t: System, c: nat, q: Request) {
    c in s.clients && s.clients[c] == Idle && t == s.(clients := s.clients[c := HasLog(q, |s.log|)])
  }

  ghost predicate ReadsDirectory(s: System, t: System, c: nat) {
    c in s.clients && s.clients[c].HasLog?
    && t == s.(clients := s.clients[c := HasBoth(s.clients[c].q, s.clients[c].n, |s.agents|)])
  }

  /** Giving up, answering without a write, losing the race, or failing. */
  ghost predicate Leaves(s: System, t: System, c: nat) {
    c in s.clients && t == s.(clients := s.clients[c := Idle])
  }

  /** The swap succeeds, whatever the write; the client may or may not be told,
      and is not when the ledger cannot be read back. */
  ghost predicate Lands(s: System, t: System, c: nat, told: bool) {
    c in s.clients && s.clients[c].HasBoth?
    && var x := s.clients[c];
       x.n == |s.log| && x.m <= |s.agents| && Replays(s.log, s.agents[..x.m])
       && var verdict := VerdictAt(s.log, s.agents[..x.m], x.q);
          var fits := Unclashing(LedgerAt(s.log, s.agents[..x.m]), x.q);
          verdict.Write?
          && t == s.(log := s.log + [verdict.fact], clients := s.clients[c := Idle],
                     acks := if told && fits then s.acks + [Ack(x.q, |s.log|)] else s.acks,
                     clash := if fits then s.clash else Some(Clash(x.q, x.m)))
  }

  /** While the ledger can be read, a creation neither contradicts a hold nor
      takes identities some client is about to reserve or release. */
  ghost predicate Creates(s: System, t: System, e: Creation) {
    && Rebuilt(s.agents).Success? && Conflicts(Rebuilt(s.agents).value, e) == []
    && t == s.(agents := s.agents + [e])
    && (Replays(s.log, s.agents) ==>
          && Managed(LedgerAt(s.log, s.agents), e)
          && forall c, child, request | c in s.clients && Claims(s, s.clients[c], child, request) ::
               e.agent != child && e.request != request)
  }

  ghost predicate Next(s: System, t: System) {
    || (exists c, q :: Begins(s, t, c, q))
    || (exists c :: ReadsDirectory(s, t, c))
    || (exists c :: Leaves(s, t, c))
    || (exists c, told :: Lands(s, t, c, told))
    || (exists e :: Creates(s, t, e))
  }

  ghost predicate Init(s: System) {
    s.log == [] && s.agents == [] && s.acks == [] && s.clash == None && forall c | c in s.clients :: s.clients[c] == Idle
  }

  // ---- the invariant ----

  ghost predicate ClientFine(s: System, x: Client) {
    match x
    case Idle => true
    case HasLog(_, n) => n <= |s.log|
    case HasBoth(_, n, m) => n <= |s.log| && m <= |s.agents| && Replays(s.log[..n], s.agents[..m])
  }

  /** What a client is about to rely on is still absent. */
  ghost predicate ClaimFine(s: System, x: Client) {
    Rebuilt(s.agents).Success?
    && forall child, request | Claims(s, x, child, request) :: NamesNeither(Rebuilt(s.agents).value, child, request)
  }

  ghost predicate AckFine(s: System, k: int) {
    0 <= k < |s.acks| ==>
      && s.acks[k].at < s.Sound()
      && (s.acks[k].q.AskStart? ==> s.log[s.acks[k].at] == UsageStarted(s.acks[k].q.op, s.acks[k].q.rid))
  }

  ghost predicate AcksFine(s: System) {
    && (forall k {:trigger AckFine(s, k)} :: AckFine(s, k))
    && (forall j, k | 0 <= j < k < |s.acks| :: s.acks[j].at < s.acks[k].at)
  }

  ghost predicate Live(s: System) {
    Replays(s.log, s.agents) && forall c | c in s.clients :: ClientFine(s, s.clients[c]) && ClaimFine(s, s.clients[c])
  }

  /** The last fact was decided on a readable ledger and clashes with it. */
  ghost predicate Clashed(s: System) {
    s.clash.Some? && |s.log| >= 1 && s.clash.value.m <= |s.agents|
    && var prior, seen := s.log[..|s.log| - 1], s.agents[..s.clash.value.m];
       Replays(prior, seen) && VerdictAt(prior, seen, s.clash.value.q) == Write(s.log[|s.log| - 1])
       && !Unclashing(LedgerAt(prior, seen), s.clash.value.q)
  }

  ghost predicate Inv(s: System) {
    Rebuilt(s.agents).Success? && AcksFine(s) && if s.clash.None? then Live(s) else Clashed(s)
  }

  // ---- a clashing write is refused by every reader ever after ----

  /** A ledger seen with an older or newer Directory refuses it too. */
  lemma ClashIsRefused(L: Ledger, D: Directory, q: Request, f: Fact, P: Ledger, E: Directory)
    requires Decide(L, D, q) == Write(f) && !Unclashing(L, q) && (Agrees(L, P) || Agrees(P, L))
    ensures Step(P, E, f).Failure?
  {
    hide Decide, ReservationDebit, DirectoryChild;
    WritesItsFact(L, D, q);
    if q.AskTools? && q.agent in P.accounts {
      assert P.accounts[q.agent] == L.accounts[q.agent];
      CutBatchFits(L, q.agent, q.requested);
    }
  }

  lemma CutBatchFits(L: Ledger, agent: Id, requested: nat)
    requires agent in L.accounts
    ensures var a, n := L.accounts[agent], ToolsAdmitted(L, agent, requested);
      forall d | d != ToolCalls :: FitsIn(a, Amounts(0, 0, n, 0), d) <==> FitsIn(a, NOTHING, d)
  {
  }

  lemma ClashNeverReplays(prior: seq<Fact>, agents: seq<Creation>, m: nat, k: nat, q: Request, f: Fact)
    requires m <= |agents| && k <= |agents| && Rebuilt(agents).Success?
    requires Replays(prior, agents[..m]) && VerdictAt(prior, agents[..m], q) == Write(f)
    requires !Unclashing(LedgerAt(prior, agents[..m]), q)
    ensures !Replays(prior + [f], agents[..k])
  {
    hide Decide, Step, Unclashing;
    RebuiltGrows(agents, m);
    RebuiltGrows(agents, k);
    var D, E := Rebuilt(agents[..m]).value, Rebuilt(agents[..k]).value;
    if Replays(prior + [f], agents[..k]) {
      assert (prior + [f])[..|prior|] == prior;
      ReplayPrefix(prior + [f], |prior|, E);
      ReplayAppend(prior, f, E);
      BothAgree(prior, agents, m, k);
      ClashIsRefused(LedgerAt(prior, agents[..m]), D, q, f, LedgerAt(prior, agents[..k]), E);
    }
  }

  /** One log under two moments of the Directory. */
  lemma BothAgree(log: seq<Fact>, agents: seq<Creation>, m: nat, k: nat)
    requires m <= |agents| && k <= |agents| && Rebuilt(agents).Success?
    requires Replays(log, agents[..m]) && Replays(log, agents[..k])
    ensures Agrees(LedgerAt(log, agents[..m]), LedgerAt(log, agents[..k]))
            || Agrees(LedgerAt(log, agents[..k]), LedgerAt(log, agents[..m]))
  {
    if m <= k { LaterAgrees(log, agents, m, k); } else { LaterAgrees(log, agents, k, m); }
  }

  lemma LaterAgrees(log: seq<Fact>, agents: seq<Creation>, m: nat, k: nat)
    requires m <= k <= |agents| && Rebuilt(agents).Success?
    requires Replays(log, agents[..m]) && Replays(log, agents[..k])
    ensures Agrees(LedgerAt(log, agents[..m]), LedgerAt(log, agents[..k]))
  {
    hide Agrees, Promote;
    RebuiltGrows(agents, k);
    assert agents[..k][..m] == agents[..m];
    RebuiltGrows(agents[..k], m);
    var D, E := Rebuilt(agents[..m]).value, Rebuilt(agents[..k]).value;
    ReplayGrows(log, D, E);
    ReplaySound(log, D);
    SoundShape(LedgerAt(log, agents[..m]), D);
    PromoteAgrees(LedgerAt(log, agents[..m]), D, E);
  }

  /** The write a client decided on an older Directory is still acceptable when
      it lands, exactly if it clashed with nothing it read. */
  lemma LandingReplays(s: System, x: Client)
    requires Replays(s.log, s.agents) && ClientFine(s, x) && ClaimFine(s, x)
    requires x.HasBoth? && x.n == |s.log| && VerdictAt(s.log[..x.n], s.agents[..x.m], x.q).Write?
    ensures s.log[..x.n] == s.log
    ensures Replays(s.log + [VerdictAt(s.log[..x.n], s.agents[..x.m], x.q).fact], s.agents)
            <==> Unclashing(LedgerAt(s.log[..x.n], s.agents[..x.m]), x.q)
  {
    assert s.log[..x.n] == s.log;
    if Unclashing(LedgerAt(s.log, s.agents[..x.m]), x.q) {
      UnclashingLands(s, x);
    } else {
      ClashNeverReplays(s.log, s.agents, x.m, |s.agents|, x.q, VerdictAt(s.log, s.agents[..x.m], x.q).fact);
      assert s.agents[..|s.agents|] == s.agents;
    }
  }

  lemma UnclashingLands(s: System, x: Client)
    requires Replays(s.log, s.agents) && ClientFine(s, x) && ClaimFine(s, x)
    requires x.HasBoth? && x.n == |s.log| && s.log[..x.n] == s.log && VerdictAt(s.log, s.agents[..x.m], x.q).Write?
    requires Unclashing(LedgerAt(s.log, s.agents[..x.m]), x.q)
    ensures Replays(s.log + [VerdictAt(s.log, s.agents[..x.m], x.q).fact], s.agents)
  {
    hide Decide, Step, Rebuilt, Fits, FitsAt;
    var D, E := Rebuilt(s.agents[..x.m]).value, Rebuilt(s.agents).value;
    var L := Replay(s.log, D).value;
    var f := Decide(L, D, x.q).fact;
    RebuiltGrows(s.agents, x.m);
    RebuiltIsCoherent(s.agents[..x.m]);
    ReplaySound(s.log, D);
    SoundShape(L, D);
    GuardedWriteReplays(L, D, x.q);
    ReplayAppend(s.log, f, D);
    ReplayGrows(s.log, D, E);
    StepHasEffect(L, D, f);
    ClaimFits(s, x, L, D, E, f);
    FitsAfter(L, D, Step(L, D, f).value, E, f);
    ReplayGrows(s.log + [f], D, E);
  }

  lemma ClaimFits(s: System, x: Client, L: Ledger, D: Directory, E: Directory, f: Fact)
    requires x.HasBoth? && x.n == |s.log| && x.m <= |s.agents| && Replays(s.log, s.agents[..x.m])
    requires s.log[..x.n] == s.log && ClaimFine(s, x) && E == Rebuilt(s.agents).value
    requires D == Rebuilt(s.agents[..x.m]).value && L == LedgerAt(s.log, s.agents[..x.m])
    requires Decide(L, D, x.q) == Write(f) && Step(L, D, f).Success?
    ensures f.ChildReserved? || f.HoldReleased? ==> FitsAt(Step(L, D, f).value, E, f.rid)
  {
    if f.ChildReserved? || f.HoldReleased? {
      DecidedClaim(L, D, x.q, f);
      var c := Claim(L, x.q).value;
      assert Claims(s, x, c.0, c.1);
      if f.ChildReserved? { ReserveHasEffect(L, D, f); } else { ReleaseHasEffect(L, D, f); }
    }
  }

  lemma DecidedClaim(L: Ledger, D: Directory, q: Request, f: Fact)
    requires Decide(L, D, q) == Write(f) && (f.ChildReserved? || f.HoldReleased?)
    ensures f.ChildReserved? ==> q.AskChild? && Claim(L, q) == Some((f.child, f.request))
    ensures f.HoldReleased? ==> q.AskRelease? && f.rid in L.holds && Claim(L, q) == Some((L.holds[f.rid].child, L.holds[f.rid].request))
  {
  }

  /** Both kinds of claim are checked against the Directory just read. */
  lemma DecidedNamesNeither(L: Ledger, D: Directory, q: Request)
    requires Decide(L, D, q).Write? && Claim(L, q).Some?
    ensures NamesNeither(D, Claim(L, q).value.0, Claim(L, q).value.1)
  {
  }

  // ---- every step keeps the invariant ----

  /** Appending to either stream disturbs no snapshot. */
  lemma ClientStays(s: System, t: System, x: Client)
    requires ClientFine(s, x) && s.log <= t.log && s.agents <= t.agents
    ensures ClientFine(t, x)
    ensures forall child, request :: Claims(t, x, child, request) <==> Claims(s, x, child, request)
  {
    match x
    case HasBoth(_, n, m) =>
      assert t.log[..n] == s.log[..n] && t.agents[..m] == s.agents[..m];
    case _ =>
  }

  lemma AcksStay(s: System, t: System)
    requires AcksFine(s) && s.log <= t.log && t.acks == s.acks && s.Sound() <= t.Sound()
    ensures AcksFine(t)
  {
    forall k ensures AckFine(t, k) { assert AckFine(s, k); }
  }

  /** Steps that touch neither stream. */
  lemma ClashStays(s: System, t: System)
    requires Clashed(s) && t.log == s.log && s.agents <= t.agents && t.clash == s.clash
    ensures Clashed(t)
  {
    hide Replay, Rebuilt, Decide, Unclashing;
    assert t.agents[..s.clash.value.m] == s.agents[..s.clash.value.m];
  }

  lemma BeginsKeeps(s: System, t: System, c: nat, q: Request)
    requires Inv(s) && Begins(s, t, c, q)
    ensures Inv(t)
  {
    hide Replays, Decide;
    AcksStay(s, t);
    if s.clash.Some? {
      ClashStays(s, t);
    } else {
      forall d | d in t.clients ensures ClientFine(t, t.clients[d]) && ClaimFine(t, t.clients[d]) {
        if d != c { ClientStays(s, t, s.clients[d]); }
      }
    }
  }

  lemma ReadsKeeps(s: System, t: System, c: nat)
    requires Inv(s) && ReadsDirectory(s, t, c)
    ensures Inv(t)
  {
    hide Decide;
    AcksStay(s, t);
    if s.clash.Some? {
      ClashStays(s, t);
    } else {
      forall d | d in t.clients ensures ClientFine(t, t.clients[d]) && ClaimFine(t, t.clients[d]) {
        if d != c {
          ClientStays(s, t, s.clients[d]);
        } else {
          var x := t.clients[c];
          assert t.agents[..x.m] == s.agents;
          ReplayPrefix(s.log, x.n, Rebuilt(s.agents).value);
          FreshClaimFine(t, x);
        }
      }
    }
  }

  lemma FreshClaimFine(t: System, x: Client)
    requires x.HasBoth? && x.n <= |t.log| && x.m == |t.agents| && Replays(t.log[..x.n], t.agents)
    ensures ClaimFine(t, x)
  {
    assert t.agents[..x.m] == t.agents;
    var L, D := LedgerAt(t.log[..x.n], t.agents), Rebuilt(t.agents).value;
    if Decide(L, D, x.q).Write? && Claim(L, x.q).Some? { DecidedNamesNeither(L, D, x.q); }
  }

  lemma LeavesKeeps(s: System, t: System, c: nat)
    requires Inv(s) && Leaves(s, t, c)
    ensures Inv(t)
  {
    hide Replays, Decide;
    AcksStay(s, t);
    if s.clash.Some? {
      ClashStays(s, t);
    } else {
      forall d | d in t.clients ensures ClientFine(t, t.clients[d]) && ClaimFine(t, t.clients[d]) {
        if d != c { ClientStays(s, t, s.clients[d]); }
      }
    }
  }

  /** Once a clashing write landed, no client can read the ledger again, so
      nothing lands after it. */
  lemma ClashIsLast(s: System, t: System, c: nat, told: bool)
    requires Inv(s) && Lands(s, t, c, told)
    ensures s.clash.None?
  {
    hide Decide, Unclashing, Replay, Rebuilt, AcksFine, Live;
    if s.clash.Some? { UnreadableForAll(s, s.clients[c].m); }
  }

  lemma UnreadableForAll(s: System, k: nat)
    requires Clashed(s) && Rebuilt(s.agents).Success? && k <= |s.agents|
    ensures !Replays(s.log, s.agents[..k])
  {
    hide Decide, Unclashing, Replay, Rebuilt;
    var prior, f := s.log[..|s.log| - 1], s.log[|s.log| - 1];
    ClashNeverReplays(prior, s.agents, s.clash.value.m, k, s.clash.value.q, f);
    assert s.log == prior + [f];
  }

  lemma LandsKeeps(s: System, t: System, c: nat, told: bool)
    requires Inv(s) && Lands(s, t, c, told)
    ensures Inv(t)
  {
    hide Decide, Replays, Unclashing, Rebuilt, Replay, Claims, ClientFine, ClaimFine, AcksFine;
    var x := s.clients[c];
    ClashIsLast(s, t, c, told);
    LandedAcks(s, t, c, told);
    assert ClientFine(s, x) && ClaimFine(s, x);
    if t.clash.None? {
      assert s.log[..x.n] == s.log;
      LandingReplays(s, x);
      LandingKeepsClients(s, t, c);
    } else {
      assert t.log[..|t.log| - 1] == s.log;
    }
  }

  lemma LandingKeepsClients(s: System, t: System, c: nat)
    requires Live(s) && s.log <= t.log && t.agents == s.agents && t.clients == s.clients[c := Idle]
    requires Replays(t.log, t.agents) && Rebuilt(t.agents).Success?
    ensures Live(t)
  {
    hide Decide, Replays, Rebuilt, Claims, ClientFine;
    forall d | d in t.clients ensures ClientFine(t, t.clients[d]) && ClaimFine(t, t.clients[d]) {
      if d != c { ClientStays(s, t, s.clients[d]); } else { IdleIsFine(t); }
    }
  }

  lemma LandedAcks(s: System, t: System, c: nat, told: bool)
    requires AcksFine(s) && s.clash.None? && Lands(s, t, c, told)
    ensures AcksFine(t)
  {
    var x := s.clients[c];
    StartWritesStart(LedgerAt(s.log, s.agents[..x.m]), Rebuilt(s.agents[..x.m]).value, x.q);
    hide Decide, Replays, Unclashing, Rebuilt, Replay;
    forall k ensures AckFine(t, k) { assert AckFine(s, k); }
    forall j, k | 0 <= j < k < |t.acks| ensures t.acks[j].at < t.acks[k].at { assert AckFine(s, j); }
  }

  lemma IdleIsFine(t: System)
    requires Rebuilt(t.agents).Success?
    ensures ClientFine(t, Idle) && ClaimFine(t, Idle)
  {
  }

  lemma StartWritesStart(L: Ledger, D: Directory, q: Request)
    requires q.AskStart? ==> Decide(L, D, q).Write?
    ensures q.AskStart? ==> Decide(L, D, q).fact == UsageStarted(q.op, q.rid)
  {
  }

  /** A creation that avoids a claim leaves it standing. */
  lemma ClaimSurvives(s: System, t: System, x: Client, e: Creation)
    requires ClientFine(s, x) && ClaimFine(s, x) && t == s.(agents := s.agents + [e])
    requires Rebuilt(t.agents).Success? && Rebuilt(t.agents).value == Rebuilt(s.agents).value.With(e, |s.agents| + 1)
    requires forall child, request | Claims(s, x, child, request) :: e.agent != child && e.request != request
    ensures ClientFine(t, x) && ClaimFine(t, x)
  {
    hide Rebuilt, ClientFine, Claims;
    ClientStays(s, t, x);
    forall child, request | Claims(t, x, child, request)
      ensures NamesNeither(Rebuilt(t.agents).value, child, request)
    {
      assert Claims(s, x, child, request);
    }
  }

  lemma CreationReplays(s: System, e: Creation)
    requires Replays(s.log, s.agents) && Conflicts(Rebuilt(s.agents).value, e) == [] && Managed(LedgerAt(s.log, s.agents), e)
    ensures Replays(s.log, s.agents + [e])
    ensures Rebuilt(s.agents + [e]).value == Rebuilt(s.agents).value.With(e, |s.agents| + 1)
  {
    hide Managed, Rebuilt, Conflicts, Replay;
    CreationKeepsReadable(World(s.log, s.agents), e);
    RebuiltAppend(s.agents, e);
  }

  lemma CreatesKeeps(s: System, t: System, e: Creation)
    requires Inv(s) && Creates(s, t, e)
    ensures Inv(t)
  {
    hide Decide, Replay, Managed, Conflicts, ClientFine, ClaimFine, Claims, AcksFine;
    AcksStay(s, t);
    RebuiltAppend(s.agents, e);
    if s.clash.Some? {
      ClashStays(s, t);
    } else {
      CreationReplays(s, e);
      hide Rebuilt;
      forall d | d in t.clients ensures ClientFine(t, t.clients[d]) && ClaimFine(t, t.clients[d]) {
        ClaimSurvives(s, t, s.clients[d], e);
      }
    }
  }

  lemma NextKeeps(s: System, t: System)
    requires Inv(s) && Next(s, t)
    ensures Inv(t) && s.log <= t.log && s.agents <= t.agents && s.acks <= t.acks
  {
    hide Inv;
    if c, q :| Begins(s, t, c, q) {
      BeginsKeeps(s, t, c, q);
    } else if c :| ReadsDirectory(s, t, c) {
      ReadsKeeps(s, t, c);
    } else if c :| Leaves(s, t, c) {
      LeavesKeeps(s, t, c);
    } else if c, told :| Lands(s, t, c, told) {
      LandsKeeps(s, t, c, told);
    } else {
      var e :| Creates(s, t, e);
      CreatesKeeps(s, t, e);
    }
  }

  ghost predicate Run(states: seq<System>) {
    |states| >= 1 && Init(states[0]) && forall i | 0 < i < |states| :: Next(states[i - 1], states[i])
  }

  lemma {:induction false} RunKeeps(states: seq<System>, i: nat)
    requires Run(states) && i < |states|
    ensures Inv(states[i])
  {
    if i == 0 {
      assert Rebuilt([]) == Success(EMPTY) && Replay([], EMPTY) == Success(BLANK);
    } else {
      hide Inv, Next;
      RunKeeps(states, i - 1);
      NextKeeps(states[i - 1], states[i]);
    }
  }

  /** The ledger can be read exactly as long as no landed write clashed with
      what its client had read. */
  lemma ReadableUnlessClashed(s: System)
    requires Inv(s)
    ensures Replays(s.log, s.agents) <==> s.clash.None?
    ensures 0 <= s.Sound() <= |s.log| && exists m | 0 <= m <= |s.agents| :: Replays(s.log[..s.Sound()], s.agents[..m])
  {
    hide Decide;
    assert s.agents[..|s.agents|] == s.agents;
    if s.clash.None? {
      assert s.log[..s.Sound()] == s.log;
    } else {
      UnreadableForAll(s, |s.agents|);
    }
  }

  /** Under any interleaving, of any requests: the ledger is readable unless the
      last landed write clashed; up to there every operation and every slot is
      used at most once; and of all clients told that their start of one
      reservation succeeded there is at most one. */
  lemma EveryRunIsSafe(states: seq<System>, i: nat)
    requires Run(states) && i < |states|
    ensures var s := states[i];
      && Rebuilt(s.agents).Success? && (Replays(s.log, s.agents) <==> s.clash.None?)
      && (forall j, k | 0 <= j < k < s.Sound() :: s.log[j].op != s.log[k].op && !SameSlot(s.log[k], s.log[j]))
      && (forall j, k | 0 <= j < k < |s.acks| && s.acks[j].q.AskStart? && s.acks[k].q.AskStart? ::
            s.acks[j].q.rid != s.acks[k].q.rid)
  {
    hide SameSlot, Rebuilt, Replay, Live, Clashed;
    RunKeeps(states, i);
    var s := states[i];
    ReadableUnlessClashed(s);
    var n := s.Sound();
    var m :| 0 <= m <= |s.agents| && Replays(s.log[..n], s.agents[..m]);
    forall j, k | 0 <= j < k < n
      ensures s.log[j].op != s.log[k].op && !SameSlot(s.log[k], s.log[j])
    {
      OneFactPerSlot(s.log[..n], Rebuilt(s.agents[..m]).value, j, k);
    }
    forall j, k | 0 <= j < k < |s.acks| && s.acks[j].q.AskStart? && s.acks[k].q.AskStart?
      ensures s.acks[j].q.rid != s.acks[k].q.rid
    {
      assert AckFine(s, j) && AckFine(s, k);
      StartsShareASlot(s.log[s.acks[k].at], s.log[s.acks[j].at]);
    }
  }

  /** And nothing lands after a write that clashed. */
  lemma {:induction false} NothingLandsAfterAClash(states: seq<System>, i: nat, j: nat)
    requires Run(states) && i <= j < |states| && states[i].clash.Some?
    ensures states[j].log == states[i].log && states[j].clash == states[i].clash
  {
    hide *;
    if i < j {
      RunSteps(states, j);
      NothingLandsAfterAClash(states, i, j - 1);
      RunKeeps(states, j - 1);
      StepAfterAClash(states[j - 1], states[j]);
    }
  }

  lemma RunSteps(states: seq<System>, j: nat)
    requires Run(states) && 0 < j < |states|
    ensures Next(states[j - 1], states[j])
  {
    hide Next, Init;
  }

  lemma StepAfterAClash(s: System, t: System)
    requires Inv(s) && Next(s, t) && s.clash.Some?
    ensures t.log == s.log && t.clash == s.clash
  {
    hide Inv, Replays, Lands;
    if c, told :| Lands(s, t, c, told) { ClashIsLast(s, t, c, told); }
  }

  lemma StartsShareASlot(f: Fact, g: Fact)
    ensures f.UsageStarted? && g.UsageStarted? && f.rid == g.rid ==> SameSlot(f, g)
  {
  }

  // ---- the assumptions about identifiers, and what breaks without them ----

  /** Child and usage reservation ids come from disjoint families. */
  predicate Namespaced(f: Fact) {
    match f
    case ChildReserved(_, rid, _, _, _, _, _, _) => rid.Derived? && rid.kind == "child-reservation"
    case UsageReserved(_, rid, _, _) => !(rid.Derived? && rid.kind == "child-reservation")
    case _ => true
  }

  ghost predicate Families(L: Ledger) {
    && (forall r | r in L.holds :: r.Derived? && r.kind == "child-reservation")
    && (forall r | r in L.usage :: !(r.Derived? && r.kind == "child-reservation"))
  }

  lemma FamiliesStay(L: Ledger, D: Directory, N: Ledger, f: Fact)
    requires Families(L) && Effect(L, D, N, f) && Namespaced(f)
    ensures Families(N)
  {
    if OnUsage(f) {
      UsageMovesForward(L, D, N, f);
      hide Effect;
    } else {
      OthersKeepUsage(L, D, N, f);
      HoldsStayInFamily(L, D, N, f);
    }
    if !f.ChildReserved? && !f.HoldCommitted? && !f.HoldReleased? { OthersKeepHolds(L, D, N, f); }
  }

  lemma HoldsStayInFamily(L: Ledger, D: Directory, N: Ledger, f: Fact)
    requires Effect(L, D, N, f) && Namespaced(f) && (forall r | r in L.holds :: r.Derived? && r.kind == "child-reservation")
    ensures forall r | r in N.holds :: r.Derived? && r.kind == "child-reservation"
  {
    hide RootEffect, DecideEffect, ChargeEffect, UsageEffect, CloseEffect, Affords, HasCapacity, RetainsTokens, Debited;
    if !f.ChildReserved? && !f.HoldCommitted? && !f.HoldReleased? { OthersKeepHolds(L, D, N, f); }
  }

  lemma {:induction false} NamespacedLogs(log: seq<Fact>, D: Directory)
    requires Replay(log, D).Success? && forall i | 0 <= i < |log| :: Namespaced(log[i])
    ensures Families(Replay(log, D).value)
  {
    if log != [] {
      hide Step;
      var prior, f := log[..|log| - 1], log[|log| - 1];
      NamespacedLogs(prior, D);
      ReplaySound(prior, D);
      SoundShape(Replay(prior, D).value, D);
      StepHasEffect(Replay(prior, D).value, D, f);
      FamiliesStay(Replay(prior, D).value, D, Replay(log, D).value, f);
    }
  }

  /** With disjoint families no reservation request can clash. */
  lemma {:induction false} NamespacesUnclash(log: seq<Fact>, D: Directory, q: Request)
    requires Replay(log, D).Success? && forall i | 0 <= i < |log| :: Namespaced(log[i])
    requires (q.AskChild? || q.AskReserveUsage?) && Namespaced(FactOf(BLANK, q))
    ensures Unclashing(Replay(log, D).value, q)
  {
    hide Step;
    NamespacedLogs(log, D);
  }

  /** Every request any client ever makes takes its reservation id from the
      right family. */
  ghost predicate NamespacedRun(states: seq<System>) {
    forall i | 0 <= i < |states| :: NamespacedClients(states[i])
  }

  ghost predicate NamespacedClients(s: System) {
    forall c | c in s.clients && s.clients[c] != Idle :: Namespaced(FactOf(BLANK, s.clients[c].q))
  }

  ghost predicate AllNamespaced(log: seq<Fact>) { forall k | 0 <= k < |log| :: Namespaced(log[k]) }

  lemma ClientsAreNamespaced(states: seq<System>, i: nat)
    requires NamespacedRun(states) && i < |states|
    ensures NamespacedClients(states[i])
  {
  }

  lemma FactsKeepTheirNames(L: Ledger, q: Request)
    ensures Namespaced(FactOf(L, q)) <==> Namespaced(FactOf(BLANK, q))
  {
  }

  lemma LandedFact(s: System, t: System, c: nat, told: bool) returns (L: Ledger)
    requires Lands(s, t, c, told)
    ensures t.log == s.log + [FactOf(L, s.clients[c].q)]
  {
    var x := s.clients[c];
    L := LedgerAt(s.log, s.agents[..x.m]);
    WritesItsFact(L, Rebuilt(s.agents[..x.m]).value, x.q);
  }

  lemma {:induction false} NamespacedRunLogs(states: seq<System>, i: nat)
    requires Run(states) && NamespacedRun(states) && i < |states|
    ensures AllNamespaced(states[i].log)
  {
    hide *;
    if i == 0 {
      RunBegins(states);
    } else {
      RunSteps(states, i);
      NamespacedRunLogs(states, i - 1);
      ClientsAreNamespaced(states, i - 1);
      NamespacedStep(states[i - 1], states[i]);
    }
  }

  lemma RunBegins(states: seq<System>)
    requires Run(states)
    ensures AllNamespaced(states[0].log)
  {
  }

  lemma NamespacedStep(s: System, t: System)
    requires NamespacedClients(s) && Next(s, t) && AllNamespaced(s.log)
    ensures AllNamespaced(t.log)
  {
    hide Replays, Decide, Unclashing, Namespaced, FactOf;
    if c, told :| Lands(s, t, c, told) {
      var L := LandedFact(s, t, c, told);
      FactsKeepTheirNames(L, s.clients[c].q);
      assert Namespaced(FactOf(BLANK, s.clients[c].q));
    }
  }

  predicate PastAnotherLimit(a: Account) {
    !FitsIn(a, NOTHING, Tokens) || !FitsIn(a, NOTHING, Steps) || !FitsIn(a, NOTHING, Wall)
  }

  /** With disjoint families the only write that can make the ledger unreadable
      is a Tool admission of an account past another limit. */
  lemma {:induction false} OnlyToolsClash(states: seq<System>, i: nat)
    requires Run(states) && NamespacedRun(states) && i < |states| && states[i].clash.Some?
    ensures var q, m := states[i].clash.value.q, states[i].clash.value.m;
      && q.AskTools? && |states[i].log| >= 1 && m <= |states[i].agents|
      && var prior, seen := states[i].log[..|states[i].log| - 1], states[i].agents[..m];
         Replays(prior, seen) && q.agent in LedgerAt(prior, seen).accounts
         && PastAnotherLimit(LedgerAt(prior, seen).accounts[q.agent])
  {
    hide Run, NamespacedRun, Replay, Rebuilt, Namespaced, Decide, Live, AcksFine;
    RunKeeps(states, i);
    NamespacedRunLogs(states, i);
    var s := states[i];
    var q, m := s.clash.value.q, s.clash.value.m;
    var prior, seen := s.log[..|s.log| - 1], s.agents[..m];
    RequestIsNamespaced(LedgerAt(prior, seen), Rebuilt(seen).value, q, s.log[|s.log| - 1]);
    if q.AskChild? || q.AskReserveUsage? { NamespacesUnclash(prior, Rebuilt(seen).value, q); }
    ToolsClashOnAnother(LedgerAt(prior, seen), q);
  }

  lemma RequestIsNamespaced(L: Ledger, D: Directory, q: Request, f: Fact)
    requires Decide(L, D, q) == Write(f) && Namespaced(f)
    ensures Namespaced(FactOf(BLANK, q))
  {
    WritesItsFact(L, D, q);
    FactsKeepTheirNames(L, q);
  }

  lemma ToolsClashOnAnother(L: Ledger, q: Request)
    requires !Unclashing(L, q)
    ensures q.AskTools? ==> q.agent in L.accounts && PastAnotherLimit(L.accounts[q.agent])
    ensures q.AskTools? || q.AskChild? || q.AskReserveUsage?
  {
  }
}
