/** Process-local slots: each running Agent takes one slot of every bounded
    ancestor. */
module ProcessSlots {
  import opened Prelude
  import opened Budget
  import opened Directory
  import opened Projection
  import opened LedgerBounds
  import opened DirectoryGrowth
  import opened ManagedHistory
  import opened EventStore
  import opened LedgerService

  type Leases = map<nat, seq<Id>>

  /** Whom a lease is for, and its owner when it was taken. */
  datatype Runner = Runner(agent: Id, owner: Option<Id>)

  type Runners = map<nat, Runner>

  datatype SlotError = LineageUnknown | AncestorMissing | AncestorClosed | ProcessesExhausted

  /** The leases charging `a`. */
  function Charging(held: Leases, a: Id): set<nat> { set t | t in held && a in held[t] }

  function Live(held: Leases, a: Id): nat { |Charging(held, a)| }

  function Counted(counts: map<Id, nat>, a: Id): nat { if a in counts then counts[a] else 0 }

  lemma NobodyLives(a: Id)
    ensures Live(map[], a) == 0
  {
    assert Charging(map[], a) == {};
  }

  /** Root-to-Agent ownership; a new Agent is appended to its owner's. */
  function AdmissionLineage(d: Directory, agent: Id, owner: Option<Id>, existing: bool): seq<Id>
    requires d.Coherent()
  {
    if existing then Lineage(d, agent)
    else if owner.None? then [agent]
    else if Lineage(d, owner.value) == [] then []
    else Lineage(d, owner.value) + [agent]
  }

  function AncestorsOf(lineage: seq<Id>): seq<Id>
    requires lineage != []
  {
    lineage[..|lineage| - 1]
  }

  // ---- which ancestors those are ----

  /** Following owners `k` times from a recorded Agent leads to `a`. */
  ghost predicate Leads(d: Directory, from: Id, k: nat, a: Id)
    decreases k
  {
    from in d.byAgent
    && if k == 0 then a == from
       else d.byAgent[from].who.owner.Some? && Leads(d, d.byAgent[from].who.owner.value, k - 1, a)
  }

  ghost predicate Reaches(d: Directory, from: Id, a: Id) { exists k: nat :: Leads(d, from, k, a) }

  /** `a` is the runner's owner or an ancestor of it. */
  ghost predicate Below(d: Directory, r: Runner, a: Id) { r.owner.Some? && Reaches(d, r.owner.value, a) }

  function OwnerOf(d: Directory, agent: Id): Option<Id> {
    if agent in d.byAgent then d.byAgent[agent].who.owner else None
  }

  function RunnerOf(d: Directory, agent: Id, owner: Option<Id>, existing: bool): Runner {
    Runner(agent, if existing then OwnerOf(d, agent) else owner)
  }

  predicate IsKnown(d: Directory, agent: Id, owner: Option<Id>, existing: bool) {
    if existing then agent in d.byAgent else owner.Some? ==> owner.value in d.byAgent
  }

  lemma ReachesNext(d: Directory, from: Id, a: Id)
    ensures Reaches(d, from, a) <==>
              from in d.byAgent
              && (a == from || (d.byAgent[from].who.owner.Some? && Reaches(d, d.byAgent[from].who.owner.value, a)))
  {
    if k: nat :| Leads(d, from, k, a) {
      if k > 0 { assert Leads(d, d.byAgent[from].who.owner.value, k - 1, a); }
    }
    if from in d.byAgent {
      if a == from { assert Leads(d, from, 0, a); }
      var owner := d.byAgent[from].who.owner;
      if owner.Some? && Reaches(d, owner.value, a) {
        var k: nat :| Leads(d, owner.value, k, a);
        assert Leads(d, from, k + 1, a);
      }
    }
  }

  /** A lineage holds exactly the Agents its last one leads up to. */
  lemma {:induction false} LineageReaches(d: Directory, agent: Id, a: Id)
    requires d.Coherent()
    ensures a in Lineage(d, agent) <==> Reaches(d, agent, a)
    decreases if agent in d.byAgent then d.byAgent[agent].created + 1 else 0
  {
    ReachesNext(d, agent, a);
    if agent in d.byAgent && d.byAgent[agent].who.owner.Some? {
      LineageReaches(d, d.byAgent[agent].who.owner.value, a);
    }
  }

  ghost predicate TopDown(D: Directory, ancestors: seq<Id>) {
    && (forall i | 0 < i < |ancestors| :: ancestors[i] in D.byAgent && D.byAgent[ancestors[i]].who.owner == Some(ancestors[i - 1]))
    && (ancestors != [] ==> ancestors[0] in D.byAgent && D.byAgent[ancestors[0]].who.owner == None)
  }

  /** Exactly those above the runner, each once, from the root down. */
  ghost predicate AreAncestors(D: Directory, ancestors: seq<Id>, r: Runner) {
    Duplicatefree(ancestors) && TopDown(D, ancestors) && forall a :: a in ancestors <==> Below(D, r, a)
  }

  /** The ancestors an admission looks at are exactly those above the runner,
      each once, and each comes after all above it. */
  lemma AncestorsExactly(d: Directory, agent: Id, owner: Option<Id>, existing: bool)
    requires d.Coherent()
    ensures AdmissionLineage(d, agent, owner, existing) != [] <==> IsKnown(d, agent, owner, existing)
    ensures IsKnown(d, agent, owner, existing) ==>
              AreAncestors(d, AncestorsOf(AdmissionLineage(d, agent, owner, existing)), RunnerOf(d, agent, owner, existing))
  {
    var above := RunnerOf(d, agent, owner, existing).owner;
    if IsKnown(d, agent, owner, existing) {
      if existing { OwnerIsRecorded(d, agent); }
      if above.Some? {
        LineageIsAChain(d, above.value);
        forall a ensures a in Lineage(d, above.value) <==> Reaches(d, above.value, a) { LineageReaches(d, above.value, a); }
      }
      hide Reaches;
      var lineage := AdmissionLineage(d, agent, owner, existing);
      assert above.Some? ==> lineage == Lineage(d, above.value) + [agent];
      assert AncestorsOf(lineage) == if above.None? then [] else Lineage(d, above.value);
    }
  }

  lemma OwnerIsRecorded(d: Directory, agent: Id)
    requires d.Coherent() && agent in d.byAgent
    ensures d.byAgent[agent].who.owner.Some? ==> d.byAgent[agent].who.owner.value in d.byAgent
  {
  }

  /** Growth changes nobody's ancestors. */
  lemma {:induction false} LeadsStays(d: Directory, later: Directory, from: Id, k: nat, a: Id)
    requires d.GrowsTo(later) && from in d.byAgent && d.Coherent()
    ensures Leads(later, from, k, a) <==> Leads(d, from, k, a)
    decreases k
  {
    if k > 0 && d.byAgent[from].who.owner.Some? {
      OwnerIsRecorded(d, from);
      LeadsStays(d, later, d.byAgent[from].who.owner.value, k - 1, a);
    }
  }

  lemma BelowStays(d: Directory, later: Directory, r: Runner, a: Id)
    requires d.GrowsTo(later) && d.Coherent() && (r.owner.Some? ==> r.owner.value in d.byAgent)
    ensures Below(later, r, a) <==> Below(d, r, a)
  {
    if r.owner.Some? {
      forall k: nat ensures Leads(later, r.owner.value, k, a) <==> Leads(d, r.owner.value, k, a) {
        LeadsStays(d, later, r.owner.value, k, a);
      }
    }
  }

  predicate Bounded(L: Ledger, a: Id) { a in L.accounts && L.accounts[a].limits.processes.Some? }

  predicate HasRoom(L: Ledger, held: Leases, a: Id) {
    && a in L.accounts && L.accounts[a].Open()
    && (Bounded(L, a) ==> Live(held, a) < L.accounts[a].limits.processes.value)
  }

  /** The bounded ones, in order. */
  function BoundedOf(L: Ledger, ancestors: seq<Id>): seq<Id> {
    if ancestors == [] then []
    else
      var a := ancestors[|ancestors| - 1];
      BoundedOf(L, ancestors[..|ancestors| - 1]) + (if Bounded(L, a) then [a] else [])
  }

  lemma {:induction false} BoundedOfMembers(L: Ledger, ancestors: seq<Id>, a: Id)
    ensures a in BoundedOf(L, ancestors) <==> a in ancestors && Bounded(L, a)
  {
    if ancestors != [] {
      BoundedOfMembers(L, ancestors[..|ancestors| - 1], a);
      assert ancestors == ancestors[..|ancestors| - 1] + [ancestors[|ancestors| - 1]];
    }
  }

  lemma {:induction false} BoundedOfDistinct(L: Ledger, ancestors: seq<Id>)
    requires Duplicatefree(ancestors)
    ensures Duplicatefree(BoundedOf(L, ancestors))
  {
    if ancestors != [] {
      var most, a := ancestors[..|ancestors| - 1], ancestors[|ancestors| - 1];
      BoundedOfDistinct(L, most);
      BoundedOfMembers(L, most, a);
    }
  }

  /** A lease charges every bounded ancestor of its runner, once, and nobody
      else; all of them have accounts. */
  ghost predicate IsCharged(L: Ledger, D: Directory, charged: seq<Id>, r: Runner) {
    && Duplicatefree(charged) && (r.owner.Some? ==> r.owner.value in D.byAgent)
    && (forall a | Below(D, r, a) :: a in L.accounts)
    && (forall a :: a in charged <==> Below(D, r, a) && Bounded(L, a))
  }

  /** The leases of runners below `a`. */
  ghost function RunningBelow(D: Directory, held: Leases, who: Runners, a: Id): set<nat>
    requires held.Keys == who.Keys
  {
    set t | t in held && Below(D, who[t], a)
  }

  /** Every lease charges whom it should, and no bounded account has more live
      leases than it allows. */
  ghost predicate SlotsFine(L: Ledger, D: Directory, held: Leases, who: Runners) {
    && held.Keys == who.Keys && D.Coherent()
    && (forall t | t in held :: IsCharged(L, D, held[t], who[t]))
    && (forall a | Bounded(L, a) :: Live(held, a) <= L.accounts[a].limits.processes.value)
  }

  /** So what is limited is how many run below the account. */
  lemma LiveIsRunningBelow(L: Ledger, D: Directory, held: Leases, who: Runners, a: Id)
    requires SlotsFine(L, D, held, who) && Bounded(L, a)
    ensures RunningBelow(D, held, who, a) == Charging(held, a)
    ensures |RunningBelow(D, held, who, a)| <= L.accounts[a].limits.processes.value
  {
    hide Below, Duplicatefree;
    forall t | t in held ensures a in held[t] <==> Below(D, who[t], a) { assert IsCharged(L, D, held[t], who[t]); }
    assert RunningBelow(D, held, who, a) == Charging(held, a);
    assert Live(held, a) == |Charging(held, a)|;
  }

  /** What stops an ancestor from being charged. */
  function Hindrance(L: Ledger, a: Id): SlotError {
    if a !in L.accounts then AncestorMissing
    else if L.accounts[a].closed.Some? then AncestorClosed
    else ProcessesExhausted
  }

  ghost predicate StoppedAt(L: Ledger, held: Leases, ancestors: seq<Id>, i: int) {
    0 <= i < |ancestors| && !HasRoom(L, held, ancestors[i]) && forall j | 0 <= j < i :: HasRoom(L, held, ancestors[j])
  }

  ghost predicate AllHaveRoom(L: Ledger, held: Leases, ancestors: seq<Id>) { forall a | a in ancestors :: HasRoom(L, held, a) }

  class ProcessSlotAuthority {
    const store: Store
    const service: BudgetLedgerService
    var held: Leases
    var issued: nat
    ghost var who: Runners

    constructor (s: Store)
      requires s.Readable()
      ensures store == s && held == map[] && Valid()
      ensures SlotsFine(Replay(s.log, Rebuilt(s.agents).value).value, Rebuilt(s.agents).value, held, who)
    {
      store := s;
      service := new BudgetLedgerService(s);
      held, issued := map[], 0;
      who := map[];
      new;
      RebuiltIsCoherent(s.agents);
      forall a ensures Live(held, a) == 0 { assert Charging(held, a) == {}; }
    }

    ghost predicate Valid()
      reads this, store
    {
      service.store == store && store.Readable() && held.Keys == who.Keys && forall t | t in held :: t < issued
    }

    /** Occurrences over all leases, which is what the admission loop counts. */
    method Count() returns (counts: map<Id, nat>)
      requires forall t | t in held :: Duplicatefree(held[t])
      ensures forall a :: Counted(counts, a) == Live(held, a)
    {
      hide Live;
      counts := map[];
      var rest := held.Keys;
      ghost var done: Leases := map[];
      forall a ensures Live(done, a) == 0 { NobodyLives(a); }
      while rest != {}
        invariant rest <= held.Keys && done.Keys == held.Keys - rest
        invariant forall t | t in done :: done[t] == held[t]
        invariant forall a :: Counted(counts, a) == Live(done, a)
        decreases |rest|
      {
        var t :| t in rest;
        rest := rest - {t};
        var more := CountLease(held[t], counts);
        forall a ensures Counted(more, a) == Live(done[t := held[t]], a) { LeaseAdds(done, t, held[t], a); }
        counts, done := more, done[t := held[t]];
      }
      assert done == held;
    }

    /** The inner loop: one more for every ancestor of one lease. */
    static method CountLease(lease: seq<Id>, counts: map<Id, nat>) returns (more: map<Id, nat>)
      requires Duplicatefree(lease)
      ensures forall a :: Counted(more, a) == Counted(counts, a) + (if a in lease then 1 else 0)
    {
      more := counts;
      for i := 0 to |lease|
        invariant forall a :: Counted(more, a) == Counted(counts, a) + (if a in lease[..i] then 1 else 0)
      {
        var a := lease[i];
        assert lease[..i + 1] == lease[..i] + [a];
        assert a !in lease[..i];
        more := more[a := Counted(more, a) + 1];
      }
      assert lease[..|lease|] == lease;
    }

    /** The ancestors to charge, or what stops the first that cannot be. */
    method Charge(L: Ledger, ancestors: seq<Id>, counts: map<Id, nat>) returns (r: Result<seq<Id>, SlotError>)
      requires forall a :: Counted(counts, a) == Live(held, a)
      ensures r.Success? <==> AllHaveRoom(L, held, ancestors)
      ensures r.Success? ==> r.value == BoundedOf(L, ancestors)
      ensures r.Failure? ==> exists i :: StoppedAt(L, held, ancestors, i) && r.error == Hindrance(L, ancestors[i])
    {
      hide Live;
      var charged: seq<Id> := [];
      for i := 0 to |ancestors|
        invariant charged == BoundedOf(L, ancestors[..i])
        invariant forall j | 0 <= j < i :: HasRoom(L, held, ancestors[j])
      {
        var a := ancestors[i];
        assert a in ancestors;
        if a !in L.accounts {
          assert StoppedAt(L, held, ancestors, i);
          return Failure(AncestorMissing);
        }
        if !L.accounts[a].Open() {
          assert StoppedAt(L, held, ancestors, i);
          return Failure(AncestorClosed);
        }
        assert ancestors[..i + 1][..i] == ancestors[..i];
        var limit := L.accounts[a].limits.processes;
        if limit.Some? {
          if Counted(counts, a) >= limit.value {
            assert StoppedAt(L, held, ancestors, i);
            return Failure(ProcessesExhausted);
          }
          charged := charged + [a];
        }
      }
      assert ancestors[..|ancestors|] == ancestors;
      return Success(charged);
    }

    method Acquire(agent: Id, owner: Option<Id>, existing: bool) returns (r: Result<nat, SlotError>)
      requires Valid() && SlotsFine(Replay(store.log, Rebuilt(store.agents).value).value, Rebuilt(store.agents).value, held, who)
      modifies this`held, this`issued, this`who
      ensures Valid()
      ensures var D := Rebuilt(store.agents).value;
        && Acquired(Replay(store.log, D).value, D, old(held), held, agent, owner, existing, r)
        && who == if r.Success? then old(who)[r.value := RunnerOf(D, agent, owner, existing)] else old(who)
      ensures SlotsFine(Replay(store.log, Rebuilt(store.agents).value).value, Rebuilt(store.agents).value, held, who)
    {
      hide Replay, Rebuilt, Live, Lineage, HasRoom, BoundedOf, Duplicatefree, Below, AdmissionLineage, AncestorsOf;
      hide SlotsFine, Acquired, AreAncestors, AllHaveRoom, IsCharged, IsKnown, RunnerOf, Hindrance;
      var L, D := service.LoadContext();
      RebuiltIsCoherent(store.agents);
      AncestorsExactly(D, agent, owner, existing);
      LeasesAreDistinct(L, D, held, who);
      var lineage := AdmissionLineage(D, agent, owner, existing);
      if lineage == [] {
        UnknownIsRefused(L, D, held, agent, owner, existing);
        return Failure(LineageUnknown);
      }
      var ancestors := AncestorsOf(lineage);
      var counts := Count();
      var charged := Charge(L, ancestors, counts);
      if charged.Failure? {
        ghost var i :| StoppedAt(L, held, ancestors, i) && charged.error == Hindrance(L, ancestors[i]);
        FullIsRefused(L, D, held, agent, owner, existing, ancestors, i);
        return Failure(charged.error);
      }
      var token := issued;
      LeaseIsTaken(L, D, held, token, agent, owner, existing, ancestors);
      LeaseFits(L, D, held, who, token, BoundedOf(L, ancestors), RunnerOf(D, agent, owner, existing));
      issued := issued + 1;
      held := held[token := charged.value];
      who := who[token := RunnerOf(D, agent, owner, existing)];
      return Success(token);
    }

    method Release(token: nat)
      requires Valid()
      modifies this`held, this`who
      ensures Valid() && held == old(held) - {token} && who == old(who) - {token}
    {
      held := held - {token};
      who := who - {token};
    }

    method Held(a: Id) returns (n: nat)
      ensures n == Live(held, a)
    {
      n := 0;
      var rest := held.Keys;
      ghost var done: Leases := map[];
      while rest != {}
        invariant rest <= held.Keys && done.Keys == held.Keys - rest
        invariant forall t | t in done :: done[t] == held[t]
        invariant n == Live(done, a)
        decreases |rest|
      {
        var t :| t in rest;
        rest := rest - {t};
        LeaseAdds(done, t, held[t], a);
        if a in held[t] { n := n + 1; }
        done := done[t := held[t]];
      }
      assert done == held;
    }
  }

  /** `a` is the topmost ancestor without room. */
  ghost predicate FirstFull(L: Ledger, D: Directory, held: Leases, r: Runner, a: Id) {
    && Below(D, r, a) && !HasRoom(L, held, a)
    && a in D.byAgent
    && forall b | Below(D, Runner(a, D.byAgent[a].who.owner), b) :: HasRoom(L, held, b)
  }

  /** Admission succeeds exactly when every ancestor is open and has room, and
      then the new lease charges every bounded one and nobody else; otherwise
      the topmost ancestor that cannot be charged says why. */
  ghost predicate Acquired(L: Ledger, D: Directory, held: Leases, held': Leases, agent: Id, owner: Option<Id>,
                           existing: bool, r: Result<nat, SlotError>)
  {
    var runner, known := RunnerOf(D, agent, owner, existing), IsKnown(D, agent, owner, existing);
    && (r.Success? <==> known && forall a | Below(D, runner, a) :: HasRoom(L, held, a))
    && (r.Success? ==>
          r.value !in held && r.value in held' && held' == held[r.value := held'[r.value]]
          && IsCharged(L, D, held'[r.value], runner))
    && (r.Failure? ==> held' == held && if !known then r.error == LineageUnknown
                       else exists a :: FirstFull(L, D, held, runner, a) && r.error == Hindrance(L, a))
  }

  lemma UnknownIsRefused(L: Ledger, D: Directory, held: Leases, agent: Id, owner: Option<Id>, existing: bool)
    requires !IsKnown(D, agent, owner, existing)
    ensures Acquired(L, D, held, held, agent, owner, existing, Failure(LineageUnknown))
  {
  }

  lemma LeasesAreDistinct(L: Ledger, D: Directory, held: Leases, who: Runners)
    requires SlotsFine(L, D, held, who)
    ensures forall t | t in held :: Duplicatefree(held[t])
  {
    forall t | t in held ensures Duplicatefree(held[t]) { assert IsCharged(L, D, held[t], who[t]); }
  }

  lemma {:induction false} HigherComeFirst(D: Directory, ancestors: seq<Id>, i: nat, b: Id)
    requires TopDown(D, ancestors) && i < |ancestors| && Below(D, Runner(ancestors[i], D.byAgent[ancestors[i]].who.owner), b)
    ensures b in ancestors[..i]
  {
    var owner := D.byAgent[ancestors[i]].who.owner;
    ReachesNext(D, owner.value, b);
    if b != owner.value {
      hide Reaches;
      HigherComeFirst(D, ancestors, i - 1, b);
      assert ancestors[..i - 1] == ancestors[..i][..i - 1];
    } else {
      assert ancestors[..i][i - 1] == b;
    }
  }

  lemma FullIsRefused(L: Ledger, D: Directory, held: Leases, agent: Id, owner: Option<Id>, existing: bool,
                      ancestors: seq<Id>, i: int)
    requires IsKnown(D, agent, owner, existing) && AreAncestors(D, ancestors, RunnerOf(D, agent, owner, existing))
    requires StoppedAt(L, held, ancestors, i)
    ensures Acquired(L, D, held, held, agent, owner, existing, Failure(Hindrance(L, ancestors[i])))
  {
    hide Below, HasRoom;
    var a := ancestors[i];
    assert a in ancestors;
    forall b | Below(D, Runner(a, D.byAgent[a].who.owner), b) ensures HasRoom(L, held, b) { HigherComeFirst(D, ancestors, i, b); }
    assert FirstFull(L, D, held, RunnerOf(D, agent, owner, existing), a);
  }

  lemma LeaseIsTaken(L: Ledger, D: Directory, held: Leases, t: nat, agent: Id, owner: Option<Id>, existing: bool, ancestors: seq<Id>)
    requires D.Coherent() && IsKnown(D, agent, owner, existing) && t !in held
    requires AreAncestors(D, ancestors, RunnerOf(D, agent, owner, existing)) && AllHaveRoom(L, held, ancestors)
    ensures IsCharged(L, D, BoundedOf(L, ancestors), RunnerOf(D, agent, owner, existing))
    ensures forall a | Below(D, RunnerOf(D, agent, owner, existing), a) :: HasRoom(L, held, a)
    ensures Acquired(L, D, held, held[t := BoundedOf(L, ancestors)], agent, owner, existing, Success(t))
  {
    if existing { OwnerIsRecorded(D, agent); }
    hide Below, Duplicatefree, Live;
    BoundedOfDistinct(L, ancestors);
    forall a ensures a in BoundedOf(L, ancestors) <==> a in ancestors && Bounded(L, a) { BoundedOfMembers(L, ancestors, a); }
  }

  lemma LeaseAdds(held: Leases, t: nat, charged: seq<Id>, a: Id)
    requires t !in held
    ensures Live(held[t := charged], a) == Live(held, a) + (if a in charged then 1 else 0)
  {
    var more := held[t := charged];
    assert Charging(more, a) == Charging(held, a) + (if a in charged then {t} else {});
  }

  lemma LeaseFits(L: Ledger, D: Directory, held: Leases, who: Runners, t: nat, charged: seq<Id>, r: Runner)
    requires SlotsFine(L, D, held, who) && t !in held && IsCharged(L, D, charged, r)
    requires forall a | Below(D, r, a) :: HasRoom(L, held, a)
    ensures SlotsFine(L, D, held[t := charged], who[t := r])
  {
    hide Live, Below, Duplicatefree;
    forall a | Bounded(L, a) ensures Live(held[t := charged], a) <= L.accounts[a].limits.processes.value {
      LeaseAdds(held, t, charged, a);
    }
  }

  lemma ReleaseFits(L: Ledger, D: Directory, held: Leases, who: Runners, t: nat)
    requires SlotsFine(L, D, held, who)
    ensures SlotsFine(L, D, held - {t}, who - {t})
  {
    hide Below, Duplicatefree;
    forall a | Bounded(L, a) ensures Live(held - {t}, a) <= Live(held, a) {
      assert Charging(held - {t}, a) == Charging(held, a) - {t};
    }
  }

  // ---- runs of acquire and release while both streams grow ----

  datatype Moment = Moment(world: World, held: Leases, who: Runners)

  ghost predicate Grows(w: World, w': World) {
    Readable(w) && Readable(w') && w.log <= w'.log && w.agents <= w'.agents
  }

  ghost predicate Next(m: Moment, m': Moment) {
    || (m'.held == m.held && m'.who == m.who && Grows(m.world, m'.world))
    || (exists agent, owner, existing, r :: Takes(m, m', agent, owner, existing, r))
    || (exists t :: m' == m.(held := m.held - {t}, who := m.who - {t}))
  }

  ghost predicate Takes(m: Moment, m': Moment, agent: Id, owner: Option<Id>, existing: bool, r: Result<nat, SlotError>) {
    && m'.world == m.world && Readable(m.world)
    && Acquired(LedgerOf(m.world), DirectoryOf(m.world), m.held, m'.held, agent, owner, existing, r)
    && m'.who == if r.Success? then m.who[r.value := RunnerOf(DirectoryOf(m.world), agent, owner, existing)] else m.who
  }

  /** Growing logs never change whether an account bounds processes, nor by
      how much. */
  lemma ProcessLimitsStand(w: World, w': World, a: Id)
    requires Grows(w, w') && a in LedgerOf(w).accounts
    ensures a in LedgerOf(w').accounts
    ensures LedgerOf(w').accounts[a].limits.processes == LedgerOf(w).accounts[a].limits.processes
  {
    var D, E := DirectoryOf(w), DirectoryOf(w');
    RebuiltGrows(w'.agents, |w.agents|);
    assert w'.agents[..|w.agents|] == w.agents && w'.log[..|w.log|] == w.log;
    ReplayPrefix(w'.log, |w.log|, E);
    ReplayGrows(w.log, D, E);
    PromotionKeepsAccounts(w.log, D, E, a);
    hide Replay, Rebuilt;
    AccountsPersist(w'.log, |w.log|, E, a);
  }

  lemma PromotionKeepsAccounts(log: seq<Fact>, D: Directory, E: Directory, a: Id)
    requires Replay(log, D).Success? && a in Replay(log, D).value.accounts
    ensures var L := Replay(log, D).value; a in Promote(L, E).accounts && Promote(L, E).accounts[a] == L.accounts[a]
  {
    hide Replay;
    ReplaySound(log, D);
    SoundShape(Replay(log, D).value, D);
    PromoteAgrees(Replay(log, D).value, D, E);
  }

  ghost predicate Fine(m: Moment) {
    Readable(m.world) && SlotsFine(LedgerOf(m.world), DirectoryOf(m.world), m.held, m.who)
  }

  lemma DirectoriesGrow(w: World, w': World)
    requires Grows(w, w')
    ensures DirectoryOf(w).GrowsTo(DirectoryOf(w')) && DirectoryOf(w).Coherent() && DirectoryOf(w').Coherent()
  {
    RebuiltGrows(w'.agents, |w.agents|);
    assert w'.agents[..|w.agents|] == w.agents;
    RebuiltIsCoherent(w.agents);
    RebuiltIsCoherent(w'.agents);
  }

  ghost predicate LimitsStand(L: Ledger, N: Ledger) {
    forall a | a in L.accounts :: a in N.accounts && N.accounts[a].limits.processes == L.accounts[a].limits.processes
  }

  lemma AllLimitsStand(w: World, w': World)
    requires Grows(w, w')
    ensures LimitsStand(LedgerOf(w), LedgerOf(w'))
  {
    hide Readable, LedgerOf;
    forall a | a in LedgerOf(w).accounts
      ensures a in LedgerOf(w').accounts && LedgerOf(w').accounts[a].limits.processes == LedgerOf(w).accounts[a].limits.processes
    {
      ProcessLimitsStand(w, w', a);
    }
  }

  /** Growth leaves a lease charging exactly whom it should. */
  lemma ChargeStays(L: Ledger, D: Directory, N: Ledger, E: Directory, charged: seq<Id>, r: Runner)
    requires IsCharged(L, D, charged, r) && LimitsStand(L, N) && D.GrowsTo(E) && D.Coherent()
    ensures IsCharged(N, E, charged, r)
  {
    hide Below, Duplicatefree;
    forall a ensures Below(E, r, a) <==> Below(D, r, a) { BelowStays(D, E, r, a); }
  }

  lemma GrowthFits(w: World, w': World, held: Leases, who: Runners)
    requires Grows(w, w') && SlotsFine(LedgerOf(w), DirectoryOf(w), held, who)
    ensures SlotsFine(LedgerOf(w'), DirectoryOf(w'), held, who)
  {
    DirectoriesGrow(w, w');
    AllLimitsStand(w, w');
    hide Readable, LedgerOf, DirectoryOf, Live, Below, IsCharged, Rebuilt;
    LaterFits(LedgerOf(w), DirectoryOf(w), LedgerOf(w'), DirectoryOf(w'), held, who);
  }

  lemma LaterFits(L: Ledger, D: Directory, N: Ledger, E: Directory, held: Leases, who: Runners)
    requires SlotsFine(L, D, held, who) && LimitsStand(L, N) && D.GrowsTo(E) && E.Coherent()
    ensures SlotsFine(N, E, held, who)
  {
    hide Live, Below, IsCharged;
    forall t | t in held ensures IsCharged(N, E, held[t], who[t]) { ChargeStays(L, D, N, E, held[t], who[t]); }
    forall a | Bounded(N, a) && !Bounded(L, a) ensures Live(held, a) == 0 { Uncharged(L, D, held, who, a); }
  }

  lemma Uncharged(L: Ledger, D: Directory, held: Leases, who: Runners, a: Id)
    requires SlotsFine(L, D, held, who) && !Bounded(L, a)
    ensures Live(held, a) == 0
  {
    hide Below, Duplicatefree;
    assert Charging(held, a) == {} by {
      forall t | t in held ensures a !in held[t] { assert IsCharged(L, D, held[t], who[t]); }
    }
  }

  lemma NextFits(m: Moment, m': Moment)
    requires Fine(m) && Next(m, m')
    ensures Fine(m')
  {
    hide Readable, LedgerOf, DirectoryOf, SlotsFine;
    if m'.held == m.held && m'.who == m.who && Grows(m.world, m'.world) {
      GrowthFits(m.world, m'.world, m.held, m.who);
    } else if agent, owner, existing, r :| Takes(m, m', agent, owner, existing, r) {
      TakingFits(m, m', agent, owner, existing, r);
    } else {
      var t :| m' == m.(held := m.held - {t}, who := m.who - {t});
      ReleaseFits(LedgerOf(m.world), DirectoryOf(m.world), m.held, m.who, t);
    }
  }

  lemma TakingFits(m: Moment, m': Moment, agent: Id, owner: Option<Id>, existing: bool, r: Result<nat, SlotError>)
    requires Takes(m, m', agent, owner, existing, r) && Fine(m)
    ensures Fine(m')
  {
    hide Readable, LedgerOf, DirectoryOf, SlotsFine, HasRoom, Below, IsCharged;
    if r.Success? {
      LeaseFits(LedgerOf(m.world), DirectoryOf(m.world), m.held, m.who, r.value, m'.held[r.value],
                RunnerOf(DirectoryOf(m.world), agent, owner, existing));
    }
  }

  ghost predicate Run(moments: seq<Moment>) {
    && |moments| >= 1 && Readable(moments[0].world) && moments[0].held == map[] && moments[0].who == map[]
    && forall i | 0 < i < |moments| :: Next(moments[i - 1], moments[i])
  }

  lemma {:induction false} RunFits(moments: seq<Moment>, i: nat)
    requires Run(moments) && i < |moments|
    ensures Fine(moments[i])
  {
    if i == 0 {
      RebuiltIsCoherent(moments[0].world.agents);
      forall b ensures Live(moments[0].held, b) == 0 { NobodyLives(b); }
    } else {
      hide Next, Fine, Readable;
      RunFits(moments, i - 1);
      NextFits(moments[i - 1], moments[i]);
    }
  }

  /** Over any run of acquires and releases while both streams grow, no more
      Agents run below an ancestor than its process limit allows. */
  lemma SlotsNeverOverrun(moments: seq<Moment>, i: nat, a: Id)
    requires Run(moments) && i < |moments|
    ensures var m := moments[i];
      && Readable(m.world) && m.held.Keys == m.who.Keys
      && (a in LedgerOf(m.world).accounts && LedgerOf(m.world).accounts[a].limits.processes.Some? ==>
            |RunningBelow(DirectoryOf(m.world), m.held, m.who, a)| <= LedgerOf(m.world).accounts[a].limits.processes.value)
  {
    hide Run, RunningBelow, LedgerOf, DirectoryOf;
    RunFits(moments, i);
    var m := moments[i];
    if Bounded(LedgerOf(m.world), a) { LiveIsRunningBelow(LedgerOf(m.world), DirectoryOf(m.world), m.held, m.who, a); }
  }
}
