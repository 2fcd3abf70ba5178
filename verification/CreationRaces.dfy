/** Any number of clients creating Agents against one Directory stream at the
    same time, crashing and being cancelled at any point. */
module CreationRaces {
  import opened Prelude
  import opened Directory
  import opened EventStore
  import opened Registrar

  datatype Racer =
    | Resting
    | Deciding(q: CreateRequest, e: Creation)                       // payload frozen
    | Holding(q: CreateRequest, e: Creation, n: nat)                // decided on the first n creations
    | Explaining(q: CreateRequest, e: Creation, conflict: bool)     // the append raised

  /** An answer, and how long the log was when it was given. */
  datatype Reply = Reply(q: CreateRequest, e: Creation, result: Result<AgentRecord, CreateError>, at: nat)

  datatype Race = Race(log: seq<Creation>, racers: map<nat, Racer>, replies: seq<Reply>)

  predicate Fulfils(e: Creation, q: CreateRequest) {
    e.request == q.request && Answers(AgentRecord(e, 0), q)
  }

  ghost predicate Starts(s: Race, t: Race, c: nat, q: CreateRequest, agent: Id, session: Id) {
    c in s.racers && s.racers[c] == Resting && t == s.(racers := s.racers[c := Deciding(q, Payload(q, agent, session))])
  }

  ghost predicate Reads(s: Race, t: Race, c: nat) {
    c in s.racers && s.racers[c].Deciding? && Rebuilt(s.log).Success?
    && var x := s.racers[c];
       match Registrar.Decide(Rebuilt(s.log).value, x.q, x.e)
       case Record(_) => t == s.(racers := s.racers[c := Holding(x.q, x.e, |s.log|)])
       case Existing(record) => t == Answered(s, c, Success(record))
       case Refuse(error) => t == Answered(s, c, Failure(error))
  }

  ghost function Answered(s: Race, c: nat, result: Result<AgentRecord, CreateError>): Race
    requires c in s.racers && s.racers[c] != Resting
  {
    s.(racers := s.racers[c := Resting], replies := s.replies + [Reply(s.racers[c].q, s.racers[c].e, result, |s.log|)])
  }

  ghost predicate Swaps(s: Race, t: Race, c: nat, fault: Fault) {
    c in s.racers && s.racers[c].Holding?
    && var x := s.racers[c];
       var landed := s.(log := s.log + [x.e]);
       if x.n != |s.log| then t == s.(racers := s.racers[c := Explaining(x.q, x.e, fault == Fine)])
       else
         match fault
         case Fine => t == Answered(landed, c, Success(AgentRecord(x.e, x.n + 1)))
         case LostAfterCommit => t == landed.(racers := s.racers[c := Explaining(x.q, x.e, false)])
         case LostBeforeCommit => t == s.(racers := s.racers[c := Explaining(x.q, x.e, false)])
  }

  ghost predicate Explains(s: Race, t: Race, c: nat, rereads: bool, cancelled: bool) {
    c in s.racers && s.racers[c].Explaining?
    && var x := s.racers[c];
       var committed := if rereads then Some(x.e in s.log) else None;
       t == Answered(s, c, Failure(if cancelled then Cancelled
                                   else if x.conflict && committed == Some(false) then DirectoryConflict
                                   else CreationFailed(committed)))
  }

  ghost predicate Dies(s: Race, t: Race, c: nat) {
    c in s.racers && t == s.(racers := s.racers[c := Resting])
  }

  ghost predicate Next(s: Race, t: Race) {
    || (exists c, q, agent, session :: Starts(s, t, c, q, agent, session))
    || (exists c :: Reads(s, t, c))
    || (exists c, fault :: Swaps(s, t, c, fault))
    || (exists c, rereads, cancelled :: Explains(s, t, c, rereads, cancelled))
    || (exists c :: Dies(s, t, c))
  }

  ghost predicate Init(s: Race) {
    s.log == [] && s.replies == [] && forall c | c in s.racers :: s.racers[c] == Resting
  }

  ghost predicate RacerFine(log: seq<Creation>, x: Racer) {
    && (x.Deciding? ==> Fulfils(x.e, x.q))
    && (x.Holding? ==> Fulfils(x.e, x.q) && x.n <= |log| && Rebuilt(log[..x.n]).Success?
                       && Conflicts(Rebuilt(log[..x.n]).value, x.e) == [])
  }

  ghost predicate ReplyFine(log: seq<Creation>, r: Reply) {
    && r.at <= |log| && Rebuilt(log).Success?
    && (r.result.Success? ==>
          Rebuilt(log).value.ForRequest(r.q.request) == Some(r.result.value) && Answers(r.result.value, r.q))
    && (r.result == Failure(DirectoryConflict) ==> r.e !in log[..r.at])
    && (r.result.Failure? && r.result.error.CreationFailed? && r.result.error.committed.Some? ==>
          r.result.error.committed.value == (r.e in log[..r.at]))
  }

  ghost predicate Inv(s: Race) {
    && Rebuilt(s.log).Success?
    && (forall c | c in s.racers :: RacerFine(s.log, s.racers[c]))
    && (forall k | 0 <= k < |s.replies| :: ReplyFine(s.log, s.replies[k]))
  }

  /** A longer readable log disturbs no client and no answer. */
  lemma GrowthKeeps(log: seq<Creation>, later: seq<Creation>)
    requires log <= later && Rebuilt(later).Success?
    ensures forall x :: RacerFine(log, x) ==> RacerFine(later, x)
    ensures forall r :: ReplyFine(log, r) ==> ReplyFine(later, r)
  {
    assert later[..|log|] == log;
    RebuiltGrows(later, |log|);
    hide Rebuilt;
    assert forall n | 0 <= n <= |log| :: later[..n] == log[..n];
  }

  lemma RestingIsFine(log: seq<Creation>, q: CreateRequest, e: Creation, conflict: bool)
    ensures RacerFine(log, Resting) && RacerFine(log, Explaining(q, e, conflict))
  {
  }

  /** A landed payload is what its request asked for, under its own number. */
  lemma LandedReplyFine(log: seq<Creation>, q: CreateRequest, e: Creation)
    requires Rebuilt(log + [e]).Success? && Fulfils(e, q)
    requires Rebuilt(log + [e]).value.ForRequest(e.request) == Some(AgentRecord(e, |log| + 1))
    ensures ReplyFine(log + [e], Reply(q, e, Success(AgentRecord(e, |log| + 1)), |log| + 1))
  {
  }

  /** One client stops and at most one reply, about the new log, is added. */
  lemma GrownKeeps(s: Race, t: Race, c: nat)
    requires Inv(s) && s.log <= t.log && Rebuilt(t.log).Success? && c in s.racers
    requires exists x :: RacerFine(t.log, x) && t.racers == s.racers[c := x]
    requires t.replies == s.replies || (exists r :: ReplyFine(t.log, r) && t.replies == s.replies + [r])
    ensures Inv(t)
  {
    hide Rebuilt, RacerFine, ReplyFine;
    GrowthKeeps(s.log, t.log);
  }

  lemma SwapKeeps(s: Race, t: Race, c: nat, fault: Fault)
    requires Inv(s) && Swaps(s, t, c, fault)
    ensures Inv(t)
  {
    hide Rebuilt, RacerFine, ReplyFine, Inv;
    assert Rebuilt(s.log).Success? && RacerFine(s.log, s.racers[c]) by { InvGives(s, c); }
    var x := s.racers[c];
    RestingIsFine(t.log, x.q, x.e, true);
    RestingIsFine(t.log, x.q, x.e, false);
    if x.n == |s.log| && fault != LostBeforeCommit {
      LandingRebuilds(s.log, x);
      LandedReplyFine(s.log, x.q, x.e);
    }
    assert t.racers == s.racers[c := t.racers[c]];
    GrownKeeps(s, t, c);
  }

  lemma InvGives(s: Race, c: nat)
    requires Inv(s) && c in s.racers
    ensures Rebuilt(s.log).Success? && RacerFine(s.log, s.racers[c])
  {
  }

  lemma LandingRebuilds(log: seq<Creation>, x: Racer)
    requires Rebuilt(log).Success? && RacerFine(log, x) && x.Holding? && x.n == |log|
    ensures Rebuilt(log + [x.e]).Success? && Fulfils(x.e, x.q)
    ensures Rebuilt(log + [x.e]).value.ForRequest(x.e.request) == Some(AgentRecord(x.e, |log| + 1))
  {
    hide Conflicts, Fulfils;
    assert log[..x.n] == log;
    RebuiltAppend(log, x.e);
  }

  lemma ReadKeeps(s: Race, t: Race, c: nat)
    requires Inv(s) && Reads(s, t, c)
    ensures Inv(t)
  {
    var x := s.racers[c];
    RecordsExactlyWhatReplays(Rebuilt(s.log).value, x.q, x.e);
    RestingIsFine(s.log, x.q, x.e, true);
    hide Rebuilt, Conflicts;
    assert s.log[..|s.log|] == s.log;
  }

  lemma ExplainKeeps(s: Race, t: Race, c: nat, rereads: bool, cancelled: bool)
    requires Inv(s) && Explains(s, t, c, rereads, cancelled)
    ensures Inv(t)
  {
    var x := s.racers[c];
    RestingIsFine(s.log, x.q, x.e, true);
    hide Rebuilt, RacerFine;
    assert s.log[..|s.log|] == s.log;
  }

  lemma StartKeeps(s: Race, t: Race, c: nat, q: CreateRequest, agent: Id, session: Id)
    requires Inv(s) && Starts(s, t, c, q, agent, session)
    ensures Inv(t)
  {
    hide Rebuilt, ReplyFine;
    assert RacerFine(t.log, t.racers[c]);
  }

  lemma DeathKeeps(s: Race, t: Race, c: nat)
    requires Inv(s) && Dies(s, t, c)
    ensures Inv(t)
  {
    hide Rebuilt, ReplyFine;
    assert RacerFine(t.log, Resting);
  }

  lemma NextKeeps(s: Race, t: Race)
    requires Inv(s) && Next(s, t)
    ensures Inv(t) && s.log <= t.log && s.replies <= t.replies
  {
    hide Inv, Rebuilt, Registrar.Decide;
    if c, fault :| Swaps(s, t, c, fault) {
      SwapKeeps(s, t, c, fault);
    } else if c :| Reads(s, t, c) {
      ReadKeeps(s, t, c);
    } else if c, rereads, cancelled :| Explains(s, t, c, rereads, cancelled) {
      ExplainKeeps(s, t, c, rereads, cancelled);
    } else if c, q, agent, session :| Starts(s, t, c, q, agent, session) {
      StartKeeps(s, t, c, q, agent, session);
    } else {
      var c :| Dies(s, t, c);
      DeathKeeps(s, t, c);
    }
  }

  ghost predicate Run(states: seq<Race>) {
    |states| >= 1 && Init(states[0]) && forall i | 0 < i < |states| :: Next(states[i - 1], states[i])
  }

  lemma InitKeeps(s: Race)
    requires Init(s)
    ensures Inv(s)
  {
    assert Rebuilt([]) == Success(EMPTY);
  }

  lemma {:induction false} RunKeeps(states: seq<Race>, i: nat, j: nat)
    requires Run(states) && i <= j < |states|
    ensures Inv(states[i]) && Inv(states[j])
    ensures states[i].log <= states[j].log && states[i].replies <= states[j].replies
  {
    hide Inv, Next, Init;
    if j == 0 {
      InitKeeps(states[0]);
    } else {
      RunKeeps(states, if i < j then i else j - 1, j - 1);
      NextKeeps(states[j - 1], states[j]);
    }
  }

  /** Creation linearizes: at every moment of every run the Directory replays
      with unique identities and acyclic ownership, and every record ever
      returned is the one replay still shows for its request, so a retried
      request never yields a second Agent. */
  lemma CreationLinearizes(states: seq<Race>, i: nat, j: nat, k: nat)
    requires Run(states) && i <= j < |states| && k < |states[i].replies|
    requires states[i].replies[k].result.Success?
    ensures k < |states[j].replies| && states[j].replies[k] == states[i].replies[k]
    ensures Rebuilt(states[j].log).Success?
    ensures var r := states[i].replies[k];
      Rebuilt(states[j].log).value.ForRequest(r.q.request) == Some(r.result.value) && Answers(r.result.value, r.q)
  {
    RunKeeps(states, i, j);
    assert ReplyFine(states[j].log, states[j].replies[k]);
  }

  lemma OneAgentPerRequest(states: seq<Race>, i: nat, j: nat, k: nat)
    requires Run(states) && i < |states| && j < k < |states[i].replies|
    requires var r := states[i].replies; r[j].result.Success? && r[k].result.Success? && r[j].q.request == r[k].q.request
    ensures states[i].replies[j].result == states[i].replies[k].result
  {
    CreationLinearizes(states, i, i, j);
    CreationLinearizes(states, i, i, k);
  }

  /** "Nothing was written" is only said when our fact is absent, and a known
      verdict on a failed creation is the truth. */
  lemma VerdictsAreTrue(states: seq<Race>, i: nat, k: nat)
    requires Run(states) && i < |states| && k < |states[i].replies|
    ensures var r := states[i].replies[k];
      && r.at <= |states[i].log|
      && (r.result == Failure(DirectoryConflict) ==> r.e !in states[i].log[..r.at])
      && (r.result.Failure? && r.result.error.CreationFailed? && r.result.error.committed.Some? ==>
            r.result.error.committed.value == (r.e in states[i].log[..r.at]))
  {
    RunKeeps(states, i, i);
    assert ReplyFine(states[i].log, states[i].replies[k]);
  }

  lemma OwnershipIsAForest(states: seq<Race>, i: nat, agent: Id)
    requires Run(states) && i < |states|
    ensures Rebuilt(states[i].log).Success? && Rebuilt(states[i].log).value.Coherent()
    ensures forall a, b | 0 <= a < b < |states[i].log| ::
              && states[i].log[a].agent != states[i].log[b].agent
              && states[i].log[a].session != states[i].log[b].session
              && states[i].log[a].request != states[i].log[b].request
    ensures var d := Rebuilt(states[i].log).value;
      agent in d.byAgent ==> Duplicatefree(Lineage(d, agent)) && |Lineage(d, agent)| >= 1
                             && Lineage(d, agent)[0] in d.byAgent && d.byAgent[Lineage(d, agent)[0]].who.owner == None
  {
    RunKeeps(states, i, i);
    var log := states[i].log;
    RebuiltIsCoherent(log);
    forall a, b | 0 <= a < b < |log|
      ensures log[a].agent != log[b].agent && log[a].session != log[b].session && log[a].request != log[b].request
    {
      IdentitiesUnique(log, a, b);
    }
    if agent in Rebuilt(log).value.byAgent { LineageIsAChain(Rebuilt(log).value, agent); }
  }
}
