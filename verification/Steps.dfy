/** Charging durable Steps: reconciliation against the session, and the gate
    before the next Step. */
module Steps {
  import opened Prelude
  import opened Budget
  import opened Directory
  import opened Projection
  import opened LedgerShape
  import opened LedgerBounds
  import opened FactSlots
  import opened EventStore
  import opened Service
  import opened LedgerService
  import opened Rules
  import Identities = Directory

  /** A session event; `None` is an identity that cannot be read. */
  datatype SessionEvent = StepStart(step: Option<Id>, turn: Option<Id>, number: int) | Unrelated

  datatype StepError = EvidenceInvalid | SessionMismatch | AccountUnavailable | RecordFailed(error: ServiceError)

  function StepOp(agent: Id, session: Id, step: Id): Id { Derived("step-observation", [agent, session, step]) }

  function StepCharge(agent: Id, session: Id, step: Id): Fact {
    UsageCharged(StepOp(agent, session, step), agent, Amounts(0, 1, 0, 0), Observation, None)
  }

  /** Every Step of every session of every Agent has an operation of its own,
      and its charge is one observed Step. */
  lemma StepsToldApart(a: Id, b: Id, session: Id, other: Id, step: Id, next: Id)
    ensures StepOp(a, session, step) == StepOp(b, other, next) <==> a == b && session == other && step == next
    ensures StepCharge(a, session, step) == UsageCharged(StepOp(a, session, step), a, Amounts(0, 1, 0, 0), Observation, None)
  {
    var p, q := [a, session, step], [b, other, next];
    assert p[0] == a && p[1] == session && p[2] == step && q[0] == b && q[1] == other && q[2] == next;
  }

  predicate Acceptable(e: SessionEvent) { e.StepStart? ==> e.step.Some? && e.turn.Some? && e.number >= 1 }

  /** The Steps a session has started. */
  ghost function StepsIn(events: seq<SessionEvent>): set<Id> {
    set i | 0 <= i < |events| && events[i].StepStart? && events[i].step.Some? :: events[i].step.value
  }

  lemma StepsInAppend(events: seq<SessionEvent>, i: nat)
    requires i < |events|
    ensures StepsIn(events[..i + 1])
         == StepsIn(events[..i]) + (if events[i].StepStart? && events[i].step.Some? then {events[i].step.value} else {})
  {
    var e := events[i];
    assert events[..i + 1] == events[..i] + [e];
    forall x | x in StepsIn(events[..i]) ensures x in StepsIn(events[..i + 1]) {
      var j :| 0 <= j < i && events[..i][j].StepStart? && events[..i][j].step == Some(x);
      assert events[..i + 1][j] == events[..i][j];
    }
    if e.StepStart? && e.step.Some? { assert events[..i + 1][i] == e; }
  }

  ghost predicate WellFormed(events: seq<SessionEvent>) {
    && (forall i | 0 <= i < |events| :: Acceptable(events[i]))
    && (forall i, j | 0 <= i < j < |events| && events[i].StepStart? && events[j].StepStart? :: events[i].step != events[j].step)
  }

  /** Of what other writers propose, the facts replay accepts. */
  function Accepted(log: seq<Fact>, D: Directory, proposed: seq<Fact>): (landed: seq<Fact>)
    requires Replay(log, D).Success?
    ensures Replay(log + landed, D).Success?
    ensures forall f | f in landed :: f in proposed
  {
    if proposed == [] then
      assert log + [] == log;
      []
    else
      var most := Accepted(log, D, proposed[..|proposed| - 1]);
      var f := proposed[|proposed| - 1];
      if Replay(log + (most + [f]), D).Success? then most + [f] else most
  }

  /** A new fact is a rival's or charges a Step no charge existed for. */
  ghost predicate OursOrTheirs(f: Fact, L: Ledger, agent: Id, session: Id, steps: set<Id>, rivals: seq<Fact>) {
    || f in rivals
    || exists step :: step in steps && StepOp(agent, session, step) !in L.operations && f == StepCharge(agent, session, step)
  }

  /** A fact under the operation id of some Step of this session is that Step's
      charge, which is what deriving the id from the Step is for. */
  ghost predicate Honest(f: Fact, agent: Id, session: Id) {
    forall step :: f.op == StepOp(agent, session, step) ==> f == StepCharge(agent, session, step)
  }

  ghost predicate AllHonest(fs: seq<Fact>, agent: Id, session: Id) {
    forall i | 0 <= i < |fs| :: Honest(fs[i], agent, session)
  }

  ghost predicate OnceIn(log: seq<Fact>, f: Fact) {
    exists i | 0 <= i < |log| :: log[i] == f && forall j | 0 <= j < |log| && log[j] == f :: j == i
  }

  class BudgetContinuationRuntime {
    const store: Store
    const service: BudgetLedgerService
    const agent: Id
    const session: Id

    constructor (s: Store, agent: Id, session: Id)
      ensures store == s && service.store == s && this.agent == agent && this.session == session
    {
      store := s;
      service := new BudgetLedgerService(s);
      this.agent, this.session := agent, session;
    }

    ghost predicate Valid()
      reads this, store
    {
      service.store == store && store.Readable()
    }

    ghost function Ledger(): Ledger
      requires Valid()
      reads this, store
    {
      Replay(store.log, Rebuilt(store.agents).value).value
    }

    /** One observation of one Step. */
    method ChargeStep(step: Id, weather: Weather<Fact>) returns (r: Result<Entity, ServiceError>)
      requires Valid()
      modifies store`log
      ensures Valid() && old(store.log) <= store.log
      ensures forall i | |old(store.log)| <= i < |store.log| ::
                store.log[i] in weather.rivals || store.log[i] == StepCharge(agent, session, step)
      ensures r.Success? ==> StepOp(agent, session, step) in Ledger().operations
      ensures weather.Smooth() && CanRecord(old(Ledger()), agent) && StepOp(agent, session, step) !in old(Ledger()).operations ==>
                r.Success? && CanRecord(Ledger(), agent) && store.log == old(store.log) + [StepCharge(agent, session, step)]
                && Ledger().operations.Keys == old(Ledger()).operations.Keys + {StepOp(agent, session, step)}
    {
      hide Decide, Replay, Rebuilt, Performed, Clashes, CanRecord;
      var D := Identities.Rebuild(store.agents);
      var q := AskRecord(StepOp(agent, session, step), agent, Amounts(0, 1, 0, 0), None);
      var landing := weather.(rivals := Accepted(store.log, D.value, weather.rivals));
      ghost var before := store.log;
      UnclashingDoesNotClash(before, D.value, q, landing);
      r := service.Perform(q, landing);
      RecordLands(before, store.log, D.value, agent, session, step, landing, r);
      if weather.Smooth() && CanRecord(Replay(before, D.value).value, agent)
         && StepOp(agent, session, step) !in Replay(before, D.value).value.operations
      {
        SmoothRecord(before, store.log, D.value, agent, session, step, landing, r);
      }
    }

    /** Charges every started Step that has no charge yet, once the session's
        model attempts were found to agree with the ledger.  `weathers` is what
        each append would meet. */
    method Reconcile(events: seq<SessionEvent>, attemptsAgree: bool, weathers: seq<Weather<Fact>>, ghost rivals: seq<Fact>)
      returns (r: Result<bool, StepError>)
      requires Valid() && |weathers| >= |events| && forall i, f | 0 <= i < |weathers| && f in weathers[i].rivals :: f in rivals
      modifies store`log
      ensures Valid() && old(store.log) <= store.log
      ensures forall i | |old(store.log)| <= i < |store.log| ::
                OursOrTheirs(store.log[i], old(Ledger()), agent, session, StepsIn(events), rivals)
      ensures (forall step | step in StepsIn(events) :: StepOp(agent, session, step) in old(Ledger()).operations) ==>
                store.log == old(store.log)
      ensures r.Success? && StepsLimited(old(Ledger()), agent) ==>
                WellFormed(events)
                && forall step | step in StepsIn(events) :: StepOp(agent, session, step) in Ledger().operations
      ensures EndsEarly(old(Ledger()), Rebuilt(store.agents).value, agent, session, attemptsAgree).Some? ==>
                Some(r) == EndsEarly(old(Ledger()), Rebuilt(store.agents).value, agent, session, attemptsAgree)
                && store.log == old(store.log)
      ensures EndsEarly(old(Ledger()), Rebuilt(store.agents).value, agent, session, attemptsAgree).None? ==>
                r == Success(true) || (r == Failure(EvidenceInvalid) && !WellFormed(events)) || (r.Failure? && r.error.RecordFailed?)
      ensures Undisturbed(old(Ledger()), Rebuilt(store.agents).value, agent, session, events, attemptsAgree, weathers) ==>
                r == Success(true)
      ensures AllHonest(old(store.log), agent, session) && AllHonest(rivals, agent, session) ==>
                && AllHonest(store.log, agent, session)
                && (r.Success? && StepsLimited(old(Ledger()), agent) ==>
                      forall step | step in StepsIn(events) :: OnceIn(store.log, StepCharge(agent, session, step)))
    {
      r := ReconcileSteps(events, attemptsAgree, weathers, rivals);
      if AllHonest(old(store.log), agent, session) && AllHonest(rivals, agent, session) {
        HonestLog(old(store.log), store.log, old(Ledger()), agent, session, StepsIn(events), rivals);
        forall step | step in StepsIn(events) && StepOp(agent, session, step) in Ledger().operations
          ensures OnceIn(store.log, StepCharge(agent, session, step))
        {
          ChargedExactlyOnce(store.log, Rebuilt(store.agents).value, agent, session, step);
        }
      }
    }

    /** The checks before the first Step, then the Steps. */
    method ReconcileSteps(events: seq<SessionEvent>, attemptsAgree: bool, weathers: seq<Weather<Fact>>, ghost rivals: seq<Fact>)
      returns (r: Result<bool, StepError>)
      requires Valid() && |weathers| >= |events| && forall i, f | 0 <= i < |weathers| && f in weathers[i].rivals :: f in rivals
      modifies store`log
      ensures Valid() && old(store.log) <= store.log
      ensures forall i | |old(store.log)| <= i < |store.log| ::
                OursOrTheirs(store.log[i], old(Ledger()), agent, session, StepsIn(events), rivals)
      ensures (forall step | step in StepsIn(events) :: StepOp(agent, session, step) in old(Ledger()).operations) ==>
                store.log == old(store.log)
      ensures r.Success? && StepsLimited(old(Ledger()), agent) ==>
                WellFormed(events)
                && forall step | step in StepsIn(events) :: StepOp(agent, session, step) in Ledger().operations
      ensures EndsEarly(old(Ledger()), Rebuilt(store.agents).value, agent, session, attemptsAgree).Some? ==>
                Some(r) == EndsEarly(old(Ledger()), Rebuilt(store.agents).value, agent, session, attemptsAgree)
                && store.log == old(store.log)
      ensures EndsEarly(old(Ledger()), Rebuilt(store.agents).value, agent, session, attemptsAgree).None? ==>
                r == Success(true) || (r == Failure(EvidenceInvalid) && !WellFormed(events)) || (r.Failure? && r.error.RecordFailed?)
      ensures Undisturbed(old(Ledger()), Rebuilt(store.agents).value, agent, session, events, attemptsAgree, weathers) ==>
                r == Success(true)
    {
      hide Replay, Rebuilt, StepsIn, OursOrTheirs, WellFormed, OnlySteps;
      var L, D := service.LoadContext();
      if !attemptsAgree { return Failure(EvidenceInvalid); }
      if agent !in L.accounts || !L.accounts[agent].Open() { return Failure(AccountUnavailable); }
      if L.accounts[agent].limits.steps.None? { return Success(false); }
      if D.Find(agent).None? || D.Find(agent).value.who.session != session { return Failure(SessionMismatch); }
      r := ChargeSteps(events, weathers, rivals);
    }

    /** The loop itself. */
    method ChargeSteps(events: seq<SessionEvent>, weathers: seq<Weather<Fact>>, ghost rivals: seq<Fact>)
      returns (r: Result<bool, StepError>)
      requires Valid() && |weathers| >= |events| && forall i, f | 0 <= i < |weathers| && f in weathers[i].rivals :: f in rivals
      modifies store`log
      ensures Valid() && old(store.log) <= store.log
      ensures forall i | |old(store.log)| <= i < |store.log| ::
                OursOrTheirs(store.log[i], old(Ledger()), agent, session, StepsIn(events), rivals)
      ensures (forall step | step in StepsIn(events) :: StepOp(agent, session, step) in old(Ledger()).operations) ==>
                store.log == old(store.log)
      ensures r.Success? ==>
                WellFormed(events)
                && forall step | step in StepsIn(events) :: StepOp(agent, session, step) in Ledger().operations
      ensures r == Success(true) || (r == Failure(EvidenceInvalid) && !WellFormed(events)) || (r.Failure? && r.error.RecordFailed?)
      ensures Untroubled(old(Ledger()), agent, events, weathers) ==> r == Success(true)
    {
      hide Replay, Rebuilt, CanRecord, OnlySteps, OursOrTheirs, StepsIn, WellFormed, Untroubled;
      var L, _ := service.LoadContext();
      var seen: set<Id> := {};
      ghost var calm := Untroubled(L, agent, events, weathers);
      if calm { UntroubledRecords(L, agent, events, weathers); }
      NothingYet(L, agent, session);
      NoStepsYet(events);
      for i := 0 to |events|
        invariant Valid() && old(store.log) <= store.log && store.agents == old(store.agents)
        invariant seen == StepsIn(events[..i])
        invariant WellFormed(events[..i])
        invariant forall step | step in seen :: StepOp(agent, session, step) in Ledger().operations
        invariant forall k | |old(store.log)| <= k < |store.log| ::
                    OursOrTheirs(store.log[k], L, agent, session, StepsIn(events), rivals)
        invariant (forall step | step in StepsIn(events) :: StepOp(agent, session, step) in L.operations) ==>
                    store.log == old(store.log)
        invariant calm ==> CanRecord(Ledger(), agent) && OnlySteps(L, Ledger(), agent, session, seen)
      {
        var e := events[i];
        StepsInAppend(events, i);
        StepsInWhole(events, i);
        if e.Unrelated? { continue; }
        if e.step.None? || e.turn.None? || e.number < 1 || e.step.value in seen {
          if WellFormed(events) { IsNoRepeat(events, i); }
          return Failure(EvidenceInvalid);
        }
        StillWellFormed(events, i);
        var op := StepOp(agent, session, e.step.value);
        label Before:
        ghost var earlier, before := Ledger(), seen;
        if calm { UntroubledAt(L, agent, events, weathers, i); }
        if calm && op !in L.operations { NotYetRecorded(L, earlier, agent, session, seen, e.step.value); }
        seen := seen + {e.step.value};
        if op !in L.operations {
          var charged := ChargeStep(e.step.value, weathers[i]);
          OperationsStand(old@Before(store.log), store.log, store.agents);
          FactsAreOurs(old@Before(store.log), store.log, L, agent, session, StepsIn(events), rivals, weathers[i].rivals, e.step.value);
          if charged.Failure? { return Failure(RecordFailed(charged.error)); }
          if calm { OneMoreStep(L, earlier, Ledger(), agent, session, before, e.step.value); }
        } else {
          OperationsStand(old(store.log), store.log, store.agents);
          if calm { OneMoreStep(L, earlier, Ledger(), agent, session, before, e.step.value); }
        }
      }
      assert events[..|events|] == events;
      return Success(true);
    }
  }

  predicate CanRecord(L: Ledger, agent: Id) {
    agent in L.accounts && L.accounts[agent].closed.None? && L.accounts[agent].limits.steps.Some?
  }

  /** What ends a reconciliation before it looks at a Step; an account without
      a Step limit is left alone. */
  ghost function EndsEarly(L: Ledger, D: Directory, agent: Id, session: Id, attemptsAgree: bool): Option<Result<bool, StepError>> {
    if !attemptsAgree then Some(Failure(EvidenceInvalid))
    else if agent !in L.accounts || L.accounts[agent].closed.Some? then Some(Failure(AccountUnavailable))
    else if L.accounts[agent].limits.steps.None? then Some(Success(false))
    else if agent !in D.byAgent || D.byAgent[agent].who.session != session then Some(Failure(SessionMismatch))
    else None
  }

  /** Nothing is wrong with the session, its account or the store. */
  ghost predicate Undisturbed(L: Ledger, D: Directory, agent: Id, session: Id, events: seq<SessionEvent>, attemptsAgree: bool,
                              weathers: seq<Weather<Fact>>)
  {
    attemptsAgree && agent in D.byAgent && D.byAgent[agent].who.session == session && Untroubled(L, agent, events, weathers)
  }

  ghost predicate Untroubled(L: Ledger, agent: Id, events: seq<SessionEvent>, weathers: seq<Weather<Fact>>) {
    CanRecord(L, agent) && WellFormed(events) && forall i | 0 <= i < |weathers| :: weathers[i].Smooth()
  }

  /** What was recorded since `L` are charges of seen Steps. */
  ghost predicate OnlySteps(L: Ledger, N: Ledger, agent: Id, session: Id, seen: set<Id>) {
    forall op | op in N.operations && op !in L.operations :: exists step :: step in seen && op == StepOp(agent, session, step)
  }

  ghost predicate Spoils(events: seq<SessionEvent>, i: int) {
    && 0 <= i < |events| && events[i].StepStart?
    && (|| events[i].step.None? || events[i].turn.None? || events[i].number <= 0
        || exists j :: 0 <= j < i && events[j].StepStart? && events[j].step == events[i].step)
  }

  /** A session is refused exactly for a Step that cannot be identified, is not
      numbered from one, or starts again. */
  lemma IllFormedExactly(events: seq<SessionEvent>)
    ensures !WellFormed(events) <==> exists i :: Spoils(events, i)
  {
    if !WellFormed(events) {
      if i :| 0 <= i < |events| && !Acceptable(events[i]) {
        assert Spoils(events, i);
      } else {
        var i, j :| 0 <= i < j < |events| && events[i].StepStart? && events[j].StepStart? && events[i].step == events[j].step;
        assert Spoils(events, j);
      }
    }
  }

  lemma IsNoRepeat(events: seq<SessionEvent>, i: nat)
    requires WellFormed(events) && i < |events| && events[i].StepStart?
    ensures Acceptable(events[i]) && events[i].step.value !in StepsIn(events[..i])
  {
    forall x | x in StepsIn(events[..i]) ensures Some(x) != events[i].step {
      var j :| 0 <= j < i && events[..i][j].StepStart? && events[..i][j].step == Some(x);
      assert events[j] == events[..i][j] && events[j].step != events[i].step;
    }
  }

  lemma NotYetRecorded(L: Ledger, N: Ledger, agent: Id, session: Id, seen: set<Id>, step: Id)
    requires OnlySteps(L, N, agent, session, seen) && step !in seen && StepOp(agent, session, step) !in L.operations
    ensures StepOp(agent, session, step) !in N.operations
  {
  }

  lemma OneMoreStep(L: Ledger, N: Ledger, M: Ledger, agent: Id, session: Id, seen: set<Id>, step: Id)
    requires OnlySteps(L, N, agent, session, seen)
    requires M.operations.Keys == N.operations.Keys + {StepOp(agent, session, step)} || M.operations == N.operations
    ensures OnlySteps(L, M, agent, session, seen + {step})
  {
    forall op | op in M.operations && op !in L.operations ensures exists x :: x in seen + {step} && op == StepOp(agent, session, x) {
      if op in N.operations {
        var x :| x in seen && op == StepOp(agent, session, x);
        assert x in seen + {step};
      } else {
        assert step in seen + {step};
      }
    }
  }

  lemma UntroubledRecords(L: Ledger, agent: Id, events: seq<SessionEvent>, weathers: seq<Weather<Fact>>)
    requires Untroubled(L, agent, events, weathers)
    ensures CanRecord(L, agent) && WellFormed(events)
  {
  }

  lemma UntroubledAt(L: Ledger, agent: Id, events: seq<SessionEvent>, weathers: seq<Weather<Fact>>, i: nat)
    requires Untroubled(L, agent, events, weathers) && i < |weathers|
    ensures weathers[i].Smooth()
  {
  }

  lemma NoStepsYet(events: seq<SessionEvent>)
    ensures StepsIn(events[..0]) == {} && WellFormed(events[..0])
  {
  }

  lemma FactsAreOurs(before: seq<Fact>, after: seq<Fact>, L: Ledger, agent: Id, session: Id, steps: set<Id>, rivals: seq<Fact>,
                     met: seq<Fact>, step: Id)
    requires before <= after && step in steps && StepOp(agent, session, step) !in L.operations && forall f | f in met :: f in rivals
    requires forall k | |before| <= k < |after| :: after[k] in met || after[k] == StepCharge(agent, session, step)
    ensures forall k | |before| <= k < |after| :: OursOrTheirs(after[k], L, agent, session, steps, rivals)
  {
  }

  lemma NothingYet(L: Ledger, agent: Id, session: Id)
    ensures OnlySteps(L, L, agent, session, {})
  {
  }

  lemma SmoothRecord(before: seq<Fact>, after: seq<Fact>, D: Directory, agent: Id, session: Id, step: Id,
                     weather: Weather<Fact>, r: Result<Entity, ServiceError>)
    requires Replay(before, D).Success? && Replay(after, D).Success? && weather.Smooth()
    requires Performed(before, after, D, AskRecord(StepOp(agent, session, step), agent, Amounts(0, 1, 0, 0), None), weather, r)
    requires CanRecord(Replay(before, D).value, agent) && StepOp(agent, session, step) !in Replay(before, D).value.operations
    ensures r.Success? && CanRecord(Replay(after, D).value, agent) && after == before + [StepCharge(agent, session, step)]
    ensures Replay(after, D).value.operations.Keys == Replay(before, D).value.operations.Keys + {StepOp(agent, session, step)}
  {
    hide Replay, Decide, Step;
    var L, f := Replay(before, D).value, StepCharge(agent, session, step);
    RecordIsDecided(L, D, AskRecord(f.op, agent, Amounts(0, 1, 0, 0), None), f);
    assert before + [] + [f] == before + [f];
    ReplayAppend(before, f, D);
    StepRecords(L, D, f);
    ReplaySound(before, D);
    StepFollowsRules(L, D, f);
  }

  lemma RecordIsDecided(L: Ledger, D: Directory, q: Request, f: Fact)
    requires q.AskRecord? && q.amounts == Amounts(0, 1, 0, 0) && q.quality == None && q.op !in L.operations && CanRecord(L, q.agent)
    requires f == UsageCharged(q.op, q.agent, q.amounts, Observation, None)
    ensures Decide(L, D, q) == Write(f)
  {
  }

  predicate StepsLimited(L: Ledger, agent: Id) { agent in L.accounts && L.accounts[agent].limits.steps.Some? }

  lemma StepsInWhole(events: seq<SessionEvent>, i: nat)
    requires i < |events|
    ensures events[i].StepStart? && events[i].step.Some? ==> events[i].step.value in StepsIn(events)
    ensures events[i].Unrelated? && WellFormed(events[..i]) ==> WellFormed(events[..i + 1])
  {
    assert events[..i + 1] == events[..i] + [events[i]];
  }

  lemma StillWellFormed(events: seq<SessionEvent>, i: nat)
    requires i < |events| && WellFormed(events[..i]) && events[i].StepStart? && Acceptable(events[i])
    requires events[i].step.value !in StepsIn(events[..i])
    ensures WellFormed(events[..i + 1])
  {
    var upTo := events[..i + 1];
    assert upTo == events[..i] + [events[i]];
    forall j | 0 <= j < i && events[j].StepStart? ensures events[j].step != events[i].step {
      assert Acceptable(events[..i][j]) && events[..i][j].step.value in StepsIn(events[..i]);
    }
    forall j, k | 0 <= j < k < |upTo| && upTo[j].StepStart? && upTo[k].StepStart? ensures upTo[j].step != upTo[k].step {
      if k < i { assert events[..i][j] == upTo[j] && events[..i][k] == upTo[k]; }
    }
  }

  /** Recorded operations stay recorded as the log grows. */
  lemma OperationsStand(log: seq<Fact>, later: seq<Fact>, agents: seq<Creation>)
    requires log <= later && Rebuilt(agents).Success?
    requires Replay(log, Rebuilt(agents).value).Success? && Replay(later, Rebuilt(agents).value).Success?
    ensures Replay(log, Rebuilt(agents).value).value.operations.Keys
         <= Replay(later, Rebuilt(agents).value).value.operations.Keys
  {
    hide Replay, Rebuilt;
    var D := Rebuilt(agents).value;
    var L, N := Replay(log, D).value, Replay(later, D).value;
    ReplayLogged(log, D);
    ReplayLogged(later, D);
    forall op | op in L.operations ensures op in N.operations {
      assert LoggedOp(L, log, op);
      assert LoggedAt(N, later, L.operations[op].at - 1);
      ReplayRemembers(log, D);
    }
  }

  lemma RecordLands(before: seq<Fact>, after: seq<Fact>, D: Directory, agent: Id, session: Id, step: Id,
                    weather: Weather<Fact>, r: Result<Entity, ServiceError>)
    requires Replay(before, D).Success? && Replay(after, D).Success?
    requires Performed(before, after, D, AskRecord(StepOp(agent, session, step), agent, Amounts(0, 1, 0, 0), None), weather, r)
    ensures before <= after
    ensures forall i | |before| <= i < |after| ::
              after[i] in weather.rivals || after[i] == StepCharge(agent, session, step)
    ensures r.Success? ==> StepOp(agent, session, step) in Replay(after, D).value.operations
  {
    hide Replay;
    var q := AskRecord(StepOp(agent, session, step), agent, Amounts(0, 1, 0, 0), None);
    assert FactOf(Replay(before, D).value, q) == StepCharge(agent, session, step);
    ReplayLogged(after, D);
    if StepCharge(agent, session, step) in after {
      var i :| 0 <= i < |after| && after[i] == StepCharge(agent, session, step);
      assert LoggedAt(Replay(after, D).value, after, i);
    }
  }

  lemma HonestLog(before: seq<Fact>, after: seq<Fact>, L: Ledger, agent: Id, session: Id, steps: set<Id>, rivals: seq<Fact>)
    requires before <= after && AllHonest(before, agent, session) && AllHonest(rivals, agent, session)
    requires forall i | |before| <= i < |after| :: OursOrTheirs(after[i], L, agent, session, steps, rivals)
    ensures AllHonest(after, agent, session)
  {
    forall i | 0 <= i < |after| ensures Honest(after[i], agent, session) {
      if i < |before| {
        assert after[i] == before[i];
      } else {
        assert OursOrTheirs(after[i], L, agent, session, steps, rivals);
        if after[i] in rivals {
          var j :| 0 <= j < |rivals| && rivals[j] == after[i];
          assert Honest(rivals[j], agent, session);
        }
      }
    }
  }

  /** A recorded Step is charged by exactly one fact of the log, now and in any
      longer log. */
  lemma ChargedExactlyOnce(log: seq<Fact>, D: Directory, agent: Id, session: Id, step: Id)
    requires Replay(log, D).Success? && AllHonest(log, agent, session)
    requires StepOp(agent, session, step) in Replay(log, D).value.operations
    ensures OnceIn(log, StepCharge(agent, session, step))
  {
    hide Replay;
    ReplayLogged(log, D);
    ReplayRemembers(log, D);
    var L, op, f := Replay(log, D).value, StepOp(agent, session, step), StepCharge(agent, session, step);
    assert LoggedOp(L, log, op);
    var i := L.operations[op].at - 1;
    assert Honest(log[i], agent, session);
    forall j | 0 <= j < |log| && log[j] == f ensures j == i {
      if j < i { OneFactPerSlot(log, D, j, i); } else if i < j { OneFactPerSlot(log, D, i, j); }
    }
  }

  lemma StaysChargedOnce(log: seq<Fact>, later: seq<Fact>, D: Directory, f: Fact)
    requires log <= later && Replay(later, D).Success? && OnceIn(log, f)
    ensures OnceIn(later, f)
  {
    hide Replay;
    var i :| 0 <= i < |log| && log[i] == f && forall j | 0 <= j < |log| && log[j] == f :: j == i;
    assert later[i] == f;
    forall j | 0 <= j < |later| && later[j] == f ensures j == i {
      if i < j { OneFactPerSlot(later, D, i, j); } else { assert log[j] == f; }
    }
  }
}
