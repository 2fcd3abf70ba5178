/** The service object: it loads, guards and appends to the shared log. */
module LedgerService {
  import opened Prelude
  import opened Budget
  import opened Directory
  import opened EventStore
  import opened Projection
  import opened LedgerShape
  import opened LedgerBounds
  import opened FactSlots
  import opened Service
  import CommitReconciliation
  import Identities = Directory
  import Projector = Rebuild

  /** What a mutation hands back. */
  datatype Entity =
    | AccountEntity(account: Account)
    | HoldEntity(hold: Hold)
    | DecisionEntity(decision: Decision)
    | ChargeEntity(charge: Charge)
    | UsageEntity(usage: UsageHold)
    | CallsEntity(calls: nat)

  /** The entity a request names, as the ledger shows it. */
  function EntityOf(L: Ledger, q: Request): Option<Entity> {
    match q
    case AskRoot(_, agent, _) => if agent in L.accounts then Some(AccountEntity(L.accounts[agent])) else None
    case AskClose(_, agent) => if agent in L.accounts then Some(AccountEntity(L.accounts[agent])) else None
    case AskTokens(_, request, _, _, _, _) =>
      if request in L.decisions then Some(DecisionEntity(L.decisions[request])) else None
    case AskAdmit(op, _, _) => if op in L.charges then Some(ChargeEntity(L.charges[op])) else None
    case AskRecord(op, _, _, _) => if op in L.charges then Some(ChargeEntity(L.charges[op])) else None
    case AskTools(op, _, _) => if op in L.charges then Some(CallsEntity(L.charges[op].amounts.toolCalls)) else None
    case AskChild(_, rid, _, _, _, _, _, _) => if rid in L.holds then Some(HoldEntity(L.holds[rid])) else None
    case AskCommit(_, rid) => if rid in L.holds then Some(HoldEntity(L.holds[rid])) else None
    case AskRelease(_, rid, _) => if rid in L.holds then Some(HoldEntity(L.holds[rid])) else None
    case _ => if q.rid in L.usage then Some(UsageEntity(L.usage[q.rid])) else None
  }

  /** The fact is one this request writes.  A Tool batch may have been cut. */
  predicate WrittenBy(f: Fact, q: Request) {
    if q.AskTools? then
      && f.UsageCharged? && 1 <= f.amounts.toolCalls <= q.requested
      && f == UsageCharged(q.op, q.agent, Amounts(0, 0, f.amounts.toolCalls, 0), Admission, None)
    else f == FactOf(BLANK, q)
  }

  lemma FactIsWritten(L: Ledger, D: Directory, q: Request)
    requires Decide(L, D, q).Write?
    ensures Decide(L, D, q).fact == FactOf(L, q) && WrittenBy(Decide(L, D, q).fact, q)
  {
  }

  /** A fact in the log guarantees its request's entity, and a Tool admission
      the number of calls it admitted. */
  lemma RecalledEntity(N: Ledger, f: Fact, q: Request)
    requires Recalls(N, f) && WrittenBy(f, q)
    ensures EntityOf(N, q).Some?
    ensures q.AskTools? ==> EntityOf(N, q) == Some(CallsEntity(f.amounts.toolCalls))
  {
  }

  /** What a caller is handed is the entity its request is about, showing what
      it asked for. */
  lemma EntityShowsTheRequest(N: Ledger, f: Fact, q: Request)
    requires Recalls(N, f) && WrittenBy(f, q) && EntityOf(N, q).Some?
    ensures match q
      case AskRoot(_, agent, _) => agent in N.accounts && EntityOf(N, q) == Some(AccountEntity(N.accounts[agent]))
      case AskChild(_, rid, parent, child, request, limits, retained, initial) =>
        rid in N.holds && EntityOf(N, q) == Some(HoldEntity(N.holds[rid]))
        && N.holds[rid].parent == parent && N.holds[rid].child == child && N.holds[rid].request == request
        && N.holds[rid].limits == limits && N.holds[rid].retained == retained && N.holds[rid].initial == initial
      case AskTokens(op, request, parent, child, tokens, reason) =>
        request in N.decisions && EntityOf(N, q) == Some(DecisionEntity(N.decisions[request]))
        && N.decisions[request] == Decision(parent, child, tokens, reason, op, N.decisions[request].decidedAt)
      case AskCommit(_, rid) =>
        rid in N.holds && EntityOf(N, q) == Some(HoldEntity(N.holds[rid])) && N.holds[rid].status == Committed
      case AskRelease(_, rid, _) =>
        rid in N.holds && EntityOf(N, q) == Some(HoldEntity(N.holds[rid])) && N.holds[rid].status == Released
      case AskAdmit(op, agent, amounts) =>
        op in N.charges && EntityOf(N, q) == Some(ChargeEntity(N.charges[op]))
        && N.charges[op].agent == agent && N.charges[op].amounts == amounts && N.charges[op].mode == Admission
      case AskRecord(op, agent, amounts, quality) =>
        op in N.charges && EntityOf(N, q) == Some(ChargeEntity(N.charges[op]))
        && N.charges[op].agent == agent && N.charges[op].amounts == amounts && N.charges[op].mode == Observation
        && N.charges[op].quality == quality
      case AskTools(op, agent, requested) =>
        op in N.charges && N.charges[op].agent == agent && 1 <= N.charges[op].amounts.toolCalls <= requested
        && EntityOf(N, q) == Some(CallsEntity(N.charges[op].amounts.toolCalls))
      case AskReserveUsage(_, rid, agent, amounts) =>
        rid in N.usage && EntityOf(N, q) == Some(UsageEntity(N.usage[rid]))
        && N.usage[rid].agent == agent && N.usage[rid].amounts == amounts
      case AskStart(_, rid) =>
        rid in N.usage && EntityOf(N, q) == Some(UsageEntity(N.usage[rid]))
        && (N.usage[rid].status == Started || N.usage[rid].status == Settled)
      case AskSettle(_, rid, amounts, _) =>
        rid in N.usage && EntityOf(N, q) == Some(UsageEntity(N.usage[rid])) && N.usage[rid].settled == Some(amounts)
      case AskReleaseUsage(_, rid) =>
        rid in N.usage && EntityOf(N, q) == Some(UsageEntity(N.usage[rid])) && N.usage[rid].status == Dropped
      case AskClose(_, agent) =>
        agent in N.accounts && EntityOf(N, q) == Some(AccountEntity(N.accounts[agent])) && N.accounts[agent].closed.Some?
  {
  }

  lemma LoggedEntity(log: seq<Fact>, D: Directory, f: Fact, q: Request)
    requires Replay(log, D).Success? && f in log && WrittenBy(f, q)
    ensures EntityOf(Replay(log, D).value, q).Some?
    ensures q.AskTools? ==> EntityOf(Replay(log, D).value, q) == Some(CallsEntity(f.amounts.toolCalls))
  {
    hide EntityOf, Recalls, WrittenBy;
    ReplayLogged(log, D);
    ReplayRemembers(log, D);
    var i :| 0 <= i < |log| && log[i] == f;
    assert LoggedAt(Replay(log, D).value, log, i);
    RecalledEntity(Replay(log, D).value, f, q);
  }

  lemma AlreadyIsLogged(L: Ledger, D: Directory, q: Request)
    requires Remembered(L) && Decide(L, D, q).Already?
    requires forall op | op in L.operations :: ParseIssue(L.operations[op].fact) == None
    ensures q.op in L.operations && WrittenBy(L.operations[q.op].fact, q)
  {
    if q.AskTools? { assert Recalls(L, L.operations[q.op].fact); }
  }

  lemma OperationsParse(log: seq<Fact>, D: Directory)
    requires Replay(log, D).Success?
    ensures forall op | op in Replay(log, D).value.operations :: ParseIssue(Replay(log, D).value.operations[op].fact) == None
  {
    hide Replay, ParseIssue;
    ReplayLogged(log, D);
    var L := Replay(log, D).value;
    forall op | op in L.operations ensures ParseIssue(L.operations[op].fact) == None {
      assert LoggedOp(L, log, op);
      LoggedParses(log, D, L.operations[op].at - 1);
    }
  }

  /** A repeated operation answers from its first fact. */
  lemma AlreadyEntity(log: seq<Fact>, D: Directory, q: Request) returns (f: Fact)
    requires Replay(log, D).Success? && Decide(Replay(log, D).value, D, q).Already?
    ensures f in log && WrittenBy(f, q)
    ensures EntityOf(Replay(log, D).value, q).Some?
  {
    hide Decide, WrittenBy, EntityOf, Replay, Remembered;
    var L := Replay(log, D).value;
    ReplayLogged(log, D);
    ReplayRemembers(log, D);
    OperationsParse(log, D);
    AlreadyIsLogged(L, D, q);
    f := L.operations[q.op].fact;
    assert LoggedOp(L, log, q.op);
    LoggedEntity(log, D, f, q);
  }

  class BudgetLedgerService {
    const store: Store

    constructor (s: Store)
      ensures store == s
    {
      store := s;
    }

    method LoadContext() returns (ledger: Ledger, directory: Directory)
      requires store.Readable()
      ensures directory == Rebuilt(store.agents).value && ledger == Replay(store.log, directory).value
    {
      var events := store.log;
      var d := Identities.Rebuild(store.agents);
      directory := d.value;
      var outcome, _ := Projector.Rebuild(events, directory);
      ledger := outcome.value;
    }

    /** Compare-and-swap append.  True is our own write; false means another
        writer landed exactly this fact. */
    method Append(expected: nat, f: Fact, weather: Weather<Fact>) returns (r: Result<bool, ServiceError>)
      requires expected <= |store.log|
      modifies store`log
      ensures var ours := expected == |old(store.log)| + |weather.rivals| && weather.fault != LostBeforeCommit;
        store.log == old(store.log) + weather.rivals + (if ours then [f] else [])
      ensures var conflict := expected != |old(store.log)| + |weather.rivals|;
        r == (if weather.cancelled then Failure(Interrupted)
              else if !conflict && weather.fault == Fine then Success(true)
              else if !weather.rereads then Failure(WriteFailed(None))
              else if !conflict || weather.fault != Fine then Failure(WriteFailed(Some(f in store.log)))
              else if f in store.log then Success(false)
              else Failure(LedgerConflict))
    {
      store.log := store.log + weather.rivals;
      var conflict := expected != |store.log|;
      if !conflict && weather.fault != LostBeforeCommit {
        store.log := store.log + [f];
      }
      assert conflict ==> store.log == old(store.log) + weather.rivals + [];
      if !conflict && weather.fault == Fine && !weather.cancelled { return Success(true); }
      var committed := CommitReconciliation.Committed(if weather.rereads then Some(store.log) else None, f);
      if weather.cancelled { return Failure(Interrupted); }
      if conflict && weather.fault == Fine {
        if committed == Some(true) { return Success(false); }
        if committed == Some(false) { return Failure(LedgerConflict); }
      }
      return Failure(WriteFailed(committed));
    }

    /** The ledger as it is now, if it can be read at all. */
    method Reload(possible: bool) returns (r: Result<Ledger, ServiceError>)
      requires Rebuilt(store.agents).Success?
      ensures var now := Replay(store.log, Rebuilt(store.agents).value);
        r == (if !possible then Failure(StreamUnreadable)
              else if now.Failure? then Failure(LedgerUnreadable(now.error)) else Success(now.value))
    {
      if !possible { return Failure(StreamUnreadable); }
      var d := Identities.Rebuild(store.agents);
      var now, _ := Projector.Rebuild(store.log, d.value);
      return if now.Failure? then Failure(LedgerUnreadable(now.error)) else Success(now.value);
    }

    /** The append half of a mutation that decided to write `f`. */
    method WriteThrough(L: Ledger, D: Directory, q: Request, f: Fact, weather: Weather<Fact>) returns (r: Result<Entity, ServiceError>)
      requires store.Readable() && D == Rebuilt(store.agents).value && Replay(store.log, D) == Success(L)
      requires WrittenBy(f, q) && L.head == |store.log|
      requires Replay(store.log + weather.rivals, D).Success?
      modifies store`log
      ensures store.log == old(store.log) + weather.rivals + (if weather.Lands() then [f] else [])
      ensures weather.Lands() && Replay(old(store.log) + [f], D).Failure? ==> !store.Readable() && r.Failure?
      ensures !(weather.Lands() && Replay(old(store.log) + [f], D).Failure?) ==>
                store.Readable() && Wrote(store.log, D, q, f, weather, r)
    {
      hide WrittenBy, EntityOf, Replay, Rebuilt;
      AfterTheSwap(store.log, weather, f);
      var landed := Append(L.head, f, weather);
      if landed.Failure? { return Failure(landed.error); }
      if q.AskStart? && !landed.value { return Failure(ReservationState); }
      var now := Reload(weather.readsBack);
      if now.Failure? { return Failure(now.error); }
      LoggedEntity(store.log, D, f, q);
      return Success(EntityOf(now.value, q).value);
    }

    /** One mutation: load, decide, append, read back. */
    method Perform(q: Request, weather: Weather<Fact>) returns (r: Result<Entity, ServiceError>)
      requires store.Readable()
      requires Replay(store.log + weather.rivals, Rebuilt(store.agents).value).Success?
      modifies store`log
      ensures var D := Rebuilt(store.agents).value;
        var clashes := Clashes(old(store.log), D, q, weather);
        && (!clashes ==> store.Readable() && Performed(old(store.log), store.log, D, q, weather, r))
        && (clashes ==>
              && !store.Readable() && r.Failure?
              && store.log == old(store.log) + [Decide(Replay(old(store.log), D).value, D, q).fact])
    {
      hide Decide, FactOf, EntityOf, InputIssue, Replay, Unclashing, WrittenBy;
      if !weather.loads { return Failure(StreamUnreadable); }
      var L, D := LoadContext();
      var verdict := Decide(L, D, q);
      match verdict
      case Refuse(error) => return Failure(error);
      case Unlimited(granted) => return Success(CallsEntity(granted));
      case Already =>
        ghost var f := AlreadyEntity(store.log, D, q);
        return Success(EntityOf(L, q).value);
      case Write(f) =>
        ReplaySound(store.log, D);
        RebuiltIsCoherent(store.agents);
        GuardedWriteReplays(L, D, q);
        ReplayAppend(store.log, f, D);
        FactIsWritten(L, D, q);
        assert weather.rivals == [] ==> store.log + weather.rivals + [f] == store.log + [f];
        r := WriteThrough(L, D, q, f, weather);
    }
  }

  lemma AfterTheSwap(before: seq<Fact>, weather: Weather<Fact>, f: Fact)
    ensures weather.rivals == [] <==> |before| == |before| + |weather.rivals|
    ensures before + weather.rivals + [] == before + weather.rivals
    ensures weather.rivals == [] ==> before + weather.rivals + [f] == before + [f]
  {
  }

  /** The one way a mutation can leave the ledger unreadable. */
  ghost predicate Clashes(before: seq<Fact>, D: Directory, q: Request, weather: Weather<Fact>)
    requires Replay(before, D).Success?
  {
    var L := Replay(before, D).value;
    weather.loads && weather.Lands() && Decide(L, D, q).Write? && !Unclashing(L, q)
  }

  lemma UnclashingDoesNotClash(before: seq<Fact>, D: Directory, q: Request, weather: Weather<Fact>)
    requires Replay(before, D).Success? && Unclashing(Replay(before, D).value, q)
    ensures !Clashes(before, D, q, weather)
  {
  }

  /** The append counts as ours: acknowledged, or lost to another writer of the
      very same fact, which no start accepts. */
  predicate IsOurs(q: Request, weather: Weather<Fact>, landed: bool) {
    || weather.Acknowledged()
    || (weather.rivals != [] && weather.fault == Fine && weather.rereads && landed && !q.AskStart?)
  }

  /** What a caller is told of one that does not; `landed` says whether the fact
      is in the log. */
  function Explained(q: Request, weather: Weather<Fact>, landed: bool): ServiceError {
    if !weather.rereads then WriteFailed(None)
    else if weather.fault != Fine then WriteFailed(Some(landed))
    else if landed then ReservationState
    else LedgerConflict
  }

  /** What a caller is told of an append that left the ledger readable.  An
      accepted one whose result cannot be read back fails without saying that it
      landed. */
  ghost predicate Wrote(after: seq<Fact>, D: Directory, q: Request, f: Fact, weather: Weather<Fact>, r: Result<Entity, ServiceError>)
    requires Replay(after, D).Success?
  {
    if weather.cancelled then r == Failure(Interrupted)
    else if !IsOurs(q, weather, f in after) then r == Failure(Explained(q, weather, f in after))
    else if !weather.readsBack then r == Failure(StreamUnreadable)
    else r.Success? && f in after && EntityOf(Replay(after, D).value, q) == Some(r.value)
  }

  /** What lands in the log and what the caller is told, for every decision
      and every weather. */
  ghost predicate Performed(before: seq<Fact>, after: seq<Fact>, D: Directory, q: Request, weather: Weather<Fact>,
                            r: Result<Entity, ServiceError>)
    requires Replay(before, D).Success? && Replay(after, D).Success?
  {
    var L := Replay(before, D).value;
    if !weather.loads then after == before && r == Failure(StreamUnreadable) else
    match Decide(L, D, q)
    case Refuse(error) => after == before && r == Failure(error)
    case Unlimited(granted) => after == before && r == Success(CallsEntity(granted))
    case Already => after == before && r.Success? && EntityOf(L, q) == Some(r.value)
    case Write(f) =>
      after == before + weather.rivals + (if weather.Lands() then [f] else []) && Wrote(after, D, q, f, weather, r)
  }

  /** With nothing in its way a mutation fails only when it is refused. */
  lemma SmoothPerforms(before: seq<Fact>, after: seq<Fact>, D: Directory, q: Request, weather: Weather<Fact>,
                       r: Result<Entity, ServiceError>)
    requires Replay(before, D).Success? && Replay(after, D).Success? && Performed(before, after, D, q, weather, r)
    ensures weather.Smooth() && r.Failure? ==> Decide(Replay(before, D).value, D, q).Refuse?
  {
    hide Decide, Replay, EntityOf;
  }

  /** Repeating a mutation whose fact is in the log writes nothing and returns
      its entity, for a Tool batch the calls it admitted; a repeated start is
      refused. */
  lemma RepeatWritesNothing(log: seq<Fact>, D: Directory, f: Fact, q: Request)
    requires Replay(log, D).Success? && InputIssue(q) == None && f in log && WrittenBy(f, q)
    ensures var L := Replay(log, D).value; var verdict := Decide(L, D, q);
      if q.AskStart? then verdict == Refuse(ReservationState)
      else verdict == Already && EntityOf(L, q).Some?
           && (q.AskTools? ==> EntityOf(L, q) == Some(CallsEntity(f.amounts.toolCalls)))
  {
    ReplayLogged(log, D);
    ReplayRemembers(log, D);
    LoggedEntity(log, D, f, q);
    hide Replay, EntityOf, GuardIssue, InputIssue;
    var i :| 0 <= i < |log| && log[i] == f;
    assert LoggedAt(Replay(log, D).value, log, i);
    assert Recalls(Replay(log, D).value, f);
  }
}
