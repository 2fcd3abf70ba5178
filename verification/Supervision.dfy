/** Managed child creation: reserve in the ledger, create in the Directory,
    then commit or release, for every way each part can end. */
module Supervision {
  import opened Prelude
  import opened Budget
  import opened Directory
  import opened Projection
  import opened LedgerShape
  import opened LedgerBounds
  import opened DirectoryGrowth
  import opened ManagedHistory
  import opened FactSlots
  import opened EventStore
  import opened Service
  import opened LedgerService
  import Registrar
  import Identities = Directory

  /** One managed creation call, with the host policy's grant for it. */
  datatype Call = Call(spec: Registrar.CreateRequest, session: Id, limits: Limits, retained: nat, initial: Option<int>)
  {
    /** The pinned child identity, or one derived from the request. */
    function Child(): Id {
      if spec.agent.Some? then spec.agent.value
      else Derived("managed-child-agent",
                   [Derived("owner", if spec.owner.Some? then [spec.owner.value] else []), spec.request, spec.preset,
                    spec.workspace, Derived("fork", if spec.forkedFrom.Some? then [spec.forkedFrom.value] else []),
                    Derived("grants", spec.grants)])
    }

    function Pinned(): Registrar.CreateRequest { spec.(agent := Some(Child())) }

    function Record(): Creation { Registrar.Payload(Pinned(), Child(), session) }

    function Rid(): Id
      requires spec.owner.Some?
    {
      Derived("child-reservation", [spec.owner.value, Child(), spec.request])
    }

    function Ask(): Request
      requires spec.owner.Some?
    {
      AskChild(Derived("child-reserve", [Rid()]), Rid(), spec.owner.value, Child(), spec.request, limits, retained, initial)
    }
  }

  function CommitOf(rid: Id): Request { AskCommit(Derived("child-commit", [rid]), rid) }

  function ReleaseOf(rid: Id): Request { AskRelease(Derived("child-release", [rid]), rid, true) }

  /** A managed hold no commit or release has terminated. */
  ghost predicate IsOpen(L: Ledger, rid: Id) { rid in L.holds && L.holds[rid].terminalAt.None? }

  /** A hold that is not open tells exactly what the Directory shows. */
  lemma ClosedHoldTellsTheTruth(log: seq<Fact>, agents: seq<Creation>, rid: Id)
    requires Readable(World(log, agents)) && !IsOpen(LedgerOf(World(log, agents)), rid)
    requires rid in LedgerOf(World(log, agents)).holds
    ensures var h, D := LedgerOf(World(log, agents)).holds[rid], Rebuilt(agents).value;
      && (h.status == Committed <==> NamesExactly(D, h.parent, h.child, h.request))
      && (h.status == Released <==> NamesNeither(D, h.child, h.request))
  {
    var L, D := LedgerOf(World(log, agents)), Rebuilt(agents).value;
    ReplaySound(log, D);
    SoundShape(L, D);
    assert ShapeAt(L, D, rid);
  }

  // ---- which facts touch a hold ----

  predicate About(f: Fact, rid: Id) { (f.ChildReserved? || f.HoldCommitted? || f.HoldReleased?) && f.rid == rid }

  ghost predicate SameHold(L: Ledger, N: Ledger, rid: Id) {
    (rid in L.holds <==> rid in N.holds) && (rid in L.holds ==> N.holds[rid] == L.holds[rid])
  }

  lemma EffectOnHold(L: Ledger, D: Directory, N: Ledger, f: Fact, rid: Id)
    requires Effect(L, D, N, f) && !About(f, rid)
    ensures SameHold(L, N, rid)
  {
    if !f.ChildReserved? && !f.HoldCommitted? && !f.HoldReleased? { OthersKeepHolds(L, D, N, f); }
  }

  lemma StepHolds(log: seq<Fact>, D: Directory, f: Fact)
    requires Replay(log, D).Success? && Replay(log + [f], D).Success?
    ensures Effect(Replay(log, D).value, D, Replay(log + [f], D).value, f)
  {
    hide Step;
    ReplayAppend(log, f, D);
    ReplaySound(log, D);
    SoundShape(Replay(log, D).value, D);
    StepHasEffect(Replay(log, D).value, D, f);
  }

  lemma {:induction false} QuietKeepsHold(log: seq<Fact>, fs: seq<Fact>, D: Directory, rid: Id)
    requires Replay(log + fs, D).Success? && forall f | f in fs :: !About(f, rid)
    ensures Replay(log, D).Success? && SameHold(Replay(log, D).value, Replay(log + fs, D).value, rid)
  {
    hide Replay, Effect;
    if fs == [] {
      assert log + fs == log;
    } else {
      var most, f := fs[..|fs| - 1], fs[|fs| - 1];
      assert log + fs == (log + most) + [f];
      assert (log + fs)[..|log + most|] == log + most;
      ReplayPrefix(log + fs, |log + most|, D);
      QuietKeepsHold(log, most, D, rid);
      StepHolds(log + most, D, f);
      EffectOnHold(Replay(log + most, D).value, D, Replay(log + fs, D).value, f, rid);
    }
  }

  /** What other guarded writers manage to land meanwhile: of what they
      propose, the facts replay accepts that are not about this call's hold. */
  function Landing(log: seq<Fact>, D: Directory, proposed: seq<Fact>, rid: Id): (landed: seq<Fact>)
    requires Replay(log, D).Success?
    ensures Replay(log + landed, D).Success?
    ensures forall f | f in landed :: f in proposed && !About(f, rid)
  {
    if proposed == [] then
      assert log + [] == log;
      []
    else
      var most := Landing(log, D, proposed[..|proposed| - 1], rid);
      var f := proposed[|proposed| - 1];
      if !About(f, rid) && Replay(log + (most + [f]), D).Success? then most + [f] else most
  }

  lemma RecallsInLog(log: seq<Fact>, D: Directory, f: Fact)
    requires Replay(log, D).Success? && f in log
    ensures Recalls(Replay(log, D).value, f)
  {
    hide Recalls, Replay;
    ReplayLogged(log, D);
    ReplayRemembers(log, D);
    var i :| 0 <= i < |log| && log[i] == f;
    assert LoggedAt(Replay(log, D).value, log, i);
  }

  /** A write lands alone, with its effect, or leaves the hold as it was. */
  ghost predicate HoldMoves(L: Ledger, N: Ledger, D: Directory, f: Fact, landed: bool, rid: Id) {
    if landed then Effect(L, D, N, f) else SameHold(L, N, rid)
  }

  lemma WriteMovesHold(before: seq<Fact>, after: seq<Fact>, D: Directory, q: Request, weather: Weather<Fact>,
                       r: Result<Entity, ServiceError>, rid: Id)
    requires Replay(before, D).Success? && Replay(after, D).Success? && Performed(before, after, D, q, weather, r)
    requires weather.loads && Decide(Replay(before, D).value, D, q).Write? && forall f | f in weather.rivals :: !About(f, rid)
    ensures HoldMoves(Replay(before, D).value, Replay(after, D).value, D, FactOf(Replay(before, D).value, q), weather.Lands(), rid)
    ensures FactOf(Replay(before, D).value, q) in after ==> Recalls(Replay(after, D).value, FactOf(Replay(before, D).value, q))
  {
    hide Decide, FactOf, Replay, Effect, Recalls;
    WritesItsFact(Replay(before, D).value, D, q);
    var f := FactOf(Replay(before, D).value, q);
    if weather.Lands() {
      assert after == before + [f];
      StepHolds(before, D, f);
    } else {
      assert after == before + weather.rivals;
      QuietKeepsHold(before, weather.rivals, D, rid);
    }
    if f in after { RecallsInLog(after, D, f); }
  }

  /** A hold never changes whom it is for. */
  predicate KeepsNames(L: Ledger, N: Ledger, rid: Id) {
    rid in L.holds ==>
      rid in N.holds
      && N.holds[rid] == L.holds[rid].(status := N.holds[rid].status, terminalAt := N.holds[rid].terminalAt,
                                       identityAt := N.holds[rid].identityAt)
  }

  /** A finalizer terminates its own hold or leaves it as it was. */
  lemma FinalizerEffect(before: seq<Fact>, after: seq<Fact>, D: Directory, q: Request, weather: Weather<Fact>,
                        r: Result<Entity, ServiceError>, rid: Id)
    requires Replay(before, D).Success? && Replay(after, D).Success? && Performed(before, after, D, q, weather, r)
    requires (q == CommitOf(rid) || q == ReleaseOf(rid)) && forall f | f in weather.rivals :: !About(f, rid)
    ensures var L, N := Replay(before, D).value, Replay(after, D).value;
      && before <= after && (IsOpen(N, rid) ==> IsOpen(L, rid)) && KeepsNames(L, N, rid)
      && (forall i | |before| <= i < |after| :: after[i] in weather.rivals || after[i] == FactOf(BLANK, q))
      && (r.Success? ==> rid in N.holds && N.holds[rid].terminalAt.Some?
                         && N.holds[rid].status == if q.AskCommit? then Committed else Released)
  {
    hide Decide, Replay, Recalls, WrittenBy;
    var L, N := Replay(before, D).value, Replay(after, D).value;
    if !weather.loads { return; }
    match Decide(L, D, q)
    case Refuse(_) =>
    case Unlimited(_) => NeverUnlimited(L, D, q);
    case Already =>
      var f := AlreadyEntity(before, D, q);
      RecallsInLog(before, D, f);
      FinalizerFact(f, q);
      TerminalRecall(L, q, rid);
      ReleasedIsTerminal(before, D, rid);
    case Write(_) =>
      WriteMovesHold(before, after, D, q, weather, r, rid);
      WritesItsFact(L, D, q);
      FinalizerMoves(L, N, D, q, weather.Lands(), rid);
      if r.Success? {
        TerminalRecall(N, q, rid);
        ReleasedIsTerminal(after, D, rid);
      }
  }

  lemma FinalizerFact(f: Fact, q: Request)
    requires (q.AskCommit? || q.AskRelease?) && WrittenBy(f, q)
    ensures f == if q.AskCommit? then HoldCommitted(q.op, q.rid) else HoldReleased(q.op, q.rid)
  {
  }

  lemma FinalizerMoves(L: Ledger, N: Ledger, D: Directory, q: Request, landed: bool, rid: Id)
    requires (q == CommitOf(rid) || q == ReleaseOf(rid)) && HoldMoves(L, N, D, FactOf(L, q), landed, rid)
    ensures (IsOpen(N, rid) ==> IsOpen(L, rid)) && KeepsNames(L, N, rid)
  {
  }

  lemma ReleasedIsTerminal(log: seq<Fact>, D: Directory, rid: Id)
    requires Replay(log, D).Success?
    ensures var L := Replay(log, D).value; rid in L.holds && L.holds[rid].status == Released ==> L.holds[rid].terminalAt.Some?
  {
    hide Replay;
    ReplaySound(log, D);
    SoundShape(Replay(log, D).value, D);
    assert ShapeAt(Replay(log, D).value, D, rid);
  }

  lemma NeverUnlimited(L: Ledger, D: Directory, q: Request)
    requires !q.AskTools?
    ensures !Decide(L, D, q).Unlimited?
  {
  }

  lemma TerminalRecall(N: Ledger, q: Request, rid: Id)
    requires q == CommitOf(rid) || q == ReleaseOf(rid)
    requires Recalls(N, if q.AskCommit? then HoldCommitted(q.op, rid) else HoldReleased(q.op, rid))
    ensures rid in N.holds && (q.AskCommit? ==> N.holds[rid].terminalAt.Some?)
    ensures N.holds[rid].status == if q.AskCommit? then Committed else Released
  {
  }

  /** `h` is the hold this call asked for. */
  predicate IsFor(h: Hold, call: Call)
    requires call.spec.owner.Some?
  {
    && h.parent == call.spec.owner.value && h.child == call.Child() && h.request == call.spec.request
    && h.limits == call.limits
  }

  /** No write that reports this can have landed. */
  predicate TookNothing(error: ServiceError) {
    error != Interrupted && error != StreamUnreadable && (error.WriteFailed? ==> error.committed == Some(false))
  }

  /** A reserve takes the call's hold or nothing; only a write whose fate it
      reports as committed, unknown or interrupted, or whose result could not be
      read back, can have taken it and still fail. */
  lemma ReserveOutcome(before: seq<Fact>, after: seq<Fact>, D: Directory, call: Call, weather: Weather<Fact>,
                       r: Result<Entity, ServiceError>)
    requires call.spec.owner.Some? && Replay(before, D).Success? && Replay(after, D).Success?
    requires Performed(before, after, D, call.Ask(), weather, r) && forall f | f in weather.rivals :: !About(f, call.Rid())
    ensures var L, N, rid := Replay(before, D).value, Replay(after, D).value, call.Rid();
      && before <= after
      && (forall i | |before| <= i < |after| :: after[i] in weather.rivals || after[i] == FactOf(BLANK, call.Ask()))
      && (rid in L.holds ==> rid in N.holds && N.holds[rid] == L.holds[rid])
      && (r.Success? ==> rid in N.holds && IsFor(N.holds[rid], call) && r.value == HoldEntity(N.holds[rid]))
      && (r.Failure? && TookNothing(r.error) ==> SameHold(L, N, rid))
  {
    hide Decide, Replay, Recalls, HoldMoves, Effect, IsFor, FactOf, WrittenBy;
    var L, N, q := Replay(before, D).value, Replay(after, D).value, call.Ask();
    if !weather.loads { return; }
    match Decide(L, D, q)
    case Refuse(_) =>
    case Unlimited(_) => NeverUnlimited(L, D, q);
    case Already =>
      var f := AlreadyEntity(before, D, q);
      RecallsInLog(before, D, f);
      ReserveFact(L, call, f);
      ReserveRecall(L, L, call);
      assert before == after;
    case Write(_) =>
      WriteMovesHold(before, after, D, q, weather, r, call.Rid());
      WritesItsFact(L, D, q);
      ReserveFact(L, call, FactOf(L, q));
      if r.Success? { ReserveRecall(L, N, call); }
      ReserveMoves(L, N, D, call, weather.Lands());
  }

  lemma ReserveFact(L: Ledger, call: Call, f: Fact)
    requires call.spec.owner.Some?
    ensures FactOf(L, call.Ask()) == FactOf(BLANK, call.Ask())
    ensures WrittenBy(f, call.Ask()) ==> f == FactOf(L, call.Ask())
  {
  }

  lemma ReserveMoves(L: Ledger, N: Ledger, D: Directory, call: Call, landed: bool)
    requires call.spec.owner.Some? && HoldMoves(L, N, D, FactOf(L, call.Ask()), landed, call.Rid())
    ensures !landed ==> SameHold(L, N, call.Rid())
    ensures call.Rid() in L.holds ==> call.Rid() in N.holds && N.holds[call.Rid()] == L.holds[call.Rid()]
  {
  }

  lemma ReserveRecall(L: Ledger, N: Ledger, call: Call)
    requires call.spec.owner.Some? && Recalls(N, FactOf(L, call.Ask()))
    ensures call.Rid() in N.holds && IsFor(N.holds[call.Rid()], call)
  {
  }

  /** A live hold makes its own creation a managed one. */
  lemma ReservedIsManaged(L: Ledger, D: Directory, call: Call)
    requires Shape(L, D) && call.spec.owner.Some? && call.Rid() in L.holds
    requires IsFor(L.holds[call.Rid()], call) && L.holds[call.Rid()].status != Released
    ensures Managed(L, call.Record())
  {
    hide NamesExactly, NamesNeither, Affords;
    var e, rid := call.Record(), call.Rid();
    assert e.agent == call.Child() && e.request == call.spec.request && e.owner == call.spec.owner;
    forall r | r in L.holds && r != rid ensures L.holds[r].child != e.agent && L.holds[r].request != e.request {
      assert ShapeAt(L, D, r) && ShapeAt(L, D, rid);
    }
  }

  // ---- the two streams as one grows ----

  /** A later Directory shows the same log promoted. */
  lemma AgentsPromote(log: seq<Fact>, agents: seq<Creation>, later: seq<Creation>)
    requires Readable(World(log, agents)) && Readable(World(log, later)) && agents <= later
    ensures LedgerOf(World(log, later)) == Promote(LedgerOf(World(log, agents)), Rebuilt(later).value)
  {
    assert later[..|agents|] == agents;
    RebuiltGrows(later, |agents|);
    ReplayGrows(log, Rebuilt(agents).value, Rebuilt(later).value);
  }

  lemma PromotionOpensNothing(L: Ledger, D: Directory, rid: Id)
    ensures IsOpen(Promote(L, D), rid) <==> IsOpen(L, rid)
    ensures KeepsNames(L, Promote(L, D), rid)
    ensures rid in Promote(L, D).holds && Promote(L, D).holds[rid].status == Released ==> rid in L.holds && L.holds[rid].status == Released
  {
    if rid in L.holds { PromotedLookup(L, D, rid); }
  }

  /** No new fact is about the hold. */
  ghost predicate QuietAbout(w: World, w': World, rid: Id) {
    w.log <= w'.log && w.agents <= w'.agents && forall i | |w.log| <= i < |w'.log| :: !About(w'.log[i], rid)
  }

  /** Whatever else happens, a hold nobody writes about stays open or closed. */
  lemma QuietOpensNothing(w: World, w': World, rid: Id)
    requires Readable(w) && Readable(w') && QuietAbout(w, w', rid)
    ensures IsOpen(LedgerOf(w'), rid) <==> IsOpen(LedgerOf(w), rid)
  {
    hide Replay, Rebuilt, IsOpen;
    var E, fs := DirectoryOf(w'), w'.log[|w.log|..];
    assert w'.log == w.log + fs;
    QuietKeepsHold(w.log, fs, E, rid);
    AgentsPromote(w.log, w.agents, w'.agents);
    PromotionOpensNothing(LedgerOf(w), E, rid);
    SameHoldSameOpen(Promote(LedgerOf(w), E), LedgerOf(w'), rid);
  }

  lemma SameHoldSameOpen(L: Ledger, N: Ledger, rid: Id)
    requires SameHold(L, N, rid)
    ensures IsOpen(L, rid) <==> IsOpen(N, rid)
  {
  }

  // ---- what one call does, stage by stage ----

  datatype Inner = Returns | FailsBefore | FailsAfter

  /** Everything that can go wrong around one creation: what the reserve and
      the finalizer meet, a cancellation while the reserve converges or, late,
      while the last finalizer does, Agents others create meanwhile, and how the
      inner creation ends. */
  datatype Turbulence = Turbulence(
    reserve: Weather<Fact>, cancelled: bool, others: seq<Creation>, inner: Inner, finish: Weather<Fact>, late: bool)

  /** How a call ended: without a hold of its own, not knowing whether the
      reserve committed, unable to read the stream around the reserve, or with
      a finalizer that finished or failed. */
  datatype Ending = NoHold | UnknownReserve | UnreadStream | Finalized | FailedFinalizer

  datatype Report = Report(handle: Option<AgentRecord>, ending: Ending) {
    predicate Clean() { ending == NoHold || ending == Finalized }
  }

  /** What follows the answer to a reserve. */
  datatype Course = Stop(ending: Ending) | Finalize(required: bool) | GoOn

  function CourseOf(asked: Result<Entity, ServiceError>, cancelled: bool): Course {
    match asked
    case Failure(Interrupted) => Finalize(false)
    case Failure(WriteFailed(None)) => Stop(UnknownReserve)
    case Failure(WriteFailed(Some(committed))) => if committed then Finalize(false) else Stop(NoHold)
    case Failure(StreamUnreadable) => Stop(UnreadStream)
    case Failure(_) => Stop(NoHold)
    case Success(entity) =>
      if cancelled then Finalize(true)
      else if !entity.HoldEntity? || entity.hold.status == Released then Stop(NoHold)
      else GoOn
  }

  /** The weather with the rivals that land of those proposed. */
  ghost function Met(w: World, weather: Weather<Fact>, rid: Id): Weather<Fact>
    requires Readable(w)
  {
    weather.(rivals := Landing(w.log, DirectoryOf(w), weather.rivals, rid))
  }

  ghost predicate OwnerKnown(w: World, call: Call)
    requires Readable(w)
  {
    call.spec.owner.Some? && DirectoryOf(w).Find(call.spec.owner.value).Some?
  }

  ghost predicate Asks(w: World, v: World, call: Call, turbulence: Turbulence, asked: Result<Entity, ServiceError>)
    requires call.spec.owner.Some?
  {
    && Readable(w) && Readable(v) && v.agents == w.agents
    && if !OwnerKnown(w, call) then v == w && asked == Failure(DirectoryMismatch)
       else Performed(w.log, v.log, DirectoryOf(w), call.Ask(), Met(w, turbulence.reserve, call.Rid()), asked)
  }

  ghost predicate Joins(v: World, w: World, others: seq<Creation>) {
    && Readable(v) && Readable(w) && w.log == v.log && v.agents <= w.agents
    && forall i | |v.agents| <= i < |w.agents| :: w.agents[i] in others
  }

  /** The wrapped supervisor records the identity or answers a repeat. */
  ghost predicate Makes(v: World, w: World, call: Call, inner: Inner, handle: Option<AgentRecord>) {
    && Readable(v) && Readable(w) && w.log == v.log
    && var plan := Registrar.Decide(DirectoryOf(v), call.Pinned(), call.Record());
       && w.agents == v.agents + (if plan.Record? && inner != FailsBefore then [call.Record()] else [])
       && handle == (if inner != Returns || plan.Refuse? then None
                     else if plan.Existing? then Some(plan.record)
                     else Some(AgentRecord(call.Record(), |w.agents|)))
  }

  /** The finalizer of a hold: a commit of a committed one, or else a release. */
  function FinalizerOf(L: Ledger, rid: Id): Request
    requires rid in L.holds
  {
    if L.holds[rid].status == Committed then CommitOf(rid) else ReleaseOf(rid)
  }

  /** Commits the hold when the Directory has the child, releases it when it
      has neither identity, and fails on anything in between. */
  ghost predicate Finishes(v: World, w: World, call: Call, required: bool, weather: Weather<Fact>,
                           done: Result<Entity, ServiceError>, ok: bool)
    requires call.spec.owner.Some?
  {
    && Readable(v) && Readable(w) && w.agents == v.agents
    && var L, D, rid := LedgerOf(v), DirectoryOf(v), call.Rid();
       var exact := NamesExactly(D, call.spec.owner.value, call.Child(), call.spec.request);
       if !weather.loads then w == v && !ok
       else if rid !in L.holds then w == v && ok == !required
       else if !IsFor(L.holds[rid], call) || !(exact || NamesNeither(D, call.Child(), call.spec.request)) then w == v && !ok
       else Performed(v.log, w.log, D, if exact then CommitOf(rid) else ReleaseOf(rid), Met(v, weather, rid), done)
            && ok == done.Success?
  }

  /** What happened between the two ends of a call. */
  datatype Trace = Trace(
    asked: Result<Entity, ServiceError>, held: World, joined: World, made: World, handle: Option<AgentRecord>,
    done: Result<Entity, ServiceError>)
  {
    /** The streams the finalizer starts from. */
    function Unfinished(cancelled: bool): World { if CourseOf(asked, cancelled) == GoOn then made else held }
  }

  predicate Finalizing(ending: Ending) { ending == Finalized || ending == FailedFinalizer }

  /** One whole call. */
  ghost predicate Created(w: World, w': World, call: Call, turbulence: Turbulence, report: Report, trace: Trace) {
    if call.spec.owner.None? then Makes(w, w', call, turbulence.inner, report.handle) && report.ending == NoHold
    else
      && Asks(w, trace.held, call, turbulence, trace.asked)
      && match CourseOf(trace.asked, turbulence.cancelled)
         case Stop(ending) => w' == trace.held && report == Report(None, ending)
         case Finalize(required) =>
           && report.handle.None? && Finalizing(report.ending)
           && Finishes(trace.held, w', call, required, turbulence.finish, trace.done, report.ending == Finalized)
         case GoOn =>
           && Joins(trace.held, trace.joined, turbulence.others)
           && Makes(trace.joined, trace.made, call, turbulence.inner, trace.handle)
           && Finalizing(report.ending) && report.handle == (if report.ending == Finalized && !turbulence.late then trace.handle else None)
           && Finishes(trace.made, w', call, true, turbulence.finish, trace.done, report.ending == Finalized)
  }

  // ---- the supervisor ----

  class BudgetedAgentSupervisor {
    const store: Store
    const service: BudgetLedgerService
    var closed: bool

    constructor (s: Store)
      ensures store == s && service.store == s && !closed
    {
      store := s;
      service := new BudgetLedgerService(s);
      closed := false;
    }

    ghost predicate Valid()
      reads this, store
    {
      service.store == store && store.Readable()
    }

    ghost function Now(): World
      reads this, store
    {
      World(store.log, store.agents)
    }

    ghost function Ledger(): Ledger
      requires Valid()
      reads this, store
    {
      LedgerOf(Now())
    }

    method AClose()
      modifies this`closed
      ensures closed
    {
      closed := true;
    }

    /** Of what others propose, the creations that conflict with nothing and
        contradict no hold appear. */
    method OthersAppear(others: seq<Creation>)
      requires Valid()
      modifies store`agents
      ensures Valid() && Joins(old(Now()), Now(), others)
    {
      hide Replay, Rebuilt, Managed, Conflicts;
      for n := 0 to |others|
        invariant Valid() && old(store.agents) <= store.agents && store.log == old(store.log)
        invariant forall i | |old(store.agents)| <= i < |store.agents| :: store.agents[i] in others
      {
        var L, D := service.LoadContext();
        if Conflicts(D, others[n]) == [] && Managed(L, others[n]) {
          RebuiltAppend(store.agents, others[n]);
          CreationKeepsReadable(Now(), others[n]);
          store.agents := store.agents + [others[n]];
        }
      }
    }

    method CreateInner(call: Call, inner: Inner) returns (handle: Option<AgentRecord>)
      requires Valid() && Managed(Ledger(), call.Record())
      modifies store`agents
      ensures Valid() && Makes(old(Now()), Now(), call, inner, handle)
    {
      hide Replay, Rebuilt, Managed, Registrar.Decide;
      ghost var start := Now();
      NothingMore(store.agents);
      var d := Identities.Rebuild(store.agents);
      var plan := Registrar.Decide(d.value, call.Pinned(), call.Record());
      if inner == FailsBefore || plan.Refuse? { return None; }
      if plan.Existing? {
        return if inner == Returns then Some(plan.record) else None;
      }
      RecordingReads(start, call);
      store.agents := store.agents + [call.Record()];
      return if inner == Returns then Some(AgentRecord(call.Record(), |store.agents|)) else None;
    }

    method Finish(call: Call, required: bool, weather: Weather<Fact>) returns (ok: bool, ghost done: Result<Entity, ServiceError>)
      requires Valid() && call.spec.owner.Some?
      modifies store`log
      ensures Valid() && Finishes(old(Now()), Now(), call, required, weather, done, ok)
    {
      hide Decide, Replay, Rebuilt, Performed, Clashes, NamesExactly, NamesNeither, Unclashing, Landing;
      done := Failure(DirectoryMismatch);
      if !weather.loads { return false, done; }
      var rid := call.Rid();
      var L, D := service.LoadContext();
      if rid !in L.holds { return !required, done; }
      if !IsFor(L.holds[rid], call) { return false, done; }
      var exact := NamesExactly(D, call.spec.owner.value, call.Child(), call.spec.request);
      var absent := NamesNeither(D, call.Child(), call.spec.request);
      if !exact && !absent { return false, done; }
      var q := if exact then CommitOf(rid) else ReleaseOf(rid);
      FinalizersUnclash(L, rid);
      var landing := weather.(rivals := Landing(store.log, D, weather.rivals, rid));
      UnclashingDoesNotClash(store.log, D, q, landing);
      var r := service.Perform(q, landing);
      return r.Success?, r;
    }

    method Reserve(call: Call, turbulence: Turbulence) returns (asked: Result<Entity, ServiceError>)
      requires Valid() && call.spec.owner.Some? && Unclashing(Ledger(), call.Ask())
      modifies store`log
      ensures Valid() && Asks(old(Now()), Now(), call, turbulence, asked)
    {
      hide Replay, Rebuilt, Performed, Clashes, Unclashing, Landing;
      var D := Identities.Rebuild(store.agents);
      if D.value.Find(call.spec.owner.value).None? { return Failure(DirectoryMismatch); }
      var landing := turbulence.reserve.(rivals := Landing(store.log, D.value, turbulence.reserve.rivals, call.Rid()));
      UnclashingDoesNotClash(store.log, D.value, call.Ask(), landing);
      asked := service.Perform(call.Ask(), landing);
    }

    /** One managed creation.  A root bypasses the ledger, so its identities
        must not be ones some hold stands for. */
    method Create(call: Call, turbulence: Turbulence) returns (report: Report, ghost trace: Trace)
      requires Valid()
      requires call.spec.owner.Some? ==> Unclashing(Ledger(), call.Ask())
      requires call.spec.owner.None? ==> Managed(Ledger(), call.Record())
      modifies store`log, store`agents
      ensures Valid() && closed == old(closed)
      ensures closed ==> Now() == old(Now()) && report == Report(None, NoHold)
      ensures !closed ==> Created(old(Now()), Now(), call, turbulence, report, trace)
    {
      hide Asks, Joins, Makes, Finishes, Unclashing, Managed, FactOf, Replay, Rebuilt;
      ghost var start := Now();
      trace := Trace(Failure(DirectoryMismatch), start, start, start, None, Failure(DirectoryMismatch));
      if closed { return Report(None, NoHold), trace; }
      if call.spec.owner.None? {
        var handle := CreateInner(call, turbulence.inner);
        return Report(handle, NoHold), trace;
      }
      var asked := Reserve(call, turbulence);
      trace := trace.(asked := asked, held := Now());
      var course := CourseOf(asked, turbulence.cancelled);
      match course
      case Stop(ending) => return Report(None, ending), trace;
      case Finalize(required) =>
        var ok, done := Finish(call, required, turbulence.finish);
        return Report(None, if ok then Finalized else FailedFinalizer), trace.(done := done);
      case GoOn =>
        OthersAppear(turbulence.others);
        trace := trace.(joined := Now());
        OwnCreationIsManaged(start, trace.held, trace.joined, call, turbulence, asked);
        var handle := CreateInner(call, turbulence.inner);
        trace := trace.(made := Now(), handle := handle);
        var ok, done := Finish(call, true, turbulence.finish);
        return Report(if ok && !turbulence.late then handle else None, if ok then Finalized else FailedFinalizer), trace.(done := done);
    }
  }

  // ---- what every call keeps ----

  /** The reserve answered with this call's own live hold. */
  lemma GoOnHolds(w: World, v: World, call: Call, turbulence: Turbulence, asked: Result<Entity, ServiceError>)
    requires call.spec.owner.Some? && Asks(w, v, call, turbulence, asked) && asked.Success?
    ensures call.Rid() in LedgerOf(v).holds && IsFor(LedgerOf(v).holds[call.Rid()], call)
    ensures asked.value == HoldEntity(LedgerOf(v).holds[call.Rid()])
  {
    hide Performed, Replay, Rebuilt, IsFor;
    ReserveOutcome(w.log, v.log, DirectoryOf(w), call, Met(w, turbulence.reserve, call.Rid()), asked);
  }

  lemma JoinKeeps(v: World, w: World, others: seq<Creation>, rid: Id)
    requires Joins(v, w, others)
    ensures IsOpen(LedgerOf(w), rid) <==> IsOpen(LedgerOf(v), rid)
    ensures KeepsNames(LedgerOf(v), LedgerOf(w), rid)
    ensures rid in LedgerOf(w).holds && LedgerOf(w).holds[rid].status == Released ==>
              rid in LedgerOf(v).holds && LedgerOf(v).holds[rid].status == Released
    ensures LedgerOf(w).operations == LedgerOf(v).operations
  {
    hide Replay, Rebuilt;
    AgentsPromote(v.log, v.agents, w.agents);
    PromotionOpensNothing(LedgerOf(v), DirectoryOf(w), rid);
  }

  lemma MakingJoins(v: World, w: World, call: Call, inner: Inner, handle: Option<AgentRecord>)
    requires Makes(v, w, call, inner, handle)
    ensures Joins(v, w, [call.Record()])
  {
    hide Rebuilt, Replay, Registrar.Decide;
  }

  lemma NothingMore(agents: seq<Creation>)
    ensures agents + [] == agents
  {
  }

  /** A managed identity the registrar admits may be recorded. */
  lemma RecordingReads(w: World, call: Call)
    requires Readable(w) && Managed(LedgerOf(w), call.Record())
    requires Registrar.Decide(DirectoryOf(w), call.Pinned(), call.Record()).Record?
    ensures Readable(World(w.log, w.agents + [call.Record()]))
  {
    hide Replay, Rebuilt, Managed, Registrar.Decide, Conflicts;
    Registrar.RecordsExactlyWhatReplays(DirectoryOf(w), call.Pinned(), call.Record());
    CreationKeepsReadable(w, call.Record());
  }

  /** A handle is the Directory's record for the request, and answers it. */
  lemma HandleIsRecorded(v: World, w: World, call: Call, inner: Inner, handle: Option<AgentRecord>)
    requires Makes(v, w, call, inner, handle) && handle.Some?
    ensures DirectoryOf(w).ForRequest(call.spec.request) == handle && Registrar.Answers(handle.value, call.Pinned())
  {
    hide Replay;
    var D := DirectoryOf(v);
    var plan := Registrar.Decide(D, call.Pinned(), call.Record());
    if plan.Record? {
      Registrar.RecordsExactlyWhatReplays(D, call.Pinned(), call.Record());
      RebuiltAppend(v.agents, call.Record());
      RecordAnswers(call, |w.agents|);
    } else {
      assert v.agents + [] == v.agents;
      Registrar.ExistingAnswers(D, call.Pinned(), call.Record());
    }
  }

  lemma OwnCreationIsManaged(w: World, v: World, x: World, call: Call, turbulence: Turbulence, asked: Result<Entity, ServiceError>)
    requires call.spec.owner.Some? && Asks(w, v, call, turbulence, asked) && Joins(v, x, turbulence.others)
    requires CourseOf(asked, turbulence.cancelled) == GoOn
    ensures Managed(LedgerOf(x), call.Record())
    ensures call.Rid() in LedgerOf(x).holds && IsFor(LedgerOf(x).holds[call.Rid()], call)
  {
    hide Performed, Replay, Rebuilt, Managed, Shape, Landing;
    GoOnHolds(w, v, call, turbulence, asked);
    JoinKeeps(v, x, turbulence.others, call.Rid());
    LedgerIsShaped(x.log, x.agents);
    ReservedIsManaged(LedgerOf(x), DirectoryOf(x), call);
  }

  /** What a finalizer may do, finished or not. */
  lemma FinishKeeps(v: World, w: World, call: Call, required: bool, weather: Weather<Fact>,
                    done: Result<Entity, ServiceError>, ok: bool)
    requires call.spec.owner.Some? && Finishes(v, w, call, required, weather, done, ok)
    ensures v.log <= w.log
    ensures forall i | |v.log| <= i < |w.log| ::
              || w.log[i] == FactOf(BLANK, CommitOf(call.Rid())) || w.log[i] == FactOf(BLANK, ReleaseOf(call.Rid()))
              || (w.log[i] in weather.rivals && !About(w.log[i], call.Rid()))
    ensures IsOpen(LedgerOf(w), call.Rid()) ==> IsOpen(LedgerOf(v), call.Rid())
    ensures KeepsNames(LedgerOf(v), LedgerOf(w), call.Rid())
    ensures ok ==> !IsOpen(LedgerOf(w), call.Rid()) && (required ==> call.Rid() in LedgerOf(w).holds)
    ensures ok && call.Rid() in LedgerOf(w).holds ==>
              var h := LedgerOf(w).holds[call.Rid()];
              && h.terminalAt.Some?
              && h.status == if NamesExactly(DirectoryOf(w), call.spec.owner.value, call.Child(), call.spec.request)
                             then Committed else Released
  {
    hide Replay, Rebuilt, Performed, NamesExactly, NamesNeither, IsFor, FactOf;
    var L, D, rid := LedgerOf(v), DirectoryOf(v), call.Rid();
    if weather.loads && rid in L.holds && IsFor(L.holds[rid], call) && w != v {
      var exact := NamesExactly(D, call.spec.owner.value, call.Child(), call.spec.request);
      FinalizerEffect(v.log, w.log, D, if exact then CommitOf(rid) else ReleaseOf(rid), Met(v, weather, rid), done, rid);
    } else if weather.loads && rid in L.holds && IsFor(L.holds[rid], call) && ok {
      var exact := NamesExactly(D, call.spec.owner.value, call.Child(), call.spec.request);
      FinalizerEffect(v.log, w.log, D, if exact then CommitOf(rid) else ReleaseOf(rid), Met(v, weather, rid), done, rid);
    }
  }

  /** A recorded or returned child is named by the Directory as the hold has it. */
  lemma ChildIsNamed(agents: seq<Creation>, call: Call, handle: Option<AgentRecord>)
    requires call.spec.owner.Some? && Rebuilt(agents).Success?
    requires handle.Some? ==> Rebuilt(agents).value.ForRequest(call.spec.request) == handle
                              && Registrar.Answers(handle.value, call.Pinned())
    ensures handle.Some? || call.Record() in agents ==>
              NamesExactly(Rebuilt(agents).value, call.spec.owner.value, call.Child(), call.spec.request)
  {
    hide Rebuilt;
    RebuiltIsCoherent(agents);
    if call.Record() in agents {
      var i :| 0 <= i < |agents| && agents[i] == call.Record();
      assert Rebuilt(agents).value.byAgent[agents[i].agent] == AgentRecord(agents[i], i + 1);
    }
  }

  lemma NamedIsCommitted(log: seq<Fact>, agents: seq<Creation>, rid: Id)
    requires Readable(World(log, agents)) && rid in LedgerOf(World(log, agents)).holds
    ensures var h := LedgerOf(World(log, agents)).holds[rid];
      NamesExactly(Rebuilt(agents).value, h.parent, h.child, h.request) ==> h.status == Committed
  {
    LedgerIsShaped(log, agents);
    hide Replay;
    assert ShapeAt(LedgerOf(World(log, agents)), Rebuilt(agents).value, rid);
  }

  lemma SameNamesSameCall(L: Ledger, M: Ledger, N: Ledger, call: Call)
    requires call.spec.owner.Some? && call.Rid() in L.holds && IsFor(L.holds[call.Rid()], call)
    requires KeepsNames(L, M, call.Rid()) && KeepsNames(M, N, call.Rid())
    ensures call.Rid() in N.holds && IsFor(N.holds[call.Rid()], call)
    ensures var h := N.holds[call.Rid()];
      h.parent == call.spec.owner.value && h.child == call.Child() && h.request == call.spec.request
  {
  }

  lemma LedgerIsShaped(log: seq<Fact>, agents: seq<Creation>)
    requires Readable(World(log, agents))
    ensures Shape(LedgerOf(World(log, agents)), Rebuilt(agents).value)
  {
    ReplaySound(log, Rebuilt(agents).value);
    SoundShape(LedgerOf(World(log, agents)), Rebuilt(agents).value);
  }

  lemma FinalizersUnclash(L: Ledger, rid: Id)
    ensures Unclashing(L, CommitOf(rid)) && Unclashing(L, ReleaseOf(rid))
  {
  }

  lemma RecordAnswers(call: Call, n: nat)
    ensures Registrar.Answers(AgentRecord(call.Record(), n), call.Pinned())
  {
  }

  /** A new fact is one of this call's three, or a rival's about something else. */
  ghost predicate OwnOrRival(f: Fact, call: Call, turbulence: Turbulence)
    requires call.spec.owner.Some?
  {
    || f == FactOf(BLANK, call.Ask()) || f == FactOf(BLANK, CommitOf(call.Rid())) || f == FactOf(BLANK, ReleaseOf(call.Rid()))
    || ((f in turbulence.reserve.rivals || f in turbulence.finish.rivals) && !About(f, call.Rid()))
  }

  ghost predicate WritesOnly(before: seq<Fact>, after: seq<Fact>, call: Call, turbulence: Turbulence)
    requires call.spec.owner.Some?
  {
    before <= after && forall i | |before| <= i < |after| :: OwnOrRival(after[i], call, turbulence)
  }

  lemma WritesOnlyTwice(a: seq<Fact>, b: seq<Fact>, c: seq<Fact>, call: Call, turbulence: Turbulence)
    requires call.spec.owner.Some? && WritesOnly(a, b, call, turbulence) && WritesOnly(b, c, call, turbulence)
    ensures WritesOnly(a, c, call, turbulence)
  {
    hide OwnOrRival;
    forall i | |a| <= i < |c| ensures OwnOrRival(c[i], call, turbulence) {
      if i < |b| { assert c[i] == b[i]; }
    }
  }

  lemma AskKeeps(w: World, v: World, call: Call, turbulence: Turbulence, asked: Result<Entity, ServiceError>)
    requires call.spec.owner.Some? && Asks(w, v, call, turbulence, asked)
    ensures WritesOnly(w.log, v.log, call, turbulence)
    ensures var L, N, rid := LedgerOf(w), LedgerOf(v), call.Rid();
      && (rid in L.holds ==> rid in N.holds && N.holds[rid] == L.holds[rid])
      && (CourseOf(asked, turbulence.cancelled) == Stop(NoHold) ==> SameHold(L, N, rid) || !IsOpen(N, rid))
      && (rid in L.holds && L.holds[rid].status == Released ==> CourseOf(asked, turbulence.cancelled) != GoOn)
  {
    hide Performed, Replay, Rebuilt, IsFor, FactOf;
    if OwnerKnown(w, call) {
      ReserveOutcome(w.log, v.log, DirectoryOf(w), call, Met(w, turbulence.reserve, call.Rid()), asked);
      ReleasedIsTerminal(v.log, DirectoryOf(v), call.Rid());
    }
  }

  /** Whatever goes wrong, a managed call keeps both streams readable, writes
      only its own facts, gives every child it recorded or returned a committed
      hold, and creates nothing on a released one. */
  lemma CreationIsSafe(w: World, w': World, call: Call, turbulence: Turbulence, report: Report, trace: Trace)
    requires Created(w, w', call, turbulence, report, trace)
    ensures Readable(w) && Readable(w') && w.log <= w'.log && w.agents <= w'.agents
    ensures forall i | |w.agents| <= i < |w'.agents| :: w'.agents[i] == call.Record() || w'.agents[i] in turbulence.others
    ensures report.handle.Some? ==> DirectoryOf(w').ForRequest(call.spec.request) == report.handle
    ensures call.spec.owner.None? ==> w'.log == w.log
    ensures call.spec.owner.Some? ==>
              var L, N, rid := LedgerOf(w), LedgerOf(w'), call.Rid();
              && WritesOnly(w.log, w'.log, call, turbulence)
              && (report.handle.Some? || (call.Record() in w'.agents && call.Record() !in w.agents) ==>
                    rid in N.holds && IsFor(N.holds[rid], call) && N.holds[rid].status == Committed)
              && (report.handle.Some? ==> report.ending == Finalized && N.holds[rid].terminalAt.Some?)
              && (rid in L.holds && L.holds[rid].status == Released ==> w'.agents == w.agents && report.handle.None?)
  {
    if call.spec.owner.None? {
      MakingJoins(w, w', call, turbulence.inner, report.handle);
      if report.handle.Some? { HandleIsRecorded(w, w', call, turbulence.inner, report.handle); }
    } else {
      hide Asks, Joins, Makes, Finishes, IsOpen, Managed, WritesOnly, IsFor, NamesExactly;
      AskKeeps(w, trace.held, call, turbulence, trace.asked);
      StagesJoin(w, w', call, turbulence, report, trace);
      match CourseOf(trace.asked, turbulence.cancelled)
      case Stop(_) =>
      case Finalize(required) =>
        FinishWrites(trace.held, w', call, required, turbulence, trace.done, report.ending == Finalized);
        WritesOnlyTwice(w.log, trace.held.log, w'.log, call, turbulence);
      case GoOn =>
        FinishWrites(trace.made, w', call, true, turbulence, trace.done, report.ending == Finalized);
        WritesOnlyTwice(w.log, trace.held.log, w'.log, call, turbulence);
        GoneOnIsCommitted(w, w', call, turbulence, report, trace);
    }
  }

  lemma FinishWrites(v: World, w: World, call: Call, required: bool, turbulence: Turbulence,
                     done: Result<Entity, ServiceError>, ok: bool)
    requires call.spec.owner.Some? && Finishes(v, w, call, required, turbulence.finish, done, ok)
    ensures WritesOnly(v.log, w.log, call, turbulence)
  {
    FinishKeeps(v, w, call, required, turbulence.finish, done, ok);
    hide Finishes, FactOf;
  }

  /** The readable streams and the Agents of each stage. */
  lemma StagesJoin(w: World, w': World, call: Call, turbulence: Turbulence, report: Report, trace: Trace)
    requires call.spec.owner.Some? && Created(w, w', call, turbulence, report, trace)
    ensures Readable(w) && Readable(w') && Readable(trace.held) && trace.held.agents == w.agents
    ensures CourseOf(trace.asked, turbulence.cancelled) != GoOn ==> w'.agents == w.agents
    ensures CourseOf(trace.asked, turbulence.cancelled) == GoOn ==>
              && Readable(trace.joined) && Readable(trace.made)
              && trace.made.log == trace.held.log && w'.agents == trace.made.agents && w.agents <= trace.made.agents
              && (forall i | |w.agents| <= i < |w'.agents| :: w'.agents[i] == call.Record() || w'.agents[i] in turbulence.others)
  {
    hide Performed, Replay, Rebuilt, Registrar.Decide;
  }

  lemma GoneOnIsCommitted(w: World, w': World, call: Call, turbulence: Turbulence, report: Report, trace: Trace)
    requires call.spec.owner.Some? && Created(w, w', call, turbulence, report, trace)
    requires CourseOf(trace.asked, turbulence.cancelled) == GoOn
    ensures Readable(w') && (report.handle.Some? ==> DirectoryOf(w').ForRequest(call.spec.request) == report.handle)
    ensures var N, rid := LedgerOf(w'), call.Rid();
      && (report.handle.Some? || call.Record() in w'.agents ==>
            rid in N.holds && IsFor(N.holds[rid], call) && N.holds[rid].status == Committed)
      && (report.handle.Some? ==> rid in N.holds && N.holds[rid].terminalAt.Some?)
  {
    StagesJoin(w, w', call, turbulence, report, trace);
    hide Asks, Joins, Makes, Finishes, Replay, Rebuilt, Managed, NamesExactly, Registrar.Answers, IsFor, IsOpen;
    OwnCreationIsManaged(w, trace.held, trace.joined, call, turbulence, trace.asked);
    MakingJoins(trace.joined, trace.made, call, turbulence.inner, trace.handle);
    JoinKeeps(trace.joined, trace.made, [call.Record()], call.Rid());
    FinishKeeps(trace.made, w', call, true, turbulence.finish, trace.done, report.ending == Finalized);
    if trace.handle.Some? { HandleIsRecorded(trace.joined, trace.made, call, turbulence.inner, trace.handle); }
    ChildIsNamed(w'.agents, call, report.handle);
    SameNamesSameCall(LedgerOf(trace.joined), LedgerOf(trace.made), LedgerOf(w'), call);
    NamedIsCommitted(w'.log, w'.agents, call.Rid());
  }
}
