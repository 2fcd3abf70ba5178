/** The fate of a managed hold: exactly when a creation call leaves it open, why
    a call is not clean, and what remains after any history. */
module HoldFate {
  import opened Prelude
  import opened Budget
  import opened Directory
  import opened Projection
  import opened LedgerShape
  import opened LedgerBounds
  import opened DirectoryGrowth
  import opened ManagedHistory
  import opened FactSlots
  import opened EventStore
  import opened Service
  import opened LedgerService
  import opened Supervision
  import Registrar

  // ---- exactly when a call leaves its hold open ----

  /** The reserve lands: the call is the one that takes the hold. */
  ghost predicate Takes(w: World, call: Call, turbulence: Turbulence)
    requires Readable(w) && call.spec.owner.Some?
  {
    Writes(w, call, turbulence) && Met(w, turbulence.reserve, call.Rid()).Lands()
  }

  /** The reserve gets as far as appending. */
  ghost predicate Writes(w: World, call: Call, turbulence: Turbulence)
    requires Readable(w) && call.spec.owner.Some?
  {
    OwnerKnown(w, call) && turbulence.reserve.loads && Decide(LedgerOf(w), DirectoryOf(w), call.Ask()).Write?
  }

  /** The hold is this call's and its finalizer's operation id is unused. */
  ghost predicate Finalizable(L: Ledger, call: Call)
    requires call.spec.owner.Some?
  {
    var rid := call.Rid();
    rid in L.holds && IsFor(L.holds[rid], call) && FinalizerOf(L, rid).op !in L.operations
  }

  /** The commit or release of an open hold lands. */
  ghost predicate FinalizerLands(v: World, call: Call, finish: Weather<Fact>)
    requires Readable(v) && call.spec.owner.Some?
  {
    finish.loads && Finalizable(LedgerOf(v), call) && Met(v, finish, call.Rid()).Lands()
  }

  /** A finalizer ends without an error. */
  ghost predicate FinalizerWorks(v: World, call: Call, required: bool, finish: Weather<Fact>)
    requires Readable(v) && call.spec.owner.Some?
  {
    var L, rid := LedgerOf(v), call.Rid();
    finish.loads
    && if rid !in L.holds then !required
       else if IsOpen(L, rid) then
         var met := Met(v, finish, rid);
         Finalizable(L, call) && met.Acknowledged() && met.readsBack && !met.cancelled
       else IsFor(L.holds[rid], call) && IsRepeated(L, FinalizerOf(L, rid))
  }

  predicate IsRepeated(L: Ledger, q: Request) { q.op in L.operations && L.operations[q.op].fact == FactOf(L, q) }

  lemma FinalizerDecides(L: Ledger, D: Directory, rid: Id)
    requires Shape(L, D) && rid in L.holds
    ensures var q := FinalizerOf(L, rid); var verdict := Decide(L, D, q);
      && (IsRepeated(L, q) ==> verdict == Already)
      && (q.op in L.operations && !IsRepeated(L, q) ==> verdict.Refuse?)
      && (q.op !in L.operations && IsOpen(L, rid) ==> verdict == Write(FactOf(L, q)))
      && (q.op !in L.operations && !IsOpen(L, rid) ==> verdict.Refuse?)
  {
    hide Affords, HoldAfforded;
    assert ShapeAt(L, D, rid);
  }

  /** In one reading the Directory has exactly the child of a committed hold and
      neither identity of any other. */
  lemma FinalizerIsNamed(v: World, call: Call)
    requires Readable(v) && call.spec.owner.Some? && call.Rid() in LedgerOf(v).holds && IsFor(LedgerOf(v).holds[call.Rid()], call)
    ensures var D := DirectoryOf(v);
      var exact := NamesExactly(D, call.spec.owner.value, call.Child(), call.spec.request);
      && (exact || NamesNeither(D, call.Child(), call.spec.request))
      && (if exact then CommitOf(call.Rid()) else ReleaseOf(call.Rid())) == FinalizerOf(LedgerOf(v), call.Rid())
  {
    hide Affords, HoldAfforded;
    LedgerIsShaped(v.log, v.agents);
    hide Replay, Rebuilt, Shape;
    HoldIsNamed(LedgerOf(v), DirectoryOf(v), call.Rid());
  }

  lemma HoldIsNamed(L: Ledger, D: Directory, rid: Id)
    requires Shape(L, D)
    ensures HoldNamed(L, D, rid)
  {
    assert ShapeAt(L, D, rid);
  }

  /** A fact about the hold that is not in the log stays out while rivals land. */
  lemma OwnFactIsNew(w: World, rivals: seq<Fact>, f: Fact, rid: Id)
    requires Readable(w) && f.op !in LedgerOf(w).operations && About(f, rid) && forall g | g in rivals :: !About(g, rid)
    ensures f !in w.log + rivals
  {
    hide Replay, Rebuilt;
    ReplayLogged(w.log, DirectoryOf(w));
    forall i | 0 <= i < |w.log| ensures w.log[i].op in LedgerOf(w).operations { assert LoggedAt(LedgerOf(w), w.log, i); }
  }

  /** What is told of a write about the hold, when only facts about other holds
      can come before it. */
  lemma AloneIsTold(w: World, v: World, q: Request, weather: Weather<Fact>, r: Result<Entity, ServiceError>, rid: Id)
    requires Readable(w) && Readable(v) && v.agents == w.agents && weather.loads
    requires Performed(w.log, v.log, DirectoryOf(w), q, weather, r)
    requires var verdict := Decide(LedgerOf(w), DirectoryOf(w), q);
      verdict.Write? && About(verdict.fact, rid) && verdict.fact.op !in LedgerOf(w).operations
    requires forall g | g in weather.rivals :: !About(g, rid)
    ensures r.Success? <==> weather.Acknowledged() && weather.readsBack && !weather.cancelled
    ensures r.Failure? ==>
              r.error == (if weather.cancelled then Interrupted
                          else if weather.Acknowledged() then StreamUnreadable
                          else if !weather.rereads then WriteFailed(None)
                          else if weather.fault != Fine then WriteFailed(Some(weather.Lands()))
                          else LedgerConflict)
  {
    hide Replay, Rebuilt, Decide;
    var f := Decide(LedgerOf(w), DirectoryOf(w), q).fact;
    OwnFactIsNew(w, weather.rivals, f, rid);
    assert w.log + weather.rivals + [] == w.log + weather.rivals;
    if weather.Lands() { assert v.log == w.log + weather.rivals + [f] && v.log[|v.log| - 1] == f; }
  }

  lemma DecidedIsNew(L: Ledger, D: Directory, q: Request)
    requires (q.AskChild? || q.AskCommit? || q.AskRelease?) && Decide(L, D, q).Write?
    ensures Decide(L, D, q).fact == FactOf(L, q) && About(FactOf(L, q), q.rid)
    ensures FactOf(L, q).op == q.op && q.op !in L.operations
  {
  }

  /** A refusal before the append is never one of the append's own errors. */
  lemma RefusedEarly(L: Ledger, D: Directory, q: Request)
    requires (q.AskChild? || q.AskCommit? || q.AskRelease?) && Decide(L, D, q).Refuse?
    ensures TookNothing(Decide(L, D, q).error) && !Decide(L, D, q).error.WriteFailed?
  {
  }

  /** What a reserve is answered, in every case. */
  lemma AskedExactly(w: World, v: World, call: Call, turbulence: Turbulence, asked: Result<Entity, ServiceError>)
    requires call.spec.owner.Some? && Asks(w, v, call, turbulence, asked)
    ensures var met, course := Met(w, turbulence.reserve, call.Rid()), CourseOf(asked, turbulence.cancelled);
      && (course == Stop(UnknownReserve) <==> Writes(w, call, turbulence) && !met.cancelled && !met.Acknowledged() && !met.rereads)
      && (course == Stop(UnreadStream) <==>
            OwnerKnown(w, call)
            && (!met.loads || (Writes(w, call, turbulence) && !met.cancelled && met.Acknowledged() && !met.readsBack)))
      && (Takes(w, call, turbulence) ==> (course.Stop? <==> met.Untold()))
      && (Takes(w, call, turbulence) && turbulence.reserve.Smooth() && !turbulence.cancelled ==> course == GoOn)
  {
    hide Decide, Performed, Replay, Rebuilt, FactOf, IsFor, Landing;
    if OwnerKnown(w, call) {
      var met := Met(w, turbulence.reserve, call.Rid());
      var L, D := LedgerOf(w), DirectoryOf(w);
      if Writes(w, call, turbulence) {
        DecidedIsNew(L, D, call.Ask());
        AloneIsTold(w, v, call.Ask(), met, asked, call.Rid());
        if asked.Success? {
          GoOnHolds(w, v, call, turbulence, asked);
          TakenIsLive(w, v, call, turbulence, asked);
        }
      } else {
        RefusedOrRepeated(w, v, call, turbulence, asked);
      }
    }
  }

  lemma RefusedOrRepeated(w: World, v: World, call: Call, turbulence: Turbulence, asked: Result<Entity, ServiceError>)
    requires call.spec.owner.Some? && Asks(w, v, call, turbulence, asked) && OwnerKnown(w, call) && !Writes(w, call, turbulence)
    ensures if !turbulence.reserve.loads then asked == Failure(StreamUnreadable)
            else asked.Failure? ==> TookNothing(asked.error) && !asked.error.WriteFailed?
    ensures v.log == w.log
  {
    hide Decide, Replay, Rebuilt, Landing, EntityOf;
    var L, D := LedgerOf(w), DirectoryOf(w);
    if turbulence.reserve.loads && Decide(L, D, call.Ask()).Refuse? { RefusedEarly(L, D, call.Ask()); }
  }

  lemma TakenIsLive(w: World, v: World, call: Call, turbulence: Turbulence, asked: Result<Entity, ServiceError>)
    requires call.spec.owner.Some? && Asks(w, v, call, turbulence, asked) && Takes(w, call, turbulence)
    ensures IsOpen(LedgerOf(v), call.Rid()) && LedgerOf(v).holds[call.Rid()].status != Released
  {
    hide Decide, Replay, Rebuilt, Landing, Effect;
    var met := Met(w, turbulence.reserve, call.Rid());
    WriteMovesHold(w.log, v.log, DirectoryOf(w), call.Ask(), met, asked, call.Rid());
    ReservedIsOpen(LedgerOf(w), DirectoryOf(w), LedgerOf(v), call);
  }

  lemma ReservedIsOpen(L: Ledger, D: Directory, N: Ledger, call: Call)
    requires call.spec.owner.Some? && Effect(L, D, N, FactOf(L, call.Ask()))
    ensures IsOpen(N, call.Rid()) && N.holds[call.Rid()].status != Released
  {
  }

  /** A reserve that does not land leaves the hold as it was. */
  lemma UntakenIsUnmoved(w: World, v: World, call: Call, turbulence: Turbulence, asked: Result<Entity, ServiceError>)
    requires call.spec.owner.Some? && Asks(w, v, call, turbulence, asked) && !Takes(w, call, turbulence)
    ensures SameHold(LedgerOf(w), LedgerOf(v), call.Rid())
  {
    hide Decide, Replay, Rebuilt, Landing, Effect, Performed;
    if Writes(w, call, turbulence) {
      WriteMovesHold(w.log, v.log, DirectoryOf(w), call.Ask(), Met(w, turbulence.reserve, call.Rid()), asked, call.Rid());
    } else if OwnerKnown(w, call) {
      RefusedOrRepeated(w, v, call, turbulence, asked);
    }
  }

  /** A finalizer closes an open hold exactly when its own write lands. */
  lemma FinishExactly(v: World, w: World, call: Call, required: bool, finish: Weather<Fact>,
                      done: Result<Entity, ServiceError>, ok: bool)
    requires call.spec.owner.Some? && Finishes(v, w, call, required, finish, done, ok)
    ensures ok <==> FinalizerWorks(v, call, required, finish)
    ensures IsOpen(LedgerOf(w), call.Rid()) <==> IsOpen(LedgerOf(v), call.Rid()) && !FinalizerLands(v, call, finish)
  {
    hide Decide, Performed, Replay, Rebuilt, FactOf, IsFor, Landing, NamesExactly, NamesNeither, IsRepeated, Shape;
    var L, D, rid := LedgerOf(v), DirectoryOf(v), call.Rid();
    FinishKeeps(v, w, call, required, finish, done, ok);
    if finish.loads && rid in L.holds && IsFor(L.holds[rid], call) {
      FinalizerIsNamed(v, call);
      LedgerIsShaped(v.log, v.agents);
      FinalizerDecides(L, D, rid);
      FinalizerPerforms(v, w, call, Met(v, finish, rid), done);
    }
  }

  lemma FinalizerPerforms(v: World, w: World, call: Call, met: Weather<Fact>, done: Result<Entity, ServiceError>)
    requires call.spec.owner.Some? && Readable(v) && Readable(w) && w.agents == v.agents && met.loads
    requires call.Rid() in LedgerOf(v).holds && Shape(LedgerOf(v), DirectoryOf(v))
    requires Performed(v.log, w.log, DirectoryOf(v), FinalizerOf(LedgerOf(v), call.Rid()), met, done)
    requires forall g | g in met.rivals :: !About(g, call.Rid())
    ensures var L, rid := LedgerOf(v), call.Rid(); var q := FinalizerOf(L, rid);
      && (done.Success? <==>
            if q.op in L.operations then IsRepeated(L, q)
            else IsOpen(L, rid) && met.Acknowledged() && met.readsBack && !met.cancelled)
      && (IsOpen(LedgerOf(w), rid) <==> IsOpen(L, rid) && !(q.op !in L.operations && met.Lands()))
  {
    hide Decide, Performed, Replay, Rebuilt, FactOf, IsRepeated, Shape;
    var L, D, rid := LedgerOf(v), DirectoryOf(v), call.Rid();
    var q := FinalizerOf(L, rid);
    FinalizerDecides(L, D, rid);
    if q.op !in L.operations && IsOpen(L, rid) {
      DecidedIsNew(L, D, q);
      AloneIsTold(v, w, q, met, done, rid);
      WriteMovesHold(v.log, w.log, D, q, met, done, rid);
      TerminatesItsHold(L, D, LedgerOf(w), q, met.Lands(), rid);
    } else {
      UnwrittenIsUnmoved(v, w, q, met, done);
    }
  }

  lemma TerminatesItsHold(L: Ledger, D: Directory, N: Ledger, q: Request, landed: bool, rid: Id)
    requires (q == CommitOf(rid) || q == ReleaseOf(rid)) && HoldMoves(L, N, D, FactOf(L, q), landed, rid) && IsOpen(L, rid)
    ensures IsOpen(N, rid) <==> !landed
  {
  }

  lemma UnwrittenIsUnmoved(v: World, w: World, q: Request, met: Weather<Fact>, done: Result<Entity, ServiceError>)
    requires Readable(v) && Readable(w) && w.agents == v.agents && met.loads && !q.AskTools?
    requires Performed(v.log, w.log, DirectoryOf(v), q, met, done)
    requires !Decide(LedgerOf(v), DirectoryOf(v), q).Write?
    ensures w == v && (done.Success? <==> Decide(LedgerOf(v), DirectoryOf(v), q) == Already)
  {
    NeverUnlimited(LedgerOf(v), DirectoryOf(v), q);
    hide Decide, Replay, Rebuilt;
  }

  /** The call terminates its hold. */
  ghost predicate Closes(call: Call, turbulence: Turbulence, trace: Trace)
    requires call.spec.owner.Some?
  {
    var v := trace.Unfinished(turbulence.cancelled);
    !CourseOf(trace.asked, turbulence.cancelled).Stop? && Readable(v) && FinalizerLands(v, call, turbulence.finish)
  }

  /** After a call its hold is open if and only if it was open or the call took
      it, and the call did not terminate it; one that took it does not even try
      exactly when the landed reserve went untold. */
  lemma LeftOpenExactly(w: World, w': World, call: Call, turbulence: Turbulence, report: Report, trace: Trace)
    requires call.spec.owner.Some? && Created(w, w', call, turbulence, report, trace)
    ensures Readable(w) && Readable(w')
    ensures IsOpen(LedgerOf(w'), call.Rid())
       <==> (IsOpen(LedgerOf(w), call.Rid()) || Takes(w, call, turbulence)) && !Closes(call, turbulence, trace)
    ensures Takes(w, call, turbulence) ==>
              (CourseOf(trace.asked, turbulence.cancelled).Stop? <==> Met(w, turbulence.reserve, call.Rid()).Untold())
  {
    StagesJoin(w, w', call, turbulence, report, trace);
    hide Asks, Joins, Makes, Finishes, Takes, FinalizerLands, Replay, Rebuilt, IsOpen, Landing, Met;
    var rid := call.Rid();
    AskedExactly(w, trace.held, call, turbulence, trace.asked);
    if Takes(w, call, turbulence) {
      TakenIsLive(w, trace.held, call, turbulence, trace.asked);
    } else {
      UntakenIsUnmoved(w, trace.held, call, turbulence, trace.asked);
      SameHoldSameOpen(LedgerOf(w), LedgerOf(trace.held), rid);
    }
    match CourseOf(trace.asked, turbulence.cancelled)
    case Stop(_) =>
    case Finalize(required) =>
      FinishExactly(trace.held, w', call, required, turbulence.finish, trace.done, report.ending == Finalized);
    case GoOn =>
      JoinKeeps(trace.held, trace.joined, turbulence.others, rid);
      MakingJoins(trace.joined, trace.made, call, turbulence.inner, trace.handle);
      JoinKeeps(trace.joined, trace.made, [call.Record()], rid);
      FinishExactly(trace.made, w', call, true, turbulence.finish, trace.done, report.ending == Finalized);
  }

  /** A clean call opens nothing and leaves no hold of its own open. */
  lemma CleanLeavesNothing(w: World, w': World, call: Call, turbulence: Turbulence, report: Report, trace: Trace)
    requires call.spec.owner.Some? && Created(w, w', call, turbulence, report, trace) && report.Clean()
    ensures Readable(w) && Readable(w') && (IsOpen(LedgerOf(w'), call.Rid()) ==> IsOpen(LedgerOf(w), call.Rid()))
    ensures report.ending == Finalized ==> !IsOpen(LedgerOf(w'), call.Rid())
  {
    StagesJoin(w, w', call, turbulence, report, trace);
    hide Asks, Joins, Makes, Finishes, Replay, Rebuilt, IsOpen;
    AskKeeps(w, trace.held, call, turbulence, trace.asked);
    match CourseOf(trace.asked, turbulence.cancelled)
    case Stop(_) =>
      StopsKnown(trace.asked, turbulence.cancelled);
      if SameHold(LedgerOf(w), LedgerOf(trace.held), call.Rid()) {
        SameHoldSameOpen(LedgerOf(w), LedgerOf(trace.held), call.Rid());
      }
    case Finalize(required) =>
      FinishKeeps(trace.held, w', call, required, turbulence.finish, trace.done, report.ending == Finalized);
    case GoOn =>
      FinishKeeps(trace.made, w', call, true, turbulence.finish, trace.done, report.ending == Finalized);
  }

  /** Every way a call is not clean has its cause, and every cause its ending. */
  lemma EndingsHaveCauses(w: World, w': World, call: Call, turbulence: Turbulence, report: Report, trace: Trace)
    requires call.spec.owner.Some? && Created(w, w', call, turbulence, report, trace)
    ensures Readable(w) && Readable(trace.Unfinished(turbulence.cancelled))
    ensures var met, course := Met(w, turbulence.reserve, call.Rid()), CourseOf(trace.asked, turbulence.cancelled);
      && (report.ending == UnknownReserve <==>
            Writes(w, call, turbulence) && !met.cancelled && !met.Acknowledged() && !met.rereads)
      && (report.ending == UnreadStream <==>
            OwnerKnown(w, call)
            && (!met.loads || (Writes(w, call, turbulence) && !met.cancelled && met.Acknowledged() && !met.readsBack)))
      && (report.ending == FailedFinalizer <==>
            !course.Stop?
            && !FinalizerWorks(trace.Unfinished(turbulence.cancelled), call, course == GoOn || course == Finalize(true),
                               turbulence.finish))
  {
    StagesJoin(w, w', call, turbulence, report, trace);
    hide Asks, Joins, Makes, Finishes, Writes, FinalizerWorks, Replay, Rebuilt, IsOpen, Landing, Met;
    AskedExactly(w, trace.held, call, turbulence, trace.asked);
    match CourseOf(trace.asked, turbulence.cancelled)
    case Stop(_) => StopsKnown(trace.asked, turbulence.cancelled);
    case Finalize(required) =>
      FinishExactly(trace.held, w', call, required, turbulence.finish, trace.done, report.ending == Finalized);
    case GoOn =>
      FinishExactly(trace.made, w', call, true, turbulence.finish, trace.done, report.ending == Finalized);
  }

  lemma StopsKnown(asked: Result<Entity, ServiceError>, cancelled: bool)
    ensures CourseOf(asked, cancelled).Stop? ==> !Finalizing(CourseOf(asked, cancelled).ending)
  {
  }

  /** A refused call does nothing at all, whatever holds there already are. */
  lemma RefusedCallDoesNothing(w: World, w': World, call: Call, turbulence: Turbulence, report: Report, trace: Trace)
    requires call.spec.owner.Some? && Created(w, w', call, turbulence, report, trace)
    requires !OwnerKnown(w, call) || (turbulence.reserve.loads && Decide(LedgerOf(w), DirectoryOf(w), call.Ask()).Refuse?)
    ensures w' == w && report == Report(None, NoHold)
  {
    StagesJoin(w, w', call, turbulence, report, trace);
    hide Decide, Replay, Rebuilt, Performed, Finishes, Joins, Makes;
    if OwnerKnown(w, call) { RefusedOrRepeated(w, trace.held, call, turbulence, trace.asked); }
    if OwnerKnown(w, call) { RefusedIsTold(w, trace.held, call, turbulence, trace.asked); }
  }

  lemma RefusedIsTold(w: World, v: World, call: Call, turbulence: Turbulence, asked: Result<Entity, ServiceError>)
    requires call.spec.owner.Some? && Asks(w, v, call, turbulence, asked) && OwnerKnown(w, call)
    requires turbulence.reserve.loads && Decide(LedgerOf(w), DirectoryOf(w), call.Ask()).Refuse?
    ensures asked.Failure? && v == w && CourseOf(asked, turbulence.cancelled) == Stop(NoHold)
  {
    RefusedOrRepeated(w, v, call, turbulence, asked);
    hide Decide, Replay, Rebuilt, Landing;
  }

  /** A finished call, repeated in calm, answers with the same Agent and writes
      nothing. */
  lemma RepeatedCallAnswers(w: World, w': World, call: Call, turbulence: Turbulence, report: Report, trace: Trace)
    requires call.spec.owner.Some? && Created(w, w', call, turbulence, report, trace) && Calm(turbulence) && OwnerKnown(w, call)
    requires Decide(LedgerOf(w), DirectoryOf(w), call.Ask()) == Already
    requires IsRepeated(LedgerOf(w), CommitOf(call.Rid()))
    requires Registrar.Decide(DirectoryOf(w), call.Pinned(), call.Record()).Existing?
    ensures w' == w && report.ending == Finalized
    ensures report.handle == DirectoryOf(w).ForRequest(call.spec.request)
  {
    StagesJoin(w, w', call, turbulence, report, trace);
    hide Asks, Joins, Makes, Finishes, Decide, Replay, Rebuilt, IsFor, Registrar.Decide, IsOpen, IsRepeated;
    RepeatGoesOn(w, trace.held, call, turbulence, trace.asked);
    NobodyJoins(trace.held, trace.joined, turbulence.others);
    RepeatMakesNothing(trace.joined, trace.made, call, trace.handle);
    FinishExactly(trace.made, w', call, true, turbulence.finish, trace.done, report.ending == Finalized);
    RepeatFinishes(trace.made, w', call, turbulence.finish, trace.done, report.ending == Finalized);
  }

  lemma RepeatGoesOn(w: World, v: World, call: Call, turbulence: Turbulence, asked: Result<Entity, ServiceError>)
    requires call.spec.owner.Some? && Asks(w, v, call, turbulence, asked) && Calm(turbulence) && OwnerKnown(w, call)
    requires Decide(LedgerOf(w), DirectoryOf(w), call.Ask()) == Already && IsRepeated(LedgerOf(w), CommitOf(call.Rid()))
    ensures v == w && CourseOf(asked, turbulence.cancelled) == GoOn
    ensures call.Rid() in LedgerOf(w).holds && IsFor(LedgerOf(w).holds[call.Rid()], call)
    ensures LedgerOf(w).holds[call.Rid()].status == Committed && !IsOpen(LedgerOf(w), call.Rid())
  {
    RepeatReads(w, v, call, turbulence, asked);
    hide Decide, Replay, Rebuilt, IsFor, Landing, Performed;
    GoOnHolds(w, v, call, turbulence, asked);
    CommitIsRecalled(w, call.Rid());
  }

  lemma RepeatReads(w: World, v: World, call: Call, turbulence: Turbulence, asked: Result<Entity, ServiceError>)
    requires call.spec.owner.Some? && Asks(w, v, call, turbulence, asked) && turbulence.reserve.loads && OwnerKnown(w, call)
    requires Decide(LedgerOf(w), DirectoryOf(w), call.Ask()) == Already
    ensures v == w && asked.Success?
  {
    hide Decide, Replay, Rebuilt, Landing, EntityOf;
  }

  lemma CommitIsRecalled(w: World, rid: Id)
    requires Readable(w) && IsRepeated(LedgerOf(w), CommitOf(rid))
    ensures var L := LedgerOf(w); rid in L.holds && L.holds[rid].status == Committed && L.holds[rid].terminalAt.Some?
  {
    hide Replay, Rebuilt;
    ReplayLogged(w.log, DirectoryOf(w));
    ReplayRemembers(w.log, DirectoryOf(w));
    var op := CommitOf(rid).op;
    assert LoggedOp(LedgerOf(w), w.log, op);
    assert Recalls(LedgerOf(w), LedgerOf(w).operations[op].fact);
  }

  lemma SomeoneJoins(v: World, x: World, others: seq<Creation>)
    requires Joins(v, x, others) && |x.agents| > |v.agents|
    ensures others != []
  {
    assert x.agents[|v.agents|] in others;
  }

  lemma NobodyJoins(v: World, x: World, others: seq<Creation>)
    requires Joins(v, x, others) && others == []
    ensures x == v
  {
    if |x.agents| > |v.agents| { SomeoneJoins(v, x, others); }
    assert x.agents[..|v.agents|] == v.agents;
  }

  lemma RepeatMakesNothing(x: World, y: World, call: Call, handle: Option<AgentRecord>)
    requires Makes(x, y, call, Returns, handle) && Registrar.Decide(DirectoryOf(x), call.Pinned(), call.Record()).Existing?
    ensures y == x && handle == DirectoryOf(x).ForRequest(call.spec.request)
  {
    hide Replay, Rebuilt;
    assert x.agents + [] == x.agents;
  }

  lemma RepeatFinishes(v: World, w: World, call: Call, finish: Weather<Fact>, done: Result<Entity, ServiceError>, ok: bool)
    requires call.spec.owner.Some? && Finishes(v, w, call, true, finish, done, ok) && finish.Smooth()
    requires call.Rid() in LedgerOf(v).holds && IsFor(LedgerOf(v).holds[call.Rid()], call)
    requires LedgerOf(v).holds[call.Rid()].status == Committed && IsRepeated(LedgerOf(v), CommitOf(call.Rid()))
    ensures w == v
  {
    hide Decide, Performed, Replay, Rebuilt, FactOf, IsFor, Landing, NamesExactly, NamesNeither, IsRepeated, Shape;
    FinalizerIsNamed(v, call);
    LedgerIsShaped(v.log, v.agents);
    FinalizerDecides(LedgerOf(v), DirectoryOf(v), call.Rid());
    UnwrittenIsUnmoved(v, w, CommitOf(call.Rid()), Met(v, finish, call.Rid()), done);
  }

  /** Two calls share a hold exactly when they are for the same owner, child and
      request, and share a derived child exactly when they also ask for the same
      Agent; no two of the operations of any holds coincide. */
  lemma IdsTellCallsApart(a: Call, b: Call)
    requires a.spec.owner.Some? && b.spec.owner.Some?
    ensures a.Rid() == b.Rid() <==> a.spec.owner == b.spec.owner && a.Child() == b.Child() && a.spec.request == b.spec.request
    ensures a.spec.agent.None? && b.spec.agent.None? ==>
              (a.Child() == b.Child() <==>
                 && a.spec.owner == b.spec.owner && a.spec.request == b.spec.request && a.spec.preset == b.spec.preset
                 && a.spec.workspace == b.spec.workspace && a.spec.forkedFrom == b.spec.forkedFrom && a.spec.grants == b.spec.grants)
    ensures a.spec.agent.Some? ==> a.Child() == a.spec.agent.value
    ensures a.Ask().op == b.Ask().op <==> a.Rid() == b.Rid()
    ensures CommitOf(a.Rid()).op == CommitOf(b.Rid()).op <==> a.Rid() == b.Rid()
    ensures ReleaseOf(a.Rid()).op == ReleaseOf(b.Rid()).op <==> a.Rid() == b.Rid()
    ensures a.Ask().op != CommitOf(b.Rid()).op && a.Ask().op != ReleaseOf(b.Rid()).op && CommitOf(a.Rid()).op != ReleaseOf(b.Rid()).op
  {
    assert a.Rid().parts == [a.spec.owner.value, a.Child(), a.spec.request];
    assert b.Rid().parts == [b.spec.owner.value, b.Child(), b.spec.request];
    OptionsApart(a.spec.forkedFrom, b.spec.forkedFrom, "fork");
    OptionsApart(a.spec.owner, b.spec.owner, "owner");
    if a.Rid() == b.Rid() {
      assert a.Rid().parts[0] == b.Rid().parts[0] && a.Rid().parts[1] == b.Rid().parts[1] && a.Rid().parts[2] == b.Rid().parts[2];
    }
    if a.spec.agent.None? && b.spec.agent.None? && a.Child() == b.Child() {
      assert forall i | 0 <= i < 6 :: a.Child().parts[i] == b.Child().parts[i];
    }
    assert [a.Rid()][0] == a.Rid() && [b.Rid()][0] == b.Rid();
  }

  /** The identity a managed call has recorded: the child under its own request
      and owner, with everything the specification says. */
  lemma RecordsTheSpecification(call: Call)
    ensures var spec, e := call.spec, call.Record();
      e == Creation(call.Child(), if spec.session.Some? then spec.session.value else call.session, spec.request, spec.preset,
                    spec.workspace, spec.owner, spec.forkedFrom, spec.grants, spec.metadata)
  {
  }

  /** A hold for another owner, child or request, or with another envelope, is
      never finalized by this call. */
  lemma OthersAreLeftAlone(v: World, w: World, call: Call, required: bool, finish: Weather<Fact>,
                           done: Result<Entity, ServiceError>, ok: bool)
    requires call.spec.owner.Some? && Finishes(v, w, call, required, finish, done, ok) && call.Rid() in LedgerOf(v).holds
    requires var h := LedgerOf(v).holds[call.Rid()];
      h.parent != call.spec.owner.value || h.child != call.Child() || h.request != call.spec.request || h.limits != call.limits
    ensures w == v && !ok
  {
    hide Performed, Replay, Rebuilt;
  }

  lemma OptionsApart(a: Option<Id>, b: Option<Id>, kind: string)
    ensures Derived(kind, if a.Some? then [a.value] else []) == Derived(kind, if b.Some? then [b.value] else []) <==> a == b
  {
    if a.Some? && b.Some? { assert [a.value][0] == a.value && [b.value][0] == b.value; }
  }

  /** The hold of a call whose reserve was acknowledged and whose result could
      not be read back stays open, although nothing else went wrong: no
      finalizer runs, no child exists, and the caller is told only that the
      stream could not be read. */
  lemma UnreadReserveLeaks(w: World, call: Call) returns (w': World, turbulence: Turbulence, report: Report, trace: Trace)
    requires Readable(w) && OwnerKnown(w, call) && Decide(LedgerOf(w), DirectoryOf(w), call.Ask()).Write?
    requires Unclashing(LedgerOf(w), call.Ask())
    ensures turbulence.reserve == Weather(true, [], Fine, true, false, false) && turbulence.finish.Smooth()
    ensures !turbulence.cancelled && !turbulence.late && turbulence.inner == Returns && turbulence.others == []
    ensures Created(w, w', call, turbulence, report, trace) && report == Report(None, UnreadStream)
    ensures w'.agents == w.agents && Readable(w') && IsOpen(LedgerOf(w'), call.Rid())
  {
    hide Decide, Replay, Rebuilt, Unclashing, Performed, Takes;
    var smooth := Weather(true, [], Fine, true, true, false);
    turbulence := Turbulence(smooth.(readsBack := false), false, [], Returns, smooth, false);
    var asked: Result<Entity, ServiceError> := Failure(StreamUnreadable);
    w' := UnreadAsk(w, call, turbulence.reserve, asked);
    report := Report(None, UnreadStream);
    trace := Trace(asked, w', w', w', None, asked);
    assert Met(w, turbulence.reserve, call.Rid()) == turbulence.reserve;
    assert Asks(w, w', call, turbulence, asked);
    assert Takes(w, call, turbulence) by { TakenInCalm(w, call, turbulence); }
    TakenIsLive(w, w', call, turbulence, asked);
  }

  lemma TakenInCalm(w: World, call: Call, turbulence: Turbulence)
    requires Readable(w) && OwnerKnown(w, call) && Decide(LedgerOf(w), DirectoryOf(w), call.Ask()).Write?
    requires turbulence.reserve.loads && turbulence.reserve.Acknowledged()
    ensures Takes(w, call, turbulence)
  {
    hide Decide, Replay, Rebuilt;
    assert Met(w, turbulence.reserve, call.Rid()) == turbulence.reserve;
  }

  lemma UnreadAsk(w: World, call: Call, reserve: Weather<Fact>, asked: Result<Entity, ServiceError>) returns (w': World)
    requires Readable(w) && OwnerKnown(w, call) && Decide(LedgerOf(w), DirectoryOf(w), call.Ask()).Write?
    requires Unclashing(LedgerOf(w), call.Ask()) && reserve.loads && reserve.Acknowledged() && !reserve.readsBack && !reserve.cancelled
    requires asked == Failure(StreamUnreadable)
    ensures Readable(w') && w'.agents == w.agents && Performed(w.log, w'.log, DirectoryOf(w), call.Ask(), reserve, asked)
  {
    hide Decide, Replay, Rebuilt, Unclashing, Step;
    var f := Decide(LedgerOf(w), DirectoryOf(w), call.Ask()).fact;
    w' := World(w.log + [f], w.agents);
    ReplaySound(w.log, DirectoryOf(w));
    RebuiltIsCoherent(w.agents);
    GuardedWriteReplays(LedgerOf(w), DirectoryOf(w), call.Ask());
    ReplayAppend(w.log, f, DirectoryOf(w));
    assert w.log + [] + [f] == w'.log;
  }

  predicate Calm(turbulence: Turbulence) {
    && turbulence.reserve.Smooth() && turbulence.finish.Smooth() && !turbulence.cancelled && !turbulence.late
    && turbulence.others == [] && turbulence.inner == Returns
  }

  lemma CalmReserve(w: World, v: World, call: Call, turbulence: Turbulence, asked: Result<Entity, ServiceError>)
    requires call.spec.owner.Some? && Asks(w, v, call, turbulence, asked) && turbulence.reserve.Smooth() && !turbulence.cancelled
    requires OwnerKnown(w, call) && Decide(LedgerOf(w), DirectoryOf(w), call.Ask()).Write?
    ensures CourseOf(asked, turbulence.cancelled) == GoOn && IsOpen(LedgerOf(v), call.Rid())
    ensures v.agents == w.agents && v.log == w.log + [FactOf(BLANK, call.Ask())]
    ensures LedgerOf(v).operations.Keys == LedgerOf(w).operations.Keys + {call.Ask().op}
  {
    hide Decide, Replay, Rebuilt, IsFor, FactOf, Step;
    assert Met(w, turbulence.reserve, call.Rid()) == turbulence.reserve;
    assert Takes(w, call, turbulence);
    AskedExactly(w, v, call, turbulence, asked);
    TakenIsLive(w, v, call, turbulence, asked);
    var L, D, q := LedgerOf(w), DirectoryOf(w), call.Ask();
    DecidedIsNew(L, D, q);
    ReserveFact(L, call, FactOf(L, q));
    assert w.log + [] + [FactOf(L, q)] == w.log + [FactOf(L, q)];
    ReplayAppend(w.log, FactOf(L, q), D);
    StepsRecord(L, D, FactOf(L, q));
  }

  lemma StepsRecord(L: Ledger, D: Directory, f: Fact)
    requires Step(L, D, f).Success?
    ensures Step(L, D, f).value.operations.Keys == L.operations.Keys + {f.op}
  {
    hide Step;
    StepRecords(L, D, f);
  }

  /** With nobody else writing, the wrapped supervisor records the identity. */
  lemma CalmMaking(v: World, x: World, y: World, call: Call, others: seq<Creation>, handle: Option<AgentRecord>)
    requires Joins(v, x, others) && others == [] && Makes(x, y, call, Returns, handle)
    requires Conflicts(DirectoryOf(v), call.Record()) == []
    ensures x == v && y.log == v.log && y.agents == v.agents + [call.Record()]
    ensures handle == Some(AgentRecord(call.Record(), |v.agents| + 1))
  {
    hide Replay, Rebuilt, Conflicts, Registrar.Decide;
    NobodyJoins(v, x, others);
    Registrar.RecordsExactlyWhatReplays(DirectoryOf(x), call.Pinned(), call.Record());
  }

  /** Recording the child of a live hold commits it. */
  lemma MadeIsCommitted(x: World, y: World, call: Call, handle: Option<AgentRecord>)
    requires call.spec.owner.Some? && Makes(x, y, call, Returns, handle) && handle.Some?
    requires call.Rid() in LedgerOf(x).holds && IsFor(LedgerOf(x).holds[call.Rid()], call)
    ensures call.Rid() in LedgerOf(y).holds && LedgerOf(y).holds[call.Rid()].status == Committed
    ensures IsFor(LedgerOf(y).holds[call.Rid()], call)
  {
    hide Replay, Rebuilt, NamesExactly, Registrar.Answers;
    MakingJoins(x, y, call, Returns, handle);
    JoinKeeps(x, y, [call.Record()], call.Rid());
    HandleIsRecorded(x, y, call, Returns, handle);
    ChildIsNamed(y.agents, call, handle);
    NamedIsCommitted(y.log, y.agents, call.Rid());
  }

  lemma CalmFinish(v: World, w: World, call: Call, finish: Weather<Fact>, done: Result<Entity, ServiceError>, ok: bool)
    requires call.spec.owner.Some? && Finishes(v, w, call, true, finish, done, ok) && finish.Smooth()
    requires Finalizable(LedgerOf(v), call) && IsOpen(LedgerOf(v), call.Rid())
    requires LedgerOf(v).holds[call.Rid()].status == Committed
    ensures ok && w.agents == v.agents && w.log == v.log + [FactOf(BLANK, CommitOf(call.Rid()))]
  {
    hide Performed, Replay, Rebuilt, FactOf, IsFor, Decide, NamesExactly, NamesNeither;
    var rid := call.Rid();
    assert Met(v, finish, rid) == finish;
    FinishExactly(v, w, call, true, finish, done, ok);
    FinalizerIsNamed(v, call);
    LedgerIsShaped(v.log, v.agents);
    FinalizerDecides(LedgerOf(v), DirectoryOf(v), rid);
    CommitLands(v, w, finish, rid, done);
  }

  lemma CommitLands(v: World, w: World, finish: Weather<Fact>, rid: Id, done: Result<Entity, ServiceError>)
    requires Readable(v) && Readable(w) && w.agents == v.agents && finish.Smooth()
    requires Performed(v.log, w.log, DirectoryOf(v), CommitOf(rid), finish, done)
    requires Decide(LedgerOf(v), DirectoryOf(v), CommitOf(rid)) == Write(FactOf(LedgerOf(v), CommitOf(rid)))
    ensures w.log == v.log + [FactOf(BLANK, CommitOf(rid))]
  {
    hide Decide, Replay, Rebuilt;
    assert v.log + [] == v.log;
  }

  /** Up to the finalizer, in calm. */
  lemma CalmUpToFinish(w: World, w': World, call: Call, turbulence: Turbulence, report: Report, trace: Trace)
    requires call.spec.owner.Some? && Created(w, w', call, turbulence, report, trace) && Calm(turbulence)
    requires OwnerKnown(w, call) && Decide(LedgerOf(w), DirectoryOf(w), call.Ask()).Write?
    requires Conflicts(DirectoryOf(w), call.Record()) == [] && CommitOf(call.Rid()).op !in LedgerOf(w).operations
    ensures CourseOf(trace.asked, turbulence.cancelled) == GoOn && Readable(trace.made)
    ensures trace.handle == Some(AgentRecord(call.Record(), |w.agents| + 1)) && trace.made.agents == w.agents + [call.Record()]
    ensures trace.made.log == w.log + [FactOf(BLANK, call.Ask())]
    ensures Finalizable(LedgerOf(trace.made), call) && IsOpen(LedgerOf(trace.made), call.Rid())
    ensures LedgerOf(trace.made).holds[call.Rid()].status == Committed
  {
    StagesJoin(w, w', call, turbulence, report, trace);
    hide Asks, Joins, Makes, Finishes, Takes, Writes, Replay, Rebuilt, IsOpen, Landing, Met, Decide, IsFor, Conflicts;
    CalmReserve(w, trace.held, call, turbulence, trace.asked);
    CalmMaking(trace.held, trace.joined, trace.made, call, turbulence.others, trace.handle);
    OwnCreationIsManaged(w, trace.held, trace.joined, call, turbulence, trace.asked);
    MakingJoins(trace.joined, trace.made, call, turbulence.inner, trace.handle);
    JoinKeeps(trace.joined, trace.made, [call.Record()], call.Rid());
    MadeIsCommitted(trace.joined, trace.made, call, trace.handle);
  }

  /** The fact of a call's grant. */
  function Reserving(call: Call): Fact
    requires call.spec.owner.Some?
  {
    ChildReserved(Derived("child-reserve", [call.Rid()]), call.Rid(), call.spec.owner.value, call.Child(), call.spec.request,
                  call.limits, call.retained, call.initial)
  }

  predicate Grants(h: Hold, call: Call)
    requires call.spec.owner.Some?
  {
    && h.parent == call.spec.owner.value && h.child == call.Child() && h.request == call.spec.request
    && h.limits == call.limits && h.retained == call.retained && h.initial == call.initial
  }

  /** In calm, a grant the parent can afford yields the new Agent and a
      committed hold. */
  lemma CalmCallCreates(w: World, w': World, call: Call, turbulence: Turbulence, report: Report, trace: Trace)
    requires call.spec.owner.Some? && Created(w, w', call, turbulence, report, trace) && Calm(turbulence)
    requires OwnerKnown(w, call) && Decide(LedgerOf(w), DirectoryOf(w), call.Ask()).Write?
    requires Conflicts(DirectoryOf(w), call.Record()) == [] && CommitOf(call.Rid()).op !in LedgerOf(w).operations
    ensures report == Report(Some(AgentRecord(call.Record(), |w.agents| + 1)), Finalized)
    ensures w'.agents == w.agents + [call.Record()]
    ensures w'.log == w.log + [Reserving(call)] + [HoldCommitted(CommitOf(call.Rid()).op, call.Rid())]
    ensures Readable(w') && call.Rid() in LedgerOf(w').holds
    ensures var h := LedgerOf(w').holds[call.Rid()]; h.status == Committed && h.terminalAt.Some? && Grants(h, call)
  {
    CalmUpToFinish(w, w', call, turbulence, report, trace);
    CreationIsSafe(w, w', call, turbulence, report, trace);
    hide Asks, Joins, Makes, Finishes, Finalizable, Replay, Rebuilt, IsOpen, Decide, IsFor, Conflicts;
    CalmFinish(trace.made, w', call, turbulence.finish, trace.done, report.ending == Finalized);
    GrantIsHeld(w', call);
  }

  /** A recorded grant is the hold, field by field. */
  lemma GrantIsHeld(w: World, call: Call)
    requires call.spec.owner.Some? && Readable(w) && Reserving(call) in w.log
    ensures call.Rid() in LedgerOf(w).holds && Grants(LedgerOf(w).holds[call.Rid()], call)
  {
    RecallsInLog(w.log, DirectoryOf(w), Reserving(call));
  }

  // ---- whole histories around one hold ----

  datatype Event = Called(call: Call, turbulence: Turbulence, report: Report, trace: Trace) | Elsewhere

  /** The event is a call for this very hold. */
  predicate Owns(event: Event, rid: Id) {
    event.Called? && event.call.spec.owner.Some? && event.call.Rid() == rid
  }

  /** Anything may happen that keeps the ledger readable, calls for other holds
      and other hosts' facts about them included; only this hold is written
      about by its own calls alone. */
  ghost predicate Happens(w: World, event: Event, w': World, rid: Id) {
    && Readable(w) && Readable(w') && (event.Called? ==> Created(w, w', event.call, event.turbulence, event.report, event.trace))
    && (!Owns(event, rid) ==> QuietAbout(w, w', rid))
  }

  ghost predicate ManagedCalls(run: seq<World>, events: seq<Event>, rid: Id) {
    && |run| == |events| + 1 && Readable(run[0]) && !IsOpen(LedgerOf(run[0]), rid)
    && forall i | 0 <= i < |events| :: Happens(run[i], events[i], run[i + 1], rid)
  }

  /** A call for the hold that reported a failed finalizer, an unknown reserve or
      a stream it could not read. */
  predicate LosesTrack(event: Event, rid: Id) { Owns(event, rid) && !event.report.Clean() }

  ghost predicate Opened(w: World, event: Event, rid: Id) {
    Owns(event, rid) && Readable(w) && Takes(w, event.call, event.turbulence)
  }

  ghost predicate Closed(event: Event, rid: Id) {
    Owns(event, rid) && Closes(event.call, event.turbulence, event.trace)
  }

  lemma EventMovesHold(w: World, event: Event, w': World, rid: Id)
    requires Happens(w, event, w', rid)
    ensures IsOpen(LedgerOf(w'), rid) <==> (IsOpen(LedgerOf(w), rid) || Opened(w, event, rid)) && !Closed(event, rid)
    ensures !LosesTrack(event, rid) ==> (IsOpen(LedgerOf(w'), rid) ==> IsOpen(LedgerOf(w), rid))
  {
    hide IsOpen, Readable, LedgerOf, QuietAbout, Created, Takes, Closes;
    if Owns(event, rid) {
      LeftOpenExactly(w, w', event.call, event.turbulence, event.report, event.trace);
      if event.report.Clean() { CleanLeavesNothing(w, w', event.call, event.turbulence, event.report, event.trace); }
    } else {
      QuietOpensNothing(w, w', rid);
    }
  }

  /** Call `k` took the hold and no call from then on terminated it. */
  ghost predicate LeftBy(run: seq<World>, events: seq<Event>, rid: Id, k: int)
    requires |run| == |events| + 1
  {
    0 <= k < |events| && Opened(run[k], events[k], rid) && forall j | k <= j < |events| :: !Closed(events[j], rid)
  }

  /** After any history a managed hold is open if and only if some call of its
      own took it and neither that call nor a later one terminated it. */
  lemma {:induction false} OpenExactly(run: seq<World>, events: seq<Event>, rid: Id)
    requires ManagedCalls(run, events, rid)
    ensures Readable(run[|events|])
    ensures IsOpen(LedgerOf(run[|events|]), rid) <==> exists k :: LeftBy(run, events, rid, k)
  {
    hide IsOpen, Readable, LedgerOf, Created, Opened, Closed, QuietAbout;
    if events != [] {
      var n := |events| - 1;
      var earlier, before := events[..n], run[..n + 1];
      assert ManagedCalls(before, earlier, rid);
      OpenExactly(before, earlier, rid);
      EventMovesHold(run[n], events[n], run[n + 1], rid);
      if k :| LeftBy(before, earlier, rid, k) && !Closed(events[n], rid) { assert LeftBy(run, events, rid, k); }
      if Opened(run[n], events[n], rid) && !Closed(events[n], rid) { assert LeftBy(run, events, rid, n); }
      if k :| LeftBy(run, events, rid, k) {
        assert !Closed(events[n], rid);
        if k < n {
          assert Opened(before[k], earlier[k], rid);
          forall j | k <= j < n ensures !Closed(earlier[j], rid) { assert !Closed(events[j], rid); }
          assert LeftBy(before, earlier, rid, k);
        }
      }
    }
  }

  /** After any history, a managed hold that is still open was lost by one of
      its own calls, which said so. */
  lemma {:induction false} OnlyLostHoldsStayOpen(run: seq<World>, events: seq<Event>, rid: Id)
    requires ManagedCalls(run, events, rid)
    ensures Readable(run[|events|])
    ensures IsOpen(LedgerOf(run[|events|]), rid) ==> exists k | 0 <= k < |events| :: LosesTrack(events[k], rid)
  {
    hide IsOpen, Readable, LosesTrack, LedgerOf, Created;
    if events != [] {
      var n := |events| - 1;
      var earlier := events[..n];
      assert ManagedCalls(run[..n + 1], earlier, rid);
      OnlyLostHoldsStayOpen(run[..n + 1], earlier, rid);
      if k :| 0 <= k < n && LosesTrack(earlier[k], rid) { assert LosesTrack(events[k], rid); }
      if !LosesTrack(events[n], rid) { EventMovesHold(run[n], events[n], run[n + 1], rid); }
    }
  }

  /** When its calls were clean, a managed hold is committed exactly when the
      Directory has its child and released exactly when it has neither
      identity. */
  lemma ManagedCreationLeaksNothing(run: seq<World>, events: seq<Event>, rid: Id)
    requires ManagedCalls(run, events, rid) && forall k | 0 <= k < |events| :: !LosesTrack(events[k], rid)
    requires Readable(run[|events|]) && rid in LedgerOf(run[|events|]).holds
    ensures var h, D := LedgerOf(run[|events|]).holds[rid], DirectoryOf(run[|events|]);
      && (h.status == Committed <==> NamesExactly(D, h.parent, h.child, h.request))
      && (h.status == Released <==> NamesNeither(D, h.child, h.request))
  {
    OnlyLostHoldsStayOpen(run, events, rid);
    ClosedHoldTellsTheTruth(run[|events|].log, run[|events|].agents, rid);
  }
}
