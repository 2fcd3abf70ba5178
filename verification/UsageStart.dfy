/** Taking durable ownership of a usage hold, and closing it when the taking
    fails or is cancelled. */
module UsageStart {
  import opened Prelude
  import opened Budget
  import opened Directory
  import opened Projection
  import opened LedgerShape
  import opened LedgerBounds
  import opened FactSlots
  import opened EventStore
  import opened Service
  import opened LedgerService
  import opened Supervision
  import opened Steps
  import Identities = Directory

  /** The operation kinds of one caller: a model call or a turn. */
  datatype Kinds = Kinds(start: string, release: string, settle: string, quality: Option<Quality>)

  function StartOf(k: Kinds, rid: Id): Request { AskStart(Derived(k.start, [rid]), rid) }

  function DropOf(k: Kinds, rid: Id): Request { AskReleaseUsage(Derived(k.release, [rid]), rid) }

  /** The whole reservation, conservatively. */
  function SettleOf(k: Kinds, rid: Id, amounts: Amounts): Request {
    AskSettle(Derived(k.settle, [rid]), rid, amounts, k.quality)
  }

  /** A caller's operations on different holds, and its three kinds on one, never
      coincide when the kinds have different names. */
  lemma KindsTellOperationsApart(k: Kinds, r: Id, s: Id, amounts: Amounts)
    requires k.start != k.release && k.start != k.settle && k.release != k.settle
    ensures StartOf(k, r).op == StartOf(k, s).op <==> r == s
    ensures DropOf(k, r).op == DropOf(k, s).op <==> r == s
    ensures SettleOf(k, r, amounts).op == SettleOf(k, s, amounts).op <==> r == s
    ensures StartOf(k, r).op != DropOf(k, s).op && StartOf(k, r).op != SettleOf(k, s, amounts).op
    ensures DropOf(k, r).op != SettleOf(k, s, amounts).op
    ensures SettleOf(k, r, amounts) == AskSettle(SettleOf(k, r, amounts).op, r, amounts, k.quality)
  {
    assert [r][0] == r && [s][0] == s;
  }

  ghost predicate IsActive(L: Ledger, rid: Id) { rid in L.usage && L.usage[rid].Active() }

  ghost predicate IsStarted(L: Ledger, rid: Id) { rid in L.usage && L.usage[rid].status == Started }

  ghost predicate IsPending(L: Ledger, rid: Id) { rid in L.usage && L.usage[rid].status == UsagePending }

  /** The hold is closed as asked: settled for exactly these amounts, or
      released. */
  ghost predicate ClosedAs(N: Ledger, q: Request)
    requires q.AskSettle? || q.AskReleaseUsage?
  {
    && q.rid in N.usage && !IsActive(N, q.rid)
    && if q.AskSettle? then N.usage[q.rid].status == Settled && N.usage[q.rid].settled == Some(q.amounts)
       else N.usage[q.rid].status == Dropped
  }

  /** A successful close leaves the hold closed as asked, whoever else was
      writing. */
  lemma ClosedBy(before: seq<Fact>, after: seq<Fact>, D: Directory, q: Request, weather: Weather<Fact>,
                 r: Result<Entity, ServiceError>)
    requires Replay(before, D).Success? && Replay(after, D).Success? && Performed(before, after, D, q, weather, r)
    requires (q.AskSettle? || q.AskReleaseUsage?) && r.Success?
    ensures ClosedAs(Replay(after, D).value, q)
  {
    hide Decide, Replay, Recalls, WrittenBy;
    var L := Replay(before, D).value;
    match Decide(L, D, q)
    case Unlimited(_) => NeverUnlimited(L, D, q);
    case Already =>
      var f := AlreadyEntity(before, D, q);
      RecallsInLog(before, D, f);
      ClosedRecall(f, L, q);
    case Write(f) =>
      FactIsWritten(L, D, q);
      RecallsInLog(after, D, f);
      ClosedRecall(f, Replay(after, D).value, q);
    case Refuse(_) =>
  }

  lemma ClosedRecall(f: Fact, N: Ledger, q: Request)
    requires (q.AskSettle? || q.AskReleaseUsage?) && WrittenBy(f, q) && Recalls(N, f)
    ensures ClosedAs(N, q)
  {
  }

  /** A start told it succeeded is our own landed fact on a pending hold, and
      a landed start whose caller is told otherwise is told exactly this. */
  lemma StartOutcome(before: seq<Fact>, after: seq<Fact>, D: Directory, k: Kinds, rid: Id, weather: Weather<Fact>,
                     r: Result<Entity, ServiceError>)
    requires Replay(before, D).Success? && Replay(after, D).Success?
    requires Performed(before, after, D, StartOf(k, rid), weather, r)
    ensures r.Success? ==>
              && Landed(before, after, k, rid) && weather.Acknowledged() && !weather.cancelled && weather.readsBack
              && IsPending(Replay(before, D).value, rid)
              && rid in Replay(after, D).value.usage && Replay(after, D).value.usage[rid].status == Started
    ensures Landed(before, after, k, rid) && weather.rivals == [] ==>
              && IsPending(Replay(before, D).value, rid) && IsStarted(Replay(after, D).value, rid)
              && rid in Replay(before, D).value.usage
              && Replay(after, D).value.usage[rid].amounts == Replay(before, D).value.usage[rid].amounts
    ensures Landed(before, after, k, rid) && weather.rivals == [] && r.Failure? ==>
              && r.error == (if weather.cancelled then Interrupted
                             else if weather.fault == Fine then StreamUnreadable
                             else WriteFailed(if weather.rereads then Some(true) else None))
              && (!weather.cancelled && weather.fault == Fine ==> !weather.readsBack)
  {
    hide Replay, Recalls;
    var L, q := Replay(before, D).value, StartOf(k, rid);
    StartNeverRepeats(L, D, q);
    assert before + weather.rivals + [] == before + weather.rivals;
    assert |before + [UsageStarted(Derived(k.start, [rid]), rid)]| == |before| + 1;
    if Decide(L, D, q).Write? {
      StartWrites(L, D, k, rid);
      if r.Success? || (Landed(before, after, k, rid) && weather.rivals == []) {
        var f := UsageStarted(Derived(k.start, [rid]), rid);
        assert FactOf(L, q) == f && after == before + [f];
        StepHolds(before, D, f);
        StartedEffect(L, D, Replay(after, D).value, f);
      }
    }
  }

  lemma StartLands(before: seq<Fact>, after: seq<Fact>, D: Directory, k: Kinds, rid: Id, weather: Weather<Fact>,
                   r: Result<Entity, ServiceError>)
    requires Replay(before, D).Success? && Replay(after, D).Success?
    requires Performed(before, after, D, StartOf(k, rid), weather, r)
    ensures weather.loads && weather.Lands() && Decide(Replay(before, D).value, D, StartOf(k, rid)).Write? ==>
              Landed(before, after, k, rid) && weather.rivals == []
    ensures r.Success? ==> weather.loads && weather.Lands() && Decide(Replay(before, D).value, D, StartOf(k, rid)).Write?
  {
    hide Replay, Decide;
    var L, q := Replay(before, D).value, StartOf(k, rid);
    StartNeverRepeats(L, D, q);
    if Decide(L, D, q).Write? { StartWrites(L, D, k, rid); }
    assert before + [] == before;
  }

  lemma StartedEffect(L: Ledger, D: Directory, N: Ledger, f: Fact)
    requires f.UsageStarted? && Effect(L, D, N, f)
    ensures f.rid in N.usage && f.rid in L.usage && N.usage[f.rid].status == Started && N.usage[f.rid].amounts == L.usage[f.rid].amounts
  {
  }

  /** Exactly our start fact was appended. */
  ghost predicate Landed(before: seq<Fact>, after: seq<Fact>, k: Kinds, rid: Id) {
    after == before + [UsageStarted(Derived(k.start, [rid]), rid)]
  }

  lemma StartNeverRepeats(L: Ledger, D: Directory, q: Request)
    requires q.AskStart?
    ensures Decide(L, D, q).Write? || Decide(L, D, q).Refuse?
  {
  }

  lemma StartDecides(L: Ledger, D: Directory, k: Kinds, rid: Id)
    ensures Decide(L, D, StartOf(k, rid)).Write? <==> IsPending(L, rid) && StartOf(k, rid).op !in L.operations
  {
  }

  lemma StartWrites(L: Ledger, D: Directory, k: Kinds, rid: Id)
    requires Decide(L, D, StartOf(k, rid)).Write?
    ensures IsPending(L, rid) && Decide(L, D, StartOf(k, rid)).fact == FactOf(L, StartOf(k, rid))
  {
  }

  // ---- when the finalizers can do their work ----

  /** No fact stands under the operation of either finalizer. */
  ghost predicate Unused(L: Ledger, k: Kinds, rid: Id) {
    Derived(k.release, [rid]) !in L.operations && Derived(k.settle, [rid]) !in L.operations
  }

  /** Settling tokens states a quality, settling wall time does not. */
  ghost predicate Suits(L: Ledger, k: Kinds, rid: Id) {
    rid in L.usage && L.usage[rid].amounts.InRange() && SingleDimension(L.usage[rid].amounts)
    && (k.quality.Some? <==> L.usage[rid].amounts.tokens > 0)
  }

  ghost predicate SuitsFromTheStart(log: seq<Fact>, D: Directory, k: Kinds, rid: Id)
    requires Replay(log, D).Success?
  {
    var L := Replay(log, D).value;
    rid in L.usage && (k.quality.Some? <==> L.usage[rid].amounts.tokens > 0)
  }

  ghost predicate UsedBy(facts: seq<Fact>, k: Kinds, rid: Id) {
    exists f :: f in facts && (f.op == Derived(k.release, [rid]) || f.op == Derived(k.settle, [rid]))
  }

  lemma DropWrites(L: Ledger, D: Directory, k: Kinds, rid: Id)
    requires IsPending(L, rid) && Derived(k.release, [rid]) !in L.operations
    ensures Decide(L, D, DropOf(k, rid)).Write?
  {
  }

  lemma SettleWrites(L: Ledger, D: Directory, k: Kinds, rid: Id)
    requires IsStarted(L, rid) && Suits(L, k, rid) && Derived(k.settle, [rid]) !in L.operations
    ensures Decide(L, D, SettleOf(k, rid, L.usage[rid].amounts)).Write?
  {
  }

  /** A usage hold keeps what it reserved, which is in range. */
  lemma {:induction false} AmountsStay(log: seq<Fact>, n: nat, D: Directory, rid: Id)
    requires Replay(log, D).Success? && n <= |log|
    ensures var N := Replay(log, D).value;
      && Replay(log[..n], D).Success?
      && (rid in N.usage ==> N.usage[rid].amounts.InRange() && SingleDimension(N.usage[rid].amounts))
      && (rid in Replay(log[..n], D).value.usage ==>
            rid in N.usage && N.usage[rid].amounts == Replay(log[..n], D).value.usage[rid].amounts)
    decreases |log|
  {
    hide Step;
    if log == [] || n == |log| { assert log[..n] == log; }
    if log != [] {
      var prior, f := log[..|log| - 1], log[|log| - 1];
      assert prior + [f] == log;
      if n < |log| { assert prior[..n] == log[..n]; }
      AmountsStay(prior, if n < |log| then n else 0, D, rid);
      StepHolds(prior, D, f);
      ReservedInRange(prior, D, f);
      hide Replay, SingleDimension;
      EffectKeepsAmounts(Replay(prior, D).value, D, Replay(log, D).value, f, rid);
    }
  }

  lemma ReservedInRange(log: seq<Fact>, D: Directory, f: Fact)
    requires Replay(log, D).Success? && Replay(log + [f], D).Success?
    ensures f.UsageReserved? ==> f.amounts.InRange() && SingleDimension(f.amounts)
  {
    ReplayAppend(log, f, D);
    assert ParseIssue(f) == None;
  }

  lemma EffectKeepsAmounts(L: Ledger, D: Directory, N: Ledger, f: Fact, rid: Id)
    requires Effect(L, D, N, f)
    ensures rid in L.usage ==> rid in N.usage && N.usage[rid].amounts == L.usage[rid].amounts
    ensures rid in N.usage && rid !in L.usage ==> f.UsageReserved? && N.usage[rid].amounts == f.amounts
  {
  }

  /** What suited before a start suits after it, and what no fact used is
      unused. */
  lemma StillSuits(before: seq<Fact>, after: seq<Fact>, D: Directory, k: Kinds, rid: Id, others: seq<Fact>)
    requires Replay(before, D).Success? && Replay(after, D).Success? && before <= after
    requires SuitsFromTheStart(before, D, k, rid) && !UsedBy(before + others, k, rid)
    requires k.start != k.release && k.start != k.settle
    requires forall f | f in after :: f in before || f in others || f.op == Derived(k.start, [rid])
    ensures Suits(Replay(after, D).value, k, rid) && Unused(Replay(after, D).value, k, rid)
  {
    AmountsStay(after, |before|, D, rid);
    assert after[..|before|] == before;
    ReplayLogged(after, D);
    ReplayRemembers(after, D);
    hide Replay, SingleDimension, UsedBy;
    StaysUnused(before, after, Replay(after, D).value, k, rid, others);
  }

  lemma StaysUnused(before: seq<Fact>, after: seq<Fact>, N: Ledger, k: Kinds, rid: Id, others: seq<Fact>)
    requires Logged(N, after) && Remembered(N) && !UsedBy(before + others, k, rid) && k.start != k.release && k.start != k.settle
    requires forall f | f in after :: f in before || f in others || f.op == Derived(k.start, [rid])
    ensures Unused(N, k, rid)
  {
    hide Recalls;
    forall op | op in N.operations ensures op != Derived(k.release, [rid]) && op != Derived(k.settle, [rid]) {
      var i := N.operations[op].at - 1;
      assert LoggedOp(N, after, op);
      assert LoggedAt(N, after, i);
      var f := after[i];
      assert f.op == op && f in after;
      if f in before || f in others { assert f in before + others; }
    }
  }

  lemma UnusedRelease(L: Ledger, k: Kinds, rid: Id)
    requires Unused(L, k, rid)
    ensures Derived(k.release, [rid]) !in L.operations
  {
  }

  /** A start appends nothing but rivals and itself. */
  lemma AppendsStart(before: seq<Fact>, after: seq<Fact>, D: Directory, k: Kinds, rid: Id, weather: Weather<Fact>,
                     r: Result<Entity, ServiceError>, rivals: seq<Fact>)
    requires Replay(before, D).Success? && Replay(after, D).Success?
    requires Performed(before, after, D, StartOf(k, rid), weather, r) && forall f | f in weather.rivals :: f in rivals
    ensures before <= after
    ensures forall f | f in after :: f in before || f in rivals || f.op == Derived(k.start, [rid])
  {
    hide Replay, Decide;
    var L, q := Replay(before, D).value, StartOf(k, rid);
    StartNeverRepeats(L, D, q);
    if Decide(L, D, q).Write? { StartWrites(L, D, k, rid); }
  }

  /** `start.cancelled` tears the start itself; `cancelled` reaches its caller
      while the start converges. */
  datatype Trouble = Trouble(start: Weather<Fact>, cancelled: bool, finish: Weather<Fact>)

  /** Whether the caller may go on, and whether every finalizer finished. */
  datatype Taking = Taking(owned: bool, clean: bool)

  class UsageOwner {
    const store: Store
    const service: BudgetLedgerService

    constructor (s: Store)
      ensures store == s && service.store == s
    {
      store := s;
      service := new BudgetLedgerService(s);
    }

    ghost predicate Valid()
      reads this, store
    {
      service.store == store && store.Readable()
    }

    ghost function Ledger(): Ledger
      requires Valid()
      reads this, store
    {
      Replay(store.log, Rebuilt(store.agents).value).value
    }

    method Close(q: Request, weather: Weather<Fact>) returns (ok: bool)
      requires Valid() && (q.AskSettle? || q.AskReleaseUsage?)
      modifies store`log
      ensures Valid()
      ensures ok ==> ClosedAs(Ledger(), q)
      ensures !ok ==> !weather.Smooth() || Decide(old(Ledger()), Rebuilt(store.agents).value, q).Refuse?
    {
      hide Decide, Replay, Rebuilt, Performed, Unclashing, Clashes, IsActive, ClosedAs;
      var D := Identities.Rebuild(store.agents);
      CloseUnclashes(Replay(store.log, D.value).value, q);
      var landing := weather.(rivals := Accepted(store.log, D.value, weather.rivals));
      ghost var before := store.log;
      UnclashingDoesNotClash(before, D.value, q, landing);
      var r := service.Perform(q, landing);
      SmoothPerforms(before, store.log, D.value, q, landing, r);
      if r.Success? { ClosedBy(before, store.log, D.value, q, landing, r); }
      return r.Success?;
    }

    /** Releases the hold if nobody started it. */
    method ReleasePending(k: Kinds, rid: Id, weather: Weather<Fact>) returns (ok: bool)
      requires Valid()
      modifies store`log
      ensures Valid()
      ensures ok ==> !IsPending(Ledger(), rid)
      ensures !old(IsPending(Ledger(), rid)) ==> store.log == old(store.log) && ok == weather.loads
      ensures weather.Smooth() && Derived(k.release, [rid]) !in old(Ledger()).operations ==> ok
    {
      hide Replay, Rebuilt, Decide;
      if !weather.loads { return false; }
      var L, D := service.LoadContext();
      if rid !in L.usage || L.usage[rid].status != UsagePending { return true; }
      if Derived(k.release, [rid]) !in L.operations { DropWrites(L, D, k, rid); }
      ok := Close(DropOf(k, rid), weather);
    }

    /** Releases a pending hold and settles a started one in full. */
    method Terminalize(k: Kinds, rid: Id, weather: Weather<Fact>) returns (ok: bool)
      requires Valid()
      modifies store`log
      ensures Valid()
      ensures ok ==> !IsActive(Ledger(), rid)
      ensures ok && old(IsPending(Ledger(), rid)) ==> rid in Ledger().usage && Ledger().usage[rid].status == Dropped
      ensures ok && old(IsStarted(Ledger(), rid)) ==>
                rid in Ledger().usage && Ledger().usage[rid].status == Settled
                && Ledger().usage[rid].settled == Some(old(Ledger().usage[rid].amounts))
      ensures !old(IsActive(Ledger(), rid)) ==> store.log == old(store.log) && ok == weather.loads
      ensures weather.Smooth() && old(Unused(Ledger(), k, rid) && Suits(Ledger(), k, rid)) ==> ok
    {
      hide Replay, Rebuilt, Decide;
      if !weather.loads { return false; }
      var L, D := service.LoadContext();
      if rid !in L.usage { return true; }
      if Unused(L, k, rid) && Suits(L, k, rid) {
        if IsPending(L, rid) { DropWrites(L, D, k, rid); }
        if IsStarted(L, rid) { SettleWrites(L, D, k, rid); }
      }
      if L.usage[rid].status == UsagePending {
        ok := Close(DropOf(k, rid), weather);
      } else if L.usage[rid].status == Started {
        ok := Close(SettleOf(k, rid, L.usage[rid].amounts), weather);
      } else {
        ok := true;
      }
    }

    /** Either the caller owns a hold this very call started, or, once the
        finalizers finished, the hold is not left pending, and one this call
        started is left active if and only if the start that landed went untold. */
    method StartReserved(k: Kinds, rid: Id, trouble: Trouble) returns (t: Taking, ghost ours: bool)
      requires Valid()
      modifies store`log
      ensures Valid()
      ensures ours <==>
                && trouble.start.loads && old(IsPending(Ledger(), rid)) && StartOf(k, rid).op !in old(Ledger()).operations
                && Accepted(old(store.log), Rebuilt(store.agents).value, trouble.start.rivals) == []
                && trouble.start.fault != LostBeforeCommit
      ensures t.owned ==>
                && old(IsPending(Ledger(), rid)) && Landed(old(store.log), store.log, k, rid)
                && rid in Ledger().usage && Ledger().usage[rid].status == Started
      ensures !t.owned && t.clean ==> !IsPending(Ledger(), rid)
      ensures (&& trouble.start.Smooth() && !trouble.cancelled && old(IsPending(Ledger(), rid))
               && StartOf(k, rid).op !in old(Ledger()).operations) ==> t.owned
      ensures t.owned ==> ours && !trouble.start.cancelled && !trouble.cancelled && trouble.start.readsBack
      ensures !t.owned && t.clean && ours ==> (IsActive(Ledger(), rid) <==> trouble.start.Untold())
      ensures !t.owned && t.clean && ours && !trouble.start.Untold() ==>
                && rid in old(Ledger()).usage && rid in Ledger().usage && Ledger().usage[rid].status == Settled
                && Ledger().usage[rid].settled == Some(old(Ledger()).usage[rid].amounts)
      ensures (&& trouble.finish.Smooth() && k.start != k.release && k.start != k.settle
               && SuitsFromTheStart(old(store.log), Rebuilt(store.agents).value, k, rid)
               && !UsedBy(old(store.log) + trouble.start.rivals, k, rid)) ==> t.owned || t.clean
    {
      hide Decide, Replay, Rebuilt, Performed, Unclashing, Clashes, IsActive, IsPending, UsedBy, Suits, Unused;
      var D := Identities.Rebuild(store.agents);
      var q := StartOf(k, rid);
      StartUnclashes(Replay(store.log, D.value).value, q);
      var landing := trouble.start.(rivals := Accepted(store.log, D.value, trouble.start.rivals));
      ghost var before := store.log;
      UnclashingDoesNotClash(before, D.value, q, landing);
      var r := service.Perform(q, landing);
      StartOutcome(before, store.log, D.value, k, rid, landing, r);
      StartDecides(Replay(before, D.value).value, D.value, k, rid);
      StartLands(before, store.log, D.value, k, rid, landing, r);
      SmoothPerforms(before, store.log, D.value, q, landing, r);
      if k.start != k.release && k.start != k.settle && SuitsFromTheStart(before, D.value, k, rid)
         && !UsedBy(before + trouble.start.rivals, k, rid) {
        AppendsStart(before, store.log, D.value, k, rid, landing, r, trouble.start.rivals);
        StillSuits(before, store.log, D.value, k, rid, trouble.start.rivals);
        UnusedRelease(Ledger(), k, rid);
      }
      ours := landing.loads && landing.Lands() && Decide(Replay(before, D.value).value, D.value, q).Write?;
      if r == Failure(Interrupted) || (r.Success? && trouble.cancelled) || r == Failure(WriteFailed(Some(true))) {
        var ok := Terminalize(k, rid, trouble.finish);
        ActiveIfPending(Ledger(), rid);
        return Taking(false, ok), ours;
      }
      if r.Failure? {
        StartedIsActive(Ledger(), rid);
        var ok := ReleasePending(k, rid, trouble.finish);
        return Taking(false, ok), ours;
      }
      return Taking(true, true), ours;
    }
  }

  lemma ActiveIfPending(L: Ledger, rid: Id)
    ensures IsPending(L, rid) ==> IsActive(L, rid)
  {
  }

  lemma StartedIsActive(L: Ledger, rid: Id)
    ensures rid in L.usage && L.usage[rid].status == Started ==> IsActive(L, rid) && !IsPending(L, rid)
  {
  }

  lemma CloseUnclashes(L: Ledger, q: Request)
    requires q.AskSettle? || q.AskReleaseUsage?
    ensures Unclashing(L, q)
  {
  }

  lemma StartUnclashes(L: Ledger, q: Request)
    requires q.AskStart?
    ensures Unclashing(L, q)
  {
  }
}
