/** What one model request may reserve, settle and cost in all, however often
    it is retried. */
module ModelCost {
  import opened Prelude
  import opened Budget
  import opened Directory
  import opened Projection
  import opened LedgerShape
  import opened LedgerBounds
  import opened Service
  import opened Rules

  datatype ModelRequest = ModelRequest(body: string, maxOutput: Option<int>)

  /** How a host sizes a request: by the bytes of its canonical form, or by a
      token counter (`None` when it fails) padded by a stated margin. */
  datatype Sizer =
    | Bytes(length: ModelRequest -> nat)
    | Counter(count: ModelRequest -> Option<int>, marginPercent: nat)

  datatype Refusal = OutputLimitInvalid | CounterFailed | CounterInvalid | TokensExhausted

  datatype BoundedRequest = BoundedRequest(request: ModelRequest, reserved: int)

  function Padded(input: nat, marginPercent: nat): nat { input + input * marginPercent / 100 }

  /** Caps the output to what is left and sizes the reservation. */
  function Bound(sizer: Sizer, request: ModelRequest, remaining: nat): Result<BoundedRequest, Refusal> {
    var requested := request.maxOutput;
    if requested.Some? && requested.value < 1 then Failure(OutputLimitInvalid)
    else
      match sizer
      case Bytes(length) =>
        var output := if requested.Some? then Min(remaining, requested.value) else remaining;
        Success(BoundedRequest(request.(maxOutput := Some(output)), Min(remaining, length(request) + output)))
      case Counter(count, margin) =>
        var input := count(request);
        if input.None? then Failure(CounterFailed)
        else if input.value < 0 then Failure(CounterInvalid)
        else
          var padded := Padded(input.value, margin);
          var capacity := remaining - padded;
          if capacity <= 0 then Failure(TokensExhausted)
          else
            var output := if requested.Some? then Min(capacity, requested.value) else capacity;
            Success(BoundedRequest(request.(maxOutput := Some(output)), padded + output))
  }

  /** A later attempt reserves exactly the frozen request or does not exist. */
  function Admit(sizer: Sizer, request: ModelRequest, ordinal: nat, remaining: nat): Result<BoundedRequest, Refusal> {
    if remaining == 0 then Failure(TokensExhausted)
    else
      var bounded :- Bound(sizer, request, remaining);
      if ordinal > 1 && bounded.request != request then Failure(TokensExhausted) else Success(bounded)
  }

  /** Every admitted reservation is affordable and covers the output it
      permits, and with a counter the counted input as well. */
  lemma AdmittedIsAffordable(sizer: Sizer, request: ModelRequest, ordinal: nat, remaining: nat)
    requires Admit(sizer, request, ordinal, remaining).Success?
    ensures var b := Admit(sizer, request, ordinal, remaining).value;
      && 1 <= b.reserved <= remaining
      && b.request.body == request.body && b.request.maxOutput.Some? && 1 <= b.request.maxOutput.value <= b.reserved
      && (request.maxOutput.Some? ==> b.request.maxOutput.value <= request.maxOutput.value)
      && (sizer.Counter? ==> sizer.count(request).Some? && sizer.count(request).value + b.request.maxOutput.value <= b.reserved)
  {
  }

  /** The ceiling an admitted request is sent with allows as much output as
      there is room for: with a counter, what is left beside the padded input;
      by bytes, all that is left.  And it is what the reservation is sized by. */
  lemma CeilingIsMaximal(sizer: Sizer, request: ModelRequest, ordinal: nat, remaining: nat)
    requires Admit(sizer, request, ordinal, remaining).Success?
    ensures var b := Admit(sizer, request, ordinal, remaining).value;
      && b.request.maxOutput.Some?
      && var o := b.request.maxOutput.value;
         match sizer
         case Counter(count, margin) =>
           && count(request).Some? && count(request).value >= 0
           && var input: nat := count(request).value;
              var padded := input + (input * margin) / 100;
              && IsCeiling(o, remaining - padded, request.maxOutput)
              && b.reserved == padded + o
         case Bytes(length) =>
           && IsCeiling(o, remaining, request.maxOutput)
           && b.reserved == (if length(request) + o <= remaining then length(request) + o else remaining)
  {
  }

  /** The largest output there is room for and was asked for. */
  ghost predicate IsCeiling(o: int, room: int, asked: Option<int>) {
    Allowed(o, room, asked) && forall p | Allowed(p, room, asked) :: p <= o
  }

  predicate Allowed(o: int, room: int, asked: Option<int>) { 1 <= o <= room && (asked.Some? ==> o <= asked.value) }

  /** Exactly what is refused, and why. */
  lemma RefusalsExactly(sizer: Sizer, request: ModelRequest, ordinal: nat, remaining: nat)
    ensures var r := Admit(sizer, request, ordinal, remaining);
      if remaining == 0 then r == Failure(TokensExhausted)
      else if request.maxOutput.Some? && request.maxOutput.value <= 0 then r == Failure(OutputLimitInvalid)
      else if sizer.Counter? && sizer.count(request).None? then r == Failure(CounterFailed)
      else if sizer.Counter? && sizer.count(request).value < 0 then r == Failure(CounterInvalid)
      else
        var room := remaining
          - (if sizer.Counter? then sizer.count(request).value + (sizer.count(request).value * sizer.marginPercent) / 100 else 0);
        (r.Failure? <==> room <= 0 || (ordinal >= 2 && (request.maxOutput.None? || request.maxOutput.value > room)))
        && (r.Failure? ==> r.error == TokensExhausted)
  {
    assert request.maxOutput.Some? ==> request.(maxOutput := Some(request.maxOutput.value)) == request;
  }

  /** A retry of a frozen request is admitted exactly when its whole frozen
      output ceiling still fits, and with a counter it reserves the same each
      time. */
  lemma RetryIsExact(sizer: Sizer, first: ModelRequest, before: nat, ordinal: nat, remaining: nat)
    requires Admit(sizer, first, 1, before).Success? && ordinal > 1
    requires sizer.Counter? ==> forall r :: sizer.count(r).Some? && sizer.count(r).value >= 0
    ensures var frozen := Admit(sizer, first, 1, before).value.request;
      var retry := Admit(sizer, frozen, ordinal, remaining);
      && (retry.Success? <==>
            (if sizer.Counter? then Padded(sizer.count(frozen).value, sizer.marginPercent) else 0)
              + frozen.maxOutput.value <= remaining)
      && (retry.Success? ==> retry.value.request == frozen)
      && (retry.Success? && sizer.Counter? ==>
            retry.value.reserved == Padded(sizer.count(frozen).value, sizer.marginPercent) + frozen.maxOutput.value)
  {
    var frozen := Admit(sizer, first, 1, before).value.request;
    assert frozen.(maxOutput := frozen.maxOutput) == frozen;
  }

  /** What an account has left is what its guard will accept: an admitted
      reservation fits unless some other dimension is already past its limit. */
  lemma AdmittedFitsTheAccount(L: Ledger, agent: Id, sizer: Sizer, request: ModelRequest, ordinal: nat)
    requires agent in L.accounts && Remaining(L, agent, Tokens).Some? && FanOutAt(L, agent)
    requires Admit(sizer, request, ordinal, Remaining(L, agent, Tokens).value).Success?
    ensures var a := L.accounts[agent];
      var b := Admit(sizer, request, ordinal, Remaining(L, agent, Tokens).value).value;
      b.reserved >= 1
      && (HasCapacity(a, Amounts(b.reserved, 0, 0, 0), 0)
          <==> FitsIn(a, NOTHING, Steps) && FitsIn(a, NOTHING, ToolCalls) && FitsIn(a, NOTHING, Wall))
  {
    AdmittedIsAffordable(sizer, request, ordinal, Remaining(L, agent, Tokens).value);
  }

  /** Whether a reservation left its open account no tokens at all, which makes
      overuse of it an exhaustion. */
  predicate TookBalance(L: Ledger, rid: Id, reserved: nat) {
    && rid in L.usage && reserved > 0 && L.usage[rid].agent in L.accounts
    && L.accounts[L.usage[rid].agent].closed.None?
    && Remaining(L, L.usage[rid].agent, Tokens) == Some(0)
  }

  /** Right after it is accepted that is so exactly when the reservation is all
      the account had left. */
  lemma TakesTheBalanceExactly(L: Ledger, D: Directory, op: Id, rid: Id, agent: Id, reserved: nat)
    requires Sound(L, D) && reserved > 0
    requires Step(L, D, UsageReserved(op, rid, agent, Amounts(reserved, 0, 0, 0))).Success?
    ensures agent in L.accounts && L.accounts[agent].limits.tokens.Some?
    ensures var N := Step(L, D, UsageReserved(op, rid, agent, Amounts(reserved, 0, 0, 0))).value;
      var a := L.accounts[agent];
      TookBalance(N, rid, reserved)
      <==> reserved == a.limits.tokens.value - (a.charged.tokens + a.delegated.tokens + a.reserved.tokens)
  {
    var f := UsageReserved(op, rid, agent, Amounts(reserved, 0, 0, 0));
    StepFollowsRules(L, D, f);
    hide Step, Sound;
    assert OwnRule(L, D, f) == None;
  }

  // ---- settlement ----

  /** What a provider says it used. */
  datatype Usage = Usage(input: int, output: int, quality: Quality) {
    predicate Valid() { 0 <= input <= MAX_BUDGET_VALUE && 0 <= output <= MAX_BUDGET_VALUE && input + output <= MAX_BUDGET_VALUE }
  }

  datatype Charged = Charged(tokens: int, quality: Quality)

  /** Fails on more usage than was reserved; `None` is unreadable usage. */
  function UsageSettlement(usage: Option<Usage>, reserved: nat, allowEstimated: bool): Result<Charged, int> {
    if usage.None? || !usage.value.Valid() then Success(Charged(reserved, Unknown))
    else
      var total := usage.value.input + usage.value.output;
      if total > reserved then Failure(total)
      else if usage.value.quality == Exact then Success(Charged(total, Exact))
      else if usage.value.quality == Estimated && allowEstimated then Success(Charged(total, Estimated))
      else Success(Charged(reserved, Unknown))
  }

  function UnresolvedSettlement(ordinal: nat, reserved: nat): Charged {
    if ordinal > 1 then Charged(0, Unknown) else Charged(reserved, Unknown)
  }

  /** An attempt is answered, or fails with or without reporting usage, or its
      start landed but was cancelled or not acknowledged, or landed without the
      caller ever learning so, or never landed. */
  datatype Ending =
    | Answered(usage: Option<Usage>)
    | FailedSilent
    | FailedReporting(usage: Option<Usage>)
    | StartLost
    | StartUntold
    | NeverStarted

  datatype FinishError = Overage(total: int) | Exhaustion

  datatype Finished = Finished(charged: Charged, error: Option<FinishError>)

  /** What an attempt settles and what its caller is told; `tookBalance` says
      the reservation was all the account had.  A lost start is settled in full
      whatever its ordinal, one left untold settles nothing, and a hold nobody
      started is released. */
  function Finish(ordinal: nat, reserved: nat, ending: Ending, allowEstimated: bool, tookBalance: bool): Finished {
    match ending
    case FailedSilent => Finished(UnresolvedSettlement(ordinal, reserved), None)
    case StartLost => Finished(Charged(reserved, Unknown), None)
    case StartUntold => Finished(Charged(0, Unknown), None)
    case NeverStarted => Finished(Charged(0, Unknown), None)
    case FailedReporting(usage) =>
      var s := UsageSettlement(usage, reserved, allowEstimated);
      Finished(if s.Success? then s.value else Charged(reserved, Unknown), None)
    case Answered(usage) =>
      var s := UsageSettlement(usage, reserved, allowEstimated);
      if s.Success? then Finished(s.value, None)
      else Finished(Charged(reserved, Unknown), Some(if tookBalance then Exhaustion else Overage(s.error)))
  }

  /** The ledger never refuses what an attempt settles, so a started hold
      always closes, within its reservation. */
  lemma FinishAlwaysSettles(h: UsageHold, ordinal: nat, ending: Ending, allowEstimated: bool, tookBalance: bool)
    requires SingleDimension(h.amounts) && 0 < h.amounts.tokens <= MAX_BUDGET_VALUE && !ending.NeverStarted? && !ending.StartUntold?
    ensures var c := Finish(ordinal, h.amounts.tokens, ending, allowEstimated, tookBalance).charged;
      && 0 <= c.tokens <= h.amounts.tokens
      && SettlementMatches(h, Amounts(c.tokens, 0, 0, 0), Some(c.quality))
      && SettleIssue(Amounts(c.tokens, 0, 0, 0), Some(c.quality)) == None
  {
  }

  /** What an attempt is charged, for every ending. */
  lemma ChargesExactly(ordinal: nat, reserved: nat, ending: Ending, allowEstimated: bool, tookBalance: bool)
    ensures var f := Finish(ordinal, reserved, ending, allowEstimated, tookBalance);
      match ending
      case FailedSilent => f == Finished(Charged(if ordinal <= 1 then reserved else 0, Unknown), None)
      case StartLost => f == Finished(Charged(reserved, Unknown), None)
      case StartUntold => f == Finished(Charged(0, Unknown), None)
      case NeverStarted => f == Finished(Charged(0, Unknown), None)
      case FailedReporting(usage) => f.error == None && f.charged == ChargedFor(usage, reserved, allowEstimated)
      case Answered(usage) =>
        && f.charged == ChargedFor(usage, reserved, allowEstimated)
        && f.error == if !Readable(usage) || usage.value.input + usage.value.output <= reserved then None
                      else if tookBalance then Some(Exhaustion)
                      else Some(Overage(usage.value.input + usage.value.output))
  {
  }

  predicate Readable(usage: Option<Usage>) {
    usage.Some? && usage.value.input >= 0 && usage.value.output >= 0 && usage.value.input + usage.value.output <= MAX_BUDGET_VALUE
  }

  /** The reported total when it is exact, or estimated where the host takes
      estimates; otherwise the whole reservation, which no total passes. */
  function ChargedFor(usage: Option<Usage>, reserved: nat, allowEstimated: bool): Charged {
    if !Readable(usage) then Charged(reserved, Unknown)
    else
      var total := usage.value.input + usage.value.output;
      if total > reserved || usage.value.quality == Unknown then Charged(reserved, Unknown)
      else if usage.value.quality == Exact then Charged(total, Exact)
      else if allowEstimated then Charged(total, Estimated)
      else Charged(reserved, Unknown)
  }

  /** Exact usage within the reservation is charged exactly, and reported
      usage beyond it is never charged as less than the whole reservation. */
  lemma UsageIsNeverHidden(ordinal: nat, reserved: nat, usage: Usage, allowEstimated: bool, tookBalance: bool)
    requires usage.Valid()
    ensures var total := usage.input + usage.output;
      && (usage.quality == Exact && total <= reserved ==>
            Finish(ordinal, reserved, Answered(Some(usage)), allowEstimated, tookBalance)
            == Finished(Charged(total, Exact), None))
      && Finish(ordinal, reserved, Answered(Some(usage)), allowEstimated, tookBalance).charged.tokens >= Min(total, reserved)
      && Finish(ordinal, reserved, FailedReporting(Some(usage)), allowEstimated, tookBalance).charged.tokens >= Min(total, reserved)
      && (Finish(ordinal, reserved, Answered(Some(usage)), allowEstimated, tookBalance).error.Some? <==> total > reserved)
  {
  }

  // ---- the whole request ----

  datatype Attempt = Attempt(reserved: nat, ending: Ending, tookBalance: bool)

  /** What attempt `i` (ordinal `i + 1`) takes from the account: what it settles,
      or the hold an untold start leaves behind. */
  function TakenBy(attempts: seq<Attempt>, i: nat, allowEstimated: bool): int
    requires i < |attempts|
  {
    var a := attempts[i];
    Finish(i + 1, a.reserved, a.ending, allowEstimated, a.tookBalance).charged.tokens
    + (if a.ending.StartUntold? then a.reserved else 0)
  }

  function TotalTaken(attempts: seq<Attempt>, allowEstimated: bool): int {
    if attempts == [] then 0
    else TotalTaken(attempts[..|attempts| - 1], allowEstimated) + TakenBy(attempts, |attempts| - 1, allowEstimated)
  }

  predicate TakesSomething(ending: Ending) { !ending.FailedSilent? && !ending.NeverStarted? }

  /** The start landed, and the attempt stopped without owning it. */
  predicate Unowned(ending: Ending) { ending.StartLost? || ending.StartUntold? }

  /** The later attempts that were answered, reported usage or landed a start that
      was lost or left untold. */
  function LaterCharged(attempts: seq<Attempt>): nat {
    if |attempts| <= 1 then 0
    else
      var last := attempts[|attempts| - 1];
      LaterCharged(attempts[..|attempts| - 1]) + (if TakesSomething(last.ending) then last.reserved else 0)
  }

  /** However many attempts a request takes, it costs at most its first
      reservation and those of the later attempts that were charged at all. */
  lemma {:induction false} RetriesAddNothingSilent(attempts: seq<Attempt>, allowEstimated: bool)
    requires attempts != []
    ensures 0 <= TotalTaken(attempts, allowEstimated) <= attempts[0].reserved + LaterCharged(attempts)
  {
    var most := attempts[..|attempts| - 1];
    if most != [] {
      RetriesAddNothingSilent(most, allowEstimated);
    } else {
      assert TotalTaken(most, allowEstimated) == 0;
    }
  }

  /** Only a provider's failure is retried. */
  predicate OneRequest(attempts: seq<Attempt>) {
    forall i | 0 <= i < |attempts| - 1 :: attempts[i].ending.FailedSilent? || attempts[i].ending.FailedReporting?
  }

  /** Silent failures cost their request exactly its first reservation. */
  lemma {:induction false} SilentRunCostsTheFirst(attempts: seq<Attempt>, allowEstimated: bool)
    requires attempts != [] && forall i | 0 <= i < |attempts| :: attempts[i].ending.FailedSilent?
    ensures TotalTaken(attempts, allowEstimated) == attempts[0].reserved && LaterCharged(attempts) == 0
  {
    var most := attempts[..|attempts| - 1];
    if most != [] {
      SilentRunCostsTheFirst(most, allowEstimated);
    } else {
      assert TotalTaken(most, allowEstimated) == 0;
    }
  }

  /** Reliability is not billed per attempt: when no failure reports usage, any
      number of attempts take at most the first reservation plus that of one
      last attempt that was answered or whose start was lost or left untold. */
  lemma {:induction false} RequestCostIsBounded(attempts: seq<Attempt>, allowEstimated: bool)
    requires attempts != [] && OneRequest(attempts)
    requires forall i | 0 <= i < |attempts| :: !attempts[i].ending.FailedReporting?
    ensures var last := attempts[|attempts| - 1];
      TotalTaken(attempts, allowEstimated)
        <= attempts[0].reserved
           + (if |attempts| > 1 && (last.ending.Answered? || Unowned(last.ending)) then last.reserved else 0)
  {
    RetriesAddNothingSilent(attempts, allowEstimated);
    if |attempts| > 1 { SilentRunCostsTheFirst(attempts[..|attempts| - 1], allowEstimated); }
  }

  /** The tighter bound, with nothing but a final answer beyond the first
      reservation, fails of the code: a retry whose start landed without being
      acknowledged is settled in full, and nothing was answered. */
  lemma LostStartCostsASecondReservation(first: nat, second: nat, ending: Ending, allowEstimated: bool)
    requires Unowned(ending)
    ensures var attempts := [Attempt(first, FailedSilent, false), Attempt(second, ending, false)];
      OneRequest(attempts) && TotalTaken(attempts, allowEstimated) == first + second
  {
    var attempts := [Attempt(first, FailedSilent, false), Attempt(second, ending, false)];
    assert attempts[..1] == [attempts[0]];
    SilentRunCostsTheFirst(attempts[..1], allowEstimated);
  }

  /** It holds exactly when no retry landed a start it did not come to own. */
  lemma {:induction false} OnlyAnswersCostMore(attempts: seq<Attempt>, allowEstimated: bool)
    requires attempts != [] && OneRequest(attempts)
    requires forall i | 0 <= i < |attempts| :: !attempts[i].ending.FailedReporting?
    ensures var last := attempts[|attempts| - 1];
      TotalTaken(attempts, allowEstimated)
        <= attempts[0].reserved + (if |attempts| > 1 && last.ending.Answered? then last.reserved else 0)
      <==> !(|attempts| > 1 && Unowned(last.ending) && last.reserved > 0)
  {
    RequestCostIsBounded(attempts, allowEstimated);
    if |attempts| > 1 { SilentRunCostsTheFirst(attempts[..|attempts| - 1], allowEstimated); }
  }
}
