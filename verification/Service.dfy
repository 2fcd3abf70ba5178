/** The host's Budget mutations: guard on the replayed ledger, then append. */
module Service {
  import opened Prelude
  import opened Sums
  import opened Budget
  import opened Directory
  import opened Projection
  import opened LedgerShape
  import opened LedgerBooks
  import opened LedgerBounds

  datatype Request =
    | AskRoot(op: Id, agent: Id, limits: Limits)
    | AskChild(op: Id, rid: Id, parent: Id, child: Id, request: Id,
               limits: Limits, retained: nat, initial: Option<int>)
    | AskTokens(op: Id, request: Id, parent: Id, child: Id, tokens: nat, reason: string)
    | AskCommit(op: Id, rid: Id)
    | AskRelease(op: Id, rid: Id, converged: bool)
    | AskAdmit(op: Id, agent: Id, amounts: Amounts)
    | AskRecord(op: Id, agent: Id, amounts: Amounts, quality: Option<Quality>)
    | AskTools(op: Id, agent: Id, requested: nat)
    | AskReserveUsage(op: Id, rid: Id, agent: Id, amounts: Amounts)
    | AskStart(op: Id, rid: Id)
    | AskSettle(op: Id, rid: Id, amounts: Amounts, quality: Option<Quality>)
    | AskReleaseUsage(op: Id, rid: Id)
    | AskClose(op: Id, agent: Id)

  /** The dimension a refusal names. */
  datatype What = Consumable(d: Dim) | Children | Depth | Retained

  datatype ServiceError =
    | InputRefused(issue: Code)
    | OperationConflict
    | DirectoryMismatch
    | ReservationNotFound
    | ReservationState
    | AccountNotFound
    | AccountIsClosed
    | Exhausted(what: What)
    | LedgerConflict
    | WriteFailed(committed: Option<bool>)
    | Interrupted
    | LedgerUnreadable(issue: Code)
    | StreamUnreadable

  /** What a mutation decides once it has loaded the ledger. */
  datatype Verdict =
    | Already                  // the same operation is already in the log
    | Write(fact: Fact)
    | Unlimited(granted: nat)  // answered without recording anything
    | Refuse(error: ServiceError)

  function Quantity(amounts: Amounts): Option<Quality> { if amounts.tokens > 0 then Some(Exact) else None }

  /** The fact a request writes.  A Tool batch is sized by what is left. */
  function FactOf(L: Ledger, q: Request): Fact {
    match q
    case AskRoot(op, agent, limits) => RootGranted(op, agent, limits)
    case AskChild(op, rid, parent, child, request, limits, retained, initial) =>
      ChildReserved(op, rid, parent, child, request, limits, retained, initial)
    case AskTokens(op, request, parent, child, tokens, reason) => TokensDecided(op, request, parent, child, tokens, reason)
    case AskCommit(op, rid) => HoldCommitted(op, rid)
    case AskRelease(op, rid, _) => HoldReleased(op, rid)
    case AskAdmit(op, agent, amounts) => UsageCharged(op, agent, amounts, Admission, Quantity(amounts))
    case AskRecord(op, agent, amounts, quality) => UsageCharged(op, agent, amounts, Observation, quality)
    case AskTools(op, agent, requested) => UsageCharged(op, agent, Amounts(0, 0, ToolsAdmitted(L, agent, requested), 0), Admission, None)
    case AskReserveUsage(op, rid, agent, amounts) => UsageReserved(op, rid, agent, amounts)
    case AskStart(op, rid) => UsageStarted(op, rid)
    case AskSettle(op, rid, amounts, quality) => UsageSettled(op, rid, amounts, quality)
    case AskReleaseUsage(op, rid) => UsageReleased(op, rid)
    case AskClose(op, agent) => AccountClosed(op, agent)
  }

  /** What the payload builders reject before the ledger is loaded. */
  function InputIssue(q: Request): Option<ServiceError> {
    match q
    case AskTools(_, _, requested) =>
      if 1 <= requested <= MAX_BUDGET_VALUE then None else Some(InputRefused(AmountsInvalid))
    case AskRelease(_, _, converged) => if converged then None else Some(ReservationState)
    case AskChild(_, _, _, _, _, limits, _, initial) =>
      var issue := ParseIssue(FactOf(BLANK, q));
      if issue.Some? then Some(InputRefused(issue.value))
      else if InitialLimits(limits, initial).None? then Some(InputRefused(PayloadInvalid))
      else None
    case _ =>
      var issue := ParseIssue(FactOf(BLANK, q));
      if issue.Some? then Some(InputRefused(issue.value)) else None
  }

  function OpenIssue(L: Ledger, agent: Id): Option<ServiceError> {
    if agent !in L.accounts then Some(AccountNotFound)
    else if !L.accounts[agent].Open() then Some(AccountIsClosed)
    else None
  }

  /** What is left of one dimension, or no limit. */
  function Remaining(L: Ledger, agent: Id, d: Dim): Option<nat>
    requires agent in L.accounts
  {
    var a := L.accounts[agent];
    if a.limits.Cap(d).None? then None else Some(Max(0, a.limits.Cap(d).value - a.Used(d)))
  }

  function ToolsAdmitted(L: Ledger, agent: Id, requested: nat): nat {
    if agent !in L.accounts then requested
    else
      var left := Remaining(L, agent, ToolCalls);
      if left.None? then requested else Min(requested, left.value)
  }

  /** The first dimension, in declaration order, a debit does not fit. */
  function ExhaustedBy(a: Account, debit: Amounts): What {
    if !FitsIn(a, debit, Tokens) then Consumable(Tokens)
    else if !FitsIn(a, debit, Steps) then Consumable(Steps)
    else if !FitsIn(a, debit, ToolCalls) then Consumable(ToolCalls)
    else if !FitsIn(a, debit, Wall) then Consumable(Wall)
    else Children
  }

  function ReservationIssue(p: Account, limits: Limits, retained: nat, initial: Option<int>): Option<ServiceError> {
    var debit := ReservationDebit(p, limits, retained, initial);
    if debit.Success? then None
    else
      match debit.error
      case RetainedTokensExhausted => Some(Exhausted(Retained))
      case DepthExhausted => Some(Exhausted(Depth))
      case CapacityExceeded =>
        var granted := InitialLimits(limits, initial);
        if granted.Some? && ChildDebit(p.limits, granted.value).Success?
        then Some(Exhausted(ExhaustedBy(p, ChildDebit(p.limits, granted.value).value)))
        else Some(InputRefused(CapacityExceeded))
      case _ => Some(InputRefused(debit.error))
  }

  function ChargeCapacityIssue(L: Ledger, agent: Id, amounts: Amounts): Option<ServiceError> {
    var closed := OpenIssue(L, agent);
    if closed.Some? then closed
    else if !AllActive(L.accounts[agent], amounts) then Some(InputRefused(ChargeInactive))
    else if !HasCapacity(L.accounts[agent], amounts, 0) then Some(Exhausted(ExhaustedBy(L.accounts[agent], amounts)))
    else None
  }

  /** Whether either durable identity of a reservation was ever used. */
  predicate IdentityUsed(L: Ledger, child: Id, request: Id) {
    exists r | r in L.holds :: L.holds[r].child == child || L.holds[r].request == request
  }

  function TokenDecisionIssue(L: Ledger, parent: Id, child: Id, request: Id, tokens: nat): Option<ServiceError> {
    if request in L.decisions then Some(InputRefused(RequestAlreadyDecided))
    else if OpenIssue(L, parent).Some? then OpenIssue(L, parent)
    else if OpenIssue(L, child).Some? then OpenIssue(L, child)
    else
      match TokenIssue(L, parent, child, tokens)
      case None => None
      case Some(CapacityExceeded) => Some(Exhausted(Consumable(Tokens)))
      case Some(RetainedTokensExhausted) => Some(Exhausted(Retained))
      case Some(code) => Some(InputRefused(code))
  }

  function UsageStateIssue(L: Ledger, rid: Id, expected: UsageStatus): Option<ServiceError> {
    if rid !in L.usage then Some(ReservationNotFound)
    else if L.usage[rid].status != expected then Some(ReservationState)
    else None
  }

  /** Each mutation's own guards, after the idempotency check. */
  function GuardIssue(L: Ledger, D: Directory, q: Request): Option<ServiceError> {
    match q
    case AskRoot(_, agent, _) =>
      if D.Find(agent).None? || D.Find(agent).value.who.owner.Some? then Some(DirectoryMismatch)
      else if agent in L.accounts then Some(OperationConflict)
      else None
    case AskChild(_, rid, parent, child, request, limits, retained, initial) =>
      if rid in L.holds || child in L.accounts || IdentityUsed(L, child, request) then Some(OperationConflict)
      else if !NamesNeither(D, child, request) then Some(DirectoryMismatch)
      else if OpenIssue(L, parent).Some? then OpenIssue(L, parent)
      else ReservationIssue(L.accounts[parent], limits, retained, initial)
    case AskTokens(_, request, parent, child, tokens, _) =>
      if D.Find(child).None? || D.Find(child).value.who.owner != Some(parent) then Some(DirectoryMismatch)
      else TokenDecisionIssue(L, parent, child, request, tokens)
    case AskCommit(_, rid) =>
      if rid !in L.holds then Some(ReservationNotFound)
      else
        var h := L.holds[rid];
        var child, byRequest := D.Find(h.child), D.ForRequest(h.request);
        if h.terminalAt.Some? then Some(ReservationState)
        else if child.None? || byRequest.None? || child.value.who.agent != byRequest.value.who.agent
             || child.value.who.request != h.request || child.value.who.owner != Some(h.parent)
        then Some(DirectoryMismatch)
        else None
    case AskRelease(_, rid, _) =>
      if rid !in L.holds then Some(ReservationNotFound)
      else if L.holds[rid].status != Pending || L.holds[rid].terminalAt.Some? then Some(ReservationState)
      else if !NamesNeither(D, L.holds[rid].child, L.holds[rid].request) then Some(DirectoryMismatch)
      else None
    case AskAdmit(_, agent, amounts) => ChargeCapacityIssue(L, agent, amounts)
    case AskRecord(_, agent, amounts, _) =>
      if OpenIssue(L, agent).Some? then OpenIssue(L, agent)
      else if !AllActive(L.accounts[agent], amounts) then Some(InputRefused(ChargeInactive))
      else None
    case AskTools(_, agent, _) => OpenIssue(L, agent)
    case AskReserveUsage(_, rid, agent, amounts) =>
      if rid in L.usage then Some(OperationConflict)
      else if !SingleDimension(amounts) then Some(InputRefused(UsageReservationInvalid))
      else ChargeCapacityIssue(L, agent, amounts)
    case AskStart(_, rid) => UsageStateIssue(L, rid, UsagePending)
    case AskSettle(_, rid, amounts, quality) =>
      if UsageStateIssue(L, rid, Started).Some? then UsageStateIssue(L, rid, Started)
      else if !SettlementMatches(L.usage[rid], amounts, quality) then Some(InputRefused(UsageSettlementInvalid))
      else None
    case AskReleaseUsage(_, rid) => UsageStateIssue(L, rid, UsagePending)
    case AskClose(_, agent) =>
      if OpenIssue(L, agent).Some? then OpenIssue(L, agent)
      else if !MayClose(L, agent) then Some(ReservationState)
      else None
  }

  /** An earlier Tool admission under this operation answers a repeat. */
  predicate ToolsAlready(L: Ledger, op: Id, agent: Id, requested: nat) {
    op in L.charges
    && var c := L.charges[op];
       c.agent == agent && c.mode == Admission && c.amounts.tokens == 0 && c.amounts.steps == 0 && c.amounts.wall == 0
       && 1 <= c.amounts.toolCalls <= requested
  }

  /** The whole decision on a loaded ledger and Directory. */
  function Decide(L: Ledger, D: Directory, q: Request): Verdict {
    if InputIssue(q).Some? then Refuse(InputIssue(q).value)
    else if q.AskTools? then
      if q.op in L.charges then (if ToolsAlready(L, q.op, q.agent, q.requested) then Already else Refuse(OperationConflict))
      else if q.op in L.operations then Refuse(OperationConflict)
      else if GuardIssue(L, D, q).Some? then Refuse(GuardIssue(L, D, q).value)
      else if Remaining(L, q.agent, ToolCalls).None? then Unlimited(q.requested)
      else if ToolsAdmitted(L, q.agent, q.requested) == 0 then Unlimited(0)
      else Write(FactOf(L, q))
    else if q.op in L.operations then
      if q.AskStart? then Refuse(ReservationState)
      else if L.operations[q.op].fact == FactOf(L, q) then Already
      else Refuse(OperationConflict)
    else if GuardIssue(L, D, q).Some? then Refuse(GuardIssue(L, D, q).value)
    else Write(FactOf(L, q))
  }

  // ---- guarded writes keep the ledger readable ----

  /** What the guards do not look at: the other kind of reservation under the
      same id, and, for Tool calls, the other dimensions. */
  predicate Unclashing(L: Ledger, q: Request) {
    match q
    case AskChild(_, rid, _, _, _, _, _, _) => rid !in L.usage
    case AskReserveUsage(_, rid, _, _) => rid !in L.holds
    case AskTools(_, agent, _) =>
      agent in L.accounts ==>
        && FitsIn(L.accounts[agent], NOTHING, Tokens) && FitsIn(L.accounts[agent], NOTHING, Steps)
        && FitsIn(L.accounts[agent], NOTHING, Wall)
    case _ => true
  }

  lemma WritesItsFact(L: Ledger, D: Directory, q: Request)
    requires Decide(L, D, q).Write?
    ensures Decide(L, D, q).fact == FactOf(L, q)
  {
  }

  lemma ChildWriteReplays(L: Ledger, D: Directory, q: Request)
    requires Shape(L, D) && q.AskChild? && Decide(L, D, q).Write?
    ensures Step(L, D, Decide(L, D, q).fact).Success? <==> Unclashing(L, q)
  {
    hide ReservationDebit;
    assert ShapeAt(L, D, q.child) && ShapeAt(L, D, q.request);
  }

  /** A batch sized by what is left fits the account when the rest does. */
  lemma ToolsFit(L: Ledger, agent: Id, requested: nat)
    requires agent in L.accounts && FanOutAt(L, agent)
    requires Remaining(L, agent, ToolCalls).Some? && 1 <= ToolsAdmitted(L, agent, requested)
    ensures var a := L.accounts[agent];
      HasCapacity(a, Amounts(0, 0, ToolsAdmitted(L, agent, requested), 0), 0)
      <==> FitsIn(a, NOTHING, Tokens) && FitsIn(a, NOTHING, Steps) && FitsIn(a, NOTHING, Wall)
    ensures ToolsAdmitted(L, agent, requested) <= requested
  {
  }

  lemma SoundFanOut(L: Ledger, D: Directory, agent: Id)
    requires Sound(L, D)
    ensures FanOutAt(L, agent)
  {
    assert SoundAt(L, D, agent, Tokens);
  }

  /** Replay accepts a Tool charge exactly when it has capacity. */
  lemma ToolChargeReplays(L: Ledger, D: Directory, op: Id, agent: Id, n: nat)
    requires op !in L.operations && agent in L.accounts && L.accounts[agent].Open()
    requires L.accounts[agent].limits.toolCalls.Some? && 1 <= n <= MAX_BUDGET_VALUE
    ensures Step(L, D, UsageCharged(op, agent, Amounts(0, 0, n, 0), Admission, None)).Success?
            <==> HasCapacity(L.accounts[agent], Amounts(0, 0, n, 0), 0)
  {
    hide HasCapacity;
  }

  lemma ToolsDecided(L: Ledger, D: Directory, q: Request)
    requires q.AskTools? && Decide(L, D, q).Write?
    ensures q.op !in L.operations && q.agent in L.accounts && L.accounts[q.agent].Open()
    ensures L.accounts[q.agent].limits.toolCalls.Some? && Remaining(L, q.agent, ToolCalls).Some?
    ensures 1 <= ToolsAdmitted(L, q.agent, q.requested) && q.requested <= MAX_BUDGET_VALUE
    ensures Decide(L, D, q).fact
         == UsageCharged(q.op, q.agent, Amounts(0, 0, ToolsAdmitted(L, q.agent, q.requested), 0), Admission, None)
  {
  }

  lemma ToolsWriteReplays(L: Ledger, D: Directory, q: Request)
    requires Sound(L, D) && q.AskTools? && Decide(L, D, q).Write?
    ensures Step(L, D, Decide(L, D, q).fact).Success? <==> Unclashing(L, q)
  {
    hide HasCapacity, FitsIn, Sound, ToolsAdmitted, Remaining, FanOutAt, Step, Decide;
    SoundFanOut(L, D, q.agent);
    ToolsDecided(L, D, q);
    ToolsFit(L, q.agent, q.requested);
    ToolChargeReplays(L, D, q.op, q.agent, ToolsAdmitted(L, q.agent, q.requested));
  }

  lemma RootWriteReplays(L: Ledger, D: Directory, q: Request)
    requires q.AskRoot? && Decide(L, D, q).Write?
    ensures Step(L, D, Decide(L, D, q).fact).Success?
  {
  }

  lemma TokensWriteReplays(L: Ledger, D: Directory, q: Request)
    requires q.AskTokens? && Decide(L, D, q).Write?
    ensures Step(L, D, Decide(L, D, q).fact).Success?
  {
  }

  lemma CommitWriteReplays(L: Ledger, D: Directory, q: Request)
    requires Shape(L, D) && D.Coherent() && q.AskCommit? && Decide(L, D, q).Write?
    ensures Step(L, D, Decide(L, D, q).fact).Success?
  {
    assert ShapeAt(L, D, q.rid);
  }

  /** A release re-validates against limits that may have grown and subtracts
      what was added when the hold was taken, so it cannot fail. */
  lemma ReleaseWriteReplays(L: Ledger, D: Directory, q: Request)
    requires Sound(L, D) && q.AskRelease? && Decide(L, D, q).Write?
    ensures Step(L, D, Decide(L, D, q).fact).Success?
  {
    SoundShape(L, D);
    assert ShapeAt(L, D, q.rid);
    DelegatedCoversHold(L, D, q.rid);
  }

  /** The parent's delegated balance still contains every unreleased hold. */
  lemma DelegatedCoversHold(L: Ledger, D: Directory, rid: Id)
    requires Sound(L, D) && rid in L.holds && L.holds[rid].status != Released && L.holds[rid].parent in L.accounts
    ensures L.accounts[L.holds[rid].parent].delegated.Covers(Paid(L.holds[rid]))
  {
    forall d ensures Paid(L.holds[rid]).Get(d) <= L.accounts[L.holds[rid].parent].delegated.Get(d) {
      DelegatedCoversHoldIn(L, D, rid, d);
    }
    var p := L.accounts[L.holds[rid].parent].delegated;
    assert forall d :: Paid(L.holds[rid]).Get(d) <= p.Get(d);
    assert Paid(L.holds[rid]).Get(Tokens) <= p.Get(Tokens) && Paid(L.holds[rid]).Get(Steps) <= p.Get(Steps)
        && Paid(L.holds[rid]).Get(ToolCalls) <= p.Get(ToolCalls) && Paid(L.holds[rid]).Get(Wall) <= p.Get(Wall);
  }

  lemma DelegatedCoversHoldIn(L: Ledger, D: Directory, rid: Id, d: Dim)
    requires Sound(L, D) && rid in L.holds && L.holds[rid].status != Released && L.holds[rid].parent in L.accounts
    ensures Paid(L.holds[rid]).Get(d) <= L.accounts[L.holds[rid].parent].delegated.Get(d)
  {
    var p := L.holds[rid].parent;
    BooksOf(L, D, p, d);
    hide Sound, Total;
    TotalAtLeast(L.holds, rid, CarvedW(p, d));
    TotalNonNegative(L.decisions, GaveW(p));
  }

  lemma BooksOf(L: Ledger, D: Directory, a: Id, d: Dim)
    requires Sound(L, D)
    ensures BooksAt(L, a, d)
  {
    assert SoundAt(L, D, a, d);
  }

  lemma ChargeWriteReplays(L: Ledger, D: Directory, q: Request)
    requires (q.AskAdmit? || q.AskRecord?) && Decide(L, D, q).Write?
    ensures Step(L, D, Decide(L, D, q).fact).Success?
  {
  }

  lemma ReserveUsageWriteReplays(L: Ledger, D: Directory, q: Request)
    requires q.AskReserveUsage? && Decide(L, D, q).Write?
    ensures Step(L, D, Decide(L, D, q).fact).Success? <==> Unclashing(L, q)
  {
  }

  /** A reserved balance still contains every active usage hold. */
  lemma ReservedCoversUsage(L: Ledger, D: Directory, rid: Id, d: Dim)
    requires Sound(L, D) && rid in L.usage && L.usage[rid].Active() && L.usage[rid].agent in L.accounts
    ensures L.usage[rid].amounts.Get(d) <= L.accounts[L.usage[rid].agent].reserved.Get(d)
  {
    var a := L.usage[rid].agent;
    BooksOf(L, D, a, d);
    hide Sound, Total;
    TotalAtLeast(L.usage, rid, HeldW(a, d));
  }

  lemma ReservedCovers(L: Ledger, D: Directory, rid: Id)
    requires Sound(L, D) && rid in L.usage && L.usage[rid].Active()
    ensures L.usage[rid].agent in L.accounts && L.accounts[L.usage[rid].agent].reserved.Covers(L.usage[rid].amounts)
  {
    assert SoundAt(L, D, rid, Tokens);
    assert UsageKnown(L, rid);
    hide Sound, SoundAt;
    ReservedCoversUsage(L, D, rid, Tokens);
    ReservedCoversUsage(L, D, rid, Steps);
    ReservedCoversUsage(L, D, rid, ToolCalls);
    ReservedCoversUsage(L, D, rid, Wall);
  }

  lemma StartWriteReplays(L: Ledger, D: Directory, q: Request)
    requires q.AskStart? && Decide(L, D, q).Write?
    ensures Step(L, D, Decide(L, D, q).fact).Success?
  {
  }

  lemma SettleWriteReplays(L: Ledger, D: Directory, q: Request)
    requires Sound(L, D) && q.AskSettle? && Decide(L, D, q).Write?
    ensures Step(L, D, Decide(L, D, q).fact).Success?
  {
    hide Sound;
    ReservedCovers(L, D, q.rid);
  }

  lemma ReleaseUsageWriteReplays(L: Ledger, D: Directory, q: Request)
    requires Sound(L, D) && q.AskReleaseUsage? && Decide(L, D, q).Write?
    ensures Step(L, D, Decide(L, D, q).fact).Success?
  {
    hide Sound;
    ReservedCovers(L, D, q.rid);
  }

  lemma CloseWriteReplays(L: Ledger, D: Directory, q: Request)
    requires q.AskClose? && Decide(L, D, q).Write?
    ensures Step(L, D, Decide(L, D, q).fact).Success?
  {
  }

  /** Whatever a mutation decides to write, replay accepts, exactly unless the
      reservation id clashes with the other kind of reservation or another
      dimension is already past its limit. */
  lemma GuardedWriteReplays(L: Ledger, D: Directory, q: Request)
    requires Sound(L, D) && D.Coherent() && Decide(L, D, q).Write?
    ensures Step(L, D, Decide(L, D, q).fact).Success? <==> Unclashing(L, q)
  {
    hide Step, Decide;
    SoundShape(L, D);
    match q
    case AskRoot(_, _, _) => RootWriteReplays(L, D, q);
    case AskChild(_, _, _, _, _, _, _, _) => ChildWriteReplays(L, D, q);
    case AskTokens(_, _, _, _, _, _) => TokensWriteReplays(L, D, q);
    case AskCommit(_, _) => CommitWriteReplays(L, D, q);
    case AskRelease(_, _, _) => ReleaseWriteReplays(L, D, q);
    case AskAdmit(_, _, _) => ChargeWriteReplays(L, D, q);
    case AskRecord(_, _, _, _) => ChargeWriteReplays(L, D, q);
    case AskTools(_, _, _) => ToolsWriteReplays(L, D, q);
    case AskReserveUsage(_, _, _, _) => ReserveUsageWriteReplays(L, D, q);
    case AskStart(_, _) => StartWriteReplays(L, D, q);
    case AskSettle(_, _, _, _) => SettleWriteReplays(L, D, q);
    case AskReleaseUsage(_, _) => ReleaseUsageWriteReplays(L, D, q);
    case AskClose(_, _) => CloseWriteReplays(L, D, q);
  }
}
