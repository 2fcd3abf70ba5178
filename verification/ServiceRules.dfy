/** The host's mutations written out flat: what each request is told on a loaded
    ledger, in the order its reasons are looked for. */
module ServiceRules {
  import opened Prelude
  import opened Budget
  import opened Directory
  import opened Projection
  import opened LedgerShape
  import opened LedgerBounds
  import opened Service
  import opened Rules

  /** The fact a request other than a Tool batch asks for. */
  function Asked(q: Request): Fact
    requires !q.AskTools?
  {
    match q
    case AskRoot(op, agent, limits) => RootGranted(op, agent, limits)
    case AskChild(op, rid, parent, child, request, limits, retained, initial) =>
      ChildReserved(op, rid, parent, child, request, limits, retained, initial)
    case AskTokens(op, request, parent, child, tokens, reason) => TokensDecided(op, request, parent, child, tokens, reason)
    case AskCommit(op, rid) => HoldCommitted(op, rid)
    case AskRelease(op, rid, _) => HoldReleased(op, rid)
    case AskAdmit(op, agent, amounts) => UsageCharged(op, agent, amounts, Admission, if amounts.tokens == 0 then None else Some(Exact))
    case AskRecord(op, agent, amounts, quality) => UsageCharged(op, agent, amounts, Observation, quality)
    case AskReserveUsage(op, rid, agent, amounts) => UsageReserved(op, rid, agent, amounts)
    case AskStart(op, rid) => UsageStarted(op, rid)
    case AskSettle(op, rid, amounts, quality) => UsageSettled(op, rid, amounts, quality)
    case AskReleaseUsage(op, rid) => UsageReleased(op, rid)
    case AskClose(op, agent) => AccountClosed(op, agent)
  }

  function AccountRule(L: Ledger, agent: Id): Option<ServiceError> {
    if agent !in L.accounts then Some(AccountNotFound)
    else if L.accounts[agent].closed.Some? then Some(AccountIsClosed)
    else None
  }

  /** The first dimension without room, in the order tokens, steps, Tool calls,
      wall time. */
  function FirstFull(a: Account, b: Amounts): Option<What> {
    if !TakesTokens(a, b.tokens) then Some(Consumable(Tokens))
    else if !TakesSteps(a, b.steps) then Some(Consumable(Steps))
    else if !TakesTools(a, b.toolCalls) then Some(Consumable(ToolCalls))
    else if !TakesWall(a, b.wall) then Some(Consumable(Wall))
    else None
  }

  function FullRule(a: Account, b: Amounts): Option<ServiceError> {
    if FirstFull(a, b).Some? then Some(Exhausted(FirstFull(a, b).value)) else None
  }

  function SpendingRule(L: Ledger, agent: Id, b: Amounts): Option<ServiceError> {
    if AccountRule(L, agent).Some? then AccountRule(L, agent)
    else if InUnlimited(L.accounts[agent].limits, b) then Some(InputRefused(ChargeInactive))
    else FullRule(L.accounts[agent], b)
  }

  ghost function ChildRule(L: Ledger, D: Directory, rid: Id, parent: Id, child: Id, request: Id,
                           l: Limits, retained: nat, initial: Option<int>): Option<ServiceError> {
    if rid in L.holds || child in L.accounts then Some(OperationConflict)
    else if exists r | r in L.holds :: L.holds[r].child == child || L.holds[r].request == request then Some(OperationConflict)
    else if child in D.byAgent || request in D.byRequest then Some(DirectoryMismatch)
    else if AccountRule(L, parent).Some? then AccountRule(L, parent)
    else
      var p := L.accounts[parent];
      if !AllTighter(p.limits, l) then Some(InputRefused(ChildLimitsInvalid))
      else if p.limits.depth == Some(0) then Some(Exhausted(Depth))
      else if p.limits.depth.Some? && !(l.depth.Some? && l.depth.value < p.limits.depth.value)
      then Some(InputRefused(ChildLimitsInvalid))
      else if !StartsAllowed(l.tokens, initial) then Some(InputRefused(PayloadInvalid))
      else
        var price := Price(l, initial);
        if FullRule(p, price).Some? then FullRule(p, price)
        else if !TakesOneMoreChild(p) then Some(Exhausted(Children))
        else if !TakesTokens(p, price.tokens + retained) then Some(Exhausted(Retained))
        else None
  }

  ghost function GiveRule(L: Ledger, D: Directory, request: Id, parent: Id, child: Id, tokens: nat): Option<ServiceError> {
    if child !in D.byAgent || D.byAgent[child].who.owner != Some(parent) then Some(DirectoryMismatch)
    else if request in L.decisions then Some(InputRefused(RequestAlreadyDecided))
    else if AccountRule(L, parent).Some? then AccountRule(L, parent)
    else if AccountRule(L, child).Some? then AccountRule(L, child)
    else if L.accounts[child].parent != Some(parent) then Some(InputRefused(TokenOwnerInvalid))
    else if L.accounts[child].limits.tokens.None? then Some(InputRefused(TokenEnvelopeInvalid))
    else if exists r | r in L.holds :: L.holds[r].child == child && Passes(L.holds[r].limits.tokens, L.accounts[child].limits.tokens.value + tokens)
    then Some(InputRefused(TokenCeilingExceeded))
    else if tokens > 0 && !TakesAll(L.accounts[parent], Amounts(tokens, 0, 0, 0)) then Some(Exhausted(Consumable(Tokens)))
    else if tokens > 0 && exists r | r in L.holds :: L.holds[r].child == child && !TakesTokens(L.accounts[parent], tokens + L.holds[r].retained)
    then Some(Exhausted(Retained))
    else None
  }

  function UsageRule(L: Ledger, rid: Id, started: bool): Option<ServiceError> {
    if rid !in L.usage then Some(ReservationNotFound)
    else if L.usage[rid].status != (if started then Started else UsagePending) then Some(ReservationState)
    else None
  }

  /** What refuses a new request, once its form is right. */
  ghost function RequestRule(L: Ledger, D: Directory, q: Request): Option<ServiceError> {
    match q
    case AskRoot(_, agent, _) =>
      if agent !in D.byAgent || D.byAgent[agent].who.owner.Some? then Some(DirectoryMismatch)
      else if agent in L.accounts then Some(OperationConflict)
      else None
    case AskChild(_, rid, parent, child, request, limits, retained, initial) =>
      ChildRule(L, D, rid, parent, child, request, limits, retained, initial)
    case AskTokens(_, request, parent, child, tokens, _) => GiveRule(L, D, request, parent, child, tokens)
    case AskCommit(_, rid) =>
      if rid !in L.holds then Some(ReservationNotFound)
      else if L.holds[rid].terminalAt.Some? then Some(ReservationState)
      else if L.holds[rid].status == Pending then Some(DirectoryMismatch)
      else None
    case AskRelease(_, rid, _) =>
      if rid !in L.holds then Some(ReservationNotFound)
      else if L.holds[rid].status != Pending then Some(ReservationState)
      else None
    case AskAdmit(_, agent, amounts) => SpendingRule(L, agent, amounts)
    case AskRecord(_, agent, amounts, _) =>
      if AccountRule(L, agent).Some? then AccountRule(L, agent)
      else if InUnlimited(L.accounts[agent].limits, amounts) then Some(InputRefused(ChargeInactive))
      else None
    case AskTools(_, agent, _) => AccountRule(L, agent)
    case AskReserveUsage(_, rid, agent, amounts) =>
      if rid in L.usage then Some(OperationConflict) else SpendingRule(L, agent, amounts)
    case AskStart(_, rid) => UsageRule(L, rid, false)
    case AskSettle(_, rid, amounts, quality) =>
      if UsageRule(L, rid, true).Some? then UsageRule(L, rid, true)
      else if !Settles(L.usage[rid], amounts, quality) then Some(InputRefused(UsageSettlementInvalid))
      else None
    case AskReleaseUsage(_, rid) => UsageRule(L, rid, false)
    case AskClose(_, agent) =>
      if AccountRule(L, agent).Some? then AccountRule(L, agent)
      else if exists r | r in L.holds :: L.holds[r].parent == agent && L.holds[r].status == Pending then Some(ReservationState)
      else if exists r | r in L.usage :: L.usage[r].agent == agent && (L.usage[r].status == UsagePending || L.usage[r].status == Started)
      then Some(ReservationState)
      else None
  }

  /** What refuses a request by its form alone. */
  function RequestForm(q: Request): Option<ServiceError> {
    match q
    case AskTools(_, _, requested) => if requested == 0 || requested > TOP then Some(InputRefused(AmountsInvalid)) else None
    case AskRelease(_, _, converged) => if converged then None else Some(ReservationState)
    case _ =>
      if FormRule(Asked(q)).Some? then Some(InputRefused(FormRule(Asked(q)).value))
      else if q.AskChild? && !StartsAllowed(q.limits.tokens, q.initial) then Some(InputRefused(PayloadInvalid))
      else None
  }

  /** A request other than a Tool batch is refused for its form, answered from
      an earlier identical one, refused as a reuse of its operation id, refused
      by its rules, or written; a start is never answered from an earlier one. */
  ghost function Answer(L: Ledger, D: Directory, q: Request): Verdict
    requires !q.AskTools?
  {
    if RequestForm(q).Some? then Refuse(RequestForm(q).value)
    else if q.op in L.operations then
      if q.AskStart? then Refuse(ReservationState)
      else if L.operations[q.op].fact == Asked(q) then Already
      else Refuse(OperationConflict)
    else if RequestRule(L, D, q).Some? then Refuse(RequestRule(L, D, q).value)
    else Write(Asked(q))
  }

  // ---- the service answers so ----

  lemma AsksForIt(L: Ledger, q: Request)
    requires !q.AskTools?
    ensures FactOf(L, q) == Asked(q)
  {
  }

  lemma FormsAgree(q: Request)
    ensures InputIssue(q) == RequestForm(q)
  {
    if !q.AskTools? {
      AsksForIt(BLANK, q);
      FormFollowsRules(Asked(q));
      if q.AskChild? { StartsFollows(q.limits, q.initial); }
      hide ParseIssue, FormRule, FactOf, Asked, InitialLimits, StartsAllowed;
    }
  }

  lemma FullFollows(a: Account, b: Amounts)
    requires a.limits.children.Some? ==> a.heldChildren <= a.limits.children.value
    ensures TakesAll(a, b) <==> FirstFull(a, b).None?
    ensures !TakesAll(a, b) ==> FirstFull(a, b) == Some(ExhaustedBy(a, b))
    ensures TakesAll(a, b) ==> ExhaustedBy(a, b) == Children
  {
  }

  lemma SpendingFollows(L: Ledger, D: Directory, agent: Id, b: Amounts)
    requires Sound(L, D)
    ensures ChargeCapacityIssue(L, agent, b) == SpendingRule(L, agent, b)
  {
    if agent in L.accounts {
      SpendFollows(L, D, agent, b);
      NoMoreChildren(L, D, agent);
      FullFollows(L.accounts[agent], b);
    }
    hide Sound, AllActive, HasCapacity, InUnlimited, TakesAll, FirstFull, ExhaustedBy;
  }

  lemma ReservationFollows(L: Ledger, D: Directory, parent: Id, l: Limits, retained: nat, initial: Option<int>)
    requires Sound(L, D) && parent in L.accounts
    ensures var p := L.accounts[parent]; var issue := ReservationIssue(p, l, retained, initial);
      issue == if !AllTighter(p.limits, l) then Some(InputRefused(ChildLimitsInvalid))
               else if p.limits.depth == Some(0) then Some(Exhausted(Depth))
               else if p.limits.depth.Some? && !(l.depth.Some? && l.depth.value < p.limits.depth.value)
               then Some(InputRefused(ChildLimitsInvalid))
               else if !StartsAllowed(l.tokens, initial) then Some(InputRefused(PayloadInvalid))
               else
                 var price := Price(l, initial);
                 if FullRule(p, price).Some? then FullRule(p, price)
                 else if !TakesOneMoreChild(p) then Some(Exhausted(Children))
                 else if !TakesTokens(p, price.tokens + retained) then Some(Exhausted(Retained))
                 else None
  {
    var p := L.accounts[parent];
    DebitFollows(p, l, retained, initial);
    EnvelopeFollows(p.limits, l, initial);
    StartsFollows(l, initial);
    NoMoreChildren(L, D, parent);
    if StartsAllowed(l.tokens, initial) { FullFollows(p, Price(l, initial)); }
    hide Sound, ReservationDebit, ChildDebit, InitialLimits, AllTighter, TakesAll, TakesTokens, StartsAllowed, Price, FirstFull;
    hide TakesOneMoreChild, ExhaustedBy, StartingTokens;
  }

  lemma ChildAnswers(L: Ledger, D: Directory, q: Request)
    requires Sound(L, D) && q.AskChild?
    ensures GuardIssue(L, D, q) == RequestRule(L, D, q)
  {
    if q.parent in L.accounts { ReservationFollows(L, D, q.parent, q.limits, q.retained, q.initial); }
    hide Sound, ReservationIssue, AllTighter, StartsAllowed, Price, FullRule, TakesTokens, TakesOneMoreChild;
  }

  lemma TokensAnswer(L: Ledger, D: Directory, q: Request)
    requires Sound(L, D) && q.AskTokens?
    ensures GuardIssue(L, D, q) == RequestRule(L, D, q)
  {
    if q.request !in L.decisions { TokensFollowIssue(L, D, q.request, q.parent, q.child, q.tokens); }
    hide Sound, TokenIssue, TakesAll, TakesTokens;
  }

  lemma FinalizersAnswer(L: Ledger, D: Directory, q: Request)
    requires Sound(L, D) && (q.AskCommit? || q.AskRelease?)
    ensures GuardIssue(L, D, q) == RequestRule(L, D, q)
  {
    SoundShape(L, D);
    if q.rid in L.holds { assert ShapeAt(L, D, q.rid); }
    hide Sound, Shape, HoldAfforded, AccountKnown, UsageKnown;
  }

  lemma SpendersAnswer(L: Ledger, D: Directory, q: Request)
    requires Sound(L, D) && RequestForm(q).None? && (q.AskAdmit? || q.AskRecord? || q.AskReserveUsage?)
    ensures GuardIssue(L, D, q) == RequestRule(L, D, q)
  {
    SpendingFollows(L, D, q.agent, q.amounts);
    if q.agent in L.accounts { SpendFollows(L, D, q.agent, q.amounts); }
    hide Sound, ChargeCapacityIssue, SpendingRule, AllActive, InUnlimited;
  }

  lemma OthersAnswer(L: Ledger, D: Directory, q: Request)
    requires q.AskRoot? || q.AskTools? || q.AskStart? || q.AskSettle? || q.AskReleaseUsage? || q.AskClose?
    ensures GuardIssue(L, D, q) == RequestRule(L, D, q)
  {
    if q.AskSettle? && q.rid in L.usage { SettlesFollows(L.usage[q.rid], q.amounts, q.quality); }
    hide SettlementMatches, Settles;
  }

  lemma RulesAgree(L: Ledger, D: Directory, q: Request)
    requires Sound(L, D) && RequestForm(q).None?
    ensures GuardIssue(L, D, q) == RequestRule(L, D, q)
  {
    hide Sound, GuardIssue, RequestRule, RequestForm;
    if q.AskChild? {
      ChildAnswers(L, D, q);
    } else if q.AskTokens? {
      TokensAnswer(L, D, q);
    } else if q.AskCommit? || q.AskRelease? {
      FinalizersAnswer(L, D, q);
    } else if q.AskAdmit? || q.AskRecord? || q.AskReserveUsage? {
      SpendersAnswer(L, D, q);
    } else {
      OthersAnswer(L, D, q);
    }
  }

  /** Every request but a Tool batch is answered as its rules say. */
  lemma DecisionFollowsRules(L: Ledger, D: Directory, q: Request)
    requires Sound(L, D) && !q.AskTools?
    ensures Decide(L, D, q) == Answer(L, D, q)
  {
    FormsAgree(q);
    AsksForIt(L, q);
    if RequestForm(q).None? { RulesAgree(L, D, q); }
    hide Sound, GuardIssue, RequestRule, RequestForm, InputIssue, FactOf, Asked;
  }

  // ---- Tool batches ----

  /** A new Tool batch of an open account that limits Tool calls is given the
      largest prefix there is room for: all of it, as much as fills the limit
      exactly, or nothing once the limit is reached.  What is given is charged,
      and nothing is written for nothing. */
  lemma ToolsGetTheLargestPrefix(L: Ledger, D: Directory, op: Id, agent: Id, requested: nat) returns (n: nat)
    requires 1 <= requested <= TOP && op !in L.operations && op !in L.charges
    requires agent in L.accounts && L.accounts[agent].closed.None? && L.accounts[agent].limits.toolCalls.Some?
    ensures var a := L.accounts[agent];
      var used, cap := a.charged.toolCalls + a.delegated.toolCalls + a.reserved.toolCalls, a.limits.toolCalls.value;
      && n <= requested
      && ((n == requested && used + n <= cap) || (0 < n < requested && used + n == cap) || (n == 0 && used >= cap))
    ensures Decide(L, D, AskTools(op, agent, requested))
         == if n == 0 then Verdict.Unlimited(0) else Write(UsageCharged(op, agent, Amounts(0, 0, n, 0), Admission, None))
  {
    var a := L.accounts[agent];
    var used, cap := a.charged.toolCalls + a.delegated.toolCalls + a.reserved.toolCalls, a.limits.toolCalls.value;
    n := if used >= cap then 0 else if requested <= cap - used then requested else cap - used;
  }

  /** And every other case: an answer already given stands, whatever is asked of
      it later that it can serve; an unlimited account gets the whole batch and
      nothing is written. */
  lemma ToolsOtherwise(L: Ledger, D: Directory, op: Id, agent: Id, requested: nat)
    ensures var verdict := Decide(L, D, AskTools(op, agent, requested));
      if requested == 0 || requested > TOP then verdict == Refuse(InputRefused(AmountsInvalid))
      else if op in L.charges then
        var c := L.charges[op];
        verdict == if c.agent == agent && c.mode == Admission && c.amounts == Amounts(0, 0, c.amounts.toolCalls, 0)
                      && 1 <= c.amounts.toolCalls <= requested then Already else Refuse(OperationConflict)
      else if op in L.operations then verdict == Refuse(OperationConflict)
      else if AccountRule(L, agent).Some? then verdict == Refuse(AccountRule(L, agent).value)
      else L.accounts[agent].limits.toolCalls.None? ==> verdict == Verdict.Unlimited(requested)
  {
  }

  /** What is left of a dimension is the limit less everything charged,
      delegated and reserved, and nothing once that is reached. */
  lemma RemainingExactly(L: Ledger, agent: Id)
    requires agent in L.accounts
    ensures var a := L.accounts[agent];
      && Remaining(L, agent, Tokens) == Left(a.limits.tokens, a.charged.tokens + a.delegated.tokens + a.reserved.tokens)
      && Remaining(L, agent, Steps) == Left(a.limits.steps, a.charged.steps + a.delegated.steps + a.reserved.steps)
      && Remaining(L, agent, ToolCalls) == Left(a.limits.toolCalls, a.charged.toolCalls + a.delegated.toolCalls + a.reserved.toolCalls)
      && Remaining(L, agent, Wall) == Left(a.limits.wall, a.charged.wall + a.delegated.wall + a.reserved.wall)
  {
  }

  function Left(limit: Option<nat>, used: nat): Option<nat> {
    if limit.None? then None else if used >= limit.value then Some(0) else Some(limit.value - used)
  }
}
