/** The values of the Budget protocol and the parser's rules for its facts. */
module Budget {
  import opened Prelude

  const MAX_BUDGET_VALUE: nat := 0x1F_FFFF_FFFF_FFFF

  /** The four dimensions an account consumes. */
  datatype Dim = Tokens | Steps | ToolCalls | Wall

  datatype Amounts = Amounts(tokens: nat, steps: nat, toolCalls: nat, wall: nat) {
    function Get(d: Dim): nat {
      match d
      case Tokens => tokens
      case Steps => steps
      case ToolCalls => toolCalls
      case Wall => wall
    }

    function Plus(other: Amounts): Amounts {
      Amounts(tokens + other.tokens, steps + other.steps, toolCalls + other.toolCalls, wall + other.wall)
    }

    predicate Covers(other: Amounts) {
      other.tokens <= tokens && other.steps <= steps && other.toolCalls <= toolCalls && other.wall <= wall
    }

    function Minus(other: Amounts): Amounts
      requires Covers(other)
    {
      Amounts(tokens - other.tokens, steps - other.steps, toolCalls - other.toolCalls, wall - other.wall)
    }

    predicate Empty() { tokens == 0 && steps == 0 && toolCalls == 0 && wall == 0 }

    predicate InRange() {
      tokens <= MAX_BUDGET_VALUE && steps <= MAX_BUDGET_VALUE
      && toolCalls <= MAX_BUDGET_VALUE && wall <= MAX_BUDGET_VALUE
    }
  }

  const NOTHING := Amounts(0, 0, 0, 0)

  predicate LimitInRange(l: Option<nat>) { l.Some? ==> l.value <= MAX_BUDGET_VALUE }

  /** `None` means the host does not enforce that dimension. */
  datatype Limits = Limits(
    tokens: Option<nat>, steps: Option<nat>, toolCalls: Option<nat>, wall: Option<nat>,
    children: Option<nat>, depth: Option<nat>, processes: Option<nat>)
  {
    function Cap(d: Dim): Option<nat> {
      match d
      case Tokens => tokens
      case Steps => steps
      case ToolCalls => toolCalls
      case Wall => wall
    }

    /** What a grant of these limits carves out of its parent. */
    function Carved(d: Dim): nat { if Cap(d).Some? then Cap(d).value else 0 }

    predicate InRange() {
      && LimitInRange(tokens) && LimitInRange(steps) && LimitInRange(toolCalls) && LimitInRange(wall)
      && LimitInRange(children) && LimitInRange(depth) && LimitInRange(processes)
    }
  }

  datatype Mode = Admission | Observation

  datatype Quality = Exact | Estimated | Unknown

  datatype Fact =
    | RootGranted(op: Id, agent: Id, limits: Limits)
    | ChildReserved(op: Id, rid: Id, parent: Id, child: Id, request: Id,
                    limits: Limits, retained: nat, initial: Option<int>)
    | HoldCommitted(op: Id, rid: Id)
    | HoldReleased(op: Id, rid: Id)
    | TokensDecided(op: Id, request: Id, parent: Id, child: Id, tokens: nat, reason: string)
    | UsageCharged(op: Id, agent: Id, amounts: Amounts, mode: Mode, quality: Option<Quality>)
    | UsageReserved(op: Id, rid: Id, agent: Id, amounts: Amounts)
    | UsageStarted(op: Id, rid: Id)
    | UsageSettled(op: Id, rid: Id, amounts: Amounts, quality: Option<Quality>)
    | UsageReleased(op: Id, rid: Id)
    | AccountClosed(op: Id, agent: Id)

  /** The stable codes replay reports. */
  datatype Code =
    | PayloadInvalid | LimitsInvalid | AmountsInvalid | ChargeEmpty | RetainedTokensInvalid
    | UsageQualityInvalid | UsageReservationInvalid | UsageSettlementInvalid
    | OperationDuplicate | RootAgentInvalid | RootDuplicate | AccountUnknown | AccountClosedCode
    | ReservationDuplicate | DirectoryConflict | ChildAccountDuplicate | ChildConflict | RequestConflict
    | ReservationUnknown | ReservationTerminal | CommitWithoutAgent | ReleaseAfterAgent
    | ChildLimitsInvalid | DepthExhausted | CapacityExceeded | RetainedTokensExhausted
    | RequestAlreadyDecided | TokenOwnerInvalid | TokenEnvelopeInvalid | TokenCeilingExceeded
    | ChargeInactive | UsageReservationUnknown | CloseDuplicate | CloseWithPending

  /** Python's `str.isspace` on one character. */
  predicate IsSpace(c: char) {
    var n := c as int;
    || 9 <= n <= 13 || 28 <= n <= 32 || n == 0x85 || n == 0xA0 || n == 0x1680 || 0x2000 <= n <= 0x200A
    || n == 0x2028 || n == 0x2029 || n == 0x202F || n == 0x205F || n == 0x3000
  }

  predicate ReasonValid(reason: string) {
    |reason| <= 2000 && exists i | 0 <= i < |reason| :: !IsSpace(reason[i])
  }

  /** A usage hold reserves exactly one of tokens and wall time. */
  predicate SingleDimension(a: Amounts) {
    (a.tokens > 0) != (a.wall > 0) && a.steps == 0 && a.toolCalls == 0
  }

  function ChargeIssue(a: Amounts, quality: Option<Quality>): Option<Code> {
    if !a.InRange() then Some(AmountsInvalid)
    else if a.Empty() then Some(ChargeEmpty)
    else if (a.tokens > 0) != quality.Some? then Some(UsageQualityInvalid)
    else None
  }

  function ReserveIssue(a: Amounts): Option<Code> {
    if !a.InRange() then Some(AmountsInvalid)
    else if a.Empty() then Some(ChargeEmpty)
    else if !SingleDimension(a) then Some(UsageReservationInvalid)
    else None
  }

  function SettleIssue(a: Amounts, quality: Option<Quality>): Option<Code> {
    if !a.InRange() then Some(AmountsInvalid)
    else if a.steps > 0 || a.toolCalls > 0 || (a.tokens > 0 && a.wall > 0)
         || (a.tokens > 0 && quality.None?) || (a.wall > 0 && quality.Some?)
    then Some(UsageSettlementInvalid)
    else None
  }

  /** What the parser rejects before a fact reaches the projection. */
  function ParseIssue(f: Fact): Option<Code> {
    match f
    case RootGranted(_, _, limits) => if limits.InRange() then None else Some(LimitsInvalid)
    case ChildReserved(_, _, _, _, _, limits, retained, _) =>
      if retained > MAX_BUDGET_VALUE then Some(RetainedTokensInvalid)
      else if limits.InRange() then None else Some(LimitsInvalid)
    case TokensDecided(_, _, _, _, tokens, reason) =>
      if tokens <= MAX_BUDGET_VALUE && ReasonValid(reason) then None else Some(PayloadInvalid)
    case UsageCharged(_, _, amounts, _, quality) => ChargeIssue(amounts, quality)
    case UsageReserved(_, _, _, amounts) => ReserveIssue(amounts)
    case UsageSettled(_, _, amounts, quality) => SettleIssue(amounts, quality)
    case HoldCommitted(_, _) => None
    case HoldReleased(_, _) => None
    case UsageStarted(_, _) => None
    case UsageReleased(_, _) => None
    case AccountClosed(_, _) => None
  }

  /** `None` allocates the whole envelope; otherwise the initial tokens must lie
      in it.  The outer `None` is the rejected input. */
  function InitialLimits(limits: Limits, initial: Option<int>): Option<Limits> {
    match initial
    case None => Some(limits)
    case Some(t) =>
      if limits.tokens.Some? && 0 < t <= limits.tokens.value
      then Some(limits.(tokens := Some(t)))
      else None
  }
}
