/** The Budget ledger as a fold of its fact log against the Agent Directory. */
module Projection {
  import opened Prelude
  import opened Budget
  import opened Directory

  datatype Account = Account(
    parent: Option<Id>, limits: Limits, created: nat,
    charged: Amounts, delegated: Amounts, reserved: Amounts,
    heldChildren: int, closed: Option<nat>)
  {
    predicate Open() { closed.None? }

    function Used(d: Dim): nat { charged.Get(d) + delegated.Get(d) + reserved.Get(d) }
  }

  function FreshAccount(parent: Option<Id>, limits: Limits, created: nat): Account {
    Account(parent, limits, created, NOTHING, NOTHING, NOTHING, 0, None)
  }

  datatype HoldStatus = Pending | Committed | Released

  /** A hold on a parent's capacity for one child that may or may not exist yet. */
  datatype Hold = Hold(
    parent: Id, child: Id, request: Id, limits: Limits, retained: nat, initial: Option<int>,
    status: HoldStatus, reservedAt: nat, terminalAt: Option<nat>, identityAt: Option<nat>)
  {
    /** The limits the child starts with. */
    function Granted(): Limits {
      var g := InitialLimits(limits, initial);
      if g.Some? then g.value else limits
    }
  }

  datatype UsageStatus = UsagePending | Started | Settled | Dropped

  /** A hold on one account for one model call or one turn. */
  datatype UsageHold = UsageHold(
    agent: Id, amounts: Amounts, status: UsageStatus, reservedAt: nat,
    startedAt: Option<nat>, terminalAt: Option<nat>, settled: Option<Amounts>, quality: Option<Quality>)
  {
    predicate Active() { status == UsagePending || status == Started }
  }

  datatype Charge = Charge(agent: Id, amounts: Amounts, mode: Mode, quality: Option<Quality>, chargedAt: nat)

  datatype Decision = Decision(parent: Id, child: Id, tokens: nat, reason: string, op: Id, decidedAt: nat)

  datatype Operation = Operation(fact: Fact, at: nat)

  /** `heldChild` and `heldRequest` are rebuild's two local indexes from a
      child or request identity to the hold that named it. */
  datatype Ledger = Ledger(
    accounts: map<Id, Account>,
    holds: map<Id, Hold>,
    usage: map<Id, UsageHold>,
    charges: map<Id, Charge>,
    decisions: map<Id, Decision>,
    operations: map<Id, Operation>,
    heldChild: map<Id, Id>,
    heldRequest: map<Id, Id>,
    head: nat)

  const BLANK := Ledger(map[], map[], map[], map[], map[], map[], map[], map[], 0)

  type Outcome = Result<Ledger, Code>

  // ---- shared guards ----

  predicate Narrows(parent: Option<nat>, child: Option<nat>) {
    parent.Some? ==> child.Some? && child.value <= parent.value
  }

  /** Validates that a child's authority never exceeds its parent's and
      computes what the parent is debited. */
  function ChildDebit(parent: Limits, child: Limits): Result<Amounts, Code> {
    if !(&& Narrows(parent.tokens, child.tokens) && Narrows(parent.steps, child.steps)
         && Narrows(parent.toolCalls, child.toolCalls) && Narrows(parent.wall, child.wall)
         && Narrows(parent.children, child.children) && Narrows(parent.processes, child.processes))
    then Failure(ChildLimitsInvalid)
    else if parent.depth.Some? && parent.depth.value == 0 then Failure(DepthExhausted)
    else if parent.depth.Some? && !(child.depth.Some? && child.depth.value <= parent.depth.value - 1)
    then Failure(ChildLimitsInvalid)
    else Success(Amounts(child.Carved(Tokens), child.Carved(Steps), child.Carved(ToolCalls), child.Carved(Wall)))
  }

  predicate FitsIn(a: Account, debit: Amounts, d: Dim) {
    a.limits.Cap(d).Some? ==> a.Used(d) + debit.Get(d) <= a.limits.Cap(d).value
  }

  predicate HasCapacity(a: Account, debit: Amounts, children: nat) {
    && FitsIn(a, debit, Tokens) && FitsIn(a, debit, Steps) && FitsIn(a, debit, ToolCalls) && FitsIn(a, debit, Wall)
    && (a.limits.children.Some? ==> a.heldChildren + children <= a.limits.children.value)
  }

  predicate RetainsTokens(a: Account, debit: Amounts, retained: nat) {
    a.limits.tokens.Some? ==> a.Used(Tokens) + debit.tokens + retained <= a.limits.tokens.value
  }

  /** A charge may only name dimensions the account bounds. */
  predicate AllActive(a: Account, amounts: Amounts) {
    && (amounts.tokens > 0 ==> a.limits.tokens.Some?) && (amounts.steps > 0 ==> a.limits.steps.Some?)
    && (amounts.toolCalls > 0 ==> a.limits.toolCalls.Some?) && (amounts.wall > 0 ==> a.limits.wall.Some?)
  }

  predicate NamesExactly(d: Directory, parent: Id, child: Id, request: Id) {
    && d.Find(child).Some? && d.ForRequest(request).Some?
    && d.Find(child).value.who.agent == d.ForRequest(request).value.who.agent
    && d.Find(child).value.who.agent == child
    && d.Find(child).value.who.request == request
    && d.Find(child).value.who.owner == Some(parent)
  }

  predicate NamesNeither(d: Directory, child: Id, request: Id) {
    d.Find(child).None? && d.ForRequest(request).None?
  }

  /** The one durable Agent a hold stands for, none, or a contradiction. */
  function DirectoryChild(d: Directory, parent: Id, child: Id, request: Id): Result<Option<AgentRecord>, Code> {
    if NamesNeither(d, child, request) then Success(None)
    else if NamesExactly(d, parent, child, request) then Success(d.Find(child))
    else Failure(DirectoryConflict)
  }

  /** Settlement stays on the reservation's one dimension, within its amount. */
  predicate SettlementMatches(h: UsageHold, amounts: Amounts, quality: Option<Quality>) {
    if h.amounts.tokens > 0 then
      amounts.tokens <= h.amounts.tokens && amounts.steps == 0 && amounts.toolCalls == 0 && amounts.wall == 0
      && quality.Some?
    else
      amounts.wall <= h.amounts.wall && amounts.tokens == 0 && amounts.steps == 0 && amounts.toolCalls == 0
      && quality.None?
  }

  /** Whether a parent may allocate more tokens to an existing child. */
  function TokenIssue(L: Ledger, parent: Id, child: Id, tokens: nat): Option<Code> {
    if parent !in L.accounts || child !in L.accounts || L.accounts[child].parent != Some(parent)
    then Some(TokenOwnerInvalid)
    else if !L.accounts[parent].Open() || !L.accounts[child].Open() then Some(AccountClosedCode)
    else if child !in L.heldChild || L.heldChild[child] !in L.holds then Some(TokenEnvelopeInvalid)
    else
      var h, c := L.holds[L.heldChild[child]], L.accounts[child];
      var debit := Amounts(tokens, 0, 0, 0);
      if h.status != Committed || c.limits.tokens.None? || h.limits.tokens.None? then Some(TokenEnvelopeInvalid)
      else if c.limits.tokens.value + tokens > h.limits.tokens.value then Some(TokenCeilingExceeded)
      else if tokens > 0 && !HasCapacity(L.accounts[parent], debit, 0) then Some(CapacityExceeded)
      else if tokens > 0 && !RetainsTokens(L.accounts[parent], debit, h.retained) then Some(RetainedTokensExhausted)
      else None
  }

  predicate MayClose(L: Ledger, agent: Id) {
    && (forall r | r in L.holds :: L.holds[r].parent == agent ==> L.holds[r].status != Pending)
    && (forall r | r in L.usage :: L.usage[r].agent == agent ==> !L.usage[r].Active())
  }

  // ---- one function per fact kind; `at` is the fact's sequence number ----

  function GrantRoot(L: Ledger, D: Directory, at: nat, agent: Id, limits: Limits): Outcome {
    if D.Find(agent).None? || D.Find(agent).value.who.owner.Some? then Failure(RootAgentInvalid)
    else if agent in L.accounts then Failure(RootDuplicate)
    else Success(L.(accounts := L.accounts[agent := FreshAccount(None, limits, at)]))
  }

  function ReserveIssues(L: Ledger, rid: Id, parent: Id, child: Id, request: Id): Option<Code> {
    if parent !in L.accounts then Some(AccountUnknown)
    else if !L.accounts[parent].Open() then Some(AccountClosedCode)
    else if rid in L.holds || rid in L.usage then Some(ReservationDuplicate)
    else if child == parent then Some(DirectoryConflict)
    else if child in L.accounts then Some(ChildAccountDuplicate)
    else if child in L.heldChild then Some(ChildConflict)
    else if request in L.heldRequest then Some(RequestConflict)
    else None
  }

  /** The debit of a reservation, once the parent can afford it. */
  function ReservationDebit(p: Account, limits: Limits, retained: nat, initial: Option<int>): Result<Amounts, Code> {
    var _ :- ChildDebit(p.limits, limits);
    var granted := InitialLimits(limits, initial);
    if granted.None? then Failure(PayloadInvalid)
    else
      var debit :- ChildDebit(p.limits, granted.value);
      if !HasCapacity(p, debit, 1) then Failure(CapacityExceeded)
      else if !RetainsTokens(p, debit, retained) then Failure(RetainedTokensExhausted)
      else Success(debit)
  }

  function ReserveChild(L: Ledger, D: Directory, at: nat, rid: Id, parent: Id, child: Id, request: Id,
                        limits: Limits, retained: nat, initial: Option<int>): Outcome {
    var issue := ReserveIssues(L, rid, parent, child, request);
    if issue.Some? then Failure(issue.value)
    else
      var p := L.accounts[parent];
      var debit :- ReservationDebit(p, limits, retained, initial);
      var durable :- DirectoryChild(D, parent, child, request);
      var h := Hold(parent, child, request, limits, retained, initial,
                    if durable.Some? then Committed else Pending, at, None,
                    if durable.Some? then Some(durable.value.created) else None);
      var debited := L.accounts[parent := p.(delegated := p.delegated.Plus(debit), heldChildren := p.heldChildren + 1)];
      Success(L.(
        accounts := if durable.Some? then debited[child := FreshAccount(Some(parent), h.Granted(), at)] else debited,
        holds := L.holds[rid := h],
        heldChild := L.heldChild[child := rid],
        heldRequest := L.heldRequest[request := rid]))
  }

  function CommitHold(L: Ledger, D: Directory, at: nat, rid: Id): Outcome {
    if rid !in L.holds then Failure(ReservationUnknown)
    else
      var h := L.holds[rid];
      if h.status == Released || h.terminalAt.Some? then Failure(ReservationTerminal)
      else
        var durable :- DirectoryChild(D, h.parent, h.child, h.request);
        if durable.None? then Failure(CommitWithoutAgent)
        else
          Success(L.(
            holds := L.holds[rid := h.(status := Committed, terminalAt := Some(at),
                                       identityAt := Some(durable.value.created))],
            accounts := if h.child in L.accounts then L.accounts
                        else L.accounts[h.child := FreshAccount(Some(h.parent), h.Granted(), h.reservedAt)]))
  }

  function ReleaseHold(L: Ledger, D: Directory, at: nat, rid: Id): Outcome {
    if rid !in L.holds then Failure(ReservationUnknown)
    else
      var h := L.holds[rid];
      if h.status == Committed then Failure(ReleaseAfterAgent)
      else if h.status == Released || h.terminalAt.Some? then Failure(ReservationTerminal)
      else
        var durable :- DirectoryChild(D, h.parent, h.child, h.request);
        if durable.Some? then Failure(ReleaseAfterAgent)
        else if h.parent !in L.accounts || InitialLimits(h.limits, h.initial).None? then Failure(PayloadInvalid)
        else
          var p := L.accounts[h.parent];
          var debit :- ChildDebit(p.limits, h.Granted());
          if !p.delegated.Covers(debit) then Failure(PayloadInvalid)
          else
            Success(L.(
              accounts := L.accounts[h.parent := p.(delegated := p.delegated.Minus(debit),
                                                    heldChildren := p.heldChildren - 1)],
              holds := L.holds[rid := h.(status := Released, terminalAt := Some(at))]))
  }

  function DecideTokens(L: Ledger, at: nat, op: Id, request: Id, parent: Id, child: Id,
                        tokens: nat, reason: string): Outcome {
    if request in L.decisions then Failure(RequestAlreadyDecided)
    else
      var issue := TokenIssue(L, parent, child, tokens);
      if issue.Some? then Failure(issue.value)
      else
        var p, c := L.accounts[parent], L.accounts[child];
        Success(L.(
          accounts := L.accounts[parent := p.(delegated := p.delegated.Plus(Amounts(tokens, 0, 0, 0)))]
                                [child := c.(limits := c.limits.(tokens := Some(c.limits.tokens.value + tokens)))],
          decisions := L.decisions[request := Decision(parent, child, tokens, reason, op, at)]))
  }

  function ChargeUsage(L: Ledger, at: nat, op: Id, agent: Id, amounts: Amounts, mode: Mode,
                       quality: Option<Quality>): Outcome {
    if agent !in L.accounts then Failure(AccountUnknown)
    else
      var a := L.accounts[agent];
      if !a.Open() then Failure(AccountClosedCode)
      else if !AllActive(a, amounts) then Failure(ChargeInactive)
      else if mode == Admission && !HasCapacity(a, amounts, 0) then Failure(CapacityExceeded)
      else
        Success(L.(
          accounts := L.accounts[agent := a.(charged := a.charged.Plus(amounts))],
          charges := L.charges[op := Charge(agent, amounts, mode, quality, at)]))
  }

  function ReserveUsage(L: Ledger, at: nat, rid: Id, agent: Id, amounts: Amounts): Outcome {
    if agent !in L.accounts then Failure(AccountUnknown)
    else
      var a := L.accounts[agent];
      if !a.Open() then Failure(AccountClosedCode)
      else if rid in L.holds || rid in L.usage then Failure(ReservationDuplicate)
      else if !AllActive(a, amounts) then Failure(ChargeInactive)
      else if !HasCapacity(a, amounts, 0) then Failure(CapacityExceeded)
      else
        Success(L.(
          usage := L.usage[rid := UsageHold(agent, amounts, UsagePending, at, None, None, None, None)],
          accounts := L.accounts[agent := a.(reserved := a.reserved.Plus(amounts))]))
  }

  function StartUsage(L: Ledger, at: nat, rid: Id): Outcome {
    if rid !in L.usage then Failure(UsageReservationUnknown)
    else
      var h := L.usage[rid];
      if h.status != UsagePending then Failure(ReservationTerminal)
      else Success(L.(usage := L.usage[rid := h.(status := Started, startedAt := Some(at))]))
  }

  function SettleUsage(L: Ledger, at: nat, rid: Id, amounts: Amounts, quality: Option<Quality>): Outcome {
    if rid !in L.usage then Failure(UsageReservationUnknown)
    else
      var h := L.usage[rid];
      if h.status != Started then Failure(ReservationTerminal)
      else if h.agent !in L.accounts then Failure(AccountUnknown)
      else if !SettlementMatches(h, amounts, quality) then Failure(UsageSettlementInvalid)
      else
        var a := L.accounts[h.agent];
        if !a.reserved.Covers(h.amounts) then Failure(PayloadInvalid)
        else
          Success(L.(
            accounts := L.accounts[h.agent := a.(reserved := a.reserved.Minus(h.amounts),
                                                 charged := a.charged.Plus(amounts))],
            usage := L.usage[rid := h.(status := Settled, terminalAt := Some(at),
                                       settled := Some(amounts), quality := quality)]))
  }

  function ReleaseUsage(L: Ledger, at: nat, rid: Id): Outcome {
    if rid !in L.usage then Failure(UsageReservationUnknown)
    else
      var h := L.usage[rid];
      if h.status != UsagePending then Failure(ReservationTerminal)
      else if h.agent !in L.accounts then Failure(AccountUnknown)
      else
        var a := L.accounts[h.agent];
        if !a.reserved.Covers(h.amounts) then Failure(PayloadInvalid)
        else
          Success(L.(
            accounts := L.accounts[h.agent := a.(reserved := a.reserved.Minus(h.amounts))],
            usage := L.usage[rid := h.(status := Dropped, terminalAt := Some(at))]))
  }

  function CloseAccount(L: Ledger, at: nat, agent: Id): Outcome {
    if agent !in L.accounts then Failure(AccountUnknown)
    else if !L.accounts[agent].Open() then Failure(CloseDuplicate)
    else if !MayClose(L, agent) then Failure(CloseWithPending)
    else Success(L.(accounts := L.accounts[agent := L.accounts[agent].(closed := Some(at))]))
  }

  function Apply(L: Ledger, D: Directory, f: Fact): Outcome {
    var at := L.head + 1;
    match f
    case RootGranted(_, agent, limits) => GrantRoot(L, D, at, agent, limits)
    case ChildReserved(_, rid, parent, child, request, limits, retained, initial) =>
      ReserveChild(L, D, at, rid, parent, child, request, limits, retained, initial)
    case HoldCommitted(_, rid) => CommitHold(L, D, at, rid)
    case HoldReleased(_, rid) => ReleaseHold(L, D, at, rid)
    case TokensDecided(op, request, parent, child, tokens, reason) =>
      DecideTokens(L, at, op, request, parent, child, tokens, reason)
    case UsageCharged(op, agent, amounts, mode, quality) => ChargeUsage(L, at, op, agent, amounts, mode, quality)
    case UsageReserved(_, rid, agent, amounts) => ReserveUsage(L, at, rid, agent, amounts)
    case UsageStarted(_, rid) => StartUsage(L, at, rid)
    case UsageSettled(_, rid, amounts, quality) => SettleUsage(L, at, rid, amounts, quality)
    case UsageReleased(_, rid) => ReleaseUsage(L, at, rid)
    case AccountClosed(_, agent) => CloseAccount(L, at, agent)
  }

  /** Bookkeeping every accepted fact shares. */
  function Recorded(L: Ledger, f: Fact, at: nat): Ledger {
    L.(operations := L.operations[f.op := Operation(f, at)], head := at)
  }

  function Step(L: Ledger, D: Directory, f: Fact): Outcome {
    if ParseIssue(f).Some? then Failure(ParseIssue(f).value)
    else if f.op in L.operations then Failure(OperationDuplicate)
    else
      var next :- Apply(L, D, f);
      Success(Recorded(next, f, L.head + 1))
  }

  /** The whole log, or the code of its first unacceptable fact. */
  function Replay(log: seq<Fact>, D: Directory): Outcome {
    if log == [] then Success(BLANK)
    else
      var L :- Replay(log[..|log| - 1], D);
      Step(L, D, log[|log| - 1])
  }

  lemma {:induction false} ReplayAppend(log: seq<Fact>, f: Fact, D: Directory)
    requires Replay(log, D).Success?
    ensures Replay(log + [f], D) == Step(Replay(log, D).value, D, f)
  {
    assert (log + [f])[..|log|] == log;
  }

  lemma {:induction false} ReplayPrefix(log: seq<Fact>, n: nat, D: Directory)
    requires n <= |log| && Replay(log, D).Success?
    ensures Replay(log[..n], D).Success?
  {
    if n < |log| {
      assert log[..|log| - 1][..n] == log[..n];
      ReplayPrefix(log[..|log| - 1], n, D);
    } else {
      assert log[..n] == log;
    }
  }
}
