/** The rules of the Budget protocol written out flat: for every fact, in order,
    what refuses it, and what an accepted one leaves.  The projection, with its
    shared guards and in-place order of checks, does exactly this. */
module Rules {
  import opened Prelude
  import opened Budget
  import opened Directory
  import opened Projection
  import opened LedgerShape
  import opened LedgerBooks
  import opened LedgerBounds
  import opened DirectoryGrowth
  import opened Service

  /** Nothing above 2 to the 53rd less one. */
  const TOP: nat := 9007199254740991

  predicate Beyond(limit: Option<nat>) { limit.Some? && limit.value > TOP }

  predicate AnyBeyond(l: Limits) {
    || Beyond(l.tokens) || Beyond(l.steps) || Beyond(l.toolCalls) || Beyond(l.wall)
    || Beyond(l.children) || Beyond(l.depth) || Beyond(l.processes)
  }

  predicate TooMuch(a: Amounts) { a.tokens > TOP || a.steps > TOP || a.toolCalls > TOP || a.wall > TOP }

  predicate Nothing(a: Amounts) { a.tokens == 0 && a.steps == 0 && a.toolCalls == 0 && a.wall == 0 }

  /** The parent's limit holds for the child. */
  predicate Tighter(parent: Option<nat>, child: Option<nat>) {
    parent.None? || (child.Some? && child.value <= parent.value)
  }

  predicate AllTighter(p: Limits, c: Limits) {
    Tighter(p.tokens, c.tokens) && Tighter(p.steps, c.steps) && Tighter(p.toolCalls, c.toolCalls)
    && Tighter(p.wall, c.wall) && Tighter(p.children, c.children) && Tighter(p.processes, c.processes)
  }

  /** One dimension takes `more` on top of everything charged, delegated and
      reserved. */
  predicate Takes(limit: Option<nat>, charged: nat, delegated: nat, reserved: nat, more: nat) {
    limit.None? || charged + delegated + reserved + more <= limit.value
  }

  predicate TakesTokens(a: Account, more: nat) { Takes(a.limits.tokens, a.charged.tokens, a.delegated.tokens, a.reserved.tokens, more) }

  predicate TakesSteps(a: Account, more: nat) { Takes(a.limits.steps, a.charged.steps, a.delegated.steps, a.reserved.steps, more) }

  predicate TakesTools(a: Account, more: nat) {
    Takes(a.limits.toolCalls, a.charged.toolCalls, a.delegated.toolCalls, a.reserved.toolCalls, more)
  }

  predicate TakesWall(a: Account, more: nat) { Takes(a.limits.wall, a.charged.wall, a.delegated.wall, a.reserved.wall, more) }

  predicate TakesAll(a: Account, b: Amounts) {
    TakesTokens(a, b.tokens) && TakesSteps(a, b.steps) && TakesTools(a, b.toolCalls) && TakesWall(a, b.wall)
  }

  predicate TakesOneMoreChild(a: Account) { a.limits.children.None? || a.heldChildren + 1 <= a.limits.children.value }

  /** Amounts in a dimension the account does not limit. */
  predicate InUnlimited(l: Limits, a: Amounts) {
    || (a.tokens > 0 && l.tokens.None?) || (a.steps > 0 && l.steps.None?)
    || (a.toolCalls > 0 && l.toolCalls.None?) || (a.wall > 0 && l.wall.None?)
  }

  function Together(a: Amounts, b: Amounts): Amounts {
    Amounts(a.tokens + b.tokens, a.steps + b.steps, a.toolCalls + b.toolCalls, a.wall + b.wall)
  }

  function OrZero(limit: Option<nat>): nat { if limit.Some? then limit.value else 0 }

  /** The tokens a child starts with, of those its envelope allows. */
  predicate StartsAllowed(envelope: Option<nat>, initial: Option<int>) {
    initial.None? || (envelope.Some? && 1 <= initial.value <= envelope.value)
  }

  function StartingTokens(envelope: Option<nat>, initial: Option<int>): Option<nat>
    requires StartsAllowed(envelope, initial)
  {
    if initial.Some? then Some(initial.value) else envelope
  }

  /** What the parent pays for a child. */
  function Price(l: Limits, initial: Option<int>): Amounts
    requires StartsAllowed(l.tokens, initial)
  {
    Amounts(OrZero(StartingTokens(l.tokens, initial)), OrZero(l.steps), OrZero(l.toolCalls), OrZero(l.wall))
  }

  function NewAccount(parent: Option<Id>, limits: Limits, at: nat): Account {
    Account(parent, limits, at, Amounts(0, 0, 0, 0), Amounts(0, 0, 0, 0), Amounts(0, 0, 0, 0), 0, None)
  }

  // ---- what the Directory shows of a child ----

  predicate Absent(D: Directory, child: Id, request: Id) { child !in D.byAgent && request !in D.byRequest }

  predicate Present(D: Directory, parent: Id, child: Id, request: Id) {
    && child in D.byAgent && request in D.byRequest
    && D.byAgent[child].who.agent == child && D.byRequest[request].who.agent == child
    && D.byAgent[child].who.request == request && D.byAgent[child].who.owner == Some(parent)
  }

  // ---- the rules of form, which no ledger enters ----

  predicate IsBlank(reason: string) { forall i | 0 <= i < |reason| :: (reason[i] as int) in BLANKS }

  const BLANKS: set<int> := {
    9, 10, 11, 12, 13, 28, 29, 30, 31, 32, 133, 160, 5760, 8192, 8193, 8194, 8195, 8196, 8197, 8198, 8199, 8200, 8201, 8202,
    8232, 8233, 8239, 8287, 12288}

  function FormRule(f: Fact): Option<Code> {
    match f
    case RootGranted(_, _, limits) => if AnyBeyond(limits) then Some(LimitsInvalid) else None
    case ChildReserved(_, _, _, _, _, limits, retained, _) =>
      if retained > TOP then Some(RetainedTokensInvalid) else if AnyBeyond(limits) then Some(LimitsInvalid) else None
    case TokensDecided(_, _, _, _, tokens, reason) =>
      if tokens > TOP || |reason| > 2000 || IsBlank(reason) then Some(PayloadInvalid) else None
    case UsageCharged(_, _, a, _, quality) =>
      if TooMuch(a) then Some(AmountsInvalid)
      else if Nothing(a) then Some(ChargeEmpty)
      else if quality.Some? != (a.tokens > 0) then Some(UsageQualityInvalid)
      else None
    case UsageReserved(_, _, _, a) =>
      if TooMuch(a) then Some(AmountsInvalid)
      else if Nothing(a) then Some(ChargeEmpty)
      else if a.steps > 0 || a.toolCalls > 0 || (a.tokens > 0 && a.wall > 0) then Some(UsageReservationInvalid)
      else None
    case UsageSettled(_, _, a, quality) =>
      if TooMuch(a) then Some(AmountsInvalid)
      else if a.steps > 0 || a.toolCalls > 0 || (a.tokens > 0 && a.wall > 0) then Some(UsageSettlementInvalid)
      else if (a.tokens > 0 && quality.None?) || (a.wall > 0 && quality.Some?) then Some(UsageSettlementInvalid)
      else None
    case _ => None
  }

  // ---- each fact's own rules, in order ----

  ghost function ReserveRule(L: Ledger, D: Directory, rid: Id, parent: Id, child: Id, request: Id,
                             l: Limits, retained: nat, initial: Option<int>): Option<Code> {
    if parent !in L.accounts then Some(AccountUnknown)
    else
      var p := L.accounts[parent];
      if p.closed.Some? then Some(AccountClosedCode)
      else if rid in L.holds || rid in L.usage then Some(ReservationDuplicate)
      else if child == parent then Some(DirectoryConflict)
      else if child in L.accounts then Some(ChildAccountDuplicate)
      else if exists r | r in L.holds :: L.holds[r].child == child then Some(ChildConflict)
      else if exists r | r in L.holds :: L.holds[r].request == request then Some(RequestConflict)
      else if !AllTighter(p.limits, l) then Some(ChildLimitsInvalid)
      else if p.limits.depth == Some(0) then Some(DepthExhausted)
      else if p.limits.depth.Some? && !(l.depth.Some? && l.depth.value < p.limits.depth.value) then Some(ChildLimitsInvalid)
      else if !StartsAllowed(l.tokens, initial) then Some(PayloadInvalid)
      else
        var price := Price(l, initial);
        if !TakesAll(p, price) || !TakesOneMoreChild(p) then Some(CapacityExceeded)
        else if !TakesTokens(p, price.tokens + retained) then Some(RetainedTokensExhausted)
        else if !Absent(D, child, request) && !Present(D, parent, child, request) then Some(DirectoryConflict)
        else None
  }

  ghost function TokensRule(L: Ledger, request: Id, parent: Id, child: Id, tokens: nat): Option<Code> {
    if request in L.decisions then Some(RequestAlreadyDecided)
    else if parent !in L.accounts || child !in L.accounts || L.accounts[child].parent != Some(parent) then Some(TokenOwnerInvalid)
    else
      var p, c := L.accounts[parent], L.accounts[child];
      if p.closed.Some? || c.closed.Some? then Some(AccountClosedCode)
      else if c.limits.tokens.None? then Some(TokenEnvelopeInvalid)
      else if exists r | r in L.holds :: L.holds[r].child == child && Passes(L.holds[r].limits.tokens, c.limits.tokens.value + tokens)
      then Some(TokenCeilingExceeded)
      else if tokens > 0 && !TakesAll(p, Amounts(tokens, 0, 0, 0)) then Some(CapacityExceeded)
      else if tokens > 0 && exists r | r in L.holds :: L.holds[r].child == child && !TakesTokens(p, tokens + L.holds[r].retained)
      then Some(RetainedTokensExhausted)
      else None
  }

  predicate Passes(limit: Option<nat>, n: nat) { limit.Some? && n > limit.value }

  ghost function SpendRule(L: Ledger, agent: Id, a: Amounts, guarded: bool): Option<Code> {
    if agent !in L.accounts then Some(AccountUnknown)
    else if L.accounts[agent].closed.Some? then Some(AccountClosedCode)
    else if InUnlimited(L.accounts[agent].limits, a) then Some(ChargeInactive)
    else if guarded && !TakesAll(L.accounts[agent], a) then Some(CapacityExceeded)
    else None
  }

  /** Settled on the dimension it reserved, for no more than it reserved. */
  predicate Settles(h: UsageHold, a: Amounts, quality: Option<Quality>) {
    && a.steps == 0 && a.toolCalls == 0
    && (if h.amounts.tokens > 0 then a.wall == 0 && a.tokens <= h.amounts.tokens && quality.Some?
        else a.tokens == 0 && a.wall <= h.amounts.wall && quality.None?)
  }

  ghost function OwnRule(L: Ledger, D: Directory, f: Fact): Option<Code> {
    match f
    case RootGranted(_, agent, _) =>
      if agent !in D.byAgent || D.byAgent[agent].who.owner.Some? then Some(RootAgentInvalid)
      else if agent in L.accounts then Some(RootDuplicate)
      else None
    case ChildReserved(_, rid, parent, child, request, limits, retained, initial) =>
      ReserveRule(L, D, rid, parent, child, request, limits, retained, initial)
    case HoldCommitted(_, rid) =>
      if rid !in L.holds then Some(ReservationUnknown)
      else if L.holds[rid].terminalAt.Some? then Some(ReservationTerminal)
      else if L.holds[rid].status == Pending then Some(CommitWithoutAgent)
      else None
    case HoldReleased(_, rid) =>
      if rid !in L.holds then Some(ReservationUnknown)
      else if L.holds[rid].status == Committed then Some(ReleaseAfterAgent)
      else if L.holds[rid].status == Released then Some(ReservationTerminal)
      else None
    case TokensDecided(_, request, parent, child, tokens, _) => TokensRule(L, request, parent, child, tokens)
    case UsageCharged(_, agent, a, mode, _) => SpendRule(L, agent, a, mode == Admission)
    case UsageReserved(_, rid, agent, a) =>
      if agent in L.accounts && L.accounts[agent].closed.None? && (rid in L.holds || rid in L.usage) then Some(ReservationDuplicate)
      else SpendRule(L, agent, a, true)
    case UsageStarted(_, rid) =>
      if rid !in L.usage then Some(UsageReservationUnknown)
      else if L.usage[rid].status != UsagePending then Some(ReservationTerminal)
      else None
    case UsageSettled(_, rid, a, quality) =>
      if rid !in L.usage then Some(UsageReservationUnknown)
      else if L.usage[rid].status != Started then Some(ReservationTerminal)
      else if !Settles(L.usage[rid], a, quality) then Some(UsageSettlementInvalid)
      else None
    case UsageReleased(_, rid) =>
      if rid !in L.usage then Some(UsageReservationUnknown)
      else if L.usage[rid].status != UsagePending then Some(ReservationTerminal)
      else None
    case AccountClosed(_, agent) =>
      if agent !in L.accounts then Some(AccountUnknown)
      else if L.accounts[agent].closed.Some? then Some(CloseDuplicate)
      else if exists r | r in L.holds :: L.holds[r].parent == agent && L.holds[r].status == Pending then Some(CloseWithPending)
      else if exists r | r in L.usage :: L.usage[r].agent == agent && (L.usage[r].status == UsagePending || L.usage[r].status == Started)
      then Some(CloseWithPending)
      else None
  }

  /** The first rule a fact breaks. */
  ghost function Broken(L: Ledger, D: Directory, f: Fact): Option<Code> {
    if FormRule(f).Some? then FormRule(f)
    else if f.op in L.operations then Some(OperationDuplicate)
    else OwnRule(L, D, f)
  }

  // ---- form ----

  lemma BlankExactly(c: char)
    ensures IsSpace(c) <==> (c as int) in BLANKS
  {
  }

  lemma ReasonsExactly(reason: string)
    ensures ReasonValid(reason) <==> |reason| <= 2000 && !IsBlank(reason)
  {
    hide IsSpace;
    forall i | 0 <= i < |reason| ensures IsSpace(reason[i]) <==> (reason[i] as int) in BLANKS { BlankExactly(reason[i]); }
  }

  lemma FormFollowsRules(f: Fact)
    ensures ParseIssue(f) == FormRule(f)
  {
    if f.TokensDecided? { ReasonsExactly(f.reason); }
  }

  // ---- what an accepted fact leaves ----

  /** The ledger with its accounts and usage holds replaced, one fact further. */
  ghost predicate Becomes(L: Ledger, f: Fact, N: Ledger, accounts: map<Id, Account>, usage: map<Id, UsageHold>) {
    N == L.(accounts := accounts, usage := usage, operations := L.operations[f.op := Operation(f, L.head + 1)], head := L.head + 1)
  }

  ghost predicate LeavesHold(L: Ledger, D: Directory, f: Fact, N: Ledger)
    requires f.ChildReserved?
  {
    && f.parent in L.accounts && StartsAllowed(f.limits.tokens, f.initial)
    && var p, at, here := L.accounts[f.parent], L.head + 1, f.child in D.byAgent;
       var price := Price(f.limits, f.initial);
       var h := Hold(f.parent, f.child, f.request, f.limits, f.retained, f.initial, if here then Committed else Pending, at, None,
                     if here then Some(D.byAgent[f.child].created) else None);
       var paid := L.accounts[f.parent := p.(delegated := Together(p.delegated, price), heldChildren := p.heldChildren + 1)];
       var started := NewAccount(Some(f.parent), f.limits.(tokens := StartingTokens(f.limits.tokens, f.initial)), at);
       N == L.(accounts := if here then paid[f.child := started] else paid,
               holds := L.holds[f.rid := h], heldChild := L.heldChild[f.child := f.rid],
               heldRequest := L.heldRequest[f.request := f.rid],
               operations := L.operations[f.op := Operation(f, at)], head := at)
  }

  ghost predicate LeavesRelease(L: Ledger, f: Fact, N: Ledger)
    requires f.HoldReleased?
  {
    && f.rid in L.holds
    && var h, at := L.holds[f.rid], L.head + 1;
       && h.parent in L.accounts && h.parent in N.accounts && StartsAllowed(h.limits.tokens, h.initial)
       && var p, q := L.accounts[h.parent], N.accounts[h.parent];
          && p.delegated == Together(q.delegated, Price(h.limits, h.initial))
          && q == p.(delegated := q.delegated, heldChildren := p.heldChildren - 1)
          && N == L.(accounts := L.accounts[h.parent := q], holds := L.holds[f.rid := h.(status := Released, terminalAt := Some(at))],
                     operations := L.operations[f.op := Operation(f, at)], head := at)
  }

  ghost predicate LeavesDecision(L: Ledger, f: Fact, N: Ledger)
    requires f.TokensDecided?
  {
    && f.parent in L.accounts && f.child in L.accounts && L.accounts[f.child].limits.tokens.Some?
    && var p, c, at := L.accounts[f.parent], L.accounts[f.child], L.head + 1;
       var paid := L.accounts[f.parent := p.(delegated := Together(p.delegated, Amounts(f.tokens, 0, 0, 0)))];
       N == L.(accounts := paid[f.child := c.(limits := c.limits.(tokens := Some(c.limits.tokens.value + f.tokens)))],
               decisions := L.decisions[f.request := Decision(f.parent, f.child, f.tokens, f.reason, f.op, at)],
               operations := L.operations[f.op := Operation(f, at)], head := at)
  }

  ghost predicate LeavesUsage(L: Ledger, f: Fact, N: Ledger)
    requires f.UsageStarted? || f.UsageSettled? || f.UsageReleased?
  {
    && f.rid in L.usage && L.usage[f.rid].agent in L.accounts && L.usage[f.rid].agent in N.accounts
    && var h, at := L.usage[f.rid], L.head + 1;
       var a, b := L.accounts[h.agent], N.accounts[h.agent];
       match f
       case UsageStarted(_, rid) =>
         Becomes(L, f, N, L.accounts, L.usage[rid := h.(status := Started, startedAt := Some(at))])
       case UsageSettled(_, rid, amounts, quality) =>
         a.reserved == Together(b.reserved, h.amounts) && b == a.(reserved := b.reserved, charged := Together(a.charged, amounts))
         && Becomes(L, f, N, L.accounts[h.agent := b],
                    L.usage[rid := h.(status := Settled, terminalAt := Some(at), settled := Some(amounts), quality := quality)])
       case UsageReleased(_, rid) =>
         a.reserved == Together(b.reserved, h.amounts) && b == a.(reserved := b.reserved)
         && Becomes(L, f, N, L.accounts[h.agent := b], L.usage[rid := h.(status := Dropped, terminalAt := Some(at))])
  }

  ghost predicate Leaves(L: Ledger, D: Directory, f: Fact, N: Ledger) {
    var at := L.head + 1;
    match f
    case RootGranted(_, agent, limits) => Becomes(L, f, N, L.accounts[agent := NewAccount(None, limits, at)], L.usage)
    case ChildReserved(_, _, _, _, _, _, _, _) => LeavesHold(L, D, f, N)
    case HoldCommitted(_, rid) =>
      rid in L.holds && L.holds[rid].child in D.byAgent
      && N == L.(holds := L.holds[rid := L.holds[rid].(status := Committed, terminalAt := Some(at),
                                                       identityAt := Some(D.byAgent[L.holds[rid].child].created))],
                 operations := L.operations[f.op := Operation(f, at)], head := at)
    case HoldReleased(_, _) => LeavesRelease(L, f, N)
    case TokensDecided(_, _, _, _, _, _) => LeavesDecision(L, f, N)
    case UsageCharged(_, agent, amounts, mode, quality) =>
      agent in L.accounts
      && var a := L.accounts[agent];
         N == L.(accounts := L.accounts[agent := a.(charged := Together(a.charged, amounts))],
                 charges := L.charges[f.op := Charge(agent, amounts, mode, quality, at)],
                 operations := L.operations[f.op := Operation(f, at)], head := at)
    case UsageReserved(_, rid, agent, amounts) =>
      agent in L.accounts
      && var a := L.accounts[agent];
         Becomes(L, f, N, L.accounts[agent := a.(reserved := Together(a.reserved, amounts))],
                 L.usage[rid := UsageHold(agent, amounts, UsagePending, at, None, None, None, None)])
    case AccountClosed(_, agent) =>
      agent in L.accounts && Becomes(L, f, N, L.accounts[agent := L.accounts[agent].(closed := Some(at))], L.usage)
    case _ => LeavesUsage(L, f, N)
  }

  ghost predicate Follows(L: Ledger, D: Directory, f: Fact) {
    && (Step(L, D, f).Failure? <==> Broken(L, D, f).Some?)
    && (Step(L, D, f).Failure? ==> Broken(L, D, f) == Some(Step(L, D, f).error))
    && (Step(L, D, f).Success? ==> Leaves(L, D, f, Step(L, D, f).value))
  }

  // ---- one kind at a time ----

  ghost predicate ReadyFor(L: Ledger, D: Directory, f: Fact) { Sound(L, D) && ParseIssue(f) == None && f.op !in L.operations }

  lemma RootFollows(L: Ledger, D: Directory, f: Fact)
    requires ReadyFor(L, D, f) && f.RootGranted?
    ensures Follows(L, D, f)
  {
    FormFollowsRules(f);
    hide Sound, FormRule, ParseIssue;
  }

  lemma NamesByIndex(L: Ledger, D: Directory, child: Id, request: Id)
    requires Shape(L, D)
    ensures child in L.heldChild <==> exists r | r in L.holds :: L.holds[r].child == child
    ensures request in L.heldRequest <==> exists r | r in L.holds :: L.holds[r].request == request
  {
    assert ShapeAt(L, D, child) && ShapeAt(L, D, request);
    forall r | r in L.holds
      ensures L.holds[r].child == child ==> child in L.heldChild
      ensures L.holds[r].request == request ==> request in L.heldRequest
    {
      assert ShapeAt(L, D, r);
    }
  }

  /** The grant is never refused where its envelope was not. */
  lemma EnvelopeFollows(p: Limits, l: Limits, initial: Option<int>)
    ensures ChildDebit(p, l)
         == if !AllTighter(p, l) then Failure(ChildLimitsInvalid)
            else if p.depth == Some(0) then Failure(DepthExhausted)
            else if p.depth.Some? && !(l.depth.Some? && l.depth.value < p.depth.value) then Failure(ChildLimitsInvalid)
            else Success(Price(l, None))
    ensures ChildDebit(p, l).Success? && StartsAllowed(l.tokens, initial) ==>
              ChildDebit(p, l.(tokens := StartingTokens(l.tokens, initial))) == Success(Price(l, initial))
  {
  }

  lemma RoomFollows(p: Account, price: Amounts, retained: nat)
    ensures HasCapacity(p, price, 1) <==> TakesAll(p, price) && TakesOneMoreChild(p)
    ensures RetainsTokens(p, price, retained) <==> TakesTokens(p, price.tokens + retained)
  {
  }

  lemma DebitFollows(p: Account, l: Limits, retained: nat, initial: Option<int>)
    ensures var r := ReservationDebit(p, l, retained, initial);
      r == if !AllTighter(p.limits, l) then Failure(ChildLimitsInvalid)
           else if p.limits.depth == Some(0) then Failure(DepthExhausted)
           else if p.limits.depth.Some? && !(l.depth.Some? && l.depth.value < p.limits.depth.value) then Failure(ChildLimitsInvalid)
           else if !StartsAllowed(l.tokens, initial) then Failure(PayloadInvalid)
           else
             var price := Price(l, initial);
             if !TakesAll(p, price) || !TakesOneMoreChild(p) then Failure(CapacityExceeded)
             else if !TakesTokens(p, price.tokens + retained) then Failure(RetainedTokensExhausted)
             else Success(price)
  {
    EnvelopeFollows(p.limits, l, initial);
    StartsFollows(l, initial);
    if StartsAllowed(l.tokens, initial) { RoomFollows(p, Price(l, initial), retained); }
    hide ChildDebit, InitialLimits, HasCapacity, RetainsTokens, AllTighter, TakesAll, TakesTokens, StartsAllowed, Price, StartingTokens;
    hide TakesOneMoreChild;
  }

  lemma StartsFollows(l: Limits, initial: Option<int>)
    ensures InitialLimits(l, initial).Some? <==> StartsAllowed(l.tokens, initial)
    ensures StartsAllowed(l.tokens, initial) ==>
              InitialLimits(l, initial) == Some(l.(tokens := StartingTokens(l.tokens, initial)))
  {
  }

  lemma ChildFollows(D: Directory, parent: Id, child: Id, request: Id)
    ensures DirectoryChild(D, parent, child, request)
         == if Absent(D, child, request) then Success(None)
            else if Present(D, parent, child, request) then Success(Some(D.byAgent[child]))
            else Failure(DirectoryConflict)
  {
  }

  lemma IssuesFollow(L: Ledger, D: Directory, rid: Id, parent: Id, child: Id, request: Id)
    requires Shape(L, D)
    ensures ReserveIssues(L, rid, parent, child, request)
         == if parent !in L.accounts then Some(AccountUnknown)
            else if L.accounts[parent].closed.Some? then Some(AccountClosedCode)
            else if rid in L.holds || rid in L.usage then Some(ReservationDuplicate)
            else if child == parent then Some(DirectoryConflict)
            else if child in L.accounts then Some(ChildAccountDuplicate)
            else if exists r | r in L.holds :: L.holds[r].child == child then Some(ChildConflict)
            else if exists r | r in L.holds :: L.holds[r].request == request then Some(RequestConflict)
            else None
  {
    NamesByIndex(L, D, child, request);
    hide Shape;
  }

  lemma ReserveStages(L: Ledger, D: Directory, at: nat, rid: Id, parent: Id, child: Id, request: Id,
                      l: Limits, retained: nat, initial: Option<int>)
    ensures var r := Projection.ReserveChild(L, D, at, rid, parent, child, request, l, retained, initial);
      var issue := ReserveIssues(L, rid, parent, child, request);
      if issue.Some? then r == Failure(issue.value)
      else
        var debit, durable := ReservationDebit(L.accounts[parent], l, retained, initial), DirectoryChild(D, parent, child, request);
        if debit.Failure? then r == Failure(debit.error)
        else if durable.Failure? then r == Failure(durable.error)
        else r.Success?
  {
    hide ReservationDebit, DirectoryChild;
  }

  lemma ReserveRefusals(L: Ledger, D: Directory, at: nat, rid: Id, parent: Id, child: Id, request: Id,
                        l: Limits, retained: nat, initial: Option<int>)
    requires Shape(L, D)
    ensures var r := Projection.ReserveChild(L, D, at, rid, parent, child, request, l, retained, initial);
      var rule := ReserveRule(L, D, rid, parent, child, request, l, retained, initial);
      (r.Failure? <==> rule.Some?) && (r.Failure? ==> rule == Some(r.error))
  {
    ReserveStages(L, D, at, rid, parent, child, request, l, retained, initial);
    IssuesFollow(L, D, rid, parent, child, request);
    if parent in L.accounts { DebitFollows(L.accounts[parent], l, retained, initial); }
    ChildFollows(D, parent, child, request);
    hide Shape, Projection.ReserveChild, ReserveIssues, ReservationDebit, DirectoryChild, AllTighter, TakesAll, TakesTokens;
    hide StartsAllowed, Price, TakesOneMoreChild, Absent, Present, StartingTokens;
  }

  lemma ReserveLeaves(L: Ledger, D: Directory, f: Fact)
    requires f.ChildReserved? && Step(L, D, f).Success?
    ensures LeavesHold(L, D, f, Step(L, D, f).value)
  {
    ReserveGuardsHold(L, D, f);
    ReserveComputes(L, D, f);
    DebitFollows(L.accounts[f.parent], f.limits, f.retained, f.initial);
    StartsFollows(f.limits, f.initial);
    ChildFollows(D, f.parent, f.child, f.request);
    PlusIsTogether(L.accounts[f.parent].delegated, Price(f.limits, f.initial));
    hide Step, ReservationDebit, InitialLimits, DirectoryChild, AllTighter, TakesAll, TakesTokens, ReserveIssues, ParseIssue;
    hide StartsAllowed, Price, TakesOneMoreChild, StartingTokens, Together, Absent, Present;
  }

  lemma PlusIsTogether(a: Amounts, b: Amounts)
    ensures a.Plus(b) == Together(a, b)
  {
  }

  lemma ReserveGuardsHold(L: Ledger, D: Directory, f: Fact)
    requires f.ChildReserved? && Step(L, D, f).Success?
    ensures ParseIssue(f) == None && f.op !in L.operations && ReserveIssues(L, f.rid, f.parent, f.child, f.request) == None
    ensures ReservationDebit(L.accounts[f.parent], f.limits, f.retained, f.initial).Success?
    ensures DirectoryChild(D, f.parent, f.child, f.request).Success?
  {
    hide ParseIssue, ReservationDebit, DirectoryChild;
  }

  lemma ReserveFollows(L: Ledger, D: Directory, f: Fact)
    requires ReadyFor(L, D, f) && f.ChildReserved?
    ensures Follows(L, D, f)
  {
    FormFollowsRules(f);
    SoundShape(L, D);
    ReserveRefusals(L, D, L.head + 1, f.rid, f.parent, f.child, f.request, f.limits, f.retained, f.initial);
    if Step(L, D, f).Success? { ReserveLeaves(L, D, f); }
    hide Sound, Shape, FormRule, ParseIssue, Projection.ReserveChild, ReserveRule, LeavesHold;
  }

  lemma HoldShows(L: Ledger, D: Directory, rid: Id)
    requires Shape(L, D) && rid in L.holds
    ensures var h := L.holds[rid];
      && (h.terminalAt.Some? ==> h.status != Pending) && (h.status == Released ==> h.terminalAt.Some?)
      && (h.status == Committed ==> DirectoryChild(D, h.parent, h.child, h.request) == Success(D.Find(h.child))
                                    && h.child in D.byAgent && h.child in L.accounts)
      && (h.status != Committed ==> DirectoryChild(D, h.parent, h.child, h.request) == Success(None))
      && h.parent in L.accounts && InitialLimits(h.limits, h.initial).Some?
      && ChildDebit(L.accounts[h.parent].limits, h.Granted()).Success?
  {
    assert ShapeAt(L, D, rid);
  }

  lemma CommitFollows(L: Ledger, D: Directory, f: Fact)
    requires ReadyFor(L, D, f) && f.HoldCommitted?
    ensures Follows(L, D, f)
  {
    FormFollowsRules(f);
    SoundShape(L, D);
    if f.rid in L.holds { HoldShows(L, D, f.rid); }
    hide Sound, Shape, FormRule, ParseIssue, DirectoryChild, ChildDebit;
  }

  /** What a release gives back is what the reservation cost, although the
      parent's limits may have grown since. */
  lemma PriceGivenBack(h: Hold, p: Limits)
    requires InitialLimits(h.limits, h.initial).Some? && ChildDebit(p, h.Granted()).Success?
    ensures StartsAllowed(h.limits.tokens, h.initial)
    ensures Paid(h) == Price(h.limits, h.initial) && ChildDebit(p, h.Granted()) == Success(Price(h.limits, h.initial))
  {
  }

  lemma ReleaseFollows(L: Ledger, D: Directory, f: Fact)
    requires ReadyFor(L, D, f) && f.HoldReleased?
    ensures Follows(L, D, f)
  {
    FormFollowsRules(f);
    SoundShape(L, D);
    if f.rid in L.holds {
      var h := L.holds[f.rid];
      HoldShows(L, D, f.rid);
      PriceGivenBack(h, L.accounts[h.parent].limits);
      if h.status != Released { Covered(L, D, f.rid); }
    }
    hide Sound, Shape, FormRule, ParseIssue, DirectoryChild, ChildDebit, InitialLimits, Price, StartsAllowed;
  }

  lemma Covered(L: Ledger, D: Directory, rid: Id)
    requires Sound(L, D) && rid in L.holds && L.holds[rid].status != Released && L.holds[rid].parent in L.accounts
    ensures L.accounts[L.holds[rid].parent].delegated.Covers(Paid(L.holds[rid]))
  {
    DelegatedCoversHold(L, D, rid);
  }

  /** The one hold of an existing child. */
  lemma OnlyHold(L: Ledger, D: Directory, child: Id)
    requires Shape(L, D) && child in L.accounts && L.accounts[child].parent.Some?
    ensures child in L.heldChild && L.heldChild[child] in L.holds && L.holds[L.heldChild[child]].child == child
    ensures L.holds[L.heldChild[child]].status == Committed
    ensures L.accounts[child].limits.tokens.Some? <==> L.holds[L.heldChild[child]].limits.tokens.Some?
    ensures forall r | r in L.holds && L.holds[r].child == child :: r == L.heldChild[child]
    ensures L.accounts[child].parent != Some(child)
  {
    var r0 := L.heldChild[child];
    assert ShapeAt(L, D, child) && ShapeAt(L, D, r0);
    forall r | r in L.holds && L.holds[r].child == child ensures r == r0 { assert ShapeAt(L, D, r); }
    StartsFollows(L.holds[r0].limits, L.holds[r0].initial);
  }

  lemma TokensFollowIssue(L: Ledger, D: Directory, request: Id, parent: Id, child: Id, tokens: nat)
    requires Sound(L, D) && request !in L.decisions
    ensures TokenIssue(L, parent, child, tokens) == TokensRule(L, request, parent, child, tokens)
  {
    SoundShape(L, D);
    if parent in L.accounts && child in L.accounts && L.accounts[child].parent == Some(parent) {
      OnlyHold(L, D, child);
      NoMoreChildren(L, D, parent);
      RoomForTokens(L.accounts[parent], tokens, L.holds[L.heldChild[child]].retained);
    }
    hide Sound, Shape, HasCapacity, RetainsTokens, TakesAll, TakesTokens;
  }

  lemma RoomForTokens(p: Account, tokens: nat, retained: nat)
    requires p.limits.children.Some? ==> p.heldChildren <= p.limits.children.value
    ensures HasCapacity(p, Amounts(tokens, 0, 0, 0), 0) <==> TakesAll(p, Amounts(tokens, 0, 0, 0))
    ensures RetainsTokens(p, Amounts(tokens, 0, 0, 0), retained) <==> TakesTokens(p, tokens + retained)
  {
  }

  lemma NoMoreChildren(L: Ledger, D: Directory, a: Id)
    requires Sound(L, D) && a in L.accounts
    ensures L.accounts[a].limits.children.Some? ==> L.accounts[a].heldChildren <= L.accounts[a].limits.children.value
  {
    assert SoundAt(L, D, a, Tokens);
  }

  lemma DecisionFollows(L: Ledger, D: Directory, f: Fact)
    requires ReadyFor(L, D, f) && f.TokensDecided?
    ensures Follows(L, D, f)
  {
    FormFollowsRules(f);
    if f.request !in L.decisions { TokensFollowIssue(L, D, f.request, f.parent, f.child, f.tokens); }
    DecisionLeaves(L, D, f);
    hide Sound, FormRule, ParseIssue, TokenIssue, TokensRule, LeavesDecision;
  }

  lemma DecisionLeaves(L: Ledger, D: Directory, f: Fact)
    requires Sound(L, D) && f.TokensDecided?
    ensures Step(L, D, f).Success? ==> LeavesDecision(L, f, Step(L, D, f).value)
    ensures f.request in L.decisions ==> TokensRule(L, f.request, f.parent, f.child, f.tokens) == Some(RequestAlreadyDecided)
  {
    hide Sound, ParseIssue, HasCapacity, RetainsTokens;
  }

  lemma SpendFollows(L: Ledger, D: Directory, agent: Id, a: Amounts)
    requires Sound(L, D) && agent in L.accounts
    ensures AllActive(L.accounts[agent], a) <==> !InUnlimited(L.accounts[agent].limits, a)
    ensures HasCapacity(L.accounts[agent], a, 0) <==> TakesAll(L.accounts[agent], a)
  {
    NoMoreChildren(L, D, agent);
    hide Sound;
  }

  lemma ChargeFollows(L: Ledger, D: Directory, f: Fact)
    requires ReadyFor(L, D, f) && f.UsageCharged?
    ensures Follows(L, D, f)
  {
    FormFollowsRules(f);
    if f.agent in L.accounts { SpendFollows(L, D, f.agent, f.amounts); }
    hide Sound, FormRule, ParseIssue, AllActive, HasCapacity, InUnlimited, TakesAll;
  }

  lemma ReserveUsageFollows(L: Ledger, D: Directory, f: Fact)
    requires ReadyFor(L, D, f) && f.UsageReserved?
    ensures Follows(L, D, f)
  {
    FormFollowsRules(f);
    if f.agent in L.accounts { SpendFollows(L, D, f.agent, f.amounts); }
    hide Sound, FormRule, ParseIssue, AllActive, HasCapacity, InUnlimited, TakesAll;
  }

  lemma UsageShows(L: Ledger, D: Directory, rid: Id)
    requires Sound(L, D) && rid in L.usage
    ensures L.usage[rid].agent in L.accounts && (L.usage[rid].amounts.tokens > 0) != (L.usage[rid].amounts.wall > 0)
    ensures L.usage[rid].Active() ==> L.accounts[L.usage[rid].agent].reserved.Covers(L.usage[rid].amounts)
  {
    SoundShape(L, D);
    assert ShapeAt(L, D, rid);
    if L.usage[rid].Active() { ReservedCovers(L, D, rid); }
  }

  lemma StartFollows(L: Ledger, D: Directory, f: Fact)
    requires ReadyFor(L, D, f) && f.UsageStarted?
    ensures Follows(L, D, f)
  {
    FormFollowsRules(f);
    if f.rid in L.usage { UsageShows(L, D, f.rid); }
    hide Sound, FormRule, ParseIssue;
  }

  lemma SettleFollows(L: Ledger, D: Directory, f: Fact)
    requires ReadyFor(L, D, f) && f.UsageSettled?
    ensures Follows(L, D, f)
  {
    FormFollowsRules(f);
    if f.rid in L.usage {
      UsageShows(L, D, f.rid);
      SettlesFollows(L.usage[f.rid], f.amounts, f.quality);
    }
    hide Sound, FormRule, ParseIssue, SettlementMatches, Settles;
  }

  lemma SettlesFollows(h: UsageHold, a: Amounts, quality: Option<Quality>)
    ensures SettlementMatches(h, a, quality) <==> Settles(h, a, quality)
  {
  }

  lemma ReleaseUsageFollows(L: Ledger, D: Directory, f: Fact)
    requires ReadyFor(L, D, f) && f.UsageReleased?
    ensures Follows(L, D, f)
  {
    FormFollowsRules(f);
    if f.rid in L.usage { UsageShows(L, D, f.rid); }
    hide Sound, FormRule, ParseIssue;
  }

  lemma CloseFollows(L: Ledger, D: Directory, f: Fact)
    requires ReadyFor(L, D, f) && f.AccountClosed?
    ensures Follows(L, D, f)
  {
    FormFollowsRules(f);
    hide Sound, FormRule, ParseIssue;
  }

  /** Every fact, on every ledger a log replays to, is refused by the first rule
      it breaks, with that rule's code, and otherwise leaves what the rules say. */
  lemma StepFollowsRules(L: Ledger, D: Directory, f: Fact)
    requires Sound(L, D)
    ensures Step(L, D, f).Failure? <==> Broken(L, D, f).Some?
    ensures Step(L, D, f).Failure? ==> Broken(L, D, f) == Some(Step(L, D, f).error)
    ensures Step(L, D, f).Success? ==> Leaves(L, D, f, Step(L, D, f).value)
  {
    FormFollowsRules(f);
    if ParseIssue(f) == None && f.op !in L.operations {
      assert ReadyFor(L, D, f);
      hide Step, Sound, Broken, Leaves, ReadyFor;
      match f
      case RootGranted(_, _, _) => RootFollows(L, D, f);
      case ChildReserved(_, _, _, _, _, _, _, _) => ReserveFollows(L, D, f);
      case HoldCommitted(_, _) => CommitFollows(L, D, f);
      case HoldReleased(_, _) => ReleaseFollows(L, D, f);
      case TokensDecided(_, _, _, _, _, _) => DecisionFollows(L, D, f);
      case UsageCharged(_, _, _, _, _) => ChargeFollows(L, D, f);
      case UsageReserved(_, _, _, _) => ReserveUsageFollows(L, D, f);
      case UsageStarted(_, _) => StartFollows(L, D, f);
      case UsageSettled(_, _, _, _) => SettleFollows(L, D, f);
      case UsageReleased(_, _) => ReleaseUsageFollows(L, D, f);
      case AccountClosed(_, _) => CloseFollows(L, D, f);
    } else {
      hide Sound, Apply, OwnRule, Leaves, FormRule, ParseIssue;
    }
  }

  // ---- what a grant must leave its parent ----

  /** The tokens the parent of `f` must keep: those the reservation retains, or
      those the hold of the child it feeds does. */
  ghost predicate Retains(L: Ledger, f: Fact, retained: nat) {
    match f
    case ChildReserved(_, _, _, _, _, _, kept, _) => retained == kept
    case TokensDecided(_, _, _, child, tokens, _) =>
      tokens > 0 && exists r | r in L.holds :: L.holds[r].child == child && L.holds[r].retained == retained
    case _ => false
  }

  /** What it gives. */
  ghost predicate Gives(f: Fact, tokens: nat) {
    match f
    case ChildReserved(_, _, _, _, _, limits, _, initial) =>
      tokens == (if initial.Some? && initial.value > 0 then initial.value else if limits.tokens.Some? then limits.tokens.value else 0)
    case TokensDecided(_, _, _, _, n, _) => tokens == n
    case _ => false
  }

  ghost predicate Kept(p: Account, retained: nat) {
    p.limits.tokens.Some? ==> p.charged.tokens + p.delegated.tokens + p.reserved.tokens + retained <= p.limits.tokens.value
  }

  lemma ReservedKeeps(L: Ledger, D: Directory, f: Fact, N: Ledger)
    requires f.ChildReserved? && Broken(L, D, f).None? && LeavesHold(L, D, f, N)
    ensures f.parent in N.accounts && Kept(N.accounts[f.parent], f.retained)
  {
    hide FormRule, AllTighter, TakesAll;
  }

  lemma DecidedKeeps(L: Ledger, D: Directory, f: Fact, N: Ledger, r: Id)
    requires f.TokensDecided? && f.tokens > 0 && f.parent != f.child && Broken(L, D, f).None? && LeavesDecision(L, f, N)
    requires r in L.holds && L.holds[r].child == f.child
    ensures f.parent in N.accounts && Kept(N.accounts[f.parent], L.holds[r].retained)
  {
    hide FormRule, TakesAll;
  }

  /** After every accepted reservation, and every decision that gives tokens, a
      parent with a token limit still has the retained tokens to spend. */
  lemma RetainedTokensStay(L: Ledger, D: Directory, f: Fact, retained: nat)
    requires Sound(L, D) && Step(L, D, f).Success? && Retains(L, f, retained)
    ensures var N := Step(L, D, f).value;
      f.parent in N.accounts
      && var p := N.accounts[f.parent];
         p.limits.tokens.Some? ==>
           p.charged.tokens + p.delegated.tokens + p.reserved.tokens + retained <= p.limits.tokens.value
  {
    hide Step, Sound, Broken, LeavesHold, LeavesDecision;
    StepFollowsRules(L, D, f);
    if f.TokensDecided? {
      TokensPair(L, D, f);
      var r :| r in L.holds && L.holds[r].child == f.child && L.holds[r].retained == retained;
      DecidedKeeps(L, D, f, Step(L, D, f).value, r);
    } else {
      ReservedKeeps(L, D, f, Step(L, D, f).value);
    }
  }

  lemma TokensPair(L: Ledger, D: Directory, f: Fact)
    requires f.TokensDecided? && Sound(L, D) && Broken(L, D, f).None?
    ensures f.parent in L.accounts && f.child in L.accounts && L.accounts[f.child].parent == Some(f.parent) && f.parent != f.child
  {
    SoundShape(L, D);
    OnlyHold(L, D, f.child);
    hide Sound, Shape, FormRule;
  }

  predicate WouldPass(p: Account, more: nat) {
    p.limits.tokens.Some? && p.charged.tokens + p.delegated.tokens + p.reserved.tokens + more > p.limits.tokens.value
  }

  lemma ReserveRefusedFor(L: Ledger, D: Directory, f: Fact, given: nat)
    requires f.ChildReserved? && Gives(f, given)
    requires Broken(L, D, f).None? || Broken(L, D, f) == Some(RetainedTokensExhausted)
    ensures f.parent in L.accounts && (Broken(L, D, f).Some? <==> WouldPass(L.accounts[f.parent], given + f.retained))
  {
    hide AllTighter, TakesAll;
  }

  lemma DecisionRefusedFor(L: Ledger, D: Directory, f: Fact, r: Id)
    requires f.TokensDecided? && f.tokens > 0 && r in L.holds && L.holds[r].child == f.child
    requires forall s | s in L.holds && L.holds[s].child == f.child :: s == r
    requires Broken(L, D, f).None? || Broken(L, D, f) == Some(RetainedTokensExhausted)
    ensures f.parent in L.accounts
    ensures Broken(L, D, f).Some? <==> WouldPass(L.accounts[f.parent], f.tokens + L.holds[r].retained)
  {
    hide TakesAll;
  }

  /** With every other rule met it is refused for them if and only if what the
      parent spends, the grant and the retained tokens together pass its limit. */
  lemma RetainedRefusalExactly(L: Ledger, D: Directory, f: Fact, retained: nat, given: nat)
    requires Sound(L, D) && Retains(L, f, retained) && Gives(f, given)
    requires Step(L, D, f).Success? || Step(L, D, f) == Failure(RetainedTokensExhausted)
    ensures f.parent in L.accounts
    ensures Step(L, D, f).Failure? <==>
              var p := L.accounts[f.parent];
              p.limits.tokens.Some?
              && p.charged.tokens + p.delegated.tokens + p.reserved.tokens + given + retained > p.limits.tokens.value
  {
    hide Step, Sound, Shape, Broken, Leaves;
    StepFollowsRules(L, D, f);
    if f.TokensDecided? {
      SoundShape(L, D);
      TokensOwned(L, D, f);
      OnlyHold(L, D, f.child);
      var r :| r in L.holds && L.holds[r].child == f.child && L.holds[r].retained == retained;
      DecisionRefusedFor(L, D, f, r);
    } else {
      ReserveRefusedFor(L, D, f, given);
    }
  }

  lemma TokensOwned(L: Ledger, D: Directory, f: Fact)
    requires f.TokensDecided? && (Broken(L, D, f).None? || Broken(L, D, f) == Some(RetainedTokensExhausted))
    ensures f.parent in L.accounts && f.child in L.accounts && L.accounts[f.child].parent == Some(f.parent)
  {
  }
}
