/** The structure every replayable ledger has: who is whose parent, which hold
    stands for which child, and what the Directory says about each. */
module LedgerShape {
  import opened Prelude
  import opened Budget
  import opened Directory
  import opened Projection

  ghost predicate ChildIndexed(L: Ledger, c: Id) {
    c in L.heldChild ==> L.heldChild[c] in L.holds && L.holds[L.heldChild[c]].child == c
  }

  ghost predicate RequestIndexed(L: Ledger, q: Id) {
    q in L.heldRequest ==> L.heldRequest[q] in L.holds && L.holds[L.heldRequest[q]].request == q
  }

  ghost predicate Affords(parent: Limits, h: Hold) {
    && InitialLimits(h.limits, h.initial).Some?
    && ChildDebit(parent, h.limits).Success?
    && ChildDebit(parent, h.Granted()).Success?
  }

  /** The indexes find a hold, and its parent's account is older than it. */
  ghost predicate HoldIndexed(L: Ledger, r: Id) {
    r in L.holds ==>
      var h := L.holds[r];
      && h.child in L.heldChild && L.heldChild[h.child] == r
      && h.request in L.heldRequest && L.heldRequest[h.request] == r
      && h.parent in L.accounts && h.child != h.parent
      && L.accounts[h.parent].created < h.reservedAt <= L.head
  }

  /** The parent's limits still admit the hold, so a release re-validates. */
  ghost predicate HoldAfforded(L: Ledger, r: Id) {
    r in L.holds && L.holds[r].parent in L.accounts ==> Affords(L.accounts[L.holds[r].parent].limits, L.holds[r])
  }

  /** A hold is committed exactly when the Directory has its child, and then
      the child's account stands. */
  ghost predicate HoldNamed(L: Ledger, D: Directory, r: Id) {
    r in L.holds ==>
      var h := L.holds[r];
      && (h.status == Committed ==>
            && NamesExactly(D, h.parent, h.child, h.request)
            && h.child in L.accounts && L.accounts[h.child].parent == Some(h.parent)
            && L.accounts[h.child].created == h.reservedAt)
      && (h.status != Committed ==> NamesNeither(D, h.child, h.request) && h.child !in L.accounts)
  }

  ghost predicate HoldStaged(L: Ledger, r: Id) {
    r in L.holds ==>
      var h := L.holds[r];
      && (h.status == Pending ==> h.terminalAt == None)
      && (h.status == Pending && h.parent in L.accounts ==> L.accounts[h.parent].Open())
      && (h.status == Released ==> h.terminalAt.Some?)
  }

  /** Apart from its tokens a child keeps the limits it was granted. */
  ghost predicate SameButTokens(l: Limits, granted: Limits) {
    l.(tokens := granted.tokens) == granted && (l.tokens.Some? <==> granted.tokens.Some?)
  }

  ghost predicate AccountKnown(L: Ledger, D: Directory, id: Id) {
    id in L.accounts ==>
      var a := L.accounts[id];
      && 1 <= a.created <= L.head
      && (a.parent.None? ==> id !in L.heldChild && D.Find(id).Some? && D.Find(id).value.who.owner == None)
      && (a.parent.Some? ==>
            && id in L.heldChild && L.heldChild[id] in L.holds
            && var h := L.holds[L.heldChild[id]];
               h.status == Committed && a.parent == Some(h.parent) && SameButTokens(a.limits, h.Granted()))
  }

  ghost predicate UsageKnown(L: Ledger, r: Id) {
    r in L.usage ==>
      var h := L.usage[r];
      && r !in L.holds && h.agent in L.accounts && SingleDimension(h.amounts)
      && (h.settled.Some? <==> h.status == Settled)
      && (h.Active() ==> L.accounts[h.agent].Open())
  }

  ghost predicate DecisionKnown(L: Ledger, q: Id) {
    q in L.decisions ==>
      var d := L.decisions[q];
      d.child in L.accounts && L.accounts[d.child].parent == Some(d.parent)
      && d.parent in L.accounts && L.accounts[d.child].limits.tokens.Some?
  }

  ghost predicate ChargeKnown(L: Ledger, op: Id) {
    op in L.charges ==> op in L.operations && L.charges[op].agent in L.accounts
  }

  /** Everything the shape says about one identifier, in any of its roles. */
  ghost predicate ShapeAt(L: Ledger, D: Directory, k: Id) {
    && ChildIndexed(L, k) && RequestIndexed(L, k)
    && HoldIndexed(L, k) && HoldAfforded(L, k) && HoldNamed(L, D, k) && HoldStaged(L, k)
    && AccountKnown(L, D, k) && UsageKnown(L, k) && DecisionKnown(L, k) && ChargeKnown(L, k)
  }

  ghost predicate Shape(L: Ledger, D: Directory) {
    forall k {:trigger ShapeAt(L, D, k)} :: ShapeAt(L, D, k)
  }

  // ---- what each accepted fact does to the ledger ----

  /** What a hold takes from its parent. */
  function Paid(h: Hold): Amounts {
    var g := h.Granted();
    Amounts(g.Carved(Tokens), g.Carved(Steps), g.Carved(ToolCalls), g.Carved(Wall))
  }

  /** Every fact advances the head and is remembered by its operation. */
  ghost predicate Advanced(L: Ledger, N: Ledger) {
    N.head == L.head + 1 && L.operations.Keys <= N.operations.Keys
  }

  ghost predicate RootEffect(L: Ledger, D: Directory, N: Ledger, agent: Id, limits: Limits) {
    && Advanced(L, N) && agent !in L.accounts
    && D.Find(agent).Some? && D.Find(agent).value.who.owner == None
    && N == L.(accounts := L.accounts[agent := FreshAccount(None, limits, N.head)],
               operations := N.operations, head := N.head)
  }

  /** The accounts once the parent has paid for `h`. */
  function Debited(L: Ledger, h: Hold): map<Id, Account>
    requires h.parent in L.accounts
  {
    var p := L.accounts[h.parent];
    L.accounts[h.parent := p.(delegated := p.delegated.Plus(Paid(h)), heldChildren := p.heldChildren + 1)]
  }

  ghost predicate ReserveEffect(L: Ledger, D: Directory, N: Ledger, rid: Id, h: Hold) {
    && Advanced(L, N)
    && h.parent in L.accounts && L.accounts[h.parent].Open() && h.child != h.parent
    && rid !in L.holds && rid !in L.usage
    && h.child !in L.accounts && h.child !in L.heldChild && h.request !in L.heldRequest
    && h.reservedAt == N.head && h.terminalAt == None && h.status != Released
    && Affords(L.accounts[h.parent].limits, h)
    && HasCapacity(L.accounts[h.parent], Paid(h), 1)
    && RetainsTokens(L.accounts[h.parent], Paid(h), h.retained)
    && (if h.status == Committed then NamesExactly(D, h.parent, h.child, h.request)
        else NamesNeither(D, h.child, h.request))
    && N == L.(
         accounts := if h.status == Committed
                     then Debited(L, h)[h.child := FreshAccount(Some(h.parent), h.Granted(), h.reservedAt)]
                     else Debited(L, h),
         holds := L.holds[rid := h], heldChild := L.heldChild[h.child := rid],
         heldRequest := L.heldRequest[h.request := rid], operations := N.operations, head := N.head)
  }

  /** Within one replay a commit only acknowledges: the child's account is
      already there, so the account-creating branch is never taken. */
  ghost predicate CommitEffect(L: Ledger, N: Ledger, rid: Id, h: Hold) {
    && Advanced(L, N) && rid in L.holds && L.holds[rid].status == Committed
    && h == L.holds[rid].(terminalAt := h.terminalAt, identityAt := h.identityAt)
    && L.holds[rid].terminalAt == None && h.terminalAt == Some(N.head)
    && N == L.(holds := L.holds[rid := h], operations := N.operations, head := N.head)
  }

  ghost predicate ReleaseEffect(L: Ledger, D: Directory, N: Ledger, rid: Id, h: Hold) {
    && Advanced(L, N) && rid in L.holds && h == L.holds[rid] && h.status == Pending
    && NamesNeither(D, h.child, h.request)
    && h.parent in L.accounts && L.accounts[h.parent].delegated.Covers(Paid(h))
    && var p := L.accounts[h.parent];
       N == L.(accounts := L.accounts[h.parent := p.(delegated := p.delegated.Minus(Paid(h)),
                                                     heldChildren := p.heldChildren - 1)],
               holds := L.holds[rid := h.(status := Released, terminalAt := Some(N.head))],
               operations := N.operations, head := N.head)
  }

  ghost predicate DecideEffect(L: Ledger, N: Ledger, request: Id, q: Decision) {
    && Advanced(L, N) && request !in L.decisions && q.child != q.parent
    && TokenIssue(L, q.parent, q.child, q.tokens) == None
    && var p, c := L.accounts[q.parent], L.accounts[q.child];
       N == L.(accounts := L.accounts[q.parent := p.(delegated := p.delegated.Plus(Amounts(q.tokens, 0, 0, 0)))]
                                     [q.child := c.(limits := c.limits.(tokens := Some(c.limits.tokens.value + q.tokens)))],
               decisions := L.decisions[request := q], operations := N.operations, head := N.head)
  }

  ghost predicate ChargeEffect(L: Ledger, N: Ledger, op: Id, c: Charge) {
    && Advanced(L, N) && op in N.operations && op !in L.charges && c.agent in L.accounts
    && L.accounts[c.agent].Open() && AllActive(L.accounts[c.agent], c.amounts)
    && (c.mode == Admission ==> HasCapacity(L.accounts[c.agent], c.amounts, 0))
    && var a := L.accounts[c.agent];
       N == L.(accounts := L.accounts[c.agent := a.(charged := a.charged.Plus(c.amounts))],
               charges := L.charges[op := c], operations := N.operations, head := N.head)
  }

  function ActiveAmount(h: UsageHold, d: Dim): nat { if h.Active() then h.amounts.Get(d) else 0 }

  function SettledAmount(h: UsageHold, d: Dim): nat { if h.settled.Some? then h.settled.value.Get(d) else 0 }

  /** One usage hold moved to `h`; its account's balances followed, and an
      existing hold never claims more than it did. */
  ghost predicate UsageEffect(L: Ledger, N: Ledger, rid: Id, h: UsageHold) {
    && Advanced(L, N) && h.agent in L.accounts && h.agent in N.accounts
    && SingleDimension(h.amounts) && (h.settled.Some? <==> h.status == Settled)
    && var b, a := L.accounts[h.agent], N.accounts[h.agent];
       && a == b.(reserved := a.reserved, charged := a.charged)
       && (if rid in L.usage
           then UsageMoves(L.usage[rid], h, b, a)
           else && rid !in L.holds && b.Open() && h.status == UsagePending && HasCapacity(b, h.amounts, 0)
                && a.reserved == b.reserved.Plus(h.amounts) && a.charged == b.charged)
       && N == L.(accounts := L.accounts[h.agent := a], usage := L.usage[rid := h],
                  operations := N.operations, head := N.head)
  }

  ghost predicate UsageMoves(from: UsageHold, h: UsageHold, b: Account, a: Account) {
    && h.agent == from.agent && h.amounts == from.amounts && from.Active() && from.settled == None
    && (forall d :: && ActiveAmount(h, d) + SettledAmount(h, d) <= ActiveAmount(from, d)
                    && a.reserved.Get(d) == b.reserved.Get(d) + ActiveAmount(h, d) - ActiveAmount(from, d)
                    && a.charged.Get(d) == b.charged.Get(d) + SettledAmount(h, d))
  }

  ghost predicate CloseEffect(L: Ledger, N: Ledger, agent: Id) {
    && Advanced(L, N) && agent in L.accounts && L.accounts[agent].Open() && MayClose(L, agent)
    && N == L.(accounts := L.accounts[agent := L.accounts[agent].(closed := Some(N.head))],
               operations := N.operations, head := N.head)
  }

  /** The effect of an accepted fact, whichever it is. */
  ghost predicate Effect(L: Ledger, D: Directory, N: Ledger, f: Fact) {
    match f
    case RootGranted(_, agent, limits) => RootEffect(L, D, N, agent, limits)
    case ChildReserved(_, rid, parent, child, request, limits, retained, initial) =>
      rid in N.holds && ReserveEffect(L, D, N, rid, N.holds[rid])
      && var h := N.holds[rid];
         h == Hold(parent, child, request, limits, retained, initial, h.status, N.head, None, h.identityAt)
    case HoldCommitted(_, rid) => rid in N.holds && CommitEffect(L, N, rid, N.holds[rid])
    case HoldReleased(_, rid) => rid in L.holds && ReleaseEffect(L, D, N, rid, L.holds[rid])
    case TokensDecided(op, request, parent, child, tokens, reason) =>
      DecideEffect(L, N, request, Decision(parent, child, tokens, reason, op, N.head))
    case UsageCharged(op, agent, amounts, mode, quality) =>
      ChargeEffect(L, N, op, Charge(agent, amounts, mode, quality, N.head))
    case UsageReserved(_, rid, agent, amounts) =>
      rid in N.usage && rid !in L.usage && UsageEffect(L, N, rid, N.usage[rid])
      && N.usage[rid].agent == agent && N.usage[rid].amounts == amounts
    case UsageStarted(_, rid) =>
      rid in N.usage && rid in L.usage && UsageEffect(L, N, rid, N.usage[rid])
      && L.usage[rid].status == UsagePending && N.usage[rid].status == Started
    case UsageSettled(_, rid, amounts, quality) =>
      rid in N.usage && rid in L.usage && UsageEffect(L, N, rid, N.usage[rid])
      && L.usage[rid].status == Started && N.usage[rid].status == Settled && N.usage[rid].settled == Some(amounts)
    case UsageReleased(_, rid) =>
      rid in N.usage && rid in L.usage && UsageEffect(L, N, rid, N.usage[rid])
      && L.usage[rid].status == UsagePending && N.usage[rid].status == Dropped
    case AccountClosed(_, agent) => CloseEffect(L, N, agent)
  }

  lemma RootHasEffect(L: Ledger, D: Directory, f: Fact)
    requires f.RootGranted? && Step(L, D, f).Success?
    ensures Effect(L, D, Step(L, D, f).value, f)
  {
  }

  lemma ReservationIsAffordable(p: Account, h: Hold)
    requires ReservationDebit(p, h.limits, h.retained, h.initial).Success?
    ensures ReservationDebit(p, h.limits, h.retained, h.initial).value == Paid(h)
    ensures Affords(p.limits, h) && HasCapacity(p, Paid(h), 1) && RetainsTokens(p, Paid(h), h.retained)
  {
  }

  lemma ReserveHasEffect(L: Ledger, D: Directory, f: Fact)
    requires f.ChildReserved? && Step(L, D, f).Success?
    ensures Effect(L, D, Step(L, D, f).value, f)
  {
    hide ReservationDebit, HasCapacity, RetainsTokens, Affords, Paid;
    ReservationIsAffordable(L.accounts[f.parent], Step(L, D, f).value.holds[f.rid]);
  }

  lemma CommitHasEffect(L: Ledger, D: Directory, f: Fact)
    requires Shape(L, D) && f.HoldCommitted? && Step(L, D, f).Success?
    ensures Effect(L, D, Step(L, D, f).value, f)
  {
    assert ShapeAt(L, D, f.rid);
  }

  lemma ReleaseHasEffect(L: Ledger, D: Directory, f: Fact)
    requires f.HoldReleased? && Step(L, D, f).Success?
    ensures Effect(L, D, Step(L, D, f).value, f)
  {
  }

  lemma DecideHasEffect(L: Ledger, D: Directory, f: Fact)
    requires Shape(L, D) && f.TokensDecided? && Step(L, D, f).Success?
    ensures Effect(L, D, Step(L, D, f).value, f)
  {
    hide HasCapacity, RetainsTokens, ShapeAt;
    NoChildOfItself(L, D, f.child);
  }

  lemma NoChildOfItself(L: Ledger, D: Directory, c: Id)
    requires Shape(L, D) && c in L.accounts && c in L.heldChild
    ensures L.accounts[c].parent != Some(c)
  {
    hide HoldAfforded, HoldNamed, HoldStaged;
    assert ShapeAt(L, D, c) && ShapeAt(L, D, L.heldChild[c]);
  }

  lemma ChargeHasEffect(L: Ledger, D: Directory, f: Fact)
    requires Shape(L, D) && f.UsageCharged? && Step(L, D, f).Success?
    ensures Effect(L, D, Step(L, D, f).value, f)
  {
    assert ShapeAt(L, D, f.op);
  }

  lemma ReserveUsageHasEffect(L: Ledger, D: Directory, f: Fact)
    requires f.UsageReserved? && Step(L, D, f).Success?
    ensures Effect(L, D, Step(L, D, f).value, f)
  {
  }

  lemma StartHasEffect(L: Ledger, D: Directory, f: Fact)
    requires Shape(L, D) && f.UsageStarted? && Step(L, D, f).Success?
    ensures Effect(L, D, Step(L, D, f).value, f)
  {
    assert ShapeAt(L, D, f.rid);
    var N := Step(L, D, f).value;
    assert N.accounts == L.accounts[L.usage[f.rid].agent := L.accounts[L.usage[f.rid].agent]];
  }

  lemma SettleHasEffect(L: Ledger, D: Directory, f: Fact)
    requires Shape(L, D) && f.UsageSettled? && Step(L, D, f).Success?
    ensures Effect(L, D, Step(L, D, f).value, f)
  {
    assert ShapeAt(L, D, f.rid);
  }

  lemma ReleaseUsageHasEffect(L: Ledger, D: Directory, f: Fact)
    requires Shape(L, D) && f.UsageReleased? && Step(L, D, f).Success?
    ensures Effect(L, D, Step(L, D, f).value, f)
  {
    assert ShapeAt(L, D, f.rid);
  }

  lemma CloseHasEffect(L: Ledger, D: Directory, f: Fact)
    requires f.AccountClosed? && Step(L, D, f).Success?
    ensures Effect(L, D, Step(L, D, f).value, f)
  {
  }

  lemma StepHasEffect(L: Ledger, D: Directory, f: Fact)
    requires Shape(L, D) && Step(L, D, f).Success?
    ensures Effect(L, D, Step(L, D, f).value, f)
  {
    hide Step, Effect;
    match f
    case RootGranted(_, _, _) => RootHasEffect(L, D, f);
    case ChildReserved(_, _, _, _, _, _, _, _) => ReserveHasEffect(L, D, f);
    case HoldCommitted(_, _) => CommitHasEffect(L, D, f);
    case HoldReleased(_, _) => ReleaseHasEffect(L, D, f);
    case TokensDecided(_, _, _, _, _, _) => DecideHasEffect(L, D, f);
    case UsageCharged(_, _, _, _, _) => ChargeHasEffect(L, D, f);
    case UsageReserved(_, _, _, _) => ReserveUsageHasEffect(L, D, f);
    case UsageStarted(_, _) => StartHasEffect(L, D, f);
    case UsageSettled(_, _, _, _) => SettleHasEffect(L, D, f);
    case UsageReleased(_, _) => ReleaseUsageHasEffect(L, D, f);
    case AccountClosed(_, _) => CloseHasEffect(L, D, f);
  }

  // ---- each accepted fact keeps the shape ----

  lemma RootKeepsShape(L: Ledger, D: Directory, N: Ledger, agent: Id, limits: Limits)
    requires Shape(L, D) && RootEffect(L, D, N, agent, limits)
    ensures Shape(N, D)
  {
    assert ShapeAt(L, D, agent);
    assert ShapeAt(L, D, if agent in L.heldChild then L.heldChild[agent] else agent);
    forall k ensures ShapeAt(N, D, k) { assert ShapeAt(L, D, k); }
  }

  lemma ReserveKeepsHolds(L: Ledger, D: Directory, N: Ledger, rid: Id, h: Hold, k: Id)
    requires Shape(L, D) && ReserveEffect(L, D, N, rid, h)
    ensures HoldIndexed(N, k)
  {
    hide HasCapacity, RetainsTokens, NamesExactly, NamesNeither, Paid, Affords, HoldAfforded, HoldNamed, HoldStaged;
    assert ShapeAt(L, D, h.parent) && ShapeAt(L, D, k);
  }

  lemma ReserveKeepsAfforded(L: Ledger, D: Directory, N: Ledger, rid: Id, h: Hold, k: Id)
    requires Shape(L, D) && ReserveEffect(L, D, N, rid, h)
    ensures HoldAfforded(N, k)
  {
    hide HasCapacity, RetainsTokens, NamesExactly, NamesNeither, Paid, Affords, HoldNamed, HoldStaged, UsageKnown;
    assert ShapeAt(L, D, k);
  }

  lemma ReserveKeepsNames(L: Ledger, D: Directory, N: Ledger, rid: Id, h: Hold, k: Id)
    requires Shape(L, D) && ReserveEffect(L, D, N, rid, h)
    ensures HoldNamed(N, D, k) && HoldStaged(N, k)
  {
    assert ShapeAt(L, D, h.parent) && ShapeAt(L, D, k);
  }

  lemma ReserveKeepsAccounts(L: Ledger, D: Directory, N: Ledger, rid: Id, h: Hold, k: Id)
    requires Shape(L, D) && ReserveEffect(L, D, N, rid, h)
    ensures AccountKnown(N, D, k)
  {
    assert ShapeAt(L, D, h.parent) && ShapeAt(L, D, k);
    if k == h.child {
    } else if k == h.parent {
    } else {
    }
  }

  lemma ReserveKeepsUsage(L: Ledger, D: Directory, N: Ledger, rid: Id, h: Hold, k: Id)
    requires Shape(L, D) && ReserveEffect(L, D, N, rid, h)
    ensures UsageKnown(N, k)
  {
    assert ShapeAt(L, D, k);
  }

  lemma ReserveKeepsIndexes(L: Ledger, D: Directory, N: Ledger, rid: Id, h: Hold, k: Id)
    requires Shape(L, D) && ReserveEffect(L, D, N, rid, h)
    ensures ChildIndexed(N, k) && RequestIndexed(N, k) && DecisionKnown(N, k) && ChargeKnown(N, k)
  {
    assert ShapeAt(L, D, k);
  }

  lemma ReserveKeepsShape(L: Ledger, D: Directory, N: Ledger, rid: Id, h: Hold)
    requires Shape(L, D) && ReserveEffect(L, D, N, rid, h)
    ensures Shape(N, D)
  {
    hide ReserveEffect;
    forall k ensures ShapeAt(N, D, k) {
      ReserveKeepsHolds(L, D, N, rid, h, k);
      ReserveKeepsAfforded(L, D, N, rid, h, k);
      ReserveKeepsNames(L, D, N, rid, h, k);
      ReserveKeepsAccounts(L, D, N, rid, h, k);
      ReserveKeepsUsage(L, D, N, rid, h, k);
      ReserveKeepsIndexes(L, D, N, rid, h, k);
    }
  }

  lemma CommitKeepsShape(L: Ledger, D: Directory, N: Ledger, rid: Id, h: Hold)
    requires Shape(L, D) && CommitEffect(L, N, rid, h)
    ensures Shape(N, D)
  {
    assert ShapeAt(L, D, rid);
    forall k ensures ShapeAt(N, D, k) { assert ShapeAt(L, D, k); }
  }

  lemma ReleaseKeepsShape(L: Ledger, D: Directory, N: Ledger, rid: Id, h: Hold)
    requires Shape(L, D) && ReleaseEffect(L, D, N, rid, h)
    ensures Shape(N, D)
  {
    assert ShapeAt(L, D, rid);
    forall k ensures ShapeAt(N, D, k) { assert ShapeAt(L, D, k); }
  }

  lemma DecideKeepsShape(L: Ledger, D: Directory, N: Ledger, request: Id, q: Decision)
    requires Shape(L, D) && DecideEffect(L, N, request, q)
    ensures Shape(N, D)
  {
    hide HasCapacity, RetainsTokens, NamesExactly, NamesNeither, Affords, HoldAfforded;
    forall k ensures ShapeAt(N, D, k) {
      assert ShapeAt(L, D, k);
      DecideKeepsAfforded(L, D, N, request, q, k);
    }
  }

  lemma DecideKeepsAfforded(L: Ledger, D: Directory, N: Ledger, request: Id, q: Decision, k: Id)
    requires Shape(L, D) && DecideEffect(L, N, request, q)
    ensures HoldAfforded(N, k)
  {
    hide HasCapacity, RetainsTokens, NamesExactly, NamesNeither, HoldNamed, HoldStaged, UsageKnown, DecisionKnown;
    assert ShapeAt(L, D, k);
  }

  lemma ChargeKeepsShape(L: Ledger, D: Directory, N: Ledger, op: Id, c: Charge)
    requires Shape(L, D) && ChargeEffect(L, N, op, c)
    ensures Shape(N, D)
  {
    forall k ensures ShapeAt(N, D, k) { assert ShapeAt(L, D, k); }
  }

  lemma UsageKeepsShape(L: Ledger, D: Directory, N: Ledger, rid: Id, h: UsageHold)
    requires Shape(L, D) && UsageEffect(L, N, rid, h)
    ensures Shape(N, D)
  {
    hide HasCapacity, SettledAmount, Affords, NamesExactly, NamesNeither;
    assert ShapeAt(L, D, rid);
    forall k ensures ShapeAt(N, D, k) { assert ShapeAt(L, D, k); }
  }

  lemma CloseKeepsShape(L: Ledger, D: Directory, N: Ledger, agent: Id)
    requires Shape(L, D) && CloseEffect(L, N, agent)
    ensures Shape(N, D)
  {
    forall k ensures ShapeAt(N, D, k) { assert ShapeAt(L, D, k); }
  }

  lemma EffectKeepsShape(L: Ledger, D: Directory, N: Ledger, f: Fact)
    requires Shape(L, D) && Effect(L, D, N, f)
    ensures Shape(N, D)
  {
    hide Shape, RootEffect, ReserveEffect, CommitEffect, ReleaseEffect, DecideEffect, ChargeEffect, UsageEffect, CloseEffect;
    match f
    case RootGranted(_, agent, limits) => RootKeepsShape(L, D, N, agent, limits);
    case ChildReserved(_, rid, _, _, _, _, _, _) => ReserveKeepsShape(L, D, N, rid, N.holds[rid]);
    case HoldCommitted(_, rid) => CommitKeepsShape(L, D, N, rid, N.holds[rid]);
    case HoldReleased(_, rid) => ReleaseKeepsShape(L, D, N, rid, L.holds[rid]);
    case TokensDecided(op, request, parent, child, tokens, reason) =>
      DecideKeepsShape(L, D, N, request, Decision(parent, child, tokens, reason, op, N.head));
    case UsageCharged(op, agent, amounts, mode, quality) =>
      ChargeKeepsShape(L, D, N, op, Charge(agent, amounts, mode, quality, N.head));
    case UsageReserved(_, rid, _, _) => UsageKeepsShape(L, D, N, rid, N.usage[rid]);
    case UsageStarted(_, rid) => UsageKeepsShape(L, D, N, rid, N.usage[rid]);
    case UsageSettled(_, rid, _, _) => UsageKeepsShape(L, D, N, rid, N.usage[rid]);
    case UsageReleased(_, rid) => UsageKeepsShape(L, D, N, rid, N.usage[rid]);
    case AccountClosed(_, agent) => CloseKeepsShape(L, D, N, agent);
  }
}
