/** Exact bookkeeping: every balance of every account is a sum over facts. */
module LedgerBooks {
  import opened Prelude
  import opened Sums
  import opened Budget
  import opened Directory
  import opened Projection
  import opened LedgerShape

  // ---- what one entry contributes to account `a` in dimension `d` ----

  function HeldW(a: Id, d: Dim): UsageHold -> int {
    (h: UsageHold) => if h.agent == a && h.Active() then h.amounts.Get(d) else 0
  }

  function SettledW(a: Id, d: Dim): UsageHold -> int {
    (h: UsageHold) => if h.agent == a && h.settled.Some? then h.settled.value.Get(d) else 0
  }

  function ChargedW(a: Id, d: Dim): Charge -> int {
    (c: Charge) => if c.agent == a then c.amounts.Get(d) else 0
  }

  function ObservedW(a: Id, d: Dim): Charge -> int {
    (c: Charge) => if c.agent == a && c.mode == Observation then c.amounts.Get(d) else 0
  }

  function CarvedW(a: Id, d: Dim): Hold -> int {
    (h: Hold) => if h.parent == a && h.status != Released then Paid(h).Get(d) else 0
  }

  function PendingW(a: Id, d: Dim): Hold -> int {
    (h: Hold) => if h.parent == a && h.status == Pending then Paid(h).Get(d) else 0
  }

  function UnreleasedW(a: Id): Hold -> int {
    (h: Hold) => if h.parent == a && h.status != Released then 1 else 0
  }

  /** Tokens `a` gave to existing children by later decisions. */
  function GaveW(a: Id): Decision -> int { (q: Decision) => if q.parent == a then q.tokens else 0 }

  /** Tokens `c` received by later decisions. */
  function GotW(c: Id): Decision -> int { (q: Decision) => if q.child == c then q.tokens else 0 }

  function ChildCapW(p: Id, d: Dim): Account -> int {
    (c: Account) => if c.parent == Some(p) then c.limits.Carved(d) else 0
  }

  /** The account's balances, or none for an unknown account. */
  function Balance(L: Ledger, a: Id): Account {
    if a in L.accounts then L.accounts[a]
    else FreshAccount(None, Limits(None, None, None, None, None, None, None), 0)
  }

  ghost function Observed(L: Ledger, a: Id, d: Dim): int { Total(L.charges, ObservedW(a, d)) }

  ghost predicate ReservedExact(L: Ledger, a: Id, d: Dim) {
    Balance(L, a).reserved.Get(d) == Total(L.usage, HeldW(a, d))
  }

  ghost predicate ChargedExact(L: Ledger, a: Id, d: Dim) {
    Balance(L, a).charged.Get(d) == Total(L.charges, ChargedW(a, d)) + Total(L.usage, SettledW(a, d))
  }

  ghost predicate DelegatedExact(L: Ledger, a: Id, d: Dim) {
    Balance(L, a).delegated.Get(d)
    == Total(L.holds, CarvedW(a, d)) + (if d == Tokens then Total(L.decisions, GaveW(a)) else 0)
  }

  /** What is delegated is what the children may spend plus what is still held
      for children that do not exist yet. */
  ghost predicate DelegatedToChildren(L: Ledger, a: Id, d: Dim) {
    Balance(L, a).delegated.Get(d) == Total(L.accounts, ChildCapW(a, d)) + Total(L.holds, PendingW(a, d))
  }

  ghost predicate ChildrenExact(L: Ledger, a: Id) {
    Balance(L, a).heldChildren == Total(L.holds, UnreleasedW(a))
  }

  ghost predicate BooksAt(L: Ledger, a: Id, d: Dim) {
    ReservedExact(L, a, d) && ChargedExact(L, a, d) && DelegatedExact(L, a, d)
    && DelegatedToChildren(L, a, d) && ChildrenExact(L, a)
  }

  // ---- each accepted fact keeps the books ----

  lemma UsageKeepsBooksAt(L: Ledger, N: Ledger, rid: Id, h: UsageHold, a: Id, d: Dim)
    requires BooksAt(L, a, d) && UsageEffect(L, N, rid, h)
    ensures BooksAt(N, a, d)
  {
    hide Sum, Total, At, HasCapacity, SingleDimension;
    TotalPut(L.usage, rid, h, HeldW(a, d));
    TotalPut(L.usage, rid, h, SettledW(a, d));
    TotalPut(L.accounts, h.agent, N.accounts[h.agent], ChildCapW(a, d));
  }

  lemma ChargeMovesObserved(L: Ledger, N: Ledger, op: Id, c: Charge, a: Id, d: Dim)
    requires ChargeEffect(L, N, op, c)
    ensures Observed(N, a, d) == Observed(L, a, d) + (if c.agent == a && c.mode == Observation then c.amounts.Get(d) else 0)
  {
    hide Sum, Total, At;
    TotalPut(L.charges, op, c, ObservedW(a, d));
  }

  lemma ChargeKeepsBooksAt(L: Ledger, N: Ledger, op: Id, c: Charge, a: Id, d: Dim)
    requires BooksAt(L, a, d) && ChargeEffect(L, N, op, c)
    ensures BooksAt(N, a, d)
  {
    hide Sum, Total, At;
    TotalPut(L.charges, op, c, ChargedW(a, d));
    TotalPut(L.accounts, c.agent, N.accounts[c.agent], ChildCapW(a, d));
  }

  lemma RootKeepsBooksAt(L: Ledger, D: Directory, N: Ledger, agent: Id, limits: Limits, a: Id, d: Dim)
    requires BooksAt(L, a, d) && RootEffect(L, D, N, agent, limits)
    ensures BooksAt(N, a, d)
  {
    hide Sum, Total, At;
    TotalPut(L.accounts, agent, N.accounts[agent], ChildCapW(a, d));
  }

  lemma ReserveMovesHolds(L: Ledger, D: Directory, N: Ledger, rid: Id, h: Hold, a: Id, d: Dim)
    requires ReserveEffect(L, D, N, rid, h)
    ensures Total(N.holds, CarvedW(a, d)) == Total(L.holds, CarvedW(a, d)) + (if h.parent == a then Paid(h).Get(d) else 0)
    ensures Total(N.holds, PendingW(a, d)) == Total(L.holds, PendingW(a, d))
              + (if h.parent == a && h.status == Pending then Paid(h).Get(d) else 0)
    ensures Total(N.holds, UnreleasedW(a)) == Total(L.holds, UnreleasedW(a)) + (if h.parent == a then 1 else 0)
  {
    hide Sum, Total, At;
    TotalPut(L.holds, rid, h, CarvedW(a, d));
    TotalPut(L.holds, rid, h, PendingW(a, d));
    TotalPut(L.holds, rid, h, UnreleasedW(a));
  }

  lemma ReserveMovesAccounts(L: Ledger, D: Directory, N: Ledger, rid: Id, h: Hold, a: Id, d: Dim)
    requires ReserveEffect(L, D, N, rid, h)
    ensures Total(N.accounts, ChildCapW(a, d)) == Total(L.accounts, ChildCapW(a, d))
              + (if h.parent == a && h.status == Committed then Paid(h).Get(d) else 0)
  {
    hide Sum, Total, At;
    TotalPut(L.accounts, h.parent, Debited(L, h)[h.parent], ChildCapW(a, d));
    if h.status == Committed {
      TotalPut(Debited(L, h), h.child, N.accounts[h.child], ChildCapW(a, d));
    }
  }

  lemma ReserveMovesBalance(L: Ledger, D: Directory, N: Ledger, rid: Id, h: Hold, a: Id, d: Dim)
    requires ReserveEffect(L, D, N, rid, h)
    ensures N.usage == L.usage && N.charges == L.charges && N.decisions == L.decisions
    ensures Balance(N, a).reserved == Balance(L, a).reserved && Balance(N, a).charged == Balance(L, a).charged
    ensures Balance(N, a).delegated.Get(d) == Balance(L, a).delegated.Get(d) + (if h.parent == a then Paid(h).Get(d) else 0)
    ensures Balance(N, a).heldChildren == Balance(L, a).heldChildren + (if h.parent == a then 1 else 0)
  {
  }

  lemma ReserveKeepsBooksAt(L: Ledger, D: Directory, N: Ledger, rid: Id, h: Hold, a: Id, d: Dim)
    requires BooksAt(L, a, d) && ReserveEffect(L, D, N, rid, h)
    ensures BooksAt(N, a, d)
  {
    hide Total, Paid, CarvedW, PendingW, UnreleasedW, ChildCapW;
    ReserveMovesHolds(L, D, N, rid, h, a, d);
    ReserveMovesAccounts(L, D, N, rid, h, a, d);
    ReserveMovesBalance(L, D, N, rid, h, a, d);
  }

  lemma CommitKeepsBooksAt(L: Ledger, N: Ledger, rid: Id, h: Hold, a: Id, d: Dim)
    requires BooksAt(L, a, d) && CommitEffect(L, N, rid, h)
    ensures BooksAt(N, a, d)
  {
    hide Sum, Total, At;
    TotalPut(L.holds, rid, h, CarvedW(a, d));
    TotalPut(L.holds, rid, h, PendingW(a, d));
    TotalPut(L.holds, rid, h, UnreleasedW(a));
  }

  lemma ReleaseMovesHolds(L: Ledger, D: Directory, N: Ledger, rid: Id, h: Hold, a: Id, d: Dim)
    requires ReleaseEffect(L, D, N, rid, h)
    ensures Total(N.holds, CarvedW(a, d)) == Total(L.holds, CarvedW(a, d)) - (if h.parent == a then Paid(h).Get(d) else 0)
    ensures Total(N.holds, PendingW(a, d)) == Total(L.holds, PendingW(a, d)) - (if h.parent == a then Paid(h).Get(d) else 0)
    ensures Total(N.holds, UnreleasedW(a)) == Total(L.holds, UnreleasedW(a)) - (if h.parent == a then 1 else 0)
  {
    hide Sum, Total, At;
    TotalPut(L.holds, rid, N.holds[rid], CarvedW(a, d));
    TotalPut(L.holds, rid, N.holds[rid], PendingW(a, d));
    TotalPut(L.holds, rid, N.holds[rid], UnreleasedW(a));
  }

  lemma ReleaseKeepsBooksAt(L: Ledger, D: Directory, N: Ledger, rid: Id, h: Hold, a: Id, d: Dim)
    requires BooksAt(L, a, d) && ReleaseEffect(L, D, N, rid, h)
    ensures BooksAt(N, a, d)
  {
    hide Sum, Total, At, Paid;
    ReleaseMovesHolds(L, D, N, rid, h, a, d);
    TotalPut(L.accounts, h.parent, N.accounts[h.parent], ChildCapW(a, d));
  }

  lemma DecideMovesAccounts(L: Ledger, N: Ledger, request: Id, q: Decision, a: Id, d: Dim)
    requires DecideEffect(L, N, request, q)
    ensures Total(N.accounts, ChildCapW(a, d)) == Total(L.accounts, ChildCapW(a, d))
              + (if q.parent == a && d == Tokens then q.tokens else 0)
  {
    hide Sum, Total, At;
    var middle := L.accounts[q.parent := N.accounts[q.parent]];
    TotalPut(L.accounts, q.parent, middle[q.parent], ChildCapW(a, d));
    TotalPut(middle, q.child, N.accounts[q.child], ChildCapW(a, d));
  }

  lemma DecideKeepsBooksAt(L: Ledger, N: Ledger, request: Id, q: Decision, a: Id, d: Dim)
    requires BooksAt(L, a, d) && DecideEffect(L, N, request, q)
    ensures BooksAt(N, a, d)
  {
    hide Sum, Total, At, ChildCapW;
    DecideMovesAccounts(L, N, request, q, a, d);
    TotalPut(L.decisions, request, q, GaveW(a));
  }

  lemma CloseKeepsBooksAt(L: Ledger, N: Ledger, agent: Id, a: Id, d: Dim)
    requires BooksAt(L, a, d) && CloseEffect(L, N, agent)
    ensures BooksAt(N, a, d)
  {
    hide Sum, Total, At;
    TotalPut(L.accounts, agent, N.accounts[agent], ChildCapW(a, d));
  }

  lemma EffectKeepsBooksAt(L: Ledger, D: Directory, N: Ledger, f: Fact, a: Id, d: Dim)
    requires BooksAt(L, a, d) && Effect(L, D, N, f)
    ensures BooksAt(N, a, d)
  {
    hide BooksAt, RootEffect, ReserveEffect, CommitEffect, ReleaseEffect, DecideEffect, ChargeEffect, UsageEffect, CloseEffect;
    match f
    case RootGranted(_, agent, limits) => RootKeepsBooksAt(L, D, N, agent, limits, a, d);
    case ChildReserved(_, rid, _, _, _, _, _, _) => ReserveKeepsBooksAt(L, D, N, rid, N.holds[rid], a, d);
    case HoldCommitted(_, rid) => CommitKeepsBooksAt(L, N, rid, N.holds[rid], a, d);
    case HoldReleased(_, rid) => ReleaseKeepsBooksAt(L, D, N, rid, L.holds[rid], a, d);
    case TokensDecided(op, request, parent, child, tokens, reason) =>
      DecideKeepsBooksAt(L, N, request, Decision(parent, child, tokens, reason, op, N.head), a, d);
    case UsageCharged(op, agent, amounts, mode, quality) =>
      ChargeKeepsBooksAt(L, N, op, Charge(agent, amounts, mode, quality, N.head), a, d);
    case UsageReserved(_, rid, _, _) => UsageKeepsBooksAt(L, N, rid, N.usage[rid], a, d);
    case UsageStarted(_, rid) => UsageKeepsBooksAt(L, N, rid, N.usage[rid], a, d);
    case UsageSettled(_, rid, _, _) => UsageKeepsBooksAt(L, N, rid, N.usage[rid], a, d);
    case UsageReleased(_, rid) => UsageKeepsBooksAt(L, N, rid, N.usage[rid], a, d);
    case AccountClosed(_, agent) => CloseKeepsBooksAt(L, N, agent, a, d);
  }
}
