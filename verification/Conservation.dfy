/** Tree-wide laws: what a whole subtree spends, how deep and how wide it is. */
module Conservation {
  import opened Prelude
  import opened Sums
  import opened Budget
  import opened Directory
  import opened Projection
  import opened LedgerShape
  import opened LedgerBooks
  import opened LedgerBounds

  // ---- the account forest ----

  lemma ParentIsOlder(L: Ledger, D: Directory, b: Id)
    requires Shape(L, D) && b in L.accounts && L.accounts[b].parent.Some?
    ensures var p := L.accounts[b].parent.value;
      p in L.accounts && p != b && L.accounts[p].created < L.accounts[b].created
  {
    assert ShapeAt(L, D, b) && ShapeAt(L, D, L.heldChild[b]);
  }

  /** Whether walking parents upward from `b` meets `a`. */
  ghost predicate Under(L: Ledger, D: Directory, a: Id, b: Id)
    requires Shape(L, D)
    decreases if b in L.accounts then L.accounts[b].created else 0
  {
    b in L.accounts
    && (b == a
        || (L.accounts[b].parent.Some? && (ParentIsOlder(L, D, b); Under(L, D, a, L.accounts[b].parent.value))))
  }

  ghost function Subtree(L: Ledger, D: Directory, a: Id): set<Id>
    requires Shape(L, D)
  {
    set b | b in L.accounts && Under(L, D, a, b)
  }

  /** A limit on an account binds its children, and is at most its own. */
  lemma ChildIsBounded(L: Ledger, D: Directory, b: Id, d: Dim)
    requires Shape(L, D) && b in L.accounts && L.accounts[b].parent.Some?
    requires L.accounts[b].parent.value in L.accounts
    requires L.accounts[L.accounts[b].parent.value].limits.Cap(d).Some?
    ensures L.accounts[b].limits.Cap(d).Some?
  {
    assert ShapeAt(L, D, b) && ShapeAt(L, D, L.heldChild[b]);
  }

  lemma {:induction false} SubtreeIsBounded(L: Ledger, D: Directory, a: Id, b: Id, d: Dim)
    requires Shape(L, D) && a in L.accounts && L.accounts[a].limits.Cap(d).Some? && Under(L, D, a, b)
    ensures L.accounts[b].limits.Cap(d).Some?
    decreases L.accounts[b].created
  {
    if b != a {
      ParentIsOlder(L, D, b);
      SubtreeIsBounded(L, D, a, L.accounts[b].parent.value, d);
      ChildIsBounded(L, D, b, d);
    }
  }

  // ---- conservation ----

  function SpentOf(L: Ledger, d: Dim): Id -> int {
    b => if b in L.accounts then L.accounts[b].charged.Get(d) + L.accounts[b].reserved.Get(d) else 0
  }

  function DelegatedOf(L: Ledger, d: Dim): Id -> int {
    b => if b in L.accounts then L.accounts[b].delegated.Get(d) else 0
  }

  function CapOf(L: Ledger, d: Dim): Id -> int {
    b => if b in L.accounts then L.accounts[b].limits.Carved(d) else 0
  }

  ghost function ObservedOf(L: Ledger, d: Dim): Id -> int { b => Observed(L, b, d) }

  ghost function ChildCapsOf(L: Ledger, d: Dim): Id -> int { p => Total(L.accounts, ChildCapW(p, d)) }

  /** The cap of each account whose parent lies in `S`. */
  function CapUnder(L: Ledger, d: Dim, S: set<Id>): Id -> int {
    c => if c in L.accounts && L.accounts[c].parent.Some? && L.accounts[c].parent.value in S
         then L.accounts[c].limits.Carved(d) else 0
  }

  lemma CapSplits(L: Ledger, d: Dim, S: set<Id>, p: Id, c: Id)
    requires p in S && c in L.accounts
    ensures CapUnder(L, d, S)(c) == At(L.accounts, ChildCapW(p, d))(c) + CapUnder(L, d, S - {p})(c)
  {
  }

  /** Summing children's caps over parents in `S` counts each child once. */
  lemma {:induction false} CapsByParent(L: Ledger, d: Dim, S: set<Id>)
    ensures Sum(S, ChildCapsOf(L, d)) == Sum(L.accounts.Keys, CapUnder(L, d, S))
  {
    if S == {} {
      SumZero(L.accounts.Keys, CapUnder(L, d, S));
    } else {
      var p :| p in S;
      var rest := S - {p};
      hide Sum;
      CapsByParent(L, d, rest);
      SumRemove(S, p, ChildCapsOf(L, d));
      forall c | c in L.accounts
        ensures CapUnder(L, d, S)(c) == At(L.accounts, ChildCapW(p, d))(c) + CapUnder(L, d, rest)(c)
      {
        hide *;
        CapSplits(L, d, S, p, c);
      }
      SumPlus(L.accounts.Keys, At(L.accounts, ChildCapW(p, d)), CapUnder(L, d, rest), CapUnder(L, d, S));
    }
  }

  lemma DelegatedCoversChildren(L: Ledger, D: Directory, S: set<Id>, d: Dim)
    requires Sound(L, D) && S <= L.accounts.Keys
    ensures Sum(S, ChildCapsOf(L, d)) <= Sum(S, DelegatedOf(L, d))
  {
    hide Sum, Sound, SoundAt, Total;
    forall p | p in S ensures ChildCapsOf(L, d)(p) <= DelegatedOf(L, d)(p) {
      ParentCoversChildren(L, D, p, d);
    }
    SumAtMost(S, ChildCapsOf(L, d), DelegatedOf(L, d));
  }

  lemma ParentCoversChildren(L: Ledger, D: Directory, p: Id, d: Dim)
    requires Sound(L, D) && p in L.accounts
    ensures Total(L.accounts, ChildCapW(p, d)) <= L.accounts[p].delegated.Get(d)
  {
    hide Total, ShapeAt, CapacityAt, FanOutAt, EnvelopeAt;
    assert SoundAt(L, D, p, d);
    TotalNonNegative(L.holds, PendingW(p, d));
  }

  /** Everything below `a` was carved out of something in the subtree. */
  lemma CapsBelowAreDelegated(L: Ledger, D: Directory, a: Id, S: set<Id>, d: Dim)
    requires Sound(L, D) && a in S && S <= L.accounts.Keys
    requires forall b | b in S && b != a :: L.accounts[b].parent.Some? && L.accounts[b].parent.value in S
    ensures Sum(S, CapOf(L, d)) <= CapOf(L, d)(a) + Sum(S, DelegatedOf(L, d))
  {
    SumRemove(S, a, CapOf(L, d));
    SumAgree(S - {a}, CapOf(L, d), CapUnder(L, d, S));
    SumSubset(S - {a}, L.accounts.Keys, CapUnder(L, d, S));
    CapsByParent(L, d, S);
    DelegatedCoversChildren(L, D, S, d);
  }

  function UsedOf(L: Ledger, d: Dim): Id -> int {
    b => if b in L.accounts then L.accounts[b].Used(d) else 0
  }

  ghost function RoomOf(L: Ledger, d: Dim): Id -> int {
    b => if b in L.accounts then L.accounts[b].limits.Carved(d) + Observed(L, b, d) else 0
  }

  lemma UsedFitsRoom(L: Ledger, D: Directory, b: Id, d: Dim)
    requires SoundAt(L, D, b, d) && b in L.accounts && L.accounts[b].limits.Cap(d).Some?
    ensures UsedOf(L, d)(b) <= RoomOf(L, d)(b)
  {
    assert CapacityAt(L, b, d);
  }

  /** For any part `S` of the forest hanging below `a` in which `d` is bounded,
      all that `S` charged and reserved is within `a`'s limit, up to what was
      recorded by observation in `S`. */
  lemma PartConservation(L: Ledger, D: Directory, a: Id, S: set<Id>, d: Dim)
    requires Sound(L, D) && a in S && S <= L.accounts.Keys
    requires forall b | b in S && b != a :: L.accounts[b].parent.Some? && L.accounts[b].parent.value in S
    requires forall b | b in S :: L.accounts[b].limits.Cap(d).Some?
    ensures Sum(S, SpentOf(L, d)) <= L.accounts[a].limits.Cap(d).value + Sum(S, ObservedOf(L, d))
  {
    forall b | b in S ensures UsedOf(L, d)(b) <= RoomOf(L, d)(b) {
      assert SoundAt(L, D, b, d);
      UsedFitsRoom(L, D, b, d);
    }
    SumAtMost(S, UsedOf(L, d), RoomOf(L, d));
    SumPlus(S, SpentOf(L, d), DelegatedOf(L, d), UsedOf(L, d));
    SumPlus(S, CapOf(L, d), ObservedOf(L, d), RoomOf(L, d));
    CapsBelowAreDelegated(L, D, a, S, d);
  }

  /** Tree-wide conservation in every replayable ledger. */
  lemma TreeConservation(log: seq<Fact>, D: Directory, a: Id, d: Dim)
    requires Replay(log, D).Success? && a in Replay(log, D).value.accounts
    requires Replay(log, D).value.accounts[a].limits.Cap(d).Some?
    ensures var L := Replay(log, D).value;
      Shape(L, D)
      && Sum(Subtree(L, D, a), SpentOf(L, d))
         <= L.accounts[a].limits.Cap(d).value + Sum(Subtree(L, D, a), ObservedOf(L, d))
  {
    var L := Replay(log, D).value;
    ReplaySound(log, D);
    SoundShape(L, D);
    var S := Subtree(L, D, a);
    forall b | b in S ensures L.accounts[b].limits.Cap(d).Some? { SubtreeIsBounded(L, D, a, b, d); }
    forall b | b in S && b != a ensures L.accounts[b].parent.Some? && L.accounts[b].parent.value in S {
      ParentIsOlder(L, D, b);
    }
    PartConservation(L, D, a, S, d);
  }

  /** Where no observation was recorded in the dimension, the limit is never
      exceeded at all. */
  lemma StrictTreeConservation(log: seq<Fact>, D: Directory, a: Id, d: Dim)
    requires Replay(log, D).Success? && a in Replay(log, D).value.accounts
    requires Replay(log, D).value.accounts[a].limits.Cap(d).Some?
    requires forall op | op in Replay(log, D).value.charges ::
               Replay(log, D).value.charges[op].mode == Admission || Replay(log, D).value.charges[op].amounts.Get(d) == 0
    ensures var L := Replay(log, D).value;
      Shape(L, D) && Sum(Subtree(L, D, a), SpentOf(L, d)) <= L.accounts[a].limits.Cap(d).value
  {
    var L := Replay(log, D).value;
    TreeConservation(log, D, a, d);
    forall b | b in Subtree(L, D, a) ensures ObservedOf(L, d)(b) == 0 {
      SumZero(L.charges.Keys, At(L.charges, ObservedW(b, d)));
    }
    SumZero(Subtree(L, D, a), ObservedOf(L, d));
  }

  // ---- depth and fan-out ----

  /** A descending path of accounts, each the parent of the next. */
  ghost predicate Chain(L: Ledger, path: seq<Id>) {
    && |path| >= 1 && (forall i | 0 <= i < |path| :: path[i] in L.accounts)
    && (forall i | 0 < i < |path| :: L.accounts[path[i]].parent == Some(path[i - 1]))
  }

  lemma DepthShrinks(L: Ledger, D: Directory, b: Id)
    requires Shape(L, D) && b in L.accounts && L.accounts[b].parent.Some?
    requires L.accounts[b].parent.value in L.accounts
    requires L.accounts[L.accounts[b].parent.value].limits.depth.Some?
    ensures L.accounts[b].limits.depth.Some?
    ensures L.accounts[b].limits.depth.value < L.accounts[L.accounts[b].parent.value].limits.depth.value
  {
    assert ShapeAt(L, D, b) && ShapeAt(L, D, L.heldChild[b]);
  }

  lemma {:induction false} ChainIsShallow(L: Ledger, D: Directory, path: seq<Id>)
    requires Shape(L, D) && Chain(L, path) && L.accounts[path[0]].limits.depth.Some?
    ensures var last := L.accounts[path[|path| - 1]].limits.depth;
      last.Some? && last.value + |path| - 1 <= L.accounts[path[0]].limits.depth.value
  {
    if |path| > 1 {
      ChainIsShallow(L, D, path[..|path| - 1]);
      DepthShrinks(L, D, path[|path| - 1]);
    }
  }

  lemma {:induction false} ChainIsStrict(L: Ledger, D: Directory, path: seq<Id>)
    requires Shape(L, D) && Chain(L, path)
    ensures forall i, j | 0 <= i < j < |path| :: L.accounts[path[i]].created < L.accounts[path[j]].created
  {
    if |path| > 1 {
      var last := |path| - 1;
      ChainIsStrict(L, D, path[..last]);
      assert L.accounts[path[last]].parent == Some(path[last - 1]);
      ParentIsOlder(L, D, path[last]);
      forall i, j | 0 <= i < j < |path| ensures L.accounts[path[i]].created < L.accounts[path[j]].created {
        assert path[..last][i] == path[i];
        if j < last { assert path[..last][j] == path[j]; }
        assert path[..last][last - 1] == path[last - 1];
      }
    }
  }

  /** An account with depth limit n has at most n levels below it, no chain
      meets an account twice, and an account with child limit n has at most n
      unreleased holds, in every replayable ledger. */
  lemma DepthAndFanOut(log: seq<Fact>, D: Directory, path: seq<Id>)
    requires Replay(log, D).Success? && Chain(Replay(log, D).value, path)
    ensures var L := Replay(log, D).value; var top := L.accounts[path[0]].limits;
      && (top.depth.Some? ==> |path| - 1 <= top.depth.value)
      && Duplicatefree(path)
      && (top.children.Some? ==> Total(L.holds, UnreleasedW(path[0])) <= top.children.value)
  {
    var L := Replay(log, D).value;
    ReplaySound(log, D);
    SoundShape(L, D);
    ChainIsStrict(L, D, path);
    if L.accounts[path[0]].limits.depth.Some? { ChainIsShallow(L, D, path); }
    assert SoundAt(L, D, path[0], Tokens);
  }

  // ---- the books and the token envelopes, in every replayable ledger ----

  /** Every balance is an exact sum over facts: what is reserved, over active
      usage holds; what is charged, over charges and settlements; what is
      delegated, over unreleased child debits and token increases, which is also
      what existing children were granted plus what pending ones would be. */
  lemma ExactBookkeeping(log: seq<Fact>, D: Directory, a: Id, d: Dim)
    requires Replay(log, D).Success? && a in Replay(log, D).value.accounts
    ensures var L := Replay(log, D).value; var x := L.accounts[a];
      && x.reserved.Get(d) == Total(L.usage, HeldW(a, d))
      && x.charged.Get(d) == Total(L.charges, ChargedW(a, d)) + Total(L.usage, SettledW(a, d))
      && x.delegated.Get(d) == Total(L.holds, CarvedW(a, d)) + (if d == Tokens then Total(L.decisions, GaveW(a)) else 0)
      && x.delegated.Get(d) == Total(L.accounts, ChildCapW(a, d)) + Total(L.holds, PendingW(a, d))
      && x.heldChildren == Total(L.holds, UnreleasedW(a))
      && (x.limits.Cap(d).Some? ==> x.Used(d) <= x.limits.Cap(d).value + Observed(L, a, d))
  {
    ReplaySound(log, D);
    assert SoundAt(Replay(log, D).value, D, a, d);
  }

  /** A token-bounded child holds exactly its initial grant plus every decided
      increase, and never more than the ceiling reserved for it. */
  lemma TokenEnvelope(log: seq<Fact>, D: Directory, child: Id)
    requires Replay(log, D).Success?
    ensures var L := Replay(log, D).value;
      child in L.accounts && L.accounts[child].parent.Some? && L.accounts[child].limits.tokens.Some? ==>
        && child in L.heldChild && L.heldChild[child] in L.holds
        && var h, tokens := L.holds[L.heldChild[child]], L.accounts[child].limits.tokens.value;
           && h.child == child && h.status == Committed && h.Granted().tokens.Some? && h.limits.tokens.Some?
           && tokens == h.Granted().tokens.value + Total(L.decisions, GotW(child))
           && tokens <= h.limits.tokens.value
  {
    ReplaySound(log, D);
    assert SoundAt(Replay(log, D).value, D, child, Tokens);
  }
}
