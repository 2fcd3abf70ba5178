/** Bounds every replayable ledger keeps: capacity, fan-out, token envelopes,
    retained tokens, and the frozen state of a closed account. */
module LedgerBounds {
  import opened Prelude
  import opened Sums
  import opened Budget
  import opened Directory
  import opened Projection
  import opened LedgerShape
  import opened LedgerBooks

  // ---- capacity ----

  /** A bounded account overruns its limit by no more than was observed. */
  ghost predicate CapacityAt(L: Ledger, a: Id, d: Dim) {
    a in L.accounts && L.accounts[a].limits.Cap(d).Some? ==>
      L.accounts[a].Used(d) <= L.accounts[a].limits.Cap(d).value + Observed(L, a, d)
  }

  ghost predicate FanOutAt(L: Ledger, a: Id) {
    a in L.accounts && L.accounts[a].limits.children.Some? ==>
      L.accounts[a].heldChildren <= L.accounts[a].limits.children.value
  }

  lemma ObservedNonNegative(L: Ledger, a: Id, d: Dim)
    ensures 0 <= Observed(L, a, d)
  {
    TotalNonNegative(L.charges, ObservedW(a, d));
  }

  lemma ObservedSame(L: Ledger, N: Ledger, a: Id, d: Dim)
    requires N.charges == L.charges
    ensures Observed(N, a, d) == Observed(L, a, d)
  {
  }

  lemma ReserveKeepsCapacity(L: Ledger, D: Directory, N: Ledger, rid: Id, h: Hold, a: Id, d: Dim)
    requires CapacityAt(L, a, d) && FanOutAt(L, a) && ReserveEffect(L, D, N, rid, h)
    ensures CapacityAt(N, a, d) && FanOutAt(N, a)
  {
    hide Observed, Affords, RetainsTokens, NamesExactly, NamesNeither;
    ObservedSame(L, N, a, d);
    ObservedNonNegative(L, a, d);
  }

  lemma UsageKeepsCapacity(L: Ledger, N: Ledger, rid: Id, h: UsageHold, a: Id, d: Dim)
    requires CapacityAt(L, a, d) && FanOutAt(L, a) && UsageEffect(L, N, rid, h)
    ensures CapacityAt(N, a, d) && FanOutAt(N, a)
  {
    hide Observed;
    ObservedSame(L, N, a, d);
    ObservedNonNegative(L, a, d);
  }

  lemma ChargeKeepsCapacity(L: Ledger, N: Ledger, op: Id, c: Charge, a: Id, d: Dim)
    requires CapacityAt(L, a, d) && FanOutAt(L, a) && ChargeEffect(L, N, op, c)
    ensures CapacityAt(N, a, d) && FanOutAt(N, a)
  {
    hide Observed;
    ChargeMovesObserved(L, N, op, c, a, d);
    ObservedNonNegative(L, a, d);
  }

  lemma DecideKeepsCapacity(L: Ledger, N: Ledger, request: Id, q: Decision, a: Id, d: Dim)
    requires CapacityAt(L, a, d) && FanOutAt(L, a) && DecideEffect(L, N, request, q)
    ensures CapacityAt(N, a, d) && FanOutAt(N, a)
  {
    hide Observed;
    ObservedSame(L, N, a, d);
    ObservedNonNegative(L, a, d);
  }

  lemma RootKeepsCapacity(L: Ledger, D: Directory, N: Ledger, agent: Id, limits: Limits, a: Id, d: Dim)
    requires CapacityAt(L, a, d) && FanOutAt(L, a) && RootEffect(L, D, N, agent, limits)
    ensures CapacityAt(N, a, d) && FanOutAt(N, a)
  {
    hide Observed;
    ObservedSame(L, N, a, d);
    ObservedNonNegative(L, a, d);
  }

  lemma ReleaseKeepsCapacity(L: Ledger, D: Directory, N: Ledger, rid: Id, h: Hold, a: Id, d: Dim)
    requires CapacityAt(L, a, d) && FanOutAt(L, a) && ReleaseEffect(L, D, N, rid, h)
    ensures CapacityAt(N, a, d) && FanOutAt(N, a)
  {
    hide Observed;
    ObservedSame(L, N, a, d);
  }

  lemma EffectKeepsCapacity(L: Ledger, D: Directory, N: Ledger, f: Fact, a: Id, d: Dim)
    requires CapacityAt(L, a, d) && FanOutAt(L, a) && Effect(L, D, N, f)
    ensures CapacityAt(N, a, d) && FanOutAt(N, a)
  {
    hide RootEffect, ReserveEffect, ReleaseEffect, DecideEffect, ChargeEffect, UsageEffect, Observed;
    match f
    case RootGranted(_, agent, limits) => RootKeepsCapacity(L, D, N, agent, limits, a, d);
    case ChildReserved(_, rid, _, _, _, _, _, _) => ReserveKeepsCapacity(L, D, N, rid, N.holds[rid], a, d);
    case HoldCommitted(_, rid) => ObservedSame(L, N, a, d);
    case HoldReleased(_, rid) => ReleaseKeepsCapacity(L, D, N, rid, L.holds[rid], a, d);
    case TokensDecided(op, request, parent, child, tokens, reason) =>
      DecideKeepsCapacity(L, N, request, Decision(parent, child, tokens, reason, op, N.head), a, d);
    case UsageCharged(op, agent, amounts, mode, quality) =>
      ChargeKeepsCapacity(L, N, op, Charge(agent, amounts, mode, quality, N.head), a, d);
    case UsageReserved(_, rid, _, _) => UsageKeepsCapacity(L, N, rid, N.usage[rid], a, d);
    case UsageStarted(_, rid) => UsageKeepsCapacity(L, N, rid, N.usage[rid], a, d);
    case UsageSettled(_, rid, _, _) => UsageKeepsCapacity(L, N, rid, N.usage[rid], a, d);
    case UsageReleased(_, rid) => UsageKeepsCapacity(L, N, rid, N.usage[rid], a, d);
    case AccountClosed(_, agent) => ObservedSame(L, N, a, d);
  }

  // ---- token envelopes ----

  /** A child holds its initial grant plus every decided increase, within the
      ceiling reserved for it. */
  ghost predicate EnvelopeAt(L: Ledger, c: Id) {
    && (c !in L.accounts ==> Total(L.decisions, GotW(c)) == 0)
    && (c in L.accounts && L.accounts[c].parent.Some? && c in L.heldChild && L.heldChild[c] in L.holds ==>
          var h := L.holds[L.heldChild[c]];
          var tokens := L.accounts[c].limits.tokens;
          tokens.Some? ==>
            && h.Granted().tokens.Some? && h.limits.tokens.Some?
            && tokens.value == h.Granted().tokens.value + Total(L.decisions, GotW(c))
            && tokens.value <= h.limits.tokens.value)
  }

  lemma ReserveKeepsEnvelopeAt(L: Ledger, D: Directory, N: Ledger, rid: Id, h: Hold, c: Id)
    requires Shape(L, D) && EnvelopeAt(L, c) && ReserveEffect(L, D, N, rid, h)
    ensures EnvelopeAt(N, c)
  {
    hide Total;
    assert ShapeAt(L, D, c);
  }

  lemma DecideKeepsEnvelopeAt(L: Ledger, D: Directory, N: Ledger, request: Id, q: Decision, c: Id)
    requires Shape(L, D) && EnvelopeAt(L, c) && DecideEffect(L, N, request, q)
    ensures EnvelopeAt(N, c)
  {
    hide Total, Sum, At;
    TotalPut(L.decisions, request, q, GotW(c));
  }

  lemma CommitKeepsEnvelopeAt(L: Ledger, D: Directory, N: Ledger, rid: Id, h: Hold, c: Id)
    requires EnvelopeAt(L, c) && CommitEffect(L, N, rid, h)
    ensures EnvelopeAt(N, c)
  {
    hide Total;
  }

  lemma ReleaseKeepsEnvelopeAt(L: Ledger, D: Directory, N: Ledger, rid: Id, h: Hold, c: Id)
    requires EnvelopeAt(L, c) && ReleaseEffect(L, D, N, rid, h)
    ensures EnvelopeAt(N, c)
  {
    hide Total;
  }

  lemma UsageKeepsEnvelopeAt(L: Ledger, N: Ledger, rid: Id, h: UsageHold, c: Id)
    requires EnvelopeAt(L, c) && UsageEffect(L, N, rid, h)
    ensures EnvelopeAt(N, c)
  {
    hide Total;
  }

  lemma EffectKeepsEnvelopeAt(L: Ledger, D: Directory, N: Ledger, f: Fact, c: Id)
    requires Shape(L, D) && EnvelopeAt(L, c) && Effect(L, D, N, f)
    ensures EnvelopeAt(N, c)
  {
    hide ReserveEffect, CommitEffect, ReleaseEffect, DecideEffect, UsageEffect, Total;
    match f
    case ChildReserved(_, rid, _, _, _, _, _, _) => ReserveKeepsEnvelopeAt(L, D, N, rid, N.holds[rid], c);
    case HoldCommitted(_, rid) => CommitKeepsEnvelopeAt(L, D, N, rid, N.holds[rid], c);
    case HoldReleased(_, rid) => ReleaseKeepsEnvelopeAt(L, D, N, rid, L.holds[rid], c);
    case TokensDecided(op, request, parent, child, tokens, reason) =>
      DecideKeepsEnvelopeAt(L, D, N, request, Decision(parent, child, tokens, reason, op, N.head), c);
    case RootGranted(_, agent, _) => assert ShapeAt(L, D, c);
    case UsageCharged(_, _, _, _, _) =>
    case AccountClosed(_, _) =>
    case UsageReserved(_, rid, _, _) => UsageKeepsEnvelopeAt(L, N, rid, N.usage[rid], c);
    case UsageStarted(_, rid) => UsageKeepsEnvelopeAt(L, N, rid, N.usage[rid], c);
    case UsageSettled(_, rid, _, _) => UsageKeepsEnvelopeAt(L, N, rid, N.usage[rid], c);
    case UsageReleased(_, rid) => UsageKeepsEnvelopeAt(L, N, rid, N.usage[rid], c);
  }

  // ---- the whole invariant ----

  ghost predicate SoundAt(L: Ledger, D: Directory, k: Id, d: Dim) {
    ShapeAt(L, D, k) && BooksAt(L, k, d) && CapacityAt(L, k, d) && FanOutAt(L, k) && EnvelopeAt(L, k)
  }

  ghost predicate Sound(L: Ledger, D: Directory) {
    forall k, d {:trigger SoundAt(L, D, k, d)} :: SoundAt(L, D, k, d)
  }

  lemma SoundShape(L: Ledger, D: Directory)
    requires Sound(L, D)
    ensures Shape(L, D)
  {
    forall k ensures ShapeAt(L, D, k) { assert SoundAt(L, D, k, Tokens); }
  }

  lemma StepKeepsSound(L: Ledger, D: Directory, f: Fact)
    requires Sound(L, D) && Step(L, D, f).Success?
    ensures Sound(Step(L, D, f).value, D)
    ensures Effect(L, D, Step(L, D, f).value, f)
  {
    hide Step, Effect, ShapeAt, BooksAt, CapacityAt, FanOutAt, EnvelopeAt;
    var N := Step(L, D, f).value;
    SoundShape(L, D);
    StepHasEffect(L, D, f);
    EffectKeepsShape(L, D, N, f);
    forall k, d ensures SoundAt(N, D, k, d) {
      assert SoundAt(L, D, k, d) && ShapeAt(N, D, k);
      EffectKeepsBooksAt(L, D, N, f, k, d);
      EffectKeepsCapacity(L, D, N, f, k, d);
      EffectKeepsEnvelopeAt(L, D, N, f, k);
    }
  }

  /** Every replayable ledger is structured, exactly booked and bounded. */
  lemma {:induction false} ReplaySound(log: seq<Fact>, D: Directory)
    requires Replay(log, D).Success?
    ensures Sound(Replay(log, D).value, D)
    ensures Replay(log, D).value.head == |log|
  {
    if log == [] {
      forall k, d ensures SoundAt(BLANK, D, k, d) { }
    } else {
      ReplaySound(log[..|log| - 1], D);
      StepKeepsSound(Replay(log[..|log| - 1], D).value, D, log[|log| - 1]);
    }
  }

  // ---- retained tokens ----

  /** Every grant of `p` retains at least `R` tokens for it. */
  ghost predicate AlwaysRetains(L: Ledger, p: Id, R: nat) {
    forall r {:trigger r in L.holds} :: r in L.holds && L.holds[r].parent == p ==> R <= L.holds[r].retained
  }

  ghost predicate RetainedAt(L: Ledger, p: Id, R: nat) {
    p in L.accounts && L.accounts[p].limits.tokens.Some? && AlwaysRetains(L, p, R) ==>
      L.accounts[p].delegated.tokens == 0
      || L.accounts[p].delegated.tokens + R <= L.accounts[p].limits.tokens.value
  }

  lemma ReserveKeepsRetained(L: Ledger, D: Directory, N: Ledger, rid: Id, h: Hold, p: Id, R: nat)
    requires RetainedAt(L, p, R) && ReserveEffect(L, D, N, rid, h)
    ensures RetainedAt(N, p, R)
  {
    assert rid in N.holds;
    if AlwaysRetains(N, p, R) {
      forall r | r in L.holds && L.holds[r].parent == p ensures R <= L.holds[r].retained {
        assert r in N.holds;
      }
    }
  }

  lemma DecideKeepsRetained(L: Ledger, D: Directory, N: Ledger, request: Id, q: Decision, p: Id, R: nat)
    requires Shape(L, D) && RetainedAt(L, p, R) && DecideEffect(L, N, request, q)
    ensures RetainedAt(N, p, R)
  {
    assert ShapeAt(L, D, q.child);
    assert L.heldChild[q.child] in L.holds;
    if AlwaysRetains(N, p, R) {
      forall r | r in L.holds && L.holds[r].parent == p ensures R <= L.holds[r].retained {
        assert r in N.holds;
      }
    }
  }

  lemma OtherKeepsRetained(L: Ledger, D: Directory, N: Ledger, f: Fact, p: Id, R: nat)
    requires RetainedAt(L, p, R) && Effect(L, D, N, f) && !f.ChildReserved? && !f.TokensDecided?
    ensures RetainedAt(N, p, R)
  {
    if AlwaysRetains(N, p, R) {
      forall r | r in L.holds && L.holds[r].parent == p ensures R <= L.holds[r].retained {
        assert r in N.holds;
      }
    }
  }

  lemma EffectKeepsRetained(L: Ledger, D: Directory, N: Ledger, f: Fact, p: Id, R: nat)
    requires Shape(L, D) && RetainedAt(L, p, R) && Effect(L, D, N, f)
    ensures RetainedAt(N, p, R)
  {
    match f
    case ChildReserved(_, rid, _, _, _, _, _, _) => ReserveKeepsRetained(L, D, N, rid, N.holds[rid], p, R);
    case TokensDecided(op, request, parent, child, tokens, reason) =>
      DecideKeepsRetained(L, D, N, request, Decision(parent, child, tokens, reason, op, N.head), p, R);
    case _ => OtherKeepsRetained(L, D, N, f, p, R);
  }

  /** If every grant of a token-bounded parent retains at least `R`, its
      delegated tokens are zero or leave `R` of its limit, in every ledger. */
  lemma {:induction false} ReplayRetains(log: seq<Fact>, D: Directory, p: Id, R: nat)
    requires Replay(log, D).Success?
    ensures RetainedAt(Replay(log, D).value, p, R)
  {
    if log != [] {
      var L := Replay(log[..|log| - 1], D).value;
      ReplayRetains(log[..|log| - 1], D, p, R);
      ReplaySound(log[..|log| - 1], D);
      StepKeepsSound(L, D, log[|log| - 1]);
      SoundShape(L, D);
      EffectKeepsRetained(L, D, Replay(log, D).value, log[|log| - 1], p, R);
    }
  }

  // ---- limits and closure ----

  /** Only tokens of an existing account's limits may grow. */
  ghost predicate Widened(from: Limits, to: Limits) {
    && to.(tokens := from.tokens) == from
    && (from.tokens.None? <==> to.tokens.None?)
    && (from.tokens.Some? ==> from.tokens.value <= to.tokens.value)
  }

  ghost predicate Persists(L: Ledger, N: Ledger, a: Id) {
    a in L.accounts ==>
      && a in N.accounts && Widened(L.accounts[a].limits, N.accounts[a].limits)
      && N.accounts[a].parent == L.accounts[a].parent && N.accounts[a].created == L.accounts[a].created
  }

  lemma DecidePersists(L: Ledger, N: Ledger, request: Id, q: Decision, a: Id)
    requires DecideEffect(L, N, request, q)
    ensures Persists(L, N, a)
  {
  }

  lemma ReservePersists(L: Ledger, D: Directory, N: Ledger, rid: Id, h: Hold, a: Id)
    requires ReserveEffect(L, D, N, rid, h)
    ensures Persists(L, N, a)
  {
  }

  lemma EffectKeepsAccounts(L: Ledger, D: Directory, N: Ledger, f: Fact, a: Id)
    requires Effect(L, D, N, f)
    ensures Persists(L, N, a)
  {
    hide DecideEffect, ReserveEffect;
    match f
    case TokensDecided(op, request, parent, child, tokens, reason) =>
      DecidePersists(L, N, request, Decision(parent, child, tokens, reason, op, N.head), a);
    case ChildReserved(_, rid, _, _, _, _, _, _) => ReservePersists(L, D, N, rid, N.holds[rid], a);
    case _ =>
  }

  /** A closed account is frozen, although settling and releasing do not look
      at closure. */
  lemma ClosedIsFrozen(L: Ledger, D: Directory, N: Ledger, f: Fact, a: Id)
    requires Shape(L, D) && Effect(L, D, N, f) && a in L.accounts && !L.accounts[a].Open()
    ensures a in N.accounts && N.accounts[a] == L.accounts[a]
  {
    match f
    case HoldReleased(_, rid) => assert ShapeAt(L, D, rid);
    case UsageStarted(_, rid) => assert ShapeAt(L, D, rid);
    case UsageSettled(_, rid, _, _) => assert ShapeAt(L, D, rid);
    case UsageReleased(_, rid) => assert ShapeAt(L, D, rid);
    case _ =>
  }

  /** Along any log, an account keeps its parent and its limits up to token
      growth, and once closed it never changes at all. */
  lemma {:induction false} AccountsPersist(log: seq<Fact>, n: nat, D: Directory, a: Id)
    requires n <= |log| && Replay(log, D).Success? && Replay(log[..n], D).Success?
    requires a in Replay(log[..n], D).value.accounts
    ensures var before, after := Replay(log[..n], D).value.accounts[a], Replay(log, D).value;
      && a in after.accounts && after.accounts[a].parent == before.parent
      && Widened(before.limits, after.accounts[a].limits)
      && (!before.Open() ==> after.accounts[a] == before)
  {
    if n == |log| {
      assert log[..n] == log;
    } else {
      var prior, f := log[..|log| - 1], log[|log| - 1];
      assert prior[..n] == log[..n];
      AccountsPersist(prior, n, D, a);
      ReplaySound(prior, D);
      var L := Replay(prior, D).value;
      StepKeepsSound(L, D, f);
      SoundShape(L, D);
      EffectKeepsAccounts(L, D, Replay(log, D).value, f, a);
      if !L.accounts[a].Open() { ClosedIsFrozen(L, D, Replay(log, D).value, f, a); }
    }
  }
}
