/** When an account passes one of its limits: exactly when an observation that
    does not fit is recorded, and never otherwise. */
module Overdraft {
  import opened Prelude
  import opened Budget
  import opened Directory
  import opened Projection
  import opened LedgerShape
  import opened LedgerBounds
  import opened FactSlots

  ghost predicate Bounds(L: Ledger, a: Id, d: Dim) { a in L.accounts && L.accounts[a].limits.Cap(d).Some? }

  ghost function CapOf(L: Ledger, a: Id, d: Dim): nat
    requires Bounds(L, a, d)
  {
    L.accounts[a].limits.Cap(d).value
  }

  ghost function Used(L: Ledger, a: Id, d: Dim): nat
    requires Bounds(L, a, d)
  {
    L.accounts[a].Used(d)
  }

  /** What any fact may do to a bounded account: it is new and unused, or it
      keeps at least its limit and spends past it only if it already had. */
  ghost predicate SpendsWithin(L: Ledger, N: Ledger, a: Id, d: Dim, extra: nat) {
    Bounds(N, a, d) ==>
      if a in L.accounts
      then Bounds(L, a, d) && CapOf(L, a, d) <= CapOf(N, a, d)
           && Used(N, a, d) <= Max(Used(L, a, d) + extra, CapOf(L, a, d))
      else Used(N, a, d) == 0
  }

  lemma ReserveSpendsWithin(L: Ledger, D: Directory, N: Ledger, rid: Id, h: Hold, a: Id, d: Dim)
    requires ReserveEffect(L, D, N, rid, h)
    ensures SpendsWithin(L, N, a, d, 0)
  {
    hide RetainsTokens, Affords, NamesExactly, NamesNeither;
  }

  lemma ReleaseSpendsWithin(L: Ledger, D: Directory, N: Ledger, rid: Id, h: Hold, a: Id, d: Dim)
    requires ReleaseEffect(L, D, N, rid, h)
    ensures SpendsWithin(L, N, a, d, 0)
  {
  }

  lemma DecideSpendsWithin(L: Ledger, N: Ledger, request: Id, q: Decision, a: Id, d: Dim)
    requires DecideEffect(L, N, request, q)
    ensures SpendsWithin(L, N, a, d, 0)
  {
  }

  lemma UsageSpendsWithin(L: Ledger, N: Ledger, rid: Id, h: UsageHold, a: Id, d: Dim)
    requires UsageEffect(L, N, rid, h)
    ensures SpendsWithin(L, N, a, d, 0)
  {
  }

  lemma PlusAdds(x: Amounts, y: Amounts, d: Dim)
    ensures x.Plus(y).Get(d) == x.Get(d) + y.Get(d)
  {
  }

  lemma ChargeAdds(L: Ledger, N: Ledger, op: Id, c: Charge, d: Dim)
    requires ChargeEffect(L, N, op, c) && Bounds(L, c.agent, d)
    ensures Bounds(N, c.agent, d) && CapOf(N, c.agent, d) == CapOf(L, c.agent, d)
    ensures Used(N, c.agent, d) == Used(L, c.agent, d) + c.amounts.Get(d)
  {
    hide HasCapacity, AllActive;
    PlusAdds(L.accounts[c.agent].charged, c.amounts, d);
  }

  lemma ChargeSpendsWithin(L: Ledger, N: Ledger, op: Id, c: Charge, a: Id, d: Dim)
    requires ChargeEffect(L, N, op, c)
    ensures SpendsWithin(L, N, a, d, if c.agent == a && c.mode == Observation then c.amounts.Get(d) else 0)
  {
    if c.agent == a && Bounds(L, a, d) {
      ChargeAdds(L, N, op, c, d);
      if c.mode == Admission { assert FitsIn(L.accounts[a], c.amounts, d); }
      hide ChargeEffect;
    } else {
      hide HasCapacity, AllActive;
    }
  }

  /** How much of `d` a fact records against `a` without a capacity check. */
  function ObservedBy(f: Fact, a: Id, d: Dim): nat {
    if f.UsageCharged? && f.agent == a && f.mode == Observation then f.amounts.Get(d) else 0
  }

  lemma EffectSpendsWithin(L: Ledger, D: Directory, N: Ledger, f: Fact, a: Id, d: Dim)
    requires Effect(L, D, N, f)
    ensures SpendsWithin(L, N, a, d, ObservedBy(f, a, d))
  {
    hide ReserveEffect, ReleaseEffect, DecideEffect, UsageEffect, ChargeEffect;
    match f
    case ChildReserved(_, rid, _, _, _, _, _, _) => ReserveSpendsWithin(L, D, N, rid, N.holds[rid], a, d);
    case HoldReleased(_, rid) => ReleaseSpendsWithin(L, D, N, rid, L.holds[rid], a, d);
    case TokensDecided(op, request, parent, child, tokens, reason) =>
      DecideSpendsWithin(L, N, request, Decision(parent, child, tokens, reason, op, N.head), a, d);
    case UsageCharged(op, agent, amounts, mode, quality) =>
      ChargeSpendsWithin(L, N, op, Charge(agent, amounts, mode, quality, N.head), a, d);
    case UsageReserved(_, rid, _, _) => UsageSpendsWithin(L, N, rid, N.usage[rid], a, d);
    case UsageStarted(_, rid) => UsageSpendsWithin(L, N, rid, N.usage[rid], a, d);
    case UsageSettled(_, rid, _, _) => UsageSpendsWithin(L, N, rid, N.usage[rid], a, d);
    case UsageReleased(_, rid) => UsageSpendsWithin(L, N, rid, N.usage[rid], a, d);
    case RootGranted(_, _, _) =>
    case HoldCommitted(_, _) =>
    case AccountClosed(_, _) =>
  }

  // ---- passing a limit ----

  ghost predicate Within(L: Ledger, a: Id, d: Dim) { Bounds(L, a, d) ==> Used(L, a, d) <= CapOf(L, a, d) }

  /** What a caller can see before recording: an observation of this account
      that does not fit what is left. */
  ghost predicate Overdraws(L: Ledger, f: Fact, a: Id, d: Dim) {
    Bounds(L, a, d) && ObservedBy(f, a, d) > 0 && Used(L, a, d) + ObservedBy(f, a, d) > CapOf(L, a, d)
  }

  lemma ObservationSpends(L: Ledger, D: Directory, N: Ledger, f: Fact, a: Id, d: Dim)
    requires Effect(L, D, N, f) && Bounds(L, a, d) && ObservedBy(f, a, d) > 0
    ensures Bounds(N, a, d) && CapOf(N, a, d) == CapOf(L, a, d) && Used(N, a, d) == Used(L, a, d) + ObservedBy(f, a, d)
  {
    hide ChargeEffect;
    ChargeAdds(L, N, f.op, Charge(f.agent, f.amounts, f.mode, f.quality, N.head), d);
  }

  /** Whatever fact is accepted, an account within its limit passes it if and
      only if the fact is an observation that does not fit. */
  lemma OnlyObservationsOverdraw(L: Ledger, D: Directory, f: Fact, a: Id, d: Dim)
    requires Shape(L, D) && Step(L, D, f).Success? && Within(L, a, d)
    ensures !Within(Step(L, D, f).value, a, d) <==> Overdraws(L, f, a, d)
  {
    hide Step, Effect, Shape;
    var N := Step(L, D, f).value;
    StepHasEffect(L, D, f);
    EffectSpendsWithin(L, D, N, f, a, d);
    if ObservedBy(f, a, d) > 0 && Bounds(L, a, d) {
      ObservationSpends(L, D, N, f, a, d);
    }
  }

  /** An account past its limit was taken there by an observation in the log. */
  lemma {:induction false} OverdrawnByTheLog(log: seq<Fact>, D: Directory, a: Id, d: Dim)
    requires Replay(log, D).Success? && !Within(Replay(log, D).value, a, d)
    ensures exists i | 0 <= i < |log| :: Replay(log[..i], D).Success? && Overdraws(Replay(log[..i], D).value, log[i], a, d)
  {
    hide Step, Within, Overdraws;
    if log == [] {
      BlankIsWithin(a, d);
    } else {
      var n := |log| - 1;
      var prior := log[..n];
      ReplaySound(prior, D);
      SoundShape(Replay(prior, D).value, D);
      if Within(Replay(prior, D).value, a, d) {
        OnlyObservationsOverdraw(Replay(prior, D).value, D, log[n], a, d);
      } else {
        OverdrawnByTheLog(prior, D, a, d);
        var i :| 0 <= i < n && Replay(prior[..i], D).Success? && Overdraws(Replay(prior[..i], D).value, prior[i], a, d);
        assert prior[..i] == log[..i];
      }
    }
  }

  lemma BlankIsWithin(a: Id, d: Dim)
    ensures Within(BLANK, a, d)
  {
  }
}
