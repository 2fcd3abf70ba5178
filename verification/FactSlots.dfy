/** A replayable log never says the same thing twice. */
module FactSlots {
  import opened Prelude
  import opened Budget
  import opened Directory
  import opened Projection
  import opened LedgerShape
  import opened LedgerBounds

  /** What the ledger still shows of a fact accepted earlier. */
  ghost predicate Recalls(L: Ledger, g: Fact) {
    match g
    case RootGranted(_, agent, _) => agent in L.accounts && L.accounts[agent].parent == None
    case ChildReserved(_, rid, parent, child, request, limits, retained, initial) =>
      rid in L.holds
      && var h := L.holds[rid];
         h == Hold(parent, child, request, limits, retained, initial, h.status, h.reservedAt, h.terminalAt, h.identityAt)
    case HoldCommitted(_, rid) => rid in L.holds && L.holds[rid].status == Committed && L.holds[rid].terminalAt.Some?
    case HoldReleased(_, rid) => rid in L.holds && L.holds[rid].status == Released
    case TokensDecided(op, request, parent, child, tokens, reason) =>
      request in L.decisions
      && L.decisions[request] == Decision(parent, child, tokens, reason, op, L.decisions[request].decidedAt)
    case UsageCharged(op, agent, amounts, mode, quality) =>
      op in L.charges && L.charges[op] == Charge(agent, amounts, mode, quality, L.charges[op].chargedAt)
    case UsageReserved(_, rid, agent, amounts) => rid in L.usage && L.usage[rid].agent == agent && L.usage[rid].amounts == amounts
    case UsageStarted(_, rid) => rid in L.usage && (L.usage[rid].status == Started || L.usage[rid].status == Settled)
    case UsageSettled(_, rid, amounts, _) => rid in L.usage && L.usage[rid].status == Settled && L.usage[rid].settled == Some(amounts)
    case UsageReleased(_, rid) => rid in L.usage && L.usage[rid].status == Dropped
    case AccountClosed(_, agent) => agent in L.accounts && !L.accounts[agent].Open()
  }

  /** Two facts that claim the same thing. */
  predicate SameSlot(f: Fact, g: Fact) {
    || (f.RootGranted? && g.RootGranted? && f.agent == g.agent)
    || (f.ChildReserved? && g.ChildReserved? && (f.rid == g.rid || f.child == g.child || f.request == g.request))
    || ((f.HoldCommitted? || f.HoldReleased?) && (g.HoldCommitted? || g.HoldReleased?) && f.rid == g.rid)
    || (f.TokensDecided? && g.TokensDecided? && f.request == g.request)
    || (f.UsageReserved? && g.UsageReserved? && f.rid == g.rid)
    || ((f.ChildReserved? || f.UsageReserved?) && (g.ChildReserved? || g.UsageReserved?) && f.rid == g.rid)
    || ((f.UsageStarted? || f.UsageReleased?) && (g.UsageStarted? || g.UsageReleased?) && f.rid == g.rid)
    || ((f.UsageSettled? || f.UsageReleased?) && (g.UsageSettled? || g.UsageReleased?) && f.rid == g.rid)
    || (f.AccountClosed? && g.AccountClosed? && f.agent == g.agent)
  }

  lemma AccountRecallStays(L: Ledger, D: Directory, N: Ledger, f: Fact, g: Fact)
    requires Shape(L, D) && Effect(L, D, N, f) && Recalls(L, g) && (g.RootGranted? || g.AccountClosed?)
    ensures Recalls(N, g)
  {
    hide Effect, Shape;
    EffectKeepsAccounts(L, D, N, f, g.agent);
    if g.AccountClosed? { ClosedIsFrozen(L, D, N, f, g.agent); }
  }

  lemma HoldRecallStays(L: Ledger, D: Directory, N: Ledger, f: Fact, g: Fact)
    requires Effect(L, D, N, f) && Recalls(L, g)
    requires g.ChildReserved? || g.HoldCommitted? || g.HoldReleased?
    ensures Recalls(N, g)
  {
    assert g.rid in L.holds;
    if f.ChildReserved? || f.HoldCommitted? || f.HoldReleased? {
      hide RootEffect, DecideEffect, ChargeEffect, UsageEffect, CloseEffect, Affords, HasCapacity, RetainsTokens, Debited;
      match f
      case ChildReserved(_, _, _, _, _, _, _, _) =>
      case HoldCommitted(_, _) =>
      case HoldReleased(_, _) =>
    } else {
      OthersKeepHolds(L, D, N, f);
    }
  }

  lemma OthersKeepHolds(L: Ledger, D: Directory, N: Ledger, f: Fact)
    requires Effect(L, D, N, f) && !f.ChildReserved? && !f.HoldCommitted? && !f.HoldReleased?
    ensures N.holds == L.holds
  {
    hide ReserveEffect, CommitEffect, ReleaseEffect, MayClose, TokenIssue, UsageMoves, AllActive, HasCapacity;
  }

  lemma DecisionRecallStays(L: Ledger, D: Directory, N: Ledger, f: Fact, g: Fact)
    requires Effect(L, D, N, f) && Recalls(L, g) && (g.TokensDecided? || g.UsageCharged?)
    ensures Recalls(N, g)
  {
    match f
    case TokensDecided(_, _, _, _, _, _) =>
    case UsageCharged(_, _, _, _, _) =>
    case _ => assert N.decisions == L.decisions && N.charges == L.charges;
  }

  predicate OnUsage(f: Fact) { f.UsageReserved? || f.UsageStarted? || f.UsageSettled? || f.UsageReleased? }

  /** A usage fact moves its own hold forward and no other. */
  lemma UsageMovesForward(L: Ledger, D: Directory, N: Ledger, f: Fact)
    requires Effect(L, D, N, f) && OnUsage(f)
    ensures f.rid in N.usage && N.usage == L.usage[f.rid := N.usage[f.rid]]
    ensures f.UsageReserved? <==> f.rid !in L.usage
    ensures f.rid in L.usage ==>
              var h, k := L.usage[f.rid], N.usage[f.rid];
              && k.agent == h.agent && k.amounts == h.amounts
              && (f.UsageStarted? ==> h.status == UsagePending && k.status == Started)
              && (f.UsageReleased? ==> h.status == UsagePending && k.status == Dropped)
              && (f.UsageSettled? ==> h.status == Started && k.status == Settled)
  {
    hide HasCapacity, RootEffect, ReserveEffect, CommitEffect, ReleaseEffect, DecideEffect, ChargeEffect, CloseEffect;
    hide SingleDimension, ActiveAmount, SettledAmount;
  }

  lemma UsageRecallStays(L: Ledger, D: Directory, N: Ledger, f: Fact, g: Fact)
    requires Effect(L, D, N, f) && Recalls(L, g) && OnUsage(g)
    ensures Recalls(N, g)
  {
    hide Effect;
    if OnUsage(f) { UsageMovesForward(L, D, N, f); } else { OthersKeepUsage(L, D, N, f); }
  }

  lemma OthersKeepUsage(L: Ledger, D: Directory, N: Ledger, f: Fact)
    requires Effect(L, D, N, f) && !OnUsage(f)
    ensures N.usage == L.usage
  {
    hide UsageEffect, MayClose, TokenIssue, AllActive, HasCapacity, RetainsTokens, Affords;
  }

  lemma RecallStays(L: Ledger, D: Directory, N: Ledger, f: Fact, g: Fact)
    requires Shape(L, D) && Effect(L, D, N, f) && Recalls(L, g)
    ensures Recalls(N, g)
  {
    hide Effect, Recalls, Shape;
    match g
    case RootGranted(_, _, _) => AccountRecallStays(L, D, N, f, g);
    case AccountClosed(_, _) => AccountRecallStays(L, D, N, f, g);
    case ChildReserved(_, _, _, _, _, _, _, _) => HoldRecallStays(L, D, N, f, g);
    case HoldCommitted(_, _) => HoldRecallStays(L, D, N, f, g);
    case HoldReleased(_, _) => HoldRecallStays(L, D, N, f, g);
    case TokensDecided(_, _, _, _, _, _) => DecisionRecallStays(L, D, N, f, g);
    case UsageCharged(_, _, _, _, _) => DecisionRecallStays(L, D, N, f, g);
    case _ => UsageRecallStays(L, D, N, f, g);
  }

  lemma RecallBegins(L: Ledger, D: Directory, N: Ledger, f: Fact)
    requires Effect(L, D, N, f)
    ensures Recalls(N, f)
  {
    match f case HoldCommitted(_, _) => case _ =>
  }

  /** A fact whose slot is taken is refused. */
  lemma SlotIsTaken(L: Ledger, D: Directory, N: Ledger, f: Fact, g: Fact)
    requires Shape(L, D) && Recalls(L, g) && SameSlot(f, g)
    ensures !Effect(L, D, N, f)
  {
    if g.ChildReserved? { assert ShapeAt(L, D, g.rid); }
  }

  ghost predicate Remembered(L: Ledger) {
    && (forall op | op in L.operations :: L.operations[op].fact.op == op && Recalls(L, L.operations[op].fact))
    && (forall op | op in L.charges :: op in L.operations && L.operations[op].fact.UsageCharged?)
  }

  lemma StepRecords(L: Ledger, D: Directory, f: Fact)
    requires Step(L, D, f).Success?
    ensures f.op !in L.operations
    ensures Step(L, D, f).value.operations == L.operations[f.op := Operation(f, L.head + 1)]
  {
    if f.RootGranted? || f.ChildReserved? || f.HoldCommitted? || f.HoldReleased? || f.TokensDecided? || f.AccountClosed? {
      AccountFactKeepsOperations(L, D, f);
    } else {
      UsageFactKeepsOperations(L, D, f);
    }
    hide Apply;
  }

  lemma AccountFactKeepsOperations(L: Ledger, D: Directory, f: Fact)
    requires Apply(L, D, f).Success?
    requires f.RootGranted? || f.ChildReserved? || f.HoldCommitted? || f.HoldReleased? || f.TokensDecided? || f.AccountClosed?
    ensures Apply(L, D, f).value.operations == L.operations
  {
    hide ChargeUsage, ReserveUsage, StartUsage, SettleUsage, ReleaseUsage;
    hide MayClose, TokenIssue, ReservationDebit, ReserveIssues, DirectoryChild, ChildDebit;
  }

  lemma UsageFactKeepsOperations(L: Ledger, D: Directory, f: Fact)
    requires Apply(L, D, f).Success? && (OnUsage(f) || f.UsageCharged?)
    ensures Apply(L, D, f).value.operations == L.operations
  {
    hide GrantRoot, ReserveChild, CommitHold, ReleaseHold, DecideTokens, CloseAccount, HasCapacity, AllActive, SettlementMatches;
  }

  lemma StepRemembers(L: Ledger, D: Directory, f: Fact)
    requires Shape(L, D) && Remembered(L) && Step(L, D, f).Success?
    ensures Remembered(Step(L, D, f).value)
  {
    hide Step, Effect, Recalls, Shape;
    var N := Step(L, D, f).value;
    StepHasEffect(L, D, f);
    StepRecords(L, D, f);
    RecallBegins(L, D, N, f);
    forall op | op in L.operations ensures Recalls(N, L.operations[op].fact) {
      RecallStays(L, D, N, f, L.operations[op].fact);
    }
    ChargesAdvance(L, D, N, f);
  }

  lemma ChargesAdvance(L: Ledger, D: Directory, N: Ledger, f: Fact)
    requires Effect(L, D, N, f)
    ensures N.charges.Keys <= L.charges.Keys + (if f.UsageCharged? then {f.op} else {})
  {
  }

  ghost predicate LoggedAt(L: Ledger, log: seq<Fact>, i: int) {
    0 <= i < |log| ==> log[i].op in L.operations && L.operations[log[i].op] == Operation(log[i], i + 1)
  }

  ghost predicate LoggedOp(L: Ledger, log: seq<Fact>, op: Id) {
    op in L.operations ==> 1 <= L.operations[op].at <= |log| && log[L.operations[op].at - 1] == L.operations[op].fact
  }

  /** The log and the operations of its ledger are the same facts. */
  ghost predicate Logged(L: Ledger, log: seq<Fact>) {
    && (forall i {:trigger LoggedAt(L, log, i)} :: LoggedAt(L, log, i))
    && (forall op {:trigger LoggedOp(L, log, op)} :: LoggedOp(L, log, op))
  }

  lemma LoggedStep(L: Ledger, log: seq<Fact>, f: Fact, N: Ledger)
    requires Logged(L, log) && f.op !in L.operations && N.operations == L.operations[f.op := Operation(f, |log| + 1)]
    ensures Logged(N, log + [f])
  {
    forall i ensures LoggedAt(N, log + [f], i) { assert LoggedAt(L, log, i); }
    forall op ensures LoggedOp(N, log + [f], op) { assert LoggedOp(L, log, op); }
  }

  lemma {:induction false} ReplayLogged(log: seq<Fact>, D: Directory)
    requires Replay(log, D).Success?
    ensures Logged(Replay(log, D).value, log)
  {
    hide Step, Logged;
    if log == [] {
      NothingLogged();
    } else {
      var prior, f := log[..|log| - 1], log[|log| - 1];
      ReplayLogged(prior, D);
      ReplaySound(prior, D);
      StepRecords(Replay(prior, D).value, D, f);
      LoggedStep(Replay(prior, D).value, prior, f, Replay(log, D).value);
      assert prior + [f] == log;
    }
  }

  lemma NothingLogged()
    ensures Logged(BLANK, [])
  {
  }

  lemma {:induction false} ReplayRemembers(log: seq<Fact>, D: Directory)
    requires Replay(log, D).Success?
    ensures Remembered(Replay(log, D).value)
  {
    if log != [] {
      hide Step, Recalls, Remembered;
      var prior, f := log[..|log| - 1], log[|log| - 1];
      ReplayRemembers(prior, D);
      ReplaySound(prior, D);
      SoundShape(Replay(prior, D).value, D);
      StepRemembers(Replay(prior, D).value, D, f);
    }
  }

  /** In a replayable log no operation id and no slot is used twice. */
  lemma OneFactPerSlot(log: seq<Fact>, D: Directory, i: nat, j: nat)
    requires i < j < |log| && Replay(log, D).Success?
    ensures log[i].op != log[j].op && !SameSlot(log[j], log[i])
  {
    hide Step, Recalls, SameSlot, Shape, Effect;
    ReplayPrefix(log, j, D);
    ReplayPrefix(log, j + 1, D);
    assert log[..j + 1][..j] == log[..j];
    ReplayRemembers(log[..j], D);
    ReplayLogged(log[..j], D);
    ReplaySound(log[..j], D);
    var L := Replay(log[..j], D).value;
    SoundShape(L, D);
    assert log[..j][i] == log[i] && LoggedAt(L, log[..j], i);
    assert Step(L, D, log[j]).Success?;
    StepRecords(L, D, log[j]);
    StepHasEffect(L, D, log[j]);
    if SameSlot(log[j], log[i]) {
      SlotIsTaken(L, D, Step(L, D, log[j]).value, log[j], log[i]);
    }
  }

  /** Every fact of a readable log passed the parser. */
  lemma LoggedParses(log: seq<Fact>, D: Directory, i: nat)
    requires i < |log| && Replay(log, D).Success?
    ensures ParseIssue(log[i]) == None
  {
    hide Apply, ParseIssue;
    ReplayPrefix(log, i + 1, D);
    assert log[..i + 1][..i] == log[..i];
  }
}
