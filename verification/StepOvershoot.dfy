/** Steps start only after a reconciliation that left something to spend, and
    anything else may happen meanwhile. */
module StepOvershoot {
  import opened Prelude
  import opened Budget
  import opened Directory
  import opened Projection
  import opened LedgerShape
  import opened LedgerBounds
  import opened Overdraft
  import opened DirectoryGrowth
  import opened ManagedHistory
  import opened FactSlots
  import opened Service
  import opened Steps

  datatype Who = Who(agent: Id, session: Id)

  /** The two streams, the Steps the session has durably started, and whether
      the loop may start one more. */
  datatype Loop = Loop(world: World, steps: set<Id>, mayStart: bool)

  ghost function Uncharged(L: Ledger, who: Who, steps: set<Id>): set<Id> {
    set x | x in steps && StepOp(who.agent, who.session, x) !in L.operations
  }

  /** Facts other than Step observations of this Agent. */
  ghost predicate Ordinary(f: Fact, who: Who) {
    && !(f.UsageCharged? && f.mode == Observation && f.agent == who.agent && f.amounts.steps > 0)
    && forall step :: f.op != StepOp(who.agent, who.session, step)
  }

  ghost predicate Spends(s: Loop, t: Loop, who: Who) {
    LedgerAppends(s.world, t.world) && Ordinary(t.world.log[|s.world.log|], who) && t == s.(world := t.world)
  }

  ghost predicate Charges(s: Loop, t: Loop, who: Who, step: Id) {
    LedgerAppends(s.world, t.world) && t.world.log[|s.world.log|] == StepCharge(who.agent, who.session, step)
    && t == s.(world := t.world) && step in s.steps
  }

  /** Preflight before a turn, or Continue after a Step: both reconcile first. */
  ghost predicate Permits(s: Loop, t: Loop, who: Who) {
    Readable(s.world) && t == s.(mayStart := true)
    && var L := LedgerOf(s.world);
       who.agent in L.accounts && Uncharged(L, who, s.steps) == {} && Remaining(L, who.agent, Dim.Steps) != Some(0)
  }

  ghost predicate Starts(s: Loop, t: Loop, step: Id) {
    s.mayStart && step !in s.steps && t == s.(steps := s.steps + {step}, mayStart := false)
  }

  ghost predicate Stops(s: Loop, t: Loop) { t == s.(mayStart := false) }

  ghost predicate Hires(s: Loop, t: Loop) {
    AgentAppears(s.world, t.world) && t == s.(world := t.world)
  }

  ghost predicate Next(s: Loop, t: Loop, who: Who) {
    || Spends(s, t, who) || Permits(s, t, who) || Stops(s, t) || Hires(s, t)
    || (exists step :: Charges(s, t, who, step))
    || (exists step :: Starts(s, t, step))
  }

  /** The loop may go on exactly while no Step of the session is uncharged and
      the account has room for one more. */
  lemma PermitsExactly(s: Loop, who: Who)
    requires Readable(s.world) && who.agent in LedgerOf(s.world).accounts
    ensures var L := LedgerOf(s.world); var a := L.accounts[who.agent];
      Permits(s, s.(mayStart := true), who)
      <==> (forall x | x in s.steps :: StepOp(who.agent, who.session, x) in L.operations)
           && (a.limits.steps.None? || a.charged.steps + a.delegated.steps + a.reserved.steps < a.limits.steps.value)
  {
    hide Readable, LedgerOf;
    var L := LedgerOf(s.world);
    assert Uncharged(L, who, s.steps) == {} <==> forall x | x in s.steps :: StepOp(who.agent, who.session, x) in L.operations by {
      forall x | x in s.steps && StepOp(who.agent, who.session, x) !in L.operations
        ensures x in Uncharged(L, who, s.steps) {}
    }
  }

  // ---- the invariant ----

  ghost predicate Inv(s: Loop, who: Who) {
    Readable(s.world)
    && var L := LedgerOf(s.world);
       var open := Uncharged(L, who, s.steps);
       && (exists x :: open <= {x})
       && (open != {} || s.mayStart ==> who.agent in L.accounts)
       && (open != {} ==> !s.mayStart)
       && (Bounds(L, who.agent, Dim.Steps) ==>
             && Used(L, who.agent, Dim.Steps) <= CapOf(L, who.agent, Dim.Steps) + 1
             && (open != {} ==> Used(L, who.agent, Dim.Steps) <= CapOf(L, who.agent, Dim.Steps))
             && (s.mayStart ==> Used(L, who.agent, Dim.Steps) <= CapOf(L, who.agent, Dim.Steps)))
  }

  /** What one appended fact does to the account and to the open Steps. */
  lemma AppendSpends(w: World, w': World, who: Who, steps: set<Id>)
    requires LedgerAppends(w, w')
    ensures Readable(w')
    ensures var f := w'.log[|w.log|];
      && SpendsWithin(LedgerOf(w), LedgerOf(w'), who.agent, Dim.Steps, ObservedBy(f, who.agent, Dim.Steps))
      && LedgerOf(w').operations.Keys == LedgerOf(w).operations.Keys + {f.op} && f.op !in LedgerOf(w).operations
      && LedgerOf(w).accounts.Keys <= LedgerOf(w').accounts.Keys
  {
    hide Step, Rebuilt, SpendsWithin;
    var f := w'.log[|w.log|];
    AppendReadable(w, w');
    assert w'.log[..|w'.log| - 1] == w.log;
    var L, D := LedgerOf(w), DirectoryOf(w);
    ReplaySound(w.log, D);
    SoundShape(L, D);
    StepHasEffect(L, D, f);
    StepRecords(L, D, f);
    EffectSpendsWithin(L, D, LedgerOf(w'), f, who.agent, Dim.Steps);
    forall a | a in L.accounts ensures a in LedgerOf(w').accounts { EffectKeepsAccounts(L, D, LedgerOf(w'), f, a); }
  }

  lemma SpendKeeps(s: Loop, t: Loop, who: Who)
    requires Inv(s, who) && Spends(s, t, who)
    ensures Inv(t, who)
  {
    hide Readable, LedgerOf, LedgerAppends;
    AppendSpends(s.world, t.world, who, s.steps);
    assert Uncharged(LedgerOf(t.world), who, t.steps) == Uncharged(LedgerOf(s.world), who, s.steps);
  }

  lemma ChargeKeeps(s: Loop, t: Loop, who: Who, step: Id)
    requires Inv(s, who) && Charges(s, t, who, step)
    ensures Inv(t, who)
  {
    hide Readable, LedgerOf, LedgerAppends;
    AppendSpends(s.world, t.world, who, s.steps);
    var before, after := Uncharged(LedgerOf(s.world), who, s.steps), Uncharged(LedgerOf(t.world), who, t.steps);
    assert step in before;
    assert after <= before - {step};
    var x :| before <= {x};
    assert after == {};
  }

  lemma StartKeeps(s: Loop, t: Loop, who: Who, step: Id)
    requires Inv(s, who) && Starts(s, t, step)
    ensures Inv(t, who)
  {
    hide Readable, LedgerOf;
    assert Uncharged(LedgerOf(t.world), who, t.steps) <= Uncharged(LedgerOf(s.world), who, s.steps) + {step};
    assert Uncharged(LedgerOf(s.world), who, s.steps) == {};
    assert Uncharged(LedgerOf(t.world), who, t.steps) <= {step};
  }

  lemma PermitKeeps(s: Loop, t: Loop, who: Who)
    requires Inv(s, who) && Permits(s, t, who)
    ensures Inv(t, who)
  {
    hide Readable, LedgerOf;
  }

  lemma HireKeeps(s: Loop, t: Loop, who: Who)
    requires Inv(s, who) && Hires(s, t)
    ensures Inv(t, who)
  {
    hide Rebuilt, Replay, Conflicts, Managed;
    AppearReadable(s.world, t.world);
    var e := t.world.agents[|s.world.agents|];
    assert t.world == World(s.world.log, s.world.agents + [e]) by { assert t.world.agents == s.world.agents + [e]; }
    CreationKeepsReadable(s.world, e);
    ReplaySound(s.world.log, DirectoryOf(s.world));
    SoundShape(LedgerOf(s.world), DirectoryOf(s.world));
    PromoteAgrees(LedgerOf(s.world), DirectoryOf(s.world), DirectoryOf(t.world));
    PromotedSpends(LedgerOf(s.world), DirectoryOf(t.world), who.agent);
    hide Promote, Readable, LedgerOf, AgentAppears;
    assert Uncharged(LedgerOf(t.world), who, t.steps) == Uncharged(LedgerOf(s.world), who, s.steps);
  }

  lemma PromotedSpends(L: Ledger, E: Directory, a: Id)
    ensures a !in L.accounts && Bounds(Promote(L, E), a, Dim.Steps) ==> Used(Promote(L, E), a, Dim.Steps) == 0
    ensures Promote(L, E).operations == L.operations
  {
  }

  lemma NextKeeps(s: Loop, t: Loop, who: Who)
    requires Inv(s, who) && Next(s, t, who)
    ensures Inv(t, who)
  {
    if Spends(s, t, who) {
      SpendKeeps(s, t, who);
    } else if Permits(s, t, who) {
      PermitKeeps(s, t, who);
    } else if Hires(s, t) {
      HireKeeps(s, t, who);
    } else if step :| Charges(s, t, who, step) {
      ChargeKeeps(s, t, who, step);
    } else if step :| Starts(s, t, step) {
      StartKeeps(s, t, who, step);
    }
  }

  /** A run from a session with no open Step and an account within its limit. */
  ghost predicate Run(states: seq<Loop>, who: Who) {
    && |states| >= 1 && Inv(states[0], who) && !states[0].mayStart
    && Uncharged(LedgerOf(states[0].world), who, states[0].steps) == {}
    && (forall i | 0 < i < |states| :: Next(states[i - 1], states[i], who))
  }

  /** Whatever is delegated or charged while a Step runs, an account's Steps
      never exceed its limit by more than one. */
  lemma {:induction false} OvershootAtMostOne(states: seq<Loop>, who: Who, i: nat)
    requires Run(states, who) && i < |states|
    ensures Inv(states[i], who)
    ensures var L := LedgerOf(states[i].world);
      Bounds(L, who.agent, Dim.Steps) ==> L.accounts[who.agent].Used(Dim.Steps) <= L.accounts[who.agent].limits.steps.value + 1
  {
    if i > 0 {
      hide Next;
      OvershootAtMostOne(states, who, i - 1);
      NextKeeps(states[i - 1], states[i], who);
    }
  }
}
