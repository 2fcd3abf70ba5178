/** Histories in which a guarded write makes the ledger unreadable: the guards
    do not look at everything replay does. */
module GuardGaps {
  import opened Prelude
  import opened Budget
  import opened Directory
  import opened Projection
  import opened Overdraft
  import opened Service

  /** One root Agent with a grant, and three operations. */
  datatype Scene = Scene(root: Id, limits: Limits, first: Id, second: Id, third: Id) {
    predicate Valid() { limits.InRange() && first != second && first != third && second != third }

    function Agents(): Directory { EMPTY.With(Creation(root, root, root, root, root, None, None, [], ""), 1) }

    function Grant(): Fact { RootGranted(first, root, limits) }

    function Granted(): Ledger {
      Recorded(BLANK.(accounts := map[root := FreshAccount(None, limits, 1)]), Grant(), 1)
    }
  }

  lemma GrantReplays(s: Scene)
    requires s.Valid()
    ensures Replay([s.Grant()], s.Agents()) == Success(s.Granted())
  {
    assert [s.Grant()][..0] == [];
    assert Replay([], s.Agents()) == Success(BLANK);
  }

  /** The ledger after a second, accepted fact. */
  lemma SecondReplays(s: Scene, f: Fact)
    requires s.Valid() && Step(s.Granted(), s.Agents(), f).Success?
    ensures Replay([s.Grant()] + [f], s.Agents()) == Step(s.Granted(), s.Agents(), f)
  {
    hide Step;
    GrantReplays(s);
    ReplayAppend([s.Grant()], f, s.Agents());
  }

  // ---- Tool admission looks only at Tool calls ----

  lemma ObservedStepsReplay(s: Scene, steps: nat)
    requires s.Valid() && s.limits.steps.Some? && 0 < steps <= MAX_BUDGET_VALUE
    ensures var next := Step(s.Granted(), s.Agents(), UsageCharged(s.second, s.root, Amounts(0, steps, 0, 0), Observation, None));
      next.Success?
      && s.third !in next.value.operations && s.third !in next.value.charges
      && s.root in next.value.accounts
      && next.value.accounts[s.root] == FreshAccount(None, s.limits, 1).(charged := Amounts(0, steps, 0, 0))
  {
  }

  /** An observation is recorded although it takes the account past its limit. */
  lemma ObservationCanOverdraw(s: Scene, steps: nat) returns (log: seq<Fact>)
    requires s.Valid() && s.limits.steps.Some? && s.limits.steps.value < steps <= MAX_BUDGET_VALUE
    ensures Replay(log, s.Agents()).Success? && !Within(Replay(log, s.Agents()).value, s.root, Steps)
  {
    hide Replay, Step;
    var f := UsageCharged(s.second, s.root, Amounts(0, steps, 0, 0), Observation, None);
    ObservedStepsReplay(s, steps);
    SecondReplays(s, f);
    log := [s.Grant()] + [f];
  }

  lemma ToolIsDecided(L: Ledger, D: Directory, op: Id, agent: Id, requested: nat)
    requires agent in L.accounts && L.accounts[agent].Open() && L.accounts[agent].limits.toolCalls.Some?
    requires L.accounts[agent].Used(ToolCalls) == 0
    requires 1 <= requested <= Min(L.accounts[agent].limits.toolCalls.value, MAX_BUDGET_VALUE)
    requires op !in L.operations && op !in L.charges
    ensures Decide(L, D, AskTools(op, agent, requested))
         == Write(UsageCharged(op, agent, Amounts(0, 0, requested, 0), Admission, None))
  {
  }

  lemma ToolIsRefused(L: Ledger, D: Directory, op: Id, agent: Id, requested: nat)
    requires agent in L.accounts && L.accounts[agent].Open() && L.accounts[agent].limits.toolCalls.Some?
    requires L.accounts[agent].limits.steps.Some? && L.accounts[agent].Used(Steps) > L.accounts[agent].limits.steps.value
    requires op !in L.operations && 1 <= requested <= MAX_BUDGET_VALUE
    ensures Step(L, D, UsageCharged(op, agent, Amounts(0, 0, requested, 0), Admission, None)) == Failure(CapacityExceeded)
    ensures !Unclashing(L, AskTools(op, agent, requested))
  {
    assert !FitsIn(L.accounts[agent], NOTHING, Steps);
  }

  /** Observed Steps put the account past its Step limit; a Tool call that its
      Tool limit allows is admitted and written, and then no reader accepts the
      ledger any more. */
  lemma ToolAdmissionCanCorrupt(s: Scene) returns (log: seq<Fact>, q: Request)
    requires s.Valid() && s.limits.toolCalls.Some? && s.limits.toolCalls.value >= 1
    requires s.limits.steps.Some? && s.limits.steps.value < MAX_BUDGET_VALUE
    ensures q.AskTools? && Replay(log, s.Agents()).Success?
    ensures var L := Replay(log, s.Agents()).value;
      && Decide(L, s.Agents(), q).Write? && !Unclashing(L, q)
      && Replay(log + [Decide(L, s.Agents(), q).fact], s.Agents()) == Failure(CapacityExceeded)
  {
    hide Replay, Step, Decide, Unclashing;
    var over := s.limits.steps.value + 1;
    var f := UsageCharged(s.second, s.root, Amounts(0, over, 0, 0), Observation, None);
    ObservedStepsReplay(s, over);
    SecondReplays(s, f);
    log, q := [s.Grant()] + [f], AskTools(s.third, s.root, 1);
    var L := Replay(log, s.Agents()).value;
    ToolIsDecided(L, s.Agents(), s.third, s.root, 1);
    ToolIsRefused(L, s.Agents(), s.third, s.root, 1);
    ReplayAppend(log, Decide(L, s.Agents(), q).fact, s.Agents());
  }

  // ---- each kind of reservation looks only for its own ids ----

  lemma UsageReservationReplays(s: Scene, rid: Id, tokens: nat)
    requires s.Valid() && s.limits.tokens.Some? && 0 < tokens <= s.limits.tokens.value
    ensures var next := Step(s.Granted(), s.Agents(), UsageReserved(s.second, rid, s.root, Amounts(tokens, 0, 0, 0)));
      next.Success? && s.third !in next.value.operations && next.value.usage.Keys == {rid} && next.value.holds == map[]
      && next.value.accounts.Keys == {s.root} && next.value.heldChild == map[] && next.value.heldRequest == map[]
      && next.value.accounts[s.root] == FreshAccount(None, s.limits, 1).(reserved := Amounts(tokens, 0, 0, 0))
  {
  }

  /** Any child the root can afford may be reserved under an id a usage hold
      already has: the service writes it, and replay rejects it. */
  lemma SharedReservationIdCanCorrupt(s: Scene, rid: Id, child: Id, tokens: nat, limits: Limits)
      returns (log: seq<Fact>, q: Request)
    requires s.Valid() && s.limits.tokens.Some? && 0 < tokens <= s.limits.tokens.value
    requires child != s.root && limits.InRange()
    requires ReservationDebit(FreshAccount(None, s.limits, 1).(reserved := Amounts(tokens, 0, 0, 0)), limits, 0, None).Success?
    ensures q.AskChild? && Replay(log, s.Agents()).Success?
    ensures var L := Replay(log, s.Agents()).value;
      && Decide(L, s.Agents(), q).Write? && !Unclashing(L, q)
      && Replay(log + [Decide(L, s.Agents(), q).fact], s.Agents()) == Failure(ReservationDuplicate)
  {
    var f := UsageReserved(s.second, rid, s.root, Amounts(tokens, 0, 0, 0));
    UsageReservationReplays(s, rid, tokens);
    SecondReplays(s, f);
    hide Replay, ReservationDebit, Decide, Step;
    log, q := [s.Grant()] + [f], AskChild(s.third, rid, s.root, child, child, limits, 0, None);
    var L := Replay(log, s.Agents()).value;
    assert NamesNeither(s.Agents(), child, child);
    SharedIdIsDecided(L, s.Agents(), q);
    SharedIdIsRefused(L, s.Agents(), FactOf(L, q));
    ReplayAppend(log, Decide(L, s.Agents(), q).fact, s.Agents());
  }

  lemma SharedIdIsDecided(L: Ledger, D: Directory, q: Request)
    requires q.AskChild? && q.limits.InRange() && q.retained == 0 && q.initial == None && q.parent != q.child
    requires q.op !in L.operations && L.holds == map[] && q.rid in L.usage && L.heldChild == L.heldRequest == map[]
    requires q.parent in L.accounts && L.accounts[q.parent].Open() && q.child !in L.accounts
    requires NamesNeither(D, q.child, q.request)
    requires ReservationDebit(L.accounts[q.parent], q.limits, 0, None).Success?
    ensures Decide(L, D, q) == Write(FactOf(L, q)) && !Unclashing(L, q)
  {
    hide HasCapacity, RetainsTokens, ChildDebit;
  }

  lemma SharedIdIsRefused(L: Ledger, D: Directory, f: Fact)
    requires f.ChildReserved? && f.limits.InRange() && f.retained == 0 && f.initial == None && f.parent != f.child
    requires f.op !in L.operations && f.rid in L.usage && f.parent in L.accounts && L.accounts[f.parent].Open()
    ensures Step(L, D, f) == Failure(ReservationDuplicate)
  {
    hide ReservationDebit;
  }
}
