/** Replaying a fact log by updating dictionaries in place. */
module Rebuild {
  import opened Prelude
  import opened Budget
  import opened Directory
  import opened Projection
  import opened LedgerShape
  import opened LedgerBounds

  /** A hold is found under its child and nothing else is. */
  ghost predicate ChildrenIndexed(L: Ledger) {
    && (forall r | r in L.holds :: L.holds[r].child in L.heldChild && L.heldChild[L.holds[r].child] == r)
    && (forall c | c in L.heldChild :: L.heldChild[c] in L.holds && L.holds[L.heldChild[c]].child == c)
  }

  lemma ReplayIndexes(log: seq<Fact>, d: Directory)
    requires Replay(log, d).Success?
    ensures ChildrenIndexed(Replay(log, d).value)
  {
    hide Replay;
    var L := Replay(log, d).value;
    ReplaySound(log, d);
    SoundShape(L, d);
    forall r | r in L.holds ensures L.holds[r].child in L.heldChild && L.heldChild[L.holds[r].child] == r {
      assert ShapeAt(L, d, r);
    }
    forall c | c in L.heldChild ensures L.heldChild[c] in L.holds && L.holds[L.heldChild[c]].child == c {
      assert ShapeAt(L, d, c);
    }
  }

  /** The dictionaries one replay builds up. */
  class Builder {
    const directory: Directory
    var accounts: map<Id, Account>
    var holds: map<Id, Hold>
    var usage: map<Id, UsageHold>
    var charges: map<Id, Charge>
    var decisions: map<Id, Decision>
    var operations: map<Id, Operation>
    var heldChild: map<Id, Id>
    var heldRequest: map<Id, Id>
    var head: nat

    constructor (d: Directory)
      ensures directory == d && View() == BLANK
    {
      directory := d;
      accounts, holds, usage, charges := map[], map[], map[], map[];
      decisions, operations, heldChild, heldRequest, head := map[], map[], map[], map[], 0;
    }

    function View(): Ledger
      reads this
    {
      Ledger(accounts, holds, usage, charges, decisions, operations, heldChild, heldRequest, head)
    }

    method GrantRoot(agent: Id, limits: Limits) returns (issue: Option<Code>)
      modifies this
      ensures issue.Some? ==> View() == old(View())
      ensures issue.Some? ==> Projection.GrantRoot(old(View()), directory, old(head) + 1, agent, limits) == Failure(issue.value)
      ensures issue.None? ==> Projection.GrantRoot(old(View()), directory, old(head) + 1, agent, limits) == Success(View())
    {
      var record := directory.Find(agent);
      if record.None? || record.value.who.owner.Some? { return Some(RootAgentInvalid); }
      if agent in accounts { return Some(RootDuplicate); }
      accounts := accounts[agent := FreshAccount(None, limits, head + 1)];
      return None;
    }

    /** The checks a reservation goes through, in order. */
    method CheckReservation(rid: Id, parent: Id, child: Id, request: Id, limits: Limits, retained: nat, initial: Option<int>)
      returns (issue: Option<Code>, debit: Amounts, durable: Option<AgentRecord>)
      ensures issue.Some? ==>
                Projection.ReserveChild(View(), directory, head + 1, rid, parent, child, request, limits, retained, initial)
                == Failure(issue.value)
      ensures issue.None? ==>
                && ReserveIssues(View(), rid, parent, child, request) == None
                && ReservationDebit(accounts[parent], limits, retained, initial) == Success(debit)
                && InitialLimits(limits, initial).Some?
                && DirectoryChild(directory, parent, child, request) == Success(durable)
    {
      hide HasCapacity, RetainsTokens, ChildDebit, DirectoryChild;
      debit, durable := NOTHING, None;
      if parent !in accounts { return Some(AccountUnknown), debit, durable; }
      var p := accounts[parent];
      if !p.Open() { return Some(AccountClosedCode), debit, durable; }
      if rid in holds || rid in usage { return Some(ReservationDuplicate), debit, durable; }
      if child == parent { return Some(DirectoryConflict), debit, durable; }
      if child in accounts { return Some(ChildAccountDuplicate), debit, durable; }
      if child in heldChild { return Some(ChildConflict), debit, durable; }
      if request in heldRequest { return Some(RequestConflict), debit, durable; }
      var whole := ChildDebit(p.limits, limits);
      if whole.Failure? { return Some(whole.error), debit, durable; }
      var granted := InitialLimits(limits, initial);
      if granted.None? { return Some(PayloadInvalid), debit, durable; }
      var taken := ChildDebit(p.limits, granted.value);
      if taken.Failure? { return Some(taken.error), debit, durable; }
      debit := taken.value;
      if !HasCapacity(p, debit, 1) { return Some(CapacityExceeded), debit, durable; }
      if !RetainsTokens(p, debit, retained) { return Some(RetainedTokensExhausted), debit, durable; }
      var found := DirectoryChild(directory, parent, child, request);
      if found.Failure? { return Some(found.error), debit, durable; }
      return None, debit, found.value;
    }

    method ReserveChild(rid: Id, parent: Id, child: Id, request: Id, limits: Limits, retained: nat, initial: Option<int>)
      returns (issue: Option<Code>)
      modifies this
      ensures issue.Some? ==> View() == old(View())
      ensures issue.Some? ==>
                Projection.ReserveChild(old(View()), directory, old(head) + 1, rid, parent, child, request, limits, retained, initial)
                == Failure(issue.value)
      ensures issue.None? ==>
                Projection.ReserveChild(old(View()), directory, old(head) + 1, rid, parent, child, request, limits, retained, initial)
                == Success(View())
    {
      hide ReservationDebit, DirectoryChild, ParseIssue;
      var debit, durable;
      issue, debit, durable := CheckReservation(rid, parent, child, request, limits, retained, initial);
      if issue.Some? { return; }
      var p := accounts[parent];
      holds := holds[rid := Hold(parent, child, request, limits, retained, initial,
                                 if durable.Some? then Committed else Pending, head + 1, None,
                                 if durable.Some? then Some(durable.value.created) else None)];
      heldChild := heldChild[child := rid];
      heldRequest := heldRequest[request := rid];
      accounts := accounts[parent := p.(delegated := p.delegated.Plus(debit), heldChildren := p.heldChildren + 1)];
      if durable.Some? {
        accounts := accounts[child := FreshAccount(Some(parent), holds[rid].Granted(), head + 1)];
      }
    }

    method CommitHold(rid: Id) returns (issue: Option<Code>)
      modifies this
      ensures issue.Some? ==> View() == old(View())
      ensures issue.Some? ==> Projection.CommitHold(old(View()), directory, old(head) + 1, rid) == Failure(issue.value)
      ensures issue.None? ==> Projection.CommitHold(old(View()), directory, old(head) + 1, rid) == Success(View())
    {
      if rid !in holds { return Some(ReservationUnknown); }
      var h := holds[rid];
      if h.status == Released || h.terminalAt.Some? { return Some(ReservationTerminal); }
      var durable := DirectoryChild(directory, h.parent, h.child, h.request);
      if durable.Failure? { return Some(durable.error); }
      if durable.value.None? { return Some(CommitWithoutAgent); }
      holds := holds[rid := h.(status := Committed, terminalAt := Some(head + 1), identityAt := Some(durable.value.value.created))];
      if h.child !in accounts {
        accounts := accounts[h.child := FreshAccount(Some(h.parent), h.Granted(), h.reservedAt)];
      }
      return None;
    }

    method ReleaseHold(rid: Id) returns (issue: Option<Code>)
      modifies this
      ensures issue.Some? ==> View() == old(View())
      ensures issue.Some? ==> Projection.ReleaseHold(old(View()), directory, old(head) + 1, rid) == Failure(issue.value)
      ensures issue.None? ==> Projection.ReleaseHold(old(View()), directory, old(head) + 1, rid) == Success(View())
    {
      if rid !in holds { return Some(ReservationUnknown); }
      var h := holds[rid];
      if h.status != Pending || h.terminalAt.Some? {
        return Some(if h.status == Committed then ReleaseAfterAgent else ReservationTerminal);
      }
      var durable := DirectoryChild(directory, h.parent, h.child, h.request);
      if durable.Failure? { return Some(durable.error); }
      if durable.value.Some? { return Some(ReleaseAfterAgent); }
      if h.parent !in accounts || InitialLimits(h.limits, h.initial).None? { return Some(PayloadInvalid); }
      var p := accounts[h.parent];
      var debit := ChildDebit(p.limits, h.Granted());
      if debit.Failure? { return Some(debit.error); }
      if !p.delegated.Covers(debit.value) { return Some(PayloadInvalid); }
      accounts := accounts[h.parent := p.(delegated := p.delegated.Minus(debit.value), heldChildren := p.heldChildren - 1)];
      holds := holds[rid := h.(status := Released, terminalAt := Some(head + 1))];
      return None;
    }

    /** The first hold for a child, over all holds. */
    method FindHold(child: Id) returns (found: Option<Id>)
      ensures found.Some? ==> found.value in holds && holds[found.value].child == child
      ensures found.None? ==> forall r | r in holds :: holds[r].child != child
    {
      var rest := holds.Keys;
      while rest != {}
        invariant rest <= holds.Keys && forall r | r in holds && r !in rest :: holds[r].child != child
        decreases |rest|
      {
        var r :| r in rest;
        if holds[r].child == child { return Some(r); }
        rest := rest - {r};
      }
      return None;
    }

    /** Whether the parent may allocate more tokens to the child.  The scan
        finds the one hold the index knows. */
    method CheckTokens(parent: Id, child: Id, tokens: nat) returns (issue: Option<Code>)
      requires ChildrenIndexed(View())
      ensures issue == TokenIssue(View(), parent, child, tokens)
    {
      if parent !in accounts || child !in accounts || accounts[child].parent != Some(parent) { return Some(TokenOwnerInvalid); }
      var p, c := accounts[parent], accounts[child];
      if !p.Open() || !c.Open() { return Some(AccountClosedCode); }
      var found := FindHold(child);
      if found.None? { return Some(TokenEnvelopeInvalid); }
      var h := holds[found.value];
      if h.status != Committed || c.limits.tokens.None? || h.limits.tokens.None? { return Some(TokenEnvelopeInvalid); }
      if c.limits.tokens.value + tokens > h.limits.tokens.value { return Some(TokenCeilingExceeded); }
      if tokens > 0 {
        var debit := Amounts(tokens, 0, 0, 0);
        if !HasCapacity(p, debit, 0) { return Some(CapacityExceeded); }
        if !RetainsTokens(p, debit, h.retained) { return Some(RetainedTokensExhausted); }
      }
      return None;
    }

    method DecideTokens(op: Id, request: Id, parent: Id, child: Id, tokens: nat, reason: string) returns (issue: Option<Code>)
      requires ChildrenIndexed(View())
      modifies this
      ensures issue.Some? ==> View() == old(View())
      ensures issue.Some? ==>
                Projection.DecideTokens(old(View()), old(head) + 1, op, request, parent, child, tokens, reason) == Failure(issue.value)
      ensures issue.None? ==>
                Projection.DecideTokens(old(View()), old(head) + 1, op, request, parent, child, tokens, reason) == Success(View())
    {
      if request in decisions { return Some(RequestAlreadyDecided); }
      issue := CheckTokens(parent, child, tokens);
      if issue.Some? { return issue; }
      var p, c := accounts[parent], accounts[child];
      accounts := accounts[parent := p.(delegated := p.delegated.Plus(Amounts(tokens, 0, 0, 0)))];
      accounts := accounts[child := c.(limits := c.limits.(tokens := Some(c.limits.tokens.value + tokens)))];
      decisions := decisions[request := Decision(parent, child, tokens, reason, op, head + 1)];
    }

    method ChargeUsage(op: Id, agent: Id, amounts: Amounts, mode: Mode, quality: Option<Quality>) returns (issue: Option<Code>)
      modifies this
      ensures issue.Some? ==> View() == old(View())
      ensures issue.Some? ==>
                Projection.ChargeUsage(old(View()), old(head) + 1, op, agent, amounts, mode, quality) == Failure(issue.value)
      ensures issue.None? ==>
                Projection.ChargeUsage(old(View()), old(head) + 1, op, agent, amounts, mode, quality) == Success(View())
    {
      if agent !in accounts { return Some(AccountUnknown); }
      var a := accounts[agent];
      if !a.Open() { return Some(AccountClosedCode); }
      if !AllActive(a, amounts) { return Some(ChargeInactive); }
      if mode == Admission && !HasCapacity(a, amounts, 0) { return Some(CapacityExceeded); }
      accounts := accounts[agent := a.(charged := a.charged.Plus(amounts))];
      charges := charges[op := Charge(agent, amounts, mode, quality, head + 1)];
      return None;
    }

    method ReserveUsage(rid: Id, agent: Id, amounts: Amounts) returns (issue: Option<Code>)
      modifies this
      ensures issue.Some? ==> View() == old(View())
      ensures issue.Some? ==> Projection.ReserveUsage(old(View()), old(head) + 1, rid, agent, amounts) == Failure(issue.value)
      ensures issue.None? ==> Projection.ReserveUsage(old(View()), old(head) + 1, rid, agent, amounts) == Success(View())
    {
      if agent !in accounts { return Some(AccountUnknown); }
      var a := accounts[agent];
      if !a.Open() { return Some(AccountClosedCode); }
      if rid in holds || rid in usage { return Some(ReservationDuplicate); }
      if !AllActive(a, amounts) { return Some(ChargeInactive); }
      if !HasCapacity(a, amounts, 0) { return Some(CapacityExceeded); }
      usage := usage[rid := UsageHold(agent, amounts, UsagePending, head + 1, None, None, None, None)];
      accounts := accounts[agent := a.(reserved := a.reserved.Plus(amounts))];
      return None;
    }

    method StartUsage(rid: Id) returns (issue: Option<Code>)
      modifies this
      ensures issue.Some? ==> View() == old(View())
      ensures issue.Some? ==> Projection.StartUsage(old(View()), old(head) + 1, rid) == Failure(issue.value)
      ensures issue.None? ==> Projection.StartUsage(old(View()), old(head) + 1, rid) == Success(View())
    {
      if rid !in usage { return Some(UsageReservationUnknown); }
      if usage[rid].status != UsagePending { return Some(ReservationTerminal); }
      usage := usage[rid := usage[rid].(status := Started, startedAt := Some(head + 1))];
      return None;
    }

    method SettleUsage(rid: Id, amounts: Amounts, quality: Option<Quality>) returns (issue: Option<Code>)
      modifies this
      ensures issue.Some? ==> View() == old(View())
      ensures issue.Some? ==> Projection.SettleUsage(old(View()), old(head) + 1, rid, amounts, quality) == Failure(issue.value)
      ensures issue.None? ==> Projection.SettleUsage(old(View()), old(head) + 1, rid, amounts, quality) == Success(View())
    {
      if rid !in usage { return Some(UsageReservationUnknown); }
      var h := usage[rid];
      if h.status != Started { return Some(ReservationTerminal); }
      if h.agent !in accounts { return Some(AccountUnknown); }
      if !SettlementMatches(h, amounts, quality) { return Some(UsageSettlementInvalid); }
      var a := accounts[h.agent];
      if !a.reserved.Covers(h.amounts) { return Some(PayloadInvalid); }
      accounts := accounts[h.agent := a.(reserved := a.reserved.Minus(h.amounts), charged := a.charged.Plus(amounts))];
      usage := usage[rid := h.(status := Settled, terminalAt := Some(head + 1), settled := Some(amounts), quality := quality)];
      return None;
    }

    method ReleaseUsage(rid: Id) returns (issue: Option<Code>)
      modifies this
      ensures issue.Some? ==> View() == old(View())
      ensures issue.Some? ==> Projection.ReleaseUsage(old(View()), old(head) + 1, rid) == Failure(issue.value)
      ensures issue.None? ==> Projection.ReleaseUsage(old(View()), old(head) + 1, rid) == Success(View())
    {
      if rid !in usage { return Some(UsageReservationUnknown); }
      var h := usage[rid];
      if h.status != UsagePending { return Some(ReservationTerminal); }
      if h.agent !in accounts { return Some(AccountUnknown); }
      var a := accounts[h.agent];
      if !a.reserved.Covers(h.amounts) { return Some(PayloadInvalid); }
      accounts := accounts[h.agent := a.(reserved := a.reserved.Minus(h.amounts))];
      usage := usage[rid := h.(status := Dropped, terminalAt := Some(head + 1))];
      return None;
    }

    /** Whether some hold of the account is still pending, over all holds. */
    method AnyPending(agent: Id) returns (found: bool)
      ensures found <==> exists r | r in holds :: holds[r].parent == agent && holds[r].status == Pending
    {
      var rest := holds.Keys;
      while rest != {}
        invariant rest <= holds.Keys
        invariant forall r | r in holds && r !in rest :: !(holds[r].parent == agent && holds[r].status == Pending)
        decreases |rest|
      {
        var r :| r in rest;
        if holds[r].parent == agent && holds[r].status == Pending { return true; }
        rest := rest - {r};
      }
      return false;
    }

    /** Whether some usage hold of the account is active, over all of them. */
    method AnyActive(agent: Id) returns (found: bool)
      ensures found <==> exists r | r in usage :: usage[r].agent == agent && usage[r].Active()
    {
      var rest := usage.Keys;
      while rest != {}
        invariant rest <= usage.Keys
        invariant forall r | r in usage && r !in rest :: !(usage[r].agent == agent && usage[r].Active())
        decreases |rest|
      {
        var r :| r in rest;
        if usage[r].agent == agent && usage[r].Active() { return true; }
        rest := rest - {r};
      }
      return false;
    }

    method CloseAccount(agent: Id) returns (issue: Option<Code>)
      modifies this
      ensures issue.Some? ==> View() == old(View())
      ensures issue.Some? ==> Projection.CloseAccount(old(View()), old(head) + 1, agent) == Failure(issue.value)
      ensures issue.None? ==> Projection.CloseAccount(old(View()), old(head) + 1, agent) == Success(View())
    {
      if agent !in accounts { return Some(AccountUnknown); }
      if !accounts[agent].Open() { return Some(CloseDuplicate); }
      var pending := AnyPending(agent);
      if pending { return Some(CloseWithPending); }
      var active := AnyActive(agent);
      if active { return Some(CloseWithPending); }
      accounts := accounts[agent := accounts[agent].(closed := Some(head + 1))];
      return None;
    }

    method Apply(f: Fact) returns (issue: Option<Code>)
      requires ChildrenIndexed(View())
      modifies this
      ensures issue.Some? ==> View() == old(View())
      ensures issue.Some? ==> Projection.Apply(old(View()), directory, f) == Failure(issue.value)
      ensures issue.None? ==> Projection.Apply(old(View()), directory, f) == Success(View())
    {
      match f
      case RootGranted(_, agent, limits) => issue := GrantRoot(agent, limits);
      case ChildReserved(_, rid, parent, child, request, limits, retained, initial) =>
        issue := ReserveChild(rid, parent, child, request, limits, retained, initial);
      case HoldCommitted(_, rid) => issue := CommitHold(rid);
      case HoldReleased(_, rid) => issue := ReleaseHold(rid);
      case TokensDecided(op, request, parent, child, tokens, reason) =>
        issue := DecideTokens(op, request, parent, child, tokens, reason);
      case UsageCharged(op, agent, amounts, mode, quality) => issue := ChargeUsage(op, agent, amounts, mode, quality);
      case UsageReserved(_, rid, agent, amounts) => issue := ReserveUsage(rid, agent, amounts);
      case UsageStarted(_, rid) => issue := StartUsage(rid);
      case UsageSettled(_, rid, amounts, quality) => issue := SettleUsage(rid, amounts, quality);
      case UsageReleased(_, rid) => issue := ReleaseUsage(rid);
      case AccountClosed(_, agent) => issue := CloseAccount(agent);
    }

    /** One iteration of the replay loop. */
    method Accept(f: Fact) returns (issue: Option<Code>)
      requires ChildrenIndexed(View())
      modifies this
      ensures issue.Some? ==> View() == old(View())
      ensures issue.Some? ==> Step(old(View()), directory, f) == Failure(issue.value)
      ensures issue.None? ==> Step(old(View()), directory, f) == Success(View())
    {
      issue := ParseIssue(f);
      if issue.Some? { return; }
      if f.op in operations { return Some(OperationDuplicate); }
      var at := head + 1;
      issue := Apply(f);
      if issue.Some? { return; }
      operations := operations[f.op := Operation(f, at)];
      head := at;
    }
  }

  /** The loop over the log stops at the first unacceptable fact and reports
      its code and position; otherwise it returns the replayed ledger. */
  method Rebuild(log: seq<Fact>, d: Directory) returns (r: Outcome, at: nat)
    ensures r == Replay(log, d)
    ensures r.Success? ==> at == |log|
    ensures r.Failure? ==> 1 <= at <= |log| && Replay(log[..at - 1], d).Success? && Replay(log[..at], d) == r
  {
    hide Step, ChildrenIndexed;
    var b := new Builder(d);
    at := 0;
    while at < |log|
      invariant at <= |log| && b.directory == d && Replay(log[..at], d) == Success(b.View())
    {
      ReplayIndexes(log[..at], d);
      var issue := b.Accept(log[at]);
      at := at + 1;
      assert log[..at][..at - 1] == log[..at - 1];
      if issue.Some? {
        FailureStays(log, at, d);
        return Failure(issue.value), at;
      }
    }
    assert log[..|log|] == log;
    return Success(b.View()), at;
  }

  lemma {:induction false} FailureStays(log: seq<Fact>, n: nat, d: Directory)
    requires n <= |log| && Replay(log[..n], d).Failure?
    ensures Replay(log, d) == Replay(log[..n], d)
  {
    if n == |log| {
      assert log[..n] == log;
    } else {
      assert log[..|log| - 1][..n] == log[..n];
      FailureStays(log[..|log| - 1], n, d);
    }
  }
}
