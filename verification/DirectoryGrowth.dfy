/** A newer Directory under an older log: exactly when the log still replays,
    and what the later identities change. */
module DirectoryGrowth {
  import opened Prelude
  import opened Budget
  import opened Directory
  import opened Projection
  import opened LedgerShape
  import opened LedgerBounds

  /** A hold whose child has appeared in the later Directory. */
  function Promoted(h: Hold, D: Directory): Hold {
    if h.status == Pending && h.child in D.byAgent
    then h.(status := Committed, identityAt := Some(D.byAgent[h.child].created))
    else h
  }

  function PromotedHolds(holds: map<Id, Hold>, D: Directory): map<Id, Hold> {
    map r | r in holds :: Promoted(holds[r], D)
  }

  predicate Newborn(holds: map<Id, Hold>, heldChild: map<Id, Id>, D: Directory, c: Id) {
    c in heldChild && heldChild[c] in holds && holds[heldChild[c]].status == Pending && c in D.byAgent
  }

  /** Fresh, unused accounts for the children that appeared. */
  function Newborns(holds: map<Id, Hold>, heldChild: map<Id, Id>, D: Directory): map<Id, Account> {
    map c | c in heldChild && Newborn(holds, heldChild, D, c) ::
      FreshAccount(Some(holds[heldChild[c]].parent), holds[heldChild[c]].Granted(), holds[heldChild[c]].reservedAt)
  }

  /** The same ledger seen with the later Directory. */
  function Promote(L: Ledger, D: Directory): Ledger {
    L.(holds := PromotedHolds(L.holds, D), accounts := L.accounts + Newborns(L.holds, L.heldChild, D))
  }

  /** What a caller can check: released holds are not named by the Directory,
      and a pending hold is named exactly or not at all. */
  ghost predicate FitsAt(L: Ledger, D: Directory, r: Id) {
    r in L.holds ==>
      var h := L.holds[r];
      && (h.status == Pending ==> NamesNeither(D, h.child, h.request) || NamesExactly(D, h.parent, h.child, h.request))
      && (h.status == Released ==> NamesNeither(D, h.child, h.request))
  }

  ghost predicate Fits(L: Ledger, D: Directory) {
    forall r {:trigger FitsAt(L, D, r)} :: FitsAt(L, D, r)
  }

  lemma NewbornsAreNew(L: Ledger, D: Directory, E: Directory)
    requires Shape(L, D)
    ensures L.accounts.Keys !! Newborns(L.holds, L.heldChild, E).Keys
  {
    forall c | c in Newborns(L.holds, L.heldChild, E) ensures c !in L.accounts {
      assert ShapeAt(L, D, c) && ShapeAt(L, D, L.heldChild[c]);
    }
  }

  // ---- a step sees only part of the ledger ----

  /** `P` answers every question about `L`'s own entries as `L` does. */
  ghost predicate Agrees(L: Ledger, P: Ledger) {
    && P.operations == L.operations && P.head == L.head && P.usage == L.usage && P.charges == L.charges
    && P.decisions == L.decisions && P.heldChild == L.heldChild && P.heldRequest == L.heldRequest
    && P.holds.Keys == L.holds.Keys
    && (forall a | a in L.accounts :: a in P.accounts && P.accounts[a] == L.accounts[a])
  }

  /** `P` after a step that took `L` to `N` by rewriting account `a`. */
  function Carried(N: Ledger, P: Ledger, a: Id): Ledger
    requires a in N.accounts
  {
    P.(accounts := P.accounts[a := N.accounts[a]], usage := N.usage, charges := N.charges,
       operations := N.operations, head := N.head)
  }

  lemma RootCarries(L: Ledger, D: Directory, P: Ledger, E: Directory, f: Fact)
    requires Agrees(L, P) && D.GrowsTo(E) && f.RootGranted? && Step(L, D, f).Success? && f.agent !in P.accounts
    ensures f.agent in Step(L, D, f).value.accounts && Step(P, E, f) == Success(Carried(Step(L, D, f).value, P, f.agent))
  {
  }

  lemma ChargeCarries(L: Ledger, D: Directory, P: Ledger, E: Directory, f: Fact)
    requires Agrees(L, P) && f.UsageCharged? && Step(L, D, f).Success?
    ensures f.agent in Step(L, D, f).value.accounts && Step(P, E, f) == Success(Carried(Step(L, D, f).value, P, f.agent))
  {
  }

  lemma ReserveUsageCarries(L: Ledger, D: Directory, P: Ledger, E: Directory, f: Fact)
    requires Agrees(L, P) && f.UsageReserved? && Step(L, D, f).Success?
    ensures f.agent in Step(L, D, f).value.accounts && Step(P, E, f) == Success(Carried(Step(L, D, f).value, P, f.agent))
  {
  }

  lemma StartCarries(L: Ledger, D: Directory, P: Ledger, E: Directory, f: Fact)
    requires Agrees(L, P) && f.UsageStarted? && Step(L, D, f).Success? && L.usage[f.rid].agent in L.accounts
    ensures f.rid in L.usage && L.usage[f.rid].agent in Step(L, D, f).value.accounts
    ensures Step(P, E, f) == Success(Carried(Step(L, D, f).value, P, L.usage[f.rid].agent))
  {
    var a := L.usage[f.rid].agent;
    assert P.accounts[a := P.accounts[a]] == P.accounts;
  }

  lemma SettleCarries(L: Ledger, D: Directory, P: Ledger, E: Directory, f: Fact)
    requires Agrees(L, P) && f.UsageSettled? && Step(L, D, f).Success?
    ensures f.rid in L.usage && L.usage[f.rid].agent in Step(L, D, f).value.accounts
    ensures Step(P, E, f) == Success(Carried(Step(L, D, f).value, P, L.usage[f.rid].agent))
  {
  }

  lemma ReleaseUsageCarries(L: Ledger, D: Directory, P: Ledger, E: Directory, f: Fact)
    requires Agrees(L, P) && f.UsageReleased? && Step(L, D, f).Success?
    ensures f.rid in L.usage && L.usage[f.rid].agent in Step(L, D, f).value.accounts
    ensures Step(P, E, f) == Success(Carried(Step(L, D, f).value, P, L.usage[f.rid].agent))
  {
  }

  lemma CloseCarries(L: Ledger, D: Directory, P: Ledger, E: Directory, f: Fact)
    requires Agrees(L, P) && f.AccountClosed? && Step(L, D, f).Success? && MayClose(P, f.agent)
    ensures f.agent in Step(L, D, f).value.accounts && Step(P, E, f) == Success(Carried(Step(L, D, f).value, P, f.agent))
  {
  }

  // ---- the step taken with the later Directory is the promoted step ----

  ghost predicate Mirrors(L: Ledger, E: Directory, f: Fact, N: Ledger) {
    Step(Promote(L, E), E, f) == Success(Promote(N, E))
  }

  lemma PromoteAgrees(L: Ledger, D: Directory, E: Directory)
    requires Shape(L, D)
    ensures Agrees(L, Promote(L, E))
  {
    NewbornsAreNew(L, D, E);
  }

  lemma PutCommutes<V>(m: map<Id, V>, n: map<Id, V>, k: Id, v: V)
    requires k !in n
    ensures m[k := v] + n == (m + n)[k := v]
  {
  }

  lemma CarriedIsPromoted(L: Ledger, D: Directory, N: Ledger, E: Directory, a: Id)
    requires a in N.accounts && a !in Newborns(L.holds, L.heldChild, E)
    requires N == L.(accounts := L.accounts[a := N.accounts[a]], usage := N.usage, charges := N.charges,
                     operations := N.operations, head := N.head)
    ensures Carried(N, Promote(L, E), a) == Promote(N, E)
  {
    hide Newborns, PromotedHolds;
    PutCommutes(L.accounts, Newborns(L.holds, L.heldChild, E), a, N.accounts[a]);
  }

  /** Facts that rewrite one account and leave holds alone. */
  lemma SingleMirrors(L: Ledger, D: Directory, E: Directory, f: Fact, a: Id)
    requires Shape(L, D) && Step(L, D, f).Success?
    requires var N := Step(L, D, f).value;
      && a in N.accounts && a !in Newborns(L.holds, L.heldChild, E)
      && N == L.(accounts := L.accounts[a := N.accounts[a]], usage := N.usage, charges := N.charges,
                 operations := N.operations, head := N.head)
      && Step(Promote(L, E), E, f) == Success(Carried(N, Promote(L, E), a))
    ensures Mirrors(L, E, f, Step(L, D, f).value)
  {
    hide Step, Promote;
    CarriedIsPromoted(L, D, Step(L, D, f).value, E, a);
  }

  lemma RootNotNewborn(L: Ledger, D: Directory, E: Directory, a: Id)
    requires Shape(L, D) && D.GrowsTo(E) && Fits(L, E)
    requires D.Find(a).Some? && D.Find(a).value.who.owner == None
    ensures a !in Newborns(L.holds, L.heldChild, E)
  {
    var r := if a in L.heldChild then L.heldChild[a] else a;
    assert ShapeAt(L, D, a) && FitsAt(L, E, r);
  }

  lemma StartMirrors(L: Ledger, D: Directory, E: Directory, f: Fact)
    requires Shape(L, D) && Step(L, D, f).Success? && f.UsageStarted?
    ensures Mirrors(L, E, f, Step(L, D, f).value)
  {
    hide Step, Promote, Newborns, Mirrors;
    StepHasEffect(L, D, f);
    PromoteAgrees(L, D, E);
    NewbornsAreNew(L, D, E);
    StartCarries(L, D, Promote(L, E), E, f);
    SingleMirrors(L, D, E, f, L.usage[f.rid].agent);
  }

  lemma SettleMirrors(L: Ledger, D: Directory, E: Directory, f: Fact)
    requires Shape(L, D) && Step(L, D, f).Success? && f.UsageSettled?
    ensures Mirrors(L, E, f, Step(L, D, f).value)
  {
    hide Step, Promote, Newborns, Mirrors;
    StepHasEffect(L, D, f);
    PromoteAgrees(L, D, E);
    NewbornsAreNew(L, D, E);
    SettleCarries(L, D, Promote(L, E), E, f);
    SingleMirrors(L, D, E, f, L.usage[f.rid].agent);
  }

  lemma ReleaseUsageMirrors(L: Ledger, D: Directory, E: Directory, f: Fact)
    requires Shape(L, D) && Step(L, D, f).Success? && f.UsageReleased?
    ensures Mirrors(L, E, f, Step(L, D, f).value)
  {
    hide Step, Promote, Newborns, Mirrors;
    StepHasEffect(L, D, f);
    PromoteAgrees(L, D, E);
    NewbornsAreNew(L, D, E);
    ReleaseUsageCarries(L, D, Promote(L, E), E, f);
    SingleMirrors(L, D, E, f, L.usage[f.rid].agent);
  }

  lemma ChargeMirrors(L: Ledger, D: Directory, E: Directory, f: Fact)
    requires Shape(L, D) && Step(L, D, f).Success? && f.UsageCharged?
    ensures Mirrors(L, E, f, Step(L, D, f).value)
  {
    hide Step, Promote, Newborns, Mirrors;
    StepHasEffect(L, D, f);
    PromoteAgrees(L, D, E);
    NewbornsAreNew(L, D, E);
    ChargeCarries(L, D, Promote(L, E), E, f);
    SingleMirrors(L, D, E, f, f.agent);
  }

  lemma ReserveUsageMirrors(L: Ledger, D: Directory, E: Directory, f: Fact)
    requires Shape(L, D) && Step(L, D, f).Success? && f.UsageReserved?
    ensures Mirrors(L, E, f, Step(L, D, f).value)
  {
    hide Step, Promote, Newborns, Mirrors;
    StepHasEffect(L, D, f);
    PromoteAgrees(L, D, E);
    NewbornsAreNew(L, D, E);
    ReserveUsageCarries(L, D, Promote(L, E), E, f);
    SingleMirrors(L, D, E, f, f.agent);
  }

  lemma PromoteMayClose(L: Ledger, E: Directory, a: Id)
    requires MayClose(L, a)
    ensures MayClose(Promote(L, E), a)
  {
  }

  lemma CloseMirrors(L: Ledger, D: Directory, E: Directory, f: Fact)
    requires Shape(L, D) && Step(L, D, f).Success? && f.AccountClosed?
    ensures Mirrors(L, E, f, Step(L, D, f).value)
  {
    hide Step, Promote, Newborns, Mirrors;
    StepHasEffect(L, D, f);
    PromoteAgrees(L, D, E);
    NewbornsAreNew(L, D, E);
    PromoteMayClose(L, E, f.agent);
    CloseCarries(L, D, Promote(L, E), E, f);
    SingleMirrors(L, D, E, f, f.agent);
  }

  lemma NotYetBorn(L: Ledger, E: Directory, a: Id)
    requires a !in L.accounts && a !in Newborns(L.holds, L.heldChild, E)
    ensures a !in Promote(L, E).accounts
  {
  }

  lemma RootMirrors(L: Ledger, D: Directory, E: Directory, f: Fact)
    requires Shape(L, D) && Step(L, D, f).Success? && f.RootGranted? && D.GrowsTo(E) && Fits(L, E)
    ensures Mirrors(L, E, f, Step(L, D, f).value)
  {
    hide Step, Promote, Newborns, Mirrors;
    StepHasEffect(L, D, f);
    PromoteAgrees(L, D, E);
    RootNotNewborn(L, D, E, f.agent);
    NotYetBorn(L, E, f.agent);
    RootCarries(L, D, Promote(L, E), E, f);
    SingleMirrors(L, D, E, f, f.agent);
  }

  lemma CommitCarries(L: Ledger, D: Directory, P: Ledger, E: Directory, f: Fact)
    requires Shape(L, D) && D.GrowsTo(E) && Agrees(L, P) && f.HoldCommitted? && Step(L, D, f).Success?
    requires P.holds[f.rid] == L.holds[f.rid]
    ensures var N := Step(L, D, f).value;
      f.rid in N.holds
      && Step(P, E, f) == Success(P.(holds := P.holds[f.rid := N.holds[f.rid]], operations := N.operations, head := N.head))
  {
    assert ShapeAt(L, D, f.rid);
  }

  /** Rewriting a hold that is not about to be promoted promotes the rest. */
  lemma HoldPutCommutes(L: Ledger, E: Directory, r: Id, h: Hold)
    requires r in L.holds && h.child == L.holds[r].child && Promoted(h, E) == h && Promoted(L.holds[r], E) == L.holds[r]
    requires ChildIndexed(L, h.child)
    requires h.child in L.heldChild && L.heldChild[h.child] == r
    requires forall c | c in L.heldChild && L.heldChild[c] == r :: c == h.child
    ensures Newborns(L.holds[r := h], L.heldChild, E) == Newborns(L.holds, L.heldChild, E)
    ensures PromotedHolds(L.holds[r := h], E) == PromotedHolds(L.holds, E)[r := h]
  {
  }

  lemma OnlyItsChild(L: Ledger, D: Directory, r: Id)
    requires Shape(L, D) && r in L.holds
    ensures var c := L.holds[r].child;
      ChildIndexed(L, c) && c in L.heldChild && L.heldChild[c] == r
      && forall c' | c' in L.heldChild && L.heldChild[c'] == r :: c' == c
  {
    assert ShapeAt(L, D, r) && ShapeAt(L, D, L.holds[r].child);
    forall c | c in L.heldChild && L.heldChild[c] == r ensures c == L.holds[r].child { assert ShapeAt(L, D, c); }
  }

  lemma CommitMirrors(L: Ledger, D: Directory, E: Directory, f: Fact)
    requires Shape(L, D) && D.GrowsTo(E) && Step(L, D, f).Success? && f.HoldCommitted?
    ensures Mirrors(L, E, f, Step(L, D, f).value)
  {
    hide Step, Newborns, PromotedHolds, Shape, ChildIndexed;
    var N := Step(L, D, f).value;
    StepHasEffect(L, D, f);
    PromoteAgrees(L, D, E);
    PromotedLookup(L, E, f.rid);
    CommitCarries(L, D, Promote(L, E), E, f);
    OnlyItsChild(L, D, f.rid);
    HoldPutCommutes(L, E, f.rid, N.holds[f.rid]);
  }

  lemma PromotedLookup(L: Ledger, E: Directory, r: Id)
    requires r in L.holds
    ensures r in Promote(L, E).holds && Promote(L, E).holds[r] == Promoted(L.holds[r], E)
  {
  }

  lemma ReleaseCarries(L: Ledger, D: Directory, P: Ledger, E: Directory, f: Fact)
    requires Agrees(L, P) && f.HoldReleased? && Step(L, D, f).Success?
    requires P.holds[f.rid] == L.holds[f.rid] && NamesNeither(E, L.holds[f.rid].child, L.holds[f.rid].request)
    ensures var N := Step(L, D, f).value;
      var p := L.holds[f.rid].parent;
      f.rid in N.holds && p in N.accounts
      && Step(P, E, f) == Success(P.(holds := P.holds[f.rid := N.holds[f.rid]], accounts := P.accounts[p := N.accounts[p]],
                                     operations := N.operations, head := N.head))
  {
  }

  lemma ReleaseMirrors(L: Ledger, D: Directory, E: Directory, f: Fact)
    requires Shape(L, D) && f.HoldReleased? && Step(L, D, f).Success?
    requires FitsAt(Step(L, D, f).value, E, f.rid)
    ensures Mirrors(L, E, f, Step(L, D, f).value)
  {
    hide Step, Newborns, PromotedHolds, Shape, ChildIndexed;
    var N := Step(L, D, f).value;
    StepHasEffect(L, D, f);
    PromoteAgrees(L, D, E);
    PromotedLookup(L, E, f.rid);
    ReleaseCarries(L, D, Promote(L, E), E, f);
    OnlyItsChild(L, D, f.rid);
    HoldPutCommutes(L, E, f.rid, N.holds[f.rid]);
    NewbornsAreNew(L, D, E);
    var p := L.holds[f.rid].parent;
    PutCommutes(L.accounts, Newborns(L.holds, L.heldChild, E), p, N.accounts[p]);
  }

  lemma DecideCarries(L: Ledger, D: Directory, P: Ledger, E: Directory, f: Fact)
    requires Agrees(L, P) && f.TokensDecided? && f.child != f.parent && Step(L, D, f).Success?
    requires f.child in L.heldChild && L.heldChild[f.child] in L.holds
    requires P.holds[L.heldChild[f.child]] == L.holds[L.heldChild[f.child]]
    ensures var N := Step(L, D, f).value;
      f.parent in N.accounts && f.child in N.accounts
      && Step(P, E, f) == Success(P.(accounts := P.accounts[f.parent := N.accounts[f.parent]][f.child := N.accounts[f.child]],
                                     decisions := N.decisions, operations := N.operations, head := N.head))
  {
  }

  lemma DecideMirrors(L: Ledger, D: Directory, E: Directory, f: Fact)
    requires Shape(L, D) && f.TokensDecided? && Step(L, D, f).Success?
    ensures Mirrors(L, E, f, Step(L, D, f).value)
  {
    hide Step, Newborns, PromotedHolds;
    var N := Step(L, D, f).value;
    StepHasEffect(L, D, f);
    PromoteAgrees(L, D, E);
    PromotedLookup(L, E, L.heldChild[f.child]);
    DecideCarries(L, D, Promote(L, E), E, f);
    NewbornsAreNew(L, D, E);
    var nb := Newborns(L.holds, L.heldChild, E);
    var paid := L.accounts[f.parent := N.accounts[f.parent]];
    PutCommutes(L.accounts, nb, f.parent, N.accounts[f.parent]);
    PutCommutes(paid, nb, f.child, N.accounts[f.child]);
  }

  /** What the later Directory says about a fitting hold. */
  lemma LaterChild(h: Hold, D: Directory, E: Directory)
    requires D.GrowsTo(E)
    requires h.status == Pending ==> NamesNeither(E, h.child, h.request) || NamesExactly(E, h.parent, h.child, h.request)
    requires h.status == Committed ==> NamesExactly(D, h.parent, h.child, h.request) && h.identityAt == Some(D.byAgent[h.child].created)
    requires h.status != Released
    ensures var late := DirectoryChild(E, h.parent, h.child, h.request);
      && late.Success?
      && (late.value.Some? <==> Promoted(h, E).status == Committed)
      && (late.value.Some? ==> Promoted(h, E) == h.(status := Committed, identityAt := Some(late.value.value.created)))
      && (late.value.None? ==> Promoted(h, E) == h && h.status == Pending && h.identityAt == h.identityAt)
  {
  }

  lemma ReserveIdentity(L: Ledger, D: Directory, f: Fact)
    requires f.ChildReserved? && Step(L, D, f).Success?
    ensures var N := Step(L, D, f).value;
      && f.rid in N.holds
      && var h := N.holds[f.rid];
      && (h.status == Committed ==> NamesExactly(D, h.parent, h.child, h.request) && h.identityAt == Some(D.byAgent[h.child].created))
      && h.status != Released && (h.status == Pending ==> h.identityAt == None)
      && h == Hold(f.parent, f.child, f.request, f.limits, f.retained, f.initial, h.status, N.head, None, h.identityAt)
  {
    hide ReservationDebit;
  }

  lemma ReserveGuards(L: Ledger, D: Directory, f: Fact)
    requires f.ChildReserved? && Step(L, D, f).Success?
    ensures ParseIssue(f) == None && f.op !in L.operations
    ensures ReserveIssues(L, f.rid, f.parent, f.child, f.request) == None
    ensures ReservationDebit(L.accounts[f.parent], f.limits, f.retained, f.initial).Success?
    ensures var N := Step(L, D, f).value;
      var debit := ReservationDebit(L.accounts[f.parent], f.limits, f.retained, f.initial).value;
      var p := L.accounts[f.parent];
      && f.parent in N.accounts
      && N.accounts[f.parent] == p.(delegated := p.delegated.Plus(debit), heldChildren := p.heldChildren + 1)
      && N == L.(accounts := N.accounts, holds := N.holds, heldChild := L.heldChild[f.child := f.rid],
                 heldRequest := L.heldRequest[f.request := f.rid], operations := N.operations, head := L.head + 1)
      && N.operations == L.operations[f.op := Operation(f, L.head + 1)]
  {
    hide ReservationDebit, ParseIssue;
  }

  lemma ReserveComputes(P: Ledger, E: Directory, f: Fact)
    requires f.ChildReserved? && ParseIssue(f) == None && f.op !in P.operations
    requires ReserveIssues(P, f.rid, f.parent, f.child, f.request) == None
    requires ReservationDebit(P.accounts[f.parent], f.limits, f.retained, f.initial).Success?
    requires DirectoryChild(E, f.parent, f.child, f.request).Success?
    ensures var late := DirectoryChild(E, f.parent, f.child, f.request).value;
      var h := Hold(f.parent, f.child, f.request, f.limits, f.retained, f.initial,
                    if late.Some? then Committed else Pending, P.head + 1, None,
                    if late.Some? then Some(late.value.created) else None);
      var p := P.accounts[f.parent];
      var debit := ReservationDebit(p, f.limits, f.retained, f.initial).value;
      var paid := P.accounts[f.parent := p.(delegated := p.delegated.Plus(debit), heldChildren := p.heldChildren + 1)];
      Step(P, E, f) == Success(P.(
        accounts := if late.Some? then paid[f.child := FreshAccount(Some(f.parent), h.Granted(), P.head + 1)] else paid,
        holds := P.holds[f.rid := h], heldChild := P.heldChild[f.child := f.rid],
        heldRequest := P.heldRequest[f.request := f.rid],
        operations := P.operations[f.op := Operation(f, P.head + 1)], head := P.head + 1))
  {
    hide ReservationDebit, ParseIssue, DirectoryChild, ReserveIssues;
  }

  /** What a reservation leaves when the later Directory names its child
      exactly or not at all. */
  lemma ReserveCarries(L: Ledger, D: Directory, P: Ledger, E: Directory, f: Fact)
    requires Agrees(L, P) && D.GrowsTo(E) && f.ChildReserved? && Step(L, D, f).Success?
    requires f.child !in P.accounts
    requires f.rid in Step(L, D, f).value.holds && FitsAt(Step(L, D, f).value, E, f.rid)
    ensures var N := Step(L, D, f).value;
      var h := Promoted(N.holds[f.rid], E);
      && f.parent in N.accounts
      && var paid := P.accounts[f.parent := N.accounts[f.parent]];
      Step(P, E, f) == Success(P.(
        accounts := if h.status == Committed then paid[f.child := FreshAccount(Some(f.parent), h.Granted(), N.head)] else paid,
        holds := P.holds[f.rid := h], heldChild := N.heldChild, heldRequest := N.heldRequest,
        operations := N.operations, head := N.head))
  {
    hide Step, ReservationDebit, ParseIssue, NamesExactly, NamesNeither, DirectoryChild, Promoted;
    ReserveIdentity(L, D, f);
    ReserveGuards(L, D, f);
    LaterChild(Step(L, D, f).value.holds[f.rid], D, E);
    ReserveComputes(P, E, f);
  }

  /** The newborns once hold `rid` and its index entries are added. */
  lemma ReserveNewborns(holds: map<Id, Hold>, heldChild: map<Id, Id>, E: Directory, rid: Id, h: Hold)
    requires forall c | c in heldChild :: heldChild[c] != rid
    ensures var nb := Newborns(holds, heldChild, E);
      Newborns(holds[rid := h], heldChild[h.child := rid], E)
      == if h.status == Pending && h.child in E.byAgent
         then nb[h.child := FreshAccount(Some(h.parent), h.Granted(), h.reservedAt)]
         else nb - {h.child}
  {
  }

  lemma ReservePromotes(holds: map<Id, Hold>, E: Directory, rid: Id, h: Hold)
    ensures PromotedHolds(holds[rid := h], E) == PromotedHolds(holds, E)[rid := Promoted(h, E)]
  {
  }

  lemma RidIsUnused(L: Ledger, D: Directory, rid: Id)
    requires Shape(L, D) && rid !in L.holds
    ensures forall c | c in L.heldChild :: L.heldChild[c] != rid
  {
    forall c | c in L.heldChild ensures L.heldChild[c] != rid { assert ShapeAt(L, D, c); }
  }

  lemma BirthCommutes<V>(m: map<Id, V>, nb: map<Id, V>, p: Id, pv: V, c: Id, cv: V)
    requires p !in nb && c !in nb && c !in m && c != p
    ensures m[p := pv] + nb == (m + nb)[p := pv]
    ensures m[p := pv][c := cv] + nb == (m + nb)[p := pv][c := cv]
    ensures m[p := pv] + nb[c := cv] == (m + nb)[p := pv][c := cv]
  {
  }

  lemma ReserveMirrors(L: Ledger, D: Directory, E: Directory, f: Fact)
    requires Shape(L, D) && D.GrowsTo(E) && f.ChildReserved? && Step(L, D, f).Success?
    requires FitsAt(Step(L, D, f).value, E, f.rid)
    ensures Mirrors(L, E, f, Step(L, D, f).value)
  {
    hide Step, Newborns, PromotedHolds, Shape, HasCapacity, RetainsTokens, Affords, FitsAt;
    var N := Step(L, D, f).value;
    StepHasEffect(L, D, f);
    var h := N.holds[f.rid];
    PromoteAgrees(L, D, E);
    NewbornsAreNew(L, D, E);
    NewbornsAreHeld(L, E);
    NotYetBorn(L, E, f.child);
    ReserveCarries(L, D, Promote(L, E), E, f);
    RidIsUnused(L, D, f.rid);
    ReserveNewborns(L.holds, L.heldChild, E, f.rid, h);
    ReservePromotes(L.holds, E, f.rid, h);
    var nb := Newborns(L.holds, L.heldChild, E);
    assert nb - {h.child} == nb;
    var born := FreshAccount(Some(h.parent), h.Granted(), h.reservedAt);
    assert Debited(L, h) == L.accounts[f.parent := N.accounts[f.parent]];
    BirthCommutes(L.accounts, nb, f.parent, N.accounts[f.parent], f.child, born);
  }

  lemma NewbornsAreHeld(L: Ledger, E: Directory)
    ensures Newborns(L.holds, L.heldChild, E).Keys <= L.heldChild.Keys
  {
  }

  // ---- every fact ----

  /** Holds keep their identity; a pending one stays or is released. */
  lemma FitsBefore(L: Ledger, D: Directory, N: Ledger, E: Directory, f: Fact)
    requires Shape(L, D) && Effect(L, D, N, f) && Fits(N, E)
    ensures Fits(L, E)
  {
    forall r ensures FitsAt(L, E, r) {
      assert FitsAt(N, E, r);
      match f
      case ChildReserved(_, rid, _, _, _, _, _, _) =>
      case HoldCommitted(_, rid) =>
      case HoldReleased(_, rid) =>
      case _ =>
    }
  }

  lemma EveryStepMirrors(L: Ledger, D: Directory, E: Directory, f: Fact)
    requires Shape(L, D) && D.GrowsTo(E) && Step(L, D, f).Success?
    requires Fits(L, E) && (f.ChildReserved? || f.HoldReleased? ==> FitsAt(Step(L, D, f).value, E, f.rid))
    ensures Mirrors(L, E, f, Step(L, D, f).value)
  {
    hide Step, Mirrors;
    match f
    case RootGranted(_, _, _) => RootMirrors(L, D, E, f);
    case ChildReserved(_, _, _, _, _, _, _, _) => ReserveMirrors(L, D, E, f);
    case HoldCommitted(_, _) => CommitMirrors(L, D, E, f);
    case HoldReleased(_, _) => ReleaseMirrors(L, D, E, f);
    case TokensDecided(_, _, _, _, _, _) => DecideMirrors(L, D, E, f);
    case UsageCharged(_, _, _, _, _) => ChargeMirrors(L, D, E, f);
    case UsageReserved(_, _, _, _) => ReserveUsageMirrors(L, D, E, f);
    case UsageStarted(_, _) => StartMirrors(L, D, E, f);
    case UsageSettled(_, _, _, _) => SettleMirrors(L, D, E, f);
    case UsageReleased(_, _) => ReleaseUsageMirrors(L, D, E, f);
    case AccountClosed(_, _) => CloseMirrors(L, D, E, f);
  }

  /** The only ways a step can be refused under the later Directory alone. */
  lemma ReleaseRefused(L: Ledger, D: Directory, E: Directory, f: Fact)
    requires f.HoldReleased? && Step(L, D, f).Success? && Step(Promote(L, E), E, f).Success?
    ensures FitsAt(Step(L, D, f).value, E, f.rid)
  {
    ReleaseHasEffect(L, D, f);
    PromotedLookup(L, E, f.rid);
  }

  lemma ReserveRefused(L: Ledger, D: Directory, P: Ledger, E: Directory, f: Fact)
    requires f.ChildReserved? && Step(L, D, f).Success? && Step(P, E, f).Success?
    ensures FitsAt(Step(L, D, f).value, E, f.rid)
  {
  }

  lemma FitsAfter(L: Ledger, D: Directory, N: Ledger, E: Directory, f: Fact)
    requires Shape(L, D) && Effect(L, D, N, f) && Fits(L, E)
    requires f.ChildReserved? || f.HoldReleased? ==> FitsAt(N, E, f.rid)
    ensures Fits(N, E)
  {
    forall r ensures FitsAt(N, E, r) {
      assert FitsAt(L, E, r);
      match f
      case ChildReserved(_, rid, _, _, _, _, _, _) =>
      case HoldCommitted(_, rid) =>
      case HoldReleased(_, rid) =>
      case _ =>
    }
  }

  /** A log that replays against a Directory replays against a later one
      exactly when its holds fit the later one, and then only pending holds
      change: they become committed, with fresh accounts of their own. */
  lemma {:induction false} ReplayGrows(log: seq<Fact>, D: Directory, E: Directory)
    requires Replay(log, D).Success? && D.GrowsTo(E)
    ensures Replay(log, E).Success? <==> Fits(Replay(log, D).value, E)
    ensures Replay(log, E).Success? ==> Replay(log, E).value == Promote(Replay(log, D).value, E)
  {
    if log == [] {
      assert Promote(BLANK, E) == BLANK;
      assert forall r :: FitsAt(BLANK, E, r);
    } else {
      var prior, f := log[..|log| - 1], log[|log| - 1];
      var L, N := Replay(prior, D).value, Replay(log, D).value;
      hide Step, FitsAt, Promote;
      ReplayGrows(prior, D, E);
      ReplaySound(prior, D);
      SoundShape(L, D);
      StepHasEffect(L, D, f);
      if Fits(N, E) {
        FitsBefore(L, D, N, E, f);
        assert f.ChildReserved? || f.HoldReleased? ==> FitsAt(N, E, f.rid);
        EveryStepMirrors(L, D, E, f);
      } else if Replay(log, E).Success? {
        if f.ChildReserved? { ReserveRefused(L, D, Promote(L, E), E, f); }
        if f.HoldReleased? { ReleaseRefused(L, D, E, f); }
        FitsAfter(L, D, N, E, f);
      }
    }
  }
}
