/** An older Directory under a newer log: exactly when the log still replays. */
module StaleDirectory {
  import opened Prelude
  import opened Budget
  import opened Directory
  import opened Projection
  import opened LedgerShape
  import opened LedgerBounds
  import opened DirectoryGrowth

  /** The Agents whose identity a fact stands on, `P` being the ledger before
      it.  A closing account also stands on its committed children: one that is
      not yet recorded looks like a pending hold. */
  ghost function StandsOn(P: Ledger, f: Fact): iset<Id> {
    match f
    case RootGranted(_, agent, _) => iset{agent}
    case ChildReserved(_, _, parent, _, _, _, _, _) => iset{parent}
    case HoldCommitted(_, rid) => if rid in P.holds then iset{P.holds[rid].child} else iset{}
    case TokensDecided(_, _, _, child, _, _) => iset{child}
    case UsageCharged(_, agent, _, _, _) => iset{agent}
    case UsageReserved(_, _, agent, _) => iset{agent}
    case AccountClosed(_, agent) => iset{agent} + CommittedUnder(P, agent)
    case _ => iset{}
  }

  ghost function CommittedUnder(P: Ledger, agent: Id): iset<Id> {
    iset r | r in P.holds && P.holds[r].parent == agent && P.holds[r].status == Committed :: P.holds[r].child
  }

  ghost predicate Recorded(D: Directory, P: Ledger, f: Fact) { forall a | a in StandsOn(P, f) :: a in D.byAgent }

  lemma AccountsAreRecorded(L: Ledger, D: Directory, a: Id)
    requires Shape(L, D) && a in L.accounts
    ensures a in D.byAgent
  {
    assert ShapeAt(L, D, a);
    if L.accounts[a].parent.Some? { assert ShapeAt(L, D, L.heldChild[a]); }
  }

  /** An account the later Directory alone gives is of an unrecorded Agent. */
  lemma OldAccounts(L: Ledger, D: Directory, E: Directory, a: Id)
    requires Shape(L, D) && a in Promote(L, E).accounts && a in D.byAgent
    ensures a in L.accounts && Promote(L, E).accounts[a] == L.accounts[a]
  {
    NewbornsAreNew(L, D, E);
    if a in Newborns(L.holds, L.heldChild, E) {
      NewbornIsUnrecorded(L, D, E, a);
      assert false;
    }
  }

  lemma NewbornIsUnrecorded(L: Ledger, D: Directory, E: Directory, a: Id)
    requires Shape(L, D) && a in Newborns(L.holds, L.heldChild, E)
    ensures a !in D.byAgent
  {
    assert ShapeAt(L, D, a) && ShapeAt(L, D, L.heldChild[a]);
  }

  /** A hold of a recorded child is the same in both ledgers. */
  lemma OldHolds(L: Ledger, D: Directory, E: Directory, r: Id)
    requires Shape(L, D) && r in L.holds
    ensures L.holds[r].child in D.byAgent ==> Promoted(L.holds[r], E) == L.holds[r]
    ensures L.holds[r].status == Committed <==> L.holds[r].child in D.byAgent && L.holds[r].status != Released
  {
    assert ShapeAt(L, D, r);
  }

  // ---- what the older Directory answers about one child ----

  lemma EarlierChild(D: Directory, E: Directory, parent: Id, child: Id, request: Id)
    requires D.Coherent() && D.GrowsTo(E) && DirectoryChild(E, parent, child, request).Success?
    ensures DirectoryChild(D, parent, child, request).Success?
    ensures child in D.byAgent ==> DirectoryChild(D, parent, child, request).value.Some?
    ensures NamesNeither(E, child, request) ==> DirectoryChild(D, parent, child, request).value.None?
  {
    if request in D.byRequest { assert E.byRequest[request] == D.byRequest[request]; }
    if child in D.byAgent { assert E.byAgent[child] == D.byAgent[child]; }
  }

  // ---- one fact, taken back to the older Directory ----

  lemma RootGoesBack(L: Ledger, D: Directory, P: Ledger, E: Directory, f: Fact)
    requires Agrees(L, P) && D.GrowsTo(E) && f.RootGranted? && Step(P, E, f).Success? && f.agent in D.byAgent
    ensures Step(L, D, f).Success?
  {
  }

  lemma ReserveGoesBack(L: Ledger, D: Directory, P: Ledger, E: Directory, f: Fact)
    requires Agrees(L, P) && D.Coherent() && D.GrowsTo(E) && f.ChildReserved? && Step(P, E, f).Success?
    requires f.parent in L.accounts
    ensures Step(L, D, f).Success?
  {
    hide ReservationDebit, ParseIssue, DirectoryChild;
    EarlierChild(D, E, f.parent, f.child, f.request);
  }

  lemma CommitGoesBack(L: Ledger, D: Directory, P: Ledger, E: Directory, f: Fact)
    requires Agrees(L, P) && D.Coherent() && D.GrowsTo(E) && f.HoldCommitted? && Step(P, E, f).Success?
    requires f.rid in L.holds && P.holds[f.rid] == L.holds[f.rid] && L.holds[f.rid].child in D.byAgent
    ensures Step(L, D, f).Success?
  {
    hide DirectoryChild;
    var h := L.holds[f.rid];
    EarlierChild(D, E, h.parent, h.child, h.request);
  }

  lemma ReleaseGoesBack(L: Ledger, D: Directory, P: Ledger, E: Directory, f: Fact)
    requires Agrees(L, P) && D.Coherent() && D.GrowsTo(E) && f.HoldReleased? && Step(P, E, f).Success?
    requires f.rid in L.holds && P.holds[f.rid] == Promoted(L.holds[f.rid], E) && L.holds[f.rid].parent in L.accounts
    ensures Step(L, D, f).Success?
  {
    hide DirectoryChild, ChildDebit;
    var h := L.holds[f.rid];
    assert P.holds[f.rid] == h;
    NoChildIsNeither(E, h.parent, h.child, h.request);
    EarlierChild(D, E, h.parent, h.child, h.request);
  }

  lemma NoChildIsNeither(E: Directory, parent: Id, child: Id, request: Id)
    requires DirectoryChild(E, parent, child, request) == Success(None)
    ensures NamesNeither(E, child, request)
  {
  }

  lemma DecideGoesBack(L: Ledger, D: Directory, P: Ledger, E: Directory, f: Fact)
    requires Agrees(L, P) && f.TokensDecided? && Step(P, E, f).Success?
    requires f.parent in L.accounts && f.child in L.accounts
    requires f.child in L.heldChild && L.heldChild[f.child] in L.holds
    requires P.holds[L.heldChild[f.child]] == L.holds[L.heldChild[f.child]]
    ensures Step(L, D, f).Success?
  {
  }

  lemma ChargeGoesBack(L: Ledger, D: Directory, P: Ledger, E: Directory, f: Fact)
    requires Agrees(L, P) && (f.UsageCharged? || f.UsageReserved?) && Step(P, E, f).Success? && f.agent in L.accounts
    ensures Step(L, D, f).Success?
  {
  }

  lemma UsageGoesBack(L: Ledger, D: Directory, P: Ledger, E: Directory, f: Fact)
    requires Agrees(L, P) && (f.UsageStarted? || f.UsageSettled? || f.UsageReleased?) && Step(P, E, f).Success?
    requires f.rid in L.usage ==> L.usage[f.rid].agent in L.accounts
    ensures Step(L, D, f).Success?
  {
  }

  lemma CloseGoesBack(L: Ledger, D: Directory, P: Ledger, E: Directory, f: Fact)
    requires Agrees(L, P) && f.AccountClosed? && Step(P, E, f).Success? && f.agent in L.accounts && MayClose(L, f.agent)
    ensures Step(L, D, f).Success?
  {
  }

  /** With the children of a closing account recorded, none looks pending. */
  lemma OldMayClose(L: Ledger, D: Directory, E: Directory, a: Id)
    requires Shape(L, D) && MayClose(Promote(L, E), a)
    requires forall c | c in CommittedUnder(Promote(L, E), a) :: c in D.byAgent
    ensures MayClose(L, a)
  {
    var P := Promote(L, E);
    hide Promoted;
    forall r | r in L.holds && L.holds[r].parent == a ensures L.holds[r].status != Pending {
      PromotedKeeps(L.holds[r], E);
      assert P.holds[r] == Promoted(L.holds[r], E);
      if P.holds[r].status == Committed { assert P.holds[r].child in CommittedUnder(P, a); }
      OldHolds(L, D, E, r);
    }
  }

  lemma PromotedKeeps(h: Hold, E: Directory)
    ensures Promoted(h, E).parent == h.parent && Promoted(h, E).child == h.child
    ensures h.status == Pending ==> Promoted(h, E).status != Released
    ensures Promoted(h, E).status == Committed <==> h.status == Committed || (h.status == Pending && h.child in E.byAgent)
  {
  }

  // ---- every fact ----

  ghost predicate Backable(L: Ledger, D: Directory, E: Directory, f: Fact) {
    && Shape(L, D) && D.Coherent() && D.GrowsTo(E)
    && Step(Promote(L, E), E, f).Success? && Recorded(D, Promote(L, E), f)
  }

  lemma HoldGoesBack(L: Ledger, D: Directory, E: Directory, f: Fact)
    requires Backable(L, D, E, f) && (f.HoldCommitted? || f.HoldReleased?)
    ensures Step(L, D, f).Success?
  {
    hide Step, Promote, Promoted, ShapeAt;
    var P := Promote(L, E);
    PromoteAgrees(L, D, E);
    NamedHold(P, E, f);
    PromotedLookup(L, E, f.rid);
    if f.HoldCommitted? {
      PromotedKeeps(L.holds[f.rid], E);
      OldHolds(L, D, E, f.rid);
      CommitGoesBack(L, D, P, E, f);
    } else {
      ParentStands(L, D, f.rid);
      ReleaseGoesBack(L, D, P, E, f);
    }
  }

  lemma DecisionGoesBack(L: Ledger, D: Directory, E: Directory, f: Fact)
    requires Backable(L, D, E, f) && f.TokensDecided?
    ensures Step(L, D, f).Success?
  {
    hide Step, Promote, Promoted, ShapeAt;
    var P := Promote(L, E);
    PromoteAgrees(L, D, E);
    DecidedPair(P, E, f);
    OldAccounts(L, D, E, f.child);
    ChildStands(L, D, f.child);
    PromotedLookup(L, E, L.heldChild[f.child]);
    OldHolds(L, D, E, L.heldChild[f.child]);
    DecideGoesBack(L, D, P, E, f);
  }

  lemma AccountGoesBack(L: Ledger, D: Directory, E: Directory, f: Fact)
    requires Backable(L, D, E, f) && (f.UsageCharged? || f.UsageReserved? || f.AccountClosed?)
    ensures Step(L, D, f).Success?
  {
    hide Step, Promote, Promoted, ShapeAt, MayClose;
    var P := Promote(L, E);
    PromoteAgrees(L, D, E);
    if f.AccountClosed? {
      ClosedAccount(P, E, f);
      OldAccounts(L, D, E, f.agent);
      OldMayClose(L, D, E, f.agent);
      CloseGoesBack(L, D, P, E, f);
    } else {
      ChargedAccount(P, E, f);
      OldAccounts(L, D, E, f.agent);
      ChargeGoesBack(L, D, P, E, f);
    }
  }

  lemma GrantGoesBack(L: Ledger, D: Directory, E: Directory, f: Fact)
    requires Backable(L, D, E, f) && (f.RootGranted? || f.ChildReserved?)
    ensures Step(L, D, f).Success?
  {
    hide Step, Promote, Promoted, ShapeAt;
    var P := Promote(L, E);
    PromoteAgrees(L, D, E);
    if f.ChildReserved? {
      ReservedParent(P, E, f);
      OldAccounts(L, D, E, f.parent);
      ReserveGoesBack(L, D, P, E, f);
    } else {
      RootGoesBack(L, D, P, E, f);
    }
  }

  lemma UsageHoldGoesBack(L: Ledger, D: Directory, E: Directory, f: Fact)
    requires Backable(L, D, E, f) && (f.UsageStarted? || f.UsageSettled? || f.UsageReleased?)
    ensures Step(L, D, f).Success?
  {
    hide Step, Promote, Promoted, ShapeAt;
    PromoteAgrees(L, D, E);
    UsageStands(L, D, f.rid);
    UsageGoesBack(L, D, Promote(L, E), E, f);
  }

  /** What the later Directory accepts, standing on recorded Agents only, the
      older one accepts. */
  lemma StepGoesBack(L: Ledger, D: Directory, E: Directory, f: Fact)
    requires Backable(L, D, E, f)
    ensures Step(L, D, f).Success?
  {
    hide *;
    match f
    case RootGranted(_, _, _) => GrantGoesBack(L, D, E, f);
    case ChildReserved(_, _, _, _, _, _, _, _) => GrantGoesBack(L, D, E, f);
    case HoldCommitted(_, _) => HoldGoesBack(L, D, E, f);
    case HoldReleased(_, _) => HoldGoesBack(L, D, E, f);
    case TokensDecided(_, _, _, _, _, _) => DecisionGoesBack(L, D, E, f);
    case UsageStarted(_, _) => UsageHoldGoesBack(L, D, E, f);
    case UsageSettled(_, _, _, _) => UsageHoldGoesBack(L, D, E, f);
    case UsageReleased(_, _) => UsageHoldGoesBack(L, D, E, f);
    case _ => AccountGoesBack(L, D, E, f);
  }

  lemma ReservedParent(P: Ledger, E: Directory, f: Fact)
    requires f.ChildReserved? && Step(P, E, f).Success?
    ensures f.parent in P.accounts
  {
    hide ReservationDebit, DirectoryChild;
  }

  lemma NamedHold(P: Ledger, E: Directory, f: Fact)
    requires (f.HoldCommitted? || f.HoldReleased?) && Step(P, E, f).Success?
    ensures f.rid in P.holds
  {
    hide DirectoryChild;
  }

  lemma DecidedPair(P: Ledger, E: Directory, f: Fact)
    requires f.TokensDecided? && Step(P, E, f).Success?
    ensures f.child in P.accounts && P.accounts[f.child].parent == Some(f.parent)
  {
  }

  lemma ChargedAccount(P: Ledger, E: Directory, f: Fact)
    requires (f.UsageCharged? || f.UsageReserved?) && Step(P, E, f).Success?
    ensures f.agent in P.accounts
  {
  }

  lemma ClosedAccount(P: Ledger, E: Directory, f: Fact)
    requires f.AccountClosed? && Step(P, E, f).Success?
    ensures f.agent in P.accounts && MayClose(P, f.agent)
  {
  }

  lemma ParentStands(L: Ledger, D: Directory, r: Id)
    requires Shape(L, D) && r in L.holds
    ensures L.holds[r].parent in L.accounts
  {
    assert ShapeAt(L, D, r);
  }

  lemma ChildStands(L: Ledger, D: Directory, c: Id)
    requires Shape(L, D) && c in L.accounts && L.accounts[c].parent.Some?
    ensures c in L.heldChild && L.heldChild[c] in L.holds && L.holds[L.heldChild[c]].child == c
    ensures L.accounts[c].parent.value in L.accounts && c in D.byAgent
  {
    assert ShapeAt(L, D, c) && ShapeAt(L, D, L.heldChild[c]);
  }

  lemma UsageStands(L: Ledger, D: Directory, r: Id)
    requires Shape(L, D)
    ensures r in L.usage ==> L.usage[r].agent in L.accounts
  {
    assert ShapeAt(L, D, r);
  }

  /** What the older Directory accepts stands on recorded Agents only. */
  lemma AcceptedStandsOnRecorded(L: Ledger, D: Directory, E: Directory, f: Fact)
    requires Shape(L, D) && Step(L, D, f).Success?
    ensures Recorded(D, Promote(L, E), f)
  {
    hide Step, Promote, ShapeAt, MayClose;
    var P := Promote(L, E);
    match f
    case RootGranted(_, _, _) => GrantedIsRecorded(L, D, f);
    case ChildReserved(_, _, parent, _, _, _, _, _) => ReservedParent(L, D, f); AccountsAreRecorded(L, D, parent);
    case HoldCommitted(_, rid) =>
      CommittedIsRecorded(L, D, f);
      PromotedLookup(L, E, rid);
    case TokensDecided(_, _, _, child, _, _) => DecidedPair(L, D, f); AccountsAreRecorded(L, D, child);
    case UsageCharged(_, agent, _, _, _) => ChargedAccount(L, D, f); AccountsAreRecorded(L, D, agent);
    case UsageReserved(_, _, agent, _) => ChargedAccount(L, D, f); AccountsAreRecorded(L, D, agent);
    case AccountClosed(_, agent) =>
      ClosedAccount(L, D, f);
      AccountsAreRecorded(L, D, agent);
      ClosedChildren(L, D, E, agent);
    case _ =>
  }

  lemma GrantedIsRecorded(L: Ledger, D: Directory, f: Fact)
    requires f.RootGranted? && Step(L, D, f).Success?
    ensures f.agent in D.byAgent
  {
  }

  lemma CommittedIsRecorded(L: Ledger, D: Directory, f: Fact)
    requires f.HoldCommitted? && Step(L, D, f).Success?
    ensures f.rid in L.holds && L.holds[f.rid].child in D.byAgent
  {
  }

  lemma ClosedChildren(L: Ledger, D: Directory, E: Directory, a: Id)
    requires Shape(L, D) && MayClose(L, a)
    ensures forall c | c in CommittedUnder(Promote(L, E), a) :: c in D.byAgent
  {
    var P := Promote(L, E);
    hide Promoted;
    forall c | c in CommittedUnder(P, a) ensures c in D.byAgent {
      var r :| r in P.holds && P.holds[r].parent == a && P.holds[r].status == Committed && P.holds[r].child == c;
      assert P.holds[r] == Promoted(L.holds[r], E);
      PromotedKeeps(L.holds[r], E);
      OldHolds(L, D, E, r);
    }
  }

  // ---- every log ----

  /** Every fact of a readable log stands on Agents the older Directory has. */
  ghost predicate AllRecorded(D: Directory, E: Directory, log: seq<Fact>)
    requires Replay(log, E).Success?
    decreases |log|
  {
    log == [] ||
    var n := |log| - 1;
    AllRecorded(D, E, log[..n]) && Recorded(D, Replay(log[..n], E).value, log[n])
  }

  /** A log that replays against a Directory replays against an older one
      exactly when each of its facts stands on Agents the older one records. */
  lemma {:induction false} StaleReads(log: seq<Fact>, D: Directory, E: Directory)
    requires D.Coherent() && D.GrowsTo(E) && Replay(log, E).Success?
    ensures Replay(log, D).Success? <==> AllRecorded(D, E, log)
  {
    if log != [] {
      var n := |log| - 1;
      var prior, f := log[..n], log[n];
      StaleReads(prior, D, E);
      if Replay(prior, D).Success? {
        var L := Replay(prior, D).value;
        hide Step, Recorded, Promote;
        ReplayGrows(prior, D, E);
        ReplaySound(prior, D);
        SoundShape(L, D);
        if Recorded(D, Promote(L, E), f) { StepGoesBack(L, D, E, f); }
        if Step(L, D, f).Success? { AcceptedStandsOnRecorded(L, D, E, f); }
      }
    }
  }
}
