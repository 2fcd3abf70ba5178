/** Two append-only streams growing side by side, and a reader that takes the
    ledger first and the Directory second, or the other way round. */
module ManagedHistory {
  import opened Prelude
  import opened Budget
  import opened Directory
  import opened Projection
  import opened LedgerShape
  import opened LedgerBounds
  import opened DirectoryGrowth
  import opened StaleDirectory

  datatype World = World(log: seq<Fact>, agents: seq<Creation>)

  ghost predicate Readable(w: World) {
    Rebuilt(w.agents).Success? && Replay(w.log, Rebuilt(w.agents).value).Success?
  }

  ghost function DirectoryOf(w: World): Directory
    requires Readable(w)
  {
    Rebuilt(w.agents).value
  }

  ghost function LedgerOf(w: World): Ledger
    requires Readable(w)
  {
    Replay(w.log, Rebuilt(w.agents).value).value
  }

  /** A creation never reuses a released hold's identities and takes a pending
      hold's identities only together and for the right owner. */
  predicate Managed(L: Ledger, e: Creation) {
    forall r | r in L.holds ::
      var h := L.holds[r];
      && (h.status == Released ==> e.agent != h.child && e.request != h.request)
      && (h.status == Pending && (e.agent == h.child || e.request == h.request) ==>
            e.agent == h.child && e.request == h.request && e.owner == Some(h.parent))
  }

  lemma ManagedIsFitting(L: Ledger, D: Directory, e: Creation, seqNo: nat)
    requires Shape(L, D) && Conflicts(D, e) == []
    ensures Fits(L, D.With(e, seqNo)) <==> Managed(L, e)
  {
    var E := D.With(e, seqNo);
    if Managed(L, e) {
      forall r ensures FitsAt(L, E, r) { assert ShapeAt(L, D, r); }
    }
    if Fits(L, E) {
      forall r | r in L.holds
        ensures var h := L.holds[r];
          && (h.status == Released ==> e.agent != h.child && e.request != h.request)
          && (h.status == Pending && (e.agent == h.child || e.request == h.request) ==>
                e.agent == h.child && e.request == h.request && e.owner == Some(h.parent))
      {
        assert ShapeAt(L, D, r) && FitsAt(L, E, r);
      }
    }
  }

  lemma WithGrows(D: Directory, e: Creation, seqNo: nat)
    requires Conflicts(D, e) == []
    ensures D.GrowsTo(D.With(e, seqNo))
  {
  }

  /** Recording an Agent keeps the ledger readable exactly when it is managed;
      the condition can be checked before the record is written. */
  lemma CreationKeepsReadable(w: World, e: Creation)
    requires Readable(w) && Conflicts(DirectoryOf(w), e) == []
    ensures Readable(World(w.log, w.agents + [e])) <==> Managed(LedgerOf(w), e)
    ensures Readable(World(w.log, w.agents + [e])) ==>
              LedgerOf(World(w.log, w.agents + [e])) == Promote(LedgerOf(w), DirectoryOf(World(w.log, w.agents + [e])))
  {
    var D := DirectoryOf(w);
    RebuiltAppend(w.agents, e);
    WithGrows(D, e, |w.agents| + 1);
    ReplaySound(w.log, D);
    SoundShape(LedgerOf(w), D);
    ManagedIsFitting(LedgerOf(w), D, e, |w.agents| + 1);
    ReplayGrows(w.log, D, D.With(e, |w.agents| + 1));
  }

  /** An Agent recorded under the child identity of any released hold makes the
      ledger unreadable. */
  lemma ReusedChildCorrupts(w: World, rid: Id, e: Creation)
    requires Readable(w) && rid in LedgerOf(w).holds && LedgerOf(w).holds[rid].status == Released
    requires Conflicts(DirectoryOf(w), e) == [] && e.agent == LedgerOf(w).holds[rid].child
    ensures !Readable(World(w.log, w.agents + [e]))
  {
    hide Rebuilt, Replay, Conflicts;
    CreationKeepsReadable(w, e);
    assert !Managed(LedgerOf(w), e);
  }

  ghost predicate LedgerAppends(w: World, w': World) {
    && Readable(w) && w'.agents == w.agents && |w'.log| == |w.log| + 1 && w'.log[..|w.log|] == w.log
    && Step(LedgerOf(w), DirectoryOf(w), w'.log[|w.log|]).Success?
  }

  ghost predicate AgentAppears(w: World, w': World) {
    && Readable(w) && w'.log == w.log && |w'.agents| == |w.agents| + 1 && w'.agents[..|w.agents|] == w.agents
    && Conflicts(DirectoryOf(w), w'.agents[|w.agents|]) == []
    && Managed(LedgerOf(w), w'.agents[|w.agents|])
  }

  /** A history in which facts are accepted and creations are managed. */
  ghost predicate History(run: seq<World>) {
    && |run| >= 1 && Readable(run[0])
    && (forall i | 0 < i < |run| :: LedgerAppends(run[i - 1], run[i]) || AgentAppears(run[i - 1], run[i]))
  }

  lemma AppendReadable(w: World, w': World)
    requires LedgerAppends(w, w')
    ensures Readable(w') && w.log <= w'.log && w.agents <= w'.agents
  {
    hide Step, Rebuilt;
    assert w'.log[..|w'.log| - 1] == w.log;
  }

  lemma AppearReadable(w: World, w': World)
    requires AgentAppears(w, w')
    ensures Readable(w') && w.log <= w'.log && w.agents <= w'.agents
  {
    hide Readable, Rebuilt, Conflicts, Managed;
    CreationKeepsReadable(w, w'.agents[|w.agents|]);
    assert w'.agents == w.agents + [w'.agents[|w.agents|]];
    assert w' == World(w.log, w.agents + [w'.agents[|w.agents|]]);
  }

  lemma {:induction false} HistoryReadable(run: seq<World>, i: nat, j: nat)
    requires History(run) && i <= j < |run|
    ensures Readable(run[i]) && Readable(run[j])
    ensures run[i].log <= run[j].log && run[i].agents <= run[j].agents
  {
    hide Readable, LedgerAppends, AgentAppears;
    if j > 0 {
      HistoryReadable(run, if i < j then i else j - 1, j - 1);
      if LedgerAppends(run[j - 1], run[j]) {
        AppendReadable(run[j - 1], run[j]);
      } else {
        AppearReadable(run[j - 1], run[j]);
      }
    }
  }

  /** Reading the ledger at one moment and the Directory at the same or any
      later moment always replays, and shows what the ledger showed then, with
      some pending holds promoted. */
  lemma LedgerFirstReads(run: seq<World>, i: nat, j: nat)
    requires History(run) && i <= j < |run|
    ensures Readable(run[i]) && Rebuilt(run[j].agents).Success?
    ensures var late := Replay(run[i].log, Rebuilt(run[j].agents).value);
      late.Success? && late.value == Promote(LedgerOf(run[i]), Rebuilt(run[j].agents).value)
  {
    HistoryReadable(run, i, j);
    var D, E := DirectoryOf(run[i]), DirectoryOf(run[j]);
    RebuiltGrows(run[j].agents, |run[i].agents|);
    assert run[j].agents[..|run[i].agents|] == run[i].agents;
    ReplayPrefix(run[j].log, |run[i].log|, E);
    assert run[j].log[..|run[i].log|] == run[i].log;
    ReplayGrows(run[i].log, D, E);
  }

  /** The other order replays exactly when every fact read stands on Agents the
      Directory had already recorded. */
  lemma DirectoryFirstReads(run: seq<World>, i: nat, j: nat)
    requires History(run) && i <= j < |run|
    ensures Readable(run[j]) && Rebuilt(run[i].agents).Success?
    ensures Replay(run[j].log, Rebuilt(run[i].agents).value).Success?
       <==> AllRecorded(Rebuilt(run[i].agents).value, DirectoryOf(run[j]), run[j].log)
  {
    HistoryReadable(run, i, j);
    RebuiltGrows(run[j].agents, |run[i].agents|);
    assert run[j].agents[..|run[i].agents|] == run[i].agents;
    RebuiltIsCoherent(run[i].agents);
    StaleReads(run[j].log, DirectoryOf(run[i]), DirectoryOf(run[j]));
  }

  /** So it is unsafe: an old Directory with a newer ledger reports a perfectly
      good history as corrupt. */
  lemma DirectoryFirstFails(root: Id, op: Id)
    ensures exists run: seq<World>, i: nat, j: nat | i <= j < |run| && History(run) ::
              Rebuilt(run[i].agents).Success? && Replay(run[j].log, Rebuilt(run[i].agents).value) == Failure(RootAgentInvalid)
  {
    var e := Creation(root, root, root, root, root, None, None, [], "");
    var f := RootGranted(op, root, Limits(None, None, None, None, None, None, None));
    var w0, w1, w2 := World([], []), World([], [e]), World([f], [e]);
    var run := [w0, w1, w2];
    var D := EMPTY.With(e, 1);
    assert [e][..0] == [] && [f][..0] == [];
    assert Rebuilt([]) == Success(EMPTY) && Conflicts(EMPTY, e) == [];
    assert Rebuilt([e]) == Success(D);
    assert Replay([], D) == Success(BLANK) && Replay([], EMPTY) == Success(BLANK);
    assert AgentAppears(w0, w1);
    assert Step(BLANK, D, f).Success?;
    assert LedgerAppends(w1, w2);
    assert History(run);
    assert Replay(run[2].log, Rebuilt(run[0].agents).value) == Failure(RootAgentInvalid);
  }
}
