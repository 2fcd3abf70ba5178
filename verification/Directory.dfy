/** Durable Agent identities rebuilt from the append-only creation log. */
module Directory {
  import opened Prelude

  /** The payload of one creation fact. */
  datatype Creation = Creation(
    agent: Id, session: Id, request: Id, preset: Id, workspace: Id,
    owner: Option<Id>, forkedFrom: Option<Id>, grants: seq<Id>, metadata: string)

  datatype AgentRecord = AgentRecord(who: Creation, created: nat)

  datatype DirectoryCode =
    | GrantsInvalid | AgentDuplicate | SessionDuplicate | RequestDuplicate | OwnerSelf | OwnerUnknown

  datatype Issue = Issue(code: DirectoryCode, seqNo: nat)

  datatype Directory = Directory(
    records: seq<AgentRecord>,
    byAgent: map<Id, AgentRecord>,
    bySession: map<Id, AgentRecord>,
    byRequest: map<Id, AgentRecord>)
  {
    function Find(agent: Id): Option<AgentRecord> {
      if agent in byAgent then Some(byAgent[agent]) else None
    }

    function ForSession(session: Id): Option<AgentRecord> {
      if session in bySession then Some(bySession[session]) else None
    }

    function ForRequest(request: Id): Option<AgentRecord> {
      if request in byRequest then Some(byRequest[request]) else None
    }

    function With(e: Creation, seqNo: nat): Directory {
      var r := AgentRecord(e, seqNo);
      Directory(records + [r], byAgent[e.agent := r], bySession[e.session := r], byRequest[e.request := r])
    }

    ghost predicate RequestsIndexed() {
      forall q | q in byRequest ::
        && byRequest[q].who.request == q
        && byRequest[q].who.agent in byAgent && byAgent[byRequest[q].who.agent] == byRequest[q]
    }

    ghost predicate SessionsIndexed() {
      forall s | s in bySession ::
        && bySession[s].who.session == s
        && bySession[s].who.agent in byAgent && byAgent[bySession[s].who.agent] == bySession[s]
    }

    ghost predicate AgentsIndexed() {
      forall a | a in byAgent ::
        && byAgent[a].who.agent == a
        && byAgent[a].who.request in byRequest && byRequest[byAgent[a].who.request] == byAgent[a]
        && byAgent[a].who.session in bySession && bySession[byAgent[a].who.session] == byAgent[a]
    }

    ghost predicate OwnersOlder() {
      forall a | a in byAgent :: byAgent[a].who.owner.Some? ==>
        && byAgent[a].who.owner.value in byAgent
        && byAgent[byAgent[a].who.owner.value].created < byAgent[a].created
    }

    /** The three indexes agree and every owner was recorded earlier. */
    ghost predicate Coherent() {
      AgentsIndexed() && RequestsIndexed() && SessionsIndexed() && OwnersOlder()
    }

    /** Every identity of this directory keeps its record in the later one. */
    ghost predicate GrowsTo(later: Directory) {
      && (forall a | a in byAgent :: a in later.byAgent && later.byAgent[a] == byAgent[a])
      && (forall s | s in bySession :: s in later.bySession && later.bySession[s] == bySession[s])
      && (forall q | q in byRequest :: q in later.byRequest && later.byRequest[q] == byRequest[q])
    }
  }

  const EMPTY := Directory([], map[], map[], map[])

  /** Every conflict of one creation with the records before it, in report order. */
  function Conflicts(d: Directory, e: Creation): seq<DirectoryCode> {
    if exists i, j :: 0 <= i < j < |e.grants| && e.grants[i] == e.grants[j] then [GrantsInvalid]
    else
      (if e.agent in d.byAgent then [AgentDuplicate] else [])
      + (if e.session in d.bySession then [SessionDuplicate] else [])
      + (if e.request in d.byRequest then [RequestDuplicate] else [])
      + (if e.owner.None? then []
         else if e.owner.value == e.agent then [OwnerSelf]
         else if e.owner.value !in d.byAgent then [OwnerUnknown]
         else [])
  }

  /** One conflict, if there is it. */
  function When(holds: bool, code: DirectoryCode): (codes: seq<DirectoryCode>)
    ensures forall c :: c in codes <==> holds && c == code
    ensures |codes| <= 1
  {
    if holds then [code] else []
  }

  /** Exactly which conflicts a creation has, and in what order; repeated
      grants hide the others. */
  lemma ConflictsExactly(d: Directory, e: Creation)
    ensures var repeated := exists i, j :: 0 <= i < j < |e.grants| && e.grants[i] == e.grants[j];
      Conflicts(d, e)
      == When(repeated, GrantsInvalid)
         + (When(!repeated && e.agent in d.byAgent, AgentDuplicate)
            + (When(!repeated && e.session in d.bySession, SessionDuplicate)
               + (When(!repeated && e.request in d.byRequest, RequestDuplicate)
                  + (When(!repeated && e.owner == Some(e.agent), OwnerSelf)
                     + When(!repeated && e.owner.Some? && e.owner.value != e.agent && e.owner.value !in d.byAgent, OwnerUnknown)))))
  {
  }

  /** The log folded into a directory, or the first issue. */
  function Rebuilt(events: seq<Creation>): (r: Result<Directory, Issue>) {
    if events == [] then Success(EMPTY)
    else
      var d :- Rebuilt(events[..|events| - 1]);
      var e := events[|events| - 1];
      var conflicts := Conflicts(d, e);
      if conflicts == [] then Success(d.With(e, |events|)) else Failure(Issue(conflicts[0], |events|))
  }

  function Tagged(codes: seq<DirectoryCode>, seqNo: nat): seq<Issue> {
    seq(|codes|, i requires 0 <= i < |codes| => Issue(codes[i], seqNo))
  }

  /** Rebuilding scans the whole log, collecting issues and skipping what
      conflicts, and then reports the first issue. */
  method Rebuild(events: seq<Creation>) returns (r: Result<Directory, Issue>)
    ensures r == Rebuilt(events)
  {
    var records: seq<AgentRecord> := [];
    var byAgent: map<Id, AgentRecord> := map[];
    var bySession: map<Id, AgentRecord> := map[];
    var byRequest: map<Id, AgentRecord> := map[];
    var issues: seq<Issue> := [];
    for n := 0 to |events|
      invariant issues == [] ==> Rebuilt(events[..n]) == Success(Directory(records, byAgent, bySession, byRequest))
      invariant issues != [] ==> Rebuilt(events[..n]) == Failure(issues[0])
    {
      var e := events[n];
      assert events[..n + 1][..n] == events[..n];
      var conflicts := Conflicts(Directory(records, byAgent, bySession, byRequest), e);
      if conflicts != [] {
        issues := issues + Tagged(conflicts, n + 1);
      } else {
        var record := AgentRecord(e, n + 1);
        records := records + [record];
        byAgent := byAgent[e.agent := record];
        bySession := bySession[e.session := record];
        byRequest := byRequest[e.request := record];
      }
    }
    assert events[..|events|] == events;
    if issues != [] {
      return Failure(issues[0]);
    }
    return Success(Directory(records, byAgent, bySession, byRequest));
  }

  /** Appending one creation to a readable log keeps it readable exactly when
      the creation conflicts with nothing before it. */
  lemma {:induction false} RebuiltAppend(events: seq<Creation>, e: Creation)
    requires Rebuilt(events).Success?
    ensures Rebuilt(events + [e]).Success? <==> Conflicts(Rebuilt(events).value, e) == []
    ensures Rebuilt(events + [e]).Success? ==>
              Rebuilt(events + [e]).value == Rebuilt(events).value.With(e, |events| + 1)
  {
    assert (events + [e])[..|events|] == events;
  }

  lemma {:induction false} RebuiltPrefix(events: seq<Creation>, n: nat)
    requires n <= |events| && Rebuilt(events).Success?
    ensures Rebuilt(events[..n]).Success?
  {
    if n < |events| {
      assert events[..|events| - 1][..n] == events[..n];
      RebuiltPrefix(events[..|events| - 1], n);
    } else {
      assert events[..n] == events;
    }
  }

  lemma WithStaysIndexed(d: Directory, e: Creation, seqNo: nat)
    requires d.AgentsIndexed() && e.agent !in d.byAgent && e.session !in d.bySession && e.request !in d.byRequest
    ensures d.With(e, seqNo).AgentsIndexed()
    ensures d.RequestsIndexed() ==> d.With(e, seqNo).RequestsIndexed()
    ensures d.SessionsIndexed() ==> d.With(e, seqNo).SessionsIndexed()
  {
  }

  lemma WithKeepsOwnersOlder(d: Directory, e: Creation, seqNo: nat)
    requires d.OwnersOlder() && e.agent !in d.byAgent && (forall a | a in d.byAgent :: d.byAgent[a].created < seqNo)
    requires e.owner.Some? ==> e.owner.value in d.byAgent
    ensures d.With(e, seqNo).OwnersOlder()
  {
  }

  lemma WithStaysCoherent(d: Directory, e: Creation, seqNo: nat)
    requires d.Coherent() && Conflicts(d, e) == []
    requires forall a | a in d.byAgent :: d.byAgent[a].created < seqNo
    ensures d.With(e, seqNo).Coherent()
  {
    assert e.agent !in d.byAgent && e.session !in d.bySession && e.request !in d.byRequest;
    assert e.owner.Some? ==> e.owner.value in d.byAgent;
    hide Conflicts;
    WithStaysIndexed(d, e, seqNo);
    WithKeepsOwnersOlder(d, e, seqNo);
  }

  /** Records stand in log order and the index finds each of them. */
  ghost predicate InLogOrder(d: Directory, events: seq<Creation>) {
    && |d.records| == |events|
    && (forall i | 0 <= i < |events| :: d.records[i] == AgentRecord(events[i], i + 1))
    && (forall a | a in d.byAgent :: d.byAgent[a].created <= |events| && d.byAgent[a] in d.records)
    && (forall i | 0 <= i < |events| :: events[i].agent in d.byAgent && d.byAgent[events[i].agent] == d.records[i])
  }

  lemma WithStaysInLogOrder(d: Directory, events: seq<Creation>, e: Creation)
    requires InLogOrder(d, events) && e.agent !in d.byAgent
    ensures InLogOrder(d.With(e, |events| + 1), events + [e])
  {
    var d' := d.With(e, |events| + 1);
    forall i | 0 <= i < |events| + 1
      ensures (events + [e])[i].agent in d'.byAgent && d'.byAgent[(events + [e])[i].agent] == d'.records[i]
    {
      if i < |events| {
        assert events[i].agent in d.byAgent;
      }
    }
    forall a | a in d'.byAgent ensures d'.byAgent[a].created <= |events| + 1 && d'.byAgent[a] in d'.records {
      if a != e.agent {
        var i :| 0 <= i < |d.records| && d.records[i] == d.byAgent[a];
        assert d'.records[i] == d'.byAgent[a];
      } else {
        assert d'.records[|events|] == d'.byAgent[a];
      }
    }
  }

  lemma {:induction false} RebuiltInLogOrder(events: seq<Creation>)
    requires Rebuilt(events).Success?
    ensures InLogOrder(Rebuilt(events).value, events)
  {
    hide *;
    if events == [] {
      NothingInLogOrder();
    } else {
      var before, e := events[..|events| - 1], events[|events| - 1];
      RebuiltLast(events);
      RebuiltInLogOrder(before);
      assert events == before + [e];
      LastInLogOrder(events, before, e, Rebuilt(before).value, Rebuilt(events).value);
    }
  }

  lemma NothingInLogOrder()
    ensures Rebuilt([]) == Success(EMPTY) && InLogOrder(EMPTY, [])
  {
  }

  lemma LastInLogOrder(events: seq<Creation>, before: seq<Creation>, e: Creation, d: Directory, d': Directory)
    requires events == before + [e] && e.agent !in d.byAgent && InLogOrder(d, before)
    requires d' == d.With(e, |events|)
    ensures InLogOrder(d', events)
  {
    WithStaysInLogOrder(d, before, e);
  }

  /** A readable log yields agreeing indexes over exactly its creations. */
  lemma {:induction false} RebuiltIsCoherent(events: seq<Creation>)
    requires Rebuilt(events).Success?
    ensures Rebuilt(events).value.Coherent()
    ensures InLogOrder(Rebuilt(events).value, events)
  {
    RebuiltInLogOrder(events);
    if events == [] {
      assert Rebuilt(events).value == EMPTY;
    } else {
      hide Conflicts;
      var before, e := events[..|events| - 1], events[|events| - 1];
      RebuiltLast(events);
      RebuiltIsCoherent(before);
      var d := Rebuilt(before).value;
      WithStaysCoherent(d, e, |events|);
    }
  }

  lemma RebuiltLast(events: seq<Creation>)
    requires events != [] && Rebuilt(events).Success?
    ensures var before, e := events[..|events| - 1], events[|events| - 1];
      && Rebuilt(before).Success?
      && Conflicts(Rebuilt(before).value, e) == []
      && e.agent !in Rebuilt(before).value.byAgent
      && Rebuilt(events).value == Rebuilt(before).value.With(e, |events|)
  {
  }

  lemma {:induction false} RebuiltGrows(events: seq<Creation>, n: nat)
    requires n <= |events| && Rebuilt(events).Success?
    ensures Rebuilt(events[..n]).Success? && Rebuilt(events[..n]).value.GrowsTo(Rebuilt(events).value)
  {
    if n < |events| {
      var before := events[..|events| - 1];
      assert before[..n] == events[..n];
      RebuiltGrows(before, n);
    } else {
      assert events[..n] == events;
    }
  }

  /** No two creations of a readable log share an agent, session or request. */
  lemma IdentitiesUnique(events: seq<Creation>, i: nat, j: nat)
    requires i < j < |events| && Rebuilt(events).Success?
    ensures events[i].agent != events[j].agent
    ensures events[i].session != events[j].session
    ensures events[i].request != events[j].request
  {
    hide *;
    RebuiltPrefix(events, j + 1);
    var upTo, before := events[..j + 1], events[..j];
    assert upTo[..j] == before && upTo[j] == events[j];
    RebuiltLast(upTo);
    RebuiltIsCoherent(before);
    assert before[i] == events[i];
    RecordedConflicts(Rebuilt(before).value, before, i, events[j]);
  }

  /** A recorded creation keeps its three identities from being used again. */
  lemma RecordedConflicts(d: Directory, events: seq<Creation>, i: nat, e: Creation)
    requires d.Coherent() && InLogOrder(d, events) && i < |events| && Conflicts(d, e) == []
    ensures events[i].agent != e.agent && events[i].session != e.session && events[i].request != e.request
  {
    assert d.byAgent[events[i].agent] == d.records[i];
  }

  // ---- ownership is a forest ----

  /** Root-to-Agent ownership, found by walking owners upward. */
  function Lineage(d: Directory, agent: Id): (path: seq<Id>)
    requires d.Coherent()
    decreases if agent in d.byAgent then d.byAgent[agent].created + 1 else 0
  {
    if agent !in d.byAgent then []
    else if d.byAgent[agent].who.owner.None? then [agent]
    else Lineage(d, d.byAgent[agent].who.owner.value) + [agent]
  }

  ghost predicate Duplicatefree(s: seq<Id>) {
    forall i, j | 0 <= i < j < |s| :: s[i] != s[j]
  }

  /** The walk ends at a root, follows ownership at every step, strictly goes
      back in the log and so never meets an Agent twice. */
  lemma {:induction false} LineageIsAChain(d: Directory, agent: Id)
    requires d.Coherent() && agent in d.byAgent
    ensures var path := Lineage(d, agent);
      && |path| >= 1 && path[|path| - 1] == agent
      && (forall i | 0 <= i < |path| :: path[i] in d.byAgent)
      && d.byAgent[path[0]].who.owner == None
      && (forall i | 0 < i < |path| :: d.byAgent[path[i]].who.owner == Some(path[i - 1]))
      && (forall i, j | 0 <= i < j < |path| :: d.byAgent[path[i]].created < d.byAgent[path[j]].created)
      && Duplicatefree(path)
    decreases d.byAgent[agent].created
  {
    var owner := d.byAgent[agent].who.owner;
    if owner.Some? {
      LineageIsAChain(d, owner.value);
      var above := Lineage(d, owner.value);
      assert forall i | 0 <= i < |above| :: d.byAgent[above[i]].created <= d.byAgent[owner.value].created;
    }
  }

  /** An Agent's ownership never changes once recorded. */
  lemma {:induction false} LineageStable(d: Directory, later: Directory, agent: Id)
    requires d.Coherent() && later.Coherent() && d.GrowsTo(later) && agent in d.byAgent
    ensures Lineage(later, agent) == Lineage(d, agent)
    decreases d.byAgent[agent].created
  {
    if d.byAgent[agent].who.owner.Some? {
      LineageStable(d, later, d.byAgent[agent].who.owner.value);
    }
  }
}
