/** The Agent creation transaction: read the Directory, decide, append by
    compare-and-swap, and tell the truth about a failed append. */
module Registrar {
  import opened Prelude
  import opened Directory
  import opened EventStore
  import CommitReconciliation
  import Identities = Directory

  /** `None` for an identity the caller leaves to be assigned. */
  datatype CreateRequest = CreateRequest(
    request: Id, agent: Option<Id>, session: Option<Id>, preset: Id, workspace: Id,
    owner: Option<Id>, forkedFrom: Option<Id>, grants: seq<Id>, metadata: string)

  datatype CreateError =
    | SpecInvalid
    | RequestConflict
    | IdentityConflict
    | SessionConflict
    | OwnerNotFound
    | DirectoryConflict
    | CreationFailed(committed: Option<bool>)
    | Cancelled
    | Unreadable

  datatype Plan = Existing(record: AgentRecord) | Record(fact: Creation) | Refuse(error: CreateError)

  /** The payload frozen before anything is read. */
  function Payload(q: CreateRequest, agent: Id, session: Id): Creation {
    Creation(if q.agent.Some? then q.agent.value else agent, if q.session.Some? then q.session.value else session,
             q.request, q.preset, q.workspace, q.owner, q.forkedFrom, q.grants, q.metadata)
  }

  /** Whether a record answers this request: pinned identities must agree, and
      so must everything that defines the request. */
  predicate Answers(record: AgentRecord, q: CreateRequest) {
    var who := record.who;
    && (q.agent.Some? ==> who.agent == q.agent.value) && (q.session.Some? ==> who.session == q.session.value)
    && who.preset == q.preset && who.workspace == q.workspace && who.owner == q.owner
    && who.forkedFrom == q.forkedFrom && who.grants == q.grants
  }

  predicate GrantsDistinct(grants: seq<Id>) {
    !exists i, j :: 0 <= i < j < |grants| && grants[i] == grants[j]
  }

  /** What a creation does on the Directory it read. */
  function Decide(d: Directory, q: CreateRequest, e: Creation): Plan {
    if !GrantsDistinct(e.grants) then Refuse(SpecInvalid)
    else if d.ForRequest(e.request).Some? then
      var existing := d.ForRequest(e.request).value;
      if Answers(existing, q) then Existing(existing) else Refuse(RequestConflict)
    else if d.Find(e.agent).Some? then Refuse(IdentityConflict)
    else if d.ForSession(e.session).Some? then Refuse(SessionConflict)
    else if e.owner.Some? && d.Find(e.owner.value).None? then Refuse(OwnerNotFound)
    else Record(e)
  }

  /** The registrar's checks, which never look for self-ownership and stop at
      the first, admit exactly what replay accepts. */
  lemma RecordsExactlyWhatReplays(d: Directory, q: CreateRequest, e: Creation)
    ensures Decide(d, q, e).Record? <==> Conflicts(d, e) == []
    ensures Decide(d, q, e).Record? ==> Decide(d, q, e).fact == e
  {
  }

  /** Exactly what a creation is told on the Directory it read: a repeat is
      answered when it pins nothing else and asks for the same Agent, and any
      identity in use is refused. */
  lemma PlanExactly(d: Directory, q: CreateRequest, agent: Id, session: Id)
    ensures var e := Payload(q, agent, session); var plan := Decide(d, q, e);
      && e.agent == (if q.agent.None? then agent else q.agent.value) && e.session == (if q.session.None? then session else q.session.value)
      && e == Creation(e.agent, e.session, q.request, q.preset, q.workspace, q.owner, q.forkedFrom, q.grants, q.metadata)
      && if exists i, j :: 0 <= i < j < |q.grants| && q.grants[i] == q.grants[j] then plan == Refuse(SpecInvalid)
         else if q.request in d.byRequest then
           var who := d.byRequest[q.request].who;
           plan == if (q.agent.Some? && q.agent.value != who.agent) || (q.session.Some? && q.session.value != who.session)
                      || q.preset != who.preset || q.workspace != who.workspace || q.owner != who.owner
                      || q.forkedFrom != who.forkedFrom || q.grants != who.grants
                   then Refuse(RequestConflict) else Existing(d.byRequest[q.request])
         else if e.agent in d.byAgent then plan == Refuse(IdentityConflict)
         else if e.session in d.bySession then plan == Refuse(SessionConflict)
         else if q.owner.Some? && q.owner.value !in d.byAgent then plan == Refuse(OwnerNotFound)
         else plan == Record(e)
  {
  }

  class AgentRegistrar {
    const store: Store

    constructor (s: Store)
      ensures store == s
    {
      store := s;
    }

    /** Appends the frozen payload, or explains what a failed append did. */
    method Append(expected: nat, e: Creation, weather: Weather<Creation>)
      returns (r: Result<AgentRecord, CreateError>)
      requires expected <= |store.agents|
      modifies store`agents
      ensures var ours := expected == |old(store.agents)| + |weather.rivals| && weather.fault != LostBeforeCommit;
        store.agents == old(store.agents) + weather.rivals + (if ours then [e] else [])
      ensures var conflict := expected != |old(store.agents)| + |weather.rivals|;
        var committed := if weather.rereads then Some(e in store.agents) else None;
        r == (if weather.cancelled then Failure(Cancelled)
              else if !conflict && weather.fault == Fine then Success(AgentRecord(e, expected + 1))
              else if conflict && weather.fault == Fine && committed == Some(false) then Failure(DirectoryConflict)
              else Failure(CreationFailed(committed)))
    {
      store.agents := store.agents + weather.rivals;
      var conflict := expected != |store.agents|;
      if !conflict && weather.fault != LostBeforeCommit {
        store.agents := store.agents + [e];
      }
      assert conflict ==> store.agents == old(store.agents) + weather.rivals + [];
      if !conflict && weather.fault == Fine && !weather.cancelled {
        return Success(AgentRecord(e, expected + 1));
      }
      var committed := CommitReconciliation.Committed(if weather.rereads then Some(store.agents) else None, e);
      if weather.cancelled { return Failure(Cancelled); }
      if conflict && weather.fault == Fine && committed == Some(false) { return Failure(DirectoryConflict); }
      return Failure(CreationFailed(committed));
    }

    /** One creation call; `agent` and `session` are the identities assigned
        where the caller pinned none. */
    method CreateAgent(q: CreateRequest, agent: Id, session: Id, weather: Weather<Creation>)
      returns (r: Result<AgentRecord, CreateError>)
      requires Rebuilt(store.agents).Success? && Rebuilt(store.agents + weather.rivals).Success?
      modifies store`agents
      ensures Rebuilt(store.agents).Success?
      ensures var plan := Decide(Rebuilt(old(store.agents)).value, q, Payload(q, agent, session));
        store.agents == old(store.agents)
          + (if weather.loads && plan.Record? then weather.rivals + (if weather.Lands() then [Payload(q, agent, session)] else []) else [])
      ensures r.Success? ==> Rebuilt(store.agents).value.ForRequest(q.request) == Some(r.value) && Answers(r.value, q)
      ensures var e := Payload(q, agent, session);
        var committed := if weather.rereads then Some(e in store.agents) else None;
        if !weather.loads then r == Failure(Unreadable)
        else
          match Decide(Rebuilt(old(store.agents)).value, q, e)
          case Refuse(error) => r == Failure(error)
          case Existing(record) => r == Success(record)
          case Record(_) =>
            r == (if weather.cancelled then Failure(Cancelled)
                  else if weather.Acknowledged() then Success(AgentRecord(e, |old(store.agents)| + 1))
                  else if weather.fault == Fine && committed == Some(false) then Failure(DirectoryConflict)
                  else Failure(CreationFailed(committed)))
    {
      hide Rebuilt, Decide, Answers;
      var e := Payload(q, agent, session);
      var d := Identities.Rebuild(store.agents);
      assert store.agents + [] == store.agents;
      if !weather.loads { return Failure(Unreadable); }
      match Decide(d.value, q, e)
      case Refuse(error) =>
        RefusalsAreChecks(d.value, q, e);
        return Failure(error);
      case Existing(record) =>
        ExistingAnswers(d.value, q, e);
        return Success(record);
      case Record(_) =>
        var before := store.agents;
        r := Append(|before|, e, weather);
        RecordedAnswers(before, q, agent, session);
        assert before + weather.rivals + [e] == before + (weather.rivals + [e]);
        assert before + weather.rivals + [] == before + (weather.rivals + []) == before + weather.rivals;
        assert weather.rivals == [] ==> before + weather.rivals + [e] == before + [e];
        assert weather.rivals != [] <==> |before| != |before| + |weather.rivals|;
    }
  }

  lemma RefusalsAreChecks(d: Directory, q: CreateRequest, e: Creation)
    requires Decide(d, q, e).Refuse?
    ensures Decide(d, q, e).error != DirectoryConflict && !Decide(d, q, e).error.CreationFailed?
  {
  }

  lemma ExistingAnswers(d: Directory, q: CreateRequest, e: Creation)
    requires e.request == q.request && Decide(d, q, e).Existing?
    ensures d.ForRequest(q.request) == Some(Decide(d, q, e).record) && Answers(Decide(d, q, e).record, q)
  {
  }

  /** An admitted payload, once appended, is what replay shows for its request. */
  lemma RecordedAnswers(before: seq<Creation>, q: CreateRequest, agent: Id, session: Id)
    requires Rebuilt(before).Success? && Decide(Rebuilt(before).value, q, Payload(q, agent, session)).Record?
    ensures var e := Payload(q, agent, session);
      && Rebuilt(before + [e]).Success?
      && Rebuilt(before + [e]).value.ForRequest(q.request) == Some(AgentRecord(e, |before| + 1))
      && Answers(AgentRecord(e, |before| + 1), q)
  {
    var e := Payload(q, agent, session);
    RecordsExactlyWhatReplays(Rebuilt(before).value, q, e);
    RebuiltAppend(before, e);
  }
}
