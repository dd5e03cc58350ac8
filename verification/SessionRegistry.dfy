/** The daemon's registry of live proxied sessions, with an index from grant to connection ids that
    is appended to but never cleaned when a session ends by itself. */
module SessionRegistry {
  import opened Base

  datatype Session = Session(grant: Id, device: Id, conn: Id)

  type Sessions = map<string, Session>

  type Index = map<Id, seq<string>>

  /** closed is the set of connections that were closed on purpose. */
  datatype Registry = Registry(sessions: Sessions, index: Index, closed: set<Id>)

  const EMPTY: Registry := Registry(map[], map[], {})

  function Indexed(index: Index, grant: Id): seq<string> {
    if grant in index then index[grant] else []
  }

  /** The live sessions of a grant, found by looking at every one of them. */
  function Scan(sessions: Sessions, grant: Id): set<string> {
    set id | id in sessions && sessions[id].grant == grant
  }

  function OfDevice(sessions: Sessions, device: Id): set<string> {
    set id | id in sessions && sessions[id].device == device
  }

  /** The live sessions the index leads to. */
  function ViaIndex(r: Registry, grant: Id): set<string> {
    set id | id in r.sessions && id in Indexed(r.index, grant)
  }

  function Conns(sessions: Sessions, ids: set<string>): set<Id> {
    set id | id in ids && id in sessions :: sessions[id].conn
  }

  function Registered(r: Registry, id: string, s: Session): Registry {
    r.(sessions := r.sessions[id := s], index := r.index[s.grant := Indexed(r.index, s.grant) + [id]])
  }

  function Unregistered(r: Registry, id: string): Registry {
    r.(sessions := r.sessions - {id})
  }

  function DeviceTerminated(r: Registry, device: Id): Registry {
    var ids := OfDevice(r.sessions, device);
    r.(sessions := r.sessions - ids, closed := r.closed + Conns(r.sessions, ids))
  }

  function GrantTerminated(r: Registry, grant: Id): Registry {
    var ids := ViaIndex(r, grant);
    Registry(r.sessions - ids, r.index - {grant}, r.closed + Conns(r.sessions, ids))
  }

  // ---- the index against the scan ----

  /** For live sessions the index says exactly which grant they use; stale ids do not matter. */
  ghost predicate Agrees(r: Registry) {
    forall id, g :: id in r.sessions ==> (id in Indexed(r.index, g) <==> r.sessions[id].grant == g)
  }

  /** Then terminating through the index closes exactly what a full scan would, and leaves none. */
  lemma IndexClosesTheScan(r: Registry, grant: Id)
    requires Agrees(r)
    ensures ViaIndex(r, grant) == Scan(r.sessions, grant)
    ensures var t := GrantTerminated(r, grant);
            && t.sessions == r.sessions - Scan(r.sessions, grant)
            && t.closed == r.closed + Conns(r.sessions, Scan(r.sessions, grant))
            && Scan(t.sessions, grant) == {}
            && Agrees(t)
  {
    assert ViaIndex(r, grant) == Scan(r.sessions, grant);
    var t := GrantTerminated(r, grant);
    assert forall g :: g != grant ==> Indexed(t.index, g) == Indexed(r.index, g);
    assert Indexed(t.index, grant) == [];
    assert Scan(t.sessions, grant) == {};
  }

  /** No other grant lists the id. */
  ghost predicate Unlisted(index: Index, id: string, grant: Id) {
    forall g :: g != grant ==> id !in Indexed(index, g)
  }

  /** The agreement is the promise itself: for every grant the index leads to exactly what a scan finds. */
  lemma AgreesIff(r: Registry)
    ensures Agrees(r) <==> forall g :: ViaIndex(r, g) == Scan(r.sessions, g)
  {
    if forall g :: ViaIndex(r, g) == Scan(r.sessions, g) {
      forall id, g | id in r.sessions
        ensures id in Indexed(r.index, g) <==> r.sessions[id].grant == g
      {
        assert id in ViaIndex(r, g) <==> id in Scan(r.sessions, g);
      }
    }
  }

  /** Registering keeps the agreement exactly when the id is not listed under another grant. */
  lemma RegisterKeepsIff(r: Registry, id: string, s: Session)
    requires Agrees(r)
    ensures Agrees(Registered(r, id, s)) <==> Unlisted(r.index, id, s.grant)
  {
    var t := Registered(r, id, s);
    assert forall g :: g != s.grant ==> Indexed(t.index, g) == Indexed(r.index, g);
    assert Indexed(t.index, s.grant) == Indexed(r.index, s.grant) + [id];
    assert id in t.sessions;
  }

  /** A connection id used again under another grant dies with the first grant. */
  lemma ReusedIdDiesWithFirstGrant(id: string, s: Session, t: Session)
    requires s.grant != t.grant
    ensures var r := Registered(Unregistered(Registered(EMPTY, id, s), id), id, t);
            && id in r.sessions && r.sessions[id].grant == t.grant
            && id !in GrantTerminated(r, s.grant).sessions
  {
  }

  /** Terminating a device leaves no live session of it and every other one as it was; its connections,
      and no others, are closed. */
  lemma DeviceTerminationIsComplete(r: Registry, device: Id)
    ensures var t := DeviceTerminated(r, device);
            && (forall id :: id in t.sessions <==> id in r.sessions && r.sessions[id].device != device)
            && (forall id :: id in t.sessions ==> t.sessions[id] == r.sessions[id])
            && (forall c :: c in t.closed <==>
                  || c in r.closed
                  || exists id :: id in r.sessions && r.sessions[id].device == device && r.sessions[id].conn == c)
            && t.index == r.index
  {
    var t := DeviceTerminated(r, device);
    forall c
      ensures c in t.closed <==>
                || c in r.closed
                || exists id :: id in r.sessions && r.sessions[id].device == device && r.sessions[id].conn == c
    {
      if id :| id in r.sessions && r.sessions[id].device == device && r.sessions[id].conn == c {
        assert id in OfDevice(r.sessions, device);
      }
    }
  }

  /** Exactly the connections of a grant's live sessions are closed with it. */
  lemma GrantTerminationCloses(r: Registry, grant: Id, c: Id)
    requires Agrees(r)
    ensures c in GrantTerminated(r, grant).closed <==>
              || c in r.closed
              || exists id :: id in r.sessions && r.sessions[id].grant == grant && r.sessions[id].conn == c
  {
    IndexClosesTheScan(r, grant);
    if id :| id in r.sessions && r.sessions[id].grant == grant && r.sessions[id].conn == c {
      assert id in Scan(r.sessions, grant);
    }
  }

  /** A registered session is live until it is unregistered or terminated, and found under its grant. */
  lemma RegisteredIsFound(r: Registry, id: string, s: Session)
    ensures var t := Registered(r, id, s);
            && id in t.sessions && t.sessions[id] == s && id in Scan(t.sessions, s.grant) && id in ViaIndex(t, s.grant)
            && (forall o :: o != id ==> (o in t.sessions <==> o in r.sessions))
            && (forall o :: o != id && o in r.sessions ==> t.sessions[o] == r.sessions[o])
            && t.closed == r.closed
    ensures var t := Unregistered(r, id);
            && id !in t.sessions && t.closed == r.closed
            && (forall o :: o != id ==> (o in t.sessions <==> o in r.sessions))
            && (forall o :: o != id && o in r.sessions ==> t.sessions[o] == r.sessions[o])
  {
  }

  // ---- runs ----

  datatype Event =
    | Register(id: string, session: Session)
    | Unregister(id: string)
    | TerminateByDevice(device: Id)
    | TerminateByGrant(grant: Id)

  function Next(r: Registry, e: Event): Registry {
    match e
    case Register(id, session) => Registered(r, id, session)
    case Unregister(id) => Unregistered(r, id)
    case TerminateByDevice(device) => DeviceTerminated(r, device)
    case TerminateByGrant(grant) => GrantTerminated(r, grant)
  }

  function Run(r: Registry, es: seq<Event>): Registry
    decreases es
  {
    if es == [] then r else Run(Next(r, es[0]), es[1..])
  }

  /** Index and scan agree at every moment of a run. */
  ghost predicate AgreesThroughout(r: Registry, es: seq<Event>)
    decreases es
  {
    Agrees(r) && (es != [] ==> AgreesThroughout(Next(r, es[0]), es[1..]))
  }

  /** No registration in the run uses an id that the index lists under another grant. */
  ghost predicate NeverListedElsewhere(r: Registry, es: seq<Event>)
    decreases es
  {
    es != [] ==>
      && (es[0].Register? ==> Unlisted(r.index, es[0].id, es[0].session.grant))
      && NeverListedElsewhere(Next(r, es[0]), es[1..])
  }

  lemma StepAgreesIff(r: Registry, e: Event)
    requires Agrees(r)
    ensures Agrees(Next(r, e)) <==> (e.Register? ==> Unlisted(r.index, e.id, e.session.grant))
  {
    match e
    case Register(id, session) => RegisterKeepsIff(r, id, session);
    case TerminateByGrant(grant) => IndexClosesTheScan(r, grant);
    case _ => assert Next(r, e).index == r.index;
  }

  /** For whole runs: the index leads to exactly the scan at every moment if and only if no registration
      uses an id listed under another grant. */
  lemma {:induction false} AgreesThroughoutIff(r: Registry, es: seq<Event>)
    requires Agrees(r)
    ensures AgreesThroughout(r, es) <==> NeverListedElsewhere(r, es)
    decreases es
  {
    if es != [] {
      StepAgreesIff(r, es[0]);
      if Agrees(Next(r, es[0])) {
        AgreesThroughoutIff(Next(r, es[0]), es[1..]);
      }
    }
  }

  /** Connection ids are random and never registered twice. */
  ghost predicate NeverReused(es: seq<Event>, used: set<string>)
    decreases es
  {
    es != [] ==>
      if es[0].Register? then es[0].id !in used && NeverReused(es[1..], used + {es[0].id})
      else NeverReused(es[1..], used)
  }

  ghost predicate OnlyUsed(index: Index, used: set<string>) {
    forall g, id :: id in Indexed(index, g) ==> id in used
  }

  lemma StepAgrees(r: Registry, e: Event, used: set<string>)
    requires Agrees(r) && OnlyUsed(r.index, used) && (e.Register? ==> e.id !in used)
    ensures Agrees(Next(r, e)) && OnlyUsed(Next(r, e).index, if e.Register? then used + {e.id} else used)
  {
    match e
    case Register(id, s) =>
      RegisterKeepsIff(r, id, s);
      forall g, o | o in Indexed(Next(r, e).index, g)
        ensures o in used + {id}
      {
        assert o in Indexed(r.index, g) || o == id;
      }
    case TerminateByGrant(grant) =>
      IndexClosesTheScan(r, grant);
      forall g, o | o in Indexed(Next(r, e).index, g)
        ensures o in used
      {
        assert o in Indexed(r.index, g);
      }
    case _ => assert Next(r, e).index == r.index;
  }

  lemma {:induction false} RunAgrees(r: Registry, es: seq<Event>, used: set<string>)
    requires Agrees(r) && OnlyUsed(r.index, used) && NeverReused(es, used)
    ensures Agrees(Run(r, es))
    decreases es
  {
    if es != [] {
      StepAgrees(r, es[0], used);
      RunAgrees(Next(r, es[0]), es[1..], if es[0].Register? then used + {es[0].id} else used);
    }
  }

  /** Index agreement: after any run in which connection ids are not reused, terminating a grant
      closes exactly the sessions a scan finds for it, whatever stale ids the index holds. */
  lemma TerminationIsComplete(es: seq<Event>, grant: Id)
    requires NeverReused(es, {})
    ensures var r := Run(EMPTY, es);
            var t := GrantTerminated(r, grant);
            && t.sessions == r.sessions - Scan(r.sessions, grant)
            && t.closed == r.closed + Conns(r.sessions, Scan(r.sessions, grant))
            && |ViaIndex(r, grant)| == |Scan(r.sessions, grant)|
            && Scan(t.sessions, grant) == {}
  {
    RunAgrees(EMPTY, es, {});
    IndexClosesTheScan(Run(EMPTY, es), grant);
  }

  // ---- the registry object ----

  class SessionTable {
    var sessions: Sessions
    var grantMap: Index
    var closed: set<Id>

    function Abstract(): Registry
      reads this
    {
      Registry(sessions, grantMap, closed)
    }

    constructor ()
      ensures Abstract() == EMPTY
    {
      sessions, grantMap, closed := map[], map[], {};
    }

    method Register(id: string, s: Session)
      modifies this`sessions, this`grantMap
      ensures Abstract() == Registered(old(Abstract()), id, s)
    {
      sessions := sessions[id := s];
      grantMap := grantMap[s.grant := (if s.grant in grantMap then grantMap[s.grant] else []) + [id]];
    }

    method Unregister(id: string)
      modifies this`sessions
      ensures Abstract() == Unregistered(old(Abstract()), id)
    {
      sessions := sessions - {id};
    }

    method TerminateByDevice(device: Id) returns (count: nat)
      modifies this`sessions, this`closed
      ensures Abstract() == DeviceTerminated(old(Abstract()), device)
      ensures count == |OfDevice(old(sessions), device)|
    {
      count := 0;
      var rest := sessions.Keys;
      ghost var gone: set<string> := {};
      while rest != {}
        invariant rest <= old(sessions).Keys && gone !! rest
        invariant gone == set id | id in old(sessions) && id !in rest && old(sessions)[id].device == device
        invariant sessions == old(sessions) - gone && count == |gone|
        invariant closed == old(closed) + Conns(old(sessions), gone)
        decreases rest
      {
        var id :| id in rest;
        rest := rest - {id};
        if sessions[id].device == device {
          closed := closed + {sessions[id].conn};
          ConnsAdd(old(sessions), gone, id);
          sessions := sessions - {id};
          gone := gone + {id};
          count := count + 1;
        }
      }
      assert gone == OfDevice(old(sessions), device);
    }

    method TerminateByGrant(grant: Id) returns (count: nat)
      modifies this
      ensures Abstract() == GrantTerminated(old(Abstract()), grant)
      ensures count == |ViaIndex(old(Abstract()), grant)|
    {
      count := 0;
      if grant !in grantMap {
        assert ViaIndex(Abstract(), grant) == {};
        assert grantMap - {grant} == grantMap && sessions - {} == sessions;
        return;
      }
      var ids := grantMap[grant];
      ghost var gone: set<string> := {};
      for i := 0 to |ids|
        invariant gone <= old(sessions).Keys
        invariant forall id :: id in old(sessions) ==> (id in gone <==> id in ids[..i])
        invariant sessions == old(sessions) - gone && grantMap == old(grantMap) && count == |gone|
        invariant closed == old(closed) + Conns(old(sessions), gone)
      {
        var id := ids[i];
        assert ids[..i + 1] == ids[..i] + [id];
        if id in sessions {
          closed := closed + {sessions[id].conn};
          ConnsAdd(old(sessions), gone, id);
          sessions := sessions - {id};
          gone := gone + {id};
          count := count + 1;
        }
      }
      assert ids[..|ids|] == ids;
      assert gone == ViaIndex(old(Abstract()), grant);
      grantMap := grantMap - {grant};
    }
  }

  lemma ConnsAdd(sessions: Sessions, ids: set<string>, id: string)
    requires id in sessions
    ensures Conns(sessions, ids + {id}) == Conns(sessions, ids) + {sessions[id].conn}
  {
  }
}
