/** What every run of the approval service keeps. */
module Lifecycle {
  import opened Base
  import opened GrantTtl
  import opened SignedResponse
  import opened Service

  // ---- the invariant, table by table ----

  /** APPROVED is never committed, and state_version tells how far the request got. */
  predicate RequestOk(q: Request) {
    match q.state
    case Pending => q.version == 0
    case Approved => false
    case Granted => q.version == 2
    case _ => q.version == 1
  }

  ghost predicate RequestsOk(requests: map<Ref, Request>) {
    forall r :: r in requests ==> RequestOk(requests[r])
  }

  /** A grant row belongs to the request it was minted for, copies its subject, and respects
      the cap of its scope and resource. */
  ghost predicate GrantOk(g: Ref, grant: Grant, requests: map<Ref, Request>, resources: map<Ref, Resource>,
                          minted: map<Id, Ref>)
  {
    var r := Ref(g.tenant, grant.request);
    var z := Ref(g.tenant, grant.resource);
    && g.id in minted && minted[g.id] == r
    && r in requests
    && grant.user == requests[r].user && grant.srcNode == requests[r].srcNode
    && grant.resource == requests[r].resource && grant.scope == requests[r].scope
    && z in resources && grant.node == resources[z].node
    && 0 < grant.expires - grant.iat <= MaxGrantTtl(grant.scope, resources[z].sensitivity)
  }

  ghost predicate GrantsOk(grants: map<Ref, Grant>, requests: map<Ref, Request>, resources: map<Ref, Resource>,
                           minted: map<Id, Ref>)
  {
    forall g :: g in grants ==> GrantOk(g, grants[g], requests, resources, minted)
  }

  /** Exactly the GRANTED requests were minted for, and each only once. */
  ghost predicate MintedOk(minted: map<Id, Ref>, requests: map<Ref, Request>) {
    && (forall j :: j in minted ==> minted[j] in requests && requests[minted[j]].state == Granted)
    && (forall j, k :: j in minted && k in minted && minted[j] == minted[k] ==> j == k)
    && (forall r :: r in requests && requests[r].state == Granted ==> r in minted.Values)
  }

  /** Every session refers to a grant row and a device row. */
  ghost predicate SessionsOk(sessions: map<Ref, Session>, grants: set<Ref>, devices: set<Ref>) {
    forall id :: id in sessions ==>
      Ref(id.tenant, sessions[id].grant) in grants && Ref(id.tenant, sessions[id].device) in devices
  }

  /** A recorded decision verified under the device's key and is not ahead of its counter. */
  ghost predicate DecidedOk(devices: map<Ref, Device>, d: Decided) {
    && d.device in devices
    && d.device.tenant == d.request.tenant
    && Verifies(d.response, KeyFor(devices[d.device], d.decision))
    && d.response.body.counter <= devices[d.device].counter
  }

  /** The accepted decisions of one device carry strictly increasing counters. */
  ghost predicate CountersIncrease(decided: seq<Decided>) {
    forall i, j :: 0 <= i < j < |decided| && decided[i].device == decided[j].device ==>
      decided[i].response.body.counter < decided[j].response.body.counter
  }

  ghost predicate LogOk(devices: map<Ref, Device>, decided: seq<Decided>) {
    && UniqueKeys(devices)
    && (forall i :: 0 <= i < |decided| ==> DecidedOk(devices, decided[i]))
    && CountersIncrease(decided)
  }

  ghost predicate Inv(s: State) {
    && RequestsOk(s.requests)
    && GrantsOk(s.grants, s.requests, s.resources, s.minted)
    && MintedOk(s.minted, s.requests)
    && SessionsOk(s.sessions, s.grants.Keys, s.devices.Keys)
    && LogOk(s.devices, s.decided)
  }

  // ---- frames ----

  /** Requests stay, with the same subject. */
  ghost predicate SubjectsKept(before: map<Ref, Request>, after: map<Ref, Request>) {
    forall r :: r in before ==>
      && r in after
      && after[r].user == before[r].user && after[r].srcNode == before[r].srcNode
      && after[r].resource == before[r].resource && after[r].scope == before[r].scope
  }

  ghost predicate Kept<K, V>(before: map<K, V>, after: map<K, V>) {
    forall k :: k in before ==> k in after && after[k] == before[k]
  }

  /** Grant rows only lose company or get consumed. */
  ghost predicate NoNewGrants(before: map<Ref, Grant>, after: map<Ref, Grant>) {
    forall g :: g in after ==> g in before && after[g].(consumedAt := None) == before[g].(consumedAt := None)
  }

  lemma GrantsFrame(s: State, t: State)
    requires GrantsOk(s.grants, s.requests, s.resources, s.minted)
    requires NoNewGrants(s.grants, t.grants) && SubjectsKept(s.requests, t.requests)
    requires Kept(s.resources, t.resources) && Kept(s.minted, t.minted)
    ensures GrantsOk(t.grants, t.requests, t.resources, t.minted)
  {
  }

  /** Devices keep their keys and never lose counter. */
  ghost predicate DevicesKept(before: map<Ref, Device>, after: map<Ref, Device>) {
    forall d :: d in before ==>
      && d in after
      && after[d].approvalKey == before[d].approvalKey && after[d].authKey == before[d].authKey
      && after[d].counter >= before[d].counter
  }

  lemma LogFrame(before: map<Ref, Device>, after: map<Ref, Device>, decided: seq<Decided>)
    requires LogOk(before, decided) && UniqueKeys(after) && DevicesKept(before, after)
    ensures LogOk(after, decided)
  {
  }

  /** Changing undecided requests only, to states short of GRANTED. */
  lemma MintedFrame(minted: map<Id, Ref>, before: map<Ref, Request>, after: map<Ref, Request>)
    requires MintedOk(minted, before)
    requires forall r :: r in before && before[r].state == Granted ==> r in after && after[r].state == Granted
    requires forall r :: r in after && after[r].state == Granted ==> r in before && before[r].state == Granted
    ensures MintedOk(minted, after)
  {
  }

  // ---- deciding ----

  /** Only a GRANTED request has a grant, so the ON CONFLICT clause of mintGrant never fires. */
  lemma UngrantedHasNoGrant(s: State, r: Ref)
    requires GrantsOk(s.grants, s.requests, s.resources, s.minted) && MintedOk(s.minted, s.requests)
    requires r in s.requests && s.requests[r].state != Granted
    ensures !AlreadyGranted(s, r)
  {
  }

  lemma SettleKeeps(s: State, i: Input, state: RequestState, version: nat)
    requires Accepts(s, i) && Inv(s)
    requires (state == Denied && version == 1) || (state == Granted && version == 2)
    ensures var t := Settle(s, i, state, version);
            && RequestsOk(t.requests)
            && SubjectsKept(s.requests, t.requests)
            && t.devices.Keys == s.devices.Keys
            && LogOk(t.devices, t.decided)
  {
    var t := Settle(s, i, state, version);
    assert t.devices.Keys == s.devices.Keys;
    assert DevicesKept(s.devices, t.devices);
    assert UniqueKeys(t.devices);
    LogFrame(s.devices, t.devices, s.decided);
    LogAppends(t.devices, s.decided, t.decided[|s.decided|]);
    forall n | 0 <= n < |s.decided| && s.decided[n].device == DeviceRef(i)
      ensures s.decided[n].response.body.counter < i.response.body.counter
    {
      assert DecidedOk(s.devices, s.decided[n]);
    }
  }

  lemma LogAppends(devices: map<Ref, Device>, decided: seq<Decided>, d: Decided)
    requires LogOk(devices, decided) && DecidedOk(devices, d)
    ensures (forall n :: 0 <= n < |decided| && decided[n].device == d.device ==>
               decided[n].response.body.counter < d.response.body.counter) ==> LogOk(devices, decided + [d])
  {
  }

  lemma DenyKeeps(s: State, i: Input)
    requires Inv(s) && Commits(s, i) && i.decision == Deny
    ensures Inv(Process(s, i))
  {
    assert RequestOk(s.requests[i.request]);
    var t := Settle(s, i, Denied, 1);
    assert Process(s, i) == t;
    SettleKeeps(s, i, Denied, 1);
    GrantsFrame(s, t);
    MintedFrame(s.minted, s.requests, t.requests);
  }

  /** The whole effect of an approval: the request, the counter and the log settle, and exactly
      one grant row and one minted id are added. */
  lemma ApprovalStep(s: State, i: Input)
    requires Inv(s) && Commits(s, i) && i.decision == Approve
    ensures var q := s.requests[i.request];
            var grant := NewGrant(q, i.device, i.request.id, s.resources[Ref(i.request.tenant, q.resource)], i.now);
            Process(s, i) == Settle(s, i, Granted, 2).(grants := s.grants[Ref(i.request.tenant, i.jti) := grant],
                                                       minted := s.minted[i.jti := i.request])
  {
  }

  lemma MintKeepsGrants(s: State, i: Input, requests: map<Ref, Request>)
    requires Inv(s) && Commits(s, i) && i.decision == Approve && i.jti !in s.minted
    requires SubjectsKept(s.requests, requests)
    ensures var q := s.requests[i.request];
            var grant := NewGrant(q, i.device, i.request.id, s.resources[Ref(i.request.tenant, q.resource)], i.now);
            GrantsOk(s.grants[Ref(i.request.tenant, i.jti) := grant], requests, s.resources,
                     s.minted[i.jti := i.request])
  {
  }

  lemma ApproveKeeps(s: State, i: Input)
    requires Inv(s) && Commits(s, i) && i.decision == Approve && i.jti !in s.minted
    ensures Inv(Process(s, i))
  {
    var q := s.requests[i.request];
    var grant := NewGrant(q, i.device, i.request.id, s.resources[Ref(i.request.tenant, q.resource)], i.now);
    var t := Settle(s, i, Granted, 2);
    SettleKeeps(s, i, Granted, 2);
    MintKeepsGrants(s, i, t.requests);
    MintKeepsMinted(s.minted, s.requests, t.requests, i.jti, i.request);
    MoreGrantsKeepSessions(s.sessions, s.grants, s.devices.Keys, Ref(i.request.tenant, i.jti), grant);
    ApprovalStep(s, i);
  }

  lemma MoreGrantsKeepSessions(sessions: map<Ref, Session>, grants: map<Ref, Grant>, devices: set<Ref>,
                               g: Ref, grant: Grant)
    requires SessionsOk(sessions, grants.Keys, devices)
    ensures SessionsOk(sessions, grants[g := grant].Keys, devices)
  {
  }

  lemma MintKeepsMinted(minted: map<Id, Ref>, before: map<Ref, Request>, after: map<Ref, Request>, jti: Id, r: Ref)
    requires MintedOk(minted, before) && jti !in minted && r in before && before[r].state != Granted
    requires r in after && after == before[r := after[r]] && after[r].state == Granted
    ensures MintedOk(minted[jti := r], after)
  {
    var minted' := minted[jti := r];
    forall k | k in after && after[k].state == Granted
      ensures k in minted'.Values
    {
      if k == r {
        assert minted'[jti] == k;
      } else {
        var j :| j in minted && minted[j] == k;
        assert minted'[j] == k;
      }
    }
  }

  // ---- the other steps ----

  lemma ProvisionKeeps(s: State, users: set<Ref>, resources: map<Ref, Resource>, devices: map<Ref, Device>)
    requires Inv(s)
    ensures Inv(AddRows(s, users, resources, devices))
  {
    var t := AddRows(s, users, resources, devices);
    if t == s {
    } else {
      assert t.devices == s.devices + devices && t.resources == s.resources + resources;
      GrantsFrame(s, t);
      assert DevicesKept(s.devices, t.devices);
      LogFrame(s.devices, t.devices, s.decided);
    }
  }

  lemma CreateKeeps(s: State, r: Ref, user: Id, device: Id, srcNode: string, resource: Id, scope: Scope)
    requires Inv(s)
    ensures Inv(CreateRequest(s, r, user, device, srcNode, resource, scope))
  {
  }

  lemma CloseKeeps(s: State, r: Ref, state: RequestState)
    requires Inv(s) && (state == Cancelled || state == Expired)
    ensures Inv(Close(s, r, state))
  {
  }

  lemma ConsumeKeeps(s: State, g: Ref, now: Time)
    requires Inv(s)
    ensures Inv(ConsumeGrant(s, g, now))
  {
  }

  lemma InsertSessionKeeps(sessions: map<Ref, Session>, grants: set<Ref>, devices: set<Ref>,
                           allowed: bool, id: Ref, row: Session)
    requires SessionsOk(sessions, grants, devices)
    requires allowed ==> Ref(id.tenant, row.grant) in grants && Ref(id.tenant, row.device) in devices
    ensures SessionsOk(Insert(sessions, allowed, id, row), grants, devices)
  {
  }

  lemma OpenKeeps(s: State, id: Ref, grant: Id, device: Id, node: Id)
    requires Inv(s)
    ensures Inv(Open(s, id, grant, device, node))
  {
    InsertSessionKeeps(s.sessions, s.grants.Keys, s.devices.Keys, Openable(s, id, grant, device), id,
                       Session(grant, device, node, true));
  }

  lemma CloseOneKeeps(s: State, id: Ref)
    requires Inv(s)
    ensures Inv(CloseOne(s, id))
  {
    if id in s.sessions {
      InsertSessionKeeps(s.sessions, s.grants.Keys, s.devices.Keys, true, id, s.sessions[id].(open := false));
    }
  }

  /** The foreign key keeps every session's grant: only grants no session refers to are dropped. */
  lemma RevokeKeeps(s: State, tenant: Id, target: Target)
    requires Inv(s)
    ensures Inv(IssueRevocation(s, tenant, target))
  {
    var t := IssueRevocation(s, tenant, target);
    if RevocationBlocked(s, tenant, target) {
      assert t == s;
    } else {
      assert t.grants == DropInvalidated(s, tenant, target);
      assert t.sessions == CloseTerminated(s, tenant, target);
      assert NoNewGrants(s.grants, t.grants);
      GrantsFrame(s, t);
      UnblockedKeepsSessions(s, tenant, target);
    }
  }

  lemma UnblockedKeepsSessions(s: State, tenant: Id, target: Target)
    requires SessionsOk(s.sessions, s.grants.Keys, s.devices.Keys) && !RevocationBlocked(s, tenant, target)
    ensures SessionsOk(CloseTerminated(s, tenant, target), DropInvalidated(s, tenant, target).Keys, s.devices.Keys)
  {
  }

  lemma MarkKeeps(s: State, d: Ref)
    requires Inv(s)
    ensures Inv(MarkRevoked(s, d))
  {
  }

  lemma DecideKeeps(s: State, i: Input)
    requires Inv(s) && i.jti !in s.minted
    ensures Inv(Process(s, i))
  {
    if !Commits(s, i) {
      assert Process(s, i) == s;
    } else if i.decision == Deny {
      DenyKeeps(s, i);
    } else {
      ApproveKeeps(s, i);
    }
  }

  lemma StepKeeps(s: State, e: Event)
    requires Inv(s) && FreshStep(s, e)
    ensures Inv(Next(s, e))
  {
    match e
    case Provision(users, resources, devices) => ProvisionKeeps(s, users, resources, devices);
    case Create(r, user, device, srcNode, resource, scope) => CreateKeeps(s, r, user, device, srcNode, resource, scope);
    case Decide(i) => DecideKeeps(s, i);
    case Cancel(r) => CloseKeeps(s, r, Cancelled);
    case Expire(r, _) => CloseKeeps(s, r, Expired);
    case Consume(g, now) => ConsumeKeeps(s, g, now);
    case OpenSession(id, grant, device, node) => OpenKeeps(s, id, grant, device, node);
    case CloseSession(id) => CloseOneKeeps(s, id);
    case Revoke(tenant, target) => RevokeKeeps(s, tenant, target);
    case RevokeDevice(d) => MarkKeeps(s, d);
  }

  lemma {:induction false} RunKeeps(s: State, es: seq<Event>)
    requires Inv(s) && Fresh(s, es)
    ensures Inv(Run(s, es))
    decreases es
  {
    if es != [] {
      StepKeeps(s, es[0]);
      RunKeeps(Next(s, es[0]), es[1..]);
    }
  }

  // ---- what never goes back ----

  /** A request that left PENDING keeps its row for good. */
  ghost predicate SettledKept(before: map<Ref, Request>, after: map<Ref, Request>) {
    forall r :: r in before && before[r].state != Pending ==> r in after && after[r] == before[r]
  }

  /** A consumed grant keeps its row, and a row that appears has an id never minted before. */
  ghost predicate GrantsAdvance(before: map<Ref, Grant>, after: map<Ref, Grant>, minted: map<Id, Ref>) {
    && (forall g :: g in before && before[g].consumedAt.Some? ==> g in after && after[g] == before[g])
    && (forall g :: g in after && g !in before ==> g.id !in minted)
  }

  ghost predicate Evolves(s: State, t: State) {
    && SettledKept(s.requests, t.requests)
    && Kept(s.minted, t.minted)
    && GrantsAdvance(s.grants, t.grants, s.minted)
    && s.decided <= t.decided
  }

  lemma ConsumeInAdvances(grants: map<Ref, Grant>, g: Ref, now: Time, minted: map<Id, Ref>)
    ensures GrantsAdvance(grants, ConsumeIn(grants, g, now), minted)
  {
  }

  lemma DropAdvances(s: State, tenant: Id, target: Target)
    ensures GrantsAdvance(s.grants, DropInvalidated(s, tenant, target), s.minted)
  {
  }

  lemma RevokeEvolves(s: State, tenant: Id, target: Target)
    ensures Evolves(s, IssueRevocation(s, tenant, target))
  {
    DropAdvances(s, tenant, target);
    if RevocationBlocked(s, tenant, target) {
      assert IssueRevocation(s, tenant, target) == s;
    } else {
      assert IssueRevocation(s, tenant, target).requests == s.requests;
    }
  }

  lemma QuietEvolves(s: State, t: State)
    requires t.requests == s.requests && t.grants == s.grants && t.minted == s.minted && t.decided == s.decided
    ensures Evolves(s, t)
  {
  }

  lemma DecideEvolves(s: State, i: Input)
    requires i.jti !in s.minted
    ensures Evolves(s, Process(s, i))
  {
  }

  lemma CreateEvolves(s: State, r: Ref, user: Id, device: Id, srcNode: string, resource: Id, scope: Scope)
    ensures Evolves(s, CreateRequest(s, r, user, device, srcNode, resource, scope))
  {
  }

  lemma CloseEvolves(s: State, r: Ref, state: RequestState)
    ensures Evolves(s, Close(s, r, state))
  {
  }

  lemma ConsumeEvolves(s: State, g: Ref, now: Time)
    ensures Evolves(s, ConsumeGrant(s, g, now))
  {
    ConsumeInAdvances(s.grants, g, now, s.minted);
  }

  lemma StepEvolves(s: State, e: Event)
    requires FreshStep(s, e)
    ensures Evolves(s, Next(s, e))
  {
    match e
    case Create(r, user, device, srcNode, resource, scope) =>
      CreateEvolves(s, r, user, device, srcNode, resource, scope);
    case Decide(i) => DecideEvolves(s, i);
    case Cancel(r) => CloseEvolves(s, r, Cancelled);
    case Expire(r, _) =>
      CloseEvolves(s, r, Expired);
      QuietEvolves(s, s);
    case Consume(g, now) => ConsumeEvolves(s, g, now);
    case Revoke(tenant, target) => RevokeEvolves(s, tenant, target);
    case _ => QuietEvolves(s, Next(s, e));
  }

  lemma EvolvesTransitive(s: State, t: State, u: State)
    requires Evolves(s, t) && Evolves(t, u)
    ensures Evolves(s, u)
  {
  }

  /** Nothing in a run goes back. */
  lemma {:induction false} RunEvolves(s: State, es: seq<Event>)
    requires Fresh(s, es)
    ensures Evolves(s, Run(s, es))
    decreases es
  {
    if es != [] {
      StepEvolves(s, es[0]);
      RunEvolves(Next(s, es[0]), es[1..]);
      EvolvesTransitive(s, Next(s, es[0]), Run(s, es));
    }
  }

  // ---- the lifecycle ----

  /** In every reachable state: no request is APPROVED, the version tells the state, a grant row
      exists only for a GRANTED request, and no request was ever minted for twice. */
  lemma LifecycleHolds(es: seq<Event>)
    requires Fresh(EMPTY, es)
    ensures var s := Run(EMPTY, es);
            && (forall r :: r in s.requests ==> RequestOk(s.requests[r]))
            && (forall g :: g in s.grants ==> Ref(g.tenant, s.grants[g].request) in s.requests
                                              && s.requests[Ref(g.tenant, s.grants[g].request)].state == Granted)
            && (forall j, k :: j in s.minted && k in s.minted && s.minted[j] == s.minted[k] ==> j == k)
  {
    RunKeeps(EMPTY, es);
    var s := Run(EMPTY, es);
    forall g | g in s.grants
      ensures Ref(g.tenant, s.grants[g].request) in s.requests
      ensures s.requests[Ref(g.tenant, s.grants[g].request)].state == Granted
    {
      assert GrantOk(g, s.grants[g], s.requests, s.resources, s.minted);
    }
  }

  /** The request is GRANTED at version 2, and the grant under this id is its only one, unconsumed. */
  ghost predicate HoldsOnlyGrant(s: State, r: Ref, jti: Id, iat: Time) {
    var g := Ref(r.tenant, jti);
    && r in s.requests && s.requests[r].state == Granted && s.requests[r].version == 2
    && g in s.grants && s.grants[g].request == r.id && s.grants[g].consumedAt == None && s.grants[g].iat == iat
    && (forall k :: k in s.grants && k.tenant == r.tenant && s.grants[k].request == r.id ==> k == g)
  }

  /** The JTI an approval returns is the one it stored. */
  lemma IssuedIsStored(s: State, i: Input)
    requires Inv(s) && ProcessReply(s, i).Issued?
    ensures HoldsOnlyGrant(Process(s, i), i.request, ProcessReply(s, i).jti, i.now)
  {
  }

  /** A request that left PENDING is never touched again: a late approval after CANCELLED,
      EXPIRED or DENIED changes nothing and mints nothing, in any continuation. */
  lemma LateApprovalMintsNothing(s: State, es: seq<Event>, r: Ref, i: Input)
    requires Inv(s) && Fresh(s, es)
    requires r in s.requests && s.requests[r].state in {Denied, Expired, Cancelled}
    requires i.request == r
    ensures var t := Run(s, es);
            && Process(t, i) == t
            && ProcessReply(t, i) == Settled(s.requests[r].state)
            && !AlreadyGranted(t, r)
  {
    RunEvolves(s, es);
    RunKeeps(s, es);
    UngrantedHasNoGrant(Run(s, es), r);
  }

  // ---- lifetime caps ----

  /** Every grant in every reachable state respects the cap of its scope and resource. */
  lemma GrantsRespectCap(es: seq<Event>, g: Ref)
    requires Fresh(EMPTY, es) && g in Run(EMPTY, es).grants
    ensures var s := Run(EMPTY, es);
            var z := Ref(g.tenant, s.grants[g].resource);
            && z in s.resources
            && s.grants[g].expires - s.grants[g].iat <= MaxGrantTtl(s.grants[g].scope, s.resources[z].sensitivity)
  {
    RunKeeps(EMPTY, es);
    var s := Run(EMPTY, es);
    assert GrantOk(g, s.grants[g], s.requests, s.resources, s.minted);
  }

  /** Approving a request whose cap is zero aborts the whole transaction: the request stays
      PENDING, the device counter is untouched, nothing is minted. */
  lemma ProhibitedScopeAborts(s: State, i: Input)
    requires IsPending(s, i.request) && Prohibited(s.requests, s.resources, i.request) && i.decision == Approve
    ensures Process(s, i) == s && ProcessReply(s, i) == Failed
  {
  }

  /** The cap of a request's scope on its resource is zero. */
  ghost predicate Prohibited(requests: map<Ref, Request>, resources: map<Ref, Resource>, r: Ref) {
    && r in requests && Ref(r.tenant, requests[r].resource) in resources
    && TriggerSeconds(requests[r].scope, Some(resources[Ref(r.tenant, requests[r].resource)].sensitivity)) == 0
  }

  ghost predicate Withheld(requests: map<Ref, Request>, resources: map<Ref, Resource>, r: Ref) {
    Prohibited(requests, resources, r) && requests[r].state != Granted
  }

  lemma InsertWithholds(requests: map<Ref, Request>, resources: map<Ref, Resource>, r: Ref,
                        allowed: bool, k: Ref, q: Request)
    requires Withheld(requests, resources, r) && (allowed ==> k !in requests)
    ensures Withheld(Insert(requests, allowed, k, q), resources, r)
  {
  }

  lemma CloseWithholds(requests: map<Ref, Request>, resources: map<Ref, Resource>, r: Ref, k: Ref, state: RequestState)
    requires Withheld(requests, resources, r) && state != Granted
    ensures Withheld(CloseIn(requests, k, state), resources, r)
  {
  }

  lemma ProvisionWithholds(s: State, users: set<Ref>, resources: map<Ref, Resource>, devices: map<Ref, Device>, r: Ref)
    requires Withheld(s.requests, s.resources, r)
    ensures var t := AddRows(s, users, resources, devices); Withheld(t.requests, t.resources, r)
  {
  }

  lemma DecideWithholds(s: State, i: Input, r: Ref)
    requires Withheld(s.requests, s.resources, r)
    ensures Withheld(Process(s, i).requests, Process(s, i).resources, r)
  {
    if i.request == r && IsPending(s, r) && i.decision == Approve {
      ProhibitedScopeAborts(s, i);
    }
  }

  lemma StepWithholds(s: State, e: Event, r: Ref)
    requires Withheld(s.requests, s.resources, r)
    ensures Withheld(Next(s, e).requests, Next(s, e).resources, r)
  {
    match e
    case Provision(users, resources, devices) => ProvisionWithholds(s, users, resources, devices, r);
    case Create(k, user, device, srcNode, resource, scope) =>
      InsertWithholds(s.requests, s.resources, r, Creatable(s, k, user, device, resource, scope), k,
                      Request(user, device, srcNode, resource, scope, Pending, 0, None, None));
    case Decide(i) => DecideWithholds(s, i, r);
    case Cancel(k) => CloseWithholds(s.requests, s.resources, r, k, Cancelled);
    case Expire(k, _) => CloseWithholds(s.requests, s.resources, r, k, Expired);
    case _ => assert Next(s, e).requests == s.requests && Next(s, e).resources == s.resources;
  }

  /** So in no run is a request granted whose scope its resource prohibits. */
  lemma {:induction false} ProhibitedNeverGranted(s: State, es: seq<Event>, r: Ref)
    requires Inv(s) && Fresh(s, es) && Withheld(s.requests, s.resources, r)
    ensures r in Run(s, es).requests && Run(s, es).requests[r].state != Granted
    ensures !AlreadyGranted(Run(s, es), r)
    decreases es
  {
    if es == [] {
      UngrantedHasNoGrant(s, r);
    } else {
      StepKeeps(s, es[0]);
      StepWithholds(s, es[0], r);
      ProhibitedNeverGranted(Next(s, es[0]), es[1..], r);
    }
  }

  // ---- counters ----

  /** Over every run the accepted decisions of one device carry strictly increasing counters. */
  lemma AcceptedCountersIncrease(es: seq<Event>, i: nat, j: nat)
    requires Fresh(EMPTY, es) && i < j < |Run(EMPTY, es).decided|
    requires Run(EMPTY, es).decided[i].device == Run(EMPTY, es).decided[j].device
    ensures Run(EMPTY, es).decided[i].response.body.counter < Run(EMPTY, es).decided[j].response.body.counter
  {
    RunKeeps(EMPTY, es);
  }

  /** When one signature is accepted twice, whatever the unsigned request ids say: both decisions were
      checked with the key that made it, over the same bytes. On one device the bytes were cut at two
      places, the second time with a larger counter; on two devices of a tenant the decisions are
      opposite, and one's approval key is the other's authentication key. */
  lemma ResponseAcceptedOnce(es: seq<Event>, i: nat, j: nat)
    requires Fresh(EMPTY, es) && i < j < |Run(EMPTY, es).decided|
    requires Run(EMPTY, es).decided[i].response.signature == Run(EMPTY, es).decided[j].response.signature
    ensures AcceptedAgain(Run(EMPTY, es).devices, Run(EMPTY, es).decided[i], Run(EMPTY, es).decided[j])
  {
    RunKeeps(EMPTY, es);
    var s := Run(EMPTY, es);
    assert DecidedOk(s.devices, s.decided[i]) && DecidedOk(s.devices, s.decided[j]);
    BothVerify(s.devices, s.decided[i], s.decided[j]);
  }

  ghost predicate AcceptedAgain(devices: map<Ref, Device>, a: Decided, b: Decided) {
    && a.device in devices && b.device in devices
    && KeyFor(devices[a.device], a.decision) == KeyFor(devices[b.device], b.decision) == a.response.signature.key
    && ToSign(a.response.body) == ToSign(b.response.body)
    && (a.device == b.device ==>
          a.response.body.counter < b.response.body.counter && !SameCut(a.response.body, b.response.body))
    && (a.device != b.device && a.device.tenant == b.device.tenant ==> a.decision != b.decision)
  }

  lemma BothVerify(devices: map<Ref, Device>, a: Decided, b: Decided)
    requires UniqueKeys(devices) && DecidedOk(devices, a) && DecidedOk(devices, b)
    requires a.response.signature == b.response.signature
    requires a.device == b.device ==> a.response.body.counter < b.response.body.counter
    ensures AcceptedAgain(devices, a, b)
  {
    if a.device == b.device && SameCut(a.response.body, b.response.body) {
      SameCutSameCounter(a.response.body, b.response.body);
    }
  }

  /** Exactly when, after an accepted decision, another is accepted: it was acceptable before, it is
      about another request, and it is another device's or carries a larger counter. */
  lemma ReplayIff(s: State, i: Input, j: Input)
    requires Commits(s, i) && j.jti != i.jti
    ensures Commits(Process(s, i), j) <==>
              && Commits(s, j) && j.request != i.request
              && (DeviceRef(j) != DeviceRef(i) || j.response.body.counter > i.response.body.counter)
  {
    DecisionTouches(s, i);
    if j.request in s.requests && j.request != i.request {
      MintableAfter(s, i, j);
    }
  }

  /** Another request can be granted after a decision as it could before. */
  lemma MintableAfter(s: State, i: Input, j: Input)
    requires Commits(s, i) && j.jti != i.jti && j.request in s.requests && j.request != i.request
    ensures j.request in Process(s, i).requests && (Mintable(Process(s, i), j) <==> Mintable(s, j))
  {
    DecisionTouches(s, i);
  }

  /** Some presentation of the signature would be committed as this device's decision on this request. */
  ghost predicate Reusable(s: State, j: Input, signature: Signature) {
    exists r: Response :: r.signature == signature && Commits(s, j.(response := r))
  }

  /** The signature covers a counter above the device's. */
  ghost predicate CoversLater(signature: Signature, counter: int) {
    exists c: Int64 :: c > counter && Holds(signature.over, c)
  }

  /** Exactly when a signature can be used by a device for a decision: the request is pending, a grant
      could be minted, the key fits, and its bytes hold a counter above the stored one. */
  lemma ReusableIff(s: State, j: Input, signature: Signature)
    ensures Reusable(s, j, signature) <==>
              && IsPending(s, j.request) && DeviceRef(j) in s.devices
              && (j.decision == Approve ==> Mintable(s, j))
              && signature.key == KeyFor(s.devices[DeviceRef(j)], j.decision)
              && CoversLater(signature, s.devices[DeviceRef(j)].counter)
  {
    if Reusable(s, j, signature) {
      var r: Response :| r.signature == signature && Commits(s, j.(response := r));
      PresentableIff(signature.over, r.body.counter);
    }
    if DeviceRef(j) in s.devices && CoversLater(signature, s.devices[DeviceRef(j)].counter) {
      var c: Int64 :| c > s.devices[DeviceRef(j)].counter && Holds(signature.over, c);
      PresentableIff(signature.over, c);
      var b: Signed :| ToSign(b) == signature.over && b.counter == c && Storable(b.keyId);
      var r := Response(0, b, signature);
      assert j.(response := r).response == r;
      UsesResponse(s, j, r);
    }
  }

  /** What committing asks of the response, apart from everything else. */
  lemma UsesResponse(s: State, j: Input, r: Response)
    ensures Commits(s, j.(response := r)) <==>
              && IsPending(s, j.request) && DeviceRef(j) in s.devices
              && (j.decision == Approve ==> Mintable(s, j))
              && Verifies(r, KeyFor(s.devices[DeviceRef(j)], j.decision))
              && r.body.counter > s.devices[DeviceRef(j)].counter && Storable(r.body.keyId)
  {
  }

  /** A committed decision touches one request and one device, and adds at most one grant, in its
      own tenant, when it approves. */
  lemma DecisionTouches(s: State, i: Input)
    requires Commits(s, i)
    ensures var t := Process(s, i);
            && t.users == s.users && t.resources == s.resources
            && RowTouched(s.requests, t.requests, i.request) && t.requests[i.request].state != Pending
            && RowTouched(s.devices, t.devices, DeviceRef(i))
            && t.devices[DeviceRef(i)] == s.devices[DeviceRef(i)].(counter := i.response.body.counter)
            && GrantAdded(s.grants.Keys, t.grants.Keys, i)
  {
    var version := s.requests[i.request].version;
    if i.decision == Deny {
      SettleTouches(s, i, Denied, version + 1);
      assert Process(s, i) == Settle(s, i, Denied, version + 1);
    } else {
      ApprovalTouches(s, i);
    }
  }

  lemma ApprovalTouches(s: State, i: Input)
    requires Commits(s, i) && i.decision == Approve
    ensures var t := Process(s, i);
            && t.users == s.users && t.resources == s.resources
            && RowTouched(s.requests, t.requests, i.request) && t.requests[i.request].state != Pending
            && RowTouched(s.devices, t.devices, DeviceRef(i))
            && t.devices[DeviceRef(i)] == s.devices[DeviceRef(i)].(counter := i.response.body.counter)
            && GrantAdded(s.grants.Keys, t.grants.Keys, i)
  {
    var u := Settle(s, i, Granted, s.requests[i.request].version + 2);
    SettleTouches(s, i, Granted, s.requests[i.request].version + 2);
    var t := Process(s, i);
    assert t.requests == u.requests && t.devices == u.devices && t.users == u.users && t.resources == u.resources;
  }

  ghost predicate RowTouched<V>(before: map<Ref, V>, after: map<Ref, V>, r: Ref) {
    && r in before && after.Keys == before.Keys
    && forall k :: k in before && k != r ==> after[k] == before[k]
  }

  ghost predicate GrantAdded(before: set<Ref>, after: set<Ref>, i: Input) {
    && before <= after
    && forall g :: g in after ==> g in before || (g == Ref(i.request.tenant, i.jti) && i.decision == Approve)
  }

  lemma SettleTouches(s: State, i: Input, state: RequestState, version: nat)
    requires Accepts(s, i)
    ensures var t := Settle(s, i, state, version);
            && RowTouched(s.requests, t.requests, i.request) && t.requests[i.request].state == state
            && RowTouched(s.devices, t.devices, DeviceRef(i))
            && t.devices[DeviceRef(i)] == s.devices[DeviceRef(i)].(counter := i.response.body.counter)
            && t.users == s.users && t.resources == s.resources && t.grants == s.grants
  {
  }

  /** The counter of a device's last accepted decision, 0 if it has none. */
  ghost function LastCounter(decided: seq<Decided>, d: Ref): int {
    if decided == [] then 0
    else if decided[|decided| - 1].device == d then decided[|decided| - 1].response.body.counter
    else LastCounter(decided[..|decided| - 1], d)
  }

  ghost predicate CountersStored(devices: map<Ref, Device>, decided: seq<Decided>) {
    forall d :: d in devices ==> devices[d].counter == LastCounter(decided, d)
  }

  lemma {:induction false} UndecidedIsZero(decided: seq<Decided>, d: Ref)
    requires forall i :: 0 <= i < |decided| ==> decided[i].device != d
    ensures LastCounter(decided, d) == 0
  {
    if decided != [] {
      UndecidedIsZero(decided[..|decided| - 1], d);
    }
  }

  lemma ProvisionStores(s: State, users: set<Ref>, resources: map<Ref, Resource>, devices: map<Ref, Device>)
    requires LogOk(s.devices, s.decided) && CountersStored(s.devices, s.decided)
    ensures var t := AddRows(s, users, resources, devices); CountersStored(t.devices, t.decided)
  {
    var t := AddRows(s, users, resources, devices);
    forall d | d in t.devices
      ensures t.devices[d].counter == LastCounter(t.decided, d)
    {
      if d !in s.devices {
        assert forall i :: 0 <= i < |s.decided| ==> DecidedOk(s.devices, s.decided[i]);
        UndecidedIsZero(s.decided, d);
      }
    }
  }

  lemma SettleStores(s: State, i: Input, state: RequestState, version: nat)
    requires Accepts(s, i) && CountersStored(s.devices, s.decided)
    ensures var t := Settle(s, i, state, version); CountersStored(t.devices, t.decided)
  {
    var t := Settle(s, i, state, version);
    assert t.decided[..|t.decided| - 1] == s.decided;
  }

  lemma DecideStores(s: State, i: Input)
    requires CountersStored(s.devices, s.decided)
    ensures CountersStored(Process(s, i).devices, Process(s, i).decided)
  {
    if Commits(s, i) {
      var version := s.requests[i.request].version;
      SettleStores(s, i, Denied, version + 1);
      SettleStores(s, i, Granted, version + 2);
    }
  }

  lemma MarkStores(s: State, d: Ref)
    requires CountersStored(s.devices, s.decided)
    ensures CountersStored(MarkRevoked(s, d).devices, MarkRevoked(s, d).decided)
  {
  }

  lemma StepStores(s: State, e: Event)
    requires LogOk(s.devices, s.decided) && CountersStored(s.devices, s.decided)
    ensures CountersStored(Next(s, e).devices, Next(s, e).decided)
  {
    match e
    case Provision(users, resources, devices) => ProvisionStores(s, users, resources, devices);
    case Decide(i) => DecideStores(s, i);
    case RevokeDevice(d) => MarkStores(s, d);
    case _ => assert Next(s, e).devices == s.devices && Next(s, e).decided == s.decided;
  }

  lemma {:induction false} RunStores(s: State, es: seq<Event>)
    requires Inv(s) && Fresh(s, es) && CountersStored(s.devices, s.decided)
    ensures CountersStored(Run(s, es).devices, Run(s, es).decided)
    decreases es
  {
    if es != [] {
      StepKeeps(s, es[0]);
      StepStores(s, es[0]);
      RunStores(Next(s, es[0]), es[1..]);
    }
  }

  /** In every reachable state a device's stored counter is that of its last accepted decision, 0 if
      it has none: no aborted transaction, and nothing else, ever moved it. */
  lemma CounterFollowsDecision(es: seq<Event>, d: Ref)
    requires Fresh(EMPTY, es) && d in Run(EMPTY, es).devices
    ensures Run(EMPTY, es).devices[d].counter == LastCounter(Run(EMPTY, es).decided, d)
  {
    RunStores(EMPTY, es);
  }

  // ---- consumption ----

  /** The successful consumptions of a grant in a run. */
  ghost function Uses(s: State, es: seq<Event>, g: Ref): nat
    decreases es
  {
    if es == [] then 0
    else
      (if es[0].Consume? && es[0].g == g && Consumable(s, g, es[0].now) then 1 else 0)
      + Uses(Next(s, es[0]), es[1..], g)
  }

  /** The grant id was minted for this tenant, and no consumption of it can succeed. */
  ghost predicate Spent(s: State, g: Ref) {
    && g.id in s.minted && s.minted[g.id].tenant == g.tenant
    && (g in s.grants ==> s.grants[g].consumedAt.Some?)
  }

  /** A grant that a revocation drops is spent. */
  lemma RevokedIsSpent(s: State, tenant: Id, target: Target, g: Ref)
    requires Inv(s) && Invalidates(s, tenant, target, g) && !RevocationBlocked(s, tenant, target)
    ensures Spent(IssueRevocation(s, tenant, target), g)
  {
    var t := IssueRevocation(s, tenant, target);
    assert GrantOk(g, s.grants[g], s.requests, s.resources, s.minted);
    assert t.grants == DropInvalidated(s, tenant, target) && t.minted == s.minted;
  }

  lemma SpentEvolves(s: State, t: State, g: Ref)
    requires Spent(s, g) && Evolves(s, t)
    ensures Spent(t, g)
  {
  }

  lemma {:induction false} SpentIsNeverUsed(s: State, es: seq<Event>, g: Ref)
    requires Spent(s, g) && Fresh(s, es)
    ensures Uses(s, es, g) == 0
    decreases es
  {
    if es != [] {
      StepEvolves(s, es[0]);
      SpentEvolves(s, Next(s, es[0]), g);
      SpentIsNeverUsed(Next(s, es[0]), es[1..], g);
    }
  }

  /** Whatever the run, a grant is consumed at the service at most once. */
  lemma {:induction false} ConsumedAtMostOnce(s: State, es: seq<Event>, g: Ref)
    requires Inv(s) && Fresh(s, es)
    ensures Uses(s, es, g) <= 1
    decreases es
  {
    if es != [] {
      StepKeeps(s, es[0]);
      if es[0].Consume? && es[0].g == g && Consumable(s, g, es[0].now) {
        assert GrantOk(g, s.grants[g], s.requests, s.resources, s.minted);
        SpentIsNeverUsed(Next(s, es[0]), es[1..], g);
      } else {
        ConsumedAtMostOnce(Next(s, es[0]), es[1..], g);
      }
    }
  }

  // ---- revocation ----

  /** A revocation commits exactly when no session row, open or closed, refers to a grant it
      would delete; otherwise nothing at all changes. */
  lemma RevocationCommitsIff(s: State, tenant: Id, target: Target)
    requires Inv(s)
    ensures IssueRevocation(s, tenant, target) != s <==>
              forall id :: id in s.sessions && id.tenant == tenant
                           && s.grants[Ref(tenant, s.sessions[id].grant)].consumedAt.None? ==>
                !Names(target, s.sessions[id].grant, s.grants[Ref(tenant, s.sessions[id].grant)])
  {
    NextRevocationIsFree(s, tenant);
    if !RevocationBlocked(s, tenant, target) {
      assert Ref(tenant, LastRevocation(s, tenant) + 1) in IssueRevocation(s, tenant, target).revocations;
    }
  }

  lemma NextRevocationIsFree(s: State, tenant: Id)
    ensures Ref(tenant, LastRevocation(s, tenant) + 1) !in s.revocations
  {
    var nums := set k | k in s.revocations && k.tenant == tenant :: k.id;
    forall k | k in s.revocations && k.tenant == tenant
      ensures k.id <= LastRevocation(s, tenant)
    {
      assert k.id in nums;
    }
  }

  /** The request a session's grant was minted for. */
  ghost predicate Serves(s: State, id: Ref, r: Ref) {
    id in s.sessions && s.sessions[id].grant in s.minted && s.minted[s.sessions[id].grant] == r && r in s.requests
  }

  /** The sessions a revocation is meant to end: those of the device, grant or node, and those
      that serve a request of the user or source node. */
  ghost predicate Matching(s: State, tenant: Id, target: Target, id: Ref) {
    && id in s.sessions && id.tenant == tenant
    && match target
       case OfDevice(d) => s.sessions[id].device == d
       case OfGrant(j) => s.sessions[id].grant == j
       case OfProtectedNode(n) => s.sessions[id].node == n
       case OfUser(u) => exists r :: Serves(s, id, r) && s.requests[r].user == u
       case OfSourceNode(n) => exists r :: Serves(s, id, r) && s.requests[r].srcNode == n
       case _ => false
  }

  /** Because every session's grant row exists and copies its request, the UPDATE's subquery
      over grants finds exactly those. */
  lemma TerminatesMatching(s: State, tenant: Id, target: Target, id: Ref)
    requires Inv(s)
    ensures Terminates(s, tenant, target, id) <==> Matching(s, tenant, target, id)
  {
    if id in s.sessions && id.tenant == tenant {
      SessionServes(s, id);
      ServedMatches(s, target, id, Ref(id.tenant, s.grants[Ref(id.tenant, s.sessions[id].grant)].request));
    }
  }

  lemma ServedMatches(s: State, target: Target, id: Ref, r: Ref)
    requires id in s.sessions && Serves(s, id, r)
    requires var g := Ref(id.tenant, s.sessions[id].grant);
             g in s.grants && s.requests[r].user == s.grants[g].user && s.requests[r].srcNode == s.grants[g].srcNode
    ensures Terminates(s, id.tenant, target, id) <==> Matching(s, id.tenant, target, id)
  {
  }

  lemma SessionServes(s: State, id: Ref)
    requires Inv(s) && id in s.sessions
    ensures var g := Ref(id.tenant, s.sessions[id].grant);
            && g in s.grants
            && var r := Ref(id.tenant, s.grants[g].request);
            && Serves(s, id, r)
            && s.requests[r].user == s.grants[g].user && s.requests[r].srcNode == s.grants[g].srcNode
  {
    var g := Ref(id.tenant, s.sessions[id].grant);
    assert GrantOk(g, s.grants[g], s.requests, s.resources, s.minted);
  }

  /** A committed revocation leaves no matching session open and keeps every other session, of
      this tenant or another, as it was. */
  lemma RevocationClosesAll(s: State, tenant: Id, target: Target, id: Ref)
    requires Inv(s) && !RevocationBlocked(s, tenant, target)
    ensures var s' := IssueRevocation(s, tenant, target);
            && (id in s'.sessions <==> id in s.sessions)
            && (Matching(s, tenant, target, id) ==> s'.sessions[id] == s.sessions[id].(open := false))
            && (id in s.sessions && !Matching(s, tenant, target, id) ==> s'.sessions[id] == s.sessions[id])
  {
    TerminatesMatching(s, tenant, target, id);
    assert IssueRevocation(s, tenant, target).sessions == CloseTerminated(s, tenant, target);
  }

  /** Exactly when the sessions a revocation is about are all closed afterwards: it was not blocked by
      the foreign key, or they were closed already. */
  lemma RevocationEndsAllIff(s: State, tenant: Id, target: Target)
    requires Inv(s)
    ensures (forall id :: Matching(s, tenant, target, id) ==>
               !IssueRevocation(s, tenant, target).sessions[id].open) <==>
            (|| !RevocationBlocked(s, tenant, target)
             || forall id :: Matching(s, tenant, target, id) ==> !s.sessions[id].open)
  {
    if RevocationBlocked(s, tenant, target) {
      assert IssueRevocation(s, tenant, target) == s;
    } else {
      forall id | Matching(s, tenant, target, id)
        ensures !IssueRevocation(s, tenant, target).sessions[id].open
      {
        RevocationClosesAll(s, tenant, target, id);
      }
    }
  }

  /** The grants a revocation is about: minted for a request of the user or source node, approved on
      the device, under the id, or any of the tenant. */
  ghost predicate MatchingGrant(s: State, tenant: Id, target: Target, g: Ref) {
    && g in s.grants && g.tenant == tenant
    && g.id in s.minted && s.minted[g.id] in s.requests
    && match target
       case OfUser(u) => s.requests[s.minted[g.id]].user == u
       case OfSourceNode(n) => s.requests[s.minted[g.id]].srcNode == n
       case OfDevice(d) => s.grants[g].device == d
       case OfGrant(j) => g.id == j
       case OfPolicy(_) => true
       case _ => false
  }

  /** A committed revocation removes exactly the matching grants not yet consumed; every other grant,
      of this tenant or another, keeps its row. */
  lemma RevocationDropsAll(s: State, tenant: Id, target: Target, g: Ref)
    requires Inv(s) && !RevocationBlocked(s, tenant, target) && g in s.grants
    ensures var t := IssueRevocation(s, tenant, target);
            && (g in t.grants <==> !(MatchingGrant(s, tenant, target, g) && s.grants[g].consumedAt.None?))
            && (g in t.grants ==> t.grants[g] == s.grants[g])
  {
    assert GrantOk(g, s.grants[g], s.requests, s.resources, s.minted);
    assert MatchingGrant(s, tenant, target, g) <==> g.tenant == tenant && Names(target, g.id, s.grants[g]);
    assert IssueRevocation(s, tenant, target).grants == DropInvalidated(s, tenant, target);
  }

  /** RevokeDevice ends no session: the device has none open afterwards exactly when it had none. */
  lemma DeviceRevocationEndsIff(s: State, d: Ref)
    ensures (forall id :: Matching(s, d.tenant, OfDevice(d.id), id) ==> !MarkRevoked(s, d).sessions[id].open) <==>
            (forall id :: Matching(s, d.tenant, OfDevice(d.id), id) ==> !s.sessions[id].open)
  {
    assert MarkRevoked(s, d).sessions == s.sessions;
  }

  /** No resurrection: once a revocation has removed a grant, in no continuation is it consumed,
      is its row back, or does its request get another grant. */
  lemma RevokedNeverReturns(s: State, tenant: Id, target: Target, g: Ref, es: seq<Event>, now: Time)
    requires Inv(s) && Invalidates(s, tenant, target, g) && !RevocationBlocked(s, tenant, target)
    requires Fresh(IssueRevocation(s, tenant, target), es)
    ensures var t := Run(IssueRevocation(s, tenant, target), es);
            && g !in t.grants
            && !Consumable(t, g, now)
            && Uses(IssueRevocation(s, tenant, target), es, g) == 0
            && !AlreadyGranted(t, Ref(g.tenant, s.grants[g].request))
  {
    var s' := IssueRevocation(s, tenant, target);
    var r := Ref(g.tenant, s.grants[g].request);
    assert GrantOk(g, s.grants[g], s.requests, s.resources, s.minted);
    RevokeKeeps(s, tenant, target);
    SpentIsNeverUsed(s', es, g);
    RunEvolves(s', es);
    RunKeeps(s', es);
    var t := Run(s', es);
    forall k | k in t.grants
      ensures !(k.tenant == r.tenant && t.grants[k].request == r.id)
    {
      assert GrantOk(k, t.grants[k], t.requests, t.resources, t.minted);
    }
  }

  // ---- the revocation stream ----

  /** A tenant's revocations are numbered exactly 1..n. */
  ghost predicate Numbered(s: State, tenant: Id) {
    forall n: nat :: Ref(tenant, n) in s.revocations <==> 1 <= n <= LastRevocation(s, tenant)
  }

  lemma NumberedAt(s: State, tenant: Id, top: nat)
    requires forall n: nat :: Ref(tenant, n) in s.revocations <==> 1 <= n <= top
    ensures LastRevocation(s, tenant) == top && Numbered(s, tenant)
  {
    var nums := set k | k in s.revocations && k.tenant == tenant :: k.id;
    if top > 0 {
      assert Ref(tenant, top) in s.revocations;
      assert Ref(tenant, top).id in nums;
    }
    forall n | n in nums
      ensures 1 <= n <= top
    {
      var k :| k in s.revocations && k.tenant == tenant && k.id == n;
      assert k == Ref(tenant, n);
    }
  }

  /** The next number of one tenant is appended. */
  ghost predicate Appends(s: State, after: map<Ref, Target>, tenant: Id, target: Target) {
    after == s.revocations[Ref(tenant, LastRevocation(s, tenant) + 1) := target]
  }

  lemma StepRevocations(s: State, e: Event)
    ensures var after := Next(s, e).revocations;
            after == s.revocations || exists t, target :: Appends(s, after, t, target)
  {
    match e
    case Revoke(t, target) =>
      if RevocationBlocked(s, t, target) {
        assert Next(s, e) == s;
      } else {
        assert Appends(s, Next(s, e).revocations, t, target);
      }
    case RevokeDevice(d) =>
      assert Appends(s, Next(s, e).revocations, d.tenant, OfDevice(d.id));
    case Decide(i) => assert Process(s, i).revocations == s.revocations;
    case _ => assert Next(s, e).revocations == s.revocations;
  }

  lemma AppendStaysNumbered(s: State, t: State, tenant: Id)
    requires Numbered(s, tenant)
    requires t.revocations == s.revocations || exists u, target :: Appends(s, t.revocations, u, target)
    ensures Numbered(t, tenant) && LastRevocation(t, tenant) >= LastRevocation(s, tenant)
  {
    if t.revocations == s.revocations {
      NumberedAt(t, tenant, LastRevocation(s, tenant));
    } else {
      var u, target :| Appends(s, t.revocations, u, target);
      NumberedAt(t, tenant, if u == tenant then LastRevocation(s, tenant) + 1 else LastRevocation(s, tenant));
    }
  }

  /** Whatever the run, a tenant's revocations stay numbered 1..n and n never falls. */
  lemma {:induction false} StreamIsNumbered(s: State, es: seq<Event>, tenant: Id)
    requires Numbered(s, tenant)
    ensures Numbered(Run(s, es), tenant)
    ensures LastRevocation(Run(s, es), tenant) >= LastRevocation(s, tenant)
    decreases es
  {
    if es != [] {
      StepRevocations(s, es[0]);
      AppendStaysNumbered(s, Next(s, es[0]), tenant);
      StreamIsNumbered(Next(s, es[0]), es[1..], tenant);
    }
  }
}
