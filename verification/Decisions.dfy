/** What a decision, a consumption and a revocation bring about: not only what can never happen, but
    exactly when they succeed and what the tables hold afterwards. */
module Decisions {
  import opened Base
  import opened GrantTtl
  import opened SignedResponse
  import opened Service
  import opened Lifecycle
  import opened ApprovalStore

  /** The row a committed decision leaves. */
  function DecidedRow(q: Request, i: Input): Request {
    var recorded := q.(decision := Some(i.decision), counter := Some(i.response.body.counter));
    if i.decision == Approve then recorded.(state := Granted, version := q.version + 2)
    else recorded.(state := Denied, version := q.version + 1)
  }

  /** A committed decision in full, except for the grant. */
  lemma DecisionShape(s: State, i: Input)
    requires Commits(s, i)
    ensures var t := Process(s, i);
            && t.requests == s.requests[i.request := DecidedRow(s.requests[i.request], i)]
            && t.decided == s.decided + [Decided(DeviceRef(i), i.request, i.decision, i.response)]
            && t.users == s.users && t.resources == s.resources
            && (i.decision == Deny ==> t.grants == s.grants)
  {
  }

  // ---- when a decision takes effect ----

  /** The foreign keys of every request resolve. */
  ghost predicate KeysResolve(requests: map<Ref, Request>, users: set<Ref>, resources: set<Ref>) {
    forall r :: r in requests ==>
      Ref(r.tenant, requests[r].user) in users && Ref(r.tenant, requests[r].resource) in resources
  }

  lemma InsertResolves(requests: map<Ref, Request>, users: set<Ref>, resources: set<Ref>,
                       allowed: bool, r: Ref, q: Request)
    requires KeysResolve(requests, users, resources)
    requires allowed ==> Ref(r.tenant, q.user) in users && Ref(r.tenant, q.resource) in resources
    ensures KeysResolve(Insert(requests, allowed, r, q), users, resources)
  {
  }

  lemma KeptResolves(before: map<Ref, Request>, after: map<Ref, Request>, users: set<Ref>, resources: set<Ref>)
    requires KeysResolve(before, users, resources) && after.Keys == before.Keys
    requires forall r :: r in before ==> after[r].user == before[r].user && after[r].resource == before[r].resource
    ensures KeysResolve(after, users, resources)
  {
  }

  lemma DecideResolves(s: State, i: Input)
    requires KeysResolve(s.requests, s.users, s.resources.Keys)
    ensures var t := Process(s, i); KeysResolve(t.requests, t.users, t.resources.Keys)
  {
    if Commits(s, i) {
      DecisionShape(s, i);
      KeptResolves(s.requests, Process(s, i).requests, s.users, s.resources.Keys);
    }
  }

  lemma StepResolves(s: State, e: Event)
    requires KeysResolve(s.requests, s.users, s.resources.Keys)
    ensures KeysResolve(Next(s, e).requests, Next(s, e).users, Next(s, e).resources.Keys)
  {
    match e
    case Provision(users, resources, devices) =>
      assert Next(s, e).requests == s.requests && s.users <= Next(s, e).users;
      assert s.resources.Keys <= Next(s, e).resources.Keys;
    case Create(r, user, device, srcNode, resource, scope) =>
      InsertResolves(s.requests, s.users, s.resources.Keys, Creatable(s, r, user, device, resource, scope), r,
                     Request(user, device, srcNode, resource, scope, Pending, 0, None, None));
    case Decide(i) => DecideResolves(s, i);
    case Cancel(r) => KeptResolves(s.requests, CloseIn(s.requests, r, Cancelled), s.users, s.resources.Keys);
    case Expire(r, _) => KeptResolves(s.requests, CloseIn(s.requests, r, Expired), s.users, s.resources.Keys);
    case _ =>
      assert Next(s, e).requests == s.requests && Next(s, e).users == s.users;
      assert Next(s, e).resources == s.resources;
  }

  lemma {:induction false} RunResolves(s: State, es: seq<Event>)
    requires KeysResolve(s.requests, s.users, s.resources.Keys)
    ensures var t := Run(s, es); KeysResolve(t.requests, t.users, t.resources.Keys)
    decreases es
  {
    if es != [] {
      StepResolves(s, es[0]);
      RunResolves(Next(s, es[0]), es[1..]);
    }
  }

  /** The device is known, the joined bytes are signed with this key of it, the counter is above the one
      it last used, and the key id is text. */
  ghost predicate Answers(s: State, i: Input, approving: bool) {
    var d := Ref(i.request.tenant, i.device);
    && d in s.devices
    && i.response.signature.key == (if approving then s.devices[d].approvalKey else s.devices[d].authKey)
    && i.response.signature.over == ToSign(i.response.body)
    && i.response.body.counter > s.devices[d].counter
    && Storable(i.response.body.keyId)
  }

  /** Exactly when deciding a pending request grants it, and exactly when it denies it. */
  lemma DecisionTakesEffectIff(s: State, i: Input)
    requires Inv(s) && KeysResolve(s.requests, s.users, s.resources.Keys)
    requires i.request in s.requests && s.requests[i.request].state == Pending
    ensures var q := s.requests[i.request];
            var after := Process(s, i).requests;
            && i.request in after
            && (after[i.request].state == Granted <==>
                  && i.decision == Approve && Answers(s, i, true) && i.signs
                  && TriggerSeconds(q.scope, Some(s.resources[Ref(i.request.tenant, q.resource)].sensitivity)) > 0
                  && Ref(i.request.tenant, i.jti) !in s.grants)
            && (after[i.request].state == Denied <==> i.decision == Deny && Answers(s, i, false))
            && (after[i.request].state in {Granted, Denied} || Process(s, i) == s)
  {
    var q := s.requests[i.request];
    CapsAgree(q.scope, s.resources[Ref(i.request.tenant, q.resource)].sensitivity, 0, 0);
    EffectOf(s, i);
  }

  lemma EffectOf(s: State, i: Input)
    requires i.request in s.requests && s.requests[i.request].state == Pending
    ensures var after := Process(s, i).requests;
            && i.request in after
            && (Commits(s, i) ==> after[i.request].state == if i.decision == Approve then Granted else Denied)
            && (!Commits(s, i) ==> Process(s, i) == s)
  {
  }

  /** The reply tells what the request's state is now; a failure leaves everything as it was. */
  lemma ReplyTellsState(s: State, i: Input)
    ensures var reply, t := ProcessReply(s, i), Process(s, i);
            && (reply == Failed ==> t == s && (i.request in s.requests ==> s.requests[i.request].state == Pending))
            && (i.request !in s.requests ==> reply == Failed)
            && (reply.Settled? ==> i.request in t.requests && t.requests[i.request].state == reply.state != Pending)
            && (reply.Issued? ==> i.request in t.requests && t.requests[i.request].state == Granted
                                  && i.decision == Approve && reply.jti == i.jti)
  {
  }

  // ---- requests and grants follow the log ----

  /** The request's row records this accepted decision. */
  ghost predicate Records(q: Request, d: Decided) {
    && q.decision == Some(d.decision) && q.counter == Some(d.response.body.counter)
    && q.state == (if d.decision == Approve then Granted else Denied)
  }

  ghost predicate DecidedAt(decided: seq<Decided>, i: int, r: Ref) {
    0 <= i < |decided| && decided[i].request == r
  }

  ghost predicate RowFollows(r: Ref, q: Request, decided: seq<Decided>) {
    if q.state == Granted || q.state == Denied then exists i :: DecidedAt(decided, i, r)
    else q.decision == None && q.counter == None
  }

  ghost predicate RequestsFollow(requests: map<Ref, Request>, decided: seq<Decided>) {
    && (forall i :: 0 <= i < |decided| ==>
          decided[i].request in requests && Records(requests[decided[i].request], decided[i]))
    && (forall i, j :: 0 <= i < j < |decided| ==> decided[i].request != decided[j].request)
    && (forall r :: r in requests ==> RowFollows(r, requests[r], decided))
  }

  /** The approval a grant rests on. */
  ghost predicate Approved(decided: seq<Decided>, i: int, g: Ref, grant: Grant) {
    && DecidedAt(decided, i, Ref(g.tenant, grant.request))
    && decided[i].decision == Approve && decided[i].device == Ref(g.tenant, grant.device)
  }

  ghost predicate GrantsFollow(grants: map<Ref, Grant>, decided: seq<Decided>) {
    forall g :: g in grants ==> exists i :: Approved(decided, i, g, grants[g])
  }

  lemma InsertFollows(requests: map<Ref, Request>, decided: seq<Decided>, allowed: bool, r: Ref, q: Request)
    requires RequestsFollow(requests, decided) && (allowed ==> r !in requests)
    requires q.state == Pending && q.decision == None && q.counter == None
    ensures RequestsFollow(Insert(requests, allowed, r, q), decided)
  {
  }

  lemma CloseFollows(requests: map<Ref, Request>, decided: seq<Decided>, r: Ref, state: RequestState)
    requires RequestsFollow(requests, decided) && state in {Cancelled, Expired}
    ensures RequestsFollow(CloseIn(requests, r, state), decided)
  {
  }

  lemma DecidedRowFollows(requests: map<Ref, Request>, decided: seq<Decided>, i: Input)
    requires RequestsFollow(requests, decided) && i.request in requests && requests[i.request].state == Pending
    ensures RequestsFollow(requests[i.request := DecidedRow(requests[i.request], i)],
                           decided + [Decided(DeviceRef(i), i.request, i.decision, i.response)])
  {
    var after := requests[i.request := DecidedRow(requests[i.request], i)];
    var longer := decided + [Decided(DeviceRef(i), i.request, i.decision, i.response)];
    forall r | r in after
      ensures RowFollows(r, after[r], longer)
    {
      if r == i.request {
        assert DecidedAt(longer, |decided|, r);
      } else if n :| DecidedAt(decided, n, r) {
        assert DecidedAt(longer, n, r);
      }
    }
  }

  lemma LongerFollows(grants: map<Ref, Grant>, decided: seq<Decided>, longer: seq<Decided>)
    requires GrantsFollow(grants, decided) && decided <= longer
    ensures GrantsFollow(grants, longer)
  {
    forall g | g in grants
      ensures exists i :: Approved(longer, i, g, grants[g])
    {
      var i :| Approved(decided, i, g, grants[g]);
      assert Approved(longer, i, g, grants[g]);
    }
  }

  lemma MintFollows(grants: map<Ref, Grant>, decided: seq<Decided>, g: Ref, grant: Grant, i: int)
    requires GrantsFollow(grants, decided) && Approved(decided, i, g, grant)
    ensures GrantsFollow(grants[g := grant], decided)
  {
  }

  /** Requests and grants follow the log of accepted decisions. */
  ghost predicate Follows(s: State) {
    RequestsFollow(s.requests, s.decided) && GrantsFollow(s.grants, s.decided)
  }

  lemma DenyFollows(s: State, i: Input)
    requires Follows(s) && Commits(s, i) && i.decision == Deny
    ensures Follows(Process(s, i))
  {
    DecisionShape(s, i);
    DecidedRowFollows(s.requests, s.decided, i);
    LongerFollows(s.grants, s.decided, s.decided + [Decided(DeviceRef(i), i.request, i.decision, i.response)]);
  }

  /** An approval adds at most the new grant. */
  lemma ApprovalAdds(s: State, i: Input)
    requires Commits(s, i) && i.decision == Approve
    ensures var q := s.requests[i.request];
            var grant := NewGrant(q, i.device, i.request.id, s.resources[Ref(i.request.tenant, q.resource)], i.now);
            || Process(s, i).grants == s.grants
            || Process(s, i).grants == s.grants[Ref(i.request.tenant, i.jti) := grant]
  {
  }

  lemma ApproveFollows(s: State, i: Input)
    requires Follows(s) && Commits(s, i) && i.decision == Approve
    ensures Follows(Process(s, i))
  {
    var q := s.requests[i.request];
    DecisionShape(s, i);
    DecidedRowFollows(s.requests, s.decided, i);
    NewGrantFollows(s.grants, s.decided, i,
                    NewGrant(q, i.device, i.request.id, s.resources[Ref(i.request.tenant, q.resource)], i.now));
    ApprovalAdds(s, i);
  }

  lemma NewGrantFollows(grants: map<Ref, Grant>, decided: seq<Decided>, i: Input, grant: Grant)
    requires GrantsFollow(grants, decided) && i.decision == Approve
    requires grant.request == i.request.id && grant.device == i.device
    ensures var longer := decided + [Decided(DeviceRef(i), i.request, i.decision, i.response)];
            GrantsFollow(grants, longer) && GrantsFollow(grants[Ref(i.request.tenant, i.jti) := grant], longer)
  {
    var longer := decided + [Decided(DeviceRef(i), i.request, i.decision, i.response)];
    LongerFollows(grants, decided, longer);
    assert Approved(longer, |decided|, Ref(i.request.tenant, i.jti), grant);
    MintFollows(grants, longer, Ref(i.request.tenant, i.jti), grant, |decided|);
  }

  lemma DecideFollows(s: State, i: Input)
    requires Follows(s)
    ensures Follows(Process(s, i))
  {
    if !Commits(s, i) {
      assert Process(s, i) == s;
    } else if i.decision == Deny {
      DenyFollows(s, i);
    } else {
      ApproveFollows(s, i);
    }
  }

  lemma NoNewFollows(before: map<Ref, Grant>, after: map<Ref, Grant>, decided: seq<Decided>)
    requires GrantsFollow(before, decided) && NoNewGrants(before, after)
    ensures GrantsFollow(after, decided)
  {
    forall g | g in after
      ensures exists i :: Approved(decided, i, g, after[g])
    {
      var i :| Approved(decided, i, g, before[g]);
      assert after[g].(consumedAt := None).device == before[g].(consumedAt := None).device;
      assert Approved(decided, i, g, after[g]);
    }
  }

  lemma RevokeFollows(s: State, tenant: Id, target: Target)
    requires Follows(s)
    ensures Follows(IssueRevocation(s, tenant, target))
  {
    NoNewFollows(s.grants, DropInvalidated(s, tenant, target), s.decided);
  }

  lemma CreateFollows(s: State, r: Ref, user: Id, device: Id, srcNode: string, resource: Id, scope: Scope)
    requires Follows(s)
    ensures Follows(CreateRequest(s, r, user, device, srcNode, resource, scope))
  {
    InsertFollows(s.requests, s.decided, Creatable(s, r, user, device, resource, scope), r,
                  Request(user, device, srcNode, resource, scope, Pending, 0, None, None));
  }

  lemma ConsumeFollows(s: State, g: Ref, now: Time)
    requires Follows(s)
    ensures Follows(ConsumeGrant(s, g, now))
  {
    NoNewFollows(s.grants, ConsumeIn(s.grants, g, now), s.decided);
  }

  lemma ClosingFollows(s: State, r: Ref, state: RequestState)
    requires Follows(s) && state in {Cancelled, Expired}
    ensures Follows(Close(s, r, state))
  {
    CloseFollows(s.requests, s.decided, r, state);
  }

  lemma QuietFollows(s: State, t: State)
    requires Follows(s) && t.requests == s.requests && t.decided == s.decided && t.grants == s.grants
    ensures Follows(t)
  {
  }

  lemma StepFollows(s: State, e: Event)
    requires Follows(s)
    ensures Follows(Next(s, e))
  {
    match e
    case Create(r, user, device, srcNode, resource, scope) =>
      CreateFollows(s, r, user, device, srcNode, resource, scope);
    case Decide(i) => DecideFollows(s, i);
    case Cancel(r) => ClosingFollows(s, r, Cancelled);
    case Expire(r, expected) =>
      if r in s.requests && s.requests[r].version == expected {
        ClosingFollows(s, r, Expired);
      }
    case Consume(g, now) => ConsumeFollows(s, g, now);
    case Revoke(tenant, target) => RevokeFollows(s, tenant, target);
    case _ =>
      QuietEvents(s, e);
      QuietFollows(s, Next(s, e));
  }

  lemma QuietEvents(s: State, e: Event)
    requires e.Provision? || e.OpenSession? || e.CloseSession? || e.RevokeDevice?
    ensures var t := Next(s, e); t.requests == s.requests && t.decided == s.decided && t.grants == s.grants
  {
  }

  lemma {:induction false} RunFollows(s: State, es: seq<Event>)
    requires Follows(s)
    ensures Follows(Run(s, es))
    decreases es
  {
    if es != [] {
      StepFollows(s, es[0]);
      RunFollows(Next(s, es[0]), es[1..]);
    }
  }

  /** In every reachable state a request is GRANTED or DENIED exactly when one decision on it was
      accepted, its row records that decision and counter, and any grant names the device that
      approved. No request is decided twice, and an undecided row records nothing. */
  lemma DecisionsAreRecorded(es: seq<Event>)
    ensures var s := Run(EMPTY, es);
            && (forall i :: 0 <= i < |s.decided| ==>
                  s.decided[i].request in s.requests && Records(s.requests[s.decided[i].request], s.decided[i]))
            && (forall i, j :: 0 <= i < j < |s.decided| ==> s.decided[i].request != s.decided[j].request)
            && (forall r :: r in s.requests ==> RowFollows(r, s.requests[r], s.decided))
            && (forall g :: g in s.grants ==> exists i :: Approved(s.decided, i, g, s.grants[g]))
  {
    RunFollows(EMPTY, es);
  }

  // ---- what was asked for is what is granted ----

  lemma DecideKeepsSubjects(s: State, i: Input)
    ensures SubjectsKept(s.requests, Process(s, i).requests)
  {
    if Commits(s, i) {
      DecisionShape(s, i);
    }
  }

  lemma StepKeepsSubjects(s: State, e: Event)
    ensures SubjectsKept(s.requests, Next(s, e).requests)
  {
    match e
    case Decide(i) => DecideKeepsSubjects(s, i);
    case Create(r, user, device, srcNode, resource, scope) =>
      assert Next(s, e).requests == Insert(s.requests, Creatable(s, r, user, device, resource, scope), r,
                                           Request(user, device, srcNode, resource, scope, Pending, 0, None, None));
    case Cancel(r) => assert Next(s, e).requests == CloseIn(s.requests, r, Cancelled);
    case Expire(r, _) => assert Next(s, e).requests in {s.requests, CloseIn(s.requests, r, Expired)};
    case _ => assert Next(s, e).requests == s.requests;
  }

  lemma {:induction false} RunKeepsSubjects(s: State, es: seq<Event>)
    ensures SubjectsKept(s.requests, Run(s, es).requests)
    decreases es
  {
    if es != [] {
      StepKeepsSubjects(s, es[0]);
      RunKeepsSubjects(Next(s, es[0]), es[1..]);
    }
  }

  /** A request whose id is new and whose foreign keys resolve is created, pending; and in every
      continuation whatever grant it has is for the user, source node, resource and scope that were asked
      for, at the resource's own node. */
  lemma AskedIsGranted(s: State, r: Ref, user: Id, device: Id, srcNode: string, resource: Id, scope: Scope,
                       es: seq<Event>, g: Ref)
    requires Inv(s) && !scope.OtherScope? && (forall k :: k in s.requests ==> k.id != r.id)
    requires Ref(r.tenant, user) in s.users && Ref(r.tenant, device) in s.devices
    requires Ref(r.tenant, resource) in s.resources
    requires Fresh(Next(s, Create(r, user, device, srcNode, resource, scope)), es)
    ensures var t := Next(s, Create(r, user, device, srcNode, resource, scope));
            && r in t.requests && t.requests[r].state == Pending && t.requests[r].device == device
            && (forall k :: k in s.requests ==> k in t.requests && t.requests[k] == s.requests[k])
    ensures var u := Run(Next(s, Create(r, user, device, srcNode, resource, scope)), es);
            g in u.grants && g.tenant == r.tenant && u.grants[g].request == r.id ==>
              && u.grants[g].user == user && u.grants[g].srcNode == srcNode
              && u.grants[g].resource == resource && u.grants[g].scope == scope
              && Ref(r.tenant, resource) in u.resources && u.grants[g].node == u.resources[Ref(r.tenant, resource)].node
  {
    var e := Create(r, user, device, srcNode, resource, scope);
    var t := Next(s, e);
    assert t.requests == s.requests[r := Request(user, device, srcNode, resource, scope, Pending, 0, None, None)];
    StepKeeps(s, e);
    RunKeeps(t, es);
    RunKeepsSubjects(t, es);
    var u := Run(t, es);
    if g in u.grants && g.tenant == r.tenant && u.grants[g].request == r.id {
      assert GrantOk(g, u.grants[g], u.requests, u.resources, u.minted);
    }
  }

  /** Exactly when a request is created; otherwise nothing changes. */
  lemma CreatedIff(s: State, r: Ref, user: Id, device: Id, srcNode: string, resource: Id, scope: Scope)
    ensures var t := Next(s, Create(r, user, device, srcNode, resource, scope));
            if && (forall k :: k in s.requests ==> k.id != r.id)
               && scope in {RequestScope, ConnectionScope, DurationScope, SessionScope}
               && Ref(r.tenant, user) in s.users && Ref(r.tenant, device) in s.devices
               && Ref(r.tenant, resource) in s.resources
            then r in t.requests && r !in s.requests && t.requests[r].state == Pending
            else t == s
  {
  }

  /** Exactly when a session row can be added, open; closing one closes that one. */
  lemma SessionOpensIff(s: State, id: Ref, grant: Id, device: Id, node: Id, k: Ref)
    ensures var t := Next(s, OpenSession(id, grant, device, node));
            if && (forall o :: o in s.sessions ==> o.id != id.id)
               && Ref(id.tenant, grant) in s.grants && Ref(id.tenant, device) in s.devices
            then t.sessions == s.sessions[id := Session(grant, device, node, true)]
            else t == s
    ensures k in s.sessions ==>
              var t := Next(s, CloseSession(id)).sessions;
              k in t && t[k] == if k == id then s.sessions[k].(open := false) else s.sessions[k]
  {
  }

  /** New rows are added when their keys are free, the devices' counters are zero and no two devices of a
      tenant then share an approval key or an authentication key; otherwise nothing changes. */
  lemma ProvisionedIff(s: State, users: set<Ref>, resources: map<Ref, Resource>, devices: map<Ref, Device>)
    ensures var t := Next(s, Provision(users, resources, devices));
            if && resources.Keys !! s.resources.Keys && devices.Keys !! s.devices.Keys
               && (forall d :: d in devices ==> devices[d].counter == 0) && UniqueKeys(s.devices + devices)
            then t == s.(users := s.users + users, resources := s.resources + resources, devices := s.devices + devices)
            else t == s
  {
  }

  lemma UniqueKeysIff(devices: map<Ref, Device>)
    ensures UniqueKeys(devices) <==>
              forall a, b :: a in devices && b in devices && a.tenant == b.tenant && a.id != b.id ==>
                devices[a].approvalKey != devices[b].approvalKey && devices[a].authKey != devices[b].authKey
  {
  }

  /** Cancelling closes a pending request and leaves a settled one and every other. */
  lemma CancelOutcome(s: State, r: Ref, k: Ref)
    requires k in s.requests
    ensures var t := Next(s, Cancel(r)).requests;
            && k in t
            && t[k].state == (if k == r && s.requests[k].state == Pending then Cancelled else s.requests[k].state)
            && (k != r || s.requests[k].state != Pending ==> t[k] == s.requests[k])
  {
    assert Next(s, Cancel(r)).requests == CloseIn(s.requests, r, Cancelled);
  }

  /** Expiring does the same if the version is the one expected. */
  lemma ExpireOutcome(s: State, r: Ref, expected: nat, k: Ref)
    requires k in s.requests
    ensures var t := Next(s, Expire(r, expected)).requests;
            var due := k == r && s.requests[k].state == Pending && s.requests[k].version == expected;
            && k in t && t[k].state == (if due then Expired else s.requests[k].state)
            && (!due ==> t[k] == s.requests[k])
  {
    if r in s.requests && s.requests[r].version == expected {
      assert Next(s, Expire(r, expected)).requests == CloseIn(s.requests, r, Expired);
    } else {
      assert Next(s, Expire(r, expected)) == s;
    }
  }

  // ---- when a grant can be used ----

  /** consume_grant answers true exactly when it marks a grant that was not marked. */
  lemma ConsumeAnswersTruly(s: State, g: Ref, now: Time)
    ensures Consumable(s, g, now) <==>
              && g in s.grants && s.grants[g].consumedAt.None?
              && ConsumeGrant(s, g, now).grants[g].consumedAt == Some(now)
  {
  }

  /** A grant just issued can be used exactly until its cap has passed. */
  lemma FreshGrantUsableIff(s: State, i: Input, now: Time)
    requires Inv(s) && ProcessReply(s, i).Issued?
    ensures var q := s.requests[i.request];
            && Ref(i.request.tenant, q.resource) in s.resources
            && (Consumable(Process(s, i), Ref(i.request.tenant, i.jti), now) <==>
                  now <= i.now + MaxGrantTtl(q.scope, s.resources[Ref(i.request.tenant, q.resource)].sensitivity))
  {
    ApprovalStep(s, i);
  }

  /** Nothing in the step is about this grant: it is not consumed, nor revoked. */
  ghost predicate Spares(s: State, e: Event, g: Ref)
    requires g in s.grants
  {
    && !(e.Consume? && e.g == g)
    && !(e.Revoke? && e.tenant == g.tenant && Names(e.target, g.id, s.grants[g]))
  }

  lemma StepKeepsRow(s: State, e: Event, g: Ref)
    requires FreshStep(s, e) && g in s.grants && g.id in s.minted && Spares(s, e, g)
    ensures g in Next(s, e).grants && Next(s, e).grants[g] == s.grants[g]
  {
    match e
    case Decide(i) => DecideKeepsRow(s, i, g);
    case Revoke(tenant, target) => RevokeKeepsRow(s, tenant, target, g);
    case Consume(k, now) => assert Next(s, e).grants == ConsumeIn(s.grants, k, now);
    case _ => assert Next(s, e).grants == s.grants;
  }

  lemma DecideKeepsRow(s: State, i: Input, g: Ref)
    requires g in s.grants && g.id != i.jti
    ensures g in Process(s, i).grants && Process(s, i).grants[g] == s.grants[g]
  {
  }

  lemma RevokeKeepsRow(s: State, tenant: Id, target: Target, g: Ref)
    requires g in s.grants && !(tenant == g.tenant && Names(target, g.id, s.grants[g]))
    ensures var t := IssueRevocation(s, tenant, target); g in t.grants && t.grants[g] == s.grants[g]
  {
    assert g in DropInvalidated(s, tenant, target);
  }

  ghost predicate SparedThroughout(s: State, es: seq<Event>, g: Ref)
    requires g in s.grants
    decreases es
  {
    es != [] ==> Spares(s, es[0], g) && g in Next(s, es[0]).grants && SparedThroughout(Next(s, es[0]), es[1..], g)
  }

  lemma {:induction false} RunKeepsRow(s: State, es: seq<Event>, g: Ref)
    requires Inv(s) && Fresh(s, es) && g in s.grants && SparedThroughout(s, es, g)
    ensures g in Run(s, es).grants && Run(s, es).grants[g] == s.grants[g]
    decreases es
  {
    if es != [] {
      assert GrantOk(g, s.grants[g], s.requests, s.resources, s.minted);
      StepKeeps(s, es[0]);
      StepKeepsRow(s, es[0], g);
      RunKeepsRow(Next(s, es[0]), es[1..], g);
    }
  }

  /** Whatever else happens, a grant neither consumed nor revoked stays usable until its cap has passed,
      and no longer. */
  lemma IssuedGrantUsableUntil(s: State, i: Input, es: seq<Event>, now: Time)
    requires Inv(s) && ProcessReply(s, i).Issued? && i.jti !in s.minted
    requires var t, g := Process(s, i), Ref(i.request.tenant, i.jti);
             g in t.grants && Fresh(t, es) && SparedThroughout(t, es, g)
    ensures var q := s.requests[i.request];
            && Ref(i.request.tenant, q.resource) in s.resources
            && (Consumable(Run(Process(s, i), es), Ref(i.request.tenant, i.jti), now) <==>
                  now <= i.now + MaxGrantTtl(q.scope, s.resources[Ref(i.request.tenant, q.resource)].sensitivity))
  {
    FreshGrantUsableIff(s, i, now);
    ApproveKeeps(s, i);
    RunKeepsRow(Process(s, i), es, Ref(i.request.tenant, i.jti));
  }

  // ---- what daemons learn of a revocation ----

  lemma {:induction false} RevocationRowsStay(s: State, es: seq<Event>, k: Ref)
    requires k in s.revocations
    ensures k in Run(s, es).revocations && Run(s, es).revocations[k] == s.revocations[k]
    decreases es
  {
    if es != [] {
      StepRevocations(s, es[0]);
      if Next(s, es[0]).revocations != s.revocations {
        var t, target :| Appends(s, Next(s, es[0]).revocations, t, target);
        NextRevocationIsFree(s, t);
      }
      RevocationRowsStay(Next(s, es[0]), es[1..], k);
    }
  }

  /** The stream of a tenant grew by exactly this event. */
  ghost predicate Announced(s: State, t: State, tenant: Id, target: Target) {
    && LastRevocation(t, tenant) == LastRevocation(s, tenant) + 1
    && Since(t, tenant, LastRevocation(s, tenant)) == [Revocation(LastRevocation(s, tenant) + 1, target)]
  }

  lemma AppendAnnounces(s: State, t: State, tenant: Id, target: Target)
    requires Numbered(s, tenant) && Appends(s, t.revocations, tenant, target)
    ensures Announced(s, t, tenant, target)
  {
    var n := LastRevocation(s, tenant);
    NumberedAt(t, tenant, n + 1);
    CatchUpIsExact(t, tenant, n);
    assert t.revocations[Ref(tenant, n + 1)] == target;
  }

  /** A daemon that was current learns exactly what a committed revocation revoked. */
  lemma RevocationIsAnnounced(s: State, tenant: Id, target: Target)
    requires Numbered(s, tenant) && !RevocationBlocked(s, tenant, target)
    ensures Announced(s, IssueRevocation(s, tenant, target), tenant, target)
  {
    AppendAnnounces(s, IssueRevocation(s, tenant, target), tenant, target);
  }

  /** The same for RevokeDevice, which also marks the device, if it exists, and nothing else. */
  lemma DeviceRevocationIsAnnounced(s: State, d: Ref)
    requires Numbered(s, d.tenant)
    ensures Announced(s, MarkRevoked(s, d), d.tenant, OfDevice(d.id))
    ensures MarkRevoked(s, d).devices.Keys == s.devices.Keys
    ensures forall k :: k in s.devices ==>
              MarkRevoked(s, d).devices[k] == if k == d then s.devices[k].(enrolled := false) else s.devices[k]
  {
    AppendAnnounces(s, MarkRevoked(s, d), d.tenant, OfDevice(d.id));
  }

  /** And whatever happens next, a daemon that was current before the revocation gets it first. */
  lemma AnnouncedForGood(s: State, tenant: Id, target: Target, es: seq<Event>)
    requires Numbered(s, tenant) && !RevocationBlocked(s, tenant, target)
    ensures var n := LastRevocation(s, tenant);
            var later := Since(Run(IssueRevocation(s, tenant, target), es), tenant, n);
            |later| > 0 && later[0] == Revocation(n + 1, target)
  {
    var n := LastRevocation(s, tenant);
    var t := IssueRevocation(s, tenant, target);
    var u := Run(t, es);
    RevocationIsAnnounced(s, tenant, target);
    NumberedAt(t, tenant, n + 1);
    RevocationRowsStay(t, es, Ref(tenant, n + 1));
    StreamIsNumbered(t, es, tenant);
    CatchUpIsExact(u, tenant, n);
  }
}
