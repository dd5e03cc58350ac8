/** The approval service's tables and every committed transaction over them: creating,
    deciding, cancelling and expiring requests, minting and consuming grants, opening
    sessions, issuing revocations. Each transaction is one all-or-nothing step. */
module Service {
  import opened Base
  import opened GrantTtl
  import opened SignedResponse

  /** A (tenant_id, id) key. */
  datatype Ref = Ref(tenant: Id, id: Id)

  datatype RequestState = Pending | Approved | Granted | Denied | Expired | Cancelled

  datatype Decision = Approve | Deny

  datatype Request = Request(user: Id, device: Id, srcNode: string, resource: Id, scope: Scope, state: RequestState,
                             version: nat, decision: Option<Decision>, counter: Option<int>)

  datatype Device = Device(user: Id, approvalKey: PublicKey, authKey: PublicKey, counter: int, enrolled: bool)

  datatype Resource = Resource(node: Id, sensitivity: Sensitivity)

  datatype Grant = Grant(request: Id, user: Id, srcNode: string, device: Id, node: Id, resource: Id, scope: Scope,
                         iat: Time, expires: Time, consumedAt: Option<Time>)

  datatype Session = Session(grant: Id, device: Id, node: Id, open: bool)

  /** A revocation's kind and target. */
  datatype Target =
    | OfUser(user: Id)
    | OfSourceNode(srcNode: string)
    | OfProtectedNode(node: Id)
    | OfDevice(device: Id)
    | OfKey(key: string)
    | OfCert(cert: string)
    | OfGrant(jti: Id)
    | OfPolicy(policy: string)

  /** An accepted decision, as the decision audit entry records it. */
  datatype Decided = Decided(device: Ref, request: Ref, decision: Decision, response: Response)

  /** The tables, plus two histories: which grant ids were ever minted and for which request,
      and which decisions were accepted. */
  datatype State = State(users: set<Ref>, resources: map<Ref, Resource>, devices: map<Ref, Device>,
                         requests: map<Ref, Request>, grants: map<Ref, Grant>, sessions: map<Ref, Session>,
                         revocations: map<Ref, Target>, minted: map<Id, Ref>, decided: seq<Decided>)

  const EMPTY: State := State({}, map[], map[], map[], map[], map[], map[], map[], [])

  datatype Input = Input(request: Ref, device: Id, decision: Decision, response: Response,
                         jti: Id, now: Time, signs: bool)

  datatype Reply = Failed | Settled(state: RequestState) | Issued(jti: Id)

  datatype Event =
    | Provision(users: set<Ref>, resources: map<Ref, Resource>, devices: map<Ref, Device>)
    | Create(r: Ref, user: Id, device: Id, srcNode: string, resource: Id, scope: Scope)
    | Decide(input: Input)
    | Cancel(r: Ref)
    | Expire(r: Ref, expected: nat)
    | Consume(g: Ref, now: Time)
    | OpenSession(id: Ref, grant: Id, device: Id, node: Id)
    | CloseSession(id: Ref)
    | Revoke(tenant: Id, target: Target)
    | RevokeDevice(d: Ref)

  // ---- requests and decisions ----

  /** UNIQUE (tenant_id, approval_auth_pub) and UNIQUE (tenant_id, device_auth_pub). */
  ghost predicate UniqueKeys(devices: map<Ref, Device>) {
    forall a, b :: a in devices && b in devices && a.tenant == b.tenant && a != b ==>
      devices[a].approvalKey != devices[b].approvalKey && devices[a].authKey != devices[b].authKey
  }

  /** New users, resources and devices join; existing rows are not touched. */
  ghost function AddRows(s: State, users: set<Ref>, resources: map<Ref, Resource>, devices: map<Ref, Device>): State {
    if && resources.Keys !! s.resources.Keys
       && devices.Keys !! s.devices.Keys
       && (forall d :: d in devices ==> devices[d].counter == 0)
       && UniqueKeys(s.devices + devices)
    then s.(users := s.users + users, resources := s.resources + resources, devices := s.devices + devices)
    else s
  }

  /** The row's primary key is free, its scope is a known one and its foreign keys resolve. */
  predicate Creatable(s: State, r: Ref, user: Id, device: Id, resource: Id, scope: Scope) {
    && (forall k :: k in s.requests ==> k.id != r.id)
    && !scope.OtherScope?
    && Ref(r.tenant, user) in s.users && Ref(r.tenant, device) in s.devices && Ref(r.tenant, resource) in s.resources
  }

  /** A row is added when its constraints hold. */
  function Insert<V>(rows: map<Ref, V>, allowed: bool, r: Ref, row: V): map<Ref, V> {
    if allowed then rows[r := row] else rows
  }

  function CreateRequest(s: State, r: Ref, user: Id, device: Id, srcNode: string, resource: Id, scope: Scope): State {
    s.(requests := Insert(s.requests, Creatable(s, r, user, device, resource, scope), r,
                          Request(user, device, srcNode, resource, scope, Pending, 0, None, None)))
  }

  predicate IsPending(s: State, r: Ref) {
    r in s.requests && s.requests[r].state == Pending
  }

  function DeviceRef(i: Input): Ref {
    Ref(i.request.tenant, i.device)
  }

  /** APPROVE is checked with the approval key, anything else with the authentication key. */
  function KeyFor(d: Device, decision: Decision): PublicKey {
    if decision == Approve then d.approvalKey else d.authKey
  }

  /** The request can still be decided, and the device's response verifies with a new counter. */
  predicate Accepts(s: State, i: Input) {
    && IsPending(s, i.request)
    && DeviceRef(i) in s.devices
    && Verifies(i.response, KeyFor(s.devices[DeviceRef(i)], i.decision))
    && i.response.body.counter > s.devices[DeviceRef(i)].counter
  }

  /** The grant that approving would insert. */
  function NewGrant(q: Request, device: Id, request: Id, resource: Resource, now: Time): Grant {
    Grant(request, q.user, q.srcNode, device, resource.node, q.resource, q.scope, now,
          now + MaxGrantTtl(q.scope, resource.sensitivity), None)
  }

  /** Every statement of mintGrant succeeds: user and resource rows exist, signing works, the
      trigger lets the lifetime in and the primary key is free. */
  predicate Mintable(s: State, i: Input)
    requires i.request in s.requests
  {
    var q := s.requests[i.request];
    && Ref(i.request.tenant, q.user) in s.users
    && Ref(i.request.tenant, q.resource) in s.resources
    && i.signs
    && MaxGrantTtl(q.scope, s.resources[Ref(i.request.tenant, q.resource)].sensitivity) > 0
    && Ref(i.request.tenant, i.jti) !in s.grants
  }

  /** UNIQUE (tenant_id, request_id) would turn the insert into a no-op. */
  predicate AlreadyGranted(s: State, r: Ref) {
    exists g :: g in s.grants && g.tenant == r.tenant && s.grants[g].request == r.id
  }

  /** The decision is committed: it was acceptable, the response could be recorded, its key id being
      text, and if it approves, the grant was minted. */
  predicate Commits(s: State, i: Input) {
    Accepts(s, i) && Storable(i.response.body.keyId) && (i.decision == Approve ==> Mintable(s, i))
  }

  /** What a committed decision changes in the request, the device and the history. */
  function Settle(s: State, i: Input, state: RequestState, version: nat): State
    requires i.request in s.requests && DeviceRef(i) in s.devices
  {
    var q := s.requests[i.request];
    s.(requests := s.requests[i.request := q.(state := state, version := version, decision := Some(i.decision),
                                              counter := Some(i.response.body.counter))],
       devices := s.devices[DeviceRef(i) := s.devices[DeviceRef(i)].(counter := i.response.body.counter)],
       decided := s.decided + [Decided(DeviceRef(i), i.request, i.decision, i.response)])
  }

  /** ProcessApproval as one step. */
  function Process(s: State, i: Input): State {
    if !Commits(s, i) then s
    else
      var q := s.requests[i.request];
      if i.decision == Deny then Settle(s, i, Denied, q.version + 1)
      else
        var s1 := Settle(s, i, Granted, q.version + 2);
        if AlreadyGranted(s, i.request) then s1
        else
          var g := NewGrant(q, i.device, i.request.id, s.resources[Ref(i.request.tenant, q.resource)], i.now);
          s1.(grants := s.grants[Ref(i.request.tenant, i.jti) := g], minted := s.minted[i.jti := i.request])
  }

  function ProcessReply(s: State, i: Input): Reply {
    if i.request !in s.requests then Failed
    else if s.requests[i.request].state != Pending then Settled(s.requests[i.request].state)
    else if !Commits(s, i) then Failed
    else if i.decision == Deny then Settled(Denied)
    else Issued(i.jti)
  }

  /** The terminal moves of transition_approval_request: only from PENDING, with the version read. */
  function CloseIn(requests: map<Ref, Request>, r: Ref, state: RequestState): map<Ref, Request> {
    if r in requests && requests[r].state == Pending
    then requests[r := requests[r].(state := state, version := requests[r].version + 1)]
    else requests
  }

  function Close(s: State, r: Ref, state: RequestState): State {
    s.(requests := CloseIn(s.requests, r, state))
  }

  // ---- grants, sessions, revocations ----

  predicate Consumable(s: State, g: Ref, now: Time) {
    g in s.grants && s.grants[g].consumedAt.None? && now <= s.grants[g].expires
  }

  function ConsumeIn(grants: map<Ref, Grant>, g: Ref, now: Time): map<Ref, Grant> {
    if g in grants && grants[g].consumedAt.None? && now <= grants[g].expires
    then grants[g := grants[g].(consumedAt := Some(now))]
    else grants
  }

  function ConsumeGrant(s: State, g: Ref, now: Time): State {
    s.(grants := ConsumeIn(s.grants, g, now))
  }

  /** The foreign keys of a new session resolve and its id is free in every tenant. */
  predicate Openable(s: State, id: Ref, grant: Id, device: Id) {
    && (forall k :: k in s.sessions ==> k.id != id.id)
    && Ref(id.tenant, grant) in s.grants && Ref(id.tenant, device) in s.devices
  }

  function Open(s: State, id: Ref, grant: Id, device: Id, node: Id): State {
    s.(sessions := Insert(s.sessions, Openable(s, id, grant, device), id, Session(grant, device, node, true)))
  }

  function CloseOne(s: State, id: Ref): State {
    s.(sessions := if id in s.sessions then s.sessions[id := s.sessions[id].(open := false)] else s.sessions)
  }

  /** The grant rows a revocation is about. */
  predicate Names(target: Target, jti: Id, g: Grant) {
    match target
    case OfUser(u) => g.user == u
    case OfSourceNode(n) => g.srcNode == n
    case OfDevice(d) => g.device == d
    case OfGrant(j) => jti == j
    case OfPolicy(_) => true
    case _ => false
  }

  /** The unconsumed grants the DELETE selects. */
  predicate Invalidates(s: State, tenant: Id, target: Target, g: Ref) {
    g in s.grants && g.tenant == tenant && s.grants[g].consumedAt.None? && Names(target, g.id, s.grants[g])
  }

  /** The sessions the UPDATE closes. */
  predicate Terminates(s: State, tenant: Id, target: Target, id: Ref) {
    id in s.sessions && id.tenant == tenant &&
    var session := s.sessions[id];
    match target
    case OfDevice(d) => session.device == d
    case OfUser(_) =>
      Ref(tenant, session.grant) in s.grants && Names(target, session.grant, s.grants[Ref(tenant, session.grant)])
    case OfSourceNode(_) =>
      Ref(tenant, session.grant) in s.grants && Names(target, session.grant, s.grants[Ref(tenant, session.grant)])
    case OfGrant(j) => session.grant == j
    case OfProtectedNode(n) => session.node == n
    case _ => false
  }

  /** active_sessions references grants without ON DELETE, so the DELETE fails as soon as one
      session row, open or closed, still points at a grant it would remove. */
  predicate RevocationBlocked(s: State, tenant: Id, target: Target) {
    exists id :: id in s.sessions && Invalidates(s, tenant, target, Ref(id.tenant, s.sessions[id].grant))
  }

  ghost function LastRevocation(s: State, tenant: Id): nat {
    Max0(set k | k in s.revocations && k.tenant == tenant :: k.id)
  }

  function CloseTerminated(s: State, tenant: Id, target: Target): map<Ref, Session> {
    map id | id in s.sessions ::
      if Terminates(s, tenant, target, id) then s.sessions[id].(open := false) else s.sessions[id]
  }

  function DropInvalidated(s: State, tenant: Id, target: Target): map<Ref, Grant> {
    map g | g in s.grants && !Invalidates(s, tenant, target, g) :: s.grants[g]
  }

  /** IssueRevocation as one step. */
  ghost function IssueRevocation(s: State, tenant: Id, target: Target): State {
    if RevocationBlocked(s, tenant, target) then s
    else s.(revocations := s.revocations[Ref(tenant, LastRevocation(s, tenant) + 1) := target],
            sessions := CloseTerminated(s, tenant, target),
            grants := DropInvalidated(s, tenant, target))
  }

  /** RevokeDevice marks the device and records the event; it touches no session and no grant. */
  ghost function MarkRevoked(s: State, d: Ref): State {
    s.(devices := if d in s.devices then s.devices[d := s.devices[d].(enrolled := false)] else s.devices,
       revocations := s.revocations[Ref(d.tenant, LastRevocation(s, d.tenant) + 1) := OfDevice(d.id)])
  }

  // ---- runs ----

  ghost function Next(s: State, e: Event): State {
    match e
    case Provision(users, resources, devices) => AddRows(s, users, resources, devices)
    case Create(r, user, device, srcNode, resource, scope) =>
      CreateRequest(s, r, user, device, srcNode, resource, scope)
    case Decide(i) => Process(s, i)
    case Cancel(r) => Close(s, r, Cancelled)
    case Expire(r, expected) => if r in s.requests && s.requests[r].version == expected then Close(s, r, Expired) else s
    case Consume(g, now) => ConsumeGrant(s, g, now)
    case OpenSession(id, grant, device, node) => Open(s, id, grant, device, node)
    case CloseSession(id) => CloseOne(s, id)
    case Revoke(tenant, target) => IssueRevocation(s, tenant, target)
    case RevokeDevice(d) => MarkRevoked(s, d)
  }

  /** uuid.NewV7 never returns a grant id that was minted before. */
  ghost predicate FreshStep(s: State, e: Event) {
    e.Decide? ==> e.input.jti !in s.minted
  }

  ghost predicate Fresh(s: State, es: seq<Event>)
    decreases es
  {
    es != [] ==> FreshStep(s, es[0]) && Fresh(Next(s, es[0]), es[1..])
  }

  ghost function Run(s: State, es: seq<Event>): State
    decreases es
  {
    if es == [] then s else Run(Next(s, es[0]), es[1..])
  }
}
