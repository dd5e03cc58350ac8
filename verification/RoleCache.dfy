/** The authorizer's role cache against the role table it speeds up. */
module RoleCache {
  import opened Base

  datatype Role =
    | EndUser | DeviceAdmin | PolicyAuthor | PolicyApprover | Auditor | SecurityAdmin | Operator
    | OtherRole(name: string)

  datatype Permission =
    | TenantRead | TenantWrite | UserRead | UserWrite
    | DeviceRead | DeviceWrite | DeviceRevoke | DeviceEnroll
    | NodeRead | NodeRegister | NodeRevoke | ResourceRead | ResourceWrite
    | PolicyRead | PolicyWrite | PolicyPublish | ApprovalCreate | ApprovalRespond
    | AuditRead | AuditExport | BreakGlass | SecuritySettings | KeyRotate

  function PermissionsOf(role: Role): set<Permission> {
    match role
    case EndUser => {DeviceRead, DeviceEnroll, ApprovalRespond}
    case DeviceAdmin => {DeviceRead, DeviceWrite, DeviceRevoke, DeviceEnroll, UserRead}
    case PolicyAuthor => {PolicyRead, PolicyWrite, ResourceRead}
    case PolicyApprover => {PolicyRead, PolicyPublish, ResourceRead}
    case Auditor => {AuditRead, AuditExport, TenantRead, UserRead, DeviceRead, PolicyRead}
    case SecurityAdmin => {SecuritySettings, KeyRotate, DeviceRevoke, NodeRevoke, BreakGlass, AuditRead}
    case Operator => {NodeRead, NodeRegister, ResourceRead, UserRead, DeviceRead, AuditRead}
    case OtherRole(_) => {}
  }

  /** A user of a tenant, the key of the cache. */
  datatype Who = Who(tenant: Id, user: Id)

  datatype Assignment = Assignment(who: Who, role: Role)

  type Table = set<Assignment>

  datatype Entry = Entry(roles: set<Role>, expires: Time)

  type Cache = map<Who, Entry>

  datatype State = State(table: Table, cache: Cache)

  const TTL: Time := 30 * SECOND

  function RolesOf(table: Table, who: Who): set<Role> {
    set a | a in table && a.who == who :: a.role
  }

  /** Deny by default: some role grants the permission, and a foreign object needs an admin role. */
  predicate Permits(roles: set<Role>, user: Id, perm: Permission, owner: Option<Id>) {
    && (exists r :: r in roles && perm in PermissionsOf(r))
    && (owner.Some? && owner.value != user ==> SecurityAdmin in roles || Operator in roles || DeviceAdmin in roles)
  }

  // ---- the cached authorizer ----

  predicate Cached(cache: Cache, who: Who, now: Time) {
    who in cache && now < cache[who].expires
  }

  /** The roles getRoles returns, when the query, if it makes one, reads this table. */
  function Seen(cache: Cache, read: Table, who: Who, now: Time): set<Role> {
    if Cached(cache, who, now) then cache[who].roles else RolesOf(read, who)
  }

  /** The cache it leaves. */
  function Filled(cache: Cache, read: Table, who: Who, now: Time): Cache {
    if Cached(cache, who, now) then cache else cache[who := Entry(RolesOf(read, who), now + TTL)]
  }

  datatype Event =
    | Check(who: Who, perm: Permission, owner: Option<Id>, now: Time)
    | Assign(who: Who, admin: Id, role: Role, now: Time)
    | Remove(who: Who, admin: Id, role: Role, now: Time)

  /** Who has to hold which permission for the operation. */
  function Actor(e: Event): Who {
    match e
    case Check(who, _, _, _) => who
    case Assign(who, admin, _, _) => Who(who.tenant, admin)
    case Remove(who, admin, _, _) => Who(who.tenant, admin)
  }

  predicate Grants(roles: set<Role>, e: Event) {
    match e
    case Check(who, perm, owner, _) => Permits(roles, who.user, perm, owner)
    case _ => Permits(roles, e.admin, SecuritySettings, None)
  }

  /** The table after an operation that was allowed. */
  function Effect(table: Table, e: Event): Table {
    match e
    case Check(_, _, _, _) => table
    case Assign(who, _, role, _) => table + {Assignment(who, role)}
    case Remove(who, _, role, _) => table - {Assignment(who, role)}
  }

  /** The answer to an operation whose query reads this table. */
  predicate ReplyFrom(s: State, read: Table, e: Event) {
    Grants(Seen(s.cache, read, Actor(e), e.now), e)
  }

  function NextFrom(s: State, read: Table, e: Event): State {
    var cache := Filled(s.cache, read, Actor(e), e.now);
    if ReplyFrom(s, read, e) && !e.Check? then State(Effect(s.table, e), cache - {e.who}) else State(s.table, cache)
  }

  /** Undisturbed, the query reads the table as it is. */
  predicate Reply(s: State, e: Event) {
    ReplyFrom(s, s.table, e)
  }

  function Next(s: State, e: Event): State {
    NextFrom(s, s.table, e)
  }

  function Replies(s: State, es: seq<Event>): seq<bool>
    decreases es
  {
    if es == [] then [] else [Reply(s, es[0])] + Replies(Next(s, es[0]), es[1..])
  }

  function TableAfter(s: State, es: seq<Event>): Table
    decreases es
  {
    if es == [] then s.table else TableAfter(Next(s, es[0]), es[1..])
  }

  // ---- the authorizer without a cache ----

  function PlainNext(table: Table, e: Event): Table {
    if Grants(RolesOf(table, Actor(e)), e) then Effect(table, e) else table
  }

  function PlainReplies(table: Table, es: seq<Event>): seq<bool>
    decreases es
  {
    if es == [] then []
    else [Grants(RolesOf(table, Actor(es[0])), es[0])] + PlainReplies(PlainNext(table, es[0]), es[1..])
  }

  function PlainTable(table: Table, es: seq<Event>): Table
    decreases es
  {
    if es == [] then table else PlainTable(PlainNext(table, es[0]), es[1..])
  }

  // ---- refinement ----

  ghost predicate Coherent(s: State) {
    forall who :: who in s.cache ==> s.cache[who].roles == RolesOf(s.table, who)
  }

  lemma StepCoherent(s: State, e: Event)
    requires Coherent(s)
    ensures Coherent(Next(s, e))
    ensures Reply(s, e) == Grants(RolesOf(s.table, Actor(e)), e)
    ensures Next(s, e).table == PlainNext(s.table, e)
  {
  }

  /** Role-cache refinement: with all role changes made through the authorizer, every answer and
      the table are those of the authorizer without a cache, self-assignment included. */
  lemma {:induction false} CachedIsPlain(s: State, es: seq<Event>)
    requires Coherent(s)
    ensures Replies(s, es) == PlainReplies(s.table, es) && TableAfter(s, es) == PlainTable(s.table, es)
    decreases es
  {
    if es != [] {
      StepCoherent(s, es[0]);
      CachedIsPlain(Next(s, es[0]), es[1..]);
    }
  }

  // ---- who may do what ----

  /** The permission table read the other way: the roles that carry each permission. */
  function WhoMay(perm: Permission): set<Role> {
    match perm
    case TenantRead => {Auditor}
    case TenantWrite => {}
    case UserRead => {DeviceAdmin, Auditor, Operator}
    case UserWrite => {}
    case DeviceRead => {EndUser, DeviceAdmin, Auditor, Operator}
    case DeviceWrite => {DeviceAdmin}
    case DeviceRevoke => {DeviceAdmin, SecurityAdmin}
    case DeviceEnroll => {EndUser, DeviceAdmin}
    case NodeRead => {Operator}
    case NodeRegister => {Operator}
    case NodeRevoke => {SecurityAdmin}
    case ResourceRead => {PolicyAuthor, PolicyApprover, Operator}
    case ResourceWrite => {}
    case PolicyRead => {PolicyAuthor, PolicyApprover, Auditor}
    case PolicyWrite => {PolicyAuthor}
    case PolicyPublish => {PolicyApprover}
    case ApprovalCreate => {}
    case ApprovalRespond => {EndUser}
    case AuditRead => {Auditor, SecurityAdmin, Operator}
    case AuditExport => {Auditor}
    case BreakGlass => {SecurityAdmin}
    case SecuritySettings => {SecurityAdmin}
    case KeyRotate => {SecurityAdmin}
  }

  lemma TablesAgree(role: Role, perm: Permission)
    ensures perm in PermissionsOf(role) <==> role in WhoMay(perm)
  {
  }

  /** A check succeeds exactly when some role of the user carries the permission and the object is nobody's,
      the user's own, or the user has one of the three admin roles. */
  lemma PermitsIff(roles: set<Role>, user: Id, perm: Permission, owner: Option<Id>)
    ensures Permits(roles, user, perm, owner) <==>
              && roles * WhoMay(perm) != {}
              && (owner == None || owner == Some(user) || roles * {SecurityAdmin, Operator, DeviceAdmin} != {})
  {
    forall r | r in roles
      ensures perm in PermissionsOf(r) <==> r in roles * WhoMay(perm)
    {
      TablesAgree(r, perm);
    }
    if r :| r in roles * {SecurityAdmin, Operator, DeviceAdmin} {
      assert r in roles;
    }
    assert SecurityAdmin in roles ==> SecurityAdmin in roles * {SecurityAdmin, Operator, DeviceAdmin};
    assert Operator in roles ==> Operator in roles * {SecurityAdmin, Operator, DeviceAdmin};
    assert DeviceAdmin in roles ==> DeviceAdmin in roles * {SecurityAdmin, Operator, DeviceAdmin};
  }

  /** No role both writes and publishes policies, and role changes take a SecurityAdmin. */
  lemma DutiesAreSeparate(role: Role)
    ensures !(PolicyWrite in PermissionsOf(role) && PolicyPublish in PermissionsOf(role))
    ensures SecuritySettings in PermissionsOf(role) <==> role == SecurityAdmin
  {
  }

  ghost predicate Administered(table: Table, tenant: Id) {
    exists a :: a in table && a.who.tenant == tenant && a.role == SecurityAdmin
  }

  /** The assignments of one tenant. */
  ghost function InTenant(table: Table, tenant: Id): Table {
    set a | a in table && a.who.tenant == tenant
  }

  lemma PlainStepKeeps(table: Table, e: Event, tenant: Id)
    requires !Administered(table, tenant)
    ensures InTenant(PlainNext(table, e), tenant) == InTenant(table, tenant)
  {
    if !e.Check? && e.who.tenant == tenant {
      var roles := RolesOf(table, Actor(e));
      InRoles(table, Actor(e), SecurityAdmin);
      assert roles * WhoMay(SecuritySettings) == {};
      PermitsIff(roles, e.admin, SecuritySettings, None);
    }
  }

  lemma {:induction false} PlainRunKeeps(table: Table, es: seq<Event>, tenant: Id)
    requires !Administered(table, tenant)
    ensures InTenant(PlainTable(table, es), tenant) == InTenant(table, tenant)
    decreases es
  {
    if es != [] {
      PlainStepKeeps(table, es[0], tenant);
      forall a | a in PlainNext(table, es[0]) && a.who.tenant == tenant
        ensures a.role != SecurityAdmin
      {
        assert a in InTenant(PlainNext(table, es[0]), tenant);
      }
      PlainRunKeeps(PlainNext(table, es[0]), es[1..], tenant);
    }
  }

  /** In a tenant without a SecurityAdmin no run of the authorizer ever changes an assignment, whatever
      admins other tenants have. */
  lemma NoAdminNoChange(s: State, es: seq<Event>, tenant: Id)
    requires Coherent(s) && !Administered(s.table, tenant)
    ensures InTenant(TableAfter(s, es), tenant) == InTenant(s.table, tenant)
  {
    CachedIsPlain(s, es);
    PlainRunKeeps(s.table, es, tenant);
  }

  /** A SecurityAdmin's assignment is allowed and holds from the next look on, cached or not; nobody
      else's roles change. */
  lemma AssignTakesEffect(s: State, who: Who, admin: Id, role: Role, now: Time, later: Time, other: Who)
    requires Coherent(s) && SecurityAdmin in RolesOf(s.table, Who(who.tenant, admin))
    ensures var e := Assign(who, admin, role, now);
            var t := Next(s, e);
            && Reply(s, e)
            && Seen(t.cache, t.table, who, later) == RolesOf(s.table, who) + {role}
            && (other != who ==> Seen(t.cache, t.table, other, later) == RolesOf(s.table, other))
  {
    var e := Assign(who, admin, role, now);
    StepCoherent(s, e);
    PermitsIff(RolesOf(s.table, Actor(e)), admin, SecuritySettings, None);
    assert SecurityAdmin in RolesOf(s.table, Actor(e)) * WhoMay(SecuritySettings);
    var t := Next(s, e);
    assert t.table == s.table + {Assignment(who, role)};
    AddedRoles(s.table, who, role, who);
    AddedRoles(s.table, who, role, other);
  }

  lemma AddedRoles(table: Table, who: Who, role: Role, other: Who)
    ensures RolesOf(table + {Assignment(who, role)}, other) ==
              RolesOf(table, other) + (if other == who then {role} else {})
  {
    var more := table + {Assignment(who, role)};
    forall r
      ensures r in RolesOf(more, other) <==> r in RolesOf(table, other) || (other == who && r == role)
    {
      assert Assignment(other, r) in more <==> Assignment(other, r) in table || (other == who && r == role);
      InRoles(more, other, r);
      InRoles(table, other, r);
    }
  }

  lemma InRoles(table: Table, who: Who, role: Role)
    ensures role in RolesOf(table, who) <==> Assignment(who, role) in table
  {
    if a :| a in table && a.who == who && a.role == role {
      assert a == Assignment(who, role);
    }
  }

  /** So does a removal. */
  lemma RemoveTakesEffect(s: State, who: Who, admin: Id, role: Role, now: Time, later: Time, other: Who)
    requires Coherent(s) && SecurityAdmin in RolesOf(s.table, Who(who.tenant, admin))
    ensures var e := Remove(who, admin, role, now);
            var t := Next(s, e);
            && Reply(s, e)
            && Seen(t.cache, t.table, who, later) == RolesOf(s.table, who) - {role}
            && (other != who ==> Seen(t.cache, t.table, other, later) == RolesOf(s.table, other))
  {
    var e := Remove(who, admin, role, now);
    StepCoherent(s, e);
    PermitsIff(RolesOf(s.table, Actor(e)), admin, SecuritySettings, None);
    assert SecurityAdmin in RolesOf(s.table, Actor(e)) * WhoMay(SecuritySettings);
    var t := Next(s, e);
    assert t.table == s.table - {Assignment(who, role)};
    RemovedRoles(s.table, who, role, who);
    RemovedRoles(s.table, who, role, other);
  }

  lemma RemovedRoles(table: Table, who: Who, role: Role, other: Who)
    ensures RolesOf(table - {Assignment(who, role)}, other) ==
              RolesOf(table, other) - (if other == who then {role} else {})
  {
    var less := table - {Assignment(who, role)};
    forall r
      ensures r in RolesOf(less, other) <==> r in RolesOf(table, other) && !(other == who && r == role)
    {
      assert Assignment(other, r) in less <==> Assignment(other, r) in table && !(other == who && r == role);
      InRoles(less, other, r);
      InRoles(table, other, r);
    }
  }

  /** What a query read is answered from the cache for 30 seconds after it was stored, and no longer. */
  lemma EntryLasts(cache: Cache, read: Table, who: Who, stored: Time, later: Table, now: Time)
    requires !(who in cache && stored < cache[who].expires)
    ensures Seen(Filled(cache, read, who, stored), later, who, now) ==
              (if now < stored + 30 * SECOND then RolesOf(read, who) else RolesOf(later, who))
  {
  }

  // ---- outside writers ----

  /** A table content and the instant it came to be. */
  datatype Version = Version(since: Time, table: Table)

  datatype History = History(state: State, log: seq<Version>)

  /** A call of the authorizer whose query read the table at one instant and whose entry was stored at
      a later one, or a change by somebody else. */
  datatype Action = Through(e: Event, read: Table, queried: Time) | Outside(table: Table, at: Time)

  function Instant(a: Action): Time {
    match a
    case Through(e, _, _) => e.now
    case Outside(_, at) => at
  }

  function Act(h: History, a: Action): History {
    match a
    case Through(e, read, _) =>
      var t := NextFrom(h.state, read, e);
      History(t, h.log + [Version(e.now, t.table)])
    case Outside(table, at) => History(h.state.(table := table), h.log + [Version(at, table)])
  }

  function Acted(h: History, acts: seq<Action>): History
    decreases acts
  {
    if acts == [] then h else Acted(Act(h, acts[0]), acts[1..])
  }

  /** Version i of the table was the current one at an instant. */
  ghost predicate HeldAt(log: seq<Version>, i: nat, at: Time) {
    i < |log| && log[i].since <= at && (i + 1 < |log| ==> at <= log[i + 1].since)
  }

  /** The table was this one at the instant. */
  ghost predicate Was(log: seq<Version>, table: Table, at: Time) {
    exists i: nat :: HeldAt(log, i, at) && log[i].table == table
  }

  /** The query read what the table was, at most lag before the entry was stored. */
  ghost predicate Fetched(log: seq<Version>, read: Table, queried: Time, now: Time, lag: nat) {
    now - lag <= queried <= now && Was(log, read, queried)
  }

  /** The clock never runs backwards and no fetch takes longer than lag. */
  ghost predicate Timely(h: History, acts: seq<Action>, clock: Time, lag: nat)
    decreases acts
  {
    acts != [] ==>
      && clock <= Instant(acts[0])
      && (acts[0].Through? ==> Fetched(h.log, acts[0].read, acts[0].queried, Instant(acts[0]), lag))
      && Timely(Act(h, acts[0]), acts[1..], Instant(acts[0]), lag)
  }

  /** The user had these roles at the instant. */
  ghost predicate TrueAt(log: seq<Version>, who: Who, roles: set<Role>, at: Time) {
    exists i: nat :: HeldAt(log, i, at) && roles == RolesOf(log[i].table, who)
  }

  /** The user had these roles at some instant after one and up to another. */
  ghost predicate TrueWithin(log: seq<Version>, who: Who, roles: set<Role>, after: Time, to: Time) {
    exists at :: after < at <= to && TrueAt(log, who, roles, at)
  }

  /** Each cache entry was true when it was queried. */
  ghost predicate EntryTrue(log: seq<Version>, who: Who, e: Entry, clock: Time, lag: nat) {
    && e.expires - TTL <= clock
    && TrueWithin(log, who, e.roles, e.expires - TTL - lag - 1, e.expires - TTL)
  }

  ghost predicate FetchedTrue(h: History, clock: Time, lag: nat) {
    && |h.log| > 0 && h.log[|h.log| - 1].table == h.state.table && h.log[|h.log| - 1].since <= clock
    && forall who :: who in h.state.cache ==> EntryTrue(h.log, who, h.state.cache[who], clock, lag)
  }

  lemma AppendKeepsTrue(log: seq<Version>, v: Version, who: Who, roles: set<Role>, after: Time, to: Time)
    requires TrueWithin(log, who, roles, after, to) && to <= v.since
    ensures TrueWithin(log + [v], who, roles, after, to)
  {
    var at :| after < at <= to && TrueAt(log, who, roles, at);
    var i: nat :| HeldAt(log, i, at) && roles == RolesOf(log[i].table, who);
    assert HeldAt(log + [v], i, at) && (log + [v])[i] == log[i];
    assert TrueAt(log + [v], who, roles, at);
  }

  lemma FetchedIsTrue(log: seq<Version>, read: Table, queried: Time, now: Time, lag: nat, who: Who)
    requires Fetched(log, read, queried, now, lag)
    ensures TrueWithin(log, who, RolesOf(read, who), now - lag - 1, now)
  {
    assert TrueAt(log, who, RolesOf(read, who), queried);
  }

  lemma ActKeepsTrue(h: History, a: Action, clock: Time, lag: nat)
    requires FetchedTrue(h, clock, lag) && clock <= Instant(a)
    requires a.Through? ==> Fetched(h.log, a.read, a.queried, Instant(a), lag)
    ensures FetchedTrue(Act(h, a), Instant(a), lag)
  {
    var g := Act(h, a);
    var v := g.log[|g.log| - 1];
    assert g.log == h.log + [v] && v.since == Instant(a);
    forall who | who in g.state.cache
      ensures EntryTrue(g.log, who, g.state.cache[who], Instant(a), lag)
    {
      var e := g.state.cache[who];
      if who in h.state.cache && e == h.state.cache[who] {
        assert EntryTrue(h.log, who, e, clock, lag);
      } else {
        assert e == Entry(RolesOf(a.read, who), Instant(a) + TTL);
        FetchedIsTrue(h.log, a.read, a.queried, Instant(a), lag, who);
      }
      AppendKeepsTrue(h.log, v, who, e.roles, e.expires - TTL - lag - 1, e.expires - TTL);
    }
  }

  lemma {:induction false} ActsKeepTrue(h: History, acts: seq<Action>, clock: Time, lag: nat) returns (end: Time)
    requires FetchedTrue(h, clock, lag) && Timely(h, acts, clock, lag)
    ensures end == if acts == [] then clock else Instant(acts[|acts| - 1])
    ensures FetchedTrue(Acted(h, acts), end, lag)
    decreases acts
  {
    if acts == [] {
      end := clock;
    } else {
      ActKeepsTrue(h, acts[0], clock, lag);
      end := ActsKeepTrue(Act(h, acts[0]), acts[1..], Instant(acts[0]), lag);
    }
  }

  function Beginning(table: Table, start: Time): History {
    History(State(table, map[]), [Version(start, table)])
  }

  /** A run with other writers, and a call at its end whose query, if it makes one, reads this table. */
  ghost predicate Asked(table: Table, start: Time, acts: seq<Action>, lag: nat, now: Time, read: Table, queried: Time) {
    var h0 := Beginning(table, start);
    && Timely(h0, acts, start, lag)
    && (if acts == [] then start else Instant(acts[|acts| - 1])) <= now
    && Fetched(Acted(h0, acts).log, read, queried, now, lag)
  }

  /** The roles the call uses were the user's at some instant less than so long ago. */
  ghost predicate Recent(h: History, who: Who, read: Table, now: Time, age: Time) {
    TrueWithin(h.log, who, Seen(h.state.cache, read, who, now), now - age, now)
  }

  /** With other writers on the table, the roles an answer is based on were the user's roles at some
      instant less than 30 seconds ago, or by as much more as a fetch takes: an entry expires 30 seconds
      after it was stored, not after its query read the table. */
  lemma AnswerIsRecent(table: Table, start: Time, acts: seq<Action>, lag: nat, who: Who, now: Time,
                       read: Table, queried: Time)
    requires Asked(table, start, acts, lag, now, read, queried)
    ensures Recent(Acted(Beginning(table, start), acts), who, read, now, TTL + lag)
  {
    var h := Acted(Beginning(table, start), acts);
    var end := ActsKeepTrue(Beginning(table, start), acts, start, lag);
    if Cached(h.state.cache, who, now) {
      var e := h.state.cache[who];
      assert EntryTrue(h.log, who, e, end, lag);
      var at :| e.expires - TTL - lag - 1 < at <= e.expires - TTL && TrueAt(h.log, who, e.roles, at);
    } else {
      assert TrueAt(h.log, who, RolesOf(read, who), queried);
    }
  }

  const SAM: Who := Who(1, 1)

  const HELD: Table := {Assignment(SAM, Operator)}

  /** A role is removed just after a query has read it; the entry is stored lag later. */
  function SlowFetch(lag: nat): seq<Action> {
    [Outside({}, 0), Through(Check(SAM, NodeRead, None, lag), HELD, 0)]
  }

  /** At the end of the entry's life the cache still answers with the role, though at no instant of the
      last 30 seconds did the user have it. */
  lemma SlowFetchIsOlder(lag: nat)
    requires lag > 0
    ensures var now := lag + TTL - 1;
            && Asked(HELD, 0, SlowFetch(lag), lag, now, {}, now)
            && !Recent(Acted(Beginning(HELD, 0), SlowFetch(lag)), SAM, {}, now, TTL)
  {
    var acts := SlowFetch(lag);
    var h1 := Act(Beginning(HELD, 0), acts[0]);
    var h2 := Act(h1, acts[1]);
    assert Assignment(SAM, Operator) in HELD;
    assert RolesOf(HELD, SAM) == {Operator} && RolesOf({}, SAM) == {};
    assert HeldAt(h1.log, 0, 0);
    assert acts[1..] == [acts[1]] && [acts[1]][1..] == [];
    assert Acted(h1, [acts[1]]) == h2;
    assert Acted(Beginning(HELD, 0), acts) == h2;
    assert h2.log == [Version(0, HELD), Version(0, {}), Version(lag, {})];
    assert HeldAt(h2.log, 2, lag + TTL - 1);
  }

  /** Every answer, of every run whose fetches take at most lag, is less than 30 seconds old. */
  ghost predicate ThirtySeconds(lag: nat) {
    forall table, start, acts, who, now, read, queried :: Asked(table, start, acts, lag, now, read, queried) ==>
      Recent(Acted(Beginning(table, start), acts), who, read, now, TTL)
  }

  /** The 30 seconds are exact if and only if a fetch takes no time. */
  lemma ThirtySecondsIff(lag: nat)
    ensures ThirtySeconds(lag) <==> lag == 0
  {
    if lag == 0 {
      forall table, start, acts, who, now, read, queried | Asked(table, start, acts, lag, now, read, queried)
        ensures Recent(Acted(Beginning(table, start), acts), who, read, now, TTL)
      {
        AnswerIsRecent(table, start, acts, lag, who, now, read, queried);
      }
    } else {
      SlowFetchIsOlder(lag);
    }
  }

  // ---- the authorizer object ----

  class Authorizer {
    var userRoles: Table
    var cache: Cache

    function Abstract(): State
      reads this
    {
      State(userRoles, cache)
    }

    constructor ()
      ensures Abstract() == State({}, map[])
    {
      userRoles, cache := {}, map[];
    }

    /** SELECT role FROM user_roles WHERE tenant_id = $1 AND user_id = $2 */
    method QueryRoles(who: Who) returns (roles: set<Role>)
      ensures roles == RolesOf(userRoles, who)
    {
      roles := set a | a in userRoles && a.who == who :: a.role;
    }

    method StoreRoles(who: Who, roles: set<Role>, now: Time)
      modifies this`cache
      ensures cache == old(cache)[who := Entry(roles, now + TTL)]
    {
      cache := cache[who := Entry(roles, now + TTL)];
    }

    /** The lookup, and when it fails the query and the store, with nobody writing in between. */
    method GetRoles(who: Who, now: Time) returns (roles: set<Role>)
      modifies this`cache
      ensures roles == old(Seen(cache, userRoles, who, now))
      ensures cache == old(Filled(cache, userRoles, who, now))
    {
      if who in cache && now < cache[who].expires {
        return cache[who].roles;
      }
      roles := QueryRoles(who);
      StoreRoles(who, roles, now);
    }

    method CheckPermission(who: Who, perm: Permission, owner: Option<Id>, now: Time) returns (ok: bool)
      modifies this`cache
      ensures ok == old(Permits(Seen(cache, userRoles, who, now), who.user, perm, owner))
      ensures cache == old(Filled(cache, userRoles, who, now))
    {
      var roles := GetRoles(who, now);
      if roles == {} {
        return false;
      }
      var hasPerm := false;
      var rest := roles;
      while rest != {} && !hasPerm
        invariant rest <= roles
        invariant hasPerm ==> exists r :: r in roles && perm in PermissionsOf(r)
        invariant forall r :: r in roles - rest && perm in PermissionsOf(r) ==> hasPerm
        decreases rest
      {
        var r :| r in rest;
        rest := rest - {r};
        hasPerm := perm in PermissionsOf(r);
      }
      if !hasPerm {
        return false;
      }
      if owner.Some? && owner.value != who.user {
        if !(SecurityAdmin in roles || Operator in roles || DeviceAdmin in roles) {
          return false;
        }
      }
      return true;
    }

    method AssignRole(who: Who, admin: Id, role: Role, now: Time) returns (ok: bool)
      modifies this
      ensures Abstract() == Next(old(Abstract()), Assign(who, admin, role, now))
      ensures ok == old(Reply(Abstract(), Assign(who, admin, role, now)))
    {
      ok := CheckPermission(Who(who.tenant, admin), SecuritySettings, None, now);
      if ok {
        userRoles := userRoles + {Assignment(who, role)};
        cache := cache - {who};
      }
    }

    method RemoveRole(who: Who, admin: Id, role: Role, now: Time) returns (ok: bool)
      modifies this
      ensures Abstract() == Next(old(Abstract()), Remove(who, admin, role, now))
      ensures ok == old(Reply(Abstract(), Remove(who, admin, role, now)))
    {
      ok := CheckPermission(Who(who.tenant, admin), SecuritySettings, None, now);
      if ok {
        userRoles := userRoles - {Assignment(who, role)};
        cache := cache - {who};
      }
    }
  }
}
