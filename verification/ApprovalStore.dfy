/** The transactions of the approval engine and the revocation manager, statement by
    statement, each proved to be the one step the service model says it is. */
module ApprovalStore {
  import opened Base
  import opened GrantTtl
  import opened SignedResponse
  import opened Service
  import opened Lifecycle

  /** The moves transition_approval_request allows. */
  predicate ValidMove(from: RequestState, to: RequestState) {
    || (from == Pending && to in {Approved, Denied, Expired, Cancelled})
    || (from == Approved && to == Granted)
  }

  /** A request leaves PENDING for one of four states, APPROVED only for GRANTED, and the rest for none. */
  lemma MovesAre(from: RequestState, to: RequestState)
    ensures ValidMove(from, to) <==>
              (from, to) in {(Pending, Approved), (Pending, Denied), (Pending, Expired), (Pending, Cancelled),
                             (Approved, Granted)}
  {
  }

  datatype Revocation = Revocation(num: nat, target: Target)

  function RevocationAt(revocations: map<Ref, Target>, tenant: Id, num: nat): Revocation {
    Revocation(num, if Ref(tenant, num) in revocations then revocations[Ref(tenant, num)] else OfKey(""))
  }

  /** The revocations numbered above a point, in order. */
  ghost function Since(s: State, tenant: Id, since: int): seq<Revocation> {
    var nums := set k | k in s.revocations && k.tenant == tenant && k.id > since :: k.id;
    var page := Ascending(nums, |nums|);
    seq(|page|, i requires 0 <= i < |page| => RevocationAt(s.revocations, tenant, page[i]))
  }

  /** In a numbered stream a daemon gets exactly the events it has not acknowledged, in order,
      and is told it is current exactly when there are none. */
  lemma CatchUpIsExact(s: State, tenant: Id, acked: nat)
    requires Numbered(s, tenant) && acked <= LastRevocation(s, tenant)
    ensures var rs := Since(s, tenant, acked);
            && |rs| == LastRevocation(s, tenant) - acked
            && (forall i :: 0 <= i < |rs| ==>
                  && Ref(tenant, acked + 1 + i) in s.revocations
                  && rs[i] == Revocation(acked + 1 + i, s.revocations[Ref(tenant, acked + 1 + i)]))
            && (LastRevocation(s, tenant) <= acked <==> rs == [])
  {
    var top := LastRevocation(s, tenant);
    var nums := set k | k in s.revocations && k.tenant == tenant && k.id > acked :: k.id;
    forall n: nat
      ensures n in nums <==> acked < n <= top
    {
      if n in nums {
        var k :| k in s.revocations && k.tenant == tenant && k.id == n;
        assert k == Ref(tenant, n);
      }
      if acked < n <= top {
        assert Ref(tenant, n) in s.revocations;
        assert Ref(tenant, n).id in nums;
      }
    }
    IntervalSize(nums, acked, top);
    AscendingInterval(nums, acked, top, |nums|);
  }

  lemma {:induction false} IntervalSize(s: set<nat>, from: nat, top: nat)
    requires from <= top && forall n: nat :: n in s <==> from < n <= top
    ensures |s| == top - from
    decreases top - from
  {
    if from == top {
      assert s == {};
    } else {
      IntervalSize(s - {top}, from, top - 1);
    }
  }

  /** The tables between recording an approval and minting its grant. */
  ghost function AfterRecord(s: State, i: Input): State
    requires Accepts(s, i)
  {
    var done := Settle(s, i, Approved, s.requests[i.request].version + 1);
    s.(requests := done.requests, devices := done.devices)
  }

  /** What mintGrant makes of the tables it finds. */
  ghost function AfterMint(s: State, i: Input): State
    requires i.request in s.requests
  {
    if !Mintable(s, i) then s
    else
      var q := s.requests[i.request];
      var s1 := s.(requests := s.requests[i.request := q.(state := Granted, version := q.version + 1)]);
      if AlreadyGranted(s, i.request) then s1
      else
        var grant := NewGrant(q, i.device, i.request.id, s.resources[Ref(i.request.tenant, q.resource)], i.now);
        s1.(grants := s.grants[Ref(i.request.tenant, i.jti) := grant], minted := s.minted[i.jti := i.request])
  }

  /** Minting reads nothing that recording the decision has changed. */
  lemma MintReadsAre(s: State, i: Input)
    requires Accepts(s, i)
    ensures Mintable(AfterRecord(s, i), i) <==> Mintable(s, i)
    ensures AlreadyGranted(AfterRecord(s, i), i.request) <==> AlreadyGranted(s, i.request)
  {
  }

  /** Recording, minting and logging is the one step of the model. */
  lemma RecordThenMint(s: State, i: Input)
    requires Commits(s, i) && i.decision == Approve
    ensures AfterMint(AfterRecord(s, i), i)
            .(decided := s.decided + [Decided(DeviceRef(i), i.request, i.decision, i.response)])
            == Process(s, i)
  {
    MintReadsAre(s, i);
    var mid := AfterRecord(s, i);
    var q := mid.requests[i.request];
    assert mid.requests[i.request := q.(state := Granted, version := q.version + 1)]
           == Settle(s, i, Granted, s.requests[i.request].version + 2).requests;
  }

  /** Closing sessions first does not change which grants the foreign key protects. */
  lemma ClosingKeepsBlocked(s: State, mid: State, tenant: Id, target: Target)
    requires mid.grants == s.grants && mid.sessions == CloseTerminated(s, tenant, target)
    ensures RevocationBlocked(mid, tenant, target) == RevocationBlocked(s, tenant, target)
    ensures DropInvalidated(mid, tenant, target) == DropInvalidated(s, tenant, target)
  {
  }

  class Database {
    var users: set<Ref>
    var resources: map<Ref, Resource>
    var devices: map<Ref, Device>
    var requests: map<Ref, Request>
    var grants: map<Ref, Grant>
    var sessions: map<Ref, Session>
    var revocations: map<Ref, Target>
    ghost var minted: map<Id, Ref>
    ghost var decided: seq<Decided>

    ghost function Tables(): State
      reads this
    {
      State(users, resources, devices, requests, grants, sessions, revocations, minted, decided)
    }

    constructor ()
      ensures Tables() == EMPTY
    {
      users, resources, devices, requests := {}, map[], map[], map[];
      grants, sessions, revocations := map[], map[], map[];
      minted, decided := map[], [];
    }

    /** The optimistic-locking transition function; an exception is ok == false. */
    method Transition(r: Ref, state: RequestState, expected: nat) returns (ok: bool)
      modifies this`requests
      ensures ok == (&& r in old(requests) && old(requests)[r].version == expected
                     && ValidMove(old(requests)[r].state, state))
      ensures requests == if ok then old(requests)[r := old(requests)[r].(state := state, version := expected + 1)]
                          else old(requests)
    {
      if r !in requests {
        return false;
      }
      var q := requests[r];
      if q.version != expected {
        return false;
      }
      var valid := false;
      if q.state == Pending && state in {Approved, Denied, Expired, Cancelled} {
        valid := true;
      } else if q.state == Approved && state == Granted {
        valid := true;
      }
      if !valid {
        return false;
      }
      requests := requests[r := q.(state := state, version := q.version + 1)];
      return true;
    }

    method AdvanceDeviceCounter(d: Ref, counter: int) returns (found: bool)
      modifies this`devices
      ensures found == (d in old(devices) && old(devices)[d].counter < counter)
      ensures devices == if found then old(devices)[d := old(devices)[d].(counter := counter)] else old(devices)
    {
      if d in devices && devices[d].counter < counter {
        devices := devices[d := devices[d].(counter := counter)];
        return true;
      }
      return false;
    }

    /** mintGrant inside ProcessApproval's transaction: read user and resource, sign, insert the
        row under the trigger and the two unique constraints, then mark the request GRANTED. */
    method MintGrant(i: Input) returns (ok: bool)
      requires i.request in requests && requests[i.request].state == Approved
      modifies this`grants, this`requests, this`minted
      ensures ok == old(Mintable(Tables(), i))
      ensures Tables() == AfterMint(old(Tables()), i)
    {
      var t := i.request.tenant;
      var q := requests[i.request];
      if Ref(t, q.user) !in users {
        return false;
      }
      if Ref(t, q.resource) !in resources {
        return false;
      }
      var resource := resources[Ref(t, q.resource)];
      var expires := i.now + MaxGrantTtl(q.scope, resource.sensitivity);
      CapsAgree(q.scope, resource.sensitivity, i.now, expires);
      if !i.signs {
        return false;
      }
      if !TriggerAccepts(q.scope, Some(resource.sensitivity), i.now, expires) {
        return false;
      }
      if Ref(t, i.jti) in grants {
        return false;
      }
      if !exists g :: g in grants && g.tenant == t && grants[g].request == i.request.id {
        grants := grants[Ref(t, i.jti) := Grant(i.request.id, q.user, q.srcNode, i.device, resource.node, q.resource,
                                               q.scope, i.now, expires, None)];
        minted := minted[i.jti := i.request];
      }
      if requests[i.request].state == Approved {
        requests := requests[i.request := q.(state := Granted, version := q.version + 1)];
      }
      return true;
    }

    /** The checks on a pending request: device row, signature under the key the decision calls
        for, counter ahead of the stored one. */
    method CheckResponse(i: Input) returns (ok: bool)
      requires IsPending(Tables(), i.request)
      ensures ok == Accepts(Tables(), i)
    {
      var d := Ref(i.request.tenant, i.device);
      if d !in devices {
        return false;
      }
      if !Verifies(i.response, if i.decision == Approve then devices[d].approvalKey else devices[d].authKey) {
        return false;
      }
      if i.response.body.counter <= devices[d].counter {
        return false;
      }
      return true;
    }

    /** Transition, response record and device counter: the statements before minting. A key id that
        is not text makes the response record fail, after the transition. */
    method RecordDecision(i: Input) returns (ok: bool)
      requires Accepts(Tables(), i)
      modifies this`requests, this`devices
      ensures ok == Storable(i.response.body.keyId)
      ensures var state := if i.decision == Approve then Approved else Denied;
              var done := Settle(old(Tables()), i, state, old(requests)[i.request].version + 1);
              ok ==> requests == done.requests && devices == done.devices
    {
      var version := requests[i.request].version;
      var moved := Transition(i.request, if i.decision == Approve then Approved else Denied, version);
      if !Storable(i.response.body.keyId) {
        return false;
      }
      var q := requests[i.request].(decision := Some(i.decision), counter := Some(i.response.body.counter));
      requests := requests[i.request := q];
      var found := AdvanceDeviceCounter(Ref(i.request.tenant, i.device), i.response.body.counter);
      return true;
    }

    /** An acceptable approval: record, mint, and undo everything if one of them fails. */
    method CommitApproval(i: Input) returns (ok: bool)
      requires Accepts(Tables(), i) && i.decision == Approve
      modifies this
      ensures Tables() == Process(old(Tables()), i)
      ensures ok == old(Commits(Tables(), i))
    {
      ghost var s := Tables();
      var beforeRequests, beforeDevices := requests, devices;
      ok := RecordAndMint(i);
      if !ok {
        requests, devices := beforeRequests, beforeDevices;
        assert Tables() == s;
        return;
      }
      RecordThenMint(s, i);
      decided := decided + [Decided(Ref(i.request.tenant, i.device), i.request, i.decision, i.response)];
    }

    /** The statements of an approval up to the first that fails. */
    method RecordAndMint(i: Input) returns (ok: bool)
      requires Accepts(Tables(), i) && i.decision == Approve
      modifies this`requests, this`devices, this`grants, this`minted
      ensures ok == old(Commits(Tables(), i))
      ensures ok ==> Tables() == AfterMint(AfterRecord(old(Tables()), i), i)
      ensures !ok ==> grants == old(grants) && minted == old(minted)
    {
      ghost var s := Tables();
      ok := RecordDecision(i);
      if ok {
        assert Tables() == AfterRecord(s, i);
        MintReadsAre(s, i);
        ok := MintGrant(i);
      }
    }

    /** An acceptable denial. */
    method CommitDenial(i: Input) returns (ok: bool)
      requires Accepts(Tables(), i) && i.decision == Deny
      modifies this
      ensures Tables() == Process(old(Tables()), i)
      ensures ok == old(Commits(Tables(), i))
    {
      ghost var s := Tables();
      var beforeRequests, beforeDevices := requests, devices;
      ok := RecordDecision(i);
      if !ok {
        requests, devices := beforeRequests, beforeDevices;
        assert Tables() == s;
        return;
      }
      decided := decided + [Decided(Ref(i.request.tenant, i.device), i.request, i.decision, i.response)];
    }

    /** The decision, the response record, the device counter and the grant, or none of them. */
    method ProcessApproval(i: Input) returns (reply: Reply)
      modifies this
      ensures Tables() == Process(old(Tables()), i)
      ensures reply == ProcessReply(old(Tables()), i)
    {
      if i.request !in requests {
        return Failed;
      }
      if requests[i.request].state != Pending {
        return Settled(requests[i.request].state);
      }
      var accepted := CheckResponse(i);
      if !accepted {
        return Failed;
      }
      if i.decision == Approve {
        var ok := CommitApproval(i);
        return if ok then Issued(i.jti) else Failed;
      }
      var ok := CommitDenial(i);
      return if ok then Settled(Denied) else Failed;
    }

    method CancelApprovalRequest(r: Ref) returns (ok: bool)
      modifies this`requests
      ensures Tables() == Close(old(Tables()), r, Cancelled)
      ensures ok == (r in old(requests))
    {
      if r !in requests {
        return false;
      }
      if requests[r].state != Pending {
        return true;
      }
      ok := Transition(r, Cancelled, requests[r].version);
    }

    method ConsumeGrant(g: Ref, now: Time) returns (consumed: bool)
      modifies this`grants
      ensures Tables() == Service.ConsumeGrant(old(Tables()), g, now)
      ensures consumed == old(Consumable(Tables(), g, now))
    {
      if g !in grants {
        return false;
      }
      if grants[g].consumedAt.Some? {
        return false;
      }
      if now > grants[g].expires {
        return false;
      }
      grants := grants[g := grants[g].(consumedAt := Some(now))];
      return true;
    }

    /** The WHERE clause of each kind's UPDATE. */
    method SessionsOf(tenant: Id, target: Target) returns (ids: set<Ref>)
      ensures forall id :: id in ids <==> Terminates(Tables(), tenant, target, id)
    {
      ids := {};
      match target {
        case OfDevice(d) =>
          ids := set id | id in sessions && id.tenant == tenant && sessions[id].device == d;
        case OfUser(u) =>
          ids := set id | id in sessions && id.tenant == tenant && Ref(tenant, sessions[id].grant) in grants
                          && grants[Ref(tenant, sessions[id].grant)].user == u;
        case OfSourceNode(n) =>
          ids := set id | id in sessions && id.tenant == tenant && Ref(tenant, sessions[id].grant) in grants
                          && grants[Ref(tenant, sessions[id].grant)].srcNode == n;
        case OfGrant(j) =>
          ids := set id | id in sessions && id.tenant == tenant && sessions[id].grant == j;
        case OfProtectedNode(n) =>
          ids := set id | id in sessions && id.tenant == tenant && sessions[id].node == n;
        case _ =>
      }
    }

    /** UPDATE active_sessions SET closed_at = now() WHERE ... */
    method TerminateActiveSessions(tenant: Id, target: Target)
      modifies this`sessions
      ensures sessions == CloseTerminated(old(Tables()), tenant, target)
    {
      var ids := SessionsOf(tenant, target);
      sessions := map id | id in sessions :: if id in ids then sessions[id].(open := false) else sessions[id];
    }

    /** DELETE FROM grants WHERE ... AND consumed_at IS NULL; the foreign key may refuse it. */
    method InvalidateGrants(tenant: Id, target: Target) returns (ok: bool)
      modifies this`grants
      ensures ok == !old(RevocationBlocked(Tables(), tenant, target))
      ensures grants == if ok then old(DropInvalidated(Tables(), tenant, target)) else old(grants)
    {
      var doomed: set<Ref> := {};
      match target {
        case OfDevice(d) =>
          doomed := set g | g in grants && g.tenant == tenant && grants[g].device == d && grants[g].consumedAt.None?;
        case OfUser(u) =>
          doomed := set g | g in grants && g.tenant == tenant && grants[g].user == u && grants[g].consumedAt.None?;
        case OfSourceNode(n) =>
          doomed := set g | g in grants && g.tenant == tenant && grants[g].srcNode == n && grants[g].consumedAt.None?;
        case OfGrant(j) =>
          doomed := set g | g in grants && g.tenant == tenant && g.id == j && grants[g].consumedAt.None?;
        case OfPolicy(_) => doomed := set g | g in grants && g.tenant == tenant && grants[g].consumedAt.None?;
        case _ =>
      }
      assert forall g :: g in doomed <==> Invalidates(Tables(), tenant, target, g);
      if exists id :: id in sessions && Ref(id.tenant, sessions[id].grant) in doomed {
        return false;
      }
      assert old(DropInvalidated(Tables(), tenant, target)) == grants - doomed;
      grants := grants - doomed;
      return true;
    }

    /** Number and record the event, end sessions, drop grants; all or nothing. */
    method IssueRevocation(tenant: Id, target: Target) returns (r: Option<Revocation>)
      modifies this
      ensures Tables() == Service.IssueRevocation(old(Tables()), tenant, target)
      ensures r == if old(RevocationBlocked(Tables(), tenant, target)) then None
                   else Some(Revocation(old(LastRevocation(Tables(), tenant)) + 1, target))
    {
      var before, beforeSessions := revocations, sessions;
      var top := ComputeMax0(set k | k in revocations && k.tenant == tenant :: k.id);
      revocations := revocations[Ref(tenant, top + 1) := target];
      TerminateActiveSessions(tenant, target);
      ClosingKeepsBlocked(old(Tables()), Tables(), tenant, target);
      var ok := InvalidateGrants(tenant, target);
      if !ok {
        revocations, sessions := before, beforeSessions;
        return None;
      }
      return Some(Revocation(top + 1, target));
    }

    /** Marks the device and records the event; sessions and grants are left to IssueRevocation. */
    method RevokeDevice(d: Ref)
      modifies this`devices, this`revocations
      ensures Tables() == MarkRevoked(old(Tables()), d)
    {
      if d in devices && devices[d].enrolled {
        devices := devices[d := devices[d].(enrolled := false)];
      }
      var top := ComputeMax0(set k | k in revocations && k.tenant == d.tenant :: k.id);
      revocations := revocations[Ref(d.tenant, top + 1) := OfDevice(d.id)];
    }

    method CheckFreshness(tenant: Id, acked: int) returns (current: bool, latest: nat)
      ensures latest == LastRevocation(Tables(), tenant)
      ensures current <==> latest <= acked
    {
      latest := ComputeMax0(set k | k in revocations && k.tenant == tenant :: k.id);
      current := !(latest > acked);
    }

    /** SELECT ... WHERE seq > $2 ORDER BY seq ASC */
    method GetRevocationsSince(tenant: Id, since: int) returns (rs: seq<Revocation>)
      ensures rs == Since(Tables(), tenant, since)
    {
      rs := [];
      var rest := set k | k in revocations && k.tenant == tenant && k.id > since :: k.id;
      ghost var all, page := rest, [];
      while rest != {}
        invariant page + Ascending(rest, |rest|) == Ascending(all, |all|)
        invariant |rs| == |page| && forall i :: 0 <= i < |page| ==> rs[i] == RevocationAt(revocations, tenant, page[i])
        decreases |rest|
      {
        var n := ComputeMin(rest);
        rs := rs + [RevocationAt(revocations, tenant, n)];
        assert |rest - {n}| == |rest| - 1;
        assert page + ([n] + Ascending(rest - {n}, |rest| - 1)) == (page + [n]) + Ascending(rest - {n}, |rest| - 1);
        page := page + [n];
        rest := rest - {n};
      }
      assert page == Ascending(all, |all|);
    }
  }
}
