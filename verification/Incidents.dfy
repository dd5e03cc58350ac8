/** Runs of the service, from empty tables, that show where a promise fails. The sessions in them are
    rows the schema allows; no code of the repository inserts any. */
module Incidents {
  import opened Base
  import opened GrantTtl
  import opened SignedResponse
  import opened Service
  import opened Lifecycle

  /** One device's approval key is the other's authentication key; the unique constraints are per
      column and let that in. */
  const DEVICES: map<Ref, Device> := map[Ref(1, 1) := Device(1, 1, 2, 0, true), Ref(1, 2) := Device(1, 3, 1, 0, true)]

  const RESOURCES: map<Ref, Resource> := map[Ref(1, 1) := Resource(1, Standard)]

  const SETUP: Event := Provision({Ref(1, 1)}, RESOURCES, DEVICES)

  /** An ordinary response: a 32-byte hash, APPROVE, device 1, a time, counter 1. The last eight bytes
      of the hash happen to read 7. */
  const BODY: Signed := Signed(Big(0, 24) + Big(7, 8), [65, 80, 80, 82, 79, 86, 69], 1, [],
                               Instant(0, 0, None), 1, [], Big(5, 16))

  const RESPONSE: Response := Response(1, BODY, Signature(1, ToSign(BODY)))

  /** The first device approves the first request. */
  const APPROVAL: Input := Input(Ref(1, 1), 1, Approve, RESPONSE, 1, 0, true)

  /** The same bytes, presented as the second device's denial of the second request. */
  const REPLAY: Input := Input(Ref(1, 2), 2, Deny, RESPONSE.(requestId := 2), 2, 0, true)

  /** The same signature, presented by the same device for the second request with other fields. */
  function Recutting(body: Signed): Input {
    Input(Ref(1, 2), 1, Approve, Response(2, body, RESPONSE.signature), 2, 0, true)
  }

  function Ask(id: Id): Event {
    Create(Ref(1, id), 1, 1, "laptop", 1, RequestScope)
  }

  const ASKED: Request := Request(1, 1, "laptop", 1, RequestScope, Pending, 0, None, None)

  /** The tables before any decision. */
  ghost function Prepared(requests: map<Ref, Request>): State {
    State({Ref(1, 1)}, RESOURCES, DEVICES, requests, map[], map[], map[], map[], [])
  }

  lemma SetupRuns()
    ensures Next(EMPTY, SETUP) == Prepared(map[])
  {
    assert map[] + RESOURCES == RESOURCES && map[] + DEVICES == DEVICES && {} + {Ref(1, 1)} == {Ref(1, 1)};
    assert UniqueKeys(EMPTY.devices + DEVICES);
  }

  lemma AskRuns(requests: map<Ref, Request>, id: Id)
    requires forall k :: k in requests ==> k.id != id
    ensures Next(Prepared(requests), Ask(id)) == Prepared(requests[Ref(1, id) := ASKED])
  {
    assert Creatable(Prepared(requests), Ref(1, id), 1, 1, 1, RequestScope);
  }

  /** The tables after the approval, whatever other requests are pending. */
  lemma ApprovalRuns(requests: map<Ref, Request>)
    requires Ref(1, 1) in requests && requests[Ref(1, 1)] == ASKED
    ensures var s := Prepared(requests);
            && Commits(s, APPROVAL)
            && !AlreadyGranted(s, Ref(1, 1))
            && Process(s, APPROVAL).grants.Keys == {Ref(1, 1)}
            && Process(s, APPROVAL).grants[Ref(1, 1)].consumedAt.None?
            && Process(s, APPROVAL).grants[Ref(1, 1)].user == 1
            && Process(s, APPROVAL).sessions == map[]
            && Process(s, APPROVAL).minted == map[1 := Ref(1, 1)]
            && Process(s, APPROVAL).decided == [Decided(Ref(1, 1), Ref(1, 1), Approve, RESPONSE)]
  {
  }

  lemma RunUnfolds(s: State, e: Event, rest: seq<Event>)
    ensures Run(s, [e] + rest) == Run(Next(s, e), rest)
    ensures Fresh(s, [e] + rest) <==> FreshStep(s, e) && Fresh(Next(s, e), rest)
  {
    assert ([e] + rest)[1..] == rest;
  }

  /** Two accepted decisions, on different requests, with one signature. */
  ghost predicate AcceptedTwice(s: State) {
    exists i, j :: 0 <= i < j < |s.decided| && s.decided[i].request != s.decided[j].request
                   && s.decided[i].response.signature == s.decided[j].response.signature
  }

  lemma ReplayCommits(requests: map<Ref, Request>)
    requires Ref(1, 1) in requests && requests[Ref(1, 1)] == ASKED
    requires Ref(1, 2) in requests && requests[Ref(1, 2)] == ASKED
    ensures var t := Process(Prepared(requests), APPROVAL);
            && FreshStep(t, Decide(REPLAY))
            && AcceptedTwice(Next(t, Decide(REPLAY)))
  {
    var s := Prepared(requests);
    var t := Process(s, APPROVAL);
    ApprovalRuns(requests);
    assert Commits(s, REPLAY);
    ReplayIff(s, APPROVAL, REPLAY);
    var u := Process(t, REPLAY);
    assert u.decided == t.decided + [Decided(Ref(1, 2), Ref(1, 2), Deny, REPLAY.response)];
    assert u.decided[0].request == Ref(1, 1) && u.decided[1].request == Ref(1, 2);
  }

  /** A signature accepted twice: an approval and then, for another request and another device, a
      denial, with the unsigned request id changed. */
  lemma ReplayHappens() returns (es: seq<Event>)
    ensures Fresh(EMPTY, es) && AcceptedTwice(Run(EMPTY, es))
  {
    var s := Prepared(map[Ref(1, 1) := ASKED][Ref(1, 2) := ASKED]);
    var rest := [Decide(APPROVAL)] + ([Decide(REPLAY)] + []);
    es := [SETUP] + ([Ask(1)] + ([Ask(2)] + rest));
    Preparation(rest);
    ReplayCommits(s.requests);
    RunUnfolds(s, Decide(APPROVAL), [Decide(REPLAY)] + []);
    RunUnfolds(Process(s, APPROVAL), Decide(REPLAY), []);
  }

  /** One device, one signature, two approvals, two grants. */
  ghost predicate GrantedTwice(s: State) {
    exists i, j :: 0 <= i < j < |s.decided| && SameApproval(s.decided[i], s.decided[j])
                   && AlreadyGranted(s, s.decided[i].request) && AlreadyGranted(s, s.decided[j].request)
  }

  ghost predicate SameApproval(a: Decided, b: Decided) {
    && a.device == b.device && a.decision == b.decision == Approve && a.request != b.request
    && a.response.signature == b.response.signature
  }

  /** The signed bytes can be cut so that the counter is 7. */
  lemma HashReadsAsCounter() returns (body: Signed)
    ensures ToSign(body) == ToSign(BODY) && body.counter == 7 && body.keyId == []
  {
    body := RecutAtHash(BODY, Big(0, 24), 7);
  }

  lemma RecutCommits(requests: map<Ref, Request>, body: Signed)
    requires Ref(1, 1) in requests && requests[Ref(1, 1)] == ASKED
    requires Ref(1, 2) in requests && requests[Ref(1, 2)] == ASKED
    requires ToSign(body) == ToSign(BODY) && body.counter == 7 && body.keyId == []
    ensures Commits(Process(Prepared(requests), APPROVAL), Recutting(body))
  {
    ApprovalRuns(requests);
    assert Commits(Prepared(requests), Recutting(body));
    ReplayIff(Prepared(requests), APPROVAL, Recutting(body));
  }

  /** An approval is logged, its request has a grant, and so has every request that had one. */
  lemma ApprovalGrants(s: State, i: Input)
    requires Inv(s) && Commits(s, i) && i.decision == Approve
    ensures var t := Process(s, i);
            && t.decided == s.decided + [Decided(DeviceRef(i), i.request, Approve, i.response)]
            && AlreadyGranted(t, i.request)
            && (forall r :: AlreadyGranted(s, r) ==> AlreadyGranted(t, r))
  {
    ApprovalStep(s, i);
    var t := Process(s, i);
    assert t.grants[Ref(i.request.tenant, i.jti)].request == i.request.id;
    forall r | AlreadyGranted(s, r)
      ensures AlreadyGranted(t, r)
    {
      var g :| g in s.grants && g.tenant == r.tenant && s.grants[g].request == r.id;
      assert t.grants[g] == s.grants[g];
    }
  }

  lemma TwoApprovals(s: State, i: Input, j: Input)
    requires Inv(s) && Inv(Process(s, i)) && s.decided == []
    requires Commits(s, i) && Commits(Process(s, i), j) && i.decision == j.decision == Approve
    requires DeviceRef(i) == DeviceRef(j) && i.request != j.request && i.response.signature == j.response.signature
    ensures GrantedTwice(Process(Process(s, i), j))
  {
    ApprovalGrants(s, i);
    ApprovalGrants(Process(s, i), j);
    var u := Process(Process(s, i), j);
    assert SameApproval(u.decided[0], u.decided[1]);
  }

  lemma RecutGrants(requests: map<Ref, Request>, body: Signed)
    requires Inv(Prepared(requests))
    requires Ref(1, 1) in requests && requests[Ref(1, 1)] == ASKED
    requires Ref(1, 2) in requests && requests[Ref(1, 2)] == ASKED
    requires ToSign(body) == ToSign(BODY) && body.counter == 7 && body.keyId == []
    ensures 2 !in Process(Prepared(requests), APPROVAL).minted
    ensures GrantedTwice(Process(Process(Prepared(requests), APPROVAL), Recutting(body)))
  {
    ApprovalRuns(requests);
    RecutCommits(requests, body);
    ApproveKeeps(Prepared(requests), APPROVAL);
    TwoApprovals(Prepared(requests), APPROVAL, Recutting(body));
  }

  /** An ordinary signed response accepted twice on the device that signed it: the second time its bytes
      are cut so that the counter is read out of the hash, and a second grant is minted. */
  lemma RecutHappens() returns (es: seq<Event>)
    ensures Fresh(EMPTY, es) && GrantedTwice(Run(EMPTY, es))
  {
    var body := HashReadsAsCounter();
    var j := Recutting(body);
    var s := Prepared(map[Ref(1, 1) := ASKED][Ref(1, 2) := ASKED]);
    var rest := [Decide(APPROVAL)] + ([Decide(j)] + []);
    es := [SETUP] + ([Ask(1)] + ([Ask(2)] + rest));
    Preparation(rest);
    Prepares();
    RecutGrants(s.requests, body);
    RunUnfolds(s, Decide(APPROVAL), [Decide(j)] + []);
    RunUnfolds(Process(s, APPROVAL), Decide(j), []);
  }

  lemma Prepares()
    ensures Inv(Prepared(map[Ref(1, 1) := ASKED][Ref(1, 2) := ASKED]))
  {
    Preparation([]);
    RunKeeps(EMPTY, [SETUP] + ([Ask(1)] + ([Ask(2)] + [])));
  }

  /** Both requests are asked for. */
  lemma Preparation(rest: seq<Event>)
    ensures var s := Prepared(map[Ref(1, 1) := ASKED][Ref(1, 2) := ASKED]);
            var es := [SETUP] + ([Ask(1)] + ([Ask(2)] + rest));
            Run(EMPTY, es) == Run(s, rest) && (Fresh(s, rest) ==> Fresh(EMPTY, es))
  {
    SetupRuns();
    AskRuns(map[], 1);
    AskRuns(map[Ref(1, 1) := ASKED], 2);
    RunUnfolds(EMPTY, SETUP, [Ask(1)] + ([Ask(2)] + rest));
    RunUnfolds(Prepared(map[]), Ask(1), [Ask(2)] + rest);
    RunUnfolds(Prepared(map[Ref(1, 1) := ASKED]), Ask(2), rest);
  }

  const OPEN: Event := OpenSession(Ref(1, 1), 1, 1, 1)

  /** An open session of user 1, on device 1, whose grant is not consumed. */
  ghost predicate InSession(s: State) {
    && s.revocations == map[] && Ref(1, 1) in s.devices
    && Ref(1, 1) in s.sessions && s.sessions[Ref(1, 1)] == Session(1, 1, 1, true)
    && Ref(1, 1) in s.grants && s.grants[Ref(1, 1)].user == 1 && Consumable(s, Ref(1, 1), 0)
  }

  lemma OpenRuns(requests: map<Ref, Request>)
    requires Ref(1, 1) in requests && requests[Ref(1, 1)] == ASKED
    ensures InSession(Next(Process(Prepared(requests), APPROVAL), OPEN))
  {
    var s := Prepared(requests);
    var t := Process(s, APPROVAL);
    ApprovalRuns(requests);
    assert t.sessions == map[] && t.revocations == map[] && Ref(1, 1) in t.devices;
    assert Openable(t, Ref(1, 1), 1, 1);
  }

  /** A request granted, and a session opened before the grant is consumed. */
  lemma SessionOpens() returns (es: seq<Event>)
    ensures Fresh(EMPTY, es) && Inv(Run(EMPTY, es)) && InSession(Run(EMPTY, es))
  {
    var s := Prepared(map[Ref(1, 1) := ASKED][Ref(1, 2) := ASKED]);
    var rest := [Decide(APPROVAL)] + ([OPEN] + []);
    es := [SETUP] + ([Ask(1)] + ([Ask(2)] + rest));
    Preparation(rest);
    OpenRuns(s.requests);
    RunUnfolds(s, Decide(APPROVAL), [OPEN] + []);
    RunUnfolds(Process(s, APPROVAL), OPEN, []);
    RunKeeps(EMPTY, es);
  }

  /** Revoking the user changes nothing at all: the user's session stays open, the grant consumable,
      and the event is not recorded. */
  ghost predicate RevocationLost(s: State) {
    var t := Next(s, Revoke(1, OfUser(1)));
    && t == s && Matching(t, 1, OfUser(1), Ref(1, 1)) && t.sessions[Ref(1, 1)].open
    && Consumable(t, Ref(1, 1), 0) && t.revocations == map[]
  }

  lemma RevocationIsLost(s: State)
    requires Inv(s) && InSession(s)
    ensures RevocationLost(s)
  {
    assert Invalidates(s, 1, OfUser(1), Ref(Ref(1, 1).tenant, s.sessions[Ref(1, 1)].grant));
    TerminatesMatching(s, 1, OfUser(1), Ref(1, 1));
  }

  lemma RevocationLeavesSessionOpen() returns (es: seq<Event>)
    ensures Fresh(EMPTY, es) && RevocationLost(Run(EMPTY, es))
  {
    es := SessionOpens();
    RevocationIsLost(Run(EMPTY, es));
  }

  /** Revoking the device records the event, marks the device, and leaves its session open. */
  ghost predicate DeviceSessionSurvives(s: State) {
    var t := Next(s, RevokeDevice(Ref(1, 1)));
    && Ref(1, 1) in t.devices && !t.devices[Ref(1, 1)].enrolled
    && OfDevice(1) in t.revocations.Values
    && Matching(t, 1, OfDevice(1), Ref(1, 1)) && t.sessions[Ref(1, 1)].open
  }

  lemma DeviceRevocationLeavesSessionOpen() returns (es: seq<Event>)
    ensures Fresh(EMPTY, es) && DeviceSessionSurvives(Run(EMPTY, es))
  {
    es := SessionOpens();
    DeviceSessionIsLeft(Run(EMPTY, es));
  }

  lemma DeviceSessionIsLeft(s: State)
    requires InSession(s)
    ensures DeviceSessionSurvives(s)
  {
    var t := MarkRevoked(s, Ref(1, 1));
    assert t.sessions == s.sessions && t.requests == s.requests;
    assert t.revocations[Ref(1, LastRevocation(s, 1) + 1)] == OfDevice(1);
  }
}
