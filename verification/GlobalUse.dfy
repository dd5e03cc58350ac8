/** The approval service and any number of daemons, each asking the service before it consumes a
    grant. Asking, serving the call and acting on the answer are separate steps: in between, other
    daemons ask, the service decides, revokes and expires, and the asking daemon may crash. A call may
    be lost, served after its caller gave up, or answered to nobody. */
module GlobalUse {
  import opened Base
  import S = Service
  import L = Lifecycle
  import G = GrantCache

  /** A call to ConsumeGrant: who made it, what for, and the answer once the service has committed it. */
  datatype Call = Call(node: Id, grant: S.Ref, answer: Option<bool>)

  /** A Consume in progress: it holds the cache's lock until the call returns. */
  datatype Waiting = Waiting(call: Id, key: string, jti: Id)

  /** A daemon serves one tenant. */
  datatype Node = Node(tenant: Id, cache: G.Daemon, waiting: Option<Waiting>)

  /** A successful consumption, and the call it rests on. */
  datatype Use = Use(node: Id, jti: Id, call: Id)

  datatype System = System(service: S.State, nodes: map<Id, Node>, calls: map<Id, Call>, uses: seq<Use>)

  datatype Event =
    | AtService(step: S.Event)
    | Join(node: Id, tenant: Id)
    | AtNode(node: Id, local: G.Event)
    | Ask(node: Id, call: Id, key: string, jti: Id)
    | Serve(call: Id, now: Time)
    | Finish(node: Id, heard: bool, now: Time, io: G.Io)

  /** Local steps wait for the lock; a crash does not, and forgets the call. */
  function Locally(n: Node, e: G.Event): Node {
    if e.Consume? || (n.waiting.Some? && !e.Restart?) then n
    else Node(n.tenant, G.Next(n.cache, e), None)
  }

  /** The callback is called once the key is found, under the lock. */
  predicate CanAsk(y: System, node: Id, call: Id, key: string) {
    && node in y.nodes && call !in y.calls
    && y.nodes[node].waiting.None? && y.nodes[node].cache.up && key in y.nodes[node].cache.entries
  }

  predicate CanServe(y: System, call: Id) {
    call in y.calls && y.calls[call].answer.None?
  }

  predicate CanFinish(y: System, node: Id) {
    node in y.nodes && y.nodes[node].waiting.Some?
  }

  /** What the daemon learns: the answer if there is one and it is heard, else an error. */
  function AnswerTo(y: System, w: Waiting, heard: bool): G.Remote {
    if heard && w.call in y.calls && y.calls[w.call].answer.Some? then G.Answered(y.calls[w.call].answer.value)
    else G.Unreachable
  }

  function Asked(y: System, node: Id, call: Id, key: string, jti: Id): System
    requires CanAsk(y, node, call, key)
  {
    var n := y.nodes[node];
    y.(nodes := y.nodes[node := n.(waiting := Some(Waiting(call, key, jti)))],
       calls := y.calls[call := Call(node, S.Ref(n.tenant, jti), None)])
  }

  function Served(y: System, call: Id, now: Time): System
    requires CanServe(y, call)
  {
    var c := y.calls[call];
    y.(service := S.ConsumeGrant(y.service, c.grant, now),
       calls := y.calls[call := c.(answer := Some(S.Consumable(y.service, c.grant, now)))])
  }

  function Finished(y: System, node: Id, heard: bool, now: Time, io: G.Io): System
    requires CanFinish(y, node)
  {
    var n := y.nodes[node];
    var w := n.waiting.value;
    var answer := AnswerTo(y, w, heard);
    y.(nodes := y.nodes[node := Node(n.tenant, G.Consumed(n.cache, w.key, w.jti, answer, now, io), None)],
       uses := if G.Succeeds(n.cache, w.key, w.jti, answer, now, io) then y.uses + [Use(node, w.jti, w.call)]
               else y.uses)
  }

  ghost function Next(y: System, e: Event): System {
    match e
    case AtService(step) => y.(service := S.Next(y.service, step))
    case Join(node, tenant) =>
      if node in y.nodes then y else y.(nodes := y.nodes[node := Node(tenant, G.FRESH, None)])
    case AtNode(node, local) =>
      if node !in y.nodes then y else y.(nodes := y.nodes[node := Locally(y.nodes[node], local)])
    case Ask(node, call, key, jti) => if CanAsk(y, node, call, key) then Asked(y, node, call, key, jti) else y
    case Serve(call, now) => if CanServe(y, call) then Served(y, call, now) else y
    case Finish(node, heard, now, io) => if CanFinish(y, node) then Finished(y, node, heard, now, io) else y
  }

  ghost function Run(y: System, es: seq<Event>): System
    decreases es
  {
    if es == [] then y else Run(Next(y, es[0]), es[1..])
  }

  ghost predicate FreshStep(y: System, e: Event) {
    e.AtService? ==> S.FreshStep(y.service, e.step)
  }

  ghost predicate Fresh(y: System, es: seq<Event>)
    decreases es
  {
    es != [] ==> FreshStep(y, es[0]) && Fresh(Next(y, es[0]), es[1..])
  }

  const START: System := System(S.EMPTY, map[], map[], [])

  // ---- the invariant ----

  /** The service said yes to this call. */
  ghost predicate Won(calls: map<Id, Call>, call: Id) {
    call in calls && calls[call].answer == Some(true)
  }

  /** A grant that was given to a call is spent, and was given to no other. */
  ghost predicate CallsOk(service: S.State, calls: map<Id, Call>) {
    && (forall c :: Won(calls, c) ==> L.Spent(service, calls[c].grant))
    && (forall c, d :: Won(calls, c) && Won(calls, d) && calls[c].grant.id == calls[d].grant.id ==> c == d)
  }

  /** A waiting daemon waits for its own call, about the grant it is consuming. */
  ghost predicate WaitsOk(nodes: map<Id, Node>, calls: map<Id, Call>) {
    forall n :: n in nodes && nodes[n].waiting.Some? ==>
      var w := nodes[n].waiting.value;
      w.call in calls && calls[w.call].node == n && calls[w.call].grant.id == w.jti
  }

  /** Each use rests on a call the service said yes to, and each on another. */
  ghost predicate UsesOk(calls: map<Id, Call>, uses: seq<Use>) {
    && (forall i :: 0 <= i < |uses| ==> Won(calls, uses[i].call) && calls[uses[i].call].grant.id == uses[i].jti)
    && (forall i, j :: 0 <= i < j < |uses| ==> uses[i].call != uses[j].call)
  }

  /** No daemon waits for a call that was already used. */
  ghost predicate WaitsUnused(nodes: map<Id, Node>, uses: seq<Use>) {
    forall n, i :: n in nodes && nodes[n].waiting.Some? && 0 <= i < |uses| ==>
      uses[i].call != nodes[n].waiting.value.call
  }

  ghost predicate Inv(y: System) {
    && L.Inv(y.service)
    && CallsOk(y.service, y.calls)
    && WaitsOk(y.nodes, y.calls)
    && UsesOk(y.calls, y.uses)
    && WaitsUnused(y.nodes, y.uses)
  }

  lemma EvolvedCallsOk(s: S.State, t: S.State, calls: map<Id, Call>)
    requires CallsOk(s, calls) && L.Evolves(s, t)
    ensures CallsOk(t, calls)
  {
  }

  lemma AtServiceKeeps(y: System, step: S.Event)
    requires Inv(y) && S.FreshStep(y.service, step)
    ensures Inv(Next(y, AtService(step)))
  {
    L.StepKeeps(y.service, step);
    L.StepEvolves(y.service, step);
    EvolvedCallsOk(y.service, S.Next(y.service, step), y.calls);
  }

  /** A call that is not answered yet changes nothing for the others. */
  lemma AskKeepsCalls(service: S.State, calls: map<Id, Call>, uses: seq<Use>, call: Id, c: Call)
    requires CallsOk(service, calls) && UsesOk(calls, uses) && call !in calls && c.answer.None?
    ensures CallsOk(service, calls[call := c]) && UsesOk(calls[call := c], uses)
  {
    assert forall d :: Won(calls[call := c], d) <==> Won(calls, d);
  }

  lemma AskKeepsWaits(nodes: map<Id, Node>, calls: map<Id, Call>, uses: seq<Use>,
                      node: Id, call: Id, key: string, jti: Id)
    requires WaitsOk(nodes, calls) && UsesOk(calls, uses) && WaitsUnused(nodes, uses) && node in nodes && call !in calls
    ensures var nodes' := nodes[node := nodes[node].(waiting := Some(Waiting(call, key, jti)))];
            && WaitsOk(nodes', calls[call := Call(node, S.Ref(nodes[node].tenant, jti), None)])
            && WaitsUnused(nodes', uses)
  {
    assert forall i :: 0 <= i < |uses| ==> Won(calls, uses[i].call);
  }

  lemma AskKeeps(y: System, node: Id, call: Id, key: string, jti: Id)
    requires Inv(y) && CanAsk(y, node, call, key)
    ensures Inv(Asked(y, node, call, key, jti))
  {
    AskKeepsCalls(y.service, y.calls, y.uses, call, Call(node, S.Ref(y.nodes[node].tenant, jti), None));
    AskKeepsWaits(y.nodes, y.calls, y.uses, node, call, key, jti);
  }

  /** A grant the service lets go was given to no call before. */
  lemma ConsumableIsNew(s: S.State, calls: map<Id, Call>, g: S.Ref, now: Time)
    requires L.Inv(s) && CallsOk(s, calls) && S.Consumable(s, g, now)
    ensures forall c :: Won(calls, c) ==> calls[c].grant.id != g.id
    ensures L.Spent(S.ConsumeGrant(s, g, now), g)
  {
    assert L.GrantOk(g, s.grants[g], s.requests, s.resources, s.minted);
    forall c | Won(calls, c)
      ensures calls[c].grant.id != g.id
    {
      assert L.Spent(s, calls[c].grant);
    }
  }

  /** Serving is a consume step of the service. */
  lemma ConsumeSteps(s: S.State, g: S.Ref, now: Time)
    requires L.Inv(s)
    ensures L.Inv(S.ConsumeGrant(s, g, now)) && L.Evolves(s, S.ConsumeGrant(s, g, now))
  {
    L.ConsumeKeeps(s, g, now);
    L.ConsumeEvolves(s, g, now);
  }

  lemma AnswerKeepsCalls(t: S.State, calls: map<Id, Call>, call: Id, yes: bool)
    requires CallsOk(t, calls) && call in calls && calls[call].answer.None?
    requires yes ==> L.Spent(t, calls[call].grant)
    requires yes ==> forall c :: Won(calls, c) ==> calls[c].grant.id != calls[call].grant.id
    ensures CallsOk(t, calls[call := calls[call].(answer := Some(yes))])
  {
    var calls' := calls[call := calls[call].(answer := Some(yes))];
    assert forall c :: Won(calls', c) <==> Won(calls, c) || (yes && c == call);
  }

  lemma ServeKeepsCalls(s: S.State, calls: map<Id, Call>, call: Id, now: Time)
    requires L.Inv(s) && CallsOk(s, calls) && call in calls && calls[call].answer.None?
    ensures CallsOk(S.ConsumeGrant(s, calls[call].grant, now),
                    calls[call := calls[call].(answer := Some(S.Consumable(s, calls[call].grant, now)))])
  {
    var g := calls[call].grant;
    ConsumeSteps(s, g, now);
    EvolvedCallsOk(s, S.ConsumeGrant(s, g, now), calls);
    if S.Consumable(s, g, now) {
      ConsumableIsNew(s, calls, g, now);
    }
    AnswerKeepsCalls(S.ConsumeGrant(s, g, now), calls, call, S.Consumable(s, g, now));
  }

  lemma ServeKeeps(y: System, call: Id, now: Time)
    requires Inv(y) && CanServe(y, call)
    ensures Inv(Served(y, call, now))
  {
    ConsumeSteps(y.service, y.calls[call].grant, now);
    ServeKeepsCalls(y.service, y.calls, call, now);
    AnswerKeeps(y.nodes, y.calls, y.uses, call, S.Consumable(y.service, y.calls[call].grant, now));
  }

  lemma AnswerKeeps(nodes: map<Id, Node>, calls: map<Id, Call>, uses: seq<Use>, call: Id, yes: bool)
    requires WaitsOk(nodes, calls) && UsesOk(calls, uses) && call in calls && calls[call].answer.None?
    ensures var calls' := calls[call := calls[call].(answer := Some(yes))];
            WaitsOk(nodes, calls') && UsesOk(calls', uses)
  {
    assert forall i :: 0 <= i < |uses| ==> Won(calls, uses[i].call);
  }

  /** A daemon that stops waiting, whatever became of its cache. */
  lemma StopKeeps(nodes: map<Id, Node>, calls: map<Id, Call>, uses: seq<Use>, node: Id, n: Node)
    requires WaitsOk(nodes, calls) && WaitsUnused(nodes, uses) && n.waiting.None?
    ensures WaitsOk(nodes[node := n], calls) && WaitsUnused(nodes[node := n], uses)
  {
  }

  /** The use a finished consumption adds rests on its own call, which no other use has and no other
      daemon waits for. */
  lemma UseKeeps(nodes: map<Id, Node>, calls: map<Id, Call>, uses: seq<Use>, node: Id, n: Node)
    requires WaitsOk(nodes, calls) && WaitsUnused(nodes, uses) && UsesOk(calls, uses)
    requires node in nodes && nodes[node].waiting.Some? && n.waiting.None?
    requires Won(calls, nodes[node].waiting.value.call)
    ensures var w := nodes[node].waiting.value;
            var uses' := uses + [Use(node, w.jti, w.call)];
            UsesOk(calls, uses') && WaitsUnused(nodes[node := n], uses')
  {
    var w := nodes[node].waiting.value;
    forall o | o in nodes && o != node && nodes[o].waiting.Some?
      ensures nodes[o].waiting.value.call != w.call
    {
      assert calls[nodes[o].waiting.value.call].node == o;
    }
  }

  lemma FinishKeeps(y: System, node: Id, heard: bool, now: Time, io: G.Io)
    requires Inv(y) && CanFinish(y, node)
    ensures Inv(Finished(y, node, heard, now, io))
  {
    var n := y.nodes[node];
    var w := n.waiting.value;
    var answer := AnswerTo(y, w, heard);
    var after := Node(n.tenant, G.Consumed(n.cache, w.key, w.jti, answer, now, io), None);
    StopKeeps(y.nodes, y.calls, y.uses, node, after);
    if G.Succeeds(n.cache, w.key, w.jti, answer, now, io) {
      assert answer == G.Answered(true);
      UseKeeps(y.nodes, y.calls, y.uses, node, after);
    }
  }

  lemma StepKeeps(y: System, e: Event)
    requires Inv(y) && FreshStep(y, e)
    ensures Inv(Next(y, e))
  {
    match e
    case AtService(step) => AtServiceKeeps(y, step);
    case Join(node, tenant) => StopKeeps(y.nodes, y.calls, y.uses, node, Node(tenant, G.FRESH, None));
    case AtNode(node, local) => LocalKeeps(y, node, local);
    case Ask(node, call, key, jti) => if CanAsk(y, node, call, key) { AskKeeps(y, node, call, key, jti); }
    case Serve(call, now) => if CanServe(y, call) { ServeKeeps(y, call, now); }
    case Finish(node, heard, now, io) => if CanFinish(y, node) { FinishKeeps(y, node, heard, now, io); }
  }

  lemma LocalKeeps(y: System, node: Id, local: G.Event)
    requires Inv(y)
    ensures Inv(Next(y, AtNode(node, local)))
  {
    if node in y.nodes {
      var n := Locally(y.nodes[node], local);
      if n.waiting.None? {
        StopKeeps(y.nodes, y.calls, y.uses, node, n);
      } else {
        assert n == y.nodes[node] && y.nodes[node := n] == y.nodes;
      }
    }
  }

  lemma {:induction false} RunKeeps(y: System, es: seq<Event>)
    requires Inv(y) && Fresh(y, es)
    ensures Inv(Run(y, es))
    decreases es
  {
    if es != [] {
      StepKeeps(y, es[0]);
      RunKeeps(Next(y, es[0]), es[1..]);
    }
  }

  /** Global single use: in every interleaving of the service and any number of daemons, with calls
      lost, late or answered to nobody, each grant id has at most one successful consumption overall. */
  lemma EachGrantUsedOnce(es: seq<Event>, i: nat, j: nat)
    requires Fresh(START, es) && i < j < |Run(START, es).uses|
    ensures Run(START, es).uses[i].jti != Run(START, es).uses[j].jti
  {
    RunKeeps(START, es);
  }

  /** A consumption asked for, served and finished succeeds exactly when the answer is heard, the service
      held the grant as consumable, and the daemon's own Check would offer it; then it is the one use
      added. */
  lemma UseOutcome(y: System, node: Id, call: Id, key: string, jti: Id, at: Time, heard: bool, now: Time, io: G.Io)
    requires CanAsk(y, node, call, key)
    ensures var t := Finished(Served(Asked(y, node, call, key, jti), call, at), node, heard, now, io);
            var n := y.nodes[node];
            var offered := G.Checked(n.cache, key, now);
            t.uses == y.uses +
              (if && heard && S.Consumable(y.service, S.Ref(n.tenant, jti), at)
                  && offered.Some? && offered.value.jti == jti
                  && (offered.value.payload.scope.SessionScope? || io == G.Written)
               then [Use(node, jti, call)] else [])
  {
    var z := Served(Asked(y, node, call, key, jti), call, at);
    var n := y.nodes[node];
    assert z.nodes[node] == n.(waiting := Some(Waiting(call, key, jti)));
    G.ConsumeSucceedsIff(n.cache, key, jti, AnswerTo(z, Waiting(call, key, jti), heard), now, io);
  }

  /** A daemon that is not waiting takes its local steps as the cache says; one that waits takes none but
      a restart, which forgets the call. A new daemon starts blank, and no other daemon is touched. */
  lemma LocalSteps(y: System, node: Id, local: G.Event, tenant: Id)
    ensures node in y.nodes && !local.Consume? && (y.nodes[node].waiting.None? || local.Restart?) ==>
              var n := y.nodes[node];
              Next(y, AtNode(node, local)).nodes == y.nodes[node := Node(n.tenant, G.Next(n.cache, local), None)]
    ensures node in y.nodes && y.nodes[node].waiting.Some? && !local.Restart? ==> Next(y, AtNode(node, local)) == y
    ensures node !in y.nodes ==> Next(y, Join(node, tenant)).nodes == y.nodes[node := Node(tenant, G.FRESH, None)]
  {
    if node in y.nodes {
      assert y.nodes[node := y.nodes[node]] == y.nodes;
    }
  }

  /** A grant delivered to a daemon and consumable at the service is used: stored, asked for, served and
      finished in time, it is the one use added. */
  lemma DeliveredIsUsed(y: System, node: Id, e: G.Entry, io: G.Io, call: Id, at: Time, now: Time)
    requires node in y.nodes && y.nodes[node].waiting.None? && y.nodes[node].cache.up && call !in y.calls
    requires !e.consumed && e.jti !in y.nodes[node].cache.consumed && now <= e.expires
    requires S.Consumable(y.service, S.Ref(y.nodes[node].tenant, e.jti), at)
    ensures var y1 := Next(y, AtNode(node, G.Store(e, io)));
            var y2 := Next(y1, Ask(node, call, G.Key(e), e.jti));
            var y3 := Next(y2, Serve(call, at));
            Next(y3, Finish(node, true, now, G.Written)).uses == y.uses + [Use(node, e.jti, call)]
  {
    var n := y.nodes[node];
    LocalSteps(y, node, G.Store(e, io), 0);
    G.StoredIsOffered(n.cache, e, io, now, "");
    var y1 := Next(y, AtNode(node, G.Store(e, io)));
    assert y1.nodes[node] == Node(n.tenant, G.Stored(n.cache, e, io), None);
    assert CanAsk(y1, node, call, G.Key(e));
    UseOutcome(y1, node, call, G.Key(e), e.jti, at, true, now, G.Written);
    var y2 := Asked(y1, node, call, G.Key(e), e.jti);
    assert CanServe(y2, call) && CanFinish(Served(y2, call, at), node);
  }

  // ---- revocation ----

  ghost predicate NoneHas(calls: map<Id, Call>, g: S.Ref) {
    forall c :: Won(calls, c) ==> calls[c].grant.id != g.id
  }

  /** The grant can never be consumed at the service, and no call has it. */
  ghost predicate OutOfReach(y: System, g: S.Ref) {
    L.Spent(y.service, g) && NoneHas(y.calls, g)
  }

  lemma AnswerKeepsOut(calls: map<Id, Call>, call: Id, yes: bool, g: S.Ref)
    requires NoneHas(calls, g) && call in calls && (yes ==> calls[call].grant.id != g.id)
    ensures NoneHas(calls[call := calls[call].(answer := Some(yes))], g)
  {
    var calls' := calls[call := calls[call].(answer := Some(yes))];
    assert forall d :: Won(calls', d) ==> Won(calls, d) || (d == call && yes);
  }

  lemma SpentIsRefused(s: S.State, r: S.Ref, now: Time, g: S.Ref)
    requires L.Inv(s) && L.Spent(s, g) && S.Consumable(s, r, now)
    ensures r.id != g.id
  {
    assert L.GrantOk(r, s.grants[r], s.requests, s.resources, s.minted);
  }

  lemma ServeKeepsOut(y: System, call: Id, now: Time, g: S.Ref)
    requires L.Inv(y.service) && CanServe(y, call) && OutOfReach(y, g)
    ensures OutOfReach(Served(y, call, now), g)
  {
    var c := y.calls[call];
    ConsumeSteps(y.service, c.grant, now);
    L.SpentEvolves(y.service, S.ConsumeGrant(y.service, c.grant, now), g);
    if S.Consumable(y.service, c.grant, now) {
      SpentIsRefused(y.service, c.grant, now, g);
    }
    AnswerKeepsOut(y.calls, call, S.Consumable(y.service, c.grant, now), g);
  }

  lemma StepKeepsOut(y: System, e: Event, g: S.Ref)
    requires Inv(y) && FreshStep(y, e) && OutOfReach(y, g)
    ensures OutOfReach(Next(y, e), g)
  {
    match e
    case AtService(step) =>
      L.StepEvolves(y.service, step);
      L.SpentEvolves(y.service, S.Next(y.service, step), g);
    case Ask(node, call, key, jti) =>
      assert forall d :: Won(Next(y, e).calls, d) ==> Won(y.calls, d) && Next(y, e).calls[d] == y.calls[d];
    case Serve(call, now) => if CanServe(y, call) { ServeKeepsOut(y, call, now, g); }
    case _ => assert Next(y, e).service == y.service && Next(y, e).calls == y.calls;
  }

  lemma {:induction false} OutOfReachIsUnused(y: System, es: seq<Event>, g: S.Ref)
    requires Inv(y) && Fresh(y, es) && OutOfReach(y, g)
    ensures Inv(Run(y, es)) && OutOfReach(Run(y, es), g)
    decreases es
  {
    if es != [] {
      StepKeeps(y, es[0]);
      StepKeepsOut(y, es[0], g);
      OutOfReachIsUnused(Next(y, es[0]), es[1..], g);
    }
  }

  /** A call the service said yes to has no unconsumed grant. */
  lemma UnconsumedIsNotWon(s: S.State, calls: map<Id, Call>, g: S.Ref)
    requires L.Inv(s) && CallsOk(s, calls) && g in s.grants && s.grants[g].consumedAt.None?
    ensures NoneHas(calls, g)
  {
    assert L.GrantOk(g, s.grants[g], s.requests, s.resources, s.minted);
    forall c | Won(calls, c)
      ensures calls[c].grant.id != g.id
    {
      assert L.Spent(s, calls[c].grant);
    }
  }

  /** A revocation that drops a grant puts it out of reach: unconsumed as it was, no call had it. */
  lemma RevocationPutsOut(y: System, tenant: Id, target: S.Target, g: S.Ref)
    requires L.Inv(y.service) && CallsOk(y.service, y.calls)
    requires S.Invalidates(y.service, tenant, target, g) && !S.RevocationBlocked(y.service, tenant, target)
    ensures OutOfReach(Next(y, AtService(S.Revoke(tenant, target))), g)
  {
    UnconsumedIsNotWon(y.service, y.calls, g);
    L.RevokedIsSpent(y.service, tenant, target, g);
    assert S.Next(y.service, S.Revoke(tenant, target)) == S.IssueRevocation(y.service, tenant, target);
  }

  /** Once a revocation has dropped a grant, no daemon ever consumes it, or has: whatever it has cached,
      and whatever call about it is still on its way. */
  lemma RevokedNeverUsed(y: System, tenant: Id, target: S.Target, g: S.Ref, es: seq<Event>, i: nat)
    requires Inv(y) && S.Invalidates(y.service, tenant, target, g) && !S.RevocationBlocked(y.service, tenant, target)
    requires Fresh(Next(y, AtService(S.Revoke(tenant, target))), es)
    requires i < |Run(Next(y, AtService(S.Revoke(tenant, target))), es).uses|
    ensures Run(Next(y, AtService(S.Revoke(tenant, target))), es).uses[i].jti != g.id
  {
    var z := Next(y, AtService(S.Revoke(tenant, target)));
    AtServiceKeeps(y, S.Revoke(tenant, target));
    RevocationPutsOut(y, tenant, target, g);
    OutOfReachIsUnused(z, es, g);
  }
}
