/** A daemon's grant cache: an in-memory map of grants, the ids consumed so far, and two files
    that survive a restart. The AEAD is ideal: a file opens only if it is exactly one sealed
    block, because every record is sealed on its own and the file is opened as one ciphertext. */
module GrantCache {
  import opened Base
  import opened GrantTtl

  datatype Binding = Binding(requestNonce: Option<string>, connection: Option<string>, session: Option<string>)

  datatype Payload = Payload(tenant: string, user: string, srcNode: string, node: string, service: string,
                             protocol: string, scope: Scope, policyVersion: int, binding: Binding, device: Id,
                             authzEpoch: int)

  datatype Entry = Entry(jti: Id, payload: Payload, consumed: bool, expires: Time)

  /** One append to the consumed log: a sealed record, or what an interrupted write left. */
  datatype Block = Sealed(jti: Id, at: Time) | Torn

  datatype Disk = Disk(grant: Option<Entry>, log: Option<seq<Block>>)

  const BLANK: Disk := Disk(None, None)

  /** How far a file operation got before it failed; Written is success. */
  datatype Io = Written | NotSynced | TornWrite | CreatedOnly | NotOpened

  /** The remote consume callback: not set, answered, or failed. */
  datatype Remote = Unset | Answered(consumed: bool) | Unreachable

  // ---- keys ----

  function Digits(n: nat): string {
    if n < 10 then ["0123456789"[n]] else Digits(n / 10) + ["0123456789"[n % 10]]
  }

  function Decimal(n: int): string {
    if n < 0 then "-" + Digits(-n) else Digits(n)
  }

  function ScopeName(scope: Scope): string {
    match scope
    case RequestScope => "REQUEST"
    case ConnectionScope => "CONNECTION"
    case DurationScope => "DURATION"
    case SessionScope => "SESSION"
    case OtherScope(name) => name
  }

  /** bindingIDFromPayload, with byte strings already written in hex. */
  function BindingId(p: Payload): string {
    match p.scope
    case RequestScope => if p.binding.requestNonce.Some? then p.binding.requestNonce.value else "duration"
    case ConnectionScope => if p.binding.connection.Some? then p.binding.connection.value else "duration"
    case SessionScope => if p.binding.session.Some? then p.binding.session.value else "duration"
    case _ => "duration"
  }

  /** Texts joined by slashes. */
  function Join(parts: seq<string>): string
    requires parts != []
  {
    if |parts| == 1 then parts[0] else parts[0] + "/" + Join(parts[1..])
  }

  function Parts(p: Payload): seq<string> {
    [p.tenant, p.user, p.srcNode, p.node, p.service, p.protocol,
     ScopeName(p.scope), Decimal(p.policyVersion), BindingId(p)]
  }

  function Key(e: Entry): string {
    Join(Parts(e.payload))
  }

  lemma KeyIsNotEmpty(e: Entry)
    ensures Key(e) != ""
  {
    assert Key(e) == Parts(e.payload)[0] + "/" + Join(Parts(e.payload)[1..]);
  }

  // ---- what a key tells apart ----

  ghost predicate Slashless(s: string) {
    '/' !in s
  }

  lemma {:induction false} JoinInjective(a: seq<string>, b: seq<string>)
    requires |a| == |b| > 0 && Join(a) == Join(b)
    requires forall i :: 0 <= i < |a| - 1 ==> Slashless(a[i]) && Slashless(b[i])
    ensures a == b
  {
    if |a| > 1 {
      assert Slashless(a[0]) && Slashless(b[0]);
      SplitAtFirst(a[0], Join(a[1..]), b[0], Join(b[1..]), '/');
      JoinInjective(a[1..], b[1..]);
      assert a == [a[0]] + a[1..] && b == [b[0]] + b[1..];
    }
  }

  lemma {:induction false} DigitsAre(n: nat)
    ensures |Digits(n)| > 0 && forall c :: c in Digits(n) ==> '0' <= c <= '9'
  {
    if n >= 10 {
      DigitsAre(n / 10);
    }
  }

  lemma {:induction false} DigitsInjective(m: nat, n: nat)
    requires Digits(m) == Digits(n)
    ensures m == n
  {
    var dm, dn := Digits(m), Digits(n);
    assert dm[|dm| - 1] == "0123456789"[m % 10] && dn[|dn| - 1] == "0123456789"[n % 10];
    assert m % 10 == n % 10;
    if m >= 10 {
      DigitsAre(m / 10);
    }
    if n >= 10 {
      DigitsAre(n / 10);
    }
    if m >= 10 && n >= 10 {
      assert dm[..|dm| - 1] == Digits(m / 10) && dn[..|dn| - 1] == Digits(n / 10);
      DigitsInjective(m / 10, n / 10);
    }
  }

  lemma DecimalInjective(m: int, n: int)
    requires Decimal(m) == Decimal(n)
    ensures m == n
  {
    var am, an := if m < 0 then -m else m, if n < 0 then -n else n;
    DigitsAre(am);
    DigitsAre(an);
    assert m >= 0 ==> Decimal(m)[0] in Digits(am);
    assert n >= 0 ==> Decimal(n)[0] in Digits(an);
    assert m < 0 <==> n < 0;
    if m < 0 {
      assert Decimal(m)[1..] == Digits(am) && Decimal(n)[1..] == Digits(an);
    }
    DigitsInjective(am, an);
  }

  lemma DecimalIsSlashless(n: int)
    ensures Slashless(Decimal(n))
  {
    DigitsAre(if n < 0 then -n else n);
  }

  /** No part but the binding holds a slash. */
  ghost predicate Plain(p: Payload) {
    && Slashless(p.tenant) && Slashless(p.user) && Slashless(p.srcNode) && Slashless(p.node) && Slashless(p.service)
    && Slashless(p.protocol) && Slashless(ScopeName(p.scope))
  }

  /** Then two grants have one key exactly when they agree on tenant, user, source node, protected node,
      service, protocol, scope, policy version and binding. */
  lemma SameKeyIff(a: Entry, b: Entry)
    requires Plain(a.payload) && Plain(b.payload)
    ensures var p, q := a.payload, b.payload;
            Key(a) == Key(b) <==>
              && p.tenant == q.tenant && p.user == q.user && p.srcNode == q.srcNode && p.node == q.node
              && p.service == q.service && p.protocol == q.protocol && ScopeName(p.scope) == ScopeName(q.scope)
              && p.policyVersion == q.policyVersion && BindingId(p) == BindingId(q)
  {
    var x, y := Parts(a.payload), Parts(b.payload);
    DecimalIsSlashless(a.payload.policyVersion);
    DecimalIsSlashless(b.payload.policyVersion);
    if Key(a) == Key(b) {
      JoinInjective(x, y);
      assert x[0] == y[0] && x[1] == y[1] && x[2] == y[2] && x[3] == y[3] && x[4] == y[4] && x[5] == y[5];
      assert x[6] == y[6] && x[7] == y[7] && x[8] == y[8];
      DecimalInjective(a.payload.policyVersion, b.payload.policyVersion);
    }
  }

  /** The binding tells requests, connections and sessions apart by their own id; a DURATION grant has
      none. */
  lemma BindingsTellApart(p: Payload, q: Payload, a: string)
    ensures BindingId(p.(scope := RequestScope, binding := p.binding.(requestNonce := Some(a)))) == a
    ensures BindingId(p.(scope := ConnectionScope, binding := p.binding.(connection := Some(a)))) == a
    ensures BindingId(p.(scope := SessionScope, binding := p.binding.(session := Some(a)))) == a
    ensures BindingId(p.(scope := DurationScope)) == BindingId(q.(scope := DurationScope)) == "duration"
    ensures BindingId(p.(scope := RequestScope, binding := p.binding.(requestNonce := None))) == "duration"
    ensures BindingId(p.(scope := ConnectionScope, binding := p.binding.(connection := None))) == "duration"
    ensures BindingId(p.(scope := SessionScope, binding := p.binding.(session := None))) == "duration"
  {
  }

  /** A slash in a node name can make two different grants share a key. */
  lemma SlashesCollide(e: Entry)
    ensures var a := e.(payload := e.payload.(srcNode := "a/b", node := "c"));
            var b := e.(payload := e.payload.(srcNode := "a", node := "b/c"));
            a != b && Key(a) == Key(b)
  {
    var a := e.(payload := e.payload.(srcNode := "a/b", node := "c"));
    var b := e.(payload := e.payload.(srcNode := "a", node := "b/c"));
    var x, y := Parts(a.payload), Parts(b.payload);
    assert x[1..][1..][1..][1..] == y[1..][1..][1..][1..];
    var rest := Join(x[1..][1..][1..][1..]);
    assert Join(x[1..][1..]) == "a/b" + "/" + ("c" + "/" + rest) by {
      assert Join(x[1..][1..][1..]) == "c" + "/" + rest;
    }
    assert Join(y[1..][1..]) == "a" + "/" + ("b/c" + "/" + rest) by {
      assert Join(y[1..][1..][1..]) == "b/c" + "/" + rest;
    }
    assert Join(x[1..][1..]) == Join(y[1..][1..]);
    assert Join(x[1..]) == x[1] + "/" + Join(x[1..][1..]) && Join(y[1..]) == y[1] + "/" + Join(y[1..][1..]);
    assert a.payload.srcNode != b.payload.srcNode;
  }

  // ---- purging ----

  datatype Filter = Filter(user: Option<string>, srcNode: Option<string>, node: Option<string>, device: Option<Id>,
                           policyBefore: Option<int>, epochBefore: Option<int>)

  predicate Matches(f: Filter, e: Entry) {
    && (f.user.Some? ==> e.payload.user == f.user.value)
    && (f.srcNode.Some? ==> e.payload.srcNode == f.srcNode.value)
    && (f.node.Some? ==> e.payload.node == f.node.value)
    && (f.device.Some? ==> e.payload.device == f.device.value)
    && (f.policyBefore.Some? ==> e.payload.policyVersion < f.policyBefore.value)
    && (f.epochBefore.Some? ==> e.payload.authzEpoch < f.epochBefore.value)
  }

  function Remaining(entries: map<string, Entry>, f: Filter): map<string, Entry> {
    map k | k in entries && !Matches(f, entries[k]) :: entries[k]
  }

  // ---- the files ----

  function Appended(log: Option<seq<Block>>, b: Block, io: Io): Option<seq<Block>> {
    var blocks := if log.Some? then log.value else [];
    match io
    case Written => Some(blocks + [b])
    case NotSynced => Some(blocks + [b])
    case TornWrite => Some(blocks + [Torn])
    case CreatedOnly => Some(blocks)
    case NotOpened => log
  }

  /** decrypt: the records of the file, or None when it does not open. */
  function OpenLog(log: Option<seq<Block>>): Option<seq<Block>> {
    match log
    case None => Some([])
    case Some(blocks) => if |blocks| == 1 && blocks[0].Sealed? then Some(blocks) else None
  }

  function LoadedConsumed(log: Option<seq<Block>>): map<Id, Time> {
    if log.Some? && |log.value| == 1 && log.value[0].Sealed? then map[log.value[0].jti := log.value[0].at] else map[]
  }

  /** The persisted grant comes back unless it expired or is a SESSION grant. */
  function LoadedEntries(grant: Option<Entry>, now: Time): map<string, Entry> {
    if grant.Some? && grant.value.payload.scope != SessionScope && now < grant.value.expires && Key(grant.value) != ""
    then map[Key(grant.value) := grant.value]
    else map[]
  }

  // ---- one daemon as a state machine ----

  /** life counts the times NewCache succeeded; a daemon whose NewCache failed is down. */
  datatype Daemon = Daemon(up: bool, life: nat, entries: map<string, Entry>, consumed: map<Id, Time>, disk: Disk)

  function Stored(d: Daemon, e: Entry, io: Io): Daemon {
    if !d.up then d
    else d.(entries := d.entries[Key(e) := e],
            disk := if e.payload.scope != SessionScope && io == Written then d.disk.(grant := Some(e)) else d.disk)
  }

  function Checked(d: Daemon, key: string, now: Time): Option<Entry> {
    if && d.up && key in d.entries && now <= d.entries[key].expires
       && !d.entries[key].consumed && d.entries[key].jti !in d.consumed
    then Some(d.entries[key])
    else None
  }

  /** Every check of Consume before it marks the grant. */
  predicate Consumable(d: Daemon, key: string, jti: Id, remote: Remote, now: Time) {
    && d.up && key in d.entries
    && (remote == Unset || remote == Answered(true))
    && jti !in d.consumed
    && !d.entries[key].consumed
    && d.entries[key].jti == jti
    && now <= d.entries[key].expires
  }

  /** Marking comes first; a SESSION grant is not persisted. */
  function Marked(d: Daemon, key: string, jti: Id, now: Time, io: Io): Daemon
    requires key in d.entries
  {
    d.(entries := d.entries[key := d.entries[key].(consumed := true)],
       consumed := d.consumed[jti := now],
       disk := if d.entries[key].payload.scope == SessionScope then d.disk
               else d.disk.(log := Appended(d.disk.log, Sealed(jti, now), io)))
  }

  function Consumed(d: Daemon, key: string, jti: Id, remote: Remote, now: Time, io: Io): Daemon {
    if Consumable(d, key, jti, remote, now) then Marked(d, key, jti, now, io) else d
  }

  /** Consume returns the entry. */
  predicate Succeeds(d: Daemon, key: string, jti: Id, remote: Remote, now: Time, io: Io) {
    Consumable(d, key, jti, remote, now) && (d.entries[key].payload.scope == SessionScope || io == Written)
  }

  /** NewCache on what the disk holds: memory is whatever the files give back. */
  function Restarted(d: Daemon, now: Time): Daemon {
    if OpenLog(d.disk.log).None? then Daemon(false, d.life, map[], map[], d.disk)
    else Daemon(true, d.life + 1, LoadedEntries(d.disk.grant, now), LoadedConsumed(d.disk.log), d.disk)
  }

  datatype Event =
    | Store(entry: Entry, io: Io)
    | Purge(filter: Filter)
    | Check(key: string, now: Time)
    | Consume(key: string, jti: Id, remote: Remote, now: Time, io: Io)
    | Restart(now: Time)

  function Next(d: Daemon, e: Event): Daemon {
    match e
    case Store(entry, io) => Stored(d, entry, io)
    case Purge(filter) => d.(entries := Remaining(d.entries, filter))
    case Check(_, _) => d
    case Consume(key, jti, remote, now, io) => Consumed(d, key, jti, remote, now, io)
    case Restart(now) => Restarted(d, now)
  }

  /** A successful consumption. */
  datatype Use = Use(jti: Id, scope: Scope, life: nat)

  function UsesOf(d: Daemon, e: Event): seq<Use> {
    if e.Consume? && Succeeds(d, e.key, e.jti, e.remote, e.now, e.io)
    then [Use(e.jti, d.entries[e.key].payload.scope, d.life)]
    else []
  }

  function Run(d: Daemon, es: seq<Event>): Daemon
    decreases es
  {
    if es == [] then d else Run(Next(d, es[0]), es[1..])
  }

  function Uses(d: Daemon, es: seq<Event>): seq<Use>
    decreases es
  {
    if es == [] then [] else UsesOf(d, es[0]) + Uses(Next(d, es[0]), es[1..])
  }

  /** A machine on which the daemon has never run. */
  const FRESH: Daemon := Daemon(false, 0, map[], map[], BLANK)

  // ---- crash-safe single use ----

  ghost predicate Logged(log: Option<seq<Block>>, jti: Id) {
    log.Some? && exists b :: b in log.value && b.Sealed? && b.jti == jti
  }

  /** A past consumption is in the log unless it was a SESSION grant, and in memory unless it
      was a SESSION grant of an earlier life. */
  ghost predicate Remembered(d: Daemon, u: Use) {
    && u.life <= d.life
    && (u.scope != SessionScope ==> Logged(d.disk.log, u.jti))
    && (d.up && (u.scope != SessionScope || u.life == d.life) ==> u.jti in d.consumed)
  }

  ghost predicate AllRemembered(d: Daemon, past: seq<Use>) {
    forall i :: 0 <= i < |past| ==> Remembered(d, past[i])
  }

  /** Repeating a grant id takes a SESSION grant and a restart in between. */
  ghost predicate UsedOnce(past: seq<Use>) {
    forall i, j :: 0 <= i < j < |past| && past[i].jti == past[j].jti ==>
      past[i].scope == SessionScope && past[i].life < past[j].life
  }

  lemma StepRemembers(d: Daemon, e: Event, u: Use)
    requires Remembered(d, u)
    ensures Remembered(Next(d, e), u)
  {
  }

  lemma StepKeepsOnce(d: Daemon, e: Event, past: seq<Use>)
    requires AllRemembered(d, past) && UsedOnce(past)
    ensures AllRemembered(Next(d, e), past + UsesOf(d, e)) && UsedOnce(past + UsesOf(d, e))
  {
  }

  lemma {:induction false} RunKeepsOnce(d: Daemon, es: seq<Event>, past: seq<Use>)
    requires AllRemembered(d, past) && UsedOnce(past)
    ensures AllRemembered(Run(d, es), past + Uses(d, es)) && UsedOnce(past + Uses(d, es))
    decreases es
  {
    if es == [] {
      assert past + [] == past;
    } else {
      StepKeepsOnce(d, es[0], past);
      RunKeepsOnce(Next(d, es[0]), es[1..], past + UsesOf(d, es[0]));
      assert past + UsesOf(d, es[0]) + Uses(Next(d, es[0]), es[1..]) == past + Uses(d, es);
    }
  }

  /** Crash-safe single use: over any run on one machine, with restarts anywhere and file
      operations failing anywhere, no non-SESSION grant id is consumed twice, and a SESSION one
      only again after a restart. */
  lemma SingleUse(es: seq<Event>)
    ensures UsedOnce(Uses(FRESH, es))
  {
    RunKeepsOnce(FRESH, es, []);
    assert [] + Uses(FRESH, es) == Uses(FRESH, es);
  }

  /** Check never offers a grant already consumed, save a SESSION grant of an earlier life. */
  lemma CheckOffersUnused(es: seq<Event>, key: string, now: Time, u: Use)
    requires Checked(Run(FRESH, es), key, now).Some? && u in Uses(FRESH, es)
    requires u.jti == Checked(Run(FRESH, es), key, now).value.jti
    ensures u.scope == SessionScope && u.life < Run(FRESH, es).life
  {
    RunKeepsOnce(FRESH, es, []);
    assert [] + Uses(FRESH, es) == Uses(FRESH, es);
    assert Remembered(Run(FRESH, es), u);
  }

  /** Whenever NewCache succeeds it has forgotten no successful non-SESSION consumption. */
  lemma RestartForgetsNothing(es: seq<Event>, now: Time, u: Use)
    requires Restarted(Run(FRESH, es), now).up && u in Uses(FRESH, es) && u.scope != SessionScope
    ensures u.jti in Restarted(Run(FRESH, es), now).consumed
  {
    RunKeepsOnce(FRESH, es, []);
    assert [] + Uses(FRESH, es) == Uses(FRESH, es);
    assert Remembered(Run(FRESH, es), u);
    StepRemembers(Run(FRESH, es), Restart(now), u);
  }

  // ---- what the cache does give ----

  /** Check and Consume agree: consuming succeeds exactly when Check would offer this very grant, the
      service did not refuse it, and the record, if one is due, was written. */
  lemma ConsumeSucceedsIff(d: Daemon, key: string, jti: Id, remote: Remote, now: Time, io: Io)
    ensures Succeeds(d, key, jti, remote, now, io) <==>
              && Checked(d, key, now).Some? && Checked(d, key, now).value.jti == jti
              && (remote == Unset || remote == Answered(true))
              && (Checked(d, key, now).value.payload.scope == SessionScope || io == Written)
  {
  }

  /** A grant just stored is offered under its key exactly while it has not expired, unless it or its id
      was used; under every other key nothing changes. */
  lemma StoredIsOffered(d: Daemon, e: Entry, io: Io, now: Time, other: string)
    requires d.up
    ensures var t := Stored(d, e, io);
            && Checked(t, Key(e), now) ==
                 (if now <= e.expires && !e.consumed && e.jti !in d.consumed then Some(e) else None)
            && (other != Key(e) ==> Checked(t, other, now) == Checked(d, other, now))
  {
  }

  /** The grant is in the cache, and its id unused. */
  ghost predicate Holding(d: Daemon, e: Entry) {
    d.up && Key(e) in d.entries && d.entries[Key(e)] == e && e.jti !in d.consumed
  }

  /** The step neither replaces, purges nor consumes the grant, and is no restart. */
  predicate Leaves(ev: Event, e: Entry) {
    match ev
    case Store(entry, _) => Key(entry) != Key(e)
    case Purge(filter) => !Matches(filter, e)
    case Check(_, _) => true
    case Consume(key, jti, _, _, _) => key != Key(e) && jti != e.jti
    case Restart(_) => false
  }

  /** So it stays on offer until it expires. */
  lemma {:induction false} OfferedThroughout(d: Daemon, es: seq<Event>, e: Entry, now: Time)
    requires Holding(d, e) && !e.consumed && forall i :: 0 <= i < |es| ==> Leaves(es[i], e)
    ensures Checked(Run(d, es), Key(e), now) == if now <= e.expires then Some(e) else None
    decreases es
  {
    if es != [] {
      assert Leaves(es[0], e);
      assert Holding(Next(d, es[0]), e);
      OfferedThroughout(Next(d, es[0]), es[1..], e, now);
    }
  }

  /** A use, even one whose record could not be written, ends the offer under every key; any other attempt
      changes nothing. */
  lemma UseEndsOffer(d: Daemon, key: string, jti: Id, remote: Remote, now: Time, io: Io, other: string, later: Time)
    ensures var t := Consumed(d, key, jti, remote, now, io);
            if Consumable(d, key, jti, remote, now) then
              && jti in t.consumed
              && (Checked(t, other, later).Some? ==> Checked(t, other, later).value.jti != jti)
              && (other != key && Checked(d, other, later).Some? && Checked(d, other, later).value.jti != jti ==>
                    Checked(t, other, later) == Checked(d, other, later))
            else t == d
  {
  }

  /** A purge leaves a grant exactly when some criterion it names is not met by the grant; it forgets
      nothing that was consumed and touches no file. */
  lemma PurgeLeavesIff(d: Daemon, f: Filter, key: string)
    ensures var t := Next(d, Purge(f));
            && (key in t.entries ==> key in d.entries && t.entries[key] == d.entries[key])
            && t.consumed == d.consumed && t.disk == d.disk && t.up == d.up
            && (key in d.entries ==>
                  (key in t.entries <==>
                     var p := d.entries[key].payload;
                     || (f.user.Some? && f.user.value != p.user)
                     || (f.srcNode.Some? && f.srcNode.value != p.srcNode)
                     || (f.node.Some? && f.node.value != p.node)
                     || (f.device.Some? && f.device.value != p.device)
                     || (f.policyBefore.Some? && f.policyBefore.value <= p.policyVersion)
                     || (f.epochBefore.Some? && f.epochBefore.value <= p.authzEpoch)))
  {
  }

  /** A persisted grant that was not used is offered again after a restart that succeeds, if it has not
      expired. */
  lemma StoredSurvivesRestart(d: Daemon, e: Entry, now: Time, later: Time)
    requires d.up && e.payload.scope != SessionScope && !e.consumed && now < e.expires && later <= e.expires
    requires Restarted(d, now).up && e.jti !in Restarted(d, now).consumed
    ensures Checked(Restarted(Stored(d, e, Written), now), Key(e), later) == Some(e)
  {
    KeyIsNotEmpty(e);
  }

  /** The last grant written is the only one on disk, and no SESSION grant ever is. */
  lemma {:induction false} SessionNeverOnDisk(d: Daemon, es: seq<Event>)
    requires d.disk.grant.Some? ==> d.disk.grant.value.payload.scope != SessionScope
    ensures var g := Run(d, es).disk.grant; g.Some? ==> g.value.payload.scope != SessionScope
    ensures var t := Run(d, es); forall now, k :: k in Restarted(t, now).entries ==>
              Restarted(t, now).entries[k].payload.scope != SessionScope
    decreases es
  {
    if es != [] {
      SessionNeverOnDisk(Next(d, es[0]), es[1..]);
    }
  }

  // ---- what a restart needs ----

  /** An attempt to append to the consumed log, and how far the file operation got. */
  datatype Attempt = Attempt(jti: Id, at: Time, io: Io)

  function AttemptsOf(d: Daemon, e: Event): seq<Attempt> {
    if && e.Consume? && Consumable(d, e.key, e.jti, e.remote, e.now)
       && d.entries[e.key].payload.scope != SessionScope
    then [Attempt(e.jti, e.now, e.io)]
    else []
  }

  /** The attempts of a run. */
  function Attempts(d: Daemon, es: seq<Event>): seq<Attempt>
    decreases es
  {
    if es == [] then [] else AttemptsOf(d, es[0]) + Attempts(Next(d, es[0]), es[1..])
  }

  /** The file they leave. */
  function Replayed(log: Option<seq<Block>>, attempts: seq<Attempt>): Option<seq<Block>>
    decreases attempts
  {
    if attempts == [] then log
    else Replayed(Appended(log, Sealed(attempts[0].jti, attempts[0].at), attempts[0].io), attempts[1..])
  }

  lemma {:induction false} RunReplays(d: Daemon, es: seq<Event>)
    ensures Run(d, es).disk.log == Replayed(d.disk.log, Attempts(d, es))
    decreases es
  {
    if es != [] {
      var now, rest := AttemptsOf(d, es[0]), Attempts(Next(d, es[0]), es[1..]);
      RunReplays(Next(d, es[0]), es[1..]);
      if now == [] {
        assert now + rest == rest;
      } else {
        assert (now + rest)[1..] == rest;
      }
    }
  }

  /** The attempts that left a whole record, synced or not. */
  function Whole(attempts: seq<Attempt>): nat {
    if attempts == [] then 0
    else (if attempts[0].io == Written || attempts[0].io == NotSynced then 1 else 0) + Whole(attempts[1..])
  }

  /** The attempts that left part of one. */
  function Broken(attempts: seq<Attempt>): nat {
    if attempts == [] then 0 else (if attempts[0].io == TornWrite then 1 else 0) + Broken(attempts[1..])
  }

  ghost predicate NoneOpened(attempts: seq<Attempt>) {
    forall i :: 0 <= i < |attempts| ==> attempts[i].io == NotOpened
  }

  function BlocksOf(log: Option<seq<Block>>): seq<Block> {
    if log.Some? then log.value else []
  }

  ghost predicate AllSealed(blocks: seq<Block>) {
    forall i :: 0 <= i < |blocks| ==> blocks[i].Sealed?
  }

  lemma AppendedIs(log: Option<seq<Block>>, b: Block, io: Io)
    requires b.Sealed?
    ensures var after := Appended(log, b, io);
            && (after.None? <==> log.None? && io == NotOpened)
            && |BlocksOf(after)| ==
               |BlocksOf(log)| + (if io == Written || io == NotSynced || io == TornWrite then 1 else 0)
            && (AllSealed(BlocksOf(after)) <==> AllSealed(BlocksOf(log)) && io != TornWrite)
  {
    var before, after := BlocksOf(log), BlocksOf(Appended(log, b, io));
    assert forall i :: 0 <= i < |before| ==> after[i] == before[i];
    if io == TornWrite {
      assert after[|before|] == Torn;
    }
  }

  /** There is no file exactly when none could be opened; otherwise it holds one block for each whole or
      broken record, and all are whole exactly when none broke. */
  lemma {:induction false} ReplayedIs(log: Option<seq<Block>>, attempts: seq<Attempt>)
    ensures var after := Replayed(log, attempts);
            && (after.None? <==> log.None? && NoneOpened(attempts))
            && |BlocksOf(after)| == |BlocksOf(log)| + Whole(attempts) + Broken(attempts)
            && (AllSealed(BlocksOf(after)) <==> AllSealed(BlocksOf(log)) && Broken(attempts) == 0)
    decreases attempts
  {
    if attempts != [] {
      var b := Sealed(attempts[0].jti, attempts[0].at);
      AppendedIs(log, b, attempts[0].io);
      ReplayedIs(Appended(log, b, attempts[0].io), attempts[1..]);
      assert NoneOpened(attempts) <==> attempts[0].io == NotOpened && NoneOpened(attempts[1..]);
    }
  }

  /** Records are sealed one by one but the log is opened as one ciphertext. Over any run, with writes
      failing anywhere, NewCache succeeds if and only if the log file was never opened, or exactly one
      append left a whole record and none left part of one. */
  lemma RestartSucceedsIff(es: seq<Event>, now: Time)
    ensures var attempts := Attempts(FRESH, es);
            Restarted(Run(FRESH, es), now).up <==>
              NoneOpened(attempts) || (Whole(attempts) == 1 && Broken(attempts) == 0)
  {
    var attempts := Attempts(FRESH, es);
    RunReplays(FRESH, es);
    ReplayedIs(None, attempts);
    if NoneOpened(attempts) {
      NoneOpenedIsEmpty(attempts);
    }
  }

  lemma {:induction false} NoneOpenedIsEmpty(attempts: seq<Attempt>)
    requires NoneOpened(attempts)
    ensures Whole(attempts) == 0 && Broken(attempts) == 0
  {
    if attempts != [] {
      NoneOpenedIsEmpty(attempts[1..]);
    }
  }

  // ---- in terms of the consumptions ----

  /** The successful consumptions of grants that are not SESSION grants. */
  function Persisted(us: seq<Use>): nat {
    if us == [] then 0 else (if us[0].scope != SessionScope then 1 else 0) + Persisted(us[1..])
  }

  lemma PersistedAppend(a: seq<Use>, b: seq<Use>)
    requires |a| <= 1
    ensures Persisted(a + b) == Persisted(a) + Persisted(b)
  {
    if a == [] {
      assert a + b == b;
    } else {
      assert (a + b)[1..] == b && a[1..] == [];
    }
  }

  lemma WholeAppend(a: seq<Attempt>, b: seq<Attempt>)
    requires |a| <= 1
    ensures Whole(a + b) == Whole(a) + Whole(b)
  {
    if a == [] {
      assert a + b == b;
    } else {
      assert (a + b)[1..] == b && a[1..] == [];
    }
  }

  /** No write to the consumed log fails. */
  ghost predicate AllWritten(es: seq<Event>) {
    forall i :: 0 <= i < |es| && es[i].Consume? ==> es[i].io == Written
  }

  /** A persisted consumption left a whole record; if no write fails, nothing else was attempted. */
  lemma {:induction false} PersistedIsWhole(d: Daemon, es: seq<Event>)
    ensures Whole(Attempts(d, es)) >= Persisted(Uses(d, es))
    ensures AllWritten(es) ==> Whole(Attempts(d, es)) == Persisted(Uses(d, es)) == |Attempts(d, es)|
    ensures AllWritten(es) ==> forall i :: 0 <= i < |Attempts(d, es)| ==> Attempts(d, es)[i].io == Written
    decreases es
  {
    if es != [] {
      PersistedIsWhole(Next(d, es[0]), es[1..]);
      PersistedAppend(UsesOf(d, es[0]), Uses(Next(d, es[0]), es[1..]));
      WholeAppend(AttemptsOf(d, es[0]), Attempts(Next(d, es[0]), es[1..]));
      assert AllWritten(es) ==> AllWritten(es[1..]) && (es[0].Consume? ==> es[0].io == Written);
    }
  }

  lemma {:induction false} WrittenIsUnbroken(attempts: seq<Attempt>)
    requires forall i :: 0 <= i < |attempts| ==> attempts[i].io == Written
    ensures Broken(attempts) == 0
  {
    if attempts != [] {
      WrittenIsUnbroken(attempts[1..]);
    }
  }

  /** While every write succeeds, NewCache succeeds exactly when at most one consumption was persisted. */
  lemma RestartAfterGoodWrites(es: seq<Event>, now: Time)
    requires AllWritten(es)
    ensures Restarted(Run(FRESH, es), now).up <==> Persisted(Uses(FRESH, es)) <= 1
  {
    PersistedIsWhole(FRESH, es);
    WrittenIsUnbroken(Attempts(FRESH, es));
    RestartSucceedsIff(es, now);
  }

  /** Whatever the writes did, after two persisted consumptions the daemon can never start again. */
  lemma SecondUseBlocksRestart(es: seq<Event>, now: Time)
    requires Persisted(Uses(FRESH, es)) >= 2
    ensures !Restarted(Run(FRESH, es), now).up
  {
    PersistedIsWhole(FRESH, es);
    RestartSucceedsIff(es, now);
    if NoneOpened(Attempts(FRESH, es)) {
      NoneOpenedIsEmpty(Attempts(FRESH, es));
    }
  }

  // ---- daemons that do not come back ----

  /** A grant that is persisted, unused and good until after the times used below. */
  ghost predicate Ordinary(e: Entry) {
    e.payload.scope != SessionScope && !e.consumed && 2 <= e.expires
  }

  function StoreAndUse(e: Entry, now: Time, io: Io): seq<Event> {
    [Store(e, Written), Consume(Key(e), e.jti, Unset, now, io)]
  }

  /** Whatever the daemon, storing an ordinary grant it has not seen used and consuming it. */
  lemma StoreAndUseRuns(d: Daemon, e: Entry, now: Time, io: Io)
    requires d.up && Ordinary(e) && now <= 2 && e.jti !in d.consumed
    ensures var t := Run(d, StoreAndUse(e, now, io));
            && t.up && t.consumed == d.consumed[e.jti := now]
            && t.disk.log == Appended(d.disk.log, Sealed(e.jti, now), io)
    ensures Uses(d, StoreAndUse(e, now, io)) == if io == Written then [Use(e.jti, e.payload.scope, d.life)] else []
  {
    var es := StoreAndUse(e, now, io);
    var d1 := Next(d, es[0]);
    assert es[1..] == [es[1]] && [es[1]][1..] == [];
    assert d1.entries[Key(e)] == e && Consumable(d1, Key(e), e.jti, Unset, now);
    assert Run(d1, [es[1]]) == Next(d1, es[1]) && Uses(d1, [es[1]]) == UsesOf(d1, es[1]);
    assert Run(d, es) == Run(d1, [es[1]]) && Uses(d, es) == UsesOf(d, es[0]) + Uses(d1, [es[1]]);
  }

  lemma {:induction false} RunSplit(d: Daemon, es: seq<Event>, more: seq<Event>)
    ensures Run(d, es + more) == Run(Run(d, es), more)
    ensures Uses(d, es + more) == Uses(d, es) + Uses(Run(d, es), more)
    decreases es
  {
    if es == [] {
      assert es + more == more;
    } else {
      assert (es + more)[0] == es[0] && (es + more)[1..] == es[1..] + more;
      RunSplit(Next(d, es[0]), es[1..], more);
    }
  }

  lemma StartRuns()
    ensures var d := Run(FRESH, [Restart(0)]); d.up && d.life == 1 && d.consumed == map[] && d.disk == BLANK
    ensures Uses(FRESH, [Restart(0)]) == []
  {
    assert [Restart(0)][1..] == [];
  }

  /** A write that stops after creating the file: nothing was consumed successfully, and the daemon
      still does not come back. */
  lemma CreatedOnlyBlocksRestart(e: Entry, now: Time)
    requires Ordinary(e)
    ensures var es := [Restart(0)] + StoreAndUse(e, 1, CreatedOnly);
            Uses(FRESH, es) == [] && Run(FRESH, es).up && !Restarted(Run(FRESH, es), now).up
  {
    StartRuns();
    RunSplit(FRESH, [Restart(0)], StoreAndUse(e, 1, CreatedOnly));
    StoreAndUseRuns(Run(FRESH, [Restart(0)]), e, 1, CreatedOnly);
  }

  /** Two ordinary grants consumed without any failure: the daemon is up, and does not come back. */
  lemma TwoUsesBlockRestart(a: Entry, b: Entry, now: Time)
    requires Ordinary(a) && Ordinary(b) && a.jti != b.jti
    ensures var es := [Restart(0)] + StoreAndUse(a, 1, Written) + StoreAndUse(b, 2, Written);
            Run(FRESH, es).up && |Uses(FRESH, es)| == 2 && !Restarted(Run(FRESH, es), now).up
  {
    var first, second := StoreAndUse(a, 1, Written), StoreAndUse(b, 2, Written);
    StartRuns();
    RunSplit(FRESH, [Restart(0)], first);
    StoreAndUseRuns(Run(FRESH, [Restart(0)]), a, 1, Written);
    RunSplit(FRESH, [Restart(0)] + first, second);
    StoreAndUseRuns(Run(FRESH, [Restart(0)] + first), b, 2, Written);
  }

  // ---- the cache object ----

  class Cache {
    var entries: map<string, Entry>
    var consumedJtis: map<Id, Time>
    var disk: Disk
    var up: bool
    ghost var life: nat

    ghost function Abstract(): Daemon
      reads this
    {
      Daemon(up, life, entries, consumedJtis, disk)
    }

    constructor ()
      ensures Abstract() == FRESH
    {
      entries, consumedJtis, disk, up, life := map[], map[], BLANK, false, 0;
    }

    /** NewCache over the files of this machine; ok == false is its error. */
    method Open(now: Time) returns (ok: bool)
      modifies this
      ensures Abstract() == Restarted(old(Abstract()), now)
      ensures ok == up
    {
      entries, consumedJtis, up := map[], map[], false;
      var file := OpenLog(disk.log);
      if file.None? {
        return false;
      }
      var records := file.value;
      var i := 0;
      while i < |records|
        invariant 0 <= i <= |records| <= 1
        invariant entries == map[] && disk == old(disk) && life == old(life) && !up
        invariant consumedJtis == if i == 0 then map[] else map[records[0].jti := records[0].at]
      {
        consumedJtis := consumedJtis[records[i].jti := records[i].at];
        i := i + 1;
      }
      if disk.grant.Some? && disk.grant.value.payload.scope != SessionScope {
        if now < disk.grant.value.expires {
          var key := Key(disk.grant.value);
          if key != "" {
            entries := entries[key := disk.grant.value];
          }
        }
      }
      up, life := true, life + 1;
      return true;
    }

    method Store(entry: Entry, io: Io) returns (ok: bool)
      requires up
      modifies this`entries, this`disk
      ensures Abstract() == Stored(old(Abstract()), entry, io)
      ensures ok == (entry.payload.scope == SessionScope || io == Written)
    {
      var key := Key(entry);
      entries := entries[key := entry];
      if entry.payload.scope == SessionScope {
        return true;
      }
      if io == Written {
        disk := disk.(grant := Some(entry));
      }
      return io == Written;
    }

    method Check(key: string, now: Time) returns (r: Option<Entry>)
      requires up
      ensures r == Checked(Abstract(), key, now)
    {
      if key !in entries {
        return None;
      }
      var entry := entries[key];
      if now > entry.expires {
        return None;
      }
      if entry.consumed {
        return None;
      }
      if entry.jti in consumedJtis {
        return None;
      }
      return Some(entry);
    }

    /** The remote answer is a parameter; it is asked for after the lookup and before anything
        is checked locally. */
    method Consume(key: string, jti: Id, remote: Remote, now: Time, io: Io) returns (r: Option<Entry>)
      requires up
      modifies this`entries, this`consumedJtis, this`disk
      ensures Abstract() == Consumed(old(Abstract()), key, jti, remote, now, io)
      ensures r.Some? == old(Succeeds(Abstract(), key, jti, remote, now, io))
      ensures r.Some? ==> r.value == old(entries)[key].(consumed := true)
    {
      if key !in entries {
        return None;
      }
      var entry := entries[key];
      if remote != Unset && remote != Answered(true) {
        return None;
      }
      if jti in consumedJtis {
        return None;
      }
      if entry.consumed {
        return None;
      }
      if entry.jti != jti {
        return None;
      }
      if now > entry.expires {
        return None;
      }
      entry := entry.(consumed := true);
      entries := entries[key := entry];
      consumedJtis := consumedJtis[entry.jti := now];
      if entry.payload.scope != SessionScope {
        disk := disk.(log := Appended(disk.log, Sealed(entry.jti, now), io));
        if io != Written {
          return None;
        }
      }
      return Some(entry);
    }

    method Purge(f: Filter) returns (purged: nat)
      modifies this`entries
      ensures Abstract() == Next(old(Abstract()), Event.Purge(f))
      ensures purged == |set k | k in old(entries) && Matches(f, old(entries)[k])|
    {
      purged := 0;
      var rest := entries.Keys;
      ghost var gone: set<string> := {};
      while rest != {}
        invariant rest <= old(entries).Keys && gone !! rest
        invariant gone == set k | k in old(entries) && k !in rest && Matches(f, old(entries)[k])
        invariant purged == |gone|
        invariant entries == old(entries) - gone
        decreases rest
      {
        var k :| k in rest;
        rest := rest - {k};
        if Matches(f, entries[k]) {
          entries := entries - {k};
          gone := gone + {k};
          purged := purged + 1;
        }
      }
      assert gone == set k | k in old(entries) && Matches(f, old(entries)[k]);
      assert entries == Remaining(old(entries), f);
    }
  }
}
