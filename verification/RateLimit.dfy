/** Token buckets: how many requests any window of time can admit. Time is in nanoseconds and the
    refill is the exact integer floor of elapsed * rate / period. */
module RateLimit {
  import opened Base

  const MINUTE: Time := 60 * SECOND

  datatype Bucket = Bucket(tokens: int, last: Time)

  /** The levels of the hierarchy, in the order they are charged. */
  datatype Level = Global | Tenant | User | SrcNode | ProtectedNode | DevicePrompt

  /** A bucket name: the fixed prefix of its level and the ids joined after it. */
  datatype Key = Key(level: Level, subject: string)

  type Buckets = map<Key, Bucket>

  datatype Config = Config(enabled: bool, perUser: int, perSrcNode: int, perProtectedNode: int,
                           perTenant: int, perGlobal: int, promptsPerDevice: int)

  datatype Request = Request(tenant: string, user: string, srcNode: string, node: string, device: string)

  function RateOf(c: Config, level: Level): int {
    match level
    case Global => c.perGlobal
    case Tenant => c.perTenant
    case User => c.perUser
    case SrcNode => c.perSrcNode
    case ProtectedNode => c.perProtectedNode
    case DevicePrompt => c.promptsPerDevice
  }

  function KeyAt(r: Request, level: Level): Key {
    match level
    case Global => Key(Global, "")
    case Tenant => Key(Tenant, r.tenant)
    case User => Key(User, r.tenant + ":" + r.user)
    case SrcNode => Key(SrcNode, r.tenant + ":" + r.srcNode)
    case ProtectedNode => Key(ProtectedNode, r.tenant + ":" + r.node)
    case DevicePrompt => Key(DevicePrompt, r.tenant + ":" + r.device)
  }

  const LEVELS: seq<Level> := [Global, Tenant, User, SrcNode, ProtectedNode, DevicePrompt]

  // ---- one bucket ----

  function Refill(b: Bucket, rate: int, burst: int, period: Time, now: Time): Bucket
    requires period > 0
  {
    var add := (now - b.last) * rate / period;
    if add > 0 then Bucket(if b.tokens + add > burst then burst else b.tokens + add, now) else b
  }

  /** The bucket a call finds, topped up. */
  function Found(b: Option<Bucket>, rate: int, burst: int, period: Time, now: Time): Bucket
    requires period > 0
  {
    Refill(if b.Some? then b.value else Bucket(burst, now), rate, burst, period, now)
  }

  predicate Allowed(b: Option<Bucket>, rate: int, burst: int, period: Time, now: Time)
    requires period > 0
  {
    Found(b, rate, burst, period, now).tokens > 0
  }

  function Charged(b: Option<Bucket>, rate: int, burst: int, period: Time, now: Time): Bucket
    requires period > 0
  {
    var f := Found(b, rate, burst, period, now);
    if f.tokens > 0 then f.(tokens := f.tokens - 1) else f
  }

  function Lookup(bs: Buckets, key: Key): Option<Bucket> {
    if key in bs then Some(bs[key]) else None
  }

  // ---- the window invariant ----

  /** The limit parameters of a bucket and the window being counted. */
  datatype Window = Window(rate: nat, burst: nat, period: Time, from: Time, to: Time)

  ghost predicate Sane(w: Window) {
    w.period > 0 && w.from <= w.to
  }

  /** The bound: fewer than burst + 1 plus what the window's length refills. */
  ghost predicate Within(w: Window, admitted: nat) {
    admitted * w.period < (w.burst + 1) * w.period + (w.to - w.from) * w.rate
  }

  /** What the bucket can still give, against what the window has taken: once refilled inside the
      window, taken and left are paid for by the time since its start; before that they are at most
      one burst, and less than one token has accrued unseen. */
  ghost predicate Paid(w: Window, b: Bucket, admitted: nat) {
    if b.last >= w.from then
      (admitted + b.tokens) * w.period < (w.burst + 1) * w.period + (b.last - w.from) * w.rate
    else
      admitted + b.tokens <= w.burst && (admitted > 0 ==> (w.from - b.last) * w.rate < w.period)
  }

  ghost predicate Tracked(w: Window, b: Option<Bucket>, admitted: nat, clock: Time) {
    && (clock < w.from || b.None? ==> admitted == 0)
    && (b.Some? ==> 0 <= b.value.tokens <= w.burst && b.value.last <= clock && Paid(w, b.value, admitted))
    && Within(w, admitted)
  }

  lemma MulLe(a: int, b: int, r: nat)
    requires a <= b
    ensures a * r <= b * r
  {
  }

  lemma FloorBounds(n: int, p: int)
    requires p > 0
    ensures n / p * p <= n < (n / p + 1) * p
  {
    assert n == n / p * p + n % p;
  }

  /** A refill inside the window is paid for by the time it covers. */
  lemma RefillIsPaid(w: Window, b: Bucket, admitted: nat, now: Time, add: int)
    requires Sane(w) && Paid(w, b, admitted) && 0 <= b.tokens <= w.burst
    requires now >= w.from && b.last <= now && add > 0 && add * w.period <= (now - b.last) * w.rate
    ensures admitted > 0 || b.last >= w.from ==>
              (admitted + b.tokens + add) * w.period < (w.burst + 1) * w.period + (now - w.from) * w.rate
  {
    var taken := admitted + b.tokens;
    assert (taken + add) * w.period == taken * w.period + add * w.period;
    if b.last >= w.from {
      assert (now - w.from) * w.rate == (now - b.last) * w.rate + (b.last - w.from) * w.rate;
    } else if admitted > 0 {
      assert (now - b.last) * w.rate == (now - w.from) * w.rate + (w.from - b.last) * w.rate;
      MulLe(taken, w.burst, w.period);
      assert (w.burst + 1) * w.period == w.burst * w.period + w.period;
    }
  }

  /** Topping up keeps the account in order. */
  lemma RefillKeeps(w: Window, b: Bucket, admitted: nat, now: Time)
    requires Sane(w) && Paid(w, b, admitted) && 0 <= b.tokens <= w.burst && b.last <= now
    requires now < w.from ==> admitted == 0
    ensures var f := Refill(b, w.rate, w.burst, w.period, now);
            && 0 <= f.tokens <= w.burst && f.last <= now
            && Paid(w, f, admitted)
            && (now >= w.from && f.last < w.from ==> (w.from - f.last) * w.rate < w.period)
  {
    var n := (now - b.last) * w.rate;
    var add := n / w.period;
    FloorBounds(n, w.period);
    var f := Refill(b, w.rate, w.burst, w.period, now);
    if add <= 0 {
      assert f == b;
      if now >= w.from && b.last < w.from {
        MulLe(w.from - b.last, now - b.last, w.rate);
        MulLe(add + 1, 1, w.period);
      }
    } else if now < w.from {
      assert f.last == now;
    } else {
      RefillIsPaid(w, b, admitted, now, add);
      MulLe(admitted + f.tokens, admitted + b.tokens + add, w.period);
      if admitted == 0 {
        MulLe(f.tokens, w.burst, w.period);
        MulLe(0, now - w.from, w.rate);
        assert (w.burst + 1) * w.period == w.burst * w.period + w.period;
      }
    }
  }

  /** The count of admissions so far, one more if this call is admitted inside the window. */
  ghost function Counted(w: Window, b: Option<Bucket>, admitted: nat, now: Time): nat
    requires w.period > 0
  {
    admitted + if w.from <= now <= w.to && Allowed(b, w.rate, w.burst, w.period, now) then 1 else 0
  }

  /** A new bucket starts full. */
  lemma FreshIsPaid(w: Window, now: Time)
    requires Sane(w)
    ensures Paid(w, Bucket(w.burst, now), 0)
    ensures Found(None, w.rate, w.burst, w.period, now) == Bucket(w.burst, now)
  {
    if now >= w.from {
      MulLe(0, now - w.from, w.rate);
      assert (w.burst + 1) * w.period == w.burst * w.period + w.period;
    }
    FloorBounds(0, w.period);
  }

  /** Every call keeps the account, whether it falls before, inside or after the window. */
  lemma ChargeKeeps(w: Window, b: Option<Bucket>, admitted: nat, clock: Time, now: Time)
    requires Sane(w) && Tracked(w, b, admitted, clock) && clock <= now
    ensures Tracked(w, Some(Charged(b, w.rate, w.burst, w.period, now)), Counted(w, b, admitted, now), now)
  {
    var f := Found(b, w.rate, w.burst, w.period, now);
    if b.None? {
      FreshIsPaid(w, now);
    } else {
      RefillKeeps(w, b.value, admitted, now);
    }
    assert Paid(w, f, admitted) && 0 <= f.tokens <= w.burst && f.last <= now;
    if f.tokens > 0 {
      TakeKeeps(w, f, admitted, now, if w.from <= now <= w.to then 1 else 0);
    }
  }

  /** Taking a token moves it from what is left to what was taken. */
  lemma TakeKeeps(w: Window, f: Bucket, admitted: nat, now: Time, one: nat)
    requires Sane(w) && Paid(w, f, admitted) && 0 < f.tokens <= w.burst && f.last <= now && Within(w, admitted)
    requires one <= 1 && (one == 1 ==> w.from <= now <= w.to)
    requires now < w.from ==> admitted == 0
    requires now >= w.from && f.last < w.from ==> (w.from - f.last) * w.rate < w.period
    ensures Paid(w, f.(tokens := f.tokens - 1), admitted + one) && Within(w, admitted + one)
  {
    MulLe(admitted + one + f.tokens - 1, admitted + f.tokens, w.period);
    if one == 1 {
      MulLe(0, w.to - w.from, w.rate);
      assert (w.burst + 1) * w.period == w.burst * w.period + w.period;
      if f.last >= w.from {
        MulLe(f.last - w.from, w.to - w.from, w.rate);
        MulLe(admitted + 1, admitted + f.tokens, w.period);
      } else {
        MulLe(admitted + 1, w.burst, w.period);
      }
    }
  }

  // ---- one bucket over a trace of calls ----

  ghost predicate Ordered(times: seq<Time>, clock: Time) {
    && (forall i :: 0 <= i < |times| ==> clock <= times[i])
    && (forall i, j :: 0 <= i < j < |times| ==> times[i] <= times[j])
  }

  /** The calls of a trace that are allowed inside the window. */
  ghost function AllowedIn(w: Window, b: Option<Bucket>, times: seq<Time>): nat
    requires w.period > 0
    decreases times
  {
    if times == [] then 0
    else Counted(w, b, 0, times[0]) + AllowedIn(w, Some(Charged(b, w.rate, w.burst, w.period, times[0])), times[1..])
  }

  lemma {:induction false} TraceIsTracked(w: Window, b: Option<Bucket>, times: seq<Time>, admitted: nat, clock: Time)
    requires Sane(w) && Ordered(times, clock) && Tracked(w, b, admitted, clock)
    ensures Within(w, admitted + AllowedIn(w, b, times))
    decreases times
  {
    if times != [] {
      ChargeKeeps(w, b, admitted, clock, times[0]);
      TraceIsTracked(w, Some(Charged(b, w.rate, w.burst, w.period, times[0])), times[1..],
                     Counted(w, b, admitted, times[0]), times[0]);
    }
  }

  /** For any rate, burst and period, any monotone trace of calls on one key and any window, the
      number A of calls allowed satisfies A * period < (burst + 1) * period + length * rate. */
  lemma AllowedIsBounded(w: Window, times: seq<Time>, clock: Time)
    requires Sane(w) && Ordered(times, clock)
    ensures AllowedIn(w, None, times) * w.period < (w.burst + 1) * w.period + (w.to - w.from) * w.rate
  {
    MulLe(0, w.to - w.from, w.rate);
    TraceIsTracked(w, None, times, 0, clock);
  }

  ghost function BucketAfter(rate: nat, burst: nat, period: Time, b: Option<Bucket>, times: seq<Time>): Option<Bucket>
    requires period > 0
    decreases times
  {
    if times == [] then b
    else BucketAfter(rate, burst, period, Some(Charged(b, rate, burst, period, times[0])), times[1..])
  }

  /** The bucket never holds less than nothing or more than its burst. */
  lemma {:induction false} TokensStayInRange(rate: nat, burst: nat, period: Time, b: Option<Bucket>, times: seq<Time>)
    requires period > 0 && (b.Some? ==> 0 <= b.value.tokens <= burst)
    ensures var e := BucketAfter(rate, burst, period, b, times); e.Some? ==> 0 <= e.value.tokens <= burst
    decreases times
  {
    if times != [] {
      var c := Charged(b, rate, burst, period, times[0]);
      assert 0 <= c.tokens <= burst;
      TokensStayInRange(rate, burst, period, Some(c), times[1..]);
    }
  }

  // ---- what a bucket gives back ----

  /** Left alone, a bucket regains the floor of what the time has earned, up to its burst; while that is
      less than a token, the time still counts for later. */
  lemma IdleRegains(b: Bucket, rate: nat, burst: nat, period: Time, now: Time)
    requires period > 0 && 0 <= b.tokens <= burst && b.last <= now
    ensures var earned := (now - b.last) * rate / period;
            var f := Found(Some(b), rate, burst, period, now);
            && earned >= 0
            && f.tokens == (if b.tokens + earned > burst then burst else b.tokens + earned)
            && f.last == (if earned > 0 then now else b.last)
  {
    MulLe(0, now - b.last, rate);
    FloorBounds((now - b.last) * rate, period);
  }

  /** A new bucket is full, a call is allowed exactly when a token is there, and takes one. */
  lemma ChargeTakesOne(b: Option<Bucket>, rate: nat, burst: nat, period: Time, now: Time)
    requires period > 0
    ensures Found(None, rate, burst, period, now) == Bucket(burst, now)
    ensures var f := Found(b, rate, burst, period, now);
            && (Allowed(b, rate, burst, period, now) <==> f.tokens >= 1)
            && Charged(b, rate, burst, period, now) ==
                 (if f.tokens >= 1 then Bucket(f.tokens - 1, f.last) else f)
  {
    FloorBounds(0, period);
  }

  /** Once the time has earned a token, the next call is allowed. */
  lemma EarnedIsAllowed(b: Bucket, rate: nat, burst: nat, period: Time, now: Time)
    requires period > 0 && burst > 0 && b.tokens >= 0 && (now - b.last) * rate >= period
    ensures Allowed(Some(b), rate, burst, period, now)
  {
    var n := (now - b.last) * rate;
    FloorBounds(n, period);
    if n / period <= 0 {
      MulLe(n / period + 1, 1, period);
    }
  }

  lemma {:induction false} BucketBehind(rate: nat, burst: nat, period: Time, b: Option<Bucket>, times: seq<Time>)
    requires period > 0 && times != [] && Ordered(times, times[0])
    requires b.Some? ==> 0 <= b.value.tokens <= burst && b.value.last <= times[0]
    ensures var e := BucketAfter(rate, burst, period, b, times);
            e.Some? && 0 <= e.value.tokens <= burst && e.value.last <= times[|times| - 1]
    decreases times
  {
    var c := Charged(b, rate, burst, period, times[0]);
    assert 0 <= c.tokens <= burst && c.last <= times[0];
    if |times| > 1 {
      BucketBehind(rate, burst, period, Some(c), times[1..]);
    } else {
      assert times[1..] == [];
    }
  }

  /** Over any trace of calls on one key, a call that comes at least period / rate after the one before it
      is allowed. */
  lemma SpacedCallIsAllowed(rate: nat, burst: nat, period: Time, times: seq<Time>, now: Time)
    requires period > 0 && burst > 0 && times != [] && Ordered(times, times[0])
    requires (now - times[|times| - 1]) * rate >= period
    ensures Allowed(BucketAfter(rate, burst, period, None, times), rate, burst, period, now)
  {
    BucketBehind(rate, burst, period, None, times);
    var b := BucketAfter(rate, burst, period, None, times).value;
    MulLe(now - times[|times| - 1], now - b.last, rate);
    EarnedIsAllowed(b, rate, burst, period, now);
  }

  /** Every call of the trace is allowed. */
  ghost predicate AllAllowed(rate: nat, burst: nat, period: Time, b: Option<Bucket>, times: seq<Time>)
    requires period > 0
    decreases times
  {
    times != [] ==>
      && Allowed(b, rate, burst, period, times[0])
      && AllAllowed(rate, burst, period, Some(Charged(b, rate, burst, period, times[0])), times[1..])
  }

  lemma {:induction false} TokensAllow(rate: nat, burst: nat, period: Time, b: Bucket, times: seq<Time>)
    requires period > 0 && |times| <= b.tokens <= burst
    ensures AllAllowed(rate, burst, period, Some(b), times)
    decreases times
  {
    if times != [] {
      var c := Charged(Some(b), rate, burst, period, times[0]);
      assert Allowed(Some(b), rate, burst, period, times[0]) && |times[1..]| <= c.tokens <= burst;
      TokensAllow(rate, burst, period, c, times[1..]);
    }
  }

  /** The first burst of calls on a key is allowed, however close together. */
  lemma FirstBurstIsAllowed(rate: nat, burst: nat, period: Time, times: seq<Time>)
    requires period > 0 && |times| <= burst
    ensures AllAllowed(rate, burst, period, None, times)
  {
    if times != [] {
      ChargeTakesOne(None, rate, burst, period, times[0]);
      TokensAllow(rate, burst, period, Bucket(burst - 1, times[0]), times[1..]);
    }
  }

  // ---- runs over the whole store ----

  /** A call to Allow. */
  datatype Call = Call(key: Key, now: Time)

  function Charge(c: Config, bs: Buckets, call: Call): Buckets {
    var rate := RateOf(c, call.key.level);
    bs[call.key := Charged(Lookup(bs, call.key), rate, rate, MINUTE, call.now)]
  }

  predicate Admits(c: Config, bs: Buckets, call: Call) {
    var rate := RateOf(c, call.key.level);
    Allowed(Lookup(bs, call.key), rate, rate, MINUTE, call.now)
  }

  /** CheckApprovalRate: charge level after level, stop at the first refusal. times[i] is when level
      i reads the clock. */
  function CheckFrom(c: Config, bs: Buckets, r: Request, times: seq<Time>, level: nat): (Buckets, bool)
    requires |times| == |LEVELS| && level <= |LEVELS|
    decreases |LEVELS| - level
  {
    if level == |LEVELS| then (bs, true)
    else
      var call := Call(KeyAt(r, LEVELS[level]), times[level]);
      if Admits(c, bs, call) then CheckFrom(c, Charge(c, bs, call), r, times, level + 1)
      else (Charge(c, bs, call), false)
  }

  lemma CheckUnfolds(c: Config, bs: Buckets, r: Request, times: seq<Time>, level: nat)
    requires |times| == |LEVELS| && level < |LEVELS|
    ensures var call := Call(KeyAt(r, LEVELS[level]), times[level]);
            CheckFrom(c, bs, r, times, level) ==
              if Admits(c, bs, call) then CheckFrom(c, Charge(c, bs, call), r, times, level + 1)
              else (Charge(c, bs, call), false)
  {
  }

  /** A checked request: who asks, and the clock readings of its levels. */
  datatype Check = Check(request: Request, times: seq<Time>)

  /** The clock never runs backwards. */
  ghost predicate Monotone(checks: seq<Check>, clock: Time)
    decreases checks
  {
    checks != [] ==>
      && |checks[0].times| == |LEVELS|
      && Ordered(checks[0].times, clock)
      && Monotone(checks[1..], checks[0].times[|LEVELS| - 1])
  }

  /** Where a level comes in the order of charging. */
  function IndexOf(level: Level): (i: nat)
    ensures i < |LEVELS| && LEVELS[i] == level
    ensures forall j :: 0 <= j < |LEVELS| && LEVELS[j] == level ==> j == i
  {
    match level
    case Global => 0
    case Tenant => 1
    case User => 2
    case SrcNode => 3
    case ProtectedNode => 4
    case DevicePrompt => 5
  }

  /** Accepted checks that charged a key, the clock reading of that charge inside the window. */
  ghost function AcceptedIn(c: Config, bs: Buckets, checks: seq<Check>, key: Key,
                            from: Time, to: Time, clock: Time): nat
    requires Monotone(checks, clock)
    decreases checks
  {
    if checks == [] then 0
    else
      var (after, ok) := CheckFrom(c, bs, checks[0].request, checks[0].times, 0);
      var mine := ok && KeyAt(checks[0].request, key.level) == key && from <= checks[0].times[IndexOf(key.level)] <= to;
      (if mine then 1 else 0) + AcceptedIn(c, after, checks[1..], key, from, to, checks[0].times[|LEVELS| - 1])
  }

  ghost function WindowOf(c: Config, key: Key, from: Time, to: Time): Window
    requires RateOf(c, key.level) >= 0
  {
    Window(RateOf(c, key.level), RateOf(c, key.level), MINUTE, from, to)
  }

  /** Charging one request from some level on keeps the account of a key; if the request passes, the
      key's own level was admitted. */
  lemma {:induction false} CheckKeeps(c: Config, bs: Buckets, r: Request, times: seq<Time>, level: nat,
                                      key: Key, w: Window, admitted: nat, clock: Time) returns (more: nat)
    requires |times| == |LEVELS| && level <= |LEVELS| && Ordered(times[level..], clock)
    requires RateOf(c, key.level) >= 0 && Sane(w) && w == WindowOf(c, key, w.from, w.to)
    requires Tracked(w, Lookup(bs, key), admitted, clock)
    ensures more >= admitted
    ensures Tracked(w, Lookup(CheckFrom(c, bs, r, times, level).0, key), more,
                    if level < |LEVELS| then times[|LEVELS| - 1] else clock)
    ensures (&& CheckFrom(c, bs, r, times, level).1 && KeyAt(r, key.level) == key
             && level <= IndexOf(key.level) && w.from <= times[IndexOf(key.level)] <= w.to) ==> more > admitted
    decreases |LEVELS| - level
  {
    if level == |LEVELS| {
      more := admitted;
    } else {
      var call := Call(KeyAt(r, LEVELS[level]), times[level]);
      var after := Charge(c, bs, call);
      assert times[level..][0] == times[level];
      var here := admitted;
      if call.key == key {
        ChargeKeeps(w, Lookup(bs, key), admitted, clock, times[level]);
        here := Counted(w, Lookup(bs, key), admitted, times[level]);
      } else {
        LaterStillTracked(w, Lookup(bs, key), admitted, clock, times[level]);
      }
      assert Tracked(w, Lookup(after, key), here, times[level]);
      if Admits(c, bs, call) {
        assert times[level + 1..] == times[level..][1..];
        more := CheckKeeps(c, after, r, times, level + 1, key, w, here, times[level]);
      } else {
        more := here;
        assert times[|LEVELS| - 1] == times[level..][|LEVELS| - 1 - level];
        LaterStillTracked(w, Lookup(after, key), here, times[level], times[|LEVELS| - 1]);
      }
    }
  }

  lemma LaterStillTracked(w: Window, b: Option<Bucket>, admitted: nat, clock: Time, later: Time)
    requires Tracked(w, b, admitted, clock) && clock <= later
    ensures Tracked(w, b, admitted, later)
  {
  }

  lemma {:induction false} ChecksKeep(c: Config, bs: Buckets, checks: seq<Check>, key: Key, w: Window,
                                      admitted: nat, clock: Time)
    requires Monotone(checks, clock) && RateOf(c, key.level) >= 0 && Sane(w) && w == WindowOf(c, key, w.from, w.to)
    requires Tracked(w, Lookup(bs, key), admitted, clock)
    ensures Within(w, admitted + AcceptedIn(c, bs, checks, key, w.from, w.to, clock))
    decreases checks
  {
    if checks != [] {
      var times := checks[0].times;
      var end := times[|LEVELS| - 1];
      assert times[0..] == times;
      var more := CheckKeeps(c, bs, checks[0].request, times, 0, key, w, admitted, clock);
      ChecksKeep(c, CheckFrom(c, bs, checks[0].request, times, 0).0, checks[1..], key, w, more, end);
      var rest := AcceptedIn(c, CheckFrom(c, bs, checks[0].request, times, 0).0, checks[1..], key, w.from, w.to, end);
      assert AcceptedIn(c, bs, checks, key, w.from, w.to, clock) - rest <= more - admitted;
      MulLe(admitted + AcceptedIn(c, bs, checks, key, w.from, w.to, clock), more + rest, w.period);
    }
  }

  /** Token-bucket bound: from an empty store, whatever the calls, the requests accepted inside any
      window number A with A * period < (rate + 1) * period + length * rate, for each of the six
      buckets a request charges. */
  lemma AcceptedIsBounded(c: Config, checks: seq<Check>, clock: Time, level: Level, r: Request, from: Time, to: Time)
    requires Monotone(checks, clock) && from <= to && RateOf(c, level) >= 0
    ensures AcceptedIn(c, map[], checks, KeyAt(r, level), from, to, clock) * MINUTE
              < (RateOf(c, level) + 1) * MINUTE + (to - from) * RateOf(c, level)
  {
    var key := KeyAt(r, level);
    var w := WindowOf(c, key, from, to);
    MulLe(0, to - from, w.rate);
    assert Lookup(map[], key) == None;
    ChecksKeep(c, map[], checks, key, w, 0, clock);
  }

  // ---- one request against all levels ----

  function CallAt(r: Request, times: seq<Time>, i: nat): Call
    requires |times| == |LEVELS| && i < |LEVELS|
  {
    Call(KeyAt(r, LEVELS[i]), times[i])
  }

  /** The levels of one request use different buckets. */
  lemma LevelsApart(r: Request, i: nat, j: nat)
    requires i < |LEVELS| && j < |LEVELS| && i != j
    ensures KeyAt(r, LEVELS[i]) != KeyAt(r, LEVELS[j])
  {
  }

  /** Charging one level changes no other bucket. */
  lemma ChargeIsLocal(c: Config, bs: Buckets, call: Call, other: Call)
    requires other.key != call.key
    ensures Lookup(Charge(c, bs, call), other.key) == Lookup(bs, other.key)
    ensures Admits(c, Charge(c, bs, call), other) <==> Admits(c, bs, other)
  {
  }

  ghost predicate AdmittedFrom(c: Config, bs: Buckets, r: Request, times: seq<Time>, level: nat)
    requires |times| == |LEVELS|
  {
    forall i: nat :: level <= i < |LEVELS| ==> Admits(c, bs, CallAt(r, times, i))
  }

  /** A request is accepted exactly when each of its six buckets, as it stands, has a token. */
  lemma {:induction false} AcceptedIff(c: Config, bs: Buckets, r: Request, times: seq<Time>, level: nat)
    requires |times| == |LEVELS| && level <= |LEVELS|
    ensures CheckFrom(c, bs, r, times, level).1 <==> AdmittedFrom(c, bs, r, times, level)
    decreases |LEVELS| - level
  {
    if level < |LEVELS| {
      var call := CallAt(r, times, level);
      var after := Charge(c, bs, call);
      CheckUnfolds(c, bs, r, times, level);
      forall i: nat | level < i < |LEVELS|
        ensures Admits(c, after, CallAt(r, times, i)) <==> Admits(c, bs, CallAt(r, times, i))
      {
        LevelsApart(r, level, i);
        ChargeIsLocal(c, bs, call, CallAt(r, times, i));
      }
      AcceptedIff(c, after, r, times, level + 1);
      assert AdmittedFrom(c, bs, r, times, level) <==>
               Admits(c, bs, call) && AdmittedFrom(c, bs, r, times, level + 1);
      assert AdmittedFrom(c, after, r, times, level + 1) <==> AdmittedFrom(c, bs, r, times, level + 1);
    }
  }

  /** The bucket is new, or has had the time to earn a token at this rate per minute. */
  ghost predicate Rested(bs: Buckets, key: Key, perMinute: int, now: Time) {
    && perMinute > 0
    && (key in bs ==> bs[key].tokens >= 0 && (now - bs[key].last) * perMinute >= 60 * SECOND)
  }

  lemma RestedIsAdmitted(c: Config, bs: Buckets, r: Request, times: seq<Time>, i: nat)
    requires |times| == |LEVELS| && i < |LEVELS|
    requires Rested(bs, KeyAt(r, LEVELS[i]), RateOf(c, LEVELS[i]), times[i])
    ensures Admits(c, bs, CallAt(r, times, i))
  {
    var key, rate := KeyAt(r, LEVELS[i]), RateOf(c, LEVELS[i]);
    if key in bs {
      EarnedIsAllowed(bs[key], rate, rate, MINUTE, times[i]);
    } else {
      ChargeTakesOne(None, rate, rate, MINUTE, times[i]);
    }
  }

  /** A request whose six buckets are new or rested, each at the number configured for it, is accepted. */
  lemma RestedIsAccepted(c: Config, bs: Buckets, r: Request, times: seq<Time>)
    requires |times| == |LEVELS|
    requires Rested(bs, KeyAt(r, Global), c.perGlobal, times[0]) && Rested(bs, KeyAt(r, Tenant), c.perTenant, times[1])
    requires Rested(bs, KeyAt(r, User), c.perUser, times[2]) && Rested(bs, KeyAt(r, SrcNode), c.perSrcNode, times[3])
    requires Rested(bs, KeyAt(r, ProtectedNode), c.perProtectedNode, times[4])
    requires Rested(bs, KeyAt(r, DevicePrompt), c.promptsPerDevice, times[5])
    ensures CheckFrom(c, bs, r, times, 0).1
  {
    forall i: nat | i < |LEVELS|
      ensures Admits(c, bs, CallAt(r, times, i))
    {
      RestedIsAdmitted(c, bs, r, times, i);
    }
    AcceptedIff(c, bs, r, times, 0);
  }

  /** Every level before this one has a token. */
  ghost predicate AdmittedBefore(c: Config, bs: Buckets, r: Request, times: seq<Time>, from: nat, level: nat)
    requires |times| == |LEVELS| && level <= |LEVELS|
  {
    forall i: nat :: from <= i < level ==> Admits(c, bs, CallAt(r, times, i))
  }

  /** A request charges the bucket of a level exactly when all levels before it had a token, and charges
      it once; a bucket that is none of its six is left alone. */
  lemma {:induction false} CheckCharges(c: Config, bs: Buckets, r: Request, times: seq<Time>, from: nat, level: nat)
    requires |times| == |LEVELS| && from <= level < |LEVELS|
    ensures var key := KeyAt(r, LEVELS[level]);
            Lookup(CheckFrom(c, bs, r, times, from).0, key) ==
              if AdmittedBefore(c, bs, r, times, from, level) then Lookup(Charge(c, bs, CallAt(r, times, level)), key)
              else Lookup(bs, key)
    decreases level - from
  {
    var call, mine := CallAt(r, times, from), CallAt(r, times, level);
    var after := Charge(c, bs, call);
    CheckUnfolds(c, bs, r, times, from);
    if from == level {
      ChargedOnce(c, after, r, times, from);
    } else {
      LevelsApart(r, from, level);
      ChargeIsLocal(c, bs, call, mine);
      forall i: nat | from < i < level
        ensures Admits(c, after, CallAt(r, times, i)) <==> Admits(c, bs, CallAt(r, times, i))
      {
        LevelsApart(r, from, i);
        ChargeIsLocal(c, bs, call, CallAt(r, times, i));
      }
      CheckCharges(c, after, r, times, from + 1, level);
      assert AdmittedBefore(c, bs, r, times, from, level) <==>
               Admits(c, bs, call) && AdmittedBefore(c, after, r, times, from + 1, level);
    }
  }

  /** Later levels do not touch it again. */
  lemma ChargedOnce(c: Config, bs: Buckets, r: Request, times: seq<Time>, level: nat)
    requires |times| == |LEVELS| && level < |LEVELS|
    ensures Lookup(CheckFrom(c, bs, r, times, level + 1).0, KeyAt(r, LEVELS[level])) ==
              Lookup(bs, KeyAt(r, LEVELS[level]))
  {
    forall i: nat | level + 1 <= i < |LEVELS|
      ensures KeyAt(r, LEVELS[i]) != KeyAt(r, LEVELS[level])
    {
      LevelsApart(r, i, level);
    }
    OthersAreLeft(c, bs, r, times, level + 1, KeyAt(r, LEVELS[level]));
  }

  lemma {:induction false} OthersAreLeft(c: Config, bs: Buckets, r: Request, times: seq<Time>, level: nat, key: Key)
    requires |times| == |LEVELS| && level <= |LEVELS|
    requires forall i: nat :: level <= i < |LEVELS| ==> KeyAt(r, LEVELS[i]) != key
    ensures Lookup(CheckFrom(c, bs, r, times, level).0, key) == Lookup(bs, key)
    decreases |LEVELS| - level
  {
    if level < |LEVELS| {
      CheckUnfolds(c, bs, r, times, level);
      OthersAreLeft(c, Charge(c, bs, CallAt(r, times, level)), r, times, level + 1, key);
    }
  }

  /** Two requests share the bucket of a level exactly when they agree on whom it limits, tenants being
      written without a colon: all share the global one, then the tenant's, then the tenant's user,
      source node, protected node or device. */
  lemma SharedBucketIff(a: Request, b: Request)
    requires ':' !in a.tenant && ':' !in b.tenant
    ensures KeyAt(a, Global) == KeyAt(b, Global)
    ensures KeyAt(a, Tenant) == KeyAt(b, Tenant) <==> a.tenant == b.tenant
    ensures KeyAt(a, User) == KeyAt(b, User) <==> a.tenant == b.tenant && a.user == b.user
    ensures KeyAt(a, SrcNode) == KeyAt(b, SrcNode) <==> a.tenant == b.tenant && a.srcNode == b.srcNode
    ensures KeyAt(a, ProtectedNode) == KeyAt(b, ProtectedNode) <==> a.tenant == b.tenant && a.node == b.node
    ensures KeyAt(a, DevicePrompt) == KeyAt(b, DevicePrompt) <==> a.tenant == b.tenant && a.device == b.device
  {
    JoinedIff(a.tenant, a.user, b.tenant, b.user);
    JoinedIff(a.tenant, a.srcNode, b.tenant, b.srcNode);
    JoinedIff(a.tenant, a.node, b.tenant, b.node);
    JoinedIff(a.tenant, a.device, b.tenant, b.device);
  }

  lemma JoinedIff(a: string, x: string, b: string, y: string)
    requires ':' !in a && ':' !in b
    ensures a + ":" + x == b + ":" + y <==> a == b && x == y
  {
    if a + ":" + x == b + ":" + y {
      SplitAtFirst(a, x, b, y, ':');
    }
  }

  /** The bound, level by level, with the configured number each obeys. */
  lemma AcceptedObeyConfig(c: Config, checks: seq<Check>, clock: Time, r: Request, from: Time, to: Time)
    requires Monotone(checks, clock) && from <= to
    requires c.perGlobal >= 0 && c.perTenant >= 0 && c.perUser >= 0
    requires c.perSrcNode >= 0 && c.perProtectedNode >= 0 && c.promptsPerDevice >= 0
    ensures Obeys(AcceptedIn(c, map[], checks, KeyAt(r, Global), from, to, clock), c.perGlobal, to - from)
    ensures Obeys(AcceptedIn(c, map[], checks, KeyAt(r, Tenant), from, to, clock), c.perTenant, to - from)
    ensures Obeys(AcceptedIn(c, map[], checks, KeyAt(r, User), from, to, clock), c.perUser, to - from)
    ensures Obeys(AcceptedIn(c, map[], checks, KeyAt(r, SrcNode), from, to, clock), c.perSrcNode, to - from)
    ensures Obeys(AcceptedIn(c, map[], checks, KeyAt(r, ProtectedNode), from, to, clock), c.perProtectedNode, to - from)
    ensures Obeys(AcceptedIn(c, map[], checks, KeyAt(r, DevicePrompt), from, to, clock), c.promptsPerDevice, to - from)
  {
    AcceptedIsBounded(c, checks, clock, Global, r, from, to);
    AcceptedIsBounded(c, checks, clock, Tenant, r, from, to);
    AcceptedIsBounded(c, checks, clock, User, r, from, to);
    AcceptedIsBounded(c, checks, clock, SrcNode, r, from, to);
    AcceptedIsBounded(c, checks, clock, ProtectedNode, r, from, to);
    AcceptedIsBounded(c, checks, clock, DevicePrompt, r, from, to);
  }

  /** At most a burst of one minute's rate and what the window's length earns. */
  ghost predicate Obeys(accepted: nat, perMinute: int, length: Time) {
    accepted * MINUTE < (perMinute + 1) * MINUTE + length * perMinute
  }

  // ---- the store and the limiter ----

  class Limiter {
    const config: Config
    var buckets: Buckets

    constructor (config: Config)
      ensures this.config == config && buckets == map[]
    {
      this.config, buckets := config, map[];
    }

    /** InMemoryStore.Allow */
    method Allow(key: Key, rate: int, burst: int, period: Time, now: Time)
      returns (allowed: bool, remaining: int, reset: Time)
      requires period > 0
      modifies this`buckets
      ensures buckets == old(buckets)[key := Charged(Lookup(old(buckets), key), rate, burst, period, now)]
      ensures allowed == old(Allowed(Lookup(buckets, key), rate, burst, period, now))
      ensures remaining == (if allowed then buckets[key].tokens else 0) >= 0 && reset == now + period
    {
      var bucket := Bucket(burst, now);
      if key in buckets {
        bucket := buckets[key];
      }
      var add := (now - bucket.last) * rate / period;
      if add > 0 {
        var tokens := bucket.tokens + add;
        if tokens > burst {
          tokens := burst;
        }
        bucket := Bucket(tokens, now);
      }
      if bucket.tokens > 0 {
        bucket := bucket.(tokens := bucket.tokens - 1);
        buckets := buckets[key := bucket];
        return true, bucket.tokens, now + period;
      }
      buckets := buckets[key := bucket];
      return false, 0, now + period;
    }

    method CheckApprovalRate(r: Request, times: seq<Time>) returns (ok: bool)
      requires |times| == |LEVELS|
      modifies this`buckets
      ensures !config.enabled ==> ok && buckets == old(buckets)
      ensures config.enabled ==> (buckets, ok) == CheckFrom(config, old(buckets), r, times, 0)
    {
      if !config.enabled {
        return true;
      }
      ghost var goal := CheckFrom(config, buckets, r, times, 0);
      var level := 0;
      while level < |LEVELS|
        invariant 0 <= level <= |LEVELS|
        invariant CheckFrom(config, buckets, r, times, level) == goal
      {
        CheckUnfolds(config, buckets, r, times, level);
        var allowed := AllowLevel(Call(KeyAt(r, LEVELS[level]), times[level]));
        if !allowed {
          return false;
        }
        level := level + 1;
      }
      return true;
    }

    /** A level's bucket allows a burst of one minute's rate. */
    method AllowLevel(call: Call) returns (allowed: bool)
      modifies this`buckets
      ensures buckets == Charge(config, old(buckets), call)
      ensures allowed == old(Admits(config, buckets, call))
    {
      var rate := RateOf(config, call.key.level);
      var remaining, reset;
      allowed, remaining, reset := Allow(call.key, rate, rate, MINUTE, call.now);
    }
  }
}
