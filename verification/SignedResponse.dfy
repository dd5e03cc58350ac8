/** The bytes an approval response signs: eight fields joined without delimiters, five of them of free
    length. The service reads the counter out of the fields it is given and checks the signature over
    the joined bytes, so what matters is in how many ways the same bytes can be cut into fields. */
module SignedResponse {
  import opened Base

  newtype Byte = x: int | 0 <= x < 256

  type Bytes = seq<Byte>

  type Int64 = x: int | -0x8000_0000_0000_0000 <= x < 0x8000_0000_0000_0000

  type PublicKey = nat

  /** Big-endian two's complement. */
  function Big(n: int, width: nat): (bytes: Bytes)
    ensures |bytes| == width
    decreases width, n
  {
    if width == 0 then [] else Big(n / 256, width - 1) + [(n % 256) as Byte]
  }

  /** A time: seconds, nanoseconds and zone offset in seconds, None for UTC. */
  datatype Instant = Instant(seconds: Int64, nanos: nat, zone: Option<int>)

  /** Division that truncates toward zero. */
  function Quotient(n: int, d: int): int
    requires d > 0
  {
    if n < 0 then -(-n / d) else n / d
  }

  /** Time.MarshalBinary, its error dropped: a zone of -1 minute or out of range gives no bytes. */
  function Marshal(t: Instant): Bytes {
    match t.zone
    case None => Big(1, 1) + Big(t.seconds, 8) + Big(t.nanos, 4) + Big(-1, 2)
    case Some(offset) =>
      var minutes := Quotient(offset, 60);
      var rest := offset - 60 * minutes;
      if minutes < -32768 || minutes == -1 || minutes > 32767 then []
      else
        Big(if rest == 0 then 1 else 2, 1) + Big(t.seconds, 8) + Big(t.nanos, 4) + Big(minutes, 2)
        + (if rest == 0 then [] else Big(rest, 1))
  }

  /** The signed fields of a response, as the caller presents them. */
  datatype Signed = Signed(requestHash: Bytes, decision: Bytes, device: Id, keyId: Bytes,
                           signedAt: Instant, counter: Int64, channel: Bytes, nonce: Bytes)

  /** What comes before the counter. */
  function Head(b: Signed): Bytes {
    b.requestHash + b.decision + Big(b.device, 16) + b.keyId + Marshal(b.signedAt)
  }

  function ToSign(b: Signed): Bytes {
    Head(b) + Big(b.counter, 8) + (b.channel + b.nonce)
  }

  /** An ideal signature: it names the key that made it and the bytes it covers. */
  datatype Signature = Signature(key: PublicKey, over: Bytes)

  /** The request id is not signed. */
  datatype Response = Response(requestId: Id, body: Signed, signature: Signature)

  predicate Verifies(r: Response, key: PublicKey) {
    r.signature == Signature(key, ToSign(r.body))
  }

  // ---- text columns ----

  predicate Continues(s: Bytes, k: nat) {
    k < |s| && 0x80 <= s[k] < 0xC0
  }

  /** Text PostgreSQL can store: UTF-8 without the zero byte. */
  predicate Storable(s: Bytes) {
    if s == [] then true
    else if s[0] < 0x80 then s[0] != 0 && Storable(s[1..])
    else if 0xC2 <= s[0] < 0xE0 then Continues(s, 1) && Storable(s[2..])
    else if 0xE0 <= s[0] < 0xF0 then
      && Continues(s, 1) && Continues(s, 2) && (s[0] == 0xE0 ==> s[1] >= 0xA0) && (s[0] == 0xED ==> s[1] < 0xA0)
      && Storable(s[3..])
    else
      && 0xF0 <= s[0] < 0xF5 && Continues(s, 1) && Continues(s, 2) && Continues(s, 3)
      && (s[0] == 0xF0 ==> s[1] >= 0x90) && (s[0] == 0xF4 ==> s[1] < 0x90)
      && Storable(s[4..])
  }

  /** ASCII text without the zero byte can be stored, and nothing with a zero byte can; joining what can
      be stored can be stored. */
  lemma {:induction false} AsciiIsStorable(s: Bytes)
    requires forall i :: 0 <= i < |s| ==> 0 < s[i] < 0x80
    ensures Storable(s)
  {
    if s != [] {
      AsciiIsStorable(s[1..]);
    }
  }

  lemma {:induction false} ZeroIsNotStorable(s: Bytes, k: nat)
    requires k < |s| && s[k] == 0
    ensures !Storable(s)
  {
    if s[0] < 0x80 && s[0] != 0 {
      assert s[1..][k - 1] == 0;
      ZeroIsNotStorable(s[1..], k - 1);
    } else if 0xC2 <= s[0] < 0xE0 && Continues(s, 1) {
      assert s[2..][k - 2] == 0;
      ZeroIsNotStorable(s[2..], k - 2);
    } else if 0xE0 <= s[0] < 0xF0 && Continues(s, 1) && Continues(s, 2) {
      assert s[3..][k - 3] == 0;
      ZeroIsNotStorable(s[3..], k - 3);
    } else if 0xF0 <= s[0] < 0xF5 && Continues(s, 1) && Continues(s, 2) && Continues(s, 3) {
      assert s[4..][k - 4] == 0;
      ZeroIsNotStorable(s[4..], k - 4);
    }
  }

  // ---- one cut ----

  /** Half the range of a number of so many bytes. */
  ghost function Half(width: nat): int
    requires width > 0
  {
    if width == 1 then 128 else 256 * Half(width - 1)
  }

  lemma {:induction false} BigInjective(m: int, n: int, width: nat)
    requires width > 0 && -Half(width) <= m < Half(width) && -Half(width) <= n < Half(width)
    requires Big(m, width) == Big(n, width)
    ensures m == n
    decreases width
  {
    assert Big(m, width)[width - 1] == (m % 256) as Byte && Big(n, width)[width - 1] == (n % 256) as Byte;
    if width > 1 {
      assert Big(m, width)[..width - 1] == Big(m / 256, width - 1);
      assert Big(n, width)[..width - 1] == Big(n / 256, width - 1);
      BigInjective(m / 256, n / 256, width - 1);
    }
  }

  lemma CounterInjective(m: Int64, n: Int64)
    requires Big(m, 8) == Big(n, 8)
    ensures m == n
  {
    assert Half(8) == 0x8000_0000_0000_0000;
    BigInjective(m, n, 8);
  }

  /** The counters of two responses stand at the same place. */
  predicate SameCut(a: Signed, b: Signed) {
    |Head(a)| == |Head(b)|
  }

  /** Cut at the same place, the same bytes carry the same counter. */
  lemma SameCutSameCounter(a: Signed, b: Signed)
    requires ToSign(a) == ToSign(b) && SameCut(a, b)
    ensures a.counter == b.counter
  {
    var h := |Head(a)|;
    assert Big(a.counter, 8) == ToSign(a)[h..h + 8];
    assert Big(b.counter, 8) == ToSign(b)[h..h + 8];
    CounterInjective(a.counter, b.counter);
  }

  /** The fields have the same lengths. */
  predicate SameLengths(a: Signed, b: Signed) {
    && |a.requestHash| == |b.requestHash| && |a.decision| == |b.decision| && |a.keyId| == |b.keyId|
    && |Marshal(a.signedAt)| == |Marshal(b.signedAt)| && |a.channel| == |b.channel|
  }

  /** The signature covers every field: between responses of the same field lengths, the same bytes mean
      the same hash, decision, device, key id, time, counter, channel and nonce. */
  lemma SameLengthsSameFields(a: Signed, b: Signed)
    requires ToSign(a) == ToSign(b) && SameLengths(a, b)
    ensures a.requestHash == b.requestHash && a.decision == b.decision && Big(a.device, 16) == Big(b.device, 16)
    ensures a.keyId == b.keyId && Marshal(a.signedAt) == Marshal(b.signedAt) && a.counter == b.counter
    ensures a.channel == b.channel && a.nonce == b.nonce
  {
    var h := |Head(a)|;
    assert Head(a) == ToSign(a)[..h] && Head(b) == ToSign(b)[..h];
    assert a.channel + a.nonce == ToSign(a)[h + 8..] && b.channel + b.nonce == ToSign(b)[h + 8..];
    SameCutSameCounter(a, b);
    SameParts(a.requestHash + a.decision + Big(a.device, 16) + a.keyId, Marshal(a.signedAt),
              b.requestHash + b.decision + Big(b.device, 16) + b.keyId, Marshal(b.signedAt));
    SameParts(a.requestHash + a.decision + Big(a.device, 16), a.keyId,
              b.requestHash + b.decision + Big(b.device, 16), b.keyId);
    SameParts(a.requestHash + a.decision, Big(a.device, 16), b.requestHash + b.decision, Big(b.device, 16));
    SameParts(a.requestHash, a.decision, b.requestHash, b.decision);
    SameParts(a.channel, a.nonce, b.channel, b.nonce);
  }

  lemma SameParts(a: Bytes, x: Bytes, b: Bytes, y: Bytes)
    requires a + x == b + y && |a| == |b|
    ensures a == b && x == y
  {
    assert a == (a + x)[..|a|] && b == (b + y)[..|b|];
    assert x == (a + x)[|a|..] && y == (b + y)[|b|..];
  }

  /** The offset in whole minutes that is written, -1 for UTC. */
  function Minutes(t: Instant): int {
    if t.zone.None? then -1 else Quotient(t.zone.value, 60)
  }

  /** A time marshals to 15 bytes, to 16 when its offset has seconds, and to none exactly when its zone is
      neither UTC nor an offset that fits, -1 minute being taken for UTC. */
  lemma MarshalLengths(t: Instant)
    ensures |Marshal(t)| in {0, 15, 16}
    ensures |Marshal(t)| == 0 <==> t.zone.Some? && (Minutes(t) < -32768 || Minutes(t) == -1 || Minutes(t) > 32767)
  {
  }

  /** What marshals alike is the same second, nanosecond and offset in minutes. */
  lemma MarshalTells(a: Instant, b: Instant)
    requires Marshal(a) == Marshal(b) != [] && a.nanos < 1_000_000_000 && b.nanos < 1_000_000_000
    ensures a.seconds == b.seconds && a.nanos == b.nanos && Minutes(a) == Minutes(b)
  {
    MarshalFields(a);
    MarshalFields(b);
    CounterInjective(a.seconds, b.seconds);
    assert Half(4) == 0x8000_0000 && Half(2) == 0x8000;
    BigInjective(a.nanos, b.nanos, 4);
    BigInjective(Minutes(a), Minutes(b), 2);
  }

  lemma MarshalFields(t: Instant)
    requires Marshal(t) != []
    ensures |Marshal(t)| >= 15 && -32768 <= Minutes(t) <= 32767
    ensures Marshal(t)[1..9] == Big(t.seconds, 8) && Marshal(t)[9..13] == Big(t.nanos, 4)
    ensures Marshal(t)[13..15] == Big(Minutes(t), 2)
  {
    if t.zone.None? {
      Slices(Big(1, 1), Big(t.seconds, 8), Big(t.nanos, 4), Big(-1, 2), []);
      assert Marshal(t) == Big(1, 1) + Big(t.seconds, 8) + Big(t.nanos, 4) + Big(-1, 2) + [];
    } else {
      var rest := t.zone.value - 60 * Minutes(t);
      var version := Big(if rest == 0 then 1 else 2, 1);
      Slices(version, Big(t.seconds, 8), Big(t.nanos, 4), Big(Minutes(t), 2), if rest == 0 then [] else Big(rest, 1));
    }
  }

  lemma Slices(v: Bytes, s: Bytes, n: Bytes, m: Bytes, tail: Bytes)
    requires |v| == 1 && |s| == 8 && |n| == 4 && |m| == 2
    ensures var all := v + s + n + m + tail;
            |all| >= 15 && all[1..9] == s && all[9..13] == n && all[13..15] == m
  {
  }

  // ---- every cut ----

  /** The bytes hold the counter, with room for a device id before it. */
  ghost predicate Holds(bytes: Bytes, counter: Int64) {
    exists k: nat :: HeldAt(bytes, counter, k)
  }

  ghost predicate HeldAt(bytes: Bytes, counter: Int64, k: nat) {
    16 <= k && k + 8 <= |bytes| && bytes[k..k + 8] == Big(counter, 8)
  }

  /** Some way of cutting the bytes into fields carries the counter, with a key id that can be stored. */
  ghost predicate Presentable(bytes: Bytes, counter: Int64) {
    exists b: Signed :: ToSign(b) == bytes && b.counter == counter && Storable(b.keyId)
  }

  /** The number whose bytes these are. */
  function Value(bytes: Bytes): nat {
    if bytes == [] then 0 else 256 * Value(bytes[..|bytes| - 1]) + bytes[|bytes| - 1] as nat
  }

  lemma {:induction false} BigOfValue(bytes: Bytes)
    ensures Big(Value(bytes), |bytes|) == bytes
  {
    if bytes != [] {
      var init, last := bytes[..|bytes| - 1], bytes[|bytes| - 1];
      BigOfValue(init);
      assert Value(bytes) / 256 == Value(init) && Value(bytes) % 256 == last as nat;
      assert bytes == init + [last];
    }
  }

  /** Exactly which counters a signature can be presented with: those whose eight bytes occur anywhere
      in what it covers, sixteen bytes or more from the start. */
  lemma PresentableIff(bytes: Bytes, counter: Int64)
    ensures Presentable(bytes, counter) <==> Holds(bytes, counter)
  {
    if Presentable(bytes, counter) {
      var b: Signed :| ToSign(b) == bytes && b.counter == counter && Storable(b.keyId);
      var k := |Head(b)|;
      assert bytes[k..k + 8] == Big(counter, 8);
      assert HeldAt(bytes, counter, k);
    }
    if Holds(bytes, counter) {
      var k: nat :| HeldAt(bytes, counter, k);
      var b := Recut(bytes, counter, k);
    }
  }

  /** The cut: no decision, no key id, a time that does not marshal, the device id just before. */
  lemma Recut(bytes: Bytes, counter: Int64, k: nat) returns (b: Signed)
    requires HeldAt(bytes, counter, k)
    ensures ToSign(b) == bytes && b.counter == counter && b.keyId == []
  {
    var id := bytes[k - 16..k];
    BigOfValue(id);
    var never := Instant(0, 0, Some(-60));
    b := Signed(bytes[..k - 16], [], Value(id), [], never, counter, bytes[k + 8..], []);
    assert Marshal(never) == [];
    assert Head(b) == bytes[..k];
    assert bytes == bytes[..k] + bytes[k..k + 8] + bytes[k + 8..];
  }

  /** A response whose hash ends in the bytes of a counter can be presented with that counter. */
  lemma RecutAtHash(b: Signed, pad: Bytes, counter: Int64) returns (c: Signed)
    requires b.requestHash == pad + Big(counter, 8) && |pad| >= 16
    ensures ToSign(c) == ToSign(b) && c.counter == counter && c.keyId == []
  {
    var bytes, k := ToSign(b), |pad|;
    assert forall i :: 0 <= i < |b.requestHash| ==> bytes[i] == b.requestHash[i];
    assert bytes[k..k + 8] == Big(counter, 8);
    c := Recut(bytes, counter, k);
  }
}
