/** Publishing policies without a transaction: a publisher reads the current version and epoch,
    then the digest of that version's document, then inserts the next row, and any other
    publisher may act in between. */
module PolicyChain {
  import opened Base

  /** An ideal digest, or the all-zero hash of the first bundle. */
  datatype Hash = Zero | Digest(doc: string)

  /** PRIMARY KEY (tenant_id, version). */
  datatype Slot = Slot(tenant: Id, version: nat)

  /** What a publisher contributes besides the document: who issued it, the signature over the bundle
      with its key, and the validity times. */
  datatype Terms = Terms(issuer: Id, signature: string, kid: string, notBefore: Time, expires: Time)

  datatype Row = Row(epoch: nat, doc: string, prev: Hash, terms: Terms)

  type Table = map<Slot, Row>

  /** How far a publisher has got: its document, what it read, and the hash once it has it. */
  datatype Publisher = Publisher(tenant: Id, doc: string, version: nat, epoch: nat, prev: Option<Hash>)

  datatype State = State(table: Table, publishers: map<Id, Publisher>)

  const EMPTY: State := State(map[], map[])

  datatype Event =
    | ReadVersion(p: Id, tenant: Id, doc: string)
    | ReadHash(p: Id)
    | Fail(p: Id)
    | Insert(p: Id, terms: Terms)

  ghost function Latest(table: Table, tenant: Id): nat {
    Max0(set k | k in table && k.tenant == tenant :: k.version)
  }

  ghost function LatestEpoch(table: Table, tenant: Id): nat {
    Max0(set k | k in table && k.tenant == tenant :: table[k].epoch)
  }

  /** digest(document) of the version read, or the zero hash when there was none. */
  function HashOf(table: Table, tenant: Id, version: nat): Option<Hash> {
    if version == 0 then Some(Zero)
    else if Slot(tenant, version) in table then Some(Digest(table[Slot(tenant, version)].doc))
    else None
  }

  /** INSERT ... ON CONFLICT (tenant_id, version) DO NOTHING */
  function Inserted(table: Table, p: Publisher, terms: Terms): Table {
    var slot := Slot(p.tenant, p.version + 1);
    if p.prev.None? || slot in table then table else table[slot := Row(p.epoch + 1, p.doc, p.prev.value, terms)]
  }

  ghost function Next(s: State, e: Event): State {
    match e
    case ReadVersion(p, tenant, doc) =>
      if p in s.publishers then s
      else
        var read := Publisher(tenant, doc, Latest(s.table, tenant), LatestEpoch(s.table, tenant), None);
        s.(publishers := s.publishers[p := read])
    case ReadHash(p) =>
      if p !in s.publishers then s
      else
        var me := s.publishers[p];
        s.(publishers := s.publishers[p := me.(prev := HashOf(s.table, me.tenant, me.version))])
    case Fail(p) => s.(publishers := s.publishers - {p})
    case Insert(p, terms) =>
      if p !in s.publishers then s
      else State(Inserted(s.table, s.publishers[p], terms), s.publishers - {p})
  }

  ghost function Run(s: State, es: seq<Event>): State
    decreases es
  {
    if es == [] then s else Run(Next(s, es[0]), es[1..])
  }

  /** The tenant's rows are exactly versions 1..n, epochs equal versions, and each row carries the
      digest of the one before it. */
  ghost predicate Chained(table: Table, tenant: Id) {
    && (forall v: nat :: Slot(tenant, v) in table <==> 1 <= v <= Latest(table, tenant))
    && (forall v: nat :: Slot(tenant, v + 1) in table ==> Linked(table, tenant, v))
  }

  /** Version v + 1 has its own number as epoch and the digest of version v. */
  ghost predicate Linked(table: Table, tenant: Id, v: nat)
    requires Slot(tenant, v + 1) in table
  {
    table[Slot(tenant, v + 1)].epoch == v + 1 && HashOf(table, tenant, v) == Some(table[Slot(tenant, v + 1)].prev)
  }

  /** A publisher read a version that existed, its epoch, and, if it got that far, its digest. */
  ghost predicate PublisherOk(table: Table, p: Publisher) {
    && p.version <= Latest(table, p.tenant)
    && p.epoch == p.version
    && (p.prev.Some? ==> p.prev == HashOf(table, p.tenant, p.version))
  }

  ghost predicate Inv(s: State) {
    && (forall tenant :: Chained(s.table, tenant))
    && (forall p :: p in s.publishers ==> PublisherOk(s.table, s.publishers[p]))
  }

  lemma LatestAt(table: Table, tenant: Id, n: nat)
    requires forall v: nat :: Slot(tenant, v) in table <==> 1 <= v <= n
    ensures Latest(table, tenant) == n
  {
    var vs := set k | k in table && k.tenant == tenant :: k.version;
    if n > 0 {
      assert Slot(tenant, n) in table;
      assert Slot(tenant, n).version in vs;
    }
    forall v | v in vs
      ensures v <= n
    {
      var k :| k in table && k.tenant == tenant && k.version == v;
      assert k == Slot(tenant, v);
    }
  }

  /** The highest epoch is the highest version. */
  lemma EpochIsVersion(table: Table, tenant: Id)
    requires Chained(table, tenant)
    ensures LatestEpoch(table, tenant) == Latest(table, tenant)
  {
    var n := Latest(table, tenant);
    var es := set k | k in table && k.tenant == tenant :: table[k].epoch;
    if n > 0 {
      assert Slot(tenant, n) in table;
      assert Linked(table, tenant, n - 1);
      assert table[Slot(tenant, n)].epoch in es;
    }
    forall e | e in es
      ensures e <= n
    {
      var k :| k in table && k.tenant == tenant && table[k].epoch == e;
      assert k == Slot(tenant, k.version) && k.version >= 1;
      assert Linked(table, tenant, k.version - 1);
    }
  }

  /** The next version of a tenant extends its chain. */
  lemma AppendKeepsChain(table: Table, tenant: Id, row: Row)
    requires Chained(table, tenant)
    requires var n := Latest(table, tenant); row.epoch == n + 1 && HashOf(table, tenant, n) == Some(row.prev)
    ensures var n := Latest(table, tenant);
            var after := table[Slot(tenant, n + 1) := row];
            Chained(after, tenant) && Latest(after, tenant) == n + 1
  {
    var n := Latest(table, tenant);
    var after := table[Slot(tenant, n + 1) := row];
    LatestAt(after, tenant, n + 1);
    forall v: nat | Slot(tenant, v + 1) in after
      ensures Linked(after, tenant, v)
    {
      if v < n {
        assert Linked(table, tenant, v);
      }
    }
  }

  /** A row of one tenant is nothing to another. */
  lemma OtherTenantKeepsChain(table: Table, slot: Slot, row: Row, tenant: Id)
    requires Chained(table, tenant) && slot.tenant != tenant
    ensures Chained(table[slot := row], tenant) && Latest(table[slot := row], tenant) == Latest(table, tenant)
  {
    var after := table[slot := row];
    LatestAt(after, tenant, Latest(table, tenant));
    forall v: nat | Slot(tenant, v + 1) in after
      ensures Linked(after, tenant, v)
    {
      assert Linked(table, tenant, v);
    }
  }

  /** An insert either loses the race and changes nothing, or appends the next version. */
  lemma InsertKeepsChain(table: Table, p: Publisher, terms: Terms, tenant: Id)
    requires Chained(table, p.tenant) && Chained(table, tenant) && PublisherOk(table, p)
    ensures Chained(Inserted(table, p, terms), tenant)
    ensures Latest(Inserted(table, p, terms), tenant) >= Latest(table, tenant)
  {
    var slot := Slot(p.tenant, p.version + 1);
    if p.prev.None? || slot in table {
      assert Inserted(table, p, terms) == table;
    } else {
      var row := Row(p.epoch + 1, p.doc, p.prev.value, terms);
      assert Inserted(table, p, terms) == table[slot := row];
      if tenant == p.tenant {
        assert p.version == Latest(table, tenant);
        AppendKeepsChain(table, tenant, row);
      } else {
        OtherTenantKeepsChain(table, slot, row, tenant);
      }
    }
  }

  lemma InsertKeepsPublisher(table: Table, p: Publisher, terms: Terms, o: Publisher)
    requires Chained(table, p.tenant) && Chained(table, o.tenant) && PublisherOk(table, p) && PublisherOk(table, o)
    ensures PublisherOk(Inserted(table, p, terms), o)
  {
    InsertKeepsChain(table, p, terms, o.tenant);
    if o.version > 0 {
      assert Slot(o.tenant, o.version) in table;
    }
  }

  lemma StepKeeps(s: State, e: Event)
    requires Inv(s)
    ensures Inv(Next(s, e))
  {
    match e
    case ReadVersion(p, tenant, doc) =>
      assert Chained(s.table, tenant);
      EpochIsVersion(s.table, tenant);
    case ReadHash(p) =>
    case Fail(p) =>
    case Insert(p, terms) => if p in s.publishers { InsertKeeps(s, p, terms); }
  }

  lemma InsertKeeps(s: State, p: Id, terms: Terms)
    requires Inv(s) && p in s.publishers
    ensures Inv(Next(s, Insert(p, terms)))
  {
    var me := s.publishers[p];
    assert PublisherOk(s.table, me) && Chained(s.table, me.tenant);
    forall tenant
      ensures Chained(Inserted(s.table, me, terms), tenant)
    {
      assert Chained(s.table, tenant);
      InsertKeepsChain(s.table, me, terms, tenant);
    }
    forall o | o in s.publishers && o != p
      ensures PublisherOk(Inserted(s.table, me, terms), s.publishers[o])
    {
      assert Chained(s.table, s.publishers[o].tenant);
      InsertKeepsPublisher(s.table, me, terms, s.publishers[o]);
    }
  }

  lemma {:induction false} RunKeeps(s: State, es: seq<Event>)
    requires Inv(s)
    ensures Inv(Run(s, es))
    decreases es
  {
    if es != [] {
      StepKeeps(s, es[0]);
      RunKeeps(Next(s, es[0]), es[1..]);
    }
  }

  lemma {:induction false} RunKeepsRow(s: State, es: seq<Event>, k: Slot)
    requires k in s.table
    ensures k in Run(s, es).table && Run(s, es).table[k] == s.table[k]
    decreases es
  {
    if es != [] {
      assert k in Next(s, es[0]).table && Next(s, es[0]).table[k] == s.table[k];
      RunKeepsRow(Next(s, es[0]), es[1..], k);
    }
  }

  /** Policy chain under races: whatever the interleaving, each tenant's rows are versions 1..n with
      epoch equal to version and each prev_hash the digest of the preceding document. */
  lemma ChainHolds(es: seq<Event>, tenant: Id)
    ensures Chained(Run(EMPTY, es).table, tenant)
  {
    forall t
      ensures Chained(EMPTY.table, t)
    {
      LatestAt(EMPTY.table, t, 0);
    }
    RunKeeps(EMPTY, es);
  }

  /** The law without the code's own hash step: version 1 carries the zero hash, and every later version
      the digest of the document before it. */
  lemma LinksAreDigests(es: seq<Event>, tenant: Id, v: nat)
    requires Slot(tenant, v + 1) in Run(EMPTY, es).table
    ensures var t := Run(EMPTY, es).table;
            && t[Slot(tenant, v + 1)].epoch == v + 1
            && (v == 0 ==> t[Slot(tenant, 1)].prev == Zero)
            && (v > 0 ==> Slot(tenant, v) in t && t[Slot(tenant, v + 1)].prev == Digest(t[Slot(tenant, v)].doc))
  {
    ChainHolds(es, tenant);
    assert Linked(Run(EMPTY, es).table, tenant, v);
  }

  /** What a chain is for: two histories that agree on one row of a tenant agree on the document of the
      version before it, whatever else happened in each. */
  lemma RowFixesPrevious(es: seq<Event>, fs: seq<Event>, tenant: Id, v: nat)
    requires v > 0 && Slot(tenant, v + 1) in Run(EMPTY, es).table && Slot(tenant, v + 1) in Run(EMPTY, fs).table
    requires Run(EMPTY, es).table[Slot(tenant, v + 1)] == Run(EMPTY, fs).table[Slot(tenant, v + 1)]
    ensures Slot(tenant, v) in Run(EMPTY, es).table && Slot(tenant, v) in Run(EMPTY, fs).table
    ensures Run(EMPTY, es).table[Slot(tenant, v)].doc == Run(EMPTY, fs).table[Slot(tenant, v)].doc
  {
    LinksAreDigests(es, tenant, v);
    LinksAreDigests(fs, tenant, v);
  }

  /** And no row is ever overwritten. */
  lemma RowsAreForever(es: seq<Event>, more: seq<Event>, k: Slot)
    requires k in Run(EMPTY, es).table
    ensures var t := Run(Run(EMPTY, es), more).table; k in t && t[k] == Run(EMPTY, es).table[k]
  {
    RunKeepsRow(Run(EMPTY, es), more, k);
  }

  /** What a bundle is reported to be. */
  datatype Bundle = Bundle(version: nat, epoch: nat, doc: string, prev: Option<Hash>, terms: Terms)

  /** The result PublishPolicy returns as published, whether or not its insert took effect. */
  function Reported(p: Publisher, terms: Terms): Bundle {
    Bundle(p.version + 1, p.epoch + 1, p.doc, p.prev, terms)
  }

  /** The bundle as the table holds it. */
  predicate Stored(table: Table, tenant: Id, b: Bundle) {
    && b.prev.Some? && Slot(tenant, b.version) in table
    && table[Slot(tenant, b.version)] == Row(b.epoch, b.doc, b.prev.value, b.terms)
  }

  /** The reported bundle is the stored one exactly when nobody published since the version was read, or
      the winner's document and terms are the very same. */
  lemma ReportIsTrueIff(s: State, p: Id, terms: Terms)
    requires Inv(s) && p in s.publishers && s.publishers[p].prev.Some?
    ensures var me := s.publishers[p];
            var slot := Slot(me.tenant, me.version + 1);
            Stored(Next(s, Insert(p, terms)).table, me.tenant, Reported(me, terms)) <==>
              (slot in s.table ==> s.table[slot].doc == me.doc && s.table[slot].terms == terms)
  {
    var me := s.publishers[p];
    assert PublisherOk(s.table, me) && Chained(s.table, me.tenant);
    var slot := Slot(me.tenant, me.version + 1);
    assert Next(s, Insert(p, terms)).table == Inserted(s.table, me, terms);
    if slot in s.table {
      assert Linked(s.table, me.tenant, me.version);
    }
  }

  /** Two publishers read the empty table, then the first inserts. */
  ghost function Race(tenant: Id, first: string, second: string, terms: Terms): seq<Event> {
    [ReadVersion(0, tenant, first), ReadHash(0), ReadVersion(1, tenant, second), ReadHash(1), Insert(0, terms)]
  }

  lemma RaceRuns(tenant: Id, first: string, second: string, terms: Terms)
    ensures Run(EMPTY, Race(tenant, first, second, terms)) ==
              State(map[Slot(tenant, 1) := Row(1, first, Zero, terms)],
                    map[1 := Publisher(tenant, second, 0, 0, Some(Zero))])
  {
    var es := Race(tenant, first, second, terms);
    LatestAt(map[], tenant, 0);
    EpochIsVersion(map[], tenant);
    var a, b := Publisher(tenant, first, 0, 0, Some(Zero)), Publisher(tenant, second, 0, 0, Some(Zero));
    var s1 := Next(EMPTY, es[0]);
    assert s1 == State(map[], map[0 := a.(prev := None)]);
    var s2 := Next(s1, es[1]);
    assert s2 == State(map[], map[0 := a]);
    var s3 := Next(s2, es[2]);
    assert s3 == State(map[], map[0 := a, 1 := b.(prev := None)]);
    var s4 := Next(s3, es[3]);
    assert s4 == State(map[], map[0 := a, 1 := b]);
    var s5 := Next(s4, es[4]);
    assert s5 == State(map[Slot(tenant, 1) := Row(1, first, Zero, terms)], map[1 := b]);
    FiveSteps(EMPTY, es);
  }

  lemma FiveSteps(s: State, es: seq<Event>)
    requires |es| == 5
    ensures Run(s, es) == Next(Next(Next(Next(Next(s, es[0]), es[1]), es[2]), es[3]), es[4])
  {
    var s3 := Next(Next(Next(s, es[0]), es[1]), es[2]);
    var tail := es[1..][1..];
    assert tail == [es[2], es[3], es[4]] && tail[1..] == [es[3], es[4]] && tail[1..][1..] == [es[4]];
    assert [es[4]][1..] == [];
    assert Run(Next(s3, es[3]), [es[4]]) == Next(Next(s3, es[3]), es[4]);
    assert Run(s3, tail[1..]) == Next(Next(s3, es[3]), es[4]);
    assert Run(Next(s, es[0]), es[1..]) == Run(s3, tail[1..]);
  }

  /** A loser with another document, or only with other terms, is told that its bundle is published as
      version 1, and no row holds that bundle, then or ever. */
  lemma LoserReportsSuccess(tenant: Id, first: string, second: string, winner: Terms, loser: Terms, more: seq<Event>)
    requires first != second || winner != loser
    ensures var s := Run(EMPTY, Race(tenant, first, second, winner));
            && 1 in s.publishers && Reported(s.publishers[1], loser) == Bundle(1, 1, second, Some(Zero), loser)
            && !Stored(Run(Next(s, Insert(1, loser)), more).table, tenant, Reported(s.publishers[1], loser))
  {
    RaceRuns(tenant, first, second, winner);
    var t := Next(Run(EMPTY, Race(tenant, first, second, winner)), Insert(1, loser));
    assert t.table == map[Slot(tenant, 1) := Row(1, first, Zero, winner)];
    RunKeepsRow(t, more, Slot(tenant, 1));
  }

  // ---- the publisher ----

  /** The table after one publication that nobody interrupts. */
  ghost function Published(table: Table, tenant: Id, doc: string, terms: Terms): Table {
    Next(Next(Next(State(table, map[]), ReadVersion(0, tenant, doc)), ReadHash(0)), Insert(0, terms)).table
  }

  /** The bundle is the tenant's next version, its epoch the version, linked to the version before,
      and it is the one row that was added. */
  ghost predicate Appended(before: Table, after: Table, tenant: Id, b: Bundle) {
    && b.version == b.epoch == Latest(after, tenant) == Latest(before, tenant) + 1
    && (b.version == 1 ==> b.prev == Some(Zero))
    && (b.version > 1 ==>
          Slot(tenant, b.version - 1) in before && b.prev == Some(Digest(before[Slot(tenant, b.version - 1)].doc)))
    && after == before[Slot(tenant, b.version) := Row(b.epoch, b.doc, b.prev.value, b.terms)]
  }

  /** A publisher that has read everything at one instant. */
  ghost function Head(table: Table, tenant: Id, doc: string): Publisher {
    var version := Latest(table, tenant);
    Publisher(tenant, doc, version, LatestEpoch(table, tenant), HashOf(table, tenant, version))
  }

  class PolicyStore {
    var table: Table

    constructor ()
      ensures table == map[]
    {
      table := map[];
    }

    /** SELECT COALESCE(MAX(version), 0), COALESCE(MAX(epoch), 0) */
    method QueryVersion(tenant: Id) returns (version: nat, epoch: nat)
      ensures version == Latest(table, tenant) && epoch == LatestEpoch(table, tenant)
    {
      version := ComputeMax0(set k | k in table && k.tenant == tenant :: k.version);
      epoch := ComputeMax0(set k | k in table && k.tenant == tenant :: table[k].epoch);
    }

    /** The digest of the version read, the zero hash when there was none, nothing when it is gone. */
    method QueryHash(tenant: Id, version: nat) returns (prev: Option<Hash>)
      ensures prev == HashOf(table, tenant, version)
      ensures version > 0 && Slot(tenant, version) in table ==> prev == Some(Digest(table[Slot(tenant, version)].doc))
      ensures version == 0 ==> prev == Some(Zero)
    {
      if version > 0 {
        prev := if Slot(tenant, version) in table then Some(Digest(table[Slot(tenant, version)].doc)) else None;
      } else {
        prev := Some(Zero);
      }
    }

    /** Uninterrupted, a publication is the three steps in a row: on a chained table it appends the
        next version, linked to the one before, and the report is the row. */
    method PublishPolicy(tenant: Id, doc: string, terms: Terms) returns (bundle: Bundle)
      modifies this`table
      ensures table == Published(old(table), tenant, doc, terms)
      ensures Chained(old(table), tenant) ==>
        && Chained(table, tenant) && Appended(old(table), table, tenant, bundle)
        && bundle.doc == doc && bundle.terms == terms
    {
      var version, epoch := QueryVersion(tenant);
      var prev := QueryHash(tenant, version);
      var me := Publisher(tenant, doc, version, epoch, prev);
      StepsAre(table, tenant, doc, terms);
      bundle := Bundle(version + 1, epoch + 1, doc, prev, terms);
      if Chained(table, tenant) {
        FreshReadAppends(table, me, terms);
      }
      if me.prev.Some? && Slot(tenant, me.version + 1) !in table {
        table := table[Slot(tenant, me.version + 1) := Row(me.epoch + 1, doc, me.prev.value, terms)];
      }
      assert table == Inserted(old(table), me, terms);
    }
  }

  /** A publisher that read the latest version appends the next one. */
  lemma FreshReadAppends(table: Table, me: Publisher, terms: Terms)
    requires Chained(table, me.tenant) && me == Head(table, me.tenant, me.doc)
    ensures me.epoch == me.version && me.prev.Some?
    ensures var after := Inserted(table, me, terms);
            && after == table[Slot(me.tenant, me.version + 1) := Row(me.version + 1, me.doc, me.prev.value, terms)]
            && Chained(after, me.tenant) && Latest(after, me.tenant) == me.version + 1
  {
    EpochIsVersion(table, me.tenant);
    assert me.version > 0 ==> Slot(me.tenant, me.version) in table;
    AppendKeepsChain(table, me.tenant, Row(me.epoch + 1, me.doc, me.prev.value, terms));
  }

  lemma StepsAre(table: Table, tenant: Id, doc: string, terms: Terms)
    ensures Published(table, tenant, doc, terms) == Inserted(table, Head(table, tenant, doc), terms)
  {
  }
}
