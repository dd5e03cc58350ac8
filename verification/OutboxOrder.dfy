/** What the writers keep: whatever the interleaving of transactions that read MAX(seq),
    insert, commit or abort, each stream's committed rows are numbered exactly 1..n and
    grow only at the end. */
module OutboxOrder {
  import opened Base
  import opened Messaging

  /** The stream's rows are numbered exactly 1..Height. */
  ghost predicate Full(rows: Rows, stream: Stream) {
    forall q: nat :: Slot(stream, q) in rows <==> 1 <= q <= Height(rows, stream)
  }

  ghost predicate AllFull(rows: Rows) {
    forall stream :: Full(rows, stream)
  }

  /** UNIQUE (tenant_id, message_id). */
  ghost predicate UniqueIds(rows: Rows) {
    forall j, k :: j in rows && k in rows && j.stream.tenant == k.stream.tenant && rows[j].id == rows[k].id ==> j == k
  }

  /** No row of one table collides with a row of the other, by key or by message id. */
  ghost predicate Apart(a: Rows, b: Rows) {
    forall j, k :: j in a && k in b ==> j != k && !(j.stream.tenant == k.stream.tenant && a[j].id == b[k].id)
  }

  /** No stream has rows in both tables. */
  ghost predicate DisjointStreams(a: Rows, b: Rows) {
    forall j, k :: j in a && k in b ==> j.stream != k.stream
  }

  /** A transaction extends the committed numbering of each stream it writes, and the
      number it read is at most one past what it sees now. */
  ghost predicate TxnOk(outbox: Rows, txn: Txn) {
    && AllFull(outbox + txn.rows)
    && UniqueIds(txn.rows)
    && Apart(outbox, txn.rows)
    && WriteFits(outbox, txn.rows, txn.write)
    && (forall k :: k in txn.rows ==> !txn.rows[k].acked)
  }

  ghost predicate TxnsOk(outbox: Rows, txns: map<Id, Txn>) {
    forall x :: x in txns ==> TxnOk(outbox, txns[x])
  }

  /** Open transactions write different streams and different messages. */
  ghost predicate Separate(a: Rows, b: Rows) {
    DisjointStreams(a, b) && Apart(a, b)
  }

  ghost predicate AllSeparate(txns: map<Id, Txn>) {
    forall x, y :: x in txns && y in txns && x != y ==> Separate(txns[x].rows, txns[y].rows)
  }

  ghost predicate SeparateFromOthers(txns: map<Id, Txn>, x: Id, rows: Rows) {
    forall y :: y in txns && y != x ==> Separate(rows, txns[y].rows) && Separate(txns[y].rows, rows)
  }

  ghost predicate Inv(s: State) {
    && AllFull(s.outbox)
    && UniqueIds(s.outbox)
    && TxnsOk(s.outbox, s.txns)
    && AllSeparate(s.txns)
  }

  // ---- the height of a table ----

  lemma HeightBounds(rows: Rows, stream: Stream)
    ensures forall q: nat :: Slot(stream, q) in rows ==> q <= Height(rows, stream)
    ensures Height(rows, stream) > 0 ==> Slot(stream, Height(rows, stream)) in rows
  {
    var seqs := set k | k in rows && k.stream == stream :: k.num;
    forall q: nat | Slot(stream, q) in rows
      ensures q <= Height(rows, stream)
    {
      assert Slot(stream, q).num in seqs;
    }
    if Height(rows, stream) > 0 {
      var k :| k in rows && k.stream == stream && k.num == Max0(seqs);
      assert k == Slot(stream, k.num);
    }
  }

  /** A table whose rows for a stream are exactly 1..n is full, and n is its height. */
  lemma FullAt(rows: Rows, stream: Stream, n: nat)
    requires forall q: nat :: Slot(stream, q) in rows <==> 1 <= q <= n
    ensures Height(rows, stream) == n && Full(rows, stream)
  {
    HeightBounds(rows, stream);
    if n > 0 {
      assert Slot(stream, n) in rows;
    }
  }

  /** Two tables with the same keys for a stream have the same height. */
  lemma SameHeight(a: Rows, b: Rows, stream: Stream)
    requires Full(a, stream)
    requires forall q: nat :: Slot(stream, q) in a <==> Slot(stream, q) in b
    ensures Height(b, stream) == Height(a, stream) && Full(b, stream)
  {
    FullAt(b, stream, Height(a, stream));
  }

  // ---- each step keeps the invariant ----

  /** Replacing one open transaction by one that fits keeps the others in order. */
  lemma PutTxnKeeps(outbox: Rows, txns: map<Id, Txn>, x: Id, txn: Txn)
    requires TxnsOk(outbox, txns) && AllSeparate(txns) && TxnOk(outbox, txn)
    requires SeparateFromOthers(txns, x, txn.rows)
    ensures TxnsOk(outbox, txns[x := txn]) && AllSeparate(txns[x := txn])
  {
  }

  lemma BeginKeeps(outbox: Rows, txns: map<Id, Txn>, x: Id)
    requires AllFull(outbox) && TxnsOk(outbox, txns) && AllSeparate(txns)
    ensures TxnsOk(outbox, WithTxn(txns, x)) && AllSeparate(WithTxn(txns, x))
  {
    if x !in txns {
      FreshTxnOk(outbox);
      EmptyIsSeparate(txns, x);
      PutTxnKeeps(outbox, txns, x, Txn(map[], None));
    }
  }

  lemma EmptyIsSeparate(txns: map<Id, Txn>, x: Id)
    ensures SeparateFromOthers(txns, x, map[])
  {
  }

  lemma FreshTxnOk(outbox: Rows)
    requires AllFull(outbox)
    ensures TxnOk(outbox, Txn(map[], None))
  {
    assert outbox + map[] == outbox;
  }

  lemma DropTxnKeeps(outbox: Rows, txns: map<Id, Txn>, x: Id)
    requires TxnsOk(outbox, txns) && AllSeparate(txns)
    ensures TxnsOk(outbox, txns - {x}) && AllSeparate(txns - {x})
  {
  }

  /** The number a statement read is at most one past what its transaction sees. */
  ghost predicate WriteFits(outbox: Rows, rows: Rows, write: Option<Write>) {
    write.Some? ==> 1 <= write.value.num <= Height(outbox + rows, write.value.stream) + 1
  }

  /** The statement an open transaction executes is no part of what it has inserted. */
  lemma SetWriteKeeps(outbox: Rows, txns: map<Id, Txn>, x: Id, write: Option<Write>)
    requires TxnsOk(outbox, txns) && AllSeparate(txns) && x in txns
    requires WriteFits(outbox, txns[x].rows, write)
    ensures TxnsOk(outbox, txns[x := Txn(txns[x].rows, write)]) && AllSeparate(txns[x := Txn(txns[x].rows, write)])
  {
  }

  lemma WithWriteKeeps(outbox: Rows, txns: map<Id, Txn>, x: Id, w: Write)
    requires TxnsOk(outbox, txns) && AllSeparate(txns)
    requires x in txns ==> WriteFits(outbox, txns[x].rows, Some(w))
    ensures TxnsOk(outbox, WithWrite(txns, x, w)) && AllSeparate(WithWrite(txns, x, w))
  {
  }

  /** An insert that is neither ignored, blocked nor refused writes the very next number. */
  lemma InsertIsNext(outbox: Rows, txn: Txn, w: Write)
    requires TxnOk(outbox, txn) && txn.write == Some(w)
    requires Slot(w.stream, w.num) !in outbox && Slot(w.stream, w.num) !in txn.rows
    ensures w.num == Height(outbox + txn.rows, w.stream) + 1
  {
    assert Full(outbox + txn.rows, w.stream) && WriteFits(outbox, txn.rows, txn.write);
    assert Slot(w.stream, w.num) !in outbox + txn.rows;
  }

  /** Whichever transaction writes a stream holds the first number not yet committed. */
  lemma WriterHoldsNext(outbox: Rows, txn: Txn, k: Slot)
    requires AllFull(outbox) && TxnOk(outbox, txn) && k in txn.rows
    ensures Slot(k.stream, Height(outbox, k.stream) + 1) in txn.rows
  {
    var seen, h := outbox + txn.rows, Height(outbox, k.stream);
    assert Full(seen, k.stream) && Full(outbox, k.stream);
    assert k == Slot(k.stream, k.num) && k in seen && k !in outbox;
    assert h + 1 <= k.num;
    assert Slot(k.stream, h + 1) in seen;
  }

  /** So if another open transaction wrote the stream, it holds the very number being inserted. */
  lemma OtherWriterHoldsIt(outbox: Rows, txn: Txn, w: Write, other: Txn, k: Slot)
    requires AllFull(outbox) && TxnOk(outbox, txn) && TxnOk(outbox, other)
    requires DisjointStreams(txn.rows, other.rows)
    requires txn.write == Some(w) && Slot(w.stream, w.num) !in outbox && Slot(w.stream, w.num) !in txn.rows
    requires k in other.rows && k.stream == w.stream
    ensures Slot(w.stream, w.num) in other.rows
  {
    WriterHoldsNext(outbox, other, k);
    InsertIsNext(outbox, txn, w);
    HeightWithout(outbox, txn.rows, w.stream);
  }

  lemma HeightWithout(outbox: Rows, rows: Rows, stream: Stream)
    requires AllFull(outbox) && forall j :: j in rows ==> j.stream != stream
    ensures Height(outbox + rows, stream) == Height(outbox, stream)
  {
    assert Full(outbox, stream);
    SameHeight(outbox, outbox + rows, stream);
  }

  lemma InsertKeeps(s: State, x: Id)
    requires Inv(s)
    ensures Inv(Next(s, Insert(x)))
  {
    if x !in s.txns || s.txns[x].write.None? {
      assert Next(s, Insert(x)) == s;
    } else {
      InsertRowKeeps(s, x, s.txns[x].write.value);
    }
  }

  lemma InsertRowKeeps(s: State, x: Id, w: Write)
    requires Inv(s) && x in s.txns && s.txns[x].write == Some(w)
    ensures Inv(InsertRow(s, x, w))
  {
    var txn, slot := s.txns[x], Slot(w.stream, w.num);
    assert TxnOk(s.outbox, txn);
    if HasId(s.outbox, w.stream.tenant, w.id) || HasId(txn.rows, w.stream.tenant, w.id) {
      SetWriteKeeps(s.outbox, s.txns, x, None);
      assert InsertRow(s, x, w) == s.(txns := s.txns[x := Txn(txn.rows, None)]);
    } else if Blocked(s, x, w) {
      assert InsertRow(s, x, w) == s;
    } else if slot in s.outbox || slot in txn.rows {
      DropTxnKeeps(s.outbox, s.txns, x);
      assert InsertRow(s, x, w) == s.(txns := s.txns - {x});
    } else {
      FreshInsertKeeps(s, x, w);
    }
  }

  lemma FreshInsertKeeps(s: State, x: Id, w: Write)
    requires Inv(s) && x in s.txns && s.txns[x].write == Some(w)
    requires !HasId(s.outbox, w.stream.tenant, w.id) && !HasId(s.txns[x].rows, w.stream.tenant, w.id)
    requires !Blocked(s, x, w)
    requires Slot(w.stream, w.num) !in s.outbox && Slot(w.stream, w.num) !in s.txns[x].rows
    ensures Inv(InsertRow(s, x, w))
  {
    var txn' := Txn(s.txns[x].rows[Slot(w.stream, w.num) := Row(w.id, w.payload, false)], None);
    InsertIsNext(s.outbox, s.txns[x], w);
    ExtendedTxnOk(s.outbox, s.txns[x], w);
    forall y | y in s.txns && y != x
      ensures Separate(txn'.rows, s.txns[y].rows) && Separate(s.txns[y].rows, txn'.rows)
    {
      FreshRowIsSeparate(s, x, w, y);
    }
    PutTxnKeeps(s.outbox, s.txns, x, txn');
    assert InsertRow(s, x, w) == s.(txns := s.txns[x := txn']);
  }

  lemma FreshRowIsSeparate(s: State, x: Id, w: Write, y: Id)
    requires Inv(s) && x in s.txns && s.txns[x].write == Some(w) && !Blocked(s, x, w)
    requires Slot(w.stream, w.num) !in s.outbox && Slot(w.stream, w.num) !in s.txns[x].rows
    requires y in s.txns && y != x
    ensures var rows := s.txns[x].rows[Slot(w.stream, w.num) := Row(w.id, w.payload, false)];
            Separate(rows, s.txns[y].rows) && Separate(s.txns[y].rows, rows)
  {
    var mine, other := s.txns[x].rows, s.txns[y].rows;
    assert Separate(mine, other) && Separate(other, mine);
    assert Slot(w.stream, w.num) !in other && !HasId(other, w.stream.tenant, w.id);
    forall k | k in other
      ensures k.stream != w.stream
    {
      if k.stream == w.stream {
        OtherWriterHoldsIt(s.outbox, s.txns[x], w, s.txns[y], k);
      }
    }
  }

  lemma ExtendedTxnOk(outbox: Rows, txn: Txn, w: Write)
    requires TxnOk(outbox, txn) && txn.write == Some(w)
    requires w.num == Height(outbox + txn.rows, w.stream) + 1
    requires !HasId(outbox, w.stream.tenant, w.id) && !HasId(txn.rows, w.stream.tenant, w.id)
    ensures TxnOk(outbox, Txn(txn.rows[Slot(w.stream, w.num) := Row(w.id, w.payload, false)], None))
  {
    var slot := Slot(w.stream, w.num);
    var rows' := txn.rows[slot := Row(w.id, w.payload, false)];
    var seen := outbox + txn.rows;
    HeightBounds(seen, w.stream);
    forall stream
      ensures Full(outbox + rows', stream)
    {
      assert Full(seen, stream);
      if stream == w.stream {
        FullAt(outbox + rows', stream, w.num);
      } else {
        SameHeight(seen, outbox + rows', stream);
      }
    }
  }

  lemma CommitKeeps(s: State, x: Id)
    requires Inv(s)
    ensures Inv(Next(s, Commit(x)))
  {
    if x !in s.txns || s.txns[x].write.Some? {
      assert Next(s, Commit(x)) == s;
    } else {
      var outbox', txns' := s.outbox + s.txns[x].rows, s.txns - {x};
      assert Next(s, Commit(x)) == s.(outbox := outbox', txns := txns');
      assert TxnOk(s.outbox, s.txns[x]);
      DropTxnKeeps(s.outbox, s.txns, x);
      forall y | y in txns'
        ensures TxnOk(outbox', txns'[y])
      {
        CommitKeepsOther(s, x, y);
      }
    }
  }

  lemma CommitKeepsOther(s: State, x: Id, y: Id)
    requires Inv(s) && x in s.txns && y in s.txns && x != y
    ensures TxnOk(s.outbox + s.txns[x].rows, s.txns[y])
  {
    var mine, other := s.txns[x].rows, s.txns[y].rows;
    assert TxnOk(s.outbox, s.txns[x]) && TxnOk(s.outbox, s.txns[y]);
    assert Separate(mine, other);
    forall stream
      ensures Full(s.outbox + mine + other, stream)
      ensures Height(s.outbox + mine + other, stream) >= Height(s.outbox + other, stream)
    {
      assert Full(s.outbox + mine, stream) && Full(s.outbox + other, stream) && Full(s.outbox, stream);
      if exists k :: k in mine && k.stream == stream {
        SameHeight(s.outbox + mine, s.outbox + mine + other, stream);
        SameHeight(s.outbox, s.outbox + other, stream);
        if Height(s.outbox, stream) > 0 {
          assert Slot(stream, Height(s.outbox, stream)) in s.outbox + mine;
        }
      } else {
        SameHeight(s.outbox + other, s.outbox + mine + other, stream);
      }
    }
  }

  /** Marking a row acknowledged changes no key and no message id. */
  lemma AckKeeps(s: State, stream: Stream, id: Id, num: nat, fence: nat)
    requires Inv(s)
    ensures Inv(Next(s, Ack(stream, id, num, fence)))
  {
    var s' := Next(s, Ack(stream, id, num, fence));
    assert s'.outbox.Keys == s.outbox.Keys;
    forall st
      ensures Full(s'.outbox, st)
    {
      assert Full(s.outbox, st);
      SameHeight(s.outbox, s'.outbox, st);
    }
    forall x | x in s'.txns
      ensures TxnOk(s'.outbox, s'.txns[x])
    {
      assert TxnOk(s.outbox, s.txns[x]);
      forall st
        ensures Full(s'.outbox + s.txns[x].rows, st)
        ensures Height(s'.outbox + s.txns[x].rows, st) == Height(s.outbox + s.txns[x].rows, st)
      {
        assert Full(s.outbox + s.txns[x].rows, st);
        SameHeight(s.outbox + s.txns[x].rows, s'.outbox + s.txns[x].rows, st);
      }
    }
  }

  lemma StepKeeps(s: State, e: Event)
    requires Inv(s)
    ensures Inv(Next(s, e))
  {
    match e
    case Begin(x) => BeginKeeps(s.outbox, s.txns, x);
    case ReadMax(x, stream, id, payload) =>
      WithWriteKeeps(s.outbox, s.txns, x, Write(stream, id, payload, NextNum(s.outbox, s.txns, x, stream)));
    case Insert(x) => InsertKeeps(s, x);
    case Commit(x) => CommitKeeps(s, x);
    case Rollback(x) => DropTxnKeeps(s.outbox, s.txns, x);
    case Acquire(_, _, _) =>
    case Renew(_, _, _) =>
    case Release(_, _) =>
    case Ack(stream, id, num, fence) => AckKeeps(s, stream, id, num, fence);
  }

  // ---- whole runs ----

  lemma {:induction false} RunKeeps(s: State, es: seq<Event>)
    requires Inv(s)
    ensures Inv(Run(s, es))
    decreases es
  {
    if es != [] {
      StepKeeps(s, es[0]);
      RunKeeps(Next(s, es[0]), es[1..]);
    }
  }

  /** Outbox visibility: after any run from an empty service, every stream's committed rows
      are numbered exactly 1..n and no message id appears twice in a tenant. */
  lemma CommittedAreNumbered(es: seq<Event>, stream: Stream)
    ensures var rows := Run(EMPTY, es).outbox;
            && (forall q: nat :: Slot(stream, q) in rows <==> 1 <= q <= Height(rows, stream))
            && UniqueIds(rows)
  {
    forall st ensures Full(EMPTY.outbox, st) {
      FullAt(EMPTY.outbox, st, 0);
    }
    RunKeeps(EMPTY, es);
    assert Full(Run(EMPTY, es).outbox, stream);
  }

  /** Committed rows stay, with their id and payload, and an acknowledgement is never undone. */
  ghost predicate Extends(a: Rows, b: Rows) {
    forall k :: k in a ==> k in b && b[k].id == a[k].id && b[k].payload == a[k].payload && (a[k].acked ==> b[k].acked)
  }

  lemma StepExtends(s: State, e: Event)
    requires e.Commit? && e.x in s.txns ==> Apart(s.outbox, s.txns[e.x].rows)
    ensures Extends(s.outbox, Next(s, e).outbox)
  {
  }

  lemma {:induction false} RunExtends(s: State, es: seq<Event>)
    requires Inv(s)
    ensures Extends(s.outbox, Run(s, es).outbox)
    decreases es
  {
    if es != [] {
      assert es[0].Commit? && es[0].x in s.txns ==> TxnOk(s.outbox, s.txns[es[0].x]);
      StepKeeps(s, es[0]);
      StepExtends(s, es[0]);
      RunExtends(Next(s, es[0]), es[1..]);
    }
  }

  /** So a row that becomes visible later has a higher number than every row of the stream
      already visible: a reader that has seen number n misses nothing at or below n. */
  lemma NoLateArrival(es: seq<Event>, more: seq<Event>, stream: Stream, seen: nat, late: nat)
    requires Slot(stream, seen) in Run(EMPTY, es).outbox
    requires Slot(stream, late) !in Run(EMPTY, es).outbox
    requires Slot(stream, late) in Run(Run(EMPTY, es), more).outbox
    ensures late > seen
  {
    CommittedAreNumbered(es, stream);
    RunSplit(EMPTY, es, more);
    CommittedAreNumbered(es + more, stream);
  }

  lemma {:induction false} RunSplit(s: State, es: seq<Event>, more: seq<Event>)
    ensures Run(s, es + more) == Run(Run(s, es), more)
    decreases es
  {
    if es == [] {
      assert es + more == more;
    } else {
      assert (es + more)[0] == es[0] && (es + more)[1..] == es[1..] + more;
      RunSplit(Next(s, es[0]), es[1..], more);
    }
  }
}
