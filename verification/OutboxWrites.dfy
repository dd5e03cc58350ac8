/** What becomes of a write: when it is appended, ignored or made to wait, and that the outbox holds
    exactly the messages of the transactions that committed. */
module OutboxWrites {
  import opened Base
  import opened Messaging
  import opened OutboxOrder

  /** A message, as deduplication sees it. */
  datatype Msg = Msg(tenant: Id, id: Id)

  /** Some row carries the message. */
  ghost predicate Carries(rows: Rows, m: Msg) {
    exists k :: k in rows && k.stream.tenant == m.tenant && rows[k].id == m.id
  }

  // ---- one write ----

  /** Another open transaction has written the stream or the message. */
  ghost predicate Rivalled(txns: map<Id, Txn>, x: Id, stream: Stream, m: Msg) {
    exists y :: y in txns && y != x && Rival(txns[y].rows, stream, m)
  }

  ghost predicate Rival(rows: Rows, stream: Stream, m: Msg) {
    (exists k :: k in rows && k.stream == stream) || Carries(rows, m)
  }

  /** The snapshot read takes the number after the n rows the transaction sees. */
  lemma ReadTakesNext(s: State, x: Id, stream: Stream, n: nat, id: Id, payload: string)
    requires x in s.txns && s.txns[x].write.None?
    requires forall q: nat :: Slot(stream, q) in s.outbox + s.txns[x].rows <==> 1 <= q <= n
    ensures Next(s, ReadMax(x, stream, id, payload)) ==
              s.(txns := s.txns[x := Txn(s.txns[x].rows, Some(Write(stream, id, payload, n + 1)))])
  {
    FullAt(s.outbox + s.txns[x].rows, stream, n);
  }

  /** Whoever else has rows in the stream holds that very number. */
  lemma RivalHoldsNext(s: State, x: Id, y: Id, stream: Stream, n: nat, k: Slot)
    requires Inv(s) && x in s.txns && y in s.txns && x != y && k in s.txns[y].rows && k.stream == stream
    requires forall q: nat :: Slot(stream, q) in s.outbox + s.txns[x].rows <==> 1 <= q <= n
    ensures Slot(stream, n + 1) in s.txns[y].rows
  {
    assert TxnOk(s.outbox, s.txns[y]) && Separate(s.txns[y].rows, s.txns[x].rows);
    FullAt(s.outbox + s.txns[x].rows, stream, n);
    HeightWithout(s.outbox, s.txns[x].rows, stream);
    WriterHoldsNext(s.outbox, s.txns[y], k);
  }

  /** The row that would make the insert wait. */
  ghost predicate Collides(rows: Rows, w: Write) {
    Slot(w.stream, w.num) in rows || HasId(rows, w.stream.tenant, w.id)
  }

  lemma CollidesIffRival(s: State, x: Id, y: Id, w: Write)
    requires Inv(s) && x in s.txns && y in s.txns && x != y && w.num > 0
    requires forall q: nat :: Slot(w.stream, q) in s.outbox + s.txns[x].rows <==> 1 <= q < w.num
    ensures Collides(s.txns[y].rows, w) <==> Rival(s.txns[y].rows, w.stream, Msg(w.stream.tenant, w.id))
  {
    if k :| k in s.txns[y].rows && k.stream == w.stream {
      RivalHoldsNext(s, x, y, w.stream, w.num - 1, k);
    }
    assert Carries(s.txns[y].rows, Msg(w.stream.tenant, w.id)) <==> HasId(s.txns[y].rows, w.stream.tenant, w.id);
  }

  lemma BlockedIffRivalled(s: State, x: Id, w: Write)
    requires Inv(s) && x in s.txns && w.num > 0
    requires forall q: nat :: Slot(w.stream, q) in s.outbox + s.txns[x].rows <==> 1 <= q < w.num
    ensures Blocked(s.(txns := s.txns[x := Txn(s.txns[x].rows, Some(w))]), x, w) <==>
              Rivalled(s.txns, x, w.stream, Msg(w.stream.tenant, w.id))
  {
    forall y | y in s.txns && y != x
      ensures Collides(s.txns[y].rows, w) <==> Rival(s.txns[y].rows, w.stream, Msg(w.stream.tenant, w.id))
    {
      CollidesIffRival(s, x, y, w);
    }
    BlockedIs(s, x, w);
  }

  lemma BlockedIs(s: State, x: Id, w: Write)
    requires x in s.txns
    ensures Blocked(s.(txns := s.txns[x := Txn(s.txns[x].rows, Some(w))]), x, w) <==>
              exists y :: y in s.txns && y != x && Collides(s.txns[y].rows, w)
  {
    var t := s.(txns := s.txns[x := Txn(s.txns[x].rows, Some(w))]);
    assert forall y :: y != x ==> (y in t.txns <==> y in s.txns) && (y in s.txns ==> t.txns[y] == s.txns[y]);
  }

  /** What an uninterrupted write does, exactly: a message its transaction can see is ignored; while
      another open transaction has written the stream or the message, it waits; otherwise it appends
      the next number. It never aborts, and nothing else changes. */
  lemma WriteOutcome(s: State, x: Id, stream: Stream, n: nat, id: Id, payload: string)
    requires Inv(s) && x in s.txns && s.txns[x].write.None?
    requires forall q: nat :: Slot(stream, q) in s.outbox + s.txns[x].rows <==> 1 <= q <= n
    ensures var t := Next(Next(s, ReadMax(x, stream, id, payload)), Insert(x));
            var own, m := s.txns[x].rows, Msg(stream.tenant, id);
            if Carries(s.outbox, m) || Carries(own, m) then t == s
            else if Rivalled(s.txns, x, stream, m) then
              t == s.(txns := s.txns[x := Txn(own, Some(Write(stream, id, payload, n + 1)))])
            else
              t == s.(txns := s.txns[x := Txn(own[Slot(stream, n + 1) := Row(id, payload, false)], None)])
  {
    var own, w := s.txns[x].rows, Write(stream, id, payload, n + 1);
    ReadTakesNext(s, x, stream, n, id, payload);
    BlockedIffRivalled(s, x, w);
    var s1 := s.(txns := s.txns[x := Txn(own, Some(w))]);
    assert s1.txns[x := Txn(own, None)] == s.txns;
    assert Slot(stream, n + 1) !in s.outbox + own;
    InsertOutcome(s1, x, w);
  }

  lemma InsertOutcome(s: State, x: Id, w: Write)
    requires x in s.txns && s.txns[x].write == Some(w)
    requires Slot(w.stream, w.num) !in s.outbox && Slot(w.stream, w.num) !in s.txns[x].rows
    ensures var own, m := s.txns[x].rows, Msg(w.stream.tenant, w.id);
            var t := Next(s, Insert(x));
            if Carries(s.outbox, m) || Carries(own, m) then t == s.(txns := s.txns[x := Txn(own, None)])
            else if Blocked(s, x, w) then t == s
            else t == s.(txns := s.txns[x := Txn(own[Slot(w.stream, w.num) := Row(w.id, w.payload, false)], None)])
  {
    var own, m := s.txns[x].rows, Msg(w.stream.tenant, w.id);
    assert Carries(s.outbox, m) <==> HasId(s.outbox, w.stream.tenant, w.id);
    assert Carries(own, m) <==> HasId(own, w.stream.tenant, w.id);
  }

  /** A write that finds its number taken loses its whole transaction. */
  lemma LateInsertAborts(s: State, x: Id, w: Write)
    requires x in s.txns && s.txns[x].write == Some(w) && Slot(w.stream, w.num) in s.outbox
    requires !Carries(s.outbox, Msg(w.stream.tenant, w.id)) && !Carries(s.txns[x].rows, Msg(w.stream.tenant, w.id))
    requires forall y :: y in s.txns && y != x ==> !Rival(s.txns[y].rows, w.stream, Msg(w.stream.tenant, w.id))
    ensures Next(s, Insert(x)) == s.(txns := s.txns - {x})
  {
    var own, m := s.txns[x].rows, Msg(w.stream.tenant, w.id);
    assert Carries(s.outbox, m) <==> HasId(s.outbox, w.stream.tenant, w.id);
    assert Carries(own, m) <==> HasId(own, w.stream.tenant, w.id);
    forall y | y in s.txns && y != x
      ensures Slot(w.stream, w.num) !in s.txns[y].rows && !HasId(s.txns[y].rows, w.stream.tenant, w.id)
    {
      assert !Rival(s.txns[y].rows, w.stream, m);
    }
  }

  // ---- all writes of a run ----

  /** The messages each open transaction has written, and those of the transactions that committed. */
  datatype Ledger = Ledger(open: map<Id, set<Msg>>, done: set<Msg>)

  function Open(l: Ledger, x: Id): set<Msg> {
    if x in l.open then l.open[x] else {}
  }

  /** The insert was completed: it neither waits nor lost its transaction. */
  ghost predicate Completes(s: State, e: Event) {
    && e.Insert? && e.x in s.txns && s.txns[e.x].write.Some?
    && e.x in Next(s, e).txns && Next(s, e).txns[e.x].write.None?
  }

  ghost function Noted(s: State, l: Ledger, e: Event): Ledger {
    if e.Begin? && e.x !in s.txns then l.(open := l.open[e.x := {}])
    else if Completes(s, e) then
      var w := s.txns[e.x].write.value;
      l.(open := l.open[e.x := Open(l, e.x) + {Msg(w.stream.tenant, w.id)}])
    else if e.Commit? && e.x in s.txns && s.txns[e.x].write.None? then l.(done := l.done + Open(l, e.x))
    else l
  }

  ghost function LedgerOf(s: State, l: Ledger, es: seq<Event>): Ledger
    decreases es
  {
    if es == [] then l else LedgerOf(Next(s, es[0]), Noted(s, l, es[0]), es[1..])
  }

  ghost predicate DoneExact(outbox: Rows, done: set<Msg>) {
    forall m :: Carries(outbox, m) <==> m in done
  }

  ghost predicate OpenExact(outbox: Rows, rows: Rows, open: set<Msg>) {
    && (forall m :: m in open ==> Carries(outbox, m) || Carries(rows, m))
    && (forall m :: Carries(rows, m) ==> m in open)
  }

  ghost predicate OpensExact(outbox: Rows, txns: map<Id, Txn>, l: Ledger) {
    forall x :: x in txns ==> OpenExact(outbox, txns[x].rows, Open(l, x))
  }

  ghost predicate LedgerOk(s: State, l: Ledger) {
    DoneExact(s.outbox, l.done) && OpensExact(s.outbox, s.txns, l)
  }

  lemma MergeCarries(a: Rows, b: Rows, m: Msg)
    requires Apart(a, b)
    ensures Carries(a + b, m) <==> Carries(a, m) || Carries(b, m)
  {
    if k :| k in a && k.stream.tenant == m.tenant && a[k].id == m.id {
      assert k !in b by {
        assert k in b ==> k != k;
      }
      assert (a + b)[k] == a[k];
    }
    if k :| k in b && k.stream.tenant == m.tenant && b[k].id == m.id {
      assert (a + b)[k] == b[k];
    }
  }

  lemma CommitNotes(s: State, l: Ledger, x: Id)
    requires Inv(s) && LedgerOk(s, l)
    ensures LedgerOk(Next(s, Commit(x)), Noted(s, l, Commit(x)))
  {
    if x in s.txns && s.txns[x].write.None? {
      var rows := s.txns[x].rows;
      assert TxnOk(s.outbox, s.txns[x]) && OpenExact(s.outbox, rows, Open(l, x));
      forall m
        ensures Carries(s.outbox + rows, m) <==> Carries(s.outbox, m) || Carries(rows, m)
      {
        MergeCarries(s.outbox, rows, m);
      }
      forall y | y in s.txns && y != x
        ensures OpenExact(s.outbox + rows, s.txns[y].rows, Open(l, y))
      {
        assert OpenExact(s.outbox, s.txns[y].rows, Open(l, y));
      }
    }
  }

  lemma AppendCarries(rows: Rows, slot: Slot, row: Row, m: Msg)
    requires slot !in rows
    ensures Carries(rows[slot := row], m) <==> Carries(rows, m) || m == Msg(slot.stream.tenant, row.id)
  {
    var more := rows[slot := row];
    if k :| k in rows && k.stream.tenant == m.tenant && rows[k].id == m.id {
      assert more[k] == rows[k];
    }
    if m == Msg(slot.stream.tenant, row.id) {
      assert more[slot] == row;
    }
  }

  /** What an insert may make of its transaction. */
  lemma InsertCases(s: State, x: Id, w: Write)
    requires x in s.txns && s.txns[x].write == Some(w)
    ensures var own, m, slot := s.txns[x].rows, Msg(w.stream.tenant, w.id), Slot(w.stream, w.num);
            var t := Next(s, Insert(x));
            && t.outbox == s.outbox
            && (|| (t.txns == s.txns && !Completes(s, Insert(x)))
                || (t.txns == s.txns - {x} && !Completes(s, Insert(x)))
                || (t.txns == s.txns[x := Txn(own, None)] && (Carries(s.outbox, m) || Carries(own, m)))
                || (slot !in own && t.txns == s.txns[x := Txn(own[slot := Row(w.id, w.payload, false)], None)]))
  {
    var own, m := s.txns[x].rows, Msg(w.stream.tenant, w.id);
    assert Carries(s.outbox, m) <==> HasId(s.outbox, w.stream.tenant, w.id);
    assert Carries(own, m) <==> HasId(own, w.stream.tenant, w.id);
  }

  lemma PutNotes(outbox: Rows, txns: map<Id, Txn>, l: Ledger, x: Id, txn: Txn, open: set<Msg>)
    requires OpensExact(outbox, txns, l) && OpenExact(outbox, txn.rows, open)
    ensures OpensExact(outbox, txns[x := txn], l.(open := l.open[x := open]))
  {
  }

  lemma InsertNotes(s: State, l: Ledger, x: Id)
    requires LedgerOk(s, l)
    ensures LedgerOk(Next(s, Insert(x)), Noted(s, l, Insert(x)))
  {
    if x in s.txns && s.txns[x].write.Some? {
      var w := s.txns[x].write.value;
      var own, m, slot := s.txns[x].rows, Msg(w.stream.tenant, w.id), Slot(w.stream, w.num);
      InsertCases(s, x, w);
      if Completes(s, Insert(x)) {
        assert OpenExact(s.outbox, own, Open(l, x));
        var rows := Next(s, Insert(x)).txns[x].rows;
        if rows != own {
          forall k: Msg
            ensures Carries(rows, k) <==> Carries(own, k) || k == m
          {
            AppendCarries(own, slot, Row(w.id, w.payload, false), k);
          }
        }
        PutNotes(s.outbox, s.txns, l, x, Txn(rows, None), Open(l, x) + {m});
      }
    } else {
      assert Next(s, Insert(x)) == s;
    }
  }

  lemma AckNotes(s: State, l: Ledger, stream: Stream, id: Id, num: nat, fence: nat)
    requires LedgerOk(s, l)
    ensures LedgerOk(Next(s, Ack(stream, id, num, fence)), l)
  {
    var rows := MarkAcked(s.outbox, Slot(stream, num));
    assert rows.Keys == s.outbox.Keys && forall k :: k in rows ==> rows[k].id == s.outbox[k].id;
    forall m
      ensures Carries(rows, m) <==> Carries(s.outbox, m)
    {
      if k :| k in s.outbox && k.stream.tenant == m.tenant && s.outbox[k].id == m.id {
        assert rows[k].id == m.id;
      }
    }
  }

  lemma ReadNotes(outbox: Rows, txns: map<Id, Txn>, l: Ledger, x: Id, w: Write)
    requires OpensExact(outbox, txns, l)
    ensures OpensExact(outbox, WithWrite(txns, x, w), l)
  {
  }

  lemma StepNotes(s: State, l: Ledger, e: Event)
    requires Inv(s) && LedgerOk(s, l)
    ensures LedgerOk(Next(s, e), Noted(s, l, e))
  {
    match e
    case Begin(x) =>
      if x !in s.txns {
        PutNotes(s.outbox, s.txns, l, x, Txn(map[], None), {});
      }
    case ReadMax(x, stream, id, payload) =>
      ReadNotes(s.outbox, s.txns, l, x, Write(stream, id, payload, NextNum(s.outbox, s.txns, x, stream)));
    case Insert(x) => InsertNotes(s, l, x);
    case Commit(x) => CommitNotes(s, l, x);
    case Ack(stream, id, num, fence) => AckNotes(s, l, stream, id, num, fence);
    case _ =>
  }

  lemma {:induction false} RunNotes(s: State, l: Ledger, es: seq<Event>)
    requires Inv(s) && LedgerOk(s, l)
    ensures LedgerOk(Run(s, es), LedgerOf(s, l, es))
    decreases es
  {
    if es != [] {
      StepKeeps(s, es[0]);
      StepNotes(s, l, es[0]);
      RunNotes(Next(s, es[0]), Noted(s, l, es[0]), es[1..]);
    }
  }

  /** Over every run the outbox holds exactly the messages written by transactions that committed: no
      completed write of a committed transaction is lost, and nothing of an aborted one appears. */
  lemma CommittedWritesAreThere(es: seq<Event>, m: Msg)
    ensures Carries(Run(EMPTY, es).outbox, m) <==> m in LedgerOf(EMPTY, Ledger(map[], {}), es).done
  {
    forall st ensures Full(EMPTY.outbox, st) {
      FullAt(EMPTY.outbox, st, 0);
    }
    RunNotes(EMPTY, Ledger(map[], {}), es);
  }
}
