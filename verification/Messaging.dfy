/** The outbox, inbox and cursor tables of the approval service, and every step
    that reads or writes them: writers that allocate MAX(seq) + 1 inside their own
    transactions, and consumers that lease, acknowledge and release.

    A writer's INSERT ... SELECT MAX(seq) is two steps here, the snapshot read and the
    insert, so that any other transaction may run in between. */
module Messaging {
  import opened Base

  /** One consumer of one tenant: a daemon node or an approver device. */
  datatype Stream = Stream(tenant: Id, consumer: string)

  /** The primary key (tenant_id, consumer, seq) of the outbox. */
  datatype Slot = Slot(stream: Stream, num: nat)

  datatype Row = Row(id: Id, payload: string, acked: bool)

  type Rows = map<Slot, Row>

  /** The primary key of the inbox. */
  datatype Processed = Processed(stream: Stream, id: Id)

  datatype Cursor = Cursor(lastAcked: nat, owner: Option<Id>, fence: nat, expires: Option<Time>)

  /** A write whose snapshot has been taken but whose row is not inserted yet. */
  datatype Write = Write(stream: Stream, id: Id, payload: string, num: nat)

  /** An open transaction: the rows it inserted, and the statement it is executing. */
  datatype Txn = Txn(rows: Rows, write: Option<Write>)

  datatype State = State(outbox: Rows, txns: map<Id, Txn>, inbox: set<Processed>, cursors: map<Stream, Cursor>)

  const EMPTY: State := State(map[], map[], {}, map[])

  const LEASE: Time := 15 * SECOND

  datatype Event =
    | Begin(x: Id)
    | ReadMax(x: Id, stream: Stream, id: Id, payload: string)
    | Insert(x: Id)
    | Commit(x: Id)
    | Rollback(x: Id)
    | Acquire(stream: Stream, owner: Id, now: Time)
    | Renew(stream: Stream, fence: nat, now: Time)
    | Release(stream: Stream, fence: nat)
    | Ack(stream: Stream, id: Id, num: nat, fence: nat)

  /** The highest sequence number a table holds for a stream, 0 if none. */
  ghost function Height(rows: Rows, stream: Stream): nat {
    Max0(set k | k in rows && k.stream == stream :: k.num)
  }

  /** Some row of the tenant already carries the message id. */
  predicate HasId(rows: Rows, tenant: Id, id: Id) {
    exists k :: k in rows && k.stream.tenant == tenant && rows[k].id == id
  }

  /** PostgreSQL makes an insert wait while another open transaction holds a row with the
      same key or the same message id. */
  predicate Blocked(s: State, x: Id, w: Write) {
    exists y :: y in s.txns && y != x &&
      (Slot(w.stream, w.num) in s.txns[y].rows || HasId(s.txns[y].rows, w.stream.tenant, w.id))
  }

  function WithTxn(txns: map<Id, Txn>, x: Id): map<Id, Txn> {
    if x in txns then txns else txns[x := Txn(map[], None)]
  }

  /** The snapshot read: one past the highest number the transaction sees for the stream. */
  ghost function NextNum(outbox: Rows, txns: map<Id, Txn>, x: Id, stream: Stream): nat {
    if x in txns then Height(outbox + txns[x].rows, stream) + 1 else 1
  }

  function WithWrite(txns: map<Id, Txn>, x: Id, w: Write): map<Id, Txn> {
    if x !in txns || txns[x].write.Some? then txns else txns[x := Txn(txns[x].rows, Some(w))]
  }

  /** The insert itself: a duplicate message id is ignored, a duplicate key aborts the
      whole transaction, otherwise the row joins the transaction's own rows. */
  function InsertRow(s: State, x: Id, w: Write): State
    requires x in s.txns
  {
    var txn := s.txns[x];
    var slot := Slot(w.stream, w.num);
    if HasId(s.outbox, w.stream.tenant, w.id) || HasId(txn.rows, w.stream.tenant, w.id) then
      s.(txns := s.txns[x := txn.(write := None)])
    else if Blocked(s, x, w) then s
    else if slot in s.outbox || slot in txn.rows then
      s.(txns := s.txns - {x})
    else
      s.(txns := s.txns[x := Txn(txn.rows[slot := Row(w.id, w.payload, false)], None)])
  }

  /** The fence a stream's lease holder must present; 0 before the first lease. */
  function Fence(s: State, stream: Stream): nat {
    if stream in s.cursors then s.cursors[stream].fence else 0
  }

  function LastAcked(s: State, stream: Stream): nat {
    if stream in s.cursors then s.cursors[stream].lastAcked else 0
  }

  function AcquireLease(s: State, stream: Stream, owner: Id, now: Time): State {
    s.(cursors := s.cursors[stream :=
      Cursor(LastAcked(s, stream), Some(owner), Fence(s, stream) + 1, Some(now + LEASE))])
  }

  /** The row a fenced UPDATE ... WHERE lease_fence = $n finds. */
  predicate HoldsFence(s: State, stream: Stream, fence: nat) {
    stream in s.cursors && s.cursors[stream].fence == fence
  }

  /** An unexpired lease may be renewed by the fence that holds it. */
  predicate Renewable(s: State, stream: Stream, fence: nat, now: Time) {
    HoldsFence(s, stream, fence) && s.cursors[stream].expires.Some? && s.cursors[stream].expires.value > now
  }

  function RenewLease(s: State, stream: Stream, fence: nat, now: Time): State {
    if Renewable(s, stream, fence, now) then
      s.(cursors := s.cursors[stream := s.cursors[stream].(expires := Some(now + LEASE))])
    else s
  }

  function ReleaseLease(s: State, stream: Stream, fence: nat): State {
    if HoldsFence(s, stream, fence) then
      s.(cursors := s.cursors[stream := s.cursors[stream].(owner := None, expires := None)])
    else s
  }

  /** AckMessage answers "new" for this acknowledgement. */
  predicate AckIsNew(s: State, stream: Stream, id: Id, fence: nat) {
    HoldsFence(s, stream, fence) && Processed(stream, id) !in s.inbox
  }

  function MarkAcked(rows: Rows, slot: Slot): Rows {
    if slot in rows then rows[slot := rows[slot].(acked := true)] else rows
  }

  function AckMessage(s: State, stream: Stream, id: Id, num: nat, fence: nat): State {
    if AckIsNew(s, stream, id, fence) then
      var c := s.cursors[stream];
      s.(outbox := MarkAcked(s.outbox, Slot(stream, num)),
         inbox := s.inbox + {Processed(stream, id)},
         cursors := s.cursors[stream := c.(lastAcked := if num > c.lastAcked then num else c.lastAcked)])
    else s
  }

  /** One step. A step that makes no sense in the state (an unknown transaction, a blocked
      insert) changes nothing, so every sequence of events is a run. */
  ghost function Next(s: State, e: Event): State {
    match e
    case Begin(x) => s.(txns := WithTxn(s.txns, x))
    case ReadMax(x, stream, id, payload) =>
      s.(txns := WithWrite(s.txns, x, Write(stream, id, payload, NextNum(s.outbox, s.txns, x, stream))))
    case Insert(x) =>
      if x !in s.txns || s.txns[x].write.None? then s else InsertRow(s, x, s.txns[x].write.value)
    case Commit(x) =>
      if x !in s.txns || s.txns[x].write.Some? then s
      else s.(outbox := s.outbox + s.txns[x].rows, txns := s.txns - {x})
    case Rollback(x) => s.(txns := s.txns - {x})
    case Acquire(stream, owner, now) => AcquireLease(s, stream, owner, now)
    case Renew(stream, fence, now) => RenewLease(s, stream, fence, now)
    case Release(stream, fence) => ReleaseLease(s, stream, fence)
    case Ack(stream, id, num, fence) => AckMessage(s, stream, id, num, fence)
  }

  /** The state after a run. */
  ghost function Run(s: State, es: seq<Event>): State
    decreases es
  {
    if es == [] then s else Run(Next(s, es[0]), es[1..])
  }
}
