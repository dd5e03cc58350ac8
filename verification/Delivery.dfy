/** Delivery: fenced leases, fetching above the cursor, acknowledging with deduplication.
    The class follows the service's methods; the lemmas say what every run of them keeps. */
module Delivery {
  import opened Base
  import opened Messaging
  import opened OutboxOrder

  datatype Message = Message(stream: Stream, id: Id, payload: string)

  // ---- what FetchPending must return ----

  /** WHERE consumer = $2 AND seq > $3 AND acked_at IS NULL */
  function PendingNums(rows: Rows, stream: Stream, from: int): set<nat> {
    set k | k in rows && k.stream == stream && k.num > from && !rows[k].acked :: k.num
  }

  /** The message a slot holds. */
  function MessageAt(rows: Rows, stream: Stream, num: nat): Message {
    if Slot(stream, num) in rows then
      Message(stream, rows[Slot(stream, num)].id, rows[Slot(stream, num)].payload)
    else Message(stream, 0, "")
  }

  ghost function Messages(rows: Rows, stream: Stream, page: seq<nat>): seq<Message> {
    seq(|page|, i requires 0 <= i < |page| => MessageAt(rows, stream, page[i]))
  }

  ghost function Fetch(rows: Rows, stream: Stream, from: int, limit: nat): seq<Message> {
    Messages(rows, stream, Ascending(PendingNums(rows, stream, from), limit))
  }

  /** The tables behind a DeliveryStream and an OutboxWriter. */
  class MessageStore {
    var outbox: Rows
    var txns: map<Id, Txn>
    var inbox: set<Processed>
    var cursors: map<Stream, Cursor>

    function Tables(): State
      reads this
    {
      State(outbox, txns, inbox, cursors)
    }

    constructor ()
      ensures Tables() == EMPTY
    {
      outbox, txns, inbox, cursors := map[], map[], {}, map[];
    }

    /** One INSERT ... SELECT COALESCE(MAX(seq), 0) + 1 ... ON CONFLICT (tenant_id, message_id)
        DO NOTHING that no other transaction interrupts: the snapshot read and then the insert. */
    method WriteTx(x: Id, stream: Stream, id: Id, payload: string)
      requires x in txns && txns[x].write.None?
      modifies this
      ensures Tables() == Next(Next(old(Tables()), ReadMax(x, stream, id, payload)), Insert(x))
    {
      var seen := outbox + txns[x].rows;
      var top := ComputeMax0(set k | k in seen && k.stream == stream :: k.num);
      var w := Write(stream, id, payload, top + 1);
      txns := txns[x := Txn(txns[x].rows, Some(w))];
      assert Tables() == Next(old(Tables()), ReadMax(x, stream, id, payload));
      if HasId(outbox, stream.tenant, id) || HasId(txns[x].rows, stream.tenant, id) {
        txns := txns[x := txns[x].(write := None)];
      } else if Blocked(Tables(), x, w) {
        return;
      } else if Slot(stream, w.num) in outbox || Slot(stream, w.num) in txns[x].rows {
        txns := txns - {x};
      } else {
        txns := txns[x := Txn(txns[x].rows[Slot(stream, w.num) := Row(id, payload, false)], None)];
      }
    }

    method AcquireLease(stream: Stream, owner: Id, now: Time) returns (fence: nat, lastAcked: nat)
      modifies this`cursors
      ensures Tables() == Messaging.AcquireLease(old(Tables()), stream, owner, now)
      ensures fence == Fence(Tables(), stream) && fence > old(Fence(Tables(), stream))
      ensures lastAcked == old(LastAcked(Tables(), stream))
    {
      if stream !in cursors {
        cursors := cursors[stream := Cursor(0, Some(owner), 1, Some(now + LEASE))];
      } else {
        var c := cursors[stream];
        cursors := cursors[stream := c.(owner := Some(owner), fence := c.fence + 1, expires := Some(now + LEASE))];
      }
      return cursors[stream].fence, cursors[stream].lastAcked;
    }

    method RenewLease(stream: Stream, fence: nat, now: Time) returns (ok: bool)
      modifies this`cursors
      ensures Tables() == Messaging.RenewLease(old(Tables()), stream, fence, now)
      ensures ok == old(Renewable(Tables(), stream, fence, now))
    {
      if stream in cursors && cursors[stream].fence == fence {
        var c := cursors[stream];
        if c.expires.Some? && c.expires.value > now {
          cursors := cursors[stream := c.(expires := Some(now + LEASE))];
          return true;
        }
      }
      return false;
    }

    method ReleaseLease(stream: Stream, fence: nat)
      modifies this`cursors
      ensures Tables() == Messaging.ReleaseLease(old(Tables()), stream, fence)
    {
      if stream in cursors && cursors[stream].fence == fence {
        cursors := cursors[stream := cursors[stream].(owner := None, expires := None)];
      }
    }

    method FetchPending(stream: Stream, from: int, limit: nat) returns (messages: seq<Message>)
      ensures messages == Fetch(outbox, stream, from, limit)
    {
      messages := [];
      ghost var page := [];
      var rest := PendingNums(outbox, stream, from);
      ghost var all := Ascending(rest, limit);
      while rest != {} && |messages| < limit
        invariant |messages| == |page| <= limit
        invariant page + Ascending(rest, limit - |page|) == all
        invariant forall i :: 0 <= i < |page| ==> messages[i] == MessageAt(outbox, stream, page[i])
        decreases limit - |messages|
      {
        var num := ComputeMin(rest);
        messages := messages + [MessageAt(outbox, stream, num)];
        var left := Ascending(rest - {num}, limit - |messages|);
        assert page + ([num] + left) == (page + [num]) + left;
        page := page + [num];
        rest := rest - {num};
      }
      assert page == all;
    }

    /** Some(new) when the fence is current, None for the stale-fence error. */
    method AckMessage(stream: Stream, id: Id, num: nat, fence: nat) returns (r: Option<bool>)
      modifies this
      ensures Tables() == Messaging.AckMessage(old(Tables()), stream, id, num, fence)
      ensures r.Some? == old(HoldsFence(Tables(), stream, fence))
      ensures r.Some? ==> r.value == old(AckIsNew(Tables(), stream, id, fence))
    {
      if stream !in cursors {
        return None;
      }
      if cursors[stream].fence != fence {
        return None;
      }
      var already := Processed(stream, id) in inbox;
      if !already {
        if Slot(stream, num) in outbox {
          outbox := outbox[Slot(stream, num) := outbox[Slot(stream, num)].(acked := true)];
        }
        inbox := inbox + {Processed(stream, id)};
        if num > cursors[stream].lastAcked {
          cursors := cursors[stream := cursors[stream].(lastAcked := num)];
        }
      }
      return Some(!already);
    }
  }

  // ---- delivery without loss or duplication ----

  /** The row a consumer that works in order acknowledges next. */
  ghost predicate LowestPending(s: State, stream: Stream, id: Id, num: nat) {
    && Slot(stream, num) in s.outbox
    && !s.outbox[Slot(stream, num)].acked
    && s.outbox[Slot(stream, num)].id == id
    && forall q: nat :: q < num && Slot(stream, q) in s.outbox ==> s.outbox[Slot(stream, q)].acked
  }

  /** Every acknowledgement that takes effect is a retry or names the lowest pending row. */
  ghost predicate InOrderStep(s: State, e: Event) {
    e.Ack? && AckIsNew(s, e.stream, e.id, e.fence) ==> LowestPending(s, e.stream, e.id, e.num)
  }

  ghost predicate InOrder(s: State, es: seq<Event>)
    decreases es
  {
    es != [] ==> InOrderStep(s, es[0]) && InOrder(Next(s, es[0]), es[1..])
  }

  /** Exactly the rows up to the cursor are acknowledged. */
  ghost predicate CursorExact(rows: Rows, stream: Stream, cursor: nat) {
    && cursor <= Height(rows, stream)
    && forall q: nat :: Slot(stream, q) in rows ==> (rows[Slot(stream, q)].acked <==> q <= cursor)
  }

  /** Some acknowledged row of the stream carries the message. */
  ghost predicate AckedId(rows: Rows, stream: Stream, id: Id) {
    exists q: nat :: Slot(stream, q) in rows && rows[Slot(stream, q)].acked && rows[Slot(stream, q)].id == id
  }

  /** The inbox remembers exactly the acknowledged messages. */
  ghost predicate InboxExact(rows: Rows, stream: Stream, inbox: set<Processed>) {
    forall id :: Processed(stream, id) in inbox <==> AckedId(rows, stream, id)
  }

  ghost predicate Exact(s: State, stream: Stream) {
    CursorExact(s.outbox, stream, LastAcked(s, stream)) && InboxExact(s.outbox, stream, s.inbox)
  }

  ghost predicate DeliveryInv(s: State) {
    Inv(s) && forall stream :: Exact(s, stream)
  }

  /** In order means one past the cursor. */
  lemma LowestIsNext(s: State, stream: Stream, id: Id, num: nat)
    requires Full(s.outbox, stream) && CursorExact(s.outbox, stream, LastAcked(s, stream))
    requires LowestPending(s, stream, id, num)
    ensures num == LastAcked(s, stream) + 1
  {
    var c := LastAcked(s, stream);
    assert 1 <= c + 1 <= Height(s.outbox, stream);
    assert Slot(stream, c + 1) in s.outbox;
  }

  /** Acknowledging the row after the cursor. */
  lemma MarkKeepsExact(rows: Rows, stream: Stream, num: nat, inbox: set<Processed>, st: Stream, c: nat)
    requires Full(rows, st) && CursorExact(rows, st, c) && InboxExact(rows, st, inbox)
    requires Slot(stream, num) in rows && (st == stream ==> num == c + 1)
    ensures var rows' := MarkAcked(rows, Slot(stream, num));
            && CursorExact(rows', st, if st == stream then num else c)
            && InboxExact(rows', st, inbox + {Processed(stream, rows[Slot(stream, num)].id)})
  {
    var slot := Slot(stream, num);
    var rows', inbox' := MarkAcked(rows, slot), inbox + {Processed(stream, rows[slot].id)};
    SameHeight(rows, rows', st);
    forall i
      ensures Processed(st, i) in inbox' <==> AckedId(rows', st, i)
    {
      if AckedId(rows, st, i) {
        var q: nat :| Slot(st, q) in rows && rows[Slot(st, q)].acked && rows[Slot(st, q)].id == i;
        assert rows'[Slot(st, q)].acked && rows'[Slot(st, q)].id == i;
      } else if st == stream && i == rows[slot].id {
        assert rows'[Slot(st, num)].acked && rows'[Slot(st, num)].id == i;
      }
    }
  }

  lemma AckKeepsDelivery(s: State, stream: Stream, id: Id, num: nat, fence: nat, st: Stream)
    requires DeliveryInv(s) && InOrderStep(s, Ack(stream, id, num, fence))
    ensures Exact(AckMessage(s, stream, id, num, fence), st)
  {
    assert Full(s.outbox, st) && Full(s.outbox, stream) && Exact(s, st) && Exact(s, stream);
    if AckIsNew(s, stream, id, fence) {
      LowestIsNext(s, stream, id, num);
      MarkKeepsExact(s.outbox, stream, num, s.inbox, st, LastAcked(s, st));
    }
  }

  /** New rows come after all the old ones and are not acknowledged. */
  lemma AppendKeepsExact(rows: Rows, more: Rows, st: Stream, c: nat, inbox: set<Processed>)
    requires Full(rows, st) && Full(rows + more, st) && Apart(rows, more)
    requires forall k :: k in more ==> !more[k].acked
    requires CursorExact(rows, st, c) && InboxExact(rows, st, inbox)
    ensures CursorExact(rows + more, st, c) && InboxExact(rows + more, st, inbox)
  {
  }

  lemma CommitKeepsDelivery(s: State, x: Id, st: Stream)
    requires DeliveryInv(s)
    ensures Exact(Next(s, Commit(x)), st)
  {
    assert Full(s.outbox, st) && Exact(s, st);
    if x in s.txns && s.txns[x].write.None? {
      assert TxnOk(s.outbox, s.txns[x]) && Full(s.outbox + s.txns[x].rows, st);
      AppendKeepsExact(s.outbox, s.txns[x].rows, st, LastAcked(s, st), s.inbox);
    }
  }

  /** The other steps touch neither committed rows, inbox nor cursor position. */
  lemma QuietSteps(s: State, e: Event, st: Stream)
    requires !e.Ack? && !e.Commit?
    ensures var s' := Next(s, e); s'.outbox == s.outbox && s'.inbox == s.inbox && LastAcked(s', st) == LastAcked(s, st)
  {
  }

  lemma StepKeepsDelivery(s: State, e: Event)
    requires DeliveryInv(s) && InOrderStep(s, e)
    ensures DeliveryInv(Next(s, e))
  {
    StepKeeps(s, e);
    forall st
      ensures Exact(Next(s, e), st)
    {
      assert Exact(s, st);
      match e
      case Ack(stream, id, num, fence) => AckKeepsDelivery(s, stream, id, num, fence, st);
      case Commit(x) => CommitKeepsDelivery(s, x, st);
      case _ => QuietSteps(s, e, st);
    }
  }

  lemma {:induction false} RunKeepsDelivery(s: State, es: seq<Event>)
    requires DeliveryInv(s) && InOrder(s, es)
    ensures DeliveryInv(Run(s, es))
    decreases es
  {
    if es != [] {
      StepKeepsDelivery(s, es[0]);
      RunKeepsDelivery(Next(s, es[0]), es[1..]);
    }
  }

  lemma EmptyDelivers()
    ensures DeliveryInv(EMPTY)
  {
  }

  /** The rows of a stream that are acknowledged. */
  ghost function AckedSlots(s: State, stream: Stream): set<Slot> {
    set k | k in s.outbox && k.stream == stream && s.outbox[k].acked
  }

  lemma {:induction false} FirstSlotsCount(stream: Stream, slots: set<Slot>, n: nat)
    requires forall k :: k in slots <==> k.stream == stream && 1 <= k.num <= n
    ensures |slots| == n
  {
    if n == 0 {
      assert slots == {};
    } else {
      FirstSlotsCount(stream, slots - {Slot(stream, n)}, n - 1);
    }
  }

  /** Over every in-order run, across lease takeovers and retries: the cursor equals the number
      of acknowledged rows, and it stands exactly before the first row not acknowledged. */
  lemma CursorCountsAcked(es: seq<Event>, stream: Stream)
    requires InOrder(EMPTY, es)
    ensures var s := Run(EMPTY, es);
            && LastAcked(s, stream) == |AckedSlots(s, stream)|
            && (forall q: nat ::
                  Slot(stream, q) in s.outbox && s.outbox[Slot(stream, q)].acked <==> 1 <= q <= LastAcked(s, stream))
  {
    EmptyDelivers();
    RunKeepsDelivery(EMPTY, es);
    var s := Run(EMPTY, es);
    assert Full(s.outbox, stream) && Exact(s, stream);
    forall k: Slot
      ensures k in AckedSlots(s, stream) <==> k.stream == stream && 1 <= k.num <= LastAcked(s, stream)
    {
      assert k == Slot(k.stream, k.num);
    }
    FirstSlotsCount(stream, AckedSlots(s, stream), LastAcked(s, stream));
  }

  /** From any number, not only the cursor: the messages of the lowest unacknowledged rows above it, in
      rising order, as many as the limit allows, and every one left out has a higher number. */
  lemma FetchIsLowest(rows: Rows, stream: Stream, from: int, limit: nat)
    ensures var page := Ascending(PendingNums(rows, stream, from), limit);
            && Fetch(rows, stream, from, limit) == Messages(rows, stream, page)
            && (forall i, j :: 0 <= i < j < |page| ==> page[i] < page[j])
            && (forall i :: 0 <= i < |page| ==> Waiting(rows, stream, from, page[i]))
            && (forall q: nat, i :: Waiting(rows, stream, from, q) && q !in page && 0 <= i < |page| ==> page[i] < q)
            && (|page| < limit ==> forall q: nat :: Waiting(rows, stream, from, q) ==> q in page)
  {
    var pending := PendingNums(rows, stream, from);
    var page := Ascending(pending, limit);
    AscendingIs(pending, limit);
    forall q: nat
      ensures q in pending <==> Waiting(rows, stream, from, q)
    {
      if k :| k in rows && k.stream == stream && k.num > from && !rows[k].acked && k.num == q {
        assert k == Slot(stream, q);
      }
      if Waiting(rows, stream, from, q) {
        assert Slot(stream, q).num in pending;
      }
    }
    if |page| < limit {
      AllAreIn(page, pending);
    }
  }

  /** The row is there, above the number, and not acknowledged. */
  predicate Waiting(rows: Rows, stream: Stream, from: int, q: nat) {
    Slot(stream, q) in rows && q > from && !rows[Slot(stream, q)].acked
  }

  /** As many different elements as the set has are all of them. */
  lemma {:induction false} AllAreIn(page: seq<nat>, s: set<nat>)
    requires |page| == |s| && (forall i :: 0 <= i < |page| ==> page[i] in s)
    requires forall i, j :: 0 <= i < j < |page| ==> page[i] < page[j]
    ensures forall q :: q in s ==> q in page
  {
    if page != [] {
      var init, last := page[..|page| - 1], page[|page| - 1];
      AllAreIn(init, s - {last});
      assert forall q :: q in init ==> q in page;
    }
  }

  /** The messages of the rows c + 1, c + 2, ... in that order, none of them acknowledged, up to
      the limit or the end of the stream. */
  ghost predicate NextRows(rows: Rows, stream: Stream, c: nat, limit: nat, got: seq<Message>) {
    && c <= Height(rows, stream)
    && |got| == (if limit < Height(rows, stream) - c then limit else Height(rows, stream) - c)
    && forall i :: 0 <= i < |got| ==>
         && Slot(stream, c + 1 + i) in rows
         && !rows[Slot(stream, c + 1 + i)].acked
         && got[i] == Message(stream, rows[Slot(stream, c + 1 + i)].id, rows[Slot(stream, c + 1 + i)].payload)
  }

  /** FetchPending from the cursor returns exactly the next unacknowledged messages, in order:
      none skipped, none repeated, as many as the limit allows. */
  lemma FetchIsNext(es: seq<Event>, stream: Stream, limit: nat)
    requires InOrder(EMPTY, es)
    ensures var s := Run(EMPTY, es);
            var c := LastAcked(s, stream);
            NextRows(s.outbox, stream, c, limit, Fetch(s.outbox, stream, c, limit))
  {
    EmptyDelivers();
    RunKeepsDelivery(EMPTY, es);
    var s := Run(EMPTY, es);
    assert Full(s.outbox, stream) && Exact(s, stream);
    FetchAtCursor(s.outbox, stream, LastAcked(s, stream), limit);
  }

  lemma FetchAtCursor(rows: Rows, stream: Stream, c: nat, limit: nat)
    requires Full(rows, stream) && CursorExact(rows, stream, c)
    ensures NextRows(rows, stream, c, limit, Fetch(rows, stream, c, limit))
  {
    var top := Height(rows, stream);
    var n := if limit < top - c then limit else top - c;
    PendingIsInterval(rows, stream, c);
    AscendingInterval(PendingNums(rows, stream, c), c, top, limit);
    var got := Fetch(rows, stream, c, limit);
    assert got == Messages(rows, stream, Upto(c, n));
    assert forall i :: 0 <= i < n ==> Slot(stream, c + 1 + i) in rows && got[i] == MessageAt(rows, stream, c + 1 + i);
  }

  lemma PendingIsInterval(rows: Rows, stream: Stream, c: nat)
    requires Full(rows, stream) && CursorExact(rows, stream, c)
    ensures forall q: nat :: q in PendingNums(rows, stream, c) <==> c < q <= Height(rows, stream)
  {
    var pending := PendingNums(rows, stream, c);
    forall q: nat
      ensures q in pending <==> c < q <= Height(rows, stream)
    {
      if q in pending {
        var k :| k in rows && k.stream == stream && k.num > c && k.num == q;
        assert k == Slot(stream, q);
      }
      if c < q <= Height(rows, stream) {
        assert Slot(stream, q) in rows;
        assert Slot(stream, q).num in pending;
      }
    }
  }

  // ---- "new" exactly once ----

  /** The acknowledgements a run answers with "new". */
  ghost function News(s: State, es: seq<Event>): seq<Processed>
    decreases es
  {
    if es == [] then []
    else
      var e := es[0];
      (if e.Ack? && AckIsNew(s, e.stream, e.id, e.fence) then [Processed(e.stream, e.id)] else [])
      + News(Next(s, e), es[1..])
  }

  lemma {:induction false} NewsAreInbox(s: State, es: seq<Event>)
    ensures forall p :: p in Run(s, es).inbox <==> p in s.inbox || p in News(s, es)
    ensures forall i :: 0 <= i < |News(s, es)| ==> News(s, es)[i] !in s.inbox
    ensures forall i, j :: 0 <= i < j < |News(s, es)| ==> News(s, es)[i] != News(s, es)[j]
    decreases es
  {
    if es != [] {
      NewsAreInbox(Next(s, es[0]), es[1..]);
    }
  }

  /** AckMessage says "new" at most once per message, and for exactly the acknowledged rows. */
  lemma NewExactlyOnce(es: seq<Event>, stream: Stream, id: Id)
    requires InOrder(EMPTY, es)
    ensures var news := News(EMPTY, es); forall i, j :: 0 <= i < j < |news| ==> news[i] != news[j]
    ensures Processed(stream, id) in News(EMPTY, es) <==>
              exists k :: k in AckedSlots(Run(EMPTY, es), stream) && Run(EMPTY, es).outbox[k].id == id
  {
    NewsAreInbox(EMPTY, es);
    EmptyDelivers();
    RunKeepsDelivery(EMPTY, es);
    InboxIsAcked(Run(EMPTY, es), stream, id);
    assert Processed(stream, id) in Run(EMPTY, es).inbox <==> Processed(stream, id) in News(EMPTY, es);
  }

  lemma InboxIsAcked(s: State, stream: Stream, id: Id)
    requires Exact(s, stream)
    ensures Processed(stream, id) in s.inbox <==> exists k :: k in AckedSlots(s, stream) && s.outbox[k].id == id
  {
  }

  // ---- everything gets delivered ----

  /** In-order acknowledgement under the current fence always counts: it is new, it marks its row and
      moves the cursor by one, and touches no other stream. */
  lemma AckProgresses(s: State, stream: Stream, id: Id, num: nat, fence: nat)
    requires DeliveryInv(s) && HoldsFence(s, stream, fence) && LowestPending(s, stream, id, num)
    ensures AckIsNew(s, stream, id, fence)
    ensures var t := AckMessage(s, stream, id, num, fence);
            && LastAcked(t, stream) == LastAcked(s, stream) + 1 == num
            && Slot(stream, num) in t.outbox
            && t.outbox[Slot(stream, num)] == s.outbox[Slot(stream, num)].(acked := true)
            && t.outbox.Keys == s.outbox.Keys
            && (forall k :: k in s.outbox && k != Slot(stream, num) ==> t.outbox[k] == s.outbox[k])
            && t.inbox == s.inbox + {Processed(stream, id)} && HoldsFence(t, stream, fence)
            && (forall st :: st != stream ==> LastAcked(t, st) == LastAcked(s, st))
  {
    assert Full(s.outbox, stream) && Exact(s, stream);
    LowestIsNext(s, stream, id, num);
    PendingIsNew(s.outbox, stream, num, s.inbox);
  }

  lemma PendingIsNew(rows: Rows, stream: Stream, num: nat, inbox: set<Processed>)
    requires UniqueIds(rows) && InboxExact(rows, stream, inbox)
    requires Slot(stream, num) in rows && !rows[Slot(stream, num)].acked
    ensures Processed(stream, rows[Slot(stream, num)].id) !in inbox
  {
    assert !AckedId(rows, stream, rows[Slot(stream, num)].id);
  }

  function IdAt(rows: Rows, stream: Stream, num: nat): Id {
    if Slot(stream, num) in rows then rows[Slot(stream, num)].id else 0
  }

  /** The row after the cursor is the lowest pending one. */
  lemma NextIsLowest(s: State, stream: Stream)
    requires DeliveryInv(s) && LastAcked(s, stream) < Height(s.outbox, stream)
    ensures LowestPending(s, stream, IdAt(s.outbox, stream, LastAcked(s, stream) + 1), LastAcked(s, stream) + 1)
  {
    assert Full(s.outbox, stream) && Exact(s, stream);
    assert Slot(stream, LastAcked(s, stream) + 1) in s.outbox;
  }

  /** Acknowledging the row after the cursor. */
  ghost function AckNext(s: State, stream: Stream, fence: nat): State {
    AckMessage(s, stream, IdAt(s.outbox, stream, LastAcked(s, stream) + 1), LastAcked(s, stream) + 1, fence)
  }

  /** While rows are waiting, that is in order, is answered "new", and leaves one less. */
  lemma NextProgresses(s: State, stream: Stream, fence: nat)
    requires DeliveryInv(s) && HoldsFence(s, stream, fence) && LastAcked(s, stream) < Height(s.outbox, stream)
    ensures var t := AckNext(s, stream, fence);
            && AckIsNew(s, stream, IdAt(s.outbox, stream, LastAcked(s, stream) + 1), fence)
            && DeliveryInv(t) && HoldsFence(t, stream, fence)
            && LastAcked(t, stream) == LastAcked(s, stream) + 1 && Height(t.outbox, stream) == Height(s.outbox, stream)
  {
    var num := LastAcked(s, stream) + 1;
    var id := IdAt(s.outbox, stream, num);
    NextIsLowest(s, stream);
    AckProgresses(s, stream, id, num, fence);
    AckDeliversIff(s, stream, id, num, fence);
    assert Full(s.outbox, stream);
    SameHeight(s.outbox, AckMessage(s, stream, id, num, fence).outbox, stream);
  }

  /** Doing so n times, each answered "new". */
  ghost predicate Drains(s: State, stream: Stream, fence: nat, n: nat)
    decreases n
  {
    if n == 0 then LastAcked(s, stream) == Height(s.outbox, stream)
    else
      && AckIsNew(s, stream, IdAt(s.outbox, stream, LastAcked(s, stream) + 1), fence)
      && Drains(AckNext(s, stream, fence), stream, fence, n - 1)
  }

  /** From any state an in-order run reaches, the consumer that holds the lease can acknowledge, one by one
      and each answered "new", exactly the rows still waiting in its stream, and is then at its end. */
  lemma {:induction false} DrainDelivers(s: State, stream: Stream, fence: nat, n: nat)
    requires DeliveryInv(s) && HoldsFence(s, stream, fence) && LastAcked(s, stream) + n == Height(s.outbox, stream)
    ensures Drains(s, stream, fence, n)
    decreases n
  {
    if n > 0 {
      NextProgresses(s, stream, fence);
      DrainDelivers(AckNext(s, stream, fence), stream, fence, n - 1);
    }
  }

  // ---- why the order matters ----

  /** No row, present or to come, is at or below the cursor without being acknowledged. */
  ghost predicate NothingSkipped(rows: Rows, stream: Stream, cursor: nat) {
    && cursor <= Height(rows, stream)
    && forall q: nat :: Slot(stream, q) in rows && q <= cursor ==> rows[Slot(stream, q)].acked
  }

  lemma MarkSkipsNothingIff(rows: Rows, stream: Stream, c: nat, num: nat)
    requires Full(rows, stream) && CursorExact(rows, stream, c)
    ensures NothingSkipped(MarkAcked(rows, Slot(stream, num)), stream, if num > c then num else c) <==>
              num <= c || (num == c + 1 && Slot(stream, num) in rows)
  {
    var rows' := MarkAcked(rows, Slot(stream, num));
    SameHeight(rows, rows', stream);
    if num > c + 1 && num <= Height(rows, stream) {
      assert Slot(stream, c + 1) in rows' && !rows'[Slot(stream, c + 1)].acked;
    }
  }

  /** GREATEST moves the cursor to whatever number the acknowledgement carries, so nothing is
      skipped exactly when that number is at most one past the cursor and names a row. */
  lemma AckSkipsNothingIff(s: State, stream: Stream, id: Id, num: nat, fence: nat)
    requires DeliveryInv(s) && AckIsNew(s, stream, id, fence)
    ensures var t := AckMessage(s, stream, id, num, fence);
            NothingSkipped(t.outbox, stream, LastAcked(t, stream)) <==>
              num <= LastAcked(s, stream) || (num == LastAcked(s, stream) + 1 && Slot(stream, num) in s.outbox)
  {
    assert Full(s.outbox, stream) && Exact(s, stream);
    MarkSkipsNothingIff(s.outbox, stream, LastAcked(s, stream), num);
  }

  /** Marking breaks the account of the stream unless it is the row after the cursor, under its own id. */
  lemma OnlyNextKeepsExact(rows: Rows, stream: Stream, id: Id, num: nat, inbox: set<Processed>, c: nat)
    requires Full(rows, stream) && CursorExact(rows, stream, c) && InboxExact(rows, stream, inbox)
    requires Processed(stream, id) !in inbox
    requires var rows' := MarkAcked(rows, Slot(stream, num));
             && CursorExact(rows', stream, if num > c then num else c)
             && InboxExact(rows', stream, inbox + {Processed(stream, id)})
    ensures num == c + 1 && Slot(stream, num) in rows && rows[Slot(stream, num)].id == id
  {
    var rows' := MarkAcked(rows, Slot(stream, num));
    SameHeight(rows, rows', stream);
    assert AckedId(rows', stream, id) && !AckedId(rows, stream, id);
    var q: nat :| Slot(stream, q) in rows' && rows'[Slot(stream, q)].acked && rows'[Slot(stream, q)].id == id;
    assert q == num;
    assert Slot(stream, c + 1) in rows;
  }

  /** The exact condition: an acknowledgement that takes effect keeps delivery free of loss and
      duplication if and only if it carries the number and the id of the lowest pending row. */
  lemma AckDeliversIff(s: State, stream: Stream, id: Id, num: nat, fence: nat)
    requires DeliveryInv(s) && AckIsNew(s, stream, id, fence)
    ensures DeliveryInv(AckMessage(s, stream, id, num, fence)) <==> LowestPending(s, stream, id, num)
  {
    var t := AckMessage(s, stream, id, num, fence);
    assert Full(s.outbox, stream) && Exact(s, stream);
    if LowestPending(s, stream, id, num) {
      StepKeepsDelivery(s, Ack(stream, id, num, fence));
    }
    if DeliveryInv(t) {
      assert Exact(t, stream);
      OnlyNextKeepsExact(s.outbox, stream, id, num, s.inbox, LastAcked(s, stream));
    }
  }

  /** Delivery is in order at every moment of a run. */
  ghost predicate DeliversThroughout(s: State, es: seq<Event>)
    decreases es
  {
    DeliveryInv(s) && (es != [] ==> DeliversThroughout(Next(s, es[0]), es[1..]))
  }

  /** For whole runs: nothing is lost or repeated at any moment if and only if every acknowledgement
      that takes effect is in order. */
  lemma {:induction false} DeliversIffInOrder(s: State, es: seq<Event>)
    requires DeliveryInv(s)
    ensures DeliversThroughout(s, es) <==> InOrder(s, es)
    decreases es
  {
    if es != [] {
      var e := es[0];
      if InOrderStep(s, e) {
        StepKeepsDelivery(s, e);
        DeliversIffInOrder(Next(s, e), es[1..]);
      } else {
        AckDeliversIff(s, e.stream, e.id, e.num, e.fence);
      }
    }
  }

  /** One transaction that writes two messages, and the first lease. */
  ghost function TwoWaiting(stream: Stream, owner: Id): seq<Event> {
    [Begin(0)] + [ReadMax(0, stream, 1, "a"), Insert(0)] + [ReadMax(0, stream, 2, "b"), Insert(0)]
    + [Commit(0), Acquire(stream, owner, 0)]
  }

  ghost function TwoRows(stream: Stream): Rows {
    map[Slot(stream, 1) := Row(1, "a", false), Slot(stream, 2) := Row(2, "b", false)]
  }

  /** A transaction that has inserted these rows, alone in an otherwise empty service. */
  ghost function Writing(rows: Rows, write: Option<Write>): State {
    State(map[], map[0 := Txn(rows, write)], {}, map[])
  }

  /** Writing alone appends the next number. */
  lemma WriteAppends(rows: Rows, stream: Stream, n: nat, id: Id, payload: string)
    requires forall q: nat :: Slot(stream, q) in rows <==> 1 <= q <= n
    requires !HasId(rows, stream.tenant, id)
    ensures Next(Next(Writing(rows, None), ReadMax(0, stream, id, payload)), Insert(0))
            == Writing(rows[Slot(stream, n + 1) := Row(id, payload, false)], None)
  {
    assert map[] + rows == rows;
    FullAt(rows, stream, n);
    var w := Write(stream, id, payload, n + 1);
    var s := Next(Writing(rows, None), ReadMax(0, stream, id, payload));
    assert s == Writing(rows, Some(w));
    assert !HasId(s.outbox, stream.tenant, id) && !Blocked(s, 0, w);
  }

  lemma RunPair(s: State, d: Event, e: Event)
    ensures Run(s, [d, e]) == Next(Next(s, d), e)
  {
    assert [d, e][1..] == [e] && [e][1..] == [];
    assert Run(Next(s, d), [e]) == Next(Next(s, d), e);
  }

  lemma WritesTwo(stream: Stream)
    ensures Run(EMPTY, [Begin(0)] + [ReadMax(0, stream, 1, "a"), Insert(0)] + [ReadMax(0, stream, 2, "b"), Insert(0)])
            == Writing(TwoRows(stream), None)
  {
    var first, second := [ReadMax(0, stream, 1, "a"), Insert(0)], [ReadMax(0, stream, 2, "b"), Insert(0)];
    var one: Rows := map[Slot(stream, 1) := Row(1, "a", false)];
    assert one[Slot(stream, 2) := Row(2, "b", false)] == TwoRows(stream);
    assert Next(EMPTY, Begin(0)) == Writing(map[], None) && [Begin(0)][1..] == [];
    assert Run(EMPTY, [Begin(0)]) == Writing(map[], None);
    RunSplit(EMPTY, [Begin(0)], first);
    RunPair(Writing(map[], None), first[0], first[1]);
    WriteAppends(map[], stream, 0, 1, "a");
    RunSplit(EMPTY, [Begin(0)] + first, second);
    RunPair(Writing(one, None), second[0], second[1]);
    WriteAppends(one, stream, 1, 2, "b");
  }

  lemma TwoWaitingRun(stream: Stream, owner: Id)
    ensures Run(EMPTY, TwoWaiting(stream, owner)) ==
              State(TwoRows(stream), map[], {}, map[stream := Cursor(0, Some(owner), 1, Some(LEASE))])
  {
    var writes := [Begin(0)] + [ReadMax(0, stream, 1, "a"), Insert(0)] + [ReadMax(0, stream, 2, "b"), Insert(0)];
    var s := Writing(TwoRows(stream), None);
    WritesTwo(stream);
    RunSplit(EMPTY, writes, [Commit(0), Acquire(stream, owner, 0)]);
    RunPair(s, Commit(0), Acquire(stream, owner, 0));
    assert Next(s, Commit(0)) == State(TwoRows(stream), map[], {}, map[]);
  }

  lemma {:induction false} NothingIsTakenBack(s: State, es: seq<Event>, stream: Stream)
    ensures LastAcked(Run(s, es), stream) >= LastAcked(s, stream)
    ensures s.inbox <= Run(s, es).inbox
    decreases es
  {
    if es != [] {
      NothingIsTakenBack(Next(s, es[0]), es[1..], stream);
    }
  }

  /** With two rows waiting, acknowledging the second one first leaves the first unacknowledged and
      out of every later fetch from the cursor. */
  lemma OutOfOrderLoses(stream: Stream, owner: Id, more: seq<Event>)
    ensures var t := Run(EMPTY, TwoWaiting(stream, owner) + [Ack(stream, 2, 2, 1)]);
            && Slot(stream, 1) in t.outbox && !t.outbox[Slot(stream, 1)].acked
            && var u := Run(t, more); 1 !in PendingNums(u.outbox, stream, LastAcked(u, stream))
  {
    var s := Run(EMPTY, TwoWaiting(stream, owner));
    TwoWaitingRun(stream, owner);
    RunSplit(EMPTY, TwoWaiting(stream, owner), [Ack(stream, 2, 2, 1)]);
    var t := Next(s, Ack(stream, 2, 2, 1));
    assert Run(s, [Ack(stream, 2, 2, 1)]) == t;
    NothingIsTakenBack(t, more, stream);
  }

  /** Acknowledging the first row's number under the second one's id skips no row, yet the second row
      can never be acknowledged under its own id: every such acknowledgement is taken for a retry. */
  lemma WrongIdLoses(stream: Stream, owner: Id, more: seq<Event>, num: nat, fence: nat)
    ensures var t := Run(EMPTY, TwoWaiting(stream, owner) + [Ack(stream, 2, 1, 1)]);
            && NothingSkipped(t.outbox, stream, LastAcked(t, stream))
            && Slot(stream, 2) in t.outbox && t.outbox[Slot(stream, 2)] == Row(2, "b", false)
            && var u := Run(t, more); AckMessage(u, stream, 2, num, fence) == u
  {
    var s := Run(EMPTY, TwoWaiting(stream, owner));
    TwoWaitingRun(stream, owner);
    RunSplit(EMPTY, TwoWaiting(stream, owner), [Ack(stream, 2, 1, 1)]);
    var t := Next(s, Ack(stream, 2, 1, 1));
    assert Run(s, [Ack(stream, 2, 1, 1)]) == t;
    FullAt(t.outbox, stream, 2);
    NothingIsTakenBack(t, more, stream);
  }

  // ---- leases ----

  /** A lease taken is its owner's and can be renewed with its own fence for 15 seconds, by no other
      fence, and taking it leaves every other stream's cursor alone. */
  lemma LeaseIsHeld(s: State, stream: Stream, owner: Id, now: Time, fence: nat, at: Time)
    ensures var t := AcquireLease(s, stream, owner, now);
            && stream in t.cursors && t.cursors[stream].owner == Some(owner)
            && (Renewable(t, stream, fence, at) <==> fence == Fence(s, stream) + 1 && at < now + 15 * SECOND)
            && LastAcked(t, stream) == LastAcked(s, stream)
            && (forall st :: st != stream ==> (st in t.cursors <==> st in s.cursors))
            && (forall st :: st != stream && st in s.cursors ==> t.cursors[st] == s.cursors[st])
            && t.outbox == s.outbox && t.inbox == s.inbox && t.txns == s.txns
  {
  }

  /** A renewal in time starts the 15 seconds again and keeps owner, fence and cursor; one that comes late
      changes nothing. */
  lemma RenewalExtends(s: State, stream: Stream, fence: nat, now: Time, at: Time)
    requires stream in s.cursors && s.cursors[stream].fence == fence && s.cursors[stream].expires.Some?
    ensures var t := RenewLease(s, stream, fence, now);
            if now < s.cursors[stream].expires.value then
              && (Renewable(t, stream, fence, at) <==> at < now + 15 * SECOND)
              && stream in t.cursors && t.cursors[stream].owner == s.cursors[stream].owner
              && LastAcked(t, stream) == LastAcked(s, stream) && Fence(t, stream) == fence
            else t == s
  {
  }

  /** A released lease cannot be renewed, has no owner, and keeps fence and cursor. */
  lemma ReleaseEnds(s: State, stream: Stream, fence: nat, now: Time)
    requires HoldsFence(s, stream, fence)
    ensures var t := ReleaseLease(s, stream, fence);
            && !Renewable(t, stream, fence, now) && stream in t.cursors && t.cursors[stream].owner == None
            && LastAcked(t, stream) == LastAcked(s, stream) && Fence(t, stream) == fence
  {
  }

  // ---- fencing ----

  lemma FenceStep(s: State, e: Event, stream: Stream)
    ensures Fence(Next(s, e), stream) ==
              Fence(s, stream) + (if e.Acquire? && e.stream == stream then 1 else 0)
  {
  }

  lemma {:induction false} FenceNeverFalls(s: State, es: seq<Event>, stream: Stream)
    ensures Fence(Run(s, es), stream) >= Fence(s, stream)
    decreases es
  {
    if es != [] {
      FenceStep(s, es[0], stream);
      FenceNeverFalls(Next(s, es[0]), es[1..], stream);
    }
  }

  /** The fences a run hands out for a stream. */
  ghost function Issued(s: State, es: seq<Event>, stream: Stream): seq<nat>
    decreases es
  {
    if es == [] then []
    else
      var s' := Next(s, es[0]);
      (if es[0].Acquire? && es[0].stream == stream then [Fence(s', stream)] else []) + Issued(s', es[1..], stream)
  }

  ghost predicate IncreasingFrom(low: nat, fs: seq<nat>) {
    && (forall i :: 0 <= i < |fs| ==> fs[i] > low)
    && (forall i, j :: 0 <= i < j < |fs| ==> fs[i] < fs[j])
  }

  lemma PrependIncreasing(low: nat, f: nat, rest: seq<nat>)
    requires low < f && IncreasingFrom(f, rest)
    ensures IncreasingFrom(low, [f] + rest)
  {
  }

  /** Over every run the fences handed out for a stream strictly increase. */
  lemma {:induction false} FencesIncrease(s: State, es: seq<Event>, stream: Stream)
    ensures var fs := Issued(s, es, stream);
            IncreasingFrom(Fence(s, stream), fs)
    decreases es
  {
    if es != [] {
      var s' := Next(s, es[0]);
      var rest := Issued(s', es[1..], stream);
      FencesIncrease(s', es[1..], stream);
      if es[0].Acquire? && es[0].stream == stream {
        FenceStep(s, es[0], stream);
        PrependIncreasing(Fence(s, stream), Fence(s', stream), rest);
      } else {
        FenceStep(s, es[0], stream);
        assert Issued(s, es, stream) == rest;
      }
    }
  }

  /** Once a fence has been handed out, whatever happens next, an acknowledgement, renewal or
      release carrying a smaller one leaves the whole state as it was. */
  lemma StaleFenceIsInert(s: State, stream: Stream, owner: Id, now: Time, es: seq<Event>, e: Event)
    requires e.Ack? || e.Renew? || e.Release?
    requires e.stream == stream && e.fence < Fence(AcquireLease(s, stream, owner, now), stream)
    ensures var t := Run(AcquireLease(s, stream, owner, now), es); Next(t, e) == t
  {
    FenceNeverFalls(AcquireLease(s, stream, owner, now), es, stream);
  }
}
