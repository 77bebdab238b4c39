/** The log ring: one circular byte array read through two cursors. */
module LogRing {
  import opened Arithmetic
  import opened Bytes
  import opened LogQueue


  function Header(r: Record): (h: seq<byte>)
    ensures |h| == HEADER
  {
    PutLe(r.time, 8) + [r.source, r.flags] + PutLe(|r.data|, 2)
  }

  lemma HeaderLength(r: Record)
    ensures GetLe(Header(r)[10..]) == |r.data|
    ensures GetLe(Header(r)[..8]) == r.time && Header(r)[8] == r.source && Header(r)[9] == r.flags
  {
    var h := Header(r);
    assert h[10..] == PutLe(|r.data|, 2) && h[..8] == PutLe(r.time, 8);
    Bounds();
    LeRoundTrip(|r.data|, 2);
    LeRoundTrip(r.time, 8);
  }

  /** The bytes of the records from one on. */
  function Stream(all: seq<Record>, from: nat): seq<byte>
    requires from <= |all|
    decreases |all| - from
  {
    if from == |all| then [] else Header(all[from]) + all[from].data + Stream(all, from + 1)
  }

  lemma {:induction false} StreamLength(all: seq<Record>, from: nat)
    requires from <= |all|
    ensures |Stream(all, from)| == Held(all, from)
    decreases |all| - from
  {
    if from < |all| {
      StreamLength(all, from + 1);
    }
  }

  lemma {:induction false} StreamPush(all: seq<Record>, r: Record, from: nat)
    requires from <= |all|
    ensures Stream(all + [r], from) == Stream(all, from) + (Header(r) + r.data)
    decreases |all| - from
  {
    if from == |all| {
      assert Stream(all + [r], from + 1) == [];
    } else {
      StreamPush(all, r, from + 1);
    }
  }

  // ------------------------------------------------------------ windows of a circle

  function Wrap(x: nat, n: nat): nat {
    if x >= n then x - n else x
  }

  /** The circle d holds s from off on. */
  ghost predicate Holds(d: seq<byte>, off: nat, s: seq<byte>) {
    off < |d| && |s| <= |d| && forall i :: 0 <= i < |s| ==> d[Wrap(off + i, |d|)] == s[i]
  }

  /** How far p is behind off on a circle of n. */
  function Distance(p: nat, off: nat, n: nat): int {
    if p >= off then p - off else p + n - off
  }

  /** The circle after s has been copied in at off, and nothing else touched. */
  ghost predicate Written(d: seq<byte>, off: nat, s: seq<byte>, after: seq<byte>) {
    && |after| == |d| && Holds(after, off, s)
    && forall p :: 0 <= p < |d| && Distance(p, off, |d|) >= |s| ==> after[p] == d[p]
  }

  lemma HoldsSplit(d: seq<byte>, off: nat, a: seq<byte>, b: seq<byte>)
    requires off < |d| && |a| + |b| <= |d|
    ensures Holds(d, off, a + b) <==> Holds(d, off, a) && Holds(d, Wrap(off + |a|, |d|), b)
  {
    if Holds(d, off, a + b) {
      forall i | 0 <= i < |b| ensures d[Wrap(Wrap(off + |a|, |d|) + i, |d|)] == b[i] {
        assert (a + b)[|a| + i] == b[i];
      }
      forall i | 0 <= i < |a| ensures d[Wrap(off + i, |d|)] == a[i] {
        assert (a + b)[i] == a[i];
      }
    }
    if Holds(d, off, a) && Holds(d, Wrap(off + |a|, |d|), b) {
      forall i | 0 <= i < |a + b| ensures d[Wrap(off + i, |d|)] == (a + b)[i] {
        if i >= |a| {
          assert d[Wrap(Wrap(off + |a|, |d|) + (i - |a|), |d|)] == b[i - |a|];
        }
      }
    }
  }

  lemma HoldsUnique(d: seq<byte>, off: nat, a: seq<byte>, b: seq<byte>)
    requires Holds(d, off, a) && Holds(d, off, b) && |a| == |b|
    ensures a == b
  {
    forall i | 0 <= i < |a| ensures a[i] == b[i] {
      assert d[Wrap(off + i, |d|)] == a[i];
    }
  }

  /** Bytes copied in behind others leave them in place and lengthen them. */
  lemma HoldsPush(d: seq<byte>, off: nat, s: seq<byte>, write: nat, more: seq<byte>, after: seq<byte>)
    requires Holds(d, off, s) && |s| + |more| <= |d| && write == Wrap(off + |s|, |d|)
    requires Written(d, write, more, after)
    ensures Holds(after, off, s + more)
  {
    forall i | 0 <= i < |s| ensures after[Wrap(off + i, |d|)] == s[i] {
      assert Distance(Wrap(off + i, |d|), write, |d|) >= |more|;
    }
    HoldsSplit(after, off, s, more);
  }

  /** A cursor of the ring: from off to the write offset the circle spells the records from one on. */
  ghost predicate Cursor(d: seq<byte>, write: nat, all: seq<Record>, from: nat, off: nat, length: nat) {
    && from <= |all| && off < |d| && write < |d|
    && length == Held(all, from) && length <= |d|
    && Wrap(off + length, |d|) == write
    && Holds(d, off, Stream(all, from))
  }

  lemma WrapTwice(off: nat, a: nat, b: nat, n: nat)
    requires off < n && a + b <= n
    ensures Wrap(Wrap(off + a, n) + b, n) == Wrap(off + a + b, n)
  {
  }

  /** The header of the oldest record is where the cursor says, and stepping over it is stepping over a record. */
  lemma CursorStep(d: seq<byte>, write: nat, all: seq<Record>, from: nat, off: nat, length: nat)
    requires Cursor(d, write, all, from, off, length) && from < |all|
    ensures SizeOf(all[from]) <= length
    ensures Holds(d, off, Header(all[from])) && Holds(d, Wrap(off + HEADER, |d|), all[from].data)
    ensures Cursor(d, write, all, from + 1, Wrap(off + SizeOf(all[from]), |d|), length - SizeOf(all[from]))
  {
    PayloadMonotone(all, from + 1, |all|);
    StreamLength(all, from + 1);
    HoldsSplit(d, off, Header(all[from]) + all[from].data, Stream(all, from + 1));
    HoldsSplit(d, off, Header(all[from]), all[from].data);
    WrapTwice(off, SizeOf(all[from]), length - SizeOf(all[from]), |d|);
  }

  /** A cursor with nothing behind it is at the write offset. */
  lemma CursorEmpty(d: seq<byte>, write: nat, all: seq<Record>, from: nat, off: nat, length: nat)
    requires Cursor(d, write, all, from, off, length)
    ensures length < HEADER <==> from == |all|
    ensures length == 0 <==> from == |all|
    ensures from == |all| ==> off == write
  {
    if from < |all| {
      PayloadMonotone(all, from + 1, |all|);
    }
  }

  /** Two pieces copied in behind others lengthen them. */
  lemma HoldsGrow(d: seq<byte>, off: nat, s: seq<byte>, write: nat, a: seq<byte>, b: seq<byte>, d1: seq<byte>,
                  d2: seq<byte>)
    requires Holds(d, off, s) && |s| + |a| + |b| <= |d| && write == Wrap(off + |s|, |d|)
    requires Written(d, write, a, d1) && Written(d1, Wrap(write + |a|, |d|), b, d2)
    ensures Holds(d2, off, s + (a + b))
    ensures Wrap(off + (|s| + |a| + |b|), |d|) == Wrap(Wrap(write + |a|, |d|) + |b|, |d|)
  {
    HoldsPush(d, off, s, write, a, d1);
    HoldsPush(d1, off, s + a, Wrap(write + |a|, |d|), b, d2);
    Assoc(s, a, b);
  }

  /** Copying a header and its data in at the write offset puts a record behind every cursor with the room. */
  lemma CursorPush(d: seq<byte>, write: nat, all: seq<Record>, r: Record, from: nat, off: nat, length: nat,
                   d1: seq<byte>, d2: seq<byte>)
    requires Cursor(d, write, all, from, off, length) && length + SizeOf(r) <= |d|
    requires Written(d, write, Header(r), d1) && Written(d1, Wrap(write + HEADER, |d|), r.data, d2)
    ensures Cursor(d2, Wrap(Wrap(write + HEADER, |d|) + |r.data|, |d|), all + [r], from, off, length + SizeOf(r))
  {
    StreamLength(all, from);
    HoldsGrow(d, off, Stream(all, from), write, Header(r), r.data, d1, d2);
    StreamPush(all, r, from);
    Grow(all, r, from);
    Grow(all, r, |all|);
  }

  /** The offsets and lengths of the two cursors. */
  datatype Cells = Cells(write: nat, oldest: nat, retained: nat, tail: nat, used: nat)

  /** The circle and its cursors represent a queue. */
  ghost predicate Represents(d: seq<byte>, c: Cells, q: Queue) {
    && |d| >= MIN_CAPACITY
    && q.Valid(|d|)
    && Cursor(d, c.write, q.all, q.historyFrom, c.oldest, c.retained)
    && Cursor(d, c.write, q.all, q.liveFrom, c.tail, c.used)
  }

  function DropLive(q: Queue): Queue {
    if q.liveFrom >= |q.all| then q
    else q.(liveFrom := q.liveFrom + 1, dropped := q.dropped + |q.all[q.liveFrom].data|)
  }

  lemma CutLiveStep(q: Queue, room: nat)
    requires q.liveFrom < |q.all| && Held(q.all, q.liveFrom) > room
    ensures CutLive(DropLive(q), room) == CutLive(q, room)
  {
  }

  /** Live is empty exactly when no header fits, and then the cursor is at the write offset. */
  lemma LiveEmpty(d: seq<byte>, c: Cells, q: Queue)
    requires Represents(d, c, q)
    ensures c.used < HEADER <==> q.liveFrom == |q.all|
    ensures c.used == 0 <==> q.liveFrom == |q.all|
    ensures q.liveFrom == |q.all| ==> c.tail == c.write
    ensures c.used <= c.retained <= |d| && (c.used < c.retained ==> q.historyFrom < q.liveFrom)
  {
    CursorEmpty(d, c.write, q.all, q.liveFrom, c.tail, c.used);
    PayloadMonotone(q.all, q.historyFrom, q.liveFrom);
  }

  function StepOver(c: Cells, length: nat, n: nat): Cells
    requires HEADER + length <= c.used
  {
    c.(tail := Wrap(c.tail + (HEADER + length), n), used := c.used - (HEADER + length))
  }

  function StepOverHistory(c: Cells, length: nat, n: nat): Cells
    requires HEADER + length <= c.retained
  {
    c.(oldest := Wrap(c.oldest + (HEADER + length), n), retained := c.retained - (HEADER + length))
  }

  /** Forgetting or handing over the oldest live record. */
  lemma LiveStep(d: seq<byte>, c: Cells, q: Queue, dropped: nat)
    requires Represents(d, c, q) && q.liveFrom < |q.all|
    ensures HEADER + |q.all[q.liveFrom].data| <= c.used
    ensures Represents(d, StepOver(c, |q.all[q.liveFrom].data|, |d|),
                       q.(liveFrom := q.liveFrom + 1, dropped := dropped))
  {
    CursorStep(d, c.write, q.all, q.liveFrom, c.tail, c.used);
  }

  /** The oldest live record is where the tail points. */
  lemma LiveHolds(d: seq<byte>, c: Cells, q: Queue)
    requires Represents(d, c, q) && q.liveFrom < |q.all|
    ensures var r := q.all[q.liveFrom];
            && HEADER + |r.data| <= c.used <= |d|
            && Holds(d, c.tail, Header(r)) && Holds(d, Wrap(c.tail + HEADER, |d|), r.data)
  {
    CursorStep(d, c.write, q.all, q.liveFrom, c.tail, c.used);
  }

  /** Forgetting the oldest retained record, when it is not live. */
  lemma HistoryStep(d: seq<byte>, c: Cells, q: Queue)
    requires Represents(d, c, q) && q.historyFrom < q.liveFrom
    ensures HEADER + |q.all[q.historyFrom].data| <= c.retained
    ensures Represents(d, StepOverHistory(c, |q.all[q.historyFrom].data|, |d|), q.(historyFrom := q.historyFrom + 1))
  {
    CursorStep(d, c.write, q.all, q.historyFrom, c.oldest, c.retained);
  }

  function Lengthened(c: Cells, length: nat, n: nat): Cells {
    Cells(Wrap(Wrap(c.write + HEADER, n) + length, n), c.oldest, c.retained + (HEADER + length), c.tail,
          c.used + (HEADER + length))
  }

  lemma OfferCuts(q: Queue, trimmed: Queue, r: Record, capacity: nat)
    requires capacity >= MIN_CAPACITY && q.Valid(capacity) && trimmed == CutLive(q, capacity - SizeOf(r))
    ensures trimmed.historyFrom <= |trimmed.all|
    ensures Offer(q, r, capacity) == CutHistory(trimmed, capacity - SizeOf(r)).(all := trimmed.all + [r])
  {
  }

  lemma PushedValid(q: Queue, r: Record, capacity: nat)
    requires q.Valid(capacity) && Position(q.all, |q.all|) - Position(q.all, q.historyFrom) + SizeOf(r) <= capacity
    ensures q.(all := q.all + [r]).Valid(capacity)
  {
    Grow(q.all, r, |q.all|);
    Grow(q.all, r, q.historyFrom);
  }

  lemma LivePush(d: seq<byte>, c: Cells, q: Queue, r: Record, d1: seq<byte>, d2: seq<byte>)
    requires Cursor(d, c.write, q.all, q.liveFrom, c.tail, c.used) && c.used + SizeOf(r) <= |d|
    requires Written(d, c.write, Header(r), d1) && Written(d1, Wrap(c.write + HEADER, |d|), r.data, d2)
    ensures var to := Lengthened(c, |r.data|, |d|);
            Cursor(d2, to.write, q.all + [r], q.liveFrom, to.tail, to.used)
  {
    CursorPush(d, c.write, q.all, r, q.liveFrom, c.tail, c.used, d1, d2);
  }

  lemma HistoryPush(d: seq<byte>, c: Cells, q: Queue, r: Record, d1: seq<byte>, d2: seq<byte>)
    requires Cursor(d, c.write, q.all, q.historyFrom, c.oldest, c.retained) && c.retained + SizeOf(r) <= |d|
    requires Written(d, c.write, Header(r), d1) && Written(d1, Wrap(c.write + HEADER, |d|), r.data, d2)
    ensures var to := Lengthened(c, |r.data|, |d|);
            Cursor(d2, to.write, q.all + [r], q.historyFrom, to.oldest, to.retained)
  {
    CursorPush(d, c.write, q.all, r, q.historyFrom, c.oldest, c.retained, d1, d2);
  }

  /** Copying a record in where both cursors leave the room. */
  lemma PushStep(d: seq<byte>, c: Cells, q: Queue, r: Record, d1: seq<byte>, d2: seq<byte>)
    requires Represents(d, c, q) && c.retained + SizeOf(r) <= |d|
    requires Written(d, c.write, Header(r), d1) && Written(d1, Wrap(c.write + HEADER, |d|), r.data, d2)
    ensures Represents(d2, Lengthened(c, |r.data|, |d|), q.(all := q.all + [r]))
  {
    LiveEmpty(d, c, q);
    LivePush(d, c, q, r, d1, d2);
    HistoryPush(d, c, q, r, d1, d2);
    PushedValid(q, r, |d|);
  }

  /** What log_write makes of one call: records of at most DATA_MAX bytes, each with its own time stamp. */
  function Records(source: byte, data: seq<byte>, now: nat -> u64, i: nat): seq<Record>
    decreases |data|
  {
    if data == [] then []
    else if |data| <= DATA_MAX then [LogRecord(now(i), source, 0, data)]
    else [LogRecord(now(i), source, 0, data[..DATA_MAX])] + Records(source, data[DATA_MAX..], now, i + 1)
  }

  lemma RecordsHead(source: byte, data: seq<byte>, now: nat -> u64, i: nat)
    requires data != []
    ensures (var chunk := if |data| > DATA_MAX then DATA_MAX else |data|;
             Records(source, data, now, i)
             == [LogRecord(now(i), source, 0, data[..chunk])] + Records(source, data[chunk..], now, i + 1))
  {
    assert data[..|data|] == data;
  }

  function Text(records: seq<Record>): seq<byte> {
    if records == [] then [] else records[0].data + Text(records[1..])
  }

  /** Splitting loses no byte and makes no empty record. */
  lemma {:induction false} RecordsWhole(source: byte, data: seq<byte>, now: nat -> u64, i: nat)
    ensures Text(Records(source, data, now, i)) == data
    ensures forall r :: r in Records(source, data, now, i) ==> 0 < |r.data| <= DATA_MAX && r.source == source
    decreases |data|
  {
    if |data| > DATA_MAX {
      RecordsWhole(source, data[DATA_MAX..], now, i + 1);
      assert data == data[..DATA_MAX] + data[DATA_MAX..];
    } else if data != [] {
      var one := Records(source, data, now, i);
      assert one[1..] == [] && data + [] == data;
    }
  }

  function OfferAll(q: Queue, records: seq<Record>, capacity: nat): (after: Queue)
    requires capacity >= MIN_CAPACITY && q.Valid(capacity)
    ensures after.Valid(capacity)
    decreases |records|
  {
    if records == [] then q
    else
      OfferValid(q, records[0], capacity);
      OfferAll(Offer(q, records[0], capacity), records[1..], capacity)
  }

  /** The queue once the bytes from offset on have been offered. */
  function Rest(q: Queue, source: byte, bytes: seq<byte>, offset: nat, now: nat -> u64, i: nat, capacity: nat): Queue
    requires offset <= |bytes| && capacity >= MIN_CAPACITY && q.Valid(capacity)
  {
    OfferAll(q, Records(source, bytes[offset..], now, i), capacity)
  }

  lemma RestStep(q: Queue, source: byte, bytes: seq<byte>, offset: nat, now: nat -> u64, i: nat, capacity: nat,
                 r: Record)
    requires offset < |bytes| && capacity >= MIN_CAPACITY && q.Valid(capacity)
    requires r == FirstRecord(source, bytes, offset, now, i)
    ensures Offer(q, r, capacity).Valid(capacity)
    ensures Rest(Offer(q, r, capacity), source, bytes, offset + |r.data|, now, i + 1, capacity)
         == Rest(q, source, bytes, offset, now, i, capacity)
  {
    var chunk := |r.data|;
    RecordsHead(source, bytes[offset..], now, i);
    assert bytes[offset..][..chunk] == bytes[offset..offset + chunk];
    assert bytes[offset..][chunk..] == bytes[offset + chunk..];
    OfferValid(q, r, capacity);
    var records := Records(source, bytes[offset..], now, i);
    assert records[0] == r && records[1..] == Records(source, bytes[offset + chunk..], now, i + 1);
  }

  /** The record that carries the bytes at offset. */
  function FirstRecord(source: byte, bytes: seq<byte>, offset: nat, now: nat -> u64, i: nat): (r: Record)
    requires offset < |bytes|
    ensures 0 < |r.data| && offset + |r.data| <= |bytes|
  {
    var chunk := if |bytes| - offset > DATA_MAX then DATA_MAX else |bytes| - offset;
    LogRecord(now(i), source, 0, bytes[offset..offset + chunk])
  }

  datatype Popped = Popped(record: Record, droppedTotal: u32)

  class Ring {
    const data: array<byte>
    var writeOffset: nat
    var oldestOffset: nat
    var retained: nat
    var tail: nat
    var used: nat
    var dropped: u32
    ghost var q: Queue

    ghost predicate Valid()
      reads this, data
    {
      Represents(data[..], Here(), q) && dropped == q.dropped % CIRCLE
    }

    function Here(): Cells
      reads this
    {
      Cells(writeOffset, oldestOffset, retained, tail, used)
    }

    constructor (capacity: nat)
      requires capacity >= MIN_CAPACITY
      ensures Valid() && q == EMPTY && data.Length == capacity
    {
      data := new byte[capacity](_ => 0);
      writeOffset, oldestOffset, retained, tail, used, dropped := 0, 0, 0, 0, 0, 0;
      q := EMPTY;
    }

    /** The old bytes stay where they are; they are ignored. */
    method Reset()
      requires data.Length >= MIN_CAPACITY
      modifies this
      ensures Valid() && q == EMPTY
    {
      writeOffset, oldestOffset, retained, tail, used, dropped := 0, 0, 0, 0, 0, 0;
      q := EMPTY;
    }

    method CopyOut(offset: nat, length: nat) returns (bytes: seq<byte>)
      requires offset < data.Length && length <= data.Length
      ensures |bytes| == length && Holds(data[..], offset, bytes)
    {
      var first := if length < data.Length - offset then length else data.Length - offset;
      bytes := data[offset..offset + first];
      if length > first {
        bytes := bytes + data[..length - first];
      }
    }

    method After(offset: nat, length: nat) returns (next: nat)
      requires offset < data.Length && length <= data.Length
      ensures next == Wrap(offset + length, data.Length)
    {
      next := (offset + length) % data.Length;
      ModOnce(offset + length, data.Length);
    }

    method CopyIn(bytes: seq<byte>)
      requires writeOffset < data.Length && |bytes| <= data.Length
      modifies data, this`writeOffset
      ensures Written(old(data[..]), old(writeOffset), bytes, data[..])
      ensures writeOffset == Wrap(old(writeOffset) + |bytes|, data.Length)
    {
      var offset := writeOffset;
      var first := if |bytes| < data.Length - offset then |bytes| else data.Length - offset;
      forall i | 0 <= i < first {
        data[offset + i] := bytes[i];
      }
      if |bytes| > first {
        forall i | 0 <= i < |bytes| - first {
          data[i] := bytes[first + i];
        }
      }
      writeOffset := After(offset, |bytes|);
    }

    /** The data length in the header of the record at a cursor. */
    method PeekLength(offset: nat, ghost r: Record) returns (n: nat)
      requires Holds(data[..], offset, Header(r)) && data.Length >= MIN_CAPACITY
      ensures n == |r.data|
    {
      var header := CopyOut(offset, HEADER);
      HoldsUnique(data[..], offset, header, Header(r));
      HeaderLength(r);
      n := GetLe(header[10..]);
    }

    method PeekLive() returns (n: nat)
      requires Valid() && q.liveFrom < |q.all|
      ensures n == |q.all[q.liveFrom].data| && HEADER + n <= used
    {
      CursorStep(data[..], writeOffset, q.all, q.liveFrom, tail, used);
      n := PeekLength(tail, q.all[q.liveFrom]);
    }

    method PeekHistory() returns (n: nat)
      requires Valid() && q.historyFrom < q.liveFrom
      ensures n == |q.all[q.historyFrom].data|
    {
      CursorStep(data[..], writeOffset, q.all, q.historyFrom, oldestOffset, retained);
      n := PeekLength(oldestOffset, q.all[q.historyFrom]);
    }

    /** Forgets the oldest live record. That a record always fits in what is used is part of Valid, so the
        firmware's second reset branch is never taken, and its first changes nothing. */
    method DropOldest()
      requires Valid()
      modifies this`tail, this`used, this`dropped, this`q
      ensures Valid() && q == DropLive(old(q))
    {
      LiveEmpty(data[..], Here(), q);
      if used < HEADER {
        tail := writeOffset;
        used := 0;
      } else {
        ForgetOldest();
      }
    }

    method ForgetOldest()
      requires Valid() && q.liveFrom < |q.all|
      modifies this`tail, this`used, this`dropped, this`q
      ensures Valid() && q == DropLive(old(q))
    {
      LiveStep(data[..], Here(), q, DropLive(q).dropped);
      var length := PeekLive();
      DroppedWraps(q.dropped, length);
      StepLive(length);
      dropped := (dropped + length) % CIRCLE;
      q := DropLive(q);
    }

    method StepLive(length: nat)
      requires tail < data.Length && HEADER + length <= used <= data.Length
      modifies this`tail, this`used
      ensures Here() == StepOver(old(Here()), length, data.Length)
    {
      var recordSize := HEADER + length;
      tail := After(tail, recordSize);
      used := used - recordSize;
    }

    static lemma DroppedWraps(a: nat, b: nat)
      ensures (a % CIRCLE + b) % CIRCLE == (a + b) % CIRCLE
    {
    }

    /** Forgets the oldest retained record. The writer calls it only while more is retained than is live, so
        neither of the firmware's reset branches is ever taken. */
    method DropOldestHistory()
      requires Valid() && used < retained
      modifies this`oldestOffset, this`retained, this`q
      ensures Valid() && retained < old(retained)
      ensures q == old(q).(historyFrom := old(q).historyFrom + 1)
    {
      LiveEmpty(data[..], Here(), q);
      HistoryStep(data[..], Here(), q);
      var length := PeekHistory();
      StepHistory(length);
      q := q.(historyFrom := q.historyFrom + 1);
    }

    method StepHistory(length: nat)
      requires oldestOffset < data.Length && HEADER + length <= retained <= data.Length
      modifies this`oldestOffset, this`retained
      ensures Here() == StepOverHistory(old(Here()), length, data.Length)
    {
      var recordSize := HEADER + length;
      oldestOffset := After(oldestOffset, recordSize);
      retained := retained - recordSize;
    }

    /** Makes room in the history. */
    method TrimHistory(recordSize: nat)
      requires Valid() && used + recordSize <= data.Length
      modifies this`oldestOffset, this`retained, this`q
      ensures Valid() && retained + recordSize <= data.Length
      ensures q == CutHistory(old(q), data.Length - recordSize)
    {
      while data.Length - retained < recordSize && retained > 0
        invariant Valid()
        invariant CutHistory(q, data.Length - recordSize) == CutHistory(old(q), data.Length - recordSize)
        decreases retained
      {
        DropOldestHistory();
      }
    }

    method WriteRecord(header: seq<byte>, bytes: seq<byte>, ghost r: Record)
      requires Valid() && header == Header(r) && bytes == r.data && used + SizeOf(r) <= data.Length
      modifies this, data
      ensures Valid()
      ensures q == CutHistory(old(q), data.Length - SizeOf(r)).(all := old(q).all + [r])
    {
      var recordSize := HEADER + |bytes|;
      TrimHistory(recordSize);
      Append(header, bytes, r);
    }

    method Append(header: seq<byte>, bytes: seq<byte>, ghost r: Record)
      requires Valid() && header == Header(r) && bytes == r.data && retained + SizeOf(r) <= data.Length
      modifies this`writeOffset, this`used, this`retained, this`q, data
      ensures Valid() && q == old(q).(all := old(q).all + [r])
    {
      ghost var d, c := data[..], Here();
      CopyIn(header);
      ghost var d1 := data[..];
      CopyIn(bytes);
      PushStep(d, c, q, r, d1, data[..]);
      used := used + (HEADER + |bytes|);
      retained := retained + (HEADER + |bytes|);
      assert Here() == Lengthened(c, |r.data|, data.Length);
      q := q.(all := q.all + [r]);
    }

    /** Makes room among the live records. */
    method TrimLive(needed: nat)
      requires Valid() && needed <= data.Length
      modifies this`tail, this`used, this`dropped, this`q
      ensures Valid() && used + needed <= data.Length
      ensures q == CutLive(old(q), data.Length - needed)
    {
      while data.Length - used < needed && used > 0
        invariant Valid()
        invariant CutLive(q, data.Length - needed) == CutLive(old(q), data.Length - needed)
        decreases |q.all| - q.liveFrom
      {
        CutLiveStep(q, data.Length - needed);
        LiveEmpty(data[..], Here(), q);
        DropOldest();
      }
      LiveEmpty(data[..], Here(), q);
    }

    /** One record's worth of log_write, inside its critical section. */
    method WriteChunk(source: byte, bytes: seq<byte>, time: u64)
      requires Valid() && |bytes| <= DATA_MAX
      modifies this, data
      ensures Valid() && q == Offer(old(q), LogRecord(time, source, 0, bytes), data.Length)
    {
      ghost var r := LogRecord(time, source, 0, bytes);
      var header := PutLe(time, 8) + [source, 0] + PutLe(|bytes|, 2);
      var needed := HEADER + |bytes|;
      assert header == Header(r);
      ghost var before := q;
      TrimLive(needed);
      ghost var trimmed := q;
      WriteRecord(header, bytes, r);
      OfferCuts(before, trimmed, r, data.Length);
    }

    /** The next record of what is being written. */
    method WriteNext(source: byte, bytes: seq<byte>, offset: nat, now: nat -> u64, i: nat) returns (next: nat)
      requires Valid() && offset < |bytes|
      modifies this, data
      ensures Valid() && q == Offer(old(q), FirstRecord(source, bytes, offset, now, i), data.Length)
      ensures next == offset + |FirstRecord(source, bytes, offset, now, i).data|
    {
      var chunk := if |bytes| - offset > DATA_MAX then DATA_MAX else |bytes| - offset;
      WriteChunk(source, bytes[offset..offset + chunk], now(i));
      next := offset + chunk;
    }

    method WriteOn(source: byte, bytes: seq<byte>, offset: nat, now: nat -> u64, i: nat) returns (next: nat)
      requires Valid() && offset < |bytes|
      modifies this, data
      ensures Valid() && offset < next <= |bytes|
      ensures Rest(q, source, bytes, next, now, i + 1, data.Length)
           == Rest(old(q), source, bytes, offset, now, i, data.Length)
    {
      RestStep(q, source, bytes, offset, now, i, data.Length, FirstRecord(source, bytes, offset, now, i));
      next := WriteNext(source, bytes, offset, now, i);
    }

    /** Always takes everything: a record that does not fit pushes older ones out. */
    method LogWrite(fd: int, bytes: seq<byte>, now: nat -> u64) returns (size: nat)
      requires Valid()
      modifies this, data
      ensures Valid() && size == |bytes|
      ensures q == OfferAll(old(q), Records(if fd == 2 then 2 else 1, bytes, now, 0), data.Length)
    {
      var source: byte := if fd == 2 then 2 else 1;
      var offset, i: nat := 0, 0;
      assert bytes[0..] == bytes;
      while offset < |bytes|
        invariant offset <= |bytes| && Valid()
        invariant Rest(q, source, bytes, offset, now, i, data.Length)
               == Rest(old(q), source, bytes, 0, now, 0, data.Length)
      {
        offset := WriteOn(source, bytes, offset, now, i);
        i := i + 1;
      }
      size := |bytes|;
    }

    method Read(length: nat) returns (bytes: seq<byte>)
      requires tail < data.Length && length <= used <= data.Length
      modifies this`tail, this`used
      ensures |bytes| == length && Holds(data[..], old(tail), bytes)
      ensures tail == Wrap(old(tail) + length, data.Length) && used == old(used) - length
    {
      bytes := CopyOut(tail, length);
      tail := After(tail, length);
      used := used - length;
    }

    /** Hands over the oldest live record, whole, if it fits the budget. */
    method Pop(budget: nat) returns (r: Option<Popped>)
      requires Valid()
      modifies this`tail, this`used, this`q
      ensures Valid() && q == Take(old(q), budget)
      ensures r == if old(q).CanTake(budget) then Some(Popped(old(q).all[old(q).liveFrom], dropped)) else None
    {
      r := None;
      LiveEmpty(data[..], Here(), q);
      if used >= HEADER {
        var length := PeekLive();
        if length <= DATA_MAX && HEADER + length <= used && WIRE_OVERHEAD + length <= budget {
          var record := ReadRecord(length);
          r := Some(Popped(record, dropped));
        }
      }
    }

    method ReadRecord(length: nat) returns (record: Record)
      requires Valid() && q.liveFrom < |q.all| && length == |q.all[q.liveFrom].data|
      modifies this`tail, this`used, this`q
      ensures Valid() && record == old(q).all[old(q).liveFrom]
      ensures q == old(q).(liveFrom := old(q).liveFrom + 1)
    {
      ghost var r, next := q.all[q.liveFrom], q.(liveFrom := q.liveFrom + 1, dropped := q.dropped);
      LiveStep(data[..], Here(), q, q.dropped);
      LiveHolds(data[..], Here(), q);
      record := ReadAt(length, r);
      q := next;
    }

    method ReadAt(length: nat, ghost r: Record) returns (record: Record)
      requires HEADER + length <= used <= data.Length && length == |r.data|
      requires Holds(data[..], tail, Header(r)) && Holds(data[..], Wrap(tail + HEADER, data.Length), r.data)
      modifies this`tail, this`used
      ensures record == r && Here() == StepOver(old(Here()), length, data.Length)
    {
      ghost var at := tail;
      var header := Read(HEADER);
      var bytes := Read(length);
      WrapTwice(at, HEADER, length, data.Length);
      record := Parse(header, bytes, at, r);
    }

    method Parse(header: seq<byte>, bytes: seq<byte>, ghost at: nat, ghost r: Record) returns (record: Record)
      requires |header| == HEADER && |bytes| == |r.data|
      requires Holds(data[..], at, header) && Holds(data[..], Wrap(at + HEADER, data.Length), bytes)
      requires Holds(data[..], at, Header(r)) && Holds(data[..], Wrap(at + HEADER, data.Length), r.data)
      ensures record == r
    {
      HoldsUnique(data[..], at, header, Header(r));
      HoldsUnique(data[..], Wrap(at + HEADER, data.Length), bytes, r.data);
      HeaderLength(r);
      record := LogRecord(GetLe(header[..8]), header[8], header[9], bytes);
    }
  }
}
