/** Mirroring a screen: the device cuts each frame into tiles of whole rows, the link may lose any of them, and
    the gateway puts a frame together from what arrives. */
module Screen {
  import opened Arithmetic
  import opened Bytes
  import Receiver

  datatype Description = Description(x: int, y: int, width: int, height: int, stride: int, format: int)

  datatype Tile = Tile(frame: nat, d: Description, data: seq<byte>)

  predicate Raw(format: int) {
    format == 1 || format == 2
  }

  predicate Drawable(full: Description) {
    full.width > 0 && full.height > 0 && full.stride > 0 && Raw(full.format)
  }

  /** A tile of whole rows inside the frame. */
  predicate TileOf(full: Description, t: Tile) {
    && t.d == full.(y := t.d.y, height := t.d.height)
    && full.y <= t.d.y && 0 < t.d.height && t.d.y + t.d.height <= full.y + full.height
    && |t.data| == full.stride * t.d.height
  }

  predicate Completes(full: Description, t: Tile) {
    t.d.y + t.d.height == full.y + full.height
  }

  /** u starts where t ends, in the same frame or, when t completes it, at the top of the next. */
  predicate Follows(full: Description, t: Tile, u: Tile) {
    if Completes(full, t) then u.frame == t.frame + 1 && u.d.y == full.y
    else u.frame == t.frame && u.d.y == t.d.y + t.d.height
  }

  /** What a device emits: tiles that partition one frame after the other. */
  predicate Chain(full: Description, tiles: seq<Tile>) {
    && (tiles != [] ==> tiles[0].d.y == full.y)
    && (forall k :: 0 <= k < |tiles| ==> TileOf(full, tiles[k]))
    && (forall k :: 0 <= k < |tiles| - 1 ==> Follows(full, tiles[k], tiles[k + 1]))
  }

  /** Earlier in the chain is earlier in the film. */
  predicate Before(t: Tile, u: Tile) {
    t.frame < u.frame || (t.frame == u.frame && t.d.y < u.d.y)
  }

  lemma {:induction false} ChainOrdered(full: Description, tiles: seq<Tile>, i: nat, j: nat)
    requires Chain(full, tiles) && i < j < |tiles|
    ensures Before(tiles[i], tiles[j])
    decreases j
  {
    assert Follows(full, tiles[j - 1], tiles[j]);
    if i < j - 1 {
      ChainOrdered(full, tiles, i, j - 1);
    }
  }

  function Pixels(tiles: seq<Tile>, a: nat, b: nat): seq<byte>
    requires a <= b <= |tiles|
    decreases b
  {
    if a == b then [] else Pixels(tiles, a, b - 1) + tiles[b - 1].data
  }

  /** The tiles from a to b are one whole frame. */
  predicate WholeFrame(full: Description, tiles: seq<Tile>, a: nat, b: nat) {
    && a < b <= |tiles|
    && tiles[a].d.y == full.y && Completes(full, tiles[b - 1])
    && forall k :: a <= k < b ==> tiles[k].frame == tiles[a].frame
  }

  // ------------------------------------------------------------------- the device

  const WORD: nat := 0x1_0000

  /** On the wire a tile has sixteen bits for its first row and for its height. */
  function OnWire(t: Tile): Tile {
    t.(d := t.d.(y := t.d.y % WORD, height := t.d.height % WORD))
  }

  function Wire(tiles: seq<Tile>): seq<Tile> {
    seq(|tiles|, i requires 0 <= i < |tiles| => OnWire(tiles[i]))
  }

  /** A frame as the backend describes it: its fields have sixteen bits, but their sum may have more. */
  predicate Described(full: Description) {
    Drawable(full) && 0 <= full.y < WORD && full.height < WORD
  }

  /** The wire changes no tile exactly when the bottom of the frame fits sixteen bits, which nothing checks. */
  lemma WireFaithfulIff(full: Description)
    requires Described(full)
    ensures (forall t :: TileOf(full, t) ==> OnWire(t) == t) <==> full.y + full.height <= WORD
  {
    if full.y + full.height > WORD {
      var bottom := full.(y := full.y + full.height - 1, height := 1);
      var t := Tile(0, bottom, seq(full.stride, i => 0));
      assert TileOf(full, t) && OnWire(t).d.y == t.d.y - WORD;
    }
  }

  /** Then the chain goes out as it is. */
  lemma WireChain(full: Description, tiles: seq<Tile>)
    requires Described(full) && full.y + full.height <= WORD && Chain(full, tiles)
    ensures Wire(tiles) == tiles
  {
    WireFaithfulIff(full);
  }

  /** The firmware's slot for a mirrored screen: the tile that waits to be sent, and the gateway's credit. */
  class Tiler {
    const full: Description
    const total: nat
    const bufferSize: nat
    const interval: nat
    var offset: nat
    var frame: nat
    var nextFrame: int
    var credit: u32
    var pending: Option<Tile>
    ghost var row: nat
    ghost var emitted: seq<Tile>
    ghost var sent: seq<Tile>

    /** Where the tiles emitted so far have got to. */
    ghost predicate Continues()
      reads this
    {
      && row < full.height && offset == full.stride * row < total
      && (emitted == [] ==> row == 0)
      && (emitted != [] ==>
            var last := emitted[|emitted| - 1];
            if Completes(full, last) then row == 0 && frame == last.frame + 1
            else row == last.d.y + last.d.height - full.y && frame == last.frame)
    }

    /** The tiles emitted partition one frame after the other; all but the one that waits have been sent, and for
        that one there is credit. */
    ghost predicate Valid()
      reads this
    {
      && Described(full) && total == full.stride * full.height && Chain(full, emitted) && Continues()
      && Wire(emitted) == sent + (if pending.Some? then [pending.value] else [])
      && (pending.Some? ==> credit >= Receiver.MEDIA_HEADER + |pending.value.data|)
    }

    constructor (full: Description, bufferSize: nat, fps: nat)
      requires Described(full) && 0 < fps
      ensures Valid() && emitted == [] && pending == None && credit == 0
      ensures this.full == full && this.bufferSize == bufferSize && interval == 1000000 / fps
    {
      this.full, this.bufferSize, interval := full, bufferSize, 1000000 / fps;
      total := full.stride * full.height;
      offset, frame, nextFrame, credit, pending := 0, 1, 0, 0, None;
      row, emitted, sent := 0, [], [];
    }

    /** What is asked of the backend: whole rows, as many as fit the buffer and are left of the frame. */
    function Ask(): (size: nat)
      requires Valid()
      reads this
      ensures size <= total - offset
    {
      var size := WholeRows(bufferSize, full.stride);
      var remaining := total - offset;
      if size > remaining then remaining else size
    }

    predicate Usable(answer: Option<seq<byte>>, size: nat)
      requires full.stride > 0
    {
      answer.Some? && 0 < |answer.value| <= size && |answer.value| % full.stride == 0
    }

    /** A tile may be prepared: none waits, the next frame is due, and the credit suffices for what is asked. */
    predicate Ready(now: int)
      requires Valid()
      reads this
    {
      pending.None? && !(offset == 0 && now < nextFrame) && Ask() > 0 && credit >= Receiver.MEDIA_HEADER + Ask()
    }

    /** read is the backend: an error, or some of the rows asked for. */
    method Prepare(now: int, read: nat -> Option<seq<byte>>) returns (ok: bool, ghost t: Tile)
      requires Valid()
      modifies this`offset, this`frame, this`nextFrame, this`pending, this`row, this`emitted
      ensures Valid()
      ensures ok <==> old(Ready(now)) && Usable(read(old(Ask())), old(Ask()))
      ensures ok ==> t.data == read(old(Ask())).value && emitted == old(emitted) + [t] && pending == Some(OnWire(t))
      ensures !ok ==> emitted == old(emitted) && pending == old(pending) && offset == old(offset) && frame == old(frame)
      ensures nextFrame == if ok && offset == 0 then now + interval else old(nextFrame)
    {
      ok, t := false, Tile(0, full, []);
      if Ready(now) {
        var size := Ask();
        var answer := read(size);
        if Usable(answer, size) {
          t := Cut(now, answer.value);
          ok := true;
        }
      }
    }

    method Cut(now: int, data: seq<byte>) returns (ghost t: Tile)
      requires Valid() && pending.None? && 0 < |data| <= total - offset
      requires |data| % full.stride == 0 && credit >= Receiver.MEDIA_HEADER + |data|
      modifies this`offset, this`frame, this`nextFrame, this`pending, this`row, this`emitted
      ensures Valid() && emitted == old(emitted) + [t] && t.data == data && pending == Some(OnWire(t))
      ensures nextFrame == if offset == 0 then now + interval else old(nextFrame)
    {
      var rows := |data| / full.stride;
      assert total - offset == full.stride * (full.height - row);
      RowsFit(full.stride, |data|, full.height - row);
      DivExact(row, full.stride);
      t := Tile(frame, full.(y := full.y + row, height := rows), data);
      var y := (full.y + offset / full.stride) % WORD;
      pending := Some(Tile(frame, full.(y := y, height := rows % WORD), data));
      assert pending == Some(OnWire(t));
      assert Wire(emitted + [t]) == Wire(emitted) + [OnWire(t)];
      assert sent + [] == sent;
      ChainGrows(full, emitted, t);
      Emit(now, |data|, rows, t);
    }

    method Emit(now: int, size: nat, rows: nat, ghost t: Tile)
      requires Described(full) && Continues() && total == full.stride * full.height
      requires t.frame == frame && t.d.y == full.y + row && t.d.height == rows && 0 < rows <= full.height - row
      requires size == full.stride * rows
      modifies this`offset, this`frame, this`nextFrame, this`row, this`emitted
      ensures Continues() && emitted == old(emitted) + [t]
      ensures nextFrame == if offset == 0 then now + interval else old(nextFrame)
    {
      Advance(full.stride, row, rows, full.height);
      offset, row := offset + size, row + rows;
      emitted := emitted + [t];
      if offset == total {
        offset, row, frame := 0, 0, frame + 1;
        nextFrame := now + interval;
      }
    }

    /** The idle half of the pump sends the tile that waits; the credit is always there. */
    method Send() returns (t: Option<Tile>)
      requires Valid()
      modifies this`pending, this`credit, this`sent
      ensures Valid() && t == old(pending) && pending == None
      ensures sent == old(sent) + (if t.Some? then [t.value] else [])
      ensures t.Some? ==> credit + Receiver.MEDIA_HEADER + |t.value.data| == old(credit)
      ensures t.None? ==> credit == old(credit)
    {
      t := None;
      assert sent + [] == sent;
      if pending.Some? && credit >= Receiver.MEDIA_HEADER + |pending.value.data| {
        t := pending;
        credit := credit - (Receiver.MEDIA_HEADER + |pending.value.data|);
        sent := sent + [pending.value];
        pending := None;
        assert sent + [] == sent;
      }
    }

    method AddCredit(amount: u32)
      requires Valid()
      modifies this`credit
      ensures Valid()
      ensures credit == if old(credit) + amount < CIRCLE then old(credit) + amount else CIRCLE - 1
    {
      credit := if CIRCLE - 1 - credit < amount then CIRCLE - 1 else credit + amount;
    }
  }

  /** As many whole rows as fit the buffer. */
  function WholeRows(bufferSize: nat, stride: nat): (size: nat)
    requires 0 < stride
  {
    AtLeastZero(bufferSize / stride, stride);
    bufferSize / stride * stride
  }

  lemma ChainGrows(full: Description, tiles: seq<Tile>, t: Tile)
    requires Chain(full, tiles) && TileOf(full, t)
    requires if tiles == [] then t.d.y == full.y else Follows(full, tiles[|tiles| - 1], t)
    ensures Chain(full, tiles + [t])
  {
  }

  lemma AtLeastZero(a: nat, b: nat)
    ensures a * b >= 0
  {
  }

  lemma RowsFit(stride: nat, size: nat, left: nat)
    requires 0 < stride && 0 < size <= stride * left && size % stride == 0
    ensures 0 < size / stride <= left && size == stride * (size / stride)
  {
    DivExact(left, stride);
    DivMonotone(size, stride * left, stride);
    assert size == stride * (size / stride);
  }

  lemma RowsOrdered(stride: nat, a: nat, b: nat)
    requires 0 < stride && a <= b
    ensures stride * a <= stride * b && (stride * a == stride * b <==> a == b)
  {
    if a < b {
      AtLeast(stride, b - a);
      assert stride * b - stride * a == stride * (b - a);
    }
  }

  lemma Advance(stride: nat, row: nat, rows: nat, height: nat)
    requires 0 < stride && 0 < rows && row + rows <= height
    ensures stride * row + stride * rows == stride * (row + rows) && stride * 0 == 0
    ensures 0 < stride * (row + rows) <= stride * height
    ensures stride * (row + rows) == stride * height <==> row + rows == height
  {
    RowsOrdered(stride, row + rows, height);
    RowsOrdered(stride, 0, row + rows);
  }

  // ------------------------------------------------------------------ the gateway

  datatype Outcome = Assembled(d: Description, data: seq<byte>) | Mismatch | NotYet

  /** queue is what is left of the device's tiles after losses: those at the indices of at. */
  predicate Arrived(full: Description, emitted: seq<Tile>, at: seq<nat>, queue: seq<Tile>) {
    && Drawable(full) && Chain(full, emitted) && |queue| == |at|
    && (forall k :: 0 <= k < |at| ==> at[k] < |emitted| && queue[k] == emitted[at[k]])
    && (forall j, k :: 0 <= j < k < |at| ==> at[j] < at[k])
  }

  /** What the gateway gets from a tiler over a link that loses tiles: any of those sent, in order. */
  lemma SentArrives(t: Tiler, at: seq<nat>, queue: seq<Tile>)
    requires t.Valid() && t.full.y + t.full.height <= WORD && |queue| == |at|
    requires forall k :: 0 <= k < |at| ==> at[k] < |t.sent| && queue[k] == t.sent[at[k]]
    requires forall j, k :: 0 <= j < k < |at| ==> at[j] < at[k]
    ensures Arrived(t.full, t.emitted, at, queue)
  {
    WireChain(t.full, t.emitted);
    forall k | 0 <= k < |at| ensures at[k] < |t.emitted| && queue[k] == t.emitted[at[k]] {
      assert Wire(t.emitted)[at[k]] == t.sent[at[k]];
    }
  }

  /** The tiles from a on, up to b, all of one frame and without a gap. */
  predicate Gathered(full: Description, tiles: seq<Tile>, a: nat, b: nat, frame: nat, nextY: int, data: seq<byte>) {
    && Chain(full, tiles) && a < b <= |tiles| && tiles[a].d.y == full.y
    && (forall k :: a <= k < b ==> tiles[k].frame == frame)
    && nextY == tiles[b - 1].d.y + tiles[b - 1].d.height && data == Pixels(tiles, a, b)
    && |data| == full.stride * (nextY - full.y)
  }

  /** The whole of some one frame, top to bottom, each row once. */
  ghost predicate IsFrame(full: Description, emitted: seq<Tile>, data: seq<byte>) {
    |data| == full.stride * full.height
    && exists a, b :: WholeFrame(full, emitted, a, b) && data == Pixels(emitted, a, b)
  }

  lemma GatherTop(full: Description, tiles: seq<Tile>, j: nat)
    requires Chain(full, tiles) && j < |tiles| && tiles[j].d.y == full.y
    ensures Gathered(full, tiles, j, j + 1, tiles[j].frame, full.y + tiles[j].d.height, tiles[j].data)
  {
    assert Pixels(tiles, j, j + 1) == Pixels(tiles, j, j) + tiles[j].data;
  }

  /** The tile that continues what has been gathered is the next one the device emitted. */
  lemma GatherNext(full: Description, tiles: seq<Tile>, a: nat, b: nat, frame: nat, nextY: int, data: seq<byte>,
                   j: nat)
    requires Gathered(full, tiles, a, b, frame, nextY, data) && b <= j < |tiles|
    requires tiles[j].frame == frame && tiles[j].d.y == nextY
    ensures Gathered(full, tiles, a, j + 1, frame, nextY + tiles[j].d.height, data + tiles[j].data) && j == b
  {
    assert Follows(full, tiles[b - 1], tiles[b]);
    if j > b {
      ChainOrdered(full, tiles, b, j);
    }
    assert full.stride * (nextY + tiles[b].d.height - full.y)
        == full.stride * (nextY - full.y) + full.stride * tiles[b].d.height;
  }

  lemma GatherDone(full: Description, tiles: seq<Tile>, a: nat, b: nat, frame: nat, data: seq<byte>)
    requires Gathered(full, tiles, a, b, frame, full.y + full.height, data)
    ensures IsFrame(full, tiles, data)
  {
    assert WholeFrame(full, tiles, a, b);
  }

  predicate Matches(full: Description, t: Tile) {
    && t.d.x == full.x && t.d.width == full.width && t.d.stride == full.stride && t.d.height > 0
    && |t.data| == full.stride * t.d.height
  }

  /** The tiles of the queue from j on, up to k, begin a frame and follow one another without a gap. */
  predicate Opens(full: Description, emitted: seq<Tile>, at: seq<nat>, j: nat, k: nat)
    requires forall i :: 0 <= i < |at| ==> at[i] < |emitted|
  {
    && j < k <= |at| && at[k - 1] == at[j] + (k - 1 - j)
    && emitted[at[j]].d.y == full.y && forall i :: at[j] <= i <= at[k - 1] ==> emitted[i].frame == emitted[at[j]].frame
  }

  /** And they are all of it: no tile of the frame has been lost. */
  predicate ArrivesWhole(full: Description, emitted: seq<Tile>, at: seq<nat>, j: nat, k: nat)
    requires forall i :: 0 <= i < |at| ==> at[i] < |emitted|
  {
    Opens(full, emitted, at, j, k) && Completes(full, emitted[at[k - 1]])
  }

  /** Where a frame is being gathered in the queue: tiles a to b, from index from to index last. */
  predicate Gathering(at: seq<nat>, a: nat, b: nat, from: nat, last: nat, k: nat) {
    && from <= last < k <= |at| && at[from] == a && at[last] + 1 == b && last - from == b - 1 - a
  }

  lemma Ascending(full: Description, emitted: seq<Tile>, at: seq<nat>, queue: seq<Tile>, i: nat, k: nat)
    requires Arrived(full, emitted, at, queue) && i <= k < |at|
    ensures at[k] >= at[i] + (k - i)
    decreases k - i
  {
    if i < k {
      Ascending(full, emitted, at, queue, i, k - 1);
    }
  }

  /** The tile that continues the frame is the very next in the queue. */
  lemma NextInQueue(full: Description, emitted: seq<Tile>, at: seq<nat>, queue: seq<Tile>, a: nat, b: nat, from: nat,
                    last: nat, k: nat)
    requires Arrived(full, emitted, at, queue) && k < |at| && Gathering(at, a, b, from, last, k) && at[k] == b
    ensures last == k - 1 && Gathering(at, a, b + 1, from, k, k + 1)
  {
    Ascending(full, emitted, at, queue, last, k);
  }

  /** What begins a frame and goes on to tile k is what begins it and goes on to tile k - 1, continued by tile k. */
  lemma OpensNext(full: Description, emitted: seq<Tile>, at: seq<nat>, queue: seq<Tile>, j: nat, k: nat)
    requires Arrived(full, emitted, at, queue) && k < |at| && Opens(full, emitted, at, j, k + 1) && j < k
    ensures at[k] == at[k - 1] + 1 && Opens(full, emitted, at, j, k)
    ensures emitted[at[k]].frame == emitted[at[j]].frame && emitted[at[k]].d.y != full.y
    ensures emitted[at[k]].d.y == emitted[at[k - 1]].d.y + emitted[at[k - 1]].d.height
  {
    Ascending(full, emitted, at, queue, j, k - 1);
    Ascending(full, emitted, at, queue, k - 1, k);
    ChainOrdered(full, emitted, at[j], at[k]);
    assert Follows(full, emitted[at[k - 1]], emitted[at[k]]);
  }

  /** All that is open at k is what is being gathered, and nothing has been complete before. */
  ghost predicate Keeps(full: Description, emitted: seq<Tile>, at: seq<nat>, gathering: bool, a: nat, b: nat, k: nat)
    requires k <= |at| && forall i :: 0 <= i < |at| ==> at[i] < |emitted|
  {
    && (forall j: nat :: Opens(full, emitted, at, j, k) ==> gathering && a == at[j] && b == at[k - 1] + 1)
    && forall j: nat, m: nat :: m <= k ==> !ArrivesWhole(full, emitted, at, j, m)
  }

  /** A tile that opens a frame, or continues the one being gathered, without completing it. */
  lemma KeepsOn(full: Description, emitted: seq<Tile>, at: seq<nat>, queue: seq<Tile>, gathering: bool, a: nat, b: nat,
                k: nat)
    requires Arrived(full, emitted, at, queue) && k < |at| && Keeps(full, emitted, at, gathering, a, b, k)
    requires !Completes(full, queue[k])
    ensures queue[k].d.y == full.y ==> Keeps(full, emitted, at, true, at[k], at[k] + 1, k + 1)
    ensures gathering && queue[k].d.y != full.y && at[k] == b ==> Keeps(full, emitted, at, true, a, b + 1, k + 1)
  {
    var to := k + 1;
    forall j: nat | Opens(full, emitted, at, j, to) && j < k
      ensures queue[k].d.y != full.y && a == at[j] && b == at[k]
    {
      OpensNext(full, emitted, at, queue, j, k);
    }
  }

  /** A tile that neither opens a frame nor continues the one being gathered. */
  lemma KeepsOff(full: Description, emitted: seq<Tile>, at: seq<nat>, queue: seq<Tile>, gathering: bool, a: nat, b: nat,
                 k: nat, frame: nat, nextY: int, data: seq<byte>)
    requires Arrived(full, emitted, at, queue) && k < |at| && Keeps(full, emitted, at, gathering, a, b, k)
    requires gathering ==> Gathered(full, emitted, a, b, frame, nextY, data)
    requires queue[k].d.y != full.y && !(gathering && queue[k].frame == frame && queue[k].d.y == nextY)
    ensures Keeps(full, emitted, at, gathering, a, b, k + 1)
  {
    var to := k + 1;
    forall j: nat | Opens(full, emitted, at, j, to) && j < k ensures false {
      OpensNext(full, emitted, at, queue, j, k);
    }
  }

  /** Of the frame being gathered: its tiles, and its indices in the queue. */
  datatype Mark = Mark(a: nat, b: nat, from: nat, last: nat)

  /** What the loop knows before tile k. */
  ghost predicate Assembling(full: Description, emitted: seq<Tile>, at: seq<nat>, queue: seq<Tile>, frame: Option<nat>,
                             nextY: int, data: seq<byte>, g: Mark, k: nat) {
    && Arrived(full, emitted, at, queue) && k <= |at| && (forall m :: k <= m < |at| ==> at[m] >= g.b)
    && (frame.Some? ==> Gathered(full, emitted, g.a, g.b, frame.value, nextY, data)
                        && nextY < full.y + full.height && Gathering(at, g.a, g.b, g.from, g.last, k))
    && Keeps(full, emitted, at, frame.Some?, g.a, g.b, k)
  }

  /** The first frame of the queue that has lost no tile. */
  ghost predicate FirstWhole(full: Description, emitted: seq<Tile>, at: seq<nat>, from: nat, to: nat, data: seq<byte>)
    requires forall i :: 0 <= i < |at| ==> at[i] < |emitted|
  {
    && ArrivesWhole(full, emitted, at, from, to)
    && data == Pixels(emitted, at[from], at[to - 1] + 1) && IsFrame(full, emitted, data)
    && forall j: nat, m: nat :: ArrivesWhole(full, emitted, at, j, m) ==> to <= m
  }

  lemma TakesTop(full: Description, emitted: seq<Tile>, at: seq<nat>, queue: seq<Tile>, frame: Option<nat>, nextY: int,
                 data: seq<byte>, g: Mark, k: nat)
    requires Assembling(full, emitted, at, queue, frame, nextY, data, g, k)
    requires k < |at| && queue[k].d.y == full.y
    ensures var t := queue[k];
            && Matches(full, t) && full.y + t.d.height <= full.y + full.height
            && if Completes(full, t) then FirstWhole(full, emitted, at, k, k + 1, t.data)
               else Assembling(full, emitted, at, queue, Some(t.frame), full.y + t.d.height, t.data,
                               Mark(at[k], at[k] + 1, k, k), k + 1)
  {
    GatherTop(full, emitted, at[k]);
    if Completes(full, queue[k]) {
      GatherDone(full, emitted, at[k], at[k] + 1, queue[k].frame, queue[k].data);
    } else {
      KeepsOn(full, emitted, at, queue, frame.Some?, g.a, g.b, k);
    }
  }

  lemma TakesNext(full: Description, emitted: seq<Tile>, at: seq<nat>, queue: seq<Tile>, frame: nat, nextY: int,
                  data: seq<byte>, g: Mark, k: nat)
    requires Assembling(full, emitted, at, queue, Some(frame), nextY, data, g, k)
    requires k < |at| && queue[k].d.y == nextY != full.y && queue[k].frame == frame
    ensures var t := queue[k];
            && Matches(full, t) && nextY + t.d.height <= full.y + full.height
            && if Completes(full, t) then FirstWhole(full, emitted, at, g.from, k + 1, data + t.data)
               else Assembling(full, emitted, at, queue, Some(frame), nextY + t.d.height, data + t.data,
                               Mark(g.a, g.b + 1, g.from, k), k + 1)
  {
    GatherNext(full, emitted, g.a, g.b, frame, nextY, data, at[k]);
    NextInQueue(full, emitted, at, queue, g.a, g.b, g.from, g.last, k);
    if Completes(full, queue[k]) {
      GatherDone(full, emitted, g.a, g.b + 1, frame, data + queue[k].data);
    } else {
      KeepsOn(full, emitted, at, queue, true, g.a, g.b, k);
    }
  }

  lemma TakesNothing(full: Description, emitted: seq<Tile>, at: seq<nat>, queue: seq<Tile>, frame: Option<nat>,
                     nextY: int, data: seq<byte>, g: Mark, k: nat)
    requires Assembling(full, emitted, at, queue, frame, nextY, data, g, k)
    requires k < |at| && queue[k].d.y != full.y && !(frame == Some(queue[k].frame) && queue[k].d.y == nextY)
    ensures Assembling(full, emitted, at, queue, frame, nextY, data, g, k + 1)
  {
    KeepsOff(full, emitted, at, queue, frame.Some?, g.a, g.b, k, if frame.Some? then frame.value else 0, nextY, data);
  }

  /** A tile of the raw frame's geometry that ends within it. */
  predicate Regular(full: Description, t: Tile) {
    && t.d.x == full.x && t.d.width == full.width && t.d.stride == full.stride && t.d.format == full.format
    && t.d.height > 0 && |t.data| == full.stride * t.d.height && t.d.y + t.d.height <= full.y + full.height
  }

  function Joined(queue: seq<Tile>, used: seq<nat>): seq<byte>
    requires forall i :: 0 <= i < |used| ==> used[i] < |queue|
  {
    if used == [] then [] else Joined(queue, used[..|used| - 1]) + queue[used[|used| - 1]].data
  }

  /** Whatever arrives: the data is that of regular tiles of one frame number, in the order they came, each of which
      starts where the one before ends, from the top of the frame down to nextY. */
  ghost predicate Composed(full: Description, queue: seq<Tile>, used: seq<nat>, nextY: int, data: seq<byte>) {
    && used != [] && (forall i :: 0 <= i < |used| ==> used[i] < |queue| && Regular(full, queue[used[i]]))
    && queue[used[0]].d.y == full.y
    && (forall i :: 0 <= i < |used| ==> queue[used[i]].frame == queue[used[0]].frame)
    && (forall i :: 0 < i < |used| ==>
          used[i - 1] < used[i] && queue[used[i]].d.y == queue[used[i - 1]].d.y + queue[used[i - 1]].d.height)
    && nextY == queue[used[|used| - 1]].d.y + queue[used[|used| - 1]].d.height
    && data == Joined(queue, used)
  }

  ghost predicate ComposedFrame(full: Description, queue: seq<Tile>, used: seq<nat>, data: seq<byte>) {
    Composed(full, queue, used, full.y + full.height, data)
  }

  lemma ComposedFirst(full: Description, queue: seq<Tile>, k: nat)
    requires k < |queue| && Regular(full, queue[k]) && queue[k].d.y == full.y
    ensures Composed(full, queue, [k], full.y + queue[k].d.height, queue[k].data)
  {
    assert [k][..0] == [] && [] + queue[k].data == queue[k].data;
  }

  lemma ComposedPush(full: Description, queue: seq<Tile>, used: seq<nat>, nextY: int, data: seq<byte>, k: nat)
    requires Composed(full, queue, used, nextY, data) && used[|used| - 1] < k < |queue| && Regular(full, queue[k])
    requires queue[k].frame == queue[used[0]].frame && queue[k].d.y == nextY
    ensures Composed(full, queue, used + [k], nextY + queue[k].d.height, data + queue[k].data)
  {
    assert (used + [k])[..|used|] == used;
  }

  /** A tile that is a whole encoded picture. */
  predicate Encoded(t: Tile) {
    t.d.format == 3 || t.d.format == 4
  }

  /** Of encoded pictures, the first that is not empty is the answer, as it is. */
  predicate FirstEncoded(queue: seq<Tile>, r: Outcome) {
    if r.Assembled? then
      exists k :: 0 <= k < |queue| && queue[k].data != [] && r == Assembled(queue[k].d, queue[k].data)
                  && forall m :: 0 <= m < k ==> queue[m].data == []
    else r == NotYet && forall k :: 0 <= k < |queue| ==> queue[k].data == []
  }

  /** Where the loop is: the frame being gathered, where its next tile must start, and the data so far. */
  datatype Loop = Loop(frame: Option<nat>, nextY: int, data: seq<byte>)

  function Opening(full: Description, l: Loop, t: Tile): Loop {
    if t.d.y == full.y then Loop(Some(t.frame), full.y, []) else l
  }

  predicate Continues(full: Description, l: Loop, t: Tile) {
    Opening(full, l, t).frame == Some(t.frame) && t.d.y == Opening(full, l, t).nextY
  }

  /** What a raw tile makes of it. */
  function Took(full: Description, l: Loop, t: Tile): (Loop, Outcome) {
    var o := Opening(full, l, t);
    if !Continues(full, l, t) then (o, NotYet)
    else if !Matches(full, t) then (o, Mismatch)
    else
      var next := Loop(o.frame, o.nextY + t.d.height, o.data + t.data);
      if next.nextY == full.y + full.height then
        (next, if |next.data| == full.stride * full.height then Assembled(full, next.data) else Mismatch)
      else (next, if next.nextY > full.y + full.height then Mismatch else NotYet)
  }

  /** What the loop has used before tile k. */
  ghost predicate Tracked(full: Description, queue: seq<Tile>, used: seq<nat>, l: Loop, k: nat) {
    l.frame.Some? ==>
      Composed(full, queue, used, l.nextY, l.data) && queue[used[0]].frame == l.frame.value && used[|used| - 1] < k
  }

  function NextUsed(full: Description, l: Loop, t: Tile, used: seq<nat>, k: nat): seq<nat> {
    if t.d.y == full.y then [k] else if Continues(full, l, t) then used + [k] else used
  }

  lemma {:induction false} ComposedLength(full: Description, queue: seq<Tile>, used: seq<nat>, nextY: int,
                                          data: seq<byte>)
    requires Composed(full, queue, used, nextY, data)
    ensures nextY >= full.y && |data| == full.stride * (nextY - full.y)
    decreases |used|
  {
    var n := |used| - 1;
    var t, prior := queue[used[n]], used[..n];
    if n == 0 {
      assert Joined(queue, prior) == [];
    } else {
      ComposedLength(full, queue, prior, t.d.y, Joined(queue, prior));
      assert full.stride * (nextY - full.y) == full.stride * (t.d.y - full.y) + full.stride * t.d.height;
    }
  }

  lemma TookFirst(full: Description, queue: seq<Tile>, l: Loop, k: nat)
    requires Drawable(full) && k < |queue| && Regular(full, queue[k]) && queue[k].d.y == full.y
    ensures Composed(full, queue, [k], Took(full, l, queue[k]).0.nextY, Took(full, l, queue[k]).0.data)
    ensures !Took(full, l, queue[k]).1.Mismatch?
  {
    assert [] + queue[k].data == queue[k].data;
    ComposedFirst(full, queue, k);
  }

  lemma TookNext(full: Description, queue: seq<Tile>, used: seq<nat>, l: Loop, k: nat)
    requires Drawable(full) && k < |queue| && Tracked(full, queue, used, l, k) && Regular(full, queue[k])
    requires queue[k].d.y != full.y && Continues(full, l, queue[k])
    ensures Composed(full, queue, used + [k], Took(full, l, queue[k]).0.nextY, Took(full, l, queue[k]).0.data)
    ensures !Took(full, l, queue[k]).1.Mismatch?
  {
    var nextY, data := l.nextY + queue[k].d.height, l.data + queue[k].data;
    ComposedPush(full, queue, used, l.nextY, l.data, k);
    ComposedLength(full, queue, used + [k], nextY, data);
  }

  /** A regular tile is never complained of. */
  lemma TookTracked(full: Description, queue: seq<Tile>, used: seq<nat>, l: Loop, k: nat)
    requires Drawable(full) && k < |queue| && Tracked(full, queue, used, l, k) && queue[k].d.format == full.format
    ensures var (next, r) := Took(full, l, queue[k]);
            var more := NextUsed(full, l, queue[k], used, k);
            && (r == Mismatch ==> !Regular(full, queue[k]))
            && (r == NotYet ==> Tracked(full, queue, more, next, k + 1))
            && (r.Assembled? ==> r.d == full && Composed(full, queue, more, full.y + full.height, r.data))
  {
    var t := queue[k];
    if Regular(full, t) && t.d.y == full.y {
      TookFirst(full, queue, l, k);
    } else if Regular(full, t) && Continues(full, l, t) {
      TookNext(full, queue, used, l, k);
    } else if Continues(full, l, t) && Matches(full, t) {
      assert t.d.y + t.d.height > full.y + full.height;
    }
  }

  function NextMark(full: Description, l: Loop, t: Tile, g: Mark, at: seq<nat>, k: nat): Mark
    requires k < |at|
  {
    if t.d.y == full.y then Mark(at[k], at[k] + 1, k, k)
    else if Continues(full, l, t) then Mark(g.a, g.b + 1, g.from, k)
    else g
  }

  lemma TookHonest(full: Description, emitted: seq<Tile>, at: seq<nat>, queue: seq<Tile>, l: Loop, g: Mark, k: nat)
    requires Assembling(full, emitted, at, queue, l.frame, l.nextY, l.data, g, k) && k < |at|
    ensures var (next, r) := Took(full, l, queue[k]);
            var mark := NextMark(full, l, queue[k], g, at, k);
            match r
            case NotYet => Assembling(full, emitted, at, queue, next.frame, next.nextY, next.data, mark, k + 1)
            case Assembled(d, data) => d == full && FirstWhole(full, emitted, at, mark.from, k + 1, data)
            case Mismatch => false
  {
    var t := queue[k];
    if t.d.y == full.y {
      TakesTop(full, emitted, at, queue, l.frame, l.nextY, l.data, g, k);
      assert [] + t.data == t.data;
    } else if Continues(full, l, t) {
      TakesNext(full, emitted, at, queue, t.frame, l.nextY, l.data, g, k);
    } else {
      TakesNothing(full, emitted, at, queue, l.frame, l.nextY, l.data, g, k);
    }
  }

  /** What any tile makes of it: an encoded picture is the answer unless it is empty, and another format is passed
      over. */
  function Taken(full: Description, l: Loop, t: Tile): (Loop, Outcome) {
    if Encoded(t) then (l, if t.data != [] then Assembled(t.d, t.data) else NotYet)
    else if t.d.format != full.format then (l, NotYet)
    else Took(full, l, t)
  }

  /** The answer from the tiles from k on. */
  function Assemble(full: Description, l: Loop, queue: seq<Tile>, k: nat): Outcome
    requires k <= |queue|
    decreases |queue| - k
  {
    if k == |queue| then NotYet
    else
      var (next, r) := Taken(full, l, queue[k]);
      if r != NotYet then r else Assemble(full, next, queue, k + 1)
  }

  function Empty(full: Description): Loop {
    Loop(None, full.y, [])
  }

  ghost predicate HasFirstWhole(full: Description, emitted: seq<Tile>, at: seq<nat>, data: seq<byte>)
    requires forall i :: 0 <= i < |at| ==> at[i] < |emitted|
  {
    exists from, to: nat :: FirstWhole(full, emitted, at, from, to, data)
  }

  lemma {:induction false} AssembleHonest(full: Description, emitted: seq<Tile>, at: seq<nat>, queue: seq<Tile>,
                                          l: Loop, g: Mark, k: nat)
    requires Assembling(full, emitted, at, queue, l.frame, l.nextY, l.data, g, k)
    ensures var r := Assemble(full, l, queue, k);
            match r
            case Mismatch => false
            case Assembled(d, data) => d == full && HasFirstWhole(full, emitted, at, data)
            case NotYet => forall j: nat, m: nat :: !ArrivesWhole(full, emitted, at, j, m)
    decreases |queue| - k
  {
    if k < |queue| {
      TookHonest(full, emitted, at, queue, l, g, k);
      var (next, r) := Took(full, l, queue[k]);
      assert Taken(full, l, queue[k]) == (next, r);
      if r == NotYet {
        AssembleHonest(full, emitted, at, queue, next, NextMark(full, l, queue[k], g, at, k), k + 1);
      }
    }
  }

  /** Of the tiles of one device, however many are lost, the gateway never complains; it returns a raw frame exactly
      when no tile of some frame has been lost, and then the first such frame, whole. */
  lemma FramesComplete(full: Description, emitted: seq<Tile>, at: seq<nat>, queue: seq<Tile>)
    requires Arrived(full, emitted, at, queue)
    ensures var r := Assemble(full, Empty(full), queue, 0);
            match r
            case Mismatch => false
            case Assembled(d, data) => d == full && HasFirstWhole(full, emitted, at, data)
            case NotYet => forall j: nat, m: nat :: !ArrivesWhole(full, emitted, at, j, m)
  {
    AssembleHonest(full, emitted, at, queue, Empty(full), Mark(0, 0, 0, 0), 0);
  }

  /** Whatever arrives, a raw frame is composed of regular tiles, and only an irregular one is complained of. */
  lemma {:induction false} FramesComposed(full: Description, queue: seq<Tile>, l: Loop, used: seq<nat>, k: nat)
    requires Drawable(full) && k <= |queue| && Tracked(full, queue, used, l, k)
    ensures var r := Assemble(full, l, queue, k);
            && (r.Assembled? && Raw(r.d.format) ==>
                  r.d == full && exists all :: ComposedFrame(full, queue, all, r.data))
            && (r == Mismatch ==> exists t :: t in queue && t.d.format == full.format && !Regular(full, t))
    decreases |queue| - k
  {
    if k < |queue| {
      var t := queue[k];
      assert t in queue;
      if Encoded(t) || t.d.format != full.format {
        FramesComposed(full, queue, l, used, k + 1);
      } else {
        TookTracked(full, queue, used, l, k);
        var (next, r) := Took(full, l, t);
        if r.Assembled? {
          assert ComposedFrame(full, queue, NextUsed(full, l, t, used, k), r.data);
        } else if r == NotYet {
          FramesComposed(full, queue, next, NextUsed(full, l, t, used, k), k + 1);
        }
      }
    }
  }

  lemma {:induction false} EncodedFirst(full: Description, l: Loop, queue: seq<Tile>, k: nat)
    requires k <= |queue| && (forall m :: 0 <= m < |queue| ==> Encoded(queue[m]))
    requires forall m :: 0 <= m < k ==> queue[m].data == []
    ensures FirstEncoded(queue, Assemble(full, l, queue, k))
    decreases |queue| - k
  {
    if k < |queue| && queue[k].data == [] {
      EncodedFirst(full, l, queue, k + 1);
    }
  }

  /** Takes tiles as they come and returns the first frame that is complete. */
  method NextCompleteFrame(queue: seq<Tile>, full: Description) returns (r: Outcome)
    ensures r == Assemble(full, Empty(full), queue, 0)
  {
    var frame: Option<nat> := None;
    var nextY, data := full.y, [];
    for k := 0 to |queue|
      invariant Assemble(full, Loop(frame, nextY, data), queue, k) == Assemble(full, Empty(full), queue, 0)
    {
      var t := queue[k];
      if t.d.format == 3 || t.d.format == 4 {
        if t.data != [] {
          return Assembled(t.d, t.data);
        }
      } else if t.d.format == full.format {
        if t.d.y == full.y {
          frame, nextY, data := Some(t.frame), full.y, [];
        }
        if frame == Some(t.frame) && t.d.y == nextY {
          if !Matches(full, t) {
            return Mismatch;
          }
          data := data + t.data;
          nextY := nextY + t.d.height;
          if nextY == full.y + full.height {
            if |data| != full.stride * full.height {
              return Mismatch;
            }
            return Assembled(full, data);
          }
          if nextY > full.y + full.height {
            return Mismatch;
          }
        }
      }
    }
    r := NotYet;
  }
}
