/** Reception: the delimiter parser of the gateway, and the firmware's pump, which feeds the same parser from
    a 256-byte read buffer, stops feeding while its single transmit slot is taken, and lends the bytes of a
    half-received frame to the media sender. */
module Receiver {
  import opened Bytes
  import opened Frames
  import Cobs

  const READ_SIZE: nat := 256
  const MEDIA_HEADER: nat := 36

  /** The parser: the bytes since the last delimiter, or a note that they are being discarded. */
  datatype Rx = Rx(encoded: seq<byte>, discarding: bool) {
    predicate Valid() {
      |encoded| < MAX_WIRE_FRAME && (discarding ==> encoded == [])
    }
  }

  const START: Rx := Rx([], false)

  /** What one byte completes: nothing, a frame, or something that is no frame. */
  datatype Outcome = Quiet | Delivered(frame: Frame) | Rejected

  function NextRx(s: Rx, v: byte): Rx {
    if v == 0 then START
    else if s.discarding then s
    else if |s.encoded| >= MAX_WIRE_FRAME - 1 then Rx([], true)
    else Rx(s.encoded + [v], false)
  }

  function Complete(s: Rx, v: byte): Outcome {
    if v == 0 then
      if s.discarding || s.encoded == [] then Quiet
      else match DecodeFrame(s.encoded)
        case Ok(f) => Delivered(f)
        case Err(_) => Rejected
    else if !s.discarding && |s.encoded| >= MAX_WIRE_FRAME - 1 then Rejected
    else Quiet
  }

  function FramesIn(o: Outcome): seq<Frame> {
    if o.Delivered? then [o.frame] else []
  }

  /** The reference: the parser's state and the frames it has yielded after a string of bytes. */
  datatype Parsed = Parsed(rx: Rx, frames: seq<Frame>, invalid: nat) {
    function Put(v: byte): Parsed {
      var o := Complete(rx, v);
      Parsed(NextRx(rx, v), frames + FramesIn(o), invalid + (if o.Rejected? then 1 else 0))
    }
  }

  function Parse(from: Parsed, data: seq<byte>): Parsed
    decreases |data|
  {
    if data == [] then from else Parse(from.Put(data[0]), data[1..])
  }

  function ParseAll(data: seq<byte>): Parsed {
    Parse(Parsed(START, [], 0), data)
  }

  lemma {:induction false} ParseConcat(p: Parsed, a: seq<byte>, b: seq<byte>)
    ensures Parse(p, a + b) == Parse(Parse(p, a), b)
    decreases |a|
  {
    if a == [] {
      assert a + b == b;
    } else {
      assert (a + b)[1..] == a[1..] + b;
      ParseConcat(p.Put(a[0]), a[1..], b);
    }
  }

  lemma ParseOne(p: Parsed, data: seq<byte>, v: byte)
    ensures Parse(p, data + [v]) == Parse(p, data).Put(v)
  {
    ParseConcat(p, data, [v]);
    assert [v][1..] == [];
  }

  // ------------------------------------------------------ the gateway's decoder

  class FrameDecoder {
    var encoded: seq<byte>
    var discarding: bool
    var invalidFrames: nat

    function State(): Rx
      reads this
    {
      Rx(encoded, discarding)
    }

    constructor ()
      ensures State() == START && invalidFrames == 0
    {
      encoded, discarding, invalidFrames := [], false, 0;
    }

    method Feed(data: seq<byte>) returns (frames: seq<Frame>)
      requires State().Valid()
      modifies this
      ensures State().Valid()
      ensures Parsed(State(), frames, invalidFrames) == Parse(old(Parsed(State(), [], invalidFrames)), data)
    {
      frames := [];
      for i := 0 to |data|
        invariant State().Valid()
        invariant Parsed(State(), frames, invalidFrames)
               == Parse(old(Parsed(State(), [], invalidFrames)), data[..i])
      {
        assert data[..i + 1] == data[..i] + [data[i]];
        ParseOne(old(Parsed(State(), [], invalidFrames)), data[..i], data[i]);
        var value := data[i];
        if value == 0 {
          if discarding {
            discarding := false;
            encoded := [];
          } else if encoded != [] {
            var r := DecodeFrame(encoded);
            if r.Ok? {
              frames := frames + [r.value];
            } else {
              invalidFrames := invalidFrames + 1;
            }
            encoded := [];
          }
        } else if !discarding {
          if |encoded| >= MAX_WIRE_FRAME - 1 {
            invalidFrames := invalidFrames + 1;
            discarding := true;
            encoded := [];
          } else {
            encoded := encoded + [value];
          }
        }
      }
      assert data[..|data|] == data;
    }
  }

  // ------------------------------------------------------- the firmware's pump

  /** What a handler does: it may queue a reply of some size, ask for a disconnection once that is sent, or begin
      a new session, which clears all buffers. */
  datatype Reaction = Reaction(size: nat, closes: bool, renews: bool)

  /** The reaction to the n-th frame. */
  type Respond = nat -> Reaction

  /** The receive side of the link as the pump sees it: the parser, read bytes not fed yet, the bytes left in
      the transmit slot, whether to disconnect when it is empty, whether the session was renewed while feeding,
      and, for the record, what has been read, fed and handed to the handlers, how much was thrown away, and how
      often the pump disconnected. */
  datatype Link = Link(rx: Rx, pending: seq<byte>, tx: nat, closing: bool, renewed: bool, received: seq<byte>,
                       fed: seq<byte>, delivered: seq<Frame>, invalid: nat, skipped: nat, drops: nat)

  const IDLE: Link := Link(START, [], 0, false, false, [], [], [], 0, 0, 0)

  function React(l: Link, r: Reaction): Link {
    l.(tx := r.size, closing := (l.closing && !r.renews) || r.closes, renewed := l.renewed || r.renews)
  }

  /** The link after byte v, which completes o. */
  function Put(l: Link, v: byte, o: Outcome, respond: Respond): Link {
    var after := l.(rx := NextRx(l.rx, v), fed := l.fed + [v], delivered := l.delivered + FramesIn(o),
                    invalid := l.invalid + (if o.Rejected? then 1 else 0));
    if o.Delivered? then React(after, respond(|l.delivered|)) else after
  }

  function FeedByte(l: Link, v: byte, respond: Respond): Link {
    Put(l, v, Complete(l.rx, v), respond)
  }

  /** Feeds pending bytes until they are used up or a reply takes the transmit slot. */
  function FeedPending(l: Link, respond: Respond): Link
    decreases |l.pending|
  {
    if l.pending == [] then l
    else
      var next := FeedByte(l, l.pending[0], respond).(pending := l.pending[1..]);
      if next.tx != 0 then next else FeedPending(next, respond)
  }

  lemma FeedStep(l: Link, respond: Respond)
    requires l.pending != []
    ensures var next := FeedByte(l, l.pending[0], respond).(pending := l.pending[1..]);
            FeedPending(l, respond) == if next.tx != 0 then next else FeedPending(next, respond)
  {
  }

  /** A session renewed while feeding leaves nothing of the read behind it. */
  function Leave(end: Link): Link {
    if end.renewed then end.(pending := [], renewed := false, skipped := end.skipped + |end.pending|) else end
  }

  function Feed(l: Link, respond: Respond): Link {
    Leave(FeedPending(l, respond))
  }

  /** What the idle half of the pump queues: nothing, a frame built elsewhere, or a media frame whose payload
      is built in the receive buffer. */
  datatype Queued = Nothing | Other(size: nat) | Media(scratch: seq<byte>, size: nat)

  /** The receive buffer after scratch has been written to its start. */
  function Overwrite(encoded: seq<byte>, scratch: seq<byte>): seq<byte> {
    if |scratch| >= |encoded| then scratch[..|encoded|] else scratch + encoded[|scratch|..]
  }

  function Queue(l: Link, q: Queued): Link {
    if l.tx != 0 then l
    else match q
      case Nothing => l
      case Other(size) => l.(tx := size)
      case Media(scratch, size) =>
        l.(rx := l.rx.(encoded := Overwrite(l.rx.encoded, scratch)), tx := size)
  }

  function Flush(l: Link, sent: nat): Link {
    l.(tx := if sent <= l.tx then l.tx - sent else 0)
  }

  /** One pass: what the transport takes, what it gives, what gets queued, what it takes again. */
  datatype Pass = Pass(sent: nat, incoming: seq<byte>, queued: Queued, sentAfter: nat)

  function Refill(l: Link, incoming: seq<byte>): Link {
    if l.pending == [] then l.(pending := incoming, received := l.received + incoming) else l
  }

  /** The disconnection asked for comes when the transmit slot is empty. */
  function Settled(l: Link): Link {
    if l.tx == 0 && l.closing then l.(closing := false, drops := l.drops + 1) else l
  }

  function Pump(l: Link, p: Pass, respond: Respond): Link {
    var flushed := Flush(l, p.sent);
    if flushed.tx != 0 || flushed.closing then Settled(flushed)
    else Settled(Flush(Queue(Feed(Refill(flushed, p.incoming), respond), p.queued), p.sentAfter))
  }

  function Run(l: Link, passes: seq<Pass>, respond: Respond): Link
    decreases |passes|
  {
    if passes == [] then l else Run(Pump(l, passes[0], respond), passes[1..], respond)
  }

  // --------------------------------------------------------------- main results

  /** The pump is where the reference parser is after the bytes fed so far, and has lost none but those skipped. */
  ghost predicate Tracks(l: Link) {
    && ParseAll(l.fed) == Parsed(l.rx, l.delivered, l.invalid)
    && |l.received| == |l.fed| + |l.pending| + l.skipped
    && (l.skipped == 0 ==> l.received == l.fed + l.pending)
  }

  lemma FeedByteTracks(l: Link, respond: Respond)
    requires Tracks(l) && l.pending != []
    ensures Tracks(FeedByte(l, l.pending[0], respond).(pending := l.pending[1..]))
  {
    ParseOne(Parsed(START, [], 0), l.fed, l.pending[0]);
    assert l.fed + l.pending == l.fed + [l.pending[0]] + l.pending[1..];
  }

  /** Feeding keeps the pump on the reference, and stops early only for a reply. */
  lemma {:induction false} FeedPendingTracks(l: Link, respond: Respond)
    requires Tracks(l) && l.tx == 0
    ensures Tracks(FeedPending(l, respond))
    ensures FeedPending(l, respond).pending == [] || FeedPending(l, respond).tx != 0
    decreases |l.pending|
  {
    if l.pending != [] {
      FeedByteTracks(l, respond);
      var next := FeedByte(l, l.pending[0], respond).(pending := l.pending[1..]);
      if next.tx == 0 {
        FeedPendingTracks(next, respond);
      }
    }
  }

  /** The state in which the idle half of a pass finds the link. */
  function Fed(l: Link, p: Pass, respond: Respond): Link {
    Feed(Refill(Flush(l, p.sent), p.incoming), respond)
  }

  /** A media frame is built in this pass. */
  predicate BuildsMedia(l: Link, p: Pass, respond: Respond) {
    Flush(l, p.sent).tx == 0 && !l.closing && Fed(l, p, respond).tx == 0 && p.queued.Media?
  }

  lemma RefillTracks(l: Link, incoming: seq<byte>)
    requires Tracks(l)
    ensures Tracks(Refill(l, incoming))
  {
    if l.pending == [] && l.skipped == 0 {
      assert l.received + incoming == l.fed + incoming;
    }
  }

  lemma FeedTracks(l: Link, respond: Respond)
    requires Tracks(l) && l.tx == 0
    ensures Tracks(Feed(l, respond))
    ensures Feed(l, respond).pending == [] || Feed(l, respond).tx != 0
  {
    FeedPendingTracks(l, respond);
    var end := FeedPending(l, respond);
    if end.renewed && end.pending == [] {
      assert end.fed + end.pending == end.fed;
    }
  }

  lemma PumpTracks(l: Link, p: Pass, respond: Respond)
    requires Tracks(l)
    requires BuildsMedia(l, p, respond) ==> Fed(l, p, respond).rx.encoded == []
    ensures Tracks(Pump(l, p, respond))
  {
    var flushed := Flush(l, p.sent);
    if flushed.tx == 0 && !l.closing {
      RefillTracks(flushed, p.incoming);
      FeedTracks(Refill(flushed, p.incoming), respond);
      var fed := Fed(l, p, respond);
      assert Queue(fed, p.queued).rx == fed.rx;
    }
  }

  /** Media frames are built only between frames of the incoming stream. */
  ghost predicate MediaBetweenFrames(l: Link, passes: seq<Pass>, respond: Respond)
    decreases |passes|
  {
    passes != [] ==>
      && (BuildsMedia(l, passes[0], respond) ==> Fed(l, passes[0], respond).rx.encoded == [])
      && MediaBetweenFrames(Pump(l, passes[0], respond), passes[1..], respond)
  }

  /** Whatever the reads, the stalls and the replies: the handlers get the frames the reference yields on the
      bytes fed, in order, and those bytes are all that was read but for what is still pending and what stood
      behind a renewal of the session in the same read. */
  lemma {:induction false} RunTracks(l: Link, passes: seq<Pass>, respond: Respond)
    requires Tracks(l) && MediaBetweenFrames(l, passes, respond)
    ensures Tracks(Run(l, passes, respond))
    decreases |passes|
  {
    if passes != [] {
      PumpTracks(l, passes[0], respond);
      RunTracks(Pump(l, passes[0], respond), passes[1..], respond);
    }
  }

  /** Two runs that have read and used up the same stream, without a renewal that skipped part of it, have handed
      over the same frames, however differently it was cut and however differently they stalled. */
  lemma ChunkingIndependent(a: seq<Pass>, b: seq<Pass>, replyA: Respond, replyB: Respond)
    requires MediaBetweenFrames(IDLE, a, replyA) && MediaBetweenFrames(IDLE, b, replyB)
    requires Run(IDLE, a, replyA).pending == [] && Run(IDLE, b, replyB).pending == []
    requires Run(IDLE, a, replyA).skipped == 0 && Run(IDLE, b, replyB).skipped == 0
    requires Run(IDLE, a, replyA).received == Run(IDLE, b, replyB).received
    ensures Run(IDLE, a, replyA).delivered == Run(IDLE, b, replyB).delivered
         == ParseAll(Run(IDLE, a, replyA).received).frames
  {
    RunTracks(IDLE, a, replyA);
    RunTracks(IDLE, b, replyB);
    var end := Run(IDLE, a, replyA);
    assert end.fed + [] == end.fed && Run(IDLE, b, replyB).fed + [] == Run(IDLE, b, replyB).fed;
  }

  /** Media leave the parser alone, whatever they say, exactly when no frame is half received. The firmware
      does not check that before it builds them. */
  lemma MediaHarmlessIff(l: Link)
    requires l.tx == 0
    ensures (forall scratch, size :: |scratch| >= MEDIA_HEADER ==> Queue(l, Media(scratch, size)).rx == l.rx)
       <==> l.rx.encoded == []
  {
    var e := l.rx.encoded;
    if e != [] {
      var other: byte := if e[0] == 0 then 1 else 0;
      var scratch := seq(MEDIA_HEADER, i => other);
      assert Overwrite(e, scratch)[0] == other != e[0];
      assert Queue(l, Media(scratch, 1)).rx != l.rx;
    }
  }

  lemma {:induction false} ParseQuiet(p: Parsed, data: seq<byte>)
    requires Cobs.ZeroFree(data) && !p.rx.discarding && |p.rx.encoded| + |data| < MAX_WIRE_FRAME
    ensures Parse(p, data) == p.(rx := Rx(p.rx.encoded + data, false))
    decreases |data|
  {
    if data == [] {
      assert p.rx.encoded + data == p.rx.encoded;
    } else {
      ParseQuiet(p.Put(data[0]), data[1..]);
      assert p.rx.encoded + data == p.rx.encoded + [data[0]] + data[1..];
      assert p.frames + [] == p.frames;
    }
  }

  lemma {:induction false} ParseDiscarding(p: Parsed, data: seq<byte>)
    requires Cobs.ZeroFree(data) && p.rx == Rx([], true)
    ensures Parse(p, data) == p
    decreases |data|
  {
    if data != [] {
      assert p.frames + [] == p.frames;
      ParseDiscarding(p.Put(data[0]), data[1..]);
    }
  }

  /** More bytes without a delimiter than a wire frame may have are complained of once, and discarded. */
  lemma ParseLong(p: Parsed, data: seq<byte>)
    requires Cobs.ZeroFree(data) && p.rx == START && |data| >= MAX_WIRE_FRAME
    ensures Parse(p, data) == Parsed(Rx([], true), p.frames, p.invalid + 1)
  {
    var n := MAX_WIRE_FRAME - 1;
    var head, rest := data[..n], data[n + 1..];
    assert data == head + ([data[n]] + rest);
    ParseConcat(p, head, [data[n]] + rest);
    ParseQuiet(p, head);
    var full := p.(rx := Rx(START.encoded + head, false));
    var over := full.Put(data[n]);
    assert over == Parsed(Rx([], true), p.frames, p.invalid + 1) by {
      assert p.frames + [] == p.frames;
    }
    ParseDiscarding(over, rest);
    assert ([data[n]] + rest)[1..] == rest;
  }

  /** What the parser makes of the bytes between two delimiters: nothing of none, a frame if they decode to one, and
      otherwise one complaint, as for too many; and it is ready for the next either way. */
  lemma ParseSegment(p: Parsed, data: seq<byte>)
    requires Cobs.ZeroFree(data) && p.rx == START
    ensures Parse(p, data + [0])
         == if data == [] then p
            else if |data| < MAX_WIRE_FRAME && DecodeFrame(data).Ok? then
              Parsed(START, p.frames + [DecodeFrame(data).value], p.invalid)
            else Parsed(START, p.frames, p.invalid + 1)
  {
    ParseOne(p, data, 0);
    assert p.frames + [] == p.frames && START.encoded + data == data;
    if |data| < MAX_WIRE_FRAME {
      ParseQuiet(p, data);
    } else {
      ParseLong(p, data);
    }
  }

  /** Any zero byte brings any state of the parser back to the start; a frame sent after it arrives. */
  lemma Resynchronises(p: Parsed, f: Frame)
    requires Encodable(f)
    ensures Parse(p, [0]).rx == START
    ensures Parse(p, [0] + EncodeFrame(f)).rx == START
    ensures Parse(p, [0] + EncodeFrame(f)).frames == Parse(p, [0]).frames + [f]
  {
    var w := EncodeFrame(f);
    var body := w[..|w| - 1];
    FrameRoundTrip(f);
    ParseConcat(p, [0], w);
    assert Parse(p, [0]) == p.Put(0);
    ParseQuiet(p.Put(0), body);
    assert [] + body == body && w == body + [0];
    ParseOne(p.Put(0), body, 0);
  }

  /** The reference yields a frame sent alone. */
  lemma ParseAllFrame(f: Frame)
    requires Encodable(f)
    ensures ParseAll(EncodeFrame(f)).frames == [f]
  {
    var w, start := EncodeFrame(f), Parsed(START, [], 0);
    var body := w[..|w| - 1];
    FrameRoundTrip(f);
    ParseQuiet(start, body);
    assert [] + body == body && w == body + [0];
    ParseOne(start, body, 0);
  }

  lemma {:induction false} FeedPendingQuiet(l: Link, a: seq<byte>, rest: seq<byte>, respond: Respond)
    requires l.pending == a + rest && Cobs.ZeroFree(a) && l.tx == 0
    requires !l.rx.discarding && |l.rx.encoded| + |a| < MAX_WIRE_FRAME
    ensures FeedPending(l, respond)
         == FeedPending(l.(rx := Rx(l.rx.encoded + a, false), pending := rest, fed := l.fed + a), respond)
    decreases |a|
  {
    if a == [] {
      assert a + rest == rest && l.rx.encoded + a == l.rx.encoded && l.fed + a == l.fed;
    } else {
      var next := FeedByte(l, l.pending[0], respond).(pending := l.pending[1..]);
      assert l.pending[1..] == a[1..] + rest && l.delivered + [] == l.delivered;
      FeedPendingQuiet(next, a[1..], rest, respond);
      assert l.rx.encoded + [a[0]] + a[1..] == l.rx.encoded + a && l.fed + [a[0]] + a[1..] == l.fed + a;
    }
  }

  lemma {:induction false} RunAppend(l: Link, a: seq<Pass>, b: seq<Pass>, respond: Respond)
    ensures Run(l, a + b, respond) == Run(Run(l, a, respond), b, respond)
    decreases |a|
  {
    if a == [] {
      assert a + b == b;
    } else {
      assert (a + b)[1..] == a[1..] + b;
      RunAppend(Pump(l, a[0], respond), a[1..], b, respond);
    }
  }

  /** Passes that only read, and let the transmit slot drain. */
  function Reads(chunks: seq<seq<byte>>): seq<Pass> {
    if chunks == [] then [] else [Pass(1, chunks[0], Nothing, 0)] + Reads(chunks[1..])
  }

  /** Nothing waits to be fed or, but for a byte, to be sent. */
  predicate Waits(l: Link) {
    l.pending == [] && l.tx <= 1 && !l.closing && !l.renewed && !l.rx.discarding
  }

  /** Reading bytes inside a frame only collects them. */
  lemma ReadQuiet(l: Link, data: seq<byte>, respond: Respond)
    requires Waits(l) && Cobs.ZeroFree(data) && |l.rx.encoded| + |data| < MAX_WIRE_FRAME
    ensures Pump(l, Pass(1, data, Nothing, 0), respond)
         == l.(rx := Rx(l.rx.encoded + data, false), tx := 0, received := l.received + data, fed := l.fed + data)
  {
    var read := Refill(Flush(l, 1), data);
    assert data + [] == data;
    FeedPendingQuiet(read, data, [], respond);
  }

  lemma {:induction false} ReadsQuiet(l: Link, chunks: seq<seq<byte>>, respond: Respond)
    requires Waits(l) && Cobs.ZeroFree(Concat(chunks)) && |l.rx.encoded| + |Concat(chunks)| < MAX_WIRE_FRAME
    ensures var end := Run(l, Reads(chunks), respond);
            && Waits(end) && end.rx == Rx(l.rx.encoded + Concat(chunks), false) && end.delivered == l.delivered
            && end.received == l.received + Concat(chunks)
    decreases |chunks|
  {
    if chunks == [] {
      assert l.rx.encoded + [] == l.rx.encoded && l.received + [] == l.received;
    } else {
      SplitFree(chunks[0], Concat(chunks[1..]));
      ReadQuiet(l, chunks[0], respond);
      var next := Pump(l, Pass(1, chunks[0], Nothing, 0), respond);
      assert Reads(chunks)[1..] == Reads(chunks[1..]);
      ReadsQuiet(next, chunks[1..], respond);
      Assoc(l.rx.encoded, chunks[0], Concat(chunks[1..]));
      Assoc(l.received, chunks[0], Concat(chunks[1..]));
    }
  }

  lemma SplitFree(a: seq<byte>, b: seq<byte>)
    requires Cobs.ZeroFree(a + b)
    ensures Cobs.ZeroFree(a) && Cobs.ZeroFree(b)
  {
    assert forall i :: 0 <= i < |a| ==> (a + b)[i] == a[i];
    assert forall i :: 0 <= i < |b| ==> (a + b)[|a| + i] == b[i];
  }

  lemma FeedClosing(l: Link, a: seq<byte>, respond: Respond)
    requires l.pending == a + [0] && Cobs.ZeroFree(a) && l.tx == 0
    requires !l.rx.discarding && 0 < |l.rx.encoded| && |l.rx.encoded| + |a| < MAX_WIRE_FRAME
    requires l.rx.encoded[0] == 0
    ensures FeedPending(l, respond)
         == l.(rx := START, pending := [], fed := l.fed + a + [0], invalid := l.invalid + 1)
  {
    FeedPendingQuiet(l, a, [0], respond);
    var closing := l.(rx := Rx(l.rx.encoded + a, false), pending := [0], fed := l.fed + a);
    assert Cobs.Decode(closing.rx.encoded) == Cobs.ZeroByte;
    var last := FeedByte(closing, 0, respond).(pending := closing.pending[1..]);
    assert last.pending == [] && l.delivered + [] == l.delivered;
  }

  /** Reading the end of a frame whose first byte has become a zero. */
  lemma ReadClosing(l: Link, a: seq<byte>, respond: Respond)
    requires Waits(l) && Cobs.ZeroFree(a) && 0 < |l.rx.encoded| && |l.rx.encoded| + |a| < MAX_WIRE_FRAME
    requires l.rx.encoded[0] == 0
    ensures var end := Pump(l, Pass(1, a + [0], Nothing, 0), respond);
            && Waits(end) && end.rx == START && end.delivered == l.delivered
            && end.received == l.received + (a + [0])
  {
    FeedClosing(Refill(Flush(l, 1), a + [0]), a, respond);
  }

  lemma Taken(c: seq<byte>, rest: seq<byte>, body: seq<byte>)
    requires c + rest == body + [0] && |c| <= |body|
    ensures c == body[..|c|] && rest == body[|c|..] + [0]
  {
    assert (c + rest)[..|c|] == c && (c + rest)[|c|..] == rest;
  }

  lemma ReadsStep(l: Link, chunks: seq<seq<byte>>, respond: Respond)
    requires chunks != []
    ensures Run(l, Reads(chunks), respond)
         == Run(Pump(l, Pass(1, chunks[0], Nothing, 0), respond), Reads(chunks[1..]), respond)
  {
    assert Reads(chunks)[1..] == Reads(chunks[1..]);
  }

  lemma TailEnds(l: Link, chunks: seq<seq<byte>>, body: seq<byte>, respond: Respond)
    requires Waits(l) && Cobs.ZeroFree(body) && chunks != [] && chunks[0] == body + [0] && Concat(chunks[1..]) == []
    requires 0 < |l.rx.encoded| && |l.rx.encoded| + |body| < MAX_WIRE_FRAME && l.rx.encoded[0] == 0
    ensures var end := Run(l, Reads(chunks), respond);
            && end.pending == [] && end.rx == START && end.delivered == l.delivered
            && end.received == l.received + (body + [0])
  {
    ReadsStep(l, chunks, respond);
    ReadClosing(l, body, respond);
    var next := Pump(l, Pass(1, chunks[0], Nothing, 0), respond);
    ReadsQuiet(next, chunks[1..], respond);
    assert next.received + [] == next.received;
  }

  lemma {:induction false} TailLost(l: Link, chunks: seq<seq<byte>>, body: seq<byte>, respond: Respond)
    requires Waits(l) && Concat(chunks) == body + [0] && Cobs.ZeroFree(body)
    requires 0 < |l.rx.encoded| && |l.rx.encoded| + |body| < MAX_WIRE_FRAME && l.rx.encoded[0] == 0
    ensures var end := Run(l, Reads(chunks), respond);
            && end.pending == [] && end.rx == START && end.delivered == l.delivered
            && end.received == l.received + (body + [0])
    decreases |chunks|
  {
    var c, rest := chunks[0], Concat(chunks[1..]);
    if |c| == |body| + 1 {
      assert c == c + rest && rest == [];
      TailEnds(l, chunks, body, respond);
    } else {
      ReadsStep(l, chunks, respond);
      Taken(c, rest, body);
      SplitFree(body[..|c|], body[|c|..]);
      assert body[..|c|] + body[|c|..] == body;
      ReadQuiet(l, c, respond);
      TailLost(Pump(l, Pass(1, c, Nothing, 0), respond), chunks[1..], body[|c|..], respond);
      Assoc(l.received, c, rest);
    }
  }

  /** A media frame built over a half-received frame. */
  lemma MediaBuilt(l: Link, scratch: seq<byte>, respond: Respond)
    requires Waits(l)
    ensures Pump(l, Pass(1, [], Media(scratch, 1), 0), respond)
         == l.(rx := Rx(Overwrite(l.rx.encoded, scratch), false), tx := 1)
  {
    assert l.received + [] == l.received;
  }

  /** A wire frame: no zero byte but its last. */
  predicate IsWire(w: seq<byte>) {
    0 < |w| <= MAX_WIRE_FRAME && w[|w| - 1] == 0 && Cobs.ZeroFree(w[..|w| - 1])
  }

  lemma WireSplits(w: seq<byte>, k: nat)
    requires IsWire(w) && 0 < k < |w|
    ensures w[k..] == w[k..|w| - 1] + [0] && Cobs.ZeroFree(w[..k]) && Cobs.ZeroFree(w[k..|w| - 1])
    ensures [] + w[..k] == w[..k] && w[..k] + w[k..] == w
  {
    assert forall i :: 0 <= i < |w| - 1 ==> w[i] == w[..|w| - 1][i];
  }

  /** A media frame is built after the bytes before have been read. */
  function Interrupted(before: seq<seq<byte>>, scratch: seq<byte>, after: seq<seq<byte>>): seq<Pass> {
    Reads(before) + ([Pass(1, [], Media(scratch, 1), 0)] + Reads(after))
  }

  lemma WireLost(w: seq<byte>, k: nat, before: seq<seq<byte>>, after: seq<seq<byte>>, scratch: seq<byte>,
                 respond: Respond)
    requires IsWire(w) && 0 < k < |w| && Concat(before) == w[..k] && Concat(after) == w[k..]
    requires |scratch| >= MEDIA_HEADER && scratch[0] == 0
    ensures var end := Run(IDLE, Interrupted(before, scratch, after), respond);
            end.received == w && end.pending == [] && end.rx == START && end.delivered == []
  {
    WireSplits(w, k);
    var pass := Pass(1, [], Media(scratch, 1), 0);
    RunAppend(IDLE, Reads(before), [pass] + Reads(after), respond);
    ReadsQuiet(IDLE, before, respond);
    var head := Run(IDLE, Reads(before), respond);
    MediaBuilt(head, scratch, respond);
    var built := Pump(head, pass, respond);
    assert ([pass] + Reads(after))[1..] == Reads(after);
    TailLost(built, after, w[k..|w| - 1], respond);
  }

  /** So reception does depend on where the stream is cut. Any frame at all is lost, although the reference
      yields it, when a media frame whose timestamp begins with a zero byte is built after its first k bytes, for
      every k within the frame and whatever reads the bytes before and after arrive in. */
  lemma MediaLosesFrame(f: Frame, k: nat, before: seq<seq<byte>>, after: seq<seq<byte>>, scratch: seq<byte>,
                        respond: Respond)
    requires Encodable(f) && 0 < k < |EncodeFrame(f)|
    requires Concat(before) == EncodeFrame(f)[..k] && Concat(after) == EncodeFrame(f)[k..]
    requires |scratch| >= MEDIA_HEADER && scratch[0] == 0
    ensures ParseAll(EncodeFrame(f)).frames == [f]
    ensures var end := Run(IDLE, Interrupted(before, scratch, after), respond);
            end.received == EncodeFrame(f) && end.pending == [] && end.rx == START && end.delivered == []
  {
    ParseAllFrame(f);
    FrameRoundTrip(f);
    WireLost(EncodeFrame(f), k, before, after, scratch, respond);
  }

  // --------------------------------------------------------------- the slot and the end

  /** While the transmit slot is taken nothing is read, fed or queued; and a disconnection asked for comes as soon as
      the slot is empty, before anything more is read. */
  lemma SlotFirst(l: Link, p: Pass, respond: Respond)
    ensures l.tx > p.sent ==> Pump(l, p, respond) == l.(tx := l.tx - p.sent)
    ensures l.tx <= p.sent && l.closing ==>
              Pump(l, p, respond) == l.(tx := 0, closing := false, drops := l.drops + 1)
  {
  }

  /** What a handler answers is what waits to be sent; it may ask for a disconnection, and a renewal forgets one asked
      for before. */
  lemma ReactionTaken(l: Link, f: Frame, respond: Respond)
    requires Complete(l.rx, 0) == Delivered(f)
    ensures var after, r := FeedByte(l, 0, respond), respond(|l.delivered|);
            && after.delivered == l.delivered + [f] && after.tx == r.size
            && (after.closing <==> r.closes || (l.closing && !r.renews))
            && (after.renewed <==> r.renews || l.renewed)
  {
  }

  /** The idle half of a pass: one more frame is queued, into an empty slot only, and a disconnection asked for by a
      handler comes in the same pass if everything is sent. */
  lemma IdleQueues(l: Link, p: Pass, respond: Respond)
    requires l.tx == 0 && !l.closing && l.pending == [] && !l.renewed && p.incoming == [] && !p.queued.Media?
    ensures var size := if p.queued.Other? then p.queued.size else 0;
            Pump(l, p, respond) == l.(tx := if p.sentAfter >= size then 0 else size - p.sentAfter)
    ensures forall q: Queued :: l.tx == 0 ==> Queue(l.(tx := 1), q) == l.(tx := 1)
  {
    assert l.received + [] == l.received;
  }

  /** The last half of a pass disconnects if the reply of the closing handler has been sent in it. */
  lemma ClosesAtOnce(l: Link, p: Pass, respond: Respond)
    requires l.tx == 0 && !l.closing
    ensures var fed := Fed(l, p, respond);
            var end := Pump(l, p, respond);
            && (fed.closing && fed.tx > 0 && fed.tx <= p.sentAfter ==> end.drops == l.drops + 1 && !end.closing)
            && (fed.closing && fed.tx > p.sentAfter ==> end.drops == l.drops && end.closing)
            && (!fed.closing ==> end.drops == l.drops && !end.closing)
  {
    FeedDropsNone(Refill(Flush(l, p.sent), p.incoming), respond);
  }

  lemma {:induction false} FeedDropsNone(l: Link, respond: Respond)
    ensures FeedPending(l, respond).drops == l.drops
    decreases |l.pending|
  {
    if l.pending != [] {
      FeedStep(l, respond);
      FeedDropsNone(FeedByte(l, l.pending[0], respond).(pending := l.pending[1..]), respond);
    }
  }

  // ----------------------------------------------------------- renewed sessions

  /** The wire frame w, without its delimiter, is a frame. */
  predicate Carries(w: seq<byte>, f: Frame) {
    IsWire(w) && 1 < |w| && DecodeFrame(w[..|w| - 1]) == Ok(f)
  }

  lemma FeedBody(l: Link, body: seq<byte>, tail: seq<byte>, respond: Respond)
    requires l.pending == body + [0] + tail && l.tx == 0 && l.rx == START
    requires Cobs.ZeroFree(body) && |body| < MAX_WIRE_FRAME
    ensures FeedPending(l, respond)
         == FeedPending(l.(rx := Rx(body, false), pending := [0] + tail, fed := l.fed + body), respond)
  {
    Assoc(body, [0], tail);
    FeedPendingQuiet(l, body, [0] + tail, respond);
    assert [] + body == body;
  }

  /** Feeding a whole frame hands it over, and goes on behind it unless a reply waits. */
  lemma FeedWire(l: Link, w: seq<byte>, f: Frame, tail: seq<byte>, respond: Respond)
    requires Carries(w, f) && l.pending == w + tail && l.tx == 0 && l.rx == START
    ensures var after := l.(pending := tail, fed := l.fed + w, delivered := l.delivered + [f]);
            var next := React(after, respond(|l.delivered|));
            FeedPending(l, respond) == if next.tx != 0 then next else FeedPending(next, respond)
  {
    var body := w[..|w| - 1];
    assert w == body + [0];
    FeedBody(l, body, tail, respond);
    FeedEnd(l.(rx := Rx(body, false), pending := [0] + tail, fed := l.fed + body), f, tail, respond);
    Assoc(l.fed, body, [0]);
  }

  lemma FeedEnd(l: Link, f: Frame, tail: seq<byte>, respond: Respond)
    requires l.pending == [0] + tail && !l.rx.discarding && l.rx.encoded != [] && DecodeFrame(l.rx.encoded) == Ok(f)
    ensures var after := l.(rx := START, pending := tail, fed := l.fed + [0], delivered := l.delivered + [f]);
            var next := React(after, respond(|l.delivered|));
            FeedPending(l, respond) == if next.tx != 0 then next else FeedPending(next, respond)
  {
    assert l.pending[1..] == tail;
    FeedStep(l, respond);
  }

  /** Between two reads with nothing under way. */
  predicate Quiescent(l: Link) {
    l.pending == [] && l.rx == START && !l.renewed
  }

  /** Lets the transmit slot drain and a disconnection happen. */
  lemma Drained(l: Link, respond: Respond)
    requires Quiescent(l)
    ensures var end := Pump(l, Pass(l.tx, [], Nothing, 0), respond);
            Quiescent(end) && end.tx == 0 && !end.closing && end.delivered == l.delivered && end.skipped == l.skipped
  {
  }

  /** A frame read alone is handed over, and nothing is skipped. */
  lemma ReadAlone(l: Link, w: seq<byte>, f: Frame, respond: Respond)
    requires Carries(w, f) && Quiescent(l) && l.tx == 0 && !l.closing
    ensures var end := Pump(l, Pass(0, w, Nothing, 0), respond);
            Quiescent(end) && end.delivered == l.delivered + [f] && end.skipped == l.skipped
  {
    assert w + [] == w;
    FeedWire(Refill(l, w), w, f, [], respond);
  }

  lemma PendingApart(l: Link, v: byte, pending: seq<byte>, respond: Respond)
    ensures FeedByte(l.(pending := pending), v, respond) == FeedByte(l, v, respond).(pending := pending)
  {
  }

  /** Feeding one string after another, as long as no reply stops it. */
  lemma {:induction false} FeedOnward(l: Link, a: seq<byte>, b: seq<byte>, respond: Respond)
    requires l.pending == a + b && l.tx == 0 && FeedPending(l.(pending := a), respond).tx == 0
    ensures FeedPending(l, respond) == FeedPending(FeedPending(l.(pending := a), respond).(pending := b), respond)
    decreases |a|
  {
    if a == [] {
      assert a + b == b;
    } else {
      var next := FeedByte(l, a[0], respond);
      PendingApart(l, a[0], a, respond);
      FeedStep(l.(pending := a), respond);
      FeedStep(l, respond);
      assert l.pending[1..] == a[1..] + b && l.pending[0] == a[0];
      FeedOnward(next.(pending := a[1..] + b), a[1..], b, respond);
    }
  }

  lemma {:induction false} FeedSkipsNone(l: Link, respond: Respond)
    ensures FeedPending(l, respond).skipped == l.skipped
    decreases |l.pending|
  {
    if l.pending != [] {
      FeedStep(l, respond);
      FeedSkipsNone(FeedByte(l, l.pending[0], respond).(pending := l.pending[1..]), respond);
    }
  }

  /** Whatever is read behind a frame that renews the session is thrown away, and nothing else: whatever state the
      parser is in, and whatever comes before the delimiter in the same read, be it the rest of a frame half received
      or whole frames whose handlers queue nothing. */
  lemma RenewalSkips(l: Link, before: seq<byte>, tail: seq<byte>, respond: Respond)
    requires l.pending == before + ([0] + tail) && l.tx == 0
    requires FeedPending(l.(pending := before), respond).tx == 0
    requires Complete(FeedPending(l.(pending := before), respond).rx, 0).Delivered?
    requires respond(|FeedPending(l.(pending := before), respond).delivered|).renews
    requires respond(|FeedPending(l.(pending := before), respond).delivered|).size > 0
    ensures var m, end := FeedPending(l.(pending := before), respond), Feed(l, respond);
            && end.delivered == m.delivered + [Complete(m.rx, 0).frame] && end.fed == m.fed + [0]
            && end.pending == [] && end.rx == START && !end.renewed && end.skipped == l.skipped + |tail|
  {
    var m := FeedPending(l.(pending := before), respond);
    FeedOnward(l, before, [0] + tail, respond);
    FeedSkipsNone(l.(pending := before), respond);
    FeedEnd(m.(pending := [0] + tail), Complete(m.rx, 0).frame, tail, respond);
  }

  /** Every read fits the firmware's buffer. */
  predicate Fits(passes: seq<Pass>) {
    forall k :: 0 <= k < |passes| ==> |passes[k].incoming| <= READ_SIZE
  }

  const PROBE: Frame := Frame(0, 0, 0, 0, 0, 0, 0, [])

  lemma ProbeCarried()
    ensures Encodable(PROBE) && Carries(EncodeFrame(PROBE), PROBE) && |EncodeFrame(PROBE)| < READ_SIZE
  {
    FrameRoundTrip(PROBE);
    Cobs.EncodeLength(PlainFrame(PROBE));
  }

  lemma Once(l: Link, a: Pass, respond: Respond)
    ensures Run(l, [a], respond) == Pump(l, a, respond)
  {
    assert [a][1..] == [];
  }

  lemma Twice(l: Link, a: Pass, b: Pass, respond: Respond)
    ensures Run(l, [a, b], respond) == Pump(Pump(l, a, respond), b, respond)
  {
    assert [a, b][1..] == [b];
    Once(Pump(l, a, respond), b, respond);
  }

  /** Between two reads, with an empty transmit slot and n frames handed over. */
  predicate Waiting(l: Link, n: nat) {
    Quiescent(l) && l.tx == 0 && !l.closing && |l.delivered| == n
  }

  lemma OneMore(l: Link, n: nat, w: seq<byte>, f: Frame, respond: Respond) returns (passes: seq<Pass>)
    requires Carries(w, f) && |w| < READ_SIZE && Waiting(l, n)
    ensures Fits(passes) && Waiting(Run(l, passes, respond), n + 1)
  {
    ReadAlone(l, w, f, respond);
    var read := Pump(l, Pass(0, w, Nothing, 0), respond);
    Drained(read, respond);
    passes := [Pass(0, w, Nothing, 0), Pass(read.tx, [], Nothing, 0)];
    Twice(l, passes[0], passes[1], respond);
  }

  /** Any number of frames can be handed over. */
  lemma {:induction false} Reaches(n: nat, w: seq<byte>, f: Frame, respond: Respond) returns (passes: seq<Pass>)
    requires Carries(w, f) && |w| < READ_SIZE
    ensures Fits(passes) && Waiting(Run(IDLE, passes, respond), n)
  {
    if n == 0 {
      passes := [];
    } else {
      var before := Reaches(n - 1, w, f, respond);
      var more := OneMore(Run(IDLE, before, respond), n - 1, w, f, respond);
      RunAppend(IDLE, before, more, respond);
      passes := before + more;
    }
  }

  ghost predicate NeverRenews(respond: Respond) {
    forall n: nat :: !respond(n).renews
  }

  lemma {:induction false} FeedSteady(l: Link, respond: Respond)
    requires NeverRenews(respond) && !l.renewed
    ensures !FeedPending(l, respond).renewed && FeedPending(l, respond).skipped == l.skipped
    decreases |l.pending|
  {
    if l.pending != [] {
      FeedStep(l, respond);
      var next := FeedByte(l, l.pending[0], respond).(pending := l.pending[1..]);
      assert !respond(|l.delivered|).renews;
      FeedSteady(next, respond);
    }
  }

  lemma {:induction false} RunSteady(l: Link, passes: seq<Pass>, respond: Respond)
    requires NeverRenews(respond) && !l.renewed
    ensures Run(l, passes, respond).skipped == l.skipped
    decreases |passes|
  {
    if passes != [] {
      FeedSteady(Refill(Flush(l, passes[0].sent), passes[0].incoming), respond);
      RunSteady(Pump(l, passes[0], respond), passes[1..], respond);
    }
  }

  lemma BodyFed(l: Link, body: seq<byte>, respond: Respond)
    requires l.pending == body && l.tx == 0 && l.rx == START && Cobs.ZeroFree(body) && |body| < MAX_WIRE_FRAME
    ensures FeedPending(l, respond) == l.(rx := Rx(body, false), pending := [], fed := l.fed + body)
  {
    assert body + [] == body && [] + body == body;
    FeedPendingQuiet(l, body, [], respond);
  }

  lemma ProbeSkips(l: Link, w: seq<byte>, respond: Respond)
    requires Carries(w, PROBE) && Quiescent(l) && l.tx == 0 && !l.closing
    requires respond(|l.delivered|).renews && respond(|l.delivered|).size > 0
    ensures Pump(l, Pass(0, w + [0], Nothing, 0), respond).skipped == l.skipped + 1
  {
    var read, body := Refill(l, w + [0]), w[..|w| - 1];
    assert w + [0] == body + ([0] + [0]);
    BodyFed(read.(pending := body), body, respond);
    RenewalSkips(read, body, [0], respond);
    assert Feed(read, respond).skipped == l.skipped + 1;
  }

  /** Exactly when no byte read can be thrown away, on any run: when no frame renews the session. (The greeting of
      a new session always finds the transmit slot empty.) */
  lemma SkipsNothingIff(respond: Respond)
    requires forall n: nat :: respond(n).renews ==> respond(n).size > 0
    ensures (forall passes :: Fits(passes) ==> Run(IDLE, passes, respond).skipped == 0) <==> NeverRenews(respond)
  {
    if NeverRenews(respond) {
      forall passes | Fits(passes) ensures Run(IDLE, passes, respond).skipped == 0 {
        RunSteady(IDLE, passes, respond);
      }
    } else {
      var n: nat :| respond(n).renews;
      ProbeCarried();
      var w := EncodeFrame(PROBE);
      var before := Reaches(n, w, PROBE, respond);
      var l, last := Run(IDLE, before, respond), Pass(0, w + [0], Nothing, 0);
      ProbeSkips(l, w, respond);
      RunAppend(IDLE, before, [last], respond);
      Once(l, last, respond);
      assert Fits(before + [last]) && Run(IDLE, before + [last], respond).skipped > 0;
    }
  }

  /** The firmware's buffers. */
  class Device {
    const rxPending: array<byte>
    var pendingLength: nat
    var pendingOffset: nat
    const rxWire: array<byte>
    var rxLength: nat
    var rxDiscarding: bool
    var txLength: nat
    var txOffset: nat
    var disconnectAfterTx: bool
    var session: nat
    var invalidFrames: nat
    var disconnections: nat
    const respond: Respond
    ghost var received: seq<byte>
    ghost var fed: seq<byte>
    ghost var delivered: seq<Frame>
    ghost var skipped: nat
    var deliveries: nat

    ghost predicate Valid()
      reads this
    {
      && rxPending != rxWire
      && rxPending.Length == READ_SIZE && rxWire.Length == MAX_WIRE_FRAME
      && pendingOffset <= pendingLength <= READ_SIZE
      && rxLength < MAX_WIRE_FRAME && (rxDiscarding ==> rxLength == 0)
      && (txOffset == 0 || txOffset < txLength)
      && deliveries == |delivered|
    }

    /** The link with these bytes pending, in a feeding begun in session input. */
    ghost function View(pending: seq<byte>, input: nat): Link
      requires Valid()
      reads this, rxWire
    {
      Link(Rx(rxWire[..rxLength], rxDiscarding), pending, txLength - txOffset, disconnectAfterTx, input < session,
           received, fed, delivered, invalidFrames, skipped, disconnections)
    }

    ghost function State(): Link
      requires Valid()
      reads this, rxPending, rxWire
    {
      View(rxPending[pendingOffset..pendingLength], session)
    }

    /** Since the feeding began in session input the read is still there from a to b, or there is a new session. */
    ghost predicate Kept(input: nat, a: nat, b: nat)
      reads this
    {
      if session == input then pendingOffset == a && pendingLength == b
      else input < session && pendingOffset == pendingLength == 0
    }

    constructor (respond: Respond)
      ensures Valid() && State() == IDLE && this.respond == respond
    {
      rxPending, rxWire := new byte[READ_SIZE](_ => 0), new byte[MAX_WIRE_FRAME](_ => 0);
      pendingLength, pendingOffset, rxLength, rxDiscarding := 0, 0, 0, false;
      txLength, txOffset, invalidFrames, deliveries := 0, 0, 0, 0;
      disconnectAfterTx, session, disconnections, skipped := false, 1, 0, 0;
      this.respond := respond;
      received, fed, delivered := [], [], [];
    }

    /** A new session number, and all buffers empty. */
    method BeginSession()
      modifies this`session, this`rxLength, this`rxDiscarding, this`pendingLength, this`pendingOffset, this`txLength,
               this`txOffset, this`disconnectAfterTx
      ensures session == old(session) + 1 && rxLength == 0 && !rxDiscarding && pendingLength == pendingOffset == 0
      ensures txLength == txOffset == 0 && !disconnectAfterTx
    {
      session, rxLength, rxDiscarding, pendingLength, pendingOffset := session + 1, 0, false, 0, 0;
      txLength, txOffset, disconnectAfterTx := 0, 0, false;
    }

    /** A handler starts with an empty transmit slot, so queueing its reply cannot fail. */
    method HandleFrame(f: Frame)
      requires txLength == 0 && txOffset == 0 && deliveries == |delivered|
      modifies this`session, this`rxLength, this`rxDiscarding, this`pendingLength, this`pendingOffset, this`txLength,
               this`txOffset, this`disconnectAfterTx, this`delivered, this`deliveries
      ensures delivered == old(delivered) + [f] && deliveries == |delivered|
      ensures (var r := respond(old(deliveries));
               && txLength == r.size && txOffset == 0
               && session == old(session) + (if r.renews then 1 else 0)
               && disconnectAfterTx == ((old(disconnectAfterTx) && !r.renews) || r.closes)
               && (if r.renews then pendingLength == pendingOffset == 0
                   else pendingLength == old(pendingLength) && pendingOffset == old(pendingOffset)))
    {
      var r := respond(deliveries);
      delivered := delivered + [f];
      deliveries := deliveries + 1;
      if r.renews {
        BeginSession();
      }
      txLength := r.size;
      if r.closes {
        disconnectAfterTx := true;
      }
    }

    /** Decodes the frame collected, in place. */
    method Decode() returns (f: Option<Frame>)
      requires Valid() && rxLength > 0
      modifies rxWire
      ensures Valid()
      ensures Complete(Rx(old(rxWire[..rxLength]), false), 0) == if f.Some? then Delivered(f.value) else Rejected
    {
      var r := DecodeFrom(rxWire, rxLength);
      f := if r.Ok? then Some(r.value) else None;
    }

    /** The frame collected has been decoded. */
    method EndFrame(f: Frame, ghost pending: seq<byte>, ghost input: nat, ghost a: nat, ghost b: nat)
      requires Valid() && txLength == 0 && Kept(input, a, b)
      modifies this`session, this`rxLength, this`rxDiscarding, this`pendingLength, this`pendingOffset, this`txLength,
               this`txOffset, this`disconnectAfterTx, this`delivered, this`deliveries, this`fed
      ensures Valid() && Kept(input, a, b)
      ensures View(pending, input) == Put(old(View(pending, input)), 0, Delivered(f), respond)
    {
      ghost var r := respond(deliveries);
      fed := fed + [0];
      HandleFrame(f);
      rxLength, rxDiscarding := 0, false;
      assert rxWire[..rxLength] == [];
      assert txLength - txOffset == r.size && (input < session <==> old(input < session) || r.renews);
    }

    /** Or it was none. */
    method EndNoFrame(ghost pending: seq<byte>, ghost input: nat)
      requires Valid() && txLength == 0
      modifies this`rxLength, this`rxDiscarding, this`invalidFrames, this`fed
      ensures Valid() && View(pending, input) == Put(old(View(pending, input)), 0, Rejected, respond)
    {
      fed := fed + [0];
      invalidFrames := invalidFrames + 1;
      rxLength, rxDiscarding := 0, false;
      assert rxWire[..rxLength] == [] && delivered + [] == delivered;
    }

    /** A delimiter ends the frame before it, if there is one. */
    method FeedDelimiter(ghost pending: seq<byte>, ghost input: nat, ghost a: nat, ghost b: nat)
      requires Valid() && txLength == 0 && Kept(input, a, b)
      modifies this`session, this`rxLength, this`rxDiscarding, this`pendingLength, this`pendingOffset, this`txLength,
               this`txOffset, this`disconnectAfterTx, this`delivered, this`deliveries, this`invalidFrames, this`fed,
               rxWire
      ensures Valid() && Kept(input, a, b)
      ensures View(pending, input) == FeedByte(old(View(pending, input)), 0, respond)
    {
      if rxDiscarding || rxLength == 0 {
        fed := fed + [0];
        rxDiscarding, rxLength := false, 0;
      } else {
        var f := Decode();
        if f.Some? {
          EndFrame(f.value, pending, input, a, b);
        } else {
          EndNoFrame(pending, input);
        }
      }
    }

    /** One byte of feed_rx; stop says that a reply now waits for the transmit slot. */
    method FeedOne(value: byte, ghost pending: seq<byte>, ghost input: nat, ghost a: nat, ghost b: nat)
      returns (stop: bool)
      requires Valid() && txLength == 0 && Kept(input, a, b)
      modifies this`session, this`rxLength, this`rxDiscarding, this`pendingLength, this`pendingOffset, this`txLength,
               this`txOffset, this`disconnectAfterTx, this`delivered, this`deliveries, this`invalidFrames, this`fed,
               rxWire
      ensures Valid() && Kept(input, a, b)
      ensures View(pending, input) == FeedByte(old(View(pending, input)), value, respond)
      ensures stop == (txLength != 0)
    {
      stop := false;
      if value == 0 {
        FeedDelimiter(pending, input, a, b);
        stop := txLength != 0;
        return;
      }
      fed := fed + [value];
      if rxDiscarding {
        return;
      }
      if rxLength >= MAX_WIRE_FRAME - 1 {
        rxDiscarding, rxLength, invalidFrames := true, 0, invalidFrames + 1;
        return;
      }
      rxWire[rxLength] := value;
      rxLength := rxLength + 1;
    }

    /** The next of the pending bytes. */
    method FeedNext(value: byte, ghost pending: seq<byte>, ghost input: nat, ghost a: nat, ghost b: nat)
      returns (stop: bool)
      requires Valid() && txLength == 0 && Kept(input, a, b) && pending != [] && pending[0] == value
      modifies this`session, this`rxLength, this`rxDiscarding, this`pendingLength, this`pendingOffset, this`txLength,
               this`txOffset, this`disconnectAfterTx, this`delivered, this`deliveries, this`invalidFrames, this`fed,
               rxWire
      ensures Valid() && Kept(input, a, b) && stop == (txLength != 0)
      ensures FeedPending(old(View(pending, input)), respond)
           == if stop then View(pending[1..], input) else FeedPending(View(pending[1..], input), respond)
    {
      FeedStep(View(pending, input), respond);
      stop := FeedOne(value, pending, input, a, b);
    }

    /** Feeds the bytes from offset to length, and says how many it has used. */
    method FeedRx(offset: nat, length: nat) returns (consumed: nat)
      requires Valid() && txLength == 0 && offset == pendingOffset && length == pendingLength
      modifies this`session, this`rxLength, this`rxDiscarding, this`pendingLength, this`pendingOffset, this`txLength,
               this`txOffset, this`disconnectAfterTx, this`delivered, this`deliveries, this`invalidFrames, this`fed,
               rxWire
      ensures Valid() && Kept(old(session), offset, length) && consumed <= length - offset
      ensures View(rxPending[offset + consumed..length], old(session)) == FeedPending(old(State()), respond)
    {
      consumed := 0;
      ghost var input := session;
      while offset + consumed < length
        invariant Valid() && txLength == 0 && consumed <= length - offset && Kept(input, offset, length)
        invariant FeedPending(View(rxPending[offset + consumed..length], input), respond)
               == FeedPending(old(State()), respond)
        decreases length - offset - consumed
      {
        ghost var rest := rxPending[offset + consumed..length];
        var stop := FeedNext(rxPending[offset + consumed], rest, input, offset, length);
        consumed := consumed + 1;
        assert rest[1..] == rxPending[offset + consumed..length];
        if stop {
          return;
        }
      }
    }

    /** Moves on past what was used of the read from offset to length, unless the session is another one by now. */
    method MoveOn(input: nat, ghost offset: nat, ghost length: nat, consumed: nat)
      requires Valid() && Kept(input, offset, length) && offset + consumed <= length <= READ_SIZE
      modifies this`pendingOffset, this`skipped
      ensures Valid() && State() == Leave(old(View(rxPending[offset + consumed..length], input)))
    {
      if session == input {
        pendingOffset := pendingOffset + consumed;
      } else {
        skipped := skipped + (length - offset - consumed);
      }
    }

    method FeedPendingBytes()
      requires Valid() && txLength == 0
      modifies this`session, this`rxLength, this`rxDiscarding, this`pendingLength, this`pendingOffset, this`txLength,
               this`txOffset, this`disconnectAfterTx, this`delivered, this`deliveries, this`invalidFrames, this`fed,
               this`skipped, rxWire
      ensures Valid() && State() == Feed(old(State()), respond)
    {
      if pendingOffset < pendingLength {
        var input := session;
        ghost var offset, length := pendingOffset, pendingLength;
        var consumed := FeedRx(pendingOffset, pendingLength);
        MoveOn(input, offset, length, consumed);
      }
    }

    method FlushTx(sent: nat)
      requires Valid()
      modifies this`txLength, this`txOffset
      ensures Valid() && State() == Flush(old(State()), sent)
    {
      if txLength - txOffset <= sent {
        txLength, txOffset := 0, 0;
      } else {
        txOffset := txOffset + sent;
      }
    }

    /** Builds a media frame in the receive buffer. */
    method BuildMedia(scratch: seq<byte>, size: nat)
      requires Valid() && txLength == 0 && |scratch| <= MAX_WIRE_FRAME
      modifies this`txLength, rxWire
      ensures Valid() && State() == Queue(old(State()), Media(scratch, size))
    {
      for i := 0 to |scratch|
        invariant rxWire[..i] == scratch[..i] && rxWire[i..] == old(rxWire[i..])
      {
        rxWire[i] := scratch[i];
      }
      txLength := size;
      assert rxWire[..] == scratch + old(rxWire[|scratch|..]);
    }

    /** Reads more only when all that was read before has been fed. */
    method Read(incoming: seq<byte>)
      requires Valid() && |incoming| <= READ_SIZE
      modifies this`pendingLength, this`pendingOffset, this`received, rxPending
      ensures Valid() && State() == Refill(old(State()), incoming)
    {
      if pendingOffset == pendingLength {
        forall i | 0 <= i < |incoming| {
          rxPending[i] := incoming[i];
        }
        pendingOffset, pendingLength := 0, |incoming|;
        received := received + incoming;
        assert rxPending[0..|incoming|] == incoming;
      }
    }

    method Settle() returns (done: bool)
      requires Valid()
      modifies this`disconnectAfterTx, this`disconnections
      ensures Valid() && State() == Settled(old(State()))
      ensures done <==> old(txLength == 0 && disconnectAfterTx)
    {
      done := txLength == 0 && disconnectAfterTx;
      if done {
        disconnectAfterTx, disconnections := false, disconnections + 1;
      }
    }

    /** One pass of the worker over the link. */
    method PumpLink(p: Pass)
      requires Valid() && |p.incoming| <= READ_SIZE && (p.queued.Media? ==> |p.queued.scratch| <= MAX_WIRE_FRAME)
      modifies this, rxPending, rxWire
      ensures Valid() && State() == Pump(old(State()), p, respond)
    {
      FlushTx(p.sent);
      var done := Settle();
      if done || txLength != 0 {
        return;
      }
      ServeLink(p);
    }

    /** The rest of a pass, with the transmit slot empty and no disconnection due. */
    method ServeLink(p: Pass)
      requires Valid() && |p.incoming| <= READ_SIZE && (p.queued.Media? ==> |p.queued.scratch| <= MAX_WIRE_FRAME)
      requires txLength == 0
      modifies this, rxPending, rxWire
      ensures Valid()
      ensures State() == Settled(Flush(Queue(Feed(Refill(old(State()), p.incoming), respond), p.queued), p.sentAfter))
    {
      Read(p.incoming);
      FeedPendingBytes();
      QueueNext(p.queued);
      if txLength != 0 {
        FlushTx(p.sentAfter);
      }
      var _ := Settle();
    }

    /** The idle half of the pump. */
    method QueueNext(q: Queued)
      requires Valid() && (q.Media? ==> |q.scratch| <= MAX_WIRE_FRAME)
      modifies this`txLength, rxWire
      ensures Valid() && State() == Queue(old(State()), q)
    {
      if txLength == 0 {
        match q
        case Nothing =>
        case Other(size) => txLength := size;
        case Media(scratch, size) => BuildMedia(scratch, size);
      }
    }
  }
}
