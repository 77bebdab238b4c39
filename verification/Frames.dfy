/** The wire frame: a 32-byte header, the payload and a checksum, stuffed and delimited by a zero. */
module Frames {
  import opened Bytes
  import Crc
  import Cobs
  import CobsLoops

  const HEADER_SIZE: nat := 32
  const MAX_PAYLOAD: nat := 4000
  const MAX_WIRE_FRAME: nat := 4096
  const CHANNEL_COUNT: nat := 10
  const VERSION: byte := 1

  datatype Frame = Frame(channel: byte, kind: byte, flags: u16, session: u32, request: u32, stream: u32,
                         sequence: u32, payload: seq<byte>)

  datatype Error = InvalidArgument | InvalidSize | InvalidChecksum | InvalidResponse

  datatype Result<+T> = Ok(value: T) | Err(error: Error)

  predicate Encodable(f: Frame) {
    |f.payload| <= MAX_PAYLOAD && f.channel < CHANNEL_COUNT
  }

  function Magic(): seq<byte> {
    [73, 82, 73, 83]
  }

  function Header(f: Frame): (h: seq<byte>)
    requires |f.payload| <= MAX_PAYLOAD
    ensures |h| == HEADER_SIZE
  {
    Magic() + [VERSION, HEADER_SIZE, f.channel, f.kind] + PutLe16(f.flags) + PutLe16(0)
    + PutLe32(f.session) + PutLe32(f.request) + PutLe32(f.stream) + PutLe32(f.sequence) + PutLe32(|f.payload|)
  }

  function Trailer(f: Frame): (t: seq<byte>)
    requires |f.payload| <= MAX_PAYLOAD
    ensures |t| == 4
  {
    Crc.PutRegister(Crc.Checksum(Header(f) + f.payload, Crc.Filled(false)))
  }

  /** The frame before stuffing. */
  function PlainFrame(f: Frame): (p: seq<byte>)
    requires |f.payload| <= MAX_PAYLOAD
    ensures |p| == HEADER_SIZE + |f.payload| + 4
  {
    Header(f) + f.payload + Trailer(f)
  }

  function EncodeFrame(f: Frame): seq<byte>
    requires Encodable(f)
  {
    Cobs.Encode(PlainFrame(f)) + [0]
  }

  function ParseFrame(plain: seq<byte>): Frame
    requires |plain| >= HEADER_SIZE + 4
  {
    Frame(plain[6], plain[7], GetLe16(plain[8..10]), GetLe32(plain[12..16]), GetLe32(plain[16..20]),
          GetLe32(plain[20..24]), GetLe32(plain[24..28]), plain[HEADER_SIZE..|plain| - 4])
  }

  /** The checks of the receiver, in their order, on a wire string without its delimiter. */
  function DecodeFrame(wire: seq<byte>): Result<Frame> {
    if |wire| == 0 || |wire| >= MAX_WIRE_FRAME then Err(InvalidArgument)
    else match Cobs.Decode(wire)
      case ZeroByte => Err(InvalidChecksum)
      case Truncated => Err(InvalidSize)
      case Plain(plain) => DecodePlain(plain)
  }

  function DecodePlain(plain: seq<byte>): Result<Frame> {
    if |plain| < HEADER_SIZE + 4 || plain[..4] != Magic() || plain[4] != VERSION || plain[5] != HEADER_SIZE
       || plain[6] >= CHANNEL_COUNT || GetLe16(plain[10..12]) != 0
    then Err(InvalidResponse)
    else if GetLe32(plain[28..32]) > MAX_PAYLOAD || |plain| != HEADER_SIZE + GetLe32(plain[28..32]) + 4
    then Err(InvalidSize)
    else if !Crc.Intact(plain) then Err(InvalidChecksum)
    else Ok(ParseFrame(plain))
  }

  // ----------------------------------------------------------------- methods

  /** The firmware's encoder; the header is checksummed first and the payload continues from there. */
  method EncodeInto(out: array<byte>, capacity: nat, f: Frame) returns (r: Result<nat>)
    requires capacity <= out.Length
    modifies out
    ensures !Encodable(f) ==>
              r == Err(if |f.payload| > MAX_PAYLOAD then InvalidSize else InvalidArgument)
    ensures Encodable(f) && |EncodeFrame(f)| > capacity ==> r == Err(InvalidSize)
    ensures Encodable(f) && |EncodeFrame(f)| <= capacity ==>
              r == Ok(|EncodeFrame(f)|) && out[..|EncodeFrame(f)|] == EncodeFrame(f)
  {
    if |f.payload| > MAX_PAYLOAD {
      return Err(InvalidSize);
    }
    if f.channel >= CHANNEL_COUNT {
      return Err(InvalidArgument);
    }
    var header := Header(f);
    var headerCrc := Crc.ComputeChecksum(header, Crc.Filled(false));
    var crc := Crc.ComputeChecksum(f.payload, headerCrc);
    Crc.TwoCallChecksum(header, f.payload);
    var ok, size := CobsLoops.EncodeStream(out, capacity, header, f.payload, Crc.PutRegister(crc));
    if !ok {
      return Err(InvalidSize);
    }
    assert |out[..size]| == size;
    return Ok(size);
  }

  /** The firmware's decoder, which unpacks the receive buffer in place. */
  method DecodeFrom(buffer: array<byte>, size: nat) returns (r: Result<Frame>)
    requires size <= buffer.Length
    modifies buffer
    ensures r == DecodeFrame(old(buffer[..size]))
  {
    if size == 0 || size >= MAX_WIRE_FRAME {
      return Err(InvalidArgument);
    }
    var decoded, decodedSize := CobsLoops.DecodeInPlace(buffer, size);
    match decoded {
      case ZeroByte => return Err(InvalidChecksum);
      case Truncated => return Err(InvalidSize);
      case Plain(_) => return DecodePlain(buffer[..decodedSize]);
    }
  }

  // --------------------------------------------------------------- main results

  lemma Le16Back(b: seq<byte>)
    requires |b| == 2
    ensures PutLe16(GetLe16(b)) == b
  {
  }

  lemma Le32Back(b: seq<byte>)
    requires |b| == 4
    ensures PutLe32(GetLe32(b)) == b
  {
    Le16Back(b[..2]);
    Le16Back(b[2..]);
    Halves(GetLe16(b[2..]), GetLe16(b[..2]));
    assert b == b[..2] + b[2..];
  }

  lemma Halves(hi: u16, lo: u16)
    ensures (lo as int + 0x1_0000 * hi) % 0x1_0000 == lo && (lo as int + 0x1_0000 * hi) / 0x1_0000 == hi
  {
  }

  /** Where the fields of a header are. */
  lemma HeaderFields(f: Frame)
    requires |f.payload| <= MAX_PAYLOAD
    ensures var h := Header(f);
            && h[..4] == Magic() && h[4..8] == [VERSION, HEADER_SIZE, f.channel, f.kind]
            && h[8..10] == PutLe16(f.flags) && h[10..12] == PutLe16(0) && h[12..16] == PutLe32(f.session)
            && h[16..20] == PutLe32(f.request) && h[20..24] == PutLe32(f.stream)
            && h[24..28] == PutLe32(f.sequence) && h[28..32] == PutLe32(|f.payload|)
  {
  }

  lemma FieldsMakeHeader(plain: seq<byte>)
    requires DecodePlain(plain).Ok?
    ensures Header(ParseFrame(plain)) == plain[..HEADER_SIZE]
  {
    var f := ParseFrame(plain);
    var h := plain[..32];
    Le16Back(plain[8..10]);
    Le16Back(plain[10..12]);
    Le32Back(plain[12..16]);
    Le32Back(plain[16..20]);
    Le32Back(plain[20..24]);
    Le32Back(plain[24..28]);
    Le32Back(plain[28..32]);
    assert h == plain[..4] + plain[4..8] + plain[8..10] + plain[10..12] + plain[12..16] + plain[16..20]
                + plain[20..24] + plain[24..28] + plain[28..32];
    assert plain[4..8] == [VERSION, HEADER_SIZE, f.channel, f.kind];
    assert |f.payload| == GetLe32(plain[28..32]);
  }

  lemma PlainFrameParts(f: Frame)
    requires Encodable(f)
    ensures PlainFrame(f)[..HEADER_SIZE] == Header(f)
    ensures PlainFrame(f)[HEADER_SIZE..|PlainFrame(f)| - 4] == f.payload
    ensures PlainFrame(f)[..|PlainFrame(f)| - 4] == Header(f) + f.payload
    ensures PlainFrame(f)[|PlainFrame(f)| - 4..] == Trailer(f)
  {
  }

  lemma PlainFrameIntact(f: Frame)
    requires Encodable(f)
    ensures Crc.Intact(PlainFrame(f))
  {
    PlainFrameParts(f);
    Crc.RegisterRoundTrip(Crc.Checksum(Header(f) + f.payload, Crc.Filled(false)));
  }

  lemma SubSlice(p: seq<byte>, h: seq<byte>, i: nat, j: nat)
    requires |p| >= 32 && p[..32] == h && i <= j <= 32
    ensures p[i..j] == h[i..j]
  {
    forall k | 0 <= k < j - i ensures p[i..j][k] == h[i..j][k] {
      assert p[..32][i + k] == h[i + k];
    }
  }

  lemma PlainFrameParses(f: Frame)
    requires Encodable(f)
    ensures DecodePlain(PlainFrame(f)) == Ok(f)
  {
    var p, h := PlainFrame(f), Header(f);
    PlainFrameParts(f);
    HeaderFields(f);
    SubSlice(p, h, 0, 4);
    SubSlice(p, h, 4, 8);
    SubSlice(p, h, 8, 10);
    SubSlice(p, h, 10, 12);
    SubSlice(p, h, 12, 16);
    SubSlice(p, h, 16, 20);
    SubSlice(p, h, 20, 24);
    SubSlice(p, h, 24, 28);
    SubSlice(p, h, 28, 32);
    Le16RoundTrip(f.flags);
    Le16RoundTrip(0);
    Le32RoundTrip(f.session);
    Le32RoundTrip(f.request);
    Le32RoundTrip(f.stream);
    Le32RoundTrip(f.sequence);
    Le32RoundTrip(|f.payload|);
    PlainFrameIntact(f);
    assert p[4..8][0] == p[4] && p[4..8][1] == p[5] && p[4..8][2] == p[6] && p[4..8][3] == p[7];
  }

  lemma IntactTrailer(plain: seq<byte>)
    requires DecodePlain(plain).Ok?
    ensures Trailer(ParseFrame(plain)) == plain[|plain| - 4..]
  {
    FieldsMakeHeader(plain);
    var f := ParseFrame(plain);
    assert plain[..|plain| - 4] == Header(f) + f.payload;
    var stored := plain[|plain| - 4..];
    Crc.RegisterRoundTrip(Crc.GetRegister(stored));
    Crc.RegisterInjective(Crc.PutRegister(Crc.GetRegister(stored)), stored);
  }

  lemma AcceptedIsImage(plain: seq<byte>)
    requires DecodePlain(plain).Ok?
    ensures Encodable(ParseFrame(plain)) && PlainFrame(ParseFrame(plain)) == plain
  {
    var f, h, t := ParseFrame(plain), plain[..HEADER_SIZE], plain[|plain| - 4..];
    FieldsMakeHeader(plain);
    IntactTrailer(plain);
    assert Header(f) == h && Trailer(f) == t;
    assert plain == h + f.payload + t;
  }

  predicate IsImage(wire: seq<byte>, f: Frame) {
    Encodable(f) && 0 < |wire| < MAX_WIRE_FRAME && Cobs.Decode(wire) == Cobs.Plain(PlainFrame(f))
  }

  lemma AcceptedWireIsImage(wire: seq<byte>, f: Frame)
    requires DecodeFrame(wire) == Ok(f)
    ensures IsImage(wire, f)
  {
    var plain := Cobs.Decode(wire).data;
    assert DecodePlain(plain) == Ok(f);
    AcceptedIsImage(plain);
  }

  lemma ImageIsAccepted(wire: seq<byte>, f: Frame)
    requires IsImage(wire, f)
    ensures DecodeFrame(wire) == Ok(f)
  {
    PlainFrameParses(f);
  }

  /** The receiver accepts exactly the stuffed images of encodable frames, and reads each as that frame. */
  lemma DecodesExactly(wire: seq<byte>, f: Frame)
    ensures DecodeFrame(wire) == Ok(f)
       <==> Encodable(f) && 0 < |wire| < MAX_WIRE_FRAME && Cobs.Decode(wire) == Cobs.Plain(PlainFrame(f))
  {
    assert IsImage(wire, f)
      <==> Encodable(f) && 0 < |wire| < MAX_WIRE_FRAME && Cobs.Decode(wire) == Cobs.Plain(PlainFrame(f));
    if DecodeFrame(wire) == Ok(f) {
      AcceptedWireIsImage(wire, f);
    } else if IsImage(wire, f) {
      ImageIsAccepted(wire, f);
    }
  }

  /** Every encodable frame fits the wire buffer, its only zero is the delimiter, and it decodes to itself. */
  lemma FrameRoundTrip(f: Frame)
    requires Encodable(f)
    ensures var w := EncodeFrame(f);
            && 1 < |w| < MAX_WIRE_FRAME
            && w[|w| - 1] == 0 && Cobs.ZeroFree(w[..|w| - 1])
            && DecodeFrame(w[..|w| - 1]) == Ok(f)
  {
    var p := PlainFrame(f);
    var w := EncodeFrame(f);
    assert w[..|w| - 1] == Cobs.Encode(p);
    Cobs.EncodeLength(p);
    Cobs.EncodeZeroFree(p);
    Cobs.RoundTrip(p);
    DecodesExactly(w[..|w| - 1], f);
  }
}
