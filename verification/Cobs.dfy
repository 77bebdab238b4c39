/** Consistent overhead byte stuffing: the block-wise encoder and decoder both sides share, and what they promise
    each other. */
module Cobs {
  import opened Arithmetic
  import opened Bytes

  const FULL_BLOCK: nat := 254

  /** The length of the leading run of nonzero bytes, cut at a full block. */
  function Run(data: seq<byte>): (n: nat)
    ensures n <= |data| && n <= FULL_BLOCK
    ensures forall i :: 0 <= i < n ==> data[i] != 0
    ensures n == FULL_BLOCK || n == |data| || data[n] == 0
  {
    RunFrom(data, 0)
  }

  function RunFrom(data: seq<byte>, i: nat): (n: nat)
    requires i <= |data| && i <= FULL_BLOCK
    ensures i <= n <= |data| && n <= FULL_BLOCK
    ensures forall j :: i <= j < n ==> data[j] != 0
    ensures n == FULL_BLOCK || n == |data| || data[n] == 0
    decreases |data| - i
  {
    if i == FULL_BLOCK || i == |data| || data[i] == 0 then i else RunFrom(data, i + 1)
  }

  /** One code byte per block, one block per zero of the data or per 254 bytes without one. */
  function Encode(data: seq<byte>): (wire: seq<byte>)
    ensures |wire| > 0
  {
    var n := Run(data);
    if n == FULL_BLOCK then [255] + data[..n] + Encode(data[n..])
    else if n == |data| then [n + 1] + data
    else [n + 1] + data[..n] + Encode(data[n + 1..])
  }

  datatype Decoded = Plain(data: seq<byte>) | ZeroByte | Truncated

  function Prepend(head: seq<byte>, rest: Decoded): Decoded {
    if rest.Plain? then Plain(head + rest.data) else rest
  }

  function Decode(wire: seq<byte>): Decoded {
    if wire == [] then Plain([])
    else
      var code := wire[0];
      if code == 0 then ZeroByte
      else if code > |wire| then Truncated
      else
        var rest := wire[code..];
        Prepend(wire[1..code] + Separator(code, rest), Decode(rest))
  }

  predicate ZeroFree(s: seq<byte>) {
    forall i :: 0 <= i < |s| ==> s[i] != 0
  }

  // ----------------------------------------------------------- laws of the code

  lemma ZeroFreeConcat(a: seq<byte>, b: seq<byte>)
    requires ZeroFree(a) && ZeroFree(b)
    ensures ZeroFree(a + b)
  {
  }

  lemma {:induction false} EncodeZeroFree(data: seq<byte>)
    ensures ZeroFree(Encode(data))
  {
    var n := Run(data);
    ZeroFreeConcat([n + 1], data[..n]);
    if n == FULL_BLOCK {
      EncodeZeroFree(data[n..]);
      ZeroFreeConcat([255] + data[..n], Encode(data[n..]));
    } else if n == |data| {
      assert data[..n] == data;
    } else {
      EncodeZeroFree(data[n + 1..]);
      ZeroFreeConcat([n + 1] + data[..n], Encode(data[n + 1..]));
    }
  }

  lemma EncodeSize(data: seq<byte>)
    ensures var n := Run(data);
            |Encode(data)| == n + 1 + (if n == FULL_BLOCK then |Encode(data[n..])|
                                       else if n == |data| then 0 else |Encode(data[n + 1..])|)
  {
  }

  /** At most one byte of overhead, and one more for each 254 bytes. */
  lemma {:induction false} EncodeLength(data: seq<byte>)
    ensures |data| + 1 <= |Encode(data)| <= |data| + 1 + |data| / 254
  {
    var n := Run(data);
    EncodeSize(data);
    if n == FULL_BLOCK {
      EncodeLength(data[n..]);
      DivStep(|data|, 254);
    } else if n < |data| {
      EncodeLength(data[n + 1..]);
      DivMonotone(|data| - n - 1, |data|, 254);
    }
  }

  function Separator(code: byte, rest: seq<byte>): seq<byte> {
    if code != 255 && rest != [] then [0] else []
  }

  lemma DecodeBlock(code: byte, block: seq<byte>, rest: seq<byte>)
    requires code > 0 && |block| == code - 1
    ensures Decode([code] + block + rest) == Prepend(block + Separator(code, rest), Decode(rest))
  {
    var wire := [code] + block + rest;
    assert wire[code..] == rest && wire[1..code] == block;
  }

  lemma RoundTripStep(code: byte, block: seq<byte>, tail: seq<byte>)
    requires code > 0 && |block| == code - 1
    requires Decode(Encode(tail)) == Plain(tail)
    ensures Decode([code] + block + Encode(tail)) == Plain(block + (if code != 255 then [0] else []) + tail)
  {
    DecodeBlock(code, block, Encode(tail));
  }

  lemma RoundTripLast(block: seq<byte>)
    requires |block| < 254
    ensures Decode([|block| + 1] + block) == Plain(block)
  {
    DecodeLast(|block| + 1, block);
  }

  predicate ComesBack(data: seq<byte>) {
    Decode(Encode(data)) == Plain(data)
  }

  lemma RoundTripFull(data: seq<byte>)
    requires Run(data) == FULL_BLOCK && ComesBack(data[FULL_BLOCK..])
    ensures ComesBack(data)
  {
    var block, tail := data[..FULL_BLOCK], data[FULL_BLOCK..];
    RoundTripStep(255, block, tail);
    assert block + [] + tail == data;
  }

  lemma EncodeAtZero(data: seq<byte>)
    requires Run(data) < FULL_BLOCK && Run(data) < |data|
    ensures Encode(data) == [Run(data) + 1] + data[..Run(data)] + Encode(data[Run(data) + 1..])
  {
  }

  lemma RoundTripZero(data: seq<byte>, n: nat)
    requires n == Run(data) && n < FULL_BLOCK && n < |data| && ComesBack(data[n + 1..])
    ensures ComesBack(data)
  {
    EncodeAtZero(data);
    RoundTripStep(n + 1, data[..n], data[n + 1..]);
    Around(data, n);
  }

  lemma {:induction false} RoundTrip(data: seq<byte>)
    ensures Decode(Encode(data)) == Plain(data)
  {
    var n := Run(data);
    if n == FULL_BLOCK {
      RoundTrip(data[n..]);
      RoundTripFull(data);
    } else if n == |data| {
      RoundTripLast(data);
    } else {
      RoundTrip(data[n + 1..]);
      RoundTripZero(data, n);
    }
  }

  /** The last block of a decodable wire string is a full one, so that nothing says whether it goes on. */
  predicate EndsInFullBlock(wire: seq<byte>)
    requires Decode(wire).Plain?
  {
    wire != [] && (if wire[wire[0]..] == [] then wire[0] == 255 else EndsInFullBlock(wire[wire[0]..]))
  }

  lemma RunFull(data: seq<byte>)
    requires |data| >= 254 && ZeroFree(data[..254])
    ensures Run(data) == 254
  {
    assert forall i :: 0 <= i < 254 ==> data[i] == data[..254][i];
  }

  lemma RunWhole(block: seq<byte>)
    requires |block| < 254 && ZeroFree(block)
    ensures Run(block) == |block|
  {
  }

  lemma RunStops(block: seq<byte>, tail: seq<byte>)
    requires |block| < 254 && ZeroFree(block)
    ensures Run(block + [0] + tail) == |block|
  {
    var data := block + [0] + tail;
    assert forall i :: 0 <= i < |block| ==> data[i] == block[i];
    assert data[|block|] == 0;
  }

  // ------------------------------------------- how one more byte changes the code

  /** Encoding a block under construction, followed by a zero, a 254th byte, or nothing. */
  lemma EncodeBlock(block: seq<byte>, rest: seq<byte>)
    requires |block| < 254 && ZeroFree(block)
    ensures Encode(block + [0] + rest) == [|block| + 1] + block + Encode(rest)
    ensures Encode(block) == [|block| + 1] + block
  {
    var data := block + [0] + rest;
    RunStops(block, rest);
    RunWhole(block);
    assert data[..|block|] == block && data[|block| + 1..] == rest;
  }

  lemma EncodeFull(block: seq<byte>, rest: seq<byte>)
    requires |block| == 254 && ZeroFree(block)
    ensures Encode(block + rest) == [255] + block + Encode(rest)
  {
    var data := block + rest;
    assert data[..254] == block && data[254..] == rest;
    RunFull(data);
  }

  lemma ReEncodeStep(code: byte, block: seq<byte>, rest: seq<byte>)
    requires ZeroFree(block) && 0 < code && |block| == code - 1
    requires rest != [] && Decode(rest).Plain?
    ensures Decode([code] + block + rest).Plain?
    ensures Encode(Decode([code] + block + rest).data) == [code] + block + Encode(Decode(rest).data)
  {
    DecodeBlock(code, block, rest);
    if code == 255 {
      EncodeFull(block, Decode(rest).data);
      assert block + [] == block;
    } else {
      EncodeBlock(block, Decode(rest).data);
    }
  }

  lemma ReEncodeLast(code: byte, block: seq<byte>)
    requires ZeroFree(block) && 0 < code && |block| == code - 1
    ensures Decode([code] + block) == Plain(block)
    ensures Encode(block) == [code] + block + (if code == 255 then [1] else [])
  {
    DecodeLast(code, block);
    if code == 255 {
      EncodeFullLast(block);
    } else {
      EncodeBlock(block, []);
      assert [code] + block + [] == [code] + block;
    }
  }

  lemma DecodeLast(code: byte, block: seq<byte>)
    requires 0 < code && |block| == code - 1
    ensures Decode([code] + block) == Plain(block)
  {
    DecodeBlock(code, block, []);
    assert [code] + block + [] == [code] + block && block + [] + [] == block;
  }

  lemma EncodeFullLast(block: seq<byte>)
    requires |block| == 254 && ZeroFree(block)
    ensures Encode(block) == [255] + block + [1]
  {
    EncodeFull(block, []);
    assert block + [] == block;
    EncodeNothing();
  }

  lemma EncodeNothing()
    ensures Encode([]) == [1]
  {
  }

  /** Decoding is not injective: a zero-free wire string comes back from its decoded form exactly when it is
      nonempty and its last block is not full; after a full last block the encoder adds an empty one. */
  lemma {:induction false} ReEncode(wire: seq<byte>)
    requires ZeroFree(wire) && wire != [] && Decode(wire).Plain?
    ensures Encode(Decode(wire).data) == if EndsInFullBlock(wire) then wire + [1] else wire
    decreases |wire|
  {
    var code := wire[0];
    var rest, block := wire[code..], wire[1..code];
    if rest == [] {
      ReEncodeLast(code, block);
      Reassemble(wire, code, block, rest);
    } else {
      ReEncode(rest);
      ReEncodeStep(code, block, rest);
      Reassemble(wire, code, block, rest);
    }
  }

  lemma Reassemble(wire: seq<byte>, code: byte, block: seq<byte>, rest: seq<byte>)
    requires 0 < code <= |wire| && code == wire[0] && rest == wire[code..] && block == wire[1..code]
    ensures wire == [code] + block + rest
    ensures wire + [1] == [code] + block + (rest + [1])
    ensures rest == [] ==> wire == [code] + block
  {
    assert wire == [code] + wire[1..];
    assert wire[1..] == block + rest;
  }
}
