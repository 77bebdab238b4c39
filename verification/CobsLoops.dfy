/** The loops that stuff and unstuff: the gateway's encoder over a growing buffer, the firmware's streaming
    writer into a buffer of fixed capacity, and its decoder that works in place. */
module CobsLoops {
  import opened Bytes
  import opened Cobs

  /** An encoder at work: the bytes that are settled and the block still open behind its code byte. */
  datatype Encoder = Encoder(done: seq<byte>, block: seq<byte>) {
    predicate Valid() {
      |block| < FULL_BLOCK && ZeroFree(block)
    }

    function Close(): seq<byte>
      requires |block| <= FULL_BLOCK
    {
      done + [|block| + 1] + block
    }

    function Put(v: byte): (e: Encoder)
      requires Valid()
      ensures e.Valid()
      ensures |Close()| < |e.Close()| <= |Close()| + 2
    {
      if v == 0 then Encoder(Close(), [])
      else if |block| + 1 < FULL_BLOCK then Encoder(done, block + [v])
      else Encoder(Encoder(done, block + [v]).Close(), [])
    }
  }

  /** The encoder after all of data. */
  function After(data: seq<byte>): (e: Encoder)
    ensures e.Valid()
  {
    if data == [] then Encoder([], []) else After(data[..|data| - 1]).Put(data[|data| - 1])
  }

  lemma AfterOne(data: seq<byte>, v: byte)
    ensures After(data + [v]) == After(data).Put(v)
  {
    assert (data + [v])[..|data|] == data;
  }

  lemma PutZeroSettles(e: Encoder, rest: seq<byte>)
    requires e.Valid()
    ensures e.done + Encode(e.block + ([0] + rest)) == e.Put(0).done + Encode(e.Put(0).block + rest)
  {
    Assoc(e.block, [0], rest);
    EncodeBlock(e.block, rest);
    assert e.Put(0).block + rest == rest;
    Rejoin(e.done, [|e.block| + 1], e.block, Encode(rest));
  }

  lemma Rejoin(a: seq<byte>, b: seq<byte>, c: seq<byte>, d: seq<byte>)
    ensures a + (b + c + d) == a + b + c + d
  {
  }

  lemma PutLastSettles(e: Encoder, v: byte, rest: seq<byte>)
    requires e.Valid() && v != 0 && |e.block| + 1 == FULL_BLOCK
    ensures e.done + Encode(e.block + ([v] + rest)) == e.Put(v).done + Encode(e.Put(v).block + rest)
  {
    Assoc(e.block, [v], rest);
    EncodeFull(e.block + [v], rest);
    assert e.Put(v).block + rest == rest;
    Rejoin(e.done, [255], e.block + [v], Encode(rest));
  }

  lemma PutSettles(e: Encoder, v: byte, rest: seq<byte>)
    requires e.Valid()
    ensures e.done + Encode(e.block + ([v] + rest)) == e.Put(v).done + Encode(e.Put(v).block + rest)
  {
    if v == 0 {
      PutZeroSettles(e, rest);
    } else if |e.block| + 1 == FULL_BLOCK {
      PutLastSettles(e, v, rest);
    } else {
      assert e.block + ([v] + rest) == e.block + [v] + rest;
    }
  }

  /** Working byte by byte settles exactly what the block-wise code begins with. */
  lemma {:induction false} AfterEncodes(data: seq<byte>, rest: seq<byte>)
    ensures Encode(data + rest) == After(data).done + Encode(After(data).block + rest)
    decreases |data|
  {
    if data == [] {
      assert data + rest == rest && [] + rest == rest;
    } else {
      var most, v := data[..|data| - 1], data[|data| - 1];
      AfterEncodes(most, [v] + rest);
      assert data + rest == most + ([v] + rest);
      PutSettles(After(most), v, rest);
    }
  }

  lemma CloseSettles(e: Encoder)
    requires e.Valid()
    ensures e.done + Encode(e.block) == e.Close()
  {
    EncodeBlock(e.block, []);
    assert e.block + [] == e.block;
  }

  lemma CloseEncodes(data: seq<byte>)
    ensures After(data).Close() == Encode(data)
  {
    AfterEncodes(data, []);
    assert data + [] == data && After(data).block + [] == After(data).block;
    CloseSettles(After(data));
  }

  /** More input never shortens the code. */
  lemma {:induction false} AfterGrows(data: seq<byte>, more: seq<byte>)
    ensures |After(data).Close()| <= |After(data + more).Close()|
    decreases |more|
  {
    if more == [] {
      assert data + more == data;
    } else {
      var most, v := more[..|more| - 1], more[|more| - 1];
      AfterGrows(data, most);
      assert data + more == data + most + [v];
      AfterOne(data + most, v);
    }
  }

  lemma AfterStep(before: seq<byte>, data: seq<byte>, i: nat)
    requires i < |data|
    ensures After(before + data[..i + 1]) == After(before + data[..i]).Put(data[i])
    ensures |After(before + data[..i + 1]).Close()| <= |After(before + data).Close()|
  {
    assert before + data[..i] + [data[i]] == before + data[..i + 1];
    AfterOne(before + data[..i], data[i]);
    assert before + data[..i + 1] + data[i + 1..] == before + data;
    AfterGrows(before + data[..i + 1], data[i + 1..]);
  }

  /** A growing buffer shows an encoder: a placeholder byte opens the last block. */
  predicate Shows(output: seq<byte>, codeOffset: nat, code: nat, e: Encoder) {
    && codeOffset < |output| && code == |output| - codeOffset
    && e == Encoder(output[..codeOffset], output[codeOffset + 1..])
  }

  /** The gateway's encoder. */
  method EncodeLoop(data: seq<byte>) returns (output: seq<byte>)
    ensures output == Encode(data)
  {
    output := [0];
    var codeOffset: nat, code: nat := 0, 1;
    for i := 0 to |data|
      invariant Shows(output, codeOffset, code, After(data[..i]))
    {
      assert data[..i + 1] == data[..i] + [data[i]];
      AfterOne(data[..i], data[i]);
      output, codeOffset, code := EncodeByte(output, codeOffset, code, data[i], After(data[..i]));
    }
    assert data[..|data|] == data;
    CloseEncodes(data);
    output := output[codeOffset := code];
  }

  /** One pass of its loop: a zero or a 254th byte patches the code byte and opens the next block. */
  method EncodeByte(output: seq<byte>, codeOffset: nat, code: nat, v: byte, ghost e: Encoder)
    returns (r: seq<byte>, next: nat, nextCode: nat)
    requires e.Valid() && Shows(output, codeOffset, code, e)
    ensures Shows(r, next, nextCode, e.Put(v))
  {
    if v == 0 {
      r, next, nextCode := output[codeOffset := code] + [0], |output|, 1;
      assert r[..next] == e.Close();
    } else {
      r, next, nextCode := output + [v], codeOffset, code + 1;
      assert Encoder(r[..next], r[next + 1..]) == Encoder(e.done, e.block + [v]);
      if nextCode == 255 {
        next := |r|;
        r := r[codeOffset := 255] + [0];
        nextCode := 1;
        assert r[..next] == Encoder(e.done, e.block + [v]).Close();
      }
    }
  }

  /** The firmware's writer: bytes go straight into the wire buffer, and every step checks the capacity. */
  class Writer {
    const out: array<byte>
    const capacity: nat
    var length: nat
    var codeOffset: nat
    var code: nat

    ghost predicate Valid()
      reads this, out
    {
      && codeOffset < length <= capacity <= out.Length
      && code == length - codeOffset <= FULL_BLOCK
      && State().Valid()
    }

    ghost function State(): Encoder
      requires codeOffset < length <= out.Length
      reads this, out
    {
      Encoder(out[..codeOffset], out[codeOffset + 1..length])
    }

    constructor (out: array<byte>, capacity: nat)
      requires 2 <= capacity <= out.Length
      ensures Valid() && this.out == out && this.capacity == capacity && State() == Encoder([], [])
    {
      this.out, this.capacity := out, capacity;
      length, codeOffset, code := 1, 0, 1;
    }

    /** Writes the code byte of the open block and opens the next block, if a place is left for it. */
    method NextBlock() returns (ok: bool)
      requires codeOffset < length <= capacity <= out.Length && code == length - codeOffset <= 255
      modifies this, out
      ensures ok <==> old(length) < capacity
      ensures ok ==> Valid() && State() == Encoder(old(State()).Close(), [])
    {
      out[codeOffset] := code;
      assert out[..length] == old(State()).Close();
      if length >= capacity {
        return false;
      }
      codeOffset := length;
      length := length + 1;
      code := 1;
      return true;
    }

    method Put(v: byte) returns (ok: bool)
      requires Valid()
      modifies this, out
      ensures ok <==> |old(State()).Put(v).Close()| <= capacity
      ensures ok ==> Valid() && State() == old(State()).Put(v)
    {
      if v == 0 {
        ok := NextBlock();
        return;
      }
      if length >= capacity {
        return false;
      }
      out[length] := v;
      length := length + 1;
      code := code + 1;
      assert State() == Encoder(old(State()).done, old(State()).block + [v]);
      if code == 255 {
        ok := NextBlock();
        return;
      }
      ZeroFreeConcat(old(State()).block, [v]);
      return true;
    }

    method Write(data: seq<byte>, ghost before: seq<byte>) returns (ok: bool)
      requires Valid() && State() == After(before)
      modifies this, out
      ensures ok <==> |After(before + data).Close()| <= capacity
      ensures ok ==> Valid() && State() == After(before + data)
    {
      assert before + data[..0] == before;
      for i := 0 to |data|
        invariant Valid() && State() == After(before + data[..i])
      {
        AfterStep(before, data, i);
        var put := Put(data[i]);
        if !put {
          return false;
        }
      }
      assert data[..|data|] == data;
      return true;
    }

    method Finish(ghost data: seq<byte>) returns (ok: bool)
      requires Valid() && State() == After(data)
      modifies this, out
      ensures ok <==> |Encode(data)| + 1 <= capacity
      ensures ok ==> length <= out.Length && out[..length] == Encode(data) + [0]
    {
      CloseEncodes(data);
      out[codeOffset] := code;
      assert out[..length] == old(State()).Close();
      if length >= capacity {
        return false;
      }
      out[length] := 0;
      length := length + 1;
      assert out[..length] == Encode(data) + [0];
      return true;
    }
  }

  /** Three pieces through the writer: the code of their concatenation and a delimiter, or a refusal exactly
      when that does not fit. */
  method EncodeStream(out: array<byte>, capacity: nat, header: seq<byte>, payload: seq<byte>, crc: seq<byte>)
    returns (ok: bool, size: nat)
    requires capacity <= out.Length
    modifies out
    ensures ok <==> |Encode(header + payload + crc)| + 1 <= capacity
    ensures ok ==> size <= out.Length && out[..size] == Encode(header + payload + crc) + [0]
  {
    ok, size := false, 0;
    if capacity < 2 {
      return;
    }
    var writer := new Writer(out, capacity);
    AfterGrows(header, payload);
    AfterGrows(header + payload, crc);
    CloseEncodes(header + payload + crc);
    assert [] + header == header;
    ok := writer.Write(header, []);
    if !ok {
      return;
    }
    ok := writer.Write(payload, header);
    if !ok {
      return;
    }
    ok := writer.Write(crc, header + payload);
    if !ok {
      return;
    }
    ok := writer.Finish(header + payload + crc);
    size := writer.length;
  }

  /** Moves a block down over its code byte and everything decoded before it, lowest byte first. */
  method CopyDown(buffer: array<byte>, read: nat, write: nat, size: nat)
    requires write < read && read + size <= buffer.Length
    modifies buffer
    ensures buffer[..write] == old(buffer[..write])
    ensures buffer[write..write + size] == old(buffer[read..read + size])
    ensures buffer[read + size..] == old(buffer[read + size..])
  {
    for i := 0 to size
      invariant buffer[..write] == old(buffer[..write])
      invariant buffer[write..write + i] == old(buffer[read..read + i])
      invariant buffer[read + i..] == old(buffer[read + i..])
    {
      assert buffer[read + i] == buffer[read + i..][0];
      buffer[write + i] := buffer[read + i];
    }
  }

  /** What the block at read stands for. */
  function Unpacked(wire: seq<byte>, read: nat, code: byte): seq<byte>
    requires 0 < code && read + code <= |wire|
  {
    wire[read + 1..read + code] + (if code != 255 && read + code < |wire| then [0] else [])
  }

  /** Unpacks the block that starts at read onto the end of what is decoded. */
  method UnpackBlock(buffer: array<byte>, encodedSize: nat, read: nat, write: nat, code: byte, ghost wire: seq<byte>)
    returns (nextRead: nat, nextWrite: nat)
    requires write <= read && 0 < code && read + code <= encodedSize <= buffer.Length
    requires |wire| == encodedSize && forall j :: read <= j < encodedSize ==> buffer[j] == wire[j]
    modifies buffer
    ensures nextRead == read + code && write <= nextWrite <= nextRead
    ensures forall j :: nextRead <= j < buffer.Length ==> buffer[j] == old(buffer[j])
    ensures buffer[..nextWrite] == old(buffer[..write]) + Unpacked(wire, read, code)
  {
    assert buffer[read + 1..read + code] == wire[read + 1..read + code];
    CopyDown(buffer, read + 1, write, code - 1);
    nextRead, nextWrite := read + code, write + code - 1;
    assert forall j :: nextRead <= j < buffer.Length ==> buffer[j] == buffer[nextRead..][j - nextRead];
    assert buffer[..nextWrite] == buffer[..write] + buffer[write..nextWrite];
    assert buffer[write..nextWrite] == wire[read + 1..nextRead];
    ghost var done := buffer[..nextWrite];
    if code != 255 && nextRead < encodedSize {
      buffer[nextWrite] := 0;
      nextWrite := nextWrite + 1;
      assert buffer[..nextWrite] == done + [0];
    }
  }

  /** The decoding of wire is what is done, followed by the decoding of what is unread. */
  ghost predicate Halfway(wire: seq<byte>, read: nat, done: seq<byte>, d: Decoded)
    requires read <= |wire|
  {
    d == Prepend(done, Decode(wire[read..]))
  }

  lemma HalfwayNext(wire: seq<byte>, read: nat, done: seq<byte>, d: Decoded)
    requires read < |wire| && Halfway(wire, read, done, d)
    ensures wire[read] == 0 ==> d == ZeroByte
    ensures read + wire[read] > |wire| ==> d == Truncated
    ensures wire[read] > 0 && read + wire[read] <= |wire| ==>
              Halfway(wire, read + wire[read], done + Unpacked(wire, read, wire[read]), d)
  {
    var rest, code := wire[read..], wire[read];
    if code > 0 && read + code <= |wire| {
      assert rest[code..] == wire[read + code..] && rest[1..code] == wire[read + 1..read + code];
      PrependTwice(done, Unpacked(wire, read, code), Decode(wire[read + code..]));
    }
  }

  lemma HalfwayOn(wire: seq<byte>, read: nat, done: seq<byte>, d: Decoded)
    requires read < |wire| && Halfway(wire, read, done, d) && 0 < wire[read] && read + wire[read] <= |wire|
    ensures Halfway(wire, read + wire[read], done + Unpacked(wire, read, wire[read]), d)
  {
    HalfwayNext(wire, read, done, d);
  }

  /** The unread part of the buffer is untouched, and what is read has been decoded into its front. */
  ghost predicate Unread(buffer: array<byte>, wire: seq<byte>, read: nat, write: nat, d: Decoded)
    reads buffer
  {
    && write <= read <= |wire| <= buffer.Length
    && (forall j :: read <= j < |wire| ==> buffer[j] == wire[j])
    && Halfway(wire, read, buffer[..write], d)
  }

  /** Unpacking a block that is all there. */
  method UnpackNext(buffer: array<byte>, encodedSize: nat, read: nat, write: nat, code: byte,
                    ghost wire: seq<byte>, ghost d: Decoded)
    returns (nextRead: nat, nextWrite: nat)
    requires read < encodedSize == |wire| && Unread(buffer, wire, read, write, d)
    requires 0 < code == wire[read] && read + code <= encodedSize
    modifies buffer
    ensures read < nextRead && Unread(buffer, wire, nextRead, nextWrite, d)
  {
    HalfwayOn(wire, read, buffer[..write], d);
    nextRead, nextWrite := UnpackBlock(buffer, encodedSize, read, write, code, wire);
    assert forall j :: nextRead <= j < |wire| ==> buffer[j] == wire[j];
  }

  /** One block of the firmware's loop. */
  method DecodeBlockInPlace(buffer: array<byte>, encodedSize: nat, read: nat, write: nat,
                            ghost wire: seq<byte>, ghost d: Decoded)
    returns (r: Decoded, nextRead: nat, nextWrite: nat)
    requires read < encodedSize == |wire| && Unread(buffer, wire, read, write, d)
    modifies buffer
    ensures r.Plain? ==> read < nextRead && Unread(buffer, wire, nextRead, nextWrite, d)
    ensures !r.Plain? ==> r == d
  {
    var code := buffer[read];
    HalfwayNext(wire, read, buffer[..write], d);
    if code == 0 {
      r, nextRead, nextWrite := ZeroByte, read, write;
    } else if code - 1 > encodedSize - (read + 1) {
      r, nextRead, nextWrite := Truncated, read, write;
    } else {
      nextRead, nextWrite := UnpackNext(buffer, encodedSize, read, write, code, wire, d);
      r := Plain([]);
    }
  }

  /** The firmware's decoder. Its write position stays behind its read position, so no unread byte is lost,
      and the result is the block-wise decoding of what the buffer held. */
  method DecodeInPlace(buffer: array<byte>, encodedSize: nat) returns (r: Decoded, decodedSize: nat)
    requires encodedSize <= buffer.Length
    modifies buffer
    ensures r == Decode(old(buffer[..encodedSize]))
    ensures r.Plain? ==> decodedSize <= encodedSize && buffer[..decodedSize] == r.data
  {
    var read := 0;
    decodedSize := 0;
    ghost var wire := buffer[..encodedSize];
    ghost var d := Decode(wire);
    assert wire[0..] == wire;
    PrependNothing(d);
    while read < encodedSize
      invariant Unread(buffer, wire, read, decodedSize, d)
      decreases encodedSize - read
    {
      r, read, decodedSize := DecodeBlockInPlace(buffer, encodedSize, read, decodedSize, wire, d);
      if !r.Plain? {
        return;
      }
    }
    r := Plain(buffer[..decodedSize]);
  }

  lemma PrependNothing(d: Decoded)
    ensures Prepend([], d) == d
  {
    if d.Plain? {
      assert [] + d.data == d.data;
    }
  }

  lemma PrependTwice(a: seq<byte>, b: seq<byte>, d: Decoded)
    ensures Prepend(a, Prepend(b, d)) == Prepend(a + b, d)
  {
    if d.Plain? {
      assert a + (b + d.data) == a + b + d.data;
    }
  }
}
