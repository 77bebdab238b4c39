/** The frame checksum: CRC-32 of section 8 of RFC 1952, computed bit by bit. The 32-bit register is the
    sequence of its bits, lowest first. */
module Crc {
  import opened Bytes
  import opened ShiftRegister

  type Register = s: seq<bool> | |s| == 32 witness seq(32, i => false)

  function Xor(x: Register, y: Register): Register {
    seq(32, i requires 0 <= i < 32 => x[i] != y[i])
  }

  /** The register shifted right by one. */
  function Half(c: Register): Register {
    seq(32, i requires 0 <= i < 32 => i < 31 && c[i + 1])
  }

  function Not(c: Register): Register {
    seq(32, i requires 0 <= i < 32 => !c[i])
  }

  /** The register with every bit set, or every bit clear. */
  function Filled(bit: bool): Register {
    seq(32, i => bit)
  }

  /** 0xedb88320, lowest bit first. */
  const POLYNOMIAL: Register :=
    [false, false, false, false, false, true, false, false, true, true, false, false, false, false, false, true,
     false, false, false, true, true, true, false, true, true, false, true, true, false, true, true, true]

  predicate Bit(v: nat, j: nat) {
    if j == 0 then v % 2 == 1 else Bit(v / 2, j - 1)
  }

  /** Byte b moved up by k bytes. */
  function Place(b: byte, k: nat): Register {
    seq(32, i requires 0 <= i < 32 => 8 * k <= i < 8 * k + 8 && Bit(b, i - 8 * k))
  }

  function Crc32(): Machine<Register> {
    Machine(Xor, Half, (c: Register) => c[0], (c: Register) => c[31], POLYNOMIAL, Place)
  }

  /** The checksum of data, continuing from an earlier checksum crc. */
  function Checksum(data: seq<byte>, crc: Register): Register {
    Not(Feed(Crc32(), Not(crc), data))
  }

  // ------------------------------------------------------------ the bit loop

  method ShiftByte(start: Register) returns (c: Register)
    ensures c == Steps(Crc32(), start, 8)
  {
    c := start;
    for bit := 0 to 8
      invariant Steps(Crc32(), c, 8 - bit) == Steps(Crc32(), start, 8)
    {
      var mask := if c[0] then POLYNOMIAL else Filled(false);
      assert Xor(Half(c), Filled(false)) == Half(c);
      c := Xor(Half(c), mask);
    }
  }

  method ComputeChecksum(data: seq<byte>, crc: Register) returns (r: Register)
    ensures r == Checksum(data, crc)
  {
    var c := Not(crc);
    for i := 0 to |data|
      invariant Feed(Crc32(), c, data[i..]) == Feed(Crc32(), Not(crc), data)
    {
      assert data[i..][1..] == data[i + 1..];
      c := ShiftByte(Xor(c, Place(data[i], 0)));
    }
    r := Not(c);
  }

  // ------------------------------------------------------ laws of the register

  lemma XorPair(a: Register, b: Register, p: Register)
    ensures Xor(Xor(a, p), Xor(b, p)) == Xor(a, b)
  {
  }

  lemma XorMove(a: Register, b: Register, p: Register)
    ensures Xor(Xor(a, p), b) == Xor(Xor(a, b), p)
    ensures Xor(a, Xor(b, p)) == Xor(Xor(a, b), p)
  {
  }

  lemma XorCancel(x: Register, y: Register, z: Register)
    requires Xor(x, z) == Xor(y, z)
    ensures x == y
  {
    forall i | 0 <= i < 32 ensures x[i] == y[i] {
      assert Xor(x, z)[i] == Xor(y, z)[i];
    }
  }

  lemma CrcSumLaws()
    ensures SumLaws(Crc32())
  {
    var m := Crc32();
    forall a, b, p ensures m.xor(m.xor(a, p), m.xor(b, p)) == m.xor(a, b) {
      XorPair(a, b, p);
    }
    forall a, b, p ensures m.xor(m.xor(a, p), b) == m.xor(m.xor(a, b), p) {
      XorMove(a, b, p);
    }
    forall a, b, p ensures m.xor(a, m.xor(b, p)) == m.xor(m.xor(a, b), p) {
      XorMove(a, b, p);
    }
    forall x, y, z | m.xor(x, z) == m.xor(y, z) ensures x == y {
      XorCancel(x, y, z);
    }
  }

  lemma CrcHalfLaws()
    ensures HalfLaws(Crc32())
  {
    var m := Crc32();
    forall a, b ensures m.half(m.xor(a, b)) == m.xor(m.half(a), m.half(b)) {
    }
    forall a, b | m.half(a) == m.half(b) && m.low(a) == m.low(b) ensures a == b {
      forall i | 0 <= i < 32 ensures a[i] == b[i] {
        if i > 0 {
          assert Half(a)[i - 1] == Half(b)[i - 1];
        }
      }
    }
  }

  lemma {:induction false} HalvesAt(c: Register, n: nat, i: nat)
    requires i < 32
    ensures Halves(Crc32(), c, n)[i] == (i + n < 32 && c[i + n])
    decreases n
  {
    if n > 0 {
      HalvesAt(Half(c), n - 1, i);
    }
  }

  lemma PlaceLowers(b: byte, k: nat)
    requires k < 3
    ensures Lowers(Crc32(), Place(b, k + 1), Place(b, k))
  {
    var m, hi := Crc32(), Place(b, k + 1);
    forall j: nat | j < 8 ensures !m.low(Halves(m, hi, j)) {
      HalvesAt(hi, j, 0);
    }
    var down := Halves(m, hi, 8);
    forall i: nat | i < 32 ensures down[i] == Place(b, k)[i] {
      HalvesAt(hi, 8, i);
      assert i - 8 * k == i + 8 - 8 * (k + 1);
    }
    assert down == Place(b, k);
  }

  lemma CrcPlaceLaws()
    ensures PlaceLaws(Crc32())
  {
    forall b: byte, k: nat, up: nat | k < 3 && up == k + 1
      ensures Lowers(Crc32(), Crc32().place(b, up), Crc32().place(b, k))
    {
      PlaceLowers(b, k);
    }
  }

  lemma CrcLaws()
    ensures Linear(Crc32()) && Injective(Crc32()) && PlaceLaws(Crc32())
  {
    CrcSumLaws();
    CrcHalfLaws();
    CrcPlaceLaws();
    StepLaws(Crc32());
  }

  // ------------------------------------------------------------ register bytes

  /** The number with the given bits, lowest first. */
  function Pack(bits: seq<bool>): nat {
    if bits == [] then 0 else (if bits[0] then 1 else 0) + 2 * Pack(bits[1..])
  }

  function Power2(n: nat): nat {
    if n == 0 then 1 else 2 * Power2(n - 1)
  }

  lemma {:induction false} PackBound(bits: seq<bool>)
    ensures Pack(bits) < Power2(|bits|)
  {
    if bits != [] {
      PackBound(bits[1..]);
    }
  }

  lemma Halved(low: nat, rest: nat)
    requires low < 2
    ensures (low + 2 * rest) / 2 == rest && (low + 2 * rest) % 2 == low
  {
  }

  lemma {:induction false} PackBit(bits: seq<bool>, j: nat)
    requires j < |bits|
    ensures Bit(Pack(bits), j) == bits[j]
  {
    Halved(if bits[0] then 1 else 0, Pack(bits[1..]));
    if j > 0 {
      PackBit(bits[1..], j - 1);
      assert Bit(Pack(bits), j) == Bit(Pack(bits[1..]), j - 1);
    }
  }

  lemma {:induction false} SameBits(x: nat, y: nat, n: nat)
    requires x < Power2(n) && y < Power2(n)
    requires forall j: nat :: j < n ==> Bit(x, j) == Bit(y, j)
    ensures x == y
  {
    if n > 0 {
      assert Bit(x, 0) == Bit(y, 0);
      forall j: nat | j < n - 1 ensures Bit(x / 2, j) == Bit(y / 2, j) {
        assert Bit(x, j + 1) == Bit(x / 2, j) && Bit(y, j + 1) == Bit(y / 2, j);
      }
      SameBits(x / 2, y / 2, n - 1);
    }
  }

  /** Byte k of the register. */
  function ByteOf(c: Register, k: nat): (b: byte)
    requires k < 4
  {
    PackBound(c[8 * k..8 * k + 8]);
    Pack(c[8 * k..8 * k + 8])
  }

  /** The register on the wire, lowest byte first. */
  function PutRegister(c: Register): (b: seq<byte>)
    ensures |b| == 4
  {
    [ByteOf(c, 0), ByteOf(c, 1), ByteOf(c, 2), ByteOf(c, 3)]
  }

  function GetRegister(b: seq<byte>): Register
    requires |b| == 4
  {
    seq(32, i requires 0 <= i < 32 => WireBit(b, i))
  }

  predicate WireBit(b: seq<byte>, i: nat)
    requires |b| == 4 && i < 32
  {
    Bit(b[i / 8], i % 8)
  }

  /** The checksum survives the wire, and its four bytes can be told from any other four. */
  lemma RegisterRoundTrip(c: Register)
    ensures GetRegister(PutRegister(c)) == c
  {
    forall i | 0 <= i < 32 ensures GetRegister(PutRegister(c))[i] == c[i] {
      PackBit(c[8 * (i / 8)..8 * (i / 8) + 8], i % 8);
    }
  }

  lemma RegisterInjective(b1: seq<byte>, b2: seq<byte>)
    requires |b1| == |b2| == 4 && GetRegister(b1) == GetRegister(b2)
    ensures b1 == b2
  {
    forall k | 0 <= k < 4 ensures b1[k] == b2[k] {
      forall j: nat | j < 8 ensures Bit(b1[k], j) == Bit(b2[k], j) {
        assert GetRegister(b1)[8 * k + j] == GetRegister(b2)[8 * k + j];
      }
      SameBits(b1[k], b2[k], 8);
    }
  }

  lemma PlaceBit(b: seq<byte>, k: nat, i: nat)
    requires |b| == 4 && k < 4 && i < 32
    ensures Place(b[k], k)[i] == (i / 8 == k && GetRegister(b)[i])
  {
  }

  lemma OverlayIsXor(c: Register, b: seq<byte>)
    requires |b| == 4
    ensures Overlay(Crc32(), c, b) == Xor(c, GetRegister(b))
  {
    var all := Overlay(Crc32(), c, b);
    forall i: nat | i < 32 ensures all[i] == Xor(c, GetRegister(b))[i] {
      PlaceBit(b, 0, i);
      PlaceBit(b, 1, i);
      PlaceBit(b, 2, i);
      PlaceBit(b, 3, i);
    }
  }

  // --------------------------------------------------------------- main results

  /** Header then payload in two calls is one call over the concatenation. */
  lemma TwoCallChecksum(header: seq<byte>, payload: seq<byte>)
    ensures Checksum(payload, Checksum(header, Filled(false))) == Checksum(header + payload, Filled(false))
  {
    FeedConcat(Crc32(), Not(Filled(false)), header, payload);
    var c := Feed(Crc32(), Not(Filled(false)), header);
    assert Not(Not(c)) == c;
  }

  predicate Matches(body: seq<byte>, stored: seq<byte>)
    requires |stored| == 4
  {
    GetRegister(stored) == Checksum(body, Filled(false))
  }

  /** A decoded frame passes the check. */
  predicate Intact(plain: seq<byte>)
    requires |plain| >= 4
  {
    Matches(plain[..|plain| - 4], plain[|plain| - 4..])
  }

  /** The register an intact frame ends in, whatever it says: all ones, shifted through four more bytes. */
  const RESIDUE: Register := Steps(Crc32(), Filled(true), 32)

  lemma FeedWord(c: Register, b: seq<byte>)
    requires |b| == 4
    ensures Feed(Crc32(), c, b) == Steps(Crc32(), Xor(c, GetRegister(b)), 8 * |b|)
  {
    CrcLaws();
    FeedFour(Crc32(), c, b);
    OverlayIsXor(c, b);
  }

  /** Two registers sum to all ones exactly when each is the complement of the other. */
  lemma XorNot(c: Register, r: Register)
    ensures Xor(c, r) == Filled(true) <==> r == Not(c)
    ensures Not(Filled(false)) == Filled(true)
  {
    if Xor(c, r) == Filled(true) {
      forall i | 0 <= i < 32 ensures r[i] == Not(c)[i] {
        assert Xor(c, r)[i];
      }
    }
  }

  lemma StoredResidue(c: Register, stored: seq<byte>)
    requires |stored| == 4
    ensures Feed(Crc32(), c, stored) == RESIDUE <==> GetRegister(stored) == Not(c)
  {
    FeedWord(c, stored);
    XorNot(c, GetRegister(stored));
    CrcLaws();
    if Feed(Crc32(), c, stored) == RESIDUE {
      StepsInjective(Crc32(), Xor(c, GetRegister(stored)), Filled(true), 8 * |stored|);
    }
  }

  lemma BodyResidue(plain: seq<byte>, body: seq<byte>, stored: seq<byte>)
    requires |stored| == 4 && plain == body + stored
    ensures Feed(Crc32(), Filled(true), plain) == RESIDUE <==> Matches(body, stored)
  {
    FeedConcat(Crc32(), Filled(true), body, stored);
    XorNot(Filled(false), Filled(true));
    StoredResidue(Feed(Crc32(), Filled(true), body), stored);
  }

  /** A frame is intact exactly when it leaves one fixed register behind, whatever it says. */
  lemma Residue(plain: seq<byte>)
    requires |plain| >= 4
    ensures Intact(plain) <==> Feed(Crc32(), Filled(true), plain) == RESIDUE
  {
    BodyResidue(plain, plain[..|plain| - 4], plain[|plain| - 4..]);
  }

  lemma SameResidue(p1: seq<byte>, p2: seq<byte>)
    requires |p1| >= 4 && |p2| >= 4 && Intact(p1) && Intact(p2)
    ensures Feed(Crc32(), Filled(true), p1) == Feed(Crc32(), Filled(true), p2)
  {
    Residue(p1);
    Residue(p2);
  }

  lemma WindowDecided(c: Register, w1: seq<byte>, w2: seq<byte>, tail: seq<byte>)
    requires |w1| == |w2| == 4
    requires Feed(Crc32(), c, w1 + tail) == Feed(Crc32(), c, w2 + tail)
    ensures w1 == w2
  {
    CrcLaws();
    WindowDetected(Crc32(), c, w1, w2, tail);
    OverlayIsXor(c, w1);
    OverlayIsXor(c, w2);
    XorSwap(c, GetRegister(w1));
    XorSwap(c, GetRegister(w2));
    XorCancel(GetRegister(w1), GetRegister(w2), c);
    RegisterInjective(w1, w2);
  }

  lemma XorSwap(a: Register, b: Register)
    ensures Xor(a, b) == Xor(b, a)
  {
  }

  lemma FeedSplit(head: seq<byte>, w: seq<byte>, tail: seq<byte>)
    ensures Feed(Crc32(), Filled(true), head + w + tail)
         == Feed(Crc32(), Feed(Crc32(), Filled(true), head), w + tail)
  {
    assert head + w + tail == head + (w + tail);
    FeedConcat(Crc32(), Filled(true), head, w + tail);
  }

  /** No two distinct frames of equal length that differ only inside four consecutive bytes both pass:
      every burst of up to thirty-two bits is caught, wherever it falls, the checksum field included. */
  lemma BurstDetected(head: seq<byte>, w1: seq<byte>, w2: seq<byte>, tail: seq<byte>)
    requires |w1| == |w2| == 4
    requires Intact(head + w1 + tail) && Intact(head + w2 + tail)
    ensures w1 == w2
  {
    SameResidue(head + w1 + tail, head + w2 + tail);
    FeedSplit(head, w1, tail);
    FeedSplit(head, w2, tail);
    WindowDecided(Feed(Crc32(), Filled(true), head), w1, w2, tail);
  }
}
