/** What the checksum is apart from the shift register: the remainder of a long division of polynomials over two
    elements, as section 8 of RFC 1952 has it by reference to ISO 3309. A polynomial is the sequence of its
    coefficients, highest first. */
module CrcDivision {
  import opened Bytes
  import opened Crc
  import opened ShiftRegister

  /** The generator's exponents below 32. */
  const EXPONENTS: set<int> := {26, 23, 22, 16, 12, 11, 10, 8, 7, 5, 4, 2, 1, 0}

  /** The generator without its leading term. */
  function Generator(): Register {
    seq(32, i requires 0 <= i < 32 => 31 - i in EXPONENTS)
  }

  /** The sum of bits and c, aligned at the front. */
  function AddFront(bits: seq<bool>, c: Register): (r: seq<bool>)
    requires |bits| >= 32
    ensures |r| == |bits|
  {
    seq(|bits|, i requires 0 <= i < |bits| => if i < 32 then bits[i] != c[i] else bits[i])
  }

  /** Long division: while the dividend is longer than a remainder, a leading one takes the generator away. */
  function Remainder(bits: seq<bool>): Register
    requires |bits| >= 32
    decreases |bits|
  {
    if |bits| == 32 then bits
    else if bits[0] then Remainder(AddFront(bits[1..], Generator()))
    else Remainder(bits[1..])
  }

  /** The bits of a byte and of a string as they are sent: lowest first. */
  function BitsOf(b: byte): (r: seq<bool>)
    ensures |r| == 8
  {
    seq(8, j requires 0 <= j < 8 => Bit(b, j))
  }

  function Sent(data: seq<byte>): seq<bool> {
    if data == [] then [] else BitsOf(data[0]) + Sent(data[1..])
  }

  /** The register after one more bit of the message. */
  function Shifted(c: Register, bit: bool): Register {
    if c[0] != bit then Xor(Half(c), POLYNOMIAL) else Half(c)
  }

  function FeedBits(c: Register, bits: seq<bool>): Register
    decreases |bits|
  {
    if bits == [] then c else FeedBits(Shifted(c, bits[0]), bits[1..])
  }

  lemma PolynomialIsGenerator()
    ensures POLYNOMIAL == Generator()
  {
    forall i | 0 <= i < 32 ensures POLYNOMIAL[i] == Generator()[i] {
    }
  }

  /** One bit of the message is one step of the division. */
  lemma DivisionStep(c: Register, bits: seq<bool>)
    requires bits != []
    ensures var z := Filled(false);
            Remainder(AddFront(bits + z, c)) == Remainder(AddFront(bits[1..] + z, Shifted(c, bits[0])))
  {
    var z := Filled(false);
    var dividend, rest := AddFront(bits + z, c), bits[1..] + z;
    PolynomialIsGenerator();
    assert (bits + z)[1..] == rest;
    assert dividend[1..] == AddFront(rest, Half(c)) by {
      forall i | 0 <= i < |rest| ensures dividend[1..][i] == AddFront(rest, Half(c))[i] {
        assert dividend[1..][i] == dividend[i + 1] && (bits + z)[i + 1] == rest[i];
      }
    }
    if dividend[0] {
      assert AddFront(AddFront(rest, Half(c)), Generator()) == AddFront(rest, Xor(Half(c), POLYNOMIAL));
    }
  }

  lemma {:induction false} FeedBitsDivides(c: Register, bits: seq<bool>)
    ensures FeedBits(c, bits) == Remainder(AddFront(bits + Filled(false), c))
    decreases |bits|
  {
    if bits == [] {
      assert bits + Filled(false) == Filled(false);
      assert AddFront(Filled(false), c) == c;
    } else {
      DivisionStep(c, bits);
      FeedBitsDivides(Shifted(c, bits[0]), bits[1..]);
    }
  }

  function Padded(bits: seq<bool>): Register
    requires |bits| <= 32
  {
    seq(32, i requires 0 <= i < 32 => i < |bits| && bits[i])
  }

  lemma PaddedStep(c: Register, bits: seq<bool>)
    requires 0 < |bits| <= 32
    ensures Step(Crc32(), Xor(c, Padded(bits))) == Xor(Shifted(c, bits[0]), Padded(bits[1..]))
  {
    assert Half(Xor(c, Padded(bits))) == Xor(Half(c), Padded(bits[1..]));
    XorMove(Half(c), Padded(bits[1..]), POLYNOMIAL);
  }

  /** Bits laid over the register and shifted together are bits fed one by one. */
  lemma {:induction false} StepsFeed(c: Register, bits: seq<bool>)
    requires |bits| <= 32
    ensures Steps(Crc32(), Xor(c, Padded(bits)), |bits|) == FeedBits(c, bits)
    decreases |bits|
  {
    if bits == [] {
      assert Xor(c, Padded(bits)) == c;
    } else {
      PaddedStep(c, bits);
      StepsFeed(Shifted(c, bits[0]), bits[1..]);
    }
  }

  lemma {:induction false} FeedBitsConcat(c: Register, a: seq<bool>, b: seq<bool>)
    ensures FeedBits(c, a + b) == FeedBits(FeedBits(c, a), b)
    decreases |a|
  {
    if a == [] {
      assert a + b == b;
    } else {
      assert (a + b)[1..] == a[1..] + b;
      FeedBitsConcat(Shifted(c, a[0]), a[1..], b);
    }
  }

  lemma {:induction false} FeedIsFeedBits(c: Register, data: seq<byte>)
    ensures Feed(Crc32(), c, data) == FeedBits(c, Sent(data))
    decreases |data|
  {
    if data != [] {
      var bits := BitsOf(data[0]);
      assert Padded(bits) == Place(data[0], 0);
      StepsFeed(c, bits);
      FeedIsFeedBits(FeedBits(c, bits), data[1..]);
      FeedBitsConcat(c, bits, Sent(data[1..]));
    }
  }

  /** The message with thirty-two zeros behind it, its first thirty-two bits complemented. */
  function Dividend(data: seq<byte>): (bits: seq<bool>)
    ensures |bits| >= 32
  {
    AddFront(Sent(data) + Filled(false), Filled(true))
  }

  /** The checksum is the complement of the remainder of the division of that by the generator. */
  lemma ChecksumIsRemainder(data: seq<byte>)
    ensures Checksum(data, Filled(false)) == Not(Remainder(Dividend(data)))
  {
    XorNot(Filled(false), Filled(true));
    FeedIsFeedBits(Filled(true), data);
    FeedBitsDivides(Filled(true), Sent(data));
  }
}
