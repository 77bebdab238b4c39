/** What the frame checksum owes to its shift register alone: the bit step is linear and injective, and
    that carries through bytes, strings and a window of four bytes. The register type is left open, so
    the reasoning here never looks at bits. */
module ShiftRegister {
  import opened Bytes

  /** A shift register: its sum, its contents moved down one bit, its lowest and highest bit, the feedback
      polynomial, and place(b, k), byte b moved up by k bytes. */
  datatype Machine<!R> = Machine(xor: (R, R) -> R, half: R -> R, low: R -> bool, high: R -> bool, poly: R,
                                 place: (byte, nat) -> R)

  /** One shift: the bit that falls out feeds the polynomial back. */
  function Step<R>(m: Machine<R>, c: R): R {
    if m.low(c) then m.xor(m.half(c), m.poly) else m.half(c)
  }

  function Steps<R>(m: Machine<R>, c: R, n: nat): R
    decreases n, c
  {
    if n == 0 then c else Steps(m, Step(m, c), n - 1)
  }

  /** The register after the bytes of data, lowest bit of each byte first. */
  function Feed<R>(m: Machine<R>, c: R, data: seq<byte>): R
    decreases |data|
  {
    if data == [] then c else Feed(m, Steps(m, m.xor(c, m.place(data[0], 0)), 8), data[1..])
  }

  function Halves<R>(m: Machine<R>, c: R, n: nat): R
    decreases n
  {
    if n == 0 then c else Halves(m, m.half(c), n - 1)
  }

  /** Four bytes side by side in a register that already holds c. */
  function Overlay<R>(m: Machine<R>, c: R, b: seq<byte>): R
    requires |b| == 4
  {
    m.xor(m.xor(m.xor(m.xor(c, m.place(b[0], 0)), m.place(b[1], 1)), m.place(b[2], 2)), m.place(b[3], 3))
  }

  // ------------------------------------------------------- laws of one machine

  ghost predicate SumLaws<R(!new)>(m: Machine<R>) {
    && (forall a, b, p :: m.xor(m.xor(a, p), m.xor(b, p)) == m.xor(a, b))
    && (forall a, b, p :: m.xor(m.xor(a, p), b) == m.xor(m.xor(a, b), p))
    && (forall a, b, p :: m.xor(a, m.xor(b, p)) == m.xor(m.xor(a, b), p))
    && (forall x, y, z :: m.xor(x, z) == m.xor(y, z) ==> x == y)
  }

  ghost predicate HalfLaws<R(!new)>(m: Machine<R>) {
    && (forall a, b :: m.half(m.xor(a, b)) == m.xor(m.half(a), m.half(b)))
    && (forall a, b :: m.low(m.xor(a, b)) <==> m.low(a) != m.low(b))
    && (forall a, b :: m.half(a) == m.half(b) && m.low(a) == m.low(b) ==> a == b)
    && (forall a :: !m.high(m.half(a)) && m.high(m.xor(m.half(a), m.poly)))
  }

  /** hi has eight clear bits to shift out and then reads lo. */
  ghost predicate Lowers<R>(m: Machine<R>, hi: R, lo: R) {
    && Halves(m, hi, 8) == lo
    && forall j: nat :: j < 8 ==> !m.low(Halves(m, hi, j))
  }

  ghost predicate PlaceLaws<R>(m: Machine<R>) {
    forall b: byte, k: nat, up: nat :: k < 3 && up == k + 1 ==> Lowers(m, m.place(b, up), m.place(b, k))
  }

  ghost predicate Linear<R(!new)>(m: Machine<R>) {
    forall x, y :: Step(m, m.xor(x, y)) == m.xor(Step(m, x), Step(m, y))
  }

  ghost predicate Injective<R(!new)>(m: Machine<R>) {
    && (forall x, y :: Step(m, x) == Step(m, y) ==> x == y)
    && (forall x, y, z :: m.xor(x, z) == m.xor(y, z) ==> x == y)
  }

  lemma StepLinear<R(!new)>(m: Machine<R>, x: R, y: R)
    requires HalfLaws(m) && SumLaws(m)
    ensures Step(m, m.xor(x, y)) == m.xor(Step(m, x), Step(m, y))
  {
  }

  lemma StepInjective<R(!new)>(m: Machine<R>, x: R, y: R)
    requires HalfLaws(m) && SumLaws(m)
    requires Step(m, x) == Step(m, y)
    ensures x == y
  {
    assert m.high(Step(m, x)) == m.low(x) && m.high(Step(m, y)) == m.low(y);
  }

  lemma StepLaws<R(!new)>(m: Machine<R>)
    requires HalfLaws(m) && SumLaws(m)
    ensures Linear(m) && Injective(m)
  {
    forall x, y ensures Step(m, m.xor(x, y)) == m.xor(Step(m, x), Step(m, y)) {
      StepLinear(m, x, y);
    }
    forall x, y | Step(m, x) == Step(m, y) ensures x == y {
      StepInjective(m, x, y);
    }
  }

  // ------------------------------------------------------------- many shifts

  lemma {:induction false} StepsInjective<R(!new)>(m: Machine<R>, x: R, y: R, n: nat)
    requires Injective(m)
    requires Steps(m, x, n) == Steps(m, y, n)
    ensures x == y
    decreases n
  {
    if n > 0 {
      StepsInjective(m, Step(m, x), Step(m, y), n - 1);
    }
  }

  lemma {:induction false} StepsLinear<R(!new)>(m: Machine<R>, x: R, y: R, n: nat)
    requires Linear(m)
    ensures Steps(m, m.xor(x, y), n) == m.xor(Steps(m, x, n), Steps(m, y, n))
    decreases n
  {
    if n > 0 {
      StepsLinear(m, Step(m, x), Step(m, y), n - 1);
    }
  }

  lemma {:induction false} StepsAdd<R>(m: Machine<R>, x: R, j: nat, n: nat)
    ensures Steps(m, Steps(m, x, j), n) == Steps(m, x, j + n)
    decreases j
  {
    if j > 0 {
      StepsAdd(m, Step(m, x), j - 1, n);
    }
  }

  /** With clear bits falling out, shifting is halving. */
  lemma {:induction false} StepsHalve<R>(m: Machine<R>, x: R, n: nat)
    requires forall j: nat :: j < n ==> !m.low(Halves(m, x, j))
    ensures Steps(m, x, n) == Halves(m, x, n)
    decreases n
  {
    if n > 0 {
      assert !m.low(Halves(m, x, 0));
      forall j: nat | j < n - 1 ensures !m.low(Halves(m, m.half(x), j)) {
        assert Halves(m, x, j + 1) == Halves(m, m.half(x), j);
      }
      StepsHalve(m, m.half(x), n - 1);
    }
  }

  lemma {:induction false} Descend<R>(m: Machine<R>, b: byte, k: nat)
    requires PlaceLaws(m) && k <= 3
    ensures Steps(m, m.place(b, k), 8 * k) == m.place(b, 0)
  {
    if k > 0 {
      assert Lowers(m, m.place(b, k), m.place(b, k - 1));
      StepsHalve(m, m.place(b, k), 8);
      StepsAdd(m, m.place(b, k), 8, 8 * (k - 1));
      Descend(m, b, k - 1);
    }
  }

  // ------------------------------------------------------------------- bytes

  lemma {:induction false} FeedConcat<R>(m: Machine<R>, c: R, a: seq<byte>, b: seq<byte>)
    ensures Feed(m, c, a + b) == Feed(m, Feed(m, c, a), b)
    decreases |a|
  {
    if a == [] {
      assert a + b == b;
    } else {
      assert (a + b)[1..] == a[1..] + b;
      FeedConcat(m, Steps(m, m.xor(c, m.place(a[0], 0)), 8), a[1..], b);
    }
  }

  /** Equal input keeps different registers different. */
  lemma {:induction false} FeedInjective<R(!new)>(m: Machine<R>, x: R, y: R, data: seq<byte>)
    requires Injective(m)
    requires Feed(m, x, data) == Feed(m, y, data)
    ensures x == y
    decreases |data|
  {
    if data != [] {
      var b := m.place(data[0], 0);
      FeedInjective(m, Steps(m, m.xor(x, b), 8), Steps(m, m.xor(y, b), 8), data[1..]);
      StepsInjective(m, m.xor(x, b), m.xor(y, b), 8);
    }
  }

  /** A byte fed after k + 1 bytes of shifting, from a register x, is x overlaid k + 1 places higher. */
  lemma FeedLater<R(!new)>(m: Machine<R>, x: R, b: byte, k: nat)
    requires Linear(m) && PlaceLaws(m) && k < 3
    ensures Feed(m, Steps(m, x, 8 * (k + 1)), [b]) == Steps(m, m.xor(x, m.place(b, k + 1)), 8 * (k + 2))
  {
    var up := m.place(b, k + 1);
    StepsLinear(m, x, up, 8 * (k + 1));
    Descend(m, b, k + 1);
    StepsAdd(m, m.xor(x, up), 8 * (k + 1), 8);
    FeedSingle(m, Steps(m, x, 8 * (k + 1)), b);
  }

  lemma FeedSingle<R>(m: Machine<R>, c: R, b: byte)
    ensures Feed(m, c, [b]) == Steps(m, m.xor(c, m.place(b, 0)), 8)
  {
  }

  /** Four bytes are fed by laying them over the register and shifting thirty-two times. */
  lemma FeedFour<R(!new)>(m: Machine<R>, c: R, b: seq<byte>)
    requires Linear(m) && PlaceLaws(m) && |b| == 4
    ensures Feed(m, c, b) == Steps(m, Overlay(m, c, b), 8 * |b|)
  {
    var x0 := m.xor(c, m.place(b[0], 0));
    var x1 := m.xor(x0, m.place(b[1], 1));
    var x2 := m.xor(x1, m.place(b[2], 2));
    FeedSingle(m, c, b[0]);
    FeedLater(m, x0, b[1], 0);
    FeedLater(m, x1, b[2], 1);
    FeedLater(m, x2, b[3], 2);
    SplitFour(m, c, b);
  }

  lemma SplitFour<R>(m: Machine<R>, c: R, b: seq<byte>)
    requires |b| == 4
    ensures Feed(m, c, b) == Feed(m, Feed(m, Feed(m, Feed(m, c, [b[0]]), [b[1]]), [b[2]]), [b[3]])
  {
    FeedConcat(m, c, b[..3], [b[3]]);
    FeedConcat(m, c, b[..2], [b[2]]);
    FeedConcat(m, c, [b[0]], [b[1]]);
    assert b == b[..3] + [b[3]] && b[..3] == b[..2] + [b[2]] && b[..2] == [b[0]] + [b[1]];
  }

  /** Different overlays stay different through any number of bytes that follow. */
  lemma WindowDetected<R(!new)>(m: Machine<R>, c: R, b1: seq<byte>, b2: seq<byte>, tail: seq<byte>)
    requires Linear(m) && Injective(m) && PlaceLaws(m) && |b1| == |b2| == 4
    requires Feed(m, c, b1 + tail) == Feed(m, c, b2 + tail)
    ensures Overlay(m, c, b1) == Overlay(m, c, b2)
  {
    FeedConcat(m, c, b1, tail);
    FeedConcat(m, c, b2, tail);
    FeedInjective(m, Feed(m, c, b1), Feed(m, c, b2), tail);
    FeedFour(m, c, b1);
    FeedFour(m, c, b2);
    StepsInjective(m, Overlay(m, c, b1), Overlay(m, c, b2), 8 * |b1|);
  }
}
