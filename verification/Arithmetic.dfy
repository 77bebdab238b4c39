/** Division and remainders, and counters of 32 bits. */
module Arithmetic {

  lemma AtLeast(x: nat, n: nat)
    requires 0 < x
    ensures x * n >= n
  {
    if x > 1 {
      AtLeast(x - 1, n);
    }
  }

  lemma DivMonotone(a: nat, b: nat, n: nat)
    requires a <= b && 0 < n
    ensures a / n <= b / n
  {
    var x, y := a / n, b / n;
    assert a == n * x + a % n && b == n * y + b % n;
    if x > y {
      assert n * x - n * y == (x - y) * n;
      AtLeast(x - y, n);
    }
  }

  lemma DivExact(k: nat, n: nat)
    requires 0 < n
    ensures n * k / n == k
  {
    var d := n * k / n;
    assert n * k == n * d + n * k % n;
    assert n * k - n * d == (k - d) * n;
    if d < k {
      AtLeast(k - d, n);
    } else if d > k {
      assert n * d - n * k == (d - k) * n;
      AtLeast(d - k, n);
    }
  }

  lemma ModOnce(x: nat, n: nat)
    requires 0 < n && x < 2 * n
    ensures x % n == if x >= n then x - n else x
  {
    if x >= n {
      assert x == n + (x - n);
    }
  }

  lemma DivStep(x: nat, n: nat)
    requires 0 < n <= x
    ensures x / n == (x - n) / n + 1
  {
    var q := (x - n) / n;
    assert x == n * (q + 1) + (x - n) % n;
    DivUnique(x, n, q + 1, (x - n) % n);
  }

  lemma DivUnique(x: nat, n: nat, q: nat, r: nat)
    requires x == n * q + r && r < n
    ensures x / n == q
  {
    var d := x / n;
    assert x == n * d + x % n;
    if d < q {
      assert n * q - n * d == (q - d) * n;
      AtLeast(q - d, n);
    } else if d > q {
      assert n * d - n * q == (d - q) * n;
      AtLeast(d - q, n);
    }
  }

  /** How many values a 32-bit counter has. */
  const CIRCLE: nat := 0x1_0000_0000

  /** Differences of 32-bit counters are those of the true counts, modulo 2^32. */
  lemma ModDifference(p: nat, q: nat)
    ensures (p % CIRCLE - q % CIRCLE) % CIRCLE == (p - q) % CIRCLE
  {
    var k := p / CIRCLE - q / CIRCLE;
    assert p - q == p % CIRCLE - q % CIRCLE + CIRCLE * k;
    ModShift(p % CIRCLE - q % CIRCLE, k);
  }

  lemma ModShift(x: int, k: int)
    ensures (x + CIRCLE * k) % CIRCLE == x % CIRCLE
    decreases if k < 0 then -k else k
  {
    if k > 0 {
      ModShift(x, k - 1);
      assert x + CIRCLE * k == x + CIRCLE * (k - 1) + CIRCLE;
    } else if k < 0 {
      ModShift(x, k + 1);
      assert x + CIRCLE * k == x + CIRCLE * (k + 1) - CIRCLE;
    }
  }
}
