/** Bytes, sequences of bytes and the little-endian integers of the wire format. */
module Bytes {

  type byte = x: int | 0 <= x < 256

  type u16 = x: int | 0 <= x < 0x1_0000

  type u32 = x: int | 0 <= x < 0x1_0000_0000

  type u64 = x: int | 0 <= x < 0x1_0000_0000_0000_0000

  datatype Option<+T> = None | Some(value: T)

  function PutLe16(v: u16): (b: seq<byte>)
    ensures |b| == 2
  {
    [v % 256, v / 256]
  }

  function GetLe16(b: seq<byte>): (v: u16)
    requires |b| == 2
  {
    (b[0] as int) + 256 * (b[1] as int)
  }

  function PutLe32(v: u32): (b: seq<byte>)
    ensures |b| == 4
  {
    PutLe16(v % 0x1_0000) + PutLe16(v / 0x1_0000)
  }

  function GetLe32(b: seq<byte>): (v: u32)
    requires |b| == 4
  {
    (GetLe16(b[..2]) as int) + 0x1_0000 * (GetLe16(b[2..]) as int)
  }

  lemma Le16RoundTrip(v: u16)
    ensures GetLe16(PutLe16(v)) == v
  {
  }

  lemma Le32RoundTrip(v: u32)
    ensures GetLe32(PutLe32(v)) == v
  {
    var b := PutLe32(v);
    assert b[..2] == PutLe16(v % 0x1_0000) && b[2..] == PutLe16(v / 0x1_0000);
    Le16RoundTrip(v % 0x1_0000);
    Le16RoundTrip(v / 0x1_0000);
  }

  /** The n low bytes of v, least significant first. */
  function PutLe(v: nat, n: nat): (b: seq<byte>)
    ensures |b| == n
    decreases n, v
  {
    if n == 0 then [] else [v % 256] + PutLe(v / 256, n - 1)
  }

  function GetLe(b: seq<byte>): nat
    decreases |b|
  {
    if b == [] then 0 else (b[0] as int) + 256 * GetLe(b[1..])
  }

  /** 256 to the n. */
  function Bound(n: nat): nat
    decreases n, n
  {
    if n == 0 then 1 else 256 * Bound(n - 1)
  }

  lemma {:induction false} LeRoundTrip(v: nat, n: nat)
    requires v < Bound(n)
    ensures GetLe(PutLe(v, n)) == v
    decreases n
  {
    if n > 0 {
      LeRoundTrip(v / 256, n - 1);
      assert PutLe(v, n)[1..] == PutLe(v / 256, n - 1);
    }
  }

  lemma Bounds()
    ensures Bound(2) == 0x1_0000
    ensures Bound(8) == 0x1_0000_0000_0000_0000
  {
    assert Bound(2) == 256 * Bound(1) == 256 * 256 * Bound(0);
    assert Bound(8) == 256 * Bound(7) == 256 * 256 * Bound(6) == 256 * 256 * 256 * Bound(5);
    assert Bound(5) == 256 * Bound(4) == 256 * 256 * Bound(3) == 256 * 256 * 256 * Bound(2);
  }

  /** The concatenation of a sequence of byte strings. */
  function Concat(parts: seq<seq<byte>>): (r: seq<byte>) {
    if parts == [] then [] else parts[0] + Concat(parts[1..])
  }

  lemma {:induction false} ConcatAppend(a: seq<seq<byte>>, b: seq<seq<byte>>)
    ensures Concat(a + b) == Concat(a) + Concat(b)
  {
    if a == [] {
      assert a + b == b;
    } else {
      assert (a + b)[1..] == a[1..] + b;
      ConcatAppend(a[1..], b);
    }
  }

  lemma ConcatOne(part: seq<byte>)
    ensures Concat([part]) == part
  {
    assert [part][1..] == [] && part + [] == part;
  }

  /** A sequence without its k-th element. */
  function Without<T>(s: seq<T>, k: nat): seq<T>
    requires k < |s|
  {
    s[..k] + s[k + 1..]
  }

  lemma Assoc<T>(a: seq<T>, b: seq<T>, c: seq<T>)
    ensures a + b + c == a + (b + c)
  {
  }

  lemma Around<T>(s: seq<T>, n: nat)
    requires n < |s|
    ensures s == s[..n] + [s[n]] + s[n + 1..]
  {
  }
}
