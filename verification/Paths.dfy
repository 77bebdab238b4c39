/** File paths on the wire: the device reads bytes, the gateway writes text, and they agree on what a path is. */
module Paths {
  import opened Bytes

  // ------------------------------------------------- UTF-8, as in section 3 of RFC 3629

  predicate Scalar(c: nat) {
    c < 0xD800 || 0xE000 <= c < 0x11_0000
  }

  /** A scalar value that is no control character. */
  predicate Plain(c: nat) {
    Scalar(c) && c >= 0x20 && c != 0x7F
  }

  function Encode(c: nat): (b: seq<byte>)
    requires Scalar(c)
    ensures 1 <= |b| <= 4
  {
    if c < 0x80 then [c]
    else if c < 0x800 then [0xC0 + c / 64, 0x80 + c % 64]
    else if c < 0x1_0000 then [0xE0 + c / 4096, 0x80 + c / 64 % 64, 0x80 + c % 64]
    else [0xF0 + c / 262144, 0x80 + c / 4096 % 64, 0x80 + c / 64 % 64, 0x80 + c % 64]
  }

  predicate AllScalar(t: seq<nat>) {
    forall i :: 0 <= i < |t| ==> Scalar(t[i])
  }

  predicate AllPlain(t: seq<nat>) {
    forall i :: 0 <= i < |t| ==> Plain(t[i])
  }

  function EncodeAll(t: seq<nat>): seq<byte>
    requires AllScalar(t)
  {
    if t == [] then [] else Encode(t[0]) + EncodeAll(t[1..])
  }

  // --------------------------------------------------------------- the device's scan

  /** How many bytes continue a first byte, zero if it cannot be one, and the bits it contributes. */
  function Continuation(first: byte): nat {
    if 0xC2 <= first <= 0xDF then 1 else if 0xE0 <= first <= 0xEF then 2 else if 0xF0 <= first <= 0xF4 then 3 else 0
  }

  function Lead(first: byte): nat {
    if 0xC2 <= first <= 0xDF then first - 0xC0
    else if 0xE0 <= first <= 0xEF then first - 0xE0
    else if 0xF0 <= first <= 0xF4 then first - 0xF0
    else 0
  }

  /** Gathers n continuation bytes from the i-th on. */
  function Gather(codepoint: nat, b: seq<byte>, i: nat, n: nat): Option<nat>
    requires i + n <= |b|
    decreases n, codepoint
  {
    if n == 0 then Some(codepoint)
    else if b[i] < 0x80 || b[i] >= 0xC0 then None
    else Gather(codepoint * 64 + (b[i] - 0x80), b, i + 1, n - 1)
  }

  predicate InRange(n: nat, codepoint: nat) {
    !((n == 2 && codepoint < 0x800) || (n == 3 && codepoint < 0x1_0000) || codepoint > 0x10_FFFF
      || 0xD800 <= codepoint <= 0xDFFF)
  }

  /** The character at the front, if the device takes it. */
  function FirstCharacter(b: seq<byte>): Option<nat>
    requires b != []
  {
    var first := b[0];
    if first < 0x80 then (if first < 0x20 || first == 0x7F then None else Some(first))
    else
      var n := Continuation(first);
      if n == 0 || n > |b| - 1 then None
      else
        var c := Gather(Lead(first), b, 1, n);
        if c.None? || !InRange(n, c.value) then None else c
  }

  predicate Scan(b: seq<byte>)
    decreases |b|
  {
    b == [] || (FirstCharacter(b).Some? && Scan(b[1 + Continuation(b[0])..]))
  }

  lemma Digits(hi: nat, lo: nat)
    requires lo < 64
    ensures (hi * 64 + lo) / 64 == hi && (hi * 64 + lo) % 64 == lo
  {
  }

  lemma First1(b: seq<byte>, c: nat)
    requires b != [] && FirstCharacter(b) == Some(c) && 0xC2 <= b[0] <= 0xDF
    ensures Plain(c) && Encode(c) == b[..2]
  {
    var y: nat := b[1] - 0x80;
    assert Gather(Lead(b[0]), b, 1, 1) == Gather(Lead(b[0]) * 64 + y, b, 2, 0);
    Digits(Lead(b[0]), y);
  }

  lemma First2(b: seq<byte>, c: nat)
    requires b != [] && FirstCharacter(b) == Some(c) && 0xE0 <= b[0] <= 0xEF
    ensures Plain(c) && Encode(c) == b[..3]
  {
    var x := Lead(b[0]);
    var y: nat := b[1] - 0x80;
    assert Gather(x, b, 1, 2) == Gather(x * 64 + y, b, 2, 1);
    var z: nat := b[2] - 0x80;
    assert Gather(x * 64 + y, b, 2, 1) == Gather((x * 64 + y) * 64 + z, b, 3, 0);
    Digits(x, y);
    Digits(x * 64 + y, z);
    assert c / 4096 == x;
  }

  lemma First3(b: seq<byte>, c: nat)
    requires b != [] && FirstCharacter(b) == Some(c) && 0xF0 <= b[0] <= 0xF4
    ensures Plain(c) && Encode(c) == b[..4]
  {
    var x := Lead(b[0]);
    var y: nat := b[1] - 0x80;
    assert Gather(x, b, 1, 3) == Gather(x * 64 + y, b, 2, 2);
    var z: nat := b[2] - 0x80;
    assert Gather(x * 64 + y, b, 2, 2) == Gather((x * 64 + y) * 64 + z, b, 3, 1);
    var w: nat := b[3] - 0x80;
    assert Gather((x * 64 + y) * 64 + z, b, 3, 1) == Gather(((x * 64 + y) * 64 + z) * 64 + w, b, 4, 0);
    Digits(x, y);
    Digits(x * 64 + y, z);
    Digits((x * 64 + y) * 64 + z, w);
    assert c / 4096 == x * 64 + y && c / 262144 == x;
  }

  /** What the device takes first is exactly what an encoder of plain characters puts first. */
  lemma FirstIsEncoded(b: seq<byte>, c: nat)
    requires b != [] && FirstCharacter(b) == Some(c)
    ensures Plain(c) && |Encode(c)| == 1 + Continuation(b[0]) <= |b| && Encode(c) == b[..1 + Continuation(b[0])]
  {
    if b[0] >= 0x80 {
      if Continuation(b[0]) == 1 {
        First1(b, c);
      } else if Continuation(b[0]) == 2 {
        First2(b, c);
      } else {
        First3(b, c);
      }
    }
  }

  lemma Encoded2(c: nat, rest: seq<byte>)
    requires 0x80 <= c < 0x800
    ensures FirstCharacter(Encode(c) + rest) == Some(c)
  {
    var b := Encode(c) + rest;
    assert Gather(c / 64, b, 1, 1) == Gather(c, b, 2, 0);
  }

  lemma Encoded3(c: nat, rest: seq<byte>)
    requires 0x800 <= c < 0x1_0000 && Scalar(c)
    ensures FirstCharacter(Encode(c) + rest) == Some(c)
  {
    var b := Encode(c) + rest;
    assert Gather(c / 4096, b, 1, 2) == Gather(c / 64, b, 2, 1) == Gather(c, b, 3, 0);
  }

  /** Putting the last digit back. */
  lemma DigitsBack(x: nat)
    ensures x / 64 * 64 + x % 64 == x
  {
  }

  lemma Encoded4(c: nat, rest: seq<byte>)
    requires 0x1_0000 <= c && Scalar(c)
    ensures FirstCharacter(Encode(c) + rest) == Some(c)
  {
    var b, x, y := Encode(c) + rest, c / 64, c / 4096;
    assert x / 64 == y && y / 64 == c / 262144 <= 4;
    assert b[0] == 0xF0 + y / 64 && b[1] == 0x80 + y % 64 && b[2] == 0x80 + x % 64 && b[3] == 0x80 + c % 64;
    DigitsBack(y);
    assert Gather(y / 64, b, 1, 3) == Gather(y, b, 2, 2);
    DigitsBack(x);
    assert Gather(y, b, 2, 2) == Gather(x, b, 3, 1);
    DigitsBack(c);
    assert Gather(x, b, 3, 1) == Gather(c, b, 4, 0);
  }

  /** And an encoded character is taken just when it is plain. */
  lemma EncodedIsFirst(c: nat, rest: seq<byte>)
    requires Scalar(c)
    ensures FirstCharacter(Encode(c) + rest) == if Plain(c) then Some(c) else None
    ensures Plain(c) ==> 1 + Continuation(Encode(c)[0]) == |Encode(c)|
  {
    if c < 0x80 {
      assert (Encode(c) + rest)[0] == c;
    } else if c < 0x800 {
      Encoded2(c, rest);
    } else if c < 0x1_0000 {
      Encoded3(c, rest);
    } else {
      Encoded4(c, rest);
    }
  }

  /** The device takes an encoded text exactly when all of it is plain. */
  lemma {:induction false} ScanEncoded(t: seq<nat>)
    requires AllScalar(t)
    ensures Scan(EncodeAll(t)) <==> AllPlain(t)
  {
    if t != [] {
      EncodedIsFirst(t[0], EncodeAll(t[1..]));
      ScanEncoded(t[1..]);
      if Plain(t[0]) {
        var b := EncodeAll(t);
        assert b[1 + Continuation(b[0])..] == EncodeAll(t[1..]);
        assert AllPlain(t) <==> AllPlain(t[1..]);
      }
    }
  }

  /** The text in bytes the device takes. */
  function Text(b: seq<byte>): (t: seq<nat>)
    requires Scan(b)
    ensures AllPlain(t) && AllScalar(t)
    decreases |b|
  {
    if b == [] then []
    else
      var c := FirstCharacter(b).value;
      FirstIsEncoded(b, c);
      [c] + Text(b[1 + Continuation(b[0])..])
  }

  lemma EncodeAllPush(c: nat, t: seq<nat>)
    requires Scalar(c) && AllScalar(t)
    ensures AllScalar([c] + t) && EncodeAll([c] + t) == Encode(c) + EncodeAll(t)
  {
    assert ([c] + t)[1..] == t;
  }

  lemma {:induction false} TextEncodes(b: seq<byte>)
    requires Scan(b)
    ensures EncodeAll(Text(b)) == b
    decreases |b|
  {
    if b != [] {
      var c := FirstCharacter(b).value;
      FirstIsEncoded(b, c);
      var n := 1 + Continuation(b[0]);
      TextEncodes(b[n..]);
      EncodeAllPush(c, Text(b[n..]));
      assert b == b[..n] + b[n..];
    }
  }

  /** So the device takes exactly the encodings of texts without control characters. */
  lemma ScanIffEncoded(b: seq<byte>)
    ensures Scan(b) <==> exists t: seq<nat> :: AllPlain(t) && AllScalar(t) && EncodeAll(t) == b
  {
    if Scan(b) {
      TextEncodes(b);
    }
    if t: seq<nat> :| AllPlain(t) && AllScalar(t) && EncodeAll(t) == b {
      ScanEncoded(t);
    }
  }

  /** The firmware's loop. */
  method ValidUtf8(value: seq<byte>) returns (ok: bool)
    ensures ok == Scan(value)
  {
    var offset := 0;
    assert value[0..] == value;
    while offset < |value|
      invariant offset <= |value|
      invariant Scan(value[offset..]) == Scan(value)
      decreases |value| - offset
    {
      ghost var rest := value[offset..];
      var first := value[offset];
      offset := offset + 1;
      if first < 0x80 {
        if first < 0x20 || first == 0x7F {
          return false;
        }
        assert rest[1..] == value[offset..];
      } else {
        var continuation := Continuation(first);
        if continuation == 0 || continuation > |value| - offset {
          return false;
        }
        var c := GatherAt(value, offset, continuation, Lead(first));
        GatherShift(Lead(first), value, offset - 1, 1, continuation);
        if c.None? || !InRange(continuation, c.value) {
          return false;
        }
        offset := offset + continuation;
        assert rest[1 + continuation..] == value[offset..];
      }
    }
    ok := true;
  }

  method GatherAt(value: seq<byte>, offset: nat, continuation: nat, lead: nat) returns (c: Option<nat>)
    requires offset + continuation <= |value|
    ensures c == Gather(lead, value, offset, continuation)
  {
    var codepoint: nat := lead;
    for i := 0 to continuation
      invariant Gather(codepoint, value, offset + i, continuation - i) == Gather(lead, value, offset, continuation)
    {
      var next := value[offset + i];
      if next < 0x80 || next >= 0xC0 {
        return None;
      }
      codepoint := codepoint * 64 + (next - 0x80);
    }
    c := Some(codepoint);
  }

  lemma {:induction false} GatherShift(codepoint: nat, b: seq<byte>, from: nat, i: nat, n: nat)
    requires from + i + n <= |b|
    ensures Gather(codepoint, b[from..], i, n) == Gather(codepoint, b, from + i, n)
    decreases n
  {
    if n > 0 && 0x80 <= b[from + i] < 0xC0 {
      GatherShift(codepoint * 64 + (b[from + i] - 0x80), b, from, i + 1, n - 1);
    }
  }

  // -------------------------------------------------------------------- components

  const SLASH: byte := 0x2F
  const BACKSLASH: byte := 0x5C
  const DOT: byte := 0x2E
  const PATH_MAX: nat := 255

  /** Splitting at every separator; there is always at least one part. */
  function Split<T(==)>(s: seq<T>, sep: T): (parts: seq<seq<T>>)
    ensures parts != []
  {
    if s == [] then [[]]
    else
      var rest := Split(s[1..], sep);
      if s[0] == sep then [[]] + rest else [[s[0]] + rest[0]] + rest[1..]
  }

  predicate BadPart(part: seq<int>) {
    part == [] || part == [DOT] || part == [DOT, DOT]
  }

  predicate GoodParts(parts: seq<seq<int>>) {
    forall i :: 0 <= i < |parts| ==> !BadPart(parts[i])
  }

  /** What the device accepts. */
  predicate DevicePath(b: seq<byte>) {
    b == [] || (|b| <= PATH_MAX && b[0] != SLASH && b[|b| - 1] != SLASH && Scan(b) && Clean(b))
  }

  /** No backslash, and no component that is empty or made of dots. */
  predicate Clean(b: seq<int>) {
    (BACKSLASH as int) !in b && GoodParts(Split(b, SLASH as int))
  }

  lemma {:induction false} SplitPrefix<T>(a: seq<T>, s: seq<T>, sep: T)
    requires sep !in a
    ensures Split(a + s, sep) == [a + Split(s, sep)[0]] + Split(s, sep)[1..]
  {
    if a == [] {
      assert a + s == s && a + Split(s, sep)[0] == Split(s, sep)[0];
    } else {
      assert (a + s)[1..] == a[1..] + s;
      SplitPrefix(a[1..], s, sep);
      assert [a[0]] + (a[1..] + Split(s, sep)[0]) == a + Split(s, sep)[0];
    }
  }

  lemma SplitComponent<T>(a: seq<T>, sep: T, rest: seq<T>)
    requires sep !in a
    ensures Split(a, sep) == [a] && Split(a + [sep] + rest, sep) == [a] + Split(rest, sep)
  {
    SplitPrefix(a, [], sep);
    assert a + [] == a;
    SplitPrefix(a, [sep] + rest, sep);
    assert a + ([sep] + rest) == a + [sep] + rest && ([sep] + rest)[1..] == rest;
  }

  lemma CleanComponent(a: seq<int>, rest: seq<int>)
    requires SLASH as int !in a && BACKSLASH as int !in a
    ensures Clean(a) <==> !BadPart(a)
    ensures Clean(a + [SLASH as int] + rest) <==> !BadPart(a) && Clean(rest)
  {
    SplitComponent(a, SLASH as int, rest);
    var parts := [a] + Split(rest, SLASH as int);
    assert parts[0] == a && parts[1..] == Split(rest, SLASH as int);
    assert GoodParts(parts) <==> !BadPart(a) && GoodParts(parts[1..]);
  }

  lemma ComponentEnds(path: seq<byte>, start: nat, i: nat)
    requires start <= i <= |path| && SLASH !in path[start..i] && BACKSLASH !in path[start..i]
    requires i < |path| ==> path[i] == SLASH
    ensures Clean(path[start..]) <==> !BadPart(path[start..i]) && (i < |path| ==> Clean(path[i + 1..]))
    ensures BadPart(path[start..i]) <==> i == start || (i == start + 1 && path[start] == DOT)
                                         || (i == start + 2 && path[start] == DOT && path[start + 1] == DOT)
  {
    if i < |path| {
      CleanComponent(path[start..i], path[i + 1..]);
      assert path[start..] == path[start..i] + [path[i]] + path[i + 1..];
    } else {
      CleanComponent(path[start..i], []);
      assert path[start..] == path[start..i];
    }
  }

  lemma Continues(path: seq<byte>, start: nat, i: nat)
    requires start <= i < |path|
    ensures path[i] == BACKSLASH ==> !Clean(path[start..])
    ensures path[start..i + 1] == path[start..i] + [path[i]]
  {
    assert path[start..][i - start] == path[i];
  }

  method ValidRelativePath(path: seq<byte>) returns (ok: bool)
    ensures ok == DevicePath(path)
  {
    if |path| == 0 {
      return true;
    }
    if |path| > PATH_MAX || path[0] == SLASH || path[|path| - 1] == SLASH {
      return false;
    }
    var text := ValidUtf8(path);
    if !text {
      return false;
    }
    ok := ScanComponents(path);
  }

  /** The single pass over the components. */
  method ScanComponents(path: seq<byte>) returns (ok: bool)
    ensures ok == Clean(path)
  {
    var start, i := 0, 0;
    assert path[0..] == path;
    while i <= |path|
      invariant 0 <= start <= i <= |path| + 1 && start <= |path| + 1
      invariant i <= |path| ==> SLASH !in path[start..i] && BACKSLASH !in path[start..i]
      invariant i <= |path| ==> Clean(path) == Clean(path[start..])
      invariant i == |path| + 1 ==> Clean(path)
    {
      if i < |path| && path[i] != SLASH {
        Continues(path, start, i);
        if path[i] == BACKSLASH {
          return false;
        }
      } else {
        var size := i - start;
        ComponentEnds(path, start, i);
        if size == 0 || (size == 1 && path[start] == DOT)
           || (size == 2 && path[start] == DOT && path[start + 1] == DOT) {
          return false;
        }
        start := i + 1;
      }
      i := i + 1;
    }
    ok := true;
  }

  // ------------------------------------------------------------------ the gateway's side

  /** What the gateway accepts, of a text without lone surrogates. */
  predicate HostPath(t: seq<nat>)
    requires AllScalar(t)
  {
    && (t != [] ==> t[0] != SLASH && t[|t| - 1] != SLASH)
    && (BACKSLASH as int) !in t
    && (t != [] ==> GoodParts(Split(t, SLASH as int)))
    && |EncodeAll(t)| <= PATH_MAX
    && Visible(EncodeAll(t))
  }

  /** No control character is among the bytes. */
  predicate Visible(b: seq<byte>) {
    forall v :: v in b ==> v >= 0x20 && v != 0x7F
  }

  lemma VisibleConcat(a: seq<byte>, b: seq<byte>)
    ensures Visible(a + b) <==> Visible(a) && Visible(b)
  {
    assert forall v :: v in a + b <==> v in a || v in b;
  }

  lemma ControlShows(c: nat)
    requires Scalar(c)
    ensures Visible(Encode(c)) <==> Plain(c)
  {
    if c < 0x80 {
      assert c in Encode(c);
    }
  }

  lemma {:induction false} ControlsShow(t: seq<nat>)
    requires AllScalar(t)
    ensures Visible(EncodeAll(t)) <==> AllPlain(t)
  {
    if t != [] {
      ControlShows(t[0]);
      ControlsShow(t[1..]);
      VisibleConcat(Encode(t[0]), EncodeAll(t[1..]));
      assert AllPlain(t) <==> Plain(t[0]) && AllPlain(t[1..]);
    }
  }

  /** An ASCII character shows in the encoding exactly where it is in the text. */
  lemma {:induction false} AsciiShows(t: seq<nat>, c: byte)
    requires AllScalar(t) && c < 0x80
    ensures c in EncodeAll(t) <==> (c as int) in t
  {
    if t != [] {
      AsciiShows(t[1..], c);
      assert c in Encode(t[0]) <==> c == t[0];
      assert (c as int) in t <==> c == t[0] || (c as int) in t[1..];
    }
  }

  lemma HeadShows(t: seq<nat>)
    requires AllScalar(t) && t != []
    ensures EncodeAll(t) != [] && (EncodeAll(t)[0] == DOT <==> t[0] == DOT)
    ensures EncodeAll(t)[0] == SLASH <==> t[0] == SLASH
    ensures t[0] == DOT ==> EncodeAll(t) == [DOT] + EncodeAll(t[1..])
  {
  }

  lemma DotsShow(part: seq<nat>)
    requires AllScalar(part)
    ensures BadPart(EncodeAll(part)) <==> BadPart(part)
  {
    if part != [] {
      HeadShows(part);
      if part[0] == DOT {
        assert part == [DOT as int] + part[1..];
        if |part| > 1 {
          HeadShows(part[1..]);
          if part[1] == DOT {
            assert part[1..] == [DOT as int] + part[2..] && part[1..][1..] == part[2..];
            if |part| > 2 {
              HeadShows(part[2..]);
            }
          }
        }
      }
    }
  }

  lemma {:induction false} EncodeAllAppend(a: seq<nat>, b: seq<nat>)
    requires AllScalar(a) && AllScalar(b)
    ensures AllScalar(a + b) && EncodeAll(a + b) == EncodeAll(a) + EncodeAll(b)
  {
    if a == [] {
      assert a + b == b;
    } else {
      var rest := a[1..];
      EncodeAllAppend(rest, b);
      assert a == [a[0]] + rest && a + b == [a[0]] + (rest + b);
      EncodeAllPush(a[0], rest);
      EncodeAllPush(a[0], rest + b);
      Assoc(Encode(a[0]), EncodeAll(rest), EncodeAll(b));
    }
  }

  lemma ComponentAgrees(a: seq<nat>)
    requires AllScalar(a) && SLASH as int !in a && BACKSLASH as int !in a
    ensures Clean(EncodeAll(a)) <==> Clean(a)
    ensures SLASH as int !in EncodeAll(a) && BACKSLASH as int !in EncodeAll(a)
    ensures BadPart(EncodeAll(a)) <==> BadPart(a)
  {
    DotsShow(a);
    AsciiShows(a, SLASH);
    AsciiShows(a, BACKSLASH);
    CleanComponent(a, []);
    CleanComponent(EncodeAll(a), []);
  }

  lemma EncodeSlash(a: seq<nat>, rest: seq<nat>)
    requires AllScalar(a) && AllScalar(rest)
    ensures var t := a + [SLASH as int] + rest;
            AllScalar(t) && EncodeAll(t) == EncodeAll(a) + [SLASH as int] + EncodeAll(rest)
  {
    EncodeAllAppend(a + [SLASH as int], rest);
    EncodeAllAppend(a, [SLASH as int]);
    EncodeAllPush(SLASH as int, []);
  }

  /** Splitting the text and splitting its bytes find the same faults. */
  lemma {:induction false} CleanAgrees(t: seq<nat>)
    requires AllScalar(t)
    ensures Clean(EncodeAll(t)) <==> Clean(t)
    decreases |t|
  {
    AsciiShows(t, BACKSLASH);
    if (BACKSLASH as int) !in t {
      var k := FirstSlash(t);
      var a := t[..k];
      ComponentAgrees(a);
      if k == |t| {
        assert a == t;
      } else {
        var rest := t[k + 1..];
        CleanAgrees(rest);
        assert t == a + [SLASH as int] + rest;
        FirstAgrees(a, rest);
      }
    }
  }

  /** A good first component in front of texts that agree. */
  lemma FirstAgrees(a: seq<nat>, rest: seq<nat>)
    requires AllScalar(a) && AllScalar(rest) && SLASH as int !in a && BACKSLASH as int !in a
    requires Clean(EncodeAll(rest)) <==> Clean(rest)
    ensures var t := a + [SLASH as int] + rest;
            AllScalar(t) && (Clean(EncodeAll(t)) <==> Clean(t))
  {
    ComponentAgrees(a);
    EncodeSlash(a, rest);
    CleanComponent(a, rest);
    CleanComponent(EncodeAll(a), EncodeAll(rest));
  }

  function FirstSlash(t: seq<nat>): (k: nat)
    ensures k <= |t| && (SLASH as int) !in t[..k] && (k < |t| ==> t[k] == SLASH)
  {
    if t == [] || t[0] == SLASH then 0
    else
      var k := FirstSlash(t[1..]);
      assert t[..k + 1] == [t[0]] + t[1..][..k];
      k + 1
  }

  lemma CleanEnds(s: seq<int>)
    requires s != [] && (s[0] == SLASH || s[|s| - 1] == SLASH)
    ensures !Clean(s)
  {
    var parts := Split(s, SLASH as int);
    LastPart(s[..|s| - 1]);
    assert s[|s| - 1] == SLASH ==> s == s[..|s| - 1] + [SLASH as int];
    assert s[0] == SLASH ==> BadPart(parts[0]);
    assert s[|s| - 1] == SLASH ==> BadPart(parts[|parts| - 1]);
  }

  lemma {:induction false} LastPart(s: seq<int>)
    ensures var parts := Split(s + [SLASH as int], SLASH as int); parts[|parts| - 1] == []
  {
    if s == [] {
      assert s + [SLASH as int] == [SLASH as int];
    } else {
      assert (s + [SLASH as int])[1..] == s[1..] + [SLASH as int];
      LastPart(s[1..]);
      LastParts(s[1..]);
    }
  }

  lemma LastParts(s: seq<int>)
    ensures |Split(s + [SLASH as int], SLASH as int)| >= 2
  {
    if s == [] {
      assert s + [SLASH as int] == [SLASH as int];
    } else {
      assert (s + [SLASH as int])[1..] == s[1..] + [SLASH as int];
      LastParts(s[1..]);
    }
  }

  /** Both sides accept the same paths: the gateway a text, the device its encoding. */
  lemma PathsAgree(t: seq<nat>)
    requires AllScalar(t)
    ensures HostPath(t) <==> DevicePath(EncodeAll(t))
  {
    if t != [] {
      HeadShows(t);
      ControlsShow(t);
      ScanEncoded(t);
      CleanAgrees(t);
      EndsDirty(t);
      EndsDirty(EncodeAll(t));
    }
  }

  lemma EndsDirty(s: seq<int>)
    requires s != []
    ensures Clean(s) ==> s[0] != SLASH && s[|s| - 1] != SLASH
  {
    if s[0] == SLASH || s[|s| - 1] == SLASH {
      CleanEnds(s);
    }
  }

  // ------------------------------------------------------------------ path requests

  const VOLUME_ID_MAX: nat := 15
  const REQUEST_HEADER: nat := 4

  datatype PathStatus = PathInvalid | VolumeNotFound

  datatype Decoded = Accepted(volume: seq<byte>, path: seq<byte>, trailer: seq<byte>) | Refused(status: PathStatus)

  /** What the gateway packs. */
  function Pack(volume: seq<byte>, path: seq<byte>): seq<byte>
    requires |volume| < 256 && |path| < 0x1_0000
  {
    PackHeader(|volume|, |path|) + volume + path
  }

  /** What the device makes of a request with a trailer of known size. */
  function DecodeRequest(payload: seq<byte>, trailer: nat, volumes: set<seq<byte>>): Decoded {
    if |payload| < REQUEST_HEADER then Refused(PathInvalid)
    else
      var volumeSize := payload[0];
      var pathSize := GetLe16(payload[2..4]);
      if payload[1] != 0 || volumeSize == 0 || volumeSize > VOLUME_ID_MAX || pathSize > PATH_MAX
         || |payload| != REQUEST_HEADER + volumeSize + pathSize + trailer then Refused(PathInvalid)
      else
        var volume := payload[REQUEST_HEADER..REQUEST_HEADER + volumeSize];
        var path := payload[REQUEST_HEADER + volumeSize..REQUEST_HEADER + volumeSize + pathSize];
        if volume !in volumes then Refused(VolumeNotFound)
        else if !DevicePath(path) then Refused(PathInvalid)
        else Accepted(volume, path, payload[REQUEST_HEADER + volumeSize + pathSize..])
  }

  predicate Packable(d: Decoded, trailer: nat, volumes: set<seq<byte>>) {
    && d.Accepted? && 0 < |d.volume| <= VOLUME_ID_MAX && d.volume in volumes && DevicePath(d.path)
    && |d.trailer| == trailer
  }

  lemma Slices(h: seq<byte>, v: seq<byte>, p: seq<byte>, t: seq<byte>)
    requires |h| == REQUEST_HEADER
    ensures var b := h + v + p + t;
            && b[0] == h[0] && b[1] == h[1] && b[2..4] == h[2..4]
            && b[REQUEST_HEADER..REQUEST_HEADER + |v|] == v
            && b[REQUEST_HEADER + |v|..REQUEST_HEADER + |v| + |p|] == p
            && b[REQUEST_HEADER + |v| + |p|..] == t
  {
  }

  function PackHeader(v: nat, n: nat): (h: seq<byte>)
    requires v < 256 && n < 0x1_0000
    ensures |h| == REQUEST_HEADER
  {
    [v, 0] + PutLe16(n)
  }

  lemma HeaderReads(v: nat, n: nat)
    requires v < 256 && n < 0x1_0000
    ensures PackHeader(v, n)[0] == v && PackHeader(v, n)[1] == 0 && GetLe16(PackHeader(v, n)[2..4]) == n
  {
    assert PackHeader(v, n)[2..4] == PutLe16(n);
    Le16RoundTrip(n);
  }

  lemma HeaderPacks(h: seq<byte>)
    requires |h| == REQUEST_HEADER && h[1] == 0
    ensures PackHeader(h[0], GetLe16(h[2..4])) == h
  {
    var n := GetLe16(h[2..4]);
    assert n % 256 == h[2] && n / 256 == h[3];
  }

  /** The device recovers the volume and the path the gateway packed. */
  lemma PackedDecodes(d: Decoded, trailer: nat, volumes: set<seq<byte>>)
    requires Packable(d, trailer, volumes)
    ensures |d.path| <= PATH_MAX && DecodeRequest(Pack(d.volume, d.path) + d.trailer, trailer, volumes) == d
  {
    HeaderReads(|d.volume|, |d.path|);
    Slices(PackHeader(|d.volume|, |d.path|), d.volume, d.path, d.trailer);
  }

  /** And accepts no other bytes for them. */
  lemma DecodedPacks(payload: seq<byte>, trailer: nat, volumes: set<seq<byte>>)
    requires DecodeRequest(payload, trailer, volumes).Accepted?
    ensures var d := DecodeRequest(payload, trailer, volumes);
            Packable(d, trailer, volumes) && |d.path| <= PATH_MAX && payload == Pack(d.volume, d.path) + d.trailer
  {
    var d := DecodeRequest(payload, trailer, volumes);
    var v, n := |d.volume|, |d.path|;
    assert v == payload[0] && n == GetLe16(payload[2..4]) && |payload| == REQUEST_HEADER + v + n + trailer;
    Rejoin(payload, v, n);
  }

  lemma Rejoin(payload: seq<byte>, v: nat, n: nat)
    requires |payload| >= REQUEST_HEADER + v + n && payload[1] == 0 && payload[0] == v
    requires GetLe16(payload[2..4]) == n
    ensures payload == PackHeader(v, n) + payload[REQUEST_HEADER..REQUEST_HEADER + v]
                     + payload[REQUEST_HEADER + v..REQUEST_HEADER + v + n] + payload[REQUEST_HEADER + v + n..]
  {
    var h := payload[..REQUEST_HEADER];
    assert h[2..4] == payload[2..4];
    HeaderPacks(h);
  }
}
