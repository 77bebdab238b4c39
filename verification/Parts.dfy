/** Data cut into parts that are sent one by one, each with the offset of its first byte. */
module Parts {
  import opened Bytes

  /** Cuts data into parts of chunkMax bytes and a shorter last one. */
  function Cut(data: seq<byte>, chunkMax: nat): seq<seq<byte>>
    requires 0 < chunkMax
    decreases |data|
  {
    if data == [] then []
    else if |data| <= chunkMax then [data]
    else [data[..chunkMax]] + Cut(data[chunkMax..], chunkMax)
  }

  predicate Sized(parts: seq<seq<byte>>, chunkMax: nat) {
    forall k :: 0 <= k < |parts| ==> 0 < |parts[k]| <= chunkMax
  }

  lemma {:induction false} CutWhole(data: seq<byte>, chunkMax: nat)
    requires 0 < chunkMax
    ensures Concat(Cut(data, chunkMax)) == data && Sized(Cut(data, chunkMax), chunkMax)
    decreases |data|
  {
    if 0 < |data| <= chunkMax {
      assert [data][1..] == [] && data + [] == data;
    } else if data != [] {
      CutWhole(data[chunkMax..], chunkMax);
      assert data == data[..chunkMax] + data[chunkMax..];
    }
  }

  /** The first k parts, and their length. */
  function Sent(parts: seq<seq<byte>>, k: nat): seq<byte>
    requires k <= |parts|
  {
    if k == 0 then [] else Sent(parts, k - 1) + parts[k - 1]
  }

  function Off(parts: seq<seq<byte>>, k: nat): nat
    requires k <= |parts|
  {
    if k == 0 then 0 else Off(parts, k - 1) + |parts[k - 1]|
  }

  lemma {:induction false} OffIncreases(parts: seq<seq<byte>>, j: nat, k: nat)
    requires j <= k <= |parts| && forall i :: 0 <= i < |parts| ==> parts[i] != []
    ensures Off(parts, j) <= Off(parts, k) && (j < k ==> Off(parts, j) < Off(parts, k))
    decreases k
  {
    if j < k {
      OffIncreases(parts, j, k - 1);
    }
  }

  lemma {:induction false} SentLength(parts: seq<seq<byte>>, k: nat)
    requires k <= |parts|
    ensures |Sent(parts, k)| == Off(parts, k)
  {
    if k > 0 {
      SentLength(parts, k - 1);
    }
  }

  lemma {:induction false} SentConcat(parts: seq<seq<byte>>, k: nat)
    requires k <= |parts|
    ensures Sent(parts, k) == Concat(parts[..k])
  {
    if k > 0 {
      SentConcat(parts, k - 1);
      assert parts[..k] == parts[..k - 1] + [parts[k - 1]];
      ConcatAppend(parts[..k - 1], [parts[k - 1]]);
      ConcatOne(parts[k - 1]);
    }
  }

  /** Offsets name parts. */
  lemma SameOffset(parts: seq<seq<byte>>, j: nat, k: nat)
    requires j <= |parts| && k <= |parts| && forall i :: 0 <= i < |parts| ==> parts[i] != []
    ensures Off(parts, j) <= Off(parts, k) <==> j <= k
  {
    OffIncreases(parts, if j <= k then j else k, if j <= k then k else j);
  }

  lemma {:induction false} SentPrefix(parts: seq<seq<byte>>, j: nat, k: nat)
    requires j <= k <= |parts|
    ensures Sent(parts, j) <= Sent(parts, k)
    decreases k
  {
    if j < k {
      SentPrefix(parts, j, k - 1);
    }
  }
}
