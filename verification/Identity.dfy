/** What makes two requests the same: a canonical form of their parameters, blind to the order of dictionary
    entries, to the difference between lists and tuples, and to bytes beyond their length and digest. */
module Identity {
  import opened Bytes

  /** Parameter values; floats are their decimal texts. */
  datatype Value = Null | Boolean(b: bool) | Integer(n: int) | Float(text: string) | Str(s: string)
                 | Blob(data: seq<byte>) | List(items: seq<Value>) | Tuple(items: seq<Value>)
                 | Dict(entries: seq<(string, Value)>)

  /** The nested lists that are then written as JSON. */
  datatype Json = JNull | JBool(b: bool) | JInt(n: int) | JFloat(text: string) | JStr(s: string)
                | JList(items: seq<Json>)

  predicate Less(a: string, b: string) {
    b != [] && (a == [] || a[0] < b[0] || (a[0] == b[0] && Less(a[1..], b[1..])))
  }

  lemma {:induction false} LessTotal(a: string, b: string)
    ensures a == b || Less(a, b) || Less(b, a)
  {
    if a != [] && b != [] && a[0] == b[0] {
      LessTotal(a[1..], b[1..]);
      assert a[1..] == b[1..] ==> a == [a[0]] + a[1..] == [b[0]] + b[1..] == b;
    }
  }

  lemma {:induction false} LessTransitive(a: string, b: string, c: string)
    requires Less(a, b) && Less(b, c)
    ensures Less(a, c)
  {
    if a != [] && a[0] == b[0] == c[0] {
      LessTransitive(a[1..], b[1..], c[1..]);
    }
  }

  predicate Smallest(keys: set<string>, k: string) {
    k in keys && forall other :: other in keys ==> other == k || Less(k, other)
  }

  lemma {:induction false} SmallestExists(keys: set<string>)
    requires keys != {}
    ensures exists k :: Smallest(keys, k)
    decreases keys
  {
    var k :| k in keys;
    var rest := keys - {k};
    if rest == {} {
      assert keys == {k};
      assert Smallest(keys, k);
    } else {
      SmallestExists(rest);
      var m :| Smallest(rest, m);
      LessTotal(k, m);
      forall other | other in keys && Less(k, m) ensures other == k || Less(k, other) {
        if other != k && other != m {
          LessTransitive(k, m, other);
        }
      }
      assert Smallest(keys, if Less(k, m) then k else m);
    }
  }

  /** The keys in ascending order. */
  ghost function Sorted(keys: set<string>): (r: seq<string>)
    ensures forall k :: k in keys <==> k in r
    decreases keys
  {
    if keys == {} then []
    else
      SmallestExists(keys);
      var k :| Smallest(keys, k);
      [k] + Sorted(keys - {k})
  }

  function Keys<T(==)>(entries: seq<(string, T)>): set<string> {
    set e | e in entries :: e.0
  }

  /** The value of a key; keys are distinct. */
  function Find<T(==)>(entries: seq<(string, T)>, key: string): (v: T)
    requires key in Keys(entries)
    ensures (key, v) in entries
  {
    if entries[0].0 == key then entries[0].1
    else
      assert key in Keys(entries[1..]) by {
        var e :| e in entries && e.0 == key;
        assert e in entries[1..];
      }
      Find(entries[1..], key)
  }

  ghost function Canonical(v: Value, digest: seq<byte> -> string): Json
    decreases v, 1
  {
    match v
    case Null => JList([JStr("NoneType"), JNull])
    case Boolean(b) => JList([JStr("bool"), JBool(b)])
    case Integer(n) => JList([JStr("int"), JInt(n)])
    case Float(text) => JList([JStr("float"), JFloat(text)])
    case Str(s) => JList([JStr("str"), JStr(s)])
    case Blob(data) => JList([JStr("bytes"), JInt(|data|), JStr(digest(data))])
    case List(items) => JList([JStr("array"), JList(CanonicalItems(items, digest))])
    case Tuple(items) => JList([JStr("array"), JList(CanonicalItems(items, digest))])
    case Dict(entries) =>
      JList([JStr("object"), JList(Pairs(Sorted(Keys(entries)), CanonicalEntries(v, |entries|, digest)))])
  }

  ghost function CanonicalItems(items: seq<Value>, digest: seq<byte> -> string): (r: seq<Json>)
    ensures |r| == |items| && forall i :: 0 <= i < |items| ==> r[i] == Canonical(items[i], digest)
    decreases items, 0
  {
    if items == [] then [] else [Canonical(items[0], digest)] + CanonicalItems(items[1..], digest)
  }

  /** The first n entries. */
  ghost function CanonicalEntries(v: Value, n: nat, digest: seq<byte> -> string): (r: seq<(string, Json)>)
    requires v.Dict? && n <= |v.entries|
    ensures |r| == n && forall i :: 0 <= i < n ==> r[i] == (v.entries[i].0, Canonical(v.entries[i].1, digest))
    decreases v, 0, n
  {
    if n == 0 then []
    else CanonicalEntries(v, n - 1, digest) + [(v.entries[n - 1].0, Canonical(v.entries[n - 1].1, digest))]
  }

  /** A key that is no entry's is paired with null; there is none. */
  function Pairs(keys: seq<string>, entries: seq<(string, Json)>): (r: seq<Json>)
    ensures |r| == |keys|
    ensures forall i :: 0 <= i < |keys| ==>
              r[i] == JList([JStr(keys[i]), if keys[i] in Keys(entries) then Find(entries, keys[i]) else JNull])
  {
    if keys == [] then []
    else
      [JList([JStr(keys[0]), if keys[0] in Keys(entries) then Find(entries, keys[0]) else JNull])]
      + Pairs(keys[1..], entries)
  }

  /** Keys are distinct, at every depth. */
  predicate Proper(v: Value) {
    match v
    case List(items) => forall i :: 0 <= i < |items| ==> Proper(items[i])
    case Tuple(items) => forall i :: 0 <= i < |items| ==> Proper(items[i])
    case Dict(entries) =>
      && (forall i :: 0 <= i < |entries| ==> Proper(entries[i].1))
      && (forall i, j :: 0 <= i < j < |entries| ==> entries[i].0 != entries[j].0)
    case _ => true
  }

  /** The same parameters, as far as a request is concerned. */
  predicate Agree(a: Value, b: Value, digest: seq<byte> -> string)
    decreases a
  {
    match a
    case List(items) => AgreeItems(a, b, digest)
    case Tuple(items) => AgreeItems(a, b, digest)
    case Blob(data) => b.Blob? && |data| == |b.data| && digest(data) == digest(b.data)
    case Dict(entries) =>
      && b.Dict? && Keys(entries) == Keys(b.entries)
      && forall i, j :: 0 <= i < |entries| && 0 <= j < |b.entries| && entries[i].0 == b.entries[j].0 ==>
           Agree(entries[i].1, b.entries[j].1, digest)
    case _ => a == b
  }

  predicate AgreeItems(a: Value, b: Value, digest: seq<byte> -> string)
    requires a.List? || a.Tuple?
    decreases a, 0
  {
    && (b.List? || b.Tuple?) && |a.items| == |b.items|
    && forall i :: 0 <= i < |a.items| ==> Agree(a.items[i], b.items[i], digest)
  }

  // -------------------------------------------------------------------- main result

  ghost predicate SameForm(a: Value, b: Value, digest: seq<byte> -> string) {
    Canonical(a, digest) == Canonical(b, digest)
  }

  lemma {:induction false} AgreeIffSameForm(a: Value, b: Value, digest: seq<byte> -> string)
    requires Proper(a) && Proper(b)
    ensures Agree(a, b, digest) <==> SameForm(a, b, digest)
    decreases a
  {
    match a
    case List(items) => ItemsAgree(a, b, digest);
    case Tuple(items) => ItemsAgree(a, b, digest);
    case Dict(entries) => EntriesAgree(a, b, digest);
    case _ =>
  }

  lemma {:induction false} ItemsAgree(a: Value, b: Value, digest: seq<byte> -> string)
    requires Proper(a) && Proper(b) && (a.List? || a.Tuple?)
    ensures Agree(a, b, digest) <==> SameForm(a, b, digest)
    decreases a, 0
  {
    if b.List? || b.Tuple? {
      var x, y := CanonicalItems(a.items, digest), CanonicalItems(b.items, digest);
      assert Canonical(a, digest) == JList([JStr("array"), JList(x)]);
      assert Canonical(b, digest) == JList([JStr("array"), JList(y)]);
      forall i | 0 <= i < |a.items| && i < |b.items|
        ensures Agree(a.items[i], b.items[i], digest) <==> x[i] == y[i]
      {
        AgreeIffSameForm(a.items[i], b.items[i], digest);
      }
      assert Canonical(a, digest).items[1].items == x && Canonical(b, digest).items[1].items == y;
      assert x == y <==> |x| == |y| && forall i :: 0 <= i < |x| ==> x[i] == y[i];
    } else {
      assert Canonical(a, digest).items[0] == JStr("array");
    }
  }

  /** A dictionary's pairs, key by key, whatever the order of its entries. */
  lemma PairOf(v: Value, i: nat, digest: seq<byte> -> string)
    requires v.Dict? && Proper(v) && i < |v.entries|
    ensures var forms := CanonicalEntries(v, |v.entries|, digest);
            v.entries[i].0 in Keys(forms) && Find(forms, v.entries[i].0) == Canonical(v.entries[i].1, digest)
  {
    var forms := CanonicalEntries(v, |v.entries|, digest);
    assert forms[i] in forms;
    var found := Find(forms, v.entries[i].0);
    var j :| 0 <= j < |forms| && forms[j] == (v.entries[i].0, found);
    assert v.entries[j].0 == v.entries[i].0;
  }

  ghost function PairsOf(v: Value, digest: seq<byte> -> string): seq<Json>
    requires v.Dict?
  {
    Pairs(Sorted(Keys(v.entries)), CanonicalEntries(v, |v.entries|, digest))
  }

  /** Equal pairs have equal keys. */
  lemma PairsKeys(a: Value, b: Value, digest: seq<byte> -> string)
    requires a.Dict? && b.Dict? && PairsOf(a, digest) == PairsOf(b, digest)
    ensures Keys(a.entries) == Keys(b.entries)
  {
    var x, y := Sorted(Keys(a.entries)), Sorted(Keys(b.entries));
    forall m | 0 <= m < |x| ensures x[m] == y[m] {
      assert PairsOf(a, digest)[m].items[0] == JStr(x[m]);
      assert PairsOf(b, digest)[m].items[0] == JStr(y[m]);
    }
    assert x == y;
    assert forall k :: k in Keys(a.entries) <==> k in x;
  }

  lemma PairAt(v: Value, i: nat, m: nat, digest: seq<byte> -> string)
    requires v.Dict? && Proper(v) && i < |v.entries| && m < |Sorted(Keys(v.entries))|
    requires Sorted(Keys(v.entries))[m] == v.entries[i].0
    ensures PairsOf(v, digest)[m] == JList([JStr(v.entries[i].0), Canonical(v.entries[i].1, digest)])
  {
    PairOf(v, i, digest);
  }

  lemma DictForms(a: Value, b: Value, digest: seq<byte> -> string)
    requires a.Dict?
    ensures SameForm(a, b, digest) <==> b.Dict? && PairsOf(a, digest) == PairsOf(b, digest)
  {
    assert Canonical(a, digest).items[0] == JStr("object");
    assert Canonical(a, digest).items[1].items == PairsOf(a, digest);
    if b.Dict? {
      assert Canonical(b, digest).items[1].items == PairsOf(b, digest);
    }
  }

  /** Dictionaries with the same pairs are those with the same keys and, key by key, the same forms. */
  lemma PairsIffValues(a: Value, b: Value, digest: seq<byte> -> string)
    requires Proper(a) && Proper(b) && a.Dict? && b.Dict?
    ensures PairsOf(a, digest) == PairsOf(b, digest)
       <==> Keys(a.entries) == Keys(b.entries) && SameValues(a, b, digest)
  {
    if PairsOf(a, digest) == PairsOf(b, digest) {
      PairsKeys(a, b, digest);
      ValuesFromPairs(a, b, digest);
    } else if Keys(a.entries) == Keys(b.entries) && SameValues(a, b, digest) {
      PairsFromValues(a, b, digest);
    }
  }

  lemma {:induction false} EntriesAgree(a: Value, b: Value, digest: seq<byte> -> string)
    requires Proper(a) && Proper(b) && a.Dict?
    ensures Agree(a, b, digest) <==> SameForm(a, b, digest)
    decreases a, 0
  {
    DictForms(a, b, digest);
    if b.Dict? {
      PairsIffValues(a, b, digest);
      forall i, j | 0 <= i < |a.entries| && 0 <= j < |b.entries| && a.entries[i].0 == b.entries[j].0
        ensures Agree(a.entries[i].1, b.entries[j].1, digest)
           <==> Canonical(a.entries[i].1, digest) == Canonical(b.entries[j].1, digest)
      {
        AgreeIffSameForm(a.entries[i].1, b.entries[j].1, digest);
      }
    }
  }

  ghost predicate SameValues(a: Value, b: Value, digest: seq<byte> -> string)
    requires a.Dict? && b.Dict?
  {
    forall i, j :: 0 <= i < |a.entries| && 0 <= j < |b.entries| && a.entries[i].0 == b.entries[j].0 ==>
      Canonical(a.entries[i].1, digest) == Canonical(b.entries[j].1, digest)
  }

  lemma ValuesFromPairs(a: Value, b: Value, digest: seq<byte> -> string)
    requires Proper(a) && Proper(b) && a.Dict? && b.Dict? && Keys(a.entries) == Keys(b.entries)
    requires PairsOf(a, digest) == PairsOf(b, digest)
    ensures SameValues(a, b, digest)
  {
    var keys := Sorted(Keys(a.entries));
    forall i, j | 0 <= i < |a.entries| && 0 <= j < |b.entries| && a.entries[i].0 == b.entries[j].0
      ensures Canonical(a.entries[i].1, digest) == Canonical(b.entries[j].1, digest)
    {
      assert a.entries[i] in a.entries && a.entries[i].0 in keys;
      var m: nat :| m < |keys| && keys[m] == a.entries[i].0;
      PairAt(a, i, m, digest);
      PairAt(b, j, m, digest);
    }
  }

  lemma PairsFromValues(a: Value, b: Value, digest: seq<byte> -> string)
    requires Proper(a) && Proper(b) && a.Dict? && b.Dict? && Keys(a.entries) == Keys(b.entries)
    requires SameValues(a, b, digest)
    ensures PairsOf(a, digest) == PairsOf(b, digest)
  {
    var keys := Sorted(Keys(a.entries));
    forall m: nat | m < |keys| ensures PairsOf(a, digest)[m] == PairsOf(b, digest)[m] {
      assert keys[m] in Keys(a.entries) && keys[m] in Keys(b.entries);
      var i: nat :| i < |a.entries| && a.entries[i].0 == keys[m];
      var j: nat :| j < |b.entries| && b.entries[j].0 == keys[m];
      PairAt(a, i, m, digest);
      PairAt(b, j, m, digest);
    }
  }

  /** With a hash that tells forms apart, two requests have the same fingerprint exactly when they agree. */
  lemma FingerprintsMatchIff(a: Value, b: Value, digest: seq<byte> -> string, hash: Json -> string)
    requires Proper(a) && Proper(b)
    requires forall x, y :: hash(x) == hash(y) ==> x == y
    ensures hash(Canonical(a, digest)) == hash(Canonical(b, digest)) <==> Agree(a, b, digest)
  {
    AgreeIffSameForm(a, b, digest);
  }
}
