/** Serial number acceptance (section 3.2 of RFC 1982): each side keeps, for every channel, the last sequence
    number it accepted, and takes only what is ahead of it by less than half the circle. */
module Serial {
  import opened Arithmetic
  import opened Bytes

  const HALF: nat := 0x8000_0000
  const CHANNELS: nat := 10

  /** The gateway's check and the firmware's, which differ only in how they remember that nothing came yet. */
  predicate Accepts(last: Option<u32>, sequence: u32) {
    last.None? || 0 < (sequence - last.value) % CIRCLE < HALF
  }

  /** The n-th frame of a sender whose counter started at base. */
  function Number(base: nat, n: nat): u32 {
    (base + n) % CIRCLE
  }

  /** What a receiver has accepted of the frames that arrived, given by their true indices. */
  function Accepted(base: nat, last: Option<u32>, arrivals: seq<nat>): seq<nat>
    decreases |arrivals|
  {
    if arrivals == [] then []
    else if Accepts(last, Number(base, arrivals[0])) then
      [arrivals[0]] + Accepted(base, Some(Number(base, arrivals[0])), arrivals[1..])
    else Accepted(base, last, arrivals[1..])
  }

  /** No arrival is as far as half the circle from the newest frame accepted before it. */
  predicate Near(top: Option<nat>, arrivals: seq<nat>)
    decreases |arrivals|
  {
    arrivals == [] ||
    (var a := arrivals[0];
     && (top.Some? ==> a < top.value + HALF && top.value < a + HALF)
     && Near(if top.None? || a > top.value then Some(a) else top, arrivals[1..]))
  }

  /** The maxima of a sequence as it goes: what an oracle that sees the true indices would accept. */
  function Records(top: Option<nat>, arrivals: seq<nat>): seq<nat>
    decreases |arrivals|
  {
    if arrivals == [] then []
    else if top.None? || arrivals[0] > top.value then [arrivals[0]] + Records(Some(arrivals[0]), arrivals[1..])
    else Records(top, arrivals[1..])
  }

  lemma ModStep(x: int)
    requires -(HALF as int) < x < HALF
    ensures 0 < x % CIRCLE < HALF <==> 0 < x
  {
  }

  lemma Distance(base: nat, a: nat, top: nat)
    ensures (Number(base, a) - Number(base, top)) % CIRCLE == (a - top) % CIRCLE
  {
    var p, q := base + a, base + top;
    ModDifference(p, q);
    assert p - q == a - top;
  }

  /** Through any loss, duplication and reordering that stays near, wrap-around or not, the receiver accepts
      exactly what the oracle would. */
  lemma {:induction false} AcceptsRecords(base: nat, top: Option<nat>, arrivals: seq<nat>)
    requires Near(top, arrivals)
    ensures Accepted(base, if top.None? then None else Some(Number(base, top.value)), arrivals)
         == Records(top, arrivals)
    decreases |arrivals|
  {
    if arrivals != [] {
      var a := arrivals[0];
      if top.Some? {
        Distance(base, a, top.value);
        ModStep(a - top.value);
      }
      AcceptsRecords(base, if top.None? || a > top.value then Some(a) else top, arrivals[1..]);
    }
  }

  predicate Increasing(s: seq<nat>) {
    forall i, j :: 0 <= i < j < |s| ==> s[i] < s[j]
  }

  lemma {:induction false} RecordsIncrease(top: Option<nat>, arrivals: seq<nat>)
    ensures Increasing(Records(top, arrivals))
    ensures top.Some? ==> forall x :: x in Records(top, arrivals) ==> top.value < x
    decreases |arrivals|
  {
    if arrivals != [] {
      var a := arrivals[0];
      if top.None? || a > top.value {
        RecordsIncrease(Some(a), arrivals[1..]);
        var rest := Records(Some(a), arrivals[1..]);
        assert forall k :: 0 <= k < |rest| ==> rest[k] in rest;
        assert Increasing([a] + rest);
      } else {
        RecordsIncrease(top, arrivals[1..]);
      }
    }
  }

  /** So the frames accepted on a channel are in their true order and none is accepted twice. */
  lemma AcceptedInOrder(base: nat, arrivals: seq<nat>, i: nat, j: nat)
    requires Near(None, arrivals) && i < j < |Accepted(base, None, arrivals)|
    ensures Accepted(base, None, arrivals)[i] < Accepted(base, None, arrivals)[j]
  {
    AcceptsRecords(base, None, arrivals);
    RecordsIncrease(None, arrivals);
  }

  /** A frame sent after all that arrived is accepted: in-order traffic is never refused. */
  lemma FreshAccepted(base: nat, top: nat, a: nat)
    requires top < a < top + HALF
    ensures Accepts(Some(Number(base, top)), Number(base, a))
  {
    Distance(base, a, top);
    ModStep(a - top);
  }

  /** And half the circle is the limit: a frame that far ahead is refused, although it is new. */
  lemma TooFarRefused(base: nat, top: nat)
    ensures !Accepts(Some(Number(base, top)), Number(base, top + HALF))
  {
    Distance(base, top + HALF, top);
  }

  /** The firmware's counters, one per channel. */
  class Counters {
    const last: array<u32>
    const seen: array<bool>

    ghost predicate Valid()
      reads this, last, seen
    {
      last.Length == CHANNELS && seen.Length == CHANNELS
    }

    function Last(channel: nat): Option<u32>
      requires Valid() && channel < CHANNELS
      reads this, last, seen
    {
      if seen[channel] then Some(last[channel]) else None
    }

    constructor ()
      ensures Valid() && forall c :: 0 <= c < CHANNELS ==> Last(c) == None
      ensures fresh(last) && fresh(seen)
    {
      last, seen := new u32[CHANNELS](_ => 0), new bool[CHANNELS](_ => false);
    }

    /** What the n-th check leaves: only the channel of an accepted frame moves. */
    method Check(channel: nat, sequence: u32) returns (ok: bool)
      requires Valid() && channel < CHANNELS
      modifies last, seen
      ensures Valid() && ok == Accepts(old(Last(channel)), sequence)
      ensures Last(channel) == if ok then Some(sequence) else old(Last(channel))
      ensures forall c :: 0 <= c < CHANNELS && c != channel ==> Last(c) == old(Last(c))
    {
      var distance := (sequence - last[channel]) % CIRCLE;
      if seen[channel] && (distance == 0 || distance >= HALF) {
        return false;
      }
      last[channel] := sequence;
      seen[channel] := true;
      ok := true;
    }
  }
}
