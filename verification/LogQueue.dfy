/** What the log ring means: one sequence of records with two cursors into it. Everything from the history
    cursor on is kept for a core dump, everything from the live cursor on waits for the link, and both cursors
    give way, oldest record first, when a new record needs the room. */
module LogQueue {
  import opened Arithmetic
  import opened Bytes

  const HEADER: nat := 12
  const DATA_MAX: nat := 240
  const MIN_CAPACITY: nat := 2048
  const WIRE_OVERHEAD: nat := 16

  datatype LogRecord = LogRecord(time: u64, source: byte, flags: byte, data: seq<byte>)

  type Record = r: LogRecord | |r.data| <= DATA_MAX witness LogRecord(0, 0, 0, [])

  function SizeOf(r: Record): nat {
    HEADER + |r.data|
  }

  /** The ring bytes of the first i records. */
  function Position(all: seq<Record>, i: nat): nat
    requires i <= |all|
  {
    if i == 0 then 0 else Position(all, i - 1) + SizeOf(all[i - 1])
  }

  /** The payload bytes of the first i records. */
  function Payload(all: seq<Record>, i: nat): nat
    requires i <= |all|
  {
    if i == 0 then 0 else Payload(all, i - 1) + |all[i - 1].data|
  }

  /** The ring bytes of the records from i on. */
  function Held(all: seq<Record>, i: nat): int
    requires i <= |all|
  {
    Position(all, |all|) - Position(all, i)
  }

  /** The first cursor from which the records fit. */
  function Cut(all: seq<Record>, from: nat, room: nat): (k: nat)
    requires from <= |all|
    ensures from <= k <= |all| && Held(all, k) <= room
    ensures forall i :: from <= i < k ==> Held(all, i) > room
    decreases |all| - from
  {
    if from == |all| || Held(all, from) <= room then from else Cut(all, from + 1, room)
  }

  datatype Queue = Queue(all: seq<Record>, historyFrom: nat, liveFrom: nat, dropped: nat) {
    predicate Valid(capacity: nat) {
      historyFrom <= liveFrom <= |all| && Held(all, historyFrom) <= capacity
    }

    predicate CanTake(budget: nat)
      requires liveFrom <= |all|
    {
      liveFrom < |all| && WIRE_OVERHEAD + |all[liveFrom].data| <= budget
    }
  }

  const EMPTY: Queue := Queue([], 0, 0, 0)

  /** The live cursor gives way to leave room, and what it passes counts as dropped. */
  function CutLive(q: Queue, room: nat): Queue
    requires q.liveFrom <= |q.all|
  {
    var from := Cut(q.all, q.liveFrom, room);
    PayloadMonotone(q.all, q.liveFrom, from);
    q.(liveFrom := from, dropped := q.dropped + Payload(q.all, from) - Payload(q.all, q.liveFrom))
  }

  function CutHistory(q: Queue, room: nat): Queue
    requires q.historyFrom <= |q.all|
  {
    q.(historyFrom := Cut(q.all, q.historyFrom, room))
  }

  function Offer(q: Queue, r: Record, capacity: nat): Queue
    requires capacity >= MIN_CAPACITY && q.Valid(capacity)
  {
    var room := capacity - SizeOf(r);
    var cut := CutHistory(CutLive(q, room), room);
    cut.(all := q.all + [r])
  }

  function Take(q: Queue, budget: nat): Queue
    requires q.liveFrom <= |q.all|
  {
    if q.CanTake(budget) then q.(liveFrom := q.liveFrom + 1) else q
  }

  lemma {:induction false} PayloadMonotone(all: seq<Record>, i: nat, j: nat)
    requires i <= j <= |all|
    ensures Payload(all, i) <= Payload(all, j)
    ensures Position(all, i) <= Position(all, j)
    decreases j
  {
    if i < j {
      PayloadMonotone(all, i, j - 1);
    }
  }

  lemma {:induction false} Grow(all: seq<Record>, r: Record, i: nat)
    requires i <= |all|
    ensures Position(all + [r], i) == Position(all, i) && Payload(all + [r], i) == Payload(all, i)
  {
    if i > 0 {
      Grow(all, r, i - 1);
    }
  }

  lemma OfferValid(q: Queue, r: Record, capacity: nat)
    requires capacity >= MIN_CAPACITY && q.Valid(capacity)
    ensures Offer(q, r, capacity).Valid(capacity)
  {
    var after := Offer(q, r, capacity);
    Grow(q.all, r, |q.all|);
    Grow(q.all, r, after.historyFrom);
  }

  // -------------------------------------------------------------- whole runs

  datatype Event = Offered(r: Record) | Polled(budget: nat)

  /** A run with its record: the index of every record taken and the dropped total that went out with it. */
  datatype Journal = Journal(q: Queue, taken: seq<nat>, totals: seq<nat>)

  function Step(j: Journal, e: Event, capacity: nat): Journal
    requires capacity >= MIN_CAPACITY && j.q.Valid(capacity)
  {
    match e
    case Offered(r) => j.(q := Offer(j.q, r, capacity))
    case Polled(budget) =>
      if j.q.CanTake(budget) then
        Journal(Take(j.q, budget), j.taken + [j.q.liveFrom], j.totals + [j.q.dropped])
      else j
  }

  function Run(j: Journal, events: seq<Event>, capacity: nat): Journal
    requires capacity >= MIN_CAPACITY && j.q.Valid(capacity)
    decreases |events|
  {
    if events == [] then j
    else
      StepValid(j, events[0], capacity);
      Run(Step(j, events[0], capacity), events[1..], capacity)
  }

  lemma StepValid(j: Journal, e: Event, capacity: nat)
    requires capacity >= MIN_CAPACITY && j.q.Valid(capacity)
    ensures Step(j, e, capacity).q.Valid(capacity)
  {
    if e.Offered? {
      OfferValid(j.q, e.r, capacity);
    }
  }

  /** Records are taken in the order offered, none twice, and none that is still live. */
  predicate InOrder(taken: seq<nat>, liveFrom: nat) {
    && (forall k :: 0 <= k < |taken| ==> taken[k] < liveFrom)
    && forall a, b :: 0 <= a < b < |taken| ==> taken[a] < taken[b]
  }

  /** The payload of the first k records taken. */
  function TakenPayload(all: seq<Record>, taken: seq<nat>, k: nat): nat
    requires k <= |taken| && forall i :: 0 <= i < |taken| ==> taken[i] < |all|
  {
    if k == 0 then 0 else TakenPayload(all, taken, k - 1) + |all[taken[k - 1]].data|
  }

  /** The dropped counter is exactly the payload offered that is neither taken nor live, and the total sent
      with a record is exactly the payload lost before that record. */
  predicate Accounted(j: Journal)
    requires j.q.liveFrom <= |j.q.all| && InOrder(j.taken, j.q.liveFrom)
  {
    && j.q.dropped == Payload(j.q.all, j.q.liveFrom) - TakenPayload(j.q.all, j.taken, |j.taken|)
    && |j.totals| == |j.taken|
    && forall k {:trigger j.totals[k]} :: 0 <= k < |j.taken| ==>
         j.totals[k] == Payload(j.q.all, j.taken[k]) - TakenPayload(j.q.all, j.taken, k)
  }

  predicate Sound(j: Journal, capacity: nat) {
    j.q.Valid(capacity) && InOrder(j.taken, j.q.liveFrom) && Accounted(j)
  }

  lemma {:induction false} TakenGrow(all: seq<Record>, r: Record, taken: seq<nat>, k: nat)
    requires k <= |taken| && forall i :: 0 <= i < |taken| ==> taken[i] < |all|
    ensures TakenPayload(all + [r], taken, k) == TakenPayload(all, taken, k)
  {
    if k > 0 {
      TakenGrow(all, r, taken, k - 1);
    }
  }

  lemma {:induction false} TakenPush(all: seq<Record>, taken: seq<nat>, next: nat, k: nat)
    requires k <= |taken| && next < |all| && forall i :: 0 <= i < |taken| ==> taken[i] < |all|
    ensures TakenPayload(all, taken + [next], k) == TakenPayload(all, taken, k)
  {
    if k > 0 {
      TakenPush(all, taken, next, k - 1);
    }
  }

  lemma OfferSound(j: Journal, r: Record, capacity: nat)
    requires capacity >= MIN_CAPACITY && Sound(j, capacity)
    ensures Sound(Step(j, Offered(r), capacity), capacity)
  {
    var after := Step(j, Offered(r), capacity);
    OfferValid(j.q, r, capacity);
    Grow(j.q.all, r, after.q.liveFrom);
    TakenGrow(j.q.all, r, j.taken, |j.taken|);
    forall k {:trigger after.totals[k]} | 0 <= k < |j.taken|
      ensures after.totals[k] == Payload(after.q.all, after.taken[k]) - TakenPayload(after.q.all, after.taken, k)
    {
      Grow(j.q.all, r, j.taken[k]);
      TakenGrow(j.q.all, r, j.taken, k);
    }
  }

  lemma PollSound(j: Journal, budget: nat, capacity: nat)
    requires capacity >= MIN_CAPACITY && Sound(j, capacity)
    ensures Sound(Step(j, Polled(budget), capacity), capacity)
  {
    if j.q.CanTake(budget) {
      var after := Step(j, Polled(budget), capacity);
      TakenPush(j.q.all, j.taken, j.q.liveFrom, |j.taken|);
      forall k {:trigger after.totals[k]} | 0 <= k < |after.taken|
        ensures after.totals[k] == Payload(after.q.all, after.taken[k]) - TakenPayload(after.q.all, after.taken, k)
      {
        TakenPush(j.q.all, j.taken, j.q.liveFrom, k);
      }
    }
  }

  /** Through every interleaving of writes and pops. */
  lemma {:induction false} RunSound(j: Journal, events: seq<Event>, capacity: nat)
    requires capacity >= MIN_CAPACITY && Sound(j, capacity)
    ensures Sound(Run(j, events, capacity), capacity)
    decreases |events|
  {
    if events != [] {
      match events[0] {
        case Offered(r) => OfferSound(j, r, capacity);
        case Polled(budget) => PollSound(j, budget, capacity);
      }
      RunSound(Step(j, events[0], capacity), events[1..], capacity);
    }
  }

  /** The bytes of the records between two that were received one after the other. */
  function Gap(j: Journal, k: nat): nat
    requires j.q.liveFrom <= |j.q.all| && InOrder(j.taken, j.q.liveFrom) && k + 1 < |j.taken|
  {
    PayloadMonotone(j.q.all, j.taken[k] + 1, j.taken[k + 1]);
    Payload(j.q.all, j.taken[k + 1]) - Payload(j.q.all, j.taken[k] + 1)
  }

  /** A reader sees every loss: between two records it receives one after the other, the 32-bit dropped totals it
      is sent rise, modulo 2^32, by exactly the payload of the records it did not receive. */
  lemma GapsVisible(j: Journal, capacity: nat, k: nat)
    requires Sound(j, capacity) && k + 1 < |j.taken|
    ensures j.totals[k + 1] == j.totals[k] + Gap(j, k)
    ensures (j.totals[k + 1] % CIRCLE - j.totals[k] % CIRCLE) % CIRCLE == Gap(j, k) % CIRCLE
    ensures Gap(j, k) < CIRCLE ==> (j.totals[k + 1] % CIRCLE - j.totals[k] % CIRCLE) % CIRCLE == Gap(j, k)
  {
    assert j.totals[k] == Payload(j.q.all, j.taken[k]) - TakenPayload(j.q.all, j.taken, k);
    assert j.totals[k + 1] == Payload(j.q.all, j.taken[k + 1]) - TakenPayload(j.q.all, j.taken, k + 1);
    assert j.totals[k + 1] == j.totals[k] + Gap(j, k);
    ModDifference(j.totals[k + 1], j.totals[k]);
  }

  /** The records offered. */
  function Offers(events: seq<Event>): seq<Record> {
    if events == [] then []
    else (if events[0].Offered? then [events[0].r] else []) + Offers(events[1..])
  }

  /** Every record offered goes into the history, in order, and is live at first. */
  lemma {:induction false} EveryOfferKept(j: Journal, events: seq<Event>, capacity: nat)
    requires capacity >= MIN_CAPACITY && j.q.Valid(capacity)
    ensures Run(j, events, capacity).q.all == j.q.all + Offers(events)
    decreases |events|
  {
    if events == [] {
      assert j.q.all + [] == j.q.all;
    } else {
      StepValid(j, events[0], capacity);
      EveryOfferKept(Step(j, events[0], capacity), events[1..], capacity);
      assert j.q.all + [] == j.q.all;
      if events[0].Offered? {
        Assoc(j.q.all, [events[0].r], Offers(events[1..]));
      }
    }
  }

  lemma NewestLive(q: Queue, r: Record, capacity: nat)
    requires capacity >= MIN_CAPACITY && q.Valid(capacity)
    ensures Offer(q, r, capacity).liveFrom < |Offer(q, r, capacity).all|
  {
  }

  function Polls(budget: nat, n: nat): seq<Event> {
    seq(n, i => Polled(budget))
  }

  /** With a budget for the largest record, polling takes every live record, one after the other. */
  lemma {:induction false} PollsDrain(j: Journal, budget: nat, n: nat, capacity: nat)
    requires capacity >= MIN_CAPACITY && j.q.Valid(capacity) && budget >= WIRE_OVERHEAD + DATA_MAX
    requires j.q.liveFrom + n <= |j.q.all|
    ensures var end := Run(j, Polls(budget, n), capacity);
            && end.q == j.q.(liveFrom := j.q.liveFrom + n)
            && end.taken == j.taken + seq(n, i => j.q.liveFrom + i)
    decreases n
  {
    var events := Polls(budget, n);
    if n == 0 {
      assert j.taken + [] == j.taken;
    } else {
      var next := Step(j, events[0], capacity);
      StepValid(j, events[0], capacity);
      assert events[1..] == Polls(budget, n - 1);
      PollsDrain(next, budget, n - 1, capacity);
      assert seq(n, i => j.q.liveFrom + i) == [j.q.liveFrom] + seq(n - 1, i => next.q.liveFrom + i);
      Assoc(j.taken, [j.q.liveFrom], seq(n - 1, i => next.q.liveFrom + i));
    }
  }

  /** And a record that does not fit the budget stays, with all behind it. */
  lemma SmallBudgetWaits(j: Journal, budget: nat, capacity: nat)
    requires capacity >= MIN_CAPACITY && j.q.Valid(capacity)
    ensures j.q.liveFrom == |j.q.all| || budget < WIRE_OVERHEAD + |j.q.all[j.q.liveFrom].data| ==>
              Step(j, Polled(budget), capacity) == j && Take(j.q, budget) == j.q
  {
  }
}
