/** Who owns the device: several transports wait for a client, one at a time is claimed, round robin, and the
    claim becomes the owner when the client has authenticated its session. */
module Transport {
  import opened Arithmetic
  import opened Bytes

  datatype Session = Disconnected | Negotiating | Ready

  datatype LinkEvent = NoEvent | LinkUp | LinkDown

  /** The claimed transport, whether the claim is committed, its deadline, where the next scan starts, which
      drivers run, until when each is not to be claimed again, and the session. */
  datatype Link = Link(active: Option<nat>, committed: bool, deadline: int, scanStart: nat, started: seq<bool>,
                       retryAfter: seq<int>, session: Session) {
    predicate Valid() {
      && 0 < |started| == |retryAfter| && scanStart < |started|
      && (active.Some? ==> active.value < |started|)
    }
  }

  /** One poll's surroundings: the time, which drivers start, which have a connected client, whether the claimed
      one reports that its client left, and which must wait after a failed claim. */
  datatype World = World(now: int, starts: nat -> bool, connected: nat -> bool, left: bool, waits: nat -> bool)

  const CLAIM_US: int := 2000 * 1000

  function StartMissing(started: seq<bool>, starts: nat -> bool): seq<bool> {
    seq(|started|, i requires 0 <= i < |started| => started[i] || starts(i))
  }

  predicate Claimable(l: Link, w: World, i: nat)
    requires l.Valid() && i < |l.started|
  {
    l.retryAfter[i] <= w.now && l.started[i] && w.connected(i)
  }

  /** The first claimable transport from the scan's start on, round robin. */
  function Pick(l: Link, w: World, offset: nat): Option<nat>
    requires l.Valid()
    decreases |l.started| - offset
  {
    if offset >= |l.started| then None
    else
      var i := (l.scanStart + offset) % |l.started|;
      if Claimable(l, w, i) then Some(i) else Pick(l, w, offset + 1)
  }

  function Dropped(l: Link, w: World): Link {
    l.(active := None, committed := false, deadline := 0, started := StartMissing(l.started, w.starts))
  }

  function Poll(l: Link, w: World): (Link, LinkEvent)
    requires l.Valid()
  {
    if l.active.Some? then
      if w.left then (Dropped(l, w), LinkDown)
      else if !l.committed && w.now >= l.deadline then
        var i := l.active.value;
        (Dropped(l.(started := l.started[i := false],
                    retryAfter := if w.waits(i) then l.retryAfter[i := w.now + CLAIM_US] else l.retryAfter), w),
         LinkDown)
      else (l, NoEvent)
    else
      var up := l.(started := StartMissing(l.started, w.starts));
      var i := Pick(up, w, 0);
      if i.None? then (up, NoEvent)
      else
        (up.(active := i, committed := false, deadline := w.now + CLAIM_US, scanStart := (i.value + 1) % |l.started|),
         LinkUp)
  }

  function OnEvent(l: Link, e: LinkEvent): Link {
    match e
    case NoEvent => l
    case LinkUp => if l.session == Disconnected then l.(session := Negotiating) else l
    case LinkDown => l.(session := Disconnected)
  }

  /** A HELLO_ACK: whether it asks for a new session and whether it authenticates. */
  datatype Hello = Hello(renews: bool, authentic: bool)

  /** Every driver but the claimed one stops. */
  function OnlyActive(started: seq<bool>, active: Option<nat>): seq<bool> {
    seq(|started|, i requires 0 <= i < |started| => started[i] && active == Some(i))
  }

  function OnHello(l: Link, h: Hello, now: int): Link
    requires l.Valid()
  {
    if h.renews then
      if !h.authentic then l
      else
        var renewed := l.(session := Negotiating);
        if l.active.Some? then renewed.(committed := false, deadline := now + CLAIM_US) else renewed
    else if l.session == Ready || !h.authentic || l.session != Negotiating then l
    else
      var ready := l.(session := Ready);
      if l.active.None? || l.committed then ready
      else
        ready.(committed := true, deadline := 0, started := OnlyActive(l.started, l.active))
  }

  /** One turn of the worker: a poll, and the HELLO_ACKs of the frames it then handles if the link is up. */
  function Turn(l: Link, w: World, hellos: seq<Hello>): Link
    requires l.Valid()
  {
    var polled := OnEvent(Poll(l, w).0, Poll(l, w).1);
    PollValid(l, w);
    if polled.session == Disconnected then polled else OnHellos(polled, hellos, w.now)
  }

  function OnHellos(l: Link, hellos: seq<Hello>, now: int): (after: Link)
    requires l.Valid()
    ensures after.Valid()
    decreases |hellos|
  {
    if hellos == [] then l else OnHellos(OnHello(l, hellos[0], now), hellos[1..], now)
  }

  lemma PollValid(l: Link, w: World)
    requires l.Valid()
    ensures Poll(l, w).0.Valid()
  {
    var up := l.(started := StartMissing(l.started, w.starts));
    if l.active.None? {
      PickIs(up, w, 0);
    }
  }

  // --------------------------------------------------------------------- ownership

  /** There is a session exactly while a transport is claimed, and it is authenticated exactly while the claim is
      committed. */
  predicate Owned(l: Link) {
    && l.Valid()
    && (l.session != Disconnected <==> l.active.Some?)
    && (l.session == Ready <==> l.committed)
  }

  lemma {:induction false} HellosOwned(l: Link, hellos: seq<Hello>, now: int)
    requires Owned(l) && l.session != Disconnected
    ensures Owned(OnHellos(l, hellos, now)) && OnHellos(l, hellos, now).active == l.active
    decreases |hellos|
  {
    if hellos != [] {
      HellosOwned(OnHello(l, hellos[0], now), hellos[1..], now);
    }
  }

  lemma TurnOwned(l: Link, w: World, hellos: seq<Hello>)
    requires Owned(l)
    ensures Owned(Turn(l, w, hellos))
  {
    PollValid(l, w);
    var polled := OnEvent(Poll(l, w).0, Poll(l, w).1);
    if polled.session != Disconnected {
      HellosOwned(polled, hellos, w.now);
    }
  }

  /** An authenticated session ends only when its transport says that the client left: never by the claim's
      deadline. */
  lemma ReadyOutlivesDeadline(l: Link, w: World)
    requires Owned(l) && l.session == Ready
    ensures Poll(l, w).1 == LinkDown <==> w.left
    ensures !w.left ==> Poll(l, w).0 == l
  {
  }

  function Run(l: Link, turns: seq<(World, seq<Hello>)>): (after: Link)
    requires Owned(l)
    ensures Owned(after)
    decreases |turns|
  {
    if turns == [] then l
    else
      TurnOwned(l, turns[0].0, turns[0].1);
      Run(Turn(l, turns[0].0, turns[0].1), turns[1..])
  }

  // ---------------------------------------------------------------- authentication

  const VOUCHES: Hello := Hello(false, true)
  const RENEWS: Hello := Hello(true, true)

  /** The client has authenticated, and has not asked for a new session since. */
  predicate Vouched(heard: seq<Hello>) {
    exists k :: 0 <= k < |heard| && heard[k] == VOUCHES && RENEWS !in heard[k + 1..]
  }

  lemma VouchedPush(heard: seq<Hello>, h: Hello)
    ensures Vouched(heard + [h]) <==> h == VOUCHES || (Vouched(heard) && h != RENEWS)
  {
    var all, n := heard + [h], |heard|;
    if h == VOUCHES {
      assert all[n] == VOUCHES && all[n + 1..] == [];
    }
    if Vouched(heard) && h != RENEWS {
      var k :| 0 <= k < n && heard[k] == VOUCHES && RENEWS !in heard[k + 1..];
      assert all[k] == VOUCHES && all[k + 1..] == heard[k + 1..] + [h];
    }
    if Vouched(all) && h != VOUCHES {
      var k :| 0 <= k < n + 1 && all[k] == VOUCHES && RENEWS !in all[k + 1..];
      assert all[k + 1..] == heard[k + 1..] + [h] && heard[k] == VOUCHES;
    }
  }

  /** The HELLO_ACKs heard since the transport was claimed. */
  function Heard(l: Link, heard: seq<Hello>, turns: seq<(World, seq<Hello>)>): seq<Hello>
    requires Owned(l)
    decreases |turns|
  {
    if turns == [] then heard
    else
      var (w, hellos) := turns[0];
      TurnOwned(l, w, hellos);
      Heard(Turn(l, w, hellos), HeardNow(l, heard, w, hellos), turns[1..])
  }

  function HeardNow(l: Link, heard: seq<Hello>, w: World, hellos: seq<Hello>): seq<Hello>
    requires l.Valid()
  {
    var (polled, e) := Poll(l, w);
    if polled.active.None? then [] else (if e == NoEvent then heard else []) + hellos
  }

  /** The session is ready exactly when the claimed transport's client has authenticated it, and then no other
      driver runs. */
  predicate Earned(l: Link, heard: seq<Hello>) {
    && Owned(l) && (l.active.None? ==> heard == [])
    && (l.session == Ready <==> Vouched(heard))
    && (l.session != Negotiating ==> l.deadline == 0)
    && (l.session == Ready ==> forall i :: 0 <= i < |l.started| && l.started[i] ==> l.active == Some(i))
  }

  lemma {:induction false} HellosEarned(l: Link, heard: seq<Hello>, hellos: seq<Hello>, now: int)
    requires Earned(l, heard) && l.active.Some?
    ensures Earned(OnHellos(l, hellos, now), heard + hellos) && OnHellos(l, hellos, now).active == l.active
    decreases |hellos|
  {
    if hellos == [] {
      assert heard + hellos == heard;
    } else {
      VouchedPush(heard, hellos[0]);
      HellosEarned(OnHello(l, hellos[0], now), heard + [hellos[0]], hellos[1..], now);
      assert heard + [hellos[0]] + hellos[1..] == heard + hellos;
    }
  }

  lemma TurnEarned(l: Link, heard: seq<Hello>, w: World, hellos: seq<Hello>)
    requires Earned(l, heard)
    ensures Earned(Turn(l, w, hellos), HeardNow(l, heard, w, hellos))
  {
    PollValid(l, w);
    var (up, e) := Poll(l, w);
    var polled, before := OnEvent(up, e), if e == NoEvent then heard else [];
    if polled.active.Some? {
      assert Earned(polled, before);
      HellosEarned(polled, before, hellos, w.now);
    }
  }

  /** Over every run from an unclaimed link: a session is ready exactly when an authentic HELLO_ACK has been heard
      since its transport was claimed, and no authentic request for a new session after it. */
  lemma {:induction false} ReadyIffVouched(l: Link, heard: seq<Hello>, turns: seq<(World, seq<Hello>)>)
    requires Earned(l, heard)
    ensures Earned(Run(l, turns), Heard(l, heard, turns))
    decreases |turns|
  {
    if turns != [] {
      var (w, hellos) := turns[0];
      TurnOwned(l, w, hellos);
      TurnEarned(l, heard, w, hellos);
      ReadyIffVouched(Turn(l, w, hellos), HeardNow(l, heard, w, hellos), turns[1..]);
    }
  }

  /** An unclaimed link has earned nothing yet. */
  lemma UnclaimedEarned(l: Link)
    requires Owned(l) && l.active.None? && l.deadline == 0
    ensures Earned(l, [])
  {
  }

  /** A driver that runs, or starts now, and has a client, is claimable once its wait is over. */
  predicate CanClaim(l: Link, w: World, i: nat)
    requires l.Valid() && i < |l.started|
  {
    (l.started[i] || w.starts(i)) && w.connected(i) && w.now >= l.retryAfter[i]
  }

  /** An unclaimed link claims exactly when some transport can be claimed, and then one that can, for CLAIM_US. */
  lemma ClaimsIff(l: Link, w: World)
    requires Owned(l) && l.active.None?
    ensures var (after, e) := Poll(l, w);
            && after.Valid() && |after.started| == |l.started|
            && (e == LinkUp <==> exists i :: 0 <= i < |l.started| && CanClaim(l, w, i))
            && (e == LinkUp ==> after.active.Some? && CanClaim(l, w, after.active.value)
                                && after.deadline == w.now + CLAIM_US && !after.committed)
            && (e != LinkUp ==> e == NoEvent && after.active.None?)
            && forall i :: 0 <= i < |l.started| ==> after.started[i] == (l.started[i] || w.starts(i))
  {
    PollValid(l, w);
    var up := l.(started := StartMissing(l.started, w.starts));
    PickIs(up, w, 0);
    forall i | 0 <= i < |l.started| ensures CanClaim(l, w, i) == Claimable(up, w, i) {
    }
    if Poll(l, w).1 != LinkUp {
      forall i | 0 <= i < |l.started| ensures !CanClaim(l, w, i) {
        assert !Claimable(up, w, i);
      }
    }
  }

  /** A claim lasts until its client leaves, or until its deadline passes without authentication; the link is then
      unclaimed, the drivers that can start run again, the rejected one only if it starts anew, and the one that has
      to wait is not claimable for another CLAIM_US. */
  lemma ClaimExpires(l: Link, w: World)
    requires Owned(l) && l.active.Some?
    ensures var (after, e) := Poll(l, w);
            var expired := !w.left && l.session == Negotiating && w.now >= l.deadline;
            && (e == LinkDown <==> w.left || expired)
            && (e != LinkDown ==> e == NoEvent && after == l)
            && (e == LinkDown ==>
                  && after.active.None? && !after.committed && after.deadline == 0 && after.scanStart == l.scanStart
                  && |after.started| == |l.started| == |after.retryAfter|
                  && forall i :: 0 <= i < |l.started| ==>
                       && after.started[i] == ((l.started[i] && !(expired && l.active == Some(i))) || w.starts(i))
                       && after.retryAfter[i] == if expired && l.active == Some(i) && w.waits(i) then w.now + CLAIM_US
                                                 else l.retryAfter[i])
  {
    PollValid(l, w);
  }

  /** An authentic request for a new session starts the claim's time anew, and takes the session's authentication. */
  lemma RenewalStartsAnew(l: Link, now: int)
    requires Owned(l) && l.active.Some?
    ensures OnHello(l, RENEWS, now)
         == l.(session := Negotiating, committed := false, deadline := now + CLAIM_US)
  {
  }

  function Events(l: Link, turns: seq<(World, seq<Hello>)>): seq<LinkEvent>
    requires Owned(l)
    decreases |turns|
  {
    if turns == [] then []
    else
      TurnOwned(l, turns[0].0, turns[0].1);
      var e := Poll(l, turns[0].0).1;
      (if e == NoEvent then [] else [e]) + Events(Turn(l, turns[0].0, turns[0].1), turns[1..])
  }

  /** Up and down take turns, starting with the one that is due. */
  predicate Alternate(up: bool, events: seq<LinkEvent>) {
    forall k :: 0 <= k < |events| ==> events[k] == if up == (k % 2 == 0) then LinkUp else LinkDown
  }

  lemma AlternateNext(up: bool, e: LinkEvent, rest: seq<LinkEvent>)
    requires e == (if up then LinkUp else LinkDown) && Alternate(!up, rest)
    ensures Alternate(up, [e] + rest)
  {
    forall k | 0 <= k < |rest| + 1 ensures ([e] + rest)[k] == if up == (k % 2 == 0) then LinkUp else LinkDown {
      assert k > 0 ==> ([e] + rest)[k] == rest[k - 1];
    }
  }

  /** A poll reports exactly the claims it makes and gives up, and the rest of the turn does neither. */
  lemma TurnToggles(l: Link, w: World, hellos: seq<Hello>)
    requires Owned(l)
    ensures var e, next := Poll(l, w).1, Turn(l, w, hellos);
            if e == NoEvent then next.active.None? == l.active.None?
            else e == (if l.active.None? then LinkUp else LinkDown) && next.active.None? != l.active.None?
  {
    PollValid(l, w);
    var polled := OnEvent(Poll(l, w).0, Poll(l, w).1);
    if polled.session != Disconnected {
      HellosOwned(polled, hellos, w.now);
    }
  }

  lemma {:induction false} EventsAlternate(l: Link, turns: seq<(World, seq<Hello>)>)
    requires Owned(l)
    ensures Alternate(l.active.None?, Events(l, turns))
    decreases |turns|
  {
    if turns != [] {
      var (w, hellos) := turns[0];
      TurnOwned(l, w, hellos);
      TurnToggles(l, w, hellos);
      var e, rest := Poll(l, w).1, Events(Turn(l, w, hellos), turns[1..]);
      EventsAlternate(Turn(l, w, hellos), turns[1..]);
      if e == NoEvent {
        assert [] + rest == rest;
      } else {
        AlternateNext(l.active.None?, e, rest);
      }
    }
  }

  // ----------------------------------------------------------------------- fairness

  /** How many places after the scan's start i comes. */
  function Distance(scanStart: nat, i: nat, n: nat): int {
    if i >= scanStart then i - scanStart else i + n - scanStart
  }

  /** Pick finds the claimable transport that comes first. */
  lemma {:induction false} PickIs(l: Link, w: World, offset: nat)
    requires l.Valid()
    ensures var p := Pick(l, w, offset);
            && (p.Some? ==> p.value < |l.started| && Claimable(l, w, p.value)
                            && Distance(l.scanStart, p.value, |l.started|) >= offset)
            && forall i :: 0 <= i < |l.started| && Claimable(l, w, i) && Distance(l.scanStart, i, |l.started|) >= offset
                 ==> p.Some? && Distance(l.scanStart, p.value, |l.started|) <= Distance(l.scanStart, i, |l.started|)
    decreases |l.started| - offset
  {
    if offset < |l.started| {
      ModOnce(l.scanStart + offset, |l.started|);
      var i := (l.scanStart + offset) % |l.started|;
      assert Distance(l.scanStart, i, |l.started|) == offset;
      if !Claimable(l, w, i) {
        PickIs(l, w, offset + 1);
      }
    }
  }

  /** When a claimable transport loses a claim, it comes nearer to the scan's start, so a transport that stays
      claimable loses at most as many claims as there are other transports. */
  lemma LoserComesNearer(l: Link, w: World, j: nat)
    requires l.Valid() && l.active.None? && j < |l.started|
    requires Claimable(l.(started := StartMissing(l.started, w.starts)), w, j)
    ensures var (after, e) := Poll(l, w);
            && e == LinkUp && after.Valid()
            && (after.active != Some(j) ==>
                  Distance(after.scanStart, j, |l.started|) < Distance(l.scanStart, j, |l.started|))
    ensures 0 <= Distance(l.scanStart, j, |l.started|) < |l.started|
  {
    PollValid(l, w);
    var up := l.(started := StartMissing(l.started, w.starts));
    PickIs(up, w, 0);
    ModOnce(Pick(up, w, 0).value + 1, |l.started|);
  }

  /** Whom the polls of a run claim, in order. */
  function Claims(l: Link, turns: seq<(World, seq<Hello>)>): seq<nat>
    requires Owned(l)
    decreases |turns|
  {
    if turns == [] then []
    else
      var (polled, e) := Poll(l, turns[0].0);
      TurnOwned(l, turns[0].0, turns[0].1);
      (if e == LinkUp && polled.active.Some? then [polled.active.value] else [])
      + Claims(Turn(l, turns[0].0, turns[0].1), turns[1..])
  }

  /** Whenever the run scans, transport j may be claimed: its driver runs, its client is there, and it need not
      wait after a failed claim. */
  predicate ReadyWhenScanned(l: Link, turns: seq<(World, seq<Hello>)>, j: nat)
    requires Owned(l) && j < |l.started|
    decreases |turns|
  {
    turns == [] ||
    (var w := turns[0].0;
     && (l.active.None? ==> Claimable(l.(started := StartMissing(l.started, w.starts)), w, j))
     && (TurnOwned(l, w, turns[0].1);
         TurnKeepsScan(l, w, turns[0].1);
         ReadyWhenScanned(Turn(l, w, turns[0].1), turns[1..], j)))
  }

  lemma {:induction false} HellosKeepScan(l: Link, hellos: seq<Hello>, now: int)
    requires l.Valid()
    ensures var after := OnHellos(l, hellos, now);
            after.scanStart == l.scanStart && |after.started| == |l.started|
    decreases |hellos|
  {
    if hellos != [] {
      HellosKeepScan(OnHello(l, hellos[0], now), hellos[1..], now);
    }
  }

  /** What a turn does after its poll leaves the scan's start alone. */
  lemma TurnKeepsScan(l: Link, w: World, hellos: seq<Hello>)
    requires Owned(l)
    ensures var after := Turn(l, w, hellos);
            && after.scanStart == Poll(l, w).0.scanStart && |after.started| == |l.started|
            && (l.active.Some? ==> after.scanStart == l.scanStart)
  {
    PollValid(l, w);
    HellosKeepScan(OnEvent(Poll(l, w).0, Poll(l, w).1), hellos, w.now);
  }

  /** Over every run, through claims that fail, are committed, renewed or lost: a transport that is ready whenever
      the run scans is among any so many claims in a row as there are transports, and sooner the nearer it is to
      the scan's start. */
  lemma {:induction false} ClaimedInTime(l: Link, turns: seq<(World, seq<Hello>)>, j: nat)
    requires Owned(l) && j < |l.started| && ReadyWhenScanned(l, turns, j)
    ensures 0 <= Distance(l.scanStart, j, |l.started|) < |l.started|
    ensures |Claims(l, turns)| > Distance(l.scanStart, j, |l.started|) ==> j in Claims(l, turns)
    decreases |turns|
  {
    if turns != [] {
      var (w, hellos) := turns[0];
      TurnOwned(l, w, hellos);
      TurnKeepsScan(l, w, hellos);
      if l.active.None? {
        LoserComesNearer(l, w, j);
      }
      ClaimedInTime(Turn(l, w, hellos), turns[1..], j);
    }
  }

  // --------------------------------------------------------------------- the manager

  class Manager {
    var active: Option<nat>
    var committed: bool
    var deadline: int
    var scanStart: nat
    const started: array<bool>
    const retryAfter: array<int>

    ghost predicate Valid()
      reads this, started, retryAfter
    {
      State(Disconnected).Valid()
    }

    ghost function State(session: Session): Link
      reads this, started, retryAfter
    {
      Link(active, committed, deadline, scanStart, started[..], retryAfter[..], session)
    }

    constructor (count: nat)
      requires count > 0
      ensures Valid() && started.Length == count && active == None && !committed && scanStart == 0
      ensures fresh(started) && fresh(retryAfter)
    {
      started, retryAfter := new bool[count](_ => false), new int[count](_ => 0);
      active, committed, deadline, scanStart := None, false, 0, 0;
    }

    method ClearActive()
      modifies this`active, this`committed, this`deadline
      ensures active == None && !committed && deadline == 0
    {
      active, committed, deadline := None, false, 0;
    }

    method StartMissingDrivers(starts: nat -> bool)
      modifies started
      ensures started[..] == StartMissing(old(started[..]), starts)
    {
      for i := 0 to started.Length
        invariant forall k :: 0 <= k < i ==> started[k] == (old(started[k]) || starts(k))
        invariant forall k :: i <= k < started.Length ==> started[k] == old(started[k])
      {
        if !started[i] {
          started[i] := starts(i);
        }
      }
    }

    method Drop(starts: nat -> bool)
      requires Valid()
      modifies this`active, this`committed, this`deadline, started
      ensures Valid()
      ensures active == None && !committed && deadline == 0 && started[..] == StartMissing(old(started[..]), starts)
    {
      ClearActive();
      StartMissingDrivers(starts);
    }

    method PollActive(w: World, ghost session: Session) returns (e: LinkEvent)
      requires Valid() && active.Some?
      modifies this`active, this`committed, this`deadline, started, retryAfter
      ensures Valid()
      ensures (State(session), e) == Poll(old(State(session)), w)
    {
      if w.left {
        Drop(w.starts);
        e := LinkDown;
      } else if !committed && w.now >= deadline {
        var rejected := active.value;
        started[rejected] := false;
        if w.waits(rejected) {
          retryAfter[rejected] := w.now + CLAIM_US;
        }
        Drop(w.starts);
        e := LinkDown;
      } else {
        e := NoEvent;
      }
    }

    method PollIdle(w: World, ghost session: Session) returns (e: LinkEvent)
      requires Valid() && active.None?
      modifies this, started
      ensures Valid()
      ensures (State(session), e) == Poll(old(State(session)), w)
    {
      StartMissingDrivers(w.starts);
      var claimed := ScanDrivers(w, session);
      if claimed.None? {
        return NoEvent;
      }
      active, committed, deadline := claimed, false, w.now + CLAIM_US;
      scanStart := (claimed.value + 1) % started.Length;
      e := LinkUp;
    }

    method PollLinks(w: World, ghost session: Session) returns (e: LinkEvent)
      requires Valid()
      modifies this, started, retryAfter
      ensures Valid()
      ensures (State(session), e) == Poll(old(State(session)), w)
    {
      if active.Some? {
        e := PollActive(w, session);
      } else {
        e := PollIdle(w, session);
      }
    }

    method ScanDrivers(w: World, ghost session: Session) returns (claimed: Option<nat>)
      requires Valid()
      ensures claimed == Pick(State(session), w, 0)
      ensures claimed.Some? ==> claimed.value < started.Length
    {
      claimed := None;
      var offset := 0;
      while offset < started.Length
        invariant offset <= started.Length
        invariant Pick(State(session), w, offset) == Pick(State(session), w, 0)
      {
        var index := (scanStart + offset) % started.Length;
        if retryAfter[index] <= w.now && started[index] && w.connected(index) {
          return Some(index);
        }
        offset := offset + 1;
      }
    }

    /** The claim becomes the owner, and the drivers of the others stop. */
    method Commit(now: int)
      requires Valid()
      modifies this`committed, this`deadline, started
      ensures Valid()
      ensures active.Some? && !old(committed) ==>
                State(Ready) == OnHello(old(State(Negotiating)), Hello(false, true), now)
      ensures active.None? || old(committed) ==> State(Ready) == old(State(Ready))
    {
      if active.None? || committed {
        return;
      }
      committed, deadline := true, 0;
      StopLosers();
    }

    method StopLosers()
      modifies started
      ensures started[..] == OnlyActive(old(started[..]), active)
    {
      for i := 0 to started.Length
        invariant forall k :: 0 <= k < i ==> started[k] == (old(started[k]) && active == Some(k))
        invariant forall k :: i <= k < started.Length ==> started[k] == old(started[k])
      {
        if active != Some(i) {
          started[i] := false;
        }
      }
    }

    /** A new session on the claimed transport must commit again. */
    method RenewClaim(now: int, ghost session: Session)
      requires Valid()
      modifies this`committed, this`deadline
      ensures Valid()
      ensures State(Negotiating) == OnHello(old(State(session)), Hello(true, true), now)
    {
      if active.None? {
        return;
      }
      committed, deadline := false, now + CLAIM_US;
    }
  }
}
