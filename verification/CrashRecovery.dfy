/** Crash-loop recovery: a record in flash is read, edited and written back once per boot, and by the few calls
    an application makes while it runs. Its meaning is given by the history of what really happened. */
module CrashRecovery {
  import opened Bytes

  const COUNT_MAX: nat := 0xFFFF_FFFF

  datatype Image = Image(address: nat, sha: seq<byte>)

  const NO_IMAGE: Image := Image(0, [])

  datatype Reason = PowerOn | Software | Panic | InterruptWatchdog | TaskWatchdog | OtherWatchdog | CpuLockup
                  | Brownout | PowerGlitch | OtherReason

  /** How the firmware that boots was built: recovery firmware or a normal application, its crash limit, whether
      it restarts into recovery, and whether power faults count as crashes. */
  datatype Build = Build(isRecovery: bool, limit: nat, restarts: bool, countsPower: bool) {
    predicate Valid() {
      1 <= limit <= 100 && (restarts ==> !isRecovery)
    }
  }

  /** One boot: the build, why the chip was reset, the running image if it can be told, the recovery partition
      the platform selects if any, and whether it can be made the boot partition. */
  datatype Boot = Boot(build: Build, reason: Reason, running: Option<Image>, target: Option<nat>, selectable: bool)

  /** The stored record. */
  datatype State = State(lastStartedValid: bool, failedValid: bool, planned: bool, pending: bool, count: nat,
                         limit: nat, reason: Reason, plannedTarget: nat, lastStarted: Image, failed: Image)

  const FRESH: State := State(false, false, false, false, 0, 0, PowerOn, 0, NO_IMAGE, NO_IMAGE)

  predicate Counts(reason: Reason, build: Build) {
    match reason
    case Panic => true
    case InterruptWatchdog => true
    case TaskWatchdog => true
    case OtherWatchdog => true
    case CpuLockup => true
    case Brownout => build.countsPower
    case PowerGlitch => build.countsPower
    case _ => false
  }

  function Limit(s: State, build: Build): nat {
    if 1 <= s.limit <= 100 then s.limit else build.limit
  }

  function Cleared(s: State): State {
    s.(failedValid := false, pending := false, count := 0, reason := PowerOn, failed := NO_IMAGE)
  }

  /** The record after the crash that caused this boot, if any, has been blamed on the image last started. */
  function Blamed(s: State, boot: Boot): State {
    if !s.lastStartedValid || !Counts(boot.reason, boot.build) then s
    else
      s.(count := if !s.failedValid || s.failed != s.lastStarted then 1
                  else if s.count < COUNT_MAX then s.count + 1 else s.count,
         failedValid := true, reason := boot.reason, failed := s.lastStarted)
  }

  function Started(s: State, boot: Boot): State {
    if boot.running.None? then s
    else s.(lastStartedValid := true, lastStarted := boot.running.value,
            limit := if boot.build.isRecovery then s.limit else boot.build.limit)
  }

  predicate FailedRuns(s: State, boot: Boot) {
    boot.running.Some? && s.failed == boot.running.value
  }

  /** The record as first written back. */
  function Probed(s: State, boot: Boot): State {
    var t := Started(Blamed(s.(planned := false, plannedTarget := 0), boot), boot);
    if boot.build.restarts && t.failedValid && FailedRuns(t, boot) && t.count >= Limit(t, boot.build)
    then t.(pending := true) else t
  }

  /** The probe restarts the chip into the recovery partition. */
  predicate Restarts(s: State, boot: Boot) {
    var t := Probed(s, boot);
    boot.build.restarts && t.pending && FailedRuns(t, boot)
    && boot.target.Some? && boot.target.value != boot.running.value.address && boot.selectable
  }

  function AfterProbe(s: State, boot: Boot): State {
    if Restarts(s, boot) then Probed(s, boot).(planned := true, plannedTarget := boot.target.value)
    else Probed(s, boot)
  }

  /** What happens to the record, boot after boot: the probe of a boot, an application healthy for long enough or
      declaring itself so, a reset of the history, and a restart announced with the boot partition it is for. */
  datatype Event = Booted(boot: Boot) | Healthy(build: Build) | Reset | Announced(target: nat)

  function After(s: State, e: Event): State {
    match e
    case Booted(boot) => AfterProbe(s, boot)
    case Healthy(build) => if build.isRecovery then s else Cleared(s)
    case Reset => Cleared(s).(planned := false, plannedTarget := 0)
    case Announced(target) => s.(planned := true, plannedTarget := target)
  }

  function Run(s: State, events: seq<Event>): State
    decreases |events|
  {
    if events == [] then s else Run(After(s, events[0]), events[1..])
  }

  // -------------------------------------------------------------------- the history

  /** What really happened since the failure record was last cleared: the images blamed for counted crashes, in
      order; the image started last; and the partition for which the coming restart has been announced. */
  datatype History = History(blamed: seq<Image>, started: Option<Image>, announced: Option<nat>)

  const NEW: History := History([], None, None)

  function Told(h: History, s: State, e: Event): History {
    match e
    case Booted(boot) =>
      History(if h.started.Some? && Counts(boot.reason, boot.build) then h.blamed + [h.started.value] else h.blamed,
              if boot.running.Some? then boot.running else h.started,
              if Restarts(s, boot) then boot.target else None)
    case Healthy(build) => if build.isRecovery then h else h.(blamed := [])
    case Reset => h.(blamed := [], announced := None)
    case Announced(target) => h.(announced := Some(target))
  }

  function Chronicle(h: History, s: State, events: seq<Event>): History
    decreases |events|
  {
    if events == [] then h else Chronicle(Told(h, s, events[0]), After(s, events[0]), events[1..])
  }

  /** Which resets are crashes. */
  predicate IsCrash(reason: Reason, build: Build) {
    || reason in {Panic, InterruptWatchdog, TaskWatchdog, OtherWatchdog, CpuLockup}
    || (build.countsPower && reason in {Brownout, PowerGlitch})
  }

  /** A build for which every reset that can count does. */
  const ANY_BUILD: Build := Build(false, 1, false, true)

  /** How many of the last images are one and the same. */
  function Streak(blamed: seq<Image>): nat {
    if blamed == [] then 0
    else if |blamed| > 1 && blamed[|blamed| - 2] == blamed[|blamed| - 1] then Streak(blamed[..|blamed| - 1]) + 1
    else 1
  }

  /** At some point the streak had reached n. */
  ghost predicate Reached(blamed: seq<Image>, n: nat) {
    exists k :: 0 < k <= |blamed| && Streak(blamed[..k]) >= n
  }

  /** The record tells the history. */
  predicate Tells(s: State, h: History) {
    && (s.failedValid <==> s.count > 0)
    && (s.failedValid <==> h.blamed != [])
    && s.count == (if Streak(h.blamed) < COUNT_MAX then Streak(h.blamed) else COUNT_MAX)
    && (s.failedValid ==> s.failed == h.blamed[|h.blamed| - 1])
    && (s.lastStartedValid <==> h.started.Some?) && (s.lastStartedValid ==> h.started == Some(s.lastStarted))
    && (if h.announced.Some? then s.planned && s.plannedTarget == h.announced.value
        else !s.planned && s.plannedTarget == 0)
    && (if s.failedValid then IsCrash(s.reason, ANY_BUILD) else s.failed == NO_IMAGE && s.reason == PowerOn)
  }

  lemma StreakPush(blamed: seq<Image>, image: Image)
    ensures Streak(blamed + [image])
         == if blamed != [] && blamed[|blamed| - 1] == image then Streak(blamed) + 1 else 1
    ensures blamed != [] ==> Streak(blamed) > 0
  {
    assert (blamed + [image])[..|blamed|] == blamed;
  }

  lemma BlameTells(s: State, h: History, boot: Boot)
    requires Tells(s, h)
    ensures var blamed := if h.started.Some? && Counts(boot.reason, boot.build) then h.blamed + [h.started.value]
                          else h.blamed;
            Tells(Blamed(s, boot), h.(blamed := blamed))
  {
    if h.started.Some? {
      StreakPush(h.blamed, h.started.value);
    }
  }

  lemma StartTells(s: State, h: History, boot: Boot)
    requires Tells(s, h)
    ensures Tells(Started(s, boot), h.(started := if boot.running.Some? then boot.running else h.started))
  {
  }

  lemma ProbeTells(s: State, h: History, boot: Boot)
    requires Tells(s, h)
    ensures Tells(Probed(s, boot), Told(h, s, Booted(boot)).(announced := None))
  {
    var read, quiet := s.(planned := false, plannedTarget := 0), h.(announced := None);
    BlameTells(read, quiet, boot);
    var blamed := if h.started.Some? && Counts(boot.reason, boot.build) then h.blamed + [h.started.value] else h.blamed;
    StartTells(Blamed(read, boot), quiet.(blamed := blamed), boot);
  }

  lemma StepTells(s: State, h: History, e: Event)
    requires Tells(s, h)
    ensures Tells(After(s, e), Told(h, s, e))
  {
    match e {
      case Booted(boot) => ProbeTells(s, h, boot);
      case Healthy(_) =>
      case Reset =>
      case Announced(_) =>
    }
  }

  /** Over every history of boots and calls: the failed image is valid exactly when the count is positive, and the
      count is the length, up to 2^32 - 1, of the streak of counted crashes blamed on one image since the last
      clear; and a restart counts as announced for one boot. */
  lemma {:induction false} RunTells(s: State, h: History, events: seq<Event>)
    requires Tells(s, h)
    ensures Tells(Run(s, events), Chronicle(h, s, events))
    decreases |events|
  {
    if events != [] {
      StepTells(s, h, events[0]);
      RunTells(After(s, events[0]), Told(h, s, events[0]), events[1..]);
    }
  }

  /** So from a fresh record, without any assumption. */
  lemma FreshTells(events: seq<Event>)
    ensures Tells(Run(FRESH, events), Chronicle(NEW, FRESH, events))
  {
    RunTells(FRESH, NEW, events);
  }

  // ------------------------------------------------------------------------ requests

  /** Every build in the history has at least this limit. */
  predicate AtLeast(events: seq<Event>, limit: nat) {
    forall e :: e in events && e.Booted? ==> e.boot.build.Valid() && e.boot.build.limit >= limit
  }

  /** Recovery has been requested only for good reason. */
  ghost predicate Reasoned(s: State, h: History, limit: nat) {
    && Tells(s, h)
    && (1 <= s.limit <= 100 ==> s.limit >= limit)
    && (s.pending ==> Reached(h.blamed, limit))
  }

  lemma ReachedStays(blamed: seq<Image>, image: Image, n: nat)
    requires Reached(blamed, n)
    ensures Reached(blamed + [image], n)
  {
    var k :| 0 < k <= |blamed| && Streak(blamed[..k]) >= n;
    assert (blamed + [image])[..k] == blamed[..k];
  }

  lemma StepReasoned(s: State, h: History, e: Event, limit: nat)
    requires Reasoned(s, h, limit) && 1 <= limit
    requires e.Booted? ==> e.boot.build.Valid() && e.boot.build.limit >= limit
    ensures Reasoned(After(s, e), Told(h, s, e), limit)
  {
    StepTells(s, h, e);
    if e.Booted? {
      var after, told := After(s, e), Told(h, s, e);
      if s.pending && told.blamed != h.blamed {
        ReachedStays(h.blamed, h.started.value, limit);
      }
      if after.pending && !s.pending {
        assert told.blamed[..|told.blamed|] == told.blamed;
        assert Streak(told.blamed) >= limit;
      }
    }
  }

  /** From a cleared record, recovery is requested only once a streak has reached the limit. */
  lemma {:induction false} RequestedForReason(s: State, h: History, events: seq<Event>, limit: nat)
    requires Reasoned(s, h, limit) && 1 <= limit && AtLeast(events, limit)
    ensures Reasoned(Run(s, events), Chronicle(h, s, events), limit)
    decreases |events|
  {
    if events != [] {
      StepReasoned(s, h, events[0], limit);
      RequestedForReason(After(s, events[0]), Told(h, s, events[0]), events[1..], limit);
    }
  }

  /** So from a fresh record: recovery is not requested before a streak has reached the least limit of the builds. */
  lemma RequestedFromFresh(events: seq<Event>, limit: nat)
    requires 1 <= limit && AtLeast(events, limit)
    ensures Run(FRESH, events).pending ==> Reached(Chronicle(NEW, FRESH, events).blamed, limit)
  {
    RequestedForReason(FRESH, NEW, events, limit);
  }

  /** A reset is blamed on the image started before it exactly if it is a crash. */
  lemma BlamedIffCrash(s: State, boot: Boot)
    requires s.lastStartedValid && !s.failedValid && s.count == 0
    ensures AfterProbe(s, boot).count == (if IsCrash(boot.reason, boot.build) then 1 else 0)
    ensures AfterProbe(s, boot).failedValid <==> IsCrash(boot.reason, boot.build)
  {
  }

  /** Histories without crashes never raise the count, and never request recovery from a cleared record. */
  lemma {:induction false} CalmHistory(s: State, events: seq<Event>)
    requires forall e :: e in events && e.Booted? ==> !IsCrash(e.boot.reason, e.boot.build)
    ensures Run(s, events).count <= s.count
    ensures !s.failedValid && !s.pending ==> !Run(s, events).failedValid && !Run(s, events).pending
    decreases |events|
  {
    if events != [] {
      assert events[0] in events;
      CalmHistory(After(s, events[0]), events[1..]);
    }
  }

  /** The crashes on record of the image that runs, after this boot. */
  function OwnCrashes(s: State, boot: Boot): nat {
    if boot.running.None? then 0
    else if s.lastStartedValid && IsCrash(boot.reason, boot.build) then
      if s.lastStarted != boot.running.value then 0
      else if !s.failedValid || s.failed != s.lastStarted then 1
      else if s.count < COUNT_MAX then s.count + 1 else s.count
    else if s.failedValid && s.failed == boot.running.value then s.count
    else 0
  }

  /** Exactly when a boot leaves recovery requested: it was before, or the build restarts and the crashes of the image
      that runs have reached its limit. */
  lemma RequestsIff(s: State, boot: Boot)
    requires boot.build.Valid() && (s.failedValid ==> s.count > 0)
    ensures AfterProbe(s, boot).pending
       <==> s.pending || (boot.build.restarts && OwnCrashes(s, boot) >= boot.build.limit)
  {
  }

  /** The record goes by the limit of the last normal application that ran; before any did, by the build's own. */
  lemma {:induction false} LimitRemembered(s: State, boot: Boot, later: seq<Event>, build: Build)
    requires boot.build.Valid() && !boot.build.isRecovery && boot.running.Some?
    requires forall e :: e in later && e.Booted? ==> e.boot.build.isRecovery || e.boot.running.None?
    ensures Limit(Run(After(s, Booted(boot)), later), build) == boot.build.limit
  {
    LimitStays(After(s, Booted(boot)), later);
  }

  lemma {:induction false} LimitStays(s: State, later: seq<Event>)
    requires forall e :: e in later && e.Booted? ==> e.boot.build.isRecovery || e.boot.running.None?
    ensures Run(s, later).limit == s.limit
    decreases |later|
  {
    if later != [] {
      assert later[0] in later;
      LimitStays(After(s, later[0]), later[1..]);
    }
  }

  lemma {:induction false} LimitOfBuild(later: seq<Event>, build: Build)
    requires forall e :: e in later && e.Booted? ==> e.boot.build.isRecovery || e.boot.running.None?
    ensures Limit(Run(FRESH, later), build) == build.limit
  {
    LimitStays(FRESH, later);
  }

  /** Boots of one image, for whatever reasons the chip was reset. */
  predicate CrashLoop(boots: seq<Boot>, image: Image, limit: nat) {
    forall b :: b in boots ==>
      b.running == Some(image) && b.build.Valid() && b.build.restarts && b.build.limit == limit
  }

  function Boots(boots: seq<Boot>): seq<Event> {
    if boots == [] then [] else [Booted(boots[0])] + Boots(boots[1..])
  }

  /** How many of the boots follow a crash that counts. */
  function Crashes(boots: seq<Boot>): nat {
    if boots == [] then 0
    else (if Counts(boots[0].reason, boots[0].build) then 1 else 0) + Crashes(boots[1..])
  }

  /** The image was started last, every crash on record is its own, and recovery has been requested exactly if
      they have reached the limit. */
  predicate Watches(s: State, image: Image, limit: nat) {
    && s.lastStartedValid && s.lastStarted == image
    && (s.failedValid <==> s.count > 0)
    && (s.failedValid ==> s.failed == image)
    && (s.pending <==> s.count >= limit)
  }

  /** An image that keeps being started has recovery requested at its limit-th crash and not before, however many
      ordinary resets lie between its crashes. */
  lemma {:induction false} CrashLoopRequests(s: State, boots: seq<Boot>, image: Image, limit: nat)
    requires CrashLoop(boots, image, limit) && Watches(s, image, limit)
    ensures Run(s, Boots(boots)).pending <==> s.count + Crashes(boots) >= limit
    decreases |boots|
  {
    if boots != [] {
      assert boots[0] in boots;
      assert Boots(boots)[1..] == Boots(boots[1..]);
      CrashLoopRequests(After(s, Booted(boots[0])), boots[1..], image, limit);
    }
  }

  /** After a restart into recovery the next boot restarts again exactly when it runs the very image that was
      given up, in a build that restarts, and has somewhere to go: so never when it runs the partition selected. */
  lemma RestartsAgainIff(s: State, first: Boot, next: Boot)
    requires Restarts(s, first)
    ensures Restarts(AfterProbe(s, first), next)
       <==> next.build.restarts && next.running == first.running
            && next.target.Some? && next.target.value != first.running.value.address && next.selectable
    ensures next.running.Some? && next.running.value.address == first.target.value ==>
              !Restarts(AfterProbe(s, first), next)
  {
  }

  /** The limit the record goes by after a boot: a normal application brings its own. */
  function LimitAfter(s: State, boot: Boot): nat {
    if boot.running.Some? && !boot.build.isRecovery then boot.build.limit else Limit(s, boot.build)
  }

  /** Exactly when a pending request loses the count that was its reason, by the record's own limit: a boot may raise
      the limit above the count, or start a new streak that is shorter, or both. */
  lemma PendingLosesCountIff(s: State, boot: Boot)
    requires boot.build.Valid() && s.pending && s.failedValid && s.lastStartedValid
    requires s.count >= Limit(s, boot.build)
    ensures var t, limit := AfterProbe(s, boot), LimitAfter(s, boot);
            && t.pending && Limit(t, boot.build) == limit
            && (t.count < limit <==>
                  if !Counts(boot.reason, boot.build) then s.count < limit
                  else if s.lastStarted != s.failed then 1 < limit
                  else s.count + 1 < limit)
  {
  }

  /** Exactly when a boot restarts into recovery with fewer crashes on record than its limit: a request has outlived
      its count, and either this boot's crash is the image's own or the image has some on record already. */
  lemma RestartsBelowLimitIff(s: State, boot: Boot)
    requires boot.build.Valid()
    ensures (var t := Probed(s, boot);
             Restarts(s, boot) && t.count < Limit(t, boot.build)
             <==> && s.pending && boot.build.restarts && boot.running.Some? && boot.selectable
                  && boot.target.Some? && boot.target.value != boot.running.value.address
                  && if s.lastStartedValid && Counts(boot.reason, boot.build) then
                       && boot.running.value == s.lastStarted
                       && (if s.failedValid && s.failed == s.lastStarted then s.count + 1 else 1) < boot.build.limit
                     else boot.running.value == s.failed && s.count < boot.build.limit)
  {
  }

  predicate Clears(e: Event) {
    e.Reset? || (e.Healthy? && !e.build.isRecovery)
  }

  /** A request lasts, through any boots and calls, until the history is reset or a normal application is healthy. */
  lemma {:induction false} RequestLasts(s: State, events: seq<Event>)
    requires s.pending && forall e :: e in events ==> !Clears(e)
    ensures Run(s, events).pending
    decreases |events|
  {
    if events != [] {
      assert events[0] in events;
      RequestLasts(After(s, events[0]), events[1..]);
    }
  }

  // A history in which all of that happens. The image in use crashes twice, at its limit of two, and the chip
  // restarts into recovery. A new image with a limit of five is installed and started: the request is still pending.
  // The new image crashes once, and the chip restarts into recovery again.

  const APP: Image := Image(1, [1])
  const RECOVERY: Image := Image(2, [2])
  const NEW_APP: Image := Image(3, [3])
  const APP_BUILD: Build := Build(false, 2, true, false)
  const RECOVERY_BUILD: Build := Build(true, 2, false, false)
  const NEW_BUILD: Build := Build(false, 5, true, false)
  const APP_CRASH: Boot := Boot(APP_BUILD, Panic, Some(APP), Some(2), true)
  const RECOVERY_BOOT: Boot := Boot(RECOVERY_BUILD, Software, Some(RECOVERY), None, false)
  const NEW_CRASH: Boot := Boot(NEW_BUILD, Panic, Some(NEW_APP), Some(2), true)
  const LOOP: seq<Event> := [Booted(APP_CRASH.(reason := PowerOn)), Booted(APP_CRASH), Booted(APP_CRASH)]
  const RECOVERY_CRASHES: seq<Event> := [Booted(RECOVERY_BOOT), Booted(RECOVERY_BOOT.(reason := Panic))]
  const NEW_APP_STARTS: seq<Event> := [Booted(RECOVERY_BOOT), Booted(NEW_CRASH.(reason := Software))]

  lemma {:induction false} RunAppend(s: State, a: seq<Event>, b: seq<Event>)
    ensures Run(s, a + b) == Run(Run(s, a), b)
    decreases |a|
  {
    if a == [] {
      assert a + b == b;
    } else {
      assert (a + b)[1..] == a[1..] + b;
      RunAppend(After(s, a[0]), a[1..], b);
    }
  }

  lemma Twice(s: State, a: Event, b: Event)
    ensures Run(s, [a, b]) == After(After(s, a), b)
  {
    assert [a, b][1..] == [b] && [b][1..] == [];
    assert Run(After(s, a), [b]) == Run(After(After(s, a), b), []);
  }

  lemma LoopEnds()
    ensures var s := Run(FRESH, LOOP);
            && s.pending && s.count == 2 && s.limit == 2 && s.failedValid && s.failed == APP
            && s.lastStartedValid && s.lastStarted == APP
  {
    assert LOOP == [LOOP[0]] + [LOOP[1], LOOP[2]] && [LOOP[0]] + [] == [LOOP[0]];
    RunAppend(FRESH, [LOOP[0]], [LOOP[1], LOOP[2]]);
    assert Run(FRESH, [LOOP[0]]) == Run(After(FRESH, LOOP[0]), []);
    Twice(After(FRESH, LOOP[0]), LOOP[1], LOOP[2]);
  }

  /** The request stays while the recovery image's own crash starts a new streak. */
  lemma PendingOutlivesStreak()
    ensures var s := Run(FRESH, LOOP + RECOVERY_CRASHES);
            s.pending && s.count == 1 < Limit(s, RECOVERY_BUILD) && s.failed == RECOVERY
  {
    LoopEnds();
    RunAppend(FRESH, LOOP, RECOVERY_CRASHES);
    Twice(Run(FRESH, LOOP), RECOVERY_CRASHES[0], RECOVERY_CRASHES[1]);
  }

  /** The request stays while the new image raises the limit, and then one crash is enough. */
  lemma PendingOutlivesLimit()
    ensures var s := Run(FRESH, LOOP + NEW_APP_STARTS);
            && s.pending && s.count == 2 < Limit(s, NEW_BUILD)
            && Restarts(s, NEW_CRASH) && AfterProbe(s, NEW_CRASH).count == 1
  {
    LoopEnds();
    RunAppend(FRESH, LOOP, NEW_APP_STARTS);
    Twice(Run(FRESH, LOOP), NEW_APP_STARTS[0], NEW_APP_STARTS[1]);
  }

  // ----------------------------------------------------------------------- the module

  const STABLE_US: nat := 30000 * 1000

  /** The stored blob, absent or unreadable at first, and the runtime's copy. */
  class Tracker {
    var stored: Option<State>
    var initialized: bool
    var previousPlanned: bool
    var count: nat
    var triggered: bool
    var deadline: Option<int>

    function Record(): State
      reads this
    {
      if stored.Some? then stored.value else FRESH
    }

    constructor ()
      ensures Record() == FRESH && !initialized
    {
      stored, initialized, previousPlanned, count, triggered, deadline := None, false, false, 0, false, None;
    }

    /** Power-up: the runtime's memory is new, the blob is what it was. */
    method PowerUp()
      modifies this
      ensures Record() == old(Record()) && !initialized && deadline == None
    {
      initialized, previousPlanned, count, triggered, deadline := false, false, 0, false, None;
    }

    method PublishState(s: State, build: Build)
      modifies this`count, this`triggered
      ensures count == s.count && (triggered <==> s.pending || (s.count >= Limit(s, build) && s.failedValid))
    {
      count := s.count;
      triggered := s.pending || (s.count >= Limit(s, build) && s.failedValid);
    }

    /** What the probe makes of the record it has read. */
    method Edit(read: State, boot: Boot) returns (s: State)
      ensures s == Probed(read, boot)
    {
      s := read.(planned := false, plannedTarget := 0);
      if s.lastStartedValid && Counts(boot.reason, boot.build) {
        if s.failedValid && s.failed == s.lastStarted {
          if s.count < COUNT_MAX {
            s := s.(count := s.count + 1);
          }
        } else {
          s := s.(count := 1);
        }
        s := s.(failedValid := true, reason := boot.reason, failed := s.lastStarted);
      }
      if boot.running.Some? {
        s := s.(lastStartedValid := true, lastStarted := boot.running.value);
        if !boot.build.isRecovery {
          s := s.(limit := boot.build.limit);
        }
      }
      if boot.build.restarts {
        var failedImageRuns := boot.running.Some? && s.failedValid && s.failed == boot.running.value;
        if failedImageRuns && s.count >= Limit(s, boot.build) {
          s := s.(pending := true);
        }
      }
    }

    method Probe(boot: Boot, now: int) returns (restarts: bool)
      requires !initialized
      modifies this
      ensures initialized && Record() == AfterProbe(old(Record()), boot)
      ensures restarts <==> Restarts(old(Record()), boot)
      ensures previousPlanned <==> old(Record()).planned && boot.reason == Software
      ensures deadline == if !boot.build.isRecovery && count > 0 then Some(now + STABLE_US) else old(deadline)
      ensures count == Record().count
    {
      initialized := true;
      var s := Record();
      previousPlanned := s.planned && boot.reason == Software;
      s := Edit(s, boot);
      stored := Some(s);
      PublishState(s, boot.build);
      if !boot.build.isRecovery && s.count > 0 {
        deadline := Some(now + STABLE_US);
      }
      restarts := Restart(s, boot);
    }

    /** Announces and selects the recovery partition, and takes the announcement back if that fails. */
    method Restart(s: State, boot: Boot) returns (restarts: bool)
      requires stored == Some(s)
      modifies this`stored
      ensures restarts <==> && boot.build.restarts && s.pending && FailedRuns(s, boot) && boot.target.Some?
                            && boot.target.value != boot.running.value.address && boot.selectable
      ensures stored == Some(if restarts then s.(planned := true, plannedTarget := boot.target.value) else s)
    {
      restarts := false;
      if boot.build.restarts && boot.running.Some? && s.pending && s.failed == boot.running.value {
        if boot.target.Some? && boot.target.value != boot.running.value.address {
          stored := Some(s.(planned := true, plannedTarget := boot.target.value));
          if boot.selectable {
            restarts := true;
          } else {
            stored := Some(s);
          }
        }
      }
    }

    method MarkPlanned(target: nat) returns (ok: bool)
      modifies this`stored
      ensures ok <==> initialized
      ensures Record() == if initialized then After(old(Record()), Announced(target)) else old(Record())
    {
      ok := initialized;
      if ok {
        stored := Some(Record().(planned := true, plannedTarget := target));
      }
    }

    method MarkHealthy(build: Build) returns (ok: bool)
      modifies this
      ensures ok <==> old(initialized)
      ensures initialized == old(initialized)
      ensures Record() == if ok then After(old(Record()), Healthy(build)) else old(Record())
      ensures ok ==> deadline == None
    {
      ok := initialized;
      if ok {
        deadline := None;
        if !build.isRecovery {
          stored := Some(Cleared(Record()));
          PublishState(Record(), build);
        }
      }
    }

    method ResetHistory(build: Build) returns (ok: bool)
      modifies this
      ensures ok <==> old(initialized)
      ensures Record() == if ok then After(old(Record()), Reset) else old(Record())
    {
      ok := initialized;
      if ok {
        stored := Some(Cleared(Record()).(planned := false, plannedTarget := 0));
        PublishState(Record(), build);
        deadline := None;
      }
    }

    /** An application that has run long enough after a crash is healthy, once. */
    method Poll(build: Build, now: int)
      requires initialized
      modifies this
      ensures (var due := old(deadline).Some? && now >= old(deadline).value;
               && Record() == (if due then After(old(Record()), Healthy(build)) else old(Record()))
               && deadline == (if due then None else old(deadline)))
    {
      if deadline.Some? && now >= deadline.value {
        deadline := None;
        var _ := MarkHealthy(build);
      }
    }
  }
}
