/** Uploads that come to an end: rounds of one request each, in which the request or its answer may be lost, and what
    upload makes of them, round after round. */
module UploadRuns {
  import opened Bytes
  import opened FileService
  import opened FileUpload
  import opened Parts

  /** One request of upload: answered, lost on the way, done but its answer lost, or refused. What is lost is timed
      out. */
  datatype Round = Answered(world: World) | RequestDropped | AnswerDropped(world: World) | Declined(status: Status)

  function RoundEvents(round: Round): seq<Happening> {
    match round
    case Answered(world) => [HostSends, Taken] + [Worked(world), HostHears]
    case RequestDropped => [HostSends, RequestLost(0)] + [HostTimesOut]
    case AnswerDropped(world) => [HostSends, Taken] + ([Worked(world), AnswerLost(0)] + [HostTimesOut])
    case Declined(status) => [HostSends, Refused(status)] + [HostHears]
  }

  /** Nothing is under way. */
  predicate Quiet(s: System) {
    s.toDev == [] && s.toHost == [] && s.executing.None? && s.host.waiting.None?
  }

  /** The device has done request r. */
  function Performed(p: Platform, job: Job, s: System, r: Request, world: World): System
    requires s.dev.Valid()
  {
    var (dev, reply) := Process(p, s.dev, job.session, r, world);
    s.(dev := dev, written := if r.Write? && reply.Acked? then s.written + 1 else s.written,
       installs := if Installs(p, s.dev, job.session, r, world) then s.installs + [s.dev.Content()] else s.installs)
  }

  /** A round, as one step. */
  function AfterRound(p: Platform, job: Job, s: System, r: Request, round: Round): System
    requires s.dev.Valid() && s.host.i <= |job.parts|
  {
    var h := s.host.(waiting := Some(s.host.nextId), nextId := s.host.nextId + 1);
    match round
    case Answered(world) =>
      Performed(p, job, s, r, world).(host := Hear(job, h, Process(p, s.dev, job.session, r, world).1))
    case RequestDropped => s.(host := TimedOut(h))
    case AnswerDropped(world) => Performed(p, job, s, r, world).(host := TimedOut(h))
    case Declined(status) => s.(host := Hear(job, h, Failed(status)))
  }

  lemma RequestSent(p: Platform, job: Job, s: System, r: Request)
    requires job.Valid() && Safe(p, job, s) && Quiet(s) && NextRequest(p, job, s.host) == Some(r)
    ensures var h, m := s.host.(waiting := Some(s.host.nextId), nextId := s.host.nextId + 1),
                        Message(s.host.nextId, r, s.host.i);
            && Next(p, job, s, HostSends) == s.(host := h, toDev := [m])
            && FileUpload.Run(p, job, s, [HostSends, Taken]) == s.(host := h, executing := Some(m))
            && FileUpload.Run(p, job, s, [HostSends, RequestLost(0)]) == s.(host := h)
            && forall status :: FileUpload.Run(p, job, s, [HostSends, Refused(status)])
                             == s.(host := h, toHost := [Answer(m.id, Failed(status))])
  {
    Twice(p, job, s, HostSends, Taken);
    Twice(p, job, s, HostSends, RequestLost(0));
    forall status ensures FileUpload.Run(p, job, s, [HostSends, Refused(status)])
                       == Next(p, job, Next(p, job, s, HostSends), Refused(status)) {
      Twice(p, job, s, HostSends, Refused(status));
    }
  }

  lemma RequestServed(p: Platform, job: Job, s: System, r: Request, world: World)
    requires job.Valid() && Safe(p, job, s) && Quiet(s) && NextRequest(p, job, s.host) == Some(r)
    ensures var taken := FileUpload.Run(p, job, s, [HostSends, Taken]);
            var reply := Process(p, s.dev, job.session, r, world).1;
            && Safe(p, job, taken) && taken.dev == s.dev && taken.host.i == s.host.i
            && taken.host == s.host.(waiting := Some(s.host.nextId), nextId := s.host.nextId + 1)
            && Next(p, job, taken, Worked(world))
            == Performed(p, job, s, r, world).(host := taken.host, toHost := [Answer(s.host.nextId, reply)])
  {
    RequestSent(p, job, s, r);
    RunSafe(p, job, s, [HostSends, Taken]);
  }

  lemma AnsweredRuns(p: Platform, job: Job, s: System, r: Request, world: World)
    requires job.Valid() && Safe(p, job, s) && Quiet(s) && NextRequest(p, job, s.host) == Some(r)
    ensures FileUpload.Run(p, job, s, RoundEvents(Answered(world))) == AfterRound(p, job, s, r, Answered(world))
  {
    RequestServed(p, job, s, r, world);
    RunAppend(p, job, s, [HostSends, Taken], [Worked(world), HostHears]);
    Twice(p, job, FileUpload.Run(p, job, s, [HostSends, Taken]), Worked(world), HostHears);
  }

  lemma AnswerDroppedRuns(p: Platform, job: Job, s: System, r: Request, world: World)
    requires job.Valid() && Safe(p, job, s) && Quiet(s) && NextRequest(p, job, s.host) == Some(r)
    ensures FileUpload.Run(p, job, s, RoundEvents(AnswerDropped(world)))
         == AfterRound(p, job, s, r, AnswerDropped(world))
  {
    RequestServed(p, job, s, r, world);
    var taken := FileUpload.Run(p, job, s, [HostSends, Taken]);
    RunAppend(p, job, s, [HostSends, Taken], [Worked(world), AnswerLost(0)] + [HostTimesOut]);
    Twice(p, job, taken, Worked(world), AnswerLost(0));
    RunAppend(p, job, taken, [Worked(world), AnswerLost(0)], [HostTimesOut]);
    Once(p, job, FileUpload.Run(p, job, taken, [Worked(world), AnswerLost(0)]), HostTimesOut);
  }

  lemma UnseenRuns(p: Platform, job: Job, s: System, r: Request, round: Round)
    requires job.Valid() && Safe(p, job, s) && Quiet(s) && NextRequest(p, job, s.host) == Some(r)
    requires round.RequestDropped? || round.Declined?
    ensures FileUpload.Run(p, job, s, RoundEvents(round)) == AfterRound(p, job, s, r, round)
  {
    RequestSent(p, job, s, r);
    if round.RequestDropped? {
      RunAppend(p, job, s, [HostSends, RequestLost(0)], [HostTimesOut]);
      Once(p, job, FileUpload.Run(p, job, s, [HostSends, RequestLost(0)]), HostTimesOut);
    } else {
      RunAppend(p, job, s, [HostSends, Refused(round.status)], [HostHears]);
      Once(p, job, FileUpload.Run(p, job, s, [HostSends, Refused(round.status)]), HostHears);
    }
  }

  lemma RoundRuns(p: Platform, job: Job, s: System, r: Request, round: Round)
    requires job.Valid() && Safe(p, job, s) && Quiet(s) && NextRequest(p, job, s.host) == Some(r)
    ensures FileUpload.Run(p, job, s, RoundEvents(round)) == AfterRound(p, job, s, r, round)
    ensures Safe(p, job, AfterRound(p, job, s, r, round)) && Quiet(AfterRound(p, job, s, r, round))
  {
    RunSafe(p, job, s, RoundEvents(round));
    match round {
      case Answered(world) => AnsweredRuns(p, job, s, r, world);
      case AnswerDropped(world) => AnswerDroppedRuns(p, job, s, r, world);
      case _ => UnseenRuns(p, job, s, r, round);
    }
  }

  /** The world does what is asked of it; writes to the disk may be short. */
  predicate Kind(world: World) {
    && world.hashing && world.lookup == OK && world.disk == OK && world.closing == OK && world.renaming == OK
    && world.restat == OK
  }

  ghost predicate Willing(world: World) {
    Kind(world) && forall k: nat :: world.writes(k) > 0
  }

  lemma {:induction false} DiskTakesAll(writes: nat -> int, k: nat, remaining: nat)
    requires forall j: nat :: writes(j) > 0
    ensures DiskTakes(writes, k, remaining) == remaining
    decreases remaining
  {
    if 0 < remaining && writes(k) < remaining {
      DiskTakesAll(writes, k + 1, remaining - writes(k));
    }
  }

  /** A job that nothing speaks against: the body has the declared size, its parts fit, and digests have their
      size. */
  predicate Sendable(p: Platform, job: Job) {
    job.Valid() && job.exact && Sized(job.parts, p.chunkMax) && |p.hash(job.Whole())| == DIGEST_SIZE
  }

  /** The device's stream is open, its file is the first parts, and the target is as it was. */
  predicate Ready(p: Platform, job: Job, d: Service, written: nat)
    requires written <= |job.parts|
  {
    && d.Valid() && d.Writes(job.session, job.stream)
    && d.handle.w.size == job.size && d.handle.w.target == job.target && d.handle.w.temp != job.target
    && Etag(p, d.tree, job.target) == d.handle.w.existed
    && !(job.target in d.tree && d.tree[job.target].Directory?)
    && d.Content() == Sent(job.parts, written)
  }

  /** Between two rounds: the host counts on i parts, the device has written so many. */
  predicate Between(p: Platform, job: Job, s: System, i: nat, written: nat, phase: Phase)
    requires job.Valid() && i <= |job.parts| && written <= |job.parts|
  {
    && Safe(p, job, s) && Quiet(s) && s.host.i == i && s.host.phase == phase
    && s.written == written && s.installs == [] && Ready(p, job, s.dev, written)
  }

  /** The device has put the file in its place. */
  predicate Finished(p: Platform, job: Job, s: System, phase: Phase)
    requires job.Valid()
  {
    && Safe(p, job, s) && Quiet(s) && s.host.i == |job.parts| && s.host.phase == phase
    && s.installs == [job.Whole()] && s.dev.handle == NoHandle
    && s.dev.receipt == Some(Receipt(job.session, job.stream, job.size, job.size, Committed, OK))
    && job.target in s.dev.tree && s.dev.tree[job.target].File? && s.dev.tree[job.target].content == job.Whole()
  }

  /** What the device makes of the next part, of a question, and of the commit. */
  lemma PartLands(p: Platform, job: Job, d: Service, i: nat, world: World)
    requires Sendable(p, job) && i < |job.parts| && Ready(p, job, d, i) && Willing(world)
    ensures var (after, reply) := Process(p, d, job.session, Write(job.stream, Off(job.parts, i), job.parts[i]), world);
            Ready(p, job, after, i + 1) && reply == Acked(Off(job.parts, i + 1))
  {
    SentLength(job.parts, i);
    SentLength(job.parts, i + 1);
    OffIncreases(job.parts, i + 1, |job.parts|);
    DiskTakesAll(world.writes, 0, |job.parts[i]|);
    assert job.parts[i][..|job.parts[i]|] == job.parts[i];
  }

  lemma StatusTold(p: Platform, job: Job, d: Service, written: nat, world: World)
    requires Sendable(p, job) && written <= |job.parts| && Ready(p, job, d, written)
    ensures Process(p, d, job.session, WriteStatus(job.stream), world)
         == (d, StatusIs(Off(job.parts, written), job.size, Active, OK))
  {
    SentLength(job.parts, written);
  }

  lemma CommitLands(p: Platform, job: Job, d: Service, world: World)
    requires Sendable(p, job) && Ready(p, job, d, |job.parts|) && Willing(world)
    ensures var r := Commit(job.stream, p.hash(job.Whole()));
            var (after, reply) := Process(p, d, job.session, r, world);
            && Installs(p, d, job.session, r, world) && reply == Installed
            && after.handle == NoHandle
            && after.receipt == Some(Receipt(job.session, job.stream, job.size, job.size, Committed, OK))
            && job.target in after.tree && after.tree[job.target].File?
            && after.tree[job.target].content == job.Whole()
  {
    SentLength(job.parts, |job.parts|);
  }

  function EventsOf(rounds: seq<Round>): seq<Happening> {
    if rounds == [] then [] else RoundEvents(rounds[0]) + EventsOf(rounds[1..])
  }

  function Play(p: Platform, job: Job, s: System, rounds: seq<Round>): (end: System)
    requires job.Valid() && Safe(p, job, s)
  {
    FileUpload.Run(p, job, s, EventsOf(rounds))
  }

  lemma {:induction false} EventsAppend(a: seq<Round>, b: seq<Round>)
    ensures EventsOf(a + b) == EventsOf(a) + EventsOf(b)
  {
    if a == [] {
      assert a + b == b;
    } else {
      assert (a + b)[1..] == a[1..] + b;
      EventsAppend(a[1..], b);
      Assoc(RoundEvents(a[0]), EventsOf(a[1..]), EventsOf(b));
    }
  }

  lemma PlayAppend(p: Platform, job: Job, s: System, a: seq<Round>, b: seq<Round>)
    requires job.Valid() && Safe(p, job, s)
    ensures Safe(p, job, Play(p, job, s, a)) && Play(p, job, s, a + b) == Play(p, job, Play(p, job, s, a), b)
  {
    EventsAppend(a, b);
    RunAppend(p, job, s, EventsOf(a), EventsOf(b));
  }

  lemma PlayOne(p: Platform, job: Job, s: System, r: Request, round: Round)
    requires job.Valid() && Safe(p, job, s) && Quiet(s) && NextRequest(p, job, s.host) == Some(r)
    ensures Play(p, job, s, [round]) == AfterRound(p, job, s, r, round)
    ensures Safe(p, job, AfterRound(p, job, s, r, round)) && Quiet(AfterRound(p, job, s, r, round))
  {
    EventsOne(round);
    RoundRuns(p, job, s, r, round);
  }

  lemma EventsOne(round: Round)
    ensures EventsOf([round]) == RoundEvents(round)
  {
    assert [round][1..] == [] && RoundEvents(round) + [] == RoundEvents(round);
  }

  // One round in each phase.

  lemma SendingRound(p: Platform, job: Job, s: System, i: nat, attempt: nat, round: Round)
    requires Sendable(p, job) && i < |job.parts| && Between(p, job, s, i, i, Sending(attempt))
    requires match round case Answered(w) => Willing(w) case AnswerDropped(w) => Willing(w) case _ => true
    ensures match round
            case Answered(_) => Between(p, job, Play(p, job, s, [round]), i + 1, i + 1, Advance(job, i + 1))
            case AnswerDropped(_) => Between(p, job, Play(p, job, s, [round]), i, i + 1, Checking(attempt, 0))
            case RequestDropped => Between(p, job, Play(p, job, s, [round]), i, i, Checking(attempt, 0))
            case Declined(_) => Between(p, job, Play(p, job, s, [round]), i, i, Aborting)
  {
    PlayOne(p, job, s, Write(job.stream, Off(job.parts, i), job.parts[i]), round);
    match round {
      case Answered(w) => PartLands(p, job, s.dev, i, w);
      case AnswerDropped(w) => PartLands(p, job, s.dev, i, w);
      case _ =>
    }
  }

  lemma CheckingRound(p: Platform, job: Job, s: System, i: nat, written: nat, attempt: nat, tries: nat, round: Round)
    requires Sendable(p, job) && i < |job.parts| && i <= written <= i + 1
    requires Between(p, job, s, i, written, Checking(attempt, tries))
    requires round.Answered? || round == Declined(Busy)
    ensures var end := Play(p, job, s, [round]);
            var again := if tries + 1 < STATUS_TRIES then Checking(attempt, tries + 1) else Aborting;
            if round.Declined? then Between(p, job, end, i, written, again)
            else if written == i + 1 then Between(p, job, end, i + 1, i + 1, Advance(job, i + 1))
            else Between(p, job, end, i, i, if attempt == 0 then Sending(1) else Aborting)
  {
    PlayOne(p, job, s, WriteStatus(job.stream), round);
    if round.Answered? {
      StatusTold(p, job, s.dev, written, round.world);
      SameOffset(job.parts, i + 1, written);
    }
  }

  lemma CommittingRound(p: Platform, job: Job, s: System, again: bool, round: Round)
    requires Sendable(p, job) && Between(p, job, s, |job.parts|, |job.parts|, Committing(again))
    requires match round case Answered(w) => Willing(w) case AnswerDropped(w) => Willing(w) case _ => true
    ensures var late := if again then Aborting else Confirming(0);
            match round
            case Answered(_) => Finished(p, job, Play(p, job, s, [round]), Returned)
            case AnswerDropped(_) => Finished(p, job, Play(p, job, s, [round]), late)
            case RequestDropped => Between(p, job, Play(p, job, s, [round]), |job.parts|, |job.parts|, late)
            case Declined(_) => Between(p, job, Play(p, job, s, [round]), |job.parts|, |job.parts|, Aborting)
  {
    PlayOne(p, job, s, Commit(job.stream, p.hash(job.Whole())), round);
    match round {
      case Answered(w) => CommitLands(p, job, s.dev, w);
      case AnswerDropped(w) => CommitLands(p, job, s.dev, w);
      case _ =>
    }
  }

  lemma ConfirmingRound(p: Platform, job: Job, s: System, done: bool, tries: nat, round: Round)
    requires Sendable(p, job) && (round.Answered? || round == Declined(Busy))
    requires if done then Finished(p, job, s, Confirming(tries))
             else Between(p, job, s, |job.parts|, |job.parts|, Confirming(tries))
    ensures var end := Play(p, job, s, [round]);
            var to := if round.Declined? then (if tries + 1 < STATUS_TRIES then Confirming(tries + 1) else Aborting)
                      else if done then Stating else Committing(true);
            if done then Finished(p, job, end, to) else Between(p, job, end, |job.parts|, |job.parts|, to)
  {
    PlayOne(p, job, s, WriteStatus(job.stream), round);
    if !done && round.Answered? {
      StatusTold(p, job, s.dev, |job.parts|, round.world);
    }
  }

  lemma StatingRound(p: Platform, job: Job, s: System, world: World)
    requires Sendable(p, job) && Finished(p, job, s, Stating)
    ensures Finished(p, job, Play(p, job, s, [Answered(world)]), Returned)
  {
    PlayOne(p, job, s, Query, Answered(world));
  }

  // ------------------------------------------------------------------- whole uploads

  /** What gets lost while one request is made, and how often the device is then too busy to say how far it is. */
  datatype Loss = NoLoss | LosesRequest | LosesAnswer | LosesBoth

  datatype Fate = Fate(loss: Loss, busy: nat, world: World)

  ghost predicate Mild(f: Fate) {
    Willing(f.world) && f.busy < STATUS_TRIES
  }

  function BusyRounds(n: nat): seq<Round> {
    if n == 0 then [] else BusyRounds(n - 1) + [Declined(Busy)]
  }

  /** The rounds of one part: the write; if it was lost, the questions about it; if it had not arrived, the write
      again. */
  function PartRounds(f: Fate): seq<Round> {
    var asks := BusyRounds(f.busy) + [Answered(f.world)];
    match f.loss
    case NoLoss => [Answered(f.world)]
    case LosesRequest => [RequestDropped] + asks + [Answered(f.world)]
    case LosesAnswer => [AnswerDropped(f.world)] + asks
    case LosesBoth => [RequestDropped] + asks + ([AnswerDropped(f.world)] + asks)
  }

  /** The rounds of the commit: the same, with a stat if the commit had been done, and an abort if it is lost twice. */
  function CommitRounds(f: Fate): seq<Round> {
    var asks := BusyRounds(f.busy) + [Answered(f.world)];
    match f.loss
    case NoLoss => [Answered(f.world)]
    case LosesRequest => [RequestDropped] + asks + [Answered(f.world)]
    case LosesAnswer => [AnswerDropped(f.world)] + asks + [Answered(f.world)]
    case LosesBoth => [RequestDropped] + asks + ([AnswerDropped(f.world)] + [Answered(f.world)])
  }

  lemma {:induction false} BusyChecks(p: Platform, job: Job, s: System, i: nat, written: nat, attempt: nat, n: nat)
    requires Sendable(p, job) && i < |job.parts| && i <= written <= i + 1 && n <= STATUS_TRIES
    requires Between(p, job, s, i, written, Checking(attempt, 0))
    ensures Between(p, job, Play(p, job, s, BusyRounds(n)), i, written,
                    if n < STATUS_TRIES then Checking(attempt, n) else Aborting)
  {
    if n > 0 {
      BusyChecks(p, job, s, i, written, attempt, n - 1);
      PlayAppend(p, job, s, BusyRounds(n - 1), [Declined(Busy)]);
      CheckingRound(p, job, Play(p, job, s, BusyRounds(n - 1)), i, written, attempt, n - 1, Declined(Busy));
    }
  }

  lemma Checks(p: Platform, job: Job, s: System, i: nat, written: nat, attempt: nat, f: Fate)
    requires Sendable(p, job) && Mild(f) && i < |job.parts| && i <= written <= i + 1
    requires Between(p, job, s, i, written, Checking(attempt, 0))
    ensures var end := Play(p, job, s, BusyRounds(f.busy) + [Answered(f.world)]);
            if written == i + 1 then Between(p, job, end, i + 1, i + 1, Advance(job, i + 1))
            else Between(p, job, end, i, i, if attempt == 0 then Sending(1) else Aborting)
  {
    BusyChecks(p, job, s, i, written, attempt, f.busy);
    PlayAppend(p, job, s, BusyRounds(f.busy), [Answered(f.world)]);
    CheckingRound(p, job, Play(p, job, s, BusyRounds(f.busy)), i, written, attempt, f.busy, Answered(f.world));
  }

  lemma AnswerDroppedPart(p: Platform, job: Job, s: System, i: nat, attempt: nat, f: Fate)
    requires Sendable(p, job) && Mild(f) && i < |job.parts| && Between(p, job, s, i, i, Sending(attempt))
    ensures var rounds := [AnswerDropped(f.world)] + (BusyRounds(f.busy) + [Answered(f.world)]);
            Between(p, job, Play(p, job, s, rounds), i + 1, i + 1, Advance(job, i + 1))
  {
    SendingRound(p, job, s, i, attempt, AnswerDropped(f.world));
    PlayAppend(p, job, s, [AnswerDropped(f.world)], BusyRounds(f.busy) + [Answered(f.world)]);
    Checks(p, job, Play(p, job, s, [AnswerDropped(f.world)]), i, i + 1, attempt, f);
  }

  lemma RequestDroppedPart(p: Platform, job: Job, s: System, i: nat, f: Fate)
    requires Sendable(p, job) && Mild(f) && i < |job.parts| && Between(p, job, s, i, i, Sending(0))
    ensures var rounds := [RequestDropped] + (BusyRounds(f.busy) + [Answered(f.world)]);
            Between(p, job, Play(p, job, s, rounds), i, i, Sending(1))
  {
    SendingRound(p, job, s, i, 0, RequestDropped);
    PlayAppend(p, job, s, [RequestDropped], BusyRounds(f.busy) + [Answered(f.world)]);
    Checks(p, job, Play(p, job, s, [RequestDropped]), i, i, 0, f);
  }

  /** Whatever is lost of one part, it is sent, and upload knows it. */
  lemma PartSent(p: Platform, job: Job, s: System, i: nat, f: Fate)
    requires Sendable(p, job) && Mild(f) && i < |job.parts| && Between(p, job, s, i, i, Sending(0))
    ensures Between(p, job, Play(p, job, s, PartRounds(f)), i + 1, i + 1, Advance(job, i + 1))
  {
    var asks := BusyRounds(f.busy) + [Answered(f.world)];
    match f.loss {
      case NoLoss => SendingRound(p, job, s, i, 0, Answered(f.world));
      case LosesAnswer => AnswerDroppedPart(p, job, s, i, 0, f);
      case LosesRequest =>
        RequestDroppedPart(p, job, s, i, f);
        PlayAppend(p, job, s, [RequestDropped] + asks, [Answered(f.world)]);
        SendingRound(p, job, Play(p, job, s, [RequestDropped] + asks), i, 1, Answered(f.world));
      case LosesBoth =>
        RequestDroppedPart(p, job, s, i, f);
        PlayAppend(p, job, s, [RequestDropped] + asks, [AnswerDropped(f.world)] + asks);
        AnswerDroppedPart(p, job, Play(p, job, s, [RequestDropped] + asks), i, 1, f);
    }
  }

  function PartsRounds(fates: seq<Fate>): seq<Round> {
    if fates == [] then [] else PartRounds(fates[0]) + PartsRounds(fates[1..])
  }

  lemma {:induction false} PartsSent(p: Platform, job: Job, s: System, i: nat, fates: seq<Fate>)
    requires Sendable(p, job) && i + |fates| == |job.parts| && forall f :: f in fates ==> Mild(f)
    requires Between(p, job, s, i, i, Advance(job, i))
    ensures Between(p, job, Play(p, job, s, PartsRounds(fates)), |job.parts|, |job.parts|, Committing(false))
    decreases |fates|
  {
    if fates != [] {
      PartSent(p, job, s, i, fates[0]);
      PlayAppend(p, job, s, PartRounds(fates[0]), PartsRounds(fates[1..]));
      PartsSent(p, job, Play(p, job, s, PartRounds(fates[0])), i + 1, fates[1..]);
    }
  }

  lemma {:induction false} BusyConfirms(p: Platform, job: Job, s: System, done: bool, n: nat)
    requires Sendable(p, job) && n < STATUS_TRIES
    requires if done then Finished(p, job, s, Confirming(0))
             else Between(p, job, s, |job.parts|, |job.parts|, Confirming(0))
    ensures var end := Play(p, job, s, BusyRounds(n));
            if done then Finished(p, job, end, Confirming(n))
            else Between(p, job, end, |job.parts|, |job.parts|, Confirming(n))
  {
    if n > 0 {
      BusyConfirms(p, job, s, done, n - 1);
      PlayAppend(p, job, s, BusyRounds(n - 1), [Declined(Busy)]);
      ConfirmingRound(p, job, Play(p, job, s, BusyRounds(n - 1)), done, n - 1, Declined(Busy));
    }
  }

  lemma Confirms(p: Platform, job: Job, s: System, done: bool, f: Fate)
    requires Sendable(p, job) && Mild(f)
    requires if done then Finished(p, job, s, Confirming(0))
             else Between(p, job, s, |job.parts|, |job.parts|, Confirming(0))
    ensures var end := Play(p, job, s, BusyRounds(f.busy) + [Answered(f.world)]);
            if done then Finished(p, job, end, Stating)
            else Between(p, job, end, |job.parts|, |job.parts|, Committing(true))
  {
    BusyConfirms(p, job, s, done, f.busy);
    PlayAppend(p, job, s, BusyRounds(f.busy), [Answered(f.world)]);
    ConfirmingRound(p, job, Play(p, job, s, BusyRounds(f.busy)), done, f.busy, Answered(f.world));
  }

  lemma RequestDroppedCommit(p: Platform, job: Job, s: System, f: Fate)
    requires Sendable(p, job) && Mild(f) && Between(p, job, s, |job.parts|, |job.parts|, Committing(false))
    ensures var rounds := [RequestDropped] + (BusyRounds(f.busy) + [Answered(f.world)]);
            Between(p, job, Play(p, job, s, rounds), |job.parts|, |job.parts|, Committing(true))
  {
    CommittingRound(p, job, s, false, RequestDropped);
    PlayAppend(p, job, s, [RequestDropped], BusyRounds(f.busy) + [Answered(f.world)]);
    Confirms(p, job, Play(p, job, s, [RequestDropped]), false, f);
  }

  lemma AnswerDroppedCommit(p: Platform, job: Job, s: System, f: Fate)
    requires Sendable(p, job) && Mild(f) && Between(p, job, s, |job.parts|, |job.parts|, Committing(false))
    ensures var rounds := [AnswerDropped(f.world)] + (BusyRounds(f.busy) + [Answered(f.world)]);
            Finished(p, job, Play(p, job, s, rounds), Stating)
  {
    CommittingRound(p, job, s, false, AnswerDropped(f.world));
    PlayAppend(p, job, s, [AnswerDropped(f.world)], BusyRounds(f.busy) + [Answered(f.world)]);
    Confirms(p, job, Play(p, job, s, [AnswerDropped(f.world)]), true, f);
  }

  lemma AbortingRound(p: Platform, job: Job, s: System, world: World)
    requires Sendable(p, job) && Finished(p, job, s, Aborting)
    ensures Finished(p, job, Play(p, job, s, [Answered(world)]), Raised)
  {
    PlayOne(p, job, s, Abort(job.stream), Answered(world));
  }

  /** Whatever is lost of the commit, the file is installed; upload returns unless request and answer are lost. */
  lemma CommitSent(p: Platform, job: Job, s: System, f: Fate)
    requires Sendable(p, job) && Mild(f) && Between(p, job, s, |job.parts|, |job.parts|, Committing(false))
    ensures Finished(p, job, Play(p, job, s, CommitRounds(f)), if f.loss == LosesBoth then Raised else Returned)
  {
    var asks := BusyRounds(f.busy) + [Answered(f.world)];
    match f.loss {
      case NoLoss => CommittingRound(p, job, s, false, Answered(f.world));
      case LosesAnswer =>
        AnswerDroppedCommit(p, job, s, f);
        PlayAppend(p, job, s, [AnswerDropped(f.world)] + asks, [Answered(f.world)]);
        StatingRound(p, job, Play(p, job, s, [AnswerDropped(f.world)] + asks), f.world);
      case LosesRequest =>
        RequestDroppedCommit(p, job, s, f);
        PlayAppend(p, job, s, [RequestDropped] + asks, [Answered(f.world)]);
        CommittingRound(p, job, Play(p, job, s, [RequestDropped] + asks), true, Answered(f.world));
      case LosesBoth =>
        RequestDroppedCommit(p, job, s, f);
        PlayAppend(p, job, s, [RequestDropped] + asks, [AnswerDropped(f.world)] + [Answered(f.world)]);
        var mid := Play(p, job, s, [RequestDropped] + asks);
        CommittingRound(p, job, mid, true, AnswerDropped(f.world));
        PlayAppend(p, job, mid, [AnswerDropped(f.world)], [Answered(f.world)]);
        AbortingRound(p, job, Play(p, job, mid, [AnswerDropped(f.world)]), f.world);
    }
  }

  /** The stream that WRITE_OPEN has opened is ready. */
  lemma StartReady(p: Platform, s: Service, session: nat, r: Request, world: World, chunks: seq<seq<byte>>)
    requires s.Valid() && r.WriteOpen? && 0 < p.chunkMax && AfterWriteOpen(p, s, session, r, world).1.Opened?
    requires FreeName(s.tree, world.names, 0) != Some(r.target)
    ensures var job := JobOf(session, world.stream, r.target, r.size, chunks, p.chunkMax);
            var start := Start(job, AfterWriteOpen(p, s, session, r, world).0);
            job.Valid() && Safe(p, job, start) && Between(p, job, start, 0, 0, Advance(job, 0))
  {
    StartSafe(p, s, session, r, world, chunks);
  }

  lemma JobSendable(p: Platform, session: nat, stream: nat, target: Path, size: nat, chunks: seq<seq<byte>>)
    requires 0 < p.chunkMax && |Concat(chunks)| == size && |p.hash(Concat(chunks))| == DIGEST_SIZE
    ensures Sendable(p, JobOf(session, stream, target, size, chunks, p.chunkMax))
    ensures JobOf(session, stream, target, size, chunks, p.chunkMax).Whole() == Concat(chunks)
  {
    JobValid(session, stream, target, size, chunks, p.chunkMax);
    PlanExact(chunks, size, p.chunkMax, 0);
  }

  /** An upload of the declared size ends with the file in the target's place, whichever requests and answers are
      lost, of whichever parts, each at most once: upload then returns, unless the commit is lost both ways. */
  lemma UploadSucceeds(p: Platform, s: Service, session: nat, r: Request, world: World, chunks: seq<seq<byte>>,
                       fates: seq<Fate>, last: Fate)
    requires s.Valid() && r.WriteOpen? && 0 < p.chunkMax && AfterWriteOpen(p, s, session, r, world).1.Opened?
    requires FreeName(s.tree, world.names, 0) != Some(r.target)
    requires |Concat(chunks)| == r.size && |p.hash(Concat(chunks))| == DIGEST_SIZE
    requires |fates| == |JobOf(session, world.stream, r.target, r.size, chunks, p.chunkMax).parts|
    requires Mild(last) && forall f :: f in fates ==> Mild(f)
    ensures var job := JobOf(session, world.stream, r.target, r.size, chunks, p.chunkMax);
            var start := Start(job, AfterWriteOpen(p, s, session, r, world).0);
            && job.Valid() && Safe(p, job, start)
            && var end := FileUpload.Run(p, job, start, EventsOf(PartsRounds(fates) + CommitRounds(last)));
               && end.host.phase == (if last.loss == LosesBoth then Raised else Returned)
               && end.installs == [Concat(chunks)]
               && r.target in end.dev.tree && end.dev.tree[r.target].File?
               && end.dev.tree[r.target].content == Concat(chunks)
  {
    var job := JobOf(session, world.stream, r.target, r.size, chunks, p.chunkMax);
    var start := Start(job, AfterWriteOpen(p, s, session, r, world).0);
    StartReady(p, s, session, r, world, chunks);
    JobSendable(p, session, world.stream, r.target, r.size, chunks);
    PartsSent(p, job, start, 0, fates);
    PlayAppend(p, job, start, PartsRounds(fates), CommitRounds(last));
    CommitSent(p, job, Play(p, job, start, PartsRounds(fates)), last);
  }

  /** Whatever goes wrong before the commit, the abort takes the temporary file away and leaves the rest. */
  lemma AbortClears(p: Platform, job: Job, s: System, world: World)
    requires job.Valid() && Safe(p, job, s) && Quiet(s) && s.host.phase == Aborting
    requires s.dev.Writes(job.session, job.stream)
    ensures var end := Play(p, job, s, [Answered(world)]);
            && end.host.phase == Raised && end.dev.handle == NoHandle && end.installs == s.installs
            && end.dev.tree == (if world.unlinks then s.dev.tree - {s.dev.handle.w.temp} else s.dev.tree)
            && end.dev.receipt.Some? && end.dev.receipt.value.state == Aborted
  {
    PlayOne(p, job, s, Abort(job.stream), Answered(world));
  }

  /** A world in which nothing fails. */
  function Kindly(world: World): World {
    world.(hashing := true, lookup := OK, disk := OK, closing := OK, renaming := OK, restat := OK,
           writes := (k: nat) => 1)
  }

  function Smooth(world: World, n: nat): (fates: seq<Fate>)
    ensures |fates| == n
  {
    seq(n, i => Fate(NoLoss, 0, Kindly(world)))
  }

  /** Exactly when an upload whose stream is open can ever return: when the body has the declared size. */
  lemma UploadCanReturnIff(p: Platform, s: Service, session: nat, r: Request, world: World, chunks: seq<seq<byte>>)
    requires s.Valid() && r.WriteOpen? && 0 < p.chunkMax && AfterWriteOpen(p, s, session, r, world).1.Opened?
    requires FreeName(s.tree, world.names, 0) != Some(r.target) && |p.hash(Concat(chunks))| == DIGEST_SIZE
    ensures var job := JobOf(session, world.stream, r.target, r.size, chunks, p.chunkMax);
            var start := Start(job, AfterWriteOpen(p, s, session, r, world).0);
            && job.Valid() && Safe(p, job, start)
            && ((exists events :: FileUpload.Run(p, job, start, events).host.phase == Returned)
                <==> |Concat(chunks)| == r.size)
  {
    var job := JobOf(session, world.stream, r.target, r.size, chunks, p.chunkMax);
    var start := Start(job, AfterWriteOpen(p, s, session, r, world).0);
    StartSafe(p, s, session, r, world, chunks);
    if |Concat(chunks)| == r.size {
      var fates, last := Smooth(world, |job.parts|), Fate(NoLoss, 0, Kindly(world));
      UploadSucceeds(p, s, session, r, world, chunks, fates, last);
    }
    forall events | FileUpload.Run(p, job, start, events).host.phase == Returned
      ensures |Concat(chunks)| == r.size
    {
      UploadExactlyOnce(p, s, session, r, world, chunks, events);
    }
  }
}
