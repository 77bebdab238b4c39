/** Uploading a file: the gateway's upload, its retries and status checks, over a link that may drop any request
    or answer, against the device's file service. The run starts when the write stream has been opened. */
module FileUpload {
  import opened Bytes
  import opened FileService
  import opened Parts

  // -------------------------------------------------------------- cutting the body

  /** The parts upload will send, and whether it will then find that it has sent exactly the declared size. */
  datatype Plan = Plan(parts: seq<seq<byte>>, exact: bool)

  function PlanOf(chunks: seq<seq<byte>>, total: nat, chunkMax: nat, committed: nat): Plan
    requires 0 < chunkMax
    decreases |chunks|
  {
    if chunks == [] then Plan([], committed == total)
    else if committed + |chunks[0]| > total then Plan([], false)
    else
      var rest := PlanOf(chunks[1..], total, chunkMax, committed + |chunks[0]|);
      Plan(Cut(chunks[0], chunkMax) + rest.parts, rest.exact)
  }

  /** The plan is exact precisely when the body has the declared size, and then it sends the body. */
  lemma {:induction false} PlanExact(chunks: seq<seq<byte>>, total: nat, chunkMax: nat, committed: nat)
    requires 0 < chunkMax && committed <= total
    ensures var plan := PlanOf(chunks, total, chunkMax, committed);
            && Sized(plan.parts, chunkMax)
            && (plan.exact <==> committed + |Concat(chunks)| == total)
            && (plan.exact ==> Concat(plan.parts) == Concat(chunks))
    decreases |chunks|
  {
    if chunks != [] && committed + |chunks[0]| <= total {
      CutWhole(chunks[0], chunkMax);
      PlanExact(chunks[1..], total, chunkMax, committed + |chunks[0]|);
      ConcatAppend(Cut(chunks[0], chunkMax), PlanOf(chunks[1..], total, chunkMax, committed + |chunks[0]|).parts);
    }
  }

  // ------------------------------------------------------------------ both sides

  /** One upload: its session, the stream the device opened for it, the target, the declared size and the plan. */
  datatype Job = Job(session: nat, stream: nat, target: Path, size: nat, parts: seq<seq<byte>>, exact: bool) {
    predicate Valid() {
      && (forall k :: 0 <= k < |parts| ==> parts[k] != [])
      && (exact ==> Off(parts, |parts|) == size)
    }

    function Whole(): seq<byte> {
      Sent(parts, |parts|)
    }
  }

  datatype Phase = Sending(attempt: nat) | Checking(attempt: nat, tries: nat) | Committing(again: bool)
                 | Confirming(tries: nat) | Stating | Returned | Aborting | Raised

  /** Where upload is: its phase, the request it waits for, the next request id and the parts acknowledged. */
  datatype Host = Host(phase: Phase, waiting: Option<nat>, nextId: nat, i: nat)

  datatype Message = Message(id: nat, r: Request, part: nat)

  datatype Answer = Answer(id: nat, reply: Reply)

  /** Both sides and the link; for the record, how many writes the device has accepted and what its commits have
      put in the target's place. */
  datatype System = System(dev: Service, host: Host, toDev: seq<Message>, toHost: seq<Answer>,
                           executing: Option<Message>, written: nat, installs: seq<seq<byte>>)

  const STATUS_TRIES: nat := 12

  /** After part i: the next part, the commit, or the complaint that the body has the wrong size. */
  function Advance(job: Job, i: nat): Phase {
    if i < |job.parts| then Sending(0) else if job.exact then Committing(false) else Aborting
  }

  function NextRequest(p: Platform, job: Job, h: Host): Option<Request>
    requires h.i <= |job.parts|
  {
    match h.phase
    case Sending(_) =>
      if h.i < |job.parts| then Some(Write(job.stream, Off(job.parts, h.i), job.parts[h.i])) else None
    case Checking(_, _) => Some(WriteStatus(job.stream))
    case Confirming(_) => Some(WriteStatus(job.stream))
    case Committing(_) => Some(Commit(job.stream, p.hash(Sent(job.parts, h.i))))
    case Stating => Some(Query)
    case Aborting => Some(Abort(job.stream))
    case Returned => None
    case Raised => None
  }

  /** What upload makes of the answer to the request it waits for. */
  function Hear(job: Job, h: Host, reply: Reply): Host
    requires h.i <= |job.parts|
  {
    var idle := h.(waiting := None);
    match h.phase
    case Sending(_) =>
      if h.i < |job.parts| && reply == Acked(Off(job.parts, h.i + 1)) then
        idle.(i := h.i + 1, phase := Advance(job, h.i + 1))
      else idle.(phase := Aborting)
    case Checking(attempt, tries) =>
      if reply == Failed(Busy) && tries + 1 < STATUS_TRIES then idle.(phase := Checking(attempt, tries + 1))
      else if !reply.StatusIs? || h.i >= |job.parts| then idle.(phase := Aborting)
      else if reply.committed == Off(job.parts, h.i + 1) then idle.(i := h.i + 1, phase := Advance(job, h.i + 1))
      else if reply.committed != Off(job.parts, h.i) || attempt != 0 then idle.(phase := Aborting)
      else idle.(phase := Sending(1))
    case Committing(_) => idle.(phase := if reply == Installed then Returned else Aborting)
    case Confirming(tries) =>
      if reply == Failed(Busy) && tries + 1 < STATUS_TRIES then idle.(phase := Confirming(tries + 1))
      else if !reply.StatusIs? then idle.(phase := Aborting)
      else if reply.state == Committed && reply.result == OK then idle.(phase := Stating)
      else idle.(phase := if reply.state == Active then Committing(true) else Aborting)
    case Stating => idle.(phase := if reply == Done then Returned else Raised)
    case Aborting => idle.(phase := Raised)
    case Returned => idle
    case Raised => idle
  }

  function TimedOut(h: Host): Host {
    var idle := h.(waiting := None);
    match h.phase
    case Sending(attempt) => idle.(phase := Checking(attempt, 0))
    case Committing(again) => idle.(phase := if again then Aborting else Confirming(0))
    case Checking(_, _) => idle.(phase := Aborting)
    case Confirming(_) => idle.(phase := Aborting)
    case Stating => idle.(phase := Raised)
    case Aborting => idle.(phase := Raised)
    case Returned => idle
    case Raised => idle
  }

  /** An error from elsewhere: the progress callback, the body, a lost connection, a cancellation. */
  function GivenUp(h: Host): Host {
    match h.phase
    case Returned => h
    case Raised => h
    case Stating => h.(phase := Raised, waiting := None)
    case Aborting => h.(phase := Raised, waiting := None)
    case Sending(_) => h.(phase := Aborting, waiting := None)
    case Checking(_, _) => h.(phase := Aborting, waiting := None)
    case Committing(_) => h.(phase := Aborting, waiting := None)
    case Confirming(_) => h.(phase := Aborting, waiting := None)
  }

  /** Whoever answers: an answer that is not the one awaited makes upload abort, or raise if it has nothing to abort any
      more; so it goes on only on an acknowledgement of its very part, on a status that puts the device at its part or
      just behind it, and on a commit that has succeeded or not been seen. */
  lemma UnexpectedEnds(job: Job, h: Host, reply: Reply)
    requires h.i <= |job.parts|
    ensures h.phase.Sending? && h.i < |job.parts| && reply != Acked(Off(job.parts, h.i + 1)) ==>
              Hear(job, h, reply).phase == Aborting
    ensures h.phase.Checking? && h.i < |job.parts| && !(reply == Failed(Busy) && h.phase.tries + 1 < STATUS_TRIES)
            && !(reply.StatusIs? && (reply.committed == Off(job.parts, h.i + 1)
                                     || (reply.committed == Off(job.parts, h.i) && h.phase.attempt == 0))) ==>
              Hear(job, h, reply).phase == Aborting
    ensures h.phase.Committing? && reply != Installed ==> Hear(job, h, reply).phase == Aborting
    ensures h.phase.Confirming? && !(reply == Failed(Busy) && h.phase.tries + 1 < STATUS_TRIES)
            && !(reply.StatusIs? && ((reply.state == Committed && reply.result == OK) || reply.state == Active)) ==>
              Hear(job, h, reply).phase == Aborting
    ensures (h.phase == Stating && reply != Done) || h.phase == Aborting ==> Hear(job, h, reply).phase == Raised
    ensures h.phase == Returned || h.phase == Raised ==> Hear(job, h, reply).phase == h.phase
  {
  }

  /** Timeouts lead to a question, or to an end; other errors to an end. */
  lemma FailuresEnd(h: Host)
    ensures TimedOut(h).waiting == None && TimedOut(h).i == h.i
    ensures match h.phase
            case Sending(attempt) => TimedOut(h).phase == Checking(attempt, 0)
            case Committing(again) => TimedOut(h).phase == if again then Aborting else Confirming(0)
            case Checking(_, _) => TimedOut(h).phase == Aborting
            case Confirming(_) => TimedOut(h).phase == Aborting
            case Stating => TimedOut(h).phase == Raised
            case Aborting => TimedOut(h).phase == Raised
            case _ => TimedOut(h).phase == h.phase
    ensures h.phase == Returned || h.phase == Raised ==> GivenUp(h) == h
    ensures h.phase == Stating || h.phase == Aborting ==> GivenUp(h).phase == Raised
    ensures h.phase.Sending? || h.phase.Checking? || h.phase.Committing? || h.phase.Confirming? ==>
              GivenUp(h).phase == Aborting && GivenUp(h).waiting == None
  {
  }

  /** What can happen next. Requests and answers may be lost anywhere in their queues; the device may refuse a
      request unseen, because its file task or its executor is busy; other clients use the file service, never
      on this stream; the session may end; and the application on the device may change files of its own. */
  datatype Happening = HostSends | HostHears | HostTimesOut | HostGivesUp
                     | RequestLost(k: nat) | AnswerLost(k: nat)
                     | Taken | Refused(status: Status) | Worked(world: World)
                     | Others(session: nat, r: Request, world: World)
                     | SessionEnds(session: nat, unlinks: bool) | Outside(path: Path, node: Node)

  /** A request of someone else: not to this stream, and opening none of the same number. */
  predicate Alien(job: Job, session: nat, r: Request, world: World) {
    && world.stream != job.stream
    && !(session == job.session
         && (r == Abort(job.stream) || (r.Write? && r.stream == job.stream) || (r.Commit? && r.stream == job.stream)))
  }

  function Work(p: Platform, job: Job, s: System, m: Message, world: World): System
    requires s.dev.Valid()
  {
    var (dev, reply) := Process(p, s.dev, job.session, m.r, world);
    s.(dev := dev, executing := None, toHost := s.toHost + [Answer(m.id, reply)],
       written := if m.r.Write? && reply.Acked? then s.written + 1 else s.written,
       installs := if Installs(p, s.dev, job.session, m.r, world) then s.installs + [s.dev.Content()] else s.installs)
  }

  function Next(p: Platform, job: Job, s: System, e: Happening): System
    requires s.dev.Valid() && s.host.i <= |job.parts|
  {
    match e
    case HostSends =>
      var r := NextRequest(p, job, s.host);
      if s.host.waiting.Some? || r.None? then s
      else s.(host := s.host.(waiting := Some(s.host.nextId), nextId := s.host.nextId + 1),
              toDev := s.toDev + [Message(s.host.nextId, r.value, s.host.i)])
    case HostHears =>
      if s.toHost == [] then s
      else s.(toHost := s.toHost[1..],
              host := if s.host.waiting == Some(s.toHost[0].id) then Hear(job, s.host, s.toHost[0].reply) else s.host)
    case HostTimesOut => if s.host.waiting.None? then s else s.(host := TimedOut(s.host))
    case HostGivesUp => s.(host := GivenUp(s.host))
    case RequestLost(k) => if k < |s.toDev| then s.(toDev := Without(s.toDev, k)) else s
    case AnswerLost(k) => if k < |s.toHost| then s.(toHost := Without(s.toHost, k)) else s
    case Taken =>
      if s.toDev == [] || s.executing.Some? then s else s.(executing := Some(s.toDev[0]), toDev := s.toDev[1..])
    case Refused(status) =>
      if s.toDev == [] then s
      else s.(toDev := s.toDev[1..], toHost := s.toHost + [Answer(s.toDev[0].id, Failed(status))])
    case Worked(world) => if s.executing.None? then s else Work(p, job, s, s.executing.value, world)
    case Others(session, r, world) =>
      if s.executing.Some? || !Alien(job, session, r, world) then s
      else s.(dev := Process(p, s.dev, session, r, world).0)
    case SessionEnds(session, unlinks) => s.(dev := SessionEnded(s.dev, session, unlinks))
    case Outside(path, node) =>
      if s.dev.handle.Writing? && path == s.dev.handle.w.temp then s
      else s.(dev := s.dev.(tree := s.dev.tree[path := node]))
  }

  /** One request at a time on either side, and only its own answer ends a wait; and what the surroundings may do,
      they can do at any moment the device is free. */
  lemma TurnsTaken(p: Platform, job: Job, s: System, e: Happening)
    requires s.dev.Valid() && s.host.i <= |job.parts|
    ensures s.host.waiting.Some? ==> Next(p, job, s, HostSends) == s
    ensures s.host.waiting.None? ==> Next(p, job, s, HostTimesOut) == s
    ensures s.toHost != [] && s.host.waiting != Some(s.toHost[0].id) ==>
              Next(p, job, s, HostHears) == s.(toHost := s.toHost[1..])
    ensures s.executing.Some? ==> Next(p, job, s, Taken) == s
    ensures e.Others? && s.executing.None? && Alien(job, e.session, e.r, e.world) ==>
              Next(p, job, s, e) == s.(dev := Process(p, s.dev, e.session, e.r, e.world).0)
    ensures e.Others? && s.executing.Some? ==> Next(p, job, s, e) == s
    ensures e.Outside? && !(s.dev.handle.Writing? && e.path == s.dev.handle.w.temp) ==>
              Next(p, job, s, e).dev.tree == s.dev.tree[e.path := e.node]
    ensures Next(p, job, s, HostGivesUp) == s.(host := GivenUp(s.host))
  {
  }

  // ---------------------------------------------------------------------- safety

  /** While the stream is open its temporary file is the first written parts, and nothing has been installed. */
  predicate Stored(job: Job, s: System) {
    && s.dev.Valid()
    && s.host.i <= s.written <= s.host.i + 1 && s.written <= |job.parts|
    && (s.installs == [] || s.installs == [job.Whole()])
    && (s.dev.Writes(job.session, job.stream) ==>
          && s.dev.Content() == Sent(job.parts, s.written)
          && s.dev.handle.w.size == job.size && s.dev.handle.w.target == job.target
          && s.installs == [])
  }

  /** Where upload can be, and what it may claim. */
  predicate InPhase(job: Job, s: System) {
    match s.host.phase
    case Sending(_) => s.host.i < |job.parts|
    case Checking(_, _) => s.host.i < |job.parts|
    case Committing(_) => s.host.i == |job.parts| && job.exact
    case Confirming(_) => s.host.i == |job.parts| && job.exact
    case Stating => job.exact && s.installs == [job.Whole()]
    case Returned => job.exact && s.installs == [job.Whole()]
    case Aborting => true
    case Raised => true
  }

  /** Every request under way is one upload makes: a part it has reached, or the digest of the whole. */
  predicate Asked(p: Platform, job: Job, i: nat, m: Message) {
    match m.r
    case Write(stream, offset, data) =>
      && stream == job.stream && m.part <= i && m.part < |job.parts|
      && offset == Off(job.parts, m.part) && data == job.parts[m.part]
    case Commit(stream, digest) =>
      stream == job.stream && i == |job.parts| && job.exact && digest == p.hash(job.Whole())
    case Abort(stream) => stream == job.stream
    case WriteStatus(stream) => stream == job.stream
    case Query => true
    case _ => false
  }

  /** What an answer says has happened has happened. */
  predicate Truthful(job: Job, written: nat, installs: seq<seq<byte>>, reply: Reply)
    requires written <= |job.parts|
  {
    match reply
    case Acked(c) => c <= Off(job.parts, written)
    case StatusIs(c, _, state, _) =>
      c <= Off(job.parts, written) && (state == Committed ==> installs == [job.Whole()])
    case Installed => installs == [job.Whole()]
    case _ => true
  }

  predicate Received(job: Job, s: System)
    requires s.written <= |job.parts|
  {
    s.dev.receipt.Some? && s.dev.receipt.value.session == job.session && s.dev.receipt.value.stream == job.stream ==>
      var r := s.dev.receipt.value;
      Truthful(job, s.written, s.installs, StatusIs(r.committed, r.expected, r.state, r.result))
  }

  predicate Safe(p: Platform, job: Job, s: System) {
    && Stored(job, s) && InPhase(job, s) && Received(job, s)
    && (forall m :: m in s.toDev ==> Asked(p, job, s.host.i, m))
    && (s.executing.Some? ==> Asked(p, job, s.host.i, s.executing.value))
    && (forall a :: a in s.toHost ==> Truthful(job, s.written, s.installs, a.reply))
  }

  /** A write the device accepts is the very next part. */
  lemma AcceptsNext(p: Platform, job: Job, s: System, m: Message)
    requires job.Valid() && Safe(p, job, s) && Asked(p, job, s.host.i, m) && m.r.Write?
    requires Acceptable(p, s.dev, job.session, m.r) && m.r.stream == job.stream
    ensures m.part == s.written && m.r.data == job.parts[s.written]
    ensures s.dev.Content() + m.r.data == Sent(job.parts, s.written + 1)
  {
    SentLength(job.parts, s.written);
    SameOffset(job.parts, m.part, s.written);
    SameOffset(job.parts, s.written, m.part);
  }

  /** A commit the device installs installs the whole. */
  lemma InstallsWhole(p: Platform, job: Job, s: System, m: Message, world: World)
    requires job.Valid() && Safe(p, job, s) && Asked(p, job, s.host.i, m)
    requires Installs(p, s.dev, job.session, m.r, world) && m.r.stream == job.stream
    ensures s.dev.Content() == job.Whole() && s.installs == []
    ensures s.written == |job.parts|
  {
    SentLength(job.parts, s.written);
    SameOffset(job.parts, |job.parts|, s.written);
  }

  lemma TruthKept(job: Job, written: nat, installs: seq<seq<byte>>, later: nat, after: seq<seq<byte>>, reply: Reply)
    requires job.Valid() && written <= later <= |job.parts| && (after == installs || after == [job.Whole()])
    requires Truthful(job, written, installs, reply)
    ensures Truthful(job, later, after, reply)
  {
    OffIncreases(job.parts, written, later);
  }

  /** The device's part of a step: its file, its receipt, its answer, and nothing taken back. */
  predicate Served(job: Job, s: System, after: System, reply: Reply) {
    && Stored(job, after) && Received(job, after) && Truthful(job, after.written, after.installs, reply)
    && s.written <= after.written && (after.installs == s.installs || after.installs == [job.Whole()])
  }

  lemma WriteServed(p: Platform, job: Job, s: System, m: Message, world: World)
    requires job.Valid() && Safe(p, job, s) && Asked(p, job, s.host.i, m) && m.r.Write?
    ensures Served(job, s, Work(p, job, s, m, world), Process(p, s.dev, job.session, m.r, world).1)
  {
    if Acceptable(p, s.dev, job.session, m.r) {
      AcceptsNext(p, job, s, m);
      SentLength(job.parts, s.written);
      SentLength(job.parts, s.written + 1);
      OffIncreases(job.parts, s.written, s.written + 1);
      assert m.r.data[..|m.r.data|] == m.r.data;
      assert s.dev.receipt.Some? ==> Work(p, job, s, m, world).dev.receipt.Some?;
    }
  }

  lemma CommitServed(p: Platform, job: Job, s: System, m: Message, world: World)
    requires job.Valid() && Safe(p, job, s) && Asked(p, job, s.host.i, m) && m.r.Commit?
    ensures Served(job, s, Work(p, job, s, m, world), Process(p, s.dev, job.session, m.r, world).1)
  {
    if s.dev.Writes(job.session, job.stream) {
      SentLength(job.parts, s.written);
      if Installs(p, s.dev, job.session, m.r, world) {
        InstallsWhole(p, job, s, m, world);
      }
    }
  }

  lemma OtherServed(p: Platform, job: Job, s: System, m: Message, world: World)
    requires job.Valid() && Safe(p, job, s) && Asked(p, job, s.host.i, m) && !m.r.Write? && !m.r.Commit?
    ensures Served(job, s, Work(p, job, s, m, world), Process(p, s.dev, job.session, m.r, world).1)
  {
    if s.dev.Writes(job.session, job.stream) {
      SentLength(job.parts, s.written);
    }
  }

  lemma WorkSafe(p: Platform, job: Job, s: System, m: Message, world: World)
    requires job.Valid() && Safe(p, job, s) && Asked(p, job, s.host.i, m)
    ensures Safe(p, job, Work(p, job, s, m, world))
  {
    var after := Work(p, job, s, m, world);
    match m.r {
      case Write(_, _, _) => WriteServed(p, job, s, m, world);
      case Commit(_, _) => CommitServed(p, job, s, m, world);
      case _ => OtherServed(p, job, s, m, world);
    }
    forall a | a in after.toHost ensures Truthful(job, after.written, after.installs, a.reply) {
      if a in s.toHost {
        TruthKept(job, s.written, s.installs, after.written, after.installs, a.reply);
      }
    }
  }

  /** Someone else's request leaves the stream alone. */
  lemma OthersSafe(p: Platform, job: Job, s: System, session: nat, r: Request, world: World)
    requires job.Valid() && Safe(p, job, s) && Alien(job, session, r, world)
    ensures Safe(p, job, s.(dev := Process(p, s.dev, session, r, world).0))
  {
    if s.dev.handle.Writing? {
      TreeGuarded(p, s.dev, session, r, world);
      StreamGuarded(p, s.dev, session, r, world);
    }
  }

  /** What upload makes of the answer to a part, or to a question about one. */
  lemma PartHeard(job: Job, s: System, reply: Reply)
    requires job.Valid() && Stored(job, s) && InPhase(job, s) && Truthful(job, s.written, s.installs, reply)
    requires s.host.phase.Sending? || s.host.phase.Checking?
    ensures var h := Hear(job, s.host, reply);
            s.host.i <= h.i <= s.written && InPhase(job, s.(host := h))
  {
    SameOffset(job.parts, s.host.i + 1, s.written);
  }

  /** And of every other answer. */
  lemma RestHeard(job: Job, s: System, reply: Reply)
    requires job.Valid() && Stored(job, s) && InPhase(job, s) && Truthful(job, s.written, s.installs, reply)
    requires !s.host.phase.Sending? && !s.host.phase.Checking?
    ensures var h := Hear(job, s.host, reply);
            h.i == s.host.i && InPhase(job, s.(host := h))
  {
  }

  /** Upload may take an answer and move on, as far as the device has got. */
  lemma HostStepSafe(p: Platform, job: Job, s: System, h: Host)
    requires job.Valid() && Safe(p, job, s) && s.toHost != []
    requires s.host.i <= h.i <= s.written && InPhase(job, s.(host := h))
    ensures Safe(p, job, s.(host := h, toHost := s.toHost[1..]))
  {
    forall m | Asked(p, job, s.host.i, m) ensures Asked(p, job, h.i, m) {
    }
  }

  lemma HearSafe(p: Platform, job: Job, s: System)
    requires job.Valid() && Safe(p, job, s) && s.toHost != []
    ensures Safe(p, job, Next(p, job, s, HostHears))
  {
    var a := s.toHost[0];
    assert a in s.toHost;
    if s.host.waiting == Some(a.id) {
      if s.host.phase.Sending? || s.host.phase.Checking? {
        PartHeard(job, s, a.reply);
      } else {
        RestHeard(job, s, a.reply);
      }
      HostStepSafe(p, job, s, Hear(job, s.host, a.reply));
    } else {
      HostStepSafe(p, job, s, s.host);
    }
  }

  lemma SendSafe(p: Platform, job: Job, s: System)
    requires job.Valid() && Safe(p, job, s)
    ensures Safe(p, job, Next(p, job, s, HostSends))
  {
  }

  lemma LinkSafe(p: Platform, job: Job, s: System, e: Happening)
    requires job.Valid() && Safe(p, job, s) && (e.RequestLost? || e.AnswerLost? || e.Taken? || e.Refused?)
    ensures Safe(p, job, Next(p, job, s, e))
  {
  }

  lemma HostSafe(p: Platform, job: Job, s: System, e: Happening)
    requires job.Valid() && Safe(p, job, s) && (e.HostTimesOut? || e.HostGivesUp?)
    ensures Safe(p, job, Next(p, job, s, e))
  {
  }

  lemma SurroundingsSafe(p: Platform, job: Job, s: System, e: Happening)
    requires job.Valid() && Safe(p, job, s) && (e.SessionEnds? || e.Outside?)
    ensures Safe(p, job, Next(p, job, s, e))
  {
  }

  lemma StepSafe(p: Platform, job: Job, s: System, e: Happening)
    requires job.Valid() && Safe(p, job, s)
    ensures Safe(p, job, Next(p, job, s, e))
  {
    match e {
      case HostSends => SendSafe(p, job, s);
      case HostHears => if s.toHost != [] { HearSafe(p, job, s); }
      case HostTimesOut => HostSafe(p, job, s, e);
      case HostGivesUp => HostSafe(p, job, s, e);
      case Worked(world) => if s.executing.Some? { WorkSafe(p, job, s, s.executing.value, world); }
      case Others(session, r, world) =>
        if s.executing.None? && Alien(job, session, r, world) { OthersSafe(p, job, s, session, r, world); }
      case SessionEnds(_, _) => SurroundingsSafe(p, job, s, e);
      case Outside(_, _) => SurroundingsSafe(p, job, s, e);
      case _ => LinkSafe(p, job, s, e);
    }
  }

  function Run(p: Platform, job: Job, s: System, events: seq<Happening>): System
    requires job.Valid() && Safe(p, job, s)
    decreases |events|
  {
    if events == [] then s
    else
      StepSafe(p, job, s, events[0]);
      Run(p, job, Next(p, job, s, events[0]), events[1..])
  }

  /** Through any losses, refusals, timeouts, faults and other clients. */
  lemma {:induction false} RunSafe(p: Platform, job: Job, s: System, events: seq<Happening>)
    requires job.Valid() && Safe(p, job, s)
    ensures Safe(p, job, Run(p, job, s, events))
    decreases |events|
  {
    if events != [] {
      StepSafe(p, job, s, events[0]);
      RunSafe(p, job, Next(p, job, s, events[0]), events[1..]);
    }
  }

  lemma Follow(p: Platform, job: Job, s: System, e: Happening, rest: seq<Happening>)
    requires job.Valid() && Safe(p, job, s)
    ensures Safe(p, job, Next(p, job, s, e)) && Run(p, job, s, [e] + rest) == Run(p, job, Next(p, job, s, e), rest)
  {
    StepSafe(p, job, s, e);
    assert ([e] + rest)[1..] == rest;
  }

  lemma {:induction false} RunAppend(p: Platform, job: Job, s: System, a: seq<Happening>, b: seq<Happening>)
    requires job.Valid() && Safe(p, job, s)
    ensures Safe(p, job, Run(p, job, s, a))
    ensures Run(p, job, s, a + b) == Run(p, job, Run(p, job, s, a), b)
    decreases |a|
  {
    RunSafe(p, job, s, a);
    if a == [] {
      assert a + b == b;
    } else {
      Follow(p, job, s, a[0], a[1..] + b);
      StepSafe(p, job, s, a[0]);
      RunAppend(p, job, Next(p, job, s, a[0]), a[1..], b);
      assert [a[0]] + (a[1..] + b) == a + b;
    }
  }

  lemma Twice(p: Platform, job: Job, s: System, a: Happening, b: Happening)
    requires job.Valid() && Safe(p, job, s)
    ensures Safe(p, job, Next(p, job, s, a))
    ensures Run(p, job, s, [a, b]) == Next(p, job, Next(p, job, s, a), b)
  {
    Follow(p, job, s, a, [b]);
    Follow(p, job, Next(p, job, s, a), b, []);
    assert [a] + [b] == [a, b] && [b] + [] == [b];
  }

  lemma Once(p: Platform, job: Job, s: System, e: Happening)
    requires job.Valid() && Safe(p, job, s)
    ensures Run(p, job, s, [e]) == Next(p, job, s, e)
  {
    Follow(p, job, s, e, []);
    assert [e] + [] == [e];
  }

  /** What upload holds once the stream is open. */
  function Start(job: Job, dev: Service): System {
    System(dev, Host(Advance(job, 0), None, 1, 0), [], [], None, 0, [])
  }

  function JobOf(session: nat, stream: nat, target: Path, size: nat, chunks: seq<seq<byte>>, chunkMax: nat): Job
    requires 0 < chunkMax
  {
    var plan := PlanOf(chunks, size, chunkMax, 0);
    Job(session, stream, target, size, plan.parts, plan.exact)
  }

  lemma JobValid(session: nat, stream: nat, target: Path, size: nat, chunks: seq<seq<byte>>, chunkMax: nat)
    requires 0 < chunkMax
    ensures var job := JobOf(session, stream, target, size, chunks, chunkMax);
            job.Valid() && (job.exact ==> job.Whole() == Concat(chunks) && |Concat(chunks)| == size)
  {
    var job := JobOf(session, stream, target, size, chunks, chunkMax);
    PlanExact(chunks, size, chunkMax, 0);
    SentConcat(job.parts, |job.parts|);
    SentLength(job.parts, |job.parts|);
    assert job.parts[..|job.parts|] == job.parts;
  }

  lemma StartSafe(p: Platform, s: Service, session: nat, r: Request, world: World, chunks: seq<seq<byte>>)
    requires s.Valid() && r.WriteOpen? && 0 < p.chunkMax
    requires AfterWriteOpen(p, s, session, r, world).1.Opened?
    ensures var job := JobOf(session, world.stream, r.target, r.size, chunks, p.chunkMax);
            job.Valid() && Safe(p, job, Start(job, AfterWriteOpen(p, s, session, r, world).0))
  {
    var job := JobOf(session, world.stream, r.target, r.size, chunks, p.chunkMax);
    JobValid(session, world.stream, r.target, r.size, chunks, p.chunkMax);
    assert Sent(job.parts, 0) == [];
  }

  /** While the stream is open, the temporary file is the first of the device's committed bytes, at the host's
      count or one part ahead of it. */
  predicate UpToOnePart(job: Job, s: System)
    requires s.dev.Valid() && s.dev.handle.Writing?
  {
    && s.host.i <= |job.parts|
    && s.dev.Content() <= Concat(job.parts)
    && (|s.dev.Content()| == Off(job.parts, s.host.i)
        || (s.host.i < |job.parts| && |s.dev.Content()| == Off(job.parts, s.host.i + 1)))
  }

  lemma SafeUpToOnePart(p: Platform, job: Job, s: System)
    requires job.Valid() && Safe(p, job, s) && s.dev.Writes(job.session, job.stream)
    ensures UpToOnePart(job, s)
  {
    SentLength(job.parts, s.written);
    SentPrefix(job.parts, s.written, |job.parts|);
    SentConcat(job.parts, |job.parts|);
    assert job.parts[..|job.parts|] == job.parts;
  }

  /** From the opening of the stream, whatever happens after it: when upload returns, the body of the request,
      all of it and of the declared size, has been put in the target's place, and once. */
  lemma UploadExactlyOnce(p: Platform, s: Service, session: nat, r: Request, world: World,
                          chunks: seq<seq<byte>>, events: seq<Happening>)
    requires s.Valid() && r.WriteOpen? && 0 < p.chunkMax
    requires AfterWriteOpen(p, s, session, r, world).1.Opened?
    ensures var job := JobOf(session, world.stream, r.target, r.size, chunks, p.chunkMax);
            var start := Start(job, AfterWriteOpen(p, s, session, r, world).0);
            && job.Valid() && Safe(p, job, start)
            && var end := Run(p, job, start, events);
               && |end.installs| <= 1
               && (end.host.phase == Returned ==> end.installs == [Concat(chunks)] && |Concat(chunks)| == r.size)
               && end.dev.Valid()
               && (end.dev.Writes(session, world.stream) ==> UpToOnePart(job, end))
  {
    var job := JobOf(session, world.stream, r.target, r.size, chunks, p.chunkMax);
    var start := Start(job, AfterWriteOpen(p, s, session, r, world).0);
    StartSafe(p, s, session, r, world, chunks);
    UploadEnds(p, job, start, events);
    JobValid(session, world.stream, r.target, r.size, chunks, p.chunkMax);
  }

  lemma UploadEnds(p: Platform, job: Job, start: System, events: seq<Happening>)
    requires job.Valid() && Safe(p, job, start)
    ensures var end := Run(p, job, start, events);
            && |end.installs| <= 1
            && (end.host.phase == Returned ==> job.exact && end.installs == [job.Whole()])
            && end.dev.Valid()
            && (end.dev.Writes(job.session, job.stream) ==> UpToOnePart(job, end))
  {
    RunSafe(p, job, start, events);
    var end := Run(p, job, start, events);
    if end.dev.Writes(job.session, job.stream) {
      SafeUpToOnePart(p, job, end);
    }
  }

  /** What an install is: the target is then a file of exactly those bytes. */
  lemma InstallReplaces(p: Platform, job: Job, s: System, world: World)
    requires job.Valid() && Safe(p, job, s) && s.executing.Some?
    requires Next(p, job, s, Worked(world)).installs != s.installs
    ensures var tree := Next(p, job, s, Worked(world)).dev.tree;
            job.target in tree && tree[job.target].File? && tree[job.target].content == job.Whole()
  {
    var m := s.executing.value;
    if m.r.Commit? && Installs(p, s.dev, job.session, m.r, world) {
      InstallsWhole(p, job, s, m, world);
    }
  }

  /** A commit never meets an incomplete file or another digest: it can fail only for the target's sake or the
      disk's. */
  lemma CommitMeetsWhole(p: Platform, job: Job, s: System)
    requires job.Valid() && Safe(p, job, s) && s.executing.Some? && s.executing.value.r.Commit?
    requires s.dev.Writes(job.session, job.stream)
    ensures |s.dev.Content()| == s.dev.handle.w.size && p.hash(s.dev.Content()) == s.executing.value.r.digest
  {
    SentLength(job.parts, s.written);
  }
}
