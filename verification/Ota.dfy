/** A firmware image over the air: the gateway sends windows of numbered parts, asks how far the device got when
    answers are missing, and resumes there; the device accepts only the next byte it needs, one request at a
    time. The run starts when the device has answered BEGIN. */
module Ota {
  import opened Bytes
  import opened Parts

  // ------------------------------------------------------------------- the device

  datatype Request = Data(offset: nat, data: seq<byte>) | End | Status | QueryJob | Cancel

  datatype Reply = Error | DataAck(received: nat) | EndAck(ok: bool) | StatusIs(active: bool, received: nat)
                 | JobIs(succeeded: bool) | Cancelled

  /** One transfer: what has been written to flash, and what a successful END has selected for the next boot. */
  datatype Device = Device(active: bool, received: nat, flash: seq<byte>, selected: Option<seq<byte>>)

  /** What BEGIN fixed: the size, the digest expected, the largest part, and SHA-256 itself. */
  datatype Terms = Terms(total: nat, expected: seq<byte>, chunkMax: nat, hash: seq<byte> -> seq<byte>)

  function Stopped(d: Device): Device {
    d.(active := false, received := 0)
  }

  /** writes: the hash and the flash take the data. */
  function AfterData(t: Terms, d: Device, r: Request, writes: bool): (Device, Reply)
    requires r.Data?
  {
    if !d.active || r.data == [] || |r.data| > t.chunkMax || r.offset != d.received
       || d.received + |r.data| > t.total then (d, Error)
    else if !writes then (Stopped(d), Error)
    else (d.(received := d.received + |r.data|, flash := d.flash + r.data), DataAck(d.received + |r.data|))
  }

  /** passes: the hash finishes, the image is valid, its project and version are the ones announced, the
      platform agrees, nothing has been cancelled, and the boot partition is set. */
  function AfterEnd(t: Terms, d: Device, passes: bool): (Device, Reply) {
    if !d.active then (d, Error)
    else if d.received != t.total || t.hash(d.flash) != t.expected || !passes then (Stopped(d), EndAck(false))
    else (Stopped(d).(selected := Some(d.flash)), EndAck(true))
  }

  function Process(t: Terms, d: Device, r: Request, well: bool): (Device, Reply) {
    match r
    case Data(_, _) => AfterData(t, d, r, well)
    case End => AfterEnd(t, d, well)
    case Status => (d, StatusIs(d.active, d.received))
    case QueryJob => (d, JobIs(d.selected.Some?))
    case Cancel => if d.active then (Stopped(d), Cancelled) else (d, Error)
  }

  /** Exactly which data the device writes, and what a failure to write does. */
  lemma DataWrittenIff(t: Terms, d: Device, r: Request, writes: bool)
    requires r.Data?
    ensures var (after, reply) := Process(t, d, r, writes);
            var fits := && d.active && 0 < |r.data| <= t.chunkMax && r.offset == d.received
                        && d.received + |r.data| <= t.total;
            && (reply.DataAck? <==> fits && writes) && (reply.DataAck? || reply == Error)
            && (reply.DataAck? ==> reply.received == after.received == d.received + |r.data|
                                   && after.flash == d.flash + r.data && after.active)
            && (!fits ==> after == d)
            && (fits && !writes ==> !after.active && after.flash == d.flash)
            && after.selected == d.selected
  {
  }

  /** Exactly when END selects an image for the next boot, which is then all that was written. */
  lemma SelectedIff(t: Terms, d: Device, passes: bool)
    ensures var (after, reply) := Process(t, d, End, passes);
            && (reply == EndAck(true) <==> d.active && d.received == t.total && t.hash(d.flash) == t.expected && passes)
            && after.selected == (if reply == EndAck(true) then Some(d.flash) else d.selected)
            && !after.active && after.flash == d.flash
            && (d.active ==> reply.EndAck?) && (!d.active ==> after == d)
  {
  }

  /** CANCEL stops what is active; questions change nothing and are answered truly. */
  lemma CancelStops(t: Terms, d: Device, well: bool)
    ensures Process(t, d, Cancel, well)
         == if d.active then (d.(active := false, received := 0), Cancelled) else (d, Error)
    ensures Process(t, d, Status, well) == (d, StatusIs(d.active, d.received))
    ensures Process(t, d, QueryJob, well) == (d, JobIs(d.selected.Some?))
  {
  }

  /** Whatever is asked of it, the device writes contiguously, no more than was announced, and counts what it wrote. */
  predicate Counts(t: Terms, d: Device) {
    d.active ==> |d.flash| == d.received <= t.total
  }

  function Serve(t: Terms, d: Device, asked: seq<(Request, bool)>): Device
    decreases |asked|
  {
    if asked == [] then d else Serve(t, Process(t, d, asked[0].0, asked[0].1).0, asked[1..])
  }

  lemma {:induction false} ServeCounts(t: Terms, d: Device, asked: seq<(Request, bool)>)
    requires Counts(t, d)
    ensures Counts(t, Serve(t, d, asked)) && d.flash <= Serve(t, d, asked).flash
    decreases |asked|
  {
    if asked != [] {
      ServeCounts(t, Process(t, d, asked[0].0, asked[0].1).0, asked[1..]);
    }
  }

  // ------------------------------------------------------------------ both sides

  /** The image cut at the device's part size, the parts sent without waiting, and the terms of BEGIN. */
  datatype Job = Job(image: seq<byte>, parts: seq<seq<byte>>, window: nat, t: Terms) {
    predicate Valid() {
      && 0 < window && image != [] && t.total == |image| && 0 < t.chunkMax && parts == Cut(image, t.chunkMax)
    }

    function Limit(i: nat): nat {
      if i + window <= |parts| then i + window else |parts|
    }
  }

  datatype Evidence = FromResponse | FromJob | FromDisconnect

  datatype Phase = Transferring | Resuming | Ending | Querying | Cancelling | Returned(e: Evidence) | Raised

  datatype Fault = NoFault | UnexpectedOffset | InvalidProgress

  /** Where ota_update is: the parts known to be received, the answers to the window sent since (its requests are
      numbered from firstId), the single request otherwise waited for, and the protocol error it has raised. */
  datatype Host = Host(phase: Phase, i: nat, firstId: nat, acks: seq<Option<nat>>, waiting: Option<nat>, nextId: nat,
                       fault: Fault)

  datatype Message = Message(id: nat, r: Request, part: nat)

  /** at is how many parts the device had when it answered. */
  datatype Answer = Answer(id: nat, reply: Reply, part: nat, at: nat)

  /** The service task runs one request at a time and keeps its answer until the link can take it. */
  datatype Stage = Idle | Running(m: Message) | Finished(a: Answer)

  datatype System = System(dev: Device, stage: Stage, host: Host, toDev: seq<Message>, toHost: seq<Answer>,
                           written: nat)

  datatype Happening = HostSends | HostHears | HostTimesOut | HostFails | HostDisconnects
                     | RequestLost(k: nat) | AnswerLost(k: nat)
                     | Arrives | Refused | Worked(well: bool) | Drained | Aborts

  function NextBatch(job: Job, h: Host, i: nat): Host {
    h.(phase := if i < |job.parts| then Transferring else Ending, i := i, firstId := h.nextId, acks := [],
       waiting := None)
  }

  function GiveUp(h: Host, fault: Fault): Host {
    h.(phase := Cancelling, waiting := None, acks := [], fault := fault)
  }

  function HostSend(job: Job, s: System): System
    requires s.host.i <= |job.parts|
  {
    var h := s.host;
    match h.phase
    case Transferring =>
      var k := h.i + |h.acks|;
      if k >= job.Limit(h.i) then s
      else s.(host := h.(acks := h.acks + [None], nextId := h.nextId + 1),
              toDev := s.toDev + [Message(h.nextId, Data(Off(job.parts, k), job.parts[k]), k)])
    case Resuming => Ask(s, Status)
    case Ending => Ask(s, End)
    case Querying => Ask(s, QueryJob)
    case Cancelling => Ask(s, Cancel)
    case Returned(_) => s
    case Raised => s
  }

  function Ask(s: System, r: Request): System {
    if s.host.waiting.Some? then s
    else s.(host := s.host.(waiting := Some(s.host.nextId), nextId := s.host.nextId + 1),
            toDev := s.toDev + [Message(s.host.nextId, r, 0)])
  }

  predicate AllIn(acks: seq<Option<nat>>) {
    forall m :: 0 <= m < |acks| ==> acks[m].Some?
  }

  /** The answers say, one after the other, where each part ends. */
  predicate Progress(job: Job, i: nat, acks: seq<Option<nat>>)
    requires i + |acks| <= |job.parts|
  {
    forall m :: 0 <= m < |acks| ==> acks[m] == Some(Off(job.parts, i + m + 1))
  }

  /** An answer to one request of the window; the window is looked at when all its answers are in. */
  function HearData(job: Job, h: Host, m: nat, reply: Reply): Host
    requires m < |h.acks| && h.i + |h.acks| <= |job.parts|
  {
    if !reply.DataAck? then GiveUp(h, NoFault)
    else
      var acks := h.acks[m := Some(reply.received)];
      if h.i + |acks| < job.Limit(h.i) || !AllIn(acks) then h.(acks := acks)
      else if Progress(job, h.i, acks) then NextBatch(job, h, h.i + |acks|)
      else GiveUp(h, InvalidProgress)
  }

  /** The part of the window that starts at a byte offset, or its end. */
  function PartAt(job: Job, i: nat, limit: nat, received: nat): Option<nat>
    requires i <= limit <= |job.parts|
    decreases limit - i
  {
    if Off(job.parts, i) == received then Some(i) else if i == limit then None
    else PartAt(job, i + 1, limit, received)
  }

  function HearOther(job: Job, h: Host, reply: Reply): Host
    requires h.i <= |job.parts|
  {
    var idle := h.(waiting := None);
    match h.phase
    case Resuming =>
      if !reply.StatusIs? || !reply.active then GiveUp(h, NoFault)
      else
        var j := PartAt(job, h.i, job.Limit(h.i), reply.received);
        if j.None? then GiveUp(h, UnexpectedOffset) else NextBatch(job, h, j.value)
    case Ending =>
      if !reply.EndAck? then GiveUp(h, NoFault) else idle.(phase := if reply.ok then Returned(FromResponse) else Raised)
    case Querying => if reply == JobIs(true) then idle.(phase := Returned(FromJob)) else GiveUp(h, NoFault)
    case Cancelling => idle.(phase := Raised)
    case Transferring => h
    case Returned(_) => h
    case Raised => h
  }

  function HostHear(job: Job, s: System): System
    requires s.host.i + |s.host.acks| <= |job.parts|
  {
    if s.toHost == [] then s
    else
      var a, h := s.toHost[0], s.host;
      var after := if h.phase == Transferring then
                     (if h.firstId <= a.id < h.firstId + |h.acks| then HearData(job, h, a.id - h.firstId, a.reply)
                      else h)
                   else if h.waiting == Some(a.id) then HearOther(job, h, a.reply) else h;
      s.(toHost := s.toHost[1..], host := after)
  }

  function TimedOut(h: Host): Host {
    match h.phase
    case Transferring => h.(phase := Resuming, waiting := None, acks := [])
    case Resuming => GiveUp(h, NoFault)
    case Ending => h.(phase := Querying, waiting := None)
    case Querying => GiveUp(h, NoFault)
    case Cancelling => h.(phase := Raised, waiting := None)
    case Returned(_) => h
    case Raised => h
  }

  function Stop(h: Host, disconnected: bool): Host {
    match h.phase
    case Returned(_) => h
    case Raised => h
    case Cancelling => h.(phase := Raised, waiting := None)
    case Ending =>
      if disconnected then h.(phase := Returned(FromDisconnect), waiting := None)
      else GiveUp(h, NoFault)
    case Transferring => GiveUp(h, NoFault)
    case Resuming => GiveUp(h, NoFault)
    case Querying => GiveUp(h, NoFault)
  }

  /** The first request is answered without the service task. */
  function Answered(s: System, reply: Reply): System
    requires s.toDev != []
  {
    var m := s.toDev[0];
    s.(toDev := s.toDev[1..], toHost := s.toHost + [Answer(m.id, reply, m.part, s.written)])
  }

  /** A request reaches the device: the job table answers at once; while the service task is busy, STATUS is
      answered from its last snapshot, CANCEL is noted, and the rest is refused. */
  function Arrive(s: System): System {
    if s.toDev == [] then s
    else
      var m := s.toDev[0];
      if m.r == QueryJob then Answered(s, JobIs(s.dev.selected.Some?))
      else if s.stage == Idle then s.(stage := Running(m), toDev := s.toDev[1..])
      else if m.r == Status then Answered(s, StatusIs(s.dev.active, s.dev.received))
      else if m.r == Cancel && s.stage.Running? then Answered(s, Cancelled)
      else Answered(s, Error)
  }

  function Work(job: Job, s: System, m: Message, well: bool): System {
    var (dev, reply) := Process(job.t, s.dev, m.r, well);
    var written := if reply.DataAck? then s.written + 1 else s.written;
    s.(dev := dev, written := written, stage := Finished(Answer(m.id, reply, m.part, written)))
  }

  function Next(job: Job, s: System, e: Happening): System
    requires s.host.i + |s.host.acks| <= |job.parts|
  {
    match e
    case HostSends => HostSend(job, s)
    case HostHears => HostHear(job, s)
    case HostTimesOut => s.(host := TimedOut(s.host))
    case HostFails => s.(host := Stop(s.host, false))
    case HostDisconnects => s.(host := Stop(s.host, true))
    case RequestLost(k) => if k < |s.toDev| then s.(toDev := Without(s.toDev, k)) else s
    case AnswerLost(k) => if k < |s.toHost| then s.(toHost := Without(s.toHost, k)) else s
    case Arrives => Arrive(s)
    case Refused => if s.toDev == [] then s else Answered(s, Error)
    case Worked(well) => if s.stage.Running? then Work(job, s, s.stage.m, well) else s
    case Drained => if s.stage.Finished? then s.(stage := Idle, toHost := s.toHost + [s.stage.a]) else s
    case Aborts => s.(dev := Stopped(s.dev))
  }

  /** Answers that say anything else than where their parts end are caught when the window is complete, whoever gives
      them, and so is a resumption at an offset that is no end of a part in the window. */
  lemma BadProgressCaught(job: Job, h: Host, m: nat, received: nat, k: nat)
    requires k < |h.acks| && m < |h.acks| && h.i + |h.acks| == job.Limit(h.i) <= |job.parts|
    requires AllIn(h.acks[m := Some(received)]) && h.acks[m := Some(received)][k] != Some(Off(job.parts, h.i + k + 1))
    ensures var after := HearData(job, h, m, DataAck(received));
            after.phase == Cancelling && after.fault == InvalidProgress && after.i == h.i
  {
  }

  lemma {:induction false} PartAtNone(job: Job, i: nat, limit: nat, received: nat)
    requires i <= limit <= |job.parts|
    requires forall j :: i <= j <= limit ==> Off(job.parts, j) != received
    ensures PartAt(job, i, limit, received) == None
    decreases limit - i
  {
    if i < limit {
      PartAtNone(job, i + 1, limit, received);
    }
  }

  lemma BadOffsetCaught(job: Job, h: Host, received: nat)
    requires h.phase == Resuming && h.i <= |job.parts|
    requires forall j :: h.i <= j <= job.Limit(h.i) ==> Off(job.parts, j) != received
    ensures var after := HearOther(job, h, StatusIs(true, received));
            after.phase == Cancelling && after.fault == UnexpectedOffset && after.i == h.i
  {
    PartAtNone(job, h.i, job.Limit(h.i), received);
  }

  /** One question at a time, and no more parts than the window holds. */
  lemma WaitsItsTurn(job: Job, s: System)
    requires s.host.i <= |job.parts|
    requires if s.host.phase == Transferring then s.host.i + |s.host.acks| >= job.Limit(s.host.i)
             else s.host.waiting.Some?
    ensures HostSend(job, s) == s
  {
  }

  predicate Ended(h: Host) {
    h.phase == Raised || h.phase.Returned?
  }

  /** Errors and timeouts bring the host to an end: one makes it cancel, unless it only finds out more, and one more
      makes it raise. Only a link that drops while END is under way counts as success, and nothing else. */
  lemma FailuresEnd(h: Host)
    ensures !Ended(h) ==> Stop(h, false).phase == (if h.phase == Cancelling then Raised else Cancelling)
    ensures !Ended(h) ==>
              Stop(h, true).phase == if h.phase == Ending then Returned(FromDisconnect) else Stop(h, false).phase
    ensures !Ended(h) ==>
              TimedOut(h).phase == (if h.phase == Transferring then Resuming else if h.phase == Ending then Querying
                                    else if h.phase == Cancelling then Raised else Cancelling)
    ensures Ended(h) ==> Stop(h, false) == Stop(h, true) == TimedOut(h) == h
    ensures !Ended(h) ==> TimedOut(h).waiting == Stop(h, false).waiting == Stop(h, true).waiting == None
  {
  }

  /** While the service task is busy, the device answers for it: the state of the job and of the transfer truly, a
      cancellation while a request runs as noted, and everything else with an error; nothing is dropped. */
  lemma BusyAnswers(s: System)
    requires s.toDev != []
    ensures var m, after := s.toDev[0], Arrive(s);
            && after.dev == s.dev && after.toDev == s.toDev[1..] && after.host == s.host
            && if s.stage == Idle && m.r != QueryJob then after.stage == Running(m) && after.toHost == s.toHost
               else
                 && after.stage == s.stage && |after.toHost| == |s.toHost| + 1 && after.toHost[..|s.toHost|] == s.toHost
                 && after.toHost[|s.toHost|].id == m.id
                 && after.toHost[|s.toHost|].reply
                 == match m.r
                    case QueryJob => JobIs(s.dev.selected.Some?)
                    case Status => StatusIs(s.dev.active, s.dev.received)
                    case Cancel => if s.stage.Running? then Cancelled else Error
                    case _ => Error
  {
  }

  /** The device may stop on its own, and that ends its transfer. */
  lemma AbortStops(job: Job, s: System)
    requires s.host.i + |s.host.acks| <= |job.parts|
    ensures Next(job, s, Aborts) == s.(dev := s.dev.(active := false, received := 0))
    ensures Next(job, s, HostFails).host == Stop(s.host, false)
  {
  }

  // ---------------------------------------------------------------------- safety

  /** The device has what the host counts on, and at most one window more. */
  predicate Stored(job: Job, s: System) {
    && s.host.i <= s.written <= job.Limit(s.host.i)
    && (s.dev.active ==> s.dev.received == Off(job.parts, s.written) && s.dev.flash == Sent(job.parts, s.written))
    && (s.dev.selected.Some? ==> s.dev.selected.value == job.image && s.written == |job.parts|)
  }

  predicate InPhase(job: Job, s: System) {
    && s.host.fault == NoFault
    && s.host.i + |s.host.acks| <= job.Limit(s.host.i)
    && s.host.firstId + |s.host.acks| <= s.host.nextId
    && (s.host.waiting.Some? ==> s.host.waiting.value < s.host.nextId)
    && match s.host.phase
       case Transferring =>
         s.host.i < |job.parts| && s.host.waiting == None && s.host.firstId + |s.host.acks| == s.host.nextId
       case Resuming => s.host.i < |job.parts| && s.host.acks == []
       case Ending => s.host.i == |job.parts| && s.host.acks == []
       case Querying => s.host.i == |job.parts| && s.host.acks == []
       case Cancelling => s.host.acks == []
       case Returned(e) =>
         s.host.acks == [] && s.host.i == |job.parts| && (e != FromDisconnect ==> s.dev.selected == Some(job.image))
       case Raised => s.host.acks == []
  }

  /** The request with this number, in the window now open, is the one for this part. */
  predicate InWindow(h: Host, id: nat, part: nat) {
    h.firstId <= id < h.firstId + |h.acks| ==> part == h.i + (id - h.firstId)
  }

  predicate Asked(job: Job, h: Host, m: Message)
    requires h.i <= |job.parts|
  {
    && m.id < h.nextId && InWindow(h, m.id, m.part)
    && (m.r.Data? ==> m.part < job.Limit(h.i) && m.r.offset == Off(job.parts, m.part) && m.r.data == job.parts[m.part])
    && (m.r == End ==> h.i == |job.parts|)
  }

  predicate Truthful(job: Job, h: Host, dev: Device, written: nat, a: Answer)
    requires written <= |job.parts|
  {
    && a.id < h.nextId && InWindow(h, a.id, a.part)
    && match a.reply
       case DataAck(received) => a.part < written && received == Off(job.parts, a.part + 1)
       case StatusIs(active, received) =>
         active ==> a.at <= written && received == Off(job.parts, a.at) && (h.waiting == Some(a.id) ==> h.i <= a.at)
       case EndAck(ok) => ok ==> dev.selected == Some(job.image)
       case JobIs(succeeded) => succeeded ==> dev.selected == Some(job.image)
       case _ => true
  }

  /** What the host has noted of the window is what the device told it. */
  predicate Noted(job: Job, h: Host, written: nat)
    requires h.i + |h.acks| <= |job.parts|
  {
    forall m :: 0 <= m < |h.acks| && h.acks[m].Some? ==>
      h.acks[m].value == Off(job.parts, h.i + m + 1) && h.i + m < written
  }

  predicate Safe(job: Job, s: System) {
    && Stored(job, s) && InPhase(job, s) && Noted(job, s.host, s.written)
    && (forall m :: m in s.toDev ==> Asked(job, s.host, m))
    && (s.stage.Running? ==> Asked(job, s.host, s.stage.m))
    && (s.stage.Finished? ==> Truthful(job, s.host, s.dev, s.written, s.stage.a))
    && (forall a :: a in s.toHost ==> Truthful(job, s.host, s.dev, s.written, a))
  }

  lemma JobParts(job: Job)
    requires job.Valid()
    ensures Concat(job.parts) == job.image && Sized(job.parts, job.t.chunkMax)
    ensures Sent(job.parts, |job.parts|) == job.image && Off(job.parts, |job.parts|) == |job.image|
    ensures job.parts != []
  {
    CutWhole(job.image, job.t.chunkMax);
    SentConcat(job.parts, |job.parts|);
    SentLength(job.parts, |job.parts|);
    assert job.parts[..|job.parts|] == job.parts;
  }

  /** The host later on: more parts known, the same window or a new one, the same question or a new one. */
  predicate Later(job: Job, h: Host, after: Host) {
    && h.nextId <= after.nextId && h.i <= after.i <= |job.parts|
    && (after.acks == []
        || (after.i == h.i && after.firstId == h.firstId && |h.acks| <= |after.acks|
            && (|after.acks| == |h.acks| || h.firstId + |h.acks| == h.nextId)))
    && (after.waiting == None || (after.waiting == h.waiting && after.i == h.i)
        || after.waiting.value >= h.nextId)
  }

  lemma AskedKept(job: Job, h: Host, after: Host, m: Message)
    requires h.i <= |job.parts| && Asked(job, h, m) && Later(job, h, after)
    ensures Asked(job, after, m)
  {
  }

  lemma TruthKept(job: Job, h: Host, after: Host, dev: Device, later: Device, written: nat, more: nat, a: Answer)
    requires Later(job, h, after) && written <= more <= |job.parts|
    requires later.selected == dev.selected || later.selected == Some(job.image)
    requires Truthful(job, h, dev, written, a)
    ensures Truthful(job, after, later, more, a)
  {
  }

  /** A step of the host alone. */
  lemma HostStepSafe(job: Job, s: System, h: Host)
    requires job.Valid() && Safe(job, s) && Later(job, s.host, h) && h.i <= s.written
    requires InPhase(job, s.(host := h)) && Noted(job, h, s.written)
    ensures Safe(job, s.(host := h))
  {
    forall m | m in s.toDev ensures Asked(job, h, m) {
      AskedKept(job, s.host, h, m);
    }
    forall a | a in s.toHost ensures Truthful(job, h, s.dev, s.written, a) {
      TruthKept(job, s.host, h, s.dev, s.dev, s.written, s.written, a);
    }
    if s.stage.Running? {
      AskedKept(job, s.host, h, s.stage.m);
    }
    if s.stage.Finished? {
      TruthKept(job, s.host, h, s.dev, s.dev, s.written, s.written, s.stage.a);
    }
  }

  /** An answer of the window: what it says is where its part ends, so no progress is ever found invalid. */
  lemma DataHeard(job: Job, s: System, a: Answer)
    requires job.Valid() && Stored(job, s) && InPhase(job, s) && Noted(job, s.host, s.written)
    requires s.host.phase == Transferring && Truthful(job, s.host, s.dev, s.written, a)
    requires s.host.firstId <= a.id < s.host.firstId + |s.host.acks|
    ensures var h := HearData(job, s.host, a.id - s.host.firstId, a.reply);
            && Later(job, s.host, h) && h.i <= s.written
            && InPhase(job, s.(host := h)) && Noted(job, h, s.written)
  {
    var h, m := s.host, a.id - s.host.firstId;
    if a.reply.DataAck? {
      var acks := h.acks[m := Some(a.reply.received)];
      assert Noted(job, h.(acks := acks), s.written);
      if AllIn(acks) {
        NotedProgress(job, h.(acks := acks), s.written);
      }
    }
  }

  lemma HearDataSafe(job: Job, s: System, a: Answer)
    requires job.Valid() && Safe(job, s) && s.host.phase == Transferring
    requires Truthful(job, s.host, s.dev, s.written, a)
    requires s.host.firstId <= a.id < s.host.firstId + |s.host.acks|
    ensures Safe(job, s.(host := HearData(job, s.host, a.id - s.host.firstId, a.reply)))
  {
    DataHeard(job, s, a);
    HostStepSafe(job, s, HearData(job, s.host, a.id - s.host.firstId, a.reply));
  }

  lemma NotedProgress(job: Job, h: Host, written: nat)
    requires h.i + |h.acks| <= |job.parts| && h.acks != [] && Noted(job, h, written) && AllIn(h.acks)
    ensures Progress(job, h.i, h.acks) && h.i + |h.acks| <= written
  {
    assert h.acks[|h.acks| - 1].Some?;
  }

  lemma {:induction false} PartAtFinds(job: Job, i: nat, limit: nat, at: nat)
    requires job.Valid() && i <= at <= limit <= |job.parts|
    ensures PartAt(job, i, limit, Off(job.parts, at)) == Some(at)
    decreases limit - i
  {
    JobParts(job);
    OffIncreases(job.parts, i, at);
    if i < at {
      PartAtFinds(job, i + 1, limit, at);
    }
  }

  /** The answer to any other request: the byte count of a status is always one the host expects. */
  lemma HearOtherSafe(job: Job, s: System, a: Answer)
    requires job.Valid() && Safe(job, s) && s.host.phase != Transferring
    requires Truthful(job, s.host, s.dev, s.written, a) && s.host.waiting == Some(a.id)
    ensures Safe(job, s.(host := HearOther(job, s.host, a.reply)))
  {
    if s.host.phase == Resuming && a.reply.StatusIs? && a.reply.active {
      PartAtFinds(job, s.host.i, job.Limit(s.host.i), a.at);
    }
    HostStepSafe(job, s, HearOther(job, s.host, a.reply));
  }

  lemma PoppedSafe(job: Job, s: System)
    requires Safe(job, s) && s.toHost != []
    ensures Safe(job, s.(toHost := s.toHost[1..])) && Truthful(job, s.host, s.dev, s.written, s.toHost[0])
  {
    assert s.toHost[0] in s.toHost;
  }

  lemma HearSafe(job: Job, s: System)
    requires job.Valid() && Safe(job, s)
    ensures Safe(job, HostHear(job, s))
  {
    if s.toHost != [] {
      var a, h, popped := s.toHost[0], s.host, s.(toHost := s.toHost[1..]);
      PoppedSafe(job, s);
      if h.phase == Transferring {
        if h.firstId <= a.id < h.firstId + |h.acks| {
          HearDataSafe(job, popped, a);
        }
      } else if h.waiting == Some(a.id) {
        HearOtherSafe(job, popped, a);
      }
    }
  }

  /** Sending moves the host on, and what it sends is what it asks. */
  lemma Sends(job: Job, s: System)
    requires job.Valid() && Stored(job, s) && InPhase(job, s) && Noted(job, s.host, s.written)
    ensures var after := HostSend(job, s);
            && Later(job, s.host, after.host) && after.host.i == s.host.i
            && InPhase(job, s.(host := after.host)) && Noted(job, after.host, s.written)
            && after == s.(host := after.host, toDev := after.toDev)
            && (after.toDev == s.toDev
                || (|after.toDev| == |s.toDev| + 1 && after.toDev[..|s.toDev|] == s.toDev
                    && Asked(job, after.host, after.toDev[|s.toDev|])))
  {
    var after := HostSend(job, s);
    if after != s {
      var m := after.toDev[|s.toDev|];
      assert after.toDev == s.toDev + [m];
      assert Asked(job, after.host, m);
    }
  }

  lemma SendSafe(job: Job, s: System)
    requires job.Valid() && Safe(job, s)
    ensures Safe(job, HostSend(job, s))
  {
    var after := HostSend(job, s);
    Sends(job, s);
    HostStepSafe(job, s, after.host);
    if after.toDev != s.toDev {
      var m := after.toDev[|s.toDev|];
      assert after.toDev == s.toDev + [m];
    }
  }

  /** What the service task has done and answers. */
  predicate Served(job: Job, s: System, after: System, a: Answer) {
    && Stored(job, after) && s.written <= after.written <= |job.parts|
    && (after.dev.selected == s.dev.selected || after.dev.selected == Some(job.image))
    && Truthful(job, s.host, after.dev, after.written, a)
  }

  lemma DataServed(job: Job, s: System, well: bool)
    requires job.Valid() && Safe(job, s) && s.stage.Running? && s.stage.m.r.Data?
    ensures Served(job, s, Work(job, s, s.stage.m, well), Work(job, s, s.stage.m, well).stage.a)
  {
    var m, after := s.stage.m, Work(job, s, s.stage.m, well);
    if after.written > s.written {
      AcceptsNext(job, s, m);
      assert after.dev == s.dev.(received := Off(job.parts, s.written + 1), flash := Sent(job.parts, s.written + 1));
    } else {
      assert after.dev == s.dev || after.dev == Stopped(s.dev);
    }
  }

  lemma EndServed(job: Job, s: System, well: bool)
    requires job.Valid() && Safe(job, s) && s.stage.Running? && s.stage.m.r == End
    ensures Served(job, s, Work(job, s, s.stage.m, well), Work(job, s, s.stage.m, well).stage.a)
  {
    if s.dev.active && s.dev.received == job.t.total {
      SelectsWhole(job, s);
    }
  }

  lemma RestServed(job: Job, s: System, well: bool)
    requires job.Valid() && Safe(job, s) && s.stage.Running? && !s.stage.m.r.Data? && s.stage.m.r != End
    ensures Served(job, s, Work(job, s, s.stage.m, well), Work(job, s, s.stage.m, well).stage.a)
  {
  }

  lemma WorkServed(job: Job, s: System, well: bool)
    requires job.Valid() && Safe(job, s) && s.stage.Running?
    ensures Served(job, s, Work(job, s, s.stage.m, well), Work(job, s, s.stage.m, well).stage.a)
  {
    match s.stage.m.r {
      case Data(_, _) => DataServed(job, s, well);
      case End => EndServed(job, s, well);
      case _ => RestServed(job, s, well);
    }
  }

  /** The service task finishes a request. */
  lemma WorkSafe(job: Job, s: System, well: bool)
    requires job.Valid() && Safe(job, s) && s.stage.Running?
    ensures Safe(job, Work(job, s, s.stage.m, well))
  {
    var after := Work(job, s, s.stage.m, well);
    WorkServed(job, s, well);
    forall a | a in s.toHost ensures Truthful(job, s.host, after.dev, after.written, a) {
      TruthKept(job, s.host, s.host, s.dev, after.dev, s.written, after.written, a);
    }
  }

  /** A write the device accepts is the very next part, so no byte is written twice. */
  lemma AcceptsNext(job: Job, s: System, m: Message)
    requires job.Valid() && Safe(job, s) && Asked(job, s.host, m) && m.r.Data?
    requires s.dev.active && m.r.offset == s.dev.received
    ensures m.part == s.written < |job.parts| && m.r.data == job.parts[s.written]
    ensures s.dev.flash + m.r.data == Sent(job.parts, s.written + 1)
    ensures s.written < job.Limit(s.host.i)
  {
    JobParts(job);
    SameOffset(job.parts, m.part, s.written);
    SameOffset(job.parts, s.written, m.part);
  }

  lemma SelectsWhole(job: Job, s: System)
    requires job.Valid() && Safe(job, s) && s.dev.active && s.dev.received == job.t.total
    ensures s.dev.flash == job.image && s.written == |job.parts|
  {
    JobParts(job);
    SameOffset(job.parts, |job.parts|, s.written);
  }

  lemma AnsweredSafe(job: Job, s: System, reply: Reply)
    requires job.Valid() && Safe(job, s) && s.toDev != []
    requires reply == Error || reply == Cancelled || reply == JobIs(s.dev.selected.Some?)
             || reply == StatusIs(s.dev.active, s.dev.received)
    ensures Safe(job, Answered(s, reply))
  {
    var m := s.toDev[0];
    assert m in s.toDev;
    assert Truthful(job, s.host, s.dev, s.written, Answer(m.id, reply, m.part, s.written));
  }

  lemma ArriveSafe(job: Job, s: System)
    requires job.Valid() && Safe(job, s)
    ensures Safe(job, Arrive(s))
  {
    if s.toDev != [] {
      assert s.toDev[0] in s.toDev;
      if Arrive(s).stage == s.stage {
        AnsweredSafe(job, s, Arrive(s).toHost[|s.toHost|].reply);
      }
    }
  }

  lemma AbortSafe(job: Job, s: System)
    requires job.Valid() && Safe(job, s)
    ensures Safe(job, s.(dev := Stopped(s.dev)))
  {
    forall a | a in s.toHost ensures Truthful(job, s.host, Stopped(s.dev), s.written, a) {
      TruthKept(job, s.host, s.host, s.dev, Stopped(s.dev), s.written, s.written, a);
    }
  }

  lemma LinkSafe(job: Job, s: System, e: Happening)
    requires job.Valid() && Safe(job, s) && (e.RequestLost? || e.AnswerLost? || e.Drained?)
    ensures Safe(job, Next(job, s, e))
  {
  }

  lemma StepSafe(job: Job, s: System, e: Happening)
    requires job.Valid() && Safe(job, s)
    ensures Safe(job, Next(job, s, e))
  {
    match e {
      case HostSends => SendSafe(job, s);
      case HostHears => HearSafe(job, s);
      case HostTimesOut => HostStepSafe(job, s, TimedOut(s.host));
      case HostFails => HostStepSafe(job, s, Stop(s.host, false));
      case HostDisconnects => HostStepSafe(job, s, Stop(s.host, true));
      case Arrives => ArriveSafe(job, s);
      case Worked(well) => if s.stage.Running? { WorkSafe(job, s, well); }
      case Refused => if s.toDev != [] { AnsweredSafe(job, s, Error); }
      case Aborts => AbortSafe(job, s);
      case RequestLost(_) => LinkSafe(job, s, e);
      case AnswerLost(_) => LinkSafe(job, s, e);
      case Drained => LinkSafe(job, s, e);
    }
  }

  function Start(job: Job): System {
    System(Device(true, 0, [], None), Idle, Host(Transferring, 0, 1, [], None, 1, NoFault), [], [], 0)
  }

  function Run(job: Job, s: System, events: seq<Happening>): (end: System)
    requires job.Valid() && Safe(job, s)
    decreases |events|
  {
    if events == [] then s
    else
      StepSafe(job, s, events[0]);
      Run(job, Next(job, s, events[0]), events[1..])
  }

  lemma {:induction false} RunSafe(job: Job, s: System, events: seq<Happening>)
    requires job.Valid() && Safe(job, s)
    ensures Safe(job, Run(job, s, events))
    decreases |events|
  {
    if events != [] {
      StepSafe(job, s, events[0]);
      RunSafe(job, Next(job, s, events[0]), events[1..]);
    }
  }

  lemma StartSafe(job: Job)
    requires job.Valid()
    ensures Safe(job, Start(job))
  {
    JobParts(job);
  }

  /** After BEGIN, whatever is lost, late, refused or aborted: flash is the first received bytes of the image;
      the host never counts on more; it never meets an unexpected offset or an invalid progress; and an update
      it believes on the device's word has selected the whole image. A disconnection proves less: that the
      whole image was received, not that it was selected. */
  lemma OtaSafe(job: Job, events: seq<Happening>)
    requires job.Valid()
    ensures Safe(job, Start(job))
    ensures var end := Run(job, Start(job), events);
            && end.host.i <= |job.parts| && end.written <= |job.parts|
            && (end.dev.active ==>
                  && end.dev.flash <= job.image && |end.dev.flash| == end.dev.received
                  && Off(job.parts, end.host.i) <= end.dev.received)
            && end.host.fault == NoFault
            && (end.dev.selected.Some? ==> end.dev.selected.value == job.image)
            && (end.host.phase == Returned(FromResponse) || end.host.phase == Returned(FromJob) ==>
                  end.dev.selected == Some(job.image))
            && (end.host.phase == Returned(FromDisconnect) ==> end.written == |job.parts|)
  {
    StartSafe(job);
    RunSafe(job, Start(job), events);
    var end := Run(job, Start(job), events);
    JobParts(job);
    OffIncreases(job.parts, end.host.i, end.written);
    SentLength(job.parts, end.written);
    SentPrefix(job.parts, end.written, |job.parts|);
  }

  lemma Follow(job: Job, s: System, e: Happening, rest: seq<Happening>)
    requires job.Valid() && Safe(job, s)
    ensures Safe(job, Next(job, s, e)) && Run(job, s, [e] + rest) == Run(job, Next(job, s, e), rest)
  {
    StepSafe(job, s, e);
    assert ([e] + rest)[1..] == rest;
  }

  lemma {:induction false} RunAppend(job: Job, s: System, a: seq<Happening>, b: seq<Happening>)
    requires job.Valid() && Safe(job, s)
    ensures Safe(job, Run(job, s, a)) && Run(job, s, a + b) == Run(job, Run(job, s, a), b)
    decreases |a|
  {
    RunSafe(job, s, a);
    if a == [] {
      assert a + b == b;
    } else {
      StepSafe(job, s, a[0]);
      RunAppend(job, Next(job, s, a[0]), a[1..], b);
      assert (a + b)[1..] == a[1..] + b;
    }
  }

  lemma Twice(job: Job, s: System, a: Happening, b: Happening)
    requires job.Valid() && Safe(job, s)
    ensures Safe(job, Next(job, s, a)) && Run(job, s, [a, b]) == Next(job, Next(job, s, a), b)
  {
    Follow(job, s, a, [b]);
    Follow(job, Next(job, s, a), b, []);
    assert [a] + [b] == [a, b] && [b] + [] == [b];
  }

  /** The slice of the image the gateway takes at a part's offset is the part. */
  lemma {:induction false} SliceIsPart(image: seq<byte>, chunkMax: nat, k: nat)
    requires 0 < chunkMax && k < |Cut(image, chunkMax)|
    ensures var at := Off(Cut(image, chunkMax), k);
            && at == k * chunkMax < |image|
            && Cut(image, chunkMax)[k] == Slice(image, at, chunkMax)
    decreases |image|
  {
    var parts := Cut(image, chunkMax);
    if k > 0 {
      var rest := image[chunkMax..];
      assert parts == [image[..chunkMax]] + Cut(rest, chunkMax);
      SliceIsPart(rest, chunkMax, k - 1);
      OffTail(parts, k);
      SliceShift(image, chunkMax, Off(Cut(rest, chunkMax), k - 1), chunkMax);
      assert k * chunkMax == (k - 1) * chunkMax + chunkMax;
    }
  }

  /** At most n bytes from an offset on. */
  function Slice(image: seq<byte>, at: nat, n: nat): seq<byte>
    requires at <= |image|
  {
    image[at..if at + n <= |image| then at + n else |image|]
  }

  lemma SliceShift(image: seq<byte>, skip: nat, at: nat, n: nat)
    requires skip + at <= |image|
    ensures Slice(image[skip..], at, n) == Slice(image, skip + at, n)
  {
  }

  lemma {:induction false} OffTail(parts: seq<seq<byte>>, k: nat)
    requires 0 < k <= |parts|
    ensures Off(parts, k) == |parts[0]| + Off(parts[1..], k - 1)
  {
    if k > 1 {
      OffTail(parts, k - 1);
    }
  }

  /** The firmware's transfer record, changed in place by its handlers. */
  class Transfer {
    const t: Terms
    var active: bool
    var received: nat
    var hashed: seq<byte>
    var flash: seq<byte>
    var selected: Option<seq<byte>>

    ghost predicate Valid()
      reads this
    {
      active ==> hashed == flash && |flash| == received <= t.total
    }

    function State(): Device
      reads this
    {
      Device(active, received, flash, selected)
    }

    /** BEGIN: the partition is erased as it is written. */
    constructor (t: Terms)
      ensures Valid() && State() == Device(true, 0, [], None) && this.t == t
    {
      this.t, active, received, hashed, flash, selected := t, true, 0, [], [], None;
    }

    method Abort()
      modifies this`active, this`received, this`hashed
      ensures Valid() && State() == Stopped(old(State()))
    {
      active, received, hashed := false, 0, [];
    }

    method HandleData(r: Request, hashes: bool, writes: bool) returns (reply: Reply)
      requires Valid() && r.Data?
      modifies this
      ensures Valid() && (State(), reply) == AfterData(t, old(State()), r, hashes && writes)
    {
      if !active {
        return Error;
      }
      if |r.data| == 0 || |r.data| > t.chunkMax || r.offset != received || received + |r.data| > t.total {
        return Error;
      }
      var ok := hashes;
      if ok {
        hashed := hashed + r.data;
        if writes {
          flash := flash + r.data;
        } else {
          ok := false;
        }
      }
      if !ok {
        Abort();
        return Error;
      }
      received := received + |r.data|;
      reply := DataAck(received);
    }

    method HandleEnd(hashes: bool, valid: bool, agreed: bool, cancelled: bool, selects: bool) returns (reply: Reply)
      requires Valid()
      modifies this
      ensures Valid()
      ensures (State(), reply) == AfterEnd(t, old(State()), hashes && valid && agreed && !cancelled && selects)
    {
      if !active {
        return Error;
      }
      var ok := received == t.total;
      ok := ok && hashes;
      ok := ok && t.hash(hashed) == t.expected;
      ok := ok && valid;
      ok := ok && agreed;
      ok := ok && !cancelled;
      ok := ok && selects;
      if ok {
        selected := Some(flash);
      }
      Abort();
      reply := EndAck(ok);
    }
  }
}
