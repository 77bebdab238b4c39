/** Updates that come to an end: part after part, any of whose requests or answers may be lost, and END with its
    answer, heard or lost. */
module OtaRuns {
  import opened Bytes
  import opened Ota
  import opened Parts

  /** The device has k parts, nothing is under way, and the host has heard of all k. */
  predicate Level(job: Job, s: System, k: nat)
    requires k <= |job.parts|
  {
    var h := s.host;
    && s.stage == Idle && s.toDev == [] && s.toHost == [] && s.written == k
    && s.dev == Device(true, Off(job.parts, k), Sent(job.parts, k), None)
    && h.i + |h.acks| == k && h.waiting == None
    && if k == |job.parts| then h.phase == Ending
       else h.phase == Transferring && k < job.Limit(h.i) && AllIn(h.acks) && Progress(job, h.i, h.acks)
            && h.nextId == h.firstId + |h.acks|
  }

  /** The next part has been sent, written, and answered. */
  function Answering(job: Job, s: System, k: nat): System
    requires k < |job.parts|
  {
    var h := s.host;
    System(Device(true, Off(job.parts, k + 1), Sent(job.parts, k + 1), None), Idle,
           h.(acks := h.acks + [None], nextId := h.nextId + 1), [],
           [Answer(h.nextId, DataAck(Off(job.parts, k + 1)), k, k + 1)], k + 1)
  }

  const ONE_PART: seq<Happening> := [HostSends, Arrives, Worked(true), Drained]

  lemma PartSent(job: Job, s: System, k: nat)
    requires job.Valid() && k < |job.parts| && Level(job, s, k)
    ensures var m := Message(s.host.nextId, Data(Off(job.parts, k), job.parts[k]), k);
            var h := s.host.(acks := s.host.acks + [None], nextId := s.host.nextId + 1);
            && Next(job, s, HostSends) == s.(host := h, toDev := [m])
            && h.i + |h.acks| <= |job.parts|
            && Next(job, Next(job, s, HostSends), Arrives) == s.(host := h, stage := Running(m))
  {
    assert s.toDev == [];
  }

  lemma PartWritten(job: Job, s: System, k: nat)
    requires job.Valid() && k < |job.parts| && Level(job, s, k)
    ensures Process(job.t, s.dev, Data(Off(job.parts, k), job.parts[k]), true)
         == (Answering(job, s, k).dev, DataAck(Off(job.parts, k + 1)))
  {
    JobParts(job);
    SameOffset(job.parts, |job.parts|, k + 1);
    assert Off(job.parts, k + 1) == Off(job.parts, k) + |job.parts[k]| <= job.t.total;
  }

  lemma PartAnswered(job: Job, s: System, k: nat)
    requires job.Valid() && Safe(job, s) && k < |job.parts| && Level(job, s, k)
    ensures Run(job, s, ONE_PART) == Answering(job, s, k)
  {
    RunAppend(job, s, [HostSends, Arrives], [Worked(true), Drained]);
    Twice(job, s, HostSends, Arrives);
    PartSent(job, s, k);
    PartWritten(job, s, k);
    Twice(job, Run(job, s, [HostSends, Arrives]), Worked(true), Drained);
    assert [HostSends, Arrives] + [Worked(true), Drained] == ONE_PART;
  }

  lemma PartHeard(job: Job, s: System, k: nat)
    requires job.Valid() && k < |job.parts| && Level(job, s, k)
    requires s.host.i + |Answering(job, s, k).host.acks| <= |job.parts|
    ensures Level(job, Next(job, Answering(job, s, k), HostHears), k + 1)
  {
    var h := Answering(job, s, k).host;
    var acks := h.acks[|s.host.acks| := Some(Off(job.parts, k + 1))];
    assert acks == s.host.acks + [Some(Off(job.parts, k + 1))];
    assert AllIn(acks) && Progress(job, h.i, acks);
  }

  /** A request that reaches the device and is answered, and the answer heard; or the one or the other lost. */
  const ROUND: seq<Happening> := ONE_PART + [HostHears]
  const UNHEARD: seq<Happening> := ONE_PART + [AnswerLost(0), HostTimesOut]
  const UNSENT: seq<Happening> := [HostSends, RequestLost(0)] + [HostTimesOut]

  lemma Once(job: Job, s: System, e: Happening)
    requires job.Valid() && Safe(job, s)
    ensures Safe(job, Next(job, s, e)) && Run(job, s, [e]) == Next(job, s, e)
  {
    Follow(job, s, e, []);
    assert [e] + [] == [e];
  }

  /** The host is about to ask how far the device has got. */
  predicate Resumable(job: Job, s: System, k: nat)
    requires k <= |job.parts|
  {
    var h := s.host;
    && s.stage == Idle && s.toDev == [] && s.toHost == [] && s.written == k
    && s.dev == Device(true, Off(job.parts, k), Sent(job.parts, k), None)
    && h.phase == Resuming && h.acks == [] && h.waiting == None && h.i <= k <= job.Limit(h.i)
  }

  lemma PartRound(job: Job, s: System, k: nat)
    requires job.Valid() && Safe(job, s) && k < |job.parts| && Level(job, s, k)
    ensures Safe(job, Run(job, s, ROUND)) && Level(job, Run(job, s, ROUND), k + 1)
  {
    PartAnswered(job, s, k);
    RunAppend(job, s, ONE_PART, [HostHears]);
    Once(job, Answering(job, s, k), HostHears);
    PartHeard(job, s, k);
  }

  lemma PartUnheard(job: Job, s: System, k: nat)
    requires job.Valid() && Safe(job, s) && k < |job.parts| && Level(job, s, k)
    ensures Safe(job, Run(job, s, UNHEARD)) && Resumable(job, Run(job, s, UNHEARD), k + 1)
  {
    PartAnswered(job, s, k);
    RunAppend(job, s, ONE_PART, [AnswerLost(0), HostTimesOut]);
    Twice(job, Answering(job, s, k), AnswerLost(0), HostTimesOut);
    RunSafe(job, s, UNHEARD);
  }

  lemma PartUnsent(job: Job, s: System, k: nat)
    requires job.Valid() && Safe(job, s) && k < |job.parts| && Level(job, s, k)
    ensures Safe(job, Run(job, s, UNSENT)) && Resumable(job, Run(job, s, UNSENT), k)
  {
    PartSent(job, s, k);
    RunAppend(job, s, [HostSends, RequestLost(0)], [HostTimesOut]);
    Twice(job, s, HostSends, RequestLost(0));
    Once(job, Run(job, s, [HostSends, RequestLost(0)]), HostTimesOut);
    RunSafe(job, s, UNSENT);
  }

  /** One request at a time: what the device makes of it, and what the host then hears. */
  lemma AskedRound(job: Job, s: System, r: Request)
    requires job.Valid() && Safe(job, s) && s.stage == Idle && s.toDev == [] && s.toHost == []
    requires s.host.waiting == None && HostSend(job, s) == Ask(s, r) && (r == Status || r == End || r == Cancel)
    ensures var (dev, reply) := Process(job.t, s.dev, r, true);
            var h, a := s.host.(waiting := Some(s.host.nextId), nextId := s.host.nextId + 1),
                        Answer(s.host.nextId, reply, 0, s.written);
            && Run(job, s, ONE_PART) == s.(dev := dev, host := h, toHost := [a])
            && Safe(job, s.(dev := dev, host := h, toHost := [a]))
  {
    RunAppend(job, s, [HostSends, Arrives], [Worked(true), Drained]);
    Twice(job, s, HostSends, Arrives);
    var running := Run(job, s, [HostSends, Arrives]);
    assert running.stage == Running(Message(s.host.nextId, r, 0)) && running.toDev == [];
    Twice(job, running, Worked(true), Drained);
    assert [HostSends, Arrives] + [Worked(true), Drained] == ONE_PART;
    RunSafe(job, s, ONE_PART);
  }

  /** The question about the state of the job is answered on arrival. */
  lemma QueryRound(job: Job, s: System)
    requires job.Valid() && Safe(job, s) && s.stage == Idle && s.toDev == [] && s.toHost == []
    requires s.host.waiting == None && s.host.phase == Querying
    ensures var h, a := s.host.(waiting := Some(s.host.nextId), nextId := s.host.nextId + 1),
                        Answer(s.host.nextId, JobIs(s.dev.selected.Some?), 0, s.written);
            && Run(job, s, ONE_PART) == s.(host := h, toHost := [a])
            && Safe(job, s.(host := h, toHost := [a]))
  {
    RunAppend(job, s, [HostSends, Arrives], [Worked(true), Drained]);
    Twice(job, s, HostSends, Arrives);
    Twice(job, Run(job, s, [HostSends, Arrives]), Worked(true), Drained);
    assert [HostSends, Arrives] + [Worked(true), Drained] == ONE_PART;
    RunSafe(job, s, ONE_PART);
  }

  /** Resuming goes on where the device has got to. */
  lemma Resumes(job: Job, s: System, k: nat)
    requires job.Valid() && Safe(job, s) && k <= |job.parts| && Resumable(job, s, k)
    ensures Safe(job, Run(job, s, ROUND)) && Level(job, Run(job, s, ROUND), k)
  {
    AskedRound(job, s, Status);
    RunAppend(job, s, ONE_PART, [HostHears]);
    var asked := Run(job, s, ONE_PART);
    Once(job, asked, HostHears);
    PartAtFinds(job, s.host.i, job.Limit(s.host.i), k);
    assert asked.toHost[1..] == [];
  }

  /** What is lost of one part. */
  datatype Loss = NoLoss | LosesRequest | LosesAnswer

  function PartEvents(loss: Loss): seq<Happening> {
    match loss
    case NoLoss => ROUND
    case LosesRequest => UNSENT + (ROUND + ROUND)
    case LosesAnswer => UNHEARD + ROUND
  }

  /** Whatever is lost of one part, the device has it once, and the host knows it. */
  lemma PartThrough(job: Job, s: System, k: nat, loss: Loss)
    requires job.Valid() && Safe(job, s) && k < |job.parts| && Level(job, s, k)
    ensures var end := Run(job, s, PartEvents(loss));
            Safe(job, end) && Level(job, end, k + 1)
  {
    match loss {
      case NoLoss => PartRound(job, s, k);
      case LosesRequest =>
        PartUnsent(job, s, k);
        RunAppend(job, s, UNSENT, ROUND + ROUND);
        var unsent := Run(job, s, UNSENT);
        Resumes(job, unsent, k);
        RunAppend(job, unsent, ROUND, ROUND);
        PartRound(job, Run(job, unsent, ROUND), k);
      case LosesAnswer =>
        PartUnheard(job, s, k);
        RunAppend(job, s, UNHEARD, ROUND);
        Resumes(job, Run(job, s, UNHEARD), k + 1);
    }
  }

  function PartsEvents(losses: seq<Loss>): seq<Happening> {
    if losses == [] then [] else PartEvents(losses[0]) + PartsEvents(losses[1..])
  }

  /** Part after part, from any level state, until the host is about to send END. */
  lemma {:induction false} SendsAll(job: Job, s: System, k: nat, losses: seq<Loss>)
    requires job.Valid() && Safe(job, s) && k + |losses| == |job.parts| && Level(job, s, k)
    ensures var end := Run(job, s, PartsEvents(losses));
            Safe(job, end) && Level(job, end, |job.parts|)
    decreases |losses|
  {
    if losses != [] {
      PartThrough(job, s, k, losses[0]);
      RunAppend(job, s, PartEvents(losses[0]), PartsEvents(losses[1..]));
      SendsAll(job, Run(job, s, PartEvents(losses[0])), k + 1, losses[1..]);
    }
  }

  // ----------------------------------------------------------------------- END

  /** The image has the digest that was announced. */
  predicate Genuine(job: Job) {
    job.t.hash(job.image) == job.t.expected
  }

  /** The selection, and what it was selected for. */
  predicate Selects(job: Job, s: System) {
    if Genuine(job) then s.dev.selected == Some(job.image) else s.dev.selected == None
  }

  /** What is lost of END: nothing, the answer, or END itself. */
  function EndEvents(loss: Loss): seq<Happening> {
    match loss
    case NoLoss => ROUND
    case LosesAnswer => UNHEARD + ROUND
    case LosesRequest => UNSENT + ROUND
  }

  lemma EndLands(job: Job, s: System)
    requires job.Valid() && Safe(job, s) && Level(job, s, |job.parts|)
    ensures AfterEnd(job.t, s.dev, true)
         == (Device(false, 0, job.image, if Genuine(job) then Some(job.image) else None), EndAck(Genuine(job)))
  {
    JobParts(job);
  }

  lemma EndHeard(job: Job, s: System)
    requires job.Valid() && Safe(job, s) && Level(job, s, |job.parts|)
    ensures var end := Run(job, s, ROUND);
            Selects(job, end) && end.host.phase == if Genuine(job) then Returned(FromResponse) else Raised
  {
    EndLands(job, s);
    AskedRound(job, s, End);
    RunAppend(job, s, ONE_PART, [HostHears]);
    Once(job, Run(job, s, ONE_PART), HostHears);
  }

  /** The host asks the job table, and believes it. */
  lemma JobBelieved(job: Job, s: System)
    requires job.Valid() && Safe(job, s) && s.stage == Idle && s.toDev == [] && s.toHost == []
    requires s.host.waiting == None && s.host.phase == Querying
    ensures var end := Run(job, s, ROUND);
            end.dev == s.dev && end.host.phase == if s.dev.selected.Some? then Returned(FromJob) else Cancelling
  {
    QueryRound(job, s);
    RunAppend(job, s, ONE_PART, [HostHears]);
    Once(job, Run(job, s, ONE_PART), HostHears);
  }

  lemma EndUnheard(job: Job, s: System)
    requires job.Valid() && Safe(job, s) && Level(job, s, |job.parts|)
    ensures var end := Run(job, s, UNHEARD + ROUND);
            Selects(job, end) && end.host.phase == if Genuine(job) then Returned(FromJob) else Cancelling
  {
    EndLands(job, s);
    AskedRound(job, s, End);
    RunAppend(job, s, ONE_PART, [AnswerLost(0), HostTimesOut]);
    Twice(job, Run(job, s, ONE_PART), AnswerLost(0), HostTimesOut);
    RunAppend(job, s, UNHEARD, ROUND);
    JobBelieved(job, Run(job, s, UNHEARD));
  }

  lemma EndUnsent(job: Job, s: System)
    requires job.Valid() && Safe(job, s) && Level(job, s, |job.parts|)
    ensures var end := Run(job, s, UNSENT + ROUND);
            end.dev.selected == None && end.host.phase == Cancelling
  {
    RunAppend(job, s, [HostSends, RequestLost(0)], [HostTimesOut]);
    Twice(job, s, HostSends, RequestLost(0));
    Once(job, Run(job, s, [HostSends, RequestLost(0)]), HostTimesOut);
    RunAppend(job, s, UNSENT, ROUND);
    JobBelieved(job, Run(job, s, UNSENT));
  }

  /** An update ends as it should, whichever requests and answers are lost, of whichever parts: the image is selected
      exactly if it has the digest announced, and the host learns it from END, or from the job table if the answer to
      END is lost; if END itself is lost, nothing is selected and the host gives up. */
  lemma UpdateEnds(job: Job, losses: seq<Loss>, last: Loss)
    requires job.Valid() && |losses| == |job.parts|
    ensures Safe(job, Start(job))
    ensures var end := Run(job, Start(job), PartsEvents(losses) + EndEvents(last));
            match last
            case NoLoss =>
              Selects(job, end) && end.host.phase == if Genuine(job) then Returned(FromResponse) else Raised
            case LosesAnswer =>
              Selects(job, end) && end.host.phase == if Genuine(job) then Returned(FromJob) else Cancelling
            case LosesRequest => end.dev.selected == None && end.host.phase == Cancelling
  {
    StartSafe(job);
    JobParts(job);
    SendsAll(job, Start(job), 0, losses);
    RunAppend(job, Start(job), PartsEvents(losses), EndEvents(last));
    var sent := Run(job, Start(job), PartsEvents(losses));
    match last {
      case NoLoss => EndHeard(job, sent);
      case LosesAnswer => EndUnheard(job, sent);
      case LosesRequest => EndUnsent(job, sent);
    }
  }

  /** A host that has given up tells the device, which stops, and raises. */
  lemma CancelHeard(job: Job, s: System)
    requires job.Valid() && Safe(job, s) && s.stage == Idle && s.toDev == [] && s.toHost == []
    requires s.host.waiting == None && s.host.phase == Cancelling
    ensures var end := Run(job, s, ROUND);
            !end.dev.active && end.dev.selected == s.dev.selected && end.host.phase == Raised
  {
    AskedRound(job, s, Cancel);
    RunAppend(job, s, ONE_PART, [HostHears]);
    Once(job, Run(job, s, ONE_PART), HostHears);
  }

  // ------------------------------------------------------------------- over all runs

  /** What is selected has the digest announced. */
  predicate Checked(job: Job, d: Device) {
    d.selected.Some? ==> job.t.hash(d.selected.value) == job.t.expected
  }

  lemma StepChecked(job: Job, s: System, e: Happening)
    requires job.Valid() && Safe(job, s) && Checked(job, s.dev)
    ensures Checked(job, Next(job, s, e).dev)
  {
  }

  lemma {:induction false} RunChecked(job: Job, s: System, events: seq<Happening>)
    requires job.Valid() && Safe(job, s) && Checked(job, s.dev)
    ensures Checked(job, Run(job, s, events).dev)
    decreases |events|
  {
    if events != [] {
      StepSafe(job, s, events[0]);
      StepChecked(job, s, events[0]);
      RunChecked(job, Next(job, s, events[0]), events[1..]);
    }
  }

  /** Over every run: nothing is selected unless the image has the digest announced. */
  lemma SelectedGenuine(job: Job, events: seq<Happening>)
    requires job.Valid()
    ensures Safe(job, Start(job))
    ensures Run(job, Start(job), events).dev.selected.Some? ==> Genuine(job)
  {
    OtaSafe(job, events);
    RunChecked(job, Start(job), events);
  }

  function NoLosses(n: nat): (losses: seq<Loss>)
    ensures |losses| == n
  {
    seq(n, i => NoLoss)
  }

  /** Exactly when an update can return on the device's word: when the image has the digest announced. */
  lemma UpdateCanReturnIff(job: Job, e: Evidence)
    requires job.Valid() && e != FromDisconnect
    ensures Safe(job, Start(job))
    ensures (exists events :: Run(job, Start(job), events).host.phase == Returned(e)) <==> Genuine(job)
  {
    StartSafe(job);
    if Genuine(job) {
      var last := if e == FromResponse then NoLoss else LosesAnswer;
      UpdateEnds(job, NoLosses(|job.parts|), last);
      assert Run(job, Start(job), PartsEvents(NoLosses(|job.parts|)) + EndEvents(last)).host.phase == Returned(e);
    }
    forall events | Run(job, Start(job), events).host.phase == Returned(e) ensures Genuine(job) {
      OtaSafe(job, events);
      SelectedGenuine(job, events);
    }
  }

  /** And it does prove less: any image can be received whole, and the update believed finished, although END
      never reached the device, when the link drops just before END. */
  lemma DisconnectProvesLess(job: Job) returns (events: seq<Happening>)
    requires job.Valid()
    ensures Safe(job, Start(job))
    ensures var end := Run(job, Start(job), events);
            && end.host.phase == Returned(FromDisconnect) && end.dev.selected == None
            && end.written == |job.parts| && end.dev.flash == job.image
  {
    StartSafe(job);
    JobParts(job);
    var sends := PartsEvents(NoLosses(|job.parts|));
    SendsAll(job, Start(job), 0, NoLosses(|job.parts|));
    RunAppend(job, Start(job), sends, [HostDisconnects]);
    Follow(job, Run(job, Start(job), sends), HostDisconnects, []);
    events := sends + [HostDisconnects];
  }

  /** What the evidence of a returned update is worth, for every image: that the image has been selected follows,
      on all runs, exactly when the evidence is not a disconnection. */
  lemma EvidenceProves(job: Job, e: Evidence)
    requires job.Valid()
    ensures Safe(job, Start(job))
    ensures (forall events :: Run(job, Start(job), events).host.phase == Returned(e) ==>
                                Run(job, Start(job), events).dev.selected == Some(job.image))
       <==> e != FromDisconnect
  {
    StartSafe(job);
    if e == FromDisconnect {
      var events := DisconnectProvesLess(job);
      assert Run(job, Start(job), events).dev.selected == None;
    } else {
      forall events | Run(job, Start(job), events).host.phase == Returned(e)
        ensures Run(job, Start(job), events).dev.selected == Some(job.image)
      {
        OtaSafe(job, events);
      }
    }
  }
}
