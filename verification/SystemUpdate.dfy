/** The device's system update: a prepared set of components, each received, hashed and handed to a backend that
    may fail at any call. The calls made to the backend are recorded, and a ledger that knows nothing of the
    update judges whether they make sense. */
module SystemUpdate {
  import opened Arithmetic
  import opened Bytes

  datatype Component = Component(id: nat, known: bool, size: nat, sha: seq<byte>)

  /** A call to the backend and whether it succeeded. */
  datatype Call = Prepare(op: nat, count: nat, ok: bool)
                | BeginComponent(c: Component, ok: bool)
                | WriteComponent(c: Component, offset: nat, data: seq<byte>, ok: bool)
                | EndComponent(c: Component, digest: seq<byte>, ok: bool)
                | Commit(op: nat, ok: bool)
                | Abort(op: nat)

  datatype Platform = Platform(hash: seq<byte> -> seq<byte>, chunkMax: nat, maxComponents: nat)

  // -------------------------------------------------------------------- the ledger

  /** What a backend may rely on. Open: prepared, with the components verified so far and the one being written
      with its bytes. Failing: a call failed and must be answered by an abort. */
  datatype Ledger = Closed | Open(op: nat, count: nat, done: seq<nat>, current: Option<(Component, seq<byte>)>)
                  | Failing(op: nat) | Broken

  function Judge(p: Platform, l: Ledger, call: Call): Ledger {
    match call
    case Prepare(op, count, ok) => if l != Closed || op == 0 || count == 0 then Broken
                                   else if ok then Open(op, count, [], None) else Failing(op)
    case BeginComponent(c, ok) =>
      if !l.Open? || l.current.Some? || c.id == 0 || c.size == 0 || c.id in l.done || |l.done| >= l.count then Broken
      else if ok then l.(current := Some((c, []))) else Failing(l.op)
    case WriteComponent(c, offset, data, ok) =>
      if !l.Open? || l.current.None? || l.current.value.0 != c || offset != |l.current.value.1| || data == []
         || offset + |data| > c.size then Broken
      else if ok then l.(current := Some((c, l.current.value.1 + data))) else Failing(l.op)
    case EndComponent(c, digest, ok) =>
      if !l.Open? || l.current.None? || l.current.value.0 != c || |l.current.value.1| != c.size
         || p.hash(l.current.value.1) != c.sha || digest != c.sha then Broken
      else if ok then l.(done := l.done + [c.id], current := None) else Failing(l.op)
    case Commit(op, ok) =>
      if !l.Open? || l.op != op || l.current.Some? || |l.done| != l.count then Broken
      else if ok then Closed else Failing(op)
    case Abort(op) => if (l.Open? || l.Failing?) && l.op == op then Closed else Broken
  }

  function Audit(p: Platform, trace: seq<Call>): Ledger {
    if trace == [] then Closed else Judge(p, Audit(p, trace[..|trace| - 1]), trace[|trace| - 1])
  }

  function Prepares(trace: seq<Call>): nat {
    if trace == [] then 0 else Prepares(trace[..|trace| - 1]) + if trace[|trace| - 1].Prepare? then 1 else 0
  }

  /** Successful commits and aborts. */
  function Closings(trace: seq<Call>): nat {
    if trace == [] then 0
    else
      var last := trace[|trace| - 1];
      Closings(trace[..|trace| - 1]) + if last.Abort? || (last.Commit? && last.ok) then 1 else 0
  }

  /** In a sound record every prepare but the open one has been closed exactly once. */
  lemma {:induction false} ClosedOnce(p: Platform, trace: seq<Call>)
    requires Audit(p, trace) != Broken
    ensures Prepares(trace) == Closings(trace) + if Audit(p, trace) == Closed then 0 else 1
  {
    if trace != [] {
      assert Audit(p, trace[..|trace| - 1]) != Broken;
      ClosedOnce(p, trace[..|trace| - 1]);
    }
  }

  /** The bytes written, at contiguous offsets, since a component was last begun. */
  function Received(trace: seq<Call>): seq<byte> {
    if trace == [] then []
    else
      var last := trace[|trace| - 1];
      var before := Received(trace[..|trace| - 1]);
      if last.BeginComponent? then []
      else if last.WriteComponent? && last.ok && last.offset == |before| then before + last.data
      else before
  }

  /** Call k ends component id, which by then has received exactly its declared bytes, with their digest. */
  predicate Delivers(p: Platform, trace: seq<Call>, k: nat, id: nat) {
    && k < |trace| && trace[k].EndComponent? && trace[k].ok && trace[k].c.id == id
    && |Received(trace[..k])| == trace[k].c.size && p.hash(Received(trace[..k])) == trace[k].c.sha
  }

  /** Component id has been delivered since the last prepare. */
  ghost predicate Delivered(p: Platform, trace: seq<Call>, id: nat) {
    exists k: nat :: Delivers(p, trace, k, id) && forall m :: k < m < |trace| ==> !trace[m].Prepare?
  }

  lemma DeliveredStays(p: Platform, trace: seq<Call>, call: Call, id: nat)
    requires Delivered(p, trace, id) && !call.Prepare?
    ensures Delivered(p, trace + [call], id)
  {
    var k: nat :| Delivers(p, trace, k, id) && forall m :: k < m < |trace| ==> !trace[m].Prepare?;
    var longer := trace + [call];
    assert longer[..k] == trace[..k];
    assert Delivers(p, longer, k, id);
  }

  predicate Distinct(ids: seq<nat>) {
    (forall i :: 0 <= i < |ids| ==> ids[i] != 0) && forall i, j :: 0 <= i < j < |ids| ==> ids[i] != ids[j]
  }

  ghost predicate AllDelivered(p: Platform, trace: seq<Call>, ids: seq<nat>) {
    forall id :: id in ids ==> Delivered(p, trace, id)
  }

  /** What the ledger counts as done has been delivered: distinct, numbered, complete, with the right digest. */
  lemma {:induction false} DoneDelivered(p: Platform, trace: seq<Call>)
    requires Audit(p, trace).Open?
    ensures var l := Audit(p, trace);
            && |l.done| <= l.count && Distinct(l.done) && AllDelivered(p, trace, l.done)
            && (l.current.Some? ==> |l.done| < l.count && Received(trace) == l.current.value.1
                                    && l.current.value.0.id != 0 && l.current.value.0.id !in l.done)
  {
    var prior, last := trace[..|trace| - 1], trace[|trace| - 1];
    assert trace == prior + [last];
    if last.Prepare? {
      assert Audit(p, trace).done == [];
    } else {
      DoneDelivered(p, prior);
      forall id | id in Audit(p, prior).done ensures Delivered(p, trace, id) {
        DeliveredStays(p, prior, last, id);
      }
      if last.EndComponent? {
        assert trace[..|trace| - 1] == prior && Delivers(p, trace, |trace| - 1, last.c.id);
      }
    }
  }

  /** Commit is called only when as many distinct components as were announced have been delivered since the
      prepare. */
  lemma CommitMeans(p: Platform, trace: seq<Call>, op: nat, ok: bool)
    requires Audit(p, trace + [Commit(op, ok)]) != Broken
    ensures var l := Audit(p, trace);
            && l.Open? && l.op == op && |l.done| == l.count
            && Distinct(l.done) && AllDelivered(p, trace, l.done)
  {
    AuditPush(p, trace, Commit(op, ok));
    CommitNeedsAll(p, Audit(p, trace), op, ok);
    DoneDelivered(p, trace);
  }

  /** The last prepare on record. */
  function LastPrepare(trace: seq<Call>): Option<Call> {
    if trace == [] then None
    else if trace[|trace| - 1].Prepare? then Some(trace[|trace| - 1])
    else LastPrepare(trace[..|trace| - 1])
  }

  lemma {:induction false} OpenSince(p: Platform, trace: seq<Call>)
    requires Audit(p, trace).Open?
    ensures LastPrepare(trace) == Some(Prepare(Audit(p, trace).op, Audit(p, trace).count, true))
    ensures Audit(p, trace).count > 0
  {
    if !trace[|trace| - 1].Prepare? {
      OpenSince(p, trace[..|trace| - 1]);
    }
  }

  /** A beginning of a sound record is sound. */
  lemma {:induction false} AuditPrefix(p: Platform, trace: seq<Call>, k: nat)
    requires Audit(p, trace) != Broken && k <= |trace|
    ensures Audit(p, trace[..k]) != Broken
    decreases |trace|
  {
    if k == |trace| {
      assert trace[..k] == trace;
    } else {
      var prior := trace[..|trace| - 1];
      AuditPrefix(p, prior, k);
      assert prior[..k] == trace[..k];
    }
  }

  lemma CommitNeedsAll(p: Platform, l: Ledger, op: nat, ok: bool)
    requires Judge(p, l, Commit(op, ok)) != Broken
    ensures l.Open? && l.op == op && |l.done| == l.count
  {
  }

  lemma AuditPush(p: Platform, trace: seq<Call>, call: Call)
    ensures Audit(p, trace + [call]) == Judge(p, Audit(p, trace), call)
  {
    assert (trace + [call])[..|trace|] == trace;
  }

  // -------------------------------------------------------------------- the update

  datatype Phase = IdlePhase | Prepared | Receiving | Verified | CommittedPhase | FailedPhase | CancelledPhase

  /** The update, the progress last reported for its job, and the record of the backend calls. */
  datatype Update = Update(phase: Phase, op: nat, count: nat, flags: nat, manifestSha: seq<byte>, done: seq<nat>,
                           component: Component, bytes: seq<byte>, progress: nat, trace: seq<Call>) {
    predicate InProgress() {
      phase == Prepared || phase == Receiving || phase == Verified
    }
  }

  const NONE: Component := Component(0, false, 0, [])

  datatype Request = Begin(op: nat, count: nat, flags: nat, manifest: seq<byte>, sha: seq<byte>)
                   | ComponentBegin(op: nat, c: Component)
                   | Data(op: nat, id: nat, offset: nat, data: seq<byte>)
                   | ComponentEnd(op: nat, id: nat)
                   | CommitRequest(op: nat) | Cancel(op: nat)
                   | JobCancel | SessionEnd

  /** What the backend, the hash engine and the job table answer, and whether a cancellation is pending. */
  datatype World = World(backend: bool, hashing: bool, job: bool, cancelled: bool)

  function Logged(u: Update, call: Call): Update {
    u.(trace := u.trace + [call])
  }

  function Aborted(u: Update, phase: Phase): Update {
    if !u.InProgress() then u
    else Logged(u, Abort(u.op)).(phase := phase, component := NONE, bytes := [])
  }

  /** How much of one component has been received, of 850. */
  function Share(received: nat, size: nat): nat {
    if size > 0 then received * 850 / size else 0
  }

  function Level(count: nat, units: nat): nat {
    if count == 0 then 0 else if 50 + units / count > 900 then 900 else 50 + units / count
  }

  /** In thousandths: 50 when prepared, 900 when everything has been transferred. */
  function Progress(count: nat, done: nat, received: nat, size: nat): nat {
    Level(count, done * 850 + Share(received, size))
  }

  /** A fresh update whose backend has been prepared. */
  function Launched(u: Update, r: Request): Update
    requires r.Begin?
  {
    Update(Prepared, r.op, r.count, r.flags, r.sha, [], NONE, [], 0, u.trace + [Prepare(r.op, r.count, true)])
  }

  function AfterBegin(p: Platform, u: Update, r: Request, world: World): (Update, bool)
    requires r.Begin?
  {
    if r.op == 0 || r.manifest == [] || r.count == 0 || r.count > p.maxComponents then (u, false)
    else if p.hash(r.manifest) != r.sha then (u, false)
    else if u.InProgress() then
      (u, r.op == u.op && u.phase == Prepared && u.done == [] && u.count == r.count && u.flags == r.flags
          && u.manifestSha == r.sha)
    else if !world.backend then (Logged(Logged(u, Prepare(r.op, r.count, false)), Abort(r.op)), false)
    else
      var started := Launched(u, r);
      if !world.job then (Aborted(started, FailedPhase), false) else (started.(progress := 50), true)
  }

  function AfterComponentBegin(u: Update, r: Request, world: World): (Update, bool)
    requires r.ComponentBegin?
  {
    if r.op != u.op || u.phase != Prepared then (u, false)
    else if r.c.id == 0 || r.c.size == 0 || !r.c.known || r.c.id in u.done then (u, false)
    else
      var called := Logged(u, BeginComponent(r.c, world.backend));
      if !world.backend || !world.hashing then (Aborted(called, FailedPhase), false)
      else (called.(phase := Receiving, component := r.c, bytes := []), true)
  }

  function AfterData(p: Platform, u: Update, r: Request, world: World): (Update, bool)
    requires r.Data?
  {
    if r.data == [] || |r.data| > p.chunkMax || u.phase != Receiving || r.op != u.op || r.id != u.component.id
       || r.offset != |u.bytes| || |u.bytes| + |r.data| > u.component.size then (u, false)
    else if !world.hashing then (Aborted(u, FailedPhase), false)
    else
      var called := Logged(u, WriteComponent(u.component, |u.bytes|, r.data, world.backend));
      if !world.backend then (Aborted(called, FailedPhase), false)
      else
        (called.(bytes := u.bytes + r.data,
                 progress := Progress(u.count, |u.done|, |u.bytes + r.data|, u.component.size)), true)
  }

  function AfterComponentEnd(p: Platform, u: Update, r: Request, world: World): (Update, bool)
    requires r.ComponentEnd?
  {
    if r.op != u.op || r.id != u.component.id || u.phase != Receiving || |u.bytes| != u.component.size then (u, false)
    else if !world.hashing || p.hash(u.bytes) != u.component.sha then (Aborted(u, FailedPhase), false)
    else
      var called := Logged(u, EndComponent(u.component, p.hash(u.bytes), world.backend));
      if !world.backend then (Aborted(called, FailedPhase), false)
      else
        var done := u.done + [u.component.id];
        (called.(done := done, component := NONE, bytes := [], phase := if |done| < u.count then Prepared else Verified,
                 progress := Progress(u.count, |done|, 0, 0)), true)
  }

  function AfterCommit(u: Update, r: Request, world: World): (Update, bool)
    requires r.CommitRequest?
  {
    if r.op != u.op || u.phase != Verified || |u.done| != u.count then (u, false)
    else if world.cancelled then
      (Logged(u, Abort(u.op)).(phase := FailedPhase, progress := 950), false)
    else if !world.backend then
      (Logged(Logged(u, Commit(u.op, false)), Abort(u.op)).(phase := FailedPhase, progress := 950), false)
    else
      (Logged(u, Commit(u.op, true)).(phase := CommittedPhase, progress := 950), true)
  }

  /** One request, or a cancellation from the job table, or the end of the session. */
  function Process(p: Platform, u: Update, r: Request, world: World): (Update, bool) {
    match r
    case Begin(_, _, _, _, _) => AfterBegin(p, u, r, world)
    case ComponentBegin(_, _) => AfterComponentBegin(u, r, world)
    case Data(_, _, _, _) => AfterData(p, u, r, world)
    case ComponentEnd(_, _) => AfterComponentEnd(p, u, r, world)
    case CommitRequest(_) => AfterCommit(u, r, world)
    case Cancel(op) => if op != u.op || !u.InProgress() then (u, false) else (Aborted(u, CancelledPhase), true)
    case JobCancel => (Aborted(u, CancelledPhase), true)
    case SessionEnd => (Aborted(u, CancelledPhase), true)
  }

  // -------------------------------------------------------------------- main results

  /** The update is where the record of its calls says it is. */
  predicate Sound(p: Platform, u: Update) {
    match u.phase
    case Prepared => |u.done| < u.count && Audit(p, u.trace) == Open(u.op, u.count, u.done, None)
    case Receiving =>
      && |u.done| < u.count && Audit(p, u.trace) == Open(u.op, u.count, u.done, Some((u.component, u.bytes)))
      && 0 < u.component.size && |u.bytes| <= u.component.size
    case Verified => |u.done| == u.count && Audit(p, u.trace) == Open(u.op, u.count, u.done, None)
    case IdlePhase => Audit(p, u.trace) == Closed
    case CommittedPhase => Audit(p, u.trace) == Closed
    case FailedPhase => Audit(p, u.trace) == Closed
    case CancelledPhase => Audit(p, u.trace) == Closed
  }

  lemma AbortSound(p: Platform, u: Update, phase: Phase)
    requires phase == FailedPhase || phase == CancelledPhase
    requires u.InProgress() ==> (Audit(p, u.trace).Open? || Audit(p, u.trace).Failing?) && Audit(p, u.trace).op == u.op
    requires !u.InProgress() ==> Sound(p, u)
    ensures Sound(p, Aborted(u, phase))
  {
    AuditPush(p, u.trace, Abort(u.op));
  }

  lemma LaunchSound(p: Platform, u: Update, r: Request)
    requires r.Begin? && r.op != 0 && r.count != 0 && Audit(p, u.trace) == Closed
    ensures Sound(p, Launched(u, r))
  {
    AuditPush(p, u.trace, Prepare(r.op, r.count, true));
  }

  /** A prepare that fails is answered by an abort at once. */
  lemma FailedPrepare(p: Platform, trace: seq<Call>, op: nat, count: nat)
    requires op != 0 && count != 0 && Audit(p, trace) == Closed
    ensures Audit(p, trace + [Prepare(op, count, false)] + [Abort(op)]) == Closed
  {
    AuditPush(p, trace, Prepare(op, count, false));
    AuditPush(p, trace + [Prepare(op, count, false)], Abort(op));
  }

  lemma BeginSound(p: Platform, u: Update, r: Request, world: World)
    requires Sound(p, u) && r.Begin?
    ensures Sound(p, AfterBegin(p, u, r, world).0)
  {
    if r.op != 0 && r.count != 0 && !u.InProgress() {
      LaunchSound(p, u, r);
      AbortSound(p, Launched(u, r), FailedPhase);
      FailedPrepare(p, u.trace, r.op, r.count);
    }
  }

  lemma ComponentBeginSound(p: Platform, u: Update, r: Request, world: World)
    requires Sound(p, u) && r.ComponentBegin?
    ensures Sound(p, AfterComponentBegin(u, r, world).0)
  {
    var call := BeginComponent(r.c, world.backend);
    AuditPush(p, u.trace, call);
    AuditPush(p, u.trace + [call], Abort(u.op));
  }

  /** A call that fails, and the abort that answers it. */
  lemma FailedCall(p: Platform, u: Update, call: Call)
    requires Audit(p, u.trace).Open? && Audit(p, u.trace).op == u.op
    requires Judge(p, Audit(p, u.trace), call) == Failing(u.op)
    ensures Audit(p, u.trace + [call] + [Abort(u.op)]) == Closed
  {
    AuditPush(p, u.trace, call);
    AuditPush(p, u.trace + [call], Abort(u.op));
  }

  lemma DataSound(p: Platform, u: Update, r: Request, world: World)
    requires Sound(p, u) && r.Data?
    ensures Sound(p, AfterData(p, u, r, world).0)
  {
    if AfterData(p, u, r, world).0 != u {
      var call := WriteComponent(u.component, |u.bytes|, r.data, world.backend);
      if !world.hashing {
        AuditPush(p, u.trace, Abort(u.op));
      } else if !world.backend {
        FailedCall(p, u, call);
      } else {
        AuditPush(p, u.trace, call);
      }
    }
  }

  lemma ComponentEndSound(p: Platform, u: Update, r: Request, world: World)
    requires Sound(p, u) && r.ComponentEnd?
    ensures Sound(p, AfterComponentEnd(p, u, r, world).0)
  {
    if AfterComponentEnd(p, u, r, world).0 != u {
      var call := EndComponent(u.component, p.hash(u.bytes), world.backend);
      if !world.hashing || p.hash(u.bytes) != u.component.sha {
        AuditPush(p, u.trace, Abort(u.op));
      } else if !world.backend {
        FailedCall(p, u, call);
      } else {
        AuditPush(p, u.trace, call);
      }
    }
  }

  lemma CommitSound(p: Platform, u: Update, r: Request, world: World)
    requires Sound(p, u) && r.CommitRequest?
    ensures Sound(p, AfterCommit(u, r, world).0)
  {
    if AfterCommit(u, r, world).0 != u {
      if world.cancelled {
        AuditPush(p, u.trace, Abort(u.op));
      } else if !world.backend {
        FailedCall(p, u, Commit(u.op, false));
      } else {
        AuditPush(p, u.trace, Commit(u.op, true));
      }
    }
  }

  /** Every request, whatever the backend answers, leaves a record the ledger accepts. */
  lemma StepSound(p: Platform, u: Update, r: Request, world: World)
    requires Sound(p, u)
    ensures Sound(p, Process(p, u, r, world).0)
  {
    match r {
      case Begin(_, _, _, _, _) => BeginSound(p, u, r, world);
      case ComponentBegin(_, _) => ComponentBeginSound(p, u, r, world);
      case Data(_, _, _, _) => DataSound(p, u, r, world);
      case ComponentEnd(_, _) => ComponentEndSound(p, u, r, world);
      case CommitRequest(_) => CommitSound(p, u, r, world);
      case _ => AbortSound(p, u, CancelledPhase);
    }
  }

  const IDLE: Update := Update(IdlePhase, 0, 0, 0, [], [], NONE, [], 0, [])

  function Run(p: Platform, u: Update, events: seq<(Request, World)>): Update
    decreases |events|
  {
    if events == [] then u else Run(p, Process(p, u, events[0].0, events[0].1).0, events[1..])
  }

  lemma {:induction false} RunAppend(p: Platform, u: Update, a: seq<(Request, World)>, b: seq<(Request, World)>)
    ensures Run(p, u, a + b) == Run(p, Run(p, u, a), b)
    decreases |a|
  {
    if a == [] {
      assert a + b == b;
    } else {
      assert (a + b)[1..] == a[1..] + b;
      RunAppend(p, Process(p, u, a[0].0, a[0].1).0, a[1..], b);
    }
  }

  lemma {:induction false} RunSound(p: Platform, u: Update, events: seq<(Request, World)>)
    requires Sound(p, u)
    ensures Sound(p, Run(p, u, events))
    decreases |events|
  {
    if events != [] {
      StepSound(p, u, events[0].0, events[0].1);
      RunSound(p, Process(p, u, events[0].0, events[0].1).0, events[1..]);
    }
  }

  /** Over every run: the calls make sense to the ledger, and each prepare is closed by one successful commit or
      one abort, except the last one while its update is in progress. */
  lemma EveryPrepareClosesOnce(p: Platform, events: seq<(Request, World)>)
    ensures var end := Run(p, IDLE, events);
            && Audit(p, end.trace) != Broken
            && Prepares(end.trace) == Closings(end.trace) + if end.InProgress() then 1 else 0
  {
    RunSound(p, IDLE, events);
    ClosedOnce(p, Run(p, IDLE, events).trace);
  }

  /** A set of components that a commit may be called with: as many as the last prepare announced, distinct, and
      each delivered since. */
  ghost predicate Complete(p: Platform, trace: seq<Call>, op: nat, ids: seq<nat>) {
    LastPrepare(trace) == Some(Prepare(op, |ids|, true)) && Distinct(ids) && AllDelivered(p, trace, ids)
  }

  /** Over every run, wherever the record holds a call to commit, all announced components had been delivered
      before it. */
  lemma EveryCommitComplete(p: Platform, events: seq<(Request, World)>, k: nat)
    requires k < |Run(p, IDLE, events).trace| && Run(p, IDLE, events).trace[k].Commit?
    ensures var trace := Run(p, IDLE, events).trace;
            exists ids :: Complete(p, trace[..k], trace[k].op, ids)
  {
    RunSound(p, IDLE, events);
    var trace := Run(p, IDLE, events).trace;
    AuditPrefix(p, trace, k + 1);
    assert trace[..k + 1] == trace[..k] + [Commit(trace[k].op, trace[k].ok)];
    CommitMeans(p, trace[..k], trace[k].op, trace[k].ok);
    OpenSince(p, trace[..k]);
    assert Complete(p, trace[..k], trace[k].op, Audit(p, trace[..k]).done);
  }

  /** What an accepted request has shown, beyond what the ledger sees: a begun update has the manifest it announces,
      a repeated one is the very same, and a begun component is known to the platform. */
  lemma AcceptedRequests(p: Platform, u: Update, r: Request, world: World)
    requires Process(p, u, r, world).1
    ensures r.Begin? ==> p.hash(r.manifest) == r.sha && r.manifest != [] && 0 < r.count <= p.maxComponents
    ensures r.Begin? && u.InProgress() ==>
              Process(p, u, r, world).0 == u && u.done == [] && u.phase == Prepared
              && (u.op, u.count, u.flags, u.manifestSha) == (r.op, r.count, r.flags, r.sha)
    ensures r.ComponentBegin? ==> r.c.known && r.c.id != 0 && r.c.size > 0 && r.c.id !in u.done && r.op == u.op
    ensures r.ComponentEnd? ==>
              r.op == u.op && r.id == u.component.id && |u.bytes| == u.component.size
              && p.hash(u.bytes) == u.component.sha
    ensures r.CommitRequest? ==> r.op == u.op && u.phase == Verified && |u.done| == u.count
    ensures r.Data? ==>
              && 0 < |r.data| <= p.chunkMax && r.op == u.op && r.id == u.component.id
              && r.offset == |u.bytes| && |u.bytes| + |r.data| <= u.component.size
    ensures r.Begin? && !u.InProgress() ==> world.backend && world.job
    ensures r.ComponentBegin? || r.Data? || r.ComponentEnd? ==> world.backend && world.hashing
    ensures r.CommitRequest? ==> world.backend && !world.cancelled
  {
  }

  /** Nothing fails and nothing is cancelled. */
  const FAIR: World := World(true, true, true, false)

  /** A request that only the world has made fail leaves no update in progress. */
  lemma FaultsEndUpdate(p: Platform, u: Update, r: Request, world: World)
    requires Process(p, u, r, FAIR).1 && !Process(p, u, r, world).1
    ensures !Process(p, u, r, world).0.InProgress()
    ensures u.InProgress() ==> Process(p, u, r, world).0.phase == FailedPhase
  {
  }

  /** The record tells of each call what the backend answered. */
  predicate Tells(call: Call, backend: bool) {
    match call
    case Prepare(_, _, ok) => ok == backend
    case BeginComponent(_, ok) => ok == backend
    case WriteComponent(_, _, _, ok) => ok == backend
    case EndComponent(_, _, ok) => ok == backend
    case Commit(_, ok) => ok == backend
    case Abort(_) => true
  }

  lemma RecordTells(p: Platform, u: Update, r: Request, world: World)
    ensures var after := Process(p, u, r, world).0;
            && u.trace <= after.trace
            && forall i :: |u.trace| <= i < |after.trace| ==> Tells(after.trace[i], world.backend)
  {
  }

  // ------------------------------------------------------------------- cancellation

  /** What one event adds to the record: commits only on request, and only if no cancellation is pending. */
  lemma CommitsUncancelled(p: Platform, u: Update, r: Request, world: World)
    ensures var after := Process(p, u, r, world).0;
            && u.trace <= after.trace
            && forall i :: |u.trace| <= i < |after.trace| && after.trace[i].Commit? ==>
                 r.CommitRequest? && !world.cancelled
  {
  }

  /** Call i was added by event k. */
  predicate AddedBy(p: Platform, events: seq<(Request, World)>, i: nat, k: nat) {
    k < |events| && |Run(p, IDLE, events[..k]).trace| <= i < |Run(p, IDLE, events[..k + 1]).trace|
  }

  /** Over every run: each call to commit on record was made on request, at an event with no cancellation pending. */
  lemma {:induction false} EveryCommitUncancelled(p: Platform, events: seq<(Request, World)>, i: nat)
    requires i < |Run(p, IDLE, events).trace| && Run(p, IDLE, events).trace[i].Commit?
    ensures exists k: nat :: AddedBy(p, events, i, k) && events[k].0.CommitRequest? && !events[k].1.cancelled
    decreases |events|
  {
    var n := |events| - 1;
    var before, last := events[..n], events[n];
    assert events == before + [last] && [last][1..] == [];
    RunAppend(p, IDLE, before, [last]);
    var u := Run(p, IDLE, before);
    assert Run(p, u, [last]) == Process(p, u, last.0, last.1).0;
    CommitsUncancelled(p, u, last.0, last.1);
    if i < |u.trace| {
      EveryCommitUncancelled(p, before, i);
      var k: nat :| AddedBy(p, before, i, k) && before[k].0.CommitRequest? && !before[k].1.cancelled;
      assert before[..k] == events[..k] && before[..k + 1] == events[..k + 1];
      assert AddedBy(p, events, i, k);
    } else {
      assert events[..n] == before && events[..n + 1] == events;
      assert AddedBy(p, events, i, n);
    }
  }

  /** A commit request that meets a pending cancellation ends the update with an abort and nothing else. */
  lemma CancelledCommitAborts(p: Platform, u: Update, world: World)
    requires Sound(p, u) && u.phase == Verified && world.cancelled
    ensures var (after, ok) := Process(p, u, CommitRequest(u.op), world);
            !ok && after.phase == FailedPhase && after.progress == 950 && after.trace == u.trace + [Abort(u.op)]
  {
  }

  /** A commit that the backend refuses is answered by an abort, and fails the update. */
  lemma RefusedCommitAborts(p: Platform, u: Update, world: World)
    requires Sound(p, u) && u.phase == Verified && !world.cancelled && !world.backend
    ensures var (after, ok) := Process(p, u, CommitRequest(u.op), world);
            && !ok && after.phase == FailedPhase && after.progress == 950
            && after.trace == u.trace + [Commit(u.op, false), Abort(u.op)]
  {
  }

  /** Only the operation in progress can be cancelled by request. */
  lemma CancelAnswered(p: Platform, u: Update, op: nat, world: World)
    ensures Process(p, u, Cancel(op), world).1 <==> op == u.op && u.InProgress()
    ensures op != u.op ==> Process(p, u, Cancel(op), world).0 == u
  {
  }

  /** A cancelled job or an ended session leaves no update in progress, and aborts the one there was, once. */
  lemma CancelEnds(p: Platform, u: Update, r: Request, world: World)
    requires r == JobCancel || r == SessionEnd || r == Cancel(u.op)
    ensures var after := Process(p, u, r, world).0;
            && !after.InProgress()
            && after.trace == u.trace + (if u.InProgress() then [Abort(u.op)] else [])
            && (u.InProgress() ==> after.phase == CancelledPhase)
            && (!u.InProgress() ==> after == u)
  {
    assert u.trace + [] == u.trace;
  }

  // ----------------------------------------------------------------------- progress

  lemma ShareClimbs(r: nat, more: nat, size: nat)
    requires r <= more <= size && 0 < size
    ensures Share(r, size) <= Share(more, size) <= 850 && Share(size, size) == 850
  {
    DivMonotone(r * 850, more * 850, size);
    DivMonotone(more * 850, size * 850, size);
    DivExact(850, size);
  }

  lemma LevelClimbs(count: nat, a: nat, b: nat)
    requires 0 < count && a <= b <= count * 850
    ensures 50 <= Level(count, a) <= Level(count, b) <= 900
  {
    DivMonotone(a, b, count);
  }

  lemma ProgressRange(count: nat, done: nat)
    requires 0 < count && done <= count
    ensures 50 <= Progress(count, done, 0, 0) <= 900
  {
    LevelClimbs(count, done * 850, done * 850);
  }

  /** Receiving more of a component never lowers the progress, the end of a component leaves it where it is, and
      transferring never takes it past 900. */
  lemma ProgressClimbs(count: nat, done: nat, r: nat, more: nat, size: nat)
    requires 0 < count && done < count && 0 < size && r <= more <= size
    ensures 50 <= Progress(count, done, r, size) <= Progress(count, done, more, size) <= 900
    ensures Progress(count, done, size, size) == Progress(count, done + 1, 0, 0)
  {
    ShareClimbs(r, more, size);
    LevelClimbs(count, done * 850 + Share(r, size), done * 850 + Share(more, size));
    assert done * 850 + 850 == (done + 1) * 850;
  }

  /** The progress reported is the one of what has been transferred, and outside a component there is none. */
  predicate Reported(u: Update) {
    && (u.InProgress() ==> u.progress == Progress(u.count, |u.done|, |u.bytes|, u.component.size))
    && (u.phase != Receiving ==> u.component == NONE && u.bytes == [])
  }

  predicate InRange(u: Update) {
    u.InProgress() ==> 50 <= u.progress <= 900
  }

  lemma ReportedRange(p: Platform, u: Update)
    requires Sound(p, u) && Reported(u)
    ensures InRange(u)
  {
    if u.phase == Receiving {
      ProgressClimbs(u.count, |u.done|, |u.bytes|, |u.bytes|, u.component.size);
    } else if u.InProgress() {
      OpenSince(p, u.trace);
      ProgressRange(u.count, |u.done|);
    }
  }

  lemma DataClimbs(p: Platform, u: Update, r: Request, world: World)
    requires Sound(p, u) && Reported(u) && r.Data?
    ensures Reported(AfterData(p, u, r, world).0) && u.progress <= AfterData(p, u, r, world).0.progress
  {
    if AfterData(p, u, r, world).1 {
      ProgressClimbs(u.count, |u.done|, |u.bytes|, |u.bytes + r.data|, u.component.size);
    }
  }

  lemma ComponentEndClimbs(p: Platform, u: Update, r: Request, world: World)
    requires Sound(p, u) && Reported(u) && r.ComponentEnd?
    ensures Reported(AfterComponentEnd(p, u, r, world).0)
    ensures u.progress <= AfterComponentEnd(p, u, r, world).0.progress
  {
    if AfterComponentEnd(p, u, r, world).1 {
      ProgressClimbs(u.count, |u.done|, |u.bytes|, |u.bytes|, u.component.size);
    }
  }

  lemma BeginClimbs(p: Platform, u: Update, r: Request, world: World)
    requires Sound(p, u) && Reported(u) && r.Begin?
    ensures Reported(AfterBegin(p, u, r, world).0)
    ensures u.InProgress() ==> AfterBegin(p, u, r, world).0 == u
  {
    ProgressStarts(r.count);
  }

  lemma ProgressStarts(count: nat)
    ensures count > 0 ==> Progress(count, 0, 0, 0) == 50
  {
    if count > 0 {
      DivExact(0, count);
      assert count * 0 == 0;
    }
  }

  lemma ComponentBeginClimbs(u: Update, r: Request, world: World)
    requires Reported(u) && r.ComponentBegin?
    ensures Reported(AfterComponentBegin(u, r, world).0)
    ensures u.progress == AfterComponentBegin(u, r, world).0.progress
  {
    ProgressAtStart(u.count, |u.done|, r.c.size);
  }

  lemma ProgressAtStart(count: nat, done: nat, size: nat)
    ensures Progress(count, done, 0, 0) == Progress(count, done, 0, size)
  {
  }

  /** Every step keeps the progress where it was or raises it, and below 900 until the commit, unless it starts a
      new update. */
  lemma StepClimbs(p: Platform, u: Update, r: Request, world: World)
    requires Sound(p, u) && Reported(u)
    ensures var after := Process(p, u, r, world).0;
            && Reported(after) && InRange(after)
            && ((r.Begin? && !u.InProgress()) || u.progress <= after.progress)
  {
    match r {
      case Begin(_, _, _, _, _) => BeginClimbs(p, u, r, world);
      case ComponentBegin(_, _) => ComponentBeginClimbs(u, r, world);
      case Data(_, _, _, _) => DataClimbs(p, u, r, world);
      case ComponentEnd(_, _) => ComponentEndClimbs(p, u, r, world);
      case _ =>
    }
    ReportedRange(p, u);
    StepSound(p, u, r, world);
    ReportedRange(p, Process(p, u, r, world).0);
  }

  lemma {:induction false} RunReported(p: Platform, u: Update, events: seq<(Request, World)>)
    requires Sound(p, u) && Reported(u)
    ensures Sound(p, Run(p, u, events)) && Reported(Run(p, u, events)) && InRange(Run(p, u, events))
    decreases |events|
  {
    if events == [] {
      ReportedRange(p, u);
    } else {
      StepSound(p, u, events[0].0, events[0].1);
      StepClimbs(p, u, events[0].0, events[0].1);
      RunReported(p, Process(p, u, events[0].0, events[0].1).0, events[1..]);
    }
  }

  /** None of the events starts a new update. */
  predicate OneUpdate(p: Platform, u: Update, events: seq<(Request, World)>)
    decreases |events|
  {
    events != [] ==>
      && (events[0].0.Begin? ==> u.InProgress())
      && OneUpdate(p, Process(p, u, events[0].0, events[0].1).0, events[1..])
  }

  lemma {:induction false} RunClimbs(p: Platform, u: Update, events: seq<(Request, World)>)
    requires Sound(p, u) && Reported(u) && OneUpdate(p, u, events)
    ensures u.progress <= Run(p, u, events).progress
    decreases |events|
  {
    if events != [] {
      StepSound(p, u, events[0].0, events[0].1);
      StepClimbs(p, u, events[0].0, events[0].1);
      RunClimbs(p, Process(p, u, events[0].0, events[0].1).0, events[1..]);
    }
  }

  /** Over every run: from any point on, as long as no new update starts, the progress never falls, and while an
      update is in progress it is between 50 and 900. */
  lemma ProgressNeverFalls(p: Platform, before: seq<(Request, World)>, more: seq<(Request, World)>)
    requires OneUpdate(p, Run(p, IDLE, before), more)
    ensures Run(p, IDLE, before).progress <= Run(p, IDLE, before + more).progress
    ensures InRange(Run(p, IDLE, before)) && InRange(Run(p, IDLE, before + more))
  {
    RunReported(p, IDLE, before);
    RunClimbs(p, Run(p, IDLE, before), more);
    RunAppend(p, IDLE, before, more);
    RunReported(p, IDLE, before + more);
  }

  // ---------------------------------------------------------------------- the module

  datatype RawPhase = RawIdle | RawPrepared | RawReceiving | RawVerified | RawCommitting | RawCommitted | RawFailed
                    | RawCancelled

  function Abstract(raw: RawPhase): Phase
    requires raw != RawCommitting
  {
    match raw
    case RawIdle => IdlePhase
    case RawPrepared => Prepared
    case RawReceiving => Receiving
    case RawVerified => Verified
    case RawCommitted => CommittedPhase
    case RawFailed => FailedPhase
    case RawCancelled => CancelledPhase
  }

  /** The module's record and its backend. */
  class Updater {
    const p: Platform
    var phase: RawPhase
    var op: nat
    var count: nat
    var flags: nat
    var manifestSha: seq<byte>
    const completedIds: array<nat>
    var completed: nat
    var component: Component
    var received: nat
    var hashActive: bool
    var hashed: seq<byte>
    var progress: nat
    ghost var trace: seq<Call>

    ghost predicate Valid()
      reads this, completedIds
    {
      && phase != RawCommitting
      && completedIds.Length == p.maxComponents && completed <= count <= p.maxComponents
      && (phase == RawReceiving <==> hashActive)
      && (phase == RawReceiving ==> |hashed| == received && completed < count)
      && (phase == RawPrepared ==> completed < count)
      && (phase != RawReceiving ==> hashed == [] && component == NONE)
    }

    ghost function State(): Update
      requires Valid()
      reads this, completedIds
    {
      Update(Abstract(phase), op, count, flags, manifestSha, completedIds[..completed], component, hashed, progress,
             trace)
    }

    constructor (p: Platform)
      ensures Valid() && State() == IDLE && this.p == p && fresh(completedIds)
    {
      this.p := p;
      completedIds := new nat[p.maxComponents];
      phase, op, count, flags, manifestSha, completed := RawIdle, 0, 0, 0, [], 0;
      component, received, hashActive, hashed, progress, trace := NONE, 0, false, [], 0, [];
    }

    predicate UpdateInProgress()
      reads this
    {
      phase == RawPrepared || phase == RawReceiving || phase == RawVerified || phase == RawCommitting
    }

    method BackendAbort(to: RawPhase)
      requires Valid() && (to == RawFailed || to == RawCancelled)
      modifies this`phase, this`component, this`received, this`hashActive, this`hashed, this`trace
      ensures Valid() && State() == Aborted(old(State()), Abstract(to))
    {
      if !UpdateInProgress() {
        return;
      }
      hashActive, hashed := false, [];
      trace := trace + [Abort(op)];
      phase, component, received := to, NONE, 0;
    }

    method CompletedId(id: nat) returns (found: bool)
      requires Valid()
      ensures found <==> id in completedIds[..completed]
    {
      for i := 0 to completed
        invariant id !in completedIds[..i]
      {
        if completedIds[i] == id {
          return true;
        }
      }
      return false;
    }

    method HandleData(r: Request, world: World) returns (ok: bool)
      requires Valid() && r.Data?
      modifies this
      ensures Valid() && (State(), ok) == AfterData(p, old(State()), r, world)
    {
      if r.data == [] || |r.data| > p.chunkMax || phase != RawReceiving || r.op != op || r.id != component.id
         || r.offset != received || |r.data| > component.size - received {
        return false;
      }
      ok := world.hashing;
      if ok {
        trace := trace + [WriteComponent(component, received, r.data, world.backend)];
        ok := world.backend;
      }
      if !ok {
        BackendAbort(RawFailed);
        return false;
      }
      hashed := hashed + r.data;
      received := received + |r.data|;
      progress := Progress(count, completed, received, component.size);
    }

    method HandleComponentEnd(r: Request, world: World) returns (ok: bool)
      requires Valid() && r.ComponentEnd?
      modifies this, completedIds
      ensures Valid() && (State(), ok) == AfterComponentEnd(p, old(State()), r, world)
    {
      if r.op != op || r.id != component.id || phase != RawReceiving || received != component.size {
        return false;
      }
      ok := world.hashing && p.hash(hashed) == component.sha;
      if ok {
        trace := trace + [EndComponent(component, p.hash(hashed), world.backend)];
        ok := world.backend;
      }
      if ok {
        Complete();
      } else {
        BackendAbort(RawFailed);
      }
    }

    method Complete()
      requires Valid() && phase == RawReceiving
      modifies this`completed, this`hashActive, this`hashed, this`component, this`received, this`phase, this`progress,
               completedIds
      ensures Valid()
      ensures (var was := old(State());
               var done := was.done + [was.component.id];
               State() == was.(done := done, component := NONE, bytes := [],
                               phase := if |done| < was.count then Prepared else Verified,
                               progress := Progress(was.count, |done|, 0, 0)))
    {
      completedIds[completed] := component.id;
      completed := completed + 1;
      assert completedIds[..completed] == old(completedIds[..completed]) + [component.id];
      hashActive, hashed, component, received := false, [], NONE, 0;
      phase := if completed < count then RawPrepared else RawVerified;
      progress := Progress(count, completed, 0, 0);
    }

    method HandleBegin(r: Request, world: World) returns (ok: bool)
      requires Valid() && r.Begin?
      modifies this
      ensures Valid() && (State(), ok) == AfterBegin(p, old(State()), r, world)
    {
      if r.op == 0 || r.manifest == [] || r.count == 0 || r.count > p.maxComponents {
        return false;
      }
      if p.hash(r.manifest) != r.sha {
        return false;
      }
      if UpdateInProgress() {
        return r.op == op && phase == RawPrepared && completed == 0 && count == r.count && flags == r.flags
            && manifestSha == r.sha;
      }
      ok := PrepareBackend(r, world);
    }

    method PrepareBackend(r: Request, world: World) returns (ok: bool)
      requires Valid() && r.Begin? && !UpdateInProgress() && 0 < r.count <= p.maxComponents
      modifies this`phase, this`op, this`count, this`flags, this`manifestSha, this`completed, this`progress, this`trace,
               this`component, this`received, this`hashActive, this`hashed
      ensures Valid() && (ok <==> world.backend && world.job)
      ensures State() == if !world.backend then Logged(Logged(old(State()), Prepare(r.op, r.count, false)), Abort(r.op))
                         else if !world.job then Aborted(Launched(old(State()), r), FailedPhase)
                         else Launched(old(State()), r).(progress := 50)
    {
      ok := world.backend && world.job;
      trace := trace + [Prepare(r.op, r.count, world.backend)];
      if !world.backend {
        trace := trace + [Abort(r.op)];
        return;
      }
      StartUpdate(r);
      if !world.job {
        BackendAbort(RawFailed);
      } else {
        progress := 50;
      }
    }

    method StartUpdate(r: Request)
      requires Valid() && r.Begin? && !UpdateInProgress() && 0 < r.count <= p.maxComponents
      modifies this`phase, this`op, this`count, this`flags, this`manifestSha, this`completed, this`progress
      ensures Valid()
      ensures State() == Update(Prepared, r.op, r.count, r.flags, r.sha, [], NONE, [], 0, trace)
    {
      phase, op, count, flags, manifestSha, completed, progress := RawPrepared, r.op, r.count, r.flags, r.sha, 0, 0;
    }

    method HandleComponentBegin(r: Request, world: World) returns (ok: bool)
      requires Valid() && r.ComponentBegin?
      modifies this
      ensures Valid() && (State(), ok) == AfterComponentBegin(old(State()), r, world)
    {
      if r.op != op || phase != RawPrepared {
        return false;
      }
      var again := CompletedId(r.c.id);
      if r.c.id == 0 || r.c.size == 0 || !r.c.known || again {
        return false;
      }
      ok := BeginReceiving(r.c, world);
    }

    method BeginReceiving(c: Component, world: World) returns (ok: bool)
      requires Valid() && phase == RawPrepared
      modifies this`phase, this`trace, this`component, this`received, this`hashActive, this`hashed
      ensures Valid() && (ok <==> world.backend && world.hashing)
      ensures (var called := Logged(old(State()), BeginComponent(c, world.backend));
               State() == if ok then called.(phase := Receiving, component := c, bytes := [])
                          else Aborted(called, FailedPhase))
    {
      ok := world.backend && world.hashing;
      trace := trace + [BeginComponent(c, world.backend)];
      if !ok {
        BackendAbort(RawFailed);
      } else {
        component, received, hashActive, hashed, phase := c, 0, true, [], RawReceiving;
      }
    }

    /** The last point at which a cancellation is heard is before the backend's commit. */
    method HandleCommit(r: Request, world: World) returns (ok: bool)
      requires Valid() && r.CommitRequest?
      modifies this
      ensures Valid() && (State(), ok) == AfterCommit(old(State()), r, world)
    {
      if r.op != op || phase != RawVerified || completed != count {
        return false;
      }
      phase, progress := RawCommitting, 950;
      if world.cancelled {
        ok := false;
      } else {
        trace := trace + [Commit(op, world.backend)];
        ok := world.backend;
      }
      phase := if ok then RawCommitted else RawFailed;
      if !ok {
        trace := trace + [Abort(op)];
      }
    }

    method HandleCancel(operation: nat) returns (ok: bool)
      requires Valid()
      modifies this
      ensures Valid()
      ensures forall world :: (State(), ok) == Process(p, old(State()), Cancel(operation), world)
    {
      if operation != op || !UpdateInProgress() {
        return false;
      }
      BackendAbort(RawCancelled);
      ok := true;
    }
  }
}
