/** The gateway's operation manager: coroutines that run between their awaits as atomic steps, a lock and a
    maintenance gate for every device, and operation rows that outlive the process. */
module Scheduler {
  import opened Bytes

  type Id = string
  type Device = string

  // ------------------------------------------------------------------ operation rows

  datatype Status = Queued | Active(stage: string) | Succeeded | Failed | Cancelled | Interrupted | OutcomeUnknown {
    predicate Terminal() {
      !Queued? && !Active?
    }
  }

  const RUNNING: Status := Active("running")

  /** The transition table: a queued operation starts, is cancelled or is given up; a started one may go anywhere;
      a finished one nowhere. */
  predicate Allowed(from: Status, to: Status) {
    match from
    case Queued => to == Queued || to == RUNNING || to == Cancelled || to == Interrupted || to == OutcomeUnknown
    case Active(_) => true
    case _ => false
  }

  /** A row of an older gateway has no fingerprint of its request. */
  datatype Row = Row(device: Device, status: Status, fingerprint: Option<string>)

  // ------------------------------------------------------------------------- tasks

  /** Where a coroutine of execute is waiting: to announce its row, for the device's lock, to announce its start,
      for the call, or to announce its end. */
  datatype Stage = Announcing | Waiting | Starting | Calling | Finishing

  datatype Task = Task(device: Device, serialized: bool, stage: Stage)

  datatype Holder = ByOperation(id: Id) | ByMaintenance

  /** The durable rows; the tasks, pending records, cancellation marks, locks and gates of this process; and, for
      the record, every call ever begun. */
  datatype Manager = Manager(rows: map<Id, Row>, tasks: map<Id, Task>, pending: set<Id>, cancelled: set<Id>,
                             locks: map<Device, Holder>, requested: set<Device>, reserved: set<Device>,
                             calls: seq<Id>)

  datatype Step = Submit(id: Id, device: Device, serialized: bool, fingerprint: string)
                | Announced(id: Id) | Locked(id: Id) | Started(id: Id)
                | CallEnded(id: Id, outcome: Option<Status>) | Finished(id: Id) | Killed(id: Id, uncertain: bool)
                | Report(id: Id, stage: string)
                | CancelQueued(id: Id)
                | RequestMaintenance(device: Device) | MaintenanceLocked(device: Device)
                | MaintenanceTimedOut(device: Device) | ReleaseMaintenance(device: Device)
                | Restarted(gates: set<Device>, unsure: set<Id>)

  function SetStatus(m: Manager, id: Id, to: Status): Manager {
    if id in m.rows && Allowed(m.rows[id].status, to) then m.(rows := m.rows[id := m.rows[id].(status := to)]) else m
  }

  function MoveTo(m: Manager, id: Id, stage: Stage): Manager
    requires id in m.tasks
  {
    m.(tasks := m.tasks[id := m.tasks[id].(stage := stage)])
  }

  /** The coroutine is over: it lets go of its lock and its pending record. */
  function Over(m: Manager, id: Id): Manager
    requires id in m.tasks
  {
    var device := m.tasks[id].device;
    m.(tasks := m.tasks - {id}, pending := m.pending - {id},
       locks := if device in m.locks && m.locks[device] == ByOperation(id) then m.locks - {device} else m.locks)
  }

  predicate Gated(m: Manager, device: Device) {
    device in m.requested || device in m.reserved
  }

  /** What execute answers at once: the device is under maintenance, the id belongs to another request, the row is
      already there, or it has been made. */
  datatype Submission = UnderMaintenance | Conflict | Existing(row: Row) | Created

  function Answer(m: Manager, id: Id, device: Device, fingerprint: string): Submission {
    if Gated(m, device) then UnderMaintenance
    else if id !in m.rows then Created
    else if m.rows[id].fingerprint != Some(fingerprint) then Conflict
    else Existing(m.rows[id])
  }

  /** execute, up to its first await. */
  function Execute(m: Manager, s: Step): Manager
    requires s.Submit?
  {
    if Answer(m, s.id, s.device, s.fingerprint) != Created then m
    else m.(rows := m.rows[s.id := Row(s.device, if s.serialized then Queued else RUNNING, Some(s.fingerprint))],
            tasks := m.tasks[s.id := Task(s.device, s.serialized, Announcing)], pending := m.pending + {s.id})
  }

  /** The beginning of _run: if the row may not start, the coroutine ends there. */
  function Begin(m: Manager, id: Id): Manager
    requires id in m.tasks
  {
    if id in m.rows && Allowed(m.rows[id].status, RUNNING) then MoveTo(SetStatus(m, id, RUNNING), id, Starting)
    else Over(m, id)
  }

  /** The lock has been taken: a cancelled operation stops here. */
  function Enter(m: Manager, id: Id): Manager
    requires id in m.tasks
  {
    var held := m.(locks := m.locks[m.tasks[id].device := ByOperation(id)]);
    if id in m.cancelled then Over(held, id) else Begin(held, id)
  }

  function Kill(m: Manager, id: Id, uncertain: bool): Manager
    requires id in m.tasks
  {
    match m.tasks[id].stage
    case Announcing => Over(m, id).(pending := m.pending)
    case Waiting => Over(m, id)
    case Starting => Over(m, id)
    case Calling => MoveTo(SetStatus(m, id, if uncertain then OutcomeUnknown else Interrupted), id, Finishing)
    case Finishing => Over(m, id)
  }

  function Recovered(rows: map<Id, Row>, uncertain: set<Id>): map<Id, Row> {
    map id | id in rows ::
      if rows[id].status.Terminal() then rows[id]
      else rows[id].(status := if id in uncertain then OutcomeUnknown else Interrupted)
  }

  function Next(m: Manager, s: Step): Manager {
    match s
    case Submit(_, _, _, _) => Execute(m, s)
    case Announced(id) =>
      if id !in m.tasks || m.tasks[id].stage != Announcing then m
      else if m.tasks[id].serialized then MoveTo(m, id, Waiting) else Begin(m, id)
    case Locked(id) =>
      if id !in m.tasks || m.tasks[id].stage != Waiting || m.tasks[id].device in m.locks then m else Enter(m, id)
    case Started(id) =>
      if id !in m.tasks || m.tasks[id].stage != Starting then m
      else MoveTo(m, id, Calling).(calls := m.calls + [id])
    case CallEnded(id, outcome) =>
      if id !in m.tasks || m.tasks[id].stage != Calling then m
      else if outcome.None? then Over(m, id)
      else if !outcome.value.Terminal() || outcome.value == Cancelled then m
      else MoveTo(SetStatus(m, id, outcome.value), id, Finishing)
    case Finished(id) =>
      if id !in m.tasks || m.tasks[id].stage != Finishing then m else Over(m, id)
    case Killed(id, uncertain) => if id !in m.tasks then m else Kill(m, id, uncertain)
    case Report(id, stage) => SetStatus(m, id, Active(stage))
    case CancelQueued(id) =>
      if id !in m.pending || id in m.cancelled
         || (id in m.tasks && m.tasks[id].stage != Announcing && m.tasks[id].stage != Waiting) then m
      else SetStatus(m, id, Cancelled).(cancelled := m.cancelled + {id})
    case RequestMaintenance(device) =>
      if Gated(m, device) then m else m.(requested := m.requested + {device})
    case MaintenanceLocked(device) =>
      if device !in m.requested || device in m.locks then m
      else m.(locks := m.locks[device := ByMaintenance], requested := m.requested - {device},
              reserved := m.reserved + {device})
    case MaintenanceTimedOut(device) => m.(requested := m.requested - {device})
    case ReleaseMaintenance(device) =>
      m.(requested := m.requested - {device}, reserved := m.reserved - {device}, locks := m.locks - {device})
    case Restarted(gates, unsure) =>
      Manager(Recovered(m.rows, unsure), map[], {}, {}, map[], {}, gates, m.calls)
  }

  function Run(m: Manager, steps: seq<Step>): Manager
    decreases |steps|
  {
    if steps == [] then m else Run(Next(m, steps[0]), steps[1..])
  }

  const NEW: Manager := Manager(map[], map[], {}, {}, map[], {}, {}, [])

  // ----------------------------------------------------------------------- safety

  predicate Inside(t: Task) {
    t.serialized && (t.stage == Starting || t.stage == Calling || t.stage == Finishing)
  }

  /** The lock of a device is held by the one serialized operation inside, or by maintenance, or by nobody. */
  predicate Exclusive(m: Manager) {
    && (forall id :: id in m.tasks && m.tasks[id].stage == Waiting ==> m.tasks[id].serialized)
    && (forall id :: id in m.tasks && Inside(m.tasks[id]) ==>
          m.tasks[id].device in m.locks && m.locks[m.tasks[id].device] == ByOperation(id))
    && (forall d :: d in m.reserved ==>
          (d in m.locks && m.locks[d] == ByMaintenance) || forall id :: id in m.tasks ==> m.tasks[id].device != d)
  }

  /** Calls have rows, have begun once, and their tasks are past the start; a cancelled row has no call and no
      task on its way to one. */
  predicate Once(m: Manager) {
    && (forall i, j :: 0 <= i < j < |m.calls| ==> m.calls[i] != m.calls[j])
    && (forall id :: id in m.calls ==> id in m.rows && m.rows[id].status != Cancelled)
    && (forall id :: id in m.tasks ==> id in m.rows)
    && (forall id :: id in m.pending ==> id in m.rows)
    && (forall id :: id in m.tasks && m.tasks[id].stage != Calling && m.tasks[id].stage != Finishing ==>
          id !in m.calls)
    && (forall id :: id in m.tasks && m.rows[id].status == Cancelled ==>
          m.tasks[id].stage == Announcing || m.tasks[id].stage == Waiting)
    && (forall id :: id in m.pending && id !in m.tasks ==> id !in m.calls)
  }

  predicate Safe(m: Manager) {
    Exclusive(m) && Once(m)
  }

  lemma OverSafe(m: Manager, id: Id)
    requires Safe(m) && id in m.tasks
    ensures Safe(Over(m, id))
    ensures m.tasks[id].stage == Announcing ==> Safe(Over(m, id).(pending := m.pending))
  {
  }

  lemma BeginSafe(m: Manager, id: Id)
    requires Safe(m) && id in m.tasks && (m.tasks[id].stage == Announcing || m.tasks[id].stage == Waiting)
    requires m.tasks[id].serialized ==> m.tasks[id].device in m.locks && m.locks[m.tasks[id].device] == ByOperation(id)
    ensures Safe(Begin(m, id))
  {
    OverSafe(m, id);
  }

  lemma LockedSafe(m: Manager, id: Id)
    requires Safe(m) && id in m.tasks && m.tasks[id].stage == Waiting && m.tasks[id].device !in m.locks
    requires m.tasks[id].serialized
    ensures Safe(Enter(m, id))
  {
    var held := m.(locks := m.locks[m.tasks[id].device := ByOperation(id)]);
    assert Safe(held);
    OverSafe(held, id);
    BeginSafe(held, id);
  }

  lemma CallEndedSafe(m: Manager, id: Id, outcome: Status)
    requires Safe(m) && id in m.tasks && m.tasks[id].stage == Calling && outcome != Cancelled
    ensures Safe(MoveTo(SetStatus(m, id, outcome), id, Finishing))
  {
  }

  lemma KillSafe(m: Manager, id: Id, uncertain: bool)
    requires Safe(m) && id in m.tasks
    ensures Safe(Kill(m, id, uncertain))
  {
    OverSafe(m, id);
    if m.tasks[id].stage == Calling {
      CallEndedSafe(m, id, if uncertain then OutcomeUnknown else Interrupted);
    }
  }

  lemma SubmitSafe(m: Manager, s: Step)
    requires Safe(m) && s.Submit?
    ensures Safe(Next(m, s))
  {
  }

  /** Calling begins where nothing has begun before. */
  lemma StartedSafe(m: Manager, s: Step)
    requires Safe(m) && s.Started?
    ensures Safe(Next(m, s))
  {
  }

  lemma ReportSafe(m: Manager, s: Step)
    requires Safe(m) && s.Report?
    ensures Safe(Next(m, s))
  {
  }

  lemma CancelSafe(m: Manager, s: Step)
    requires Safe(m) && s.CancelQueued?
    ensures Safe(Next(m, s))
  {
  }

  lemma RestartSafe(m: Manager, s: Step)
    requires Safe(m) && s.Restarted?
    ensures Safe(Next(m, s))
  {
  }

  /** No serialized operation is inside on this device. */
  predicate NobodyInside(m: Manager, device: Device) {
    forall id :: id in m.tasks && Inside(m.tasks[id]) ==> m.tasks[id].device != device
  }

  /** Releasing a device unlocks whoever holds its lock. That is safe exactly when no serialized operation is
      inside, and so always when the device is reserved. */
  lemma ReleaseSafeIff(m: Manager, device: Device)
    requires Safe(m)
    ensures Safe(Next(m, ReleaseMaintenance(device))) <==> NobodyInside(m, device)
    ensures device in m.reserved ==> NobodyInside(m, device)
  {
    if !NobodyInside(m, device) {
      var id :| id in m.tasks && Inside(m.tasks[id]) && m.tasks[id].device == device;
      assert device !in Next(m, ReleaseMaintenance(device)).locks;
    }
  }

  lemma GateClosesSafe(m: Manager, s: Step)
    requires Safe(m) && (s.RequestMaintenance? || s.MaintenanceLocked? || s.MaintenanceTimedOut?)
    ensures Safe(Next(m, s))
  {
  }

  /** A device is released only while it is reserved, or at least with nobody inside. */
  predicate ReleasesWell(m: Manager, s: Step) {
    s.ReleaseMaintenance? ==> s.device in m.reserved || NobodyInside(m, s.device)
  }

  lemma AnnouncedStepSafe(m: Manager, id: Id)
    requires Safe(m)
    ensures Safe(Next(m, Announced(id)))
  {
    if id in m.tasks && m.tasks[id].stage == Announcing && !m.tasks[id].serialized {
      BeginSafe(m, id);
    }
  }

  lemma LockedStepSafe(m: Manager, id: Id)
    requires Safe(m)
    ensures Safe(Next(m, Locked(id)))
  {
    if id in m.tasks && m.tasks[id].stage == Waiting && m.tasks[id].device !in m.locks {
      LockedSafe(m, id);
    }
  }

  lemma CallEndedStepSafe(m: Manager, id: Id, outcome: Option<Status>)
    requires Safe(m)
    ensures Safe(Next(m, CallEnded(id, outcome)))
  {
    if id in m.tasks && m.tasks[id].stage == Calling {
      if outcome.None? {
        OverSafe(m, id);
      } else if outcome.value != Cancelled {
        CallEndedSafe(m, id, outcome.value);
      }
    }
  }

  lemma StepSafe(m: Manager, s: Step)
    requires Safe(m) && ReleasesWell(m, s)
    ensures Safe(Next(m, s))
  {
    match s {
      case Submit(_, _, _, _) => SubmitSafe(m, s);
      case Started(_) => StartedSafe(m, s);
      case Report(_, _) => ReportSafe(m, s);
      case CancelQueued(_) => CancelSafe(m, s);
      case RequestMaintenance(_) => GateClosesSafe(m, s);
      case MaintenanceLocked(_) => GateClosesSafe(m, s);
      case MaintenanceTimedOut(_) => GateClosesSafe(m, s);
      case ReleaseMaintenance(device) => ReleaseSafeIff(m, device);
      case Restarted(_, _) => RestartSafe(m, s);
      case Announced(id) => AnnouncedStepSafe(m, id);
      case Locked(id) => LockedStepSafe(m, id);
      case CallEnded(id, outcome) => CallEndedStepSafe(m, id, outcome);
      case Finished(id) => if id in m.tasks { OverSafe(m, id); }
      case Killed(id, uncertain) => if id in m.tasks { KillSafe(m, id, uncertain); }
    }
  }

  /** So is every release of a run. */
  predicate Disciplined(m: Manager, steps: seq<Step>)
    decreases |steps|
  {
    steps != [] ==> ReleasesWell(m, steps[0]) && Disciplined(Next(m, steps[0]), steps[1..])
  }

  lemma {:induction false} RunSafe(m: Manager, steps: seq<Step>)
    requires Safe(m) && Disciplined(m, steps)
    ensures Safe(Run(m, steps))
    decreases |steps|
  {
    if steps != [] {
      StepSafe(m, steps[0]);
      RunSafe(Next(m, steps[0]), steps[1..]);
    }
  }

  /** No step takes a row away, gives it to another request, or changes it once it is finished. */
  lemma RowKept(m: Manager, s: Step, id: Id)
    requires id in m.rows
    ensures id in Next(m, s).rows
    ensures Next(m, s).rows[id] == m.rows[id].(status := Next(m, s).rows[id].status)
    ensures m.rows[id].status.Terminal() ==> Next(m, s).rows[id] == m.rows[id]
  {
  }

  /** A finished row stays as it is, through anything, restarts included. */
  lemma {:induction false} TerminalForever(m: Manager, steps: seq<Step>, id: Id)
    requires id in m.rows && m.rows[id].status.Terminal()
    ensures id in Run(m, steps).rows && Run(m, steps).rows[id] == m.rows[id]
    decreases |steps|
  {
    if steps != [] {
      RowKept(m, steps[0], id);
      TerminalForever(Next(m, steps[0]), steps[1..], id);
    }
  }

  /** An operation id stays with the request it was first used for, through anything, restarts included: using it
      again makes no second row. The same request is told of the row, another one of the conflict. */
  lemma {:induction false} RequestForever(m: Manager, steps: seq<Step>, id: Id)
    requires id in m.rows
    ensures var end := Run(m, steps);
            && id in end.rows && end.rows[id].device == m.rows[id].device
            && end.rows[id].fingerprint == m.rows[id].fingerprint
            && forall device, fingerprint ::
                 match Answer(end, id, device, fingerprint)
                 case UnderMaintenance => device in end.requested || device in end.reserved
                 case Conflict => m.rows[id].fingerprint != Some(fingerprint)
                 case Existing(row) => m.rows[id].fingerprint == Some(fingerprint) && row == end.rows[id]
                 case Created => false
    decreases |steps|
  {
    if steps != [] {
      RowKept(m, steps[0], id);
      RequestForever(Next(m, steps[0]), steps[1..], id);
    }
  }

  /** A new row waits if its call is serialized, and runs at once otherwise. */
  lemma SubmitStarts(m: Manager, s: Step)
    requires s.Submit? && Answer(m, s.id, s.device, s.fingerprint) == Created
    ensures Next(m, s).rows[s.id].status == (if s.serialized then Queued else RUNNING)
    ensures s.id in Next(m, s).tasks && s.id in Next(m, s).pending && Next(m, s).calls == m.calls
  {
  }

  /** A killed operation that had been called is finished, as interrupted or of unknown outcome; before that its row
      stays as it was. Killed while its row is being announced, it leaves its pending record behind. */
  lemma KilledWhere(m: Manager, id: Id, uncertain: bool)
    requires Safe(m) && id in m.tasks
    ensures var after, stage := Next(m, Killed(id, uncertain)), m.tasks[id].stage;
            && after.calls == m.calls
            && (id in after.pending <==> id in m.pending && (stage == Announcing || stage == Calling))
            && (if stage == Calling then
                  && id in after.tasks && after.tasks[id].stage == Finishing
                  && (m.rows[id].status.Active? ==>
                        after.rows[id].status == if uncertain then OutcomeUnknown else Interrupted)
                else id !in after.tasks && after.rows == m.rows)
  {
  }

  /** A coroutine moves only when it is its turn. */
  lemma OutOfTurn(m: Manager, id: Id, outcome: Option<Status>)
    ensures id !in m.tasks || m.tasks[id].stage != Announcing ==> Next(m, Announced(id)) == m
    ensures id !in m.tasks || m.tasks[id].stage != Waiting || m.tasks[id].device in m.locks ==> Next(m, Locked(id)) == m
    ensures id !in m.tasks || m.tasks[id].stage != Starting ==> Next(m, Started(id)) == m
    ensures id !in m.tasks || m.tasks[id].stage != Calling ==> Next(m, CallEnded(id, outcome)) == m
    ensures id !in m.tasks || m.tasks[id].stage != Finishing ==> Next(m, Finished(id)) == m
  {
  }

  /** Maintenance closes the gate at once, waits for the lock, holds it, and gives both back. */
  lemma MaintenanceCycle(m: Manager, device: Device)
    requires !Gated(m, device)
    ensures var asked := Next(m, RequestMaintenance(device));
            && (forall id, fingerprint :: Answer(asked, id, device, fingerprint) == UnderMaintenance)
            && Next(asked, MaintenanceTimedOut(device)) == m && Next(asked, RequestMaintenance(device)) == asked
            && if device in m.locks then Next(asked, MaintenanceLocked(device)) == asked
               else
                 var held := Next(asked, MaintenanceLocked(device));
                 && (forall id, fingerprint :: Answer(held, id, device, fingerprint) == UnderMaintenance)
                 && device !in held.requested && device in held.reserved
                 && device in held.locks && held.locks[device] == ByMaintenance
                 && Next(held, RequestMaintenance(device)) == held && Next(held, ReleaseMaintenance(device)) == m
    ensures Next(m, MaintenanceLocked(device)) == m
  {
    var asked := Next(m, RequestMaintenance(device));
    assert asked.requested - {device} == m.requested;
    if device !in m.locks {
      var held := Next(asked, MaintenanceLocked(device));
      assert held.locks - {device} == m.locks && held.reserved - {device} == m.reserved;
      assert held.requested - {device} == m.requested;
    }
  }

  /** A restart finishes every row that was not finished, as interrupted or of unknown outcome, and forgets the rest of
      the process; calls already made stay made. */
  lemma RestartFinishes(m: Manager, gates: set<Device>, unsure: set<Id>)
    ensures var after := Next(m, Restarted(gates, unsure));
            && after.rows.Keys == m.rows.Keys && after.tasks == map[] && after.locks == map[] && after.reserved == gates
            && after.calls == m.calls
            && forall id :: id in m.rows ==>
                 && after.rows[id].status.Terminal()
                 && (!m.rows[id].status.Terminal() ==>
                       after.rows[id].status == if id in unsure then OutcomeUnknown else Interrupted)
  {
  }

  /** The steps of one operation that nothing disturbs. */
  function Serving(id: Id, device: Device, serialized: bool, fingerprint: string, outcome: Status): seq<Step> {
    [Submit(id, device, serialized, fingerprint), Announced(id)]
    + (if serialized then [Locked(id)] else []) + [Started(id), CallEnded(id, Some(outcome)), Finished(id)]
  }

  /** An operation with a new id, on a device that is neither gated nor locked, is called once and finished with the
      outcome of its call; nothing else changes, and the device is free again. */
  lemma Served(m: Manager, id: Id, device: Device, serialized: bool, fingerprint: string, outcome: Status)
    requires Safe(m) && id !in m.rows && id !in m.cancelled && !Gated(m, device) && device !in m.locks
    requires outcome.Terminal() && outcome != Cancelled
    ensures Run(m, Serving(id, device, serialized, fingerprint, outcome))
         == m.(rows := m.rows[id := Row(device, outcome, Some(fingerprint))], calls := m.calls + [id])
  {
    ServedStarts(m, id, device, serialized, fingerprint);
    RunServing(m, id, device, serialized, fingerprint, outcome);
    ServedEnds(m, Calls(m, id, device, serialized, fingerprint), id, device, serialized, fingerprint, outcome);
  }

  /** The operation's call has begun. */
  function Calls(m: Manager, id: Id, device: Device, serialized: bool, fingerprint: string): Manager {
    m.(rows := m.rows[id := Row(device, RUNNING, Some(fingerprint))],
       tasks := m.tasks[id := Task(device, serialized, Calling)], pending := m.pending + {id},
       locks := if serialized then m.locks[device := ByOperation(id)] else m.locks, calls := m.calls + [id])
  }

  lemma ServedStarts(m: Manager, id: Id, device: Device, serialized: bool, fingerprint: string)
    requires id !in m.rows && id !in m.tasks && id !in m.cancelled && !Gated(m, device) && device !in m.locks
    ensures var m2 := Next(Next(m, Submit(id, device, serialized, fingerprint)), Announced(id));
            var m3 := if serialized then Next(m2, Locked(id)) else m2;
            Next(m3, Started(id)) == Calls(m, id, device, serialized, fingerprint)
  {
    var m1 := Next(m, Submit(id, device, serialized, fingerprint));
    var m2 := Next(m1, Announced(id));
    var m3 := if serialized then Next(m2, Locked(id)) else m2;
    assert m3.tasks == m.tasks[id := Task(device, serialized, Starting)];
    assert m3.rows == m.rows[id := Row(device, RUNNING, Some(fingerprint))];
  }

  lemma ServedEnds(m: Manager, calls: Manager, id: Id, device: Device, serialized: bool, fingerprint: string,
                   outcome: Status)
    requires calls == Calls(m, id, device, serialized, fingerprint)
    requires id !in m.rows && id !in m.tasks && id !in m.pending && device !in m.locks
    requires outcome.Terminal() && outcome != Cancelled
    ensures Next(Next(calls, CallEnded(id, Some(outcome))), Finished(id))
         == m.(rows := m.rows[id := Row(device, outcome, Some(fingerprint))], calls := m.calls + [id])
  {
    var ended := Next(calls, CallEnded(id, Some(outcome)));
    assert ended.tasks == m.tasks[id := Task(device, serialized, Finishing)];
    assert ended.rows == m.rows[id := Row(device, outcome, Some(fingerprint))];
    var over := Next(ended, Finished(id));
    assert over.tasks == m.tasks && over.pending == m.pending && over.locks == m.locks;
  }

  lemma RunServing(m: Manager, id: Id, device: Device, serialized: bool, fingerprint: string, outcome: Status)
    ensures var m2 := Next(Next(m, Submit(id, device, serialized, fingerprint)), Announced(id));
            var m3 := if serialized then Next(m2, Locked(id)) else m2;
            Run(m, Serving(id, device, serialized, fingerprint, outcome))
            == Next(Next(Next(m3, Started(id)), CallEnded(id, Some(outcome))), Finished(id))
  {
    var s := Serving(id, device, serialized, fingerprint, outcome);
    var m1 := Next(m, s[0]);
    var m2 := Next(m1, s[1]);
    RunCons(m, s);
    RunCons(m1, s[1..]);
    RunCons(m2, s[1..][1..]);
    var rest := [Started(id), CallEnded(id, Some(outcome)), Finished(id)];
    if serialized {
      assert s[1..][1..] == [Locked(id)] + rest && s[1..][1..][1..] == rest;
      RunThree(Next(m2, Locked(id)), rest);
    } else {
      assert s[1..][1..] == rest;
      RunThree(m2, rest);
    }
  }

  lemma RunCons(m: Manager, s: seq<Step>)
    requires s != []
    ensures Run(m, s) == Run(Next(m, s[0]), s[1..])
  {
  }

  lemma RunThree(m: Manager, s: seq<Step>)
    requires |s| == 3
    ensures Run(m, s) == Next(Next(Next(m, s[0]), s[1]), s[2])
  {
    RunCons(m, s);
    RunCons(Next(m, s[0]), s[1..]);
    RunCons(Next(Next(m, s[0]), s[1]), s[1..][1..]);
    assert s[1..][1..][1..] == [];
  }

  /** An operation that waits, to be announced or for its device, and is cancelled then, never starts. */
  lemma CancelledInTime(m: Manager, id: Id)
    requires Safe(m) && id in m.pending && id !in m.cancelled && id in m.tasks
    requires m.tasks[id].stage == Announcing || m.tasks[id].stage == Waiting
    requires Allowed(m.rows[id].status, Cancelled)
    ensures var after := Next(m, CancelQueued(id));
            && after.rows[id].status == Cancelled && id in after.cancelled
            && (after.tasks[id].stage == Waiting && after.tasks[id].device !in after.locks ==>
                  id !in Next(after, Locked(id)).tasks && Next(after, Locked(id)).calls == m.calls
                  && Next(after, Locked(id)).locks == m.locks)
  {
  }

  predicate CallsNow(m: Manager, id: Id, device: Device) {
    id in m.tasks && m.tasks[id] == Task(device, true, Calling)
  }

  /** Over every interleaving, with any number of restarts: no operation is called twice; no two serialized calls
      run on one device, and none while it is reserved for maintenance; and what has once been cancelled is never
      called, before or after. */
  lemma SchedulerSafe(before: seq<Step>, after: seq<Step>)
    requires Disciplined(NEW, before) && Disciplined(Run(NEW, before), after)
    ensures var m := Run(NEW, before);
            var end := Run(m, after);
            && (forall i, j :: 0 <= i < j < |end.calls| ==> end.calls[i] != end.calls[j])
            && (forall a, b, d :: CallsNow(end, a, d) && CallsNow(end, b, d) ==> a == b && d !in end.reserved)
            && (forall id :: id in m.rows && m.rows[id].status == Cancelled ==> id !in end.calls)
  {
    RunSafe(NEW, before);
    var m := Run(NEW, before);
    RunSafe(m, after);
    forall id | id in m.rows && m.rows[id].status == Cancelled ensures id !in Run(m, after).calls {
      TerminalForever(m, after, id);
    }
  }

  /** Without that discipline the lock protects nothing: released in the middle of any serialized call, the device
      is free for a second one. */
  lemma ReleasedTooEarly(m: Manager, running: Id, next: Id, device: Device, fingerprint: string)
    requires CallsNow(m, running, device) && next !in m.rows && next !in m.tasks && next !in m.cancelled
    ensures var end := Run(m, TooEarly(next, device, fingerprint));
            CallsNow(end, running, device) && CallsNow(end, next, device) && running != next
  {
    var s := TooEarly(next, device, fingerprint);
    var m1 := Next(m, s[0]);
    var m2 := Next(m1, s[1]);
    var m3 := Next(m2, s[2]);
    var m4 := Next(m3, s[3]);
    var m5 := Next(m4, s[4]);
    assert m4.tasks[next].stage == Starting;
    assert Run(m4, s[4..]) == Run(m5, s[4..][1..]) == m5;
    assert Run(m3, s[3..]) == Run(m4, s[3..][1..]) && s[3..][1..] == s[4..];
    assert Run(m2, s[2..]) == Run(m3, s[2..][1..]) && s[2..][1..] == s[3..];
    assert Run(m1, s[1..]) == Run(m2, s[1..][1..]) && s[1..][1..] == s[2..];
  }

  function TooEarly(next: Id, device: Device, fingerprint: string): seq<Step> {
    [ReleaseMaintenance(device), Submit(next, device, true, fingerprint), Announced(next), Locked(next), Started(next)]
  }

  // --------------------------------------------------------------------- the manager

  class OperationManager {
    var rows: map<Id, Row>
    var tasks: map<Id, Task>
    var pending: set<Id>
    var cancelled: set<Id>
    var locks: map<Device, Holder>
    var requested: set<Device>
    var reserved: set<Device>
    ghost var calls: seq<Id>

    ghost function State(): Manager
      reads this
    {
      Manager(rows, tasks, pending, cancelled, locks, requested, reserved, calls)
    }

    /** A new process over the rows of the last one, with the gates of the leases that are still open. */
    constructor (before: map<Id, Row>, gates: set<Device>, uncertain: set<Id>, ghost calls: seq<Id>)
      ensures forall tasks, pending, cancelled, locks, requested, reserved ::
                State() == Next(Manager(before, tasks, pending, cancelled, locks, requested, reserved, calls),
                                Restarted(gates, uncertain))
    {
      rows := Recovered(before, uncertain);
      tasks, pending, cancelled, locks, requested, reserved := map[], {}, {}, map[], {}, gates;
      this.calls := calls;
    }

    predicate MaintenanceState(device: Device)
      reads this
    {
      device in reserved || device in requested
    }

    method Transition(id: Id, to: Status) returns (ok: bool)
      modifies this`rows
      ensures State() == SetStatus(old(State()), id, to)
      ensures ok <==> id in old(rows) && Allowed(old(rows)[id].status, to)
    {
      ok := id in rows && Allowed(rows[id].status, to);
      if ok {
        rows := rows[id := rows[id].(status := to)];
      }
    }

    /** execute, up to the announcement of the row it has inserted. An id in use for another request is refused. */
    method Execute(id: Id, device: Device, serialized: bool, fingerprint: string) returns (answer: Submission)
      modifies this`rows, this`tasks, this`pending
      ensures State() == Next(old(State()), Submit(id, device, serialized, fingerprint))
      ensures answer == Answer(old(State()), id, device, fingerprint)
      ensures answer == Created <==> id in rows && old(id !in rows)
      ensures answer != Created ==> State() == old(State())
    {
      if MaintenanceState(device) {
        return UnderMaintenance;
      }
      var created := id !in rows;
      if created {
        rows := rows[id := Row(device, if serialized then Queued else RUNNING, Some(fingerprint))];
      }
      if rows[id].fingerprint != Some(fingerprint) {
        return Conflict;
      }
      if !created {
        return Existing(rows[id]);
      }
      tasks := tasks[id := Task(device, serialized, Announcing)];
      pending := pending + {id};
      answer := Created;
    }

    /** The end of the coroutine, however it comes: its lock and its pending record go. */
    method Finally(id: Id)
      requires id in tasks
      modifies this`tasks, this`pending, this`locks
      ensures State() == Over(old(State()), id)
    {
      var device := tasks[id].device;
      if device in locks && locks[device] == ByOperation(id) {
        locks := locks - {device};
      }
      tasks, pending := tasks - {id}, pending - {id};
    }

    /** _run, up to the announcement of the start. */
    method BeginRun(id: Id)
      requires id in tasks
      modifies this`rows, this`tasks, this`pending, this`locks
      ensures State() == Begin(old(State()), id)
    {
      var ok := Transition(id, RUNNING);
      if ok {
        tasks := tasks[id := tasks[id].(stage := Starting)];
      } else {
        Finally(id);
      }
    }

    /** The device's lock has come free for a waiting operation. */
    method EnterLock(id: Id)
      requires id in tasks && tasks[id].stage == Waiting && tasks[id].device !in locks
      modifies this`rows, this`tasks, this`pending, this`locks
      ensures State() == Next(old(State()), Locked(id))
    {
      locks := locks[tasks[id].device := ByOperation(id)];
      if id in cancelled {
        Finally(id);
      } else {
        BeginRun(id);
      }
    }

    /** One round of cancel_queued. */
    method CancelOne(id: Id) returns (counted: bool)
      modifies this`rows, this`cancelled
      ensures State() == Next(old(State()), CancelQueued(id))
    {
      var running := id in tasks && tasks[id].stage != Announcing && tasks[id].stage != Waiting;
      counted := id in pending && !running && id !in cancelled;
      if counted {
        cancelled := cancelled + {id};
        var _ := Transition(id, Cancelled);
      }
    }

    /** acquire_maintenance: the gate closes at once, the lock comes later. */
    method RequestGate(device: Device) returns (ok: bool)
      modifies this`requested
      ensures State() == Next(old(State()), RequestMaintenance(device))
    {
      ok := !MaintenanceState(device);
      if ok {
        requested := requested + {device};
      }
    }

    method GateLocked(device: Device)
      requires device in requested && device !in locks
      modifies this`requested, this`reserved, this`locks
      ensures State() == Next(old(State()), MaintenanceLocked(device))
    {
      locks := locks[device := ByMaintenance];
      requested, reserved := requested - {device}, reserved + {device};
    }

    /** release_maintenance unlocks whoever holds the lock, which is an operation only if one is inside and the
        device was not reserved. */
    method ReleaseGate(device: Device)
      modifies this`requested, this`reserved, this`locks
      ensures State() == Next(old(State()), ReleaseMaintenance(device))
      ensures Safe(old(State())) ==> (Safe(State()) <==> NobodyInside(State(), device))
      ensures Safe(old(State())) && device in old(reserved) ==> Safe(State())
    {
      ghost var before := State();
      LiftGate(device);
      if Safe(before) {
        ReleaseSafeIff(before, device);
      }
    }

    method LiftGate(device: Device)
      modifies this`requested, this`reserved, this`locks
      ensures State() == Next(old(State()), ReleaseMaintenance(device))
    {
      requested, reserved := requested - {device}, reserved - {device};
      if device in locks {
        locks := locks - {device};
      }
    }
  }
}
