/** The multi-replica scheduler as a state machine over its database units
    (cowork/scheduler.py, cowork/services/schedules.py).

    Every replica polls the same tables; inserting a run row that names a cron slot
    is the claim, because (schedule, slot) is unique. Each slot a poll finds due is handed
    to one run, which tries its claim once: `Claim` if the slot is free, and `Discard` if it
    is not, no connection frees, or the replica stops first. A run is a process that links
    its conversation, takes its turn, records the outcome and finishes its row; it
    may crash, be cancelled by a shutdown or be reaped by another replica between
    any two units. Reaping, missed-slot handling and due checks are steps of their
    own, one row or schedule at a time, so the steps of different replicas mix freely.

    Assumed: each database unit is atomic; a run whose lease lapses between its link
    and the end of its turn is dead; a run reaped at boot is dead. */
module Scheduler {
  import opened Common
  import opened ScheduleTiming

  const RUN_LEASE: Time := 120
  const ONCE_CATCHUP: Time := 3600

  function FreshnessWindow(c: Cadence): Time {
    if c == Hourly then 1800 else 3600
  }

  datatype Status = Running | Success | Failed | Cancelled

  datatype Schedule = Schedule(cadence: Cadence, zone: Zone, nextRunAt: Time, enabled: bool, missedRuns: nat)

  datatype Row = Row(
    schedule: Id,
    manual: bool,
    status: Status,
    slot: Option<Time>,
    leaseExpiresAt: Option<Time>,
    conversation: Option<Id>,
    finishedAt: Option<Time>)

  /** Why a run gave its slot back. */
  datatype Cause =
    // its turn never started
    | ClaimLost | Transient | CutBeforeTurn | Unlinked | DisabledBeforeTurn | UnrecordedBeforeTurn
    // its turn had started
    | Refused | Cut | Paused | Unrecorded | ConversationDeleted
    // its process died and a booting server reaped it
    | BootReaped

  predicate BeforeTurn(c: Cause) {
    c in {ClaimLost, Transient, CutBeforeTurn, Unlinked, DisabledBeforeTurn, UnrecordedBeforeTurn}
  }

  /** Where a run's process stands. `Finishing` holds what its last write will do with the slot. */
  datatype Phase =
    | Claimed
    | Linked
    | InTurn
    | Finishing(giveBack: Option<Cause>, status: Status)
    | Gone

  /** A run's process, and what has become of the slot it claimed. */
  datatype Process = Process(
    schedule: Id,
    slot: Option<Time>,
    phase: Phase,
    started: bool,
    gaveBack: Option<Cause>)

  datatype Due = Due(schedule: Id, slot: Time)

  datatype State = State(
    now: Time,
    schedules: map<Id, Schedule>,
    rows: map<Id, Row>,
    processes: map<Id, Process>,
    polled: multiset<Due>,  // the slots polls have found due, once for each run still to try its claim
    starts: seq<Id>)        // the runs whose turn started, in order

  // ---------------------------------------------------------------- units

  ghost predicate Wellformed(s: Schedule) {
    s.cadence != Once ==> StepsForward(s.cadence, s.zone)
  }

  /** Consume the current slot: a one-off is disabled, a recurring schedule moves on. */
  function Advance(s: Schedule, now: Time): Schedule
    requires Wellformed(s)
  {
    if s.cadence == Once then s.(enabled := false)
    else s.(nextRunAt := NextFuture(s.cadence, s.zone, s.nextRunAt, now))
  }

  /** Record how a turn ended: success clears the missed count, and a cron turn consumes its slot. */
  function Recorded(s: Schedule, status: Status, manual: bool, now: Time): Schedule
    requires Wellformed(s)
  {
    var cleared := if status == Success then s.(missedRuns := 0) else s;
    if manual then cleared else Advance(cleared, now)
  }

  predicate Holds(row: Row, schedule: Id, slot: Time) {
    row.schedule == schedule && row.slot == Some(slot)
  }

  predicate SlotTaken(rows: map<Id, Row>, schedule: Id, slot: Time) {
    exists r :: r in rows && Holds(rows[r], schedule, slot)
  }

  function NewRow(schedule: Id, slot: Option<Time>, now: Time): Row {
    Row(schedule, slot == None, Running, slot, Some(now + RUN_LEASE), None, None)
  }

  function FinishedRow(row: Row, status: Status, release: bool, now: Time): Row {
    row.(status := status, leaseExpiresAt := None, finishedAt := Some(now), slot := if release then None else row.slot)
  }

  predicate Lapsed(row: Row, now: Time) {
    row.status == Running && row.leaseExpiresAt.Some? && row.leaseExpiresAt.value < now
  }

  /** A lapsed run that linked no conversation gives its slot back; one that did keeps it. */
  function ReapedRow(row: Row, now: Time): Row {
    FinishedRow(row, Failed, row.conversation == None, now)
  }

  /** The reap consumes the slot of a run that may have done its work, if it is still current. */
  predicate ReapConsumes(row: Row, s: Schedule) {
    row.conversation.Some? && !row.manual && row.slot == Some(s.nextRunAt)
  }

  predicate RanRecently(rows: map<Id, Row>, schedule: Id, window: Time, now: Time) {
    exists r :: r in rows && rows[r].schedule == schedule && rows[r].status == Success
      && rows[r].finishedAt.Some? && now - rows[r].finishedAt.value < window
  }

  predicate HasActiveRun(rows: map<Id, Row>, schedule: Id) {
    exists r :: r in rows && rows[r].schedule == schedule && rows[r].status == Running
  }

  predicate IsDue(s: Schedule, now: Time) {
    s.enabled && s.nextRunAt <= now
  }

  /** Settle a schedule that is overdue by more than one occurrence. */
  function SettleMissed(s: Schedule, now: Time): Schedule
    requires Wellformed(s)
  {
    if !s.enabled || s.nextRunAt >= now then s
    else if s.cadence == Once then
      if now - s.nextRunAt > ONCE_CATCHUP then s.(missedRuns := s.missedRuns + 1, enabled := false) else s
    else
      var missed := Missed(s.cadence, s.zone, s.nextRunAt, now);
      if missed > 1
      then s.(missedRuns := s.missedRuns + missed, nextRunAt := NextFuture(s.cadence, s.zone, s.nextRunAt, now))
      else s
  }

  // ---------------------------------------------------------------- steps

  datatype Op =
    | Tick(elapsed: nat)
    | AddSchedule(schedule: Id, value: Schedule)
    | Pause(schedule: Id)
    | Resume(schedule: Id)
    | Edit(schedule: Id, nextRunAt: Time)
    | DeleteConversation(deleted: Id)
    | HandleMissed(schedule: Id)
    | CheckDue(schedule: Id)
    | Claim(run: Id, due: Due)
    | Discard(due: Due)
    | RunNow(run: Id, schedule: Id)
    | Renew(run: Id)
    | Link(run: Id, conversation: Option<Id>)
    | StartTurn(run: Id)
    | RecordOutcome(run: Id, status: Status, cutAfter: bool)
    | RefuseTurn(run: Id)
    | Cancel(run: Id)
    | RecordError(run: Id, transient: bool, lands: bool, cutAfter: bool)
    | Finish(run: Id)
    | Crash(run: Id)
    | Reap(run: Id)
    | BootReap(run: Id)

  predicate AtPhase(s: State, run: Id, phase: Phase) {
    run in s.processes && run in s.rows && s.processes[run].phase == phase
  }

  /** When the code, under the assumptions above, can take this step. */
  ghost predicate Enabled(s: State, op: Op) {
    match op
    case AddSchedule(id, value) => id !in s.schedules && Wellformed(value)
    case Pause(id) => id in s.schedules
    case Resume(id) => id in s.schedules
    case Edit(id, _) => id in s.schedules
    case HandleMissed(id) => id in s.schedules
    case CheckDue(id) => id in s.schedules && IsDue(s.schedules[id], s.now) && !HasActiveRun(s.rows, id)
    case Claim(r, due) =>
      r !in s.processes && r !in s.rows && due in s.polled && due.schedule in s.schedules
      && !SlotTaken(s.rows, due.schedule, due.slot)
    case Discard(due) => due in s.polled
    case RunNow(r, id) => r !in s.processes && r !in s.rows && id in s.schedules
    case Renew(r) => r in s.rows && r in s.processes && s.rows[r].status == Running && s.processes[r].phase != Gone
    case Link(r, _) => AtPhase(s, r, Claimed)
    case StartTurn(r) => AtPhase(s, r, Linked)
    case RecordOutcome(r, status, _) => AtPhase(s, r, InTurn) && s.rows[r].schedule in s.schedules && status != Running
    case RefuseTurn(r) => AtPhase(s, r, InTurn)
    case Cancel(r) => r in s.rows && r in s.processes && s.processes[r].phase in {Claimed, Linked, InTurn}
    case RecordError(r, transient, _, _) =>
      r in s.rows && r in s.processes && s.rows[r].schedule in s.schedules
      && s.processes[r].phase in {Claimed, InTurn} && (transient ==> s.processes[r].phase == Claimed)
    case Finish(r) => r in s.rows && r in s.processes && s.processes[r].phase.Finishing?
    case Crash(r) => r in s.processes
    case Reap(r) =>
      r in s.rows && r in s.processes && s.rows[r].schedule in s.schedules && Lapsed(s.rows[r], s.now)
      && s.processes[r].phase !in {Linked, InTurn}
    case BootReap(r) =>
      r in s.rows && r in s.processes && s.rows[r].status == Running && s.processes[r].phase == Gone
    case _ => true
  }

  function SetPhase(s: State, run: Id, phase: Phase): State
    requires run in s.processes
  {
    s.(processes := s.processes[run := s.processes[run].(phase := phase)])
  }

  function Consume(s: State, schedule: Id): State
    requires schedule in s.schedules && Wellformed(s.schedules[schedule])
  {
    s.(schedules := s.schedules[schedule := Advance(s.schedules[schedule], s.now)])
  }

  ghost predicate AllWellformed(s: State) {
    forall id :: id in s.schedules ==> Wellformed(s.schedules[id])
  }

  function ForgetConversation(rows: map<Id, Row>, c: Id): map<Id, Row> {
    map r | r in rows :: if rows[r].conversation == Some(c) then rows[r].(conversation := None) else rows[r]
  }

  function ErrorCause(started: bool, transient: bool, lands: bool): Cause {
    if !lands then (if started then Unrecorded else UnrecordedBeforeTurn)
    else if transient then Transient
    else if started then Paused else DisabledBeforeTurn
  }

  /** The row gives its slot back, if it has one. */
  function GiveBack(p: Process, cause: Cause): Process {
    if p.slot.Some? && p.gaveBack == None then p.(gaveBack := Some(cause)) else p
  }

  function OutcomeStep(s: State, r: Id, status: Status, cutAfter: bool): State
    requires r in s.rows && r in s.processes && s.rows[r].schedule in s.schedules
    requires Wellformed(s.schedules[s.rows[r].schedule])
  {
    var id := s.rows[r].schedule;
    var done := s.(schedules := s.schedules[id := Recorded(s.schedules[id], status, s.rows[r].manual, s.now)]);
    SetPhase(done, r, if cutAfter then Finishing(Some(Cut), Failed) else Finishing(None, status))
  }

  function ErrorStep(s: State, r: Id, transient: bool, lands: bool, cutAfter: bool): State
    requires r in s.rows && r in s.processes && s.rows[r].schedule in s.schedules
    requires Wellformed(s.schedules[s.rows[r].schedule])
  {
    var id := s.rows[r].schedule;
    var cut := if s.processes[r].started then Cut else CutBeforeTurn;
    if lands && !transient && !s.rows[r].manual && s.schedules[id].enabled
    then SetPhase(Consume(s, id), r, Finishing(if cutAfter then Some(cut) else None, Failed))
    else SetPhase(s, r, Finishing(Some(ErrorCause(s.processes[r].started, transient, lands)), Failed))
  }

  function FinishStep(s: State, r: Id): State
    requires r in s.rows && r in s.processes && s.processes[r].phase.Finishing?
  {
    var phase := s.processes[r].phase;
    var p := s.processes[r].(phase := Gone);
    s.(rows := s.rows[r := FinishedRow(s.rows[r], phase.status, phase.giveBack.Some?, s.now)],
       processes := s.processes[r := if phase.giveBack.Some? then GiveBack(p, phase.giveBack.value) else p])
  }

  function ReapStep(s: State, r: Id): State
    requires r in s.rows && r in s.processes && s.rows[r].schedule in s.schedules
    requires Wellformed(s.schedules[s.rows[r].schedule])
  {
    var row := s.rows[r];
    var consumed := if ReapConsumes(row, s.schedules[row.schedule]) then Consume(s, row.schedule) else s;
    var cause := if s.processes[r].started then ConversationDeleted else Unlinked;
    consumed.(
      rows := s.rows[r := ReapedRow(row, s.now)],
      processes := if row.conversation == None then s.processes[r := GiveBack(s.processes[r], cause)] else s.processes)
  }

  ghost function Step(s: State, op: Op): (after: State)
    requires Enabled(s, op) && AllWellformed(s)
    ensures AllWellformed(after)
  {
    match op
    case Tick(elapsed) => s.(now := s.now + elapsed)
    case AddSchedule(id, value) => s.(schedules := s.schedules[id := value])
    case Pause(id) => s.(schedules := s.schedules[id := s.schedules[id].(enabled := false)])
    case Resume(id) => s.(schedules := s.schedules[id := s.schedules[id].(enabled := true)])
    case Edit(id, at) => s.(schedules := s.schedules[id := s.schedules[id].(nextRunAt := at)])
    case DeleteConversation(c) => s.(rows := ForgetConversation(s.rows, c))
    case HandleMissed(id) => s.(schedules := s.schedules[id := SettleMissed(s.schedules[id], s.now)])
    case CheckDue(id) =>
      if RanRecently(s.rows, id, FreshnessWindow(s.schedules[id].cadence), s.now) then Consume(s, id)
      else s.(polled := s.polled + multiset{Due(id, s.schedules[id].nextRunAt)})
    case Claim(r, due) =>
      s.(rows := s.rows[r := NewRow(due.schedule, Some(due.slot), s.now)],
         processes := s.processes[r := Process(due.schedule, Some(due.slot), Claimed, false, None)],
         polled := s.polled - multiset{due})
    case Discard(due) => s.(polled := s.polled - multiset{due})
    case RunNow(r, id) =>
      s.(rows := s.rows[r := NewRow(id, None, s.now)],
         processes := s.processes[r := Process(id, None, Claimed, false, None)])
    case Renew(r) => s.(rows := s.rows[r := s.rows[r].(leaseExpiresAt := Some(s.now + RUN_LEASE))])
    case Link(r, conversation) =>
      if s.rows[r].status == Running
      then SetPhase(s.(rows := s.rows[r := s.rows[r].(conversation := conversation)]), r, Linked)
      else SetPhase(s, r, Finishing(Some(ClaimLost), Failed))
    case StartTurn(r) =>
      s.(processes := s.processes[r := s.processes[r].(phase := InTurn, started := true)], starts := s.starts + [r])
    case RecordOutcome(r, status, cutAfter) => OutcomeStep(s, r, status, cutAfter)
    case RefuseTurn(r) => SetPhase(s, r, Finishing(Some(Refused), Failed))
    case Cancel(r) => SetPhase(s, r, Finishing(Some(if s.processes[r].started then Cut else CutBeforeTurn), Failed))
    case RecordError(r, transient, lands, cutAfter) => ErrorStep(s, r, transient, lands, cutAfter)
    case Finish(r) => FinishStep(s, r)
    case Crash(r) => SetPhase(s, r, Gone)
    case Reap(r) => ReapStep(s, r)
    case BootReap(r) =>
      s.(rows := s.rows[r := FinishedRow(s.rows[r], Failed, true, s.now)],
         processes := s.processes[r := GiveBack(s.processes[r], BootReaped)])
  }

  // ---------------------------------------------------------------- runs of the system

  ghost predicate Possible(s: State, ops: seq<Op>)
    requires AllWellformed(s)
    decreases |ops|
  {
    ops != [] ==>
      && Enabled(s, ops[0])
      && Possible(Step(s, ops[0]), ops[1..])
  }

  ghost function After(s: State, ops: seq<Op>): (later: State)
    requires AllWellformed(s) && Possible(s, ops)
    ensures AllWellformed(later)
    decreases |ops|
  {
    if ops == [] then s else After(Step(s, ops[0]), ops[1..])
  }

  const START := State(0, map[], map[], map[], multiset{}, [])
}
