/** Slot conservation: what moves a schedule past a slot, which slots a late outcome drops,
    when a used slot blocks its schedule, and what a dead run leaves behind. */
module SchedulerConservation {
  import opened Common
  import opened ScheduleTiming
  import opened Scheduler
  import opened SchedulerSafety

  // ---------------------------------------------------------------- what moves next_run_at

  /** The steps that may move a schedule past its slot: a cron run's recorded outcome or
      consuming error, the reap of a linked run holding that very slot, a freshness skip,
      a fast-forward over several missed slots, or an edit. */
  ghost predicate Moves(s: State, op: Op, id: Id)
    requires id in s.schedules && Enabled(s, op) && AllWellformed(s)
  {
    match op
    case RecordOutcome(r, _, _) => s.rows[r].schedule == id && !s.rows[r].manual
    case RecordError(r, transient, lands, _) =>
      s.rows[r].schedule == id && !s.rows[r].manual && lands && !transient && s.schedules[id].enabled
    case Reap(r) => s.rows[r].schedule == id && ReapConsumes(s.rows[r], s.schedules[id])
    case CheckDue(due) => due == id && RanRecently(s.rows, id, FreshnessWindow(s.schedules[id].cadence), s.now)
    case HandleMissed(overdue) =>
      overdue == id && s.schedules[id].enabled && s.schedules[id].cadence != Once
      && Missed(s.schedules[id].cadence, s.schedules[id].zone, s.schedules[id].nextRunAt, s.now) > 1
    case Edit(edited, _) => edited == id
    case _ => false
  }

  lemma AdvanceMovesForward(x: Schedule, now: Time)
    requires Wellformed(x)
    ensures var y := Advance(x, now);
      && y.cadence == x.cadence && y.zone == x.zone
      && x.nextRunAt <= y.nextRunAt
      && (x.cadence == Once ==> y.nextRunAt == x.nextRunAt && !y.enabled)
      && (x.cadence != Once ==> now < y.nextRunAt && y.enabled == x.enabled)
      && (y.nextRunAt != x.nextRunAt ==> x.nextRunAt <= now)
  {
    if x.cadence != Once {
      NextFutureIsOccurrence(x.cadence, x.zone, x.nextRunAt, now);
    }
  }

  lemma ScheduleStep(s: State, op: Op, id: Id)
    requires id in s.schedules && Enabled(s, op) && AllWellformed(s)
    ensures id in Step(s, op).schedules
    ensures var x, y := s.schedules[id], Step(s, op).schedules[id];
      && y.cadence == x.cadence && y.zone == x.zone
      && (y.nextRunAt != x.nextRunAt ==> Moves(s, op, id))
      && (y.nextRunAt != x.nextRunAt && !op.Edit? ==> x.nextRunAt <= s.now < y.nextRunAt)
      && (!op.Edit? ==> x.nextRunAt <= y.nextRunAt)
  {
    AdvanceMovesForward(s.schedules[id], s.now);
    if op.HandleMissed? && s.schedules[id].cadence != Once {
      NextFutureIsOccurrence(s.schedules[id].cadence, s.schedules[id].zone, s.schedules[id].nextRunAt, s.now);
    }
  }

  ghost predicate SomethingMoves(s: State, ops: seq<Op>, id: Id)
    requires AllWellformed(s) && Possible(s, ops) && id in s.schedules
    decreases |ops|
  {
    ops != [] && (
      || Moves(s, ops[0], id)
      || (id in Step(s, ops[0]).schedules && SomethingMoves(Step(s, ops[0]), ops[1..], id)))
  }

  /** Over any run of the system: a schedule's slot changes only if one of those steps took place. */
  lemma {:induction false} SlotIsConserved(s: State, ops: seq<Op>, id: Id)
    requires AllWellformed(s) && Possible(s, ops) && id in s.schedules
    ensures id in After(s, ops).schedules
    ensures After(s, ops).schedules[id].nextRunAt != s.schedules[id].nextRunAt ==> SomethingMoves(s, ops, id)
    decreases |ops|
  {
    if ops != [] {
      ScheduleStep(s, ops[0], id);
      SlotIsConserved(Step(s, ops[0]), ops[1..], id);
    }
  }

  // ---------------------------------------------------------------- slots lie behind their schedule

  ghost predicate InPast(x: Schedule, slot: Time, now: Time) {
    slot <= now && (x.cadence != Once ==> slot <= x.nextRunAt)
  }

  /** A slot no run will ask for again lies behind its recurring schedule. */
  ghost predicate Behind(x: Schedule, slot: Time) {
    x.cadence != Once ==> slot < x.nextRunAt
  }

  ghost predicate RowOnTime(s: State, r: Id)
    requires r in s.rows && r in s.processes
  {
    var row := s.rows[r];
    && row.schedule in s.schedules
    && (row.slot.Some? ==>
          && InPast(s.schedules[row.schedule], row.slot.value, s.now)
          && (row.status != Running ==> Behind(s.schedules[row.schedule], row.slot.value))
          && (s.processes[r].phase.Finishing? && s.processes[r].phase.giveBack == None ==>
                Behind(s.schedules[row.schedule], row.slot.value)))
  }

  ghost predicate OnTime(s: State) {
    && (forall due :: due in s.polled ==>
          due.schedule in s.schedules && InPast(s.schedules[due.schedule], due.slot, s.now))
    && (forall r :: r in s.rows ==> r in s.processes && RowOnTime(s, r))
  }

  lemma StillInPast(s: State, op: Op, id: Id, slot: Time)
    requires id in s.schedules && Enabled(s, op) && AllWellformed(s) && !op.Edit?
    requires InPast(s.schedules[id], slot, s.now)
    ensures id in Step(s, op).schedules
    ensures InPast(Step(s, op).schedules[id], slot, Step(s, op).now)
    ensures Behind(s.schedules[id], slot) ==> Behind(Step(s, op).schedules[id], slot)
  {
    ScheduleStep(s, op, id);
  }

  lemma PolledOnTime(s: State, op: Op, due: Due)
    requires Safe(s) && OnTime(s) && Enabled(s, op) && !op.Edit? && due in Step(s, op).polled
    ensures due.schedule in Step(s, op).schedules
    ensures InPast(Step(s, op).schedules[due.schedule], due.slot, Step(s, op).now)
  {
    if due in s.polled {
      StillInPast(s, op, due.schedule, due.slot);
    } else {
      assert op.CheckDue? && due == Due(op.schedule, s.schedules[op.schedule].nextRunAt);
      StillInPast(s, op, due.schedule, due.slot);
    }
  }

  lemma ConsumingLeavesBehind(s: State, id: Id, slot: Time)
    requires AllWellformed(s) && id in s.schedules && slot <= s.now
    ensures Behind(Consume(s, id).schedules[id], slot)
  {
    AdvanceMovesForward(s.schedules[id], s.now);
  }

  lemma OwnRowOnTime(s: State, op: Op, r: Id)
    requires Safe(s) && OnTime(s) && Enabled(s, op) && !op.Edit? && Subject(op) == Some(r)
    ensures r in Step(s, op).rows && r in Step(s, op).processes && RowOnTime(Step(s, op), r)
  {
    SubjectStep(s, op, r);
    if r in s.rows {
      if s.rows[r].slot.Some? {
        SlotRowOnTime(s, op, r);
      } else {
        ScheduleStep(s, op, s.rows[r].schedule);
      }
    } else if op.Claim? {
      StillInPast(s, op, op.due.schedule, op.due.slot);
    }
  }

  lemma SlotRowOnTime(s: State, op: Op, r: Id)
    requires Safe(s) && OnTime(s) && Enabled(s, op) && !op.Edit? && Subject(op) == Some(r)
    requires r in s.rows && s.rows[r].slot.Some?
    ensures r in Step(s, op).rows && r in Step(s, op).processes && RowOnTime(Step(s, op), r)
  {
    SubjectStep(s, op, r);
    assert RowOnTime(s, r) && RunOk(s.rows[r], s.processes[r]);
    var row := s.rows[r];
    StillInPast(s, op, row.schedule, row.slot.value);
    ConsumingLeavesBehind(s, row.schedule, row.slot.value);
  }

  lemma OnTimeStep(s: State, op: Op)
    requires Safe(s) && OnTime(s) && Enabled(s, op) && !op.Edit?
    ensures OnTime(Step(s, op))
  {
    var s' := Step(s, op);
    forall due | due in s'.polled
      ensures due.schedule in s'.schedules && InPast(s'.schedules[due.schedule], due.slot, s'.now)
    {
      PolledOnTime(s, op, due);
    }
    forall r | r in s'.rows ensures r in s'.processes && RowOnTime(s', r) {
      if Subject(op) == Some(r) {
        OwnRowOnTime(s, op, r);
      } else {
        OthersUntouched(s, op, r);
        assert RowOnTime(s, r);
        if s.rows[r].slot.Some? {
          StillInPast(s, op, s.rows[r].schedule, s.rows[r].slot.value);
        } else {
          ScheduleStep(s, op, s.rows[r].schedule);
        }
      }
    }
  }

  ghost predicate NoEdits(ops: seq<Op>) {
    forall k :: 0 <= k < |ops| ==> !ops[k].Edit?
  }

  lemma {:induction false} OnTimeAlways(s: State, ops: seq<Op>)
    requires Safe(s) && OnTime(s) && Possible(s, ops) && NoEdits(ops)
    ensures Safe(After(s, ops)) && OnTime(After(s, ops))
    decreases |ops|
  {
    if ops != [] {
      assert !ops[0].Edit?;
      SafeStep(s, ops[0]);
      OnTimeStep(s, ops[0]);
      OnTimeAlways(Step(s, ops[0]), ops[1..]);
    }
  }

  /** As long as nobody edits a schedule's time, a finished run never holds the current slot of a
      recurring schedule. */
  lemma FinishedRunIsBehind(ops: seq<Op>, run: Id)
    requires AllWellformed(START) && Possible(START, ops) && NoEdits(ops)
    requires var s := After(START, ops);
      && run in s.rows && s.rows[run].schedule in s.schedules
      && s.schedules[s.rows[run].schedule].cadence != Once
      && s.rows[run].slot == Some(s.schedules[s.rows[run].schedule].nextRunAt)
    ensures After(START, ops).rows[run].status == Running
  {
    StartIsSafe();
    OnTimeAlways(START, ops);
    assert RowOnTime(After(START, ops), run);
  }

  // ---------------------------------------------------------------- slots that are dropped

  /** An operation that consumes the current slot of a schedule on behalf of a run. */
  predicate ConsumesFor(s: State, op: Op, id: Id) {
    || (op.RecordOutcome? && op.run in s.rows && s.rows[op.run].schedule == id && !s.rows[op.run].manual)
    || (op.RecordError? && op.run in s.rows && s.rows[op.run].schedule == id && !s.rows[op.run].manual
        && op.lands && !op.transient && id in s.schedules && s.schedules[id].enabled)
  }

  /** A recorded outcome or consuming error of a recurring schedule moves it past exactly the
      occurrences up to now, its run's slot and every other, without a row for them and without
      counting them missed: an occurrence is dropped exactly if it is due and no row names it. */
  lemma RecordingDrops(s: State, op: Op, id: Id, n: nat)
    requires Safe(s) && Enabled(s, op) && id in s.schedules && s.schedules[id].cadence != Once && ConsumesFor(s, op, id)
    ensures
      var x, t := s.schedules[id], Step(s, op);
      var occurrence := Occurrence(x.cadence, x.zone, x.nextRunAt, n);
      && id in t.schedules
      && (occurrence < t.schedules[id].nextRunAt <==> occurrence <= s.now)
      && t.schedules[id].nextRunAt ==
         Occurrence(x.cadence, x.zone, x.nextRunAt, Missed(x.cadence, x.zone, x.nextRunAt, s.now))
      && t.rows == s.rows && t.polled == s.polled && t.schedules[id].missedRuns <= x.missedRuns
  {
    var x := s.schedules[id];
    MissedCountsOverdue(x.cadence, x.zone, x.nextRunAt, s.now, n);
    NextFutureIsOccurrence(x.cadence, x.zone, x.nextRunAt, s.now);
  }

  /** Nothing but an edit brings a schedule back to a slot behind it, so a slot dropped before any poll
      found it is never claimed. */
  lemma {:induction false} DroppedSlotIsNeverClaimed(s: State, ops: seq<Op>, id: Id, slot: Time)
    requires AllWellformed(s) && Possible(s, ops) && NoEdits(ops) && id in s.schedules
    requires Due(id, slot) !in s.polled && slot < s.schedules[id].nextRunAt
    ensures
      var t := After(s, ops);
      && id in t.schedules && Due(id, slot) !in t.polled && slot < t.schedules[id].nextRunAt
      && forall run :: !Enabled(t, Claim(run, Due(id, slot)))
    decreases |ops|
  {
    if ops != [] {
      assert !ops[0].Edit?;
      ScheduleStep(s, ops[0], id);
      PolledOrigin(s, ops[0]);
      DroppedSlotIsNeverClaimed(Step(s, ops[0]), ops[1..], id, slot);
    }
  }

  /** Only a due check announces a slot, and only its schedule's current one. */
  lemma PolledOrigin(s: State, op: Op)
    requires AllWellformed(s) && Enabled(s, op)
    ensures forall due :: due in Step(s, op).polled && due !in s.polled ==>
      op.CheckDue? && due.schedule == op.schedule && due.slot == s.schedules[op.schedule].nextRunAt <= s.now
  {
  }

  // ---------------------------------------------------------------- when a used slot blocks its schedule

  /** Slots that runs or polls know of are in the past, whatever was edited. */
  ghost predicate SlotsPast(s: State) {
    && (forall due :: due in s.polled ==> due.slot <= s.now)
    && (forall r :: r in s.rows && s.rows[r].slot.Some? ==> s.rows[r].slot.value <= s.now)
  }

  lemma SlotsPastStep(s: State, op: Op)
    requires Safe(s) && SlotsPast(s) && Enabled(s, op)
    ensures SlotsPast(Step(s, op))
  {
    PolledOrigin(s, op);
    assert Step(s, op).now >= s.now;
    forall r | r in Step(s, op).rows && Step(s, op).rows[r].slot.Some?
      ensures Step(s, op).rows[r].slot.value <= Step(s, op).now
    {
      SlotOrigin(s, op, r);
    }
  }

  lemma {:induction false} SlotsPastAlways(s: State, ops: seq<Op>)
    requires Safe(s) && SlotsPast(s) && Possible(s, ops)
    ensures Safe(After(s, ops)) && SlotsPast(After(s, ops))
    decreases |ops|
  {
    if ops != [] {
      SafeStep(s, ops[0]);
      SlotsPastStep(s, ops[0]);
      SlotsPastAlways(Step(s, ops[0]), ops[1..]);
    }
  }

  /** A run has used its slot: it is over and its row keeps the slot, or it will. */
  predicate HasUsed(s: State, r: Id) {
    && r in s.rows && r in s.processes && s.rows[r].slot.Some?
    && (s.rows[r].status != Running || (s.processes[r].phase.Finishing? && s.processes[r].phase.giveBack == None))
  }

  /** A used slot is the schedule's current one again, so that no run can claim it. */
  ghost predicate Blocked(s: State, id: Id) {
    id in s.schedules && exists r :: HasUsed(s, r) && Holds(s.rows[r], id, s.schedules[id].nextRunAt)
  }

  /** The operation by which a run comes to have used its slot. */
  predicate Uses(s: State, op: Op, r: Id) {
    r in s.rows && r in s.processes &&
    match op
    case RecordOutcome(run, _, cutAfter) => run == r && !cutAfter && !s.rows[r].manual
    case RecordError(run, transient, lands, cutAfter) =>
      run == r && !cutAfter && lands && !transient && !s.rows[r].manual
      && s.rows[r].schedule in s.schedules && s.schedules[s.rows[r].schedule].enabled
    case Reap(run) => run == r && s.rows[r].conversation.Some?
    case _ => false
  }

  /** A run has used its slot after a step exactly if it had before, or the step was that operation. */
  lemma UsedStep(s: State, op: Op, r: Id)
    requires Safe(s) && Enabled(s, op) && HasUsed(Step(s, op), r)
    ensures r in s.rows && s.rows[r].slot == Step(s, op).rows[r].slot
    ensures s.rows[r].schedule == Step(s, op).rows[r].schedule
    ensures HasUsed(s, r) || Uses(s, op, r)
  {
    SlotOrigin(s, op, r);
    if Subject(op) == Some(r) {
      UsedOwn(s, op, r);
    } else {
      OthersUntouched(s, op, r);
    }
  }

  lemma UsedOwn(s: State, op: Op, r: Id)
    requires Safe(s) && Enabled(s, op) && Subject(op) == Some(r) && r in s.rows && HasUsed(Step(s, op), r)
    ensures HasUsed(s, r) || Uses(s, op, r)
  {
    assert RunOk(s.rows[r], s.processes[r]);
  }

  lemma UseIsUsed(s: State, op: Op, r: Id)
    requires Safe(s) && Enabled(s, op) && Uses(s, op, r) && s.rows[r].slot.Some?
    ensures HasUsed(Step(s, op), r) && Step(s, op).rows[r].slot == s.rows[r].slot
    ensures Step(s, op).rows[r].schedule == s.rows[r].schedule
  {
    assert RunOk(s.rows[r], s.processes[r]);
  }

  /** Using a slot moves a recurring schedule away from it, and a one-off nowhere. */
  lemma UseMoves(s: State, op: Op, r: Id)
    requires Safe(s) && SlotsPast(s) && Enabled(s, op) && Uses(s, op, r) && s.rows[r].slot.Some?
    requires s.rows[r].schedule in s.schedules
    ensures
      var id := s.rows[r].schedule;
      && id in Step(s, op).schedules
      && (s.schedules[id].cadence != Once ==> Step(s, op).schedules[id].nextRunAt != s.rows[r].slot.value)
      && (s.schedules[id].cadence == Once ==> Step(s, op).schedules[id].nextRunAt == s.schedules[id].nextRunAt)
  {
    var id := s.rows[r].schedule;
    assert RunOk(s.rows[r], s.processes[r]);
    AdvanceMovesForward(s.schedules[id], s.now);
    AdvanceMovesForward(s.schedules[id].(missedRuns := 0), s.now);
  }

  /** Some run has used this slot. */
  ghost predicate UsedSlot(s: State, id: Id, slot: Time) {
    exists r :: HasUsed(s, r) && Holds(s.rows[r], id, slot)
  }

  /** The operation uses the current slot of the schedule. */
  ghost predicate UsesCurrent(s: State, op: Op, id: Id)
    requires id in s.schedules
  {
    exists r :: Uses(s, op, r) && Holds(s.rows[r], id, s.schedules[id].nextRunAt)
  }

  /** A used slot comes to block its schedule in exactly two ways: the schedule's time is edited to it,
      or the schedule is a one-off, whose time stays where it was used. */
  lemma BlockedExactlyWhen(s: State, op: Op, id: Id)
    requires Safe(s) && SlotsPast(s) && Enabled(s, op) && id in s.schedules && !Blocked(s, id)
    ensures Blocked(Step(s, op), id) <==>
      || (op.Edit? && op.schedule == id && UsedSlot(s, id, op.nextRunAt))
      || (s.schedules[id].cadence == Once && UsesCurrent(s, op, id))
  {
    var t := Step(s, op);
    if Blocked(t, id) {
      ScheduleStep(s, op, id);
      var r :| HasUsed(t, r) && Holds(t.rows[r], id, t.schedules[id].nextRunAt);
      BlockedBy(s, op, id, r);
    }
    if op.Edit? && op.schedule == id && UsedSlot(s, id, op.nextRunAt) {
      EditBlocks(s, op);
    }
    if s.schedules[id].cadence == Once && UsesCurrent(s, op, id) {
      OnceBlocks(s, op, id);
    }
  }

  lemma OnceBlocks(s: State, op: Op, id: Id)
    requires Safe(s) && SlotsPast(s) && Enabled(s, op) && id in s.schedules
    requires s.schedules[id].cadence == Once && UsesCurrent(s, op, id)
    ensures Blocked(Step(s, op), id)
  {
    var r :| Uses(s, op, r) && Holds(s.rows[r], id, s.schedules[id].nextRunAt);
    ScheduleStep(s, op, id);
    UseIsUsed(s, op, r);
    UseMoves(s, op, r);
  }

  lemma EditBlocks(s: State, op: Op)
    requires Safe(s) && op.Edit? && Enabled(s, op) && UsedSlot(s, op.schedule, op.nextRunAt)
    ensures Blocked(Step(s, op), op.schedule)
  {
    var r :| HasUsed(s, r) && Holds(s.rows[r], op.schedule, op.nextRunAt);
    assert HasUsed(Step(s, op), r);
  }

  lemma BlockedBy(s: State, op: Op, id: Id, r: Id)
    requires Safe(s) && SlotsPast(s) && Enabled(s, op) && id in s.schedules && !Blocked(s, id)
    requires id in Step(s, op).schedules && HasUsed(Step(s, op), r)
    requires Holds(Step(s, op).rows[r], id, Step(s, op).schedules[id].nextRunAt)
    ensures
      || (op.Edit? && op.schedule == id && HasUsed(s, r) && Holds(s.rows[r], id, op.nextRunAt))
      || (s.schedules[id].cadence == Once && Uses(s, op, r) && Holds(s.rows[r], id, s.schedules[id].nextRunAt))
  {
    ScheduleStep(s, op, id);
    UsedStep(s, op, r);
    if Uses(s, op, r) {
      UseMoves(s, op, r);
    }
  }

  /** A blocked slot cannot be claimed, however often a due check announces it. */
  lemma BlockedIsNotClaimed(s: State, id: Id, run: Id)
    requires AllWellformed(s) && id in s.schedules && Blocked(s, id)
    ensures !Enabled(s, Claim(run, Due(id, s.schedules[id].nextRunAt)))
  {
    var r :| HasUsed(s, r) && Holds(s.rows[r], id, s.schedules[id].nextRunAt);
  }

  // ---------------------------------------------------------------- what a dead run leaves behind

  /** The run claimed this slot and has no conversation. */
  predicate Unlinked(s: State, run: Id, due: Due) {
    && run in s.rows && run in s.processes && s.rows[run].conversation == None
    && s.processes[run].schedule == due.schedule && s.processes[run].slot == Some(due.slot)
    && due.slot <= s.now
  }

  lemma UnlinkedStep(s: State, op: Op, run: Id, due: Due)
    requires Safe(s) && Enabled(s, op) && Unlinked(s, run, due) && !(op.Link? && op.run == run)
    ensures Unlinked(Step(s, op), run, due)
  {
    assert Step(s, op).now >= s.now;
    if Subject(op) == Some(run) {
      SubjectStep(s, op, run);
      StaysUnlinked(s, op, run);
    } else {
      OthersUntouched(s, op, run);
    }
  }

  lemma StaysUnlinked(s: State, op: Op, run: Id)
    requires Safe(s) && Enabled(s, op) && Subject(op) == Some(run) && run in s.rows && s.rows[run].conversation == None
    requires !op.Link?
    ensures run in Step(s, op).rows && Step(s, op).rows[run].conversation == None
  {
  }

  ghost predicate NeverLinks(ops: seq<Op>, run: Id) {
    forall k :: 0 <= k < |ops| ==> !(ops[k].Link? && ops[k].run == run)
  }

  lemma {:induction false} UnlinkedAlways(s: State, ops: seq<Op>, run: Id, due: Due)
    requires Safe(s) && Possible(s, ops) && Unlinked(s, run, due) && NeverLinks(ops, run)
    ensures Safe(After(s, ops)) && Unlinked(After(s, ops), run, due)
    decreases |ops|
  {
    if ops != [] {
      assert !(ops[0].Link? && ops[0].run == run);
      SafeStep(s, ops[0]);
      UnlinkedStep(s, ops[0], run, due);
      UnlinkedAlways(Step(s, ops[0]), ops[1..], run, due);
    }
  }

  /** A poll that finds a schedule enabled, idle and not run recently announces its free current slot. */
  ghost predicate Announceable(s: State, due: Due, rerun: Id)
    requires AllWellformed(s)
  {
    && due.schedule in s.schedules && s.schedules[due.schedule].nextRunAt == due.slot <= s.now
    && !SlotTaken(s.rows, due.schedule, due.slot)
    && (Enabled(s, CheckDue(due.schedule)) <==>
        s.schedules[due.schedule].enabled && !HasActiveRun(s.rows, due.schedule))
    && (Enabled(s, CheckDue(due.schedule)) && rerun !in s.rows && rerun !in s.processes
        && !RanRecently(s.rows, due.schedule, FreshnessWindow(s.schedules[due.schedule].cadence), s.now) ==>
          Enabled(Step(s, CheckDue(due.schedule)), Claim(rerun, due)))
  }

  lemma FreeSlotIsAnnounceable(s: State, due: Due, rerun: Id)
    requires AllWellformed(s) && due.schedule in s.schedules && s.schedules[due.schedule].nextRunAt == due.slot <= s.now
    requires !SlotTaken(s.rows, due.schedule, due.slot)
    ensures Announceable(s, due, rerun)
  {
  }

  /** A run claims its schedule's current slot and dies before it links. Whatever else happens that does
      not move the schedule, after the reap the slot is free, still the current one and due; a poll that
      finds the schedule enabled, idle and not run recently announces it, and a new run can claim it. */
  lemma UnlinkedCrashLeavesSlotDue(s: State, run: Id, due: Due, ops: seq<Op>, rerun: Id)
    requires Safe(s) && SlotsPast(s) && Enabled(s, Claim(run, due)) && s.schedules[due.schedule].nextRunAt == due.slot
    requires Possible(Step(s, Claim(run, due)), ops) && NeverLinks(ops, run)
    requires !SomethingMoves(Step(s, Claim(run, due)), ops, due.schedule)
    requires Enabled(After(Step(s, Claim(run, due)), ops), Reap(run))
    ensures Announceable(Step(After(Step(s, Claim(run, due)), ops), Reap(run)), due, rerun)
  {
    var claimed := Step(s, Claim(run, due));
    SafeStep(s, Claim(run, due));
    assert Unlinked(claimed, run, due);
    UnlinkedAlways(claimed, ops, run, due);
    SlotIsConserved(claimed, ops, due.schedule);
    ReapFrees(After(claimed, ops), run, due);
    FreeSlotIsAnnounceable(Step(After(claimed, ops), Reap(run)), due, rerun);
  }

  lemma ReapFrees(s: State, run: Id, due: Due)
    requires Safe(s) && Unlinked(s, run, due) && Enabled(s, Reap(run))
    ensures Step(s, Reap(run)).schedules == s.schedules && Step(s, Reap(run)).now == s.now
    ensures !SlotTaken(Step(s, Reap(run)).rows, due.schedule, due.slot)
  {
    var t := Step(s, Reap(run));
    assert RunOk(s.rows[run], s.processes[run]);
    forall r | r in t.rows ensures !Holds(t.rows[r], due.schedule, due.slot) {
      assert r != run ==> t.rows[r] == s.rows[r];
    }
  }

  /** A run that died after it linked: the reap keeps its slot, moves its recurring
      schedule past it, and the run is settled for good. */
  lemma LinkedCrashConsumesSlot(s: State, run: Id)
    requires Safe(s) && OnTime(s) && Enabled(s, Reap(run))
    requires s.rows[run].conversation.Some? && s.rows[run].slot.Some? && s.processes[run].phase == Gone
    ensures var s', row := Step(s, Reap(run)), s.rows[run];
      && Settled(s', run)
      && s'.rows[run].slot == row.slot
      && (s.schedules[row.schedule].cadence != Once ==> row.slot.value < s'.schedules[row.schedule].nextRunAt)
  {
    OwnRowOnTime(s, Reap(run), run);
  }
}
