/** What the scheduler's steps make of a schedule and of a run's row, told on their fields and on the
    schedule's occurrences: how many occurrences count as missed, when a slot is consumed and where the
    schedule stands then, and what becomes of the slot a run holds. */
module SchedulerEffects {
  import opened Common
  import opened ScheduleTiming
  import opened Scheduler

  /** `passed` occurrences, from the current slot on, are at or before `now`, and `first` is the next one. */
  ghost predicate Passes(x: Schedule, now: Time, passed: nat, first: Time)
    requires Wellformed(x) && x.cadence != Once
  {
    && first == Occurrence(x.cadence, x.zone, x.nextRunAt, passed)
    && forall n: nat :: Occurrence(x.cadence, x.zone, x.nextRunAt, n) <= now <==> n < passed
  }

  lemma PassesMissed(x: Schedule, now: Time)
    requires Wellformed(x) && x.cadence != Once
    ensures Passes(x, now, Missed(x.cadence, x.zone, x.nextRunAt, now), NextFuture(x.cadence, x.zone, x.nextRunAt, now))
  {
    NextFutureIsOccurrence(x.cadence, x.zone, x.nextRunAt, now);
    forall n: nat
      ensures Occurrence(x.cadence, x.zone, x.nextRunAt, n) <= now <==>
              n < Missed(x.cadence, x.zone, x.nextRunAt, now)
    {
      MissedCountsOverdue(x.cadence, x.zone, x.nextRunAt, now, n);
    }
  }

  // ---------------------------------------------------------------- missed occurrences

  /** An enabled recurring schedule two or more of whose occurrences have come counts them all as missed and
      stands at the first one to come; an enabled one-off overdue by more than an hour counts as missed
      and is disabled; no other schedule changes. */
  ghost predicate Settles(x: Schedule, now: Time, y: Schedule)
    requires Wellformed(x)
  {
    if x.enabled && x.cadence != Once && Occurrence(x.cadence, x.zone, x.nextRunAt, 1) <= now then
      && x.missedRuns <= y.missedRuns
      && y == x.(missedRuns := y.missedRuns, nextRunAt := y.nextRunAt)
      && Passes(x, now, y.missedRuns - x.missedRuns, y.nextRunAt)
    else if x.enabled && x.cadence == Once && x.nextRunAt + 3600 < now then
      y == x.(missedRuns := x.missedRuns + 1, enabled := false)
    else
      y == x
  }

  lemma MissedSettled(x: Schedule, now: Time)
    requires Wellformed(x)
    ensures Settles(x, now, SettleMissed(x, now))
  {
    if x.cadence != Once {
      PassesMissed(x, now);
      assert Occurrence(x.cadence, x.zone, x.nextRunAt, 0) == x.nextRunAt;
    }
  }

  lemma HandleMissedSettles(s: State, id: Id)
    requires AllWellformed(s) && id in s.schedules
    ensures
      var t := Step(s, HandleMissed(id));
      && id in t.schedules && t == s.(schedules := s.schedules[id := t.schedules[id]])
      && Settles(s.schedules[id], s.now, t.schedules[id])
  {
    MissedSettled(s.schedules[id], s.now);
  }

  // ---------------------------------------------------------------- consumed slots

  /** The slot is consumed: a one-off is disabled, and a recurring schedule stands at its first
      occurrence to come. Nothing else about it changes. */
  ghost predicate Consumed(x: Schedule, now: Time, y: Schedule)
    requires Wellformed(x)
  {
    if x.cadence == Once then y == x.(enabled := false)
    else y == x.(nextRunAt := y.nextRunAt) && exists passed: nat :: Passes(x, now, passed, y.nextRunAt)
  }

  lemma AdvanceConsumes(x: Schedule, now: Time)
    requires Wellformed(x)
    ensures Consumed(x, now, Advance(x, now))
  {
    if x.cadence != Once {
      PassesMissed(x, now);
    }
  }

  /** A poll of a due schedule hands its slot to a run, unless a run of the schedule succeeded within the last
      half hour, for an hourly one, or hour, for any other; then the slot is consumed. */
  lemma DueIsPolledExactlyWhen(s: State, id: Id)
    requires AllWellformed(s) && Enabled(s, CheckDue(id))
    ensures
      var t := Step(s, CheckDue(id));
      var window := if s.schedules[id].cadence == Hourly then 1800 else 3600;
      if exists r ::
        && r in s.rows && s.rows[r].schedule == id && s.rows[r].status == Success
        && s.rows[r].finishedAt.Some? && s.now - s.rows[r].finishedAt.value < window
      then
        && id in t.schedules && t == s.(schedules := s.schedules[id := t.schedules[id]])
        && Consumed(s.schedules[id], s.now, t.schedules[id])
      else t == s.(polled := s.polled + multiset{Due(id, s.schedules[id].nextRunAt)})
  {
    AdvanceConsumes(s.schedules[id], s.now);
  }

  /** A turn's end clears the missed count if it succeeded, and consumes the slot unless the run was manual. The
      row keeps its slot, unless the process is cut before its last write. */
  lemma OutcomeEffect(s: State, op: Op)
    requires AllWellformed(s) && op.RecordOutcome? && Enabled(s, op)
    ensures
      var row, t := s.rows[op.run], Step(s, op);
      var x := s.schedules[row.schedule];
      var counted := x.(missedRuns := if op.status == Success then 0 else x.missedRuns);
      && row.schedule in t.schedules && op.run in t.processes
      && t == s.(schedules := s.schedules[row.schedule := t.schedules[row.schedule]],
                 processes := s.processes[op.run := t.processes[op.run]])
      && t.processes[op.run] == s.processes[op.run].(phase := t.processes[op.run].phase)
      && t.processes[op.run].phase ==
         (if op.cutAfter then Finishing(Some(Cut), Failed) else Finishing(None, op.status))
      && (row.manual ==> t.schedules[row.schedule] == counted)
      && (!row.manual ==> Consumed(counted, s.now, t.schedules[row.schedule]))
  {
    var row := s.rows[op.run];
    var x := s.schedules[row.schedule];
    AdvanceConsumes(x.(missedRuns := if op.status == Success then 0 else x.missedRuns), s.now);
  }

  /** Why a failed run gives its slot back: it was cut, the error could not be written, it was transient, or the
      schedule had been paused; each before or after the turn started. */
  predicate IsCause(c: Cause, started: bool, op: Op, consumes: bool)
    requires op.RecordError?
  {
    match c
    case Cut => consumes && started
    case CutBeforeTurn => consumes && !started
    case Unrecorded => !op.lands && started
    case UnrecordedBeforeTurn => !op.lands && !started
    case Transient => op.lands && op.transient
    case Paused => op.lands && !op.transient && !consumes && started
    case DisabledBeforeTurn => op.lands && !op.transient && !consumes && !started
    case _ => false
  }

  /** A failed run consumes its slot exactly if the error is written, is not transient, the run was not manual and
      the schedule is enabled still; otherwise the run will give its slot back. */
  lemma ErrorEffect(s: State, op: Op)
    requires AllWellformed(s) && op.RecordError? && Enabled(s, op)
    ensures
      var row, t := s.rows[op.run], Step(s, op);
      var x := s.schedules[row.schedule];
      var consumes := op.lands && !op.transient && !row.manual && x.enabled;
      && row.schedule in t.schedules && op.run in t.processes && t.processes[op.run].phase.Finishing?
      && t == s.(schedules := s.schedules[row.schedule := t.schedules[row.schedule]],
                 processes := s.processes[op.run := t.processes[op.run]])
      && t.processes[op.run] == s.processes[op.run].(phase := t.processes[op.run].phase)
      && t.processes[op.run].phase.status == Failed
      && (t.processes[op.run].phase.giveBack == None <==> consumes && !op.cutAfter)
      && (t.processes[op.run].phase.giveBack.Some? ==>
            IsCause(t.processes[op.run].phase.giveBack.value, s.processes[op.run].started, op, consumes))
      && if consumes then Consumed(x, s.now, t.schedules[row.schedule]) else t.schedules[row.schedule] == x
  {
    AdvanceConsumes(s.schedules[s.rows[op.run].schedule], s.now);
  }

  // ---------------------------------------------------------------- rows

  /** The row is closed: dated, without lease, and with its slot only if it keeps it. */
  predicate Closed(row: Row, status: Status, keeps: bool, now: Time, after: Row) {
    after == row.(status := status, leaseExpiresAt := None, finishedAt := Some(now),
                  slot := if keeps then row.slot else None)
  }

  /** The last write of a run closes its row with its status, and keeps the slot unless there is a
      cause to give it back. */
  lemma FinishCloses(s: State, op: Op)
    requires AllWellformed(s) && op.Finish? && Enabled(s, op)
    ensures
      var t, p := Step(s, op), s.processes[op.run];
      && op.run in t.rows && op.run in t.processes
      && t == s.(rows := s.rows[op.run := t.rows[op.run]], processes := s.processes[op.run := t.processes[op.run]])
      && Closed(s.rows[op.run], p.phase.status, p.phase.giveBack == None, s.now, t.rows[op.run])
      && t.processes[op.run].phase == Gone
      && t.processes[op.run].gaveBack ==
         (if p.phase.giveBack.Some? && p.slot.Some? && p.gaveBack == None then p.phase.giveBack else p.gaveBack)
  {
  }

  /** Reaping a lapsed row closes it as failed. A row with a conversation keeps its slot, and consumes it if the
      schedule stands at it; a row without gives its slot back, and the schedule stays as it is. */
  lemma ReapCloses(s: State, op: Op)
    requires AllWellformed(s) && op.Reap? && Enabled(s, op)
    ensures
      var row, t := s.rows[op.run], Step(s, op);
      var x := s.schedules[row.schedule];
      && op.run in t.rows && row.schedule in t.schedules
      && t == s.(rows := s.rows[op.run := t.rows[op.run]], processes := t.processes,
                 schedules := s.schedules[row.schedule := t.schedules[row.schedule]])
      && Closed(row, Failed, row.conversation.Some?, s.now, t.rows[op.run])
      && if row.conversation.Some? && !row.manual && row.slot == Some(x.nextRunAt)
         then Consumed(x, s.now, t.schedules[row.schedule]) else t.schedules[row.schedule] == x
  {
    AdvanceConsumes(s.schedules[s.rows[op.run].schedule], s.now);
  }

  /** A booting server closes a running row as failed and frees its slot, conversation or not. */
  lemma BootReapCloses(s: State, op: Op)
    requires AllWellformed(s) && op.BootReap? && Enabled(s, op)
    ensures
      var t := Step(s, op);
      && op.run in t.rows && t == s.(rows := s.rows[op.run := t.rows[op.run]], processes := t.processes)
      && Closed(s.rows[op.run], Failed, false, s.now, t.rows[op.run])
  {
  }

  /** A claimed or manual run starts as a running row leased for two minutes, and a renewal leases it for two more. */
  lemma RunIsLeased(s: State, op: Op)
    requires AllWellformed(s) && (op.Claim? || op.RunNow? || op.Renew?) && Enabled(s, op)
    ensures
      var t := Step(s, op);
      && op.run in t.rows && t.rows[op.run].status == Running
      && t.rows[op.run].leaseExpiresAt == Some(s.now + 120)
      && t.schedules == s.schedules
      && (op.Renew? ==> t == s.(rows := s.rows[op.run := s.rows[op.run].(leaseExpiresAt := Some(s.now + 120))]))
      && (!op.Renew? ==>
            && t.rows[op.run].conversation == None && t.rows[op.run].finishedAt == None
            && t.processes[op.run].phase == Claimed && !t.processes[op.run].started)
      && (op.Claim? ==>
            && t.rows[op.run].schedule == op.due.schedule && t.rows[op.run].slot == Some(op.due.slot)
            && !t.rows[op.run].manual && t.polled == s.polled - multiset{op.due})
      && (op.RunNow? ==>
            && t.rows[op.run].schedule == op.schedule && t.rows[op.run].slot == None
            && t.rows[op.run].manual && t.polled == s.polled)
  {
  }

  /** Deleting a conversation takes it off the rows that name it, and changes nothing else. */
  lemma ConversationForgotten(s: State, c: Id)
    requires AllWellformed(s)
    ensures
      var t := Step(s, DeleteConversation(c));
      && t == s.(rows := t.rows) && t.rows.Keys == s.rows.Keys
      && forall r :: r in s.rows ==>
           && t.rows[r] == s.rows[r].(conversation := t.rows[r].conversation)
           && t.rows[r].conversation == (if s.rows[r].conversation == Some(c) then None else s.rows[r].conversation)
  {
  }

  /** The row has no lease any more, or one up to `until` at least. */
  predicate LeasedUpTo(s: State, r: Id, until: Time) {
    r in s.rows && (s.rows[r].leaseExpiresAt.Some? ==> until <= s.rows[r].leaseExpiresAt.value)
  }

  lemma LeasedUpToStep(s: State, op: Op, r: Id, until: Time)
    requires AllWellformed(s) && Enabled(s, op) && LeasedUpTo(s, r, until) && until <= s.now + 120
    ensures LeasedUpTo(Step(s, op), r, until) && s.now <= Step(s, op).now
  {
    if op.Reap? {
      ReapCloses(s, op);
    } else if op.Finish? {
      FinishCloses(s, op);
    } else if op.RecordOutcome? {
      OutcomeEffect(s, op);
    } else if op.RecordError? {
      ErrorEffect(s, op);
    }
  }

  lemma {:induction false} LeasedUpToAlways(s: State, ops: seq<Op>, r: Id, until: Time)
    requires AllWellformed(s) && Possible(s, ops) && LeasedUpTo(s, r, until) && until <= s.now + 120
    ensures LeasedUpTo(After(s, ops), r, until)
    decreases |ops|
  {
    if ops != [] {
      LeasedUpToStep(s, ops[0], r, until);
      LeasedUpToAlways(Step(s, ops[0]), ops[1..], r, until);
    }
  }

  /** A run that is claimed, started by hand or renewed is not reaped, whatever happens, for two minutes from then. */
  lemma RenewedIsNotReaped(s: State, op: Op, ops: seq<Op>)
    requires AllWellformed(s) && (op.Claim? || op.RunNow? || op.Renew?) && Enabled(s, op)
    requires Possible(Step(s, op), ops) && After(Step(s, op), ops).now <= s.now + 120
    ensures !Enabled(After(Step(s, op), ops), Reap(op.run))
  {
    RunIsLeased(s, op);
    LeasedUpToAlways(Step(s, op), ops, op.run, s.now + 120);
  }

  // ---------------------------------------------------------------- the missed count over a run

  /** The schedule's missed count changes in no other way than these: a success clears it, and settling adds the
      occurrences that have come, or one for a one-off. */
  lemma MissedCountMoves(s: State, op: Op, id: Id)
    requires AllWellformed(s) && Enabled(s, op) && id in s.schedules
    ensures
      var t := Step(s, op);
      && id in t.schedules
      && (t.schedules[id].missedRuns < s.schedules[id].missedRuns ==>
            && op.RecordOutcome? && op.status == Success && s.rows[op.run].schedule == id
            && t.schedules[id].missedRuns == 0)
      && (s.schedules[id].missedRuns < t.schedules[id].missedRuns ==>
            op == HandleMissed(id) && s.schedules[id].enabled && s.schedules[id].nextRunAt < s.now)
  {
    if op.RecordOutcome? {
      OutcomeEffect(s, op);
    } else if op.RecordError? {
      ErrorEffect(s, op);
    } else if op.Reap? {
      ReapCloses(s, op);
    } else if op.CheckDue? {
      DueIsPolledExactlyWhen(s, op.schedule);
    } else if op.HandleMissed? {
      HandleMissedSettles(s, op.schedule);
    } else {
      CountUntouched(s, op, id);
    }
  }

  lemma CountUntouched(s: State, op: Op, id: Id)
    requires AllWellformed(s) && Enabled(s, op) && id in s.schedules
    requires !op.RecordOutcome? && !op.RecordError? && !op.Reap? && !op.CheckDue? && !op.HandleMissed?
    ensures id in Step(s, op).schedules && Step(s, op).schedules[id].missedRuns == s.schedules[id].missedRuns
  {
  }
}
