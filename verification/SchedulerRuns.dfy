/** Where the promise of one turn per slot gives way: runs of the system, from its start, in which a
    slot's turn starts twice, a skipped slot runs, and a due slot is dropped. */
module SchedulerRuns {
  import opened Common
  import opened ScheduleTiming
  import opened Scheduler
  import opened SchedulerSafety
  import opened SchedulerConservation
  import opened SchedulerReruns

  // ---------------------------------------------------------------- each cause happens

  const SCHEDULE: Id := "schedule"
  const RUN: Id := "run"
  const CONVERSATION: Id := "conversation"

  function Hour(z: Zone): Schedule {
    Schedule(Hourly, z, 0, true, 0)
  }

  /** A run in its turn for the first slot of an hourly schedule. */
  function UnderWay(z: Zone): State {
    State(0, map[SCHEDULE := Hour(z)],
          map[RUN := Row(SCHEDULE, false, Running, Some(0), Some(RUN_LEASE), Some(CONVERSATION), None)],
          map[RUN := Process(SCHEDULE, Some(0), InTurn, true, None)], multiset{}, [RUN])
  }

  lemma HourlyIsWellformed(z: Zone)
    ensures Wellformed(Hour(z))
  {
    HourlyMissed(z, 0, 0);
  }

  lemma Announces(z: Zone) returns (ops: seq<Op>)
    ensures AllWellformed(START) && Possible(START, ops) && Regular(START, ops)
    ensures After(START, ops) == State(0, map[SCHEDULE := Hour(z)], map[], map[], multiset{Due(SCHEDULE, 0)}, [])
  {
    HourlyIsWellformed(z);
    var s1 := Step(START, AddSchedule(SCHEDULE, Hour(z)));
    RegularChain(s1, CheckDue(SCHEDULE), []);
    RegularChain(START, AddSchedule(SCHEDULE, Hour(z)), [CheckDue(SCHEDULE)] + []);
    ops := [AddSchedule(SCHEDULE, Hour(z))] + ([CheckDue(SCHEDULE)] + []);
  }

  lemma FirstClaim(z: Zone) returns (ops: seq<Op>)
    ensures
      var s := State(0, map[SCHEDULE := Hour(z)], map[], map[], multiset{Due(SCHEDULE, 0)}, []);
      && AllWellformed(s) && Possible(s, ops) && Regular(s, ops)
      && After(s, ops) == UnderWay(z)
         .(rows := map[RUN := NewRow(SCHEDULE, Some(0), 0)], starts := [],
           processes := map[RUN := Process(SCHEDULE, Some(0), Claimed, false, None)])
  {
    HourlyIsWellformed(z);
    var s := State(0, map[SCHEDULE := Hour(z)], map[], map[], multiset{Due(SCHEDULE, 0)}, []);
    RegularChain(s, Claim(RUN, Due(SCHEDULE, 0)), []);
    ops := [Claim(RUN, Due(SCHEDULE, 0))] + [];
  }

  lemma FirstTurn(s: State, z: Zone) returns (ops: seq<Op>)
    requires s == UnderWay(z)
      .(rows := map[RUN := NewRow(SCHEDULE, Some(0), 0)], starts := [],
        processes := map[RUN := Process(SCHEDULE, Some(0), Claimed, false, None)])
    ensures AllWellformed(s) && Possible(s, ops) && Regular(s, ops) && After(s, ops) == UnderWay(z)
  {
    HourlyIsWellformed(z);
    var linked := Step(s, Link(RUN, Some(CONVERSATION)));
    assert Step(linked, StartTurn(RUN)) == UnderWay(z);
    RegularChain(linked, StartTurn(RUN), []);
    RegularChain(s, Link(RUN, Some(CONVERSATION)), [StartTurn(RUN)] + []);
    ops := [Link(RUN, Some(CONVERSATION))] + ([StartTurn(RUN)] + []);
  }

  lemma TurnStarts(z: Zone) returns (ops: seq<Op>)
    ensures AllWellformed(START) && Possible(START, ops) && Regular(START, ops) && After(START, ops) == UnderWay(z)
  {
    ops := Announces(z);
    var more := FirstClaim(z);
    RegularAppend(START, ops, more);
    ops := ops + more;
    more := FirstTurn(After(START, ops), z);
    RegularAppend(START, ops, more);
    ops := ops + more;
  }

  /** It is the first hour, and the schedule stands at its first slot. */
  predicate AtFirstSlot(s: State) {
    && 0 <= s.now < HOUR && SCHEDULE in s.schedules
    && s.schedules[SCHEDULE].cadence == Hourly && s.schedules[SCHEDULE].nextRunAt == 0
  }

  /** The run's turn had started, and it gave its slot back for this cause. */
  ghost predicate GaveBack(s: State, cause: Cause) {
    && RUN in s.processes && s.processes[RUN] == Process(SCHEDULE, Some(0), Gone, true, Some(cause))
    && s.rows.Keys == {RUN} && s.processes.Keys == {RUN} && s.rows[RUN].slot == None && s.starts == [RUN]
    && s.rows[RUN].status == Failed && AtFirstSlot(s)
  }

  ghost predicate GivesBackBy(z: Zone, ops: seq<Op>, cause: Cause) {
    && AllWellformed(UnderWay(z)) && Possible(UnderWay(z), ops) && Regular(UnderWay(z), ops)
    && GaveBack(After(UnderWay(z), ops), cause)
  }

  /** One operation of the run's process, and its finish. */
  lemma EndsAndFinishes(s: State, op: Op, cause: Cause) returns (ops: seq<Op>)
    requires AllWellformed(s) && Enabled(s, op) && RegularOp(s, op) && AtFirstSlot(Step(s, op))
    requires Step(s, op).rows.Keys == {RUN} && Step(s, op).starts == [RUN]
    requires Step(s, op).processes == map[RUN := Process(SCHEDULE, Some(0), Finishing(Some(cause), Failed), true, None)]
    ensures Possible(s, ops) && Regular(s, ops) && GaveBack(After(s, ops), cause)
  {
    RegularChain(Step(s, op), Finish(RUN), []);
    RegularChain(s, op, [Finish(RUN)] + []);
    ops := [op] + ([Finish(RUN)] + []);
  }

  lemma RefusedRun(z: Zone) returns (ops: seq<Op>)
    ensures GivesBackBy(z, ops, Refused)
  {
    HourlyIsWellformed(z);
    ops := EndsAndFinishes(UnderWay(z), RefuseTurn(RUN), Refused);
  }

  lemma CutRun(z: Zone) returns (ops: seq<Op>)
    ensures GivesBackBy(z, ops, Cut)
  {
    HourlyIsWellformed(z);
    ops := EndsAndFinishes(UnderWay(z), Cancel(RUN), Cut);
  }

  lemma UnrecordedRun(z: Zone) returns (ops: seq<Op>)
    ensures GivesBackBy(z, ops, Unrecorded)
  {
    HourlyIsWellformed(z);
    ops := EndsAndFinishes(UnderWay(z), RecordError(RUN, false, false, false), Unrecorded);
  }

  lemma PausedRun(z: Zone) returns (ops: seq<Op>)
    ensures GivesBackBy(z, ops, Paused)
  {
    HourlyIsWellformed(z);
    var s := Step(UnderWay(z), Pause(SCHEDULE));
    ops := EndsAndFinishes(s, RecordError(RUN, false, true, false), Paused);
    RegularChain(UnderWay(z), Pause(SCHEDULE), ops);
    ops := [Pause(SCHEDULE)] + ops;
  }

  lemma BootReapedRun(z: Zone) returns (ops: seq<Op>)
    ensures GivesBackBy(z, ops, BootReaped)
  {
    HourlyIsWellformed(z);
    var s := Step(UnderWay(z), Crash(RUN));
    RegularChain(s, BootReap(RUN), []);
    RegularChain(UnderWay(z), Crash(RUN), [BootReap(RUN)] + []);
    ops := [Crash(RUN)] + ([BootReap(RUN)] + []);
  }

  lemma ConversationDeletedRun(z: Zone) returns (ops: seq<Op>)
    ensures GivesBackBy(z, ops, ConversationDeleted)
  {
    HourlyIsWellformed(z);
    var s1 := Step(UnderWay(z), DeleteConversation(CONVERSATION));
    assert s1.rows[RUN].conversation == None;
    var s2 := Step(s1, Crash(RUN));
    ops := DeadRunIsReaped(s2);
    RegularChain(s1, Crash(RUN), ops);
    ops := [Crash(RUN)] + ops;
    RegularChain(UnderWay(z), DeleteConversation(CONVERSATION), ops);
    ops := [DeleteConversation(CONVERSATION)] + ops;
  }

  /** A dead run without a conversation is reaped when its lease has lapsed. */
  lemma DeadRunIsReaped(s: State) returns (ops: seq<Op>)
    requires AllWellformed(s) && s.now == 0 && s.rows.Keys == {RUN} && AtFirstSlot(s) && s.starts == [RUN]
    requires s.rows[RUN] == Row(SCHEDULE, false, Running, Some(0), Some(RUN_LEASE), None, None)
    requires s.processes == map[RUN := Process(SCHEDULE, Some(0), Gone, true, None)]
    ensures Possible(s, ops) && Regular(s, ops) && GaveBack(After(s, ops), ConversationDeleted)
  {
    var later := Step(s, Tick(RUN_LEASE + 1));
    RegularChain(later, Reap(RUN), []);
    RegularChain(s, Tick(RUN_LEASE + 1), [Reap(RUN)] + []);
    ops := [Tick(RUN_LEASE + 1)] + ([Reap(RUN)] + []);
  }

  lemma GivesBackFor(z: Zone, cause: Cause) returns (ops: seq<Op>)
    requires cause in {Refused, Cut, Paused, Unrecorded, ConversationDeleted, BootReaped}
    ensures GivesBackBy(z, ops, cause)
  {
    match cause {
      case Refused => ops := RefusedRun(z);
      case Cut => ops := CutRun(z);
      case Paused => ops := PausedRun(z);
      case Unrecorded => ops := UnrecordedRun(z);
      case ConversationDeleted => ops := ConversationDeletedRun(z);
      case BootReaped => ops := BootReapedRun(z);
    }
  }

  lemma ReachesGivenBack(z: Zone, cause: Cause) returns (ops: seq<Op>)
    requires cause in {Refused, Cut, Paused, Unrecorded, ConversationDeleted, BootReaped}
    ensures AllWellformed(START) && Possible(START, ops) && Regular(START, ops)
    ensures Safe(After(START, ops)) && GaveBack(After(START, ops), cause)
  {
    ops := TurnStarts(z);
    var gives := GivesBackFor(z, cause);
    RegularAppend(START, ops, gives);
    ops := ops + gives;
    StartIsSafe();
    SafeAlways(START, ops);
  }

  /** For each of the six causes there is a run of the system, in which polls announce the slot twice and
      nobody edits the schedule, in which a slot's turn starts twice, after the first run gave the slot
      back for that cause. */
  lemma EachCauseRunsTwice(z: Zone, cause: Cause, rerun: Id) returns (ops: seq<Op>)
    requires cause in {Refused, Cut, Paused, Unrecorded, ConversationDeleted, BootReaped} && rerun != RUN
    ensures AllWellformed(START) && Possible(START, ops) && Regular(START, ops)
    ensures
      var t := After(START, ops);
      && t.starts == [RUN, rerun] && RUN in t.processes && rerun in t.processes
      && SameSlot(t.processes[RUN], t.processes[rerun]) && t.processes[RUN].gaveBack == Some(cause)
  {
    ops := ReachesGivenBack(z, cause);
    GivenBackCanRun(After(START, ops), cause);
    var more := ReachableSlotRuns(After(START, ops), Due(SCHEDULE, 0), rerun, CONVERSATION);
    RegularAppend(START, ops, more);
    ops := ops + more;
  }

  lemma GivenBackCanRun(s: State, cause: Cause)
    requires AllWellformed(s) && GaveBack(s, cause)
    ensures Reachable(s, Due(SCHEDULE, 0)) && !SlotTaken(s.rows, SCHEDULE, 0)
  {
  }

  // ---------------------------------------------------------------- a skipped slot runs

  const MANUAL: Id := "manual"

  /** A poll has announced the slot, and then a manual run succeeded. */
  function Succeeded(z: Zone): State {
    State(0, map[SCHEDULE := Hour(z)],
          map[MANUAL := Row(SCHEDULE, true, Success, None, None, Some(CONVERSATION), Some(0))],
          map[MANUAL := Process(SCHEDULE, None, Gone, true, None)], multiset{Due(SCHEDULE, 0)}, [MANUAL])
  }

  /** A poll has announced the slot. */
  function Polled(z: Zone): State {
    State(0, map[SCHEDULE := Hour(z)], map[], map[], multiset{Due(SCHEDULE, 0)}, [])
  }

  /** The manual run is in its turn. */
  function ManualTurn(z: Zone): State {
    State(0, map[SCHEDULE := Hour(z)],
          map[MANUAL := Row(SCHEDULE, true, Running, None, Some(RUN_LEASE), Some(CONVERSATION), None)],
          map[MANUAL := Process(SCHEDULE, None, InTurn, true, None)], multiset{Due(SCHEDULE, 0)}, [MANUAL])
  }

  lemma ManualRunStarts(z: Zone) returns (ops: seq<Op>)
    ensures AllWellformed(Polled(z)) && Possible(Polled(z), ops) && Regular(Polled(z), ops)
    ensures After(Polled(z), ops) == ManualTurn(z)
  {
    HourlyIsWellformed(z);
    var s1 := Step(Polled(z), RunNow(MANUAL, SCHEDULE));
    var s2 := Step(s1, Link(MANUAL, Some(CONVERSATION)));
    assert Step(s2, StartTurn(MANUAL)) == ManualTurn(z);
    RegularChain(s2, StartTurn(MANUAL), []);
    ops := [StartTurn(MANUAL)] + [];
    RegularChain(s1, Link(MANUAL, Some(CONVERSATION)), ops);
    ops := [Link(MANUAL, Some(CONVERSATION))] + ops;
    RegularChain(Polled(z), RunNow(MANUAL, SCHEDULE), ops);
    ops := [RunNow(MANUAL, SCHEDULE)] + ops;
  }

  lemma ManualRunSucceeds(z: Zone) returns (ops: seq<Op>)
    ensures AllWellformed(START) && Possible(START, ops) && Regular(START, ops) && After(START, ops) == Succeeded(z)
  {
    ops := Announces(z);
    var more := ManualRunStarts(z);
    RegularAppend(START, ops, more);
    ops := ops + more;
    more := TurnSucceeds(ManualTurn(z), z);
    RegularAppend(START, ops, more);
    ops := ops + more;
  }

  lemma TurnSucceeds(s: State, z: Zone) returns (ops: seq<Op>)
    requires s == ManualTurn(z)
    ensures AllWellformed(s) && Possible(s, ops) && Regular(s, ops) && After(s, ops) == Succeeded(z)
  {
    HourlyIsWellformed(z);
    var s1 := Step(s, RecordOutcome(MANUAL, Success, false));
    assert s1.schedules == s.schedules;
    assert Step(s1, Finish(MANUAL)) == Succeeded(z);
    RegularChain(s1, Finish(MANUAL), []);
    RegularChain(s, RecordOutcome(MANUAL, Success, false), [Finish(MANUAL)] + []);
    ops := [RecordOutcome(MANUAL, Success, false)] + ([Finish(MANUAL)] + []);
  }

  /** A skipped slot leaves no row behind, so a run an earlier poll announced can still claim it: the
      freshness guard does not stop a poll that has already found the slot due. */
  lemma SkippedSlotIsStillClaimable(s: State, id: Id, run: Id)
    requires Safe(s) && Enabled(s, CheckDue(id)) && s.schedules[id].cadence != Once
    requires RanRecently(s.rows, id, FreshnessWindow(s.schedules[id].cadence), s.now)
    requires Due(id, s.schedules[id].nextRunAt) in s.polled
    requires !SlotTaken(s.rows, id, s.schedules[id].nextRunAt)
    requires run !in s.rows && run !in s.processes
    ensures var due, t := Due(id, s.schedules[id].nextRunAt), Step(s, CheckDue(id));
      due.slot < t.schedules[id].nextRunAt && Enabled(t, Claim(run, due))
  {
    AdvanceMovesForward(s.schedules[id], s.now);
  }

  /** There is a run of the system in which one poll skips a slot for a recent success, and the turn
      of that very slot starts afterwards. */
  lemma SkippedSlotRuns(z: Zone) returns (before: seq<Op>, more: seq<Op>)
    ensures AllWellformed(START) && Possible(START, before) && Regular(START, before)
    ensures Enabled(After(START, before), CheckDue(SCHEDULE))
    ensures
      var s := After(START, before);
      var skipped := Step(s, CheckDue(SCHEDULE));
      && s.schedules[SCHEDULE].nextRunAt == 0 < skipped.schedules[SCHEDULE].nextRunAt
      && Possible(skipped, more) && Regular(skipped, more)
      && RUN in After(skipped, more).processes && After(skipped, more).processes[RUN].slot == Some(0)
      && After(skipped, more).starts == s.starts + [RUN]
  {
    before := ManualRunSucceeds(z);
    var s := Succeeded(z);
    StartIsSafe();
    SafeAlways(START, before);
    assert RanRecently(s.rows, SCHEDULE, FreshnessWindow(Hourly), 0) by {
      assert s.rows[MANUAL].status == Success;
    }
    SkippedSlotIsStillClaimable(s, SCHEDULE, RUN);
    SafeStep(s, CheckDue(SCHEDULE));
    more := AnnouncedSlotRuns(Step(s, CheckDue(SCHEDULE)), Due(SCHEDULE, 0), RUN, CONVERSATION);
  }

  // ---------------------------------------------------------------- a due slot is dropped

  /** There is a run of the system in which the outcome of a run that took an hour moves its hourly
      schedule past the next slot, which is due and never claimed nor counted missed. */
  lemma LateOutcomeDropsASlot(z: Zone) returns (ops: seq<Op>)
    ensures AllWellformed(START) && Possible(START, ops) && Regular(START, ops)
    ensures
      var t := After(START, ops);
      && t.now == HOUR && SCHEDULE in t.schedules && t.schedules[SCHEDULE].nextRunAt == 2 * HOUR
      && t.schedules[SCHEDULE].missedRuns == 0 && Due(SCHEDULE, HOUR) !in t.polled
      && !SlotTaken(t.rows, SCHEDULE, HOUR)
  {
    HourlyIsWellformed(z);
    ops := TurnStarts(z);
    var s := UnderWay(z);
    OutcomeAfterAnHour(z);
    RegularChain(s.(now := HOUR), RecordOutcome(RUN, Success, false), []);
    RegularChain(s, Tick(HOUR), [RecordOutcome(RUN, Success, false)] + []);
    var more := [Tick(HOUR)] + ([RecordOutcome(RUN, Success, false)] + []);
    RegularAppend(START, ops, more);
    ops := ops + more;
  }

  lemma OutcomeAfterAnHour(z: Zone)
    ensures AllWellformed(UnderWay(z).(now := HOUR))
    ensures Enabled(UnderWay(z).(now := HOUR), RecordOutcome(RUN, Success, false))
    ensures
      var t := Step(UnderWay(z).(now := HOUR), RecordOutcome(RUN, Success, false));
      && t.now == HOUR && SCHEDULE in t.schedules && t.schedules[SCHEDULE].nextRunAt == 2 * HOUR
      && t.schedules[SCHEDULE].missedRuns == 0 && t.polled == UnderWay(z).polled && t.rows == UnderWay(z).rows
  {
    HourlyIsWellformed(z);
    HourlyMissed(z, 0, HOUR);
  }
}
