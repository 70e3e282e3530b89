/** The scheduler's database units as the code runs them, over the shared tables and the processes
    that use them: each unit does what its step of the state machine does, and each loop of a poll
    is a run of such steps whose effect on every row and schedule is stated at once. */
module SchedulerDatabase {
  import opened Common
  import opened ScheduleTiming
  import opened Scheduler
  import opened SchedulerSafety
  import opened SchedulerConservation
  import opened SchedulerReruns
  import SchedulerEffects

  /** What every reachable state of the system satisfies. */
  ghost predicate Sound(s: State) {
    Safe(s) && SlotsPast(s) && forall r :: r in s.rows ==> s.rows[r].schedule in s.schedules
  }

  /** `end` is reached from `start` by these operations. */
  ghost predicate Reaches(start: State, ops: seq<Op>, end: State) {
    AllWellformed(start) && Possible(start, ops) && After(start, ops) == end
  }

  lemma Extend(start: State, ops: seq<Op>, s: State, op: Op)
    requires Reaches(start, ops, s) && Enabled(s, op)
    ensures Reaches(start, ops + [op], Step(s, op))
  {
    assert [op][1..] == [];
    Append(start, ops, [op]);
  }

  lemma ReapEffect(s: State, run: Id)
    requires Sound(s) && Enabled(s, Reap(run))
    ensures
      var t := Step(s, Reap(run));
      && Sound(t) && t.now == s.now && t.rows == s.rows[run := ReapedRow(s.rows[run], s.now)]
      && t.schedules == ReapedSchedules(s.rows[run], s.schedules, s.now)
      && (forall r :: r in s.processes && r != run ==> r in t.processes && t.processes[r] == s.processes[r])
  {
    SafeStep(s, Reap(run));
    SlotsPastStep(s, Reap(run));
  }

  /** The standing assumption: a run whose lease lapsed is not between its link and the end of its turn. */
  ghost predicate LapsedAreDead(s: State) {
    forall r :: r in s.rows && Lapsed(s.rows[r], s.now) ==>
        r in s.processes && s.processes[r].phase !in {Linked, InTurn}
  }

  /** Of the rows `done` exactly the lapsed ones are reaped, and exactly the schedules still at a slot
      one of those keeps have moved on. */
  ghost predicate DataSwept(start: State, s: State, done: set<Id>)
    requires AllWellformed(start)
  {
    && s.now == start.now && s.rows.Keys == start.rows.Keys && s.schedules.Keys == start.schedules.Keys
    && RowsReaped(start.rows, s.rows, done, s.now)
    && SchedulesReaped(start.rows, start.schedules, s.schedules, done, s.now)
  }

  ghost predicate RestAreDead(s: State, done: set<Id>) {
    forall r :: r in s.rows && r !in done && Lapsed(s.rows[r], s.now) ==>
        r in s.processes && s.processes[r].phase !in {Linked, InTurn}
  }

  ghost predicate AllReaps(ops: seq<Op>) {
    forall k :: 0 <= k < |ops| ==> ops[k].Reap?
  }

  /** The sweep over the rows `done` is a run of reaps, and has reaped just what it should. */
  ghost predicate Swept(start: State, s: State, done: set<Id>, ops: seq<Op>) {
    Sound(s) && Reaches(start, ops, s) && AllReaps(ops) && RestAreDead(s, done) && DataSwept(start, s, done)
  }

  /** The sweep with these rows still to come. */
  ghost predicate Sweeping(start: State, s: State, todo: set<Id>, ops: seq<Op>) {
    todo <= s.rows.Keys && Swept(start, s, s.rows.Keys - todo, ops)
  }

  lemma SweepStarts(s: State)
    requires Sound(s) && LapsedAreDead(s)
    ensures Sweeping(s, s, s.rows.Keys, [])
  {
    assert s.rows.Keys - s.rows.Keys == {};
  }

  lemma OneLess(keys: set<Id>, todo: set<Id>, run: Id)
    requires run in todo && todo <= keys
    ensures keys - (todo - {run}) == keys - todo + {run} && todo - {run} <= keys
  {
  }

  lemma SweepEnds(start: State, s: State, ops: seq<Op>)
    requires Sweeping(start, s, {}, ops)
    ensures Swept(start, s, start.rows.Keys, ops)
  {
    assert s.rows.Keys - {} == s.rows.Keys;
  }

  lemma SweepSkips(start: State, s: State, done: set<Id>, r: Id, ops: seq<Op>)
    requires Sound(start) && Swept(start, s, done, ops) && r in s.rows && r !in done && !Lapsed(s.rows[r], s.now)
    ensures Swept(start, s, done + {r}, ops)
  {
    ReapNext(start.rows, s.rows, start.schedules, s.schedules, done, r, s.now);
  }

  /** What the reap of one more row makes of the sweep. */
  lemma SweepReaps(start: State, s: State, t: State, done: set<Id>, r: Id)
    requires Sound(start) && DataSwept(start, s, done) && r in s.rows && r !in done && Lapsed(s.rows[r], s.now)
    requires s.rows[r].schedule in s.schedules && Wellformed(s.schedules[s.rows[r].schedule])
    requires t.now == s.now && t.rows == s.rows[r := ReapedRow(s.rows[r], s.now)]
    requires t.schedules == ReapedSchedules(s.rows[r], s.schedules, s.now)
    ensures DataSwept(start, t, done + {r})
  {
    ReapNext(start.rows, s.rows, start.schedules, s.schedules, done, r, s.now);
  }

  lemma RestStayDead(s: State, t: State, done: set<Id>, r: Id)
    requires RestAreDead(s, done) && r in s.rows && t.now == s.now && t.rows == s.rows[r := ReapedRow(s.rows[r], s.now)]
    requires forall q :: q in s.processes && q != r ==> q in t.processes && t.processes[q] == s.processes[q]
    ensures RestAreDead(t, done + {r})
  {
  }

  lemma MoreReaps(ops: seq<Op>, r: Id)
    requires AllReaps(ops)
    ensures AllReaps(ops + [Reap(r)])
  {
  }

  lemma KnownSchedule(s: State, r: Id)
    requires Sound(s) && r in s.rows
    ensures s.rows[r].schedule in s.schedules && Wellformed(s.schedules[s.rows[r].schedule])
  {
  }

  lemma SweepNext(start: State, s: State, done: set<Id>, r: Id, ops: seq<Op>)
    requires Sound(start) && Swept(start, s, done, ops) && r in s.rows && r !in done && Lapsed(s.rows[r], s.now)
    ensures Enabled(s, Reap(r)) && Swept(start, Step(s, Reap(r)), done + {r}, ops + [Reap(r)])
  {
    ReapPossible(s, r);
    ReapEffect(s, r);
    Extend(start, ops, s, Reap(r));
    KnownSchedule(s, r);
    SweepReaps(start, s, Step(s, Reap(r)), done, r);
    RestStayDead(s, Step(s, Reap(r)), done, r);
    MoreReaps(ops, r);
  }

  lemma ReapPossible(s: State, run: Id)
    requires Sound(s) && run in s.rows && Lapsed(s.rows[run], s.now) && run in s.processes
    requires s.processes[run].phase !in {Linked, InTurn}
    ensures Enabled(s, Reap(run))
  {
  }

  class Database {
    var now: Time
    var schedules: map<Id, Schedule>
    var rows: map<Id, Row>
    var processes: map<Id, Process>
    var polled: multiset<Due>
    ghost var starts: seq<Id>

    ghost function View(): State
      reads this
    {
      State(now, schedules, rows, processes, polled, starts)
    }

    ghost predicate Valid()
      reads this
    {
      Sound(View())
    }

    /** Whether some row names the slot. */
    method Taken(due: Due) returns (taken: bool)
      ensures taken <==> SlotTaken(rows, due.schedule, due.slot)
    {
      var todo := rows.Keys;
      while todo != {}
        invariant todo <= rows.Keys
        invariant forall r :: r in rows.Keys - todo ==> !Holds(rows[r], due.schedule, due.slot)
        decreases todo
      {
        var r :| r in todo;
        if Holds(rows[r], due.schedule, due.slot) {
          return true;
        }
        todo := todo - {r};
      }
      return false;
    }

    /** Insert a run that names a slot: the claim, refused when some row names it already. Either way the
        announcement is spent. */
    method CreateRun(run: Id, due: Due) returns (claimed: bool)
      requires Valid() && run !in rows && run !in processes && due in polled && due.schedule in schedules
      modifies this
      ensures claimed <==> Enabled(old(View()), Claim(run, due))
      ensures View() == Step(old(View()), if claimed then Claim(run, due) else Discard(due))
    {
      var taken := Taken(due);
      if taken {
        Spend(due);
      } else {
        Insert(run, due);
      }
      claimed := !taken;
    }

    method Insert(run: Id, due: Due)
      requires AllWellformed(View()) && Enabled(View(), Claim(run, due))
      modifies this
      ensures View() == Step(old(View()), Claim(run, due))
    {
      polled := polled - multiset{due};
      rows := rows[run := NewRow(due.schedule, Some(due.slot), now)];
      processes := processes[run := Process(due.schedule, Some(due.slot), Claimed, false, None)];
    }

    method Spend(due: Due)
      requires AllWellformed(View()) && Enabled(View(), Discard(due))
      modifies this
      ensures View() == Step(old(View()), Discard(due))
    {
      polled := polled - multiset{due};
    }

    /** Attach the conversation; a run that is no longer running has lost its claim. */
    method LinkConversation(run: Id, conversation: Option<Id>) returns (held: bool)
      requires AllWellformed(View()) && Enabled(View(), Link(run, conversation))
      modifies this
      ensures View() == Step(old(View()), Link(run, conversation))
      ensures held <==> processes[run].phase == Linked
    {
      held := rows[run].status == Running;
      if held {
        rows := rows[run := rows[run].(conversation := conversation)];
        processes := processes[run := processes[run].(phase := Linked)];
      } else {
        processes := processes[run := processes[run].(phase := Finishing(Some(ClaimLost), Failed))];
      }
    }

    /** Record how a turn ended: a cron turn always consumes its slot. */
    method RecordTurnOutcome(run: Id, status: Status)
      requires AllWellformed(View()) && Enabled(View(), RecordOutcome(run, status, false))
      modifies this
      ensures View() == Step(old(View()), RecordOutcome(run, status, false))
      ensures !rows[run].manual && schedules[rows[run].schedule].cadence != Once ==>
        now < schedules[rows[run].schedule].nextRunAt
    {
      var id := rows[run].schedule;
      var schedule := schedules[id];
      if status == Success {
        schedule := schedule.(missedRuns := 0);
      }
      if !rows[run].manual {
        AdvanceMovesForward(schedule, now);
        schedule := Advance(schedule, now);
      }
      schedules := schedules[id := schedule];
      processes := processes[run := processes[run].(phase := Finishing(None, status))];
    }

    /** Record an error; a transient one, or one on a disabled schedule, leaves the slot due. */
    method RecordScheduleError(run: Id, transient: bool) returns (consumed: bool)
      requires AllWellformed(View()) && Enabled(View(), RecordError(run, transient, true, false))
      modifies this
      ensures View() == Step(old(View()), RecordError(run, transient, true, false))
      ensures consumed <==> processes[run].phase == Finishing(None, Failed)
    {
      var id := rows[run].schedule;
      consumed := !rows[run].manual && !transient && schedules[id].enabled;
      if consumed {
        schedules := schedules[id := Advance(schedules[id], now)];
        processes := processes[run := processes[run].(phase := Finishing(None, Failed))];
      } else {
        var cause := if transient then Transient else if processes[run].started then Paused else DisabledBeforeTurn;
        processes := processes[run := processes[run].(phase := Finishing(Some(cause), Failed))];
      }
    }

    /** Finish the row; a slot that was not consumed is given back. */
    method FinishRun(run: Id)
      requires Valid() && Enabled(View(), Finish(run))
      modifies this
      ensures View() == Step(old(View()), Finish(run))
      ensures rows[run].status != Running
    {
      assert RunOk(rows[run], processes[run]);
      WriteFinish(run);
    }

    method WriteFinish(run: Id)
      requires AllWellformed(View()) && Enabled(View(), Finish(run))
      modifies this
      ensures View() == Step(old(View()), Finish(run)) && run in rows
      ensures rows[run].status == old(processes[run]).phase.status
    {
      var p := processes[run];
      var release := p.phase.giveBack.Some?;
      rows := rows[run := FinishedRow(rows[run], p.phase.status, release, now)];
      var gone := p.(phase := Gone);
      processes := processes[run := if release then GiveBack(gone, p.phase.giveBack.value) else gone];
    }

    /** Reap one lapsed run: without a conversation it gives its slot back, otherwise it keeps it, and
        its schedule moves on if that slot is its current one. */
    method ReapRow(run: Id)
      requires AllWellformed(View()) && Enabled(View(), Reap(run))
      modifies this
      ensures View() == Step(old(View()), Reap(run))
    {
      var row := rows[run];
      if ReapConsumes(row, schedules[row.schedule]) {
        schedules := schedules[row.schedule := Advance(schedules[row.schedule], now)];
      }
      if row.conversation == None {
        var cause := if processes[run].started then ConversationDeleted else Unlinked;
        processes := processes[run := GiveBack(processes[run], cause)];
      }
      rows := rows[run := ReapedRow(row, now)];
    }

    /** One row of the sweep. */
    method SweepRow(run: Id, ghost start: State, ghost done: set<Id>, ghost before: seq<Op>)
      returns (ghost ops: seq<Op>)
      requires Sound(start) && Swept(start, View(), done, before) && run in rows && run !in done
      modifies this
      ensures Swept(start, View(), done + {run}, ops) && rows.Keys == old(rows).Keys
    {
      ops := before;
      if Lapsed(rows[run], now) {
        SweepNext(start, View(), done, run, before);
        ReapRow(run);
        ops := before + [Reap(run)];
      } else {
        SweepSkips(start, View(), done, run, before);
      }
    }

    /** Reap every lapsed run, which is dead. */
    method ReapLapsedRuns() returns (ghost ops: seq<Op>)
      requires Valid() && LapsedAreDead(View())
      modifies this
      ensures Swept(old(View()), View(), old(rows).Keys, ops)
    {
      SweepStarts(View());
      ops := SweepAll(View());
      SweepEnds(old(View()), View(), ops);
    }

    /** The sweep over all rows. */
    method SweepAll(ghost start: State) returns (ghost ops: seq<Op>)
      requires Sound(start) && Sweeping(start, View(), rows.Keys, [])
      modifies this
      ensures Sweeping(start, View(), {}, ops)
    {
      var todo := rows.Keys;
      ops := [];
      while todo != {}
        invariant Sweeping(start, View(), todo, ops)
        decreases todo
      {
        todo, ops := SweepOne(todo, start, ops);
      }
    }

    method SweepOne(todo: set<Id>, ghost start: State, ghost before: seq<Op>)
      returns (rest: set<Id>, ghost ops: seq<Op>)
      requires Sound(start) && Sweeping(start, View(), todo, before) && todo != {}
      modifies this
      ensures rest < todo && Sweeping(start, View(), rest, ops)
    {
      var run :| run in todo;
      rest := todo - {run};
      OneLess(rows.Keys, todo, run);
      ops := SweepRow(run, start, rows.Keys - todo, before);
    }

    /** Settle every overdue schedule. */
    method HandleMissedRuns() returns (ghost ops: seq<Op>)
      requires AllWellformed(View())
      modifies this
      ensures Reaches(old(View()), ops, View()) && forall k :: 0 <= k < |ops| ==> ops[k].HandleMissed?
      ensures schedules.Keys == old(schedules).Keys
      ensures forall id :: id in schedules ==> schedules[id] == SettleMissed(old(schedules)[id], now)
      ensures forall id :: id in schedules ==> SchedulerEffects.Settles(old(schedules)[id], now, schedules[id])
    {
      ops := [];
      var todo := schedules.Keys;
      ghost var start := View();
      while todo != {}
        invariant todo <= start.schedules.Keys && schedules.Keys == start.schedules.Keys && AllWellformed(View())
        invariant now == start.now
        invariant Reaches(start, ops, View()) && forall k :: 0 <= k < |ops| ==> ops[k].HandleMissed?
        invariant forall id :: id in schedules ==>
          schedules[id] == if id in todo then start.schedules[id] else SettleMissed(start.schedules[id], now)
        decreases todo
      {
        var id :| id in todo;
        todo := todo - {id};
        Extend(start, ops, View(), HandleMissed(id));
        ops := ops + [HandleMissed(id)];
        schedules := schedules[id := SettleMissed(schedules[id], now)];
      }
      forall id | id in schedules ensures SchedulerEffects.Settles(old(schedules)[id], now, schedules[id]) {
        SchedulerEffects.MissedSettled(old(schedules)[id], now);
      }
    }

    /** Check one due schedule: announce its slot, or skip it after a recent success. */
    method CheckSchedule(id: Id) returns (announced: bool)
      requires AllWellformed(View()) && Enabled(View(), CheckDue(id))
      modifies this
      ensures View() == Step(old(View()), CheckDue(id))
      ensures now == old(now) && rows == old(rows) && announced == !Skips(rows, id, old(schedules)[id], now)
      ensures schedules == if announced then old(schedules) else old(schedules)[id := Advance(old(schedules)[id], now)]
      ensures polled == old(polled) + if announced then multiset{Due(id, old(schedules)[id].nextRunAt)} else multiset{}
    {
      var s := schedules[id];
      announced := !Skips(rows, id, s, now);
      if announced {
        polled := polled + multiset{Due(id, s.nextRunAt)};
      } else {
        schedules := schedules[id := Advance(s, now)];
      }
    }

    /** Check the next schedule of a poll. */
    method CheckNext(id: Id, todo: set<Id>, due: set<Due>, ghost start: State, ghost before: seq<Op>)
      returns (more: set<Due>, ghost ops: seq<Op>)
      requires AllWellformed(start) && id in todo && Polling(start, View(), todo, due) && Checks(start, before, View())
      modifies this
      ensures Polling(start, View(), todo - {id}, more) && Checks(start, ops, View())
    {
      more, ops := due, before;
      if Ready(rows, id, schedules[id], now) {
        var slot := Due(id, schedules[id].nextRunAt);
        CheckedMore(start, before, View(), id);
        ops := before + [CheckDue(id)];
        var announced := CheckSchedule(id);
        if announced {
          more := due + {slot};
          PolledOne(start, old(View()), View(), todo, due, id);
        } else {
          SkippedOne(start, old(View()), View(), todo, due, id);
        }
      } else {
        LeftOne(start, View(), todo, due, id);
      }
    }

    /** Announce the slots to run now. A due schedule with a run in flight is left alone, and one
        that succeeded recently skips its slot. */
    method DueSchedules() returns (due: set<Due>, ghost ops: seq<Op>)
      requires AllWellformed(View())
      modifies this
      ensures Reaches(old(View()), ops, View()) && forall k :: 0 <= k < |ops| ==> ops[k].CheckDue?
      ensures rows == old(rows) && schedules.Keys == old(schedules).Keys && polled == old(polled) + multiset(due)
      ensures forall id :: id in schedules ==> CheckedIn(old(View()), id, schedules[id])
      ensures forall d :: d in due <==> ToAnnounce(old(View()), d)
    {
      due, ops := {}, [];
      var todo := schedules.Keys;
      while todo != {}
        invariant Polling(old(View()), View(), todo, due) && Checks(old(View()), ops, View())
        decreases todo
      {
        var id :| id in todo;
        due, ops := CheckNext(id, todo, due, old(View()), ops);
        todo := todo - {id};
      }
    }
  }

  /** These due checks lead from `start` to `s`. */
  ghost predicate Checks(start: State, ops: seq<Op>, s: State) {
    Reaches(start, ops, s) && forall k :: 0 <= k < |ops| ==> ops[k].CheckDue?
  }

  lemma CheckedMore(start: State, ops: seq<Op>, s: State, id: Id)
    requires Checks(start, ops, s) && Enabled(s, CheckDue(id))
    ensures Checks(start, ops + [CheckDue(id)], Step(s, CheckDue(id)))
  {
    Extend(start, ops, s, CheckDue(id));
  }

  /** A poll that has checked all schedules but `todo`, and announced `due`. */
  ghost predicate Polling(start: State, s: State, todo: set<Id>, due: set<Due>)
    requires AllWellformed(start)
  {
    && todo <= start.schedules.Keys && s.schedules.Keys == start.schedules.Keys && AllWellformed(s)
    && s.now == start.now && s.rows == start.rows && s.polled == start.polled + multiset(due)
    && (forall id :: id in todo ==> s.schedules[id] == start.schedules[id])
    && (forall id :: id in s.schedules.Keys - todo ==> CheckedIn(start, id, s.schedules[id]))
    && (forall d :: d in due <==> ToAnnounce(start, d) && d.schedule !in todo)
  }

  lemma LeftOne(start: State, s: State, todo: set<Id>, due: set<Due>, id: Id)
    requires AllWellformed(start) && Polling(start, s, todo, due) && id in todo
    requires !Ready(s.rows, id, s.schedules[id], s.now)
    ensures Polling(start, s, todo - {id}, due)
  {
  }

  lemma SkippedOne(start: State, s: State, t: State, todo: set<Id>, due: set<Due>, id: Id)
    requires AllWellformed(start) && Polling(start, s, todo, due) && id in todo
    requires Ready(s.rows, id, s.schedules[id], s.now) && Skips(s.rows, id, s.schedules[id], s.now)
    requires t.now == s.now && t.rows == s.rows && t.polled == s.polled
    requires t.schedules == s.schedules[id := Advance(s.schedules[id], s.now)] && AllWellformed(t)
    ensures Polling(start, t, todo - {id}, due)
  {
  }

  lemma PolledOne(start: State, s: State, t: State, todo: set<Id>, due: set<Due>, id: Id)
    requires AllWellformed(start) && Polling(start, s, todo, due) && id in todo
    requires Ready(s.rows, id, s.schedules[id], s.now) && !Skips(s.rows, id, s.schedules[id], s.now)
    requires t.now == s.now && t.rows == s.rows && t.schedules == s.schedules
    requires t.polled == s.polled + multiset{Due(id, s.schedules[id].nextRunAt)}
    ensures Polling(start, t, todo - {id}, due + {Due(id, s.schedules[id].nextRunAt)})
  {
    var slot := Due(id, s.schedules[id].nextRunAt);
    assert slot !in due;
    assert multiset(due + {slot}) == multiset(due) + multiset{slot};
  }

  /** The slots a poll announces: due, with no run in flight and no recent success. */
  ghost predicate ToAnnounce(s: State, d: Due) {
    && d.schedule in s.schedules && d.slot == s.schedules[d.schedule].nextRunAt
    && Ready(s.rows, d.schedule, s.schedules[d.schedule], s.now)
    && !Skips(s.rows, d.schedule, s.schedules[d.schedule], s.now)
  }

  /** The schedule after its due check. */
  ghost predicate CheckedIn(start: State, id: Id, after: Schedule)
    requires id in start.schedules && Wellformed(start.schedules[id])
  {
    var x := start.schedules[id];
    after == if Ready(start.rows, id, x, start.now) && Skips(start.rows, id, x, start.now)
             then Advance(x, start.now) else x
  }

  predicate Ready(rows: map<Id, Row>, id: Id, s: Schedule, now: Time) {
    IsDue(s, now) && !HasActiveRun(rows, id)
  }

  predicate Skips(rows: map<Id, Row>, id: Id, s: Schedule, now: Time) {
    RanRecently(rows, id, FreshnessWindow(s.cadence), now)
  }

  predicate ReapedFrom(row: Row, id: Id, s: Schedule, now: Time) {
    row.schedule == id && Lapsed(row, now) && ReapConsumes(row, s)
  }

  predicate ReapConsumesAny(rows: map<Id, Row>, among: set<Id>, id: Id, s: Schedule, now: Time) {
    exists r :: r in among && r in rows && ReapedFrom(rows[r], id, s, now)
  }

  /** Among the rows `done`, exactly the lapsed ones are reaped; the others are as before. */
  ghost predicate RowsReaped(before: map<Id, Row>, after: map<Id, Row>, done: set<Id>, now: Time)
    requires after.Keys == before.Keys
  {
    forall r :: r in before ==>
      after[r] == if r in done && Lapsed(before[r], now) then ReapedRow(before[r], now) else before[r]
  }

  /** A schedule has moved on once if some reaped row of `done` kept its current slot. */
  ghost predicate SchedulesReaped(rows: map<Id, Row>, before: map<Id, Schedule>, after: map<Id, Schedule>,
      done: set<Id>, now: Time)
    requires after.Keys == before.Keys
    requires forall id :: id in before ==> Wellformed(before[id])
  {
    forall id :: id in before ==>
      after[id] == if ReapConsumesAny(rows, done, id, before[id], now) then Advance(before[id], now) else before[id]
  }

  function ReapedSchedules(row: Row, schedules: map<Id, Schedule>, now: Time): map<Id, Schedule>
    requires row.schedule in schedules && Wellformed(schedules[row.schedule])
  {
    var id := row.schedule;
    if Lapsed(row, now) && ReapConsumes(row, schedules[id])
    then schedules[id := Advance(schedules[id], now)] else schedules
  }

  /** What reaping one more row does to the rows and schedules reaped so far. */
  lemma ReapNext(rows: map<Id, Row>, reaped: map<Id, Row>, before: map<Id, Schedule>, after: map<Id, Schedule>,
      done: set<Id>, r: Id, now: Time)
    requires after.Keys == before.Keys && reaped.Keys == rows.Keys && r in rows && r !in done
    requires rows[r].schedule in before
    requires forall id :: id in before ==> Wellformed(before[id])
    requires rows[r].slot.Some? ==> rows[r].slot.value <= now
    requires RowsReaped(rows, reaped, done, now) && SchedulesReaped(rows, before, after, done, now)
    ensures reaped[r] == rows[r] && Wellformed(after[rows[r].schedule])
    ensures
      var next := ReapedSchedules(rows[r], after, now);
      next.Keys == before.Keys && SchedulesReaped(rows, before, next, done + {r}, now)
    ensures
      var more := if Lapsed(rows[r], now) then reaped[r := ReapedRow(rows[r], now)] else reaped;
      RowsReaped(rows, more, done + {r}, now)
  {
    var s := rows[r].schedule;
    AdvanceOnce(before[s], now);
    forall id | id in before
      ensures ReapConsumesAny(rows, done + {r}, id, before[id], now) <==>
              ReapConsumesAny(rows, done, id, before[id], now) || ReapedFrom(rows[r], id, before[id], now)
    {
      if ReapConsumesAny(rows, done, id, before[id], now) {
        var q :| q in done && q in rows && ReapedFrom(rows[q], id, before[id], now);
        assert q in done + {r};
      } else if ReapedFrom(rows[r], id, before[id], now) {
        assert r in done + {r};
      }
    }
  }

  /** Consuming twice is consuming once, and a consumed recurring slot is not current any more. */
  lemma AdvanceOnce(s: Schedule, now: Time)
    requires Wellformed(s)
    ensures Wellformed(Advance(s, now))
    ensures Advance(Advance(s, now), now) == Advance(s, now)
    ensures s.cadence != Once ==> now < Advance(s, now).nextRunAt
    ensures s.cadence == Once ==> Advance(s, now).nextRunAt == s.nextRunAt
  {
    if s.cadence != Once {
      NextFutureIsOccurrence(s.cadence, s.zone, s.nextRunAt, now);
    }
  }
}
