/** When a free slot can still run: exactly while a run has its announcement in hand, or the schedule
    stands at it and some later poll will find it due, neither skipped nor settled as missed. */
module SchedulerReruns {
  import opened Common
  import opened ScheduleTiming
  import opened Scheduler
  import opened SchedulerSafety
  import opened SchedulerConservation

  lemma Chain(s: State, op: Op, ops: seq<Op>)
    requires AllWellformed(s) && Enabled(s, op) && Possible(Step(s, op), ops)
    ensures Possible(s, [op] + ops)
    ensures After(s, [op] + ops) == After(Step(s, op), ops)
  {
    assert ([op] + ops)[1..] == ops;
  }

  lemma {:induction false} Append(s: State, a: seq<Op>, b: seq<Op>)
    requires AllWellformed(s) && Possible(s, a) && Possible(After(s, a), b)
    ensures Possible(s, a + b) && After(s, a + b) == After(After(s, a), b)
    decreases |a|
  {
    if a == [] {
      assert a + b == b;
    } else {
      assert (a + b)[1..] == a[1..] + b;
      Append(Step(s, a[0]), a[1..], b);
    }
  }

  // ---------------------------------------------------------------- regular runs

  /** A poll settles missed slots before it looks for due ones, and nobody edits a schedule's time. */
  ghost predicate RegularOp(s: State, op: Op)
    requires AllWellformed(s)
  {
    && !op.Edit?
    && (op.CheckDue? && op.schedule in s.schedules ==>
        SettleMissed(s.schedules[op.schedule], s.now) == s.schedules[op.schedule])
  }

  ghost predicate Regular(s: State, ops: seq<Op>)
    requires AllWellformed(s) && Possible(s, ops)
    decreases |ops|
  {
    ops != [] ==> RegularOp(s, ops[0]) && Regular(Step(s, ops[0]), ops[1..])
  }

  lemma RegularChain(s: State, op: Op, ops: seq<Op>)
    requires AllWellformed(s) && Enabled(s, op) && RegularOp(s, op)
    requires Possible(Step(s, op), ops) && Regular(Step(s, op), ops)
    ensures Possible(s, [op] + ops) && Regular(s, [op] + ops)
    ensures After(s, [op] + ops) == After(Step(s, op), ops)
  {
    Chain(s, op, ops);
    assert ([op] + ops)[1..] == ops;
  }

  lemma {:induction false} RegularAppend(s: State, a: seq<Op>, b: seq<Op>)
    requires AllWellformed(s) && Possible(s, a) && Regular(s, a)
    requires Possible(After(s, a), b) && Regular(After(s, a), b)
    ensures Possible(s, a + b) && Regular(s, a + b) && After(s, a + b) == After(After(s, a), b)
    decreases |a|
  {
    if a == [] {
      assert a + b == b;
    } else {
      assert (a + b)[1..] == a[1..] + b;
      RegularAppend(Step(s, a[0]), a[1..], b);
    }
  }

  /** The last moment at which a poll announces the current slot of a schedule instead of settling it
      as missed: before the next occurrence, or within the catch-up time of a one-off. */
  function LastChance(x: Schedule): Time
    requires Wellformed(x)
  {
    if x.cadence == Once then x.nextRunAt + ONCE_CATCHUP else AdvanceOccurrence(x.cadence, x.nextRunAt, x.zone) - 1
  }

  lemma SettledExactlyUntil(x: Schedule, now: Time)
    requires Wellformed(x) && IsDue(x, now)
    ensures SettleMissed(x, now) == x <==> now <= LastChance(x)
  {
    if x.cadence != Once {
      MissedCountsOverdue(x.cadence, x.zone, x.nextRunAt, now, 1);
      assert Occurrence(x.cadence, x.zone, x.nextRunAt, 0) == x.nextRunAt;
    }
  }

  // ---------------------------------------------------------------- the condition

  predicate RecentUntil(s: State, id: Id, at: Time)
    requires id in s.schedules
  {
    RanRecently(s.rows, id, FreshnessWindow(s.schedules[id].cadence), at)
  }

  /** The schedule stands at the slot, its last chance has not passed, and no success is so recent
      that polls skip the slot until then. */
  predicate Reachable(s: State, due: Due)
    requires AllWellformed(s) && due.schedule in s.schedules
  {
    var x := s.schedules[due.schedule];
    && x.nextRunAt == due.slot
    && s.now <= LastChance(x)
    && !RecentUntil(s, due.schedule, LastChance(x))
  }

  predicate CanRun(s: State, due: Due)
    requires AllWellformed(s) && due.schedule in s.schedules
  {
    due in s.polled || Reachable(s, due)
  }

  ghost predicate GoneIfSuccess(s: State, r: Id) {
    r in s.rows && s.rows[r].status == Success ==>
      r in s.processes && s.processes[r].phase == Gone && s.rows[r].finishedAt.Some?
  }

  /** A successful run is over, and its row says when. */
  ghost predicate Lasting(s: State) {
    forall r :: r in s.rows ==> GoneIfSuccess(s, r)
  }

  /** Every slot a run ever claimed is in the past and belongs to a schedule. */
  ghost predicate Traced(s: State) {
    && (forall due :: due in s.polled ==> due.schedule in s.schedules)
    && (forall r :: r in s.processes && s.processes[r].slot.Some? ==>
          s.processes[r].schedule in s.schedules && s.processes[r].slot.value <= s.now)
  }

  ghost predicate Steady(s: State) {
    Safe(s) && SlotsPast(s) && Lasting(s) && Traced(s)
  }

  // ---------------------------------------------------------------- invariants

  lemma LastingBeginning(s: State, op: Op, r: Id)
    requires Paired(s) && AllWellformed(s) && GoneIfSuccess(s, r) && Enabled(s, op) && Subject(op) == Some(r)
    requires Beginning(op)
    ensures GoneIfSuccess(Step(s, op), r)
  {
  }

  lemma LastingClosing(s: State, op: Op, r: Id)
    requires Paired(s) && AllWellformed(s) && GoneIfSuccess(s, r) && Enabled(s, op) && Subject(op) == Some(r)
    requires Closing(op)
    ensures GoneIfSuccess(Step(s, op), r)
  {
  }

  lemma LastingBurying(s: State, op: Op, r: Id)
    requires Paired(s) && AllWellformed(s) && GoneIfSuccess(s, r) && Enabled(s, op) && Subject(op) == Some(r)
    requires Burying(op)
    ensures GoneIfSuccess(Step(s, op), r)
  {
  }

  lemma LastingStep(s: State, op: Op)
    requires Safe(s) && Lasting(s) && Enabled(s, op)
    ensures Lasting(Step(s, op))
  {
    var t := Step(s, op);
    forall r | r in t.rows ensures GoneIfSuccess(t, r) {
      assert GoneIfSuccess(s, r);
      if Subject(op) == Some(r) {
        if Beginning(op) {
          LastingBeginning(s, op, r);
        } else if Closing(op) {
          LastingClosing(s, op, r);
        } else {
          LastingBurying(s, op, r);
        }
      } else {
        OthersUntouched(s, op, r);
      }
    }
  }

  /** A success stays on record. */
  lemma SuccessStays(s: State, op: Op, r: Id)
    requires Safe(s) && Lasting(s) && Enabled(s, op) && r in s.rows && s.rows[r].status == Success
    ensures r in Step(s, op).rows && Step(s, op).rows[r].status == Success
    ensures Step(s, op).rows[r].finishedAt == s.rows[r].finishedAt && Step(s, op).rows[r].schedule == s.rows[r].schedule
  {
    assert GoneIfSuccess(s, r);
    if Subject(op) == Some(r) {
      assert RunOk(s.rows[r], s.processes[r]);
    } else {
      OthersUntouched(s, op, r);
    }
  }

  lemma ClaimedNow(s: State, op: Op, r: Id)
    requires Safe(s) && Enabled(s, op) && r !in s.processes && r in Step(s, op).processes
    requires Step(s, op).processes[r].slot.Some?
    ensures op.Claim? && Step(s, op).processes[r].schedule == op.due.schedule
    ensures Step(s, op).processes[r].slot.value == op.due.slot
    ensures Step(s, op).schedules == s.schedules
  {
    if Subject(op) != Some(r) {
      OthersUntouched(s, op, r);
    }
  }

  lemma TracedRun(s: State, op: Op, r: Id)
    requires Safe(s) && SlotsPast(s) && Traced(s) && Enabled(s, op)
    requires r in Step(s, op).processes && Step(s, op).processes[r].slot.Some?
    ensures Step(s, op).processes[r].schedule in Step(s, op).schedules
    ensures Step(s, op).processes[r].slot.value <= Step(s, op).now
  {
    if r in s.processes {
      if Subject(op) == Some(r) {
        SubjectStep(s, op, r);
      } else {
        OthersUntouched(s, op, r);
      }
      ScheduleStep(s, op, s.processes[r].schedule);
    } else {
      ClaimedNow(s, op, r);
    }
  }

  lemma TracedStep(s: State, op: Op)
    requires Safe(s) && SlotsPast(s) && Traced(s) && Enabled(s, op)
    ensures Traced(Step(s, op))
  {
    var t := Step(s, op);
    PolledOrigin(s, op);
    forall due | due in t.polled ensures due.schedule in t.schedules {
      ScheduleStep(s, op, due.schedule);
    }
    forall r | r in t.processes && t.processes[r].slot.Some?
      ensures t.processes[r].schedule in t.schedules && t.processes[r].slot.value <= t.now
    {
      TracedRun(s, op, r);
    }
  }

  lemma SteadyStep(s: State, op: Op)
    requires Steady(s) && Enabled(s, op)
    ensures Steady(Step(s, op))
  {
    SafeStep(s, op);
    SlotsPastStep(s, op);
    LastingStep(s, op);
    TracedStep(s, op);
  }

  lemma {:induction false} SteadyAlways(s: State, ops: seq<Op>)
    requires Steady(s) && Possible(s, ops)
    ensures Steady(After(s, ops))
    decreases |ops|
  {
    if ops != [] {
      SteadyStep(s, ops[0]);
      SteadyAlways(Step(s, ops[0]), ops[1..]);
    }
  }

  // ---------------------------------------------------------------- a slot that cannot run

  /** Nobody has the slot or its announcement, and no poll will announce it. */
  ghost predicate Spent(s: State, due: Due)
    requires AllWellformed(s)
  {
    && due.schedule in s.schedules && due.slot <= s.now
    && !SlotTaken(s.rows, due.schedule, due.slot)
    && !CanRun(s, due)
  }

  lemma RecencyStays(s: State, op: Op, id: Id, at: Time)
    requires Safe(s) && Lasting(s) && Enabled(s, op) && id in s.schedules && RecentUntil(s, id, at)
    ensures id in Step(s, op).schedules && RecentUntil(Step(s, op), id, at)
  {
    var window := FreshnessWindow(s.schedules[id].cadence);
    var r :| r in s.rows && s.rows[r].schedule == id && s.rows[r].status == Success
      && s.rows[r].finishedAt.Some? && at - s.rows[r].finishedAt.value < window;
    SuccessStays(s, op, r);
    ScheduleStep(s, op, id);
  }

  /** A poll in time would skip a slot that is skipped until its last chance. */
  lemma NotAnnounced(s: State, op: Op, due: Due)
    requires Steady(s) && Spent(s, due) && Enabled(s, op) && RegularOp(s, op)
    ensures due !in Step(s, op).polled
  {
    PolledOrigin(s, op);
    if due in Step(s, op).polled {
      SettledExactlyUntil(s.schedules[due.schedule], s.now);
    }
  }

  lemma NotClaimed(s: State, op: Op, due: Due)
    requires Safe(s) && Enabled(s, op) && !SlotTaken(s.rows, due.schedule, due.slot) && due !in s.polled
    ensures !SlotTaken(Step(s, op).rows, due.schedule, due.slot)
  {
    var t := Step(s, op);
    forall r | r in t.rows ensures !Holds(t.rows[r], due.schedule, due.slot) {
      if Holds(t.rows[r], due.schedule, due.slot) {
        SlotOrigin(s, op, r);
      }
    }
  }

  lemma StillUnreachable(s: State, op: Op, due: Due)
    requires Steady(s) && Spent(s, due) && Enabled(s, op) && RegularOp(s, op)
    ensures due.schedule in Step(s, op).schedules && !Reachable(Step(s, op), due)
  {
    var x := s.schedules[due.schedule];
    ScheduleStep(s, op, due.schedule);
    assert s.now <= Step(s, op).now;
    if x.nextRunAt == due.slot && RecentUntil(s, due.schedule, LastChance(x)) {
      RecencyStays(s, op, due.schedule, LastChance(x));
    }
  }

  lemma SpentStep(s: State, op: Op, due: Due)
    requires Steady(s) && Spent(s, due) && Enabled(s, op) && RegularOp(s, op)
    ensures Spent(Step(s, op), due)
    ensures op.StartTurn? ==>
      !(s.processes[op.run].schedule == due.schedule && s.processes[op.run].slot == Some(due.slot))
  {
    NotAnnounced(s, op, due);
    NotClaimed(s, op, due);
    StillUnreachable(s, op, due);
    if op.StartTurn? {
      assert RunOk(s.rows[op.run], s.processes[op.run]);
    }
  }

  lemma StartsFor(s: State, op: Op, n: nat, due: Due)
    requires Safe(s) && Enabled(s, op) && NoneFor(s, n, due.schedule, Some(due.slot))
    requires op.StartTurn? ==>
      !(s.processes[op.run].schedule == due.schedule && s.processes[op.run].slot == Some(due.slot))
    ensures NoneFor(Step(s, op), n, due.schedule, Some(due.slot))
  {
    var t := Step(s, op);
    forall k | n <= k < |s.starts|
      ensures s.starts[k] in t.processes
      ensures t.processes[s.starts[k]].schedule == s.processes[s.starts[k]].schedule
      ensures t.processes[s.starts[k]].slot == s.processes[s.starts[k]].slot
    {
      if Subject(op) == Some(s.starts[k]) {
        SubjectStep(s, op, s.starts[k]);
      } else {
        OthersUntouched(s, op, s.starts[k]);
      }
    }
  }

  /** A spent slot never runs, in any regular run. */
  lemma {:induction false} SpentForever(s: State, ops: seq<Op>, due: Due, n: nat)
    requires Steady(s) && Spent(s, due) && Possible(s, ops) && Regular(s, ops)
    requires NoneFor(s, n, due.schedule, Some(due.slot))
    ensures Steady(After(s, ops)) && Spent(After(s, ops), due)
    ensures NoneFor(After(s, ops), n, due.schedule, Some(due.slot))
    decreases |ops|
  {
    if ops != [] {
      SteadyStep(s, ops[0]);
      SpentStep(s, ops[0], due);
      StartsFor(s, ops[0], n, due);
      SpentForever(Step(s, ops[0]), ops[1..], due, n);
    }
  }

  // ---------------------------------------------------------------- a slot that can

  /** A claimed run links and starts its turn. */
  lemma ClaimedRunStarts(s: State, run: Id, c: Id) returns (ops: seq<Op>)
    requires AllWellformed(s) && Enabled(s, Link(run, Some(c))) && s.rows[run].status == Running
    ensures Possible(s, ops) && Regular(s, ops)
    ensures After(s, ops).starts == s.starts + [run]
    ensures After(s, ops).processes == s.processes[run := s.processes[run].(phase := InTurn, started := true)]
  {
    var linked := Step(s, Link(run, Some(c)));
    RegularChain(linked, StartTurn(run), []);
    RegularChain(s, Link(run, Some(c)), [StartTurn(run)] + []);
    ops := [Link(run, Some(c))] + ([StartTurn(run)] + []);
  }

  lemma JustClaimed(s: State, due: Due, run: Id, c: Id)
    requires AllWellformed(s) && Enabled(s, Claim(run, due))
    ensures
      var t := Step(s, Claim(run, due));
      && Enabled(t, Link(run, Some(c))) && t.rows[run].status == Running && t.starts == s.starts
      && t.processes[run := t.processes[run].(phase := InTurn, started := true)]
         == s.processes[run := Process(due.schedule, Some(due.slot), InTurn, true, None)]
  {
  }

  /** A free slot whose announcement a run has in hand is claimed, and its turn starts. */
  lemma AnnouncedSlotRuns(s: State, due: Due, run: Id, c: Id) returns (ops: seq<Op>)
    requires AllWellformed(s) && Enabled(s, Claim(run, due))
    ensures Possible(s, ops) && Regular(s, ops)
    ensures After(s, ops).starts == s.starts + [run]
    ensures After(s, ops).processes == s.processes[run := Process(due.schedule, Some(due.slot), InTurn, true, None)]
  {
    JustClaimed(s, due, run, c);
    ops := ClaimedRunStarts(Step(s, Claim(run, due)), run, c);
    RegularChain(s, Claim(run, due), ops);
    ops := [Claim(run, due)] + ops;
  }

  function Active(s: State, id: Id): set<Id> {
    set r | r in s.rows && s.rows[r].schedule == id && s.rows[r].status == Running
  }

  /** `t` is `s` but for runs of the schedule that died and were reaped. */
  ghost predicate Cleared(s: State, t: State) {
    && t.now == s.now && t.schedules == s.schedules && t.polled == s.polled && t.starts == s.starts
    && t.rows.Keys == s.rows.Keys && t.processes.Keys == s.processes.Keys
    && (forall r :: r in s.rows ==> t.rows[r].schedule == s.rows[r].schedule)
    && (forall r :: r in s.rows ==> t.rows[r].slot == s.rows[r].slot || t.rows[r].slot == None)
    && (forall r :: r in s.rows && t.rows[r].status == Success ==> t.rows[r] == s.rows[r])
    && (forall r :: r in s.processes ==> Remembers(s.processes[r], t.processes[r]))
  }

  /** The state after a run died and a booting server reaped it. */
  function Buried(s: State, r: Id): State
    requires r in s.rows && r in s.processes
  {
    s.(rows := s.rows[r := FinishedRow(s.rows[r], Failed, true, s.now)],
       processes := s.processes[r := GiveBack(s.processes[r].(phase := Gone), BootReaped)])
  }

  lemma ReapedAtBoot(s: State, dead: State, r: Id)
    requires AllWellformed(s) && r in s.rows && r in s.processes && s.rows[r].status == Running
    requires dead == s.(processes := s.processes[r := s.processes[r].(phase := Gone)])
    ensures Enabled(dead, BootReap(r)) && Step(dead, BootReap(r)) == Buried(s, r)
  {
  }

  lemma BuriedBy(s: State, r: Id)
    requires Safe(s) && r in s.rows && s.rows[r].status == Running
    ensures r in s.processes && Possible(s, [Crash(r), BootReap(r)]) && Regular(s, [Crash(r), BootReap(r)])
    ensures After(s, [Crash(r), BootReap(r)]) == Buried(s, r)
  {
    var s1 := s.(processes := s.processes[r := s.processes[r].(phase := Gone)]);
    assert Step(s, Crash(r)) == s1;
    ReapedAtBoot(s, s1, r);
    RegularChain(s1, BootReap(r), []);
    RegularChain(s, Crash(r), [BootReap(r)] + []);
    assert [Crash(r)] + ([BootReap(r)] + []) == [Crash(r), BootReap(r)];
  }

  lemma BuriedIsCleared(s: State, r: Id)
    requires r in s.rows && r in s.processes && s.processes[r].gaveBack == None
    ensures Cleared(s, Buried(s, r))
  {
  }

  lemma OneLessActive(s: State, r: Id)
    requires r in s.rows && r in s.processes
    ensures Active(Buried(s, r), s.rows[r].schedule) == Active(s, s.rows[r].schedule) - {r}
  {
  }

  lemma NoneActive(s: State, id: Id)
    requires Active(s, id) == {}
    ensures !HasActiveRun(s.rows, id)
  {
    forall r | r in s.rows ensures !(s.rows[r].schedule == id && s.rows[r].status == Running) {
      assert r !in Active(s, id);
    }
  }

  lemma ClearedAgain(s: State, t: State, u: State)
    requires Cleared(s, t) && Cleared(t, u)
    ensures Cleared(s, u)
  {
    forall r | r in s.processes ensures Remembers(s.processes[r], u.processes[r]) {
      assert Remembers(s.processes[r], t.processes[r]) && Remembers(t.processes[r], u.processes[r]);
    }
  }

  lemma BuriesOne(s: State, r: Id)
    requires Safe(s) && r in s.rows && s.rows[r].status == Running
    ensures r in s.processes && Possible(s, [Crash(r), BootReap(r)]) && Regular(s, [Crash(r), BootReap(r)])
    ensures After(s, [Crash(r), BootReap(r)]) == Buried(s, r) && Safe(Buried(s, r)) && Cleared(s, Buried(s, r))
    ensures Active(Buried(s, r), s.rows[r].schedule) == Active(s, s.rows[r].schedule) - {r}
  {
    assert RunOk(s.rows[r], s.processes[r]);
    BuriedIsCleared(s, r);
    OneLessActive(s, r);
    BuriedBy(s, r);
    SafeAlways(s, [Crash(r), BootReap(r)]);
  }

  /** All active runs of a schedule can end without a success, at once. */
  lemma ClearsActive(s: State, id: Id) returns (ops: seq<Op>)
    requires Safe(s)
    ensures Possible(s, ops) && Regular(s, ops) && Safe(After(s, ops))
    ensures Cleared(s, After(s, ops)) && !HasActiveRun(After(s, ops).rows, id)
    decreases |Active(s, id)|
  {
    if Active(s, id) == {} {
      ops := [];
      NoneActive(s, id);
    } else {
      var r :| r in Active(s, id);
      BuriesOne(s, r);
      ops := ClearsActive(Buried(s, r), id);
      ClearedAgain(s, Buried(s, r), After(Buried(s, r), ops));
      RegularAppend(s, [Crash(r), BootReap(r)], ops);
      ops := [Crash(r), BootReap(r)] + ops;
    }
  }

  lemma ClearedStaysReachable(s: State, t: State, due: Due)
    requires AllWellformed(s) && AllWellformed(t) && Cleared(s, t) && due.schedule in s.schedules && Reachable(s, due)
    requires !SlotTaken(s.rows, due.schedule, due.slot)
    ensures due.schedule in t.schedules && Reachable(t, due) && !SlotTaken(t.rows, due.schedule, due.slot)
  {
  }

  /** The state in which the last possible poll of a resumed schedule looks for due slots. */
  ghost function AtLastChance(s: State, due: Due): State
    requires AllWellformed(s) && due.schedule in s.schedules
  {
    var x := s.schedules[due.schedule];
    s.(now := LastChance(x), schedules := s.schedules[due.schedule := x.(enabled := true)])
  }

  lemma IdleSlotIsAnnounced(s: State, due: Due) returns (ops: seq<Op>)
    requires Safe(s) && due.schedule in s.schedules && due.slot <= s.now && Reachable(s, due)
    requires !HasActiveRun(s.rows, due.schedule)
    ensures Possible(s, ops) && Regular(s, ops) && AllWellformed(AtLastChance(s, due))
    ensures After(s, ops) == AtLastChance(s, due).(polled := s.polled + multiset{due})
  {
    var id, x := due.schedule, s.schedules[due.schedule];
    var wait, resume := Tick(LastChance(x) - s.now), Resume(id);
    var s1 := Step(s, wait);
    var s2 := Step(s1, resume);
    assert s2 == AtLastChance(s, due);
    SettledExactlyUntil(x.(enabled := true), LastChance(x));
    RegularChain(s2, CheckDue(id), []);
    ops := [CheckDue(id)] + [];
    RegularChain(s1, resume, ops);
    ops := [resume] + ops;
    RegularChain(s, wait, ops);
    ops := [wait] + ops;
  }

  lemma IdleSlotRuns(s: State, due: Due, run: Id, c: Id) returns (ops: seq<Op>)
    requires Safe(s) && due.schedule in s.schedules && due.slot <= s.now && Reachable(s, due)
    requires !HasActiveRun(s.rows, due.schedule) && !SlotTaken(s.rows, due.schedule, due.slot)
    requires run !in s.rows && run !in s.processes
    ensures Possible(s, ops) && Regular(s, ops) && After(s, ops).starts == s.starts + [run]
    ensures After(s, ops).processes == s.processes[run := Process(due.schedule, Some(due.slot), InTurn, true, None)]
  {
    ops := IdleSlotIsAnnounced(s, due);
    var more := AnnouncedSlotRuns(After(s, ops), due, run, c);
    RegularAppend(s, ops, more);
    ops := ops + more;
  }

  /** The turn of a free slot that can run starts in some regular run. */
  lemma ReachableSlotRuns(s: State, due: Due, run: Id, c: Id) returns (ops: seq<Op>)
    requires Safe(s) && due.schedule in s.schedules && due.slot <= s.now && CanRun(s, due)
    requires !SlotTaken(s.rows, due.schedule, due.slot) && run !in s.rows && run !in s.processes
    ensures Possible(s, ops) && Regular(s, ops)
    ensures
      var t := After(s, ops);
      && t.starts == s.starts + [run] && run in t.processes
      && t.processes[run].schedule == due.schedule && t.processes[run].slot == Some(due.slot)
      && forall r :: r in s.processes ==> r in t.processes && Remembers(s.processes[r], t.processes[r])
  {
    if due in s.polled {
      ops := AnnouncedSlotRuns(s, due, run, c);
    } else {
      ops := ClearsActive(s, due.schedule);
      var s1 := After(s, ops);
      ClearedStaysReachable(s, s1, due);
      var more := IdleSlotRuns(s1, due, run, c);
      RegularAppend(s, ops, more);
      ops := ops + more;
    }
  }

  // ---------------------------------------------------------------- exactly when

  /** In this regular run a turn for the slot starts. */
  ghost predicate RunsIn(s: State, due: Due, ops: seq<Op>)
    requires AllWellformed(s)
  {
    Possible(s, ops) && Regular(s, ops) && !NoneFor(After(s, ops), |s.starts|, due.schedule, Some(due.slot))
  }

  /** A free slot that was due can still run, with no edit of its schedule's time, if and only if a run
      has its announcement in hand, or the schedule stands at it, the next occurrence has not come, and
      no success keeps polls from announcing it until then. */
  lemma FreeSlotRunsExactlyWhen(s: State, due: Due, rerun: Id)
    requires Steady(s) && due.schedule in s.schedules && due.slot <= s.now && !SlotTaken(s.rows, due.schedule, due.slot)
    requires rerun !in s.rows && rerun !in s.processes
    ensures (exists ops :: RunsIn(s, due, ops)) <==> CanRun(s, due)
  {
    if CanRun(s, due) {
      var ops := ReachableSlotRuns(s, due, rerun, "");
      assert After(s, ops).starts[|s.starts|] == rerun;
      assert RunsIn(s, due, ops);
    } else {
      forall ops | Possible(s, ops) && Regular(s, ops) ensures !RunsIn(s, due, ops) {
        SpentForever(s, ops, due, |s.starts|);
      }
    }
  }

  /** In every reachable state: the slot a run gave back, for whatever cause, if it is free, can run
      again exactly under that condition. */
  lemma GivenBackSlotRunsAgainExactlyWhen(ops: seq<Op>, run: Id, rerun: Id)
    requires AllWellformed(START) && Possible(START, ops)
    requires var s := After(START, ops);
      && run in s.processes && s.processes[run].slot.Some? && s.processes[run].gaveBack.Some?
      && !SlotTaken(s.rows, s.processes[run].schedule, s.processes[run].slot.value)
      && rerun !in s.processes && rerun !in s.rows
    ensures
      var s := After(START, ops);
      var due := Due(s.processes[run].schedule, s.processes[run].slot.value);
      due.schedule in s.schedules && ((exists more :: RunsIn(s, due, more)) <==> CanRun(s, due))
  {
    StartIsSafe();
    SteadyAlways(START, ops);
    var s := After(START, ops);
    FreeSlotRunsExactlyWhen(s, Due(s.processes[run].schedule, s.processes[run].slot.value), rerun);
  }
}
