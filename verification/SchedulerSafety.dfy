/** Slot safety over every interleaving: a slot's turn starts again only after the
    run that started it gave the slot back, and the causes for that are few. */
module SchedulerSafety {
  import opened Common
  import opened ScheduleTiming
  import opened Scheduler

  /** One run's row and process fit together. */
  predicate RunOk(row: Row, p: Process) {
    && row.schedule == p.schedule
    && row.manual == (p.slot == None)
    && row.slot == (if p.gaveBack == None then p.slot else None)
    && (row.status == Running ==> p.gaveBack == None)
    && (p.phase in {Linked, InTurn} ==> p.gaveBack == None)
    && (p.phase in {Claimed, Linked} ==> !p.started)
    && (p.phase == InTurn ==> p.started)
    && (p.gaveBack.Some? ==> CauseFits(p.started, p.gaveBack.value))
    && (p.phase.Finishing? && p.phase.giveBack.Some? ==> CauseFits(p.started, p.phase.giveBack.value))
    && (p.phase.Finishing? ==> p.phase.status != Running)
  }

  predicate CauseFits(started: bool, c: Cause) {
    c == BootReaped || BeforeTurn(c) == !started
  }

  ghost predicate Paired(s: State) {
    && s.rows.Keys == s.processes.Keys
    && forall r :: r in s.rows ==> RunOk(s.rows[r], s.processes[r])
  }

  /** The unique index on (schedule, slot). */
  ghost predicate OnePerSlot(rows: map<Id, Row>) {
    forall q, r ::
      (q in rows && r in rows && rows[q].slot.Some?
       && rows[q].slot == rows[r].slot && rows[q].schedule == rows[r].schedule) ==> q == r
  }

  predicate SameSlot(p: Process, q: Process) {
    p.slot.Some? && p.slot == q.slot && p.schedule == q.schedule
  }

  /** Whenever two turns started for one slot, the run of the earlier one had given it back. */
  ghost predicate StartsInOrder(s: State) {
    && (forall i :: 0 <= i < |s.starts| ==> s.starts[i] in s.processes && s.processes[s.starts[i]].started)
    && (forall i, j :: 0 <= i < j < |s.starts| && SameSlot(s.processes[s.starts[i]], s.processes[s.starts[j]]) ==>
          s.processes[s.starts[i]].gaveBack.Some?)
  }

  ghost predicate Safe(s: State) {
    AllWellformed(s) && Paired(s) && OnePerSlot(s.rows) && StartsInOrder(s)
  }

  // ---------------------------------------------------------------- one step

  /** The run whose row or process a step changes, if any. */
  function Subject(op: Op): Option<Id> {
    match op
    case Claim(r, _) => Some(r)
    case RunNow(r, _) => Some(r)
    case Renew(r) => Some(r)
    case Link(r, _) => Some(r)
    case StartTurn(r) => Some(r)
    case RecordOutcome(r, _, _) => Some(r)
    case RefuseTurn(r) => Some(r)
    case Cancel(r) => Some(r)
    case RecordError(r, _, _, _) => Some(r)
    case Finish(r) => Some(r)
    case Crash(r) => Some(r)
    case Reap(r) => Some(r)
    case BootReap(r) => Some(r)
    case _ => None
  }

  /** `r` is as before: its process is the same, its row too, but for a conversation deleted under it. */
  ghost predicate SameRun(s: State, t: State, r: Id) {
    && (r in t.processes <==> r in s.processes)
    && (r in t.rows <==> r in s.rows)
    && (r in s.processes ==> t.processes[r] == s.processes[r])
    && (r in s.rows ==> t.rows[r] == s.rows[r] || t.rows[r] == s.rows[r].(conversation := None))
  }

  /** The operations of a run up to its turn, at its end, and those that find it dead. */
  predicate Beginning(op: Op) {
    op.Claim? || op.RunNow? || op.Renew? || op.Link? || op.StartTurn?
  }

  predicate Closing(op: Op) {
    op.RecordOutcome? || op.RefuseTurn? || op.Cancel? || op.RecordError? || op.Finish?
  }

  predicate Burying(op: Op) {
    op.Crash? || op.Reap? || op.BootReap?
  }

  lemma UntouchedBeginning(s: State, op: Op, r: Id)
    requires Safe(s) && Enabled(s, op) && Beginning(op) && Subject(op) != Some(r)
    ensures SameRun(s, Step(s, op), r)
  {
  }

  lemma UntouchedClosing(s: State, op: Op, r: Id)
    requires Safe(s) && Enabled(s, op) && Closing(op) && Subject(op) != Some(r)
    ensures SameRun(s, Step(s, op), r)
  {
  }

  lemma UntouchedBurying(s: State, op: Op, r: Id)
    requires Safe(s) && Enabled(s, op) && Burying(op) && Subject(op) != Some(r)
    ensures SameRun(s, Step(s, op), r)
  {
  }

  lemma UntouchedElsewhere(s: State, op: Op, r: Id)
    requires Safe(s) && Enabled(s, op) && Subject(op) == None
    ensures SameRun(s, Step(s, op), r)
  {
  }

  lemma OthersUntouched(s: State, op: Op, r: Id)
    requires Safe(s) && Enabled(s, op) && Subject(op) != Some(r)
    ensures SameRun(s, Step(s, op), r)
  {
    if Beginning(op) {
      UntouchedBeginning(s, op, r);
    } else if Closing(op) {
      UntouchedClosing(s, op, r);
    } else if Burying(op) {
      UntouchedBurying(s, op, r);
    } else {
      UntouchedElsewhere(s, op, r);
    }
  }

  /** A process keeps its slot and schedule, and what it once did. */
  predicate Remembers(before: Process, after: Process) {
    && after.slot == before.slot && after.schedule == before.schedule
    && (before.started ==> after.started)
    && (before.gaveBack.Some? ==> after.gaveBack == before.gaveBack)
  }

  /** What a step makes of its own run's row and process. */
  ghost predicate Follows(s: State, t: State, r: Id) {
    && r in t.rows && r in t.processes && RunOk(t.rows[r], t.processes[r])
    && (r in s.processes ==> Remembers(s.processes[r], t.processes[r]))
  }

  lemma FollowsBeginning(s: State, op: Op, r: Id)
    requires Safe(s) && Enabled(s, op) && Beginning(op) && Subject(op) == Some(r)
    ensures Follows(s, Step(s, op), r)
  {
    assert r in s.rows ==> RunOk(s.rows[r], s.processes[r]);
  }

  lemma FollowsOutcome(s: State, op: Op, r: Id)
    requires Safe(s) && Enabled(s, op) && op.RecordOutcome? && Subject(op) == Some(r)
    ensures Follows(s, Step(s, op), r)
  {
    assert RunOk(s.rows[r], s.processes[r]);
  }

  lemma FollowsError(s: State, op: Op, r: Id)
    requires Safe(s) && Enabled(s, op) && op.RecordError? && Subject(op) == Some(r)
    ensures Follows(s, Step(s, op), r)
  {
    assert RunOk(s.rows[r], s.processes[r]);
  }

  lemma FollowsClosing(s: State, op: Op, r: Id)
    requires Safe(s) && Enabled(s, op) && (op.RefuseTurn? || op.Cancel? || op.Finish?) && Subject(op) == Some(r)
    ensures Follows(s, Step(s, op), r)
  {
    assert RunOk(s.rows[r], s.processes[r]);
  }

  lemma FollowsBurying(s: State, op: Op, r: Id)
    requires Safe(s) && Enabled(s, op) && Burying(op) && Subject(op) == Some(r)
    ensures Follows(s, Step(s, op), r)
  {
    assert RunOk(s.rows[r], s.processes[r]);
  }

  lemma SubjectStep(s: State, op: Op, r: Id)
    requires Safe(s) && Enabled(s, op) && Subject(op) == Some(r)
    ensures Follows(s, Step(s, op), r)
  {
    if Beginning(op) {
      FollowsBeginning(s, op, r);
    } else if op.RecordOutcome? {
      FollowsOutcome(s, op, r);
    } else if op.RecordError? {
      FollowsError(s, op, r);
    } else if Closing(op) {
      FollowsClosing(s, op, r);
    } else {
      FollowsBurying(s, op, r);
    }
  }

  lemma PairedStep(s: State, op: Op)
    requires Safe(s) && Enabled(s, op)
    ensures Paired(Step(s, op))
  {
    var s' := Step(s, op);
    forall r ensures r in s'.rows <==> r in s'.processes {
      if Subject(op) == Some(r) {
        SubjectStep(s, op, r);
      } else {
        OthersUntouched(s, op, r);
      }
    }
    forall r | r in s'.rows ensures RunOk(s'.rows[r], s'.processes[r]) {
      if Subject(op) == Some(r) {
        SubjectStep(s, op, r);
      } else {
        OthersUntouched(s, op, r);
        assert RunOk(s.rows[r], s.processes[r]);
      }
    }
  }

  /** Only a claim gives a row a slot, and only a free one. */
  lemma SlotOrigin(s: State, op: Op, r: Id)
    requires Safe(s) && Enabled(s, op) && r in Step(s, op).rows && Step(s, op).rows[r].slot.Some?
    ensures r in s.rows ==>
              s.rows[r].slot == Step(s, op).rows[r].slot && s.rows[r].schedule == Step(s, op).rows[r].schedule
    ensures r !in s.rows ==>
              && op.Claim? && op.run == r
              && Step(s, op).rows[r].schedule == op.due.schedule && Step(s, op).rows[r].slot == Some(op.due.slot)
              && !SlotTaken(s.rows, op.due.schedule, op.due.slot)
  {
    if Subject(op) != Some(r) {
      OthersUntouched(s, op, r);
    }
  }

  lemma OnePerSlotStep(s: State, op: Op)
    requires Safe(s) && Enabled(s, op)
    ensures OnePerSlot(Step(s, op).rows)
  {
    var rows := Step(s, op).rows;
    forall q, r | q in rows && r in rows && rows[q].slot.Some?
      && rows[q].slot == rows[r].slot && rows[q].schedule == rows[r].schedule
      ensures q == r
    {
      SlotOrigin(s, op, q);
      SlotOrigin(s, op, r);
    }
  }

  /** Every run that started a turn keeps its slot, or remembers having given it back. */
  ghost predicate StartersKept(s: State, t: State) {
    forall i :: 0 <= i < |s.starts| ==> SlotKept(s, t, s.starts[i]) && t.processes[s.starts[i]].started
  }

  lemma StartsKept(s: State, t: State)
    requires StartsInOrder(s) && StartersKept(s, t) && t.starts == s.starts
    ensures StartsInOrder(t)
  {
  }

  lemma StartsMore(s: State, t: State, run: Id)
    requires StartsInOrder(s) && StartersKept(s, t) && t.starts == s.starts + [run]
    requires run in t.processes && t.processes[run].started
    requires forall i :: 0 <= i < |s.starts| && SameSlot(t.processes[s.starts[i]], t.processes[run]) ==>
      t.processes[s.starts[i]].gaveBack.Some?
    ensures StartsInOrder(t)
  {
  }

  lemma TurnStart(s: State, run: Id)
    requires Safe(s) && Enabled(s, StartTurn(run)) && StartersKept(s, Step(s, StartTurn(run)))
    ensures StartsInOrder(Step(s, StartTurn(run)))
  {
    var t := Step(s, StartTurn(run));
    forall i | 0 <= i < |s.starts| && SameSlot(t.processes[s.starts[i]], t.processes[run])
      ensures t.processes[s.starts[i]].gaveBack.Some?
    {
      EarlierStarterGaveBack(s, run, s.starts[i]);
    }
    StartsMore(s, t, run);
  }

  lemma StartsStep(s: State, op: Op)
    requires Safe(s) && Enabled(s, op)
    ensures StartsInOrder(Step(s, op))
  {
    var t := Step(s, op);
    forall i | 0 <= i < |s.starts| ensures SlotKept(s, t, s.starts[i]) && t.processes[s.starts[i]].started {
      StarterKept(s, op, s.starts[i]);
    }
    if op.StartTurn? {
      TurnStart(s, op.run);
    } else {
      StartsKept(s, t);
    }
  }

  lemma StarterKept(s: State, op: Op, r: Id)
    requires Safe(s) && Enabled(s, op) && r in s.processes
    ensures SlotKept(s, Step(s, op), r) && (s.processes[r].started ==> Step(s, op).processes[r].started)
  {
    if Subject(op) == Some(r) {
      SubjectStep(s, op, r);
    } else {
      OthersUntouched(s, op, r);
    }
  }

  predicate SlotKept(s: State, s': State, r: Id) {
    && r in s.processes && r in s'.processes
    && s'.processes[r].slot == s.processes[r].slot && s'.processes[r].schedule == s.processes[r].schedule
    && (s.processes[r].gaveBack.Some? ==> s'.processes[r].gaveBack.Some?)
  }

  /** A run about to start its turn holds its slot in the table, so any other run that
      started one for the same slot no longer does. */
  lemma EarlierStarterGaveBack(s: State, run: Id, earlier: Id)
    requires Safe(s) && AtPhase(s, run, Linked)
    requires earlier in s.processes && s.processes[earlier].started
    requires SameSlot(s.processes[earlier], s.processes[run])
    ensures s.processes[earlier].gaveBack.Some?
  {
    assert RunOk(s.rows[run], s.processes[run]);
    assert RunOk(s.rows[earlier], s.processes[earlier]);
  }

  lemma SafeStep(s: State, op: Op)
    requires Safe(s) && Enabled(s, op)
    ensures Safe(Step(s, op))
  {
    PairedStep(s, op);
    OnePerSlotStep(s, op);
    StartsStep(s, op);
  }

  // ---------------------------------------------------------------- whole runs

  lemma {:induction false} SafeAlways(s: State, ops: seq<Op>)
    requires Safe(s) && Possible(s, ops)
    ensures Safe(After(s, ops))
    decreases |ops|
  {
    if ops != [] {
      SafeStep(s, ops[0]);
      SafeAlways(Step(s, ops[0]), ops[1..]);
    }
  }

  lemma StartIsSafe()
    ensures Safe(START)
  {
  }

  /** For any replicas interleaving any steps: when two runs both started a turn for one
      slot, the earlier one's turn was refused or cut by a shutdown, its schedule was
      paused when it failed, its error could not be recorded, its conversation was
      deleted before its process was found dead, or a booting server reaped it. */
  lemma SecondTurnNeedsACause(ops: seq<Op>, i: nat, j: nat)
    requires AllWellformed(START) && Possible(START, ops)
    requires i < j < |After(START, ops).starts|
    requires var s := After(START, ops);
      && s.starts[i] in s.processes && s.starts[j] in s.processes
      && SameSlot(s.processes[s.starts[i]], s.processes[s.starts[j]])
    ensures var p := After(START, ops).processes[After(START, ops).starts[i]];
      && p.gaveBack.Some?
      && p.gaveBack.value in {Refused, Cut, Paused, Unrecorded, ConversationDeleted, BootReaped}
  {
    StartIsSafe();
    SafeAlways(START, ops);
    var s := After(START, ops);
    assert RunOk(s.rows[s.starts[i]], s.processes[s.starts[i]]);
  }

  /** The run is over and its row keeps the slot. */
  predicate Settled(s: State, run: Id) {
    && run in s.rows && run in s.processes
    && s.rows[run].status != Running && s.rows[run].slot.Some?
    && s.processes[run].phase == Gone
  }

  lemma SettledStep(s: State, op: Op, run: Id)
    requires Safe(s) && Enabled(s, op) && Settled(s, run)
    ensures Settled(Step(s, op), run)
    ensures Step(s, op).rows[run].slot == s.rows[run].slot && Step(s, op).rows[run].schedule == s.rows[run].schedule
  {
    if Subject(op) != Some(run) {
      OthersUntouched(s, op, run);
    }
  }

  /** No turn from the n-th on was for this slot. */
  ghost predicate NoneFor(s: State, n: nat, schedule: Id, slot: Option<Time>) {
    forall k :: n <= k < |s.starts| ==>
      && s.starts[k] in s.processes
      && !(s.processes[s.starts[k]].schedule == schedule && s.processes[s.starts[k]].slot == slot)
  }

  lemma NoneForStep(s: State, op: Op, run: Id, n: nat)
    requires Safe(s) && Enabled(s, op) && Settled(s, run)
    requires NoneFor(s, n, s.rows[run].schedule, s.rows[run].slot)
    ensures NoneFor(Step(s, op), n, s.rows[run].schedule, s.rows[run].slot)
  {
    var s' := Step(s, op);
    forall k | n <= k < |s.starts|
      ensures s.starts[k] in s'.processes
      ensures s'.processes[s.starts[k]].schedule == s.processes[s.starts[k]].schedule
      ensures s'.processes[s.starts[k]].slot == s.processes[s.starts[k]].slot
    {
      if Subject(op) == Some(s.starts[k]) {
        SubjectStep(s, op, s.starts[k]);
      } else {
        OthersUntouched(s, op, s.starts[k]);
      }
    }
    if op.StartTurn? {
      assert RunOk(s.rows[op.run], s.processes[op.run]);
    }
  }

  lemma {:induction false} ConsumedFrom(s: State, ops: seq<Op>, run: Id, n: nat)
    requires Safe(s) && Possible(s, ops) && Settled(s, run)
    requires NoneFor(s, n, s.rows[run].schedule, s.rows[run].slot)
    ensures Settled(After(s, ops), run)
    ensures NoneFor(After(s, ops), n, s.rows[run].schedule, s.rows[run].slot)
    decreases |ops|
  {
    if ops != [] {
      SafeStep(s, ops[0]);
      SettledStep(s, ops[0], run);
      NoneForStep(s, ops[0], run, n);
      ConsumedFrom(Step(s, ops[0]), ops[1..], run, n);
    }
  }

  /** Once a run is over and its row keeps the slot, no turn starts for that slot again:
      the run stays settled, and every later start is for another slot. */
  lemma ConsumedSlotStaysConsumed(s: State, ops: seq<Op>, run: Id)
    requires Safe(s) && Possible(s, ops) && Settled(s, run)
    ensures Settled(After(s, ops), run)
    ensures NoneFor(After(s, ops), |s.starts|, s.rows[run].schedule, s.rows[run].slot)
  {
    ConsumedFrom(s, ops, run, |s.starts|);
  }
}
