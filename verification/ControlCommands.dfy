/** Command delivery over every interleaving: one command per idempotency key,
    claim windows that never overlap, a first acknowledgement that stands, and
    the one way a deleted command comes back. */
module ControlCommands {
  import opened Common
  import opened RunState
  import opened ControlModel
  import opened ControlHistory
  import opened ControlFencing

  /** The commands as they will be once the acknowledgement under way, if any, has saved its own. */
  function Settled(p: Plane): map<Id, Command> {
    SaveAck(p).commands
  }

  /** At most one command per run, epoch and non-empty key. */
  ghost predicate OnePerKey(commands: map<Id, Command>) {
    forall i, j ::
      (i in commands && j in commands && commands[i].key != ""
       && SameKey(commands[j], commands[i].runId, commands[i].epoch, commands[i].key)) ==> i == j
  }

  ghost predicate Disjoint(windows: seq<Window>) {
    forall i, j :: 0 <= i < j < |windows| ==> windows[i].until <= windows[j].from
  }

  /** A command's claim columns agree with its windows: no window of an
      unacknowledged command ends after the one its expiry column names. */
  predicate Consistent(c: Command, windows: seq<Window>, now: Time) {
    && c.deliveryCount == |windows|
    && (c.ackedAt == None ==>
          if windows == [] then c.claimExpiresAt == None
          else c.claimExpiresAt == Some(windows[|windows| - 1].until))
    && (windows != [] ==> windows[|windows| - 1].from <= now
                          && windows[|windows| - 1].until == windows[|windows| - 1].from + CLAIM_DURATION)
  }

  /** An acknowledgement under way holds its command as it is stored, unacknowledged and of the run's
      current execution; the command is gone only if its run is. */
  predicate Sound(w: World) {
    w.plane.ack.Some? ==>
      var a, p := w.plane.ack.value, w.plane;
      && a.read.ackedAt == None
      && a.written.ackedAt.Some?
      && a.written == Acked(a.read, a.written.ackedAt.value, a.written.result, a.written.error)
      && (a.command in p.commands ==> p.commands[a.command] == a.read)
      && a.read.runId in w.used
      && (a.read.runId in p.runs ==> a.command in p.commands && p.runs[a.read.runId].epoch == a.read.epoch)
  }

  ghost predicate Delivered(w: World) {
    && Sound(w)
    && OnePerKey(Settled(w.plane))
    && (forall id :: id in w.windows ==> Disjoint(w.windows[id]))
    && (forall id :: id in Settled(w.plane) ==>
          Consistent(Settled(w.plane)[id], WindowsOf(w.windows, id), w.plane.now))
  }

  /** What holds of the settled commands holds of the stored ones. */
  lemma StoredIsSettled(w: World)
    requires Delivered(w)
    ensures w.plane.commands.Keys <= Settled(w.plane).Keys
    ensures forall id :: id in w.plane.commands && w.plane.commands[id].ackedAt.Some? ==>
              w.plane.commands[id] == Settled(w.plane)[id]
    ensures OnePerKey(w.plane.commands)
  {
    var p := w.plane;
    forall i, j | i in p.commands && j in p.commands && p.commands[i].key != ""
      && SameKey(p.commands[j], p.commands[i].runId, p.commands[i].epoch, p.commands[i].key)
      ensures i == j
    {
      assert Settled(p)[i].key == p.commands[i].key;
      assert SameKey(Settled(p)[j], Settled(p)[i].runId, Settled(p)[i].epoch, Settled(p)[i].key);
    }
  }

  // ---------------------------------------------------------------- one command

  /** What one step makes of a command that exists before and after it. */
  predicate CommandMoves(p: Plane, op: Op, id: Id, after: Command)
    requires id in Settled(p)
  {
    var c := Settled(p)[id];
    if ClaimedBy(p, op, id) then after == ClaimCommand(c, p.now)
    else
      || after == c
      || (c.ackedAt == None && op.BeginAck? && op.command == id && after == Acked(c, p.now, op.result, op.error))
  }

  lemma CommandStep(w: World, op: Op, id: Id)
    requires Enabled(w, op) && id !in Minted(op)
    requires id in Settled(w.plane) && id in Settled(Step(w.plane, op))
    ensures CommandMoves(w.plane, op, id, Settled(Step(w.plane, op))[id])
  {
  }

  lemma NewCommandStep(w: World, op: Op, id: Id)
    requires Enabled(w, op) && id !in Settled(w.plane) && id in Settled(Step(w.plane, op))
    ensures op.Queue? && op.command == id && op.run in w.plane.runs
    ensures Settled(Step(w.plane, op))[id] == NewCommand(op.run, w.plane.runs[op.run].epoch, op.kind, op.key)
    ensures !KeyTaken(Settled(w.plane), op.run, w.plane.runs[op.run].epoch, op.key)
  {
  }

  lemma OnePerKeyStep(w: World, op: Op)
    requires Known(w) && Enabled(w, op) && OnePerKey(Settled(w.plane))
    ensures OnePerKey(Settled(Step(w.plane, op)))
  {
    var before, after := Settled(w.plane), Settled(Step(w.plane, op));
    forall i, j | i in after && j in after && after[i].key != ""
      && SameKey(after[j], after[i].runId, after[i].epoch, after[i].key)
      ensures i == j
    {
      SettledIsKnown(w);
      if i in before {
        CommandStep(w, op, i);
      } else {
        NewCommandStep(w, op, i);
      }
      if j in before {
        CommandStep(w, op, j);
      } else {
        NewCommandStep(w, op, j);
      }
    }
  }

  lemma SettledIsKnown(w: World)
    requires Known(w)
    ensures Settled(w.plane).Keys <= w.used
  {
  }

  /** What the operations that do not take the lock leave of the commands. */
  lemma UnlockedCommands(p: Plane, op: Op, id: Id)
    requires !TakesLock(op) && !op.EndAck?
    ensures Step(p, op).ack == p.ack
    ensures id in Step(p, op).commands ==> id in p.commands && Step(p, op).commands[id] == p.commands[id]
    ensures id in p.commands && p.commands[id].runId in Step(p, op).runs ==> id in Step(p, op).commands
  {
  }

  lemma UnlockedRuns(p: Plane, op: Op, run: Id)
    requires !TakesLock(op) && run in Step(p, op).runs && run !in Minted(op)
    ensures run in p.runs && Step(p, op).runs[run].epoch == p.runs[run].epoch
  {
  }

  lemma BegunAck(p: Plane, op: Op)
    requires op.BeginAck? && Step(p, op) != p
    ensures op.run in p.runs && Fenced(p.runs[op.run], op.computer, op.lease, op.epoch, p.now)
    ensures op.command in p.commands && p.commands[op.command].runId == op.run
    ensures p.commands[op.command].epoch == p.runs[op.run].epoch && p.commands[op.command].ackedAt == None
    ensures
      var c := p.commands[op.command];
      Step(p, op) == p.(ack := Some(Ack(op.command, op.lease, c, Acked(c, p.now, op.result, op.error))))
  {
  }

  lemma SoundStep(w: World, op: Op)
    requires Known(w) && Enabled(w, op) && Sound(w)
    ensures Sound(Next(w, op))
  {
    var p := w.plane;
    if p.ack.Some? && !op.EndAck? {
      var run := p.ack.value.read.runId;
      UnlockedCommands(p, op, p.ack.value.command);
      if run in Step(p, op).runs {
        UnlockedRuns(p, op, run);
      }
    } else if op.BeginAck? && Step(p, op) != p {
      BegunAck(p, op);
    } else {
      NoAckBegun(p, op);
    }
  }

  lemma NoAckBegun(p: Plane, op: Op)
    requires p.ack == None || op.EndAck?
    ensures (op.BeginAck? && Step(p, op) != p) || Step(p, op).ack == None
  {
  }

  lemma WindowStep(w: World, op: Op, id: Id)
    requires Known(w) && Enabled(w, op) && Delivered(w)
    requires id in NextWindows(w, op)
    ensures Disjoint(NextWindows(w, op)[id])
  {
    var windows := WindowsOf(w.windows, id);
    assert Disjoint(windows);
    if ClaimedBy(w.plane, op, id) {
      assert Consistent(Settled(w.plane)[id], windows, w.plane.now);
      if windows != [] {
        assert windows[|windows| - 1].until <= w.plane.now;
        assert forall i :: 0 <= i < |windows| ==> windows[i].until <= w.plane.now by {
          LastIsLatest(windows);
        }
      }
    }
  }

  lemma LastIsLatest(windows: seq<Window>)
    requires Disjoint(windows) && windows != []
    requires windows[|windows| - 1].from <= windows[|windows| - 1].until
    ensures forall i :: 0 <= i < |windows| ==> windows[i].until <= windows[|windows| - 1].until
  {
  }

  lemma DeliveredStep(w: World, op: Op)
    requires Known(w) && Enabled(w, op) && Delivered(w)
    ensures Delivered(Next(w, op))
  {
    var w' := Next(w, op);
    SoundStep(w, op);
    OnePerKeyStep(w, op);
    forall id | id in w'.windows ensures Disjoint(w'.windows[id]) {
      WindowStep(w, op, id);
    }
    forall id | id in Settled(w'.plane)
      ensures Consistent(Settled(w'.plane)[id], WindowsOf(w'.windows, id), w'.plane.now)
    {
      if id in Settled(w.plane) {
        ConsistentKept(w, op, id);
      } else {
        ConsistentNew(w, op, id);
      }
    }
  }

  lemma ConsistentMoves(p: Plane, op: Op, id: Id, after: Command, windows: seq<Window>, now: Time)
    requires id in Settled(p) && CommandMoves(p, op, id, after) && Consistent(Settled(p)[id], windows, p.now)
    requires p.now <= now && (ClaimedBy(p, op, id) ==> now == p.now)
    ensures
      var more := if ClaimedBy(p, op, id) then [Window(p.now, p.now + CLAIM_DURATION)] else [];
      Consistent(after, windows + more, now)
  {
  }

  lemma ConsistentKept(w: World, op: Op, id: Id)
    requires Known(w) && Enabled(w, op) && id in Settled(w.plane) && id in Settled(Step(w.plane, op))
    requires Consistent(Settled(w.plane)[id], WindowsOf(w.windows, id), w.plane.now)
    ensures Consistent(Settled(Step(w.plane, op))[id], WindowsOf(NextWindows(w, op), id), Step(w.plane, op).now)
  {
    SettledIsKnown(w);
    CommandStep(w, op, id);
    ClockMovesOn(w.plane, op);
    ClaimKeepsClock(w.plane, op, id);
    ConsistentMoves(w.plane, op, id, Settled(Step(w.plane, op))[id], WindowsOf(w.windows, id), Step(w.plane, op).now);
  }

  lemma ConsistentNew(w: World, op: Op, id: Id)
    requires Known(w) && Enabled(w, op) && id !in Settled(w.plane) && id in Settled(Step(w.plane, op))
    ensures Consistent(Settled(Step(w.plane, op))[id], WindowsOf(NextWindows(w, op), id), Step(w.plane, op).now)
  {
    NewCommandStep(w, op, id);
    assert id !in w.windows;
    assert WindowsOf(NextWindows(w, op), id) == [];
  }

  lemma ClaimKeepsClock(p: Plane, op: Op, id: Id)
    ensures ClaimedBy(p, op, id) ==> Step(p, op).now == p.now
  {
  }

  // ---------------------------------------------------------------- whole runs

  /** Over any operations: one command per key, no two claim windows of a command overlap, and an
      acknowledgement is saved under the run's current execution unless the run was deleted. */
  lemma {:induction false} OneDeliveryAtATime(w: World, ops: seq<Op>)
    requires Known(w) && Possible(w, ops) && Delivered(w)
    ensures Delivered(After(w, ops)) && OnePerKey(After(w, ops).plane.commands)
    decreases |ops|
  {
    if ops == [] {
      StoredIsSettled(w);
    } else {
      KnownStep(w, ops[0]);
      DeliveredStep(w, ops[0]);
      OneDeliveryAtATime(Next(w, ops[0]), ops[1..]);
    }
  }

  lemma StartIsDelivered()
    ensures Delivered(START)
  {
  }

  /** No acknowledgement of this command is under way. */
  predicate Quiet(p: Plane, id: Id) {
    p.ack.Some? ==> p.ack.value.command != id
  }

  /** Nothing but `c` is stored under this id, `c` is acknowledged, and no acknowledgement is under way. */
  predicate Standing(w: World, id: Id, c: Command) {
    && c.ackedAt.Some?
    && id in w.used
    && Quiet(w.plane, id)
    && (id in w.plane.commands ==> w.plane.commands[id] == c)
  }

  /** What one step does to an acknowledged command nobody is acknowledging. */
  lemma QuietStep(p: Plane, op: Op, id: Id)
    requires Quiet(p, id) && id !in Minted(op)
    requires id in p.commands ==> p.commands[id].ackedAt.Some?
    ensures Quiet(Step(p, op), id)
    ensures id in Step(p, op).commands ==> id in p.commands && Step(p, op).commands[id] == p.commands[id]
  {
  }

  lemma StandingStep(w: World, op: Op, id: Id, c: Command)
    requires Known(w) && Enabled(w, op) && Standing(w, id, c)
    ensures Standing(Next(w, op), id, c)
    ensures WindowsOf(NextWindows(w, op), id) == WindowsOf(w.windows, id)
    ensures id !in w.plane.commands ==> id !in Step(w.plane, op).commands
  {
    QuietStep(w.plane, op, id);
    assert !ClaimedBy(w.plane, op, id);
  }

  lemma {:induction false} StandingAlways(w: World, ops: seq<Op>, id: Id, c: Command)
    requires Known(w) && Possible(w, ops) && Standing(w, id, c)
    ensures Standing(After(w, ops), id, c)
    ensures WindowsOf(After(w, ops).windows, id) == WindowsOf(w.windows, id)
    ensures id !in w.plane.commands ==> id !in After(w, ops).plane.commands
    decreases |ops|
  {
    if ops != [] {
      KnownStep(w, ops[0]);
      StandingStep(w, ops[0], id, c);
      StandingAlways(Next(w, ops[0]), ops[1..], id, c);
    }
  }

  /** An acknowledged command keeps its acknowledgement, result and error for as
      long as it is stored, and is never claimed again. */
  lemma FirstAcknowledgementStands(w: World, ops: seq<Op>, id: Id)
    requires Known(w) && Possible(w, ops) && Delivered(w)
    requires id in w.plane.commands && w.plane.commands[id].ackedAt.Some?
    ensures var later := After(w, ops);
      && (id in later.plane.commands ==> later.plane.commands[id] == w.plane.commands[id])
      && WindowsOf(later.windows, id) == WindowsOf(w.windows, id)
  {
    StandingAlways(w, ops, id, w.plane.commands[id]);
  }

  // ---------------------------------------------------------------- removed commands

  /** A command that is gone comes back with a step exactly when the step saves an
      acknowledgement that read it before it went. */
  lemma ReturnsExactlyWhen(w: World, op: Op, id: Id)
    requires Known(w) && Enabled(w, op) && id in w.used && id !in w.plane.commands
    ensures id in Next(w, op).plane.commands <==> Saves(w.plane, op, id)
  {
    if id in Next(w, op).plane.commands {
      CommandOrigin(w.plane, op, id);
    }
  }

  /** A command that is gone while no acknowledgement of it is under way stays gone for good. */
  lemma RemovedStaysRemoved(w: World, ops: seq<Op>, id: Id)
    requires Known(w) && Possible(w, ops) && id in w.used && id !in w.plane.commands && Quiet(w.plane, id)
    ensures var later := After(w, ops);
      id !in later.plane.commands && WindowsOf(later.windows, id) == WindowsOf(w.windows, id)
  {
    StandingAlways(w, ops, id, Acked(NewCommand(id, 0, "", ""), 0, None, None));
  }

  /** Retention removes only commands of which no acknowledgement is under way, so they stay removed. */
  lemma PrunedStaysRemoved(w: World, before: Time, ops: seq<Op>, id: Id)
    requires Known(w) && Enabled(w, PruneBefore(before)) && Possible(Next(w, PruneBefore(before)), ops)
    requires id in w.plane.commands && id !in Next(w, PruneBefore(before)).plane.commands
    ensures id !in After(Next(w, PruneBefore(before)), ops).plane.commands
  {
    KnownStep(w, PruneBefore(before));
    RemovedStaysRemoved(Next(w, PruneBefore(before)), ops, id);
  }

  /** A stored, acknowledged command of a run that is gone for good. */
  predicate Orphan(w: World, id: Id, c: Command) {
    && id in w.plane.commands
    && Standing(w, id, c)
    && c.runId in w.used
    && c.runId !in w.plane.runs
  }

  predicate Discards(op: Op, c: Command) {
    op.PruneBefore? && Prunable(c, op.before)
  }

  lemma OrphanKept(p: Plane, op: Op, id: Id)
    requires id in p.commands && p.commands[id].runId !in p.runs && !Discards(op, p.commands[id])
    ensures id in Step(p, op).commands
  {
  }

  lemma OrphanStep(w: World, op: Op, id: Id, c: Command)
    requires Known(w) && Enabled(w, op) && Orphan(w, id, c) && !Discards(op, c)
    ensures Orphan(Next(w, op), id, c)
  {
    StandingStep(w, op, id, c);
    OrphanKept(w.plane, op, id);
    if c.runId in Step(w.plane, op).runs {
      NewRunsHoldNothing(w.plane, op, c.runId);
    }
  }

  /** It stays, whatever is deleted or acknowledged, until retention takes it. */
  lemma {:induction false} OrphanStays(w: World, ops: seq<Op>, id: Id, c: Command)
    requires Known(w) && Possible(w, ops) && Orphan(w, id, c)
    requires forall k :: 0 <= k < |ops| ==> !Discards(ops[k], c)
    ensures Orphan(After(w, ops), id, c)
    decreases |ops|
  {
    if ops != [] {
      KnownStep(w, ops[0]);
      OrphanStep(w, ops[0], id, c);
      OrphanStays(Next(w, ops[0]), ops[1..], id, c);
    }
  }

  /** Deleting its task removes the command of an acknowledgement under way; the acknowledgement goes on. */
  lemma DeletedUnderAck(w: World)
    requires Sound(w) && w.plane.ack.Some? && w.plane.ack.value.read.runId in w.plane.runs
    ensures var a, task := w.plane.ack.value, w.plane.runs[w.plane.ack.value.read.runId].taskId;
      && Enabled(w, Delete(task))
      && a.command in w.plane.commands
      && a.command !in Step(w.plane, Delete(task)).commands
      && Step(w.plane, Delete(task)).ack == Some(a)
  {
  }

  lemma SavedIsOrphan(w: World)
    requires Known(w) && Sound(w) && w.plane.ack.Some? && w.plane.ack.value.read.runId !in w.plane.runs
    ensures Orphan(Next(w, EndAck), w.plane.ack.value.command, w.plane.ack.value.written)
  {
  }

  /** A command deleted while its acknowledgement is under way comes back when the acknowledgement is
      saved, whatever happens in between, though its run is gone. */
  lemma {:induction false} DeletedCommandComesBack(w: World, ops: seq<Op>)
    requires Known(w) && Sound(w) && w.plane.ack.Some? && w.plane.ack.value.command !in w.plane.commands
    requires Possible(w, ops) && EndAck !in ops
    ensures var later := After(w, ops);
      && w.plane.ack.value.command !in later.plane.commands
      && Enabled(later, EndAck)
      && Orphan(Next(later, EndAck), w.plane.ack.value.command, w.plane.ack.value.written)
    decreases |ops|
  {
    if ops == [] {
      SavedIsOrphan(w);
    } else {
      assert ops[0] in ops;
      KnownStep(w, ops[0]);
      SoundStep(w, ops[0]);
      UnlockedCommands(w.plane, ops[0], w.plane.ack.value.command);
      DeletedCommandComesBack(Next(w, ops[0]), ops[1..]);
    }
  }

  // ---------------------------------------------------------------- an acknowledgement outlives its lease

  /** An acknowledgement under way is saved by the next save, whatever comes before it: the run may have
      lost the lease, moved on or gone. */
  lemma {:induction false} AckIsSaved(w: World, ops: seq<Op>)
    requires Known(w) && Sound(w) && w.plane.ack.Some? && Possible(w, ops) && EndAck !in ops
    ensures
      var p, a := After(w, ops).plane, w.plane.ack.value;
      && p.ack == Some(a) && Enabled(After(w, ops), EndAck)
      && Step(p, EndAck).commands == p.commands[a.command := a.written] != p.commands
    decreases |ops|
  {
    if ops == [] {
      var p, a := w.plane, w.plane.ack.value;
      assert a.command in p.commands ==> p.commands[a.command] != a.written;
      assert p.commands[a.command := a.written][a.command] == a.written;
    } else {
      assert ops[0] in ops;
      KnownStep(w, ops[0]);
      SoundStep(w, ops[0]);
      UnlockedCommands(w.plane, ops[0], w.plane.ack.value.command);
      AckIsSaved(Next(w, ops[0]), ops[1..]);
    }
  }

  // ---------------------------------------------------------------- runs that get there

  lemma Append(w: World, ops: seq<Op>, op: Op)
    requires Possible(w, ops) && Enabled(After(w, ops), op)
    ensures Possible(w, ops + [op]) && After(w, ops + [op]) == Next(After(w, ops), op)
    decreases |ops|
  {
    if ops == [] {
      assert ops + [op] == [op];
      assert [op][1..] == [];
    } else {
      assert (ops + [op])[1..] == ops[1..] + [op];
      Append(Next(w, ops[0]), ops[1..], op);
    }
  }

  /** The names in a run of the system with one computer, one leased Task Run and one command. */
  datatype Cast = Cast(run: Id, task: Id, computer: Id, lease: Id, command: Id)

  predicate Registered(w: World, c: Cast) {
    w == START.(plane := START.plane.(computers := {c.computer}))
  }

  predicate Created(w: World, c: Cast) {
    && w.used == {c.run}
    && w.plane == START.plane.(
         computers := {c.computer}, runs := map[c.run := NewRun(c.task, c.computer, Queued, 1, 0)])
  }

  predicate Leased(w: World, c: Cast) {
    && w.used == {c.run, c.lease}
    && w.plane.ack == None && w.plane.now == 0
    && c.run in w.plane.runs && w.plane.runs[c.run].taskId == c.task && w.plane.runs[c.run].status == Preparing
    && Fenced(w.plane.runs[c.run], c.computer, c.lease, 1, 0)
  }

  predicate Acknowledging(w: World, c: Cast) {
    && w.plane.ack.Some? && w.plane.ack.value.command == c.command && UnderWay(w.plane, c.run, c.lease, 1)
    && c.lease in w.used
    && c.run in w.plane.runs && w.plane.runs[c.run].taskId == c.task && w.plane.runs[c.run].status == Preparing
  }

  predicate Commanded(w: World, c: Cast) {
    && w.plane.ack == None && w.plane.now == 0 && c.lease in w.used
    && c.run in w.plane.runs && w.plane.runs[c.run].taskId == c.task && w.plane.runs[c.run].status == Preparing
    && Fenced(w.plane.runs[c.run], c.computer, c.lease, 1, 0)
    && c.command in w.plane.commands && w.plane.commands[c.command] == NewCommand(c.run, 1, "", "")
  }

  lemma Registers(c: Cast)
    ensures Enabled(START, Register(c.computer)) && Registered(Next(START, Register(c.computer)), c)
  {
  }

  lemma Creates(w: World, c: Cast)
    requires Registered(w, c)
    ensures var op := Op.Create(c.run, c.task, c.computer); Enabled(w, op) && Created(Next(w, op), c)
  {
  }

  lemma Leases(w: World, c: Cast)
    requires Created(w, c) && c.lease != c.run
    ensures var op := Acquire(c.computer, c.lease, Some(c.run), {}); Enabled(w, op) && Leased(Next(w, op), c)
  {
    var op := Acquire(c.computer, c.lease, Some(c.run), {});
    AcquiredRun(w.plane, op, c.run);
  }

  lemma Commands(w: World, c: Cast)
    requires Leased(w, c) && c.command !in {c.run, c.lease}
    ensures var op := Queue(c.run, c.command, "", ""); Enabled(w, op) && Commanded(Next(w, op), c)
  {
  }

  lemma Acknowledges(w: World, c: Cast)
    requires Commanded(w, c)
    ensures var op := BeginAck(c.run, c.command, c.computer, c.lease, 1, None, None);
      Enabled(w, op) && Acknowledging(Next(w, op), c)
  {
  }

  /** Runs of the system do reach an acknowledgement under way whose run can still be deleted. */
  lemma AcknowledgementIsReached(c: Cast) returns (ops: seq<Op>)
    requires c.lease != c.run && c.command !in {c.run, c.lease}
    ensures Possible(START, ops) && Acknowledging(After(START, ops), c)
  {
    ops := [Register(c.computer)];
    Registers(c);
    Append(START, [], ops[0]);
    assert [] + ops == ops;
    Creates(After(START, ops), c);
    Append(START, ops, Op.Create(c.run, c.task, c.computer));
    ops := ops + [Op.Create(c.run, c.task, c.computer)];
    Leases(After(START, ops), c);
    Append(START, ops, Acquire(c.computer, c.lease, Some(c.run), {}));
    ops := ops + [Acquire(c.computer, c.lease, Some(c.run), {})];
    Commands(After(START, ops), c);
    Append(START, ops, Queue(c.run, c.command, "", ""));
    ops := ops + [Queue(c.run, c.command, "", "")];
    Acknowledges(After(START, ops), c);
    Append(START, ops, BeginAck(c.run, c.command, c.computer, c.lease, 1, None, None));
    ops := ops + [BeginAck(c.run, c.command, c.computer, c.lease, 1, None, None)];
  }

  lemma CancelEndsLease(w: World, c: Cast)
    requires Acknowledging(w, c)
    ensures var op := SetStatus(c.run, Cancelled, None);
      Enabled(w, op) && Dead(Next(w, op), c.run, c.lease) && UnderWay(Next(w, op).plane, c.run, c.lease, 1)
  {
  }

  /** It happens: the run is cancelled between the two halves of an acknowledgement, which ends its
      lease, and the acknowledgement still writes its command. */
  lemma LateAckIsReached(c: Cast) returns (ops: seq<Op>)
    requires c.lease != c.run && c.command !in {c.run, c.lease}
    ensures Possible(START, ops)
    ensures
      var w := After(START, ops);
      && Dead(w, c.run, c.lease) && UnderWay(w.plane, c.run, c.lease, 1) && Enabled(w, EndAck)
      && Step(w.plane, EndAck).commands != w.plane.commands
  {
    ops := AcknowledgementIsReached(c);
    var cancel := SetStatus(c.run, Cancelled, None);
    CancelEndsLease(After(START, ops), c);
    Append(START, ops, cancel);
    ops := ops + [cancel];
    StartIsDelivered();
    KnownAfter(START, ops);
    OneDeliveryAtATime(START, ops);
    AckIsSaved(After(START, ops), []);
  }
}
