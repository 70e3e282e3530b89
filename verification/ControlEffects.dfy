/** What the control plane's operations make of the records they write, told on the records' own
    fields: which status changes there are, what each kind of event does to a run, when a run starts
    over, who is leased first, what a claim delivers; and that a run that has ended stays as it is. */
module ControlEffects {
  import opened Common
  import opened RunState
  import opened ControlModel
  import opened ControlHistory
  import opened ControlFencing

  // ---------------------------------------------------------------- status changes

  /** From which statuses a run can get into `target`. */
  function Before(target: Status): set<Status> {
    match target
    case Queued => {}
    case Preparing => {Queued, Recovering}
    case Ready => {Preparing, Running, AwaitingApproval, Recovering}
    case Running => {Ready, AwaitingApproval, Recovering}
    case AwaitingApproval => {Running}
    case Completed => {Ready, Running, AwaitingApproval}
    case Cancelled => {Queued, Preparing, Ready, Running, AwaitingApproval, Interrupted, Recovering}
    case Interrupted => {Preparing, Running, AwaitingApproval}
    case Failed => {Queued, Preparing, Ready, Running, AwaitingApproval, Interrupted, Recovering}
    case Recovering => {Preparing, Ready, Running, AwaitingApproval, Interrupted, Failed}
  }

  predicate Leads(from: Status, target: Status) {
    from == target || from in Before(target)
  }

  predicate Ended(s: Status) {
    s == Completed || s == Cancelled || s == Failed
  }

  /** `run` with its status moved to `target`: where it was not there already, the error is the
      one given, a first start is dated, and a run that ends is dated and holds no lease. */
  function Moved(run: Run, target: Status, error: Option<string>, now: Time): Run {
    if run.status == target then run
    else
      var ended := Ended(target);
      run.(status := target,
           lastError := error,
           startedAt := if target == Running && run.startedAt == None then Some(now) else run.startedAt,
           finishedAt := if ended then Some(now) else run.finishedAt,
           leaseId := if ended then None else run.leaseId,
           leaseExpiresAt := if ended then None else run.leaseExpiresAt)
  }

  /** The table that says where a run can go is the table that says where it can come from. */
  lemma SameTable(from: Status, target: Status)
    ensures target in Allowed(from) <==> from in Before(target)
  {
    match from
    case Queued =>
    case Preparing =>
    case Ready =>
    case Running =>
    case AwaitingApproval =>
    case Completed =>
    case Cancelled =>
    case Interrupted =>
    case Failed =>
    case Recovering =>
  }

  lemma TransitionExactlyWhen(run: Run, target: Status, error: Option<string>, now: Time)
    ensures TransitionRun(run, target, error, now).Ok? <==> Leads(run.status, target)
    ensures Leads(run.status, target) ==> TransitionRun(run, target, error, now).value == Moved(run, target, error, now)
  {
    SameTable(run.status, target);
  }

  lemma StatusSetExactlyWhen(p: Plane, r: Id, s: Status, error: Option<string>)
    ensures Step(p, SetStatus(r, s, error)) ==
            if r in p.runs && Leads(p.runs[r].status, s)
            then p.(runs := p.runs[r := Moved(p.runs[r], s, error, p.now)]) else p
  {
    if r in p.runs {
      TransitionExactlyWhen(p.runs[r], s, error, p.now);
    }
  }

  // ---------------------------------------------------------------- events

  /** The status, if any, that an event moves its run to. */
  predicate Applicable(from: Status, kind: EventKind) {
    match kind
    case Checkpoint(_) => true
    case StatusTo(target) => Leads(from, target)
    case StatusUnknown => false
    case TurnCompleted => Leads(from, Ready)
    case RuntimeError(_) => Leads(from, Failed)
    case OtherEvent => true
  }

  predicate LeaseInForce(run: Run, lease: Id, now: Time) {
    run.leaseId == Some(lease) && run.leaseExpiresAt.Some? && now <= run.leaseExpiresAt.value
  }

  /** An event is accepted when it is the last one again, from the run's computer and epoch, or a later
      one under the lease in force whose kind the run's status admits and whose side effects land. */
  predicate Acceptable(p: Plane, e: Event, land: bool) {
    && e.protocol == "1.0"
    && e.runId in p.runs
    && var run := p.runs[e.runId];
       && run.computerId == e.computerId
       && run.epoch == e.epoch
       && (|| (e.seqNo == run.lastEventSeq && run.lastEventId == Some(e.id))
           || (&& run.lastEventSeq < e.seqNo
               && LeaseInForce(run, e.leaseId, p.now)
               && Applicable(run.status, e.kind)
               && land))
  }

  lemma EventAcceptedExactlyWhen(p: Plane, e: Event, land: bool)
    ensures AcceptEvent(p, e, land).Ok? <==> Acceptable(p, e, land)
    ensures !Acceptable(p, e, land) ==> Step(p, Deliver(e, land)) == p
  {
    if e.runId in p.runs {
      var renewed := p.runs[e.runId].(leaseExpiresAt := Some(p.now + LEASE_DURATION));
      match e.kind {
        case StatusTo(target) => TransitionExactlyWhen(renewed, target, None, p.now);
        case TurnCompleted => TransitionExactlyWhen(renewed, Ready, None, p.now);
        case RuntimeError(message) => TransitionExactlyWhen(renewed, Failed, Some(message), p.now);
        case _ =>
      }
    }
  }

  /** What a new event makes of its run: thirty more seconds of lease, its sequence number and id, and
      besides these a checkpoint replaces the checkpoint, a status event gives its status, the end of a
      turn makes the run ready, an error fails it with that message, and no other event does more. */
  function WithEvent(run: Run, e: Event, now: Time): Run {
    var renewed := run.(leaseExpiresAt := Some(now + 30), lastEventSeq := e.seqNo, lastEventId := Some(e.id));
    match e.kind
    case Checkpoint(data) => renewed.(checkpoint := data)
    case StatusTo(target) => Moved(renewed, target, None, now)
    case TurnCompleted => Moved(renewed, Ready, None, now)
    case RuntimeError(message) => Moved(renewed, Failed, Some(message), now)
    case _ => renewed
  }

  lemma EventEffect(p: Plane, e: Event)
    requires Acceptable(p, e, true) && p.runs[e.runId].lastEventSeq < e.seqNo
    ensures
      Step(p, Deliver(e, true)) == p.(runs := p.runs[e.runId := WithEvent(p.runs[e.runId], e, p.now)])
    ensures
      var run, after := p.runs[e.runId], Step(p, Deliver(e, true)).runs[e.runId];
      && (e.kind.Checkpoint? || e.kind.OtherEvent? ==> after.status == run.status)
      && (e.kind.StatusTo? ==> after.status == e.kind.target)
      && (e.kind.TurnCompleted? ==>
            after.status == Ready && after.leaseId == run.leaseId && after.leaseExpiresAt == Some(p.now + 30))
      && (e.kind.RuntimeError? && run.status != Failed ==>
            after.status == Failed && after.lastError == Some(e.kind.message) && after.leaseId == None)
      && after.checkpoint == (if e.kind.Checkpoint? then e.kind.data else run.checkpoint)
  {
    var renewed := p.runs[e.runId].(leaseExpiresAt := Some(p.now + LEASE_DURATION));
    match e.kind {
      case StatusTo(target) => TransitionExactlyWhen(renewed, target, None, p.now);
      case TurnCompleted => TransitionExactlyWhen(renewed, Ready, None, p.now);
      case RuntimeError(message) => TransitionExactlyWhen(renewed, Failed, Some(message), p.now);
      case _ =>
    }
  }

  /** The last event again changes nothing, accepted or not. */
  lemma RedeliveryChangesNothing(p: Plane, e: Event, land: bool)
    requires e.runId in p.runs && e.seqNo <= p.runs[e.runId].lastEventSeq
    ensures Step(p, Deliver(e, land)) == p
  {
    assert p.runs[e.runId := p.runs[e.runId]] == p.runs;
  }

  // ---------------------------------------------------------------- a run starts over

  predicate Lapsed(run: Run, now: Time) {
    && run.leaseExpiresAt.Some?
    && run.leaseExpiresAt.value < now
    && (run.status == Preparing || run.status == Ready || run.status == Running || run.status == AwaitingApproval)
  }

  /** A new execution of the run: the next epoch, unleased, without events and checkpoint, to be taken up. */
  function StartedOver(run: Run, computer: Id, mode: ResumeMode, error: Option<string>): Run {
    Run(run.taskId, computer, Recovering, run.epoch + 1, None, None, 0, None, "", mode, run.recoveryCount + 1, error,
        run.createdAt, run.startedAt, run.finishedAt)
  }

  const SILENT := "The computer stopped responding. The task can be resumed safely."

  /** A run whose lease has run out starts over where it was, and no other run changes. */
  lemma ExpiryStartsOver(p: Plane, restorable: set<Id>)
    ensures
      var after := Step(p, Expire(restorable));
      && after == p.(runs := after.runs)
      && after.runs.Keys == p.runs.Keys
      && forall id :: id in p.runs ==>
           var run := p.runs[id];
           after.runs[id] ==
           if Lapsed(run, p.now)
           then StartedOver(run, run.computerId, if id in restorable then Restore else Prepare, Some(SILENT)) else run
  {
    forall id | id in p.runs
      ensures var run := p.runs[id];
        Step(p, Expire(restorable)).runs[id] ==
        if Lapsed(run, p.now)
        then StartedOver(run, run.computerId, if id in restorable then Restore else Prepare, Some(SILENT)) else run
    {
      var run := p.runs[id];
      assert Step(p, Expire(restorable)).runs[id] == ExpireLease(run, p.now, ModeFor(id, restorable));
    }
  }

  /** A recovery starts the run over on the chosen computer, where its status admits one. */
  lemma RecoveryStartsOver(p: Plane, r: Id, c: Id, eligible: bool)
    ensures Step(p, Recover(r, c, eligible)) ==
      if eligible && r in p.runs && Leads(p.runs[r].status, Recovering) then
        var run := p.runs[r];
        var mode := if c == run.computerId then Restore else Recreate;
        var error := if run.status == Recovering then run.lastError else None;
        p.(runs := p.runs[r := StartedOver(run, c, mode, error)])
      else p
  {
    if r in p.runs {
      var run := p.runs[r];
      TransitionExactlyWhen(
        run.(computerId := c,
             epoch := run.epoch + 1,
             leaseId := None,
             leaseExpiresAt := None,
             lastEventSeq := 0,
             lastEventId := None,
             checkpoint := "",
             resumeMode := if c != run.computerId then Recreate else Restore,
             recoveryCount := run.recoveryCount + 1),
        Recovering, None, p.now);
    }
  }

  /** A new run waits unleased in its first epoch; one that continues another takes over its task, its
      computer, its count of recoveries and the next epoch, and on this computer is ready at once. */
  lemma NewRunWaits(p: Plane, op: Op)
    requires op.Create? || op.Continue?
    ensures
      var next := Step(p, op);
      if op.Continue? && op.previous !in p.runs then next == p
      else
        && op.run in next.runs
        && next == p.(runs := p.runs[op.run := next.runs[op.run]])
        && var run := next.runs[op.run];
           && run.leaseId == None && run.leaseExpiresAt == None && run.lastEventSeq == 0 && run.lastEventId == None
           && run.checkpoint == "" && run.lastError == None && run.createdAt == p.now
           && run.startedAt == None && run.finishedAt == None
           && if op.Create? then
                && run.taskId == op.task && run.computerId == op.computer && run.status == Queued
                && run.epoch == 1 && run.resumeMode == Prepare && run.recoveryCount == 0
              else
                var last := p.runs[op.previous];
                && run.taskId == last.taskId && run.computerId == last.computerId
                && run.epoch == last.epoch + 1 && run.recoveryCount == last.recoveryCount
                && run.status == (if op.local then Ready else Queued)
                && run.resumeMode == (if op.restore then Restore else Prepare)
  {
  }

  // ---------------------------------------------------------------- leases

  predicate Waits(run: Run, computer: Id) {
    run.computerId == computer && (run.status == Queued || run.status == Recovering)
  }

  /** A lease request of a computer that may ask gives the chosen run to it for thirty seconds, if the run
      waits for that computer once the lapsed leases are gone and none that waits was created before it. */
  lemma LeaseGrantedExactlyWhen(p: Plane, op: Op)
    requires op.Acquire?
    ensures
      var lapsed := Step(p, Expire(op.restorable));
      Step(p, op) ==
      if op.computer !in p.computers || op.computer in p.revokedComputers then p
      else if
        && op.pick.Some? && op.pick.value in lapsed.runs && Waits(lapsed.runs[op.pick.value], op.computer)
        && forall id :: id in lapsed.runs && Waits(lapsed.runs[id], op.computer) ==>
             lapsed.runs[op.pick.value].createdAt <= lapsed.runs[id].createdAt
      then
        var run := lapsed.runs[op.pick.value];
        lapsed.(runs := lapsed.runs[op.pick.value :=
          run.(leaseId := Some(op.lease), leaseExpiresAt := Some(p.now + 30), status := Preparing, lastError := None)])
      else lapsed
  {
    var lapsed := Step(p, Expire(op.restorable));
    forall id | id in lapsed.runs
      ensures Waits(lapsed.runs[id], op.computer) == Claimable(lapsed.runs[id], op.computer)
    {
    }
  }

  /** First come, first served: whatever has happened, while a run waits for a computer no run of
      that computer created after it comes to hold a lease. */
  lemma NoneOvertakes(w: World, ops: seq<Op>, op: Op, first: Id, later: Id)
    requires Known(w) && Possible(w, ops) && Enabled(After(w, ops), op)
    requires
      var p := After(w, ops).plane;
      && first in p.runs && (p.runs[first].status == Queued || p.runs[first].status == Recovering)
      && later in p.runs && p.runs[later].computerId == p.runs[first].computerId
      && p.runs[first].createdAt < p.runs[later].createdAt
    ensures
      var p := After(w, ops).plane;
      later in Step(p, op).runs ==>
        Step(p, op).runs[later].leaseId == None || Step(p, op).runs[later].leaseId == p.runs[later].leaseId
  {
    var p := After(w, ops).plane;
    KnownAfter(w, ops);
    if later in Step(p, op).runs {
      assert later in After(w, ops).used;
      if op.Acquire? {
        LeaseGrantedExactlyWhen(p, op);
        ExpiryStartsOver(p, op.restorable);
      } else {
        LeaseOnlyByRequest(p, op, later);
      }
    }
  }

  lemma LeaseOnlyByRequest(p: Plane, op: Op, id: Id)
    requires id in p.runs && id in Step(p, op).runs && id !in Minted(op) && !op.Acquire?
    ensures Step(p, op).runs[id].leaseId == None || Step(p, op).runs[id].leaseId == p.runs[id].leaseId
  {
    if op.Expire? {
      ExpiryStartsOver(p, op.restorable);
    }
  }

  /** A computer is revoked exactly if every run it was given has ended. */
  lemma RevokedExactlyWhen(p: Plane, c: Id)
    requires c !in p.revokedComputers
    ensures
      var after := Step(p, RevokeComputer(c));
      && (c in after.revokedComputers <==>
            !exists id :: id in p.runs && p.runs[id].computerId == c && !Ended(p.runs[id].status))
      && after == p.(revokedComputers := p.revokedComputers + (if c in after.revokedComputers then {c} else {}))
  {
    if id :| id in p.runs && p.runs[id].computerId == c && !Ended(p.runs[id].status) {
      assert !Terminal(p.runs[id].status);
    }
  }

  lemma RevokedStaysRevoked(p: Plane, op: Op)
    ensures p.revokedComputers <= Step(p, op).revokedComputers
  {
  }

  /** A revoked computer stays revoked, and no request of it is ever given a lease again. */
  lemma {:induction false} RevokedNeverLeases(w: World, ops: seq<Op>, request: Op)
    requires request.Acquire? && request.computer in w.plane.revokedComputers
    ensures Step(After(w, ops).plane, request) == After(w, ops).plane
    decreases |ops|
  {
    if ops != [] {
      RevokedStaysRevoked(w.plane, ops[0]);
      RevokedNeverLeases(Next(w, ops[0]), ops[1..], request);
    }
  }

  // ---------------------------------------------------------------- ended runs

  predicate Unleased(run: Run) {
    Ended(run.status) ==> run.leaseId == None
  }

  /** No run that has ended holds a lease. */
  ghost predicate EndedUnleased(p: Plane) {
    forall id :: id in p.runs ==> Unleased(p.runs[id])
  }

  /** A run that was completed or cancelled is final. */
  predicate Final(run: Run) {
    (run.status == Completed || run.status == Cancelled) && run.leaseId == None
  }

  lemma RunStays(p: Plane, op: Op, id: Id)
    requires id in p.runs && id in Step(p, op).runs && id !in Minted(op) && Unleased(p.runs[id])
    ensures Unleased(Step(p, op).runs[id])
    ensures Final(p.runs[id]) ==> Step(p, op).runs[id] == p.runs[id]
  {
    if op.Acquire? || op.Expire? {
      LeasingKeepsEnded(p, op, id);
    } else if op.Deliver? {
      EventKeepsEnded(p, op, id);
    } else if op.SetStatus? || op.Recover? || op.Reassign? {
      WriteKeepsEnded(p, op, id);
    } else {
      assert Step(p, op).runs[id] == p.runs[id];
    }
  }

  lemma LeasingKeepsEnded(p: Plane, op: Op, id: Id)
    requires (op.Acquire? || op.Expire?) && id in p.runs && Unleased(p.runs[id])
    ensures id in Step(p, op).runs && Unleased(Step(p, op).runs[id])
    ensures Final(p.runs[id]) ==> Step(p, op).runs[id] == p.runs[id]
  {
    ExpiryStartsOver(p, op.restorable);
    if op.Acquire? {
      LeaseGrantedExactlyWhen(p, op);
    }
  }

  lemma WriteKeepsEnded(p: Plane, op: Op, id: Id)
    requires (op.SetStatus? || op.Recover? || op.Reassign?) && id in p.runs && Unleased(p.runs[id])
    ensures id in Step(p, op).runs && Unleased(Step(p, op).runs[id])
    ensures Final(p.runs[id]) ==> Step(p, op).runs[id] == p.runs[id]
  {
    if op.SetStatus? {
      StatusSetExactlyWhen(p, op.run, op.status, op.error);
    } else if op.Recover? {
      RecoveryStartsOver(p, op.run, op.computer, op.eligible);
    }
  }

  lemma EventKeepsEnded(p: Plane, op: Op, id: Id)
    requires op.Deliver? && id in p.runs && Unleased(p.runs[id])
    ensures id in Step(p, op).runs && Unleased(Step(p, op).runs[id])
    ensures Final(p.runs[id]) ==> Step(p, op).runs[id] == p.runs[id]
  {
    EventAcceptedExactlyWhen(p, op.event, op.effectsLand);
    if Acceptable(p, op.event, op.effectsLand) {
      if p.runs[op.event.runId].lastEventSeq < op.event.seqNo {
        EventEffect(p, op.event);
      } else {
        RedeliveryChangesNothing(p, op.event, op.effectsLand);
      }
    }
  }

  lemma EndedUnleasedStep(w: World, op: Op)
    requires Known(w) && Enabled(w, op) && EndedUnleased(w.plane)
    ensures EndedUnleased(Step(w.plane, op))
  {
    var after := Step(w.plane, op);
    forall id | id in after.runs ensures Unleased(after.runs[id]) {
      if id in w.plane.runs {
        RunStays(w.plane, op, id);
      } else {
        NewRunsHoldNothing(w.plane, op, id);
      }
    }
  }

  /** Whatever happens, a completed or cancelled run stays exactly as it is until its task is deleted. */
  lemma {:induction false} EndedRunIsFinal(w: World, ops: seq<Op>, id: Id)
    requires Known(w) && Possible(w, ops) && EndedUnleased(w.plane)
    requires id in w.plane.runs && (w.plane.runs[id].status == Completed || w.plane.runs[id].status == Cancelled)
    ensures EndedUnleased(After(w, ops).plane)
    ensures id in After(w, ops).plane.runs ==> After(w, ops).plane.runs[id] == w.plane.runs[id]
    decreases |ops|
  {
    if ops != [] {
      var next := Next(w, ops[0]);
      KnownStep(w, ops[0]);
      EndedUnleasedStep(w, ops[0]);
      if id in next.plane.runs {
        RunStays(w.plane, ops[0], id);
        EndedRunIsFinal(next, ops[1..], id);
      } else {
        GoneStaysGone(next, ops[1..], id);
      }
    }
  }

  lemma {:induction false} GoneStaysGone(w: World, ops: seq<Op>, id: Id)
    requires Known(w) && Possible(w, ops) && EndedUnleased(w.plane) && id in w.used && id !in w.plane.runs
    ensures EndedUnleased(After(w, ops).plane)
    ensures id !in After(w, ops).plane.runs
    decreases |ops|
  {
    if ops != [] {
      KnownStep(w, ops[0]);
      EndedUnleasedStep(w, ops[0]);
      if id in Step(w.plane, ops[0]).runs {
        NewRunsHoldNothing(w.plane, ops[0], id);
      }
      GoneStaysGone(Next(w, ops[0]), ops[1..], id);
    }
  }

  // ---------------------------------------------------------------- commands

  /** A command is queued for the run's current epoch, undelivered, unless the run's epoch has one under its key. */
  lemma CommandQueuedExactlyWhen(p: Plane, op: Op)
    requires op.Queue?
    ensures
      Step(p, op) ==
      if
        && op.run in p.runs
        && (op.key == "" ||
            forall id :: id in p.commands ==>
              !(p.commands[id].runId == op.run && p.commands[id].epoch == p.runs[op.run].epoch
                && p.commands[id].key == op.key))
      then
        p.(commands := p.commands[op.command :=
          Command(op.run, p.runs[op.run].epoch, op.kind, op.key, None, None, 0, None, None, None)])
      else p
  {
    if op.run in p.runs {
      forall id | id in p.commands
        ensures SameKey(p.commands[id], op.run, p.runs[op.run].epoch, op.key) ==
                (p.commands[id].runId == op.run && p.commands[id].epoch == p.runs[op.run].epoch
                 && p.commands[id].key == op.key)
      {
      }
    }
  }

  /** A claim under the lease in force, in the run's epoch, takes for twenty seconds each command of that
      run and epoch that is neither acknowledged nor claimed still; any other claim takes none. */
  lemma ClaimTakesExactly(p: Plane, op: Op)
    requires op.Claim?
    ensures
      var after := Step(p, op);
      && after == p.(commands := after.commands)
      && after.commands.Keys == p.commands.Keys
      && forall id :: id in p.commands ==>
           var c := p.commands[id];
           after.commands[id] ==
           if
             && op.run in p.runs && p.runs[op.run].computerId == op.computer && p.runs[op.run].epoch == op.epoch
             && LeaseInForce(p.runs[op.run], op.lease, p.now)
             && c.runId == op.run && c.epoch == op.epoch && c.ackedAt == None
             && (c.claimExpiresAt.Some? ==> c.claimExpiresAt.value <= p.now)
           then
             c.(claimedAt := Some(p.now), claimExpiresAt := Some(p.now + 20), deliveryCount := c.deliveryCount + 1)
           else c
  {
  }

  /** An acknowledgement under the lease in force, of a command of that run and epoch, is saved with its time,
      result and error, unless the command is acknowledged already; any other acknowledgement saves nothing. */
  lemma AcknowledgedExactlyWhen(p: Plane, op: Op)
    requires op.BeginAck? && p.ack == None
    ensures
      Step(Step(p, op), EndAck) ==
      if
        && op.run in p.runs && p.runs[op.run].computerId == op.computer && p.runs[op.run].epoch == op.epoch
        && LeaseInForce(p.runs[op.run], op.lease, p.now)
        && op.command in p.commands && p.commands[op.command].runId == op.run
        && p.commands[op.command].epoch == op.epoch && p.commands[op.command].ackedAt == None
      then
        p.(commands := p.commands[op.command :=
          p.commands[op.command].(
            ackedAt := Some(p.now), claimExpiresAt := None, result := op.result, error := op.error)])
      else p
  {
  }

  // ---------------------------------------------------------------- removal

  /** Deleting a task removes its runs and the commands and grants of these runs, and nothing else. */
  lemma DeletedExactly(p: Plane, task: Id)
    ensures
      var after := Step(p, Delete(task));
      && after == p.(runs := after.runs, commands := after.commands, grants := after.grants)
      && (forall id :: id in after.runs <==> id in p.runs && p.runs[id].taskId != task)
      && (forall id :: id in after.runs ==> after.runs[id] == p.runs[id])
      && (forall id :: id in after.commands <==>
            && id in p.commands
            && !(p.commands[id].runId in p.runs && p.runs[p.commands[id].runId].taskId == task))
      && (forall id :: id in after.commands ==> after.commands[id] == p.commands[id])
      && (forall id :: id in after.grants <==>
            && id in p.grants
            && !(p.grants[id].runId in p.runs && p.runs[p.grants[id].runId].taskId == task))
      && (forall id :: id in after.grants ==> after.grants[id] == p.grants[id])
  {
  }

  /** Retention removes the commands acknowledged before the cutoff and the grants revoked before it, or
      never revoked and expired before it, and nothing else. */
  lemma PrunedExactly(p: Plane, before: Time)
    ensures
      var after := Step(p, PruneBefore(before));
      && after == p.(commands := after.commands, grants := after.grants)
      && (forall id :: id in after.commands <==>
            id in p.commands && (p.commands[id].ackedAt.Some? ==> before <= p.commands[id].ackedAt.value))
      && (forall id :: id in after.commands ==> after.commands[id] == p.commands[id])
      && (forall id :: id in after.grants <==>
            && id in p.grants
            && (p.grants[id].revokedAt.Some? ==> before <= p.grants[id].revokedAt.value)
            && (p.grants[id].revokedAt == None ==> before <= p.grants[id].expiresAt))
      && (forall id :: id in after.grants ==> after.grants[id] == p.grants[id])
  {
  }
}
