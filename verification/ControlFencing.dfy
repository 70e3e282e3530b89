/** Fencing over whole runs: once a lease is lost or an epoch is over, nothing
    carrying it changes a record again, whatever happens in between. */
module ControlFencing {
  import opened Common
  import opened RunState
  import opened ControlModel
  import opened ControlHistory

  /** Every id in the plane has been minted. */
  ghost predicate Known(w: World) {
    && w.plane.runs.Keys <= w.used
    && w.journal.Keys <= w.used
    && w.plane.commands.Keys <= w.used
    && (w.plane.ack.Some? ==> w.plane.ack.value.command in w.used)
    && w.windows.Keys <= w.used
    && w.plane.grants.Keys <= w.used
    && w.plane.revocations.Keys <= w.used
    && (forall v :: v in w.plane.revocations ==> w.plane.revocations[v].pending.Keys <= w.used)
    && (forall id :: id in w.plane.runs && w.plane.runs[id].leaseId.Some? ==> w.plane.runs[id].leaseId.value in w.used)
    && w.uses.Keys <= w.used
    && w.limits.Keys <= w.used
  }

  /** The run's lease is `lease` and has not run out. */
  predicate Holds(p: Plane, run: Id, lease: Id) {
    && run in p.runs
    && p.runs[run].leaseId == Some(lease)
    && p.runs[run].leaseExpiresAt.Some?
    && p.now <= p.runs[run].leaseExpiresAt.value
  }

  /** The lease was minted once and the run does not hold it (any more). */
  predicate Dead(w: World, run: Id, lease: Id) {
    lease in w.used && !Holds(w.plane, run, lease)
  }

  /** The run has moved past this epoch, or is gone. */
  predicate Past(w: World, run: Id, epoch: nat) {
    run in w.used && (run in w.plane.runs ==> epoch < w.plane.runs[run].epoch)
  }

  /** An acknowledgement for `run`, begun under this lease and epoch, has still to save its command. */
  predicate UnderWay(p: Plane, run: Id, lease: Id, epoch: nat) {
    p.ack.Some? && p.ack.value.read.runId == run && p.ack.value.lease == lease && p.ack.value.read.epoch == epoch
  }

  /** An event, a command claim or either half of an acknowledgement for `run`, under this lease and epoch. */
  predicate Carries(p: Plane, op: Op, run: Id, lease: Id, epoch: nat) {
    match op
    case Deliver(e, _) => e.runId == run && e.leaseId == lease && e.epoch == epoch
    case Claim(r, _, l, e) => r == run && l == lease && e == epoch
    case BeginAck(r, _, _, l, e, _, _) => r == run && l == lease && e == epoch
    case EndAck => UnderWay(p, run, lease, epoch)
    case _ => false
  }

  // ---------------------------------------------------------------- one step

  /** A step does to a run exactly what the journal says it did. */
  lemma StepFollowsChanges(p: Plane, op: Op, id: Id)
    requires id in p.runs && id in Step(p, op).runs && id !in Minted(op)
    ensures Follows(p.runs[id], Changes(p, op, id), Step(p, op).runs[id], p.now, Minted(op))
  {
    if op.Acquire? {
      AcquireFollows(p, op, id);
    } else if op.Expire? {
      LapseFollows(p.runs[id], p.now, ModeFor(id, op.restorable), Minted(op));
    } else if op.Deliver? {
      DeliverFollows(p, op, id);
    } else if op.Recover? || op.SetStatus? || op.Reassign? {
      WriteFollows(p, op, id);
    } else {
      assert Step(p, op).runs[id] == p.runs[id];
    }
  }

  lemma LapseFollows(run: Run, now: Time, mode: ResumeMode, minted: set<Id>)
    ensures Follows(run, Lapse(run, now, mode), ExpireLease(run, now, mode), now, minted)
  {
  }

  lemma DeliverFollows(p: Plane, op: Op, id: Id)
    requires op.Deliver? && id in p.runs && id in Step(p, op).runs
    ensures Follows(p.runs[id], Changes(p, op, id), Step(p, op).runs[id], p.now, {})
  {
  }

  lemma WriteFollows(p: Plane, op: Op, id: Id)
    requires op.Recover? || op.SetStatus? || op.Reassign?
    requires id in p.runs && id in Step(p, op).runs
    ensures Follows(p.runs[id], Changes(p, op, id), Step(p, op).runs[id], p.now, {})
  {
  }

  /** One run's share of a lease request: lapse first, then perhaps be the one leased. */
  lemma AcquiredRun(p: Plane, op: Op, id: Id)
    requires op.Acquire? && id in p.runs
    requires op.computer in p.computers && op.computer !in p.revokedComputers
    ensures id in Step(p, op).runs
    ensures var lapsed := ExpireLease(p.runs[id], p.now, ModeFor(id, op.restorable));
      && ExpireLeases(p, op.restorable).runs[id] == lapsed
      && Step(p, op).runs[id] ==
         if op.pick == Some(id) && Oldest(ExpireLeases(p, op.restorable).runs, op.computer, id)
         then ClaimRun(lapsed, op.lease, p.now + LEASE_DURATION) else lapsed
  {
  }

  lemma AcquireFollows(p: Plane, op: Op, id: Id)
    requires op.Acquire? && id in p.runs && id in Step(p, op).runs
    ensures Follows(p.runs[id], Changes(p, op, id), Step(p, op).runs[id], p.now, Minted(op))
  {
    if op.computer in p.computers && op.computer !in p.revokedComputers {
      AcquiredRun(p, op, id);
      var run, mode := p.runs[id], ModeFor(id, op.restorable);
      var leased := op.pick == Some(id) && Oldest(ExpireLeases(p, op.restorable).runs, op.computer, id);
      var last := if leased then [Leased(op.lease, p.now + LEASE_DURATION)] else [];
      assert Follows(ExpireLease(run, p.now, mode), last, Step(p, op).runs[id], p.now, Minted(op));
      LapseThen(run, p.now, mode, last, Step(p, op).runs[id], Minted(op));
      assert Changes(p, op, id) == Lapse(run, p.now, mode) + last;
    }
  }

  lemma LapseThen(run: Run, now: Time, mode: ResumeMode, last: seq<Change>, after: Run, minted: set<Id>)
    requires Follows(ExpireLease(run, now, mode), last, after, now, minted)
    ensures Follows(run, Lapse(run, now, mode) + last, after, now, minted)
  {
    var lapse := Lapse(run, now, mode);
    if lapse == [] {
      assert lapse + last == last;
    } else {
      assert (lapse + last)[1..] == last;
    }
  }

  /** What one legal change can do to the fence around a run. */
  lemma ChangeKeepsFence(run: Run, c: Change, now: Time, minted: set<Id>)
    requires Legal(run, c, now, minted) && Redo(Some(run), c).Some?
    ensures var r := Redo(Some(run), c).value;
      && run.epoch <= r.epoch
      && (r.leaseId == None || r.leaseId == run.leaseId || r.leaseId.value in minted)
      && (r.leaseId.Some? && r.leaseId.value !in minted ==>
            && r.leaseId == run.leaseId
            && (r.leaseExpiresAt == run.leaseExpiresAt
                || (run.leaseExpiresAt.Some? && now <= run.leaseExpiresAt.value)))
  {
  }

  lemma {:induction false} ChangesKeepFence(run: Run, changes: seq<Change>, after: Run, now: Time, minted: set<Id>)
    requires Follows(run, changes, after, now, minted)
    ensures run.epoch <= after.epoch
    ensures after.leaseId == None || after.leaseId == run.leaseId || after.leaseId.value in minted
    ensures after.leaseId.Some? && after.leaseId.value !in minted ==>
              && after.leaseId == run.leaseId
              && (after.leaseExpiresAt == run.leaseExpiresAt
                  || (run.leaseExpiresAt.Some? && now <= run.leaseExpiresAt.value))
    decreases |changes|
  {
    if changes != [] {
      ChangeKeepsFence(run, changes[0], now, minted);
      ChangesKeepFence(Redo(Some(run), changes[0]).value, changes[1..], after, now, minted);
    }
  }

  lemma ClockMovesOn(p: Plane, op: Op)
    ensures p.now <= Step(p, op).now
  {
  }

  /** What one step can do to a run that exists before and after it. */
  lemma RunStep(p: Plane, op: Op, id: Id)
    requires id in p.runs && id in Step(p, op).runs && id !in Minted(op)
    ensures p.runs[id].epoch <= Step(p, op).runs[id].epoch
    ensures forall l :: l !in Minted(op) && Holds(Step(p, op), id, l) ==> Holds(p, id, l)
    ensures var l := Step(p, op).runs[id].leaseId; l == None || l == p.runs[id].leaseId || l.value in Minted(op)
  {
    StepFollowsChanges(p, op, id);
    ChangesKeepFence(p.runs[id], Changes(p, op, id), Step(p, op).runs[id], p.now, Minted(op));
    ClockMovesOn(p, op);
  }

  lemma NoNewRuns(p: Plane, op: Op)
    requires !op.Create? && !op.Continue?
    ensures Step(p, op).runs.Keys <= p.runs.Keys
  {
  }

  lemma NewRunsHoldNothing(p: Plane, op: Op, id: Id)
    requires id !in p.runs && id in Step(p, op).runs
    ensures id in Minted(op) && Step(p, op).runs[id].leaseId == None
    ensures Untouched(Step(p, op).runs[id])
  {
    if !op.Create? && !op.Continue? {
      NoNewRuns(p, op);
    }
  }

  /** A command is new, or saved by an acknowledgement. */
  predicate Saves(p: Plane, op: Op, id: Id) {
    op.EndAck? && p.ack.Some? && p.ack.value.command == id
  }

  lemma CommandOrigin(p: Plane, op: Op, id: Id)
    requires id in Step(p, op).commands
    ensures id in p.commands || id in Minted(op) || Saves(p, op, id)
  {
  }

  lemma AckOrigin(p: Plane, op: Op)
    requires Step(p, op).ack.Some?
    ensures Step(p, op).ack == p.ack || Step(p, op).ack.value.command in p.commands
  {
  }

  lemma GrantOrigin(p: Plane, op: Op, id: Id)
    requires id in Step(p, op).grants && id !in p.grants && id !in Minted(op)
    ensures exists v :: v in p.revocations && id in p.revocations[v].pending
  {
  }

  lemma RevocationOrigin(p: Plane, op: Op)
    ensures Step(p, op).revocations.Keys <= p.revocations.Keys + Minted(op)
  {
  }

  lemma PendingOrigin(p: Plane, op: Op, v: Id, id: Id)
    requires v in Step(p, op).revocations && id in Step(p, op).revocations[v].pending
    ensures id in p.grants || (v in p.revocations && id in p.revocations[v].pending)
  {
  }

  lemma RunsKnown(w: World, op: Op, id: Id)
    requires Known(w) && Minted(op) !! w.used && id in Step(w.plane, op).runs
    ensures var l := Step(w.plane, op).runs[id].leaseId;
      id in w.used + Minted(op) && (l.Some? ==> l.value in w.used + Minted(op))
  {
    if id !in w.plane.runs {
      NewRunsHoldNothing(w.plane, op, id);
    } else {
      RunStep(w.plane, op, id);
    }
  }

  lemma CommandsKnown(w: World, op: Op)
    requires Known(w)
    ensures var q := Step(w.plane, op);
      && q.commands.Keys <= w.used + Minted(op)
      && (q.ack.Some? ==> q.ack.value.command in w.used + Minted(op))
  {
    var q := Step(w.plane, op);
    forall id | id in q.commands ensures id in w.used + Minted(op) {
      CommandOrigin(w.plane, op, id);
    }
    if q.ack.Some? {
      AckOrigin(w.plane, op);
    }
  }

  lemma GrantsKnown(w: World, op: Op)
    requires Known(w)
    ensures var q := Step(w.plane, op);
      && q.grants.Keys <= w.used + Minted(op)
      && q.revocations.Keys <= w.used + Minted(op)
      && (forall v :: v in q.revocations ==> q.revocations[v].pending.Keys <= w.used + Minted(op))
  {
    var q := Step(w.plane, op);
    RevocationOrigin(w.plane, op);
    forall id | id in q.grants ensures id in w.used + Minted(op) {
      if id !in w.plane.grants && id !in Minted(op) {
        GrantOrigin(w.plane, op, id);
      }
    }
    forall v, id | v in q.revocations && id in q.revocations[v].pending ensures id in w.used + Minted(op) {
      PendingOrigin(w.plane, op, v, id);
    }
  }

  lemma CountsKnown(w: World, op: Op)
    requires Known(w)
    ensures NextUses(w, op).Keys <= w.used + Minted(op) && NextLimits(w, op).Keys <= w.used + Minted(op)
  {
  }

  lemma KnownStep(w: World, op: Op)
    requires Known(w) && Minted(op) !! w.used
    ensures Known(Next(w, op))
  {
    var w' := Next(w, op);
    forall id | id in w'.plane.runs
      ensures id in w'.used
      ensures w'.plane.runs[id].leaseId.Some? ==> w'.plane.runs[id].leaseId.value in w'.used
    {
      RunsKnown(w, op, id);
    }
    CommandsKnown(w, op);
    GrantsKnown(w, op);
    CountsKnown(w, op);
    assert w'.journal.Keys == w.journal.Keys + w'.plane.runs.Keys;
    assert w'.windows.Keys == w.windows.Keys + w.plane.commands.Keys;
  }

  lemma DeadStep(w: World, op: Op, run: Id, lease: Id)
    requires Known(w) && Enabled(w, op) && Dead(w, run, lease)
    ensures Dead(Next(w, op), run, lease)
  {
    if run in Step(w.plane, op).runs {
      if run !in w.plane.runs {
        NewRunsHoldNothing(w.plane, op, run);
      } else {
        RunStep(w.plane, op, run);
      }
    }
  }

  lemma PastStep(w: World, op: Op, run: Id, epoch: nat)
    requires Known(w) && Enabled(w, op) && Past(w, run, epoch)
    ensures Past(Next(w, op), run, epoch)
  {
    if run in Step(w.plane, op).runs {
      if run !in w.plane.runs {
        NewRunsHoldNothing(w.plane, op, run);
      } else {
        RunStep(w.plane, op, run);
      }
    }
  }

  /** A step under a dead lease or a past epoch changes nothing, except that an acknowledgement begun
      before saves its command. */
  lemma StaleChangesNothing(w: World, op: Op, run: Id, lease: Id, epoch: nat)
    requires Carries(w.plane, op, run, lease, epoch)
    requires Dead(w, run, lease) || Past(w, run, epoch)
    ensures !op.EndAck? ==> Step(w.plane, op) == w.plane
    ensures op.EndAck? ==>
      var a := w.plane.ack.value;
      Step(w.plane, op) == w.plane.(ack := None, commands := w.plane.commands[a.command := a.written]) != w.plane
  {
    if op.Deliver? && AcceptEvent(w.plane, op.event, op.effectsLand).Ok? {
      assert w.plane.runs[run := w.plane.runs[run]] == w.plane.runs;
    }
  }

  // ---------------------------------------------------------------- whole runs

  lemma {:induction false} KnownAfter(w: World, ops: seq<Op>)
    requires Known(w) && Possible(w, ops)
    ensures Known(After(w, ops))
    decreases |ops|
  {
    if ops != [] {
      KnownStep(w, ops[0]);
      KnownAfter(Next(w, ops[0]), ops[1..]);
    }
  }

  /** Nothing starts an acknowledgement under a dead lease or a past epoch. */
  lemma NoneBegins(w: World, op: Op, run: Id, lease: Id, epoch: nat)
    requires Dead(w, run, lease) || Past(w, run, epoch)
    requires UnderWay(Step(w.plane, op), run, lease, epoch)
    ensures UnderWay(w.plane, run, lease, epoch) && !op.EndAck?
  {
    AckBegins(w.plane, op);
  }

  lemma AckBegins(p: Plane, op: Op)
    requires Step(p, op).ack.Some?
    ensures !op.EndAck?
    ensures Step(p, op).ack == p.ack ||
      (op.BeginAck? && op.run in p.runs && Fenced(p.runs[op.run], op.computer, op.lease, op.epoch, p.now)
       && Step(p, op).ack.value.lease == op.lease && Step(p, op).ack.value.read.runId == op.run
       && Step(p, op).ack.value.read.epoch == op.epoch)
  {
  }

  /** Once a lease is dead or an epoch past, then after any further operations whatever carries them
      changes nothing, but for one save: that of an acknowledgement already under way at the start. */
  lemma {:induction false} FencedForever(w: World, ops: seq<Op>, run: Id, lease: Id, epoch: nat)
    requires Known(w) && Possible(w, ops)
    requires Dead(w, run, lease) || Past(w, run, epoch)
    ensures var later := After(w, ops);
      && (Dead(later, run, lease) || Past(later, run, epoch))
      && (UnderWay(later.plane, run, lease, epoch) ==> UnderWay(w.plane, run, lease, epoch) && EndAck !in ops)
      && forall op :: Carries(later.plane, op, run, lease, epoch) ==>
          (Step(later.plane, op) != later.plane <==> op.EndAck?)
    decreases |ops|
  {
    if ops == [] {
      forall op | Carries(w.plane, op, run, lease, epoch) ensures Step(w.plane, op) != w.plane <==> op.EndAck? {
        StaleChangesNothing(w, op, run, lease, epoch);
      }
    } else {
      FenceStep(w, ops[0], run, lease, epoch);
      FencedForever(Next(w, ops[0]), ops[1..], run, lease, epoch);
      if UnderWay(After(w, ops).plane, run, lease, epoch) {
        NoneBegins(w, ops[0], run, lease, epoch);
      }
    }
  }

  lemma FenceStep(w: World, op: Op, run: Id, lease: Id, epoch: nat)
    requires Known(w) && Enabled(w, op) && (Dead(w, run, lease) || Past(w, run, epoch))
    ensures Known(Next(w, op)) && (Dead(Next(w, op), run, lease) || Past(Next(w, op), run, epoch))
  {
    KnownStep(w, op);
    if Dead(w, run, lease) {
      DeadStep(w, op, run, lease);
    } else {
      PastStep(w, op, run, epoch);
    }
  }

  /** Whatever made the run stop holding its lease: after any further operations, what carries the lease
      changes a record if and only if it is the save of an acknowledgement that was under way at the loss
      and has not been saved since. */
  lemma LostLeaseIsFenced(w: World, op: Op, run: Id, lease: Id, ops: seq<Op>, late: Op, epoch: nat)
    requires Known(w) && Enabled(w, op) && Possible(Next(w, op), ops)
    requires Holds(w.plane, run, lease) && !Holds(Next(w, op).plane, run, lease)
    requires Carries(After(Next(w, op), ops).plane, late, run, lease, epoch)
    ensures var later := After(Next(w, op), ops).plane; Step(later, late) != later <==> late.EndAck?
    ensures late.EndAck? ==> UnderWay(Next(w, op).plane, run, lease, epoch) && EndAck !in ops
  {
    KnownStep(w, op);
    FencedForever(Next(w, op), ops, run, lease, epoch);
  }

  /** A run's epoch never goes down, and a deleted run's id never returns. */
  lemma {:induction false} EpochNeverDecreases(w: World, ops: seq<Op>, run: Id)
    requires Known(w) && Possible(w, ops) && run in w.used
    ensures run in w.plane.runs && run in After(w, ops).plane.runs ==>
              w.plane.runs[run].epoch <= After(w, ops).plane.runs[run].epoch
    ensures run !in w.plane.runs ==> run !in After(w, ops).plane.runs
    decreases |ops|
  {
    if ops != [] {
      var w1 := Next(w, ops[0]);
      KnownStep(w, ops[0]);
      EpochNeverDecreases(w1, ops[1..], run);
      if run in w1.plane.runs {
        if run in w.plane.runs {
          RunStep(w.plane, ops[0], run);
        } else {
          NewRunsHoldNothing(w.plane, ops[0], run);
        }
      }
    }
  }

  lemma TakenLeaseBumpsEpoch(p: Plane, op: Op, run: Id)
    requires op.Expire? || op.Acquire? || op.Recover?
    requires run in p.runs && p.runs[run].leaseId.Some?
    requires run in Step(p, op).runs && Step(p, op).runs[run].leaseId == None
    ensures p.runs[run].epoch < Step(p, op).runs[run].epoch
  {
    if op.Acquire? {
      if op.computer in p.computers && op.computer !in p.revokedComputers {
        AcquiredRun(p, op, run);
      }
    } else if op.Expire? {
      assert Step(p, op).runs[run] == ExpireLease(p.runs[run], p.now, ModeFor(run, op.restorable));
    } else {
      var after := Step(p, op).runs[run];
      assert after == p.runs[run] || after == RecoverRun(p.runs[run], op.computer, p.now).value;
    }
  }

  /** Taking a lapsed lease away, or recovering the run, ends the epoch as well:
      even the acknowledgement of a redelivered event is refused from then on. */
  lemma TakenLeaseEndsEpoch(w: World, op: Op, run: Id, ops: seq<Op>)
    requires Known(w) && Enabled(w, op) && Possible(Next(w, op), ops)
    requires op.Expire? || op.Acquire? || op.Recover?
    requires run in w.plane.runs && w.plane.runs[run].leaseId.Some?
    requires run in Next(w, op).plane.runs && Next(w, op).plane.runs[run].leaseId == None
    ensures Past(After(Next(w, op), ops), run, w.plane.runs[run].epoch)
  {
    var w1 := Next(w, op);
    TakenLeaseBumpsEpoch(w.plane, op, run);
    KnownStep(w, op);
    EpochNeverDecreases(w1, ops, run);
    KnownAfter(w1, ops);
    UsedOnlyGrows(w1, ops);
  }

  lemma {:induction false} UsedOnlyGrows(w: World, ops: seq<Op>)
    ensures w.used <= After(w, ops).used
    decreases |ops|
  {
    if ops != [] {
      UsedOnlyGrows(Next(w, ops[0]), ops[1..]);
    }
  }

  /** Only a run no computer has leased yet is queued, so reassigning one never moves a leased run. */
  predicate QueuedIsUnleased(p: Plane) {
    forall id :: id in p.runs ==> Untouched(p.runs[id])
  }

  predicate Untouched(run: Run) {
    run.status == Queued ==> run.leaseId == None && run.lastEventSeq == 0
  }

  lemma {:induction false} ChangesKeepUntouched(run: Run, changes: seq<Change>, after: Run, now: Time, minted: set<Id>)
    requires Follows(run, changes, after, now, minted) && Untouched(run)
    ensures Untouched(after)
    decreases |changes|
  {
    if changes != [] {
      ChangesKeepUntouched(Redo(Some(run), changes[0]).value, changes[1..], after, now, minted);
    }
  }

  lemma QueuedStep(w: World, op: Op)
    requires Known(w) && Enabled(w, op) && QueuedIsUnleased(w.plane)
    ensures QueuedIsUnleased(Step(w.plane, op))
  {
    var p, p' := w.plane, Step(w.plane, op);
    forall id | id in p'.runs
      ensures Untouched(p'.runs[id])
    {
      if id in p.runs {
        StepFollowsChanges(p, op, id);
        assert Untouched(p.runs[id]);
        ChangesKeepUntouched(p.runs[id], Changes(p, op, id), p'.runs[id], p.now, Minted(op));
      } else {
        NewRunsHoldNothing(p, op, id);
      }
    }
  }

  lemma {:induction false} ReassignNeverMovesALeasedRun(w: World, ops: seq<Op>, run: Id, computer: Id)
    requires Known(w) && Possible(w, ops) && QueuedIsUnleased(w.plane)
    ensures QueuedIsUnleased(After(w, ops).plane)
    ensures var p := After(w, ops).plane;
      run in p.runs && Step(p, Reassign(run, computer, true)) != p ==> p.runs[run].leaseId == None
    decreases |ops|
  {
    if ops != [] {
      KnownStep(w, ops[0]);
      QueuedStep(w, ops[0]);
      ReassignNeverMovesALeasedRun(Next(w, ops[0]), ops[1..], run, computer);
    }
  }
}
