/** Exactly-once, in-order events: whatever is duplicated, lost, late or
    reordered, a run is the fold of the events it accepted, each one once. */
module ControlEvents {
  import opened Common
  import opened RunState
  import opened ControlModel
  import opened ControlHistory
  import opened ControlFencing

  /** Lexicographic order on (epoch, sequence number). */
  predicate Before(epoch1: nat, seq1: nat, epoch2: nat, seq2: nat) {
    epoch1 < epoch2 || (epoch1 == epoch2 && seq1 < seq2)
  }

  predicate NotAfter(epoch1: nat, seq1: nat, epoch2: nat, seq2: nat) {
    (epoch1 == epoch2 && seq1 == seq2) || Before(epoch1, seq1, epoch2, seq2)
  }

  /** Any two applied events are in strictly increasing order, so none is applied twice. */
  ghost predicate InOrder(changes: seq<Change>) {
    forall i, j :: 0 <= i < j < |changes| && changes[i].Applied? && changes[j].Applied? ==>
      Before(changes[i].event.epoch, changes[i].event.seqNo, changes[j].event.epoch, changes[j].event.seqNo)
  }

  ghost predicate UpTo(changes: seq<Change>, epoch: nat, seqNo: nat) {
    forall i :: 0 <= i < |changes| && changes[i].Applied? ==>
      NotAfter(changes[i].event.epoch, changes[i].event.seqNo, epoch, seqNo)
  }

  /** Every run is what its journal replays to, and every journal is in order. */
  ghost predicate Faithful(w: World) {
    && (forall id :: id in w.plane.runs ==>
          && id in w.journal
          && Replay(w.journal[id]) == Some(w.plane.runs[id])
          && UpTo(w.journal[id], w.plane.runs[id].epoch, w.plane.runs[id].lastEventSeq))
    && (forall id :: id in w.journal ==> InOrder(w.journal[id]))
  }

  // ---------------------------------------------------------------- one run's journal

  lemma ChangeMovesOn(run: Run, c: Change, now: Time, minted: set<Id>)
    requires Legal(run, c, now, minted) && Redo(Some(run), c).Some?
    ensures var r := Redo(Some(run), c).value;
      && NotAfter(run.epoch, run.lastEventSeq, r.epoch, r.lastEventSeq)
      && (c.Applied? ==>
            && Before(run.epoch, run.lastEventSeq, c.event.epoch, c.event.seqNo)
            && c.event.epoch == r.epoch
            && c.event.seqNo == r.lastEventSeq)
  {
  }

  lemma OneMore(changes: seq<Change>, run: Run, c: Change, now: Time, minted: set<Id>)
    requires Replay(changes) == Some(run) && InOrder(changes) && UpTo(changes, run.epoch, run.lastEventSeq)
    requires Legal(run, c, now, minted) && Redo(Some(run), c).Some?
    ensures var r := Redo(Some(run), c).value;
      && Replay(changes + [c]) == Some(r)
      && InOrder(changes + [c])
      && UpTo(changes + [c], r.epoch, r.lastEventSeq)
  {
    ChangeMovesOn(run, c, now, minted);
    assert (changes + [c])[..|changes|] == changes;
  }

  lemma {:induction false} MoreChanges(changes: seq<Change>, run: Run, more: seq<Change>, after: Run, now: Time,
      minted: set<Id>)
    requires Replay(changes) == Some(run) && InOrder(changes) && UpTo(changes, run.epoch, run.lastEventSeq)
    requires Follows(run, more, after, now, minted)
    ensures Replay(changes + more) == Some(after)
    ensures InOrder(changes + more)
    ensures UpTo(changes + more, after.epoch, after.lastEventSeq)
    decreases |more|
  {
    if more == [] {
      assert changes + more == changes;
    } else {
      OneMore(changes, run, more[0], now, minted);
      MoreChanges(changes + [more[0]], Redo(Some(run), more[0]).value, more[1..], after, now, minted);
      assert changes + [more[0]] + more[1..] == changes + more;
    }
  }

  lemma FreshJournal(p: Plane, op: Op, id: Id)
    requires id !in p.runs && id in Step(p, op).runs
    ensures var run := Step(p, op).runs[id];
      && Replay([Created(run)]) == Some(run)
      && InOrder([Created(run)])
      && UpTo([Created(run)], run.epoch, run.lastEventSeq)
  {
  }

  lemma JournalStep(w: World, op: Op, id: Id)
    requires id in NextJournal(w, op)
    ensures NextJournal(w, op)[id] ==
      if id in w.plane.runs then Entry(w.journal, id) + Changes(w.plane, op, id)
      else if id in Step(w.plane, op).runs then [Created(Step(w.plane, op).runs[id])]
      else Entry(w.journal, id)
  {
  }

  lemma FaithfulRun(w: World, op: Op, id: Id)
    requires Known(w) && Enabled(w, op) && Faithful(w)
    requires id in Step(w.plane, op).runs
    ensures var journal, run := NextJournal(w, op), Step(w.plane, op).runs[id];
      && id in journal
      && Replay(journal[id]) == Some(run)
      && UpTo(journal[id], run.epoch, run.lastEventSeq)
      && InOrder(journal[id])
  {
    JournalStep(w, op, id);
    if id in w.plane.runs {
      StepFollowsChanges(w.plane, op, id);
      MoreChanges(w.journal[id], w.plane.runs[id], Changes(w.plane, op, id), Step(w.plane, op).runs[id],
                  w.plane.now, Minted(op));
    } else {
      FreshJournal(w.plane, op, id);
    }
  }

  lemma FaithfulStep(w: World, op: Op)
    requires Known(w) && Enabled(w, op) && Faithful(w)
    ensures Faithful(Next(w, op))
  {
    var journal, runs := NextJournal(w, op), Step(w.plane, op).runs;
    forall id | id in runs
      ensures id in journal && Replay(journal[id]) == Some(runs[id])
      ensures UpTo(journal[id], runs[id].epoch, runs[id].lastEventSeq)
      ensures InOrder(journal[id])
    {
      FaithfulRun(w, op, id);
    }
    forall id | id in journal && id !in runs ensures InOrder(journal[id]) {
      JournalStep(w, op, id);
      GoneUnchanged(w.plane, op, id);
      assert Entry(w.journal, id) + [] == Entry(w.journal, id);
    }
  }

  lemma GoneUnchanged(p: Plane, op: Op, id: Id)
    requires id !in Step(p, op).runs
    ensures id in p.runs ==> Changes(p, op, id) == []
  {
  }

  // ---------------------------------------------------------------- whole runs

  /** From an empty plane, over any operations: each run is the fold of its
      journal, whose applied events strictly increase in (epoch, sequence). */
  lemma {:induction false} ExactlyOnceInOrder(w: World, ops: seq<Op>)
    requires Known(w) && Possible(w, ops) && Faithful(w)
    ensures Faithful(After(w, ops))
    decreases |ops|
  {
    if ops != [] {
      KnownStep(w, ops[0]);
      FaithfulStep(w, ops[0]);
      ExactlyOnceInOrder(Next(w, ops[0]), ops[1..]);
    }
  }

  lemma StartIsFaithful()
    ensures Known(START) && Faithful(START) && QueuedIsUnleased(START.plane)
  {
  }

  /** The run has accepted everything up to this event of this epoch, or is gone for good. */
  predicate Reached(w: World, run: Id, epoch: nat, seqNo: nat) {
    && run in w.used
    && (run in w.plane.runs ==>
          NotAfter(epoch, seqNo, w.plane.runs[run].epoch, w.plane.runs[run].lastEventSeq))
  }

  lemma {:induction false} ChangesMoveOn(run: Run, changes: seq<Change>, after: Run, now: Time, minted: set<Id>)
    requires Follows(run, changes, after, now, minted)
    ensures NotAfter(run.epoch, run.lastEventSeq, after.epoch, after.lastEventSeq)
    decreases |changes|
  {
    if changes != [] {
      ChangeMovesOn(run, changes[0], now, minted);
      ChangesMoveOn(Redo(Some(run), changes[0]).value, changes[1..], after, now, minted);
    }
  }

  lemma ReachedStep(w: World, op: Op, run: Id, epoch: nat, seqNo: nat)
    requires Known(w) && Enabled(w, op) && Reached(w, run, epoch, seqNo)
    ensures Reached(Next(w, op), run, epoch, seqNo)
  {
    if run in Step(w.plane, op).runs {
      if run in w.plane.runs {
        StepFollowsChanges(w.plane, op, run);
        ChangesMoveOn(w.plane.runs[run], Changes(w.plane, op, run), Step(w.plane, op).runs[run],
                      w.plane.now, Minted(op));
      } else {
        NewRunsHoldNothing(w.plane, op, run);
      }
    }
  }

  lemma ReachedIsInert(w: World, e: Event, land: bool)
    requires Reached(w, e.runId, e.epoch, e.seqNo)
    ensures Step(w.plane, Deliver(e, land)) == w.plane
  {
    if AcceptEvent(w.plane, e, land).Ok? {
      assert w.plane.runs[e.runId := w.plane.runs[e.runId]] == w.plane.runs;
    }
  }

  lemma {:induction false} ReachedForever(w: World, ops: seq<Op>, run: Id, epoch: nat, seqNo: nat)
    requires Known(w) && Possible(w, ops) && Reached(w, run, epoch, seqNo)
    ensures Reached(After(w, ops), run, epoch, seqNo)
    decreases |ops|
  {
    if ops != [] {
      KnownStep(w, ops[0]);
      ReachedStep(w, ops[0], run, epoch, seqNo);
      ReachedForever(Next(w, ops[0]), ops[1..], run, epoch, seqNo);
    }
  }

  /** After an event is accepted, delivering it again, or any event of that run
      not later in its epoch, changes nothing: at once, or after any operations. */
  lemma AcceptedNeverAgain(w: World, e: Event, ops: seq<Op>, late: Event, land: bool)
    requires Known(w)
    requires AcceptEvent(w.plane, e, true).Ok?
    requires Possible(Next(w, Deliver(e, true)), ops)
    requires late.runId == e.runId && NotAfter(late.epoch, late.seqNo, e.epoch, e.seqNo)
    ensures var later := After(Next(w, Deliver(e, true)), ops).plane;
      Step(later, Deliver(late, land)) == later
  {
    var op := Deliver(e, true);
    var w1 := Next(w, op);
    KnownStep(w, op);
    AcceptedIsReached(w, e);
    ReachedForever(w1, ops, e.runId, e.epoch, e.seqNo);
    var w2 := After(w1, ops);
    assert Reached(w2, late.runId, late.epoch, late.seqNo);
    ReachedIsInert(w2, late, land);
  }

  lemma AcceptedIsReached(w: World, e: Event)
    requires Known(w)
    requires AcceptEvent(w.plane, e, true).Ok?
    ensures Reached(Next(w, Deliver(e, true)), e.runId, e.epoch, e.seqNo)
  {
    var op, run := Deliver(e, true), w.plane.runs[e.runId];
    if !IsRedelivery(run, e) {
      StepFollowsChanges(w.plane, op, e.runId);
      assert Changes(w.plane, op, e.runId) == [Applied(e, w.plane.now)];
      ChangeMovesOn(run, Applied(e, w.plane.now), w.plane.now, {});
    }
  }

  /** After an event is accepted and any operations, its redelivery is acknowledged
      exactly when the execution that sent it is current and it is still the last
      event accepted; the lease plays no part, so an event that ended its own lease counts. */
  lemma RedeliveryIsAcknowledged(w: World, e: Event, ops: seq<Op>, land: bool)
    requires Known(w)
    requires AcceptEvent(w.plane, e, true).Ok?
    requires Possible(Next(w, Deliver(e, true)), ops)
    ensures var later := After(Next(w, Deliver(e, true)), ops).plane;
      AcceptEvent(later, e, land) == Ok(later) <==>
        && e.runId in later.runs
        && Owns(later.runs[e.runId], e.computerId, e.epoch)
        && IsRedelivery(later.runs[e.runId], e)
    ensures var later := After(Next(w, Deliver(e, true)), ops).plane;
      AcceptEvent(later, e, land).Ok? ==> AcceptEvent(later, e, land) == Ok(later)
  {
    var w1 := Next(w, Deliver(e, true));
    KnownStep(w, Deliver(e, true));
    AcceptedIsReached(w, e);
    ReachedForever(w1, ops, e.runId, e.epoch, e.seqNo);
    var later := After(w1, ops).plane;
    if e.runId in later.runs {
      assert later.runs[e.runId := later.runs[e.runId]] == later.runs;
    }
  }

  /** An accepted event is acknowledged again at once, also when it ended the run and with it its lease. */
  lemma TerminalEventIsAcknowledged(w: World, e: Event, land: bool)
    requires AcceptEvent(w.plane, e, true).Ok?
    ensures var p := Step(w.plane, Deliver(e, true)); AcceptEvent(p, e, land) == Ok(p)
    ensures var p := Step(w.plane, Deliver(e, true));
      !IsRedelivery(w.plane.runs[e.runId], e) ==>
        (p.runs[e.runId].leaseId == None <==>
           Terminal(p.runs[e.runId].status) && p.runs[e.runId].status != w.plane.runs[e.runId].status)
  {
    var p := Step(w.plane, Deliver(e, true));
    assert p.runs[e.runId := p.runs[e.runId]] == p.runs;
  }
}
