/** Which answer a request gets: at once and for good where no card is shown, and otherwise the one
    that was recorded for its card. */
module ApprovalAnswers {
  import opened Common
  import opened Approvals
  import opened ApprovalSafety

  // ---------------------------------------------------------------- answers without a card

  /** The session shows a card that nobody has decided. */
  ghost predicate ShowsCard(s: State, session: Id) {
    exists c :: c in s.registered && c in s.waiters && s.waiters[c].session == session && !s.waiters[c].closed
  }

  lemma CardIsOpen(s: State, session: Id)
    ensures OpenOf(s, session) != {} <==> ShowsCard(s, session)
  {
    if OpenOf(s, session) != {} {
      var c :| c in OpenOf(s, session);
    }
    if c :| c in s.registered && c in s.waiters && s.waiters[c].session == session && !s.waiters[c].closed {
      assert c in OpenOf(s, session);
    }
  }

  /** What a request finds decides it: it is declined if the session is read-only or shows a card, else
      accepted if a remembered grant matches, and else it shows a card of its own. */
  lemma RequestDecides(s: State, op: Op)
    requires op.Request? && Enabled(s, op)
    ensures
      var t := Step(s, op);
      && op.id in t.phases
      && (t.phases[op.id] == Answered(false, false) <==> op.readOnly || ShowsCard(s, op.session))
      && (t.phases[op.id] == Answered(true, false) <==> !op.readOnly && !ShowsCard(s, op.session) && op.granted)
      && (t.phases[op.id] == Opening <==> !op.readOnly && !ShowsCard(s, op.session) && !op.granted)
      && (t.phases[op.id].Answered? ==> t == s.(phases := s.phases[op.id := t.phases[op.id]]))
      && (t.phases[op.id] == Opening ==>
            && Open(t, op.id) && t.waiters[op.id] == Waiter(op.session, None, false, false)
            && t == s.(phases := s.phases[op.id := Opening], registered := s.registered + {op.id},
                       waiters := s.waiters[op.id := t.waiters[op.id]]))
  {
    CardIsOpen(s, op.session);
  }

  /** A request that was answered without a card keeps its answer and never shows one. */
  lemma {:induction false} AnswerStands(s: State, ops: seq<Op>, id: Id)
    requires Inv(s) && Possible(s, ops) && id in s.phases && id !in s.waiters
    ensures
      var t := After(s, ops);
      id in t.phases && id !in t.waiters && t.phases[id] == s.phases[id]
    decreases |ops|
  {
    if ops != [] {
      InvStep(s, ops[0]);
      AnswerStandsStep(s, ops[0], id);
      AnswerStands(Step(s, ops[0]), ops[1..], id);
    }
  }

  lemma AnswerStandsStep(s: State, op: Op, id: Id)
    requires Inv(s) && Enabled(s, op) && id in s.phases && id !in s.waiters
    ensures id in Step(s, op).phases && id !in Step(s, op).waiters && Step(s, op).phases[id] == s.phases[id]
  {
    assert s.phases[id].Answered?;
    if op.Request? || op.Opened? || op.EventEnds? || op.TimeEnds? || op.CloseOwn? || op.Answer? {
      OwnStepsKeepAnswer(s, op, id);
    } else {
      OtherStepsKeepAnswers(s, op);
    }
  }

  lemma OwnStepsKeepAnswer(s: State, op: Op, id: Id)
    requires Enabled(s, op) && id in s.phases && id !in s.waiters && s.phases[id].Answered?
    requires op.Request? || op.Opened? || op.EventEnds? || op.TimeEnds? || op.CloseOwn? || op.Answer?
    ensures id in Step(s, op).phases && id !in Step(s, op).waiters && Step(s, op).phases[id] == s.phases[id]
  {
  }

  lemma OtherStepsKeepAnswers(s: State, op: Op)
    requires Enabled(s, op)
    requires !(op.Request? || op.Opened? || op.EventEnds? || op.TimeEnds? || op.CloseOwn? || op.Answer?)
    ensures Step(s, op).phases == s.phases && Step(s, op).waiters.Keys == s.waiters.Keys
  {
  }

  /** In every run, for the rest of it: a request never comes to a card exactly if it was made in a read-only
      session, beside an open card or under a matching grant, and then its answer is accept exactly if
      the session was not read-only, showed no card and a remembered grant matched. */
  lemma AnsweredAtRequest(ops: seq<Op>, op: Op, rest: seq<Op>)
    requires Possible(START, ops) && op.Request? && Enabled(After(START, ops), op)
    requires Possible(Step(After(START, ops), op), rest)
    ensures
      var s := After(START, ops);
      var t := After(Step(s, op), rest);
      && op.id in t.phases
      && (op.id !in t.waiters <==> op.readOnly || ShowsCard(s, op.session) || op.granted)
      && (op.id !in t.waiters ==>
            t.phases[op.id] == Answered(!op.readOnly && !ShowsCard(s, op.session) && op.granted, false))
  {
    var s := After(START, ops);
    Always(START, ops);
    RequestDecides(s, op);
    InvStep(s, op);
    if op.id !in Step(s, op).waiters {
      AnswerStands(Step(s, op), rest, op.id);
    } else {
      WaiterStays(Step(s, op), rest, op.id);
    }
  }

  lemma {:induction false} WaiterStays(s: State, ops: seq<Op>, id: Id)
    requires Inv(s) && Possible(s, ops) && id in s.waiters
    ensures id in After(s, ops).waiters && id in After(s, ops).phases
    decreases |ops|
  {
    if ops != [] {
      InvStep(s, ops[0]);
      Bookkeeping(s, ops[0]);
      WaiterStays(Step(s, ops[0]), ops[1..], id);
    } else {
      assert Phased(s, id);
    }
  }

  // ---------------------------------------------------------------- answers from a card

  /** The waiter's decision is the recorded approval, and whoever has read the decision read that. */
  ghost predicate Heeded(s: State, id: Id)
    requires id in s.waiters
  {
    var decision := s.waiters[id].decision;
    && (forall d :: Approves(d) && Recorded(s, id, d) ==> decision == Some(d))
    && (id in s.phases && s.phases[id].Ending? ==>
          && (decision.Some? && Approves(decision.value) ==> Approves(s.phases[id].decision))
          && (s.phases[id].close ==> s.phases[id].decision == Deny))
    && (id in s.phases && s.phases[id].Answered? ==>
          (decision.Some? && Approves(decision.value) ==> s.phases[id].accept))
  }

  ghost predicate AllHeeded(s: State) {
    forall id :: id in s.waiters ==> Heeded(s, id)
  }

  /** Nothing that `Heeded` speaks of has changed. */
  lemma HeededKept(s: State, t: State, id: Id)
    requires id in s.waiters && Heeded(s, id)
    requires id in t.waiters && t.waiters[id].decision == s.waiters[id].decision
    requires id in s.phases && id in t.phases && t.phases[id] == s.phases[id]
    requires forall d :: Approves(d) && Recorded(t, id, d) ==> Recorded(s, id, d)
    ensures Heeded(t, id)
  {
  }

  lemma HeededRequest(s: State, op: Op, id: Id)
    requires Inv(s) && AllHeeded(s) && Enabled(s, op) && op.Request? && id in Step(s, op).waiters
    ensures Heeded(Step(s, op), id)
  {
    if id in s.waiters {
      assert Phased(s, id);
      HeededKept(s, Step(s, op), id);
    } else {
      NoCallNoRecord(s.closes, id, ApproveOnce);
      NoCallNoRecord(s.closes, id, ApproveSession);
    }
  }

  lemma HeededOwn(s: State, op: Op, id: Id)
    requires Inv(s) && AllHeeded(s) && Enabled(s, op) && id in s.waiters
    requires op.Opened? || op.EventEnds? || op.TimeEnds? || op.CloseOwn? || op.Answer?
    ensures id in Step(s, op).waiters && Heeded(Step(s, op), id)
  {
    assert Sound(s, id) && Heeded(s, id);
    if id != op.id {
      HeededBeside(s, op, id);
    } else if op.EventEnds? || op.TimeEnds? {
      HeededEnd(s, op);
    } else {
      HeededClose(s, op);
    }
  }

  lemma HeededBeside(s: State, op: Op, id: Id)
    requires Inv(s) && Enabled(s, op) && id in s.waiters && Heeded(s, id)
    requires (op.Opened? || op.EventEnds? || op.TimeEnds? || op.CloseOwn? || op.Answer?) && id != op.id
    ensures id in Step(s, op).waiters && Heeded(Step(s, op), id)
  {
    assert Phased(s, id);
    HeededKept(s, Step(s, op), id);
  }

  lemma HeededClose(s: State, op: Op)
    requires (op.Opened? || op.CloseOwn? || op.Answer?) && Enabled(s, op) && op.id in s.waiters && Heeded(s, op.id)
    ensures op.id in Step(s, op).waiters && Heeded(Step(s, op), op.id)
  {
  }

  lemma HeededEnd(s: State, op: Op)
    requires (op.EventEnds? || op.TimeEnds?) && Enabled(s, op) && Sound(s, op.id) && Heeded(s, op.id)
    ensures op.id in Step(s, op).waiters && Heeded(Step(s, op), op.id)
  {
    WaitEnds(s, op);
    assert forall d :: Recorded(Step(s, op), op.id, d) ==> Recorded(s, op.id, d);
  }

  lemma HeededDecision(s: State, op: Op, id: Id)
    requires Inv(s) && AllHeeded(s) && Enabled(s, op) && id in s.waiters && (op.Resolve? || op.Cancel?)
    ensures id in Step(s, op).waiters && Heeded(Step(s, op), id)
  {
    assert Phased(s, id) && Sound(s, id) && Heeded(s, id);
    if Step(s, op).waiters[id] == s.waiters[id] {
      HeededKept(s, Step(s, op), id);
    } else {
      NoCallNoRecord(s.closes, id, ApproveOnce);
      NoCallNoRecord(s.closes, id, ApproveSession);
    }
  }

  lemma HeededThread(s: State, op: Op, id: Id)
    requires Inv(s) && AllHeeded(s) && Enabled(s, op) && id in s.waiters && Mover(op).Some?
    ensures id in Step(s, op).waiters && Heeded(Step(s, op), id)
  {
    assert Phased(s, id) && Heeded(s, id);
    if op.Record? {
      HeededRecord(s, op, id);
    } else if op.Refuse? {
      HeededRefusal(s, op, id);
    } else {
      assert Step(s, op).waiters[id].decision == s.waiters[id].decision;
      assert forall d :: Approves(d) && Recorded(Step(s, op), id, d) ==> Recorded(s, id, d);
      HeededKept(s, Step(s, op), id);
    }
  }

  lemma HeededRecord(s: State, op: Op, id: Id)
    requires Inv(s) && AllHeeded(s) && Enabled(s, op) && id in s.waiters && op.Record?
    ensures id in Step(s, op).waiters && Heeded(Step(s, op), id)
  {
    assert Phased(s, id) && Sound(s, id) && Heeded(s, id);
    if s.threads[op.thread].id != id {
      HeededKept(s, Step(s, op), id);
    } else {
      assert ThreadSound(s, op.thread) && Pending(s, id);
      NoCallNoRecord(s.closes, id, ApproveOnce);
      NoCallNoRecord(s.closes, id, ApproveSession);
    }
  }

  lemma HeededRefusal(s: State, op: Op, id: Id)
    requires Inv(s) && AllHeeded(s) && Enabled(s, op) && id in s.waiters && op.Refuse?
    ensures id in Step(s, op).waiters && Heeded(Step(s, op), id)
  {
    assert Phased(s, id) && Heeded(s, id);
    if s.threads[op.thread].id != id {
      HeededKept(s, Step(s, op), id);
    } else {
      assert ThreadSound(s, op.thread);
    }
  }

  lemma AllHeededStep(s: State, op: Op)
    requires Inv(s) && AllHeeded(s) && Enabled(s, op)
    ensures AllHeeded(Step(s, op))
  {
    forall id | id in Step(s, op).waiters ensures Heeded(Step(s, op), id) {
      if op.Request? {
        HeededRequest(s, op, id);
      } else if Mover(op).Some? {
        HeededThread(s, op, id);
      } else if op.Resolve? || op.Cancel? {
        HeededDecision(s, op, id);
      } else {
        HeededOwn(s, op, id);
      }
    }
  }

  lemma {:induction false} AllHeededAlways(s: State, ops: seq<Op>)
    requires Inv(s) && AllHeeded(s) && Possible(s, ops)
    ensures Inv(After(s, ops)) && AllHeeded(After(s, ops))
    decreases |ops|
  {
    if ops != [] {
      InvStep(s, ops[0]);
      AllHeededStep(s, ops[0]);
      AllHeededAlways(Step(s, ops[0]), ops[1..]);
    }
  }

  /** A request with a card is answered with accept if an approval of it was recorded, timed out or not, and
      where it did not time out with nothing less. */
  lemma AcceptedExactlyWhenRecorded(ops: seq<Op>, id: Id)
    requires Possible(START, ops)
    requires var s := After(START, ops); id in s.waiters && id in s.phases && s.phases[id].Answered?
    ensures
      var s := After(START, ops);
      && (RecordedApproval(s, id) ==> s.phases[id].accept)
      && (!s.phases[id].timedOut ==> (s.phases[id].accept <==> RecordedApproval(s, id)))
  {
    AllHeededAlways(START, ops);
    var s := After(START, ops);
    assert Heeded(s, id);
    if s.phases[id] == Answered(true, false) {
      AcceptIsRecorded(ops, id);
    }
  }

  // ---------------------------------------------------------------- how a card is decided

  /** A decision reaches an open card of the resolver's own session, and nothing else. */
  lemma ResolveDecides(s: State, op: Op)
    requires op.Resolve? && Enabled(s, op)
    ensures
      var t := Step(s, op);
      if
        && op.id in s.registered && op.id in s.waiters
        && !s.waiters[op.id].closed && s.waiters[op.id].session == op.session
      then
        && t.waiters == s.waiters[op.id := Waiter(op.session, Some(op.decision), true, s.waiters[op.id].event)]
        && t.threads == s.threads[s.next := Recording(op.id, op.decision)] && t.next == s.next + 1
        && t.phases == s.phases && t.registered == s.registered && t.closes == s.closes
      else t == s
  {
  }

  /** The wait ends: the card goes, the decision is the waiter's or a denial, and the request closes the
      card itself exactly if nobody has; a wait that its event ended did not time out. */
  lemma WaitEnds(s: State, op: Op)
    requires (op.EventEnds? || op.TimeEnds?) && Enabled(s, op)
    ensures
      var t, w := Step(s, op), s.waiters[op.id];
      && op.id !in t.registered && t.registered == s.registered - {op.id}
      && t.waiters == s.waiters[op.id := w.(closed := true)]
      && op.id in t.phases
      && t.phases[op.id] == Ending(if w.decision == None then Deny else w.decision.value, !w.closed, op.TimeEnds?)
      && t.threads == s.threads && t.closes == s.closes
  {
  }

  /** The request is answered with accept exactly if it ended with an approval. */
  lemma AnswerFollows(s: State, op: Op)
    requires op.Answer? && Enabled(s, op)
    ensures
      var ending := s.phases[op.id];
      Step(s, op) == s.(phases := s.phases[op.id :=
        Answered(ending.decision == ApproveOnce || ending.decision == ApproveSession, ending.timedOut)])
  {
  }

  /** The waiter is denied, and so is whoever has read its decision. */
  predicate Declined(s: State, id: Id) {
    && id in s.waiters && s.waiters[id].closed && s.waiters[id].decision == Some(Deny)
    && id in s.phases
    && (s.phases[id].Ending? ==> s.phases[id].decision == Deny)
    && (s.phases[id].Answered? ==> !s.phases[id].accept)
  }

  lemma DeclinedStep(s: State, op: Op, id: Id)
    requires Inv(s) && Enabled(s, op) && Declined(s, id)
    ensures Declined(Step(s, op), id)
  {
    assert Phased(s, id);
    if op.EventEnds? || op.TimeEnds? {
      WaitEnds(s, op);
    } else if op.Resolve? {
      ResolveDecides(s, op);
    } else if op.Answer? {
      AnswerFollows(s, op);
    } else if Mover(op).Some? {
      ThreadKeepsDenial(s, op, id);
    }
  }

  lemma ThreadKeepsDenial(s: State, op: Op, id: Id)
    requires Enabled(s, op) && Mover(op).Some? && Declined(s, id)
    ensures Declined(Step(s, op), id)
  {
  }

  lemma {:induction false} DeclinedAlways(s: State, ops: seq<Op>, id: Id)
    requires Inv(s) && Possible(s, ops) && Declined(s, id)
    ensures Declined(After(s, ops), id)
    decreases |ops|
  {
    if ops != [] {
      InvStep(s, ops[0]);
      DeclinedStep(s, ops[0], id);
      DeclinedAlways(Step(s, ops[0]), ops[1..], id);
    }
  }

  /** Cancelling a session, or denying a card, denies for good: the session shows no card then, and no
      card it showed is ever answered with accept. */
  lemma DeniedIsDeclined(ops: seq<Op>, op: Op, rest: seq<Op>, id: Id)
    requires Possible(START, ops) && (op.Cancel? || (op.Resolve? && op.decision == Deny && op.id == id))
    requires var s := After(START, ops); Open(s, id) && s.waiters[id].session == op.session
    requires Possible(Step(After(START, ops), op), rest)
    ensures
      var s := After(START, ops);
      var t := After(Step(s, op), rest);
      && !ShowsCard(Step(s, op), op.session)
      && id in t.phases && (t.phases[id].Answered? ==> !t.phases[id].accept)
  {
    var s := After(START, ops);
    Always(START, ops);
    assert Sound(s, id) && Phased(s, id);
    NoCardLeft(s, op, id);
    InvStep(s, op);
    DeclinedAlways(Step(s, op), rest, id);
  }

  lemma NoCardLeft(s: State, op: Op, id: Id)
    requires Inv(s) && OneOpen(s) && Enabled(s, op)
    requires op.Cancel? || (op.Resolve? && op.decision == Deny && op.id == id)
    requires Open(s, id) && s.waiters[id].session == op.session
    ensures !ShowsCard(Step(s, op), op.session)
    ensures Declined(Step(s, op), id)
  {
    assert Phased(s, id);
    assert id in OpenOf(s, op.session);
  }
}
