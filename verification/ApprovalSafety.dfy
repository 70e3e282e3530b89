/** What the approval broker guarantees in every interleaving of requests, resolvers,
    cancellations, timeouts and failing callbacks. */
module ApprovalSafety {
  import opened Common
  import opened Approvals

  ghost predicate Recorded(s: State, id: Id, d: Decision) {
    Close(id, d, true) in s.closes
  }

  ghost predicate RecordedApproval(s: State, id: Id) {
    Recorded(s, id, ApproveOnce) || Recorded(s, id, ApproveSession)
  }

  /** A thread has the call of `on_close` for `id` still before it. */
  predicate StillToClose(c: Closer, id: Id) {
    (c.Recording? && c.id == id) || (c.Cancelling? && id in c.todo)
  }

  /** A thread is at work on `id`, before waking its request. */
  predicate AtWork(c: Closer, id: Id) {
    match c
    case Recording(i, _) => i == id
    case Refusing(i) => i == id
    case Waking(i) => i == id
    case Cancelling(todo, wake) => id in todo || wake == Some(id)
  }

  /** Whoever set the closed flag has not called `on_close` yet. */
  predicate Pending(s: State, id: Id) {
    id in s.claims &&
    match s.claims[id]
    case ByRequest => id in s.phases && s.phases[id].Ending? && s.phases[id].close
    case ByThread(n) => n in s.threads && StillToClose(s.threads[n], id)
  }

  /** A resolver took the decision but it is not recorded: the callback runs, or has just failed. */
  predicate Unrecorded(s: State, id: Id) {
    && id in s.claims && s.claims[id].ByThread? && s.claims[id].thread in s.threads
    && var c := s.threads[s.claims[id].thread];
       (c.Recording? && c.id == id) || c == Refusing(id)
  }

  ghost predicate Sound(s: State, id: Id)
    requires id in s.waiters
  {
    var w := s.waiters[id];
    && (w.closed <==> id in s.claims)
    && (!w.closed ==> w.decision == None && !w.event)
    && Calls(s.closes, id) == (if w.closed && !Pending(s, id) then 1 else 0)
    && (w.event ==> w.closed && s.claims[id].ByThread?)
    && (w.decision.Some? && Approves(w.decision.value) ==> s.claims[id].ByThread?)
    && (w.decision.Some? && Approves(w.decision.value) && !Unrecorded(s, id) ==> Recorded(s, id, w.decision.value))
  }

  ghost predicate Phased(s: State, id: Id)
    requires id in s.waiters
  {
    && id in s.phases
    && (id in s.registered ==> s.phases[id].Opening? || s.phases[id].Waiting?)
    && match s.phases[id]
       case Ending(d, close, timedOut) =>
         && id in s.claims && (close ==> s.claims[id].ByRequest?)
         && (!timedOut ==> !Pending(s, id))
         && (!timedOut && Approves(d) ==> Recorded(s, id, d))
       case Answered(accept, timedOut) =>
         && id in s.claims && (!timedOut || s.claims[id].ByRequest? ==> !Pending(s, id))
         && (!timedOut && accept ==> RecordedApproval(s, id))
       case Raised => true
       case _ => id in s.claims ==> s.claims[id].ByThread?
  }

  /** A thread works on waiters it closed itself, and their requests are not woken yet. */
  ghost predicate ThreadSound(s: State, n: nat)
    requires n in s.threads
  {
    && n < s.next
    && (forall id :: AtWork(s.threads[n], id) ==>
          id in s.waiters && id in s.claims && s.claims[id] == ByThread(n) && !s.waiters[id].event)
    && (s.threads[n].Refusing? ==> !RecordedApproval(s, s.threads[n].id))
    && (s.threads[n].Recording? ==> s.waiters[s.threads[n].id].decision == Some(s.threads[n].decision))
    && (s.threads[n].Cancelling? ==> forall id :: AtWork(s.threads[n], id) ==> s.waiters[id].decision == Some(Deny))
    && (s.threads[n].Cancelling? && s.threads[n].wake.Some? ==> s.threads[n].wake.value !in s.threads[n].todo)
  }

  ghost predicate OneOpen(s: State) {
    forall a, b :: Open(s, a) && Open(s, b) && s.waiters[a].session == s.waiters[b].session ==> a == b
  }

  ghost predicate Inv(s: State) {
    && s.registered <= s.waiters.Keys
    && s.claims.Keys <= s.waiters.Keys
    && (forall id :: id in s.waiters ==> Sound(s, id) && Phased(s, id))
    && (forall id :: id !in s.waiters ==> Calls(s.closes, id) == 0)
    && (forall id :: id in s.phases && id !in s.waiters ==> s.phases[id].Answered?)
    && (forall n :: n in s.threads ==> ThreadSound(s, n))
  }

  lemma CallsMore(closes: seq<Close>, c: Close, id: Id)
    ensures Calls(closes + [c], id) == Calls(closes, id) + (if c.id == id then 1 else 0)
  {
    assert (closes + [c])[..|closes|] == closes;
  }

  lemma OneOpenRequest(s: State, op: Op)
    requires OneOpen(s) && Inv(s) && Enabled(s, op) && op.Request?
    ensures OneOpen(Step(s, op))
  {
    assert forall c :: Open(s, c) && s.waiters[c].session == op.session ==> c in OpenOf(s, op.session);
  }

  lemma NothingOpens(s: State, op: Op, id: Id)
    requires Inv(s) && Enabled(s, op) && !op.Request? && Open(Step(s, op), id)
    ensures Open(s, id) && Step(s, op).waiters[id].session == s.waiters[id].session
  {
  }

  lemma OneOpenStep(s: State, op: Op)
    requires OneOpen(s) && Inv(s) && Enabled(s, op)
    ensures OneOpen(Step(s, op))
  {
    if op.Request? {
      OneOpenRequest(s, op);
    } else {
      var t := Step(s, op);
      forall a, b | Open(t, a) && Open(t, b) && t.waiters[a].session == t.waiters[b].session ensures a == b {
        NothingOpens(s, op, a);
        NothingOpens(s, op, b);
      }
    }
  }

  /** The thread that claimed `id`, if any, is where it was as far as `id` goes. */
  predicate SameWork(s: State, t: State, id: Id) {
    id in s.claims && s.claims[id].ByThread? ==>
      && Unrecorded(s, id) == Unrecorded(t, id)
      && Pending(s, id) == Pending(t, id)
  }

  /** A waiter no part of which a step touches stays as sound as it was. */
  lemma Untouched(s: State, t: State, id: Id)
    requires id in s.waiters && Sound(s, id) && Phased(s, id)
    requires id in t.waiters && t.waiters[id] == s.waiters[id] && id in t.phases && t.phases[id] == s.phases[id]
    requires (id in t.claims <==> id in s.claims) && (id in s.claims ==> t.claims[id] == s.claims[id])
    requires id in t.registered ==> id in s.registered
    requires Calls(t.closes, id) == Calls(s.closes, id) && s.closes <= t.closes
    requires SameWork(s, t, id)
    ensures Sound(t, id) && Phased(t, id)
  {
    assert forall c :: c in s.closes ==> c in t.closes;
  }

  /** A thread stays sound while nobody else changes what it works on. */
  lemma Undisturbed(s: State, t: State, n: nat)
    requires n in s.threads && ThreadSound(s, n) && n in t.threads && t.threads[n] == s.threads[n] && s.next <= t.next
    requires forall id :: AtWork(s.threads[n], id) ==>
      && id in t.waiters && id in t.claims && t.claims[id] == ByThread(n)
      && (RecordedApproval(t, id) ==> RecordedApproval(s, id))
      && t.waiters[id].event == s.waiters[id].event && t.waiters[id].decision == s.waiters[id].decision
    ensures ThreadSound(t, n)
  {
  }

  /** The thread an operation belongs to. */
  function Mover(op: Op): Option<nat> {
    match op
    case Record(n, _) => Some(n)
    case Refuse(n) => Some(n)
    case WakeUp(n) => Some(n)
    case CancelRecord(n, _, _) => Some(n)
    case CancelWake(n) => Some(n)
    case CancelDone(n) => Some(n)
    case _ => None
  }

  lemma OpeningThreads(s: State, op: Op, n: nat)
    requires Enabled(s, op) && (op.Request? || op.Opened?) && n in s.threads && ThreadSound(s, n)
    ensures n in Step(s, op).threads && ThreadSound(Step(s, op), n)
  {
    Undisturbed(s, Step(s, op), n);
  }

  lemma EndingThreads(s: State, op: Op, n: nat)
    requires Inv(s) && Enabled(s, op) && (op.EventEnds? || op.TimeEnds? || op.CloseOwn? || op.Answer?)
    requires n in Step(s, op).threads
    ensures ThreadSound(Step(s, op), n)
  {
    Undisturbed(s, Step(s, op), n);
  }

  lemma ResolvingThreads(s: State, op: Op, n: nat)
    requires Inv(s) && Enabled(s, op) && op.Resolve? && n in Step(s, op).threads
    ensures ThreadSound(Step(s, op), n)
  {
    if n in s.threads {
      Undisturbed(s, Step(s, op), n);
    }
  }

  lemma CancellingThreads(s: State, op: Op, n: nat)
    requires Inv(s) && Enabled(s, op) && op.Cancel? && n in Step(s, op).threads
    ensures ThreadSound(Step(s, op), n)
  {
    if n in s.threads {
      Undisturbed(s, Step(s, op), n);
    }
  }

  lemma ThreadsBesidesRecord(s: State, op: Op, n: nat)
    requires Inv(s) && Enabled(s, op) && (op.Record? || op.CancelRecord?) && Mover(op) != Some(n)
    requires n in Step(s, op).threads
    ensures ThreadSound(Step(s, op), n)
  {
    Undisturbed(s, Step(s, op), n);
  }

  lemma OtherThreads(s: State, op: Op, n: nat)
    requires Inv(s) && Enabled(s, op) && Mover(op).Some? && Mover(op) != Some(n) && n in Step(s, op).threads
    ensures ThreadSound(Step(s, op), n)
  {
    if op.Record? || op.CancelRecord? {
      ThreadsBesidesRecord(s, op, n);
    } else {
      Undisturbed(s, Step(s, op), n);
    }
  }

  lemma OwnThread(s: State, op: Op, n: nat)
    requires Inv(s) && Enabled(s, op) && Mover(op) == Some(n) && n in Step(s, op).threads
    ensures ThreadSound(Step(s, op), n)
  {
    if op.Record? {
      var id := s.threads[n].id;
      assert Sound(s, id) && Pending(s, id);
      NoCallNoRecord(s.closes, id, ApproveOnce);
      NoCallNoRecord(s.closes, id, ApproveSession);
    }
  }

  lemma ThreadsStep(s: State, op: Op, n: nat)
    requires Inv(s) && Enabled(s, op) && n in Step(s, op).threads
    ensures ThreadSound(Step(s, op), n)
  {
    if op.Request? || op.Opened? {
      OpeningThreads(s, op, n);
    } else if op.Resolve? {
      ResolvingThreads(s, op, n);
    } else if op.Cancel? {
      CancellingThreads(s, op, n);
    } else if Mover(op) == None {
      EndingThreads(s, op, n);
    } else if Mover(op) == Some(n) {
      OwnThread(s, op, n);
    } else {
      OtherThreads(s, op, n);
    }
  }

  lemma RequestedWaiters(s: State, op: Op, id: Id)
    requires Inv(s) && Enabled(s, op) && op.Request? && id in Step(s, op).waiters
    ensures Sound(Step(s, op), id) && Phased(Step(s, op), id)
  {
    if id != op.id {
      Untouched(s, Step(s, op), id);
    }
  }

  lemma OpenedWaiters(s: State, op: Op, id: Id)
    requires Inv(s) && Enabled(s, op) && op.Opened? && id in Step(s, op).waiters
    ensures Sound(Step(s, op), id) && Phased(Step(s, op), id)
  {
    if id != op.id {
      Untouched(s, Step(s, op), id);
    }
  }

  lemma EndingWaiters(s: State, op: Op, id: Id)
    requires Inv(s) && Enabled(s, op) && (op.EventEnds? || op.TimeEnds? || op.Answer?) && id in Step(s, op).waiters
    ensures Sound(Step(s, op), id) && Phased(Step(s, op), id)
  {
    if id != op.id {
      Untouched(s, Step(s, op), id);
    }
  }

  lemma ResolvingWaiters(s: State, op: Op, id: Id)
    requires Inv(s) && Enabled(s, op) && op.Resolve? && id in Step(s, op).waiters
    ensures Sound(Step(s, op), id) && Phased(Step(s, op), id)
  {
    if Step(s, op).waiters[id] == s.waiters[id] {
      Untouched(s, Step(s, op), id);
    }
  }

  lemma CancellingWaiters(s: State, op: Op, id: Id)
    requires Inv(s) && Enabled(s, op) && op.Cancel? && id in Step(s, op).waiters
    ensures Sound(Step(s, op), id) && Phased(Step(s, op), id)
  {
    if Step(s, op).waiters[id] == s.waiters[id] {
      Untouched(s, Step(s, op), id);
    }
  }

  predicate Persists(op: Op) {
    op.CloseOwn? || op.Record? || op.CancelRecord?
  }

  /** The waiter whose `on_close` an operation calls. */
  function Persisted(s: State, op: Op): Id
    requires Enabled(s, op) && Persists(op)
  {
    if op.Record? then s.threads[op.thread].id else op.id
  }

  lemma PersistedCalls(s: State, op: Op, id: Id)
    requires Enabled(s, op) && Persists(op)
    ensures Calls(Step(s, op).closes, id) == Calls(s.closes, id) + (if Persisted(s, op) == id then 1 else 0)
  {
    CallsMore(s.closes, Step(s, op).closes[|s.closes|], id);
  }

  lemma OwnCloseWaiters(s: State, op: Op, id: Id)
    requires Inv(s) && Enabled(s, op) && op.CloseOwn? && id in Step(s, op).waiters
    ensures Sound(Step(s, op), id) && Phased(Step(s, op), id)
  {
    PersistedCalls(s, op, id);
    if id != Persisted(s, op) {
      Untouched(s, Step(s, op), id);
    }
  }

  lemma RecordedWaiters(s: State, op: Op, id: Id)
    requires Inv(s) && Enabled(s, op) && op.Record? && id in Step(s, op).waiters
    ensures Sound(Step(s, op), id) && Phased(Step(s, op), id)
  {
    PersistedCalls(s, op, id);
    if id != Persisted(s, op) {
      Untouched(s, Step(s, op), id);
    }
  }

  lemma DeniedSound(s: State, op: Op)
    requires Inv(s) && Enabled(s, op) && op.CancelRecord?
    ensures op.id in s.waiters && op.id in Step(s, op).waiters && Sound(Step(s, op), op.id)
  {
    assert AtWork(s.threads[op.thread], op.id);
    assert Sound(s, op.id);
    PersistedCalls(s, op, op.id);
  }

  lemma DeniedPhased(s: State, op: Op)
    requires Inv(s) && Enabled(s, op) && op.CancelRecord?
    ensures op.id in s.waiters && op.id in Step(s, op).waiters && Phased(Step(s, op), op.id)
  {
    assert AtWork(s.threads[op.thread], op.id);
    assert Phased(s, op.id);
    assert forall c :: c in s.closes ==> c in Step(s, op).closes;
  }

  lemma DeniedWaiters(s: State, op: Op, id: Id)
    requires Inv(s) && Enabled(s, op) && op.CancelRecord? && id in Step(s, op).waiters
    ensures Sound(Step(s, op), id) && Phased(Step(s, op), id)
  {
    if id == op.id {
      DeniedSound(s, op);
      DeniedPhased(s, op);
    } else {
      PersistedCalls(s, op, id);
      Untouched(s, Step(s, op), id);
    }
  }

  lemma RefusedWaiters(s: State, op: Op, id: Id)
    requires Inv(s) && Enabled(s, op) && op.Refuse? && id in Step(s, op).waiters
    ensures Sound(Step(s, op), id) && Phased(Step(s, op), id)
  {
    if !AtWork(s.threads[op.thread], id) {
      Untouched(s, Step(s, op), id);
    }
  }

  lemma WokenWaiters(s: State, op: Op, id: Id)
    requires Inv(s) && Enabled(s, op) && op.WakeUp? && id in Step(s, op).waiters
    ensures Sound(Step(s, op), id) && Phased(Step(s, op), id)
  {
    if !AtWork(s.threads[op.thread], id) {
      Untouched(s, Step(s, op), id);
    }
  }

  lemma ReleasedWaiters(s: State, op: Op, id: Id)
    requires Inv(s) && Enabled(s, op) && op.CancelWake? && id in Step(s, op).waiters
    ensures Sound(Step(s, op), id) && Phased(Step(s, op), id)
  {
    if !AtWork(s.threads[op.thread], id) {
      Untouched(s, Step(s, op), id);
    }
  }

  lemma DoneWaiters(s: State, op: Op, id: Id)
    requires Inv(s) && Enabled(s, op) && op.CancelDone? && id in Step(s, op).waiters
    ensures Sound(Step(s, op), id) && Phased(Step(s, op), id)
  {
    Untouched(s, Step(s, op), id);
  }

  lemma WaitersStep(s: State, op: Op, id: Id)
    requires Inv(s) && Enabled(s, op) && id in Step(s, op).waiters
    ensures Sound(Step(s, op), id) && Phased(Step(s, op), id)
  {
    if op.Request? {
      RequestedWaiters(s, op, id);
    } else if op.Opened? {
      OpenedWaiters(s, op, id);
    } else if op.EventEnds? || op.TimeEnds? || op.Answer? {
      EndingWaiters(s, op, id);
    } else if op.Resolve? {
      ResolvingWaiters(s, op, id);
    } else if op.Cancel? {
      CancellingWaiters(s, op, id);
    } else if op.CloseOwn? {
      OwnCloseWaiters(s, op, id);
    } else if op.Record? {
      RecordedWaiters(s, op, id);
    } else if op.CancelRecord? {
      DeniedWaiters(s, op, id);
    } else if op.Refuse? {
      RefusedWaiters(s, op, id);
    } else if op.WakeUp? {
      WokenWaiters(s, op, id);
    } else if op.CancelWake? {
      ReleasedWaiters(s, op, id);
    } else {
      DoneWaiters(s, op, id);
    }
  }

  /** An operation knows the waiter it closes, and never forgets one. */
  lemma Bookkeeping(s: State, op: Op)
    requires Inv(s) && Enabled(s, op)
    ensures
      var t := Step(s, op);
      && s.waiters.Keys <= t.waiters.Keys && t.registered <= t.waiters.Keys && t.claims.Keys <= t.waiters.Keys
      && (Persists(op) ==> Persisted(s, op) in s.waiters)
      && (!Persists(op) ==> t.closes == s.closes)
  {
    if op.Record? || op.CancelRecord? {
      assert AtWork(s.threads[op.thread], Persisted(s, op));
    }
  }

  lemma AnsweredAtOnce(s: State, op: Op, id: Id)
    requires Enabled(s, op) && id in Step(s, op).phases && id !in Step(s, op).waiters
    requires forall i :: i in s.phases && i !in s.waiters ==> s.phases[i].Answered?
    ensures Step(s, op).phases[id].Answered?
  {
  }

  lemma InvStep(s: State, op: Op)
    requires Inv(s) && Enabled(s, op)
    ensures Inv(Step(s, op))
  {
    var t := Step(s, op);
    Bookkeeping(s, op);
    forall id | id in t.phases && id !in t.waiters ensures t.phases[id].Answered? {
      AnsweredAtOnce(s, op, id);
    }
    forall n | n in t.threads ensures ThreadSound(t, n) {
      ThreadsStep(s, op, n);
    }
    forall id | id in t.waiters ensures Sound(t, id) && Phased(t, id) {
      WaitersStep(s, op, id);
    }
    forall id | id !in t.waiters ensures Calls(t.closes, id) == 0 {
      if Persists(op) {
        PersistedCalls(s, op, id);
      }
    }
  }

  lemma {:induction false} Always(s: State, ops: seq<Op>)
    requires Inv(s) && OneOpen(s) && Possible(s, ops)
    ensures Inv(After(s, ops)) && OneOpen(After(s, ops))
    decreases |ops|
  {
    if ops != [] {
      InvStep(s, ops[0]);
      OneOpenStep(s, ops[0]);
      Always(Step(s, ops[0]), ops[1..]);
    }
  }

  /** A session has at most one open approval at any moment of any run. */
  lemma OneCardPerSession(ops: seq<Op>, a: Id, b: Id)
    requires Possible(START, ops)
    requires
      var s := After(START, ops);
      Open(s, a) && Open(s, b) && s.waiters[a].session == s.waiters[b].session
    ensures a == b
  {
    Always(START, ops);
  }

  /** `on_close` is called at most once for an approval. Once its request has answered, it was
      called, or a resolver is about to, which can only be so if the wait had timed out. */
  lemma ClosedOnce(ops: seq<Op>, id: Id)
    requires Possible(START, ops)
    ensures
      var s := After(START, ops);
      && Calls(s.closes, id) <= 1
      && (id in s.waiters && id in s.phases && s.phases[id].Answered? ==>
            && Calls(s.closes, id) == (if Pending(s, id) then 0 else 1)
            && (Pending(s, id) ==> s.phases[id].timedOut && s.claims[id].ByThread?))
  {
    Always(START, ops);
  }

  /** A wait that its event ended is answered with accept only after an approval was recorded. */
  lemma AcceptIsRecorded(ops: seq<Op>, id: Id)
    requires Possible(START, ops)
    requires
      var s := After(START, ops);
      id in s.waiters && id in s.phases && s.phases[id] == Answered(true, false)
    ensures RecordedApproval(After(START, ops), id)
  {
    Always(START, ops);
  }

  lemma {:induction false} NoCallNoRecord(closes: seq<Close>, id: Id, d: Decision)
    requires Calls(closes, id) == 0
    ensures Close(id, d, true) !in closes
    decreases |closes|
  {
    if closes != [] {
      NoCallNoRecord(closes[..|closes| - 1], id, d);
    }
  }

  /** A wait that times out takes an approval nobody recorded exactly if a resolver has taken the
      decision and its callback is still running or has just failed. */
  lemma TimeoutAcceptsUnrecordedWhen(ops: seq<Op>, id: Id)
    requires Possible(START, ops) && Enabled(After(START, ops), TimeEnds(id))
    ensures
      var s := After(START, ops);
      var t := Step(s, TimeEnds(id));
      Approves(t.phases[id].decision) && !RecordedApproval(t, id) <==>
        Unrecorded(s, id) && s.waiters[id].decision.Some? && Approves(s.waiters[id].decision.value)
  {
    Always(START, ops);
    var s := After(START, ops);
    assert Sound(s, id) && Phased(s, id);
    if Unrecorded(s, id) {
      var n := s.claims[id].thread;
      assert ThreadSound(s, n) && AtWork(s.threads[n], id);
      if s.threads[n].Recording? {
        assert Pending(s, id);
        NoCallNoRecord(s.closes, id, ApproveOnce);
        NoCallNoRecord(s.closes, id, ApproveSession);
      }
    }
  }

  lemma Chain(s: State, op: Op, ops: seq<Op>)
    requires Enabled(s, op) && Possible(Step(s, op), ops)
    ensures Possible(s, [op] + ops) && After(s, [op] + ops) == After(Step(s, op), ops)
  {
    assert ([op] + ops)[1..] == ops;
  }

  /** A resolver has taken the decision on an open approval, and its callback runs. */
  function Racing(id: Id, session: Id): State {
    State(map[id := Waiter(session, Some(ApproveOnce), true, false)], {id}, map[id := Waiting],
          map[0 := Recording(id, ApproveOnce)], 1, map[id := ByThread(0)], [])
  }

  lemma RaceBegins(id: Id, session: Id, rest: seq<Op>) returns (ops: seq<Op>)
    requires Possible(Racing(id, session), rest)
    ensures Possible(START, ops) && After(START, ops) == After(Racing(id, session), rest)
  {
    var s1 := Step(START, Request(id, session, false, false));
    var s2 := Step(s1, Opened(id, true));
    assert Step(s2, Resolve(session, id, ApproveOnce)) == Racing(id, session);
    Chain(s2, Resolve(session, id, ApproveOnce), rest);
    ops := [Resolve(session, id, ApproveOnce)] + rest;
    Chain(s1, Opened(id, true), ops);
    ops := [Opened(id, true)] + ops;
    Chain(START, Request(id, session, false, false), ops);
    ops := [Request(id, session, false, false)] + ops;
  }

  lemma RaceEnds(id: Id, session: Id) returns (ops: seq<Op>)
    ensures Possible(Racing(id, session), ops)
    ensures
      var s := After(Racing(id, session), ops);
      id in s.phases && s.phases[id] == Answered(true, true) && s.closes == [Close(id, ApproveOnce, false)]
  {
    var s0 := Racing(id, session);
    var s1 := Step(s0, TimeEnds(id));
    var s2 := Step(s1, Answer(id));
    Chain(s2, Record(0, false), []);
    ops := [Record(0, false)] + [];
    Chain(s1, Answer(id), ops);
    ops := [Answer(id)] + ops;
    Chain(s0, TimeEnds(id), ops);
    ops := [TimeEnds(id)] + ops;
  }

  /** It does happen: the wait times out while the resolver's callback runs, the request is
      answered with accept, and then the callback fails. */
  lemma TimeoutRaceAccepts(id: Id, session: Id) returns (ops: seq<Op>)
    ensures Possible(START, ops)
    ensures
      var s := After(START, ops);
      && id in s.phases && s.phases[id] == Answered(true, true)
      && s.closes == [Close(id, ApproveOnce, false)] && !RecordedApproval(s, id)
  {
    ops := RaceEnds(id, session);
    ops := RaceBegins(id, session, ops);
  }
}
