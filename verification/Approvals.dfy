/** The approval broker: a request blocks its thread until a resolver, a cancellation or a
    timeout ends the wait. Every section under the broker's lock is one step; the callbacks
    that persist an approval run outside the lock, and may fail. */
module Approvals {
  import opened Common

  datatype Decision = ApproveOnce | ApproveSession | Deny

  predicate Approves(d: Decision) {
    d != Deny
  }

  datatype Waiter = Waiter(session: Id, decision: Option<Decision>, closed: bool, event: bool)

  /** Where the requesting thread is. */
  datatype Phase =
    | Opening
    | Waiting
    | Ending(decision: Decision, close: bool, timedOut: bool)
    | Answered(accept: bool, timedOut: bool)
    | Raised

  /** A thread in `resolve` or `cancel_session` after its section under the lock. */
  datatype Closer =
    | Recording(id: Id, decision: Decision)
    | Refusing(id: Id)
    | Waking(id: Id)
    | Cancelling(todo: set<Id>, wake: Option<Id>)

  /** Who set a waiter's closed flag. */
  datatype Claim = ByRequest | ByThread(thread: nat)

  /** A call of `on_close`, and whether it succeeded. */
  datatype Close = Close(id: Id, decision: Decision, ok: bool)

  datatype State = State(
    waiters: map<Id, Waiter>, registered: set<Id>, phases: map<Id, Phase>,
    threads: map<nat, Closer>, next: nat, claims: map<Id, Claim>, closes: seq<Close>)

  datatype Op =
    | Request(id: Id, session: Id, readOnly: bool, granted: bool)
    | Opened(id: Id, ok: bool)
    | EventEnds(id: Id)
    | TimeEnds(id: Id)
    | CloseOwn(id: Id, ok: bool)
    | Answer(id: Id)
    | Resolve(session: Id, id: Id, decision: Decision)
    | Record(thread: nat, ok: bool)
    | Refuse(thread: nat)
    | WakeUp(thread: nat)
    | Cancel(session: Id)
    | CancelRecord(thread: nat, id: Id, ok: bool)
    | CancelWake(thread: nat)
    | CancelDone(thread: nat)

  predicate Open(s: State, id: Id) {
    id in s.registered && id in s.waiters && !s.waiters[id].closed
  }

  function OpenOf(s: State, session: Id): set<Id> {
    set id | id in s.registered && Open(s, id) && s.waiters[id].session == session
  }

  predicate Enabled(s: State, op: Op) {
    match op
    case Request(id, _, _, _) => id !in s.waiters && id !in s.phases
    case Opened(id, _) => id in s.phases && s.phases[id].Opening? && id in s.waiters
    case EventEnds(id) => id in s.phases && s.phases[id].Waiting? && id in s.waiters && s.waiters[id].event
    case TimeEnds(id) => id in s.phases && s.phases[id].Waiting? && id in s.waiters
    case CloseOwn(id, _) => id in s.phases && s.phases[id].Ending? && s.phases[id].close
    case Answer(id) => id in s.phases && s.phases[id].Ending? && !s.phases[id].close
    case Resolve(_, _, _) => true
    case Record(n, _) => n in s.threads && s.threads[n].Recording?
    case Refuse(n) => n in s.threads && s.threads[n].Refusing? && s.threads[n].id in s.waiters
    case WakeUp(n) => n in s.threads && s.threads[n].Waking? && s.threads[n].id in s.waiters
    case Cancel(_) => true
    case CancelRecord(n, id, _) =>
      n in s.threads && s.threads[n].Cancelling? && s.threads[n].wake == None && id in s.threads[n].todo
    case CancelWake(n) =>
      n in s.threads && s.threads[n].Cancelling? && s.threads[n].wake.Some? && s.threads[n].wake.value in s.waiters
    case CancelDone(n) => n in s.threads && s.threads[n] == Cancelling({}, None)
  }

  /** The answers that need no card: read-only, another card open, a remembered grant. */
  function Requested(s: State, id: Id, session: Id, readOnly: bool, granted: bool): State {
    if readOnly then s.(phases := s.phases[id := Answered(false, false)])
    else if OpenOf(s, session) != {} then s.(phases := s.phases[id := Answered(false, false)])
    else if granted then s.(phases := s.phases[id := Answered(true, false)])
    else s.(phases := s.phases[id := Opening], registered := s.registered + {id},
            waiters := s.waiters[id := Waiter(session, None, false, false)])
  }

  /** The wait is over: read the decision, and take on the closing if nobody did. */
  function Ended(s: State, id: Id, timedOut: bool): State
    requires id in s.waiters
  {
    var w := s.waiters[id];
    var decision := if w.decision.Some? then w.decision.value else Deny;
    s.(registered := s.registered - {id}, waiters := s.waiters[id := w.(closed := true)],
       phases := s.phases[id := Ending(decision, !w.closed, timedOut)],
       claims := if w.closed then s.claims else s.claims[id := ByRequest])
  }

  function Resolved(s: State, session: Id, id: Id, decision: Decision): State {
    if !Open(s, id) || s.waiters[id].session != session then s
    else s.(waiters := s.waiters[id := s.waiters[id].(decision := Some(decision), closed := true)],
            threads := s.threads[s.next := Recording(id, decision)], next := s.next + 1,
            claims := s.claims[id := ByThread(s.next)])
  }

  function Denied(w: Waiter): Waiter {
    w.(decision := Some(Deny), closed := true)
  }

  function Cancelled(s: State, session: Id): State {
    var ids := OpenOf(s, session);
    s.(waiters := map id | id in s.waiters :: if id in ids then Denied(s.waiters[id]) else s.waiters[id],
       threads := s.threads[s.next := Cancelling(ids, None)], next := s.next + 1,
       claims := map id | id in s.claims.Keys + ids :: if id in ids then ByThread(s.next) else s.claims[id])
  }

  function Set(s: State, id: Id): map<Id, Waiter>
    requires id in s.waiters
  {
    s.waiters[id := s.waiters[id].(event := true)]
  }

  function Step(s: State, op: Op): State
    requires Enabled(s, op)
  {
    match op
    case Request(id, session, readOnly, granted) => Requested(s, id, session, readOnly, granted)
    case Opened(id, ok) =>
      if ok then s.(phases := s.phases[id := Waiting])
      else s.(registered := s.registered - {id}, phases := s.phases[id := Raised])
    case EventEnds(id) => Ended(s, id, false)
    case TimeEnds(id) => Ended(s, id, true)
    case CloseOwn(id, ok) =>
      s.(closes := s.closes + [Close(id, s.phases[id].decision, ok)],
         phases := s.phases[id := if ok then s.phases[id].(close := false) else Raised])
    case Answer(id) =>
      s.(phases := s.phases[id := Answered(Approves(s.phases[id].decision), s.phases[id].timedOut)])
    case Resolve(session, id, decision) => Resolved(s, session, id, decision)
    case Record(n, ok) =>
      var c := s.threads[n];
      s.(closes := s.closes + [Close(c.id, c.decision, ok)],
         threads := s.threads[n := if ok then Waking(c.id) else Refusing(c.id)])
    case Refuse(n) =>
      var id := s.threads[n].id;
      s.(waiters := s.waiters[id := s.waiters[id].(decision := Some(Deny))], threads := s.threads[n := Waking(id)])
    case WakeUp(n) => s.(waiters := Set(s, s.threads[n].id), threads := s.threads - {n})
    case Cancel(session) => Cancelled(s, session)
    case CancelRecord(n, id, ok) =>
      s.(closes := s.closes + [Close(id, Deny, ok)],
         threads := s.threads[n := Cancelling(s.threads[n].todo - {id}, Some(id))])
    case CancelWake(n) =>
      s.(waiters := Set(s, s.threads[n].wake.value), threads := s.threads[n := Cancelling(s.threads[n].todo, None)])
    case CancelDone(n) => s.(threads := s.threads - {n})
  }

  ghost predicate Possible(s: State, ops: seq<Op>)
    decreases |ops|
  {
    ops == [] || (Enabled(s, ops[0]) && Possible(Step(s, ops[0]), ops[1..]))
  }

  ghost function After(s: State, ops: seq<Op>): State
    requires Possible(s, ops)
    decreases |ops|
  {
    if ops == [] then s else After(Step(s, ops[0]), ops[1..])
  }

  const START := State(map[], {}, map[], map[], 0, map[], [])

  function Calls(closes: seq<Close>, id: Id): nat
    decreases |closes|
  {
    if closes == [] then 0
    else Calls(closes[..|closes| - 1], id) + (if closes[|closes| - 1].id == id then 1 else 0)
  }
}
