/** The broker's sections under its lock as the code runs them, searching and updating the
    table of waiters; each does what its step of the state machine does. */
module ApprovalBroker {
  import opened Common
  import opened Approvals
  import opened ApprovalAnswers

  class Broker {
    var waiters: map<Id, Waiter>
    var registered: set<Id>
    var phases: map<Id, Phase>
    var threads: map<nat, Closer>
    var next: nat
    var claims: map<Id, Claim>
    var closes: seq<Close>

    ghost function View(): State
      reads this
    {
      State(waiters, registered, phases, threads, next, claims, closes)
    }

    ghost predicate Valid()
      reads this
    {
      registered <= waiters.Keys
    }

    /** Is a card of this session open? */
    method HasOpen(session: Id) returns (found: bool)
      requires Valid()
      ensures found <==> ShowsCard(View(), session)
    {
      var todo := registered;
      while todo != {}
        invariant todo <= registered
        invariant forall id :: id in registered - todo ==> waiters[id].closed || waiters[id].session != session
        decreases todo
      {
        var id :| id in todo;
        if !waiters[id].closed && waiters[id].session == session {
          return true;
        }
        todo := todo - {id};
      }
      return false;
    }

    /** Decline a read-only session's request and one beside an open card, accept one that a remembered
        grant matches, and register a waiter for any other. */
    method Request(id: Id, session: Id, readOnly: bool, granted: bool)
      requires Valid() && id !in waiters
      modifies this
      ensures Valid() && View() == Requested(old(View()), id, session, readOnly, granted)
      ensures threads == old(threads) && next == old(next) && claims == old(claims) && closes == old(closes)
      ensures readOnly || old(ShowsCard(View(), session)) ==>
        phases == old(phases)[id := Answered(false, false)] && waiters == old(waiters) && registered == old(registered)
      ensures !readOnly && !old(ShowsCard(View(), session)) && granted ==>
        phases == old(phases)[id := Answered(true, false)] && waiters == old(waiters) && registered == old(registered)
      ensures !readOnly && !old(ShowsCard(View(), session)) && !granted ==>
        && phases == old(phases)[id := Opening]
        && waiters == old(waiters)[id := Waiter(session, None, false, false)]
        && registered == old(registered) + {id}
    {
      CardIsOpen(View(), session);
      if readOnly {
        phases := phases[id := Answered(false, false)];
        return;
      }
      var open := HasOpen(session);
      if open || granted {
        phases := phases[id := Answered(!open, false)];
        return;
      }
      waiters := waiters[id := Waiter(session, None, false, false)];
      registered := registered + {id};
      phases := phases[id := Opening];
    }

    /** After the wait: take the waiter out, read the decision, and close it if nobody did. */
    method EndWait(id: Id, timedOut: bool) returns (decision: Decision, closeNow: bool)
      requires Valid() && id in waiters
      modifies this
      ensures Valid() && View() == Ended(old(View()), id, timedOut)
      ensures phases[id] == Ending(decision, closeNow, timedOut)
    {
      registered := registered - {id};
      decision := if waiters[id].decision.Some? then waiters[id].decision.value else Deny;
      closeNow := !waiters[id].closed;
      waiters := waiters[id := waiters[id].(closed := true)];
      phases := phases[id := Ending(decision, closeNow, timedOut)];
      if closeNow {
        claims := claims[id := ByRequest];
      }
    }

    /** Fails, changing nothing, when the approval is not pending any more. */
    method Resolve(session: Id, id: Id, decision: Decision) returns (pending: bool)
      requires Valid()
      modifies this
      ensures Valid() && View() == Resolved(old(View()), session, id, decision)
      ensures pending <==> Open(old(View()), id) && old(waiters)[id].session == session
    {
      if id !in registered || waiters[id].session != session || waiters[id].closed {
        return false;
      }
      waiters := waiters[id := waiters[id].(decision := Some(decision), closed := true)];
      threads := threads[next := Recording(id, decision)];
      claims := claims[id := ByThread(next)];
      next := next + 1;
      return true;
    }

    /** Deny and close every open approval of a session. */
    method DenyOpen(session: Id) returns (cancelled: set<Id>)
      requires Valid()
      modifies this`waiters, this`claims
      ensures waiters.Keys == old(waiters).Keys && claims.Keys == old(claims).Keys + cancelled
      ensures cancelled == OpenOf(old(View()), session)
      ensures forall id :: id in waiters ==>
        waiters[id] == if id in cancelled then Denied(old(waiters)[id]) else old(waiters)[id]
      ensures forall id :: id in claims ==> claims[id] == if id in cancelled then ByThread(next) else old(claims)[id]
    {
      cancelled := {};
      var todo := registered;
      while todo != {}
        invariant todo <= registered && waiters.Keys == old(waiters).Keys && claims.Keys == old(claims).Keys + cancelled
        invariant cancelled ==
          set id | id in registered - todo && !old(waiters)[id].closed && old(waiters)[id].session == session
        invariant forall id :: id in waiters ==>
          waiters[id] == if id in cancelled then Denied(old(waiters)[id]) else old(waiters)[id]
        invariant forall id :: id in claims ==>
          claims[id] == if id in cancelled then ByThread(next) else old(claims)[id]
        decreases todo
      {
        var id :| id in todo;
        todo := todo - {id};
        if waiters[id].session == session && !waiters[id].closed {
          waiters := waiters[id := Denied(waiters[id])];
          claims := claims[id := ByThread(next)];
          cancelled := cancelled + {id};
        }
      }
    }

    method CancelSession(session: Id) returns (cancelled: set<Id>)
      requires Valid()
      modifies this
      ensures Valid() && View() == Cancelled(old(View()), session)
      ensures cancelled == OpenOf(old(View()), session)
    {
      cancelled := DenyOpen(session);
      threads := threads[next := Cancelling(cancelled, None)];
      next := next + 1;
      assert waiters == Cancelled(old(View()), session).waiters;
      assert claims == Cancelled(old(View()), session).claims;
    }
  }
}
