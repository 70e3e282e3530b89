/** The control-plane service as the object it is: records in fields, one method
    per operation, each proved to make exactly its step of the state machine. */
module ControlService {
  import opened Common
  import opened RunState
  import opened ControlModel
  import ControlAuthority
  import ControlEffects

  class Service {
    var now: Time
    var computers: set<Id>
    var revokedComputers: set<Id>
    var runs: map<Id, Run>
    var commands: map<Id, Command>
    var grants: map<Id, Grant>
    ghost var revocations: map<Id, Revocation>

    ghost function View(): Plane
      reads this
    {
      Plane(now, revokedComputers, computers, runs, commands, grants, revocations, None)
    }

    /** A new event that is accepted does to its run what an event of its kind does; any other changes nothing. */
    method Deliver(e: Event, effectsLand: bool) returns (r: Result<Run, Error>)
      modifies this`runs
      ensures View() == Step(old(View()), Op.Deliver(e, effectsLand))
      ensures r.Ok? <==> ControlEffects.Acceptable(old(View()), e, effectsLand)
      ensures r.Ok? ==> e.runId in old(runs) && e.runId in runs && r.value == runs[e.runId]
      ensures runs ==
        if r.Ok? && old(runs)[e.runId].lastEventSeq < e.seqNo
        then old(runs)[e.runId := ControlEffects.WithEvent(old(runs)[e.runId], e, now)] else old(runs)
    {
      ControlEffects.EventAcceptedExactlyWhen(View(), e, effectsLand);
      if ControlEffects.Acceptable(View(), e, effectsLand) && runs[e.runId].lastEventSeq < e.seqNo {
        ControlEffects.EventEffect(View(), e);
      }
      if e.protocol != PROTOCOL {
        return Err(Stale);
      }
      if e.runId !in runs {
        return Err(NotFound);
      }
      var run := runs[e.runId];
      if IsRedelivery(run, e) {
        assert runs[e.runId := run] == runs;
        if Owns(run, e.computerId, e.epoch) {
          return Ok(run);
        }
        return Err(Stale);
      }
      if !Fenced(run, e.computerId, e.leaseId, e.epoch, now) {
        return Err(Stale);
      }
      run := run.(leaseExpiresAt := Some(now + LEASE_DURATION));
      if e.seqNo <= run.lastEventSeq {
        return Err(Stale);
      }
      var applied := ApplyEvent(run, e.kind, now);
      if applied.Err? {
        return Err(applied.error);
      }
      if !effectsLand {
        return Err(EffectFailed);
      }
      run := applied.value.(lastEventSeq := e.seqNo, lastEventId := Some(e.id));
      runs := runs[e.runId := run];
      return Ok(run);
    }

    /** Sweep every run, in any order; a run is read again when its turn comes. */
    method ExpireLeases(restorable: set<Id>)
      modifies this`runs
      ensures View() == Step(old(View()), Op.Expire(restorable))
    {
      ExpireEach(restorable);
      assert runs == ControlModel.ExpireLeases(old(View()), restorable).runs;
    }

    method ExpireOne(id: Id, mode: ResumeMode)
      requires id in runs
      modifies this`runs
      ensures runs == old(runs)[id := ExpireLease(old(runs)[id], now, mode)]
    {
      if runs[id].leaseExpiresAt.Some? && runs[id].leaseExpiresAt.value < now {
        runs := runs[id := ExpireLease(runs[id], now, mode)];
      }
    }

    method ExpireEach(restorable: set<Id>)
      modifies this`runs
      ensures runs.Keys == old(runs).Keys
      ensures forall id :: id in runs ==> runs[id] == ExpireLease(old(runs)[id], now, ModeFor(id, restorable))
    {
      var todo := runs.Keys;
      while todo != {}
        invariant todo <= old(runs).Keys && runs.Keys == old(runs).Keys
        invariant forall id :: id in todo ==> runs[id] == old(runs)[id]
        invariant forall id :: id in runs.Keys - todo ==>
          runs[id] == ExpireLease(old(runs)[id], now, ModeFor(id, restorable))
        decreases todo
      {
        var id :| id in todo;
        todo := todo - {id};
        ExpireOne(id, ModeFor(id, restorable));
      }
    }

    /** The oldest claimable run of a computer, found in one pass. */
    method OldestClaimable(computerId: Id) returns (pick: Option<Id>)
      ensures pick.Some? ==> Oldest(runs, computerId, pick.value)
      ensures pick == None ==> forall id :: id in runs ==> !Claimable(runs[id], computerId)
    {
      pick := None;
      var todo := runs.Keys;
      while todo != {}
        invariant todo <= runs.Keys
        invariant pick.Some? ==> pick.value in runs && Claimable(runs[pick.value], computerId)
        invariant pick.Some? ==> forall id :: id in runs.Keys - todo && Claimable(runs[id], computerId) ==>
          runs[pick.value].createdAt <= runs[id].createdAt
        invariant pick == None ==> forall id :: id in runs.Keys - todo ==> !Claimable(runs[id], computerId)
        decreases todo
      {
        var id :| id in todo;
        todo := todo - {id};
        if Claimable(runs[id], computerId) && (pick == None || runs[id].createdAt < runs[pick.value].createdAt) {
          pick := Some(id);
        }
      }
    }

    method Acquire(computerId: Id, leaseId: Id, restorable: set<Id>) returns (r: Result<Option<Id>, Error>)
      modifies this`runs
      ensures r.Ok? ==> View() == Step(old(View()), Op.Acquire(computerId, leaseId, r.value, restorable))
      ensures r.Ok? && r.value.Some? ==> r.value.value in runs && runs[r.value.value].leaseId == Some(leaseId)
      ensures r.Ok? && r.value == None ==> forall id :: id in runs ==> !Claimable(runs[id], computerId)
      ensures r.Err? ==> unchanged(this)
      ensures r.Err? <==> computerId !in computers || computerId in revokedComputers
    {
      if computerId !in computers {
        return Err(NotFound);
      }
      if computerId in revokedComputers {
        return Err(Unauthorized);
      }
      ExpireLeases(restorable);
      var pick := OldestClaimable(computerId);
      if pick.Some? {
        runs := runs[pick.value := ClaimRun(runs[pick.value], leaseId, now + LEASE_DURATION)];
      }
      return Ok(pick);
    }

    /** A command of this run and epoch with this key, if there is one. */
    method FindKey(runId: Id, epoch: nat, key: string) returns (found: Option<Id>)
      requires key != ""
      ensures found.Some? ==> found.value in commands && SameKey(commands[found.value], runId, epoch, key)
      ensures found == None ==> !KeyTaken(commands, runId, epoch, key)
    {
      var todo := commands.Keys;
      while todo != {}
        invariant todo <= commands.Keys
        invariant forall id :: id in commands.Keys - todo ==> !SameKey(commands[id], runId, epoch, key)
        decreases todo
      {
        var id :| id in todo;
        if SameKey(commands[id], runId, epoch, key) {
          return Some(id);
        }
        todo := todo - {id};
      }
      return None;
    }

    method QueueCommand(runId: Id, freshId: Id, kind: string, key: string) returns (r: Result<Id, Error>)
      modifies this`commands
      ensures View() == Step(old(View()), Op.Queue(runId, freshId, kind, key))
      ensures r.Ok? <==> runId in runs
      ensures r.Ok? ==> r.value in commands && SameKey(commands[r.value], runId, runs[runId].epoch, key)
    {
      if runId !in runs {
        return Err(NotFound);
      }
      if key != "" {
        var found := FindKey(runId, runs[runId].epoch, key);
        if found.Some? {
          return Ok(found.value);
        }
      }
      commands := commands[freshId := NewCommand(runId, runs[runId].epoch, kind, key)];
      return Ok(freshId);
    }

    method ClaimCommands(runId: Id, computerId: Id, leaseId: Id, epoch: nat) returns (r: Result<set<Id>, Error>)
      modifies this`commands
      ensures View() == Step(old(View()), Op.Claim(runId, computerId, leaseId, epoch))
      ensures r.Ok? <==> runId in runs && Fenced(runs[runId], computerId, leaseId, epoch, now)
      ensures r.Ok? ==> r.value == set id | id in old(commands) && Deliverable(old(commands)[id], runId, epoch, now)
    {
      if runId !in runs {
        return Err(NotFound);
      }
      if !Fenced(runs[runId], computerId, leaseId, epoch, now) {
        return Err(Stale);
      }
      var claimed := ClaimDeliverable(runId, epoch);
      return Ok(claimed);
    }

    /** Claim every deliverable command of a run's epoch. */
    method ClaimDeliverable(runId: Id, epoch: nat) returns (claimed: set<Id>)
      modifies this`commands
      ensures commands == ClaimEach(old(commands), runId, epoch, now)
      ensures claimed == set id | id in old(commands) && Deliverable(old(commands)[id], runId, epoch, now)
    {
      claimed := {};
      var todo := commands.Keys;
      while todo != {}
        invariant todo <= old(commands).Keys && commands.Keys == old(commands).Keys
        invariant forall id :: id in todo ==> commands[id] == old(commands)[id]
        invariant forall id :: id in commands.Keys - todo ==>
          commands[id] == (if Deliverable(old(commands)[id], runId, epoch, now)
                           then ClaimCommand(old(commands)[id], now) else old(commands)[id])
        invariant claimed ==
          set id | id in old(commands).Keys - todo && Deliverable(old(commands)[id], runId, epoch, now)
        decreases todo
      {
        var id :| id in todo;
        todo := todo - {id};
        if Deliverable(commands[id], runId, epoch, now) {
          commands := commands[id := ClaimCommand(commands[id], now)];
          claimed := claimed + {id};
        }
      }
    }

    /** An acknowledgement nothing interrupts: the two steps `BeginAck` and `EndAck`. The flag is true
        only for the first acknowledgement of a command. */
    method Acknowledge(runId: Id, commandId: Id, computerId: Id, leaseId: Id, epoch: nat,
                       result: Option<string>, error: Option<string>) returns (r: Result<bool, Error>)
      modifies this`commands
      ensures
        var read := ReadAck(old(View()), runId, commandId, computerId, leaseId, epoch, result, error);
        View() == SaveAck(Committed(old(View()), read))
      ensures r.Ok? ==> commandId in old(commands) && commandId in commands
      ensures r.Ok? ==> r.value == (old(commands)[commandId].ackedAt == None) && commands[commandId].ackedAt.Some?
      ensures r.Ok? && r.value ==> commands[commandId].result == result && commands[commandId].error == error
      ensures r.Err? ==> unchanged(this)
    {
      if runId !in runs {
        return Err(NotFound);
      }
      if !Fenced(runs[runId], computerId, leaseId, epoch, now) {
        return Err(Stale);
      }
      if commandId !in commands || commands[commandId].runId != runId {
        return Err(NotFound);
      }
      if commands[commandId].epoch != runs[runId].epoch {
        return Err(Stale);
      }
      var command := commands[commandId];
      if command.ackedAt == None {
        command := command.(ackedAt := Some(now), claimExpiresAt := None, result := result, error := error);
        commands := commands[commandId := command];
        return Ok(true);
      }
      return Ok(false);
    }

    /** Why a use is refused, if it is. */
    method Refusal(grantId: Id, token: Id, action: string, requested: map<string, string>, computerId: Option<Id>)
      returns (refusal: Option<Error>)
      ensures refusal == None <==>
        ControlAuthority.Admits(View(), Op.Use(grantId, token, action, requested, computerId))
    {
      ControlAuthority.AuthorizesWhatItAdmits(View(), Op.Use(grantId, token, action, requested, computerId));
      if grantId !in grants || grants[grantId].runId !in runs {
        return Some(NotFound);
      }
      if !Valid(grants[grantId], runs[grants[grantId].runId], token, action, requested, computerId, now) {
        return Some(Unauthorized);
      }
      return None;
    }

    /** A use that the stored grant admits is counted and dated; any other is refused. */
    method Authorize(grantId: Id, token: Id, action: string, requested: map<string, string>, computerId: Option<Id>)
      returns (r: Result<Grant, Error>)
      modifies this`grants
      ensures View() == Step(old(View()), Op.Use(grantId, token, action, requested, computerId))
      ensures r.Ok? <==>
        ControlAuthority.Admits(old(View()), Op.Use(grantId, token, action, requested, computerId))
      ensures r.Ok? ==>
        && grantId in old(grants)
        && r.value == old(grants)[grantId].(useCount := old(grants)[grantId].useCount + 1, lastUsedAt := Some(now))
        && grants == old(grants)[grantId := r.value]
      ensures r.Err? ==> unchanged(this)
    {
      ghost var use := Op.Use(grantId, token, action, requested, computerId);
      ControlAuthority.UseIsCounted(View(), use);
      var refusal := Refusal(grantId, token, action, requested, computerId);
      if refusal.Some? {
        return Err(refusal.value);
      }
      var grant := grants[grantId].(useCount := grants[grantId].useCount + 1, lastUsedAt := Some(now));
      grants := grants[grantId := grant];
      return Ok(grant);
    }

    /** Save one listed grant revoked. */
    method SaveRevoked(ghost revocation: Id, id: Id, listed: Grant)
      requires revocation in revocations && revocations[revocation].at == now
      requires id in revocations[revocation].pending && revocations[revocation].pending[id] == listed
      modifies this`grants, this`revocations
      ensures View() == Step(old(View()), Op.SaveRevoked(revocation, id))
      ensures grants == old(grants)[id := listed.(revokedAt := Some(now))]
      ensures revocation in revocations
      ensures revocations[revocation] == Revocation(now, old(revocations)[revocation].pending - {id})
    {
      revocations := revocations[revocation := Revocation(now, revocations[revocation].pending - {id})];
      grants := grants[id := listed.(revokedAt := Some(now))];
    }

    /** The same as one more step of a run of steps. */
    method SaveNext(ghost start: Plane, ghost saves: seq<Op>, ghost revocation: Id, id: Id, listed: Grant)
      requires View() == Steps(start, saves)
      requires revocation in revocations && revocations[revocation].at == now
      requires id in revocations[revocation].pending && revocations[revocation].pending[id] == listed
      modifies this`grants, this`revocations
      ensures View() == Steps(start, saves + [Op.SaveRevoked(revocation, id)])
      ensures grants == old(grants)[id := listed.(revokedAt := Some(now))]
      ensures revocation in revocations
      ensures revocations[revocation] == Revocation(now, old(revocations)[revocation].pending - {id})
    {
      OneMoreStep(start, saves, Op.SaveRevoked(revocation, id));
      SaveRevoked(revocation, id, listed);
    }

    /** The grants once those listed and no longer to be saved are saved. */
    ghost predicate SavedBut(before: map<Id, Grant>, listed: map<Id, Grant>, todo: set<Id>)
      reads this
    {
      && grants.Keys == before.Keys
      && forall id :: id in before ==>
        grants[id] == if id in listed && id !in todo then listed[id].(revokedAt := Some(now)) else before[id]
    }

    /** A revocation that has saved all listed grants but `todo`. */
    ghost predicate Saving(before: map<Id, Grant>, revocation: Id, listed: map<Id, Grant>, todo: set<Id>)
      reads this
    {
      && revocation in revocations && revocations[revocation] == Revocation(now, Still(listed, todo))
      && todo <= listed.Keys <= before.Keys && SavedBut(before, listed, todo)
    }

    method SaveListed(ghost start: Plane, ghost saves: seq<Op>, ghost before: map<Id, Grant>, ghost revocation: Id,
                      id: Id, listed: map<Id, Grant>, ghost todo: set<Id>)
      requires View() == Steps(start, saves) && Saving(before, revocation, listed, todo) && id in todo && id in listed
      modifies this`grants, this`revocations
      ensures View() == Steps(start, saves + [Op.SaveRevoked(revocation, id)])
      ensures Saving(before, revocation, listed, todo - {id})
    {
      OneLessListed(listed, todo, id);
      SaveNext(start, saves, revocation, id, listed[id]);
    }

    method SaveEach(ghost revocation: Id, listed: map<Id, Grant>) returns (ghost saves: seq<Op>)
      requires revocation in revocations && revocations[revocation] == Revocation(now, listed)
      requires listed.Keys <= grants.Keys
      modifies this`grants, this`revocations
      ensures View() == Steps(old(View()), saves)
      ensures revocation in revocations && revocations[revocation].pending == map[]
      ensures SavedBut(old(grants), listed, {})
    {
      var todo := listed.Keys;
      saves := [];
      while todo != {}
        invariant View() == Steps(old(View()), saves) && Saving(old(grants), revocation, listed, todo)
        decreases todo
      {
        var id :| id in todo;
        SaveListed(old(View()), saves, old(grants), revocation, id, listed, todo);
        saves := saves + [Op.SaveRevoked(revocation, id)];
        todo := todo - {id};
      }
    }

    /** A revocation nothing interrupts: list the run's grants, then save each one revoked. */
    method RevokeForRun(runId: Id, ghost revocation: Id) returns (ghost saves: seq<Op>)
      modifies this`grants, this`revocations
      ensures View() == Steps(Step(old(View()), Op.ListForRevoke(runId, revocation)), saves)
      ensures revocation in revocations && revocations[revocation].pending == map[]
      ensures SavedBut(old(grants), Unrevoked(old(grants), runId), {})
    {
      var listed := Unrevoked(grants, runId);
      revocations := revocations[revocation := Revocation(now, listed)];
      saves := SaveEach(revocation, listed);
    }
  }

  /** The part of a listing still to be saved. */
  function Still(listed: map<Id, Grant>, todo: set<Id>): map<Id, Grant> {
    listed - (listed.Keys - todo)
  }

  lemma OneLessListed(listed: map<Id, Grant>, todo: set<Id>, id: Id)
    requires id in todo
    ensures Still(listed, todo) - {id} == Still(listed, todo - {id})
    ensures id in listed ==> id in Still(listed, todo) && Still(listed, todo)[id] == listed[id]
  {
  }

  lemma OneMoreStep(p: Plane, ops: seq<Op>, op: Op)
    ensures Steps(p, ops + [op]) == Step(Steps(p, ops), op)
  {
    assert (ops + [op])[..|ops|] == ops;
  }
}
