/** The Code control plane as a state machine: remote computers lease Task
    Runs, send sequenced events, claim and acknowledge commands, and spend
    connector grants (cowork/coding/control_service.py, control_store.py,
    run_recovery.py, connector_delegation.py).

    Every operation is one atomic step, as it is under the service's lock, except two
    that other operations can come between: the revocation of a run's grants lists and
    then writes back one by one, and an acknowledgement reads its command and then saves
    it, while the operations that do not take the lock go on.
    Fresh ids and tokens are arguments of the step that mints them. */
module ControlModel {
  import opened Common
  import opened RunState

  const LEASE_DURATION: Time := 30
  const CLAIM_DURATION: Time := 20
  const PROTOCOL := "1.0"

  /** What an event's kind and payload ask of the run. */
  datatype EventKind =
    | Checkpoint(data: string)
    | StatusTo(target: Status)
    | StatusUnknown       // a status event whose text names no status
    | TurnCompleted
    | RuntimeError(message: string)
    | OtherEvent          // no effect on the run: activity, approvals, workspaces, a status event without one

  datatype Event = Event(
    protocol: string, id: Id, runId: Id, computerId: Id, leaseId: Id, epoch: nat, seqNo: nat, kind: EventKind)

  datatype Command = Command(
    runId: Id,
    epoch: nat,
    kind: string,
    key: string,
    claimedAt: Option<Time>,
    claimExpiresAt: Option<Time>,
    deliveryCount: nat,
    ackedAt: Option<Time>,
    result: Option<string>,
    error: Option<string>)

  datatype Grant = Grant(
    runId: Id,
    computerId: Id,
    epoch: nat,
    actions: set<string>,
    constraints: map<string, string>,
    token: Id,
    expiresAt: Time,
    maxUses: nat,
    useCount: nat,
    lastUsedAt: Option<Time>,
    revokedAt: Option<Time>)

  /** A revocation between its list and its last write: the grants it still has to save. */
  datatype Revocation = Revocation(at: Time, pending: map<Id, Grant>)

  /** An acknowledgement that has read and checked its command, under this lease of the command's run
      and in its epoch, and not saved it yet. */
  datatype Ack = Ack(command: Id, lease: Id, read: Command, written: Command)

  datatype Plane = Plane(
    now: Time,
    revokedComputers: set<Id>,
    computers: set<Id>,
    runs: map<Id, Run>,
    commands: map<Id, Command>,
    grants: map<Id, Grant>,
    revocations: map<Id, Revocation>,
    ack: Option<Ack>)

  // ---------------------------------------------------------------- fences

  predicate Owns(run: Run, computerId: Id, epoch: nat) {
    run.computerId == computerId && run.epoch == epoch
  }

  predicate Fenced(run: Run, computerId: Id, leaseId: Id, epoch: nat, now: Time) {
    && Owns(run, computerId, epoch)
    && run.leaseId == Some(leaseId)
    && run.leaseExpiresAt.Some?
    && now <= run.leaseExpiresAt.value
  }

  // ---------------------------------------------------------------- events

  function ApplyEvent(run: Run, kind: EventKind, now: Time): Result<Run, Error> {
    match kind
    case Checkpoint(data) => Ok(run.(checkpoint := data))
    case StatusTo(target) => TransitionRun(run, target, None, now)
    case StatusUnknown => Err(BadStatus)
    case TurnCompleted => TransitionRun(run, Ready, None, now)
    case RuntimeError(message) => TransitionRun(run, Failed, Some(message), now)
    case OtherEvent => Ok(run)
  }

  /** A delivery of the event the run accepted last. */
  predicate IsRedelivery(run: Run, e: Event) {
    e.seqNo == run.lastEventSeq && run.lastEventId == Some(e.id)
  }

  function EventOnRun(run: Run, e: Event, effectsLand: bool, now: Time): Result<Run, Error> {
    if IsRedelivery(run, e) then
      if Owns(run, e.computerId, e.epoch) then Ok(run) else Err(Stale)
    else if !Fenced(run, e.computerId, e.leaseId, e.epoch, now) then
      Err(Stale)
    else if e.seqNo <= run.lastEventSeq then
      Err(Stale)
    else
      var applied :- ApplyEvent(run.(leaseExpiresAt := Some(now + LEASE_DURATION)), e.kind, now);
      if !effectsLand then
        Err(EffectFailed)
      else
        Ok(applied.(lastEventSeq := e.seqNo, lastEventId := Some(e.id)))
  }

  /** `effectsLand` says whether the caller's side effects ran; they share the run's write. */
  function AcceptEvent(p: Plane, e: Event, effectsLand: bool): Result<Plane, Error> {
    if e.protocol != PROTOCOL then
      Err(Stale)
    else if e.runId !in p.runs then
      Err(NotFound)
    else
      var run :- EventOnRun(p.runs[e.runId], e, effectsLand, p.now);
      Ok(p.(runs := p.runs[e.runId := run]))
  }

  // ---------------------------------------------------------------- leases

  function ExpireLease(run: Run, now: Time, mode: ResumeMode): Run {
    if run.leaseExpiresAt == None || run.leaseExpiresAt.value >= now || !Leased(run.status) then
      run
    else
      run.(leaseId := None,
           leaseExpiresAt := None,
           epoch := run.epoch + 1,
           lastEventSeq := 0,
           lastEventId := None,
           checkpoint := "",
           resumeMode := mode,
           recoveryCount := run.recoveryCount + 1,
           status := Recovering,
           lastError := Some("The computer stopped responding. The task can be resumed safely."))
  }

  function ModeFor(id: Id, restorable: set<Id>): ResumeMode {
    if id in restorable then Restore else Prepare
  }

  /** `restorable` are the runs whose workspaces are all ready with a path. */
  function ExpireLeases(p: Plane, restorable: set<Id>): Plane {
    p.(runs := map id | id in p.runs :: ExpireLease(p.runs[id], p.now, ModeFor(id, restorable)))
  }

  predicate Claimable(run: Run, computerId: Id) {
    run.computerId == computerId && run.status in {Queued, Recovering}
  }

  /** The oldest claimable run of this computer; ties go either way. */
  predicate Oldest(runs: map<Id, Run>, computerId: Id, pick: Id) {
    && pick in runs
    && Claimable(runs[pick], computerId)
    && forall id :: id in runs && Claimable(runs[id], computerId) ==> runs[pick].createdAt <= runs[id].createdAt
  }

  function ClaimRun(run: Run, leaseId: Id, expiresAt: Time): Run {
    run.(leaseId := Some(leaseId), leaseExpiresAt := Some(expiresAt), status := Preparing, lastError := None)
  }

  /** `pick` is the run chosen among the oldest claimable ones, if any is left. */
  function AcquireLease(
    p: Plane, computerId: Id, leaseId: Id, pick: Option<Id>, restorable: set<Id>): Result<Plane, Error>
  {
    if computerId !in p.computers then
      Err(NotFound)
    else if computerId in p.revokedComputers then
      Err(Unauthorized)
    else
      var expired := ExpireLeases(p, restorable);
      if pick.Some? && Oldest(expired.runs, computerId, pick.value) then
        var claimed := ClaimRun(expired.runs[pick.value], leaseId, p.now + LEASE_DURATION);
        Ok(expired.(runs := expired.runs[pick.value := claimed]))
      else
        Ok(expired)
  }

  // ---------------------------------------------------------------- other run writes

  function RecoverRun(run: Run, target: Id, now: Time): Result<Run, Error> {
    TransitionRun(
      run.(computerId := target,
           epoch := run.epoch + 1,
           leaseId := None,
           leaseExpiresAt := None,
           lastEventSeq := 0,
           lastEventId := None,
           checkpoint := "",
           resumeMode := if target != run.computerId then Recreate else Restore,
           recoveryCount := run.recoveryCount + 1),
      Recovering, None, now)
  }

  function NewRun(taskId: Id, computerId: Id, status: Status, epoch: nat, now: Time): Run {
    Run(taskId, computerId, status, epoch, None, None, 0, None, "", Prepare, 0, None, now, None, None)
  }

  // ---------------------------------------------------------------- commands

  predicate SameKey(c: Command, runId: Id, epoch: nat, key: string) {
    c.runId == runId && c.epoch == epoch && c.key == key
  }

  predicate KeyTaken(commands: map<Id, Command>, runId: Id, epoch: nat, key: string) {
    key != "" && exists id :: id in commands && SameKey(commands[id], runId, epoch, key)
  }

  function NewCommand(runId: Id, epoch: nat, kind: string, key: string): Command {
    Command(runId, epoch, kind, key, None, None, 0, None, None, None)
  }

  function QueueCommand(p: Plane, runId: Id, commandId: Id, kind: string, key: string): Result<Plane, Error> {
    if runId !in p.runs then
      Err(NotFound)
    else if KeyTaken(p.commands, runId, p.runs[runId].epoch, key) then
      Ok(p)
    else
      Ok(p.(commands := p.commands[commandId := NewCommand(runId, p.runs[runId].epoch, kind, key)]))
  }

  predicate Deliverable(c: Command, runId: Id, epoch: nat, now: Time) {
    && c.runId == runId
    && c.ackedAt == None
    && c.epoch == epoch
    && (c.claimExpiresAt == None || c.claimExpiresAt.value <= now)
  }

  function ClaimCommand(c: Command, now: Time): Command {
    c.(claimedAt := Some(now), claimExpiresAt := Some(now + CLAIM_DURATION), deliveryCount := c.deliveryCount + 1)
  }

  function ClaimEach(commands: map<Id, Command>, runId: Id, epoch: nat, now: Time): map<Id, Command> {
    map id | id in commands ::
      if Deliverable(commands[id], runId, epoch, now) then ClaimCommand(commands[id], now) else commands[id]
  }

  function ClaimCommands(p: Plane, runId: Id, computerId: Id, leaseId: Id, epoch: nat): Result<Plane, Error> {
    if runId !in p.runs then
      Err(NotFound)
    else if !Fenced(p.runs[runId], computerId, leaseId, epoch, p.now) then
      Err(Stale)
    else
      Ok(p.(commands := ClaimEach(p.commands, runId, p.runs[runId].epoch, p.now)))
  }

  function Acked(c: Command, now: Time, result: Option<string>, error: Option<string>): Command {
    c.(ackedAt := Some(now), claimExpiresAt := None, result := result, error := error)
  }

  /** Read the command under the run's fence; only a first acknowledgement will be saved. */
  function ReadAck(
    p: Plane, runId: Id, commandId: Id, computerId: Id, leaseId: Id, epoch: nat,
    result: Option<string>, error: Option<string>): Result<Plane, Error>
  {
    if runId !in p.runs then
      Err(NotFound)
    else if !Fenced(p.runs[runId], computerId, leaseId, epoch, p.now) then
      Err(Stale)
    else if commandId !in p.commands || p.commands[commandId].runId != runId then
      Err(NotFound)
    else if p.commands[commandId].epoch != p.runs[runId].epoch then
      Err(Stale)
    else
      var c := p.commands[commandId];
      Ok(if c.ackedAt == None then p.(ack := Some(Ack(commandId, leaseId, c, Acked(c, p.now, result, error)))) else p)
  }

  /** Save the command as it was read, acknowledged, whatever became of it since. */
  function SaveAck(p: Plane): Plane {
    if p.ack.Some? then p.(commands := p.commands[p.ack.value.command := p.ack.value.written], ack := None) else p
  }

  // ---------------------------------------------------------------- grants

  /** The constraint names an action checks first; any other action checks all of them. */
  function ActionNames(action: string, all: set<string>): set<string> {
    if action == "read_source" then {"url"}
    else if action == "pull_request_status" then {"target_url"}
    else if action == "search_work" then {"repository"}
    else all
  }

  function RequiredNames(g: Grant, action: string): set<string> {
    var named := ActionNames(action, g.constraints.Keys) * g.constraints.Keys;
    if named == {} then g.constraints.Keys else named
  }

  predicate InScope(g: Grant, action: string, requested: map<string, string>) {
    forall name :: name in RequiredNames(g, action) ==>
      name in requested && name in g.constraints && requested[name] == g.constraints[name]
  }

  predicate Valid(
    g: Grant, run: Run, token: Id, action: string, requested: map<string, string>, computerId: Option<Id>, now: Time)
  {
    && g.revokedAt == None
    && now < g.expiresAt
    && g.epoch == run.epoch
    && !Terminal(run.status)
    && g.computerId == run.computerId
    && (computerId.Some? ==> g.computerId == computerId.value)
    && g.token == token
    && action in g.actions
    && InScope(g, action, requested)
    && g.useCount < g.maxUses
  }

  function Issue(
    p: Plane, runId: Id, grantId: Id, token: Id, actions: set<string>, constraints: map<string, string>,
    maxUses: nat, ttl: nat): Result<Plane, Error>
  {
    if runId !in p.runs then
      Err(NotFound)
    else if Terminal(p.runs[runId].status) then
      Err(Conflict)
    else
      var run := p.runs[runId];
      Ok(p.(grants := p.grants[grantId :=
        Grant(runId, run.computerId, run.epoch, actions, constraints, token, p.now + ttl, maxUses, 0, None, None)]))
  }

  /** Read, check and count one use as a single store operation (update_grant). */
  function Authorize(
    p: Plane, grantId: Id, token: Id, action: string, requested: map<string, string>,
    computerId: Option<Id>): Result<Plane, Error>
  {
    if grantId !in p.grants || p.grants[grantId].runId !in p.runs then
      Err(NotFound)
    else
      var g := p.grants[grantId];
      if Valid(g, p.runs[g.runId], token, action, requested, computerId, p.now) then
        Ok(p.(grants := p.grants[grantId := g.(useCount := g.useCount + 1, lastUsedAt := Some(p.now))]))
      else
        Err(Unauthorized)
  }

  /** The list a revocation works from: copies, which later writes do not update. */
  function Unrevoked(grants: map<Id, Grant>, runId: Id): map<Id, Grant> {
    grants - set id | id in grants && !(grants[id].runId == runId && grants[id].revokedAt == None)
  }

  function RevokeList(p: Plane, runId: Id, revocationId: Id): Plane {
    p.(revocations := p.revocations[revocationId := Revocation(p.now, Unrevoked(p.grants, runId))])
  }

  /** Write one listed copy back, stamped as revoked. */
  function RevokeSave(p: Plane, revocationId: Id, grantId: Id): Plane {
    if revocationId in p.revocations && grantId in p.revocations[revocationId].pending then
      var r := p.revocations[revocationId];
      p.(grants := p.grants[grantId := r.pending[grantId].(revokedAt := Some(r.at))],
         revocations := p.revocations[revocationId := r.(pending := r.pending - {grantId})])
    else
      p
  }

  // ---------------------------------------------------------------- retention

  predicate Prunable(c: Command, before: Time) {
    c.ackedAt.Some? && c.ackedAt.value < before
  }

  predicate Retired(g: Grant, before: Time) {
    (if g.revokedAt.Some? then g.revokedAt.value else g.expiresAt) < before
  }

  function Prune(p: Plane, before: Time): Plane {
    p.(commands := p.commands - (set id | id in p.commands && Prunable(p.commands[id], before)),
       grants := p.grants - (set id | id in p.grants && Retired(p.grants[id], before)))
  }

  function DeleteTask(p: Plane, taskId: Id): Plane {
    var gone := set id | id in p.runs && p.runs[id].taskId == taskId;
    p.(runs := p.runs - gone,
       commands := p.commands - (set id | id in p.commands && p.commands[id].runId in gone),
       grants := p.grants - (set id | id in p.grants && p.grants[id].runId in gone))
  }

  // ---------------------------------------------------------------- steps

  datatype Op =
    | Tick(elapsed: nat)
    | Register(computer: Id)
    | RevokeComputer(computer: Id)
    | Create(run: Id, task: Id, computer: Id)
    | Continue(run: Id, previous: Id, local: bool, restore: bool)
    | Acquire(computer: Id, lease: Id, pick: Option<Id>, restorable: set<Id>)
    | Expire(restorable: set<Id>)
    | Deliver(event: Event, effectsLand: bool)
    | Reassign(run: Id, computer: Id, eligible: bool)
    | Recover(run: Id, computer: Id, eligible: bool)
    | SetStatus(run: Id, status: Status, error: Option<string>)
    | Queue(run: Id, command: Id, kind: string, key: string)
    | Claim(run: Id, computer: Id, lease: Id, epoch: nat)
    | BeginAck(run: Id, command: Id, computer: Id, lease: Id, epoch: nat, result: Option<string>, error: Option<string>)
    | EndAck
    | IssueGrant(run: Id, grant: Id, token: Id, actions: set<string>, constraints: map<string, string>,
                 maxUses: nat, ttl: nat)
    | Use(grant: Id, token: Id, action: string, requested: map<string, string>, onComputer: Option<Id>)
    | ListForRevoke(run: Id, revocation: Id)
    | SaveRevoked(revocation: Id, grant: Id)
    | PruneBefore(before: Time)
    | Delete(task: Id)

  /** Operations under the service's lock, which an acknowledgement holds between its read and its
      write; retention runs only while the service starts. */
  predicate TakesLock(op: Op) {
    || op.Create? || op.Acquire? || op.Expire? || op.Deliver? || op.Reassign? || op.Recover?
    || op.Queue? || op.Claim? || op.BeginAck? || op.PruneBefore?
  }

  /** The plane after one operation; a refused operation leaves it as it was. */
  function Step(p: Plane, op: Op): Plane {
    match op
    case Tick(elapsed) => p.(now := p.now + elapsed)
    case Register(c) => p.(computers := p.computers + {c})
    case RevokeComputer(c) =>
      if forall id :: id in p.runs && p.runs[id].computerId == c ==> Terminal(p.runs[id].status)
      then p.(revokedComputers := p.revokedComputers + {c}) else p
    case Create(r, t, c) => p.(runs := p.runs[r := NewRun(t, c, Queued, 1, p.now)])
    case Continue(r, prev, local, restore) =>
      if prev in p.runs then
        var last := p.runs[prev];
        var next := NewRun(last.taskId, last.computerId, if local then Ready else Queued, last.epoch + 1, p.now);
        var mode := if restore then Restore else Prepare;
        p.(runs := p.runs[r := next.(recoveryCount := last.recoveryCount, resumeMode := mode)])
      else p
    case Acquire(c, l, pick, restorable) => Committed(p, AcquireLease(p, c, l, pick, restorable))
    case Expire(restorable) => ExpireLeases(p, restorable)
    case Deliver(e, land) => Committed(p, AcceptEvent(p, e, land))
    case Reassign(r, c, eligible) =>
      if eligible && r in p.runs && p.runs[r].status == Queued
      then p.(runs := p.runs[r := p.runs[r].(computerId := c)]) else p
    case Recover(r, c, eligible) =>
      if eligible && r in p.runs && RecoverRun(p.runs[r], c, p.now).Ok?
      then p.(runs := p.runs[r := RecoverRun(p.runs[r], c, p.now).value]) else p
    case SetStatus(r, s, error) =>
      if r in p.runs && TransitionRun(p.runs[r], s, error, p.now).Ok?
      then p.(runs := p.runs[r := TransitionRun(p.runs[r], s, error, p.now).value]) else p
    case Queue(r, c, kind, key) => Committed(p, QueueCommand(p, r, c, kind, key))
    case Claim(r, c, l, e) => Committed(p, ClaimCommands(p, r, c, l, e))
    case BeginAck(r, cmd, c, l, e, result, error) => Committed(p, ReadAck(p, r, cmd, c, l, e, result, error))
    case EndAck => SaveAck(p)
    case IssueGrant(r, g, token, actions, constraints, max, ttl) =>
      Committed(p, Issue(p, r, g, token, actions, constraints, max, ttl))
    case Use(g, token, action, requested, c) => Committed(p, Authorize(p, g, token, action, requested, c))
    case ListForRevoke(r, v) => RevokeList(p, r, v)
    case SaveRevoked(v, g) => RevokeSave(p, v, g)
    case PruneBefore(before) => Prune(p, before)
    case Delete(t) => DeleteTask(p, t)
  }

  function Steps(p: Plane, ops: seq<Op>): Plane {
    if ops == [] then p else Step(Steps(p, ops[..|ops| - 1]), ops[|ops| - 1])
  }

  function Committed(p: Plane, r: Result<Plane, Error>): Plane {
    if r.Ok? then r.value else p
  }
}
