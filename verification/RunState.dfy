/** Task Runs and the one transition table every status change goes through
    (cowork/coding/run_state.py, cowork/coding/control_models.py). */
module RunState {
  import opened Common

  datatype Status =
    | Queued | Preparing | Ready | Running | AwaitingApproval
    | Completed | Cancelled | Interrupted | Failed | Recovering

  datatype ResumeMode = Prepare | Restore | Recreate

  datatype Run = Run(
    taskId: Id,
    computerId: Id,
    status: Status,
    epoch: nat,
    leaseId: Option<Id>,
    leaseExpiresAt: Option<Time>,
    lastEventSeq: nat,
    lastEventId: Option<Id>,
    checkpoint: string,
    resumeMode: ResumeMode,
    recoveryCount: nat,
    lastError: Option<string>,
    createdAt: Time,
    startedAt: Option<Time>,
    finishedAt: Option<Time>)

  /** Why an operation was refused; a refused operation writes nothing. */
  datatype Error = NotFound | Stale | BadTransition | BadStatus | EffectFailed | Conflict | Unauthorized | NoComputer

  predicate Terminal(s: Status) {
    s in {Completed, Cancelled, Failed}
  }

  /** The statuses whose lapsed lease is taken away. */
  predicate Leased(s: Status) {
    s in {Preparing, Ready, Running, AwaitingApproval}
  }

  function Allowed(s: Status): set<Status> {
    match s
    case Queued => {Preparing, Cancelled, Failed}
    case Preparing => {Ready, Cancelled, Failed, Interrupted, Recovering}
    case Ready => {Running, Completed, Cancelled, Failed, Recovering}
    case Running => {AwaitingApproval, Completed, Ready, Cancelled, Interrupted, Failed, Recovering}
    case AwaitingApproval => {Running, Ready, Completed, Cancelled, Interrupted, Failed, Recovering}
    case Interrupted => {Recovering, Cancelled, Failed}
    case Recovering => {Preparing, Ready, Running, Cancelled, Failed}
    case Completed => {}
    case Cancelled => {}
    case Failed => {Recovering}
  }

  function TransitionRun(run: Run, target: Status, error: Option<string>, now: Time): Result<Run, Error> {
    if target == run.status then
      Ok(run)
    else if target !in Allowed(run.status) then
      Err(BadTransition)
    else
      var moved := run.(
        status := target,
        lastError := error,
        startedAt := if target == Running && run.startedAt == None then Some(now) else run.startedAt);
      Ok(if Terminal(target)
         then moved.(finishedAt := Some(now), leaseId := None, leaseExpiresAt := None)
         else moved)
  }
}
