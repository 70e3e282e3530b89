/** Runs of the control plane: the plane together with what has happened so far.

    `used` holds every id and token minted so far; minting picks a value outside it.
    `journal` records, for each Task Run, the changes made to it, in order;
    `windows` the claim windows of each command; `uses` and `limits` how often
    each grant has been used and how often it may be. */
module ControlHistory {
  import opened Common
  import opened RunState
  import opened ControlModel

  datatype Change =
    | Created(run: Run)
    | Leased(lease: Id, until: Time)
    | Applied(event: Event, at: Time)
    | Expired(at: Time, mode: ResumeMode)
    | Recovered(target: Id, at: Time)
    | StatusSet(status: Status, error: Option<string>, at: Time)
    | Moved(computer: Id)

  datatype Window = Window(from: Time, until: Time)

  datatype World = World(
    plane: Plane,
    used: set<Id>,
    journal: map<Id, seq<Change>>,
    windows: map<Id, seq<Window>>,
    uses: map<Id, nat>,
    limits: map<Id, nat>)

  function Minted(op: Op): set<Id> {
    match op
    case Create(r, _, _) => {r}
    case Continue(r, _, _, _) => {r}
    case Acquire(_, l, _, _) => {l}
    case Queue(_, c, _, _) => {c}
    case IssueGrant(_, g, _, _, _, _, _) => {g}
    case ListForRevoke(_, v) => {v}
    case _ => {}
  }

  predicate Enabled(w: World, op: Op) {
    Minted(op) !! w.used && (w.plane.ack.Some? ==> !TakesLock(op))
  }

  // ---------------------------------------------------------------- the journal of one run

  function Lapse(run: Run, now: Time, mode: ResumeMode): seq<Change> {
    if ExpireLease(run, now, mode) == run then [] else [Expired(now, mode)]
  }

  /** What `op` does to the existing run `id`. */
  function Changes(p: Plane, op: Op, id: Id): seq<Change>
    requires id in p.runs
  {
    var run := p.runs[id];
    match op
    case Expire(restorable) => Lapse(run, p.now, ModeFor(id, restorable))
    case Acquire(c, l, pick, restorable) =>
      if c !in p.computers || c in p.revokedComputers then []
      else
        Lapse(run, p.now, ModeFor(id, restorable)) +
        if pick == Some(id) && Oldest(ExpireLeases(p, restorable).runs, c, id)
        then [Leased(l, p.now + LEASE_DURATION)] else []
    case Deliver(e, land) =>
      if e.runId == id && AcceptEvent(p, e, land).Ok? && !IsRedelivery(run, e) then [Applied(e, p.now)] else []
    case Reassign(r, c, eligible) => if r == id && eligible && run.status == Queued then [Moved(c)] else []
    case Recover(r, c, eligible) =>
      if r == id && eligible && RecoverRun(run, c, p.now).Ok? then [Recovered(c, p.now)] else []
    case SetStatus(r, s, error) =>
      if r == id && TransitionRun(run, s, error, p.now).Ok? then [StatusSet(s, error, p.now)] else []
    case _ => []
  }

  function Redo(run: Option<Run>, c: Change): Option<Run> {
    if c.Created? then Some(c.run)
    else if run == None then None
    else
      match c
      case Leased(lease, until) => Some(ClaimRun(run.value, lease, until))
      case Applied(e, at) =>
        (match ApplyEvent(run.value.(leaseExpiresAt := Some(at + LEASE_DURATION)), e.kind, at)
         case Ok(applied) => Some(applied.(lastEventSeq := e.seqNo, lastEventId := Some(e.id)))
         case Err(_) => None)
      case Expired(at, mode) => Some(ExpireLease(run.value, at, mode))
      case Recovered(target, at) =>
        var r := RecoverRun(run.value, target, at);
        if r.Ok? then Some(r.value) else None
      case StatusSet(status, error, at) =>
        var r := TransitionRun(run.value, status, error, at);
        if r.Ok? then Some(r.value) else None
      case Moved(computer) => Some(run.value.(computerId := computer))
  }

  /** The guard under which the code makes this change to `run` at `now`. */
  predicate Legal(run: Run, c: Change, now: Time, minted: set<Id>) {
    match c
    case Created(_) => false
    case Leased(lease, _) => lease in minted && run.status in {Queued, Recovering}
    case Applied(e, at) =>
      && at == now
      && Fenced(run, e.computerId, e.leaseId, e.epoch, now)
      && run.lastEventSeq < e.seqNo
    case Expired(at, _) =>
      at == now && run.leaseExpiresAt.Some? && run.leaseExpiresAt.value < now && RunState.Leased(run.status)
    case Recovered(_, at) => at == now
    case StatusSet(_, _, at) => at == now
    case Moved(_) => run.status == Queued
  }

  /** `after` is `run` with these changes made in order, each one legal when it was made. */
  predicate Follows(run: Run, changes: seq<Change>, after: Run, now: Time, minted: set<Id>)
    decreases |changes|
  {
    if changes == [] then after == run
    else
      var next := Redo(Some(run), changes[0]);
      && Legal(run, changes[0], now, minted)
      && next.Some?
      && Follows(next.value, changes[1..], after, now, minted)
  }

  /** The run its journal describes: the fold of the changes, oldest first. */
  function Replay(changes: seq<Change>): Option<Run> {
    if changes == [] then None
    else Redo(Replay(changes[..|changes| - 1]), changes[|changes| - 1])
  }

  // ---------------------------------------------------------------- steps

  function Entry(m: map<Id, seq<Change>>, id: Id): seq<Change> {
    if id in m then m[id] else []
  }

  function NextJournal(w: World, op: Op): map<Id, seq<Change>> {
    var after := Step(w.plane, op).runs;
    map id | id in w.journal.Keys + after.Keys ::
      if id in w.plane.runs then Entry(w.journal, id) + Changes(w.plane, op, id)
      else if id in after then [Created(after[id])]
      else Entry(w.journal, id)
  }

  function WindowsOf(m: map<Id, seq<Window>>, id: Id): seq<Window> {
    if id in m then m[id] else []
  }

  /** A command claimed by this very step. */
  predicate ClaimedBy(p: Plane, op: Op, id: Id) {
    && id in p.commands
    && op.Claim?
    && ClaimCommands(p, op.run, op.computer, op.lease, op.epoch).Ok?
    && Deliverable(p.commands[id], op.run, p.runs[op.run].epoch, p.now)
  }

  function NextWindows(w: World, op: Op): map<Id, seq<Window>> {
    map id | id in w.windows.Keys + w.plane.commands.Keys ::
      WindowsOf(w.windows, id) +
      if ClaimedBy(w.plane, op, id) then [Window(w.plane.now, w.plane.now + CLAIM_DURATION)] else []
  }

  function UsesOf(m: map<Id, nat>, id: Id): nat {
    if id in m then m[id] else 0
  }

  predicate Authorizes(p: Plane, op: Op) {
    op.Use? && Authorize(p, op.grant, op.token, op.action, op.requested, op.onComputer).Ok?
  }

  function NextUses(w: World, op: Op): map<Id, nat> {
    if Authorizes(w.plane, op) then w.uses[op.grant := UsesOf(w.uses, op.grant) + 1] else w.uses
  }

  predicate Issues(p: Plane, op: Op) {
    op.IssueGrant? && Issue(p, op.run, op.grant, op.token, op.actions, op.constraints, op.maxUses, op.ttl).Ok?
  }

  /** The use limit each grant was issued with. */
  function NextLimits(w: World, op: Op): map<Id, nat> {
    if Issues(w.plane, op) then w.limits[op.grant := op.maxUses] else w.limits
  }

  function Next(w: World, op: Op): World {
    World(Step(w.plane, op), w.used + Minted(op),
          NextJournal(w, op), NextWindows(w, op), NextUses(w, op), NextLimits(w, op))
  }

  /** A run of the system: any operations in any order, each minting ids never seen before, and none
      that needs the lock while an acknowledgement holds it. */
  predicate Possible(w: World, ops: seq<Op>)
    decreases |ops|
  {
    ops != [] ==> Enabled(w, ops[0]) && Possible(Next(w, ops[0]), ops[1..])
  }

  function After(w: World, ops: seq<Op>): World
    decreases |ops|
  {
    if ops == [] then w else After(Next(w, ops[0]), ops[1..])
  }

  const START := World(Plane(0, {}, {}, map[], map[], map[], map[], None), {}, map[], map[], map[], map[])
}
