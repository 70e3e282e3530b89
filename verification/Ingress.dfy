/** One organisation's streaming ingress across replicas: the Redis lease with its
    WATCH, GET and EXEC as separate steps, the renewal loops, start and stop. A replica
    is one manager under its own owner id: one that crashes is gone, and a server that
    boots is a new one under an id never seen before. */
module Ingress {
  import opened Common

  const LEASE_TTL: Time := 45_000

  datatype Lease = Lease(owner: Id, expires: Time)

  /** How far a compare-and-swap has come: the version it watched, and that it saw its own name. */
  datatype Call = Begun | Watching(version: nat) | Checked(version: nat)

  /** A renewal loop between two sleeps renews for the task it looked up, or gives the lease up. */
  datatype Loop = Sleeping | Renewing(task: nat, call: Call) | Releasing(call: Call)

  /** Start and stop of one key follow one another in a replica. */
  datatype Control = Idle | Reacquiring(call: Call) | Acquired(until: Time) | Stopping(call: Call)

  /** `live` are the ingress tasks that run, `tracked` the one the manager knows. */
  datatype Replica = Replica(
    control: Control, tracked: Option<nat>, live: set<nat>,
    loops: map<nat, Loop>, current: Option<nat>, until: Time, next: nat)

  datatype State = State(now: Time, lease: Option<Lease>, version: nat, replicas: map<Id, Replica>, seen: set<Id>)

  datatype Who = Starter | Stopper | LoopOf(loop: nat)

  datatype Op =
    | Tick(to: Time)
    | SetNx(r: Id, answered: bool)
    | Watch(r: Id, who: Who)
    | Get(r: Id, who: Who)
    | Exec(r: Id, who: Who, answered: bool)
    | Fail(r: Id, who: Who)
    | Begin(r: Id)
    | Die(r: Id, task: nat)
    | Wake(r: Id, loop: nat)
    | Stop(r: Id)
    | Crash(r: Id)
    | Boot(r: Id)

  const FRESH := Replica(Idle, None, {}, map[], None, 0, 0)

  predicate Held(s: State) {
    s.lease.Some? && s.now < s.lease.value.expires
  }

  function CallOf(x: Replica, who: Who): Option<Call> {
    match who
    case Starter => if x.control.Reacquiring? then Some(x.control.call) else None
    case Stopper => if x.control.Stopping? then Some(x.control.call) else None
    case LoopOf(l) =>
      if l in x.loops && !x.loops[l].Sleeping? then Some(x.loops[l].call) else None
  }

  predicate Releases(x: Replica, who: Who)
    requires CallOf(x, who).Some?
  {
    who.Stopper? || (who.LoopOf? && x.loops[who.loop].Releasing?)
  }

  function WithCall(x: Replica, who: Who, call: Call): Replica
    requires CallOf(x, who).Some?
  {
    match who
    case Starter => x.(control := Reacquiring(call))
    case Stopper => x.(control := Stopping(call))
    case LoopOf(l) =>
      x.(loops := x.loops[l := if x.loops[l].Renewing? then Renewing(x.loops[l].task, call) else Releasing(call)])
  }

  /** The call returns. A renewal that was refused or failed stops the task it was for. */
  function Returned(x: Replica, who: Who, ok: bool, until: Time): Replica
    requires CallOf(x, who).Some?
  {
    match who
    case Starter => x.(control := if ok then Acquired(until) else Idle)
    case Stopper => x.(control := Idle)
    case LoopOf(l) =>
      if x.loops[l].Releasing? then x.(loops := x.loops - {l})
      else if ok then x.(loops := x.loops[l := Sleeping], until := until)
      else x.(loops := x.loops - {l}, tracked := None, live := x.live - {x.loops[l].task}, current := None)
  }

  /** A running or about-to-run task, and until when its lease is known to last. */
  predicate Claims(x: Replica) {
    x.live != {} || x.control.Acquired?
  }

  function ClaimedUntil(x: Replica): Time {
    if x.control.Acquired? then x.control.until else x.until
  }

  predicate Enabled(s: State, op: Op) {
    if op.Tick? then
      // every renewal that keeps a task running finishes within the lease it extends
      s.now <= op.to && forall r :: r in s.replicas && Claims(s.replicas[r]) ==> op.to < ClaimedUntil(s.replicas[r])
    else if op.Boot? then
      op.r !in s.seen
    else
      op.r in s.replicas &&
      var x := s.replicas[op.r];
      match op
      case SetNx(_, _) => x.control.Idle? && (x.tracked.Some? ==> x.tracked.value !in x.live)
      case Watch(_, who) => CallOf(x, who) == Some(Begun)
      case Get(_, who) => CallOf(x, who).Some? && CallOf(x, who).value.Watching?
      case Exec(_, who, _) => CallOf(x, who).Some? && CallOf(x, who).value.Checked?
      case Fail(_, who) => CallOf(x, who).Some?
      case Begin(_) => x.control.Acquired?
      case Die(_, t) => t in x.live
      case Wake(_, l) => l in x.loops && x.loops[l].Sleeping?
      case Stop(_) => x.control.Idle?
      case Crash(_) => true
  }

  function Put(s: State, r: Id, x: Replica): State {
    s.(replicas := s.replicas[r := x])
  }

  /** EXEC: nothing if the key changed since WATCH; otherwise the delete or the new expiry. */
  function ExecStep(s: State, r: Id, who: Who, answered: bool): State
    requires r in s.replicas && CallOf(s.replicas[r], who).Some? && CallOf(s.replicas[r], who).value.Checked?
  {
    var x := s.replicas[r];
    if CallOf(x, who).value.version != s.version then Put(s, r, Returned(x, who, false, s.now))
    else if Releases(x, who) then
      Put(s, r, Returned(x, who, answered, s.now)).(lease := None, version := s.version + 1)
    else if Held(s) then
      Put(s, r, Returned(x, who, answered, s.now + LEASE_TTL))
        .(lease := Some(s.lease.value.(expires := s.now + LEASE_TTL)), version := s.version + 1)
    else Put(s, r, Returned(x, who, false, s.now))
  }

  /** A renewal loop wakes, looks its task up and renews for it, or gives the lease up. */
  function Woken(x: Replica, l: nat): Replica {
    if x.tracked.Some? && x.tracked.value in x.live then x.(loops := x.loops[l := Renewing(x.tracked.value, Begun)])
    else x.(loops := x.loops[l := Releasing(Begun)], current := None)
  }

  /** Stop cancels the current renewal loop and the task, and releases only if there was a task. */
  function Stopped(x: Replica): Replica {
    var y := if x.current.Some? then x.(loops := x.loops - {x.current.value}, current := None) else x;
    if y.tracked == None then y
    else y.(tracked := None, live := y.live - {y.tracked.value}, control := Stopping(Begun))
  }

  function Started(x: Replica): Replica
    requires x.control.Acquired?
  {
    x.(control := Idle, tracked := Some(x.next), live := x.live + {x.next},
       loops := x.loops[x.next := Sleeping], current := Some(x.next), until := x.control.until, next := x.next + 1)
  }

  function Step(s: State, op: Op): State
    requires Enabled(s, op)
  {
    if op.Tick? then s.(now := op.to)
    else if op.Boot? then Put(s, op.r, FRESH).(seen := s.seen + {op.r})
    else
    var x := s.replicas[op.r];
    match op
    case SetNx(r, answered) =>
      if Held(s) then Put(s, r, x.(control := Reacquiring(Begun)))
      else Put(s, r, x.(control := if answered then Acquired(s.now + LEASE_TTL) else Idle))
             .(lease := Some(Lease(r, s.now + LEASE_TTL)), version := s.version + 1)
    case Watch(r, who) => Put(s, r, WithCall(x, who, Watching(s.version)))
    case Get(r, who) =>
      if Held(s) && s.lease.value.owner == r then Put(s, r, WithCall(x, who, Checked(CallOf(x, who).value.version)))
      else Put(s, r, Returned(x, who, false, s.now))
    case Exec(r, who, answered) => ExecStep(s, r, who, answered)
    case Fail(r, who) => Put(s, r, Returned(x, who, false, s.now))
    case Begin(r) => Put(s, r, Started(x))
    case Die(r, t) => Put(s, r, x.(live := x.live - {t}))
    case Wake(r, l) => Put(s, r, Woken(x, l))
    case Stop(r) => Put(s, r, Stopped(x))
    case Crash(r) => s.(replicas := s.replicas - {r})
  }

  /** A release that can still delete the lease: it has not watched the key yet, or the key is
      what it watched. */
  predicate Current(s: State, call: Call) {
    call.Begun? || call.version == s.version
  }

  /** No renewal loop of the replica is renewing for an earlier task, and none is about to release the lease. */
  predicate Settled(s: State, r: Id)
    requires r in s.replicas
  {
    forall l :: l in s.replicas[r].loops ==>
      && !s.replicas[r].loops[l].Renewing?
      && !(s.replicas[r].loops[l].Releasing? && Current(s, s.replicas[r].loops[l].call))
  }

  /** No other replica runs. */
  predicate Alone(s: State, r: Id) {
    forall c :: c in s.replicas && c != r ==> s.replicas[c].live == {}
  }

  /** A replica's task may begin: the lease in force is its own and its loops are settled; or the lease
      in force belongs to a replica that is gone, which nobody can take over, and no other replica runs. */
  predicate SafeBegin(s: State, r: Id)
    requires r in s.replicas
  {
    && Held(s)
    && if s.lease.value.owner == r then Settled(s, r) else s.lease.value.owner !in s.replicas && Alone(s, r)
  }

  ghost predicate Possible(s: State, ops: seq<Op>)
    decreases |ops|
  {
    ops == [] || (Enabled(s, ops[0]) && Possible(Step(s, ops[0]), ops[1..]))
  }

  ghost function After(s: State, ops: seq<Op>): State
    requires Possible(s, ops)
    decreases |ops|
  {
    if ops == [] then s else After(Step(s, ops[0]), ops[1..])
  }

  /** Every task begins safely. */
  ghost predicate BeginsSafely(s: State, ops: seq<Op>)
    requires Possible(s, ops)
    decreases |ops|
  {
    ops == [] || ((ops[0].Begin? ==> SafeBegin(s, ops[0].r)) && BeginsSafely(Step(s, ops[0]), ops[1..]))
  }

  ghost predicate Start(s: State) {
    s.lease == None && s.replicas.Keys <= s.seen && forall r :: r in s.replicas ==> s.replicas[r] == FRESH
  }
}
