/** Per-key asynchronous locks with reference-counted cleanup. The guarded sections at
    entry and exit never suspend, so each is one step; between them a task waits for
    its key's lock, may be cancelled, and runs its critical section. */
module KeyedLocks {
  import opened Common

  type Key = string
  type LockId = nat

  datatype Place = Waiting(key: Key, lock: LockId) | Critical(key: Key, lock: LockId)

  /** `owner` says which task has a lock object; `tasks` where each task between entry and exit is. */
  datatype State = State(locks: map<Key, LockId>, refs: map<Key, nat>, made: nat,
                         owner: map<LockId, Id>, tasks: map<Id, Place>)

  datatype Op = Enter(task: Id, key: Key) | Take(task: Id) | Leave(task: Id) | Cancel(task: Id)

  function Count(refs: map<Key, nat>, key: Key): nat {
    if key in refs then refs[key] else 0
  }

  predicate Enabled(s: State, op: Op) {
    match op
    case Enter(t, _) => t !in s.tasks
    case Take(t) => t in s.tasks && s.tasks[t].Waiting? && s.tasks[t].lock !in s.owner
    case Leave(t) => t in s.tasks && s.tasks[t].Critical?
    case Cancel(t) => t in s.tasks && s.tasks[t].Waiting?
  }

  /** The guarded section at entry. */
  function EnterMaps(locks: map<Key, LockId>, refs: map<Key, nat>, made: nat, key: Key)
    : (map<Key, LockId>, map<Key, nat>, nat)
  {
    var counted := refs[key := Count(refs, key) + 1];
    if key in locks then (locks, counted, made) else (locks[key := made], counted, made + 1)
  }

  /** The guarded section at exit: the last task out removes the lock. */
  function ExitMaps(locks: map<Key, LockId>, refs: map<Key, nat>, key: Key): (map<Key, LockId>, map<Key, nat>) {
    if Count(refs, key) <= 1 then (locks - {key}, refs - {key}) else (locks, refs[key := refs[key] - 1])
  }

  function Gone(s: State, t: Id): State
    requires t in s.tasks
  {
    var m := ExitMaps(s.locks, s.refs, s.tasks[t].key);
    s.(locks := m.0, refs := m.1, tasks := s.tasks - {t})
  }

  function Step(s: State, op: Op): State
    requires Enabled(s, op)
  {
    match op
    case Enter(t, key) =>
      var m := EnterMaps(s.locks, s.refs, s.made, key);
      s.(locks := m.0, refs := m.1, made := m.2, tasks := s.tasks[t := Waiting(key, m.0[key])])
    case Take(t) =>
      s.(owner := s.owner[s.tasks[t].lock := t], tasks := s.tasks[t := Critical(s.tasks[t].key, s.tasks[t].lock)])
    case Leave(t) => Gone(s.(owner := s.owner - {s.tasks[t].lock}), t)
    case Cancel(t) => Gone(s, t)
  }

  ghost predicate Possible(s: State, ops: seq<Op>)
    decreases |ops|
  {
    ops == [] || (Enabled(s, ops[0]) && Possible(Step(s, ops[0]), ops[1..]))
  }

  ghost function After(s: State, ops: seq<Op>): State
    requires Possible(s, ops)
    decreases |ops|
  {
    if ops == [] then s else After(Step(s, ops[0]), ops[1..])
  }

  const START := State(map[], map[], 0, map[], map[])

  /** The tasks between entry and exit on a key. */
  function On(s: State, key: Key): set<Id> {
    set t | t in s.tasks && s.tasks[t].key == key
  }

  /** The count of a key is the number of tasks on it, and the maps know a key exactly while it has some. */
  ghost predicate Counted(s: State) {
    && s.locks.Keys == s.refs.Keys
    && (forall k :: Count(s.refs, k) == |On(s, k)|)
    && (forall k :: k in s.refs ==> s.refs[k] > 0)
  }

  /** Tasks on a key have its lock object, no two keys share one, and a task is in its
      critical section exactly if it owns it. */
  ghost predicate Shared(s: State) {
    && (forall t :: t in s.tasks ==> s.tasks[t].key in s.locks && s.tasks[t].lock == s.locks[s.tasks[t].key])
    && (forall j, k :: j in s.locks && k in s.locks && s.locks[j] == s.locks[k] ==> j == k)
    && (forall k :: k in s.locks ==> s.locks[k] < s.made)
    && (forall t :: t in s.tasks && s.tasks[t].Critical? ==>
        s.tasks[t].lock in s.owner && s.owner[s.tasks[t].lock] == t)
    && (forall l :: l in s.owner ==>
        s.owner[l] in s.tasks && s.tasks[s.owner[l]] == Critical(s.tasks[s.owner[l]].key, l))
  }

  /** A step changes the tasks on at most one key, by the task that moves. */
  lemma OnStep(s: State, op: Op, k: Key)
    requires Enabled(s, op)
    ensures
      var r := Step(s, op);
      match op
      case Enter(t, key) => On(r, k) == if k == key then On(s, k) + {t} else On(s, k)
      case Take(_) => On(r, k) == On(s, k)
      case _ => On(r, k) == On(s, k) - {op.task}
  {
  }

  lemma CountAt(s: State, op: Op, k: Key)
    requires Enabled(s, op) && Count(s.refs, k) == |On(s, k)|
    ensures Count(Step(s, op).refs, k) == |On(Step(s, op), k)|
  {
    OnStep(s, op, k);
    if op.Leave? || op.Cancel? {
      assert k == s.tasks[op.task].key <==> op.task in On(s, k);
    }
  }

  lemma CountedStep(s: State, op: Op)
    requires Counted(s) && Shared(s) && Enabled(s, op)
    ensures Counted(Step(s, op))
  {
    forall k ensures Count(Step(s, op).refs, k) == |On(Step(s, op), k)| {
      CountAt(s, op, k);
    }
    if op.Leave? || op.Cancel? {
      assert op.task in On(s, s.tasks[op.task].key);
    }
  }

  lemma SharedStep(s: State, op: Op)
    requires Counted(s) && Shared(s) && Enabled(s, op)
    ensures Shared(Step(s, op))
  {
    match op {
      case Enter(_, _) => SharedEnter(s, op);
      case Take(_) => {}
      case _ => SharedExit(s, op);
    }
  }

  lemma SharedEnter(s: State, op: Op)
    requires Shared(s) && Enabled(s, op) && op.Enter?
    ensures Shared(Step(s, op))
  {
    assert forall t :: t in s.tasks ==> t != op.task;
  }

  lemma SharedExit(s: State, op: Op)
    requires Counted(s) && Shared(s) && Enabled(s, op) && (op.Leave? || op.Cancel?)
    ensures Shared(Step(s, op))
  {
    var r := Step(s, op);
    var key := s.tasks[op.task].key;
    assert r.tasks == s.tasks - {op.task};
    forall t | t in r.tasks ensures r.tasks[t].key in r.locks && r.tasks[t].lock == r.locks[r.tasks[t].key] {
      if s.tasks[t].key == key && Count(s.refs, key) <= 1 {
        OnlyOne(s, key, t, op.task);
      }
    }
  }

  lemma OnlyOne(s: State, key: Key, t: Id, u: Id)
    requires t in On(s, key) && u in On(s, key) && |On(s, key)| <= 1
    ensures t == u
  {
    var rest := On(s, key) - {t};
    assert |rest| == |On(s, key)| - 1;
    assert t != u ==> u in rest;
  }

  lemma {:induction false} Always(s: State, ops: seq<Op>)
    requires Counted(s) && Shared(s) && Possible(s, ops)
    ensures Counted(After(s, ops)) && Shared(After(s, ops))
    decreases |ops|
  {
    if ops != [] {
      CountedStep(s, ops[0]);
      SharedStep(s, ops[0]);
      Always(Step(s, ops[0]), ops[1..]);
    }
  }

  /** In every interleaving: one task at most is in a key's critical section, all tasks on a
      key share one lock object, the key's count is the number of tasks on it, and the key is
      in the maps exactly while that number is positive. */
  lemma OneInEachSection(ops: seq<Op>, t: Id, u: Id, key: Key)
    requires Possible(START, ops)
    ensures
      var s := After(START, ops);
      && (t in On(s, key) && u in On(s, key) ==> s.tasks[t].lock == s.tasks[u].lock)
      && (t in On(s, key) && u in On(s, key) && s.tasks[t].Critical? && s.tasks[u].Critical? ==> t == u)
      && Count(s.refs, key) == |On(s, key)|
      && (key in s.locks <==> On(s, key) != {}) && (key in s.refs <==> On(s, key) != {})
  {
    assert forall k :: On(START, k) == {};
    Always(START, ops);
    var s := After(START, ops);
    assert key in s.refs <==> Count(s.refs, key) > 0;
  }

  /** The registry as the code keeps it. */
  class Registry {
    var locks: map<Key, LockId>
    var refs: map<Key, nat>
    var made: nat

    constructor ()
      ensures (locks, refs, made) == (START.locks, START.refs, START.made)
    {
      locks, refs, made := map[], map[], 0;
    }

    method Enter(key: Key) returns (lock: LockId)
      modifies this
      ensures (locks, refs, made) == EnterMaps(old(locks), old(refs), old(made), key)
      ensures key in locks && lock == locks[key]
    {
      if key !in locks {
        locks := locks[key := made];
        made := made + 1;
      }
      lock := locks[key];
      refs := refs[key := (if key in refs then refs[key] else 0) + 1];
    }

    method Exit(key: Key)
      requires key in refs && refs[key] > 0
      modifies this
      ensures (locks, refs) == ExitMaps(old(locks), old(refs), key) && made == old(made)
    {
      var left := refs[key] - 1;
      refs := refs[key := left];
      if left <= 0 {
        refs := refs - {key};
        locks := locks - {key};
      }
      assert left == 0 ==> refs == old(refs) - {key};
    }
  }
}
