/** Why every task has to begin safely: from any other beginning there is a run that puts a second
    replica in, and loops that outlive their task lead to such beginnings in two ways. */
module IngressOverlap {
  import opened Common
  import opened Ingress
  import opened IngressSafety

  lemma Chain(s: State, op: Op, ops: seq<Op>)
    requires Enabled(s, op) && Possible(Step(s, op), ops)
    ensures Possible(s, [op] + ops) && After(s, [op] + ops) == After(Step(s, op), ops)
  {
    assert ([op] + ops)[1..] == ops;
  }

  /** Two different replicas run the ingress. */
  ghost predicate BothRun(s: State, a: Id, b: Id) {
    a != b && a in s.replicas && b in s.replicas && s.replicas[a].live != {} && s.replicas[b].live != {}
  }

  // ---- A second replica starts ----

  /** A server that boots takes a lease nobody holds. */
  lemma StartsOnFree(s: State, a: Id, b: Id) returns (ops: seq<Op>)
    requires a in s.replicas && b !in s.seen && a != b && s.replicas[a].live != {} && !Held(s)
    ensures Possible(s, ops) && BothRun(After(s, ops), a, b)
  {
    var s1 := Step(s, Boot(b));
    var s2 := Step(s1, SetNx(b, true));
    var s3 := Step(s2, Begin(b));
    assert 0 in s3.replicas[b].live && s3.replicas[a] == s.replicas[a];
    Chain(s2, Begin(b), []);
    ops := [Begin(b)] + [];
    Chain(s1, SetNx(b, true), ops);
    ops := [SetNx(b, true)] + ops;
    Chain(s, Boot(b), ops);
    ops := [Boot(b)] + ops;
  }

  lemma BeginJoins(s: State, a: Id, b: Id) returns (ops: seq<Op>)
    requires a in s.replicas && b in s.replicas && a != b && s.replicas[a].live != {} && s.replicas[b].control.Acquired?
    ensures Possible(s, ops) && BothRun(After(s, ops), a, b)
  {
    var t := Step(s, Begin(b));
    assert s.replicas[b].next in t.replicas[b].live && t.replicas[a] == s.replicas[a];
    Chain(s, Begin(b), []);
    ops := [Begin(b)] + [];
  }

  /** A replica that owns the lease in force and is idle acquires it again. */
  lemma IdleOwnerJoins(s: State, a: Id, b: Id) returns (ops: seq<Op>)
    requires a in s.replicas && b in s.replicas && a != b && s.replicas[a].live != {}
    requires Held(s) && s.lease.value.owner == b && s.replicas[b].control.Idle? && s.replicas[b].live == {}
    ensures Possible(s, ops) && BothRun(After(s, ops), a, b)
  {
    var s1 := Step(s, SetNx(b, true));
    var s2 := Step(s1, Watch(b, Starter));
    var s3 := Step(s2, Get(b, Starter));
    var s4 := Step(s3, Exec(b, Starter, true));
    ops := BeginJoins(s4, a, b);
    Chain(s3, Exec(b, Starter, true), ops);
    ops := [Exec(b, Starter, true)] + ops;
    Chain(s2, Get(b, Starter), ops);
    ops := [Get(b, Starter)] + ops;
    Chain(s1, Watch(b, Starter), ops);
    ops := [Watch(b, Starter)] + ops;
    Chain(s, SetNx(b, true), ops);
    ops := [SetNx(b, true)] + ops;
  }

  /** So does one in the middle of a start or a stop, whose call fails. */
  lemma OwnerJoins(s: State, a: Id, b: Id) returns (ops: seq<Op>)
    requires a in s.replicas && b in s.replicas && a != b && s.replicas[a].live != {}
    requires Held(s) && s.lease.value.owner == b
    ensures Possible(s, ops) && BothRun(After(s, ops), a, b)
  {
    if s.replicas[b].live != {} {
      ops := [];
    } else if s.replicas[b].control.Acquired? {
      ops := BeginJoins(s, a, b);
    } else if s.replicas[b].control.Idle? {
      ops := IdleOwnerJoins(s, a, b);
    } else {
      var who := if s.replicas[b].control.Reacquiring? then Starter else Stopper;
      var t := Step(s, Fail(b, who));
      ops := IdleOwnerJoins(t, a, b);
      Chain(s, Fail(b, who), ops);
      ops := [Fail(b, who)] + ops;
    }
  }

  // ---- The running replica loses its lease ----

  /** Replica `a` runs under its lease while one of its loops can still release it. */
  ghost predicate Exposed(s: State, a: Id, loop: nat) {
    && a in s.replicas && s.replicas[a].live != {}
    && Held(s) && s.lease.value.owner == a
    && loop in s.replicas[a].loops && s.replicas[a].loops[loop].Releasing? && Current(s, s.replicas[a].loops[loop].call)
  }

  /** From any such state the release goes through, and a second replica starts. */
  lemma ReleaseLetsASecondIn(s: State, a: Id, loop: nat, b: Id) returns (ops: seq<Op>)
    requires Exposed(s, a, loop) && a != b && b !in s.seen
    ensures Possible(s, ops) && BothRun(After(s, ops), a, b)
    decreases match s.replicas[a].loops[loop].call case Begun => 2 case Watching(_) => 1 case Checked(_) => 0
  {
    var who := LoopOf(loop);
    match s.replicas[a].loops[loop].call {
      case Begun =>
        var t := Step(s, Watch(a, who));
        ops := ReleaseLetsASecondIn(t, a, loop, b);
        Chain(s, Watch(a, who), ops);
        ops := [Watch(a, who)] + ops;
      case Watching(_) =>
        var t := Step(s, Get(a, who));
        ops := ReleaseLetsASecondIn(t, a, loop, b);
        Chain(s, Get(a, who), ops);
        ops := [Get(a, who)] + ops;
      case Checked(_) =>
        var t := Step(s, Exec(a, who, true));
        ops := StartsOnFree(t, a, b);
        Chain(s, Exec(a, who, true), ops);
        ops := [Exec(a, who, true)] + ops;
    }
  }

  /** A task runs untracked, and its own loop is asleep: the loop wakes and releases the lease. */
  lemma UntrackedLetsASecondIn(s: State, a: Id, loop: nat, b: Id) returns (ops: seq<Op>)
    requires a in s.replicas && b !in s.seen && a != b && s.replicas[a].live != {} && s.replicas[a].tracked == None
    requires Held(s) && s.lease.value.owner == a && loop in s.replicas[a].loops && s.replicas[a].loops[loop].Sleeping?
    ensures Possible(s, ops) && BothRun(After(s, ops), a, b)
  {
    var t := Step(s, Wake(a, loop));
    ops := ReleaseLetsASecondIn(t, a, loop, b);
    Chain(s, Wake(a, loop), ops);
    ops := [Wake(a, loop)] + ops;
  }

  /** A loop still renewing for an earlier task fails: it forgets the new one. */
  lemma StaleRenewalLetsASecondIn(s: State, a: Id, loop: nat, task: nat, newest: nat, b: Id) returns (ops: seq<Op>)
    requires a in s.replicas && b !in s.seen && a != b && Held(s) && s.lease.value.owner == a
    requires loop in s.replicas[a].loops && s.replicas[a].loops[loop].Renewing?
    requires s.replicas[a].loops[loop].task == task
    requires newest in s.replicas[a].live && newest != task && newest != loop
    requires newest in s.replicas[a].loops && s.replicas[a].loops[newest].Sleeping?
    ensures Possible(s, ops) && BothRun(After(s, ops), a, b)
  {
    var t := Step(s, Fail(a, LoopOf(loop)));
    assert newest in t.replicas[a].live;
    ops := UntrackedLetsASecondIn(t, a, newest, b);
    Chain(s, Fail(a, LoopOf(loop)), ops);
    ops := [Fail(a, LoopOf(loop))] + ops;
  }

  /** Under its own lease, with its loops unsettled, a replica that begins can be joined. */
  lemma UnsettledLetsASecondIn(s: State, a: Id, b: Id) returns (ops: seq<Op>)
    requires Regular(s) && Enabled(s, Begin(a)) && Held(s) && s.lease.value.owner == a && !Settled(s, a) && b !in s.seen
    ensures Possible(Step(s, Begin(a)), ops) && BothRun(After(Step(s, Begin(a)), ops), a, b)
  {
    assert Numbered(s.replicas[a]);
    var t := Step(s, Begin(a));
    var newest := s.replicas[a].next;
    assert newest in t.replicas[a].live;
    var loop :| loop in s.replicas[a].loops && (s.replicas[a].loops[loop].Renewing?
      || (s.replicas[a].loops[loop].Releasing? && Current(s, s.replicas[a].loops[loop].call)));
    assert t.replicas[a].loops[loop] == s.replicas[a].loops[loop];
    if s.replicas[a].loops[loop].Renewing? {
      ops := StaleRenewalLetsASecondIn(t, a, loop, s.replicas[a].loops[loop].task, newest, b);
    } else {
      ops := ReleaseLetsASecondIn(t, a, loop, b);
    }
  }

  /** In every reachable state: a task that does not begin safely can be joined by another replica's,
      that of a replica that runs already, of the live owner of the lease, or of a server that boots. */
  lemma UnsafeBeginLetsASecondIn(start: State, ops: seq<Op>, a: Id, b: Id) returns (second: Id, more: seq<Op>)
    requires Start(start) && Possible(start, ops) && b !in After(start, ops).seen
    requires Enabled(After(start, ops), Begin(a)) && !SafeBegin(After(start, ops), a)
    ensures Possible(Step(After(start, ops), Begin(a)), more)
    ensures BothRun(After(Step(After(start, ops), Begin(a)), more), a, second)
  {
    var s := After(start, ops);
    RegularAlways(start, ops);
    var t := Step(s, Begin(a));
    assert s.replicas[a].next in t.replicas[a].live;
    second := b;
    if c :| c in s.replicas && c != a && s.replicas[c].live != {} {
      second, more := c, [];
      assert t.replicas[c] == s.replicas[c];
    } else if !Held(s) {
      more := StartsOnFree(t, a, b);
    } else if s.lease.value.owner != a {
      second := s.lease.value.owner;
      more := OwnerJoins(t, a, second);
    } else {
      more := UnsettledLetsASecondIn(s, a, b);
    }
  }

  // ---- Both ways are reached ----

  /** Replica `a` lost its task while `loop`, its renewal loop, is in the middle of a call. */
  ghost predicate Bereft(s: State, a: Id, loop: Loop) {
    && a in s.replicas && Held(s) && s.lease.value.owner == a
    && s.replicas[a].control == Idle && s.replicas[a].live == {} && s.replicas[a].loops == map[0 := loop]
  }

  /** The task dies, and the loop wakes afterwards and begins to release. */
  lemma ReleaseBegins(s: State, a: Id) returns (ops: seq<Op>)
    requires Start(s) && a in s.replicas
    ensures Possible(s, ops) && Bereft(After(s, ops), a, Releasing(Begun)) && After(s, ops).seen == s.seen
  {
    var s1 := Step(s, SetNx(a, true));
    var s2 := Step(s1, Begin(a));
    var s3 := Step(s2, Die(a, 0));
    var s4 := Step(s3, Wake(a, 0));
    assert s3.replicas[a].live == {} && s4.replicas[a].loops == map[0 := Releasing(Begun)];
    Chain(s3, Wake(a, 0), []);
    ops := [Wake(a, 0)] + [];
    Chain(s2, Die(a, 0), ops);
    ops := [Die(a, 0)] + ops;
    Chain(s1, Begin(a), ops);
    ops := [Begin(a)] + ops;
    Chain(s, SetNx(a, true), ops);
    ops := [SetNx(a, true)] + ops;
  }

  /** The loop wakes and begins to renew, and the task dies afterwards. */
  lemma RenewalBegins(s: State, a: Id) returns (ops: seq<Op>)
    requires Start(s) && a in s.replicas
    ensures Possible(s, ops) && Bereft(After(s, ops), a, Renewing(0, Begun)) && After(s, ops).seen == s.seen
  {
    var s1 := Step(s, SetNx(a, true));
    var s2 := Step(s1, Begin(a));
    var s3 := Step(s2, Wake(a, 0));
    var s4 := Step(s3, Die(a, 0));
    assert s4.replicas[a].live == {} && s4.replicas[a].loops == map[0 := Renewing(0, Begun)];
    Chain(s3, Die(a, 0), []);
    ops := [Die(a, 0)] + [];
    Chain(s2, Wake(a, 0), ops);
    ops := [Wake(a, 0)] + ops;
    Chain(s1, Begin(a), ops);
    ops := [Begin(a)] + ops;
    Chain(s, SetNx(a, true), ops);
    ops := [SetNx(a, true)] + ops;
  }

  /** The replica acquires its lease again, which leaves the loop where it is. */
  lemma AcquiresAgain(s: State, a: Id, loop: Loop) returns (ops: seq<Op>)
    requires Bereft(s, a, loop)
    ensures Possible(s, ops)
    ensures
      var t := After(s, ops);
      && t.seen == s.seen && Held(t) && t.lease.value.owner == a
      && a in t.replicas && t.replicas[a].control.Acquired? && t.replicas[a].loops == map[0 := loop]
  {
    var s1 := Step(s, SetNx(a, true));
    var s2 := Step(s1, Watch(a, Starter));
    var s3 := Step(s2, Get(a, Starter));
    Chain(s3, Exec(a, Starter, true), []);
    ops := [Exec(a, Starter, true)] + [];
    Chain(s2, Get(a, Starter), ops);
    ops := [Get(a, Starter)] + ops;
    Chain(s1, Watch(a, Starter), ops);
    ops := [Watch(a, Starter)] + ops;
    Chain(s, SetNx(a, true), ops);
    ops := [SetNx(a, true)] + ops;
  }

  lemma {:induction false} Append(s: State, a: seq<Op>, b: seq<Op>)
    requires Possible(s, a) && Possible(After(s, a), b)
    ensures Possible(s, a + b) && After(s, a + b) == After(After(s, a), b)
    decreases |a|
  {
    if a == [] {
      assert a + b == b;
    } else {
      Append(Step(s, a[0]), a[1..], b);
      Chain(s, a[0], a[1..] + b);
      assert [a[0]] + (a[1..] + b) == a + b;
    }
  }

  /** Both ways lead there: with the loop about to release, or renewing for the task that died, there
      is a run that ends with two replicas in the ingress. */
  lemma TwoReplicasCanRun(s: State, a: Id, b: Id, renewing: bool)
    returns (loop: Loop, ops: seq<Op>, second: Id, more: seq<Op>)
    requires Start(s) && a in s.replicas && b !in s.seen
    ensures loop == if renewing then Renewing(0, Begun) else Releasing(Begun)
    ensures Possible(s, ops) && a in After(s, ops).replicas && After(s, ops).replicas[a].loops == map[0 := loop]
    ensures Enabled(After(s, ops), Begin(a))
    ensures Possible(Step(After(s, ops), Begin(a)), more)
    ensures BothRun(After(Step(After(s, ops), Begin(a)), more), a, second)
  {
    loop := if renewing then Renewing(0, Begun) else Releasing(Begun);
    if renewing {
      ops := RenewalBegins(s, a);
    } else {
      ops := ReleaseBegins(s, a);
    }
    var again := AcquiresAgain(After(s, ops), a, loop);
    Append(s, ops, again);
    ops := ops + again;
    RegularAlways(s, ops);
    assert 0 in After(s, ops).replicas[a].loops && !Settled(After(s, ops), a);
    second, more := UnsafeBeginLetsASecondIn(s, ops, a, b);
  }
}
