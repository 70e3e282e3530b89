/** The ingress lease is exclusive, and a stale call never touches a successor's lease. */
module IngressSafety {
  import opened Common
  import opened Ingress

  // ---- Stale calls ----

  /** A call that checked the current version saw its own name in the lease that is there now. */
  ghost predicate CallHonest(s: State, r: Id, call: Call) {
    match call
    case Begun => true
    case Watching(v) => v <= s.version
    case Checked(v) => v <= s.version && (v == s.version ==> s.lease.Some? && s.lease.value.owner == r)
  }

  ghost predicate Honest(s: State) {
    forall r, who :: r in s.replicas && CallOf(s.replicas[r], who).Some? ==>
        CallHonest(s, r, CallOf(s.replicas[r], who).value)
  }

  /** The calls of a replica after a step: the ones it had, a new one, or the one that moved. */
  lemma CallsAfter(s: State, op: Op, r: Id, who: Who)
    requires Enabled(s, op) && r in Step(s, op).replicas && CallOf(Step(s, op).replicas[r], who).Some?
    ensures
      var call := CallOf(Step(s, op).replicas[r], who).value;
      || call.Begun?
      || (r in s.replicas && CallOf(s.replicas[r], who) == Some(call))
      || (op.Watch? && call == Watching(s.version))
      || (op.Get? && op.r == r && op.who == who
          && CallOf(s.replicas[r], who).Some? && CallOf(s.replicas[r], who).value.Watching?
          && call == Checked(CallOf(s.replicas[r], who).value.version) && Held(s) && s.lease.value.owner == r)
  {
  }

  /** The lease changes only under a new version. */
  lemma VersionTells(s: State, op: Op)
    requires Enabled(s, op)
    ensures Step(s, op).version >= s.version
    ensures Step(s, op).version == s.version ==> Step(s, op).lease == s.lease
  {
  }

  lemma HonestStep(s: State, op: Op)
    requires Honest(s) && Enabled(s, op)
    ensures Honest(Step(s, op))
  {
    VersionTells(s, op);
    var t := Step(s, op);
    forall r, who | r in t.replicas && CallOf(t.replicas[r], who).Some?
      ensures CallHonest(t, r, CallOf(t.replicas[r], who).value)
    {
      CallsAfter(s, op, r, who);
    }
  }

  /** A lease that has not run out is changed by its owner's own steps alone. */
  lemma OthersLeaveIt(s: State, op: Op)
    requires Honest(s) && Enabled(s, op) && Held(s)
    requires op.Tick? || op.r != s.lease.value.owner
    ensures Step(s, op).lease == s.lease
  {
  }

  lemma {:induction false} HonestAlways(s: State, ops: seq<Op>)
    requires Honest(s) && Possible(s, ops)
    ensures Honest(After(s, ops))
    decreases |ops|
  {
    if ops != [] {
      HonestStep(s, ops[0]);
      HonestAlways(Step(s, ops[0]), ops[1..]);
    }
  }

  /** In every run a renewal or release that took its time never touches a successor's lease:
      its EXEC changes nothing, and a lease still in force is changed by its owner only. */
  lemma StaleCallIsHarmless(s: State, ops: seq<Op>, op: Op)
    requires Start(s) && Possible(s, ops) && Enabled(After(s, ops), op) && !op.Tick?
    requires After(s, ops).lease.Some? && After(s, ops).lease.value.owner != op.r
    ensures op.Exec? || Held(After(s, ops)) ==> Step(After(s, ops), op).lease == After(s, ops).lease
  {
    assert Honest(s);
    HonestAlways(s, ops);
  }

  // ---- What holds in every run ----

  /** Loops and tasks are numbered in order. */
  ghost predicate Numbered(x: Replica) {
    && (forall l :: l in x.loops ==> l < x.next && (x.loops[l].Renewing? ==> x.loops[l].task < x.next))
    && (forall t :: t in x.live ==> t < x.next)
    && (x.tracked.Some? ==> x.tracked.value < x.next)
  }

  /** An acquired lease has not run out, and any lease there is lasts at least as long. */
  ghost predicate Timely(s: State, r: Id)
    requires r in s.replicas
  {
    var x := s.replicas[r];
    x.control.Acquired? ==>
      && s.now < x.control.until <= s.now + LEASE_TTL
      && (s.lease.Some? ==> x.control.until <= s.lease.value.expires)
  }

  ghost predicate Regular(s: State) {
    && Honest(s) && s.replicas.Keys <= s.seen
    && (s.lease.Some? ==> s.lease.value.owner in s.seen && s.lease.value.expires <= s.now + LEASE_TTL)
    && forall r :: r in s.replicas ==> Numbered(s.replicas[r]) && Timely(s, r)
  }

  lemma NumberedCall(x: Replica, who: Who, call: Call, ok: bool, until: Time)
    requires Numbered(x) && CallOf(x, who).Some?
    ensures Numbered(WithCall(x, who, call)) && Numbered(Returned(x, who, ok, until))
  {
  }

  lemma NumberedStep(s: State, op: Op, r: Id)
    requires Enabled(s, op) && r in Step(s, op).replicas && (r in s.replicas ==> Numbered(s.replicas[r]))
    ensures Numbered(Step(s, op).replicas[r])
  {
    if !op.Tick? && !op.Boot? && op.r == r {
      if op.Exec? {
        NumberedExec(s, op);
      } else if op.Watch? || op.Get? || op.Fail? {
        NumberedCalls(s, op);
      } else {
        NumberedOwn(s, op);
      }
    }
  }

  lemma NumberedCalls(s: State, op: Op)
    requires Enabled(s, op) && (op.Watch? || op.Get? || op.Fail?) && Numbered(s.replicas[op.r])
    ensures Numbered(Step(s, op).replicas[op.r])
  {
    var x := s.replicas[op.r];
    var call := if op.Get? then Checked(CallOf(x, op.who).value.version) else Watching(s.version);
    NumberedCall(x, op.who, call, false, s.now);
  }

  lemma NumberedExec(s: State, op: Op)
    requires Enabled(s, op) && op.Exec? && Numbered(s.replicas[op.r])
    ensures Numbered(Step(s, op).replicas[op.r])
  {
    var x := s.replicas[op.r];
    NumberedCall(x, op.who, Begun, false, s.now);
    NumberedCall(x, op.who, Begun, op.answered, s.now);
    NumberedCall(x, op.who, Begun, op.answered, s.now + LEASE_TTL);
  }

  lemma NumberedOwn(s: State, op: Op)
    requires Enabled(s, op) && !op.Tick? && op.r in s.replicas && Numbered(s.replicas[op.r])
    requires op.SetNx? || op.Begin? || op.Die? || op.Wake? || op.Stop?
    ensures Numbered(Step(s, op).replicas[op.r])
  {
  }

  lemma TimelyStep(s: State, op: Op, r: Id)
    requires Regular(s) && Enabled(s, op) && r in Step(s, op).replicas
    ensures Timely(Step(s, op), r)
  {
    assert r in s.replicas ==> Timely(s, r);
  }

  lemma LeaseStep(s: State, op: Op)
    requires Regular(s) && Enabled(s, op)
    ensures
      var t := Step(s, op);
      && t.now >= s.now && t.replicas.Keys <= t.seen && s.seen <= t.seen
      && (t.lease.Some? ==> t.lease.value.owner in t.seen && t.lease.value.expires <= t.now + LEASE_TTL)
  {
  }

  lemma RegularStep(s: State, op: Op)
    requires Regular(s) && Enabled(s, op)
    ensures Regular(Step(s, op))
  {
    HonestStep(s, op);
    LeaseStep(s, op);
    forall r | r in Step(s, op).replicas ensures Numbered(Step(s, op).replicas[r]) && Timely(Step(s, op), r) {
      NumberedStep(s, op, r);
      TimelyStep(s, op, r);
    }
  }

  lemma {:induction false} RegularAlways(s: State, ops: seq<Op>)
    requires Regular(s) && Possible(s, ops)
    ensures Regular(After(s, ops))
    decreases |ops|
  {
    if ops != [] {
      RegularStep(s, ops[0]);
      RegularAlways(Step(s, ops[0]), ops[1..]);
    }
  }

  // ---- One replica at a time ----

  /** A running replica tracks its one task, its loops renew for that task, and a release still
      under way watched an older version of the key. */
  ghost predicate Orderly(s: State, r: Id)
    requires r in s.replicas
  {
    var x := s.replicas[r];
    && x.control.Idle? && x.tracked.Some? && x.live == {x.tracked.value}
    && forall l :: l in x.loops ==>
         && (x.loops[l].Renewing? ==> x.loops[l].task == x.tracked.value)
         && (x.loops[l].Releasing? ==> !Current(s, x.loops[l].call))
  }

  /** It holds the lease for as long as it claims. */
  ghost predicate Leased(s: State, r: Id)
    requires r in s.replicas
  {
    && Orderly(s, r)
    && s.lease.Some? && s.lease.value.owner == r
    && s.now < s.replicas[r].until <= s.lease.value.expires
  }

  /** The lease belongs to a replica that is gone and outlasts what this one claims. */
  ghost predicate Stranded(s: State, r: Id)
    requires r in s.replicas
  {
    && !s.replicas[r].control.Acquired? && s.replicas[r].next > 0 && s.replicas[r].live == {s.replicas[r].next - 1}
    && s.lease.Some? && s.lease.value.owner in s.seen && s.lease.value.owner !in s.replicas
    && s.now < s.replicas[r].until <= s.lease.value.expires
  }

  /** Whoever runs the ingress is one of the two, and alone. */
  ghost predicate Exclusive(s: State, r: Id)
    requires r in s.replicas
  {
    s.replicas[r].live != {} ==> (Leased(s, r) || Stranded(s, r)) && Alone(s, r)
  }

  /** A release that watched an older version never becomes current again. */
  lemma StaleStays(s: State, op: Op, r: Id)
    requires Honest(s) && r in s.replicas && Enabled(s, op)
    ensures s.version <= Step(s, op).version
    ensures forall l :: l in s.replicas[r].loops && s.replicas[r].loops[l].Releasing? ==>
      Current(s, s.replicas[r].loops[l].call) || s.replicas[r].loops[l].call.version < s.version
  {
    VersionTells(s, op);
    forall l | l in s.replicas[r].loops && s.replicas[r].loops[l].Releasing? && !Current(s, s.replicas[r].loops[l].call)
      ensures s.replicas[r].loops[l].call.version < s.version
    {
      assert CallOf(s.replicas[r], LoopOf(l)) == Some(s.replicas[r].loops[l].call);
    }
  }

  /** A leased replica's own step keeps it leased, or ends its task. */
  lemma LeasedOwn(s: State, op: Op)
    requires Regular(s) && Enabled(s, op) && !op.Tick? && op.r in s.replicas && Leased(s, op.r)
    requires op.r in Step(s, op).replicas
    ensures Step(s, op).replicas[op.r].live != {} ==> Leased(Step(s, op), op.r)
  {
    StaleStays(s, op, op.r);
  }

  lemma LeasedElse(s: State, op: Op, r: Id)
    requires Regular(s) && Enabled(s, op) && r in s.replicas && Leased(s, r) && (op.Tick? || op.r != r)
    ensures r in Step(s, op).replicas && Leased(Step(s, op), r)
  {
    OthersLeaveIt(s, op);
    StaleStays(s, op, r);
  }

  lemma StrandedOwn(s: State, op: Op)
    requires Regular(s) && Enabled(s, op) && !op.Tick? && op.r in s.replicas && Stranded(s, op.r)
    requires op.r in Step(s, op).replicas
    ensures Step(s, op).replicas[op.r].live != {} ==> Stranded(Step(s, op), op.r)
  {
    OthersLeaveIt(s, op);
  }

  lemma StrandedElse(s: State, op: Op, r: Id)
    requires Regular(s) && Enabled(s, op) && r in s.replicas && Stranded(s, r) && (op.Tick? || op.r != r)
    ensures r in Step(s, op).replicas && Stranded(Step(s, op), r)
  {
    OthersLeaveIt(s, op);
  }

  /** A task that begins safely is leased or stranded. */
  lemma BegunSafely(s: State, r: Id)
    requires Regular(s) && Enabled(s, Begin(r)) && SafeBegin(s, r) && s.replicas[r].live == {}
    ensures Leased(Step(s, Begin(r)), r) || Stranded(Step(s, Begin(r)), r)
  {
    assert Timely(s, r) && Numbered(s.replicas[r]);
    StaleStays(s, Begin(r), r);
  }

  ghost predicate Safe(s: State) {
    Regular(s) && forall r :: r in s.replicas ==> Exclusive(s, r)
  }

  /** Only a beginning makes an idle replica run. */
  lemma OnlyBeginRuns(s: State, op: Op, r: Id)
    requires Enabled(s, op) && r in Step(s, op).replicas && Step(s, op).replicas[r].live != {}
    ensures r in s.replicas && (s.replicas[r].live != {} || op == Begin(r))
  {
  }

  lemma RunsOn(s: State, op: Op, r: Id)
    requires Safe(s) && Enabled(s, op) && (op.Begin? ==> SafeBegin(s, op.r))
    requires r in Step(s, op).replicas && Step(s, op).replicas[r].live != {}
    ensures Leased(Step(s, op), r) || Stranded(Step(s, op), r)
  {
    OnlyBeginRuns(s, op, r);
    assert Exclusive(s, r);
    if op == Begin(r) {
      BegunSafely(s, r);
    } else if Leased(s, r) {
      if op.Tick? || op.r != r {
        LeasedElse(s, op, r);
      } else {
        LeasedOwn(s, op);
      }
    } else if op.Tick? || op.r != r {
      StrandedElse(s, op, r);
    } else {
      StrandedOwn(s, op);
    }
  }

  /** A replica that begins safely is alone: under its own lease because whoever runs holds the lease, or
      is stranded under that of a replica that is gone. */
  lemma BeginsAlone(s: State, r: Id)
    requires Safe(s) && Enabled(s, Begin(r)) && SafeBegin(s, r)
    ensures Alone(s, r)
  {
    forall c | c in s.replicas && c != r ensures s.replicas[c].live == {} {
      assert Exclusive(s, c);
    }
  }

  lemma AloneStep(s: State, op: Op, r: Id, c: Id)
    requires Safe(s) && Enabled(s, op) && (op.Begin? ==> SafeBegin(s, op.r))
    requires r in Step(s, op).replicas && Step(s, op).replicas[r].live != {} && c in Step(s, op).replicas && c != r
    ensures Step(s, op).replicas[c].live == {}
  {
    OnlyBeginRuns(s, op, r);
    assert Exclusive(s, r);
    if op.Begin? {
      BeginsAlone(s, op.r);
    }
    if Step(s, op).replicas[c].live != {} {
      OnlyBeginRuns(s, op, c);
    }
  }

  lemma SafeStep(s: State, op: Op)
    requires Safe(s) && Enabled(s, op) && (op.Begin? ==> SafeBegin(s, op.r))
    ensures Safe(Step(s, op))
  {
    var t := Step(s, op);
    RegularStep(s, op);
    forall r | r in t.replicas ensures Exclusive(t, r) {
      if t.replicas[r].live != {} {
        RunsOn(s, op, r);
        forall c | c in t.replicas && c != r ensures t.replicas[c].live == {} {
          AloneStep(s, op, r, c);
        }
      }
    }
  }

  lemma {:induction false} SafeAlways(s: State, ops: seq<Op>)
    requires Safe(s) && Possible(s, ops) && BeginsSafely(s, ops)
    ensures Safe(After(s, ops))
    decreases |ops|
  {
    if ops != [] {
      SafeStep(s, ops[0]);
      SafeAlways(Step(s, ops[0]), ops[1..]);
    }
  }

  /** At most one replica runs the organisation's ingress, with one task, at any moment of any run in
      which every task begins safely. */
  lemma OneReplicaRuns(s: State, ops: seq<Op>, a: Id, b: Id)
    requires Start(s) && Possible(s, ops) && BeginsSafely(s, ops)
    requires a in After(s, ops).replicas && b in After(s, ops).replicas
    requires After(s, ops).replicas[a].live != {} && After(s, ops).replicas[b].live != {}
    ensures a == b
    ensures |After(s, ops).replicas[a].live| == 1
  {
    assert Safe(s);
    SafeAlways(s, ops);
    assert Exclusive(After(s, ops), a) && Exclusive(After(s, ops), b);
  }
}
