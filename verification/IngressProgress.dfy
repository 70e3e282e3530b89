/** What the calls of one replica achieve when no other comes between: a free lease is taken and the task
    begins, the owner's calls extend or release the lease, everybody else's leave it alone, and a
    renewal that is refused stops the task it was for. */
module IngressProgress {
  import opened Common
  import opened Ingress

  predicate Owned(s: State, r: Id) {
    s.lease.Some? && s.lease.value.owner == r && s.now < s.lease.value.expires
  }

  /** A free lease is taken for 45 seconds, and the task that begins then is the one its replica
      knows and renews for. */
  lemma FreeLeaseStartsATask(s: State, r: Id)
    requires Enabled(s, SetNx(r, true)) && !(s.lease.Some? && s.now < s.lease.value.expires)
    ensures
      var taken := Step(s, SetNx(r, true));
      && taken.lease == Some(Lease(r, s.now + 45_000)) && taken.version == s.version + 1
      && Enabled(taken, Begin(r))
      && var x, y := s.replicas[r], Step(taken, Begin(r)).replicas[r];
         && Step(taken, Begin(r)).lease == taken.lease
         && y.control == Idle && y.tracked == Some(x.next) && y.live == x.live + {x.next} && y.next == x.next + 1
         && y.current == Some(x.next) && y.loops == x.loops[x.next := Sleeping] && y.until == s.now + 45_000
  {
  }

  /** A start that finds the lease taken leaves it alone, and goes on to ask whether it is its own. */
  lemma TakenLeaseIsAskedFor(s: State, r: Id)
    requires Enabled(s, SetNx(r, true)) && s.lease.Some? && s.now < s.lease.value.expires
    ensures
      var t := Step(s, SetNx(r, true));
      && t.lease == s.lease && t.version == s.version && Enabled(t, Watch(r, Starter))
      && t.replicas == s.replicas[r := s.replicas[r].(control := Reacquiring(Begun))]
  {
  }

  /** An undisturbed call of the lease's owner: a start or a renewal makes the lease last 45 seconds from now,
      and a release gives it up. */
  lemma OwnerCallSucceeds(s: State, r: Id, who: Who)
    requires Owned(s, r) && Enabled(s, Watch(r, who))
    ensures
      var watched := Step(s, Watch(r, who));
      && Enabled(watched, Get(r, who))
      && var checked := Step(watched, Get(r, who));
         && Enabled(checked, Exec(r, who, true))
         && var x, t := s.replicas[r], Step(checked, Exec(r, who, true));
            var y := t.replicas[r];
            && (who.Starter? ==>
                  t.lease == Some(Lease(r, s.now + 45_000)) && y == x.(control := Acquired(s.now + 45_000)))
            && (who.Stopper? ==> t.lease == None && y == x.(control := Idle))
            && (who.LoopOf? && x.loops[who.loop].Renewing? ==>
                  && t.lease == Some(Lease(r, s.now + 45_000))
                  && y == x.(loops := x.loops[who.loop := Sleeping], until := s.now + 45_000))
            && (who.LoopOf? && x.loops[who.loop].Releasing? ==>
                  t.lease == None && y == x.(loops := x.loops - {who.loop}))
            && forall b :: b in s.replicas && b != r ==> t.replicas[b] == s.replicas[b]
  {
    var x := s.replicas[r];
    var watched := Step(s, Watch(r, who));
    assert CallOf(watched.replicas[r], who) == Some(Watching(s.version));
    var checked := Step(watched, Get(r, who));
    assert CallOf(checked.replicas[r], who) == Some(Checked(s.version));
    if who.LoopOf? {
      assert x.loops[who.loop := Sleeping] == checked.replicas[r].loops[who.loop := Sleeping];
      assert x.loops - {who.loop} == checked.replicas[r].loops - {who.loop};
    }
  }

  /** An undisturbed call of a replica that does not own the lease leaves it alone. A start is refused, and
      a renewal stops the task it was for. */
  lemma StrangerCallIsRefused(s: State, r: Id, who: Who)
    requires !Owned(s, r) && Enabled(s, Watch(r, who))
    ensures
      var watched := Step(s, Watch(r, who));
      && Enabled(watched, Get(r, who))
      && var x, t := s.replicas[r], Step(watched, Get(r, who));
         var y := t.replicas[r];
         && t.lease == s.lease && t.version == s.version
         && (who.Starter? || who.Stopper? ==> y == x.(control := Idle))
         && (who.LoopOf? && x.loops[who.loop].Renewing? ==>
               y == x.(loops := x.loops - {who.loop}, tracked := None, current := None,
                       live := x.live - {x.loops[who.loop].task}))
         && (who.LoopOf? && x.loops[who.loop].Releasing? ==> y == x.(loops := x.loops - {who.loop}))
         && forall b :: b in s.replicas && b != r ==> t.replicas[b] == s.replicas[b]
  {
    var x := s.replicas[r];
    var watched := Step(s, Watch(r, who));
    assert CallOf(watched.replicas[r], who) == Some(Watching(s.version));
    if who.LoopOf? {
      assert x.loops - {who.loop} == watched.replicas[r].loops - {who.loop};
    }
  }

  /** A stop ends the task and its renewal loop at once, and goes on to release the lease exactly if
      there was a task. */
  lemma StopEndsTheTask(s: State, r: Id)
    requires Enabled(s, Stop(r))
    ensures
      var x, t := s.replicas[r], Step(s, Stop(r));
      var y := t.replicas[r];
      && t.lease == s.lease && y.tracked == None && y.current == None
      && y.live == (if x.tracked.Some? then x.live - {x.tracked.value} else x.live)
      && y.loops == (if x.current.Some? then x.loops - {x.current.value} else x.loops)
      && y.control == (if x.tracked.Some? then Stopping(Begun) else x.control)
      && (x.tracked.Some? ==> Enabled(t, Watch(r, Stopper)))
  {
  }

  /** The owner's stop, undisturbed, leaves the lease free. */
  lemma StopReleases(s: State, r: Id)
    requires Enabled(s, Stop(r)) && Owned(s, r) && s.replicas[r].tracked.Some?
    ensures
      var stopped := Step(s, Stop(r));
      && Enabled(stopped, Watch(r, Stopper))
      && var watched := Step(stopped, Watch(r, Stopper));
         && Enabled(watched, Get(r, Stopper))
         && var checked := Step(watched, Get(r, Stopper));
            && Enabled(checked, Exec(r, Stopper, true))
            && Step(checked, Exec(r, Stopper, true)).lease == None
  {
    StopEndsTheTask(s, r);
    OwnerCallSucceeds(Step(s, Stop(r)), r, Stopper);
  }

  /** A renewal loop that wakes renews for the task its replica knows if that task runs, and
      otherwise gives the lease up. */
  lemma WokenLoopDecides(s: State, r: Id, loop: nat)
    requires Enabled(s, Wake(r, loop))
    ensures
      var x, t := s.replicas[r], Step(s, Wake(r, loop));
      && t.lease == s.lease && Enabled(t, Watch(r, LoopOf(loop)))
      && t.replicas[r].loops[loop] ==
         (if x.tracked.Some? && x.tracked.value in x.live then Renewing(x.tracked.value, Begun) else Releasing(Begun))
      && t.replicas[r].live == x.live && t.replicas[r].tracked == x.tracked
  {
  }
}
