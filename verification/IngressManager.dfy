/** The lease key and a replica's ingress manager as objects: what each call does to the key,
    and what start, stop and the renewal loop do to the manager's tables. */
module IngressManager {
  import opened Common
  import opened Ingress

  /** The Redis key of one organisation's lease. */
  class LeaseKey {
    var now: Time
    var lease: Option<Lease>
    var version: nat

    ghost function View(replicas: map<Id, Replica>): State
      reads this
    {
      State(now, lease, version, replicas, replicas.Keys)
    }

    /** SET with NX: takes the key only if it is not there or has run out. */
    method SetNx(owner: Id) returns (ok: bool)
      modifies this
      ensures ok <==> !(old(lease).Some? && now < old(lease).value.expires)
      ensures now == old(now) && lease == (if ok then Some(Lease(owner, now + LEASE_TTL)) else old(lease))
      ensures version == if ok then old(version) + 1 else old(version)
    {
      ok := lease == None || lease.value.expires <= now;
      if ok {
        lease, version := Some(Lease(owner, now + LEASE_TTL)), version + 1;
      }
    }

    /** GET, for the comparison after WATCH. */
    method Get() returns (owner: Option<Id>)
      ensures owner == if lease.Some? && now < lease.value.expires then Some(lease.value.owner) else None
    {
      return if lease.Some? && now < lease.value.expires then Some(lease.value.owner) else None;
    }

    /** EXEC of the delete or of the new expiry: aborted if the key changed since WATCH. */
    method Exec(watched: nat, release: bool) returns (ok: bool)
      modifies this
      ensures now == old(now)
      ensures ok <==> watched == old(version) && (release || (old(lease).Some? && now < old(lease).value.expires))
      ensures !ok ==> lease == old(lease) && version == old(version)
      ensures ok ==> version == old(version) + 1
      ensures ok ==> lease == if release then None else Some(old(lease).value.(expires := now + LEASE_TTL))
    {
      ok := false;
      if watched == version {
        if release {
          lease, version, ok := None, version + 1, true;
        } else if lease.Some? && now < lease.value.expires {
          lease, version, ok := Some(lease.value.(expires := now + LEASE_TTL)), version + 1, true;
        }
      }
    }

    /** The key after a replica's EXEC is the key of the state machine's step. */
    method ExecFor(ghost replicas: map<Id, Replica>, r: Id, ghost who: Who, watched: nat, release: bool,
        ghost answered: bool)
      returns (ok: bool)
      requires r in replicas && CallOf(replicas[r], who) == Some(Checked(watched))
      requires release <==> Releases(replicas[r], who)
      modifies this
      ensures
        var t := ExecStep(old(View(replicas)), r, who, answered);
        t.lease == lease && t.version == version && t.now == now
    {
      ok := Exec(watched, release);
    }
  }

  /** One replica's tables for one key. */
  class Manager {
    var control: Control
    var tracked: Option<nat>
    var live: set<nat>
    var loops: map<nat, Loop>
    var current: Option<nat>
    var until: Time
    var next: nat

    ghost function View(): Replica
      reads this
    {
      Replica(control, tracked, live, loops, current, until, next)
    }

    method Begin()
      requires control.Acquired?
      modifies this
      ensures View() == Started(old(View()))
    {
      until := control.until;
      control, tracked, current := Idle, Some(next), Some(next);
      live, loops := live + {next}, loops[next := Sleeping];
      next := next + 1;
    }

    /** The renewal loop wakes and decides what to do for its key. */
    method Wake(loop: nat)
      requires loop in loops
      modifies this
      ensures View() == Woken(old(View()), loop)
    {
      if tracked == None || tracked.value !in live {
        current := None;
        loops := loops[loop := Releasing(Ingress.Begun)];
      } else {
        loops := loops[loop := Renewing(tracked.value, Ingress.Begun)];
      }
    }

    method Stop()
      requires control.Idle?
      modifies this
      ensures View() == Stopped(old(View()))
    {
      if current.Some? {
        loops := loops - {current.value};
        current := None;
      }
      if tracked == None {
        return;
      }
      live := live - {tracked.value};
      tracked := None;
      control := Stopping(Ingress.Begun);
    }

    /** A renewal loop's call returns. */
    method LoopReturned(loop: nat, ok: bool, extended: Time)
      requires loop in loops && !loops[loop].Sleeping?
      modifies this
      ensures View() == Returned(old(View()), LoopOf(loop), ok, extended)
    {
      var was := loops[loop];
      if was.Releasing? {
        loops := loops - {loop};
      } else if ok {
        loops, until := loops[loop := Sleeping], extended;
      } else {
        loops, tracked, live, current := loops - {loop}, None, live - {was.task}, None;
      }
    }
  }
}
