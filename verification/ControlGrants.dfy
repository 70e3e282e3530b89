/** Connector grants under racing revocation: a revocation may write back an old
    use count, and still no grant is used more often than it allows, and none is
    used again once it is revoked or its execution is over. */
module ControlGrants {
  import opened Common
  import opened RunState
  import opened ControlModel
  import opened ControlHistory
  import opened ControlFencing

  /** The grant has the limit it was issued with and, until it is revoked, counts its uses. */
  predicate WithinBudget(g: Id, grant: Grant, uses: map<Id, nat>, limits: map<Id, nat>) {
    && g in limits && grant.maxUses == limits[g]
    && (grant.revokedAt == None ==> grant.useCount == UsesOf(uses, g))
  }

  /** Every stored grant, and every copy a revocation still holds, has the limit it
      was issued with; a stored grant counts its uses exactly until it is revoked. */
  ghost predicate Budgeted(w: World) {
    && (forall g :: g in w.limits ==> UsesOf(w.uses, g) <= w.limits[g])
    && (forall g :: g in w.plane.grants ==> WithinBudget(g, w.plane.grants[g], w.uses, w.limits))
    && (forall v, g :: v in w.plane.revocations && g in w.plane.revocations[v].pending ==>
          g in w.limits && w.plane.revocations[v].pending[g].maxUses == w.limits[g])
    && w.uses.Keys <= w.limits.Keys
  }

  /** `after` is the copy of `g` that this step of a revocation writes back. */
  predicate WritesBack(p: Plane, op: Op, g: Id, after: Grant) {
    && op.SaveRevoked? && op.grant == g
    && op.revocation in p.revocations && g in p.revocations[op.revocation].pending
    && after == p.revocations[op.revocation].pending[g].(revokedAt := Some(p.revocations[op.revocation].at))
  }

  predicate Spends(p: Plane, op: Op, g: Id) {
    Authorizes(p, op) && op.grant == g
  }

  /** What one step makes of a grant that exists before and after it. */
  predicate GrantMoves(p: Plane, op: Op, g: Id, after: Grant)
    requires g in p.grants
  {
    var before := p.grants[g];
    if Spends(p, op, g) then
      && before.revokedAt == None && before.useCount < before.maxUses
      && after == before.(useCount := before.useCount + 1, lastUsedAt := Some(p.now))
    else
      after == before || WritesBack(p, op, g, after)
  }

  /** How a grant that was not there comes to be. */
  predicate GrantArises(p: Plane, op: Op, g: Id, after: Grant) {
    || (Issues(p, op) && op.grant == g && after.useCount == 0 && after.maxUses == op.maxUses && after.revokedAt == None)
    || WritesBack(p, op, g, after)
  }

  /** Only these operations write grants. */
  predicate OnGrants(op: Op) {
    op.IssueGrant? || op.Use? || op.SaveRevoked? || op.PruneBefore? || op.Delete?
  }

  lemma GrantsUntouched(p: Plane, op: Op)
    requires !OnGrants(op)
    ensures Step(p, op).grants == p.grants
  {
  }

  lemma GrantStep(p: Plane, op: Op, g: Id)
    requires g in p.grants && g in Step(p, op).grants && g !in Minted(op)
    ensures GrantMoves(p, op, g, Step(p, op).grants[g])
  {
    if !OnGrants(op) {
      GrantsUntouched(p, op);
    }
  }

  lemma NewGrantStep(p: Plane, op: Op, g: Id)
    requires g !in p.grants && g in Step(p, op).grants
    ensures GrantArises(p, op, g, Step(p, op).grants[g])
  {
    if !OnGrants(op) {
      GrantsUntouched(p, op);
    }
  }

  /** Where a copy that a revocation holds comes from. */
  predicate Listed(p: Plane, v: Id, g: Id, copy: Grant) {
    if v in p.revocations then g in p.revocations[v].pending && copy == p.revocations[v].pending[g]
    else g in p.grants && copy == p.grants[g]
  }

  lemma RevocationsUntouched(p: Plane, op: Op)
    requires !op.ListForRevoke? && !op.SaveRevoked?
    ensures Step(p, op).revocations == p.revocations
  {
  }

  lemma PendingStep(p: Plane, op: Op, v: Id, g: Id)
    requires v in Step(p, op).revocations && g in Step(p, op).revocations[v].pending
    requires v in p.revocations ==> v !in Minted(op)
    ensures Listed(p, v, g, Step(p, op).revocations[v].pending[g])
  {
    if !op.ListForRevoke? && !op.SaveRevoked? {
      RevocationsUntouched(p, op);
    }
  }

  lemma UseStep(p: Plane, op: Op)
    requires Authorizes(p, op)
    ensures op.grant in p.grants && Minted(op) == {}
    ensures p.grants[op.grant].runId in p.runs
    ensures
      var g := p.grants[op.grant];
      Valid(g, p.runs[g.runId], op.token, op.action, op.requested, op.onComputer, p.now)
  {
  }

  lemma BudgetedStep(w: World, op: Op)
    requires Known(w) && Enabled(w, op) && Budgeted(w)
    ensures Budgeted(Next(w, op))
  {
    var after := Step(w.plane, op);
    UsesBudgeted(w, op);
    forall g | g in after.grants ensures WithinBudget(g, after.grants[g], NextUses(w, op), NextLimits(w, op)) {
      StoredBudgeted(w, op, g);
    }
    forall v, g | v in after.revocations && g in after.revocations[v].pending
      ensures g in NextLimits(w, op) && after.revocations[v].pending[g].maxUses == NextLimits(w, op)[g]
    {
      CopyBudgeted(w, op, v, g);
    }
  }

  lemma StoredBudgeted(w: World, op: Op, g: Id)
    requires Known(w) && Enabled(w, op) && Budgeted(w) && g in Step(w.plane, op).grants
    ensures WithinBudget(g, Step(w.plane, op).grants[g], NextUses(w, op), NextLimits(w, op))
  {
    if g in w.plane.grants {
      GrantStep(w.plane, op, g);
    } else {
      NewGrantStep(w.plane, op, g);
    }
    GrantBudgeted(w, op, g, Step(w.plane, op).grants[g]);
  }

  lemma CopyBudgeted(w: World, op: Op, v: Id, g: Id)
    requires Known(w) && Enabled(w, op) && Budgeted(w)
    requires v in Step(w.plane, op).revocations && g in Step(w.plane, op).revocations[v].pending
    ensures g in NextLimits(w, op) && Step(w.plane, op).revocations[v].pending[g].maxUses == NextLimits(w, op)[g]
  {
    PendingStep(w.plane, op, v, g);
    PendingBudgeted(w, op, v, g, Step(w.plane, op).revocations[v].pending[g]);
  }

  lemma UsesBudgeted(w: World, op: Op)
    requires Known(w) && Enabled(w, op) && Budgeted(w)
    ensures forall g :: g in NextLimits(w, op) ==> UsesOf(NextUses(w, op), g) <= NextLimits(w, op)[g]
    ensures NextUses(w, op).Keys <= NextLimits(w, op).Keys
  {
    if Authorizes(w.plane, op) {
      UseStep(w.plane, op);
    }
  }

  lemma GrantBudgeted(w: World, op: Op, g: Id, after: Grant)
    requires Known(w) && Enabled(w, op) && Budgeted(w)
    requires if g in w.plane.grants then GrantMoves(w.plane, op, g, after) else GrantArises(w.plane, op, g, after)
    ensures WithinBudget(g, after, NextUses(w, op), NextLimits(w, op))
  {
    if Authorizes(w.plane, op) {
      UseStep(w.plane, op);
    }
  }

  lemma PendingBudgeted(w: World, op: Op, v: Id, g: Id, copy: Grant)
    requires Known(w) && Enabled(w, op) && Budgeted(w) && Listed(w.plane, v, g, copy)
    ensures g in NextLimits(w, op) && copy.maxUses == NextLimits(w, op)[g]
  {
  }

  /** However revocations and uses interleave, no grant is used more often than it was issued for. */
  lemma {:induction false} BudgetNeverExceeded(w: World, ops: seq<Op>)
    requires Known(w) && Possible(w, ops) && Budgeted(w)
    ensures Budgeted(After(w, ops))
    ensures forall g :: g in After(w, ops).limits ==> UsesOf(After(w, ops).uses, g) <= After(w, ops).limits[g]
    decreases |ops|
  {
    if ops != [] {
      KnownStep(w, ops[0]);
      BudgetedStep(w, ops[0]);
      BudgetNeverExceeded(Next(w, ops[0]), ops[1..]);
    }
  }

  lemma StartIsBudgeted()
    ensures Budgeted(START)
  {
  }

  /** The grant is revoked, its execution is over, or it is gone. */
  ghost predicate Unusable(w: World, g: Id) {
    && g in w.used
    && (g in w.plane.grants ==>
          || w.plane.grants[g].revokedAt.Some?
          || Past(w, w.plane.grants[g].runId, w.plane.grants[g].epoch))
  }

  /** An unusable grant that a step moves stays unusable, unless the step is one of the run's own. */
  lemma UnusableMoves(w: World, op: Op, g: Id, after: Grant)
    requires Known(w) && Unusable(w, g) && g !in Minted(op)
    requires if g in w.plane.grants then GrantMoves(w.plane, op, g, after) else GrantArises(w.plane, op, g, after)
    ensures
      || after.revokedAt.Some?
      || (g in w.plane.grants && w.plane.grants[g].revokedAt == None && after == w.plane.grants[g])
  {
    if Spends(w.plane, op, g) {
      UseStep(w.plane, op);
    }
  }

  lemma UnusableIsUnused(w: World, op: Op, g: Id)
    requires Unusable(w, g)
    ensures UsesOf(NextUses(w, op), g) == UsesOf(w.uses, g)
  {
    if Authorizes(w.plane, op) {
      UseStep(w.plane, op);
    }
  }

  lemma UnusableStep(w: World, op: Op, g: Id)
    requires Known(w) && Enabled(w, op) && Unusable(w, g)
    ensures Unusable(Next(w, op), g)
    ensures UsesOf(Next(w, op).uses, g) == UsesOf(w.uses, g)
  {
    UnusableIsUnused(w, op, g);
    if g in Step(w.plane, op).grants {
      if g in w.plane.grants {
        GrantStep(w.plane, op, g);
        if w.plane.grants[g].revokedAt == None {
          PastStep(w, op, w.plane.grants[g].runId, w.plane.grants[g].epoch);
        }
      } else {
        NewGrantStep(w.plane, op, g);
      }
      UnusableMoves(w, op, g, Step(w.plane, op).grants[g]);
    }
  }

  /** Once a grant is revoked, or the epoch it was issued in is over, it never authorizes again. */
  lemma {:induction false} RevokedNeverAuthorizes(w: World, ops: seq<Op>, g: Id)
    requires Known(w) && Possible(w, ops) && Unusable(w, g)
    ensures Unusable(After(w, ops), g)
    ensures UsesOf(After(w, ops).uses, g) == UsesOf(w.uses, g)
    decreases |ops|
  {
    if ops != [] {
      KnownStep(w, ops[0]);
      UnusableStep(w, ops[0], g);
      RevokedNeverAuthorizes(Next(w, ops[0]), ops[1..], g);
    }
  }

  /** The rewind the budget survives: whenever a use lands between a revocation's list
      and its write, the stored count goes back to what it was before the use. */
  lemma RevocationRewindsTheCount(p: Plane, revocation: Id, use: Op)
    requires use.Use? && use.grant in p.grants && revocation !in p.revocations
    requires Authorizes(RevokeList(p, p.grants[use.grant].runId, revocation), use)
    ensures var g := use.grant;
      var used := Step(RevokeList(p, p.grants[g].runId, revocation), use);
      var saved := RevokeSave(used, revocation, g);
      && g in used.grants && g in saved.grants
      && used.grants[g].useCount == p.grants[g].useCount + 1
      && saved.grants[g].useCount == p.grants[g].useCount
      && saved.grants[g].revokedAt == Some(p.now)
  {
    var g := use.grant;
    assert g in Unrevoked(p.grants, p.grants[g].runId);
  }
}
