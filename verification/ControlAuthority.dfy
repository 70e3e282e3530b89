/** What an issued connector grant authorizes for the rest of its life, told by what it was issued
    with and by what has happened since. */
module ControlAuthority {
  import opened Common
  import opened RunState
  import opened ControlModel
  import opened ControlHistory
  import opened ControlFencing
  import opened ControlGrants

  /** What issuing fixes about a grant, for good. */
  datatype Terms = Terms(
    run: Id,
    computer: Id,
    epoch: nat,
    actions: set<string>,
    constraints: map<string, string>,
    token: Id,
    until: Time,
    maxUses: nat)

  /** The terms of a grant that this operation issues for the run as it is now. */
  function IssuedTerms(p: Plane, op: Op): Terms
    requires op.IssueGrant? && op.run in p.runs
  {
    Terms(op.run, p.runs[op.run].computerId, p.runs[op.run].epoch, op.actions, op.constraints, op.token,
          p.now + op.ttl, op.maxUses)
  }

  predicate OnTerms(g: Grant, t: Terms) {
    && g.runId == t.run && g.computerId == t.computer && g.epoch == t.epoch
    && g.actions == t.actions && g.constraints == t.constraints
    && g.token == t.token && g.expiresAt == t.until && g.maxUses == t.maxUses
  }

  /** The stored grant and every copy that a revocation holds of it are on these terms. */
  ghost predicate Bound(w: World, g: Id, t: Terms) {
    && g in w.used
    && g in w.limits && w.limits[g] == t.maxUses
    && (g in w.plane.grants ==> OnTerms(w.plane.grants[g], t))
    && (forall v :: v in w.plane.revocations && g in w.plane.revocations[v].pending ==>
          OnTerms(w.plane.revocations[v].pending[g], t))
  }

  // ---------------------------------------------------------------- issuing

  /** A grant is issued for any run that has not ended. */
  lemma IssuedExactlyWhen(p: Plane, op: Op)
    requires op.IssueGrant?
    ensures Issues(p, op) <==>
            && op.run in p.runs
            && p.runs[op.run].status != Completed
            && p.runs[op.run].status != Cancelled
            && p.runs[op.run].status != Failed
    ensures
      var after := Step(p, op);
      if Issues(p, op) then
        && op.grant in after.grants && OnTerms(after.grants[op.grant], IssuedTerms(p, op))
        && after.grants[op.grant].useCount == 0 && after.grants[op.grant].revokedAt == None
        && after == p.(grants := p.grants[op.grant := after.grants[op.grant]])
      else after == p
  {
  }

  lemma IssuedIsBound(w: World, op: Op)
    requires Known(w) && Enabled(w, op) && op.IssueGrant? && Issues(w.plane, op)
    ensures Bound(Next(w, op), op.grant, IssuedTerms(w.plane, op))
  {
    forall v | v in w.plane.revocations ensures op.grant !in w.plane.revocations[v].pending {
      assert op.grant !in w.used;
    }
  }

  lemma BoundStep(w: World, op: Op, g: Id, t: Terms)
    requires Known(w) && Enabled(w, op) && Bound(w, g, t)
    ensures Bound(Next(w, op), g, t)
  {
    var after := Step(w.plane, op);
    if g in after.grants {
      StoredStaysBound(w, op, g, t);
    }
    forall v | v in after.revocations && g in after.revocations[v].pending
      ensures OnTerms(after.revocations[v].pending[g], t)
    {
      PendingStep(w.plane, op, v, g);
    }
  }

  lemma StoredStaysBound(w: World, op: Op, g: Id, t: Terms)
    requires Known(w) && Enabled(w, op) && Bound(w, g, t) && g in Step(w.plane, op).grants
    ensures OnTerms(Step(w.plane, op).grants[g], t)
  {
    if g in w.plane.grants {
      GrantStep(w.plane, op, g);
    } else {
      NewGrantStep(w.plane, op, g);
    }
  }

  lemma {:induction false} BoundForGood(w: World, ops: seq<Op>, g: Id, t: Terms)
    requires Known(w) && Possible(w, ops) && Budgeted(w) && Bound(w, g, t)
    ensures Known(After(w, ops)) && Budgeted(After(w, ops)) && Bound(After(w, ops), g, t)
    decreases |ops|
  {
    if ops != [] {
      KnownStep(w, ops[0]);
      BudgetedStep(w, ops[0]);
      BoundStep(w, ops[0], g, t);
      BoundForGood(Next(w, ops[0]), ops[1..], g, t);
    }
  }

  // ---------------------------------------------------------------- scope

  /** The request gives this constraint its issued value. */
  predicate Meets(constraints: map<string, string>, requested: map<string, string>, name: string) {
    name in constraints ==> name in requested && requested[name] == constraints[name]
  }

  ghost predicate MeetsAll(constraints: map<string, string>, requested: map<string, string>) {
    forall name :: name in constraints ==> Meets(constraints, requested, name)
  }

  /** Reading a source is bound by `url`, a pull request's status by `target_url` and a search by `repository`,
      each where the grant names it; any other action, and these without their name, by every constraint. */
  ghost predicate WithinScope(action: string, constraints: map<string, string>, requested: map<string, string>) {
    if action == "read_source" && "url" in constraints then
      Meets(constraints, requested, "url")
    else if action == "pull_request_status" && "target_url" in constraints then
      Meets(constraints, requested, "target_url")
    else if action == "search_work" && "repository" in constraints then
      Meets(constraints, requested, "repository")
    else
      MeetsAll(constraints, requested)
  }

  lemma ScopeIsMet(g: Grant, action: string, requested: map<string, string>)
    ensures InScope(g, action, requested) <==> WithinScope(action, g.constraints, requested)
  {
    var names, required := g.constraints.Keys, RequiredNames(g, action);
    if action == "read_source" && "url" in names {
      OneName(names, "url", required);
    } else if action == "pull_request_status" && "target_url" in names {
      OneName(names, "target_url", required);
    } else if action == "search_work" && "repository" in names {
      OneName(names, "repository", required);
    } else {
      assert required == names;
      assert WithinScope(action, g.constraints, requested) == MeetsAll(g.constraints, requested);
    }
  }

  lemma OneName(names: set<string>, name: string, required: set<string>)
    requires name in names
    requires required == if {name} * names == {} then names else {name} * names
    ensures required == {name}
  {
    assert name in {name} * names;
  }

  // ---------------------------------------------------------------- authorization

  /** The grant as it is stored admits the use: it is unrevoked, has uses and time left, its run is in its epoch
      and on its computer and has not ended, the request comes from that computer if it comes from one,
      with its token, for one of its actions and within its constraints. */
  ghost predicate Admits(p: Plane, use: Op)
    requires use.Use?
  {
    && use.grant in p.grants
    && var g := p.grants[use.grant];
       && g.revokedAt == None
       && g.useCount < g.maxUses
       && p.now < g.expiresAt
       && g.runId in p.runs
       && p.runs[g.runId].epoch == g.epoch
       && p.runs[g.runId].computerId == g.computerId
       && p.runs[g.runId].status != Completed
       && p.runs[g.runId].status != Cancelled
       && p.runs[g.runId].status != Failed
       && (use.onComputer == None || use.onComputer == Some(g.computerId))
       && use.token == g.token
       && use.action in g.actions
       && WithinScope(use.action, g.constraints, use.requested)
  }

  lemma AuthorizesWhatItAdmits(p: Plane, use: Op)
    requires use.Use?
    ensures Authorizes(p, use) <==> Admits(p, use)
  {
    if use.grant in p.grants {
      ScopeIsMet(p.grants[use.grant], use.action, use.requested);
    }
  }

  /** After a grant is issued and whatever happens then, a use of it is authorized exactly when it is stored
      and unrevoked and has been used less often than it was issued for, its time is not over, its run is in
      the epoch and on the computer it was issued for and has not ended, the request comes from that computer
      if it comes from one, with the issued token, for an issued action and within the issued constraints. */
  lemma AuthorizesExactlyWhen(w: World, issue: Op, ops: seq<Op>, use: Op)
    requires Known(w) && Budgeted(w) && Enabled(w, issue) && issue.IssueGrant? && Issues(w.plane, issue)
    requires Possible(Next(w, issue), ops)
    requires use.Use? && use.grant == issue.grant
    ensures
      var issuedOn := w.plane.runs[issue.run];
      var later := After(Next(w, issue), ops);
      var p := later.plane;
      Authorizes(p, use) <==>
      && use.grant in p.grants && p.grants[use.grant].revokedAt == None
      && UsesOf(later.uses, use.grant) < issue.maxUses
      && p.now < w.plane.now + issue.ttl
      && issue.run in p.runs
      && p.runs[issue.run].epoch == issuedOn.epoch
      && p.runs[issue.run].computerId == issuedOn.computerId
      && p.runs[issue.run].status != Completed
      && p.runs[issue.run].status != Cancelled
      && p.runs[issue.run].status != Failed
      && (use.onComputer == None || use.onComputer == Some(issuedOn.computerId))
      && use.token == issue.token
      && use.action in issue.actions
      && WithinScope(use.action, issue.constraints, use.requested)
  {
    var issued := Next(w, issue);
    var terms := IssuedTerms(w.plane, issue);
    KnownStep(w, issue);
    BudgetedStep(w, issue);
    IssuedIsBound(w, issue);
    BoundForGood(issued, ops, use.grant, terms);
    var later := After(issued, ops);
    AuthorizesWhatItAdmits(later.plane, use);
    assert use.grant in later.plane.grants ==>
      WithinBudget(use.grant, later.plane.grants[use.grant], later.uses, later.limits);
  }

  /** An authorized use is counted and dated, and changes nothing else; a refused one changes nothing. */
  lemma UseIsCounted(p: Plane, use: Op)
    requires use.Use?
    ensures Admits(p, use) ==>
      && use.grant in p.grants
      && Step(p, use) == p.(grants := p.grants[use.grant :=
           p.grants[use.grant].(useCount := p.grants[use.grant].useCount + 1, lastUsedAt := Some(p.now))])
    ensures !Admits(p, use) ==> Step(p, use) == p
  {
    AuthorizesWhatItAdmits(p, use);
  }

  // ---------------------------------------------------------------- revocation

  /** A revocation lists exactly the run's unrevoked grants. */
  lemma ListedExactly(p: Plane, run: Id, v: Id)
    ensures
      var after := Step(p, ListForRevoke(run, v));
      && v in after.revocations && after.revocations[v].at == p.now
      && after == p.(revocations := p.revocations[v := after.revocations[v]])
      && (forall g :: g in after.revocations[v].pending <==>
            g in p.grants && p.grants[g].runId == run && p.grants[g].revokedAt == None)
      && (forall g :: g in after.revocations[v].pending ==> after.revocations[v].pending[g] == p.grants[g])
  {
  }

  /** The revocation has still to save its copy of the grant, or the grant is revoked or gone. */
  predicate ListedOrRevoked(w: World, v: Id, g: Id) {
    && v in w.plane.revocations && g in w.used
    && (g in w.plane.revocations[v].pending || (g in w.plane.grants ==> w.plane.grants[g].revokedAt.Some?))
  }

  lemma ListedOrRevokedStep(w: World, op: Op, v: Id, g: Id)
    requires Known(w) && Enabled(w, op) && ListedOrRevoked(w, v, g)
    ensures ListedOrRevoked(Next(w, op), v, g)
  {
    if op == SaveRevoked(v, g) && g in w.plane.revocations[v].pending {
      assert Step(w.plane, op).grants[g].revokedAt == Some(w.plane.revocations[v].at);
    } else {
      ListStays(w, op, v, g);
      RevokedStays(w, op, g);
    }
  }

  lemma ListStays(w: World, op: Op, v: Id, g: Id)
    requires Known(w) && Enabled(w, op) && v in w.plane.revocations
    requires op == SaveRevoked(v, g) ==> g !in w.plane.revocations[v].pending
    ensures v in Step(w.plane, op).revocations
    ensures g in w.plane.revocations[v].pending ==> g in Step(w.plane, op).revocations[v].pending
  {
    if !op.ListForRevoke? && !op.SaveRevoked? {
      RevocationsUntouched(w.plane, op);
    }
  }

  lemma RevokedStays(w: World, op: Op, g: Id)
    requires Known(w) && Enabled(w, op) && g in w.used
    ensures (g in w.plane.grants ==> w.plane.grants[g].revokedAt.Some?) ==>
      (g in Step(w.plane, op).grants ==> Step(w.plane, op).grants[g].revokedAt.Some?)
  {
    if g in Step(w.plane, op).grants {
      if g in w.plane.grants {
        GrantStep(w.plane, op, g);
      } else {
        NewGrantStep(w.plane, op, g);
      }
    }
  }

  lemma {:induction false} ListedOrRevokedAlways(w: World, ops: seq<Op>, v: Id, g: Id)
    requires Known(w) && Possible(w, ops) && ListedOrRevoked(w, v, g)
    ensures Known(After(w, ops)) && ListedOrRevoked(After(w, ops), v, g)
    decreases |ops|
  {
    if ops != [] {
      KnownStep(w, ops[0]);
      ListedOrRevokedStep(w, ops[0], v, g);
      ListedOrRevokedAlways(Next(w, ops[0]), ops[1..], v, g);
    }
  }

  /** Once a revocation has saved a grant it listed, whatever comes between and after, no use of the grant
      is authorized again. */
  lemma RevocationIsFinal(w: World, run: Id, v: Id, ops: seq<Op>, rest: seq<Op>, g: Id)
    requires Known(w) && Enabled(w, ListForRevoke(run, v))
    requires g in w.plane.grants && w.plane.grants[g].runId == run
    requires Possible(Next(w, ListForRevoke(run, v)), ops)
    requires
      var saved := After(Next(w, ListForRevoke(run, v)), ops);
      && Possible(saved, rest)
      && (v in saved.plane.revocations ==> g !in saved.plane.revocations[v].pending)
    ensures
      var saved := After(Next(w, ListForRevoke(run, v)), ops);
      UsesOf(After(saved, rest).uses, g) == UsesOf(saved.uses, g)
  {
    var list := ListForRevoke(run, v);
    var listed := Next(w, list);
    KnownStep(w, list);
    ListedExactly(w.plane, run, v);
    ListedOrRevokedAlways(listed, ops, v, g);
    RevokedNeverAuthorizes(After(listed, ops), rest, g);
  }
}
