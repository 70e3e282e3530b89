/** A task's frozen scope: the project snapshot it was created with, the commands that may be
    refreshed on it, and the project sent to a computer. */
module TaskScope {
  import opened Common

  /** `settings` stands for the fields nothing here reads: provider, connector, checkout strategy. */
  datatype Resource =
    | Repository(id: Id, name: string, url: Option<string>, localPath: Option<string>, computer: Option<Id>,
                 branch: Option<string>, settings: string, commands: seq<string>)
    | LocalFolder(id: Id, name: string, path: string, host: Id, commands: seq<string>)

  datatype Project = Project(id: Id, settings: string, resources: seq<Resource>)

  datatype Scope = All | Chosen(ids: seq<Id>)

  datatype Fault = UnknownResource(id: Id) | InvalidProject | NoSnapshot | OtherProject

  datatype Task = Task(project: Option<Id>, snapshot: Option<Project>)

  /** What tells two resources of a project apart, before case folding. */
  function Location(r: Resource): string {
    match r
    case Repository(_, _, url, localPath, _, _, _, _) =>
      if url.Some? then url.value else if localPath.Some? then localPath.value else ""
    case LocalFolder(_, _, path, _, _) => path
  }

  ghost predicate ValidProject(p: Project, fold: string -> string) {
    && 1 <= |p.resources|
    && (forall i, j :: 0 <= i < j < |p.resources| ==> p.resources[i].id != p.resources[j].id)
    && (forall i, j :: 0 <= i < j < |p.resources| ==> fold(Location(p.resources[i])) != fold(Location(p.resources[j])))
  }

  function Find(rs: seq<Resource>, id: Id): (r: Option<Resource>)
    ensures r.Some? ==> r.value in rs && r.value.id == id
    ensures r == None ==> forall i :: 0 <= i < |rs| ==> rs[i].id != id
  {
    if rs == [] then None else if rs[0].id == id then Some(rs[0]) else Find(rs[1..], id)
  }

  function Pick(rs: seq<Resource>, ids: seq<Id>): Result<seq<Resource>, Fault> {
    if ids == [] then Ok([]) else
    match Find(rs, ids[0])
    case None => Err(UnknownResource(ids[0]))
    case Some(r) =>
      var rest :- Pick(rs, ids[1..]);
      Ok([r] + rest)
  }

  function Scoped(p: Project, scope: Scope): Result<seq<Resource>, Fault> {
    if scope.All? then Ok(p.resources) else Pick(p.resources, scope.ids)
  }

  // ---- Creation ----

  /** The snapshot a new task gets is a valid project. */
  ghost predicate Creatable(p: Project, scope: Scope, fold: string -> string) {
    Scoped(p, scope).Ok? && ValidProject(p.(resources := Scoped(p, scope).value), fold)
  }

  lemma {:induction false} PickExact(rs: seq<Resource>, ids: seq<Id>)
    ensures Pick(rs, ids).Ok? <==> forall id :: id in ids ==> Find(rs, id).Some?
    ensures Pick(rs, ids).Ok? ==> |Pick(rs, ids).value| == |ids|
    ensures Pick(rs, ids).Ok? ==> forall i :: 0 <= i < |ids| ==>
      Pick(rs, ids).value[i].id == ids[i] && Pick(rs, ids).value[i] in rs
    decreases |ids|
  {
    if ids != [] {
      PickExact(rs, ids[1..]);
      assert ids[0] in ids && forall id :: id in ids <==> id == ids[0] || id in ids[1..];
    }
  }

  /** A task can be created on a valid project exactly when every chosen resource exists, some
      resource is chosen and none twice; it then reaches just those, as they are in the project. */
  lemma CreatableWhen(p: Project, ids: seq<Id>, fold: string -> string)
    requires ValidProject(p, fold)
    ensures Creatable(p, Chosen(ids), fold) <==>
      && ids != [] && (forall id :: id in ids ==> Find(p.resources, id).Some?)
      && forall i, j :: 0 <= i < j < |ids| ==> ids[i] != ids[j]
  {
    PickExact(p.resources, ids);
    if Pick(p.resources, ids).Ok? {
      var picked := Pick(p.resources, ids).value;
      assert forall i :: 0 <= i < |ids| ==> picked[i].id == ids[i];
      forall i, j | 0 <= i < j < |ids| && ids[i] != ids[j]
        ensures fold(Location(picked[i])) != fold(Location(picked[j]))
      {
        Apart(p, picked[i], picked[j], fold);
      }
    }
  }

  lemma Apart(p: Project, x: Resource, y: Resource, fold: string -> string)
    requires ValidProject(p, fold) && x in p.resources && y in p.resources && x.id != y.id
    ensures fold(Location(x)) != fold(Location(y))
  {
    var a :| 0 <= a < |p.resources| && p.resources[a] == x;
    var b :| 0 <= b < |p.resources| && p.resources[b] == y;
    assert a < b || b < a;
  }

  // ---- Refreshing commands ----

  function Refreshed(r: Resource, live: seq<Resource>): Resource {
    match Find(live, r.id)
    case None => r
    case Some(now) => r.(commands := now.commands)
  }

  function RefreshAll(rs: seq<Resource>, live: seq<Resource>): (out: seq<Resource>)
    ensures |out| == |rs| && forall i :: 0 <= i < |rs| ==> out[i] == Refreshed(rs[i], live)
  {
    if rs == [] then [] else [Refreshed(rs[0], live)] + RefreshAll(rs[1..], live)
  }

  function Refresh(t: Task, live: Project): Result<Task, Fault> {
    if t.snapshot == None then Err(NoSnapshot)
    else if t.project != Some(live.id) then Err(OtherProject)
    else
      var was := t.snapshot.value;
      Ok(t.(snapshot := Some(was.(resources := RefreshAll(was.resources, live.resources)))))
  }

  /** A sequence of refreshes, each with whatever the project is at the time; a refused one changes nothing. */
  function Refreshes(t: Task, lives: seq<Project>): Task
    decreases |lives|
  {
    if lives == [] then t
    else Refreshes(if Refresh(t, lives[0]).Ok? then Refresh(t, lives[0]).value else t, lives[1..])
  }

  /** The commands a resource ends up with: those of the last refresh that knows the resource. */
  function LatestCommands(r: Resource, project: Option<Id>, lives: seq<Project>): seq<string>
    decreases |lives|
  {
    if lives == [] then r.commands else
    var last := lives[|lives| - 1];
    if project == Some(last.id) && Find(last.resources, r.id).Some? then Find(last.resources, r.id).value.commands
    else LatestCommands(r, project, lives[..|lives| - 1])
  }

  lemma LatestAfterFirst(r: Resource, project: Option<Id>, lives: seq<Project>)
    requires lives != []
    ensures
      var first := if project == Some(lives[0].id) then Refreshed(r, lives[0].resources) else r;
      LatestCommands(r, project, lives) == LatestCommands(first, project, lives[1..])
    decreases |lives|
  {
    if |lives| > 1 {
      var last := lives[|lives| - 1];
      assert lives[1..][|lives| - 2] == last;
      if !(project == Some(last.id) && Find(last.resources, r.id).Some?) {
        var shorter := lives[..|lives| - 1];
        LatestAfterFirst(r, project, shorter);
        assert lives[1..][..|lives| - 2] == shorter[1..];
      }
    } else {
      assert lives[..0] == [] && lives[1..] == [];
    }
  }

  /** Through any number of refreshes a task's resources stay the same in number and order, and
      each keeps everything but its commands, which are those of the last project that had it.
      The snapshot stays valid, and the project's other settings are untouched. */
  lemma ScopeIsFrozen(t: Task, lives: seq<Project>, fold: string -> string)
    requires t.snapshot.Some?
    ensures Frozen(t, Refreshes(t, lives), lives)
    ensures ValidProject(t.snapshot.value, fold) <==> ValidProject(Refreshes(t, lives).snapshot.value, fold)
  {
    FrozenAlways(t, lives);
    SameValidity(t.snapshot.value, Refreshes(t, lives).snapshot.value, fold);
  }

  ghost predicate Frozen(t: Task, r: Task, lives: seq<Project>)
    requires t.snapshot.Some?
  {
    && r.project == t.project && r.snapshot.Some?
    && r.snapshot.value == t.snapshot.value.(resources := r.snapshot.value.resources)
    && |r.snapshot.value.resources| == |t.snapshot.value.resources|
    && forall i :: 0 <= i < |t.snapshot.value.resources| ==>
         var was := t.snapshot.value.resources[i];
         r.snapshot.value.resources[i] == was.(commands := LatestCommands(was, t.project, lives))
  }

  lemma {:induction false} FrozenAlways(t: Task, lives: seq<Project>)
    requires t.snapshot.Some?
    ensures Frozen(t, Refreshes(t, lives), lives)
    decreases |lives|
  {
    if lives != [] {
      var next := if Refresh(t, lives[0]).Ok? then Refresh(t, lives[0]).value else t;
      FrozenAlways(next, lives[1..]);
      var r := Refreshes(t, lives);
      assert r == Refreshes(next, lives[1..]);
      forall i | 0 <= i < |t.snapshot.value.resources|
        ensures
          var was := t.snapshot.value.resources[i];
          r.snapshot.value.resources[i] == was.(commands := LatestCommands(was, t.project, lives))
      {
        LatestAfterFirst(t.snapshot.value.resources[i], t.project, lives);
      }
    }
  }

  lemma SameValidity(a: Project, b: Project, fold: string -> string)
    requires |a.resources| == |b.resources|
    requires forall i :: 0 <= i < |a.resources| ==>
      a.resources[i].id == b.resources[i].id && Location(a.resources[i]) == Location(b.resources[i])
    ensures ValidProject(a, fold) <==> ValidProject(b, fold)
  {
  }

  // ---- The project a computer gets ----

  predicate ClearedFor(r: Resource, computer: Id) {
    r.Repository? && r.url.Some? && r.computer != Some(computer)
  }

  function ForComputer(r: Resource, computer: Id): Resource {
    if ClearedFor(r, computer) then r.(localPath := None, computer := None) else r
  }

  function Sent(rs: seq<Resource>, computer: Id): (out: seq<Resource>)
    ensures |out| == |rs| && forall i :: 0 <= i < |rs| ==> out[i] == ForComputer(rs[i], computer)
  {
    if rs == [] then [] else [ForComputer(rs[0], computer)] + Sent(rs[1..], computer)
  }

  function RuntimeProject(p: Project, computer: Id): Project {
    p.(resources := Sent(p.resources, computer))
  }

  predicate Eligible(r: Resource, computer: Id, localFolders: bool, git: bool) {
    match r
    case LocalFolder(_, _, _, host, _) => localFolders && host == computer
    case Repository(_, _, url, _, on, _, _, _) => git && (url.Some? || on == Some(computer))
  }

  /** Whatever refreshes came before, the project sent to a computer is valid and differs from the
      one frozen at creation only in commands and in the cleared path and computer of a repository
      that can be cloned from its URL; no computer gains or loses access to a resource. */
  lemma SentScopeIsFrozen(t: Task, lives: seq<Project>, computer: Id, fold: string -> string, i: nat,
      localFolders: bool, git: bool)
    requires t.snapshot.Some? && i < |t.snapshot.value.resources|
    ensures Refreshes(t, lives).snapshot.Some?
    ensures
      var sent := RuntimeProject(Refreshes(t, lives).snapshot.value, computer);
      var was := t.snapshot.value.resources[i];
      && |sent.resources| == |t.snapshot.value.resources|
      && sent == t.snapshot.value.(resources := sent.resources)
      && (ValidProject(t.snapshot.value, fold) <==> ValidProject(sent, fold))
      && (var kept := was.(commands := LatestCommands(was, t.project, lives));
          sent.resources[i] == if was.Repository? && was.url.Some? && was.computer != Some(computer)
                               then kept.(localPath := None, computer := None) else kept)
      && (Eligible(sent.resources[i], computer, localFolders, git) <==>
            if was.LocalFolder? then localFolders && was.host == computer
            else git && (was.url.Some? || was.computer == Some(computer)))
  {
    ScopeIsFrozen(t, lives, fold);
    var now := Refreshes(t, lives).snapshot.value;
    SameValidity(now, RuntimeProject(now, computer), fold);
  }

  /** A task as the service updates it. */
  class CodeTask {
    var state: Task

    /** Copy the project's current commands onto the frozen resources. */
    method RefreshCommands(live: Project) returns (r: Result<bool, Fault>)
      modifies this
      ensures r.Ok? ==> Refresh(old(state), live) == Ok(state)
      ensures r.Err? ==> Refresh(old(state), live) == Err(r.error) && state == old(state)
    {
      if state.snapshot == None {
        return Err(NoSnapshot);
      }
      if state.project != Some(live.id) {
        return Err(OtherProject);
      }
      var frozen := state.snapshot.value.resources;
      var resources: seq<Resource> := [];
      for i := 0 to |frozen|
        invariant |resources| == i && forall j :: 0 <= j < i ==> resources[j] == Refreshed(frozen[j], live.resources)
      {
        var found := Find(live.resources, frozen[i].id);
        resources := resources + [if found.Some? then frozen[i].(commands := found.value.commands) else frozen[i]];
      }
      assert resources == RefreshAll(frozen, live.resources);
      state := state.(snapshot := Some(state.snapshot.value.(resources := resources)));
      return Ok(true);
    }
  }
}
