/** What a handoff delivers and what a rollback restores, for every three folders. */
module Handoff {
  import opened Common
  import opened FileTree
  import opened LocalCopy

  ghost predicate Inputs(before: Tree, source: Tree, task: Tree) {
    Wellformed(source) && IsManifest(before) && IsManifest(task)
  }

  function Only(manifest: Tree, changed: set<Path>): Tree {
    manifest - (manifest.Keys - changed)
  }

  /** The changed paths that are files in a version: those its update writes. */
  function Written(manifest: Tree, changed: set<Path>): set<Path> {
    set p | p in changed && p in manifest && manifest[p].File?
  }

  /** The temporary name of each file the handoff writes is free for it: the handoff installs nothing at
      or below that name before the file, and if the source has something there, it is itself a changed
      path, which the handoff removes, or a file it installs anew later. */
  ghost predicate TempFree(source: Tree, task: Tree, changed: set<Path>, installed: seq<Path>)
    requires Installable(installed, task)
  {
    forall j :: 0 <= j < |installed| && task[installed[j]].File? ==>
      var temp := Temp(installed[j]);
      && (forall i :: 0 <= i < j ==> !AtOrBelow(installed[i], temp))
      && (temp in source ==> temp in changed && (temp !in task || source[temp].File?))
  }

  /** What a handoff leaves of the source: everything that is not at or below a changed path. */
  ghost function Survivors(source: Tree, changed: set<Path>): Tree {
    Kept(source, changed) - set q | q in source && Doomed(q, changed)
  }

  ghost function SceneOf(source: Tree, changed: set<Path>, writes: set<Path>): Scene {
    Scene(Survivors(source, changed), changed, writes)
  }

  /** At a changed path the source holds exactly what the baseline holds. */
  lemma ChangedPathAgrees(before: Tree, source: Tree, task: Tree, p: Path)
    requires Inputs(before, source, task) && PreflightOk(before, source, task) && p in Changed(before, task)
    ensures Leaf(source, p) <==> p in before
    ensures p in before ==> source[p] == before[p]
  {
  }

  /** What the source has at such a temporary name goes away with the deleted paths, or is a file. */
  lemma TempIsFile(before: Tree, source: Tree, task: Tree, removed: seq<Path>, installed: seq<Path>, j: nat)
    requires Inputs(before, source, task) && PreflightOk(before, source, task)
    requires Installable(installed, task) && TempFree(source, task, Changed(before, task), installed)
    requires j < |installed| && task[installed[j]].File? && Temp(installed[j]) in source
    ensures var temp := Temp(installed[j]);
      temp in Changed(before, task) && Leaf(source, temp) && (temp in task ==> source[temp].File?)
  {
    ChangedPathAgrees(before, source, task, Temp(installed[j]));
  }

  lemma TempFreeFits(before: Tree, source: Tree, task: Tree, removed: seq<Path>, installed: seq<Path>)
    requires Inputs(before, source, task) && PreflightOk(before, source, task)
    requires Orders(Changed(before, task), task, removed, installed)
    requires TempFree(source, task, Changed(before, task), installed)
    requires RemoveAll(source, removed).Ok?
    ensures Fits(RemoveAll(source, removed).value, installed, Survivors(source, Changed(before, task)), task)
  {
    RemovalOutcome(source, removed);
    var cleared := RemoveAll(source, removed).value;
    forall j | 0 <= j < |installed| && task[installed[j]].File? && Temp(installed[j]) in cleared
      ensures cleared[Temp(installed[j])].File? && Temp(installed[j]) !in Survivors(source, Changed(before, task))
    {
      TempIsFile(before, source, task, removed, installed, j);
      assert AtOrBelow(Temp(installed[j]), Temp(installed[j]));
    }
  }

  /** The source is a folder between its two versions, and its deleted paths can be reached. */
  lemma SourceIsBetween(before: Tree, source: Tree, task: Tree, writes: set<Path>)
    requires Inputs(before, source, task) && PreflightOk(before, source, task) && writes <= Changed(before, task)
    ensures
      var c := SceneOf(source, Changed(before, task), writes);
      Sane(c) && Between(source, c) && Reachable(source, c.changed, task)
  {
    var c := SceneOf(source, Changed(before, task), writes);
    forall q, p | q in c.kept && p in c.changed ensures !AtOrBelow(q, p) {
      assert !Doomed(q, c.changed);
    }
  }

  // ---- Steps that succeed ----

  lemma {:induction false} RemovalOutcome(t: Tree, ps: seq<Path>)
    requires Wellformed(t) && [] !in ps && RemoveAll(t, ps).Ok?
    ensures
      var r := RemoveAll(t, ps).value;
      && Wellformed(r)
      && (forall q :: q in r <==> q in t && forall p :: p in ps ==> !AtOrBelow(q, p))
      && (forall q :: q in r ==> r[q] == t[q])
    decreases |ps|
  {
    if ps != [] {
      assert ps[0] in ps;
      RemoveOneExact(t, ps[0]);
      WithoutKeeps(t, ps[0]);
      RemovalOutcome(Without(t, ps[0]), ps[1..]);
      assert forall p :: p in ps <==> p == ps[0] || p in ps[1..];
    }
  }

  /** Installing other paths leaves `x` as it is. */
  lemma {:induction false} OthersLeave(t: Tree, ps: seq<Path>, desired: Tree, x: Path)
    requires Wellformed(t) && IsManifest(desired) && Installable(ps, desired) && InstallAll(t, ps, desired).Ok?
    requires forall i :: 0 <= i < |ps| ==> Elsewhere(x, ps[i], desired[ps[i]])
    ensures
      var r := InstallAll(t, ps, desired).value;
      (x in r <==> x in t) && (x in t ==> r[x] == t[x])
    decreases |ps|
  {
    if ps != [] {
      InstallSettles(t, ps[0], desired[ps[0]]);
      OthersLeave(InstallOne(t, ps[0], desired[ps[0]]).value, ps[1..], desired, x);
    }
  }

  lemma {:induction false} InstalledWellformed(t: Tree, ps: seq<Path>, desired: Tree)
    requires Wellformed(t) && IsManifest(desired) && Installable(ps, desired) && InstallAll(t, ps, desired).Ok?
    ensures Wellformed(InstallAll(t, ps, desired).value)
    decreases |ps|
  {
    if ps != [] {
      InstallSettles(t, ps[0], desired[ps[0]]);
      InstalledWellformed(InstallOne(t, ps[0], desired[ps[0]]).value, ps[1..], desired);
    }
  }

  /** An entry in the way of one of the paths makes the installation fail. */
  lemma {:induction false} ObstructedFails(t: Tree, ps: seq<Path>, desired: Tree, q: Path, p: Path)
    requires Wellformed(t) && IsManifest(desired) && Installable(ps, desired)
    requires Leaf(t, q) && Above(q, p) && p in ps
    requires forall i :: 0 <= i < |ps| ==> !AtOrBelow(q, ps[i]) && (desired[ps[i]].File? ==> !AtOrBelow(q, Temp(ps[i])))
    ensures InstallAll(t, ps, desired).Err?
    decreases |ps|
  {
    var first := ps[0];
    if Above(q, first) {
      LeafBlocks(t, first, desired[first], q);
    } else if InstallOne(t, first, desired[first]).Ok? {
      InstallSettles(t, first, desired[first]);
      assert Elsewhere(q, first, desired[first]);
      ObstructedFails(InstallOne(t, first, desired[first]).value, ps[1..], desired, q, p);
    }
  }

  // ---- What a handoff leaves ----

  /** Nothing the source keeps lies above a changed path. */
  ghost predicate Unobstructed(kept: Tree, changed: set<Path>) {
    forall q, p :: q in kept && p in changed ==> !Above(q, p)
  }

  /** A kept entry above a changed path is in the way of something the task adds, and stays so. */
  lemma ObstructedHandoffFails(before: Tree, source: Tree, task: Tree, removed: seq<Path>, installed: seq<Path>,
      q: Path, p: Path)
    requires Inputs(before, source, task) && PreflightOk(before, source, task) && [] !in removed
    requires Installable(installed, task) && TempFree(source, task, Changed(before, task), installed)
    requires forall x :: x in removed ==> x in Changed(before, task) && x !in task
    requires forall x :: x in installed ==> x in Changed(before, task)
    requires q in Kept(source, Changed(before, task)) && p in installed && Above(q, p)
    ensures Replace(source, task, removed, installed).Err?
  {
    if RemoveAll(source, removed).Ok? {
      RemovalOutcome(source, removed);
      var cleared := RemoveAll(source, removed).value;
      forall x | x in removed ensures !AtOrBelow(q, x) {
        ChangedPathAgrees(before, source, task, x);
      }
      assert Leaf(cleared, q);
      forall i | 0 <= i < |installed|
        ensures !AtOrBelow(q, installed[i]) && (task[installed[i]].File? ==> !AtOrBelow(q, Temp(installed[i])))
      {
        NotBelowInstalled(before, source, task, removed, installed, q, p, i);
      }
      ObstructedFails(cleared, installed, task, q, p);
    }
  }

  lemma NotBelowInstalled(before: Tree, source: Tree, task: Tree, removed: seq<Path>, installed: seq<Path>, q: Path,
      p: Path, i: nat)
    requires Inputs(before, source, task) && PreflightOk(before, source, task)
    requires Installable(installed, task) && TempFree(source, task, Changed(before, task), installed)
    requires q in Kept(source, Changed(before, task)) && Above(q, p) && p in task
    requires i < |installed| && installed[i] in Changed(before, task)
    ensures !AtOrBelow(q, installed[i]) && (task[installed[i]].File? ==> !AtOrBelow(q, Temp(installed[i])))
  {
    var x := installed[i];
    if Above(x, q) {
      AboveTransitive(x, q, p);
    }
    if task[x].File? && Temp(x) in source {
      TempIsFile(before, source, task, removed, installed, i);
    }
  }

  /** After a passed preflight, and with every temporary name free, the handoff succeeds if and only if
      nothing kept is in the way of an added path, and then the source is exactly the task's version of
      the changed paths and everything of its own that was not below one of them. */
  lemma HandoffOutcome(before: Tree, source: Tree, task: Tree, removed: seq<Path>, installed: seq<Path>)
    requires Inputs(before, source, task) && PreflightOk(before, source, task)
    requires Orders(Changed(before, task), task, removed, installed)
    requires TempFree(source, task, Changed(before, task), installed)
    ensures Replace(source, task, removed, installed).Ok? <==>
      Unobstructed(Kept(source, Changed(before, task)), Changed(before, task))
    ensures Replace(source, task, removed, installed).Ok? ==>
      Leaves(Replace(source, task, removed, installed).value)
      == Survivors(source, Changed(before, task)) + Only(task, Changed(before, task))
  {
    var changed := Changed(before, task);
    var kept := Kept(source, changed);
    if Unobstructed(kept, changed) {
      UnobstructedIsDelivered(before, source, task, removed, installed);
    } else {
      var q, p :| q in kept && p in changed && Above(q, p);
      ChangedPathAgrees(before, source, task, p);
      assert p in task;
      ObstructedHandoffFails(before, source, task, removed, installed, q, p);
    }
  }

  lemma UnobstructedIsDelivered(before: Tree, source: Tree, task: Tree, removed: seq<Path>, installed: seq<Path>)
    requires Inputs(before, source, task) && PreflightOk(before, source, task)
    requires Orders(Changed(before, task), task, removed, installed)
    requires TempFree(source, task, Changed(before, task), installed)
    requires Unobstructed(Kept(source, Changed(before, task)), Changed(before, task))
    ensures Replace(source, task, removed, installed).Ok?
    ensures Leaves(Replace(source, task, removed, installed).value)
      == Survivors(source, Changed(before, task)) + Only(task, Changed(before, task))
  {
    var changed := Changed(before, task);
    var c := SceneOf(source, changed, {});
    SourceIsBetween(before, source, task, {});
    assert Open(c.kept, installed);
    if RemoveAll(source, removed).Ok? {
      TempFreeFits(before, source, task, removed, installed);
    }
    ReplaceExact(source, c, task, removed, installed);
    UpdatedLeaves(source, Replace(source, task, removed, installed).value, changed, {}, task);
  }

  /** An update of a folder without temporary files gives exactly what survives and what is desired. */
  lemma UpdatedLeaves(t: Tree, r: Tree, changed: set<Path>, writes: set<Path>, desired: Tree)
    requires Updated(t, r, SceneOf(t, changed, writes), desired)
    ensures Leaves(r) == Survivors(t, changed) + Only(desired, changed)
  {
    var all := Survivors(t, changed) + Only(desired, changed);
    forall q ensures q in Leaves(r) <==> q in all {
      assert q in Leaves(r) <==> Leaf(r, q);
    }
    forall q | q in all ensures Leaves(r)[q] == all[q] {
    }
  }

  // ---- When a handoff does what it says ----

  /** The handoff succeeds, the changed paths are the task's and everything else is kept. */
  ghost predicate Exact(before: Tree, source: Tree, task: Tree, removed: seq<Path>, installed: seq<Path>)
    requires Orders(Changed(before, task), task, removed, installed)
  {
    var changed := Changed(before, task);
    var out := Replace(source, task, removed, installed);
    out.Ok? && Leaves(out.value) == Kept(source, changed) + Only(task, changed)
  }

  /** `q` holds `value`. */
  predicate Has(t: Tree, q: Path, value: Node) {
    q in t && t[q] == value
  }

  /** An entry that is lost or wrong stays so, as long as it is not installed. */
  lemma {:induction false} StaysWrong(t: Tree, ps: seq<Path>, desired: Tree, q: Path, value: Node)
    requires Wellformed(t) && IsManifest(desired) && Installable(ps, desired) && InstallAll(t, ps, desired).Ok?
    requires forall i :: 0 <= i < |ps| ==> ps[i] != q && !Above(ps[i], q)
    requires !Has(t, q, value) && !value.Dir?
    ensures !Has(InstallAll(t, ps, desired).value, q, value)
    decreases |ps|
  {
    if ps != [] {
      WrongStep(t, ps[0], desired[ps[0]], q, value);
      InstallSettles(t, ps[0], desired[ps[0]]);
      StaysWrong(InstallOne(t, ps[0], desired[ps[0]]).value, ps[1..], desired, q, value);
    }
  }

  lemma WrongStep(t: Tree, p: Path, node: Node, q: Path, value: Node)
    requires Wellformed(t) && p != [] && (node.File? || node.Link?) && InstallOne(t, p, node).Ok?
    requires p != q && !Above(p, q) && !Has(t, q, value) && !value.Dir?
    ensures !Has(InstallOne(t, p, node).value, q, value)
  {
    InstallSettles(t, p, node);
    var r := InstallOne(t, p, node).value;
    if Elsewhere(q, p, node) {
      assert q in r <==> q in t;
    } else if Above(q, p) {
      assert r[q].Dir?;
    }
  }

  /** The installation at place `j`: what comes before it, itself, and what comes after. */
  lemma {:induction false} InstallSplit(t: Tree, ps: seq<Path>, desired: Tree, j: nat)
    requires Wellformed(t) && IsManifest(desired) && Installable(ps, desired) && InstallAll(t, ps, desired).Ok?
    requires j < |ps|
    ensures InstallAll(t, ps[..j], desired).Ok?
    ensures
      var mid := InstallAll(t, ps[..j], desired).value;
      && Wellformed(mid) && InstallOne(mid, ps[j], desired[ps[j]]).Ok?
      && InstallAll(InstallOne(mid, ps[j], desired[ps[j]]).value, ps[j + 1..], desired) == InstallAll(t, ps, desired)
    decreases j
  {
    if j > 0 {
      InstallSettles(t, ps[0], desired[ps[0]]);
      InstallSplit(InstallOne(t, ps[0], desired[ps[0]]).value, ps[1..], desired, j - 1);
      assert ps[..j][1..] == ps[1..][..j - 1] && ps[1..][j..] == ps[j + 1..];
    }
  }

  /** What is at or below the temporary name of a file is lost when the file is installed. */
  lemma UsedUp(t: Tree, ps: seq<Path>, desired: Tree, j: nat, q: Path, value: Node)
    requires Wellformed(t) && IsManifest(desired) && Installable(ps, desired) && InstallAll(t, ps, desired).Ok?
    requires j < |ps| && desired[ps[j]].File? && AtOrBelow(q, Temp(ps[j])) && !value.Dir?
    requires forall i :: j < i < |ps| ==> ps[i] != q && !Above(ps[i], q)
    ensures !Has(InstallAll(t, ps, desired).value, q, value)
  {
    InstallSplit(t, ps, desired, j);
    var mid := InstallAll(t, ps[..j], desired).value;
    InstallSettles(mid, ps[j], desired[ps[j]]);
    var next := InstallOne(mid, ps[j], desired[ps[j]]).value;
    assert q !in next;
    var rest := ps[j + 1..];
    forall i | 0 <= i < |rest| ensures rest[i] != q && !Above(rest[i], q) {
      assert rest[i] == ps[j + 1 + i];
    }
    StaysWrong(next, rest, desired, q, value);
  }

  ghost predicate EachOnce(ps: seq<Path>) {
    forall i, j :: 0 <= i < j < |ps| ==> ps[i] != ps[j]
  }

  /** A file whose temporary name is a directory or a link when it is installed does not arrive. */
  lemma TempSpoils(t: Tree, ps: seq<Path>, desired: Tree)
    requires Wellformed(t) && IsManifest(desired) && Installable(ps, desired) && EachOnce(ps)
    requires InstallAll(t, ps, desired).Ok?
    requires ps != [] && desired[ps[0]].File? && Temp(ps[0]) in t && !t[Temp(ps[0])].File?
    ensures !Has(InstallAll(t, ps, desired).value, ps[0], desired[ps[0]])
  {
    var p := ps[0];
    InstallSettles(t, p, desired[p]);
    StaysWrong(InstallOne(t, p, desired[p]).value, ps[1..], desired, p, desired[p]);
  }

  /** If a temporary name is a directory or a link from the start, that file or an earlier one does not arrive. */
  lemma {:induction false} SomethingSpoils(t: Tree, ps: seq<Path>, desired: Tree, j: nat) returns (x: Path)
    requires Wellformed(t) && IsManifest(desired) && Installable(ps, desired) && EachOnce(ps)
    requires InstallAll(t, ps, desired).Ok?
    requires j < |ps| && desired[ps[j]].File? && Temp(ps[j]) in t && !t[Temp(ps[j])].File?
    requires forall i :: 0 <= i < j ==> !AtOrBelow(ps[i], Temp(ps[j]))
    ensures x in ps && !Has(InstallAll(t, ps, desired).value, x, desired[x])
    decreases j
  {
    var first, temp := ps[0], Temp(ps[j]);
    if desired[first].File? && Temp(first) in t && !t[Temp(first)].File? {
      TempSpoils(t, ps, desired);
      x := first;
    } else {
      InstallSettles(t, first, desired[first]);
      TempStays(t, first, desired, ps[j]);
      var next := InstallOne(t, first, desired[first]).value;
      assert ps[1..][j - 1] == ps[j];
      x := SomethingSpoils(next, ps[1..], desired, j - 1);
    }
  }

  lemma TempStays(t: Tree, first: Path, desired: Tree, p: Path)
    requires Wellformed(t) && IsManifest(desired) && first in desired && p in desired && first != p && first != []
    requires p != []
    requires !AtOrBelow(first, Temp(p)) && Temp(p) in t
    requires desired[first].File? && Temp(first) in t ==> t[Temp(first)].File?
    ensures Elsewhere(Temp(p), first, desired[first])
  {
    AboveTemp(first, p);
    if Temp(p) == Temp(first) {
      TempInjective(p, first);
    }
  }

  /** After a passed preflight a handoff is exact if and only if no kept entry is above or below a
      changed path and the temporary name of every file it writes is free. */
  lemma HandoffIsExactlyWhen(before: Tree, source: Tree, task: Tree, removed: seq<Path>, installed: seq<Path>)
    requires Inputs(before, source, task) && PreflightOk(before, source, task)
    requires Orders(Changed(before, task), task, removed, installed)
    ensures Exact(before, source, task, removed, installed) <==>
      && Apart(Kept(source, Changed(before, task)), Changed(before, task))
      && TempFree(source, task, Changed(before, task), installed)
  {
    var changed := Changed(before, task);
    var kept := Kept(source, changed);
    if Apart(kept, changed) && TempFree(source, task, changed, installed) {
      ApartIsExact(before, source, task, removed, installed);
    }
    if Exact(before, source, task, removed, installed) {
      forall q, p | q in kept && p in changed ensures !Above(q, p) && !AtOrBelow(q, p) {
        ExactIsApart(before, source, task, removed, installed, q, p);
      }
      ExactIsTempFree(before, source, task, removed, installed);
    }
  }

  lemma ApartIsExact(before: Tree, source: Tree, task: Tree, removed: seq<Path>, installed: seq<Path>)
    requires Inputs(before, source, task) && PreflightOk(before, source, task)
    requires Orders(Changed(before, task), task, removed, installed)
    requires Apart(Kept(source, Changed(before, task)), Changed(before, task))
    requires TempFree(source, task, Changed(before, task), installed)
    ensures Exact(before, source, task, removed, installed)
  {
    UnobstructedIsDelivered(before, source, task, removed, installed);
    EverythingSurvives(source, Changed(before, task));
  }

  lemma EverythingSurvives(source: Tree, changed: set<Path>)
    requires Apart(Kept(source, changed), changed)
    ensures Survivors(source, changed) == Kept(source, changed)
  {
    assert forall q :: q in Kept(source, changed) ==> !Doomed(q, changed);
  }

  lemma ExactIsApart(before: Tree, source: Tree, task: Tree, removed: seq<Path>, installed: seq<Path>, q: Path, p: Path)
    requires Inputs(before, source, task) && PreflightOk(before, source, task)
    requires Orders(Changed(before, task), task, removed, installed) && Exact(before, source, task, removed, installed)
    requires q in Kept(source, Changed(before, task)) && p in Changed(before, task)
    ensures !Above(q, p) && !AtOrBelow(q, p)
  {
    var r := Replace(source, task, removed, installed).value;
    RemovalOutcome(source, removed);
    InstalledWellformed(RemoveAll(source, removed).value, installed, task);
    assert q in Leaves(r) && Leaf(r, q);
    if p in task {
      assert p in Leaves(r) && Leaf(r, p);
    } else {
      ChangedPathAgrees(before, source, task, p);
    }
  }

  /** In an exact handoff every installed path arrives, and every kept entry stays. */
  lemma ExactHas(before: Tree, source: Tree, task: Tree, removed: seq<Path>, installed: seq<Path>, q: Path)
    requires Inputs(before, source, task)
    requires Orders(Changed(before, task), task, removed, installed) && Exact(before, source, task, removed, installed)
    ensures q in installed ==> Has(Replace(source, task, removed, installed).value, q, task[q])
    ensures q in Kept(source, Changed(before, task)) ==>
      Has(Replace(source, task, removed, installed).value, q, source[q])
  {
    var r := Replace(source, task, removed, installed).value;
    if q in installed || q in Kept(source, Changed(before, task)) {
      assert q in Leaves(r) && r[q] == Leaves(r)[q];
    }
  }

  lemma ExactIsTempFree(before: Tree, source: Tree, task: Tree, removed: seq<Path>, installed: seq<Path>)
    requires Inputs(before, source, task) && PreflightOk(before, source, task)
    requires Orders(Changed(before, task), task, removed, installed) && Exact(before, source, task, removed, installed)
    ensures TempFree(source, task, Changed(before, task), installed)
  {
    forall j | 0 <= j < |installed| && task[installed[j]].File?
      ensures forall i :: 0 <= i < j ==> !AtOrBelow(installed[i], Temp(installed[j]))
      ensures Temp(installed[j]) in source ==>
        Temp(installed[j]) in Changed(before, task) && (Temp(installed[j]) !in task || source[Temp(installed[j])].File?)
    {
      NothingEarlierBelow(before, source, task, removed, installed, j);
      TempNotKept(before, source, task, removed, installed, j);
      TempNotInTheWay(before, source, task, removed, installed, j);
      if Temp(installed[j]) in Changed(before, task) {
        ChangedPathAgrees(before, source, task, Temp(installed[j]));
      }
    }
  }

  /** A path installed at or below the temporary name of a later file would be lost. */
  lemma NothingEarlierBelow(before: Tree, source: Tree, task: Tree, removed: seq<Path>, installed: seq<Path>, j: nat)
    requires Inputs(before, source, task)
    requires Orders(Changed(before, task), task, removed, installed) && Exact(before, source, task, removed, installed)
    requires j < |installed| && task[installed[j]].File?
    ensures forall i :: 0 <= i < j ==> !AtOrBelow(installed[i], Temp(installed[j]))
  {
    forall i | 0 <= i < j ensures !AtOrBelow(installed[i], Temp(installed[j])) {
      if AtOrBelow(installed[i], Temp(installed[j])) {
        RemovalOutcome(source, removed);
        EarlierIsLost(RemoveAll(source, removed).value, installed, task, i, j);
        ExactHas(before, source, task, removed, installed, installed[i]);
      }
    }
  }

  lemma EarlierIsLost(t: Tree, ps: seq<Path>, desired: Tree, i: nat, j: nat)
    requires Wellformed(t) && IsManifest(desired) && Installable(ps, desired) && EachOnce(ps)
    requires InstallAll(t, ps, desired).Ok?
    requires i < j < |ps| && desired[ps[j]].File? && AtOrBelow(ps[i], Temp(ps[j]))
    ensures !Has(InstallAll(t, ps, desired).value, ps[i], desired[ps[i]])
  {
    assert ps[i] in desired;
    forall k | j < k < |ps| ensures ps[k] != ps[i] && !Above(ps[k], ps[i]) {
      assert ps[k] in desired;
    }
    UsedUp(t, ps, desired, j, ps[i], desired[ps[i]]);
  }

  /** A kept entry at the temporary name of a file would be lost. */
  lemma TempNotKept(before: Tree, source: Tree, task: Tree, removed: seq<Path>, installed: seq<Path>, j: nat)
    requires Inputs(before, source, task)
    requires Orders(Changed(before, task), task, removed, installed) && Exact(before, source, task, removed, installed)
    requires j < |installed| && task[installed[j]].File?
    ensures Temp(installed[j]) !in Kept(source, Changed(before, task))
  {
    var temp := Temp(installed[j]);
    if temp in Kept(source, Changed(before, task)) {
      RemovalOutcome(source, removed);
      KeptIsLost(RemoveAll(source, removed).value, installed, task, j, source[temp]);
      ExactHas(before, source, task, removed, installed, temp);
    }
  }

  lemma KeptIsLost(t: Tree, ps: seq<Path>, desired: Tree, j: nat, value: Node)
    requires Wellformed(t) && IsManifest(desired) && Installable(ps, desired) && InstallAll(t, ps, desired).Ok?
    requires j < |ps| && desired[ps[j]].File? && Temp(ps[j]) !in ps && !value.Dir?
    ensures !Has(InstallAll(t, ps, desired).value, Temp(ps[j]), value)
  {
    forall k | j < k < |ps| ensures ps[k] != Temp(ps[j]) && !Above(ps[k], Temp(ps[j])) {
      AboveTemp(ps[k], ps[j]);
      assert ps[k] in desired && ps[k] in ps;
    }
    UsedUp(t, ps, desired, j, Temp(ps[j]), value);
  }

  /** A directory or link at the temporary name would end up in a file's place. */
  lemma TempNotInTheWay(before: Tree, source: Tree, task: Tree, removed: seq<Path>, installed: seq<Path>, j: nat)
    requires Inputs(before, source, task) && PreflightOk(before, source, task)
    requires Orders(Changed(before, task), task, removed, installed) && Exact(before, source, task, removed, installed)
    requires j < |installed| && task[installed[j]].File?
    requires forall i :: 0 <= i < j ==> !AtOrBelow(installed[i], Temp(installed[j]))
    ensures
      var temp := Temp(installed[j]);
      temp in source && !(temp in Changed(before, task) && temp !in task) ==>
        source[temp].File? || temp in Kept(source, Changed(before, task))
  {
    var temp := Temp(installed[j]);
    if temp in source && !source[temp].File? && (source[temp].Dir? || temp in task) {
      RemovalOutcome(source, removed);
      StaysThroughRemovals(before, source, task, removed, temp);
      var x := SomethingSpoils(RemoveAll(source, removed).value, installed, task, j);
      ExactHas(before, source, task, removed, installed, x);
    }
  }

  /** The removals leave directories, and entries the task has. */
  lemma StaysThroughRemovals(before: Tree, source: Tree, task: Tree, removed: seq<Path>, q: Path)
    requires Inputs(before, source, task) && PreflightOk(before, source, task) && RemoveAll(source, removed).Ok?
    requires forall x :: x in removed ==> x in Changed(before, task) && x !in task
    requires q in source && (source[q].Dir? || q in task)
    ensures q in RemoveAll(source, removed).value && RemoveAll(source, removed).value[q] == source[q]
  {
    forall x | x in removed ensures !AtOrBelow(q, x) && x != [] {
      ChangedPathAgrees(before, source, task, x);
    }
    RemovalOutcome(source, removed);
  }
}
