/** What a rollback restores, wherever the handoff stopped. */
module Rollback {
  import opened Common
  import opened FileTree
  import opened LocalCopy
  import opened Handoff

  /** Where an update may be stopped by a failure. */
  datatype Stop = DuringRemoval(k: nat) | DuringInstall(k: nat) | Finished

  /** Part of what is at `p` is gone. */
  ghost predicate RemovalCut(t: Tree, s: Tree, p: Path) {
    && Wellformed(s)
    && (forall q :: q in s ==> q in t && s[q] == t[q])
    && (forall q :: q in t && !AtOrBelow(q, p) ==> q in s)
  }

  /** `q` is the temporary name an installation writes to. */
  predicate WrittenTo(q: Path, p: Path, node: Node)
    requires p != []
  {
    node.File? && q == Temp(p)
  }

  /** Part of what is at `p` is gone, some of its directories are made, its temporary file
      holds anything, or `node` is in place. */
  ghost predicate InstallCut(t: Tree, s: Tree, p: Path, node: Node)
    requires p != []
  {
    && Wellformed(s)
    && (forall q :: q in t && !AtOrBelow(q, p) && !WrittenTo(q, p, node) ==> q in s && s[q] == t[q])
    && (forall q :: Leaf(s, q) && q != p && !WrittenTo(q, p, node) ==> Leaf(t, q) && s[q] == t[q])
    && (Leaf(s, p) ==> s[p] == node || (Leaf(t, p) && s[p] == t[p]))
    && (node.File? && Temp(p) in s ==> s[Temp(p)].File?)
    && (forall q :: q in s && s[q].Dir? ==> (q in t && t[q].Dir?) || Above(q, p))
  }

  /** The update of `t` stopped there, leaving `s`. */
  ghost predicate StoppedAt(t: Tree, desired: Tree, removed: seq<Path>, installed: seq<Path>, stop: Stop, s: Tree)
    requires Installable(installed, desired)
  {
    match stop
    case DuringRemoval(k) =>
      k < |removed| && RemoveAll(t, removed[..k]).Ok? && RemovalCut(RemoveAll(t, removed[..k]).value, s, removed[k])
    case DuringInstall(k) =>
      k < |installed| && Replace(t, desired, removed, installed[..k]).Ok?
      && InstallCut(Replace(t, desired, removed, installed[..k]).value, s, installed[k], desired[installed[k]])
    case Finished =>
      Replace(t, desired, removed, installed) == Ok(s)
  }

  ghost predicate Setup(before: Tree, source: Tree, task: Tree, removed: seq<Path>, installed: seq<Path>) {
    && Inputs(before, source, task) && PreflightOk(before, source, task)
    && Orders(Changed(before, task), task, removed, installed)
    && TempFree(source, task, Changed(before, task), installed)
  }

  /** The temporary name of each file a rollback writes is free for it, wherever the handoff stopped:
      nothing is restored at or below that name before the file; what the source has there is a file
      and a changed path, which the task, if it has it too, has as a file; and the task adds nothing
      below that name. */
  ghost predicate RollbackFree(before: Tree, source: Tree, task: Tree, restored: seq<Path>)
    requires Installable(restored, before)
  {
    forall j :: 0 <= j < |restored| && before[restored[j]].File? ==>
      var temp := Temp(restored[j]);
      && (forall i :: 0 <= i < j ==> !AtOrBelow(restored[i], temp))
      && (temp in source ==> temp in Changed(before, task) && source[temp].File?)
      && (temp in before && temp in task ==> task[temp].File?)
      && (forall x :: x in Changed(before, task) && x in task ==> !Above(temp, x))
  }

  /** What is kept, what changes, and whose temporary files the handoff may leave. */
  ghost function Stage(before: Tree, source: Tree, task: Tree): Scene {
    SceneOf(source, Changed(before, task), Written(task, Changed(before, task)))
  }

  /** A stopped handoff: at every changed path the source's entry, the task's, a temporary file or
      nothing, elsewhere the source's entries and temporary files, and no directories but the source's
      and those above what the task adds. */
  ghost predicate Midway(before: Tree, source: Tree, task: Tree, s: Tree) {
    var c := Stage(before, source, task);
    && Between(s, c)
    && (forall q :: Leaf(s, q) ==>
          || (Leaf(source, q) && s[q] == source[q])
          || (q in c.changed && q in task && s[q] == task[q])
          || (IsTemp(q, c.writes) && s[q].File?))
    && (forall q :: q in s && s[q].Dir? ==>
          (q in source && source[q].Dir?) || exists x :: x in c.changed && x in task && Above(q, x))
  }

  /** The temporary file a stop can leave behind. */
  ghost predicate LeftBehind(task: Tree, installed: seq<Path>, stop: Stop, q: Path)
    requires Installable(installed, task)
  {
    stop.DuringInstall? && stop.k < |installed| && q == Temp(installed[stop.k]) && task[installed[stop.k]].File?
  }

  lemma StageHolds(before: Tree, source: Tree, task: Tree, removed: seq<Path>, installed: seq<Path>)
    requires Setup(before, source, task, removed, installed)
    ensures
      var c := Stage(before, source, task);
      Sane(c) && Between(source, c) && Reachable(source, c.changed, task)
  {
    SourceIsBetween(before, source, task, Written(task, Changed(before, task)));
  }

  /** Paths that were installed had nothing kept above them. */
  lemma InstalledIsOpen(before: Tree, source: Tree, task: Tree, removed: seq<Path>, installed: seq<Path>, k: nat)
    requires Setup(before, source, task, removed, installed) && k <= |installed|
    requires Replace(source, task, removed, installed[..k]).Ok?
    ensures Open(Stage(before, source, task).kept, installed[..k])
  {
    var kept := Stage(before, source, task).kept;
    forall q, p | q in kept && p in installed[..k] ensures !Above(q, p) {
      if Above(q, p) {
        ObstructedHandoffFails(before, source, task, removed, installed[..k], q, p);
      }
    }
  }

  lemma FitsPrefix(t: Tree, ps: seq<Path>, kept: Tree, desired: Tree, k: nat)
    requires Installable(ps, desired) && Fits(t, ps, kept, desired) && k <= |ps|
    ensures Installable(ps[..k], desired) && Fits(t, ps[..k], kept, desired)
  {
  }

  /** A smaller set of possible temporary files says more. */
  lemma MoreTemps(t: Tree, kept: Tree, changed: set<Path>, writes: set<Path>)
    requires Between(t, Scene(kept, changed, {}))
    ensures Between(t, Scene(kept, changed, writes))
  {
  }

  /** The state after any whole number of steps. */
  lemma WholeSteps(before: Tree, source: Tree, task: Tree, removed: seq<Path>, installed: seq<Path>, k: nat)
    requires Setup(before, source, task, removed, installed) && k <= |installed|
    requires Replace(source, task, removed, installed[..k]).Ok?
    ensures
      var s := Replace(source, task, removed, installed[..k]).value;
      && Midway(before, source, task, s)
      && forall q :: Leaf(s, q) && q !in Changed(before, task) ==> Leaf(source, q) && s[q] == source[q]
  {
    var c := SceneOf(source, Changed(before, task), {});
    SourceIsBetween(before, source, task, {});
    InstalledIsOpen(before, source, task, removed, installed, k);
    RemovalsExact(source, removed, c, task);
    var cleared := RemoveAll(source, removed).value;
    assert Gone(cleared, c.changed, task) by {
      assert forall p, x :: p in removed && x in cleared ==> !AtOrBelow(x, p);
    }
    TempFreeFits(before, source, task, removed, installed);
    FitsPrefix(cleared, installed, c.kept, task, k);
    forall p | p in installed[..k] ensures Placeable(p, c, task) {
    }
    InstallsExact(cleared, installed[..k], c, task);
    InstalledIsMidway(before, source, task, cleared, installed[..k], InstallAll(cleared, installed[..k], task).value);
  }

  lemma InstalledIsMidway(before: Tree, source: Tree, task: Tree, cleared: Tree, ps: seq<Path>, s: Tree)
    requires Installable(ps, task) && forall p :: p in ps ==> p in Changed(before, task) && p in task
    requires forall q :: q in cleared ==> q in source && source[q] == cleared[q]
    requires PartlyInstalled(cleared, s, ps, SceneOf(source, Changed(before, task), {}), task)
    ensures Midway(before, source, task, s)
    ensures forall q :: Leaf(s, q) && q !in Changed(before, task) ==> Leaf(source, q) && s[q] == source[q]
  {
    MoreTemps(s, Survivors(source, Changed(before, task)), Changed(before, task), Written(task, Changed(before, task)));
  }

  lemma StoppedInRemoval(before: Tree, source: Tree, task: Tree, removed: seq<Path>, installed: seq<Path>, k: nat,
      s: Tree)
    requires Setup(before, source, task, removed, installed)
    requires StoppedAt(source, task, removed, installed, DuringRemoval(k), s)
    ensures Midway(before, source, task, s)
    ensures forall q :: Leaf(s, q) ==> Leaf(source, q) && s[q] == source[q]
  {
    var c := Stage(before, source, task);
    StageHolds(before, source, task, removed, installed);
    RemovalsExact(source, removed[..k], c, task);
    RemovalCutIsBetween(RemoveAll(source, removed[..k]).value, s, removed[k], c);
  }

  lemma RemovalCutIsBetween(t: Tree, s: Tree, p: Path, c: Scene)
    requires Between(t, c) && Sane(c) && p in c.changed && RemovalCut(t, s, p)
    ensures Between(s, c)
  {
    forall q | q in c.kept ensures Leaf(s, q) && s[q] == c.kept[q] {
      assert Leaf(t, q) && !AtOrBelow(q, p);
    }
  }

  lemma StoppedInInstall(before: Tree, source: Tree, task: Tree, removed: seq<Path>, installed: seq<Path>, k: nat,
      s: Tree)
    requires Setup(before, source, task, removed, installed)
    requires StoppedAt(source, task, removed, installed, DuringInstall(k), s)
    ensures Midway(before, source, task, s)
    ensures forall q :: Leaf(s, q) && q !in Changed(before, task) ==>
      (Leaf(source, q) && s[q] == source[q]) || LeftBehind(task, installed, DuringInstall(k), q)
  {
    var c, p := Stage(before, source, task), installed[k];
    WholeSteps(before, source, task, removed, installed, k);
    StageHolds(before, source, task, removed, installed);
    assert p in installed;
    if task[p].File? && Temp(p) in source {
      TempIsFile(before, source, task, removed, installed, k);
    }
    CutIsBetween(Replace(source, task, removed, installed[..k]).value, s, p, task[p], c);
    CutIsMidway(before, source, task, Replace(source, task, removed, installed[..k]).value, s, p);
  }

  lemma CutIsMidway(before: Tree, source: Tree, task: Tree, t: Tree, s: Tree, p: Path)
    requires p in Changed(before, task) && p in task && p != [] && InstallCut(t, s, p, task[p])
    requires Midway(before, source, task, t) && Between(s, Stage(before, source, task))
    requires forall q :: Leaf(t, q) && q !in Changed(before, task) ==> Leaf(source, q) && t[q] == source[q]
    ensures Midway(before, source, task, s)
    ensures forall q :: Leaf(s, q) && q !in Changed(before, task) ==>
      (Leaf(source, q) && s[q] == source[q]) || (task[p].File? && q == Temp(p))
  {
    assert task[p].File? ==> IsTemp(Temp(p), Stage(before, source, task).writes);
  }

  lemma CutIsBetween(t: Tree, s: Tree, p: Path, node: Node, c: Scene)
    requires Between(t, c) && Sane(c) && p in c.changed && InstallCut(t, s, p, node)
    requires node.File? ==> p in c.writes && Temp(p) !in c.kept
    ensures Between(s, c)
  {
    forall q | q in c.kept ensures Leaf(s, q) && s[q] == c.kept[q] {
      assert !AtOrBelow(q, p);
    }
  }

  /** However far a handoff got, the paths a rollback deletes can be reached. */
  lemma RollbackReaches(before: Tree, source: Tree, task: Tree, s: Tree)
    requires Inputs(before, source, task) && PreflightOk(before, source, task) && Midway(before, source, task, s)
    ensures Reachable(s, Changed(before, task), before)
  {
    var changed := Changed(before, task);
    forall p | p in changed && p !in before ensures !ThroughLink(s, p) {
      ThroughLinkMeans(s, p);
      ThroughLinkMeans(source, p);
    }
  }

  /** No restored path is below a temporary name the handoff wrote to. */
  lemma RestoredIsUncovered(before: Tree, source: Tree, task: Tree, removed: seq<Path>, installed: seq<Path>,
      restored: seq<Path>)
    requires Setup(before, source, task, removed, installed)
    requires forall p :: p in restored ==> p in Changed(before, task) && p in before
    ensures Uncovered(restored, Stage(before, source, task))
  {
    forall a, p | a in Written(task, Changed(before, task)) && a != [] && p in restored ensures !Above(Temp(a), p) {
      ChangedPathAgrees(before, source, task, p);
      assert a in installed;
      var j :| 0 <= j < |installed| && installed[j] == a;
      if Temp(a) in source {
        TempIsFile(before, source, task, removed, installed, j);
      }
    }
  }

  lemma RollbackFits(before: Tree, source: Tree, task: Tree, s: Tree, undone: seq<Path>, restored: seq<Path>)
    requires Inputs(before, source, task) && Midway(before, source, task, s)
    requires Orders(Changed(before, task), before, undone, restored) && RollbackFree(before, source, task, restored)
    requires RemoveAll(s, undone).Ok?
    ensures Fits(RemoveAll(s, undone).value, restored, Stage(before, source, task).kept, before)
  {
    RemovalOutcome(s, undone);
    var cleared := RemoveAll(s, undone).value;
    forall j | 0 <= j < |restored| && before[restored[j]].File? && Temp(restored[j]) in cleared
      ensures cleared[Temp(restored[j])].File? && Temp(restored[j]) !in Stage(before, source, task).kept
    {
      RestoredTempIsFile(before, source, task, s, undone, restored, j);
    }
  }

  lemma RestoredTempIsFile(before: Tree, source: Tree, task: Tree, s: Tree, undone: seq<Path>, restored: seq<Path>,
      j: nat)
    requires Inputs(before, source, task) && Midway(before, source, task, s)
    requires Orders(Changed(before, task), before, undone, restored) && RollbackFree(before, source, task, restored)
    requires j < |restored| && before[restored[j]].File? && Temp(restored[j]) in s
    requires forall x :: x in undone ==> !AtOrBelow(Temp(restored[j]), x)
    ensures s[Temp(restored[j])].File? && Temp(restored[j]) !in Stage(before, source, task).kept
  {
    var temp := Temp(restored[j]);
    assert temp in Changed(before, task) && temp !in before ==> temp in undone && AtOrBelow(temp, temp);
  }

  /** Where every temporary name is free, rolling back succeeds at whatever point the handoff stopped. It
      restores every entry of the source, except those below a changed path: these it takes away even
      where the handoff had left them. Nothing else is there, except perhaps the temporary file of the
      path being installed, and that only if the baseline has no file at that path. */
  lemma RollbackRestores(before: Tree, source: Tree, task: Tree, removed: seq<Path>, installed: seq<Path>,
      stop: Stop, s: Tree, undone: seq<Path>, restored: seq<Path>)
    requires Setup(before, source, task, removed, installed)
    requires StoppedAt(source, task, removed, installed, stop, s)
    requires Orders(Changed(before, task), before, undone, restored) && RollbackFree(before, source, task, restored)
    ensures Replace(s, before, undone, restored).Ok?
    ensures
      var r := Replace(s, before, undone, restored).value;
      && (forall q :: Leaf(source, q) ==>
            (Leaf(r, q) <==> q in Changed(before, task) || !Doomed(q, Changed(before, task))))
      && (forall q :: Leaf(source, q) && Leaf(r, q) ==> r[q] == source[q])
      && (forall q :: Leaf(r, q) && !Leaf(source, q) ==>
            && LeftBehind(task, installed, stop, q)
            && !(installed[stop.k] in before && before[installed[stop.k]].File?))
  {
    var c := Stage(before, source, task);
    StoppedIsMidway(before, source, task, removed, installed, stop, s);
    StageHolds(before, source, task, removed, installed);
    RollbackReaches(before, source, task, s);
    forall q, p | q in c.kept && p in restored ensures !Above(q, p) {
      ChangedPathAgrees(before, source, task, p);
    }
    RestoredIsUncovered(before, source, task, removed, installed, restored);
    if RemoveAll(s, undone).Ok? {
      RollbackFits(before, source, task, s, undone, restored);
    }
    ReplaceExact(s, c, before, undone, restored);
    RolledBack(before, source, task, s, Replace(s, before, undone, restored).value);
    NoMoreThanLeft(before, source, task, installed, stop, s, Replace(s, before, undone, restored).value);
  }

  lemma StoppedIsMidway(before: Tree, source: Tree, task: Tree, removed: seq<Path>, installed: seq<Path>,
      stop: Stop, s: Tree)
    requires Setup(before, source, task, removed, installed)
    requires StoppedAt(source, task, removed, installed, stop, s)
    ensures Midway(before, source, task, s)
    ensures forall q :: Leaf(s, q) && q !in Changed(before, task) ==>
      (Leaf(source, q) && s[q] == source[q]) || LeftBehind(task, installed, stop, q)
  {
    match stop {
      case DuringRemoval(k) => StoppedInRemoval(before, source, task, removed, installed, k, s);
      case DuringInstall(k) => StoppedInInstall(before, source, task, removed, installed, k, s);
      case Finished =>
        assert installed[..|installed|] == installed;
        WholeSteps(before, source, task, removed, installed, |installed|);
    }
  }

  lemma NoMoreThanLeft(before: Tree, source: Tree, task: Tree, installed: seq<Path>, stop: Stop, s: Tree, r: Tree)
    requires Installable(installed, task)
    requires stop.DuringInstall? ==> stop.k < |installed| && installed[stop.k] in Changed(before, task)
    requires Updated(s, r, Stage(before, source, task), before)
    requires forall q :: Leaf(s, q) && q !in Changed(before, task) ==>
      (Leaf(source, q) && s[q] == source[q]) || LeftBehind(task, installed, stop, q)
    requires forall q :: Leaf(r, q) && q in Changed(before, task) ==> Leaf(source, q)
    ensures forall q :: Leaf(r, q) && !Leaf(source, q) ==>
      && LeftBehind(task, installed, stop, q)
      && !(installed[stop.k] in before && before[installed[stop.k]].File?)
  {
  }

  /** What the rolled back folder holds, in terms of the source and of the stopped handoff. */
  lemma RolledBack(before: Tree, source: Tree, task: Tree, s: Tree, r: Tree)
    requires Inputs(before, source, task) && PreflightOk(before, source, task)
    requires Updated(s, r, Stage(before, source, task), before)
    ensures forall q :: Leaf(source, q) ==>
      (Leaf(r, q) && r[q] == source[q] <==> q in Changed(before, task) || !Doomed(q, Changed(before, task)))
    ensures forall q :: Leaf(source, q) && Leaf(r, q) && q in Changed(before, task) ==> r[q] == source[q]
    ensures forall q :: Leaf(r, q) && q in Changed(before, task) ==> Leaf(source, q)
  {
    var c := Stage(before, source, task);
    forall q | q in c.changed ensures Leaf(source, q) <==> q in before {
      ChangedPathAgrees(before, source, task, q);
    }
    forall q | q in c.changed && q in before ensures r[q] == source[q] {
      ChangedPathAgrees(before, source, task, q);
    }
    forall q | Leaf(source, q) && q !in c.changed && !Doomed(q, c.changed) ensures Leaf(r, q) && r[q] == source[q] {
      assert q in c.kept;
    }
  }
}
