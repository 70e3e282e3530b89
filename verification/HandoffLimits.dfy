/** The handoff of an untouched source and its inverse, and what the conditions of the handoff
    theorems exclude. */
module HandoffLimits {
  import opened Common
  import opened FileTree
  import opened LocalCopy
  import opened Handoff
  import opened Rollback

  lemma ManifestIs(t: Tree)
    requires Wellformed(t)
    ensures IsManifest(Manifest(t))
  {
    assert forall p :: p in Manifest(t) ==> p in t && Leaf(t, p);
  }

  ghost predicate SpecialAt(source: Tree, changed: set<Path>) {
    exists p :: p in changed && p in source && source[p].Special?
  }

  ghost predicate SpecialAbove(source: Tree, changed: set<Path>) {
    exists q, p :: q in source && source[q].Special? && p in changed && Above(q, p)
  }

  ghost predicate LinkAbove(before: Tree, changed: set<Path>) {
    exists q, p :: q in before && before[q].Link? && p in changed && Above(q, p)
  }

  /** A source that still has the baseline's manifest, whatever else it holds. */
  ghost predicate Untouched(before: Tree, source: Tree, task: Tree) {
    Wellformed(source) && before == Manifest(source) && IsManifest(task)
  }

  lemma UntouchedPreflight(before: Tree, source: Tree, task: Tree)
    requires Untouched(before, source, task)
    ensures
      var changed := Changed(before, task);
      PreflightOk(before, source, task) <==> !LinkAbove(before, changed) && !SpecialAt(source, changed)
  {
    var changed := Changed(before, task);
    ManifestIs(source);
    forall p | p in changed
      ensures ThroughLink(source, p) <==> exists q :: q in before && before[q].Link? && Above(q, p)
    {
      ThroughLinkMeans(source, p);
      assert GIT !in p;
      assert forall q :: Above(q, p) ==> GIT !in q;
    }
  }

  /** An entry an untouched source keeps above a changed path is a special file. */
  lemma OnlySpecialsAbove(before: Tree, source: Tree, task: Tree, q: Path, p: Path)
    requires Untouched(before, source, task) && p in Changed(before, task) && Above(q, p)
    ensures q in Kept(source, Changed(before, task)) ==> source[q].Special?
    ensures q in source && source[q].Special? && !SpecialAt(source, Changed(before, task)) ==>
      q in Kept(source, Changed(before, task))
  {
    ManifestIs(source);
    assert GIT !in p && GIT !in q;
  }

  lemma UntouchedSucceeds(before: Tree, source: Tree, task: Tree)
    requires Untouched(before, source, task) && PreflightOk(before, source, task)
    ensures Unobstructed(Kept(source, Changed(before, task)), Changed(before, task)) <==>
      !SpecialAbove(source, Changed(before, task))
  {
    var changed := Changed(before, task);
    ManifestIs(source);
    UntouchedPreflight(before, source, task);
    forall q, p | p in changed && Above(q, p)
      ensures q in Kept(source, changed) <==> q in source && source[q].Special?
    {
      OnlySpecialsAbove(before, source, task, q, p);
    }
  }

  /** What baseline and task have in common survives. */
  lemma CommonSurvives(before: Tree, source: Tree, task: Tree, q: Path)
    requires Untouched(before, source, task) && q !in Changed(before, task)
    ensures q in before <==> q in task
    ensures q in before ==> q in Survivors(source, Changed(before, task)) && before[q] == task[q] == source[q]
  {
    var changed := Changed(before, task);
    ManifestIs(source);
    assert Entry(before, q) == Entry(task, q);
    if q in before {
      forall p | p in changed ensures !Above(p, q) {
      }
      assert !Doomed(q, changed);
    }
  }

  /** The manifest of the delivered folder is the task's. */
  lemma DeliveredManifest(before: Tree, source: Tree, task: Tree, applied: Tree)
    requires Untouched(before, source, task)
    requires Leaves(applied) == Survivors(source, Changed(before, task)) + Only(task, Changed(before, task))
    ensures Manifest(applied) == task
  {
    var changed := Changed(before, task);
    ManifestIs(source);
    forall q ensures q in Manifest(applied) <==> q in task {
      assert q in Manifest(applied) <==> q in Leaves(applied) && Reviewable(q, Leaves(applied)[q]);
      if q !in changed {
        CommonSurvives(before, source, task, q);
      }
    }
    forall q | q in task ensures Manifest(applied)[q] == task[q] {
      assert q in Manifest(applied) && Manifest(applied)[q] == Leaves(applied)[q];
      if q !in changed {
        CommonSurvives(before, source, task, q);
      }
    }
  }

  /** The manifest of the rolled back folder is the baseline's again. */
  lemma RestoredManifest(before: Tree, source: Tree, task: Tree, r: Tree)
    requires Untouched(before, source, task)
    requires forall q :: Leaf(source, q) ==>
      (Leaf(r, q) <==> q in Changed(before, task) || !Doomed(q, Changed(before, task)))
    requires forall q :: Leaf(r, q) ==> Leaf(source, q) && r[q] == source[q]
    ensures Manifest(r) == before
  {
    var changed := Changed(before, task);
    forall q | q in before ensures q in Manifest(r) && Manifest(r)[q] == before[q] {
      if q !in changed {
        CommonSurvives(before, source, task, q);
      }
      assert Leaf(r, q);
    }
    forall q | q in Manifest(r) ensures q in before {
      assert Leaf(r, q);
    }
  }

  /** What a handoff makes of an untouched source: the task's manifest, and of what no manifest shows,
      Git metadata and special files, exactly what is not below a changed path. */
  ghost predicate GivesManifest(before: Tree, source: Tree, task: Tree, applied: Tree) {
    && Manifest(applied) == task
    && forall h :: Leaf(source, h) && h !in before ==> (Leaf(applied, h) <==> !Doomed(h, Changed(before, task)))
  }

  /** An untouched source is refused exactly for a changed path below a link or at a special file. With
      every temporary name free, the handoff fails exactly for a special file above a changed path.
      Otherwise it gives the source the task's manifest, and a rollback gives it the baseline's again,
      whatever files became directories or directories files. What no manifest shows survives the
      handoff, and the round trip, exactly if it is not below a changed path. */
  lemma BaselineRoundTrip(before: Tree, source: Tree, task: Tree,
      removed: seq<Path>, installed: seq<Path>, undone: seq<Path>, restored: seq<Path>)
    requires Untouched(before, source, task)
    requires Orders(Changed(before, task), task, removed, installed)
    requires Orders(Changed(before, task), before, undone, restored)
    ensures PreflightOk(before, source, task) <==>
      !LinkAbove(before, Changed(before, task)) && !SpecialAt(source, Changed(before, task))
    ensures PreflightOk(before, source, task) && TempFree(source, task, Changed(before, task), installed) ==>
      var applied := Replace(source, task, removed, installed);
      && (applied.Ok? <==> !SpecialAbove(source, Changed(before, task)))
      && (applied.Ok? ==> GivesManifest(before, source, task, applied.value))
      && (applied.Ok? && RollbackFree(before, source, task, restored) ==>
            var r := Replace(applied.value, before, undone, restored);
            r.Ok? && Manifest(r.value) == before
            && forall h :: Leaf(source, h) && h !in before ==>
                (Leaf(r.value, h) <==> !Doomed(h, Changed(before, task))))
  {
    ManifestIs(source);
    UntouchedPreflight(before, source, task);
    if PreflightOk(before, source, task) && TempFree(source, task, Changed(before, task), installed) {
      HandoffOutcome(before, source, task, removed, installed);
      UntouchedSucceeds(before, source, task);
      if !SpecialAbove(source, Changed(before, task)) {
        OneWay(before, source, task, removed, installed);
        if RollbackFree(before, source, task, restored) {
          RoundTrip(before, source, task, removed, installed, undone, restored);
        }
      }
    }
  }

  lemma OneWay(before: Tree, source: Tree, task: Tree, removed: seq<Path>, installed: seq<Path>)
    requires Untouched(before, source, task) && Setup(before, source, task, removed, installed)
    requires Replace(source, task, removed, installed).Ok?
    ensures GivesManifest(before, source, task, Replace(source, task, removed, installed).value)
  {
    var applied := Replace(source, task, removed, installed).value;
    HandoffOutcome(before, source, task, removed, installed);
    DeliveredManifest(before, source, task, applied);
    forall h | Leaf(source, h) && h !in before ensures Leaf(applied, h) <==> !Doomed(h, Changed(before, task)) {
      HiddenFate(before, source, task, applied, h);
    }
  }

  lemma RoundTrip(before: Tree, source: Tree, task: Tree,
      removed: seq<Path>, installed: seq<Path>, undone: seq<Path>, restored: seq<Path>)
    requires Untouched(before, source, task) && Setup(before, source, task, removed, installed)
    requires Orders(Changed(before, task), before, undone, restored) && RollbackFree(before, source, task, restored)
    requires Replace(source, task, removed, installed).Ok?
    ensures
      var applied := Replace(source, task, removed, installed).value;
      && Replace(applied, before, undone, restored).Ok?
      && var r := Replace(applied, before, undone, restored).value;
      && Manifest(r) == before
      && forall h :: Leaf(source, h) && h !in before ==> (Leaf(r, h) <==> !Doomed(h, Changed(before, task)))
  {
    var applied := Replace(source, task, removed, installed).value;
    RollbackRestores(before, source, task, removed, installed, Finished, applied, undone, restored);
    RestoredManifest(before, source, task, Replace(applied, before, undone, restored).value);
    forall h | Leaf(source, h) && h !in before ensures h !in Changed(before, task) {
      if h in Changed(before, task) {
        ChangedPathAgrees(before, source, task, h);
      }
    }
  }

  lemma HiddenFate(before: Tree, source: Tree, task: Tree, applied: Tree, h: Path)
    requires Untouched(before, source, task) && PreflightOk(before, source, task)
    requires Leaves(applied) == Survivors(source, Changed(before, task)) + Only(task, Changed(before, task))
    requires Leaf(source, h) && h !in before
    ensures h !in Changed(before, task) && (Leaf(applied, h) <==> !Doomed(h, Changed(before, task)))
  {
    ManifestIs(source);
    if h in Changed(before, task) {
      ChangedPathAgrees(before, source, task, h);
    }
    assert Leaf(applied, h) <==> h in Leaves(applied);
  }

  // ---- What goes wrong outside the conditions ----

  /** A source file that has the temporary name of a file the handoff writes is used up by it, and one
      that has the temporary name of a file of the baseline by the rollback. */
  lemma TempNameClashLosesAFile(before: Tree, source: Tree, task: Tree, removed: seq<Path>, installed: seq<Path>,
      p: Path)
    requires Inputs(before, source, task)
    requires Orders(Changed(before, task), task, removed, installed) && Replace(source, task, removed, installed).Ok?
    requires p in Written(task, Changed(before, task)) && Temp(p) in Kept(source, Changed(before, task))
    ensures !Has(Replace(source, task, removed, installed).value, Temp(p), source[Temp(p)])
  {
    RemovalOutcome(source, removed);
    assert p in installed;
    var j :| 0 <= j < |installed| && installed[j] == p;
    KeptIsLost(RemoveAll(source, removed).value, installed, task, j, source[Temp(p)]);
  }

  lemma RollbackUsesTempUp(before: Tree, s: Tree, changed: set<Path>, undone: seq<Path>, restored: seq<Path>, p: Path)
    requires Wellformed(s) && IsManifest(before) && [] !in changed
    requires Orders(changed, before, undone, restored) && Replace(s, before, undone, restored).Ok?
    requires p in Written(before, changed) && Leaf(s, Temp(p)) && Temp(p) !in changed
    ensures !Has(Replace(s, before, undone, restored).value, Temp(p), s[Temp(p)])
  {
    RemovalOutcome(s, undone);
    assert p in restored;
    var j :| 0 <= j < |restored| && restored[j] == p;
    KeptIsLost(RemoveAll(s, undone).value, restored, before, j, s[Temp(p)]);
  }

  /** Of two changed paths, one at or below the temporary name of the other, which is a file: if it is
      installed first, it is lost. (In the other order both arrive, if the rest is in order.) */
  lemma TempNameClashLosesAPath(before: Tree, source: Tree, task: Tree, removed: seq<Path>, installed: seq<Path>,
      i: nat, j: nat)
    requires Inputs(before, source, task)
    requires Orders(Changed(before, task), task, removed, installed) && Replace(source, task, removed, installed).Ok?
    requires i < j < |installed| && task[installed[j]].File? && AtOrBelow(installed[i], Temp(installed[j]))
    ensures !Has(Replace(source, task, removed, installed).value, installed[i], task[installed[i]])
  {
    RemovalOutcome(source, removed);
    EarlierIsLost(RemoveAll(source, removed).value, installed, task, i, j);
  }

  /** Installing a file directly in the folder. */
  lemma InstallsOnTop(t: Tree, p: Path, node: Node)
    requires |p| == 1 && node.File? && [] in t && t[[]] == Dir && (p in t ==> t[p].File?)
    requires Temp(p) in t ==> t[Temp(p)].File?
    ensures InstallOne(t, p, node) == Ok((t - {Temp(p)})[p := node])
  {
    assert p[..0] == [];
    assert MakeDirs(t, p, 0) == t;
  }

  lemma InstallsTwo(t: Tree, desired: Tree, p: Path, q: Path)
    requires |p| == |q| == 1 && p in desired && q in desired && desired[p].File? && desired[q].File?
    requires t == map[[] := Dir] && p != q
    ensures Installable([p, q], desired)
    ensures Replace(t, desired, [], [p, q]) ==
      Ok(if Temp(q) == p then t[q := desired[q]] else t[p := desired[p]][q := desired[q]])
  {
    InstallsOnTop(t, p, desired[p]);
    assert t - {Temp(p)} == t;
    assert [p, q][1..] == [q] && [q][1..] == [];
    var t1 := t[p := desired[p]];
    InstallsOnTop(t1, q, desired[q]);
    assert Temp(q) == p ==> t1 - {p} == t;
    AboveTemp(q, q);
    assert Temp(q) != p ==> t1 - {Temp(q)} == t1;
    assert InstallAll(t1, [q], desired) == InstallOne(t1, q, desired[q]);
    assert InstallAll(t, [p, q], desired) == InstallAll(t1, [q], desired);
    assert RemoveAll(t, []) == Ok(t);
  }

  lemma EmptyPasses(task: Tree)
    requires IsManifest(task) && forall p :: p in task ==> |p| == 1
    ensures PreflightOk(map[], map[[] := Dir], task) && Changed(map[], task) == task.Keys
    ensures Apart(Kept(map[[] := Dir], Changed(map[], task)), Changed(map[], task))
  {
    var source: Tree := map[[] := Dir];
    assert Manifest(source) == map[] && Leaves(source) == map[];
    forall p | p in task ensures !ThroughLink(source, p) {
      ThroughLinkMeans(source, p);
    }
  }

  lemma ThreeNames(f: Path)
    requires |f| == 1
    ensures |Temp(f)| == 1 && Temp(f) != f && Temp(Temp(f)) !in {f, Temp(f)}
  {
    assert |Temp(Temp(f))[0]| > |Temp(f)[0]| > |f[0]|;
  }

  /** It happens: the task adds a file and one of its temporary name, which sorts first. The source is
      empty and preflight passes, and only one of the two arrives; in the other order both do. */
  lemma BothNamesAdded(f: Path, now: Node, other: Node)
    requires |f| == 1 && GIT !in f && GIT !in Temp(f) && now.File? && other.File?
    ensures
      var source: Tree := map[[] := Dir];
      var task: Tree := map[Temp(f) := other, f := now];
      && PreflightOk(map[], source, task) && Apart(Kept(source, Changed(map[], task)), Changed(map[], task))
      && Replace(source, task, [], [Temp(f), f]) == Ok(source[f := now])
      && Replace(source, task, [], [f, Temp(f)]) == Ok(source[f := now][Temp(f) := other])
  {
    var source: Tree := map[[] := Dir];
    var task: Tree := map[Temp(f) := other, f := now];
    ThreeNames(f);
    assert IsManifest(task);
    EmptyPasses(task);
    InstallsTwo(source, task, Temp(f), f);
    InstallsTwo(source, task, f, Temp(f));
  }

  /** A kept entry below a changed path is deleted by every handoff that succeeds. */
  lemma BelowChangedIsDeleted(before: Tree, source: Tree, task: Tree, removed: seq<Path>, installed: seq<Path>, q: Path)
    requires Inputs(before, source, task) && PreflightOk(before, source, task)
    requires Orders(Changed(before, task), task, removed, installed) && Replace(source, task, removed, installed).Ok?
    requires TempFree(source, task, Changed(before, task), installed)
    requires q in Kept(source, Changed(before, task)) && Doomed(q, Changed(before, task))
    ensures !Leaf(Replace(source, task, removed, installed).value, q)
  {
    HandoffOutcome(before, source, task, removed, installed);
    var r := Replace(source, task, removed, installed).value;
    assert Leaf(r, q) <==> q in Leaves(r);
  }

  const A: Path := ["a"]
  const F: Path := ["a", "f"]
  const X: Path := ["a", "x"]
  const REPO: Path := ["a", GIT]
  const HEAD: Path := ["a", GIT, "HEAD"]

  lemma Ancestors()
    ensures forall q :: Above(q, A) <==> q == []
    ensures forall q :: Above(q, F) <==> q == [] || q == A
    ensures forall q :: Above(q, X) <==> q == [] || q == A
    ensures forall q :: Above(q, REPO) <==> q == [] || q == A
    ensures forall q :: Above(q, HEAD) <==> q == [] || q == A || q == REPO
  {
    assert F[..1] == X[..1] == REPO[..1] == HEAD[..1] == A && HEAD[..2] == REPO;
  }

  lemma ExampleNames(keys: set<Path>)
    requires keys <= {[], A, F, X, REPO, HEAD}
    ensures Temp(A) !in keys && Temp(F) !in keys && Temp(A) !in {A, F} && Temp(F) !in {A, F}
    ensures forall p, q :: p in {A, F} && q in {A, F} ==> !Above(Temp(p), q)
  {
    assert |TempName("a")| == |TempName("f")| == 13;
    forall p, q | p in {A, F} && q in {[], A, F, X, REPO, HEAD} ensures !AtOrBelow(q, Temp(p)) && !Above(Temp(p), q) {
      assert |Temp(p)| == |p| && |Temp(p)[|p| - 1]| == 13;
    }
    assert forall p :: p in {A, F} ==> AtOrBelow(Temp(p), Temp(p));
  }

  /** The folder `a` holds a file of the task and something else, `extra`. */
  lemma ReplacedFolder(was: Node, now: Node, source: Tree, extra: Path)
    requires was.File? && now.File? && Wellformed(source)
    requires source.Keys <= {[], A, F, X, REPO, HEAD} && A in source && F in source && source[F] == was
    requires forall q :: q in source ==> source[q].Dir? || source[q].File?
    requires Leaf(source, extra) && extra != F && Above(A, extra)
    ensures Inputs(map[F := was], source, map[A := now]) && PreflightOk(map[F := was], source, map[A := now])
    ensures Changed(map[F := was], map[A := now]) == {A, F}
    ensures Orders({A, F}, map[A := now], [F], [A]) && Orders({A, F}, map[F := was], [A], [F])
    ensures TempFree(source, map[A := now], {A, F}, [A]) && RollbackFree(map[F := was], source, map[A := now], [F])
    ensures extra in Kept(source, {A, F}) && Doomed(extra, {A, F}) && Unobstructed(Kept(source, {A, F}), {A, F})
  {
    Ancestors();
    assert Changed(map[F := was], map[A := now]) == {A, F};
    ExampleNames(source.Keys);
    ThroughLinkMeans(source, A);
    ThroughLinkMeans(source, F);
    assert Above(A, F) && source[A].Dir?;
  }

  /** The task replaced directory `a` by a file, and the source gained `a/x` meanwhile:
      preflight passes, and the handoff deletes `a/x`. */
  lemma SourceOnlyFileIsDeleted(was: Node, now: Node, mine: Node)
    requires was.File? && now.File? && mine.File?
    ensures
      var source: Tree := map[[] := Dir, A := Dir, F := was, X := mine];
      var before: Tree, task: Tree := map[F := was], map[A := now];
      && PreflightOk(before, source, task) && X in Kept(source, Changed(before, task))
      && Replace(source, task, [F], [A]).Ok? && !Leaf(Replace(source, task, [F], [A]).value, X)
  {
    var source: Tree := map[[] := Dir, A := Dir, F := was, X := mine];
    Ancestors();
    ReplacedFolder(was, now, source, X);
    HandoffOutcome(map[F := was], source, map[A := now], [F], [A]);
    BelowChangedIsDeleted(map[F := was], source, map[A := now], [F], [A], X);
  }

  /** The task replaced directory `a`, a nested repository, by a file. The source is untouched and
      preflight passes, the handoff deletes the repository, and the rollback does not bring it back. */
  lemma NestedRepositoryIsDeleted(was: Node, now: Node, head: Node)
    requires was.File? && now.File? && head.File?
    ensures
      var source: Tree := map[[] := Dir, A := Dir, F := was, REPO := Dir, HEAD := head];
      var before: Tree, task: Tree := map[F := was], map[A := now];
      && Manifest(source) == before && PreflightOk(before, source, task)
      && Replace(source, task, [F], [A]).Ok?
      && var applied := Replace(source, task, [F], [A]).value;
      && !Leaf(applied, HEAD) && Manifest(applied) == task
      && Replace(applied, before, [A], [F]).Ok?
      && !Leaf(Replace(applied, before, [A], [F]).value, HEAD)
      && Manifest(Replace(applied, before, [A], [F]).value) == before
  {
    var source: Tree := map[[] := Dir, A := Dir, F := was, REPO := Dir, HEAD := head];
    var before: Tree, task: Tree := map[F := was], map[A := now];
    Ancestors();
    ReplacedFolder(was, now, source, HEAD);
    assert GIT in HEAD && GIT !in F by {
      assert HEAD[1] == GIT;
      assert F[0] != GIT && F[1] != GIT;
    }
    assert Manifest(source) == before;
    HandoffOutcome(before, source, task, [F], [A]);
    OneWay(before, source, task, [F], [A]);
    RoundTrip(before, source, task, [F], [A], [A], [F]);
  }

  /** A handoff that failed between copying an added file and renaming it leaves the
      temporary file in the source even after the rollback. */
  lemma RollbackKeepsATemporaryFile(now: Node, torn: Node)
    requires now.File? && torn.File?
    ensures
      var f := ["f"];
      var source: Tree := map[[] := Dir];
      var task: Tree := map[f := now];
      var stopped := source[Temp(f) := torn];
      && Setup(map[], source, task, [], [f])
      && StoppedAt(source, task, [], [f], DuringInstall(0), stopped)
      && Replace(stopped, map[], [f], []) == Ok(stopped)
  {
    var f: Path := ["f"];
    var source: Tree := map[[] := Dir];
    var task: Tree := map[f := now];
    var stopped := source[Temp(f) := torn];
    assert forall q :: Above(q, f) || Above(q, Temp(f)) ==> q == [];
    AboveTemp(f, f);
    assert Changed(map[], task) == {f};
    ThroughLinkMeans(source, f);
    ThroughLinkMeans(stopped, f);
    assert [f][..0] == [];
    assert Replace(source, task, [], []) == Ok(source);
    assert stopped - {f} == stopped;
    assert RemoveOne(stopped, f) == Ok(stopped);
    assert RemoveAll(stopped, [f][1..]) == Ok(stopped);
  }
}
