/** Handing a task's changes back to its source folder, and taking them back.
    The comparison is three-way: the baseline the task started from, the task's own copy
    and the live source. A folder is updated path by path, deleted paths first. */
module LocalCopy {
  import opened Common
  import opened FileTree

  /** The manifests' paths whose entries differ. */
  function Changed(before: Tree, after: Tree): set<Path> {
    set p | p in before.Keys + after.Keys && Entry(before, p) != Entry(after, p)
  }

  function Entry(manifest: Tree, p: Path): Option<Node> {
    if p in manifest then Some(manifest[p]) else None
  }

  /** A handoff is allowed when every changed path is still, in the source, what the task started from. */
  predicate PreflightOk(before: Tree, source: Tree, task: Tree) {
    forall p :: p in Changed(before, task) ==>
      && !ThroughLink(source, p)
      && (p in source ==> !source[p].Special?)
      && Entry(Manifest(source), p) == Entry(before, p)
  }

  function RemoveAll(t: Tree, ps: seq<Path>): Result<Tree, Fault>
    decreases |ps|
  {
    if ps == [] then Ok(t) else
    var next :- RemoveOne(t, ps[0]);
    RemoveAll(next, ps[1..])
  }

  ghost predicate Installable(ps: seq<Path>, desired: Tree) {
    forall i :: 0 <= i < |ps| ==> ps[i] != [] && ps[i] in desired
  }

  function InstallAll(t: Tree, ps: seq<Path>, desired: Tree): Result<Tree, Fault>
    requires Installable(ps, desired)
    decreases |ps|
  {
    if ps == [] then Ok(t) else
    var next :- InstallOne(t, ps[0], desired[ps[0]]);
    InstallAll(next, ps[1..], desired)
  }

  /** The two loops of an update: paths the desired folder lacks go first, the others are installed. */
  function Replace(t: Tree, desired: Tree, removed: seq<Path>, installed: seq<Path>): Result<Tree, Fault>
    requires Installable(installed, desired)
  {
    var cleared :- RemoveAll(t, removed);
    InstallAll(cleared, installed, desired)
  }

  /** The orders split the changed paths by whether the desired manifest has them, each path once. */
  ghost predicate Orders(changed: set<Path>, desired: Tree, removed: seq<Path>, installed: seq<Path>) {
    && (forall p :: p in removed <==> p in changed && p !in desired)
    && (forall p :: p in installed <==> p in changed && p in desired)
    && Installable(installed, desired)
    && (forall i, j :: 0 <= i < j < |installed| ==> installed[i] != installed[j])
  }

  /** A manifest of some folder: files and links, none above another. */
  ghost predicate IsManifest(m: Tree) {
    && (forall p :: p in m ==> p != [] && Reviewable(p, m[p]))
    && (forall p, q :: p in m && q in m ==> !Above(q, p))
  }

  // ---- What stays ----

  /** The source's own entries: everything that is not a changed path. */
  function Kept(source: Tree, changed: set<Path>): Tree {
    Leaves(source) - changed
  }

  /** No kept entry is an ancestor or a descendant of a changed path. */
  ghost predicate Apart(kept: Tree, changed: set<Path>) {
    forall q, p :: q in kept && p in changed ==> !Above(q, p) && !AtOrBelow(q, p)
  }

  /** An update in progress: what is kept, which paths change, and for which of them a temporary file
      may have been left. */
  datatype Scene = Scene(kept: Tree, changed: set<Path>, writes: set<Path>)

  /** Nothing kept is at or below a changed path. */
  ghost predicate Sane(c: Scene) {
    && c.writes <= c.changed && [] !in c.changed
    && (forall q, p :: q in c.kept && p in c.changed ==> !AtOrBelow(q, p))
  }

  ghost predicate IsTemp(q: Path, writes: set<Path>) {
    exists p :: p in writes && p != [] && q == Temp(p)
  }

  /** An entry below a changed path: replacing the path takes it away. */
  ghost predicate Doomed(q: Path, changed: set<Path>) {
    exists p :: p in changed && Above(p, q)
  }

  /** A folder somewhere between two versions of its changed paths: what is kept is there, and there
      is nothing else but changed paths, what lies below them, and temporary files. */
  ghost predicate Between(t: Tree, c: Scene) {
    && Wellformed(t)
    && (forall q :: q in c.kept ==> Leaf(t, q) && t[q] == c.kept[q])
    && (forall q :: Leaf(t, q) && q !in c.kept && q !in c.changed ==> IsTemp(q, c.writes) || Doomed(q, c.changed))
  }

  /** No path that is to be removed lies behind a link. */
  ghost predicate Reachable(t: Tree, changed: set<Path>, desired: Tree) {
    forall p :: p in changed && p !in desired ==> !ThroughLink(t, p)
  }

  /** At and below deleted paths there is nothing but what is to be installed. */
  ghost predicate Gone(t: Tree, changed: set<Path>, desired: Tree) {
    forall q, x :: q in changed && q !in desired && Leaf(t, x) && AtOrBelow(x, q) ==> x in changed && x in desired
  }

  /** Nothing kept is above these paths. */
  ghost predicate Open(kept: Tree, ps: seq<Path>) {
    forall q, p :: q in kept && p in ps ==> !Above(q, p)
  }

  /** None of these paths is below a temporary file that may have been left. */
  ghost predicate Uncovered(ps: seq<Path>, c: Scene) {
    forall a, p :: a in c.writes && a != [] && p in ps && Temp(a) !in c.changed ==> !Above(Temp(a), p)
  }

  /** The temporary name of each file is free for it: nothing installed before it is at or below that
      name, and if the folder has something there, it is a file that is not kept. */
  ghost predicate Fits(t: Tree, ps: seq<Path>, kept: Tree, desired: Tree)
    requires Installable(ps, desired)
  {
    forall j :: 0 <= j < |ps| && desired[ps[j]].File? ==>
      && (forall i :: 0 <= i < j ==> !AtOrBelow(ps[i], Temp(ps[j])))
      && (Temp(ps[j]) in t ==> t[Temp(ps[j])].File? && Temp(ps[j]) !in kept)
  }

  // ---- One pass over the changed paths ----

  lemma Shrinks(t: Tree, p: Path, c: Scene, desired: Tree)
    requires Between(t, c) && Sane(c) && Reachable(t, c.changed, desired)
    requires p in c.changed && p !in desired
    ensures RemoveOne(t, p) == Ok(Without(t, p))
    ensures Between(Without(t, p), c) && Reachable(Without(t, p), c.changed, desired)
    ensures forall q :: q in Without(t, p) ==> q in t && t[q] == Without(t, p)[q] && !AtOrBelow(q, p)
  {
    RemoveOneExact(t, p);
    WithoutKeeps(t, p);
    var w := Without(t, p);
    forall q | q in c.kept ensures Leaf(w, q) && w[q] == c.kept[q] {
      assert Leaf(t, q);
    }
    forall a | a in c.changed && a !in desired ensures !ThroughLink(w, a) {
      ThroughLinkMeans(w, a);
      ThroughLinkMeans(t, a);
    }
  }

  lemma {:induction false} RemovalsExact(t: Tree, ps: seq<Path>, c: Scene, desired: Tree)
    requires Between(t, c) && Sane(c) && Reachable(t, c.changed, desired)
    requires forall p :: p in ps ==> p in c.changed && p !in desired
    ensures RemoveAll(t, ps).Ok?
    ensures
      var r := RemoveAll(t, ps).value;
      && Between(r, c)
      && (forall q :: q in r ==> q in t && t[q] == r[q])
      && (forall p, q :: p in ps && q in r ==> !AtOrBelow(q, p))
    decreases |ps|
  {
    if ps != [] {
      assert ps[0] in ps && forall p :: p in ps ==> p == ps[0] || p in ps[1..];
      Shrinks(t, ps[0], c, desired);
      RemovalsExact(Without(t, ps[0]), ps[1..], c, desired);
    }
  }

  /** A path that can be installed: a changed one of the desired version, with nothing above it. */
  ghost predicate Placeable(p: Path, c: Scene, desired: Tree) {
    p in c.changed && p in desired && Open(c.kept, [p]) && Uncovered([p], c)
  }

  /** Nothing stands above a path to be installed once the deleted paths are gone. */
  lemma NothingAbove(t: Tree, p: Path, c: Scene, desired: Tree)
    requires Between(t, c) && Sane(c) && IsManifest(desired) && Gone(t, c.changed, desired) && Placeable(p, c, desired)
    ensures !Blocked(t, p)
  {
    BlockedMeans(t, p);
    assert p in [p];
    forall q | Above(q, p) ensures !Leaf(t, q) {
      assert q in c.changed && q !in desired && Leaf(t, q) ==> AtOrBelow(q, q);
      if Doomed(q, c.changed) {
        var a :| a in c.changed && Above(a, q);
        AboveTransitive(a, q, p);
        assert AtOrBelow(q, a);
      }
    }
  }

  /** Installing `p` keeps what is kept, and makes nothing but `p` and directories. */
  lemma InstalledBetween(t: Tree, r: Tree, p: Path, node: Node, c: Scene)
    requires Between(t, c) && Sane(c) && p in c.changed && Installed(t, r, p, node)
    requires node.Link? || Temp(p) !in c.kept
    ensures Between(r, c)
  {
    forall q | q in c.kept ensures Leaf(r, q) && r[q] == c.kept[q] {
      assert !AtOrBelow(q, p);
    }
  }

  /** Entries of the desired version are still there, but for one that has the temporary name of `p`. */
  ghost predicate Retained(t: Tree, r: Tree, p: Path, c: Scene, desired: Tree)
    requires p != [] && p in desired
  {
    forall q :: q in c.changed && q in desired && Leaf(t, q) && t[q] == desired[q] ==>
      (desired[p].File? && q == Temp(p)) || (q in r && r[q] == desired[q])
  }

  /** Installing `p` leaves the entries installed before it, but for one that has its temporary name,
      and nothing at a deleted path. */
  lemma Grows(t: Tree, p: Path, c: Scene, desired: Tree)
    requires Between(t, c) && Sane(c) && IsManifest(desired) && Gone(t, c.changed, desired) && Placeable(p, c, desired)
    requires p != [] && Fits(t, [p], c.kept, desired)
    ensures InstallOne(t, p, desired[p]).Ok?
    ensures
      var r := InstallOne(t, p, desired[p]).value;
      && Between(r, c) && Installed(t, r, p, desired[p]) && Gone(r, c.changed, desired)
      && Retained(t, r, p, c, desired)
  {
    assert [p][0] == p;
    NothingAbove(t, p, c, desired);
    InstallOneExact(t, p, desired[p]);
    var r := InstallOne(t, p, desired[p]).value;
    InstalledBetween(t, r, p, desired[p], c);
    forall q | q in c.changed && q in desired && Leaf(t, q) ensures !Above(p, q) {
    }
  }

  /** What fits before the first installation fits for the rest after it. */
  lemma FitsOn(t: Tree, r: Tree, ps: seq<Path>, kept: Tree, desired: Tree)
    requires ps != [] && Installable(ps, desired) && Fits(t, ps, kept, desired)
    requires Installed(t, r, ps[0], desired[ps[0]])
    ensures Fits(r, ps[1..], kept, desired)
  {
    var rest := ps[1..];
    forall j | 0 <= j < |rest| && desired[rest[j]].File?
      ensures forall i :: 0 <= i < j ==> !AtOrBelow(rest[i], Temp(rest[j]))
      ensures Temp(rest[j]) in r ==> r[Temp(rest[j])].File? && Temp(rest[j]) !in kept
    {
      assert rest[j] == ps[j + 1];
      assert !AtOrBelow(ps[0], Temp(ps[j + 1]));
      forall i | 0 <= i < j ensures !AtOrBelow(rest[i], Temp(rest[j])) {
        assert rest[i] == ps[i + 1];
      }
    }
  }

  /** Installing these paths does not use up `q`. */
  ghost predicate Spared(q: Path, ps: seq<Path>, desired: Tree)
    requires Installable(ps, desired)
  {
    forall j :: 0 <= j < |ps| && desired[ps[j]].File? ==> q != Temp(ps[j])
  }

  /** The folder after installing some of the paths. */
  ghost predicate PartlyInstalled(t: Tree, r: Tree, ps: seq<Path>, c: Scene, desired: Tree)
    requires Installable(ps, desired)
  {
    && Between(r, c) && Gone(r, c.changed, desired)
    && (forall q :: q in ps ==> q in r && r[q] == desired[q])
    && (forall q :: q in c.changed && q in desired && Leaf(t, q) && t[q] == desired[q] && Spared(q, ps, desired) ==>
          q in r && r[q] == desired[q])
    && (forall q :: Leaf(r, q) && q !in ps ==> Leaf(t, q) && t[q] == r[q] && Spared(q, ps, desired))
    && (forall q :: q in r && r[q].Dir? ==> (q in t && t[q].Dir?) || exists p :: p in ps && Above(q, p))
  }

  lemma {:induction false} InstallsExact(t: Tree, ps: seq<Path>, c: Scene, desired: Tree)
    requires Between(t, c) && Sane(c) && IsManifest(desired) && Gone(t, c.changed, desired)
    requires Installable(ps, desired) && Fits(t, ps, c.kept, desired)
    requires forall p :: p in ps ==> Placeable(p, c, desired)
    ensures InstallAll(t, ps, desired).Ok?
    ensures PartlyInstalled(t, InstallAll(t, ps, desired).value, ps, c, desired)
    decreases |ps|
  {
    if ps != [] {
      var p := ps[0];
      assert p in ps;
      assert Fits(t, [p], c.kept, desired);
      Grows(t, p, c, desired);
      var next := InstallOne(t, p, desired[p]).value;
      FitsOn(t, next, ps, c.kept, desired);
      InstallsExact(next, ps[1..], c, desired);
      OneMore(t, next, InstallAll(next, ps[1..], desired).value, ps, c, desired);
    }
  }

  lemma OneMore(t: Tree, next: Tree, r: Tree, ps: seq<Path>, c: Scene, desired: Tree)
    requires ps != [] && Installable(ps, desired) && Fits(t, ps, c.kept, desired)
    requires forall p :: p in ps ==> p in c.changed && p in desired
    requires Installed(t, next, ps[0], desired[ps[0]]) && IsManifest(desired)
    requires Retained(t, next, ps[0], c, desired)
    requires PartlyInstalled(next, r, ps[1..], c, desired)
    ensures PartlyInstalled(t, r, ps, c, desired)
  {
    var p, rest := ps[0], ps[1..];
    assert p in ps && forall q :: q in ps <==> q == p || q in rest;
    forall q ensures Spared(q, ps, desired) <==> Spared(q, rest, desired) && (desired[p].File? ==> q != Temp(p)) {
      SparedSplit(q, ps, desired);
    }
    assert Spared(p, rest, desired) by {
      forall j | 0 <= j < |rest| && desired[rest[j]].File? ensures p != Temp(rest[j]) {
        assert rest[j] == ps[j + 1];
        assert !AtOrBelow(ps[0], Temp(ps[j + 1]));
      }
    }
  }

  lemma SparedSplit(q: Path, ps: seq<Path>, desired: Tree)
    requires ps != [] && Installable(ps, desired)
    ensures Spared(q, ps, desired) <==> Spared(q, ps[1..], desired) && (desired[ps[0]].File? ==> q != Temp(ps[0]))
  {
    if Spared(q, ps, desired) {
      forall j | 0 <= j < |ps[1..]| && desired[ps[1..][j]].File? ensures q != Temp(ps[1..][j]) {
        assert ps[1..][j] == ps[j + 1];
      }
    }
    if Spared(q, ps[1..], desired) && (desired[ps[0]].File? ==> q != Temp(ps[0])) {
      forall j | 0 <= j < |ps| && desired[ps[j]].File? ensures q != Temp(ps[j]) {
        assert j > 0 ==> ps[j] == ps[1..][j - 1];
      }
    }
  }

  /** Where an update of `t` leads: the kept entries, the desired entries at the changed paths, and
      temporary files `t` already had and no file of the desired version reused. */
  ghost predicate Updated(t: Tree, r: Tree, c: Scene, desired: Tree) {
    && Between(r, c)
    && (forall p :: p in c.changed ==> (Leaf(r, p) <==> p in desired))
    && (forall p :: p in c.changed && p in desired ==> p in r && r[p] == desired[p])
    && (forall q :: Leaf(r, q) && q !in c.changed ==> Leaf(t, q) && t[q] == r[q] && !Doomed(q, c.changed))
    && (forall p :: p in c.changed && p != [] && p in desired && desired[p].File? && Temp(p) !in c.changed ==>
        !Leaf(r, Temp(p)))
  }

  /** After the last installation nothing is left below a changed path. */
  lemma NothingDoomed(t: Tree, r: Tree, installed: seq<Path>, c: Scene, desired: Tree, q: Path)
    requires forall p :: p in installed <==> p in c.changed && p in desired
    requires Installable(installed, desired)
    requires IsManifest(desired) && PartlyInstalled(t, r, installed, c, desired) && Leaf(r, q) && q !in c.changed
    ensures !Doomed(q, c.changed)
  {
    forall p | p in c.changed ensures !Above(p, q) {
      if p in desired {
        assert p in installed && Leaf(r, p);
      } else {
        assert Above(p, q) ==> AtOrBelow(q, p);
      }
    }
  }

  /** From any folder between two versions, one update in which every temporary name is free for its
      file leads to the desired version of the changed paths, takes away what was below them and
      changes nothing else, whatever the order of the paths. */
  lemma ReplaceExact(t: Tree, c: Scene, desired: Tree, removed: seq<Path>, installed: seq<Path>)
    requires Between(t, c) && Sane(c) && IsManifest(desired) && Open(c.kept, installed) && Uncovered(installed, c)
    requires Reachable(t, c.changed, desired) && Orders(c.changed, desired, removed, installed)
    requires RemoveAll(t, removed).Ok? ==> Fits(RemoveAll(t, removed).value, installed, c.kept, desired)
    ensures Replace(t, desired, removed, installed).Ok?
    ensures Updated(t, Replace(t, desired, removed, installed).value, c, desired)
  {
    RemovalsExact(t, removed, c, desired);
    var cleared := RemoveAll(t, removed).value;
    assert Gone(cleared, c.changed, desired) by {
      assert forall p, x :: p in removed && x in cleared ==> !AtOrBelow(x, p);
    }
    forall p | p in installed ensures Placeable(p, c, desired) {
    }
    InstallsExact(cleared, installed, c, desired);
    UpdatedAtEnd(t, cleared, InstallAll(cleared, installed, desired).value, removed, installed, c, desired);
  }

  lemma UpdatedAtEnd(t: Tree, cleared: Tree, r: Tree, removed: seq<Path>, installed: seq<Path>, c: Scene, desired: Tree)
    requires Sane(c) && IsManifest(desired) && Orders(c.changed, desired, removed, installed)
    requires forall q :: q in cleared ==> q in t && t[q] == cleared[q]
    requires PartlyInstalled(cleared, r, installed, c, desired)
    ensures Updated(t, r, c, desired)
  {
    forall q | Leaf(r, q) && q !in c.changed ensures Leaf(t, q) && t[q] == r[q] && !Doomed(q, c.changed) {
      NothingDoomed(cleared, r, installed, c, desired, q);
    }
    forall p | p in c.changed && p !in desired ensures !Leaf(r, p) {
      assert AtOrBelow(p, p);
    }
    forall p | p in c.changed && p in desired && desired[p].File? && Temp(p) !in c.changed ensures !Leaf(r, Temp(p)) {
      assert p in installed;
      assert Temp(p) !in installed;
    }
  }
}
