/** The handoff as the code runs it: a worklist walk for a manifest, the preflight
    over the changed paths, and the update of the source folder in place. */
module LocalCopyManager {
  import opened Common
  import opened FileTree
  import opened LocalCopy

  function Children(t: Tree, d: Path): set<Path> {
    set c | c in t && |c| == |d| + 1 && c[..|d|] == d
  }

  predicate Descends(t: Tree, c: Path) {
    c != [] && c in t && t[c].Dir? && c[|c| - 1] != GIT
  }

  /** One directory of the walk: the entries to report and the directories to visit. */
  method ScanDirectory(t: Tree, d: Path) returns (entries: Tree, dirs: set<Path>)
    requires GIT !in d
    ensures forall c :: c in entries <==> c in Children(t, d) && Reviewable(c, t[c])
    ensures forall c :: c in entries ==> entries[c] == t[c]
    ensures dirs == set c | c in Children(t, d) && Descends(t, c)
  {
    entries, dirs := map[], {};
    var todo := Children(t, d);
    while todo != {}
      invariant todo <= Children(t, d)
      invariant forall c :: c in entries <==> c in Children(t, d) - todo && Reviewable(c, t[c])
      invariant forall c :: c in entries ==> entries[c] == t[c]
      invariant dirs == set c | c in Children(t, d) - todo && Descends(t, c)
      decreases todo
    {
      var c :| c in todo;
      todo := todo - {c};
      assert c == d + [c[|d|]];
      if c[|d|] != GIT {
        if t[c].Link? {
          entries := entries[c := t[c]];
        } else if t[c].Dir? {
          dirs := dirs + {c};
        } else if t[c].File? {
          entries := entries[c := t[c]];
        }
      }
    }
  }

  ghost predicate Covered(p: Path, pending: set<Path>) {
    exists d :: d in pending && Above(d, p)
  }

  /** Directories still to visit: none inside another, none inside Git metadata. */
  ghost predicate Frontier(t: Tree, pending: set<Path>) {
    && (forall d :: d in pending ==> d in t && t[d].Dir? && GIT !in d)
    && (forall d, e :: d in pending && e in pending ==> !Above(d, e))
  }

  /** Every entry is reported already or lies below a directory still to visit. */
  ghost predicate Accounted(t: Tree, m: Tree, pending: set<Path>) {
    && (forall p :: p in m ==> p in t && Reviewable(p, t[p]) && m[p] == t[p])
    && (forall p :: p in t && Reviewable(p, t[p]) ==> p in m || Covered(p, pending))
  }

  /** Visiting one directory replaces it by its own directories and accounts for its entries. */
  lemma Visit(t: Tree, m: Tree, pending: set<Path>, d: Path, entries: Tree, dirs: set<Path>)
    requires Wellformed(t) && Frontier(t, pending) && Accounted(t, m, pending) && d in pending
    requires forall c :: c in entries <==> c in Children(t, d) && Reviewable(c, t[c])
    requires forall c :: c in entries ==> entries[c] == t[c]
    requires dirs == set c | c in Children(t, d) && Descends(t, c)
    ensures Frontier(t, pending - {d} + dirs) && Accounted(t, m + entries, pending - {d} + dirs)
  {
    var next := pending - {d} + dirs;
    forall c | c in dirs ensures Above(d, c) && GIT !in c {
      assert c == d + [c[|d|]];
    }
    forall a, b | a in next && b in next ensures !Above(a, b) {
      VisitAntichain(t, pending, d, dirs, a, b);
    }
    forall p | p in t && Reviewable(p, t[p]) ensures p in m + entries || Covered(p, next) {
      if p !in m {
        var e :| e in pending && Above(e, p);
        if e == d {
          ChildToward(t, d, p);
          var c := p[..|d| + 1];
          if c != p {
            assert c in dirs && Above(c, p);
          }
        } else {
          assert e in next;
        }
      }
    }
  }

  lemma VisitAntichain(t: Tree, pending: set<Path>, d: Path, dirs: set<Path>, a: Path, b: Path)
    requires Frontier(t, pending) && d in pending
    requires forall c :: c in dirs ==> Above(d, c) && |c| == |d| + 1
    requires a in pending - {d} + dirs && b in pending - {d} + dirs
    ensures !Above(a, b)
  {
    if Above(a, b) {
      if a in dirs && b !in dirs {
        AboveTransitive(d, a, b);
      } else if a !in dirs && b in dirs {
        AboveLinear(a, d, b);
      }
    }
  }

  lemma ChildToward(t: Tree, d: Path, p: Path)
    requires Wellformed(t) && p in t && Reviewable(p, t[p]) && Above(d, p)
    ensures p[..|d| + 1] in Children(t, d)
    ensures p[..|d| + 1] != p ==> Descends(t, p[..|d| + 1])
  {
    var c := p[..|d| + 1];
    assert c[..|d|] == d;
    if c != p {
      assert Above(c, p);
      assert c[|d|] in p;
    }
  }

  /** The walk reports exactly the reviewable entries. */
  method ReadManifest(t: Tree) returns (m: Tree)
    requires Wellformed(t)
    ensures m == Manifest(t)
  {
    m := map[];
    var pending: set<Path> := {[]};
    ghost var unseen := t.Keys;
    forall p | p in t && Reviewable(p, t[p]) ensures Covered(p, pending) {
      assert Above([], p);
    }
    while pending != {}
      invariant Frontier(t, pending) && Accounted(t, m, pending)
      invariant unseen <= t.Keys && forall p :: p in t && (p in pending || Covered(p, pending)) ==> p in unseen
      decreases unseen
    {
      var d :| d in pending;
      var entries, dirs := ScanDirectory(t, d);
      Visit(t, m, pending, d, entries, dirs);
      forall p | p in t && (p in pending - {d} + dirs || Covered(p, pending - {d} + dirs)) ensures p in unseen - {d} {
        StillUnseen(t, pending, d, dirs, p);
      }
      pending := pending - {d} + dirs;
      unseen := unseen - {d};
      m := m + entries;
    }
    assert m == Manifest(t);
  }

  lemma StillUnseen(t: Tree, pending: set<Path>, d: Path, dirs: set<Path>, p: Path)
    requires Frontier(t, pending) && d in pending
    requires dirs == set c | c in Children(t, d) && Descends(t, c)
    requires p in pending - {d} + dirs || Covered(p, pending - {d} + dirs)
    ensures p != d && (p in pending || Covered(p, pending))
  {
    if p in dirs {
      assert Above(d, p);
    } else if p !in pending - {d} {
      var e :| e in pending - {d} + dirs && Above(e, p);
      if e in dirs {
        assert Above(d, e);
        AboveTransitive(d, e, p);
      }
    }
  }

  /** Stops before anything changes, unless every changed path may be handed off. */
  method Preflight(baseline: Tree, source: Tree, workspace: Tree) returns (r: Result<set<Path>, Fault>)
    requires Wellformed(baseline) && Wellformed(source) && Wellformed(workspace)
    ensures r.Ok? <==> PreflightOk(Manifest(baseline), source, Manifest(workspace))
    ensures r.Ok? ==> r.value == Changed(Manifest(baseline), Manifest(workspace))
  {
    var before := ReadManifest(baseline);
    var current := ReadManifest(source);
    var task := ReadManifest(workspace);
    var changed := Changed(before, task);
    var todo := changed;
    while todo != {}
      invariant todo <= changed
      invariant forall p :: p in changed - todo ==> !ThroughLink(source, p) && (p in source ==> !source[p].Special?)
      decreases todo
    {
      var p :| p in todo;
      if ThroughLink(source, p) {
        return Err(Escapes(p));
      } else if p in source && source[p].Special? {
        return Err(Occupied(p));
      }
      todo := todo - {p};
    }
    todo := changed;
    while todo != {}
      invariant todo <= changed
      invariant forall p :: p in changed - todo ==> Entry(current, p) == Entry(before, p)
      decreases todo
    {
      var p :| p in todo;
      if Entry(current, p) != Entry(before, p) {
        return Err(Conflict(p));
      }
      todo := todo - {p};
    }
    return Ok(changed);
  }

  /** A source folder, updated in place. */
  class Folder {
    var tree: Tree

    /** The two loops, over the changed paths split and ordered by the caller. */
    method ReplaceChanged(desired: Tree, removed: seq<Path>, installed: seq<Path>) returns (r: Result<bool, Fault>)
      requires Installable(installed, desired)
      modifies this
      ensures r.Ok? ==> Replace(old(tree), desired, removed, installed) == Ok(tree)
      ensures r.Err? ==> Replace(old(tree), desired, removed, installed) == Err(r.error)
    {
      var i := 0;
      while i < |removed|
        invariant 0 <= i <= |removed|
        invariant RemoveAll(old(tree), removed) == RemoveAll(tree, removed[i..])
      {
        var target := removed[i];
        assert removed[i..][0] == target && removed[i..][1..] == removed[i + 1..];
        assert target !in tree ==> tree - {target} == tree;
        if ThroughLink(tree, target) {
          return Err(Escapes(target));
        } else if target in tree && tree[target].Dir? {
          tree := Without(tree, target);
        } else if target in tree {
          tree := tree - {target};
        }
        i := i + 1;
      }
      i := 0;
      while i < |installed|
        invariant 0 <= i <= |installed|
        invariant Replace(old(tree), desired, removed, installed) == InstallAll(tree, installed[i..], desired)
      {
        var outcome := InstallOne(tree, installed[i], desired[installed[i]]);
        if outcome.Err? {
          return Err(outcome.error);
        }
        tree := outcome.value;
        i := i + 1;
      }
      return Ok(true);
    }
  }
}
