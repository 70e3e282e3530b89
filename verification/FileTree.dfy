/** A folder as a map from relative paths to nodes, and the two primitives a handoff
    uses on it: remove what is at a path, and install a file or link there. */
module FileTree {
  import opened Common

  type Name = string
  type Path = seq<Name>

  datatype Node = Dir | File(mode: int, data: seq<int>) | Link(target: string) | Special

  type Tree = map<Path, Node>

  datatype Fault = Escapes(path: Path) | NotADirectory(path: Path) | TempBlocked(path: Path)
                 | Occupied(path: Path) | Conflict(path: Path)

  /** `q` is a proper ancestor of `p`. */
  predicate Above(q: Path, p: Path) {
    |q| < |p| && q == p[..|q|]
  }

  predicate AtOrBelow(q: Path, p: Path) {
    q == p || Above(p, q)
  }

  /** Every proper ancestor of a node is a directory; the folder itself is the empty path. */
  ghost predicate Wellformed(t: Tree) {
    && [] in t && t[[]].Dir?
    && (forall p, q :: p in t && Above(q, p) ==> q in t && t[q].Dir?)
  }

  predicate Leaf(t: Tree, p: Path) {
    p in t && !t[p].Dir?
  }

  /** Everything in the folder that is not a directory. */
  function Leaves(t: Tree): Tree {
    t - set p | p in t && t[p].Dir?
  }

  const GIT := ".git"

  predicate Reviewable(p: Path, n: Node) {
    (n.File? || n.Link?) && GIT !in p
  }

  /** The files and links a review sees: nothing inside Git metadata, no special files. */
  function Manifest(t: Tree): Tree {
    t - set p | p in t && !Reviewable(p, t[p])
  }

  function TempName(n: Name): Name {
    "." + n + ".cowork-tmp"
  }

  /** The sibling a file is copied to before it is renamed into place. */
  function Temp(p: Path): Path
    requires p != []
  {
    p[..|p| - 1] + [TempName(p[|p| - 1])]
  }

  /** Some proper ancestor of `p` is a link, so that `p` does not name an entry of this folder. */
  predicate ThroughLink(t: Tree, p: Path) {
    exists n :: 0 <= n < |p| && p[..n] in t && t[p[..n]].Link?
  }

  /** Some proper ancestor of `p` is in the way of making `p`'s directory. */
  predicate Blocked(t: Tree, p: Path) {
    exists n :: 0 <= n < |p| && Leaf(t, p[..n])
  }

  function Without(t: Tree, p: Path): Tree {
    t - set q | q in t && AtOrBelow(q, p)
  }

  /** Remove what is at `p`: a whole directory, a single entry, or nothing. */
  function RemoveOne(t: Tree, p: Path): Result<Tree, Fault> {
    if ThroughLink(t, p) then Err(Escapes(p))
    else if p in t && t[p].Dir? then Ok(Without(t, p))
    else Ok(t - {p})
  }

  /** Make the first `n` ancestors of `p`. */
  function MakeDirs(t: Tree, p: Path, n: nat): Tree
    requires n <= |p|
  {
    if n == 0 then t else
    var made := MakeDirs(t, p, n - 1);
    if p[..n - 1] in made then made else made[p[..n - 1] := Dir]
  }

  function ClearDir(t: Tree, p: Path): Tree {
    if p in t && t[p].Dir? then Without(t, p) else t
  }

  /** The folder with the directory at `from` renamed to its sibling `to`. */
  function Moved(t: Tree, from: Path, to: Path): Tree
    requires |from| == |to|
  {
    var keys := set q | q in t && AtOrBelow(q, from) :: to + q[|from|..];
    Without(t, from) + map q | q in keys && from + q[|to|..] in t :: t[from + q[|to|..]]
  }

  /** The temporary name is taken by something that is not a file. A file is copied into a
      directory of that name, which is then renamed to the target, unless an entry is there;
      a link of that name is written through and renamed; a special file cannot be written. */
  function InstallThrough(t: Tree, p: Path, node: Node): Result<Tree, Fault>
    requires p != [] && Temp(p) in t && !t[Temp(p)].File?
  {
    var temp := Temp(p);
    var inner := temp + [p[|p| - 1]];
    if t[temp].Link? then Ok((t - {temp})[p := t[temp]])
    else if t[temp].Special? || p in t || (inner in t && (t[inner].Dir? || t[inner].Special?)) then Err(TempBlocked(p))
    else Ok(Moved(if Leaf(t, inner) && t[inner].Link? then t else t[inner := node], temp, p))
  }

  /** Put `node` at `p`, making its directory; a file goes through its temporary sibling. */
  function InstallOne(t: Tree, p: Path, node: Node): Result<Tree, Fault>
    requires p != []
  {
    if ThroughLink(t, p) then Err(Escapes(p)) else
    var cleared := ClearDir(t, p);
    if Blocked(cleared, p) then Err(NotADirectory(p)) else
    var made := MakeDirs(cleared, p, |p|);
    if node.Link? then Ok(made[p := node])
    else if Temp(p) in made && !made[Temp(p)].File? then InstallThrough(made, p, node)
    else Ok((made - {Temp(p)})[p := node])
  }

  lemma AboveTransitive(a: Path, b: Path, c: Path)
    requires Above(a, b) && Above(b, c)
    ensures Above(a, c)
  {
    assert a == b[..|a|] == c[..|b|][..|a|];
  }

  /** Two ancestors of one path are comparable. */
  lemma AboveLinear(a: Path, b: Path, c: Path)
    requires Above(a, c) && Above(b, c)
    ensures a == b || Above(a, b) || Above(b, a)
  {
    if |a| <= |b| {
      assert a == c[..|b|][..|a|];
    } else {
      assert b == c[..|a|][..|b|];
    }
  }

  lemma AboveTemp(q: Path, p: Path)
    requires p != []
    ensures Above(q, Temp(p)) <==> Above(q, p)
    ensures Temp(p) != p && !Above(p, Temp(p)) && !Above(Temp(p), p)
  {
    assert |Temp(p)| == |p|;
    assert |q| < |p| ==> Temp(p)[..|q|] == p[..|q|];
    assert |TempName(p[|p| - 1])| > |p[|p| - 1]|;
  }

  lemma ThroughLinkMeans(t: Tree, p: Path)
    ensures ThroughLink(t, p) <==> exists q :: Above(q, p) && q in t && t[q].Link?
  {
    if ThroughLink(t, p) {
      var n :| 0 <= n < |p| && p[..n] in t && t[p[..n]].Link?;
      assert Above(p[..n], p);
    }
    forall q | Above(q, p) && q in t && t[q].Link? ensures ThroughLink(t, p) {
      assert q == p[..|q|];
    }
  }

  lemma BlockedMeans(t: Tree, p: Path)
    ensures Blocked(t, p) <==> exists q :: Above(q, p) && Leaf(t, q)
  {
    if Blocked(t, p) {
      var n :| 0 <= n < |p| && Leaf(t, p[..n]);
      assert Above(p[..n], p);
    }
    forall q | Above(q, p) && Leaf(t, q) ensures Blocked(t, p) {
      assert q == p[..|q|];
    }
  }

  /** Removing a whole subtree leaves a folder. */
  lemma WithoutKeeps(t: Tree, p: Path)
    requires Wellformed(t) && p != []
    ensures Wellformed(Without(t, p))
    ensures forall q :: q in Without(t, p) <==> q in t && !AtOrBelow(q, p)
    ensures forall q :: q in Without(t, p) ==> Without(t, p)[q] == t[q]
  {
    var w := Without(t, p);
    forall a, q | a in w && Above(q, a) ensures q in w && w[q].Dir? {
      if Above(p, q) {
        AboveTransitive(p, q, a);
      }
    }
  }

  /** Removal takes away exactly `p` and what is below it. */
  lemma RemoveOneExact(t: Tree, p: Path)
    requires Wellformed(t) && p != [] && !ThroughLink(t, p)
    ensures RemoveOne(t, p) == Ok(Without(t, p))
    ensures Wellformed(Without(t, p))
  {
    WithoutKeeps(t, p);
    if !(p in t && t[p].Dir?) {
      assert forall q :: q in t && AtOrBelow(q, p) ==> q == p;
      assert t - {p} == Without(t, p);
    }
  }

  lemma {:induction false} MakeDirsExact(t: Tree, p: Path, n: nat)
    requires n <= |p|
    requires forall i :: 0 <= i < n && p[..i] in t ==> t[p[..i]].Dir?
    ensures forall q :: q in t ==> q in MakeDirs(t, p, n) && MakeDirs(t, p, n)[q] == t[q]
    ensures forall q :: q in MakeDirs(t, p, n) && q !in t ==> |q| < n && q == p[..|q|] && MakeDirs(t, p, n)[q] == Dir
    ensures forall i :: 0 <= i < n ==> p[..i] in MakeDirs(t, p, n) && MakeDirs(t, p, n)[p[..i]].Dir?
  {
    if n > 0 {
      MakeDirsExact(t, p, n - 1);
    }
  }

  /** Making `p`'s directory adds only directories, namely `p`'s missing ancestors. */
  lemma ParentsMade(t: Tree, p: Path)
    requires Wellformed(t) && !Blocked(t, p)
    ensures
      var made := MakeDirs(t, p, |p|);
      && Wellformed(made)
      && (forall q :: Above(q, p) ==> q in made && made[q].Dir?)
      && (forall q :: q in t ==> q in made && made[q] == t[q])
      && (forall q :: q in made && q !in t ==> Above(q, p) && made[q].Dir?)
  {
    BlockedMeans(t, p);
    forall i | 0 <= i < |p| && p[..i] in t ensures t[p[..i]].Dir? {
      assert Above(p[..i], p);
    }
    MakeDirsExact(t, p, |p|);
    var made := MakeDirs(t, p, |p|);
    forall q | Above(q, p) ensures q in made && made[q].Dir? {
      assert q == p[..|q|];
    }
    forall a, q | a in made && Above(q, a) ensures q in made && made[q].Dir? {
      if a !in t {
        AboveTransitive(q, a, p);
      }
    }
  }

  /** `r` is `t` with `node` at `p`: every other leaf is as it was, except below `p` and,
      for a file, at its temporary name; a new directory is an ancestor of `p`. */
  ghost predicate Installed(t: Tree, r: Tree, p: Path, node: Node)
    requires p != []
  {
    && Wellformed(r) && p in r && r[p] == node
    && (forall q :: q != p ==>
          (Leaf(r, q) <==> Leaf(t, q) && !Above(p, q) && (q == Temp(p) ==> node.Link?)))
    && (forall q :: q != p && Leaf(r, q) ==> r[q] == t[q])
    && (forall q :: q in r && r[q].Dir? ==> (q in t && t[q].Dir?) || Above(q, p))
  }

  /** An installation that nothing blocks is possible, and does just that. */
  lemma InstallOneExact(t: Tree, p: Path, node: Node)
    requires Wellformed(t) && p != [] && !node.Dir? && !Blocked(t, p)
    requires node.Link? || (Temp(p) in t ==> t[Temp(p)].File?)
    ensures InstallOne(t, p, node).Ok? && Installed(t, InstallOne(t, p, node).value, p, node)
  {
    BlockedMeans(t, p);
    ThroughLinkMeans(t, p);
    AboveTemp(p, p);
    var cleared := ClearDir(t, p);
    WithoutKeeps(t, p);
    BlockedMeans(cleared, p);
    ParentsMade(cleared, p);
    var made := MakeDirs(cleared, p, |p|);
    assert Temp(p) in made ==> Temp(p) in t by {
      assert !AtOrBelow(Temp(p), p);
    }
    var r := InstallOne(t, p, node).value;
    assert forall q :: q in made && Above(p, q) ==> false;
    forall a, q | a in r && Above(q, a) ensures q in r && r[q].Dir? {
      if a != p {
        assert a in made;
      }
      assert q in made && made[q].Dir?;
    }
  }

  // ---- What holds of every installation that succeeds ----

  lemma MovedExact(t: Tree, from: Path, to: Path)
    requires Wellformed(t) && from != [] && |from| == |to| && from[..|from| - 1] == to[..|to| - 1] && from != to
    requires from in t && t[from].Dir? && forall q :: q in t ==> !AtOrBelow(q, to)
    ensures
      var r := Moved(t, from, to);
      && Wellformed(r)
      && (forall q :: !AtOrBelow(q, from) && !AtOrBelow(q, to) ==> (q in r <==> q in t) && (q in t ==> r[q] == t[q]))
      && (forall q :: q in r ==> !AtOrBelow(q, from))
      && to in r && r[to].Dir?
  {
    var r := Moved(t, from, to);
    SiblingsApart(from, to);
    forall q | q in r && !AtOrBelow(q, to) ensures q in t && r[q] == t[q] && !AtOrBelow(q, from) {
      assert q in Without(t, from) || AtOrBelow(q, to);
    }
    forall q | AtOrBelow(q, to) ensures q in r <==> from + q[|to|..] in t {
      Renamed(from, to, q);
    }
    forall q | AtOrBelow(q, to) && q in r ensures r[q] == t[from + q[|to|..]] {
      Renamed(from, to, q);
    }
    assert to in r && r[to].Dir? by {
      assert from + to[|to|..] == from;
    }
    forall a, q | a in r && Above(q, a) ensures q in r && r[q].Dir? {
      MovedAncestor(t, r, from, to, a, q);
    }
  }

  lemma SiblingsApart(from: Path, to: Path)
    requires |from| == |to| && from != to
    ensures forall q :: !(AtOrBelow(q, from) && AtOrBelow(q, to))
  {
  }

  /** A path at or below `to` corresponds to one at or below `from`. */
  lemma Renamed(from: Path, to: Path, q: Path)
    requires |from| == |to| && AtOrBelow(q, to)
    ensures AtOrBelow(from + q[|to|..], from) && to + (from + q[|to|..])[|from|..] == q
  {
    assert q == to + q[|to|..];
    assert (from + q[|to|..])[..|from|] == from && (from + q[|to|..])[|from|..] == q[|to|..];
  }

  lemma MovedAncestor(t: Tree, r: Tree, from: Path, to: Path, a: Path, q: Path)
    requires Wellformed(t) && from != [] && |from| == |to| && from[..|from| - 1] == to[..|to| - 1] && from != to
    requires from in t && t[from].Dir?
    requires forall x :: x in r && !AtOrBelow(x, to) ==> x in t && r[x] == t[x] && !AtOrBelow(x, from)
    requires forall x :: x in t && !AtOrBelow(x, from) && !AtOrBelow(x, to) ==> x in r && r[x] == t[x]
    requires forall x :: AtOrBelow(x, to) ==> (x in r <==> from + x[|to|..] in t)
    requires forall x :: AtOrBelow(x, to) && x in r ==> r[x] == t[from + x[|to|..]]
    requires a in r && Above(q, a)
    ensures q in r && r[q].Dir?
  {
    if AtOrBelow(q, to) {
      var b := from + a[|to|..];
      assert AtOrBelow(a, to) by {
        if q != to {
          AboveTransitive(to, q, a);
        }
      }
      assert from + q[|to|..] == b[..|q|];
      assert Above(from + q[|to|..], b);
    } else if AtOrBelow(a, to) {
      assert q == from[..|q|] by {
        assert q == a[..|q|] == to[..|q|] == to[..|to| - 1][..|q|] == from[..|from| - 1][..|q|];
      }
      assert Above(q, from);
      assert !AtOrBelow(q, from);
    } else {
      assert Above(q, a) && q in t && t[q].Dir?;
      if AtOrBelow(q, from) && q != from {
        AboveTransitive(from, q, a);
      }
    }
  }

  /** `x` is none of the paths the installation of `node` at `p` can touch. */
  ghost predicate Elsewhere(x: Path, p: Path, node: Node)
    requires p != []
  {
    !AtOrBelow(x, p) && !Above(x, p) && (node.File? ==> !AtOrBelow(x, Temp(p)))
  }

  /** What every successful installation does, whatever its temporary name held before: it leaves
      a folder with something at `p`, it changes nothing elsewhere, and it uses the temporary name up;
      a directory or link of that name ends up at `p`. */
  ghost predicate Settles(t: Tree, r: Tree, p: Path, node: Node)
    requires p != []
  {
    && Wellformed(r) && p in r
    && (forall x :: Elsewhere(x, p, node) ==> (x in r <==> x in t) && (x in t ==> r[x] == t[x]))
    && (node.File? ==> Temp(p) !in r)
    && (node.File? && Temp(p) in t && !t[Temp(p)].File? ==> !r[p].File?)
  }

  /** A folder with `p`'s directory made and nothing below `p`. */
  ghost predicate Ready(t: Tree, p: Path) {
    && Wellformed(t) && p != []
    && (forall q :: Above(q, p) ==> q in t && t[q].Dir?)
    && (p in t ==> !t[p].Dir?)
  }

  /** Making the directory changes nothing elsewhere. */
  lemma MadeReady(t: Tree, p: Path)
    requires Wellformed(t) && p != [] && !Blocked(ClearDir(t, p), p)
    ensures
      var made := MakeDirs(ClearDir(t, p), p, |p|);
      && Ready(made, p)
      && (forall x :: !AtOrBelow(x, p) && !Above(x, p) ==> (x in made <==> x in t) && (x in t ==> made[x] == t[x]))
  {
    WithoutKeeps(t, p);
    ParentsMade(ClearDir(t, p), p);
    assert !AtOrBelow(p, Temp(p));
  }

  lemma PutWellformed(t: Tree, p: Path, node: Node)
    requires Ready(t, p)
    ensures Wellformed(t[p := node])
  {
    var r := t[p := node];
    forall a, q | a in r && Above(q, a) ensures q in r && r[q].Dir? {
      if a != p {
        assert q in t && t[q].Dir?;
      }
    }
  }

  lemma WithoutTemp(t: Tree, p: Path)
    requires Ready(t, p) && (Temp(p) in t ==> !t[Temp(p)].Dir?)
    ensures Ready(t - {Temp(p)}, p)
  {
    AboveTemp(p, p);
  }

  lemma InstallThroughSettles(t: Tree, p: Path, node: Node)
    requires Ready(t, p) && node.File? && Temp(p) in t && !t[Temp(p)].File? && InstallThrough(t, p, node).Ok?
    ensures Settles(t, InstallThrough(t, p, node).value, p, node)
  {
    var temp := Temp(p);
    AboveTemp(p, p);
    if t[temp].Link? {
      WithoutTemp(t, p);
      PutWellformed(t - {temp}, p, t[temp]);
    } else {
      var inner := temp + [p[|p| - 1]];
      assert Above(temp, inner);
      var filled := if Leaf(t, inner) && t[inner].Link? then t else t[inner := node];
      assert Wellformed(filled) by {
        forall a, q | a in filled && Above(q, a) ensures q in filled && filled[q].Dir? {
          if a == inner {
            assert q == temp || Above(q, temp) by {
              assert |q| < |temp| ==> q == inner[..|q|] == temp[..|q|];
              assert |q| == |temp| ==> q == inner[..|q|] == temp;
            }
          }
        }
      }
      assert forall q :: q in filled ==> !AtOrBelow(q, p) by {
        SiblingsApart(temp, p);
        assert AtOrBelow(inner, temp);
      }
      MovedExact(filled, temp, p);
    }
  }

  lemma InstallSettles(t: Tree, p: Path, node: Node)
    requires Wellformed(t) && p != [] && (node.File? || node.Link?) && InstallOne(t, p, node).Ok?
    ensures Settles(t, InstallOne(t, p, node).value, p, node)
  {
    MadeReady(t, p);
    var made := MakeDirs(ClearDir(t, p), p, |p|);
    AboveTemp(p, p);
    assert Temp(p) in made <==> Temp(p) in t;
    if node.Link? {
      PutWellformed(made, p, node);
    } else if Temp(p) in made && !made[Temp(p)].File? {
      InstallThroughSettles(made, p, node);
    } else {
      WithoutTemp(made, p);
      PutWellformed(made - {Temp(p)}, p, node);
    }
  }

  /** A leaf above the path blocks the installation. */
  lemma LeafBlocks(t: Tree, p: Path, node: Node, q: Path)
    requires Wellformed(t) && p != [] && Above(q, p) && Leaf(t, q)
    ensures InstallOne(t, p, node).Err?
  {
    WithoutKeeps(t, p);
    BlockedMeans(ClearDir(t, p), p);
    assert Leaf(ClearDir(t, p), q);
  }

  lemma TempInjective(p: Path, q: Path)
    requires p != [] && q != [] && Temp(p) == Temp(q)
    ensures p == q
  {
    var a, b := p[|p| - 1], q[|q| - 1];
    assert |p| == |Temp(p)| == |q|;
    assert Temp(p)[..|p| - 1] == p[..|p| - 1] && Temp(q)[..|q| - 1] == q[..|q| - 1];
    assert TempName(a) == Temp(p)[|p| - 1] == TempName(b);
    assert a == TempName(a)[1..1 + |a|] && b == TempName(b)[1..1 + |b|];
    assert p == p[..|p| - 1] + [a] && q == q[..|q| - 1] + [b];
  }
}
