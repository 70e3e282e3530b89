/** The crash-safe multi-document commit that the control-plane store and the
    project store share (cowork/coding/control_store.py, project_store.py).

    Every document is staged beside its target, a journal of before-images is
    renamed into place, the stages are renamed onto their targets and the journal
    is removed. Opening a store undoes whatever a journal describes. A created
    document has no before-image, so undoing it removes it.

    The disk is a map, a program is a list of atomic operations, and a crash may
    fall between any two of them: a crash leaves what a prefix of the list did. */
module UndoJournal {
  import opened Common

  datatype Path =
    | Target(space: Id, id: Id)
    | Stage(space: Id, id: Id, txn: Id)
    | Restore(space: Id, id: Id)
    | Journal
    | JournalTemp

  datatype Entry = Entry(space: Id, id: Id, txn: Id, before: Option<Content>)

  /** A file's content; a torn file is one whose write had not finished. */
  datatype Content = Torn | Document(data: string) | Entries(entries: seq<Entry>)

  type Disk = map<Path, Content>

  datatype Doc = Doc(space: Id, id: Id, content: Content)

  datatype DiskOp =
    | Tear(path: Path)
    | Write(path: Path, content: Content)
    | Rename(src: Path, dst: Path)
    | Unlink(path: Path)

  /** The operating system refuses to rename a file that is not there. */
  predicate Doable(d: Disk, op: DiskOp) {
    op.Rename? ==> op.src in d
  }

  /** What an operation makes of the disk; one that is refused changes nothing. */
  function Apply(d: Disk, op: DiskOp): Disk {
    match op
    case Tear(path) => d[path := Torn]
    case Write(path, content) => d[path := content]
    case Rename(src, dst) => if src in d then (d - {src})[dst := d[src]] else d
    case Unlink(path) => d - {path}
  }

  function ApplyAll(d: Disk, ops: seq<DiskOp>): Disk
    decreases |ops|
  {
    if ops == [] then d else ApplyAll(Apply(d, ops[0]), ops[1..])
  }

  /** What readers see: the documents at their targets. */
  function Docs(d: Disk): Disk {
    d - set p | p in d && !p.Target?
  }

  // ---------------------------------------------------------------- the programs

  function TargetOf(x: Doc): Path {
    Target(x.space, x.id)
  }

  function StageOf(x: Doc, txn: Id): Path {
    Stage(x.space, x.id, txn)
  }

  function StageOps(docs: seq<Doc>, txn: Id): (ops: seq<DiskOp>)
    ensures |ops| == 2 * |docs|
  {
    if docs == [] then []
    else [Tear(StageOf(docs[0], txn)), Write(StageOf(docs[0], txn), docs[0].content)] + StageOps(docs[1..], txn)
  }

  function Get(d: Disk, p: Path): Option<Content> {
    if p in d then Some(d[p]) else None
  }

  /** The journal: each document with what its target held before. */
  function Images(docs: seq<Doc>, txn: Id, d: Disk): seq<Entry> {
    if docs == [] then []
    else [Entry(docs[0].space, docs[0].id, txn, Get(d, TargetOf(docs[0])))] + Images(docs[1..], txn, d)
  }

  function JournalOps(entries: seq<Entry>): seq<DiskOp> {
    [Tear(JournalTemp), Write(JournalTemp, Entries(entries)), Rename(JournalTemp, Journal)]
  }

  function InstallOps(docs: seq<Doc>, txn: Id): (ops: seq<DiskOp>)
    ensures |ops| == |docs|
  {
    if docs == [] then []
    else [Rename(StageOf(docs[0], txn), TargetOf(docs[0]))] + InstallOps(docs[1..], txn)
  }

  function UnstageOps(docs: seq<Doc>, txn: Id): seq<DiskOp> {
    if docs == [] then [] else [Unlink(StageOf(docs[0], txn))] + UnstageOps(docs[1..], txn)
  }

  function CleanupOps(docs: seq<Doc>, txn: Id): seq<DiskOp> {
    [Unlink(JournalTemp)] + UnstageOps(docs, txn)
  }

  /** Everything up to the removal of the journal. */
  function PrepareOps(docs: seq<Doc>, txn: Id, d: Disk): seq<DiskOp> {
    StageOps(docs, txn) + JournalOps(Images(docs, txn, d)) + InstallOps(docs, txn)
  }

  /** The whole commit; removing the journal is the operation that commits. */
  function SaveOps(docs: seq<Doc>, txn: Id, d: Disk): seq<DiskOp> {
    PrepareOps(docs, txn, d) + [Unlink(Journal)] + CleanupOps(docs, txn)
  }

  function TargetOfEntry(e: Entry): Path {
    Target(e.space, e.id)
  }

  function UndoOps(e: Entry): seq<DiskOp> {
    if e.before == None then
      [Unlink(TargetOfEntry(e)), Unlink(Stage(e.space, e.id, e.txn))]
    else
      var restore := Restore(e.space, e.id);
      [Tear(restore), Write(restore, e.before.value), Rename(restore, TargetOfEntry(e)),
       Unlink(Stage(e.space, e.id, e.txn))]
  }

  function UndoAllOps(entries: seq<Entry>): seq<DiskOp> {
    if entries == [] then [] else UndoOps(entries[0]) + UndoAllOps(entries[1..])
  }

  predicate HasJournal(d: Disk) {
    Journal in d && d[Journal].Entries?
  }

  /** Recovery reads the journal and does nothing when there is none. */
  function RecoverOps(d: Disk): seq<DiskOp> {
    if HasJournal(d) then UndoAllOps(d[Journal].entries) + [Unlink(Journal)] else []
  }

  function Recover(d: Disk): Disk {
    ApplyAll(d, RecoverOps(d))
  }

  /** One recovery cut short by a crash after `cut` operations. */
  function CutShort(d: Disk, cut: nat): Disk {
    ApplyAll(d, RecoverOps(d)[..if cut < |RecoverOps(d)| then cut else |RecoverOps(d)|])
  }

  function Attempts(d: Disk, cuts: seq<nat>): Disk
    decreases |cuts|
  {
    if cuts == [] then d else Attempts(CutShort(d, cuts[0]), cuts[1..])
  }

  // ---------------------------------------------------------------- what undoing means

  function Undo(docs: Disk, e: Entry): Disk {
    if e.before == None then docs - {TargetOfEntry(e)} else docs[TargetOfEntry(e) := e.before.value]
  }

  function UndoAll(docs: Disk, entries: seq<Entry>): Disk
    decreases |entries|
  {
    if entries == [] then docs else UndoAll(Undo(docs, entries[0]), entries[1..])
  }

  /** A completed recovery of `d` will leave exactly the documents `goal`. */
  predicate Undoable(d: Disk, goal: Disk) {
    if Journal in d then d[Journal].Entries? && UndoAll(Docs(d), d[Journal].entries) == goal
    else Docs(d) == goal
  }

  /** No document is written twice in one commit. */
  predicate Distinct(docs: seq<Doc>) {
    forall i, j :: 0 <= i < j < |docs| ==> TargetOf(docs[i]) != TargetOf(docs[j])
  }

  /** The documents of a successful commit. */
  function NewDocs(docs: seq<Doc>): Disk {
    if docs == [] then map[] else map[TargetOf(docs[0]) := docs[0].content] + NewDocs(docs[1..])
  }

  // ---------------------------------------------------------------- lists of operations

  lemma {:induction false} ApplyConcat(d: Disk, a: seq<DiskOp>, b: seq<DiskOp>)
    ensures ApplyAll(d, a + b) == ApplyAll(ApplyAll(d, a), b)
    decreases |a|
  {
    if a == [] {
      assert a + b == b;
    } else {
      assert (a + b)[1..] == a[1..] + b;
      ApplyConcat(Apply(d, a[0]), a[1..], b);
    }
  }

  /** A cut through two lists falls in one of them. */
  lemma CutConcat(d: Disk, a: seq<DiskOp>, b: seq<DiskOp>, k: nat)
    requires k <= |a| + |b|
    ensures ApplyAll(d, (a + b)[..k]) ==
      if k <= |a| then ApplyAll(d, a[..k]) else ApplyAll(ApplyAll(d, a), b[..k - |a|])
  {
    if k <= |a| {
      assert (a + b)[..k] == a[..k];
    } else {
      assert (a + b)[..k] == a + b[..k - |a|];
      ApplyConcat(d, a, b[..k - |a|]);
    }
  }

  lemma OneMoreOp(d: Disk, ops: seq<DiskOp>, k: nat)
    requires k < |ops|
    ensures ApplyAll(d, ops[..k + 1]) == Apply(ApplyAll(d, ops[..k]), ops[k])
  {
    var last := [ops[k]];
    assert ops[..k + 1] == ops[..k] + last;
    ApplyConcat(d, ops[..k], last);
    assert last[1..] == [];
  }

  /** Neither a target nor the journal is touched. */
  predicate Quiet(op: DiskOp) {
    && !op.Rename?
    && !op.path.Target?
    && !op.path.Journal?
  }

  lemma {:induction false} QuietOps(d: Disk, ops: seq<DiskOp>)
    requires forall i :: 0 <= i < |ops| ==> Quiet(ops[i])
    ensures Docs(ApplyAll(d, ops)) == Docs(d)
    ensures Get(ApplyAll(d, ops), Journal) == Get(d, Journal)
    decreases |ops|
  {
    if ops != [] {
      QuietOp(d, ops[0]);
      QuietOps(Apply(d, ops[0]), ops[1..]);
    }
  }

  // ---------------------------------------------------------------- undoing

  predicate Covers(entries: seq<Entry>, p: Path) {
    exists i :: 0 <= i < |entries| && TargetOfEntry(entries[i]) == p
  }

  /** Undoing an entry early changes nothing about undoing them all. */
  lemma {:induction false} UndoAbsorbs(docs: Disk, e: Entry, entries: seq<Entry>)
    requires e in entries
    ensures UndoAll(Undo(docs, e), entries) == UndoAll(docs, entries)
    decreases |entries|
  {
    var first, rest := entries[0], entries[1..];
    if TargetOfEntry(first) == TargetOfEntry(e) {
      assert Undo(Undo(docs, e), first) == Undo(docs, first);
    } else {
      assert Undo(Undo(docs, e), first) == Undo(Undo(docs, first), e);
      UndoAbsorbs(Undo(docs, first), e, rest);
    }
  }

  /** Undoing only looks at the documents no entry covers. */
  lemma {:induction false} UndoForgets(a: Disk, b: Disk, entries: seq<Entry>)
    requires forall p :: !Covers(entries, p) ==> Get(a, p) == Get(b, p)
    ensures UndoAll(a, entries) == UndoAll(b, entries)
    decreases |entries|
  {
    if entries == [] {
      forall p ensures Get(a, p) == Get(b, p) {
        assert !Covers(entries, p);
      }
      SameDisk(a, b);
    } else {
      var a1, b1 := Undo(a, entries[0]), Undo(b, entries[0]);
      forall p | !Covers(entries[1..], p) ensures Get(a1, p) == Get(b1, p) {
        CoversFirst(entries, p);
      }
      UndoForgets(a1, b1, entries[1..]);
    }
  }

  lemma CoversFirst(entries: seq<Entry>, p: Path)
    requires entries != []
    ensures Covers(entries, p) <==> TargetOfEntry(entries[0]) == p || Covers(entries[1..], p)
  {
    if i :| 1 <= i < |entries| && TargetOfEntry(entries[i]) == p {
      assert TargetOfEntry(entries[1..][i - 1]) == p;
    }
    if i :| 0 <= i < |entries| - 1 && TargetOfEntry(entries[1..][i]) == p {
      assert TargetOfEntry(entries[i + 1]) == p;
    }
  }

  lemma SameDisk(a: Disk, b: Disk)
    requires forall p :: Get(a, p) == Get(b, p)
    ensures a == b
  {
    forall p ensures p in a <==> p in b {
      assert Get(a, p) == Get(b, p);
    }
    forall p | p in a ensures a[p] == b[p] {
      assert Get(a, p) == Get(b, p);
    }
  }

  // ---------------------------------------------------------------- recovery

  lemma QuietOp(d: Disk, op: DiskOp)
    requires Quiet(op)
    ensures Docs(Apply(d, op)) == Docs(d) && Get(Apply(d, op), Journal) == Get(d, Journal)
  {
  }

  lemma RenameOnto(d: Disk, src: Path, dst: Path)
    requires src in d && !src.Target? && !src.Journal? && dst.Target?
    ensures var d' := Apply(d, Rename(src, dst));
      Docs(d') == Docs(d)[dst := d[src]] && Get(d', Journal) == Get(d, Journal)
  {
  }

  lemma UnlinkTarget(d: Disk, p: Path)
    requires p.Target?
    ensures var d' := Apply(d, Unlink(p)); Docs(d') == Docs(d) - {p} && Get(d', Journal) == Get(d, Journal)
  {
  }

  /** Where a cut can fall inside the undoing of one entry. */
  predicate Midway(d: Disk, d': Disk, e: Entry, complete: bool) {
    && (Docs(d') == Docs(d) || Docs(d') == Undo(Docs(d), e))
    && Get(d', Journal) == Get(d, Journal)
    && (complete ==> Docs(d') == Undo(Docs(d), e))
  }

  lemma UndoCreationCut(d: Disk, e: Entry, k: nat)
    requires e.before == None && k <= |UndoOps(e)|
    ensures Midway(d, ApplyAll(d, UndoOps(e)[..k]), e, k == |UndoOps(e)|)
  {
    var ops := UndoOps(e);
    assert ops[..0] == [];
    OneMoreOp(d, ops, 0);
    OneMoreOp(d, ops, 1);
    UnlinkTarget(d, ops[0].path);
    QuietOp(Apply(d, ops[0]), ops[1]);
  }

  lemma UndoUpdateCut(d: Disk, e: Entry, k: nat)
    requires e.before.Some? && k <= |UndoOps(e)|
    ensures Midway(d, ApplyAll(d, UndoOps(e)[..k]), e, k == |UndoOps(e)|)
  {
    var ops := UndoOps(e);
    assert ops[..0] == [];
    OneMoreOp(d, ops, 0);
    OneMoreOp(d, ops, 1);
    OneMoreOp(d, ops, 2);
    OneMoreOp(d, ops, 3);
    var d1 := Apply(d, ops[0]);
    var d2 := Apply(d1, ops[1]);
    var d3 := Apply(d2, ops[2]);
    QuietOp(d, ops[0]);
    QuietOp(d1, ops[1]);
    RenameOnto(d2, ops[2].src, ops[2].dst);
    QuietOp(d3, ops[3]);
  }

  lemma UndoOneCut(d: Disk, e: Entry, k: nat)
    requires k <= |UndoOps(e)|
    ensures Midway(d, ApplyAll(d, UndoOps(e)[..k]), e, k == |UndoOps(e)|)
  {
    if e.before == None {
      UndoCreationCut(d, e, k);
    } else {
      UndoUpdateCut(d, e, k);
    }
  }

  lemma {:induction false} UndoRestCut(d: Disk, all: seq<Entry>, rest: seq<Entry>, goal: Disk, k: nat)
    requires Get(d, Journal) == Some(Entries(all)) && UndoAll(Docs(d), all) == goal
    requires forall i :: 0 <= i < |rest| ==> rest[i] in all
    requires k <= |UndoAllOps(rest)|
    ensures var d' := ApplyAll(d, UndoAllOps(rest)[..k]);
      && Get(d', Journal) == Some(Entries(all))
      && UndoAll(Docs(d'), all) == goal
      && (k == |UndoAllOps(rest)| ==> Docs(d') == UndoAll(Docs(d), rest))
    decreases |rest|
  {
    if rest != [] {
      var e, ops := rest[0], UndoOps(rest[0]);
      CutConcat(d, ops, UndoAllOps(rest[1..]), k);
      UndoAbsorbs(Docs(d), e, all);
      UndoOneCut(d, e, if k <= |ops| then k else |ops|);
      var d1 := ApplyAll(d, ops);
      assert ops[..|ops|] == ops;
      if k > |ops| {
        UndoRestCut(d1, all, rest[1..], goal, k - |ops|);
      }
    }
  }

  /** A recovery that is cut short anywhere can be run again; one that completes reaches the goal. */
  lemma RecoveryIsRestartable(d: Disk, goal: Disk, cut: nat)
    requires Undoable(d, goal)
    ensures Undoable(CutShort(d, cut), goal)
    ensures Docs(Recover(d)) == goal && Journal !in Recover(d)
  {
    var ops := RecoverOps(d);
    if HasJournal(d) {
      var all := d[Journal].entries;
      var undo := UndoAllOps(all);
      var k := if cut < |ops| then cut else |ops|;
      CutConcat(d, undo, [Unlink(Journal)], k);
      CutConcat(d, undo, [Unlink(Journal)], |ops|);
      assert ops[..|ops|] == ops;
      UndoRestCut(d, all, all, goal, |undo|);
      assert undo[..|undo|] == undo;
      var done := ApplyAll(d, undo);
      assert [Unlink(Journal)][..1] == [Unlink(Journal)] && [Unlink(Journal)][..0] == [];
      assert ApplyAll(done, [Unlink(Journal)]) == Apply(done, Unlink(Journal));
      assert Docs(Apply(done, Unlink(Journal))) == Docs(done);
      if k <= |undo| {
        UndoRestCut(d, all, all, goal, k);
      }
    } else {
      assert ops[..|ops|] == ops;
    }
  }

  lemma {:induction false} AttemptsStayUndoable(d: Disk, goal: Disk, cuts: seq<nat>)
    requires Undoable(d, goal)
    ensures Undoable(Attempts(d, cuts), goal)
    decreases |cuts|
  {
    if cuts != [] {
      RecoveryIsRestartable(d, goal, cuts[0]);
      AttemptsStayUndoable(CutShort(d, cuts[0]), goal, cuts[1..]);
    }
  }

  /** However many recoveries are cut short, the next one that completes reaches the goal. */
  lemma NextRecoveryReaches(d: Disk, goal: Disk, cuts: seq<nat>)
    requires Undoable(d, goal)
    ensures var end := Recover(Attempts(d, cuts)); Docs(end) == goal && Journal !in end
  {
    AttemptsStayUndoable(d, goal, cuts);
    RecoveryIsRestartable(Attempts(d, cuts), goal, 0);
  }
}
