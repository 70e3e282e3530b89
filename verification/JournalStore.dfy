/** The multi-document commit as the code runs it: loops over the documents, one
    disk operation at a time, with the operating system free to refuse one. */
module JournalStore {
  import opened Common
  import opened UndoJournal
  import opened JournalCommit

  datatype Failure = AlreadyExists | Missing | OsError

  /** How a transaction ended: `committed` once its journal was removed; otherwise `recovered` if no
      journal is left. A failure can be reported after the commit, from the cleanup. */
  datatype Ending = Ending(failure: Option<Failure>, committed: bool, recovered: bool)

  // ---------------------------------------------------------------- the program, operation by operation

  lemma {:induction false} StageAt(docs: seq<Doc>, txn: Id, i: nat)
    requires i < |docs|
    ensures |StageOps(docs, txn)| == 2 * |docs|
    ensures StageOps(docs, txn)[2 * i] == Tear(StageOf(docs[i], txn))
    ensures StageOps(docs, txn)[2 * i + 1] == Write(StageOf(docs[i], txn), docs[i].content)
  {
    if i > 0 {
      StageAt(docs[1..], txn, i - 1);
    }
  }

  lemma {:induction false} InstallAt(docs: seq<Doc>, txn: Id, i: nat)
    requires i <= |docs|
    ensures |InstallOps(docs, txn)| == |docs|
    ensures i < |docs| ==> InstallOps(docs, txn)[i] == Rename(StageOf(docs[i], txn), TargetOf(docs[i]))
    decreases |docs|
  {
    if docs != [] {
      InstallAt(docs[1..], txn, if i == 0 then 0 else i - 1);
    }
  }

  lemma {:induction false} UnstageAt(docs: seq<Doc>, txn: Id, i: nat)
    requires i <= |docs|
    ensures |UnstageOps(docs, txn)| == |docs|
    ensures i < |docs| ==> UnstageOps(docs, txn)[i] == Unlink(StageOf(docs[i], txn))
    decreases |docs|
  {
    if docs != [] {
      UnstageAt(docs[1..], txn, if i == 0 then 0 else i - 1);
    }
  }

  lemma {:induction false} ImagesGrow(docs: seq<Doc>, txn: Id, d: Disk, i: nat)
    requires i < |docs|
    ensures Images(docs[..i + 1], txn, d) ==
            Images(docs[..i], txn, d) + [Entry(docs[i].space, docs[i].id, txn, Get(d, TargetOf(docs[i])))]
    decreases i
  {
    if i == 0 {
      assert docs[..1][1..] == [];
    } else {
      assert docs[..i + 1][1..] == docs[1..][..i];
      assert docs[..i][1..] == docs[1..][..i - 1];
      ImagesGrow(docs[1..], txn, d, i - 1);
    }
  }

  lemma {:induction false} UndoGrow(entries: seq<Entry>, i: nat)
    requires i < |entries|
    ensures UndoAllOps(entries[..i + 1]) == UndoAllOps(entries[..i]) + UndoOps(entries[i])
    decreases i
  {
    if i == 0 {
      assert entries[..1][1..] == [];
    } else {
      assert entries[..i + 1][1..] == entries[1..][..i];
      assert entries[..i][1..] == entries[1..][..i - 1];
      UndoGrow(entries[1..], i - 1);
    }
  }

  lemma StillUnchanged(d: Disk, docs: seq<Doc>, txn: Id, done: nat, p: Path)
    requires done <= |StageOps(docs, txn)| && p.Target?
    ensures Get(ApplyAll(d, PrepareOps(docs, txn, d)[..done]), p) == Get(d, p)
  {
    var ops := StageOps(docs, txn)[..done];
    StagingIsQuiet(docs, txn);
    assert PrepareOps(docs, txn, d)[..done] == ops;
    QuietOps(d, ops);
    assert Get(Docs(ApplyAll(d, ops)), p) == Get(Docs(d), p);
  }

  /** The operations of entry `i` follow those of the entries before it. */
  lemma {:induction false} UndoSplit(entries: seq<Entry>, i: nat)
    requires i <= |entries|
    ensures UndoAllOps(entries) == UndoAllOps(entries[..i]) + UndoAllOps(entries[i..])
    decreases i
  {
    if i == 0 {
      assert entries[..0] == [] && entries[0..] == entries;
    } else {
      assert entries[1..][..i - 1] == entries[..i][1..] && entries[1..][i - 1..] == entries[i..];
      UndoSplit(entries[1..], i - 1);
      assert entries[..i][0] == entries[0];
    }
  }

  lemma UndoNext(entries: seq<Entry>, i: nat)
    requires i < |entries|
    ensures
      var at := |UndoAllOps(entries[..i])|;
      && |UndoAllOps(entries[..i + 1])| == at + |UndoOps(entries[i])| <= |UndoAllOps(entries)|
      && UndoAllOps(entries)[at..at + |UndoOps(entries[i])|] == UndoOps(entries[i])
  {
    UndoSplit(entries, i);
    UndoGrow(entries, i);
    assert UndoAllOps(entries[i..]) == UndoOps(entries[i]) + UndoAllOps(entries[i..][1..]);
  }

  /** The stage of a document that is not installed yet is there. */
  lemma StageIsThere(d: Disk, docs: seq<Doc>, txn: Id, i: nat)
    requires Distinct(docs) && i < |docs|
    ensures StageOf(docs[i], txn) in ApplyAll(d, PrepareOps(docs, txn, d)[..2 * |docs| + 3 + i])
  {
    var stage, journal, install := StageOps(docs, txn), JournalOps(Images(docs, txn, d)), InstallOps(docs, txn);
    CutConcat(d, stage + journal, install, 2 * |docs| + 3 + i);
    ApplyConcat(d, stage, journal);
    assert install[..0] == [] && (stage + journal)[..|stage + journal|] == stage + journal;
    HalfwayDocs(d, docs, txn, i);
  }

  /** Removing the journal of a fully installed transaction commits it. */
  lemma Removed(d: Disk, docs: seq<Doc>, txn: Id, done: nat)
    requires done == |PrepareOps(docs, txn, d)|
    ensures
      var end := Apply(ApplyAll(d, PrepareOps(docs, txn, d)[..done]), Unlink(Journal));
      Docs(end) == Docs(d) + NewDocs(docs) && Journal !in end
  {
    var prepare := PrepareOps(docs, txn, d);
    assert prepare[..done] == prepare;
    AllInstalled(d, docs, txn);
    var installed := ApplyAll(d, prepare);
    assert Docs(Apply(installed, Unlink(Journal))) == Docs(installed);
  }

  lemma SameUndo(a: Disk, b: Disk, goal: Disk)
    requires Docs(a) == Docs(b) && Get(a, Journal) == Get(b, Journal)
    ensures Undoable(a, goal) <==> Undoable(b, goal)
    ensures Journal in a <==> Journal in b
  {
  }

  class Store {
    var disk: Disk
    /** Every operation carried out, oldest first: what a crash at any moment leaves is a prefix of it. */
    ghost var trace: seq<DiskOp>
    /** Which operations, counted from the first one asked for, the operating system is willing to do. */
    const willing: nat -> bool
    var asked: nat

    predicate Open()
      reads this
    {
      Journal !in disk
    }

    /** Some operation asked for since `from` was refused. */
    ghost predicate Refused(from: nat)
      reads this
    {
      exists n :: from <= n < asked && !willing(n)
    }

    method Try(op: DiskOp) returns (ok: bool)
      modifies this
      ensures asked == old(asked) + 1
      ensures ok <==> willing(old(asked)) && Doable(old(disk), op)
      ensures ok ==> disk == Apply(old(disk), op) && trace == old(trace) + [op]
      ensures !ok ==> disk == old(disk) && trace == old(trace)
    {
      ok := willing(asked) && (!op.Rename? || op.src in disk);
      asked := asked + 1;
      if ok {
        match op {
          case Tear(path) => disk := disk[path := Torn];
          case Write(path, content) => disk := disk[path := content];
          case Rename(src, dst) => disk := (disk - {src})[dst := disk[src]];
          case Unlink(path) => disk := disk - {path};
        }
        trace := trace + [op];
      }
    }

    /** The first `done` of these operations, and no others, have been carried out since `start`. */
    ghost predicate Progress(start: Disk, before: seq<DiskOp>, ops: seq<DiskOp>, done: nat)
      reads this
    {
      done <= |ops| && trace == before + ops[..done] && disk == ApplyAll(start, ops[..done])
    }

    /** Try the next operation of the program. */
    method Advance(op: DiskOp, ghost start: Disk, ghost before: seq<DiskOp>, ghost ops: seq<DiskOp>, ghost done: nat)
      returns (ok: bool)
      requires Progress(start, before, ops, done) && done < |ops| && ops[done] == op
      modifies this
      ensures Progress(start, before, ops, if ok then done + 1 else done)
      ensures asked == old(asked) + 1
      ensures ok ==> disk == Apply(old(disk), op) && Doable(old(disk), op)
      ensures !ok ==> Refused(old(asked)) || !Doable(old(disk), op)
    {
      OneMoreOp(start, ops, done);
      ok := Try(op);
    }

    /** Undo what a journal describes, entry by entry, then remove it; stop where an operation is refused. */
    method RecoverTransaction() returns (ok: bool, ghost done: nat)
      modifies this
      ensures Progress(old(disk), old(trace), RecoverOps(old(disk)), done)
      ensures disk == CutShort(old(disk), done)
      ensures ok ==> disk == Recover(old(disk))
      ensures !ok ==> Refused(old(asked))
      ensures asked >= old(asked)
    {
      ghost var start, before, ops := disk, trace, RecoverOps(disk);
      assert ops[..0] == [] && ops[..|ops|] == ops;
      if Journal !in disk || !disk[Journal].Entries? {
        return true, 0;
      }
      var entries := disk[Journal].entries;
      ok, done := UndoEntries(entries, start, before, ops);
      if ok {
        ok := Advance(Unlink(Journal), start, before, ops, done);
        done := if ok then done + 1 else done;
      }
    }

    method UndoEntries(entries: seq<Entry>, ghost start: Disk, ghost before: seq<DiskOp>, ghost ops: seq<DiskOp>)
      returns (ok: bool, ghost done: nat)
      requires ops == UndoAllOps(entries) + [Unlink(Journal)] && Progress(start, before, ops, 0)
      modifies this
      ensures Progress(start, before, ops, done) && asked >= old(asked)
      ensures ok ==> done == |UndoAllOps(entries)|
      ensures !ok ==> Refused(old(asked))
    {
      done := 0;
      assert entries[..0] == [];
      var i := 0;
      while i < |entries|
        invariant i <= |entries| && done == |UndoAllOps(entries[..i])|
        invariant Progress(start, before, ops, done) && asked >= old(asked)
      {
        UndoNext(entries, i);
        ghost var more;
        ok, more := UndoOne(entries[i], start, before, ops, done);
        done := done + more;
        if !ok {
          return false, done;
        }
        i := i + 1;
      }
      assert entries[..i] == entries;
      return true, done;
    }

    /** Undo one entry of the journal. */
    method UndoOne(e: Entry, ghost start: Disk, ghost before: seq<DiskOp>, ghost ops: seq<DiskOp>, ghost done: nat)
      returns (ok: bool, ghost more: nat)
      requires Progress(start, before, ops, done) && done + |UndoOps(e)| <= |ops|
      requires ops[done..done + |UndoOps(e)|] == UndoOps(e)
      modifies this
      ensures Progress(start, before, ops, done + more) && asked >= old(asked)
      ensures ok ==> more == |UndoOps(e)|
      ensures !ok ==> Refused(old(asked))
    {
      assert forall k :: 0 <= k < |UndoOps(e)| ==> ops[done + k] == UndoOps(e)[k];
      if e.before == None {
        ok := Advance(Unlink(TargetOfEntry(e)), start, before, ops, done);
        more := if ok then 1 else 0;
      } else {
        ok, more := RestoreOne(e, start, before, ops, done);
      }
      if ok {
        ok := Advance(Unlink(Stage(e.space, e.id, e.txn)), start, before, ops, done + more);
        more := if ok then more + 1 else more;
      }
    }

    /** Put a document's before-image back. */
    method RestoreOne(e: Entry, ghost start: Disk, ghost before: seq<DiskOp>, ghost ops: seq<DiskOp>, ghost done: nat)
      returns (ok: bool, ghost more: nat)
      requires e.before.Some? && Progress(start, before, ops, done) && done + 3 <= |ops|
      requires forall k :: 0 <= k < 3 ==> ops[done + k] == UndoOps(e)[k]
      modifies this
      ensures Progress(start, before, ops, done + more) && asked >= old(asked)
      ensures ok ==> more == 3
      ensures !ok ==> Refused(old(asked))
    {
      var restore := Restore(e.space, e.id);
      more := 0;
      assert ops[done] == UndoOps(e)[0] && ops[done + 1] == UndoOps(e)[1] && ops[done + 2] == UndoOps(e)[2];
      ok := Advance(Tear(restore), start, before, ops, done);
      if ok {
        more := 1;
        ok := Advance(Write(restore, e.before.value), start, before, ops, done + 1);
      }
      if ok {
        more := 2;
        ok := Advance(Rename(restore, TargetOfEntry(e)), start, before, ops, done + 2);
      }
      if ok {
        more := 3;
      }
    }

    /** Remove whatever stages are left. */
    method Cleanup(docs: seq<Doc>, txn: Id) returns (ok: bool)
      modifies this
      ensures Docs(disk) == Docs(old(disk)) && Get(disk, Journal) == Get(old(disk), Journal)
      ensures ok ==> trace == old(trace) + CleanupOps(docs, txn)
      ensures !ok ==> Refused(old(asked))
      ensures asked >= old(asked)
    {
      ghost var start, before, ops, done := disk, trace, CleanupOps(docs, txn), 0;
      assert ops[..0] == [];
      UnstageAt(docs, txn, 0);
      ok := Advance(Unlink(JournalTemp), start, before, ops, 0);
      done := if ok then 1 else 0;
      var i := 0;
      while ok && i < |docs|
        invariant i <= |docs| && |ops| == |docs| + 1 && (ok ==> done == i + 1)
        invariant Progress(start, before, ops, done) && asked >= old(asked) && (!ok ==> Refused(old(asked)))
        decreases if ok then |docs| - i + 1 else 0
      {
        UnstageAt(docs, txn, i);
        ok := Advance(Unlink(StageOf(docs[i], txn)), start, before, ops, done);
        if ok {
          done := done + 1;
          i := i + 1;
        }
      }
      UnstagingIsQuiet(docs, txn);
      QuietOps(start, ops[..done]);
      if ok {
        assert ops[..done] == ops;
      }
    }

    /** Check one document's target and write the document to its stage. */
    method StageOne(x: Doc, txn: Id, creating: bool, ghost start: Disk, ghost before: seq<DiskOp>,
                    ghost ops: seq<DiskOp>, ghost done: nat)
      returns (failure: Option<Failure>, ghost more: nat)
      requires Progress(start, before, ops, done) && done + 2 <= |ops|
      requires ops[done] == Tear(StageOf(x, txn)) && ops[done + 1] == Write(StageOf(x, txn), x.content)
      modifies this
      ensures Progress(start, before, ops, done + more) && more <= 2 && asked >= old(asked)
      ensures failure == None ==> more == 2 && (TargetOf(x) in old(disk)) == !creating
      ensures failure == Some(AlreadyExists) ==> creating && TargetOf(x) in old(disk)
      ensures failure == Some(Missing) ==> !creating && TargetOf(x) !in old(disk)
      ensures failure == Some(OsError) ==> Refused(old(asked))
    {
      more := 0;
      if creating && TargetOf(x) in disk {
        return Some(AlreadyExists), 0;
      }
      if !creating && TargetOf(x) !in disk {
        return Some(Missing), 0;
      }
      var ok := Advance(Tear(StageOf(x, txn)), start, before, ops, done);
      if ok {
        more := 1;
        ok := Advance(Write(StageOf(x, txn), x.content), start, before, ops, done + 1);
        more := if ok then 2 else 1;
      }
      failure := if ok then None else Some(OsError);
    }

    /** Stage every document, noting what its target holds. */
    method StageAll(docs: seq<Doc>, txn: Id, creating: bool, ghost ops: seq<DiskOp>)
      returns (failure: Option<Failure>, entries: seq<Entry>, ghost done: nat)
      requires ops == PrepareOps(docs, txn, disk)
      modifies this
      ensures Progress(old(disk), old(trace), ops, done) && done <= 2 * |docs| && asked >= old(asked)
      ensures failure == None ==> done == 2 * |docs| && entries == Images(docs, txn, old(disk))
      ensures failure == None ==> forall x :: x in docs ==> (TargetOf(x) in old(disk)) == !creating
      ensures Explained(failure, docs, creating, old(disk), old(asked))
    {
      ghost var start, before := disk, trace;
      entries := [];
      done := 0;
      var i := 0;
      while i < |docs|
        invariant i <= |docs| && done == 2 * i && asked >= old(asked)
        invariant Progress(start, before, ops, done)
        invariant entries == Images(docs[..i], txn, start)
        invariant forall j :: 0 <= j < i ==> (TargetOf(docs[j]) in start) == !creating
      {
        var x := docs[i];
        StageAt(docs, txn, i);
        StillUnchanged(start, docs, txn, done, TargetOf(x));
        ImagesGrow(docs, txn, start, i);
        entries := entries + [Entry(x.space, x.id, txn, Get(disk, TargetOf(x)))];
        ghost var more;
        failure, more := StageOne(x, txn, creating, start, before, ops, done);
        done := done + more;
        if failure.Some? {
          return failure, entries, done;
        }
        i := i + 1;
      }
      assert docs[..i] == docs;
      return None, entries, done;
    }

    /** Why a commit can fail: a document is there that must not be, or missing that must be, one is
        written twice, or the operating system refused an operation. */
    ghost predicate Explained(failure: Option<Failure>, docs: seq<Doc>, creating: bool, start: Disk, from: nat)
      reads this
    {
      match failure
      case None => true
      case Some(AlreadyExists) => creating && exists x :: x in docs && TargetOf(x) in start
      case Some(Missing) => !creating && exists x :: x in docs && TargetOf(x) !in start
      case Some(OsError) => Refused(from) || !Distinct(docs)
    }

    /** Put the journal in place. */
    method WriteJournal(docs: seq<Doc>, txn: Id, entries: seq<Entry>, ghost start: Disk, ghost before: seq<DiskOp>)
      returns (ok: bool, ghost done: nat)
      requires entries == Images(docs, txn, start)
      requires Progress(start, before, PrepareOps(docs, txn, start), 2 * |docs|)
      modifies this
      ensures Progress(start, before, PrepareOps(docs, txn, start), done) && asked >= old(asked)
      ensures ok ==> done == 2 * |docs| + 3
      ensures !ok ==> Refused(old(asked)) && done < 2 * |docs| + 3
    {
      ghost var ops := PrepareOps(docs, txn, start);
      done := 2 * |docs|;
      ok := Advance(Tear(JournalTemp), start, before, ops, done);
      if ok {
        done := done + 1;
        ok := Advance(Write(JournalTemp, Entries(entries)), start, before, ops, done);
      }
      if ok {
        done := done + 1;
        ok := Advance(Rename(JournalTemp, Journal), start, before, ops, done);
      }
      if ok {
        done := done + 1;
      }
    }

    /** Rename every staged document into place, once the journal is. A stage that is gone belonged to
        a document that was written twice. */
    method Place(docs: seq<Doc>, txn: Id, ghost start: Disk, ghost before: seq<DiskOp>)
      returns (ok: bool, ghost done: nat)
      requires Progress(start, before, PrepareOps(docs, txn, start), 2 * |docs| + 3)
      modifies this
      ensures Progress(start, before, PrepareOps(docs, txn, start), done) && asked >= old(asked)
      ensures done >= 2 * |docs| + 3
      ensures ok ==> done == |PrepareOps(docs, txn, start)| && Distinct(docs)
      ensures !ok ==> Refused(old(asked)) || !Distinct(docs)
    {
      ghost var ops := PrepareOps(docs, txn, start);
      done := 2 * |docs| + 3;
      var i := 0;
      while i < |docs|
        invariant i <= |docs| && done == 2 * |docs| + 3 + i && asked >= old(asked)
        invariant Progress(start, before, ops, done)
        invariant forall j :: 0 <= j < i ==> StageOf(docs[j], txn) !in disk
        invariant forall j, k :: 0 <= j < k < i ==> TargetOf(docs[j]) != TargetOf(docs[k])
      {
        InstallAt(docs, txn, i);
        if Distinct(docs) {
          StageIsThere(start, docs, txn, i);
        }
        ok := Advance(Rename(StageOf(docs[i], txn), TargetOf(docs[i])), start, before, ops, done);
        if !ok {
          return false, done;
        }
        done := done + 1;
        i := i + 1;
      }
      return true, done;
    }

    /** The part of the commit that can still be undone, up to the journal's removal. */
    method Prepare(docs: seq<Doc>, txn: Id, creating: bool) returns (failure: Option<Failure>, ghost done: nat)
      modifies this
      ensures Progress(old(disk), old(trace), PrepareOps(docs, txn, old(disk)), done) && asked >= old(asked)
      ensures failure == None ==> done == |PrepareOps(docs, txn, old(disk))| && Distinct(docs)
      ensures failure == None ==> forall x :: x in docs ==> (TargetOf(x) in old(disk)) == !creating
      ensures Explained(failure, docs, creating, old(disk), old(asked))
    {
      ghost var start, before := disk, trace;
      var entries;
      failure, entries, done := StageAll(docs, txn, creating, PrepareOps(docs, txn, disk));
      if failure == None {
        var ok;
        ok, done := WriteJournal(docs, txn, entries, start, before);
        if ok {
          ok, done := Place(docs, txn, start, before);
        }
        if !ok {
          failure := Some(OsError);
        }
      }
    }

    /** Undo what was done of a transaction, if it got as far as a journal. */
    method Undone(docs: seq<Doc>, txn: Id, ghost start: Disk, ghost goal: Disk, ghost done: nat)
      returns (recovered: bool)
      requires Undoable(start, goal)
      requires done <= |PrepareOps(docs, txn, start)| && disk == ApplyAll(start, PrepareOps(docs, txn, start)[..done])
      modifies this
      ensures Undoable(disk, goal) || Undoable(disk, Docs(start))
      ensures recovered ==> Open() && (Docs(disk) == goal || Docs(disk) == Docs(start))
      ensures !recovered ==> !Open() && Refused(old(asked))
      ensures asked >= old(asked)
    {
      BeforeCommitFrom(start, docs, txn, goal, done);
      ghost var to := if Undoable(disk, goal) then goal else Docs(start);
      recovered := true;
      if Journal in disk {
        ghost var d, cut := disk, 0;
        recovered, cut := RecoverTransaction();
        RecoveryIsRestartable(d, to, cut);
        recovered := Journal !in disk;
      }
    }

    /** Everything but the cleanup. */
    method Carry(docs: seq<Doc>, txn: Id, creating: bool, ghost goal: Disk) returns (r: Ending)
      requires Undoable(disk, goal)
      modifies this
      ensures r.failure == None <==> r.committed
      ensures r.committed ==> trace == old(trace) + PrepareOps(docs, txn, old(disk)) + [Unlink(Journal)]
      ensures r.committed ==> Open() && Docs(disk) == Docs(old(disk)) + NewDocs(docs) && Distinct(docs)
      ensures r.committed ==> forall x :: x in docs ==> (TargetOf(x) in old(disk)) == !creating
      ensures !r.committed ==> Undoable(disk, goal) || Undoable(disk, Docs(old(disk)))
      ensures !r.committed && r.recovered ==> Open() && (Docs(disk) == goal || Docs(disk) == Docs(old(disk)))
      ensures !r.recovered ==> !Open()
      ensures Explained(r.failure, docs, creating, old(disk), old(asked)) && asked >= old(asked)
    {
      ghost var start, done := disk, 0;
      var failure;
      failure, done := Prepare(docs, txn, creating);
      if failure == None {
        var ok := Try(Unlink(Journal));
        if ok {
          Removed(start, docs, txn, done);
          return Ending(None, true, true);
        }
        failure := Some(OsError);
      }
      var recovered := Undone(docs, txn, start, goal, done);
      r := Ending(failure, false, recovered);
    }

    /** Save the documents as one unit, whatever a journal left behind describes, `goal`. A commit that
        is carried out shows every document and leaves no journal. One that is not can be undone: by
        now it is, if recovery succeeded, and otherwise by any later recovery. */
    method Commit(docs: seq<Doc>, txn: Id, creating: bool, ghost goal: Disk) returns (r: Ending)
      requires Undoable(disk, goal)
      modifies this
      ensures r.failure == None ==> r.committed && trace == old(trace) + SaveOps(docs, txn, old(disk))
      ensures r.committed ==> Open() && Docs(disk) == Docs(old(disk)) + NewDocs(docs) && Distinct(docs)
      ensures r.committed ==> forall x :: x in docs ==> (TargetOf(x) in old(disk)) == !creating
      ensures !r.committed ==> Undoable(disk, goal) || Undoable(disk, Docs(old(disk)))
      ensures !r.committed && r.recovered ==> Open() && (Docs(disk) == goal || Docs(disk) == Docs(old(disk)))
      ensures !r.recovered ==> !Open()
      ensures Explained(r.failure, docs, creating, old(disk), old(asked))
    {
      r := Carry(docs, txn, creating, goal);
      ghost var d := disk;
      var cleaned := Cleanup(docs, txn);
      SameUndo(d, disk, goal);
      SameUndo(d, disk, Docs(old(disk)));
      if !cleaned && r.failure == None {
        r := r.(failure := Some(OsError));
      }
    }

    /** Create a task, its run and its workspaces, none of which may exist. */
    method CreateMany(docs: seq<Doc>, txn: Id, ghost goal: Disk) returns (r: Ending)
      requires Undoable(disk, goal)
      modifies this
      ensures r.failure == None ==> r.committed
      ensures r.committed ==> Open() && Docs(disk) == Docs(old(disk)) + NewDocs(docs)
      ensures r.committed ==> Docs(old(disk)).Keys !! NewDocs(docs).Keys
      ensures !r.committed ==> Undoable(disk, goal) || Undoable(disk, Docs(old(disk)))
      ensures !r.committed && r.recovered ==> Open() && (Docs(disk) == goal || Docs(disk) == Docs(old(disk)))
      ensures Explained(r.failure, docs, true, old(disk), old(asked))
    {
      ghost var start := disk;
      r := Commit(docs, txn, true, goal);
      if r.committed {
        forall p | p in NewDocs(docs) ensures p !in Docs(start) {
          NewDocsCovers(docs, p);
          var i :| 0 <= i < |docs| && TargetOf(docs[i]) == p;
          assert docs[i] in docs;
        }
      }
    }

    /** Replace a related set of projects, all of which must exist. */
    method UpdateMany(docs: seq<Doc>, txn: Id, ghost goal: Disk) returns (r: Ending)
      requires Undoable(disk, goal)
      modifies this
      ensures r.failure == None ==> r.committed
      ensures r.committed ==> Docs(disk) == Docs(old(disk)) + NewDocs(docs) && Docs(disk).Keys == Docs(old(disk)).Keys
      ensures r.committed && docs != [] ==> Open()
      ensures !r.committed ==> Undoable(disk, goal) || Undoable(disk, Docs(old(disk)))
      ensures !r.committed && r.recovered ==> Open() && (Docs(disk) == goal || Docs(disk) == Docs(old(disk)))
      ensures Explained(r.failure, docs, false, old(disk), old(asked))
    {
      if docs == [] {
        return Ending(None, true, true);
      }
      ghost var start := disk;
      r := Commit(docs, txn, false, goal);
      if r.committed {
        forall p | p in NewDocs(docs) ensures p in Docs(start) {
          NewDocsCovers(docs, p);
          var i :| 0 <= i < |docs| && TargetOf(docs[i]) == p;
          assert docs[i] in docs;
        }
      }
    }

    /** Opening a store carries on with whatever recovery the last process left undone. */
    constructor Reopen(found: Disk, willing: nat -> bool, ghost goal: Disk)
      requires Undoable(found, goal)
      ensures Undoable(disk, goal)
      ensures Open() ==> Docs(disk) == goal
      ensures !Open() ==> Refused(0)
    {
      disk, trace, asked := found, [], 0;
      this.willing := willing;
      new;
      var ok;
      ghost var cut;
      ok, cut := RecoverTransaction();
      RecoveryIsRestartable(found, goal, cut);
    }
  }
}
