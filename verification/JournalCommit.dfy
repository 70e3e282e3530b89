/** Crash atomicity of the journalled commit: after a crash at any operation, and
    any number of recoveries cut short, the next completed recovery leaves the old
    documents or the fully updated ones. */
module JournalCommit {
  import opened Common
  import opened UndoJournal

  // ---------------------------------------------------------------- staging

  lemma {:induction false} StagingIsQuiet(docs: seq<Doc>, txn: Id)
    ensures forall i :: 0 <= i < |StageOps(docs, txn)| ==> Quiet(StageOps(docs, txn)[i])
  {
    if docs != [] {
      StagingIsQuiet(docs[1..], txn);
    }
  }

  lemma {:induction false} UnstagingIsQuiet(docs: seq<Doc>, txn: Id)
    ensures forall i :: 0 <= i < |UnstageOps(docs, txn)| ==> Quiet(UnstageOps(docs, txn)[i])
  {
    if docs != [] {
      UnstagingIsQuiet(docs[1..], txn);
    }
  }

  lemma {:induction false} NewDocsCovers(docs: seq<Doc>, p: Path)
    ensures p in NewDocs(docs) <==> exists i :: 0 <= i < |docs| && TargetOf(docs[i]) == p
  {
    if docs != [] {
      NewDocsCovers(docs[1..], p);
      if i :| 0 <= i < |docs| && TargetOf(docs[i]) == p && i > 0 {
        assert TargetOf(docs[1..][i - 1]) == p;
      }
      if i :| 0 <= i < |docs[1..]| && TargetOf(docs[1..][i]) == p {
        assert TargetOf(docs[i + 1]) == p;
      }
    }
  }

  /** After staging, each stage holds the version of its document that will be installed. */
  lemma {:induction false} StagedContent(d: Disk, docs: seq<Doc>, txn: Id, space: Id, id: Id)
    ensures Get(ApplyAll(d, StageOps(docs, txn)), Stage(space, id, txn)) ==
      if Target(space, id) in NewDocs(docs) then Some(NewDocs(docs)[Target(space, id)])
      else Get(d, Stage(space, id, txn))
    decreases |docs|
  {
    if docs != [] {
      var ops := StageOps(docs, txn);
      var d2 := Apply(Apply(d, ops[0]), ops[1]);
      assert ops[1..][1..] == StageOps(docs[1..], txn);
      StagedContent(d2, docs[1..], txn, space, id);
    }
  }

  // ---------------------------------------------------------------- the journal

  lemma {:induction false} ImagesCover(docs: seq<Doc>, txn: Id, d: Disk, p: Path)
    ensures Covers(Images(docs, txn, d), p) <==> p in NewDocs(docs)
  {
    var entries := Images(docs, txn, d);
    if docs != [] {
      ImagesCover(docs[1..], txn, d, p);
      assert entries[1..] == Images(docs[1..], txn, d);
      if i :| 0 <= i < |entries| && TargetOfEntry(entries[i]) == p && i > 0 {
        assert TargetOfEntry(entries[1..][i - 1]) == p;
      }
      if Covers(entries[1..], p) {
        var i :| 0 <= i < |entries[1..]| && TargetOfEntry(entries[1..][i]) == p;
        assert TargetOfEntry(entries[i + 1]) == p;
      }
      assert TargetOfEntry(entries[0]) == TargetOf(docs[0]);
    }
  }

  lemma {:induction false} ImagesUndoNothing(docs: seq<Doc>, txn: Id, d: Disk)
    ensures UndoAll(Docs(d), Images(docs, txn, d)) == Docs(d)
  {
    if docs != [] {
      var entries := Images(docs, txn, d);
      assert Undo(Docs(d), entries[0]) == Docs(d);
      assert entries[1..] == Images(docs[1..], txn, d);
      ImagesUndoNothing(docs[1..], txn, d);
    }
  }

  // ---------------------------------------------------------------- installing

  /** Installing is under way: the journal covers every change made so far. */
  ghost predicate Installing(d: Disk, entries: seq<Entry>, original: Disk) {
    && Get(d, Journal) == Some(Entries(entries))
    && forall p :: !Covers(entries, p) ==> Get(Docs(d), p) == Get(original, p)
  }

  lemma InstallingIsUndoable(d: Disk, entries: seq<Entry>, original: Disk)
    requires Installing(d, entries, original) && UndoAll(original, entries) == original
    ensures Undoable(d, original)
  {
    UndoForgets(Docs(d), original, entries);
  }

  /** Each document's new version is at its stage, or already at its target. */
  predicate Ready(d: Disk, x: Doc, txn: Id, latest: Disk) {
    && TargetOf(x) in latest
    && if StageOf(x, txn) in d then d[StageOf(x, txn)] == latest[TargetOf(x)]
       else TargetOf(x) in d && d[TargetOf(x)] == latest[TargetOf(x)]
  }

  lemma InstallOne(d: Disk, x: Doc, y: Doc, txn: Id, latest: Disk)
    requires Ready(d, x, txn, latest) && Ready(d, y, txn, latest)
    ensures var d' := Apply(d, Rename(StageOf(x, txn), TargetOf(x)));
      && Ready(d', y, txn, latest)
      && (y == x || StageOf(y, txn) !in d ==> StageOf(y, txn) !in d')
  {
  }

  lemma {:induction false} InstallCut(
      d: Disk, docs: seq<Doc>, rest: seq<Doc>, txn: Id, entries: seq<Entry>, original: Disk, latest: Disk, k: nat)
    requires Installing(d, entries, original)
    requires forall x :: x in docs ==> Ready(d, x, txn, latest) && Covers(entries, TargetOf(x))
    requires forall x :: x in rest ==> x in docs
    requires k <= |InstallOps(rest, txn)|
    ensures var d' := ApplyAll(d, InstallOps(rest, txn)[..k]);
      && Installing(d', entries, original)
      && (forall x :: x in docs ==> Ready(d', x, txn, latest))
      && (forall x :: x in docs && StageOf(x, txn) !in d ==> StageOf(x, txn) !in d')
      && (k == |InstallOps(rest, txn)| ==> forall x :: x in rest ==> StageOf(x, txn) !in d')
    decreases |rest|
  {
    if rest != [] && k > 0 {
      var x, ops := rest[0], InstallOps(rest, txn);
      var d1 := Apply(d, ops[0]);
      assert ops[..k][1..] == InstallOps(rest[1..], txn)[..k - 1];
      forall y | y in docs
        ensures Ready(d1, y, txn, latest)
        ensures StageOf(y, txn) !in d ==> StageOf(y, txn) !in d1
      {
        InstallOne(d, x, y, txn, latest);
      }
      forall p | !Covers(entries, p) ensures Get(Docs(d1), p) == Get(original, p) {
        assert Get(Docs(d), p) == Get(original, p);
      }
      InstallOne(d, x, x, txn, latest);
      InstallCut(d1, docs, rest[1..], txn, entries, original, latest, k - 1);
      forall y | y in rest && k == |ops| ensures StageOf(y, txn) !in ApplyAll(d, ops[..k]) {
        if y != x {
          assert y in rest[1..];
        }
      }
    }
  }

  // ---------------------------------------------------------------- the commit

  /** The disk once the journal is in place. */
  function Journalled(d: Disk, docs: seq<Doc>, txn: Id): Disk {
    ApplyAll(ApplyAll(d, StageOps(docs, txn)), JournalOps(Images(docs, txn, d)))
  }

  lemma JournalCut(d: Disk, entries: seq<Entry>, k: nat)
    requires k <= 3
    ensures var d' := ApplyAll(d, JournalOps(entries)[..k]);
      && Docs(d') == Docs(d)
      && (k < 3 ==> Get(d', Journal) == Get(d, Journal))
      && (k == 3 ==> Get(d', Journal) == Some(Entries(entries)))
      && (forall space, id, txn :: Get(d', Stage(space, id, txn)) == Get(d, Stage(space, id, txn)))
  {
    var ops := JournalOps(entries);
    assert ops[..0] == [];
    OneMoreOp(d, ops, 0);
    OneMoreOp(d, ops, 1);
    OneMoreOp(d, ops, 2);
    var d1 := Apply(d, ops[0]);
    var d2 := Apply(d1, ops[1]);
    var d3 := Apply(d2, ops[2]);
    assert Docs(d1) == Docs(d) && Docs(d2) == Docs(d) && Docs(d3) == Docs(d);
  }

  lemma JournalledState(d: Disk, docs: seq<Doc>, txn: Id)
    ensures var entries := Images(docs, txn, d);
      && Installing(Journalled(d, docs, txn), entries, Docs(d))
      && (forall x :: x in docs ==>
          Ready(Journalled(d, docs, txn), x, txn, NewDocs(docs)) && Covers(entries, TargetOf(x)))
  {
    var entries := Images(docs, txn, d);
    var staged := ApplyAll(d, StageOps(docs, txn));
    StagingIsQuiet(docs, txn);
    QuietOps(d, StageOps(docs, txn));
    JournalCut(staged, entries, 3);
    assert JournalOps(entries)[..3] == JournalOps(entries);
    forall x | x in docs
      ensures Ready(Journalled(d, docs, txn), x, txn, NewDocs(docs)) && Covers(entries, TargetOf(x))
    {
      var i :| 0 <= i < |docs| && docs[i] == x;
      assert TargetOf(docs[i]) == TargetOf(x);
      NewDocsCovers(docs, TargetOf(x));
      ImagesCover(docs, txn, d, TargetOf(x));
      StagedContent(d, docs, txn, x.space, x.id);
    }
  }

  /** Before the journal is removed, recovery goes back to the old documents, or, until the new journal
      is in place, to what a journal left behind still describes. */
  lemma BeforeCommitFrom(d: Disk, docs: seq<Doc>, txn: Id, goal: Disk, k: nat)
    requires Undoable(d, goal) && k <= |PrepareOps(docs, txn, d)|
    ensures
      var cut := ApplyAll(d, PrepareOps(docs, txn, d)[..k]);
      if k < |StageOps(docs, txn)| + 3 then Undoable(cut, goal) else Undoable(cut, Docs(d))
  {
    var stage, entries := StageOps(docs, txn), Images(docs, txn, d);
    var journal, install := JournalOps(entries), InstallOps(docs, txn);
    CutConcat(d, stage + journal, install, k);
    StagingIsQuiet(docs, txn);
    if k <= |stage + journal| {
      CutConcat(d, stage, journal, k);
      if k <= |stage| {
        QuietOps(d, stage[..k]);
      } else {
        QuietOps(d, stage);
        JournalCut(ApplyAll(d, stage), entries, k - |stage|);
        ImagesUndoNothing(docs, txn, d);
      }
    } else {
      InstallingCut(d, docs, txn, k);
    }
  }

  lemma InstallingCut(d: Disk, docs: seq<Doc>, txn: Id, k: nat)
    requires |StageOps(docs, txn)| + 3 < k <= |PrepareOps(docs, txn, d)|
    ensures Undoable(ApplyAll(d, PrepareOps(docs, txn, d)[..k]), Docs(d))
  {
    var stage, entries := StageOps(docs, txn), Images(docs, txn, d);
    var journal, install := JournalOps(entries), InstallOps(docs, txn);
    CutConcat(d, stage + journal, install, k);
    ApplyConcat(d, stage, journal);
    JournalledState(d, docs, txn);
    InstallCut(Journalled(d, docs, txn), docs, docs, txn, entries, Docs(d), NewDocs(docs), k - |stage + journal|);
    ImagesUndoNothing(docs, txn, d);
    InstallingIsUndoable(ApplyAll(d, PrepareOps(docs, txn, d)[..k]), entries, Docs(d));
  }

  /** Before the journal is removed, recovery goes back to the old documents. */
  lemma BeforeCommit(d: Disk, docs: seq<Doc>, txn: Id, k: nat)
    requires Undoable(d, Docs(d))
    requires k <= |PrepareOps(docs, txn, d)|
    ensures Undoable(ApplyAll(d, PrepareOps(docs, txn, d)[..k]), Docs(d))
  {
    BeforeCommitFrom(d, docs, txn, Docs(d), k);
  }

  /** When everything is installed, the targets hold the new documents and no others changed. */
  lemma AllInstalled(d: Disk, docs: seq<Doc>, txn: Id)
    ensures Docs(ApplyAll(d, PrepareOps(docs, txn, d))) == Docs(d) + NewDocs(docs)
  {
    var stage, entries := StageOps(docs, txn), Images(docs, txn, d);
    var journal, install := JournalOps(entries), InstallOps(docs, txn);
    ApplyConcat(d, stage + journal, install);
    ApplyConcat(d, stage, journal);
    JournalledState(d, docs, txn);
    InstallCut(Journalled(d, docs, txn), docs, docs, txn, entries, Docs(d), NewDocs(docs), |install|);
    assert install[..|install|] == install;
    var end := ApplyAll(d, PrepareOps(docs, txn, d));
    forall p ensures Get(Docs(end), p) == Get(Docs(d) + NewDocs(docs), p) {
      ImagesCover(docs, txn, d, p);
      NewDocsCovers(docs, p);
      if p in NewDocs(docs) {
        var i :| 0 <= i < |docs| && TargetOf(docs[i]) == p;
        assert docs[i] in docs;
        assert Ready(end, docs[i], txn, NewDocs(docs));
      }
    }
    SameDisk(Docs(end), Docs(d) + NewDocs(docs));
  }

  /** From the removal of the journal on, recovery keeps the new documents. */
  lemma AfterCommit(d: Disk, docs: seq<Doc>, txn: Id, k: nat)
    requires |PrepareOps(docs, txn, d)| < k <= |SaveOps(docs, txn, d)|
    ensures Undoable(ApplyAll(d, SaveOps(docs, txn, d)[..k]), Docs(d) + NewDocs(docs))
  {
    var prepare, cleanup := PrepareOps(docs, txn, d), CleanupOps(docs, txn);
    var commit := [Unlink(Journal)];
    CutConcat(d, prepare + commit, cleanup, k);
    ApplyConcat(d, prepare, commit);
    AllInstalled(d, docs, txn);
    var installed := ApplyAll(d, prepare);
    assert commit[1..] == [];
    var committed := Apply(installed, Unlink(Journal));
    assert Docs(committed) == Docs(installed);
    UnstagingIsQuiet(docs, txn);
    if k <= |prepare + commit| {
      assert (prepare + commit)[..k] == prepare + commit;
    } else {
      QuietOps(committed, cleanup[..k - |prepare + commit|]);
    }
  }

  /** What a crash after `k` operations, then recoveries cut short at `cuts`, then a completed one leave. */
  function AfterCrash(d: Disk, docs: seq<Doc>, txn: Id, k: nat, cuts: seq<nat>): Disk
    requires k <= |SaveOps(docs, txn, d)|
  {
    Docs(Recover(Attempts(ApplyAll(d, SaveOps(docs, txn, d)[..k]), cuts)))
  }

  function Expected(d: Disk, docs: seq<Doc>, txn: Id, k: nat): Disk {
    if k <= |PrepareOps(docs, txn, d)| then Docs(d) else Docs(d) + NewDocs(docs)
  }

  /** All of it or none of it: nothing when the crash came before the journal was
      removed, everything when it came after; every other document is unchanged. */
  lemma CommitIsAtomic(d: Disk, docs: seq<Doc>, txn: Id, k: nat, cuts: seq<nat>)
    requires Undoable(d, Docs(d))
    requires k <= |SaveOps(docs, txn, d)|
    ensures AfterCrash(d, docs, txn, k, cuts) == Expected(d, docs, txn, k)
  {
    var prepare := PrepareOps(docs, txn, d);
    if k <= |prepare| {
      assert SaveOps(docs, txn, d)[..k] == prepare[..k];
      BeforeCommit(d, docs, txn, k);
    } else {
      AfterCommit(d, docs, txn, k);
    }
    NextRecoveryReaches(ApplyAll(d, SaveOps(docs, txn, d)[..k]), Expected(d, docs, txn, k), cuts);
  }

  /** A commit is atomic on every crash exactly when the disk it starts from has no
      journal, or one that has nothing to undo. (A journal can be left behind by a
      recovery that failed while the process went on.) */
  lemma AtomicIffNothingToUndo(d: Disk, docs: seq<Doc>, txn: Id)
    requires Journal in d ==> d[Journal].Entries?
    ensures (forall k: nat, cuts :: k <= |SaveOps(docs, txn, d)| ==>
               AfterCrash(d, docs, txn, k, cuts) == Expected(d, docs, txn, k))
            <==> Undoable(d, Docs(d))
  {
    if Undoable(d, Docs(d)) {
      forall k: nat, cuts | k <= |SaveOps(docs, txn, d)|
        ensures AfterCrash(d, docs, txn, k, cuts) == Expected(d, docs, txn, k)
      {
        CommitIsAtomic(d, docs, txn, k, cuts);
      }
    } else {
      var entries := d[Journal].entries;
      var goal := UndoAll(Docs(d), entries);
      assert Undoable(d, goal);
      RecoveryIsRestartable(d, goal, 0);
      assert SaveOps(docs, txn, d)[..0] == [];
      assert AfterCrash(d, docs, txn, 0, []) == goal;
    }
  }

  // ---------------------------------------------------------------- a journal left behind

  /** The disk when `i` documents are installed. */
  function Halfway(d: Disk, docs: seq<Doc>, txn: Id, i: nat): Disk
    requires i <= |docs|
  {
    ApplyAll(Journalled(d, docs, txn), InstallOps(docs, txn)[..i])
  }

  /** What installing the first `i` of these documents makes of the disk: exactly those are at their
      targets. */
  ghost predicate FirstInstalled(d: Disk, d': Disk, docs: seq<Doc>, txn: Id, i: nat) {
    && (forall j :: 0 <= j < |docs| ==>
        Get(d', TargetOf(docs[j])) == if j < i then Some(docs[j].content) else Get(d, TargetOf(docs[j])))
    && (forall j :: i <= j < |docs| ==> Get(d', StageOf(docs[j], txn)) == Some(docs[j].content))
    && (forall p: Path :: p.Target? && (forall j :: 0 <= j < |docs| ==> TargetOf(docs[j]) != p) ==>
        Get(d', p) == Get(d, p))
    && Get(d', Journal) == Get(d, Journal)
  }

  lemma {:induction false} InstalledPrefix(d: Disk, docs: seq<Doc>, txn: Id, i: nat)
    requires Distinct(docs) && i <= |docs|
    requires forall j :: 0 <= j < |docs| ==> Get(d, StageOf(docs[j], txn)) == Some(docs[j].content)
    ensures FirstInstalled(d, ApplyAll(d, InstallOps(docs, txn)[..i]), docs, txn, i)
    decreases |docs|
  {
    if i > 0 {
      var ops, rest := InstallOps(docs, txn), docs[1..];
      var d1 := Apply(d, ops[0]);
      assert ops[..i][1..] == InstallOps(rest, txn)[..i - 1];
      forall j | 0 <= j < |rest| ensures Get(d1, StageOf(rest[j], txn)) == Some(rest[j].content) {
        assert rest[j] == docs[j + 1] && TargetOf(docs[0]) != TargetOf(docs[j + 1]);
      }
      InstalledPrefix(d1, rest, txn, i - 1);
      OneMoreInstalled(d, docs, txn, i, ApplyAll(d1, InstallOps(rest, txn)[..i - 1]));
    }
  }

  lemma OneMoreInstalled(d: Disk, docs: seq<Doc>, txn: Id, i: nat, d': Disk)
    requires Distinct(docs) && 0 < i <= |docs| && Get(d, StageOf(docs[0], txn)) == Some(docs[0].content)
    requires FirstInstalled(Apply(d, Rename(StageOf(docs[0], txn), TargetOf(docs[0]))), d', docs[1..], txn, i - 1)
    ensures FirstInstalled(d, d', docs, txn, i)
  {
    var rest := docs[1..];
    assert forall j :: 0 <= j < |rest| ==> TargetOf(rest[j]) == TargetOf(docs[j + 1]) != TargetOf(docs[0]);
    forall j | 0 <= j < |docs|
      ensures Get(d', TargetOf(docs[j])) == if j < i then Some(docs[j].content) else Get(d, TargetOf(docs[j]))
    {
      if j > 0 {
        assert docs[j] == rest[j - 1];
      }
    }
    forall j | i <= j < |docs| ensures Get(d', StageOf(docs[j], txn)) == Some(docs[j].content) {
      assert docs[j] == rest[j - 1];
    }
  }

  lemma {:induction false} LatestIsOwn(docs: seq<Doc>, j: nat)
    requires Distinct(docs) && j < |docs|
    ensures TargetOf(docs[j]) in NewDocs(docs) && NewDocs(docs)[TargetOf(docs[j])] == docs[j].content
    decreases |docs|
  {
    if j > 0 {
      LatestIsOwn(docs[1..], j - 1);
    } else {
      NewDocsCovers(docs[1..], TargetOf(docs[0]));
      assert forall i :: 0 <= i < |docs[1..]| ==> TargetOf(docs[1..][i]) == TargetOf(docs[i + 1]);
    }
  }

  /** Halfway through, exactly the first `i` documents are new, and the rest of the disk reads as before. */
  lemma HalfwayDocs(d: Disk, docs: seq<Doc>, txn: Id, i: nat)
    requires Distinct(docs) && i <= |docs|
    ensures
      var mid := Halfway(d, docs, txn, i);
      && (forall j :: 0 <= j < |docs| ==>
          Get(mid, TargetOf(docs[j])) == if j < i then Some(docs[j].content) else Get(d, TargetOf(docs[j])))
      && (forall j :: i <= j < |docs| ==> StageOf(docs[j], txn) in mid)
      && Get(mid, Journal) == Some(Entries(Images(docs, txn, d)))
      && Undoable(mid, Docs(d))
  {
    var journalled := Journalled(d, docs, txn);
    JournalledState(d, docs, txn);
    forall j | 0 <= j < |docs|
      ensures Get(journalled, StageOf(docs[j], txn)) == Some(docs[j].content)
      ensures Get(journalled, TargetOf(docs[j])) == Get(d, TargetOf(docs[j]))
    {
      JournalledDoc(d, docs, txn, j);
    }
    InstalledPrefix(journalled, docs, txn, i);
    InstallCut(journalled, docs, docs, txn, Images(docs, txn, d), Docs(d), NewDocs(docs), i);
    ImagesUndoNothing(docs, txn, d);
    InstallingIsUndoable(Halfway(d, docs, txn, i), Images(docs, txn, d), Docs(d));
  }

  lemma JournalledDoc(d: Disk, docs: seq<Doc>, txn: Id, j: nat)
    requires Distinct(docs) && j < |docs|
    ensures Get(Journalled(d, docs, txn), StageOf(docs[j], txn)) == Some(docs[j].content)
    ensures Get(Journalled(d, docs, txn), TargetOf(docs[j])) == Get(d, TargetOf(docs[j]))
  {
    var staged, entries := ApplyAll(d, StageOps(docs, txn)), Images(docs, txn, d);
    LatestIsOwn(docs, j);
    StagedContent(d, docs, txn, docs[j].space, docs[j].id);
    StagingIsQuiet(docs, txn);
    QuietOps(d, StageOps(docs, txn));
    JournalCut(staged, entries, 3);
    assert JournalOps(entries)[..3] == JournalOps(entries);
    var p := TargetOf(docs[j]);
    assert Get(Docs(Journalled(d, docs, txn)), p) == Get(Docs(d), p);
  }

  /** A commit that completes removes whatever journal there was, and its documents are final. */
  lemma CompletedCommitIsFinal(d: Disk, docs: seq<Doc>, txn: Id)
    ensures
      var end := ApplyAll(d, SaveOps(docs, txn, d));
      Docs(end) == Docs(d) + NewDocs(docs) && Journal !in end && Recover(end) == end
  {
    var ops := SaveOps(docs, txn, d);
    AfterCommit(d, docs, txn, |ops|);
    assert ops[..|ops|] == ops;
    var prepare, commit, cleanup := PrepareOps(docs, txn, d), [Unlink(Journal)], CleanupOps(docs, txn);
    ApplyConcat(d, prepare + commit, cleanup);
    ApplyConcat(d, prepare, commit);
    assert commit[1..] == [];
    UnstagingIsQuiet(docs, txn);
    QuietOps(Apply(ApplyAll(d, prepare), Unlink(Journal)), cleanup);
  }

  /** What a recovery that fails at once leaves is neither all nor nothing, and the next transaction
      decides it: if it completes, the first documents stay without the others for good; if it is cut
      by a crash at its start, they are taken away again although readers have seen them. */
  lemma LeftoverJournalTearsACommit(d: Disk, docs: seq<Doc>, txn: Id, i: nat, later: seq<Doc>, laterTxn: Id)
    requires Journal !in d && Distinct(docs) && i <= |docs|
    requires forall j :: 0 <= j < |docs| ==> TargetOf(docs[j]) !in d && TargetOf(docs[j]) !in NewDocs(later)
    ensures
      var mid := Halfway(d, docs, txn, i);
      var end := ApplyAll(mid, SaveOps(later, laterTxn, mid));
      && mid == CutShort(mid, 0) && Recover(end) == end
      && forall j :: 0 <= j < |docs| ==>
           && (TargetOf(docs[j]) in Docs(mid) <==> j < i)
           && (TargetOf(docs[j]) in Docs(end) <==> j < i)
           && TargetOf(docs[j]) !in AfterCrash(mid, later, laterTxn, 0, [])
  {
    var mid := Halfway(d, docs, txn, i);
    HalfwayDocs(d, docs, txn, i);
    CompletedCommitIsFinal(mid, later, laterTxn);
    RecoveryIsRestartable(mid, Docs(d), 0);
    assert RecoverOps(mid)[..0] == [] && SaveOps(later, laterTxn, mid)[..0] == [];
    forall j | 0 <= j < |docs| ensures TargetOf(docs[j]) in Docs(mid) <==> j < i {
      assert Get(mid, TargetOf(docs[j])).Some? <==> j < i;
    }
  }

  /** However far a transaction got, its cleanup removes each of its stages and the unfinished journal,
      and nothing else. */
  lemma {:induction false} CleanupLeavesNoStage(d: Disk, docs: seq<Doc>, txn: Id)
    ensures
      var end := ApplyAll(d, CleanupOps(docs, txn));
      && JournalTemp !in end
      && (forall i :: 0 <= i < |docs| ==> StageOf(docs[i], txn) !in end)
      && (forall p :: p in d && p != JournalTemp && (forall i :: 0 <= i < |docs| ==> p != StageOf(docs[i], txn)) ==>
            p in end && end[p] == d[p])
      && end.Keys <= d.Keys
  {
    var ops := CleanupOps(docs, txn);
    assert ops[0] == Unlink(JournalTemp) && ops[1..] == UnstageOps(docs, txn);
    UnstagedExactly(d - {JournalTemp}, docs, txn);
  }

  lemma {:induction false} UnstagedExactly(d: Disk, docs: seq<Doc>, txn: Id)
    ensures
      var end := ApplyAll(d, UnstageOps(docs, txn));
      && (forall i :: 0 <= i < |docs| ==> StageOf(docs[i], txn) !in end)
      && (forall p :: p in d && (forall i :: 0 <= i < |docs| ==> p != StageOf(docs[i], txn)) ==>
            p in end && end[p] == d[p])
      && end.Keys <= d.Keys
    decreases |docs|
  {
    if docs != [] {
      var ops := UnstageOps(docs, txn);
      assert ops[0] == Unlink(StageOf(docs[0], txn)) && ops[1..] == UnstageOps(docs[1..], txn);
      UnstagedExactly(d - {StageOf(docs[0], txn)}, docs[1..], txn);
      var rest := docs[1..];
      assert forall i :: 1 <= i < |docs| ==> docs[i] == rest[i - 1];
    }
  }

  function StageOfEntry(e: Entry): Path {
    Stage(e.space, e.id, e.txn)
  }

  predicate MakesNoStage(op: DiskOp) {
    if op.Rename? then !op.dst.Stage? else !op.Unlink? ==> !op.path.Stage?
  }

  lemma {:induction false} StagesOnlyGo(d: Disk, ops: seq<DiskOp>)
    requires forall i :: 0 <= i < |ops| ==> MakesNoStage(ops[i])
    ensures forall p: Path :: p.Stage? && p in ApplyAll(d, ops) ==> p in d
    decreases |ops|
  {
    if ops != [] {
      assert MakesNoStage(ops[0]);
      StagesOnlyGo(Apply(d, ops[0]), ops[1..]);
    }
  }

  /** Undoing an entry removes its stage, and brings no other stage back. */
  lemma UndoUnstages(d: Disk, e: Entry)
    ensures
      var end := ApplyAll(d, UndoOps(e));
      && StageOfEntry(e) !in end
      && forall p: Path :: p.Stage? && p in end ==> p in d
  {
    var ops, last := UndoOps(e), [Unlink(StageOfEntry(e))];
    StagesOnlyGo(d, ops);
    assert ops == ops[..|ops| - 1] + last && last[1..] == [];
    ApplyConcat(d, ops[..|ops| - 1], last);
  }

  lemma {:induction false} UndoAllUnstages(d: Disk, entries: seq<Entry>)
    ensures
      var end := ApplyAll(d, UndoAllOps(entries));
      && (forall i :: 0 <= i < |entries| ==> StageOfEntry(entries[i]) !in end)
      && forall p: Path :: p.Stage? && p in end ==> p in d
    decreases |entries|
  {
    if entries != [] {
      UndoUnstages(d, entries[0]);
      ApplyConcat(d, UndoOps(entries[0]), UndoAllOps(entries[1..]));
      UndoAllUnstages(ApplyAll(d, UndoOps(entries[0])), entries[1..]);
      var rest := entries[1..];
      assert forall i :: 1 <= i < |entries| ==> entries[i] == rest[i - 1];
    }
  }

  /** A completed recovery leaves neither the journal nor any stage the journal names. */
  lemma RecoveryLeavesNoStage(d: Disk)
    requires HasJournal(d)
    ensures
      var entries, end := d[Journal].entries, Recover(d);
      Journal !in end && forall i :: 0 <= i < |entries| ==> StageOfEntry(entries[i]) !in end
  {
    var entries := d[Journal].entries;
    UndoAllUnstages(d, entries);
    var last := [Unlink(Journal)];
    assert last[1..] == [];
    ApplyConcat(d, UndoAllOps(entries), last);
  }
}
