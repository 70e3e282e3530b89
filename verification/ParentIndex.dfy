/** The control-plane store's in-memory parent index: a cache that must agree with
    a filter over the stored documents (cowork/coding/control_store.py). */
module ParentIndex {
  import opened Common

  datatype Collection =
    | Computers | Tasks | Runs | Workspaces | Grants | Commands
    | RuntimeCredentials | RegistrationCredentials | RunCredentials | Audit

  datatype Key = Key(collection: Collection, id: Id)

  /** A stored document: the id of the record that owns it, if any, and the rest. */
  datatype Record = Record(parent: Option<Id>, data: string)

  type Files = map<Key, Record>
  type Index = map<Id, set<Id>>

  predicate Indexed(c: Collection) {
    c in {Runs, Workspaces, Grants, Commands, RunCredentials, Audit}
  }

  /** The collections whose documents a run owns. */
  const OWNED := {Workspaces, Grants, Commands, RunCredentials, Audit}

  /** The owner a document is filed under; an empty id files it nowhere. */
  function ParentOf(r: Record): Option<Id> {
    if r.parent == Some("") then None else r.parent
  }

  predicate IsChild(files: Files, k: Key, parent: Id) {
    k in files && ParentOf(files[k]) == Some(parent)
  }

  /** The reference: filter every stored document of the collection. */
  function Children(files: Files, c: Collection, parent: Id): set<Id> {
    set k | k in files && k.collection == c && IsChild(files, k, parent) :: k.id
  }

  /** A document is a child of the owner it names, and of nobody if it names the empty id. */
  lemma ChildrenExactly(files: Files, c: Collection, parent: Id)
    ensures Children(files, c, "") == {}
    ensures parent != "" ==>
      forall id :: id in Children(files, c, parent) <==> Key(c, id) in files && files[Key(c, id)].parent == Some(parent)
  {
    if parent != "" {
      forall id ensures
        id in Children(files, c, parent) <==> Key(c, id) in files && files[Key(c, id)].parent == Some(parent)
      {
        if Key(c, id) in files && files[Key(c, id)].parent == Some(parent) {
          assert IsChild(files, Key(c, id), parent);
        }
      }
    }
  }

  predicate InIndex(index: Index, parent: Id, id: Id) {
    parent in index && id in index[parent]
  }

  /** Whatever is stored is filed under its owner and nowhere else. Ids with no file may linger. */
  ghost predicate Agrees(files: Files, index: map<Collection, Index>) {
    forall c, id, p :: c in index && Key(c, id) in files ==>
      (InIndex(index[c], p, id) <==> ParentOf(files[Key(c, id)]) == Some(p))
  }

  // ---------------------------------------------------------------- what deleting a task takes with it

  predicate OwnedBy(files: Files, k: Key, runs: set<Id>) {
    k in files && k.collection in OWNED && ParentOf(files[k]).Some? && ParentOf(files[k]).value in runs
  }

  function OwnedKeys(files: Files, runs: set<Id>): set<Key> {
    set k | k in files && OwnedBy(files, k, runs)
  }

  function RunKeys(runs: set<Id>): set<Key> {
    set r | r in runs :: Key(Runs, r)
  }

  /** The task, its runs, and every record those runs own. */
  function Doomed(files: Files, task: Id): set<Key> {
    var runs := Children(files, Runs, task);
    {Key(Tasks, task)} + RunKeys(runs) + OwnedKeys(files, runs)
  }

  function WithoutEmpty(index: Index): Index {
    index - set p | p in index && index[p] == {}
  }

  lemma EmptySetsDoNotMatter(index: Index, p: Id, id: Id)
    ensures InIndex(WithoutEmpty(index), p, id) <==> InIndex(index, p, id)
  {
  }

  /** With an id taken out of a collection's index, and owners without ids dropped, the rest still agrees. */
  lemma AgreesWithout(
    files: Files, before: map<Collection, Index>, after: map<Collection, Index>, c: Collection, id: Id)
    requires Agrees(files, before) && c in after && after.Keys == before.Keys
    requires forall b :: b in after && b != c ==> after[b] == before[b]
    requires forall p, i :: InIndex(after[c], p, i) <==> InIndex(before[c], p, i) && i != id
    ensures Agrees(files - {Key(c, id)}, after[c := WithoutEmpty(after[c])])
  {
    forall p, i ensures InIndex(WithoutEmpty(after[c]), p, i) <==> InIndex(after[c], p, i) {
      EmptySetsDoNotMatter(after[c], p, i);
    }
  }

  function ChildKeys(files: Files, c: Collection, run: Id): set<Key> {
    set k | k in files && k.collection == c && IsChild(files, k, run)
  }

  /** What a run owns in several collections at once. */
  function ChildrenIn(files: Files, cs: set<Collection>, run: Id): set<Key> {
    set k | k in files && k.collection in cs && IsChild(files, k, run)
  }

  lemma OneMoreCollection(files: Files, cs: set<Collection>, c: Collection, run: Id)
    requires c !in cs
    ensures var rest := files - ChildrenIn(files, cs, run);
      rest - ChildKeys(rest, c, run) == files - ChildrenIn(files, cs + {c}, run)
  {
    var rest := files - ChildrenIn(files, cs, run);
    assert ChildKeys(rest, c, run) == ChildKeys(files, c, run);
    assert ChildrenIn(files, cs + {c}, run) == ChildrenIn(files, cs, run) + ChildKeys(files, c, run);
  }

  datatype Outcome = Saved | FailedBeforeIndexing | FailedAfterIndexing

  class Store {
    var files: Files
    var index: map<Collection, Index>

    ghost predicate Valid()
      reads this
    {
      && (forall c :: c in index <==> Indexed(c))
      && Agrees(files, index)
    }

    /** Open a directory: file every stored document under its owner. */
    constructor (found: Files)
      ensures Valid() && files == found
    {
      files := found;
      index := map[Runs := map[], Workspaces := map[], Grants := map[],
                   Commands := map[], RunCredentials := map[], Audit := map[]];
      new;
      var todo := files.Keys;
      while todo != {}
        invariant todo <= files.Keys && files == found
        invariant forall c :: c in index <==> Indexed(c)
        invariant forall c, id, p :: c in index && Key(c, id) in todo ==> !InIndex(index[c], p, id)
        invariant forall c, id, p :: c in index && Key(c, id) in files.Keys - todo ==>
          (InIndex(index[c], p, id) <==> ParentOf(files[Key(c, id)]) == Some(p))
        decreases todo
      {
        var k :| k in todo;
        todo := todo - {k};
        IndexDocument(k.collection, k.id, files[k]);
      }
    }

    /** Take an id out of every owner's set. */
    method Discard(c: Collection, id: Id)
      requires c in index
      modifies this`index
      ensures index.Keys == old(index).Keys
      ensures forall b :: b in index && b != c ==> index[b] == old(index)[b]
      ensures forall p, i :: InIndex(index[c], p, i) <==> InIndex(old(index)[c], p, i) && i != id
      ensures index[c].Keys == old(index)[c].Keys
    {
      var todo := index[c].Keys;
      while todo != {}
        invariant c in index && index.Keys == old(index).Keys
        invariant todo <= index[c].Keys == old(index)[c].Keys
        invariant forall b :: b in index && b != c ==> index[b] == old(index)[b]
        invariant forall p :: p in index[c] ==>
          index[c][p] == if p in todo then old(index)[c][p] else old(index)[c][p] - {id}
        decreases todo
      {
        var p :| p in todo;
        todo := todo - {p};
        index := index[c := index[c][p := index[c][p] - {id}]];
      }
    }

    method IndexDocument(c: Collection, id: Id, r: Record)
      modifies this`index
      ensures index.Keys == old(index).Keys
      ensures forall b :: b in index && b != c ==> index[b] == old(index)[b]
      ensures c in index ==> forall p, i :: InIndex(index[c], p, i) <==>
        if i == id then ParentOf(r) == Some(p) else InIndex(old(index)[c], p, i)
    {
      if c !in index {
        return;
      }
      Discard(c, id);
      ghost var rest := index[c];
      var parent := ParentOf(r);
      if parent.Some? {
        var ids := if parent.value in index[c] then index[c][parent.value] else {};
        index := index[c := index[c][parent.value := ids + {id}]];
      }
      forall p, i ensures InIndex(index[c], p, i) <==> InIndex(rest, p, i) || (i == id && parent == Some(p)) {
      }
    }

    /** Store one document, new, changed or moved to another owner. */
    method Save(c: Collection, id: Id, r: Record)
      requires Valid()
      modifies this
      ensures Valid() && files == old(files)[Key(c, id) := r]
    {
      files := files[Key(c, id) := r];
      IndexDocument(c, id, r);
    }

    /** Remove one document and its id, and every owner left without ids. */
    method Delete(c: Collection, id: Id)
      requires Valid()
      modifies this
      ensures Valid() && files == old(files) - {Key(c, id)}
    {
      files := files - {Key(c, id)};
      if c in index {
        Discard(c, id);
        ghost var discarded := index;
        index := index[c := WithoutEmpty(index[c])];
        AgreesWithout(old(files), old(index), discarded, c, id);
      }
    }

    /** Create several documents as one unit; one that exists refuses them all. A failure undoes
        the files; one that comes after the documents were indexed leaves their ids behind. */
    method SaveMany(docs: map<Key, Record>, outcome: Outcome) returns (saved: bool)
      requires Valid()
      modifies this
      ensures Valid()
      ensures saved <==> outcome == Saved && docs.Keys !! old(files).Keys
      ensures files == if saved then old(files) + docs else old(files)
      ensures outcome == FailedBeforeIndexing || !(docs.Keys !! old(files).Keys) ==> unchanged(this)
    {
      if !(docs.Keys !! files.Keys) || outcome == FailedBeforeIndexing {
        return false;
      }
      ghost var before := index;
      var todo := docs.Keys;
      while todo != {}
        invariant todo <= docs.Keys && files == old(files)
        invariant forall c :: c in index <==> Indexed(c)
        invariant forall c, id, p :: c in index && Key(c, id) !in docs ==>
          (InIndex(index[c], p, id) <==> InIndex(before[c], p, id))
        invariant forall c, id, p :: c in index && Key(c, id) in docs.Keys - todo ==>
          (InIndex(index[c], p, id) <==> ParentOf(docs[Key(c, id)]) == Some(p))
        decreases todo
      {
        var k :| k in todo;
        todo := todo - {k};
        IndexDocument(k.collection, k.id, docs[k]);
      }
      saved := outcome == Saved;
      if saved {
        files := files + docs;
      }
    }

    /** The documents of a collection that a record owns: exactly the filter, read off the index. */
    method ListForParent(c: Collection, parent: Id) returns (found: set<Id>)
      requires Valid() && Indexed(c)
      ensures found == Children(files, c, parent)
    {
      found := {};
      if parent !in index[c] {
        return;
      }
      var todo := index[c][parent];
      while todo != {}
        invariant todo <= index[c][parent]
        invariant found == set id | id in index[c][parent] - todo && Key(c, id) in files
        decreases todo
      {
        var id :| id in todo;
        todo := todo - {id};
        if Key(c, id) in files {
          found := found + {id};
        }
      }
      forall id ensures id in found <==> id in Children(files, c, parent) {
        if Key(c, id) in files {
          assert InIndex(index[c], parent, id) <==> ParentOf(files[Key(c, id)]) == Some(parent);
          assert IsChild(files, Key(c, id), parent) <==> id in Children(files, c, parent);
        }
      }
    }

    /** Delete every document of one collection that a run owns. */
    method DeleteChildren(c: Collection, run: Id)
      requires Valid() && Indexed(c)
      modifies this
      ensures Valid()
      ensures files == old(files) - ChildKeys(old(files), c, run)
    {
      var todo := ListForParent(c, run);
      ghost var all := todo;
      ghost var gone: set<Key> := {};
      while todo != {}
        invariant Valid() && todo <= all
        invariant gone == set id | id in all - todo :: Key(c, id)
        invariant files == old(files) - gone
        decreases todo
      {
        var id :| id in todo;
        todo := todo - {id};
        Delete(c, id);
        gone := gone + {Key(c, id)};
      }
      assert gone == ChildKeys(old(files), c, run);
    }

    /** Delete a task, its runs and every record those runs own, and nothing else. */
    method DeleteTask(task: Id)
      requires Valid()
      modifies this
      ensures Valid() && files == old(files) - Doomed(old(files), task)
    {
      var runs := ListForParent(Runs, task);
      var todo := runs;
      while todo != {}
        invariant Valid() && todo <= runs
        invariant files == old(files) - RunKeys(runs - todo) - OwnedKeys(old(files), runs - todo)
        decreases todo
      {
        var run :| run in todo;
        DeleteRun(run);
        OneMoreRun(old(files), runs - todo, run);
        todo := todo - {run};
        assert runs - todo == runs - (todo + {run}) + {run};
      }
      Delete(Tasks, task);
    }

    method DeleteRun(run: Id)
      requires Valid()
      modifies this
      ensures Valid() && files == old(files) - {Key(Runs, run)} - OwnedKeys(old(files), {run})
    {
      ghost var all := files;
      var todo := [Workspaces, Grants, Commands, RunCredentials, Audit];
      ghost var done: set<Collection> := {};
      while todo != []
        invariant Valid()
        invariant forall i :: 0 <= i < |todo| ==> todo[i] in OWNED && todo[i] !in done
        invariant forall i, j :: 0 <= i < j < |todo| ==> todo[i] != todo[j]
        invariant forall c :: c in OWNED ==> c in done || c in todo
        invariant done <= OWNED
        invariant files == all - ChildrenIn(all, done, run)
        decreases |todo|
      {
        DeleteChildren(todo[0], run);
        OneMoreCollection(all, done, todo[0], run);
        done := done + {todo[0]};
        todo := todo[1..];
      }
      assert done == OWNED;
      assert ChildrenIn(all, OWNED, run) == OwnedKeys(all, {run});
      Delete(Runs, run);
    }
  }

  lemma OneMoreRun(files: Files, done: set<Id>, run: Id)
    ensures var before := files - RunKeys(done) - OwnedKeys(files, done);
      before - {Key(Runs, run)} - OwnedKeys(before, {run}) ==
      files - RunKeys(done + {run}) - OwnedKeys(files, done + {run})
  {
    var before := files - RunKeys(done) - OwnedKeys(files, done);
    forall k ensures k in before - {Key(Runs, run)} - OwnedKeys(before, {run})
                <==> k in files - RunKeys(done + {run}) - OwnedKeys(files, done + {run})
    {
    }
  }
}
