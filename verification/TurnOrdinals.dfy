/** Numbering the turns of each thread in bounded memory: a window of recent turns per
    thread, and the most recently used threads only. */
module TurnOrdinals {
  import opened Common

  datatype Turn = Turn(id: Id, number: nat)

  datatype Thread = Thread(id: Id, count: nat, turns: seq<Turn>)

  /** The last `n` elements, or all of them. */
  function Last<T>(n: nat, s: seq<T>): seq<T> {
    if |s| <= n then s else s[|s| - n..]
  }

  function Without(s: seq<Id>, x: Id): seq<Id> {
    if s == [] then [] else (if s[0] == x then [] else [s[0]]) + Without(s[1..], x)
  }

  /** What the table stands for: the threads by recency, and of each the turns it numbered. */
  datatype Table = Table(order: seq<Id>, numbered: map<Id, seq<Id>>)

  predicate InWindow(window: nat, turns: seq<Id>, turn: Id) {
    turn in Last(window, turns)
  }

  function Turns(t: Table, thread: Id): seq<Id> {
    if thread in t.order && thread in t.numbered then t.numbered[thread] else []
  }

  /** A turn in the thread's window keeps its number; any other takes the next one. */
  function Numbered(window: nat, turns: seq<Id>, turn: Id): seq<Id> {
    if InWindow(window, turns, turn) then turns else turns + [turn]
  }

  function Touch(threads: nat, order: seq<Id>, thread: Id): seq<Id> {
    Last(threads, Without(order, thread) + [thread])
  }

  function Next(t: Table, threads: nat, window: nat, thread: Id, turn: Id): Table {
    Table(Touch(threads, t.order, thread), t.numbered[thread := Numbered(window, Turns(t, thread), turn)])
  }

  lemma {:induction false} WithoutContains(s: seq<Id>, x: Id)
    ensures x !in Without(s, x) && |Without(s, x)| <= |s|
    ensures forall y :: y != x ==> (y in Without(s, x) <==> y in s)
    decreases |s|
  {
    if s != [] {
      WithoutContains(s[1..], x);
    }
  }

  lemma {:induction false} WithoutConcat(a: seq<Id>, b: seq<Id>, x: Id)
    ensures Without(a + b, x) == Without(a, x) + Without(b, x)
    decreases |a|
  {
    if a == [] {
      assert a + b == b;
    } else {
      WithoutConcat(a[1..], b, x);
      assert (a + b)[0] == a[0] && (a + b)[1..] == a[1..] + b;
    }
  }

  lemma {:induction false} WithoutAbsent(s: seq<Id>, x: Id)
    requires x !in s
    ensures Without(s, x) == s
    decreases |s|
  {
    if s != [] {
      WithoutAbsent(s[1..], x);
    }
  }

  predicate Distinct(s: seq<Id>) {
    forall i, j :: 0 <= i < j < |s| ==> s[i] != s[j]
  }

  lemma DistinctFirst(x: Id, s: seq<Id>)
    requires Distinct(s) && x !in s
    ensures Distinct([x] + s)
  {
    assert forall i :: 0 <= i < |s| ==> s[i] in s;
  }

  lemma {:induction false} WithoutDistinct(s: seq<Id>, x: Id)
    requires Distinct(s)
    ensures Distinct(Without(s, x)) && |Without(s, x)| == (if x in s then |s| - 1 else |s|)
    decreases |s|
  {
    if s != [] {
      var rest := s[1..];
      assert s == [s[0]] + rest && s[0] !in rest;
      WithoutDistinct(rest, x);
      if s[0] == x {
        WithoutAbsent(rest, x);
      } else {
        WithoutContains(rest, x);
        DistinctFirst(s[0], Without(rest, x));
      }
    }
  }

  // ---- Least recently used eviction ----

  /** The threads of `calls` by their latest call, oldest first: what an unbounded table would hold. */
  function Recency(calls: seq<Id>): seq<Id>
    decreases |calls|
  {
    if calls == [] then []
    else Without(Recency(calls[..|calls| - 1]), calls[|calls| - 1]) + [calls[|calls| - 1]]
  }

  /** Touching a truncated recency order gives the truncation of touching the whole. */
  lemma TouchTruncated(threads: nat, order: seq<Id>, x: Id)
    requires Distinct(order)
    ensures Touch(threads, Last(threads, order), x) == Last(threads, Without(order, x) + [x])
  {
    if |order| > threads {
      var a, b := order[..|order| - threads], Last(threads, order);
      assert order == a + b;
      WithoutConcat(a, b, x);
      assert Distinct(b);
      WithoutDistinct(b, x);
      assert Without(order, x) + [x] == Without(a, x) + (Without(b, x) + [x]);
      LastOfSuffix(threads, Without(a, x), Without(b, x) + [x]);
    }
  }

  lemma LastOfSuffix<T>(n: nat, a: seq<T>, b: seq<T>)
    requires |b| >= n
    ensures Last(n, a + b) == Last(n, b)
  {
  }

  // ---- The unbounded numbering ----

  datatype Call = Call(thread: Id, turn: Id)

  function Threads(calls: seq<Call>): seq<Id> {
    seq(|calls|, i requires 0 <= i < |calls| => calls[i].thread)
  }

  function Listed(lists: map<Id, seq<Id>>, thread: Id): seq<Id> {
    if thread in lists then lists[thread] else []
  }

  function WithTurn(turns: seq<Id>, turn: Id): seq<Id> {
    if turn in turns then turns else turns + [turn]
  }

  /** Each thread's turns in the order they first appeared: a turn's number is its position. */
  function Ideal(calls: seq<Call>): map<Id, seq<Id>>
    decreases |calls|
  {
    if calls == [] then map[] else
    var before, c := Ideal(calls[..|calls| - 1]), calls[|calls| - 1];
    before[c.thread := WithTurn(Listed(before, c.thread), c.turn)]
  }

  function Run(calls: seq<Call>, threads: nat, window: nat): Table
    decreases |calls|
  {
    if calls == [] then Table([], map[])
    else
      var last := calls[|calls| - 1];
      Next(Run(calls[..|calls| - 1], threads, window), threads, window, last.thread, last.turn)
  }

  /** The threads the table keeps are exactly the most recently called ones. */
  lemma {:induction false} KeepsMostRecent(calls: seq<Call>, threads: nat, window: nat)
    ensures Distinct(Recency(Threads(calls)))
    ensures Run(calls, threads, window).order == Last(threads, Recency(Threads(calls)))
    decreases |calls|
  {
    if calls != [] {
      var before, x := calls[..|calls| - 1], calls[|calls| - 1].thread;
      assert Threads(calls)[..|calls| - 1] == Threads(before);
      KeepsMostRecent(before, threads, window);
      WithoutDistinct(Recency(Threads(before)), x);
      WithoutContains(Recency(Threads(before)), x);
      TouchTruncated(threads, Recency(Threads(before)), x);
    }
  }

  /** A call the table numbers right: to a turn in the window of a recent thread, to a new turn
      of one, to a new thread, or to the only turn an evicted thread ever had. */
  predicate Fitting(resident: bool, turns: seq<Id>, turn: Id, window: nat) {
    if resident then turn in turns ==> InWindow(window, turns, turn)
    else turns == [] || turns == [turn]
  }

  predicate Fits(calls: seq<Call>, threads: nat, window: nat)
    decreases |calls|
  {
    calls == [] ||
    var before, c := calls[..|calls| - 1], calls[|calls| - 1];
    && Fits(before, threads, window)
    && Fitting(c.thread in Last(threads, Recency(Threads(before))), Listed(Ideal(before), c.thread), c.turn, window)
  }

  /** The table agrees with the unbounded lists on every thread it keeps. */
  ghost predicate Agrees(t: Table, lists: map<Id, seq<Id>>) {
    forall x :: x in t.order ==> x in t.numbered && x in lists && t.numbered[x] == lists[x]
  }

  /** It agrees, and has agreed after every earlier call. */
  ghost predicate AlwaysAgrees(calls: seq<Call>, threads: nat, window: nat)
    decreases |calls|
  {
    && Agrees(Run(calls, threads, window), Ideal(calls))
    && (calls != [] ==> AlwaysAgrees(calls[..|calls| - 1], threads, window))
  }

  lemma TouchedOrder(threads: nat, order: seq<Id>, x: Id)
    ensures forall y :: y in Touch(threads, order, x) ==> y == x || y in order
    ensures threads >= 1 ==> x in Touch(threads, order, x)
  {
    WithoutContains(order, x);
    var all := Without(order, x) + [x];
    assert threads >= 1 ==> Last(threads, all)[|Last(threads, all)| - 1] == x;
  }

  lemma NumberedIsIdeal(window: nat, t: Table, lists: map<Id, seq<Id>>, c: Call)
    requires Agrees(t, lists)
    ensures Numbered(window, Turns(t, c.thread), c.turn) == WithTurn(Listed(lists, c.thread), c.turn)
       <==> Fitting(c.thread in t.order, Listed(lists, c.thread), c.turn, window)
  {
  }

  lemma AgreesNext(t: Table, lists: map<Id, seq<Id>>, threads: nat, window: nat, c: Call)
    requires Agrees(t, lists)
    ensures
      var more := lists[c.thread := WithTurn(Listed(lists, c.thread), c.turn)];
      var next := Agrees(Next(t, threads, window, c.thread, c.turn), more);
      var fits := Fitting(c.thread in t.order, Listed(lists, c.thread), c.turn, window);
      (fits ==> next) && (next && threads >= 1 ==> fits)
  {
    TouchedOrder(threads, t.order, c.thread);
    NumberedIsIdeal(window, t, lists, c);
  }

  /** The bounded table numbers the turns of the threads it keeps as the unbounded numbering does,
      1, 2, 3 and so on in order of first appearance, exactly when every call fits its bounds. */
  lemma {:induction false} NumbersAsUnbounded(calls: seq<Call>, threads: nat, window: nat)
    ensures Fits(calls, threads, window) ==> AlwaysAgrees(calls, threads, window)
    ensures AlwaysAgrees(calls, threads, window) && threads >= 1 ==> Fits(calls, threads, window)
    decreases |calls|
  {
    if calls != [] {
      var before, c := calls[..|calls| - 1], calls[|calls| - 1];
      NumbersAsUnbounded(before, threads, window);
      KeepsMostRecent(before, threads, window);
      if AlwaysAgrees(before, threads, window) {
        AgreesNext(Run(before, threads, window), Ideal(before), threads, window, c);
      }
    }
  }

  // ---- The table as the code keeps it ----

  function Window(window: nat, turns: seq<Id>): seq<Turn> {
    var kept := Last(window, turns);
    seq(|kept|, i requires 0 <= i < |kept| => Turn(kept[i], |turns| - |kept| + i + 1))
  }

  ghost predicate Entry(thread: Thread, id: Id, turns: seq<Id>, window: nat) {
    thread == Thread(id, |turns|, Window(window, turns)) && Distinct(Last(window, turns))
  }

  ghost predicate Stands(threads: seq<Thread>, t: Table, window: nat) {
    && |threads| == |t.order| && Distinct(t.order)
    && forall i :: 0 <= i < |threads| ==>
        t.order[i] in t.numbered && Entry(threads[i], t.order[i], t.numbered[t.order[i]], window)
  }

  lemma DistinctMore(s: seq<Id>, x: Id)
    requires Distinct(s) && x !in s
    ensures Distinct(s + [x])
  {
    assert forall i :: 0 <= i < |s| ==> s[i] in s;
  }

  lemma LastMore<T>(n: nat, s: seq<T>, x: T)
    requires n >= 1
    ensures Last(n, s + [x]) == (if |s| < n then s + [x] else Last(n, s)[1..] + [x])
  {
  }

  /** Adding a new turn and dropping the oldest beyond the window. */
  lemma WindowMore(window: nat, turns: seq<Id>, turn: Id)
    requires window >= 1 && Distinct(Last(window, turns)) && !InWindow(window, turns, turn)
    ensures Distinct(Last(window, turns + [turn]))
    ensures Window(window, turns + [turn]) == Last(window, Window(window, turns) + [Turn(turn, |turns| + 1)])
  {
    var kept := Last(window, turns);
    LastMore(window, turns, turn);
    DistinctMore(kept, turn);
    assert |kept| == window ==> (kept + [turn])[1..] == kept[1..] + [turn];
    WindowEntries(window, turns, turn);
  }

  lemma WindowEntries(window: nat, turns: seq<Id>, turn: Id)
    requires window >= 1
    ensures Window(window, turns + [turn]) == Last(window, Window(window, turns) + [Turn(turn, |turns| + 1)])
  {
    LastMore(window, turns, turn);
    LastMore(window, Window(window, turns), Turn(turn, |turns| + 1));
    var a, b := Window(window, turns + [turn]), Last(window, Window(window, turns) + [Turn(turn, |turns| + 1)]);
    assert |a| == |b|;
    forall k | 0 <= k < |a| ensures a[k] == b[k] {
    }
  }

  /** Taking one thread out leaves the others standing. */
  lemma StandsLess(threads: seq<Thread>, t: Table, window: nat, i: nat)
    requires Stands(threads, t, window) && i < |threads|
    ensures Stands(threads[..i] + threads[i + 1..], t.(order := Without(t.order, t.order[i])), window)
  {
    WithoutSplit(t.order, i);
    WithoutDistinct(t.order, t.order[i]);
    var rest, order := threads[..i] + threads[i + 1..], t.order[..i] + t.order[i + 1..];
    forall k | 0 <= k < |rest|
      ensures order[k] in t.numbered && Entry(rest[k], order[k], t.numbered[order[k]], window)
    {
      var j := if k < i then k else k + 1;
      assert rest[k] == threads[j] && order[k] == t.order[j];
    }
  }

  lemma {:induction false} WithoutSplit(s: seq<Id>, i: nat)
    requires i < |s| && Distinct(s)
    ensures Without(s, s[i]) == s[..i] + s[i + 1..]
    decreases |s|
  {
    if i == 0 {
      WithoutAbsent(s[1..], s[0]);
    } else {
      WithoutSplit(s[1..], i - 1);
      assert s[..i] == [s[0]] + s[1..][..i - 1];
    }
  }

  /** Drop from the front until `n` are left. */
  method Trim<T>(s: seq<T>, n: nat) returns (r: seq<T>)
    ensures r == Last(n, s)
  {
    r := s;
    while |r| > n
      invariant Last(n, r) == Last(n, s)
    {
      r := r[1..];
    }
  }

  method Find(turns: seq<Turn>, id: Id) returns (i: nat)
    ensures i <= |turns| && forall j :: 0 <= j < i ==> turns[j].id != id
    ensures i < |turns| ==> turns[i].id == id
  {
    i := 0;
    while i < |turns| && turns[i].id != id
      invariant i <= |turns| && forall j :: 0 <= j < i ==> turns[j].id != id
    {
      i := i + 1;
    }
  }

  /** A turn found in the window has its position among all turns; one not found is not in it. */
  lemma Found(window: nat, turns: seq<Id>, id: Id, i: nat)
    requires i <= |Window(window, turns)|
    requires forall j :: 0 <= j < i ==> Window(window, turns)[j].id != id
    requires i < |Window(window, turns)| ==> Window(window, turns)[i].id == id
    ensures InWindow(window, turns, id) <==> i < |Window(window, turns)|
    ensures i < |Window(window, turns)| ==>
      var n := Window(window, turns)[i].number;
      1 <= n <= |turns| && turns[n - 1] == id && n > |turns| - window
  {
    var kept := Last(window, turns);
    assert forall j :: 0 <= j < |kept| ==> Window(window, turns)[j].id == kept[j];
  }

  /** Appending an entry to a table without that thread, and evicting the oldest. */
  lemma StandsMore(threads: seq<Thread>, t: Table, window: nat, entry: Thread, turns: seq<Id>, max: nat)
    requires Stands(threads, t, window) && Entry(entry, entry.id, turns, window) && entry.id !in t.order
    ensures
      var after := Table(Last(max, t.order + [entry.id]), t.numbered[entry.id := turns]);
      Stands(Last(max, threads + [entry]), after, window)
  {
    var all, order := threads + [entry], t.order + [entry.id];
    assert Distinct(order) by {
      assert forall i :: 0 <= i < |t.order| ==> t.order[i] in t.order;
    }
    assert Stands(all, Table(order, t.numbered[entry.id := turns]), window);
  }

  class Ordinals {
    const maxThreads: nat
    const turnsPerThread: nat
    var threads: seq<Thread>
    ghost var table: Table

    ghost predicate Valid()
      reads this
    {
      turnsPerThread >= 1 && |threads| <= maxThreads && Stands(threads, table, turnsPerThread)
    }

    constructor (maxThreads: nat, turnsPerThread: nat)
      requires turnsPerThread >= 1
      ensures Valid() && table == Table([], map[]) && this.maxThreads == maxThreads
      ensures this.turnsPerThread == turnsPerThread
    {
      this.maxThreads, this.turnsPerThread := maxThreads, turnsPerThread;
      threads, table := [], Table([], map[]);
    }

    /** Take a thread out of the order, or start a new one. */
    method Take(id: Id) returns (count: nat, turns: seq<Turn>)
      requires Valid()
      modifies this
      ensures Valid() && table == old(table).(order := Without(old(table).order, id))
      ensures Entry(Thread(id, count, turns), id, Turns(old(table), id), turnsPerThread)
    {
      var i := 0;
      while i < |threads| && threads[i].id != id
        invariant 0 <= i <= |threads| && id !in table.order[..i]
      {
        i := i + 1;
      }
      if i == |threads| {
        assert table.order[..i] == table.order;
        WithoutAbsent(table.order, id);
        return 0, [];
      }
      count, turns := threads[i].count, threads[i].turns;
      StandsLess(threads, table, turnsPerThread, i);
      threads := threads[..i] + threads[i + 1..];
      table := table.(order := Without(table.order, id));
    }

    /** Make a thread the most recent one, and evict the oldest beyond the limit. */
    method Put(entry: Thread, ghost numbered: seq<Id>)
      requires Valid() && Entry(entry, entry.id, numbered, turnsPerThread) && entry.id !in table.order
      modifies this
      ensures Valid()
      ensures table == Table(Last(maxThreads, old(table).order + [entry.id]), old(table).numbered[entry.id := numbered])
    {
      StandsMore(threads, table, turnsPerThread, entry, numbered, maxThreads);
      threads := Trim(threads + [entry], maxThreads);
      table := Table(Last(maxThreads, table.order + [entry.id]), table.numbered[entry.id := numbered]);
    }

    /** Number a turn: the answer is its position among the turns its thread has numbered. */
    method Ordinal(thread: Id, turn: Id) returns (n: nat)
      requires Valid()
      modifies this
      ensures Valid() && table == Next(old(table), maxThreads, turnsPerThread, thread, turn)
      ensures 1 <= n <= |table.numbered[thread]| && table.numbered[thread][n - 1] == turn
      ensures n > |table.numbered[thread]| - turnsPerThread
    {
      ghost var before := Turns(table, thread);
      WithoutContains(table.order, thread);
      var count, turns := Take(thread);
      var i := Find(turns, turn);
      Found(turnsPerThread, before, turn, i);
      if i < |turns| {
        n := turns[i].number;
      } else {
        WindowMore(turnsPerThread, before, turn);
        count := count + 1;
        turns := Trim(turns + [Turn(turn, count)], turnsPerThread);
        n := count;
      }
      Put(Thread(thread, count, turns), Numbered(turnsPerThread, before, turn));
    }
  }
}
