/** Repeating a step that always moves forward: the occurrences it generates, how many of
    them are due by an instant, and the first one after it. */
module Occurrences {
  import opened Common

  ghost predicate Forward(step: Time -> Time) {
    forall at :: at < step(at)
  }

  function Nth(step: Time -> Time, start: Time, n: nat): Time {
    if n == 0 then start else step(Nth(step, start, n - 1))
  }

  function Due(step: Time -> Time, cursor: Time, now: Time): nat
    requires Forward(step)
    decreases now - cursor
  {
    if cursor > now then 0 else 1 + Due(step, step(cursor), now)
  }

  function FirstAfter(step: Time -> Time, cursor: Time, now: Time): Time
    requires Forward(step)
    decreases now - cursor
  {
    if cursor > now then cursor else FirstAfter(step, step(cursor), now)
  }

  lemma {:induction false} NthShift(step: Time -> Time, start: Time, n: nat)
    ensures Nth(step, step(start), n) == Nth(step, start, n + 1)
  {
    if n > 0 {
      NthShift(step, start, n - 1);
    }
  }

  lemma {:induction false} NthIncreases(step: Time -> Time, start: Time, i: nat, j: nat)
    requires Forward(step) && i < j
    ensures Nth(step, start, i) < Nth(step, start, j)
    decreases j
  {
    if i < j - 1 {
      NthIncreases(step, start, i, j - 1);
    }
  }

  /** The first occurrence after `now` is the one whose number is the number due. */
  lemma {:induction false} FirstAfterIsNth(step: Time -> Time, start: Time, now: Time)
    requires Forward(step)
    ensures FirstAfter(step, start, now) == Nth(step, start, Due(step, start, now))
    ensures now < FirstAfter(step, start, now)
    ensures start <= FirstAfter(step, start, now)
    ensures Due(step, start, now) > 0 ==> Nth(step, start, Due(step, start, now) - 1) <= now
    decreases now - start
  {
    if start <= now {
      var next := step(start);
      FirstAfterIsNth(step, next, now);
      NthShift(step, start, Due(step, next, now));
      if Due(step, next, now) > 0 {
        NthShift(step, start, Due(step, next, now) - 1);
      }
    }
  }

  /** Exactly the occurrences numbered below the number due are at or before `now`. */
  lemma DueCounts(step: Time -> Time, start: Time, now: Time, n: nat)
    requires Forward(step)
    ensures Nth(step, start, n) <= now <==> n < Due(step, start, now)
    ensures now < Nth(step, start, n) ==> FirstAfter(step, start, now) <= Nth(step, start, n)
  {
    var m := Due(step, start, now);
    FirstAfterIsNth(step, start, now);
    if n < m - 1 {
      NthIncreases(step, start, n, m - 1);
    }
    if m < n {
      NthIncreases(step, start, m, n);
    }
  }

  lemma {:induction false} NthInStrides(step: Time -> Time, start: Time, stride: int, n: nat)
    requires forall at :: step(at) == at + stride
    ensures Nth(step, start, n) == start + n * stride
  {
    if n > 0 {
      NthInStrides(step, start, stride, n - 1);
      assert n * stride == (n - 1) * stride + stride;
    }
  }

  lemma DueInStrides(step: Time -> Time, start: Time, now: Time, stride: int)
    requires Forward(step) && forall at :: step(at) == at + stride
    ensures var m := Due(step, start, now);
      && FirstAfter(step, start, now) == start + m * stride
      && now - start < m * stride
      && (m > 0 ==> (m - 1) * stride <= now - start)
      && (m == 0 <==> start > now)
  {
    var m := Due(step, start, now);
    FirstAfterIsNth(step, start, now);
    NthInStrides(step, start, stride, m);
    if m > 0 {
      NthInStrides(step, start, stride, m - 1);
    }
  }
}
