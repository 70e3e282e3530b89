/** Splitting a message for a channel's length limit, preferring line ends. */
module TextSplit {
  /** The last newline of `s` before `limit`, or -1. */
  method LastNewline(s: string, limit: nat) returns (cut: int)
    requires limit <= |s|
    ensures -1 <= cut < limit
    ensures cut >= 0 ==> s[cut] == '\n'
    ensures forall i :: cut < i < limit ==> s[i] != '\n'
  {
    cut := limit - 1;
    while cut >= 0 && s[cut] != '\n'
      invariant -1 <= cut < limit
      invariant forall i :: cut < i < limit ==> s[i] != '\n'
    {
      cut := cut - 1;
    }
  }

  /** The text after its leading newlines. */
  function Stripped(s: string): string {
    if s != [] && s[0] == '\n' then Stripped(s[1..]) else s
  }

  /** The characters of `s` that are not newlines, in order. */
  function Letters(s: string): string {
    if s == [] then [] else (if s[0] == '\n' then [] else [s[0]]) + Letters(s[1..])
  }

  function Joined(chunks: seq<string>): string {
    if chunks == [] then [] else chunks[0] + Joined(chunks[1..])
  }

  lemma {:induction false} LettersConcat(a: string, b: string)
    ensures Letters(a + b) == Letters(a) + Letters(b)
    decreases |a|
  {
    if a == [] {
      assert a + b == b;
    } else {
      LettersConcat(a[1..], b);
      assert (a + b)[0] == a[0] && (a + b)[1..] == a[1..] + b;
    }
  }

  /** Stripping removes only newlines, all the leading ones. */
  lemma {:induction false} StrippedKeepsLetters(s: string)
    ensures Letters(Stripped(s)) == Letters(s) && |Stripped(s)| <= |s|
    ensures Stripped(s) != [] ==> Stripped(s)[0] != '\n'
    decreases |s|
  {
    if s != [] && s[0] == '\n' {
      StrippedKeepsLetters(s[1..]);
    }
  }

  predicate NewlineWithin(s: string, low: int, high: nat) {
    exists i :: 0 <= i < |s| && low <= i < high && s[i] == '\n'
  }

  /** Where a text may be cut: at its end if it fits, at the last line end in reach, or, when
      there is none after the first character, at the limit itself. */
  predicate GoodCut(text: string, cut: nat, limit: nat) {
    if |text| <= limit then cut == |text| > 0
    else if NewlineWithin(text, 1, limit) then
      0 < cut < limit && text[cut] == '\n' && !NewlineWithin(text, cut + 1, limit)
    else cut == limit
  }

  /** `chunks` are cut one after another off the front of `text`, each followed by dropping
      newlines, until `rest` is left. */
  ghost predicate CutOff(text: string, chunks: seq<string>, rest: string, limit: nat)
    decreases |chunks|
  {
    if chunks == [] then text == rest else
    && |chunks[0]| <= |text| && chunks[0] == text[..|chunks[0]|]
    && GoodCut(text, |chunks[0]|, limit)
    && CutOff(Stripped(text[|chunks[0]|..]), chunks[1..], rest, limit)
  }

  lemma {:induction false} CutOffMore(text: string, chunks: seq<string>, rest: string, cut: nat, limit: nat)
    requires CutOff(text, chunks, rest, limit) && cut <= |rest| && GoodCut(rest, cut, limit)
    ensures CutOff(text, chunks + [rest[..cut]], Stripped(rest[cut..]), limit)
    decreases |chunks|
  {
    var c := rest[..cut];
    if chunks == [] {
      assert ([] + [c])[1..] == [] && ([] + [c])[0] == c && |c| == cut;
    } else {
      CutOffMore(Stripped(text[|chunks[0]|..]), chunks[1..], rest, cut, limit);
      assert (chunks + [c])[1..] == chunks[1..] + [c] && (chunks + [c])[0] == chunks[0];
    }
  }

  /** Such chunks are non-empty and within the limit, and lose nothing but newlines. */
  lemma {:induction false} NothingLost(text: string, chunks: seq<string>, limit: nat)
    requires limit >= 1 && CutOff(text, chunks, "", limit)
    ensures forall k :: 0 <= k < |chunks| ==> 0 < |chunks[k]| <= limit
    ensures Letters(Joined(chunks)) == Letters(text)
    ensures text == [] <==> chunks == []
    decreases |chunks|
  {
    if chunks != [] {
      var tail := text[|chunks[0]|..];
      NothingLost(Stripped(tail), chunks[1..], limit);
      StrippedKeepsLetters(tail);
      LettersConcat(chunks[0], tail);
      assert text == chunks[0] + tail;
      LettersConcat(chunks[0], Joined(chunks[1..]));
    }
  }

  /** A text has only one such division: the chunks are determined by text and limit. */
  lemma {:induction false} OneDivision(text: string, a: seq<string>, b: seq<string>, limit: nat)
    requires limit >= 1 && CutOff(text, a, "", limit) && CutOff(text, b, "", limit)
    ensures a == b
    decreases |a|
  {
    NothingLost(text, a, limit);
    NothingLost(text, b, limit);
    if a != [] {
      var m, n := |a[0]|, |b[0]|;
      OneDivision(Stripped(text[m..]), a[1..], b[1..], limit);
      assert a == [a[0]] + a[1..] && b == [b[0]] + b[1..];
    }
  }

  /** Where the loop cuts a text that is too long. */
  method ChooseCut(text: string, limit: nat) returns (cut: nat)
    requires 1 <= limit < |text|
    ensures cut <= |text| && GoodCut(text, cut, limit)
  {
    var found := LastNewline(text, limit);
    if found <= 0 {
      assert !NewlineWithin(text, 1, limit);
      return limit;
    }
    assert NewlineWithin(text, 1, limit) && !NewlineWithin(text, found + 1, limit);
    return found;
  }

  /** Every chunk is non-empty and within the limit, no character but newlines is lost or moved,
      and each cut is at the last line end in reach if there is one. */
  method SplitForLimit(text: string, limit: nat) returns (chunks: seq<string>)
    requires limit >= 1
    ensures CutOff(text, chunks, "", limit)
    ensures forall k :: 0 <= k < |chunks| ==> 0 < |chunks[k]| <= limit
    ensures Letters(Joined(chunks)) == Letters(text)
  {
    chunks := [];
    var remaining := text;
    while |remaining| > limit
      invariant CutOff(text, chunks, remaining, limit)
      decreases |remaining|
    {
      var cut := ChooseCut(remaining, limit);
      CutOffMore(text, chunks, remaining, cut, limit);
      StrippedKeepsLetters(remaining[cut..]);
      chunks := chunks + [remaining[..cut]];
      remaining := Stripped(remaining[cut..]);
    }
    if remaining != [] {
      CutOffMore(text, chunks, remaining, |remaining|, limit);
      assert remaining[..|remaining|] == remaining && remaining[|remaining|..] == "";
      chunks := chunks + [remaining];
    }
    NothingLost(text, chunks, limit);
  }
}
