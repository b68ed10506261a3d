/**
  Ordinal (char-by-char) string search and replacement as .NET performs it in
  `string.Contains(string)` and `string.Replace(string, string)`: the search
  runs left to right, matches do not overlap, and the text a replacement
  inserts is never searched again.

  `Replace` is the scanning definition; `Split`/`Join` give an independent
  reference (cut the text at every first-found occurrence, glue the pieces
  back with the replacement), and `ReplaceIsJoinOfSplit` proves the two agree.
*/
module OrdinalText {

  /** `pat` occurs in `s` starting at index `i`. */
  predicate OccursAt(s: string, pat: string, i: nat) {
    i + |pat| <= |s| && s[i..i + |pat|] == pat
  }

  /** Ordinal `s.Contains(pat)`; the empty string occurs in every string. */
  predicate Contains(s: string, pat: string) {
    exists i :: 0 <= i <= |s| - |pat| && OccursAt(s, pat, i)
  }

  /** First index at or after `from` where `pat` occurs in `s`, or -1. */
  function IndexOfFrom(s: string, pat: string, from: nat): (r: int)
    ensures r == -1 || (from <= r && OccursAt(s, pat, r))
    ensures r == -1 ==> forall j :: from <= j <= |s| - |pat| ==> !OccursAt(s, pat, j)
    ensures r >= 0 ==> forall j :: from <= j < r ==> !OccursAt(s, pat, j)
    decreases |s| + 1 - from
  {
    if from + |pat| > |s| then -1
    else if OccursAt(s, pat, from) then from
    else IndexOfFrom(s, pat, from + 1)
  }

  /** Ordinal `s.IndexOf(pat)`: the first occurrence, or -1 when there is none. */
  function IndexOf(s: string, pat: string): (r: int)
    ensures r == -1 <==> !Contains(s, pat)
    ensures r >= 0 ==> OccursAt(s, pat, r) && forall j :: 0 <= j < r ==> !OccursAt(s, pat, j)
  {
    IndexOfFrom(s, pat, 0)
  }

  /**
    Ordinal `s.Replace(pat, rep)`: scan from the left; where `pat` starts,
    emit `rep` and continue after the match, otherwise copy one character.
    .NET rejects an empty search string, hence the precondition.
  */
  function Replace(s: string, pat: string, rep: string): string
    requires pat != []
    decreases |s|
  {
    if |s| < |pat| then s
    else if s[..|pat|] == pat then rep + Replace(s[|pat|..], pat, rep)
    else [s[0]] + Replace(s[1..], pat, rep)
  }

  /** The pieces of `s` between successive leftmost non-overlapping occurrences of `pat`. */
  function Split(s: string, pat: string): (parts: seq<string>)
    requires pat != []
    ensures |parts| >= 1
    decreases |s|
  {
    var i := IndexOf(s, pat);
    if i < 0 then [s] else [s[..i]] + Split(s[i + |pat|..], pat)
  }

  /** The pieces glued together with `sep` between neighbours. */
  function Join(parts: seq<string>, sep: string): string {
    if parts == [] then ""
    else if |parts| == 1 then parts[0]
    else parts[0] + sep + Join(parts[1..], sep)
  }

  /** Gluing a first piece onto a non-empty rest puts one separator between them. */
  lemma JoinCons(p: string, ps: seq<string>, sep: string)
    requires ps != []
    ensures Join([p] + ps, sep) == p + sep + Join(ps, sep)
  {
    assert ([p] + ps)[1..] == ps;
  }

  /** Cutting at every occurrence and gluing back with the pattern gives the text back. */
  lemma {:induction false} SplitJoinRoundTrip(s: string, pat: string)
    requires pat != []
    ensures Join(Split(s, pat), pat) == s
    decreases |s|
  {
    var i := IndexOf(s, pat);
    if i >= 0 {
      var head, tail := s[..i], s[i + |pat|..];
      SplitJoinRoundTrip(tail, pat);
      JoinCons(head, Split(tail, pat), pat);
      assert s == head + s[i..i + |pat|] + tail;
    }
  }

  /** No piece of a split contains the pattern: every occurrence was cut out. */
  lemma {:induction false} SplitPartsAvoidPattern(s: string, pat: string)
    requires pat != []
    ensures forall k :: 0 <= k < |Split(s, pat)| ==> !Contains(Split(s, pat)[k], pat)
    decreases |s|
  {
    var i := IndexOf(s, pat);
    if i >= 0 {
      var head := s[..i];
      forall j | 0 <= j <= |head| - |pat| ensures !OccursAt(head, pat, j) {
        assert head[j..j + |pat|] == s[j..j + |pat|];
        assert !OccursAt(s, pat, j);
      }
      SplitPartsAvoidPattern(s[i + |pat|..], pat);
      var parts := Split(s, pat);
      assert parts == [head] + Split(s[i + |pat|..], pat);
    }
  }

  /** When the text does not start with the pattern, its first occurrence is one past the tail's. */
  lemma IndexOfAfterFirst(s: string, pat: string)
    requires pat != [] && |s| >= |pat| && s[..|pat|] != pat
    ensures IndexOf(s, pat) == (if IndexOf(s[1..], pat) < 0 then -1 else IndexOf(s[1..], pat) + 1)
  {
    var t := s[1..];
    forall j: nat | j + |pat| <= |t|
      ensures OccursAt(t, pat, j) <==> OccursAt(s, pat, j + 1)
    {
      assert t[j..j + |pat|] == s[j + 1..j + 1 + |pat|];
    }
    assert !OccursAt(s, pat, 0);
    var i, k := IndexOf(s, pat), IndexOf(t, pat);
    if i >= 0 {
      assert OccursAt(t, pat, i - 1);
    }
    if k >= 0 {
      assert OccursAt(s, pat, k + 1);
    }
  }

  /** The first `k + 1` characters are the first one, then the tail's first `k`. */
  lemma HeadThenPrefix(s: string, k: nat)
    requires k < |s|
    ensures s[..k + 1] == [s[0]] + s[1..][..k]
  {
  }

  /** Where the text does not start with the pattern, its first piece is the tail's first piece behind the first character. */
  lemma SplitAfterFirst(s: string, pat: string)
    requires pat != [] && |s| >= |pat| && s[..|pat|] != pat
    ensures var ps := Split(s[1..], pat);
      Split(s, pat) == [[s[0]] + ps[0]] + ps[1..]
  {
    IndexOfAfterFirst(s, pat);
    if IndexOf(s[1..], pat) >= 0 {
      SplitAfterFirstFound(s, pat);
    } else {
      assert [s[0]] + s[1..] == s;
    }
  }

  /** `SplitAfterFirst` when the tail contains the pattern. */
  lemma SplitAfterFirstFound(s: string, pat: string)
    requires pat != [] && |s| >= 1
    requires IndexOf(s[1..], pat) >= 0 && IndexOf(s, pat) == IndexOf(s[1..], pat) + 1
    ensures var ps := Split(s[1..], pat);
      Split(s, pat) == [[s[0]] + ps[0]] + ps[1..]
  {
    var t := s[1..];
    var k := IndexOf(t, pat);
    var tail := s[k + 1 + |pat|..];
    assert t[k + |pat|..] == tail;
    var rest := Split(tail, pat);
    var ps := Split(t, pat);
    assert ps == [t[..k]] + rest;
    HeadThenPrefix(s, k);
  }

  /** Prepending a character to the first piece prepends it to the joined text. */
  lemma JoinPrepend(c: char, ps: seq<string>, sep: string)
    requires ps != []
    ensures Join([[c] + ps[0]] + ps[1..], sep) == [c] + Join(ps, sep)
  {
    if |ps| > 1 {
      JoinCons([c] + ps[0], ps[1..], sep);
      JoinCons(ps[0], ps[1..], sep);
      assert [ps[0]] + ps[1..] == ps;
    }
  }

  /** The scanning `Replace` is the split/join reference with the replacement as glue. */
  lemma {:induction false} ReplaceIsJoinOfSplit(s: string, pat: string, rep: string)
    requires pat != []
    ensures Replace(s, pat, rep) == Join(Split(s, pat), rep)
    decreases |s|
  {
    if |s| < |pat| {
      assert IndexOf(s, pat) == -1;
    } else if s[..|pat|] == pat {
      assert OccursAt(s, pat, 0);
      ReplaceIsJoinOfSplit(s[|pat|..], pat, rep);
      JoinCons("", Split(s[|pat|..], pat), rep);
    } else {
      ReplaceIsJoinOfSplit(s[1..], pat, rep);
      SplitAfterFirst(s, pat);
      JoinPrepend(s[0], Split(s[1..], pat), rep);
    }
  }

  /** A text without the pattern comes back from `Replace` unchanged. */
  lemma {:induction false} ReplaceWithoutMatch(s: string, pat: string, rep: string)
    requires pat != [] && !Contains(s, pat)
    ensures Replace(s, pat, rep) == s
  {
    ReplaceIsJoinOfSplit(s, pat, rep);
    assert Split(s, pat) == [s];
  }

  /** Replacing a pattern by itself changes nothing, wherever it occurs. */
  lemma {:induction false} ReplaceBySelf(s: string, pat: string)
    requires pat != []
    ensures Replace(s, pat, pat) == s
  {
    ReplaceIsJoinOfSplit(s, pat, pat);
    SplitJoinRoundTrip(s, pat);
  }

  /**
    For a one-character separator, splitting undoes joining pieces that do
    not contain it (with longer separators overlaps can move the cuts).
  */
  lemma {:induction false} SplitOfJoin(parts: seq<string>, sep: string)
    requires |sep| == 1 && |parts| >= 1
    requires forall k :: 0 <= k < |parts| ==> !Contains(parts[k], sep)
    ensures Split(Join(parts, sep), sep) == parts
    decreases |parts|
  {
    if |parts| == 1 {
      assert IndexOf(parts[0], sep) == -1;
    } else {
      var p0, rest := parts[0], Join(parts[1..], sep);
      var s := p0 + sep + rest;
      assert Join(parts, sep) == s;
      assert s[|p0|..|p0| + 1] == sep;
      assert OccursAt(s, sep, |p0|);
      forall j | 0 <= j < |p0| ensures !OccursAt(s, sep, j) {
        assert !OccursAt(p0, sep, j);
        assert s[j..j + 1] == p0[j..j + 1];
      }
      assert IndexOf(s, sep) == |p0|;
      assert s[..|p0|] == p0;
      assert s[|p0| + 1..] == rest;
      SplitOfJoin(parts[1..], sep);
    }
  }
}
