/** Occurrences of a pattern in a string, and splitting a string at a separator the way
    Python's str.split does: left to right, occurrences not overlapping. */
module Splitting {

  predicate At(s: string, part: string, i: nat) {
    i + |part| <= |s| && s[i..i + |part|] == part
  }

  ghost predicate Contains(s: string, part: string) {
    exists i: nat :: At(s, part, i)
  }

  /** No proper, nonempty suffix of the pattern is also one of its prefixes, so that two
      occurrences never overlap. */
  ghost predicate Borderless(pattern: string) {
    forall k :: 0 < k < |pattern| ==> pattern[k..] != pattern[..|pattern| - k]
  }

  function FirstAt(s: string, part: string, from: nat): (r: int)
    requires from <= |s|
    ensures r < 0 ==> forall i: nat :: from <= i ==> !At(s, part, i)
    ensures 0 <= r ==> from <= r && At(s, part, r) && forall i: nat :: from <= i < r ==> !At(s, part, i)
    decreases |s| - from
  {
    if At(s, part, from) then from
    else if from == |s| then -1
    else FirstAt(s, part, from + 1)
  }

  function Split(s: string, sep: string): (pieces: seq<string>)
    requires sep != ""
    ensures pieces != []
    decreases |s|
  {
    var i := FirstAt(s, sep, 0);
    if i < 0 then [s] else [s[..i]] + Split(s[i + |sep|..], sep)
  }

  function Join(pieces: seq<string>, sep: string): string
    requires pieces != []
  {
    if |pieces| == 1 then pieces[0] else pieces[0] + sep + Join(pieces[1..], sep)
  }

  ghost predicate NoneContains(pieces: seq<string>, sep: string) {
    forall k :: 0 <= k < |pieces| ==> !Contains(pieces[k], sep)
  }

  lemma NotBefore(s: string, part: string, i: nat)
    requires part != "" && i <= |s| && forall j: nat :: j < i ==> !At(s, part, j)
    ensures !Contains(s[..i], part)
  {
    forall j: nat ensures !At(s[..i], part, j) {
      if j + |part| <= i {
        assert !At(s, part, j) && s[..i][j..j + |part|] == s[j..j + |part|];
      }
    }
  }

  lemma {:induction false} JoinSplit(s: string, sep: string)
    requires sep != ""
    ensures Join(Split(s, sep), sep) == s
    ensures NoneContains(Split(s, sep), sep)
    decreases |s|
  {
    var i := FirstAt(s, sep, 0);
    if i >= 0 {
      var rest := s[i + |sep|..];
      JoinSplit(rest, sep);
      assert s == s[..i] + sep + rest;
      assert Split(s, sep)[1..] == Split(rest, sep);
      NotBefore(s, sep, i);
    }
  }

  /** Two overlapping occurrences make a border. */
  lemma OverlapIsBorder(s: string, pattern: string, i: nat, j: nat)
    requires At(s, pattern, i) && At(s, pattern, j) && i < j < i + |pattern|
    ensures pattern[j - i..] == pattern[..|pattern| - (j - i)]
  {
    var n := |pattern|;
    assert pattern[j - i..] == s[i..i + n][j - i..] == s[j..i + n];
    assert pattern[..n - (j - i)] == s[j..j + n][..n - (j - i)] == s[j..i + n];
  }

  lemma OccurrenceInPrefix(p: string, rest: string, pattern: string, i: nat)
    requires At(p + rest, pattern, i) && i + |pattern| <= |p|
    ensures Contains(p, pattern)
  {
    assert At(p, pattern, i) by { assert p[i..i + |pattern|] == (p + rest)[i..i + |pattern|]; }
  }

  lemma OccurrenceInSuffix(p: string, rest: string, pattern: string, i: nat)
    requires At(p + rest, pattern, i) && |p| <= i
    ensures At(rest, pattern, i - |p|)
  {
    assert rest[i - |p|..i - |p| + |pattern|] == (p + rest)[i..i + |pattern|];
  }

  /** Where the separator can occur in p + sep + rest: where it was put, or later. */
  lemma SeparatorStands(p: string, sep: string, rest: string, i: nat)
    requires Borderless(sep) && sep != "" && !Contains(p, sep)
    requires At(p + sep + rest, sep, i)
    ensures i == |p| || (|p| + |sep| <= i && At(rest, sep, i - |p| - |sep|))
  {
    var s := p + sep + rest;
    assert s == p + (sep + rest) && At(s, sep, |p|);
    if i + |sep| <= |p| {
      OccurrenceInPrefix(p, sep + rest, sep, i);
    } else if i < |p| {
      OverlapIsBorder(s, sep, i, |p|);
    } else if |p| < i < |p| + |sep| {
      OverlapIsBorder(s, sep, |p|, i);
    } else if i > |p| {
      OccurrenceInSuffix(p + sep, rest, sep, i);
    }
  }

  /** Splitting undoes joining when no piece holds a borderless separator. */
  lemma {:induction false} SplitJoin(pieces: seq<string>, sep: string)
    requires pieces != [] && Borderless(sep) && sep != "" && NoneContains(pieces, sep)
    ensures Split(Join(pieces, sep), sep) == pieces
  {
    var s, p := Join(pieces, sep), pieces[0];
    var i := FirstAt(s, sep, 0);
    assert !Contains(p, sep);
    if |pieces| > 1 {
      var rest := Join(pieces[1..], sep);
      assert At(s, sep, |p|) by { assert s[|p|..|p| + |sep|] == sep; }
      SeparatorStands(p, sep, rest, i);
      assert i == |p| && s[..i] == p && s[i + |sep|..] == rest;
      SplitJoin(pieces[1..], sep);
      assert pieces == [p] + pieces[1..];
    }
  }

  /** Every occurrence of a borderless separator in a joined text stands before a piece. */
  lemma {:induction false} OccurrenceStartsPiece(pieces: seq<string>, sep: string, i: nat) returns (k: nat)
    requires pieces != [] && Borderless(sep) && sep != "" && NoneContains(pieces, sep)
    requires At(Join(pieces, sep), sep, i)
    ensures 0 < k < |pieces| && Join(pieces, sep)[i + |sep|..] == Join(pieces[k..], sep)
  {
    assert !Contains(pieces[0], sep);
    k := 1;
    if |pieces| > 1 {
      var tail := pieces[1..];
      var rest := Join(tail, sep);
      var s := pieces[0] + sep + rest;
      assert s == Join(pieces, sep);
      SeparatorStands(pieces[0], sep, rest, i);
      var start := |pieces[0]| + |sep|;
      if i == |pieces[0]| {
        assert s[i + |sep|..] == rest;
      } else {
        var l := OccurrenceStartsPiece(tail, sep, i - start);
        k := l + 1;
        assert s[i + |sep|..] == rest[i - start + |sep|..] && pieces[k..] == tail[l..];
      }
    }
  }

  /** Pieces written one after the other, each behind the separator. */
  function Spread(pieces: seq<string>, sep: string): string {
    if pieces == [] then "" else sep + pieces[0] + Spread(pieces[1..], sep)
  }

  lemma {:induction false} SpreadIsJoined(lead: string, pieces: seq<string>, sep: string)
    ensures lead + Spread(pieces, sep) == Join([lead] + pieces, sep)
    decreases |pieces|
  {
    if pieces != [] {
      SpreadIsJoined(pieces[0], pieces[1..], sep);
      assert ([lead] + pieces)[1..] == [pieces[0]] + pieces[1..];
      assert lead + Spread(pieces, sep) == lead + sep + (pieces[0] + Spread(pieces[1..], sep));
    }
  }

  /** What is written behind a lead splits into the lead and the pieces. */
  lemma SpreadSplits(lead: string, pieces: seq<string>, sep: string)
    requires Borderless(sep) && sep != "" && !Contains(lead, sep) && NoneContains(pieces, sep)
    ensures Split(lead + Spread(pieces, sep), sep) == [lead] + pieces
  {
    SpreadIsJoined(lead, pieces, sep);
    assert forall k | 0 < k <= |pieces| :: ([lead] + pieces)[k] == pieces[k - 1];
    SplitJoin([lead] + pieces, sep);
  }

  /** A pattern whose first character does not come again in it is borderless. */
  lemma UniqueHeadIsBorderless(pattern: string)
    requires pattern != "" && forall k :: 0 < k < |pattern| ==> pattern[k] != pattern[0]
    ensures Borderless(pattern)
  {
    forall k | 0 < k < |pattern| ensures pattern[k..] != pattern[..|pattern| - k] {
      assert pattern[k..][0] != pattern[..|pattern| - k][0];
    }
  }
}
