/** Brace normalisation of \frac arguments (_fix_fracs of
    benchmark/reasoning_benchmark/answer_extraction.py). */
module FracBraces {
  import opened Splitting

  const FRAC := "\\frac"

  predicate OpensBrace(piece: string) {
    piece != "" && piece[0] == '{'
  }

  /** The piece after a \frac is too short to hold two arguments. */
  predicate TooShort(piece: string) {
    !OpensBrace(piece) && |piece| < 2
  }

  predicate PiecesBraced(pieces: seq<string>) {
    forall k :: 0 < k < |pieces| ==> OpensBrace(pieces[k])
  }

  predicate PiecesLongEnough(pieces: seq<string>) {
    forall k :: 0 < k < |pieces| ==> !TooShort(pieces[k])
  }

  function FixPiece(piece: string): string
    requires !TooShort(piece)
  {
    if OpensBrace(piece) then piece
    else if piece[1] != '{' then "{" + piece[..1] + "}{" + piece[1..2] + "}" + piece[2..]
    else "{" + piece[..1] + "}" + piece[1..]
  }

  /** The giving-up branch of the code. */
  predicate GivesUp(s: string) {
    !PiecesLongEnough(Split(s, FRAC))
  }

  /** Pieces with everything after the first one fixed. */
  function FixedPieces(pieces: seq<string>): (fixed: seq<string>)
    requires pieces != [] && PiecesLongEnough(pieces)
    ensures |fixed| == |pieces| && fixed[0] == pieces[0]
    ensures forall k :: 0 < k < |pieces| ==> fixed[k] == FixPiece(pieces[k])
  {
    if |pieces| == 1 then pieces
    else FixedPieces(pieces[..|pieces| - 1]) + [FixPiece(pieces[|pieces| - 1])]
  }

  function Fixed(s: string): string {
    if GivesUp(s) then s else Join(FixedPieces(Split(s, FRAC)), FRAC)
  }

  method FixFracs(s: string) returns (r: string)
    ensures r == Fixed(s)
    ensures WithoutBraces(r) == WithoutBraces(s)
    ensures AllBraced(r) <==> !Stuck(s)
    ensures !AllBraced(s) ==> (r == s <==> Stuck(s))
  {
    FixedPoints(s);
    GivesUpExactly(s);
    hide Stuck;
    hide Split, Join, FixPiece, FixedPieces, AllBraced, WithoutBraces;
    FixedKeepsText(s);
    FixedIsBraced(s);
    var substrs := Split(s, FRAC);
    var newStr := substrs[0];
    FixedStarts(substrs);
    if |substrs| > 1 {
      for k := 1 to |substrs|
        invariant PiecesLongEnough(substrs[..k])
        invariant newStr == Join(FixedPieces(substrs[..k]), FRAC)
      {
        var substr := substrs[k];
        ghost var before := newStr;
        newStr := newStr + "\\frac";
        if |substr| > 0 && substr[0] == '{' {
          newStr := newStr + substr;
        } else {
          if |substr| < 2 {
            return s;
          }
          var a, b := substr[0], substr[1];
          if b != '{' {
            if |substr| > 2 {
              newStr := newStr + ("{" + [a] + "}{" + [b] + "}" + substr[2..]);
            } else {
              newStr := newStr + ("{" + [a] + "}{" + [b] + "}");
            }
          } else {
            if |substr| > 2 {
              newStr := newStr + ("{" + [a] + "}" + [b] + substr[2..]);
            } else {
              newStr := newStr + ("{" + [a] + "}" + [b]);
            }
          }
        }
        PieceForms(substr);
        assert newStr == before + FRAC + FixPiece(substr);
        FixedGrows(substrs, k);
      }
      assert substrs[..|substrs|] == substrs;
    }
    r := newStr;
  }

  /** The two ways the code writes a piece that needs braces, each with and without a rest. */
  lemma PieceForms(piece: string)
    requires !TooShort(piece)
    ensures OpensBrace(piece) ==> FixPiece(piece) == piece
    ensures !OpensBrace(piece) && piece[1] != '{' ==>
      FixPiece(piece) == "{" + [piece[0]] + "}{" + [piece[1]] + "}" + piece[2..]
    ensures !OpensBrace(piece) && piece[1] == '{' ==>
      FixPiece(piece) == "{" + [piece[0]] + "}" + [piece[1]] + piece[2..]
  {
    if !OpensBrace(piece) {
      assert piece[..1] == [piece[0]] && piece[1..2] == [piece[1]];
      assert piece[1..] == [piece[1]] + piece[2..];
    }
  }

  lemma FixedStarts(pieces: seq<string>)
    requires pieces != []
    ensures PiecesLongEnough(pieces[..1])
    ensures Join(FixedPieces(pieces[..1]), FRAC) == pieces[0]
    ensures |pieces| == 1 ==> pieces[..1] == pieces
  {
  }

  lemma FixedGrows(pieces: seq<string>, k: nat)
    requires 0 < k < |pieces| && PiecesLongEnough(pieces[..k]) && !TooShort(pieces[k])
    ensures PiecesLongEnough(pieces[..k + 1])
    ensures Join(FixedPieces(pieces[..k + 1]), FRAC)
      == Join(FixedPieces(pieces[..k]), FRAC) + FRAC + FixPiece(pieces[k])
  {
    hide Join, FixPiece;
    var longer := pieces[..k + 1];
    assert longer[..k] == pieces[..k] && longer[k] == pieces[k];
    assert FixedPieces(longer) == FixedPieces(pieces[..k]) + [FixPiece(pieces[k])];
    JoinAppends(FixedPieces(pieces[..k]), FixPiece(pieces[k]), FRAC);
  }

  lemma FracIsBorderless()
    ensures Borderless(FRAC)
  {
    UniqueHeadIsBorderless(FRAC);
  }

  lemma SuffixHoldsNone(s: string, part: string, k: nat)
    requires k <= |s| && !Contains(s, part)
    ensures !Contains(s[k..], part)
  {
    forall i: nat ensures !At(s[k..], part, i) {
      if i + |part| <= |s| - k {
        assert !At(s, part, k + i) && s[k..][i..i + |part|] == s[k + i..k + i + |part|];
      }
    }
  }

  /** An argument in braces cannot be part of a \frac, nor can a \frac reach across it. */
  lemma BracesKeepApart(c: char, rest: string)
    requires !Contains(rest, FRAC)
    ensures !Contains("{" + [c] + "}" + rest, FRAC)
  {
    var s := "{" + [c] + "}" + rest;
    assert s[2] == '}' && s[3..] == rest;
    forall i: nat ensures !At(s, FRAC, i) {
      if i + 5 <= |s| {
        if i <= 2 {
          assert s[i..i + 5][2 - i] == '}';
        } else {
          assert !At(rest, FRAC, i - 3) && s[i..i + 5] == rest[i - 3..i + 2];
        }
      }
    }
  }

  /** Giving the arguments their braces creates no new \frac. */
  lemma FixPieceMakesNoFrac(piece: string)
    requires !TooShort(piece) && !Contains(piece, FRAC)
    ensures !Contains(FixPiece(piece), FRAC) && OpensBrace(FixPiece(piece))
  {
    hide FixPiece, Contains;
    PieceForms(piece);
    if !OpensBrace(piece) {
      var a, b, rest := piece[0], piece[1], piece[2..];
      if b != '{' {
        SuffixHoldsNone(piece, FRAC, 2);
        BracesKeepApart(b, rest);
        BracesKeepApart(a, "{" + [b] + "}" + rest);
        assert FixPiece(piece) == "{" + [a] + "}" + ("{" + [b] + "}" + rest);
      } else {
        SuffixHoldsNone(piece, FRAC, 1);
        BracesKeepApart(a, piece[1..]);
        assert FixPiece(piece) == "{" + [a] + "}" + piece[1..];
      }
    }
  }

  lemma FixedPiecesAreBraced(pieces: seq<string>)
    requires pieces != [] && PiecesLongEnough(pieces)
    requires NoneContains(pieces, FRAC)
    ensures NoneContains(FixedPieces(pieces), FRAC) && PiecesBraced(FixedPieces(pieces))
  {
    var fixed := FixedPieces(pieces);
    forall k | 0 <= k < |fixed| ensures !Contains(fixed[k], FRAC) && (k > 0 ==> OpensBrace(fixed[k])) {
      assert !Contains(pieces[k], FRAC);
      if k > 0 {
        FixPieceMakesNoFrac(pieces[k]);
      }
    }
  }

  /** The output splits where the input did. */
  lemma FixedSplits(s: string)
    requires !GivesUp(s)
    ensures Split(Fixed(s), FRAC) == FixedPieces(Split(s, FRAC))
    ensures PiecesBraced(Split(Fixed(s), FRAC))
  {
    var pieces := Split(s, FRAC);
    JoinSplit(s, FRAC);
    FixedPiecesAreBraced(pieces);
    FracIsBorderless();
    SplitJoin(FixedPieces(pieces), FRAC);
  }

  lemma BracedPiecesStay(pieces: seq<string>)
    requires pieces != [] && PiecesBraced(pieces)
    ensures FixedPieces(pieces) == pieces
  {
    var fixed := FixedPieces(pieces);
    assert forall k :: 0 <= k < |pieces| ==> fixed[k] == pieces[k];
  }

  lemma FixedIsIdempotent(s: string)
    ensures Fixed(Fixed(s)) == Fixed(s)
  {
    if !GivesUp(s) {
      FixedSplits(s);
      BracedPiecesStay(Split(Fixed(s), FRAC));
    }
  }

  /** Every \frac is followed by an opening brace. */
  ghost predicate AllBraced(s: string) {
    forall i: nat :: At(s, FRAC, i) ==> i + |FRAC| < |s| && s[i + |FRAC|] == '{'
  }

  lemma {:induction false} PieceStartsAfterFrac(pieces: seq<string>, k: nat) returns (i: nat)
    requires 0 < k < |pieces|
    ensures At(Join(pieces, FRAC), FRAC, i)
    ensures Join(pieces, FRAC)[i + |FRAC|..] == Join(pieces[k..], FRAC)
  {
    var rest := Join(pieces[1..], FRAC);
    var s := Join(pieces, FRAC);
    var n := |pieces[0]| + |FRAC|;
    assert s[n..] == rest;
    if k == 1 {
      i := |pieces[0]|;
      assert s[i..i + |FRAC|] == FRAC;
    } else {
      var j := PieceStartsAfterFrac(pieces[1..], k - 1);
      i := n + j;
      assert pieces[1..][k - 1..] == pieces[k..];
      assert s[i..i + |FRAC|] == rest[j..j + |FRAC|];
      assert s[i + |FRAC|..] == rest[j + |FRAC|..];
    }
  }

  /** A string is in normal form just when each piece after a \frac opens with a brace. */
  lemma AllBracedPieces(s: string)
    ensures AllBraced(s) <==> PiecesBraced(Split(s, FRAC))
  {
    var pieces := Split(s, FRAC);
    JoinSplit(s, FRAC);
    FracIsBorderless();
    if PiecesBraced(pieces) {
      forall i: nat | At(s, FRAC, i) ensures i + |FRAC| < |s| && s[i + |FRAC|] == '{' {
        var k := OccurrenceStartsPiece(pieces, FRAC, i);
        assert pieces[k..][0] == pieces[k];
        assert s[i + |FRAC|..][0] == pieces[k][0];
      }
    }
    if AllBraced(s) {
      forall k | 0 < k < |pieces| ensures OpensBrace(pieces[k]) {
        var i := PieceStartsAfterFrac(pieces, k);
        HeadOfJoin(pieces[k..]);
        assert s[i + |FRAC|..][0] == '{';
      }
    }
  }

  lemma HeadOfJoin(pieces: seq<string>)
    requires pieces != [] && Join(pieces, FRAC) != "" && Join(pieces, FRAC)[0] == '{'
    ensures OpensBrace(pieces[0])
  {
  }

  lemma FixedIsBraced(s: string)
    ensures AllBraced(Fixed(s)) <==> !GivesUp(s)
  {
    if GivesUp(s) {
      AllBracedPieces(s);
    } else {
      FixedSplits(s);
      AllBracedPieces(Fixed(s));
    }
  }

  /** The strings left as they are: those already in normal form, and those given up on. */
  lemma FixedPoints(s: string)
    ensures Fixed(s) == s <==> AllBraced(s) || GivesUp(s)
  {
    if !GivesUp(s) {
      FixedIsBraced(s);
      if AllBraced(s) {
        AllBracedPieces(s);
        BracedPiecesStay(Split(s, FRAC));
        JoinSplit(s, FRAC);
      }
    }
  }

  predicate IsBrace(c: char) {
    c == '{' || c == '}'
  }

  function WithoutBraces(s: string): string {
    if s == "" then ""
    else if IsBrace(s[0]) then WithoutBraces(s[1..])
    else [s[0]] + WithoutBraces(s[1..])
  }

  lemma FirstCharacter(c: char, s: string)
    ensures WithoutBraces([c] + s) == if IsBrace(c) then WithoutBraces(s) else [c] + WithoutBraces(s)
  {
    assert ([c] + s)[1..] == s;
  }

  lemma Associates(a: string, b: string, c: string)
    ensures (a + b) + c == a + (b + c)
  {
  }

  lemma {:induction false} WithoutBracesSplits(s: string, t: string)
    ensures WithoutBraces(s + t) == WithoutBraces(s) + WithoutBraces(t)
  {
    hide WithoutBraces, IsBrace;
    if s == "" {
      assert s + t == t && WithoutBraces("") == "" by { NothingLeft(); }
      assert "" + WithoutBraces(t) == WithoutBraces(t);
    } else {
      var rest := s[1..];
      assert s == [s[0]] + rest;
      Associates([s[0]], rest, t);
      FirstCharacter(s[0], rest);
      FirstCharacter(s[0], rest + t);
      WithoutBracesSplits(rest, t);
      Associates([s[0]], WithoutBraces(rest), WithoutBraces(t));
    }
  }

  lemma NothingLeft()
    ensures WithoutBraces("") == ""
  {
  }

  lemma FixPieceKeepsText(piece: string)
    requires !TooShort(piece)
    ensures WithoutBraces(FixPiece(piece)) == WithoutBraces(piece)
  {
    hide WithoutBraces, FixPiece;
    PieceForms(piece);
    if !OpensBrace(piece) {
      var a, b, rest := piece[0], piece[1], piece[2..];
      assert piece == [a] + ([b] + rest);
      FirstCharacter(a, [b] + rest);
      FirstCharacter(b, rest);
      if b != '{' {
        assert FixPiece(piece) == ['{'] + ([a] + (['}'] + (['{'] + ([b] + (['}'] + rest)))));
        FirstCharacter('}', rest);
        FirstCharacter(b, ['}'] + rest);
        FirstCharacter('{', [b] + (['}'] + rest));
        FirstCharacter('}', ['{'] + ([b] + (['}'] + rest)));
        FirstCharacter(a, ['}'] + (['{'] + ([b] + (['}'] + rest))));
        FirstCharacter('{', [a] + (['}'] + (['{'] + ([b] + (['}'] + rest)))));
      } else {
        assert FixPiece(piece) == ['{'] + ([a] + (['}'] + ([b] + rest)));
        FirstCharacter('}', [b] + rest);
        FirstCharacter(a, ['}'] + ([b] + rest));
        FirstCharacter('{', [a] + (['}'] + ([b] + rest)));
      }
    }
  }

  lemma {:induction false} JoinKeepsText(ps: seq<string>, qs: seq<string>)
    requires |ps| == |qs| > 0
    requires forall k :: 0 <= k < |ps| ==> WithoutBraces(ps[k]) == WithoutBraces(qs[k])
    ensures WithoutBraces(Join(ps, FRAC)) == WithoutBraces(Join(qs, FRAC))
  {
    if |ps| > 1 {
      JoinKeepsText(ps[1..], qs[1..]);
      WithoutBracesSplits(ps[0], FRAC);
      WithoutBracesSplits(qs[0], FRAC);
      WithoutBracesSplits(ps[0] + FRAC, Join(ps[1..], FRAC));
      WithoutBracesSplits(qs[0] + FRAC, Join(qs[1..], FRAC));
    }
  }

  /** Only braces are ever added. */
  lemma FixedKeepsText(s: string)
    ensures WithoutBraces(Fixed(s)) == WithoutBraces(s)
  {
    if !GivesUp(s) {
      var pieces := Split(s, FRAC);
      var fixed := FixedPieces(pieces);
      JoinSplit(s, FRAC);
      forall k | 0 <= k < |pieces| ensures WithoutBraces(fixed[k]) == WithoutBraces(pieces[k]) {
        if k > 0 {
          FixPieceKeepsText(pieces[k]);
        }
      }
      JoinKeepsText(fixed, pieces);
    }
  }

  lemma {:induction false} JoinAppends(pieces: seq<string>, last: string, sep: string)
    requires pieces != []
    ensures Join(pieces + [last], sep) == Join(pieces, sep) + sep + last
  {
    if |pieces| > 1 {
      JoinAppends(pieces[1..], last, sep);
      assert (pieces + [last])[1..] == pieces[1..] + [last];
    }
  }

  // ---- when the code gives up -------------------------------------------------------------------

  /** A \frac without a brace, and fewer than two characters up to the next \frac or the end. */
  ghost predicate StuckAt(s: string, i: nat) {
    && At(s, FRAC, i) && !(i + 5 < |s| && s[i + 5] == '{')
    && (|s| < i + 7 || At(s, FRAC, i + 5) || At(s, FRAC, i + 6))
  }

  ghost predicate Stuck(s: string) {
    exists i: nat :: StuckAt(s, i)
  }

  /** What follows a \frac, when it and the rest of the string are put together from pieces. */
  lemma StuckPiece(s: string, i: nat, p: string, more: bool, rest: string)
    requires At(s, FRAC, i) && !Contains(p, FRAC)
    requires s[i + 5..] == if more then p + FRAC + rest else p
    ensures StuckAt(s, i) <==> TooShort(p)
  {
    var tail := s[i + 5..];
    FracIsBorderless();
    assert |tail| == |s| - i - 5;
    assert i + 5 < |s| ==> s[i + 5] == tail[0];
    assert At(s, FRAC, i + 5) <==> At(tail, FRAC, 0) by { AtShifts(s, FRAC, i + 5, 0); }
    assert At(s, FRAC, i + 6) <==> At(tail, FRAC, 1) by { if i + 6 <= |s| { AtShifts(s, FRAC, i + 5, 1); } }
    if more {
      assert tail[|p|..|p| + 5] == FRAC;
      if At(tail, FRAC, 0) { SeparatorStands(p, FRAC, rest, 0); }
      if At(tail, FRAC, 1) { SeparatorStands(p, FRAC, rest, 1); }
    } else {
      assert !At(p, FRAC, 0) && !At(p, FRAC, 1);
    }
  }

  lemma AtShifts(s: string, part: string, n: nat, i: nat)
    requires n <= |s|
    ensures At(s, part, n + i) <==> At(s[n..], part, i)
  {
    if n + i + |part| <= |s| {
      assert s[n..][i..i + |part|] == s[n + i..n + i + |part|];
    }
  }

  lemma FollowingPiece(pieces: seq<string>, k: nat)
    requires k < |pieces|
    ensures Join(pieces[k..], FRAC)
      == if k + 1 < |pieces| then pieces[k] + FRAC + Join(pieces[k + 1..], FRAC) else pieces[k]
  {
    assert pieces[k..][0] == pieces[k];
    if k + 1 < |pieces| {
      assert pieces[k..][1..] == pieces[k + 1..];
    }
  }

  /** The exact condition for giving up, on the string itself. */
  lemma GivesUpExactly(s: string)
    ensures GivesUp(s) <==> Stuck(s)
  {
    hide TooShort, StuckAt;
    var pieces := Split(s, FRAC);
    JoinSplit(s, FRAC);
    FracIsBorderless();
    if k :| 0 < k < |pieces| && TooShort(pieces[k]) {
      var i := PieceStartsAfterFrac(pieces, k);
      FollowingPiece(pieces, k);
      StuckPiece(s, i, pieces[k], k + 1 < |pieces|, if k + 1 < |pieces| then Join(pieces[k + 1..], FRAC) else "");
    }
    if i: nat :| StuckAt(s, i) {
      StuckIsFrac(s, i);
      var k := OccurrenceStartsPiece(pieces, FRAC, i);
      FollowingPiece(pieces, k);
      StuckPiece(s, i, pieces[k], k + 1 < |pieces|, if k + 1 < |pieces| then Join(pieces[k + 1..], FRAC) else "");
    }
  }

  lemma StuckIsFrac(s: string, i: nat)
    requires StuckAt(s, i)
    ensures At(s, FRAC, i)
  {
  }

  // ---- what every written text becomes ----------------------------------------------------------

  /** What can follow a \frac, by what the code has to do about it. */
  datatype Argument =
    | Braced(text: string)                          // {...
    | Plain(a: char, b: char, rest: string)         // two arguments without braces
    | Half(a: char, rest: string)                   // the first argument without braces: a{...
    | Short(text: string)                           // too little to hold two arguments
  {
    function Text(): string {
      match this
      case Braced(text) => "{" + text
      case Plain(a, b, rest) => [a] + [b] + rest
      case Half(a, rest) => [a] + "{" + rest
      case Short(text) => text
    }

    function Normal(): string {
      match this
      case Braced(text) => "{" + text
      case Plain(a, b, rest) => "{" + [a] + "}{" + [b] + "}" + rest
      case Half(a, rest) => "{" + [a] + "}{" + rest
      case Short(text) => text
    }

    ghost predicate Valid() {
      && !Contains(Text(), FRAC)
      && (Plain? ==> a != '{' && b != '{')
      && (Half? ==> a != '{')
      && (Short? ==> text == "" || (|text| == 1 && text != "{"))
    }
  }

  function Texts(items: seq<Argument>): (texts: seq<string>)
    ensures |texts| == |items| && forall k | 0 <= k < |items| :: texts[k] == items[k].Text()
  {
    seq(|items|, k requires 0 <= k < |items| => items[k].Text())
  }

  function Normals(items: seq<Argument>): (texts: seq<string>)
    ensures |texts| == |items| && forall k | 0 <= k < |items| :: texts[k] == items[k].Normal()
  {
    seq(|items|, k requires 0 <= k < |items| => items[k].Normal())
  }

  lemma ArgumentForms(item: Argument)
    requires item.Valid()
    ensures TooShort(item.Text()) <==> item.Short?
    ensures !item.Short? ==> FixPiece(item.Text()) == item.Normal()
  {
    hide FixPiece, Contains;
    var text := item.Text();
    if !item.Short? {
      PieceForms(text);
    }
    match item
    case Braced(rest) => assert OpensBrace(text);
    case Plain(a, b, rest) => assert text[0] == a && text[1] == b && text[2..] == rest;
    case Half(a, rest) => assert text[0] == a && text[1] == '{' && text[2..] == rest;
    case Short(rest) =>
  }

  /** A text with any number of fractions: all of them get their braces, or, if one of them has too
      little to hold two arguments, none does. */
  lemma WrittenBecomes(lead: string, items: seq<Argument>)
    requires !Contains(lead, FRAC) && forall item <- items :: item.Valid()
    ensures Fixed(lead + Spread(Texts(items), FRAC)) ==
      lead + Spread(if exists item <- items :: item.Short? then Texts(items) else Normals(items), FRAC)
  {
    hide TooShort, FixPiece, Argument.Text, Argument.Normal;
    var s, texts := lead + Spread(Texts(items), FRAC), Texts(items);
    var pieces := [lead] + texts;
    forall k | 0 <= k < |items|
      ensures !Contains(texts[k], FRAC) && (TooShort(texts[k]) <==> items[k].Short?)
      ensures !items[k].Short? ==> FixPiece(texts[k]) == items[k].Normal()
    {
      ArgumentForms(items[k]);
    }
    FracIsBorderless();
    SpreadSplits(lead, texts, FRAC);
    if item :| item in items && item.Short? {
      var k :| 0 <= k < |items| && items[k] == item;
      assert pieces[k + 1] == texts[k];
    } else {
      assert forall k | 0 < k < |pieces| :: pieces[k] == texts[k - 1] && items[k - 1] in items;
      assert FixedPieces(pieces) == [lead] + Normals(items);
      SpreadIsJoined(lead, Normals(items), FRAC);
    }
  }

  /** Every string is such a text. */
  lemma EveryStringIsWritten(s: string) returns (lead: string, items: seq<Argument>)
    ensures s == lead + Spread(Texts(items), FRAC)
    ensures !Contains(lead, FRAC) && forall item <- items :: item.Valid()
  {
    var pieces := Split(s, FRAC);
    JoinSplit(s, FRAC);
    lead := pieces[0];
    items := seq(|pieces| - 1, k requires 0 <= k < |pieces| - 1 => Parsed(pieces[k + 1]));
    forall k | 0 <= k < |items| ensures items[k].Text() == pieces[k + 1] && items[k].Valid() {
      assert !Contains(pieces[k + 1], FRAC);
      ParsedIsValid(pieces[k + 1]);
    }
    assert Texts(items) == pieces[1..] && pieces == [lead] + pieces[1..];
    SpreadIsJoined(lead, Texts(items), FRAC);
  }

  function Parsed(piece: string): Argument {
    if |piece| >= 1 && piece[0] == '{' then Braced(piece[1..])
    else if |piece| < 2 then Short(piece)
    else if piece[1] == '{' then Half(piece[0], piece[2..])
    else Plain(piece[0], piece[1], piece[2..])
  }

  lemma ParsedIsValid(piece: string)
    requires !Contains(piece, FRAC)
    ensures Parsed(piece).Text() == piece && Parsed(piece).Valid()
  {
  }
}
