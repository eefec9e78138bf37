/** Extraction of \boxed answers (extract_boxed_answers of
    benchmark/reasoning_benchmark/answer_extraction.py). */
module BoxedAnswers {
  import opened Splitting
  import opened Wrappers

  const BOXED := "boxed{"

  /** Opening braces minus closing braces. */
  function Depth(s: string): int {
    if s == "" then 0
    else
      var c := s[|s| - 1];
      Depth(s[..|s| - 1]) + (if c == '{' then 1 else if c == '}' then -1 else 0)
  }

  /** No prefix has more closing than opening braces. */
  predicate NeverCloses(s: string) {
    forall i :: 0 <= i <= |s| ==> Depth(s[..i]) >= 0
  }

  predicate Balanced(s: string) {
    NeverCloses(s) && Depth(s) == 0
  }

  /** The brace with which a prefix first has more closing than opening braces. */
  predicate ClosesAt(s: string, i: nat) {
    i < |s| && NeverCloses(s[..i]) && Depth(s[..i + 1]) < 0
  }

  function FirstClose(s: string): (r: Option<nat>)
    ensures r.None? <==> NeverCloses(s)
    ensures r.Some? ==> ClosesAt(s, r.value)
  {
    if s == "" then None else
      var before := s[..|s| - 1];
      assert forall i :: 0 <= i < |s| ==> before[..i] == s[..i];
      assert s[..|s|] == s;
      var r := FirstClose(before);
      if r.None? && Depth(s) < 0 then Some(|s| - 1) else r
  }

  /** The code's treatment of a per cent sign after the closing brace: the brace is kept. */
  function Answer(piece: string): Option<string> {
    match FirstClose(piece)
    case None => None
    case Some(i) =>
      Some(if i + 1 < |piece| && piece[i + 1] == '%' then piece[..i + 1] else piece[..i])
  }

  /** The answers of the pieces, in order; a piece without one is passed over. */
  function Answers(pieces: seq<string>): seq<string> {
    if pieces == [] then [] else
      var last := |pieces| - 1;
      Answers(pieces[..last]) + match Answer(pieces[last]) case None => [] case Some(x) => [x]
  }

  function Extracted(text: string): seq<string> {
    Answers(Split(text, BOXED)[1..])
  }

  method ExtractBoxedAnswers(text: string) returns (answers: seq<string>)
    ensures answers == Extracted(text)
  {
    answers := [];
    var pieces := Split(text, BOXED)[1..];
    for k := 0 to |pieces|
      invariant answers == Answers(pieces[..k])
    {
      hide NeverCloses, Answer, FirstClose;
      var piece := pieces[k];
      var next := pieces[..k + 1];
      assert next[..k] == pieces[..k];
      var n := 0;
      var i := 0;
      NothingCloses(piece);
      while i < |piece|
        invariant 0 <= i <= |piece| && n == Depth(piece[..i]) >= 0 && NeverCloses(piece[..i])
        invariant answers == Answers(pieces[..k])
      {
        assert piece[..i + 1][..i] == piece[..i];
        if piece[i] == '{' {
          n := n + 1;
        } else if piece[i] == '}' {
          n := n - 1;
          if n < 0 {
            if i + 1 < |piece| && piece[i + 1] == '%' {
              answers := answers + [piece[..i + 1]];
            } else {
              answers := answers + [piece[..i]];
            }
            AnswerOfClose(piece, i);
            break;
          }
        }
        StillOpen(piece, i);
        i := i + 1;
      }
      if i == |piece| {
        assert piece[..i] == piece;
        NoAnswer(piece);
      }
    }
    assert pieces[..|pieces|] == pieces;
  }

  lemma NothingCloses(piece: string)
    ensures NeverCloses(piece[..0])
  {
  }

  lemma StillOpen(piece: string, i: nat)
    requires i < |piece| && NeverCloses(piece[..i]) && Depth(piece[..i + 1]) >= 0
    ensures NeverCloses(piece[..i + 1])
  {
    var s := piece[..i + 1];
    forall j | 0 <= j <= |s| ensures Depth(s[..j]) >= 0 {
      assert s[..j] == if j <= i then piece[..i][..j] else s;
    }
  }

  lemma NoAnswer(piece: string)
    ensures Answer(piece).None? <==> NeverCloses(piece)
  {
  }

  lemma ClosedStaysClosed(piece: string, i: nat, j: nat)
    requires ClosesAt(piece, i) && i < j <= |piece|
    ensures !NeverCloses(piece[..j])
  {
    assert piece[..j][..i + 1] == piece[..i + 1];
  }

  lemma AnswerOfClose(piece: string, i: nat)
    requires ClosesAt(piece, i)
    ensures FirstClose(piece) == Some(i)
    ensures Answer(piece) ==
      Some(if i + 1 < |piece| && piece[i + 1] == '%' then piece[..i + 1] else piece[..i])
  {
    hide NeverCloses;
    ClosedStaysClosed(piece, i, |piece|);
    assert piece[..|piece|] == piece;
    var j := FirstClose(piece).value;
    if i < j {
      ClosedStaysClosed(piece, i, j);
    } else if j < i {
      ClosedStaysClosed(piece, j, i);
    }
  }

  /** A piece gives an answer just when some prefix has more closing than opening braces. */
  lemma AnswerExists(piece: string)
    ensures Answer(piece).Some? <==> exists i :: 0 <= i <= |piece| && Depth(piece[..i]) < 0
  {
    NoAnswer(piece);
  }

  /** What is in front of the closing brace is balanced, and nothing else balanced is. */
  lemma ClosesAfterBalanced(piece: string, i: nat)
    requires i < |piece|
    ensures ClosesAt(piece, i) <==> Balanced(piece[..i]) && piece[i] == '}'
  {
    assert piece[..i + 1][..i] == piece[..i];
    assert piece[..i][..i] == piece[..i];
  }

  /** The answer is the balanced text x in front of the first unmatched brace; with a per cent
      sign behind that brace, it is x and the brace. */
  lemma AnswerIsBalanced(piece: string, x: string)
    requires Balanced(x)
    ensures x + "}" <= piece && !(x + "}%" <= piece) <==>
      Answer(piece) == Some(x)
    ensures x + "}%" <= piece <==> Answer(piece) == Some(x + "}")
  {
    hide NeverCloses, Balanced;
    var n := |x|;
    if x + "}" <= piece {
      assert piece[..n] == x;
      ClosesAfterBalanced(piece, n);
      AnswerOfClose(piece, n);
      assert piece[..n + 1] == x + "}";
      assert x + "}%" <= piece <==> n + 1 < |piece| && piece[n + 1] == '%';
    }
    if Answer(piece).Some? {
      AnswerHasBalancedText(piece);
      var y :| Balanced(y) && IsAnswerFrom(piece, y, Answer(piece).value);
      if Answer(piece).value == x || Answer(piece).value == x + "}" {
        BalancedNoBrace(x, y);
      }
    }
  }

  /** x is the answer that the text y in front of a closing brace gives. */
  predicate IsAnswerFrom(piece: string, y: string, x: string) {
    y + "}" <= piece && x == if y + "}%" <= piece then y + "}" else y
  }

  lemma AnswerHasBalancedText(piece: string)
    requires Answer(piece).Some?
    ensures exists y :: Balanced(y) && IsAnswerFrom(piece, y, Answer(piece).value)
  {
    hide NeverCloses, Balanced;
    NoAnswer(piece);
    var i := FirstClose(piece).value;
    AnswerOfClose(piece, i);
    ClosesAfterBalanced(piece, i);
    var y := piece[..i];
    assert piece[..i + 1] == y + "}";
    assert y + "}%" <= piece <==> i + 1 < |piece| && piece[i + 1] == '%';
    assert IsAnswerFrom(piece, y, Answer(piece).value);
  }

  /** A balanced text and a balanced text with a closing brace behind it differ. */
  lemma BalancedNoBrace(x: string, y: string)
    requires Balanced(x) && Balanced(y)
    ensures x != y + "}" && y != x + "}"
  {
    assert (y + "}")[..|y|] == y && (x + "}")[..|x|] == x;
  }

  /** What follows an opening: a boxed answer and more text, or a text that never closes it. */
  datatype Item =
    | Closed(answer: string, filler: string)
    | Open(text: string)
  {
    function Piece(): string {
      if Closed? then answer + "}" + filler else text
    }

    ghost predicate Valid() {
      !Contains(Piece(), BOXED) && if Closed? then Balanced(answer) else NeverCloses(text)
    }

    predicate BeforePercent() {
      Closed? && filler != "" && filler[0] == '%'
    }

    /** What is read back: the answer, with a brace added where a per cent sign follows. */
    function Read(): seq<string> {
      if Open? then [] else if BeforePercent() then [answer + "}"] else [answer]
    }

    function Boxed(): seq<string> {
      if Open? then [] else [answer]
    }
  }

  function Pieces(items: seq<Item>): (pieces: seq<string>)
    ensures |pieces| == |items| && forall k :: 0 <= k < |items| ==> pieces[k] == items[k].Piece()
  {
    seq(|items|, k requires 0 <= k < |items| => items[k].Piece())
  }

  function ReadBack(items: seq<Item>): seq<string> {
    if items == [] then [] else ReadBack(items[..|items| - 1]) + items[|items| - 1].Read()
  }

  function AllBoxed(items: seq<Item>): seq<string> {
    if items == [] then [] else AllBoxed(items[..|items| - 1]) + items[|items| - 1].Boxed()
  }

  lemma NoBraceInside(s: string, i: nat, n: nat)
    requires At(s, BOXED, i) && i <= n < i + |BOXED|
    ensures s[n] != '}'
  {
    assert s[n] == s[i..i + |BOXED|][n - i];
  }

  /** The pattern holds no closing brace, so it cannot reach across one. */
  lemma OutsideBrace(x: string, y: string, i: nat)
    requires At(x + "}" + y, BOXED, i)
    ensures i + |BOXED| <= |x| || |x| + 1 <= i
  {
    if i <= |x| < i + |BOXED| {
      NoBraceInside(x + "}" + y, i, |x|);
    }
  }

  /** A closed item holds no further opening if and only if neither answer nor filler does. */
  lemma NoPatternAcrossBrace(x: string, y: string)
    ensures Contains(x + "}" + y, BOXED) <==> Contains(x, BOXED) || Contains(y, BOXED)
  {
    var piece := x + "}" + y;
    assert piece == x + ("}" + y);
    if i: nat :| At(piece, BOXED, i) {
      OutsideBrace(x, y, i);
      if i + |BOXED| <= |x| {
        OccurrenceInPrefix(x, "}" + y, BOXED, i);
      } else {
        OccurrenceInSuffix(x + "}", y, BOXED, i);
      }
    }
    if i: nat :| At(x, BOXED, i) {
      assert piece[i..i + |BOXED|] == x[i..i + |BOXED|];
      assert At(piece, BOXED, i);
    }
    if i: nat :| At(y, BOXED, i) {
      var n := |x| + 1;
      assert piece[n + i..n + i + |BOXED|] == y[i..i + |BOXED|];
      assert At(piece, BOXED, n + i);
    }
  }

  lemma ItemAnswer(item: Item)
    requires item.Valid()
    ensures Answer(item.Piece()) == if item.Open? then None else Some(item.Read()[0])
  {
    var piece := item.Piece();
    if item.Open? {
      NoAnswer(piece);
    } else {
      AnswerIsBalanced(piece, item.answer);
      assert item.answer + "}" <= piece;
      assert item.answer + "}%" <= piece <==> item.BeforePercent();
    }
  }

  lemma OnePieceMore(pieces: seq<string>, piece: string)
    ensures Answers(pieces + [piece])
      == Answers(pieces) + if Answer(piece).Some? then [Answer(piece).value] else []
  {
    hide Answer;
    assert (pieces + [piece])[..|pieces|] == pieces;
  }

  lemma {:induction false} PiecesReadBack(items: seq<Item>)
    requires forall item <- items :: item.Valid()
    ensures Answers(Pieces(items)) == ReadBack(items)
  {
    hide Answer, Answers, Item.Piece, Item.Valid, Item.Read;
    if items == [] {
      NothingRead();
    } else {
      var last := items[|items| - 1];
      var before := items[..|items| - 1];
      PiecesReadBack(before);
      ItemAnswer(last);
      ReadShape(last);
      OnePieceMore(Pieces(before), last.Piece());
      assert Pieces(items) == Pieces(before) + [last.Piece()];
    }
  }

  lemma ReadShape(item: Item)
    ensures |item.Read()| == |item.Boxed()| == if item.Open? then 0 else 1
    ensures item.Read() == if item.Open? then [] else [item.Read()[0]]
    ensures item.Read() == item.Boxed() <==> !item.BeforePercent()
  {
    if item.BeforePercent() {
      assert |item.Read()[0]| == |item.Boxed()[0]| + 1;
    }
  }

  lemma NothingRead()
    ensures Answers([]) == []
  {
  }

  lemma {:induction false} ReadBackDiffers(items: seq<Item>)
    ensures |ReadBack(items)| == |AllBoxed(items)|
    ensures ReadBack(items) == AllBoxed(items) <==> forall item <- items :: !item.BeforePercent()
  {
    hide Item.Read, Item.Boxed, Item.BeforePercent;
    if items != [] {
      var last := items[|items| - 1];
      var before := items[..|items| - 1];
      ReadBackDiffers(before);
      ReadShape(last);
      EqualHalves(ReadBack(before), last.Read(), AllBoxed(before), last.Boxed());
      assert forall item :: item in items <==> item in before || item == last;
    }
  }

  lemma EqualHalves(a: seq<string>, b: seq<string>, c: seq<string>, d: seq<string>)
    requires |a| == |c|
    ensures a + b == c + d <==> a == c && b == d
  {
    if a + b == c + d {
      assert a == (a + b)[..|a|] && c == (c + d)[..|c|];
      assert b == (a + b)[|a|..] && d == (c + d)[|c|..];
    }
  }

  /** Text written around boxed answers gives those answers back, in order and with unclosed
      openings passed over, exactly when no filler starts with a per cent sign. */
  lemma RoundTrip(lead: string, items: seq<Item>)
    requires !Contains(lead, BOXED) && forall item <- items :: item.Valid()
    ensures Extracted(lead + Spread(Pieces(items), BOXED)) == ReadBack(items)
    ensures Extracted(lead + Spread(Pieces(items), BOXED)) == AllBoxed(items) <==>
      forall item <- items :: !item.BeforePercent()
  {
    hide Answers, Item.Piece, Item.Read, Item.Boxed, Item.BeforePercent;
    UniqueHeadIsBorderless(BOXED);
    var pieces := Pieces(items);
    forall k | 0 <= k < |pieces| ensures !Contains(pieces[k], BOXED) {
      assert items[k] in items;
    }
    SpreadSplits(lead, pieces, BOXED);
    assert ([lead] + pieces)[1..] == pieces;
    PiecesReadBack(items);
    ReadBackDiffers(items);
  }

  /** Every string is such a text. */
  lemma EveryTextIsWritten(text: string) returns (lead: string, items: seq<Item>)
    ensures text == lead + Spread(Pieces(items), BOXED)
    ensures !Contains(lead, BOXED) && forall item <- items :: item.Valid()
  {
    var pieces := Split(text, BOXED);
    JoinSplit(text, BOXED);
    lead := pieces[0];
    items := [];
    for k := 1 to |pieces|
      invariant |items| == k - 1
      invariant forall j | 0 <= j < k - 1 :: items[j].Valid() && items[j].Piece() == pieces[j + 1]
    {
      assert !Contains(pieces[k], BOXED);
      var item := Parsed(pieces[k]);
      items := items + [item];
    }
    assert Pieces(items) == pieces[1..] && pieces == [lead] + pieces[1..];
    SpreadIsJoined(lead, Pieces(items), BOXED);
  }

  lemma Parsed(piece: string) returns (item: Item)
    requires !Contains(piece, BOXED)
    ensures item.Valid() && item.Piece() == piece
  {
    hide NeverCloses, Balanced, Contains, FirstClose, Answer;
    NoAnswer(piece);
    if Answer(piece).None? {
      item := Open(piece);
    } else {
      var y, rest := ParsedAnswer(piece);
      item := Closed(y, rest);
    }
  }

  lemma ParsedAnswer(piece: string) returns (y: string, rest: string)
    requires Answer(piece).Some?
    ensures Balanced(y) && piece == y + "}" + rest
  {
    hide NeverCloses, Balanced, FirstClose, Answer;
    AnswerHasBalancedText(piece);
    y :| Balanced(y) && IsAnswerFrom(piece, y, Answer(piece).value);
    rest := piece[|y| + 1..];
    assert piece == piece[..|y| + 1] + rest;
  }

  lemma ShortHoldsNone(s: string)
    requires |s| < |BOXED|
    ensures !Contains(s, BOXED)
  {
  }

  lemma OneCharacterBalanced(c: char)
    requires c != '{' && c != '}'
    ensures Balanced([c])
  {
    assert [c][..0] == "" && [c][..1] == [c];
  }

  /** The failing input: a per cent sign behind the answer, and the brace comes back with it. */
  lemma PercentKeepsBrace()
    ensures Extracted("boxed{5}%") == ["5}"] != ["5"]
  {
    hide Extracted, Balanced, Contains, Spread;
    var item := Closed(['5'], ['%']);
    assert item.Piece() == "5}%";
    OneCharacterBalanced('5');
    ShortHoldsNone("5}%");
    OneItem(item);
    assert item.BeforePercent() && item.Read() == [['5'] + "}"];
    assert ['5'] + "}" == "5}";
    Spelled();
    assert |"5}"| != |"5"|;
  }

  lemma Spelled()
    ensures "boxed{" + "5}%" == "boxed{5}%"
  {
  }

  lemma OneItem(item: Item)
    requires item.Valid()
    ensures Extracted(BOXED + item.Piece()) == item.Read()
  {
    hide Answers, Item.Piece, Item.Valid, Item.Read;
    forall i: nat ensures !At("", BOXED, i) {}
    RoundTrip("", [item]);
    assert Pieces([item]) == [item.Piece()];
    OnePiece(item.Piece());
    assert "" + Spread([item.Piece()], BOXED) == BOXED + item.Piece();
    assert [item][..0] == [] && ReadBack([]) == [] && ReadBack([item]) == [] + item.Read();
  }

  lemma OnePiece(piece: string)
    ensures Spread([piece], BOXED) == BOXED + piece
  {
    assert [piece][1..] == [] && Spread([], BOXED) == "";
    assert BOXED + piece + "" == BOXED + piece;
  }
}
