/** Asking about a line: the prompt shows only the lines up to a given one, and the label comes from
    the complete table. That is fair because a query is chosen only if its whole chain is shown. */
module LineQuery {
  import opened Arithmetic
  import opened Redirects
  import opened Wrappers

  // ---- what a reader of the lines can find out ------------------------------------------------

  function Find(lines: seq<Line>, name: string): Option<nat> {
    if lines == [] then None
    else
      var last := |lines| - 1;
      match Find(lines[..last], name)
      case Some(i) => Some(i)
      case None => if lines[last].name == name then Some(last) else None
  }

  datatype Reading = Reading(hops: seq<nat>, value: string)

  /** Look up the line, follow its reference, and so on, for at most `fuel` references. */
  ghost function Read(lines: seq<Line>, name: string, fuel: nat): Option<Reading>
    decreases fuel
  {
    match Find(lines, name)
    case None => None
    case Some(i) =>
      if i >= |lines| then None
      else if lines[i].Content? then Some(Reading([], lines[i].value))
      else if fuel == 0 then None
      else
        match Find(lines, lines[i].target)
        case None => None
        case Some(j) =>
          match Read(lines, lines[i].target, fuel - 1)
          case None => None
          case Some(r) => Some(Reading([j] + r.hops, r.value))
  }

  /** `lines` spells out the table, under names that are all different. */
  ghost predicate Describes(lines: seq<Line>, redirects: seq<Target>, names: seq<string>, values: seq<string>)
    requires ValidTable(redirects)
  {
    && |lines| == |redirects| == |names| == |values|
    && (forall i, j | 0 <= i < j < |names| :: names[i] != names[j])
    && (forall i | 0 <= i < |lines| ::
          lines[i] == if redirects[i].Plain? then Content(names[i], values[i])
                      else SameAs(names[i], names[redirects[i].line]))
  }

  lemma {:induction false} FindIsLookup(lines: seq<Line>, name: string)
    ensures match Find(lines, name)
            case Some(i) => i < |lines| && lines[i].name == name
            case None => forall i | 0 <= i < |lines| :: lines[i].name != name
  {
    if lines != [] {
      FindIsLookup(lines[..|lines| - 1], name);
    }
  }

  /** A name that is shown is found, at its line. */
  lemma FindShown(lines: seq<Line>, redirects: seq<Target>, names: seq<string>, values: seq<string>, shown: nat, i: nat)
    requires ValidTable(redirects) && Describes(lines, redirects, names, values)
    requires i < shown <= |lines|
    ensures Find(lines[..shown], names[i]) == Some(i)
    ensures lines[..shown][i] == if redirects[i].Plain? then Content(names[i], values[i])
                                 else SameAs(names[i], names[redirects[i].line])
  {
    FindIsLookup(lines[..shown], names[i]);
    assert lines[..shown][i].name == names[i];
  }

  ghost predicate AllShown(hops: seq<nat>, shown: nat) {
    forall j | 0 <= j < |hops| :: hops[j] < shown
  }

  lemma RestShown(next: nat, rest: seq<nat>, shown: nat)
    requires AllShown([next] + rest, shown)
    ensures next < shown && AllShown(rest, shown)
  {
    assert ([next] + rest)[0] == next && forall j | 0 <= j < |rest| :: ([next] + rest)[j + 1] == rest[j];
  }

  lemma ReadReference(lines: seq<Line>, i: nat, j: nat, fuel: nat, r: Reading)
    requires i < |lines| && lines[i].SameAs? && fuel > 0 && Find(lines, lines[i].name) == Some(i)
    requires Find(lines, lines[i].target) == Some(j) && Read(lines, lines[i].target, fuel - 1) == Some(r)
    ensures Read(lines, lines[i].name, fuel) == Some(Reading([j] + r.hops, r.value))
  {
  }

  /** If the line and its whole chain are among the lines shown, then reading those finds the chain
      and the value of its root, just as reading all lines does. */
  lemma {:induction false} ShownChainIsRead(lines: seq<Line>, redirects: seq<Target>, names: seq<string>,
                                            values: seq<string>, shown: nat, q: nat, k: nat, fuel: nat)
    requires ValidTable(redirects) && Describes(lines, redirects, names, values)
    requires q < shown <= |lines| && ReachesIn(redirects, q, k) && k <= fuel
    requires AllShown(Path(redirects, q, k), shown)
    ensures Read(lines[..shown], names[q], fuel) == Some(Reading(Path(redirects, q, k), values[Walk(redirects, q, k)]))
    decreases k, 1
  {
    if k > 0 {
      ShownReferenceIsRead(lines, redirects, names, values, shown, q, k, fuel);
    } else {
      FindShown(lines, redirects, names, values, shown, q);
      assert Path(redirects, q, 0) == [];
    }
  }

  lemma {:induction false} ShownReferenceIsRead(lines: seq<Line>, redirects: seq<Target>, names: seq<string>,
                                                values: seq<string>, shown: nat, q: nat, k: nat, fuel: nat)
    requires ValidTable(redirects) && Describes(lines, redirects, names, values)
    requires q < shown <= |lines| && ReachesIn(redirects, q, k) && 0 < k <= fuel
    requires AllShown(Path(redirects, q, k), shown)
    ensures Read(lines[..shown], names[q], fuel) == Some(Reading(Path(redirects, q, k), values[Walk(redirects, q, k)]))
    decreases k, 0
  {
    NextInChain(redirects, q, k);
    RestShown(redirects[q].line, Path(redirects, redirects[q].line, k - 1), shown);
    hide AllShown;
    FindShown(lines, redirects, names, values, shown, q);
    var next, prefix := redirects[q].line, lines[..shown];
    FindShown(lines, redirects, names, values, shown, next);
    hide Find, Read, Walk, ReachesIn, Path;
    var rest := Path(redirects, next, k - 1);
    ShownChainIsRead(lines, redirects, names, values, shown, next, k - 1, fuel - 1);
    hide Describes;
    ReadReference(prefix, q, next, fuel, Reading(rest, values[Walk(redirects, q, k)]));
  }

  /** The chain of a reference is its target followed by the target's chain. */
  lemma NextInChain(redirects: seq<Target>, q: nat, k: nat)
    requires ValidTable(redirects) && q < |redirects| && k > 0 && ReachesIn(redirects, q, k)
    ensures redirects[q].To?
    ensures ReachesIn(redirects, redirects[q].line, k - 1)
    ensures Path(redirects, q, k) == [redirects[q].line] + Path(redirects, redirects[q].line, k - 1)
    ensures Walk(redirects, q, k) == Walk(redirects, redirects[q].line, k - 1)
  {
    assert redirects[Walk(redirects, q, 0)].To?;
    assert Walk(redirects, q, 1) == redirects[q].line;
    forall j: nat ensures Walk(redirects, q, j + 1) == Walk(redirects, redirects[q].line, j) {
      WalkCompose(redirects, q, 1, j);
    }
  }

  // ---- choosing a query -----------------------------------------------------------------------

  predicate Eligible(links: seq<Link>, srcIndex: int, q: nat) {
    q < |links| && links[q].Chain? && (forall l | l in links[q].hops :: l <= srcIndex) && q < srcIndex
  }

  function Eligibles(group: seq<nat>, links: seq<Link>, srcIndex: int): seq<nat> {
    if group == [] then []
    else
      var last := |group| - 1;
      Eligibles(group[..last], links, srcIndex) + if Eligible(links, srcIndex, group[last]) then [group[last]] else []
  }

  lemma NotNegative(a: real, b: real)
    requires a >= 0.0 && b >= 0.0
    ensures a * b >= 0.0
  {
  }

  function RankAt(m: nat, percent: real): (r: nat)
    requires m > 0 && percent >= 0.0
    ensures r < m
  {
    NotNegative(m as real, percent);
    var at := (m as real * percent).Floor;
    if at < m - 1 then at else m - 1
  }

  /** The query at the given fraction of the eligible ones; `None` where the Python code raises an
      index error because there are none. */
  function SelectQuery(group: seq<nat>, links: seq<Link>, srcIndex: int, dstPercent: real): Option<nat>
    requires dstPercent >= 0.0
  {
    var queries := Eligibles(group, links, srcIndex);
    if queries == [] then None else Some(queries[RankAt(|queries|, dstPercent)])
  }

  lemma {:induction false} EligiblesExact(group: seq<nat>, links: seq<Link>, srcIndex: int, q: nat)
    ensures q in Eligibles(group, links, srcIndex) <==> q in group && Eligible(links, srcIndex, q)
  {
    if group != [] {
      var last := |group| - 1;
      EligiblesExact(group[..last], links, srcIndex, q);
      assert group == group[..last] + [group[last]];
    }
  }

  /** A query is selected exactly when the group has an eligible line, and it is one of those. */
  lemma SelectQuerySound(group: seq<nat>, links: seq<Link>, srcIndex: int, dstPercent: real)
    requires dstPercent >= 0.0
    ensures var q := SelectQuery(group, links, srcIndex, dstPercent);
            && (q.None? <==> forall i | i in group :: !Eligible(links, srcIndex, i))
            && (q.Some? ==> q.value in group && Eligible(links, srcIndex, q.value))
  {
    var queries := Eligibles(group, links, srcIndex);
    if queries == [] {
      forall i | i in group ensures !Eligible(links, srcIndex, i) {
        EligiblesExact(group, links, srcIndex, i);
      }
    } else {
      EligiblesExact(group, links, srcIndex, queries[0]);
      EligiblesExact(group, links, srcIndex, SelectQuery(group, links, srcIndex, dstPercent).value);
    }
  }

  /** A line that may be asked for, in terms of its position and its chain. */
  ghost predicate Fits(links: seq<Link>, src: nat, q: nat) {
    q < src && q < |links| && links[q].Chain? && AllShown(links[q].hops, src + 1)
  }

  lemma EligibleFits(links: seq<Link>, src: nat, q: nat)
    ensures Eligible(links, src, q) <==> Fits(links, src, q)
  {
    if q < |links| && links[q].Chain? {
      var hops := links[q].hops;
      if Eligible(links, src, q) {
        forall j | 0 <= j < |hops| ensures hops[j] < src + 1 {
          assert hops[j] in hops;
        }
      }
      if Fits(links, src, q) {
        forall l | l in hops ensures l <= src {
          var j :| 0 <= j < |hops| && hops[j] == l;
        }
      }
    }
  }

  /** How many lines of the group may be asked for. */
  ghost function Fitting(group: seq<nat>, links: seq<Link>, src: nat): nat {
    if group == [] then 0
    else Fitting(group[..|group| - 1], links, src) + if Fits(links, src, group[|group| - 1]) then 1 else 0
  }

  /** `r` is the largest rank below `m` that does not exceed the fraction `percent` of `m`. */
  ghost predicate IsRank(r: nat, m: nat, percent: real) {
    r < m && r as real <= m as real * percent && (r == m - 1 || m as real * percent < (r + 1) as real)
  }

  /** `dst` stands in the group behind exactly as many lines that fit as the percentage asks for. */
  ghost predicate Chosen(group: seq<nat>, links: seq<Link>, src: nat, percent: real, dst: nat) {
    exists g | 0 <= g < |group| :: group[g] == dst && Fits(links, src, dst)
      && IsRank(Fitting(group[..g], links, src), Fitting(group, links, src), percent)
  }

  lemma {:induction false} EligibleRank(group: seq<nat>, links: seq<Link>, src: nat, r: nat) returns (g: nat)
    ensures |Eligibles(group, links, src)| == Fitting(group, links, src)
    ensures r < |Eligibles(group, links, src)| ==>
              && g < |group| && group[g] == Eligibles(group, links, src)[r] && Fits(links, src, group[g])
              && Fitting(group[..g], links, src) == r
  {
    hide Eligible, Fits;
    g := 0;
    if group != [] {
      var last := |group| - 1;
      EligibleFits(links, src, group[last]);
      g := EligibleRank(group[..last], links, src, r);
      if r < |Eligibles(group[..last], links, src)| {
        assert group[..last][..g] == group[..g];
      } else {
        g := last;
      }
    }
  }

  lemma RankAtIsRank(m: nat, percent: real)
    requires m > 0 && percent >= 0.0
    ensures IsRank(RankAt(m, percent), m, percent)
  {
    NotNegative(m as real, percent);
  }

  /** The selected query is the one that the percentage chooses, and there is one whenever some line
      of the group fits. */
  lemma SelectedIsChosen(group: seq<nat>, links: seq<Link>, src: nat, percent: real)
    requires percent >= 0.0
    ensures var q := SelectQuery(group, links, src, percent);
            && (q.Some? <==> exists i | i in group :: Fits(links, src, i))
            && (q.Some? ==> Chosen(group, links, src, percent, q.value))
  {
    SelectQuerySound(group, links, src, percent);
    hide Eligible, Fits, Fitting, IsRank, RankAt;
    forall i | i in group ensures Eligible(links, src, i) <==> Fits(links, src, i) {
      EligibleFits(links, src, i);
    }
    var m := |Eligibles(group, links, src)|;
    if m > 0 {
      RankAtIsRank(m, percent);
      var g := EligibleRank(group, links, src, RankAt(m, percent));
    }
  }

  // ---- the prompt -----------------------------------------------------------------------------

  function Body(lines: seq<Line>, srcIndex: nat): seq<Line> {
    if srcIndex + 1 <= |lines| then lines[..srcIndex + 1] else lines
  }

  function BodyParts(body: seq<Line>): (seq<Line>, seq<Line>, seq<Line>, seq<Line>) {
    var n := |body| / 4;
    (body[..n], body[n..2 * n], body[2 * n..3 * n], body[3 * n..])
  }

  /** The four parts are the body, cut without loss into three equal pieces and a remainder that is
      longer by at most three lines. */
  lemma PartsAreTheBody(body: seq<Line>)
    ensures var (b0, b1, b2, b3) := BodyParts(body);
            && b0 + b1 + b2 + b3 == body
            && |b0| == |b1| == |b2| <= |b3| <= |b0| + 3
  {
  }

  /** The label of a selected query is what a reader of the prompt's lines arrives at. Here `labels`
      are the values after they have been resolved in place. */
  lemma LabelIsReadable(lines: seq<Line>, redirects: seq<Target>, names: seq<string>, values: seq<string>,
                        links: seq<Link>, labels: seq<string>, group: seq<nat>, srcIndex: nat, dstPercent: real)
    requires ValidTable(redirects) && Describes(lines, redirects, names, values) && dstPercent >= 0.0
    requires |links| == |labels| == |redirects|
    requires forall i | 0 <= i < |links| :: LinkOk(redirects, i, links[i])
    requires forall i, k: nat | 0 <= i < |redirects| && ReachesIn(redirects, i, k) ::
               labels[i] == values[Walk(redirects, i, k)]
    ensures var selected := SelectQuery(group, links, srcIndex, dstPercent);
            var (b0, b1, b2, b3) := BodyParts(Body(lines, srcIndex));
            selected.Some? ==>
              var q := selected.value;
              && q < |links| && links[q].Chain?
              && Read(b0 + b1 + b2 + b3, names[q], |lines|) == Some(Reading(links[q].hops, labels[q]))
              && Read(lines, names[q], |lines|) == Some(Reading(links[q].hops, labels[q]))
  {
    var selected := SelectQuery(group, links, srcIndex, dstPercent);
    PartsAreTheBody(Body(lines, srcIndex));
    if selected.Some? {
      SelectQuerySound(group, links, srcIndex, dstPercent);
      var q := selected.value;
      var k := |links[q].hops|;
      assert LinkOk(redirects, q, links[q]);
      var shown := if srcIndex + 1 <= |lines| then srcIndex + 1 else |lines|;
      assert Body(lines, srcIndex) == lines[..shown] && lines == lines[..|lines|];
      assert forall j | 0 <= j < k :: links[q].hops[j] in links[q].hops;
      ShownChainIsRead(lines, redirects, names, values, shown, q, k, |lines|);
      ShownChainIsRead(lines, redirects, names, values, |lines|, q, k, |lines|);
    }
  }

  // ---- the loops over sources and percentages ---------------------------------------------------

  datatype Argument = Argument(body0: seq<Line>, body1: seq<Line>, body2: seq<Line>, body3: seq<Line>, asked: string) {
    function Shown(): seq<Line> {
      body0 + body1 + body2 + body3
    }
  }

  function Asked(srcIndices: seq<nat>, dstPercents: seq<real>): seq<(nat, real)> {
    if srcIndices == [] then []
    else
      var last := |srcIndices| - 1;
      Asked(srcIndices[..last], dstPercents) + seq(|dstPercents|, j requires 0 <= j < |dstPercents| =>
        (srcIndices[last], dstPercents[j]))
  }

  lemma {:induction false} AskedIsProduct(srcIndices: seq<nat>, dstPercents: seq<real>, src: nat, percent: real)
    ensures (src, percent) in Asked(srcIndices, dstPercents) <==> src in srcIndices && percent in dstPercents
  {
    if srcIndices != [] {
      var last := |srcIndices| - 1;
      AskedIsProduct(srcIndices[..last], dstPercents, src, percent);
      assert srcIndices == srcIndices[..last] + [srcIndices[last]];
      var row := seq(|dstPercents|, j requires 0 <= j < |dstPercents| => (srcIndices[last], dstPercents[j]));
      if src == srcIndices[last] && percent in dstPercents {
        var j :| 0 <= j < |dstPercents| && dstPercents[j] == percent;
        assert row[j] == (src, percent);
      }
    }
  }

  ghost function RowIndex(i: nat, j: nat, n: nat): nat {
    i * n + j
  }

  /** The questions come source by source, and for each source percentage by percentage. */
  lemma {:induction false} AskedAt(srcIndices: seq<nat>, dstPercents: seq<real>, i: nat, j: nat)
    requires i < |srcIndices| && j < |dstPercents|
    ensures |Asked(srcIndices, dstPercents)| == |srcIndices| * |dstPercents|
    ensures RowIndex(i, j, |dstPercents|) < |Asked(srcIndices, dstPercents)|
    ensures Asked(srcIndices, dstPercents)[RowIndex(i, j, |dstPercents|)] == (srcIndices[i], dstPercents[j])
  {
    var last := |srcIndices| - 1;
    AskedLength(srcIndices, dstPercents);
    AskedLength(srcIndices[..last], dstPercents);
    MulMonotone(i + 1, |srcIndices|, |dstPercents|);
    MulDistributes(i, 1, |dstPercents|);
    if i < last {
      AskedAt(srcIndices[..last], dstPercents, i, j);
    }
  }

  lemma {:induction false} AskedLength(srcIndices: seq<nat>, dstPercents: seq<real>)
    ensures |Asked(srcIndices, dstPercents)| == |srcIndices| * |dstPercents|
  {
    if srcIndices != [] {
      AskedLength(srcIndices[..|srcIndices| - 1], dstPercents);
      MulDistributes(|srcIndices| - 1, 1, |dstPercents|);
    }
  }

  /** What is recorded for one source and one percentage: the prompt shows exactly the lines up to
      the source, in four parts, and asks for the line that the percentage chooses. */
  ghost predicate Row(lines: seq<Line>, names: seq<string>, values: seq<string>, links: seq<Link>, group: seq<nat>,
                      src: nat, percent: real, argument: Argument, answer: string, dst: nat)
    requires |names| == |values| == |links|
  {
    && argument.body0 + argument.body1 + argument.body2 + argument.body3
       == lines[..if src + 1 <= |lines| then src + 1 else |lines|]
    && |argument.body0| == |argument.body1| == |argument.body2| <= |argument.body3| <= |argument.body0| + 3
    && Chosen(group, links, src, percent, dst)
    && dst < |links| && argument.asked == names[dst] && answer == values[dst]
  }

  lemma RecordedIsRow(lines: seq<Line>, names: seq<string>, values: seq<string>, links: seq<Link>, group: seq<nat>,
                      question: (nat, real), argument: Argument, answer: string, src: nat, dst: nat)
    requires |names| == |values| == |links|
    requires Recorded(lines, names, values, links, group, question, argument, answer, src, dst)
    ensures src == question.0
    ensures Row(lines, names, values, links, group, src, question.1, argument, answer, dst)
  {
    hide SelectQuery, Chosen;
    SelectedIsChosen(group, links, src, question.1);
    assert lines == lines[..|lines|];
  }

  /** What one pass through the inner loop appends. */
  predicate Recorded(lines: seq<Line>, names: seq<string>, values: seq<string>, links: seq<Link>, group: seq<nat>,
                     question: (nat, real), argument: Argument, answer: string, src: nat, dst: nat)
    requires |names| == |values| == |links|
  {
    && question.1 >= 0.0 && src == question.0 && SelectQuery(group, links, src, question.1) == Some(dst)
    && dst < |links| && answer == values[dst] && argument.asked == names[dst]
    && argument.Shown() == Body(lines, src)
    && |argument.body0| == |argument.body1| == |argument.body2| <= |argument.body3| <= |argument.body0| + 3
  }

  /** The group has a query whose chain the prompt shows. */
  ghost predicate HasFitting(group: seq<nat>, links: seq<Link>, src: nat) {
    exists q | q in group :: Fits(links, src, q)
  }

  /** Row `i * |dstPercents| + j` answers for source `i` and percentage `j`. */
  ghost predicate AllRows(lines: seq<Line>, names: seq<string>, values: seq<string>, links: seq<Link>, group: seq<nat>,
                          srcIndices: seq<nat>, dstPercents: seq<real>, arguments: seq<Argument>, labels: seq<string>,
                          sumSrcIndices: seq<nat>, sumDstIndices: seq<nat>)
    requires |names| == |values| == |links|
  {
    && |arguments| == |labels| == |sumSrcIndices| == |sumDstIndices| == |srcIndices| * |dstPercents|
    && forall i, j | 0 <= i < |srcIndices| && 0 <= j < |dstPercents| ::
         var k := RowIndex(i, j, |dstPercents|);
         && k < |arguments| && sumSrcIndices[k] == srcIndices[i]
         && Row(lines, names, values, links, group, srcIndices[i], dstPercents[j], arguments[k], labels[k],
                sumDstIndices[k])
  }

  lemma RecordedAreRows(lines: seq<Line>, names: seq<string>, values: seq<string>, links: seq<Link>, group: seq<nat>,
                        srcIndices: seq<nat>, dstPercents: seq<real>, arguments: seq<Argument>, labels: seq<string>,
                        sumSrcIndices: seq<nat>, sumDstIndices: seq<nat>)
    requires |names| == |values| == |links|
    requires |arguments| == |labels| == |sumSrcIndices| == |sumDstIndices| == |Asked(srcIndices, dstPercents)|
    requires forall k | 0 <= k < |arguments| ::
               Recorded(lines, names, values, links, group, Asked(srcIndices, dstPercents)[k],
                        arguments[k], labels[k], sumSrcIndices[k], sumDstIndices[k])
    ensures AllRows(lines, names, values, links, group, srcIndices, dstPercents, arguments, labels,
                    sumSrcIndices, sumDstIndices)
  {
    hide Row, Asked, SelectQuery, Body, Recorded, RowIndex;
    AskedLength(srcIndices, dstPercents);
    forall i, j | 0 <= i < |srcIndices| && 0 <= j < |dstPercents|
      ensures var k := RowIndex(i, j, |dstPercents|);
              && k < |arguments| && sumSrcIndices[k] == srcIndices[i]
              && Row(lines, names, values, links, group, srcIndices[i], dstPercents[j], arguments[k], labels[k],
                     sumDstIndices[k])
    {
      AskedAt(srcIndices, dstPercents, i, j);
      var k := RowIndex(i, j, |dstPercents|);
      RecordedIsRow(lines, names, values, links, group, Asked(srcIndices, dstPercents)[k],
                    arguments[k], labels[k], sumSrcIndices[k], sumDstIndices[k]);
    }
  }

  /** All prompts with their labels; `ok` is false where the Python code raises an index error. */
  method EvalModel(lines: seq<Line>, names: seq<string>, values: seq<string>, links: seq<Link>, group: seq<nat>,
                   srcIndices: seq<nat>, dstPercents: seq<real>)
    returns (ok: bool, arguments: seq<Argument>, labels: seq<string>, sumSrcIndices: seq<nat>, sumDstIndices: seq<nat>)
    requires |lines| == |names| == |values| == |links| && forall j | 0 <= j < |dstPercents| :: dstPercents[j] >= 0.0
    ensures ok <==> dstPercents == [] || forall i | 0 <= i < |srcIndices| :: HasFitting(group, links, srcIndices[i])
    ensures ok ==> |arguments| == |labels| == |sumSrcIndices| == |sumDstIndices| == |Asked(srcIndices, dstPercents)|
    ensures ok ==> forall k | 0 <= k < |arguments| ::
              Recorded(lines, names, values, links, group, Asked(srcIndices, dstPercents)[k],
                       arguments[k], labels[k], sumSrcIndices[k], sumDstIndices[k])
    ensures ok ==> AllRows(lines, names, values, links, group, srcIndices, dstPercents, arguments, labels,
                           sumSrcIndices, sumDstIndices)
  {
    hide SelectQuery, Eligible, Body, Fits, Chosen, AllRows;
    ok, arguments, labels, sumSrcIndices, sumDstIndices := true, [], [], [], [];
    for i := 0 to |srcIndices|
      invariant ok
      invariant |arguments| == |labels| == |sumSrcIndices| == |sumDstIndices| == |Asked(srcIndices[..i], dstPercents)|
      invariant forall k | 0 <= k < |arguments| ::
                  Recorded(lines, names, values, links, group, Asked(srcIndices[..i], dstPercents)[k],
                           arguments[k], labels[k], sumSrcIndices[k], sumDstIndices[k])
      invariant dstPercents == [] || forall a | 0 <= a < i :: HasFitting(group, links, srcIndices[a])
    {
      var srcIndex := srcIndices[i];
      assert srcIndices[..i + 1][..i] == srcIndices[..i];
      ghost var goal := Asked(srcIndices[..i + 1], dstPercents);
      for j := 0 to |dstPercents|
        invariant |arguments| == |labels| == |sumSrcIndices| == |sumDstIndices| == |Asked(srcIndices[..i], dstPercents)| + j
        invariant forall k | 0 <= k < |arguments| ::
                    Recorded(lines, names, values, links, group, goal[k],
                             arguments[k], labels[k], sumSrcIndices[k], sumDstIndices[k])
        invariant j > 0 ==> HasFitting(group, links, srcIndex)
      {
        SelectQuerySound(group, links, srcIndex, dstPercents[j]);
        SelectedIsChosen(group, links, srcIndex, dstPercents[j]);
        var selected := SelectQuery(group, links, srcIndex, dstPercents[j]);
        if selected.None? {
          ok := false;
          return;
        }
        var dstIndex := selected.value;
        EligibleIsLine(links, srcIndex, dstIndex);
        var body := Body(lines, srcIndex);
        var bodyPartLen := |body| / 4;
        PartsAreTheBody(body);
        var argument := Argument(body[..bodyPartLen], body[bodyPartLen..2 * bodyPartLen],
                                 body[2 * bodyPartLen..3 * bodyPartLen], body[3 * bodyPartLen..], names[dstIndex]);
        assert goal[|arguments|] == (srcIndex, dstPercents[j]);
        arguments := arguments + [argument];
        labels := labels + [values[dstIndex]];
        sumSrcIndices := sumSrcIndices + [srcIndex];
        sumDstIndices := sumDstIndices + [dstIndex];
      }
    }
    assert srcIndices[..|srcIndices|] == srcIndices;
    RecordedAreRows(lines, names, values, links, group, srcIndices, dstPercents, arguments, labels,
                    sumSrcIndices, sumDstIndices);
  }

  lemma EligibleIsLine(links: seq<Link>, srcIndex: int, q: nat)
    requires Eligible(links, srcIndex, q)
    ensures q < |links|
  {
  }

  /** Every recorded prompt can be answered from what it shows, with its label and hops. */
  lemma RecordedIsReadable(lines: seq<Line>, redirects: seq<Target>, names: seq<string>, original: seq<string>,
                           values: seq<string>, links: seq<Link>, group: seq<nat>,
                           question: (nat, real), argument: Argument, answer: string, src: nat, dst: nat)
    requires ValidTable(redirects) && Describes(lines, redirects, names, original)
    requires |links| == |values| == |redirects|
    requires forall i | 0 <= i < |links| :: LinkOk(redirects, i, links[i])
    requires forall i, k: nat | 0 <= i < |redirects| && ReachesIn(redirects, i, k) ::
               values[i] == original[Walk(redirects, i, k)]
    requires Recorded(lines, names, values, links, group, question, argument, answer, src, dst)
    ensures links[dst].Chain?
    ensures Read(argument.Shown(), argument.asked, |lines|) == Some(Reading(links[dst].hops, answer))
  {
    hide Read, SelectQuery, LinkOk, ReachesIn, Walk;
    LabelIsReadable(lines, redirects, names, original, links, values, group, src, question.1);
    PartsAreTheBody(Body(lines, src));
  }
}
