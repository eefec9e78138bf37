/** Generating the lines and asking about them, end to end: what `gen_data.py` writes is what
    `bench_sglang.py` reads. */
module LineRetrieval {
  import opened LineQuery
  import opened Redirects
  import opened Wrappers

  /** What line `i` of the list says. */
  ghost function Spelled(names: seq<string>, values: seq<string>, redirects: seq<Target>, i: nat): Line
    requires ValidTable(redirects) && |names| == |values| == |redirects| && i < |redirects|
  {
    if redirects[i].Plain? then Content(names[i], values[i]) else SameAs(names[i], names[redirects[i].line])
  }

  /** The prompt shows exactly the lines up to the source, in four parts. */
  ghost predicate ShowsUpTo(names: seq<string>, values: seq<string>, redirects: seq<Target>, src: nat, argument: Argument)
    requires ValidTable(redirects) && |names| == |values| == |redirects|
  {
    var n := if src + 1 <= |redirects| then src + 1 else |redirects|;
    && argument.body0 + argument.body1 + argument.body2 + argument.body3
       == seq(n, i requires 0 <= i < n => Spelled(names, values, redirects, i))
    && |argument.body0| == |argument.body1| == |argument.body2| <= |argument.body3| <= |argument.body0| + 3
  }

  /** The line asked for needs the wanted number of hops, has its whole chain shown, and stands
      behind as many such lines as the percentage asks for. */
  ghost predicate AsksFor(redirects: seq<Target>, numHops: nat, src: nat, percent: real, dst: nat)
    requires ValidTable(redirects)
  {
    && dst < |redirects| && Suits(redirects, numHops, src, dst)
    && IsRank(SuitedBelow(redirects, numHops, src, dst), SuitedBelow(redirects, numHops, src, |redirects|), percent)
  }

  /** Whoever follows the references through the shown lines arrives at the recorded label: the
      value that the line at the end of the chain was given. */
  ghost predicate Answerable(names: seq<string>, values: seq<string>, redirects: seq<Target>, numHops: nat,
                             argument: Argument, answer: string, dst: nat)
    requires ValidTable(redirects) && |names| == |values| == |redirects|
  {
    && dst < |redirects| && numHops >= 1 && ReachesIn(redirects, dst, numHops - 1)
    && argument.asked == names[dst] && answer == values[Walk(redirects, dst, numHops - 1)]
    && Read(argument.Shown(), argument.asked, |redirects|)
       == Some(Reading(Path(redirects, dst, numHops - 1), answer))
  }

  /** The rewritten lines spell out the table. */
  lemma LinesDescribe(lines: seq<Line>, redirects: seq<Target>, names: seq<string>, values: seq<string>,
                      redirectIndices: seq<nat>, targets: seq<nat>)
    requires |lines| == |redirects| == |names| == |values| && |targets| == |redirectIndices|
    requires ValidTable(redirects) && forall i, j | 0 <= i < j < |names| :: names[i] != names[j]
    requires forall j | 0 <= j < |redirectIndices| ::
               && redirectIndices[j] < |lines| && targets[j] < |lines|
               && redirects[redirectIndices[j]] == To(targets[j])
               && lines[redirectIndices[j]] == SameAs(names[redirectIndices[j]], names[targets[j]])
    requires forall i | 0 <= i < |lines| && i !in redirectIndices ::
               redirects[i].Plain? && lines[i] == Content(names[i], values[i])
    ensures Describes(lines, redirects, names, values)
  {
    forall i | 0 <= i < |lines|
      ensures lines[i] == if redirects[i].Plain? then Content(names[i], values[i])
                          else SameAs(names[i], names[redirects[i].line])
    {
      if i in redirectIndices {
        var j :| 0 <= j < |redirectIndices| && redirectIndices[j] == i;
        assert redirects[redirectIndices[j]] == To(targets[j]);
      }
    }
  }

  /** Some line with the wanted number of hops stands before the source, with its whole chain shown. */
  ghost predicate CanAsk(redirects: seq<Target>, numHops: nat, src: nat)
    requires ValidTable(redirects)
  {
    exists q: nat :: q < |redirects| && Suits(redirects, numHops, src, q)
  }

  ghost predicate Suits(redirects: seq<Target>, numHops: nat, src: nat, q: nat)
    requires ValidTable(redirects) && q < |redirects|
  {
    && q < src && numHops >= 1 && ReachesIn(redirects, q, numHops - 1)
    && AllShown(Path(redirects, q, numHops - 1), src + 1)
  }

  /** The link of a line says how many hops it needs. */
  lemma LinkTellsHops(redirects: seq<Target>, q: nat, link: Link, k: nat)
    requires ValidTable(redirects) && q < |redirects| && LinkOk(redirects, q, link)
    ensures ReachesIn(redirects, q, k) <==> link.Chain? && |link.hops| == k
  {
    if ReachesIn(redirects, q, k) {
      ReachesIsRooted(redirects, q, k);
      ReachesInUnique(redirects, q, k, |link.hops|);
    }
  }

  /** The lines before line `n` that may be asked for. */
  ghost function SuitedBelow(redirects: seq<Target>, numHops: nat, src: nat, n: nat): nat
    requires ValidTable(redirects) && n <= |redirects|
  {
    if n == 0 then 0
    else SuitedBelow(redirects, numHops, src, n - 1) + if Suits(redirects, numHops, src, n - 1) then 1 else 0
  }

  /** The group holds the lines below `n` with the wanted number of hops, in order. */
  ghost predicate GroupBelow(group: seq<nat>, links: seq<Link>, numHops: nat, n: nat) {
    && Ascending(group)
    && forall i: nat :: i in group <==> i < n && i < |links| && links[i].Chain? && numHops == |links[i].hops| + 1
  }

  lemma FitsIsSuits(redirects: seq<Target>, links: seq<Link>, numHops: nat, src: nat, q: nat)
    requires ValidTable(redirects) && |links| == |redirects| && q < |links| && LinkOk(redirects, q, links[q])
    ensures Suits(redirects, numHops, src, q)
            <==> links[q].Chain? && numHops == |links[q].hops| + 1 && Fits(links, src, q)
  {
    hide ReachesIn, Path, Walk, AllShown;
    if numHops >= 1 {
      LinkTellsHops(redirects, q, links[q], numHops - 1);
    }
  }

  /** Counting in the group is counting among all lines. */
  lemma {:induction false} FittingIsSuited(redirects: seq<Target>, links: seq<Link>, group: seq<nat>, numHops: nat,
                                           src: nat, n: nat)
    requires ValidTable(redirects) && |links| == |redirects| && n <= |redirects|
    requires forall i | 0 <= i < |links| :: LinkOk(redirects, i, links[i])
    requires GroupBelow(group, links, numHops, n)
    ensures Fitting(group, links, src) == SuitedBelow(redirects, numHops, src, n)
    decreases n
  {
    hide LinkOk, Fits, Suits;
    if n == 0 {
      if group != [] {
        HasMember(group);
      }
    } else {
      var q := n - 1;
      assert LinkOk(redirects, q, links[q]);
      FitsIsSuits(redirects, links, numHops, src, q);
      if q in group {
        LargestIsLast(group, links, numHops, n);
        FittingIsSuited(redirects, links, group[..|group| - 1], numHops, src, q);
      } else {
        FittingIsSuited(redirects, links, group, numHops, src, q);
      }
    }
  }

  lemma HasMember(group: seq<nat>)
    requires group != []
    ensures exists i: nat :: i in group
  {
    assert group[0] in group;
  }

  lemma LargestIsLast(group: seq<nat>, links: seq<Link>, numHops: nat, n: nat)
    requires n > 0 && GroupBelow(group, links, numHops, n) && n - 1 in group
    ensures group[|group| - 1] == n - 1
    ensures GroupBelow(group[..|group| - 1], links, numHops, n - 1)
  {
    var last := |group| - 1;
    var g :| 0 <= g < |group| && group[g] == n - 1;
    assert group[last] in group;
    MembersBefore(group, links, numHops, n, last);
  }

  /** The members in front of position `g` are those below the line at `g`. */
  lemma MembersBefore(group: seq<nat>, links: seq<Link>, numHops: nat, n: nat, g: nat)
    requires GroupBelow(group, links, numHops, n) && g < |group|
    ensures GroupBelow(group[..g], links, numHops, group[g])
  {
    var front := group[..g];
    assert group[g] in group;
    forall i: nat
      ensures i in front <==> i < group[g] && i < |links| && links[i].Chain? && numHops == |links[i].hops| + 1
    {
      if i in front {
        var j :| 0 <= j < g && front[j] == i;
        assert group[j] == i && i in group;
      }
      if i < group[g] && i < |links| && links[i].Chain? && numHops == |links[i].hops| + 1 {
        assert i in group;
        var j :| 0 <= j < |group| && group[j] == i;
        assert front[j] == i;
      }
    }
  }

  lemma ChosenIsAsked(redirects: seq<Target>, links: seq<Link>, group: seq<nat>, numHops: nat, src: nat, percent: real,
                      dst: nat)
    requires ValidTable(redirects) && |links| == |redirects|
    requires forall i | 0 <= i < |links| :: LinkOk(redirects, i, links[i])
    requires GroupBelow(group, links, numHops, |redirects|)
    requires Chosen(group, links, src, percent, dst)
    ensures AsksFor(redirects, numHops, src, percent, dst) && numHops <= |redirects|
  {
    hide Fits, Suits, IsRank, Fitting, SuitedBelow;
    var g :| 0 <= g < |group| && group[g] == dst && Fits(links, src, dst)
      && IsRank(Fitting(group[..g], links, src), Fitting(group, links, src), percent);
    assert dst in group;
    FittingIsSuited(redirects, links, group, numHops, src, |redirects|);
    MembersBefore(group, links, numHops, |redirects|, g);
    FittingIsSuited(redirects, links, group[..g], numHops, src, dst);
    assert LinkOk(redirects, dst, links[dst]);
    FitsIsSuits(redirects, links, numHops, src, dst);
  }

  lemma FittingCanBeAsked(redirects: seq<Target>, links: seq<Link>, group: seq<nat>, numHops: nat, src: nat)
    requires ValidTable(redirects) && |links| == |redirects|
    requires forall i | 0 <= i < |links| :: LinkOk(redirects, i, links[i])
    requires GroupBelow(group, links, numHops, |redirects|)
    ensures HasFitting(group, links, src) <==> CanAsk(redirects, numHops, src)
  {
    hide LinkOk, Fits, Suits;
    forall q: nat | q < |redirects|
      ensures Suits(redirects, numHops, src, q) <==> q in group && Fits(links, src, q)
    {
      assert LinkOk(redirects, q, links[q]);
      FitsIsSuits(redirects, links, numHops, src, q);
    }
    if HasFitting(group, links, src) {
      var q: nat :| q in group && Fits(links, src, q);
      assert Suits(redirects, numHops, src, q);
    }
  }

  lemma RingsAgree(redirects: seq<Target>, links: seq<Link>, containsRing: set<nat>)
    requires ValidTable(redirects) && |links| == |redirects|
    requires forall i | 0 <= i < |links| :: LinkOk(redirects, i, links[i])
    requires forall i: nat :: i in containsRing <==> i < |redirects| && !Rooted(redirects, i)
    ensures forall i | 0 <= i < |links| :: links[i].Ring? <==> i in containsRing
  {
    forall i | 0 <= i < |links| ensures links[i].Ring? <==> i in containsRing {
      assert LinkOk(redirects, i, links[i]);
      if links[i].Chain? {
        ReachesIsRooted(redirects, i, |links[i].hops|);
      }
    }
  }

  lemma GroupMembers(groups: map<nat, seq<nat>>, links: seq<Link>, key: nat)
    requires forall k: nat, i: nat :: InGroup(groups, k, i)
               <==> (i < |links| && links[i].Chain? && k == |links[i].hops| + 1)
    requires forall k | k in groups :: groups[k] != [] && Ascending(groups[k])
    ensures GroupBelow(if key in groups then groups[key] else [], links, key, |links|)
  {
    var group := if key in groups then groups[key] else [];
    forall i: nat ensures i in group <==> i < |links| && links[i].Chain? && key == |links[i].hops| + 1 {
      assert InGroup(groups, key, i) <==> i in group;
    }
  }

  /** One row of the evaluation, in terms of the table alone. */
  lemma RowIsAnswerable(lines: seq<Line>, redirects: seq<Target>, names: seq<string>, original: seq<string>,
                        values: seq<string>, links: seq<Link>, group: seq<nat>, numHops: nat,
                        src: nat, percent: real, argument: Argument, answer: string, dst: nat)
    requires ValidTable(redirects) && Describes(lines, redirects, names, original)
    requires |links| == |values| == |redirects|
    requires forall i | 0 <= i < |links| :: LinkOk(redirects, i, links[i])
    requires forall i, k: nat | 0 <= i < |redirects| && ReachesIn(redirects, i, k) ::
               values[i] == original[Walk(redirects, i, k)]
    requires GroupBelow(group, links, numHops, |redirects|)
    requires Row(lines, names, values, links, group, src, percent, argument, answer, dst)
    ensures ShowsUpTo(names, original, redirects, src, argument)
    ensures AsksFor(redirects, numHops, src, percent, dst)
    ensures Answerable(names, original, redirects, numHops, argument, answer, dst)
  {
    SameLengths(lines, redirects, names, original);
    hide LinkOk, GroupBelow, Chosen, AsksFor, ShowsUpTo, Answerable, Describes, ReachesIn, Walk;
    ChosenIsAsked(redirects, links, group, numHops, src, percent, dst);
    RowShows(lines, redirects, names, original, src, argument);
    AskedIsAnswerable(lines, redirects, names, original, values, numHops, src, percent, argument, answer, dst);
  }

  lemma SameLengths(lines: seq<Line>, redirects: seq<Target>, names: seq<string>, original: seq<string>)
    requires ValidTable(redirects) && Describes(lines, redirects, names, original)
    ensures |lines| == |redirects| == |names| == |original|
  {
  }

  lemma RowShows(lines: seq<Line>, redirects: seq<Target>, names: seq<string>, original: seq<string>,
                 src: nat, argument: Argument)
    requires ValidTable(redirects) && Describes(lines, redirects, names, original)
    requires argument.body0 + argument.body1 + argument.body2 + argument.body3
             == lines[..if src + 1 <= |lines| then src + 1 else |lines|]
    requires |argument.body0| == |argument.body1| == |argument.body2| <= |argument.body3| <= |argument.body0| + 3
    ensures ShowsUpTo(names, original, redirects, src, argument)
  {
    var n := if src + 1 <= |redirects| then src + 1 else |redirects|;
    assert lines[..n] == seq(n, i requires 0 <= i < n => Spelled(names, original, redirects, i));
  }

  lemma AskedIsAnswerable(lines: seq<Line>, redirects: seq<Target>, names: seq<string>, original: seq<string>,
                          values: seq<string>, numHops: nat, src: nat, percent: real, argument: Argument,
                          answer: string, dst: nat)
    requires ValidTable(redirects) && Describes(lines, redirects, names, original)
    requires |lines| == |redirects| == |names| == |original| == |values|
    requires forall i, k: nat | 0 <= i < |redirects| && ReachesIn(redirects, i, k) ::
               values[i] == original[Walk(redirects, i, k)]
    requires argument.body0 + argument.body1 + argument.body2 + argument.body3
             == lines[..if src + 1 <= |lines| then src + 1 else |lines|]
    requires AsksFor(redirects, numHops, src, percent, dst) && numHops <= |redirects|
    requires argument.asked == names[dst] && answer == values[dst]
    ensures Answerable(names, original, redirects, numHops, argument, answer, dst)
  {
    hide Read, ReachesIn, Walk, Path, IsRank, SuitedBelow, Describes;
    SuitedReads(lines, redirects, names, original, numHops, src, dst);
    assert ReachesIn(redirects, dst, numHops - 1);
  }

  lemma SuitedReads(lines: seq<Line>, redirects: seq<Target>, names: seq<string>, original: seq<string>,
                    numHops: nat, src: nat, dst: nat)
    requires ValidTable(redirects) && Describes(lines, redirects, names, original)
    requires dst < |redirects| && numHops <= |redirects| && Suits(redirects, numHops, src, dst)
    ensures |lines| == |redirects| == |names| == |original|
    ensures Read(lines[..if src + 1 <= |lines| then src + 1 else |lines|], names[dst], |redirects|)
            == Some(Reading(Path(redirects, dst, numHops - 1), original[Walk(redirects, dst, numHops - 1)]))
  {
    hide Read, ReachesIn, Walk, Path;
    var n := if src + 1 <= |redirects| then src + 1 else |redirects|;
    MoreShown(Path(redirects, dst, numHops - 1), redirects, dst, numHops - 1, src + 1, n);
    ShownChainIsRead(lines, redirects, names, original, n, dst, numHops - 1, |redirects|);
  }

  /** Hops stay within the lines there are. */
  lemma MoreShown(hops: seq<nat>, redirects: seq<Target>, q: nat, k: nat, shown: nat, n: nat)
    requires ValidTable(redirects) && q < |redirects| && hops == Path(redirects, q, k) && AllShown(hops, shown)
    requires n == if shown <= |redirects| then shown else |redirects|
    ensures AllShown(hops, n)
  {
  }

  /** Names that are all different, any values, any redirects: every label that is recorded can be
      read from its prompt. `ok` is false where the Python code raises an index or key error, and it
      does so exactly when something is asked that no line of the group can answer. */
  method GenerateAndEvaluate(names: seq<string>, values: seq<string>, redirectIndices: seq<nat>, targets: seq<nat>,
                             numHops: nat, srcIndices: seq<nat>, dstPercents: seq<real>)
    returns (ok: bool, arguments: seq<Argument>, labels: seq<string>, sumSrcIndices: seq<nat>, sumDstIndices: seq<nat>,
             ghost table: seq<Target>)
    requires |names| == |values| && |targets| == |redirectIndices|
    requires forall i, j | 0 <= i < j < |names| :: names[i] != names[j]
    requires forall j | 0 <= j < |redirectIndices| :: redirectIndices[j] < |names| && targets[j] < |names|
    requires forall i, j | 0 <= i < j < |redirectIndices| :: redirectIndices[i] != redirectIndices[j]
    requires forall j | 0 <= j < |dstPercents| :: dstPercents[j] >= 0.0
    ensures |table| == |names| && ValidTable(table)
    ensures forall j | 0 <= j < |redirectIndices| :: table[redirectIndices[j]] == To(targets[j])
    ensures forall i | 0 <= i < |names| && i !in redirectIndices :: table[i] == Plain
    ensures ok <==> dstPercents == [] || forall i | 0 <= i < |srcIndices| :: CanAsk(table, numHops, srcIndices[i])
    ensures ok ==> |arguments| == |labels| == |sumSrcIndices| == |sumDstIndices| == |srcIndices| * |dstPercents|
    ensures ok ==> forall i, j | 0 <= i < |srcIndices| && 0 <= j < |dstPercents| ::
              var k := RowIndex(i, j, |dstPercents|);
              && k < |arguments| && sumSrcIndices[k] == srcIndices[i]
              && ShowsUpTo(names, values, table, srcIndices[i], arguments[k])
              && AsksFor(table, numHops, srcIndices[i], dstPercents[j], sumDstIndices[k])
              && Answerable(names, values, table, numHops, arguments[k], labels[k], sumDstIndices[k])
  {
    hide Describes, LinkOk, ReachesIn, Walk, Path, Read, Answerable, Recorded, HasFitting, InGroup, Asked, CanAsk,
         GroupBelow, Row, RowIndex, ShowsUpTo, AsksFor;
    var lines := new Line[|names|](i requires 0 <= i < |names| => Content(names[i], values[i]));
    var redirects := new Target[|names|](_ => Plain);
    AssignRedirects(lines, redirects, names, redirectIndices, targets);
    table := redirects[..];
    LinesDescribe(lines[..], table, names, values, redirectIndices, targets);
    var resolved := new string[|names|](i requires 0 <= i < |names| => values[i]);
    assert resolved[..] == values;
    var links, containsRing := BuildLinks(redirects[..], resolved);
    RingsAgree(table, links, containsRing);
    var groups := GroupByHops(links, containsRing);
    var group := if numHops in groups then groups[numHops] else [];
    GroupMembers(groups, links, numHops);
    forall i | 0 <= i < |srcIndices|
      ensures HasFitting(group, links, srcIndices[i]) <==> CanAsk(table, numHops, srcIndices[i])
    {
      FittingCanBeAsked(table, links, group, numHops, srcIndices[i]);
    }
    ok, arguments, labels, sumSrcIndices, sumDstIndices :=
      EvalModel(lines[..], names, resolved[..], links, group, srcIndices, dstPercents);
    if ok {
      forall i, j | 0 <= i < |srcIndices| && 0 <= j < |dstPercents|
        ensures var k := RowIndex(i, j, |dstPercents|);
                && k < |arguments| && sumSrcIndices[k] == srcIndices[i]
                && ShowsUpTo(names, values, table, srcIndices[i], arguments[k])
                && AsksFor(table, numHops, srcIndices[i], dstPercents[j], sumDstIndices[k])
                && Answerable(names, values, table, numHops, arguments[k], labels[k], sumDstIndices[k])
      {
        var k := RowIndex(i, j, |dstPercents|);
        RowIsAnswerable(lines[..], table, names, values, resolved[..], links, group, numHops,
                        srcIndices[i], dstPercents[j], arguments[k], labels[k], sumDstIndices[k]);
      }
    }
  }
}
