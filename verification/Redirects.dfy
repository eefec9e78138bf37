/** Lines that refer to other lines: following the references, finding the rings among them, and
    grouping the rest by the number of hops to a plain line. */
module Redirects {

  datatype Target = Plain | To(line: nat)

  ghost predicate ValidTable(redirects: seq<Target>) {
    forall i | 0 <= i < |redirects| && redirects[i].To? :: redirects[i].line < |redirects|
  }

  // ---- the meaning of a table -------------------------------------------------------------------

  ghost function Hop(redirects: seq<Target>, i: nat): (j: nat)
    requires ValidTable(redirects) && i < |redirects|
    ensures j < |redirects|
  {
    if redirects[i].Plain? then i else redirects[i].line
  }

  /** The line that `k` hops lead to; a plain line leads to itself. */
  ghost function Walk(redirects: seq<Target>, i: nat, k: nat): (j: nat)
    requires ValidTable(redirects) && i < |redirects|
    ensures j < |redirects|
  {
    if k == 0 then i else Hop(redirects, Walk(redirects, i, k - 1))
  }

  /** Line `i` needs exactly `k` hops to a plain line. */
  ghost predicate ReachesIn(redirects: seq<Target>, i: nat, k: nat)
    requires ValidTable(redirects) && i < |redirects|
  {
    && redirects[Walk(redirects, i, k)].Plain?
    && forall j: nat | j < k :: redirects[Walk(redirects, i, j)].To?
  }

  ghost predicate Rooted(redirects: seq<Target>, i: nat)
    requires ValidTable(redirects) && i < |redirects|
  {
    exists k: nat :: redirects[Walk(redirects, i, k)].Plain?
  }

  /** The lines visited by the first `k` hops from `i`. */
  ghost function Path(redirects: seq<Target>, i: nat, k: nat): seq<nat>
    requires ValidTable(redirects) && i < |redirects|
  {
    seq(k, j requires 0 <= j => Walk(redirects, i, j + 1))
  }

  lemma {:induction false} WalkCompose(redirects: seq<Target>, i: nat, k: nat, m: nat)
    requires ValidTable(redirects) && i < |redirects|
    ensures Walk(redirects, i, k + m) == Walk(redirects, Walk(redirects, i, k), m)
  {
    if m > 0 {
      WalkCompose(redirects, i, k, m - 1);
    }
  }

  /** A plain line is never left. */
  lemma {:induction false} PlainStays(redirects: seq<Target>, i: nat, m: nat)
    requires ValidTable(redirects) && i < |redirects| && redirects[i].Plain?
    ensures Walk(redirects, i, m) == i
  {
    if m > 0 {
      PlainStays(redirects, i, m - 1);
    }
  }

  /** The number of hops, and so the root and the path, are unique. */
  lemma ReachesInUnique(redirects: seq<Target>, i: nat, k: nat, l: nat)
    requires ValidTable(redirects) && i < |redirects|
    requires ReachesIn(redirects, i, k) && ReachesIn(redirects, i, l)
    ensures k == l
  {
  }

  /** A line comes back to where it was: from there on it only repeats itself. */
  lemma {:induction false} RingRepeats(redirects: seq<Target>, i: nat, j: nat, k: nat, m: nat)
    requires ValidTable(redirects) && i < |redirects|
    requires j < k && Walk(redirects, i, k) == Walk(redirects, i, j)
    ensures exists l: nat :: l < k && Walk(redirects, i, m) == Walk(redirects, i, l)
    decreases m
  {
    if m >= k {
      WalkCompose(redirects, i, k, m - k);
      WalkCompose(redirects, i, j, m - k);
      assert Walk(redirects, i, m) == Walk(redirects, i, j + (m - k));
      RingRepeats(redirects, i, j, k, j + (m - k));
    }
  }

  lemma RingNeverReaches(redirects: seq<Target>, i: nat, j: nat, k: nat)
    requires ValidTable(redirects) && i < |redirects|
    requires j < k && Walk(redirects, i, k) == Walk(redirects, i, j)
    requires forall l: nat | l < k :: redirects[Walk(redirects, i, l)].To?
    ensures !Rooted(redirects, i)
  {
    forall m: nat ensures redirects[Walk(redirects, i, m)].To? {
      RingRepeats(redirects, i, j, k, m);
    }
  }

  /** On the way to a plain line no line is met twice. */
  lemma NoRepetition(redirects: seq<Target>, i: nat, k: nat)
    requires ValidTable(redirects) && i < |redirects| && ReachesIn(redirects, i, k)
    ensures forall j: nat, l: nat | j < l <= k :: Walk(redirects, i, j) != Walk(redirects, i, l)
  {
    forall j: nat, l: nat | j < l <= k ensures Walk(redirects, i, j) != Walk(redirects, i, l) {
      if Walk(redirects, i, j) == Walk(redirects, i, l) {
        RingNeverReaches(redirects, i, j, l);
      }
    }
  }

  // ---- building the table -------------------------------------------------------------------------

  /** What a line of the list says, by name. */
  datatype Line = Content(name: string, value: string) | SameAs(name: string, target: string)

  /** Turns the chosen lines into references; `targets` are the random choices, one per line. */
  method AssignRedirects(lines: array<Line>, redirects: array<Target>, indices: seq<string>,
                         redirectIndices: seq<nat>, targets: seq<nat>)
    requires lines.Length == redirects.Length == |indices| && |targets| == |redirectIndices|
    requires forall j | 0 <= j < |redirectIndices| ::
               redirectIndices[j] < lines.Length && targets[j] < lines.Length
    requires forall i, j | 0 <= i < j < |redirectIndices| :: redirectIndices[i] != redirectIndices[j]
    requires forall i | 0 <= i < redirects.Length :: redirects[i].Plain?
    modifies lines, redirects
    ensures ValidTable(redirects[..])
    ensures forall j | 0 <= j < |redirectIndices| ::
              && redirects[redirectIndices[j]] == To(targets[j])
              && lines[redirectIndices[j]] == SameAs(indices[redirectIndices[j]], indices[targets[j]])
    ensures forall i | 0 <= i < lines.Length && i !in redirectIndices ::
              redirects[i].Plain? && lines[i] == old(lines[i])
  {
    for k := 0 to |redirectIndices|
      invariant ValidTable(redirects[..])
      invariant forall j | 0 <= j < k ::
                  && redirects[redirectIndices[j]] == To(targets[j])
                  && lines[redirectIndices[j]] == SameAs(indices[redirectIndices[j]], indices[targets[j]])
      invariant forall i | 0 <= i < lines.Length && i !in redirectIndices[..k] ::
                  redirects[i].Plain? && lines[i] == old(lines[i])
    {
      var i := redirectIndices[k];
      lines[i] := SameAs(indices[i], indices[targets[k]]);
      redirects[i] := To(targets[k]);
      assert redirectIndices[..k + 1] == redirectIndices[..k] + [i];
    }
  }

  // ---- following the references -------------------------------------------------------------------

  /** `None` is a ring. */
  datatype Link = Ring | Chain(hops: seq<nat>)

  /** What has to hold of the link of line `i`. */
  ghost predicate LinkOk(redirects: seq<Target>, i: nat, link: Link)
    requires ValidTable(redirects) && i < |redirects|
  {
    match link
    case Ring => !Rooted(redirects, i)
    case Chain(hops) =>
      && ReachesIn(redirects, i, |hops|) && hops == Path(redirects, i, |hops|)
      && |hops| < |redirects|
  }

  /** The first `k` lines of the walk from `i` all refer to others, are all different, and are
      the lines visited so far. */
  ghost predicate OnTheWay(redirects: seq<Target>, i: nat, k: nat, visited: set<nat>)
    requires ValidTable(redirects) && i < |redirects|
  {
    && (forall j: nat | j < k :: redirects[Walk(redirects, i, j)].To? && Walk(redirects, i, j) in visited)
    && (forall v | v in visited :: v < |redirects| && exists j: nat :: j < k && Walk(redirects, i, j) == v)
    && |visited| == k
  }

  lemma Advance(redirects: seq<Target>, i: nat, k: nat, visited: set<nat>)
    requires ValidTable(redirects) && i < |redirects| && OnTheWay(redirects, i, k, visited)
    requires redirects[Walk(redirects, i, k)].To? && Walk(redirects, i, k) !in visited
    ensures OnTheWay(redirects, i, k + 1, visited + {Walk(redirects, i, k)})
    ensures Path(redirects, i, k + 1) == Path(redirects, i, k) + [redirects[Walk(redirects, i, k)].line]
    ensures Walk(redirects, i, k + 1) == redirects[Walk(redirects, i, k)].line
    ensures k + 1 <= |redirects|
  {
    var visited' := visited + {Walk(redirects, i, k)};
    forall v | v in visited' ensures v < |redirects| && exists j: nat :: j < k + 1 && Walk(redirects, i, j) == v {
      if v in visited {
        var j: nat :| j < k && Walk(redirects, i, j) == v;
      }
    }
    Pigeons(visited', |redirects|);
  }

  lemma Returned(redirects: seq<Target>, i: nat, k: nat, visited: set<nat>)
    requires ValidTable(redirects) && i < |redirects| && OnTheWay(redirects, i, k, visited)
    requires Walk(redirects, i, k) in visited
    ensures !Rooted(redirects, i)
  {
    var j: nat :| j < k && Walk(redirects, i, j) == Walk(redirects, i, k);
    RingNeverReaches(redirects, i, j, k);
  }

  /** A line that is plain is not among the visited ones, so fewer hops than lines were needed. */
  lemma Arrived(redirects: seq<Target>, i: nat, k: nat, visited: set<nat>)
    requires ValidTable(redirects) && i < |redirects| && OnTheWay(redirects, i, k, visited)
    requires redirects[Walk(redirects, i, k)].Plain?
    ensures LinkOk(redirects, i, Chain(Path(redirects, i, k)))
  {
    if Walk(redirects, i, k) in visited {
      Returned(redirects, i, k, visited);
      assert Rooted(redirects, i);
    }
    Pigeons(visited + {Walk(redirects, i, k)}, |redirects|);
  }

  /** The chase from one line: at most one hop per line of the table. */
  method Chase(redirects: seq<Target>, i: nat) returns (link: Link, cur: nat)
    requires ValidTable(redirects) && i < |redirects|
    ensures LinkOk(redirects, i, link) && cur < |redirects|
    ensures link.Chain? ==> cur == Walk(redirects, i, |link.hops|)
  {
    hide OnTheWay, Path, LinkOk, Rooted;
    var tmpLink := [];
    cur := i;
    var visited: set<nat> := {};
    StartOfWalk(redirects, i);
    while redirects[cur].To?
      invariant cur < |redirects| && cur == Walk(redirects, i, |tmpLink|) && cur !in visited
      invariant tmpLink == Path(redirects, i, |tmpLink|)
      invariant OnTheWay(redirects, i, |tmpLink|, visited) && |tmpLink| <= |redirects|
      decreases |redirects| - |tmpLink|
    {
      Advance(redirects, i, |tmpLink|, visited);
      visited := visited + {cur};
      tmpLink := tmpLink + [redirects[cur].line];
      cur := redirects[cur].line;
      if cur in visited {
        Returned(redirects, i, |tmpLink|, visited);
        RingLink(redirects, i);
        return Ring, cur;
      }
    }
    Arrived(redirects, i, |tmpLink|, visited);
    return Chain(tmpLink), cur;
  }

  lemma StartOfWalk(redirects: seq<Target>, i: nat)
    requires ValidTable(redirects) && i < |redirects|
    ensures OnTheWay(redirects, i, 0, {}) && Path(redirects, i, 0) == []
  {
  }

  lemma RingLink(redirects: seq<Target>, i: nat)
    requires ValidTable(redirects) && i < |redirects| && !Rooted(redirects, i)
    ensures LinkOk(redirects, i, Ring)
  {
  }

  lemma ReachesIsRooted(redirects: seq<Target>, i: nat, k: nat)
    requires ValidTable(redirects) && i < |redirects| && ReachesIn(redirects, i, k)
    ensures Rooted(redirects, i)
  {
    assert redirects[Walk(redirects, i, k)].Plain?;
  }

  /** There are at most `n` numbers below `n`. */
  lemma {:induction false} Pigeons(s: set<nat>, n: nat)
    requires forall v | v in s :: v < n
    ensures |s| <= n
  {
    if n == 0 {
      assert s == {};
    } else {
      Pigeons(s - {n - 1}, n - 1);
    }
  }

  /** All lines in turn. The values are resolved in place: by the time a value is read, its line may
      have been overwritten, but plain lines never are. */
  method BuildLinks(redirects: seq<Target>, values: array<string>)
    returns (links: seq<Link>, containsRing: set<nat>)
    requires ValidTable(redirects) && values.Length == |redirects|
    modifies values
    ensures |links| == |redirects|
    ensures forall i | 0 <= i < |links| :: LinkOk(redirects, i, links[i])
    ensures forall i: nat :: i in containsRing <==> i < |redirects| && !Rooted(redirects, i)
    ensures forall i, k: nat | 0 <= i < |redirects| && ReachesIn(redirects, i, k) ::
              values[i] == old(values[Walk(redirects, i, k)])
  {
    links := seq(|redirects|, _ => Chain([]));
    containsRing := {};
    for i := 0 to |redirects|
      invariant |links| == |redirects|
      invariant forall j | 0 <= j < i :: LinkOk(redirects, j, links[j])
      invariant forall j | i <= j < |links| :: links[j] == Chain([])
      invariant forall j: nat :: j in containsRing <==> j < i && !Rooted(redirects, j)
      invariant forall j | 0 <= j < |redirects| && (redirects[j].Plain? || i <= j) :: values[j] == old(values[j])
      invariant forall j, k: nat | 0 <= j < i && ReachesIn(redirects, j, k) ::
                  values[j] == old(values[Walk(redirects, j, k)])
    {
      if redirects[i].Plain? {
        assert ReachesIn(redirects, i, 0) && Path(redirects, i, 0) == [];
        assert LinkOk(redirects, i, links[i]);
        forall k: nat | ReachesIn(redirects, i, k) ensures k == 0 {
          ReachesInUnique(redirects, i, k, 0);
        }
        assert redirects[Walk(redirects, i, 0)].Plain?;
        continue;
      }
      var link, cur := Chase(redirects, i);
      if link.Ring? {
        containsRing := containsRing + {i};
        forall k: nat | ReachesIn(redirects, i, k) ensures false {
          ReachesIsRooted(redirects, i, k);
        }
      } else {
        assert redirects[Walk(redirects, i, |link.hops|)].Plain?;
        forall k: nat | ReachesIn(redirects, i, k) ensures k == |link.hops| {
          ReachesInUnique(redirects, i, k, |link.hops|);
        }
      }
      values[i] := values[cur];
      links := links[i := link];
    }
  }

  /** One line has been processed: a reference takes over a value, a plain line keeps its own. */
  ghost predicate Processed(redirects: seq<Target>, before: seq<string>, after: seq<string>, i: nat)
    requires ValidTable(redirects) && i < |redirects| == |before|
  {
    if redirects[i].Plain? then after == before
    else
      && |after| == |before|
      && (forall j | 0 <= j < |after| && j != i :: after[j] == before[j])
      && (forall k: nat | ReachesIn(redirects, i, k) :: after[i] == before[Walk(redirects, i, k)])
  }

  /** The values do not depend on the order in which the lines are processed: whatever came before,
      a processed line that is on no ring has the original value of its root. */
  lemma {:induction false} AnyOrder(redirects: seq<Target>, order: seq<nat>, states: seq<seq<string>>, i: nat, k: nat)
    requires ValidTable(redirects) && i < |redirects| && ReachesIn(redirects, i, k)
    requires |states| == |order| + 1 && |states[0]| == |redirects|
    requires forall t | 0 <= t < |order| :: order[t] < |redirects| && |states[t]| == |redirects|
               && Processed(redirects, states[t], states[t + 1], order[t])
    ensures |states[|order|]| == |redirects|
    ensures states[|order|][i] == if i in order then states[0][Walk(redirects, i, k)] else states[0][i]
    decreases |order|
  {
    if order != [] {
      var n := |order| - 1;
      var root := Walk(redirects, i, k);
      AnyOrder(redirects, order[..n], states[..n + 1], i, k);
      assert order == order[..n] + [order[n]];
      assert ReachesIn(redirects, root, 0);
      AnyOrder(redirects, order[..n], states[..n + 1], root, 0);
      assert Processed(redirects, states[n], states[n + 1], order[n]);
      if order[n] == i && redirects[i].Plain? {
        PlainStays(redirects, i, k);
      }
    }
  }

  // ---- grouping -------------------------------------------------------------------------------------

  ghost predicate Ascending(s: seq<nat>) {
    forall i, j | 0 <= i < j < |s| :: s[i] < s[j]
  }

  ghost predicate InGroup(groups: map<nat, seq<nat>>, key: nat, i: nat) {
    key in groups && i in groups[key]
  }

  /** The groups partition the lines that are on no ring, by the length of their chain. */
  method GroupByHops(links: seq<Link>, containsRing: set<nat>) returns (groups: map<nat, seq<nat>>)
    requires forall i | 0 <= i < |links| :: links[i].Ring? <==> i in containsRing
    ensures forall key: nat, i: nat :: InGroup(groups, key, i)
              <==> (i < |links| && links[i].Chain? && key == |links[i].hops| + 1)
    ensures forall key | key in groups :: groups[key] != [] && Ascending(groups[key])
  {
    groups := map[];
    for i := 0 to |links|
      invariant forall key: nat, j: nat :: InGroup(groups, key, j)
                  <==> (j < i && links[j].Chain? && key == |links[j].hops| + 1)
      invariant forall key | key in groups :: groups[key] != [] && Ascending(groups[key])
    {
      if i in containsRing {
        continue;
      }
      var key: nat := |links[i].hops| + 1;
      var group := if key in groups then groups[key] else [];
      forall j | 0 <= j < |group| ensures group[j] < i {
        assert InGroup(groups, key, group[j]);
      }
      ghost var before := groups;
      groups := groups[key := group + [i]];
      forall l: nat, j: nat
        ensures InGroup(groups, l, j) <==> InGroup(before, l, j) || (l == key && j == i)
      {
      }
    }
  }
}
