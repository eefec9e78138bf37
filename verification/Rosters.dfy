/** Queues of identifiers, read against a table that says where everyone is: a roster lists exactly
    the identifiers whose place is the given one, each once. */
module Rosters {

  function Removed<T>(s: seq<T>, i: nat): seq<T>
    requires i < |s|
  {
    s[..i] + s[i + 1..]
  }

  ghost predicate Holds<P>(ids: seq<nat>, places: seq<P>, place: P) {
    && (forall i | 0 <= i < |ids| :: ids[i] < |places| && places[ids[i]] == place)
    && (forall i, j | 0 <= i < j < |ids| :: ids[i] != ids[j])
    && (forall c | 0 <= c < |places| && places[c] == place :: c in ids)
  }

  lemma MoveOut<P>(ids: seq<nat>, places: seq<P>, place: P, i: nat, to: P)
    requires Holds(ids, places, place) && i < |ids| && to != place
    ensures Holds(Removed(ids, i), places[ids[i] := to], place)
  {
    var after := places[ids[i] := to];
    forall c | 0 <= c < |after| && after[c] == place ensures c in Removed(ids, i) {
      var j :| 0 <= j < |ids| && ids[j] == c;
      assert Removed(ids, i)[if j < i then j else j - 1] == c;
    }
  }

  lemma MoveIn<P>(ids: seq<nat>, places: seq<P>, place: P, c: nat)
    requires Holds(ids, places, place) && c < |places| && places[c] != place
    ensures Holds(ids + [c], places[c := place], place)
  {
    var after, all := places[c := place], ids + [c];
    forall d | 0 <= d < |after| && after[d] == place ensures d in all {
      if d != c { assert d in ids; }
    }
  }

  lemma StayPut<P>(ids: seq<nat>, places: seq<P>, place: P, c: nat, to: P)
    requires Holds(ids, places, place) && c < |places| && (places[c] == place) == (to == place)
    ensures Holds(ids, places[c := to], place)
  {
  }

  lemma SomeoneAt<P>(ids: seq<nat>, places: seq<P>, place: P)
    requires Holds(ids, places, place) && ids != []
    ensures exists c | 0 <= c < |places| :: places[c] == place
  {
    assert places[ids[0]] == place;
  }

  /** First in, first out: what came in is what went out and what still waits. */
  lemma Passed(came: seq<nat>, went: seq<nat>, before: seq<nat>, after: seq<nat>, x: seq<nat>, y: seq<nat>)
    requires came == went + before && y + after == before + x
    ensures came + x == (went + y) + after
  {
    assert came + x == went + (before + x);
    assert (went + y) + after == went + (y + after);
  }
}
