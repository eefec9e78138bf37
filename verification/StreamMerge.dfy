/** Overlap-trimming stream merge (python/sglang/utils.py). */
module StreamMerge {
  import opened Splitting

  predicate EndsWith(s: string, suffix: string) {
    |suffix| <= |s| && s[|s| - |suffix|..] == suffix
  }

  /** A string that begins with one text and ends with another. */
  predicate Bridges(t: string, existing: string, chunk: string) {
    existing <= t && EndsWith(t, chunk)
  }

  function Least(a: nat, b: nat): nat {
    if a <= b then a else b
  }

  /** The largest i <= bound for which the first i characters of chunk end the existing text. */
  function Overlap(existing: string, chunk: string, bound: nat): (i: nat)
    requires bound <= |existing| && bound <= |chunk|
    ensures i <= bound && EndsWith(existing, chunk[..i])
    ensures forall j :: i < j <= bound ==> !EndsWith(existing, chunk[..j])
  {
    if EndsWith(existing, chunk[..bound]) then bound else Overlap(existing, chunk, bound - 1)
  }

  function Trimmed(existing: string, chunk: string): string {
    chunk[Overlap(existing, chunk, Least(|existing|, |chunk|))..]
  }

  function Merge(existing: string, chunk: string): string {
    existing + Trimmed(existing, chunk)
  }

  method TrimOverlap(existingText: string, newChunk: string) returns (rest: string)
    ensures rest == Trimmed(existingText, newChunk)
    ensures EndsWith(newChunk, rest)
    ensures Bridges(existingText + rest, existingText, newChunk)
    ensures forall t :: Bridges(t, existingText, newChunk) ==> |existingText + rest| <= |t|
  {
    var maxOverlap := 0;
    var maxPossible := Least(|existingText|, |newChunk|);
    var i := maxPossible;
    while i > 0
      invariant 0 <= i <= maxPossible
      invariant forall j :: i < j <= maxPossible ==> !EndsWith(existingText, newChunk[..j])
      invariant maxOverlap == 0
    {
      if EndsWith(existingText, newChunk[..i]) {
        maxOverlap := i;
        break;
      }
      i := i - 1;
    }
    rest := newChunk[maxOverlap..];
    MergeBridges(existingText, newChunk);
    forall t | Bridges(t, existingText, newChunk) ensures |existingText + rest| <= |t| {
      MergeIsShortest(existingText, newChunk, t);
    }
  }

  lemma MergeBridges(existing: string, chunk: string)
    ensures Bridges(Merge(existing, chunk), existing, chunk)
  {
    var i := Overlap(existing, chunk, Least(|existing|, |chunk|));
    var merged := Merge(existing, chunk);
    assert merged[|merged| - |chunk|..] == existing[|existing| - i..] + chunk[i..];
  }

  /** No string that begins with the existing text and ends with the chunk is shorter than the
      merge, and the merge is the only one of its length. */
  lemma MergeIsShortest(existing: string, chunk: string, t: string)
    requires Bridges(t, existing, chunk)
    ensures |Merge(existing, chunk)| <= |t|
    ensures |t| == |Merge(existing, chunk)| ==> t == Merge(existing, chunk)
  {
    var least := Least(|existing|, |chunk|);
    var i := Overlap(existing, chunk, least);
    var start := |t| - |chunk|;
    if |t| < |existing| + |chunk| {
      var j := |existing| - start;
      if j <= least {
        assert existing[start..] == t[start..|existing|] == chunk[..j];
      }
    }
    if |t| == |existing| + |chunk| - i {
      assert t == t[..|existing|] + t[|existing|..];
      assert t[|existing|..] == t[start..][i..];
    }
  }

  /** What a stream of chunks merges to. */
  function Merged(chunks: seq<string>): string {
    if chunks == [] then "" else Merge(Merged(chunks[..|chunks| - 1]), chunks[|chunks| - 1])
  }

  function Concat(pieces: seq<string>): string {
    if pieces == [] then "" else Concat(pieces[..|pieces| - 1]) + pieces[|pieces| - 1]
  }

  method StreamAndMerge(chunks: seq<string>) returns (finalText: string)
    ensures finalText == Merged(chunks)
    ensures forall k :: 0 <= k < |chunks| ==> Contains(finalText, chunks[k])
  {
    finalText := "";
    for k := 0 to |chunks|
      invariant finalText == Merged(chunks[..k])
    {
      var cleaned := TrimOverlap(finalText, chunks[k]);
      finalText := finalText + cleaned;
      assert chunks[..k + 1][..k] == chunks[..k];
    }
    assert chunks[..|chunks|] == chunks;
    forall k | 0 <= k < |chunks| ensures Contains(finalText, chunks[k]) {
      EveryChunkOccurs(chunks, k);
    }
  }

  /** The pieces the asynchronous form yields, one for each chunk. */
  function Yielded(chunks: seq<string>): (pieces: seq<string>)
    ensures |pieces| == |chunks|
  {
    if chunks == [] then [] else
      var last := |chunks| - 1;
      Yielded(chunks[..last]) + [Trimmed(Merged(chunks[..last]), chunks[last])]
  }

  method AsyncStreamAndMerge(chunks: seq<string>) returns (pieces: seq<string>)
    ensures pieces == Yielded(chunks)
    ensures Concat(pieces) == Merged(chunks)
  {
    hide Trimmed, Merged, Yielded, Concat;
    pieces := [];
    var finalText := "";
    NothingYet();
    for k := 0 to |chunks|
      invariant pieces == Yielded(chunks[..k]) && finalText == Merged(chunks[..k])
    {
      OneMore(chunks, k);
      var cleaned := TrimOverlap(finalText, chunks[k]);
      finalText := finalText + cleaned;
      pieces := pieces + [cleaned];
    }
    assert chunks[..|chunks|] == chunks;
    AllAddUp(chunks);
  }

  lemma NothingYet()
    ensures Yielded([]) == [] && Merged([]) == ""
  {
  }

  lemma OneMore(chunks: seq<string>, k: nat)
    requires k < |chunks|
    ensures var before := Merged(chunks[..k]);
            && Merged(chunks[..k + 1]) == before + Trimmed(before, chunks[k])
            && Yielded(chunks[..k + 1]) == Yielded(chunks[..k]) + [Trimmed(before, chunks[k])]
  {
    hide Trimmed;
    var upTo := chunks[..k + 1];
    assert upTo[..k] == chunks[..k] && upTo[k] == chunks[k];
  }

  lemma {:induction false} AllAddUp(chunks: seq<string>)
    ensures Concat(Yielded(chunks)) == Merged(chunks)
  {
    hide Trimmed;
    if chunks != [] {
      var last := |chunks| - 1;
      AllAddUp(chunks[..last]);
      assert Yielded(chunks)[..last] == Yielded(chunks[..last]);
    }
  }

  lemma {:induction false} YieldedPrefix(chunks: seq<string>, k: nat)
    requires k <= |chunks|
    ensures Yielded(chunks)[..k] == Yielded(chunks[..k])
  {
    hide Trimmed, Merged;
    if k == |chunks| {
      assert chunks[..k] == chunks;
    } else {
      var last := |chunks| - 1;
      YieldedPrefix(chunks[..last], k);
      assert chunks[..last][..k] == chunks[..k];
      assert Yielded(chunks)[..k] == Yielded(chunks[..last])[..k];
    }
  }

  /** At every yield the pieces handed out so far add up to what has been merged so far. */
  lemma PiecesAddUp(chunks: seq<string>, k: nat)
    requires k <= |chunks|
    ensures Concat(Yielded(chunks)[..k]) == Merged(chunks[..k])
  {
    hide Yielded, Merged, Concat;
    YieldedPrefix(chunks, k);
    AllAddUp(chunks[..k]);
  }

  /** Each chunk makes the text no longer than it must: to what was there it adds the least that
      makes the chunk its end. */
  lemma MergedIsShortest(chunks: seq<string>, k: nat, t: string)
    requires k < |chunks|
    ensures Bridges(Merged(chunks[..k + 1]), Merged(chunks[..k]), chunks[k])
    ensures Bridges(t, Merged(chunks[..k]), chunks[k]) ==> |Merged(chunks[..k + 1])| <= |t|
    ensures Merged([]) == ""
  {
    hide Trimmed, Merged, Yielded, Bridges;
    NothingYet();
    OneMore(chunks, k);
    MergeBridges(Merged(chunks[..k]), chunks[k]);
    if Bridges(t, Merged(chunks[..k]), chunks[k]) {
      MergeIsShortest(Merged(chunks[..k]), chunks[k], t);
    }
  }

  /** Text once merged is never retracted. */
  lemma {:induction false} MergedGrows(chunks: seq<string>, k: nat)
    requires k <= |chunks|
    ensures Merged(chunks[..k]) <= Merged(chunks)
  {
    if k == |chunks| {
      assert chunks[..k] == chunks;
    } else {
      var last := |chunks| - 1;
      MergedGrows(chunks[..last], k);
      assert chunks[..last][..k] == chunks[..k];
      MergeBridges(Merged(chunks[..last]), chunks[last]);
    }
  }

  lemma EveryChunkOccurs(chunks: seq<string>, k: nat)
    requires k < |chunks|
    ensures Contains(Merged(chunks), chunks[k])
  {
    hide Overlap, Trimmed, Merge;
    MergedGrows(chunks, k + 1);
    assert chunks[..k + 1][..k] == chunks[..k];
    MergeBridges(Merged(chunks[..k]), chunks[k]);
    EndStaysInside(Merged(chunks[..k + 1]), chunks[k], Merged(chunks));
  }

  lemma EndStaysInside(s: string, part: string, longer: string)
    requires EndsWith(s, part) && s <= longer
    ensures Contains(longer, part)
  {
    assert longer[|s| - |part|..|s|] == part;
    assert At(longer, part, |s| - |part|);
  }

  predicate Cumulative(chunks: seq<string>) {
    forall k :: 0 < k < |chunks| ==> chunks[k - 1] <= chunks[k]
  }

  lemma {:induction false} CumulativeStream(chunks: seq<string>)
    requires Cumulative(chunks) && chunks != []
    ensures Merged(chunks) == chunks[|chunks| - 1]
  {
    var last := |chunks| - 1;
    var chunk := chunks[last];
    var before := Merged(chunks[..last]);
    if last > 0 {
      CumulativeStream(chunks[..last]);
      assert before == chunks[last - 1] <= chunk;
    }
    assert EndsWith(before, chunk[..|before|]);
  }

  /** No beginning of the chunk ends the existing text. */
  predicate Fresh(existing: string, chunk: string) {
    forall i :: 0 < i <= |chunk| ==> !EndsWith(existing, chunk[..i])
  }

  predicate Seamless(chunks: seq<string>) {
    forall k :: 0 <= k < |chunks| ==> Fresh(Merged(chunks[..k]), chunks[k])
  }

  lemma FreshIsAppended(existing: string, chunk: string)
    ensures |Merge(existing, chunk)| <= |existing| + |chunk|
    ensures |Merge(existing, chunk)| == |existing| + |chunk| <==> Fresh(existing, chunk)
    ensures Merge(existing, chunk) == existing + chunk <==> Fresh(existing, chunk)
  {
    var i := Overlap(existing, chunk, Least(|existing|, |chunk|));
    if i > 0 {
      assert !Fresh(existing, chunk);
    }
  }

  lemma SeamlessSoFar(chunks: seq<string>)
    requires chunks != []
    ensures var last := |chunks| - 1;
            Seamless(chunks) <==> Seamless(chunks[..last]) && Fresh(Merged(chunks[..last]), chunks[last])
  {
    hide Merged, Fresh;
    var last := |chunks| - 1;
    var before := chunks[..last];
    forall k | 0 <= k < last ensures before[..k] == chunks[..k] && before[k] == chunks[k] {}
    if Seamless(before) && Fresh(Merged(before), chunks[last]) {
      forall k | 0 <= k <= last ensures Fresh(Merged(chunks[..k]), chunks[k]) {
        if k < last {
          assert Fresh(Merged(before[..k]), before[k]);
        }
      }
    }
    if Seamless(chunks) {
      forall k | 0 <= k < last ensures Fresh(Merged(before[..k]), before[k]) {
        assert Fresh(Merged(chunks[..k]), chunks[k]);
      }
    }
  }

  /** Chunks that carry only new text are put together unchanged exactly when none of them
      happens to begin as the text merged before it ends. */
  lemma {:induction false} IncrementalStream(chunks: seq<string>)
    ensures |Merged(chunks)| <= |Concat(chunks)|
    ensures |Merged(chunks)| == |Concat(chunks)| <==> Seamless(chunks)
    ensures Merged(chunks) == Concat(chunks) <==> Seamless(chunks)
  {
    if chunks != [] {
      hide Trimmed, Merge, Fresh, Seamless;
      var last := |chunks| - 1;
      var before := chunks[..last];
      IncrementalStream(before);
      FreshIsAppended(Merged(before), chunks[last]);
      SeamlessSoFar(chunks);
    }
  }
}
