/**
 * `partition_data` of the trial plotter: a trial's (blink, time) samples
 * are cut into chunks, a new chunk starting at every sample whose time is
 * 11, and the samples before the first such one are dropped.
 */
module TracePartition {

  /** The time value that opens a chunk. */
  const Marker: real := 11.0

  /** One chunk: its times (`xvec`) and blink values (`yvec`). */
  datatype Chunk = Chunk(xs: seq<real>, ys: seq<real>)

  /** Column `c` of a matrix whose rows all have more than `c` entries
      (`mat[:,c]`). */
  function Column(mat: seq<seq<real>>, c: nat): (r: seq<real>)
    requires forall k :: 0 <= k < |mat| ==> c < |mat[k]|
    ensures |r| == |mat| && forall k :: 0 <= k < |mat| ==> r[k] == mat[k][c]
  {
    if mat == [] then [] else [mat[0][c]] + Column(mat[1..], c)
  }

  /** The blink values: column 0. */
  function Blinks(mat: seq<seq<real>>): (r: seq<real>)
    requires forall k :: 0 <= k < |mat| ==> 2 <= |mat[k]|
    ensures |r| == |mat| && forall k :: 0 <= k < |mat| ==> r[k] == mat[k][0]
  {
    Column(mat, 0)
  }

  /** The times: column 1. */
  function Times(mat: seq<seq<real>>): (r: seq<real>)
    requires forall k :: 0 <= k < |mat| ==> 2 <= |mat[k]|
    ensures |r| == |mat| && forall k :: 0 <= k < |mat| ==> r[k] == mat[k][1]
  {
    Column(mat, 1)
  }

  /** How many entries of `s` are the marker. */
  function Count(s: seq<real>): nat
  {
    if s == [] then 0 else Count(s[..|s| - 1]) + (if s[|s| - 1] == Marker then 1 else 0)
  }

  /** Index of the first marker in `s`, or `|s|` when there is none. */
  function First(s: seq<real>): (r: nat)
    ensures r <= |s| && (r < |s| ==> s[r] == Marker)
    ensures forall k :: 0 <= k < r ==> s[k] != Marker
  {
    if s == [] || s[0] == Marker then 0 else 1 + First(s[1..])
  }

  /** A chunk as the loop builds it: as many times as blink values, opened
      by a marker, and no other marker in it. */
  predicate Opened(c: Chunk)
  {
    && |c.xs| == |c.ys|
    && c.xs != [] && c.xs[0] == Marker
    && forall j :: 1 <= j < |c.xs| ==> c.xs[j] != Marker
  }

  function Xs(cs: seq<Chunk>): (r: seq<seq<real>>)
    ensures |r| == |cs| && forall k :: 0 <= k < |cs| ==> r[k] == cs[k].xs
  {
    if cs == [] then [] else [cs[0].xs] + Xs(cs[1..])
  }

  function Ys(cs: seq<Chunk>): (r: seq<seq<real>>)
    ensures |r| == |cs| && forall k :: 0 <= k < |cs| ==> r[k] == cs[k].ys
  {
    if cs == [] then [] else [cs[0].ys] + Ys(cs[1..])
  }

  /** The parts one after the other. */
  function Concat<T>(parts: seq<seq<T>>): seq<T>
  {
    if parts == [] then [] else parts[0] + Concat(parts[1..])
  }

  lemma {:induction false} ConcatAppend<T>(parts: seq<seq<T>>, more: seq<seq<T>>)
    ensures Concat(parts + more) == Concat(parts) + Concat(more)
  {
    if parts == [] {
      assert parts + more == more;
    } else {
      assert (parts + more)[1..] == parts[1..] + more;
      ConcatAppend(parts[1..], more);
    }
  }

  /** Chunks whose lists have equal lengths flatten to equally long lists. */
  lemma {:induction false} FlatLengths(cs: seq<Chunk>)
    requires forall k :: 0 <= k < |cs| ==> |cs[k].xs| == |cs[k].ys|
    ensures |Concat(Xs(cs))| == |Concat(Ys(cs))|
  {
    if cs != [] {
      assert Xs(cs)[1..] == Xs(cs[1..]);
      assert Ys(cs)[1..] == Ys(cs[1..]);
      FlatLengths(cs[1..]);
    }
  }

  lemma FlatAppend(cs: seq<Chunk>, c: Chunk)
    ensures Concat(Xs(cs + [c])) == Concat(Xs(cs)) + c.xs
    ensures Concat(Ys(cs + [c])) == Concat(Ys(cs)) + c.ys
  {
    assert Xs(cs + [c]) == Xs(cs) + [c.xs];
    assert Ys(cs + [c]) == Ys(cs) + [c.ys];
    ConcatAppend(Xs(cs), [c.xs]);
    ConcatAppend(Ys(cs), [c.ys]);
    assert Concat([c.xs]) == c.xs + Concat([]);
    assert Concat([c.ys]) == c.ys + Concat([]);
  }

  /** Chunks already closed followed by the current one, all opened by a
      marker, holding the times `ts` and the blink values `bs`. */
  predicate Built(done: seq<Chunk>, cur: Chunk, ts: seq<real>, bs: seq<real>)
  {
    && (forall k :: 0 <= k < |done| ==> Opened(done[k]))
    && Opened(cur)
    && Concat(Xs(done)) + cur.xs == ts
    && Concat(Ys(done)) + cur.ys == bs
  }

  /** A marker closes the current chunk and opens a new one. */
  lemma BuiltMarker(done: seq<Chunk>, cur: Chunk, ts: seq<real>, bs: seq<real>, t: real, b: real)
    requires Built(done, cur, ts, bs) && t == Marker
    ensures Built(done + [cur], Chunk([t], [b]), ts + [t], bs + [b])
  {
    FlatAppend(done, cur);
  }

  /** Any other sample joins the current chunk. */
  lemma BuiltOther(done: seq<Chunk>, cur: Chunk, ts: seq<real>, bs: seq<real>, t: real, b: real)
    requires Built(done, cur, ts, bs) && t != Marker
    ensures Built(done, Chunk(cur.xs + [t], cur.ys + [b]), ts + [t], bs + [b])
  {
  }

  /** Closing the current chunk: every chunk is opened by a marker and they
      hold the times and blink values in order. */
  lemma BuiltClosed(done: seq<Chunk>, cur: Chunk, ts: seq<real>, bs: seq<real>)
    requires Built(done, cur, ts, bs)
    ensures forall k :: 0 <= k < |done + [cur]| ==> Opened((done + [cur])[k])
    ensures Concat(Xs(done + [cur])) == ts && Concat(Ys(done + [cur])) == bs
  {
    FlatAppend(done, cur);
  }

  /** The loop state after the first `i` samples, `f` being the index of
      the first marker: before it, `result` is empty and the current lists
      hold every sample; from it on, `result[0]` is the dropped prefix, and
      the later chunks followed by the current lists hold the samples from
      the first marker, one chunk per marker counting the current one. */
  predicate Partial(times: seq<real>, blinks: seq<real>, i: nat, result: seq<Chunk>, cur: Chunk)
    requires i <= |times| == |blinks|
  {
    var f := First(times);
    && (i <= f ==> result == [] && cur == Chunk(times[..i], blinks[..i]))
    && (f < i ==>
          && 1 <= |result| == Count(times[..i])
          && result[0] == Chunk(times[..f], blinks[..f])
          && Built(result[1..], cur, times[f..i], blinks[f..i]))
  }

  lemma CountNone(times: seq<real>, i: nat)
    requires i <= First(times) && i <= |times|
    ensures Count(times[..i]) == 0
  {
    if i > 0 {
      assert times[..i][..i - 1] == times[..i - 1];
      CountNone(times, i - 1);
    }
  }

  lemma CountStep(times: seq<real>, i: nat)
    requires i < |times|
    ensures Count(times[..i + 1]) == Count(times[..i]) + (if times[i] == Marker then 1 else 0)
  {
    assert times[..i + 1][..i] == times[..i];
  }

  lemma SliceSnoc<T>(s: seq<T>, f: nat, i: nat)
    requires f <= i < |s|
    ensures s[f..i + 1] == s[f..i] + [s[i]]
  {
  }

  lemma PrefixSnoc<T>(s: seq<T>, i: nat)
    requires i < |s|
    ensures s[..i + 1] == s[..i] + [s[i]]
  {
  }

  /** The loop body at a marker: the current lists go to `result` and new
      ones start with this sample. */
  lemma MarkerStep(times: seq<real>, blinks: seq<real>, i: nat, result: seq<Chunk>, cur: Chunk)
    requires i < |times| == |blinks| && times[i] == Marker
    requires Partial(times, blinks, i, result, cur)
    ensures Partial(times, blinks, i + 1, result + [cur], Chunk([times[i]], [blinks[i]]))
  {
    if i == First(times) {
      FirstMarkerStep(times, blinks, i, result, cur);
    } else {
      LaterMarkerStep(times, blinks, i, result, cur);
    }
  }

  /** At the first marker the samples so far become `result[0]`. */
  lemma FirstMarkerStep(times: seq<real>, blinks: seq<real>, i: nat, result: seq<Chunk>, cur: Chunk)
    requires i < |times| == |blinks| && i == First(times)
    requires Partial(times, blinks, i, result, cur)
    ensures Partial(times, blinks, i + 1, result + [cur], Chunk([times[i]], [blinks[i]]))
  {
    CountStep(times, i);
    CountNone(times, i);
    assert times[i..i + 1] == [times[i]] && blinks[i..i + 1] == [blinks[i]];
    assert (result + [cur])[1..] == [];
    assert Xs([]) == [] && Ys([]) == [];
  }

  /** At a later marker the current chunk is closed. */
  lemma LaterMarkerStep(times: seq<real>, blinks: seq<real>, i: nat, result: seq<Chunk>, cur: Chunk)
    requires i < |times| == |blinks| && times[i] == Marker && First(times) < i
    requires Partial(times, blinks, i, result, cur)
    ensures Partial(times, blinks, i + 1, result + [cur], Chunk([times[i]], [blinks[i]]))
  {
    var f := First(times);
    CountStep(times, i);
    assert (result + [cur])[1..] == result[1..] + [cur];
    BuiltMarker(result[1..], cur, times[f..i], blinks[f..i], times[i], blinks[i]);
    SliceSnoc(times, f, i);
    SliceSnoc(blinks, f, i);
  }

  /** The loop body at any other sample: it joins the current lists. */
  lemma OtherStep(times: seq<real>, blinks: seq<real>, i: nat, result: seq<Chunk>, cur: Chunk)
    requires i < |times| == |blinks| && times[i] != Marker
    requires Partial(times, blinks, i, result, cur)
    ensures Partial(times, blinks, i + 1, result, Chunk(cur.xs + [times[i]], cur.ys + [blinks[i]]))
  {
    if i < First(times) {
      PrefixSnoc(times, i);
      PrefixSnoc(blinks, i);
    } else {
      OtherStepInChunk(times, blinks, i, result, cur);
    }
  }

  /** After the first marker, a sample that is not a marker joins the
      current chunk. */
  lemma OtherStepInChunk(times: seq<real>, blinks: seq<real>, i: nat, result: seq<Chunk>, cur: Chunk)
    requires i < |times| == |blinks| && times[i] != Marker && First(times) < i
    requires Partial(times, blinks, i, result, cur)
    ensures Partial(times, blinks, i + 1, result, Chunk(cur.xs + [times[i]], cur.ys + [blinks[i]]))
  {
    var f := First(times);
    CountStep(times, i);
    BuiltOther(result[1..], cur, times[f..i], blinks[f..i], times[i], blinks[i]);
    SliceSnoc(times, f, i);
    SliceSnoc(blinks, f, i);
  }

  /** The final `result.append((xvec, yvec))` and `result[1:]`. */
  lemma Finish(times: seq<real>, blinks: seq<real>, result: seq<Chunk>, cur: Chunk)
    requires |times| == |blinks|
    requires Partial(times, blinks, |times|, result, cur)
    ensures var chunks := (result + [cur])[1..];
            && |chunks| == Count(times)
            && (forall k :: 0 <= k < |chunks| ==> Opened(chunks[k]))
            && Concat(Xs(chunks)) == times[First(times)..]
            && Concat(Ys(chunks)) == blinks[First(times)..]
  {
    var f := First(times);
    var chunks := (result + [cur])[1..];
    assert times[..|times|] == times;
    if f == |times| {
      CountNone(times, |times|);
      assert chunks == [];
    } else {
      assert chunks == result[1..] + [cur];
      assert times[f..|times|] == times[f..] && blinks[f..|blinks|] == blinks[f..];
      BuiltClosed(result[1..], cur, times[f..], blinks[f..]);
    }
  }

  /** `partition_data(mat)`: the chunks of the time and blink columns, one
      per sample whose time is 11, in order; each is opened by that sample,
      holds no other such sample, and together they hold every sample from
      the first one on. */
  method PartitionData(mat: seq<seq<real>>) returns (chunks: seq<Chunk>)
    requires forall k :: 0 <= k < |mat| ==> 2 <= |mat[k]|
    ensures |chunks| == Count(Times(mat))
    ensures forall k :: 0 <= k < |chunks| ==> Opened(chunks[k])
    ensures Concat(Xs(chunks)) == Times(mat)[First(Times(mat))..]
    ensures Concat(Ys(chunks)) == Blinks(mat)[First(Times(mat))..]
  {
    var blinkVec, timeVec := Blinks(mat), Times(mat);
    chunks := SplitAtMarkers(timeVec, blinkVec);
  }

  /** The loop of `partition_data` over the paired columns. */
  method SplitAtMarkers(timeVec: seq<real>, blinkVec: seq<real>) returns (chunks: seq<Chunk>)
    requires |timeVec| == |blinkVec|
    ensures |chunks| == Count(timeVec)
    ensures forall k :: 0 <= k < |chunks| ==> Opened(chunks[k])
    ensures Concat(Xs(chunks)) == timeVec[First(timeVec)..]
    ensures Concat(Ys(chunks)) == blinkVec[First(timeVec)..]
  {
    var result: seq<Chunk> := [];
    var xvec: seq<real>, yvec: seq<real> := [], [];
    var i := 0;
    while i < |timeVec|
      invariant i <= |timeVec|
      invariant Partial(timeVec, blinkVec, i, result, Chunk(xvec, yvec))
    {
      ghost var cur := Chunk(xvec, yvec);
      if timeVec[i] == Marker {
        MarkerStep(timeVec, blinkVec, i, result, cur);
        result := result + [Chunk(xvec, yvec)];
        xvec, yvec := [timeVec[i]], [blinkVec[i]];
      } else {
        OtherStep(timeVec, blinkVec, i, result, cur);
        xvec, yvec := xvec + [timeVec[i]], yvec + [blinkVec[i]];
        assert Chunk(xvec, yvec) == Chunk(cur.xs + [timeVec[i]], cur.ys + [blinkVec[i]]);
      }
      i := i + 1;
    }
    Finish(timeVec, blinkVec, result, Chunk(xvec, yvec));
    result := result + [Chunk(xvec, yvec)];
    chunks := result[1..];
  }

  /** Entry `j` of part `k` sits in the concatenation after the entries
      of the parts before it. */
  lemma ConcatAt<T>(parts: seq<seq<T>>, k: nat, j: nat)
    requires k < |parts| && j < |parts[k]|
    ensures |Concat(parts[..k])| + j < |Concat(parts)|
    ensures Concat(parts)[|Concat(parts[..k])| + j] == parts[k][j]
  {
    assert parts == parts[..k] + parts[k..];
    ConcatAppend(parts[..k], parts[k..]);
    assert parts[k..][1..] == parts[k + 1..];
  }

  lemma PrefixParts(cs: seq<Chunk>, k: nat)
    requires k <= |cs|
    ensures Xs(cs)[..k] == Xs(cs[..k]) && Ys(cs)[..k] == Ys(cs[..k])
  {
  }

  /** The chunks keep each time next to its blink value: entry `j` of chunk
      `k` comes from one row of the matrix, at the same position in the
      flattened times and the flattened blink values. */
  lemma ChunksPaired(cs: seq<Chunk>, times: seq<real>, blinks: seq<real>, f: nat, k: nat, j: nat)
    requires f <= |times| == |blinks|
    requires forall c :: 0 <= c < |cs| ==> |cs[c].xs| == |cs[c].ys|
    requires Concat(Xs(cs)) == times[f..] && Concat(Ys(cs)) == blinks[f..]
    requires k < |cs| && j < |cs[k].xs|
    ensures var p := f + |Concat(Xs(cs[..k]))| + j;
            p < |times| && cs[k].xs[j] == times[p] && cs[k].ys[j] == blinks[p]
  {
    PrefixParts(cs, k);
    FlatLengths(cs[..k]);
    ConcatAt(Xs(cs), k, j);
    ConcatAt(Ys(cs), k, j);
  }
}
