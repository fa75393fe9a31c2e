/** Holes in the input stream, counted in buckets as the reports go out (src/bluetooth/SendGaps.h). */
module SendGapBuckets {
  import opened Bytes

  /** Time 0 stands for the empty time_point, "not yet". */
  datatype Gaps = Gaps(threshold: int, bucket: int, last: int, bucketStart: int,
                       curMax: int, curCount: nat, doneMax: int, doneCount: nat, window: nat)

  function Empty(threshold: int, bucket: int): Gaps { Gaps(threshold, bucket, 0, 0, 0, 0, 0, 0, 0) }

  function Measured(g: Gaps, now: int): Gaps {
    if g.last == 0 then g.(last := now)
    else
      var gap := now - g.last;
      g.(last := now,
         curMax := if gap > g.curMax then gap else g.curMax,
         curCount := if gap > g.threshold then g.curCount + 1 else g.curCount)
  }

  function OnSent(g: Gaps, now: int): Gaps {
    var m := Measured(g, now);
    if m.bucketStart == 0 then m.(bucketStart := now)
    else if now - m.bucketStart < m.bucket then m
    else m.(doneMax := m.curMax, doneCount := m.curCount, window := m.window + 1,
            curMax := 0, curCount := 0, bucketStart := now)
  }

  function Run(g: Gaps, ts: seq<int>): Gaps {
    if ts == [] then g else OnSent(Run(g, ts[..|ts| - 1]), ts[|ts| - 1])
  }

  // -------------------------------------------- the same numbers, off the whole trace

  /** The first report at or after `i` that is a full bucket later than report `from`, or the end of the trace. */
  function NextCut(ts: seq<int>, bucket: int, from: nat, i: nat): nat
    requires from < i <= |ts|
    decreases |ts| - i
  {
    if i == |ts| then i else if ts[i] - ts[from] >= bucket then i else NextCut(ts, bucket, from, i + 1)
  }

  lemma {:induction false} NextCutIsFirst(ts: seq<int>, bucket: int, from: nat, i: nat)
    requires from < i <= |ts|
    ensures var j := NextCut(ts, bucket, from, i);
            && i <= j <= |ts|
            && (forall k :: i <= k < j ==> ts[k] - ts[from] < bucket)
            && (j < |ts| ==> ts[j] - ts[from] >= bucket)
    decreases |ts| - i
  {
    if i < |ts| && ts[i] - ts[from] < bucket {
      NextCutIsFirst(ts, bucket, from, i + 1);
    }
  }

  /** Where the buckets of a greedy partition end, from report `from` on. */
  function Cuts(ts: seq<int>, bucket: int, from: nat): seq<nat>
    requires from < |ts|
    decreases |ts| - from
  {
    NextCutIsFirst(ts, bucket, from, from + 1);
    var j := NextCut(ts, bucket, from, from + 1);
    if j == |ts| then [] else [j] + Cuts(ts, bucket, j)
  }

  /** Gaps over the threshold among those that end at reports lo + 1 .. hi. */
  function CountOver(ts: seq<int>, threshold: int, lo: nat, hi: nat): nat
    requires lo <= hi < |ts|
  {
    if lo == hi then 0
    else CountOver(ts, threshold, lo, hi - 1) + if ts[hi] - ts[hi - 1] > threshold then 1 else 0
  }

  function WorstGap(ts: seq<int>, lo: nat, hi: nat): int
    requires lo <= hi < |ts|
  {
    if lo == hi then 0 else Max(WorstGap(ts, lo, hi - 1), ts[hi] - ts[hi - 1])
  }

  /** The last cut, or `from` when there is none; and the cut before that. */
  function LastCut(cs: seq<nat>, from: nat): nat { if cs == [] then from else cs[|cs| - 1] }

  function CutBefore(cs: seq<nat>, from: nat): nat { if |cs| < 2 then from else cs[|cs| - 2] }

  lemma {:induction false} CutsAreOrdered(ts: seq<int>, bucket: int, from: nat)
    requires from < |ts|
    ensures var cs := Cuts(ts, bucket, from);
            from <= CutBefore(cs, from) <= LastCut(cs, from) < |ts|
    decreases |ts| - from
  {
    NextCutIsFirst(ts, bucket, from, from + 1);
    var j := NextCut(ts, bucket, from, from + 1);
    if j < |ts| {
      CutsAreOrdered(ts, bucket, j);
    }
  }

  lemma {:induction false} NextCutAppend(ts: seq<int>, t: int, bucket: int, from: nat, i: nat)
    requires from < i <= |ts|
    ensures var j := NextCut(ts, bucket, from, i);
            NextCut(ts + [t], bucket, from, i) ==
            if j < |ts| then j else if t - ts[from] >= bucket then |ts| else |ts| + 1
    decreases |ts| - i
  {
    NextCutIsFirst(ts, bucket, from, i);
    if i < |ts| && ts[i] - ts[from] < bucket {
      NextCutAppend(ts, t, bucket, from, i + 1);
    }
  }

  /** One more report either closes the open bucket or leaves the partition as it was. */
  lemma {:induction false} CutsAppend(ts: seq<int>, t: int, bucket: int, from: nat)
    requires from < |ts|
    ensures LastCut(Cuts(ts, bucket, from), from) < |ts|
    ensures var cs := Cuts(ts, bucket, from);
            Cuts(ts + [t], bucket, from) == if t - ts[LastCut(cs, from)] >= bucket then cs + [|ts|] else cs
    decreases |ts| - from
  {
    NextCutIsFirst(ts, bucket, from, from + 1);
    NextCutIsFirst(ts + [t], bucket, from, from + 1);
    NextCutAppend(ts, t, bucket, from, from + 1);
    var j := NextCut(ts, bucket, from, from + 1);
    if j < |ts| {
      CutsAppend(ts, t, bucket, j);
    } else if t - ts[from] >= bucket {
      assert Cuts(ts + [t], bucket, |ts|) == [] by {
        NextCutIsFirst(ts + [t], bucket, |ts|, |ts| + 1);
      }
    }
  }

  lemma {:induction false} MeasuresOfPrefix(ts: seq<int>, t: int, threshold: int, lo: nat, hi: nat)
    requires lo <= hi < |ts|
    ensures CountOver(ts + [t], threshold, lo, hi) == CountOver(ts, threshold, lo, hi)
    ensures WorstGap(ts + [t], lo, hi) == WorstGap(ts, lo, hi)
  {
    if lo < hi {
      MeasuresOfPrefix(ts, t, threshold, lo, hi - 1);
    }
  }

  ghost predicate NonZero(ts: seq<int>) { forall i :: 0 <= i < |ts| ==> ts[i] != 0 }

  /** The incremental state after a trace: the open bucket, and the last closed one. */
  ghost predicate Refines(g: Gaps, ts: seq<int>)
    requires ts != []
  {
    CutsAreOrdered(ts, g.bucket, 0);
    var cs := Cuts(ts, g.bucket, 0);
    var open, before := LastCut(cs, 0), CutBefore(cs, 0);
    && g.window == |cs|
    && g.last == ts[|ts| - 1]
    && g.bucketStart == ts[open]
    && g.curCount == CountOver(ts, g.threshold, open, |ts| - 1)
    && g.curMax == WorstGap(ts, open, |ts| - 1)
    && g.doneCount == (if cs == [] then 0 else CountOver(ts, g.threshold, before, open))
    && g.doneMax == (if cs == [] then 0 else WorstGap(ts, before, open))
  }

  lemma OneMoreReport(g: Gaps, ts: seq<int>, t: int)
    requires ts != [] && Refines(g, ts) && NonZero(ts) && t != 0
    ensures Refines(OnSent(g, t), ts + [t])
  {
    var more := ts + [t];
    var cs := Cuts(ts, g.bucket, 0);
    CutsAreOrdered(ts, g.bucket, 0);
    CutsAreOrdered(more, g.bucket, 0);
    CutsAppend(ts, t, g.bucket, 0);
    var open, before := LastCut(cs, 0), CutBefore(cs, 0);
    MeasuresOfPrefix(ts, t, g.threshold, open, |ts| - 1);
    MeasuresOfPrefix(ts, t, g.threshold, before, open);
    assert more[|ts|] == t && more[|ts| - 1] == g.last && g.last != 0 && more[open] == ts[open] == g.bucketStart;
    assert CountOver(more, g.threshold, open, |ts|) ==
           CountOver(more, g.threshold, open, |ts| - 1) + if t - g.last > g.threshold then 1 else 0;
    assert WorstGap(more, open, |ts|) == Max(WorstGap(more, open, |ts| - 1), t - g.last);
  }

  lemma {:induction false} RunSettings(threshold: int, bucket: int, ts: seq<int>)
    ensures Run(Empty(threshold, bucket), ts).threshold == threshold
    ensures Run(Empty(threshold, bucket), ts).bucket == bucket
  {
    if ts != [] {
      RunSettings(threshold, bucket, ts[..|ts| - 1]);
    }
  }

  /**
   * For every trace of send times (none of them the empty time), what is published is exactly the last closed
   * bucket of the greedy partition of the whole trace: how many buckets there are, its count, its worst gap.
   */
  lemma {:induction false} BucketsRefineTheTrace(threshold: int, bucket: int, ts: seq<int>)
    requires ts != [] && NonZero(ts)
    ensures Refines(Run(Empty(threshold, bucket), ts), ts)
  {
    RunSettings(threshold, bucket, ts);
    var front, t := ts[..|ts| - 1], ts[|ts| - 1];
    assert ts == front + [t];
    if front == [] {
      assert Run(Empty(threshold, bucket), front) == Empty(threshold, bucket);
      NextCutIsFirst(ts, bucket, 0, 1);
      assert Cuts(ts, bucket, 0) == [];
    } else {
      BucketsRefineTheTrace(threshold, bucket, front);
      OneMoreReport(Run(Empty(threshold, bucket), front), front, t);
    }
  }

  /** Everything ever published as a count, along a trace. */
  function Published(g: Gaps, ts: seq<int>): nat {
    if ts == [] then 0
    else
      var before, after := Run(g, ts[..|ts| - 1]), Run(g, ts);
      Published(g, ts[..|ts| - 1]) + if after.window > before.window then after.doneCount else 0
  }

  /** Conservation: published counts and the open bucket's add up to every gap over the threshold. */
  lemma {:induction false} NoGapIsLost(threshold: int, bucket: int, ts: seq<int>)
    requires ts != [] && NonZero(ts)
    ensures Published(Empty(threshold, bucket), ts) + Run(Empty(threshold, bucket), ts).curCount
         == CountOver(ts, threshold, 0, |ts| - 1)
  {
    var g := Empty(threshold, bucket);
    var front, t := ts[..|ts| - 1], ts[|ts| - 1];
    assert ts == front + [t];
    RunSettings(threshold, bucket, front);
    if front == [] {
      assert Run(g, front) == g;
      assert Published(g, front) == 0;
    } else {
      NoGapIsLost(threshold, bucket, front);
      BucketsRefineTheTrace(threshold, bucket, front);
      MeasuresOfPrefix(front, t, threshold, 0, |front| - 1);
      assert Run(g, front).last == ts[|ts| - 2];
    }
  }

  // ----------------------------------------------------- the same thing, in place

  class SendGaps {
    var threshold: int
    var bucket: int
    var last: int
    var bucketStart: int
    var curMax: int
    var curCount: nat
    var doneMax: int
    var doneCount: nat
    var window: nat

    function View(): Gaps
      reads this
    {
      Gaps(threshold, bucket, last, bucketStart, curMax, curCount, doneMax, doneCount, window)
    }

    /** Milliseconds: a stall is 100 of them, a bucket 1000. */
    constructor ()
      ensures View() == Empty(100, 1000)
    {
      threshold, bucket, last, bucketStart := 100, 1000, 0, 0;
      curMax, curCount, doneMax, doneCount, window := 0, 0, 0, 0, 0;
    }

    method NoteSent(now: int)
      modifies this
      ensures View() == OnSent(old(View()), now)
    {
      if last != 0 {
        var gap := now - last;
        if gap > curMax {
          curMax := gap;
        }
        if gap > threshold {
          curCount := curCount + 1;
        }
      }
      last := now;
      if bucketStart == 0 {
        bucketStart := now;
        return;
      }
      if now - bucketStart < bucket {
        return;
      }
      doneMax := curMax;
      doneCount := curCount;
      window := window + 1;
      curMax := 0;
      curCount := 0;
      bucketStart := now;
    }
  }
}
