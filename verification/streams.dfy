/** The dedup filter lifted to a whole stream of accepted samples: what a
    subscribed channel reports when the samples arrive one after another. */
module Streams {
  import opened Points

  /** The points a subscribed channel reports for `samples`, given that the
      last point it reported before them is `last`. Mirrors the callback: a
      sample is reported and becomes the new last point when it differs from
      the last point; otherwise nothing changes. */
  function Dedup(last: Point, samples: seq<Point>): (emitted: seq<Point>)
    ensures |emitted| <= |samples|
    ensures |emitted| > 0 ==> emitted[0] != last
    ensures forall i :: 0 < i < |emitted| ==> emitted[i - 1] != emitted[i]
    decreases |samples|
  {
    if |samples| == 0 then []
    else if ShouldEmit(samples[0], last) then [samples[0]] + Dedup(samples[0], samples[1..])
    else Dedup(last, samples[1..])
  }

  /** The last point a channel has reported once `samples` have gone by. */
  function LastAfter(last: Point, samples: seq<Point>): Point
  {
    if |samples| == 0 then last else samples[|samples| - 1]
  }

  /** The point a sample at index `i` is compared with: the one before it, or
      `last` for the first sample. */
  function Before(last: Point, samples: seq<Point>, i: nat): Point
    requires i < |samples|
  {
    if i == 0 then last else samples[i - 1]
  }

  /** `idx` picks the elements of `sub` out of `s` at strictly increasing
      positions: `sub` is a subsequence of `s`. */
  predicate Embeds(idx: seq<int>, sub: seq<Point>, s: seq<Point>)
  {
    && |idx| == |sub|
    && (forall k :: 0 <= k < |idx| ==> 0 <= idx[k] < |s| && s[idx[k]] == sub[k])
    && (forall k :: 0 < k < |idx| ==> idx[k - 1] < idx[k])
  }

  /** Every index of `idx` moved one position to the right. */
  function Shift(idx: seq<int>): (r: seq<int>)
    ensures |r| == |idx|
    ensures forall k :: 0 <= k < |idx| ==> r[k] == idx[k] + 1
  {
    seq(|idx|, k requires 0 <= k < |idx| => idx[k] + 1)
  }

  /** The positions in `samples` whose points `Dedup` reports. */
  function Positions(last: Point, samples: seq<Point>): (idx: seq<int>)
    ensures forall k :: 0 <= k < |idx| ==> 0 <= idx[k] < |samples|
    decreases |samples|
  {
    if |samples| == 0 then []
    else if ShouldEmit(samples[0], last) then [0] + Shift(Positions(samples[0], samples[1..]))
    else Shift(Positions(last, samples[1..]))
  }

  /** After a stream, the channel's last reported point is the stream's last
      sample (or the old last point for an empty stream), whether that final
      sample was reported or dropped as a repeat. Nothing is reported
      exactly when every sample equals the starting point. */
  lemma {:induction false} DedupEndsAtLastSample(last: Point, samples: seq<Point>)
    ensures |Dedup(last, samples)| > 0 ==> Dedup(last, samples)[|Dedup(last, samples)| - 1] == LastAfter(last, samples)
    ensures |Dedup(last, samples)| == 0 <==> forall i :: 0 <= i < |samples| ==> samples[i] == last
    decreases |samples|
  {
    if |samples| > 0 {
      var rest := samples[1..];
      DedupEndsAtLastSample(if ShouldEmit(samples[0], last) then samples[0] else last, rest);
      if |rest| > 0 {
        assert samples[|samples| - 1] == rest[|rest| - 1];
      }
      forall i | 1 <= i < |samples| && |Dedup(last, samples)| == 0
        ensures samples[i] == last
      {
        assert samples[i] == rest[i - 1];
      }
      if forall i :: 0 <= i < |samples| ==> samples[i] == last {
        assert samples[0] == last;
        forall i | 0 <= i < |rest|
          ensures rest[i] == last
        {
          assert rest[i] == samples[i + 1];
        }
      }
    }
  }

  /** The reported points are samples taken in order: `Positions` embeds the
      output of `Dedup` into its input. Nothing is fabricated or reordered. */
  lemma {:induction false} DedupIsSubsequence(last: Point, samples: seq<Point>)
    ensures Embeds(Positions(last, samples), Dedup(last, samples), samples)
    decreases |samples|
  {
    if |samples| > 0 {
      var rest := samples[1..];
      var next := if ShouldEmit(samples[0], last) then samples[0] else last;
      DedupIsSubsequence(next, rest);
      var inner := Positions(next, rest);
      var sub := Dedup(next, rest);
      var shifted := Shift(inner);
      forall k | 0 <= k < |shifted|
        ensures 0 <= shifted[k] < |samples| && samples[shifted[k]] == sub[k]
      {
        assert samples[inner[k] + 1] == rest[inner[k]];
      }
      if ShouldEmit(samples[0], last) {
        var idx := [0] + shifted;
        var out := [samples[0]] + sub;
        forall k | 0 < k < |idx|
          ensures idx[k - 1] < idx[k]
        {
          if k > 1 {
            assert idx[k - 1] == shifted[k - 2] && idx[k] == shifted[k - 1];
          }
        }
        forall k | 0 <= k < |idx|
          ensures 0 <= idx[k] < |samples| && samples[idx[k]] == out[k]
        {
          if k > 0 {
            assert idx[k] == shifted[k - 1] && out[k] == sub[k - 1];
          }
        }
      }
    }
  }

  /** An index is in a shifted index sequence exactly when its predecessor
      is in the original. */
  lemma InShift(idx: seq<int>, i: int)
    ensures i in Shift(idx) <==> i - 1 in idx
  {
    if i - 1 in idx {
      var k :| 0 <= k < |idx| && idx[k] == i - 1;
      assert Shift(idx)[k] == i;
    }
  }

  /** The independent description of the filter: the sample at index `i` is
      reported exactly when it differs from the sample just before it (from
      `last` for the first sample). */
  lemma {:induction false} PositionsAreChanges(last: Point, samples: seq<Point>)
    ensures forall i :: 0 <= i < |samples| ==>
      (i in Positions(last, samples) <==> samples[i] != Before(last, samples, i))
    decreases |samples|
  {
    if |samples| > 0 {
      var rest := samples[1..];
      var emit := ShouldEmit(samples[0], last);
      var inner := Positions(samples[0], rest);
      assert Positions(last, samples) == (if emit then [0] else []) + Shift(inner);
      PositionsAreChanges(samples[0], rest);
      InShift(inner, 0);
      forall i | 1 <= i < |samples|
        ensures i in Positions(last, samples) <==> samples[i] != Before(last, samples, i)
      {
        InShift(inner, i);
        assert samples[i] == rest[i - 1];
        assert Before(last, samples, i) == Before(samples[0], rest, i - 1);
      }
    }
  }

  /** A stream the filter already cleaned passes through unchanged. */
  lemma {:induction false} DedupKeepsCleanStream(last: Point, clean: seq<Point>)
    requires |clean| > 0 ==> clean[0] != last
    requires forall i :: 0 < i < |clean| ==> clean[i - 1] != clean[i]
    ensures Dedup(last, clean) == clean
    decreases |clean|
  {
    if |clean| > 0 {
      var rest := clean[1..];
      forall i | 0 < i < |rest|
        ensures rest[i - 1] != rest[i]
      {
        assert rest[i - 1] == clean[i] && rest[i] == clean[i + 1];
      }
      if |rest| > 0 {
        assert rest[0] == clean[1];
      }
      DedupKeepsCleanStream(clean[0], rest);
      assert clean == [clean[0]] + rest;
    }
  }

  /** Filtering twice from the same last point reports the same points as
      filtering once. */
  lemma DedupIdempotent(last: Point, samples: seq<Point>)
    ensures Dedup(last, Dedup(last, samples)) == Dedup(last, samples)
  {
    DedupKeepsCleanStream(last, Dedup(last, samples));
  }

  /** Because the last point starts at the default (0,0), a leading (0,0)
      sample is never reported: the output is the same as without it, and the
      first reported point is never (0,0). */
  lemma DedupDropsLeadingOrigin(samples: seq<Point>)
    ensures Dedup(Origin, [Origin] + samples) == Dedup(Origin, samples)
    ensures |Dedup(Origin, samples)| > 0 ==> Dedup(Origin, samples)[0] != Origin
  {
  }

  /** A burst of repeated positions collapses to one report per distinct
      position. */
  lemma DedupBurstExample()
    ensures Dedup(Origin, [Point(10, 10), Point(10, 10), Point(20, 10), Point(20, 10), Point(20, 15)])
         == [Point(10, 10), Point(20, 10), Point(20, 15)]
  {
  }
}
