/** What the segments of module Vad mean: normal form, exact coverage, and stability while audio streams in. */
module VadTheorems {
  import opened Wrappers
  import opened Vad

  // ------------------------------------------------------- normal form

  /** The last segment starts and ends no later than the last run, give or take its padding. */
  ghost predicate LastBounded(c: VadConfig, segs: seq<Span>, run: Span) {
    segs != [] ==>
      && segs[|segs| - 1].start <= run.start
      && segs[|segs| - 1].start <= SatSub(run.start, 16 * c.speechPadMs)
  }

  lemma AbsorbKeepsNormal(c: VadConfig, audioLen: nat, segs: seq<Span>, run: Span)
    requires Normal(c, audioLen, segs) && LastBounded(c, segs, run)
    requires run.start < run.end <= audioLen
    ensures Normal(c, audioLen, Absorb(c, audioLen, segs, run))
    ensures LastBounded(c, Absorb(c, audioLen, segs, run), run)
  {
    hide MsToSamples;
    var n := |segs|;
    var after := Absorb(c, audioLen, segs, run);
    assert forall i :: 0 <= i < n - 1 ==> after[i] == segs[i];
    if |after| == n + 1 {
      assert forall i :: 0 <= i < n ==> after[i] == segs[i];
      assert n > 0 ==> forall i :: 0 <= i < n - 1 ==> segs[i].end < segs[n - 1].start;
    }
  }

  lemma {:induction false} MergeIsNormal(c: VadConfig, audioLen: nat, runs: seq<Span>)
    requires RunsOk(c, audioLen, runs)
    ensures Normal(c, audioLen, Merge(c, audioLen, runs))
    ensures runs != [] ==> LastBounded(c, Merge(c, audioLen, runs), runs[|runs| - 1])
  {
    if runs != [] {
      var n := |runs| - 1;
      MergeIsNormal(c, audioLen, runs[..n]);
      assert n > 0 ==> runs[..n][n - 1].start < runs[n].start;
      AbsorbKeepsNormal(c, audioLen, Merge(c, audioLen, runs[..n]), runs[n]);
    }
  }

  /** Segments are non-empty, inside the audio, long enough and strictly apart. */
  lemma SegmentsAreNormal(c: VadConfig, audioLen: nat, probs: seq<Score>)
    requires InOrder(c, audioLen, probs)
    ensures Normal(c, audioLen, Segments(c, audioLen, probs))
  {
    RunsAreApart(c, audioLen, probs);
    MergeIsNormal(c, audioLen, Runs(c, audioLen, probs));
  }

  // ------------------------------------------------- what segments cover

  /** A run of at least the minimum duration. */
  ghost predicate IsLong(c: VadConfig, run: Span) { run.end - run.start >= 16 * c.minSpeechMs }

  /** A sample of the audio within the padding of the run. */
  ghost predicate IsNear(c: VadConfig, audioLen: nat, run: Span, x: int) {
    0 <= x < audioLen && run.start - 16 * c.speechPadMs <= x < run.end + 16 * c.speechPadMs
  }

  /** The sample lies within the padding of some run that is long enough to keep. */
  ghost predicate NearLongRun(c: VadConfig, audioLen: nat, runs: seq<Span>, x: int) {
    exists r :: 0 <= r < |runs| && IsLong(c, runs[r]) && IsNear(c, audioLen, runs[r], x)
  }

  lemma PaddedIsNear(c: VadConfig, audioLen: nat, run: Span, x: int)
    requires run.start < run.end <= audioLen
    ensures IsLong(c, run) <==> LongEnough(c, run)
    ensures IsNear(c, audioLen, run, x) <==> Holds(Padded(c, audioLen, run), x)
  {
  }

  lemma {:induction false} MergeCoversExactly(c: VadConfig, audioLen: nat, runs: seq<Span>, x: int)
    requires RunsOk(c, audioLen, runs)
    ensures Covers(Merge(c, audioLen, runs), x) <==> NearLongRun(c, audioLen, runs, x)
  {
    if runs != [] {
      var n := |runs| - 1;
      var before, after := Merge(c, audioLen, runs[..n]), Merge(c, audioLen, runs);
      MergeCoversExactly(c, audioLen, runs[..n], x);
      MergeIsNormal(c, audioLen, runs[..n]);
      MergeIsNormal(c, audioLen, runs);
      var p := Padded(c, audioLen, runs[n]);
      NearLongRunSplits(c, audioLen, runs, x);
      PaddedIsNear(c, audioLen, runs[n], x);
      assert n > 0 ==> runs[..n][n - 1].start < runs[n].start;
      if LongEnough(c, runs[n]) {
        AbsorbCovers(before, after, p, x);
      }
    }
  }

  lemma NearLongRunSplits(c: VadConfig, audioLen: nat, runs: seq<Span>, x: int)
    requires runs != []
    ensures NearLongRun(c, audioLen, runs, x) <==>
              NearLongRun(c, audioLen, runs[..|runs| - 1], x)
              || (IsLong(c, runs[|runs| - 1]) && IsNear(c, audioLen, runs[|runs| - 1], x))
  {
    var n := |runs| - 1;
    if NearLongRun(c, audioLen, runs[..n], x) {
      var r :| 0 <= r < n && IsLong(c, runs[..n][r]) && IsNear(c, audioLen, runs[..n][r], x);
      assert runs[r] == runs[..n][r];
    }
    if NearLongRun(c, audioLen, runs, x) {
      var r :| 0 <= r < |runs| && IsLong(c, runs[r]) && IsNear(c, audioLen, runs[r], x);
      if r < n {
        assert runs[..n][r] == runs[r];
      }
    }
  }

  /** Joining a span to the last segment, or appending it, adds exactly that span. */
  lemma AbsorbCovers(before: seq<Span>, after: seq<Span>, p: Span, x: int)
    requires
      if before != [] && p.start <= before[|before| - 1].end then
        after == before[|before| - 1 := Span(before[|before| - 1].start, Max(before[|before| - 1].end, p.end))]
        && before[|before| - 1].start <= p.start
      else
        after == before + [p]
    ensures Covers(after, x) <==> Covers(before, x) || Holds(p, x)
  {
    var n := |before| - 1;
    if Covers(before, x) {
      var i :| 0 <= i < |before| && Holds(before[i], x);
      assert Holds(after[i], x);
    }
    if Holds(p, x) {
      assert Holds(after[|after| - 1], x);
    }
    if Covers(after, x) {
      var i :| 0 <= i < |after| && Holds(after[i], x);
      if i < |before| && after[i] == before[i] {
        assert Holds(before[i], x);
      } else if !Holds(p, x) {
        assert Holds(before[n], x);
      }
    }
  }

  /** A sample is in a segment exactly when it is within 16 samples per millisecond of padding of a run that is long enough. */
  lemma SegmentsCoverExactly(c: VadConfig, audioLen: nat, probs: seq<Score>, x: int)
    requires InOrder(c, audioLen, probs)
    ensures Covers(Segments(c, audioLen, probs), x)
            <==> NearLongRun(c, audioLen, Runs(c, audioLen, probs), x)
  {
    RunsAreApart(c, audioLen, probs);
    MergeCoversExactly(c, audioLen, Runs(c, audioLen, probs), x);
  }

  lemma NotCoveredInGap(c: VadConfig, audioLen: nat, segs: seq<Span>, i: nat)
    requires Normal(c, audioLen, segs) && i < |segs|
    ensures !Covers(segs, segs[i].end)
  {
  }

  ghost predicate InsideOnly(segs: seq<Span>, run: Span, i: nat) {
    && i < |segs|
    && segs[i].start <= run.start && run.end <= segs[i].end
    && forall k, x :: 0 <= k < |segs| && k != i && Holds(run, x) ==> !Holds(segs[k], x)
  }

  /** Every raw run that is long enough lies inside exactly one segment. */
  lemma LongRunInOneSegment(c: VadConfig, audioLen: nat, probs: seq<Score>, r: nat) returns (i: nat)
    requires InOrder(c, audioLen, probs)
    requires r < |Runs(c, audioLen, probs)| && IsLong(c, Runs(c, audioLen, probs)[r])
    ensures InsideOnly(Segments(c, audioLen, probs), Runs(c, audioLen, probs)[r], i)
  {
    var runs, segs := Runs(c, audioLen, probs), Segments(c, audioLen, probs);
    var run := runs[r];
    SegmentsAreNormal(c, audioLen, probs);
    RunsAreApart(c, audioLen, probs);
    forall x | Holds(run, x) ensures Covers(segs, x) {
      assert IsNear(c, audioLen, run, x);
      SegmentsCoverExactly(c, audioLen, probs, x);
    }
    assert Holds(run, run.start);
    i :| 0 <= i < |segs| && Holds(segs[i], run.start);
    // otherwise the sample just past the segment, which lies in the gap, would be covered too
    assert Holds(run, segs[i].end) ==> Covers(segs, segs[i].end);
    NotCoveredInGap(c, audioLen, segs, i);
  }

  // ---------------------------------------------------- what runs are

  ghost predicate RunHolds(c: VadConfig, audioLen: nat, run: Span, w: Score) {
    run.start <= w.start && Min(w.start + c.windowSamples, audioLen) <= run.end
  }

  /** Some run holds both windows. */
  ghost predicate Together(c: VadConfig, audioLen: nat, runs: seq<Span>, v: Score, w: Score) {
    exists r :: 0 <= r < |runs| && RunHolds(c, audioLen, runs[r], v) && RunHolds(c, audioLen, runs[r], w)
  }

  /** Windows i and j are speech and everything between them is silence. */
  ghost predicate NextSpeech(c: VadConfig, probs: seq<Score>, i: int, j: int) {
    && 0 <= i < j < |probs| && probs[i].prob >= c.threshold && probs[j].prob >= c.threshold
    && forall k :: i < k < j ==> probs[k].prob < c.threshold
  }

  /** Window k is silent and starts at least the minimum silence after window i ended. */
  ghost predicate Breaks(c: VadConfig, audioLen: nat, probs: seq<Score>, i: int, k: int)
    requires 0 <= i < k < |probs|
  {
    probs[k].start - Min(probs[i].start + c.windowSamples, audioLen) >= 16 * c.minSilenceMs
  }

  /** The scan state against the windows seen so far; `last` is the latest speech window. */
  ghost predicate ScanMeans(c: VadConfig, audioLen: nat, probs: seq<Score>, st: Scan, last: Option<nat>) {
    && (last.None? ==> st == Scan([], None, 0) && forall k :: 0 <= k < |probs| ==> !IsSpeech(c, probs[k]))
    && (last.Some? ==>
          && last.value < |probs| && IsSpeech(c, probs[last.value])
          && st.lastEnd == WindowEnd(c, audioLen, probs[last.value])
          && (forall k :: last.value < k < |probs| ==> !IsSpeech(c, probs[k]))
          && (if st.open.Some? then
                && st.open.value <= probs[last.value].start
                && forall k :: last.value < k < |probs| ==> !Breaks(c, audioLen, probs, last.value, k)
              else
                last.value < |probs| - 1 && Breaks(c, audioLen, probs, last.value, |probs| - 1)))
  }

  lemma SilenceTracks(c: VadConfig, audioLen: nat, probs: seq<Score>, w: Score, st: Scan, last: Option<nat>)
    requires InOrder(c, audioLen, probs + [w]) && !IsSpeech(c, w)
    requires ScanMeans(c, audioLen, probs, st, last)
    ensures ScanMeans(c, audioLen, probs + [w], ScanStep(c, audioLen, st, w), last)
  {
    hide MsToSamples;
    var longer := probs + [w];
    assert forall k :: 0 <= k < |probs| ==> longer[k] == probs[k] && longer[k].start + c.windowSamples <= longer[|probs|].start;
    if last.Some? {
      var l := last.value;
      assert forall k :: l < k < |probs| ==> Breaks(c, audioLen, longer, l, k) == Breaks(c, audioLen, probs, l, k);
      assert Breaks(c, audioLen, longer, l, |probs|)
        <==> SatSub(w.start, st.lastEnd) >= 16 * c.minSilenceMs;
      if st.open.None? {
        assert Breaks(c, audioLen, longer, l, |probs|);
      }
    }
  }

  lemma SpeechTracks(c: VadConfig, audioLen: nat, probs: seq<Score>, w: Score, st: Scan, last: Option<nat>)
    requires InOrder(c, audioLen, probs + [w]) && IsSpeech(c, w)
    requires ScanMeans(c, audioLen, probs, st, last)
    ensures ScanMeans(c, audioLen, probs + [w], ScanStep(c, audioLen, st, w), Some(|probs|))
  {
    hide MsToSamples, Breaks;
    var longer := probs + [w];
    assert forall k :: 0 <= k < |probs| ==> longer[k] == probs[k] && longer[k].start + c.windowSamples <= longer[|probs|].start;
  }

  lemma {:induction false} ScanTracksSpeech(c: VadConfig, audioLen: nat, probs: seq<Score>) returns (last: Option<nat>)
    requires InOrder(c, audioLen, probs)
    ensures ScanMeans(c, audioLen, probs, ScanAll(c, audioLen, probs), last)
  {
    if probs == [] {
      last := None;
    } else {
      var n := |probs| - 1;
      var before := ScanTracksSpeech(c, audioLen, probs[..n]);
      assert probs == probs[..n] + [probs[n]];
      if IsSpeech(c, probs[n]) {
        SpeechTracks(c, audioLen, probs[..n], probs[n], ScanAll(c, audioLen, probs[..n]), before);
        last := Some(n);
      } else {
        SilenceTracks(c, audioLen, probs[..n], probs[n], ScanAll(c, audioLen, probs[..n]), before);
        last := before;
      }
    }
  }

  /** One more window leaves the runs alone, extends the last one, or opens a new one. */
  lemma RunsGrow(c: VadConfig, audioLen: nat, probs: seq<Score>)
    requires InOrder(c, audioLen, probs) && probs != []
    ensures
      var n := |probs| - 1;
      var open := ScanAll(c, audioLen, probs[..n]).open;
      var before, after := Runs(c, audioLen, probs[..n]), Runs(c, audioLen, probs);
      if !IsSpeech(c, probs[n]) then after == before
      else if open.Some? then
        && before != []
        && before[|before| - 1] == Span(open.value, ScanAll(c, audioLen, probs[..n]).lastEnd)
        && after == before[|before| - 1 := Span(before[|before| - 1].start, WindowEnd(c, audioLen, probs[n]))]
      else after == before + [Span(probs[n].start, WindowEnd(c, audioLen, probs[n]))]
  {
    var n := |probs| - 1;
    ScanKeepsRunsApart(c, audioLen, probs[..n]);
    ScanKeepsRunsApart(c, audioLen, probs);
  }

  /** `after` is `before`, or `before` with its last run stretched to the end of e, or `before` followed by e. */
  ghost predicate GrowsBy(before: seq<Span>, after: seq<Span>, e: Span) {
    || after == before
    || (before != [] && before[|before| - 1].end <= e.end
        && after == before[|before| - 1 := Span(before[|before| - 1].start, e.end)])
    || after == before + [e]
  }

  lemma RunsGrowBy(c: VadConfig, audioLen: nat, probs: seq<Score>)
    requires InOrder(c, audioLen, probs) && probs != []
    ensures
      var n := |probs| - 1;
      var before, after := Runs(c, audioLen, probs[..n]), Runs(c, audioLen, probs);
      var e := Span(probs[n].start, WindowEnd(c, audioLen, probs[n]));
      && GrowsBy(before, after, e)
      && (after != before ==> IsSpeech(c, probs[n]))
      && (after != before && after != before + [e] ==>
            before != [] && before[|before| - 1].end == ScanAll(c, audioLen, probs[..n]).lastEnd)
  {
    var n := |probs| - 1;
    RunsGrow(c, audioLen, probs);
    ScanKeepsRunsApart(c, audioLen, probs[..n]);
    assert n > 0 ==> probs[..n][n - 1].start + c.windowSamples <= probs[n].start;
    hide ScanAll, Flush, Runs;
  }

  lemma TogetherUnderGrowth(c: VadConfig, audioLen: nat, before: seq<Span>, after: seq<Span>, e: Span, v: Score, w: Score)
    requires GrowsBy(before, after, e) && v.start < e.start
    requires before != [] && after != before + [e] ==>
      WindowEnd(c, audioLen, v) <= before[|before| - 1].end && WindowEnd(c, audioLen, w) <= before[|before| - 1].end
    ensures Together(c, audioLen, after, v, w) <==> Together(c, audioLen, before, v, w)
  {
    if Together(c, audioLen, before, v, w) {
      var r :| 0 <= r < |before| && RunHolds(c, audioLen, before[r], v) && RunHolds(c, audioLen, before[r], w);
      assert RunHolds(c, audioLen, after[r], v) && RunHolds(c, audioLen, after[r], w);
    }
    if Together(c, audioLen, after, v, w) {
      var r :| 0 <= r < |after| && RunHolds(c, audioLen, after[r], v) && RunHolds(c, audioLen, after[r], w);
      assert RunHolds(c, audioLen, before[r], v) && RunHolds(c, audioLen, before[r], w);
    }
  }

  lemma SpeechEndsByLast(c: VadConfig, audioLen: nat, probs: seq<Score>, i: nat)
    requires InOrder(c, audioLen, probs) && i < |probs| && IsSpeech(c, probs[i])
    ensures WindowEnd(c, audioLen, probs[i]) <= ScanAll(c, audioLen, probs).lastEnd
  {
    var last := ScanTracksSpeech(c, audioLen, probs);
    assert i <= last.value;
  }

  /** For windows already seen, one more window does not change which of them share a run. */
  lemma TogetherIsStable(c: VadConfig, audioLen: nat, probs: seq<Score>, i: nat, j: nat)
    requires InOrder(c, audioLen, probs) && i < j < |probs| - 1
    requires IsSpeech(c, probs[i]) && IsSpeech(c, probs[j])
    ensures Together(c, audioLen, Runs(c, audioLen, probs), probs[i], probs[j])
            <==> Together(c, audioLen, Runs(c, audioLen, probs[..|probs| - 1]), probs[i], probs[j])
  {
    var n := |probs| - 1;
    var before, after := Runs(c, audioLen, probs[..n]), Runs(c, audioLen, probs);
    RunsGrowBy(c, audioLen, probs);
    hide ScanAll, Flush, Runs, GrowsBy, Together;
    if after != before {
      SpeechEndsByLast(c, audioLen, probs[..n], i);
      SpeechEndsByLast(c, audioLen, probs[..n], j);
      assert probs[i].start + c.windowSamples <= probs[n].start;
      TogetherUnderGrowth(c, audioLen, before, after,
        Span(probs[n].start, WindowEnd(c, audioLen, probs[n])), probs[i], probs[j]);
    }
  }

  /** While a run is open, the last speech window is in it and no break has followed. */
  lemma OpenRunIsUnbroken(c: VadConfig, audioLen: nat, probs: seq<Score>, i: nat)
    requires InOrder(c, audioLen, probs) && NextSpeech(c, probs, i, |probs| - 1)
    requires ScanAll(c, audioLen, probs[..|probs| - 1]).open.Some?
    ensures ScanAll(c, audioLen, probs[..|probs| - 1]).open.value <= probs[i].start
    ensures forall k :: i < k < |probs| - 1 ==> !Breaks(c, audioLen, probs, i, k)
  {
    var n := |probs| - 1;
    var last := ScanTracksSpeech(c, audioLen, probs[..n]);
    hide ScanAll, RunsOk, Flush;
    assert forall k :: 0 <= k < n ==> probs[..n][k] == probs[k];
    assert last == Some(i);
    assert forall k :: i < k < n ==> Breaks(c, audioLen, probs, i, k) == Breaks(c, audioLen, probs[..n], i, k);
  }

  lemma NewestJoinsOpenRun(c: VadConfig, audioLen: nat, probs: seq<Score>, i: nat)
    requires InOrder(c, audioLen, probs) && NextSpeech(c, probs, i, |probs| - 1)
    requires ScanAll(c, audioLen, probs[..|probs| - 1]).open.Some?
    ensures Together(c, audioLen, Runs(c, audioLen, probs), probs[i], probs[|probs| - 1])
    ensures forall k :: i < k < |probs| - 1 ==> !Breaks(c, audioLen, probs, i, k)
  {
    var n := |probs| - 1;
    var after := Runs(c, audioLen, probs);
    RunsGrow(c, audioLen, probs);
    OpenRunIsUnbroken(c, audioLen, probs, i);
    hide ScanAll, RunsOk, Flush, Breaks, Runs;
    LastRunHoldsBoth(c, audioLen, after, probs[i], probs[n]);
  }

  lemma LastRunHoldsBoth(c: VadConfig, audioLen: nat, runs: seq<Span>, v: Score, w: Score)
    requires runs != [] && RunHolds(c, audioLen, runs[|runs| - 1], v) && RunHolds(c, audioLen, runs[|runs| - 1], w)
    ensures Together(c, audioLen, runs, v, w)
  {
  }

  /** With no run open, every run ended before the newest window. */
  lemma ClosedRunsAreOver(c: VadConfig, audioLen: nat, probs: seq<Score>)
    requires InOrder(c, audioLen, probs) && probs != [] && ScanAll(c, audioLen, probs).open.None?
    ensures forall r :: 0 <= r < |Runs(c, audioLen, probs)| ==> Runs(c, audioLen, probs)[r].end <= probs[|probs| - 1].start
  {
    ScanKeepsRunsApart(c, audioLen, probs);
  }

  lemma NewestOpensRun(c: VadConfig, audioLen: nat, probs: seq<Score>, i: nat)
    requires InOrder(c, audioLen, probs) && NextSpeech(c, probs, i, |probs| - 1)
    requires ScanAll(c, audioLen, probs[..|probs| - 1]).open.None?
    ensures !Together(c, audioLen, Runs(c, audioLen, probs), probs[i], probs[|probs| - 1])
    ensures i < |probs| - 2 && Breaks(c, audioLen, probs, i, |probs| - 2)
  {
    var n := |probs| - 1;
    RunsGrow(c, audioLen, probs);
    ClosedRunsAreOver(c, audioLen, probs[..n]);
    var last := ScanTracksSpeech(c, audioLen, probs[..n]);
    hide ScanAll, MsToSamples, Flush, Runs;
    assert forall k :: 0 <= k < n ==> probs[..n][k] == probs[k];
    assert last == Some(i);
    assert Breaks(c, audioLen, probs, i, n - 1);
    hide Breaks, ScanMeans;
    assert probs[n - 1].start + c.windowSamples <= probs[n].start;
  }

  /** The newest window joins the run of the previous speech window unless a break lies between them. */
  lemma NewestWindowJoins(c: VadConfig, audioLen: nat, probs: seq<Score>, i: nat)
    requires InOrder(c, audioLen, probs) && NextSpeech(c, probs, i, |probs| - 1)
    ensures Together(c, audioLen, Runs(c, audioLen, probs), probs[i], probs[|probs| - 1])
            <==> forall k :: i < k < |probs| - 1 ==> !Breaks(c, audioLen, probs, i, k)
  {
    if ScanAll(c, audioLen, probs[..|probs| - 1]).open.Some? {
      NewestJoinsOpenRun(c, audioLen, probs, i);
    } else {
      NewestOpensRun(c, audioLen, probs, i);
    }
  }

  /**
   The automaton's meaning: two successive speech windows share a run exactly
   when no silent window between them starts the minimum silence or more after
   the first one ended.
   */
  lemma {:induction false} RunsBridgeShortSilence(c: VadConfig, audioLen: nat, probs: seq<Score>, i: nat, j: nat)
    requires InOrder(c, audioLen, probs) && NextSpeech(c, probs, i, j)
    ensures Together(c, audioLen, Runs(c, audioLen, probs), probs[i], probs[j])
            <==> forall k :: i < k < j ==> !Breaks(c, audioLen, probs, i, k)
    decreases |probs|
  {
    var n := |probs| - 1;
    if j == n {
      NewestWindowJoins(c, audioLen, probs, i);
    } else {
      assert forall k :: 0 <= k < n ==> probs[..n][k] == probs[k];
      RunsBridgeShortSilence(c, audioLen, probs[..n], i, j);
      TogetherIsStable(c, audioLen, probs, i, j);
      assert forall k :: i < k < j ==> Breaks(c, audioLen, probs, i, k) == Breaks(c, audioLen, probs[..n], i, k);
    }
  }

  lemma FramedUnderGrowth(c: VadConfig, audioLen: nat, probs: seq<Score>, before: seq<Span>, after: seq<Span>, w: Score)
    requires forall r :: 0 <= r < |before| ==> FramedBySpeech(c, audioLen, probs, before[r])
    requires after != before ==> IsSpeech(c, w)
    requires GrowsBy(before, after, Span(w.start, WindowEnd(c, audioLen, w)))
    ensures forall r :: 0 <= r < |after| ==> FramedBySpeech(c, audioLen, probs + [w], after[r])
  {
    var longer := probs + [w];
    forall r | 0 <= r < |after| ensures FramedBySpeech(c, audioLen, longer, after[r]) {
      if r < |before| {
        var a, b :| 0 <= a <= b < |probs| && Frames(c, audioLen, probs, before[r], a, b);
        assert longer[a] == probs[a] && longer[b] == probs[b];
        assert Frames(c, audioLen, longer, after[r], a, if after[r] == before[r] then b else |probs|);
      } else {
        assert Frames(c, audioLen, longer, after[r], |probs|, |probs|);
      }
    }
  }

  /** Every run starts where a speech window starts and ends where one ends. */
  lemma {:induction false} RunsAreFramedBySpeech(c: VadConfig, audioLen: nat, probs: seq<Score>)
    requires InOrder(c, audioLen, probs)
    ensures forall r :: 0 <= r < |Runs(c, audioLen, probs)| ==> FramedBySpeech(c, audioLen, probs, Runs(c, audioLen, probs)[r])
  {
    if probs != [] {
      var n := |probs| - 1;
      RunsAreFramedBySpeech(c, audioLen, probs[..n]);
      RunsGrowBy(c, audioLen, probs);
      hide ScanAll, Flush, Runs, GrowsBy;
      assert probs == probs[..n] + [probs[n]];
      FramedUnderGrowth(c, audioLen, probs[..n], Runs(c, audioLen, probs[..n]), Runs(c, audioLen, probs), probs[n]);
    }
  }

  /** Every speech window lies in a run. */
  lemma {:induction false} SpeechIsInRuns(c: VadConfig, audioLen: nat, probs: seq<Score>, i: nat)
    requires InOrder(c, audioLen, probs) && i < |probs| && probs[i].prob >= c.threshold
    ensures InSomeRun(c, audioLen, Runs(c, audioLen, probs), probs[i])
  {
    var n := |probs| - 1;
    var before, after := Runs(c, audioLen, probs[..n]), Runs(c, audioLen, probs);
    RunsGrow(c, audioLen, probs);
    ScanKeepsRunsApart(c, audioLen, probs[..n]);
    assert n > 0 ==> probs[..n][n - 1].start + c.windowSamples <= probs[n].start;
    if i < n {
      SpeechIsInRuns(c, audioLen, probs[..n], i);
      var r :| 0 <= r < |before| && RunHolds(c, audioLen, before[r], probs[..n][i]);
      assert RunHolds(c, audioLen, after[r], probs[i]);
    } else {
      assert RunHolds(c, audioLen, after[|after| - 1], probs[i]);
    }
  }

  ghost predicate InSomeRun(c: VadConfig, audioLen: nat, runs: seq<Span>, w: Score) {
    exists r :: 0 <= r < |runs| && RunHolds(c, audioLen, runs[r], w)
  }

  ghost predicate Frames(c: VadConfig, audioLen: nat, probs: seq<Score>, run: Span, a: int, b: int)
    requires 0 <= a <= b < |probs|
  {
    && probs[a].prob >= c.threshold && probs[b].prob >= c.threshold
    && run.start == probs[a].start && run.end == Min(probs[b].start + c.windowSamples, audioLen)
  }

  ghost predicate FramedBySpeech(c: VadConfig, audioLen: nat, probs: seq<Score>, run: Span) {
    exists a, b :: 0 <= a <= b < |probs| && Frames(c, audioLen, probs, run, a, b)
  }
}
