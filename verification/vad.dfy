/**
 Voice-activity segmentation: from per-window speech probabilities to padded
 speech segments (rkwhisper/src/vad.rs).

 Positions are sample indices.  The automaton that groups windows into raw runs
 is `ScanStep`; the pass that drops short runs, pads the others and joins the
 ones that touch is `Absorb`.  The loop the program runs is the method
 `SegmentsFromProbs`; what the segments mean is stated by the theorems below.
 */
module Vad {
  import opened Wrappers

  const SAMPLE_RATE: nat := 16000

  datatype VadConfig = VadConfig(
    threshold: real,
    minSpeechMs: nat,
    minSilenceMs: nat,
    speechPadMs: nat,
    windowSamples: pos)

  /** A half-open interval of samples. */
  datatype Span = Span(start: nat, end: nat)

  /** The speech probability of the window that starts at `start`. */
  datatype Score = Score(start: nat, prob: real)

  /** Sixteen samples are a millisecond. */
  function MsToSamples(ms: nat): (n: nat)
    ensures n == 16 * ms
  {
    ms * SAMPLE_RATE / 1000
  }

  function WindowEnd(c: VadConfig, audioLen: nat, w: Score): nat {
    Min(w.start + c.windowSamples, audioLen)
  }

  predicate IsSpeech(c: VadConfig, w: Score) { w.prob >= c.threshold }

  // ---------------------------------------------------------------- raw runs

  /** The automaton's state: closed runs, the start of the open run, the end of the last speech window. */
  datatype Scan = Scan(runs: seq<Span>, open: Option<nat>, lastEnd: nat)

  function ScanStep(c: VadConfig, audioLen: nat, st: Scan, w: Score): Scan {
    if IsSpeech(c, w) then
      Scan(st.runs, if st.open.None? then Some(w.start) else st.open, WindowEnd(c, audioLen, w))
    else if st.open.Some? && SatSub(w.start, st.lastEnd) >= MsToSamples(c.minSilenceMs) then
      Scan(st.runs + [Span(st.open.value, st.lastEnd)], None, st.lastEnd)
    else
      st
  }

  function ScanAll(c: VadConfig, audioLen: nat, probs: seq<Score>): Scan {
    if probs == [] then Scan([], None, 0)
    else ScanStep(c, audioLen, ScanAll(c, audioLen, probs[..|probs| - 1]), probs[|probs| - 1])
  }

  function Flush(st: Scan): seq<Span> {
    if st.open.Some? then st.runs + [Span(st.open.value, Max(st.lastEnd, st.open.value))] else st.runs
  }

  function Runs(c: VadConfig, audioLen: nat, probs: seq<Score>): seq<Span> {
    Flush(ScanAll(c, audioLen, probs))
  }

  // ---------------------------------------------------------------- merging

  predicate LongEnough(c: VadConfig, run: Span) {
    SatSub(run.end, run.start) >= MsToSamples(c.minSpeechMs)
  }

  function Padded(c: VadConfig, audioLen: nat, run: Span): Span {
    var pad := MsToSamples(c.speechPadMs);
    Span(SatSub(run.start, pad), Min(run.end + pad, audioLen))
  }

  function Absorb(c: VadConfig, audioLen: nat, segs: seq<Span>, run: Span): seq<Span> {
    var p := Padded(c, audioLen, run);
    if !LongEnough(c, run) then segs
    else if segs != [] && p.start <= segs[|segs| - 1].end then
      segs[|segs| - 1 := Span(segs[|segs| - 1].start, Max(segs[|segs| - 1].end, p.end))]
    else segs + [p]
  }

  function Merge(c: VadConfig, audioLen: nat, runs: seq<Span>): seq<Span> {
    if runs == [] then []
    else Absorb(c, audioLen, Merge(c, audioLen, runs[..|runs| - 1]), runs[|runs| - 1])
  }

  function Segments(c: VadConfig, audioLen: nat, probs: seq<Score>): seq<Span> {
    Merge(c, audioLen, Runs(c, audioLen, probs))
  }

  /** The program's two loops, one pass each. */
  method SegmentsFromProbs(c: VadConfig, audioLen: nat, probs: seq<Score>) returns (merged: seq<Span>)
    ensures merged == Segments(c, audioLen, probs)
  {
    hide ScanAll, Merge, MsToSamples;
    MergeOfNothing(c, audioLen);
    ScanOfNothing(c, audioLen);
    var minSpeech := MsToSamples(c.minSpeechMs);
    var minSilence := MsToSamples(c.minSilenceMs);
    var speechPad := MsToSamples(c.speechPadMs);
    var raw: seq<Span> := [];
    var currentStart: Option<nat> := None;
    var lastSpeechEnd: nat := 0;
    for i := 0 to |probs|
      invariant Scan(raw, currentStart, lastSpeechEnd) == ScanAll(c, audioLen, probs[..i])
    {
      var start := probs[i].start;
      var end := Min(start + c.windowSamples, audioLen);
      if probs[i].prob >= c.threshold {
        if currentStart.None? {
          currentStart := Some(start);
        }
        lastSpeechEnd := end;
      } else if currentStart.Some? && SatSub(start, lastSpeechEnd) >= minSilence {
        raw := raw + [Span(currentStart.value, lastSpeechEnd)];
        currentStart := None;
      }
      ScanAllNext(c, audioLen, probs, i);
    }
    assert probs[..|probs|] == probs;
    if currentStart.Some? {
      raw := raw + [Span(currentStart.value, Max(lastSpeechEnd, currentStart.value))];
    }
    merged := [];
    for k := 0 to |raw|
      invariant merged == Merge(c, audioLen, raw[..k])
    {
      MergeNext(c, audioLen, raw, k);
      var start, end := raw[k].start, raw[k].end;
      if SatSub(end, start) < minSpeech {
        continue;
      }
      var paddedStart := SatSub(start, speechPad);
      var paddedEnd := Min(end + speechPad, audioLen);
      if merged != [] && paddedStart <= merged[|merged| - 1].end {
        var last := merged[|merged| - 1];
        merged := merged[|merged| - 1 := Span(last.start, Max(last.end, paddedEnd))];
        continue;
      }
      merged := merged + [Span(paddedStart, paddedEnd)];
    }
    assert raw[..|raw|] == raw;
  }

  lemma ScanAllNext(c: VadConfig, audioLen: nat, probs: seq<Score>, i: nat)
    requires i < |probs|
    ensures ScanAll(c, audioLen, probs[..i + 1]) == ScanStep(c, audioLen, ScanAll(c, audioLen, probs[..i]), probs[i])
  {
    assert probs[..i + 1][..i] == probs[..i];
  }

  lemma MergeNext(c: VadConfig, audioLen: nat, runs: seq<Span>, k: nat)
    requires k < |runs|
    ensures Merge(c, audioLen, runs[..k + 1]) == Absorb(c, audioLen, Merge(c, audioLen, runs[..k]), runs[k])
  {
    assert runs[..k + 1][..k] == runs[..k];
  }

  lemma ScanOfNothing(c: VadConfig, audioLen: nat)
    ensures ScanAll(c, audioLen, []) == Scan([], None, 0)
  {
  }

  lemma MergeOfNothing(c: VadConfig, audioLen: nat)
    ensures Merge(c, audioLen, []) == []
  {
  }

  // ------------------------------------------------------------- vocabulary

  /** Scores as the program produces them: windows in order, none overlapping, each starting inside the audio. */
  ghost predicate InOrder(c: VadConfig, audioLen: nat, probs: seq<Score>) {
    && (forall i :: 0 <= i < |probs| ==> probs[i].start < audioLen)
    && (forall i, j :: 0 <= i < j < |probs| ==> probs[i].start + c.windowSamples <= probs[j].start)
  }

  /** Every window lies wholly inside the audio. */
  ghost predicate FullWindows(c: VadConfig, audioLen: nat, probs: seq<Score>) {
    forall i :: 0 <= i < |probs| ==> probs[i].start + c.windowSamples <= audioLen
  }

  ghost predicate Holds(s: Span, x: int) { s.start <= x < s.end }

  ghost predicate Covers(segs: seq<Span>, x: int) {
    exists i :: 0 <= i < |segs| && Holds(segs[i], x)
  }

  /** Normal form: non-empty spans inside the audio, each long enough, with a strict gap between any two. */
  ghost predicate Normal(c: VadConfig, audioLen: nat, segs: seq<Span>) {
    && (forall i :: 0 <= i < |segs| ==>
          segs[i].start < segs[i].end <= audioLen && segs[i].end - segs[i].start >= 16 * c.minSpeechMs)
    && (forall i, j :: 0 <= i < j < |segs| ==> segs[i].end < segs[j].start)
  }

  /** Raw runs: non-empty, inside the audio, and separated by more than the minimum silence. */
  ghost predicate RunsOk(c: VadConfig, audioLen: nat, runs: seq<Span>) {
    && (forall i :: 0 <= i < |runs| ==> runs[i].start < runs[i].end <= audioLen)
    && (forall i, j :: 0 <= i < j < |runs| ==> runs[i].end + 16 * c.minSilenceMs < runs[j].start)
  }

  ghost predicate ScanOk(c: VadConfig, audioLen: nat, probs: seq<Score>, st: Scan) {
    && RunsOk(c, audioLen, st.runs)
    && st.lastEnd <= audioLen
    && (probs == [] ==> st == Scan([], None, 0))
    && (probs != [] ==> st.lastEnd <= probs[|probs| - 1].start + c.windowSamples)
    && (st.open.Some? ==>
          && st.open.value < st.lastEnd
          && (forall i :: 0 <= i < |st.runs| ==> st.runs[i].end + 16 * c.minSilenceMs < st.open.value))
    && (st.open.None? && probs != [] ==>
          forall i :: 0 <= i < |st.runs| ==>
            st.runs[i].end + 16 * c.minSilenceMs <= probs[|probs| - 1].start)
  }

  lemma ScanStepKeepsOk(c: VadConfig, audioLen: nat, probs: seq<Score>, w: Score, st: Scan)
    requires ScanOk(c, audioLen, probs, st)
    requires w.start < audioLen
    requires probs != [] ==> probs[|probs| - 1].start + c.windowSamples <= w.start
    ensures ScanOk(c, audioLen, probs + [w], ScanStep(c, audioLen, st, w))
  {
    hide MsToSamples;
    assert (probs + [w])[|probs|] == w;
  }

  lemma {:induction false} ScanKeepsRunsApart(c: VadConfig, audioLen: nat, probs: seq<Score>)
    requires InOrder(c, audioLen, probs)
    ensures ScanOk(c, audioLen, probs, ScanAll(c, audioLen, probs))
  {
    if probs != [] {
      var n := |probs| - 1;
      ScanKeepsRunsApart(c, audioLen, probs[..n]);
      assert n > 0 ==> probs[..n][n - 1].start + c.windowSamples <= probs[n].start;
      assert probs == probs[..n] + [probs[n]];
      ScanStepKeepsOk(c, audioLen, probs[..n], probs[n], ScanAll(c, audioLen, probs[..n]));
    }
  }

  /** The raw runs are disjoint and more than the minimum silence apart. */
  lemma RunsAreApart(c: VadConfig, audioLen: nat, probs: seq<Score>)
    requires InOrder(c, audioLen, probs)
    ensures RunsOk(c, audioLen, Runs(c, audioLen, probs))
  {
    ScanKeepsRunsApart(c, audioLen, probs);
  }
}
