/**
 What a cut does to the scores of the samples behind it: a window is cut where a
 full Whisper window or a segment ends, which may be inside a VAD window.
 */
module LiveCuts {
  import opened Wrappers
  import opened Vad
  import opened LiveJob
  import opened LiveSteps

  /** Sample x of the buffer lies in the VAD window of score w. */
  predicate Within(j: Job, w: Score, x: nat) { w.start <= x < Min(w.start + WindowSamplesOr0(j), |j.buffer|) }

  predicate IsScored(j: Job, x: nat) { exists i :: 0 <= i < |j.probs| && Within(j, j.probs[i], x) }

  /** The VAD window of score w begins before the cut and goes on behind it. */
  predicate Straddles(j: Job, w: Score, end: nat) { w.start < end && Within(j, w, end) }

  /** No sample is scored twice. */
  lemma OneWindowPerSample(j: Job, i: nat, k: nat, x: nat)
    requires Sound(j) && j.vad.Some? && i < |j.probs| && k < |j.probs|
    requires Within(j, j.probs[i], x) && Within(j, j.probs[k], x)
    ensures i == k
  {
  }

  /** A score survives a cut if and only if its VAD window begins at or behind it. */
  lemma KeptScores(j: Job, p: Plan, i: nat)
    requires Sound(j) && j.vad.Some? && Fits(j, p) && i < |j.probs|
    ensures j.probs[i].start >= p.end ==> Score(j.probs[i].start - p.end, j.probs[i].prob) in Cut(j, p).probs
  {
    RebaseIsSuffix(j.probs, p.end);
  }

  lemma KeptScoreWas(j: Job, p: Plan, k: nat) returns (i: nat)
    requires Sound(j) && j.vad.Some? && Fits(j, p) && k < |Cut(j, p).probs|
    ensures i < |j.probs| && j.probs[i].start >= p.end
    ensures Cut(j, p).probs[k] == Score(j.probs[i].start - p.end, j.probs[i].prob)
  {
    RebaseIsSuffix(j.probs, p.end);
    i := |j.probs| - |Rebase(j.probs, p.end)| + k;
  }

  /** A sample behind the cut is scored afterwards if and only if a VAD window that does not straddle the cut scored it. */
  lemma ScoredBehindCut(j: Job, p: Plan, x: nat)
    requires Sound(j) && j.vad.Some? && Fits(j, p)
    ensures IsScored(Cut(j, p), x)
            <==> exists i :: 0 <= i < |j.probs| && Within(j, j.probs[i], p.end + x) && !Straddles(j, j.probs[i], p.end)
  {
    var j' := Cut(j, p);
    if IsScored(j', x) {
      var k: nat :| k < |j'.probs| && Within(j', j'.probs[k], x);
      var i := KeptScoreWas(j, p, k);
      assert Within(j, j.probs[i], p.end + x) && !Straddles(j, j.probs[i], p.end);
    }
    if i: nat :| i < |j.probs| && Within(j, j.probs[i], p.end + x) && !Straddles(j, j.probs[i], p.end) {
      KeptScores(j, p, i);
      var k :| 0 <= k < |j'.probs| && j'.probs[k] == Score(j.probs[i].start - p.end, j.probs[i].prob);
      assert Within(j', j'.probs[k], x);
    }
  }

  /** Every scored sample behind the cut keeps its score. */
  ghost predicate CutKeepsScored(j: Job, p: Plan)
    requires Fits(j, p)
  {
    forall x: nat :: IsScored(j, p.end + x) ==> IsScored(Cut(j, p), x)
  }

  lemma StraddledIsLost(j: Job, p: Plan, i: nat)
    requires Sound(j) && j.vad.Some? && Fits(j, p) && i < |j.probs| && Straddles(j, j.probs[i], p.end)
    ensures !CutKeepsScored(j, p)
  {
    ScoredBehindCut(j, p, 0);
    assert IsScored(j, p.end + 0);
    if k: nat :| k < |j.probs| && Within(j, j.probs[k], p.end) && !Straddles(j, j.probs[k], p.end) {
      OneWindowPerSample(j, i, k, p.end);
    }
  }

  lemma LostIsStraddled(j: Job, p: Plan, x: nat) returns (i: nat)
    requires Sound(j) && j.vad.Some? && Fits(j, p) && IsScored(j, p.end + x) && !IsScored(Cut(j, p), x)
    ensures i < |j.probs| && Straddles(j, j.probs[i], p.end) && Within(j, j.probs[i], p.end + x)
  {
    i :| 0 <= i < |j.probs| && Within(j, j.probs[i], p.end + x);
    ScoredBehindCut(j, p, x);
  }

  /**
   A cut loses scores of samples behind it if and only if some VAD window straddles
   it.  There is at most one such window, so fewer samples than a VAD window has
   are affected.
   */
  lemma CutLosesOnlyStraddled(j: Job, p: Plan)
    requires Sound(j) && j.vad.Some? && Fits(j, p)
    ensures CutKeepsScored(j, p) <==> forall i :: 0 <= i < |j.probs| ==> !Straddles(j, j.probs[i], p.end)
    ensures forall i, k :: 0 <= i < k < |j.probs| ==> !(Straddles(j, j.probs[i], p.end) && Straddles(j, j.probs[k], p.end))
    ensures forall x: nat :: IsScored(j, p.end + x) && !IsScored(Cut(j, p), x) ==> x + 1 < WindowSamplesOr0(j)
  {
    forall i | 0 <= i < |j.probs| && Straddles(j, j.probs[i], p.end) ensures !CutKeepsScored(j, p) {
      StraddledIsLost(j, p, i);
    }
    hide Sound, Cut, IsScored;
    forall x: nat | IsScored(j, p.end + x) && !IsScored(Cut(j, p), x)
      ensures x + 1 < WindowSamplesOr0(j)
      ensures exists i :: 0 <= i < |j.probs| && Straddles(j, j.probs[i], p.end)
    {
      var i := LostIsStraddled(j, p, x);
    }
  }
}
