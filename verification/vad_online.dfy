/** Segments of a growing stream: what has been reported stays, and only the last segment may still grow. */
module VadOnline {
  import opened Wrappers
  import opened Vad
  import opened VadTheorems

  /** All segments but the last are kept as they are; the last keeps its start and may end later; more may follow. */
  ghost predicate Extends(segs: seq<Span>, longer: seq<Span>) {
    && |segs| <= |longer|
    && (forall i :: 0 <= i < |segs| - 1 ==> longer[i] == segs[i])
    && (segs != [] ==>
          && longer[|segs| - 1].start == segs[|segs| - 1].start
          && segs[|segs| - 1].end <= longer[|segs| - 1].end)
  }

  lemma ExtendsTransitive(a: seq<Span>, b: seq<Span>, d: seq<Span>)
    requires Extends(a, b) && Extends(b, d)
    ensures Extends(a, d)
  {
    if a != [] && |a| < |b| {
      assert d[|a| - 1] == b[|a| - 1];
    }
  }

  /** Full windows give the same runs however much audio follows them. */
  lemma {:induction false} ScanIgnoresLaterAudio(c: VadConfig, len: nat, len': nat, probs: seq<Score>)
    requires len <= len' && FullWindows(c, len, probs)
    ensures ScanAll(c, len, probs) == ScanAll(c, len', probs)
  {
    if probs != [] {
      assert FullWindows(c, len, probs[..|probs| - 1]);
      ScanIgnoresLaterAudio(c, len, len', probs[..|probs| - 1]);
    }
  }

  /** Segments computed with less audio are those computed with more, cut at the shorter end. */
  ghost predicate Clipped(segs: seq<Span>, longer: seq<Span>, len: nat) {
    && |segs| == |longer|
    && forall i :: 0 <= i < |segs| ==> segs[i] == Span(longer[i].start, Min(longer[i].end, len))
  }

  lemma AbsorbIsClipped(c: VadConfig, len: nat, len': nat, segs: seq<Span>, longer: seq<Span>, run: Span)
    requires len <= len' && run.start <= len && Clipped(segs, longer, len)
    requires segs != [] ==> segs[|segs| - 1].start < segs[|segs| - 1].end
    ensures Clipped(Absorb(c, len, segs, run), Absorb(c, len', longer, run), len)
  {
  }

  lemma {:induction false} MergeIsClipped(c: VadConfig, len: nat, len': nat, runs: seq<Span>)
    requires len <= len' && RunsOk(c, len, runs)
    ensures Clipped(Merge(c, len, runs), Merge(c, len', runs), len)
  {
    if runs != [] {
      var n := |runs| - 1;
      MergeIsClipped(c, len, len', runs[..n]);
      MergeIsNormal(c, len, runs[..n]);
      AbsorbIsClipped(c, len, len', Merge(c, len, runs[..n]), Merge(c, len', runs[..n]), runs[n]);
      hide Absorb, Clipped;
    }
  }

  lemma ClippedExtends(c: VadConfig, len: nat, segs: seq<Span>, longer: seq<Span>)
    requires Normal(c, len, segs) && Clipped(segs, longer, len)
    ensures Extends(segs, longer)
  {
    forall i | 0 <= i < |segs| - 1 ensures longer[i] == segs[i] {
      assert segs[i].end < segs[i + 1].start;
    }
  }

  lemma MoreAudioExtends(c: VadConfig, len: nat, len': nat, probs: seq<Score>)
    requires len <= len' && InOrder(c, len, probs) && FullWindows(c, len, probs)
    ensures Extends(Segments(c, len, probs), Segments(c, len', probs))
  {
    ScanIgnoresLaterAudio(c, len, len', probs);
    RunsAreApart(c, len, probs);
    MergeIsClipped(c, len, len', Runs(c, len, probs));
    SegmentsAreNormal(c, len, probs);
    ClippedExtends(c, len, Segments(c, len, probs), Segments(c, len', probs));
  }

  lemma AbsorbExtends(c: VadConfig, len: nat, segs: seq<Span>, run: Span, longerRun: Span)
    requires run.start == longerRun.start && run.end <= longerRun.end
    ensures Extends(segs, Absorb(c, len, segs, run))
    ensures Extends(Absorb(c, len, segs, run), Absorb(c, len, segs, longerRun))
  {
  }

  lemma MergeGrows(c: VadConfig, len: nat, before: seq<Span>, after: seq<Span>, e: Span)
    requires GrowsBy(before, after, e)
    ensures Extends(Merge(c, len, before), Merge(c, len, after))
  {
    if after != before {
      var n := |before| - 1;
      if after == before + [e] {
        assert after[..|before|] == before;
        AbsorbExtends(c, len, Merge(c, len, before), e, e);
      } else {
        assert after[..n] == before[..n];
        AbsorbExtends(c, len, Merge(c, len, before[..n]), before[n], after[n]);
      }
    }
  }

  lemma MoreScoresExtends(c: VadConfig, len: nat, probs: seq<Score>, w: Score)
    requires InOrder(c, len, probs + [w])
    ensures Extends(Segments(c, len, probs), Segments(c, len, probs + [w]))
  {
    var longer := probs + [w];
    assert longer[..|longer| - 1] == probs;
    RunsGrow(c, len, longer);
    ScanKeepsRunsApart(c, len, probs);
    assert probs != [] ==> longer[|probs| - 1].start + c.windowSamples <= longer[|probs|].start;
    MergeGrows(c, len, Runs(c, len, probs), Runs(c, len, longer), Span(w.start, WindowEnd(c, len, w)));
  }

  /**
   Online stability: when the windows seen so far are full, appending any
   further windows and audio keeps every segment but the last, keeps the start
   of the last one, and can only move its end later.
   */
  lemma {:induction false} SegmentsAreStable(c: VadConfig, len: nat, len': nat, probs: seq<Score>, more: seq<Score>)
    requires len <= len'
    requires InOrder(c, len, probs) && FullWindows(c, len, probs) && InOrder(c, len', probs + more)
    ensures Extends(Segments(c, len, probs), Segments(c, len', probs + more))
  {
    if more == [] {
      assert probs + more == probs;
      MoreAudioExtends(c, len, len', probs);
    } else {
      var n := |more| - 1;
      assert probs + more == (probs + more[..n]) + [more[n]];
      assert InOrder(c, len', probs + more[..n]) by {
        assert forall i :: 0 <= i < |probs| + n ==> (probs + more[..n])[i] == (probs + more)[i];
      }
      SegmentsAreStable(c, len, len', probs, more[..n]);
      MoreScoresExtends(c, len', probs + more[..n], more[n]);
      ExtendsTransitive(Segments(c, len, probs), Segments(c, len', probs + more[..n]), Segments(c, len', probs + more));
    }
  }
}
