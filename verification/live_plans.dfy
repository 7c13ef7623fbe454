/**
 When a window is due and what it is, in terms of the job's speech segments alone:
 when the audio has ended, when speech reaches 30 s beyond the start of the first
 segment, or when 2 s have been buffered since the last one ended.
 */
module LivePlans {
  import opened Wrappers
  import opened Vad
  import opened LiveJob
  import VadTheorems

  /** Some segment ends 30 s or more after the first one starts. */
  ghost predicate ReachesLimit(segs: seq<Span>) {
    exists i :: 0 <= i < |segs| && segs[i].end >= segs[0].start + 480000
  }

  /** 2 s or more are buffered behind the last segment. */
  ghost predicate IsSilent(j: Job, segs: seq<Span>)
    requires segs != []
  {
    |j.buffer| >= segs[|segs| - 1].end + 32000
  }

  /** A window ends at `end`: where the last segment that fits in 30 s ends, or at 30 s when even the first does not fit. */
  ghost predicate EndsWindow(segs: seq<Span>, end: nat)
    requires segs != []
  {
    var limit := segs[0].start + 480000;
    && end <= limit
    && (forall i :: 0 <= i < |segs| && segs[i].end <= limit ==> segs[i].end <= end)
    && (if segs[0].end > limit then end == limit else exists i :: 0 <= i < |segs| && segs[i].end == end)
  }

  /** The segments that begin before `end`, cut off there. */
  function Clipped(segs: seq<Span>, end: nat): seq<Span> {
    var n := |segs| - 1;
    if n < 0 then []
    else Clipped(segs[..n], end) + if segs[n].start < end then [Span(segs[n].start, Min(segs[n].end, end))] else []
  }

  ghost predicate Apart(segs: seq<Span>) {
    && (forall i :: 0 <= i < |segs| ==> segs[i].start < segs[i].end)
    && (forall i, k :: 0 <= i < k < |segs| ==> segs[i].end < segs[k].start)
  }

  /** Segment l is the last that fits in a window opened at the first one, or the first when not even that fits. */
  ghost predicate IsLastFit(segs: seq<Span>, l: nat) {
    && l < |segs|
    && if segs[0].end > segs[0].start + 480000 then l == 0
       else
         && segs[l].end <= segs[0].start + 480000
         && (l + 1 < |segs| ==> segs[l + 1].end > segs[0].start + 480000)
  }

  lemma {:induction false} LastFittingGoesOn(segs: seq<Span>, i: nat)
    requires 0 < i <= |segs| && segs[i - 1].end <= segs[0].start + 480000
    requires segs[0].end <= segs[0].start + 480000
    ensures IsLastFit(segs, LastFitting(segs, i, i - 1))
    decreases |segs| - i
  {
    if i < |segs| && segs[i].end <= segs[0].start + 480000 {
      LastFittingGoesOn(segs, i + 1);
    }
  }

  lemma LastFittingIsLast(segs: seq<Span>)
    requires segs != []
    ensures IsLastFit(segs, LastFitting(segs, 0, 0))
  {
    if segs[0].end <= segs[0].start + 480000 {
      LastFittingGoesOn(segs, 1);
    }
  }

  lemma {:induction false} ClippedUpTo(segs: seq<Span>, last: nat, end: nat, m: nat)
    requires Apart(segs) && last < |segs| && m <= |segs|
    requires segs[last].start < end && forall i :: last < i < |segs| ==> segs[i].start >= end
    ensures Clipped(segs[..m], end) == SpeechEvents(segs, last, end)[..Min(m, last + 1)]
  {
    var events := SpeechEvents(segs, last, end);
    if m > 0 {
      ClippedUpTo(segs, last, end, m - 1);
      assert segs[..m][..m - 1] == segs[..m - 1];
      if m <= last + 1 {
        assert segs[m - 1].start < end;
        assert events[..m] == events[..m - 1] + [events[m - 1]];
      }
    }
  }

  lemma EventsAre(segs: seq<Span>, l: nat, end: nat)
    requires Apart(segs) && l < |segs|
    requires segs[l].start < end && forall i :: l < i < |segs| ==> segs[i].start >= end
    ensures SpeechEvents(segs, l, end) == Clipped(segs, end)
  {
    ClippedUpTo(segs, l, end, |segs|);
    assert segs[..|segs|] == segs;
    assert SpeechEvents(segs, l, end)[..l + 1] == SpeechEvents(segs, l, end);
  }

  lemma DueWhen(j: Job, segs: seq<Span>, l: nat)
    requires Apart(segs) && IsLastFit(segs, l) && segs[|segs| - 1].end <= |j.buffer|
    ensures l + 1 < |segs| || FullWindow(segs, l) || |j.buffer| - segs[l].end >= SILENCE_TIMEOUT
            <==> ReachesLimit(segs) || IsSilent(j, segs)
  {
    var n := |segs| - 1;
    if l < n {
      assert segs[l + 1].end >= segs[0].start + 480000;
    } else if ReachesLimit(segs) {
      var i :| 0 <= i < |segs| && segs[i].end >= segs[0].start + 480000;
      assert segs[i].end <= segs[n].end;
    }
  }

  lemma EndsAt(segs: seq<Span>, l: nat)
    requires Apart(segs) && IsLastFit(segs, l)
    ensures var end := if FullWindow(segs, l) then segs[0].start + 480000 else segs[l].end;
            && EndsWindow(segs, end)
            && segs[l].start < end && (forall i :: l < i < |segs| ==> segs[i].start >= end)
  {
    var end := if FullWindow(segs, l) then segs[0].start + 480000 else segs[l].end;
    if segs[0].end <= segs[0].start + 480000 {
      assert segs[l].end == end;
      assert l + 1 < |segs| ==> forall i :: l + 1 < i < |segs| ==> segs[l + 1].end < segs[i].start;
    }
  }

  lemma PlanIsAtLastFit(j: Job, segs: seq<Span>)
    requires segs != []
    ensures IsLastFit(segs, LastFitting(segs, 0, 0)) && VadPlan(j, segs) == PlanAt(j, segs, LastFitting(segs, 0, 0))
  {
    LastFittingIsLast(segs);
    hide LastFitting;
  }

  lemma PlanAtMeans(j: Job, segs: seq<Span>, l: nat)
    requires Apart(segs) && IsLastFit(segs, l) && segs[|segs| - 1].end <= |j.buffer| && j.buffer != []
    ensures PlanAt(j, segs, l).Some? <==> j.closed || ReachesLimit(segs) || IsSilent(j, segs)
    ensures PlanAt(j, segs, l).Some? ==>
              var p := PlanAt(j, segs, l).value;
              p.start == segs[0].start && EndsWindow(segs, p.end) && p.events == Clipped(segs, p.end)
  {
    DueWhen(j, segs, l);
    EndsAt(segs, l);
    EventsAre(segs, l, if FullWindow(segs, l) then segs[0].start + 480000 else segs[l].end);
    hide ReachesLimit, IsSilent, EndsWindow, Clipped, Apart, SpeechEvents;
  }

  lemma PlanOfSegments(j: Job, segs: seq<Span>)
    requires Apart(segs) && segs != [] && segs[|segs| - 1].end <= |j.buffer|
    ensures VadPlan(j, segs).Some? <==> j.closed || ReachesLimit(segs) || IsSilent(j, segs)
    ensures VadPlan(j, segs).Some? ==>
              var p := VadPlan(j, segs).value;
              p.start == segs[0].start && EndsWindow(segs, p.end) && p.events == Clipped(segs, p.end)
  {
    PlanIsAtLastFit(j, segs);
    assert j.buffer != [];
    hide VadPlan, LastFitting, EndsWindow, Clipped, Apart, ReachesLimit, IsSilent, SpeechEvents, IsLastFit;
    PlanAtMeans(j, segs, LastFitting(segs, 0, 0));
  }

  lemma SegmentsAreApart(j: Job)
    requires Sound(j) && j.vad.Some?
    ensures Apart(JobSegments(j))
    ensures JobSegments(j) != [] ==> JobSegments(j)[|JobSegments(j)| - 1].end <= |j.buffer|
  {
    VadTheorems.SegmentsAreNormal(j.vad.value, |j.buffer|, j.probs);
  }

  /**
   A plan is due if and only if there is speech and the audio has ended, or the
   speech reaches 30 s, or has been over for 2 s.  It starts with the first segment
   and ends with the last that fits, or at 30 s; its events are the segments in it.
   Without VAD a plan is due when 30 s are buffered or the audio has ended.
   */
  lemma PlanIsDue(j: Job)
    requires Sound(j)
    ensures if j.vad.Some? then
              var segs := Segments(j.vad.value, |j.buffer|, j.probs);
              && (NextPlan(j).Some? <==> segs != [] && (j.closed || ReachesLimit(segs) || IsSilent(j, segs)))
              && (NextPlan(j).Some? ==>
                    var p := NextPlan(j).value;
                    p.start == segs[0].start && EndsWindow(segs, p.end) && p.events == Clipped(segs, p.end))
            else
              && (NextPlan(j).Some? <==> |j.buffer| >= 480000 || (j.closed && j.buffer != []))
              && (NextPlan(j).Some? ==> NextPlan(j).value == Plan(0, Min(480000, |j.buffer|), []))
  {
    if j.vad.Some? {
      SegmentsAreApart(j);
      if JobSegments(j) != [] {
        PlanOfSegments(j, JobSegments(j));
      }
    }
  }
}
