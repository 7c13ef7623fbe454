/**
 Nothing is skipped: behind the scoring position of a job every received sample
 has been given to the VAD or cut into a Whisper window.
 */
module LiveCoverage {
  import opened Wrappers
  import opened Vad
  import opened LiveJob
  import opened LiveInvariant
  import opened LiveSteps
  import opened LiveSystem
  import opened LiveRuns
  import opened LiveResults
  import opened LiveChanges
  import P = Pool
  import VadTheorems

  /** Sample x of the stream lies in a VAD window the job has sent. */
  ghost predicate WasScored(h: History, x: nat) {
    exists k :: 0 <= k < |h.scored| && h.scored[k].absStart <= x < h.scored[k].absStart + |h.scored[k].job.samples|
  }

  /** Sample x of the stream lies in a Whisper window the job has sent. */
  ghost predicate WasCut(h: History, x: nat) {
    exists k :: 0 <= k < |h.windows| && h.windows[k].absStart <= x < h.windows[k].absStart + |h.windows[k].samples|
  }

  /** Where the job's scoring stands in the received stream. */
  function Position(j: Job): nat { j.offset + Min(j.vadProcessed, |j.buffer|) }

  ghost predicate NoneSkipped(r: Run) {
    && (forall x: nat :: x < Position(r.job) ==> WasScored(r.hist, x) || WasCut(r.hist, x))
    && (r.job.vad.None? ==> r.job.vadProcessed == 0)
  }

  lemma SeenStays(h: History, h': History, x: nat)
    requires h.scored <= h'.scored && h.windows <= h'.windows && (WasScored(h, x) || WasCut(h, x))
    ensures WasScored(h', x) || WasCut(h', x)
  {
    if WasScored(h, x) {
      var k :| 0 <= k < |h.scored| && h.scored[k].absStart <= x < h.scored[k].absStart + |h.scored[k].job.samples|;
      assert h'.scored[k] == h.scored[k];
    } else {
      var k :| 0 <= k < |h.windows| && h.windows[k].absStart <= x < h.windows[k].absStart + |h.windows[k].samples|;
      assert h'.windows[k] == h.windows[k];
    }
  }

  lemma StaysUnskipped(r: Run, r': Run)
    requires NoneSkipped(r) && r.hist.scored <= r'.hist.scored && r.hist.windows <= r'.hist.windows
    requires Position(r'.job) <= Position(r.job)
    requires r'.job.vad == r.job.vad && (r.job.vad.None? ==> r'.job.vadProcessed == 0)
    ensures NoneSkipped(r')
  {
    forall x: nat | x < Position(r'.job) ensures WasScored(r'.hist, x) || WasCut(r'.hist, x) {
      SeenStays(r.hist, r'.hist, x);
    }
  }

  /** Chunks are taken behind the scoring position. */
  lemma DrainSkipsNothing(net: Net, limit: nat, r: Run)
    requires RunOk(net, r, limit) && NoneSkipped(r)
    ensures NoneSkipped(RunDrain(r, limit))
  {
    hide FedOk, Conserved, WindowsOk, CountersOk, OutputOk, FinalsOk, ChainOk, ScoresOk;
    if MayDrain(r.job, limit) {
      AcceptAllEffect(r.job, r.job.chunks);
      StaysUnskipped(r, RunDrain(r, limit));
    }
  }

  /** A dropped buffer has been scored to its end. */
  lemma RefreshSkipsNothing(r: Run)
    requires NoneSkipped(r)
    ensures NoneSkipped(RunRefresh(r))
  {
    StaysUnskipped(r, RunRefresh(r));
  }

  /** The position moves to the end of the VAD window whose result arrives. */
  lemma VadDoneSkipsNothing(net: Net, limit: nat, r: Run, v: VadResult)
    requires RunOk(net, r, limit) && NoneSkipped(r)
    requires r.job.vad.Some? && r.job.vadInFlight && v.startSample == r.job.vadProcessed < |r.job.buffer|
    ensures NoneSkipped(RunVadDone(r, v))
  {
    hide FedOk, WindowsOk, CountersOk, OutputOk, FinalsOk, ScoresOk, StateBefore;
    var r', n, ws := RunVadDone(r, v), |r.hist.scored| - 1, r.job.vad.value.windowSamples;
    assert ScoredOk(net, r.job.id, ws, r.hist.scored, n, r.hist.received, r.job.closed);
    var last := r.hist.scored[n];
    assert Position(r'.job) <= last.absStart + |last.job.samples|;
    forall x: nat | x < Position(r'.job) ensures WasScored(r'.hist, x) || WasCut(r'.hist, x) {
      if x < Position(r.job) {
        SeenStays(r.hist, r'.hist, x);
      } else {
        assert r'.hist.scored[n].absStart <= x;
      }
    }
  }

  /** The first segment begins no later than some scored window. */
  lemma FirstSegmentIsScored(c: VadConfig, audioLen: nat, probs: seq<Score>) returns (i: nat)
    requires InOrder(c, audioLen, probs) && Segments(c, audioLen, probs) != []
    ensures i < |probs| && Segments(c, audioLen, probs)[0].start <= probs[i].start
  {
    hide Segments, Runs;
    var segs, runs := Segments(c, audioLen, probs), Runs(c, audioLen, probs);
    VadTheorems.SegmentsAreNormal(c, audioLen, probs);
    assert Holds(segs[0], segs[0].start);
    VadTheorems.SegmentsCoverExactly(c, audioLen, probs, segs[0].start);
    var r :| 0 <= r < |runs| && VadTheorems.IsLong(c, runs[r]) && VadTheorems.IsNear(c, audioLen, runs[r], segs[0].start);
    VadTheorems.RunsAreFramedBySpeech(c, audioLen, probs);
    assert VadTheorems.FramedBySpeech(c, audioLen, probs, runs[r]);
    var a, b :| 0 <= a <= b < |probs| && VadTheorems.Frames(c, audioLen, probs, runs[r], a, b);
    i := a;
    FirstCoversFirst(c, audioLen, probs, r);
  }

  lemma FirstCoversFirst(c: VadConfig, audioLen: nat, probs: seq<Score>, r: nat)
    requires InOrder(c, audioLen, probs) && r < |Runs(c, audioLen, probs)|
    requires VadTheorems.IsLong(c, Runs(c, audioLen, probs)[r])
    ensures var segs := Segments(c, audioLen, probs);
            segs != [] && segs[0].start <= Runs(c, audioLen, probs)[r].start
  {
    hide Segments, Runs;
    var segs := Segments(c, audioLen, probs);
    var k := VadTheorems.LongRunInOneSegment(c, audioLen, probs, r);
    VadTheorems.SegmentsAreNormal(c, audioLen, probs);
    assert k > 0 ==> segs[0].end < segs[k].start;
  }

  /** What is cut away has been scored, or is in the window: a window begins no later than the scoring position. */
  lemma CutBeginsScored(net: Net, limit: nat, r: Run)
    requires RunOk(net, r, limit) && MayDispatch(r.job, limit) && (r.job.vad.None? ==> r.job.vadProcessed == 0)
    ensures NextPlan(r.job).value.start <= r.job.vadProcessed
  {
    hide FedOk, Conserved, WindowsOk, CountersOk, OutputOk, FinalsOk, StateBefore, Segments;
    RunIsSound(net, r);
    if r.job.vad.Some? {
      hide Sound;
      var i := FirstSegmentIsScored(r.job.vad.value, |r.job.buffer|, r.job.probs);
      ScoreIsBehindPosition(net, r, i);
      LastFittingFits(JobSegments(r.job), 0, 0);
    }
  }

  lemma ScoreIsBehindPosition(net: Net, r: Run, i: nat)
    requires r.job.vad.Some? && !r.job.vadInFlight && VadOk(net, r, r.job.vad.value.windowSamples) && i < |r.job.probs|
    ensures r.job.probs[i].start <= r.job.vadProcessed
  {
    var k, n := r.hist.dropped + i, |r.hist.scored|;
    assert r.hist.scored[k].absStart == r.job.offset + r.job.probs[i].start;
    assert k < n - 1 ==> r.hist.scored[k].absStart + r.job.vad.value.windowSamples <= r.hist.scored[n - 1].absStart;
  }

  lemma CutSkipsNothing(net: Net, limit: nat, r: Run)
    requires RunOk(net, r, limit) && MayDispatch(r.job, limit) && NoneSkipped(r)
    ensures Fits(r.job, NextPlan(r.job).value) && NoneSkipped(RunCut(r, NextPlan(r.job).value))
  {
    CutBeginsScored(net, limit, r);
    RunIsSound(net, r);
    SoundPlanShape(r.job);
    hide RunOk, MayDispatch, NextPlan, Sound;
    var p := NextPlan(r.job).value;
    var r', w := RunCut(r, p), WindowJob(r.job, p);
    forall x: nat | x < Position(r'.job) ensures WasScored(r'.hist, x) || WasCut(r'.hist, x) {
      if x < Position(r.job) {
        SeenStays(r.hist, r'.hist, x);
      } else {
        var k := |r.hist.windows|;
        assert r'.hist.windows[k] == w;
      }
    }
  }

  lemma ChangeSkipsNothing(net: Net, limit: nat, r: Run, change: Change, r': Run)
    requires RunOk(net, r, limit) && NoneSkipped(r) && Becomes(limit, r, change, r')
    ensures NoneSkipped(r')
  {
    hide RunOk, NoneSkipped, RunDrain, RunRefresh, RunCut, NextPlan, RunVadDone, Release, NextVadJob;
    match change {
      case Drained => DrainSkipsNothing(net, limit, r);
      case Refreshed => RefreshSkipsNothing(r);
      case GotVad(v) => VadDoneSkipsNothing(net, limit, r, v);
      case Cut(p) => CutSkipsNothing(net, limit, r);
      case _ => OtherChangeSkipsNothing(limit, r, change, r');
    }
  }

  lemma OtherChangeSkipsNothing(limit: nat, r: Run, change: Change, r': Run)
    requires NoneSkipped(r) && Becomes(limit, r, change, r')
    requires !change.Drained? && !change.Refreshed? && !change.GotVad? && !change.Cut?
    ensures NoneSkipped(r')
  {
    StaysUnskipped(r, r');
  }

  lemma NewJobSkipsNothing(limit: nat, s: System, r: Run, change: Change)
    requires CameFrom(limit, s, r, None, change)
    ensures NoneSkipped(r)
  {
    hide FreshState;
  }

  /**
   In every run, for every job, active or ended: each sample before the scoring
   position has been scored or cut into a window.
   */
  lemma {:induction false} NothingIsSkipped(net: Net, lim: Limits, states: seq<System>, steps: seq<Step>, n: nat, m: nat)
    requires IsRun(net, lim, states, steps) && n < |states| && m < |Everyone(states[n])|
    ensures NoneSkipped(Everyone(states[n])[m])
  {
    hide NoneSkipped, Enabled, After, P.TokensOk, RunOk, TicketsOk, PoolFits, Delivered, AbortedOk, Becomes, IdsOk, RoomOk;
    hide CameFrom;
    if n > 0 {
      var s := states[n - 1];
      RunsAreOk(net, lim, states, steps, n - 1);
      var from, change := JobCameFrom(net, lim, s, steps[n - 1], m);
      CameFromMeans(lim.inFlight, s, Everyone(states[n])[m], from, change);
      if from.Some? {
        NothingIsSkipped(net, lim, states, steps, n - 1, from.value);
        if change != Stayed {
          assert ActiveOk(net, lim.inFlight, s.active[from.value], s.pool);
          ChangeSkipsNothing(net, lim.inFlight, s.active[from.value], change, Everyone(states[n])[m]);
        }
      } else {
        NewJobSkipsNothing(lim.inFlight, s, Everyone(states[n])[m], change);
      }
    }
  }

  lemma DeliveredSkippedNothing(net: Net, r: Run, x: nat)
    requires Delivered(net, r) && NoneSkipped(r) && x < |r.hist.received|
    ensures WasScored(r.hist, x) || WasCut(r.hist, x)
  {
    hide FedOk, WindowsOk, OutputOk, ModeOk, Transcripts, Only, AllErrors, WasScored, WasCut;
  }

  /** In every run every sample a finished job received was given to the VAD or transcribed. */
  lemma FinishedJobSkippedNothing(net: Net, lim: Limits, states: seq<System>, steps: seq<Step>, n: nat, i: nat, x: nat)
    requires IsRun(net, lim, states, steps) && n < |states| && i < |states[n].finished|
    requires x < |states[n].finished[i].hist.received|
    ensures WasScored(states[n].finished[i].hist, x) || WasCut(states[n].finished[i].hist, x)
  {
    hide IsRun, Delivered, NoneSkipped, WasScored, WasCut;
    var m := |states[n].active| + i;
    FinishedJobsDelivered(net, lim, states, steps, n, i);
    assert Everyone(states[n])[m] == states[n].finished[i];
    NothingIsSkipped(net, lim, states, steps, n, m);
    DeliveredSkippedNothing(net, states[n].finished[i], x);
  }
}
