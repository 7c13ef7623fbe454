/**
 One live transcription job (`ActiveLiveJob` in rkwhisper/src/bin/rkwhisperd.rs).

 `Job` is the job's state as a value and the functions on it say what each
 operation does; the class `ActiveLiveJob` has the program's mutable fields and
 methods, each proved to compute its function.  Positions are samples, and the
 two neural networks are functions supplied from outside.
 */
module LiveJob {
  import opened Wrappers
  import opened Vad
  import Reorder
  import opened Transcription
  import VadTheorems
  import W = Windows

  type Recurrent = seq<real>

  const SILENCE_TIMEOUT: nat := 32000
  function FreshState(): Recurrent { seq(2 * 128, i => 0.0) }

  /** What the stream reader puts on a job's chunk channel. */
  datatype Chunk = Audio(samples: seq<Sample>) | Broken(error: string)

  datatype Response =
    | SegmentOut(segment: Segment)
    | SpeechStarted(begin: nat)
    | SpeechEnded(end: nat)
    | Finished(dispatched: nat, completed: nat)
    | FinishedErr(error: string)

  datatype WhisperJob = WhisperJob(
    jobId: nat, index: nat, absStart: nat, startSample: nat, endSample: nat, samples: seq<Sample>,
    options: Options)

  datatype VadJob = VadJob(
    jobId: nat, index: nat, startSample: nat, samples: seq<Sample>, state: Recurrent, windowSamples: pos)

  datatype VadResult = VadResult(jobId: nat, index: nat, startSample: nat, prob: real, state: Recurrent)

  datatype Job = Job(
    id: nat,
    chunks: seq<Chunk>,
    senderGone: bool,
    responses: seq<Response>,
    buffer: seq<Sample>,
    offset: nat,
    options: Options,
    vad: Option<VadConfig>,
    vadState: Recurrent,
    vadProcessed: nat,
    vadInFlight: bool,
    nextVad: nat,
    probs: seq<Score>,
    dispatched: nat,
    completed: nat,
    inFlight: nat,
    nextWindow: nat,
    closed: bool,
    pending: map<nat, seq<Segment>>,
    nextResult: nat)

  function NewJob(id: nat, vad: Option<VadConfig>, options: Options): Job {
    Job(id, [], false, [], [], 0, options, vad, FreshState(), 0, false, 0, [], 0, 0, 0, 0, false, map[], 0)
  }

  predicate IsComplete(j: Job) {
    j.closed && j.buffer == [] && j.inFlight == 0 && !j.vadInFlight
  }

  function Finish(j: Job): Job {
    j.(responses := j.responses + [Finished(j.dispatched, j.completed)])
  }

  // ------------------------------------------------------- taking chunks

  function Accept(j: Job, c: Chunk): Job {
    match c
    case Audio(samples) => j.(buffer := j.buffer + samples)
    case Broken(error) => j.(responses := j.responses + [FinishedErr(error)], closed := true)
  }

  function AcceptAll(j: Job, cs: seq<Chunk>): Job {
    if cs == [] then j else Accept(AcceptAll(j, cs[..|cs| - 1]), cs[|cs| - 1])
  }

  predicate MayDrain(j: Job, limit: nat) { !j.closed && j.inFlight < limit }

  /** Empties the chunk channel, unless the job is closed or has its fill of windows in flight. */
  function Drain(j: Job, limit: nat): Job {
    if !MayDrain(j, limit) then j
    else
      var taken := AcceptAll(j, j.chunks).(chunks := []);
      if j.senderGone then taken.(closed := true) else taken
  }

  // ------------------------------------------------------ dispatch plans

  /** Segments of the buffered audio; none in a job without VAD. */
  function JobSegments(j: Job): seq<Span> {
    if j.vad.None? then [] else Segments(j.vad.value, |j.buffer|, j.probs)
  }

  predicate Clears(j: Job) {
    && j.buffer != [] && j.vad.Some?
    && JobSegments(j) == [] && j.closed && !j.vadInFlight && j.vadProcessed >= |j.buffer|
  }

  /** Drops a closed job's fully scored, speechless buffer. */
  function Refresh(j: Job): Job {
    if Clears(j) then j.(offset := j.offset + |j.buffer|, buffer := [], probs := []) else j
  }

  datatype Plan = Plan(start: nat, end: nat, events: seq<Span>)

  /** The last segment that still fits in a window opened at the first one. */
  function LastFitting(segs: seq<Span>, i: nat, last: nat): nat
    requires segs != []
    decreases |segs| - i
  {
    if i < |segs| && segs[i].end - segs[0].start <= W.N_SAMPLES then LastFitting(segs, i + 1, i) else last
  }

  lemma {:induction false} LastFittingFits(segs: seq<Span>, i: nat, last: nat)
    requires segs != [] && last < |segs| && (last == 0 || segs[last].end - segs[0].start <= W.N_SAMPLES)
    ensures LastFitting(segs, i, last) < |segs|
    ensures LastFitting(segs, i, last) == 0 || segs[LastFitting(segs, i, last)].end - segs[0].start <= W.N_SAMPLES
    decreases |segs| - i
  {
    if i < |segs| && segs[i].end - segs[0].start <= W.N_SAMPLES {
      LastFittingFits(segs, i + 1, i);
    }
  }

  predicate FullWindow(segs: seq<Span>, last: nat)
    requires last < |segs|
  {
    segs[last].end - segs[0].start >= W.N_SAMPLES
  }

  function SpeechEvents(segs: seq<Span>, last: nat, end: nat): seq<Span>
    requires last < |segs|
  {
    seq(last + 1, i requires 0 <= i <= last => Span(segs[i].start, Min(segs[i].end, end)))
  }

  /** The plan when `last` is the last fitting segment. */
  function PlanAt(j: Job, segs: seq<Span>, last: nat): Option<Plan>
    requires last < |segs|
  {
    var timeout := |j.buffer| - segs[last].end >= SILENCE_TIMEOUT;
    if last + 1 < |segs| || FullWindow(segs, last) || timeout || (j.closed && j.buffer != []) then
      var end := if FullWindow(segs, last) then segs[0].start + W.N_SAMPLES else segs[last].end;
      Some(Plan(segs[0].start, end, SpeechEvents(segs, last, end)))
    else None
  }

  function VadPlan(j: Job, segs: seq<Span>): Option<Plan>
    requires segs != []
  {
    LastFittingFits(segs, 0, 0);
    PlanAt(j, segs, LastFitting(segs, 0, 0))
  }

  function NextPlan(j: Job): Option<Plan> {
    if j.vad.Some? then
      var segs := JobSegments(j);
      if segs == [] then None else VadPlan(j, segs)
    else if |j.buffer| >= W.N_SAMPLES || (j.closed && j.buffer != []) then
      Some(Plan(0, Min(W.N_SAMPLES, |j.buffer|), []))
    else None
  }

  predicate MayDispatch(j: Job, limit: nat) {
    j.inFlight < limit && !j.vadInFlight && NextPlan(j).Some?
  }

  // ------------------------------------------------------------ VAD work

  predicate HasVadReady(j: Job) {
    && j.vad.Some? && !j.vadInFlight
    && j.vadProcessed < |j.buffer|
    && (|j.buffer| - j.vadProcessed >= j.vad.value.windowSamples || j.closed)
  }

  function NextVadJob(j: Job): VadJob
    requires HasVadReady(j)
  {
    var end := Min(j.vadProcessed + j.vad.value.windowSamples, |j.buffer|);
    VadJob(j.id, j.nextVad, j.vadProcessed, j.buffer[j.vadProcessed..end], j.vadState, j.vad.value.windowSamples)
  }

  function VadSent(j: Job): Job { j.(vadInFlight := true, nextVad := j.nextVad + 1) }

  function WindowSamplesOr0(j: Job): nat { if j.vad.Some? then j.vad.value.windowSamples else 0 }

  function HandleVad(j: Job, r: VadResult): Job {
    j.(vadInFlight := false,
       vadState := r.state,
       vadProcessed := Min(r.startSample + WindowSamplesOr0(j), |j.buffer|),
       probs := j.probs + [Score(r.startSample, r.prob)])
  }

  // -------------------------------------------------------- Whisper work

  /** Scores at or after `end`, counted from there. */
  function Rebase(probs: seq<Score>, end: nat): seq<Score> {
    if probs == [] then []
    else
      var rest := Rebase(probs[..|probs| - 1], end);
      var w := probs[|probs| - 1];
      if w.start >= end then rest + [Score(w.start - end, w.prob)] else rest
  }

  function EventResponses(offset: nat, events: seq<Span>): seq<Response> {
    if events == [] then []
    else
      var e := events[|events| - 1];
      EventResponses(offset, events[..|events| - 1]) + [SpeechStarted(offset + e.start), SpeechEnded(offset + e.end)]
  }

  predicate Fits(j: Job, p: Plan) { p.start <= p.end <= |j.buffer| }

  /** The job sent for plan p. */
  function WindowJob(j: Job, p: Plan): WhisperJob
    requires Fits(j, p)
  {
    WhisperJob(j.id, j.nextWindow, j.offset + p.start, 0, p.end - p.start, j.buffer[p.start..p.end], j.options)
  }

  /** The state once plan p has been sent. */
  function Cut(j: Job, p: Plan): Job
    requires Fits(j, p)
  {
    j.(responses := j.responses + EventResponses(j.offset, p.events),
       buffer := j.buffer[p.end..],
       offset := j.offset + p.end,
       probs := Rebase(j.probs, p.end),
       vadProcessed := SatSub(j.vadProcessed, p.end),
       inFlight := j.inFlight + 1,
       dispatched := j.dispatched + 1,
       nextWindow := j.nextWindow + 1)
  }

  function SegmentsOut(segments: seq<Segment>): seq<Response> {
    seq(|segments|, i requires 0 <= i < |segments| => SegmentOut(segments[i]))
  }

  function Flat(parts: seq<seq<Segment>>): seq<Segment> {
    if parts == [] then [] else Flat(parts[..|parts| - 1]) + parts[|parts| - 1]
  }

  /** Releases every parked result whose turn has come. */
  function Release(j: Job): Job {
    var out := Reorder.Released(j.pending, j.nextResult);
    j.(pending := Reorder.Parked(j.pending, j.nextResult),
       nextResult := j.nextResult + |out|,
       responses := j.responses + SegmentsOut(Flat(out)))
  }

  function HandleResult(j: Job, index: nat, segments: seq<Segment>): Job {
    Release(j.(inFlight := SatSub(j.inFlight, 1),
               completed := j.completed + 1,
               pending := j.pending[index := segments]))
  }

  // ------------------------------------------------------------ the class

  /** A job whose scores are in order keeps every slice below in bounds. */
  ghost predicate Sound(j: Job) {
    j.vad.Some? ==> InOrder(j.vad.value, |j.buffer|, j.probs)
  }

  /** The plan lies in the buffer, is at most 30 s long and holds its events, which are apart. */
  ghost predicate WellShaped(j: Job, p: Plan) {
    && Fits(j, p)
    && p.start < p.end <= p.start + W.N_SAMPLES
    && (forall i :: 0 <= i < |p.events| ==> p.start <= p.events[i].start < p.events[i].end <= p.end)
    && (forall i, k :: 0 <= i < k < |p.events| ==> p.events[i].end < p.events[k].start)
  }

  lemma VadPlanShape(j: Job, c: VadConfig, segs: seq<Span>, last: nat)
    requires Normal(c, |j.buffer|, segs) && last < |segs|
    requires last == 0 || segs[last].end - segs[0].start <= W.N_SAMPLES
    ensures PlanAt(j, segs, last).Some? ==> WellShaped(j, PlanAt(j, segs, last).value)
  {
  }

  lemma SoundPlanShape(j: Job)
    requires Sound(j)
    ensures NextPlan(j).Some? ==> WellShaped(j, NextPlan(j).value)
  {
    if j.vad.Some? {
      var segs := JobSegments(j);
      VadTheorems.SegmentsAreNormal(j.vad.value, |j.buffer|, j.probs);
      if segs != [] {
        LastFittingFits(segs, 0, 0);
        VadPlanShape(j, j.vad.value, segs, LastFitting(segs, 0, 0));
        hide LastFitting, PlanAt, Segments, WellShaped, Normal, InOrder;
      }
    }
  }

  class ActiveLiveJob {
    const jobId: nat
    const options: Options
    const vadConfig: Option<VadConfig>
    var chunkRx: seq<Chunk>
    var senderGone: bool
    var responseTx: seq<Response>
    var audioBuffer: seq<Sample>
    var absoluteOffsetSamples: nat
    var vadState: Recurrent
    var vadProcessedSamples: nat
    var vadInFlight: bool
    var nextVadWindowIndex: nat
    var probs: seq<Score>
    var windowsDispatched: nat
    var windowsCompleted: nat
    var inFlight: nat
    var nextWindowIndex: nat
    var producerClosed: bool
    var pendingResults: map<nat, seq<Segment>>
    var nextResultIndex: nat

    ghost function State(): Job
      reads this
    {
      Job(jobId, chunkRx, senderGone, responseTx, audioBuffer, absoluteOffsetSamples, options, vadConfig, vadState,
          vadProcessedSamples, vadInFlight, nextVadWindowIndex, probs, windowsDispatched, windowsCompleted,
          inFlight, nextWindowIndex, producerClosed, pendingResults, nextResultIndex)
    }

    constructor (jobId: nat, vadConfig: Option<VadConfig>, options: Options)
      ensures State() == NewJob(jobId, vadConfig, options)
    {
      this.jobId, this.vadConfig, this.options := jobId, vadConfig, options;
      chunkRx, senderGone, responseTx := [], false, [];
      audioBuffer, absoluteOffsetSamples := [], 0;
      vadState, vadProcessedSamples, vadInFlight, nextVadWindowIndex := FreshState(), 0, false, 0;
      probs := [];
      windowsDispatched, windowsCompleted, inFlight, nextWindowIndex := 0, 0, 0, 0;
      producerClosed, pendingResults, nextResultIndex := false, map[], 0;
    }

    method FinishIfComplete() returns (done: bool)
      modifies this
      ensures done == IsComplete(old(State()))
      ensures State() == if done then Finish(old(State())) else old(State())
    {
      if !(producerClosed && audioBuffer == [] && inFlight == 0 && !vadInFlight) {
        return false;
      }
      responseTx := responseTx + [Finished(windowsDispatched, windowsCompleted)];
      return true;
    }

    method AcceptChunk(chunk: Option<Chunk>)
      modifies this
      ensures State() == if chunk.Some? then Accept(old(State()), chunk.value) else old(State()).(closed := true)
    {
      match chunk {
        case Some(Audio(samples)) =>
          audioBuffer := audioBuffer + samples;
        case Some(Broken(error)) =>
          responseTx := responseTx + [FinishedErr(error)];
          producerClosed := true;
        case None =>
          producerClosed := true;
      }
    }

    /** One job's turn in `drain_live_chunks`: receive until the channel is empty or disconnected. */
    method DrainChunks(limit: nat)
      modifies this
      ensures State() == Drain(old(State()), limit)
    {
      if producerClosed || inFlight >= limit {
        return;
      }
      ghost var all, k := chunkRx, 0;
      AcceptAllOfNothing(State());
      hide AcceptAll;
      while true
        invariant k <= |all| && chunkRx == all[k..]
        invariant State() == AcceptAll(old(State()), all[..k]).(chunks := all[k..])
        decreases |chunkRx|
      {
        if chunkRx != [] {
          var chunk := chunkRx[0];
          chunkRx := chunkRx[1..];
          AcceptChunk(Some(chunk));
          AcceptAllNext(old(State()), all, k);
          assert all[k + 1..] == all[k..][1..];
          AcceptLeavesChannel(AcceptAll(old(State()), all[..k]), chunk, all[k + 1..]);
          k := k + 1;
        } else if !senderGone {
          break;
        } else {
          AcceptChunk(None);
          break;
        }
      }
      assert all[..k] == all;
      AcceptAllLeavesSender(old(State()), all);
    }

    method RefreshSpeechState()
      modifies this
      ensures State() == Refresh(old(State()))
    {
      if audioBuffer == [] {
        return;
      }
      if vadConfig.Some? {
        var segments := SegmentsFromProbs(vadConfig.value, |audioBuffer|, probs);
        if segments == [] && producerClosed && !vadInFlight && vadProcessedSamples >= |audioBuffer| {
          absoluteOffsetSamples := absoluteOffsetSamples + |audioBuffer|;
          audioBuffer := [];
          probs := [];
        }
      }
    }

    method NextDispatchPlan() returns (plan: Option<Plan>)
      ensures plan == NextPlan(State())
    {
      if vadConfig.Some? {
        var segments := SegmentsFromProbs(vadConfig.value, |audioBuffer|, probs);
        if segments == [] {
          return None;
        }
        var first := segments[0];
        var lastFitting := 0;
        var i := 0;
        while i < |segments|
          invariant 0 <= i <= |segments| && lastFitting < |segments|
          invariant LastFitting(segments, i, lastFitting) == LastFitting(segments, 0, 0)
        {
          if segments[i].end - first.start <= W.N_SAMPLES {
            lastFitting := i;
          } else {
            break;
          }
          i := i + 1;
        }
        var last := segments[lastFitting];
        var isTimeout := |audioBuffer| - last.end >= SILENCE_TIMEOUT;
        var hasOverflowingSegment := lastFitting + 1 < |segments|;
        var isFullWindow := last.end - first.start >= W.N_SAMPLES;
        if hasOverflowingSegment || isFullWindow || isTimeout || (producerClosed && audioBuffer != []) {
          var end := if isFullWindow then first.start + W.N_SAMPLES else last.end;
          return Some(Plan(first.start, end, SpeechEvents(segments, lastFitting, end)));
        }
      } else if |audioBuffer| >= W.N_SAMPLES || (producerClosed && audioBuffer != []) {
        return Some(Plan(0, Min(W.N_SAMPLES, |audioBuffer|), []));
      }
      return None;
    }

    method HasVadReadyNow() returns (ready: bool)
      ensures ready == HasVadReady(State())
    {
      if vadConfig.None? || vadInFlight || vadProcessedSamples >= |audioBuffer| {
        return false;
      }
      var available := |audioBuffer| - vadProcessedSamples;
      return !(available < vadConfig.value.windowSamples && !producerClosed);
    }

    method TakeVadJob() returns (job: Option<VadJob>)
      modifies this
      ensures job == if HasVadReady(old(State())) then Some(NextVadJob(old(State()))) else None
      ensures State() == if HasVadReady(old(State())) then VadSent(old(State())) else old(State())
    {
      var ready := HasVadReadyNow();
      if !ready {
        return None;
      }
      var start := vadProcessedSamples;
      var end := Min(start + vadConfig.value.windowSamples, |audioBuffer|);
      job := Some(VadJob(jobId, nextVadWindowIndex, start, audioBuffer[start..end], vadState,
                         vadConfig.value.windowSamples));
      vadInFlight := true;
      nextVadWindowIndex := nextVadWindowIndex + 1;
    }

    method HandleVadResult(result: VadResult)
      modifies this
      ensures State() == HandleVad(old(State()), result)
    {
      vadInFlight := false;
      vadState := result.state;
      vadProcessedSamples := result.startSample + if vadConfig.Some? then vadConfig.value.windowSamples else 0;
      vadProcessedSamples := Min(vadProcessedSamples, |audioBuffer|);
      probs := probs + [Score(result.startSample, result.prob)];
    }

    method SendSpeechEvents(events: seq<Span>)
      modifies this`responseTx
      ensures responseTx == old(responseTx) + EventResponses(absoluteOffsetSamples, events)
    {
      for i := 0 to |events|
        invariant responseTx == old(responseTx) + EventResponses(absoluteOffsetSamples, events[..i])
      {
        assert events[..i + 1][..i] == events[..i];
        responseTx := responseTx + [SpeechStarted(absoluteOffsetSamples + events[i].start)];
        responseTx := responseTx + [SpeechEnded(absoluteOffsetSamples + events[i].end)];
      }
      assert events[..|events|] == events;
    }

    method RebaseProbs(end: nat)
      modifies this`probs
      ensures probs == Rebase(old(probs), end)
    {
      var kept: seq<Score> := [];
      for i := 0 to |probs|
        invariant kept == Rebase(probs[..i], end)
      {
        assert probs[..i + 1][..i] == probs[..i];
        if probs[i].start >= end {
          kept := kept + [Score(probs[i].start - end, probs[i].prob)];
        }
      }
      assert probs[..|probs|] == probs;
      probs := kept;
    }

    /** Drops everything before `end` and counts the rest from there; returns what was dropped. */
    method DrainTo(end: nat) returns (samples: seq<Sample>)
      requires end <= |audioBuffer|
      modifies this`audioBuffer, this`absoluteOffsetSamples, this`probs, this`vadProcessedSamples
      ensures samples == old(audioBuffer)[..end] && audioBuffer == old(audioBuffer)[end..]
      ensures absoluteOffsetSamples == old(absoluteOffsetSamples) + end
      ensures probs == Rebase(old(probs), end)
      ensures vadProcessedSamples == SatSub(old(vadProcessedSamples), end)
    {
      samples := audioBuffer[..end];
      audioBuffer := audioBuffer[end..];
      absoluteOffsetSamples := absoluteOffsetSamples + end;
      RebaseProbs(end);
      vadProcessedSamples := SatSub(vadProcessedSamples, end);
    }

    method CutWindow(plan: Plan) returns (job: WhisperJob)
      requires Fits(State(), plan)
      modifies this
      ensures job == WindowJob(old(State()), plan) && State() == Cut(old(State()), plan)
    {
      SendSpeechEvents(plan.events);
      var windowStart := absoluteOffsetSamples + plan.start;
      var samples := DrainTo(plan.end);
      var segmentSamples := samples[plan.start..];
      assert segmentSamples == old(audioBuffer)[plan.start..plan.end];
      job := WhisperJob(jobId, nextWindowIndex, windowStart, 0, |segmentSamples|, segmentSamples, options);
      inFlight := inFlight + 1;
      windowsDispatched := windowsDispatched + 1;
      nextWindowIndex := nextWindowIndex + 1;
    }

    /** Cuts the next window off the buffer; the caller hands it to the worker. */
    method DispatchToWorker() returns (job: Option<WhisperJob>)
      requires Sound(State())
      modifies this
      ensures NextPlan(old(State())).None? ==> job.None? && State() == old(State())
      ensures NextPlan(old(State())).Some? ==>
                && Fits(old(State()), NextPlan(old(State())).value)
                && job == Some(WindowJob(old(State()), NextPlan(old(State())).value))
                && State() == Cut(old(State()), NextPlan(old(State())).value)
    {
      var plan := NextDispatchPlan();
      if plan.None? {
        return None;
      }
      SoundPlanShape(State());
      var window := CutWindow(plan.value);
      job := Some(window);
    }

    method SendSegments(segments: seq<Segment>)
      modifies this`responseTx
      ensures responseTx == old(responseTx) + SegmentsOut(segments)
    {
      for i := 0 to |segments|
        invariant responseTx == old(responseTx) + SegmentsOut(segments[..i])
      {
        responseTx := responseTx + [SegmentOut(segments[i])];
        assert SegmentsOut(segments[..i + 1]) == SegmentsOut(segments[..i]) + [SegmentOut(segments[i])];
      }
      assert segments[..|segments|] == segments;
    }

    method ReleaseResults()
      modifies this`responseTx, this`pendingResults, this`nextResultIndex
      ensures State() == Release(old(State()))
    {
      hide Reorder.Released, Reorder.Parked, Flat, SegmentsOut;
      FlatOfNothing();
      ghost var all := Reorder.Released(pendingResults, nextResultIndex);
      ghost var kept := Reorder.Parked(pendingResults, nextResultIndex);
      ghost var k := 0;
      while nextResultIndex in pendingResults
        invariant k <= |all| && Reorder.Released(pendingResults, nextResultIndex) == all[k..]
        invariant Reorder.Parked(pendingResults, nextResultIndex) == kept
        invariant nextResultIndex == old(nextResultIndex) + k
        invariant responseTx == old(responseTx) + SegmentsOut(Flat(all[..k]))
        decreases |all| - k
      {
        var result := pendingResults[nextResultIndex];
        Reorder.ReleaseOne(pendingResults, nextResultIndex);
        assert all[k + 1..] == all[k..][1..];
        pendingResults := pendingResults - {nextResultIndex};
        SendSegments(result);
        FlatAppends(all[..k], result);
        assert all[..k + 1] == all[..k] + [result];
        nextResultIndex := nextResultIndex + 1;
        k := k + 1;
      }
      Reorder.ReleaseNone(pendingResults, nextResultIndex);
      assert all[..k] == all;
    }

    method HandleWindowResult(index: nat, segments: seq<Segment>)
      modifies this
      ensures State() == HandleResult(old(State()), index, segments)
    {
      inFlight := SatSub(inFlight, 1);
      windowsCompleted := windowsCompleted + 1;
      pendingResults := pendingResults[index := segments];
      ReleaseResults();
    }
  }

  lemma AcceptAllOfNothing(j: Job)
    ensures AcceptAll(j, []) == j
  {
  }

  lemma AcceptAllNext(j: Job, cs: seq<Chunk>, k: nat)
    requires k < |cs|
    ensures AcceptAll(j, cs[..k + 1]) == Accept(AcceptAll(j, cs[..k]), cs[k])
  {
    assert cs[..k + 1][..k] == cs[..k];
  }

  lemma AcceptLeavesChannel(j: Job, c: Chunk, rest: seq<Chunk>)
    ensures Accept(j.(chunks := rest), c) == Accept(j, c).(chunks := rest)
  {
  }

  lemma {:induction false} AcceptAllLeavesSender(j: Job, cs: seq<Chunk>)
    ensures AcceptAll(j, cs).senderGone == j.senderGone
  {
    if cs != [] {
      AcceptAllLeavesSender(j, cs[..|cs| - 1]);
    }
  }

  lemma FlatOfNothing()
    ensures SegmentsOut(Flat([])) == []
  {
  }

  lemma FlatAppends(parts: seq<seq<Segment>>, part: seq<Segment>)
    ensures Flat(parts + [part]) == Flat(parts) + part
    ensures SegmentsOut(Flat(parts) + part) == SegmentsOut(Flat(parts)) + SegmentsOut(part)
  {
    assert (parts + [part])[..|parts|] == parts;
  }
}
