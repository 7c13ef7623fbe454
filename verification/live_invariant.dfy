/**
 What a live job keeps at every step, stated against its history: everything it
 has received, every Whisper window it has cut and every VAD window it has
 scored (rkwhisper/src/bin/rkwhisperd.rs, `ActiveLiveJob`).
 */
module LiveInvariant {
  import opened Wrappers
  import opened Vad
  import opened LiveJob
  import opened Transcription
  import Reorder
  import W = Windows

  /**
   The two networks: Whisper maps a window's start, samples and options to its
   segments, VAD a window and a state to a probability and a new state.
   */
  datatype Net = Net(
    whisper: (nat, seq<Sample>, Options) -> seq<Segment>,
    vad: (seq<Sample>, Recurrent, nat) -> (real, Recurrent))

  function Transcribe(net: Net, w: WhisperJob): seq<Segment> { net.whisper(w.absStart, w.samples, w.options) }

  function VadAnswer(net: Net, j: VadJob): VadResult {
    var (prob, state) := net.vad(j.samples, j.state, j.windowSamples);
    VadResult(j.jobId, j.index, j.startSample, prob, state)
  }

  /** A VAD window that was sent, and where it starts in the received stream. */
  datatype Scored = Scored(job: VadJob, absStart: nat)

  /** `fed` is every chunk put on the job's channel, `received` the samples of those it has taken. */
  datatype History = History(
    fed: seq<Chunk>,
    received: seq<Sample>,
    broken: nat,
    windows: seq<WhisperJob>,
    events: seq<seq<Span>>,
    scored: seq<Scored>,
    dropped: nat)

  datatype Run = Run(job: Job, hist: History)

  function NewRun(id: nat, vad: Option<VadConfig>, options: Options): Run {
    Run(NewJob(id, vad, options), History([], [], 0, [], [], [], 0))
  }

  // ---------------------------------------------------- steps with history

  function SamplesOf(cs: seq<Chunk>): seq<Sample> {
    if cs == [] then []
    else SamplesOf(cs[..|cs| - 1]) + if cs[|cs| - 1].Audio? then cs[|cs| - 1].samples else []
  }

  function BrokenIn(cs: seq<Chunk>): nat {
    if cs == [] then 0
    else BrokenIn(cs[..|cs| - 1]) + if cs[|cs| - 1].Broken? then 1 else 0
  }

  function RunFeed(r: Run, c: Chunk): Run {
    Run(r.job.(chunks := r.job.chunks + [c]), r.hist.(fed := r.hist.fed + [c]))
  }

  function RunHangUp(r: Run): Run { Run(r.job.(senderGone := true), r.hist) }

  function RunDrain(r: Run, limit: nat): Run {
    if !MayDrain(r.job, limit) then r
    else Run(Drain(r.job, limit),
             r.hist.(received := r.hist.received + SamplesOf(r.job.chunks),
                     broken := r.hist.broken + BrokenIn(r.job.chunks)))
  }

  function RunRefresh(r: Run): Run {
    if Clears(r.job) then Run(Refresh(r.job), r.hist.(dropped := r.hist.dropped + |r.job.probs|)) else r
  }

  function RunVadSent(r: Run): Run
    requires HasVadReady(r.job)
  {
    Run(VadSent(r.job),
        r.hist.(scored := r.hist.scored + [Scored(NextVadJob(r.job), r.job.offset + r.job.vadProcessed)]))
  }

  function RunVadDone(r: Run, result: VadResult): Run { Run(HandleVad(r.job, result), r.hist) }

  function Shifted(offset: nat, events: seq<Span>): seq<Span> {
    seq(|events|, i requires 0 <= i < |events| => Span(offset + events[i].start, offset + events[i].end))
  }

  function RunCut(r: Run, p: Plan): Run
    requires Fits(r.job, p)
  {
    Run(Cut(r.job, p),
        r.hist.(windows := r.hist.windows + [WindowJob(r.job, p)],
                events := r.hist.events + [Shifted(r.job.offset, p.events)],
                dropped := r.hist.dropped + SatSub(|r.job.probs|, |Rebase(r.job.probs, p.end)|)))
  }

  function RunResult(r: Run, index: nat, segments: seq<Segment>): Run {
    Run(HandleResult(r.job, index, segments), r.hist)
  }

  function RunFinish(r: Run): Run { Run(Finish(r.job), r.hist) }

  // --------------------------------------------------------- the response log

  datatype Kind = Text | Speech | Final

  function KindOf(r: Response): Kind {
    match r
    case SegmentOut(_) => Text
    case SpeechStarted(_) => Speech
    case SpeechEnded(_) => Speech
    case _ => Final
  }

  /** The responses of one kind, in order. */
  function Only(k: Kind, rs: seq<Response>): seq<Response> {
    if rs == [] then []
    else Only(k, rs[..|rs| - 1]) + if KindOf(rs[|rs| - 1]) == k then [rs[|rs| - 1]] else []
  }

  lemma {:induction false} OnlyAppends(k: Kind, a: seq<Response>, b: seq<Response>)
    ensures Only(k, a + b) == Only(k, a) + Only(k, b)
    decreases |b|
  {
    if b == [] {
      assert a + b == a;
    } else {
      assert (a + b)[..|a + b| - 1] == a + b[..|b| - 1];
      OnlyAppends(k, a, b[..|b| - 1]);
    }
  }

  lemma {:induction false} OnlyOneKind(k: Kind, rs: seq<Response>)
    requires forall i :: 0 <= i < |rs| ==> KindOf(rs[i]) == k
    ensures Only(k, rs) == rs
    ensures forall other :: other != k ==> Only(other, rs) == []
  {
    if rs != [] {
      OnlyOneKind(k, rs[..|rs| - 1]);
    }
  }

  lemma {:induction false} EventsAreSpeech(offset: nat, events: seq<Span>)
    ensures forall i :: 0 <= i < |EventResponses(offset, events)| ==> KindOf(EventResponses(offset, events)[i]) == Speech
    ensures EventResponses(offset, events) == EventResponses(0, Shifted(offset, events))
  {
    if events != [] {
      EventsAreSpeech(offset, events[..|events| - 1]);
      assert Shifted(offset, events)[..|events| - 1] == Shifted(offset, events[..|events| - 1]);
    }
  }

  function Transcripts(net: Net, windows: seq<WhisperJob>): seq<seq<Segment>> {
    seq(|windows|, i requires 0 <= i < |windows| => Transcribe(net, windows[i]))
  }

  function EventLog(events: seq<seq<Span>>): seq<Response> {
    if events == [] then [] else EventLog(events[..|events| - 1]) + EventResponses(0, events[|events| - 1])
  }

  // ------------------------------------------------------------ invariants

  /** No sample is lost or repeated: what has been drained plus the buffer is what was received. */
  ghost predicate Conserved(r: Run) {
    && r.job.offset + |r.job.buffer| == |r.hist.received|
    && r.job.buffer == r.hist.received[r.job.offset..]
  }

  /** The chunks taken from the channel; the others are still on it. */
  function TakenChunks(r: Run): seq<Chunk> {
    if |r.job.chunks| <= |r.hist.fed| then r.hist.fed[..|r.hist.fed| - |r.job.chunks|] else []
  }

  /**
   What was fed has been taken or is on the channel, in order.  A job that closed
   without an error did so because its sender had gone and its channel was empty.
   */
  ghost predicate FedOk(r: Run) {
    && r.hist.fed == TakenChunks(r) + r.job.chunks
    && r.hist.received == SamplesOf(TakenChunks(r))
    && r.hist.broken == BrokenIn(TakenChunks(r))
    && (r.job.closed && r.hist.broken == 0 ==> r.job.senderGone && r.job.chunks == [])
  }

  ghost predicate EventsInside(events: seq<Span>, w: WhisperJob) {
    && (forall i :: 0 <= i < |events| ==>
          w.absStart <= events[i].start < events[i].end <= w.absStart + |w.samples|)
    && (forall i, k :: 0 <= i < k < |events| ==> events[i].end < events[k].start)
  }

  /** Window k is the slice of the stream it claims to be, already drained from the buffer. */
  ghost predicate WindowOk(id: nat, w: WhisperJob, events: seq<Span>, k: nat, drained: seq<Sample>) {
    && w.jobId == id && w.index == k && w.startSample == 0 && w.endSample == |w.samples|
    && 1 <= |w.samples| <= W.N_SAMPLES
    && w.absStart + |w.samples| <= |drained|
    && w.samples == drained[w.absStart..w.absStart + |w.samples|]
    && EventsInside(events, w)
  }

  /** The windows are slices of the drained stream, in order and disjoint. */
  ghost predicate SlicesOk(id: nat, windows: seq<WhisperJob>, events: seq<seq<Span>>, drained: seq<Sample>) {
    && |events| == |windows|
    && (forall k :: 0 <= k < |windows| ==> WindowOk(id, windows[k], events[k], k, drained))
    && (forall a, b :: 0 <= a < b < |windows| ==> windows[a].absStart + |windows[a].samples| <= windows[b].absStart)
  }

  ghost predicate WindowsOk(r: Run) {
    && r.job.offset <= |r.hist.received|
    && (forall k :: 0 <= k < |r.hist.windows| ==> r.hist.windows[k].options == r.job.options)
    && SlicesOk(r.job.id, r.hist.windows, r.hist.events, r.hist.received[..r.job.offset])
  }

  /** The counters agree with the history, and parked results are the right ones, all beyond the next to emit. */
  ghost predicate CountersOk(net: Net, r: Run, limit: nat) {
    var j := r.job;
    && j.nextWindow == j.dispatched == |r.hist.windows|
    && j.nextResult <= j.nextWindow
    && j.completed == j.nextResult + |j.pending|
    && j.inFlight + j.completed == j.nextWindow
    && j.inFlight <= limit
    && Reorder.Faithful(j.pending, Transcripts(net, r.hist.windows), j.nextResult + 1, j.nextWindow)
  }

  ghost predicate AllErrors(rs: seq<Response>) {
    forall i :: 0 <= i < |rs| ==> rs[i].FinishedErr?
  }

  /** Segments have been sent exactly for the windows before `nextResult`, in order; speech events for every window. */
  ghost predicate OutputOk(net: Net, r: Run) {
    && r.job.nextResult <= |r.hist.windows|
    && Only(Text, r.job.responses) == SegmentsOut(Flat(Transcripts(net, r.hist.windows)[..r.job.nextResult]))
    && Only(Speech, r.job.responses) == EventLog(r.hist.events)
  }

  /** One error response for each broken chunk, and no other final response. */
  ghost predicate FinalsOk(r: Run) {
    && |Only(Final, r.job.responses)| == r.hist.broken
    && AllErrors(Only(Final, r.job.responses))
    && (r.hist.broken > 0 ==> r.job.closed)
  }

  /** Without VAD: full windows back to back from sample 0, but for a last one that empties a closed job. */
  ghost predicate FixedOk(r: Run) {
    var ws := r.hist.windows;
    && (forall k :: 0 <= k < |ws| ==>
          && ws[k].absStart == k * W.N_SAMPLES
          && (|ws[k].samples| == W.N_SAMPLES || (k == |ws| - 1 && r.job.closed && r.job.buffer == [])))
    && r.job.offset == (if ws == [] then 0 else ws[|ws| - 1].absStart + |ws[|ws| - 1].samples|)
    && r.job.probs == [] && !r.job.vadInFlight && r.hist.scored == [] && r.job.nextVad == 0
  }

  // -------------------------------------------------------------------- VAD

  function StateBefore(net: Net, scored: seq<Scored>, k: nat): Recurrent
    requires k <= |scored|
  {
    if k == 0 then FreshState() else VadAnswer(net, scored[k - 1].job).state
  }

  function Done(r: Run): int { |r.hist.scored| - if r.job.vadInFlight then 1 else 0 }

  /** VAD window k carries the state that window k-1 returned, and is a slice of the stream, short only at its end. */
  ghost predicate ScoredOk(net: Net, id: nat, ws: nat, scored: seq<Scored>, k: nat, received: seq<Sample>, closed: bool)
    requires k < |scored|
  {
    var s := scored[k];
    var len := |s.job.samples|;
    && s.job.jobId == id && s.job.index == k && s.job.windowSamples == ws
    && s.job.state == StateBefore(net, scored, k)
    && 1 <= len <= ws
    && s.absStart + len <= |received|
    && s.job.samples == received[s.absStart..s.absStart + len]
    && (len < ws ==> closed && s.absStart + len == |received|)
  }

  /** Scored windows start at least a window apart, so no sample is scored twice. */
  ghost predicate ChainOk(net: Net, id: nat, ws: nat, scored: seq<Scored>, received: seq<Sample>, closed: bool) {
    && (forall k :: 0 <= k < |scored| ==> ScoredOk(net, id, ws, scored, k, received, closed))
    && (forall a, b :: 0 <= a < b < |scored| ==> scored[a].absStart + ws <= scored[b].absStart)
  }

  ghost predicate ScoresOk(net: Net, r: Run) {
    && r.hist.dropped + |r.job.probs| == Done(r)
    && (forall i :: 0 <= i < |r.job.probs| ==>
          && r.job.probs[i].start < |r.job.buffer|
          && r.hist.scored[r.hist.dropped + i].absStart == r.job.offset + r.job.probs[i].start
          && r.job.probs[i].prob == VadAnswer(net, r.hist.scored[r.hist.dropped + i].job).prob)
  }

  /** Where scoring stands relative to the buffer. */
  ghost predicate PositionOk(r: Run, ws: nat) {
    var j, n := r.job, |r.hist.scored|;
    && (j.vadInFlight ==>
          && n > 0 && j.vadProcessed < |j.buffer|
          && r.hist.scored[n - 1].job.startSample == j.vadProcessed
          && r.hist.scored[n - 1].absStart == j.offset + j.vadProcessed)
    && (!j.vadInFlight && n > 0 ==>
          || r.hist.scored[n - 1].absStart + ws <= j.offset + j.vadProcessed
          || (j.closed && j.vadProcessed >= |j.buffer|))
    && (j.vadProcessed <= |j.buffer| || (j.closed && j.buffer == []))
  }

  ghost predicate VadOk(net: Net, r: Run, ws: nat) {
    && r.job.nextVad == |r.hist.scored|
    && 0 <= Done(r)
    && ChainOk(net, r.job.id, ws, r.hist.scored, r.hist.received, r.job.closed)
    && r.job.vadState == StateBefore(net, r.hist.scored, Done(r))
    && PositionOk(r, ws)
    && ScoresOk(net, r)
  }

  ghost predicate ModeOk(net: Net, r: Run) {
    if r.job.vad.Some? then VadOk(net, r, r.job.vad.value.windowSamples) else FixedOk(r)
  }

  /** What stays true of a job's stream, windows and responses, even when it has ended. */
  ghost predicate LogOk(net: Net, r: Run) {
    FedOk(r) && Conserved(r) && WindowsOk(r) && OutputOk(net, r) && ModeOk(net, r)
  }

  ghost predicate RunOk(net: Net, r: Run, limit: nat) {
    && FedOk(r) && Conserved(r) && WindowsOk(r) && CountersOk(net, r, limit)
    && OutputOk(net, r) && FinalsOk(r) && ModeOk(net, r)
  }

  lemma NewFedOk(id: nat, vad: Option<VadConfig>, options: Options)
    ensures FedOk(NewRun(id, vad, options)) && FinalsOk(NewRun(id, vad, options))
  {
    hide FreshState;
  }

  lemma NewWindowsOk(id: nat, vad: Option<VadConfig>, options: Options)
    ensures Conserved(NewRun(id, vad, options)) && WindowsOk(NewRun(id, vad, options))
  {
    hide FreshState;
  }

  lemma NewOutputOk(net: Net, id: nat, vad: Option<VadConfig>, options: Options)
    ensures OutputOk(net, NewRun(id, vad, options))
  {
    hide FreshState;
    assert Transcripts(net, [])[..0] == [];
  }

  lemma NewCountersOk(net: Net, id: nat, vad: Option<VadConfig>, options: Options, limit: nat)
    ensures CountersOk(net, NewRun(id, vad, options), limit)
  {
    hide FreshState;
  }

  lemma NewModeOk(net: Net, id: nat, vad: Option<VadConfig>, options: Options)
    ensures ModeOk(net, NewRun(id, vad, options))
  {
    hide FreshState;
  }

  lemma NewRunOk(net: Net, id: nat, vad: Option<VadConfig>, options: Options, limit: nat)
    ensures RunOk(net, NewRun(id, vad, options), limit)
  {
    hide FedOk, Conserved, WindowsOk, CountersOk, OutputOk, FinalsOk, ModeOk, NewRun;
    NewFedOk(id, vad, options);
    NewWindowsOk(id, vad, options);
    NewOutputOk(net, id, vad, options);
    NewCountersOk(net, id, vad, options, limit);
    NewModeOk(net, id, vad, options);
  }

  lemma RunIsSound(net: Net, r: Run)
    requires ModeOk(net, r)
    ensures Sound(r.job)
  {
    if r.job.vad.Some? {
      var c := r.job.vad.value;
      forall i, k | 0 <= i < k < |r.job.probs|
        ensures r.job.probs[i].start + c.windowSamples <= r.job.probs[k].start
      {
        assert r.hist.scored[r.hist.dropped + i].absStart + c.windowSamples
            <= r.hist.scored[r.hist.dropped + k].absStart;
      }
    }
  }
}
