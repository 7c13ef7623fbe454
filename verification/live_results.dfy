/** What every run of the live scheduler does for the clients it serves. */
module LiveResults {
  import opened Wrappers
  import opened Vad
  import opened Windows
  import opened LiveJob
  import opened LiveInvariant
  import opened LiveSteps
  import opened LiveSystem
  import opened LiveRuns
  import opened Transcription
  import P = Pool

  // ------------------------------------------------------------ conservation

  /** The windows are numbered slices of the stream's first `drained` samples: not empty, at most 30 s long, each beyond the one before. */
  ghost predicate CutInOrder(h: History, drained: nat) {
    && (forall k :: 0 <= k < |h.windows| ==>
          var w := h.windows[k];
          && w.index == k && 1 <= |w.samples| <= N_SAMPLES
          && w.absStart + |w.samples| <= drained && w.absStart + |w.samples| <= |h.received|
          && w.samples == h.received[w.absStart..w.absStart + |w.samples|])
    && (forall a, b :: 0 <= a < b < |h.windows| ==>
          h.windows[a].absStart + |h.windows[a].samples| <= h.windows[b].absStart)
  }

  lemma SlicesAreCut(r: Run)
    requires WindowsOk(r)
    ensures CutInOrder(r.hist, r.job.offset)
  {
    var h := r.hist;
    var drained := h.received[..r.job.offset];
    forall k | 0 <= k < |h.windows|
      ensures WindowOk(r.job.id, h.windows[k], h.events[k], k, drained)
      ensures h.windows[k].samples == h.received[h.windows[k].absStart..h.windows[k].absStart + |h.windows[k].samples|]
    {
      var w := h.windows[k];
      assert drained[w.absStart..w.absStart + |w.samples|] == h.received[w.absStart..w.absStart + |w.samples|];
    }
  }

  /** Every job admitted so far: active, finished or aborted. */
  function Everyone(s: System): seq<Run> { s.active + s.finished + s.aborted }

  /** In every state of every run, every job, ended or not, keeps its log. */
  lemma EveryoneOk(net: Net, lim: Limits, states: seq<System>, steps: seq<Step>, n: nat, i: nat)
    requires IsRun(net, lim, states, steps) && n < |states| && i < |Everyone(states[n])|
    ensures LogOk(net, Everyone(states[n])[i])
  {
    hide IsRun, TicketsOk, PoolFits, LogOk;
    RunsAreOk(net, lim, states, steps, n);
    var s, a := states[n], |states[n].active|;
    if i < a {
      assert ActiveOk(net, lim.inFlight, s.active[i], s.pool);
      ActiveKeepsLog(net, lim.inFlight, s.active[i]);
    } else if i < a + |s.finished| {
      assert Delivered(net, s.finished[i - a]);
    } else {
      assert AbortedOk(net, s.aborted[i - a - |s.finished|]);
    }
  }

  lemma ActiveKeepsLog(net: Net, limit: nat, r: Run)
    requires RunOk(net, r, limit)
    ensures LogOk(net, r)
  {
    hide FedOk, Conserved, WindowsOk, OutputOk, FinalsOk, ModeOk, CountersOk;
  }

  /**
   In every reachable state no sample of a job's stream is lost or repeated: what
   was taken from the channel has been drained or is buffered, and the windows are
   cut from what was drained, in order.
   */
  lemma SamplesAreConserved(net: Net, lim: Limits, states: seq<System>, steps: seq<Step>, n: nat, i: nat)
    requires IsRun(net, lim, states, steps) && n < |states| && i < |Everyone(states[n])|
    ensures var r := Everyone(states[n])[i];
            var j, h := r.job, r.hist;
            && h.fed == TakenChunks(r) + j.chunks && h.received == SamplesOf(TakenChunks(r))
            && j.offset + |j.buffer| == |h.received| && j.buffer == h.received[j.offset..]
            && CutInOrder(h, j.offset)
  {
    EveryoneOk(net, lim, states, steps, n, i);
    hide IsRun, OutputOk, ModeOk, CutInOrder, WindowsOk, SamplesOf, TakenChunks;
    SlicesAreCut(Everyone(states[n])[i]);
  }

  // --------------------------------------------------------------- delivery

  /** In every run, every finished job delivered everything; see `Delivered`. */
  lemma FinishedJobsDelivered(net: Net, lim: Limits, states: seq<System>, steps: seq<Step>, n: nat, i: nat)
    requires IsRun(net, lim, states, steps) && n < |states| && i < |states[n].finished|
    ensures Delivered(net, states[n].finished[i])
  {
    RunsAreOk(net, lim, states, steps, n);
  }

  lemma {:induction false} FlatHolds(parts: seq<seq<Segment>>, k: nat)
    requires k < |parts|
    ensures |Flat(parts[..k])| + |parts[k]| == |Flat(parts[..k + 1])| <= |Flat(parts)|
    ensures Flat(parts)[|Flat(parts[..k])|..|Flat(parts[..k + 1])|] == parts[k]
  {
    var n := |parts| - 1;
    assert parts[..k + 1][..k] == parts[..k];
    if k < n {
      FlatHolds(parts[..n], k);
      assert parts[..n][..k] == parts[..k] && parts[..n][..k + 1] == parts[..k + 1];
      FlatGrows(parts);
    } else {
      assert parts[..k + 1] == parts;
    }
  }

  lemma FlatGrows(parts: seq<seq<Segment>>)
    requires parts != []
    ensures Flat(parts[..|parts| - 1]) <= Flat(parts)
  {
  }

  /** Where the text of window k begins among the responses with text. */
  function TextBefore(net: Net, windows: seq<WhisperJob>, k: nat): nat
    requires k <= |windows|
  {
    if k == 0 then 0 else TextBefore(net, windows, k - 1) + |Transcribe(net, windows[k - 1])|
  }

  lemma {:induction false} TextBeforeIsFlat(net: Net, windows: seq<WhisperJob>, k: nat)
    requires k <= |windows|
    ensures TextBefore(net, windows, k) == |Flat(Transcripts(net, windows)[..k])|
  {
    if k > 0 {
      TextBeforeIsFlat(net, windows, k - 1);
      assert Transcripts(net, windows)[..k][..k - 1] == Transcripts(net, windows)[..k - 1];
    }
  }

  lemma SegmentAt(net: Net, windows: seq<WhisperJob>, k: nat, m: nat)
    requires k < |windows| && m < |Transcribe(net, windows[k])|
    ensures var text, at := Flat(Transcripts(net, windows)), TextBefore(net, windows, k) + m;
            |text| == TextBefore(net, windows, |windows|) && at < |text| && text[at] == Transcribe(net, windows[k])[m]
  {
    hide Flat, Transcribe;
    var parts := Transcripts(net, windows);
    TextBeforeIsFlat(net, windows, k);
    TextBeforeIsFlat(net, windows, |windows|);
    assert parts[..|windows|] == parts;
    FlatHolds(parts, k);
    hide TextBefore;
    assert Flat(parts)[|Flat(parts[..k])|..|Flat(parts[..k + 1])|][m] == parts[k][m];
  }

  lemma DeliveredText(net: Net, r: Run, k: nat, m: nat)
    requires Delivered(net, r) && k < |r.hist.windows| && m < |Transcribe(net, r.hist.windows[k])|
    ensures var text, at := Only(Text, r.job.responses), TextBefore(net, r.hist.windows, k) + m;
            && |text| == TextBefore(net, r.hist.windows, |r.hist.windows|)
            && at < |text| && text[at] == SegmentOut(Transcribe(net, r.hist.windows[k])[m])
  {
    hide LogOk, Transcribe, Flat, Only, Transcripts, AllErrors, EventLog, TextBefore;
    SegmentAt(net, r.hist.windows, k, m);
  }

  /**
   In every run a finished job has sent the segments of its windows one after the
   other: segment m of window k behind those of the windows before it, and no other.
   */
  lemma FinishedJobSentTranscripts(net: Net, lim: Limits, states: seq<System>, steps: seq<Step>, n: nat, i: nat, k: nat, m: nat)
    requires IsRun(net, lim, states, steps) && n < |states| && i < |states[n].finished|
    requires var windows := states[n].finished[i].hist.windows; k < |windows| && m < |Transcribe(net, windows[k])|
    ensures var r := states[n].finished[i];
            var text, at := Only(Text, r.job.responses), TextBefore(net, r.hist.windows, k) + m;
            && |text| == TextBefore(net, r.hist.windows, |r.hist.windows|)
            && at < |text| && text[at] == SegmentOut(Transcribe(net, r.hist.windows[k])[m])
  {
    FinishedJobsDelivered(net, lim, states, steps, n, i);
    hide IsRun, Delivered, Transcribe, TextBefore, Only;
    DeliveredText(net, states[n].finished[i], k, m);
  }

  predicate ErrorFree(cs: seq<Chunk>) { forall c :: c in cs ==> c.Audio? }

  lemma ErrorFreeParts(a: seq<Chunk>, b: seq<Chunk>)
    ensures ErrorFree(a + b) <==> ErrorFree(a) && ErrorFree(b)
    ensures ErrorFree([])
  {
    if ErrorFree(a + b) {
      forall c | c in a ensures c.Audio? { assert c in a + b; }
      forall c | c in b ensures c.Audio? { assert c in a + b; }
    }
  }

  lemma {:induction false} ErrorsAreCounted(cs: seq<Chunk>)
    ensures BrokenIn(cs) == 0 <==> ErrorFree(cs)
  {
    if cs != [] {
      var n := |cs| - 1;
      ErrorsAreCounted(cs[..n]);
      assert cs == cs[..n] + [cs[n]];
      ErrorFreeParts(cs[..n], [cs[n]]);
      assert cs[n] in [cs[n]];
    }
  }

  /**
   A finished job has consumed every chunk its reader sent, unless one of those it
   took was an error.  Then the chunks that were not yet on the channel when it took
   that error are lost, and they are all that is lost.
   */
  lemma FinishedJobReadItsStream(net: Net, lim: Limits, states: seq<System>, steps: seq<Step>, n: nat, i: nat)
    requires IsRun(net, lim, states, steps) && n < |states| && i < |states[n].finished|
    ensures var r := states[n].finished[i];
            && r.hist.fed == TakenChunks(r) + r.job.chunks
            && (ErrorFree(r.hist.fed) ==> r.job.senderGone && r.job.chunks == [])
            && (!ErrorFree(r.hist.fed) ==> !ErrorFree(TakenChunks(r)))
            && SamplesOf(r.hist.fed) == r.hist.received + SamplesOf(r.job.chunks)
            && r.job.offset == |r.hist.received|
  {
    FinishedJobsDelivered(net, lim, states, steps, n, i);
    var r := states[n].finished[i];
    hide IsRun, WindowsOk, OutputOk, ModeOk, SamplesOf, BrokenIn, ErrorFree;
    ErrorsAreCounted(TakenChunks(r));
    ErrorFreeParts(TakenChunks(r), r.job.chunks);
    TakenSplit(TakenChunks(r), r.job.chunks);
  }

  /**
   Any job that has ended, finished or aborted, has sent one final response for
   each error among the chunks it took and one more.  So there is exactly one if
   and only if it took no error; a finished job takes an error if one is sent.
   */
  lemma OneFinalResponse(net: Net, lim: Limits, states: seq<System>, steps: seq<Step>, n: nat, i: nat)
    requires IsRun(net, lim, states, steps) && n < |states|
    requires i < |states[n].finished + states[n].aborted|
    ensures var r := (states[n].finished + states[n].aborted)[i];
            && |Only(Final, r.job.responses)| == BrokenIn(TakenChunks(r)) + 1
            && (|Only(Final, r.job.responses)| == 1 <==> ErrorFree(TakenChunks(r)))
            && (i < |states[n].finished| ==> (|Only(Final, r.job.responses)| == 1 <==> ErrorFree(r.hist.fed)))
  {
    hide IsRun, ErrorFree, TicketsOk, PoolFits, RunOk, Conserved, WindowsOk, OutputOk, ModeOk, SamplesOf, BrokenIn, Only;
    RunsAreOk(net, lim, states, steps, n);
    var s, f := states[n], |states[n].finished|;
    var r := (s.finished + s.aborted)[i];
    if i < f {
      assert Delivered(net, s.finished[i]);
      ErrorFreeParts(TakenChunks(r), r.job.chunks);
    } else {
      assert AbortedOk(net, s.aborted[i - f]);
    }
    ErrorsAreCounted(TakenChunks(r));
  }

  /** A job nothing has happened to. */
  predicate Untouched(j: Job) {
    && j.chunks == [] && j.buffer == [] && j.responses == [] && !j.closed && !j.senderGone
    && j.inFlight == 0 && !j.vadInFlight && j.dispatched == 0 && j.completed == 0
  }

  /** It gets one broken chunk and loses its reader, and the scheduler takes both. */
  function BrokenJob(r: Run, error: string, limit: nat): Run {
    RunDrain(RunHangUp(RunFeed(r, Broken(error))), limit)
  }

  lemma BrokenJobCompletes(r: Run, error: string, limit: pos)
    requires Untouched(r.job)
    ensures IsComplete(BrokenJob(r, error, limit).job)
    ensures RunFinish(BrokenJob(r, error, limit)).job.responses == [FinishedErr(error), Finished(0, 0)]
  {
    var j := RunHangUp(RunFeed(r, Broken(error))).job;
    assert j.chunks == [Broken(error)] && j.chunks[..0] == [];
    AcceptAllOfNothing(j);
  }

  lemma OneCompletes(r: Run)
    requires IsComplete(r.job)
    ensures Remaining([r]) == [] && Completed([r]) == [RunFinish(r)]
  {
    hide IsComplete;
    assert [r][..0] == [];
    assert Remaining([]) == [] && Completed([]) == [];
  }

  lemma ReaderSteps(net: Net, lim: Limits, s: System, r: Run, error: string)
    requires P.TokensOk(s.pool) && s.active == [r] && !r.job.senderGone
    ensures var s1 := s.(active := [RunFeed(r, Broken(error))]);
            && Enabled(net, lim, s, Feed(0, Broken(error))) && After(net, lim, s, Feed(0, Broken(error))) == s1
            && Enabled(net, lim, s1, HangUp(0))
            && After(net, lim, s1, HangUp(0)) == s.(active := [RunHangUp(RunFeed(r, Broken(error)))])
  {
    hide P.TokensOk;
  }

  lemma SchedulerSteps(net: Net, lim: Limits, s: System, r: Run)
    requires P.TokensOk(s.pool) && s.active == [r] && s.finished == [] && IsComplete(RunDrain(r, lim.inFlight).job)
    ensures var s1 := s.(active := [RunDrain(r, lim.inFlight)]);
            && Enabled(net, lim, s, DrainChunks) && After(net, lim, s, DrainChunks) == s1
            && Enabled(net, lim, s1, RemoveCompleted)
            && After(net, lim, s1, RemoveCompleted)
               == s1.(active := [], finished := [RunFinish(RunDrain(r, lim.inFlight))])
  {
    hide P.TokensOk, RunDrain, IsComplete, Remaining, Completed, RunFinish;
    OneCompletes(RunDrain(r, lim.inFlight));
    assert DrainAll([r], lim.inFlight) == [RunDrain(r, lim.inFlight)];
    assert [] + [RunFinish(RunDrain(r, lim.inFlight))] == [RunFinish(RunDrain(r, lim.inFlight))];
  }

  /** From a run that has just admitted its one job. */
  lemma BrokenChunkRun(net: Net, lim: Limits, s0: seq<System>, t0: seq<Step>, r: Run, error: string)
    returns (states: seq<System>, steps: seq<Step>)
    requires IsRun(net, lim, s0, t0) && P.TokensOk(s0[|t0|].pool)
    requires s0[|t0|].active == [r] && s0[|t0|].finished == [] && Untouched(r.job)
    ensures IsRun(net, lim, states, steps)
    ensures states[|steps|].finished == [RunFinish(BrokenJob(r, error, lim.inFlight))]
  {
    var s := s0[|t0|];
    BrokenJobCompletes(r, error, lim.inFlight);
    ReaderSteps(net, lim, s, r, error);
    var r2 := RunHangUp(RunFeed(r, Broken(error)));
    var s1, s2 := s.(active := [RunFeed(r, Broken(error))]), s.(active := [r2]);
    SchedulerSteps(net, lim, s2, r2);
    var s3 := s2.(active := [BrokenJob(r, error, lim.inFlight)]);
    var s4 := s3.(active := [], finished := [RunFinish(s3.active[0])]);
    hide IsRun, P.TokensOk, Enabled, After, RunFeed, RunHangUp, RunDrain, RunFinish, IsComplete;
    states, steps := s0 + [s1], t0 + [Feed(0, Broken(error))];
    RunGoesOn(net, lim, s0, t0, Feed(0, Broken(error)));
    RunGoesOn(net, lim, states, steps, HangUp(0));
    states, steps := states + [s2], steps + [HangUp(0)];
    RunGoesOn(net, lim, states, steps, DrainChunks);
    states, steps := states + [s3], steps + [DrainChunks];
    RunGoesOn(net, lim, states, steps, RemoveCompleted);
    states, steps := states + [s4], steps + [RemoveCompleted];
  }

  /** A run in which one job ends with two final responses. */
  lemma BrokenChunkEndsTwice(net: Net, lim: Limits, error: string) returns (states: seq<System>, steps: seq<Step>)
    ensures IsRun(net, lim, states, steps)
    ensures var s := states[|states| - 1];
            && |s.finished| == 1
            && s.finished[0].job.responses == [FinishedErr(error), Finished(0, 0)]
            && |Only(Final, s.finished[0].job.responses)| == 2
  {
    P.FreshTokensOk<NpuJob, NpuResult>();
    hide P.TokensOk, P.FreshPool, FreshState, BrokenJob, RunFinish;
    var r := NewRun(1, None, NO_OPTIONS);
    var s := Initial().(active := [r], nextId := 2);
    assert [] + [r] == [r];
    states, steps := BrokenChunkRun(net, lim, [Initial(), s], [Admit(None, NO_OPTIONS)], r, error);
    BrokenJobCompletes(r, error, lim.inFlight);
    OnlyOneKind(Final, [FinishedErr(error), Finished(0, 0)]);
  }

  /** The indices `in_flight` counts: cut, and neither emitted nor parked. */
  function AwaitedIndices(j: Job): set<nat> {
    set k: nat | j.nextResult <= k < j.nextWindow && k !in j.pending
  }

  function Range(lo: nat, hi: nat): (s: set<nat>)
    ensures forall k: nat :: k in s <==> lo <= k < hi
    decreases hi
  {
    if hi <= lo then {} else Range(lo, hi - 1) + {hi - 1}
  }

  lemma {:induction false} RangeSize(lo: nat, hi: nat)
    requires lo <= hi
    ensures |Range(lo, hi)| == hi - lo
    decreases hi
  {
    if lo < hi {
      RangeSize(lo, hi - 1);
    }
  }

  /**
   In every reachable state a job's in-flight count is the number of its windows
   the pool holds: each awaited window is outstanding exactly once, no other window
   is, and there are as many as the counter says, never more than the limit.
   */
  lemma InFlightIsOutstanding(net: Net, lim: Limits, states: seq<System>, steps: seq<Step>, n: nat, i: nat)
    requires IsRun(net, lim, states, steps) && n < |states| && i < |states[n].active|
    ensures var j := states[n].active[i].job;
            && |AwaitedIndices(j)| == j.inFlight <= lim.inFlight
            && forall k: nat :: Work(states[n].pool)[WhisperTicket(j.id, k)] == if k in AwaitedIndices(j) then 1 else 0
  {
    hide IsRun;
    RunsAreOk(net, lim, states, steps, n);
    var p, r := states[n].pool, states[n].active[i];
    assert ActiveOk(net, lim.inFlight, r, p);
    hide SystemOk, FedOk, Conserved, WindowsOk, OutputOk, FinalsOk, ModeOk, PoolFits, Work;
    var j := r.job;
    var range := Range(j.nextResult, j.nextWindow);
    RangeSize(j.nextResult, j.nextWindow);
    assert AwaitedIndices(j) == range - j.pending.Keys;
    assert j.pending.Keys <= range;
    forall k: nat ensures Work(p)[WhisperTicket(j.id, k)] == if k in AwaitedIndices(j) then 1 else 0 {
      assert Awaited(j, k) <==> k in AwaitedIndices(j);
    }
  }

  /** In every reachable state a job has one VAD window in the pool if it has any, the newest one it sent. */
  lemma OneVadWindowOutstanding(net: Net, lim: Limits, states: seq<System>, steps: seq<Step>, n: nat, i: nat, k: nat)
    requires IsRun(net, lim, states, steps) && n < |states| && i < |states[n].active|
    requires VadTicket(states[n].active[i].job.id, k) in Work(states[n].pool)
    ensures var r := states[n].active[i];
            && Work(states[n].pool)[VadTicket(r.job.id, k)] == 1
            && k + 1 == |r.hist.scored|
            && forall m: nat :: VadTicket(r.job.id, m) in Work(states[n].pool) ==> m == k
  {
    hide IsRun;
    RunsAreOk(net, lim, states, steps, n);
    var r := states[n].active[i];
    assert ActiveOk(net, lim.inFlight, r, states[n].pool);
    hide SystemOk, FedOk, Conserved, WindowsOk, CountersOk, OutputOk, FinalsOk, PoolFits, Work;
    assert Work(states[n].pool)[VadTicket(r.job.id, k)] > 0;
  }

  lemma FreshStateIsZero()
    ensures |FreshState()| == 256 && forall i :: 0 <= i < 256 ==> FreshState()[i] == 0.0
  {
  }

  /** In every run no sample of a stream is given to the VAD twice, and each window starts from the state the last one left. */
  lemma ScoredOnceInOrder(net: Net, lim: Limits, states: seq<System>, steps: seq<Step>, n: nat, i: nat, a: nat, b: nat)
    requires IsRun(net, lim, states, steps) && n < |states| && i < |Everyone(states[n])|
    requires a < b < |Everyone(states[n])[i].hist.scored|
    ensures var r := Everyone(states[n])[i];
            var first, second := r.hist.scored[a], r.hist.scored[b];
            && first.absStart + |first.job.samples| <= second.absStart
            && second.absStart + |second.job.samples| <= |r.hist.received|
            && second.job.samples == r.hist.received[second.absStart..second.absStart + |second.job.samples|]
            && (a == 0 ==> |first.job.state| == 256 && forall i :: 0 <= i < 256 ==> first.job.state[i] == 0.0)
            && (b == a + 1 ==> second.job.state == VadAnswer(net, first.job).state)
  {
    EveryoneOk(net, lim, states, steps, n, i);
    var r := Everyone(states[n])[i];
    FreshStateIsZero();
    hide IsRun, FedOk, Conserved, WindowsOk, OutputOk, Everyone, VadAnswer, FreshState, PositionOk, ScoresOk;
    var ws := r.job.vad.value.windowSamples;
    assert ScoredOk(net, r.job.id, ws, r.hist.scored, a, r.hist.received, r.job.closed);
    assert ScoredOk(net, r.job.id, ws, r.hist.scored, b, r.hist.received, r.job.closed);
  }

  // --------------------------------------------------- jobs without VAD

  /** Window k of the fixed cutting of a stream, as a job. */
  function FixedJob(id: nat, options: Options, received: seq<Sample>, k: nat): WhisperJob
    requires k * N_SAMPLES < |received|
  {
    var samples := received[k * N_SAMPLES..Min(k * N_SAMPLES + N_SAMPLES, |received|)];
    WhisperJob(id, k, k * N_SAMPLES, 0, |samples|, samples, options)
  }

  lemma TilingSize(offset: nat, count: nat)
    requires count == 0 ==> offset == 0
    requires count > 0 ==> (count - 1) * N_SAMPLES < offset <= count * N_SAMPLES
    ensures |FixedAudioWindows(offset)| == count
  {
    FixedWindowsTile(offset);
    var n := |FixedAudioWindows(offset)|;
    if n > 0 {
      assert (n - 1) * N_SAMPLES < offset <= n * N_SAMPLES by {
        assert FixedAudioWindows(offset)[n - 1].start < offset;
      }
    }
  }

  /** The fixed windows of a finished job reach exactly to the end of the stream. */
  lemma DeliveredExtent(net: Net, r: Run)
    requires Delivered(net, r) && r.job.vad.None?
    ensures var n := |r.hist.windows|;
            && (n == 0 ==> |r.hist.received| == 0)
            && (n > 0 ==> (n - 1) * N_SAMPLES < |r.hist.received| <= n * N_SAMPLES)
  {
    var n := |r.hist.windows|;
    if n > 0 {
      assert WindowOk(r.job.id, r.hist.windows[n - 1], r.hist.events[n - 1], n - 1, r.hist.received[..r.job.offset]);
    }
  }

  lemma WindowIsFixed(net: Net, r: Run, k: nat)
    requires Delivered(net, r) && r.job.vad.None? && k < |r.hist.windows|
    ensures k * N_SAMPLES < |r.hist.received|
    ensures r.hist.windows[k] == FixedJob(r.job.id, r.job.options, r.hist.received, k)
  {
    DeliveredExtent(net, r);
    hide FedOk, OutputOk, Only, EventLog, SegmentsOut, Flat, Transcripts, EventsInside, AllErrors, FixedJob;
    assert r.hist.received[..r.job.offset] == r.hist.received;
    assert WindowOk(r.job.id, r.hist.windows[k], r.hist.events[k], k, r.hist.received);
    assert FixedOk(r);
    SliceIsFixed(r.hist.windows[k], r.hist.events[k], r.job.id, r.job.options, r.hist.received, k);
  }

  lemma SliceIsFixed(w: WhisperJob, events: seq<Span>, id: nat, options: Options, received: seq<Sample>, k: nat)
    requires WindowOk(id, w, events, k, received) && w.options == options && w.absStart == k * N_SAMPLES < |received|
    requires w.absStart + |w.samples| == Min(k * N_SAMPLES + N_SAMPLES, |received|)
    ensures w == FixedJob(id, options, received, k)
  {
  }

  lemma WindowsAreFixed(net: Net, r: Run)
    requires Delivered(net, r) && r.job.vad.None?
    ensures |r.hist.windows| == |FixedAudioWindows(|r.hist.received|)|
    ensures forall k: nat :: k < |r.hist.windows| ==>
              && k * N_SAMPLES < |r.hist.received|
              && r.hist.windows[k] == FixedJob(r.job.id, r.job.options, r.hist.received, k)
              && FixedAudioWindows(|r.hist.received|)[k]
                 == AudioWindow(k, r.hist.windows[k].absStart, r.hist.windows[k].absStart + |r.hist.windows[k].samples|)
  {
    hide Delivered, FixedAudioWindows, FixedJob;
    DeliveredExtent(net, r);
    TilingSize(|r.hist.received|, |r.hist.windows|);
    forall k: nat | k < |r.hist.windows|
      ensures k * N_SAMPLES < |r.hist.received|
      ensures r.hist.windows[k] == FixedJob(r.job.id, r.job.options, r.hist.received, k)
      ensures FixedAudioWindows(|r.hist.received|)[k]
              == AudioWindow(k, r.hist.windows[k].absStart, r.hist.windows[k].absStart + |r.hist.windows[k].samples|)
    {
      WindowIsFixed(net, r, k);
      FixedWindowOfJob(r.job.id, r.job.options, r.hist.received, k);
    }
  }

  lemma FixedWindowOfJob(id: nat, options: Options, received: seq<Sample>, k: nat)
    requires k < |FixedAudioWindows(|received|)| && k * N_SAMPLES < |received|
    ensures var job := FixedJob(id, options, received, k);
            FixedAudioWindows(|received|)[k] == AudioWindow(k, job.absStart, job.absStart + |job.samples|)
  {
    FixedWindowsTile(|received|);
  }

  /**
   In every run a finished job without VAD has cut exactly the fixed windows of the
   samples it received, whatever the chunks they came in and however the workers
   were scheduled; without a chunk error those are all the samples sent.
   */
  lemma LiveCutsFixedWindows(net: Net, lim: Limits, states: seq<System>, steps: seq<Step>, n: nat, i: nat)
    requires IsRun(net, lim, states, steps) && n < |states| && i < |states[n].finished|
    requires states[n].finished[i].job.vad.None?
    ensures var r := states[n].finished[i];
            && (ErrorFree(r.hist.fed) ==> r.hist.received == SamplesOf(r.hist.fed))
            && |r.hist.windows| == |FixedAudioWindows(|r.hist.received|)|
            && forall k: nat :: k < |r.hist.windows| ==>
                 && k * N_SAMPLES < |r.hist.received|
                 && r.hist.windows[k] == FixedJob(r.job.id, r.job.options, r.hist.received, k)
                 && FixedAudioWindows(|r.hist.received|)[k]
                    == AudioWindow(k, r.hist.windows[k].absStart, r.hist.windows[k].absStart + |r.hist.windows[k].samples|)
  {
    hide IsRun, Delivered, FixedAudioWindows, FixedJob, ErrorFree, TakenChunks;
    FinishedJobsDelivered(net, lim, states, steps, n, i);
    FinishedJobReadItsStream(net, lim, states, steps, n, i);
    var r := states[n].finished[i];
    WindowsAreFixed(net, r);
    if ErrorFree(r.hist.fed) {
      assert SamplesOf([]) == [];
    }
  }

  /** The text of the fixed windows of a stream. */
  function FixedText(net: Net, options: Options, received: seq<Sample>): seq<Response> {
    var n := |FixedAudioWindows(|received|)|;
    FixedWindowsTile(|received|);
    SegmentsOut(Flat(seq(n, k requires 0 <= k < n =>
      if k * N_SAMPLES < |received| then Transcribe(net, FixedJob(0, options, received, k)) else [])))
  }

  /** The id of a job is not transcribed. */
  lemma IdIsNotTranscribed(net: Net, id: nat, options: Options, received: seq<Sample>, k: nat)
    requires k * N_SAMPLES < |received|
    ensures Transcribe(net, FixedJob(id, options, received, k)) == Transcribe(net, FixedJob(0, options, received, k))
  {
  }

  lemma FixedTranscript(net: Net, r: Run, k: nat)
    requires Delivered(net, r) && r.job.vad.None? && k < |r.hist.windows|
    ensures k * N_SAMPLES < |r.hist.received|
    ensures Transcribe(net, r.hist.windows[k]) == Transcribe(net, FixedJob(0, r.job.options, r.hist.received, k))
  {
    hide Delivered, FixedJob, Transcribe;
    WindowIsFixed(net, r, k);
    IdIsNotTranscribed(net, r.job.id, r.job.options, r.hist.received, k);
  }

  lemma TextOfFixedWindows(net: Net, r: Run)
    requires Delivered(net, r) && r.job.vad.None?
    ensures Only(Text, r.job.responses) == FixedText(net, r.job.options, r.hist.received)
  {
    hide FixedAudioWindows, FixedJob, LogOk, SegmentsOut, Flat, Only, Transcribe;
    var n, received := |r.hist.windows|, r.hist.received;
    DeliveredExtent(net, r);
    TilingSize(|received|, n);
    forall k: nat | k < n
      ensures k * N_SAMPLES < |received|
      ensures Transcribe(net, r.hist.windows[k]) == Transcribe(net, FixedJob(0, r.job.options, received, k))
    {
      FixedTranscript(net, r, k);
    }
    hide Delivered;
    assert Transcripts(net, r.hist.windows)
        == seq(n, k requires 0 <= k < n =>
             if k * N_SAMPLES < |received| then Transcribe(net, FixedJob(0, r.job.options, received, k)) else []);
  }

  /**
   Two finished jobs without VAD, of one run or of two, that received the same
   samples with the same options send the same text, whatever their ids, their
   chunks and the schedules.
   */
  lemma SameStreamSameText(net: Net, lim: Limits, states: seq<System>, steps: seq<Step>, n: nat, i: nat,
                           lim': Limits, states': seq<System>, steps': seq<Step>, n': nat, i': nat)
    requires IsRun(net, lim, states, steps) && n < |states| && i < |states[n].finished|
    requires IsRun(net, lim', states', steps') && n' < |states'| && i' < |states'[n'].finished|
    requires states[n].finished[i].job.vad.None? && states'[n'].finished[i'].job.vad.None?
    requires states[n].finished[i].job.options == states'[n'].finished[i'].job.options
    requires states[n].finished[i].hist.received == states'[n'].finished[i'].hist.received
    ensures Only(Text, states[n].finished[i].job.responses) == Only(Text, states'[n'].finished[i'].job.responses)
  {
    hide IsRun, Delivered, FixedText;
    FinishedJobsDelivered(net, lim, states, steps, n, i);
    FinishedJobsDelivered(net, lim', states', steps', n', i');
    TextOfFixedWindows(net, states[n].finished[i]);
    TextOfFixedWindows(net, states'[n'].finished[i']);
  }

  // ---------------------------------------------------------- speech events

  function PositionOf(r: Response): nat {
    match r
    case SpeechStarted(begin) => begin
    case SpeechEnded(end) => end
    case _ => 0
  }

  /** Started, Ended, Started, Ended, ... at positions that never go back, all at most `bound`, each start strictly before its end. */
  ghost predicate Alternates(rs: seq<Response>, bound: nat) {
    && |rs| % 2 == 0
    && (forall i :: 0 <= i < |rs| ==> if i % 2 == 0 then rs[i].SpeechStarted? else rs[i].SpeechEnded?)
    && (forall i :: 0 <= i < |rs| ==> PositionOf(rs[i]) <= bound)
    && (forall i, k :: 0 <= i < k < |rs| ==> PositionOf(rs[i]) <= PositionOf(rs[k]))
    && (forall i, k :: 0 <= i < k < |rs| && k == i + 1 && i % 2 == 0 ==> PositionOf(rs[i]) < PositionOf(rs[k]))
  }

  lemma AlternatesAppends(a: seq<Response>, mid: nat, begin: nat, end: nat)
    requires Alternates(a, mid) && mid <= begin < end
    ensures Alternates(a + [SpeechStarted(begin), SpeechEnded(end)], end)
  {
  }

  lemma {:induction false} WindowEventsAlternate(log: seq<Response>, mid: nat, events: seq<Span>, w: WhisperJob)
    requires Alternates(log, mid) && mid <= w.absStart && EventsInside(events, w)
    ensures Alternates(log + EventResponses(0, events),
                       if events == [] then mid else events[|events| - 1].end)
  {
    if events == [] {
      assert log + [] == log;
    } else {
      var n := |events| - 1;
      WindowEventsAlternate(log, mid, events[..n], w);
      var before := log + EventResponses(0, events[..n]);
      AlternatesAppends(before, if n == 0 then mid else events[n - 1].end, events[n].start, events[n].end);
      assert before + [SpeechStarted(events[n].start), SpeechEnded(events[n].end)] == log + EventResponses(0, events);
    }
  }

  lemma NothingAlternates()
    ensures Alternates([], 0)
  {
  }

  lemma AlternatesWeaken(rs: seq<Response>, low: nat, high: nat)
    requires Alternates(rs, low) && low <= high
    ensures Alternates(rs, high)
  {
  }

  /** Where the last window ends. */
  function EndOf(windows: seq<WhisperJob>): nat {
    if windows == [] then 0 else windows[|windows| - 1].absStart + |windows[|windows| - 1].samples|
  }

  lemma SlicesPrefix(id: nat, windows: seq<WhisperJob>, events: seq<seq<Span>>, drained: seq<Sample>)
    requires SlicesOk(id, windows, events, drained) && windows != []
    ensures var n := |windows| - 1;
            && SlicesOk(id, windows[..n], events[..n], drained)
            && EndOf(windows[..n]) <= windows[n].absStart
            && EventsInside(events[n], windows[n])
  {
    var n := |windows| - 1;
    forall k | 0 <= k < n ensures WindowOk(id, windows[..n][k], events[..n][k], k, drained) {
      assert WindowOk(id, windows[k], events[k], k, drained);
    }
    assert WindowOk(id, windows[n], events[n], n, drained);
  }

  lemma {:induction false} EventLogAlternates(id: nat, windows: seq<WhisperJob>, events: seq<seq<Span>>, drained: seq<Sample>)
    requires SlicesOk(id, windows, events, drained)
    ensures Alternates(EventLog(events), EndOf(windows))
  {
    if windows == [] {
      NothingAlternates();
    } else {
      var n := |windows| - 1;
      SlicesPrefix(id, windows, events, drained);
      EventLogAlternates(id, windows[..n], events[..n], drained);
      hide Alternates, SlicesOk;
      var es, mid := events[n], EndOf(windows[..n]);
      WindowEventsAlternate(EventLog(events[..n]), mid, es, windows[n]);
      AlternatesWeaken(EventLog(events), if es == [] then mid else es[|es| - 1].end, EndOf(windows));
    }
  }

  /**
   The log is the events of the windows in order, each window's inside the window
   and strictly apart; altogether they alternate.
   */
  lemma LogAlternates(net: Net, r: Run)
    requires WindowsOk(r) && OutputOk(net, r)
    ensures Alternates(Only(Speech, r.job.responses), |r.hist.received|)
    ensures |r.hist.events| == |r.hist.windows|
    ensures forall k :: 0 <= k < |r.hist.windows| ==> EventsInside(r.hist.events[k], r.hist.windows[k])
  {
    EventLogAlternates(r.job.id, r.hist.windows, r.hist.events, r.hist.received[..r.job.offset]);
    forall k | 0 <= k < |r.hist.windows|
      ensures EventsInside(r.hist.events[k], r.hist.windows[k]) && EndOf(r.hist.windows[..k + 1]) <= |r.hist.received|
    {
      assert WindowOk(r.job.id, r.hist.windows[k], r.hist.events[k], k, r.hist.received[..r.job.offset]);
    }
    assert r.hist.windows[..|r.hist.windows|] == r.hist.windows;
    AlternatesWeaken(EventLog(r.hist.events), EndOf(r.hist.windows), |r.hist.received|);
  }

  /** All spans, window after window. */
  function Spans(events: seq<seq<Span>>): seq<Span> {
    if events == [] then [] else Spans(events[..|events| - 1]) + events[|events| - 1]
  }

  /** A start and an end for each span, in order. */
  ghost predicate Announces(log: seq<Response>, spans: seq<Span>) {
    && |log| == 2 * |spans|
    && forall i :: 0 <= i < |spans| ==> log[2 * i] == SpeechStarted(spans[i].start) && log[2 * i + 1] == SpeechEnded(spans[i].end)
  }

  lemma AnnouncesAppends(a: seq<Response>, b: seq<Response>, s: seq<Span>, t: seq<Span>)
    requires Announces(a, s) && Announces(b, t)
    ensures Announces(a + b, s + t)
  {
  }

  lemma {:induction false} ResponsesAnnounce(events: seq<Span>)
    ensures Announces(EventResponses(0, events), events)
  {
    if events != [] {
      var n := |events| - 1;
      ResponsesAnnounce(events[..n]);
      assert Announces([SpeechStarted(events[n].start), SpeechEnded(events[n].end)], [events[n]]);
      AnnouncesAppends(EventResponses(0, events[..n]), [SpeechStarted(events[n].start), SpeechEnded(events[n].end)],
                       events[..n], [events[n]]);
      assert events == events[..n] + [events[n]];
    }
  }

  lemma {:induction false} LogAnnounces(events: seq<seq<Span>>)
    ensures Announces(EventLog(events), Spans(events))
  {
    if events != [] {
      var n := |events| - 1;
      LogAnnounces(events[..n]);
      ResponsesAnnounce(events[n]);
      hide Announces;
      AnnouncesAppends(EventLog(events[..n]), EventResponses(0, events[n]), Spans(events[..n]), events[n]);
    }
  }

  /**
   In every run a job's speech events are those of its windows, in window order, and
   each lies inside the window dispatched with it.  Across all windows they
   alternate, start strictly before end, and never go back in time.
   */
  lemma SpeechEventsAlternate(net: Net, lim: Limits, states: seq<System>, steps: seq<Step>, n: nat, i: nat)
    requires IsRun(net, lim, states, steps) && n < |states| && i < |Everyone(states[n])|
    ensures var r := Everyone(states[n])[i];
            && Announces(Only(Speech, r.job.responses), Spans(r.hist.events))
            && |r.hist.events| == |r.hist.windows|
            && (forall k :: 0 <= k < |r.hist.windows| ==> EventsInside(r.hist.events[k], r.hist.windows[k]))
            && Alternates(Only(Speech, r.job.responses), |r.hist.received|)
  {
    EveryoneOk(net, lim, states, steps, n, i);
    hide IsRun, Everyone, FedOk, Conserved, WindowsOk, ModeOk, Alternates, EventsInside, Only, EventLog;
    LogAlternates(net, Everyone(states[n])[i]);
    LogAnnounces(Everyone(states[n])[i].hist.events);
  }
}
