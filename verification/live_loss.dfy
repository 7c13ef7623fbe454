/**
 A run in which speech is lost: at the default VAD window a full Whisper window
 ends inside a VAD window, and what is left of that one is dropped as silence.
 */
module LiveLoss {
  import opened Wrappers
  import opened Vad
  import opened LiveJob
  import opened LiveInvariant
  import opened LiveSteps
  import opened LiveSystem
  import opened LiveRuns
  import opened Transcription
  import P = Pool
  import W = Windows

  const DEFAULT_VAD := VadConfig(0.5, 250, 100, 100, 512)

  /** 938 VAD windows are 256 samples more than a Whisper window. */
  const COUNT: nat := 938

  /** The stream: chunks of the size the reader sends. */
  ghost predicate Chunks(cs: seq<Chunk>) {
    forall i :: 0 <= i < |cs| ==> cs[i].Audio? && |cs[i].samples| == 512
  }

  /** A VAD network that hears speech in every window. */
  ghost predicate HearsSpeech(net: Net) {
    forall samples, state, size :: net.vad(samples, state, size).0 >= DEFAULT_VAD.threshold
  }

  // --------------------------------------------------------- one job's steps

  /** The scheduler with one job. */
  function Solo(r: Run, pool: LivePool): System { System([r], [], [], pool, 0, 2) }

  /** A pool in which only the first worker is not about to announce itself. */
  function Busy(st: P.Stage<NpuJob, NpuResult>, ready: seq<nat>, results: seq<NpuResult>): LivePool {
    P.Pool([st, P.Announcing, P.Announcing], ready, results)
  }

  function Idle(): LivePool { Busy(P.Announcing, [], []) }

  ghost predicate Goes(net: Net, lim: Limits, s: System, step: Step, s': System) {
    P.TokensOk(s.pool) && Enabled(net, lim, s, step) && After(net, lim, s, step) == s'
  }

  lemma GoOne(net: Net, lim: Limits, states: seq<System>, steps: seq<Step>, step: Step, s': System)
    returns (longer: seq<System>, more: seq<Step>)
    requires IsRun(net, lim, states, steps) && Goes(net, lim, states[|steps|], step, s')
    ensures IsRun(net, lim, longer, more) && |longer| == |more| + 1 && longer[|more|] == s'
  {
    RunGoesOn(net, lim, states, steps, step);
    hide IsRun;
    longer, more := states + [s'], steps + [step];
  }

  lemma FeedGoes(net: Net, lim: Limits, r: Run, c: Chunk)
    requires !r.job.senderGone
    ensures Goes(net, lim, Solo(r, Idle()), Feed(0, c), Solo(RunFeed(r, c), Idle()))
  {
    hide RunFeed;
  }

  lemma HangUpGoes(net: Net, lim: Limits, r: Run)
    requires !r.job.senderGone
    ensures Goes(net, lim, Solo(r, Idle()), HangUp(0), Solo(RunHangUp(r), Idle()))
  {
    hide RunHangUp;
  }

  lemma DrainGoes(net: Net, lim: Limits, r: Run)
    ensures Goes(net, lim, Solo(r, Idle()), DrainChunks, Solo(RunDrain(r, lim.inFlight), Idle()))
  {
    hide RunDrain;
    assert DrainAll([r], lim.inFlight) == [RunDrain(r, lim.inFlight)];
  }

  lemma RefreshGoes(net: Net, lim: Limits, r: Run, pool: LivePool)
    requires P.TokensOk(pool)
    ensures Goes(net, lim, Solo(r, pool), Refresh, Solo(RunRefresh(r), pool))
  {
    hide RunRefresh, P.TokensOk;
    assert RefreshAll([r]) == [RunRefresh(r)];
  }

  lemma AnnounceGoes(net: Net, lim: Limits, r: Run)
    ensures Goes(net, lim, Solo(r, Idle()), WorkerMoves(0, P.Announce), Solo(r, Busy(P.Waiting, [0], [])))
  {
  }

  lemma PickGoes(net: Net, lim: Limits, r: Run, j: NpuJob)
    ensures Goes(net, lim, Solo(r, Busy(P.Queued(j), [], [])), WorkerMoves(0, P.Pick), Solo(r, Busy(P.Running(j), [], [])))
  {
  }

  lemma CompleteGoes(net: Net, lim: Limits, r: Run, j: NpuJob, res: NpuResult)
    requires Answers(net, j, res)
    ensures Goes(net, lim, Solo(r, Busy(P.Running(j), [], [])), WorkerMoves(0, P.Complete(res)),
                 Solo(r, Busy(P.Reporting(res), [], [])))
  {
  }

  lemma ReportGoes(net: Net, lim: Limits, r: Run, res: NpuResult)
    ensures Goes(net, lim, Solo(r, Busy(P.Reporting(res), [], [])), WorkerMoves(0, P.Report),
                 Solo(r, Busy(P.Announcing, [], [res])))
  {
  }

  lemma SoloSearch(flag: bool)
    ensures Search([flag], 0, 1) == (if flag then Some(0) else None, 0)
  {
    if !flag {
      assert Search([flag], 0, 0) == (None, 0);
    }
  }

  lemma SoloSelect(j: Job, limit: nat)
    requires HasVadReady(j) || MayDispatch(j, limit)
    ensures Select([j], 0, limit) == Choice(Some(0), HasVadReady(j), 0)
    ensures HasDispatchable([j], limit)
  {
    hide HasVadReady, MayDispatch, Search;
    SoloSearch(HasVadReady(j));
    SoloSearch(MayDispatch(j, limit));
    assert VadFlags([j]) == [HasVadReady(j)] && WindowFlags([j], limit) == [MayDispatch(j, limit)];
    assert HasVadReady([j][0]) || MayDispatch([j][0], limit);
  }

  lemma SendVadGoes(net: Net, lim: Limits, r: Run)
    requires HasVadReady(r.job)
    ensures Goes(net, lim, Solo(r, Busy(P.Waiting, [0], [])), TakeReady,
                 Solo(RunVadSent(r), Busy(P.Queued(VadWork(NextVadJob(r.job))), [], [])))
  {
    SoloSelect(r.job, lim.inFlight);
    hide HasVadReady, RunVadSent, NextVadJob, Select, HasDispatchable;
    assert Jobs([r]) == [r.job];
    assert [r][0 := RunVadSent(r)] == [RunVadSent(r)];
  }

  lemma SendWindowGoes(net: Net, lim: Limits, r: Run, p: Plan)
    requires !HasVadReady(r.job) && MayDispatch(r.job, lim.inFlight) && NextPlan(r.job) == Some(p) && Fits(r.job, p)
    ensures Goes(net, lim, Solo(r, Busy(P.Waiting, [0], [])), TakeReady,
                 Solo(RunCut(r, p), Busy(P.Queued(WhisperWork(WindowJob(r.job, p))), [], [])))
  {
    SoloSelect(r.job, lim.inFlight);
    hide HasVadReady, RunCut, WindowJob, Select, HasDispatchable, NextPlan;
    assert Jobs([r]) == [r.job];
    assert [r][0 := RunCut(r, p)] == [RunCut(r, p)];
  }

  lemma TakeVadGoes(net: Net, lim: Limits, r: Run, v: VadResult)
    requires r.job.vadInFlight && v.jobId == r.job.id
    ensures Goes(net, lim, Solo(r, Busy(P.Announcing, [], [VadDone(v)])), TakeResult, Solo(RunVadDone(r, v), Idle()))
  {
    hide RunVadDone;
    assert [r][..0] == [] && Find([], r.job.id) == None;
    assert Find([r], r.job.id) == Some(0);
    assert [r][0 := RunVadDone(r, v)] == [RunVadDone(r, v)];
    assert [r][0].job.vadInFlight;
    assert P.Received(Busy(P.Announcing, [], [VadDone(v)])) == Idle();
  }

  /** One VAD window goes once round: sent, scored, reported and taken. */
  lemma ScoreOne(net: Net, lim: Limits, states: seq<System>, steps: seq<Step>, r: Run)
    returns (longer: seq<System>, more: seq<Step>)
    requires IsRun(net, lim, states, steps) && states[|steps|] == Solo(r, Idle()) && HasVadReady(r.job)
    ensures IsRun(net, lim, longer, more) && |longer| == |more| + 1
    ensures longer[|more|] == Solo(RunVadDone(RunVadSent(r), VadAnswer(net, NextVadJob(r.job))), Idle())
  {
    var j := NextVadJob(r.job);
    var v := VadAnswer(net, j);
    assert RunVadSent(r).job.vadInFlight && v.jobId == RunVadSent(r).job.id && Answers(net, VadWork(j), VadDone(v));
    hide IsRun, Goes, Busy, Idle, Solo, RunVadSent, RunVadDone, HasVadReady, NextVadJob, VadAnswer, Answers;
    var r' := RunVadSent(r);
    AnnounceGoes(net, lim, r);
    longer, more := GoOne(net, lim, states, steps, WorkerMoves(0, P.Announce), Solo(r, Busy(P.Waiting, [0], [])));
    SendVadGoes(net, lim, r);
    longer, more := GoOne(net, lim, longer, more, TakeReady, Solo(r', Busy(P.Queued(VadWork(j)), [], [])));
    PickGoes(net, lim, r', VadWork(j));
    longer, more := GoOne(net, lim, longer, more, WorkerMoves(0, P.Pick), Solo(r', Busy(P.Running(VadWork(j)), [], [])));
    CompleteGoes(net, lim, r', VadWork(j), VadDone(v));
    longer, more := GoOne(net, lim, longer, more, WorkerMoves(0, P.Complete(VadDone(v))),
                          Solo(r', Busy(P.Reporting(VadDone(v)), [], [])));
    ReportGoes(net, lim, r', VadDone(v));
    longer, more := GoOne(net, lim, longer, more, WorkerMoves(0, P.Report), Solo(r', Busy(P.Announcing, [], [VadDone(v)])));
    TakeVadGoes(net, lim, r', v);
    longer, more := GoOne(net, lim, longer, more, TakeResult, Solo(RunVadDone(r', v), Idle()));
  }

  // ------------------------------------------------------------- the stream

  /** The job when m chunks have been taken and scored, all as speech. */
  ghost predicate Scoring(net: Net, cs: seq<Chunk>, r: Run, m: nat) {
    var j, h := r.job, r.hist;
    && m <= |cs| && j.id == 1 && j.vad == Some(DEFAULT_VAD) && !j.senderGone && !j.closed && j.chunks == []
    && j.offset == 0 && j.buffer == h.received == SamplesOf(cs[..m]) && |j.buffer| == 512 * m
    && !j.vadInFlight && j.vadProcessed == 512 * m && j.inFlight == 0
    && |j.probs| == m && (forall i :: 0 <= i < m ==> j.probs[i].start == 512 * i && IsSpeech(DEFAULT_VAD, j.probs[i]))
    && h.fed == cs[..m] && h.windows == [] && |h.scored| == m
    && (forall i :: 0 <= i < m ==> HeardSpeech(net, h.scored[i], i))
  }

  /** VAD window i of the stream was scored as speech. */
  ghost predicate HeardSpeech(net: Net, s: Scored, i: nat) {
    && s.absStart == 512 * i && |s.job.samples| == 512
    && VadAnswer(net, s.job).prob >= DEFAULT_VAD.threshold
  }

  /** The next chunk has been fed and drained. */
  lemma Drained(net: Net, cs: seq<Chunk>, r: Run, m: nat, limit: pos)
    requires Chunks(cs) && m < |cs| && Scoring(net, cs, r, m)
    ensures var r' := RunDrain(RunFeed(r, cs[m]), limit);
            && r' == Run(r.job.(buffer := r.job.buffer + cs[m].samples),
                         r.hist.(fed := r.hist.fed + [cs[m]], received := r.hist.received + cs[m].samples))
            && SamplesOf(cs[..m + 1]) == SamplesOf(cs[..m]) + cs[m].samples
            && cs[..m + 1] == cs[..m] + [cs[m]]
  {
    var j := RunFeed(r, cs[m]).job;
    assert j.chunks == [cs[m]] && [cs[m]][..0] == [];
    AcceptAllEffect(j, [cs[m]]);
    assert SamplesOf([]) == [] && BrokenIn([]) == 0 && ErrorsOf([]) == [];
    assert [] + cs[m].samples == cs[m].samples && j.responses + [] == j.responses;
    assert cs[..m + 1][..m] == cs[..m];
  }

  lemma Scored(net: Net, cs: seq<Chunk>, r: Run, m: nat, limit: pos)
    requires HearsSpeech(net) && Chunks(cs) && m < |cs| && Scoring(net, cs, r, m)
    ensures var r' := RunDrain(RunFeed(r, cs[m]), limit);
            && HasVadReady(r'.job)
            && Scoring(net, cs, RunVadDone(RunVadSent(r'), VadAnswer(net, NextVadJob(r'.job))), m + 1)
  {
    Drained(net, cs, r, m, limit);
    hide RunDrain, RunFeed, SamplesOf;
    var r' := RunDrain(RunFeed(r, cs[m]), limit);
    var v := VadAnswer(net, NextVadJob(r'.job));
    var r'' := RunVadDone(RunVadSent(r'), v);
    assert v.prob >= DEFAULT_VAD.threshold;
    assert HeardSpeech(net, r''.hist.scored[m], m);
    forall i | 0 <= i < m ensures HeardSpeech(net, r''.hist.scored[i], i) {
      assert r''.hist.scored[i] == r.hist.scored[i];
    }
  }

  /** Chunk after chunk is fed, drained and scored. */
  lemma {:induction false} ScoreAll(net: Net, lim: Limits, cs: seq<Chunk>, m: nat, states: seq<System>, steps: seq<Step>, r: Run)
    returns (longer: seq<System>, more: seq<Step>, last: Run)
    requires HearsSpeech(net) && Chunks(cs) && m <= |cs|
    requires IsRun(net, lim, states, steps) && states[|steps|] == Solo(r, Idle()) && Scoring(net, cs, r, m)
    ensures IsRun(net, lim, longer, more) && |longer| == |more| + 1
    ensures longer[|more|] == Solo(last, Idle()) && Scoring(net, cs, last, |cs|)
    decreases |cs| - m
  {
    longer, more, last := states, steps, r;
    if m < |cs| {
      StillOpen(net, cs, r, m);
      Scored(net, cs, r, m, lim.inFlight);
      hide IsRun, Goes, Idle, Solo, Scoring, Chunks, HearsSpeech, RunFeed, RunDrain, RunVadSent, RunVadDone, NextVadJob, VadAnswer, HasVadReady;
      var r1 := RunFeed(r, cs[m]);
      FeedGoes(net, lim, r, cs[m]);
      longer, more := GoOne(net, lim, longer, more, Feed(0, cs[m]), Solo(r1, Idle()));
      DrainGoes(net, lim, r1);
      var r2 := RunDrain(r1, lim.inFlight);
      longer, more := GoOne(net, lim, longer, more, DrainChunks, Solo(r2, Idle()));
      longer, more := ScoreOne(net, lim, longer, more, r2);
      longer, more, last :=
        ScoreAll(net, lim, cs, m + 1, longer, more, RunVadDone(RunVadSent(r2), VadAnswer(net, NextVadJob(r2.job))));
    }
  }

  lemma StillOpen(net: Net, cs: seq<Chunk>, r: Run, m: nat)
    requires Scoring(net, cs, r, m)
    ensures !r.job.senderGone
  {
  }

  // ------------------------------------------------------------ the last cut

  /** The reader has gone, all is scored: one segment from start to end. */
  ghost predicate AllSpeech(j: Job) {
    && j.vad == Some(DEFAULT_VAD) && j.closed && !j.vadInFlight && j.inFlight == 0 && j.offset == 0
    && |j.buffer| == 512 * COUNT == j.vadProcessed && |j.probs| == COUNT
    && forall i :: 0 <= i < COUNT ==> j.probs[i].start == 512 * i && IsSpeech(DEFAULT_VAD, j.probs[i])
  }

  lemma {:induction false} ScanOfSpeech(probs: seq<Score>, m: nat)
    requires 0 < m <= |probs| <= COUNT
    requires forall i :: 0 <= i < |probs| ==> probs[i].start == 512 * i && IsSpeech(DEFAULT_VAD, probs[i])
    ensures ScanAll(DEFAULT_VAD, 512 * COUNT, probs[..m]) == Scan([], Some(0), 512 * m)
  {
    assert probs[..m][..m - 1] == probs[..m - 1];
    if m > 1 {
      ScanOfSpeech(probs, m - 1);
    } else {
      assert ScanAll(DEFAULT_VAD, 512 * COUNT, []) == Scan([], None, 0);
    }
  }

  lemma OneSegment(j: Job)
    requires AllSpeech(j)
    ensures JobSegments(j) == [Span(0, 512 * COUNT)]
  {
    ScanOfSpeech(j.probs, COUNT);
    assert j.probs[..COUNT] == j.probs;
    var run := Span(0, 512 * COUNT);
    assert Runs(DEFAULT_VAD, 512 * COUNT, j.probs) == [run] by {
      assert [] + [run] == [run];
    }
    assert [run][..0] == [] && Merge(DEFAULT_VAD, 512 * COUNT, []) == [] && [] + [run] == [run];
  }

  const FULL: Plan := Plan(0, W.N_SAMPLES, [Span(0, W.N_SAMPLES)])

  lemma CutsFullWindow(j: Job, limit: pos)
    requires AllSpeech(j)
    ensures !HasVadReady(j) && MayDispatch(j, limit) && NextPlan(j) == Some(FULL) && Fits(j, FULL)
  {
    OneSegment(j);
    hide JobSegments;
    assert SpeechEvents([Span(0, 512 * COUNT)], 0, W.N_SAMPLES) == FULL.events;
  }

  lemma {:induction false} NothingKept(probs: seq<Score>, end: nat)
    requires forall i :: 0 <= i < |probs| ==> probs[i].start < end
    ensures Rebase(probs, end) == []
  {
    if probs != [] {
      NothingKept(probs[..|probs| - 1], end);
    }
  }

  /** What is left has been scored as speech and is taken for silence. */
  lemma RestIsDropped(r: Run)
    requires AllSpeech(r.job)
    ensures Fits(r.job, FULL)
    ensures var r' := RunRefresh(RunCut(r, FULL));
            && r'.job.buffer == [] && r'.job.closed
            && r'.hist == r.hist.(windows := r'.hist.windows, events := r'.hist.events, dropped := r'.hist.dropped)
            && r'.hist.windows == r.hist.windows + [WindowJob(r.job, FULL)]
  {
    NothingKept(r.job.probs, W.N_SAMPLES);
    var j := RunCut(r, FULL).job;
    assert j.probs == [] && |j.buffer| == 256 && j.vadProcessed == 256;
    assert ScanAll(DEFAULT_VAD, 256, []) == Scan([], None, 0) && Merge(DEFAULT_VAD, 256, []) == [];
    assert Clears(j);
  }

  // ---------------------------------------------------------------- the run

  lemma StartScoring(net: Net, cs: seq<Chunk>, options: Options)
    ensures Scoring(net, cs, NewRun(1, Some(DEFAULT_VAD), options), 0)
  {
    hide FreshState;
    assert cs[..0] == [] && SamplesOf([]) == [];
  }

  lemma AdmitGoes(net: Net, lim: Limits, options: Options)
    ensures Goes(net, lim, Initial(), Admit(Some(DEFAULT_VAD), options), Solo(NewRun(1, Some(DEFAULT_VAD), options), Idle()))
  {
    hide NewRun;
    assert [] + [NewRun(1, Some(DEFAULT_VAD), options)] == [NewRun(1, Some(DEFAULT_VAD), options)];
    assert P.FreshPool<NpuJob, NpuResult>() == Idle();
  }

  lemma JustStarted(net: Net, lim: Limits)
    ensures IsRun(net, lim, [Initial()], [])
  {
  }

  /** The reader goes, and the scheduler notices. */
  lemma Closed(net: Net, cs: seq<Chunk>, r: Run, limit: pos)
    requires Scoring(net, cs, r, |cs|) && |cs| == COUNT
    ensures var r' := RunDrain(RunHangUp(r), limit);
            && r' == Run(r.job.(senderGone := true, closed := true), r.hist) && AllSpeech(r'.job)
  {
    var r' := RunHangUp(r);
    assert cs[..|cs|] == cs;
    AcceptAllOfNothing(r'.job);
    assert SamplesOf([]) == [] && BrokenIn([]) == 0;
    assert r.hist.received + [] == r.hist.received;
  }

  lemma WhatWasScored(net: Net, cs: seq<Chunk>, r: Run)
    requires Scoring(net, cs, r, |cs|) && |cs| == COUNT
    ensures r.hist.fed == cs && r.hist.received == SamplesOf(cs) && |r.hist.received| == W.N_SAMPLES + 256
    ensures r.job.vad == Some(DEFAULT_VAD) && r.hist.windows == [] && r.job.offset == 0
    ensures |r.hist.scored| == COUNT && forall i :: 0 <= i < COUNT ==> HeardSpeech(net, r.hist.scored[i], i)
  {
    assert cs[..|cs|] == cs;
  }

  lemma Ending(net: Net, lim: Limits, cs: seq<Chunk>, states: seq<System>, steps: seq<Step>, r: Run)
    returns (longer: seq<System>, more: seq<Step>)
    requires IsRun(net, lim, states, steps) && states[|steps|] == Solo(r, Idle())
    requires Scoring(net, cs, r, |cs|) && |cs| == COUNT
    ensures IsRun(net, lim, longer, more) && |longer| == |more| + 1
    ensures var r2 := RunDrain(RunHangUp(r), lim.inFlight);
            && Fits(r2.job, FULL)
            && longer[|more|].active == [RunRefresh(RunCut(r2, FULL))]
  {
    Closed(net, cs, r, lim.inFlight);
    StillOpen(net, cs, r, |cs|);
    var r1 := RunHangUp(r);
    var r2 := RunDrain(r1, lim.inFlight);
    CutsFullWindow(r2.job, lim.inFlight);
    var w := WhisperWork(WindowJob(r2.job, FULL));
    var pool := Busy(P.Queued(w), [], []);
    assert P.TokensOk(pool);
    hide IsRun, Goes, Idle, Busy, Scoring, AllSpeech, RunHangUp, RunDrain, RunCut, RunRefresh, WindowJob, HasVadReady, MayDispatch, NextPlan, Fits, P.TokensOk;
    HangUpGoes(net, lim, r);
    longer, more := GoOne(net, lim, states, steps, HangUp(0), Solo(r1, Idle()));
    DrainGoes(net, lim, r1);
    longer, more := GoOne(net, lim, longer, more, DrainChunks, Solo(r2, Idle()));
    AnnounceGoes(net, lim, r2);
    longer, more := GoOne(net, lim, longer, more, WorkerMoves(0, P.Announce), Solo(r2, Busy(P.Waiting, [0], [])));
    SendWindowGoes(net, lim, r2, FULL);
    longer, more := GoOne(net, lim, longer, more, TakeReady, Solo(RunCut(r2, FULL), pool));
    RefreshGoes(net, lim, RunCut(r2, FULL), pool);
    longer, more := GoOne(net, lim, longer, more, Refresh, Solo(RunRefresh(RunCut(r2, FULL)), pool));
  }

  /**
   A client sends 938 chunks of 512 samples, and the VAD hears speech in every one.
   The only Whisper window ends 256 samples early, at 30 s, and the rest is gone: the
   job is closed and its buffer empty, so no window will ever hold those samples.
   */
  lemma ForcedCutLosesSpeech(net: Net, lim: Limits, options: Options, cs: seq<Chunk>)
    returns (states: seq<System>, steps: seq<Step>)
    requires HearsSpeech(net) && Chunks(cs) && |cs| == COUNT
    ensures IsRun(net, lim, states, steps) && |states| == |steps| + 1 && |states[|steps|].active| == 1
    ensures var r := states[|steps|].active[0];
            && r.job.vad == Some(DEFAULT_VAD) && r.job.closed && r.job.buffer == []
            && r.hist.fed == cs && r.hist.received == SamplesOf(cs) && |r.hist.received| == W.N_SAMPLES + 256
            && |r.hist.scored| == COUNT && (forall i :: 0 <= i < COUNT ==> HeardSpeech(net, r.hist.scored[i], i))
            && |r.hist.windows| == 1 && r.hist.windows[0].absStart == 0 && |r.hist.windows[0].samples| == W.N_SAMPLES
  {
    JustStarted(net, lim);
    AdmitGoes(net, lim, options);
    StartScoring(net, cs, options);
    var r0 := NewRun(1, Some(DEFAULT_VAD), options);
    var last: Run;
    hide IsRun, Goes, Solo, Idle, NewRun, Initial, Chunks, HearsSpeech, Scoring, RunDrain, RunHangUp, RunCut, RunRefresh, AllSpeech, SamplesOf, HeardSpeech;
    states, steps := GoOne(net, lim, [Initial()], [], Admit(Some(DEFAULT_VAD), options), Solo(r0, Idle()));
    states, steps, last := ScoreAll(net, lim, cs, 0, states, steps, r0);
    states, steps := Ending(net, lim, cs, states, steps, last);
    Closed(net, cs, last, lim.inFlight);
    RestIsDropped(RunDrain(RunHangUp(last), lim.inFlight));
    WhatWasScored(net, cs, last);
  }
}
