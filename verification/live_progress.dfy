/**
 Progress of the live scheduler.  While a job whose client has finished is
 active, the scheduler or a worker can take a step that changes something, and
 only boundedly many steps of any run change that job, the last one finishing or
 aborting it.  What the scheduler and the workers do in a run is bounded by what
 the clients have sent, so left to themselves they end every finished client's job.
 */
module LiveProgress {
  import opened Wrappers
  import opened Vad
  import opened LiveJob
  import opened LiveInvariant
  import opened LiveSteps
  import opened LiveSystem
  import opened LiveRuns
  import opened Transcription
  import P = Pool

  // ------------------------------------------------------------- potentials

  /** Buffered samples the VAD has not scored. */
  function Unscored(j: Job): nat {
    if j.vad.Some? then SatSub(|j.buffer|, j.vadProcessed) else 0
  }

  /** Bounds how many more steps a job whose reader has gone can take. */
  function Weight(j: Job): nat {
    5 * |SamplesOf(j.chunks)| + |j.chunks| + (if j.closed then 0 else 1)
    + 3 * |j.buffer| + 2 * Unscored(j) + (if j.vadInFlight then 0 else 1) + j.inFlight
  }

  predicate SameClient(a: Job, b: Job) { a.id == b.id && a.senderGone == b.senderGone }

  /** A drain that takes a chunk or notices that the reader has gone. */
  lemma DrainWeighsLess(r: Run, limit: nat)
    requires MayDrain(r.job, limit) && (r.job.senderGone || r.job.chunks != [])
    ensures Weight(RunDrain(r, limit).job) < Weight(r.job) && SameClient(r.job, RunDrain(r, limit).job)
  {
    AcceptAllEffect(r.job, r.job.chunks);
    hide AcceptAll;
    assert SamplesOf([]) == [];
  }

  /** Any other drain changes nothing. */
  lemma DrainIsIdle(r: Run, limit: nat)
    requires MayDrain(r.job, limit) ==> !r.job.senderGone && r.job.chunks == []
    ensures RunDrain(r, limit) == r
  {
    if MayDrain(r.job, limit) {
      AcceptAllOfNothing(r.job);
      assert SamplesOf([]) == [] && BrokenIn([]) == 0;
      assert r.hist.received + [] == r.hist.received;
    }
  }

  lemma RefreshWeighsLess(r: Run)
    requires Clears(r.job)
    ensures Weight(RunRefresh(r).job) < Weight(r.job)
  {
  }

  lemma VadSentWeighsLess(r: Run)
    requires HasVadReady(r.job)
    ensures Weight(RunVadSent(r).job) < Weight(r.job)
  {
  }

  lemma VadDoneWeighsLess(r: Run, v: VadResult)
    requires r.job.vad.Some? && r.job.vadInFlight
    requires v.startSample == r.job.vadProcessed < |r.job.buffer|
    ensures Weight(RunVadDone(r, v).job) < Weight(r.job) && SameClient(r.job, RunVadDone(r, v).job)
  {
  }

  lemma CutWeighsLess(r: Run, p: Plan)
    requires Fits(r.job, p) && 0 < p.end
    ensures Weight(RunCut(r, p).job) < Weight(r.job)
  {
  }

  lemma ResultWeighsLess(r: Run, k: nat, segments: seq<Segment>)
    requires r.job.inFlight > 0
    ensures Weight(RunResult(r, k, segments).job) < Weight(r.job) && SameClient(r.job, RunResult(r, k, segments).job)
  {
  }

  function TotalWeight(rs: seq<Run>): nat {
    if rs == [] then 0 else TotalWeight(rs[..|rs| - 1]) + 6 * Weight(rs[|rs| - 1].job) + 1
  }

  /** Bounds how many more steps the whole system can take. */
  function Potential(s: System): nat {
    TotalWeight(s.active) + P.WorkersCost(s.pool.workers) + |s.pool.results|
  }

  lemma {:induction false} TotalWeightUpdate(rs: seq<Run>, i: nat, r: Run)
    requires i < |rs|
    ensures TotalWeight(rs[i := r]) == TotalWeight(rs) - 6 * Weight(rs[i].job) + 6 * Weight(r.job)
  {
    hide Weight;
    var n := |rs| - 1;
    if i < n {
      TotalWeightUpdate(rs[..n], i, r);
      assert rs[i := r][..n] == rs[..n][i := r];
    } else {
      assert rs[i := r][..n] == rs[..n];
    }
  }

  /** No job got heavier and one got lighter. */
  lemma {:induction false} TotalWeightFalls(rs: seq<Run>, rs': seq<Run>)
    requires |rs| == |rs'|
    requires forall i :: 0 <= i < |rs| ==> rs'[i] == rs[i] || Weight(rs'[i].job) < Weight(rs[i].job)
    ensures TotalWeight(rs') <= TotalWeight(rs)
    ensures rs' != rs ==> TotalWeight(rs') < TotalWeight(rs)
  {
    hide Weight;
    if rs != [] {
      var n := |rs| - 1;
      TotalWeightFalls(rs[..n], rs'[..n]);
      assert rs == rs[..n] + [rs[n]] && rs' == rs'[..n] + [rs'[n]];
    }
  }

  lemma TotalWeightAppends(rs: seq<Run>, r: Run)
    ensures TotalWeight(rs + [r]) == TotalWeight(rs) + 6 * Weight(r.job) + 1
  {
    assert (rs + [r])[..|rs|] == rs;
  }

  lemma {:induction false} RemainingWeighsLess(rs: seq<Run>)
    ensures TotalWeight(Remaining(rs)) <= TotalWeight(rs)
    ensures Remaining(rs) != rs ==> TotalWeight(Remaining(rs)) < TotalWeight(rs)
  {
    if rs != [] {
      var n := |rs| - 1;
      var prefix, last := rs[..n], rs[n];
      RemainingWeighsLess(prefix);
      assert rs == prefix + [last];
      TotalWeightAppends(prefix, last);
      TotalWeightAppends(Remaining(prefix), last);
      assert Remaining(prefix) + [] == Remaining(prefix);
      hide Weight, IsComplete, TotalWeight;
    }
  }

  // ------------------------------------------------------------- every step

  /** A step of the scheduler or of a worker, not of a client. */
  predicate IsInternal(step: Step) { !step.Feed? && !step.HangUp? && !step.Admit? }

  lemma DrainAllFalls(lim: Limits, s: System)
    ensures TotalWeight(DrainAll(s.active, lim.inFlight)) <= TotalWeight(s.active)
    ensures DrainAll(s.active, lim.inFlight) != s.active ==>
              TotalWeight(DrainAll(s.active, lim.inFlight)) < TotalWeight(s.active)
  {
    var rs := DrainAll(s.active, lim.inFlight);
    forall i | 0 <= i < |s.active| ensures rs[i] == s.active[i] || Weight(rs[i].job) < Weight(s.active[i].job) {
      var r := s.active[i];
      if MayDrain(r.job, lim.inFlight) && (r.job.senderGone || r.job.chunks != []) {
        DrainWeighsLess(r, lim.inFlight);
      } else {
        DrainIsIdle(r, lim.inFlight);
      }
    }
    hide Weight, RunDrain;
    TotalWeightFalls(s.active, rs);
  }

  lemma RefreshAllFalls(s: System)
    ensures TotalWeight(RefreshAll(s.active)) <= TotalWeight(s.active)
    ensures RefreshAll(s.active) != s.active ==> TotalWeight(RefreshAll(s.active)) < TotalWeight(s.active)
  {
    var rs := RefreshAll(s.active);
    forall i | 0 <= i < |s.active| ensures rs[i] == s.active[i] || Weight(rs[i].job) < Weight(s.active[i].job) {
      if Clears(s.active[i].job) {
        RefreshWeighsLess(s.active[i]);
      }
    }
    hide Weight, RunRefresh;
    TotalWeightFalls(s.active, rs);
  }

  lemma WorkerMoveFalls(net: Net, s: System, w: nat, move: P.Move<NpuResult>)
    requires P.TokensOk(s.pool) && P.CanMove(s.pool, w, move, (j, res) => Answers(net, j, res))
    ensures Potential(s.(pool := P.Moved(s.pool, w, move))) < Potential(s)
  {
    hide TotalWeight;
    P.WorkersCostUpdate(s.pool.workers, w, P.Moved(s.pool, w, move).workers[w]);
  }

  lemma DispatchFalls(net: Net, lim: Limits, s: System)
    requires SystemOk(net, lim, s) && s.pool.ready != [] && HasDispatchable(Jobs(s.active), lim.inFlight)
    ensures s.active != [] && s.pool.ready[0] < |s.pool.workers|
    ensures Potential(Dispatch(s, lim.inFlight)) < Potential(s)
  {
    hide RunOk, TicketsOk, PoolFits, Delivered, AbortedOk, NextPlan, HasVadReady, RunCut, RunVadSent, Work, Select;
    hide TotalWeight, P.WorkersCost, Weight;
    var jobs := Jobs(s.active);
    SelectAgreesWithGuard(jobs, s.cursor, lim.inFlight);
    var c := Select(jobs, s.cursor, lim.inFlight);
    var i := c.selected.value;
    var r := s.active[i];
    assert jobs[i] == r.job && ActiveOk(net, lim.inFlight, r, s.pool);
    DispatchWeighsLess(net, lim.inFlight, r, c.isVad);
    P.SendKeepsTokens(s.pool, WhisperWork(WhisperJob(0, 0, 0, 0, 0, [], NO_OPTIONS)));
    var job := if c.isVad then VadWork(NextVadJob(r.job)) else WhisperWork(WindowJob(r.job, NextPlan(r.job).value));
    var r' := if c.isVad then RunVadSent(r) else RunCut(r, NextPlan(r.job).value);
    P.WorkersCostUpdate(s.pool.workers, s.pool.ready[0], P.Queued(job));
    TotalWeightUpdate(s.active, i, r');
  }

  lemma DispatchWeighsLess(net: Net, limit: nat, r: Run, isVad: bool)
    requires RunOk(net, r, limit)
    requires if isVad then HasVadReady(r.job) else MayDispatch(r.job, limit)
    ensures isVad ==> Weight(RunVadSent(r).job) < Weight(r.job) && RunVadSent(r).job.senderGone == r.job.senderGone
    ensures !isVad ==>
      && Fits(r.job, NextPlan(r.job).value)
      && Weight(RunCut(r, NextPlan(r.job).value).job) < Weight(r.job)
      && RunCut(r, NextPlan(r.job).value).job.senderGone == r.job.senderGone
  {
    if isVad {
      VadSentWeighsLess(r);
    } else {
      assert ModeOk(net, r);
      RunIsSound(net, r);
      SoundPlanShape(r.job);
      CutWeighsLess(r, NextPlan(r.job).value);
    }
  }

  lemma VadOwnerWeighsLess(net: Net, limit: nat, r: Run, p: LivePool, v: VadResult)
    requires ActiveOk(net, limit, r, p) && p.results != [] && p.results[0] == VadDone(v) && v.jobId == r.job.id
    ensures Weight(RunVadDone(r, v).job) < Weight(r.job) && SameClient(r.job, RunVadDone(r, v).job)
  {
    VadResultFits(net, limit, r, p, v);
    hide ActiveOk, Weight, RunVadDone;
    VadDoneWeighsLess(r, v);
  }

  /** The result is for the VAD window in flight, which starts at the scoring position. */
  lemma VadResultFits(net: Net, limit: nat, r: Run, p: LivePool, v: VadResult)
    requires ActiveOk(net, limit, r, p) && p.results != [] && p.results[0] == VadDone(v) && v.jobId == r.job.id
    ensures r.job.vad.Some? && r.job.vadInFlight && v.startSample == r.job.vadProcessed < |r.job.buffer|
  {
    hide FedOk, Conserved, WindowsOk, CountersOk, OutputOk, FinalsOk;
    ResultIsOutstanding(p, 0);
    hide Work;
    assert ResultFits(net, r, p.results[0]);
    assert Work(p)[VadTicket(r.job.id, v.index)] > 0;
  }

  lemma WhisperOwnerWeighsLess(net: Net, limit: nat, r: Run, p: LivePool, k: nat, segments: seq<Segment>)
    requires ActiveOk(net, limit, r, p) && p.results != [] && p.results[0] == WhisperDone(r.job.id, k, segments)
    ensures Weight(RunResult(r, k, segments).job) < Weight(r.job) && SameClient(r.job, RunResult(r, k, segments).job)
  {
    ResultIsOutstanding(p, 0);
    hide Work, Weight, RunResult, FedOk, Conserved, WindowsOk, CountersOk, OutputOk, FinalsOk, ModeOk;
    assert Work(p)[WhisperTicket(r.job.id, k)] > 0;
    AwaitedMeansInFlight(net, r, limit, k);
    ResultWeighsLess(r, k, segments);
  }

  lemma OwnerWeighsLess(net: Net, limit: nat, r: Run, p: LivePool)
    requires ActiveOk(net, limit, r, p) && p.results != []
    requires P.TokensOk(p) && ResultTicket(p.results[0]).jobId == r.job.id
    ensures match p.results[0]
            case VadDone(v) =>
              Weight(RunVadDone(r, v).job) < Weight(r.job) && SameClient(r.job, RunVadDone(r, v).job)
            case WhisperDone(_, k, segments) =>
              Weight(RunResult(r, k, segments).job) < Weight(r.job) && SameClient(r.job, RunResult(r, k, segments).job)
            case Failed(_) => true
  {
    hide ActiveOk, Weight, RunVadDone, RunResult, P.TokensOk;
    match p.results[0] {
      case VadDone(v) => VadOwnerWeighsLess(net, limit, r, p, v);
      case WhisperDone(_, k, segments) => WhisperOwnerWeighsLess(net, limit, r, p, k, segments);
      case Failed(_) =>
    }
  }

  lemma DeliverFalls(net: Net, lim: Limits, s: System)
    requires SystemOk(net, lim, s) && s.pool.results != []
    ensures Potential(Deliver(s)) < Potential(s)
  {
    hide RunOk, TicketsOk, PoolFits, Delivered, AbortedOk, RunVadDone, RunResult, AbortAll, Work, Weight, TotalWeight, P.WorkersCost;
    FindIsIndex(s.active, ResultTicket(s.pool.results[0]).jobId);
    var found := Find(s.active, ResultTicket(s.pool.results[0]).jobId);
    NoJobsNoWeight();
    if !s.pool.results[0].Failed? && found.Some? {
      var i := found.value;
      assert ActiveOk(net, lim.inFlight, s.active[i], s.pool);
      OwnerWeighsLess(net, lim.inFlight, s.active[i], s.pool);
      TotalWeightUpdate(s.active, i, Deliver(s).active[i]);
    }
  }

  lemma NoJobsNoWeight()
    ensures TotalWeight([]) == 0
  {
  }

  /** Every step of the scheduler or a worker that changes anything lowers the potential, whatever clients are connected. */
  lemma StepFalls(net: Net, lim: Limits, s: System, step: Step)
    requires SystemOk(net, lim, s) && Enabled(net, lim, s, step) && IsInternal(step)
    ensures After(net, lim, s, step) != s ==> Potential(After(net, lim, s, step)) < Potential(s)
  {
    hide RunOk, TicketsOk, PoolFits, Delivered, AbortedOk, DrainAll, RefreshAll, Remaining, Completed, Dispatch, Deliver;
    hide TotalWeight, P.WorkersCost, Work;
    match step {
      case DrainChunks => DrainAllFalls(lim, s);
      case Refresh => RefreshAllFalls(s);
      case RemoveCompleted => RemoveChanges(s); RemainingWeighsLess(s.active);
      case TakeReady => DispatchFalls(net, lim, s);
      case TakeResult => DeliverFalls(net, lim, s);
      case WorkerMoves(w, move) => WorkerMoveFalls(net, s, w, move);
      case _ =>
    }
  }

  lemma {:induction false} CompletedOrRemaining(rs: seq<Run>)
    ensures |Remaining(rs)| + |Completed(rs)| == |rs|
  {
    if rs != [] {
      CompletedOrRemaining(rs[..|rs| - 1]);
    }
  }

  lemma RemoveChanges(s: System)
    ensures Remaining(s.active) == s.active ==> s.finished + Completed(s.active) == s.finished
  {
    CompletedOrRemaining(s.active);
  }

  // ------------------------------------------------------------- no deadlock

  /** While anything is in flight, the next window to emit is awaited. */
  lemma NextIsAwaited(net: Net, r: Run, limit: nat)
    requires CountersOk(net, r, limit) && r.job.inFlight > 0
    ensures Awaited(r.job, r.job.nextResult)
  {
  }

  /** Any answer lets a running worker complete. */
  function SomeAnswer(net: Net, j: NpuJob): NpuResult {
    match j
    case VadWork(v) => VadDone(VadAnswer(net, v))
    case WhisperWork(w) => WhisperDone(w.jobId, w.index, Transcribe(net, w))
  }

  /** The scheduler or a worker can take the step, and it changes something. */
  ghost predicate Moves(net: Net, lim: Limits, s: System, step: Step) {
    && Enabled(net, lim, s, step) && IsInternal(step)
    && (P.TokensOk(s.pool) ==> After(net, lim, s, step) != s)
  }

  /** A worker that is not waiting for a job can move, unless it must report into a full channel. */
  lemma WorkerCanMove(net: Net, lim: Limits, s: System, w: nat) returns (step: Step)
    requires P.TokensOk(s.pool) && w < P.NPU_WORKERS && !s.pool.workers[w].Waiting?
    requires s.pool.workers[w].Reporting? ==> |s.pool.results| < P.NPU_WORKERS
    ensures Moves(net, lim, s, step)
  {
    var move: P.Move<NpuResult>;
    match s.pool.workers[w] {
      case Announcing => move := P.Announce; P.AnnounceNeverBlocks(s.pool, w);
      case Queued(_) => move := P.Pick;
      case Running(j) => move := P.Complete(SomeAnswer(net, j));
      case Reporting(_) => move := P.Report;
    }
    step := WorkerMoves(w, move);
    assert P.Moved(s.pool, w, move).workers[w] != s.pool.workers[w];
  }

  /** A closed job with nothing in flight and something buffered can be dispatched, if its buffer is not dropped. */
  lemma IdleJobHasWork(j: Job, limit: pos)
    requires j.closed && j.inFlight == 0 && !j.vadInFlight && j.buffer != [] && !Clears(j)
    ensures HasVadReady(j) || MayDispatch(j, limit)
  {
  }

  lemma ResultCanBeTaken(net: Net, lim: Limits, s: System)
    requires P.TokensOk(s.pool) && s.pool.results != [] && AwaitsResults(s.active)
    ensures Moves(net, lim, s, TakeResult)
  {
    assert |Deliver(s).pool.results| < |s.pool.results|;
  }

  /** A job with work outstanding: its result can be taken, or a worker holding work can move. */
  lemma OutstandingMoves(net: Net, lim: Limits, s: System, i: nat, t: Ticket) returns (step: Step)
    requires SystemOk(net, lim, s) && i < |s.active| && t in Work(s.pool)
    requires s.active[i].job.inFlight > 0 || s.active[i].job.vadInFlight
    ensures Moves(net, lim, s, step)
  {
    hide RunOk, TicketsOk, PoolFits, Delivered, AbortedOk, Moves;
    if s.pool.results != [] {
      ResultCanBeTaken(net, lim, s);
      step := TakeResult;
    } else {
      P.WorkIsSomewhere(JobTicket, ResultTicket, s.pool, t);
      var w :| P.HeldBy(JobTicket, ResultTicket, s.pool, t, w);
      step := WorkerCanMove(net, lim, s, w);
    }
  }

  lemma TokensAreOk(net: Net, lim: Limits, s: System)
    requires SystemOk(net, lim, s)
    ensures P.TokensOk(s.pool)
  {
    hide RunOk, TicketsOk, PoolFits, Delivered, AbortedOk, IdsOk, RoomOk;
  }

  lemma TokenCanBeTaken(net: Net, lim: Limits, s: System)
    requires SystemOk(net, lim, s) && HasDispatchable(Jobs(s.active), lim.inFlight) && s.pool.ready != []
    ensures Moves(net, lim, s, TakeReady)
  {
    hide SystemOk, Dispatch, HasDispatchable, DrainAll, RefreshAll, Deliver, Jobs, Work, P.Moved, Remaining, Completed;
    DispatchOk(net, lim, s);
    TokensAreOk(net, lim, s);
    assert |Dispatch(s, lim.inFlight).pool.ready| < |s.pool.ready|;
  }

  /** With dispatchable work: a token can be taken, or a worker can move towards one. */
  lemma DispatchableMoves(net: Net, lim: Limits, s: System) returns (step: Step)
    requires SystemOk(net, lim, s) && HasDispatchable(Jobs(s.active), lim.inFlight)
    ensures Moves(net, lim, s, step)
  {
    hide RunOk, TicketsOk, PoolFits, Delivered, AbortedOk, HasDispatchable, Moves, IdsOk;
    if s.pool.ready != [] {
      TokenCanBeTaken(net, lim, s);
      step := TakeReady;
    } else if s.pool.results != [] && AwaitsResults(s.active) {
      ResultCanBeTaken(net, lim, s);
      step := TakeResult;
    } else if |s.pool.results| < P.NPU_WORKERS {
      assert !s.pool.workers[0].Waiting?;
      step := WorkerCanMove(net, lim, s, 0);
    } else {
      // the result channel is full of leftovers, so not every worker can be stuck reporting
      var w := SomeoneNotReporting(s);
      step := WorkerCanMove(net, lim, s, w);
    }
  }

  lemma SomeoneNotReporting(s: System) returns (w: nat)
    requires P.TokensOk(s.pool) && |Work(s.pool)| < 2 * P.NPU_WORKERS
    requires s.pool.ready == [] && |s.pool.results| == P.NPU_WORKERS
    ensures w < P.NPU_WORKERS && !s.pool.workers[w].Reporting? && !s.pool.workers[w].Waiting?
  {
    P.ResultWorkSize(ResultTicket, s.pool.results);
    assert exists v: nat :: v < P.NPU_WORKERS && !s.pool.workers[v].Reporting? by {
      if forall v :: 0 <= v < P.NPU_WORKERS ==> s.pool.workers[v].Reporting? {
        P.BusyWorkersHoldWork(JobTicket, ResultTicket, s.pool.workers);
      }
    }
    w :| w < P.NPU_WORKERS && !s.pool.workers[w].Reporting?;
  }

  lemma VadInFlightIsOutstanding(net: Net, limit: nat, r: Run, p: LivePool)
    requires ActiveOk(net, limit, r, p) && r.job.vadInFlight
    ensures r.job.nextVad > 0 && VadTicket(r.job.id, r.job.nextVad - 1) in Work(p)
  {
    assert ModeOk(net, r);
    assert r.job.nextVad > 0;
    assert Work(p)[VadTicket(r.job.id, r.job.nextVad - 1)] == 1;
  }

  /** The pool holds a piece of work of job i. */
  ghost predicate HasOutstanding(s: System, i: nat)
    requires i < |s.active|
  {
    exists t :: t in Work(s.pool) && t.jobId == s.active[i].job.id
  }

  /** The scheduler's own passes over the jobs change job i. */
  predicate PassChanges(j: Job, limit: nat) { MayDrain(j, limit) || Clears(j) || IsComplete(j) }

  /** No more audio will be taken from the client: its reader has gone, or it sent an error. */
  predicate ClientDone(j: Job) { j.senderGone || j.closed }

  /**
   However many other clients stream, a job whose own client is done has
   something to be drained, dropped or finished, or a piece of work in the pool,
   or VAD work or a window to send.
   */
  lemma JobHasWork(net: Net, lim: Limits, s: System, i: nat)
    requires SystemOk(net, lim, s) && i < |s.active| && ClientDone(s.active[i].job)
    ensures var j := s.active[i].job;
            || PassChanges(j, lim.inFlight)
            || ((j.inFlight > 0 || j.vadInFlight) && HasOutstanding(s, i))
            || HasVadReady(j) || MayDispatch(j, lim.inFlight)
  {
    var r := s.active[i];
    assert ActiveOk(net, lim.inFlight, r, s.pool);
    if r.job.inFlight > 0 {
      NextIsAwaited(net, r, lim.inFlight);
      assert Work(s.pool)[WhisperTicket(r.job.id, r.job.nextResult)] == 1;
    } else if r.job.vadInFlight {
      VadInFlightIsOutstanding(net, lim.inFlight, r, s.pool);
    } else if !PassChanges(r.job, lim.inFlight) {
      hide ActiveOk, SystemOk, HasVadReady, MayDispatch;
      IdleJobHasWork(r.job, lim.inFlight);
    }
  }

  /**
   No deadlock: while a job whose client is done is active, the scheduler or a
   worker can take a step that changes something, without any client's help.
   */
  lemma JobIsNeverStuck(net: Net, lim: Limits, s: System, i: nat) returns (step: Step)
    requires SystemOk(net, lim, s) && i < |s.active| && ClientDone(s.active[i].job)
    ensures Moves(net, lim, s, step)
  {
    hide SystemOk, Moves, HasVadReady, MayDispatch, Work, PassChanges;
    JobHasWork(net, lim, s, i);
    TokensAreOk(net, lim, s);
    var j := s.active[i].job;
    if PassChanges(j, lim.inFlight) {
      step := PassMoves(net, lim, s, i);
    } else if (j.inFlight > 0 || j.vadInFlight) && HasOutstanding(s, i) {
      var t :| t in Work(s.pool) && t.jobId == j.id;
      step := OutstandingMoves(net, lim, s, i, t);
    } else {
      assert Jobs(s.active)[i] == j;
      step := DispatchableMoves(net, lim, s);
    }
  }

  lemma PassMoves(net: Net, lim: Limits, s: System, i: nat) returns (step: Step)
    requires P.TokensOk(s.pool) && i < |s.active| && ClientDone(s.active[i].job)
    requires PassChanges(s.active[i].job, lim.inFlight)
    ensures Moves(net, lim, s, step)
  {
    var r := s.active[i];
    if MayDrain(r.job, lim.inFlight) {
      step := DrainChunks;
      assert RunDrain(r, lim.inFlight).job.closed by {
        AcceptAllEffect(r.job, r.job.chunks);
      }
      assert DrainAll(s.active, lim.inFlight)[i] != s.active[i];
    } else if Clears(r.job) {
      step := Refresh;
      assert RefreshAll(s.active)[i] != s.active[i];
    } else {
      step := RemoveCompleted;
      SomeIsRemoved(s.active, i);
    }
  }

  lemma {:induction false} SomeIsRemoved(rs: seq<Run>, i: nat)
    requires i < |rs| && IsComplete(rs[i].job)
    ensures |Remaining(rs)| < |rs|
  {
    hide IsComplete;
    var n := |rs| - 1;
    RemainingIsNotLonger(rs[..n]);
    if i < n {
      SomeIsRemoved(rs[..n], i);
    }
  }

  lemma RemainingIsNotLonger(rs: seq<Run>)
    ensures |Remaining(rs)| <= |rs|
  {
    CompletedOrRemaining(rs);
  }

  // ---------------------------------------------------- what happens to a job

  /** The active job with the given id. */
  function JobWith(s: System, id: nat): Option<Run> {
    FindIsIndex(s.active, id);
    var found := Find(s.active, id);
    if found.Some? then Some(s.active[found.value]) else None
  }

  lemma JobWithItsId(s: System, i: nat)
    requires IdsOk(s) && i < |s.active|
    ensures JobWith(s, s.active[i].job.id) == Some(s.active[i])
  {
    FindIsIndex(s.active, s.active[i].job.id);
  }

  /** The job is as it was, or has come closer to its end. */
  ghost predicate Lighter(r: Run, r': Run) {
    || r' == r
    || (SameClient(r.job, r'.job) && Weight(r'.job) < Weight(r.job))
  }

  /** Where a step leaves the job: active still, or ended. */
  ghost predicate GoesOn(r: Run, after: Option<Run>, s': System) {
    match after
    case Some(r') => Lighter(r, r')
    case None => (IsComplete(r.job) && RunFinish(r) in s'.finished) || Abort(r) in s'.aborted
  }

  lemma DrainOnJob(r: Run, limit: nat)
    requires r.job.senderGone
    ensures Lighter(r, RunDrain(r, limit))
  {
    if MayDrain(r.job, limit) {
      DrainWeighsLess(r, limit);
    }
  }

  lemma RefreshOnJob(r: Run)
    requires r.job.senderGone
    ensures Lighter(r, RunRefresh(r))
  {
    if Clears(r.job) {
      RefreshWeighsLess(r);
    }
  }

  /** A dispatch changes the chosen job only, which then weighs less. */
  lemma DispatchOnJobs(net: Net, lim: Limits, s: System, i: nat)
    requires SystemOk(net, lim, s) && s.pool.ready != [] && HasDispatchable(Jobs(s.active), lim.inFlight)
    requires i < |s.active|
    ensures s.pool.ready[0] < |s.pool.workers|
    ensures var s' := Dispatch(s, lim.inFlight);
            && |s'.active| == |s.active| && s'.active[i].job.id == s.active[i].job.id
            && (s.active[i].job.senderGone ==> Lighter(s.active[i], s'.active[i]))
  {
    hide RunOk, TicketsOk, PoolFits, Delivered, AbortedOk, NextPlan, HasVadReady, Work, Select, Weight, Rebase, MayDispatch;
    var jobs := Jobs(s.active);
    SelectAgreesWithGuard(jobs, s.cursor, lim.inFlight);
    var c := Select(jobs, s.cursor, lim.inFlight);
    var r := s.active[c.selected.value];
    assert jobs[c.selected.value] == r.job && ActiveOk(net, lim.inFlight, r, s.pool);
    DispatchWeighsLess(net, lim.inFlight, r, c.isVad);
  }

  /** A result changes its owner only, which then weighs less; a worker error ends every job. */
  lemma DeliverOnJobs(net: Net, lim: Limits, s: System, i: nat)
    requires SystemOk(net, lim, s) && s.pool.results != [] && i < |s.active|
    ensures var s' := Deliver(s);
            if s.pool.results[0].Failed? then s'.active == [] && Abort(s.active[i]) in s'.aborted
            else
              && |s'.active| == |s.active| && s'.active[i].job.id == s.active[i].job.id
              && (s.active[i].job.senderGone ==> Lighter(s.active[i], s'.active[i]))
  {
    hide RunOk, TicketsOk, PoolFits, Delivered, AbortedOk, Work, Weight, Release;
    FindIsIndex(s.active, ResultTicket(s.pool.results[0]).jobId);
    if s.pool.results[0].Failed? {
      assert Deliver(s).aborted[|s.aborted| + i] == Abort(s.active[i]);
    } else if ResultTicket(s.pool.results[0]).jobId == s.active[i].job.id {
      assert ActiveOk(net, lim.inFlight, s.active[i], s.pool);
      OwnerWeighsLess(net, lim.inFlight, s.active[i], s.pool);
    }
  }

  lemma {:induction false} CompletedHas(rs: seq<Run>, i: nat)
    requires i < |rs| && IsComplete(rs[i].job)
    ensures RunFinish(rs[i]) in Completed(rs)
  {
    hide IsComplete;
    var n := |rs| - 1;
    if i < n {
      CompletedHas(rs[..n], i);
    }
  }

  /** Where the job with index i is after a step, if it is still active. */
  lemma JobAfterStep(net: Net, lim: Limits, s: System, step: Step, i: nat) returns (m: Option<nat>)
    requires SystemOk(net, lim, s) && Enabled(net, lim, s, step)
    requires i < |s.active| && s.active[i].job.senderGone
    ensures var s' := After(net, lim, s, step);
            if m.Some? then
              m.value < |s'.active| && s'.active[m.value].job.id == s.active[i].job.id
              && Lighter(s.active[i], s'.active[m.value])
            else
              (forall k :: 0 <= k < |s'.active| ==> s'.active[k].job.id != s.active[i].job.id) && GoesOn(s.active[i], None, s')
  {
    hide RunOk, TicketsOk, PoolFits, Delivered, AbortedOk, Dispatch, Deliver, Work, P.TokensOk, Weight, RoomOk;
    hide RunDrain, RunRefresh, Remaining, Completed, Abort, HasDispatchable, AwaitsResults;
    m := Some(i);
    match step {
      case DrainChunks => DrainOnJob(s.active[i], lim.inFlight);
      case Refresh => RefreshOnJob(s.active[i]);
      case RemoveCompleted =>
        hide IsComplete;
        if IsComplete(s.active[i].job) {
          m := None;
          CompletedHas(s.active, i);
          GoneFromRemaining(s, i);
        } else {
          var k := IncompleteStays(s.active, i);
          m := Some(k);
        }
      case TakeReady => DispatchOnJobs(net, lim, s, i);
      case TakeResult =>
        DeliverOnJobs(net, lim, s, i);
        if s.pool.results[0].Failed? {
          m := None;
        }
      case _ =>
    }
  }

  /** No job that remains has a completed job's id. */
  lemma GoneFromRemaining(s: System, i: nat)
    requires IdsOk(s) && i < |s.active| && IsComplete(s.active[i].job)
    ensures forall k :: 0 <= k < |Remaining(s.active)| ==> Remaining(s.active)[k].job.id != s.active[i].job.id
  {
    hide IsComplete;
    RemainingAreIncomplete(s.active);
    var from := RemainingIsSubsequence(s.active);
    forall k | 0 <= k < |Remaining(s.active)| ensures Remaining(s.active)[k].job.id != s.active[i].job.id {
      assert Remaining(s.active)[k] == s.active[from[k]];
      assert from[k] != i;
    }
  }

  lemma {:induction false} RemainingAreIncomplete(rs: seq<Run>)
    ensures forall k :: 0 <= k < |Remaining(rs)| ==> !IsComplete(Remaining(rs)[k].job)
  {
    hide IsComplete;
    if rs != [] {
      RemainingAreIncomplete(rs[..|rs| - 1]);
    }
  }

  /**
   Every step of anybody leaves a job whose reader has gone as it is, or brings
   it closer to its end, or finishes it when it is complete, or aborts it.
   */
  lemma StepOnJob(net: Net, lim: Limits, s: System, step: Step, id: nat)
    requires SystemOk(net, lim, s) && Enabled(net, lim, s, step)
    requires JobWith(s, id).Some? && JobWith(s, id).value.job.senderGone
    ensures GoesOn(JobWith(s, id).value, JobWith(After(net, lim, s, step), id), After(net, lim, s, step))
  {
    hide SystemOk, IdsOk, Enabled, After, Weight, Abort, RunFinish;
    FindIsIndex(s.active, id);
    var i := Find(s.active, id).value;
    var m := JobAfterStep(net, lim, s, step, i);
    StepKeepsIds(net, lim, s, step);
    var s' := After(net, lim, s, step);
    if m.Some? {
      JobWithItsId(s', m.value);
    } else {
      FindIsIndex(s'.active, id);
    }
  }

  lemma StepKeepsIds(net: Net, lim: Limits, s: System, step: Step)
    requires SystemOk(net, lim, s) && Enabled(net, lim, s, step)
    ensures P.TokensOk(s.pool) && IdsOk(After(net, lim, s, step))
  {
    TokensAreOk(net, lim, s);
    StepKeepsSystemOk(net, lim, s, step);
    hide Enabled, After, RunOk, TicketsOk, PoolFits, Delivered, AbortedOk, RoomOk, P.TokensOk;
  }

  lemma IdsOnlyGrow(net: Net, lim: Limits, s: System, step: Step)
    requires SystemOk(net, lim, s) && Enabled(net, lim, s, step)
    ensures P.TokensOk(s.pool) && s.nextId <= After(net, lim, s, step).nextId
  {
    hide RunOk, TicketsOk, PoolFits, Delivered, AbortedOk, IdsOk, RoomOk, P.TokensOk, Work;
  }

  /** Ids are not used again: a job that has ended stays ended. */
  lemma EndedStaysEnded(net: Net, lim: Limits, s: System, step: Step, id: nat)
    requires SystemOk(net, lim, s) && Enabled(net, lim, s, step)
    requires id < s.nextId && JobWith(s, id).None?
    ensures var s' := After(net, lim, s, step); id < s'.nextId && JobWith(s', id).None?
  {
    hide RunOk, TicketsOk, PoolFits, Delivered, AbortedOk, Dispatch, Deliver, Work, P.TokensOk, RoomOk;
    hide Clears, Remaining, Completed;
    FindIsIndex(s.active, id);
    var s' := After(net, lim, s, step);
    match step {
      case TakeReady => DispatchOnJobs(net, lim, s, 0);
      case TakeResult => DeliverOnJobs(net, lim, s, 0);
      case _ =>
    }
    forall k | 0 <= k < |s'.active| ensures s'.active[k].job.id != id {
      match step {
        case DrainChunks => DrainIsQuiet(s.active[k], lim.inFlight);
        case RemoveCompleted =>
          var from := RemainingIsSubsequence(s.active);
          assert s'.active[k] == s.active[from[k]];
        case TakeReady => DispatchOnJobs(net, lim, s, k);
        case TakeResult => DeliverOnJobs(net, lim, s, k);
        case _ =>
      }
    }
    FindIsIndex(s'.active, id);
    IdsOnlyGrow(net, lim, s, step);
  }

  // --------------------------------------------------------------- theorems

  /** How many steps of a run change the job with this id, or end it. */
  function Changes(states: seq<System>, id: nat): nat {
    if |states| <= 1 then 0
    else
      var n := |states| - 1;
      Changes(states[..n], id) + if JobWith(states[n], id) == JobWith(states[n - 1], id) then 0 else 1
  }

  /** Bounds how many more steps can change the job, ending it included. */
  function StepsLeft(s: System, id: nat): nat {
    match JobWith(s, id)
    case Some(r) => Weight(r.job) + 1
    case None => 0
  }

  /** The job has not joined again, and if it is active its reader is gone. */
  ghost predicate ReaderGone(s: System, id: nat) {
    id < s.nextId && (JobWith(s, id).Some? ==> JobWith(s, id).value.job.senderGone)
  }

  lemma StepSpends(net: Net, lim: Limits, s: System, step: Step, id: nat)
    requires SystemOk(net, lim, s) && Enabled(net, lim, s, step) && ReaderGone(s, id)
    ensures var s' := After(net, lim, s, step);
            && ReaderGone(s', id)
            && StepsLeft(s', id) + (if JobWith(s', id) == JobWith(s, id) then 0 else 1) <= StepsLeft(s, id)
  {
    hide SystemOk, Enabled, JobWith, Weight, Abort, RunFinish;
    if JobWith(s, id).Some? {
      StepOnJob(net, lim, s, step, id);
      IdsOnlyGrow(net, lim, s, step);
    } else {
      EndedStaysEnded(net, lim, s, step, id);
    }
  }

  /** The job with this id was finished or aborted, and so has its final response. */
  ghost predicate Ended(s: System, id: nat) {
    exists r :: (r in s.finished || r in s.aborted) && r.job.id == id
  }

  lemma StepEnds(net: Net, lim: Limits, s: System, step: Step, id: nat)
    requires SystemOk(net, lim, s) && Enabled(net, lim, s, step) && ReaderGone(s, id)
    requires JobWith(s, id).Some? || Ended(s, id)
    ensures P.TokensOk(s.pool)
    ensures JobWith(After(net, lim, s, step), id).Some? || Ended(After(net, lim, s, step), id)
  {
    hide SystemOk, Enabled, After, Weight, Find;
    TokensAreOk(net, lim, s);
    var s' := After(net, lim, s, step);
    EndsAreKept(net, lim, s, step);
    FindIsIndex(s.active, id);
    if JobWith(s, id).Some? {
      var r := JobWith(s, id).value;
      StepOnJob(net, lim, s, step, id);
      assert RunFinish(r).job.id == id && Abort(r).job.id == id;
    }
  }

  lemma EndsAreKept(net: Net, lim: Limits, s: System, step: Step)
    requires P.TokensOk(s.pool) && Enabled(net, lim, s, step)
    ensures s.finished <= After(net, lim, s, step).finished && s.aborted <= After(net, lim, s, step).aborted
  {
    hide P.TokensOk, AbortAll, Completed, Remaining, RunVadDone, RunResult, RunVadSent, RunCut, Select;
  }

  /**
   From the moment a job's reader has gone, at most `StepsLeft` steps of the rest
   of the run change the job, however many steps the run takes and whatever the
   other clients do.  The last one finishes or aborts it.
   */
  lemma {:induction false} JobChangesBoundedly(net: Net, lim: Limits, states: seq<System>, steps: seq<Step>, m: nat, n: nat, id: nat)
    requires IsRun(net, lim, states, steps) && m <= n < |states| && ReaderGone(states[m], id)
    ensures ReaderGone(states[n], id)
    ensures Changes(states[m..n + 1], id) + StepsLeft(states[n], id) <= StepsLeft(states[m], id)
    ensures JobWith(states[m], id).Some? ==> JobWith(states[n], id).Some? || Ended(states[n], id)
  {
    hide Enabled, After, SystemOk, P.TokensOk, ReaderGone, StepsLeft, JobWith, Ended;
    if m < n {
      JobChangesBoundedly(net, lim, states, steps, m, n - 1, id);
      RunsAreOk(net, lim, states, steps, n - 1);
      StepSpends(net, lim, states[n - 1], steps[n - 1], id);
      if JobWith(states[m], id).Some? {
        StepEnds(net, lim, states[n - 1], steps[n - 1], id);
      }
      assert states[m..n + 1][..n - m] == states[m..n];
    }
  }

  // ------------------------------------------------ the scheduler on its own

  /** A stretch of a run in which only the scheduler and the workers act and every step changes something. */
  ghost predicate IsBusyStretch(net: Net, lim: Limits, states: seq<System>, steps: seq<Step>) {
    && |states| == |steps| + 1
    && forall i :: 0 <= i < |steps| ==>
         && P.TokensOk(states[i].pool) && Moves(net, lim, states[i], steps[i])
         && states[i + 1] == After(net, lim, states[i], steps[i])
  }

  /** From any reachable state they can change something at most `Potential` times. */
  lemma {:induction false} RunsTerminate(net: Net, lim: Limits, states: seq<System>, steps: seq<Step>)
    requires IsBusyStretch(net, lim, states, steps) && SystemOk(net, lim, states[0])
    ensures |steps| + Potential(states[|steps|]) <= Potential(states[0])
    ensures SystemOk(net, lim, states[|steps|])
    decreases |steps|
  {
    hide SystemOk, Potential, Enabled, After, P.TokensOk;
    if steps != [] {
      var n := |steps| - 1;
      RunsTerminate(net, lim, states[..n + 1], steps[..n]);
      StepKeepsSystemOk(net, lim, states[n], steps[n]);
      StepFalls(net, lim, states[n], steps[n]);
    }
  }

  /** When they can change nothing more, every job whose client is done has been finished or aborted. */
  lemma StuckMeansDone(net: Net, lim: Limits, s: System)
    requires SystemOk(net, lim, s)
    requires forall step :: !Moves(net, lim, s, step)
    ensures forall i :: 0 <= i < |s.active| ==> !ClientDone(s.active[i].job)
  {
    hide SystemOk, Moves;
    forall i | 0 <= i < |s.active| ensures !ClientDone(s.active[i].job) {
      if ClientDone(s.active[i].job) {
        var step := JobIsNeverStuck(net, lim, s, i);
      }
    }
  }

  /** What a client's step can add to the work left. */
  function Input(step: Step): nat {
    match step
    case Feed(_, Audio(samples)) => 30 * |samples| + 6
    case Feed(_, Broken(_)) => 6
    case Admit(_, _) => 13
    case _ => 0
  }

  function InputOf(steps: seq<Step>): nat {
    if steps == [] then 0 else InputOf(steps[..|steps| - 1]) + Input(steps[|steps| - 1])
  }

  /** How many steps of the scheduler and the workers changed something. */
  function BusySteps(states: seq<System>, steps: seq<Step>): nat
    requires |states| == |steps| + 1
  {
    if steps == [] then 0
    else
      var n := |steps| - 1;
      BusySteps(states[..n + 1], steps[..n]) + if IsInternal(steps[n]) && states[n + 1] != states[n] then 1 else 0
  }

  lemma FeedWeighs(r: Run, c: Chunk)
    ensures Weight(RunFeed(r, c).job) <= Weight(r.job) + if c.Audio? then 5 * |c.samples| + 1 else 1
  {
    assert (r.job.chunks + [c])[..|r.job.chunks|] == r.job.chunks;
  }

  lemma NewJobWeighs(id: nat, vad: Option<VadConfig>, options: Options)
    ensures Weight(NewRun(id, vad, options).job) == 2
  {
    hide FreshState;
    assert SamplesOf([]) == [];
  }

  /** A client's step adds at most its input to the work left. */
  lemma ClientAdds(net: Net, lim: Limits, s: System, step: Step)
    requires P.TokensOk(s.pool) && Enabled(net, lim, s, step) && !IsInternal(step)
    ensures Potential(After(net, lim, s, step)) <= Potential(s) + Input(step)
  {
    hide TotalWeight, P.WorkersCost, P.TokensOk;
    match step {
      case Feed(i, c) =>
        FeedWeighs(s.active[i], c);
        hide Weight;
        TotalWeightUpdate(s.active, i, RunFeed(s.active[i], c));
      case HangUp(i) => TotalWeightUpdate(s.active, i, RunHangUp(s.active[i]));
      case Admit(vad, options) =>
        NewJobWeighs(s.nextId, vad, options);
        hide Weight;
        TotalWeightAppends(s.active, NewRun(s.nextId, vad, options));
    }
  }

  lemma InitialPotential()
    ensures Potential(Initial()) == 3
  {
    NoJobsNoWeight();
    var ws := Initial().pool.workers;
    assert ws[..2][..1][..0] == [] && ws[..2] == [P.Announcing, P.Announcing] && ws[..2][..1] == [P.Announcing];
    assert P.WorkersCost<NpuJob, NpuResult>([]) == 0;
    assert P.WorkersCost(ws[..2][..1]) == 1 && P.WorkersCost(ws[..2]) == 2;
  }

  /**
   In any run the scheduler and the workers change something at most as often as
   the clients' input allows: 30 times for a sample, 6 times for a chunk, 13 times
   for a job.
   */
  lemma {:induction false} WorkIsBoundedByInput(net: Net, lim: Limits, states: seq<System>, steps: seq<Step>, n: nat)
    requires IsRun(net, lim, states, steps) && n < |states|
    ensures BusySteps(states[..n + 1], steps[..n]) + Potential(states[n]) <= InputOf(steps[..n]) + 3
  {
    hide Enabled, After, SystemOk, P.TokensOk, Potential, IsInternal;
    if n == 0 {
      InitialPotential();
    } else {
      WorkIsBoundedByInput(net, lim, states, steps, n - 1);
      RunsAreOk(net, lim, states, steps, n - 1);
      if IsInternal(steps[n - 1]) {
        StepFalls(net, lim, states[n - 1], steps[n - 1]);
      } else {
        ClientAdds(net, lim, states[n - 1], steps[n - 1]);
      }
      assert states[..n + 1][..n] == states[..n] && steps[..n][..n - 1] == steps[..n - 1];
    }
  }
}
