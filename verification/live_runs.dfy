/** Every run of the live scheduler keeps its invariant, whatever the interleaving. */
module LiveRuns {
  import opened Wrappers
  import opened Vad
  import opened LiveJob
  import opened LiveInvariant
  import opened LiveSteps
  import opened LiveSystem
  import opened Transcription
  import P = Pool
  import Reorder

  // ------------------------------------------------- one job, other work

  /** What a job's tickets depend on. */
  predicate SameTickets(a: Job, b: Job) {
    && a.id == b.id && a.nextResult == b.nextResult && a.nextWindow == b.nextWindow && a.pending == b.pending
    && a.vadInFlight == b.vadInFlight && a.nextVad == b.nextVad
  }

  lemma TicketsFollow(a: Job, b: Job, work: multiset<Ticket>)
    requires SameTickets(a, b) && TicketsOk(a, work)
    ensures TicketsOk(b, work)
  {
    forall k: nat ensures work[WhisperTicket(b.id, k)] == if Awaited(b, k) then 1 else 0 {
      assert Awaited(a, k) == Awaited(b, k);
    }
  }

  /** Work that is not the job's own does not disturb its tickets. */
  lemma OthersTickets(j: Job, work: multiset<Ticket>, work': multiset<Ticket>, t: Ticket)
    requires TicketsOk(j, work) && t.jobId != j.id
    requires work' == work + multiset{t} || work == work' + multiset{t}
    ensures TicketsOk(j, work')
  {
  }

  /** The history grows at its ends only. */
  ghost predicate Grows(r: Run, r': Run) {
    r.job.id == r'.job.id && r.hist.windows <= r'.hist.windows && r.hist.scored <= r'.hist.scored
  }

  lemma JobStaysFit(r: Run, r': Run, j: NpuJob)
    requires Grows(r, r') && JobFits(r, j)
    ensures JobFits(r', j)
  {
  }

  lemma ResultStaysFit(net: Net, r: Run, r': Run, res: NpuResult)
    requires Grows(r, r') && ResultFits(net, r, res)
    ensures ResultFits(net, r', res)
  {
  }

  lemma PoolStaysFit(net: Net, r: Run, r': Run, p: LivePool)
    requires Grows(r, r') && PoolFits(net, r, p)
    ensures PoolFits(net, r', p)
  {
    forall w | 0 <= w < |p.workers| ensures StageFits(net, r', p.workers[w]) {
      assert StageFits(net, r, p.workers[w]);
      match p.workers[w] {
        case Queued(j) => JobStaysFit(r, r', j);
        case Running(j) => JobStaysFit(r, r', j);
        case Reporting(res) => ResultStaysFit(net, r, r', res);
        case _ =>
      }
    }
    forall i | 0 <= i < |p.results| ensures ResultFits(net, r', p.results[i]) {
      ResultStaysFit(net, r, r', p.results[i]);
    }
  }

  /** A step that touches neither tickets nor the sent history. */
  lemma QuietStepOk(net: Net, limit: nat, r: Run, r': Run, p: LivePool)
    requires ActiveOk(net, limit, r, p) && RunOk(net, r', limit)
    requires SameTickets(r.job, r'.job) && Grows(r, r')
    ensures ActiveOk(net, limit, r', p)
  {
    TicketsFollow(r.job, r'.job, Work(p));
    PoolStaysFit(net, r, r', p);
  }

  // ----------------------------------------------------------- quiet steps

  lemma FeedOk(net: Net, limit: nat, r: Run, c: Chunk)
    requires RunOk(net, r, limit) && !r.job.senderGone
    ensures RunOk(net, RunFeed(r, c), limit)
  {
    FeedKeepsFed(r, c);
    UntouchedByResults(net, r, RunFeed(r, c).job);
    FedUnseen(net, r, RunFeed(r, c).job, RunFeed(r, c).hist.fed);
    hide FedOk, Conserved, WindowsOk, ModeOk;
  }

  /** No other part of the invariant looks at what was fed. */
  lemma FedUnseen(net: Net, r: Run, j': Job, fed: seq<Chunk>)
    requires Conserved(Run(j', r.hist)) && WindowsOk(Run(j', r.hist)) && ModeOk(net, Run(j', r.hist))
    ensures var r' := Run(j', r.hist.(fed := fed)); Conserved(r') && WindowsOk(r') && ModeOk(net, r')
  {
    hide SlicesOk, ChainOk, StateBefore;
  }

  lemma HangUpOk(net: Net, limit: nat, r: Run)
    requires RunOk(net, r, limit)
    ensures RunOk(net, RunHangUp(r), limit)
  {
    hide Conserved, WindowsOk, ModeOk, SamplesOf, BrokenIn, Only, Transcripts, Reorder.Faithful, EventLog, Flat, SegmentsOut;
    UntouchedByResults(net, r, RunHangUp(r).job);
  }

  lemma DrainIsQuiet(r: Run, limit: nat)
    ensures SameTickets(r.job, RunDrain(r, limit).job) && Grows(r, RunDrain(r, limit))
    ensures RunDrain(r, limit).job.inFlight == r.job.inFlight
  {
    if MayDrain(r.job, limit) {
      AcceptAllEffect(r.job, r.job.chunks);
    }
  }

  lemma SystemWithJob(net: Net, lim: Limits, s: System, i: nat, r': Run)
    requires SystemOk(net, lim, s) && i < |s.active|
    requires RunOk(net, r', lim.inFlight)
    requires SameTickets(s.active[i].job, r'.job) && Grows(s.active[i], r')
    requires s.active[i].job.inFlight == r'.job.inFlight
    ensures SystemOk(net, lim, s.(active := s.active[i := r']))
  {
    hide RunOk, TicketsOk, PoolFits, Delivered, AbortedOk;
    var s' := s.(active := s.active[i := r']);
    forall k | 0 <= k < |s'.active| ensures ActiveOk(net, lim.inFlight, s'.active[k], s'.pool) {
      if k == i {
        QuietStepOk(net, lim.inFlight, s.active[i], r', s.pool);
      } else {
        assert ActiveOk(net, lim.inFlight, s.active[k], s.pool);
      }
    }
    AwaitsFollows(s, s');
  }

  lemma AwaitsFollows(s: System, s': System)
    requires RoomOk(s) && s'.pool == s.pool && |s'.active| == |s.active|
    requires forall k :: 0 <= k < |s.active| ==>
      s.active[k].job.inFlight == s'.active[k].job.inFlight && s.active[k].job.vadInFlight == s'.active[k].job.vadInFlight
    ensures RoomOk(s')
  {
    if AwaitsResults(s.active) {
      var k :| 0 <= k < |s.active| && (s.active[k].job.inFlight > 0 || s.active[k].job.vadInFlight);
      assert s'.active[k].job.inFlight > 0 || s'.active[k].job.vadInFlight;
    }
  }

  lemma DrainAllOk(net: Net, lim: Limits, s: System)
    requires SystemOk(net, lim, s)
    ensures SystemOk(net, lim, s.(active := DrainAll(s.active, lim.inFlight)))
  {
    hide RunOk, TicketsOk, PoolFits, Delivered, AbortedOk;
    var s' := s.(active := DrainAll(s.active, lim.inFlight));
    forall k | 0 <= k < |s.active|
      ensures ActiveOk(net, lim.inFlight, s'.active[k], s'.pool) && SameTickets(s.active[k].job, s'.active[k].job)
      ensures s.active[k].job.inFlight == s'.active[k].job.inFlight
    {
      DrainIsQuiet(s.active[k], lim.inFlight);
      DrainKeepsRunOk(net, s.active[k], lim.inFlight);
      QuietStepOk(net, lim.inFlight, s.active[k], s'.active[k], s.pool);
    }
    AwaitsFollows(s, s');
  }

  lemma RefreshAllOk(net: Net, lim: Limits, s: System)
    requires SystemOk(net, lim, s)
    ensures SystemOk(net, lim, s.(active := RefreshAll(s.active)))
  {
    hide RunOk, TicketsOk, PoolFits, Delivered, AbortedOk;
    var s' := s.(active := RefreshAll(s.active));
    forall k | 0 <= k < |s.active|
      ensures ActiveOk(net, lim.inFlight, s'.active[k], s'.pool) && SameTickets(s.active[k].job, s'.active[k].job)
      ensures s.active[k].job.inFlight == s'.active[k].job.inFlight
    {
      RefreshKeepsRunOk(net, s.active[k], lim.inFlight);
      QuietStepOk(net, lim.inFlight, s.active[k], s'.active[k], s.pool);
    }
    AwaitsFollows(s, s');
  }

  // --------------------------------------------------------------- admission

  lemma NewJobHasNoWork(net: Net, limit: nat, id: nat, vad: Option<VadConfig>, options: Options, p: LivePool)
    requires forall t :: t in Work(p) ==> t.jobId != id
    requires P.TokensOk(p)
    ensures ActiveOk(net, limit, NewRun(id, vad, options), p)
  {
    var r := NewRun(id, vad, options);
    NewRunOk(net, id, vad, options, limit);
    forall w | 0 <= w < |p.workers| ensures StageFits(net, r, p.workers[w]) {
      HeldWorkIsOutstanding(p, w);
    }
    forall i | 0 <= i < |p.results| ensures ResultFits(net, r, p.results[i]) {
      ResultIsOutstanding(p, i);
    }
  }

  lemma {:induction false} StageInWorkers(ws: seq<P.Stage<NpuJob, NpuResult>>, w: nat)
    requires w < |ws|
    ensures P.StageWork(JobTicket, ResultTicket, ws[w]) <= P.WorkerWork(JobTicket, ResultTicket, ws)
  {
    if w < |ws| - 1 {
      StageInWorkers(ws[..|ws| - 1], w);
    }
  }

  lemma HeldWorkIsOutstanding(p: LivePool, w: nat)
    requires w < |p.workers|
    ensures match p.workers[w]
            case Queued(j) => JobTicket(j) in Work(p)
            case Running(j) => JobTicket(j) in Work(p)
            case Reporting(res) => ResultTicket(res) in Work(p)
            case _ => true
  {
    StageInWorkers(p.workers, w);
  }

  lemma {:induction false} ResultInResults(rs: seq<NpuResult>, i: nat)
    requires i < |rs|
    ensures ResultTicket(rs[i]) in P.ResultWork(ResultTicket, rs)
  {
    if i < |rs| - 1 {
      ResultInResults(rs[..|rs| - 1], i);
    }
  }

  lemma ResultIsOutstanding(p: LivePool, i: nat)
    requires i < |p.results|
    ensures ResultTicket(p.results[i]) in Work(p)
  {
    ResultInResults(p.results, i);
  }

  lemma AdmitOk(net: Net, lim: Limits, s: System, vad: Option<VadConfig>, options: Options, cursor: nat)
    requires SystemOk(net, lim, s)
    ensures SystemOk(net, lim,
              s.(active := s.active + [NewRun(s.nextId, vad, options)], nextId := s.nextId + 1, cursor := cursor))
  {
    hide RunOk, TicketsOk, PoolFits, Delivered, AbortedOk;
    var s' := s.(active := s.active + [NewRun(s.nextId, vad, options)], nextId := s.nextId + 1, cursor := cursor);
    NewJobHasNoWork(net, lim.inFlight, s.nextId, vad, options, s.pool);
    forall k | 0 <= k < |s'.active| ensures ActiveOk(net, lim.inFlight, s'.active[k], s'.pool) {
      if k < |s.active| {
        assert ActiveOk(net, lim.inFlight, s.active[k], s.pool);
      }
    }
    if AwaitsResults(s.active) {
      var k :| 0 <= k < |s.active| && (s.active[k].job.inFlight > 0 || s.active[k].job.vadInFlight);
      assert s'.active[k] == s.active[k];
    }
  }

  // ------------------------------------------------------------- completion

  /** rs[from[0]], rs[from[1]], ... are the jobs that stay. */
  ghost predicate Stays(rs: seq<Run>, kept: seq<Run>, from: seq<nat>) {
    && |from| == |kept|
    && (forall i :: 0 <= i < |from| ==> from[i] < |rs| && kept[i] == rs[from[i]])
    && (forall i, k :: 0 <= i < k < |from| ==> from[i] < from[k])
  }

  lemma {:induction false} RemainingIsSubsequence(rs: seq<Run>) returns (from: seq<nat>)
    ensures Stays(rs, Remaining(rs), from)
  {
    if rs == [] {
      from := [];
    } else {
      var n := |rs| - 1;
      from := RemainingIsSubsequence(rs[..n]);
      hide IsComplete;
      if !IsComplete(rs[n].job) {
        from := from + [n];
      }
    }
  }

  /** A job that is not complete stays. */
  lemma {:induction false} IncompleteStays(rs: seq<Run>, k: nat) returns (m: nat)
    requires k < |rs| && !IsComplete(rs[k].job)
    ensures m < |Remaining(rs)| && Remaining(rs)[m] == rs[k]
  {
    var n := |rs| - 1;
    hide IsComplete;
    if k < n {
      m := IncompleteStays(rs[..n], k);
    } else {
      m := |Remaining(rs[..n])|;
    }
  }

  lemma {:induction false} CompletedDelivers(net: Net, limit: nat, rs: seq<Run>)
    requires forall i :: 0 <= i < |rs| ==> RunOk(net, rs[i], limit)
    ensures forall i :: 0 <= i < |Completed(rs)| ==> Delivered(net, Completed(rs)[i])
  {
    hide RunOk, Delivered, RunFinish;
    if rs != [] {
      var n := |rs| - 1;
      CompletedDelivers(net, limit, rs[..n]);
      if IsComplete(rs[n].job) {
        FinishDelivers(net, rs[n], limit);
      }
    }
  }

  lemma RemoveCompletedOk(net: Net, lim: Limits, s: System)
    requires SystemOk(net, lim, s)
    ensures SystemOk(net, lim, s.(active := Remaining(s.active), finished := s.finished + Completed(s.active)))
  {
    hide RunOk, TicketsOk, PoolFits, Delivered, AbortedOk, Work, P.TokensOk, Remaining, Completed, IsComplete;
    var s' := s.(active := Remaining(s.active), finished := s.finished + Completed(s.active));
    var from := RemainingIsSubsequence(s.active);
    forall i | 0 <= i < |s'.active| ensures ActiveOk(net, lim.inFlight, s'.active[i], s'.pool) {
      assert ActiveOk(net, lim.inFlight, s.active[from[i]], s.pool);
    }
    forall i, k | 0 <= i < k < |s'.active| ensures s'.active[i].job.id != s'.active[k].job.id {
      assert from[i] < from[k];
    }
    forall i | 0 <= i < |s.active| ensures RunOk(net, s.active[i], lim.inFlight) {
      assert ActiveOk(net, lim.inFlight, s.active[i], s.pool);
    }
    CompletedDelivers(net, lim.inFlight, s.active);
    if AwaitsResults(s.active) {
      RemainingStillAwait(s.active);
    }
  }

  /** A job that waits for a result is not complete, so it stays. */
  lemma RemainingStillAwait(rs: seq<Run>)
    requires AwaitsResults(rs)
    ensures AwaitsResults(Remaining(rs))
  {
    var k :| 0 <= k < |rs| && (rs[k].job.inFlight > 0 || rs[k].job.vadInFlight);
    var m := IncompleteStays(rs, k);
    hide Remaining;
    assert Remaining(rs)[m].job.inFlight > 0 || Remaining(rs)[m].job.vadInFlight;
  }

  // ---------------------------------------------------------------- workers

  lemma MoveFits(net: Net, r: Run, p: LivePool, w: nat, move: P.Move<NpuResult>)
    requires PoolFits(net, r, p) && P.CanMove(p, w, move, (j, res) => Answers(net, j, res))
    ensures PoolFits(net, r, P.Moved(p, w, move))
  {
    var p' := P.Moved(p, w, move);
    assert StageFits(net, r, p.workers[w]);
    forall v | 0 <= v < |p'.workers| ensures StageFits(net, r, p'.workers[v]) {
      assert v != w ==> StageFits(net, r, p.workers[v]);
    }
    forall i | 0 <= i < |p'.results| ensures ResultFits(net, r, p'.results[i]) {
      assert i < |p.results| ==> ResultFits(net, r, p.results[i]);
    }
  }

  lemma MoveKeepsLiveWork(net: Net, p: LivePool, w: nat, move: P.Move<NpuResult>)
    requires P.TokensOk(p) && P.CanMove(p, w, move, (j, res) => Answers(net, j, res))
    ensures P.TokensOk(P.Moved(p, w, move)) && Work(P.Moved(p, w, move)) == Work(p)
  {
    P.MoveKeepsTokens(p, w, move, (j, res) => Answers(net, j, res));
    P.MoveKeepsWork(JobTicket, ResultTicket, p, w, move, (j, res) => Answers(net, j, res));
  }

  lemma WorkerMoveOk(net: Net, lim: Limits, s: System, w: nat, move: P.Move<NpuResult>)
    requires SystemOk(net, lim, s) && P.CanMove(s.pool, w, move, (j, res) => Answers(net, j, res))
    ensures SystemOk(net, lim, s.(pool := P.Moved(s.pool, w, move)))
  {
    hide RunOk, TicketsOk, PoolFits, Delivered, AbortedOk, Work, P.TokensOk, AwaitsResults;
    var s' := s.(pool := P.Moved(s.pool, w, move));
    MoveKeepsLiveWork(net, s.pool, w, move);
    forall k | 0 <= k < |s.active| ensures ActiveOk(net, lim.inFlight, s'.active[k], s'.pool) {
      assert ActiveOk(net, lim.inFlight, s.active[k], s.pool);
      MoveFits(net, s.active[k], s.pool, w, move);
    }
  }

  // --------------------------------------------------------------- dispatch

  lemma SendFits(net: Net, r: Run, p: LivePool, job: NpuJob)
    requires P.TokensOk(p) && p.ready != [] && PoolFits(net, r, p) && JobFits(r, job)
    ensures PoolFits(net, r, P.Sent(p, job))
  {
    var p' := P.Sent(p, job);
    forall v | 0 <= v < |p'.workers| ensures StageFits(net, r, p'.workers[v]) {
      assert v != p.ready[0] ==> StageFits(net, r, p.workers[v]);
    }
    forall i | 0 <= i < |p'.results| ensures ResultFits(net, r, p'.results[i]) {
      assert ResultFits(net, r, p.results[i]);
    }
  }

  /** A job sends one new piece of work: its ticket appears, and every other job is undisturbed. */
  lemma SendOk(net: Net, lim: Limits, s: System, i: nat, r': Run, job: NpuJob, cursor: nat)
    requires SystemOk(net, lim, s) && i < |s.active| && s.pool.ready != []
    requires RunOk(net, r', lim.inFlight) && Grows(s.active[i], r') && JobFits(r', job)
    requires JobTicket(job).jobId == r'.job.id
    requires TicketsOk(r'.job, Work(s.pool) + multiset{JobTicket(job)})
    requires r'.job.inFlight > 0 || r'.job.vadInFlight
    ensures s.pool.ready[0] < |s.pool.workers|
    ensures SystemOk(net, lim, s.(active := s.active[i := r'], pool := P.Sent(s.pool, job), cursor := cursor))
  {
    hide RunOk, TicketsOk, PoolFits, Delivered, AbortedOk;
    P.SendKeepsTokens(s.pool, job);
    P.SendAddsWork(JobTicket, ResultTicket, s.pool, job);
    var s' := s.(active := s.active[i := r'], pool := P.Sent(s.pool, job), cursor := cursor);
    hide Work, JobFits, Grows, JobTicket, P.TokensOk, P.Sent;
    forall k | 0 <= k < |s'.active| ensures ActiveOk(net, lim.inFlight, s'.active[k], s'.pool) {
      assert ActiveOk(net, lim.inFlight, s.active[k], s.pool);
      if k == i {
        PoolStaysFit(net, s.active[i], r', s.pool);
        SendFits(net, r', s.pool, job);
      } else {
        UndisturbedBySend(net, lim.inFlight, s.active[k], s.pool, job);
      }
    }
    assert s'.active[i] == r';
  }

  lemma UndisturbedBySend(net: Net, limit: nat, r: Run, p: LivePool, job: NpuJob)
    requires ActiveOk(net, limit, r, p) && P.TokensOk(p) && p.ready != [] && JobTicket(job).jobId != r.job.id
    ensures p.ready[0] < |p.workers| && ActiveOk(net, limit, r, P.Sent(p, job))
  {
    hide RunOk, TicketsOk, PoolFits, Work;
    P.SendKeepsTokens(p, job);
    SendAddsLiveWork(p, job);
    OthersTickets(r.job, Work(p), Work(P.Sent(p, job)), JobTicket(job));
    SendFits(net, r, p, job);
  }

  lemma SendAddsLiveWork(p: LivePool, job: NpuJob)
    requires P.TokensOk(p) && p.ready != []
    ensures Work(P.Sent(p, job)) == Work(p) + multiset{JobTicket(job)}
  {
    P.SendAddsWork(JobTicket, ResultTicket, p, job);
  }

  lemma VadSentTickets(net: Net, limit: nat, r: Run, p: LivePool)
    requires ActiveOk(net, limit, r, p) && HasVadReady(r.job)
    ensures var r' := RunVadSent(r);
            && TicketsOk(r'.job, Work(p) + multiset{JobTicket(VadWork(NextVadJob(r.job)))})
            && JobFits(r', VadWork(NextVadJob(r.job)))
  {
    var r' := RunVadSent(r);
    var t := JobTicket(VadWork(NextVadJob(r.job)));
    forall k: nat ensures (Work(p) + multiset{t})[WhisperTicket(r.job.id, k)] == if Awaited(r'.job, k) then 1 else 0 {
      assert Awaited(r'.job, k) == Awaited(r.job, k);
    }
    assert r'.hist.scored[r.job.nextVad].job == NextVadJob(r.job);
  }

  lemma CutTickets(net: Net, limit: nat, r: Run, p: LivePool, plan: Plan)
    requires ActiveOk(net, limit, r, p) && Fits(r.job, plan)
    ensures var r' := RunCut(r, plan);
            && TicketsOk(r'.job, Work(p) + multiset{JobTicket(WhisperWork(WindowJob(r.job, plan)))})
            && JobFits(r', WhisperWork(WindowJob(r.job, plan)))
  {
    var r' := RunCut(r, plan);
    var t := JobTicket(WhisperWork(WindowJob(r.job, plan)));
    forall k: nat ensures (Work(p) + multiset{t})[WhisperTicket(r.job.id, k)] == if Awaited(r'.job, k) then 1 else 0 {
      assert Awaited(r'.job, k) <==> Awaited(r.job, k) || k == r.job.nextWindow;
      assert !Awaited(r.job, r.job.nextWindow);
    }
  }

  lemma SendVadOk(net: Net, lim: Limits, s: System, i: nat, cursor: nat)
    requires SystemOk(net, lim, s) && i < |s.active| && s.pool.ready != [] && HasVadReady(s.active[i].job)
    ensures s.pool.ready[0] < |s.pool.workers|
    ensures SystemOk(net, lim, s.(active := s.active[i := RunVadSent(s.active[i])],
                                  pool := P.Sent(s.pool, VadWork(NextVadJob(s.active[i].job))), cursor := cursor))
  {
    var r := s.active[i];
    var job := VadWork(NextVadJob(r.job));
    assert ActiveOk(net, lim.inFlight, r, s.pool);
    VadSentKeepsRunOk(net, r, lim.inFlight);
    VadSentTickets(net, lim.inFlight, r, s.pool);
    hide RunOk, TicketsOk, PoolFits, Delivered, AbortedOk, SystemOk, JobFits, HasVadReady;
    SendOk(net, lim, s, i, RunVadSent(r), job, cursor);
  }

  lemma CutGrows(r: Run, plan: Plan)
    requires Fits(r.job, plan)
    ensures Grows(r, RunCut(r, plan)) && RunCut(r, plan).job.inFlight > 0
    ensures WindowJob(r.job, plan).jobId == RunCut(r, plan).job.id == r.job.id
  {
  }

  lemma SendWindowOk(net: Net, lim: Limits, s: System, i: nat, cursor: nat)
    requires SystemOk(net, lim, s) && i < |s.active| && s.pool.ready != []
    requires MayDispatch(s.active[i].job, lim.inFlight)
    ensures s.pool.ready[0] < |s.pool.workers|
    ensures var plan := NextPlan(s.active[i].job).value;
            && Fits(s.active[i].job, plan)
            && SystemOk(net, lim, s.(active := s.active[i := RunCut(s.active[i], plan)],
                                     pool := P.Sent(s.pool, WhisperWork(WindowJob(s.active[i].job, plan))), cursor := cursor))
  {
    var r := s.active[i];
    assert ActiveOk(net, lim.inFlight, r, s.pool);
    hide RunOk, TicketsOk, PoolFits, SystemOk, JobFits, NextPlan, RunCut, WindowJob, Work, Grows;
    var plan := NextPlan(r.job).value;
    CutKeepsRunOk(net, r, lim.inFlight);
    CutTickets(net, lim.inFlight, r, s.pool, plan);
    CutGrows(r, plan);
    SendOk(net, lim, s, i, RunCut(r, plan), WhisperWork(WindowJob(r.job, plan)), cursor);
  }

  /** With a token and the guard, the dispatcher sends exactly one piece of work to an idle worker. */
  lemma DispatchOk(net: Net, lim: Limits, s: System)
    requires SystemOk(net, lim, s) && s.pool.ready != [] && HasDispatchable(Jobs(s.active), lim.inFlight)
    ensures s.active != [] && s.pool.ready[0] < |s.pool.workers|
    ensures var s' := Dispatch(s, lim.inFlight);
            && SystemOk(net, lim, s')
            && s'.pool.ready == s.pool.ready[1..]
            && |Work(s'.pool)| == |Work(s.pool)| + 1
  {
    hide RunOk, TicketsOk, PoolFits, Delivered, AbortedOk, NextPlan, HasVadReady, RunCut, RunVadSent, Work, Select;
    var jobs := Jobs(s.active);
    SelectAgreesWithGuard(jobs, s.cursor, lim.inFlight);
    var c := Select(jobs, s.cursor, lim.inFlight);
    var i := c.selected.value;
    var r := s.active[i];
    assert jobs[i] == r.job;
    P.SendKeepsTokens(s.pool, WhisperWork(WhisperJob(0, 0, 0, 0, 0, [], NO_OPTIONS)));
    if c.isVad {
      SendVadOk(net, lim, s, i, c.cursor);
      SendGrowsWork(s.pool, VadWork(NextVadJob(r.job)));
    } else {
      SendWindowOk(net, lim, s, i, c.cursor);
      SendGrowsWork(s.pool, WhisperWork(WindowJob(r.job, NextPlan(r.job).value)));
    }
  }

  lemma SendGrowsWork(p: LivePool, job: NpuJob)
    requires P.TokensOk(p) && p.ready != []
    ensures |Work(P.Sent(p, job))| == |Work(p)| + 1
  {
    P.SendAddsWork(JobTicket, ResultTicket, p, job);
  }

  // --------------------------------------------------------------- delivery

  lemma ReceiveFits(net: Net, r: Run, p: LivePool)
    requires p.results != [] && PoolFits(net, r, p)
    ensures PoolFits(net, r, P.Received(p))
  {
    var p' := P.Received(p);
    forall v | 0 <= v < |p'.workers| ensures StageFits(net, r, p'.workers[v]) {
      assert StageFits(net, r, p.workers[v]);
    }
    forall i | 0 <= i < |p'.results| ensures ResultFits(net, r, p'.results[i]) {
      assert ResultFits(net, r, p.results[i + 1]);
    }
  }

  lemma ReceiveSizes(p: LivePool)
    requires P.TokensOk(p) && p.results != []
    ensures P.TokensOk(P.Received(p))
    ensures |Work(P.Received(p))| < 2 * P.NPU_WORKERS
    ensures Work(p) == Work(P.Received(p)) + multiset{ResultTicket(p.results[0])}
  {
    P.ReceiveRemovesWork(JobTicket, ResultTicket, p);
    P.WorkerWorkSize(JobTicket, ResultTicket, p.workers);
    P.ResultWorkSize(ResultTicket, p.results[1..]);
  }

  /** The job a result belongs to takes it; the others are undisturbed. */
  lemma DeliverTo(net: Net, lim: Limits, s: System, i: nat, r': Run)
    requires SystemOk(net, lim, s) && i < |s.active| && s.pool.results != []
    requires RunOk(net, r', lim.inFlight) && Grows(s.active[i], r')
    requires ResultTicket(s.pool.results[0]).jobId == r'.job.id
    requires TicketsOk(r'.job, Work(P.Received(s.pool)))
    ensures SystemOk(net, lim, s.(active := s.active[i := r'], pool := P.Received(s.pool)))
  {
    hide RunOk, TicketsOk, PoolFits, Delivered, AbortedOk;
    ReceiveSizes(s.pool);
    var s' := s.(active := s.active[i := r'], pool := P.Received(s.pool));
    forall k | 0 <= k < |s'.active| ensures ActiveOk(net, lim.inFlight, s'.active[k], s'.pool) {
      assert ActiveOk(net, lim.inFlight, s.active[k], s.pool);
      ReceiveFits(net, s.active[k], s.pool);
      if k == i {
        PoolStaysFit(net, s.active[i], r', s'.pool);
      } else {
        OthersTickets(s.active[k].job, Work(s.pool), Work(s'.pool), ResultTicket(s.pool.results[0]));
      }
    }
  }

  /** A result nobody active waits for (its job was aborted) is dropped. */
  lemma DeliverToNobody(net: Net, lim: Limits, s: System)
    requires SystemOk(net, lim, s) && s.pool.results != []
    requires forall i :: 0 <= i < |s.active| ==> s.active[i].job.id != ResultTicket(s.pool.results[0]).jobId
    ensures SystemOk(net, lim, s.(pool := P.Received(s.pool)))
  {
    hide RunOk, TicketsOk, PoolFits, Delivered, AbortedOk;
    ReceiveSizes(s.pool);
    var s' := s.(pool := P.Received(s.pool));
    forall k | 0 <= k < |s'.active| ensures ActiveOk(net, lim.inFlight, s'.active[k], s'.pool) {
      assert ActiveOk(net, lim.inFlight, s.active[k], s.pool);
      ReceiveFits(net, s.active[k], s.pool);
      OthersTickets(s.active[k].job, Work(s.pool), Work(s'.pool), ResultTicket(s.pool.results[0]));
    }
  }

  /** Taking window k's result removes its ticket and no other. */
  lemma TicketTaken(j: Job, j': Job, work: multiset<Ticket>, work': multiset<Ticket>, k: nat)
    requires TicketsOk(j, work) && work == work' + multiset{WhisperTicket(j.id, k)}
    requires j'.id == j.id && j'.vadInFlight == j.vadInFlight && j'.nextVad == j.nextVad
    requires Awaited(j, k) && forall m: nat :: Awaited(j', m) <==> Awaited(j, m) && m != k
    ensures TicketsOk(j', work')
  {
    forall m: nat ensures work'[WhisperTicket(j'.id, m)] == if Awaited(j', m) then 1 else 0 {
      assert work[WhisperTicket(j.id, m)] == if Awaited(j, m) then 1 else 0;
    }
    forall m: nat ensures work'[VadTicket(j'.id, m)] == if j'.vadInFlight && m + 1 == j'.nextVad then 1 else 0 {
      assert work[VadTicket(j.id, m)] == if j.vadInFlight && m + 1 == j.nextVad then 1 else 0;
    }
  }

  lemma WhisperResultOk(net: Net, limit: nat, r: Run, p: LivePool, k: nat, segments: seq<Segment>)
    requires ActiveOk(net, limit, r, p) && p.results != []
    requires p.results[0] == WhisperDone(r.job.id, k, segments)
    requires Work(p) == Work(P.Received(p)) + multiset{WhisperTicket(r.job.id, k)}
    ensures Awaited(r.job, k) && k < |r.hist.windows| && segments == Transcribe(net, r.hist.windows[k])
    ensures RunOk(net, RunResult(r, k, segments), limit)
    ensures TicketsOk(RunResult(r, k, segments).job, Work(P.Received(p)))
  {
    assert ResultFits(net, r, p.results[0]);
    assert Work(p)[WhisperTicket(r.job.id, k)] > 0;
    hide Conserved, WindowsOk, OutputOk, FinalsOk, ModeOk, PoolFits, Work;
    ResultKeepsRunOk(net, r, limit, k);
    ResultKeepsCounters(net, r, limit, k);
    hide RunOk, CountersOk;
    TicketTaken(r.job, RunResult(r, k, segments).job, Work(p), Work(P.Received(p)), k);
  }

  lemma VadTicketTaken(r: Run, v: VadResult, work: multiset<Ticket>, work': multiset<Ticket>)
    requires TicketsOk(r.job, work) && r.job.vadInFlight && v.index + 1 == r.job.nextVad
    requires work == work' + multiset{VadTicket(r.job.id, v.index)}
    ensures TicketsOk(RunVadDone(r, v).job, work')
  {
    var j, j' := r.job, RunVadDone(r, v).job;
    forall m: nat ensures work'[WhisperTicket(j'.id, m)] == if Awaited(j', m) then 1 else 0 {
      assert Awaited(j', m) == Awaited(j, m);
      assert work[WhisperTicket(j.id, m)] == if Awaited(j, m) then 1 else 0;
    }
    forall m: nat ensures work'[VadTicket(j'.id, m)] == if j'.vadInFlight && m + 1 == j'.nextVad then 1 else 0 {
      assert work[VadTicket(j.id, m)] == if j.vadInFlight && m + 1 == j.nextVad then 1 else 0;
    }
  }

  /** The result is the network's answer to the VAD window in flight. */
  lemma VadResultIsAwaited(net: Net, limit: nat, r: Run, p: LivePool, v: VadResult)
    requires ActiveOk(net, limit, r, p) && p.results != []
    requires p.results[0] == VadDone(v) && v.jobId == r.job.id
    ensures r.job.vadInFlight && v.index + 1 == r.job.nextVad
    ensures |r.hist.scored| > 0 && v == VadAnswer(net, r.hist.scored[|r.hist.scored| - 1].job)
    ensures RunOk(net, r, limit) && TicketsOk(r.job, Work(p))
  {
    ResultIsOutstanding(p, 0);
    hide Work, FedOk, Conserved, WindowsOk, CountersOk, OutputOk, FinalsOk, ScoresOk, ChainOk, PositionOk, StateBefore;
    assert ResultFits(net, r, p.results[0]);
    assert Work(p)[VadTicket(r.job.id, v.index)] > 0;
    assert r.job.vadInFlight;
    assert r.job.vad.Some? && r.job.nextVad == |r.hist.scored|;
  }

  lemma VadResultOk(net: Net, limit: nat, r: Run, p: LivePool, v: VadResult)
    requires ActiveOk(net, limit, r, p) && p.results != []
    requires p.results[0] == VadDone(v) && v.jobId == r.job.id
    requires Work(p) == Work(P.Received(p)) + multiset{VadTicket(r.job.id, v.index)}
    ensures r.job.vadInFlight
    ensures RunOk(net, RunVadDone(r, v), limit)
    ensures TicketsOk(RunVadDone(r, v).job, Work(P.Received(p)))
  {
    VadResultIsAwaited(net, limit, r, p, v);
    hide ActiveOk, RunOk, TicketsOk, Work, VadAnswer, RunVadDone;
    VadDoneKeepsRunOk(net, r, limit);
    VadTicketTaken(r, v, Work(p), Work(P.Received(p)));
  }

  lemma AbortOk(net: Net, r: Run)
    requires LogOk(net, r) && FinalsOk(r)
    ensures AbortedOk(net, Abort(r))
  {
    hide Conserved, WindowsOk, ModeOk, SamplesOf, BrokenIn, Only, EventLog, Flat, SegmentsOut, Transcripts;
    UntouchedByResults(net, r, Abort(r).job);
    OneKindAppended(Final, r.job.responses, [FinishedErr("worker failed")]);
  }

  lemma DeliverFailureOk(net: Net, lim: Limits, s: System)
    requires SystemOk(net, lim, s) && s.pool.results != []
    ensures SystemOk(net, lim, s.(active := [], aborted := s.aborted + AbortAll(s.active), pool := P.Received(s.pool)))
  {
    hide TicketsOk, PoolFits, Delivered, AbortedOk, FedOk, Conserved, WindowsOk, CountersOk, OutputOk, FinalsOk, ModeOk, Abort;
    ReceiveSizes(s.pool);
    forall k | 0 <= k < |s.active| ensures AbortedOk(net, AbortAll(s.active)[k]) {
      assert ActiveOk(net, lim.inFlight, s.active[k], s.pool);
      AbortOk(net, s.active[k]);
    }
  }

  lemma DeliverToOwnerOk(net: Net, lim: Limits, s: System, i: nat)
    requires SystemOk(net, lim, s) && s.pool.results != [] && !s.pool.results[0].Failed?
    requires i < |s.active| && s.active[i].job.id == ResultTicket(s.pool.results[0]).jobId
    ensures SystemOk(net, lim,
              s.(pool := P.Received(s.pool),
                 active := s.active[i := match s.pool.results[0]
                                         case VadDone(v) => RunVadDone(s.active[i], v)
                                         case WhisperDone(_, k, segments) => RunResult(s.active[i], k, segments)
                                         case Failed(_) => s.active[i]]))
  {
    hide RunOk, TicketsOk, PoolFits, Delivered, AbortedOk, Awaited;
    var r := s.active[i];
    assert ActiveOk(net, lim.inFlight, r, s.pool);
    ReceiveSizes(s.pool);
    match s.pool.results[0] {
      case WhisperDone(_, k, segments) =>
        WhisperResultOk(net, lim.inFlight, r, s.pool, k, segments);
        DeliverTo(net, lim, s, i, RunResult(r, k, segments));
      case VadDone(v) =>
        VadResultOk(net, lim.inFlight, r, s.pool, v);
        DeliverTo(net, lim, s, i, RunVadDone(r, v));
    }
  }

  lemma DeliverOk(net: Net, lim: Limits, s: System)
    requires SystemOk(net, lim, s) && s.pool.results != []
    ensures SystemOk(net, lim, Deliver(s))
  {
    hide SystemOk, RunVadDone, RunResult, AbortAll;
    FindIsIndex(s.active, ResultTicket(s.pool.results[0]).jobId);
    var found := Find(s.active, ResultTicket(s.pool.results[0]).jobId);
    if s.pool.results[0].Failed? {
      DeliverFailureOk(net, lim, s);
    } else if found.None? {
      DeliverToNobody(net, lim, s);
    } else {
      DeliverToOwnerOk(net, lim, s, found.value);
    }
  }

  // ---------------------------------------------------------- all the steps

  lemma InitialOk(net: Net, lim: Limits)
    ensures SystemOk(net, lim, Initial())
  {
    P.FreshTokensOk<NpuJob, NpuResult>();
    P.IdleWorkersHoldNothing(JobTicket, ResultTicket, Initial().pool.workers);
    hide P.TokensOk, P.WorkerWork, RunOk, TicketsOk, PoolFits, Delivered, AbortedOk;
  }

  /** Every action of every party keeps the invariant. */
  lemma StepKeepsSystemOk(net: Net, lim: Limits, s: System, step: Step)
    requires SystemOk(net, lim, s) && Enabled(net, lim, s, step)
    ensures SystemOk(net, lim, After(net, lim, s, step))
  {
    hide RunOk, TicketsOk, PoolFits, Delivered, AbortedOk, RunDrain, RunRefresh, Remaining, Completed;
    match step {
      case Feed(i, chunk) =>
        assert ActiveOk(net, lim.inFlight, s.active[i], s.pool);
        FeedOk(net, lim.inFlight, s.active[i], chunk);
        SystemWithJob(net, lim, s, i, RunFeed(s.active[i], chunk));
      case HangUp(i) =>
        assert ActiveOk(net, lim.inFlight, s.active[i], s.pool);
        HangUpOk(net, lim.inFlight, s.active[i]);
        SystemWithJob(net, lim, s, i, RunHangUp(s.active[i]));
      case Admit(vad, options) =>
        AdmitOk(net, lim, s, vad, options, if s.active == [] then 0 else s.cursor);
      case DrainChunks => DrainAllOk(net, lim, s);
      case Refresh => RefreshAllOk(net, lim, s);
      case RemoveCompleted => RemoveCompletedOk(net, lim, s);
      case TakeReady => DispatchOk(net, lim, s);
      case TakeResult => DeliverOk(net, lim, s);
      case WorkerMoves(w, move) => WorkerMoveOk(net, lim, s, w, move);
    }
  }

  /** A run: states joined by enabled steps, beginning with an idle scheduler. */
  ghost predicate IsRun(net: Net, lim: Limits, states: seq<System>, steps: seq<Step>) {
    && |states| == |steps| + 1
    && states[0] == Initial()
    && forall i :: 0 <= i < |steps| ==>
         && P.TokensOk(states[i].pool)
         && Enabled(net, lim, states[i], steps[i])
         && states[i + 1] == After(net, lim, states[i], steps[i])
  }

  /** A run may be continued by any enabled step. */
  lemma RunGoesOn(net: Net, lim: Limits, states: seq<System>, steps: seq<Step>, step: Step)
    requires IsRun(net, lim, states, steps)
    requires P.TokensOk(states[|steps|].pool) && Enabled(net, lim, states[|steps|], step)
    ensures IsRun(net, lim, states + [After(net, lim, states[|steps|], step)], steps + [step])
  {
    hide Enabled, After, P.TokensOk, Initial;
    var states', steps' := states + [After(net, lim, states[|steps|], step)], steps + [step];
    forall i | 0 <= i < |steps'|
      ensures P.TokensOk(states'[i].pool) && Enabled(net, lim, states'[i], steps'[i])
      ensures states'[i + 1] == After(net, lim, states'[i], steps'[i])
    {
      assert i < |steps| ==> states'[i] == states[i] && states'[i + 1] == states[i + 1];
    }
  }

  /** The invariant holds in every state of every run. */
  lemma {:induction false} RunsAreOk(net: Net, lim: Limits, states: seq<System>, steps: seq<Step>, n: nat)
    requires IsRun(net, lim, states, steps) && n < |states|
    ensures SystemOk(net, lim, states[n])
  {
    hide SystemOk, Enabled, After, P.TokensOk;
    if n == 0 {
      InitialOk(net, lim);
    } else {
      RunsAreOk(net, lim, states, steps, n - 1);
      StepKeepsSystemOk(net, lim, states[n - 1], steps[n - 1]);
    }
  }
}
