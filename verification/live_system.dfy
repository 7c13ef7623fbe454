/**
 The live scheduler as a whole (`run_live_jobs` and its helpers in
 rkwhisper/src/bin/rkwhisperd.rs): several live jobs share the worker pool
 through Ready, job and result channels.  A run is any interleaving of the
 scheduler's actions, the workers' and the stream readers'.
 */
module LiveSystem {
  import opened Wrappers
  import opened Vad
  import opened LiveJob
  import opened LiveInvariant
  import opened LiveSteps
  import opened Transcription
  import Arith
  import P = Pool

  datatype NpuJob = VadWork(vad: VadJob) | WhisperWork(whisper: WhisperJob)

  /** A failed job reports only an error; `cause` is not looked at by the scheduler. */
  datatype NpuResult =
    | VadDone(result: VadResult)
    | WhisperDone(jobId: nat, index: nat, segments: seq<Segment>)
    | Failed(cause: NpuJob)

  datatype Ticket = VadTicket(jobId: nat, index: nat) | WhisperTicket(jobId: nat, index: nat)

  type LivePool = P.Pool<NpuJob, NpuResult>

  function JobTicket(j: NpuJob): Ticket {
    match j
    case VadWork(v) => VadTicket(v.jobId, v.index)
    case WhisperWork(w) => WhisperTicket(w.jobId, w.index)
  }

  function ResultTicket(r: NpuResult): Ticket {
    match r
    case VadDone(v) => VadTicket(v.jobId, v.index)
    case WhisperDone(id, k, _) => WhisperTicket(id, k)
    case Failed(j) => JobTicket(j)
  }

  /** A worker either fails or returns what the network makes of the job. */
  ghost predicate Answers(net: Net, j: NpuJob, r: NpuResult) {
    || r == Failed(j)
    || match j
       case VadWork(v) => r == VadDone(VadAnswer(net, v))
       case WhisperWork(w) => r == WhisperDone(w.jobId, w.index, Transcribe(net, w))
  }

  function Work(p: LivePool): multiset<Ticket> { P.Outstanding(JobTicket, ResultTicket, p) }

  // -------------------------------------------------------------- selection

  /** The cyclic search of the dispatcher: at most `tries` jobs, starting at the cursor. */
  function Search(flags: seq<bool>, cursor: nat, tries: nat): (Option<nat>, nat)
    requires flags != []
    decreases tries
  {
    if tries == 0 then (None, cursor)
    else
      var next := (cursor + 1) % |flags|;
      if flags[cursor % |flags|] then (Some(cursor % |flags|), next) else Search(flags, next, tries - 1)
  }

  function VadFlags(jobs: seq<Job>): seq<bool> {
    seq(|jobs|, i requires 0 <= i < |jobs| => HasVadReady(jobs[i]))
  }

  function WindowFlags(jobs: seq<Job>, limit: nat): seq<bool> {
    seq(|jobs|, i requires 0 <= i < |jobs| => MayDispatch(jobs[i], limit))
  }

  predicate HasDispatchable(jobs: seq<Job>, limit: nat) {
    exists i :: 0 <= i < |jobs| && (HasVadReady(jobs[i]) || MayDispatch(jobs[i], limit))
  }

  datatype Choice = Choice(selected: Option<nat>, isVad: bool, cursor: nat)

  /** VAD work first; only when no job has any, a window. */
  function Select(jobs: seq<Job>, cursor: nat, limit: nat): Choice
    requires jobs != []
  {
    var (vad, c1) := Search(VadFlags(jobs), cursor, |jobs|);
    if vad.Some? then Choice(vad, true, c1)
    else
      var (window, c2) := Search(WindowFlags(jobs, limit), c1, |jobs|);
      Choice(window, false, c2)
  }

  /** The job a search looks at after e others. */
  function Probe(cursor: nat, e: nat, n: nat): (i: nat)
    requires 0 < n
    ensures i < n
  {
    (cursor + e) % n
  }

  lemma ProbeStep(cursor: nat, e: nat, n: nat)
    requires 0 < n
    ensures Probe((cursor + 1) % n, e, n) == Probe(cursor, e + 1, n)
  {
    Arith.ModOfReduced(cursor + 1, n, e);
  }

  /**
   The search skips exactly the jobs before the one it selects, in cyclic order, and
   leaves the cursor behind the last job it looked at.
   */
  lemma {:induction false} SearchInOrder(flags: seq<bool>, cursor: nat, tries: nat) returns (d: nat)
    requires flags != []
    ensures d <= tries && forall e: nat :: e < d ==> !flags[Probe(cursor, e, |flags|)]
    ensures var (found, cursor') := Search(flags, cursor, tries);
            if d < tries then
              && found == Some(Probe(cursor, d, |flags|)) && flags[Probe(cursor, d, |flags|)]
              && cursor' == (Probe(cursor, d, |flags|) + 1) % |flags|
            else
              found == None && cursor' == if tries == 0 then cursor else Probe(cursor, tries, |flags|)
    decreases tries
  {
    var n := |flags|;
    SearchStep(flags, cursor, tries);
    if tries == 0 || flags[Probe(cursor, 0, n)] {
      d := 0;
    } else {
      var next := (cursor + 1) % n;
      var d' := SearchInOrder(flags, next, tries - 1);
      d := d' + 1;
      hide Search, Probe;
      ProbeStep(cursor, d', n);
      forall e: nat | e < d ensures !flags[Probe(cursor, e, n)] {
        if e > 0 {
          ProbeStep(cursor, e - 1, n);
          assert !flags[Probe(next, e - 1, n)];
        }
      }
    }
  }

  lemma SearchStep(flags: seq<bool>, cursor: nat, tries: nat)
    requires flags != []
    ensures var n := |flags|;
            && Probe(cursor, 1, n) == (cursor + 1) % n == (Probe(cursor, 0, n) + 1) % n
            && Search(flags, cursor, tries)
               == if tries == 0 then (None, cursor)
                  else if flags[Probe(cursor, 0, n)] then (Some(Probe(cursor, 0, n)), Probe(cursor, 1, n))
                  else Search(flags, (cursor + 1) % n, tries - 1)
  {
    Arith.ModOfReduced(cursor, |flags|, 1);
  }

  /** From any cursor, however stale, a full round finds a set flag if there is one. */
  lemma SearchFinds(flags: seq<bool>, cursor: nat, i: nat)
    requires i < |flags| && flags[i]
    ensures var found := Search(flags, cursor, |flags|).0;
            found.Some? && found.value < |flags| && flags[found.value]
  {
    var n := |flags|;
    var r := cursor % n;
    var e := if r <= i then i - r else i + n - r;
    Arith.ModOfReduced(cursor, n, e);
    Arith.DivModUnique(n, if r <= i then 0 else 1, i);
    assert Probe(cursor, e, n) == i;
    var d := SearchInOrder(flags, cursor, n);
  }

  /** A search that finds nothing found no flag set. */
  lemma SearchMisses(flags: seq<bool>, cursor: nat, i: nat)
    requires flags != [] && i < |flags| && Search(flags, cursor, |flags|).0.None?
    ensures !flags[i]
  {
    if flags[i] {
      SearchFinds(flags, cursor, i);
    }
  }

  ghost predicate GoodChoice(jobs: seq<Job>, limit: nat, c: Choice) {
    && c.selected.Some? && c.selected.value < |jobs|
    && (if c.isVad then HasVadReady(jobs[c.selected.value])
        else
          && MayDispatch(jobs[c.selected.value], limit)
          && forall i :: 0 <= i < |jobs| ==> !HasVadReady(jobs[i]))
  }

  /** The guard agrees with the search: whenever it holds, a job is selected that really has work. */
  lemma SelectAgreesWithGuard(jobs: seq<Job>, cursor: nat, limit: nat)
    requires HasDispatchable(jobs, limit)
    ensures jobs != [] && GoodChoice(jobs, limit, Select(jobs, cursor, limit))
  {
    var i :| 0 <= i < |jobs| && (HasVadReady(jobs[i]) || MayDispatch(jobs[i], limit));
    var vads, windows := VadFlags(jobs), WindowFlags(jobs, limit);
    var (vad, c1) := Search(vads, cursor, |jobs|);
    if vad.Some? {
      var d := SearchInOrder(vads, cursor, |jobs|);
      assert vads[vad.value] && vad.value < |jobs|;
    } else {
      forall k | 0 <= k < |jobs| ensures !HasVadReady(jobs[k]) {
        SearchMisses(vads, cursor, k);
      }
      assert windows[i];
      SearchFinds(windows, c1, i);
    }
  }

  // ------------------------------------------------------------ the system

  datatype System = System(
    active: seq<Run>,
    finished: seq<Run>,
    aborted: seq<Run>,
    pool: LivePool,
    cursor: nat,
    nextId: nat)

  function Initial(): System { System([], [], [], P.FreshPool(), 0, 1) }

  function Jobs(rs: seq<Run>): seq<Job> { seq(|rs|, i requires 0 <= i < |rs| => rs[i].job) }

  function DrainAll(rs: seq<Run>, limit: nat): seq<Run> {
    seq(|rs|, i requires 0 <= i < |rs| => RunDrain(rs[i], limit))
  }

  function RefreshAll(rs: seq<Run>): seq<Run> {
    seq(|rs|, i requires 0 <= i < |rs| => RunRefresh(rs[i]))
  }

  function Remaining(rs: seq<Run>): seq<Run> {
    if rs == [] then []
    else Remaining(rs[..|rs| - 1]) + if IsComplete(rs[|rs| - 1].job) then [] else [rs[|rs| - 1]]
  }

  function Completed(rs: seq<Run>): seq<Run> {
    if rs == [] then []
    else Completed(rs[..|rs| - 1]) + if IsComplete(rs[|rs| - 1].job) then [RunFinish(rs[|rs| - 1])] else []
  }

  function Abort(r: Run): Run { r.(job := r.job.(responses := r.job.responses + [FinishedErr("worker failed")])) }

  function AbortAll(rs: seq<Run>): seq<Run> { seq(|rs|, i requires 0 <= i < |rs| => Abort(rs[i])) }

  /** The first job with the given id, as the scheduler finds it. */
  function Find(rs: seq<Run>, id: nat): Option<nat> {
    if rs == [] then None
    else
      var before := Find(rs[..|rs| - 1], id);
      if before.Some? then before else if rs[|rs| - 1].job.id == id then Some(|rs| - 1) else None
  }

  lemma {:induction false} FindIsIndex(rs: seq<Run>, id: nat)
    ensures var f := Find(rs, id);
            if f.Some? then
              f.value < |rs| && rs[f.value].job.id == id && forall i :: 0 <= i < f.value ==> rs[i].job.id != id
            else forall i :: 0 <= i < |rs| ==> rs[i].job.id != id
  {
    if rs != [] {
      FindIsIndex(rs[..|rs| - 1], id);
    }
  }

  predicate AwaitsResults(rs: seq<Run>) {
    exists i :: 0 <= i < |rs| && (rs[i].job.inFlight > 0 || rs[i].job.vadInFlight)
  }

  datatype Step =
    | Feed(i: nat, chunk: Chunk)      // a stream reader sends a chunk
    | HangUp(i: nat)                  // a stream reader drops its sender
    | Admit(vad: Option<VadConfig>, options: Options)   // a new job joins
    | DrainChunks
    | Refresh
    | RemoveCompleted
    | TakeReady
    | TakeResult
    | WorkerMoves(w: nat, move: P.Move<NpuResult>)

  /** The limits are validated to be at least one when the configuration is loaded. */
  datatype Limits = Limits(inFlight: pos, activeJobs: pos)

  ghost predicate Enabled(net: Net, lim: Limits, s: System, step: Step) {
    match step
    case Feed(i, _) => i < |s.active| && !s.active[i].job.senderGone
    case HangUp(i) => i < |s.active| && !s.active[i].job.senderGone
    case Admit(_, _) => |s.active| < lim.activeJobs
    case DrainChunks => true
    case Refresh => true
    case RemoveCompleted => true
    case TakeReady => s.pool.ready != [] && HasDispatchable(Jobs(s.active), lim.inFlight)
    case TakeResult => s.pool.results != [] && AwaitsResults(s.active)
    case WorkerMoves(w, move) => P.CanMove(s.pool, w, move, (j, r) => Answers(net, j, r))
  }

  /** Sends the selected job's work to the worker whose token is oldest. */
  function Dispatch(s: System, limit: nat): System
    requires s.active != [] && s.pool.ready != [] && s.pool.ready[0] < |s.pool.workers|
  {
    var c := Select(Jobs(s.active), s.cursor, limit);
    if c.selected.None? || c.selected.value >= |s.active| then s.(cursor := c.cursor)
    else
      var i := c.selected.value;
      var r := s.active[i];
      if c.isVad && HasVadReady(r.job) then
        s.(active := s.active[i := RunVadSent(r)],
           pool := P.Sent(s.pool, VadWork(NextVadJob(r.job))),
           cursor := c.cursor)
      else if !c.isVad && NextPlan(r.job).Some? && Fits(r.job, NextPlan(r.job).value) then
        s.(active := s.active[i := RunCut(r, NextPlan(r.job).value)],
           pool := P.Sent(s.pool, WhisperWork(WindowJob(r.job, NextPlan(r.job).value))),
           cursor := c.cursor)
      else s.(cursor := c.cursor)
  }

  function Deliver(s: System): System
    requires s.pool.results != []
  {
    var s1 := s.(pool := P.Received(s.pool));
    FindIsIndex(s.active, ResultTicket(s.pool.results[0]).jobId);
    var found := Find(s.active, ResultTicket(s.pool.results[0]).jobId);
    match s.pool.results[0]
    case Failed(_) => s1.(active := [], aborted := s.aborted + AbortAll(s.active))
    case VadDone(v) =>
      if found.None? then s1
      else s1.(active := s.active[found.value := RunVadDone(s.active[found.value], v)])
    case WhisperDone(_, k, segments) =>
      if found.None? then s1
      else s1.(active := s.active[found.value := RunResult(s.active[found.value], k, segments)])
  }

  ghost function After(net: Net, lim: Limits, s: System, step: Step): System
    requires P.TokensOk(s.pool) && Enabled(net, lim, s, step)
  {
    match step
    case Feed(i, chunk) => s.(active := s.active[i := RunFeed(s.active[i], chunk)])
    case HangUp(i) => s.(active := s.active[i := RunHangUp(s.active[i])])
    case Admit(vad, options) =>
      s.(active := s.active + [NewRun(s.nextId, vad, options)], nextId := s.nextId + 1,
         cursor := if s.active == [] then 0 else s.cursor)
    case DrainChunks => s.(active := DrainAll(s.active, lim.inFlight))
    case Refresh => s.(active := RefreshAll(s.active))
    case RemoveCompleted => s.(active := Remaining(s.active), finished := s.finished + Completed(s.active))
    case TakeReady => Dispatch(s, lim.inFlight)
    case TakeResult => Deliver(s)
    case WorkerMoves(w, move) => s.(pool := P.Moved(s.pool, w, move))
  }

  // ------------------------------------------------------------- invariant

  /** For each job: every awaited window and the VAD window in flight is outstanding exactly once, and nothing else is. */
  ghost predicate TicketsOk(j: Job, work: multiset<Ticket>) {
    && (forall k: nat :: work[WhisperTicket(j.id, k)] == if Awaited(j, k) then 1 else 0)
    && (forall k: nat :: work[VadTicket(j.id, k)] == if j.vadInFlight && k + 1 == j.nextVad then 1 else 0)
  }

  ghost predicate JobFits(r: Run, j: NpuJob) {
    JobTicket(j).jobId == r.job.id ==>
      match j
      case VadWork(v) => v.index < |r.hist.scored| && r.hist.scored[v.index].job == v
      case WhisperWork(w) => w.index < |r.hist.windows| && r.hist.windows[w.index] == w
  }

  ghost predicate ResultFits(net: Net, r: Run, res: NpuResult) {
    ResultTicket(res).jobId == r.job.id ==>
      match res
      case VadDone(v) => v.index < |r.hist.scored| && v == VadAnswer(net, r.hist.scored[v.index].job)
      case WhisperDone(_, k, segments) => k < |r.hist.windows| && segments == Transcribe(net, r.hist.windows[k])
      case Failed(j) => JobFits(r, j)
  }

  ghost predicate StageFits(net: Net, r: Run, s: P.Stage<NpuJob, NpuResult>) {
    match s
    case Queued(j) => JobFits(r, j)
    case Running(j) => JobFits(r, j)
    case Reporting(res) => ResultFits(net, r, res)
    case _ => true
  }

  /** Whatever the pool holds for this job is a job it sent, or the networks' answer to one. */
  ghost predicate PoolFits(net: Net, r: Run, p: LivePool) {
    && (forall w :: 0 <= w < |p.workers| ==> StageFits(net, r, p.workers[w]))
    && (forall i :: 0 <= i < |p.results| ==> ResultFits(net, r, p.results[i]))
  }

  ghost predicate ActiveOk(net: Net, limit: nat, r: Run, p: LivePool) {
    RunOk(net, r, limit) && TicketsOk(r.job, Work(p)) && PoolFits(net, r, p)
  }

  ghost predicate IdsOk(s: System) {
    && (forall i :: 0 <= i < |s.active| ==> s.active[i].job.id < s.nextId)
    && (forall i, k :: 0 <= i < k < |s.active| ==> s.active[i].job.id != s.active[k].job.id)
    && (forall t :: t in Work(s.pool) ==> t.jobId < s.nextId)
  }

  /** An aborted job still keeps its log; its final responses are its chunk errors and one more. */
  ghost predicate AbortedOk(net: Net, r: Run) {
    && LogOk(net, r)
    && |Only(Final, r.job.responses)| == r.hist.broken + 1 && AllErrors(Only(Final, r.job.responses))
  }

  /** Leftovers of aborted jobs alone never fill every place where work can wait. */
  ghost predicate RoomOk(s: System) {
    AwaitsResults(s.active) || |Work(s.pool)| < 2 * P.NPU_WORKERS
  }

  ghost predicate SystemOk(net: Net, lim: Limits, s: System) {
    && P.TokensOk(s.pool) && IdsOk(s) && RoomOk(s)
    && (forall i :: 0 <= i < |s.active| ==> ActiveOk(net, lim.inFlight, s.active[i], s.pool))
    && (forall i :: 0 <= i < |s.finished| ==> Delivered(net, s.finished[i]))
    && (forall i :: 0 <= i < |s.aborted| ==> AbortedOk(net, s.aborted[i]))
  }
}
