/**
 The scheduler's own loops over its active jobs, as methods that update the
 jobs in place (rkwhisper/src/bin/rkwhisperd.rs), each proved to do what
 module LiveSystem says of the jobs' states.
 */
module LiveLoop {
  import opened Wrappers
  import opened Vad
  import opened LiveJob
  import opened LiveInvariant
  import opened LiveSystem
  import P = Pool

  /** What a scheduling turn sends: a VAD window or a Whisper window of the chosen job. */
  function Chosen(jobs: seq<Job>, c: Choice): Option<NpuJob>
    requires c.selected.Some? ==> c.selected.value < |jobs|
  {
    if c.selected.None? then None
    else
      var j := jobs[c.selected.value];
      if c.isVad && HasVadReady(j) then Some(VadWork(NextVadJob(j)))
      else if !c.isVad && NextPlan(j).Some? && Fits(j, NextPlan(j).value) then
        Some(WhisperWork(WindowJob(j, NextPlan(j).value)))
      else None
  }

  function ChosenAfter(j: Job, isVad: bool): Job {
    if isVad && HasVadReady(j) then VadSent(j)
    else if !isVad && NextPlan(j).Some? && Fits(j, NextPlan(j).value) then Cut(j, NextPlan(j).value)
    else j
  }

  /** The jobs whose flag is not set, in order. */
  function Without<T>(jobs: seq<T>, done: seq<bool>): seq<T>
    requires |jobs| == |done|
  {
    if jobs == [] then []
    else
      var n := |jobs| - 1;
      Without(jobs[..n], done[..n]) + if done[n] then [] else [jobs[n]]
  }

  function FinishedIfComplete(j: Job): Job { if IsComplete(j) then Finish(j) else j }

  function CompleteFlags(jobs: seq<Job>): seq<bool> {
    seq(|jobs|, i requires 0 <= i < |jobs| => IsComplete(jobs[i]))
  }

  lemma WithoutNext<T>(jobs: seq<T>, done: seq<bool>, n: nat)
    requires |jobs| == |done| && n < |jobs|
    ensures Without(jobs[..n + 1], done[..n + 1]) == Without(jobs[..n], done[..n]) + if done[n] then [] else [jobs[n]]
  {
    assert jobs[..n + 1][..n] == jobs[..n] && done[..n + 1][..n] == done[..n];
  }

  ghost predicate Distinct(jobs: seq<ActiveLiveJob>) {
    forall i, k :: 0 <= i < k < |jobs| ==> jobs[i] != jobs[k]
  }

  ghost function States(jobs: seq<ActiveLiveJob>): (states: seq<Job>)
    reads jobs
    ensures |states| == |jobs|
    ensures forall i :: 0 <= i < |jobs| ==> states[i] == jobs[i].State()
  {
    if jobs == [] then [] else States(jobs[..|jobs| - 1]) + [jobs[|jobs| - 1].State()]
  }

  /** Keeping the next job moves it to the kept part, removing it closes the gap. */
  lemma KeepOrRemove<T>(kept: seq<T>, rest: seq<T>)
    requires rest != []
    ensures (kept + rest)[|kept|] == rest[0]
    ensures kept + rest == (kept + [rest[0]]) + rest[1..]
    ensures (kept + rest)[..|kept|] + (kept + rest)[|kept| + 1..] == kept + rest[1..]
  {
  }

  lemma {:induction false} WithoutIsDistinct(jobs: seq<ActiveLiveJob>, done: seq<bool>)
    requires |jobs| == |done| && Distinct(jobs)
    ensures Distinct(Without(jobs, done))
    ensures forall job :: job in Without(jobs, done) ==> job in jobs
  {
    if jobs != [] {
      var n := |jobs| - 1;
      WithoutIsDistinct(jobs[..n], done[..n]);
      var before := Without(jobs[..n], done[..n]);
      forall job | job in before ensures job in jobs && job != jobs[n] {
        var i :| 0 <= i < n && jobs[..n][i] == job;
        assert jobs[i] == job;
      }
      assert jobs[n] in jobs;
    }
  }

  lemma OthersDiffer(jobs: seq<ActiveLiveJob>, k: nat)
    requires Distinct(jobs) && k < |jobs|
    ensures forall i :: 0 <= i < |jobs| && i != k ==> jobs[i] != jobs[k]
  {
  }

  lemma WithoutNothing<T>()
    ensures Without<T>([], []) == []
  {
  }

  // ---------------------------------- the methods against the step relation

  lemma TurnMatchesStep(s: System, limit: nat)
    requires P.TokensOk(s.pool) && s.pool.ready != [] && s.active != []
    requires Select(Jobs(s.active), s.cursor, limit).selected.Some? ==>
               Select(Jobs(s.active), s.cursor, limit).selected.value < |s.active|
    ensures var c := Select(Jobs(s.active), s.cursor, limit);
            var work := Chosen(Jobs(s.active), c);
            var s' := Dispatch(s, limit);
            && s'.cursor == c.cursor
            && s'.pool == (if work.Some? then P.Sent(s.pool, work.value) else s.pool)
            && |s'.active| == |s.active|
            && forall i :: 0 <= i < |s.active| ==>
                 s'.active[i].job == if c.selected == Some(i) then ChosenAfter(s.active[i].job, c.isVad) else s.active[i].job
  {
    hide Select, HasVadReady, NextPlan, NextVadJob, WindowJob, VadSent, Cut;
  }

  /** The jobs `RemoveCompletedJobs` keeps are those that remain in the step relation. */
  lemma {:induction false} RemovalMatchesStep(rs: seq<Run>)
    ensures Jobs(Remaining(rs)) == Without(Jobs(rs), CompleteFlags(Jobs(rs)))
  {
    hide IsComplete;
    if rs != [] {
      var n := |rs| - 1;
      RemovalMatchesStep(rs[..n]);
      assert Jobs(rs)[..n] == Jobs(rs[..n]);
      assert CompleteFlags(Jobs(rs))[..n] == CompleteFlags(Jobs(rs[..n]));
    }
  }

  /** What a result makes of the job it belongs to. */
  function Handled(j: Job, result: NpuResult): Job {
    match result
    case VadDone(v) => HandleVad(j, v)
    case WhisperDone(_, k, segments) => HandleResult(j, k, segments)
    case Failed(_) => j
  }

  /** Job i is the first one with the id of the result. */
  predicate IsOwner(jobs: seq<Job>, result: NpuResult, i: nat)
    requires i < |jobs|
  {
    && jobs[i].id == ResultTicket(result).jobId
    && forall k :: 0 <= k < i ==> jobs[k].id != jobs[i].id
  }

  function FailedJob(j: Job): Job { j.(responses := j.responses + [FinishedErr("worker failed")]) }

  lemma {:induction false} FindIsOwner(rs: seq<Run>, result: NpuResult, i: nat)
    requires i < |rs|
    ensures IsOwner(Jobs(rs), result, i) <==> Find(rs, ResultTicket(result).jobId) == Some(i)
  {
    hide ResultTicket;
    var n := |rs| - 1;
    FindIsIndex(rs[..n], ResultTicket(result).jobId);
    if i < n {
      FindIsOwner(rs[..n], result, i);
      assert forall k :: 0 <= k <= i ==> Jobs(rs)[k] == Jobs(rs[..n])[k];
    } else {
      assert forall k :: 0 <= k < n ==> Jobs(rs)[k] == rs[..n][k].job;
    }
  }

  /** What `HandleNpuResult` and `FailAllJobs` make of the jobs is what the step relation's delivery does. */
  lemma DeliveryMatchesStep(s: System)
    requires s.pool.results != []
    ensures var result, s' := s.pool.results[0], Deliver(s);
            && s'.pool == P.Received(s.pool)
            && if result.Failed? then
                 && s'.active == [] && |s'.aborted| == |s.aborted| + |s.active|
                 && forall i :: 0 <= i < |s.active| ==> s'.aborted[|s.aborted| + i].job == FailedJob(s.active[i].job)
               else
                 && s'.aborted == s.aborted && |s'.active| == |s.active|
                 && forall i :: 0 <= i < |s.active| ==>
                      s'.active[i].job == if IsOwner(Jobs(s.active), result, i) then Handled(s.active[i].job, result)
                                          else s.active[i].job
  {
    hide HandleVad, HandleResult, IsOwner, Find, ResultTicket;
    FindIsIndex(s.active, ResultTicket(s.pool.results[0]).jobId);
    forall i | 0 <= i < |s.active|
      ensures IsOwner(Jobs(s.active), s.pool.results[0], i) <==> Find(s.active, ResultTicket(s.pool.results[0]).jobId) == Some(i)
    {
      FindIsOwner(s.active, s.pool.results[0], i);
    }
  }

  // ------------------------------------------------------------ the methods

  method DrainLiveChunks(activeJobs: seq<ActiveLiveJob>, limit: nat)
    requires Distinct(activeJobs)
    modifies activeJobs
    ensures forall i :: 0 <= i < |activeJobs| ==> activeJobs[i].State() == Drain(old(activeJobs[i].State()), limit)
  {
    hide Drain, ActiveLiveJob.State;
    for i := 0 to |activeJobs|
      invariant forall k :: 0 <= k < i ==> activeJobs[k].State() == Drain(old(activeJobs[k].State()), limit)
      invariant forall k :: i <= k < |activeJobs| ==> activeJobs[k].State() == old(activeJobs[k].State())
    {
      activeJobs[i].DrainChunks(limit);
    }
  }

  method RefreshSpeechStates(activeJobs: seq<ActiveLiveJob>)
    requires Distinct(activeJobs)
    modifies activeJobs
    ensures forall i :: 0 <= i < |activeJobs| ==> activeJobs[i].State() == LiveJob.Refresh(old(activeJobs[i].State()))
  {
    hide LiveJob.Refresh, ActiveLiveJob.State;
    for i := 0 to |activeJobs|
      invariant forall k :: 0 <= k < i ==> activeJobs[k].State() == LiveJob.Refresh(old(activeJobs[k].State()))
      invariant forall k :: i <= k < |activeJobs| ==> activeJobs[k].State() == old(activeJobs[k].State())
    {
      activeJobs[i].RefreshSpeechState();
    }
  }

  method MayDispatchNow(job: ActiveLiveJob, limit: nat) returns (may: bool)
    ensures may == MayDispatch(job.State(), limit)
  {
    if job.inFlight >= limit || job.vadInFlight {
      return false;
    }
    var plan := job.NextDispatchPlan();
    return plan.Some?;
  }

  method HasDispatchableLiveWork(activeJobs: seq<ActiveLiveJob>, limit: nat) returns (has: bool)
    ensures has == HasDispatchable(States(activeJobs), limit)
  {
    hide HasVadReady, MayDispatch;
    has := false;
    ghost var jobs := States(activeJobs);
    for i := 0 to |activeJobs|
      invariant !has && forall k :: 0 <= k < i ==> !HasVadReady(jobs[k]) && !MayDispatch(jobs[k], limit)
    {
      var ready := activeJobs[i].HasVadReadyNow();
      var may := MayDispatchNow(activeJobs[i], limit);
      if ready || may {
        assert HasVadReady(jobs[i]) || MayDispatch(jobs[i], limit);
        return true;
      }
    }
  }

  /** First pass of the dispatcher: the next job with VAD work. */
  method FindVadWork(activeJobs: seq<ActiveLiveJob>, cursor: nat) returns (found: Option<nat>, cursor': nat)
    requires activeJobs != []
    ensures (found, cursor') == Search(VadFlags(States(activeJobs)), cursor, |activeJobs|)
    ensures found.Some? ==> found.value < |activeJobs|
  {
    hide HasVadReady, ActiveLiveJob.State;
    found, cursor' := None, cursor;
    ghost var flags := VadFlags(States(activeJobs));
    ghost var all := Search(flags, cursor, |activeJobs|);
    for tried := 0 to |activeJobs|
      invariant found.None? && Search(flags, cursor', |activeJobs| - tried) == all
    {
      var idx := cursor' % |activeJobs|;
      cursor' := (cursor' + 1) % |activeJobs|;
      var ready := activeJobs[idx].HasVadReadyNow();
      assert flags[idx] == ready;
      if ready {
        return Some(idx), cursor';
      }
    }
  }

  /** Second pass: the next job that may cut a window. */
  method FindWindowWork(activeJobs: seq<ActiveLiveJob>, limit: nat, cursor: nat) returns (found: Option<nat>, cursor': nat)
    requires activeJobs != []
    ensures (found, cursor') == Search(WindowFlags(States(activeJobs), limit), cursor, |activeJobs|)
    ensures found.Some? ==> found.value < |activeJobs|
  {
    hide MayDispatch, NextPlan, HasVadReady, ActiveLiveJob.State;
    found, cursor' := None, cursor;
    ghost var flags := WindowFlags(States(activeJobs), limit);
    ghost var all := Search(flags, cursor, |activeJobs|);
    for tried := 0 to |activeJobs|
      invariant found.None? && Search(flags, cursor', |activeJobs| - tried) == all
    {
      var idx := cursor' % |activeJobs|;
      cursor' := (cursor' + 1) % |activeJobs|;
      var may := MayDispatchNow(activeJobs[idx], limit);
      assert flags[idx] == may;
      if may {
        return Some(idx), cursor';
      }
    }
  }

  /** The dispatcher's two passes. */
  method SelectJob(activeJobs: seq<ActiveLiveJob>, limit: nat, cursor: nat) returns (choice: Choice)
    requires activeJobs != []
    ensures choice == Select(States(activeJobs), cursor, limit)
    ensures choice.selected.Some? ==> choice.selected.value < |activeJobs|
  {
    hide Search, VadFlags, WindowFlags;
    var vad, c1 := FindVadWork(activeJobs, cursor);
    if vad.Some? {
      return Choice(vad, true, c1);
    }
    var window, c2 := FindWindowWork(activeJobs, limit, c1);
    return Choice(window, false, c2);
  }

  /** Takes the chosen job's work. */
  method TakeWork(job: ActiveLiveJob, isVad: bool) returns (work: Option<NpuJob>)
    requires Sound(job.State())
    modifies job
    ensures work == Chosen([old(job.State())], Choice(Some(0), isVad, 0))
    ensures job.State() == ChosenAfter(old(job.State()), isVad)
  {
    hide NextPlan, HasVadReady, VadSent, Cut, Sound, NextVadJob, WindowJob;
    if isVad {
      var vad := job.TakeVadJob();
      return if vad.Some? then Some(VadWork(vad.value)) else None;
    }
    var window := job.DispatchToWorker();
    return if window.Some? then Some(WhisperWork(window.value)) else None;
  }

  /** Chooses a job and takes the work that goes to the worker whose token was received. */
  method DispatchReadyLiveWindow(activeJobs: seq<ActiveLiveJob>, limit: nat, cursor: nat)
    returns (work: Option<NpuJob>, cursor': nat)
    requires Distinct(activeJobs) && activeJobs != []
    requires forall i :: 0 <= i < |activeJobs| ==> Sound(activeJobs[i].State())
    modifies activeJobs
    ensures var c := Select(old(States(activeJobs)), cursor, limit);
            && cursor' == c.cursor
            && (c.selected.Some? ==> c.selected.value < |activeJobs|)
            && work == Chosen(old(States(activeJobs)), c)
            && forall i :: 0 <= i < |activeJobs| ==>
                 activeJobs[i].State() == if c.selected == Some(i) then ChosenAfter(old(States(activeJobs))[i], c.isVad)
                                          else old(States(activeJobs))[i]
  {
    hide NextPlan, HasVadReady, Sound, Select, ChosenAfter, ActiveLiveJob.State;
    var c := SelectJob(activeJobs, limit, cursor);
    cursor' := c.cursor;
    if c.selected.None? {
      return None, cursor';
    }
    work := TakeWork(activeJobs[c.selected.value], c.isVad);
  }

  /** The first n jobs have been finished where complete, the others are as before. */
  ghost predicate FinishedUpTo(jobs: seq<ActiveLiveJob>, before: seq<Job>, n: nat)
    requires |before| == |jobs|
    reads jobs
  {
    && (forall i :: 0 <= i < n && i < |jobs| ==> jobs[i].State() == FinishedIfComplete(before[i]))
    && (forall i :: n <= i < |jobs| ==> jobs[i].State() == before[i])
  }

  /** One job's turn. */
  method FinishOne(job: ActiveLiveJob, ghost jobs: seq<ActiveLiveJob>, ghost before: seq<Job>, ghost n: nat)
    returns (finished: bool)
    requires Distinct(jobs) && n < |jobs| == |before| && job == jobs[n] && FinishedUpTo(jobs, before, n)
    modifies job
    ensures finished == IsComplete(before[n]) && FinishedUpTo(jobs, before, n + 1)
  {
    OthersDiffer(jobs, n);
    hide IsComplete, ActiveLiveJob.State, Finish;
    finished := job.FinishIfComplete();
  }

  lemma AllBefore(jobs: seq<ActiveLiveJob>)
    ensures FinishedUpTo(jobs, States(jobs), 0)
  {
  }

  /** Finishes every complete job and returns the others. */
  method RemoveCompletedJobs(jobs: seq<ActiveLiveJob>) returns (activeJobs: seq<ActiveLiveJob>)
    requires Distinct(jobs)
    modifies jobs
    ensures activeJobs == Without(jobs, CompleteFlags(old(States(jobs)))) && Distinct(activeJobs)
    ensures forall i :: 0 <= i < |jobs| ==> jobs[i].State() == FinishedIfComplete(old(States(jobs))[i])
  {
    AllBefore(jobs);
    hide IsComplete, FinishedIfComplete, FinishedUpTo, Without, States, Distinct, ActiveLiveJob.State;
    ghost var rest, before := jobs, States(jobs);
    ghost var flags := CompleteFlags(before);
    ghost var kept: seq<ActiveLiveJob> := [];
    ghost var n := 0;
    WithoutNothing<ActiveLiveJob>();
    activeJobs := jobs;
    var idx := 0;
    while idx < |activeJobs|
      invariant activeJobs == kept + rest && idx == |kept|
      invariant n <= |jobs| && rest == jobs[n..]
      invariant kept == Without(jobs[..n], flags[..n])
      invariant FinishedUpTo(jobs, before, n)
      decreases |rest|
    {
      KeepOrRemove(kept, rest);
      WithoutNext(jobs, flags, n);
      var finished := FinishOne(activeJobs[idx], jobs, before, n);
      if finished {
        activeJobs := activeJobs[..idx] + activeJobs[idx + 1..];
      } else {
        kept := kept + [rest[0]];
        idx := idx + 1;
      }
      rest, n := rest[1..], n + 1;
    }
    assert jobs[..n] == jobs && flags[..n] == flags && kept + [] == kept;
    WithoutIsDistinct(jobs, flags);
    AllFinished(jobs, before);
  }

  lemma AllFinished(jobs: seq<ActiveLiveJob>, before: seq<Job>)
    requires |before| == |jobs| && FinishedUpTo(jobs, before, |jobs|)
    ensures forall i :: 0 <= i < |jobs| ==> jobs[i].State() == FinishedIfComplete(before[i])
  {
  }

  /** The job a result belongs to, by id. */
  method FindJob(activeJobs: seq<ActiveLiveJob>, jobId: nat) returns (found: Option<nat>)
    ensures if found.Some? then
              && found.value < |activeJobs| && activeJobs[found.value].jobId == jobId
              && forall k :: 0 <= k < found.value ==> activeJobs[k].jobId != jobId
            else forall k :: 0 <= k < |activeJobs| ==> activeJobs[k].jobId != jobId
  {
    for i := 0 to |activeJobs|
      invariant forall k :: 0 <= k < i ==> activeJobs[k].jobId != jobId
    {
      if activeJobs[i].jobId == jobId {
        return Some(i);
      }
    }
    return None;
  }

  /** The result of a worker that did not fail goes to the first job with its id, and to no other. */
  method HandleNpuResult(activeJobs: seq<ActiveLiveJob>, result: NpuResult)
    requires Distinct(activeJobs) && !result.Failed?
    modifies activeJobs
    ensures forall i :: 0 <= i < |activeJobs| ==>
              activeJobs[i].State()
              == if IsOwner(old(States(activeJobs)), result, i) then Handled(old(activeJobs[i].State()), result)
                 else old(activeJobs[i].State())
  {
    hide HandleVad, HandleResult;
    ghost var before := States(activeJobs);
    var found := FindJob(activeJobs, ResultTicket(result).jobId);
    if found.Some? {
      match result {
        case VadDone(v) => activeJobs[found.value].HandleVadResult(v);
        case WhisperDone(_, k, segments) => activeJobs[found.value].HandleWindowResult(k, segments);
      }
    }
  }

  /** A failed worker ends every job with an error. */
  method FailAllJobs(activeJobs: seq<ActiveLiveJob>)
    requires Distinct(activeJobs)
    modifies activeJobs
    ensures forall i :: 0 <= i < |activeJobs| ==>
              activeJobs[i].State() == FailedJob(old(activeJobs[i].State()))
  {
    for i := 0 to |activeJobs|
      invariant forall k :: 0 <= k < i ==>
                  activeJobs[k].State() == FailedJob(old(activeJobs[k].State()))
      invariant forall k :: i <= k < |activeJobs| ==> activeJobs[k].State() == old(activeJobs[k].State())
    {
      activeJobs[i].responseTx := activeJobs[i].responseTx + [FinishedErr("worker failed")];
    }
  }
}
