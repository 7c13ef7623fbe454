/** How the jobs of one state of the live scheduler come from those of the state before. */
module LiveChanges {
  import opened Wrappers
  import opened Vad
  import opened LiveJob
  import opened LiveInvariant
  import opened LiveSteps
  import opened LiveSystem
  import opened LiveRuns
  import opened LiveProgress
  import opened LiveResults
  import opened Transcription
  import P = Pool

  /** What one step can do to a job. */
  datatype Change =
    | Stayed
    | WasFed(chunk: Chunk)
    | LostReader
    | Drained
    | Refreshed
    | SentVad
    | GotVad(result: VadResult)
    | Cut(plan: Plan)
    | GotWindow(index: nat, segments: seq<Segment>)
    | WasFinished
    | WasAborted

  ghost predicate Becomes(limit: nat, r: Run, change: Change, r': Run) {
    match change
    case Stayed => r' == r
    case WasFed(c) => !r.job.senderGone && r' == RunFeed(r, c)
    case LostReader => r' == RunHangUp(r)
    case Drained => r' == RunDrain(r, limit)
    case Refreshed => r' == RunRefresh(r)
    case SentVad => HasVadReady(r.job) && r' == RunVadSent(r)
    case GotVad(v) =>
      && r.job.vad.Some? && r.job.vadInFlight && v.startSample == r.job.vadProcessed < |r.job.buffer|
      && r' == RunVadDone(r, v)
    case Cut(p) => MayDispatch(r.job, limit) && NextPlan(r.job) == Some(p) && Fits(r.job, p) && r' == RunCut(r, p)
    case GotWindow(k, segments) => r' == RunResult(r, k, segments)
    case WasFinished => IsComplete(r.job) && r' == RunFinish(r)
    case WasAborted => r' == Abort(r)
  }

  /** A job is one of those before the step, changed only if it was active, or is new. */
  ghost predicate CameFrom(limit: nat, s: System, r': Run, from: Option<nat>, change: Change) {
    match from
    case Some(i) =>
      i < |Everyone(s)| && (change != Stayed ==> i < |s.active|) && Becomes(limit, Everyone(s)[i], change, r')
    case None => exists vad, options :: r' == NewRun(s.nextId, vad, options)
  }

  lemma CameFromMeans(limit: nat, s: System, r': Run, from: Option<nat>, change: Change)
    requires CameFrom(limit, s, r', from, change)
    ensures from.Some? ==>
              && from.value < |Everyone(s)| && Becomes(limit, Everyone(s)[from.value], change, r')
              && (if change == Stayed then r' == Everyone(s)[from.value]
                  else from.value < |s.active| && Everyone(s)[from.value] == s.active[from.value])
  {
  }

  lemma DispatchChanges(net: Net, lim: Limits, s: System, m: nat) returns (change: Change)
    requires SystemOk(net, lim, s) && s.pool.ready != [] && HasDispatchable(Jobs(s.active), lim.inFlight)
    requires m < |s.active|
    ensures s.pool.ready[0] < |s.pool.workers|
    ensures var s' := Dispatch(s, lim.inFlight);
            |s'.active| == |s.active| && Becomes(lim.inFlight, s.active[m], change, s'.active[m])
  {
    hide RunOk, TicketsOk, PoolFits, Delivered, AbortedOk, NextPlan, HasVadReady, RunVadSent, RunCut, Work, Select, MayDispatch;
    var jobs := Jobs(s.active);
    SelectAgreesWithGuard(jobs, s.cursor, lim.inFlight);
    var c := Select(jobs, s.cursor, lim.inFlight);
    var r := s.active[c.selected.value];
    assert jobs[c.selected.value] == r.job && ActiveOk(net, lim.inFlight, r, s.pool);
    DispatchWeighsLess(net, lim.inFlight, r, c.isVad);
    MayDispatchHasPlan(r.job, lim.inFlight);
    change := if m != c.selected.value then Stayed else if c.isVad then SentVad else Cut(NextPlan(r.job).value);
  }

  lemma MayDispatchHasPlan(j: Job, limit: nat)
    ensures MayDispatch(j, limit) ==> NextPlan(j).Some?
  {
  }

  lemma DeliverChanges(net: Net, lim: Limits, s: System, m: nat) returns (change: Change)
    requires SystemOk(net, lim, s) && s.pool.results != [] && m < |Deliver(s).active|
    ensures |Deliver(s).active| == |s.active| && Becomes(lim.inFlight, s.active[m], change, Deliver(s).active[m])
  {
    hide RunOk, TicketsOk, PoolFits, Delivered, AbortedOk, Work, RunVadDone, RunResult;
    FindIsIndex(s.active, ResultTicket(s.pool.results[0]).jobId);
    var found := Find(s.active, ResultTicket(s.pool.results[0]).jobId);
    change := Stayed;
    if found == Some(m) {
      assert ActiveOk(net, lim.inFlight, s.active[m], s.pool);
      match s.pool.results[0] {
        case VadDone(v) =>
          VadResultFits(net, lim.inFlight, s.active[m], s.pool, v);
          change := GotVad(v);
        case WhisperDone(_, k, segments) => change := GotWindow(k, segments);
        case Failed(_) =>
      }
    }
  }

  lemma ActiveCameFrom(net: Net, lim: Limits, s: System, step: Step, m: nat) returns (from: Option<nat>, change: Change)
    requires SystemOk(net, lim, s) && Enabled(net, lim, s, step)
    requires m < |After(net, lim, s, step).active|
    ensures CameFrom(lim.inFlight, s, After(net, lim, s, step).active[m], from, change)
  {
    hide RunOk, TicketsOk, PoolFits, Delivered, AbortedOk, Dispatch, Deliver, Work, P.TokensOk, RoomOk, IdsOk;
    hide RunDrain, RunRefresh, Remaining, Completed, AbortAll, NewRun, MayDispatch, HasVadReady, NextPlan, RunFeed, RunHangUp;
    from, change := Some(m), Stayed;
    match step {
      case Feed(i, c) => change := if m == i then WasFed(c) else Stayed;
      case HangUp(i) => change := if m == i then LostReader else Stayed;
      case Admit(_, _) => from := if m < |s.active| then Some(m) else None;
      case DrainChunks => change := Drained;
      case Refresh => change := Refreshed;
      case RemoveCompleted =>
        var kept := RemainingIsSubsequence(s.active);
        from := Some(kept[m]);
      case TakeReady =>
        DispatchOnJobs(net, lim, s, 0);
        change := DispatchChanges(net, lim, s, m);
      case TakeResult => change := DeliverChanges(net, lim, s, m);
      case WorkerMoves(_, _) =>
    }
  }

  lemma {:induction false} CompletedWas(rs: seq<Run>, m: nat) returns (i: nat)
    requires m < |Completed(rs)|
    ensures i < |rs| && IsComplete(rs[i].job) && Completed(rs)[m] == RunFinish(rs[i])
  {
    hide IsComplete;
    var n := |rs| - 1;
    if m < |Completed(rs[..n])| {
      i := CompletedWas(rs[..n], m);
    } else {
      i := n;
    }
  }

  lemma EndedCameFrom(net: Net, lim: Limits, s: System, step: Step, r: Run) returns (from: nat, change: Change)
    requires P.TokensOk(s.pool) && Enabled(net, lim, s, step)
    requires r in After(net, lim, s, step).finished || r in After(net, lim, s, step).aborted
    ensures CameFrom(lim.inFlight, s, r, Some(from), change)
  {
    hide P.TokensOk, Abort, Completed, Remaining, RunFinish, IsComplete, RunVadDone, RunResult, RunVadSent, RunCut, Select, Enabled;
    var s' := After(net, lim, s, step);
    if r in s.finished || r in s.aborted {
      assert r in Everyone(s);
      var i: nat :| i < |Everyone(s)| && Everyone(s)[i] == r;
      from, change := i, Stayed;
    } else if r in s'.finished {
      assert step.RemoveCompleted? && r in Completed(s.active);
      var m :| 0 <= m < |Completed(s.active)| && Completed(s.active)[m] == r;
      from := CompletedWas(s.active, m);
      change := WasFinished;
    } else {
      assert step.TakeResult? && r in AbortAll(s.active);
      var i: nat :| i < |s.active| && AbortAll(s.active)[i] == r;
      from, change := i, WasAborted;
    }
  }

  /** Where a job of the state after a step comes from, active or ended. */
  lemma JobCameFrom(net: Net, lim: Limits, s: System, step: Step, m: nat) returns (from: Option<nat>, change: Change)
    requires SystemOk(net, lim, s) && Enabled(net, lim, s, step)
    requires m < |Everyone(After(net, lim, s, step))|
    ensures CameFrom(lim.inFlight, s, Everyone(After(net, lim, s, step))[m], from, change)
  {
    hide RunOk, TicketsOk, PoolFits, Delivered, AbortedOk, P.TokensOk, RoomOk, IdsOk, Enabled, After, CameFrom;
    var s' := After(net, lim, s, step);
    if m < |s'.active| {
      from, change := ActiveCameFrom(net, lim, s, step, m);
    } else {
      var i;
      i, change := EndedCameFrom(net, lim, s, step, Everyone(s')[m]);
      from := Some(i);
    }
  }

}
