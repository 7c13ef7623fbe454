/**
 When windows are cut in a run: every window was due when it was cut, and a
 window or a VAD window that is due does not wait for ever.
 */
module LiveDues {
  import opened Wrappers
  import opened Vad
  import opened LiveJob
  import opened LivePlans
  import opened LiveInvariant
  import opened LiveSteps
  import opened LiveSystem
  import opened LiveRuns
  import opened LiveProgress
  import opened LiveResults
  import opened LiveChanges
  import P = Pool

  /** A window of j is due: the audio has ended, or there is enough of it. */
  ghost predicate IsDue(j: Job) {
    if j.vad.Some? then
      var segs := Segments(j.vad.value, |j.buffer|, j.probs);
      segs != [] && (j.closed || ReachesLimit(segs) || IsSilent(j, segs))
    else
      |j.buffer| >= 480000 || (j.closed && j.buffer != [])
  }

  /** The slice of the buffer to cut, and the events that go with it, in the stream's positions. */
  ghost predicate IsCutOf(j: Job, w: WhisperJob, events: seq<Span>) {
    exists start: nat, end: nat ::
      && start <= end <= |j.buffer|
      && w.absStart == j.offset + start && w.samples == j.buffer[start..end]
      && if j.vad.Some? then
           var segs := Segments(j.vad.value, |j.buffer|, j.probs);
           segs != [] && start == segs[0].start && EndsWindow(segs, end) && events == Shifted(j.offset, Clipped(segs, end))
         else
           start == 0 && end == Min(480000, |j.buffer|) && events == []
  }

  lemma CutIsDue(net: Net, limit: nat, r: Run, p: Plan)
    requires RunOk(net, r, limit) && MayDispatch(r.job, limit) && NextPlan(r.job) == Some(p) && Fits(r.job, p)
    ensures !r.job.vadInFlight && IsDue(r.job) && IsCutOf(r.job, WindowJob(r.job, p), Shifted(r.job.offset, p.events))
  {
    hide FedOk, Conserved, WindowsOk, CountersOk, OutputOk, FinalsOk, ModeOk;
    RunIsSound(net, r);
    PlanIsDue(r.job);
    hide NextPlan, Sound, EndsWindow, Clipped, ReachesLimit, IsSilent, Segments;
    assert r.job.offset + p.start == WindowJob(r.job, p).absStart;
  }

  /** The job has cut one more window, which was due. */
  ghost predicate CutsOne(r: Run, r': Run, w: WhisperJob, events: seq<Span>) {
    && r'.hist.windows == r.hist.windows + [w] && r'.hist.events == r.hist.events + [events]
    && !r.job.vadInFlight && IsDue(r.job) && IsCutOf(r.job, w, events)
  }

  /** A change either leaves the windows alone or cuts one more, which is due. */
  lemma ChangeCutsDue(net: Net, limit: nat, r: Run, change: Change, r': Run)
    requires RunOk(net, r, limit) && Becomes(limit, r, change, r')
    ensures r'.job.id == r.job.id
    ensures
      || (r'.hist.windows == r.hist.windows && r'.hist.events == r.hist.events)
      || exists w, events :: CutsOne(r, r', w, events)
  {
    hide RunOk, IsDue, IsCutOf, Shifted, NextPlan, MayDispatch, WindowJob, Rebase, NextVadJob, HasVadReady;
    match change {
      case Cut(p) =>
        CutIsDue(net, limit, r, p);
        assert CutsOne(r, r', WindowJob(r.job, p), Shifted(r.job.offset, p.events));
      case Drained => DrainIsQuiet(r, limit);
      case _ =>
    }
  }

  /** Active job a of state p is the job with this id, and the window that it cuts there, to become job b, is its k-th and due. */
  ghost predicate CutAt(states: seq<System>, p: nat, a: nat, b: nat, id: nat, h: History, k: nat)
    requires p + 1 < |states| && k < |h.windows| && k < |h.events|
  {
    && a < |states[p].active| && b < |Everyone(states[p + 1])|
    && states[p].active[a].job.id == id && Everyone(states[p + 1])[b].job.id == id
    && states[p].active[a].hist.windows == h.windows[..k]
    && CutsOne(states[p].active[a], Everyone(states[p + 1])[b], h.windows[k], h.events[k])
  }

  ghost predicate WasDue(states: seq<System>, p: nat, id: nat, h: History, k: nat) {
    && p + 1 < |states| && k < |h.windows| && k < |h.events|
    && exists a, b :: CutAt(states, p, a, b, id, h, k)
  }

  /**
   In every run every window of every job was cut while the job was active and a
   window was due, with the bounds and the events that were due then.
   */
  lemma {:induction false} WindowsWereDue(net: Net, lim: Limits, states: seq<System>, steps: seq<Step>, n: nat, m: nat, k: nat)
    returns (p: nat)
    requires IsRun(net, lim, states, steps) && n < |states| && m < |Everyone(states[n])|
    requires k < |Everyone(states[n])[m].hist.windows|
    ensures p < n && WasDue(states, p, Everyone(states[n])[m].job.id, Everyone(states[n])[m].hist, k)
  {
    hide Enabled, After, P.TokensOk, RunOk, TicketsOk, PoolFits, AbortedOk, Becomes, IdsOk, RoomOk, CameFrom, WasDue, CutsOne;
    assert n > 0 by {
      assert Everyone(Initial()) == [];
    }
    hide Everyone;
    var s, r' := states[n - 1], Everyone(states[n])[m];
    RunsAreOk(net, lim, states, steps, n - 1);
    var from, change := JobCameFrom(net, lim, s, steps[n - 1], m);
    CameFromMeans(lim.inFlight, s, r', from, change);
    if from.None? {
      NewJobHasNoWindows(lim.inFlight, s, r', change);
    } else if change == Stayed {
      p := WindowsWereDue(net, lim, states, steps, n - 1, from.value, k);
    } else {
      var i := from.value;
      assert ActiveOk(net, lim.inFlight, s.active[i], s.pool);
      ChangedWindows(net, lim.inFlight, s.active[i], change, r');
      if k < |s.active[i].hist.windows| {
        p := WindowsWereDue(net, lim, states, steps, n - 1, i, k);
        DueStays(states, p, r'.job.id, s.active[i].hist, r'.hist, k);
      } else {
        p := n - 1;
        NewestWasDue(states, p, i, m, k);
      }
    }
  }

  lemma NewJobHasNoWindows(limit: nat, s: System, r: Run, change: Change)
    requires CameFrom(limit, s, r, None, change)
    ensures r.hist.windows == []
  {
    hide FreshState;
  }

  lemma EventsFitWindows(net: Net, limit: nat, r: Run)
    requires RunOk(net, r, limit)
    ensures |r.hist.events| == |r.hist.windows|
  {
  }

  lemma OlderWindows(r: Run, r': Run)
    requires |r.hist.events| == |r.hist.windows|
    requires (r'.hist.windows == r.hist.windows && r'.hist.events == r.hist.events) || exists w, events :: CutsOne(r, r', w, events)
    ensures r.hist.windows <= r'.hist.windows && r.hist.events <= r'.hist.events
    ensures |r'.hist.events| == |r'.hist.windows| <= |r.hist.windows| + 1
  {
    hide IsDue, IsCutOf;
  }

  lemma ChangedWindows(net: Net, limit: nat, r: Run, change: Change, r': Run)
    requires RunOk(net, r, limit) && Becomes(limit, r, change, r')
    ensures r'.job.id == r.job.id && |r.hist.events| == |r.hist.windows|
    ensures r.hist.windows <= r'.hist.windows && r.hist.events <= r'.hist.events
    ensures |r'.hist.events| == |r'.hist.windows|
    ensures |r'.hist.windows| > |r.hist.windows| ==>
              |r'.hist.windows| == |r.hist.windows| + 1 && exists w, events :: CutsOne(r, r', w, events)
  {
    hide RunOk, Becomes, CutsOne;
    ChangeCutsDue(net, limit, r, change, r');
    EventsFitWindows(net, limit, r);
    OlderWindows(r, r');
  }

  lemma DueStays(states: seq<System>, p: nat, id: nat, h: History, h': History, k: nat)
    requires WasDue(states, p, id, h, k)
    requires h.windows <= h'.windows && h.events <= h'.events
    ensures WasDue(states, p, id, h', k)
  {
    hide CutsOne;
    assert h'.windows[..k] == h.windows[..k];
    var a, b :| CutAt(states, p, a, b, id, h, k);
    assert CutAt(states, p, a, b, id, h', k);
  }

  lemma NewestWasDue(states: seq<System>, p: nat, a: nat, b: nat, k: nat)
    requires p + 1 < |states| && a < |states[p].active| && b < |Everyone(states[p + 1])|
    requires var r, r' := states[p].active[a], Everyone(states[p + 1])[b];
             && r.job.id == r'.job.id && |r.hist.events| == |r.hist.windows| == k < |r'.hist.windows|
             && exists w, events :: CutsOne(r, r', w, events)
    ensures WasDue(states, p, Everyone(states[p + 1])[b].job.id, Everyone(states[p + 1])[b].hist, k)
  {
    hide IsDue, IsCutOf, Everyone;
    var r, r' := states[p].active[a], Everyone(states[p + 1])[b];
    var w, events :| CutsOne(r, r', w, events);
    assert CutsOne(r, r', r'.hist.windows[k], r'.hist.events[k]);
    assert r'.hist.windows[..k] == r.hist.windows;
    assert CutAt(states, p, a, b, r'.job.id, r'.hist, k);
  }


  // ------------------------------------------------------- where audio goes

  /** Chunks are taken by an open job with fewer windows in flight than the limit, all that wait on the channel. */
  ghost predicate Receives(limit: nat, r: Run, r': Run) {
    || r'.hist.received == r.hist.received
    || (!r.job.closed && r.job.inFlight < limit && r'.hist.received == r.hist.received + SamplesOf(r.job.chunks))
  }

  /** The buffer is dropped when the audio has ended and has been scored, and there is no speech in it. */
  ghost predicate Drops(r: Run, r': Run) {
    var j := r.job;
    && j.closed && !j.vadInFlight && j.vadProcessed >= |j.buffer|
    && j.vad.Some? && Segments(j.vad.value, |j.buffer|, j.probs) == []
    && r'.job.offset == j.offset + |j.buffer| && r'.job.buffer == []
  }

  /** Audio leaves the buffer with a window that is due, or is dropped. */
  ghost predicate Releases(r: Run, r': Run) {
    || r'.job.offset == r.job.offset
    || Drops(r, r')
    || exists w, events :: CutsOne(r, r', w, events) && r'.job.offset == w.absStart + |w.samples|
  }

  lemma ChangeMovesAudio(net: Net, limit: nat, r: Run, change: Change, r': Run)
    requires RunOk(net, r, limit) && Becomes(limit, r, change, r')
    ensures Receives(limit, r, r') && Releases(r, r')
  {
    hide RunOk, IsDue, IsCutOf, Shifted, NextPlan, MayDispatch, Rebase, NextVadJob, HasVadReady, SamplesOf;
    match change {
      case Cut(p) =>
        CutIsDue(net, limit, r, p);
        assert CutsOne(r, r', WindowJob(r.job, p), Shifted(r.job.offset, p.events));
      case Drained => DrainReceives(r, limit);
      case _ =>
    }
  }

  lemma DrainReceives(r: Run, limit: nat)
    ensures Receives(limit, r, RunDrain(r, limit)) && RunDrain(r, limit).job.offset == r.job.offset
  {
    if MayDrain(r.job, limit) {
      AcceptAllEffect(r.job, r.job.chunks);
    }
  }

  /**
   In every step of every run, every job is new or was there before, receives
   audio only while it may, and loses audio only to a due window or as silence.
   */
  lemma AudioMovesByRule(net: Net, lim: Limits, states: seq<System>, steps: seq<Step>, n: nat, m: nat)
    returns (from: Option<nat>)
    requires IsRun(net, lim, states, steps) && n < |steps| && m < |Everyone(states[n + 1])|
    ensures var r' := Everyone(states[n + 1])[m];
            match from
            case None => r'.hist.received == [] && r'.job.offset == 0
            case Some(i) =>
              && i < |Everyone(states[n])| && Everyone(states[n])[i].job.id == r'.job.id
              && Receives(lim.inFlight, Everyone(states[n])[i], r') && Releases(Everyone(states[n])[i], r')
  {
    hide Enabled, After, P.TokensOk, RunOk, TicketsOk, PoolFits, AbortedOk, Becomes, IdsOk, RoomOk, CameFrom, Receives, Releases;
    var s, r' := states[n], Everyone(states[n + 1])[m];
    RunsAreOk(net, lim, states, steps, n);
    var change;
    from, change := JobCameFrom(net, lim, s, steps[n], m);
    CameFromMeans(lim.inFlight, s, r', from, change);
    if from.None? {
      NewJobIsEmpty(lim.inFlight, s, r', change);
    } else if change == Stayed {
      NothingMoves(lim.inFlight, r');
    } else {
      var i := from.value;
      assert ActiveOk(net, lim.inFlight, s.active[i], s.pool);
      ChangeMovesAudio(net, lim.inFlight, s.active[i], change, r');
      ChangeCutsDue(net, lim.inFlight, s.active[i], change, r');
    }
  }

  /** A drain takes all that waits from every open job with fewer windows in flight than the limit, and nothing else. */
  lemma DrainMeans(net: Net, lim: Limits, s: System, m: nat)
    requires P.TokensOk(s.pool) && m < |s.active|
    ensures var r, r' := s.active[m], After(net, lim, s, DrainChunks).active[m];
            if !r.job.closed && r.job.inFlight < lim.inFlight then
              && r'.job.chunks == [] && r'.hist.received == r.hist.received + SamplesOf(r.job.chunks)
              && (r.job.senderGone ==> r'.job.closed)
            else r' == r
  {
    hide P.TokensOk;
    AcceptAllEffect(s.active[m].job, s.active[m].job.chunks);
  }

  /** A refresh drops every buffer that may be dropped, and changes no other job. */
  lemma RefreshMeans(net: Net, lim: Limits, s: System, m: nat)
    requires P.TokensOk(s.pool) && m < |s.active|
    ensures var j := s.active[m].job;
            var r' := After(net, lim, s, Refresh).active[m];
            if j.buffer != [] && j.vad.Some? && Segments(j.vad.value, |j.buffer|, j.probs) == []
               && j.closed && !j.vadInFlight && j.vadProcessed >= |j.buffer|
            then r'.job == j.(offset := j.offset + |j.buffer|, buffer := [], probs := [])
            else r' == s.active[m]
  {
    hide P.TokensOk, Segments;
  }

  lemma NewJobIsEmpty(limit: nat, s: System, r: Run, change: Change)
    requires CameFrom(limit, s, r, None, change)
    ensures r.hist.received == [] && r.job.offset == 0
  {
    hide FreshState;
  }

  lemma NothingMoves(limit: nat, r: Run)
    ensures Receives(limit, r, r) && Releases(r, r)
  {
  }

  // ------------------------------------------------------------- nothing waits

  lemma NothingInFlight(net: Net, lim: Limits, s: System, i: nat)
    requires SystemOk(net, lim, s) && i < |s.active|
    requires forall step :: !Moves(net, lim, s, step)
    ensures s.active[i].job.inFlight == 0 && !s.active[i].job.vadInFlight
  {
    hide Moves, RunOk, PoolFits, Delivered, AbortedOk, Work, P.TokensOk, IdsOk, RoomOk;
    var r := s.active[i];
    assert ActiveOk(net, lim.inFlight, r, s.pool);
    if r.job.inFlight > 0 {
      WindowIsOutstanding(net, lim.inFlight, r, s.pool);
      var step := OutstandingMoves(net, lim, s, i, WhisperTicket(r.job.id, r.job.nextResult));
    } else if r.job.vadInFlight {
      VadInFlightIsOutstanding(net, lim.inFlight, r, s.pool);
      var step := OutstandingMoves(net, lim, s, i, VadTicket(r.job.id, r.job.nextVad - 1));
    }
  }

  lemma WindowIsOutstanding(net: Net, limit: nat, r: Run, p: LivePool)
    requires ActiveOk(net, limit, r, p) && r.job.inFlight > 0
    ensures WhisperTicket(r.job.id, r.job.nextResult) in Work(p)
  {
    hide FedOk, Conserved, WindowsOk, OutputOk, FinalsOk, ModeOk, PoolFits, Work;
    NextIsAwaited(net, r, limit);
    assert Work(p)[WhisperTicket(r.job.id, r.job.nextResult)] == 1;
  }

  lemma ChunksCanBeTaken(net: Net, lim: Limits, s: System, i: nat)
    requires P.TokensOk(s.pool) && i < |s.active|
    requires MayDrain(s.active[i].job, lim.inFlight) && s.active[i].job.chunks != []
    ensures Moves(net, lim, s, DrainChunks)
  {
    hide P.TokensOk;
    DrainWeighsLess(s.active[i], lim.inFlight);
    assert DrainAll(s.active, lim.inFlight)[i] != s.active[i];
  }

  lemma NoneReady(net: Net, lim: Limits, s: System, i: nat)
    requires SystemOk(net, lim, s) && i < |s.active|
    requires forall step :: !Moves(net, lim, s, step)
    ensures !HasVadReady(s.active[i].job) && !MayDispatch(s.active[i].job, lim.inFlight)
  {
    hide SystemOk, Moves, HasVadReady, MayDispatch;
    if HasVadReady(s.active[i].job) || MayDispatch(s.active[i].job, lim.inFlight) {
      assert Jobs(s.active)[i] == s.active[i].job;
      var step := DispatchableMoves(net, lim, s);
    }
  }

  /**
   When the scheduler and the workers can change nothing more, each job left has
   taken and had answered all that its client sent: less than a VAD window is
   unscored, no window is due, and it is the client's turn.
   */
  lemma StuckMeansWaiting(net: Net, lim: Limits, s: System, i: nat)
    requires SystemOk(net, lim, s) && i < |s.active|
    requires forall step :: !Moves(net, lim, s, step)
    ensures var j := s.active[i].job;
            && !j.closed && !j.senderGone && j.chunks == [] && j.inFlight == 0 && !j.vadInFlight
            && (j.vad.Some? ==> |j.buffer| < j.vadProcessed + j.vad.value.windowSamples)
            && !IsDue(j)
  {
    hide SystemOk, Moves, RunOk, IsDue;
    StuckMeansDone(net, lim, s);
    NothingInFlight(net, lim, s, i);
    TokensAreOk(net, lim, s);
    if s.active[i].job.chunks != [] {
      ChunksCanBeTaken(net, lim, s, i);
    }
    NoneReady(net, lim, s, i);
    DueMayBeSent(net, lim, s, i);
  }

  /** A job may send a window exactly while one is due, fewer than the limit are in flight and no VAD window is. */
  lemma MayDispatchMeans(net: Net, limit: nat, r: Run)
    requires RunOk(net, r, limit)
    ensures MayDispatch(r.job, limit) <==> r.job.inFlight < limit && !r.job.vadInFlight && IsDue(r.job)
  {
    hide FedOk, Conserved, WindowsOk, CountersOk, OutputOk, FinalsOk, ModeOk;
    RunIsSound(net, r);
    PlanIsDue(r.job);
    hide NextPlan, Sound, EndsWindow, Clipped, ReachesLimit, IsSilent, Segments;
  }

  /** A full VAD window is unscored, or the rest of a stream that has ended. */
  ghost predicate CanScore(j: Job) {
    && j.vad.Some? && !j.vadInFlight && j.vadProcessed < |j.buffer|
    && (|j.buffer| - j.vadProcessed >= j.vad.value.windowSamples || j.closed)
  }

  /** The dispatcher takes a token exactly when some job has something to score or to transcribe. */
  lemma DispatchGuardMeans(net: Net, lim: Limits, s: System)
    requires SystemOk(net, lim, s)
    ensures Enabled(net, lim, s, TakeReady) <==>
              && s.pool.ready != []
              && exists i :: 0 <= i < |s.active| && var j := s.active[i].job;
                   CanScore(j) || (j.inFlight < lim.inFlight && !j.vadInFlight && IsDue(j))
  {
    hide RunOk, TicketsOk, PoolFits, Delivered, AbortedOk, P.TokensOk, IdsOk, RoomOk, IsDue, MayDispatch;
    forall i | 0 <= i < |s.active|
      ensures HasVadReady(Jobs(s.active)[i]) <==> CanScore(s.active[i].job)
      ensures MayDispatch(Jobs(s.active)[i], lim.inFlight) <==>
                s.active[i].job.inFlight < lim.inFlight && !s.active[i].job.vadInFlight && IsDue(s.active[i].job)
    {
      assert ActiveOk(net, lim.inFlight, s.active[i], s.pool);
      MayDispatchMeans(net, lim.inFlight, s.active[i]);
    }
    hide CanScore, HasVadReady;
    var jobs := Jobs(s.active);
    if HasDispatchable(jobs, lim.inFlight) {
      var i :| 0 <= i < |jobs| && (HasVadReady(jobs[i]) || MayDispatch(jobs[i], lim.inFlight));
      assert s.active[i].job == jobs[i];
    }
    if i :| 0 <= i < |s.active| && (CanScore(s.active[i].job) ||
            (s.active[i].job.inFlight < lim.inFlight && !s.active[i].job.vadInFlight && IsDue(s.active[i].job))) {
      assert HasVadReady(jobs[i]) || MayDispatch(jobs[i], lim.inFlight);
    }
  }

  /** It waits for a result exactly while the pool holds work of an active job. */
  lemma ResultGuardMeans(net: Net, lim: Limits, s: System)
    requires SystemOk(net, lim, s)
    ensures Enabled(net, lim, s, TakeResult) <==>
              s.pool.results != [] && exists i, t :: 0 <= i < |s.active| && t in Work(s.pool) && t.jobId == s.active[i].job.id
  {
    hide RunOk, TicketsOk, PoolFits, Delivered, AbortedOk, P.TokensOk, IdsOk, RoomOk, Work;
    if AwaitsResults(s.active) {
      var i: nat :| i < |s.active| && (s.active[i].job.inFlight > 0 || s.active[i].job.vadInFlight);
      assert ActiveOk(net, lim.inFlight, s.active[i], s.pool);
      if s.active[i].job.inFlight > 0 {
        WindowIsOutstanding(net, lim.inFlight, s.active[i], s.pool);
      } else {
        VadInFlightIsOutstanding(net, lim.inFlight, s.active[i], s.pool);
      }
    }
    if i, t :| 0 <= i < |s.active| && t in Work(s.pool) && t.jobId == s.active[i].job.id {
      assert ActiveOk(net, lim.inFlight, s.active[i], s.pool);
      OutstandingIsAwaited(net, lim.inFlight, s.active[i], s.pool, t);
    }
  }

  lemma OutstandingIsAwaited(net: Net, limit: nat, r: Run, p: LivePool, t: Ticket)
    requires ActiveOk(net, limit, r, p) && t in Work(p) && t.jobId == r.job.id
    ensures r.job.inFlight > 0 || r.job.vadInFlight
  {
    hide FedOk, Conserved, WindowsOk, OutputOk, FinalsOk, ModeOk, PoolFits, Work;
    assert Work(p)[t] > 0;
    if t.WhisperTicket? {
      AwaitedMeansInFlight(net, r, limit, t.index);
    }
  }

  lemma DueMayBeSent(net: Net, lim: Limits, s: System, i: nat)
    requires SystemOk(net, lim, s) && i < |s.active|
    ensures NextPlan(s.active[i].job).Some? <==> IsDue(s.active[i].job)
  {
    hide FedOk, Conserved, WindowsOk, CountersOk, OutputOk, FinalsOk, ModeOk, TicketsOk, PoolFits, P.TokensOk, IdsOk, RoomOk;
    assert ActiveOk(net, lim.inFlight, s.active[i], s.pool);
    RunIsSound(net, s.active[i]);
    PlanIsDue(s.active[i].job);
    hide NextPlan, Sound, EndsWindow, Clipped, ReachesLimit, IsSilent, Segments;
  }
}
