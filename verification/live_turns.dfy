/**
 Round robin: the dispatcher's cursor moves on with every search, so work of one
 kind waits for at most one turn of every other job.
 */
module LiveTurns {
  import opened Wrappers
  import opened LiveJob
  import opened LiveInvariant
  import opened LiveSteps
  import opened LiveSystem
  import opened LiveRuns
  import Arith
  import P = Pool

  /** How many other jobs a search from the cursor looks at before job k. */
  function Wait(cursor: nat, k: nat, n: nat): nat
    requires k < n
  {
    if cursor % n <= k then k - cursor % n else k + n - cursor % n
  }

  lemma WaitIsProbe(cursor: nat, k: nat, n: nat)
    requires k < n
    ensures Wait(cursor, k, n) < n && Probe(cursor, Wait(cursor, k, n), n) == k
  {
    var r := cursor % n;
    Arith.ModOfReduced(cursor, n, Wait(cursor, k, n));
    Arith.DivModUnique(n, if r <= k then 0 else 1, k);
  }

  /** Behind a job before k, k is that much closer. */
  lemma WaitBehind(cursor: nat, d: nat, k: nat, n: nat)
    requires k < n && d < Wait(cursor, k, n)
    ensures Wait((Probe(cursor, d, n) + 1) % n, k, n) == Wait(cursor, k, n) - d - 1
  {
    var r := cursor % n;
    Arith.ModOfReduced(cursor, n, d);
    Arith.DivModUnique(n, if r + d < n then 0 else 1, if r + d < n then r + d else r + d - n);
    var p := Probe(cursor, d, n);
    assert p == if r + d < n then r + d else r + d - n;
    Arith.DivModUnique(n, if p + 1 < n then 0 else 1, if p + 1 < n then p + 1 else 0);
    Arith.ModOfReduced(p + 1, n, 0);
  }

  /** A search past a job with work either selects it or leaves the cursor closer to it. */
  lemma SearchTurn(flags: seq<bool>, cursor: nat, k: nat)
    requires k < |flags| && flags[k]
    ensures var n := |flags|;
            var (found, cursor') := Search(flags, cursor, n);
            found.Some? && (found == Some(k) || Wait(cursor', k, n) < Wait(cursor, k, n))
  {
    var n := |flags|;
    var d := SearchInOrder(flags, cursor, n);
    WaitIsProbe(cursor, k, n);
    assert d <= Wait(cursor, k, n);
    if d < Wait(cursor, k, n) {
      WaitBehind(cursor, d, k, n);
    }
  }

  /** A search that finds nothing leaves the cursor where it was. */
  lemma SearchAround(flags: seq<bool>, cursor: nat)
    requires flags != [] && Search(flags, cursor, |flags|).0.None?
    ensures Search(flags, cursor, |flags|).1 == cursor % |flags|
  {
    var n := |flags|;
    var d := SearchInOrder(flags, cursor, n);
    Arith.ModPlusMultiple(n, 1, cursor);
  }

  /** The cursor after successive searches that pass it on. */
  function CursorAfter(turns: seq<seq<bool>>, cursor: nat, n: nat): nat
    requires forall t :: 0 <= t < |turns| ==> |turns[t]| == n > 0
  {
    if turns == [] then cursor
    else Search(turns[|turns| - 1], CursorAfter(turns[..|turns| - 1], cursor, n), n).1
  }

  /** Among more successive searches than other jobs come before k, one selects k, if it has work each time. */
  lemma {:induction false} RoundRobin(turns: seq<seq<bool>>, cursor: nat, k: nat, n: nat) returns (t: nat)
    requires k < n && Wait(cursor, k, n) < |turns|
    requires forall t :: 0 <= t < |turns| ==> |turns[t]| == n && turns[t][k]
    ensures t < |turns| && Search(turns[t], CursorAfter(turns[..t], cursor, n), n).0 == Some(k)
  {
    t := 0;
    while Search(turns[t], CursorAfter(turns[..t], cursor, n), n).0 != Some(k)
      invariant t < |turns|
      invariant t + Wait(CursorAfter(turns[..t], cursor, n), k, n) < |turns|
      decreases |turns| - t
    {
      SearchTurn(turns[t], CursorAfter(turns[..t], cursor, n), k);
      assert turns[..t + 1][..t] == turns[..t];
      t := t + 1;
    }
  }

  /** In n successive searches a job with work each time is selected at least once. */
  lemma EveryoneHasATurn(turns: seq<seq<bool>>, cursor: nat, k: nat, n: nat) returns (t: nat)
    requires k < n <= |turns|
    requires forall t :: 0 <= t < |turns| ==> |turns[t]| == n && turns[t][k]
    ensures t < n && Search(turns[t], CursorAfter(turns[..t], cursor, n), n).0 == Some(k)
  {
    WaitIsProbe(cursor, k, n);
    t := RoundRobin(turns[..n], cursor, k, n);
    assert turns[..n][..t] == turns[..t];
  }

  // --------------------------------------------------------- the dispatcher

  /** The dispatcher selects a job with VAD work, or leaves the cursor closer to it. */
  lemma VadTurn(jobs: seq<Job>, cursor: nat, limit: nat, k: nat)
    requires k < |jobs| && HasVadReady(jobs[k])
    ensures var n := |jobs|;
            var c := Select(jobs, cursor, limit);
            c.isVad && (c.selected == Some(k) || Wait(c.cursor, k, n) < Wait(cursor, k, n))
  {
    hide HasVadReady, MayDispatch;
    SearchTurn(VadFlags(jobs), cursor, k);
  }

  /** The same for a window, while no job has VAD work. */
  lemma WindowTurn(jobs: seq<Job>, cursor: nat, limit: nat, k: nat)
    requires k < |jobs| && MayDispatch(jobs[k], limit)
    requires forall i :: 0 <= i < |jobs| ==> !HasVadReady(jobs[i])
    ensures var n := |jobs|;
            var c := Select(jobs, cursor, limit);
            !c.isVad && (c.selected == Some(k) || Wait(c.cursor, k, n) < Wait(cursor, k, n))
  {
    hide HasVadReady, MayDispatch;
    var n, flags := |jobs|, VadFlags(jobs);
    var d := SearchInOrder(flags, cursor, n);
    SearchAround(flags, cursor);
    Arith.ModOfReduced(cursor, n, 0);
    SearchTurn(WindowFlags(jobs, limit), cursor % n, k);
  }

  /** How many of the steps send work to a worker. */
  function Dispatches(steps: seq<Step>): nat {
    if steps == [] then 0
    else Dispatches(steps[..|steps| - 1]) + if steps[|steps| - 1].TakeReady? then 1 else 0
  }

  /** How many pieces of work the job has sent. */
  function Sent(r: Run): nat { |r.hist.scored| + |r.hist.windows| }

  /** Job k has VAD work, or may cut a window; a dispatch then finds no VAD work of other jobs before it. */
  ghost predicate HasWork(lim: Limits, s: System, step: Step, k: nat)
    requires k < |s.active|
  {
    || HasVadReady(s.active[k].job)
    || (MayDispatch(s.active[k].job, lim.inFlight)
        && (step.TakeReady? ==> forall i :: 0 <= i < |s.active| ==> !HasVadReady(s.active[i].job)))
  }

  /** From state m to state n nobody joins or leaves, and job k has work of which none is sent. */
  ghost predicate IsWaiting(lim: Limits, states: seq<System>, steps: seq<Step>, m: nat, n: nat, k: nat) {
    && m <= n < |states| && |steps| + 1 == |states| && k < |states[m].active|
    && (forall p :: m <= p <= n ==> |states[p].active| == |states[m].active|)
    && (forall p :: m <= p <= n ==> Sent(states[p].active[k]) == Sent(states[m].active[k]))
    && (forall p :: m <= p < n ==> HasWork(lim, states[p], steps[p], k))
  }

  lemma OtherStepsKeepCursor(net: Net, lim: Limits, s: System, step: Step)
    requires P.TokensOk(s.pool) && Enabled(net, lim, s, step) && !step.TakeReady? && s.active != []
    ensures After(net, lim, s, step).cursor == s.cursor
  {
    hide P.TokensOk, RunVadDone, RunResult, Enabled;
  }

  /** A chosen job sends something. */
  lemma ChosenSends(net: Net, lim: Limits, s: System, k: nat)
    requires SystemOk(net, lim, s) && s.pool.ready != [] && HasDispatchable(Jobs(s.active), lim.inFlight)
    requires k < |s.active| && Select(Jobs(s.active), s.cursor, lim.inFlight).selected == Some(k)
    ensures s.pool.ready[0] < |s.pool.workers| && |Dispatch(s, lim.inFlight).active| == |s.active|
    ensures Sent(Dispatch(s, lim.inFlight).active[k]) == Sent(s.active[k]) + 1
  {
    hide RunOk, TicketsOk, PoolFits, Delivered, AbortedOk, NextPlan, HasVadReady, NextVadJob, WindowJob, Work, Select, Cut, MayDispatch, IdsOk, RoomOk;
    var jobs := Jobs(s.active);
    SelectAgreesWithGuard(jobs, s.cursor, lim.inFlight);
    assert jobs[k] == s.active[k].job && ActiveOk(net, lim.inFlight, s.active[k], s.pool);
    if !Select(jobs, s.cursor, lim.inFlight).isVad {
      CutKeepsRunOk(net, s.active[k], lim.inFlight);
      PlanIfAny(s.active[k].job, lim.inFlight);
    }
  }

  lemma PlanIfAny(j: Job, limit: nat)
    requires MayDispatch(j, limit)
    ensures NextPlan(j).Some?
  {
  }

  lemma SelectTurn(lim: Limits, s: System, k: nat)
    requires k < |s.active| && HasWork(lim, s, TakeReady, k)
    ensures var c := Select(Jobs(s.active), s.cursor, lim.inFlight);
            c.selected == Some(k) || Wait(c.cursor, k, |s.active|) < Wait(s.cursor, k, |s.active|)
  {
    hide HasVadReady, MayDispatch, Select, Wait;
    var jobs := Jobs(s.active);
    assert jobs[k] == s.active[k].job;
    if HasVadReady(jobs[k]) {
      VadTurn(jobs, s.cursor, lim.inFlight, k);
    } else {
      WindowTurn(jobs, s.cursor, lim.inFlight, k);
    }
  }

  lemma DispatchMovesCursor(s: System, limit: nat)
    requires s.active != [] && s.pool.ready != [] && s.pool.ready[0] < |s.pool.workers|
    ensures var s' := Dispatch(s, limit);
            |s'.active| == |s.active| && s'.cursor == Select(Jobs(s.active), s.cursor, limit).cursor
  {
    hide HasVadReady, Select, NextPlan, RunVadSent, RunCut, P.Sent, NextVadJob, WindowJob;
  }

  /** A dispatch that sends nothing of job k, though it has work, brings the cursor closer to it. */
  lemma DispatchTurn(net: Net, lim: Limits, s: System, k: nat)
    requires SystemOk(net, lim, s) && s.pool.ready != [] && HasDispatchable(Jobs(s.active), lim.inFlight)
    requires k < |s.active| && HasWork(lim, s, TakeReady, k)
    ensures s.pool.ready[0] < |s.pool.workers|
    ensures var s' := Dispatch(s, lim.inFlight);
            && |s'.active| == |s.active|
            && (Sent(s'.active[k]) == Sent(s.active[k]) ==>
                  Wait(s'.cursor, k, |s.active|) < Wait(s.cursor, k, |s.active|))
  {
    hide SystemOk, HasWork, Select, Dispatch, Wait, HasDispatchable, Sent;
    SystemHasWorkers(net, lim, s);
    SelectTurn(lim, s, k);
    DispatchMovesCursor(s, lim.inFlight);
    if Select(Jobs(s.active), s.cursor, lim.inFlight).selected == Some(k) {
      ChosenSends(net, lim, s, k);
    }
  }

  lemma SystemHasWorkers(net: Net, lim: Limits, s: System)
    requires SystemOk(net, lim, s) && s.pool.ready != []
    ensures s.pool.ready[0] < |s.pool.workers|
  {
    hide RunOk, TicketsOk, PoolFits, Delivered, AbortedOk, IdsOk, RoomOk;
  }

  lemma StepTurn(net: Net, lim: Limits, s: System, step: Step, k: nat)
    requires SystemOk(net, lim, s) && P.TokensOk(s.pool) && Enabled(net, lim, s, step)
    requires k < |s.active| == |After(net, lim, s, step).active| && HasWork(lim, s, step, k)
    requires Sent(After(net, lim, s, step).active[k]) == Sent(s.active[k])
    ensures Wait(After(net, lim, s, step).cursor, k, |s.active|) + (if step.TakeReady? then 1 else 0)
            <= Wait(s.cursor, k, |s.active|)
  {
    hide Enabled, SystemOk, P.TokensOk, Wait, HasWork, Sent, Dispatch, HasDispatchable;
    if step.TakeReady? {
      TakesToken(net, lim, s);
      DispatchTurn(net, lim, s, k);
    } else {
      OtherStepsKeepCursor(net, lim, s, step);
    }
  }

  /**
   In every run, while nobody joins or leaves and job k has work of which none is
   sent, fewer pieces of work are sent than there are jobs.
   */
  lemma {:induction false} WorkWaitsItsTurn(net: Net, lim: Limits, states: seq<System>, steps: seq<Step>, m: nat, n: nat, k: nat)
    requires IsRun(net, lim, states, steps) && IsWaiting(lim, states, steps, m, n, k)
    ensures Dispatches(steps[m..n]) + Wait(states[n].cursor, k, |states[n].active|)
            <= Wait(states[m].cursor, k, |states[m].active|) < |states[m].active|
  {
    hide Enabled, SystemOk, P.TokensOk, Wait, HasWork, Sent, After;
    WaitIsProbe(states[m].cursor, k, |states[m].active|);
    if m < n {
      WorkWaitsItsTurn(net, lim, states, steps, m, n - 1, k);
      RunsAreOk(net, lim, states, steps, n - 1);
      assert steps[m..n][..n - m - 1] == steps[m..n - 1];
      assert states[n] == After(net, lim, states[n - 1], steps[n - 1]);
      StepTurn(net, lim, states[n - 1], steps[n - 1], k);
    }
  }

  lemma TakesToken(net: Net, lim: Limits, s: System)
    requires Enabled(net, lim, s, TakeReady)
    ensures s.pool.ready != [] && HasDispatchable(Jobs(s.active), lim.inFlight)
  {
  }
}
