/**
 Batch calls on a pool that an earlier, failed call has left work in
 (rkwhisper/src/parallel.rs).  All calls number their windows from 0 and use the
 same job id, so a call cannot tell leftover replies from its own.
 */
module BatchLeftovers {
  import opened Wrappers
  import opened Batch
  import Reorder
  import P = Pool

  // ------------------------------------------------------------ safe leftovers

  /** A leftover reply that does no harm: an error, the right answer, or beyond any index that can be released. */
  ghost predicate Harmless(net: Net, jobs: seq<WindowJob>, r: Reply) {
    r.Reply? ==> r.index > |jobs| || (r.index < |jobs| && r.transcript == net(jobs[r.index]))
  }

  ghost predicate StageHarmless(net: Net, jobs: seq<WindowJob>, st: P.Stage<WindowJob, Reply>) {
    match st
    case Queued(j) => Harmless(net, jobs, Reply(j.index, net(j)))
    case Running(j) => Harmless(net, jobs, Reply(j.index, net(j)))
    case Reporting(r) => Harmless(net, jobs, r)
    case _ => true
  }

  /** Every reply and every job in the pool is harmless to a call with these windows. */
  ghost predicate PoolHarmless(net: Net, jobs: seq<WindowJob>, p: BatchPool) {
    && (forall w :: 0 <= w < |p.workers| ==> StageHarmless(net, jobs, p.workers[w]))
    && (forall i :: 0 <= i < |p.results| ==> Harmless(net, jobs, p.results[i]))
  }

  ghost predicate CollectorAgrees(all: seq<Transcript>, c: Collector) {
    && c.next <= |all| && Reorder.Agrees(c.pending, all)
    && c.text == TextOf(all[..c.next])
    && c.segments == SegmentsOf(all[..c.next])
    && c.heard == SegmentsOf(all[..c.next])
  }

  ghost predicate CallOk(net: Net, jobs: seq<WindowJob>, s: System) {
    && P.TokensOk(s.pool) && PoolHarmless(net, jobs, s.pool)
    && (forall j <- s.left :: j in jobs)
    && (s.failed || CollectorAgrees(TranscriptsOf(net, jobs), s.collector))
  }

  lemma CollectedAgrees(all: seq<Transcript>, c: Collector, r: Reply)
    requires CollectorAgrees(all, c) && r.Reply?
    requires r.index > |all| || (r.index < |all| && r.transcript == all[r.index])
    ensures CollectorAgrees(all, Collected(c, r))
  {
    hide Reorder.Released, Reorder.Parked, TextOf, SegmentsOf;
    var pending := c.pending[r.index := r.transcript];
    Reorder.ReleaseAgrees(pending, c.next, all);
    PartsOfPrefix(all, c.next, c.next + |Reorder.Released(pending, c.next)|);
  }

  lemma SentIsHarmless(net: Net, jobs: seq<WindowJob>, p: BatchPool, j: WindowJob)
    requires Numbered(jobs) && P.TokensOk(p) && PoolHarmless(net, jobs, p) && p.ready != [] && j in jobs
    ensures p.ready[0] < |p.workers| && P.TokensOk(P.Sent(p, j)) && PoolHarmless(net, jobs, P.Sent(p, j))
  {
    P.SendKeepsTokens(p, j);
    hide P.TokensOk, Harmless;
    var p' := P.Sent(p, j);
    assert Harmless(net, jobs, Reply(j.index, net(j))) by { OwnIsHarmless(net, jobs, j); }
    forall w | 0 <= w < |p'.workers| ensures StageHarmless(net, jobs, p'.workers[w]) {
      assert w != p.ready[0] ==> StageHarmless(net, jobs, p.workers[w]);
    }
  }

  lemma OwnIsHarmless(net: Net, jobs: seq<WindowJob>, j: WindowJob)
    requires Numbered(jobs) && j in jobs
    ensures Harmless(net, jobs, Reply(j.index, net(j)))
  {
  }

  lemma MovedIsHarmless(net: Net, jobs: seq<WindowJob>, p: BatchPool, w: nat, move: P.Move<Reply>)
    requires P.TokensOk(p) && PoolHarmless(net, jobs, p) && P.CanMove(p, w, move, (j, r) => Answers(net, j, r))
    ensures P.TokensOk(P.Moved(p, w, move)) && PoolHarmless(net, jobs, P.Moved(p, w, move))
  {
    P.MoveKeepsTokens(p, w, move, (j, r) => Answers(net, j, r));
    hide P.TokensOk;
    var p' := P.Moved(p, w, move);
    assert StageHarmless(net, jobs, p.workers[w]);
    forall v | 0 <= v < |p'.workers| ensures StageHarmless(net, jobs, p'.workers[v]) {
      assert v != w ==> StageHarmless(net, jobs, p.workers[v]);
    }
  }

  lemma ReceivedIsHarmless(net: Net, jobs: seq<WindowJob>, p: BatchPool)
    requires P.TokensOk(p) && PoolHarmless(net, jobs, p) && p.results != []
    ensures P.TokensOk(P.Received(p)) && PoolHarmless(net, jobs, P.Received(p))
  {
  }

  lemma StepKeepsCallOk(net: Net, jobs: seq<WindowJob>, s: System, step: Step)
    requires Numbered(jobs) && CallOk(net, jobs, s) && Enabled(net, |jobs|, s, step)
    ensures CallOk(net, jobs, After(net, |jobs|, s, step))
  {
    hide CollectorAgrees, PoolHarmless, P.TokensOk, Collected, P.CanMove, P.Moved, Numbered;
    match step {
      case Dispatch => SentIsHarmless(net, jobs, s.pool, s.left[0]);
      case Collect =>
        ReceivedIsHarmless(net, jobs, s.pool);
        if s.pool.results[0].Reply? {
          HeadIsHarmless(net, jobs, s.pool);
          CollectedAgrees(TranscriptsOf(net, jobs), s.collector, s.pool.results[0]);
        }
      case Refuse(_) => ReceivedIsHarmless(net, jobs, s.pool);
      case WorkerMoves(w, move) => MovedIsHarmless(net, jobs, s.pool, w, move);
    }
  }

  lemma HeadIsHarmless(net: Net, jobs: seq<WindowJob>, p: BatchPool)
    requires PoolHarmless(net, jobs, p) && p.results != []
    ensures Harmless(net, jobs, p.results[0])
  {
  }

  /** A run of one call on a pool, up to where the call has returned a transcription. */
  ghost predicate Call(net: Net, jobs: seq<WindowJob>, pool: BatchPool, states: seq<System>, steps: seq<Step>) {
    IsRun(net, |jobs|, states, steps) && states[0] == Start(jobs, pool) && Returned(|jobs|, states[|steps|])
  }

  /** However such a call goes, what it returns is the sequential loop's. */
  ghost predicate AllCallsSequential(net: Net, jobs: seq<WindowJob>, pool: BatchPool) {
    forall states, steps :: Call(net, jobs, pool, states, steps) ==> Sequential(net, jobs, states[|steps|])
  }

  lemma {:induction false} CallsAreOk(net: Net, jobs: seq<WindowJob>, states: seq<System>, steps: seq<Step>, n: nat)
    requires Numbered(jobs) && IsRun(net, |jobs|, states, steps) && CallOk(net, jobs, states[0]) && n < |states|
    ensures CallOk(net, jobs, states[n])
  {
    hide CallOk, Enabled, After, Numbered, P.TokensOk;
    if n > 0 {
      CallsAreOk(net, jobs, states, steps, n - 1);
      StepKeepsCallOk(net, jobs, states[n - 1], steps[n - 1]);
    }
  }

  /** On any pool whose leftovers are harmless, every call that returns is sequential. */
  lemma HarmlessPoolIsSafe(net: Net, jobs: seq<WindowJob>, pool: BatchPool)
    requires Numbered(jobs) && P.TokensOk(pool) && PoolHarmless(net, jobs, pool)
    ensures AllCallsSequential(net, jobs, pool)
  {
    var all := TranscriptsOf(net, jobs);
    assert all[..0] == [] && all[..|all|] == all;
    forall states, steps | Call(net, jobs, pool, states, steps) ensures Sequential(net, jobs, states[|steps|]) {
      assert CallOk(net, jobs, states[0]);
      hide IsRun;
      CallsAreOk(net, jobs, states, steps, |steps|);
    }
  }

  /** So a failed call may be repeated with the same windows: what it left behind is harmless to itself. */
  lemma RetryIsSafe(net: Net, jobs: seq<WindowJob>, states: seq<System>, steps: seq<Step>, n: nat)
    requires Numbered(jobs) && IsRun(net, |jobs|, states, steps) && Starts(net, jobs, states[0]) && n < |states|
    ensures AllCallsSequential(net, jobs, states[n].pool)
  {
    RunsAreOk(net, jobs, states, steps, n);
    var p := states[n].pool;
    forall w | 0 <= w < |p.workers| ensures StageHarmless(net, jobs, p.workers[w]) {
      assert StageFits(net, jobs, p.workers[w]);
    }
    assert PoolHarmless(net, jobs, p);
    hide IsRun, PoolFits, PoolHarmless, Starts;
    HarmlessPoolIsSafe(net, jobs, p);
  }

  // --------------------------------------------------------- harmful leftovers

  /** The parts a collector ends with that has taken transcript t for window k first. */
  function Mixed(all: seq<Transcript>, k: nat, t: Transcript): seq<Transcript>
    requires k <= |all|
  {
    if k < |all| then all[k := t] else all + [t]
  }

  /** Such a collector once the first i windows' own replies have come, in order; window k's own comes too late. */
  function Mid(all: seq<Transcript>, k: nat, t: Transcript, i: nat): Collector
    requires k <= |all| && i <= |all|
  {
    var next := if i == k then k + 1 else i;
    var parts := Mixed(all, k, t)[..next];
    Collector(if i < k then map[k := t] else if i == k then map[] else map[k := all[k]],
              next, TextOf(parts), SegmentsOf(parts), SegmentsOf(parts))
  }

  /** What is released extends the parts. */
  lemma Released(parts: seq<Transcript>, a: nat, b: nat, c: Collector, r: Reply)
    requires a <= b <= |parts| && r.Reply? && c.next == a
    requires c.text == TextOf(parts[..a]) && c.segments == c.heard == SegmentsOf(parts[..a])
    requires Reorder.Released(c.pending[r.index := r.transcript], a) == parts[a..b]
    ensures Collected(c, r) == Collector(Reorder.Parked(c.pending[r.index := r.transcript], a), b,
                                         TextOf(parts[..b]), SegmentsOf(parts[..b]), SegmentsOf(parts[..b]))
  {
    hide Reorder.Released, Reorder.Parked, TextOf, SegmentsOf;
    PartsOfPrefix(parts, a, b);
  }

  lemma MidStart(all: seq<Transcript>, k: nat, t: Transcript)
    requires k <= |all|
    ensures Collected(NewCollector(), Reply(k, t)) == Mid(all, k, t, 0)
  {
    var parts := Mixed(all, k, t);
    var pending := map[k := t];
    assert NewCollector().pending[k := t] == pending;
    assert parts[..0] == [];
    if k == 0 {
      Reorder.ReleaseOne(pending, 0);
      assert pending - {0} == map[];
      Reorder.ReleaseNone<Transcript>(map[], 1);
      assert parts[0..1] == [t];
      Released(parts, 0, 1, NewCollector(), Reply(k, t));
    } else {
      Reorder.ReleaseNone(pending, 0);
      assert parts[0..0] == [];
      Released(parts, 0, 0, NewCollector(), Reply(k, t));
    }
  }

  lemma MidNext(all: seq<Transcript>, k: nat, t: Transcript, i: nat)
    requires k <= |all| && i < |all|
    ensures Collected(Mid(all, k, t, i), Reply(i, all[i])) == Mid(all, k, t, i + 1)
  {
    hide TextOf, SegmentsOf, Collected;
    var parts, c := Mixed(all, k, t), Mid(all, k, t, i);
    var pending := c.pending[i := all[i]];
    if i == k {
      Reorder.ReleaseNone(pending, k + 1);
      assert parts[k + 1..k + 1] == [];
      Released(parts, k + 1, k + 1, c, Reply(i, all[i]));
    } else {
      Reorder.ReleaseOne(pending, i);
      assert pending - {i} == c.pending;
      if i + 1 == k {
        Reorder.ReleaseOne(c.pending, k);
        assert c.pending - {k} == map[];
        Reorder.ReleaseNone<Transcript>(map[], k + 1);
        assert parts[i..k + 1] == [all[i], t];
        Released(parts, i, k + 1, c, Reply(i, all[i]));
      } else {
        Reorder.ReleaseNone(c.pending, i + 1);
        assert parts[i..i + 1] == [all[i]];
        Released(parts, i, i + 1, c, Reply(i, all[i]));
      }
    }
  }

  lemma ReceiveKeepsTokens(p: BatchPool)
    requires P.TokensOk(p) && p.results != []
    ensures P.TokensOk(P.Received(p))
  {
  }

  lemma OneMore(net: Net, total: nat, states: seq<System>, steps: seq<Step>, step: Step)
    returns (longer: seq<System>, more: seq<Step>)
    requires IsRun(net, total, states, steps)
    requires P.TokensOk(states[|steps|].pool) && Enabled(net, total, states[|steps|], step)
    ensures IsRun(net, total, longer, more) && |longer| == |more| + 1 && longer[0] == states[0]
    ensures longer[|more|] == After(net, total, states[|steps|], step)
  {
    hide Enabled, After, P.TokensOk;
    longer, more := states + [After(net, total, states[|steps|], step)], steps + [step];
  }

  /** Some worker can be handed a window without first reporting an older one. */
  predicate HasFreeWorker(p: BatchPool) {
    p.ready != [] || exists w: nat :: w < |p.workers| && p.workers[w].Announcing?
  }

  ghost predicate Free(s: System, left: seq<WindowJob>, c: Collector) {
    && P.TokensOk(s.pool) && s.pool.results == [] && HasFreeWorker(s.pool)
    && !s.failed && s.left == left && s.collector == c
  }

  /** The worker holds this reply, or the job whose answer it is. */
  ghost predicate WillReport(net: Net, st: P.Stage<WindowJob, Reply>, r: Reply) {
    match st
    case Queued(j) => r == Reply(j.index, net(j))
    case Running(j) => r == Reply(j.index, net(j))
    case Reporting(res) => r == res
    case _ => false
  }

  /** Worker w alone goes on until its reply is in the empty channel, and the collector takes it. */
  lemma {:induction false} ReportAndCollect(net: Net, total: nat, states: seq<System>, steps: seq<Step>, w: nat, r: Reply)
    returns (longer: seq<System>, more: seq<Step>)
    requires IsRun(net, total, states, steps) && r.Reply?
    requires var s := states[|steps|];
             && P.TokensOk(s.pool) && s.pool.results == [] && !s.failed && s.collector.next < total
             && w < |s.pool.workers| && WillReport(net, s.pool.workers[w], r)
    ensures IsRun(net, total, longer, more) && |longer| == |more| + 1 && longer[0] == states[0]
    ensures var s := states[|steps|]; Free(longer[|more|], s.left, Collected(s.collector, r))
    decreases P.StageCost(states[|steps|].pool.workers[w])
  {
    var s := states[|steps|];
    hide IsRun, Collected, P.TokensOk;
    match s.pool.workers[w] {
      case Queued(j) =>
        MoveGoes(net, s.pool, w, P.Pick);
        longer, more := OneMore(net, total, states, steps, WorkerMoves(w, P.Pick));
        longer, more := ReportAndCollect(net, total, longer, more, w, r);
      case Running(j) =>
        MoveGoes(net, s.pool, w, P.Complete(r));
        longer, more := OneMore(net, total, states, steps, WorkerMoves(w, P.Complete(r)));
        longer, more := ReportAndCollect(net, total, longer, more, w, r);
      case Reporting(_) =>
        MoveGoes(net, s.pool, w, P.Report);
        longer, more := OneMore(net, total, states, steps, WorkerMoves(w, P.Report));
        var p := P.Moved(s.pool, w, P.Report);
        assert p.results == [r] && p.workers[w].Announcing?;
        ReceiveKeepsTokens(p);
        longer, more := OneMore(net, total, longer, more, Collect);
        assert longer[|more|].pool.workers[w].Announcing?;
    }
  }

  lemma MoveGoes(net: Net, p: BatchPool, w: nat, move: P.Move<Reply>)
    requires P.TokensOk(p) && P.CanMove(p, w, move, (j, r) => Answers(net, j, r))
    ensures P.TokensOk(P.Moved(p, w, move))
  {
    P.MoveKeepsTokens(p, w, move, (j, r) => Answers(net, j, r));
  }

  /** A free worker announces itself if no token is there. */
  lemma GetToken(net: Net, total: nat, states: seq<System>, steps: seq<Step>) returns (longer: seq<System>, more: seq<Step>)
    requires IsRun(net, total, states, steps)
    requires Free(states[|steps|], states[|steps|].left, states[|steps|].collector)
    ensures IsRun(net, total, longer, more) && |longer| == |more| + 1 && longer[0] == states[0]
    ensures Free(longer[|more|], states[|steps|].left, states[|steps|].collector) && longer[|more|].pool.ready != []
  {
    var s := states[|steps|];
    longer, more := states, steps;
    hide IsRun, P.TokensOk;
    if s.pool.ready == [] {
      var w: nat :| w < |s.pool.workers| && s.pool.workers[w].Announcing?;
      MoveGoes(net, s.pool, w, P.Announce);
      longer, more := OneMore(net, total, states, steps, WorkerMoves(w, P.Announce));
    }
  }

  /** The next window goes to the worker whose token is oldest. */
  lemma HandOut(net: Net, total: nat, states: seq<System>, steps: seq<Step>)
    returns (longer: seq<System>, more: seq<Step>, w: nat)
    requires IsRun(net, total, states, steps) && states[|steps|].left != []
    requires Free(states[|steps|], states[|steps|].left, states[|steps|].collector)
    ensures IsRun(net, total, longer, more) && |longer| == |more| + 1 && longer[0] == states[0]
    ensures var s, s' := states[|steps|], longer[|more|];
            && P.TokensOk(s'.pool) && s'.pool.results == [] && !s'.failed
            && s'.left == s.left[1..] && s'.collector == s.collector
            && w < |s'.pool.workers| && s'.pool.workers[w] == P.Queued(s.left[0])
  {
    longer, more := GetToken(net, total, states, steps);
    var s := longer[|more|];
    hide IsRun, P.TokensOk;
    w := s.pool.ready[0];
    P.SendKeepsTokens(s.pool, s.left[0]);
    longer, more := OneMore(net, total, longer, more, Dispatch);
  }

  lemma MidEnd(all: seq<Transcript>, k: nat, t: Transcript, i: nat)
    requires k <= |all| && i <= |all|
    ensures Mid(all, k, t, i).next >= |all| <==> i == |all| || (i == k == |all| - 1)
    ensures Mid(all, k, t, i).next >= |all| ==>
              var c, parts := Mid(all, k, t, i), Mixed(all, k, t);
              c.text == TextOf(parts) && c.segments == c.heard == SegmentsOf(parts)
  {
    hide TextOf, SegmentsOf;
    var parts := Mixed(all, k, t);
    assert parts[..|parts|] == parts;
  }

  /** The call's own windows, one after the other through whichever worker is free; the others stall. */
  lemma {:induction false} GoOn(net: Net, jobs: seq<WindowJob>, k: nat, t: Transcript, i: nat,
                                states: seq<System>, steps: seq<Step>)
    returns (longer: seq<System>, more: seq<Step>)
    requires Numbered(jobs) && k <= |jobs| && i <= |jobs| && IsRun(net, |jobs|, states, steps)
    requires Free(states[|steps|], jobs[i..], Mid(TranscriptsOf(net, jobs), k, t, i))
    ensures IsRun(net, |jobs|, longer, more) && |longer| == |more| + 1 && longer[0] == states[0]
    ensures var s, parts := longer[|more|], Mixed(TranscriptsOf(net, jobs), k, t);
            && Returned(|jobs|, s)
            && s.collector.text == TextOf(parts) && s.collector.segments == s.collector.heard == SegmentsOf(parts)
    decreases |jobs| - i
  {
    var all, s := TranscriptsOf(net, jobs), states[|steps|];
    MidEnd(all, k, t, i);
    hide IsRun, Collected, TextOf, SegmentsOf, Mid, Mixed, P.TokensOk, HasFreeWorker;
    if i == |jobs| {
      longer, more := states, steps;
    } else {
      assert s.left[0] == jobs[i] && jobs[i..][1..] == jobs[i + 1..];
      var w: nat;
      longer, more, w := HandOut(net, |jobs|, states, steps);
      if s.collector.next < |jobs| {
        longer, more := ReportAndCollect(net, |jobs|, longer, more, w, Reply(i, all[i]));
        MidNext(all, k, t, i);
        longer, more := GoOn(net, jobs, k, t, i + 1, longer, more);
      }
    }
  }

  /** Both ends cancel. */
  lemma Cancel<T>(a: seq<T>, x: seq<T>, y: seq<T>, b: seq<T>)
    requires a + x + b == a + y + b
    ensures x == y
  {
    var whole := a + x + b;
    assert |x| == |y|;
    assert x == whole[|a|..|a| + |x|] == y;
  }

  lemma SpaceCancels(a: string, b: string)
    requires a + " " == b + " "
    ensures a == b
  {
    assert a == (a + " ")[..|a|] && b == (b + " ")[..|b|];
  }

  lemma AppendAssociates<T>(a: seq<T>, b: seq<T>, c: seq<T>)
    ensures a + b + c == a + (b + c)
  {
  }

  lemma TextUpTo(parts: seq<Transcript>, k: nat)
    requires k < |parts|
    ensures TextOf(parts[..k + 1]) == TextOf(parts[..k]) + (parts[k].text + " ")
    ensures SegmentsOf(parts[..k + 1]) == SegmentsOf(parts[..k]) + parts[k].segments
  {
    hide TextOf, SegmentsOf;
    assert parts[..k + 1] == parts[..k] + [parts[k]];
    PartsAppend(parts[..k], parts[k]);
    AppendAssociates(TextOf(parts[..k]), parts[k].text, " ");
  }

  lemma TextAround(parts: seq<Transcript>, k: nat)
    requires k < |parts|
    ensures TextOf(parts) == TextOf(parts[..k]) + (parts[k].text + " ") + TextOf(parts[k + 1..])
    ensures SegmentsOf(parts) == SegmentsOf(parts[..k]) + parts[k].segments + SegmentsOf(parts[k + 1..])
  {
    hide TextOf, SegmentsOf;
    TextUpTo(parts, k);
    PartsOfPrefix(parts, k + 1, |parts|);
    assert parts[..|parts|] == parts && parts[k + 1..|parts|] == parts[k + 1..];
  }

  /** A wrong part is always seen, in the text or in the segments. */
  lemma MixedDiffers(all: seq<Transcript>, k: nat, t: Transcript)
    requires k <= |all| && (k < |all| ==> t != all[k])
    ensures TextOf(Mixed(all, k, t)) != TextOf(all) || SegmentsOf(Mixed(all, k, t)) != SegmentsOf(all)
  {
    hide TextOf, SegmentsOf;
    var parts := Mixed(all, k, t);
    if k == |all| {
      PartsAppend(all, t);
    } else {
      TextAround(all, k);
      TextAround(parts, k);
      assert parts[..k] == all[..k] && parts[k + 1..] == all[k + 1..];
      if TextOf(parts) == TextOf(all) && SegmentsOf(parts) == SegmentsOf(all) {
        Cancel(TextOf(all[..k]), t.text + " ", all[k].text + " ", TextOf(all[k + 1..]));
        SpaceCancels(t.text, all[k].text);
        Cancel(SegmentsOf(all[..k]), t.segments, all[k].segments, SegmentsOf(all[k + 1..]));
        assert false;
      }
    }
  }

  /** Once a call's collector has taken a reply that is not harmless first, and some worker is free, the call can go wrong. */
  lemma HarmIsDone(net: Net, jobs: seq<WindowJob>, pool: BatchPool, r: Reply, states: seq<System>, steps: seq<Step>)
    requires Numbered(jobs) && !Harmless(net, jobs, r)
    requires IsRun(net, |jobs|, states, steps) && states[0] == Start(jobs, pool)
    requires Free(states[|steps|], jobs, Collected(NewCollector(), r))
    ensures !AllCallsSequential(net, jobs, pool)
  {
    var all := TranscriptsOf(net, jobs);
    MidStart(all, r.index, r.transcript);
    MixedDiffers(all, r.index, r.transcript);
    assert jobs[0..] == jobs;
    hide IsRun, TextOf, SegmentsOf, Collected, Mid, Mixed;
    var longer, more := GoOn(net, jobs, r.index, r.transcript, 0, states, steps);
    assert Call(net, jobs, pool, longer, more);
  }

  lemma NoSteps(net: Net, total: nat, s: System)
    ensures IsRun(net, total, [s], [])
  {
  }

  /** A harmful reply that waits alone in the channel is taken first, whatever the workers hold, if one of them is free. */
  lemma LeftoverIsTaken(net: Net, jobs: seq<WindowJob>, pool: BatchPool)
    requires Numbered(jobs) && jobs != [] && P.TokensOk(pool) && HasFreeWorker(pool)
    requires |pool.results| == 1 && !Harmless(net, jobs, pool.results[0])
    ensures !AllCallsSequential(net, jobs, pool)
  {
    hide IsRun, Collected, P.TokensOk, Harmless;
    var s, r := Start(jobs, pool), pool.results[0];
    assert r.Reply? by { HarmIsReply(net, jobs, r); }
    NoSteps(net, |jobs|, s);
    ReceiveKeepsTokens(pool);
    var states, steps := OneMore(net, |jobs|, [s], [], Collect);
    HarmIsDone(net, jobs, pool, r, states, steps);
  }

  lemma HarmIsReply(net: Net, jobs: seq<WindowJob>, r: Reply)
    requires !Harmless(net, jobs, r)
    ensures r.Reply? && r.index <= |jobs|
  {
  }

  /** A worker that holds something harmful can report before the others, and the collector takes that first. */
  lemma HeldWorkIsTaken(net: Net, jobs: seq<WindowJob>, pool: BatchPool, w: nat)
    requires Numbered(jobs) && jobs != [] && P.TokensOk(pool) && pool.results == []
    requires w < |pool.workers| && !StageHarmless(net, jobs, pool.workers[w])
    ensures !AllCallsSequential(net, jobs, pool)
  {
    var s := Start(jobs, pool);
    var r := match pool.workers[w]
             case Queued(j) => Reply(j.index, net(j))
             case Running(j) => Reply(j.index, net(j))
             case Reporting(res) => res;
    assert !Harmless(net, jobs, r) && WillReport(net, pool.workers[w], r);
    HarmIsReply(net, jobs, r);
    hide IsRun, Collected, P.TokensOk, Harmless;
    NoSteps(net, |jobs|, s);
    var states, steps := ReportAndCollect(net, |jobs|, [s], [], w, r);
    HarmIsDone(net, jobs, pool, r, states, steps);
  }

  /**
   While no reply waits in the channel, whatever the workers hold, a call is sure to
   be sequential if and only if everything they hold is harmless.
   */
  lemma HeldWorkDecides(net: Net, jobs: seq<WindowJob>, pool: BatchPool)
    requires Numbered(jobs) && jobs != [] && P.TokensOk(pool) && pool.results == []
    ensures AllCallsSequential(net, jobs, pool) <==> PoolHarmless(net, jobs, pool)
  {
    hide StageHarmless, AllCallsSequential, P.TokensOk;
    if PoolHarmless(net, jobs, pool) {
      HarmlessPoolIsSafe(net, jobs, pool);
    } else {
      var w: nat :| w < |pool.workers| && !StageHarmless(net, jobs, pool.workers[w]);
      HeldWorkIsTaken(net, jobs, pool, w);
    }
  }

  /** With one reply in the channel, a free worker and harmless work elsewhere, that reply decides. */
  lemma OneLeftoverDecides(net: Net, jobs: seq<WindowJob>, pool: BatchPool)
    requires Numbered(jobs) && jobs != [] && P.TokensOk(pool) && HasFreeWorker(pool) && |pool.results| == 1
    requires PoolHarmless(net, jobs, pool.(results := []))
    ensures AllCallsSequential(net, jobs, pool) <==> Harmless(net, jobs, pool.results[0])
  {
    hide Harmless, AllCallsSequential, P.TokensOk, HasFreeWorker;
    if Harmless(net, jobs, pool.results[0]) {
      assert pool.workers == pool.(results := []).workers;
      HarmlessPoolIsSafe(net, jobs, pool);
    } else {
      LeftoverIsTaken(net, jobs, pool);
    }
  }

  /**
   With several replies in the channel their order decides as well, so for such
   pools the condition of `HarmlessPoolIsSafe` is not necessary: behind an error
   even a harmful reply is never taken, because the call has failed by then.
   */
  lemma ErrorShieldsFromLeftover(net: Net, jobs: seq<WindowJob>, j: WindowJob, r: Reply)
    requires jobs != []
    ensures var pool := P.FreshPool<WindowJob, Reply>().(results := [Failed(j), r]);
            AllCallsSequential(net, jobs, pool) && (PoolHarmless(net, jobs, pool) <==> Harmless(net, jobs, r))
  {
    var pool := P.FreshPool<WindowJob, Reply>().(results := [Failed(j), r]);
    forall states, steps ensures !Call(net, jobs, pool, states, steps) {
      if Call(net, jobs, pool, states, steps) {
        NothingTaken(net, |jobs|, states, steps, |steps|);
      }
    }
    assert pool.results[0] == Failed(j) && pool.results[1] == r;
  }

  lemma {:induction false} NothingTaken(net: Net, total: nat, states: seq<System>, steps: seq<Step>, n: nat)
    requires IsRun(net, total, states, steps) && n < |states| && 0 < total
    requires states[0].pool.results != [] && states[0].pool.results[0].Failed? && states[0].collector == NewCollector()
    ensures var s := states[n];
            s.failed || (s.collector == NewCollector() && s.pool.results != [] && s.pool.results[0].Failed?)
  {
    hide Collected;
    if n > 0 {
      NothingTaken(net, total, states, steps, n - 1);
      assert states[n] == After(net, total, states[n - 1], steps[n - 1]);
    }
  }

  /** A network whose two windows say "a b" and "c". */
  function Words(j: WindowJob): Transcript { if j.index == 0 then Transcript("a b", []) else Transcript("c", []) }

  /** Two replies an earlier call has left: "a" and "b c". */
  function TwoWrongs(): seq<Reply> { [Reply(0, Transcript("a", [])), Reply(1, Transcript("b c", []))] }

  /** The reply whose turn it is leaves at once. */
  lemma InTurn(c: Collector, t: Transcript)
    requires c.pending == map[] && c.heard == c.segments
    ensures Collected(c, Reply(c.next, t))
         == Collector(map[], c.next + 1, c.text + (t.text + " "), c.segments + t.segments, c.segments + t.segments)
  {
    var pending := map[c.next := t];
    assert c.pending[c.next := t] == pending && pending - {c.next} == map[];
    Reorder.ReleaseOne(pending, c.next);
    Reorder.ReleaseNone<Transcript>(map[], c.next + 1);
    NoParts();
    PartsAppend([], t);
    hide TextOf, SegmentsOf, Reorder.Released, Reorder.Parked;
    assert [] + [t] == [t] && [t] + [] == [t];
    assert "" + t.text + " " == t.text + " " && [] + t.segments == t.segments;
  }

  lemma TwoWrongsCollected()
    ensures Collected(Collected(NewCollector(), TwoWrongs()[0]), TwoWrongs()[1]) == Collector(map[], 2, "a b c ", [], [])
    ensures Collected(NewCollector(), TwoWrongs()[0]).next == 1
  {
    hide Collected;
    InTurn(NewCollector(), TwoWrongs()[0].transcript);
    InTurn(Collected(NewCollector(), TwoWrongs()[0]), TwoWrongs()[1].transcript);
  }

  lemma {:induction false} TwoWrongsTaken(jobs: seq<WindowJob>, states: seq<System>, steps: seq<Step>, n: nat)
    requires |jobs| == 2 && IsRun(Words, 2, states, steps) && n < |states|
    requires TwoWrongs() <= states[0].pool.results && states[0].collector == NewCollector()
    ensures var s, q, c1 := states[n], TwoWrongs(), Collected(NewCollector(), TwoWrongs()[0]);
            || s.failed
            || (s.collector == NewCollector() && q <= s.pool.results)
            || (s.collector == c1 && s.pool.results != [] && s.pool.results[0] == q[1])
            || s.collector == Collected(c1, q[1])
  {
    TwoWrongsCollected();
    hide Collected;
    if n > 0 {
      TwoWrongsTaken(jobs, states, steps, n - 1);
      assert states[n] == After(Words, 2, states[n - 1], steps[n - 1]);
    }
  }

  /**
   Nor does every reply have to be harmless on its own: replies "a" and "b c" waiting
   for windows that say "a b" and "c" are both wrong, and no call shows it.
   */
  lemma TwoWrongsMayAgree(jobs: seq<WindowJob>)
    requires Numbered(jobs) && |jobs| == 2
    ensures var pool := P.FreshPool<WindowJob, Reply>().(results := TwoWrongs());
            AllCallsSequential(Words, jobs, pool)
    ensures !Harmless(Words, jobs, TwoWrongs()[0]) && !Harmless(Words, jobs, TwoWrongs()[1])
  {
    var pool := P.FreshPool<WindowJob, Reply>().(results := TwoWrongs());
    var all := TranscriptsOf(Words, jobs);
    TwoWrongsCollected();
    assert all == [Transcript("a b", []), Transcript("c", [])];
    assert all[..1] == [all[0]] && all[..1][..0] == [];
    assert TextOf(all[..1]) == "a b " && SegmentsOf(all[..1]) == [];
    assert TextOf(all) == "a b c " && SegmentsOf(all) == [];
    hide Collected, TextOf, SegmentsOf, IsRun;
    forall states, steps | Call(Words, jobs, pool, states, steps) ensures Sequential(Words, jobs, states[|steps|]) {
      TwoWrongsTaken(jobs, states, steps, |steps|);
    }
  }

  // ------------------------------------------------------ calls never hang

  /**
   Work handed out and not collected, windows to hand out and windows collected are
   at most what the call started with; a window that was handed out and has not come
   back, as its own reply or a leftover with its index, is in the pool.
   */
  ghost predicate Accounted(jobs: seq<WindowJob>, work0: nat, s: System) {
    var c := s.collector;
    && P.TokensOk(s.pool) && |s.left| <= |jobs| && s.left == jobs[|jobs| - |s.left|..]
    && (!s.failed ==>
          && |Work(s.pool)| + |s.left| + c.next + |c.pending| <= work0 + |jobs|
          && c.next !in c.pending
          && forall k: nat :: Out(|jobs| - |s.left|, c, k) ==> k in Work(s.pool))
  }

  lemma CollectIsAccounted(jobs: seq<WindowJob>, work0: nat, s: System)
    requires Accounted(jobs, work0, s) && !s.failed && s.pool.results != [] && s.pool.results[0].Reply?
    ensures Accounted(jobs, work0, s.(pool := P.Received(s.pool), collector := Collected(s.collector, s.pool.results[0])))
  {
    P.ReceiveRemovesWork(JobIndex, ReplyIndex, s.pool);
    ReceiveKeepsTokens(s.pool);
    hide Collected, P.TokensOk, Work, Out;
    ReplyAccounted(s.collector, s.pool.results[0], |jobs| - |s.left|, Work(s.pool), Work(P.Received(s.pool)));
  }

  lemma ReplyAccounted(c: Collector, r: Reply, sent: nat, work: multiset<nat>, work': multiset<nat>)
    requires r.Reply? && work == work' + multiset{r.index}
    requires forall k: nat :: Out(sent, c, k) ==> k in work
    ensures var c' := Collected(c, r);
            && c'.next + |c'.pending| <= c.next + |c.pending| + 1 && c'.next !in c'.pending
            && forall k: nat :: Out(sent, c', k) ==> k in work'
  {
    var c', pending := Collected(c, r), c.pending[r.index := r.transcript];
    Reorder.ReleaseMeans(pending, c.next);
    ParkedSize(c.pending, r.index, r.transcript);
    hide Reorder.Released, Reorder.Parked, TextOf, SegmentsOf;
    forall k: nat | Out(sent, c', k) ensures k in work' {
      assert k !in pending && Out(sent, c, k);
      assert work[k] == work'[k];
    }
  }

  lemma ParkedSize<T>(pending: map<nat, T>, k: nat, v: T)
    ensures |pending[k := v]| <= |pending| + 1
  {
    if k in pending {
      assert pending[k := v].Keys == pending.Keys;
    } else {
      assert pending[k := v].Keys == pending.Keys + {k};
    }
  }

  lemma DispatchIsAccounted(jobs: seq<WindowJob>, work0: nat, s: System)
    requires Numbered(jobs) && Accounted(jobs, work0, s) && !s.failed && s.left != [] && s.pool.ready != []
    ensures s.pool.ready[0] < |s.pool.workers|
    ensures Accounted(jobs, work0, s.(left := s.left[1..], pool := P.Sent(s.pool, s.left[0])))
  {
    P.SendKeepsTokens(s.pool, s.left[0]);
    P.SendAddsWork(JobIndex, ReplyIndex, s.pool, s.left[0]);
    hide P.TokensOk, Work;
    var sent := |jobs| - |s.left|;
    forall k: nat | Out(sent + 1, s.collector, k) ensures k in Work(P.Sent(s.pool, s.left[0])) {
      assert k == sent || Out(sent, s.collector, k);
    }
  }

  lemma StepIsAccounted(net: Net, jobs: seq<WindowJob>, work0: nat, s: System, step: Step)
    requires Numbered(jobs) && Accounted(jobs, work0, s) && Enabled(net, |jobs|, s, step)
    ensures Accounted(jobs, work0, After(net, |jobs|, s, step))
  {
    hide Numbered, Collected, P.Moved, P.CanMove, P.TokensOk, Work, Out;
    match step {
      case Dispatch => DispatchIsAccounted(jobs, work0, s);
      case Collect =>
        ReceiveKeepsTokens(s.pool);
        if s.pool.results[0].Reply? {
          CollectIsAccounted(jobs, work0, s);
        }
      case Refuse(_) => ReceiveKeepsTokens(s.pool);
      case WorkerMoves(w, move) =>
        P.MoveKeepsTokens(s.pool, w, move, (j, r) => Answers(net, j, r));
        MovedWork(net, s.pool, w, move);
    }
  }

  lemma {:induction false} CallsAreAccounted(net: Net, jobs: seq<WindowJob>, states: seq<System>, steps: seq<Step>, n: nat)
    requires Numbered(jobs) && IsRun(net, |jobs|, states, steps) && n < |states|
    requires states[0] == Start(jobs, states[0].pool) && P.TokensOk(states[0].pool)
    ensures Accounted(jobs, |Work(states[0].pool)|, states[n])
  {
    hide Enabled, After, Numbered, P.TokensOk, Work;
    if n > 0 {
      hide Accounted;
      CallsAreAccounted(net, jobs, states, steps, n - 1);
      StepIsAccounted(net, jobs, |Work(states[0].pool)|, states[n - 1], steps[n - 1]);
    }
  }

  /** Three workers and a channel for three results hold at most six pieces of work, and all six when nobody can move. */
  lemma WorkFits(p: BatchPool)
    requires P.TokensOk(p)
    ensures |Work(p)| <= 2 * P.NPU_WORKERS
    ensures |p.results| == P.NPU_WORKERS && (forall w :: 0 <= w < |p.workers| ==> p.workers[w].Reporting?) ==>
              |Work(p)| == 2 * P.NPU_WORKERS
  {
    P.WorkerWorkSize(JobIndex, ReplyIndex, p.workers);
    P.ResultWorkSize(ReplyIndex, p.results);
    if forall w :: 0 <= w < |p.workers| ==> p.workers[w].Reporting? {
      P.BusyWorkersHoldWork(JobIndex, ReplyIndex, p.workers);
    }
  }

  /** When all windows have come out but some are still to be handed out, a worker has room to report. */
  lemma RoomIsLeft(net: Net, jobs: seq<WindowJob>, work0: nat, s: System) returns (step: Step)
    requires Accounted(jobs, work0, s) && !s.failed && work0 <= 2 * P.NPU_WORKERS
    requires s.collector.next >= |jobs| && s.left != [] && s.pool.ready == []
    ensures Enabled(net, |jobs|, s, step)
  {
    WorkFits(s.pool);
    hide Work;
    var w: nat :| w < |s.pool.workers| && (s.pool.workers[w].Reporting? ==> |s.pool.results| < P.NPU_WORKERS);
    step := WorkerCanMove(net, |jobs|, s, w);
  }

  /**
   A call on any pool, however many replies and jobs earlier calls left there, never
   hangs: until it has failed or returned, some step is enabled.
   */
  lemma CallsNeverHang(net: Net, jobs: seq<WindowJob>, states: seq<System>, steps: seq<Step>, n: nat) returns (step: Step)
    requires Numbered(jobs) && IsRun(net, |jobs|, states, steps) && n < |states|
    requires states[0] == Start(jobs, states[0].pool) && P.TokensOk(states[0].pool)
    requires !states[n].failed && !Returned(|jobs|, states[n])
    ensures Enabled(net, |jobs|, states[n], step)
  {
    CallsAreAccounted(net, jobs, states, steps, n);
    WorkFits(states[0].pool);
    hide IsRun, Work;
    var s := states[n];
    if s.collector.next < |jobs| && s.pool.results != [] {
      step := Collect;
    } else if s.left != [] && s.pool.ready != [] {
      step := Dispatch;
    } else if s.collector.next >= |jobs| {
      step := RoomIsLeft(net, jobs, |Work(states[0].pool)|, s);
    } else if s.left != [] {
      step := WorkerCanMove(net, |jobs|, s, 0);
    } else {
      assert Out(|jobs|, s.collector, s.collector.next);
      P.WorkIsSomewhere(JobIndex, ReplyIndex, s.pool, s.collector.next);
      var w :| P.HeldBy(JobIndex, ReplyIndex, s.pool, s.collector.next, w);
      step := WorkerCanMove(net, |jobs|, s, w);
    }
  }

  /** And it takes boundedly many steps. */
  lemma {:induction false} CallsEnd(net: Net, total: nat, states: seq<System>, steps: seq<Step>, n: nat)
    requires IsRun(net, total, states, steps) && n < |states|
    ensures n + Potential(states[n]) <= Potential(states[0])
  {
    hide Enabled, After, Potential, P.TokensOk;
    if n > 0 {
      CallsEnd(net, total, states, steps, n - 1);
      StepFalls(net, total, states[n - 1], steps[n - 1]);
    }
  }
}
