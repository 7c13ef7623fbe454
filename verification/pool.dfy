/**
 The worker pool (rkwhisper/src/parallel.rs): NPU workers that announce
 themselves with a Ready token, take one job from a channel of capacity one,
 run it, report the result, and announce themselves again.

 J is the type of jobs and R the type of results.  A ticket function names the
 piece of work a job or a result stands for, so that work can be counted
 wherever it currently is.
 */
module Pool {
  import opened Wrappers

  const NPU_WORKERS: nat := 3

  /** Where a worker is in its loop. */
  datatype Stage<J, R> =
    | Announcing
    | Waiting
    | Queued(job: J)
    | Running(job: J)
    | Reporting(result: R)

  datatype Pool<J, R> = Pool(workers: seq<Stage<J, R>>, ready: seq<nat>, results: seq<R>)

  datatype Move<R> = Announce | Pick | Complete(result: R) | Report

  function FreshPool<J, R>(): Pool<J, R> {
    Pool(seq(NPU_WORKERS, i => Announcing), [], [])
  }

  /** The channel sends block while full; `answers` says which results the network may give for a job. */
  ghost predicate CanMove<J(!new), R(!new)>(p: Pool<J, R>, w: nat, move: Move<R>, answers: (J, R) -> bool) {
    && w < |p.workers|
    && match move
       case Announce => p.workers[w].Announcing? && |p.ready| < NPU_WORKERS
       case Pick => p.workers[w].Queued?
       case Complete(r) => p.workers[w].Running? && answers(p.workers[w].job, r)
       case Report => p.workers[w].Reporting? && |p.results| < NPU_WORKERS
  }

  function Moved<J, R>(p: Pool<J, R>, w: nat, move: Move<R>): Pool<J, R>
    requires w < |p.workers|
    requires move.Pick? ==> p.workers[w].Queued?
    requires move.Report? ==> p.workers[w].Reporting?
  {
    match move
    case Announce => Pool(p.workers[w := Waiting], p.ready + [w], p.results)
    case Pick => Pool(p.workers[w := Running(p.workers[w].job)], p.ready, p.results)
    case Complete(r) => Pool(p.workers[w := Reporting(r)], p.ready, p.results)
    case Report => Pool(p.workers[w := Announcing], p.ready, p.results + [p.workers[w].result])
  }

  /** The scheduler takes the oldest token and sends its worker a job. */
  function Sent<J, R>(p: Pool<J, R>, job: J): Pool<J, R>
    requires p.ready != [] && p.ready[0] < |p.workers|
  {
    Pool(p.workers[p.ready[0] := Queued(job)], p.ready[1..], p.results)
  }

  function Received<J, R>(p: Pool<J, R>): Pool<J, R>
    requires p.results != []
  {
    Pool(p.workers, p.ready, p.results[1..])
  }

  // ---------------------------------------------------------------- tokens

  /** A worker is waiting on an empty job channel exactly when one token of its own is in the Ready channel. */
  ghost predicate TokensOk<J, R>(p: Pool<J, R>) {
    && |p.workers| == NPU_WORKERS && |p.results| <= NPU_WORKERS
    && (forall i :: 0 <= i < |p.ready| ==> p.ready[i] < NPU_WORKERS && p.workers[p.ready[i]].Waiting?)
    && (forall i, k :: 0 <= i < k < |p.ready| ==> p.ready[i] != p.ready[k])
    && (forall w :: 0 <= w < NPU_WORKERS && p.workers[w].Waiting? ==> w in p.ready)
  }

  lemma FreshTokensOk<J, R>()
    ensures TokensOk(FreshPool<J, R>())
  {
  }

  lemma MoveKeepsTokens<J(!new), R(!new)>(p: Pool<J, R>, w: nat, move: Move<R>, answers: (J, R) -> bool)
    requires TokensOk(p) && CanMove(p, w, move, answers)
    ensures TokensOk(Moved(p, w, move))
  {
    var p' := Moved(p, w, move);
    forall v | 0 <= v < NPU_WORKERS && p'.workers[v].Waiting? ensures v in p'.ready {
      if v != w {
        assert v in p.ready;
      } else {
        assert p'.ready[|p.ready|] == w;
      }
    }
  }

  /** The token's worker is idle with an empty channel, so the send never blocks, and the token is not lost. */
  lemma SendKeepsTokens<J, R>(p: Pool<J, R>, job: J)
    requires TokensOk(p) && p.ready != []
    ensures p.ready[0] < |p.workers| && p.workers[p.ready[0]].Waiting?
    ensures TokensOk(Sent(p, job))
  {
    var p' := Sent(p, job);
    forall v | 0 <= v < NPU_WORKERS && p'.workers[v].Waiting? ensures v in p'.ready {
      var i :| 0 <= i < |p.ready| && p.ready[i] == v;
      assert p'.ready[i - 1] == v;
    }
  }

  /** The Ready channel has room for every worker's token. */
  lemma AnnounceNeverBlocks<J, R>(p: Pool<J, R>, w: nat)
    requires TokensOk(p) && w < NPU_WORKERS && !p.workers[w].Waiting?
    ensures |p.ready| < NPU_WORKERS
  {
    DistinctFit(p.ready + [w], NPU_WORKERS);
  }

  // --------------------------------------------------------------- tickets

  function StageWork<J, R, T>(tj: J -> T, tr: R -> T, s: Stage<J, R>): multiset<T> {
    match s
    case Announcing => multiset{}
    case Waiting => multiset{}
    case Queued(job) => multiset{tj(job)}
    case Running(job) => multiset{tj(job)}
    case Reporting(result) => multiset{tr(result)}
  }

  function WorkerWork<J, R, T>(tj: J -> T, tr: R -> T, ws: seq<Stage<J, R>>): multiset<T> {
    if ws == [] then multiset{}
    else WorkerWork(tj, tr, ws[..|ws| - 1]) + StageWork(tj, tr, ws[|ws| - 1])
  }

  function ResultWork<R, T>(tr: R -> T, rs: seq<R>): multiset<T> {
    if rs == [] then multiset{} else ResultWork(tr, rs[..|rs| - 1]) + multiset{tr(rs[|rs| - 1])}
  }

  /** All work sent to the pool whose result has not been taken. */
  function Outstanding<J, R, T>(tj: J -> T, tr: R -> T, p: Pool<J, R>): multiset<T> {
    WorkerWork(tj, tr, p.workers) + ResultWork(tr, p.results)
  }

  lemma AddToBoth<T>(a: multiset<T>, x: multiset<T>, b: multiset<T>, y: multiset<T>, more: multiset<T>)
    requires a + x == b + y
    ensures (a + more) + x == (b + more) + y
  {
    assert (a + more) + x == (a + x) + more;
    assert (b + more) + y == (b + y) + more;
  }

  lemma Swap<T>(a: multiset<T>, x: multiset<T>, y: multiset<T>)
    ensures (a + x) + y == (a + y) + x
  {
  }

  lemma Regroup<T>(a: multiset<T>, x: multiset<T>, y: multiset<T>)
    ensures (a + x) + y == a + (x + y)
  {
  }

  lemma {:induction false} WorkerWorkUpdate<J, R, T>(tj: J -> T, tr: R -> T, ws: seq<Stage<J, R>>, w: nat, s: Stage<J, R>)
    requires w < |ws|
    ensures WorkerWork(tj, tr, ws[w := s]) + StageWork(tj, tr, ws[w]) == WorkerWork(tj, tr, ws) + StageWork(tj, tr, s)
  {
    hide StageWork;
    var n := |ws| - 1;
    if w == n {
      assert ws[w := s][..n] == ws[..n];
      Swap(WorkerWork(tj, tr, ws[..n]), StageWork(tj, tr, s), StageWork(tj, tr, ws[w]));
    } else {
      WorkerWorkUpdate(tj, tr, ws[..n], w, s);
      assert ws[w := s][..n] == ws[..n][w := s];
      AddToBoth(WorkerWork(tj, tr, ws[..n][w := s]), StageWork(tj, tr, ws[w]),
                WorkerWork(tj, tr, ws[..n]), StageWork(tj, tr, s), StageWork(tj, tr, ws[n]));
    }
  }

  lemma {:induction false} ResultWorkHead<R, T>(tr: R -> T, rs: seq<R>)
    requires rs != []
    ensures ResultWork(tr, rs) == multiset{tr(rs[0])} + ResultWork(tr, rs[1..])
  {
    var n := |rs| - 1;
    ResultWorkAppends(tr, rs[..n], rs[n]);
    assert rs == rs[..n] + [rs[n]];
    if n > 0 {
      var middle := rs[1..n];
      assert rs[..n][1..] == middle && rs[1..] == middle + [rs[n]];
      ResultWorkHead(tr, rs[..n]);
      ResultWorkAppends(tr, middle, rs[n]);
      hide ResultWork;
      Regroup(multiset{tr(rs[0])}, ResultWork(tr, middle), multiset{tr(rs[n])});
    } else {
      assert rs[..0] == [] && rs[1..] == [];
      assert ResultWork(tr, rs[..0]) == multiset{};
    }
  }

  lemma Cancel<T>(a: multiset<T>, b: multiset<T>, x: multiset<T>)
    requires a + x == b + x
    ensures a == b
  {
    forall t ensures a[t] == b[t] {
      assert (a + x)[t] == (b + x)[t];
    }
  }

  lemma MoveOver<T>(after: multiset<T>, before: multiset<T>, x: multiset<T>, rest: multiset<T>)
    requires after + x == before + multiset{}
    ensures after + (rest + x) == before + rest
  {
    assert after + (rest + x) == (after + x) + rest;
  }

  lemma ResultWorkAppends<R, T>(tr: R -> T, rs: seq<R>, r: R)
    ensures ResultWork(tr, rs + [r]) == ResultWork(tr, rs) + multiset{tr(r)}
  {
    assert (rs + [r])[..|rs|] == rs;
  }

  lemma ReportKeepsWork<J, R, T>(tj: J -> T, tr: R -> T, p: Pool<J, R>, w: nat)
    requires w < |p.workers| && p.workers[w].Reporting?
    ensures Outstanding(tj, tr, Moved(p, w, Report)) == Outstanding(tj, tr, p)
  {
    var r := p.workers[w].result;
    WorkerWorkUpdate(tj, tr, p.workers, w, Announcing);
    ResultWorkAppends(tr, p.results, r);
    MoveOver(WorkerWork(tj, tr, p.workers[w := Announcing]), WorkerWork(tj, tr, p.workers), multiset{tr(r)},
             ResultWork(tr, p.results));
  }

  lemma RestageKeepsWork<J, R, T>(tj: J -> T, tr: R -> T, ws: seq<Stage<J, R>>, w: nat, s: Stage<J, R>)
    requires w < |ws| && StageWork(tj, tr, s) == StageWork(tj, tr, ws[w])
    ensures WorkerWork(tj, tr, ws[w := s]) == WorkerWork(tj, tr, ws)
  {
    WorkerWorkUpdate(tj, tr, ws, w, s);
    Cancel(WorkerWork(tj, tr, ws[w := s]), WorkerWork(tj, tr, ws), StageWork(tj, tr, s));
  }

  /** Workers hand work along; they neither create nor lose any. */
  lemma MoveKeepsWork<J(!new), R(!new), T>(tj: J -> T, tr: R -> T, p: Pool<J, R>, w: nat, move: Move<R>, answers: (J, R) -> bool)
    requires CanMove(p, w, move, answers)
    requires move.Complete? ==> tr(move.result) == tj(p.workers[w].job)
    ensures Outstanding(tj, tr, Moved(p, w, move)) == Outstanding(tj, tr, p)
  {
    if move.Report? {
      ReportKeepsWork(tj, tr, p, w);
    } else {
      RestageKeepsWork(tj, tr, p.workers, w, Moved(p, w, move).workers[w]);
    }
  }

  lemma SendAddsWork<J, R, T>(tj: J -> T, tr: R -> T, p: Pool<J, R>, job: J)
    requires TokensOk(p) && p.ready != []
    ensures Outstanding(tj, tr, Sent(p, job)) == Outstanding(tj, tr, p) + multiset{tj(job)}
  {
    var p', t := Sent(p, job), multiset{tj(job)};
    var before, after := WorkerWork(tj, tr, p.workers), WorkerWork(tj, tr, p'.workers);
    WorkerWorkUpdate(tj, tr, p.workers, p.ready[0], Queued(job));
    assert after + multiset{} == after;
    assert (before + t) + ResultWork(tr, p.results) == (before + ResultWork(tr, p.results)) + t;
  }

  lemma ReceiveRemovesWork<J, R, T>(tj: J -> T, tr: R -> T, p: Pool<J, R>)
    requires p.results != []
    ensures Outstanding(tj, tr, p) == Outstanding(tj, tr, Received(p)) + multiset{tr(p.results[0])}
  {
    ResultWorkHead(tr, p.results);
  }

  /** The piece of work is held by worker w. */
  ghost predicate HeldBy<J, R, T>(tj: J -> T, tr: R -> T, p: Pool<J, R>, t: T, w: int) {
    0 <= w < |p.workers| && t in StageWork(tj, tr, p.workers[w])
  }

  lemma {:induction false} WorkerHoldsIt<J, R, T>(tj: J -> T, tr: R -> T, ws: seq<Stage<J, R>>, t: T) returns (w: nat)
    requires t in WorkerWork(tj, tr, ws)
    ensures w < |ws| && t in StageWork(tj, tr, ws[w])
  {
    w := |ws| - 1;
    if t !in StageWork(tj, tr, ws[w]) {
      w := WorkerHoldsIt(tj, tr, ws[..w], t);
    }
  }

  /** Outstanding work is held by a worker unless some result is waiting to be taken. */
  lemma WorkIsSomewhere<J, R, T>(tj: J -> T, tr: R -> T, p: Pool<J, R>, t: T)
    requires t in Outstanding(tj, tr, p)
    ensures p.results != [] || exists w :: HeldBy(tj, tr, p, t, w)
  {
    if p.results == [] {
      var w := WorkerHoldsIt(tj, tr, p.workers, t);
      assert HeldBy(tj, tr, p, t, w);
    }
  }

  lemma {:induction false} WorkerWorkSize<J, R, T>(tj: J -> T, tr: R -> T, ws: seq<Stage<J, R>>)
    ensures |WorkerWork(tj, tr, ws)| <= |ws|
  {
    if ws != [] {
      WorkerWorkSize(tj, tr, ws[..|ws| - 1]);
    }
  }

  lemma {:induction false} IdleWorkersHoldNothing<J, R, T>(tj: J -> T, tr: R -> T, ws: seq<Stage<J, R>>)
    requires forall w :: 0 <= w < |ws| ==> ws[w].Announcing? || ws[w].Waiting?
    ensures WorkerWork(tj, tr, ws) == multiset{}
  {
    if ws != [] {
      IdleWorkersHoldNothing(tj, tr, ws[..|ws| - 1]);
    }
  }

  lemma {:induction false} BusyWorkersHoldWork<J, R, T>(tj: J -> T, tr: R -> T, ws: seq<Stage<J, R>>)
    requires forall w :: 0 <= w < |ws| ==> ws[w].Reporting?
    ensures |WorkerWork(tj, tr, ws)| == |ws|
  {
    if ws != [] {
      BusyWorkersHoldWork(tj, tr, ws[..|ws| - 1]);
    }
  }

  lemma {:induction false} ResultWorkSize<R, T>(tr: R -> T, rs: seq<R>)
    ensures |ResultWork(tr, rs)| == |rs|
  {
    if rs != [] {
      ResultWorkSize(tr, rs[..|rs| - 1]);
    }
  }

  // ------------------------------------------------------------------ cost

  /** How many moves a worker can still make without being sent another job, and the taking of its result. */
  function StageCost<J, R>(s: Stage<J, R>): nat {
    match s
    case Waiting => 0
    case Announcing => 1
    case Reporting(_) => 3
    case Running(_) => 4
    case Queued(_) => 5
  }

  function WorkersCost<J, R>(ws: seq<Stage<J, R>>): nat {
    if ws == [] then 0 else WorkersCost(ws[..|ws| - 1]) + StageCost(ws[|ws| - 1])
  }

  lemma {:induction false} WorkersCostUpdate<J, R>(ws: seq<Stage<J, R>>, w: nat, s: Stage<J, R>)
    requires w < |ws|
    ensures WorkersCost(ws[w := s]) == WorkersCost(ws) - StageCost(ws[w]) + StageCost(s)
  {
    hide StageCost;
    var n := |ws| - 1;
    if w < n {
      WorkersCostUpdate(ws[..n], w, s);
      assert ws[w := s][..n] == ws[..n][w := s];
    } else {
      assert ws[w := s][..n] == ws[..n];
    }
  }
}
