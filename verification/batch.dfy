/**
 Batch transcription: the sequential loop over windows (rkwhisper/src/whisper.rs)
 and its parallel form over the worker pool (rkwhisper/src/parallel.rs), in which
 a dispatcher hands windows to whichever worker is ready and a collector puts
 the results back in order.
 */
module Batch {
  import opened Wrappers
  import opened Windows
  import opened Transcription
  import Reorder
  import P = Pool

  /** One window's transcript. */
  datatype Transcript = Transcript(text: string, segments: seq<Segment>)

  datatype WindowJob = WindowJob(index: nat, start: nat, end: nat, samples: seq<Sample>, options: Options)

  /** What a worker reports; an error names no window, `cause` is not looked at. */
  datatype Reply = Reply(index: nat, transcript: Transcript) | Failed(cause: WindowJob)

  /** The network, as far as both forms can tell: a function of the window. */
  type Net = WindowJob -> Transcript

  predicate InBounds(windows: seq<AudioWindow>, audio: seq<Sample>) {
    forall i :: 0 <= i < |windows| ==> windows[i].start <= windows[i].end <= |audio|
  }

  function JobOf(w: AudioWindow, audio: seq<Sample>, options: Options): WindowJob
    requires w.start <= w.end <= |audio|
  {
    WindowJob(w.index, w.start, w.end, audio[w.start..w.end], options)
  }

  function JobsOf(windows: seq<AudioWindow>, audio: seq<Sample>, options: Options): seq<WindowJob>
    requires InBounds(windows, audio)
  {
    seq(|windows|, i requires 0 <= i < |windows| => JobOf(windows[i], audio, options))
  }

  function TranscriptsOf(net: Net, jobs: seq<WindowJob>): seq<Transcript> {
    seq(|jobs|, i requires 0 <= i < |jobs| => net(jobs[i]))
  }

  /** The text before trimming: every window's text followed by a space. */
  function TextOf(parts: seq<Transcript>): string {
    if parts == [] then "" else TextOf(parts[..|parts| - 1]) + parts[|parts| - 1].text + " "
  }

  function SegmentsOf(parts: seq<Transcript>): seq<Segment> {
    if parts == [] then [] else SegmentsOf(parts[..|parts| - 1]) + parts[|parts| - 1].segments
  }

  /** The sequential loop. */
  method TranscribeAudio(net: Net, windows: seq<AudioWindow>, audio: seq<Sample>, options: Options)
    returns (fullText: string, segments: seq<Segment>)
    requires InBounds(windows, audio)
    ensures fullText == TextOf(TranscriptsOf(net, JobsOf(windows, audio, options)))
    ensures segments == SegmentsOf(TranscriptsOf(net, JobsOf(windows, audio, options)))
  {
    ghost var all := TranscriptsOf(net, JobsOf(windows, audio, options));
    fullText, segments := "", [];
    for i := 0 to |windows|
      invariant fullText == TextOf(all[..i]) && segments == SegmentsOf(all[..i])
    {
      assert all[..i + 1][..i] == all[..i];
      var result := net(JobOf(windows[i], audio, options));
      fullText := fullText + result.text;
      fullText := fullText + " ";
      segments := segments + result.segments;
    }
    assert all[..|windows|] == all;
  }

  // -------------------------------------------------------------- collector

  /** `heard` is what the segment callback has been given. */
  datatype Collector = Collector(
    pending: map<nat, Transcript>, next: nat, text: string, segments: seq<Segment>, heard: seq<Segment>)

  function NewCollector(): Collector { Collector(map[], 0, "", [], []) }

  function Collected(c: Collector, r: Reply): Collector
    requires r.Reply?
  {
    var pending := c.pending[r.index := r.transcript];
    var out := Reorder.Released(pending, c.next);
    Collector(Reorder.Parked(pending, c.next), c.next + |out|,
              c.text + TextOf(out), c.segments + SegmentsOf(out), c.heard + SegmentsOf(out))
  }

  /** The replies are taken until every window has come out; None when they end too early or one is an error. */
  function CollectAll(c: Collector, replies: seq<Reply>, total: nat): Option<Collector>
    decreases |replies|
  {
    if c.next >= total then Some(c)
    else if replies == [] || replies[0].Failed? then None
    else CollectAll(Collected(c, replies[0]), replies[1..], total)
  }

  lemma PartsAppend(parts: seq<Transcript>, part: Transcript)
    ensures TextOf(parts + [part]) == TextOf(parts) + part.text + " "
    ensures SegmentsOf(parts + [part]) == SegmentsOf(parts) + part.segments
  {
    assert (parts + [part])[..|parts|] == parts;
  }

  /** The collector's inner loop: everything whose turn has come leaves the buffer. */
  method ReleaseReady(c: Collector) returns (c': Collector)
    ensures var out := Reorder.Released(c.pending, c.next);
            c' == Collector(Reorder.Parked(c.pending, c.next), c.next + |out|,
                            c.text + TextOf(out), c.segments + SegmentsOf(out), c.heard + SegmentsOf(out))
  {
    hide Reorder.Released, Reorder.Parked, TextOf, SegmentsOf;
    NoParts();
    var pending, next, text, segments, heard := c.pending, c.next, c.text, c.segments, c.heard;
    ghost var all := Reorder.Released(pending, next);
    ghost var k := 0;
    while next in pending
      invariant k <= |all| && next == c.next + k && all[k..] == Reorder.Released(pending, next)
      invariant Reorder.Parked(pending, next) == Reorder.Parked(c.pending, c.next)
      invariant text == c.text + TextOf(all[..k])
      invariant segments == c.segments + SegmentsOf(all[..k])
      invariant heard == c.heard + SegmentsOf(all[..k])
      decreases |all| - k
    {
      Reorder.ReleaseOne(pending, next);
      assert all[k + 1..] == all[k..][1..];
      var result := pending[next];
      pending := pending - {next};
      PartsAppend(all[..k], result);
      assert all[..k + 1] == all[..k] + [result];
      text := text + result.text;
      text := text + " ";
      heard := heard + result.segments;
      segments := segments + result.segments;
      next := next + 1;
      k := k + 1;
    }
    Reorder.ReleaseNone(pending, next);
    assert all[..k] == all;
    c' := Collector(pending, next, text, segments, heard);
  }

  lemma NoParts()
    ensures TextOf([]) == "" && SegmentsOf([]) == []
  {
  }

  method CollectOrdered(replies: seq<Reply>, total: nat) returns (outcome: Option<Collector>)
    ensures outcome == CollectAll(NewCollector(), replies, total)
  {
    var c := NewCollector();
    var i := 0;
    while c.next < total
      invariant i <= |replies|
      invariant CollectAll(c, replies[i..], total) == CollectAll(NewCollector(), replies, total)
      decreases |replies| - i
    {
      if i == |replies| {
        return None;
      }
      var result := replies[i];
      assert replies[i..][0] == result && replies[i..][1..] == replies[i + 1..];
      if result.Failed? {
        return None;
      }
      i := i + 1;
      c := ReleaseReady(c.(pending := c.pending[result.index := result.transcript]));
    }
    return Some(c);
  }

  // ------------------------------------------------------ the parallel form

  type BatchPool = P.Pool<WindowJob, Reply>

  function JobIndex(j: WindowJob): nat { j.index }

  function ReplyIndex(r: Reply): nat { if r.Reply? then r.index else r.cause.index }

  /** A worker either fails or returns what the network makes of the window. */
  ghost predicate Answers(net: Net, j: WindowJob, r: Reply) { r == Failed(j) || r == Reply(j.index, net(j)) }

  function Work(p: BatchPool): multiset<nat> { P.Outstanding(JobIndex, ReplyIndex, p) }

  /** `failed` once the call has returned an error; what it handed out stays in the pool. */
  datatype System = System(left: seq<WindowJob>, pool: BatchPool, collector: Collector, failed: bool)

  datatype Step =
    | Dispatch
    | Collect
    | Refuse(n: nat)  // the callback returns an error for the n-th of the segments a reply releases
    | WorkerMoves(w: nat, move: P.Move<Reply>)

  /** The segments that a reply releases. */
  function NewlyHeard(c: Collector, r: Reply): nat
    requires r.Reply?
  {
    |Collected(c, r).heard| - |c.heard|
  }

  ghost predicate Enabled(net: Net, total: nat, s: System, step: Step) {
    match step
    case Dispatch => !s.failed && s.left != [] && s.pool.ready != []
    case Collect => !s.failed && s.collector.next < total && s.pool.results != []
    case Refuse(n) =>
      && !s.failed && s.collector.next < total && s.pool.results != [] && s.pool.results[0].Reply?
      && n < NewlyHeard(s.collector, s.pool.results[0])
    case WorkerMoves(w, move) => P.CanMove(s.pool, w, move, (j, r) => Answers(net, j, r))
  }

  ghost function After(net: Net, total: nat, s: System, step: Step): System
    requires P.TokensOk(s.pool) && Enabled(net, total, s, step)
  {
    match step
    case Dispatch => s.(left := s.left[1..], pool := P.Sent(s.pool, s.left[0]))
    case Collect =>
      if s.pool.results[0].Failed? then s.(pool := P.Received(s.pool), failed := true)
      else s.(pool := P.Received(s.pool), collector := Collected(s.collector, s.pool.results[0]))
    case Refuse(n) =>
      var heard := Collected(s.collector, s.pool.results[0]).heard;
      s.(pool := P.Received(s.pool), collector := s.collector.(heard := heard[..|s.collector.heard| + n + 1]), failed := true)
    case WorkerMoves(w, move) => s.(pool := P.Moved(s.pool, w, move))
  }

  /** Of the first `sent` windows, window k has not come back. */
  predicate Out(sent: nat, c: Collector, k: nat) {
    c.next <= k < sent && k !in c.pending
  }

  /** Exactly the windows that were handed out and have not come back are outstanding, each once. */
  ghost predicate CountsOk(work: multiset<nat>, sent: nat, c: Collector) {
    forall k: nat :: work[k] == if Out(sent, c, k) then 1 else 0
  }

  ghost predicate ReplyFits(net: Net, jobs: seq<WindowJob>, r: Reply) {
    if r.Failed? then r.cause in jobs else r.index < |jobs| && r.transcript == net(jobs[r.index])
  }

  ghost predicate StageFits(net: Net, jobs: seq<WindowJob>, st: P.Stage<WindowJob, Reply>) {
    match st
    case Queued(j) => j in jobs
    case Running(j) => j in jobs
    case Reporting(r) => ReplyFits(net, jobs, r)
    case _ => true
  }

  ghost predicate PoolFits(net: Net, jobs: seq<WindowJob>, p: BatchPool) {
    && (forall w :: 0 <= w < |p.workers| ==> StageFits(net, jobs, p.workers[w]))
    && (forall i :: 0 <= i < |p.results| ==> ReplyFits(net, jobs, p.results[i]))
  }

  ghost predicate CollectorOk(all: seq<Transcript>, sent: nat, c: Collector) {
    && c.next <= sent <= |all|
    && Reorder.Faithful(c.pending, all, c.next + 1, sent)
    && c.text == TextOf(all[..c.next])
    && c.segments == SegmentsOf(all[..c.next])
    && c.heard == SegmentsOf(all[..c.next])
  }

  ghost predicate Numbered(jobs: seq<WindowJob>) {
    forall i :: 0 <= i < |jobs| ==> jobs[i].index == i
  }

  /** Even when the call has failed, the callback has heard a beginning of what the sequential loop produces. */
  ghost predicate SystemOk(net: Net, jobs: seq<WindowJob>, s: System) {
    && P.TokensOk(s.pool) && PoolFits(net, jobs, s.pool)
    && if s.failed then s.collector.heard <= SegmentsOf(TranscriptsOf(net, jobs))
       else
         && |s.left| <= |jobs| && s.left == jobs[|jobs| - |s.left|..]
         && CollectorOk(TranscriptsOf(net, jobs), |jobs| - |s.left|, s.collector)
         && CountsOk(Work(s.pool), |jobs| - |s.left|, s.collector)
  }

  function Start(jobs: seq<WindowJob>, pool: BatchPool): System { System(jobs, pool, NewCollector(), false) }

  /** A call starts with all windows to hand out and nothing outstanding in the pool. */
  ghost predicate Starts(net: Net, jobs: seq<WindowJob>, s: System) {
    && s == Start(jobs, s.pool)
    && P.TokensOk(s.pool) && PoolFits(net, jobs, s.pool) && Work(s.pool) == multiset{}
  }

  /** The call has returned a transcription: everything was handed out and has come out. */
  predicate Returned(total: nat, s: System) { !s.failed && s.left == [] && s.collector.next >= total }

  lemma StartsOk(net: Net, jobs: seq<WindowJob>, s: System)
    requires Starts(net, jobs, s)
    ensures SystemOk(net, jobs, s)
  {
    assert TranscriptsOf(net, jobs)[..0] == [];
  }

  lemma FreshPoolStarts(net: Net, jobs: seq<WindowJob>)
    ensures Starts(net, jobs, Start(jobs, P.FreshPool()))
  {
    P.IdleWorkersHoldNothing(JobIndex, ReplyIndex, P.FreshPool<WindowJob, Reply>().workers);
  }

  // ---------------------------------------------------------- preservation

  lemma {:induction false} PartsOfPrefix(parts: seq<Transcript>, a: nat, b: nat)
    requires a <= b <= |parts|
    ensures TextOf(parts[..b]) == TextOf(parts[..a]) + TextOf(parts[a..b])
    ensures SegmentsOf(parts[..b]) == SegmentsOf(parts[..a]) + SegmentsOf(parts[a..b])
    decreases b - a
  {
    hide TextOf, SegmentsOf;
    if a < b {
      PartsOfPrefix(parts, a, b - 1);
      assert parts[..b] == parts[..b - 1] + [parts[b - 1]];
      assert parts[a..b] == parts[a..b - 1] + [parts[b - 1]];
      PartsAppend(parts[..b - 1], parts[b - 1]);
      PartsAppend(parts[a..b - 1], parts[b - 1]);
      assert TextOf(parts[..a]) + TextOf(parts[a..b - 1]) + (parts[b - 1].text + " ")
          == TextOf(parts[..a]) + (TextOf(parts[a..b - 1]) + parts[b - 1].text + " ");
    } else {
      NoParts();
      assert parts[a..b] == [];
    }
  }

  /** An outstanding window's transcript keeps the collector reading in order. */
  lemma CollectedOk(all: seq<Transcript>, sent: nat, c: Collector, k: nat)
    requires CollectorOk(all, sent, c) && c.next <= k < sent && k !in c.pending
    ensures var c' := Collected(c, Reply(k, all[k]));
            && CollectorOk(all, sent, c')
            && (forall m: nat :: c'.next <= m && m !in c'.pending <==> c.next <= m && m !in c.pending && m != k)
  {
    hide Reorder.Released, Reorder.Parked, TextOf, SegmentsOf;
    var pending := c.pending[k := all[k]];
    Reorder.ReleaseInOrder(pending, c.next, all, sent);
    var next' := c.next + |Reorder.Released(pending, c.next)|;
    PartsOfPrefix(all, c.next, next');
    var c' := Collected(c, Reply(k, all[k]));
    forall m: nat ensures c'.next <= m && m !in c'.pending <==> c.next <= m && m !in c.pending && m != k {
      assert m in pending <==> m in c.pending || m == k;
    }
  }

  /** The replies before the first error. */
  function BeforeFailure(replies: seq<Reply>): seq<Reply> {
    if |replies| == 0 || replies[0].Failed? then [] else [replies[0]] + BeforeFailure(replies[1..])
  }

  /** An error ends the collection: only the replies before it matter. */
  lemma {:induction false} FailureEndsCollection(c: Collector, replies: seq<Reply>, total: nat)
    ensures CollectAll(c, replies, total) == CollectAll(c, BeforeFailure(replies), total)
    decreases |replies|
  {
    hide Collected;
    if |replies| > 0 && replies[0].Reply? && c.next < total {
      FailureEndsCollection(Collected(c, replies[0]), replies[1..], total);
      assert ([replies[0]] + BeforeFailure(replies[1..]))[1..] == BeforeFailure(replies[1..]);
    }
  }

  /** Some reply carries window k. */
  ghost predicate Arrives(replies: seq<Reply>, k: nat) {
    exists i :: 0 <= i < |replies| && replies[i].Reply? && replies[i].index == k
  }

  /** No reply is an error, and each is for a window not seen before, with that window's transcript. */
  ghost predicate Fresh(all: seq<Transcript>, c: Collector, replies: seq<Reply>) {
    && (forall i :: 0 <= i < |replies| ==>
          && replies[i].Reply? && c.next <= replies[i].index < |all| && replies[i].index !in c.pending
          && replies[i].transcript == all[replies[i].index])
    && (forall i, k :: 0 <= i < k < |replies| ==> replies[i].index != replies[k].index)
  }

  lemma FreshTail(all: seq<Transcript>, c: Collector, replies: seq<Reply>)
    requires replies != [] && CollectorOk(all, |all|, c) && Fresh(all, c, replies)
    ensures var c' := Collected(c, replies[0]);
            && CollectorOk(all, |all|, c') && Fresh(all, c', replies[1..])
            && (forall m: nat :: c'.next <= m && m !in c'.pending <==> c.next <= m && m !in c.pending && m != replies[0].index)
  {
    hide Collected, CollectorOk;
    assert replies[0] == Reply(replies[0].index, all[replies[0].index]);
    CollectedOk(all, |all|, c, replies[0].index);
    var c' := Collected(c, replies[0]);
    forall i | 0 <= i < |replies[1..]|
      ensures c'.next <= replies[1..][i].index && replies[1..][i].index !in c'.pending
    {
      assert replies[1..][i] == replies[i + 1] && replies[0].index != replies[i + 1].index;
    }
  }

  /** The same when no reply is an error. */
  lemma {:induction false} CollectsWithoutFailure(all: seq<Transcript>, c: Collector, replies: seq<Reply>)
    requires CollectorOk(all, |all|, c) && Fresh(all, c, replies)
    ensures var outcome := CollectAll(c, replies, |all|);
            && (outcome.Some? <==> forall k: nat :: c.next <= k < |all| && k !in c.pending ==> Arrives(replies, k))
            && (outcome.Some? ==> outcome.value.next == |all| && CollectorOk(all, |all|, outcome.value))
    decreases |replies|
  {
    if c.next >= |all| {
    } else if replies == [] {
      assert c.next !in c.pending && !Arrives(replies, c.next);
    } else {
      FreshTail(all, c, replies);
      var c', rest := Collected(c, replies[0]), replies[1..];
      CollectsWithoutFailure(all, c', rest);
      hide Collected, CollectorOk, CollectAll, Fresh;
      forall k: nat ensures Arrives(replies, k) <==> Arrives(rest, k) || k == replies[0].index {
        ArrivesHead(replies, k);
      }
    }
  }

  lemma ArrivesHead(replies: seq<Reply>, k: nat)
    requires replies != [] && replies[0].Reply?
    ensures Arrives(replies, k) <==> Arrives(replies[1..], k) || k == replies[0].index
  {
    if Arrives(replies[1..], k) {
      var i :| 0 <= i < |replies[1..]| && replies[1..][i].Reply? && replies[1..][i].index == k;
      assert replies[i + 1].Reply? && replies[i + 1].index == k;
    }
    if Arrives(replies, k) && k != replies[0].index {
      var i :| 0 <= i < |replies| && replies[i].Reply? && replies[i].index == k;
      assert replies[1..][i - 1].Reply? && replies[1..][i - 1].index == k;
    }
  }

  /**
   The collector against any order of arrival, errors included: it finishes exactly
   when every missing window's reply arrives before the first error, and then it
   has released all of them in window order.
   */
  lemma CollectsInAnyOrder(all: seq<Transcript>, c: Collector, replies: seq<Reply>)
    requires CollectorOk(all, |all|, c) && Fresh(all, c, BeforeFailure(replies))
    ensures var outcome := CollectAll(c, replies, |all|);
            && (outcome.Some? <==>
                  forall k: nat :: c.next <= k < |all| && k !in c.pending ==> Arrives(BeforeFailure(replies), k))
            && (outcome.Some? ==> outcome.value.next == |all| && CollectorOk(all, |all|, outcome.value))
  {
    hide CollectAll, CollectorOk, Fresh, Arrives;
    FailureEndsCollection(c, replies, |all|);
    CollectsWithoutFailure(all, c, BeforeFailure(replies));
  }

  /** In particular, a fresh collector given every reply once ends with the sequential loop's text and segments. */
  lemma AnyOrderIsSequential(all: seq<Transcript>, replies: seq<Reply>)
    requires Fresh(all, NewCollector(), BeforeFailure(replies))
    requires forall k: nat :: k < |all| ==> Arrives(BeforeFailure(replies), k)
    ensures var outcome := CollectAll(NewCollector(), replies, |all|);
            && outcome.Some? && outcome.value.text == TextOf(all)
            && outcome.value.segments == outcome.value.heard == SegmentsOf(all)
  {
    assert all[..0] == [] && all[..|all|] == all;
    CollectsInAnyOrder(all, NewCollector(), replies);
  }

  lemma ReplyIsOut(net: Net, jobs: seq<WindowJob>, s: System)
    requires SystemOk(net, jobs, s) && !s.failed && s.pool.results != [] && s.pool.results[0].Reply?
    ensures Out(|jobs| - |s.left|, s.collector, s.pool.results[0].index)
    ensures s.pool.results[0] == Reply(s.pool.results[0].index, TranscriptsOf(net, jobs)[s.pool.results[0].index])
  {
    hide CollectorOk, P.Outstanding, P.TokensOk;
    var r := s.pool.results[0];
    P.ReceiveRemovesWork(JobIndex, ReplyIndex, s.pool);
    assert ReplyFits(net, jobs, r);
    assert Work(s.pool)[r.index] > 0;
  }

  lemma CollectOk(net: Net, jobs: seq<WindowJob>, s: System)
    requires SystemOk(net, jobs, s) && !s.failed && s.pool.results != [] && s.pool.results[0].Reply?
    ensures SystemOk(net, jobs, s.(pool := P.Received(s.pool), collector := Collected(s.collector, s.pool.results[0])))
  {
    hide CollectorOk, Collected, TranscriptsOf, PoolFits, P.TokensOk, P.Outstanding, SegmentsOf, TextOf;
    var s' := s.(pool := P.Received(s.pool), collector := Collected(s.collector, s.pool.results[0]));
    var k := s.pool.results[0].index;
    ReplyIsOut(net, jobs, s);
    CollectedOk(TranscriptsOf(net, jobs), |jobs| - |s.left|, s.collector, k);
    P.ReceiveRemovesWork(JobIndex, ReplyIndex, s.pool);
    ReceivedFits(net, jobs, s.pool);
    var sent := |jobs| - |s.left|;
    forall m: nat ensures Work(s'.pool)[m] == if Out(sent, s'.collector, m) then 1 else 0 {
      assert Work(s.pool)[m] == if Out(sent, s.collector, m) then 1 else 0;
    }
  }

  lemma HeardIsPrefix(all: seq<Transcript>, next: nat)
    requires next <= |all|
    ensures SegmentsOf(all[..next]) <= SegmentsOf(all)
  {
    hide SegmentsOf, TextOf;
    PartsOfPrefix(all, next, |all|);
    assert all[..|all|] == all;
  }

  lemma FailOk(net: Net, jobs: seq<WindowJob>, s: System, step: Step)
    requires SystemOk(net, jobs, s) && Enabled(net, |jobs|, s, step)
    requires step.Refuse? || (step.Collect? && s.pool.results[0].Failed?)
    ensures SystemOk(net, jobs, After(net, |jobs|, s, step))
  {
    var all := TranscriptsOf(net, jobs);
    if step.Refuse? {
      CollectOk(net, jobs, s);
      hide Collected;
      HeardIsPrefix(all, Collected(s.collector, s.pool.results[0]).next);
    } else {
      HeardIsPrefix(all, s.collector.next);
    }
    hide TranscriptsOf, SegmentsOf, Work, CountsOk, Collected, P.TokensOk, PoolFits;
    ReceivedFits(net, jobs, s.pool);
  }

  lemma ReceivedFits(net: Net, jobs: seq<WindowJob>, p: BatchPool)
    requires P.TokensOk(p) && p.results != [] && PoolFits(net, jobs, p)
    ensures P.TokensOk(P.Received(p)) && PoolFits(net, jobs, P.Received(p))
  {
  }

  lemma SentFits(net: Net, jobs: seq<WindowJob>, p: BatchPool, j: WindowJob)
    requires P.TokensOk(p) && p.ready != [] && PoolFits(net, jobs, p) && j in jobs
    ensures p.ready[0] < |p.workers| && P.TokensOk(P.Sent(p, j)) && PoolFits(net, jobs, P.Sent(p, j))
    ensures Work(P.Sent(p, j)) == Work(p) + multiset{j.index}
  {
    P.SendKeepsTokens(p, j);
    P.SendAddsWork(JobIndex, ReplyIndex, p, j);
    hide P.TokensOk;
    var p' := P.Sent(p, j);
    forall w | 0 <= w < |p'.workers| ensures StageFits(net, jobs, p'.workers[w]) {
      assert w != p.ready[0] ==> StageFits(net, jobs, p.workers[w]);
    }
  }

  /** Handing out the next window adds its index to what is outstanding. */
  lemma DispatchOk(net: Net, jobs: seq<WindowJob>, s: System)
    requires Numbered(jobs) && SystemOk(net, jobs, s) && !s.failed && s.left != [] && s.pool.ready != []
    ensures s.pool.ready[0] < |s.pool.workers|
    ensures SystemOk(net, jobs, s.(left := s.left[1..], pool := P.Sent(s.pool, s.left[0])))
  {
    var k := |jobs| - |s.left|;
    assert s.left[0] == jobs[k] && s.left[0].index == k;
    hide PoolFits, P.TokensOk, Work, Numbered, CountsOk, TextOf, SegmentsOf;
    SentFits(net, jobs, s.pool, s.left[0]);
    OneMoreOut(Work(s.pool), k, s.collector);
    assert s.left[1..] == jobs[k + 1..];
  }

  lemma OneMoreOut(work: multiset<nat>, sent: nat, c: Collector)
    requires CountsOk(work, sent, c) && c.next <= sent && forall k :: k in c.pending ==> k < sent
    ensures CountsOk(work + multiset{sent}, sent + 1, c)
  {
    forall m: nat ensures (work + multiset{sent})[m] == if Out(sent + 1, c, m) then 1 else 0 {
      assert work[m] == if Out(sent, c, m) then 1 else 0;
    }
  }

  lemma MovedFits(net: Net, jobs: seq<WindowJob>, p: BatchPool, w: nat, move: P.Move<Reply>)
    requires Numbered(jobs) && P.TokensOk(p) && PoolFits(net, jobs, p)
    requires P.CanMove(p, w, move, (j, r) => Answers(net, j, r))
    ensures P.TokensOk(P.Moved(p, w, move)) && PoolFits(net, jobs, P.Moved(p, w, move))
  {
    P.MoveKeepsTokens(p, w, move, (j, r) => Answers(net, j, r));
    hide P.TokensOk;
    var p' := P.Moved(p, w, move);
    assert StageFits(net, jobs, p.workers[w]);
    forall v | 0 <= v < |p'.workers| ensures StageFits(net, jobs, p'.workers[v]) {
      assert v != w ==> StageFits(net, jobs, p.workers[v]);
    }
  }

  lemma MovedWork(net: Net, p: BatchPool, w: nat, move: P.Move<Reply>)
    requires P.CanMove(p, w, move, (j, r) => Answers(net, j, r))
    ensures Work(P.Moved(p, w, move)) == Work(p)
  {
    P.MoveKeepsWork(JobIndex, ReplyIndex, p, w, move, (j, r) => Answers(net, j, r));
  }

  lemma WorkerMoveOk(net: Net, jobs: seq<WindowJob>, s: System, w: nat, move: P.Move<Reply>)
    requires Numbered(jobs) && SystemOk(net, jobs, s)
    requires P.CanMove(s.pool, w, move, (j, r) => Answers(net, j, r))
    ensures SystemOk(net, jobs, s.(pool := P.Moved(s.pool, w, move)))
  {
    hide CollectorOk, PoolFits, P.TokensOk, Work, Numbered, CountsOk, P.Moved, P.CanMove;
    MovedFits(net, jobs, s.pool, w, move);
    MovedWork(net, s.pool, w, move);
  }

  lemma StepKeepsOk(net: Net, jobs: seq<WindowJob>, s: System, step: Step)
    requires Numbered(jobs) && SystemOk(net, jobs, s) && Enabled(net, |jobs|, s, step)
    ensures SystemOk(net, jobs, After(net, |jobs|, s, step))
  {
    hide SystemOk, Collected;
    match step {
      case Dispatch => DispatchOk(net, jobs, s);
      case Collect =>
        if s.pool.results[0].Failed? {
          FailOk(net, jobs, s, step);
        } else {
          CollectOk(net, jobs, s);
        }
      case Refuse(_) => FailOk(net, jobs, s, step);
      case WorkerMoves(w, move) => WorkerMoveOk(net, jobs, s, w, move);
    }
  }

  ghost predicate IsRun(net: Net, total: nat, states: seq<System>, steps: seq<Step>) {
    && |states| == |steps| + 1
    && forall i :: 0 <= i < |steps| ==>
         && P.TokensOk(states[i].pool) && Enabled(net, total, states[i], steps[i])
         && states[i + 1] == After(net, total, states[i], steps[i])
  }

  // ------------------------------------------------------------- theorems

  lemma {:induction false} RunsAreOk(net: Net, jobs: seq<WindowJob>, states: seq<System>, steps: seq<Step>, n: nat)
    requires Numbered(jobs) && IsRun(net, |jobs|, states, steps) && Starts(net, jobs, states[0]) && n < |states|
    ensures SystemOk(net, jobs, states[n])
  {
    hide SystemOk, Starts, Enabled, After, Numbered, P.TokensOk;
    if n == 0 {
      StartsOk(net, jobs, states[0]);
    } else {
      RunsAreOk(net, jobs, states, steps, n - 1);
      StepKeepsOk(net, jobs, states[n - 1], steps[n - 1]);
    }
  }

  ghost predicate Sequential(net: Net, jobs: seq<WindowJob>, s: System) {
    && s.collector.text == TextOf(TranscriptsOf(net, jobs))
    && s.collector.segments == s.collector.heard == SegmentsOf(TranscriptsOf(net, jobs))
  }

  /**
   Parallel refines sequential: for every interleaving of dispatcher, workers and
   collector, whichever workers fail and whenever the callback does, a call that
   returns a transcription returns the sequential loop's text and segments, and
   the callback has heard them in that order.  A call that fails has let the
   callback hear a beginning of them.
   */
  lemma ParallelIsSequential(net: Net, jobs: seq<WindowJob>, states: seq<System>, steps: seq<Step>, n: nat)
    requires Numbered(jobs) && IsRun(net, |jobs|, states, steps) && Starts(net, jobs, states[0]) && n < |states|
    ensures states[n].collector.heard <= SegmentsOf(TranscriptsOf(net, jobs))
    ensures !states[n].failed && states[n].collector.next >= |jobs| ==>
              && Returned(|jobs|, states[n]) && Sequential(net, jobs, states[n])
              // and the pool is as clean as it was, so the next call may use it
              && Work(states[n].pool) == multiset{}
  {
    RunsAreOk(net, jobs, states, steps, n);
    var s, all := states[n], TranscriptsOf(net, jobs);
    if !s.failed {
      HeardIsPrefix(all, s.collector.next);
      if s.collector.next >= |jobs| {
        assert all[..|jobs|] == all;
        NothingOut(Work(s.pool), |jobs| - |s.left|, s.collector);
      }
    }
  }

  lemma NothingOut(work: multiset<nat>, sent: nat, c: Collector)
    requires CountsOk(work, sent, c) && c.next >= sent
    ensures work == multiset{}
  {
    forall k: nat ensures work[k] == 0 {
      assert !Out(sent, c, k);
    }
  }

  /** The windows both forms work on are numbered by position, and each carries its slice of the audio. */
  lemma WindowJobsAreNumbered(windows: seq<AudioWindow>, audio: seq<Sample>, options: Options)
    requires WellCut(windows) && EndBy(windows, |audio|)
    ensures InBounds(windows, audio) && Numbered(JobsOf(windows, audio, options))
    ensures var jobs := JobsOf(windows, audio, options);
            && |jobs| == |windows|
            && forall i :: 0 <= i < |jobs| ==>
                 && jobs[i].start == windows[i].start && jobs[i].end == windows[i].end && jobs[i].options == options
                 && jobs[i].samples == audio[windows[i].start..windows[i].end]
  {
  }

  function Joined(jobs: seq<WindowJob>): seq<Sample> {
    if jobs == [] then [] else Joined(jobs[..|jobs| - 1]) + jobs[|jobs| - 1].samples
  }

  lemma {:induction false} JobsJoin(audio: seq<Sample>, options: Options, k: nat)
    requires k <= |FixedAudioWindows(|audio|)|
    ensures InBounds(FixedAudioWindows(|audio|), audio)
    ensures Joined(JobsOf(FixedAudioWindows(|audio|), audio, options)[..k]) == audio[..Min(480000 * k, |audio|)]
  {
    FixedWindowsTile(|audio|);
    var jobs := JobsOf(FixedAudioWindows(|audio|), audio, options);
    if k == 0 {
      assert audio[..0] == [];
    } else {
      JobsJoin(audio, options, k - 1);
      assert jobs[..k][..k - 1] == jobs[..k - 1];
    }
  }

  /** Without VAD the jobs of a call carry the whole audio, in order and each sample once. */
  lemma FixedJobsCarryAudio(audio: seq<Sample>, options: Options)
    ensures InBounds(FixedAudioWindows(|audio|), audio)
    ensures Joined(JobsOf(FixedAudioWindows(|audio|), audio, options)) == audio
  {
    FixedWindowsTile(|audio|);
    var jobs := JobsOf(FixedAudioWindows(|audio|), audio, options);
    JobsJoin(audio, options, |jobs|);
    assert jobs[..|jobs|] == jobs && audio[..|audio|] == audio;
  }

  // -------------------------------------------------------------- progress

  function Potential(s: System): nat { 6 * |s.left| + P.WorkersCost(s.pool.workers) + |s.pool.results| }

  /** Every step lowers the potential, so a call takes boundedly many steps. */
  lemma StepFalls(net: Net, total: nat, s: System, step: Step)
    requires P.TokensOk(s.pool) && Enabled(net, total, s, step)
    ensures Potential(After(net, total, s, step)) < Potential(s)
  {
    match step {
      case Dispatch => P.WorkersCostUpdate(s.pool.workers, s.pool.ready[0], P.Queued(s.left[0]));
      case Collect =>
      case Refuse(_) =>
      case WorkerMoves(w, move) => P.WorkersCostUpdate(s.pool.workers, w, P.Moved(s.pool, w, move).workers[w]);
    }
  }

  lemma WorkerCanMove(net: Net, total: nat, s: System, w: nat) returns (step: Step)
    requires P.TokensOk(s.pool) && w < P.NPU_WORKERS && !s.pool.workers[w].Waiting?
    requires s.pool.workers[w].Reporting? ==> |s.pool.results| < P.NPU_WORKERS
    ensures Enabled(net, total, s, step)
  {
    var move: P.Move<Reply>;
    match s.pool.workers[w] {
      case Announcing => move := P.Announce; P.AnnounceNeverBlocks(s.pool, w);
      case Queued(_) => move := P.Pick;
      case Running(j) => move := P.Complete(Reply(j.index, net(j)));
      case Reporting(_) => move := P.Report;
    }
    step := WorkerMoves(w, move);
  }

  /** No deadlock: until the collector is done or the call has failed, some step is enabled. */
  lemma SomethingMoves(net: Net, jobs: seq<WindowJob>, s: System) returns (step: Step)
    requires SystemOk(net, jobs, s) && !s.failed && s.collector.next < |jobs|
    ensures Enabled(net, |jobs|, s, step)
  {
    if s.pool.results != [] {
      step := Collect;
    } else if s.left != [] {
      if s.pool.ready != [] {
        step := Dispatch;
      } else {
        step := WorkerCanMove(net, |jobs|, s, 0);
      }
    } else {
      assert Out(|jobs|, s.collector, s.collector.next);
      P.WorkIsSomewhere(JobIndex, ReplyIndex, s.pool, s.collector.next);
      var w :| P.HeldBy(JobIndex, ReplyIndex, s.pool, s.collector.next, w);
      step := WorkerCanMove(net, |jobs|, s, w);
    }
  }
}
