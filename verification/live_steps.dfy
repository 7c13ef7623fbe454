/** Every operation of a live job keeps the invariant of module LiveInvariant. */
module LiveSteps {
  import opened Wrappers
  import opened Vad
  import opened LiveJob
  import opened LiveInvariant
  import opened Transcription
  import Reorder
  import W = Windows

  // ------------------------------------------------------- chunks arrive

  function ErrorsOf(cs: seq<Chunk>): seq<Response> {
    if cs == [] then []
    else ErrorsOf(cs[..|cs| - 1]) + if cs[|cs| - 1].Broken? then [FinishedErr(cs[|cs| - 1].error)] else []
  }

  lemma {:induction false} ErrorsAreErrors(cs: seq<Chunk>)
    ensures |ErrorsOf(cs)| == BrokenIn(cs) && AllErrors(ErrorsOf(cs))
  {
    if cs != [] {
      ErrorsAreErrors(cs[..|cs| - 1]);
    }
  }

  /** Accepting chunks appends their samples, reports their errors, and closes the job at the first error. */
  lemma {:induction false} AcceptAllEffect(j: Job, cs: seq<Chunk>)
    ensures AcceptAll(j, cs) == j.(buffer := j.buffer + SamplesOf(cs),
                                   responses := j.responses + ErrorsOf(cs),
                                   closed := j.closed || BrokenIn(cs) > 0)
  {
    if cs == [] {
      assert j.buffer + [] == j.buffer && j.responses + [] == j.responses;
    } else {
      var n := |cs| - 1;
      AcceptAllEffect(j, cs[..n]);
      if cs[n].Audio? {
        assert j.buffer + SamplesOf(cs[..n]) + cs[n].samples == j.buffer + SamplesOf(cs);
        assert ErrorsOf(cs) == ErrorsOf(cs[..n]);
      } else {
        assert SamplesOf(cs) == SamplesOf(cs[..n]);
        assert j.responses + ErrorsOf(cs[..n]) + [FinishedErr(cs[n].error)] == j.responses + ErrorsOf(cs);
      }
    }
  }

  /** Appending responses of one kind leaves the other kinds alone. */
  lemma OneKindAppended(k: Kind, log: seq<Response>, out: seq<Response>)
    requires forall i :: 0 <= i < |out| ==> KindOf(out[i]) == k
    ensures Only(k, log + out) == Only(k, log) + out
    ensures forall other :: other != k ==> Only(other, log + out) == Only(other, log)
  {
    OnlyOneKind(k, out);
    forall kind ensures Only(kind, log + out) == Only(kind, log) + Only(kind, out) {
      OnlyAppends(kind, log, out);
    }
  }

  lemma DrainKeepsOutput(net: Net, r: Run, limit: nat)
    requires MayDrain(r.job, limit) && OutputOk(net, r) && FinalsOk(r)
    ensures OutputOk(net, RunDrain(r, limit)) && FinalsOk(RunDrain(r, limit))
  {
    AcceptAllEffect(r.job, r.job.chunks);
    ErrorsAreErrors(r.job.chunks);
    hide AcceptAll, SamplesOf, BrokenIn, ErrorsOf, Only, EventLog, Flat, SegmentsOut, Transcripts;
    OneKindAppended(Final, r.job.responses, ErrorsOf(r.job.chunks));
  }

  lemma ChainGrows(net: Net, id: nat, ws: nat, scored: seq<Scored>, received: seq<Sample>, more: seq<Sample>, closed: bool)
    requires ChainOk(net, id, ws, scored, received, false)
    ensures ChainOk(net, id, ws, scored, received + more, closed)
  {
    forall k | 0 <= k < |scored| ensures ScoredOk(net, id, ws, scored, k, received + more, closed) {
      assert ScoredOk(net, id, ws, scored, k, received, false);
      var s := scored[k];
      assert (received + more)[s.absStart..s.absStart + |s.job.samples|]
          == received[s.absStart..s.absStart + |s.job.samples|];
    }
  }

  lemma DrainKeepsVad(net: Net, r: Run, limit: nat, ws: nat)
    requires MayDrain(r.job, limit) && Conserved(r) && VadOk(net, r, ws)
    ensures VadOk(net, RunDrain(r, limit), ws)
  {
    AcceptAllEffect(r.job, r.job.chunks);
    hide AcceptAll, ErrorsOf, SamplesOf, BrokenIn, StateBefore;
    ChainGrows(net, r.job.id, ws, r.hist.scored, r.hist.received, SamplesOf(r.job.chunks), RunDrain(r, limit).job.closed);
  }

  lemma DrainKeepsWindows(r: Run, limit: nat)
    requires MayDrain(r.job, limit) && Conserved(r) && WindowsOk(r)
    ensures Conserved(RunDrain(r, limit)) && WindowsOk(RunDrain(r, limit))
  {
    var r' := RunDrain(r, limit);
    AcceptAllEffect(r.job, r.job.chunks);
    assert r'.job.buffer == r.job.buffer + SamplesOf(r.job.chunks);
    assert r'.job.buffer == r'.hist.received[r'.job.offset..];
    assert r'.hist.received[..r.job.offset] == r.hist.received[..r.job.offset];
  }

  lemma {:induction false} TakenSplit(a: seq<Chunk>, b: seq<Chunk>)
    ensures SamplesOf(a + b) == SamplesOf(a) + SamplesOf(b) && BrokenIn(a + b) == BrokenIn(a) + BrokenIn(b)
    decreases |b|
  {
    if b == [] {
      assert a + b == a;
    } else {
      var n := |b| - 1;
      assert (a + b)[..|a + b| - 1] == a + b[..n];
      TakenSplit(a, b[..n]);
    }
  }

  /** A chunk put on the channel is on it. */
  lemma FeedKeepsFed(r: Run, c: Chunk)
    requires FedOk(r) && !r.job.senderGone
    ensures FedOk(RunFeed(r, c))
  {
    var taken := TakenChunks(r);
    assert |taken| + |r.job.chunks| == |r.hist.fed|;
    assert RunFeed(r, c).hist.fed == taken + (r.job.chunks + [c]);
    assert TakenChunks(RunFeed(r, c)) == taken;
    hide SamplesOf, BrokenIn;
  }

  lemma DrainKeepsFed(r: Run, limit: nat)
    requires MayDrain(r.job, limit) && FedOk(r)
    ensures FedOk(RunDrain(r, limit))
  {
    var taken := TakenChunks(r);
    AcceptAllEffect(r.job, r.job.chunks);
    TakenSplit(taken, r.job.chunks);
    hide SamplesOf, BrokenIn, AcceptAll;
    var r' := RunDrain(r, limit);
    assert r'.job.chunks == [] && TakenChunks(r') == r.hist.fed;
    assert r.hist.fed + [] == r.hist.fed;
  }

  lemma DrainKeepsRunOk(net: Net, r: Run, limit: nat)
    requires RunOk(net, r, limit)
    ensures RunOk(net, RunDrain(r, limit), limit)
  {
    if MayDrain(r.job, limit) {
      AcceptAllEffect(r.job, r.job.chunks);
      DrainKeepsFed(r, limit);
      DrainKeepsOutput(net, r, limit);
      DrainKeepsWindows(r, limit);
      if r.job.vad.Some? {
        DrainKeepsVad(net, r, limit, r.job.vad.value.windowSamples);
      }
    }
  }

  // ------------------------------------------------------------- refresh

  lemma MoreIsDrained(id: nat, windows: seq<WhisperJob>, events: seq<seq<Span>>, drained: seq<Sample>, more: seq<Sample>)
    requires SlicesOk(id, windows, events, drained)
    ensures SlicesOk(id, windows, events, drained + more)
  {
    forall k | 0 <= k < |windows| ensures WindowOk(id, windows[k], events[k], k, drained + more) {
      var w := windows[k];
      assert WindowOk(id, w, events[k], k, drained);
      assert (drained + more)[w.absStart..w.absStart + |w.samples|] == drained[w.absStart..w.absStart + |w.samples|];
    }
  }

  lemma RefreshKeepsMode(net: Net, r: Run)
    requires Clears(r.job) && ModeOk(net, r)
    ensures ModeOk(net, RunRefresh(r))
  {
  }

  lemma RefreshKeepsWindows(r: Run)
    requires Clears(r.job) && Conserved(r) && WindowsOk(r)
    ensures Conserved(RunRefresh(r)) && WindowsOk(RunRefresh(r))
  {
    assert r.hist.received[..r.job.offset] + r.job.buffer == r.hist.received[..|r.hist.received|];
    MoreIsDrained(r.job.id, r.hist.windows, r.hist.events, r.hist.received[..r.job.offset], r.job.buffer);
  }

  lemma RefreshKeepsRunOk(net: Net, r: Run, limit: nat)
    requires RunOk(net, r, limit)
    ensures RunOk(net, RunRefresh(r), limit)
  {
    if Clears(r.job) {
      RefreshKeepsMode(net, r);
      RefreshKeepsWindows(r);
    }
  }

  // ---------------------------------------------------------- VAD round trip

  lemma ChainExtends(net: Net, id: nat, ws: nat, scored: seq<Scored>, s: Scored, received: seq<Sample>, closed: bool)
    requires ChainOk(net, id, ws, scored, received, closed)
    requires ScoredOk(net, id, ws, scored + [s], |scored|, received, closed)
    requires scored != [] ==> scored[|scored| - 1].absStart + ws <= s.absStart
    ensures ChainOk(net, id, ws, scored + [s], received, closed)
  {
    forall k | 0 <= k < |scored| ensures ScoredOk(net, id, ws, scored + [s], k, received, closed) {
      assert ScoredOk(net, id, ws, scored, k, received, closed);
    }
  }

  lemma VadSentKeepsVad(net: Net, r: Run, ws: nat)
    requires HasVadReady(r.job) && ws == r.job.vad.value.windowSamples
    requires Conserved(r) && VadOk(net, r, ws)
    ensures VadOk(net, RunVadSent(r), ws)
  {
    var n := |r.hist.scored|;
    var r' := RunVadSent(r);
    var sent := r'.hist.scored[n];
    assert sent.job.samples == r.hist.received[sent.absStart..sent.absStart + |sent.job.samples|];
    assert StateBefore(net, r'.hist.scored, n) == StateBefore(net, r.hist.scored, n);
    assert ScoredOk(net, r.job.id, ws, r'.hist.scored, n, r.hist.received, r.job.closed);
    ChainExtends(net, r.job.id, ws, r.hist.scored, sent, r.hist.received, r.job.closed);
  }

  lemma VadSentKeepsRunOk(net: Net, r: Run, limit: nat)
    requires RunOk(net, r, limit) && HasVadReady(r.job)
    ensures RunOk(net, RunVadSent(r), limit)
  {
    VadSentKeepsVad(net, r, r.job.vad.value.windowSamples);
  }

  lemma VadDoneKeepsVad(net: Net, r: Run, ws: nat)
    requires r.job.vad.Some? && ws == r.job.vad.value.windowSamples
    requires r.job.vadInFlight && Conserved(r) && VadOk(net, r, ws)
    ensures VadOk(net, RunVadDone(r, VadAnswer(net, r.hist.scored[|r.hist.scored| - 1].job)), ws)
  {
    assert ScoredOk(net, r.job.id, ws, r.hist.scored, |r.hist.scored| - 1, r.hist.received, r.job.closed);
  }

  /** The outstanding VAD window comes back with what the network makes of it. */
  lemma VadDoneKeepsRunOk(net: Net, r: Run, limit: nat)
    requires RunOk(net, r, limit) && r.job.vadInFlight
    ensures r.job.vad.Some? && |r.hist.scored| > 0
    ensures RunOk(net, RunVadDone(r, VadAnswer(net, r.hist.scored[|r.hist.scored| - 1].job)), limit)
  {
    VadDoneKeepsVad(net, r, r.job.vad.value.windowSamples);
  }

  // ------------------------------------------------------------ window cut

  lemma {:induction false} RebaseIsSuffix(probs: seq<Score>, end: nat)
    requires forall i, k :: 0 <= i < k < |probs| ==> probs[i].start <= probs[k].start
    ensures |Rebase(probs, end)| <= |probs|
    ensures var m := |probs| - |Rebase(probs, end)|;
            && (forall i :: 0 <= i < m ==> probs[i].start < end)
            && (forall i :: m <= i < |probs| ==>
                  probs[i].start >= end && Rebase(probs, end)[i - m] == Score(probs[i].start - end, probs[i].prob))
  {
    if probs != [] {
      var n := |probs| - 1;
      RebaseIsSuffix(probs[..n], end);
      var m := |probs| - |Rebase(probs, end)|;
      forall i | m <= i < |probs|
        ensures probs[i].start >= end && Rebase(probs, end)[i - m] == Score(probs[i].start - end, probs[i].prob)
      {
        if i < n {
          assert probs[..n][i] == probs[i];
          assert probs[i].start <= probs[n].start;
        }
      }
    }
  }

  lemma CutKeepsScores(net: Net, r: Run, p: Plan)
    requires Fits(r.job, p) && !r.job.vadInFlight && ScoresOk(net, r)
    requires forall i, k :: 0 <= i < k < |r.job.probs| ==> r.job.probs[i].start <= r.job.probs[k].start
    ensures ScoresOk(net, RunCut(r, p))
  {
    var r' := RunCut(r, p);
    RebaseIsSuffix(r.job.probs, p.end);
    var m := |r.job.probs| - |r'.job.probs|;
    forall i | 0 <= i < |r'.job.probs|
      ensures && r'.job.probs[i].start < |r'.job.buffer|
              && r'.hist.scored[r'.hist.dropped + i].absStart == r'.job.offset + r'.job.probs[i].start
              && r'.job.probs[i].prob == VadAnswer(net, r'.hist.scored[r'.hist.dropped + i].job).prob
    {
      assert r'.job.probs[i] == Score(r.job.probs[m + i].start - p.end, r.job.probs[m + i].prob);
      assert r'.hist.scored[r'.hist.dropped + i] == r.hist.scored[r.hist.dropped + (m + i)];
    }
  }

  lemma CutKeepsVad(net: Net, r: Run, p: Plan, ws: nat)
    requires r.job.vad.Some? && ws == r.job.vad.value.windowSamples
    requires !r.job.vadInFlight && Fits(r.job, p) && 0 < p.end
    requires Conserved(r) && VadOk(net, r, ws)
    ensures VadOk(net, RunCut(r, p), ws)
  {
    RunIsSound(net, r);
    CutKeepsScores(net, r, p);
  }

  lemma CutKeepsFixed(r: Run, p: Plan)
    requires r.job.vad.None? && FixedOk(r) && Conserved(r) && NextPlan(r.job) == Some(p)
    ensures Fits(r.job, p) && FixedOk(RunCut(r, p))
  {
  }

  lemma CutKeepsOutput(net: Net, r: Run, p: Plan)
    requires Fits(r.job, p) && OutputOk(net, r) && FinalsOk(r)
    ensures OutputOk(net, RunCut(r, p)) && FinalsOk(RunCut(r, p))
  {
    var r' := RunCut(r, p);
    EventsAreSpeech(r.job.offset, p.events);
    OneKindAppended(Speech, r.job.responses, EventResponses(r.job.offset, p.events));
    assert r'.hist.events[..|r.hist.events|] == r.hist.events;
    var next := r.job.nextResult;
    assert Transcripts(net, r'.hist.windows)[..next] == Transcripts(net, r.hist.windows)[..next];
  }

  lemma SlicesExtend(id: nat, windows: seq<WhisperJob>, events: seq<seq<Span>>, drained: seq<Sample>, w: WhisperJob, es: seq<Span>)
    requires SlicesOk(id, windows, events, drained) && WindowOk(id, w, es, |windows|, drained)
    requires forall k :: 0 <= k < |windows| ==> windows[k].absStart + |windows[k].samples| <= w.absStart
    ensures SlicesOk(id, windows + [w], events + [es], drained)
  {
  }

  lemma CutWindowOk(r: Run, p: Plan)
    requires Conserved(r) && Fits(r.job, p) && p.start < p.end <= p.start + W.N_SAMPLES
    requires forall i :: 0 <= i < |p.events| ==> p.start <= p.events[i].start < p.events[i].end <= p.end
    requires forall i, k :: 0 <= i < k < |p.events| ==> p.events[i].end < p.events[k].start
    ensures WindowOk(r.job.id, WindowJob(r.job, p), Shifted(r.job.offset, p.events), r.job.nextWindow,
                     r.hist.received[..r.job.offset] + r.job.buffer[..p.end])
  {
    var w := WindowJob(r.job, p);
    assert w.samples == (r.hist.received[..r.job.offset] + r.job.buffer[..p.end])[w.absStart..w.absStart + |w.samples|];
  }

  lemma CutKeepsWindows(r: Run, p: Plan)
    requires Conserved(r) && WindowsOk(r) && Fits(r.job, p) && r.job.nextWindow == |r.hist.windows|
    requires p.start < p.end <= p.start + W.N_SAMPLES
    requires forall i :: 0 <= i < |p.events| ==> p.start <= p.events[i].start < p.events[i].end <= p.end
    requires forall i, k :: 0 <= i < k < |p.events| ==> p.events[i].end < p.events[k].start
    ensures Conserved(RunCut(r, p)) && WindowsOk(RunCut(r, p))
  {
    var h, offset := r.hist, r.job.offset;
    var drained, more := h.received[..offset], r.job.buffer[..p.end];
    assert h.received[..offset + p.end] == drained + more;
    forall k | 0 <= k < |h.windows| ensures h.windows[k].absStart + |h.windows[k].samples| <= offset {
      assert WindowOk(r.job.id, h.windows[k], h.events[k], k, drained);
    }
    MoreIsDrained(r.job.id, h.windows, h.events, drained, more);
    CutWindowOk(r, p);
    hide SlicesOk, WindowOk, Shifted;
    SlicesExtend(r.job.id, h.windows, h.events, drained + more, WindowJob(r.job, p), Shifted(offset, p.events));
  }

  lemma CutKeepsCounters(net: Net, r: Run, p: Plan, limit: nat)
    requires CountersOk(net, r, limit) && Fits(r.job, p) && r.job.inFlight < limit
    ensures CountersOk(net, RunCut(r, p), limit)
  {
  }

  lemma CutKeepsRunOk(net: Net, r: Run, limit: nat)
    requires RunOk(net, r, limit) && MayDispatch(r.job, limit)
    ensures Fits(r.job, NextPlan(r.job).value)
    ensures RunOk(net, RunCut(r, NextPlan(r.job).value), limit)
  {
    var p := NextPlan(r.job).value;
    RunIsSound(net, r);
    SoundPlanShape(r.job);
    CutKeepsWindows(r, p);
    CutKeepsOutput(net, r, p);
    CutKeepsCounters(net, r, p, limit);
    if r.job.vad.Some? {
      CutKeepsVad(net, r, p, r.job.vad.value.windowSamples);
    } else {
      CutKeepsFixed(r, p);
    }
  }

  // ---------------------------------------------------------- result arrives

  /** A window that has been cut and whose result has not come back. */
  predicate Awaited(j: Job, k: nat) {
    j.nextResult <= k < j.nextWindow && k !in j.pending
  }

  lemma AwaitedMeansInFlight(net: Net, r: Run, limit: nat, k: nat)
    requires CountersOk(net, r, limit) && Awaited(r.job, k)
    ensures r.job.inFlight > 0
  {
    var j := r.job;
    if k == j.nextResult {
      Reorder.KeysFit(j.pending, j.nextResult + 1, j.nextWindow);
    } else {
      ParkingOne(j.pending, k, []);
      Reorder.KeysFit(j.pending[k := []], j.nextResult + 1, j.nextWindow);
    }
  }

  lemma FlatOfPrefix(parts: seq<seq<Segment>>, a: nat, b: nat)
    requires a <= b <= |parts|
    ensures Flat(parts[..b]) == Flat(parts[..a]) + Flat(parts[a..b])
    decreases b - a
  {
    if a < b {
      FlatOfPrefix(parts, a, b - 1);
      assert parts[..b][..b - 1] == parts[..b - 1];
      assert parts[a..b][..b - a - 1] == parts[a..b - 1];
    } else {
      assert parts[a..b] == [];
    }
  }

  lemma ReleasedText(log: seq<Response>, all: seq<seq<Segment>>, a: nat, b: nat)
    requires a <= b <= |all|
    requires Only(Text, log) == SegmentsOut(Flat(all[..a]))
    ensures var out := SegmentsOut(Flat(all[a..b]));
            && Only(Text, log + out) == SegmentsOut(Flat(all[..b]))
            && Only(Speech, log + out) == Only(Speech, log)
            && Only(Final, log + out) == Only(Final, log)
  {
    FlatOfPrefix(all, a, b);
    var before, out := Flat(all[..a]), Flat(all[a..b]);
    OneKindAppended(Text, log, SegmentsOut(out));
    assert SegmentsOut(before + out) == SegmentsOut(before) + SegmentsOut(out);
  }

  /** Against any list of transcripts the parked ones agree with, a new one makes the log read on in order. */
  lemma ReleaseKeepsLog(j: Job, k: nat, all: seq<seq<Segment>>)
    requires k < |all| && j.nextResult <= j.nextWindow <= |all|
    requires Reorder.Faithful(j.pending[k := all[k]], all, j.nextResult, j.nextWindow)
    requires Only(Text, j.responses) == SegmentsOut(Flat(all[..j.nextResult]))
    ensures var j' := HandleResult(j, k, all[k]);
            && j'.nextResult <= |all|
            && Only(Text, j'.responses) == SegmentsOut(Flat(all[..j'.nextResult]))
            && Only(Speech, j'.responses) == Only(Speech, j.responses)
            && Only(Final, j'.responses) == Only(Final, j.responses)
  {
    hide Reorder.Released, Reorder.Parked, Reorder.Faithful, Flat, SegmentsOut, Only;
    var pending, next := j.pending[k := all[k]], j.nextResult;
    Reorder.ReleaseInOrder(pending, next, all, j.nextWindow);
    ReleasedText(j.responses, all, next, next + |Reorder.Released(pending, next)|);
  }

  lemma ResultKeepsOutput(net: Net, r: Run, k: nat)
    requires r.job.nextWindow <= |r.hist.windows| && OutputOk(net, r) && FinalsOk(r)
    requires r.job.nextResult <= r.job.nextWindow
    requires var all := Transcripts(net, r.hist.windows);
             k < |all| && Reorder.Faithful(r.job.pending[k := all[k]], all, r.job.nextResult, r.job.nextWindow)
    ensures OutputOk(net, RunResult(r, k, Transcribe(net, r.hist.windows[k])))
    ensures FinalsOk(RunResult(r, k, Transcribe(net, r.hist.windows[k])))
  {
    hide Reorder.Released, Reorder.Parked, Reorder.Faithful, Flat, SegmentsOut, Only;
    ReleaseKeepsLog(r.job, k, Transcripts(net, r.hist.windows));
  }

  lemma ParkingOne<T>(pending: map<nat, T>, k: nat, v: T)
    requires k !in pending
    ensures |pending[k := v]| == |pending| + 1
  {
    assert pending[k := v] - {k} == pending;
    Reorder.PopShrinks(pending[k := v], k);
  }

  lemma ResultKeepsCounters(net: Net, r: Run, limit: nat, k: nat)
    requires CountersOk(net, r, limit) && Awaited(r.job, k)
    ensures CountersOk(net, RunResult(r, k, Transcribe(net, r.hist.windows[k])), limit)
    ensures var j' := RunResult(r, k, Transcribe(net, r.hist.windows[k])).job;
            && j'.inFlight == r.job.inFlight - 1
            && forall m: nat :: Awaited(j', m) <==> Awaited(r.job, m) && m != k
  {
    hide Reorder.Released, Reorder.Parked, Flat, SegmentsOut;
    var j, all := r.job, Transcripts(net, r.hist.windows);
    AwaitedMeansInFlight(net, r, limit, k);
    ParkingOne(j.pending, k, all[k]);
    var pending := j.pending[k := all[k]];
    Reorder.ReleaseInOrder(pending, j.nextResult, all, j.nextWindow);
    var j' := HandleResult(j, k, all[k]);
    forall m: nat ensures Awaited(j', m) <==> Awaited(j, m) && m != k {
      assert m in pending <==> m in j.pending || m == k;
      assert m in j'.pending <==> m in pending && j'.nextResult <= m;
    }
  }

  /** Neither the mode's bookkeeping nor the slices look at what a result changes. */
  lemma UntouchedByResults(net: Net, r: Run, j': Job)
    requires Conserved(r) && WindowsOk(r) && ModeOk(net, r)
    requires j' == r.job.(inFlight := j'.inFlight, completed := j'.completed, pending := j'.pending,
                          nextResult := j'.nextResult, responses := j'.responses,
                          chunks := j'.chunks, senderGone := j'.senderGone)
    ensures Conserved(Run(j', r.hist)) && WindowsOk(Run(j', r.hist)) && ModeOk(net, Run(j', r.hist))
  {
  }

  /** An awaited window's transcript arrives: whatever has become releasable is sent, in order. */
  lemma ResultKeepsRunOk(net: Net, r: Run, limit: nat, k: nat)
    requires RunOk(net, r, limit) && Awaited(r.job, k)
    ensures RunOk(net, RunResult(r, k, Transcribe(net, r.hist.windows[k])), limit)
  {
    hide Conserved, WindowsOk, OutputOk, FinalsOk, ModeOk, SamplesOf, BrokenIn;
    ResultKeepsCounters(net, r, limit, k);
    ResultKeepsOutput(net, r, k);
    UntouchedByResults(net, r, HandleResult(r.job, k, Transcribe(net, r.hist.windows[k])));
    hide CountersOk, HandleResult;
  }

  // ------------------------------------------------------------- completion

  /** What a finished job has delivered. */
  ghost predicate Delivered(net: Net, r: Run) {
    var j, h := r.job, r.hist;
    // every cut window was transcribed and emitted exactly once, in order; nothing is parked or outstanding
    && j.pending == map[] && j.inFlight == 0
    && j.nextResult == j.dispatched == j.completed == |h.windows|
    && Only(Text, j.responses) == SegmentsOut(Flat(Transcripts(net, h.windows)))
    && Only(Speech, j.responses) == EventLog(h.events)
    // the final responses are the chunk errors, then one success
    && |Only(Final, j.responses)| == h.broken + 1
    && j.responses != [] && j.responses[|j.responses| - 1] == Finished(|h.windows|, |h.windows|)
    && AllErrors(Only(Final, j.responses)[..h.broken])
    // what was taken from the channel was consumed, and the windows are slices of it
    && j.closed && j.buffer == []
    && LogOk(net, r)
  }

  /** `is_complete` never looks at the parked results, yet implies there are none. */
  lemma CompleteMeansNothingParked(net: Net, r: Run, limit: nat)
    requires CountersOk(net, r, limit) && IsComplete(r.job)
    ensures r.job.pending == map[] && r.job.nextResult == r.job.nextWindow
  {
    var j := r.job;
    if j.nextResult < j.nextWindow {
      Reorder.KeysFit(j.pending, j.nextResult + 1, j.nextWindow);
    }
    assert |j.pending| == 0;
  }

  lemma FinishKeepsOutput(net: Net, r: Run)
    requires OutputOk(net, r) && FinalsOk(r)
    ensures OutputOk(net, RunFinish(r))
    ensures |Only(Final, Finish(r.job).responses)| == r.hist.broken + 1
    ensures AllErrors(Only(Final, Finish(r.job).responses)[..r.hist.broken])
  {
    OneKindAppended(Final, r.job.responses, [Finished(r.job.dispatched, r.job.completed)]);
  }

  lemma FinishDelivers(net: Net, r: Run, limit: nat)
    requires RunOk(net, r, limit) && IsComplete(r.job)
    ensures Delivered(net, RunFinish(r))
  {
    CompleteMeansNothingParked(net, r, limit);
    FinishKeepsOutput(net, r);
    UntouchedByResults(net, r, Finish(r.job));
    var all := Transcripts(net, r.hist.windows);
    assert all[..r.job.nextResult] == all;
  }
}
