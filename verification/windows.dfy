/**
 Cutting audio into encoder windows of at most 30 seconds
 (rkwhisper/src/whisper.rs): fixed windows without speech segments, greedy
 packing of segments with them.
 */
module Windows {
  import opened Wrappers
  import opened Vad
  import VadTheorems

  const N_SAMPLES: nat := 480000

  datatype AudioWindow = AudioWindow(index: nat, start: nat, end: nat)

  function FixedAudioWindows(audioLen: nat): seq<AudioWindow> {
    seq((audioLen + N_SAMPLES - 1) / N_SAMPLES,
        i requires i >= 0 => AudioWindow(i, i * N_SAMPLES, Min(i * N_SAMPLES + N_SAMPLES, audioLen)))
  }

  /** The chunks of a segment that is longer than a window; `index` numbers the first one. */
  function Split(index: nat, start: nat, end: nat): seq<AudioWindow>
    decreases end - start
  {
    if start >= end then []
    else
      var cut := Min(start + N_SAMPLES, end);
      [AudioWindow(index, start, cut)] + Split(index + 1, cut, end)
  }

  /** The packer's state: windows emitted and the group being filled. */
  datatype Pack = Pack(windows: seq<AudioWindow>, groupStart: Option<nat>, groupEnd: nat, groupSpeech: nat)

  predicate WallClockOverflow(st: Pack, seg: Span) {
    st.groupStart.Some? && seg.end - st.groupStart.value > N_SAMPLES
  }

  predicate SpeechOverflow(st: Pack, seg: Span) {
    st.groupSpeech + (seg.end - seg.start) > N_SAMPLES
  }

  /** Emits the open group, if there is one. */
  function Emit(st: Pack): Pack {
    if st.groupStart.None? then st
    else Pack(st.windows + [AudioWindow(|st.windows|, st.groupStart.value, st.groupEnd)], None, st.groupEnd, 0)
  }

  function PackStep(st: Pack, seg: Span): Pack
    requires seg.start <= seg.end
  {
    if seg.end - seg.start > N_SAMPLES then
      var st1 := Emit(st);
      st1.(windows := st1.windows + Split(|st1.windows|, seg.start, seg.end))
    else
      var st1 := if WallClockOverflow(st, seg) || SpeechOverflow(st, seg) then Emit(st) else st;
      Pack(st1.windows,
           if st1.groupStart.None? then Some(seg.start) else st1.groupStart,
           seg.end,
           st1.groupSpeech + (seg.end - seg.start))
  }

  ghost predicate Forward(segs: seq<Span>) {
    forall i :: 0 <= i < |segs| ==> segs[i].start <= segs[i].end
  }

  function PackAll(segs: seq<Span>): Pack
    requires forall i :: 0 <= i < |segs| ==> segs[i].start <= segs[i].end
  {
    if segs == [] then Pack([], None, 0, 0)
    else PackStep(PackAll(segs[..|segs| - 1]), segs[|segs| - 1])
  }

  function PackedWindows(segs: seq<Span>): seq<AudioWindow>
    requires forall i :: 0 <= i < |segs| ==> segs[i].start <= segs[i].end
  {
    Emit(PackAll(segs)).windows
  }

  function TranscriptionWindows(audioLen: nat, segs: seq<Span>): seq<AudioWindow>
    requires forall i :: 0 <= i < |segs| ==> segs[i].start <= segs[i].end
  {
    if segs == [] then FixedAudioWindows(audioLen) else PackedWindows(segs)
  }

  lemma {:induction false} SplitAppends(index: nat, start: nat, cut: nat, end: nat)
    requires start < end && cut == Min(start + N_SAMPLES, end)
    ensures Split(index, start, end) == [AudioWindow(index, start, cut)] + Split(index + 1, cut, end)
  {
  }

  lemma SplitOfNothing(index: nat, start: nat, end: nat)
    requires start >= end
    ensures Split(index, start, end) == []
  {
  }

  lemma PackAllOfNothing()
    ensures PackAll([]) == Pack([], None, 0, 0)
  {
  }

  lemma PackAllNext(segs: seq<Span>, k: nat)
    requires Forward(segs) && k < |segs|
    ensures PackAll(segs[..k + 1]) == PackStep(PackAll(segs[..k]), segs[k])
  {
    assert segs[..k + 1][..k] == segs[..k];
  }

  method VadAudioWindows(segs: seq<Span>) returns (windows: seq<AudioWindow>)
    requires Forward(segs)
    ensures windows == PackedWindows(segs)
  {
    PackAllOfNothing();
    windows := [];
    if segs == [] {
      return;
    }
    hide PackAll, Split;
    var groupStart: Option<nat> := None;
    var groupEnd: nat := 0;
    var groupSpeech: nat := 0;
    for k := 0 to |segs|
      invariant Pack(windows, groupStart, groupEnd, groupSpeech) == PackAll(segs[..k])
    {
      PackAllNext(segs, k);
      var seg := segs[k];
      var segLen := seg.end - seg.start;
      if segLen > N_SAMPLES {
        if groupStart.Some? {
          windows := windows + [AudioWindow(|windows|, groupStart.value, groupEnd)];
          groupStart := None;
          groupSpeech := 0;
        }
        var start := seg.start;
        ghost var flushed := windows;
        while start < seg.end
          invariant seg.start <= start <= seg.end
          invariant windows + Split(|windows|, start, seg.end) == flushed + Split(|flushed|, seg.start, seg.end)
        {
          var end := Min(start + N_SAMPLES, seg.end);
          SplitAppends(|windows|, start, end, seg.end);
          assert windows + ([AudioWindow(|windows|, start, end)] + Split(|windows| + 1, end, seg.end))
              == (windows + [AudioWindow(|windows|, start, end)]) + Split(|windows| + 1, end, seg.end);
          windows := windows + [AudioWindow(|windows|, start, end)];
          start := end;
        }
        SplitOfNothing(|windows|, start, seg.end);
      } else {
        var wallClockOverflow := groupStart.Some? && seg.end - groupStart.value > N_SAMPLES;
        var speechOverflow := groupSpeech + segLen > N_SAMPLES;
        if (wallClockOverflow || speechOverflow) && groupStart.Some? {
          windows := windows + [AudioWindow(|windows|, groupStart.value, groupEnd)];
          groupStart := None;
          groupSpeech := 0;
        }
        if groupStart.None? {
          groupStart := Some(seg.start);
        }
        groupEnd := seg.end;
        groupSpeech := groupSpeech + segLen;
      }
    }
    assert segs[..|segs|] == segs;
    if groupStart.Some? {
      windows := windows + [AudioWindow(|windows|, groupStart.value, groupEnd)];
    }
  }

  // ------------------------------------------------------------- vocabulary

  /** Segments as the segmenter produces them: non-empty and in order, without overlap. */
  ghost predicate Sorted(segs: seq<Span>) {
    && (forall i :: 0 <= i < |segs| ==> segs[i].start < segs[i].end)
    && (forall i, j :: 0 <= i < j < |segs| ==> segs[i].end <= segs[j].start)
  }

  /** Windows numbered consecutively, in order, without overlap, each 1 to N_SAMPLES long. */
  ghost predicate WellCut(windows: seq<AudioWindow>) {
    && (forall i :: 0 <= i < |windows| ==>
          windows[i].index == i && 0 < windows[i].end - windows[i].start <= N_SAMPLES)
    && (forall i, j :: 0 <= i < j < |windows| ==> windows[i].end <= windows[j].start)
  }

  ghost predicate InWindow(windows: seq<AudioWindow>, x: int) {
    exists i :: 0 <= i < |windows| && windows[i].start <= x < windows[i].end
  }

  ghost predicate EndBy(windows: seq<AudioWindow>, x: nat) {
    forall i :: 0 <= i < |windows| ==> windows[i].end <= x
  }

  /** Contiguous windows from 0 to len, all full but possibly the last. */
  ghost predicate Tiles(windows: seq<AudioWindow>, len: nat) {
    && (|windows| == 0 <==> len == 0)
    && (forall i :: 0 <= i < |windows| ==>
          && windows[i].index == i && windows[i].start == i * N_SAMPLES
          && windows[i].end == (if i < |windows| - 1 then (i + 1) * N_SAMPLES else len)
          && windows[i].start < windows[i].end <= windows[i].start + N_SAMPLES)
  }

  lemma FixedWindowsTile(audioLen: nat)
    ensures Tiles(FixedAudioWindows(audioLen), audioLen)
  {
    var n := (audioLen + N_SAMPLES - 1) / N_SAMPLES;
    assert audioLen <= n * N_SAMPLES < audioLen + N_SAMPLES;
  }

  lemma TilesAreWellCut(windows: seq<AudioWindow>, len: nat)
    requires Tiles(windows, len)
    ensures WellCut(windows) && EndBy(windows, len)
    ensures forall x :: 0 <= x < len ==> InWindow(windows, x)
  {
    assert forall i :: 0 <= i < |windows| - 1 ==> windows[i].end <= windows[|windows| - 1].start;
    forall x | 0 <= x < len ensures InWindow(windows, x) {
      var i := Min(x / N_SAMPLES, |windows| - 1);
      assert windows[i].start <= x < windows[i].end;
    }
  }

  // ---------------------------------------------------------- the packing

  ghost predicate PackOk(segs: seq<Span>, st: Pack)
  {
    && WellCut(st.windows)
    && (segs == [] ==> st.groupStart.None? && st.windows == [])
    && (if st.groupStart.None? then
          st.groupSpeech == 0 && (segs != [] ==> EndBy(st.windows, segs[|segs| - 1].end))
        else
          && segs != [] && st.groupEnd == segs[|segs| - 1].end
          && EndBy(st.windows, st.groupStart.value)
          && 0 < st.groupEnd - st.groupStart.value <= N_SAMPLES
          && st.groupSpeech <= st.groupEnd - st.groupStart.value)
  }

  lemma {:induction false} SplitIsWellCut(before: seq<AudioWindow>, start: nat, end: nat)
    requires WellCut(before) && EndBy(before, start) && start <= end
    ensures WellCut(before + Split(|before|, start, end)) && EndBy(before + Split(|before|, start, end), end)
    ensures forall x :: start <= x < end ==> InWindow(Split(|before|, start, end), x)
    decreases end - start
  {
    if start < end {
      var cut := Min(start + N_SAMPLES, end);
      var w := AudioWindow(|before|, start, cut);
      SplitIsWellCut(before + [w], cut, end);
      assert |before + [w]| == |before| + 1;
      var rest := Split(|before| + 1, cut, end);
      assert before + ([w] + rest) == before + [w] + rest;
      forall x | start <= x < end ensures InWindow([w] + rest, x) {
        if x < cut {
          assert ([w] + rest)[0] == w;
        } else {
          assert InWindow(rest, x);
          var i :| 0 <= i < |rest| && rest[i].start <= x < rest[i].end;
          assert ([w] + rest)[i + 1] == rest[i];
        }
      }
    }
  }

  lemma EmitKeepsOk(segs: seq<Span>, st: Pack)
    requires PackOk(segs, st)
    ensures PackOk(segs, Emit(st)) && Emit(st).groupStart.None?
  {
  }

  lemma PackStepKeepsOk(segs: seq<Span>, st: Pack, seg: Span)
    requires Sorted(segs + [seg]) && PackOk(segs, st) && seg.start < seg.end
    ensures PackOk(segs + [seg], PackStep(st, seg))
  {
    var longer := segs + [seg];
    assert longer[|segs|] == seg;
    assert segs != [] ==> longer[|segs| - 1] == segs[|segs| - 1] && segs[|segs| - 1].end <= seg.start;
    EmitKeepsOk(segs, st);
    if seg.end - seg.start > N_SAMPLES {
      SplitIsWellCut(Emit(st).windows, seg.start, seg.end);
    }
  }

  lemma SortedPrefix(segs: seq<Span>)
    requires Sorted(segs) && segs != []
    ensures Sorted(segs[..|segs| - 1]) && segs == segs[..|segs| - 1] + [segs[|segs| - 1]]
  {
  }

  lemma {:induction false} PackKeepsOk(segs: seq<Span>)
    requires Sorted(segs)
    ensures PackOk(segs, PackAll(segs))
  {
    if segs != [] {
      SortedPrefix(segs);
      PackKeepsOk(segs[..|segs| - 1]);
      PackStepKeepsOk(segs[..|segs| - 1], PackAll(segs[..|segs| - 1]), segs[|segs| - 1]);
    }
  }

  /** Packed windows are numbered, ordered, disjoint, never too long, and end where the speech ends. */
  lemma PackedWindowsAreWellCut(segs: seq<Span>)
    requires Sorted(segs)
    ensures WellCut(PackedWindows(segs))
    ensures segs != [] ==> EndBy(PackedWindows(segs), segs[|segs| - 1].end)
  {
    PackKeepsOk(segs);
    EmitKeepsOk(segs, PackAll(segs));
  }

  /** The speech budget is redundant: it never overflows unless the wall clock does. */
  lemma SpeechBudgetNeverFiresAlone(segs: seq<Span>, seg: Span)
    requires Sorted(segs + [seg]) && seg.end - seg.start <= N_SAMPLES
    ensures Forward(segs)
    ensures SpeechOverflow(PackAll(segs), seg) ==> WallClockOverflow(PackAll(segs), seg)
  {
    SortedPrefix(segs + [seg]);
    assert (segs + [seg])[..|segs|] == segs;
    PackKeepsOk(segs);
    assert segs != [] ==> (segs + [seg])[|segs| - 1].end <= (segs + [seg])[|segs|].start;
  }

  // ------------------------------------------------------------- coverage

  ghost predicate Reached(st: Pack, x: int) {
    InWindow(st.windows, x) || (st.groupStart.Some? && st.groupStart.value <= x < st.groupEnd)
  }

  lemma EmitReaches(st: Pack, x: int)
    ensures Reached(st, x) <==> InWindow(Emit(st).windows, x)
    ensures Reached(Emit(st), x) <==> Reached(st, x)
  {
    var after := Emit(st).windows;
    if InWindow(st.windows, x) {
      var i :| 0 <= i < |st.windows| && st.windows[i].start <= x < st.windows[i].end;
      assert after[i] == st.windows[i];
    }
    if st.groupStart.Some? {
      assert after[|st.windows|] == AudioWindow(|st.windows|, st.groupStart.value, st.groupEnd);
    }
  }

  lemma AppendReaches(a: seq<AudioWindow>, b: seq<AudioWindow>, x: int)
    ensures InWindow(a + b, x) <==> InWindow(a, x) || InWindow(b, x)
  {
    if InWindow(a, x) {
      var i :| 0 <= i < |a| && a[i].start <= x < a[i].end;
      assert (a + b)[i] == a[i];
    }
    if InWindow(b, x) {
      var i :| 0 <= i < |b| && b[i].start <= x < b[i].end;
      assert (a + b)[|a| + i] == b[i];
    }
  }

  lemma PackStepReaches(segs: seq<Span>, st: Pack, seg: Span, x: int)
    requires Sorted(segs + [seg]) && PackOk(segs, st) && seg.start < seg.end
    requires Reached(st, x) || Holds(seg, x)
    ensures Reached(PackStep(st, seg), x)
  {
    EmitReaches(st, x);
    assert segs != [] ==> (segs + [seg])[|segs| - 1].end <= (segs + [seg])[|segs|].start;
    if seg.end - seg.start > N_SAMPLES {
      var st1 := Emit(st);
      EmitKeepsOk(segs, st);
      SplitIsWellCut(st1.windows, seg.start, seg.end);
      AppendReaches(st1.windows, Split(|st1.windows|, seg.start, seg.end), x);
    }
  }

  lemma {:induction false} PackReachesSpeech(segs: seq<Span>, i: nat, x: int)
    requires Sorted(segs) && i < |segs| && Holds(segs[i], x)
    ensures Reached(PackAll(segs), x)
  {
    var n := |segs| - 1;
    SortedPrefix(segs);
    PackKeepsOk(segs[..n]);
    if i < n {
      PackReachesSpeech(segs[..n], i, x);
    }
    hide Reached, PackOk, PackStep;
    PackStepReaches(segs[..n], PackAll(segs[..n]), segs[n], x);
  }

  /** Every speech sample is in a window. */
  lemma PackedWindowsCoverSpeech(segs: seq<Span>, x: int)
    requires Sorted(segs) && Covers(segs, x)
    ensures InWindow(PackedWindows(segs), x)
  {
    var i :| 0 <= i < |segs| && Holds(segs[i], x);
    PackReachesSpeech(segs, i, x);
    EmitReaches(PackAll(segs), x);
  }

  // ----------------------------------------------------------- optimality

  ghost predicate NoneTooLong(segs: seq<Span>) {
    forall i :: 0 <= i < |segs| ==> segs[i].end - segs[i].start <= N_SAMPLES
  }

  /** Segments no two of which fit in one window. */
  ghost predicate PairwiseTooFar(segs: seq<Span>, leaders: seq<nat>) {
    && (forall a :: 0 <= a < |leaders| ==> leaders[a] < |segs|)
    && (forall a, b :: 0 <= a < b < |leaders| ==> segs[leaders[b]].end - segs[leaders[a]].start > N_SAMPLES)
  }

  function Groups(st: Pack): nat { |st.windows| + if st.groupStart.Some? then 1 else 0 }

  ghost predicate LeadersOk(segs: seq<Span>, st: Pack, leaders: seq<nat>) {
    && PairwiseTooFar(segs, leaders)
    && |leaders| == Groups(st)
    && (segs != [] ==> st.groupStart.Some?)
    && (st.groupStart.Some? ==>
          forall a :: 0 <= a < |leaders| ==> segs[leaders[a]].start <= st.groupStart.value)
  }

  lemma AddLeader(segs: seq<Span>, seg: Span, leaders: seq<nat>)
    requires PairwiseTooFar(segs, leaders)
    requires forall a :: 0 <= a < |leaders| ==> seg.end - segs[leaders[a]].start > N_SAMPLES
    ensures PairwiseTooFar(segs + [seg], leaders + [|segs|])
  {
    var longer := segs + [seg];
    assert forall a :: 0 <= a < |leaders| ==> longer[leaders[a]] == segs[leaders[a]];
    assert longer[|segs|] == seg;
  }

  lemma KeepLeaders(segs: seq<Span>, seg: Span, leaders: seq<nat>)
    requires PairwiseTooFar(segs, leaders)
    ensures PairwiseTooFar(segs + [seg], leaders)
  {
    var longer := segs + [seg];
    assert forall a :: 0 <= a < |leaders| ==> longer[leaders[a]] == segs[leaders[a]];
  }

  ghost predicate NextFollows(segs: seq<Span>, st: Pack, seg: Span) {
    && seg.start <= seg.end
    && (segs == [] ==> st == Pack([], None, 0, 0))
    && (st.groupStart.Some? ==> st.groupStart.value <= seg.start)
    && (SpeechOverflow(st, seg) ==> WallClockOverflow(st, seg))
  }

  lemma PackAllIsFollowed(segs: seq<Span>, seg: Span)
    requires Sorted(segs) && Sorted(segs + [seg]) && 0 < seg.end - seg.start <= N_SAMPLES
    ensures NextFollows(segs, PackAll(segs), seg)
  {
    PackKeepsOk(segs);
    SpeechBudgetNeverFiresAlone(segs, seg);
    assert segs != [] ==> (segs + [seg])[|segs| - 1].end <= (segs + [seg])[|segs|].start;
  }

  /** A segment that is not too long opens a group or joins the open one. */
  lemma ShortStep(segs: seq<Span>, st: Pack, seg: Span)
    requires 0 < seg.end - seg.start <= N_SAMPLES && NextFollows(segs, st, seg)
    requires segs != [] ==> st.groupStart.Some?
    ensures var st' := PackStep(st, seg);
            if segs == [] || WallClockOverflow(st, seg)
            then Groups(st') == Groups(st) + 1 && st'.groupStart == Some(seg.start)
            else Groups(st') == Groups(st) && st'.groupStart == st.groupStart
  {
  }

  lemma LeaderAdded(segs: seq<Span>, seg: Span, st: Pack, st': Pack, leaders: seq<nat>)
    requires LeadersOk(segs, st, leaders)
    requires Groups(st') == Groups(st) + 1 && st'.groupStart == Some(seg.start)
    requires segs != [] ==> st.groupStart.value <= seg.start && seg.end - st.groupStart.value > N_SAMPLES
    requires segs == [] ==> leaders == []
    ensures LeadersOk(segs + [seg], st', leaders + [|segs|])
  {
    var longer := segs + [seg];
    assert forall a :: 0 <= a < |leaders| ==> longer[leaders[a]] == segs[leaders[a]];
    assert longer[|segs|] == seg;
    AddLeader(segs, seg, leaders);
    hide PairwiseTooFar;
  }

  lemma LeadersKept(segs: seq<Span>, seg: Span, st: Pack, st': Pack, leaders: seq<nat>)
    requires LeadersOk(segs, st, leaders) && segs != []
    requires Groups(st') == Groups(st) && st'.groupStart == st.groupStart
    ensures LeadersOk(segs + [seg], st', leaders)
  {
    var longer := segs + [seg];
    assert forall a :: 0 <= a < |leaders| ==> longer[leaders[a]] == segs[leaders[a]];
    KeepLeaders(segs, seg, leaders);
    hide PairwiseTooFar;
  }

  lemma LeadersStep(segs: seq<Span>, seg: Span, st: Pack, leaders: seq<nat>)
    requires 0 < seg.end - seg.start <= N_SAMPLES
    requires NextFollows(segs, st, seg) && LeadersOk(segs, st, leaders)
    ensures LeadersOk(segs + [seg], PackStep(st, seg),
                      if segs == [] || WallClockOverflow(st, seg) then leaders + [|segs|] else leaders)
  {
    ShortStep(segs, st, seg);
    hide PackStep, PairwiseTooFar;
    if segs == [] || WallClockOverflow(st, seg) {
      LeaderAdded(segs, seg, st, PackStep(st, seg), leaders);
    } else {
      LeadersKept(segs, seg, st, PackStep(st, seg), leaders);
    }
  }

  lemma PackAllAppends(segs: seq<Span>, seg: Span)
    requires Sorted(segs + [seg]) && Sorted(segs) && seg.start < seg.end
    ensures PackAll(segs + [seg]) == PackStep(PackAll(segs), seg)
  {
    assert (segs + [seg])[..|segs|] == segs;
  }

  /** The first segment of each group: the greedy packer opens a new group only when it must. */
  lemma {:induction false} GroupLeaders(segs: seq<Span>) returns (leaders: seq<nat>)
    requires Sorted(segs) && NoneTooLong(segs)
    ensures LeadersOk(segs, PackAll(segs), leaders)
  {
    if segs == [] {
      leaders := [];
    } else {
      var prefix, seg := segs[..|segs| - 1], segs[|segs| - 1];
      SortedPrefix(segs);
      var before := GroupLeaders(prefix);
      leaders := LeadersAppend(prefix, seg, before);
    }
  }

  lemma LeadersAppend(prefix: seq<Span>, seg: Span, before: seq<nat>) returns (leaders: seq<nat>)
    requires Sorted(prefix) && Sorted(prefix + [seg]) && 0 < seg.end - seg.start <= N_SAMPLES
    requires LeadersOk(prefix, PackAll(prefix), before)
    ensures LeadersOk(prefix + [seg], PackAll(prefix + [seg]), leaders)
  {
    hide PackStep;
    var st := PackAll(prefix);
    leaders := if prefix == [] || WallClockOverflow(st, seg) then before + [|prefix|] else before;
    PackAllIsFollowed(prefix, seg);
    PackAllAppends(prefix, seg);
    hide PackAll, LeadersOk;
    LeadersStep(prefix, seg, st, before);
  }

  /** A plan: windows of at most N_SAMPLES that hold every segment whole. */
  ghost predicate Holder(plan: seq<Span>, seg: Span, w: int) {
    0 <= w < |plan| && plan[w].start <= seg.start && seg.end <= plan[w].end
  }

  ghost predicate IsPlan(segs: seq<Span>, plan: seq<Span>) {
    && (forall w :: 0 <= w < |plan| ==> plan[w].end - plan[w].start <= N_SAMPLES)
    && (forall i :: 0 <= i < |segs| ==> exists w :: Holder(plan, segs[i], w))
  }

  lemma {:induction false} HoldersOf(segs: seq<Span>, plan: seq<Span>, leaders: seq<nat>) returns (holders: seq<nat>)
    requires IsPlan(segs, plan)
    requires forall a :: 0 <= a < |leaders| ==> leaders[a] < |segs|
    ensures |holders| == |leaders|
    ensures forall a :: 0 <= a < |leaders| ==> Holder(plan, segs[leaders[a]], holders[a])
  {
    holders := [];
    for a := 0 to |leaders|
      invariant |holders| == a
      invariant forall b :: 0 <= b < a ==> Holder(plan, segs[leaders[b]], holders[b])
    {
      var w :| Holder(plan, segs[leaders[a]], w);
      holders := holders + [w];
    }
  }

  lemma OneHolderOneLeader(segs: seq<Span>, plan: seq<Span>, leaders: seq<nat>, a: nat, b: nat, w: nat)
    requires IsPlan(segs, plan) && PairwiseTooFar(segs, leaders) && a < b < |leaders|
    ensures !(Holder(plan, segs[leaders[a]], w) && Holder(plan, segs[leaders[b]], w))
  {
  }

  /** When no segment exceeds a window, no plan that keeps segments whole uses fewer windows. */
  lemma PackingIsOptimal(segs: seq<Span>, plan: seq<Span>)
    requires Sorted(segs) && NoneTooLong(segs) && IsPlan(segs, plan)
    ensures |PackedWindows(segs)| <= |plan|
  {
    var leaders := GroupLeaders(segs);
    var holders := HoldersOf(segs, plan, leaders);
    forall a, b | 0 <= a < b < |holders| ensures holders[a] != holders[b] {
      OneHolderOneLeader(segs, plan, leaders, a, b, holders[b]);
    }
    DistinctFit(holders, |plan|);
  }

  /** The open group, or the emitted window, that holds a segment whole. */
  ghost predicate GroupHolds(st: Pack, seg: Span, w: nat) {
    var windows := Emit(st).windows;
    w < |windows| && windows[w].start <= seg.start && seg.end <= windows[w].end
  }

  lemma PackStepHolds(segs: seq<Span>, st: Pack, seg: Span)
    requires Sorted(segs + [seg]) && 0 < seg.end - seg.start <= N_SAMPLES && PackOk(segs, st)
    ensures |Emit(PackStep(st, seg)).windows| > 0
    ensures GroupHolds(PackStep(st, seg), seg, |Emit(PackStep(st, seg)).windows| - 1)
    ensures forall s: Span, w: nat :: GroupHolds(st, s, w) ==> GroupHolds(PackStep(st, seg), s, w)
  {
    assert segs != [] ==> (segs + [seg])[|segs| - 1].end <= (segs + [seg])[|segs|].start;
  }

  /** The packing itself keeps every segment whole, so by `PackingIsOptimal` it is a smallest plan. */
  lemma {:induction false} PackingKeepsSegmentsWhole(segs: seq<Span>, i: nat) returns (w: nat)
    requires Sorted(segs) && NoneTooLong(segs) && i < |segs|
    ensures GroupHolds(PackAll(segs), segs[i], w)
  {
    var n := |segs| - 1;
    SortedPrefix(segs);
    PackKeepsOk(segs[..n]);
    PackStepHolds(segs[..n], PackAll(segs[..n]), segs[n]);
    if i == n {
      w := |PackedWindows(segs)| - 1;
    } else {
      w := PackingKeepsSegmentsWhole(segs[..n], i);
    }
  }

  // ---------------------------------------------------------- composition

  /**
   From probabilities to encoder windows: every window the transcriber slices is
   non-empty, inside the audio and fits the encoder, and together they cover all
   detected speech, or the whole audio when there is none.
   */
  lemma TranscriptionWindowsFit(c: VadConfig, audioLen: nat, probs: seq<Score>)
    requires InOrder(c, audioLen, probs)
    ensures Forward(Segments(c, audioLen, probs))
    ensures var segs := Segments(c, audioLen, probs);
            var windows := TranscriptionWindows(audioLen, segs);
            && WellCut(windows) && EndBy(windows, audioLen)
            && (forall x :: (if segs == [] then 0 <= x < audioLen else Covers(segs, x)) ==> InWindow(windows, x))
  {
    var segs := Segments(c, audioLen, probs);
    VadTheorems.SegmentsAreNormal(c, audioLen, probs);
    if segs == [] {
      FixedWindowsTile(audioLen);
      TilesAreWellCut(FixedAudioWindows(audioLen), audioLen);
    } else {
      PackedWindowsAreWellCut(segs);
      forall x | Covers(segs, x) ensures InWindow(PackedWindows(segs), x) {
        PackedWindowsCoverSpeech(segs, x);
      }
    }
  }

}
