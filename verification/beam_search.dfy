/** The beam search object and its runs (rkwhisper/src/beam.rs). */
module BeamSearching {
  import opened Wrappers
  import opened Beams

  // ---------------------------------------------------------- one step's result

  /** The hypothesis a candidate stands for. */
  function Child<S>(dec: Decoder<S>, parent: Beam<S>, c: Candidate): Beam<S> {
    if c.token == dec.eot then
      Beam(parent.tokens + [c.token], Total(c), parent.state, [], true)
    else
      var next := dec.step(parent.state, c.token);
      Beam(parent.tokens + [c.token], Total(c), next.0, next.1, false)
  }

  ghost predicate ParentsExist<S>(beams: seq<Beam<S>>, chosen: seq<Candidate>) {
    forall c <- chosen :: c.parent < |beams| && !beams[c.parent].finished
  }

  /** The children that are (or are not) at an end, in order of choice. */
  ghost function Children<S>(dec: Decoder<S>, beams: seq<Beam<S>>, chosen: seq<Candidate>, ended: bool): seq<Beam<S>>
    requires ParentsExist(beams, chosen)
  {
    var n := |chosen| - 1;
    if n < 0 then [] else
      Children(dec, beams, chosen[..n], ended) +
      if (chosen[n].token == dec.eot) == ended then [Child(dec, beams[chosen[n].parent], chosen[n])] else []
  }

  ghost function AlreadyFinished<S>(beams: seq<Beam<S>>): seq<Beam<S>> {
    var n := |beams| - 1;
    if n < 0 then [] else AlreadyFinished(beams[..n]) + if beams[n].finished then [beams[n]] else []
  }

  function CountOf(chosen: seq<Candidate>, b: nat): nat {
    if |chosen| == 0 then 0 else (if chosen[0].parent == b then 1 else 0) + CountOf(chosen[1..], b)
  }

  lemma CountSplits(chosen: seq<Candidate>, i: nat, b: nat)
    requires i < |chosen|
    ensures CountOf(chosen[i..], b) == CountOf(chosen[i + 1..], b) + if chosen[i].parent == b then 1 else 0
  {
    assert chosen[i..][1..] == chosen[i + 1..];
  }

  lemma ChildrenExtend<S>(dec: Decoder<S>, beams: seq<Beam<S>>, chosen: seq<Candidate>, i: nat, ended: bool,
                          before: seq<Beam<S>>)
    requires ParentsExist(beams, chosen) && i < |chosen|
    ensures before + Children(dec, beams, chosen[..i + 1], ended) ==
              (before + Children(dec, beams, chosen[..i], ended)) +
              if (chosen[i].token == dec.eot) == ended then [Child(dec, beams[chosen[i].parent], chosen[i])] else []
  {
    assert chosen[..i + 1][..i] == chosen[..i];
  }

  lemma NoChildren<S>(dec: Decoder<S>, beams: seq<Beam<S>>, chosen: seq<Candidate>, before: seq<Beam<S>>)
    ensures before + Children(dec, beams, chosen[..0], false) == before + Children(dec, beams, chosen[..0], true) == before
  {
  }

  lemma {:induction false} CountAppends(chosen: seq<Candidate>, c: Candidate, b: nat)
    ensures CountOf(chosen + [c], b) == CountOf(chosen, b) + if c.parent == b then 1 else 0
  {
    if |chosen| == 0 {
      assert chosen + [c] == [c];
    } else {
      CountAppends(chosen[1..], c, b);
      assert (chosen + [c])[1..] == chosen[1..] + [c];
    }
  }

  lemma {:induction false} CountedIsParent(chosen: seq<Candidate>, b: nat)
    requires 0 < CountOf(chosen, b)
    ensures exists c :: c in chosen && c.parent == b
  {
    if chosen[0].parent == b {
      assert chosen[0] in chosen;
    } else {
      CountedIsParent(chosen[1..], b);
    }
  }

  /** Enough logits for the library's selection, which needs an element beyond the `size` kept. */
  ghost predicate Scorable<S>(beams: seq<Beam<S>>, size: nat) {
    forall b :: 0 <= b < |beams| && !beams[b].finished ==> size < |beams[b].lastLogits|
  }

  // ------------------------------------------------------------------ the object

  class BeamSearch<S(!new)> {
    const size: nat
    var beams: seq<Beam<S>>
    var finishedBeams: seq<Beam<S>>

    constructor (size: nat, initialState: S, initialLogits: Logits, initialTokens: seq<Token>)
      ensures this.size == size && finishedBeams == []
      ensures beams == [Beam(initialTokens, Fin(0.0), initialState, initialLogits, false)]
    {
      this.size := size;
      beams := [Beam(initialTokens, Fin(0.0), initialState, initialLogits, false)];
      finishedBeams := [];
    }

    /** Phase 1. */
    method Collect(dec: Decoder<S>, drained: seq<Option<Beam<S>>>, ghost parents: seq<Beam<S>>)
      returns (candidates: seq<Candidate>)
      requires Sound(dec) && Scorable(parents, size)
      requires |drained| == |parents| && forall b :: 0 <= b < |parents| ==> drained[b] == Some(parents[b])
      ensures exists kept :: KeptOk(dec, parents, size, kept) && candidates == Candidates(dec, parents, kept)
    {
      candidates := [];
      ghost var kept: seq<seq<Token>> := [];
      for b := 0 to |drained|
        invariant |kept| == b && candidates == Candidates(dec, parents, kept)
        invariant forall i :: 0 <= i < b ==>
                    if parents[i].finished then kept[i] == [] else TopTokens(Next(dec, parents[i]), kept[i], size)
      {
        var beam := drained[b].value;
        ghost var before, candidatesBefore := kept, candidates;
        if beam.finished {
          kept := kept + [[]];
          assert candidates == candidates + CandidatesOf(dec, parents, b, []);
        } else {
          var scores := dec.logProbs(beam.tokens, beam.lastLogits);
          var top := SelectTop(scores, size);
          for i := 0 to |top|
            invariant candidates == candidatesBefore + CandidatesOf(dec, parents, b, top)[..i]
          {
            candidates := candidates + [Candidate(b, top[i], beam.logProb, scores[top[i]])];
          }
          kept := kept + [top];
        }
        assert kept[..b] == before;
      }
      assert KeptOk(dec, parents, size, kept);
    }

    /** The best candidates of all unfinished beams. */
    method Choose(dec: Decoder<S>, drained: seq<Option<Beam<S>>>, ghost parents: seq<Beam<S>>)
      returns (ghost kept: seq<seq<Token>>, chosen: seq<Candidate>)
      requires Sound(dec) && Scorable(parents, size)
      requires |drained| == |parents| && forall b :: 0 <= b < |parents| ==> drained[b] == Some(parents[b])
      ensures KeptOk(dec, parents, size, kept)
      ensures chosen == Chosen(dec, parents, size, kept) && ParentsExist(parents, chosen)
    {
      hide Sound, Scorable, Candidates, SortDescending, TopTokens;
      var candidates := Collect(dec, drained, parents);
      kept :| KeptOk(dec, parents, size, kept) && candidates == Candidates(dec, parents, kept);
      chosen := Truncated(SortDescending(candidates), size);
      ChosenAreSound(dec, parents, size, kept);
    }

    /**
     One step. A parent is moved into its last child and cloned for the others;
     the contract says nothing of either, the children are what copying would give.
     */
    method Step(dec: Decoder<S>) returns (ghost kept: seq<seq<Token>>, ghost chosen: seq<Candidate>)
      requires Sound(dec) && Scorable(beams, size)
      modifies this
      ensures KeptOk(dec, old(beams), size, kept)
      ensures chosen == Chosen(dec, old(beams), size, kept) && ParentsExist(old(beams), chosen)
      ensures beams == Children(dec, old(beams), chosen, false)
      ensures finishedBeams ==
                old(finishedBeams) + AlreadyFinished(old(beams)) + Children(dec, old(beams), chosen, true)
    {
      hide Chosen, KeptOk, Sound, Scorable, Children, AlreadyFinished;
      var parents := beams;
      var drained := seq(|parents|, b requires 0 <= b < |parents| => Some(parents[b]));
      beams := [];
      var candidates;
      kept, candidates := Choose(dec, drained, parents);
      chosen := candidates;
      drained := MoveFinished(drained, parents);
      Grow(dec, candidates, drained, parents);
      assert beams == [] + Children(dec, parents, chosen, false);
    }

    /** Phase 2. A parent whose count is not zero is still there to unwrap. */
    method Grow(dec: Decoder<S>, candidates: seq<Candidate>, drained: seq<Option<Beam<S>>>, ghost parents: seq<Beam<S>>)
      requires ParentsExist(parents, candidates) && |drained| == |parents|
      requires forall b :: 0 <= b < |parents| && !parents[b].finished ==> drained[b] == Some(parents[b])
      modifies this
      ensures beams == old(beams) + Children(dec, parents, candidates, false)
      ensures finishedBeams == old(finishedBeams) + Children(dec, parents, candidates, true)
    {
      hide Child;
      var rest := drained;
      var refCounts := CountReferences(candidates, |rest|);
      forall b | 0 <= b < |parents| && 0 < CountOf(candidates, b) ensures !parents[b].finished {
        CountedIsParent(candidates, b);
      }
      assert candidates[0..] == candidates;
      hide Children, CountOf;
      NoChildren(dec, parents, candidates, beams);
      NoChildren(dec, parents, candidates, finishedBeams);
      for i := 0 to |candidates|
        invariant |refCounts| == |rest| == |parents|
        invariant forall b :: 0 <= b < |parents| ==> refCounts[b] == CountOf(candidates[i..], b)
        invariant forall b :: 0 <= b < |parents| && 0 < refCounts[b] ==> rest[b] == Some(parents[b])
        invariant beams == old(beams) + Children(dec, parents, candidates[..i], false)
        invariant finishedBeams == old(finishedBeams) + Children(dec, parents, candidates[..i], true)
      {
        var c := candidates[i];
        forall b | 0 <= b < |parents|
          ensures CountOf(candidates[i..], b) == CountOf(candidates[i + 1..], b) + if c.parent == b then 1 else 0
        {
          CountSplits(candidates, i, b);
        }
        ChildrenExtend(dec, parents, candidates, i, false, old(beams));
        ChildrenExtend(dec, parents, candidates, i, true, old(finishedBeams));
        var beam;
        beam, rest, refCounts := MoveOrClone(rest, refCounts, c.parent);
        AddChild(dec, beam, c);
      }
      assert candidates[..|candidates|] == candidates;
    }

    /** Takes a beam on its last use and leaves it in place before. */
    static method MoveOrClone(drained: seq<Option<Beam<S>>>, counts: seq<nat>, p: nat)
      returns (beam: Beam<S>, rest: seq<Option<Beam<S>>>, refCounts: seq<nat>)
      requires p < |drained| == |counts| && 0 < counts[p] && drained[p].Some?
      ensures beam == drained[p].value && refCounts == counts[p := counts[p] - 1]
      ensures |rest| == |drained|
      ensures forall b :: 0 <= b < |rest| ==> rest[b] == if b == p && refCounts[p] == 0 then None else drained[b]
    {
      rest, refCounts := drained, counts[p := counts[p] - 1];
      beam := rest[p].value;
      if refCounts[p] == 0 {
        rest := rest[p := None];
      }
    }

    method AddChild(dec: Decoder<S>, beam: Beam<S>, c: Candidate)
      modifies this
      ensures var child := Child(dec, beam, c);
              && beams == old(beams) + (if c.token == dec.eot then [] else [child])
              && finishedBeams == old(finishedBeams) + (if c.token == dec.eot then [child] else [])
    {
      var tokens, combined := beam.tokens + [c.token], Plus(c.parentLogProb, c.tokenLogProb);
      if c.token == dec.eot {
        finishedBeams := finishedBeams + [Beam(tokens, combined, beam.state, [], true)];
      } else {
        var next := dec.step(beam.state, c.token);
        beams := beams + [Beam(tokens, combined, next.0, next.1, false)];
      }
    }

    method MoveFinished(drained: seq<Option<Beam<S>>>, ghost parents: seq<Beam<S>>) returns (rest: seq<Option<Beam<S>>>)
      requires |drained| == |parents| && forall b :: 0 <= b < |parents| ==> drained[b] == Some(parents[b])
      modifies this`finishedBeams
      ensures finishedBeams == old(finishedBeams) + AlreadyFinished(parents)
      ensures |rest| == |parents|
      ensures forall b :: 0 <= b < |parents| ==> rest[b] == if parents[b].finished then None else Some(parents[b])
    {
      rest := drained;
      for b := 0 to |rest|
        invariant |rest| == |parents|
        invariant finishedBeams == old(finishedBeams) + AlreadyFinished(parents[..b])
        invariant forall i :: 0 <= i < |parents| ==> rest[i] == if i < b && parents[i].finished then None else Some(parents[i])
      {
        assert parents[..b + 1][..b] == parents[..b];
        if rest[b].value.finished {
          finishedBeams := finishedBeams + [rest[b].value];
          rest := rest[b := None];
        }
      }
      assert parents[..|parents|] == parents;
    }

    method CountReferences(candidates: seq<Candidate>, n: nat) returns (refCounts: seq<nat>)
      requires forall c <- candidates :: c.parent < n
      ensures |refCounts| == n && forall b :: 0 <= b < n ==> refCounts[b] == CountOf(candidates, b)
    {
      refCounts := seq(n, b => 0);
      for i := 0 to |candidates|
        invariant |refCounts| == n && forall b :: 0 <= b < n ==> refCounts[b] == CountOf(candidates[..i], b)
      {
        var p := candidates[i].parent;
        assert candidates[..i + 1] == candidates[..i] + [candidates[i]];
        forall b | 0 <= b < n
          ensures CountOf(candidates[..i + 1], b) == CountOf(candidates[..i], b) + if p == b then 1 else 0
        {
          CountAppends(candidates[..i], candidates[i], b);
        }
        refCounts := refCounts[p := refCounts[p] + 1];
      }
      assert candidates[..|candidates|] == candidates;
    }

    /** The tokens of the best hypothesis, live or finished; of equally good ones the last. */
    method BestResult(norm: nat -> real) returns (best: Option<seq<Token>>)
      requires forall n: nat :: 0 < n ==> norm(n) > 0.0
      ensures best.None? <==> beams + finishedBeams == []
      ensures best.Some? ==> exists i :: IsLastBest(norm, beams + finishedBeams, i) && best == Some((beams + finishedBeams)[i].tokens)
    {
      var all := beams + finishedBeams;
      if all == [] {
        return None;
      }
      var at := 0;
      for i := 1 to |all|
        invariant at < i && IsLastScored(norm, all[..i], at)
      {
        if Leq(Normalised(norm, all[at]), Normalised(norm, all[i])) {
          at := i;
        }
      }
      assert all[..|all|] == all;
      BestIfScored(norm, all, at);
      return Some(all[at].tokens);
    }
  }

  function Normalised<S>(norm: nat -> real, beam: Beam<S>): Score
    requires forall n: nat :: 0 < n ==> norm(n) > 0.0
  {
    if |beam.tokens| == 0 || beam.logProb.NegInf? then beam.logProb
    else Fin(beam.logProb.value / norm(|beam.tokens|))
  }

  ghost predicate IsLastScored<S>(norm: nat -> real, all: seq<Beam<S>>, i: int)
    requires forall n: nat :: 0 < n ==> norm(n) > 0.0
  {
    && 0 <= i < |all|
    && forall j :: 0 <= j < |all| ==>
         && Leq(Normalised(norm, all[j]), Normalised(norm, all[i]))
         && (i < j ==> !Leq(Normalised(norm, all[i]), Normalised(norm, all[j])))
  }

  lemma BestIfScored<S>(norm: nat -> real, all: seq<Beam<S>>, i: int)
    requires forall n: nat :: 0 < n ==> norm(n) > 0.0
    requires IsLastScored(norm, all, i)
    ensures IsLastBest(norm, all, i)
  {
    hide Normalised, Leq, IsWorse;
    forall j | 0 <= j < |all| ensures !IsWorse(norm, all[i], all[j]) && (i < j ==> IsWorse(norm, all[j], all[i])) {
      WorseIfLess(norm, all[i], all[j]);
      WorseIfLess(norm, all[j], all[i]);
    }
  }

  /** The log probability divided by its length norm, undivided without tokens, is less for a than for b. */
  ghost predicate IsWorse<S>(norm: nat -> real, a: Beam<S>, b: Beam<S>) {
    var m := if a.tokens == [] then 1.0 else norm(|a.tokens|);
    var n := if b.tokens == [] then 1.0 else norm(|b.tokens|);
    b.logProb.Fin? && (a.logProb.Fin? ==> a.logProb.value * n < b.logProb.value * m)
  }

  lemma DividingKeepsOrder(x: real, m: real, y: real, n: real)
    requires m > 0.0 && n > 0.0
    ensures x / m < y / n <==> x * n < y * m
  {
    var a, b := x / m, y / n;
    assert x * n == (a * m) * n == a * (m * n);
    assert y * m == (b * n) * m == b * (m * n);
    var p := m * n;
    assert p > 0.0;
    if a < b {
      assert a * p < b * p;
    } else {
      assert b * p <= a * p;
    }
  }

  lemma WorseIfLess<S>(norm: nat -> real, a: Beam<S>, b: Beam<S>)
    requires forall n: nat :: 0 < n ==> norm(n) > 0.0
    ensures IsWorse(norm, a, b) <==> !Leq(Normalised(norm, b), Normalised(norm, a))
  {
    if a.logProb.Fin? && b.logProb.Fin? {
      DividingKeepsOrder(
        a.logProb.value, if a.tokens == [] then 1.0 else norm(|a.tokens|),
        b.logProb.value, if b.tokens == [] then 1.0 else norm(|b.tokens|));
    }
  }

  /** No hypothesis is better, and each one behind it is worse. */
  ghost predicate IsLastBest<S>(norm: nat -> real, all: seq<Beam<S>>, i: int) {
    && 0 <= i < |all|
    && forall j :: 0 <= j < |all| ==> !IsWorse(norm, all[i], all[j]) && (i < j ==> IsWorse(norm, all[j], all[i]))
  }

  // ---------------------------------------------------------------------- runs

  /** The primed decoder a search starts from. */
  datatype Start<S> = Start(prompt: seq<Token>, state: S, logits: Logits)

  /** Feeding the generated tokens one by one. */
  function Feed<S>(dec: Decoder<S>, start: Start<S>, tokens: seq<Token>): (S, Logits) {
    var n := |tokens| - 1;
    if n < 0 then (start.state, start.logits) else dec.step(Feed(dec, start, tokens[..n]).0, tokens[n])
  }

  /** The log probability the network gives to the generated tokens. */
  function Likelihood<S>(dec: Decoder<S>, start: Start<S>, tokens: seq<Token>): Score {
    var n := |tokens| - 1;
    if n < 0 then Fin(0.0) else
      var front := tokens[..n];
      Plus(Likelihood(dec, start, front),
           At(dec.logProbs(start.prompt + front, Feed(dec, start, front).1), tokens[n]))
  }

  /** Running totals of the tokens' log probabilities, each after the tokens before it. */
  ghost predicate AddsUp<S>(dec: Decoder<S>, start: Start<S>, tokens: seq<Token>, sums: seq<real>) {
    && |sums| == |tokens| + 1 && sums[0] == 0.0
    && forall i :: 0 <= i < |tokens| ==> Adds(dec, start, tokens[..i], tokens[i], sums[i], sums[i + 1])
  }

  /** The token's log probability after the tokens before it is what is added. */
  ghost predicate Adds<S>(dec: Decoder<S>, start: Start<S>, before: seq<Token>, token: Token, sum: real, sum': real) {
    var scores := dec.logProbs(start.prompt + before, Feed(dec, start, before).1);
    token < |scores| && scores[token].Fin? && sum' == sum + scores[token].value
  }

  lemma FrontAddsUp<S>(dec: Decoder<S>, start: Start<S>, tokens: seq<Token>, sums: seq<real>)
    requires AddsUp(dec, start, tokens, sums) && |tokens| > 0
    ensures AddsUp(dec, start, tokens[..|tokens| - 1], sums[..|tokens|])
  {
    hide Adds;
    var front, less := tokens[..|tokens| - 1], sums[..|tokens|];
    forall i | 0 <= i < |front| ensures Adds(dec, start, front[..i], front[i], less[i], less[i + 1]) {
      assert front[..i] == tokens[..i];
      assert Adds(dec, start, tokens[..i], tokens[i], sums[i], sums[i + 1]);
    }
  }

  lemma MoreAddsUp<S>(dec: Decoder<S>, start: Start<S>, tokens: seq<Token>, sums: seq<real>, sum: real)
    requires |tokens| > 0 && AddsUp(dec, start, tokens[..|tokens| - 1], sums)
    requires var n := |tokens| - 1; Adds(dec, start, tokens[..n], tokens[n], sums[n], sum)
    ensures AddsUp(dec, start, tokens, sums + [sum])
  {
    hide Adds;
    var front, more := tokens[..|tokens| - 1], sums + [sum];
    forall i | 0 <= i < |tokens| ensures Adds(dec, start, tokens[..i], tokens[i], more[i], more[i + 1]) {
      if i < |front| {
        assert front[..i] == tokens[..i];
        assert Adds(dec, start, front[..i], front[i], sums[i], sums[i + 1]);
      }
    }
  }

  /** The likelihood is the sum of the log probabilities, finite if and only if all of them are. */
  lemma {:induction false} LikelihoodIsSum<S>(dec: Decoder<S>, start: Start<S>, tokens: seq<Token>)
    ensures Likelihood(dec, start, tokens).Fin? <==> exists sums :: AddsUp(dec, start, tokens, sums)
    ensures forall sums :: AddsUp(dec, start, tokens, sums) ==> Likelihood(dec, start, tokens) == Fin(sums[|tokens|])
  {
    var n := |tokens| - 1;
    if n < 0 {
      assert AddsUp(dec, start, tokens, [0.0]);
    } else {
      var front := tokens[..n];
      LikelihoodIsSum(dec, start, front);
      if Likelihood(dec, start, tokens).Fin? {
        var sums :| AddsUp(dec, start, front, sums);
        MoreAddsUp(dec, start, tokens, sums, Likelihood(dec, start, tokens).value);
      }
      forall sums | AddsUp(dec, start, tokens, sums) ensures Likelihood(dec, start, tokens) == Fin(sums[|tokens|]) {
        FrontAddsUp(dec, start, tokens, sums);
      }
    }
  }

  /** The positions of the set flags, in order. */
  function Picked(flags: seq<bool>): seq<nat> {
    var n := |flags| - 1;
    if n < 0 then [] else Picked(flags[..n]) + if flags[n] then [n] else []
  }

  lemma {:induction false} PickedInOrder(flags: seq<bool>)
    ensures forall i :: 0 <= i < |Picked(flags)| ==> Picked(flags)[i] < |flags| && flags[Picked(flags)[i]]
    ensures forall i, k :: 0 <= i < k < |Picked(flags)| ==> Picked(flags)[i] < Picked(flags)[k]
    ensures forall m: nat :: m < |flags| && flags[m] ==> m in Picked(flags)
  {
    var n := |flags| - 1;
    if n >= 0 {
      var before, after := Picked(flags[..n]), Picked(flags);
      PickedInOrder(flags[..n]);
      assert after == if flags[n] then before + [n] else before;
      forall m: nat | m < |flags| && flags[m] ensures m in after {
        if m < n {
          assert flags[..n][m];
          assert m in before;
        } else {
          assert after[|before|] == n;
        }
      }
    }
  }

  ghost function EndFlags<S>(dec: Decoder<S>, chosen: seq<Candidate>, ended: bool): seq<bool> {
    seq(|chosen|, i requires 0 <= i < |chosen| => (chosen[i].token == dec.eot) == ended)
  }

  /** The children are those of the choices that are (or are not) at an end, each once and in order. */
  lemma {:induction false} ChildrenAre<S>(dec: Decoder<S>, beams: seq<Beam<S>>, chosen: seq<Candidate>, ended: bool)
    requires ParentsExist(beams, chosen)
    ensures var from := Picked(EndFlags(dec, chosen, ended));
            && |from| == |Children(dec, beams, chosen, ended)|
            && forall i :: 0 <= i < |from| ==>
                 && from[i] < |chosen|
                 && Children(dec, beams, chosen, ended)[i] == Child(dec, beams[chosen[from[i]].parent], chosen[from[i]])
  {
    hide Child;
    var n := |chosen| - 1;
    if n >= 0 {
      ChildrenAre(dec, beams, chosen[..n], ended);
      assert EndFlags(dec, chosen, ended)[..n] == EndFlags(dec, chosen[..n], ended);
    }
  }

  ghost function FinishedFlags<S>(beams: seq<Beam<S>>): seq<bool> {
    seq(|beams|, i requires 0 <= i < |beams| => beams[i].finished)
  }

  /** The finished beams are kept, each once and in order. */
  lemma {:induction false} FinishedAreKept<S>(beams: seq<Beam<S>>)
    ensures var from := Picked(FinishedFlags(beams));
            && |from| == |AlreadyFinished(beams)|
            && forall i :: 0 <= i < |from| ==> from[i] < |beams| && AlreadyFinished(beams)[i] == beams[from[i]]
  {
    var n := |beams| - 1;
    if n >= 0 {
      FinishedAreKept(beams[..n]);
      assert FinishedFlags(beams)[..n] == FinishedFlags(beams[..n]);
    }
  }

  /** A live hypothesis: the prompt, tokens other than the end token, and the state and logits of feeding those. */
  ghost predicate LiveOk<S>(dec: Decoder<S>, start: Start<S>, gen: seq<Token>, beam: Beam<S>) {
    && !beam.finished && beam.tokens == start.prompt + gen && dec.eot !in gen
    && (beam.state, beam.lastLogits) == Feed(dec, start, gen)
    && beam.logProb == Likelihood(dec, start, gen)
  }

  /** A finished one: a live one's tokens and the end token, which was never fed. */
  ghost predicate EndedOk<S>(dec: Decoder<S>, start: Start<S>, gen: seq<Token>, beam: Beam<S>) {
    && beam.finished && beam.tokens == start.prompt + gen + [dec.eot] && dec.eot !in gen
    && beam.state == Feed(dec, start, gen).0
    && beam.logProb == Likelihood(dec, start, gen + [dec.eot])
  }

  ghost predicate DistinctTokens<S>(beams: seq<Beam<S>>) {
    forall i, j :: 0 <= i < j < |beams| ==> beams[i].tokens != beams[j].tokens
  }

  ghost predicate Lives<S>(dec: Decoder<S>, start: Start<S>, beam: Beam<S>) {
    exists gen :: LiveOk(dec, start, gen, beam)
  }

  ghost predicate Ends<S>(dec: Decoder<S>, start: Start<S>, beam: Beam<S>) {
    exists gen :: EndedOk(dec, start, gen, beam)
  }

  ghost predicate LivesOk<S>(dec: Decoder<S>, start: Start<S>, n: nat, beams: seq<Beam<S>>) {
    forall i :: 0 <= i < |beams| ==>
      |beams[i].tokens| == |start.prompt| + n && Lives(dec, start, beams[i])
  }

  ghost predicate EndsOk<S>(dec: Decoder<S>, start: Start<S>, n: nat, finished: seq<Beam<S>>) {
    forall i :: 0 <= i < |finished| ==>
      |finished[i].tokens| <= |start.prompt| + n && Ends(dec, start, finished[i])
  }

  /** After n steps: live hypotheses have n generated tokens, finished ones at most n, and none occurs twice. */
  ghost predicate SearchOk<S>(dec: Decoder<S>, start: Start<S>, size: nat, n: nat, beams: seq<Beam<S>>, finished: seq<Beam<S>>) {
    && LivesOk(dec, start, n, beams) && EndsOk(dec, start, n, finished)
    && DistinctTokens(beams) && DistinctTokens(finished)
    && |beams| <= Max(size, 1)
  }

  lemma ChildOk<S>(dec: Decoder<S>, start: Start<S>, parent: Beam<S>, gen: seq<Token>, c: Candidate)
    requires LiveOk(dec, start, gen, parent)
    requires c.parentLogProb == parent.logProb && c.tokenLogProb == At(Next(dec, parent), c.token)
    ensures if c.token == dec.eot then EndedOk(dec, start, gen, Child(dec, parent, c))
            else LiveOk(dec, start, gen + [c.token], Child(dec, parent, c))
  {
    var longer := gen + [c.token];
    assert longer[..|gen|] == gen;
    assert (start.prompt + gen) + [c.token] == start.prompt + longer;
  }

  /** Every child comes from a choice, and distinct choices give distinct hypotheses. */
  lemma {:induction false} ChildrenCome<S>(dec: Decoder<S>, beams: seq<Beam<S>>, chosen: seq<Candidate>, ended: bool, i: nat)
    returns (c: Candidate)
    requires ParentsExist(beams, chosen) && i < |Children(dec, beams, chosen, ended)|
    ensures c in chosen && (c.token == dec.eot) == ended
    ensures Children(dec, beams, chosen, ended)[i] == Child(dec, beams[c.parent], c)
  {
    var n := |chosen| - 1;
    if i < |Children(dec, beams, chosen[..n], ended)| {
      c := ChildrenCome(dec, beams, chosen[..n], ended, i);
    } else {
      c := chosen[n];
    }
  }

  lemma AppendsDiffer(p: seq<Token>, q: seq<Token>, t: Token, u: Token)
    requires p != q || t != u
    ensures p + [t] != q + [u]
  {
    var a, b := p + [t], q + [u];
    assert a[..|a| - 1] == p && b[..|b| - 1] == q;
  }

  lemma {:induction false} ChildrenDiffer<S>(dec: Decoder<S>, beams: seq<Beam<S>>, chosen: seq<Candidate>, ended: bool)
    requires ParentsExist(beams, chosen) && NoDuplicates(chosen) && DistinctTokens(beams)
    requires forall c <- chosen :: c == CandidateOf(dec, beams, c.parent, c.token)
    ensures DistinctTokens(Children(dec, beams, chosen, ended))
    ensures |Children(dec, beams, chosen, ended)| <= |chosen|
  {
    var n := |chosen| - 1;
    if n >= 0 {
      ChildrenDiffer(dec, beams, chosen[..n], ended);
      var front, last := Children(dec, beams, chosen[..n], ended), chosen[n];
      var child := Child(dec, beams[last.parent], last);
      forall i | 0 <= i < |front| ensures front[i].tokens != child.tokens {
        var c := ChildrenCome(dec, beams, chosen[..n], ended, i);
        var k :| 0 <= k < n && chosen[..n][k] == c;
        assert chosen[k] != last;
        AppendsDiffer(beams[c.parent].tokens, beams[last.parent].tokens, c.token, last.token);
      }
    }
  }

  lemma ChildrenOk<S>(dec: Decoder<S>, start: Start<S>, n: nat,
                      beams: seq<Beam<S>>, chosen: seq<Candidate>, ended: bool)
    requires ParentsExist(beams, chosen)
    requires forall c <- chosen :: c == CandidateOf(dec, beams, c.parent, c.token)
    requires LivesOk(dec, start, n, beams)
    ensures var next := Children(dec, beams, chosen, ended);
            && (forall i :: 0 <= i < |next| ==> |next[i].tokens| == |start.prompt| + n + 1)
            && if ended then EndsOk(dec, start, n + 1, next) else LivesOk(dec, start, n + 1, next)
  {
    hide LiveOk, EndedOk;
    var next := Children(dec, beams, chosen, ended);
    forall i | 0 <= i < |next|
      ensures |next[i].tokens| == |start.prompt| + n + 1
      ensures if ended then Ends(dec, start, next[i]) else Lives(dec, start, next[i])
    {
      var c := ChildrenCome(dec, beams, chosen, ended, i);
      var gen :| LiveOk(dec, start, gen, beams[c.parent]);
      ChildOk(dec, start, beams[c.parent], gen, c);
    }
  }

  /** A step keeps all of it. */
  lemma StepKeepsSearchOk<S>(dec: Decoder<S>, start: Start<S>, size: nat, n: nat,
                             beams: seq<Beam<S>>, finished: seq<Beam<S>>, kept: seq<seq<Token>>)
    requires SearchOk(dec, start, size, n, beams, finished) && KeptOk(dec, beams, size, kept)
    ensures ParentsExist(beams, Chosen(dec, beams, size, kept))
    ensures var chosen := Chosen(dec, beams, size, kept);
            SearchOk(dec, start, size, n + 1, Children(dec, beams, chosen, false),
                     finished + AlreadyFinished(beams) + Children(dec, beams, chosen, true))
  {
    hide Chosen, Children, LivesOk, EndsOk, CandidateOf, DistinctTokens, NoDuplicates, AlreadyFinished, Next, TopTokens;
    var chosen := Chosen(dec, beams, size, kept);
    ChosenAreSound(dec, beams, size, kept);
    assert ParentsExist(beams, chosen);
    NoneFinished(dec, start, n, beams);
    var live, ended := Children(dec, beams, chosen, false), Children(dec, beams, chosen, true);
    ChildrenDiffer(dec, beams, chosen, false);
    ChildrenDiffer(dec, beams, chosen, true);
    ChildrenOk(dec, start, n, beams, chosen, false);
    ChildrenOk(dec, start, n, beams, chosen, true);
    MoreEnds(dec, start, n, finished, ended);
    assert finished + [] == finished;
  }

  /** Hypotheses finished now are longer than those finished before. */
  lemma MoreEnds<S>(dec: Decoder<S>, start: Start<S>, n: nat, finished: seq<Beam<S>>, ended: seq<Beam<S>>)
    requires EndsOk(dec, start, n, finished) && DistinctTokens(finished)
    requires EndsOk(dec, start, n + 1, ended) && DistinctTokens(ended)
    requires forall i :: 0 <= i < |ended| ==> |ended[i].tokens| == |start.prompt| + n + 1
    ensures EndsOk(dec, start, n + 1, finished + ended) && DistinctTokens(finished + ended)
  {
    hide Ends;
    forall i | 0 <= i < |finished + ended|
      ensures |(finished + ended)[i].tokens| <= |start.prompt| + n + 1 && Ends(dec, start, (finished + ended)[i])
    {
      assert (finished + ended)[i] == if i < |finished| then finished[i] else ended[i - |finished|];
    }
  }

  lemma {:induction false} NoneFinished<S>(dec: Decoder<S>, start: Start<S>, n: nat, beams: seq<Beam<S>>)
    requires LivesOk(dec, start, n, beams)
    ensures AlreadyFinished(beams) == []
  {
    if |beams| > 0 {
      var front := beams[..|beams| - 1];
      NoneFinished(dec, start, n, front);
      assert Lives(dec, start, beams[|beams| - 1]);
    }
  }

  datatype Frame<S> = Frame(beams: seq<Beam<S>>, finished: seq<Beam<S>>)

  ghost function After<S>(dec: Decoder<S>, size: nat, f: Frame<S>, kept: seq<seq<Token>>): Frame<S>
    requires KeptOk(dec, f.beams, size, kept)
  {
    ChosenAreSound(dec, f.beams, size, kept);
    var chosen := Chosen(dec, f.beams, size, kept);
    Frame(Children(dec, f.beams, chosen, false),
          f.finished + AlreadyFinished(f.beams) + Children(dec, f.beams, chosen, true))
  }

  /** A search step by step, whatever the selections make of ties. */
  ghost predicate IsSearch<S>(dec: Decoder<S>, start: Start<S>, size: nat, frames: seq<Frame<S>>, keeps: seq<seq<seq<Token>>>) {
    && |frames| == |keeps| + 1
    && frames[0] == Frame([Beam(start.prompt, Fin(0.0), start.state, start.logits, false)], [])
    && forall i :: 0 <= i < |keeps| ==>
         KeptOk(dec, frames[i].beams, size, keeps[i]) && frames[i + 1] == After(dec, size, frames[i], keeps[i])
  }

  /** Every hypothesis of every search is what feeding its own tokens gives, and the library's selection never fails. */
  lemma {:induction false} SearchesAreOk<S(!new)>(dec: Decoder<S>, start: Start<S>, size: nat,
                                                  frames: seq<Frame<S>>, keeps: seq<seq<seq<Token>>>, n: nat)
    requires IsSearch(dec, start, size, frames, keeps) && n < |frames|
    requires Sound(dec) && size < dec.vocab == |start.logits|
    ensures SearchOk(dec, start, size, n, frames[n].beams, frames[n].finished)
    ensures Scorable(frames[n].beams, size)
  {
    if n == 0 {
      assert start.prompt + [] == start.prompt;
      assert LiveOk(dec, start, [], frames[0].beams[0]);
    } else {
      SearchesAreOk(dec, start, size, frames, keeps, n - 1);
      StepKeepsSearchOk(dec, start, size, n - 1, frames[n - 1].beams, frames[n - 1].finished, keeps[n - 1]);
    }
    LivesAreScorable(dec, start, size, n, frames[n].beams);
  }

  lemma LivesAreScorable<S(!new)>(dec: Decoder<S>, start: Start<S>, size: nat, n: nat, beams: seq<Beam<S>>)
    requires LivesOk(dec, start, n, beams) && Sound(dec) && size < dec.vocab == |start.logits|
    ensures Scorable(beams, size)
  {
    forall b | 0 <= b < |beams| && !beams[b].finished ensures size < |beams[b].lastLogits| {
      assert Lives(dec, start, beams[b]);
      var gen :| LiveOk(dec, start, gen, beams[b]);
    }
  }
}
