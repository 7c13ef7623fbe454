/** Beam search with late, reference-counted copying of decoder states (rkwhisper/src/beam.rs). */
module Beams {
  import opened Wrappers

  type Token = nat
  type Logits = seq<real>

  // ------------------------------------------------------------------ scores

  /** A log probability; suppressed tokens have none. Rounding is not modelled. */
  datatype Score = NegInf | Fin(value: real)

  /** Tokens outside the vocabulary are never likely. */
  function At(scores: seq<Score>, t: Token): Score { if t < |scores| then scores[t] else NegInf }

  predicate Leq(a: Score, b: Score) { a.NegInf? || (b.Fin? && a.value <= b.value) }

  function Plus(a: Score, b: Score): Score {
    if a.NegInf? || b.NegInf? then NegInf else Fin(a.value + b.value)
  }

  // -------------------------------------------------------------- the network

  /**
   `step` feeds one token to the decoder; `logProbs` is suppression followed by
   log-softmax, for the tokens so far and the logits they led to.
   */
  datatype Decoder<!S> = Decoder(
    vocab: nat, eot: Token,
    step: (S, Token) -> (S, Logits),
    logProbs: (seq<Token>, Logits) -> seq<Score>)

  ghost predicate Sound<S(!new)>(dec: Decoder<S>) {
    && (forall s, t :: |dec.step(s, t).1| == dec.vocab)
    && forall ts, l :: |dec.logProbs(ts, l)| == |l|
  }

  datatype Beam<S> = Beam(tokens: seq<Token>, logProb: Score, state: S, lastLogits: Logits, finished: bool)

  /** What a live beam says about its next token. */
  function Next<S>(dec: Decoder<S>, beam: Beam<S>): seq<Score> { dec.logProbs(beam.tokens, beam.lastLogits) }

  datatype Candidate = Candidate(parent: nat, token: Token, parentLogProb: Score, tokenLogProb: Score)

  function Total(c: Candidate): Score { Plus(c.parentLogProb, c.tokenLogProb) }

  /** The candidate for following beam b with a token. */
  function CandidateOf<S>(dec: Decoder<S>, beams: seq<Beam<S>>, b: nat, token: Token): Candidate
    requires b < |beams|
  {
    Candidate(b, token, beams[b].logProb, At(Next(dec, beams[b]), token))
  }

  // --------------------------------------------------------- per-beam pruning

  ghost predicate NoDuplicates<T>(s: seq<T>) {
    forall i, j :: 0 <= i < j < |s| ==> s[i] != s[j]
  }

  /** The kept tokens are k of the best. */
  ghost predicate TopTokens(scores: seq<Score>, kept: seq<Token>, k: nat) {
    && |kept| == k && NoDuplicates(kept)
    && (forall i :: 0 <= i < k ==> kept[i] < |scores|)
    && forall i, t: nat :: 0 <= i < k && t < |scores| && t !in kept ==> Leq(scores[t], scores[kept[i]])
  }

  /** Any selection of k best tokens: the library promises neither an order nor how ties are broken. */
  method SelectTop(scores: seq<Score>, k: nat) returns (kept: seq<Token>)
    requires k < |scores|
    ensures TopTokens(scores, kept, k)
  {
    kept := [];
    while |kept| < k
      invariant |kept| <= k && TopTokens(scores, kept, |kept|)
    {
      var best: Token := FirstFree(scores, kept);
      for t := 0 to |scores|
        invariant best < |scores| && best !in kept
        invariant forall u: nat :: u < t && u !in kept ==> Leq(scores[u], scores[best])
      {
        if t !in kept && !Leq(scores[t], scores[best]) {
          best := t;
        }
      }
      kept := kept + [best];
    }
  }

  method FirstFree(scores: seq<Score>, kept: seq<Token>) returns (t: nat)
    requires |kept| < |scores| && NoDuplicates(kept)
    ensures t < |scores| && t !in kept
  {
    t := 0;
    while t < |scores| && t in kept
      invariant t <= |scores| && forall u: nat :: u < t ==> u in kept
    {
      t := t + 1;
    }
    if t == |scores| {
      CoversAll(kept, t);
      assert false;
    }
  }

  /** A list holding every number below n has at least n elements. */
  lemma {:induction false} CoversAll(s: seq<nat>, n: nat)
    requires forall u: nat :: u < n ==> u in s
    ensures n <= |s|
    decreases n
  {
    if n > 0 {
      var last: nat := n - 1;
      assert last in s;
      var i :| 0 <= i < |s| && s[i] == last;
      var rest := s[..i] + s[i + 1..];
      forall u: nat | u < last ensures u in rest {
        assert u in s;
        var j :| 0 <= j < |s| && s[j] == u;
        assert rest[if j < i then j else j - 1] == u;
      }
      CoversAll(rest, last);
    }
  }

  // ----------------------------------------------------------- global pruning

  /** Stable insertion: before everything that does not beat it. */
  function Insert(c: Candidate, s: seq<Candidate>): seq<Candidate> {
    if |s| == 0 then [c]
    else if Leq(Total(s[0]), Total(c)) then [c] + s
    else [s[0]] + Insert(c, s[1..])
  }

  /** A stable sort, best first. */
  function SortDescending(s: seq<Candidate>): seq<Candidate> {
    if |s| == 0 then [] else Insert(s[0], SortDescending(s[1..]))
  }

  ghost predicate Descending(s: seq<Candidate>) {
    forall i, j :: 0 <= i < j < |s| ==> Leq(Total(s[j]), Total(s[i]))
  }

  lemma {:induction false} InsertAdds(c: Candidate, s: seq<Candidate>)
    ensures multiset(Insert(c, s)) == multiset{c} + multiset(s)
  {
    hide Leq, Total;
    if |s| > 0 {
      assert s == [s[0]] + s[1..];
      InsertAdds(c, s[1..]);
    }
  }

  lemma {:induction false} InsertKeepsOrder(c: Candidate, s: seq<Candidate>)
    requires Descending(s)
    ensures Descending(Insert(c, s))
  {
    if |s| > 0 && !Leq(Total(s[0]), Total(c)) {
      InsertKeepsOrder(c, s[1..]);
      InsertAdds(c, s[1..]);
      var rest := Insert(c, s[1..]);
      forall i | 0 <= i < |rest| ensures Leq(Total(rest[i]), Total(s[0])) {
        assert rest[i] in multiset(rest);
      }
    }
  }

  lemma {:induction false} SortIsSorted(s: seq<Candidate>)
    ensures Descending(SortDescending(s)) && multiset(SortDescending(s)) == multiset(s)
    ensures |SortDescending(s)| == |s|
  {
    if |s| > 0 {
      SortIsSorted(s[1..]);
      InsertKeepsOrder(s[0], SortDescending(s[1..]));
      InsertAdds(s[0], SortDescending(s[1..]));
      hide Insert;
      assert s == [s[0]] + s[1..];
    }
    assert |multiset(s)| == |s| && |multiset(SortDescending(s))| == |SortDescending(s)|;
  }

  /** The candidates of beam b. */
  function CandidatesOf<S>(dec: Decoder<S>, beams: seq<Beam<S>>, b: nat, kept: seq<Token>): seq<Candidate>
    requires b < |beams|
  {
    seq(|kept|, i requires 0 <= i < |kept| => CandidateOf(dec, beams, b, kept[i]))
  }

  /** Phase 1's candidates, beam after beam. */
  function Candidates<S>(dec: Decoder<S>, beams: seq<Beam<S>>, kept: seq<seq<Token>>): seq<Candidate>
    requires |kept| <= |beams|
  {
    var n := |kept| - 1;
    if n < 0 then [] else Candidates(dec, beams, kept[..n]) + CandidatesOf(dec, beams, n, kept[n])
  }

  /** What phase 1 keeps of each beam. */
  ghost predicate KeptOk<S>(dec: Decoder<S>, beams: seq<Beam<S>>, size: nat, kept: seq<seq<Token>>) {
    && |kept| == |beams|
    && forall b :: 0 <= b < |beams| ==>
         if beams[b].finished then kept[b] == [] else TopTokens(Next(dec, beams[b]), kept[b], size)
  }

  /** The best `size` candidates of a step. */
  function Chosen<S>(dec: Decoder<S>, beams: seq<Beam<S>>, size: nat, kept: seq<seq<Token>>): seq<Candidate>
    requires |kept| == |beams|
  {
    Truncated(SortDescending(Candidates(dec, beams, kept)), size)
  }

  function Truncated<T>(s: seq<T>, n: nat): seq<T> {
    if |s| <= n then s else s[..n]
  }

  // ------------------------------------------------------- what is chosen

  lemma {:induction false} CandidatesCome<S>(dec: Decoder<S>, beams: seq<Beam<S>>, kept: seq<seq<Token>>, c: Candidate)
    requires |kept| <= |beams|
    ensures c in Candidates(dec, beams, kept) <==>
              c.parent < |kept| && c.token in kept[c.parent] && c == CandidateOf(dec, beams, c.parent, c.token)
  {
    var n := |kept| - 1;
    if n >= 0 {
      CandidatesCome(dec, beams, kept[..n], c);
      var last := CandidatesOf(dec, beams, n, kept[n]);
      if c.parent == n && c.token in kept[n] && c == CandidateOf(dec, beams, n, c.token) {
        var i :| 0 <= i < |kept[n]| && kept[n][i] == c.token;
        assert last[i] == c;
      }
    }
  }

  lemma {:induction false} CandidatesDiffer<S>(dec: Decoder<S>, beams: seq<Beam<S>>, kept: seq<seq<Token>>)
    requires |kept| <= |beams| && forall b :: 0 <= b < |kept| ==> NoDuplicates(kept[b])
    ensures NoDuplicates(Candidates(dec, beams, kept))
  {
    var n := |kept| - 1;
    if n >= 0 {
      CandidatesDiffer(dec, beams, kept[..n]);
      var front, last := Candidates(dec, beams, kept[..n]), CandidatesOf(dec, beams, n, kept[n]);
      forall i | 0 <= i < |front| ensures front[i].parent < n {
        CandidatesCome(dec, beams, kept[..n], front[i]);
      }
      assert forall i, j :: 0 <= i < j < |last| ==> last[i].token != last[j].token;
    }
  }

  lemma {:induction false} CandidatesSuffice<S>(dec: Decoder<S>, beams: seq<Beam<S>>, kept: seq<seq<Token>>, b: nat)
    requires b < |kept| <= |beams|
    ensures |Candidates(dec, beams, kept)| >= |kept[b]|
  {
    var n := |kept| - 1;
    if b < n {
      CandidatesSuffice(dec, beams, kept[..n], b);
    }
  }

  lemma SameElements<T>(s: seq<T>, t: seq<T>)
    requires multiset(s) == multiset(t) && NoDuplicates(s)
    ensures NoDuplicates(t) && forall x :: x in s <==> x in t
  {
    forall x ensures x in s <==> x in t {
      assert x in s <==> x in multiset(s);
      assert x in t <==> x in multiset(t);
    }
    forall i, j | 0 <= i < j < |t| ensures t[i] != t[j] {
      if t[i] == t[j] {
        AtMostOnce(s, t[i]);
        TwiceCounted(t, i, j);
      }
    }
  }

  lemma TwiceCounted<T>(t: seq<T>, i: nat, j: nat)
    requires i < j < |t| && t[i] == t[j]
    ensures multiset(t)[t[i]] >= 2
  {
    assert t == t[..j] + t[j..];
    assert t[..j][i] == t[i] && t[j..][0] == t[i];
    assert multiset(t)[t[i]] == multiset(t[..j])[t[i]] + multiset(t[j..])[t[i]];
  }

  lemma {:induction false} AtMostOnce<T>(s: seq<T>, x: T)
    requires NoDuplicates(s)
    ensures multiset(s)[x] <= 1
  {
    if |s| > 0 {
      AtMostOnce(s[1..], x);
      assert s == [s[0]] + s[1..];
      if s[0] == x {
        assert x !in s[1..];
        assert multiset(s[1..])[x] == 0;
      }
    }
  }

  /** The sorted candidates: the same ones, each once, best first. */
  lemma SortedCandidates<S>(dec: Decoder<S>, beams: seq<Beam<S>>, size: nat, kept: seq<seq<Token>>)
    requires KeptOk(dec, beams, size, kept)
    ensures var sorted := SortDescending(Candidates(dec, beams, kept));
            && Descending(sorted) && NoDuplicates(sorted)
            && |sorted| == |Candidates(dec, beams, kept)|
            && forall c :: c in sorted <==> c in Candidates(dec, beams, kept)
  {
    var all := Candidates(dec, beams, kept);
    SortIsSorted(all);
    CandidatesDiffer(dec, beams, kept);
    SameElements(all, SortDescending(all));
  }

  /** Chosen candidates are distinct and extend live beams by tokens of the vocabulary; `size` of them if any beam lives. */
  lemma ChosenAreSound<S>(dec: Decoder<S>, beams: seq<Beam<S>>, size: nat, kept: seq<seq<Token>>)
    requires KeptOk(dec, beams, size, kept)
    ensures NoDuplicates(Chosen(dec, beams, size, kept))
    ensures forall c <- Chosen(dec, beams, size, kept) ::
              && c.parent < |beams| && !beams[c.parent].finished && c.token < |Next(dec, beams[c.parent])|
              && c == CandidateOf(dec, beams, c.parent, c.token)
              && c.parentLogProb == beams[c.parent].logProb && c.tokenLogProb == Next(dec, beams[c.parent])[c.token]
    ensures |Chosen(dec, beams, size, kept)| <= size
    ensures (exists b :: 0 <= b < |beams| && !beams[b].finished) ==> |Chosen(dec, beams, size, kept)| == size
  {
    SortedCandidates(dec, beams, size, kept);
    forall c | c in Chosen(dec, beams, size, kept)
      ensures && c.parent < |beams| && !beams[c.parent].finished && c.token < |Next(dec, beams[c.parent])|
              && c == CandidateOf(dec, beams, c.parent, c.token)
              && c.parentLogProb == beams[c.parent].logProb && c.tokenLogProb == Next(dec, beams[c.parent])[c.token]
    {
      CandidatesCome(dec, beams, kept, c);
      var i :| 0 <= i < |kept[c.parent]| && kept[c.parent][i] == c.token;
    }
    if b :| 0 <= b < |beams| && !beams[b].finished {
      CandidatesSuffice(dec, beams, kept, b);
    }
  }

  /** Among a full choice containing c, either c is one of beam b's kept tokens or one of those was left out. */
  lemma SomeoneLeftOut(own: seq<Candidate>, chosen: seq<Candidate>, c: Candidate) returns (y: Candidate)
    requires NoDuplicates(own) && |chosen| <= |own| && c in chosen
    ensures y in own && (y == c || y !in chosen)
  {
    var others := Elements(chosen) - {c};
    if Elements(own) <= others {
      SetIsSmall(chosen);
      SetIsLarge(own);
      CardinalityLeq(Elements(own), others);
      assert false;
    }
    y :| y in Elements(own) && y !in others;
  }

  ghost function Elements<T>(s: seq<T>): set<T> { set x | x in s }

  lemma {:induction false} SetIsLarge<T>(s: seq<T>)
    requires NoDuplicates(s)
    ensures |Elements(s)| == |s|
  {
    if |s| > 0 {
      SetIsLarge(s[1..]);
      assert Elements(s) == {s[0]} + Elements(s[1..]);
    }
  }

  lemma {:induction false} SetIsSmall<T>(s: seq<T>)
    ensures |Elements(s)| <= |s|
  {
    if |s| > 0 {
      SetIsSmall(s[1..]);
      assert Elements(s) == {s[0]} + Elements(s[1..]);
    }
  }

  lemma CardinalityLeq<T>(a: set<T>, b: set<T>)
    requires a <= b
    ensures |a| <= |b|
  {
    assert b == a + (b - a);
  }

  lemma LeqTrans(a: Score, b: Score, c: Score)
    requires Leq(a, b) && Leq(b, c)
    ensures Leq(a, c)
  {
  }

  /**
   Pruning each beam to its `size` best tokens first loses nothing: no extension
   of any live beam by any token beats a chosen one.
   */
  lemma ChosenIsGlobalTop<S>(dec: Decoder<S>, beams: seq<Beam<S>>, size: nat, kept: seq<seq<Token>>,
                             b: nat, token: Token, c: Candidate)
    requires KeptOk(dec, beams, size, kept)
    requires b < |beams| && !beams[b].finished && token < |Next(dec, beams[b])|
    requires CandidateOf(dec, beams, b, token) !in Chosen(dec, beams, size, kept)
    requires c in Chosen(dec, beams, size, kept)
    ensures Leq(Total(CandidateOf(dec, beams, b, token)), Total(c))
    ensures var p, q := beams[b].logProb, Next(dec, beams[b])[token];
            p.Fin? && q.Fin? ==>
              && c.parentLogProb.Fin? && c.tokenLogProb.Fin?
              && p.value + q.value <= c.parentLogProb.value + c.tokenLogProb.value
  {
    var x := CandidateOf(dec, beams, b, token);
    SortedCandidates(dec, beams, size, kept);
    if token in kept[b] {
      CandidatesCome(dec, beams, kept, x);
      LeftOutIsNoBetter(dec, beams, size, kept, x, c);
    } else {
      var own := CandidatesOf(dec, beams, b, kept[b]);
      assert NoDuplicates(own) by {
        assert forall i, j :: 0 <= i < j < |own| ==> own[i].token != own[j].token;
      }
      var y := SomeoneLeftOut(own, Chosen(dec, beams, size, kept), c);
      assert Leq(Total(x), Total(y));
      if y != c {
        CandidatesCome(dec, beams, kept, y);
        LeftOutIsNoBetter(dec, beams, size, kept, y, c);
        LeqTrans(Total(x), Total(y), Total(c));
      }
    }
  }

  lemma LeftOutIsNoBetter<S>(dec: Decoder<S>, beams: seq<Beam<S>>, size: nat, kept: seq<seq<Token>>, x: Candidate, c: Candidate)
    requires KeptOk(dec, beams, size, kept) && x in Candidates(dec, beams, kept)
    requires x !in Chosen(dec, beams, size, kept) && c in Chosen(dec, beams, size, kept)
    ensures Leq(Total(x), Total(c))
  {
    var sorted := SortDescending(Candidates(dec, beams, kept));
    SortedCandidates(dec, beams, size, kept);
    var i :| 0 <= i < |sorted| && sorted[i] == x;
    var j :| 0 <= j < |Chosen(dec, beams, size, kept)| && Chosen(dec, beams, size, kept)[j] == c;
    assert forall k :: 0 <= k < |Chosen(dec, beams, size, kept)| ==> sorted[k] in Chosen(dec, beams, size, kept);
    assert sorted[j] == c && j < i;
  }
}
