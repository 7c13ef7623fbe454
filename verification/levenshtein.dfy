/** Word alignment counts for the word error rate (rkwhisper-bench/src/rkwhisper_bench/cli.py). */
module Levenshtein {
  import opened Wrappers

  type Word = string

  datatype WerResult = WerResult(hits: nat, substitutions: nat, deletions: nat, insertions: nat)

  function Edits(result: WerResult): nat { result.substitutions + result.deletions + result.insertions }

  // ------------------------------------------------------------ edit scripts

  /** One column of an alignment of the reference with the hypothesis. */
  datatype Op = Keep(word: Word) | Substitute(from: Word, to: Word) | Delete(from: Word) | Insert(to: Word)

  function SourceOf(op: Op): seq<Word> {
    match op
    case Keep(w) => [w]
    case Substitute(a, _) => [a]
    case Delete(a) => [a]
    case Insert(_) => []
  }

  function TargetOf(op: Op): seq<Word> {
    match op
    case Keep(w) => [w]
    case Substitute(_, b) => [b]
    case Delete(_) => []
    case Insert(b) => [b]
  }

  function Source(script: seq<Op>): seq<Word> {
    if |script| == 0 then [] else SourceOf(script[0]) + Source(script[1..])
  }

  function Target(script: seq<Op>): seq<Word> {
    if |script| == 0 then [] else TargetOf(script[0]) + Target(script[1..])
  }

  /** One more column. */
  function Counted(op: Op, t: WerResult): WerResult {
    match op
    case Keep(_) => t.(hits := t.hits + 1)
    case Substitute(_, _) => t.(substitutions := t.substitutions + 1)
    case Delete(_) => t.(deletions := t.deletions + 1)
    case Insert(_) => t.(insertions := t.insertions + 1)
  }

  /** How many columns of each kind; a substitution may replace a word by itself. */
  function Tally(script: seq<Op>): WerResult {
    if |script| == 0 then WerResult(0, 0, 0, 0) else Counted(script[0], Tally(script[1..]))
  }

  /** How many columns are edits. */
  function Cost(script: seq<Op>): nat {
    if |script| == 0 then 0 else (if script[0].Keep? then 0 else 1) + Cost(script[1..])
  }

  ghost predicate Rewrites(script: seq<Op>, ref: seq<Word>, hyp: seq<Word>) {
    Source(script) == ref && Target(script) == hyp
  }

  lemma {:induction false} TallyCountsWords(script: seq<Op>)
    ensures var t := Tally(script);
            && t.hits + t.substitutions + t.deletions == |Source(script)|
            && t.hits + t.substitutions + t.insertions == |Target(script)|
  {
    if |script| > 0 {
      TallyCountsWords(script[1..]);
    }
  }

  lemma CountedEdits(op: Op, t: WerResult)
    ensures Edits(Counted(op, t)) == Edits(t) + if op.Keep? then 0 else 1
  {
  }

  lemma {:induction false} TallyCountsEdits(script: seq<Op>)
    ensures Edits(Tally(script)) == Cost(script)
  {
    if |script| > 0 {
      TallyCountsEdits(script[1..]);
      CountedEdits(script[0], Tally(script[1..]));
      hide Counted, Edits;
    }
  }

  /** A script is its front and its last column. */
  lemma SplitLast(front: seq<Op>, last: Op)
    ensures Source(front + [last]) == Source(front) + SourceOf(last)
    ensures Target(front + [last]) == Target(front) + TargetOf(last)
    ensures Cost(front + [last]) == Cost(front) + if last.Keep? then 0 else 1
  {
    SourceSplits(front, last);
    TargetSplits(front, last);
    CostSplits(front, last);
  }

  lemma {:induction false} SourceSplits(front: seq<Op>, last: Op)
    ensures Source(front + [last]) == Source(front) + SourceOf(last)
  {
    hide SourceOf;
    if |front| == 0 {
      assert front + [last] == [last];
    } else {
      SourceSplits(front[1..], last);
      assert (front + [last])[1..] == front[1..] + [last];
    }
  }

  lemma {:induction false} TargetSplits(front: seq<Op>, last: Op)
    ensures Target(front + [last]) == Target(front) + TargetOf(last)
  {
    hide TargetOf;
    if |front| == 0 {
      assert front + [last] == [last];
    } else {
      TargetSplits(front[1..], last);
      assert (front + [last])[1..] == front[1..] + [last];
    }
  }

  lemma {:induction false} CostSplits(front: seq<Op>, last: Op)
    ensures Cost(front + [last]) == Cost(front) + if last.Keep? then 0 else 1
  {
    if |front| == 0 {
      assert front + [last] == [last];
    } else {
      CostSplits(front[1..], last);
      assert (front + [last])[1..] == front[1..] + [last];
    }
  }

  // ---------------------------------------------------------------- distance

  function Front(s: seq<Word>): seq<Word>
    requires s != []
  {
    s[..|s| - 1]
  }

  /** What the table holds for two prefixes: equal last words are matched without considering anything else. */
  function Distance(a: seq<Word>, b: seq<Word>): nat
    decreases |a| + |b|
  {
    if a == [] then |b|
    else if b == [] then |a|
    else if a[|a| - 1] == b[|b| - 1] then Distance(Front(a), Front(b))
    else 1 + Min(Distance(Front(a), Front(b)), Min(Distance(Front(a), b), Distance(a, Front(b))))
  }

  /** Dropping the last word of either side changes the distance by at most one. */
  lemma {:induction false} DistanceIsSmooth(a: seq<Word>, b: seq<Word>)
    ensures a != [] ==> Distance(Front(a), b) - 1 <= Distance(a, b) <= Distance(Front(a), b) + 1
    ensures b != [] ==> Distance(a, Front(b)) - 1 <= Distance(a, b) <= Distance(a, Front(b)) + 1
    decreases |a| + |b|
  {
    if a != [] && b != [] {
      DistanceIsSmooth(Front(a), b);
      DistanceIsSmooth(a, Front(b));
    }
  }

  /** No last column beats the distance. */
  lemma LastColumn(op: Op, a: seq<Word>, b: seq<Word>)
    ensures Distance(a + SourceOf(op), b + TargetOf(op)) <= Distance(a, b) + if op.Keep? then 0 else 1
  {
    var a', b' := a + SourceOf(op), b + TargetOf(op);
    assert if op.Insert? then a' == a else Front(a') == a;
    assert if op.Delete? then b' == b else Front(b') == b;
    DistanceIsSmooth(a', b');
  }

  /** No way of rewriting the one into the other takes fewer edits. */
  lemma {:induction false} DistanceIsLeast(script: seq<Op>, a: seq<Word>, b: seq<Word>)
    requires Rewrites(script, a, b)
    ensures Distance(a, b) <= Cost(script)
    decreases |script|
  {
    if |script| > 0 {
      var front, last := script[..|script| - 1], script[|script| - 1];
      assert script == front + [last];
      SplitLast(front, last);
      DistanceIsLeast(front, Source(front), Target(front));
      LastColumn(last, Source(front), Target(front));
    }
  }

  // --------------------------------------------- which cheapest alignment

  function Rank(op: Op): nat {
    match op
    case Keep(_) => 0
    case Substitute(_, _) => 1
    case Delete(_) => 2
    case Insert(_) => 3
  }

  /** No alignment of the two texts with the fewest edits ends in a column of a kind that goes before op's. */
  ghost predicate IsPreferred(op: Op, a: seq<Word>, b: seq<Word>) {
    forall other :: Rewrites(other, a, b) && Cost(other) == Distance(a, b) && other != [] ==>
      Rank(op) <= Rank(other[|other| - 1])
  }

  /** From the end, each column is a match, else a substitution, else a deletion, else an insertion. */
  ghost predicate Prefers(script: seq<Op>, a: seq<Word>, b: seq<Word>) {
    forall k :: 0 <= k < |script| ==>
      IsPreferred(script[k], a + Source(script[..k + 1]), b + Target(script[..k + 1]))
  }

  /** What the table says where op is chosen. */
  ghost predicate IsChosen(op: Op, a: seq<Word>, b: seq<Word>) {
    || op.Keep?
    || ((a != [] && b != [] ==> a[|a| - 1] != b[|b| - 1])
        && (op.Substitute?
            || ((a != [] && b != [] ==> Distance(a, b) != Distance(Front(a), Front(b)) + 1)
                && (op.Delete? || (a != [] ==> Distance(a, b) != Distance(Front(a), b) + 1)))))
  }

  lemma ChosenIsPreferred(op: Op, a: seq<Word>, b: seq<Word>)
    requires IsChosen(op, a, b)
    ensures IsPreferred(op, a, b)
  {
    forall other | Rewrites(other, a, b) && Cost(other) == Distance(a, b) && other != []
      ensures Rank(op) <= Rank(other[|other| - 1])
    {
      var front, last := other[..|other| - 1], other[|other| - 1];
      assert other == front + [last];
      SplitLast(front, last);
      var a', b' := Source(front), Target(front);
      DistanceIsLeast(front, a', b');
      assert if last.Insert? then a' == a else a' == Front(a);
      assert if last.Delete? then b' == b else b' == Front(b);
      DistanceIsSmooth(a, b);
    }
  }

  /** The front of an alignment with the fewest edits has the fewest edits. */
  lemma FrontIsLeast(front: seq<Op>, last: Op)
    requires Cost(front + [last]) == Distance(Source(front + [last]), Target(front + [last]))
    ensures Cost(front) == Distance(Source(front), Target(front))
  {
    SplitLast(front, last);
    LastColumn(last, Source(front), Target(front));
    DistanceIsLeast(front, Source(front), Target(front));
  }

  lemma NothingToAlign(script: seq<Op>)
    requires Source(script) == [] && Target(script) == []
    ensures script == []
  {
  }

  lemma LastIsPreferred(script: seq<Op>)
    requires script != [] && Prefers(script, [], [])
    ensures IsPreferred(script[|script| - 1], Source(script), Target(script))
  {
    hide IsPreferred;
    var n := |script| - 1;
    assert script[..n + 1] == script;
    assert IsPreferred(script[n], [] + Source(script[..n + 1]), [] + Target(script[..n + 1]));
    assert [] + Source(script) == Source(script) && [] + Target(script) == Target(script);
  }

  lemma FrontPrefers(script: seq<Op>)
    requires script != [] && Prefers(script, [], [])
    ensures Prefers(script[..|script| - 1], [], [])
  {
    hide IsPreferred, Source, Target;
    var front := script[..|script| - 1];
    forall k | 0 <= k < |front| ensures IsPreferred(front[k], [] + Source(front[..k + 1]), [] + Target(front[..k + 1])) {
      assert front[..k + 1] == script[..k + 1];
    }
  }

  /** Behind a first column. */
  lemma MorePrefers(op: Op, script: seq<Op>, a: seq<Word>, b: seq<Word>, a': seq<Word>, b': seq<Word>)
    requires a' == a + SourceOf(op) && b' == b + TargetOf(op)
    requires IsPreferred(op, a', b') && Prefers(script, a', b')
    ensures Prefers([op] + script, a, b)
  {
    hide IsPreferred, SourceOf, TargetOf;
    var longer := [op] + script;
    forall k | 0 <= k < |longer|
      ensures IsPreferred(longer[k], a + Source(longer[..k + 1]), b + Target(longer[..k + 1]))
    {
      var front := longer[..k + 1];
      assert front[0] == op && front[1..] == script[..k];
      assert a + Source(front) == a' + Source(script[..k]);
      assert b + Target(front) == b' + Target(script[..k]);
      if k == 0 {
        assert script[..0] == [];
        assert a' + [] == a' && b' + [] == b';
      } else {
        assert IsPreferred(script[k - 1], a' + Source(script[..k]), b' + Target(script[..k]));
      }
    }
  }

  lemma RanksAgree(script: seq<Op>, other: seq<Op>)
    requires script != [] && other != []
    requires Source(script) == Source(other) && Target(script) == Target(other)
    requires Cost(script) == Distance(Source(script), Target(script)) == Cost(other)
    requires Prefers(script, [], []) && Prefers(other, [], [])
    ensures Rank(script[|script| - 1]) == Rank(other[|other| - 1])
  {
    LastIsPreferred(script);
    LastIsPreferred(other);
    hide Prefers, Source, Target, Cost, Distance, Rank;
  }

  /** A column of known kind is determined by the texts it ends, and so is what comes before it. */
  lemma SameColumn(a: seq<Word>, b: seq<Word>, op: Op, a': seq<Word>, b': seq<Word>, op': Op)
    requires Rank(op) == Rank(op')
    requires a + SourceOf(op) == a' + SourceOf(op') && b + TargetOf(op) == b' + TargetOf(op')
    ensures op == op' && a == a' && b == b'
  {
    assert |SourceOf(op)| == |SourceOf(op')| && |TargetOf(op)| == |TargetOf(op')|;
    assert a == (a + SourceOf(op))[..|a|] && b == (b + TargetOf(op))[..|b|];
    assert SourceOf(op) == (a + SourceOf(op))[|a|..] && TargetOf(op) == (b + TargetOf(op))[|b|..];
    if |SourceOf(op)| == 1 {
      assert SourceOf(op)[0] == SourceOf(op')[0];
    }
    if |TargetOf(op)| == 1 {
      assert TargetOf(op)[0] == TargetOf(op')[0];
    }
  }

  /** An alignment with the fewest edits that prefers columns so. */
  ghost predicate IsBest(script: seq<Op>) {
    Cost(script) == Distance(Source(script), Target(script)) && Prefers(script, [], [])
  }

  lemma FrontIsBest(front: seq<Op>, last: Op)
    requires IsBest(front + [last])
    ensures IsBest(front)
  {
    FrontIsLeast(front, last);
    FrontPrefers(front + [last]);
    assert (front + [last])[..|front|] == front;
    hide Prefers, Source, Target, Cost, Distance;
  }

  lemma SameEnds(front: seq<Op>, last: Op, front': seq<Op>, last': Op)
    requires Source(front + [last]) == Source(front' + [last']) && Target(front + [last]) == Target(front' + [last'])
    requires IsBest(front + [last]) && IsBest(front' + [last'])
    ensures last == last' && Source(front) == Source(front') && Target(front) == Target(front')
  {
    hide Prefers, Source, Target, Cost, Distance, SourceOf, TargetOf, Rank;
    RanksAgree(front + [last], front' + [last']);
    SplitLast(front, last);
    SplitLast(front', last');
    SameColumn(Source(front), Target(front), last, Source(front'), Target(front'), last');
  }

  /** There is only one alignment with the fewest edits that prefers columns so. */
  lemma {:induction false} BestIsUnique(script: seq<Op>, other: seq<Op>)
    requires Source(script) == Source(other) && Target(script) == Target(other)
    requires IsBest(script) && IsBest(other)
    ensures script == other
    decreases |script|
  {
    hide IsBest;
    if script == [] || other == [] {
      assert Source([]) == [] && Target([]) == [];
      NothingToAlign(script);
      NothingToAlign(other);
    } else {
      hide Source, Target;
      var front, last := script[..|script| - 1], script[|script| - 1];
      var front', last' := other[..|other| - 1], other[|other| - 1];
      assert script == front + [last] && other == front' + [last'];
      SameEnds(front, last, front', last');
      FrontIsBest(front, last);
      FrontIsBest(front', last');
      BestIsUnique(front, front');
    }
  }

  // --------------------------------------------------------------- the table

  /** The distance of two prefixes. */
  ghost function Cell(ref: seq<Word>, hyp: seq<Word>, i: nat, j: nat): nat
    requires i <= |ref| && j <= |hyp|
  {
    Distance(ref[..i], hyp[..j])
  }

  lemma CellAtEdge(ref: seq<Word>, hyp: seq<Word>)
    ensures forall i :: 0 <= i <= |ref| ==> Cell(ref, hyp, i, 0) == i
    ensures forall j :: 0 <= j <= |hyp| ==> Cell(ref, hyp, 0, j) == j
  {
  }

  lemma CellInside(ref: seq<Word>, hyp: seq<Word>, i: nat, j: nat)
    requires 0 < i <= |ref| && 0 < j <= |hyp|
    ensures Cell(ref, hyp, i, j) ==
      if ref[i - 1] == hyp[j - 1] then Cell(ref, hyp, i - 1, j - 1)
      else 1 + Min(Cell(ref, hyp, i - 1, j - 1), Min(Cell(ref, hyp, i - 1, j), Cell(ref, hyp, i, j - 1)))
  {
    assert Front(ref[..i]) == ref[..i - 1] && Front(hyp[..j]) == hyp[..j - 1];
  }

  /** Fills the distance table, row by row. */
  method FillTable(ref: seq<Word>, hyp: seq<Word>) returns (table: array2<nat>)
    ensures fresh(table) && table.Length0 == |ref| + 1 && table.Length1 == |hyp| + 1
    ensures forall i, j :: 0 <= i <= |ref| && 0 <= j <= |hyp| ==> table[i, j] == Cell(ref, hyp, i, j)
  {
    table := new nat[|ref| + 1, |hyp| + 1]((_, _) => 0);
    for j := 0 to |hyp| + 1
      invariant forall k :: 0 <= k < j ==> table[0, k] == k
    {
      table[0, j] := j;
    }
    for i := 0 to |ref| + 1
      invariant forall k :: 0 <= k <= |hyp| ==> table[0, k] == k
      invariant forall k :: 0 <= k < i ==> table[k, 0] == k
    {
      table[i, 0] := i;
    }
    CellAtEdge(ref, hyp);
    hide Cell;
    for i := 1 to |ref| + 1
      invariant forall k :: i <= k <= |ref| ==> table[k, 0] == Cell(ref, hyp, k, 0)
      invariant forall k, j :: 0 <= k < i && 0 <= j <= |hyp| ==> table[k, j] == Cell(ref, hyp, k, j)
    {
      for j := 1 to |hyp| + 1
        invariant forall k :: i < k <= |ref| ==> table[k, 0] == Cell(ref, hyp, k, 0)
        invariant forall k, j :: 0 <= k < i && 0 <= j <= |hyp| ==> table[k, j] == Cell(ref, hyp, k, j)
        invariant forall k :: 0 <= k < j ==> table[i, k] == Cell(ref, hyp, i, k)
      {
        CellInside(ref, hyp, i, j);
        if ref[i - 1] == hyp[j - 1] {
          table[i, j] := table[i - 1, j - 1];
        } else {
          table[i, j] := 1 + Min(table[i - 1, j - 1], Min(table[i - 1, j], table[i, j - 1]));
        }
      }
    }
  }

  /** The columns walked over so far align the ends of the two texts, and account for what the table says. */
  ghost predicate Aligned(script: seq<Op>, ref: seq<Word>, hyp: seq<Word>, i: nat, j: nat, counts: WerResult)
    requires i <= |ref| && j <= |hyp|
  {
    && Rewrites(script, ref[i..], hyp[j..])
    && Tally(script) == counts
    && Cell(ref, hyp, i, j) + Cost(script) == Distance(ref, hyp)
    && forall k :: 0 <= k < |script| && script[k].Substitute? ==> script[k].from != script[k].to
  }

  /** Each of them is of the first kind that a cheapest alignment can end in. */
  ghost predicate Walked(script: seq<Op>, ref: seq<Word>, hyp: seq<Word>, i: nat, j: nat, counts: WerResult)
    requires i <= |ref| && j <= |hyp|
  {
    Aligned(script, ref, hyp, i, j, counts) && Prefers(script, ref[..i], hyp[..j])
  }

  /** The table speaks for op, and against the kinds before it. */
  ghost predicate TableChooses(op: Op, ref: seq<Word>, hyp: seq<Word>, i: nat, j: nat)
    requires i <= |ref| && j <= |hyp|
  {
    || op.Keep?
    || ((0 < i && 0 < j ==> ref[i - 1] != hyp[j - 1])
        && (op.Substitute?
            || ((0 < i && 0 < j ==> Cell(ref, hyp, i, j) != Cell(ref, hyp, i - 1, j - 1) + 1)
                && (op.Delete? || (0 < i ==> Cell(ref, hyp, i, j) != Cell(ref, hyp, i - 1, j) + 1)))))
  }

  lemma TableChoiceIsPreferred(op: Op, ref: seq<Word>, hyp: seq<Word>, i: nat, j: nat)
    requires i <= |ref| && j <= |hyp| && TableChooses(op, ref, hyp, i, j)
    ensures IsPreferred(op, ref[..i], hyp[..j])
  {
    hide IsPreferred;
    assert 0 < i ==> Front(ref[..i]) == ref[..i - 1];
    assert 0 < j ==> Front(hyp[..j]) == hyp[..j - 1];
    ChosenIsPreferred(op, ref[..i], hyp[..j]);
  }

  lemma WalkAligns(op: Op, script: seq<Op>, ref: seq<Word>, hyp: seq<Word>,
                   i: nat, j: nat, i': nat, j': nat, counts: WerResult)
    requires i <= i' <= |ref| && j <= j' <= |hyp|
    requires Aligned(script, ref, hyp, i', j', counts)
    requires SourceOf(op) == ref[i..i'] && TargetOf(op) == hyp[j..j']
    requires Cell(ref, hyp, i', j') == Cell(ref, hyp, i, j) + if op.Keep? then 0 else 1
    requires op.Substitute? ==> op.from != op.to
    ensures Aligned([op] + script, ref, hyp, i, j, Counted(op, counts))
  {
    hide Cell, Distance, SourceOf, TargetOf, Counted;
    var longer := [op] + script;
    assert longer[1..] == script;
    assert Source(longer) == ref[i..] by {
      assert ref[i..i'] + ref[i'..] == ref[i..];
    }
    assert Target(longer) == hyp[j..] by {
      assert hyp[j..j'] + hyp[j'..] == hyp[j..];
    }
  }

  /** Walking over one more column, where the table says so. */
  lemma Walk(op: Op, script: seq<Op>, ref: seq<Word>, hyp: seq<Word>,
             i: nat, j: nat, i': nat, j': nat, counts: WerResult)
    requires i <= i' <= |ref| && j <= j' <= |hyp|
    requires Walked(script, ref, hyp, i', j', counts)
    requires SourceOf(op) == ref[i..i'] && TargetOf(op) == hyp[j..j']
    requires Cell(ref, hyp, i', j') == Cell(ref, hyp, i, j) + if op.Keep? then 0 else 1
    requires op.Substitute? ==> op.from != op.to
    requires TableChooses(op, ref, hyp, i', j')
    ensures Walked([op] + script, ref, hyp, i, j, Counted(op, counts))
  {
    hide Cell, Distance, SourceOf, TargetOf, Counted, TableChooses, IsPreferred, Prefers, Aligned;
    WalkAligns(op, script, ref, hyp, i, j, i', j', counts);
    TableChoiceIsPreferred(op, ref, hyp, i', j');
    assert ref[..i'] == ref[..i] + ref[i..i'] && hyp[..j'] == hyp[..j] + hyp[j..j'];
    MorePrefers(op, script, ref[..i], hyp[..j], ref[..i'], hyp[..j']);
  }

  lemma NothingWalked(ref: seq<Word>, hyp: seq<Word>)
    ensures Walked([], ref, hyp, |ref|, |hyp|, WerResult(0, 0, 0, 0))
  {
    assert ref[..|ref|] == ref && hyp[..|hyp|] == hyp;
    assert ref[|ref|..] == [] && hyp[|hyp|..] == [];
    hide Distance;
  }

  lemma WalkedAll(script: seq<Op>, ref: seq<Word>, hyp: seq<Word>, counts: WerResult)
    requires Walked(script, ref, hyp, 0, 0, counts)
    ensures counts.hits + counts.substitutions + counts.deletions == |ref|
    ensures counts.hits + counts.substitutions + counts.insertions == |hyp|
    ensures Edits(counts) == Distance(ref, hyp)
  {
    TallyCountsWords(script);
    TallyCountsEdits(script);
  }

  /** The counts are determined by the two texts. */
  lemma CountsAreDetermined(script: seq<Op>, other: seq<Op>, ref: seq<Word>, hyp: seq<Word>, counts: WerResult, more: WerResult)
    requires Walked(script, ref, hyp, 0, 0, counts) && Walked(other, ref, hyp, 0, 0, more)
    ensures counts == more
  {
    hide Prefers;
    assert ref[..0] == [] && hyp[..0] == [] && ref[0..] == ref && hyp[0..] == hyp;
    BestIsUnique(script, other);
  }

  /**
   Walks the table back. The counts are those of an alignment of the two texts,
   they add up to the two lengths, and no alignment has fewer edits.  From the end
   it prefers matches to substitutions to deletions to insertions.
   */
  method ProcessWords(ref: seq<Word>, hyp: seq<Word>) returns (result: WerResult)
    ensures result.hits + result.substitutions + result.deletions == |ref|
    ensures result.hits + result.substitutions + result.insertions == |hyp|
    ensures exists script :: Walked(script, ref, hyp, 0, 0, result)
    ensures forall script :: Rewrites(script, ref, hyp) ==> Edits(result) <= Cost(script)
  {
    hide Cell, Distance, Walked, Aligned, Prefers, IsPreferred, Rewrites, Tally, Cost, Source, Target;
    var table := FillTable(ref, hyp);
    var hits: nat, subs: nat, dels: nat, ins: nat := 0, 0, 0, 0;
    var i: nat, j: nat := |ref|, |hyp|;
    ghost var script: seq<Op> := [];
    NothingWalked(ref, hyp);
    CellAtEdge(ref, hyp);
    while i > 0 || j > 0
      invariant i <= |ref| && j <= |hyp|
      invariant Walked(script, ref, hyp, i, j, WerResult(hits, subs, dels, ins))
      modifies {}
      decreases i + j
    {
      if 0 < i {
        assert ref[i - 1..i] == [ref[i - 1]];
        assert Cell(ref, hyp, i, 0) == i && Cell(ref, hyp, i - 1, 0) == i - 1;
      }
      if 0 < j {
        assert hyp[j - 1..j] == [hyp[j - 1]];
        assert Cell(ref, hyp, 0, j) == j && Cell(ref, hyp, 0, j - 1) == j - 1;
      }
      assert ref[i..i] == [] && hyp[j..j] == [];
      if 0 < i && 0 < j {
        CellInside(ref, hyp, i, j);
      }
      if i > 0 && j > 0 && ref[i - 1] == hyp[j - 1] {
        Walk(Keep(ref[i - 1]), script, ref, hyp, i - 1, j - 1, i, j, WerResult(hits, subs, dels, ins));
        script := [Keep(ref[i - 1])] + script;
        hits := hits + 1;
        i, j := i - 1, j - 1;
      } else if i > 0 && j > 0 && table[i, j] == table[i - 1, j - 1] + 1 {
        Walk(Substitute(ref[i - 1], hyp[j - 1]), script, ref, hyp, i - 1, j - 1, i, j, WerResult(hits, subs, dels, ins));
        script := [Substitute(ref[i - 1], hyp[j - 1])] + script;
        subs := subs + 1;
        i, j := i - 1, j - 1;
      } else if i > 0 && table[i, j] == table[i - 1, j] + 1 {
        Walk(Delete(ref[i - 1]), script, ref, hyp, i - 1, j, i, j, WerResult(hits, subs, dels, ins));
        script := [Delete(ref[i - 1])] + script;
        dels := dels + 1;
        i := i - 1;
      } else {
        Walk(Insert(hyp[j - 1]), script, ref, hyp, i, j - 1, i, j, WerResult(hits, subs, dels, ins));
        script := [Insert(hyp[j - 1])] + script;
        ins := ins + 1;
        j := j - 1;
      }
    }
    result := WerResult(hits, subs, dels, ins);
    WalkedAll(script, ref, hyp, result);
    forall other | Rewrites(other, ref, hyp) ensures Edits(result) <= Cost(other) {
      DistanceIsLeast(other, ref, hyp);
    }
  }
}
