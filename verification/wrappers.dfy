/** Small shared vocabulary: optional values, results and saturating arithmetic. */
module Wrappers {

  datatype Option<+T> = None | Some(value: T)

  /** The source's `Result`; the members are those the operator `:-` needs. */
  datatype Result<+T, +E> = Ok(value: T) | Err(error: E) {
    predicate IsFailure() { Err? }

    function PropagateFailure<U>(): Result<U, E>
      requires Err?
    {
      Err(error)
    }

    function Extract(): T
      requires Ok?
    {
      value
    }
  }

  function Min(a: int, b: int): int { if a < b then a else b }

  function Max(a: int, b: int): int { if a < b then b else a }

  /** The source's `saturating_sub` on unsigned integers. */
  function SatSub(a: nat, b: nat): nat { if a < b then 0 else a - b }

  /** Distinct numbers below m are at most m many. */
  lemma {:induction false} DistinctFit(s: seq<nat>, m: nat)
    requires forall i :: 0 <= i < |s| ==> s[i] < m
    requires forall i, j :: 0 <= i < j < |s| ==> s[i] != s[j]
    ensures |s| <= m
    decreases m
  {
    if s != [] {
      assert m > 0 by { assert s[0] < m; }
      if k :| 0 <= k < |s| && s[k] == m - 1 {
        var rest := s[..k] + s[k + 1..];
        assert forall i :: 0 <= i < |rest| ==> rest[i] == s[if i < k then i else i + 1];
        DistinctFit(rest, m - 1);
      } else {
        DistinctFit(s, m - 1);
      }
    }
  }

  type pos = n: int | 0 < n witness 1

  type byte = b: int | 0 <= b < 256
}
