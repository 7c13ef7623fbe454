/**
 The reorder buffer: results arrive in any order, are parked under their window
 index, and leave as soon as every earlier one has left.  Both the batch
 collector (rkwhisper/src/parallel.rs) and each live job
 (rkwhisper/src/bin/rkwhisperd.rs) run this loop.
 */
module Reorder {

  /** What leaves a buffer whose next index to release is `next`. */
  function Released<T>(pending: map<nat, T>, next: nat): seq<T>
    decreases |pending|
  {
    if next in pending then
      PopShrinks(pending, next);
      [pending[next]] + Released(pending - {next}, next + 1)
    else []
  }

  /** What stays behind. */
  function Parked<T>(pending: map<nat, T>, next: nat): map<nat, T>
    decreases |pending|
  {
    if next in pending then
      PopShrinks(pending, next);
      Parked(pending - {next}, next + 1)
    else pending
  }

  lemma PopShrinks<T>(pending: map<nat, T>, k: nat)
    requires k in pending
    ensures |pending - {k}| == |pending| - 1
  {
    assert (pending - {k}).Keys == pending.Keys - {k};
  }

  lemma ReleaseOne<T>(pending: map<nat, T>, next: nat)
    requires next in pending
    ensures Released(pending, next) == [pending[next]] + Released(pending - {next}, next + 1)
    ensures Parked(pending, next) == Parked(pending - {next}, next + 1)
  {
  }

  lemma ReleaseNone<T>(pending: map<nat, T>, next: nat)
    requires next !in pending
    ensures Released(pending, next) == [] && Parked(pending, next) == pending
  {
  }

  /** Every parked value is the one that belongs under its index, and all indices lie in lo..hi. */
  ghost predicate Faithful<T(!new)>(pending: map<nat, T>, all: seq<T>, lo: nat, hi: nat) {
    && hi <= |all|
    && forall k :: k in pending ==> lo <= k < hi && pending[k] == all[k]
  }

  /** Exactly the values from `next` up to the first missing index leave, in order; everything else stays. */
  lemma {:induction false} ReleaseMeans<T(!new)>(pending: map<nat, T>, next: nat)
    ensures var out, rest := Released(pending, next), Parked(pending, next);
            && next + |out| !in pending
            && (forall k :: next <= k < next + |out| ==> k in pending && out[k - next] == pending[k])
            && (forall k :: k in rest <==> k in pending && !(next <= k < next + |out|))
            && (forall k :: k in rest ==> rest[k] == pending[k])
            && |rest| + |out| == |pending|
    decreases |pending|
  {
    if next in pending {
      PopShrinks(pending, next);
      ReleaseOne(pending, next);
      ReleaseMeans(pending - {next}, next + 1);
      var out := Released(pending - {next}, next + 1);
      hide Released, Parked;
      forall k | next <= k < next + 1 + |out| ensures k in pending && ([pending[next]] + out)[k - next] == pending[k] {
        assert k > next ==> k in pending - {next};
      }
    }
  }

  /** What is released is the next stretch of `all` when the parked values there are its. */
  lemma ReleasesStretch<T(!new)>(pending: map<nat, T>, next: nat, all: seq<T>)
    requires next <= |all| && |all| !in pending
    requires forall k :: k in pending && next <= k < |all| ==> pending[k] == all[k]
    ensures var next' := next + |Released(pending, next)|;
            next' <= |all| && Released(pending, next) == all[next..next']
  {
    hide Released, Parked;
    ReleaseMeans(pending, next);
    var out := Released(pending, next);
    assert !(next <= |all| < next + |out|);
    forall i | 0 <= i < |out| ensures out[i] == all[next + i] {
      assert next + i in pending;
    }
    assert out == all[next..next + |out|];
  }

  /** Releasing hands out the next stretch of `all`, in order, and parks only indices beyond the new `next`. */
  lemma ReleaseInOrder<T(!new)>(pending: map<nat, T>, next: nat, all: seq<T>, hi: nat)
    requires next <= hi && Faithful(pending, all, next, hi)
    ensures var next' := next + |Released(pending, next)|;
            && next' <= hi
            && Released(pending, next) == all[next..next']
            && Faithful(Parked(pending, next), all, next' + 1, hi)
            && |Parked(pending, next)| + next' == |pending| + next
            && (forall k :: k in Parked(pending, next) <==> k in pending && next' <= k)
            && (forall k :: next <= k < next' ==> k in pending)
  {
    hide Released, Parked;
    var out := Released(pending, next);
    ReleasesStretch(pending, next, all[..hi]);
    assert all[..hi][next..next + |out|] == all[next..next + |out|];
    ReleaseMeans(pending, next);
  }

  /** Every parked value for an index of `all` is the right one, and the index just beyond has none. */
  ghost predicate Agrees<T(!new)>(pending: map<nat, T>, all: seq<T>) {
    && |all| !in pending
    && forall k :: k in pending && k < |all| ==> pending[k] == all[k]
  }

  /** Then whatever is released is the next stretch of `all`, even if values arrived twice or too late. */
  lemma ReleaseAgrees<T(!new)>(pending: map<nat, T>, next: nat, all: seq<T>)
    requires next <= |all| && Agrees(pending, all)
    ensures var next' := next + |Released(pending, next)|;
            next' <= |all| && Released(pending, next) == all[next..next'] && Agrees(Parked(pending, next), all)
  {
    hide Released, Parked;
    ReleasesStretch(pending, next, all);
    ReleaseMeans(pending, next);
  }

  /** Distinct indices in lo..hi are at most hi - lo many, and all of them when the count is exact. */
  lemma {:induction false} KeysFit<T>(pending: map<nat, T>, lo: nat, hi: nat)
    requires lo <= hi && forall k :: k in pending ==> lo <= k < hi
    ensures |pending| <= hi - lo
    ensures |pending| == hi - lo ==> forall k :: lo <= k < hi ==> k in pending
    decreases hi - lo
  {
    if lo == hi {
      assert pending.Keys == {};
    } else if hi - 1 in pending {
      PopShrinks(pending, hi - 1);
      KeysFit(pending - {hi - 1}, lo, hi - 1);
      if |pending| == hi - lo {
        forall k: nat | lo <= k < hi ensures k in pending {
          assert k == hi - 1 || k in pending - {hi - 1};
        }
      }
    } else {
      KeysFit(pending, lo, hi - 1);
    }
  }
}
