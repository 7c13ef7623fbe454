/** The shared-memory audio ring: a byte buffer with two ever-growing counters (rkwhisper-protocol/src/lib.rs). */
module Ring {
  import opened Wrappers
  import Arith

  /** The cell of the i-th position after p, in a ring of n cells. */
  function Cell(p: nat, i: nat, n: nat): nat
    requires 0 < n
    ensures Cell(p, i, n) < n
  {
    (p + i) % n
  }

  /** How many positions after p a cell comes up next. */
  function Ahead(p: nat, cell: nat, n: nat): nat
    requires 0 < n && cell < n
  {
    var start := Cell(p, 0, n);
    if start <= cell then cell - start else cell + n - start
  }

  lemma AheadOfCell(p: nat, i: nat, n: nat)
    requires 0 < n && i < n
    ensures Ahead(p, Cell(p, i, n), n) == i
  {
    var s := p % n + i;
    Arith.ModOfReduced(p, n, i);
    Arith.DivModUnique(n, if s < n then 0 else 1, if s < n then s else s - n);
  }

  lemma CellAhead(p: nat, cell: nat, n: nat)
    requires 0 < n && cell < n
    ensures Ahead(p, cell, n) < n && Cell(p, Ahead(p, cell, n), n) == cell
  {
    var i := Ahead(p, cell, n);
    var s := p % n + i;
    Arith.ModOfReduced(p, n, i);
    Arith.DivModUnique(n, if s < n then 0 else 1, if s < n then s else s - n);
  }

  /** Positions below p, within n of it, come up again that much later. */
  lemma AheadOfOlder(p: nat, q: nat, n: nat)
    requires 0 < n && q < p <= q + n
    ensures Ahead(p, Cell(q, 0, n), n) == q + n - p
  {
    AheadOfCell(p, q + n - p, n);
    assert p + (q + n - p) == n * 1 + q;
    Arith.ModPlusMultiple(n, 1, q);
  }

  /** Distinct positions less than n apart have distinct cells. */
  lemma CellsDiffer(p: nat, q: nat, n: nat)
    requires p < q < p + n
    ensures Cell(p, 0, n) != Cell(q, 0, n)
  {
    Arith.ModDistinct(n, p, q);
  }

  /** The bytes between two counters. */
  function Unrolled(cells: seq<byte>, read: nat, write: nat): seq<byte>
    requires read <= write <= read + |cells|
  {
    seq(write - read, i requires 0 <= i < write - read => cells[Cell(read, i, |cells|)])
  }

  /** The cells after a wrapped copy of `source` to position `write`. */
  ghost predicate Copied(before: seq<byte>, after: seq<byte>, write: nat, source: seq<byte>)
    requires |before| == |after| && |source| <= |before|
  {
    forall s :: 0 <= s < |after| ==>
      after[s] == var d := Ahead(write, s, |after|); if d < |source| then source[d] else before[s]
  }

  /** A wrapped copy into free cells appends its source to the contents. */
  lemma CopyAppends(before: seq<byte>, after: seq<byte>, read: nat, write: nat, source: seq<byte>)
    requires read <= write && write + |source| <= read + |before| && |before| == |after|
    requires Copied(before, after, write, source)
    ensures Unrolled(after, read, write + |source|) == Unrolled(before, read, write) + source
  {
    var n := |before|;
    var all := Unrolled(after, read, write + |source|);
    forall i | 0 <= i < |all| ensures all[i] == (Unrolled(before, read, write) + source)[i] {
      if read + i < write {
        AheadOfOlder(write, read + i, n);
        assert Cell(read, i, n) == Cell(read + i, 0, n);
      } else {
        AheadOfCell(write, read + i - write, n);
        assert Cell(read, i, n) == Cell(write, read + i - write, n);
      }
    }
  }

  class SharedAudioRing {
    const capacity: nat
    const data: array<byte>
    var readOffset: nat
    var writeOffset: nat

    ghost predicate Valid()
      reads this
    {
      data.Length == capacity && readOffset <= writeOffset <= readOffset + capacity
    }

    /** What has been pushed and not yet drained. */
    ghost function Contents(): seq<byte>
      requires Valid()
      reads this, data
    {
      Unrolled(data[..], readOffset, writeOffset)
    }

    constructor (capacity: nat)
      ensures Valid() && this.capacity == capacity && Contents() == [] && fresh(data)
    {
      this.capacity := capacity;
      data := new byte[capacity](_ => 0);
      readOffset, writeOffset := 0, 0;
    }

    /** The two copies of a push: up to the end of the buffer, and the rest at its start. */
    method CopyIn(write: nat, source: seq<byte>)
      requires 0 < |source| <= data.Length
      modifies data
      ensures Copied(old(data[..]), data[..], write, source)
      ensures forall i :: 0 <= i < |source| ==> data[(write + i) % data.Length] == source[i]
    {
      var start := write % data.Length;
      var first := Min(|source|, data.Length - start);
      forall i | 0 <= i < first {
        data[start + i] := source[i];
      }
      if |source| > first {
        forall i | 0 <= i < |source| - first {
          data[i] := source[first + i];
        }
      }
      forall i | 0 <= i < |source| ensures data[(write + i) % data.Length] == source[i] {
        AheadOfCell(write, i, data.Length);
      }
    }

    /** The two copies of a drain. */
    method CopyOut(read: nat, available: nat) returns (bytes: seq<byte>)
      requires 0 < available <= data.Length
      ensures bytes == Unrolled(data[..], read, read + available)
      ensures |bytes| == available && forall i :: 0 <= i < available ==> bytes[i] == data[(read + i) % data.Length]
    {
      var start := read % data.Length;
      var first := Min(available, data.Length - start);
      bytes := data[start..start + first];
      if available > first {
        bytes := bytes + data[..available - first];
      }
      forall i | 0 <= i < available ensures bytes[i] == data[Cell(read, i, data.Length)] {
        AheadOfCell(read, i, data.Length);
      }
    }

    /** Copies as much of `source` as fits and says how much that was. */
    method PushAvailable(source: seq<byte>) returns (pushed: Result<nat, string>)
      requires data.Length == capacity && readOffset <= writeOffset
      modifies this`writeOffset, data
      ensures !old(Valid()) ==> pushed.Err? && data[..] == old(data[..]) && writeOffset == old(writeOffset)
      ensures old(Valid()) ==>
                && Valid()
                && pushed == Ok(Min(|source|, capacity - |old(Contents())|))
                && Contents() == old(Contents()) + source[..pushed.value]
    {
      var read, write := readOffset, writeOffset;
      if write - read > capacity {
        return Err("shared-memory ring overrun");
      }
      var available := capacity - (write - read);
      var toWrite := Min(|source|, available);
      if toWrite == 0 {
        assert source[..0] == [];
        return Ok(0);
      }
      CopyIn(write, source[..toWrite]);
      CopyAppends(old(data[..]), data[..], read, write, source[..toWrite]);
      writeOffset := write + toWrite;
      return Ok(toWrite);
    }

    /** Appends everything in the ring to `out`. */
    method DrainAvailable(out: seq<byte>) returns (drained: Result<seq<byte>, string>)
      requires data.Length == capacity
      modifies this`readOffset
      ensures writeOffset > old(readOffset) + capacity ==> drained.Err? && readOffset == old(readOffset)
      ensures writeOffset <= old(readOffset) ==> drained == Ok(out) && readOffset == old(readOffset)
      ensures old(Valid()) ==> Valid() && drained == Ok(out + old(Contents())) && Contents() == []
    {
      var read, write := readOffset, writeOffset;
      if SatSub(write, read) > capacity {
        return Err("shared-memory ring overrun");
      }
      if write <= read {
        assert out + [] == out;
        assert write == read ==> Unrolled(data[..], read, write) == [];
        return Ok(out);
      }
      var bytes := CopyOut(read, write - read);
      readOffset := write;
      return Ok(out + bytes);
    }
  }
}
