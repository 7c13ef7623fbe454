/** The decoder's key/value cache: a ring of steps inside a blocked tensor (rkwhisper/src/decoder.rs). */
module KvCache {
  import opened Wrappers
  import Arith

  /** A half-precision number by its bit pattern. */
  type Half = b: int | 0 <= b < 65536

  const ZERO: Half := 0x0000
  const ONE: Half := 0x3C00
  const NEG_INF: Half := 0xFBFF  // -65504

  // ------------------------------------------------------------------ layout

  /** An NC1HWC2 tensor: channels in blocks of eight, the last block padded. */
  datatype Layout = Layout(channels: nat, height: pos, width: pos)

  /** A logical element. */
  datatype Coord = Coord(channel: nat, row: nat, col: nat)

  function Blocks(n: Layout): nat { (n.channels + 7) / 8 }

  function Len(n: Layout): nat { Blocks(n) * n.height * n.width * 8 }

  function Index(n: Layout, c: Coord): nat {
    ((c.channel / 8 * n.height + c.row) * n.width + c.col) * 8 + c.channel % 8
  }

  function At(n: Layout, k: nat): Coord {
    var y := k / 8;
    var z := y / n.width;
    Coord(z / n.height * 8 + k % 8, z % n.height, y % n.width)
  }

  /** Inside the padded tensor. */
  predicate InTensor(n: Layout, c: Coord) {
    c.channel < Blocks(n) * 8 && c.row < n.height && c.col < n.width
  }

  lemma RowMajorFits(q: nat, r: nat, n: nat, m: nat)
    requires q < m && r < n
    ensures q * n + r < m * n
  {
    assert (m - q) * n == m * n - q * n;
    Arith.MulGrows(n, m - q);
  }

  lemma QuotientFits(x: nat, n: pos, m: nat)
    requires x < m * n
    ensures x / n < m
  {
  }

  /** Every logical element has a cell of its own, */
  lemma IndexFits(n: Layout, c: Coord)
    requires InTensor(n, c)
    ensures Index(n, c) < Len(n) && At(n, Index(n, c)) == c
  {
    var block := c.channel / 8;
    var z := block * n.height + c.row;
    var y := z * n.width + c.col;
    RowMajorFits(block, c.row, n.height, Blocks(n));
    RowMajorFits(z, c.col, n.width, Blocks(n) * n.height);
    Arith.DivModUnique(n.height, block, c.row);
    Arith.DivModUnique(n.width, z, c.col);
  }

  /** and every cell belongs to one. */
  lemma AtFits(n: Layout, k: nat)
    requires k < Len(n)
    ensures InTensor(n, At(n, k)) && Index(n, At(n, k)) == k
  {
    var y := k / 8;
    var z := y / n.width;
    QuotientFits(y, n.width, Blocks(n) * n.height);
    QuotientFits(z, n.height, Blocks(n));
    assert z / n.height * n.height + z % n.height == z;
    assert z * n.width + y % n.width == y;
  }

  /**
   The eight channels of a block lie side by side; then come the columns, the rows
   and the blocks, one after the other, as many as the channels need.
   */
  lemma LayoutIsBlocked(n: Layout, c: Coord)
    ensures Index(n, Coord(0, 0, 0)) == 0
    ensures c.channel % 8 < 7 ==> Index(n, c.(channel := c.channel + 1)) == Index(n, c) + 1
    ensures Index(n, c.(col := c.col + 1)) == Index(n, c) + 8
    ensures Index(n, c.(row := c.row + 1)) == Index(n, c) + 8 * n.width
    ensures Index(n, c.(channel := c.channel + 8)) == Index(n, c) + 8 * n.width * n.height
    ensures Len(n) == Index(n, Coord(8 * Blocks(n), 0, 0)) && 8 * Blocks(n) - 8 < n.channels <= 8 * Blocks(n)
  {
    var block, height, width := c.channel / 8, n.height, n.width;
    assert c.channel % 8 < 7 ==> (c.channel + 1) / 8 == block && (c.channel + 1) % 8 == c.channel % 8 + 1;
    assert (c.channel + 8) / 8 == block + 1 && (c.channel + 8) % 8 == c.channel % 8;
    assert (block * height + (c.row + 1)) * width == (block * height + c.row) * width + width;
    assert (block + 1) * height == block * height + height;
    assert ((block * height + c.row) + height) * width == (block * height + c.row) * width + height * width;
    assert 8 * (height * width) == 8 * width * height;
  }

  // ------------------------------------------------------- one step's write

  /** The number a step's vector, stored head by head, has for an element's head and dimension. */
  function Lane(n: Layout, present: seq<Half>, c: Coord): Half
    requires |present| == n.channels * n.width && c.channel < n.channels && c.col < n.width
  {
    RowMajorFits(c.channel, c.col, n.width, n.channels);
    present[c.channel * n.width + c.col]
  }

  /** A vector is the heads' vectors one after the other. */
  lemma LaneIsOfHead(n: Layout, before: seq<Half>, head: seq<Half>, after: seq<Half>, c: Coord)
    requires |before + head + after| == n.channels * n.width && c.channel < n.channels && c.col < n.width
    requires |before| == c.channel * n.width && |head| == n.width
    ensures Lane(n, before + head + after, c) == head[c.col]
  {
  }

  /** The cache with one step's vector of every head in its slot; padding lanes are left alone. */
  function Written(n: Layout, past: seq<Half>, present: seq<Half>, slot: nat): seq<Half>
    requires |past| == Len(n) && |present| == n.channels * n.width
  {
    seq(|past|, k requires 0 <= k < |past| =>
      var c := At(n, k);
      if c.row == slot && c.channel < n.channels then Lane(n, present, c) else past[k])
  }

  method WritePresentToCacheSlot(n: Layout, present: seq<Half>, past: array<Half>, slot: nat)
    requires past.Length == Len(n) && |present| == n.channels * n.width && slot < n.height
    modifies past
    ensures past[..] == Written(n, old(past[..]), present, slot)
  {
    ghost var before := past[..];
    ghost var target := Written(n, before, present, slot);
    for head := 0 to n.channels
      invariant forall k :: 0 <= k < past.Length ==>
                  past[k] == if At(n, k).channel < head then target[k] else before[k]
    {
      var block, lane := head / 8, head % 8;
      for dim := 0 to n.width
        invariant forall k :: 0 <= k < past.Length ==>
                    var c := At(n, k);
                    past[k] == if c.channel < head || (c.channel == head && c.col < dim) then target[k] else before[k]
      {
        var src := head * n.width + dim;
        var dst := ((block * n.height + slot) * n.width + dim) * 8 + lane;
        IndexFits(n, Coord(head, slot, dim));
        RowMajorFits(head, dim, n.width, n.channels);
        forall k | 0 <= k < past.Length && At(n, k) == Coord(head, slot, dim) ensures k == dst {
          AtFits(n, k);
        }
        past[dst] := present[src];
      }
      forall k | 0 <= k < past.Length ensures InTensor(n, At(n, k)) {
        AtFits(n, k);
      }
    }
    assert past[..] == target;
  }

  // ------------------------------------------------------------ whole runs

  function Zeros(n: nat): seq<Half> { seq(n, i => ZERO) }

  ghost predicate AllVectors(n: Layout, presents: seq<seq<Half>>) {
    forall i :: 0 <= i < |presents| ==> |presents[i]| == n.channels * n.width
  }

  /** One layer's cache after the given steps. */
  ghost function CacheAfter(n: Layout, presents: seq<seq<Half>>): (past: seq<Half>)
    requires AllVectors(n, presents)
    ensures |past| == Len(n)
  {
    var m := |presents| - 1;
    if m < 0 then Zeros(Len(n)) else Written(n, CacheAfter(n, presents[..m]), presents[m], m % n.height)
  }

  /** Step s is in the window after m steps. */
  ghost predicate InWindow(n: Layout, s: nat, m: nat) { m - n.height <= s < m }

  /**
   The cache is a sliding window over the steps: each of the last `height` steps
   is found in its slot, slots not yet used are zero, and so are padding lanes.
   */
  lemma {:induction false} CacheIsWindow(n: Layout, presents: seq<seq<Half>>, c: Coord)
    requires AllVectors(n, presents) && InTensor(n, c)
    ensures Index(n, c) < Len(n)
    ensures forall s: nat :: InWindow(n, s, |presents|) && s % n.height == c.row && c.channel < n.channels ==>
              CacheAfter(n, presents)[Index(n, c)] == Lane(n, presents[s], c)
    ensures c.row >= |presents| || c.channel >= n.channels ==> CacheAfter(n, presents)[Index(n, c)] == ZERO
  {
    IndexFits(n, c);
    var m := |presents| - 1;
    if m >= 0 {
      CacheIsWindow(n, presents[..m], c);
      forall s: nat | InWindow(n, s, |presents|) && s % n.height == c.row && c.channel < n.channels
        ensures CacheAfter(n, presents)[Index(n, c)] == Lane(n, presents[s], c)
      {
        if s < m {
          Arith.ModDistinct(n.height, s, m);
          assert InWindow(n, s, m);
        }
      }
      if c.row >= |presents| {
        SmallMod(m, n.height);
      }
    }
  }

  lemma SmallMod(m: nat, n: pos)
    requires m < n
    ensures m % n == m
  {
  }

  /** Every used slot holds exactly one step of the window. */
  lemma SlotHoldsOneStep(n: Layout, slot: nat, m: nat) returns (s: nat)
    requires slot < n.height && slot < m
    ensures InWindow(n, s, m) && s % n.height == slot
    ensures forall s': nat :: InWindow(n, s', m) && s' % n.height == slot ==> s' == s
  {
    var back := (m - 1 - slot) % n.height;
    var q := (m - 1 - slot) / n.height;
    s := m - 1 - back;
    assert s == n.height * q + slot;
    Arith.DivModUnique(n.height, q, slot);
    forall s': nat | InWindow(n, s', m) && s' % n.height == slot ensures s' == s {
      if s' < s {
        Arith.ModDistinct(n.height, s', s);
      } else if s < s' {
        Arith.ModDistinct(n.height, s, s');
      }
    }
  }

  // ------------------------------------------------------------------ masks

  datatype Masks = Masks(attention: seq<Half>, insert: seq<Half>, retain: seq<Half>)

  function Attention(t: pos, at: nat, i: nat): Half { if at >= t || i <= at then ZERO else NEG_INF }

  function Insert(t: pos, at: nat, i: nat): Half { if i == at % t then ONE else ZERO }

  function Retain(t: pos, at: nat, i: nat): Half { if i != at % t && (at >= t || i < at) then ONE else ZERO }

  method FillMasks(t: pos, at: nat, attention: array<Half>, insert: array<Half>, retain: array<Half>)
    requires attention.Length == insert.Length == retain.Length == t
    requires attention != insert && attention != retain && insert != retain
    modifies attention, insert, retain
    ensures forall i :: 0 <= i < t ==>
              attention[i] == Attention(t, at, i) && insert[i] == Insert(t, at, i) && retain[i] == Retain(t, at, i)
  {
    var writeSlot := at % t;
    for i := 0 to t
      invariant forall k :: 0 <= k < i ==>
        attention[k] == Attention(t, at, k) && insert[k] == Insert(t, at, k) && retain[k] == Retain(t, at, k)
    {
      attention[i] := if at >= t || i <= at then ZERO else NEG_INF;
      insert[i] := if i == writeSlot then ONE else ZERO;
      retain[i] := if i != writeSlot && (at >= t || i < at) then ONE else ZERO;
    }
  }

  /**
   While step `at` runs, a slot is retained exactly when it holds an earlier step
   that will still be in the window afterwards, inserted exactly when it is the
   step's own, and open to attention exactly when it is one or the other, never both.
   */
  lemma MasksFollowWindow(n: Layout, at: nat, i: nat)
    requires i < n.height
    ensures Retain(n.height, at, i) == ONE <==> exists s: nat :: s < at && InWindow(n, s, at + 1) && s % n.height == i
    ensures Insert(n.height, at, i) == ONE <==> at % n.height == i
    ensures Attention(n.height, at, i) == ZERO <==> (Retain(n.height, at, i) == ONE || Insert(n.height, at, i) == ONE)
    ensures !(Retain(n.height, at, i) == ONE && Insert(n.height, at, i) == ONE)
    ensures Attention(n.height, at, i) == ZERO <==> i < at + 1
    ensures Retain(n.height, at, i) in {0, 0x3C00} && Insert(n.height, at, i) in {0, 0x3C00}
    ensures Attention(n.height, at, i) in {0, 0xFBFF}
  {
    var t := n.height;
    if at < t {
      SmallMod(at, t);
    }
    if Retain(t, at, i) == ONE {
      var s := SlotHoldsOneStep(n, i, at + 1);
    }
    if s: nat :| s < at && InWindow(n, s, at + 1) && s % t == i {
      Arith.ModDistinct(t, s, at);
      if at < t {
        SmallMod(s, t);
      }
    }
  }

  // --------------------------------------------------------- encoder packing

  /** A flat index into the logical [channels, height, width] tensor. */
  function Flat(n: Layout, c: Coord): nat {
    (c.channel * n.height + c.row) * n.width + c.col
  }

  /** Columns lie side by side, then rows, then channels. */
  lemma FlatIsRowMajor(n: Layout, c: Coord)
    ensures Flat(n, Coord(0, 0, 0)) == 0
    ensures Flat(n, c.(col := c.col + 1)) == Flat(n, c) + 1
    ensures Flat(n, c.(row := c.row + 1)) == Flat(n, c) + n.width
    ensures Flat(n, c.(channel := c.channel + 1)) == Flat(n, c) + n.height * n.width
  {
    var z := c.channel * n.height + c.row;
    assert (c.channel + 1) * n.height == c.channel * n.height + n.height;
    assert (z + 1) * n.width == z * n.width + n.width;
    assert (z + n.height) * n.width == z * n.width + n.height * n.width;
  }

  function Logical(n: Layout, src: seq<Half>, c: Coord): Half
    requires |src| == n.channels * n.height * n.width && InTensor(n, c) && c.channel < n.channels
  {
    FlatFits(n, c);
    src[Flat(n, c)]
  }

  lemma FlatFits(n: Layout, c: Coord)
    requires InTensor(n, c) && c.channel < n.channels
    ensures Flat(n, c) < n.channels * n.height * n.width
  {
    RowMajorFits(c.channel, c.row, n.height, n.channels);
    RowMajorFits(c.channel * n.height + c.row, c.col, n.width, n.channels * n.height);
  }

  function Packed(n: Layout, src: seq<Half>): seq<Half>
    requires |src| == n.channels * n.height * n.width
  {
    seq(Len(n), k requires 0 <= k < Len(n) =>
      var c := At(n, k);
      AtFits(n, k);
      if c.channel < n.channels then Logical(n, src, c) else ZERO)
  }

  predicate Before(a: Coord, b: Coord) {
    || a.channel < b.channel
    || (a.channel == b.channel && (a.row < b.row || (a.row == b.row && a.col < b.col)))
  }

  method PackEncKv(n: Layout, src: seq<Half>, dst: array<Half>)
    requires |src| == n.channels * n.height * n.width && dst.Length == Len(n)
    modifies dst
    ensures dst[..] == Packed(n, src)
  {
    ghost var target := Packed(n, src);
    forall k | 0 <= k < dst.Length {
      dst[k] := ZERO;
    }
    forall k | 0 <= k < dst.Length ensures InTensor(n, At(n, k)) && Index(n, At(n, k)) == k {
      AtFits(n, k);
    }
    for s := 0 to n.channels
      invariant forall k :: 0 <= k < dst.Length ==> dst[k] == if Before(At(n, k), Coord(s, 0, 0)) then target[k] else ZERO
    {
      var block, lane := s / 8, s % 8;
      for head := 0 to n.height
        invariant forall k :: 0 <= k < dst.Length ==>
                    dst[k] == if Before(At(n, k), Coord(s, head, 0)) then target[k] else ZERO
      {
        for dim := 0 to n.width
          invariant forall k :: 0 <= k < dst.Length ==>
                      dst[k] == if Before(At(n, k), Coord(s, head, dim)) then target[k] else ZERO
        {
          var at := Coord(s, head, dim);
          var srcIdx := (s * n.height + head) * n.width + dim;
          var dstIdx := ((block * n.height + head) * n.width + dim) * 8 + lane;
          IndexFits(n, at);
          FlatFits(n, at);
          dst[dstIdx] := src[srcIdx];
        }
      }
    }
    assert dst[..] == target;
  }

  /** Packing puts every element in its cell and loses nothing: the source can be read back. */
  lemma PackingRoundTrips(n: Layout, src: seq<Half>, c: Coord)
    requires |src| == n.channels * n.height * n.width && InTensor(n, c)
    ensures Index(n, c) < Len(n)
    ensures c.channel < n.channels ==> Flat(n, c) < |src|
    ensures Packed(n, src)[Index(n, c)] == if c.channel < n.channels then src[Flat(n, c)] else ZERO
  {
    IndexFits(n, c);
    if c.channel < n.channels {
      FlatFits(n, c);
    }
  }

  // ------------------------------------------------------------------ state

  class WhisperDecoderState {
    const layout: Layout
    const pastK: seq<array<Half>>
    const pastV: seq<array<Half>>
    var at: nat

    ghost predicate Valid() {
      && |pastK| == |pastV|
      && (forall l :: 0 <= l < |pastK| ==> pastK[l].Length == Len(layout) && pastV[l].Length == Len(layout))
      && (forall l, m :: 0 <= l < |pastK| && 0 <= m < |pastK| ==>
            && pastK[l] != pastV[m]
            && (l != m ==> pastK[l] != pastK[m] && pastV[l] != pastV[m]))
    }

    /** Layer l holds the window over these steps' keys and values. */
    ghost predicate Holds(l: nat, keys: seq<seq<Half>>, values: seq<seq<Half>>)
      requires Valid() && l < |pastK|
      reads pastK[l], pastV[l]
    {
      && AllVectors(layout, keys) && AllVectors(layout, values)
      && pastK[l][..] == CacheAfter(layout, keys)
      && pastV[l][..] == CacheAfter(layout, values)
    }

    constructor (layout: Layout, layers: nat)
      ensures Valid() && this.layout == layout && |pastK| == layers && at == 0
      ensures forall l :: 0 <= l < layers ==> fresh(pastK[l]) && fresh(pastV[l]) && Holds(l, [], [])
    {
      var ks: seq<array<Half>>, vs: seq<array<Half>> := [], [];
      for l := 0 to layers
        invariant |ks| == |vs| == l
        invariant forall m :: 0 <= m < l ==> fresh(ks[m]) && fresh(vs[m])
        invariant forall m :: 0 <= m < l ==> ks[m].Length == Len(layout) && vs[m].Length == Len(layout)
        invariant forall m :: 0 <= m < l ==> ks[m][..] == Zeros(Len(layout)) && vs[m][..] == Zeros(Len(layout))
        invariant forall m, o :: 0 <= m < l && 0 <= o < l ==> ks[m] != vs[o] && (m != o ==> ks[m] != ks[o] && vs[m] != vs[o])
      {
        var k := new Half[Len(layout)](_ => ZERO);
        var v := new Half[Len(layout)](_ => ZERO);
        assert k[..] == Zeros(Len(layout)) && v[..] == Zeros(Len(layout));
        ks, vs := ks + [k], vs + [v];
      }
      this.layout := layout;
      pastK, pastV, at := ks, vs, 0;
    }

    method Reset()
      requires Valid()
      modifies this`at, pastK, pastV
      ensures at == 0
      ensures forall l :: 0 <= l < |pastK| ==> Holds(l, [], [])
    {
      for l := 0 to |pastK|
        invariant forall m :: 0 <= m < l ==> pastK[m][..] == Zeros(Len(layout)) && pastV[m][..] == Zeros(Len(layout))
      {
        var k, v := pastK[l], pastV[l];
        forall i | 0 <= i < k.Length {
          k[i] := ZERO;
        }
        forall i | 0 <= i < v.Length {
          v[i] := ZERO;
        }
        assert k[..] == Zeros(Len(layout)) && v[..] == Zeros(Len(layout));
      }
      at := 0;
    }

    /** The cache update of one decoder step, given what the network returned for every layer. */
    method Advance(presentK: seq<seq<Half>>, presentV: seq<seq<Half>>)
      requires Valid() && |presentK| == |presentV| == |pastK|
      requires AllVectors(layout, presentK) && AllVectors(layout, presentV)
      modifies this`at, pastK, pastV
      ensures at == old(at) + 1
      ensures forall l :: 0 <= l < |pastK| ==>
                && pastK[l][..] == Written(layout, old(pastK[l][..]), presentK[l], old(at) % layout.height)
                && pastV[l][..] == Written(layout, old(pastV[l][..]), presentV[l], old(at) % layout.height)
      ensures forall l, keys, values :: 0 <= l < |pastK| && old(Holds(l, keys, values)) && |keys| == |values| == old(at) ==>
                Holds(l, keys + [presentK[l]], values + [presentV[l]])
    {
      var writeSlot := at % layout.height;
      for l := 0 to |pastK|
        invariant at == old(at)
        invariant forall m :: 0 <= m < l ==>
                    && pastK[m][..] == Written(layout, old(pastK[m][..]), presentK[m], writeSlot)
                    && pastV[m][..] == Written(layout, old(pastV[m][..]), presentV[m], writeSlot)
        invariant forall m :: l <= m < |pastK| ==>
                    pastK[m][..] == old(pastK[m][..]) && pastV[m][..] == old(pastV[m][..])
      {
        WritePresentToCacheSlot(layout, presentK[l], pastK[l], writeSlot);
        WritePresentToCacheSlot(layout, presentV[l], pastV[l], writeSlot);
      }
      at := at + 1;
      forall l, keys: seq<seq<Half>>, values: seq<seq<Half>> |
        0 <= l < |pastK| && old(Holds(l, keys, values)) && |keys| == |values| == old(at)
        ensures Holds(l, keys + [presentK[l]], values + [presentV[l]])
      {
        assert (keys + [presentK[l]])[..|keys|] == keys;
        assert (values + [presentV[l]])[..|values|] == values;
      }
    }
  }
}
