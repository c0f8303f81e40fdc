/**
  The packed attention layout: HF keeps the query, key and value projections apart, NeMo interleaves
  their heads group by group.  A tensor is the sequence of its slices along the first dimension.
*/
module QkvLayout {
  import opened Arithmetic
  import opened Sequences

  /** `view`/`reshape` of the first dimension into `n` heads of `size` slices each. */
  function Heads<T>(rows: seq<T>, n: nat, size: nat): (heads: seq<seq<T>>)
    requires |rows| == n * size
    ensures |heads| == n && Uniform(heads, size)
    decreases n
  {
    if n == 0 then []
    else
      Distribute(n - 1, 1, size);
      Monotone(0, n - 1, size);
      Heads(rows[..(n - 1) * size], n - 1, size) + [rows[(n - 1) * size..]]
  }

  predicate Uniform<T>(heads: seq<seq<T>>, size: nat) {
    forall i :: 0 <= i < |heads| ==> |heads[i]| == size
  }

  lemma {:induction false} FlatOfHeads<T>(rows: seq<T>, n: nat, size: nat)
    requires |rows| == n * size
    ensures Flatten(Heads(rows, n, size)) == rows
    decreases n
  {
    if n > 0 {
      Distribute(n - 1, 1, size);
      Monotone(0, n - 1, size);
      FlatOfHeads(rows[..(n - 1) * size], n - 1, size);
      var heads := Heads(rows, n, size);
      assert heads[..n - 1] == Heads(rows[..(n - 1) * size], n - 1, size);
    }
  }

  lemma {:induction false} HeadsOfFlat<T>(heads: seq<seq<T>>, size: nat)
    requires Uniform(heads, size)
    ensures |Flatten(heads)| == |heads| * size
    ensures Heads(Flatten(heads), |heads|, size) == heads
  {
    var n := |heads|;
    if n > 0 {
      Distribute(n - 1, 1, size);
      var init := heads[..n - 1];
      HeadsOfFlat(init, size);
      var rows := Flatten(heads);
      assert rows[..(n - 1) * size] == Flatten(init);
      assert rows[(n - 1) * size..] == heads[n - 1];
    }
  }

  lemma {:induction false} FlatAt<T>(heads: seq<seq<T>>, size: nat, i: nat, j: nat)
    requires Uniform(heads, size) && i < |heads| && j < size
    ensures |Flatten(heads)| == |heads| * size
    ensures At(i, size, j) < |Flatten(heads)| && Flatten(heads)[At(i, size, j)] == heads[i][j]
  {
    var n := |heads| - 1;
    var init := heads[..n];
    HeadsOfFlat(heads, size);
    HeadsOfFlat(init, size);
    AtBound(i, |heads|, size, j);
    if i < n {
      FlatAt(init, size, i, j);
    }
  }

  // ---------------------------------------------------------------------------
  // HF to NeMo: interleave
  // ---------------------------------------------------------------------------

  /** Group `i` of the packed heads: its query heads, its key head, its value head. */
  function Group<H>(q: seq<H>, k: seq<H>, v: seq<H>, per: nat, i: nat): (g: seq<H>)
    requires |q| == |k| * per && |v| == |k| && i < |k|
    ensures |g| == per + 2
  {
    GroupBound(i, |k|, per);
    q[i * per..(i + 1) * per] + k[i..i + 1] + v[i..i + 1]
  }

  lemma GroupBound(i: nat, groups: nat, per: nat)
    requires i < groups
    ensures 0 <= i * per <= (i + 1) * per == i * per + per <= groups * per
  {
    Distribute(i, 1, per);
    Monotone(0, i, per);
    Monotone(i + 1, groups, per);
  }

  function Groups<H>(q: seq<H>, k: seq<H>, v: seq<H>, per: nat, n: nat): (gs: seq<seq<H>>)
    requires |q| == |k| * per && |v| == |k| && n <= |k|
    ensures |gs| == n && Uniform(gs, per + 2)
    ensures forall i :: 0 <= i < n ==> gs[i] == Group(q, k, v, per, i)
  {
    if n == 0 then [] else Groups(q, k, v, per, n - 1) + [Group(q, k, v, per, n - 1)]
  }

  /** The interleaving loop of the converters, on heads. */
  method Interleave<H>(q: seq<H>, k: seq<H>, v: seq<H>, groups: nat) returns (packed: seq<H>)
    requires 0 < groups && |q| % groups == 0 && |k| == |v| == groups
    ensures |q| == groups * (|q| / groups)
    ensures packed == Flatten(Groups(q, k, v, |q| / groups, groups))
  {
    var per := |q| / groups;
    packed := [];
    for i := 0 to groups
      invariant packed == Flatten(Groups(q, k, v, per, i))
    {
      GroupBound(i, groups, per);
      packed := packed + q[i * per..(i + 1) * per];
      packed := packed + k[i..i + 1];
      packed := packed + v[i..i + 1];
      var gs := Groups(q, k, v, per, i + 1);
      assert gs[..i] == Groups(q, k, v, per, i);
      assert packed == Flatten(gs[..i]) + gs[i];
    }
  }

  // ---------------------------------------------------------------------------
  // NeMo to HF: pick the heads by index
  // ---------------------------------------------------------------------------

  /** `torch.arange`. */
  function Arange(start: nat, end: nat, step: nat): seq<nat>
    requires 0 < step
    decreases end - start
  {
    if start >= end then [] else [start] + Arange(start + step, end, step)
  }

  function QSlice(per: nat, groups: nat): seq<nat> {
    if groups == 0 then []
    else
      var first := At(groups - 1, per + 2, 0);
      QSlice(per, groups - 1) + Arange(first, first + per, 1)
  }

  function KSlice(per: nat, total: nat): seq<nat> {
    Arange(per, total, per + 2)
  }

  function VSlice(per: nat, total: nat): seq<nat> {
    Arange(per + 1, total, per + 2)
  }

  /** Indexing a tensor with a list of indices. */
  function Select<H>(heads: seq<H>, indices: seq<nat>): (r: seq<H>)
    requires forall j :: 0 <= j < |indices| ==> indices[j] < |heads|
    ensures |r| == |indices|
    ensures forall j :: 0 <= j < |r| ==> r[j] == heads[indices[j]]
  {
    seq(|indices|, j requires 0 <= j < |indices| => heads[indices[j]])
  }

  lemma {:induction false} ArangeUnit(start: nat, n: nat)
    ensures var r := Arange(start, start + n, 1);
      |r| == n && forall j :: 0 <= j < n ==> r[j] == start + j
    decreases n
  {
    if n > 0 {
      ArangeUnit(start + 1, n - 1);
    }
  }

  /** `arange(offset + w*i, w*n, w)` for an offset below `w`: one index in each of the remaining rows. */
  lemma {:induction false} ArangeRows(i: nat, n: nat, width: nat, offset: nat)
    requires i <= n && offset < width
    ensures var r := Arange(At(i, width, offset), n * width, width);
      |r| == n - i && forall j :: 0 <= j < n - i ==> r[j] == At(i + j, width, offset)
    decreases n - i
  {
    if i < n {
      AtBound(i, n, width, offset);
      Distribute(i, 1, width);
      ArangeRows(i + 1, n, width, offset);
    } else {
      assert At(n, width, offset) >= n * width;
    }
  }

  lemma {:induction false} QSliceAt(per: nat, groups: nat)
    ensures |QSlice(per, groups)| == groups * per
    ensures forall i, j :: 0 <= i < groups && 0 <= j < per ==>
      At(i, per, j) < groups * per && QSlice(per, groups)[At(i, per, j)] == At(i, per + 2, j)
  {
    if groups > 0 {
      var g := groups - 1;
      QSliceAt(per, g);
      ArangeUnit(At(g, per + 2, 0), per);
      Distribute(g, 1, per);
      forall i, j | 0 <= i < groups && 0 <= j < per
        ensures At(i, per, j) < groups * per && QSlice(per, groups)[At(i, per, j)] == At(i, per + 2, j)
      {
        AtBound(i, groups, per, j);
        if i < g {
          AtBound(i, g, per, j);
        }
      }
    }
  }

  lemma SlicesAt(per: nat, groups: nat)
    ensures var total := groups * (per + 2);
      && |KSlice(per, total)| == groups == |VSlice(per, total)|
      && (forall i :: 0 <= i < groups ==> KSlice(per, total)[i] == At(i, per + 2, per) < total)
      && (forall i :: 0 <= i < groups ==> VSlice(per, total)[i] == At(i, per + 2, per + 1) < total)
  {
    var width := per + 2;
    var offset := per + 1;
    ArangeRows(0, groups, width, per);
    ArangeRows(0, groups, width, offset);
    forall i | 0 <= i < groups
      ensures At(i, width, per) < At(i, width, offset) < groups * width
    {
      AtBound(i, groups, width, offset);
    }
  }

  /** The q slice, entry by entry. */
  lemma QSliceEntry(per: nat, groups: nat, p: nat) returns (i: nat, j: nat)
    requires p < |QSlice(per, groups)|
    ensures i < groups && j < per && p == At(i, per, j)
    ensures |QSlice(per, groups)| == groups * per
    ensures QSlice(per, groups)[p] == At(i, per + 2, j) < groups * (per + 2)
  {
    QSliceAt(per, groups);
    i, j := AtOnto(p, groups, per);
    AtBound(i, groups, per + 2, j);
  }

  lemma SlicesInRange(per: nat, groups: nat)
    ensures var total := groups * (per + 2);
      && (forall p :: 0 <= p < |QSlice(per, groups)| ==> QSlice(per, groups)[p] < total)
      && (forall p :: 0 <= p < |KSlice(per, total)| ==> KSlice(per, total)[p] < total)
      && (forall p :: 0 <= p < |VSlice(per, total)| ==> VSlice(per, total)[p] < total)
  {
    SlicesAt(per, groups);
    forall p | 0 <= p < |QSlice(per, groups)|
      ensures QSlice(per, groups)[p] < groups * (per + 2)
    {
      var i, j := QSliceEntry(per, groups, p);
    }
  }

  /**
    The three slices together list every packed head exactly once: as many indices as heads, and every
    head in exactly one of them.
  */
  lemma SlicesPartition(per: nat, groups: nat, p: nat)
    requires p < groups * (per + 2)
    ensures var total := groups * (per + 2);
      && |QSlice(per, groups)| == groups * per
      && |KSlice(per, total)| == groups == |VSlice(per, total)|
      && |QSlice(per, groups)| + |KSlice(per, total)| + |VSlice(per, total)| == total
      && (p in QSlice(per, groups) || p in KSlice(per, total) || p in VSlice(per, total))
      && !(p in QSlice(per, groups) && p in KSlice(per, total))
      && !(p in QSlice(per, groups) && p in VSlice(per, total))
      && !(p in KSlice(per, total) && p in VSlice(per, total))
  {
    var total := groups * (per + 2);
    QSliceAt(per, groups);
    SlicesAt(per, groups);
    var i, j := AtOnto(p, groups, per + 2);
    if j < per {
      assert QSlice(per, groups)[At(i, per, j)] == p;
    } else if j == per {
      assert KSlice(per, total)[i] == p;
    } else {
      assert VSlice(per, total)[i] == p;
    }
    assert p in QSlice(per, groups) ==> j < per by {
      if p in QSlice(per, groups) {
        var x :| 0 <= x < |QSlice(per, groups)| && QSlice(per, groups)[x] == p;
        var i', j' := QSliceEntry(per, groups, x);
        AtInjective(i, j, i', j', per + 2);
      }
    }
    assert p in KSlice(per, total) ==> j == per by {
      if p in KSlice(per, total) {
        var x :| 0 <= x < groups && KSlice(per, total)[x] == p;
        AtInjective(i, j, x, per, per + 2);
      }
    }
    assert p in VSlice(per, total) ==> j == per + 1 by {
      if p in VSlice(per, total) {
        var x :| 0 <= x < groups && VSlice(per, total)[x] == p;
        AtInjective(i, j, x, per + 1, per + 2);
      }
    }
  }

  // ---------------------------------------------------------------------------
  // Round trips on heads
  // ---------------------------------------------------------------------------

  function Packed<H>(q: seq<H>, k: seq<H>, v: seq<H>, per: nat): seq<H>
    requires |q| == |k| * per && |v| == |k|
  {
    Flatten(Groups(q, k, v, per, |k|))
  }

  lemma PackedAt<H>(q: seq<H>, k: seq<H>, v: seq<H>, per: nat, i: nat, j: nat)
    requires |q| == |k| * per && |v| == |k| && i < |k| && j < per + 2
    ensures var packed := Packed(q, k, v, per);
      && |packed| == |k| * (per + 2)
      && At(i, per + 2, j) < |packed|
      && (j < per ==> At(i, per, j) < |q|)
      && packed[At(i, per + 2, j)] == if j < per then q[At(i, per, j)] else if j == per then k[i] else v[i]
  {
    FlatAt(Groups(q, k, v, per, |k|), per + 2, i, j);
    GroupBound(i, |k|, per);
    if j < per {
      AtBound(i, |k|, per, j);
    }
  }

  function UnpackedQ<H>(packed: seq<H>, per: nat, groups: nat): (r: seq<H>)
    requires |packed| == groups * (per + 2)
    ensures |r| == groups * per && forall x :: x in r ==> x in packed
  {
    SlicesInRange(per, groups);
    QSliceAt(per, groups);
    Select(packed, QSlice(per, groups))
  }

  function UnpackedK<H>(packed: seq<H>, per: nat, groups: nat): (r: seq<H>)
    requires |packed| == groups * (per + 2)
    ensures |r| == groups && forall x :: x in r ==> x in packed
  {
    SlicesInRange(per, groups);
    SlicesAt(per, groups);
    Select(packed, KSlice(per, |packed|))
  }

  function UnpackedV<H>(packed: seq<H>, per: nat, groups: nat): (r: seq<H>)
    requires |packed| == groups * (per + 2)
    ensures |r| == groups && forall x :: x in r ==> x in packed
  {
    SlicesInRange(per, groups);
    SlicesAt(per, groups);
    Select(packed, VSlice(per, |packed|))
  }

  lemma UnpackPacked<H>(q: seq<H>, k: seq<H>, v: seq<H>, per: nat)
    requires |q| == |k| * per && |v| == |k|
    ensures var packed := Packed(q, k, v, per);
      && |packed| == |k| * (per + 2)
      && UnpackedQ(packed, per, |k|) == q && UnpackedK(packed, per, |k|) == k && UnpackedV(packed, per, |k|) == v
  {
    var groups := |k|;
    var packed := Packed(q, k, v, per);
    HeadsOfFlat(Groups(q, k, v, per, groups), per + 2);
    QSliceAt(per, groups);
    SlicesAt(per, groups);
    var uq, uk, uv := UnpackedQ(packed, per, groups), UnpackedK(packed, per, groups), UnpackedV(packed, per, groups);
    forall p | 0 <= p < groups * per
      ensures uq[p] == q[p]
    {
      var i, j := QSliceEntry(per, groups, p);
      PackedAt(q, k, v, per, i, j);
    }
    forall i | 0 <= i < groups
      ensures uk[i] == k[i] && uv[i] == v[i]
    {
      PackedAt(q, k, v, per, i, per);
      PackedAt(q, k, v, per, i, per + 1);
    }
    assert uq == q && uk == k && uv == v;
  }

  lemma PackUnpacked<H>(packed: seq<H>, per: nat, groups: nat)
    requires |packed| == groups * (per + 2)
    ensures Packed(UnpackedQ(packed, per, groups), UnpackedK(packed, per, groups), UnpackedV(packed, per, groups), per) == packed
  {
    var (q, k, v) := (UnpackedQ(packed, per, groups), UnpackedK(packed, per, groups), UnpackedV(packed, per, groups));
    QSliceAt(per, groups);
    SlicesAt(per, groups);
    HeadsOfFlat(Groups(q, k, v, per, groups), per + 2);
    forall p | 0 <= p < |packed|
      ensures Packed(q, k, v, per)[p] == packed[p]
    {
      var i, j := AtOnto(p, groups, per + 2);
      PackedAt(q, k, v, per, i, j);
      if j < per {
        AtBound(i, groups, per, j);
      }
    }
    assert Packed(q, k, v, per) == packed;
  }

  // ---------------------------------------------------------------------------
  // Round trips on tensors
  // ---------------------------------------------------------------------------

  /** Attention shape: `groups` divides the number of heads. */
  datatype Shape = Shape(groups: nat, per: nat, size: nat) {
    function HeadNum(): nat { groups * per }
    function Total(): nat { groups * (per + 2) }
  }

  /** Slice counts of the three projections. */
  predicate Fits<T>(q: seq<T>, k: seq<T>, v: seq<T>, s: Shape) {
    && |q| == s.HeadNum() * s.size
    && |k| == s.groups * s.size
    && |v| == s.groups * s.size
  }

  function PackTensor<T>(q: seq<T>, k: seq<T>, v: seq<T>, s: Shape): seq<T>
    requires Fits(q, k, v, s)
  {
    Flatten(Packed(Heads(q, s.HeadNum(), s.size), Heads(k, s.groups, s.size), Heads(v, s.groups, s.size), s.per))
  }

  /** The converter's code: view, interleave, reshape. */
  method PackQkv<T>(q: seq<T>, k: seq<T>, v: seq<T>, s: Shape) returns (packed: seq<T>)
    requires 0 < s.groups && Fits(q, k, v, s)
    ensures packed == PackTensor(q, k, v, s)
  {
    QuotientOfProduct(s.groups, s.per);
    var heads := Interleave(Heads(q, s.HeadNum(), s.size), Heads(k, s.groups, s.size), Heads(v, s.groups, s.size), s.groups);
    packed := Flatten(heads);
  }

  /** Row `r` of packed head `j` of group `g`: it comes from a query head of the group, from its key or from its value. */
  ghost predicate RowFrom<T>(packed: seq<T>, q: seq<T>, k: seq<T>, v: seq<T>, s: Shape, g: nat, j: nat, r: nat) {
    var row := At(At(g, s.per + 2, j), s.size, r);
    row < |packed| &&
    if j < s.per then At(At(g, s.per, j), s.size, r) < |q| && packed[row] == q[At(At(g, s.per, j), s.size, r)]
    else if j == s.per then At(g, s.size, r) < |k| && packed[row] == k[At(g, s.size, r)]
    else At(g, s.size, r) < |v| && packed[row] == v[At(g, s.size, r)]
  }

  /** The packed layout, row by row: every group holds its query heads in order, then its key, then its value. */
  ghost predicate Interleaved<T>(packed: seq<T>, q: seq<T>, k: seq<T>, v: seq<T>, s: Shape) {
    && |packed| == s.Total() * s.size && Fits(q, k, v, s)
    && forall g: nat, j: nat, r: nat :: g < s.groups && j < s.per + 2 && r < s.size ==> RowFrom(packed, q, k, v, s, g, j, r)
  }

  lemma HeadRow<T>(rows: seq<T>, n: nat, size: nat, h: nat, r: nat)
    requires |rows| == n * size && h < n && r < size
    ensures At(h, size, r) < |rows| && Heads(rows, n, size)[h][r] == rows[At(h, size, r)]
  {
    FlatOfHeads(rows, n, size);
    FlatAt(Heads(rows, n, size), size, h, r);
  }

  lemma PackedRow<T>(q: seq<T>, k: seq<T>, v: seq<T>, s: Shape, g: nat, j: nat, r: nat)
    requires Fits(q, k, v, s) && g < s.groups && j < s.per + 2 && r < s.size
    ensures RowFrom(PackTensor(q, k, v, s), q, k, v, s, g, j, r)
  {
    var hq, hk, hv := Heads(q, s.HeadNum(), s.size), Heads(k, s.groups, s.size), Heads(v, s.groups, s.size);
    var packed := Packed(hq, hk, hv, s.per);
    PackedUniform(hq, hk, hv, s.per, s.size);
    PackedAt(hq, hk, hv, s.per, g, j);
    FlatAt(packed, s.size, At(g, s.per + 2, j), r);
    if j < s.per {
      HeadRow(q, s.HeadNum(), s.size, At(g, s.per, j), r);
    } else {
      HeadRow(k, s.groups, s.size, g, r);
      HeadRow(v, s.groups, s.size, g, r);
    }
  }

  /** Packing gives that layout, and nothing else has it. */
  lemma PackInterleavesIff<T>(packed: seq<T>, q: seq<T>, k: seq<T>, v: seq<T>, s: Shape)
    requires Fits(q, k, v, s)
    ensures packed == PackTensor(q, k, v, s) <==> Interleaved(packed, q, k, v, s)
  {
    var p := PackTensor(q, k, v, s);
    UnpackPackTensor(q, k, v, s);
    forall g: nat, j: nat, r: nat | g < s.groups && j < s.per + 2 && r < s.size
      ensures RowFrom(p, q, k, v, s, g, j, r)
    {
      PackedRow(q, k, v, s, g, j, r);
    }
    if Interleaved(packed, q, k, v, s) {
      forall row | 0 <= row < |p|
        ensures packed[row] == p[row]
      {
        var head, r := AtOnto(row, s.Total(), s.size);
        var g, j := AtOnto(head, s.groups, s.per + 2);
        assert RowFrom(p, q, k, v, s, g, j, r) && RowFrom(packed, q, k, v, s, g, j, r);
      }
    }
  }

  /** Unpacking takes that layout apart. */
  lemma UnpackDeinterleaves<T>(packed: seq<T>, s: Shape)
    requires |packed| == s.Total() * s.size
    ensures var r := UnpackTensor(packed, s); Interleaved(packed, r.q, r.k, r.v, s)
  {
    PackUnpackTensor(packed, s);
    var r := UnpackTensor(packed, s);
    PackInterleavesIff(packed, r.q, r.k, r.v, s);
  }

  lemma QuotientOfProduct(groups: nat, per: nat)
    requires 0 < groups
    ensures (groups * per) % groups == 0 && (groups * per) / groups == per
  {
    var x := groups * per;
    assert x == groups * (x / groups) + x % groups;
    assert groups * (per - x / groups) == x % groups by {
      assert groups * (per - x / groups) == groups * per - groups * (x / groups);
    }
    if per > x / groups {
      Monotone(1, per - x / groups, groups);
    }
  }

  datatype Qkv<T> = Qkv(q: seq<T>, k: seq<T>, v: seq<T>)

  /** The inverse direction: reshape, index, reshape. */
  function UnpackTensor<T>(packed: seq<T>, s: Shape): Qkv<T>
    requires |packed| == s.Total() * s.size
  {
    var heads := Heads(packed, s.Total(), s.size);
    Qkv(Flatten(UnpackedQ(heads, s.per, s.groups)), Flatten(UnpackedK(heads, s.per, s.groups)), Flatten(UnpackedV(heads, s.per, s.groups)))
  }

  lemma PackedUniform<T>(q: seq<seq<T>>, k: seq<seq<T>>, v: seq<seq<T>>, per: nat, size: nat)
    requires |q| == |k| * per && |v| == |k|
    requires Uniform(q, size) && Uniform(k, size) && Uniform(v, size)
    ensures |Packed(q, k, v, per)| == |k| * (per + 2) && Uniform(Packed(q, k, v, per), size)
  {
    var packed := Packed(q, k, v, per);
    HeadsOfFlat(Groups(q, k, v, per, |k|), per + 2);
    forall p | 0 <= p < |packed|
      ensures |packed[p]| == size
    {
      var i, j := AtOnto(p, |k|, per + 2);
      PackedAt(q, k, v, per, i, j);
    }
  }

  /** HF to NeMo to HF: the three projections come back. */
  lemma UnpackPackTensor<T>(q: seq<T>, k: seq<T>, v: seq<T>, s: Shape)
    requires Fits(q, k, v, s)
    ensures |PackTensor(q, k, v, s)| == s.Total() * s.size
    ensures UnpackTensor(PackTensor(q, k, v, s), s) == Qkv(q, k, v)
  {
    var (hq, hk, hv) := (Heads(q, s.HeadNum(), s.size), Heads(k, s.groups, s.size), Heads(v, s.groups, s.size));
    var packed := Packed(hq, hk, hv, s.per);
    PackedUniform(hq, hk, hv, s.per, s.size);
    HeadsOfFlat(packed, s.size);
    UnpackPacked(hq, hk, hv, s.per);
    FlatOfHeads(q, s.HeadNum(), s.size);
    FlatOfHeads(k, s.groups, s.size);
    FlatOfHeads(v, s.groups, s.size);
  }

  lemma PackFlattened<T>(q: seq<seq<T>>, k: seq<seq<T>>, v: seq<seq<T>>, s: Shape)
    requires |q| == s.HeadNum() && |k| == |v| == s.groups
    requires Uniform(q, s.size) && Uniform(k, s.size) && Uniform(v, s.size)
    ensures Fits(Flatten(q), Flatten(k), Flatten(v), s)
    ensures PackTensor(Flatten(q), Flatten(k), Flatten(v), s) == Flatten(Packed(q, k, v, s.per))
  {
    HeadsOfFlat(q, s.size);
    HeadsOfFlat(k, s.size);
    HeadsOfFlat(v, s.size);
  }

  /** NeMo to HF to NeMo: the packed tensor comes back. */
  lemma PackUnpackTensor<T>(packed: seq<T>, s: Shape)
    requires |packed| == s.Total() * s.size
    ensures var r := UnpackTensor(packed, s);
      Fits(r.q, r.k, r.v, s) && PackTensor(r.q, r.k, r.v, s) == packed
  {
    var heads := Heads(packed, s.Total(), s.size);
    assert forall h :: h in heads ==> |h| == s.size;
    PackUnpacked(heads, s.per, s.groups);
    PackFlattened(UnpackedQ(heads, s.per, s.groups), UnpackedK(heads, s.per, s.groups), UnpackedV(heads, s.per, s.groups), s);
    FlatOfHeads(packed, s.Total(), s.size);
  }
}
