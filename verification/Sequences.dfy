/** Lists of lists laid end to end. */
module Sequences {

  function Flatten<T>(xss: seq<seq<T>>): seq<T> {
    if xss == [] then [] else Flatten(xss[..|xss| - 1]) + xss[|xss| - 1]
  }

  /** Where list `k` begins in the flattened list; `Offset(xss, |xss|)` is the end of it. */
  function Offset<T>(xss: seq<seq<T>>, k: nat): nat
    requires k <= |xss|
  {
    if k == 0 then 0 else Offset(xss, k - 1) + |xss[k - 1]|
  }

  lemma {:induction false} OffsetOfPrefix<T>(xss: seq<seq<T>>, n: nat, k: nat)
    requires k <= n <= |xss|
    ensures Offset(xss[..n], k) == Offset(xss, k)
  {
    if k > 0 {
      OffsetOfPrefix(xss, n, k - 1);
    }
  }

  lemma {:induction false} FlattenLength<T>(xss: seq<seq<T>>)
    ensures |Flatten(xss)| == Offset(xss, |xss|)
  {
    if xss != [] {
      FlattenLength(xss[..|xss| - 1]);
      OffsetOfPrefix(xss, |xss| - 1, |xss| - 1);
    }
  }

  lemma SliceOfLonger<T>(xs: seq<T>, ys: seq<T>, a: nat, b: nat)
    requires a <= b <= |xs|
    ensures (xs + ys)[a..b] == xs[a..b]
    ensures (xs + ys)[|xs|..|xs + ys|] == ys
  {
  }

  lemma {:induction false} OffsetsGrow<T>(xss: seq<seq<T>>, k: nat, n: nat)
    requires k <= n <= |xss|
    ensures Offset(xss, k) <= Offset(xss, n)
  {
    if k < n {
      OffsetsGrow(xss, k, n - 1);
    }
  }

  /** The stretch between two neighbouring offsets is the list it came from. */
  lemma {:induction false} FlattenAt<T>(xss: seq<seq<T>>, k: nat)
    requires k < |xss|
    ensures Offset(xss, k + 1) <= |Flatten(xss)|
    ensures Flatten(xss)[Offset(xss, k)..Offset(xss, k + 1)] == xss[k]
  {
    var n := |xss| - 1;
    var front := xss[..n];
    FlattenLength(front);
    FlattenLength(xss);
    OffsetOfPrefix(xss, n, n);
    OffsetsGrow(xss, k + 1, |xss|);
    if k < n {
      FlattenAt(front, k);
      OffsetOfPrefix(xss, n, k);
      OffsetOfPrefix(xss, n, k + 1);
      SliceOfLonger(Flatten(front), xss[n], Offset(xss, k), Offset(xss, k + 1));
    } else {
      SliceOfLonger(Flatten(front), xss[n], 0, 0);
    }
  }

  lemma {:induction false} FlattenElement<T>(xss: seq<seq<T>>, k: nat, j: nat)
    requires k < |xss| && j < |xss[k]|
    ensures Offset(xss, k) + j < |Flatten(xss)|
    ensures Flatten(xss)[Offset(xss, k) + j] == xss[k][j]
  {
    FlattenAt(xss, k);
    assert xss[k][j] == Flatten(xss)[Offset(xss, k)..Offset(xss, k + 1)][j];
  }

  /** Every place in the flattened list belongs to one of the lists. */
  lemma {:induction false} FlattenOwner<T>(xss: seq<seq<T>>, i: nat) returns (k: nat, j: nat)
    requires i < |Flatten(xss)|
    ensures k < |xss| && j < |xss[k]| && i == Offset(xss, k) + j
  {
    var last := |xss| - 1;
    FlattenLength(xss[..last]);
    OffsetOfPrefix(xss, last, last);
    if i < |Flatten(xss[..last])| {
      k, j := FlattenOwner(xss[..last], i);
      OffsetOfPrefix(xss, last, k);
    } else {
      k, j := last, i - Offset(xss, last);
    }
  }

  /** The part of `ys` that lies where list `k` lies in the flattened list. */
  function Stretch<S, T>(xss: seq<seq<S>>, ys: seq<T>, k: nat): (r: seq<T>)
    requires k < |xss| && |ys| == |Flatten(xss)|
    ensures |r| == |xss[k]|
  {
    FlattenAt(xss, k);
    ys[Offset(xss, k)..Offset(xss, k + 1)]
  }

  lemma StretchAt<S, T>(xss: seq<seq<S>>, ys: seq<T>, k: nat, j: nat)
    requires k < |xss| && j < |xss[k]| && |ys| == |Flatten(xss)|
    ensures Offset(xss, k) + j < |ys|
    ensures Stretch(xss, ys, k)[j] == ys[Offset(xss, k) + j]
    ensures xss[k][j] == Flatten(xss)[Offset(xss, k) + j]
  {
    FlattenElement(xss, k, j);
    FlattenAt(xss, k);
    var own := ys[Offset(xss, k)..Offset(xss, k + 1)];
    assert Stretch(xss, ys, k) == own && own[j] == ys[Offset(xss, k) + j];
  }

  lemma PrefixOneMore<T>(xs: seq<T>, ys: seq<T>)
    requires xs <= ys && |xs| < |ys|
    ensures xs + [ys[|xs|]] <= ys
  {
  }

  lemma HeadAndTail<T>(xs: seq<T>)
    requires xs != []
    ensures [xs[0]] + xs[1..] == xs
  {
  }

  lemma AppendAssociates<T>(xs: seq<T>, ys: seq<T>, zs: seq<T>)
    ensures xs + ys + zs == xs + (ys + zs)
  {
  }

  lemma DropFurther<T>(xs: seq<T>, j: nat)
    requires 0 < j <= |xs|
    ensures xs[1..][j - 1..] == xs[j..]
  {
  }

  lemma PrefixOfLonger<T>(xs: seq<T>, ys: seq<T>, zs: seq<T>)
    requires xs <= ys
    ensures xs <= ys + zs
  {
  }

  lemma SliceOfSlice<T>(xs: seq<T>, a: nat, b: nat, c: nat, d: nat)
    requires a <= b <= |xs| && c <= d <= b - a
    ensures xs[a..b][c..d] == xs[a + c..a + d]
  {
    forall i | 0 <= i < d - c
      ensures xs[a..b][c..d][i] == xs[a + c..a + d][i]
    {
      assert xs[a..b][c + i] == xs[a + c + i];
    }
  }

  /** The numbers below `n` with a property. */
  function Below(p: nat -> bool, n: nat): set<nat> {
    set k: nat | k < n && p(k)
  }

  lemma BelowStep(p: nat -> bool, n: nat)
    ensures |Below(p, n + 1)| == |Below(p, n)| + if p(n) then 1 else 0
  {
    if p(n) {
      assert Below(p, n + 1) == Below(p, n) + {n};
    } else {
      assert Below(p, n + 1) == Below(p, n);
    }
  }

  lemma {:induction false} FlattenAppend<T>(xss: seq<seq<T>>, yss: seq<seq<T>>)
    ensures Flatten(xss + yss) == Flatten(xss) + Flatten(yss)
  {
    if yss == [] {
      assert xss + yss == xss;
    } else {
      var k := |yss| - 1;
      FlattenAppend(xss, yss[..k]);
      assert (xss + yss)[..|xss + yss| - 1] == xss + yss[..k];
      AppendAssociates(Flatten(xss), Flatten(yss[..k]), yss[k]);
    }
  }

  lemma FlattenCons<T>(xs: seq<T>, xss: seq<seq<T>>)
    ensures Flatten([xs] + xss) == xs + Flatten(xss)
  {
    FlattenAppend([xs], xss);
    assert [xs][..0] == [];
    assert Flatten([xs]) == [] + xs;
  }
}
