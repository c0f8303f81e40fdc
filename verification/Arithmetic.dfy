/** The few facts about products that the index computations rest on. */
module Arithmetic {

  lemma Distribute(x: int, y: int, z: int)
    ensures x * z + y * z == (x + y) * z
    ensures x * (z + 1) == x * z + x
  {
  }

  lemma Monotone(x: nat, y: nat, z: nat)
    requires x <= y
    ensures x * z <= y * z
  {
    Distribute(x, y - x, z);
  }

  lemma Reassociate(x: nat, y: nat, z: nat)
    ensures (x * y) * z == x * (z * y)
  {
  }

  /** Row-major index: element `j` of row `i` when every row has `width` elements. */
  function At(i: nat, width: nat, j: nat): nat {
    Monotone(0, i, width);
    i * width + j
  }

  lemma AtBound(i: nat, rows: nat, width: nat, j: nat)
    requires i < rows && j < width
    ensures At(i, width, j) < At(i + 1, width, 0) <= rows * width
  {
    Distribute(i, 1, width);
    Monotone(i + 1, rows, width);
  }

  /** Row-major indices determine row and column. */
  lemma AtInjective(i: nat, j: nat, i': nat, j': nat, width: nat)
    requires j < width && j' < width && At(i, width, j) == At(i', width, j')
    ensures i == i' && j == j'
  {
    Distribute(i, 1, width);
    Distribute(i', 1, width);
    if i < i' {
      Monotone(i + 1, i', width);
    } else if i' < i {
      Monotone(i' + 1, i, width);
    }
  }

  lemma AtOnto(p: nat, rows: nat, width: nat) returns (i: nat, j: nat)
    requires p < rows * width
    ensures i < rows && j < width && p == At(i, width, j)
  {
    if width == 0 {
      assert false;
    }
    i, j := p / width, p % width;
    assert p == width * i + j;
    if i >= rows {
      Monotone(rows, i, width);
    }
  }

  /** A divisor of 128 that is too large to be small has a small cofactor. */
  lemma Cofactor(b: nat)
    requires 8 < b && 128 % b == 0
    ensures b in {16, 32, 64, 128}
  {
    var q := 128 / b;
    assert b * q == 128;
    if q >= 16 {
      Monotone(16, q, b);
      assert false;
    }
    assert q == 1 || q == 2 || q == 3 || q == 4 || q == 5 || q == 6 || q == 7 || q == 8
        || q == 9 || q == 10 || q == 11 || q == 12 || q == 13 || q == 14 || q == 15;
  }

  lemma DivisorsOf128(b: nat)
    requires 0 < b && 128 % b == 0
    ensures b in {1, 2, 4, 8, 16, 32, 64, 128}
  {
    if b > 8 {
      Cofactor(b);
    } else {
      assert b == 1 || b == 2 || b == 3 || b == 4 || b == 5 || b == 6 || b == 7 || b == 8;
    }
  }
}
