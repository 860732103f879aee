// Facts about residues: every ring in the program is indexed by "number % size".
module Residues {

  // Division with remainder has one answer.
  lemma Unique(q: int, r: int, q': int, r': int, n: nat)
    requires q * n + r == q' * n + r' && 0 <= r < n && 0 <= r' < n
    ensures q == q' && r == r'
  {
    var d := q - q';
    assert d * n == r' - r;
    assert d * n == (d - 1) * n + n == (d + 1) * n - n;
  }

  lemma Decompose(q: nat, r: nat, n: nat)
    requires r < n
    ensures q * n + r >= 0
    ensures (q * n + r) % n == r
    ensures (q * n + r) / n == q
  {
    var x := q * n + r;
    Unique(x / n, x % n, q, r, n);
  }

  // Two numbers less than n apart that fall in the same cell of a ring of n cells are equal.
  lemma SameCell(a: nat, b: nat, n: nat)
    requires n > 0 && a % n == b % n && a <= b < a + n
    ensures a == b
  {
    var d := b - a;
    assert a == a / n * n + a % n;
    assert b == b / n * n + b % n;
    assert (b / n) * n + 0 == (a / n) * n + d;
    Unique(b / n, 0, a / n, d, n);
  }

  // Every cell of the ring is met by one of the n numbers starting at a.
  lemma CellMet(a: nat, cell: nat, n: nat) returns (k: nat)
    requires cell < n
    ensures a <= k < a + n && k % n == cell
  {
    var q := a / n;
    assert a == q * n + a % n;
    if a % n <= cell {
      k := q * n + cell;
      Decompose(q, cell, n);
    } else {
      k := (q + 1) * n + cell;
      Decompose(q + 1, cell, n);
    }
  }

  // Adding a multiple of n does not change the cell.
  lemma ShiftCell(a: nat, k: nat, n: nat)
    requires n > 0
    ensures a + k * n >= 0
    ensures (a + k * n) % n == a % n
  {
    var q, r := a / n, a % n;
    assert a == q * n + r;
    assert a + k * n == (q + k) * n + r;
    Decompose(q + k, r, n);
  }

  lemma Sign(k: int, n: nat)
    requires n > 0 && k * n >= 0
    ensures k >= 0
  {
  }

  // Numbers in the same cell differ by a multiple of n.
  lemma SameCellGap(a: nat, b: nat, n: nat) returns (k: nat)
    requires n > 0 && a <= b && a % n == b % n
    ensures b == a + k * n
  {
    var q, q' := a / n, b / n;
    assert a == q * n + a % n;
    assert b == q' * n + b % n;
    assert (q' - q) * n == b - a;
    Sign(q' - q, n);
    k := q' - q;
  }
}
