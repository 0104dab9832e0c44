/** Counting how often a rotating cursor visits each of `n` places. */
module Rotation {
  import opened Division

  /** How many of `0, 1, ..., x - 1` leave remainder `i` when divided by `n`. */
  function UpTo(x: nat, n: nat, i: nat): int
    requires i < n
  {
    (x - 1 - i) / n + 1
  }

  lemma UpToStep(x: nat, n: nat, i: nat)
    requires i < n
    ensures UpTo(x + 1, n, i) == UpTo(x, n, i) + if x % n == i then 1 else 0
  {
    var q, r := x / n, x % n;
    assert x == q * n + r;
    if r > i {
      QuotientUnique(x - i, n, q, r - i);
      QuotientUnique(x - 1 - i, n, q, r - 1 - i);
    } else if r == i {
      QuotientUnique(x - i, n, q, 0);
      assert (q - 1) * n == q * n - n;
      QuotientUnique(x - 1 - i, n, q - 1, n - 1);
    } else {
      assert (q - 1) * n == q * n - n;
      QuotientUnique(x - i, n, q - 1, n + r - i);
      QuotientUnique(x - 1 - i, n, q - 1, n + r - i - 1);
    }
  }

  /** The number of visits to place `i` among `k` consecutive ones starting at `c`. */
  function Visits(c: nat, k: nat, n: nat, i: nat): nat
    requires i < n
  {
    if k == 0 then 0 else Visits(c, k - 1, n, i) + if (c + k - 1) % n == i then 1 else 0
  }

  lemma {:induction false} VisitsAreDifference(c: nat, k: nat, n: nat, i: nat)
    requires i < n
    ensures Visits(c, k, n, i) == UpTo(c + k, n, i) - UpTo(c, n, i)
  {
    if k > 0 {
      VisitsAreDifference(c, k - 1, n, i);
      UpToStep(c + k - 1, n, i);
    }
  }

  /** Any `k` consecutive visits are spread evenly: each place gets the floor or the ceiling. */
  lemma VisitsAreEven(c: nat, k: nat, n: nat, i: nat)
    requires i < n
    ensures k / n <= Visits(c, k, n, i) <= (k + n - 1) / n
  {
    VisitsAreDifference(c, k, n, i);
    assert c + k - 1 - i == (c - 1 - i) + k;
    QuotientDifference(c - 1 - i, k, n);
  }

  /** Reducing the cursor first does not change where the rotation goes. */
  lemma ReducedCursor(c: nat, j: nat, n: nat)
    requires n > 0
    ensures (c % n + j) % n == (c + j) % n
  {
    var q := c / n;
    var p, r := (c % n + j) / n, (c % n + j) % n;
    assert c + j == q * n + c % n + j;
    assert c + j == (q + p) * n + r;
    QuotientUnique(c + j, n, q + p, r);
  }
}
