/** Facts about integer division that the solver needs to be shown. */
module Division {

  /** A nonzero multiple of `n` is at least `n` away from zero. */
  lemma MultipleIsFar(d: int, n: nat)
    ensures d >= 1 ==> d * n >= n
    ensures d <= -1 ==> d * n + n <= 0
  {
    if d >= 1 { assert (d - 1) * n >= 0; }
    if d <= -1 { assert (-d - 1) * n >= 0; }
  }

  lemma QuotientUnique(x: int, n: nat, q: int, r: int)
    requires n > 0 && x == q * n + r && 0 <= r < n
    ensures x / n == q && x % n == r
  {
    var d := x / n - q;
    assert d * n == r - x % n;
    MultipleIsFar(d, n);
  }

  lemma QuotientMonotone(x: int, y: int, n: nat)
    requires n > 0 && x <= y
    ensures x / n <= y / n
  {
    var d := x / n - y / n;
    assert d * n == (x - x % n) - (y - y % n);
    MultipleIsFar(d, n);
  }

  lemma QuotientDifference(a: int, k: nat, n: nat)
    requires n > 0
    ensures k / n <= (a + k) / n - a / n <= (k + n - 1) / n
  {
    var p, r := a / n, a % n;
    var q, s := k / n, k % n;
    assert a + k == (p + q) * n + (r + s);
    if r + s < n {
      QuotientUnique(a + k, n, p + q, r + s);
    } else {
      assert (p + q + 1) * n == (p + q) * n + n;
      QuotientUnique(a + k, n, p + q + 1, r + s - n);
      assert k + n - 1 == (q + 1) * n + (s - 1) by { assert (q + 1) * n == q * n + n; }
      QuotientUnique(k + n - 1, n, q + 1, s - 1);
    }
    assert k + n - 1 == k + (n - 1);
    QuotientMonotone(k, k + n - 1, n);
  }
}
