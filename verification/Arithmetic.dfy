/** Division and remainder, for the slots of the wheel and the ticks of the clock. */
module Arithmetic {

  lemma Multiple(d: int, n: int)
    requires n > 0
    ensures d > 0 ==> d * n >= n
    ensures d > 1 ==> d * n >= 2 * n
    ensures d < 0 ==> d * n <= -n
  {
    if d > 0 {
      assert (d - 1) * n >= 0;
      if d > 1 {
        assert (d - 2) * n >= 0;
      }
    } else if d < 0 {
      assert (-d - 1) * n >= 0;
    }
  }

  lemma DivModUnique(a: int, n: int, q: int, r: int)
    requires n > 0 && a == q * n + r && 0 <= r < n
    ensures a % n == r && a / n == q
  {
    var p := a / n;
    assert a == p * n + a % n;
    assert (p - q) * n == r - a % n;
    Multiple(p - q, n);
  }

  lemma DivMonotone(a: int, b: int, n: int)
    requires n > 0 && a <= b
    ensures a / n <= b / n
  {
    var p, q := a / n, b / n;
    assert a == p * n + a % n && b == q * n + b % n;
    assert (p - q) * n == p * n - q * n;
    Multiple(p - q, n);
  }

  lemma DivShift(a: int, k: int, n: int)
    requires n > 0
    ensures (a + k * n) / n == a / n + k
    ensures (a + k * n) % n == a % n
  {
    var p := a / n;
    assert a == p * n + a % n;
    assert (p + k) * n == p * n + k * n;
    DivModUnique(a + k * n, n, p + k, a % n);
  }

  lemma DivBounds(a: int, n: int)
    requires n > 0
    ensures a / n * n <= a < a / n * n + n
  {
    assert a == a / n * n + a % n;
  }

  /** The slots are the remainders, so ticks a lap apart share one. */
  lemma LapApart(a: int, n: int)
    requires n > 0
    ensures (a + n) % n == a % n
  {
    DivShift(a, 1, n);
  }

  /** Two ticks in one slot, at most a lap apart, are equal or exactly a lap apart. */
  lemma SameSlot(a: int, b: int, n: int)
    requires n > 0 && a <= b <= a + n && a % n == b % n
    ensures b == a || b == a + n
  {
    var p, q := a / n, b / n;
    assert a == p * n + a % n && b == q * n + b % n;
    assert (q - p) * n == q * n - p * n;
    Multiple(q - p, n);
  }

  /** A number above all of `ids`. */
  ghost function Above(ids: set<nat>): (t: nat)
    ensures forall i :: i in ids ==> i < t
  {
    if ids == {} then 0 else
      var i :| i in ids;
      var u := Above(ids - {i});
      assert forall k :: k in ids ==> k == i || k in ids - {i};
      if i < u then u else i + 1
  }
}
