/** Just enough about binary numbers for `usize::next_power_of_two` and the mask of the wheel. */
module Bits {
  import opened Arithmetic

  function Pow2(k: nat): (p: nat)
    ensures p > 0
  {
    if k == 0 then 1 else 2 * Pow2(k - 1)
  }

  ghost predicate IsPowerOfTwo(n: nat) {
    exists k :: n == Pow2(k)
  }

  /** Bitwise conjunction, bit by bit. */
  function BitAnd(a: nat, b: nat): nat {
    if a == 0 || b == 0 then 0
    else 2 * BitAnd(a / 2, b / 2) + (if a % 2 == 1 && b % 2 == 1 then 1 else 0)
  }

  lemma ModTwice(a: nat, m: nat)
    requires m > 0
    ensures a % (2 * m) == 2 * (a / 2 % m) + a % 2
  {
    var q, r := a / 2 / m, a / 2 % m;
    assert a / 2 == q * m + r;
    assert q * (2 * m) == 2 * (q * m);
    DivModUnique(a, 2 * m, q, 2 * r + a % 2);
  }

  /** Masking with one less than a power of two takes the remainder. */
  lemma {:induction false} MaskIsRemainder(a: nat, k: nat)
    ensures BitAnd(Pow2(k) - 1, a) == a % Pow2(k)
  {
    if k == 0 {
    } else {
      var m := Pow2(k - 1);
      MaskIsRemainder(a / 2, k - 1);
      ModTwice(a, m);
      assert (2 * m - 1) / 2 == m - 1 && (2 * m - 1) % 2 == 1;
    }
  }

  /** `usize::next_power_of_two`: of the numbers from `n` up that are a power of two, the least; 1 for 0. */
  method NextPowerOfTwo(n: nat) returns (p: nat)
    ensures n <= p && IsPowerOfTwo(p)
    ensures forall k :: n <= Pow2(k) ==> p <= Pow2(k)
  {
    p := 1;
    ghost var k := 0;
    assert Pow2(0) == 1;
    while p < n
      invariant p == Pow2(k)
      invariant forall j: nat :: j < k ==> Pow2(j) < n
    {
      p := 2 * p;
      k := k + 1;
    }
    forall j: nat | n <= Pow2(j)
      ensures p <= Pow2(j)
    {
      Monotone(k, j);
    }
  }

  lemma {:induction false} Monotone(j: nat, k: nat)
    ensures j <= k ==> Pow2(j) <= Pow2(k)
  {
    if j < k {
      Monotone(j, k - 1);
    }
  }
}
