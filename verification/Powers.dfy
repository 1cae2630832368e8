/** Powers of two and quotients, for pressure levels, buffer classes and shares of time. */
module Powers {

  function Pow2(n: nat): (r: nat)
    ensures r >= 1
  {
    if n == 0 then 1 else 2 * Pow2(n - 1)
  }

  function FloorLog2(v: nat): nat {
    if v <= 1 then 0 else 1 + FloorLog2(v / 2)
  }

  lemma {:induction false} FloorLog2Brackets(v: nat)
    requires v >= 1
    ensures Pow2(FloorLog2(v)) <= v < Pow2(FloorLog2(v) + 1)
  {
    if v > 1 {
      FloorLog2Brackets(v / 2);
    }
  }

  lemma {:induction false} Pow2Grows(a: nat, b: nat)
    requires a <= b
    ensures Pow2(a) <= Pow2(b)
  {
    if a < b {
      Pow2Grows(a, b - 1);
    }
  }

  ghost predicate IsPow2(n: int) {
    exists b: nat :: Pow2(b) == n
  }

  lemma {:induction false} Pow2Strict(a: nat, b: nat)
    requires a < b
    ensures 2 * Pow2(a) <= Pow2(b)
  {
    Pow2Grows(a + 1, b);
  }

  /** The classes of the allocator go from 1 byte to 128 KiB. */
  lemma Pow2Values()
    ensures Pow2(12) == 4096 && Pow2(16) == 65536 && Pow2(17) == 131072
  {
    assert Pow2(4) == 16 && Pow2(8) == 256 && Pow2(12) == 4096 && Pow2(16) == 65536;
  }

  lemma TimesAtLeast(q: int, n: int)
    requires n >= 1
    ensures q >= 0 ==> q * n >= q
    ensures q < 0 ==> q * n <= q
  {
    var m := n - 1;
    assert q * n == q * m + q;
    if q >= 0 {
      assert q * m >= 0;
    } else {
      assert q * m <= 0;
    }
  }

  lemma Scaled(a: int, b: int, n: nat)
    requires a <= b
    ensures a * n <= b * n
  {
    assert (b - a) * n >= 0;
  }

  lemma Quotient(x: int, n: nat)
    requires n > 0 && x >= 0
    ensures 0 <= x / n <= x && (x / n) * n <= x < (x / n + 1) * n
  {
    var q := x / n;
    assert x == q * n + x % n;
    TimesAtLeast(q, n);
    assert (q + 1) * n == q * n + n;
  }
}
