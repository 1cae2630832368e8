/** The growing read buffer (util/netbuf/netbuf.go). */
module NetBuf {
  import opened Options
  import opened Powers
  import opened BytesPool

  const HINT := 4096

  /** normalized: the least power of two that holds `size`, or `fallback` for a size that is not positive. */
  method Normalized(size: int, fallback: nat) returns (size2: nat)
    requires fallback > 0
    ensures IsPow2(size2) && (if size <= 0 then fallback else size) <= size2
    ensures forall b: nat :: (if size <= 0 then fallback else size) <= Pow2(b) ==> size2 <= Pow2(b)
  {
    var wanted := if size <= 0 then fallback else size;
    size2 := 1;
    ghost var bits: nat := 0;
    while size2 < wanted
      invariant size2 == Pow2(bits)
      invariant forall b: nat :: wanted <= Pow2(b) ==> size2 <= Pow2(b)
      decreases wanted - size2
    {
      forall b: nat | wanted <= Pow2(b)
        ensures 2 * size2 <= Pow2(b)
      {
        if b <= bits {
          Pow2Grows(b, bits);
        } else {
          Pow2Strict(bits, b);
        }
      }
      size2 := size2 * 2;
      bits := bits + 1;
    }
  }

  lemma MinPow2(a: int, b: int)
    requires IsPow2(a) && IsPow2(b)
    ensures IsPow2(if a < b then a else b)
  {
  }

  /** A power of two below the limit is a class that the pool serves and takes back. */
  lemma Pow2IsClass(n: int)
    requires IsPow2(n) && n <= MAX_SIZE
    ensures Accepts(n)
  {
    var b: nat :| Pow2(b) == n;
    ClassOfPow2(b);
  }

  lemma MaxIsPow2()
    ensures IsPow2(MAX_SIZE) && IsPow2(HINT)
  {
    Pow2Values();
  }

  lemma DoubleIsPow2(n: int)
    requires IsPow2(n)
    ensures IsPow2(2 * n)
  {
    var b: nat :| Pow2(b) == n;
    assert Pow2(b + 1) == 2 * n;
  }

  /** `n` is the least power of two that holds `size`, or the default hint for a size that is not positive. */
  ghost predicate IsNormal(n: nat, size: int) {
    var wanted := if size <= 0 then HINT else size;
    IsPow2(n) && wanted <= n && forall b: nat :: wanted <= Pow2(b) ==> n <= Pow2(b)
  }

  function Min(a: int, b: int): int {
    if a < b then a else b
  }

  class Reader {
    const alloc: Allocator
    const max: nat
    var buf: Option<Buf>

    /** The buffer is lent to this reader and its capacity is a class up to `max`. */
    ghost predicate Valid()
      reads this, alloc
    {
      && alloc.Valid() && IsPow2(max) && 0 < max <= MAX_SIZE
      && (buf.Some? ==> buf.value in alloc.lent && IsPow2(buf.value.cap) && 0 < buf.value.cap <= max)
    }

    /** The limit is the class of `limit`, capped at what the pool serves; the first buffer is of the class of `hint`,
        or of the limit if that is smaller. */
    constructor (alloc: Allocator, hint: int, limit: int)
      requires alloc.Valid()
      modifies alloc
      ensures Valid() && this.alloc == alloc && buf.Some?
      ensures buf.value !in old(alloc.lent) && alloc.lent == old(alloc.lent) + {buf.value}
      ensures exists m: nat :: IsNormal(m, limit) && max == Min(m, MAX_SIZE)
      ensures exists h: nat :: IsNormal(h, hint) && buf.value.cap == Min(h, max)
    {
      var m := Normalized(limit, HINT);
      var h := Normalized(hint, HINT);
      MaxIsPow2();
      MinPow2(m, MAX_SIZE);
      var top := if m < MAX_SIZE then m else MAX_SIZE;
      MinPow2(h, top);
      var first := if h < top then h else top;
      var b := alloc.Get(first);
      ExactClass(first, b.value.cap);
      assert IsNormal(m, limit) && IsNormal(h, hint);
      this.alloc, max, buf := alloc, top, b;
    }

    /** Grow: one class up, or to the limit; the old buffer goes back and nobody else's is touched. */
    method Grow()
      requires Valid()
      modifies this`buf, alloc
      ensures Valid() && (buf.Some? <==> old(buf).Some?)
      ensures old(buf).Some? && old(buf).value.cap < max ==>
                && buf.value.cap == (if 2 * old(buf).value.cap < max then 2 * old(buf).value.cap else max)
                && buf.value !in old(alloc.lent) && alloc.lent == old(alloc.lent) - {old(buf).value} + {buf.value}
      ensures old(buf) == None || old(buf).value.cap == max ==> buf == old(buf) && alloc.lent == old(alloc.lent)
    {
      var cur := if buf.Some? then buf.value.cap else 0;
      var next := max;
      if 2 * cur < next {
        next := 2 * cur;
      }
      if next <= cur {
        return;
      }
      DoubleIsPow2(cur);
      var bigger := alloc.Get(next);
      ExactClass(next, bigger.value.cap);
      SwapIn(bigger);
    }

    /** SwapIn: the old buffer is returned before the new one takes its place. */
    method SwapIn(b: Option<Buf>)
      requires Valid()
      requires (b.Some? ==> b.value in alloc.lent && b != buf && IsPow2(b.value.cap) && 0 < b.value.cap <= max)
      modifies this`buf, alloc
      ensures Valid()
      ensures b == None ==> buf == old(buf) && alloc.lent == old(alloc.lent)
      ensures b.Some? ==> buf == b && alloc.lent == old(alloc.lent) - (if old(buf).Some? then {old(buf).value} else {})
    {
      if b == None {
        return;
      }
      if buf.Some? {
        Pow2IsClass(buf.value.cap);
        alloc.LentIsOut(buf.value);
        var ok := alloc.Put(buf.value);
        assert ok;
      }
      buf := b;
    }

    method Release()
      requires Valid()
      modifies this`buf, alloc
      ensures Valid() && buf == None
      ensures alloc.lent == old(alloc.lent) - (if old(buf).Some? then {old(buf).value} else {})
    {
      if buf.Some? {
        Pow2IsClass(buf.value.cap);
        alloc.LentIsOut(buf.value);
        var ok := alloc.Put(buf.value);
        assert ok;
      }
      buf := None;
    }
  }

  /** Get serves a power of two from the class of exactly that size. */
  lemma ExactClass(n: int, cap: int)
    requires IsPow2(n) && n <= cap && forall b: nat :: n <= Pow2(b) ==> cap <= Pow2(b)
    ensures cap == n
  {
  }
}
