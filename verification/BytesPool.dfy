/** The power-of-two buffer allocator (util/bytespool/alloc.go, util/bytespool/pool.go). */
module BytesPool {
  import opened Options
  import opened Powers

  const MAX_SIZE := 131072
  const CLASSES := 18

  /** One backing array. */
  datatype Buf = Buf(id: nat, cap: nat)

  // ---------------------------------------------------------------- classes

  /** The class Get serves `size` from. */
  function ClassOf(size: nat): nat
    requires size > 0
  {
    var bits := FloorLog2(size);
    if size == Pow2(bits) then bits else bits + 1
  }

  lemma LargeClass(k: nat)
    requires k >= CLASSES
    ensures Pow2(k) >= 2 * MAX_SIZE
  {
    Pow2Values();
    Pow2Strict(17, k);
  }

  /** The class holds the request, no smaller power of two does, and less than half of it is wasted. */
  lemma ClassIsLeast(size: nat)
    requires 0 < size <= MAX_SIZE
    ensures ClassOf(size) < CLASSES && size <= Pow2(ClassOf(size)) < 2 * size
    ensures forall b: nat :: size <= Pow2(b) ==> Pow2(ClassOf(size)) <= Pow2(b)
  {
    FloorLog2Brackets(size);
    Pow2Values();
    var k := ClassOf(size);
    if k >= CLASSES {
      LargeClass(k);
    }
    forall b: nat | size <= Pow2(b)
      ensures Pow2(k) <= Pow2(b)
    {
      if b < k {
        Pow2Strict(b, k);
      } else {
        Pow2Grows(k, b);
      }
    }
  }

  /** A power of two is its own class, so what Get returns passes the test of Put. */
  lemma ClassOfPow2(b: nat)
    ensures FloorLog2(Pow2(b)) == b && ClassOf(Pow2(b)) == b
  {
    FloorLog2Brackets(Pow2(b));
    var k := FloorLog2(Pow2(b));
    if k < b {
      Pow2Grows(k + 1, b);
    } else if k > b {
      Pow2Strict(b, k);
    }
  }

  /** The test of Put. */
  predicate Accepts(cap: int) {
    0 < cap <= MAX_SIZE && cap == Pow2(FloorLog2(cap))
  }

  /** Put accepts exactly the capacities that Get hands out. */
  lemma AcceptsExactlyClasses(cap: int)
    ensures Accepts(cap) <==> exists b: nat :: b < CLASSES && cap == Pow2(b)
  {
    Pow2Values();
    if Accepts(cap) {
      var b := FloorLog2(cap);
      if b > 17 {
        Pow2Strict(17, b);
      }
    }
    forall b: nat | b < CLASSES && cap == Pow2(b)
      ensures Accepts(cap)
    {
      ClassOfPow2(b);
      Pow2Grows(b, 17);
    }
  }

  /** n & (n-1) == 0 for a positive n: it has one bit. */
  predicate OneBit(n: nat) {
    n == 1 || (n > 1 && n % 2 == 0 && OneBit(n / 2))
  }

  /** The bit trick and the test of Put agree. */
  lemma {:induction false} OneBitIsPow2(n: nat)
    requires n > 0
    ensures OneBit(n) <==> n == Pow2(FloorLog2(n))
  {
    if n > 1 {
      OneBitIsPow2(n / 2);
    }
  }

  // ---------------------------------------------------------------- the allocator

  /** What class `b` holds is of its size, was allocated, and is not in use. */
  ghost predicate ClassOk(held: set<Buf>, b: nat, next: nat, lent: set<Buf>) {
    forall x :: x in held ==> x.cap == Pow2(b) && x.id < next && x !in lent
  }

  ghost predicate ClassesOk(stored: seq<set<Buf>>, next: nat, lent: set<Buf>) {
    |stored| == CLASSES && forall b :: 0 <= b < CLASSES ==> ClassOk(stored[b], b, next, lent)
  }

  lemma AfterCollect(stored: seq<set<Buf>>, next: nat, lent: set<Buf>, b: nat, kept: set<Buf>)
    requires ClassesOk(stored, next, lent) && b < CLASSES && kept <= stored[b]
    ensures ClassesOk(stored[b := kept], next, lent) && |kept| <= |stored[b]|
  {
    assert |stored[b] - kept| == |stored[b]| - |kept|;
    assert ClassOk(stored[b], b, next, lent);
  }

  lemma AfterTake(stored: seq<set<Buf>>, next: nat, lent: set<Buf>, b: nat, buf: Buf)
    requires ClassesOk(stored, next, lent) && b < CLASSES && buf in stored[b]
    ensures ClassesOk(stored[b := stored[b] - {buf}], next, lent + {buf})
    ensures buf.cap == Pow2(b) && buf.id < next && buf !in lent
  {
    assert ClassOk(stored[b], b, next, lent);
    var stored' := stored[b := stored[b] - {buf}];
    forall k | 0 <= k < CLASSES
      ensures ClassOk(stored'[k], k, next, lent + {buf})
    {
      assert ClassOk(stored[k], k, next, lent);
      if k < b {
        Pow2Strict(k, b);
      } else if k > b {
        Pow2Strict(b, k);
      }
    }
  }

  lemma AfterNew(stored: seq<set<Buf>>, next: nat, lent: set<Buf>, cap: nat)
    requires ClassesOk(stored, next, lent)
    ensures ClassesOk(stored, next + 1, lent) && ClassesOk(stored, next + 1, lent + {Buf(next, cap)})
    ensures forall k :: 0 <= k < CLASSES ==> Buf(next, cap) !in stored[k]
  {
    forall k | 0 <= k < CLASSES
      ensures ClassOk(stored[k], k, next + 1, lent) && ClassOk(stored[k], k, next + 1, lent + {Buf(next, cap)})
      ensures Buf(next, cap) !in stored[k]
    {
      assert ClassOk(stored[k], k, next, lent);
    }
  }

  lemma AfterReturn(stored: seq<set<Buf>>, next: nat, lent: set<Buf>, b: nat, buf: Buf)
    requires ClassesOk(stored, next, lent) && b < CLASSES && buf.cap == Pow2(b) && buf.id < next
    ensures ClassesOk(stored, next, lent - {buf}) && ClassesOk(stored[b := stored[b] + {buf}], next, lent - {buf})
  {
    forall k | 0 <= k < CLASSES
      ensures ClassOk(stored[k], k, next, lent - {buf})
    {
      assert ClassOk(stored[k], k, next, lent);
    }
  }

  /** With a limit, the counter of a class is at least what the class holds and at most the limit; without one nothing
      is counted. */
  predicate CountOk(held: set<Buf>, count: int, limit: int) {
    if limit > 0 then |held| <= count <= limit else count == 0
  }

  ghost predicate CountsOk(stored: seq<set<Buf>>, retained: seq<int>, limit: int) {
    |stored| == CLASSES == |retained| && forall b :: 0 <= b < CLASSES ==> CountOk(stored[b], retained[b], limit)
  }

  lemma CountsAfter(stored: seq<set<Buf>>, retained: seq<int>, limit: int, b: nat, held: set<Buf>, n: int)
    requires CountsOk(stored, retained, limit) && b < CLASSES && CountOk(held, n, limit)
    ensures CountsOk(stored[b := held], retained[b := n], limit)
  {
  }

  class Allocator {
    const maxRetained: int
    var stored: seq<set<Buf>>
    var retained: seq<int>
    var next: nat
    ghost var lent: set<Buf>  // handed out and not yet returned

    /** Between calls: no buffer is both in the pool and in use, every class holds its own size, and the counters
        match. */
    ghost predicate Valid()
      reads this
    {
      && ClassesOk(stored, next, lent) && CountsOk(stored, retained, maxRetained)
      && forall x :: x in lent ==> x.id < next
    }

    ghost predicate Stores(buf: Buf)
      reads this
    {
      exists b :: 0 <= b < |stored| && buf in stored[b]
    }

    /** The class of `cap` keeps another buffer; without a limit it always does. */
    ghost predicate HasRoom(cap: nat)
      reads this
    {
      FloorLog2(cap) < |retained| && (maxRetained > 0 ==> retained[FloorLog2(cap)] < maxRetained)
    }

    /** What is lent is not in the pool and can be put back. */
    lemma LentIsOut(buf: Buf)
      requires Valid() && buf in lent
      ensures buf.id < next && !Stores(buf)
    {
      forall b | 0 <= b < CLASSES
        ensures buf !in stored[b]
      {
        assert ClassOk(stored[b], b, next, lent);
      }
    }

    constructor (maxRetained: int)
      ensures Valid() && this.maxRetained == maxRetained && lent == {}
    {
      this.maxRetained := maxRetained;
      stored, retained, next, lent := seq(CLASSES, _ => {}), seq(CLASSES, _ => 0), 0, {};
    }

    /** The garbage collector empties any part of the pool at any time. */
    method Collect(b: nat, kept: set<Buf>)
      requires Valid() && b < CLASSES && kept <= stored[b]
      modifies this`stored
      ensures Valid() && stored == old(stored)[b := kept]
    {
      AfterCollect(stored, next, lent, b, kept);
      CountsAfter(stored, retained, maxRetained, b, kept, retained[b]);
      assert retained[b := retained[b]] == retained;
      stored := stored[b := kept];
    }

    /** The pool of class `b` after decRetained: something stored, or a new buffer. */
    method TakeFrom(b: nat) returns (buf: Buf)
      requires Valid() && b < CLASSES
      modifies this
      ensures Valid() && buf.cap == Pow2(b)
      ensures buf !in old(lent) && lent == old(lent) + {buf}
      ensures if old(stored)[b] != {} then buf in old(stored)[b] && next == old(next) else buf.id == old(next) < next
      ensures stored == old(stored)[b := old(stored)[b] - {buf}]
      ensures retained == old(retained)[b := if old(retained)[b] > 0 then old(retained)[b] - 1 else 0]
    {
      var count := if retained[b] <= 0 then 0 else retained[b] - 1;
      if stored[b] != {} {
        buf :| buf in stored[b];
        AfterTake(stored, next, lent, b, buf);
        CountsAfter(stored, retained, maxRetained, b, stored[b] - {buf}, count);
        stored := stored[b := stored[b] - {buf}];
      } else {
        AfterNew(stored, next, lent, Pow2(b));
        assert stored[b] - {Buf(next, Pow2(b))} == {};
        CountsAfter(stored, retained, maxRetained, b, {}, count);
        assert stored[b := {}] == stored;
        buf := Buf(next, Pow2(b));
        next := next + 1;
      }
      retained := retained[b := count];
      lent := lent + {buf};
    }

    method Get(size: int) returns (r: Option<Buf>)
      requires Valid()
      modifies this
      ensures Valid()
      ensures r == None <==> size <= 0 || size > MAX_SIZE
      ensures r == None ==> lent == old(lent) && stored == old(stored) && retained == old(retained)
      ensures r.Some? ==>
                && ClassOf(size) < CLASSES && (r.value.id == old(next) <==> old(stored)[ClassOf(size)] == {})
                && stored == old(stored)[ClassOf(size) := old(stored)[ClassOf(size)] - {r.value}]
      ensures r.Some? ==>
                && r.value !in old(lent) && lent == old(lent) + {r.value} && Accepts(r.value.cap)
                && size <= r.value.cap < 2 * size
                && forall b: nat :: size <= Pow2(b) ==> r.value.cap <= Pow2(b)
    {
      if size <= 0 || size > MAX_SIZE {
        return None;
      }
      ClassIsLeast(size);
      AcceptsExactlyClasses(Pow2(ClassOf(size)));
      var buf := TakeFrom(ClassOf(size));
      r := Some(buf);
    }

    /** Memory that comes from elsewhere: a slice the pool has never seen. */
    method Make(cap: nat) returns (buf: Buf)
      requires Valid()
      modifies this`next
      ensures Valid() && buf.cap == cap && buf.id < next && !Stores(buf) && buf !in lent
    {
      AfterNew(stored, next, lent, cap);
      buf := Buf(next, cap);
      next := next + 1;
    }

    /** Put fails exactly on a capacity that is not a class, whoever made the buffer; a full class forgets it. The
        caller must not put what is in the pool already. */
    method Put(buf: Buf) returns (ok: bool)
      requires Valid() && buf.id < next && !Stores(buf)
      modifies this
      ensures Valid() && (ok <==> Accepts(buf.cap)) && next == old(next)
      ensures lent == if ok then old(lent) - {buf} else old(lent)
      ensures Stores(buf) <==> ok && old(HasRoom(buf.cap))
      ensures !Stores(buf) ==> stored == old(stored) && retained == old(retained)
      ensures Stores(buf) ==>
                var b := FloorLog2(buf.cap);
                && stored == old(stored)[b := old(stored)[b] + {buf}]
                && retained == old(retained)[b := old(retained)[b] + if maxRetained > 0 then 1 else 0]
    {
      if buf.cap == 0 || buf.cap > MAX_SIZE || buf.cap != Pow2(FloorLog2(buf.cap)) {
        return false;
      }
      var b := FloorLog2(buf.cap);
      ClassInRange(buf.cap);
      AfterReturn(stored, next, lent, b, buf);
      ok := true;
      lent := lent - {buf};
      var count := retained[b];
      if maxRetained > 0 {
        count := count + 1;
        if count > maxRetained {
          return;
        }
      }
      CountsAfter(stored, retained, maxRetained, b, stored[b] + {buf}, count);
      retained := retained[b := count];
      stored := stored[b := stored[b] + {buf}];
      assert buf in stored[b];
    }
  }

  lemma ClassInRange(cap: nat)
    requires Accepts(cap)
    ensures FloorLog2(cap) < CLASSES
  {
    Pow2Values();
    if FloorLog2(cap) > 17 {
      Pow2Strict(17, FloorLog2(cap));
    }
  }
}
