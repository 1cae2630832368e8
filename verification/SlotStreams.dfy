/** No stream is lost or invented, whatever opens, finishes, grows, shrinks and moves slots about
    (transport/http2/scheduler.go, transport/http2/client.go). */
module SlotStreams {
  import opened Options
  import opened Scheduler
  import opened SlotPools
  import opened SlotRuns

  /** The count of active streams, or of heavy ones. */
  function Count(slot: Slot, heavy: bool): nat {
    if heavy then slot.heavy else slot.active
  }

  function Sum(slots: seq<Slot>, heavy: bool): nat {
    if slots == [] then 0 else Sum(slots[..|slots| - 1], heavy) + Count(slots[|slots| - 1], heavy)
  }

  function Total(s: Sched, heavy: bool): nat {
    Sum(s.priority.slots, heavy) + Sum(s.bulk.slots, heavy)
  }

  lemma {:induction false} SumAround(a: seq<Slot>, x: Slot, b: seq<Slot>, heavy: bool)
    ensures Sum(a + [x] + b, heavy) == Sum(a + b, heavy) + Count(x, heavy)
    decreases |b|
  {
    if b == [] {
      assert a + [x] + b == a + [x] && a + b == a && (a + [x])[..|a|] == a;
    } else {
      var c, y := b[..|b| - 1], b[|b| - 1];
      SumAround(a, x, c, heavy);
      assert (a + [x] + b)[..|a| + |b|] == a + [x] + c && (a + b)[..|a + b| - 1] == a + c;
    }
  }

  lemma SumDrop(b: seq<Slot>, k: nat, heavy: bool)
    requires k < |b|
    ensures Sum(b, heavy) == Sum(Drop(b, k), heavy) + Count(b[k], heavy)
  {
    SumAround(b[..k], b[k], b[k + 1..], heavy);
    assert b == b[..k] + [b[k]] + b[k + 1..];
  }

  lemma SumUpdate(b: seq<Slot>, k: nat, x: Slot, heavy: bool)
    requires k < |b|
    ensures Sum(b[k := x], heavy) == Sum(b, heavy) - Count(b[k], heavy) + Count(x, heavy)
  {
    SumDrop(b, k, heavy);
    SumDrop(b[k := x], k, heavy);
    assert Drop(b[k := x], k) == Drop(b, k);
  }

  lemma {:induction false} SumPermuted(a: seq<Slot>, b: seq<Slot>, heavy: bool)
    requires multiset(a) == multiset(b)
    ensures Sum(a, heavy) == Sum(b, heavy)
    decreases |a|
  {
    assert |multiset(a)| == |multiset(b)|;
    if a != [] {
      assert a[0] in multiset(b);
      var k :| 0 <= k < |b| && b[k] == a[0];
      DropOne(a, 0);
      DropOne(b, k);
      assert multiset(Drop(a, 0)) == multiset(a) - multiset{a[0]} == multiset(Drop(b, k));
      SumPermuted(Drop(a, 0), Drop(b, k), heavy);
      SumDrop(a, 0, heavy);
      SumDrop(b, k, heavy);
    }
  }

  lemma SumActivated(p: Pool, heavy: bool)
    requires p.live < p.max == |p.slots|
    ensures Sum(Activated(p).slots, heavy) == Sum(p.slots, heavy)
  {
    if p.live == 0 && p.max >= 2 {
      SumUpdate(p.slots, 0, Reset(p.slots[0]), heavy);
      SumUpdate(p.slots[0 := Reset(p.slots[0])], 1, Reset(p.slots[1]), heavy);
    } else {
      SumUpdate(p.slots, p.live, Reset(p.slots[p.live]), heavy);
    }
  }

  lemma TotalGrown(s: Sched, highPriority: bool, heavy: bool)
    requires Valid(s)
    ensures Total(Grown(s, highPriority), heavy) == Total(s, heavy)
  {
    var target := GrowTarget(s, highPriority);
    if target.Some? {
      SumActivated(Get(s, target.value), heavy);
    }
  }

  lemma TotalUpdate(s: Sched, priority: bool, i: nat, slot: Slot, heavy: bool)
    requires i < |Get(s, priority).slots|
    ensures Total(Update(s, priority, i, slot), heavy) ==
            Total(s, heavy) - Count(SlotAt(s, priority, i), heavy) + Count(slot, heavy)
  {
    SumUpdate(Get(s, priority).slots, i, slot, heavy);
  }

  /** What a step adds to the count of active or of heavy streams. */
  function Change(l: Label, heavy: bool): int {
    match l
    case Open(_, _, _) => if heavy then 0 else 1
    case Pick(_, _, _) => if heavy then 0 else 1
    case Finish(_, _) => if heavy then 0 else -1
    case Mark(_, _) => if heavy then 1 else 0
    case Unmark(_, _) => if heavy then -1 else 0
    case _ => 0
  }

  lemma CountedTotal(s: Sched, priority: bool, i: nat, heavy: bool)
    requires i < |Get(s, priority).slots|
    ensures Total(Counted(s, priority, i), heavy) == Total(s, heavy) + if heavy then 0 else 1
  {
    var slot := SlotAt(s, priority, i);
    TotalUpdate(s, priority, i, slot.(active := slot.active + 1), heavy);
  }

  lemma OpenTotal(s: Sched, l: Label, heavy: bool)
    requires Valid(s) && Enabled(s, l) && l.Open?
    ensures Total(Step(s, l), heavy) == Total(s, heavy) + Change(l, heavy)
  {
    TotalGrown(s, l.highPriority, heavy);
    GrownShape(s, l.highPriority);
    CountedTotal(Grown(s, l.highPriority), l.priority, l.i, heavy);
  }

  lemma ShrinkTotal(s: Sched, next: Sched, heavy: bool)
    requires multiset(s.priority.slots) == multiset(next.priority.slots)
    requires multiset(s.bulk.slots) == multiset(next.bulk.slots)
    ensures Total(next, heavy) == Total(s, heavy)
  {
    SumPermuted(s.priority.slots, next.priority.slots, heavy);
    SumPermuted(s.bulk.slots, next.bulk.slots, heavy);
  }

  lemma RemoveTotal(s: Sched, priority: bool, i: nat, heavy: bool)
    requires Valid(s) && i < Get(s, priority).live
    ensures Total(Put(s, priority, Without(Get(s, priority), i)), heavy) == Total(s, heavy)
  {
    var p := Get(s, priority);
    SwapKeepsMultiset(p.slots, i, p.live - 1);
    SumPermuted(p.slots, Without(p, i).slots, heavy);
  }

  lemma TouchTotal(s: Sched, l: Label, heavy: bool)
    requires Valid(s) && Enabled(s, l) && (l.Finish? || l.Mark? || l.Unmark? || l.Flag?)
    ensures Total(Step(s, l), heavy) == Total(s, heavy) + Change(l, heavy)
  {
    TotalUpdate(s, l.priority, l.i, Touched(SlotAt(s, l.priority, l.i), l), heavy);
  }

  lemma StepTotal(s: Sched, l: Label, heavy: bool)
    requires Valid(s) && Enabled(s, l)
    ensures Total(Step(s, l), heavy) == Total(s, heavy) + Change(l, heavy)
  {
    match l {
      case Open(_, _, _) => OpenTotal(s, l, heavy);
      case Grow(hp) => TotalGrown(s, hp, heavy);
      case Pick(_, priority, i) => CountedTotal(s, priority, i, heavy);
      case Shrink(next) => ShrinkTotal(s, next, heavy);
      case Remove(priority, i) => RemoveTotal(s, priority, i, heavy);
      case _ => TouchTotal(s, l, heavy);
    }
  }

  function Balance(labels: seq<Label>, n: nat, heavy: bool): int
    requires n <= |labels|
  {
    if n == 0 then 0 else Balance(labels, n - 1, heavy) + Change(labels[n - 1], heavy)
  }

  lemma {:induction false} SumOfIdle(slots: seq<Slot>, heavy: bool)
    requires forall i :: 0 <= i < |slots| ==> slots[i].active == 0 == slots[i].heavy
    ensures Sum(slots, heavy) == 0
    decreases |slots|
  {
    if slots != [] {
      SumOfIdle(slots[..|slots| - 1], heavy);
    }
  }

  lemma IdleTotal(s: Sched, heavy: bool)
    requires Inv(s) && s.priority.live == 0 == s.bulk.live
    ensures Total(s, heavy) == 0
  {
    assert IdleOutside(Get(s, true)) && HeavyBounded(Get(s, true));
    assert IdleOutside(Get(s, false)) && HeavyBounded(Get(s, false));
    SumOfIdle(s.priority.slots, heavy);
    SumOfIdle(s.bulk.slots, heavy);
  }

  /** At every point of every run the slots of both pools together count as many active streams as were opened and not
      finished, and as many heavy ones as were marked and not unmarked. */
  lemma {:induction false} StreamsAreConserved(states: seq<Sched>, labels: seq<Label>, i: nat, heavy: bool)
    requires Run(states, labels) && i < |states|
    ensures Total(states[i], heavy) == Balance(labels, i, heavy)
  {
    if i == 0 {
      IdleTotal(states[0], heavy);
    } else {
      StreamsAreConserved(states, labels, i - 1, heavy);
      assert Follows(states[i - 1], labels[i - 1], states[i - 1 + 1]);
      StepTotal(states[i - 1], labels[i - 1], heavy);
    }
  }
}
