/** The two slot pools: construction, growth, picking with borrowing, and swap-deletion
    (transport/http2/scheduler.go). */
module SlotPools {
  import opened Options
  import opened Scheduler

  /** slotScheduler: the interactive pool and the pool of everything else. */
  datatype Sched = Sched(priority: Pool, bulk: Pool)

  predicate Valid(s: Sched) {
    ValidPool(s.priority) && ValidPool(s.bulk) && s.priority.max >= 1
  }

  /** poolOf: true selects the priority pool. */
  predicate Home(s: Sched, highPriority: bool) {
    highPriority || s.bulk.max == 0
  }

  function Get(s: Sched, priority: bool): Pool {
    if priority then s.priority else s.bulk
  }

  function Put(s: Sched, priority: bool, p: Pool): Sched {
    if priority then s.(priority := p) else s.(bulk := p)
  }

  // ---------------------------------------------------------------- growth

  function Reset(slot: Slot): Slot {
    slot.(expiring := false, degraded := false)
  }

  ghost function GrowTarget(s: Sched, highPriority: bool): Option<bool>
    requires Valid(s)
  {
    var home := Home(s, highPriority);
    var p, o := Get(s, home), Get(s, !home);
    if p.live < p.max then if p.live == 0 || Saturated(p) then Some(home) else None
    else if p.live > 0 && !Saturated(p) then None
    else if o.live < o.max && (o.live == 0 || Saturated(o)) then Some(!home)
    else None
  }

  function Activated(p: Pool): Pool
    requires p.live < p.max == |p.slots|
  {
    if p.live == 0 && p.max >= 2 then
      p.(slots := p.slots[0 := Reset(p.slots[0])][1 := Reset(p.slots[1])], live := 2)
    else p.(slots := p.slots[p.live := Reset(p.slots[p.live])], live := p.live + 1)
  }

  ghost function Grown(s: Sched, highPriority: bool): Sched
    requires Valid(s)
  {
    match GrowTarget(s, highPriority)
    case None => s
    case Some(target) => Put(s, target, Activated(Get(s, target)))
  }

  // ---------------------------------------------------------------- picking

  /** Selection in one pool, with its saturation flag. */
  datatype Choice = Choice(index: nat, saturated: bool)

  ghost predicate SelectsChoice(p: Pool, c: Choice)
    requires ValidPool(p)
  {
    Selects(p, c.index, c.saturated)
  }

  /** What pick does with the choice of the home pool and that of its sibling. */
  function Borrow(home: Pool, c: Choice, other: Pool, d: Choice): (away: bool)
    requires c.index < |home.slots| && (other.max > 0 ==> d.index < |other.slots|)
  {
    c.saturated && other.max > 0 &&
    (!d.saturated || WeightedActive(other.slots[d.index]) < WeightedActive(home.slots[c.index]))
  }

  lemma SelectsInside(p: Pool, c: Choice)
    requires ValidPool(p) && SelectsChoice(p, c) && p.max > 0
    ensures c.index < |p.slots| && (p.live > 0 ==> c.index < p.live)
  {
  }

  /** pick may return slot `index` of pool `priority`. */
  ghost predicate Picks(s: Sched, highPriority: bool, priority: bool, index: nat)
    requires Valid(s)
  {
    var home := Home(s, highPriority);
    exists c, d ::
      && SelectsChoice(Get(s, home), c) && SelectsChoice(Get(s, !home), d)
      && c.index < |Get(s, home).slots| && (Get(s, !home).max > 0 ==> d.index < |Get(s, !home).slots|)
      && if Borrow(Get(s, home), c, Get(s, !home), d) then priority == !home && index == d.index
         else priority == home && index == c.index
  }

  // ---------------------------------------------------------------- removal

  /** removeAtLocked: the slot changes places with the last live one. */
  function Without(p: Pool, i: nat): Pool
    requires i < p.live <= |p.slots|
  {
    var last := p.live - 1;
    p.(slots := p.slots[i := p.slots[last]][last := p.slots[i]], live := last)
  }

  function Live(p: Pool): seq<Slot>
    requires p.live <= |p.slots|
  {
    p.slots[..p.live]
  }

  predicate AllBusy(p: Pool) {
    p.live <= |p.slots| && forall i :: 0 <= i < p.live ==> p.slots[i].active > 0
  }

  ghost predicate SameSlots(a: Pool, b: Pool) {
    multiset(a.slots) == multiset(b.slots) && a.max == b.max && a.base == b.base
  }

  /** Every live slot of `p` that is busy is among the live slots of `q`, and what left the live prefix is idle. */
  ghost predicate DropsOnlyIdle(p: Pool, q: Pool) {
    && SameSlots(p, q) && |q.slots| == |p.slots| && q.live <= p.live <= |p.slots|
    && multiset(Live(p)) == multiset(q.slots[..p.live]) && q.slots[p.live..] == p.slots[p.live..]
    && forall i :: q.live <= i < p.live ==> q.slots[i].active == 0
  }

  lemma SwapKeepsMultiset(s: seq<Slot>, i: nat, j: nat)
    requires i < |s| && j < |s|
    ensures multiset(s[i := s[j]][j := s[i]]) == multiset(s)
  {
  }

  lemma WithoutDropsOnlyIdle(p: Pool, i: nat)
    requires i < p.live <= |p.slots| && p.slots[i].active == 0
    ensures DropsOnlyIdle(p, Without(p, i))
  {
    var q := Without(p, i);
    SwapKeepsMultiset(p.slots, i, p.live - 1);
    SwapKeepsMultiset(p.slots[..p.live], i, p.live - 1);
    assert q.slots[..p.live] == p.slots[..p.live][i := p.slots[p.live - 1]][p.live - 1 := p.slots[i]];
  }

  lemma DropsCompose(p: Pool, q: Pool, r: Pool)
    requires DropsOnlyIdle(p, q) && DropsOnlyIdle(q, r)
    ensures DropsOnlyIdle(p, r)
  {
    assert q.slots[..p.live] == q.slots[..q.live] + q.slots[q.live..p.live];
    assert r.slots[..p.live] == r.slots[..q.live] + r.slots[q.live..p.live];
    assert r.slots[q.live..p.live] == r.slots[q.live..][..p.live - q.live] == q.slots[q.live..p.live];
    assert r.slots[p.live..] == r.slots[q.live..][p.live - q.live..] == q.slots[p.live..];
    forall i | r.live <= i < p.live
      ensures r.slots[i].active == 0
    {
      if i >= q.live {
        assert r.slots[i] == r.slots[q.live..][i - q.live] == q.slots[i];
      }
    }
  }

  /** A busy live slot stays live. */
  lemma BusyStaysLive(p: Pool, q: Pool, slot: Slot)
    requires DropsOnlyIdle(p, q) && slot in Live(p) && slot.active > 0
    ensures slot in Live(q)
  {
    assert slot in multiset(p.slots[..p.live]);
    assert slot in q.slots[..p.live];
    var i :| 0 <= i < p.live && q.slots[i] == slot;
    assert q.slots[..q.live][i] == slot;
  }

  // ---------------------------------------------------------------- the scheduler object

  method NewScheduler(maxSlots: nat, slots: seq<Slot>, threshold: nat, prioritySlots: int) returns (s: Sched)
    requires maxSlots >= 1 && |slots| == maxSlots && 1 <= threshold <= 64
    requires forall i :: 0 <= i < |slots| ==> Small(slots[i])
    ensures Valid(s) && s.priority.live == 0 == s.bulk.live
    ensures s.priority.slots + s.bulk.slots == slots
    ensures maxSlots >= 2 ==> s.bulk.max >= 1
    ensures 1 <= prioritySlots < maxSlots ==> s.priority.max == prioritySlots
    ensures s.priority.base == threshold && s.bulk.base == 2 * threshold
  {
    var pMax := if prioritySlots < maxSlots then prioritySlots else maxSlots;
    if pMax < 1 {
      pMax := 1;
    }
    var bMax := maxSlots - pMax;
    if bMax < 1 {
      if pMax > 1 {
        pMax, bMax := maxSlots - 1, 1;
      } else {
        bMax := 0;
      }
    }
    s := Sched(Pool(slots[..pMax], 0, pMax, threshold), Pool(slots[pMax..], 0, bMax, threshold * 2));
  }

  class SlotScheduler {
    var s: Sched

    constructor (init: Sched)
      ensures s == init
    {
      s := init;
    }

    method SaturatedIn(p: Pool) returns (saturated: bool)
      requires ValidPool(p) && p.live > 0
      ensures saturated == Saturated(p)
    {
      var _, flag := TieredSelect(p);
      saturated := flag;
    }

    method FindGrowTarget(highPriority: bool) returns (target: Option<bool>)
      requires Valid(s)
      ensures target == GrowTarget(s, highPriority)
    {
      var home := Home(s, highPriority);
      var p := Get(s, home);
      if p.live < p.max {
        if p.live == 0 {
          return Some(home);
        }
        var full := SaturatedIn(p);
        return if full then Some(home) else None;
      }
      if p.live > 0 {
        var full := SaturatedIn(p);
        if !full {
          return None;
        }
      }
      var o := Get(s, !home);
      if o.live < o.max {
        if o.live == 0 {
          return Some(!home);
        }
        var full := SaturatedIn(o);
        return if full then Some(!home) else None;
      }
      target := None;
    }

    /** grow, from taking the lock. */
    method Grow(highPriority: bool) returns (target: Option<bool>)
      requires Valid(s)
      modifies this
      ensures target == GrowTarget(old(s), highPriority) && s == Grown(old(s), highPriority)
    {
      target := FindGrowTarget(highPriority);
      if target.Some? {
        s := Put(s, target.value, Activated(Get(s, target.value)));
      }
    }

    method Pick(highPriority: bool) returns (priority: bool, index: nat)
      requires Valid(s)
      ensures Picks(s, highPriority, priority, index)
    {
      var home := Home(s, highPriority);
      var p, o := Get(s, home), Get(s, !home);
      var i, saturated := TieredSelect(p);
      var j, otherSaturated := TieredSelect(o);
      ghost var c, d := Choice(i, saturated), Choice(j, otherSaturated);
      SelectsInside(p, c);
      if o.max > 0 {
        SelectsInside(o, d);
      }
      assert SelectsChoice(p, c) && SelectsChoice(o, d);
      if saturated && o.max > 0 {
        if !otherSaturated || WeightedActive(o.slots[j]) < WeightedActive(p.slots[i]) {
          assert Borrow(p, c, o, d);
          return !home, j;
        }
      }
      assert !Borrow(p, c, o, d);
      priority, index := home, i;
    }

    /** removeIdleLocked: the first idle slot of the live prefix goes. */
    method RemoveIdle(priority: bool) returns (removed: bool)
      requires Get(s, priority).live <= |Get(s, priority).slots|
      modifies this
      ensures Get(s, !priority) == old(Get(s, !priority))
      ensures DropsOnlyIdle(old(Get(s, priority)), Get(s, priority))
      ensures removed ==> Get(s, priority).live == old(Get(s, priority)).live - 1
      ensures !removed ==> s == old(s) && AllBusy(Get(s, priority))
    {
      var p := Get(s, priority);
      var i := 0;
      while i < p.live
        invariant 0 <= i <= p.live && s == old(s) && forall j :: 0 <= j < i ==> p.slots[j].active > 0
      {
        if p.slots[i].active == 0 {
          WithoutDropsOnlyIdle(p, i);
          s := Put(s, priority, Without(p, i));
          return true;
        }
        i := i + 1;
      }
      removed := false;
    }

    method ShrinkPool(priority: bool)
      requires Get(s, priority).live <= |Get(s, priority).slots|
      modifies this
      ensures Get(s, !priority) == old(Get(s, !priority))
      ensures DropsOnlyIdle(old(Get(s, priority)), Get(s, priority))
      ensures AllBusy(Get(s, priority))
    {
      ghost var p := Get(s, priority);
      var more := true;
      while more
        invariant Get(s, !priority) == old(Get(s, !priority)) && DropsOnlyIdle(p, Get(s, priority))
        invariant !more ==> AllBusy(Get(s, priority))
        decreases Get(s, priority).live, more
      {
        ghost var q := Get(s, priority);
        more := RemoveIdle(priority);
        DropsCompose(p, q, Get(s, priority));
      }
    }

    /** shrinkIdleLocked: exactly the busy slots stay live, in both pools. */
    method ShrinkIdle()
      requires Valid(s)
      modifies this
      ensures DropsOnlyIdle(old(s.priority), s.priority) && DropsOnlyIdle(old(s.bulk), s.bulk)
      ensures AllBusy(s.priority) && AllBusy(s.bulk)
    {
      ShrinkPool(true);
      ShrinkPool(false);
    }

    /** remove: a slot goes only while it is idle, and only from a live prefix. */
    method Remove(slot: Slot) returns (removed: bool)
      requires Valid(s)
      modifies this
      ensures DropsOnlyIdle(old(s.priority), s.priority) && DropsOnlyIdle(old(s.bulk), s.bulk)
      ensures removed <==> slot.active == 0 && (slot in Live(old(s.priority)) || slot in Live(old(s.bulk)))
      ensures s.priority.live + s.bulk.live == old(s.priority.live + s.bulk.live) - (if removed then 1 else 0)
    {
      removed := false;
      if slot.active != 0 {
        return;
      }
      removed := RemoveFrom(true, slot);
      if !removed {
        removed := RemoveFrom(false, slot);
      }
    }

    method RemoveFrom(priority: bool, slot: Slot) returns (removed: bool)
      requires Valid(s) && slot.active == 0
      modifies this
      ensures Get(s, !priority) == old(Get(s, !priority)) && DropsOnlyIdle(old(Get(s, priority)), Get(s, priority))
      ensures removed <==> slot in Live(old(Get(s, priority)))
      ensures !removed ==> s == old(s)
      ensures removed ==> Get(s, priority).live == old(Get(s, priority).live) - 1
    {
      var p := Get(s, priority);
      var i := 0;
      while i < p.live
        invariant 0 <= i <= p.live && s == old(s) && forall j :: 0 <= j < i ==> p.slots[j] != slot
      {
        if p.slots[i] == slot {
          assert p.slots[..p.live][i] == slot;
          WithoutDropsOnlyIdle(p, i);
          s := Put(s, priority, Without(p, i));
          return true;
        }
        i := i + 1;
      }
      removed := false;
    }
  }
}
