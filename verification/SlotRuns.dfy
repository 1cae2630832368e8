/** Every run of the slot scheduler: streams opening and finishing, heavy marks, rotation flags, shrinking and removal
    (transport/http2/scheduler.go, transport/http2/client.go). */
module SlotRuns {
  import opened Options
  import opened Scheduler
  import opened SlotPools

  datatype Label =
    | Open(highPriority: bool, priority: bool, i: nat)      // grow, then pick and count, as one step
    | Grow(highPriority: bool)                              // the same two sections as separate steps
    | Pick(highPriority: bool, priority: bool, i: nat)
    | Finish(priority: bool, i: nat)
    | Mark(priority: bool, i: nat) | Unmark(priority: bool, i: nat)
    | Flag(priority: bool, i: nat, expiring: bool, degraded: bool)
    | Shrink(next: Sched)
    | Remove(priority: bool, i: nat)

  predicate Split(l: Label) {
    l.Grow? || l.Pick?
  }

  function SlotAt(s: Sched, priority: bool, i: nat): Slot
    requires i < |Get(s, priority).slots|
  {
    Get(s, priority).slots[i]
  }

  function Update(s: Sched, priority: bool, i: nat, slot: Slot): Sched
    requires i < |Get(s, priority).slots|
  {
    var p := Get(s, priority);
    Put(s, priority, p.(slots := p.slots[i := slot]))
  }

  /** slot.active.Add(1) */
  function Counted(s: Sched, priority: bool, i: nat): Sched
    requires i < |Get(s, priority).slots|
  {
    Update(s, priority, i, SlotAt(s, priority, i).(active := SlotAt(s, priority, i).active + 1))
  }

  /** A stream finishes only once its heavy mark is gone, and only a stream of the slot can be marked. */
  ghost predicate Enabled(s: Sched, l: Label)
    requires Valid(s)
  {
    match l
    case Open(hp, priority, i) =>
      Valid(Grown(s, hp)) && i < |Get(s, priority).slots| && Picks(Grown(s, hp), hp, priority, i)
    case Grow(_) => true
    case Pick(hp, priority, i) => i < |Get(s, priority).slots| && Picks(s, hp, priority, i)
    case Finish(priority, i) =>
      i < |Get(s, priority).slots| && SlotAt(s, priority, i).heavy < SlotAt(s, priority, i).active
    case Mark(priority, i) =>
      i < |Get(s, priority).slots| && SlotAt(s, priority, i).heavy < SlotAt(s, priority, i).active
    case Unmark(priority, i) => i < |Get(s, priority).slots| && SlotAt(s, priority, i).heavy > 0
    case Flag(priority, i, _, _) => i < |Get(s, priority).slots|
    case Shrink(next) =>
      && DropsOnlyIdle(s.priority, next.priority) && DropsOnlyIdle(s.bulk, next.bulk)
      && AllBusy(next.priority) && AllBusy(next.bulk)
    case Remove(priority, i) => i < Get(s, priority).live && SlotAt(s, priority, i).active == 0
  }

  /** The next value of the one slot that a step of its streams or of the health loop changes. */
  function Touched(slot: Slot, l: Label): Slot
    requires l.Finish? ==> slot.active > 0
    requires l.Unmark? ==> slot.heavy > 0
  {
    if l.Finish? then slot.(active := slot.active - 1)
    else if l.Mark? then slot.(heavy := slot.heavy + 1)
    else if l.Unmark? then slot.(heavy := slot.heavy - 1)
    else if l.Flag? then slot.(expiring := l.expiring, degraded := l.degraded)
    else slot
  }

  ghost function Step(s: Sched, l: Label): Sched
    requires Valid(s) && Enabled(s, l)
  {
    match l
    case Open(hp, priority, i) => GrownShape(s, hp); Counted(Grown(s, hp), priority, i)
    case Grow(hp) => Grown(s, hp)
    case Pick(_, priority, i) => Counted(s, priority, i)
    case Finish(priority, i) => Update(s, priority, i, Touched(SlotAt(s, priority, i), l))
    case Mark(priority, i) => Update(s, priority, i, Touched(SlotAt(s, priority, i), l))
    case Unmark(priority, i) => Update(s, priority, i, Touched(SlotAt(s, priority, i), l))
    case Flag(priority, i, _, _) => Update(s, priority, i, Touched(SlotAt(s, priority, i), l))
    case Shrink(next) => next
    case Remove(priority, i) => Put(s, priority, Without(Get(s, priority), i))
  }

  // ---------------------------------------------------------------- the same slots

  function Ids(slots: seq<Slot>): seq<nat> {
    seq(|slots|, i requires 0 <= i < |slots| => slots[i].id)
  }

  function Drop(b: seq<Slot>, k: nat): seq<Slot>
    requires k < |b|
  {
    b[..k] + b[k + 1..]
  }

  lemma DropOne(b: seq<Slot>, k: nat)
    requires k < |b|
    ensures multiset(b) == multiset(Drop(b, k)) + multiset{b[k]}
  {
    assert b == b[..k] + [b[k]] + b[k + 1..];
  }

  lemma DropOneId(b: seq<Slot>, k: nat)
    requires k < |b|
    ensures multiset(Ids(b)) == multiset(Ids(Drop(b, k))) + multiset{b[k].id}
  {
    assert Ids(b) == Ids(b)[..k] + [b[k].id] + Ids(b)[k + 1..];
    assert Ids(Drop(b, k)) == Ids(b)[..k] + Ids(b)[k + 1..];
  }

  lemma {:induction false} PermutedIds(a: seq<Slot>, b: seq<Slot>)
    requires multiset(a) == multiset(b)
    ensures multiset(Ids(a)) == multiset(Ids(b))
    decreases |a|
  {
    assert |multiset(a)| == |multiset(b)|;
    if a != [] {
      assert a[0] in multiset(b);
      var k :| 0 <= k < |b| && b[k] == a[0];
      DropOne(a, 0);
      DropOne(b, k);
      assert multiset(Drop(a, 0)) == multiset(a) - multiset{a[0]} == multiset(Drop(b, k));
      PermutedIds(Drop(a, 0), Drop(b, k));
      DropOneId(a, 0);
      DropOneId(b, k);
    }
  }

  /** Pool `q` has the slots of `p`, in some order, with the same limits. */
  ghost predicate SamePool(p: Pool, q: Pool) {
    multiset(Ids(p.slots)) == multiset(Ids(q.slots)) && |p.slots| == |q.slots| && p.max == q.max && p.base == q.base
  }

  /** The ids of the slots that may be given to streams. */
  function LiveIds(p: Pool): set<nat>
    requires p.live <= |p.slots|
  {
    set i | 0 <= i < p.live :: p.slots[i].id
  }

  function BusyIds(p: Pool): set<nat>
    requires p.live <= |p.slots|
  {
    set i | 0 <= i < p.live && p.slots[i].active > 0 :: p.slots[i].id
  }

  /** What every step does to one pool: same slots, and no busy slot leaves the live prefix. */
  ghost predicate Evolves(p: Pool, q: Pool) {
    && SamePool(p, q) && p.live <= |p.slots| && q.live <= |q.slots|
    && BusyIds(p) <= LiveIds(q)
  }

  lemma UpdateEvolves(p: Pool, i: nat, slot: Slot)
    requires i < |p.slots| && p.live <= |p.slots| && slot.id == p.slots[i].id
    ensures Evolves(p, p.(slots := p.slots[i := slot])) && LiveIds(p) == LiveIds(p.(slots := p.slots[i := slot]))
  {
    var q := p.(slots := p.slots[i := slot]);
    assert Ids(q.slots) == Ids(p.slots);
    SameLive(p, q);
  }

  lemma SameLive(p: Pool, q: Pool)
    requires Ids(p.slots) == Ids(q.slots) && p.live <= q.live <= |p.slots|
    ensures LiveIds(p) <= LiveIds(q) && BusyIds(p) <= LiveIds(p) && (p.live == q.live ==> LiveIds(p) == LiveIds(q))
  {
    assert forall i :: 0 <= i < |p.slots| ==> Ids(p.slots)[i] == p.slots[i].id;
    assert forall i :: 0 <= i < |q.slots| ==> Ids(q.slots)[i] == q.slots[i].id;
  }

  lemma ActivatedEvolves(p: Pool)
    requires p.live < p.max == |p.slots|
    ensures Evolves(p, Activated(p))
  {
    assert Ids(Activated(p).slots) == Ids(p.slots);
    SameLive(p, Activated(p));
  }

  lemma DropEvolves(p: Pool, q: Pool)
    requires DropsOnlyIdle(p, q)
    ensures Evolves(p, q)
  {
    PermutedIds(p.slots, q.slots);
    forall id | id in BusyIds(p)
      ensures id in LiveIds(q)
    {
      var i :| 0 <= i < p.live && p.slots[i].active > 0 && p.slots[i].id == id;
      assert Live(p)[i] == p.slots[i];
      BusyStaysLive(p, q, p.slots[i]);
      var k :| 0 <= k < |Live(q)| && Live(q)[k] == p.slots[i];
      assert q.slots[k].id == id;
    }
  }

  lemma GrownShape(s: Sched, hp: bool)
    requires Valid(s)
    ensures forall b :: |Get(Grown(s, hp), b).slots| == |Get(s, b).slots|
    ensures Evolves(s.priority, Grown(s, hp).priority) && Evolves(s.bulk, Grown(s, hp).bulk)
    ensures forall b :: LiveIds(Get(s, b)) <= LiveIds(Get(Grown(s, hp), b))
  {
    var target := GrowTarget(s, hp);
    SameLive(s.priority, s.priority);
    SameLive(s.bulk, s.bulk);
    if target.Some? {
      var p := Get(s, target.value);
      ActivatedEvolves(p);
      assert Ids(Activated(p).slots) == Ids(p.slots);
      SameLive(p, Activated(p));
    }
  }

  lemma PutEvolves(s: Sched, priority: bool, q: Pool)
    requires Valid(s) && Evolves(Get(s, priority), q)
    ensures Evolves(s.priority, Put(s, priority, q).priority) && Evolves(s.bulk, Put(s, priority, q).bulk)
  {
    SameLive(s.priority, s.priority);
    SameLive(s.bulk, s.bulk);
  }

  lemma UpdateKeeps(s: Sched, priority: bool, i: nat, slot: Slot)
    requires Valid(s) && i < |Get(s, priority).slots| && slot.id == SlotAt(s, priority, i).id
    ensures Evolves(s.priority, Update(s, priority, i, slot).priority)
    ensures Evolves(s.bulk, Update(s, priority, i, slot).bulk)
  {
    UpdateEvolves(Get(s, priority), i, slot);
    PutEvolves(s, priority, Get(Update(s, priority, i, slot), priority));
  }

  lemma ThenSameLive(p: Pool, q: Pool, r: Pool)
    requires Evolves(p, q) && SamePool(q, r) && r.live <= |r.slots| && LiveIds(q) == LiveIds(r)
    ensures Evolves(p, r)
  {
  }

  lemma OpenEvolves(s: Sched, l: Label)
    requires Valid(s) && Enabled(s, l) && l.Open?
    ensures Evolves(s.priority, Step(s, l).priority) && Evolves(s.bulk, Step(s, l).bulk)
  {
    var g := Grown(s, l.highPriority);
    GrownShape(s, l.highPriority);
    CountThen(s, g, l.priority, l.i);
  }

  lemma CountThen(s: Sched, g: Sched, priority: bool, i: nat)
    requires Evolves(s.priority, g.priority) && Evolves(s.bulk, g.bulk) && i < |Get(g, priority).slots|
    ensures Evolves(s.priority, Counted(g, priority, i).priority) && Evolves(s.bulk, Counted(g, priority, i).bulk)
  {
    var slot := SlotAt(g, priority, i);
    UpdateEvolves(Get(g, priority), i, slot.(active := slot.active + 1));
    ThenSameLive(Get(s, priority), Get(g, priority), Get(Counted(g, priority, i), priority));
  }

  /** With Open as one step or two, every step keeps each pool's slots and limits, 0 <= live <= max, and every busy slot
      of a live prefix in that prefix. */
  lemma StepEvolves(s: Sched, l: Label)
    requires Valid(s) && Enabled(s, l)
    ensures Evolves(s.priority, Step(s, l).priority) && Evolves(s.bulk, Step(s, l).bulk)
  {
    if l.Open? {
      OpenEvolves(s, l);
    } else if l.Grow? {
      GrownShape(s, l.highPriority);
    } else if l.Shrink? {
      DropEvolves(s.priority, l.next.priority);
      DropEvolves(s.bulk, l.next.bulk);
    } else if l.Remove? {
      WithoutDropsOnlyIdle(Get(s, l.priority), l.i);
      DropEvolves(Get(s, l.priority), Without(Get(s, l.priority), l.i));
      PutEvolves(s, l.priority, Without(Get(s, l.priority), l.i));
    } else {
      UpdateKeeps(s, l.priority, l.i, Get(Step(s, l), l.priority).slots[l.i]);
    }
  }

  // ---------------------------------------------------------------- idle outside the live prefix

  predicate IdleOutside(p: Pool) {
    forall i :: p.live <= i < |p.slots| ==> p.slots[i].active == 0
  }

  predicate HeavyBounded(p: Pool) {
    forall i :: 0 <= i < |p.slots| ==> p.slots[i].heavy <= p.slots[i].active
  }

  predicate Inv(s: Sched) {
    Valid(s) && forall b :: IdleOutside(Get(s, b)) && HeavyBounded(Get(s, b))
  }

  lemma ActivatedInv(p: Pool)
    requires ValidPool(p) && p.live < p.max && IdleOutside(p) && HeavyBounded(p)
    ensures ValidPool(Activated(p)) && IdleOutside(Activated(p))
    ensures HeavyBounded(Activated(p)) && !Saturated(Activated(p))
  {
    var q := Activated(p);
    HealthyRoomIsLevelZero(q, p.live);
  }

  lemma GrownInv(s: Sched, hp: bool)
    requires Inv(s)
    ensures Inv(Grown(s, hp))
    ensures GrowTarget(s, hp).Some? ==>
              !Saturated(Get(Grown(s, hp), GrowTarget(s, hp).value)) &&
                  Get(Grown(s, hp), GrowTarget(s, hp).value).live > 0
  {
    var target := GrowTarget(s, hp);
    assert forall b :: ValidPool(Get(s, b));
    if target.Some? {
      assert IdleOutside(Get(s, target.value)) && HeavyBounded(Get(s, target.value));
      ActivatedInv(Get(s, target.value));
      assert IdleOutside(Get(s, !target.value)) && HeavyBounded(Get(s, !target.value));
    }
  }

  lemma DropInv(p: Pool, q: Pool)
    requires DropsOnlyIdle(p, q) && ValidPool(p) && IdleOutside(p) && HeavyBounded(p)
    ensures ValidPool(q) && IdleOutside(q) && HeavyBounded(q)
  {
    forall i | 0 <= i < |q.slots|
      ensures Small(q.slots[i]) && q.slots[i].heavy <= q.slots[i].active && (i >= q.live ==> q.slots[i].active == 0)
    {
      assert q.slots[i] in multiset(p.slots);
      var k :| 0 <= k < |p.slots| && p.slots[k] == q.slots[i];
      if i >= p.live {
        assert q.slots[i] == q.slots[p.live..][i - p.live] == p.slots[i];
      }
    }
  }

  // ---------------------------------------------------------------- picking

  /** Both pools are at their maximum size and have no room left. */
  ghost predicate Full(s: Sched)
    requires Valid(s)
  {
    forall b :: Get(s, b).live == Get(s, b).max && (Get(s, b).max > 0 ==> Saturated(Get(s, b)))
  }

  /** When pick finds its slot in a live prefix, exactly. Between the two sections of Open a shrink can empty a pool,
      and then it is handed slots[0]. */
  lemma PickIsLive(s: Sched, hp: bool, priority: bool, i: nat)
    requires Valid(s) && Picks(s, hp, priority, i)
    ensures var home := Home(s, hp);
            i < Get(s, priority).live <==>
            Get(s, home).live > 0 &&
            !(Saturated(Get(s, home)) && Get(s, !home).max > 0 && Get(s, !home).live == 0)
  {
    var home := Home(s, hp);
    assert Get(s, home).max > 0;
    var c, d :|
      && SelectsChoice(Get(s, home), c) && SelectsChoice(Get(s, !home), d)
      && c.index < |Get(s, home).slots| && (Get(s, !home).max > 0 ==> d.index < |Get(s, !home).slots|)
      && if Borrow(Get(s, home), c, Get(s, !home), d) then priority == !home && i == d.index
         else priority == home && i == c.index;
    SelectsInside(Get(s, home), c);
    if Get(s, !home).max > 0 {
      SelectsInside(Get(s, !home), d);
    }
  }

  /** After grow, the home pool is unsaturated, or both pools are full, or the sibling has room. */
  lemma GrowMakesRoom(s: Sched, hp: bool)
    requires Inv(s)
    ensures var g, home := Grown(s, hp), Home(s, hp);
            && Inv(g) && Get(g, home).live > 0
            && (Saturated(Get(g, home)) ==> Full(g) || (Get(g, !home).live > 0 && !Saturated(Get(g, !home))))
            && (Full(g) <==> Full(s))
  {
    var g, home := Grown(s, hp), Home(s, hp);
    GrownInv(s, hp);
    assert ValidPool(Get(s, home)) && ValidPool(Get(s, !home));
    match GrowTarget(s, hp) {
      case None =>
        if Saturated(Get(s, home)) {
          FullBoth(s, home);
        }
      case Some(target) =>
        NotFull(g, target);
        NotFull(s, target);
    }
  }

  lemma NotFull(s: Sched, b: bool)
    requires Valid(s) && (Get(s, b).live < Get(s, b).max || (Get(s, b).max > 0 && !Saturated(Get(s, b))))
    ensures !Full(s)
  {
  }

  lemma FullBoth(s: Sched, home: bool)
    requires Valid(s) && Get(s, home).live == Get(s, home).max && Saturated(Get(s, home))
    ensures (Get(s, !home).live == Get(s, !home).max && (Get(s, !home).max > 0 ==> Saturated(Get(s, !home)))) ==>
              Full(s)
  {
  }

  /** Open always returns a live slot, and one over its tier's capacity exactly when both pools were at their maximum
      size and saturated. */
  lemma OpenIsLive(s: Sched, l: Label)
    requires Inv(s) && Enabled(s, l) && l.Open?
    ensures var p := Get(Grown(s, l.highPriority), l.priority);
            ValidPool(p) && l.i < p.live && (UnderCap(p, l.i) <==> !Full(s))
  {
    var g, home := Grown(s, l.highPriority), Home(s, l.highPriority);
    GrowMakesRoom(s, l.highPriority);
    PickIsLive(g, l.highPriority, l.priority, l.i);
    PickedCapacity(g, l.highPriority, l.priority, l.i);
  }

  lemma PickedCapacity(g: Sched, hp: bool, priority: bool, i: nat)
    requires Inv(g) && Picks(g, hp, priority, i)
    requires Get(g, Home(g, hp)).live > 0
    requires Saturated(Get(g, Home(g, hp))) ==>
               Full(g) || (Get(g, !Home(g, hp)).live > 0 && !Saturated(Get(g, !Home(g, hp))))
    ensures i < Get(g, priority).live && (UnderCap(Get(g, priority), i) <==> !Full(g))
  {
    var home := Home(g, hp);
    var p, o := Get(g, home), Get(g, !home);
    var c, d :|
      && SelectsChoice(p, c) && SelectsChoice(o, d)
      && c.index < |p.slots| && (o.max > 0 ==> d.index < |o.slots|)
      && if Borrow(p, c, o, d) then priority == !home && i == d.index else priority == home && i == c.index;
    SelectsInside(p, c);
    if Full(g) {
      assert Saturated(p);
    }
  }

  /** When both pools are full, the slot that Open returns carries no more weighted load than any usable slot. */
  lemma OpenIsLeastLoaded(s: Sched, l: Label, b: bool, j: nat)
    requires Inv(s) && Enabled(s, l) && l.Open? && Full(s)
    requires j < Get(s, b).live && Usable(SlotAt(s, b, j))
    ensures Grown(s, l.highPriority) == s
    ensures WeightedActive(SlotAt(s, l.priority, l.i)) <= WeightedActive(SlotAt(s, b, j))
  {
    var home := Home(s, l.highPriority);
    var p, o := Get(s, home), Get(s, !home);
    assert Saturated(p) && p.live == p.max && o.live == o.max;
    assert Grown(s, l.highPriority) == s;
    var c, d :|
      && SelectsChoice(p, c) && SelectsChoice(o, d)
      && c.index < |p.slots| && (o.max > 0 ==> d.index < |o.slots|)
      && if Borrow(p, c, o, d) then l.priority == !home && l.i == d.index else l.priority == home && l.i == c.index;
    if b == home {
      assert SomeUsable(p.slots, p.live) && LeastUsable(p.slots, p.live, c.index);
    } else {
      assert SomeUsable(o.slots, o.live) && LeastUsable(o.slots, o.live, d.index);
    }
  }

  // ---------------------------------------------------------------- runs

  /** `s'` follows from `s` by `l`; every counter stays small enough for int32 weights. */
  ghost predicate Follows(s: Sched, l: Label, s': Sched) {
    Valid(s) && Enabled(s, l) && s' == Step(s, l) && Valid(s')
  }

  /** A finite execution from two idle pools. */
  ghost predicate Run(states: seq<Sched>, labels: seq<Label>) {
    && |states| == |labels| + 1 && (forall i :: 0 <= i < |states| ==> Valid(states[i]))
    && Inv(states[0]) && states[0].priority.live == 0 == states[0].bulk.live
    && forall i :: 0 <= i < |labels| ==> Follows(states[i], labels[i], states[i + 1])
  }

  /** With Open as one step the slots outside the live prefix stay idle. */
  lemma StepKeepsInv(s: Sched, l: Label)
    requires Inv(s) && Enabled(s, l) && !Split(l) && Valid(Step(s, l))
    ensures Inv(Step(s, l))
  {
    if l.Open? {
      GrownInv(s, l.highPriority);
      OpenIsLive(s, l);
      CountedInv(Grown(s, l.highPriority), l.priority, l.i);
    } else if l.Shrink? {
      assert IdleOutside(Get(s, true)) && HeavyBounded(Get(s, true));
      assert IdleOutside(Get(s, false)) && HeavyBounded(Get(s, false));
      DropInv(s.priority, l.next.priority);
      DropInv(s.bulk, l.next.bulk);
    } else if l.Remove? {
      assert IdleOutside(Get(s, l.priority)) && HeavyBounded(Get(s, l.priority));
      assert IdleOutside(Get(s, !l.priority)) && HeavyBounded(Get(s, !l.priority));
      WithoutDropsOnlyIdle(Get(s, l.priority), l.i);
      DropInv(Get(s, l.priority), Without(Get(s, l.priority), l.i));
    } else {
      UpdateInv(s, l);
    }
  }

  lemma CountedInv(g: Sched, priority: bool, i: nat)
    requires Inv(g) && i < Get(g, priority).live && Valid(Counted(g, priority, i))
    ensures Inv(Counted(g, priority, i))
  {
    var slot := SlotAt(g, priority, i);
    assert HeavyBounded(Get(g, priority));
    SlotUpdateInv(g, priority, i, slot.(active := slot.active + 1));
  }

  lemma SlotUpdateInv(s: Sched, priority: bool, i: nat, slot: Slot)
    requires Inv(s) && i < |Get(s, priority).slots| && Valid(Update(s, priority, i, slot))
    requires slot.heavy <= slot.active && (i < Get(s, priority).live || slot.active == 0)
    ensures Inv(Update(s, priority, i, slot))
  {
    assert IdleOutside(Get(s, priority)) && HeavyBounded(Get(s, priority));
    assert IdleOutside(Get(s, !priority)) && HeavyBounded(Get(s, !priority));
  }

  lemma UpdateInv(s: Sched, l: Label)
    requires Inv(s) && Enabled(s, l) && (l.Finish? || l.Mark? || l.Unmark? || l.Flag?) && Valid(Step(s, l))
    ensures Inv(Step(s, l))
  {
    assert IdleOutside(Get(s, l.priority)) && HeavyBounded(Get(s, l.priority));
    assert Step(s, l) == Update(s, l.priority, l.i, Touched(SlotAt(s, l.priority, l.i), l));
    SlotUpdateInv(s, l.priority, l.i, Touched(SlotAt(s, l.priority, l.i), l));
  }

  lemma {:induction false} RunKeepsInv(states: seq<Sched>, labels: seq<Label>, i: nat)
    requires Run(states, labels) && i < |states| && forall k :: 0 <= k < |labels| ==> !Split(labels[k])
    ensures Inv(states[i])
  {
    if i > 0 {
      RunKeepsInv(states, labels, i - 1);
      assert Follows(states[i - 1], labels[i - 1], states[i - 1 + 1]);
      StepKeepsInv(states[i - 1], labels[i - 1]);
    }
  }

  /** Over any run, split or not, each pool keeps its slots and limits. */
  lemma {:induction false} PoolsKeepTheirSlots(states: seq<Sched>, labels: seq<Label>, i: nat)
    requires Run(states, labels) && i < |states|
    ensures SamePool(states[0].priority, states[i].priority) && SamePool(states[0].bulk, states[i].bulk)
    ensures states[i].priority.live <= states[i].priority.max && states[i].bulk.live <= states[i].bulk.max
  {
    if i > 0 {
      PoolsKeepTheirSlots(states, labels, i - 1);
      assert Follows(states[i - 1], labels[i - 1], states[i - 1 + 1]);
      StepEvolves(states[i - 1], labels[i - 1]);
    }
  }

  /** The claims about Open at every point of every run that takes it as one step. */
  lemma OpenOverRuns(states: seq<Sched>, labels: seq<Label>, i: nat)
    requires Run(states, labels) && i < |labels| && labels[i].Open?
    requires forall k :: 0 <= k < |labels| ==> !Split(labels[k])
    ensures var s, l := states[i], labels[i];
            var p := Get(Grown(s, l.highPriority), l.priority);
            && IdleOutside(s.priority) && IdleOutside(s.bulk)
            && ValidPool(p) && l.i < p.live && (UnderCap(p, l.i) <==> !Full(s))
  {
    RunKeepsInv(states, labels, i);
    assert IdleOutside(Get(states[i], true)) && IdleOutside(Get(states[i], false));
    assert Follows(states[i], labels[i], states[i + 1]);
    OpenIsLive(states[i], labels[i]);
  }

  // ---------------------------------------------------------------- the gap between grow and pick

  /** The condition of PickIsLive: the home pool is live, and a saturated one has no empty sibling to borrow from. */
  ghost predicate PickGuard(s: Sched, l: Label)
    requires Valid(s)
  {
    l.Pick? ==>
      var home := Home(s, l.highPriority);
      Get(s, home).live > 0 && !(Saturated(Get(s, home)) && Get(s, !home).max > 0 && Get(s, !home).live == 0)
  }

  lemma PickOutsideIsBusy(s: Sched, priority: bool, i: nat)
    requires Get(s, priority).live <= i < |Get(s, priority).slots|
    ensures !IdleOutside(Get(Counted(s, priority, i), priority))
  {
    var p := Get(Counted(s, priority, i), priority);
    assert p.slots[i].active > 0;
  }

  /** With grow and pick as separate steps, a step keeps the slots outside the live prefix idle exactly when it is no
      pick without a live slot. */
  lemma StepKeepsInvExactly(s: Sched, l: Label)
    requires Inv(s) && Enabled(s, l) && Valid(Step(s, l))
    ensures Inv(Step(s, l)) <==> PickGuard(s, l)
  {
    if l.Grow? {
      GrownInv(s, l.highPriority);
    } else if l.Pick? {
      PickIsLive(s, l.highPriority, l.priority, l.i);
      if l.i < Get(s, l.priority).live {
        CountedInv(s, l.priority, l.i);
      } else {
        PickOutsideIsBusy(s, l.priority, l.i);
      }
    } else {
      StepKeepsInv(s, l);
    }
  }

  /** Over whole runs: slots outside the live prefix are idle at every point if and only if every pick finds a live
      slot. */
  lemma IdleExactlyWhenGuarded(states: seq<Sched>, labels: seq<Label>)
    requires Run(states, labels)
    ensures (forall i :: 0 <= i < |states| ==> Inv(states[i])) <==>
            (forall i :: 0 <= i < |labels| ==> PickGuard(states[i], labels[i]))
  {
    if forall i :: 0 <= i < |labels| ==> PickGuard(states[i], labels[i]) {
      forall i | 0 <= i < |states|
        ensures Inv(states[i])
      {
        GuardedIsIdle(states, labels, i);
      }
    }
    if forall i :: 0 <= i < |states| ==> Inv(states[i]) {
      forall i | 0 <= i < |labels|
        ensures PickGuard(states[i], labels[i])
      {
        assert Inv(states[i]) && Inv(states[i + 1]) && Follows(states[i], labels[i], states[i + 1]);
        StepKeepsInvExactly(states[i], labels[i]);
      }
    }
  }

  lemma {:induction false} GuardedIsIdle(states: seq<Sched>, labels: seq<Label>, i: nat)
    requires Run(states, labels) && i < |states|
    requires forall j :: 0 <= j < |labels| ==> PickGuard(states[j], labels[j])
    ensures Inv(states[i])
    decreases i
  {
    if i > 0 {
      GuardedIsIdle(states, labels, i - 1);
      assert Follows(states[i - 1], labels[i - 1], states[i - 1 + 1]) && PickGuard(states[i - 1], labels[i - 1]);
      StepKeepsInvExactly(states[i - 1], labels[i - 1]);
    }
  }

  function TwoSlots(live: nat, active: nat): Sched {
    Sched(Pool([Slot(0, active, 0, false, false)], live, 1, 4), Pool([Slot(1, 0, 0, false, false)], 0, 1, 8))
  }

  lemma TwoSlotsGrow()
    ensures Inv(TwoSlots(0, 0)) && Follows(TwoSlots(0, 0), Grow(true), TwoSlots(1, 0))
  {
    assert GrowTarget(TwoSlots(0, 0), true) == Some(true);
  }

  lemma TwoSlotsShrink()
    ensures Follows(TwoSlots(1, 0), Shrink(TwoSlots(0, 0)), TwoSlots(0, 0))
  {
    assert TwoSlots(1, 0).priority.slots[..1] == TwoSlots(0, 0).priority.slots[..1];
  }

  lemma TwoSlotsPick()
    ensures Follows(TwoSlots(0, 0), Pick(true, true, 0), TwoSlots(0, 1))
  {
    var s, c := TwoSlots(0, 0), Choice(0, false);
    assert SelectsChoice(s.priority, c) && SelectsChoice(s.bulk, c) && !Borrow(s.priority, c, s.bulk, c);
  }

  lemma NotIdleOutside()
    ensures !IdleOutside(TwoSlots(0, 1).priority)
  {
    assert TwoSlots(0, 1).priority.slots[0].active == 1;
  }

  /** Grow activates the only priority slot, a shrink takes it out again, and pick counts a stream on a slot that is not
      live: with the two sections apart, slots outside the live prefix need not be idle. */
  lemma ShrinkBetweenGrowAndPick() returns (s0: Sched, s1: Sched, s2: Sched)
    ensures Inv(s0) && Follows(s0, Grow(true), s1)
    ensures Follows(s1, Shrink(s0), s0) && Follows(s0, Pick(true, true, 0), s2)
    ensures !IdleOutside(s2.priority)
  {
    TwoSlotsGrow();
    TwoSlotsShrink();
    TwoSlotsPick();
    NotIdleOutside();
    s0, s1, s2 := TwoSlots(0, 0), TwoSlots(1, 0), TwoSlots(0, 1);
  }
}
