/** What levels, capacities, weights and growth mean in terms of the slots themselves (transport/http2/scheduler.go). */
module SchedulerExact {
  import opened Options
  import opened Powers
  import opened Scheduler
  import opened SlotPools

  // ---------------------------------------------------------------- pressure levels

  lemma LevelAtLeast(load: nat, base: nat, k: nat)
    requires base > 0 && k >= 1
    ensures LevelAt(load, base) >= k <==> load >= Pow2(k - 1) * base
  {
    LevelBrackets(load, base);
    var m := LevelAt(load, base);
    if m >= k {
      Pow2Grows(k - 1, m - 1);
      Scaled(Pow2(k - 1), Pow2(m - 1), base);
    } else {
      Pow2Grows(m, k - 1);
      Scaled(Pow2(m), Pow2(k - 1), base);
      Scaled(1, Pow2(k - 1), base);
      Pow2Grows(0, k - 1);
    }
  }

  /** Every live slot of the given tiers has at least `n` streams. */
  predicate AllReach(p: Pool, tiers: set<Tier>, n: nat) {
    p.live <= |p.slots| && forall i :: 0 <= i < p.live && TierOf(p.slots[i]) in tiers ==> p.slots[i].active >= n
  }

  lemma TierIsOneOfAll(s: Slot)
    ensures TierOf(s) in ALL_TIERS
  {
  }

  lemma ReachIsMin(p: Pool, tiers: set<Tier>, n: nat)
    requires ValidPool(p) && HasTier(p.slots, p.live, tiers)
    ensures AllReach(p, tiers, n) <==> MinActive(p.slots, p.live, tiers) >= n
  {
    MinActiveIsMin(p.slots, p.live, tiers);
  }

  lemma MinAboveZero(p: Pool)
    requires ValidPool(p) && p.live > 0
    ensures HasTier(p.slots, p.live, ALL_TIERS) && MinActive(p.slots, p.live, ALL_TIERS) < MAX_INT32
  {
    TierIsOneOfAll(p.slots[0]);
    assert HasTier(p.slots, p.live, ALL_TIERS);
    MinActiveIsMin(p.slots, p.live, ALL_TIERS);
    assert Small(p.slots[0]);
  }

  lemma NoTierWithoutSlots(p: Pool, tiers: set<Tier>)
    requires ValidPool(p) && p.live == 0
    ensures !HasTier(p.slots, p.live, tiers) && MinActive(p.slots, p.live, tiers) == MAX_INT32
  {
  }

  lemma PowerAtLeastOne(k: nat, base: nat)
    requires k >= 1 && base >= 1
    ensures Pow2(k - 1) * base >= base && (k > 1 ==> Pow2(k - 1) * base > base)
    ensures (k == 1 ==> Pow2(k - 1) * base == base)
  {
    Pow2Grows(0, k - 1);
    Scaled(1, Pow2(k - 1), base);
    if k > 1 {
      Pow2Grows(1, k - 1);
      Scaled(2, Pow2(k - 1), base);
    }
  }

  /** The level is at least k >= 1 exactly when every healthy slot has 2^(k-1)·base streams; in a pool without healthy
      slots, level 1 is certain and higher levels need that many streams on every live slot. */
  lemma LevelExactly(p: Pool, k: nat)
    requires ValidPool(p) && k >= 1
    ensures Level(p) >= k <==>
            if HasTier(p.slots, p.live, {Active}) then AllReach(p, {Active}, Pow2(k - 1) * p.base)
            else k == 1 || (p.live > 0 && AllReach(p, ALL_TIERS, Pow2(k - 1) * p.base))
  {
    LoadIsSmall(p);
    LevelAtLeast(LoadOf(p), p.base, k);
    PowerAtLeastOne(k, p.base);
    if HasTier(p.slots, p.live, {Active}) {
      ReachIsMin(p, {Active}, Pow2(k - 1) * p.base);
    } else if p.live > 0 {
      MinAboveZero(p);
      ReachIsMin(p, ALL_TIERS, Pow2(k - 1) * p.base);
    } else {
      NoTierWithoutSlots(p, ALL_TIERS);
    }
  }

  // ---------------------------------------------------------------- capacities

  /** The factors of a slot's weight. */
  function Factor(heavy: bool, expiring: bool, degraded: bool): nat {
    (if heavy then 4 else 1) * (if expiring then 8 else 1) * (if degraded then 16 else 1)
  }

  predicate Healthy(s: Slot) {
    !s.degraded && s.heavy == 0 && !s.expiring
  }

  lemma WeightedWhenBusy(s: Slot)
    requires Small(s) && !Draining(s)
    ensures WeightedActive(s) == s.active * Factor(s.heavy > 0, s.expiring, s.degraded)
  {
    WeightedIsExact(s);
  }

  /** A slot may take a stream in exactly two cases. While some healthy slot has fewer than `base` streams, it is such a
      slot. Otherwise it is marked, but not both degraded and expiring, and not idle with a rotation mark, and its
      streams times the factors of its marks stay below 2^(level-1)·base. */
  lemma UnderCapExactly(p: Pool, i: nat)
    requires ValidPool(p) && i < p.live
    ensures var s := p.slots[i];
            UnderCap(p, i) <==>
            if Level(p) == 0 then Healthy(s) && s.active < p.base
            else
              && !Healthy(s) && !(s.degraded && s.expiring) && !(s.active == 0 && (s.expiring || s.degraded))
              && s.active * Factor(s.heavy > 0, s.expiring, s.degraded) < Pow2(Level(p) - 1) * p.base
  {
    var s := p.slots[i];
    WeightedIsExact(s);
    if Level(p) >= 1 {
      ShiftNeverOverflows(p);
    }
    if !Draining(s) {
      WeightedWhenBusy(s);
    }
  }

  // ---------------------------------------------------------------- severity

  predicate OnlyDegraded(s: Slot) {
    s.degraded && !s.expiring && s.heavy == 0
  }

  predicate HeavyAndExpiring(s: Slot) {
    !s.degraded && s.expiring && s.heavy > 0
  }

  /** The multiplied weights and the added scores order two slots alike unless one is only degraded and the other heavy
      and expiring: 16 against 32, but 16 against 12. */
  lemma SeverityAgreesExactly(a: Slot, b: Slot)
    ensures (SlotWeight(a) < SlotWeight(b) <==> NegativeScore(a) < NegativeScore(b)) <==>
            !(OnlyDegraded(a) && HeavyAndExpiring(b)) && !(HeavyAndExpiring(a) && OnlyDegraded(b))
    ensures SlotWeight(a) == SlotWeight(b) <==> NegativeScore(a) == NegativeScore(b)
    ensures SlotWeight(a) == SlotWeight(b) <==>
            a.degraded == b.degraded && a.expiring == b.expiring && (a.heavy > 0 <==> b.heavy > 0)
  {
  }

  // ---------------------------------------------------------------- the order of selection

  /** The turn of a slot in the search: healthy, expiring, heavy, degraded; degraded and expiring ones have none. */
  function TurnOf(s: Slot): nat {
    if s.degraded then if s.expiring then 4 else 3
    else if s.heavy > 0 then 2
    else if s.expiring then 1
    else 0
  }

  function Penalty(s: Slot): nat {
    (if s.degraded then 16 else 0) + (if s.expiring then 8 else 0) + (if s.heavy > 0 then 4 else 0)
  }

  lemma TurnIsRank(s: Slot)
    ensures Rank(TierOf(s)) == TurnOf(s) && NegativeScore(s) == Penalty(s)
  {
  }

  lemma SameTurn(a: Slot, b: Slot)
    requires TurnOf(a) == TurnOf(b)
    ensures TierOf(a) == TierOf(b)
  {
  }

  /** By `a` and `b` first; if they are level, `tie` decides. */
  predicate Less(a: int, b: int, tie: bool) {
    a < b || (a == b && tie)
  }

  /** A selection with room takes a slot with room, and before every other such slot by turn, then streams, then marks,
      then position. */
  lemma SelectedIsFirst(p: Pool, i: nat, j: nat)
    requires ValidPool(p) && p.live > 0 && Selects(p, i, false) && j < p.live && j != i && UnderCap(p, j)
    ensures i < p.live && UnderCap(p, i)
    ensures var a, b := p.slots[i], p.slots[j];
            Less(TurnOf(a), TurnOf(b), Less(a.active, b.active, Less(Penalty(a), Penalty(b), i < j)))
  {
    TurnIsRank(p.slots[i]);
    TurnIsRank(p.slots[j]);
    if TurnOf(p.slots[i]) == TurnOf(p.slots[j]) {
      SameTurn(p.slots[i], p.slots[j]);
    }
  }

  /** The slot is due for eviction: both marks of rotation, or idle with one. */
  predicate Due(s: Slot) {
    (s.degraded && s.expiring) || (s.active == 0 && (s.expiring || s.degraded))
  }

  /** The streams of a slot, at least one if it is idle with a mark of rotation, times the factors of its marks. */
  function LoadOfSlot(s: Slot): nat {
    (if s.active == 0 && (s.expiring || s.degraded) then 1 else s.active) * Factor(s.heavy > 0, s.expiring, s.degraded)
  }

  lemma LoadIsWeighted(s: Slot)
    requires Small(s)
    ensures WeightedActive(s) == LoadOfSlot(s) && NegativeScore(s) == Penalty(s) && (Usable(s) <==> !Due(s))
  {
    WeightedIsExact(s);
  }

  /** A selection without room takes a slot that is due for eviction only if all are, and before every other candidate
      by load, then marks, then, among slots that are due, busy before idle, then position. */
  lemma FallbackIsFirst(p: Pool, i: nat, j: nat)
    requires ValidPool(p) && p.live > 0 && Selects(p, i, true) && j < p.live && j != i
    ensures i < p.live && (Due(p.slots[i]) ==> Due(p.slots[j]))
    ensures var a, b := p.slots[i], p.slots[j];
            (Due(a) <==> Due(b)) ==>
              Less(LoadOfSlot(a), LoadOfSlot(b), Less(Penalty(a), Penalty(b),
                   if Due(a) && (Draining(a) <==> !Draining(b)) then Draining(b) else i < j))
  {
    var a, b := p.slots[i], p.slots[j];
    LoadIsWeighted(a);
    LoadIsWeighted(b);
    assert Usable(b) ==> SomeUsable(p.slots, p.live);
  }

  // ---------------------------------------------------------------- growth and borrowing

  /** No live slot of the pool may take a stream. */
  ghost predicate NoRoom(p: Pool)
    requires ValidPool(p)
  {
    forall i :: 0 <= i < p.live ==> !UnderCap(p, i)
  }

  /** Growth makes one more slot live, two in an empty pool that has them; what is new has no mark of rotation and keeps
      its streams, and nothing else changes. */
  lemma ActivatedExactly(p: Pool, i: nat)
    requires p.live < p.max == |p.slots| && i < |p.slots|
    ensures var q := Activated(p);
            && q.live == (if p.live == 0 && p.max >= 2 then 2 else p.live + 1)
            && q.max == p.max && q.base == p.base && |q.slots| == |p.slots|
            && q.slots[i] == if p.live <= i < q.live then p.slots[i].(expiring := false, degraded := false)
                             else p.slots[i]
  {
  }

  /** A pool grows only when a stream needs it: the home pool when it has no room and is not full, the sibling when the
      home pool is full and neither has room. In every other case nothing grows. */
  lemma GrowthIsNeeded(s: Sched, highPriority: bool)
    requires Valid(s)
    ensures var home := Home(s, highPriority);
            var p, o := Get(s, home), Get(s, !home);
            && (GrowTarget(s, highPriority) == Some(home) <==> p.live < p.max && NoRoom(p))
            && (GrowTarget(s, highPriority) == Some(!home) <==>
                  p.live == p.max && NoRoom(p) && o.live < o.max && NoRoom(o))
  {
  }

  /** A stream leaves its home pool only when that has no room; it goes to a slot with room or to one that carries
      strictly less than every usable slot at home. */
  lemma LeavesHomeOnlyWhenFull(s: Sched, highPriority: bool, i: nat, j: nat)
    requires Valid(s) && Get(s, Home(s, highPriority)).live > 0 && Get(s, !Home(s, highPriority)).live > 0
    requires Picks(s, highPriority, !Home(s, highPriority), i)
    requires j < Get(s, Home(s, highPriority)).live && Usable(Get(s, Home(s, highPriority)).slots[j])
    ensures var p, o := Get(s, Home(s, highPriority)), Get(s, !Home(s, highPriority));
            && NoRoom(p) && i < o.live
            && (UnderCap(o, i) || WeightedActive(o.slots[i]) < WeightedActive(p.slots[j]))
  {
    var home := Home(s, highPriority);
    var p, o := Get(s, home), Get(s, !home);
    var c, d :|
      && SelectsChoice(p, c) && SelectsChoice(o, d)
      && c.index < |p.slots| && (o.max > 0 ==> d.index < |o.slots|)
      && Borrow(p, c, o, d) && i == d.index;
    assert SomeUsable(p.slots, p.live);
  }
}
