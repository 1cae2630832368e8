/** Connection slots, pressure levels and selection (transport/http2/scheduler.go). A selection works on one snapshot of
    the slots' counters and flags. */
module Scheduler {
  import opened Options
  import opened Powers

  const MAX_INT32 := 0x7fff_ffff

  /** int32 arithmetic wraps around. */
  function Wrap32(n: int): int {
    (n + 0x8000_0000) % 0x1_0000_0000 - 0x8000_0000
  }

  lemma WrapFits(n: int)
    requires 0 <= n <= MAX_INT32
    ensures Wrap32(n) == n
  {
  }

  datatype Slot = Slot(id: nat, active: nat, heavy: nat, expiring: bool, degraded: bool)

  datatype Tier = Active | Expiring | Heavy | Degraded | Retiring

  function TierOf(s: Slot): Tier {
    if s.degraded && s.expiring then Retiring
    else if s.degraded then Degraded
    else if s.heavy > 0 then Heavy
    else if s.expiring then Expiring
    else Active
  }

  /** The order in which selection looks at the tiers. */
  function Rank(t: Tier): nat {
    match t case Active => 0 case Expiring => 1 case Heavy => 2 case Degraded => 3 case Retiring => 4
  }

  const WEIGHT_HEAVY := 4
  const WEIGHT_EXPIRING := 8
  const WEIGHT_DEGRADED := 16

  function NegativeScore(s: Slot): (r: nat)
    ensures r <= WEIGHT_DEGRADED + WEIGHT_HEAVY + WEIGHT_EXPIRING
  {
    (if s.degraded then WEIGHT_DEGRADED else 0) + (if s.heavy > 0 then WEIGHT_HEAVY else 0) +
    (if s.expiring then WEIGHT_EXPIRING else 0)
  }

  function SlotWeight(s: Slot): (r: nat)
    ensures 1 <= r <= 512
  {
    var w := if s.heavy > 0 then WEIGHT_HEAVY else 1;
    var w' := if s.expiring then w * WEIGHT_EXPIRING else w;
    if s.degraded then w' * WEIGHT_DEGRADED else w'
  }

  predicate Draining(s: Slot) {
    s.active == 0 && (s.expiring || s.degraded)
  }

  /** An idle slot that awaits eviction weighs as much as one stream. */
  function WeightedActive(s: Slot): int {
    Wrap32((if Draining(s) then 1 else s.active) * SlotWeight(s))
  }

  /** The counter is small enough that the largest weight does not leave int32. */
  predicate Small(s: Slot) {
    s.active * 512 <= MAX_INT32
  }

  lemma WeightedIsExact(s: Slot)
    requires Small(s)
    ensures WeightedActive(s) == (if Draining(s) then 1 else s.active) * SlotWeight(s)
    ensures s.active <= WeightedActive(s) <= MAX_INT32
  {
    var n := if Draining(s) then 1 else s.active;
    assert n <= n * SlotWeight(s) <= n * 512;
  }

  // ---------------------------------------------------------------- pools

  datatype Pool = Pool(slots: seq<Slot>, live: nat, max: nat, base: nat)

  predicate ValidPool(p: Pool) {
    |p.slots| == p.max && p.live <= p.max && 1 <= p.base <= 128 && forall i :: 0 <= i < |p.slots| ==> Small(p.slots[i])
  }

  const ALL_TIERS: set<Tier> := {Active, Expiring, Heavy, Degraded, Retiring}

  /** The least stream count among the first `n` slots in `tiers`, or MaxInt32. */
  function MinActive(slots: seq<Slot>, n: nat, tiers: set<Tier>): int
    requires n <= |slots|
  {
    if n == 0 then MAX_INT32
    else
      var m := MinActive(slots, n - 1, tiers);
      if TierOf(slots[n - 1]) in tiers && slots[n - 1].active < m then slots[n - 1].active else m
  }

  predicate HasTier(slots: seq<Slot>, n: nat, tiers: set<Tier>)
    requires n <= |slots|
  {
    exists i :: 0 <= i < n && TierOf(slots[i]) in tiers
  }

  lemma {:induction false} MinActiveIsMin(slots: seq<Slot>, n: nat, tiers: set<Tier>)
    requires n <= |slots| && forall i :: 0 <= i < |slots| ==> Small(slots[i])
    ensures var m := MinActive(slots, n, tiers);
            && (forall i :: 0 <= i < n && TierOf(slots[i]) in tiers ==> m <= slots[i].active)
            && (HasTier(slots, n, tiers) ==>
                  exists i :: 0 <= i < n && TierOf(slots[i]) in tiers && slots[i].active == m)
            && (!HasTier(slots, n, tiers) ==> m == MAX_INT32)
  {
    if n > 0 {
      MinActiveIsMin(slots, n - 1, tiers);
      assert Small(slots[n - 1]);
      if TierOf(slots[n - 1]) in tiers {
        assert HasTier(slots, n, tiers);
      }
    }
  }

  /** The load that decides the pressure level: the least loaded healthy slot, or without one the least loaded slot,
      raised to the base. */
  function LoadOf(p: Pool): int
    requires ValidPool(p)
  {
    if HasTier(p.slots, p.live, {Active}) then MinActive(p.slots, p.live, {Active})
    else
      var m := MinActive(p.slots, p.live, ALL_TIERS);
      var least := if m == MAX_INT32 then 0 else m;
      if least < p.base then p.base else least
  }

  lemma LoadIsSmall(p: Pool)
    requires ValidPool(p)
    ensures 0 <= LoadOf(p) && LoadOf(p) * 512 <= MAX_INT32
    ensures !HasTier(p.slots, p.live, {Active}) ==> LoadOf(p) >= p.base
    ensures HasTier(p.slots, p.live, {Active}) ==>
              exists i :: 0 <= i < p.live && TierOf(p.slots[i]) == Active && p.slots[i].active == LoadOf(p)
  {
    MinActiveIsMin(p.slots, p.live, {Active});
    MinActiveIsMin(p.slots, p.live, ALL_TIERS);
  }

  // ---------------------------------------------------------------- pressure

  method FloorLog2Loop(v: nat) returns (n: nat)
    ensures n == FloorLog2(v)
  {
    n := 0;
    var rest := v;
    while rest > 1
      invariant n + FloorLog2(rest) == FloorLog2(v)
    {
      rest := rest / 2;
      n := n + 1;
    }
  }

  function LevelAt(load: nat, base: nat): nat
    requires base > 0
  {
    if load < base then 0 else 1 + FloorLog2(load / base)
  }

  /** Level k >= 1 means that the load lies in [2^(k-1)·base, 2^k·base). */
  lemma LevelBrackets(load: nat, base: nat)
    requires base > 0
    ensures var k := LevelAt(load, base);
            if k == 0 then load < base else Pow2(k - 1) * base <= load < Pow2(k) * base
  {
    if load >= base {
      var q, k := load / base, LevelAt(load, base);
      Quotient(load, base);
      assert q >= 1;
      FloorLog2Brackets(q);
      Scaled(Pow2(k - 1), q, base);
      Scaled(q + 1, Pow2(k), base);
    }
  }

  /** The bracket determines the level. */
  lemma LevelIsUnique(load: nat, base: nat, k: nat)
    requires base > 0 && k >= 1 && Pow2(k - 1) * base <= load < Pow2(k) * base
    ensures k == LevelAt(load, base)
  {
    LevelBrackets(load, base);
    var m := LevelAt(load, base);
    if m < k {
      Pow2Grows(m, k - 1);
      Scaled(Pow2(m), Pow2(k - 1), base);
    } else if m > k {
      Pow2Grows(k, m - 1);
      Scaled(Pow2(k), Pow2(m - 1), base);
    }
  }

  function Level(p: Pool): nat
    requires ValidPool(p)
  {
    LoadIsSmall(p);
    LevelAt(LoadOf(p), p.base)
  }

  /** `base << (level-1)` in int32. */
  function TierCap(tier: Tier, level: nat, base: nat): int {
    if level == 0 then if tier == Active then base else 0
    else if tier == Active || tier == Retiring then 0
    else Wrap32(Pow2(level - 1) * base)
  }

  /** On the selection path the shift never leaves int32 and the capacity does not exceed the load it was derived
      from. */
  lemma ShiftNeverOverflows(p: Pool)
    requires ValidPool(p) && Level(p) >= 1
    ensures Pow2(Level(p) - 1) * p.base <= LoadOf(p) < Pow2(Level(p)) * p.base && LoadOf(p) * 512 <= MAX_INT32
    ensures Wrap32(Pow2(Level(p) - 1) * p.base) == Pow2(Level(p) - 1) * p.base
  {
    LoadIsSmall(p);
    LevelBrackets(LoadOf(p), p.base);
    WrapFits(Pow2(Level(p) - 1) * p.base);
  }

  // ---------------------------------------------------------------- what selection promises

  /** Slot `i` may take a stream within its tier's capacity. */
  predicate UnderCap(p: Pool, i: nat)
    requires ValidPool(p) && i < p.live
  {
    !Draining(p.slots[i]) && WeightedActive(p.slots[i]) < TierCap(TierOf(p.slots[i]), Level(p), p.base)
  }

  ghost predicate Saturated(p: Pool)
    requires ValidPool(p)
  {
    p.live > 0 && forall i :: 0 <= i < p.live ==> !UnderCap(p, i)
  }

  /** Fewer streams, or as many with a smaller negative score. */
  predicate Lighter(a: Slot, b: Slot) {
    a.active < b.active || (a.active == b.active && NegativeScore(a) < NegativeScore(b))
  }

  /** The unsaturated choice: the first tier that has room, its lightest slot, the first of equals. */
  ghost predicate Chosen(p: Pool, i: nat)
    requires ValidPool(p)
  {
    && i < p.live && UnderCap(p, i)
    && forall j :: 0 <= j < p.live && UnderCap(p, j) ==>
         && Rank(TierOf(p.slots[i])) <= Rank(TierOf(p.slots[j]))
         && (TierOf(p.slots[j]) == TierOf(p.slots[i]) ==>
               !Lighter(p.slots[j], p.slots[i]) && (j < i ==> Lighter(p.slots[i], p.slots[j])))
  }

  /** Neither retiring nor draining. */
  predicate Usable(s: Slot) {
    TierOf(s) != Retiring && !Draining(s)
  }

  predicate LessLoaded(a: Slot, b: Slot) {
    || WeightedActive(a) < WeightedActive(b)
    || (WeightedActive(a) == WeightedActive(b) && NegativeScore(a) < NegativeScore(b))
  }

  /** Among slots that all face eviction a busy one wins over an idle one of the same load. */
  predicate BetterResort(a: Slot, b: Slot) {
    LessLoaded(a, b) ||
    (WeightedActive(a) == WeightedActive(b) && NegativeScore(a) == NegativeScore(b) && !Draining(a) && Draining(b))
  }

  /** The least of the first `n` slots by `LessLoaded` among the usable ones, the first of equals. */
  ghost predicate LeastUsable(slots: seq<Slot>, n: nat, i: nat)
    requires n <= |slots|
  {
    && i < n && Usable(slots[i])
    && forall j :: 0 <= j < n && Usable(slots[j]) ==>
         !LessLoaded(slots[j], slots[i]) && (j < i ==> LessLoaded(slots[i], slots[j]))
  }

  ghost predicate LastResort(slots: seq<Slot>, n: nat, i: nat)
    requires n <= |slots|
  {
    && i < n && !Usable(slots[i])
    && forall j :: 0 <= j < n && !Usable(slots[j]) ==>
         !BetterResort(slots[j], slots[i]) && (j < i ==> BetterResort(slots[i], slots[j]))
  }

  predicate SomeUsable(slots: seq<Slot>, n: nat)
    requires n <= |slots|
  {
    exists i :: 0 <= i < n && Usable(slots[i])
  }

  ghost predicate Fallback(p: Pool, i: nat)
    requires ValidPool(p)
  {
    if SomeUsable(p.slots, p.live) then LeastUsable(p.slots, p.live, i) else LastResort(p.slots, p.live, i)
  }

  /** tieredSelect may return slot `i` and the flag `saturated`. */
  ghost predicate Selects(p: Pool, i: nat, saturated: bool)
    requires ValidPool(p)
  {
    if p.live == 0 then i == 0 && !saturated
    else saturated == Saturated(p) && if saturated then Fallback(p, i) else Chosen(p, i)
  }

  /** At level 0 the search of the active tier succeeds. */
  lemma LevelZeroHasRoom(p: Pool)
    requires ValidPool(p) && p.live > 0 && Level(p) == 0
    ensures exists i :: 0 <= i < p.live && TierOf(p.slots[i]) == Active && UnderCap(p, i)
  {
    LoadIsSmall(p);
    LevelBrackets(LoadOf(p), p.base);
    var i :| 0 <= i < p.live && TierOf(p.slots[i]) == Active && p.slots[i].active == LoadOf(p);
    WeightedIsExact(p.slots[i]);
    assert UnderCap(p, i);
  }

  /** A healthy slot with fewer than `base` streams makes the level 0. */
  lemma HealthyRoomIsLevelZero(p: Pool, i: nat)
    requires ValidPool(p) && i < p.live && TierOf(p.slots[i]) == Active && p.slots[i].active < p.base
    ensures Level(p) == 0 && !Saturated(p)
  {
    MinActiveIsMin(p.slots, p.live, {Active});
    LoadIsSmall(p);
    LevelZeroHasRoom(p);
  }

  /** At level k >= 1 no active-tier slot is under capacity, and the negative tiers have the capacity 2^(k-1)·base. */
  lemma PressedTiers(p: Pool, i: nat)
    requires ValidPool(p) && i < p.live && Level(p) >= 1 && UnderCap(p, i)
    ensures TierOf(p.slots[i]) in {Expiring, Heavy, Degraded}
    ensures WeightedActive(p.slots[i]) < Pow2(Level(p) - 1) * p.base
  {
    WeightedIsExact(p.slots[i]);
    ShiftNeverOverflows(p);
  }

  // ---------------------------------------------------------------- the loops

  method MinActiveInTier(p: Pool) returns (least: int, found: bool)
    requires ValidPool(p)
    ensures least == MinActive(p.slots, p.live, {Active}) && found == HasTier(p.slots, p.live, {Active})
  {
    least, found := MAX_INT32, false;
    var i := 0;
    while i < p.live
      invariant 0 <= i <= p.live
      invariant least == MinActive(p.slots, i, {Active}) && found == HasTier(p.slots, i, {Active})
    {
      if TierOf(p.slots[i]) == Active {
        if p.slots[i].active < least {
          least := p.slots[i].active;
        }
        found := true;
      }
      i := i + 1;
    }
  }

  method MinActiveInRange(p: Pool) returns (least: int)
    requires ValidPool(p)
    ensures least == if MinActive(p.slots, p.live, ALL_TIERS) == MAX_INT32 then 0
              else MinActive(p.slots, p.live, ALL_TIERS)
  {
    least := MAX_INT32;
    var i := 0;
    while i < p.live
      invariant 0 <= i <= p.live && least == MinActive(p.slots, i, ALL_TIERS)
    {
      if p.slots[i].active < least {
        least := p.slots[i].active;
      }
      i := i + 1;
    }
    if least == MAX_INT32 {
      least := 0;
    }
  }

  method PressureLevel(p: Pool) returns (level: nat)
    requires ValidPool(p)
    ensures level == Level(p)
  {
    LoadIsSmall(p);
    var activeMin, hasActive := MinActiveInTier(p);
    if hasActive {
      if activeMin < p.base {
        return 0;
      }
      var log := FloorLog2Loop(activeMin / p.base);
      return 1 + log;
    }
    var poolMin := MinActiveInRange(p);
    if poolMin < p.base {
      poolMin := p.base;
    }
    var log := FloorLog2Loop(poolMin / p.base);
    level := 1 + log;
  }

  /** The slots of one tier below `cap`, among the first `n`. */
  predicate Fits(p: Pool, tier: Tier, cap: int, j: nat)
    requires j < |p.slots|
  {
    TierOf(p.slots[j]) == tier && !Draining(p.slots[j]) && WeightedActive(p.slots[j]) < cap
  }

  ghost predicate LightestFit(p: Pool, tier: Tier, cap: int, n: nat, best: Option<nat>)
    requires n <= |p.slots|
  {
    match best
    case None => forall j :: 0 <= j < n ==> !Fits(p, tier, cap, j)
    case Some(i) =>
      && i < n && Fits(p, tier, cap, i)
      && forall j :: 0 <= j < n && Fits(p, tier, cap, j) ==>
           !Lighter(p.slots[j], p.slots[i]) && (j < i ==> Lighter(p.slots[i], p.slots[j]))
  }

  /** `consider` of tieredSelectAt. */
  method Consider(p: Pool, tier: Tier, level: nat) returns (best: Option<nat>)
    requires ValidPool(p)
    ensures LightestFit(p, tier, TierCap(tier, level, p.base), p.live, best)
  {
    var cap := TierCap(tier, level, p.base);
    best := None;
    if cap <= 0 {
      forall j | 0 <= j < p.live
        ensures !Fits(p, tier, cap, j)
      {
        WeightedIsExact(p.slots[j]);
      }
      return;
    }
    var bestActive, bestNeg := MAX_INT32, MAX_INT32;
    var i := 0;
    while i < p.live
      invariant 0 <= i <= p.live && LightestFit(p, tier, cap, i, best)
      invariant best == None ==> bestActive == MAX_INT32
      invariant best.Some? ==> bestActive == p.slots[best.value].active && bestNeg == NegativeScore(p.slots[best.value])
    {
      var slot := p.slots[i];
      if TierOf(slot) == tier && !Draining(slot) && WeightedActive(slot) < cap {
        var neg := NegativeScore(slot);
        assert Small(slot);
        if slot.active < bestActive || (slot.active == bestActive && neg < bestNeg) {
          best, bestActive, bestNeg := Some(i), slot.active, neg;
        }
      }
      i := i + 1;
    }
  }

  method LeastActive(p: Pool) returns (r: nat)
    requires ValidPool(p) && p.live > 0
    ensures Fallback(p, r)
  {
    var best: Option<nat>, resort: Option<nat> := None, None;
    var i := 0;
    while i < p.live
      invariant 0 <= i <= p.live
      invariant best == None ==> forall j :: 0 <= j < i ==> !Usable(p.slots[j])
      invariant best.Some? ==> LeastUsable(p.slots, i, best.value)
      invariant resort == None ==> forall j :: 0 <= j < i ==> Usable(p.slots[j])
      invariant resort.Some? ==> LastResort(p.slots, i, resort.value)
    {
      var slot := p.slots[i];
      if TierOf(slot) == Retiring || Draining(slot) {
        if resort == None || BetterResort(slot, p.slots[resort.value]) {
          resort := Some(i);
        }
      } else if best == None || LessLoaded(slot, p.slots[best.value]) {
        best := Some(i);
      }
      i := i + 1;
    }
    if best == None {
      assert !Usable(p.slots[0]);
      r := resort.value;
    } else {
      r := best.value;
    }
  }

  /** A failed search of `tier` leaves only other tiers. */
  lemma TierSearched(p: Pool, tier: Tier, best: Option<nat>)
    requires ValidPool(p) && LightestFit(p, tier, TierCap(tier, Level(p), p.base), p.live, best)
    requires forall j :: 0 <= j < p.live && UnderCap(p, j) ==> Rank(TierOf(p.slots[j])) >= Rank(tier)
    ensures best.Some? ==> Chosen(p, best.value)
    ensures best == None ==> forall j :: 0 <= j < p.live && UnderCap(p, j) ==> Rank(TierOf(p.slots[j])) > Rank(tier)
  {
    forall j | 0 <= j < p.live
      ensures Fits(p, tier, TierCap(tier, Level(p), p.base), j) <==> UnderCap(p, j) && TierOf(p.slots[j]) == tier
    {
    }
    if best == None {
      forall j | 0 <= j < p.live && UnderCap(p, j)
        ensures Rank(TierOf(p.slots[j])) > Rank(tier)
      {
        assert !Fits(p, tier, TierCap(tier, Level(p), p.base), j);
      }
    } else {
      assert Fits(p, tier, TierCap(tier, Level(p), p.base), best.value);
      assert UnderCap(p, best.value);
    }
  }

  lemma RetiringNeverFits(p: Pool)
    requires ValidPool(p) && p.live > 0
    requires forall j :: 0 <= j < p.live && UnderCap(p, j) ==> Rank(TierOf(p.slots[j])) > Rank(Degraded)
    ensures Saturated(p)
  {
    forall j | 0 <= j < p.live
      ensures !UnderCap(p, j)
    {
      WeightedIsExact(p.slots[j]);
    }
  }

  method TieredSelect(p: Pool) returns (r: nat, saturated: bool)
    requires ValidPool(p)
    ensures Selects(p, r, saturated)
  {
    if p.live == 0 {
      return 0, false;
    }
    var level: int := PressureLevel(p);
    var best: Option<nat> := None;
    if level == 0 {
      LevelZeroHasRoom(p);
      best := Consider(p, Active, level);
      TierSearched(p, Active, best);
      if best.Some? {
        return best.value, false;
      }
      level := 1;
    } else {
      PressedRanks(p);
    }
    best := Consider(p, Expiring, level);
    TierSearched(p, Expiring, best);
    if best.Some? {
      return best.value, false;
    }
    best := Consider(p, Heavy, level);
    TierSearched(p, Heavy, best);
    if best.Some? {
      return best.value, false;
    }
    best := Consider(p, Degraded, level);
    TierSearched(p, Degraded, best);
    if best.Some? {
      return best.value, false;
    }
    RetiringNeverFits(p);
    r := LeastActive(p);
    saturated := true;
  }

  lemma PressedRanks(p: Pool)
    requires ValidPool(p) && Level(p) >= 1
    ensures forall j :: 0 <= j < p.live && UnderCap(p, j) ==> Rank(TierOf(p.slots[j])) >= Rank(Expiring)
  {
    forall j | 0 <= j < p.live && UnderCap(p, j)
      ensures Rank(TierOf(p.slots[j])) >= Rank(Expiring)
    {
      PressedTiers(p, j);
    }
  }
}
