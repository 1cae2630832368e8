/** The cover-traffic budget (shaper/covertraffic.go, shaper/shaper.go), with reals for floating point. */
module Cover {
  import opened Protocol
  import opened Shaper

  // ---------------------------------------------------------------- configuration

  datatype Config = Config(window: int, ratio: real, cap: int, idle: int, minSize: int, maxSize: int)

  const MAX_FRAME_PAYLOAD := MAX_WRITE_PLAINTEXT - HEADER_SIZE

  function Capped(n: int, limit: int): int {
    if n > limit then limit else n
  }

  function Normalize(c: Config): Config {
    var window := Capped(if c.window <= 0 then 3 else c.window, 10);
    var ratio := if c.ratio <= 0.0 || c.ratio > 1.0 then 0.03 else c.ratio;
    var cap := if c.cap <= 0 then 16384 else c.cap;
    var idle := if c.idle <= 0 then 300 else c.idle;
    var least := Capped(if c.minSize <= 0 then 128 else c.minSize, MAX_FRAME_PAYLOAD);
    var most := Capped(if c.maxSize <= 0 then 1500 else c.maxSize, MAX_FRAME_PAYLOAD);
    Config(window, ratio, cap, idle, least, if most < least then least else most)
  }

  predicate Normal(c: Config) {
    && 1 <= c.window <= 10 && 0.0 < c.ratio <= 1.0 && c.cap > 0 && c.idle > 0
    && 1 <= c.minSize <= c.maxSize <= MAX_FRAME_PAYLOAD
  }

  /** Normalize yields a normal configuration and changes no configuration that already is one. */
  lemma NormalizeIsNormal(c: Config)
    ensures Normal(Normalize(c)) && (Normal(c) <==> Normalize(c) == c)
  {
  }

  /** What Normalize does with each field, whatever the others are: a value in range stays, one that is not set or not
      a ratio becomes the default, one above its limit becomes the limit, and MaxSize is at least MinSize. */
  lemma NormalizeExactly(c: Config)
    ensures var n := Normalize(c);
            && (if 1 <= c.window <= 10 then n.window == c.window else n.window == if c.window > 10 then 10 else 3)
            && (if 0.0 < c.ratio <= 1.0 then n.ratio == c.ratio else n.ratio == 0.03)
            && (if c.cap > 0 then n.cap == c.cap else n.cap == 16384)
            && (if c.idle > 0 then n.idle == c.idle else n.idle == 300)
            && (if 1 <= c.minSize <= 65514 then n.minSize == c.minSize
                else n.minSize == if c.minSize > 65514 then 65514 else 128)
            && var most := if c.maxSize <= 0 then 1500 else if c.maxSize > 65514 then 65514 else c.maxSize;
            if n.minSize <= most then n.maxSize == most else n.maxSize == n.minSize
  {
  }

  // ---------------------------------------------------------------- sizes

  const SMOOTH_SPAN := 1048576

  function Ratio(sent: nat): real {
    Capped(sent, SMOOTH_SPAN) as real / SMOOTH_SPAN as real
  }

  /** int(r * n) for a fraction r and n >= 0. */
  function Part(r: real, n: int): int {
    (r * n as real).Floor
  }

  function SizeRange(c: Config, sent: nat): (int, int) {
    var span := c.maxSize - c.minSize;
    var minSteady := c.minSize + Part(0.28, span);
    var maxStart := c.minSize + Part(0.278, span);
    (c.minSize + Part(Ratio(sent), minSteady - c.minSize), maxStart + Part(Ratio(sent), c.maxSize - maxStart))
  }

  lemma RatioRange(sent: nat)
    ensures 0.0 <= Ratio(sent) <= 1.0
  {
  }

  lemma PartRange(r: real, n: int)
    requires 0.0 <= r <= 1.0 && 0 <= n
    ensures 0 <= Part(r, n) <= n && 0.0 <= r * n as real <= n as real
  {
  }

  /** Interpolating from `b` to `s` stays above interpolating from 0 to `a`, when a <= s. */
  lemma RangesNest(r: real, a: int, b: int, s: int)
    requires 0.0 <= r <= 1.0 && 0 <= a <= s && 0 <= b <= s
    ensures 0 <= Part(r, a) <= b + Part(r, s - b) <= s
  {
    PartRange(r, a);
    PartRange(r, s - b);
    PartRange(1.0 - r, b);
    PartRange(r, s - a);
    assert b as real + r * (s - b) as real - r * a as real == (1.0 - r) * b as real + r * (s - a) as real;
  }

  /** However much was sent, MinSize <= min <= max <= MaxSize. */
  lemma RangeIsOrdered(c: Config, sent: nat)
    requires Normal(c)
    ensures var (least, most) := SizeRange(c, sent); c.minSize <= least <= most <= c.maxSize
  {
    var s := c.maxSize - c.minSize;
    RatioRange(sent);
    PartRange(0.28, s);
    PartRange(0.278, s);
    RangesNest(Ratio(sent), Part(0.28, s), Part(0.278, s), s);
  }

  /** More real traffic never makes a part smaller. */
  lemma PartGrows(r: real, r': real, n: int)
    requires 0.0 <= r <= r' <= 1.0 && 0 <= n
    ensures Part(r, n) <= Part(r', n)
  {
    assert r * n as real <= r' * n as real;
  }

  lemma RangeEnds(c: Config, sent: nat)
    requires Normal(c)
    ensures var span := (c.maxSize - c.minSize) as real;
            && SizeRange(c, 0) == (c.minSize, c.minSize + (0.278 * span).Floor)
            && (sent >= 1048576 ==> SizeRange(c, sent) == (c.minSize + (0.28 * span).Floor, c.maxSize))
  {
    assert Ratio(0) == 0.0 && (sent >= 1048576 ==> Ratio(sent) == 1.0);
  }

  lemma RangeGrows(c: Config, sent: nat, more: nat)
    requires Normal(c) && sent <= more
    ensures SizeRange(c, sent).0 <= SizeRange(c, more).0 && SizeRange(c, sent).1 <= SizeRange(c, more).1
  {
    var s := c.maxSize - c.minSize;
    RatioRange(sent);
    RatioRange(more);
    PartRange(0.28, s);
    PartRange(0.278, s);
    PartGrows(Ratio(sent), Ratio(more), Part(0.28, s));
    PartGrows(Ratio(sent), Ratio(more), s - Part(0.278, s));
  }

  /** The range slides up with the traffic: it starts at MinSize and 27.8% of the span above it, never moves down, and
      from 1 MiB on it is 28% of the span above MinSize and MaxSize. */
  lemma RangeSlides(c: Config, sent: nat, more: nat)
    requires Normal(c) && sent <= more
    ensures var span := (c.maxSize - c.minSize) as real;
            && SizeRange(c, 0) == (c.minSize, c.minSize + (0.278 * span).Floor)
            && (more >= 1048576 ==> SizeRange(c, more) == (c.minSize + (0.28 * span).Floor, c.maxSize))
            && SizeRange(c, sent).0 <= SizeRange(c, more).0 && SizeRange(c, sent).1 <= SizeRange(c, more).1
  {
    RangeEnds(c, more);
    RangeGrows(c, sent, more);
  }

  // ---------------------------------------------------------------- the sections under mu

  function Credit(c: Config, budget: real, realBytes: nat): real {
    var b := budget + realBytes as real * c.ratio;
    if b > c.cap as real then c.cap as real else b
  }

  /** The size onIdle takes from the budget for the draw `r`; 0 when the budget does not cover the smallest frame. */
  function Emit(c: Config, budget: real, sent: nat, r: nat): nat
    requires Normal(c)
  {
    RangeIsOrdered(c, sent);
    var (least, most) := SizeRange(c, sent);
    EmitWithin(least, most, budget, r)
  }

  function EmitWithin(least: int, most: int, budget: real, r: nat): nat
    requires 0 <= least <= most
  {
    if budget < least as real then 0 else least + r % (Capped(most, budget.Floor) - least + 1)
  }

  lemma EmitFits(c: Config, budget: real, sent: nat, r: nat)
    requires Normal(c)
    ensures var n := Emit(c, budget, sent, r);
            n == 0 || (c.minSize <= n <= c.maxSize && n as real <= budget && HEADER_SIZE + n <= CEILING &&
                n <= MAX_UINT16)
  {
    RangeIsOrdered(c, sent);
  }

  /** The sizes that a budget allows: nothing when it is below the range, and otherwise every size of the range that it
      pays for. */
  predicate Allowed(c: Config, budget: real, sent: nat, n: nat) {
    var (least, most) := SizeRange(c, sent);
    AllowedWithin(least, most, budget, n)
  }

  predicate AllowedWithin(least: int, most: int, budget: real, n: nat) {
    if budget < least as real then n == 0 else least <= n <= most && n as real <= budget
  }

  lemma SmallMod(r: nat, m: nat)
    requires r < m
    ensures r % m == r
  {
  }

  lemma WithinIsEmitted(least: int, most: int, budget: real, n: nat) returns (r: nat)
    requires 0 <= least <= most && AllowedWithin(least, most, budget, n)
    ensures EmitWithin(least, most, budget, r) == n
  {
    r := 0;
    if budget >= least as real {
      r := n - least;
      SmallMod(r, Capped(most, budget.Floor) - least + 1);
    }
  }

  lemma EmitIsAllowed(c: Config, budget: real, sent: nat, r: nat)
    requires Normal(c)
    ensures Allowed(c, budget, sent, Emit(c, budget, sent, r))
  {
    RangeIsOrdered(c, sent);
  }

  lemma AllowedIsEmitted(c: Config, budget: real, sent: nat, n: nat) returns (r: nat)
    requires Normal(c) && Allowed(c, budget, sent, n)
    ensures Emit(c, budget, sent, r) == n
  {
    RangeIsOrdered(c, sent);
    var (least, most) := SizeRange(c, sent);
    r := WithinIsEmitted(least, most, budget, n);
  }

  /** The sizes that some draw yields are the allowed ones. */
  lemma EmitExactly(c: Config, budget: real, sent: nat, n: nat)
    requires Normal(c)
    ensures (exists r: nat :: Emit(c, budget, sent, r) == n) <==> Allowed(c, budget, sent, n)
  {
    if Allowed(c, budget, sent, n) {
      var r := AllowedIsEmitted(c, budget, sent, n);
    }
    forall r: nat | Emit(c, budget, sent, r) == n
      ensures Allowed(c, budget, sent, n)
    {
      EmitIsAllowed(c, budget, sent, r);
    }
  }

  class CoverInjector {
    const cfg: Config
    var budget: real
    var totalSent: nat
    var stopped: bool

    ghost predicate Valid()
      reads this
    {
      Normal(cfg) && 0.0 <= budget <= cfg.cap as real
    }

    constructor (cfg: Config)
      requires Normal(cfg)
      ensures Valid() && this.cfg == cfg && budget == 0.0 && totalSent == 0 && !stopped
    {
      this.cfg, budget, totalSent, stopped := cfg, 0.0, 0, false;
    }

    method AddBudget(realBytes: nat)
      requires Valid()
      modifies this`budget, this`totalSent
      ensures Valid() && old(budget) <= budget <= old(budget) + realBytes as real * cfg.ratio
      ensures stopped ==> budget == old(budget) && totalSent == old(totalSent)
      ensures !stopped ==> budget == Credit(cfg, old(budget), realBytes) && totalSent == old(totalSent) + realBytes
    {
      Nonneg(realBytes, cfg.ratio);
      if stopped {
        return;
      }
      totalSent := totalSent + realBytes;
      budget := budget + realBytes as real * cfg.ratio;
      if budget > cfg.cap as real {
        budget := cfg.cap as real;
      }
    }

    method Stop()
      requires Valid()
      modifies this`budget, this`stopped
      ensures Valid() && stopped && budget == 0.0
    {
      stopped, budget := true, 0.0;
    }

    /** onIdle when the stream has been idle long enough: the payload size of the frame to inject, 0 for none. */
    method OnIdle(closing: bool, r: nat) returns (frameSize: nat)
      requires Valid()
      modifies this`budget
      ensures Valid() && budget == old(budget) - frameSize as real
      ensures frameSize == if stopped || closing then 0 else Emit(cfg, old(budget), totalSent, r)
      ensures frameSize > 0 ==> cfg.minSize <= frameSize <= cfg.maxSize && HEADER_SIZE + frameSize <= CEILING
    {
      if stopped || closing {
        return 0;
      }
      EmitFits(cfg, budget, totalSent, r);
      RangeIsOrdered(cfg, totalSent);
      var (minSize, maxSize) := SizeRange(cfg, totalSent);
      assert Emit(cfg, budget, totalSent, r) == EmitWithin(minSize, maxSize, budget, r);
      if budget < minSize as real {
        return 0;
      }
      var limit := if maxSize < budget.Floor then maxSize else budget.Floor;
      frameSize := minSize + r % (limit - minSize + 1);
      budget := budget - frameSize as real;
    }
  }

  lemma Nonneg(n: nat, ratio: real)
    requires ratio >= 0.0
    ensures n as real * ratio >= 0.0
  {
  }

  // ---------------------------------------------------------------- interleaved steps

  /** `adding` are the calls of addBudget past their test of `stopped`, `idling` the timer callbacks past theirs;
      `credited` and `emitted` count the real bytes whose credit was booked and the cover payload taken out, `earned`
      adds up the credits before capping. */
  datatype State = State(
    budget: real, sent: nat, stopped: bool, adding: multiset<nat>, idling: nat,
    credited: nat, earned: real, emitted: nat)

  datatype Label =
    | BeginAdd(n: nat) | Book(n: nat)
    | Fire | Idle(closing: bool, recent: bool, r: nat)
    | MarkStopped | ClearBudget

  const INITIAL := State(0.0, 0, false, multiset{}, 0, 0, 0.0, 0)

  predicate Enabled(s: State, l: Label) {
    match l
    case BeginAdd(_) => !s.stopped
    case Book(n) => n in s.adding
    case Fire => !s.stopped
    case Idle(_, _, _) => s.idling > 0
    case MarkStopped => true
    case ClearBudget => s.stopped
  }

  function Step(c: Config, s: State, l: Label): State
    requires Normal(c) && Enabled(s, l)
  {
    match l
    case BeginAdd(n) => s.(sent := s.sent + n, adding := s.adding + multiset{n})
    case Book(n) =>
      s.(budget := Credit(c, s.budget, n), adding := s.adding - multiset{n},
         credited := s.credited + n, earned := s.earned + n as real * c.ratio)
    case Fire => s.(idling := s.idling + 1)
    case Idle(closing, recent, r) =>
      var n := if closing || recent then 0 else Emit(c, s.budget, s.sent, r);
      s.(idling := s.idling - 1, budget := s.budget - n as real, emitted := s.emitted + n)
    case MarkStopped => s.(stopped := true)
    case ClearBudget => s.(budget := 0.0)
  }

  /** What is in the budget and what has been spent never exceeds what was earned. */
  predicate Inv(c: Config, s: State) {
    0.0 <= s.budget <= c.cap as real && s.emitted as real + s.budget <= s.earned
  }

  lemma CreditFits(c: Config, budget: real, n: nat)
    requires Normal(c) && 0.0 <= budget <= c.cap as real
    ensures 0.0 <= Credit(c, budget, n) <= c.cap as real && Credit(c, budget, n) <= budget + n as real * c.ratio
  {
    Nonneg(n, c.ratio);
  }

  lemma IdleKeepsInv(c: Config, s: State, l: Label)
    requires Normal(c) && Inv(c, s) && Enabled(s, l) && l.Idle?
    ensures Inv(c, Step(c, s, l))
  {
    EmitFits(c, s.budget, s.sent, l.r);
    var n := if l.closing || l.recent then 0 else Emit(c, s.budget, s.sent, l.r);
    assert Step(c, s, l).budget == s.budget - n as real && Step(c, s, l).emitted == s.emitted + n;
  }

  lemma StepKeepsInv(c: Config, s: State, l: Label)
    requires Normal(c) && Inv(c, s) && Enabled(s, l)
    ensures Inv(c, Step(c, s, l))
  {
    if l.Book? {
      CreditFits(c, s.budget, l.n);
    } else if l.Idle? {
      IdleKeepsInv(c, s, l);
    }
  }

  /** Credits are proportional to the bytes they were given for. */
  predicate Proportional(ratio: real, credited: nat, earned: real) {
    earned == credited as real * ratio
  }

  lemma Distributes(a: nat, b: nat, r: real, earned: real)
    requires Proportional(r, a, earned)
    ensures Proportional(r, a + b, earned + b as real * r)
  {
  }

  lemma OnlyBookCredits(c: Config, s: State, l: Label)
    requires Normal(c) && Enabled(s, l) && !l.Book?
    ensures Step(c, s, l).credited == s.credited && Step(c, s, l).earned == s.earned
  {
  }

  lemma StepKeepsProportion(c: Config, s: State, l: Label)
    requires Normal(c) && Proportional(c.ratio, s.credited, s.earned) && Enabled(s, l)
    ensures Proportional(c.ratio, Step(c, s, l).credited, Step(c, s, l).earned)
  {
    if l.Book? {
      Distributes(s.credited, l.n, c.ratio, s.earned);
    } else {
      OnlyBookCredits(c, s, l);
    }
  }

  ghost predicate Run(c: Config, states: seq<State>, labels: seq<Label>) {
    && Normal(c) && |states| == |labels| + 1 && states[0] == INITIAL
    && forall i :: 0 <= i < |labels| ==> Enabled(states[i], labels[i]) && states[i + 1] == Step(c, states[i], labels[i])
  }

  lemma {:induction false} RunInv(c: Config, states: seq<State>, labels: seq<Label>, i: nat)
    requires Run(c, states, labels) && i < |states|
    ensures Inv(c, states[i])
  {
    if i > 0 {
      RunInv(c, states, labels, i - 1);
      StepKeepsInv(c, states[i - 1], labels[i - 1]);
    }
  }

  lemma {:induction false} RunKeepsProportion(c: Config, states: seq<State>, labels: seq<Label>, i: nat)
    requires Run(c, states, labels) && i < |states|
    ensures Proportional(c.ratio, states[i].credited, states[i].earned)
  {
    if i > 0 {
      RunKeepsProportion(c, states, labels, i - 1);
      StepKeepsProportion(c, states[i - 1], labels[i - 1]);
    }
  }

  /** Over any run the budget stays in [0, BudgetCap], and the cover payload emitted so far is at most BudgetRatio times
      the real bytes credited. */
  lemma CoverIsPaidFor(c: Config, states: seq<State>, labels: seq<Label>, i: nat)
    requires Run(c, states, labels) && i < |states|
    ensures 0.0 <= states[i].budget <= c.cap as real
    ensures states[i].emitted as real <= states[i].credited as real * c.ratio
  {
    RunInv(c, states, labels, i);
    RunKeepsProportion(c, states, labels, i);
  }

  // ---------------------------------------------------------------- nothing is kept back

  /** A step that forfeits credit: one that meets the cap, or stop on a budget that is not used up. */
  predicate Forfeits(c: Config, s: State, l: Label) {
    || (l.Book? && s.budget + l.n as real * c.ratio > c.cap as real)
    || (l.ClearBudget? && s.budget > 0.0)
  }

  /** What was earned and is neither in the budget nor spent. */
  function Forfeited(s: State): real {
    s.earned - s.emitted as real - s.budget
  }

  lemma StepForfeits(c: Config, s: State, l: Label)
    requires Normal(c) && Inv(c, s) && Enabled(s, l)
    ensures if Forfeits(c, s, l) then Forfeited(Step(c, s, l)) > Forfeited(s)
            else Forfeited(Step(c, s, l)) == Forfeited(s)
    ensures l.Book? && Forfeits(c, s, l) ==> Step(c, s, l).budget == c.cap as real
  {
    if l.Idle? {
      EmitFits(c, s.budget, s.sent, l.r);
    }
  }

  lemma {:induction false} RunForfeits(c: Config, states: seq<State>, labels: seq<Label>, i: nat)
    requires Run(c, states, labels) && i < |states|
    ensures Forfeited(states[i]) >= 0.0
    ensures Forfeited(states[i]) == 0.0 <==> forall k :: 0 <= k < i ==> !Forfeits(c, states[k], labels[k])
  {
    if i > 0 {
      RunForfeits(c, states, labels, i - 1);
      RunInv(c, states, labels, i - 1);
      StepForfeits(c, states[i - 1], labels[i - 1]);
    }
  }

  /** Credit is in the budget or spent on cover, to the last byte, if and only if no booking met the cap and no stop
      found credit left. */
  lemma CreditIsKeptExactly(c: Config, states: seq<State>, labels: seq<Label>, i: nat)
    requires Run(c, states, labels) && i < |states|
    ensures states[i].emitted as real + states[i].budget == states[i].credited as real * c.ratio <==>
            forall k :: 0 <= k < i ==> !Forfeits(c, states[k], labels[k])
  {
    RunKeepsProportion(c, states, labels, i);
    RunForfeits(c, states, labels, i);
  }

  /** No cover frame is refused for its size: the shaper appends it or flushes first. */
  lemma CoverIsAccepted(c: Config, budget: real, sent: nat, r: nat, core: Core, f: Frame)
    requires Normal(c) && Emit(c, budget, sent, r) > 0 && |f.payload| == Emit(c, budget, sent, r)
    ensures PlanPush(core, f, true) != Reject(ErrTooLarge)
    ensures !core.closing && !core.failed ==> PlanPush(core, f, true) == Append || PlanPush(core, f, true) == Preflush
  {
    EmitFits(c, budget, sent, r);
  }
}
