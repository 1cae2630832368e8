/** The generation-tagged cache of routing answers (client/proxy/udp_route_cache.go) against rule changes that are
    applied first and bump the generation afterwards (client/router/router.go). */
module RouteCache {
  import opened Options

  type Host = string
  type Change = nat
  type Tid = nat

  const MAX_ENTRIES := 4096

  /** ClassifyHost read the rules: the host it was asked about and the changes it took into account. */
  datatype Answer = Answer(host: Host, seen: set<Change>)

  // ---------------------------------------------------------------- the cache and its two sections

  datatype Cache = Cache(generation: nat, entries: map<Host, Answer>)

  function Refreshed(c: Cache, g: nat): Cache {
    if c.generation != g then Cache(g, map[]) else c
  }

  function Stored(c: Cache, g: nat, host: Host, a: Answer): Cache {
    if c.generation != g then c
    else if |c.entries| >= MAX_ENTRIES then Cache(g, map[host := a])
    else Cache(g, c.entries[host := a])
  }

  lemma StoredIsCapped(c: Cache, g: nat, host: Host, a: Answer)
    requires |c.entries| <= MAX_ENTRIES
    ensures |Stored(c, g, host, a).entries| <= MAX_ENTRIES && |Refreshed(c, g).entries| <= MAX_ENTRIES
  {
    assert c.entries[host := a].Keys == c.entries.Keys + {host};
    assert map[host := a].Keys == {host};
  }

  class UdpRouteCache {
    var c: Cache

    constructor ()
      ensures c == Cache(0, map[])
    {
      c := Cache(0, map[]);
    }

    method Lookup(g: nat, host: Host) returns (hit: Option<Answer>)
      modifies this
      ensures c == Refreshed(old(c), g)
      ensures hit == if host in c.entries then Some(c.entries[host]) else None
    {
      if c.generation != g {
        c := Cache(g, map[]);
      }
      hit := if host in c.entries then Some(c.entries[host]) else None;
    }

    method Store(g: nat, host: Host, a: Answer)
      modifies this
      ensures c == Stored(old(c), g, host, a)
      ensures |old(c).entries| <= MAX_ENTRIES ==> |c.entries| <= MAX_ENTRIES
    {
      if |c.entries| <= MAX_ENTRIES {
        StoredIsCapped(c, g, host, a);
      }
      if c.generation == g {
        if |c.entries| >= MAX_ENTRIES {
          c := c.(entries := map[]);
        }
        c := c.(entries := c.entries[host := a]);
      }
    }
  }

  // ---------------------------------------------------------------- interleaved steps

  /** `first` is what had been applied when the classification began, a lower bound on what it sees. */
  datatype Pc =
    | Checking(host: Host, g: nat)
    | Missed(host: Host, g: nat)
    | Classifying(host: Host, g: nat, first: set<Change>)
    | Storing(host: Host, g: nat, a: Answer)
    | Done(host: Host, g: nat, a: Answer)

  /** `bumpedAt` records the generation that the bump of each change produced. */
  datatype State = State(
    applied: set<Change>, generation: nat, bumpedAt: map<Change, nat>, cache: Cache, lookups: map<Tid, Pc>)

  datatype Label =
    | Apply(ch: Change) | Bump(ch: Change)
    | ReadGeneration(t: Tid, host: Host)
    | Check(t: Tid) | BeginClassify(t: Tid) | EndClassify(t: Tid, seen: set<Change>) | Store(t: Tid)

  const INITIAL := State({}, 0, map[], Cache(0, map[]), map[])

  predicate Enabled(s: State, l: Label) {
    match l
    case Apply(ch) => ch !in s.applied
    case Bump(ch) => ch in s.applied && ch !in s.bumpedAt
    case ReadGeneration(t, _) => t !in s.lookups
    case Check(t) => t in s.lookups && s.lookups[t].Checking?
    case BeginClassify(t) => t in s.lookups && s.lookups[t].Missed?
    case EndClassify(t, seen) => t in s.lookups && s.lookups[t].Classifying? && s.lookups[t].first <= seen <= s.applied
    case Store(t) => t in s.lookups && s.lookups[t].Storing?
  }

  function Step(s: State, l: Label): State
    requires Enabled(s, l)
  {
    match l
    case Apply(ch) => s.(applied := s.applied + {ch})
    case Bump(ch) => s.(generation := s.generation + 1, bumpedAt := s.bumpedAt[ch := s.generation + 1])
    case ReadGeneration(t, host) => s.(lookups := s.lookups[t := Checking(host, s.generation)])
    case Check(t) =>
      var pc := s.lookups[t];
      var c := Refreshed(s.cache, pc.g);
      s.(cache := c,
         lookups := s.lookups[t := if pc.host in c.entries then Done(pc.host, pc.g, c.entries[pc.host])
             else Missed(pc.host, pc.g)])
    case BeginClassify(t) =>
      s.(lookups := s.lookups[t := Classifying(s.lookups[t].host, s.lookups[t].g, s.applied)])
    case EndClassify(t, seen) =>
      var pc := s.lookups[t];
      s.(lookups := s.lookups[t := Storing(pc.host, pc.g, Answer(pc.host, seen))])
    case Store(t) =>
      var pc := s.lookups[t];
      s.(cache := Stored(s.cache, pc.g, pc.host, pc.a), lookups := s.lookups[t := Done(pc.host, pc.g, pc.a)])
  }

  // ---------------------------------------------------------------- invariant

  /** `seen` misses no change whose bump had completed when the generation was `g`. */
  ghost predicate UpTo(s: State, g: nat, seen: set<Change>) {
    forall ch :: ch in s.bumpedAt && s.bumpedAt[ch] <= g ==> ch in seen
  }

  ghost predicate LookupOk(s: State, pc: Pc) {
    && pc.g <= s.generation
    && (pc.Classifying? ==> UpTo(s, pc.g, pc.first))
    && (pc.Storing? || pc.Done? ==> pc.a.host == pc.host && UpTo(s, pc.g, pc.a.seen))
  }

  ghost predicate Inv(s: State) {
    && (forall ch :: ch in s.bumpedAt ==> ch in s.applied && s.bumpedAt[ch] <= s.generation)
    && (forall t :: t in s.lookups ==> LookupOk(s, s.lookups[t]))
    && s.cache.generation <= s.generation && |s.cache.entries| <= MAX_ENTRIES
    && (forall h :: h in s.cache.entries ==>
          s.cache.entries[h].host == h && UpTo(s, s.cache.generation, s.cache.entries[h].seen))
  }

  /** A later bump produces a later generation, so nothing already fresh becomes stale. */
  lemma UpToStays(s: State, l: Label, g: nat, seen: set<Change>)
    requires Enabled(s, l) && UpTo(s, g, seen) && g <= s.generation
    ensures UpTo(Step(s, l), g, seen)
  {
  }

  lemma CacheStays(s: State, l: Label)
    requires Inv(s) && Enabled(s, l) && Step(s, l).cache == s.cache
    ensures var c := s.cache;
            forall h :: h in c.entries ==> c.entries[h].host == h && UpTo(Step(s, l), c.generation, c.entries[h].seen)
  {
    forall h | h in s.cache.entries
      ensures UpTo(Step(s, l), s.cache.generation, s.cache.entries[h].seen)
    {
      UpToStays(s, l, s.cache.generation, s.cache.entries[h].seen);
    }
  }

  lemma LookupsStay(s: State, l: Label, pc: Pc)
    requires Enabled(s, l) && LookupOk(s, pc)
    ensures LookupOk(Step(s, l), pc)
  {
    if pc.Classifying? {
      UpToStays(s, l, pc.g, pc.first);
    } else if pc.Storing? || pc.Done? {
      UpToStays(s, l, pc.g, pc.a.seen);
    }
  }

  lemma StepKeepsInv(s: State, l: Label)
    requires Inv(s) && Enabled(s, l)
    ensures Inv(Step(s, l))
  {
    var s' := Step(s, l);
    if l.Store? {
      StoredIsCapped(s.cache, s.lookups[l.t].g, s.lookups[l.t].host, s.lookups[l.t].a);
    } else if !l.Check? {
      CacheStays(s, l);
    }
    forall t | t in s'.lookups
      ensures LookupOk(s', s'.lookups[t])
    {
      if t in s.lookups && s'.lookups[t] == s.lookups[t] {
        LookupsStay(s, l, s.lookups[t]);
      } else if !l.ReadGeneration? {
        assert LookupOk(s, s.lookups[t]);
      }
    }
  }

  // ---------------------------------------------------------------- what every run guarantees

  ghost predicate Run(states: seq<State>, labels: seq<Label>) {
    && |states| == |labels| + 1 && states[0] == INITIAL
    && forall i :: 0 <= i < |labels| ==> Enabled(states[i], labels[i]) && states[i + 1] == Step(states[i], labels[i])
  }

  lemma {:induction false} RunInv(states: seq<State>, labels: seq<Label>, i: nat)
    requires Run(states, labels) && i < |states|
    ensures Inv(states[i])
  {
    if i > 0 {
      RunInv(states, labels, i - 1);
      StepKeepsInv(states[i - 1], labels[i - 1]);
    }
  }

  lemma BumpsStay(s: State, l: Label)
    requires Enabled(s, l)
    ensures forall ch :: ch in s.bumpedAt ==> ch in Step(s, l).bumpedAt && Step(s, l).bumpedAt[ch] == s.bumpedAt[ch]
    ensures forall t :: t in s.lookups ==>
              t in Step(s, l).lookups && Step(s, l).lookups[t].g == s.lookups[t].g &&
                  Step(s, l).lookups[t].host == s.lookups[t].host
  {
  }

  /** A lookup keeps the host and the generation it read, and bumps are never undone. */
  lemma {:induction false} LookupKeeps(states: seq<State>, labels: seq<Label>, i: nat, j: nat)
    requires Run(states, labels) && i < j < |states| && labels[i].ReadGeneration?
    ensures var t := labels[i].t;
            t in states[j].lookups && states[j].lookups[t].g == states[i].generation &&
                states[j].lookups[t].host == labels[i].host
    ensures forall ch :: ch in states[i].bumpedAt ==>
              ch in states[j].bumpedAt && states[j].bumpedAt[ch] == states[i].bumpedAt[ch]
  {
    if i + 1 < j {
      LookupKeeps(states, labels, i, j - 1);
      BumpsStay(states[j - 1], labels[j - 1]);
    }
  }

  /** Whatever lookups and mutators do meanwhile, also when a slow lookup has moved the cache's generation backwards:
      the answer a lookup returns is about its host and misses no change whose bump completed before it read the
      generation. */
  lemma NeverStale(states: seq<State>, labels: seq<Label>, i: nat, j: nat, ch: Change)
    requires Run(states, labels) && i < j < |states| && labels[i].ReadGeneration?
    requires labels[i].t in states[j].lookups && states[j].lookups[labels[i].t].Done? && ch in states[i].bumpedAt
    ensures var a := states[j].lookups[labels[i].t].a; a.host == labels[i].host && ch in a.seen
  {
    RunInv(states, labels, i);
    RunInv(states, labels, j);
    LookupKeeps(states, labels, i, j);
    assert LookupOk(states[j], states[j].lookups[labels[i].t]);
    assert states[j].bumpedAt[ch] <= states[j].lookups[labels[i].t].g;
  }

  lemma CacheIsCapped(states: seq<State>, labels: seq<Label>, i: nat)
    requires Run(states, labels) && i < |states|
    ensures |states[i].cache.entries| <= MAX_ENTRIES
  {
    RunInv(states, labels, i);
  }

  // ---------------------------------------------------------------- answers are kept

  /** The cache holds `a` for `host` in generation `g`. */
  predicate Keeps(c: Cache, g: nat, host: Host, a: Answer) {
    c.generation == g && host in c.entries && c.entries[host] == a
  }

  /** A step that gives up the answer for `host` in generation `g`: a check for another generation, or a store of that
      generation for the same host or into a table of 4096 answers. */
  predicate GivesUp(s: State, l: Label, g: nat, host: Host)
    requires Enabled(s, l)
  {
    || (l.Check? && s.lookups[l.t].g != g)
    || (l.Store? && s.lookups[l.t].g == g && (s.lookups[l.t].host == host || |s.cache.entries| >= 4096))
  }

  lemma KeepsStep(s: State, l: Label, g: nat, host: Host, a: Answer)
    requires Enabled(s, l) && Keeps(s.cache, g, host, a) && !GivesUp(s, l, g, host)
    ensures Keeps(Step(s, l).cache, g, host, a)
  {
  }

  lemma {:induction false} KeepsFrom(
      states: seq<State>, labels: seq<Label>, i: nat, j: nat, g: nat, host: Host, a: Answer)
    requires Run(states, labels) && i <= j < |states| && Keeps(states[i].cache, g, host, a)
    requires forall k :: i <= k < j ==> !GivesUp(states[k], labels[k], g, host)
    ensures Keeps(states[j].cache, g, host, a)
  {
    if i < j {
      KeepsFrom(states, labels, i, j - 1, g, host, a);
      KeepsStep(states[j - 1], labels[j - 1], g, host, a);
    }
  }

  /** A lookup that checks in the generation of an earlier store for its host returns the answer stored there, without a
      classification of its own, unless some step in between has given that answer up. */
  lemma StoredIsFound(states: seq<State>, labels: seq<Label>, i: nat, j: nat)
    requires Run(states, labels) && i < j < |labels| && labels[i].Store? && labels[j].Check?
    requires var stored, checked := states[i].lookups[labels[i].t], states[j].lookups[labels[j].t];
             && stored.g == states[i].cache.generation && checked.g == stored.g && checked.host == stored.host
             && forall k :: i < k < j ==> !GivesUp(states[k], labels[k], stored.g, stored.host)
    ensures var stored, checked := states[i].lookups[labels[i].t], states[j].lookups[labels[j].t];
            states[j + 1].lookups[labels[j].t] == Done(checked.host, checked.g, stored.a)
  {
    var stored := states[i].lookups[labels[i].t];
    assert Keeps(states[i + 1].cache, stored.g, stored.host, stored.a);
    KeepsFrom(states, labels, i + 1, j, stored.g, stored.host, stored.a);
  }

  // ---------------------------------------------------------------- the generation of the cache

  /** A step moves the generation of the cache backwards exactly when it checks for a lookup that read an earlier
      one. */
  lemma BackwardStep(s: State, l: Label)
    requires Enabled(s, l)
    ensures Step(s, l).cache.generation < s.cache.generation <==> l.Check? && s.lookups[l.t].g < s.cache.generation
    ensures Step(s, l).cache.generation == if l.Check? then s.lookups[l.t].g else s.cache.generation
  {
  }

  /** The generation that the lookup checked by step `i` had read. */
  ghost function CheckedAt(states: seq<State>, labels: seq<Label>, i: nat): nat
    requires Run(states, labels) && i < |labels| && labels[i].Check?
  {
    states[i].lookups[labels[i].t].g
  }

  /** The cache has the generation of the last check, or 0 before the first. */
  lemma {:induction false} GenerationOfLastCheck(states: seq<State>, labels: seq<Label>, i: nat)
    requires Run(states, labels) && i < |states|
    ensures states[i].cache.generation == 0 ||
            exists k :: 0 <= k < i && labels[k].Check? && CheckedAt(states, labels, k) == states[i].cache.generation
  {
    if i > 0 {
      GenerationOfLastCheck(states, labels, i - 1);
      BackwardStep(states[i - 1], labels[i - 1]);
      if labels[i - 1].Check? {
        assert CheckedAt(states, labels, i - 1) == states[i].cache.generation;
      }
    }
  }

  predicate Forward(s: State, s': State) {
    s.cache.generation <= s'.cache.generation
  }

  lemma {:induction false} ForwardChain(states: seq<State>, i: nat, j: nat)
    requires i <= j < |states| && forall k :: 0 < k < |states| ==> Forward(states[k - 1], states[k])
    ensures Forward(states[i], states[j])
  {
    if i < j {
      ForwardChain(states, i, j - 1);
      assert Forward(states[j - 1], states[j]);
    }
  }

  /** Lookups check in the order of the generations they read. */
  ghost predicate ChecksInOrder(states: seq<State>, labels: seq<Label>)
    requires Run(states, labels)
  {
    forall i, j :: 0 <= i < j < |labels| && labels[i].Check? && labels[j].Check? ==>
      CheckedAt(states, labels, i) <= CheckedAt(states, labels, j)
  }

  /** Over a run the generation of the cache never moves backwards if and only if lookups check in that order. */
  lemma ForwardExactlyWhenInOrder(states: seq<State>, labels: seq<Label>)
    requires Run(states, labels)
    ensures (forall k :: 0 < k < |states| ==> Forward(states[k - 1], states[k])) <==> ChecksInOrder(states, labels)
  {
    if forall k :: 0 < k < |states| ==> Forward(states[k - 1], states[k]) {
      forall i, j | 0 <= i < j < |labels| && labels[i].Check? && labels[j].Check?
        ensures CheckedAt(states, labels, i) <= CheckedAt(states, labels, j)
      {
        BackwardStep(states[i], labels[i]);
        BackwardStep(states[j], labels[j]);
        ForwardChain(states, i + 1, j + 1);
      }
    }
    if ChecksInOrder(states, labels) {
      forall k | 0 < k < |states|
        ensures Forward(states[k - 1], states[k])
      {
        InOrderIsForward(states, labels, k - 1);
      }
    }
  }

  lemma InOrderIsForward(states: seq<State>, labels: seq<Label>, i: nat)
    requires Run(states, labels) && i < |labels| && ChecksInOrder(states, labels)
    ensures Forward(states[i], states[i + 1])
  {
    BackwardStep(states[i], labels[i]);
    GenerationOfLastCheck(states, labels, i);
    if labels[i].Check? && states[i].cache.generation > 0 {
      var k :| 0 <= k < i && labels[k].Check? && CheckedAt(states, labels, k) == states[i].cache.generation;
      assert CheckedAt(states, labels, k) <= CheckedAt(states, labels, i);
    }
  }

  /** The generation of the cache does move backwards: a lookup that read generation 0 checks after one that read 1. */
  lemma CacheMovesBackwards()
    ensures var s1 := Step(INITIAL, ReadGeneration(0, "a"));
            var s2 := Step(s1, Apply(7));
            var s3 := Step(s2, Bump(7));
            var s4 := Step(s3, ReadGeneration(1, "a"));
            Enabled(s4, Check(1)) && Enabled(Step(s4, Check(1)), Check(0)) &&
            Step(s4, Check(1)).cache.generation == 1 && Step(Step(s4, Check(1)), Check(0)).cache.generation == 0
  {
  }
}
