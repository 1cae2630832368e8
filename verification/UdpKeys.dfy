/** Whom the answers of the UDP session pool are for: a caller gets a session of the key it asked for, and is turned
    away only for cause (client/proxy/udp_pool.go). */
module UdpKeys {
  import opened UdpPool
  import opened UdpRuns
  import opened UdpTheorems

  /** The key each call of acquire asked for, and the keys whose session some call failed to open. */
  datatype History = History(asked: map<Tid, Key>, failed: set<Key>)

  ghost function Recorded(h: History, s: State, l: Label): History
    requires Enabled(s, l)
  {
    if l.Lookup? then h.(asked := h.asked[l.t := l.key])
    else if l.OpenFails? then h.(failed := h.failed + {s.threads[l.t].key})
    else h
  }

  /** `ex` was opened for `key`. */
  predicate Belongs(w: World, ex: Ex, key: Key) {
    ex in w.keyOf && w.keyOf[ex] == key
  }

  predicate Asks(h: History, t: Tid, key: Key) {
    t in h.asked && h.asked[t] == key
  }

  /** A failure for `key` has a cause. */
  predicate Excused(w: World, h: History, key: Key) {
    w.closed || key in h.failed
  }

  predicate ResultFor(w: World, h: History, key: Key, res: Result) {
    if res.Ok? then Belongs(w, res.ex, key) else Excused(w, h, key)
  }

  /** What a call works on, at each of its points, is about the key it asked for. */
  predicate CallOk(w: World, h: History, t: Tid, pc: Pc) {
    match pc
    case Missed(key) => Asks(h, t, key)
    case Waiting(leader) => t in h.asked && Asks(h, leader, h.asked[t])
    case Recheck(key) => Asks(h, t, key)
    case Counting(key) => Asks(h, t, key)
    case Opening(key) => Asks(h, t, key)
    case Holding(key, _) => Asks(h, t, key)
    case Refused(key, _, res) => Asks(h, t, key) && ResultFor(w, h, key, res)
    case Evicting(key, _, res) => Asks(h, t, key) && ResultFor(w, h, key, res)
    case Uncounting(key, res) => Asks(h, t, key) && ResultFor(w, h, key, res)
    case Publishing(key, res) => Asks(h, t, key) && ResultFor(w, h, key, res)
    case Checking(res) => t in h.asked && ResultFor(w, h, h.asked[t], res)
    case Done(answer) =>
      if answer.Got? then t in h.asked && Belongs(w, answer.ex, h.asked[t])
      else t in h.asked ==> Excused(w, h, h.asked[t])
    case Scanning => t !in h.asked
    case Closing(_) => t !in h.asked
    case Redundant(_) => t !in h.asked
  }

  ghost predicate CallsOk(s: State, h: History) {
    && h.asked.Keys <= s.threads.Keys
    && (forall t :: t in s.threads ==> CallOk(s.w, h, t, s.threads[t]))
  }

  /** Each flight is led by a call that asked for its key, and each published result is for the key of its leader. */
  ghost predicate GateOk(g: Gate, w: World, h: History) {
    && (forall k :: k in g.flights ==> Asks(h, g.flights[k], k))
    && (forall t :: t in g.results ==> t in h.asked && ResultFor(w, h, h.asked[t], g.results[t]))
  }

  ghost predicate HistoryInv(s: State, h: History) {
    CallsOk(s, h) && GateOk(s.g, s.w, h)
  }

  // ---------------------------------------------------------------- preservation

  /** What later states and histories keep. */
  ghost predicate Later(w: World, h: History, w': World, h': History) {
    && (forall e :: e in w.keyOf ==> e in w'.keyOf && w'.keyOf[e] == w.keyOf[e]) && (w.closed ==> w'.closed)
    && h.failed <= h'.failed && (forall t :: t in h.asked ==> t in h'.asked && h'.asked[t] == h.asked[t])
  }

  lemma CallStays(w: World, h: History, w': World, h': History, t: Tid, pc: Pc)
    requires Later(w, h, w', h') && CallOk(w, h, t, pc) && (t in h.asked <==> t in h'.asked)
    ensures CallOk(w', h', t, pc)
  {
  }

  lemma TableIsKeyed(s: State, k: Key)
    requires KeyInv(s.w) && SessionInv(s) && k in s.w.table
    ensures Belongs(s.w, s.w.table[k], k)
  {
    assert Look(s.w.places, s.w.table[k]) == At(k) && SessionOk(s, s.w.table[k]);
  }

  lemma StepIsLater(s: State, h: History, l: Label)
    requires Inv(s) && Enabled(s, l) && h.asked.Keys <= s.threads.Keys
    ensures Later(s.w, h, NextWorld(s, l), Recorded(h, s, l))
  {
    StepWorld(s, l);
  }

  /** The labels that settle what a flight will report. */
  predicate Settles(l: Label) {
    l.Lookup? || l.RecheckTable? || l.Register?
  }

  lemma SettlerOk(s: State, h: History, l: Label)
    requires Inv(s) && HistoryInv(s, h) && Enabled(s, l) && Settles(l)
    ensures CallOk(NextWorld(s, l), Recorded(h, s, l), l.t, NextPc(s, l))
  {
    StepIsLater(s, h, l);
    var key := if l.Lookup? then l.key else s.threads[l.t].key;
    if key in s.w.table {
      TableIsKeyed(s, key);
    }
    if l.Register? {
      assert ThreadOk(s, l.t) && CallOk(s.w, h, l.t, s.threads[l.t]);
    } else if l.RecheckTable? {
      assert CallOk(s.w, h, l.t, s.threads[l.t]);
    }
  }

  lemma MoverOk(s: State, h: History, l: Label)
    requires Enabled(s, l) && HistoryInv(s, h) && !Settles(l) && l.t in s.threads
    requires Later(s.w, h, NextWorld(s, l), Recorded(h, s, l))
    ensures CallOk(NextWorld(s, l), Recorded(h, s, l), l.t, NextPc(s, l))
  {
    assert CallOk(s.w, h, l.t, s.threads[l.t]);
  }

  lemma OutsiderOk(s: State, h: History, l: Label)
    requires Enabled(s, l) && HistoryInv(s, h) && !l.Lookup? && l.t !in s.threads
    ensures CallOk(NextWorld(s, l), Recorded(h, s, l), l.t, NextPc(s, l))
  {
  }

  lemma StepKeepsCalls(s: State, h: History, l: Label)
    requires Inv(s) && HistoryInv(s, h) && Enabled(s, l)
    ensures CallsOk(Step(s, l), Recorded(h, s, l))
  {
    var s', h' := Step(s, l), Recorded(h, s, l);
    StepIsLater(s, h, l);
    if Settles(l) {
      SettlerOk(s, h, l);
    } else if l.t in s.threads {
      MoverOk(s, h, l);
    } else {
      OutsiderOk(s, h, l);
    }
    forall t | t in s'.threads
      ensures CallOk(s'.w, h', t, s'.threads[t])
    {
      if t != l.t {
        CallStays(s.w, h, s'.w, h', t, s.threads[t]);
      }
    }
  }

  lemma GateLater(g: Gate, w: World, h: History, w': World, h': History)
    requires GateOk(g, w, h) && Later(w, h, w', h')
    ensures GateOk(g, w', h')
  {
    forall t | t in g.results
      ensures t in h'.asked && ResultFor(w', h', h'.asked[t], g.results[t])
    {
      assert t in h.asked && ResultFor(w, h, h.asked[t], g.results[t]);
    }
  }

  lemma JoinKeepsGate(s: State, h: History, l: Label)
    requires HistoryInv(s, h) && Enabled(s, l) && l.Join?
    ensures GateOk(NextGate(s, l), s.w, h)
  {
    assert CallOk(s.w, h, l.t, s.threads[l.t]);
  }

  lemma PublishKeepsGate(s: State, h: History, l: Label)
    requires HistoryInv(s, h) && Enabled(s, l) && l.Publish?
    ensures GateOk(NextGate(s, l), s.w, h)
  {
    assert CallOk(s.w, h, l.t, s.threads[l.t]);
  }

  lemma StepKeepsGate(s: State, h: History, l: Label)
    requires Inv(s) && HistoryInv(s, h) && Enabled(s, l)
    ensures GateOk(NextGate(s, l), NextWorld(s, l), Recorded(h, s, l))
  {
    StepIsLater(s, h, l);
    if l.Join? {
      JoinKeepsGate(s, h, l);
    } else if l.Publish? {
      PublishKeepsGate(s, h, l);
    } else {
      GateStays(s, l);
      GateAsBefore(s.g, NextGate(s, l), s.w, h);
    }
    GateLater(NextGate(s, l), s.w, h, NextWorld(s, l), Recorded(h, s, l));
  }

  lemma GateAsBefore(g: Gate, g': Gate, w: World, h: History)
    requires GateOk(g, w, h) && g'.flights == g.flights && g'.results == g.results
    ensures GateOk(g', w, h)
  {
  }

  lemma GateStays(s: State, l: Label)
    requires Enabled(s, l) && !l.Join? && !l.Publish?
    ensures NextGate(s, l).flights == s.g.flights && NextGate(s, l).results == s.g.results
  {
  }

  // ---------------------------------------------------------------- what every run guarantees

  /** The history after the first `i` steps. */
  ghost function HistoryAt(kind: Kind, states: seq<State>, labels: seq<Label>, i: nat): History
    requires Run(kind, states, labels) && i < |states|
  {
    if i == 0 then History(map[], {}) else Recorded(HistoryAt(kind, states, labels, i - 1), states[i - 1],
        labels[i - 1])
  }

  lemma {:induction false} RunHistory(kind: Kind, states: seq<State>, labels: seq<Label>, i: nat)
    requires Run(kind, states, labels) && i < |states|
    ensures HistoryInv(states[i], HistoryAt(kind, states, labels, i))
  {
    if i > 0 {
      RunHistory(kind, states, labels, i - 1);
      RunInv(kind, states, labels, i - 1);
      var h := HistoryAt(kind, states, labels, i - 1);
      StepKeepsCalls(states[i - 1], h, labels[i - 1]);
      StepKeepsGate(states[i - 1], h, labels[i - 1]);
    }
  }

  lemma {:induction false} AskedStays(kind: Kind, states: seq<State>, labels: seq<Label>, i: nat, j: nat)
    requires Run(kind, states, labels) && i < j < |states| && labels[i].Lookup?
    ensures Asks(HistoryAt(kind, states, labels, j), labels[i].t, labels[i].key)
    decreases j - i
  {
    if i + 1 < j {
      AskedStays(kind, states, labels, i, j - 1);
      RunHistory(kind, states, labels, j - 1);
    }
  }

  lemma {:induction false} FailedHasCause(kind: Kind, states: seq<State>, labels: seq<Label>, j: nat, key: Key)
    requires Run(kind, states, labels) && j < |states| && key in HistoryAt(kind, states, labels, j).failed
    ensures exists m :: 0 <= m < j && FailedToOpen(states, labels, m, key)
  {
    if labels[j - 1].OpenFails? && states[j - 1].threads[labels[j - 1].t].key == key {
      assert FailedToOpen(states, labels, j - 1, key);
    } else {
      FailedHasCause(kind, states, labels, j - 1, key);
    }
  }

  /** Step `m` is a failed attempt to open a session for `key`. */
  ghost predicate FailedToOpen(states: seq<State>, labels: seq<Label>, m: nat, key: Key) {
    && m < |labels| && m < |states| && labels[m].OpenFails? && Enabled(states[m], labels[m])
    && states[m].threads[labels[m].t].key == key
  }

  /** A call that asked for `key` and got a session got one that was opened for `key`, however it came by it: from the
      table, by its own flight, or by another call's. */
  lemma AnswerIsForTheKey(kind: Kind, states: seq<State>, labels: seq<Label>, i: nat, j: nat)
    requires Run(kind, states, labels) && i < j < |states| && labels[i].Lookup?
    requires var t := labels[i].t;
             t in states[j].threads && states[j].threads[t].Done? && states[j].threads[t].answer.Got?
    ensures Belongs(states[j].w, states[j].threads[labels[i].t].answer.ex, labels[i].key)
  {
    RunHistory(kind, states, labels, j);
    AskedStays(kind, states, labels, i, j);
  }

  /** A call that asked for `key` is turned away only if the pool is closed or some attempt to open a session for `key`
      failed. */
  lemma FailureHasCause(kind: Kind, states: seq<State>, labels: seq<Label>, i: nat, j: nat)
    requires Run(kind, states, labels) && i < j < |states| && labels[i].Lookup?
    requires labels[i].t in states[j].threads && states[j].threads[labels[i].t] == Done(Failure)
    ensures states[j].w.closed || exists m :: 0 <= m < j && FailedToOpen(states, labels, m, labels[i].key)
  {
    RunHistory(kind, states, labels, j);
    AskedStays(kind, states, labels, i, j);
    if !states[j].w.closed {
      FailedHasCause(kind, states, labels, j, labels[i].key);
    }
  }

  /** A lookup that finds its key in the table returns at once with what the table holds under it, as not created; one
      that does not goes on to create it. */
  lemma LookupReadsTheTable(kind: Kind, states: seq<State>, labels: seq<Label>, i: nat)
    requires Run(kind, states, labels) && i < |labels| && labels[i].Lookup?
    ensures var t, key, table := labels[i].t, labels[i].key, states[i].w.table;
            && t in states[i + 1].threads
            && states[i + 1].threads[t] == if key in table then Done(Got(table[key], false)) else Missed(key)
  {
  }

  // ---------------------------------------------------------------- after close

  /** No call of `t` has returned with a session. */
  predicate EmptyHanded(s: State, t: Tid) {
    t in s.threads && s.threads[t].Done? ==> s.threads[t].answer == Failure
  }

  lemma NothingToGet(s: State, l: Label, t: Tid)
    requires Enabled(s, l) && s.w.closed && s.w.table == map[] && EmptyHanded(s, t)
    ensures EmptyHanded(Step(s, l), t)
  {
  }

  /** Once the pool is closed and scanned, every call that is under way or still to come returns without a session. */
  lemma {:induction false} NoSessionAfterClose(
      kind: Kind, states: seq<State>, labels: seq<Label>, i: nat, j: nat, t: Tid)
    requires Run(kind, states, labels) && i <= j < |states| && states[i].w.scanned && EmptyHanded(states[i], t)
    ensures EmptyHanded(states[j], t)
  {
    if i < j {
      NoSessionAfterClose(kind, states, labels, i, j - 1, t);
      EmptyForever(kind, states, labels, i, j - 1);
      NothingToGet(states[j - 1], labels[j - 1], t);
    }
  }
}
