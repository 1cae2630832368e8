/** What every run of the UDP session pool guarantees (client/proxy/udp_pool.go). */
module UdpTheorems {
  import opened UdpPool
  import opened UdpRuns

  /** A finite execution of one table from the empty pool. */
  ghost predicate Run(kind: Kind, states: seq<State>, labels: seq<Label>) {
    && |states| == |labels| + 1 && states[0] == Initial(kind)
    && forall i :: 0 <= i < |labels| ==> Enabled(states[i], labels[i]) && states[i + 1] == Step(states[i], labels[i])
  }

  lemma {:induction false} RunInv(kind: Kind, states: seq<State>, labels: seq<Label>, i: nat)
    requires Run(kind, states, labels) && i < |states|
    ensures Inv(states[i]) && states[i].kind == kind
  {
    if i > 0 {
      RunInv(kind, states, labels, i - 1);
      StepKeepsInv(states[i - 1], labels[i - 1]);
    }
  }

  lemma {:induction false} RunKind(kind: Kind, states: seq<State>, labels: seq<Label>, i: nat)
    requires Run(kind, states, labels) && i < |states|
    ensures states[i].kind == kind
  {
    if i > 0 {
      RunKind(kind, states, labels, i - 1);
    }
  }

  // ---------------------------------------------------------------- where sessions are

  predicate StoredUnder(s: State, k: Key, e: Ex) {
    k in s.w.table && s.w.table[k] == e
  }

  /** Thread `t` is bound to close `e`, or to register it or close it. */
  predicate HeldBy(s: State, t: Tid, e: Ex) {
    t in s.threads && e in Owned(s.threads[t])
  }

  /** Registered under one key, or held by one thread, or closed for good; a registered session has been closed only by
      its own read loop or response timer. */
  ghost predicate OnePlace(s: State, e: Ex) {
    && (forall k, j :: StoredUnder(s, k, e) && StoredUnder(s, j, e) ==> k == j)
    && (forall t, u :: HeldBy(s, t, e) && HeldBy(s, u, e) ==> t == u)
    && (forall k, t :: StoredUnder(s, k, e) ==> !HeldBy(s, t, e))
    && ((exists k :: StoredUnder(s, k, e)) || (exists t :: HeldBy(s, t, e)) || e in s.w.closedEx)
    && (forall k :: StoredUnder(s, k, e) && e in s.w.closedEx ==> e in s.w.early)
  }

  lemma PlaceIsOne(s: State, e: Ex)
    requires ThreadInv(s) && KeyInv(s.w) && SessionOk(s, e)
    ensures OnePlace(s, e)
  {
    forall k | StoredUnder(s, k, e)
      ensures Look(s.w.places, e) == At(k)
    {
      assert Look(s.w.places, s.w.table[k]) == At(k);
    }
    forall t | HeldBy(s, t, e)
      ensures Look(s.w.places, e) == Held(t)
    {
      assert ThreadOk(s, t);
    }
    match Look(s.w.places, e) {
      case At(k) => assert StoredUnder(s, k, e);
      case Held(t) => assert HeldBy(s, t, e);
      case Gone =>
    }
  }

  /** Every session ever opened has exactly one place at every moment. */
  lemma ExactlyOnePlace(kind: Kind, states: seq<State>, labels: seq<Label>, i: nat, e: Ex)
    requires Run(kind, states, labels) && i < |states| && e in states[i].w.places
    ensures OnePlace(states[i], e)
  {
    RunInv(kind, states, labels, i);
    PlaceIsOne(states[i], e);
  }

  lemma IdleOwnsOrClosed(s: State, e: Ex)
    requires SessionOk(s, e) && (s.w.scanned ==> s.w.table == map[])
    requires forall t :: t in s.threads ==> s.threads[t].Done?
    ensures (exists k :: StoredUnder(s, k, e)) || e in s.w.closedEx
    ensures s.w.scanned ==> e in s.w.closedEx
  {
    if Look(s.w.places, e).At? {
      assert StoredUnder(s, Look(s.w.places, e).key, e);
    }
  }

  /** Nothing leaks: once every call has returned, whatever was ever opened is in the table or closed, and closed if the
      pool is. */
  lemma IdlePoolOwnsOrClosed(kind: Kind, states: seq<State>, labels: seq<Label>, i: nat, e: Ex)
    requires Run(kind, states, labels) && i < |states| && e in states[i].w.places
    requires forall t :: t in states[i].threads ==> states[i].threads[t].Done?
    ensures (exists k :: StoredUnder(states[i], k, e)) || e in states[i].w.closedEx
    ensures states[i].w.scanned ==> e in states[i].w.closedEx
  {
    RunInv(kind, states, labels, i);
    IdleOwnsOrClosed(states[i], e);
  }

  // ---------------------------------------------------------------- entries

  lemma ScannedStays(s: State, l: Label)
    requires Enabled(s, l) && s.w.scanned
    ensures Step(s, l).w.scanned
  {
    if !l.Register? && !l.Remove? && !l.Tick? && !l.Scan? {
      SameTable(s, l);
    }
  }

  lemma {:induction false} ScanIsRemembered(kind: Kind, states: seq<State>, labels: seq<Label>, i: nat, j: nat)
    requires Run(kind, states, labels) && i <= j < |states| && states[i].w.scanned
    ensures states[j].w.scanned
  {
    if i < j {
      ScanIsRemembered(kind, states, labels, i, j - 1);
      ScannedStays(states[j - 1], labels[j - 1]);
    }
  }

  /** After the scan of close the table is empty for the rest of the run. */
  lemma EmptyForever(kind: Kind, states: seq<State>, labels: seq<Label>, i: nat, j: nat)
    requires Run(kind, states, labels) && i <= j < |states| && states[i].w.scanned
    ensures states[j].w.scanned && states[j].w.closed && states[j].w.table == map[]
  {
    ScanIsRemembered(kind, states, labels, i, j);
    RunInv(kind, states, labels, j);
  }

  /** What a step that takes `e` out owes it: a thread bound to close it, or for a direct socket that was not evicted
      the close itself. */
  predicate Discharged(s: State, l: Label, s': State, e: Ex) {
    if s.kind == Direct && !l.Register? then e in s'.w.closedEx else HeldBy(s', l.t, e)
  }

  /** A registered entry is never overwritten. If a step takes it out, it is an eviction, a cleanup tick, the scan of
      close or a removal naming this very session, and the acting thread is left bound to close it; a direct socket
      that was not evicted is closed by then. */
  lemma NoEntryIsLost(kind: Kind, states: seq<State>, labels: seq<Label>, i: nat, k: Key)
    requires Run(kind, states, labels) && i < |labels| && k in states[i].w.table
    ensures var s, s', l, e := states[i], states[i + 1], labels[i], states[i].w.table[k];
            || StoredUnder(s', k, e)
            || (&& k !in s'.w.table && Discharged(s, l, s', e)
                && (l.Tick? || l.Scan? || (l.Register? && k in l.gone) || (l.Remove? && l.ex == e)))
  {
    var s, l := states[i], labels[i];
    RunInv(kind, states, labels, i);
    EntryStep(s, l, k);
  }

  lemma EntryStep(s: State, l: Label, k: Key)
    requires Enabled(s, l) && k in s.w.table
    ensures var s' := Step(s, l); var e := s.w.table[k];
            || StoredUnder(s', k, e)
            || (&& k !in s'.w.table && Discharged(s, l, s', e)
                && (l.Tick? || l.Scan? || (l.Register? && k in l.gone) || (l.Remove? && l.ex == e)))
  {
    var e := s.w.table[k];
    if l.Register? {
      RegisterOutcome(s, l);
      EntryTaken(s.w, l.t, l.gone, k);
    } else if l.Remove? {
      if StillThere(s.w, l.ex) {
        EntryTaken(s.w, l.t, {s.w.keyOf[l.ex]}, k);
      }
    } else if l.Tick? {
      EntryTaken(s.w, l.t, l.stale, k);
    } else if l.Scan? {
      EntryTaken(s.w, l.t, s.w.table.Keys, k);
    } else {
      SameTable(s, l);
    }
  }

  lemma EntryTaken(w: World, t: Tid, keys: set<Key>, k: Key)
    requires k in w.table
    ensures TakeOut(w, t, keys).table == w.table - keys == Dispose(w, keys).table
    ensures if k in keys then k !in w.table - keys && w.table[k] in Sessions(w.table, keys)
            else k in w.table - keys && (w.table - keys)[k] == w.table[k]
  {
  }

  /** The machine changes the table by exactly what the sections of the class Pool promise. */
  lemma StepsAreSections(s: State, l: Label)
    requires Enabled(s, l)
    ensures var table, table' := s.w.table, Step(s, l).w.table;
            if l.Register? && !s.w.closed && s.threads[l.t].key !in table then
              table' == (table - l.gone)[s.threads[l.t].key := s.threads[l.t].ex]
            else if l.Remove? && StillThere(s.w, l.ex) then table' == table - {s.w.keyOf[l.ex]}
            else if l.Tick? then table' == table - l.stale
            else if l.Scan? then table' == map[]
            else table' == table
    ensures Step(s, l).w.closed <==> s.w.closed || l.ClosePool?
  {
    if l.Register? {
      RegisterOutcome(s, l);
    } else if l.Scan? {
      assert s.w.table - s.w.table.Keys == map[];
    } else if !l.Remove? && !l.Tick? {
      SameTable(s, l);
    }
    OnlyClosePoolCloses(s, l);
  }

  lemma OnlyClosePoolCloses(s: State, l: Label)
    requires Enabled(s, l)
    ensures NextWorld(s, l).closed <==> s.w.closed || l.ClosePool?
  {
  }

  // ---------------------------------------------------------------- created

  predicate ToldCreated(s: State, t: Tid, e: Ex) {
    t in s.threads && s.threads[t] == Done(Got(e, true))
  }

  lemma ToldIsMaker(s: State, t: Tid, e: Ex)
    requires ThreadInv(s) && ToldCreated(s, t, e)
    ensures MadeBy(s, e, t)
  {
    assert ThreadOk(s, t);
  }

  /** Of all calls that ever return, at most one is told that it created `e`. */
  lemma CreatedAtMostOnce(kind: Kind, states: seq<State>, labels: seq<Label>, i: nat, e: Ex, t: Tid, u: Tid)
    requires Run(kind, states, labels) && i < |states|
    requires ToldCreated(states[i], t, e) && ToldCreated(states[i], u, e)
    ensures t == u
  {
    RunInv(kind, states, labels, i);
    ToldIsMaker(states[i], t, e);
    ToldIsMaker(states[i], u, e);
  }

  /** The call that made `e` is under way, was told so, or found the pool closed. */
  predicate MakerOnTheWay(s: State, e: Ex, t: Tid) {
    t in s.threads && MadeBy(s, e, t) && (s.threads[t].Done? ==> ToldCreated(s, t, e) || s.w.closed)
  }

  lemma MakerHasAnswer(s: State, e: Ex)
    requires MakerInv(s) && e in s.w.maker
    ensures exists t :: MakerOnTheWay(s, e, t)
  {
    assert MakerOk(s, e, s.w.maker[e]);
    assert MakerOnTheWay(s, e, s.w.maker[e]);
  }

  /** A session that was ever registered has a creator, and unless the pool is closed by the time that call returns, it
      is told so, also if the session has been evicted, removed or cleaned up meanwhile. */
  lemma CreatorIsTold(kind: Kind, states: seq<State>, labels: seq<Label>, i: nat, e: Ex)
    requires Run(kind, states, labels) && i < |states| && e in states[i].w.maker
    ensures exists t :: MakerOnTheWay(states[i], e, t)
  {
    RunInv(kind, states, labels, i);
    MakerHasAnswer(states[i], e);
  }

  lemma CreatedIsMaker(s: State, t: Tid)
    requires ThreadInv(s) && MakerInv(s) && t in s.threads && s.threads[t].Done? && s.threads[t].answer.Got?
    ensures var a := s.threads[t].answer; a.ex in s.w.maker && (a.created <==> MadeBy(s, a.ex, t))
  {
    assert ThreadOk(s, t);
    var e := s.threads[t].answer.ex;
    assert MakerOk(s, e, s.w.maker[e]);
  }

  /** Every call that returned a session knows whether its payload went out with it: it is told `created` if and only
      if it is the one that registered the session, and every other caller must send its own payload. */
  lemma CreatedExactlyTheMaker(kind: Kind, states: seq<State>, labels: seq<Label>, i: nat, t: Tid)
    requires Run(kind, states, labels) && i < |states|
    requires t in states[i].threads && states[i].threads[t].Done? && states[i].threads[t].answer.Got?
    ensures var a := states[i].threads[t].answer;
            a.ex in states[i].w.maker && (a.created <==> MadeBy(states[i], a.ex, t))
  {
    RunInv(kind, states, labels, i);
    CreatedIsMaker(states[i], t);
  }

  /** `maker` knows every session that is or was in the table. */
  lemma {:induction false} RegisteredHasMaker(kind: Kind, states: seq<State>, labels: seq<Label>, i: nat, j: nat,
        k: Key)
    requires Run(kind, states, labels) && i <= j < |states| && k in states[i].w.table
    ensures states[i].w.table[k] in states[j].w.maker
    decreases j - i
  {
    if i == j {
      RunInv(kind, states, labels, i);
      EntryHasMaker(states[i], k);
    } else {
      RegisteredHasMaker(kind, states, labels, i, j - 1, k);
      MakersStay(states[j - 1], labels[j - 1], states[i].w.table[k]);
    }
  }

  lemma EntryHasMaker(s: State, k: Key)
    requires KeyInv(s.w) && SessionInv(s) && k in s.w.table
    ensures s.w.table[k] in s.w.maker
  {
    assert Look(s.w.places, s.w.table[k]) == At(k) && SessionOk(s, s.w.table[k]);
  }

  lemma MakersStay(s: State, l: Label, e: Ex)
    requires Enabled(s, l) && e in s.w.maker
    ensures e in Step(s, l).w.maker
  {
  }

  // ---------------------------------------------------------------- capacity

  lemma TableIsCapped(kind: Kind, states: seq<State>, labels: seq<Label>, i: nat)
    requires Run(kind, states, labels) && i < |states|
    ensures |states[i].w.table| <= MAX_EXCHANGES && "" !in states[i].w.table
    ensures kind == Exchanges ==> states[i].g.inflight == |states[i].g.counted|
    ensures kind == Exchanges ==>
              forall t :: t in states[i].g.counted <==> t in states[i].threads && Counted(states[i].threads[t])
  {
    RunInv(kind, states, labels, i);
  }

  /** Right after a registration the table and the other creations in progress fit the cap, or only the new entry is
      left. */
  lemma RegistrationFits(s: State, l: Label)
    requires Enabled(s, l) && l.Register? && s.kind == Exchanges && CountInv(s)
    requires l.load(|l.gone|) == s.g.inflight
    ensures s.g.inflight >= 1
    ensures var table := Step(s, l).w.table;
            table == s.w.table || |table| == 1 || |table| + s.g.inflight - 1 <= MAX_EXCHANGES
  {
    assert Counted(PcOf(s, l.t)) && l.t in s.g.counted;
    assert s.g.counted == (s.g.counted - {l.t}) + {l.t};
    if Registers(s, s.threads[l.t].key) {
      RoomLeft(s.w.table, l.gone, s.threads[l.t].key, s.threads[l.t].ex);
    }
  }

  /** A creator about to register is counted itself, and when its last test reads the true count, the table plus the
      other creations in progress fit the cap, or nothing but the new entry is left. */
  lemma RegistrationCountsCreations(states: seq<State>, labels: seq<Label>, i: nat)
    requires Run(Exchanges, states, labels) && i < |labels|
    requires labels[i].Register? && labels[i].load(|labels[i].gone|) == states[i].g.inflight
    ensures states[i].g.inflight >= 1
    ensures var table := states[i + 1].w.table;
            table == states[i].w.table || |table| == 1 || |table| + states[i].g.inflight - 1 <= MAX_EXCHANGES
  {
    RunInv(Exchanges, states, labels, i);
    RegistrationFits(states[i], labels[i]);
  }

  lemma EvictedIsOldest(table: map<Key, Ex>, out: set<Key>, load: nat -> nat, seen: Ex -> int, gone: Key, stays: Key)
    requires gone in out && (Evicts(table, out, load, seen) || EvictsOne(table, out, seen))
    ensures gone in table && (Evicts(table, out, load, seen) ==> |table| + load(0) > 128)
    ensures EvictsOne(table, out, seen) ==> |table| >= 128
    ensures stays in table && stays !in out ==> seen(table[gone]) <= seen(table[stays])
  {
    assert out != {} && |out| > 0;
  }

  /** A registration evicts only from a table that the creations in progress fill beyond the cap, or for the direct
      table one that is full, and never an entry that was used more recently than one that stays. */
  lemma EvictsOnlyTheOldestOfAFullTable(
      kind: Kind, states: seq<State>, labels: seq<Label>, i: nat, gone: Key, stays: Key)
    requires Run(kind, states, labels) && i < |labels| && labels[i].Register? && gone in labels[i].gone
    ensures gone in states[i].w.table
    ensures if kind == Exchanges then |states[i].w.table| + labels[i].load(0) > 128 else |states[i].w.table| >= 128
    ensures stays in states[i].w.table && stays !in labels[i].gone ==>
              labels[i].seen(states[i].w.table[gone]) <= labels[i].seen(states[i].w.table[stays])
  {
    RunKind(kind, states, labels, i);
    EvictedIsOldest(states[i].w.table, labels[i].gone, labels[i].load, labels[i].seen, gone, stays);
  }

  lemma RoomLeft(table: map<Key, Ex>, gone: set<Key>, key: Key, ex: Ex)
    requires gone <= table.Keys && key !in table
    ensures |(table - gone)[key := ex]| == |table| - |gone| + 1
  {
    assert (table - gone)[key := ex].Keys == (table.Keys - gone) + {key};
    assert |table.Keys - gone| == |table| - |gone|;
  }

  /** The defensive branch of createExchange, for an entry registered during its own flight, is never taken. */
  lemma DefenceIsDead(states: seq<State>, labels: seq<Label>, i: nat, t: Tid)
    requires Run(Exchanges, states, labels) && i < |states|
    requires t in states[i].threads && states[i].threads[t].Holding?
    ensures states[i].threads[t].key !in states[i].w.table
  {
    RunInv(Exchanges, states, labels, i);
    assert ThreadOk(states[i], t);
  }
}
