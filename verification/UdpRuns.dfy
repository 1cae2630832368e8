/** Every interleaving of acquire, remove, idle cleanup, early close and pool close on one table of the UDP session pool
    (client/proxy/udp_pool.go). `kind` selects the exchange table or the direct-socket table; they differ in the
    re-check on entry, the in-flight count and the eviction rule. A thread performs one call. */
module UdpRuns {
  import opened UdpPool

  type Tid = nat

  datatype Kind = Exchanges | Direct

  /** What one singleflight execution produces: the session, whether it was made here, and whose token it carries. */
  datatype Result = Ok(ex: Ex, created: bool, owner: Tid) | Err

  datatype Answer = Got(ex: Ex, created: bool) | Failure

  datatype Pc =
    | Missed(key: Key)                           // not in the table, about to enter singleflight
    | Waiting(leader: Tid)
    | Recheck(key: Key) | Counting(key: Key) | Opening(key: Key)
    | Holding(key: Key, ex: Ex)                  // opened, not yet registered
    | Refused(key: Key, ex: Ex, res: Result)     // must be closed, then the flight ends with res
    | Evicting(key: Key, victims: set<Ex>, res: Result)
    | Uncounting(key: Key, res: Result) | Publishing(key: Key, res: Result)
    | Checking(res: Result)
    | Scanning                                   // close: `closed` is set, the scan is ahead
    | Closing(victims: set<Ex>)
    | Redundant(ex: Ex)                          // closes something it did not take out
    | Done(answer: Answer)

  /** Where a session is: in the table, held by the one thread bound to close or register it, or finished. */
  datatype Place = At(key: Key) | Held(t: Tid) | Gone

  /** The table, what became of each session, and who registered it. */
  datatype World = World(
    table: map<Key, Ex>, closed: bool, scanned: bool,
    places: map<Ex, Place>, keyOf: map<Ex, Key>, closedEx: set<Ex>, early: set<Ex>, maker: map<Ex, Tid>)

  /** Singleflight and the count of creations in progress. */
  datatype Gate = Gate(flights: map<Key, Tid>, results: map<Tid, Result>, inflight: nat, counted: set<Tid>)

  datatype State = State(kind: Kind, threads: map<Tid, Pc>, w: World, g: Gate)

  datatype Label =
    | Lookup(t: Tid, key: Key)
    | Join(t: Tid) | RecheckTable(t: Tid) | Count(t: Tid)
    | Open(t: Tid, ex: Ex) | OpenFails(t: Tid)
    | Register(t: Tid, gone: set<Key>, load: nat -> nat, seen: Ex -> int)
    | CloseRefused(t: Tid) | CloseVictim(t: Tid, ex: Ex) | VictimsClosed(t: Tid)
    | Uncount(t: Tid) | Publish(t: Tid) | Collect(t: Tid) | Check(t: Tid)
    | Remove(t: Tid, ex: Ex) | CloseRedundant(t: Tid)
    | Tick(t: Tid, stale: set<Key>)
    | ClosePool(t: Tid) | Scan(t: Tid)
    | CloseEarly(t: Tid, ex: Ex)

  function Initial(kind: Kind): State {
    State(kind, map[], World(map[], false, false, map[], map[], {}, {}, map[]), Gate(map[], map[], 0, {}))
  }

  // ---------------------------------------------------------------- steps

  function Sessions(table: map<Key, Ex>, keys: set<Key>): set<Ex> {
    set k | k in keys && k in table :: table[k]
  }

  /** Take `keys` out of the table into the hands of `t`. */
  function TakeOut(w: World, t: Tid, keys: set<Key>): World {
    var out := Sessions(w.table, keys);
    w.(table := w.table - keys, places := map e | e in w.places :: if e in out then Held(t) else w.places[e])
  }

  /** Direct sockets are closed under the lock as they leave the table. */
  function Dispose(w: World, keys: set<Key>): World {
    var out := Sessions(w.table, keys);
    w.(table := w.table - keys, places := map e | e in w.places :: if e in out then Gone else w.places[e],
       closedEx := w.closedEx + out)
  }

  /** How cleanup, close and removal take sessions out: exchanges are closed later, outside the lock. */
  function Leave(kind: Kind, w: World, t: Tid, keys: set<Key>): World {
    if kind == Direct then Dispose(w, keys) else TakeOut(w, t, keys)
  }

  function AfterLeave(kind: Kind, out: set<Ex>): Pc {
    if kind == Direct then Done(Failure) else Closing(out)
  }

  /** After its session is settled an exchange flight still has to lower `inflight`. */
  function Settle(kind: Kind, key: Key, res: Result): Pc {
    if kind == Exchanges then Uncounting(key, res) else Publishing(key, res)
  }

  predicate Registers(s: State, key: Key) {
    !s.w.closed && key !in s.w.table
  }

  predicate StillThere(w: World, ex: Ex) {
    ex in w.keyOf && w.keyOf[ex] in w.table && w.table[w.keyOf[ex]] == ex
  }

  ghost predicate Enabled(s: State, l: Label) {
    match l
    case Lookup(t, key) => t !in s.threads && key != ""
    case Join(t) => t in s.threads && s.threads[t].Missed?
    case RecheckTable(t) => t in s.threads && s.threads[t].Recheck?
    case Count(t) => t in s.threads && s.threads[t].Counting?
    case Open(t, ex) => t in s.threads && s.threads[t].Opening? && ex !in s.w.places
    case OpenFails(t) => t in s.threads && s.threads[t].Opening?
    case Register(t, gone, load, seen) =>
      && t in s.threads && s.threads[t].Holding?
      && if s.kind == Exchanges then Evicts(s.w.table, gone, load, seen) && load(|gone|) >= 1
        else EvictsOne(s.w.table, gone, seen)
    case CloseRefused(t) => t in s.threads && s.threads[t].Refused?
    case CloseVictim(t, ex) =>
      t in s.threads && (s.threads[t].Evicting? || s.threads[t].Closing?) && ex in s.threads[t].victims
    case VictimsClosed(t) => t in s.threads && (s.threads[t].Evicting? || s.threads[t].Closing?) &&
        s.threads[t].victims == {}
    case Uncount(t) => t in s.threads && s.threads[t].Uncounting?
    case Publish(t) => t in s.threads && s.threads[t].Publishing?
    case Collect(t) => t in s.threads && s.threads[t].Waiting? && s.threads[t].leader in s.g.results
    case Check(t) => t in s.threads && s.threads[t].Checking?
    case Remove(t, ex) => t !in s.threads && ex in s.w.maker && (s.kind == Direct ==> ex in s.w.closedEx)
    case CloseRedundant(t) => t in s.threads && s.threads[t].Redundant?
    case Tick(t, stale) => t !in s.threads && stale <= s.w.table.Keys
    case ClosePool(t) => t !in s.threads
    case Scan(t) => t in s.threads && s.threads[t].Scanning?
    case CloseEarly(t, ex) => t !in s.threads && ex in s.w.maker
  }

  /** The acting thread's next program point. */
  ghost function NextPc(s: State, l: Label): Pc
    requires Enabled(s, l)
  {
    match l
    case Lookup(t, key) => if key in s.w.table then Done(Got(s.w.table[key], false)) else Missed(key)
    case Join(t) =>
      var key := s.threads[t].key;
      if key in s.g.flights then Waiting(s.g.flights[key])
      else if s.kind == Exchanges then Recheck(key) else Opening(key)
    case RecheckTable(t) =>
      var key := s.threads[t].key;
      if key in s.w.table then Publishing(key, Ok(s.w.table[key], false, t)) else Counting(key)
    case Count(t) => Opening(s.threads[t].key)
    case Open(t, ex) => Holding(s.threads[t].key, ex)
    case OpenFails(t) => Settle(s.kind, s.threads[t].key, Err)
    case Register(t, gone, _, _) =>
      var key, ex := s.threads[t].key, s.threads[t].ex;
      if Registers(s, key) then Evicting(key, Sessions(s.w.table, gone), Ok(ex, true, t))
      else if s.w.closed || s.kind == Exchanges then Refused(key, ex, Err)
      else Refused(key, ex, Ok(s.w.table[key], false, t))
    case CloseRefused(t) => Settle(s.kind, s.threads[t].key, s.threads[t].res)
    case CloseVictim(t, ex) =>
      var pc := s.threads[t];
      if pc.Evicting? then Evicting(pc.key, pc.victims - {ex}, pc.res) else Closing(pc.victims - {ex})
    case VictimsClosed(t) =>
      var pc := s.threads[t];
      if pc.Evicting? then Settle(s.kind, pc.key, pc.res) else Done(Failure)
    case Uncount(t) => Publishing(s.threads[t].key, s.threads[t].res)
    case Publish(t) => Checking(s.threads[t].res)
    case Collect(t) => Checking(s.g.results[s.threads[t].leader])
    case Check(t) =>
      var res := s.threads[t].res;
      Done(if res.Err? || s.w.closed then Failure else Got(res.ex, res.created && res.owner == t))
    case Remove(t, ex) =>
      if StillThere(s.w, ex) then AfterLeave(s.kind, {ex}) else if s.kind == Direct then Done(Failure)
          else Redundant(ex)
    case CloseRedundant(t) => Done(Failure)
    case Tick(t, stale) => AfterLeave(s.kind, Sessions(s.w.table, stale))
    case ClosePool(t) => Scanning
    case Scan(t) => AfterLeave(s.kind, Sessions(s.w.table, s.w.table.Keys))
    case CloseEarly(t, ex) => Done(Failure)
  }

  ghost function NextWorld(s: State, l: Label): World
    requires Enabled(s, l)
  {
    var w := s.w;
    match l
    case Open(t, ex) => w.(places := w.places[ex := Held(t)], keyOf := w.keyOf[ex := s.threads[t].key])
    case Register(t, gone, _, _) =>
      var key, ex := s.threads[t].key, s.threads[t].ex;
      if Registers(s, key) then
        var w' := TakeOut(w, t, gone);
        w'.(table := w'.table[key := ex], places := w'.places[ex := At(key)], maker := w.maker[ex := t])
      else w
    case CloseRefused(t) => Closed(w, s.threads[t].ex)
    case CloseVictim(_, ex) => Closed(w, ex)
    case Remove(t, ex) => if StillThere(w, ex) then Leave(s.kind, w, t, {w.keyOf[ex]}) else w
    case CloseRedundant(t) => w.(closedEx := w.closedEx + {s.threads[t].ex})
    case Tick(t, stale) => Leave(s.kind, w, t, stale)
    case ClosePool(_) => w.(closed := true)
    case Scan(t) => Leave(s.kind, w, t, w.table.Keys).(scanned := true)
    case CloseEarly(_, ex) => w.(closedEx := w.closedEx + {ex}, early := w.early + {ex})
    case _ => w
  }

  function Closed(w: World, ex: Ex): World {
    w.(places := w.places[ex := Gone], closedEx := w.closedEx + {ex})
  }

  ghost function NextGate(s: State, l: Label): Gate
    requires Enabled(s, l)
  {
    var g := s.g;
    match l
    case Join(t) =>
      if s.threads[t].key in g.flights then g else g.(flights := g.flights[s.threads[t].key := t])
    case Count(t) => g.(inflight := g.inflight + 1, counted := g.counted + {t})
    case Uncount(t) => g.(inflight := if g.inflight > 0 then g.inflight - 1 else 0, counted := g.counted - {t})
    case Publish(t) => g.(flights := g.flights - {s.threads[t].key}, results := g.results[t := s.threads[t].res])
    case _ => g
  }

  ghost function Step(s: State, l: Label): State
    requires Enabled(s, l)
  {
    State(s.kind, s.threads[l.t := NextPc(s, l)], NextWorld(s, l), NextGate(s, l))
  }

  // ---------------------------------------------------------------- invariant

  /** The sessions a thread is bound to close, or to register or close. */
  function Owned(pc: Pc): set<Ex> {
    match pc
    case Holding(_, ex) => {ex}
    case Refused(_, ex, _) => {ex}
    case Evicting(_, victims, _) => victims
    case Closing(victims) => victims
    case _ => {}
  }

  predicate Leads(pc: Pc) {
    pc.Recheck? || pc.Counting? || pc.Opening? || pc.Holding? || pc.Refused? || pc.Evicting? || pc.Uncounting? ||
        pc.Publishing?
  }

  predicate Counted(pc: Pc) {
    pc.Opening? || pc.Holding? || pc.Refused? || pc.Evicting? || pc.Uncounting?
  }

  function PcOf(s: State, t: Tid): Pc {
    if t in s.threads then s.threads[t] else Done(Failure)
  }

  function Look(places: map<Ex, Place>, e: Ex): Place {
    if e in places then places[e] else Gone
  }

  predicate MadeBy(s: State, e: Ex, t: Tid) {
    e in s.w.maker && s.w.maker[e] == t
  }

  predicate LedBy(s: State, key: Key, t: Tid) {
    key in s.g.flights && s.g.flights[key] == t
  }

  /** `res` may be reported by the flight that `t` leads. */
  predicate LeaderResult(s: State, t: Tid, res: Result) {
    res.Ok? ==> res.ex in s.w.maker && res.owner == t && (res.created ==> MadeBy(s, res.ex, t))
  }

  /** What holds at each point of a call. */
  predicate PcOk(s: State, t: Tid, pc: Pc) {
    match pc
    case Missed(key) => key != ""
    case Recheck(_) => s.kind == Exchanges
    case Counting(key) => s.kind == Exchanges && key !in s.w.table
    case Opening(key) => s.kind == Exchanges ==> key !in s.w.table
    case Holding(key, ex) =>
      && (s.kind == Exchanges ==> key !in s.w.table) && ex !in s.w.maker && ex !in s.w.closedEx
      && ex in s.w.keyOf && s.w.keyOf[ex] == key
    case Refused(_, ex, res) => ex !in s.w.maker && LeaderResult(s, t, res) && !(res.Ok? && res.created)
    case Evicting(_, _, res) => LeaderResult(s, t, res)
    case Uncounting(_, res) => s.kind == Exchanges && LeaderResult(s, t, res)
    case Publishing(_, res) => LeaderResult(s, t, res)
    case Checking(res) => res.Ok? ==> res.ex in s.w.maker && (res.created ==> MadeBy(s, res.ex, res.owner))
    case Redundant(ex) => ex in s.w.maker && !Look(s.w.places, ex).At?
    case Scanning => s.w.closed
    case Done(answer) => answer.Got? ==> answer.ex in s.w.maker && (answer.created ==> MadeBy(s, answer.ex, t))
    case _ => true
  }

  ghost predicate ThreadOk(s: State, t: Tid) {
    var pc := PcOf(s, t);
    && (forall e :: e in Owned(pc) ==> Look(s.w.places, e) == Held(t))
    && (Leads(pc) ==> LedBy(s, pc.key, t) && pc.key != "")
    && PcOk(s, t, pc)
  }

  predicate SessionOk(s: State, e: Ex) {
    match Look(s.w.places, e)
    case At(k) =>
      && k in s.w.table && s.w.table[k] == e && e in s.w.keyOf && s.w.keyOf[e] == k && e in s.w.maker
      && (e in s.w.closedEx ==> e in s.w.early)
    case Held(t) => e in Owned(PcOf(s, t))
    case Gone => e in s.w.closedEx
  }

  /** The thread that registered `e` is on its way to report it, has reported it, or found the pool closed. */
  predicate MakerOk(s: State, e: Ex, t: Tid) {
    var pc := PcOf(s, t);
    && t in s.threads
    && if pc.Done? then pc.answer == Got(e, true) || (pc.answer.Failure? && s.w.closed)
       else (pc.Evicting? || pc.Uncounting? || pc.Publishing? || pc.Checking?) && pc.res == Ok(e, true, t)
  }

  ghost predicate ThreadInv(s: State) {
    forall t :: t in s.threads ==> ThreadOk(s, t)
  }

  ghost predicate FlightInv(s: State) {
    && (forall k :: k in s.g.flights ==> Leads(PcOf(s, s.g.flights[k])) && PcOf(s, s.g.flights[k]).key == k)
    && (forall t :: t in s.g.results ==> LeaderResult(s, t, s.g.results[t]))
  }

  predicate DomainInv(w: World) {
    w.keyOf.Keys == w.places.Keys && w.closedEx <= w.places.Keys && w.maker.Keys <= w.places.Keys
  }

  ghost predicate KeyInv(w: World) {
    forall k :: k in w.table ==> k != "" && Look(w.places, w.table[k]) == At(k) && w.table[k] in w.maker
  }

  ghost predicate SessionInv(s: State) {
    forall e :: e in s.w.places ==> SessionOk(s, e)
  }

  ghost predicate MakerInv(s: State) {
    forall e :: e in s.w.maker ==> MakerOk(s, e, s.w.maker[e])
  }

  ghost predicate CountInv(s: State) {
    && s.g.inflight == |s.g.counted|
    && (s.kind == Exchanges ==> forall t :: t in s.g.counted <==> Counted(PcOf(s, t)))
  }

  ghost predicate TableInv(s: State) {
    && |s.w.table| <= MAX_EXCHANGES
    && (s.w.scanned ==> s.w.closed && s.w.table == map[])
  }

  ghost predicate Inv(s: State) {
    ThreadInv(s) && FlightInv(s) && DomainInv(s.w) && KeyInv(s.w) && SessionInv(s) && MakerInv(s) && CountInv(s) &&
        TableInv(s)
  }

  // ---------------------------------------------------------------- preservation: other threads

  /** What a step by `t`, leader of the keys that `f` gives it, may do to the world. Held sessions stay with their
      holders, only a session without a maker can newly enter the table, and only under a key that `t` leads. */
  ghost predicate WorldEvolves(w: World, w': World, f: map<Key, Tid>, t: Tid) {
    && (w.closed ==> w'.closed)
    && (forall e :: Look(w.places, e).Held? && Look(w.places, e).t != t ==> Look(w'.places, e) == Look(w.places, e))
    && (forall e :: e in w.maker && !Look(w.places, e).At? ==> !Look(w'.places, e).At?)
    && (forall e :: e in w.maker ==> e in w'.maker && w'.maker[e] == w.maker[e])
    && (forall e :: e in w'.maker && e !in w.maker ==> Look(w.places, e) == Held(t))
    && (forall e :: e in w'.closedEx && e !in w.closedEx ==> Look(w.places, e) == Held(t) || e in w.maker)
    && (forall e :: e in w.keyOf ==> e in w'.keyOf && w'.keyOf[e] == w.keyOf[e])
    && (forall k :: k in w'.table && k !in w.table ==> k in f && f[k] == t)
  }

  ghost predicate FlightsEvolve(f: map<Key, Tid>, f': map<Key, Tid>, t: Tid) {
    forall k :: k in f && f[k] != t ==> k in f' && f'[k] == f[k]
  }

  /** A thread that does not act keeps what it relies on. */
  lemma OthersOk(s: State, s': State, t: Tid, u: Tid)
    requires s'.kind == s.kind && t in s'.threads && s'.threads == s.threads[t := s'.threads[t]]
    requires WorldEvolves(s.w, s'.w, s.g.flights, t) && FlightsEvolve(s.g.flights, s'.g.flights, t)
    requires u != t && u in s.threads && ThreadOk(s, u)
    ensures ThreadOk(s', u)
  {
    var pc := PcOf(s, u);
    assert PcOf(s', u) == pc;
    forall e | e in Owned(pc)
      ensures Look(s'.w.places, e) == Held(u)
    {
      assert Look(s.w.places, e) == Held(u);
    }
    match pc {
      case Holding(_, ex) => assert ex in Owned(pc) && Look(s.w.places, ex) == Held(u);
      case Refused(_, ex, _) => assert ex in Owned(pc) && Look(s.w.places, ex) == Held(u);
      case Redundant(ex) => assert !Look(s.w.places, ex).At?;
      case _ =>
    }
  }

  // ---------------------------------------------------------------- preservation: the world

  /** What a step may rely on: its own thread, and the table it works on. */
  ghost predicate Stepping(s: State, l: Label) {
    Enabled(s, l) && DomainInv(s.w) && KeyInv(s.w) && (l.t in s.threads ==> ThreadOk(s, l.t))
  }

  lemma TakeOutEvolves(w: World, f: map<Key, Tid>, t: Tid, keys: set<Key>)
    requires KeyInv(w) && DomainInv(w)
    ensures var w' := TakeOut(w, t, keys); WorldEvolves(w, w', f, t) && KeyInv(w') && DomainInv(w')
    ensures forall e :: e in Sessions(w.table, keys) ==>
              Look(w.places, e).At? && Look(TakeOut(w, t, keys).places, e) == Held(t)
  {
    var w' := TakeOut(w, t, keys);
    forall e | e in Sessions(w.table, keys)
      ensures Look(w.places, e).At? && Look(w.places, e).key in keys
    {
      var k :| k in keys && k in w.table && w.table[k] == e;
      assert Look(w.places, w.table[k]) == At(k);
    }
    forall k | k in w'.table
      ensures k != "" && Look(w'.places, w'.table[k]) == At(k) && w'.table[k] in w'.maker
    {
      assert Look(w.places, w.table[k]) == At(k);
      assert w.table[k] !in Sessions(w.table, keys);
    }
  }

  lemma DisposeEvolves(w: World, f: map<Key, Tid>, t: Tid, keys: set<Key>)
    requires KeyInv(w) && DomainInv(w)
    ensures var w' := Dispose(w, keys); WorldEvolves(w, w', f, t) && KeyInv(w') && DomainInv(w')
  {
    var w' := Dispose(w, keys);
    forall e | e in Sessions(w.table, keys)
      ensures Look(w.places, e).At? && Look(w.places, e).key in keys && e in w.maker && e in w.places
    {
      var k :| k in keys && k in w.table && w.table[k] == e;
      assert Look(w.places, w.table[k]) == At(k);
    }
    forall k | k in w'.table
      ensures k != "" && Look(w'.places, w'.table[k]) == At(k) && w'.table[k] in w'.maker
    {
      assert Look(w.places, w.table[k]) == At(k);
      assert w.table[k] !in Sessions(w.table, keys);
    }
  }

  lemma LeaveEvolves(kind: Kind, w: World, f: map<Key, Tid>, t: Tid, keys: set<Key>)
    requires KeyInv(w) && DomainInv(w)
    ensures var w' := Leave(kind, w, t, keys); WorldEvolves(w, w', f, t) && KeyInv(w') && DomainInv(w')
    ensures forall e :: e in Owned(AfterLeave(kind, Sessions(w.table, keys))) ==>
              Look(Leave(kind, w, t, keys).places, e) == Held(t)
  {
    if kind == Direct {
      DisposeEvolves(w, f, t, keys);
    } else {
      TakeOutEvolves(w, f, t, keys);
    }
  }

  /** Registering a session that `t` holds, after the evictions. */
  lemma EnterEvolves(w: World, w1: World, f: map<Key, Tid>, t: Tid, key: Key, ex: Ex)
    requires WorldEvolves(w, w1, f, t) && KeyInv(w1) && DomainInv(w1) && w1.maker == w.maker
    requires ex in w1.places && Look(w.places, ex) == Held(t) == Look(w1.places, ex) && ex !in w.maker
    requires key != "" && key !in w1.table && key in f && f[key] == t
    ensures var w' := w1.(table := w1.table[key := ex], places := w1.places[ex := At(key)], maker := w1.maker[ex := t]);
            WorldEvolves(w, w', f, t) && KeyInv(w') && DomainInv(w')
  {
    var w' := w1.(table := w1.table[key := ex], places := w1.places[ex := At(key)], maker := w1.maker[ex := t]);
    forall k | k in w'.table
      ensures k != "" && Look(w'.places, w'.table[k]) == At(k) && w'.table[k] in w'.maker
    {
      if k != key {
        assert Look(w1.places, w1.table[k]) == At(k);
      }
    }
  }

  lemma RegisterWorld(s: State, l: Label)
    requires Stepping(s, l) && l.Register?
    ensures WorldEvolves(s.w, NextWorld(s, l), s.g.flights, l.t)
    ensures KeyInv(NextWorld(s, l)) && DomainInv(NextWorld(s, l))
  {
    var t, ex, key := l.t, s.threads[l.t].ex, s.threads[l.t].key;
    if Registers(s, key) {
      TakeOutEvolves(s.w, s.g.flights, t, l.gone);
      assert ex in Owned(s.threads[t]) && Look(s.w.places, ex) == Held(t);
      EnterEvolves(s.w, TakeOut(s.w, t, l.gone), s.g.flights, t, key, ex);
    }
  }

  lemma CloseWorld(w: World, f: map<Key, Tid>, t: Tid, ex: Ex)
    requires KeyInv(w) && DomainInv(w) && Look(w.places, ex) == Held(t)
    ensures WorldEvolves(w, Closed(w, ex), f, t) && KeyInv(Closed(w, ex)) && DomainInv(Closed(w, ex))
  {
    forall k | k in w.table
      ensures Look(Closed(w, ex).places, w.table[k]) == At(k)
    {
      assert Look(w.places, w.table[k]) == At(k);
    }
  }

  lemma OpenWorld(w: World, f: map<Key, Tid>, t: Tid, ex: Ex, key: Key)
    requires KeyInv(w) && DomainInv(w) && ex !in w.places
    ensures var w' := w.(places := w.places[ex := Held(t)], keyOf := w.keyOf[ex := key]);
            WorldEvolves(w, w', f, t) && KeyInv(w') && DomainInv(w')
  {
    var w' := w.(places := w.places[ex := Held(t)], keyOf := w.keyOf[ex := key]);
    forall k | k in w.table
      ensures Look(w'.places, w.table[k]) == At(k)
    {
      assert Look(w.places, w.table[k]) == At(k);
    }
  }

  lemma MarkWorld(s: State, l: Label)
    requires Stepping(s, l) && (l.CloseRedundant? || l.CloseEarly? || l.ClosePool?)
    ensures WorldEvolves(s.w, NextWorld(s, l), s.g.flights, l.t)
    ensures KeyInv(NextWorld(s, l)) && DomainInv(NextWorld(s, l))
  {
  }

  lemma StepWorld(s: State, l: Label)
    requires Stepping(s, l)
    ensures WorldEvolves(s.w, NextWorld(s, l), s.g.flights, l.t)
    ensures KeyInv(NextWorld(s, l)) && DomainInv(NextWorld(s, l))
  {
    var f := s.g.flights;
    match l {
      case Register(_, _, _, _) => RegisterWorld(s, l);
      case Open(t, ex) => OpenWorld(s.w, f, t, ex, s.threads[t].key);
      case CloseRefused(t) => CloseWorld(s.w, f, t, s.threads[t].ex);
      case CloseVictim(t, ex) => CloseWorld(s.w, f, t, ex);
      case Remove(t, ex) => if StillThere(s.w, ex) { LeaveEvolves(s.kind, s.w, f, t, {s.w.keyOf[ex]}); }
      case Tick(t, stale) => LeaveEvolves(s.kind, s.w, f, t, stale);
      case Scan(t) => LeaveEvolves(s.kind, s.w, f, t, s.w.table.Keys);
      case CloseRedundant(_) => MarkWorld(s, l);
      case CloseEarly(_, _) => MarkWorld(s, l);
      case ClosePool(_) => MarkWorld(s, l);
      case _ =>
    }
  }

  // ---------------------------------------------------------------- preservation: threads and flights

  lemma StepGate(s: State, l: Label)
    requires Stepping(s, l)
    ensures FlightsEvolve(s.g.flights, NextGate(s, l).flights, l.t)
    ensures !l.Join? && !l.Publish? ==> NextGate(s, l).flights == s.g.flights && NextGate(s, l).results == s.g.results
  {
  }

  /** The acting thread meets the conditions of its next program point. */
  lemma ActorOk(s: State, l: Label)
    requires Stepping(s, l) && WorldEvolves(s.w, NextWorld(s, l), s.g.flights, l.t)
    requires l.Collect? ==> LeaderResult(s, s.threads[l.t].leader, s.g.results[s.threads[l.t].leader])
    requires l.Remove? ==> SessionOk(s, l.ex)
    ensures ThreadOk(Step(s, l), l.t)
  {
    var s' := Step(s, l);
    OwnedIsHeld(s, l);
    LeadsItsKey(s, l);
    PointOk(s, l);
  }

  lemma OwnedIsHeld(s: State, l: Label)
    requires Stepping(s, l)
    ensures forall e :: e in Owned(NextPc(s, l)) ==> Look(NextWorld(s, l).places, e) == Held(l.t)
  {
    if l.Register? {
      RegisterHolds(s, l);
    } else if l.Remove? || l.Tick? || l.Scan? {
      TakenIsHeld(s, l);
    } else if l.CloseVictim? {
      assert Owned(NextPc(s, l)) == Owned(s.threads[l.t]) - {l.ex};
    } else if !l.Open? {
      OwnsNothing(s, l);
    }
  }

  lemma TakenIsHeld(s: State, l: Label)
    requires Stepping(s, l) && (l.Remove? || l.Tick? || l.Scan?)
    ensures forall e :: e in Owned(NextPc(s, l)) ==> Look(NextWorld(s, l).places, e) == Held(l.t)
  {
    if l.Tick? {
      LeaveEvolves(s.kind, s.w, s.g.flights, l.t, l.stale);
    } else if l.Scan? {
      LeaveEvolves(s.kind, s.w, s.g.flights, l.t, s.w.table.Keys);
    } else if StillThere(s.w, l.ex) {
      LeaveEvolves(s.kind, s.w, s.g.flights, l.t, {s.w.keyOf[l.ex]});
      assert Sessions(s.w.table, {s.w.keyOf[l.ex]}) == {l.ex};
    }
  }

  lemma RegisterHolds(s: State, l: Label)
    requires Stepping(s, l) && l.Register?
    ensures forall e :: e in Owned(NextPc(s, l)) ==> Look(NextWorld(s, l).places, e) == Held(l.t)
  {
    assert s.threads[l.t].ex in Owned(s.threads[l.t]);
    TakeOutEvolves(s.w, s.g.flights, l.t, l.gone);
  }

  lemma OwnsNothing(s: State, l: Label)
    requires Enabled(s, l) && !l.Register? && !l.Remove? && !l.Tick? && !l.Scan? && !l.CloseVictim? && !l.Open?
    ensures Owned(NextPc(s, l)) == {} && (!l.CloseRefused? ==> Owned(PcOf(s, l.t)) == {})
  {
  }

  lemma LeadsItsKey(s: State, l: Label)
    requires Stepping(s, l)
    ensures var pc := NextPc(s, l);
            Leads(pc) ==> pc.key in NextGate(s, l).flights && NextGate(s, l).flights[pc.key] == l.t && pc.key != ""
  {
  }

  lemma PointOk(s: State, l: Label)
    requires Stepping(s, l) && WorldEvolves(s.w, NextWorld(s, l), s.g.flights, l.t)
    requires l.Collect? ==> LeaderResult(s, s.threads[l.t].leader, s.g.results[s.threads[l.t].leader])
    requires l.Remove? ==> SessionOk(s, l.ex)
    ensures PcOk(Step(s, l), l.t, NextPc(s, l))
  {
    if l.Register? {
      assert s.threads[l.t].ex in Owned(s.threads[l.t]);
    } else if l.Open? || l.CloseRefused? || l.CloseVictim? {
      HandPoint(s, l);
    } else if l.Remove? || l.Tick? || l.Scan? || l.ClosePool? || l.CloseEarly? || l.CloseRedundant? {
    } else {
      FlightPoint(s, l);
    }
  }

  lemma HandPoint(s: State, l: Label)
    requires Stepping(s, l) && (l.Open? || l.CloseRefused? || l.CloseVictim?)
    ensures PcOk(Step(s, l), l.t, NextPc(s, l))
  {
  }

  lemma FlightPoint(s: State, l: Label)
    requires Stepping(s, l) && NextWorld(s, l) == s.w
    requires l.Collect? ==> LeaderResult(s, s.threads[l.t].leader, s.g.results[s.threads[l.t].leader])
    requires l.Lookup? || l.Join? || l.RecheckTable? || l.Count? || l.OpenFails? || l.VictimsClosed? || l.Uncount? ||
             l.Publish? || l.Collect? || l.Check?
    ensures PcOk(Step(s, l), l.t, NextPc(s, l))
  {
  }

  lemma StepKeepsThreads(s: State, l: Label)
    requires Stepping(s, l) && ThreadInv(s) && FlightInv(s) && SessionInv(s)
    ensures ThreadInv(Step(s, l))
  {
    var s' := Step(s, l);
    StepWorld(s, l);
    StepGate(s, l);
    ActorOk(s, l);
    forall u | u in s'.threads
      ensures ThreadOk(s', u)
    {
      if u != l.t {
        OthersOk(s, s', l.t, u);
      }
    }
  }

  /** A flight's leader keeps its key until it publishes. */
  lemma LeaderStays(s: State, l: Label)
    requires Enabled(s, l) && l.t in s.threads && Leads(s.threads[l.t]) && !l.Publish?
    ensures Leads(NextPc(s, l)) && NextPc(s, l).key == s.threads[l.t].key && !l.Join?
  {
  }

  lemma StepKeepsFlights(s: State, l: Label)
    requires Stepping(s, l) && FlightInv(s)
    ensures FlightInv(Step(s, l))
  {
    var s' := Step(s, l);
    StepWorld(s, l);
    StepGate(s, l);
    forall k | k in s'.g.flights
      ensures Leads(PcOf(s', s'.g.flights[k])) && PcOf(s', s'.g.flights[k]).key == k
    {
      FlightEntry(s, l, k);
    }
    forall u | u in s'.g.results
      ensures LeaderResult(s', u, s'.g.results[u])
    {
      if u in s.g.results {
        assert LeaderResult(s, u, s.g.results[u]);
      }
    }
  }

  lemma FlightEntry(s: State, l: Label, k: Key)
    requires Stepping(s, l) && FlightInv(s) && k in NextGate(s, l).flights
    ensures var s' := Step(s, l); Leads(PcOf(s', s'.g.flights[k])) && PcOf(s', s'.g.flights[k]).key == k
  {
    StepGate(s, l);
    if k in s.g.flights {
      assert Leads(PcOf(s, s.g.flights[k])) && PcOf(s, s.g.flights[k]).key == k;
      if s.g.flights[k] == l.t && !l.Publish? {
        LeaderStays(s, l);
      }
    }
  }

  // ---------------------------------------------------------------- preservation: sessions and makers

  /** A session whose place does not change keeps its condition. */
  lemma PlaceKept(s: State, s': State, t: Tid, e: Ex)
    requires t in s'.threads && s'.threads == s.threads[t := s'.threads[t]] && WorldEvolves(s.w, s'.w, s.g.flights, t)
    requires SessionOk(s, e) && Look(s'.w.places, e) == Look(s.w.places, e) && s.w.closedEx <= s'.w.closedEx
    requires Look(s.w.places, e) == Held(t) ==> e in Owned(s'.threads[t])
    requires Look(s.w.places, e).At? ==>
               && Look(s.w.places, e).key in s'.w.table && s'.w.table[Look(s.w.places, e).key] == e
               && (e in s'.w.closedEx ==> e in s'.w.early)
    ensures SessionOk(s', e)
  {
  }

  lemma StepKeepsSessions(s: State, l: Label)
    requires Stepping(s, l) && SessionInv(s)
    ensures SessionInv(Step(s, l))
  {
    var s' := Step(s, l);
    StepWorld(s, l);
    forall e | e in s'.w.places
      ensures SessionOk(s', e)
    {
      assert e in s.w.places ==> SessionOk(s, e);
      if l.Remove? || l.Tick? || l.Scan? {
        SessionTaken(s, s', l, e);
      } else {
        SessionKept(s, s', l, e);
      }
    }
  }

  /** `s'` follows `s` by `l`, as far as one session is concerned. */
  ghost predicate Follows(s: State, l: Label, s': State, e: Ex) {
    && Stepping(s, l) && s' == Step(s, l) && e in s'.w.places && (e in s.w.places ==> SessionOk(s, e))
    && WorldEvolves(s.w, s'.w, s.g.flights, l.t)
  }

  /** The keys that a cleanup tick, the scan of close or a removal takes out. */
  function LeavingKeys(s: State, l: Label): set<Key>
    requires l.Remove? || l.Tick? || l.Scan?
  {
    if l.Tick? then l.stale
    else if l.Scan? then s.w.table.Keys
    else if StillThere(s.w, l.ex) then {s.w.keyOf[l.ex]} else {}
  }

  lemma LeavingStep(s: State, l: Label)
    requires Enabled(s, l) && (l.Remove? || l.Tick? || l.Scan?) && (l.Remove? ==> StillThere(s.w, l.ex))
    ensures NextPc(s, l) == AfterLeave(s.kind, Sessions(s.w.table, LeavingKeys(s, l)))
    ensures var w' := Leave(s.kind, s.w, l.t, LeavingKeys(s, l));
            NextWorld(s, l) == w'.(scanned := NextWorld(s, l).scanned)
  {
    if l.Remove? {
      assert Sessions(s.w.table, {s.w.keyOf[l.ex]}) == {l.ex};
    }
  }

  lemma SessionTaken(s: State, s': State, l: Label, e: Ex)
    requires (l.Remove? || l.Tick? || l.Scan?) && Follows(s, l, s', e)
    ensures SessionOk(s', e)
  {
    if l.Remove? && !StillThere(s.w, l.ex) {
      PlaceKept(s, s', l.t, e);
    } else {
      LeavingStep(s, l);
      SessionLeaves(s, s', l.t, LeavingKeys(s, l), e);
    }
  }

  lemma SessionLeaves(s: State, s': State, t: Tid, keys: set<Key>, e: Ex)
    requires KeyInv(s.w) && DomainInv(s.w) && e in s.w.places && SessionOk(s, e) && Owned(PcOf(s, t)) == {}
    requires t in s'.threads && s'.threads == s.threads[t := AfterLeave(s.kind, Sessions(s.w.table, keys))]
    requires s'.w == Leave(s.kind, s.w, t, keys).(scanned := s'.w.scanned)
    ensures SessionOk(s', e)
  {
    if s.kind == Direct {
      SessionDisposed(s, s', t, keys, e);
    } else {
      SessionTakeOut(s, s', t, keys, e);
    }
  }

  lemma SessionDisposed(s: State, s': State, t: Tid, keys: set<Key>, e: Ex)
    requires KeyInv(s.w) && DomainInv(s.w) && e in s.w.places && SessionOk(s, e) && Owned(PcOf(s, t)) == {}
    requires t in s'.threads && s'.threads == s.threads[t := Done(Failure)]
    requires s'.w == Dispose(s.w, keys).(scanned := s'.w.scanned)
    ensures SessionOk(s', e)
  {
    DisposeEvolves(s.w, s.g.flights, t, keys);
    var w1 := Dispose(s.w, keys);
    assert s'.w.places == w1.places && s'.w.table == w1.table && s'.w.maker == w1.maker && s'.w.keyOf == w1.keyOf;
    if e !in Sessions(s.w.table, keys) {
      assert WorldEvolves(s.w, s'.w, s.g.flights, t);
      PlaceKept(s, s', t, e);
    }
  }

  lemma SessionKept(s: State, s': State, l: Label, e: Ex)
    requires !(l.Remove? || l.Tick? || l.Scan?) && Follows(s, l, s', e)
    ensures SessionOk(s', e)
  {
    if l.Register? {
      SessionRegister(s, s', l, e);
    } else if l.Open? || l.CloseRefused? || l.CloseVictim? {
      SessionInHand(s, s', l, e);
    } else if l.CloseRedundant? || l.CloseEarly? || l.ClosePool? {
      SessionMarked(s, s', l, e);
    } else {
      OwnsNothing(s, l);
      PlaceKept(s, s', l.t, e);
    }
  }

  lemma SessionInHand(s: State, s': State, l: Label, e: Ex)
    requires (l.Open? || l.CloseRefused? || l.CloseVictim?) && Follows(s, l, s', e)
    ensures SessionOk(s', e)
  {
    if l.Open? {
      SessionOpened(s, s', l, e);
    } else {
      var ex := if l.CloseRefused? then s.threads[l.t].ex else l.ex;
      assert ex in Owned(s.threads[l.t]);
      HandLetsGo(s, l, ex);
      SessionClosed(s, s', l.t, ex, e);
    }
  }

  lemma SessionOpened(s: State, s': State, l: Label, e: Ex)
    requires l.Open? && Follows(s, l, s', e)
    ensures SessionOk(s', e)
  {
    if e != l.ex {
      PlaceKept(s, s', l.t, e);
    }
  }

  /** Closing one session leaves the others in the same hands. */
  lemma HandLetsGo(s: State, l: Label, ex: Ex)
    requires Enabled(s, l) && (l.CloseRefused? || l.CloseVictim?)
    requires ex == (if l.CloseRefused? then s.threads[l.t].ex else l.ex)
    ensures Owned(NextPc(s, l)) == Owned(s.threads[l.t]) - {ex} && NextWorld(s, l) == Closed(s.w, ex)
  {
  }

  lemma SessionClosed(s: State, s': State, t: Tid, ex: Ex, e: Ex)
    requires t in s.threads && t in s'.threads && s'.threads == s.threads[t := s'.threads[t]] && s'.w == Closed(s.w, ex)
    requires Owned(s'.threads[t]) == Owned(s.threads[t]) - {ex} && Look(s.w.places, ex) == Held(t)
    requires WorldEvolves(s.w, s'.w, s.g.flights, t) && e in s.w.places && SessionOk(s, e)
    ensures SessionOk(s', e)
  {
    if e != ex {
      PlaceKept(s, s', t, e);
    }
  }

  lemma SessionMarked(s: State, s': State, l: Label, e: Ex)
    requires (l.CloseRedundant? || l.CloseEarly? || l.ClosePool?) && Follows(s, l, s', e)
    ensures SessionOk(s', e)
  {
    OwnsNothing(s, l);
    MarksOnly(s, l, e);
    PlaceKept(s, s', l.t, e);
  }

  /** A close of something that is not in the acting thread's hands moves nothing, and of a registered session only
      counts as early. */
  lemma MarksOnly(s: State, l: Label, e: Ex)
    requires Enabled(s, l) && (l.CloseRedundant? || l.CloseEarly? || l.ClosePool?)
    requires l.CloseRedundant? ==> !Look(s.w.places, s.threads[l.t].ex).At?
    ensures var w' := NextWorld(s, l);
            && w'.places == s.w.places && w'.table == s.w.table && s.w.closedEx <= w'.closedEx
            && (Look(s.w.places, e).At? && (e in s.w.closedEx ==> e in s.w.early) ==>
                  (e in w'.closedEx ==> e in w'.early))
  {
  }

  lemma SessionTakeOut(s: State, s': State, t: Tid, keys: set<Key>, e: Ex)
    requires KeyInv(s.w) && DomainInv(s.w) && e in s.w.places && SessionOk(s, e) && Owned(PcOf(s, t)) == {}
    requires t in s'.threads && s'.threads == s.threads[t := Closing(Sessions(s.w.table, keys))]
    requires s'.w == TakeOut(s.w, t, keys).(scanned := s'.w.scanned)
    ensures SessionOk(s', e)
  {
    TakeOutEvolves(s.w, s.g.flights, t, keys);
    var w1 := TakeOut(s.w, t, keys);
    assert s'.w.places == w1.places && s'.w.table == w1.table && s'.w.maker == w1.maker && s'.w.keyOf == w1.keyOf;
    if e !in Sessions(s.w.table, keys) {
      assert WorldEvolves(s.w, s'.w, s.g.flights, t);
      PlaceKept(s, s', t, e);
    }
  }

  lemma SessionRegister(s: State, s': State, l: Label, e: Ex)
    requires l.Register? && Follows(s, l, s', e)
    ensures SessionOk(s', e)
  {
    assert s.threads[l.t].ex in Owned(s.threads[l.t]);
    RegisterOutcome(s, l);
    if Registers(s, s.threads[l.t].key) {
      SessionEnter(s, s', l.t, l.gone, s.threads[l.t].key, s.threads[l.t].ex, e);
    } else {
      PlaceKept(s, s', l.t, e);
    }
  }

  lemma RegisterOutcome(s: State, l: Label)
    requires l.Register? && Enabled(s, l)
    ensures Owned(PcOf(s, l.t)) == {s.threads[l.t].ex}
    ensures if Registers(s, s.threads[l.t].key) then Owned(NextPc(s, l)) == Sessions(s.w.table, l.gone)
            else Owned(NextPc(s, l)) == {s.threads[l.t].ex} && NextWorld(s, l) == s.w
  {
  }

  /** Registering `ex` under `key` in place of the sessions under `gone`. */
  lemma SessionEnter(s: State, s': State, t: Tid, gone: set<Key>, key: Key, ex: Ex, e: Ex)
    requires e in s.w.places && SessionOk(s, e) && WorldEvolves(s.w, s'.w, s.g.flights, t)
    requires Owned(PcOf(s, t)) == {ex} && t in s'.threads && s'.threads == s.threads[t := s'.threads[t]]
    requires Owned(s'.threads[t]) == Sessions(s.w.table, gone) && key !in s.w.table && ex !in s.w.closedEx
    requires ex in s.w.keyOf && s.w.keyOf[ex] == key && Look(s.w.places, ex) == Held(t)
    requires var w1 := TakeOut(s.w, t, gone);
             s'.w == w1.(table := w1.table[key := ex], places := w1.places[ex := At(key)], maker := s.w.maker[ex := t])
    ensures SessionOk(s', e)
  {
    if e != ex && e !in Sessions(s.w.table, gone) {
      PlaceKept(s, s', t, e);
    }
  }

  lemma StepKeepsMakers(s: State, l: Label)
    requires Stepping(s, l) && MakerInv(s)
    ensures MakerInv(Step(s, l))
  {
    var s' := Step(s, l);
    StepWorld(s, l);
    forall e | e in s'.w.maker
      ensures MakerOk(s', e, s'.w.maker[e])
    {
      if e in s.w.maker {
        MakerStep(s, l, e);
      } else {
        assert l.Register?;
      }
    }
  }

  lemma MakerStep(s: State, l: Label, e: Ex)
    requires Enabled(s, l) && e in s.w.maker && MakerOk(s, e, s.w.maker[e]) && (s.w.closed ==> NextWorld(s, l).closed)
    ensures MakerOk(Step(s, l), e, s.w.maker[e])
  {
    if s.w.maker[e] == l.t {
      MakerActs(s, l, e);
    } else {
      assert PcOf(Step(s, l), s.w.maker[e]) == PcOf(s, s.w.maker[e]);
    }
  }

  lemma MakerActs(s: State, l: Label, e: Ex)
    requires Enabled(s, l) && MakerOk(s, e, l.t) && (s.w.closed ==> NextWorld(s, l).closed)
    ensures MakerOk(Step(s, l), e, l.t)
  {
  }

  // ---------------------------------------------------------------- preservation: counts

  lemma StepKeepsCount(s: State, l: Label)
    requires Enabled(s, l) && CountInv(s) && (s.kind == Direct ==> !l.Count? && !l.Uncount?)
    ensures CountInv(Step(s, l))
  {
    var s' := Step(s, l);
    CountedStep(s, l);
    if s.kind == Exchanges {
      forall t
        ensures t in s'.g.counted <==> Counted(PcOf(s', t))
      {
        assert t != l.t ==> PcOf(s', t) == PcOf(s, t);
      }
    }
  }

  lemma CountedStep(s: State, l: Label)
    requires Enabled(s, l) && s.g.inflight == |s.g.counted|
    requires s.kind == Exchanges ==> (l.t in s.g.counted <==> Counted(PcOf(s, l.t)))
    requires s.kind == Direct ==> !l.Count? && !l.Uncount?
    ensures var g := NextGate(s, l);
            && g.inflight == |g.counted| && (forall t :: t != l.t ==> (t in g.counted <==> t in s.g.counted))
            && (s.kind == Exchanges ==> (l.t in g.counted <==> Counted(NextPc(s, l))))
  {
    if !l.Count? && !l.Uncount? {
      SameCount(s, l);
    }
  }

  /** No other step changes the count, or whether its thread belongs to it. */
  lemma SameCount(s: State, l: Label)
    requires Enabled(s, l) && !l.Count? && !l.Uncount?
    ensures NextGate(s, l).inflight == s.g.inflight && NextGate(s, l).counted == s.g.counted
    ensures s.kind == Exchanges ==> (Counted(NextPc(s, l)) <==> Counted(PcOf(s, l.t)))
  {
  }

  lemma StepKeepsTable(s: State, l: Label)
    requires Stepping(s, l) && TableInv(s)
    ensures TableInv(Step(s, l))
  {
    if l.Register? {
      if Registers(s, s.threads[l.t].key) {
        EvictionMakesRoom(s.w.table, l.gone, l.load, l.seen, s.threads[l.t].key, s.threads[l.t].ex);
      }
    } else if l.Remove? {
      if StillThere(s.w, l.ex) {
        Smaller(s.w.table, {s.w.keyOf[l.ex]});
      }
    } else if l.Tick? {
      Smaller(s.w.table, l.stale);
    } else if l.Scan? {
      assert s.w.table - s.w.table.Keys == map[];
    } else {
      SameTable(s, l);
    }
  }

  lemma SameTable(s: State, l: Label)
    requires Enabled(s, l) && !l.Register? && !l.Remove? && !l.Tick? && !l.Scan?
    ensures NextWorld(s, l).table == s.w.table && NextWorld(s, l).scanned == s.w.scanned
    ensures s.w.closed ==> NextWorld(s, l).closed
  {
  }

  lemma Smaller(table: map<Key, Ex>, keys: set<Key>)
    ensures |table - keys| <= |table|
  {
    assert (table - keys).Keys + (table.Keys * keys) == table.Keys;
  }

  /** Only exchange flights count. */
  lemma OnlyExchangesCount(s: State, l: Label)
    requires Stepping(s, l) && s.kind == Direct
    ensures !l.Count? && !l.Uncount?
  {
  }

  lemma StepKeepsInv(s: State, l: Label)
    requires Inv(s) && Enabled(s, l)
    ensures Inv(Step(s, l))
  {
    StepKeepsSessionsAndThreads(s, l);
    StepKeepsMakers(s, l);
    StepKeepsTable(s, l);
    if s.kind == Direct {
      OnlyExchangesCount(s, l);
    }
    StepKeepsCount(s, l);
  }

  lemma StepKeepsSessionsAndThreads(s: State, l: Label)
    requires Stepping(s, l) && ThreadInv(s) && FlightInv(s) && SessionInv(s)
    ensures var s' := Step(s, l); ThreadInv(s') && FlightInv(s') && SessionInv(s') && KeyInv(s'.w) && DomainInv(s'.w)
  {
    StepWorld(s, l);
    StepKeepsThreads(s, l);
    StepKeepsFlights(s, l);
    StepKeepsSessions(s, l);
  }
}
