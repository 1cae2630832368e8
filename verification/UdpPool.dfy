/** The tables of the UDP session pool and the sections that change them under `mu` (client/proxy/udp_pool.go). */
module UdpPool {

  type Key = string
  type Ex = nat  // identity of an exchange or a direct socket

  const MAX_EXCHANGES := 128

  /** `gone` are oldest entries: nothing that stays was idle for longer. */
  ghost predicate OldestFirst(table: map<Key, Ex>, gone: set<Key>, seen: Ex -> int) {
    gone <= table.Keys &&
    forall k, j :: k in gone && j in table && j !in gone ==> seen(table[k]) <= seen(table[j])
  }

  /** The eviction loop of createExchange: `load(i)` is what the i-th test reads from `inflight`, which other
      creators change meanwhile. One entry goes per failed test, the oldest each time. */
  ghost predicate Evicts(table: map<Key, Ex>, gone: set<Key>, load: nat -> nat, seen: Ex -> int) {
    && OldestFirst(table, gone, seen)
    && TestsFailed(|table|, |gone|, load)
    && (gone == table.Keys || |table| - |gone| + load(|gone|) <= MAX_EXCHANGES)
  }

  /** The direct table evicts at most one entry, when it is full. */
  ghost predicate EvictsOne(table: map<Key, Ex>, gone: set<Key>, seen: Ex -> int) {
    && OldestFirst(table, gone, seen)
    && |gone| == if |table| >= MAX_EXCHANGES then 1 else 0
  }

  lemma EvictionMakesRoom(table: map<Key, Ex>, gone: set<Key>, load: nat -> nat, seen: Ex -> int, key: Key, ex: Ex)
    requires |table| <= MAX_EXCHANGES
    requires (Evicts(table, gone, load, seen) && load(|gone|) >= 1) || EvictsOne(table, gone, seen)
    ensures |(table - gone)[key := ex]| <= MAX_EXCHANGES
  {
    assert (table - gone).Keys == table.Keys - gone;
    assert |table.Keys - gone| == |table| - |gone|;
    assert (table - gone)[key := ex].Keys == (table - gone).Keys + {key};
  }

  // ---------------------------------------------------------------- scanning for the oldest entry

  function KeySet(order: seq<Key>): set<Key> {
    if order == [] then {} else KeySet(order[..|order| - 1]) + {order[|order| - 1]}
  }

  /** Some order in which `range` may visit the table: every key, and none twice. */
  ghost predicate Visits(order: seq<Key>, table: map<Key, Ex>) {
    KeySet(order) == table.Keys && |order| == |table|
  }

  /** evictOldestExchangeLocked over the visited keys, with the empty string standing for "none yet". */
  ghost function Scan(table: map<Key, Ex>, order: seq<Key>, seen: Ex -> int): (best: Key)
    requires KeySet(order) <= table.Keys
    ensures best == "" || best in KeySet(order)
  {
    if order == [] then ""
    else
      var k := order[|order| - 1];
      var best := Scan(table, order[..|order| - 1], seen);
      if best == "" || seen(table[k]) < seen(table[best]) then k else best
  }

  /** Without an empty key the scan finds an oldest entry, and nothing exactly when there is nothing. */
  lemma {:induction false} ScanFindsOldest(table: map<Key, Ex>, order: seq<Key>, seen: Ex -> int)
    requires KeySet(order) <= table.Keys && "" !in KeySet(order)
    ensures var best := Scan(table, order, seen);
            && (best == "" <==> order == [])
            && forall k :: k in KeySet(order) ==> best in table && seen(table[best]) <= seen(table[k])
    decreases |order|
  {
    if order != [] {
      ScanFindsOldest(table, order[..|order| - 1], seen);
    }
  }

  /** No entry was idle for longer. */
  ghost predicate IsOldest(table: map<Key, Ex>, k: Key, seen: Ex -> int) {
    k in table && forall j :: j in table ==> seen(table[k]) <= seen(table[j])
  }

  /** The entry under the empty key is older than every other, so that the sentinel stands for it. */
  ghost predicate Hidden(table: map<Key, Ex>, seen: Ex -> int) {
    "" in table && forall k :: k in table && k != "" ==> seen(table[""]) < seen(table[k])
  }

  /** Once an oldest entry with a non-empty key has been visited, the scan stays with an oldest entry. */
  lemma {:induction false} OldestStays(table: map<Key, Ex>, order: seq<Key>, seen: Ex -> int, k: Key)
    requires KeySet(order) <= table.Keys && k in KeySet(order) && k != "" && IsOldest(table, k, seen)
    ensures Scan(table, order, seen) != "" && IsOldest(table, Scan(table, order, seen), seen)
    decreases |order|
  {
    var before := order[..|order| - 1];
    if k in KeySet(before) {
      OldestStays(table, before, seen, k);
    }
  }

  lemma {:induction false} SomeOldest(table: map<Key, Ex>, order: seq<Key>, seen: Ex -> int) returns (k: Key)
    requires KeySet(order) <= table.Keys && order != []
    ensures k in KeySet(order) && forall j :: j in KeySet(order) ==> seen(table[k]) <= seen(table[j])
    decreases |order|
  {
    k := order[|order| - 1];
    if |order| > 1 {
      var m := SomeOldest(table, order[..|order| - 1], seen);
      if seen(table[m]) <= seen(table[k]) {
        k := m;
      }
    }
  }

  /** Whatever the visiting order, the scan of a non-empty table finds an oldest entry if and only if none is hidden
      behind the sentinel. */
  lemma ScanExactly(table: map<Key, Ex>, order: seq<Key>, seen: Ex -> int)
    requires Visits(order, table) && table != map[]
    ensures (Scan(table, order, seen) != "" && IsOldest(table, Scan(table, order, seen), seen)) <==>
              !Hidden(table, seen)
  {
    if !Hidden(table, seen) {
      var k := SomeOldest(table, order, seen);
      if k == "" {
        k :| k in table && k != "" && seen(table[""]) >= seen(table[k]);
      }
      OldestStays(table, order, seen, k);
    }
  }

  lemma {:induction false} KeySetSize(order: seq<Key>)
    ensures |KeySet(order)| <= |order|
    decreases |order|
  {
    if order != [] {
      KeySetSize(order[..|order| - 1]);
    }
  }

  lemma LastIsNew(order: seq<Key>)
    requires order != [] && |KeySet(order)| == |order|
    ensures order[|order| - 1] !in KeySet(order[..|order| - 1])
  {
    var before, last := KeySet(order[..|order| - 1]), order[|order| - 1];
    KeySetSize(order[..|order| - 1]);
    assert KeySet(order) == before + {last};
  }

  /** It finds nothing at all exactly when the hidden entry is the last one visited. */
  lemma NothingFoundExactly(table: map<Key, Ex>, order: seq<Key>, seen: Ex -> int)
    requires Visits(order, table) && table != map[]
    ensures order != [] && (Scan(table, order, seen) == "" <==> Hidden(table, seen) && order[|order| - 1] == "")
  {
    var before, last := order[..|order| - 1], order[|order| - 1];
    LastIsNew(order);
    if last == "" {
      ScanFindsOldest(table, before, seen);
      assert forall k :: k in table && k != "" ==> k in KeySet(before);
      assert forall k :: k in KeySet(before) ==> k in table && k != "";
      if before == [] {
        assert KeySet(before) == {};
      }
    }
  }

  /** The table after a lone creator has registered `key` in a full table: its one failed test evicts what the scan
      finds, and if that is nothing the loop gives up and the entry goes in all the same. */
  ghost function AfterCreation(table: map<Key, Ex>, order: seq<Key>, seen: Ex -> int, key: Key, ex: Ex): map<Key, Ex>
    requires KeySet(order) <= table.Keys
  {
    var found := Scan(table, order, seen);
    (if found == "" then table else table - {found})[key := ex]
  }

  /** A creation on a full table passes the cap exactly when the hidden entry is visited last. */
  lemma CapIsPassedExactly(table: map<Key, Ex>, order: seq<Key>, seen: Ex -> int, key: Key, ex: Ex)
    requires Visits(order, table) && |table| == MAX_EXCHANGES && key !in table
    ensures |AfterCreation(table, order, seen, key, ex)| > MAX_EXCHANGES <==>
            Hidden(table, seen) && order[|order| - 1] == ""
  {
    NothingFoundExactly(table, order, seen);
    var found := Scan(table, order, seen);
    var left := if found == "" then table else table - {found};
    assert left[key := ex].Keys == left.Keys + {key};
    if found != "" {
      assert table.Keys == left.Keys + {found};
    }
  }

  /** "a", "aa", ... */
  function Name(n: nat): Key {
    seq(n, _ => 'a')
  }

  /** The first `n` names in order, numbered from 1. */
  function Names(n: nat): seq<Key> {
    seq(n, i requires 0 <= i < n => Name(i + 1))
  }

  function NamedTable(n: nat): map<Key, Ex> {
    if n == 0 then map[] else NamedTable(n - 1)[Name(n) := n]
  }

  lemma {:induction false} NamedLengths(n: nat)
    ensures forall k :: k in NamedTable(n) ==> 1 <= |k| <= n && NamedTable(n)[k] == |k|
  {
    if n > 0 {
      NamedLengths(n - 1);
      assert |Name(n)| == n;
    }
  }

  lemma {:induction false} NamedVisits(n: nat)
    ensures Visits(Names(n), NamedTable(n))
  {
    if n > 0 {
      NamedVisits(n - 1);
      NamedLengths(n - 1);
      NameIsNew(n);
      VisitsNext(Names(n - 1), NamedTable(n - 1), Name(n), n);
    }
  }

  lemma NameIsNew(n: nat)
    requires n > 0 && forall k :: k in NamedTable(n - 1) ==> |k| <= n - 1
    ensures Name(n) !in NamedTable(n - 1) && Names(n) == Names(n - 1) + [Name(n)]
  {
    assert |Name(n)| == n;
  }

  lemma VisitsNext(order: seq<Key>, table: map<Key, Ex>, k: Key, ex: Ex)
    requires Visits(order, table)
    ensures k !in table ==> Visits(order + [k], table[k := ex])
  {
    assert (order + [k])[..|order|] == order;
    assert table[k := ex].Keys == table.Keys + {k};
  }

  /** A full table in which the oldest of the 128 entries is under the empty key and is visited last: the scan finds
      nothing to evict, and the next registration makes 129 entries. */
  lemma EmptyKeyHidesTheTable() returns (table: map<Key, Ex>, order: seq<Key>, seen: Ex -> int, key: Key)
    ensures Visits(order, table) && |table| == MAX_EXCHANGES && Scan(table, order, seen) == "" && key !in table
    ensures |AfterCreation(table, order, seen, key, 0)| == MAX_EXCHANGES + 1
  {
    NamedLengths(127);
    NamedVisits(127);
    NotNamed(127);
    var named := NamedTable(127);
    assert "" !in named;
    table, order, seen, key := named["" := 0], Names(127) + [""], x => x, "b";
    VisitsNext(Names(127), named, "", 0);
    assert order[127] == "";
    NothingFoundExactly(table, order, seen);
    assert table[key := 0].Keys == table.Keys + {key};
  }

  lemma {:induction false} NotNamed(n: nat)
    ensures "b" !in NamedTable(n)
  {
    if n > 0 {
      NotNamed(n - 1);
      assert Name(n)[0] == 'a' && "b"[0] == 'b';
    }
  }

  lemma ScanOneMore(table: map<Key, Ex>, order: seq<Key>, k: Key, seen: Ex -> int)
    requires KeySet(order) <= table.Keys && k in table
    ensures KeySet(order + [k]) == KeySet(order) + {k}
    ensures var best := Scan(table, order, seen);
            Scan(table, order + [k], seen) == if best == "" || seen(table[k]) < seen(table[best]) then k else best
  {
    assert (order + [k])[..|order|] == order;
  }

  method OldestKey(table: map<Key, Ex>, seen: Ex -> int) returns (oldest: Key, ghost order: seq<Key>)
    ensures Visits(order, table) && oldest == Scan(table, order, seen)
  {
    oldest, order := "", [];
    var rest := table.Keys;
    while rest != {}
      invariant rest <= table.Keys && KeySet(order) == table.Keys - rest && |order| + |rest| == |table|
      invariant oldest == Scan(table, order, seen)
    {
      var k :| k in rest;
      ScanOneMore(table, order, k, seen);
      if oldest == "" || seen(table[k]) < seen(table[oldest]) {
        oldest := k;
      }
      rest, order := rest - {k}, order + [k];
    }
  }

  /** The scan as its callers use it. A hidden entry, and nothing else, makes it miss the oldest one. */
  method FindOldest(table: map<Key, Ex>, seen: Ex -> int) returns (found: bool, oldest: Key)
    ensures found ==> oldest in table && oldest != ""
    ensures (found && IsOldest(table, oldest, seen)) <==> table != map[] && !Hidden(table, seen)
  {
    ghost var order;
    oldest, order := OldestKey(table, seen);
    if table != map[] {
      ScanExactly(table, order, seen);
    }
    found := oldest != "";
  }

  /** The first `n` tests of the eviction loop all failed on a table of `size` entries. */
  ghost predicate TestsFailed(size: nat, n: nat, load: nat -> nat) {
    forall i: nat :: i < n ==> size - i + load(i) > MAX_EXCHANGES
  }

  lemma StillOldest(before: map<Key, Ex>, gone: set<Key>, k: Key, seen: Ex -> int)
    requires OldestFirst(before, gone, seen) && k in before - gone
    requires forall j :: j in before - gone ==> seen(before[k]) <= seen(before[j])
    ensures OldestFirst(before, gone + {k}, seen)
  {
    assert forall j :: j in before && j !in gone ==> j in before - gone;
  }

  lemma RemoveOne(before: map<Key, Ex>, gone: set<Key>, k: Key)
    requires k in before && k !in gone
    ensures before - gone - {k} == before - (gone + {k}) && |before - gone - {k}| == |before - gone| - 1
  {
    assert (before - gone).Keys == (before - gone - {k}).Keys + {k};
  }

  lemma OneMoreTest(size: nat, n: nat, load: nat -> nat)
    requires TestsFailed(size, n, load) && size - n + load(n) > MAX_EXCHANGES
    ensures TestsFailed(size, n + 1, load)
  {
  }

  /** `n` entries have gone so far, the oldest each time and one per failed test. */
  ghost predicate Evicting(table: map<Key, Ex>, left: map<Key, Ex>, gone: set<Key>, n: nat, load: nat -> nat,
        seen: Ex -> int) {
    && "" !in left && left == table - gone && |left| == |table| - n && n == |gone|
    && OldestFirst(table, gone, seen) && TestsFailed(|table|, n, load)
  }

  lemma EvictingBegins(table: map<Key, Ex>, load: nat -> nat, seen: Ex -> int)
    requires "" !in table
    ensures Evicting(table, table, {}, 0, load, seen)
  {
    assert table - {} == table;
  }

  lemma EvictingNext(table: map<Key, Ex>, left: map<Key, Ex>, gone: set<Key>, n: nat, k: Key, load: nat -> nat,
        seen: Ex -> int)
    requires Evicting(table, left, gone, n, load, seen) && |left| + load(n) > MAX_EXCHANGES
    requires IsOldest(left, k, seen)
    ensures Evicting(table, left - {k}, gone + {k}, n + 1, load, seen) && |left - {k}| < |left|
  {
    RemoveOne(table, gone, k);
    StillOldest(table, gone, k, seen);
    OneMoreTest(|table|, n, load);
  }

  lemma EvictingEnds(table: map<Key, Ex>, left: map<Key, Ex>, gone: set<Key>, n: nat, load: nat -> nat, seen: Ex -> int)
    requires Evicting(table, left, gone, n, load, seen) && (left == map[] || |left| + load(n) <= MAX_EXCHANGES)
    ensures Evicts(table, gone, load, seen)
  {
    if left == map[] {
      assert forall k :: k in table ==> k in gone || k in left;
    }
  }

  /** The loop of createExchange that makes room, on a copy of the table. */
  method EvictLoop(table: map<Key, Ex>, load: nat -> nat, seen: Ex -> int) returns (gone: set<Key>)
    requires "" !in table
    ensures Evicts(table, gone, load, seen)
  {
    gone := {};
    var left := table;
    var n := 0;
    EvictingBegins(table, load, seen);
    while |left| + load(n) > MAX_EXCHANGES
      invariant Evicting(table, left, gone, n, load, seen)
      decreases |left|
    {
      var found, oldest := FindOldest(left, seen);
      if !found {
        break;
      }
      EvictingNext(table, left, gone, n, oldest, load, seen);
      left, gone, n := left - {oldest}, gone + {oldest}, n + 1;
    }
    EvictingEnds(table, left, gone, n, load, seen);
  }

  // ---------------------------------------------------------------- sections

  datatype Registration = PoolClosed | KeyTaken(existing: Ex) | Registered(gone: set<Key>)

  /** udpPool. Each method is one section under `mu`. */
  class Pool {
    var exchanges: map<Key, Ex>
    var direct: map<Key, Ex>
    var closed: bool

    constructor ()
      ensures exchanges == map[] && direct == map[] && !closed
    {
      exchanges, direct, closed := map[], map[], false;
    }

    /** The section of createExchange: `load(i)` is what the i-th test of the loop reads from `inflight`. */
    method RegisterExchange(key: Key, ex: Ex, load: nat -> nat, seen: Ex -> int) returns (r: Registration)
      requires "" !in exchanges
      modifies this`exchanges
      ensures old(closed) ==> r == PoolClosed
      ensures !old(closed) && key in old(exchanges) ==> r == KeyTaken(old(exchanges)[key])
      ensures !r.Registered? ==> exchanges == old(exchanges)
      ensures !old(closed) && key !in old(exchanges) ==>
                && r.Registered? && Evicts(old(exchanges), r.gone, load, seen)
                && exchanges == (old(exchanges) - r.gone)[key := ex]
    {
      if closed {
        return PoolClosed;
      }
      if key in exchanges {
        return KeyTaken(exchanges[key]);
      }
      var gone := EvictLoop(exchanges, load, seen);
      exchanges := (exchanges - gone)[key := ex];
      r := Registered(gone);
    }

    /** The section of acquireDirect: an existing entry is kept and returned. */
    method RegisterDirect(key: Key, ex: Ex, seen: Ex -> int) returns (r: Registration)
      requires "" !in direct
      modifies this`direct
      ensures old(closed) ==> r == PoolClosed
      ensures !old(closed) && key in old(direct) ==> r == KeyTaken(old(direct)[key])
      ensures !r.Registered? ==> direct == old(direct)
      ensures !old(closed) && key !in old(direct) && |old(direct)| <= MAX_EXCHANGES ==>
                && r.Registered? && EvictsOne(old(direct), r.gone, seen)
                && direct == (old(direct) - r.gone)[key := ex]
    {
      if closed {
        return PoolClosed;
      }
      if key in direct {
        return KeyTaken(direct[key]);
      }
      var gone: set<Key> := {};
      if |direct| >= MAX_EXCHANGES {
        var found, oldest := FindOldest(direct, seen);
        if found {
          gone := {oldest};
        }
      }
      direct := (direct - gone)[key := ex];
      r := Registered(gone);
    }

    /** removeExchange: only the entry that still is `ex` goes. */
    method RemoveExchange(key: Key, ex: Ex) returns (removed: bool)
      modifies this`exchanges
      ensures removed <==> key in old(exchanges) && old(exchanges)[key] == ex
      ensures exchanges == if removed then old(exchanges) - {key} else old(exchanges)
    {
      removed := key in exchanges && exchanges[key] == ex;
      if removed {
        exchanges := exchanges - {key};
      }
    }

    /** One tick of cleanupLoop over the exchanges: exactly the entries idle for longer than `limit` are taken out. */
    method TakeStale(now: int, limit: int, seen: Ex -> int) returns (stale: set<Ex>)
      modifies this`exchanges
      ensures stale == set k | k in old(exchanges) && now - seen(old(exchanges)[k]) > limit :: old(exchanges)[k]
      ensures exchanges == map k | k in old(exchanges) && now - seen(old(exchanges)[k]) <= limit :: old(exchanges)[k]
    {
      ghost var before := exchanges;
      stale := {};
      var rest := exchanges.Keys;
      while rest != {}
        invariant rest <= before.Keys
        invariant exchanges == map k | k in before && (k in rest || now - seen(before[k]) <= limit) :: before[k]
        invariant stale == set k | k in before && k !in rest && now - seen(before[k]) > limit :: before[k]
      {
        var k :| k in rest;
        var ex := exchanges[k];
        if now - seen(ex) > limit {
          exchanges := exchanges - {k};
          stale := stale + {ex};
        }
        rest := rest - {k};
      }
    }

    /** The scan of close, which has set `closed` first. */
    method TakeAll() returns (all: set<Ex>)
      modifies this
      ensures closed && exchanges == map[] && direct == map[]
      ensures all == set k | k in old(exchanges) :: old(exchanges)[k]
    {
      closed := true;
      ghost var before := exchanges;
      all := {};
      var rest := exchanges.Keys;
      while rest != {}
        invariant rest <= before.Keys && exchanges == map k | k in rest :: before[k]
        invariant all == set k | k in before && k !in rest :: before[k]
        invariant closed
      {
        var k :| k in rest;
        all := all + {exchanges[k]};
        exchanges, rest := exchanges - {k}, rest - {k};
      }
      direct := map[];
    }
  }
}
