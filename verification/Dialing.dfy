/** Ordering and dialling of candidate addresses (server/handler/session.go). */
module Dialing {
  import opened Options
  import opened Powers

  // ---------------------------------------------------------------- ordering

  datatype Addr = Addr(is4: bool, host: nat)

  /** The addresses of one family among the first `n`, in order. */
  function OfFirst(addrs: seq<Addr>, n: nat, is4: bool): seq<Addr>
    requires n <= |addrs|
  {
    if n == 0 then [] else OfFirst(addrs, n - 1, is4) + if addrs[n - 1].is4 == is4 then [addrs[n - 1]] else []
  }

  function Of(addrs: seq<Addr>, is4: bool): seq<Addr> {
    OfFirst(addrs, |addrs|, is4)
  }

  /** The address at position `i`, while the list lasts. */
  function At(s: seq<Addr>, i: nat): seq<Addr> {
    if i < |s| then [s[i]] else []
  }

  /** The first `n` rounds of taking one address from each list while it lasts. */
  function Rounds(p: seq<Addr>, r: seq<Addr>, n: nat): seq<Addr> {
    if n == 0 then [] else Rounds(p, r, n - 1) + At(p, n - 1) + At(r, n - 1)
  }

  function Longer(p: seq<Addr>, r: seq<Addr>): nat {
    if |p| < |r| then |r| else |p|
  }

  function Shorter(p: seq<Addr>, r: seq<Addr>): nat {
    if |p| < |r| then |p| else |r|
  }

  function Ordered(addrs: seq<Addr>, prefer: Option<bool>): seq<Addr> {
    if prefer == None || |addrs| < 2 then addrs
    else
      var p, r := Of(addrs, prefer.value), Of(addrs, !prefer.value);
      Rounds(p, r, Longer(p, r))
  }

  method OrderByFamily(addrs: seq<Addr>, prefer: Option<bool>) returns (ordered: seq<Addr>)
    ensures ordered == Ordered(addrs, prefer)
  {
    if prefer == None || |addrs| < 2 {
      return addrs;
    }
    var preferred, rest := [], [];
    for i := 0 to |addrs|
      invariant preferred == OfFirst(addrs, i, prefer.value) && rest == OfFirst(addrs, i, !prefer.value)
    {
      if addrs[i].is4 == prefer.value {
        preferred := preferred + [addrs[i]];
      } else {
        rest := rest + [addrs[i]];
      }
    }
    ordered := [];
    for i := 0 to Longer(preferred, rest)
      invariant ordered == Rounds(preferred, rest, i)
    {
      if i < |preferred| {
        ordered := ordered + [preferred[i]];
      }
      if i < |rest| {
        ordered := ordered + [rest[i]];
      }
    }
  }

  predicate OneFamily(s: seq<Addr>, is4: bool) {
    forall i :: 0 <= i < |s| ==> s[i].is4 == is4
  }

  lemma {:induction false} OfIsOneFamily(addrs: seq<Addr>, n: nat, is4: bool)
    requires n <= |addrs|
    ensures OneFamily(OfFirst(addrs, n, is4), is4)
  {
    if n > 0 {
      OfIsOneFamily(addrs, n - 1, is4);
    }
  }

  /** How often `x` occurs among the first `n`. */
  function Occurs(s: seq<Addr>, n: nat, x: Addr): nat
    requires n <= |s|
  {
    if n == 0 then 0 else Occurs(s, n - 1, x) + if s[n - 1] == x then 1 else 0
  }

  lemma {:induction false} OccursIsMultiplicity(s: seq<Addr>, n: nat, first: seq<Addr>, x: Addr)
    requires n <= |s| && first == s[..n]
    ensures multiset(first)[x] == Occurs(s, n, x)
    decreases n
  {
    if n > 0 {
      var before := s[..n - 1];
      OccursIsMultiplicity(s, n - 1, before, x);
      assert first == before + [s[n - 1]];
    }
  }

  lemma {:induction false} OccursPrefix(s: seq<Addr>, t: seq<Addr>, n: nat, x: Addr)
    requires n <= |s|
    ensures Occurs(s + t, n, x) == Occurs(s, n, x)
  {
    if n > 0 {
      OccursPrefix(s, t, n - 1, x);
    }
  }

  /** An address occurs in its own family as often as in the whole. */
  lemma {:induction false} OccursInFamily(addrs: seq<Addr>, n: nat, x: Addr)
    requires n <= |addrs|
    ensures Occurs(addrs, n, x) == Occurs(OfFirst(addrs, n, x.is4), |OfFirst(addrs, n, x.is4)|, x)
  {
    if n > 0 {
      OccursInFamily(addrs, n - 1, x);
      var before := OfFirst(addrs, n - 1, x.is4);
      OccursPrefix(before, [addrs[n - 1]], |before|, x);
      if addrs[n - 1].is4 != x.is4 {
        assert before + [] == before;
      }
    }
  }

  lemma {:induction false} FamilySizes(addrs: seq<Addr>, n: nat, is4: bool)
    requires n <= |addrs|
    ensures |OfFirst(addrs, n, is4)| + |OfFirst(addrs, n, !is4)| == n
  {
    if n > 0 {
      FamilySizes(addrs, n - 1, is4);
    }
  }

  function Upto(s: seq<Addr>, n: nat): seq<Addr> {
    if n <= |s| then s[..n] else s
  }

  lemma UptoNext(s: seq<Addr>, n: nat)
    ensures Upto(s, n + 1) == Upto(s, n) + At(s, n)
  {
  }

  lemma {:induction false} OfPrefix(a: seq<Addr>, b: seq<Addr>, n: nat, is4: bool)
    requires n <= |a|
    ensures OfFirst(a + b, n, is4) == OfFirst(a, n, is4)
  {
    if n > 0 {
      OfPrefix(a, b, n - 1, is4);
    }
  }

  lemma {:induction false} OfSuffix(a: seq<Addr>, b: seq<Addr>, n: nat, is4: bool)
    requires n <= |b|
    ensures OfFirst(a + b, |a| + n, is4) == Of(a, is4) + OfFirst(b, n, is4)
  {
    if n == 0 {
      OfPrefix(a, b, |a|, is4);
    } else {
      OfSuffix(a, b, n - 1, is4);
      assert (a + b)[|a| + n - 1] == b[n - 1];
    }
  }

  lemma OfConcat(a: seq<Addr>, b: seq<Addr>, is4: bool)
    ensures Of(a + b, is4) == Of(a, is4) + Of(b, is4)
  {
    OfSuffix(a, b, |b|, is4);
  }

  lemma OfAt(s: seq<Addr>, i: nat, family: bool, is4: bool)
    requires OneFamily(s, family)
    ensures Of(At(s, i), is4) == if family == is4 then At(s, i) else []
  {
    if i < |s| {
      assert OfFirst([s[i]], 0, is4) == [];
    }
  }

  lemma OfRound(before: seq<Addr>, x: seq<Addr>, y: seq<Addr>, is4: bool)
    ensures Of(before + x + y, is4) == Of(before, is4) + Of(x, is4) + Of(y, is4)
  {
    OfConcat(before + x, y, is4);
    OfConcat(before, x, is4);
  }

  /** One round adds the next address of the family in question, if its list has one. */
  lemma OneRound(before: seq<Addr>, p: seq<Addr>, r: seq<Addr>, i: nat, family: bool, is4: bool)
    requires OneFamily(p, family) && OneFamily(r, !family)
    ensures Of(before + At(p, i) + At(r, i), is4) == Of(before, is4) + if is4 == family then At(p, i) else At(r, i)
  {
    var done := Of(before, is4);
    OfRound(before, At(p, i), At(r, i), is4);
    OfAt(p, i, family, is4);
    OfAt(r, i, !family, is4);
    if is4 == family {
      assert done + At(p, i) + [] == done + At(p, i);
    } else {
      assert done + [] + At(r, i) == done + At(r, i);
    }
  }

  /** The addresses of one family in `rounds` are the first `n` of `whole`, in order. */
  ghost predicate TakenInOrder(rounds: seq<Addr>, is4: bool, whole: seq<Addr>, n: nat) {
    Of(rounds, is4) == Upto(whole, n)
  }

  lemma TakenNone(is4: bool, whole: seq<Addr>)
    ensures TakenInOrder([], is4, whole, 0)
  {
  }

  lemma TakenNext(before: seq<Addr>, p: seq<Addr>, r: seq<Addr>, i: nat, family: bool, is4: bool, list: seq<Addr>)
    requires OneFamily(p, family) && OneFamily(r, !family) && list == (if is4 == family then p else r)
    requires TakenInOrder(before, is4, list, i)
    ensures TakenInOrder(before + At(p, i) + At(r, i), is4, list, i + 1)
  {
    OneRound(before, p, r, i, family, is4);
    UptoNext(list, i);
  }

  /** `n` rounds take the first `n` of each list and keep their order. */
  lemma {:induction false} RoundsKeepFamilies(p: seq<Addr>, r: seq<Addr>, n: nat, family: bool, is4: bool,
        list: seq<Addr>)
    requires OneFamily(p, family) && OneFamily(r, !family) && list == (if is4 == family then p else r)
    ensures TakenInOrder(Rounds(p, r, n), is4, list, n)
  {
    if n == 0 {
      TakenNone(is4, list);
    } else {
      var before := Rounds(p, r, n - 1);
      RoundsKeepFamilies(p, r, n - 1, family, is4, list);
      TakenNext(before, p, r, n - 1, family, is4, list);
      assert Rounds(p, r, n) == before + At(p, n - 1) + At(r, n - 1);
    }
  }

  function Min(a: nat, b: nat): nat {
    if a < b then a else b
  }

  lemma {:induction false} RoundsLength(p: seq<Addr>, r: seq<Addr>, n: nat)
    ensures |Rounds(p, r, n)| == Min(n, |p|) + Min(n, |r|)
  {
    if n > 0 {
      RoundsLength(p, r, n - 1);
    }
  }

  /** While both lists last, the families alternate. */
  lemma {:induction false} RoundsAlternate(p: seq<Addr>, r: seq<Addr>, n: nat, k: nat)
    requires k < |Rounds(p, r, n)| && k < 2 * Shorter(p, r)
    ensures k % 2 == 0 ==> Rounds(p, r, n)[k] in p
    ensures k % 2 == 1 ==> Rounds(p, r, n)[k] in r
  {
    if n > 0 {
      RoundsLength(p, r, n - 1);
      if k < |Rounds(p, r, n - 1)| {
        RoundsAlternate(p, r, n - 1, k);
      } else {
        assert |Rounds(p, r, n - 1)| == 2 * (n - 1);
      }
    }
  }

  /** Afterwards only the longer list is left. */
  lemma {:induction false} RoundsTail(p: seq<Addr>, r: seq<Addr>, n: nat, k: nat)
    requires 2 * Shorter(p, r) <= k < |Rounds(p, r, n)|
    ensures Rounds(p, r, n)[k] in if |p| < |r| then r else p
  {
    if n > 0 {
      RoundsLength(p, r, n - 1);
      RoundsLength(p, r, n);
      if k < |Rounds(p, r, n - 1)| {
        RoundsTail(p, r, n - 1, k);
      }
    }
  }

  /** orderByFamily permutes the candidates and keeps each family's order; without a preference, or with fewer than two
      candidates, it changes nothing. */
  lemma OrderIsFairPermutation(addrs: seq<Addr>, prefer: Option<bool>)
    ensures var o := Ordered(addrs, prefer);
            && multiset(o) == multiset(addrs) && |o| == |addrs|
            && Of(o, true) == Of(addrs, true) && Of(o, false) == Of(addrs, false)
            && (prefer == None || |addrs| < 2 ==> o == addrs)
  {
    if prefer.Some? && |addrs| >= 2 {
      var o := Ordered(addrs, prefer);
      OrderKeepsFamily(addrs, prefer.value, true);
      OrderKeepsFamily(addrs, prefer.value, false);
      SameFamiliesSameBag(o, addrs);
      FamilySizes(addrs, |addrs|, true);
      FamilySizes(o, |o|, true);
    }
  }

  lemma SameFamiliesSameBag(a: seq<Addr>, b: seq<Addr>)
    requires Of(a, true) == Of(b, true) && Of(a, false) == Of(b, false)
    ensures multiset(a) == multiset(b)
  {
    forall x
      ensures multiset(a)[x] == multiset(b)[x]
    {
      OccursIsMultiplicity(a, |a|, a, x);
      OccursIsMultiplicity(b, |b|, b, x);
      OccursInFamily(a, |a|, x);
      OccursInFamily(b, |b|, x);
      assert Of(a, x.is4) == Of(b, x.is4);
    }
  }

  lemma OrderKeepsFamily(addrs: seq<Addr>, prefer: bool, is4: bool)
    requires |addrs| >= 2
    ensures Of(Ordered(addrs, Some(prefer)), is4) == Of(addrs, is4)
  {
    var p, r := Of(addrs, prefer), Of(addrs, !prefer);
    OfIsOneFamily(addrs, |addrs|, prefer);
    OfIsOneFamily(addrs, |addrs|, !prefer);
    RoundsKeepFamilies(p, r, Longer(p, r), prefer, is4, if is4 == prefer then p else r);
    assert Upto(p, Longer(p, r)) == p && Upto(r, Longer(p, r)) == r;
  }

  lemma OrderAlternates(addrs: seq<Addr>, prefer: bool, k: nat)
    requires |addrs| >= 2 && k < |Ordered(addrs, Some(prefer))|
    ensures var o, p, r := Ordered(addrs, Some(prefer)), Of(addrs, prefer), Of(addrs, !prefer);
            o[k].is4 == if k < 2 * Shorter(p, r) then (if k % 2 == 0 then prefer else !prefer)
                        else if |p| < |r| then !prefer else prefer
  {
    var p, r := Of(addrs, prefer), Of(addrs, !prefer);
    OfIsOneFamily(addrs, |addrs|, prefer);
    OfIsOneFamily(addrs, |addrs|, !prefer);
    if k < 2 * Shorter(p, r) {
      RoundsAlternate(p, r, Longer(p, r), k);
    } else {
      RoundsTail(p, r, Longer(p, r), k);
    }
  }

  // ---------------------------------------------------------------- time

  /** attemptDeadline, with times and durations as integers. */
  function AttemptDeadline(now: int, deadline: int, candidatesLeft: nat, minBudget: int): int
    requires candidatesLeft > 0
  {
    var left := deadline - now;
    if left <= 0 then now
    else
      var share := left / candidatesLeft;
      now + if share >= minBudget then share else if left < minBudget then left else minBudget
  }

  /** No attempt may outlast the shared deadline, and the last candidate may use all that is left. */
  lemma DeadlineIsShared(now: int, deadline: int, n: nat, minBudget: nat)
    requires n > 0
    ensures var d := AttemptDeadline(now, deadline, n, minBudget);
            if now >= deadline then d == now else now <= d <= deadline && (n == 1 ==> d == deadline)
  {
    if now < deadline {
      Quotient(deadline - now, n);
    }
  }

  /** What `n` candidates need at the least. */
  function Total(minBudget: nat, n: nat): nat {
    if n == 0 then 0 else minBudget + Total(minBudget, n - 1)
  }

  lemma {:induction false} TotalIsProduct(minBudget: nat, n: nat)
    ensures Total(minBudget, n) == minBudget * n
  {
    if n > 0 {
      TotalIsProduct(minBudget, n - 1);
      assert minBudget * n == minBudget * (n - 1) + minBudget;
    }
  }

  /** The time left covers the minimum of `n` candidates. */
  predicate Enough(minBudget: nat, n: nat, left: int) {
    Total(minBudget, n) <= left
  }

  /** A share of at least `n` minimums, divided by `n`, is a minimum, and the others keep theirs. */
  lemma ShareIsEnough(left: int, n: nat, minBudget: nat)
    requires n > 0 && minBudget * n <= left
    ensures left / n >= minBudget && minBudget * (n - 1) <= left - left / n
  {
    TimesAtLeast(minBudget, n);
    Quotient(left, n);
    var q := left / n;
    if q < minBudget {
      Scaled(q + 1, minBudget, n);
      assert false;
    }
    Scaled(minBudget, q, n - 1);
    assert q * n == q * (n - 1) + q;
  }

  /** The grant, exactly: an even share of the time left if that covers everybody's minimum, and otherwise the minimum
      as far as the time goes. */
  lemma GrantExactly(now: int, deadline: int, n: nat, minBudget: nat)
    requires n > 0 && now < deadline
    ensures var left, g := deadline - now, AttemptDeadline(now, deadline, n, minBudget) - now;
            && (minBudget * n <= left ==> g * n <= left < (g + 1) * n)
            && (minBudget * n > left ==> g == if left < minBudget then left else minBudget)
            && g >= left / n
  {
    var left := deadline - now;
    Quotient(left, n);
    if minBudget * n <= left {
      ShareIsEnough(left, n, minBudget);
    } else if left / n >= minBudget {
      Scaled(minBudget, left / n, n);
    }
  }

  /** With enough for everybody, whoever is next gets the minimum and leaves enough for the rest, even if he uses up
      his share. */
  lemma EnoughForTheRest(now: int, deadline: int, n: nat, minBudget: nat, used: int)
    requires n > 0 && Enough(minBudget, n, deadline - now)
    requires 0 <= used <= AttemptDeadline(now, deadline, n, minBudget) - now
    ensures AttemptDeadline(now, deadline, n, minBudget) - now >= minBudget
    ensures Enough(minBudget, n - 1, deadline - (now + used))
  {
    TotalIsProduct(minBudget, n);
    TotalIsProduct(minBudget, n - 1);
    TimesAtLeast(minBudget, n);
    ShareIsEnough(deadline - now, n, minBudget);
  }

  // ---------------------------------------------------------------- dialling

  /** How one attempt would go with unlimited time: its outcome, how long it takes, and whether the caller is gone by
      then. */
  datatype Attempt = Attempt(ok: bool, takes: nat, callerGone: bool)

  datatype Dial = NoCandidates | Connected(index: nat) | ClientGone | Exhausted

  /** When an attempt started and the deadline it was given. */
  datatype Slice = Slice(start: int, limit: int)

  /** An attempt connects if it is done before its slice ends. */
  predicate Connects(a: Attempt, x: Slice) {
    a.ok && a.takes < x.limit - x.start
  }

  /** Attempts run one after the other, each within its slice and none past the shared deadline; one that began after
      the deadline gets nothing. */
  ghost predicate Sliced(slices: seq<Slice>, begin: int, deadline: int, end: int) {
    && begin <= end && (begin <= deadline ==> end <= deadline)
    && (forall i :: 0 <= i < |slices| ==> begin <= slices[i].start <= slices[i].limit && slices[i].start <= end)
    && (forall i :: 0 <= i < |slices| ==> slices[i].limit <= deadline || slices[i].limit == slices[i].start)
    && (forall i, j :: 0 <= i < j < |slices| ==> slices[i].start <= slices[j].start)
  }

  lemma SlicedNext(slices: seq<Slice>, begin: int, deadline: int, end: int, x: Slice, used: nat)
    requires Sliced(slices, begin, deadline, end) && x.start == end && end + used <= x.limit
    requires if end >= deadline then x.limit == end else x.limit <= deadline
    ensures Sliced(slices + [x], begin, deadline, end + used)
  {
  }

  /** Every attempt made has the minimum. */
  predicate AllHave(slices: seq<Slice>, minBudget: nat) {
    forall i :: 0 <= i < |slices| ==> slices[i].limit - slices[i].start >= minBudget
  }

  lemma AllHaveNext(slices: seq<Slice>, x: Slice, minBudget: nat)
    ensures AllHave(slices + [x], minBudget) <==> AllHave(slices, minBudget) && x.limit - x.start >= minBudget
  {
    assert (slices + [x])[|slices|] == x;
    if AllHave(slices + [x], minBudget) {
      assert forall i :: 0 <= i < |slices| ==> slices[i] == (slices + [x])[i];
    }
  }

  /** None of the first `n` attempts settles the matter: none connects, and the caller is still there after each. */
  predicate Unsettled(attempts: seq<Attempt>, slices: seq<Slice>, n: int) {
    && n <= |attempts| && n <= |slices|
    && forall i :: 0 <= i < n ==> !Connects(attempts[i], slices[i]) && !attempts[i].callerGone
  }

  /** Every attempt but the first begins before the deadline. */
  predicate InTime(slices: seq<Slice>, deadline: int) {
    forall k :: 0 < k < |slices| ==> slices[k].start < deadline
  }

  lemma UnsettledNext(attempts: seq<Attempt>, slices: seq<Slice>, x: Slice, deadline: int)
    requires |slices| < |attempts| && Unsettled(attempts, slices, |slices|) && InTime(slices, deadline)
    requires slices != [] ==> x.start < deadline
    ensures Unsettled(attempts, slices + [x], |slices|) && InTime(slices + [x], deadline)
    ensures var i := |slices|;
            !Connects(attempts[i], x) && !attempts[i].callerGone ==> Unsettled(attempts, slices + [x], |slices| + 1)
  {
  }

  /** When an attempt is over: when it is done, or when its slice ends. */
  function EndOf(a: Attempt, x: Slice): int {
    if a.takes <= x.limit - x.start then x.start + a.takes else x.limit
  }

  /** Attempt `i` begins when the one before it is over, and has the deadline that its turn entitles it to. */
  predicate OnSchedule(
      attempts: seq<Attempt>, slices: seq<Slice>, i: nat, begin: int, deadline: int, minBudget: nat) {
    && i < |slices| <= |attempts|
    && slices[i].start == (if i == 0 then begin else EndOf(attempts[i - 1], slices[i - 1]))
    && slices[i].limit == AttemptDeadline(slices[i].start, deadline, |attempts| - i, minBudget)
  }

  ghost predicate Scheduled(
      attempts: seq<Attempt>, slices: seq<Slice>, begin: int, deadline: int, end: int, minBudget: nat) {
    && |slices| <= |attempts|
    && (forall i :: 0 <= i < |slices| ==> OnSchedule(attempts, slices, i, begin, deadline, minBudget))
    && end == if slices == [] then begin else EndOf(attempts[|slices| - 1], slices[|slices| - 1])
  }

  lemma ScheduledNext(
      attempts: seq<Attempt>, slices: seq<Slice>, begin: int, deadline: int, end: int, minBudget: nat, x: Slice)
    requires Scheduled(attempts, slices, begin, deadline, end, minBudget) && |slices| < |attempts| && x.start == end
    requires x.limit == AttemptDeadline(end, deadline, |attempts| - |slices|, minBudget)
    ensures Scheduled(attempts, slices + [x], begin, deadline, EndOf(attempts[|slices|], x), minBudget)
  {
    var next := slices + [x];
    forall i | 0 <= i < |next|
      ensures OnSchedule(attempts, next, i, begin, deadline, minBudget)
    {
      if i < |slices| {
        assert OnSchedule(attempts, slices, i, begin, deadline, minBudget);
        assert next[i] == slices[i] && (i > 0 ==> next[i - 1] == slices[i - 1]);
      }
    }
  }

  /** One turn of the loop in dialAddrs from `now`, with `left` candidates to go: the slice granted and when the attempt
      ended. */
  ghost predicate Turn(a: Attempt, now: int, deadline: int, left: nat, minBudget: nat, x: Slice, end: int) {
    && x.start == now <= end <= x.limit && (if now >= deadline then x.limit == now else x.limit <= deadline)
    && (left > 0 ==> x.limit == AttemptDeadline(now, deadline, left, minBudget)) && end == EndOf(a, x)
    && (left > 0 && Enough(minBudget, left, deadline - now) ==>
          && x.limit - now >= minBudget && Enough(minBudget, left - 1, deadline - end)
          && (minBudget > 0 && end >= deadline ==> left == 1))
  }

  method TryOne(a: Attempt, now: int, deadline: int, left: nat, minBudget: nat) returns (x: Slice, end: int)
    requires left > 0
    ensures Turn(a, now, deadline, left, minBudget, x, end)
  {
    x := Slice(now, AttemptDeadline(now, deadline, left, minBudget));
    DeadlineIsShared(now, deadline, left, minBudget);
    end := if a.takes <= x.limit - now then now + a.takes else x.limit;
    assert end == EndOf(a, x);
    if Enough(minBudget, left, deadline - now) {
      EnoughForTheRest(now, deadline, left, minBudget, end - now);
      NothingLeft(minBudget, left - 1);
    }
  }

  /** What a series of attempts promises, up to and including the last one. */
  ghost predicate Tried(
      attempts: seq<Attempt>, slices: seq<Slice>, begin: int, deadline: int, end: int, minBudget: nat) {
    && Scheduled(attempts, slices, begin, deadline, end, minBudget) && Sliced(slices, begin, deadline, end)
    && Unsettled(attempts, slices, |slices| - 1) && InTime(slices, deadline)
    && (Enough(minBudget, |attempts|, deadline - begin) ==> AllHave(slices, minBudget))
  }

  /** The series may go on. */
  ghost predicate Open(
      attempts: seq<Attempt>, slices: seq<Slice>, begin: int, deadline: int, end: int, minBudget: nat) {
    && Tried(attempts, slices, begin, deadline, end, minBudget) && Unsettled(attempts, slices, |slices|)
    && (slices != [] ==> end < deadline)
    && (Enough(minBudget, |attempts|, deadline - begin) ==> Enough(minBudget, |attempts| - |slices|, deadline - end))
  }

  lemma OneMoreTurn(
      attempts: seq<Attempt>, slices: seq<Slice>, begin: int, deadline: int, end: int, minBudget: nat, x: Slice,
          after: int)
    requires Open(attempts, slices, begin, deadline, end, minBudget) && |slices| < |attempts|
    requires Turn(attempts[|slices|], end, deadline, |attempts| - |slices|, minBudget, x, after)
    ensures Tried(attempts, slices + [x], begin, deadline, after, minBudget)
    ensures !Connects(attempts[|slices|], x) && !attempts[|slices|].callerGone ==>
              Unsettled(attempts, slices + [x], |slices| + 1)
  {
    ScheduledNext(attempts, slices, begin, deadline, end, minBudget, x);
    SlicedNext(slices, begin, deadline, end, x, after - end);
    UnsettledNext(attempts, slices, x, deadline);
    AllHaveNext(slices, x, minBudget);
  }

  /** dialAddrs under a shared deadline: in order, each within its share and none past the deadline, until one
      connects, the caller is gone or the time is up; with enough time for all everybody has the minimum and nobody is
      left out. */
  method DialAddrs(attempts: seq<Attempt>, begin: int, deadline: int, minBudget: nat)
      returns (r: Dial, end: int, slices: seq<Slice>)
    ensures r == NoCandidates <==> attempts == []
    ensures Tried(attempts, slices, begin, deadline, end, minBudget)
    ensures r.Connected? ==> |slices| == r.index + 1 && Connects(attempts[r.index], slices[r.index])
    ensures !r.Connected? && slices != [] ==> !Connects(attempts[|slices| - 1], slices[|slices| - 1])
    ensures r == ClientGone ==> slices != [] && attempts[|slices| - 1].callerGone
    ensures r == Exhausted ==> Unsettled(attempts, slices, |slices|) && (|slices| == |attempts| || end >= deadline)
    ensures attempts != [] ==> slices != []
    ensures r == Exhausted && minBudget > 0 && Enough(minBudget, |attempts|, deadline - begin) ==>
              |slices| == |attempts|
  {
    slices, end := [], begin;
    if |attempts| == 0 {
      return NoCandidates, end, slices;
    }
    var i := 0;
    while i < |attempts|
      invariant 0 <= i <= |attempts| && |slices| == i && Open(attempts, slices, begin, deadline, end, minBudget)
    {
      var x, after := TryOne(attempts[i], end, deadline, |attempts| - i, minBudget);
      OneMoreTurn(attempts, slices, begin, deadline, end, minBudget, x, after);
      slices, end := slices + [x], after;
      assert slices[i] == x;
      if Connects(attempts[i], x) {
        return Connected(i), end, slices;
      }
      if attempts[i].callerGone {
        return ClientGone, end, slices;
      }
      if end >= deadline {
        return Exhausted, end, slices;
      }
      i := i + 1;
    }
    r := Exhausted;
  }

  /** A first candidate that connects within an even share of the time is never given up. */
  lemma PromptCandidateConnects(
      attempts: seq<Attempt>, slices: seq<Slice>, begin: int, deadline: int, end: int, minBudget: nat)
    requires Tried(attempts, slices, begin, deadline, end, minBudget) && slices != [] && begin < deadline
    requires attempts[0].ok && attempts[0].takes < (deadline - begin) / |attempts|
    ensures Connects(attempts[0], slices[0]) && |slices| == 1
  {
    GrantExactly(begin, deadline, |attempts|, minBudget);
    assert OnSchedule(attempts, slices, 0, begin, deadline, minBudget);
  }

  /** dialAddrs when neither the dialer nor the caller sets a deadline: attempts run to their end, in order, until one
      connects or the caller is gone. */
  method DialAddrsFreely(attempts: seq<Attempt>) returns (r: Dial)
    ensures r == NoCandidates <==> attempts == []
    ensures r.Connected? ==>
              && r.index < |attempts| && attempts[r.index].ok
              && forall k :: 0 <= k < r.index ==> !attempts[k].ok && !attempts[k].callerGone
    ensures r == Exhausted ==> forall k :: 0 <= k < |attempts| ==> !attempts[k].ok && !attempts[k].callerGone
    ensures r == ClientGone ==>
              exists i :: 0 <= i < |attempts| && attempts[i].callerGone && forall k :: 0 <= k <= i ==> !attempts[k].ok
  {
    if |attempts| == 0 {
      return NoCandidates;
    }
    for i := 0 to |attempts|
      invariant forall k :: 0 <= k < i ==> !attempts[k].ok && !attempts[k].callerGone
    {
      if attempts[i].ok {
        return Connected(i);
      }
      if attempts[i].callerGone {
        return ClientGone;
      }
    }
    r := Exhausted;
  }

  lemma NothingLeft(minBudget: nat, n: nat)
    ensures minBudget > 0 && Enough(minBudget, n, 0) ==> n == 0
  {
  }

  // ---------------------------------------------------------------- the worst case

  /** What `n` candidates are granted from `now` on when every one uses up its slice. */
  function Grants(now: int, deadline: int, n: nat, minBudget: nat): seq<int>
    decreases n
  {
    if n == 0 then []
    else
      var d := AttemptDeadline(now, deadline, n, minBudget);
      [d - now] + Grants(d, deadline, n - 1, minBudget)
  }

  ghost predicate AllGranted(grants: seq<int>, minBudget: nat) {
    forall i :: 0 <= i < |grants| ==> grants[i] >= minBudget
  }

  /** Candidates that all use up their slices get the minimum each if and only if the total covers it `n` times. */
  lemma {:induction false} MinimumForAllExactly(now: int, deadline: int, n: nat, minBudget: nat)
    requires now <= deadline
    ensures AllGranted(Grants(now, deadline, n, minBudget), minBudget) <==> Enough(minBudget, n, deadline - now)
    ensures Enough(minBudget, n, deadline - now) <==> minBudget * n <= deadline - now
    decreases n
  {
    TotalIsProduct(minBudget, n);
    if n > 0 {
      var d := AttemptDeadline(now, deadline, n, minBudget);
      DeadlineIsShared(now, deadline, n, minBudget);
      MinimumForAllExactly(d, deadline, n - 1, minBudget);
      var grants, rest := Grants(now, deadline, n, minBudget), Grants(d, deadline, n - 1, minBudget);
      assert grants == [d - now] + rest;
      if Enough(minBudget, n, deadline - now) {
        EnoughForTheRest(now, deadline, n, minBudget, d - now);
      }
      if AllGranted(grants, minBudget) {
        assert grants[0] == d - now;
        forall i | 0 <= i < |rest|
          ensures rest[i] >= minBudget
        {
          assert rest[i] == grants[i + 1];
        }
      }
    }
  }

  function Sum(grants: seq<int>): int {
    if grants == [] then 0 else grants[0] + Sum(grants[1..])
  }

  /** Every grant is `q` or one more. */
  predicate Around(grants: seq<int>, q: int) {
    forall i :: 0 <= i < |grants| ==> q <= grants[i] <= q + 1
  }

  /** Taking a share of time that lies between `q` and `q + 1` for each of `n` leaves time that does so for the rest. */
  lemma SharesStayEven(left: int, n: nat, q: nat)
    requires n > 0 && q * n <= left <= (q + 1) * n
    ensures q <= left / n <= q + 1 && q * (n - 1) <= left - left / n <= (q + 1) * (n - 1)
  {
    TimesAtLeast(q, n);
    Quotient(left, n);
    var g := left / n;
    assert q * n == q * (n - 1) + q && (q + 1) * n == (q + 1) * (n - 1) + (q + 1);
    if g < q {
      Scaled(g + 1, q, n);
    } else if g > q + 1 {
      assert (q + 2) * n == (q + 1) * n + n;
      Scaled(q + 2, g, n);
    } else if g == q + 1 {
      assert g * n == (q + 1) * n;
    } else {
      assert (g + 1) * n == (q + 1) * n;
    }
  }

  lemma {:induction false} GrantsAreAround(now: int, deadline: int, n: nat, minBudget: nat, q: nat)
    requires now <= deadline && Enough(minBudget, n, deadline - now) && q * n <= deadline - now <= (q + 1) * n
    ensures Around(Grants(now, deadline, n, minBudget), q)
    ensures n > 0 ==> Sum(Grants(now, deadline, n, minBudget)) == deadline - now
    decreases n
  {
    if n > 0 {
      var d := AttemptDeadline(now, deadline, n, minBudget);
      EnoughForTheRest(now, deadline, n, minBudget, 0);
      TotalIsProduct(minBudget, n);
      EvenGrant(now, deadline, n, minBudget);
      SharesStayEven(deadline - now, n, q);
      EnoughForTheRest(now, deadline, n, minBudget, d - now);
      GrantsAreAround(d, deadline, n - 1, minBudget, q);
      var grants, rest := Grants(now, deadline, n, minBudget), Grants(d, deadline, n - 1, minBudget);
      assert grants == [d - now] + rest && grants[1..] == rest;
      if n == 1 {
        DeadlineIsShared(now, deadline, n, minBudget);
      }
    }
  }

  lemma EvenGrant(now: int, deadline: int, n: nat, minBudget: nat)
    requires n > 0 && now <= deadline && minBudget * n <= deadline - now
    ensures AttemptDeadline(now, deadline, n, minBudget) == now + (deadline - now) / n
  {
    ShareIsEnough(deadline - now, n, minBudget);
  }

  /** With enough time, candidates that all use up their slices are served evenly: the grants add up to the whole time
      and no two of them differ by more than one. */
  lemma GrantsAreEven(now: int, deadline: int, n: nat, minBudget: nat, i: nat, j: nat)
    requires n > 0 && now <= deadline && minBudget * n <= deadline - now && i < n && j < n
    ensures var grants := Grants(now, deadline, n, minBudget);
            |grants| == n && Sum(grants) == deadline - now && -1 <= grants[i] - grants[j] <= 1
  {
    Quotient(deadline - now, n);
    TotalIsProduct(minBudget, n);
    GrantsAreAround(now, deadline, n, minBudget, (deadline - now) / n);
    GrantsLength(now, deadline, n, minBudget);
  }

  lemma {:induction false} GrantsLength(now: int, deadline: int, n: nat, minBudget: nat)
    ensures |Grants(now, deadline, n, minBudget)| == n
    decreases n
  {
    if n > 0 {
      GrantsLength(AttemptDeadline(now, deadline, n, minBudget), deadline, n - 1, minBudget);
    }
  }
}
