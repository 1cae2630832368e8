/** Stream accounting of one slot: the counts of active and of heavy streams (transport/http2/stream.go,
    transport/http2/client.go). */
module StreamAccounting {

  const FAST_BYTES := 1048576
  const SLOW_BYTES := 307200

  datatype Mark = Idle | Marked | Released

  // ---------------------------------------------------------------- the methods, one at a time

  class SlotCounters {
    var active: int
    var heavy: int

    constructor ()
      ensures active == 0 == heavy
    {
      active, heavy := 0, 0;
    }
  }

  predicate Qualifies(total: int, oldEnough: bool) {
    total >= FAST_BYTES || (total >= SLOW_BYTES && oldEnough)
  }

  class Http2Stream {
    const slot: SlotCounters?
    var mark: Mark
    var transferred: int

    constructor (slot: SlotCounters?)
      ensures this.slot == slot && mark == Idle && transferred == 0
    {
      this.slot, mark, transferred := slot, Idle, 0;
    }

    /** accumulate: the first qualifying transfer, and no later one, adds this stream to the slot's heavy count. */
    method Accumulate(n: int, oldEnough: bool)
      modifies this, slot
      ensures slot == null || n <= 0 ==> transferred == old(transferred) && mark == old(mark)
      ensures slot != null && n > 0 ==> transferred == old(transferred) + n
      ensures slot != null ==> slot.active == old(slot.active)
      ensures slot != null && n > 0 && old(mark) == Idle && Qualifies(transferred, oldEnough) ==>
                mark == Marked && slot.heavy == old(slot.heavy) + 1
      ensures slot != null && !(n > 0 && old(mark) == Idle && Qualifies(transferred, oldEnough)) ==>
                mark == old(mark) && slot.heavy == old(slot.heavy)
    {
      if slot == null || n <= 0 {
        return;
      }
      transferred := transferred + n;
      if mark != Idle {
        return;
      }
      if !Qualifies(transferred, oldEnough) {
        return;
      }
      mark := Marked;
      slot.heavy := slot.heavy + 1;
    }

    /** releaseHeavy: takes back what Accumulate added, and seals the stream against later marks. */
    method ReleaseHeavy()
      modifies this`mark, slot
      ensures slot == null ==> mark == old(mark)
      ensures slot != null ==> mark == Released && slot.active == old(slot.active)
      ensures slot != null ==> slot.heavy == old(slot.heavy) - (if old(mark) == Marked then 1 else 0)
    {
      if slot == null {
        return;
      }
      if mark == Marked {
        mark := Released;
        slot.heavy := slot.heavy - 1;
      } else if mark == Idle {
        mark := Released;
      }
    }
  }

  // ---------------------------------------------------------------- interleaved steps

  type Sid = nat

  /** Fresh until Open returns it or fails; `done` runs once, releases the mark, then gives up its place in `active`. */
  datatype Phase = Fresh | Aborted | Running | Finishing | Finished

  /** Who holds heavyMu with the slot's counter still to be updated. */
  datatype Lock = Free | Marking | Releasing

  /** `tallied` holds the totals of the readers and writers in accumulate that have added their bytes and not yet
      looked at the state; `waiting` counts those past that look, on their way to heavyMu. */
  datatype Stream = Stream(phase: Phase, mark: Mark, lock: Lock, transferred: nat, tallied: multiset<nat>, waiting: nat)

  datatype State = State(streams: map<Sid, Stream>, active: int, heavy: int)

  datatype Label =
    | Open(id: Sid) | Publish(id: Sid) | Abort(id: Sid)
    | Transfer(id: Sid, n: nat) | Judge(id: Sid, total: nat, oldEnough: bool)
    | LockMark(id: Sid) | CountMark(id: Sid)
    | BeginDone(id: Sid) | LockRelease(id: Sid) | CountRelease(id: Sid) | Finish(id: Sid)

  const INITIAL := State(map[], 0, 0)

  predicate Enabled(s: State, l: Label) {
    if l.Open? then l.id !in s.streams
    else l.id in s.streams && EnabledFor(s.streams[l.id], l)
  }

  predicate EnabledFor(x: Stream, l: Label) {
    match l
    case Open(_) => false
    case Publish(_) => x.phase == Fresh
    case Abort(_) => x.phase == Fresh
    case Transfer(_, n) => x.phase != Fresh && x.phase != Aborted && n > 0
    case Judge(_, total, _) => total in x.tallied
    case LockMark(_) => x.waiting > 0 && x.lock == Free
    case CountMark(_) => x.lock == Marking
    case BeginDone(_) => x.phase == Running
    case LockRelease(_) => x.phase == Finishing && x.mark != Released && x.lock == Free
    case CountRelease(_) => x.lock == Releasing
    case Finish(_) => x.phase == Finishing && x.mark == Released && x.lock == Free
  }

  function NextStream(x: Stream, l: Label): Stream
    requires EnabledFor(x, l)
  {
    match l
    case Publish(_) => x.(phase := Running)
    case Abort(_) => x.(phase := Aborted)
    case Transfer(_, n) => x.(transferred := x.transferred + n, tallied := x.tallied + multiset{x.transferred + n})
    case Judge(_, total, oldEnough) =>
      x.(tallied := x.tallied - multiset{total},
         waiting := if x.mark == Idle && Qualifies(total, oldEnough) then x.waiting + 1 else x.waiting)
    case LockMark(_) =>
      if x.mark == Idle then x.(mark := Marked, lock := Marking) else x.(waiting := x.waiting - 1)
    case CountMark(_) => x.(lock := Free, waiting := if x.waiting > 0 then x.waiting - 1 else 0)
    case BeginDone(_) => x.(phase := Finishing)
    case LockRelease(_) => x.(mark := Released, lock := if x.mark == Marked then Releasing else Free)
    case CountRelease(_) => x.(lock := Free)
    case Finish(_) => x.(phase := Finished)
  }

  function ActiveChange(l: Label): int {
    if l.Open? then 1 else if l.Abort? || l.Finish? then -1 else 0
  }

  function HeavyChange(l: Label): int {
    if l.CountMark? then 1 else if l.CountRelease? then -1 else 0
  }

  function Step(s: State, l: Label): State
    requires Enabled(s, l)
  {
    var x := if l.Open? then Stream(Fresh, Idle, Free, 0, multiset{}, 0) else NextStream(s.streams[l.id], l);
    State(s.streams[l.id := x], s.active + ActiveChange(l), s.heavy + HeavyChange(l))
  }

  // ---------------------------------------------------------------- invariant

  /** The stream has added itself to `heavy` and not yet taken itself off. */
  predicate InHeavy(x: Stream) {
    (x.mark == Marked && x.lock != Marking) || x.lock == Releasing
  }

  predicate InActive(x: Stream) {
    x.phase != Finished && x.phase != Aborted
  }

  function HeavySet(m: map<Sid, Stream>): set<Sid> {
    set id | id in m && InHeavy(m[id])
  }

  function ActiveSet(m: map<Sid, Stream>): set<Sid> {
    set id | id in m && InActive(m[id])
  }

  /** Threads on their way to mark, and marks, exist only on streams that carried enough; a stream that carried enough
      for certain is marked, sealed, or has such a thread. */
  ghost predicate StreamOk(x: Stream) {
    && (x.phase == Fresh || x.phase == Aborted ==>
          x.mark == Idle && x.lock == Free && x.waiting == 0 && x.transferred == 0 && x.tallied == multiset{})
    && (forall total :: total in x.tallied ==> total <= x.transferred)
    && (x.phase == Finished ==> x.lock == Free && x.mark == Released)
    && (x.lock == Marking ==> x.mark == Marked && x.waiting > 0)
    && (x.lock == Releasing ==> x.mark == Released && x.phase == Finishing)
    && (x.mark == Released ==> x.phase == Finishing || x.phase == Finished)
    && (x.waiting > 0 || x.mark == Marked ==> x.transferred >= SLOW_BYTES)
    && (x.transferred >= FAST_BYTES ==> x.mark != Idle || x.waiting > 0 || SomeFast(x.tallied))
  }

  /** Some thread has added its bytes, brought the total to the fast threshold, and has not looked at the state yet. */
  ghost predicate SomeFast(tallied: multiset<nat>) {
    exists total :: total in tallied && total >= FAST_BYTES
  }

  ghost predicate Inv(s: State) {
    && s.active == |ActiveSet(s.streams)| && s.heavy == |HeavySet(s.streams)|
    && forall id :: id in s.streams ==> StreamOk(s.streams[id])
  }

  lemma SizeAround(a: set<Sid>, b: set<Sid>, id: Sid)
    requires forall x :: x != id ==> (x in a <==> x in b)
    ensures |b| == |a| - (if id in a then 1 else 0) + (if id in b then 1 else 0)
  {
    assert a - {id} == b - {id};
    SizeWith(a, id);
    SizeWith(b, id);
  }

  lemma SizeWith(a: set<Sid>, id: Sid)
    ensures |a| == |a - {id}| + (if id in a then 1 else 0)
  {
    if id !in a {
      assert a - {id} == a;
    }
  }

  /** Changing one stream changes a count by at most one. */
  lemma CountsAfter(m: map<Sid, Stream>, id: Sid, y: Stream)
    ensures |HeavySet(m[id := y])| ==
            |HeavySet(m)| - (if id in m && InHeavy(m[id]) then 1 else 0) + (if InHeavy(y) then 1 else 0)
    ensures |ActiveSet(m[id := y])| ==
            |ActiveSet(m)| - (if id in m && InActive(m[id]) then 1 else 0) + (if InActive(y) then 1 else 0)
  {
    SizeAround(HeavySet(m), HeavySet(m[id := y]), id);
    SizeAround(ActiveSet(m), ActiveSet(m[id := y]), id);
  }

  lemma NextStreamOk(x: Stream, l: Label)
    requires StreamOk(x) && EnabledFor(x, l)
    ensures StreamOk(NextStream(x, l))
    ensures HeavyChange(l) == (if InHeavy(NextStream(x, l)) then 1 else 0) - (if InHeavy(x) then 1 else 0)
    ensures ActiveChange(l) == (if InActive(NextStream(x, l)) then 1 else 0) - (if InActive(x) then 1 else 0)
  {
    if l.Transfer? {
      TransferOk(x, l);
    } else if l.Judge? {
      JudgeOk(x, l);
    }
  }

  lemma TransferOk(x: Stream, l: Label)
    requires StreamOk(x) && EnabledFor(x, l) && l.Transfer?
    ensures StreamOk(NextStream(x, l))
  {
    var y := NextStream(x, l);
    assert y.transferred in y.tallied;
  }

  lemma JudgeOk(x: Stream, l: Label)
    requires StreamOk(x) && EnabledFor(x, l) && l.Judge?
    ensures StreamOk(NextStream(x, l))
  {
    var y := NextStream(x, l);
    if x.transferred >= FAST_BYTES && x.mark == Idle && x.waiting == 0 && l.total < FAST_BYTES {
      var total :| total in x.tallied && total >= FAST_BYTES;
      assert total in y.tallied;
    }
  }

  lemma StepKeepsInv(s: State, l: Label)
    requires Inv(s) && Enabled(s, l)
    ensures Inv(Step(s, l))
  {
    var s' := Step(s, l);
    CountsAfter(s.streams, l.id, s'.streams[l.id]);
    if !l.Open? {
      NextStreamOk(s.streams[l.id], l);
    }
  }

  // ---------------------------------------------------------------- what every run guarantees

  ghost predicate Run(states: seq<State>, labels: seq<Label>) {
    && |states| == |labels| + 1 && states[0] == INITIAL
    && forall i :: 0 <= i < |labels| ==> Enabled(states[i], labels[i]) && states[i + 1] == Step(states[i], labels[i])
  }

  lemma {:induction false} RunInv(states: seq<State>, labels: seq<Label>, i: nat)
    requires Run(states, labels) && i < |states|
    ensures Inv(states[i])
  {
    if i > 0 {
      RunInv(states, labels, i - 1);
      StepKeepsInv(states[i - 1], labels[i - 1]);
    }
  }

  lemma SubsetSize(a: set<Sid>, b: set<Sid>)
    requires a <= b
    ensures |a| <= |b|
  {
    assert b == a + (b - a);
  }

  /** At every step 0 <= heavy <= active, and where no stream is between its state change and its count, heavy is the
      number of streams in the marked state. */
  lemma HeavyIsMarked(states: seq<State>, labels: seq<Label>, i: nat)
    requires Run(states, labels) && i < |states|
    ensures var s := states[i];
            && 0 <= s.heavy <= s.active
            && ((forall id :: id in s.streams ==> s.streams[id].lock == Free) ==>
                s.heavy == |set id | id in s.streams && s.streams[id].mark == Marked|)
  {
    var s := states[i];
    RunInv(states, labels, i);
    assert HeavySet(s.streams) <= ActiveSet(s.streams) by {
      forall id | id in HeavySet(s.streams)
        ensures id in ActiveSet(s.streams)
      {
        assert StreamOk(s.streams[id]);
      }
    }
    SubsetSize(HeavySet(s.streams), ActiveSet(s.streams));
    if forall id :: id in s.streams ==> s.streams[id].lock == Free {
      assert HeavySet(s.streams) == set id | id in s.streams && s.streams[id].mark == Marked;
    }
  }

  /** Both counts are back to zero exactly when no stream is open, so an idle slot is never in the heavy tier. */
  lemma IdleSlotIsNotHeavy(states: seq<State>, labels: seq<Label>, i: nat)
    requires Run(states, labels) && i < |states|
    ensures var s := states[i];
            && (s.active == 0 <==> forall id :: id in s.streams ==> !InActive(s.streams[id]))
            && (s.active == 0 ==> s.heavy == 0)
  {
    HeavyIsMarked(states, labels, i);
    RunInv(states, labels, i);
    var s := states[i];
    if forall id :: id in s.streams ==> !InActive(s.streams[id]) {
      assert ActiveSet(s.streams) == {};
    }
    forall id | id in s.streams && s.active == 0
      ensures !InActive(s.streams[id])
    {
      assert id !in ActiveSet(s.streams);
    }
  }

  /** Marks follow the traffic: only a stream that carried the slow threshold is marked, and one that carried the fast
      threshold is marked, sealed by done, or a thread is still in accumulate on its way to mark it. */
  lemma MarksFollowTraffic(states: seq<State>, labels: seq<Label>, i: nat, id: Sid)
    requires Run(states, labels) && i < |states| && id in states[i].streams
    ensures var x := states[i].streams[id];
            && (x.mark == Marked ==> x.transferred >= SLOW_BYTES)
            && (x.transferred >= FAST_BYTES && x.waiting == 0 && x.tallied == multiset{} ==>
                  x.mark == Marked || x.mark == Released)
  {
    RunInv(states, labels, i);
    assert StreamOk(states[i].streams[id]);
  }

  // ---------------------------------------------------------------- exactly which streams are marked

  /** The bytes that reads and writes of `id` have carried in the first `n` steps. */
  function Carried(labels: seq<Label>, n: nat, id: Sid): nat
    requires n <= |labels|
  {
    if n == 0 then 0
    else Carried(labels, n - 1, id) + if labels[n - 1].Transfer? && labels[n - 1].id == id then labels[n - 1].n else 0
  }

  function TransferredOf(s: State, id: Sid): nat {
    if id in s.streams then s.streams[id].transferred else 0
  }

  /** Every byte of a stream is counted once. */
  lemma {:induction false} TransferredIsCarried(states: seq<State>, labels: seq<Label>, i: nat, id: Sid)
    requires Run(states, labels) && i < |states|
    ensures Carried(labels, i, id) == TransferredOf(states[i], id)
  {
    if i > 0 {
      TransferredIsCarried(states, labels, i - 1, id);
      CarriedStep(states[i - 1], labels[i - 1], id);
    }
  }

  lemma CarriedStep(s: State, l: Label, id: Sid)
    requires Enabled(s, l)
    ensures TransferredOf(Step(s, l), id) == TransferredOf(s, id) + if l.Transfer? && l.id == id then l.n else 0
  {
  }

  /** A read or write of `id` looks at the state with 1 MiB carried, or with 300 KiB on a stream that is old enough. */
  predicate FindsHeavy(l: Label, id: Sid) {
    l.Judge? && l.id == id && (l.total >= 1048576 || (l.total >= 307200 && l.oldEnough))
  }

  ghost predicate FoundHeavy(labels: seq<Label>, n: nat, id: Sid)
    requires n <= |labels|
  {
    exists k :: 0 <= k < n && FindsHeavy(labels[k], id)
  }

  /** The stream is marked, sealed, or a thread is on its way to mark it. */
  predicate MarkedOrAboutTo(s: State, id: Sid) {
    id in s.streams && (s.streams[id].mark != Idle || s.streams[id].waiting > 0)
  }

  lemma StaysMarked(s: State, l: Label, id: Sid)
    requires Inv(s) && Enabled(s, l)
    ensures MarkedOrAboutTo(s, id) || FindsHeavy(l, id) ==> MarkedOrAboutTo(Step(s, l), id)
  {
    if id in s.streams {
      assert StreamOk(s.streams[id]);
    }
  }

  /** A mark, or a thread on its way to one. */
  predicate Heavyish(s: State, id: Sid) {
    id in s.streams && (s.streams[id].mark == Marked || s.streams[id].waiting > 0)
  }

  lemma BecomesHeavyish(s: State, l: Label, id: Sid)
    requires Enabled(s, l) && Heavyish(Step(s, l), id)
    ensures Heavyish(s, id) || FindsHeavy(l, id)
  {
  }

  /** A stream is marked only after some read or write found it heavy, and once one has, it is marked, sealed, or a
      thread is on its way to mark it. */
  lemma {:induction false} MarkedExactlyWhenFoundHeavy(states: seq<State>, labels: seq<Label>, i: nat, id: Sid)
    requires Run(states, labels) && i < |states|
    ensures Heavyish(states[i], id) ==> FoundHeavy(labels, i, id)
    ensures FoundHeavy(labels, i, id) ==> MarkedOrAboutTo(states[i], id)
  {
    if i > 0 {
      var s, l := states[i - 1], labels[i - 1];
      MarkedExactlyWhenFoundHeavy(states, labels, i - 1, id);
      RunInv(states, labels, i - 1);
      StaysMarked(s, l, id);
      if Heavyish(states[i], id) {
        BecomesHeavyish(s, l, id);
      }
    }
  }
}
