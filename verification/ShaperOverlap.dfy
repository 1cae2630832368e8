/** The pre-flush of shaper/batch.go (lines 107-123) at work: a run with healthy I/O in which a push that has returned
    nil is missing from the wire, between records that are on it. */
module ShaperOverlap {
  import opened Options
  import opened Protocol
  import opened Shaper
  import opened ShaperRuns
  import opened ShaperTheorems
  import opened ShaperBounds
  import opened ShaperLoss

  // ---------------------------------------------------------------- building a run

  ghost predicate EndsIn(states: seq<State>, labels: seq<Label>, s: State) {
    Run(states, labels) && Healthy(labels) && states[|labels|] == s
  }

  /** Some run with healthy I/O leads to `s`. */
  ghost predicate Reached(s: State) {
    exists states, labels :: EndsIn(states, labels, s)
  }

  lemma RunSnoc(states: seq<State>, labels: seq<Label>, l: Label)
    requires Run(states, labels) && Enabled(states[|labels|], l)
    ensures Run(states + [Step(states[|labels|], l)], labels + [l])
  {
    var states', labels' := states + [Step(states[|labels|], l)], labels + [l];
    forall i | 0 <= i < |labels'|
      ensures Enabled(states'[i], labels'[i]) && states'[i + 1] == Step(states'[i], labels'[i])
    {
      if i < |labels| {
        assert states'[i] == states[i] && labels'[i] == labels[i] && states'[i + 1] == states[i + 1];
      }
    }
  }

  lemma ReachedNext(s: State, l: Label)
    requires Reached(s) && Enabled(s, l) && HealthyStep(l)
    ensures Reached(Step(s, l))
  {
    var states, labels :| EndsIn(states, labels, s);
    RunSnoc(states, labels, l);
    assert EndsIn(states + [Step(s, l)], labels + [l], Step(s, l));
  }

  lemma ReachedInitial()
    ensures Reached(INITIAL)
  {
    assert EndsIn([INITIAL], [], INITIAL);
  }

  // ---------------------------------------------------------------- single steps

  function Zeros(n: nat): (z: Bytes)
    ensures |z| == n
  {
    seq(n, _ => 0)
  }

  /** A DATA frame of `n` bytes. */
  function Data(n: nat): Frame {
    Frame(DATA, n, Zeros(n))
  }

  function Quiet(): Choice {
    Choice(0, _ => 0)
  }

  function PushOf(t: Tid, n: nat): Label {
    Push(t, DATA, Zeros(n), false, Quiet())
  }

  /** What the story needs to know of a state besides its threads. */
  datatype Books = Books(
    buffer: nat, current: seq<Frame>, batches: seq<seq<Frame>>, outcomes: seq<bool>, placed: map<Tid, nat>, next: nat,
    failed: bool, closing: bool)

  predicate Shows(s: State, b: Books) {
    && |s.core.plaintext| == b.buffer && s.current == b.current && s.outcomes == b.outcomes && s.writeMu == None
    && |s.batches| == |b.batches| == s.core.writeSeq && |s.outcomes| == s.core.writeNext
    && (forall k :: 0 <= k < |s.batches| ==> s.batches[k].frames == b.batches[k])
    && s.position == b.placed && |s.appended| == b.next
    && s.core.failed == b.failed && s.core.closing == b.closing && !s.core.writeClosed
  }

  /** A frame that fits the buffer below the threshold is accepted on the spot. */
  lemma PushFits(s: State, b: Books, t: Tid, n: nat) returns (s': State)
    requires Shows(s, b) && Reached(s) && t !in s.threads && !b.closing
    requires !b.failed && b.buffer + HEADER_SIZE + n < FLUSH_THRESHOLD
    ensures Reached(s') && s'.threads == s.threads[t := Done(Accepted)]
    ensures s'.calls == s.calls[t := PushCall(Data(n), false)]
    ensures Shows(s', b.(buffer := b.buffer + HEADER_SIZE + n, current := b.current + [Data(n)],
                            placed := b.placed[t := b.next], next := b.next + 1))
  {
    ReachedNext(s, PushOf(t, n));
    s' := Step(s, PushOf(t, n));
  }

  lemma PushPreflushes(s: State, b: Books, t: Tid, n: nat) returns (s': State)
    requires Shows(s, b) && Reached(s) && t !in s.threads && !b.closing && !b.failed && b.buffer > 0
    requires b.buffer <= CEILING && HEADER_SIZE + n <= CEILING < b.buffer + HEADER_SIZE + n
    ensures Reached(s') && t in s'.threads && s'.threads == s.threads[t := s'.threads[t]]
    ensures s'.calls == s.calls[t := PushCall(Data(n), false)]
    ensures s'.threads[t].Waiting? && s'.threads[t].seqNo == |b.batches| && s'.threads[t].k == Resume(Data(n))
    ensures |s'.threads[t].data| <= CEILING
    ensures Shows(s', b.(buffer := 0, current := [], batches := b.batches + [b.current]))
  {
    PadFits(|s.core.plaintext|, CEILING, Quiet());
    ReachedNext(s, PushOf(t, n));
    s' := Step(s, PushOf(t, n));
  }

  /** The writer deals with the record whose turn it is: `ok` says whether it is short enough. */
  lemma WriteTurn(s: State, b: Books, t: Tid, ok: bool) returns (s': State)
    requires Shows(s, b) && Reached(s) && t in s.threads && s.threads[t].Waiting? && s.threads[t].seqNo == |b.outcomes|
    requires ok <==> |s.threads[t].data| <= CEILING
    ensures Reached(s') && s'.calls == s.calls
    ensures s'.threads == s.threads[t := Relock(if ok then Written else Failed, s.threads[t].k)]
    ensures Shows(s', b.(outcomes := b.outcomes + [ok]))
  {
    var s1 := Step(s, TakeTurn(t));
    ReachedNext(s, TakeTurn(t));
    ReachedNext(s1, FinishWrite(t, true));
    s' := Step(s1, FinishWrite(t, true));
  }

  /** A thread with nothing left to append takes `mu` again and returns. */
  lemma Return(s: State, b: Books, t: Tid) returns (s': State)
    requires Shows(s, b) && Reached(s) && t in s.threads && s.threads[t].Relock? && s.threads[t].o != Dropped
    requires s.threads[t].k == AfterAppend || s.threads[t].k == AfterFlush
    ensures Reached(s') && s'.threads == s.threads[t := Done(OutcomeResult(s.threads[t].o))] && s'.calls == s.calls
    ensures Shows(s', b.(failed := b.failed || s.threads[t].o == Failed))
  {
    ReachedNext(s, LockAgain(t, Quiet()));
    s' := Step(s, LockAgain(t, Quiet()));
  }

  /** The pushing thread comes back and appends without another test, which here overfills the record. */
  lemma ResumeOverfills(s: State, b: Books, t: Tid, n: nat) returns (s': State)
    requires Shows(s, b) && Reached(s) && t in s.threads && s.threads[t] == Relock(Written, Resume(Data(n)))
    requires !b.closing && b.buffer + HEADER_SIZE + n > CEILING
    ensures Reached(s') && t in s'.threads && s'.threads == s.threads[t := s'.threads[t]] && s'.calls == s.calls
    ensures s'.threads[t].Waiting? && s'.threads[t].seqNo == |b.batches| && s'.threads[t].k == AfterAppend
    ensures |s'.threads[t].data| > CEILING
    ensures Shows(s', b.(buffer := 0, current := [], batches := b.batches + [b.current + [Data(n)]],
                            placed := b.placed[t := b.next], next := b.next + 1))
  {
    ReachedNext(s, LockAgain(t, Quiet()));
    s' := Step(s, LockAgain(t, Quiet()));
  }

  /** Flush swaps out what is in the buffer. */
  lemma FlushSwaps(s: State, b: Books, t: Tid) returns (s': State)
    requires Shows(s, b) && Reached(s) && t !in s.threads && 0 < b.buffer <= CEILING
    ensures Reached(s') && t in s'.threads
    ensures s'.threads == s.threads[t := s'.threads[t]] && s'.calls == s.calls[t := FlushCall]
    ensures s'.threads[t].Waiting? && s'.threads[t].seqNo == |b.batches| && s'.threads[t].k == AfterFlush
    ensures |s'.threads[t].data| <= CEILING
    ensures Shows(s', b.(buffer := 0, current := [], batches := b.batches + [b.current]))
  {
    var s1 := Step(s, Flush(t));
    ReachedNext(s, Flush(t));
    PadFits(|s.core.plaintext|, CEILING, Quiet());
    ReachedNext(s1, EnterFlush(t, Quiet()));
    s' := Step(s1, EnterFlush(t, Quiet()));
  }

  /** What Close leaves alone. */
  predicate SameHistory(s: State, s': State) {
    s'.outcomes == s.outcomes && s'.batches == s.batches && s'.position == s.position && s'.appended == s.appended
  }

  lemma CloseBegins(s: State, b: Books, t: Tid) returns (s': State)
    requires Shows(s, b) && Reached(s) && t !in s.threads && b.buffer == 0
    ensures Reached(s') && s'.threads == s.threads[t := CloseWait(|b.batches|, Accepted)]
    ensures s'.calls == s.calls[t := CloseCall]
    ensures SameHistory(s, s') && Shows(s', b.(closing := true))
  {
    var s1 := Step(s, Close(t));
    ReachedNext(s, Close(t));
    var s2 := Step(s1, EnterFlush(t, Quiet()));
    ReachedNext(s1, EnterFlush(t, Quiet()));
    ReachedNext(s2, Snapshot(t));
    s' := Step(s2, Snapshot(t));
  }

  /** Close with an empty buffer and no record on its way runs through. */
  lemma CloseRuns(s: State, b: Books, t: Tid) returns (s': State)
    requires Shows(s, b) && Reached(s) && t !in s.threads && b.buffer == 0 && |b.outcomes| == |b.batches|
    ensures Reached(s') && CloseReturned(s', t)
    ensures s'.threads == s.threads[t := Done(Accepted)] && s'.calls == s.calls[t := CloseCall]
    ensures SameHistory(s, s')
  {
    var s3 := CloseBegins(s, b, t);
    var s4 := Step(s3, Drained(t));
    ReachedNext(s3, Drained(t));
    ReachedNext(s4, Free(t));
    s' := Step(s4, Free(t));
  }

  // ---------------------------------------------------------------- the story

  /** Pushes of 10000, 60000 and 50000 bytes: the second pre-flushes the first, and the third slips into its window and
      returns nil. */
  lemma InTheWindow() returns (s: State)
    ensures Reached(s) && s.threads.Keys == {0, 1, 2} == s.calls.Keys
    ensures s.threads[1].Waiting? && s.threads[1].seqNo == 0
    ensures s.threads[1].k == Resume(Data(60000)) && |s.threads[1].data| <= CEILING
    ensures s.threads[2] == Done(Accepted) && s.calls[2] == PushCall(Data(50000), false)
    ensures Shows(s, Books(50003, [Data(50000)], [[Data(10000)]], [], map[0 := 0, 2 := 1], 2, false, false))
  {
    ReachedInitial();
    var b0 := Books(0, [], [], [], map[], 0, false, false);
    var s1 := PushFits(INITIAL, b0, 0, 10000);
    var b1 := Books(10003, [Data(10000)], [], [], map[0 := 0], 1, false, false);
    assert b0.current + [Data(10000)] == [Data(10000)] && b0.placed[0 := 0] == map[0 := 0];
    var s2 := PushPreflushes(s1, b1, 1, 60000);
    var b2 := Books(0, [], [[Data(10000)]], [], map[0 := 0], 1, false, false);
    assert b1.batches + [b1.current] == [[Data(10000)]];
    s := PushFits(s2, b2, 2, 50000);
    assert b2.current + [Data(50000)] == [Data(50000)] && b2.placed[2 := 1] == map[0 := 0, 2 := 1];
  }

  /** The second push then makes a record of 110006 bytes. */
  lemma Overfilled() returns (s: State)
    ensures Reached(s) && s.threads.Keys == {0, 1, 2} == s.calls.Keys
    ensures s.threads[1].Waiting? && s.threads[1].seqNo == 1
    ensures s.threads[1].k == AfterAppend && |s.threads[1].data| > CEILING
    ensures s.threads[2] == Done(Accepted) && s.calls[2] == PushCall(Data(50000), false)
    ensures Shows(s, Books(0, [], [[Data(10000)], [Data(50000), Data(60000)]], [true], map[0 := 0, 2 := 1, 1 := 2], 3,
              false, false))
  {
    var s3 := InTheWindow();
    var b3 := Books(50003, [Data(50000)], [[Data(10000)]], [], map[0 := 0, 2 := 1], 2, false, false);
    var s4 := WriteTurn(s3, b3, 1, true);
    var b4 := b3.(outcomes := [true]);
    assert b3.outcomes + [true] == [true];
    s := ResumeOverfills(s4, b4, 1, 60000);
    assert b4.current + [Data(60000)] == [Data(50000), Data(60000)];
    assert b4.batches + [b4.current + [Data(60000)]] == [[Data(10000)], [Data(50000), Data(60000)]];
    assert b4.placed[1 := 2] == map[0 := 0, 2 := 1, 1 := 2];
  }

  /** Meanwhile a small push is flushed under the next number. */
  lemma OneMoreWaits() returns (s: State)
    ensures Reached(s) && s.threads.Keys == {0, 1, 2, 3, 4} == s.calls.Keys
    ensures s.threads[1].Waiting? && s.threads[1].seqNo == 1
    ensures s.threads[1].k == AfterAppend && |s.threads[1].data| > CEILING
    ensures s.threads[4].Waiting? && s.threads[4].seqNo == 2
    ensures s.threads[4].k == AfterFlush && |s.threads[4].data| <= CEILING
    ensures s.threads[2] == s.threads[3] == Done(Accepted)
    ensures s.calls[2] == PushCall(Data(50000), false) && s.calls[3] == PushCall(Data(100), false)
    ensures Shows(s, Story([true], false))
  {
    var s0 := Overfilled();
    var b0 := Books(0, [], [[Data(10000)], [Data(50000), Data(60000)]], [true], map[0 := 0, 2 := 1, 1 := 2], 3, false,
        false);
    var s1 := PushFits(s0, b0, 3, 100);
    var b1 := b0.(buffer := 103, current := [Data(100)], placed := map[0 := 0, 2 := 1, 1 := 2, 3 := 3], next := 4);
    assert b0.current + [Data(100)] == [Data(100)] && b0.placed[3 := 3] == b1.placed;
    s := FlushSwaps(s1, b1, 4);
    assert b1.batches + [b1.current] == Story([true], false).batches;
  }

  /** The books from there on. */
  function Story(outcomes: seq<bool>, failed: bool): Books {
    Books(0, [], [[Data(10000)], [Data(50000), Data(60000)], [Data(100)]], outcomes,
          map[0 := 0, 2 := 1, 1 := 2, 3 := 3], 4, failed, false)
  }

  /** The long record is refused, the small one is written, and Close returns. */
  lemma Refused() returns (s: State)
    ensures Reached(s) && CloseReturned(s, 5) && PushSucceeded(s, 2)
    ensures PushSucceeded(s, 3) && s.calls[2].f == Data(50000)
    ensures s.outcomes == [true, false, true] && |s.batches| == 3 && s.position == map[0 := 0, 2 := 1, 1 := 2, 3 := 3]
    ensures s.batches[0].frames == [Data(10000)]
    ensures s.batches[1].frames == [Data(50000), Data(60000)] && s.batches[2].frames == [Data(100)]
  {
    var s2 := OneMoreWaits();
    var s3 := WriteTurn(s2, Story([true], false), 1, false);
    assert [true] + [false] == [true, false];
    var s4 := Return(s3, Story([true, false], false), 1);
    var s5 := WriteTurn(s4, Story([true, false], true), 4, true);
    assert [true, false] + [true] == [true, false, true];
    var s6 := Return(s5, Story([true, false, true], true), 4);
    s := CloseRuns(s6, Story([true, false, true], true), 5);
  }

  /** I/O never fails, Close has returned, and the push of thread 2 has returned nil; yet its frame is in no record on
      the wire, while a frame appended after it is: what was written is neither complete nor a prefix of what was
      pushed. */
  lemma OverlapLosesAcceptedFrame() returns (states: seq<State>, labels: seq<Label>, i: nat)
    ensures Run(states, labels) && Healthy(labels) && i < |states|
    ensures var s := states[i];
            && CloseReturned(s, 5) && PushSucceeded(s, 2) && PushSucceeded(s, 3)
            && 2 in s.position && 3 in s.position && s.position[2] < s.position[3]
            && !OnWire(s, s.position[2]) && OnWire(s, s.position[3]) && Absent(s.core.wire, s.calls[2].f)
            && !Bounded(s) && !GuardedUntil(states, labels, i)
  {
    var s := Refused();
    states, labels :| EndsIn(states, labels, s);
    i := |labels|;
    RunInv(states, labels, i);
    WireKeepsOrder(states, labels, i);
    FrameIsAbsent(s);
    PlacesOfStory(s);
    assert ByLength(s) by {
      RunSized(states, labels, i);
    }
    NoLossExactlyWhenGuarded(states, labels, i, 5);
    assert s.position[2] < |s.appended|;
  }

  /** Log position 1 is in the refused record and position 3 in the one after it. */
  lemma PlacesOfStory(s: State)
    requires s.outcomes == [true, false, true] && |s.batches| == 3
    requires |s.batches[0].frames| == 1 && |s.batches[1].frames| == 2 && |s.batches[2].frames| == 1
    ensures !OnWire(s, 1) && OnWire(s, 3)
  {
    Begins(s);
    assert InBatch(s.batches, 1, 1) && InBatch(s.batches, 3, 2) && s.outcomes[2];
    if OnWire(s, 1) {
      var k :| 0 <= k < |s.outcomes| && s.outcomes[k] && InBatch(s.batches, 1, k);
      OneBatch(s.batches, 1, 1, k);
    }
  }

  /** No record decodes to frames that include `f`. */
  predicate Absent(wire: seq<Bytes>, f: Frame) {
    forall j :: 0 <= j < |wire| ==> DecodeFrames(wire[j]).Some? && f !in DecodeFrames(wire[j]).value
  }

  lemma FrameIsAbsent(s: State)
    requires s.outcomes == [true, false, true] && |s.batches| == 3
    requires Carries(s.core.wire, s.batches, Places(s.outcomes))
    requires Lists(Places(s.outcomes), s.outcomes) && forall k :: 0 <= k < 3 ==> GoodBatch(s.batches[k])
    requires s.batches[0].frames == [Data(10000)] && s.batches[2].frames == [Data(100)]
    ensures Absent(s.core.wire, Data(50000))
  {
    forall j | 0 <= j < |s.core.wire|
      ensures DecodeFrames(s.core.wire[j]).Some? && Data(50000) !in DecodeFrames(s.core.wire[j]).value
    {
      var k := Places(s.outcomes)[j];
      assert s.outcomes[k] && k != 1;
      assert GoodBatch(s.batches[k]);
      DecodeOfEncode(s.batches[k].frames + s.batches[k].pad);
      assert |s.batches[k].frames[0].payload| != 50000;
    }
  }

  lemma Begins(s: State)
    requires |s.batches| == 3 && |s.batches[0].frames| == 1 && |s.batches[1].frames| == 2 && |s.batches[2].frames| == 1
    ensures Begin(s.batches, 1) == 1 && Begin(s.batches, 2) == 3 && Begin(s.batches, 3) == 4
  {
    assert s.batches[..0] == [];
    BeginNext(s.batches, 0);
    BeginNext(s.batches, 1);
    BeginNext(s.batches, 2);
  }

  /** In particular the bound on record sizes does not hold of every run. */
  lemma OverlapExceedsBound() returns (states: seq<State>, labels: seq<Label>)
    ensures Run(states, labels) && Healthy(labels) && exists i :: 0 <= i < |states| && !Bounded(states[i])
  {
    var i;
    states, labels, i := OverlapLosesAcceptedFrame();
  }
}
