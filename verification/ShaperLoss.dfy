/** What reaches the wire when the I/O below the record writer never fails (shaper/batch.go, crypto/record.go lines
    43-46). The writer still refuses a plaintext above its limit, so frames can be lost, and this module says exactly
    when. */
module ShaperLoss {
  import opened Options
  import opened Protocol
  import opened Shaper
  import opened ShaperRuns
  import opened ShaperTheorems
  import opened ShaperBounds

  /** No write of this run fails below the record writer. */
  predicate Healthy(labels: seq<Label>) {
    forall j :: 0 <= j < |labels| ==> HealthyStep(labels[j])
  }

  predicate HealthyStep(l: Label) {
    l.FinishWrite? ==> l.writerOk
  }

  // ---------------------------------------------------------------- batches and outcomes over a run

  /** Batches are only ever added, the buffer is below the flush threshold whenever `mu` is free, and only a finished
      write has an outcome. */
  predicate RecordsGrow(s: State, s': State) {
    s.batches <= s'.batches && s'.outcomes == s.outcomes && |s'.core.plaintext| < FLUSH_THRESHOLD
  }

  lemma SwapRecords(s: State, t: Tid, k: Kont, done: Pc, choice: Choice)
    ensures var s' := SwapOut(s, t, k, done, choice);
            s.batches <= s'.batches && s'.outcomes == s.outcomes && s'.core.plaintext == []
  {
  }

  lemma AppendRecords(s: State, t: Tid, f: Frame, choice: Choice)
    ensures RecordsGrow(s, AppendAndSwap(s, t, f, choice))
  {
    SwapRecords(Appended(s, t, f), t, AfterAppend, Done(Accepted), choice);
  }

  lemma PushRecords(s: State, l: Label)
    requires l.Push? && Enabled(s, l) && |s.core.plaintext| < FLUSH_THRESHOLD
    ensures RecordsGrow(s, Step(s, l))
  {
    var f := Frame(l.ftype, |l.payload|, l.payload);
    var s' := Started(s, l.t, PushCall(f, l.cover));
    SwapRecords(s', l.t, Resume(f), Done(Accepted), l.choice);
    AppendRecords(s', l.t, f, l.choice);
  }

  lemma LockAgainRecords(s: State, t: Tid, choice: Choice)
    requires Enabled(s, LockAgain(t, choice)) && |s.core.plaintext| < FLUSH_THRESHOLD
    ensures RecordsGrow(s, Step(s, LockAgain(t, choice)))
  {
    var pc := s.threads[t];
    if pc.k.Resume? {
      AppendRecords(s.(core := Relocked(s.core, pc.o)), t, pc.k.f, choice);
    }
  }

  lemma StepRecords(s: State, l: Label)
    requires Inv(s) && Enabled(s, l) && !l.FinishWrite? && |s.core.plaintext| < FLUSH_THRESHOLD
    ensures RecordsGrow(s, Step(s, l))
  {
    if l.Push? {
      PushRecords(s, l);
    } else if l.EnterFlush? {
      SwapRecords(s, l.t, AfterFlush, Done(Accepted), l.choice);
      SwapRecords(s, l.t, AfterCloseFlush, CloseSnapshot(Accepted), l.choice);
    } else if l.LockAgain? {
      LockAgainRecords(s, l.t, l.choice);
    } else {
      BufferIsStill(s, l);
      OutcomesAreStill(s, l);
    }
  }

  lemma OutcomesAreStill(s: State, l: Label)
    requires Enabled(s, l) && !l.Push? && !l.EnterFlush? && !l.LockAgain? && !l.FinishWrite?
    ensures Step(s, l).outcomes == s.outcomes
  {
  }

  /** A record was written exactly if the writer takes its length. */
  predicate ByLength(s: State) {
    && |s.outcomes| <= |s.batches|
    && forall k :: 0 <= k < |s.outcomes| ==> (s.outcomes[k] <==> |BatchBytes(s.batches[k])| <= CEILING)
  }

  predicate Sized(s: State) {
    ByLength(s) && |s.core.plaintext| < FLUSH_THRESHOLD
  }

  lemma FinishKeepsSized(s: State, t: Tid)
    requires Inv(s) && Sized(s) && Enabled(s, FinishWrite(t, true))
    ensures var s' := Step(s, FinishWrite(t, true)); Sized(s') && s'.batches == s.batches
  {
    HolderOwnsNext(s, t);
  }

  lemma StepKeepsSized(s: State, l: Label)
    requires Inv(s) && Sized(s) && Enabled(s, l) && HealthyStep(l)
    ensures Sized(Step(s, l)) && s.batches <= Step(s, l).batches
  {
    if l.FinishWrite? {
      FinishKeepsSized(s, l.t);
    } else {
      StepRecords(s, l);
    }
  }

  lemma {:induction false} RunSized(states: seq<State>, labels: seq<Label>, i: nat)
    requires Run(states, labels) && i < |states| && Healthy(labels)
    ensures Sized(states[i])
  {
    if i > 0 {
      RunSized(states, labels, i - 1);
      RunInv(states, labels, i - 1);
      StepKeepsSized(states[i - 1], labels[i - 1]);
    }
  }

  lemma RunStepBatches(states: seq<State>, labels: seq<Label>, i: nat)
    requires Run(states, labels) && i < |labels| && Healthy(labels)
    ensures states[i].batches <= states[i + 1].batches
  {
    RunInv(states, labels, i);
    RunSized(states, labels, i);
    StepKeepsSized(states[i], labels[i]);
  }

  lemma {:induction false} ChainBatches(states: seq<State>, i: nat, j: nat)
    requires i <= j < |states| && forall k :: 0 < k < |states| ==> states[k - 1].batches <= states[k].batches
    ensures states[i].batches <= states[j].batches
  {
    if i < j {
      ChainBatches(states, i, j - 1);
    }
  }

  lemma BatchesStay(states: seq<State>, labels: seq<Label>, i: nat, j: nat)
    requires Run(states, labels) && i <= j < |states| && Healthy(labels)
    ensures states[i].batches <= states[j].batches
  {
    forall k | 0 < k < |states|
      ensures states[k - 1].batches <= states[k].batches
    {
      RunStepBatches(states, labels, k - 1);
    }
    ChainBatches(states, i, j);
  }

  // ---------------------------------------------------------------- when every record is written

  /** With healthy I/O no write has failed if and only if no record dealt with so far is too long. */
  lemma WrittenExactlyWhenShort(states: seq<State>, labels: seq<Label>, i: nat)
    requires Run(states, labels) && i < |states| && Healthy(labels)
    ensures var s := states[i];
            && s.core.writeNext <= |s.batches|
            && (AllWritten(s) <==> forall k :: 0 <= k < s.core.writeNext ==> |BatchBytes(s.batches[k])| <= CEILING)
  {
    RunInv(states, labels, i);
    RunSized(states, labels, i);
  }

  /** Every push that resumed before step `i` still found room. */
  ghost predicate GuardedUntil(states: seq<State>, labels: seq<Label>, i: nat)
    requires Run(states, labels) && i < |states|
  {
    forall j :: 0 <= j < i ==> ResumeGuard(states[j], labels[j])
  }

  lemma GuardedIsWritten(states: seq<State>, labels: seq<Label>, i: nat)
    requires Run(states, labels) && i < |states| && Healthy(labels) && GuardedUntil(states, labels, i)
    ensures AllWritten(states[i])
  {
    WrittenExactlyWhenShort(states, labels, i);
    GuardedIsBounded(states, labels, i);
  }

  /** Calls that do not append in each other's window lose nothing. */
  lemma UndisturbedIsWritten(states: seq<State>, labels: seq<Label>, i: nat)
    requires Run(states, labels) && i < |states| && Healthy(labels)
    requires forall j :: 0 <= j < i ==> Undisturbed(states[j], labels[j])
    ensures GuardedUntil(states, labels, i) && AllWritten(states[i])
  {
    UndisturbedIsBounded(states, labels, i);
    GuardedIsWritten(states, labels, i);
  }

  /** Records never get shorter and the buffer is always short, so a state within the bound has a past within it. */
  lemma BoundedWasBounded(states: seq<State>, labels: seq<Label>, i: nat, j: nat)
    requires Run(states, labels) && j <= i < |states| && Healthy(labels) && Bounded(states[i])
    ensures Bounded(states[j])
  {
    BatchesStay(states, labels, j, i);
    RunSized(states, labels, j);
    forall k | 0 <= k < |states[j].batches|
      ensures |BatchBytes(states[j].batches[k])| <= CEILING
    {
      assert states[j].batches[k] == states[i].batches[k];
    }
  }

  lemma BoundedIsGuarded(states: seq<State>, labels: seq<Label>, i: nat, j: nat)
    requires Run(states, labels) && j < i < |states| && Healthy(labels) && Bounded(states[i])
    ensures ResumeGuard(states[j], labels[j])
  {
    BoundedWasBounded(states, labels, i, j);
    BoundedWasBounded(states, labels, i, j + 1);
    RunInv(states, labels, j);
    BoundStep(states[j], labels[j]);
  }

  /** Once every record has been dealt with, as when Close has returned: all were written if and only if every push that
      resumed after its pre-flush still found room. */
  lemma WrittenExactlyWhenGuarded(states: seq<State>, labels: seq<Label>, i: nat)
    requires Run(states, labels) && i < |states| && Healthy(labels)
    requires states[i].core.writeNext == states[i].core.writeSeq
    ensures AllWritten(states[i]) <==> GuardedUntil(states, labels, i)
  {
    WrittenExactlyWhenShort(states, labels, i);
    RunSized(states, labels, i);
    RunInv(states, labels, i);
    if AllWritten(states[i]) {
      assert Bounded(states[i]);
      forall j | 0 <= j < i
        ensures ResumeGuard(states[j], labels[j])
      {
        BoundedIsGuarded(states, labels, i, j);
      }
    }
    if GuardedUntil(states, labels, i) {
      GuardedIsWritten(states, labels, i);
    }
  }

  // ---------------------------------------------------------------- when every frame is on the wire

  /** Where batch `k` begins in the log. */
  function Begin(bs: seq<Batch>, k: nat): nat
    requires k <= |bs|
  {
    |BatchFrames(bs[..k])|
  }

  lemma BeginNext(bs: seq<Batch>, k: nat)
    requires k < |bs|
    ensures Begin(bs, k + 1) == Begin(bs, k) + |bs[k].frames|
    ensures BatchFrames(bs[..k + 1]) == BatchFrames(bs[..k]) + bs[k].frames
  {
    assert bs[..k + 1] == bs[..k] + [bs[k]];
    BatchFramesSnoc(bs[..k], bs[k]);
  }

  lemma {:induction false} BeginGrows(bs: seq<Batch>, j: nat, k: nat)
    requires j <= k <= |bs|
    ensures Begin(bs, j) <= Begin(bs, k)
  {
    if j < k {
      BeginGrows(bs, j, k - 1);
      BeginNext(bs, k - 1);
    }
  }

  /** Log position `p` lies in batch `k`. */
  predicate InBatch(bs: seq<Batch>, p: nat, k: nat) {
    k < |bs| && Begin(bs, k) <= p < Begin(bs, k + 1)
  }

  lemma OneBatch(bs: seq<Batch>, p: nat, j: nat, k: nat)
    requires InBatch(bs, p, j) && InBatch(bs, p, k)
    ensures j == k
  {
    if j < k {
      BeginGrows(bs, j + 1, k);
    } else if k < j {
      BeginGrows(bs, k + 1, j);
    }
  }

  lemma {:induction false} SomeBatch(bs: seq<Batch>, n: nat, p: nat) returns (k: nat)
    requires n <= |bs| && p < Begin(bs, n)
    ensures k < n && InBatch(bs, p, k)
    decreases n
  {
    if p >= Begin(bs, n - 1) {
      k := n - 1;
    } else {
      k := SomeBatch(bs, n - 1, p);
    }
  }

  /** The frame at log position `p` is in a record that was written. */
  ghost predicate OnWire(s: State, p: nat) {
    exists k :: 0 <= k < |s.outcomes| && s.outcomes[k] && InBatch(s.batches, p, k)
  }

  /** Nothing is left in the buffer or on its way to the writer. */
  predicate Emptied(s: State) {
    s.current == [] && |s.outcomes| == |s.batches|
  }

  lemma LogIsBatches(s: State)
    requires LogInv(s) && s.current == []
    ensures Begin(s.batches, |s.batches|) == |s.appended|
  {
    assert s.batches[..|s.batches|] == s.batches;
    assert BatchFrames(s.batches) + [] == BatchFrames(s.batches);
  }

  /** All frames of a drained shaper are on the wire if and only if all its records were written. */
  lemma CarriedExactlyWhenWritten(s: State)
    requires LogInv(s) && Emptied(s)
    ensures (forall p :: 0 <= p < |s.appended| ==> OnWire(s, p)) <==> AllWritten(s)
  {
    LogIsBatches(s);
    if AllWritten(s) {
      forall p | 0 <= p < |s.appended|
        ensures OnWire(s, p)
      {
        var k := SomeBatch(s.batches, |s.batches|, p);
        assert s.outcomes[k];
      }
    }
    if forall p :: 0 <= p < |s.appended| ==> OnWire(s, p) {
      forall k | 0 <= k < |s.outcomes|
        ensures s.outcomes[k]
      {
        FirstIsNotLost(s, k);
      }
    }
  }

  lemma FirstIsNotLost(s: State, k: nat)
    requires LogInv(s) && Emptied(s) && k < |s.outcomes| && forall p :: 0 <= p < |s.appended| ==> OnWire(s, p)
    ensures s.outcomes[k]
  {
    var p := Begin(s.batches, k);
    assert GoodBatch(s.batches[k]);
    BeginNext(s.batches, k);
    BeginGrows(s.batches, k + 1, |s.batches|);
    LogIsBatches(s);
    assert OnWire(s, p);
    var j :| 0 <= j < |s.outcomes| && s.outcomes[j] && InBatch(s.batches, p, j);
    OneBatch(s.batches, p, j, k);
  }

  lemma CloseDrains(states: seq<State>, labels: seq<Label>, i: nat, t: Tid)
    requires Run(states, labels) && i < |states| && CloseReturned(states[i], t)
    ensures LogInv(states[i]) && Emptied(states[i]) && states[i].core.writeNext == states[i].core.writeSeq
  {
    RunInv(states, labels, i);
    CloseLosesNothing(states, labels, i, t);
    EncodeEmpty(states[i].current);
  }

  /** The exact condition for completeness: with healthy I/O, when a Close has returned every frame ever appended is on
      the wire if and only if every push that resumed after its pre-flush still found room for its frame. */
  lemma NoLossExactlyWhenGuarded(states: seq<State>, labels: seq<Label>, i: nat, t: Tid)
    requires Run(states, labels) && i < |states| && Healthy(labels) && CloseReturned(states[i], t)
    ensures (forall p :: 0 <= p < |states[i].appended| ==> OnWire(states[i], p)) <==> GuardedUntil(states, labels, i)
  {
    CloseDrains(states, labels, i, t);
    CarriedExactlyWhenWritten(states[i]);
    WrittenExactlyWhenGuarded(states, labels, i);
  }

  /** Under that condition the wire at every moment is a prefix of the log, record by record. */
  lemma WireIsPrefix(states: seq<State>, labels: seq<Label>, i: nat)
    requires Run(states, labels) && i < |states| && Healthy(labels) && GuardedUntil(states, labels, i)
    ensures var s := states[i];
            && |s.core.wire| == s.core.writeNext <= |s.batches|
            && BatchFrames(s.batches[..s.core.writeNext]) <= FramesOf(s.appended)
            && forall k :: 0 <= k < s.core.writeNext ==>
                 && DecodeFrames(s.core.wire[k]) == Some(s.batches[k].frames + s.batches[k].pad)
                 && |s.batches[k].pad| <= 1 && (s.batches[k].pad != [] ==> s.batches[k].pad[0].ftype == PADDING)
  {
    GuardedIsWritten(states, labels, i);
    WireIsAppendOrder(states, labels, i);
  }

  /** Under that condition every push that returned nil is on the wire when Close returns. */
  lemma AcceptedIsOnWire(states: seq<State>, labels: seq<Label>, i: nat, t: Tid, u: Tid)
    requires Run(states, labels) && i < |states| && Healthy(labels) && CloseReturned(states[i], t)
    requires GuardedUntil(states, labels, i) && PushSucceeded(states[i], u)
    ensures var s := states[i];
            u in s.position && s.position[u] < |s.appended| && s.appended[s.position[u]].caller == u &&
                OnWire(s, s.position[u])
  {
    NoLossExactlyWhenGuarded(states, labels, i, t);
    CloseLosesNothing(states, labels, i, t);
  }

  // ---------------------------------------------------------------- order, whatever fails

  /** The numbers of the written records, in order. */
  function Places(oks: seq<bool>): seq<nat> {
    if oks == [] then []
    else
      var n := |oks| - 1;
      Places(oks[..n]) + if oks[n] then [n] else []
  }

  /** Exactly the written numbers, each once, in increasing order. */
  ghost predicate Lists(at: seq<nat>, oks: seq<bool>) {
    && (forall j :: 0 <= j < |at| ==> at[j] < |oks| && oks[at[j]])
    && (forall i, j :: 0 <= i < j < |at| ==> at[i] < at[j])
    && (forall k :: 0 <= k < |oks| && oks[k] ==> k in at)
  }

  lemma ListsNext(at: seq<nat>, oks: seq<bool>)
    requires oks != [] && Lists(at, oks[..|oks| - 1])
    ensures Lists(at + if oks[|oks| - 1] then [|oks| - 1] else [], oks)
  {
    var n := |oks| - 1;
    var next := at + if oks[n] then [n] else [];
    forall k | 0 <= k < |oks| && oks[k]
      ensures k in next
    {
      if k < n {
        assert oks[..n][k] && k in at;
      } else {
        assert next[|at|] == n;
      }
    }
  }

  lemma {:induction false} PlacesLists(oks: seq<bool>)
    ensures Lists(Places(oks), oks)
    decreases |oks|
  {
    if oks != [] {
      PlacesLists(oks[..|oks| - 1]);
      ListsNext(Places(oks[..|oks| - 1]), oks);
    }
  }

  /** The records on the wire are those of the batches at these numbers. */
  predicate Carries(wire: seq<Bytes>, bs: seq<Batch>, at: seq<nat>) {
    |wire| == |at| && forall j :: 0 <= j < |at| ==> at[j] < |bs| && wire[j] == BatchBytes(bs[at[j]])
  }

  lemma {:induction false} WireCarriesPlaces(bs: seq<Batch>, oks: seq<bool>)
    requires |oks| <= |bs|
    ensures Carries(WireOf(bs, oks), bs, Places(oks))
    decreases |oks|
  {
    if oks != [] {
      WireCarriesPlaces(bs, oks[..|oks| - 1]);
    }
  }

  /** Order needs no condition, neither on I/O nor on what overlaps: the records whose WriteRecord returned nil, which
      is what `wire` lists, are batches in append order, each decoding to its frames and at most one PADDING frame; only
      whole batches can be missing. After an I/O failure the byte stream also holds the part of a record that the
      underlying writer took, as RecordWriter.WriteRecord says; with healthy I/O it is just these records. */
  lemma WireKeepsOrder(states: seq<State>, labels: seq<Label>, i: nat)
    requires Run(states, labels) && i < |states|
    ensures var s := states[i];
            && |s.outcomes| == s.core.writeNext <= |s.batches| && BatchFrames(s.batches) <= FramesOf(s.appended)
            && Lists(Places(s.outcomes), s.outcomes) && Carries(s.core.wire, s.batches, Places(s.outcomes))
            && forall k :: 0 <= k < |s.batches| ==>
                 && DecodeFrames(BatchBytes(s.batches[k])) == Some(s.batches[k].frames + s.batches[k].pad)
                 && |s.batches[k].pad| <= 1 && (s.batches[k].pad != [] ==> s.batches[k].pad[0].ftype == PADDING)
  {
    var s := states[i];
    RunInv(states, labels, i);
    PlacesLists(s.outcomes);
    WireCarriesPlaces(s.batches, s.outcomes);
    forall k | 0 <= k < |s.batches|
      ensures DecodeFrames(BatchBytes(s.batches[k])) == Some(s.batches[k].frames + s.batches[k].pad)
    {
      assert GoodBatch(s.batches[k]);
      DecodeOfEncode(s.batches[k].frames + s.batches[k].pad);
    }
  }

  /** What OnWire means: some record on the wire decodes to frames among which is the one appended at `p`. */
  lemma OnWireIsInARecord(states: seq<State>, labels: seq<Label>, i: nat, p: nat) returns (j: nat)
    requires Run(states, labels) && i < |states| && p < |states[i].appended| && OnWire(states[i], p)
    ensures var s := states[i];
            && j < |s.core.wire| && DecodeFrames(s.core.wire[j]).Some?
            && s.appended[p].f in DecodeFrames(s.core.wire[j]).value
  {
    RunInv(states, labels, i);
    WireKeepsOrder(states, labels, i);
    j := RecordOf(states[i], p);
  }

  lemma RecordOf(s: State, p: nat) returns (j: nat)
    requires LogInv(s) && p < |s.appended| && OnWire(s, p)
    requires Lists(Places(s.outcomes), s.outcomes) && Carries(s.core.wire, s.batches, Places(s.outcomes))
    ensures j < |s.core.wire| && DecodeFrames(s.core.wire[j]).Some?
    ensures s.appended[p].f in DecodeFrames(s.core.wire[j]).value
  {
    var at := Places(s.outcomes);
    var k :| 0 <= k < |s.outcomes| && s.outcomes[k] && InBatch(s.batches, p, k);
    j :| 0 <= j < |at| && at[j] == k;
    FrameOfBatch(s, p, k);
    assert GoodBatch(s.batches[k]);
    DecodeOfEncode(s.batches[k].frames + s.batches[k].pad);
  }

  lemma FrameOfBatch(s: State, p: nat, k: nat)
    requires LogInv(s) && InBatch(s.batches, p, k) && p < |s.appended|
    ensures s.appended[p].f in s.batches[k].frames
  {
    BeginNext(s.batches, k);
    BatchFramesPrefix(s.batches, k + 1);
    var all := FramesOf(s.appended);
    assert all[p] == s.appended[p].f;
    assert BatchFrames(s.batches[..k + 1]) <= all;
    assert all[p] == s.batches[k].frames[p - Begin(s.batches, k)];
  }

  /** If nothing failed, the written numbers are all numbers. */
  lemma {:induction false} PlacesOfAll(oks: seq<bool>)
    requires forall k :: 0 <= k < |oks| ==> oks[k]
    ensures |Places(oks)| == |oks| && forall k :: 0 <= k < |oks| ==> Places(oks)[k] == k
    decreases |oks|
  {
    if oks != [] {
      PlacesOfAll(oks[..|oks| - 1]);
    }
  }
}
