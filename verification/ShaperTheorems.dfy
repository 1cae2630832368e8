/** What every run of the batch shaper guarantees (shaper/batch.go). */
module ShaperTheorems {
  import opened Options
  import opened Protocol
  import opened Shaper
  import opened ShaperRuns

  /** A finite execution from the initial state. */
  ghost predicate Run(states: seq<State>, labels: seq<Label>) {
    && |states| == |labels| + 1 && states[0] == INITIAL
    && forall i :: 0 <= i < |labels| ==> Enabled(states[i], labels[i]) && states[i + 1] == Step(states[i], labels[i])
  }

  lemma {:induction false} RunInv(states: seq<State>, labels: seq<Label>, i: nat)
    requires Run(states, labels) && i < |states|
    ensures Inv(states[i])
  {
    if i == 0 {
      assert FramesOf(INITIAL.appended) == [];
    } else {
      RunInv(states, labels, i - 1);
      StepKeepsInv(states[i - 1], labels[i - 1]);
    }
  }

  /** No WriteRecord of this run has failed so far. */
  predicate AllWritten(s: State) {
    forall k :: 0 <= k < |s.outcomes| ==> s.outcomes[k]
  }

  // ---------------------------------------------------------------- order

  lemma {:induction false} WireOfAll(bs: seq<Batch>, oks: seq<bool>)
    requires |oks| <= |bs| && forall k :: 0 <= k < |oks| ==> oks[k]
    ensures |WireOf(bs, oks)| == |oks|
    ensures forall k :: 0 <= k < |oks| ==> WireOf(bs, oks)[k] == BatchBytes(bs[k])
    decreases |oks|
  {
    if oks != [] {
      WireOfAll(bs, oks[..|oks| - 1]);
    }
  }

  lemma {:induction false} BatchFramesPrefix(bs: seq<Batch>, n: nat)
    requires n <= |bs|
    ensures BatchFrames(bs[..n]) <= BatchFrames(bs)
    decreases |bs|
  {
    if n == |bs| {
      assert bs[..n] == bs;
    } else {
      BatchFramesPrefix(bs[..|bs| - 1], n);
      assert bs[..|bs| - 1][..n] == bs[..n];
    }
  }

  /** At every point of every run the records written so far decode, each up to one trailing PADDING frame, to a
      prefix of the frames in the order they were appended. */
  lemma WireIsAppendOrder(states: seq<State>, labels: seq<Label>, i: nat)
    requires Run(states, labels) && i < |states| && AllWritten(states[i])
    ensures var s := states[i];
            && |s.core.wire| == s.core.writeNext <= |s.batches|
            && BatchFrames(s.batches[..s.core.writeNext]) <= FramesOf(s.appended)
    ensures var s := states[i];
            forall k :: 0 <= k < s.core.writeNext ==>
              && DecodeFrames(s.core.wire[k]) == Some(s.batches[k].frames + s.batches[k].pad)
              && |s.batches[k].pad| <= 1 && (s.batches[k].pad != [] ==> s.batches[k].pad[0].ftype == PADDING)
  {
    var s := states[i];
    RunInv(states, labels, i);
    WireOfAll(s.batches, s.outcomes);
    BatchFramesPrefix(s.batches, s.core.writeNext);
    forall k | 0 <= k < s.core.writeNext
      ensures DecodeFrames(s.core.wire[k]) == Some(s.batches[k].frames + s.batches[k].pad)
    {
      assert GoodBatch(s.batches[k]);
      DecodeOfEncode(s.batches[k].frames + s.batches[k].pad);
    }
  }

  // ---------------------------------------------------------------- Close

  /** PushData or PushFrame called by `u` has returned nil. */
  predicate PushSucceeded(s: State, u: Tid) {
    u in s.threads && u in s.calls && s.calls[u].PushCall? && !s.calls[u].cover && s.threads[u] == Done(Accepted)
  }

  predicate CloseReturned(s: State, t: Tid) {
    t in s.threads && t in s.calls && s.calls[t].CloseCall? && s.threads[t].Done?
  }

  /** When any Close has returned, the buffer is empty, every number is dealt with, every frame ever appended is in a
      record handed to the writer, and each push that reported success is in that log under its own name. */
  lemma CloseLosesNothing(states: seq<State>, labels: seq<Label>, i: nat, t: Tid)
    requires Run(states, labels) && i < |states|
    requires CloseReturned(states[i], t)
    ensures var s := states[i];
            && s.core.plaintext == [] && s.core.writeNext == s.core.writeSeq == |s.batches|
            && BatchFrames(s.batches) == FramesOf(s.appended)
            && (AllWritten(s) ==> |s.core.wire| == |s.batches|)
            && forall u :: PushSucceeded(s, u) ==>
                 u in s.position && s.position[u] < |s.appended| && s.appended[s.position[u]] == Entry(s.calls[u].f, u)
  {
    var s := states[i];
    RunInv(states, labels, i);
    assert ThreadOk(s.core, s.calls[t], s.threads[t], t in s.position);
    EncodeEmpty(s.current);
    assert BatchFrames(s.batches) + s.current == BatchFrames(s.batches);
    if AllWritten(s) {
      WireOfAll(s.batches, s.outcomes);
    }
    forall u | PushSucceeded(s, u)
      ensures u in s.position && s.position[u] < |s.appended| && s.appended[s.position[u]] == Entry(s.calls[u].f, u)
    {
      assert ThreadOk(s.core, s.calls[u], s.threads[u], u in s.position);
    }
  }

  /** The branch of writeRecordInOrder that drops a record is dead code, even with a failing writer, and nothing
      reaches the writer once writeClosed is set. */
  lemma NothingIsDropped(states: seq<State>, labels: seq<Label>, i: nat, t: Tid)
    requires Run(states, labels) && i < |states| && t in states[i].threads
    ensures states[i].threads[t].Relock? ==> states[i].threads[t].o != Dropped
    ensures states[i].threads[t].Writing? ==> !states[i].core.writeClosed
    ensures states[i].core.writeClosed ==> !InFlight(states[i].threads[t])
  {
    var s := states[i];
    RunInv(states, labels, i);
    assert ThreadOk(s.core, s.calls[t], s.threads[t], t in s.position);
    if s.threads[t].Writing? {
      HolderOwnsNext(s, t);
    }
  }

  // ---------------------------------------------------------------- numbers and progress

  /** Numbers not yet passed and threads holding a record correspond one to one. */
  lemma NumbersMatchThreads(states: seq<State>, labels: seq<Label>, i: nat)
    requires Run(states, labels) && i < |states|
    ensures var s := states[i];
            && s.core.writeNext <= s.core.writeSeq == |s.owners|
            && (forall k :: s.core.writeNext <= k < s.core.writeSeq ==>
                  s.owners[k] in s.threads && InFlight(s.threads[s.owners[k]]) && s.threads[s.owners[k]].seqNo == k)
            && (forall t :: t in s.threads && InFlight(s.threads[t]) ==>
                  s.core.writeNext <= s.threads[t].seqNo < s.core.writeSeq && s.owners[s.threads[t].seqNo] == t)
  {
    RunInv(states, labels, i);
  }

  /** While numbers are outstanding, the thread whose turn it is can always move. */
  lemma TurnCanProceed(states: seq<State>, labels: seq<Label>, i: nat, ok: bool) returns (l: Label)
    requires Run(states, labels) && i < |states| && states[i].core.writeNext < states[i].core.writeSeq
    ensures Enabled(states[i], l) && states[i].core.writeNext < |states[i].owners|
    ensures l.t == states[i].owners[states[i].core.writeNext]
    ensures l.TakeTurn? || l == FinishWrite(l.t, ok)
  {
    var s := states[i];
    RunInv(states, labels, i);
    var t := s.owners[s.core.writeNext];
    if s.writeMu == None {
      l := TakeTurn(t);
    } else {
      HolderOwnsNext(s, s.writeMu.value);
      l := FinishWrite(t, ok);
    }
  }

  /** Work left before Close's wait is over. */
  function Backlog(s: State): nat
    requires s.core.writeNext <= s.core.writeSeq
  {
    var n := 2 * (s.core.writeSeq - s.core.writeNext);
    if s.writeMu.Some? && n > 0 then n - 1 else n
  }

  /** Once a Close is in its wait loop no step adds work, every writer step removes some, and the loop can be left
      exactly when none is left: the wait cannot be stuck while writers finish. */
  lemma CloseWaitEnds(states: seq<State>, labels: seq<Label>, i: nat, t: Tid, l: Label)
    requires Run(states, labels) && i < |states|
    requires t in states[i].threads && states[i].threads[t].CloseWait? && Enabled(states[i], l)
    ensures var s, s' := states[i], Step(states[i], l);
            && s.core.writeNext <= s.core.writeSeq && s'.core.writeNext <= s'.core.writeSeq
            && Backlog(s') <= Backlog(s) && (l.TakeTurn? || l.FinishWrite? ==> Backlog(s') < Backlog(s))
            && (Enabled(s, Drained(t)) <==> Backlog(s) == 0)
  {
    var s := states[i];
    RunInv(states, labels, i);
    assert ThreadOk(s.core, s.calls[t], s.threads[t], t in s.position);
    BacklogStep(s, l);
    if s.writeMu.Some? {
      HolderOwnsNext(s, s.writeMu.value);
    }
  }

  lemma BacklogStep(s: State, l: Label)
    requires Inv(s) && Enabled(s, l) && s.core.closing && s.core.plaintext == []
    ensures var s' := Step(s, l);
            && s'.core.writeNext <= s'.core.writeSeq == s.core.writeSeq
            && Backlog(s') <= Backlog(s) && (l.TakeTurn? || l.FinishWrite? ==> Backlog(s') < Backlog(s))
  {
    StepFacts(s, l);
    NumberMoves(s, l);
    if s.writeMu.Some? {
      HolderOwnsNext(s, s.writeMu.value);
    }
    if l.FinishWrite? {
      HolderOwnsNext(s, l.t);
    }
  }

  /** Only a finishing writer advances writeNext, and only the two writer steps touch writeMu. */
  lemma NumberMoves(s: State, l: Label)
    requires Enabled(s, l)
    ensures Step(s, l).core.writeNext == if l.FinishWrite? then s.core.writeNext + 1 else s.core.writeNext
    ensures Step(s, l).writeMu == if l.FinishWrite? then None else if l.TakeTurn? then Some(l.t) else s.writeMu
  {
  }

  // ---------------------------------------------------------------- program order

  lemma {:induction false} LogGrows(states: seq<State>, labels: seq<Label>, i: nat, j: nat)
    requires Run(states, labels) && i <= j < |states|
    ensures states[i].appended <= states[j].appended
    ensures forall t :: t in states[i].position ==>
              t in states[j].position && states[j].position[t] == states[i].position[t]
    ensures forall t :: t in states[j].position && t !in states[i].position ==>
              states[j].position[t] >= |states[i].appended|
    decreases j - i
  {
    if i < j {
      LogGrows(states, labels, i, j - 1);
      RunInv(states, labels, j - 1);
      LogStep(states[j - 1], labels[j - 1]);
    }
  }

  lemma LogStep(s: State, l: Label)
    requires Inv(s) && Enabled(s, l)
    ensures var s' := Step(s, l);
            && s.appended <= s'.appended
            && (forall t :: t in s.position ==> t in s'.position && s'.position[t] == s.position[t])
            && (forall t :: t in s'.position && t !in s.position ==> s'.position[t] == |s.appended|)
  {
    StepFacts(s, l);
  }

  /** Calls of one goroutine stay in order: a push that starts after another has reported success is behind it. */
  lemma ProgramOrder(states: seq<State>, labels: seq<Label>, i: nat, j: nat, u: Tid, v: Tid)
    requires Run(states, labels) && i <= j < |states|
    requires PushSucceeded(states[i], u)
    requires v !in states[i].threads && v in states[j].position
    ensures u in states[j].position && states[j].position[u] < states[j].position[v] < |states[j].appended|
  {
    RunInv(states, labels, i);
    RunInv(states, labels, j);
    assert ThreadOk(states[i].core, states[i].calls[u], states[i].threads[u], u in states[i].position);
    LogGrows(states, labels, i, j);
  }
}
