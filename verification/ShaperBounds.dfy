/** The record-size bound of the batch shaper (shaper/batch.go lines 98-139). appendFrameLocked tests the size before
    it releases `mu` to pre-flush and does not test again, so the bound depends on what is appended in that window. */
module ShaperBounds {
  import opened Protocol
  import opened Shaper
  import opened ShaperRuns
  import opened ShaperTheorems

  /** Neither the buffer nor any record swapped out of it is longer than RecordWriter accepts. */
  ghost predicate Bounded(s: State) {
    && |s.core.plaintext| <= CEILING
    && forall k :: 0 <= k < |s.batches| ==> |BatchBytes(s.batches[k])| <= CEILING
  }

  /** The test that the code leaves out: a pre-flushing push that comes back still has room for its frame. */
  ghost predicate ResumeGuard(s: State, l: Label)
    requires Enabled(s, l)
  {
    l.LockAgain? && s.threads[l.t].k.Resume? && s.threads[l.t].o == Written && !s.core.closing ==>
      |s.core.plaintext| + Size(s.threads[l.t].k.f) <= CEILING
  }

  lemma SwapBound(s: State, t: Tid, k: Kont, done: Pc, choice: Choice)
    requires LogInv(s) && forall k :: 0 <= k < |s.batches| ==> |BatchBytes(s.batches[k])| <= CEILING
    ensures Bounded(SwapOut(s, t, k, done, choice)) <==> |s.core.plaintext| <= CEILING
  {
    var s' := SwapOut(s, t, k, done, choice);
    if s.core.plaintext != [] {
      SwapLog(s, t, k, done, choice);
      PadFits(|s.core.plaintext|, CEILING, choice);
      var b := s'.batches[s.core.writeSeq];
      assert s'.threads[t].data == Swapped(s.core.plaintext, choice);
      assert |s.core.plaintext| <= |BatchBytes(b)|;
    }
  }

  lemma AppendBound(s: State, t: Tid, f: Frame, choice: Choice)
    requires WritingInv(s) && WellFormed(f) && Bounded(s)
    ensures Bounded(AppendAndSwap(s, t, f, choice)) <==> |s.core.plaintext| + Size(f) <= CEILING
  {
    var s' := Appended(s, t, f);
    AppendLog(s, t, f);
    assert |s'.core.plaintext| == |s.core.plaintext| + Size(f);
    if |s'.core.plaintext| >= FLUSH_THRESHOLD {
      SwapBound(s', t, AfterAppend, Done(Accepted), choice);
    }
  }

  /** One step keeps the bound exactly when it is not a resumption without room. */
  lemma BoundStep(s: State, l: Label)
    requires Inv(s) && Enabled(s, l) && Bounded(s)
    ensures Bounded(Step(s, l)) <==> ResumeGuard(s, l)
  {
    if l.Push? {
      PushBound(s, l);
    } else if l.EnterFlush? {
      SwapBound(s, l.t, AfterFlush, Done(Accepted), l.choice);
      SwapBound(s, l.t, AfterCloseFlush, CloseSnapshot(Accepted), l.choice);
    } else if l.LockAgain? {
      LockAgainBound(s, l.t, l.choice);
    } else {
      BufferIsStill(s, l);
    }
  }

  /** The remaining steps neither swap nor append. */
  lemma BufferIsStill(s: State, l: Label)
    requires Inv(s) && Enabled(s, l) && !l.Push? && !l.EnterFlush? && !l.LockAgain?
    ensures var s' := Step(s, l);
            s'.core.plaintext == s.core.plaintext && s'.batches == s.batches && s'.appended == s.appended
  {
    if l.Free? {
      assert ThreadOk(s.core, s.calls[l.t], s.threads[l.t], l.t in s.position);
    }
  }

  lemma PushBound(s: State, l: Label)
    requires Inv(s) && l.Push? && Enabled(s, l) && Bounded(s)
    ensures Bounded(Step(s, l))
  {
    var f := Frame(l.ftype, |l.payload|, l.payload);
    var s' := Started(s, l.t, PushCall(f, l.cover));
    assert WritingInv(s') && Bounded(s');
    match PlanPush(s.core, f, l.cover) {
      case Reject(_) =>
      case Preflush => SwapBound(s', l.t, Resume(f), Done(Accepted), l.choice);
      case Append => AppendBound(s', l.t, f, l.choice);
    }
  }

  lemma LockAgainBound(s: State, t: Tid, choice: Choice)
    requires Inv(s) && Enabled(s, LockAgain(t, choice)) && Bounded(s)
    ensures Bounded(Step(s, LockAgain(t, choice))) <==> ResumeGuard(s, LockAgain(t, choice))
  {
    var pc := s.threads[t];
    assert ThreadOk(s.core, s.calls[t], pc, t in s.position);
    if pc.k.Resume? && pc.o == Written && !s.core.closing {
      AppendBound(s.(core := Relocked(s.core, pc.o)), t, pc.k.f, choice);
    }
  }

  /** Over whole runs: every state is within the bound if and only if every resumption found room. */
  lemma BoundedExactlyWhenGuarded(states: seq<State>, labels: seq<Label>)
    requires Run(states, labels)
    ensures (forall i :: 0 <= i < |states| ==> Bounded(states[i]))
            <==> (forall i :: 0 <= i < |labels| ==> ResumeGuard(states[i], labels[i]))
  {
    if forall i :: 0 <= i < |labels| ==> ResumeGuard(states[i], labels[i]) {
      forall i | 0 <= i < |states|
        ensures Bounded(states[i])
      {
        GuardedIsBounded(states, labels, i);
      }
    }
    if forall i :: 0 <= i < |states| ==> Bounded(states[i]) {
      forall i | 0 <= i < |labels|
        ensures ResumeGuard(states[i], labels[i])
      {
        RunInv(states, labels, i);
        BoundStep(states[i], labels[i]);
        assert Bounded(states[i + 1]);
      }
    }
  }

  lemma {:induction false} GuardedIsBounded(states: seq<State>, labels: seq<Label>, i: nat)
    requires Run(states, labels) && i < |states|
    requires forall j :: 0 <= j < i ==> ResumeGuard(states[j], labels[j])
    ensures Bounded(states[i])
    decreases i
  {
    if i > 0 {
      GuardedIsBounded(states, labels, i - 1);
      RunInv(states, labels, i - 1);
      assert ResumeGuard(states[i - 1], labels[i - 1]);
      BoundStep(states[i - 1], labels[i - 1]);
    }
  }

  // ---------------------------------------------------------------- a condition on the callers

  /** The thread has pre-flushed and its frame is still outside the buffer. */
  predicate InWindow(pc: Pc) {
    (InFlight(pc) || pc.Relock?) && pc.k.Resume?
  }

  /** No frame is appended while another call is in its pre-flush window; calls that do not overlap are a special
      case. */
  ghost predicate Undisturbed(s: State, l: Label)
    requires Enabled(s, l)
  {
    Step(s, l).appended != s.appended ==> forall u :: u in s.threads && u != l.t ==> !InWindow(s.threads[u])
  }

  ghost predicate WindowsEmpty(s: State) {
    forall u :: u in s.threads && InWindow(s.threads[u]) ==> s.core.plaintext == []
  }

  lemma WindowStep(s: State, l: Label)
    requires Inv(s) && Enabled(s, l) && WindowsEmpty(s) && Undisturbed(s, l)
    ensures WindowsEmpty(Step(s, l)) && ResumeGuard(s, l)
  {
    var s' := Step(s, l);
    StepFacts(s, l);
    if l.t in s.threads {
      assert ThreadOk(s.core, s.calls[l.t], s.threads[l.t], l.t in s.position);
    }
    EnteringWindow(s, l);
  }

  /** A buffer only grows by an append, and a thread enters its window by emptying the buffer. */
  predicate Enters(s: State, s': State, t: Tid) {
    && (s'.appended == s.appended ==> s'.core.plaintext == s.core.plaintext || s'.core.plaintext == [])
    && (t in s'.threads && InWindow(s'.threads[t]) ==>
          s'.appended == s.appended && (s'.core.plaintext == [] || (t in s.threads && InWindow(s.threads[t]))))
  }

  lemma EnteringWindow(s: State, l: Label)
    requires Inv(s) && Enabled(s, l)
    ensures Enters(s, Step(s, l), l.t)
  {
    if l.Push? {
      PushWindow(s, l);
    } else if l.EnterFlush? {
      SwapEffect(s, l.t, AfterFlush, Done(Accepted), l.choice);
      SwapEffect(s, l.t, AfterCloseFlush, CloseSnapshot(Accepted), l.choice);
    } else if l.LockAgain? {
      LockAgainWindow(s, l.t, l.choice);
    } else {
      BufferIsStill(s, l);
    }
  }

  lemma PushWindow(s: State, l: Label)
    requires l.Push? && Enabled(s, l)
    ensures Enters(s, Step(s, l), l.t)
  {
    var f := Frame(l.ftype, |l.payload|, l.payload);
    var s' := Started(s, l.t, PushCall(f, l.cover));
    SwapEffect(s', l.t, Resume(f), Done(Accepted), l.choice);
    AppendEffect(s', l.t, f, l.choice);
  }

  lemma LockAgainWindow(s: State, t: Tid, choice: Choice)
    requires Enabled(s, LockAgain(t, choice))
    ensures Enters(s, Step(s, LockAgain(t, choice)), t)
  {
    var pc := s.threads[t];
    if pc.k.Resume? {
      AppendEffect(s.(core := Relocked(s.core, pc.o)), t, pc.k.f, choice);
    }
  }

  /** If no call appends inside another's window, no record is ever too long. */
  lemma {:induction false} UndisturbedIsBounded(states: seq<State>, labels: seq<Label>, i: nat)
    requires Run(states, labels) && i < |states|
    requires forall j :: 0 <= j < i ==> Undisturbed(states[j], labels[j])
    ensures Bounded(states[i]) && WindowsEmpty(states[i])
    ensures forall j :: 0 <= j < i ==> ResumeGuard(states[j], labels[j])
    decreases i
  {
    if i > 0 {
      UndisturbedIsBounded(states, labels, i - 1);
      RunInv(states, labels, i - 1);
      assert Undisturbed(states[i - 1], labels[i - 1]);
      WindowStep(states[i - 1], labels[i - 1]);
      BoundStep(states[i - 1], labels[i - 1]);
    }
  }
}
