/** What a finished Flush, timer tick or Close has done and reports, over every run of the batch shaper
    (shaper/batch.go). */
module ShaperFlush {
  import opened Options
  import opened Protocol
  import opened Shaper
  import opened ShaperRuns
  import opened ShaperTheorems

  /** What every step leaves standing: numbers, batches and outcomes are only added, by the thread that acts. */
  ghost predicate Grows(s: State, s': State, t: Tid) {
    && s.appended <= s'.appended && s.batches <= s'.batches && s.owners <= s'.owners && s.outcomes <= s'.outcomes
    && s.threads.Keys <= s'.threads.Keys && t in s'.threads && s'.threads == s.threads[t := s'.threads[t]]
    && forall k :: |s.owners| <= k < |s'.owners| ==> s'.owners[k] == t
  }

  lemma SwapGrows(s: State, t: Tid, k: Kont, done: Pc, choice: Choice)
    ensures Grows(s, SwapOut(s, t, k, done, choice), t)
  {
    var s' := SwapOut(s, t, k, done, choice);
    if s.core.plaintext == [] {
      assert s' == Goto(s, t, done);
    } else {
      assert s'.owners == s.owners + [t] && s.batches == s'.batches[..|s.batches|];
    }
  }

  lemma AppendGrows(s: State, t: Tid, f: Frame, choice: Choice)
    ensures Grows(s, AppendAndSwap(s, t, f, choice), t)
  {
    SwapGrows(Appended(s, t, f), t, AfterAppend, Done(Accepted), choice);
  }

  lemma PushGrows(s: State, l: Label)
    requires Enabled(s, l) && l.Push?
    ensures Grows(s, Step(s, l), l.t)
  {
    var f := Frame(l.ftype, |l.payload|, l.payload);
    var s' := Started(s, l.t, PushCall(f, l.cover));
    SwapGrows(s', l.t, Resume(f), Done(Accepted), l.choice);
    AppendGrows(s', l.t, f, l.choice);
  }

  lemma LockAgainGrows(s: State, l: Label)
    requires Enabled(s, l) && l.LockAgain?
    ensures Grows(s, Step(s, l), l.t)
  {
    var pc := s.threads[l.t];
    if pc.k.Resume? {
      AppendGrows(s.(core := Relocked(s.core, pc.o)), l.t, pc.k.f, l.choice);
    }
  }

  lemma EnterFlushGrows(s: State, l: Label)
    requires Enabled(s, l) && l.EnterFlush?
    ensures Grows(s, Step(s, l), l.t)
  {
    SwapGrows(s, l.t, AfterFlush, Done(Accepted), l.choice);
    SwapGrows(s, l.t, AfterCloseFlush, CloseSnapshot(Accepted), l.choice);
  }

  lemma PlainGrows(s: State, l: Label)
    requires Enabled(s, l) && !l.Push? && !l.LockAgain? && !l.EnterFlush?
    ensures Grows(s, Step(s, l), l.t) && Step(s, l).owners == s.owners
  {
  }

  lemma StepGrows(s: State, l: Label)
    requires Enabled(s, l)
    ensures Grows(s, Step(s, l), l.t)
  {
    match l {
      case Push(_, _, _, _, _) => PushGrows(s, l);
      case LockAgain(_, _) => LockAgainGrows(s, l);
      case EnterFlush(_, _) => EnterFlushGrows(s, l);
      case _ => PlainGrows(s, l);
    }
  }

  /** Every record has a thread that has been called. */
  ghost predicate Known(s: State) {
    forall k :: 0 <= k < |s.owners| ==> s.owners[k] in s.threads
  }

  lemma {:induction false} RunKnown(states: seq<State>, labels: seq<Label>, i: nat)
    requires Run(states, labels) && i < |states|
    ensures Known(states[i])
  {
    if i > 0 {
      RunKnown(states, labels, i - 1);
      StepGrows(states[i - 1], labels[i - 1]);
    }
  }

  /** The only number that `t` owns is `m`. */
  ghost predicate Only(s: State, t: Tid, m: nat) {
    m < |s.owners| && s.owners[m] == t && forall k :: 0 <= k < |s.owners| && s.owners[k] == t ==> k == m
  }

  /** The record that `t` owns, if any, is dealt with, and `ok` says whether it was written. */
  ghost predicate Reports(s: State, t: Tid, ok: bool) {
    && (forall k :: 0 <= k < |s.owners| && s.owners[k] == t ==> k < |s.outcomes| && s.outcomes[k] == ok)
    && (t !in s.owners ==> ok)
  }

  /** The first `n` appended frames are in batches, and in none behind the one that `t` owns. */
  ghost predicate Covers(s: State, t: Tid, n: nat) {
    && n <= |BatchFrames(s.batches)| && |s.owners| <= |s.batches|
    && forall k :: 0 <= k < |s.owners| && s.owners[k] == t ==> n <= |BatchFrames(s.batches[..k + 1])|
  }

  predicate Flushing(k: Kont) {
    k.AfterFlush? || k.AfterCloseFlush?
  }

  /** How far a thread has come that flushes what was in the log when it was called. */
  ghost predicate Reached(s: State, t: Tid, n: nat) {
    && t in s.threads && n <= |s.appended|
    && match s.threads[t]
       case FlushEntry => t !in s.owners
       case CloseFlush => t !in s.owners
       case Waiting(m, _, k) => Flushing(k) && Only(s, t, m) && Covers(s, t, n)
       case Writing(m, _, k) => Flushing(k) && Only(s, t, m) && Covers(s, t, n)
       case Relock(o, k) => Flushing(k) && Reports(s, t, o == Written) && Covers(s, t, n)
       case Done(res) => Reports(s, t, res == Accepted) && Covers(s, t, n)
       case CloseSnapshot(res) => Reports(s, t, res == Accepted) && Covers(s, t, n)
       case CloseWait(_, res) => Reports(s, t, res == Accepted) && Covers(s, t, n)
       case CloseFree(res) => Reports(s, t, res == Accepted) && Covers(s, t, n)
  }

  lemma CoversStays(s: State, s': State, t: Tid, n: nat, u: Tid)
    requires Grows(s, s', u) && Covers(s, t, n) && |s'.owners| <= |s'.batches|
    requires t != u || s'.owners == s.owners
    ensures Covers(s', t, n)
  {
    assert s'.batches[..|s.batches|] == s.batches;
    BatchFramesPrefix(s'.batches, |s.batches|);
    forall k | 0 <= k < |s'.owners| && s'.owners[k] == t
      ensures n <= |BatchFrames(s'.batches[..k + 1])|
    {
      assert k < |s.owners| && s.owners[k] == t;
      assert s'.batches[..k + 1] == s.batches[..k + 1];
    }
  }

  /** Other threads do not set back what `t` has reached. */
  lemma OthersKeep(s: State, s': State, u: Tid, t: Tid, n: nat)
    requires Grows(s, s', u) && u != t && Reached(s, t, n) && |s'.owners| <= |s'.batches|
    ensures Reached(s', t, n)
  {
    if !s.threads[t].FlushEntry? && !s.threads[t].CloseFlush? {
      CoversStays(s, s', t, n, u);
    }
  }

  /** The section that swaps the buffer out. */
  lemma SwapReaches(s: State, t: Tid, k: Kont, done: Pc, choice: Choice, n: nat)
    requires LogInv(s) && t !in s.owners && n <= |s.appended| && Flushing(k)
    requires done == Done(Accepted) || done == CloseSnapshot(Accepted)
    ensures Reached(SwapOut(s, t, k, done, choice), t, n)
  {
    var s' := SwapOut(s, t, k, done, choice);
    if s.core.plaintext == [] {
      assert s' == Goto(s, t, done);
      EmptyCovers(s, t, n);
      MovedCovers(s, s', t, n);
    } else {
      SwapLog(s, t, k, done, choice);
      FullCovers(s, s', t, n);
    }
  }

  lemma EmptyCovers(s: State, t: Tid, n: nat)
    requires LogInv(s) && t !in s.owners && n <= |s.appended| && s.core.plaintext == []
    ensures Covers(s, t, n) && Reports(s, t, true)
  {
    EncodeEmpty(s.current);
    assert |FramesOf(s.appended)| == |s.appended|;
    assert BatchFrames(s.batches) + s.current == BatchFrames(s.batches);
  }

  lemma FullCovers(s: State, s': State, t: Tid, n: nat)
    requires LogInv(s) && LogInv(s') && t !in s.owners && n <= |s.appended| == |s'.appended|
    requires s'.owners == s.owners + [t] && s'.core.plaintext == []
    ensures Covers(s', t, n) && Only(s', t, |s.owners|)
  {
    EncodeEmpty(s'.current);
    assert |FramesOf(s'.appended)| == |s'.appended|;
    assert BatchFrames(s'.batches) + s'.current == BatchFrames(s'.batches);
    assert s'.batches[..|s.owners| + 1] == s'.batches;
  }

  lemma EntryReaches(s: State, t: Tid, choice: Choice, n: nat)
    requires LogInv(s) && Enabled(s, EnterFlush(t, choice)) && t !in s.owners && n <= |s.appended|
    ensures Reached(Step(s, EnterFlush(t, choice)), t, n)
  {
    SwapReaches(s, t, AfterFlush, Done(Accepted), choice, n);
    SwapReaches(s, t, AfterCloseFlush, CloseSnapshot(Accepted), choice, n);
  }

  /** Only the thread itself has moved. */
  ghost predicate Moved(s: State, s': State, t: Tid) {
    && s'.owners == s.owners && s'.batches == s.batches && s'.appended == s.appended && s'.outcomes == s.outcomes
    && t in s'.threads
  }

  lemma MovedCovers(s: State, s': State, t: Tid, n: nat)
    requires Moved(s, s', t) && Covers(s, t, n)
    ensures Covers(s', t, n) && forall ok :: Reports(s, t, ok) ==> Reports(s', t, ok)
  {
  }

  lemma LockReaches(s: State, t: Tid, choice: Choice, n: nat)
    requires Enabled(s, LockAgain(t, choice)) && Reached(s, t, n)
    ensures Reached(Step(s, LockAgain(t, choice)), t, n)
  {
    MovedCovers(s, Step(s, LockAgain(t, choice)), t, n);
  }

  lemma WriteReaches(s: State, t: Tid, ok: bool, n: nat)
    requires Enabled(s, FinishWrite(t, ok)) && Reached(s, t, n) && s.threads[t].seqNo == |s.outcomes|
    ensures Reached(Step(s, FinishWrite(t, ok)), t, n)
  {
  }

  /** The sections that neither take a number nor touch a record. */
  lemma MoveReaches(s: State, l: Label, n: nat)
    requires l.TakeTurn? || l.Snapshot? || l.Drained? || l.Free?
    requires Enabled(s, l) && Reached(s, l.t, n)
    ensures Reached(Step(s, l), l.t, n)
  {
    MovedCovers(s, Step(s, l), l.t, n);
  }

  lemma OwnStepReaches(s: State, l: Label, n: nat)
    requires Inv(s) && Enabled(s, l) && Reached(s, l.t, n)
    ensures Reached(Step(s, l), l.t, n)
  {
    match l {
      case EnterFlush(t, choice) => EntryReaches(s, t, choice, n);
      case LockAgain(t, choice) => LockReaches(s, t, choice, n);
      case FinishWrite(t, ok) => WriteReaches(s, t, ok, n);
      case _ => MoveReaches(s, l, n);
    }
  }

  lemma StepReaches(s: State, l: Label, t: Tid, n: nat)
    requires Inv(s) && Enabled(s, l) && Reached(s, t, n)
    ensures Reached(Step(s, l), t, n)
  {
    if l.t == t {
      OwnStepReaches(s, l, n);
    } else {
      StepGrows(s, l);
      StepKeepsInv(s, l);
      OthersKeep(s, Step(s, l), l.t, t, n);
    }
  }

  /** A call that flushes what is in the log; a timer tick does nothing on a closing shaper. */
  predicate Flushes(s: State, l: Label) {
    l.Flush? || l.Close? || (l.Timer? && !s.core.closing)
  }

  lemma CallReaches(s: State, l: Label)
    requires Known(s) && Enabled(s, l) && Flushes(s, l)
    ensures Reached(Step(s, l), l.t, |s.appended|)
  {
  }

  lemma {:induction false} RunReaches(states: seq<State>, labels: seq<Label>, i: nat, j: nat)
    requires Run(states, labels) && i < j < |states| && Flushes(states[i], labels[i])
    ensures Reached(states[j], labels[i].t, |states[i].appended|)
  {
    if j == i + 1 {
      RunKnown(states, labels, i);
      CallReaches(states[i], labels[i]);
    } else {
      RunReaches(states, labels, i, j - 1);
      RunInv(states, labels, j - 1);
      StepReaches(states[j - 1], labels[j - 1], labels[i].t, |states[i].appended|);
    }
  }

  /** When Flush, Close or a timer tick that found the shaper open has returned, everything appended before the call is
      in records, in order. If the call had a record of its own, that record and all records before it are dealt with,
      they hold everything appended before the call, and the call reports success exactly when its record was written.
      A call that found the buffer empty succeeds. */
  lemma FlushHandsOver(states: seq<State>, labels: seq<Label>, i: nat, j: nat)
    requires Run(states, labels) && i < j < |states| && Flushes(states[i], labels[i])
    requires labels[i].t in states[j].threads && states[j].threads[labels[i].t].Done?
    ensures FramesOf(states[i].appended) <= BatchFrames(states[j].batches)
    ensures forall k :: 0 <= k < |states[j].owners| && states[j].owners[k] == labels[i].t ==>
              && k < |states[j].outcomes| && k < |states[j].batches|
              && (states[j].outcomes[k] <==> states[j].threads[labels[i].t].res == Accepted)
              && FramesOf(states[i].appended) <= BatchFrames(states[j].batches[..k + 1])
    ensures labels[i].t !in states[j].owners ==> states[j].threads[labels[i].t].res == Accepted
  {
    var s, s', t := states[i], states[j], labels[i].t;
    RunReaches(states, labels, i, j);
    RunInv(states, labels, j);
    LogGrows(states, labels, i, j);
    HandedOver(s.appended, s', |s'.batches|);
    assert s'.batches[..|s'.batches|] == s'.batches;
    forall k | 0 <= k < |s'.owners| && s'.owners[k] == t
      ensures FramesOf(s.appended) <= BatchFrames(s'.batches[..k + 1])
    {
      HandedOver(s.appended, s', k + 1);
    }
  }

  /** Frames of the log that are few enough for the first `k` batches are in them. */
  lemma HandedOver(es: seq<Entry>, s: State, k: nat)
    requires LogInv(s) && es <= s.appended && k <= |s.batches|
    ensures |es| <= |BatchFrames(s.batches[..k])| ==> FramesOf(es) <= BatchFrames(s.batches[..k])
  {
    BatchFramesPrefix(s.batches, k);
    var log := FramesOf(s.appended);
    assert FramesOf(es) == log[..|es|];
  }

  // ---------------------------------------------------------------- what a push does with its frame

  /** Nothing but the thread has changed. */
  predicate Untouched(s: State, s': State) {
    s'.core == s.core && s'.appended == s.appended && s'.batches == s.batches && s'.current == s.current
  }

  /** The padding frame that the choice yields for a record of `n` bytes, if it yields one. */
  function Padding(n: nat, choice: Choice): seq<Frame> {
    match PadFrame(n, 65517, choice) case None => [] case Some(f) => [f]
  }

  /** The buffer with the frames `fs` behind it, `n` bytes in all, has become the next record of `t`, padded as the
      choice yields. */
  ghost predicate SwapsOut(s: State, s': State, t: Tid, fs: seq<Frame>, n: nat, choice: Choice, k: Kont) {
    && |s'.batches| == |s.batches| + 1 && s'.batches[..|s.batches|] == s.batches && s'.current == []
    && s'.batches[|s.batches|] == Batch(s.current + fs, Padding(n, choice)) && t in s'.threads
    && s'.threads[t].Waiting? && s'.threads[t].seqNo == s.core.writeSeq && s'.threads[t].k == k
  }

  /** The frame is in the buffer and the call has succeeded. */
  predicate JoinsBuffer(s: State, s': State, t: Tid, f: Frame) {
    && s'.batches == s.batches && s'.current == s.current + [f]
    && t in s'.threads && s'.threads[t] == Done(Accepted)
  }

  lemma AppendExactly(s: State, t: Tid, f: Frame, choice: Choice)
    ensures var s', n := AppendAndSwap(s, t, f, choice), |s.core.plaintext| + 3 + |f.payload|;
            && s'.appended == s.appended + [Entry(f, t)]
            && if n < 58965 then JoinsBuffer(s, s', t, f) else SwapsOut(s, s', t, [f], n, choice, AfterAppend)
  {
  }

  lemma PreflushExactly(s: State, t: Tid, f: Frame, choice: Choice)
    requires s.core.plaintext != []
    ensures var s' := SwapOut(s, t, Resume(f), Done(Accepted), choice);
            SwapsOut(s, s', t, [], |s.core.plaintext|, choice, Resume(f)) && s'.appended == s.appended
  {
  }

  /** A push takes its frame unless the shaper is closing, has failed, or the frame exceeds a record. A frame that fits
      behind what is buffered joins it, and 58965 bytes or more leave as a record; one that does not fit makes the
      buffer leave first. */
  lemma PushExactly(s: State, l: Label)
    requires Enabled(s, l) && l.Push?
    ensures var s', f, n := Step(s, l), Frame(l.ftype, |l.payload|, l.payload), |s.core.plaintext| + 3 + |l.payload|;
            if s.core.closing then Untouched(s, s') && s'.threads[l.t] == Done(if l.cover then Accepted else ErrClosed)
            else if s.core.failed then
              Untouched(s, s') && s'.threads[l.t] == Done(if l.cover then Accepted else ErrWriter)
            else if 3 + |l.payload| > 65517 then Untouched(s, s') && s'.threads[l.t] == Done(ErrTooLarge)
            else if s.core.plaintext != [] && n > 65517 then
              SwapsOut(s, s', l.t, [], |s.core.plaintext|, l.choice, Resume(f)) && s'.appended == s.appended
            else
              && s'.appended == s.appended + [Entry(f, l.t)]
              && if n < 58965 then JoinsBuffer(s, s', l.t, f)
                 else SwapsOut(s, s', l.t, [f], n, l.choice, AfterAppend)
  {
    var f := Frame(l.ftype, |l.payload|, l.payload);
    var begun := Started(s, l.t, PushCall(f, l.cover));
    if PlanPush(s.core, f, l.cover) == Append {
      AppendExactly(begun, l.t, f, l.choice);
    } else if PlanPush(s.core, f, l.cover) == Preflush {
      PreflushExactly(begun, l.t, f, l.choice);
    }
  }

  /** A push that comes back from its pre-flush appends its frame exactly when the record was written and the shaper is
      not closing. */
  lemma ResumeExactly(s: State, l: Label)
    requires Enabled(s, l) && l.LockAgain? && s.threads[l.t].k.Resume?
    ensures var s', pc, n := Step(s, l), s.threads[l.t], |s.core.plaintext| + 3 + |s.threads[l.t].k.f.payload|;
            && s'.core.failed == (s.core.failed || pc.o == Failed)
            && if pc.o == Written && !s.core.closing then
                 && s'.appended == s.appended + [Entry(pc.k.f, l.t)]
                 && if n < 58965 then JoinsBuffer(s, s', l.t, pc.k.f)
                    else SwapsOut(s, s', l.t, [pc.k.f], n, l.choice, AfterAppend)
               else
                 && s'.appended == s.appended && s'.batches == s.batches
                 && s'.threads[l.t] == Done(if pc.o == Failed then ErrWriter else ErrClosed)
  {
    var pc := s.threads[l.t];
    AppendExactly(s.(core := Relocked(s.core, pc.o)), l.t, pc.k.f, l.choice);
  }

  /** Between calls the buffer is short of the threshold. */
  predicate Short(s: State) {
    |s.core.plaintext| < 58965
  }

  lemma SwapIsShort(s: State, t: Tid, k: Kont, done: Pc, choice: Choice)
    ensures Short(SwapOut(s, t, k, done, choice))
  {
  }

  lemma AppendIsShort(s: State, t: Tid, f: Frame, choice: Choice)
    ensures Short(AppendAndSwap(s, t, f, choice))
  {
    SwapIsShort(Appended(s, t, f), t, AfterAppend, Done(Accepted), choice);
  }

  lemma StepIsShort(s: State, l: Label)
    requires Short(s) && Enabled(s, l)
    ensures Short(Step(s, l))
  {
    match l {
      case Push(t, ftype, payload, cover, choice) =>
        var f := Frame(ftype, |payload|, payload);
        var begun := Started(s, t, PushCall(f, cover));
        AppendIsShort(begun, t, f, choice);
        SwapIsShort(begun, t, Resume(f), Done(Accepted), choice);
      case LockAgain(t, choice) =>
        var pc := s.threads[t];
        if pc.k.Resume? {
          AppendIsShort(s.(core := Relocked(s.core, pc.o)), t, pc.k.f, choice);
        }
      case EnterFlush(t, choice) =>
        SwapIsShort(s, t, AfterFlush, Done(Accepted), choice);
        SwapIsShort(s, t, AfterCloseFlush, CloseSnapshot(Accepted), choice);
      case _ =>
    }
  }

  /** At every point of every run less than nine tenths of a record is buffered. */
  lemma {:induction false} BufferStaysShort(states: seq<State>, labels: seq<Label>, i: nat)
    requires Run(states, labels) && i < |states|
    ensures |states[i].core.plaintext| < 58965
  {
    if i > 0 {
      BufferStaysShort(states, labels, i - 1);
      StepIsShort(states[i - 1], labels[i - 1]);
    }
  }
}
