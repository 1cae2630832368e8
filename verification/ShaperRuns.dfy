/** Every interleaving of pushes, flushes, timer ticks, cover injection and Close on one batch shaper
    (shaper/batch.go). A thread performs one call; its program counter sits between two critical sections. */
module ShaperRuns {
  import opened Options
  import opened Protocol
  import opened Shaper

  type Tid = nat

  datatype Call = PushCall(f: Frame, cover: bool) | FlushCall | CloseCall

  /** What a thread does once its record is written. */
  datatype Kont = Resume(f: Frame) | AfterAppend | AfterFlush | AfterCloseFlush

  datatype Pc =
    | FlushEntry
    | CloseFlush | CloseSnapshot(res: Result) | CloseWait(pending: nat, res: Result) | CloseFree(res: Result)
    | Waiting(seqNo: nat, data: Bytes, k: Kont)    // mu released, waiting for its turn on writeMu
    | Writing(seqNo: nat, data: Bytes, k: Kont)    // holding writeMu
    | Relock(o: Outcome, k: Kont)                  // waiting for mu again
    | Done(res: Result)

  datatype Entry = Entry(f: Frame, caller: Tid)

  /** A buffer that was swapped out: the frames appended to it and the padding of its flush. */
  datatype Batch = Batch(frames: seq<Frame>, pad: seq<Frame>)

  /** `core` is the shaper; `threads` and `writeMu` are the scheduler's view; the rest is history. */
  datatype State = State(
    core: Core, threads: map<Tid, Pc>, writeMu: Option<Tid>,
    calls: map<Tid, Call>, appended: seq<Entry>, position: map<Tid, nat>,
    current: seq<Frame>, batches: seq<Batch>, owners: seq<Tid>, outcomes: seq<bool>)

  const INITIAL := State(Core([], 0, 0, false, false, false, []), map[], None, map[], [], map[], [], [], [], [])

  datatype Label =
    | Push(t: Tid, ftype: byte, payload: Bytes, cover: bool, choice: Choice)
    | Flush(t: Tid)
    | Timer(t: Tid)
    | Close(t: Tid)
    | EnterFlush(t: Tid, choice: Choice)
    | TakeTurn(t: Tid)
    | FinishWrite(t: Tid, writerOk: bool)
    | LockAgain(t: Tid, choice: Choice)
    | Snapshot(t: Tid)
    | Drained(t: Tid)
    | Free(t: Tid)

  // ---------------------------------------------------------------- steps

  function Goto(s: State, t: Tid, pc: Pc): State {
    s.(threads := s.threads[t := pc])
  }

  /** Enter FlushSection with `k` to follow; `done` is where an empty buffer leads. */
  function SwapOut(s: State, t: Tid, k: Kont, done: Pc, choice: Choice): State {
    match FlushSection(s.core, choice)
    case (c, Return(_)) => Goto(s.(core := c), t, done)
    case (c, Write(n, data)) =>
      var pad := match PadFrame(|s.core.plaintext|, CEILING, choice) case None => [] case Some(p) => [p];
      Goto(s.(core := c, batches := s.batches + [Batch(s.current, pad)], owners := s.owners + [t], current := []),
           t, Waiting(n, data, k))
  }

  function Appended(s: State, t: Tid, f: Frame): State {
    s.(core := s.core.(plaintext := AppendFrame(s.core.plaintext, f)),
       appended := s.appended + [Entry(f, t)], position := s.position[t := |s.appended|], current := s.current + [f])
  }

  /** Append the thread's frame, then flush if the threshold is reached: AppendSection with its history. */
  function AppendAndSwap(s: State, t: Tid, f: Frame, choice: Choice): State {
    var s' := Appended(s, t, f);
    if |s'.core.plaintext| >= FLUSH_THRESHOLD then SwapOut(s', t, AfterAppend, Done(Accepted), choice)
    else Goto(s', t, Done(Accepted))
  }

  /** Where a thread goes once its record is dealt with, unless it still has a frame to append. */
  function AfterWrite(o: Outcome, k: Kont): Pc {
    match k
    case AfterCloseFlush => CloseSnapshot(OutcomeResult(o))
    case Resume(_) => Done(if o == Written then ErrClosed else OutcomeResult(o))
    case _ => Done(OutcomeResult(o))
  }

  ghost predicate Enabled(s: State, l: Label) {
    match l
    case Push(t, _, _, _, _) => t !in s.threads
    case Flush(t) => t !in s.threads
    case Timer(t) => t !in s.threads
    case Close(t) => t !in s.threads
    case EnterFlush(t, _) => t in s.threads && (s.threads[t].FlushEntry? || s.threads[t].CloseFlush?)
    case TakeTurn(t) =>
      t in s.threads && s.threads[t].Waiting? && s.writeMu == None && s.threads[t].seqNo == s.core.writeNext
    case FinishWrite(t, _) => t in s.threads && s.threads[t].Writing?
    case LockAgain(t, _) => t in s.threads && s.threads[t].Relock?
    case Snapshot(t) => t in s.threads && s.threads[t].CloseSnapshot?
    case Drained(t) =>
      t in s.threads && s.threads[t].CloseWait? && s.writeMu == None && s.core.writeNext >= s.threads[t].pending
    case Free(t) => t in s.threads && s.threads[t].CloseFree?
  }

  function Started(s: State, t: Tid, call: Call): State {
    s.(calls := s.calls[t := call])
  }

  ghost function Step(s: State, l: Label): State
    requires Enabled(s, l)
  {
    match l
    case Push(t, ftype, payload, cover, choice) =>
      var f := Frame(ftype, |payload|, payload);
      var s' := Started(s, t, PushCall(f, cover));
      (match PlanPush(s.core, f, cover)
       case Reject(res) => Goto(s', t, Done(res))
       case Preflush => SwapOut(s', t, Resume(f), Done(Accepted), choice)
       case Append => AppendAndSwap(s', t, f, choice))
    case Flush(t) => Goto(Started(s, t, FlushCall), t, FlushEntry)
    case Timer(t) => Goto(Started(s, t, FlushCall), t, if s.core.closing then Done(Accepted) else FlushEntry)
    case Close(t) => Goto(Started(s.(core := s.core.(closing := true)), t, CloseCall), t, CloseFlush)
    case EnterFlush(t, choice) =>
      if s.threads[t].FlushEntry? then SwapOut(s, t, AfterFlush, Done(Accepted), choice)
      else SwapOut(s, t, AfterCloseFlush, CloseSnapshot(Accepted), choice)
    case TakeTurn(t) =>
      var pc := s.threads[t];
      Goto(s.(writeMu := Some(t)), t, Writing(pc.seqNo, pc.data, pc.k))
    case FinishWrite(t, ok) =>
      var (c, o) := WriteSection(s.core, s.threads[t].data, ok);
      Goto(s.(core := c, writeMu := None, outcomes := s.outcomes + [o == Written]), t, Relock(o, s.threads[t].k))
    case LockAgain(t, choice) =>
      var pc := s.threads[t];
      var s' := s.(core := Relocked(s.core, pc.o));
      if pc.k.Resume? && pc.o == Written && !s.core.closing then AppendAndSwap(s', t, pc.k.f, choice)
      else Goto(s', t, AfterWrite(pc.o, pc.k))
    case Snapshot(t) => Goto(s, t, CloseWait(s.core.writeSeq, s.threads[t].res))
    case Drained(t) => Goto(s.(core := s.core.(writeClosed := true)), t, CloseFree(s.threads[t].res))
    case Free(t) => Goto(s.(core := s.core.(plaintext := [])), t, Done(s.threads[t].res))
  }

  /** The machine changes the shaper by exactly the sections that the class BatchShaper implements. */
  lemma StepsAreSections(s: State, l: Label)
    requires Enabled(s, l)
    ensures l.Push? ==>
              Step(s, l).core == PushSection(s.core, Frame(l.ftype, |l.payload|, l.payload), l.cover, l.choice).0
    ensures l.EnterFlush? ==> Step(s, l).core == FlushSection(s.core, l.choice).0
    ensures l.FinishWrite? ==> Step(s, l).core == WriteSection(s.core, s.threads[l.t].data, l.writerOk).0
    ensures l.LockAgain? && s.threads[l.t].k.Resume? ==>
              Step(s, l).core == ResumeSection(s.core, s.threads[l.t].k.f, s.threads[l.t].o, l.choice).0
  {
  }

  // ---------------------------------------------------------------- invariant

  predicate InFlight(pc: Pc) {
    pc.Waiting? || pc.Writing?
  }

  function FramesOf(es: seq<Entry>): seq<Frame> {
    seq(|es|, i requires 0 <= i < |es| => es[i].f)
  }

  function BatchFrames(bs: seq<Batch>): seq<Frame> {
    if bs == [] then [] else BatchFrames(bs[..|bs| - 1]) + bs[|bs| - 1].frames
  }

  function BatchBytes(b: Batch): Bytes {
    EncodeFrames(b.frames + b.pad)
  }

  predicate GoodBatch(b: Batch) {
    && b.frames != [] && AllWellFormed(b.frames) && AllWellFormed(b.pad)
    && |b.pad| <= 1 && (forall i :: 0 <= i < |b.pad| ==> b.pad[i].ftype == PADDING)
  }

  /** Appended frames are the swapped-out batches in order followed by the buffer. */
  predicate LogInv(s: State) {
    && |s.batches| == |s.owners| == s.core.writeSeq
    && BatchFrames(s.batches) + s.current == FramesOf(s.appended)
    && s.core.plaintext == EncodeFrames(s.current)
    && AllWellFormed(s.current)
    && forall k :: 0 <= k < |s.batches| ==> GoodBatch(s.batches[k])
  }

  /** The threads between buffer swap and `writeNext++` are in bijection with [writeNext, writeSeq): `owners` maps
      each number to its thread, and the thread's own number maps back. */
  ghost predicate TicketInv(s: State) {
    && s.core.writeNext <= s.core.writeSeq == |s.owners| == |s.batches|
    && (forall k :: s.core.writeNext <= k < s.core.writeSeq ==>
          && s.owners[k] in s.threads && InFlight(s.threads[s.owners[k]]) && s.threads[s.owners[k]].seqNo == k
          && s.threads[s.owners[k]].data == BatchBytes(s.batches[k]))
    && (forall t :: t in s.threads && InFlight(s.threads[t]) ==>
          s.core.writeNext <= s.threads[t].seqNo < s.core.writeSeq && s.owners[s.threads[t].seqNo] == t)
  }

  ghost predicate IoInv(s: State) {
    && (forall t :: t in s.threads && s.threads[t].Writing? ==>
          s.writeMu == Some(t) && s.threads[t].seqNo == s.core.writeNext)
    && (s.writeMu.Some? ==> s.writeMu.value in s.threads && s.threads[s.writeMu.value].Writing?)
  }

  function WireOf(bs: seq<Batch>, oks: seq<bool>): seq<Bytes>
    requires |oks| <= |bs|
  {
    if oks == [] then []
    else
      var n := |oks| - 1;
      WireOf(bs, oks[..n]) + if oks[n] then [BatchBytes(bs[n])] else []
  }

  predicate WireInv(s: State) {
    && |s.outcomes| == s.core.writeNext <= |s.batches| && s.core.wire == WireOf(s.batches, s.outcomes)
    && forall k :: 0 <= k < |s.outcomes| && s.outcomes[k] ==> |BatchBytes(s.batches[k])| <= MAX_WRITE_PLAINTEXT
  }

  /** What a thread may rely on, by its call: `placed` says whether its frame is in the log. */
  predicate ThreadOk(c: Core, call: Call, pc: Pc, placed: bool) {
    match call
    case PushCall(f, cover) =>
      f.length == |f.payload| &&
      (if pc.Done? then pc.res == Accepted && !cover ==> placed
       else (InFlight(pc) || (pc.Relock? && pc.o != Dropped)) &&
            (if pc.k.Resume? then pc.k.f == f && !placed && Size(f) <= CEILING else pc.k.AfterAppend? && placed))
    case FlushCall =>
      !placed && (pc.FlushEntry? || pc.Done? || ((InFlight(pc) || (pc.Relock? && pc.o != Dropped)) && pc.k.AfterFlush?))
    case CloseCall =>
      !placed && c.closing &&
      if pc.Done? || pc.CloseFree? then c.writeClosed
      else if pc.CloseFlush? then true
      else c.plaintext == [] &&
           (pc.CloseSnapshot? || (pc.CloseWait? && pc.pending == c.writeSeq) ||
            ((InFlight(pc) || (pc.Relock? && pc.o != Dropped)) && pc.k.AfterCloseFlush?))
  }

  ghost predicate ControlInv(s: State) {
    && s.threads.Keys == s.calls.Keys
    && (forall t :: t in s.threads ==> ThreadOk(s.core, s.calls[t], s.threads[t], t in s.position))
    && (s.core.writeClosed ==> s.core.closing && s.core.plaintext == [] && s.core.writeNext == s.core.writeSeq)
  }

  /** Each thread appends at most once, and the log says who appended what. */
  ghost predicate PositionInv(s: State) {
    && (forall i :: 0 <= i < |s.appended| ==>
          s.appended[i].caller in s.position && s.position[s.appended[i].caller] == i)
    && (forall t :: t in s.position ==>
          && t in s.calls && s.calls[t].PushCall? && s.position[t] < |s.appended|
          && s.appended[s.position[t]] == Entry(s.calls[t].f, t))
  }

  ghost predicate Inv(s: State) {
    LogInv(s) && TicketInv(s) && IoInv(s) && WireInv(s) && ControlInv(s) && PositionInv(s)
  }

  // ---------------------------------------------------------------- preservation: what is written

  lemma FramesOfSnoc(es: seq<Entry>, e: Entry)
    ensures FramesOf(es + [e]) == FramesOf(es) + [e.f]
  {
  }

  lemma BatchFramesSnoc(bs: seq<Batch>, b: Batch)
    ensures BatchFrames(bs + [b]) == BatchFrames(bs) + b.frames
  {
    assert (bs + [b])[..|bs|] == bs;
  }

  lemma EncodeEmpty(fs: seq<Frame>)
    ensures EncodeFrames(fs) == [] <==> fs == []
  {
  }

  ghost predicate WritingInv(s: State) {
    LogInv(s) && TicketInv(s) && IoInv(s) && WireInv(s)
  }

  /** A step that leaves the buffer, the numbers and the writer alone, by a thread that holds no number. */
  lemma Neutral(s: State, s': State, t: Tid)
    requires WritingInv(s)
    requires t in s.threads ==> !InFlight(s.threads[t])
    requires t in s'.threads && !InFlight(s'.threads[t]) && s'.threads == s.threads[t := s'.threads[t]]
    requires s' == s.(core := s'.core, threads := s'.threads, calls := s'.calls)
    requires s'.core == s.core.(closing := s'.core.closing, writeClosed := s'.core.writeClosed,
              failed := s'.core.failed)
    ensures WritingInv(s')
  {
  }

  /** Appending keeps the log in step with the bytes. */
  lemma AppendLog(s: State, t: Tid, f: Frame)
    requires WritingInv(s) && WellFormed(f)
    ensures var s' := Appended(s, t, f); WritingInv(s') && s'.core.plaintext != []
  {
    EncodeSnoc(s.current, f);
    FramesOfSnoc(s.appended, Entry(f, t));
    assert BatchFrames(s.batches) + (s.current + [f]) == (BatchFrames(s.batches) + s.current) + [f];
  }

  /** Swapping moves the buffer into a batch whose bytes are the record. */
  lemma SwapLog(s: State, t: Tid, k: Kont, done: Pc, choice: Choice)
    requires LogInv(s) && s.core.plaintext != []
    ensures var s' := SwapOut(s, t, k, done, choice);
            && LogInv(s') && s'.core == s.core.(plaintext := [], writeSeq := s.core.writeSeq + 1)
            && s'.threads == s.threads[t := Waiting(s.core.writeSeq, BatchBytes(s'.batches[s.core.writeSeq]), k)]
            && s'.owners == s.owners + [t] && s'.batches == s.batches + [s'.batches[s.core.writeSeq]]
            && s'.outcomes == s.outcomes && s'.writeMu == s.writeMu
  {
    var s' := SwapOut(s, t, k, done, choice);
    var b := s'.batches[s.core.writeSeq];
    EncodeEmpty(s.current);
    PadFits(|s.core.plaintext|, CEILING, choice);
    BatchFramesSnoc(s.batches, b);
    if b.pad == [] {
      assert b.frames + b.pad == s.current;
    } else {
      EncodeSnoc(s.current, b.pad[0]);
      assert b.pad == [b.pad[0]];
    }
    assert BatchFrames(s.batches) + s.current == BatchFrames(s'.batches) + [];
  }

  /** The new thread's number extends the bijection at its upper end. */
  lemma ExtendTickets(s: State, s': State, t: Tid, k: Kont, b: Batch)
    requires TicketInv(s)
    requires t in s.threads ==> !InFlight(s.threads[t])
    requires s'.core.writeSeq == s.core.writeSeq + 1 && s'.core.writeNext == s.core.writeNext
    requires s'.threads == s.threads[t := Waiting(s.core.writeSeq, BatchBytes(b), k)]
    requires s'.owners == s.owners + [t] && s'.batches == s.batches + [b]
    ensures TicketInv(s')
  {
  }

  lemma SwapKeeps(s: State, t: Tid, k: Kont, done: Pc, choice: Choice)
    requires WritingInv(s) && !InFlight(done)
    requires t in s.threads ==> !InFlight(s.threads[t])
    ensures WritingInv(SwapOut(s, t, k, done, choice))
  {
    var s' := SwapOut(s, t, k, done, choice);
    if s.core.plaintext == [] {
      Neutral(s, s', t);
    } else {
      SwapLog(s, t, k, done, choice);
      ExtendTickets(s, s', t, k, s'.batches[s.core.writeSeq]);
      WireExtend(s.batches, s'.batches[s.core.writeSeq], s.outcomes);
    }
  }

  lemma {:induction false} WireExtend(bs: seq<Batch>, b: Batch, oks: seq<bool>)
    requires |oks| <= |bs|
    ensures WireOf(bs + [b], oks) == WireOf(bs, oks)
    decreases |oks|
  {
    if oks != [] {
      WireExtend(bs, b, oks[..|oks| - 1]);
    }
  }

  lemma AppendKeeps(s: State, t: Tid, f: Frame, choice: Choice)
    requires WritingInv(s) && WellFormed(f)
    requires t in s.threads ==> !InFlight(s.threads[t])
    ensures WritingInv(AppendAndSwap(s, t, f, choice))
  {
    var s' := Appended(s, t, f);
    AppendLog(s, t, f);
    if |s'.core.plaintext| >= FLUSH_THRESHOLD {
      SwapKeeps(s', t, AfterAppend, Done(Accepted), choice);
    } else {
      Neutral(s', AppendAndSwap(s, t, f, choice), t);
    }
  }

  lemma TakeTurnKeeps(s: State, t: Tid)
    requires WritingInv(s) && Enabled(s, TakeTurn(t))
    ensures WritingInv(Step(s, TakeTurn(t)))
  {
  }

  /** The holder of `writeMu` owns the lowest number, so advancing `writeNext` removes exactly its number. */
  lemma FinishKeeps(s: State, t: Tid, ok: bool)
    requires WritingInv(s) && Enabled(s, FinishWrite(t, ok)) && !s.core.writeClosed
    requires s.core.writeNext < s.core.writeSeq && s.owners[s.core.writeNext] == t
    requires s.threads[t].data == BatchBytes(s.batches[s.core.writeNext])
    ensures WritingInv(Step(s, FinishWrite(t, ok)))
  {
    var s' := Step(s, FinishWrite(t, ok));
    FinishTickets(s, s', t);
    FinishWire(s, s', s.threads[t].data, ok);
    assert LogInv(s');
    FinishIo(s, s', t);
  }

  lemma FinishIo(s: State, s': State, t: Tid)
    requires IoInv(s) && t in s.threads && s.threads[t].Writing?
    requires t in s'.threads && !InFlight(s'.threads[t])
    requires s'.threads == s.threads[t := s'.threads[t]] && s'.writeMu == None
    ensures IoInv(s')
  {
  }

  lemma FinishWire(s: State, s': State, data: Bytes, ok: bool)
    requires WireInv(s) && s.core.writeNext < |s.batches| && data == BatchBytes(s.batches[s.core.writeNext])
    requires !s.core.writeClosed && s'.core == WriteSection(s.core, data, ok).0 && s'.batches == s.batches
    requires s'.outcomes == s.outcomes + [WriteSection(s.core, data, ok).1 == Written]
    ensures WireInv(s')
  {
    assert s'.outcomes[..|s.outcomes|] == s.outcomes;
  }

  lemma HolderOwnsNext(s: State, t: Tid)
    requires Inv(s) && t in s.threads && s.threads[t].Writing?
    ensures s.core.writeNext < s.core.writeSeq && s.owners[s.core.writeNext] == t && !s.core.writeClosed
    ensures s.threads[t].data == BatchBytes(s.batches[s.core.writeNext])
  {
  }

  lemma FinishTickets(s: State, s': State, t: Tid)
    requires TicketInv(s) && s.core.writeNext < s.core.writeSeq && s.owners[s.core.writeNext] == t
    requires t in s'.threads && !InFlight(s'.threads[t]) && s'.threads == s.threads[t := s'.threads[t]]
    requires s'.core.writeNext == s.core.writeNext + 1 && s'.core.writeSeq == s.core.writeSeq
    requires s'.owners == s.owners && s'.batches == s.batches
    ensures TicketInv(s')
  {
    forall u | u in s'.threads && InFlight(s'.threads[u])
      ensures s'.core.writeNext <= s'.threads[u].seqNo < s'.core.writeSeq && s'.owners[s'.threads[u].seqNo] == u
    {
      assert s.threads[u] == s'.threads[u];
    }
  }

  lemma LockAgainKeeps(s: State, t: Tid, choice: Choice)
    requires WritingInv(s) && Enabled(s, LockAgain(t, choice))
    requires s.threads[t].k.Resume? ==> WellFormed(s.threads[t].k.f)
    ensures WritingInv(Step(s, LockAgain(t, choice)))
  {
    var pc := s.threads[t];
    if pc.k.Resume? && pc.o == Written && !s.core.closing {
      AppendKeeps(s.(core := Relocked(s.core, pc.o)), t, pc.k.f, choice);
    } else {
      Neutral(s, Step(s, LockAgain(t, choice)), t);
    }
  }

  lemma PushKeeps(s: State, l: Label)
    requires Inv(s) && l.Push? && Enabled(s, l)
    ensures WritingInv(Step(s, l))
  {
    var f := Frame(l.ftype, |l.payload|, l.payload);
    var s' := Started(s, l.t, PushCall(f, l.cover));
    assert WritingInv(s');
    match PlanPush(s.core, f, l.cover) {
      case Reject(_) => Neutral(s, Step(s, l), l.t);
      case Preflush => SwapKeeps(s', l.t, Resume(f), Done(Accepted), l.choice);
      case Append => AppendKeeps(s', l.t, f, l.choice);
    }
  }

  lemma StepKeepsWriting(s: State, l: Label)
    requires Inv(s) && Enabled(s, l)
    ensures WritingInv(Step(s, l))
  {
    if l.Push? {
      PushKeeps(s, l);
    } else if l.EnterFlush? {
      EnterFlushKeeps(s, l.t, l.choice);
    } else if l.TakeTurn? {
      TakeTurnKeeps(s, l.t);
    } else if l.FinishWrite? {
      HolderOwnsNext(s, l.t);
      FinishKeeps(s, l.t, l.writerOk);
    } else if l.LockAgain? {
      assert ThreadOk(s.core, s.calls[l.t], s.threads[l.t], l.t in s.position);
      LockAgainKeeps(s, l.t, l.choice);
    } else {
      PlainKeeps(s, l);
    }
  }

  lemma EnterFlushKeeps(s: State, t: Tid, choice: Choice)
    requires WritingInv(s) && Enabled(s, EnterFlush(t, choice))
    ensures WritingInv(Step(s, EnterFlush(t, choice)))
  {
    if s.threads[t].FlushEntry? {
      SwapKeeps(s, t, AfterFlush, Done(Accepted), choice);
    } else {
      SwapKeeps(s, t, AfterCloseFlush, CloseSnapshot(Accepted), choice);
    }
  }

  lemma PlainKeeps(s: State, l: Label)
    requires Inv(s) && Enabled(s, l)
    requires l.Flush? || l.Timer? || l.Close? || l.Snapshot? || l.Drained? || l.Free?
    ensures WritingInv(Step(s, l))
  {
    if l.Free? {
      assert ThreadOk(s.core, s.calls[l.t], s.threads[l.t], l.t in s.position);
    }
    PlainIsNeutral(s, l);
    Neutral(s, Step(s, l), l.t);
  }

  lemma PlainIsNeutral(s: State, l: Label)
    requires Enabled(s, l) && (l.Flush? || l.Timer? || l.Close? || l.Snapshot? || l.Drained? || l.Free?)
    requires l.Free? ==> s.core.plaintext == []
    ensures var s' := Step(s, l);
            && (l.t in s.threads ==> !InFlight(s.threads[l.t]))
            && l.t in s'.threads && !InFlight(s'.threads[l.t]) && s'.threads == s.threads[l.t := s'.threads[l.t]]
            && s' == s.(core := s'.core, threads := s'.threads, calls := s'.calls)
            && s'.core == s.core.(closing := s'.core.closing, writeClosed := s'.core.writeClosed,
              failed := s'.core.failed)
  {
  }

  // ---------------------------------------------------------------- preservation: control

  /** How the shaper may change under a thread that is not looking. */
  predicate Evolves(c: Core, c': Core) {
    && (c.closing ==> c'.closing) && (c.writeClosed ==> c'.writeClosed)
    && (c.closing && c.plaintext == [] ==> c'.plaintext == [] && c'.writeSeq == c.writeSeq)
  }

  lemma OthersUndisturbed(c: Core, c': Core, call: Call, pc: Pc, placed: bool)
    requires ThreadOk(c, call, pc, placed) && Evolves(c, c')
    ensures ThreadOk(c', call, pc, placed)
  {
  }

  /** What a section by `t` does to everyone else: it moves only `t`, appends at most `t`'s own frame, and only ever
      lets the shaper evolve. */
  ghost predicate SectionFacts(s: State, s': State, t: Tid) {
    && t in s'.threads && s'.threads == s.threads[t := s'.threads[t]]
    && t in s'.calls && s'.calls == s.calls[t := s'.calls[t]] && (t in s.calls ==> s'.calls[t] == s.calls[t])
    && ((s'.appended == s.appended && s'.position == s.position) ||
        (&& t !in s.position && s'.calls[t].PushCall?
         && s'.appended == s.appended + [Entry(s'.calls[t].f, t)] && s'.position == s.position[t := |s.appended|]))
    && Evolves(s.core, s'.core)
    && (s'.core.writeClosed ==> s'.core.closing && s'.core.plaintext == [] && s'.core.writeNext == s'.core.writeSeq)
    && ThreadOk(s'.core, s'.calls[t], s'.threads[t], t in s'.position)
  }

  lemma SwapEffect(s: State, t: Tid, k: Kont, done: Pc, choice: Choice)
    ensures var s' := SwapOut(s, t, k, done, choice);
            && t in s'.threads && s'.threads == s.threads[t := s'.threads[t]]
            && s'.calls == s.calls && s'.appended == s.appended && s'.position == s.position
            && if s.core.plaintext == [] then s'.core == s.core && s'.threads[t] == done
               else s'.core == s.core.(plaintext := [], writeSeq := s.core.writeSeq + 1)
                    && s'.threads[t].Waiting? && s'.threads[t].k == k
  {
  }

  lemma AppendEffect(s: State, t: Tid, f: Frame, choice: Choice)
    ensures var s' := AppendAndSwap(s, t, f, choice);
            && t in s'.threads && s'.threads == s.threads[t := s'.threads[t]] && s'.calls == s.calls
            && s'.appended == s.appended + [Entry(f, t)] && s'.position == s.position[t := |s.appended|]
            && (s'.threads[t] == Done(Accepted) || (s'.threads[t].Waiting? && s'.threads[t].k == AfterAppend))
            && s'.core.closing == s.core.closing && s'.core.writeClosed == s.core.writeClosed
  {
    var s' := Appended(s, t, f);
    assert s'.core.plaintext != [];
    SwapEffect(s', t, AfterAppend, Done(Accepted), choice);
  }

  lemma PushFacts(s: State, l: Label)
    requires Inv(s) && l.Push? && Enabled(s, l)
    ensures SectionFacts(s, Step(s, l), l.t)
  {
    var f := Frame(l.ftype, |l.payload|, l.payload);
    var s' := Started(s, l.t, PushCall(f, l.cover));
    assert l.t !in s.position;
    match PlanPush(s.core, f, l.cover) {
      case Reject(_) =>
      case Preflush => SwapEffect(s', l.t, Resume(f), Done(Accepted), l.choice);
      case Append => AppendEffect(s', l.t, f, l.choice);
    }
  }

  lemma LockAgainFacts(s: State, t: Tid, choice: Choice)
    requires Inv(s) && Enabled(s, LockAgain(t, choice))
    ensures SectionFacts(s, Step(s, LockAgain(t, choice)), t)
  {
    var pc := s.threads[t];
    assert ThreadOk(s.core, s.calls[t], pc, t in s.position);
    if pc.k.Resume? && pc.o == Written && !s.core.closing {
      ResumeFacts(s, t, choice);
    } else {
      ReturnFacts(s, t, choice);
    }
  }

  lemma ResumeFacts(s: State, t: Tid, choice: Choice)
    requires ControlInv(s) && Enabled(s, LockAgain(t, choice)) && !s.core.closing
    requires s.threads[t].k.Resume? && s.threads[t].o == Written
    ensures SectionFacts(s, Step(s, LockAgain(t, choice)), t)
  {
    var pc := s.threads[t];
    assert ThreadOk(s.core, s.calls[t], pc, t in s.position);
    AppendEffect(s.(core := Relocked(s.core, pc.o)), t, pc.k.f, choice);
  }

  lemma ReturnFacts(s: State, t: Tid, choice: Choice)
    requires ControlInv(s) && Enabled(s, LockAgain(t, choice))
    requires !(s.threads[t].k.Resume? && s.threads[t].o == Written && !s.core.closing)
    ensures SectionFacts(s, Step(s, LockAgain(t, choice)), t)
  {
    assert ThreadOk(s.core, s.calls[t], s.threads[t], t in s.position);
  }

  lemma EnterFlushFacts(s: State, t: Tid, choice: Choice)
    requires Inv(s) && Enabled(s, EnterFlush(t, choice))
    ensures SectionFacts(s, Step(s, EnterFlush(t, choice)), t)
  {
    assert ThreadOk(s.core, s.calls[t], s.threads[t], t in s.position);
    if s.threads[t].FlushEntry? {
      SwapEffect(s, t, AfterFlush, Done(Accepted), choice);
    } else {
      SwapEffect(s, t, AfterCloseFlush, CloseSnapshot(Accepted), choice);
    }
  }

  lemma FinishWriteFacts(s: State, t: Tid, ok: bool)
    requires Inv(s) && Enabled(s, FinishWrite(t, ok))
    ensures SectionFacts(s, Step(s, FinishWrite(t, ok)), t)
  {
    assert ThreadOk(s.core, s.calls[t], s.threads[t], t in s.position);
    HolderOwnsNext(s, t);
  }

  lemma StepFacts(s: State, l: Label)
    requires Inv(s) && Enabled(s, l)
    ensures SectionFacts(s, Step(s, l), l.t)
  {
    match l {
      case Push(_, _, _, _, _) => PushFacts(s, l);
      case LockAgain(t, choice) => LockAgainFacts(s, t, choice);
      case EnterFlush(t, choice) => EnterFlushFacts(s, t, choice);
      case FinishWrite(t, ok) => FinishWriteFacts(s, t, ok);
      case _ => PlainFacts(s, l);
    }
  }

  lemma PlainFacts(s: State, l: Label)
    requires Inv(s) && Enabled(s, l) && !l.Push? && !l.LockAgain? && !l.EnterFlush? && !l.FinishWrite?
    ensures SectionFacts(s, Step(s, l), l.t)
  {
    if l.Flush? || l.Timer? || l.Close? {
      BeginFacts(s, l);
    } else {
      assert ThreadOk(s.core, s.calls[l.t], s.threads[l.t], l.t in s.position);
      MoveFacts(s, l);
    }
  }

  lemma BeginFacts(s: State, l: Label)
    requires ControlInv(s) && PositionInv(s) && Enabled(s, l) && (l.Flush? || l.Timer? || l.Close?)
    ensures SectionFacts(s, Step(s, l), l.t)
  {
    assert l.t !in s.position;
  }

  lemma MoveFacts(s: State, l: Label)
    requires ControlInv(s) && Enabled(s, l) && (l.TakeTurn? || l.Snapshot? || l.Drained? || l.Free?)
    requires s.core.writeNext <= s.core.writeSeq && ThreadOk(s.core, s.calls[l.t], s.threads[l.t], l.t in s.position)
    ensures SectionFacts(s, Step(s, l), l.t)
  {
  }

  lemma ControlFromFacts(s: State, s': State, t: Tid)
    requires ControlInv(s) && SectionFacts(s, s', t)
    ensures ControlInv(s')
  {
    forall u | u in s'.threads
      ensures u in s'.calls && ThreadOk(s'.core, s'.calls[u], s'.threads[u], u in s'.position)
    {
      if u != t {
        OthersUndisturbed(s.core, s'.core, s.calls[u], s.threads[u], u in s.position);
      }
    }
  }

  lemma PositionsFromFacts(s: State, s': State, t: Tid)
    requires PositionInv(s) && SectionFacts(s, s', t)
    ensures PositionInv(s')
  {
  }

  lemma StepKeepsInv(s: State, l: Label)
    requires Inv(s) && Enabled(s, l)
    ensures Inv(Step(s, l))
  {
    StepKeepsWriting(s, l);
    StepFacts(s, l);
    ControlFromFacts(s, Step(s, l), l.t);
    PositionsFromFacts(s, Step(s, l), l.t);
  }
}
