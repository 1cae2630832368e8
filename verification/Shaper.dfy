/** The batch shaper's critical sections (shaper/batch.go) and the padding rule (shaper/shaper.go). */
module Shaper {
  import opened Options
  import opened Protocol

  const CEILING := MAX_WRITE_PLAINTEXT
  const FLUSH_THRESHOLD := MAX_WRITE_PLAINTEXT * 9 / 10

  // ---------------------------------------------------------------- padding

  /** Every random choice of one flush: a size draw (reduced to the range in use) and the padding bytes. */
  datatype Choice = Choice(r: nat, noise: nat -> byte)

  /** The size computePadPayloadSize returns for draw `r`. */
  function PadSize(total: nat, r: nat): nat {
    var target := if total <= 128 then 128 + r % 256
                  else if total <= 512 then 512 + r % 256
                  else if total <= 1500 then 1500 + r % 500
                  else total + 1 + r % 63;
    if target <= total then 0 else target - total
  }

  function PadFrame(total: nat, budget: int, c: Choice): Option<Frame> {
    var limit := if budget <= 0 || budget > MAX_READ_PLAINTEXT then MAX_READ_PLAINTEXT else budget;
    var n := PadSize(total, c.r);
    if n == 0 || total + HEADER_SIZE + n > limit then None
    else Some(Frame(PADDING, n, seq(n, i requires 0 <= i => c.noise(i))))
  }

  /** Padding is a well-formed PADDING frame that never pushes the record over its budget, and once a record is
      above 1500 bytes it is left out only for want of room. */
  lemma PadFits(total: nat, budget: int, c: Choice)
    requires 0 < budget <= MAX_READ_PLAINTEXT
    ensures PadFrame(total, budget, c).Some? ==>
              var f := PadFrame(total, budget, c).value;
              WellFormed(f) && f.ftype == PADDING && f.payload != [] && total + HEADER_SIZE + |f.payload| <= budget
    ensures total > 1500 && total + HEADER_SIZE + 63 <= budget ==> PadFrame(total, budget, c).Some?
  {
    assert c.r % 63 < 63 && c.r % 256 < 256 && c.r % 500 < 500;
  }

  /** The sizes that a record of `total` bytes may be padded towards, exactly: a common class, or a few bytes more for
      one that is larger than all of them. */
  lemma PadTargetsExactly(total: nat, target: nat)
    ensures (exists r: nat :: PadSize(total, r) > 0 && total + PadSize(total, r) == target) <==>
            && total < target
            && if total <= 128 then 128 <= target <= 383
               else if total <= 512 then 512 <= target <= 767
               else if total <= 1500 then 1500 <= target <= 1999
               else target <= total + 63
  {
    var r: int := if total <= 128 then target - 128
                  else if total <= 512 then target - 512
                  else if total <= 1500 then target - 1500
                  else target - total - 1;
    if 0 <= r < if total <= 512 then 256 else if total <= 1500 then 500 else 63 {
      PadDraw(total, r);
    }
  }

  /** A draw within its range is used as it is. */
  lemma PadDraw(total: nat, r: nat)
    requires r < if total <= 512 then 256 else if total <= 1500 then 500 else 63
    ensures var target := if total <= 128 then 128 + r
                          else if total <= 512 then 512 + r
                          else if total <= 1500 then 1500 + r
                          else total + 1 + r;
            PadSize(total, r) == if target <= total then 0 else target - total
  {
  }

  /** The sizes that a flush may pad a record of `total` bytes towards: those of PadTargetsExactly for which the padding
      frame with its header still fits the budget. */
  lemma PadFrameExactly(total: nat, budget: int, target: nat)
    requires 0 < budget <= MAX_READ_PLAINTEXT
    ensures (exists c: Choice :: Pads(total, budget, c, target)) <==>
            target + 3 <= budget && exists r: nat :: PadSize(total, r) > 0 && total + PadSize(total, r) == target
  {
    if c: Choice :| Pads(total, budget, c, target) {
      assert PadSize(total, c.r) > 0;
    }
    if r: nat :| target + 3 <= budget && PadSize(total, r) > 0 && total + PadSize(total, r) == target {
      assert Pads(total, budget, Choice(r, n => 0), target);
    }
  }

  /** With the choice `c` the payload of the padding frame lifts `total` to `target`. */
  predicate Pads(total: nat, budget: int, c: Choice, target: nat) {
    PadFrame(total, budget, c).Some? && total + |PadFrame(total, budget, c).value.payload| == target
  }

  // ---------------------------------------------------------------- critical sections

  datatype Result = Accepted | ErrClosed | ErrWriter | ErrTooLarge

  /** The fields of batchShaper that outlive a critical section, and what the RecordWriter has taken. */
  datatype Core = Core(plaintext: Bytes, writeSeq: nat, writeNext: nat, closing: bool, writeClosed: bool, failed: bool,
                       wire: seq<Bytes>)

  /** How a section that holds `mu` ends: by returning, or by releasing `mu` with a record to write. */
  datatype Exit = Return(res: Result) | Write(seqNo: nat, data: Bytes)

  /** What appendFrameLocked does with a frame before any I/O. */
  datatype Plan = Reject(res: Result) | Preflush | Append

  function Size(f: Frame): nat {
    HEADER_SIZE + |f.payload|
  }

  /** PushData, PushFrame and, with `cover`, injectCoverFrame up to the first release of `mu`. */
  function PlanPush(c: Core, f: Frame, cover: bool): Plan {
    if c.closing then Reject(if cover then Accepted else ErrClosed)
    else if c.failed then Reject(if cover then Accepted else ErrWriter)
    else if |f.payload| > MAX_UINT16 || Size(f) > CEILING then Reject(ErrTooLarge)
    else if c.plaintext != [] && |c.plaintext| + Size(f) > CEILING then Preflush
    else Append
  }

  /** The record swapped out of a non-empty buffer. */
  function Swapped(plaintext: Bytes, choice: Choice): Bytes {
    match PadFrame(|plaintext|, CEILING, choice)
    case None => plaintext
    case Some(pad) => AppendFrame(plaintext, pad)
  }

  /** flushLocked and the allocation of the sequence number, one section in flushAndWrite. */
  function FlushSection(c: Core, choice: Choice): (Core, Exit) {
    if c.plaintext == [] then (c, Return(Accepted))
    else (c.(plaintext := [], writeSeq := c.writeSeq + 1), Write(c.writeSeq, Swapped(c.plaintext, choice)))
  }

  /** The second half of appendFrameLocked: append without another size test, flush at the threshold. */
  function AppendSection(c: Core, f: Frame, choice: Choice): (Core, Exit) {
    var c' := c.(plaintext := AppendFrame(c.plaintext, f));
    if |c'.plaintext| >= FLUSH_THRESHOLD then FlushSection(c', choice) else (c', Return(Accepted))
  }

  function PushSection(c: Core, f: Frame, cover: bool, choice: Choice): (Core, Exit) {
    match PlanPush(c, f, cover)
    case Reject(res) => (c, Return(res))
    case Preflush => FlushSection(c, choice)
    case Append => AppendSection(c, f, choice)
  }

  /** How writeRecordInOrder ended. */
  datatype Outcome = Written | Failed | Dropped

  /** flushAndWrite taking `mu` again: a failed write poisons the shaper, a dropped one only reports. */
  function Relocked(c: Core, o: Outcome): Core {
    if o == Failed then c.(failed := true) else c
  }

  function OutcomeResult(o: Outcome): Result {
    match o case Written => Accepted case Failed => ErrWriter case Dropped => ErrClosed
  }

  /** The pre-flushing push that comes back for its frame. */
  function ResumeSection(c: Core, f: Frame, o: Outcome, choice: Choice): (Core, Exit) {
    var c' := Relocked(c, o);
    if o != Written then (c', Return(OutcomeResult(o)))
    else if c'.closing then (c', Return(ErrClosed))
    else AppendSection(c', f, choice)
  }

  /** One turn of writeRecordInOrder, entered with `seq == writeNext`. */
  function WriteSection(c: Core, data: Bytes, writerOk: bool): (Core, Outcome) {
    var c' := c.(writeNext := c.writeNext + 1);
    if c.writeClosed then (c', Dropped)
    else if writerOk && |data| <= MAX_WRITE_PLAINTEXT then (c'.(wire := c.wire + [data]), Written)
    else (c', Failed)
  }

  /** batchShaper itself. Each method is one critical section; `mu` is free between them. */
  class BatchShaper {
    var plaintext: Bytes
    var writeSeq: nat
    var writeNext: nat
    var closing: bool
    var writeClosed: bool
    var failed: bool
    var wire: seq<Bytes>

    ghost function View(): Core
      reads this
    {
      Core(plaintext, writeSeq, writeNext, closing, writeClosed, failed, wire)
    }

    constructor ()
      ensures View() == Core([], 0, 0, false, false, false, [])
    {
      plaintext, writeSeq, writeNext := [], 0, 0;
      closing, writeClosed, failed := false, false, false;
      wire := [];
    }

    method Push(f: Frame, cover: bool, choice: Choice) returns (e: Exit)
      modifies this
      ensures (View(), e) == PushSection(old(View()), f, cover, choice)
    {
      if closing {
        return Return(if cover then Accepted else ErrClosed);
      }
      if failed {
        return Return(if cover then Accepted else ErrWriter);
      }
      var frameSize := HEADER_SIZE + |f.payload|;
      if |f.payload| > MAX_UINT16 || frameSize > CEILING {
        return Return(ErrTooLarge);
      }
      if |plaintext| > 0 && |plaintext| + frameSize > CEILING {
        e := Flush(choice);
        return;
      }
      e := AppendFrameTail(f, choice);
    }

    method Resume(f: Frame, o: Outcome, choice: Choice) returns (e: Exit)
      modifies this
      ensures (View(), e) == ResumeSection(old(View()), f, o, choice)
    {
      match o {
        case Dropped => return Return(ErrClosed);
        case Failed =>
          failed := true;
          return Return(ErrWriter);
        case Written =>
      }
      if closing {
        return Return(ErrClosed);
      }
      e := AppendFrameTail(f, choice);
    }

    method AppendFrameTail(f: Frame, choice: Choice) returns (e: Exit)
      modifies this
      ensures (View(), e) == AppendSection(old(View()), f, choice)
    {
      plaintext := AppendFrame(plaintext, f);
      if |plaintext| >= FLUSH_THRESHOLD {
        e := Flush(choice);
        return;
      }
      e := Return(Accepted);
    }

    method Flush(choice: Choice) returns (e: Exit)
      modifies this
      ensures (View(), e) == FlushSection(old(View()), choice)
    {
      if |plaintext| == 0 {
        return Return(Accepted);
      }
      var data := plaintext;
      var pad := PadFrame(|plaintext|, CEILING, choice);
      if pad.Some? {
        data := AppendFrame(data, pad.value);
      }
      plaintext := [];
      e := Write(writeSeq, data);
      writeSeq := writeSeq + 1;
    }

    method WriteRecordInOrder(data: Bytes, writerOk: bool) returns (o: Outcome)
      modifies this
      ensures (View(), o) == WriteSection(old(View()), data, writerOk)
    {
      if writeClosed {
        o := Dropped;
      } else if writerOk && |data| <= MAX_WRITE_PLAINTEXT {
        wire := wire + [data];
        o := Written;
      } else {
        o := Failed;
      }
      writeNext := writeNext + 1;
    }
  }
}
