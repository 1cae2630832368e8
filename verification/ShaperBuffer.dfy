/** The shaper over pooled buffers, for calls that do not overlap (shaper/batch.go). It does what the critical sections
    do on plain byte strings, and keeps its buffers within the pool. */
module ShaperBuffer {
  import opened Options
  import opened Protocol
  import opened Shaper
  import opened Powers
  import opened BytesPool

  // ---------------------------------------------------------------- one call after the other

  /** flushAndWrite with nobody in between. */
  function FlushWhole(c: Core, choice: Choice, writerOk: bool): (Core, Result) {
    var (c1, e) := FlushSection(c, choice);
    if e.Return? then (c1, e.res)
    else
      var (c2, o) := WriteSection(c1, e.data, writerOk);
      (Relocked(c2, o), OutcomeResult(o))
  }

  function AppendWhole(c: Core, f: Frame, choice: Choice, writerOk: bool): (Core, Result) {
    var c' := c.(plaintext := AppendFrame(c.plaintext, f));
    if |c'.plaintext| >= FLUSH_THRESHOLD then FlushWhole(c', choice, writerOk) else (c', Accepted)
  }

  /** The random choices and the writer's answers that one push may use: first for a pre-flush, then for a flush at the
      threshold. */
  datatype Luck = Luck(pre: Choice, preOk: bool, post: Choice, postOk: bool)

  function PushWhole(c: Core, f: Frame, cover: bool, luck: Luck): (Core, Result) {
    match PlanPush(c, f, cover)
    case Reject(res) => (c, res)
    case Preflush =>
      var (c1, r) := FlushWhole(c, luck.pre, luck.preOk);
      if r != Accepted then (c1, r)
      else if c1.closing then (c1, ErrClosed)
      else AppendWhole(c1, f, luck.post, luck.postOk)
    case Append => AppendWhole(c, f, luck.post, luck.postOk)
  }

  /** A whole push is its sections one after the other. */
  lemma PushWholeIsSections(c: Core, f: Frame, cover: bool, luck: Luck)
    requires PlanPush(c, f, cover) == Preflush
    ensures var (c1, e) := PushSection(c, f, cover, luck.pre);
            && e.Write?
            && var (c2, o) := WriteSection(c1, e.data, luck.preOk);
               var (c3, e3) := ResumeSection(c2, f, o, luck.post);
               if e3.Return? then PushWhole(c, f, cover, luck) == (c3, e3.res)
               else var (c4, o4) := WriteSection(c3, e3.data, luck.postOk);
                    PushWhole(c, f, cover, luck) == (Relocked(c4, o4), OutcomeResult(o4))
  {
    var (c1, e) := PushSection(c, f, cover, luck.pre);
    var (c2, o) := WriteSection(c1, e.data, luck.preOk);
    var (c3, e3) := ResumeSection(c2, f, o, luck.post);
  }

  // ---------------------------------------------------------------- capacities

  function NewCap(cap: nat, size: nat): nat {
    var twice := if 2 * cap < size then size else 2 * cap;
    var least := if twice < MIN_RECORD_BUFFER then MIN_RECORD_BUFFER else twice;
    if least < MAX_READ_PLAINTEXT then least else MAX_READ_PLAINTEXT
  }

  predicate CapOk(cap: nat) {
    Accepts(cap) && MIN_RECORD_BUFFER <= cap <= MAX_READ_PLAINTEXT
  }

  /** What Get returns for a request between the smallest and the largest record buffer. */
  lemma RequestStaysInRange(request: nat, cap: nat)
    requires MIN_RECORD_BUFFER <= request <= MAX_READ_PLAINTEXT && request <= cap && Accepts(cap)
    requires forall b: nat :: request <= Pow2(b) ==> cap <= Pow2(b)
    ensures CapOk(cap)
  {
    Pow2Values();
  }

  // ---------------------------------------------------------------- cover payloads

  /** What putPooledPayload gives back: a non-empty payload whose capacity is a class. */
  function Returned(payload: Buf, len: nat): set<Buf> {
    if len > 0 && Accepts(payload.cap) then {payload} else {}
  }

  function Back(payload: Option<Buf>, len: nat): set<Buf> {
    if payload.Some? then Returned(payload.value, len) else {}
  }

  /** While the shaper is open it treats cover frames like others. */
  lemma PlanIgnoresCover(c: Core, f: Frame, luck: Luck)
    requires !c.closing && !c.failed
    ensures PushWhole(c, f, false, luck) == PushWhole(c, f, true, luck)
  {
  }

  // ---------------------------------------------------------------- the shaper object

  class PooledShaper {
    const alloc: Allocator
    var buf: Option<Buf>  // None is the nil buffer that Close leaves
    var plaintext: Bytes
    var writeSeq: nat
    var writeNext: nat
    var closing: bool
    var writeClosed: bool
    var failed: bool
    var wire: seq<Bytes>
    var reallocated: bool  // AppendFrame had to leave the pool

    ghost function View(): Core
      reads this
    {
      Core(plaintext, writeSeq, writeNext, closing, writeClosed, failed, wire)
    }

    ghost predicate Valid()
      reads this, alloc
    {
      && alloc.Valid() && !reallocated && (!closing ==> buf.Some?)
      && (buf.Some? ==> buf.value in alloc.lent && CapOk(buf.value.cap) && |plaintext| <= buf.value.cap)
      && |plaintext| <= CEILING && (buf == None ==> plaintext == [])
    }

    ghost function Own(): set<Buf>
      reads this
    {
      if buf.Some? then {buf.value} else {}
    }

    constructor (alloc: Allocator)
      requires alloc.Valid()
      modifies alloc
      ensures Valid() && this.alloc == alloc && View() == Core([], 0, 0, false, false, false, [])
      ensures buf.Some? && buf.value !in old(alloc.lent) && alloc.lent == old(alloc.lent) + {buf.value}
    {
      var b := alloc.Get(MIN_RECORD_BUFFER);
      RequestStaysInRange(MIN_RECORD_BUFFER, b.value.cap);
      this.alloc, buf, plaintext, reallocated := alloc, b, [], false;
      writeSeq, writeNext, closing, writeClosed, failed, wire := 0, 0, false, false, false, [];
    }

    /** growLocked: the contents move to a larger buffer and the old one goes back. */
    method Grow(size: nat)
      requires Valid() && buf.Some? && buf.value.cap < size <= CEILING
      modifies this`buf, this`plaintext, alloc
      ensures Valid() && View() == old(View()) && buf.Some? && buf.value.cap >= size
      ensures alloc.lent == old(alloc.lent) - old(Own()) + Own() && buf.value !in old(alloc.lent)
    {
      var newCap := NewCap(buf.value.cap, size);
      var bigger := alloc.Get(newCap);
      RequestStaysInRange(newCap, bigger.value.cap);
      var n := if |plaintext| < newCap then |plaintext| else newCap;
      var kept := plaintext[..n];
      alloc.LentIsOut(buf.value);
      var ok := alloc.Put(buf.value);
      assert ok && kept == plaintext;
      buf, plaintext := bigger, kept;
    }

    method EnsureCapacity(size: nat)
      requires Valid() && buf.Some? && size <= CEILING
      modifies this`buf, this`plaintext, alloc
      ensures Valid() && View() == old(View()) && buf.Some? && buf.value.cap >= size
      ensures alloc.lent == old(alloc.lent) - old(Own()) + Own() && Own() * (old(alloc.lent) - old(Own())) == {}
    {
      if buf.value.cap >= size {
        return;
      }
      Grow(size);
    }

    /** AppendFrame on the buffer: it allocates its own memory exactly when the capacity does not suffice. */
    method Append(f: Frame)
      requires buf.Some?
      modifies this`plaintext, this`reallocated
      ensures plaintext == AppendFrame(old(plaintext), f)
      ensures reallocated == (old(reallocated) || buf.value.cap < |plaintext|)
    {
      plaintext := AppendFrame(plaintext, f);
      if buf.value.cap < |plaintext| {
        reallocated := true;
      }
    }

    /** flushLocked: the padded record and its buffer leave, a fresh smallest buffer takes over. */
    method FlushLocked(choice: Choice) returns (data: Bytes, out: Buf)
      requires Valid() && plaintext != []
      modifies this`buf, this`plaintext, this`reallocated, alloc
      ensures Valid() && View() == old(View()).(plaintext := []) && buf.Some?
      ensures data == Swapped(old(plaintext), choice) && Accepts(out.cap) && out in alloc.lent && out != buf.value
      ensures alloc.lent == old(alloc.lent) - old(Own()) + {out} + Own()
      ensures ({out} + Own()) * (old(alloc.lent) - old(Own())) == {}
    {
      var pad := PadFrame(|plaintext|, CEILING, choice);
      if pad.Some? {
        PadFits(|plaintext|, CEILING, choice);
        EnsureCapacity(|plaintext| + HEADER_SIZE + |pad.value.payload|);
        Append(pad.value);
      }
      data, out := plaintext, buf.value;
      var b := alloc.Get(MIN_RECORD_BUFFER);
      RequestStaysInRange(MIN_RECORD_BUFFER, b.value.cap);
      buf, plaintext := b, [];
    }

    /** writeRecordInOrder when it is its own turn, and the bookkeeping after it. */
    method WriteOut(data: Bytes, writerOk: bool) returns (r: Result)
      modifies this`wire, this`writeNext, this`failed
      ensures (View(), r) == var (c, o) := WriteSection(old(View()), data, writerOk); (Relocked(c, o), OutcomeResult(o))
    {
      if writeClosed {
        r := ErrClosed;
      } else if writerOk && |data| <= MAX_WRITE_PLAINTEXT {
        wire := wire + [data];
        r := Accepted;
      } else {
        r := ErrWriter;
        failed := true;
      }
      writeNext := writeNext + 1;
    }

    method FlushAndWrite(choice: Choice, writerOk: bool) returns (r: Result)
      requires Valid()
      modifies this, alloc
      ensures Valid() && (View(), r) == FlushWhole(old(View()), choice, writerOk)
      ensures alloc.lent == old(alloc.lent) - old(Own()) + Own() && Own() * (old(alloc.lent) - old(Own())) == {}
      ensures old(buf).Some? ==> buf.Some?
    {
      if |plaintext| == 0 {
        return Accepted;
      }
      var data, out := FlushLocked(choice);
      writeSeq := writeSeq + 1;
      r := WriteOut(data, writerOk);
      alloc.LentIsOut(out);
      var ok := alloc.Put(out);
      assert ok;
    }

    /** putPooledPayload: only what the pool can have handed out goes back, and then MustPut cannot panic. */
    method PutPooledPayload(payload: Buf, len: nat)
      requires Valid() && payload in alloc.lent && payload !in Own() && len <= payload.cap
      modifies alloc
      ensures Valid() && alloc.lent == old(alloc.lent) - Returned(payload, len)
    {
      if len > 0 && payload.cap <= MAX_SIZE && OneBit(payload.cap) {
        OneBitIsPow2(payload.cap);
        alloc.LentIsOut(payload);
        var ok := alloc.Put(payload);
        assert ok;
      } else if len > 0 {
        OneBitIsPow2(payload.cap);
      }
    }

    /** appendFrameLocked from the capacity check on; a pooled payload goes back once its bytes are copied. */
    method AppendTail(f: Frame, payload: Option<Buf>, choice: Choice, writerOk: bool) returns (r: Result)
      requires Valid() && buf.Some? && |plaintext| + Size(f) <= CEILING && Lent(payload, |f.payload|)
      modifies this, alloc
      ensures Valid() && (View(), r) == AppendWhole(old(View()), f, choice, writerOk) && buf.Some?
      ensures Own() * (old(alloc.lent) - old(Own()) - Back(payload, |f.payload|)) == {}
      ensures alloc.lent == old(alloc.lent) - old(Own()) - Back(payload, |f.payload|) + Own()
    {
      EnsureCapacity(|plaintext| + Size(f));
      Append(f);
      if payload.Some? {
        PutPooledPayload(payload.value, |f.payload|);
      }
      if |plaintext| >= FLUSH_THRESHOLD {
        r := FlushAndWrite(choice, writerOk);
        return;
      }
      r := Accepted;
    }

    /** The payload, if any, is lent to the caller and apart from the shaper's own buffer. */
    ghost predicate Lent(payload: Option<Buf>, len: nat)
      reads this, alloc
    {
      payload.Some? ==> payload.value in alloc.lent && payload.value !in Own() && len <= payload.value.cap
    }

    /** appendFrameLocked: on every path, refusal and failure included, a pooled payload goes back exactly once; a
        second Put of it would break the precondition of Put. */
    method AppendFrameLocked(f: Frame, payload: Option<Buf>, luck: Luck) returns (r: Result)
      requires Valid() && buf.Some? && !closing && !failed && Lent(payload, |f.payload|)
      modifies this, alloc
      ensures Valid() && (View(), r) == PushWhole(old(View()), f, true, luck)
      ensures Own() * (old(alloc.lent) - old(Own()) - Back(payload, |f.payload|)) == {}
      ensures alloc.lent == old(alloc.lent) - old(Own()) - Back(payload, |f.payload|) + Own()
    {
      if HEADER_SIZE + |f.payload| > CEILING {
        if payload.Some? {
          PutPooledPayload(payload.value, |f.payload|);
        }
        return ErrTooLarge;
      }
      if |plaintext| > 0 && |plaintext| + HEADER_SIZE + |f.payload| > CEILING {
        r := FlushAndWrite(luck.pre, luck.preOk);
        if r != Accepted {
          if payload.Some? {
            PutPooledPayload(payload.value, |f.payload|);
          }
          return;
        }
      }
      r := AppendTail(f, payload, luck.post, luck.postOk);
    }

    /** PushData, or PushFrame with a frame that is not COVER, without interference: exactly one pooled buffer stays
        with the shaper, within the class limits and never reallocated. */
    method Push(f: Frame, luck: Luck) returns (r: Result)
      requires Valid()
      modifies this, alloc
      ensures Valid() && (View(), r) == PushWhole(old(View()), f, false, luck)
      ensures alloc.lent == old(alloc.lent) - old(Own()) + Own() && Own() * (old(alloc.lent) - old(Own())) == {}
    {
      if closing {
        return ErrClosed;
      }
      if failed {
        return ErrWriter;
      }
      if |f.payload| > MAX_UINT16 {
        return ErrTooLarge;
      }
      PlanIgnoresCover(View(), f, luck);
      r := AppendFrameLocked(f, None, luck);
    }

    /** injectCoverFrame without interference: whatever becomes of the frame, its pooled payload is back in the pool,
        from where a later flush may draw it again. */
    method InjectCover(f: Frame, payload: Buf, luck: Luck) returns (r: Result)
      requires Valid() && Lent(Some(payload), |f.payload|)
      modifies this, alloc
      ensures Valid() && (View(), r) == PushWhole(old(View()), f, true, luck)
      ensures Own() * (old(alloc.lent) - old(Own()) - Returned(payload, |f.payload|)) == {}
      ensures alloc.lent == old(alloc.lent) - old(Own()) - Returned(payload, |f.payload|) + Own()
    {
      if closing || failed {
        PutPooledPayload(payload, |f.payload|);
        return Accepted;
      }
      r := AppendFrameLocked(f, Some(payload), luck);
    }

    method Flush(choice: Choice, writerOk: bool) returns (r: Result)
      requires Valid()
      modifies this, alloc
      ensures Valid() && (View(), r) == FlushWhole(old(View()), choice, writerOk)
      ensures alloc.lent == old(alloc.lent) - old(Own()) + Own()
    {
      r := FlushAndWrite(choice, writerOk);
    }

    /** Close: what is pending is written, and the shaper keeps no buffer. A second Close finds nothing to do. */
    method Close(choice: Choice, writerOk: bool) returns (r: Result)
      requires Valid()
      modifies this, alloc
      ensures Valid() && buf == None && alloc.lent == old(alloc.lent) - old(Own())
      ensures (View(), r) == var (c, res) := FlushWhole(old(View()).(closing := true), choice, writerOk);
                             (c.(writeClosed := true), res)
    {
      closing := true;
      r := FlushAndWrite(choice, writerOk);
      writeClosed := true;
      if buf.Some? {
        alloc.LentIsOut(buf.value);
        var ok := alloc.Put(buf.value);
        assert ok;
        buf := None;
      }
    }
  }
}
