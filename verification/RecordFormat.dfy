/** What is on the wire, byte by byte, and what a reader takes from it: nothing that the cipher did not open
    (protocol/frame.go, crypto/counter.go, crypto/record.go, crypto/session.go). */
module RecordFormat {
  import opened Options
  import opened Protocol
  import opened Records

  // ---------------------------------------------------------------- layout

  /** The number that a byte string spells, most significant byte first. */
  function Value(s: Bytes): nat {
    if s == [] then 0 else Value(s[..|s| - 1]) * 256 + s[|s| - 1] as int
  }

  lemma {:induction false} BigEndianSpells(n: nat, k: nat)
    ensures Value(BigEndian(n, k)) == n % Pow256(k)
  {
    if k > 0 {
      BigEndianSpells(n / 256, k - 1);
      LowByte(n, Pow256(k - 1));
      assert BigEndian(n, k)[..k - 1] == BigEndian(n / 256, k - 1);
    }
  }

  /** A nonce is the four prefix bytes and then the record number modulo 2^64 in eight bytes. */
  lemma NonceLayout(prefix: Bytes, i: nat)
    requires |prefix| == 4
    ensures var n := Nonce(prefix, i); |n| == 12 && n[..4] == prefix && Value(n[4..]) == i % TWO_64
  {
    BigEndianSpells(i, 8);
    Pow256Eight();
    assert Nonce(prefix, i)[4..] == BigEndian(i, 8);
  }

  /** A frame is its type, its payload length in two bytes, and its payload. */
  lemma FrameLayout(f: Frame)
    requires |f.payload| <= MAX_UINT16
    ensures var data := AppendFrame([], f);
            && |data| == 3 + |f.payload| && data[0] == f.ftype && data[3..] == f.payload
            && (data[1] as int) * 256 + data[2] as int == |f.payload|
  {
    var data := AppendFrame([], f);
    assert data[3..] == f.payload;
  }

  /** A handshake is version, protocol and cipher, one byte each, and the target. */
  lemma HandshakeLayout(h: Handshake)
    ensures var data := EncodeHandshake(h);
            && |data| == 3 + |h.target| && data[0] == h.version && data[1] == h.proto && data[2] == h.cipher
            && data[3..] == h.target
  {
  }

  /** The length that the first three bytes of a record announce. */
  function LengthOf(input: Bytes): nat
    requires |input| >= 3
  {
    (input[0] as int) * 65536 + (input[1] as int) * 256 + input[2] as int
  }

  /** A record is the length of the ciphertext in three bytes and then the ciphertext under the nonce of its number. */
  lemma RecordLayout(ch: Channel, ctr: nat, plain: Bytes)
    requires Lawful(ch.aead) && |plain| <= MAX_WRITE_PLAINTEXT
    ensures var data := SealRecord(ch, ctr, plain);
            && |data| == 3 + |plain| + TAG_OVERHEAD && LengthOf(data) == |plain| + TAG_OVERHEAD
            && data[3..] == ch.aead.seal(Nonce(ch.prefix, ctr), ch.aad, plain)
  {
    var data := SealRecord(ch, ctr, plain);
    Len3RoundTrip(|plain| + TAG_OVERHEAD);
    assert data[..3] == Len3(|plain| + TAG_OVERHEAD);
  }

  // ---------------------------------------------------------------- reading one record

  /** The stream begins with a whole record of a length that the reader takes. */
  predicate Whole(input: Bytes) {
    |input| >= 3 && 0 < LengthOf(input) <= 65552 && LengthOf(input) <= |input| - 3
  }

  /** The ciphertext of that record, and what follows it. */
  function Body(input: Bytes): Bytes
    requires Whole(input)
  {
    input[3..3 + LengthOf(input)]
  }

  function Beyond(input: Bytes): Bytes
    requires Whole(input)
  {
    input[3 + LengthOf(input)..]
  }

  /** The stream begins with a record that the cipher opens, under the nonce of number `ctr`, to `p`. */
  predicate Opens(ch: Channel, ctr: nat, input: Bytes, p: Bytes) {
    Whole(input) && ch.aead.open(Nonce(ch.prefix, ctr), ch.aad, Body(input)) == Some(p)
  }

  /** One read, exactly: it delivers a plaintext if and only if the cipher opens the whole record at hand to it,
      reports the end if and only if there is nothing, uses a nonce if and only if a whole record was there, and its
      error still matches io.EOF if and only if the stream ends right after a length. */
  lemma ReadRecordExactly(ch: Channel, ctr: nat, input: Bytes, p: Bytes)
    ensures var (r, next, rest) := ReadRecordSpec(ch, ctr, input);
            && (r == Plain(p) <==> Opens(ch, ctr, input, p))
            && (r == Eof <==> input == [])
            && next == (if Whole(input) then ctr + 1 else ctr)
            && (Whole(input) ==> rest == Beyond(input))
            && (r == Broken(true) <==> |input| == 3 && 0 < LengthOf(input) <= 65552)
  {
    if |input| >= 3 {
      assert Val3(input[..3]) == LengthOf(input);
      if Whole(input) {
        assert input[3..][..LengthOf(input)] == Body(input) && input[3..][LengthOf(input)..] == Beyond(input);
      }
    }
  }

  // ---------------------------------------------------------------- reading frames

  /** One ReadFrame, exactly: the next pending frame, or the first frame of a record that the cipher opened. */
  lemma ReadFrameExactly(ch: Channel, st: Reading, f: Frame)
    ensures ReadFrameSpec(ch, st).0 == Got(f) <==>
            if st.pending != [] then f == st.pending[0]
            else exists p :: Opens(ch, st.ctr, st.input, p) && BeginsWith(p, f)
    ensures ReadFrameSpec(ch, st).0 == End <==> st.pending == [] && st.input == []
  {
    if st.pending == [] {
      var r := ReadRecordSpec(ch, st.ctr, st.input).0;
      ReadRecordExactly(ch, st.ctr, st.input, if r.Plain? then r.text else []);
      forall p | Opens(ch, st.ctr, st.input, p)
        ensures r == Plain(p)
      {
        ReadRecordExactly(ch, st.ctr, st.input, p);
      }
    }
  }

  /** `p` decodes to frames of which `f` is the first. */
  predicate BeginsWith(p: Bytes, f: Frame) {
    DecodeFrames(p).Some? && DecodeFrames(p).value != [] && DecodeFrames(p).value[0] == f
  }

  /** Consecutive records, the first under number `ctr`, that the cipher opens to `ps` and after which `rest` is left.
      */
  predicate OpensAll(ch: Channel, ctr: nat, input: Bytes, ps: seq<Bytes>, rest: Bytes)
    decreases |ps|
  {
    if ps == [] then rest == input
    else Opens(ch, ctr, input, ps[0]) && OpensAll(ch, ctr + 1, Beyond(input), ps[1..], rest)
  }

  /** The frames of a list of plaintexts, if all of them decode. */
  function FramesIn(ps: seq<Bytes>): Option<seq<Frame>> {
    if ps == [] then Some([])
    else match (DecodeFrames(ps[0]), FramesIn(ps[1..]))
      case (Some(fs), Some(gs)) => Some(fs + gs)
      case (_, _) => None
  }

  /** From `st` on, `fs` has been delivered and `last` is reached: with those still pending these are the frames that
      were pending and then those of consecutive records, which the cipher opened to `ps`. */
  ghost predicate Delivered(ch: Channel, st: Reading, ps: seq<Bytes>, fs: seq<Frame>, last: Reading) {
    && OpensAll(ch, st.ctr, st.input, ps, last.input) && last.ctr == st.ctr + |ps|
    && FramesIn(ps).Some? && fs + last.pending == st.pending + FramesIn(ps).value
  }

  /** The frame delivered first joins those delivered after it. */
  lemma OneMore(f: Frame, fs: seq<Frame>, left: seq<Frame>, pending: seq<Frame>, later: seq<Frame>)
    requires fs + left == pending + later
    ensures [f] + fs + left == [f] + pending + later == [f] + (pending + later)
  {
    assert [f] + fs + left == [f] + (fs + left);
  }

  lemma PendingDelivered(ch: Channel, st: Reading, ps: seq<Bytes>, fs: seq<Frame>, last: Reading)
    requires st.pending != [] && Delivered(ch, st.(pending := st.pending[1..]), ps, fs, last)
    ensures Delivered(ch, st, ps, [st.pending[0]] + fs, last)
  {
    OneMore(st.pending[0], fs, last.pending, st.pending[1..], FramesIn(ps).value);
    assert [st.pending[0]] + st.pending[1..] == st.pending;
  }

  lemma RecordDeliveredNext(
      ch: Channel, st: Reading, f: Frame, next: Reading, more: seq<Bytes>, fs: seq<Frame>, last: Reading)
      returns (ps: seq<Bytes>)
    requires st.pending == [] && ReadFrameSpec(ch, st) == (Got(f), next) && Delivered(ch, next, more, fs, last)
    ensures Delivered(ch, st, ps, [f] + fs, last)
  {
    ps := OpenedFirst(ch, st, f, next, more);
    OneMore(f, fs, last.pending, next.pending, FramesIn(more).value);
    assert st.pending + FramesIn(ps).value == FramesIn(ps).value;
  }

  /** Whatever bytes are on the stream: the frames that ReadFrame has delivered are, with those still pending, the
      pending ones it began with and then the frames of consecutive records that the cipher opened under consecutive
      numbers. */
  lemma {:induction false} DeliveredWasOpened(ch: Channel, st: Reading, n: nat) returns (ps: seq<Bytes>)
    requires ReadMany(ch, st, n).Some?
    ensures Delivered(ch, st, ps, ReadMany(ch, st, n).value.0, ReadMany(ch, st, n).value.1)
    decreases n
  {
    if n == 0 {
      ps := [];
      assert [] + st.pending == st.pending + [];
    } else {
      var (r, next) := ReadFrameSpec(ch, st);
      ps := DeliveredWasOpened(ch, next, n - 1);
      var (fs, last) := ReadMany(ch, next, n - 1).value;
      if st.pending != [] {
        PendingDelivered(ch, st, ps, fs, last);
      } else {
        ps := RecordDeliveredNext(ch, st, r.f, next, ps, fs, last);
      }
    }
  }

  lemma OpenedFirst(ch: Channel, st: Reading, f: Frame, next: Reading, more: seq<Bytes>) returns (ps: seq<Bytes>)
    requires st.pending == [] && ReadFrameSpec(ch, st) == (Got(f), next) && FramesIn(more).Some?
    ensures |ps| == |more| + 1 && ps[1..] == more && Opens(ch, st.ctr, st.input, ps[0])
    ensures next.ctr == st.ctr + 1 && next.input == Beyond(st.input)
    ensures FramesIn(ps) == Some([f] + (next.pending + FramesIn(more).value))
  {
    var r := ReadRecordSpec(ch, st.ctr, st.input).0;
    ReadRecordExactly(ch, st.ctr, st.input, r.text);
    ps := [r.text] + more;
    FramesInCons(r.text, more, f, next.pending);
  }

  lemma FramesInCons(p: Bytes, more: seq<Bytes>, f: Frame, pending: seq<Frame>)
    requires DecodeFrames(p).Some? && DecodeFrames(p).value != [] && FramesIn(more).Some?
    requires f == DecodeFrames(p).value[0] && pending == DecodeFrames(p).value[1..]
    ensures FramesIn([p] + more) == Some([f] + (pending + FramesIn(more).value))
  {
    var fs, gs := DecodeFrames(p).value, FramesIn(more).value;
    assert ([p] + more)[1..] == more;
    assert fs == [f] + pending;
    assert [f] + (pending + gs) == fs + gs;
  }
}
