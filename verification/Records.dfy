/** Counter nonces, length-prefixed AEAD records and the frame reader above them
    (crypto/counter.go, crypto/record.go, crypto/session.go). */
module Records {
  import opened Options
  import opened Protocol

  const MAX_CIPHER_RECORD := MAX_READ_PLAINTEXT + TAG_OVERHEAD
  const TWO_64 := 0x1_0000_0000_0000_0000

  // ---------------------------------------------------------------- nonces

  function Pow256(k: nat): (p: nat)
    ensures p > 0
  {
    if k == 0 then 1 else 256 * Pow256(k - 1)
  }

  /** The k low bytes of n, most significant first. */
  function BigEndian(n: nat, k: nat): (s: Bytes)
    ensures |s| == k
  {
    if k == 0 then [] else BigEndian(n / 256, k - 1) + [n % 256]
  }

  lemma {:induction false} BigEndianInjective(m: nat, n: nat, k: nat)
    ensures BigEndian(m, k) == BigEndian(n, k) <==> m % Pow256(k) == n % Pow256(k)
  {
    if k > 0 {
      var p := Pow256(k - 1);
      BigEndianInjective(m / 256, n / 256, k - 1);
      LowByte(m, p);
      LowByte(n, p);
      var a, b := BigEndian(m, k), BigEndian(n, k);
      if a == b {
        assert a[..k - 1] == BigEndian(m / 256, k - 1) && b[..k - 1] == BigEndian(n / 256, k - 1);
        assert a[k - 1] == m % 256 && b[k - 1] == n % 256;
      }
    }
  }

  lemma LowByte(m: nat, p: nat)
    requires p > 0
    ensures m % (256 * p) == 256 * ((m / 256) % p) + m % 256
  {
    var q, r := (m / 256) / p, (m / 256) % p;
    assert m / 256 == p * q + r;
    assert m == 256 * (p * q + r) + m % 256;
    DivModUnique(m, 256 * p, q, 256 * r + m % 256);
  }

  lemma ModSucc(i: nat, m: nat)
    requires m > 1
    ensures (i + 1) % m == if i % m + 1 == m then 0 else i % m + 1
  {
    assert i == m * (i / m) + i % m;
    if i % m + 1 == m {
      assert i + 1 == m * (i / m + 1) + 0;
      DivModUnique(i + 1, m, i / m + 1, 0);
    } else {
      DivModUnique(i + 1, m, i / m, i % m + 1);
    }
  }

  lemma DivModUnique(m: nat, d: nat, q: nat, r: nat)
    requires d > 0 && r < d && m == d * q + r
    ensures m % d == r
  {
    var e := m / d - q;
    assert m == d * (m / d) + m % d;
    assert d * e == d * (m / d) - d * q;
    assert d * e == r - m % d;
    MultipleIsFar(d, e);
  }

  lemma MultipleIsFar(d: int, e: int)
    requires d > 0
    ensures e > 0 ==> d * e >= d
    ensures e < 0 ==> d * e <= -d
  {
  }

  lemma Pow256Eight()
    ensures Pow256(8) == TWO_64
  {
    assert Pow256(1) == 256 && Pow256(2) == 0x1_0000 && Pow256(4) == 0x1_0000_0000;
    assert Pow256(6) == 0x1_0000_0000_0000;
  }

  /** The nonce of record number `i` of a direction: 4 prefix bytes and the 64-bit counter. */
  function Nonce(prefix: Bytes, i: nat): Bytes {
    prefix + BigEndian(i, 8)
  }

  /** Two records of one direction share a nonce exactly when their numbers differ by a multiple of 2^64. */
  lemma NonceRepeats(prefix: Bytes, i: nat, j: nat)
    ensures Nonce(prefix, i) == Nonce(prefix, j) <==> i % TWO_64 == j % TWO_64
  {
    Pow256Eight();
    BigEndianInjective(i, j, 8);
    if Nonce(prefix, i) == Nonce(prefix, j) {
      assert Nonce(prefix, i)[|prefix|..] == BigEndian(i, 8);
      assert Nonce(prefix, j)[|prefix|..] == BigEndian(j, 8);
    }
  }

  class CounterNonce {
    const prefix: Bytes
    var ctr: nat           // the uint64, which wraps
    ghost var issued: nat  // how many nonces have been handed out

    ghost predicate Valid()
      reads this
    {
      |prefix| == 4 && ctr == issued % TWO_64
    }

    constructor (prefix: Bytes)
      requires |prefix| == 4
      ensures Valid() && this.prefix == prefix && issued == 0
    {
      this.prefix := prefix;
      ctr, issued := 0, 0;
    }

    method Next() returns (nonce: Bytes)
      requires Valid()
      modifies this
      ensures Valid() && issued == old(issued) + 1
      ensures nonce == Nonce(prefix, old(issued)) && |nonce| == 12
    {
      NonceRepeats(prefix, ctr, issued);
      nonce := prefix + BigEndian(ctr, 8);
      ModSucc(issued, TWO_64);
      ctr, issued := (if ctr + 1 == TWO_64 then 0 else ctr + 1), issued + 1;
    }
  }

  // ---------------------------------------------------------------- AEAD

  /** An authenticated cipher under a fixed key; arguments are nonce, additional data, text. */
  datatype Aead = Aead(seal: (Bytes, Bytes, Bytes) -> Bytes, open: (Bytes, Bytes, Bytes) -> Option<Bytes>)

  /** The only law used of the cipher: opening undoes sealing, and the tag adds 16 bytes. */
  ghost predicate Lawful(a: Aead) {
    forall nonce, aad, text ::
      |a.seal(nonce, aad, text)| == |text| + TAG_OVERHEAD && a.open(nonce, aad, a.seal(nonce, aad, text)) == Some(text)
  }

  /** What writer and reader of one direction share. */
  datatype Channel = Channel(aead: Aead, aad: Bytes, prefix: Bytes)

  function Len3(n: nat): Bytes {
    [n / 65536 % 256, n / 256 % 256, n % 256]
  }

  function Val3(s: Bytes): nat
    requires |s| == CIPHER_LEN_SIZE
  {
    (s[0] as int) * 65536 + (s[1] as int) * 256 + s[2] as int
  }

  lemma Len3RoundTrip(n: nat)
    requires n <= 0xFFFFFF
    ensures Val3(Len3(n)) == n
  {
    assert n / 65536 < 256;
    assert n / 65536 == (n / 256) / 256;
  }

  /** The bytes of record number `ctr`. */
  function SealRecord(ch: Channel, ctr: nat, plain: Bytes): Bytes {
    var ct := ch.aead.seal(Nonce(ch.prefix, ctr), ch.aad, plain);
    Len3(|ct|) + ct
  }

  // ---------------------------------------------------------------- writer

  datatype WriteResult = Written | TooLong | IoFailed

  class RecordWriter {
    const ch: Channel
    const counter: CounterNonce
    var out: Bytes               // what the underlying io.Writer has taken so far
    ghost var sent: seq<Bytes>   // the plaintexts whose WriteRecord returned nil
    ghost var broken: bool       // some write has failed part way

    /** Until a write fails, the stream is the records in order under counters 0, 1, 2, ... */
    ghost predicate Valid()
      reads this, counter
    {
      && counter.Valid() && counter.prefix == ch.prefix
      && (!broken ==> out == Wire(ch, 0, sent) && counter.issued == |sent|)
    }

    constructor (ch: Channel)
      requires |ch.prefix| == 4
      ensures Valid() && fresh(counter) && counter.issued == 0 && this.ch == ch && out == [] && sent == [] && !broken
    {
      this.ch := ch;
      counter := new CounterNonce(ch.prefix);
      out, sent, broken := [], [], false;
    }

    /** `n` and `ioErr` are what the one call of io.Writer.Write reports. An over-long plaintext uses no nonce;
        a failed write does. */
    method WriteRecord(plain: Bytes, n: nat, ioErr: bool) returns (r: WriteResult)
      requires Valid() && Lawful(ch.aead)
      modifies this, counter
      ensures Valid()
      ensures r == Written ==> sent == old(sent) + [plain] && broken == old(broken)
      ensures r == TooLong ==> sent == old(sent) && broken == old(broken)
      ensures |plain| > MAX_WRITE_PLAINTEXT ==> r == TooLong && out == old(out) && counter.issued == old(counter.issued)
      ensures |plain| <= MAX_WRITE_PLAINTEXT ==>
                && counter.issued == old(counter.issued) + 1
                && var rec := SealRecord(ch, old(counter.issued), plain);
                && out == old(out) + (if n < |rec| then rec[..n] else rec)
                && (r == Written <==> !ioErr && n == |rec|) && r != TooLong
    {
      if |plain| > MAX_WRITE_PLAINTEXT {
        return TooLong;
      }
      var nonce := counter.Next();
      var cipherLen := |plain| + TAG_OVERHEAD;
      var ciphertext := ch.aead.seal(nonce, ch.aad, plain);
      var rec := Len3(cipherLen) + ciphertext;
      out := out + if n < |rec| then rec[..n] else rec;
      if ioErr || n != |rec| {
        broken := true;
        return IoFailed;
      }
      WireSnoc(ch, 0, sent, plain);
      sent := sent + [plain];
      r := Written;
    }
  }

  // ---------------------------------------------------------------- reader

  /** `eof` says whether the error still matches io.EOF, as when the stream ends right after a length. */
  datatype ReadResult = Plain(text: Bytes) | Eof | Broken(eof: bool)

  /** One ReadRecord call: its result, the next counter and the bytes left on the stream. */
  function ReadRecordSpec(ch: Channel, ctr: nat, input: Bytes): (ReadResult, nat, Bytes) {
    if input == [] then (Eof, ctr, input)
    else if |input| < CIPHER_LEN_SIZE then (Broken(false), ctr, [])
    else
      var n := Val3(input[..CIPHER_LEN_SIZE]);
      var rest := input[CIPHER_LEN_SIZE..];
      if n == 0 || n > MAX_CIPHER_RECORD then (Broken(false), ctr, rest)
      else if n > |rest| then (Broken(rest == []), ctr, [])
      else
        var r := match ch.aead.open(Nonce(ch.prefix, ctr), ch.aad, rest[..n])
                 case None => Broken(false)
                 case Some(p) => Plain(p);
        (r, ctr + 1, rest[n..])
  }

  /** A reader with counter `ctr` opens exactly the record that a writer with the same counter sealed. */
  lemma RecordRoundTrip(ch: Channel, ctr: nat, plain: Bytes, rest: Bytes)
    requires Lawful(ch.aead) && |plain| <= MAX_WRITE_PLAINTEXT
    ensures ReadRecordSpec(ch, ctr, SealRecord(ch, ctr, plain) + rest) == (Plain(plain), ctr + 1, rest)
  {
    var ct := ch.aead.seal(Nonce(ch.prefix, ctr), ch.aad, plain);
    var input := SealRecord(ch, ctr, plain) + rest;
    Len3RoundTrip(|ct|);
    assert input[..CIPHER_LEN_SIZE] == Len3(|ct|);
    assert input[CIPHER_LEN_SIZE..] == ct + rest;
    assert (ct + rest)[..|ct|] == ct && (ct + rest)[|ct|..] == rest;
  }

  method ReadRecord(ch: Channel, counter: CounterNonce, input: Bytes) returns (r: ReadResult, rest: Bytes)
    requires counter.Valid() && counter.prefix == ch.prefix
    modifies counter
    ensures counter.Valid()
    ensures (r, counter.issued, rest) == ReadRecordSpec(ch, old(counter.issued), input)
  {
    if input == [] {
      return Eof, input;
    }
    if |input| < CIPHER_LEN_SIZE {
      return Broken(false), [];
    }
    var cipherLen := Val3(input[..CIPHER_LEN_SIZE]);
    rest := input[CIPHER_LEN_SIZE..];
    if cipherLen == 0 || cipherLen > MAX_CIPHER_RECORD {
      return Broken(false), rest;
    }
    if cipherLen > |rest| {
      return Broken(rest == []), [];
    }
    var nonce := counter.Next();
    var plaintext := ch.aead.open(nonce, ch.aad, rest[..cipherLen]);
    rest := rest[cipherLen..];
    r := match plaintext case None => Broken(false) case Some(p) => Plain(p);
  }

  datatype FrameResult = Got(f: Frame) | End | Failed(eof: bool)

  /** The abstract state of a DecryptedReader: undelivered frames, counter, remaining stream. */
  datatype Reading = Reading(pending: seq<Frame>, ctr: nat, input: Bytes)

  function ReadFrameSpec(ch: Channel, st: Reading): (FrameResult, Reading) {
    if st.pending != [] then (Got(st.pending[0]), st.(pending := st.pending[1..]))
    else
      var (r, ctr, input) := ReadRecordSpec(ch, st.ctr, st.input);
      var next := Reading([], ctr, input);
      match r
      case Eof => (End, next)
      case Broken(eof) => (Failed(eof), next)
      case Plain(text) =>
        match DecodeFrames(text)
        case None => (Failed(false), next)
        case Some(fs) => if fs == [] then (Failed(false), next) else (Got(fs[0]), next.(pending := fs[1..]))
  }

  class DecryptedReader {
    const ch: Channel
    const counter: CounterNonce
    var input: Bytes
    // Undelivered frames are frames[lo..hi]; frameBuf is the reusable backing array, often the same object.
    var frames: array<Frame>
    var lo: nat
    var hi: nat
    var frameBuf: array<Frame>

    ghost predicate Valid()
      reads this, counter
    {
      lo <= hi <= frames.Length && counter.Valid() && counter.prefix == ch.prefix
    }

    ghost function State(): Reading
      reads this, counter, frames
      requires Valid()
    {
      Reading(frames[lo..hi], counter.issued, input)
    }

    constructor (ch: Channel, input: Bytes)
      requires |ch.prefix| == 4
      ensures Valid() && State() == Reading([], 0, input)
      ensures this.ch == ch && fresh(counter) && fresh(frames) && fresh(frameBuf)
    {
      this.ch := ch;
      counter := new CounterNonce(ch.prefix);
      this.input := input;
      frames, lo, hi := new Frame[0], 0, 0;
      frameBuf := new Frame[8](_ => Frame(0, 0, []));
    }

    method SetLeftoverFrames(leftover: array<Frame>)
      requires Valid()
      modifies this`frames, this`lo, this`hi
      ensures Valid() && State() == old(State()).(pending := leftover[..])
    {
      frames, lo, hi := leftover, 0, leftover.Length;
    }

    /** Delivers frames in stream order although decoding overwrites the array that earlier frames lived in:
        the array is only reused once nothing in it is undelivered. */
    method ReadFrame() returns (r: FrameResult)
      requires Valid()
      modifies this, counter, frameBuf
      ensures Valid()
      ensures (r, State()) == ReadFrameSpec(ch, old(State()))
      ensures frameBuf == old(frameBuf) || fresh(frameBuf)
      ensures frames == old(frames) || frames == frameBuf
    {
      if lo < hi {
        r := Got(frames[lo]);
        lo := lo + 1;
        return;
      }
      var rec, rest := ReadRecord(ch, counter, input);
      input := rest;
      match rec {
        case Eof => r := End;
        case Broken(eof) => r := Failed(eof);
        case Plain(text) =>
          var arr, n, ok := DecodeFramesIntoBuf(text, frameBuf);
          if !ok || n == 0 {
            assert frames[lo..hi] == [] && (ok ==> arr[..n] == []);
            r := Failed(false);
            return;
          }
          frameBuf := arr;
          frames, lo, hi := arr, 1, n;
          r := Got(arr[0]);
      }
    }
  }

  /** Decodes into `buf` from index 0; when it is full the frames move to a larger array, as append does. */
  method DecodeFramesIntoBuf(plaintext: Bytes, buf: array<Frame>) returns (arr: array<Frame>, n: nat, ok: bool)
    modifies buf
    ensures n <= arr.Length && (arr == buf || fresh(arr))
    ensures ok <==> DecodeFrames(plaintext).Some?
    ensures ok ==> arr[..n] == DecodeFrames(plaintext).value
  {
    arr, n, ok := buf, 0, true;
    var rest := plaintext;
    PrependNothing(DecodeFrames(plaintext));
    while rest != []
      invariant n <= arr.Length && (arr == buf || fresh(arr))
      invariant DecodeFrames(plaintext) == Prepend(arr[..n], DecodeFrames(rest))
      decreases |rest|
    {
      var d := DecodeFrame(rest);
      if d.None? {
        return arr, n, false;
      }
      var (f, size) := d.value;
      ghost var done := arr[..n];
      DecodeOneMore(done, rest);
      if n == arr.Length {
        arr := Grown(arr);
      }
      arr[n] := f;
      n := n + 1;
      assert arr[..n] == done + [f];
      rest := rest[size..];
    }
  }

  function Prepend(done: seq<Frame>, r: Option<seq<Frame>>): Option<seq<Frame>> {
    match r case None => None case Some(fs) => Some(done + fs)
  }

  lemma PrependNothing(r: Option<seq<Frame>>)
    ensures Prepend([], r) == r
  {
    assert r.Some? ==> [] + r.value == r.value;
  }

  lemma DecodeOneMore(done: seq<Frame>, rest: Bytes)
    requires rest != []
    ensures DecodeFrame(rest).None? ==> Prepend(done, DecodeFrames(rest)) == None
    ensures DecodeFrame(rest).Some? ==>
              var (f, n) := DecodeFrame(rest).value;
              Prepend(done, DecodeFrames(rest)) == Prepend(done + [f], DecodeFrames(rest[n..]))
  {
    if DecodeFrame(rest).Some? {
      var (f, n) := DecodeFrame(rest).value;
      if DecodeFrames(rest[n..]).Some? {
        var fs := DecodeFrames(rest[n..]).value;
        assert done + ([f] + fs) == (done + [f]) + fs;
      }
    }
  }

  method Grown(arr: array<Frame>) returns (bigger: array<Frame>)
    ensures fresh(bigger) && bigger.Length > arr.Length && bigger[..arr.Length] == arr[..]
  {
    bigger := new Frame[2 * arr.Length + 1](_ => Frame(0, 0, []));
    forall i | 0 <= i < arr.Length {
      bigger[i] := arr[i];
    }
  }

  // ---------------------------------------------------------------- whole streams

  /** The stream after sealing `records` in order, the first under counter `ctr`. */
  function Wire(ch: Channel, ctr: nat, records: seq<Bytes>): Bytes
    decreases |records|
  {
    if records == [] then []
    else SealRecord(ch, ctr, records[0]) + Wire(ch, ctr + 1, records[1..])
  }

  lemma {:induction false} WireSnoc(ch: Channel, ctr: nat, records: seq<Bytes>, last: Bytes)
    ensures Wire(ch, ctr, records + [last]) == Wire(ch, ctr, records) + SealRecord(ch, ctr + |records|, last)
    decreases |records|
  {
    if records == [] {
      assert Wire(ch, ctr, [last]) == SealRecord(ch, ctr, last);
    } else {
      assert (records + [last])[1..] == records[1..] + [last];
      WireSnoc(ch, ctr + 1, records[1..], last);
    }
  }

  /** `n` successive ReadFrame calls, None unless each delivers a frame. */
  function ReadMany(ch: Channel, st: Reading, n: nat): Option<(seq<Frame>, Reading)>
    decreases n
  {
    if n == 0 then Some(([], st))
    else match ReadFrameSpec(ch, st)
      case (Got(f), next) =>
        (match ReadMany(ch, next, n - 1)
         case None => None
         case Some((fs, last)) => Some(([f] + fs, last)))
      case (_, _) => None
  }

  lemma {:induction false} ReadManySplit(ch: Channel, st: Reading, m: nat, n: nat)
    requires ReadMany(ch, st, m).Some?
    ensures var (fs, mid) := ReadMany(ch, st, m).value;
            ReadMany(ch, st, m + n) == match ReadMany(ch, mid, n)
                                       case None => None
                                       case Some((gs, last)) => Some((fs + gs, last))
    decreases m
  {
    if m > 0 {
      var (r, next) := ReadFrameSpec(ch, st);
      ReadManySplit(ch, next, m - 1, n);
      var (fs, mid) := ReadMany(ch, next, m - 1).value;
      if ReadMany(ch, mid, n).Some? {
        var gs := ReadMany(ch, mid, n).value.0;
        assert [r.f] + (fs + gs) == ([r.f] + fs) + gs;
      }
    } else {
      assert forall gs: seq<Frame> :: [] + gs == gs;
    }
  }

  lemma {:induction false} ReadPending(ch: Channel, st: Reading)
    ensures ReadMany(ch, st, |st.pending|) == Some((st.pending, st.(pending := [])))
    decreases |st.pending|
  {
    if st.pending != [] {
      ReadPending(ch, st.(pending := st.pending[1..]));
      assert [st.pending[0]] + st.pending[1..] == st.pending;
    } else {
      assert st == st.(pending := []);
    }
  }

  function Flatten<T>(xs: seq<seq<T>>): seq<T> {
    if xs == [] then [] else xs[0] + Flatten(xs[1..])
  }

  lemma {:induction false} FlattenSnoc<T>(xs: seq<seq<T>>, x: seq<T>)
    ensures Flatten(xs + [x]) == Flatten(xs) + x
  {
    if xs == [] {
      assert xs + [x] == [x] && Flatten([x]) == x + Flatten<T>([]);
    } else {
      assert (xs + [x])[1..] == xs[1..] + [x];
      FlattenSnoc(xs[1..], x);
    }
  }

  /** Records that carry at least one frame each and that WriteRecord accepts. */
  ghost predicate Sendable(records: seq<Bytes>, contents: seq<seq<Frame>>) {
    |records| == |contents| &&
    forall i :: 0 <= i < |records| ==>
      contents[i] != [] && DecodeFrames(records[i]) == Some(contents[i]) && |records[i]| <= MAX_WRITE_PLAINTEXT
  }

  /** The frame stream that comes out is the frame stream that went in, whatever bytes follow it, and both
      counters have then advanced by the number of records. */
  lemma StreamRoundTrip(ch: Channel, ctr: nat, records: seq<Bytes>, contents: seq<seq<Frame>>, rest: Bytes)
    requires Lawful(ch.aead) && Sendable(records, contents)
    ensures Delivers(ch, Reading([], ctr, Wire(ch, ctr, records) + rest), Flatten(contents),
              Reading([], ctr + |records|, rest))
  {
    var states := seq(|records| + 1, i requires 0 <= i <= |records| => Between(ch, ctr, records, rest, i));
    forall i | 0 <= i < |records|
      ensures Delivers(ch, states[i], contents[i], states[i + 1])
    {
      RecordDelivered(ch, ctr, records, contents, rest, i);
    }
    ReadChain(ch, states, contents);
    BetweenEnds(ch, ctr, records, rest);
  }

  lemma BetweenEnds(ch: Channel, ctr: nat, records: seq<Bytes>, rest: Bytes)
    ensures Between(ch, ctr, records, rest, 0) == Reading([], ctr, Wire(ch, ctr, records) + rest)
    ensures Between(ch, ctr, records, rest, |records|) == Reading([], ctr + |records|, rest)
  {
    assert records[0..] == records;
    assert Wire(ch, ctr + |records|, records[|records|..]) + rest == rest;
  }

  lemma RecordDelivered(ch: Channel, ctr: nat, records: seq<Bytes>, contents: seq<seq<Frame>>, rest: Bytes, i: nat)
    requires Lawful(ch.aead) && Sendable(records, contents) && i < |records|
    ensures Delivers(ch, Between(ch, ctr, records, rest, i), contents[i], Between(ch, ctr, records, rest, i + 1))
  {
    BetweenStep(ch, ctr, records, rest, i);
    ReadOneRecord(ch, Between(ch, ctr, records, rest, i), records[i], contents[i],
        Between(ch, ctr, records, rest, i + 1).input);
  }

  /** The reader's state once the first `i` records are delivered. */
  function Between(ch: Channel, ctr: nat, records: seq<Bytes>, rest: Bytes, i: nat): Reading
    requires i <= |records|
  {
    Reading([], ctr + i, Wire(ch, ctr + i, records[i..]) + rest)
  }

  /** Successive ReadFrame calls from `st` deliver exactly `fs` and leave the reader in `next`. */
  ghost predicate Delivers(ch: Channel, st: Reading, fs: seq<Frame>, next: Reading) {
    ReadMany(ch, st, |fs|) == Some((fs, next))
  }

  lemma {:induction false} ReadChain(ch: Channel, states: seq<Reading>, contents: seq<seq<Frame>>)
    requires |states| == |contents| + 1
    requires forall i :: 0 <= i < |contents| ==> Delivers(ch, states[i], contents[i], states[i + 1])
    ensures Delivers(ch, states[0], Flatten(contents), states[|contents|])
    decreases |contents|
  {
    if contents != [] {
      assert forall i :: 0 <= i < |contents| - 1 ==> Delivers(ch, states[1..][i], contents[1..][i], states[1..][i + 1]);
      ReadChain(ch, states[1..], contents[1..]);
      assert Delivers(ch, states[0], contents[0], states[1]);
      ReadManySplit(ch, states[0], |contents[0]|, |Flatten(contents[1..])|);
    }
  }

  lemma BetweenStep(ch: Channel, ctr: nat, records: seq<Bytes>, rest: Bytes, i: nat)
    requires i < |records|
    ensures Between(ch, ctr, records, rest, i).input
            == SealRecord(ch, ctr + i, records[i]) + Between(ch, ctr, records, rest, i + 1).input
  {
    var a, b := SealRecord(ch, ctr + i, records[i]), Wire(ch, ctr + i + 1, records[i + 1..]);
    assert records[i..][0] == records[i] && records[i..][1..] == records[i + 1..];
    assert (a + b) + rest == a + (b + rest);
  }

  lemma FirstOfRecord(ch: Channel, st: Reading, plain: Bytes, fs: seq<Frame>, tail: Bytes)
    requires Lawful(ch.aead) && |plain| <= MAX_WRITE_PLAINTEXT && DecodeFrames(plain) == Some(fs) && fs != []
    requires st.pending == [] && st.input == SealRecord(ch, st.ctr, plain) + tail
    ensures ReadFrameSpec(ch, st) == (Got(fs[0]), Reading(fs[1..], st.ctr + 1, tail))
  {
    RecordRoundTrip(ch, st.ctr, plain, tail);
  }

  lemma ReadOneRecord(ch: Channel, st: Reading, plain: Bytes, fs: seq<Frame>, tail: Bytes)
    requires Lawful(ch.aead) && |plain| <= MAX_WRITE_PLAINTEXT && DecodeFrames(plain) == Some(fs) && fs != []
    requires st.pending == [] && st.input == SealRecord(ch, st.ctr, plain) + tail
    ensures Delivers(ch, st, fs, Reading([], st.ctr + 1, tail))
  {
    FirstOfRecord(ch, st, plain, fs, tail);
    DeliversFirst(ch, st, fs, Reading(fs[1..], st.ctr + 1, tail));
  }

  lemma DeliversFirst(ch: Channel, st: Reading, fs: seq<Frame>, after: Reading)
    requires fs != [] && ReadFrameSpec(ch, st) == (Got(fs[0]), after) && after.pending == fs[1..]
    ensures Delivers(ch, st, fs, after.(pending := []))
  {
    ReadPending(ch, after);
    assert [fs[0]] + fs[1..] == fs;
  }
}
