/** Frames, the handshake and their wire form (protocol/frame.go). */
module Protocol {
  import opened Options

  type byte = b: int | 0 <= b < 256
  type Bytes = seq<byte>

  const DATA: byte := 0
  const DATAGRAM: byte := 1
  const FIN: byte := 2
  const RST: byte := 3
  const PADDING: byte := 4
  const COVER: byte := 5
  const HANDSHAKE: byte := 6

  const HEADER_SIZE := 3
  const MAX_UINT16 := 65535
  const MAX_READ_PLAINTEXT := 65536
  const CIPHER_LEN_SIZE := 3
  const TAG_OVERHEAD := 16
  const MAX_WRITE_PLAINTEXT := MAX_READ_PLAINTEXT - CIPHER_LEN_SIZE - TAG_OVERHEAD
  const MIN_RECORD_BUFFER := 4096
  const VERSION_3: byte := 3

  /** `length` is the uint16 header field; it is kept apart from the payload because the encoder ignores it. */
  datatype Frame = Frame(ftype: byte, length: nat, payload: Bytes)

  /** What every constructor and the decoder produce. */
  predicate WellFormed(f: Frame) {
    f.length == |f.payload| <= MAX_UINT16
  }

  predicate AllWellFormed(fs: seq<Frame>) {
    forall i :: 0 <= i < |fs| ==> WellFormed(fs[i])
  }

  /** The header carries uint16(len(payload)), so a longer payload is silently truncated there. */
  function Header(f: Frame): (h: Bytes)
    ensures |h| == HEADER_SIZE
  {
    var n := |f.payload| % 65536;
    [f.ftype, n / 256, n % 256]
  }

  function AppendFrame(buf: Bytes, f: Frame): Bytes {
    buf + Header(f) + f.payload
  }

  /** The wire form of a list of frames, as a specification by recursion from the left. */
  function EncodeFrames(fs: seq<Frame>): Bytes {
    if fs == [] then [] else Header(fs[0]) + fs[0].payload + EncodeFrames(fs[1..])
  }

  /** EncodeFrames in protocol/frame.go: append each frame in turn to one buffer. */
  method EncodeFramesLoop(fs: seq<Frame>) returns (buf: Bytes)
    ensures buf == EncodeFrames(fs)
  {
    buf := [];
    for i := 0 to |fs|
      invariant buf == EncodeFrames(fs[..i])
    {
      EncodeSnoc(fs[..i], fs[i]);
      assert fs[..i] + [fs[i]] == fs[..i + 1];
      buf := AppendFrame(buf, fs[i]);
    }
    assert fs[..|fs|] == fs;
  }

  lemma {:induction false} EncodeConcat(a: seq<Frame>, b: seq<Frame>)
    ensures EncodeFrames(a + b) == EncodeFrames(a) + EncodeFrames(b)
  {
    if a == [] {
      assert a + b == b;
    } else {
      assert (a + b)[1..] == a[1..] + b;
      EncodeConcat(a[1..], b);
    }
  }

  lemma EncodeSnoc(fs: seq<Frame>, f: Frame)
    ensures EncodeFrames(fs + [f]) == AppendFrame(EncodeFrames(fs), f)
  {
    EncodeConcat(fs, [f]);
    assert EncodeFrames([f]) == Header(f) + f.payload;
  }

  /** Sum of the encoded lengths; `length` is what Frame.EncodedLen reads. */
  function EncodedLen(fs: seq<Frame>): nat {
    if fs == [] then 0 else HEADER_SIZE + fs[0].length + EncodedLen(fs[1..])
  }

  lemma {:induction false} EncodedLenIsLength(fs: seq<Frame>)
    requires AllWellFormed(fs)
    ensures |EncodeFrames(fs)| == EncodedLen(fs)
  {
    if fs != [] {
      EncodedLenIsLength(fs[1..]);
    }
  }

  function Uint16(hi: byte, lo: byte): nat {
    (hi as int) * 256 + lo as int
  }

  lemma Uint16Parts(hi: byte, lo: byte)
    ensures Uint16(hi, lo) <= MAX_UINT16 && Uint16(hi, lo) / 256 == hi && Uint16(hi, lo) % 256 == lo
  {
  }

  /** None is io.ErrUnexpectedEOF. */
  function DecodeFrame(data: Bytes): (r: Option<(Frame, nat)>)
    ensures r.Some? ==> HEADER_SIZE <= r.value.1 <= |data|
  {
    if |data| < HEADER_SIZE then None
    else
      var length := Uint16(data[1], data[2]);
      if HEADER_SIZE + length > |data| then None
      else Some((Frame(data[0], length, data[HEADER_SIZE..HEADER_SIZE + length]), HEADER_SIZE + length))
  }

  /** A whole plaintext split into frames; None as soon as one frame is cut short. */
  function DecodeFrames(data: Bytes): Option<seq<Frame>> {
    if data == [] then Some([])
    else match DecodeFrame(data)
      case None => None
      case Some((f, n)) =>
        match DecodeFrames(data[n..])
        case None => None
        case Some(fs) => Some([f] + fs)
  }

  /** Exactly the payloads that fit the uint16 header survive the encoder, whatever follows them. */
  lemma FrameRoundTrip(f: Frame, rest: Bytes)
    ensures DecodeFrame(Header(f) + f.payload + rest) == Some((Frame(f.ftype, |f.payload|, f.payload),
              HEADER_SIZE + |f.payload|))
            <==> |f.payload| <= MAX_UINT16
  {
    var data := Header(f) + f.payload + rest;
    var n := |f.payload| % 65536;
    assert data[0] == f.ftype && data[1] == n / 256 && data[2] == n % 256;
    assert Uint16(data[1], data[2]) == n;
    if |f.payload| <= MAX_UINT16 {
      assert data[HEADER_SIZE..HEADER_SIZE + n] == f.payload;
    } else {
      assert n < |f.payload|;
    }
  }

  /** A decoded frame is well formed and re-encodes to the very bytes it was read from. */
  lemma DecodeFrameIsEncoding(data: Bytes)
    requires DecodeFrame(data).Some?
    ensures var (f, n) := DecodeFrame(data).value; WellFormed(f) && Header(f) + f.payload == data[..n]
  {
    var (f, n) := DecodeFrame(data).value;
    Uint16Parts(data[1], data[2]);
    assert |f.payload| % 65536 == Uint16(data[1], data[2]);
    assert Header(f) == [data[0], data[1], data[2]] == data[..HEADER_SIZE];
  }

  /** The two directions of the frame codec: decoding succeeds with `fs` exactly on the encoding of `fs`. */
  lemma {:induction false} FramesRoundTrip(data: Bytes, fs: seq<Frame>)
    ensures DecodeFrames(data) == Some(fs) <==> AllWellFormed(fs) && data == EncodeFrames(fs)
    decreases |data| + |fs|
  {
    if data == [] {
      if fs != [] {
        assert |EncodeFrames(fs)| >= HEADER_SIZE;
      }
    } else if fs == [] {
      assert EncodeFrames(fs) == [];
    } else {
      if DecodeFrames(data) == Some(fs) {
        var (f, n) := DecodeFrame(data).value;
        DecodeFrameIsEncoding(data);
        assert DecodeFrames(data[n..]).value == fs[1..];
        FramesRoundTrip(data[n..], fs[1..]);
        assert data == data[..n] + data[n..];
      }
      if AllWellFormed(fs) && data == EncodeFrames(fs) {
        var rest := EncodeFrames(fs[1..]);
        FrameRoundTrip(fs[0], rest);
        assert data[HEADER_SIZE + |fs[0].payload|..] == rest;
        FramesRoundTrip(rest, fs[1..]);
        assert fs == [fs[0]] + fs[1..];
      }
    }
  }

  /** Decoding a concatenation of encodings: what the reader needs once it has the bytes of several batches. */
  lemma DecodeOfEncode(fs: seq<Frame>)
    requires AllWellFormed(fs)
    ensures DecodeFrames(EncodeFrames(fs)) == Some(fs)
  {
    FramesRoundTrip(EncodeFrames(fs), fs);
  }

  datatype Handshake = Handshake(version: byte, proto: byte, cipher: byte, target: Bytes)

  function EncodeHandshake(h: Handshake): Bytes {
    [h.version, h.proto, h.cipher] + h.target
  }

  /** None covers both refusals: fewer than three bytes, and any version but 3. */
  function DecodeHandshake(data: Bytes): Option<Handshake> {
    if |data| < 3 then None
    else if data[0] != VERSION_3 then None
    else Some(Handshake(data[0], data[1], data[2], data[3..]))
  }

  lemma HandshakeRoundTrip(data: Bytes, h: Handshake)
    ensures DecodeHandshake(data) == Some(h) <==> h.version == VERSION_3 && data == EncodeHandshake(h)
  {
    if |data| >= 3 {
      assert data == [data[0], data[1], data[2]] + data[3..];
      assert EncodeHandshake(h)[3..] == h.target;
    } else {
      assert |EncodeHandshake(h)| >= 3;
    }
  }

  /** protocol.NewFrame panics on a payload the header cannot describe; None stands for that panic. */
  function NewFrame(ftype: byte, payload: Bytes): (r: Option<Frame>)
    ensures r.Some? <==> |payload| <= MAX_UINT16
    ensures r.Some? ==> WellFormed(r.value) && r.value.ftype == ftype && r.value.payload == payload
  {
    if |payload| > MAX_UINT16 then None else Some(Frame(ftype, |payload|, payload))
  }

  /** The frames a consumer acts on: PADDING and COVER are skipped by every receive loop. */
  function Real(fs: seq<Frame>): seq<Frame> {
    if fs == [] then []
    else (if fs[0].ftype == PADDING || fs[0].ftype == COVER then [] else [fs[0]]) + Real(fs[1..])
  }

  lemma {:induction false} RealConcat(a: seq<Frame>, b: seq<Frame>)
    ensures Real(a + b) == Real(a) + Real(b)
  {
    if a == [] {
      assert a + b == b;
    } else {
      assert (a + b)[1..] == a[1..] + b;
      RealConcat(a[1..], b);
    }
  }
}
