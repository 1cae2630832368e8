/** The first record of a stream: handshake, extra frames and padding in one plaintext (client/proxy/stream.go), and
    how the server takes it apart (crypto/session.go). */
module Bootstrap {
  import opened Options
  import opened Protocol
  import opened Shaper
  import opened Records
  import opened RecordFormat

  /** streamRequest: what the handshake names and the frames that travel with it. */
  datatype Request = Request(proto: byte, cipher: byte, target: Bytes, frames: seq<Frame>)

  /** A target that no frame can carry makes the frame constructor panic. */
  datatype Build = Panics | TooLarge(size: nat) | Built(plaintext: Bytes)

  function HandshakeOf(req: Request): Handshake {
    Handshake(VERSION_3, req.proto, req.cipher, req.target)
  }

  /** protocol.EncodedLen of a list, as the source sums it. */
  method EncodedLenLoop(frames: seq<Frame>) returns (total: nat)
    ensures total == EncodedLen(frames)
  {
    total := 0;
    for i := 0 to |frames|
      invariant total == EncodedLen(frames[..i])
    {
      EncodedLenSnoc(frames[..i], frames[i]);
      assert frames[..i] + [frames[i]] == frames[..i + 1];
      total := total + HEADER_SIZE + frames[i].length;
    }
    assert frames[..|frames|] == frames;
  }

  lemma {:induction false} EncodedLenSnoc(fs: seq<Frame>, f: Frame)
    ensures EncodedLen(fs + [f]) == EncodedLen(fs) + HEADER_SIZE + f.length
  {
    if fs != [] {
      assert (fs + [f])[1..] == fs[1..] + [f];
      EncodedLenSnoc(fs[1..], f);
    }
  }

  function BuildPlaintext(req: Request, choice: Choice): Build {
    match NewFrame(HANDSHAKE, EncodeHandshake(HandshakeOf(req)))
    case None => Panics
    case Some(hs) =>
      var frames := [hs] + req.frames;
      var size := EncodedLen(frames);
      if size > MAX_WRITE_PLAINTEXT then TooLarge(size)
      else match PadFrame(size, MAX_WRITE_PLAINTEXT, choice)
        case None => Built(EncodeFrames(frames))
        case Some(pad) => Built(EncodeFrames(frames + [pad]))
  }

  method BuildBootstrapPlaintext(req: Request, choice: Choice) returns (r: Build)
    ensures r == BuildPlaintext(req, choice)
  {
    var hs := NewFrame(HANDSHAKE, EncodeHandshake(HandshakeOf(req)));
    if hs == None {
      return Panics;
    }
    var frames := [hs.value] + req.frames;
    var size := EncodedLenLoop(frames);
    if size > MAX_WRITE_PLAINTEXT {
      return TooLarge(size);
    }
    var pad := PadFrame(size, MAX_WRITE_PLAINTEXT, choice);
    if pad.Some? {
      frames := frames + [pad.value];
    }
    var buf := EncodeFramesLoop(frames);
    r := Built(buf);
  }

  // ---------------------------------------------------------------- the server's side

  datatype FirstRecord = Refused | Opened(handshake: Handshake, leftover: seq<Frame>)

  function SplitFirst(plaintext: Bytes): FirstRecord {
    match DecodeFrame(plaintext)
    case None => Refused
    case Some((frame, n)) =>
      if frame.ftype != HANDSHAKE then Refused
      else match DecodeHandshake(frame.payload)
        case None => Refused
        case Some(h) =>
          match DecodeFrames(plaintext[n..])
          case None => Refused
          case Some(fs) => Opened(h, fs)
  }

  /** ReadFirstRecord: one record with the bootstrap key and counter 0. */
  function ReadFirst(ch: Channel, input: Bytes): FirstRecord {
    match ReadRecordSpec(ch, 0, input).0
    case Plain(text) => SplitFirst(text)
    case Eof => Refused
    case Broken(_) => Refused
  }

  /** The server opens exactly the encodings of a version 3 handshake frame followed by whole frames. */
  lemma SplitFirstExactly(plaintext: Bytes, h: Handshake, fs: seq<Frame>)
    ensures SplitFirst(plaintext) == Opened(h, fs) <==>
            && h.version == VERSION_3 && |EncodeHandshake(h)| <= MAX_UINT16 && AllWellFormed(fs)
            && plaintext == EncodeFrames([Frame(HANDSHAKE, |EncodeHandshake(h)|, EncodeHandshake(h))] + fs)
  {
    var hs := Frame(HANDSHAKE, |EncodeHandshake(h)|, EncodeHandshake(h));
    assert ([hs] + fs)[1..] == fs;
    assert EncodeFrames([hs] + fs) == Header(hs) + hs.payload + EncodeFrames(fs);
    if SplitFirst(plaintext) == Opened(h, fs) {
      var (frame, n) := DecodeFrame(plaintext).value;
      DecodeFrameIsEncoding(plaintext);
      HandshakeRoundTrip(frame.payload, h);
      FramesRoundTrip(plaintext[n..], fs);
      assert frame == hs;
      assert plaintext == plaintext[..n] + plaintext[n..];
    }
    if h.version == VERSION_3 && |EncodeHandshake(h)| <= MAX_UINT16 && AllWellFormed(fs) &&
        plaintext == EncodeFrames([hs] + fs) {
      FrameRoundTrip(hs, EncodeFrames(fs));
      assert plaintext[HEADER_SIZE + |hs.payload|..] == EncodeFrames(fs);
      HandshakeRoundTrip(hs.payload, h);
      FramesRoundTrip(EncodeFrames(fs), fs);
    }
  }

  // ---------------------------------------------------------------- the round trip

  function HandshakeFrame(req: Request): Frame {
    var p := EncodeHandshake(HandshakeOf(req));
    Frame(HANDSHAKE, |p|, p)
  }

  /** When a bootstrap is built, exactly: the handshake and the extra frames fit one record. */
  lemma BuiltExactly(req: Request, choice: Choice)
    requires AllWellFormed(req.frames)
    ensures BuildPlaintext(req, choice).Built? <==>
              |EncodeFrames([HandshakeFrame(req)] + req.frames)| <= MAX_WRITE_PLAINTEXT
    ensures BuildPlaintext(req, choice).Panics? <==> |req.target| > MAX_UINT16 - 3
  {
    var hs := HandshakeFrame(req);
    if |hs.payload| <= MAX_UINT16 {
      EncodedLenIsLength([hs] + req.frames);
    } else {
      assert EncodeFrames([hs] + req.frames) == Header(hs) + hs.payload + EncodeFrames(([hs] + req.frames)[1..]);
    }
  }

  /** `pad` holds the padding frame that the choice yields for handshake and extra frames, if it yields one. */
  predicate PaddedWith(req: Request, choice: Choice, pad: seq<Frame>) {
    match PadFrame(|EncodeFrames([HandshakeFrame(req)] + req.frames)|, MAX_WRITE_PLAINTEXT, choice)
    case None => pad == []
    case Some(f) => pad == [f]
  }

  /** The frames of a built bootstrap: handshake, extras, and at most one PADDING frame that still fits. */
  lemma BuiltFrames(req: Request, choice: Choice) returns (pad: seq<Frame>)
    requires AllWellFormed(req.frames) && BuildPlaintext(req, choice).Built?
    ensures |pad| <= 1 && AllWellFormed(pad) && PaddedWith(req, choice, pad)
    ensures (pad != [] ==> pad[0].ftype == PADDING) && |req.target| + 3 <= MAX_UINT16
    ensures BuildPlaintext(req, choice).plaintext == EncodeFrames([HandshakeFrame(req)] + (req.frames + pad))
    ensures |BuildPlaintext(req, choice).plaintext| <= MAX_WRITE_PLAINTEXT
  {
    var frames := [HandshakeFrame(req)] + req.frames;
    var size := EncodedLen(frames);
    EncodedLenIsLength(frames);
    match PadFrame(size, MAX_WRITE_PLAINTEXT, choice) {
      case None =>
        pad := [];
        assert req.frames + [] == req.frames;
      case Some(f) =>
        pad := [f];
        PadFits(size, MAX_WRITE_PLAINTEXT, choice);
        EncodedLenSnoc(frames, f);
        EncodedLenIsLength(frames + [f]);
        assert frames + [f] == [HandshakeFrame(req)] + (req.frames + [f]);
    }
  }

  /** Whatever is built without error is short enough for WriteRecord, and the server reads back version 3, the
      protocol, the cipher and the target that were asked for and the same extra frames, followed by at most one
      PADDING frame, the one that the choice yields. */
  lemma BootstrapRoundTrip(ch: Channel, req: Request, choice: Choice, rest: Bytes) returns (pad: seq<Frame>)
    requires Lawful(ch.aead) && AllWellFormed(req.frames) && BuildPlaintext(req, choice).Built?
    ensures |pad| <= 1 && (pad != [] ==> pad[0].ftype == PADDING) && PaddedWith(req, choice, pad)
    ensures |BuildPlaintext(req, choice).plaintext| <= MAX_WRITE_PLAINTEXT
    ensures var r := ReadFirst(ch, SealRecord(ch, 0, BuildPlaintext(req, choice).plaintext) + rest);
            && r.Opened? && r.leftover == req.frames + pad
            && r.handshake.version == 3 && r.handshake.proto == req.proto
            && r.handshake.cipher == req.cipher && r.handshake.target == req.target
    ensures Real(req.frames + pad) == Real(req.frames)
  {
    pad := BuiltFrames(req, choice);
    var p := BuildPlaintext(req, choice).plaintext;
    RecordRoundTrip(ch, 0, p, rest);
    SplitFirstExactly(p, HandshakeOf(req), req.frames + pad);
    RealConcat(req.frames, pad);
    if pad != [] {
      assert Real(pad[1..]) == [];
    }
  }

  /** The server opens a stream if and only if the cipher opens its first record, under number 0, to the encoding of a
      version 3 handshake frame followed by whole frames. */
  lemma ReadFirstExactly(ch: Channel, input: Bytes, h: Handshake, fs: seq<Frame>)
    ensures ReadFirst(ch, input) == Opened(h, fs) <==>
            exists p :: Opens(ch, 0, input, p) && SplitFirst(p) == Opened(h, fs)
  {
    var r := ReadRecordSpec(ch, 0, input).0;
    ReadRecordExactly(ch, 0, input, if r.Plain? then r.text else []);
    forall p | Opens(ch, 0, input, p)
      ensures r == Plain(p)
    {
      ReadRecordExactly(ch, 0, input, p);
    }
  }

  // ---------------------------------------------------------------- merging the first datagram

  function MaxPayload(target: Bytes): int {
    MAX_WRITE_PLAINTEXT - |target| - 9
  }

  /** The request OpenUDPExchange sends: the datagram joins the bootstrap when it is small enough. */
  method MergeFirst(req: Request, payload: Bytes) returns (merged: bool, r: Request)
    requires req.frames == []
    ensures merged ==> r == req.(frames := [Frame(DATAGRAM, |payload|, payload)]) && |payload| <= MAX_UINT16
    ensures !merged ==> r == req
    ensures merged <==> payload != [] && |payload| <= MaxPayload(req.target)
  {
    r, merged := req, false;
    if |payload| > 0 && |payload| <= MaxPayload(req.target) {
      merged := true;
      r := req.(frames := [NewFrame(DATAGRAM, payload).value]);
    }
  }

  /** The decision is exact: a datagram is merged if and only if handshake plus datagram fit the write limit, and then
      the bootstrap is always built. */
  lemma MergeIsExact(req: Request, payload: Bytes, choice: Choice)
    requires req.frames == [] && payload != []
    ensures |payload| <= MaxPayload(req.target) <==>
            |EncodeFrames([HandshakeFrame(req), Frame(DATAGRAM, |payload|, payload)])| <= MAX_WRITE_PLAINTEXT
    ensures |payload| <= MaxPayload(req.target) ==>
              BuildPlaintext(req.(frames := [Frame(DATAGRAM, |payload|, payload)]), choice).Built?
  {
    var hs, dg := HandshakeFrame(req), Frame(DATAGRAM, |payload|, payload);
    assert EncodeFrames([dg]) == Header(dg) + dg.payload + EncodeFrames([]);
    assert [hs, dg][1..] == [dg];
    assert EncodeFrames([hs, dg]) == Header(hs) + hs.payload + EncodeFrames([dg]);
    if |payload| <= MaxPayload(req.target) {
      var merged := req.(frames := [dg]);
      assert [HandshakeFrame(merged)] + merged.frames == [hs, dg];
      BuiltExactly(merged, choice);
    }
  }
}
