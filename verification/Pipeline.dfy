/** The whole sending path: shaper, records, and the reader on the other side. */
module Pipeline {
  import opened Protocol
  import opened Records
  import opened Shaper
  import opened ShaperRuns
  import opened ShaperTheorems
  import opened ShaperBounds
  import opened ShaperLoss

  function Contents(bs: seq<Batch>): seq<seq<Frame>> {
    seq(|bs|, i requires 0 <= i < |bs| => bs[i].frames + bs[i].pad)
  }

  /** Real leaves out exactly the PADDING and COVER frames, types 4 and 5. */
  lemma {:induction false} RealExactly(fs: seq<Frame>, f: Frame)
    ensures multiset(Real(fs))[f] == if f.ftype == 4 || f.ftype == 5 then 0 else multiset(fs)[f]
  {
    if fs != [] {
      RealExactly(fs[1..], f);
      assert fs == [fs[0]] + fs[1..];
    }
  }

  lemma {:induction false} RealOfPadding(pad: seq<Frame>)
    requires forall i :: 0 <= i < |pad| ==> pad[i].ftype == PADDING
    ensures Real(pad) == []
  {
    if pad != [] {
      RealOfPadding(pad[1..]);
    }
  }

  /** Flush padding disappears when PADDING and COVER are skipped. */
  lemma {:induction false} RealOfBatches(bs: seq<Batch>)
    requires forall k :: 0 <= k < |bs| ==> GoodBatch(bs[k])
    ensures Real(Flatten(Contents(bs))) == Real(BatchFrames(bs))
    decreases |bs|
  {
    if bs != [] {
      var n := |bs| - 1;
      var front, b := bs[..n], bs[n];
      RealOfBatches(front);
      assert Contents(bs) == Contents(front) + [b.frames + b.pad];
      FlattenSnoc(Contents(front), b.frames + b.pad);
      RealConcat(Flatten(Contents(front)), b.frames + b.pad);
      RealConcat(b.frames, b.pad);
      assert GoodBatch(b);
      RealOfPadding(b.pad);
      RealConcat(BatchFrames(front), b.frames);
    }
  }

  lemma RealPrefix(a: seq<Frame>, b: seq<Frame>)
    requires a <= b
    ensures Real(a) <= Real(b)
  {
    assert b == a + b[|a|..];
    RealConcat(a, b[|a|..]);
  }

  /** The batches whose records were written. */
  function Written(s: State): seq<Batch>
    requires Carries(s.core.wire, s.batches, Places(s.outcomes))
  {
    var at := Places(s.outcomes);
    seq(|at|, j requires 0 <= j < |at| => s.batches[at[j]])
  }

  /** What was written so far is a stream that the record layer can carry. */
  lemma WireIsSendable(states: seq<State>, labels: seq<Label>, i: nat)
    requires Run(states, labels) && i < |states|
    ensures Carries(states[i].core.wire, states[i].batches, Places(states[i].outcomes))
    ensures Sendable(states[i].core.wire, Contents(Written(states[i])))
  {
    var s := states[i];
    RunInv(states, labels, i);
    WireKeepsOrder(states, labels, i);
    forall j | 0 <= j < |s.core.wire|
      ensures |s.core.wire[j]| <= MAX_WRITE_PLAINTEXT && Contents(Written(s))[j] != []
    {
      assert GoodBatch(s.batches[Places(s.outcomes)[j]]);
    }
  }

  lemma AllAreWritten(s: State)
    requires Carries(s.core.wire, s.batches, Places(s.outcomes)) && |s.outcomes| <= |s.batches| && AllWritten(s)
    ensures Written(s) == s.batches[..|s.outcomes|]
  {
    PlacesOfAll(s.outcomes);
  }

  /** For every run with healthy I/O and every cipher that opens what it seals: a DecryptedReader with the same key,
      additional data and nonce prefix delivers exactly the frames of the written batches, in append order, has then
      used as many nonces as the writer, and leaves whatever follows on the stream. If every push that resumed after
      its pre-flush found room, these frames without PADDING and COVER are a prefix of the pushed ones, and all of them
      once Close has returned. */
  lemma EndToEnd(states: seq<State>, labels: seq<Label>, i: nat, ch: Channel,
        rest: Bytes) returns (received: seq<Frame>)
    requires Run(states, labels) && i < |states| && Healthy(labels) && Lawful(ch.aead)
    ensures var s := states[i];
            && Delivers(ch, Reading([], 0, Wire(ch, 0, s.core.wire) + rest), received, Reading([], |s.core.wire|, rest))
            && Carries(s.core.wire, s.batches, Places(s.outcomes)) && received == Flatten(Contents(Written(s)))
    ensures var s := states[i];
            GuardedUntil(states, labels, i) ==>
              && Real(received) <= Real(FramesOf(s.appended))
              && forall t :: CloseReturned(s, t) ==> Real(received) == Real(FramesOf(s.appended))
  {
    var s := states[i];
    WireIsSendable(states, labels, i);
    received := Flatten(Contents(Written(s)));
    StreamRoundTrip(ch, 0, s.core.wire, Contents(Written(s)), rest);
    if GuardedUntil(states, labels, i) {
      GuardedIsWritten(states, labels, i);
      ReceivedIsPushed(states, labels, i);
    }
  }

  /** Calls that append nothing in each other's pre-flush window meet that condition. */
  lemma UndisturbedEndToEnd(states: seq<State>, labels: seq<Label>, i: nat, ch: Channel,
        rest: Bytes) returns (received: seq<Frame>)
    requires Run(states, labels) && i < |states| && Healthy(labels) && Lawful(ch.aead)
    requires forall j :: 0 <= j < i ==> Undisturbed(states[j], labels[j])
    ensures var s := states[i];
            && Delivers(ch, Reading([], 0, Wire(ch, 0, s.core.wire) + rest), received, Reading([], |s.core.wire|, rest))
            && Real(received) <= Real(FramesOf(s.appended))
            && forall t :: CloseReturned(s, t) ==> Real(received) == Real(FramesOf(s.appended))
  {
    UndisturbedIsWritten(states, labels, i);
    received := EndToEnd(states, labels, i, ch, rest);
  }

  lemma ReceivedIsPushed(states: seq<State>, labels: seq<Label>, i: nat)
    requires Run(states, labels) && i < |states| && AllWritten(states[i])
    ensures var s := states[i];
            && Carries(s.core.wire, s.batches, Places(s.outcomes))
            && var received := Flatten(Contents(Written(s)));
            && Real(received) <= Real(FramesOf(s.appended))
            && forall t :: CloseReturned(s, t) ==> Real(received) == Real(FramesOf(s.appended))
  {
    var s := states[i];
    RunInv(states, labels, i);
    WireIsSendable(states, labels, i);
    AllAreWritten(s);
    var sent := s.batches[..s.core.writeNext];
    RealOfBatches(sent);
    BatchFramesPrefix(s.batches, s.core.writeNext);
    RealPrefix(BatchFrames(sent), FramesOf(s.appended));
    forall t | CloseReturned(s, t)
      ensures Real(BatchFrames(sent)) == Real(FramesOf(s.appended))
    {
      CloseLosesNothing(states, labels, i, t);
      assert sent == s.batches;
    }
  }
}
