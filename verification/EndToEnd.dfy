/**
 From the queue of one side to the Recv loop of the other: what the writers of
 WritevTheorems and SendLoop put on a conn is, read by Wire.RecvAll, the list of
 frames they accepted (client.go, handler.go, Recv).
 */
module EndToEnd {
  import opened Prelude
  import opened Wire
  import opened WritevModel
  import opened WritevProofs
  import opened WritevTheorems
  import opened WritevRuns
  import S = SendLoop

  /** Buffer and body of m are the frame of f, which the receiver does not refuse. */
  ghost predicate Carries(m: Msg, f: Fields, maxBodyLen: nat) {
    m.buffer + m.body == Frame(f) && Sendable(f, maxBodyLen)
  }

  ghost predicate AllCarry(ms: seq<Msg>, fs: seq<Fields>, maxBodyLen: nat) {
    |ms| == |fs| && forall i :: 0 <= i < |ms| ==> Carries(ms[i], fs[i], maxBodyLen)
  }

  lemma BytesOfOne(m: Msg)
    ensures BytesOf([m]) == m.buffer + m.body
  {
    assert AllBuffers([m]) == BuffersOf(m);
    if |m.body| > 0 {
      assert [m.buffer, m.body][1..] == [m.body];
      assert Flatten([m.body]) == m.body;
    } else {
      assert Flatten([m.buffer]) == m.buffer;
    }
  }

  lemma {:induction false} BytesAreFrames(ms: seq<Msg>, fs: seq<Fields>, maxBodyLen: nat)
    requires AllCarry(ms, fs, maxBodyLen)
    ensures BytesOf(ms) == Flatten(Frames(fs))
  {
    if ms != [] {
      BytesAreFrames(ms[1..], fs[1..], maxBodyLen);
      BytesConcat([ms[0]], ms[1..]);
      BytesOfOne(ms[0]);
      assert ms == [ms[0]] + ms[1..] && Frames(fs)[1..] == Frames(fs[1..]);
    }
  }

  lemma MessagesAreReceived(ms: seq<Msg>, fs: seq<Fields>, maxBodyLen: nat)
    requires AllCarry(ms, fs, maxBodyLen)
    ensures RecvAll(BytesOf(ms), maxBodyLen) == (Frames(fs), Eof)
  {
    BytesAreFrames(ms, fs, maxBodyLen);
    RecvAllUndoesSend(fs, Frames(fs), maxBodyLen);
  }

  /** Without reconnects, failed writes and drains, the peer receives exactly the frames handed to SendN, in order. */
  lemma CleanRunIsReceived(tr: seq<State>, steps: seq<Step>, i: nat, fs: seq<Fields>, maxBodyLen: nat)
    requires IsRun(tr, steps) && i < |tr| && Undisturbed(tr, steps, i) && AllCarry(tr[i].h.accepted, fs, maxBodyLen)
    ensures Frontier(tr[i]) <= |fs| && RecvAll(tr[i].wire, maxBodyLen) == (Frames(fs[..Frontier(tr[i])]), Eof)
  {
    CleanRunLosesNoByte(tr, steps, i);
    MessagesAreReceived(tr[i].h.accepted[..Frontier(tr[i])], fs[..Frontier(tr[i])], maxBodyLen);
  }

  /** A part of a frame, or nothing, is no message. */
  lemma CutIsNothing(f: Fields, cut: Bytes, maxBodyLen: nat)
    requires cut == [] || (cut < Frame(f) && Sendable(f, maxBodyLen))
    ensures RecvAll(cut, maxBodyLen).0 == []
  {
    if cut != [] {
      CutFrameIsRefused(f, |cut|, maxBodyLen);
      assert cut == Frame(f)[..|cut|];
    }
  }

  lemma FramesTake(fs: seq<Fields>, k: nat)
    requires k <= |fs|
    ensures Frames(fs)[..k] == Frames(fs[..k])
  {
  }

  lemma OnlyWholeFrames(fs: seq<Fields>, whole: Bytes, cut: Bytes, maxBodyLen: nat)
    requires forall i :: 0 <= i < |fs| ==> Sendable(fs[i], maxBodyLen)
    requires whole == Flatten(Frames(fs)) && RecvAll(cut, maxBodyLen).0 == []
    ensures RecvAll(whole + cut, maxBodyLen).0 == Frames(fs)
  {
    WholeFramesFirst(fs, cut, maxBodyLen, [], RecvAll(cut, maxBodyLen).1);
    assert Frames(fs) + [] == Frames(fs);
  }

  lemma TailIsNothing(ms: seq<Msg>, fs: seq<Fields>, out: Bytes, k: nat, maxBodyLen: nat)
    requires AllCarry(ms, fs, maxBodyLen) && WholeThenCut(ms, out, k)
    ensures RecvAll(out[|BytesOf(ms[..k])|..], maxBodyLen).0 == []
  {
    if k < |ms| {
      BytesOfOne(ms[k]);
      CutIsNothing(fs[k], out[|BytesOf(ms[..k])|..], maxBodyLen);
    } else {
      assert ms[..k] == ms;
    }
  }

  lemma WholeOnesAreReceived(ms: seq<Msg>, fs: seq<Fields>, out: Bytes, k: nat, maxBodyLen: nat)
    requires AllCarry(ms, fs, maxBodyLen) && WholeThenCut(ms, out, k)
    ensures RecvAll(out, maxBodyLen).0 == Frames(fs[..k])
  {
    var whole := BytesOf(ms[..k]);
    TailIsNothing(ms, fs, out, k, maxBodyLen);
    BytesAreFrames(ms[..k], fs[..k], maxBodyLen);
    OnlyWholeFrames(fs[..k], whole, out[|whole|..], maxBodyLen);
    assert out == whole + out[|whole|..];
  }

  /** A conn that breaks inside a batch delivers the messages written whole and no other; the cut one is an error. */
  lemma CutBatchIsReceived(ms: seq<Msg>, fs: seq<Fields>, n: nat, maxBodyLen: nat) returns (k: nat)
    requires AllCarry(ms, fs, maxBodyLen) && n <= |BytesOf(ms)|
    ensures WholeThenCut(ms, BytesOf(ms)[..n], k)
    ensures k <= |fs| && RecvAll(BytesOf(ms)[..n], maxBodyLen).0 == Frames(fs)[..k]
  {
    k := CutAnywhere(ms, n);
    WholeOnesAreReceived(ms, fs, BytesOf(ms)[..n], k, maxBodyLen);
    FramesTake(fs, k);
  }

  // ----------------------------------------------------------- the send loops

  /** Those of fs whose message was not dropped. */
  function Kept(fs: seq<Fields>, dropped: seq<bool>): (r: seq<Fields>)
    requires |fs| == |dropped|
  {
    if fs == [] then [] else (if dropped[0] then [] else [fs[0]]) + Kept(fs[1..], dropped[1..])
  }

  ghost predicate EncodesTo(coders: seq<S.Coder>, m: S.Message, f: Fields, maxBodyLen: nat) {
    S.Encode(coders, m).buffer == Frame(f) && Sendable(f, maxBodyLen)
  }

  /** Every message encodes to the frame of its fields. */
  ghost predicate Encodes(coders: seq<S.Coder>, ms: seq<S.Message>, fs: seq<Fields>, maxBodyLen: nat) {
    |ms| == |fs| && forall i :: 0 <= i < |ms| ==> EncodesTo(coders, ms[i], fs[i], maxBodyLen)
  }

  lemma EncodesCons(
    coders: seq<S.Coder>, m: S.Message, f: Fields, ms: seq<S.Message>, fs: seq<Fields>, maxBodyLen: nat)
    requires EncodesTo(coders, m, f, maxBodyLen) && Encodes(coders, ms, fs, maxBodyLen)
    ensures Encodes(coders, [m] + ms, [f] + fs, maxBodyLen)
  {
  }

  lemma {:induction false} KeptEncode(
    coders: seq<S.Coder>, ms: seq<S.Message>, dropped: seq<bool>, fs: seq<Fields>, maxBodyLen: nat)
    requires Encodes(coders, ms, fs, maxBodyLen) && |ms| == |dropped|
    ensures Encodes(coders, S.NotDropped(ms, dropped), Kept(fs, dropped), maxBodyLen)
  {
    if ms != [] {
      KeptEncode(coders, ms[1..], dropped[1..], fs[1..], maxBodyLen);
      var sent, kept := S.NotDropped(ms[1..], dropped[1..]), Kept(fs[1..], dropped[1..]);
      if dropped[0] {
        assert [] + sent == sent && [] + kept == kept;
      } else {
        EncodesCons(coders, ms[0], fs[0], sent, kept, maxBodyLen);
      }
    }
  }

  lemma EncodingsAreFrames(coders: seq<S.Coder>, ms: seq<S.Message>, fs: seq<Fields>, maxBodyLen: nat)
    requires Encodes(coders, ms, fs, maxBodyLen)
    ensures S.Encodings(coders, ms) == Frames(fs) && forall i :: 0 <= i < |fs| ==> Sendable(fs[i], maxBodyLen)
  {
    forall i | 0 <= i < |fs| ensures S.Encode(coders, ms[i]).buffer == Frame(fs[i]) && Sendable(fs[i], maxBodyLen) {
      assert EncodesTo(coders, ms[i], fs[i], maxBodyLen);
    }
  }

  lemma {:induction false} NothingDropped(fs: seq<Fields>, dropped: seq<bool>)
    requires |fs| == |dropped| && forall i :: 0 <= i < |dropped| ==> !dropped[i]
    ensures Kept(fs, dropped) == fs
  {
    if fs != [] { NothingDropped(fs[1..], dropped[1..]); }
  }

  /** What a send loop accounts for is what the peer receives. */
  lemma AccountedIsReceived(coders: seq<S.Coder>, all: seq<S.Message>, dropped: seq<bool>, drained: seq<S.Message>,
                            log: S.Trace, fs: seq<Fields>, maxBodyLen: nat)
    requires Encodes(coders, all, fs, maxBodyLen) && S.Accounts(coders, all, dropped, drained, log)
    ensures |dropped| <= |fs| && RecvAll(log.wire, maxBodyLen) == (Frames(Kept(fs[..|dropped|], dropped)), Eof)
  {
    var n := |dropped|;
    var kept := Kept(fs[..n], dropped);
    KeptEncode(coders, all[..n], dropped, fs[..n], maxBodyLen);
    EncodingsAreFrames(coders, log.encoded, kept, maxBodyLen);
    RecvAllUndoesSend(kept, Frames(kept), maxBodyLen);
  }

  lemma FramesAreNotEmpty(coders: seq<S.Coder>, all: seq<S.Message>, fs: seq<Fields>, maxBodyLen: nat)
    requires Encodes(coders, all, fs, maxBodyLen)
    ensures S.NoTwoEmpty(coders, all)
  {
    forall i | 0 <= i < |all| - 1 ensures !S.EmptyPair(coders, all, i) {
      assert EncodesTo(coders, all[i], fs[i], maxBodyLen);
    }
  }

  /**
   batchSendLoop to Recv: whatever the arrivals and the batches, the peer
   receives the frames of the messages that were not dropped, in order, and
   then the end of the input; all of them from a Client that never reconnects
   and is not stopped.
   */
  method BatchedFramesAreReceived(ch: S.SendChan, coders: seq<S.Coder>, size: int, reconnecting: nat -> bool,
                                  ghost fs: seq<Fields>, ghost maxBodyLen: nat)
    returns (log: S.Trace, dropped: seq<bool>, drained: seq<S.Message>, closed: bool)
    requires Encodes(coders, ch.All(), fs, maxBodyLen)
    modifies ch
    ensures |dropped| <= |fs| && RecvAll(log.wire, maxBodyLen) == (Frames(Kept(fs[..|dropped|], dropped)), Eof)
    ensures !closed && (forall i: nat :: !reconnecting(i)) ==> RecvAll(log.wire, maxBodyLen) == (Frames(fs), Eof)
  {
    ghost var all := ch.All();
    FramesAreNotEmpty(coders, all, fs, maxBodyLen);
    log, dropped, drained, closed := S.BatchSendLoop(ch, coders, size, reconnecting);
    AccountedIsReceived(coders, all, dropped, drained, log, fs, maxBodyLen);
    if !closed && forall i: nat :: !reconnecting(i) {
      assert fs[..|dropped|] == fs;
      forall i: nat | i < |dropped| ensures !dropped[i] { assert S.ObeysAt(reconnecting, dropped, i); }
      NothingDropped(fs, dropped);
    }
  }
}
