/** What every run of the writev queue keeps. */
module WritevProofs {
  import opened Prelude
  import opened WritevModel

  // ---------------------------------------------------------------- invariant

  /** A goroutine that is, or is about to start, the writevLoop. */
  predicate Writes(p: Pc) {
    p.at == Launching || p.at == Loop || p.at == Batch || p.at == Sending || p.at == Disposing
  }

  predicate HasBatch(p: Pc) { p.at == Batch || p.at == Sending || p.at == Disposing || p.at == Draining }

  predicate Unsent(p: Pc) { p.at == Batch || p.at == Sending }

  ghost predicate Shape(s: State) {
    && s.q.buffers == AllBuffers(s.q.msgs)
    && s.h.takenTo <= |s.h.accepted| && s.q.msgs == s.h.accepted[s.h.takenTo..]
    && |s.h.pusher| == |s.h.accepted| && |s.h.holder| == s.h.takenTo
    && (s.q.msgs != [] ==> s.q.sending)
    && (s.h.drained ==> !s.running && s.q.msgs == [])
    && (s.q.sending <==> s.h.writer.Some?)
    && (s.h.writer.Some? ==> s.h.writer.value in s.threads && Writes(s.threads[s.h.writer.value]))
  }

  ghost predicate ThreadOk(s: State, t: Tid)
    requires t in s.threads
  {
    var p := s.threads[t];
    && (Writes(p) ==> s.h.writer == Some(t))
    && (HasBatch(p) ==> p.lo <= p.hi <= s.h.takenTo)
    && (HasBatch(p) ==> forall i :: p.lo <= i < p.hi && i < |s.h.holder| ==> s.h.holder[i] == Some(t))
    && (Unsent(p) ==> p.hi <= |s.h.accepted| && p.lo <= p.hi && p.bufs == AllBuffers(s.h.accepted[p.lo..p.hi]))
    && (p.at == ToDrain ==> !s.running)
  }

  /** Position i left the queue: it is held by exactly one goroutine, or was disposed of once. */
  ghost predicate PositionOk(s: State, i: nat) {
    if i < |s.h.holder| then
      match s.h.holder[i]
      case None => s.h.disposed[i] == 1
      case Some(t) =>
        s.h.disposed[i] == 0 && t in s.threads && HasBatch(s.threads[t]) && s.threads[t].lo <= i < s.threads[t].hi
    else s.h.disposed[i] == 0
  }

  /** The message of push t was refused at most once, or accepted at most once, but not both. */
  ghost predicate PushOk(s: State, t: Tid) {
    && s.h.refused[t] <= 1
    && (s.h.refused[t] > 0 ==> t !in s.h.pusher)
    && (s.h.refused[t] > 0 || t in s.h.pusher ==>
          t in s.threads && s.threads[t].at != Pushing && s.threads[t].at != AtLock)
  }

  ghost predicate PushesOk(s: State) {
    && Distinct(s.h.pusher)
    && forall t {:trigger PushOk(s, t)} ::
         PushOk(s, t)
  }

  ghost predicate ThreadsOk(s: State) {
    forall t {:trigger ThreadOk(s, t)} ::
      t in s.threads ==> ThreadOk(s, t)
  }

  ghost predicate PositionsOk(s: State) {
    forall i: nat {:trigger PositionOk(s, i)} ::
      PositionOk(s, i)
  }

  ghost predicate Queued(s: State) {
    && Shape(s)
    && ThreadsOk(s)
    && PositionsOk(s)
  }

  // ------------------------------------------------------------- step lemmas

  lemma {:induction false} AllBuffersConcat(a: seq<Msg>, b: seq<Msg>)
    ensures AllBuffers(a + b) == AllBuffers(a) + AllBuffers(b)
  {
    if a == [] {
      assert a + b == b;
    } else {
      assert (a + b)[1..] == a[1..] + b;
      AllBuffersConcat(a[1..], b);
    }
  }

  lemma BytesConcat(a: seq<Msg>, b: seq<Msg>)
    ensures BytesOf(a + b) == BytesOf(a) + BytesOf(b)
  {
    AllBuffersConcat(a, b);
    FlattenConcat(AllBuffers(a), AllBuffers(b));
  }

  lemma NonEmptyBuffers(ms: seq<Msg>)
    ensures |AllBuffers(ms)| == 0 <==> ms == []
  {
  }

  /** A goroutine moves; queue and history keep their lists. */
  ghost predicate Moves(s: State, r: State, t: Tid) {
    && t in s.threads && t in r.threads && r.threads == s.threads[t := r.threads[t]]
    && r.q == s.q && r.h.accepted == s.h.accepted && r.h.pusher == s.h.pusher && r.h.takenTo == s.h.takenTo
    && r.h.holder == s.h.holder && r.h.disposed == s.h.disposed
    && r.h.writer == s.h.writer && r.h.drained == s.h.drained
    && r.running == s.running
    && Writes(r.threads[t]) == Writes(s.threads[t])
    && HasBatch(r.threads[t]) == HasBatch(s.threads[t])
    && (HasBatch(s.threads[t]) ==> r.threads[t].lo == s.threads[t].lo && r.threads[t].hi == s.threads[t].hi)
  }

  lemma MoveKeeps(s: State, r: State, t: Tid)
    requires Queued(s) && Moves(s, r, t) && ThreadOk(r, t)
    ensures Queued(r)
  {
    forall d | d in r.threads ensures ThreadOk(r, d) { if d != t { assert ThreadOk(s, d); } }
    forall i: nat ensures PositionOk(r, i) { assert PositionOk(s, i); }
  }

  /** The other goroutines are untouched, and the lists they refer to only grew. */
  lemma ThreadsAfter(s: State, r: State, t: Tid)
    requires Shape(s) && ThreadsOk(s) && t in r.threads
    requires r.threads == s.threads[t := r.threads[t]] && ThreadOk(r, t)
    requires s.h.accepted <= r.h.accepted && r.h.takenTo >= s.h.takenTo && s.h.holder <= r.h.holder
    requires r.h.writer == s.h.writer || s.h.writer.None?
    requires r.running ==> s.running
    ensures ThreadsOk(r)
  {
    forall d | d in r.threads ensures ThreadOk(r, d) {
      if d != t {
        assert ThreadOk(s, d);
        var p := s.threads[d];
        assert Unsent(p) ==> r.h.accepted[p.lo..p.hi] == s.h.accepted[p.lo..p.hi];
      }
    }
  }

  lemma PushInv(s: State, t: Tid, m: Msg)
    requires Queued(s) && t !in s.threads
    ensures Queued(s.(threads := s.threads[t := Pc(Pushing, m, 0, 0, [], false)]))
  {
    var r := s.(threads := s.threads[t := Pc(Pushing, m, 0, 0, [], false)]);
    forall d | d in r.threads ensures ThreadOk(r, d) { if d != t { assert ThreadOk(s, d); } }
    forall i: nat ensures PositionOk(r, i) { assert PositionOk(s, i); }
  }

  lemma PushTestInv(s: State, t: Tid)
    requires Queued(s) && AtPhase(s, t, Pushing)
    ensures Queued(Apply(s, PushTest(t)))
  {
    assert ThreadOk(s, t);
    MoveKeeps(s, Apply(s, PushTest(t)), t);
  }

  lemma RejectInv(s: State, t: Tid)
    requires Queued(s) && AtPhase(s, t, AtLock) && !s.running
    ensures Queued(DoPushLocked(s, t))
  {
    assert ThreadOk(s, t);
    MoveKeeps(s, DoPushLocked(s, t), t);
  }

  lemma AcceptShape(s: State, t: Tid)
    requires Shape(s) && AtPhase(s, t, AtLock) && s.running
    ensures Shape(DoPushLocked(s, t))
  {
    var r, m := DoPushLocked(s, t), s.threads[t].msg;
    AllBuffersConcat(s.q.msgs, [m]);
    assert AllBuffers([m]) == BuffersOf(m);
    assert r.q.msgs == r.h.accepted[r.h.takenTo..];
  }

  /** The pusher leaves the lock; the accepted messages grow. */
  lemma AcceptThreads(s: State, r: State, t: Tid)
    requires Shape(s) && ThreadsOk(s) && AtPhase(s, t, AtLock) && t in r.threads
    requires r.threads == s.threads[t := r.threads[t]] && r.threads[t].at in {Launching, Finished}
    requires s.h.accepted <= r.h.accepted && r.h.takenTo == s.h.takenTo && r.h.holder == s.h.holder
    requires r.running == s.running
    requires r.h.writer == if r.threads[t].at == Launching then Some(t) else s.h.writer
    requires r.threads[t].at == Launching ==> s.h.writer.None?
    ensures ThreadsOk(r)
  {
    ThreadsAfter(s, r, t);
  }

  lemma SamePositions(s: State, r: State, t: Tid)
    requires PositionsOk(s) && t in s.threads && !HasBatch(s.threads[t]) && t in r.threads
    requires r.threads == s.threads[t := r.threads[t]] && r.h.holder == s.h.holder && r.h.disposed == s.h.disposed
    ensures PositionsOk(r)
  {
    forall i: nat ensures PositionOk(r, i) { assert PositionOk(s, i); }
  }

  lemma AcceptInv(s: State, t: Tid)
    requires Queued(s) && AtPhase(s, t, AtLock) && s.running
    ensures Queued(DoPushLocked(s, t))
  {
    var r := DoPushLocked(s, t);
    AcceptShape(s, t);
    AcceptThreads(s, r, t);
    SamePositions(s, r, t);
  }

  lemma LaunchInv(s: State, t: Tid, w: Tid)
    requires Queued(s) && AtPhase(s, t, Launching) && w !in s.threads
    ensures Queued(Apply(s, Launch(t, w)))
  {
    var r := Apply(s, Launch(t, w));
    assert ThreadOk(s, t);
    forall d | d in r.threads ensures ThreadOk(r, d) { if d != t && d != w { assert ThreadOk(s, d); } }
    forall i: nat ensures PositionOk(r, i) { assert PositionOk(s, i); }
  }

  lemma ExitInv(s: State, t: Tid)
    requires Queued(s) && AtPhase(s, t, Loop) && |s.q.buffers| == 0
    ensures Queued(DoTake(s, t))
  {
    var r := DoTake(s, t);
    NonEmptyBuffers(s.q.msgs);
    assert ThreadOk(s, t);
    forall d | d in r.threads ensures ThreadOk(r, d) { if d != t { assert ThreadOk(s, d); } }
    forall i: nat ensures PositionOk(r, i) { assert PositionOk(s, i); }
  }

  lemma HandInv(s: State, r: State, t: Tid)
    requires Queued(s) && (AtPhase(s, t, Loop) || AtPhase(s, t, ToDrain))
    requires AtPhase(s, t, Loop) ==> r == Hand(s, t, Batch)
    requires AtPhase(s, t, ToDrain) ==> r == Apply(s, DrainTake(t))
    ensures Queued(r)
  {
    assert ThreadOk(s, t);
    NonEmptyBuffers(s.q.msgs);
    assert s.h.accepted[s.h.takenTo..r.h.takenTo] == s.q.msgs;
    assert r.q.msgs == r.h.accepted[r.h.takenTo..];
    ThreadsAfter(s, r, t);
    HandPositions(s, r, t);
  }

  lemma HandPositions(s: State, r: State, t: Tid)
    requires Shape(s) && PositionsOk(s) && t in s.threads && !HasBatch(s.threads[t]) && t in r.threads
    requires r.threads == s.threads[t := r.threads[t]] && HasBatch(r.threads[t])
    requires r.h.holder == s.h.holder + Held(t, |s.q.msgs|) && r.h.disposed == s.h.disposed
    requires r.threads[t].lo == |s.h.holder| && r.threads[t].hi == |r.h.holder|
    ensures PositionsOk(r)
  {
    forall i: nat ensures PositionOk(r, i) {
      assert PositionOk(s, i);
      if i < |s.h.holder| { assert r.h.holder[i] == s.h.holder[i]; }
    }
  }

  lemma DisposeInv(s: State, t: Tid)
    requires Queued(s) && Enabled(s, DisposeOne(t))
    ensures Queued(DoDispose(s, t))
  {
    var r, k := DoDispose(s, t), s.threads[t].lo;
    assert ThreadOk(s, t) && PositionOk(s, k);
    assert ThreadsOk(r) by {
      forall d | d in r.threads ensures ThreadOk(r, d) { if d != t { assert ThreadOk(s, d); } }
    }
    assert PositionsOk(r) by {
      forall i: nat ensures PositionOk(r, i) { assert PositionOk(s, i); }
    }
  }

  lemma DisposeEndInv(s: State, t: Tid)
    requires Queued(s) && Enabled(s, DisposeEnd(t))
    ensures Queued(Apply(s, DisposeEnd(t)))
  {
    var r := Apply(s, DisposeEnd(t));
    assert ThreadOk(s, t);
    forall d | d in r.threads ensures ThreadOk(r, d) { if d != t { assert ThreadOk(s, d); } }
    forall i: nat ensures PositionOk(r, i) { assert PositionOk(s, i); }
  }

  lemma FlagInv(s: State, r: State, t: Tid)
    requires Queued(s)
    requires r == s.(reconnecting := r.reconnecting) || r == s.(running := false)
      || (t !in s.threads && r == Apply(s, CleanStart(t)))
    ensures Queued(r)
  {
    forall d | d in r.threads ensures ThreadOk(r, d) { if d in s.threads { assert ThreadOk(s, d); } }
    forall i: nat ensures PositionOk(r, i) { assert PositionOk(s, i); }
  }

  lemma TestInv(s: State, t: Tid)
    requires Queued(s) && AtPhase(s, t, Batch)
    ensures Queued(DoTest(s, t))
  {
    assert ThreadOk(s, t);
    MoveKeeps(s, DoTest(s, t), t);
  }

  lemma SendInv(s: State, t: Tid, ok: bool, n: nat)
    requires Queued(s) && Enabled(s, WriterSend(t, ok, n))
    ensures Queued(DoSend(s, t, ok, n))
  {
    assert ThreadOk(s, t);
    MoveKeeps(s, DoSend(s, t, ok, n), t);
  }

  lemma QueuedStep(s: State, u: Step)
    requires Queued(s) && Enabled(s, u)
    ensures Queued(Apply(s, u))
  {
    match u {
      case Push(t, m) => PushInv(s, t, m);
      case PushTest(t) => PushTestInv(s, t);
      case PushLocked(t) => if s.running { AcceptInv(s, t); } else { RejectInv(s, t); }
      case Launch(t, w) => LaunchInv(s, t, w);
      case WriterTake(t) =>
        if |s.q.buffers| == 0 { ExitInv(s, t); } else { HandInv(s, Hand(s, t, Batch), t); }
      case WriterTest(t) => TestInv(s, t);
      case WriterSend(t, ok, n) => SendInv(s, t, ok, n);
      case DisposeOne(t) => DisposeInv(s, t);
      case DisposeEnd(t) => DisposeEndInv(s, t);
      case SetReconnecting(_) => FlagInv(s, Apply(s, u), 0);
      case Stop => FlagInv(s, Apply(s, u), 0);
      case CleanStart(t) => FlagInv(s, Apply(s, u), t);
      case DrainTake(t) => HandInv(s, Apply(s, u), t);
    }
  }
}
