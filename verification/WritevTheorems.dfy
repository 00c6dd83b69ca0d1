/** The promises of the writev queue, for every run within one generation. */
module WritevTheorems {
  import opened Prelude
  import opened WritevModel
  import opened WritevProofs

  // ---------------------------------------------------------- order on the wire

  /** a wrote the first n bytes of its batch; all of them if it succeeded. */
  ghost predicate AttemptOk(accepted: seq<Msg>, a: Attempt) {
    && a.lo <= a.hi <= |accepted|
    && a.n <= |BytesOf(accepted[a.lo..a.hi])|
    && (a.ok ==> a.n == |BytesOf(accepted[a.lo..a.hi])|)
  }

  ghost function Put(accepted: seq<Msg>, a: Attempt): (b: Bytes)
    requires AttemptOk(accepted, a)
  {
    BytesOf(accepted[a.lo..a.hi])[..a.n]
  }

  /** The batches follow each other in the order of acceptance and end below the given position. */
  ghost predicate InOrder(accepted: seq<Msg>, sent: seq<Attempt>, below: nat) {
    && (forall k :: 0 <= k < |sent| ==> AttemptOk(accepted, sent[k]) && sent[k].hi <= below)
    && (forall j, k :: 0 <= j < k < |sent| ==> sent[j].hi <= sent[k].lo)
  }

  /** What the attempts wrote. */
  ghost function WireOf(accepted: seq<Msg>, sent: seq<Attempt>): (b: Bytes)
    requires forall k :: 0 <= k < |sent| ==> AttemptOk(accepted, sent[k])
  {
    if sent == [] then []
    else WireOf(accepted, sent[..|sent| - 1]) + Put(accepted, sent[|sent| - 1])
  }

  /** Messages before this position were handed to SendN, if nothing was dropped. */
  ghost function Frontier(s: State): (n: nat) {
    if s.h.writer.Some? && s.h.writer.value in s.threads && Unsent(s.threads[s.h.writer.value])
    then s.threads[s.h.writer.value].lo else s.h.takenTo
  }

  /** The batch in hand reaches up to the queue. */
  ghost predicate BatchIsLast(s: State) {
    s.h.writer.Some? && s.h.writer.value in s.threads && Unsent(s.threads[s.h.writer.value]) ==>
      s.threads[s.h.writer.value].hi == s.h.takenTo
  }

  ghost predicate WireOk(s: State) {
    && Frontier(s) <= s.h.takenTo <= |s.h.accepted|
    && InOrder(s.h.accepted, s.h.sent, Frontier(s))
    && s.wire == WireOf(s.h.accepted, s.h.sent)
    && (s.h.clean ==> s.wire == BytesOf(s.h.accepted[..Frontier(s)]) && BatchIsLast(s))
  }

  lemma AttemptGrows(a: seq<Msg>, b: seq<Msg>, x: Attempt)
    requires a <= b && AttemptOk(a, x)
    ensures AttemptOk(b, x) && Put(b, x) == Put(a, x)
  {
    assert a[x.lo..x.hi] == b[x.lo..x.hi];
  }

  lemma {:induction false} WireGrows(a: seq<Msg>, b: seq<Msg>, sent: seq<Attempt>)
    requires a <= b && forall k :: 0 <= k < |sent| ==> AttemptOk(a, sent[k])
    ensures forall k :: 0 <= k < |sent| ==> AttemptOk(b, sent[k])
    ensures WireOf(b, sent) == WireOf(a, sent)
  {
    forall k | 0 <= k < |sent| ensures AttemptOk(b, sent[k]) { AttemptGrows(a, b, sent[k]); }
    if sent != [] {
      WireGrows(a, b, sent[..|sent| - 1]);
      AttemptGrows(a, b, sent[|sent| - 1]);
    }
  }

  lemma WireSame(s: State, r: State)
    requires WireOk(s) && r.wire == s.wire && r.h.sent == s.h.sent
    requires s.h.accepted <= r.h.accepted && r.h.takenTo <= |r.h.accepted|
    requires Frontier(s) <= Frontier(r) <= r.h.takenTo
    requires r.h.clean ==> s.h.clean && Frontier(s) == Frontier(r) && BatchIsLast(r)
    ensures WireOk(r)
  {
    WireGrows(s.h.accepted, r.h.accepted, s.h.sent);
    if r.h.clean { assert r.h.accepted[..Frontier(r)] == s.h.accepted[..Frontier(s)]; }
  }

  /** One more attempt, beyond all others. */
  lemma InOrderAppend(accepted: seq<Msg>, sent: seq<Attempt>, a: Attempt, below: nat)
    requires InOrder(accepted, sent, a.lo) && AttemptOk(accepted, a) && a.hi <= below
    ensures InOrder(accepted, sent + [a], below)
    ensures WireOf(accepted, sent + [a]) == WireOf(accepted, sent) + Put(accepted, a)
  {
    assert (sent + [a])[..|sent|] == sent;
  }

  lemma CleanSend(accepted: seq<Msg>, lo: nat, hi: nat)
    requires lo <= hi <= |accepted|
    ensures BytesOf(accepted[..lo]) + BytesOf(accepted[lo..hi]) == BytesOf(accepted[..hi])
  {
    BytesConcat(accepted[..lo], accepted[lo..hi]);
    assert accepted[..lo] + accepted[lo..hi] == accepted[..hi];
  }

  /** What DoSend adds. */
  lemma SendPuts(s: State, t: Tid, ok: bool, n: nat)
    requires Queued(s) && Enabled(s, WriterSend(t, ok, n))
    ensures var r, p := DoSend(s, t, ok, n), s.threads[t];
            && |r.h.sent| == |s.h.sent| + 1
            && var a := r.h.sent[|s.h.sent|];
               && r.h.sent == s.h.sent + [a] && a.lo == p.lo && a.hi == p.hi && AttemptOk(s.h.accepted, a)
               && r.wire == s.wire + Put(s.h.accepted, a) && a.ok == ok
  {
    assert ThreadOk(s, t);
    var out := Flatten(s.threads[t].bufs);
    assert out == out[..|out|];
  }

  lemma WireSend(s: State, t: Tid, ok: bool, n: nat)
    requires Queued(s) && WireOk(s) && Enabled(s, WriterSend(t, ok, n))
    ensures WireOk(DoSend(s, t, ok, n))
  {
    var r, p := DoSend(s, t, ok, n), s.threads[t];
    assert ThreadOk(s, t);
    assert Frontier(s) == p.lo && Frontier(r) == s.h.takenTo;
    SendPuts(s, t, ok, n);
    var a := r.h.sent[|s.h.sent|];
    InOrderAppend(s.h.accepted, s.h.sent, a, s.h.takenTo);
    if r.h.clean {
      CleanSend(s.h.accepted, p.lo, p.hi);
      assert Put(s.h.accepted, a) == BytesOf(s.h.accepted[p.lo..p.hi]);
    }
  }

  /** A step that leaves the writer's batch and the end of the taken messages alone. */
  lemma WireQuiet(s: State, r: State)
    requires WireOk(s) && r.wire == s.wire && r.h.sent == s.h.sent && r.h.takenTo == s.h.takenTo
    requires s.h.accepted <= r.h.accepted && (r.h.clean ==> s.h.clean)
    requires Frontier(r) == Frontier(s) && (BatchIsLast(s) ==> BatchIsLast(r))
    ensures WireOk(r)
  {
    WireSame(s, r);
  }

  lemma WireTake(s: State, t: Tid)
    requires Queued(s) && WireOk(s) && AtPhase(s, t, Loop)
    ensures WireOk(DoTake(s, t))
  {
    assert ThreadOk(s, t);
    NonEmptyBuffers(s.q.msgs);
    WireSame(s, DoTake(s, t));
  }

  lemma WireTest(s: State, t: Tid)
    requires Queued(s) && WireOk(s) && AtPhase(s, t, Batch)
    ensures WireOk(DoTest(s, t))
  {
    assert ThreadOk(s, t);
    WireSame(s, DoTest(s, t));
  }

  lemma WireDispose(s: State, u: Step)
    requires Queued(s) && WireOk(s) && Enabled(s, u) && (u.DisposeOne? || u.DisposeEnd? || u.DrainTake?)
    ensures WireOk(Apply(s, u))
  {
    assert ThreadOk(s, u.t);
    match u {
      case DisposeOne(t) => WireQuiet(s, DoDispose(s, t));
      case DisposeEnd(t) => WireQuiet(s, Apply(s, u));
      case DrainTake(t) => WireSame(s, Apply(s, u));
    }
  }

  lemma WirePush(s: State, u: Step)
    requires Queued(s) && WireOk(s) && Enabled(s, u) && (u.Push? || u.PushTest? || u.PushLocked? || u.Launch?)
    ensures WireOk(Apply(s, u))
  {
    if !u.Push? { assert ThreadOk(s, u.t); }
    WireQuiet(s, Apply(s, u));
  }

  lemma WireFlags(s: State, u: Step)
    requires WireOk(s) && Enabled(s, u) && (u.SetReconnecting? || u.Stop? || u.CleanStart?)
    ensures WireOk(Apply(s, u))
  {
    WireQuiet(s, Apply(s, u));
  }

  lemma WireStep(s: State, u: Step)
    requires Queued(s) && WireOk(s) && Enabled(s, u)
    ensures WireOk(Apply(s, u))
  {
    match u {
      case Push(_, _) => WirePush(s, u);
      case PushTest(_) => WirePush(s, u);
      case PushLocked(_) => WirePush(s, u);
      case Launch(_, _) => WirePush(s, u);
      case WriterTake(t) => WireTake(s, t);
      case WriterTest(t) => WireTest(s, t);
      case WriterSend(t, ok, n) => WireSend(s, t, ok, n);
      case SetReconnecting(_) => WireFlags(s, u);
      case Stop => WireFlags(s, u);
      case CleanStart(_) => WireFlags(s, u);
      case _ => WireDispose(s, u);
    }
  }

  // -------------------------------------------------------------------- pushes

  predicate Pending(p: Pc) { p.at == Pushing || p.at == AtLock }

  lemma PushesKept(s: State, r: State, t: Tid)
    requires PushesOk(s) && r.h.pusher == s.h.pusher && r.h.refused == s.h.refused
    requires t in r.threads && r.threads == s.threads[t := r.threads[t]]
    requires t in s.threads && Pending(r.threads[t]) ==> Pending(s.threads[t])
    ensures PushesOk(r)
  {
    forall d ensures PushOk(r, d) { assert PushOk(s, d); }
  }

  lemma PushesLaunch(s: State, t: Tid, w: Tid)
    requires PushesOk(s) && AtPhase(s, t, Launching) && w !in s.threads
    ensures PushesOk(Apply(s, Launch(t, w)))
  {
    var r := Apply(s, Launch(t, w));
    forall d ensures PushOk(r, d) { assert PushOk(s, d); }
  }

  lemma PushesFlags(s: State, r: State)
    requires PushesOk(s) && r.h == s.h && r.threads == s.threads
    ensures PushesOk(r)
  {
    forall d ensures PushOk(r, d) { assert PushOk(s, d); }
  }

  lemma PushRefused(s: State, t: Tid)
    requires PushesOk(s) && t in s.threads && (s.threads[t].at == Pushing || s.threads[t].at == AtLock)
    ensures PushesOk(s.(threads := Go(s, t, Finished), h := s.h.(refused := s.h.refused + multiset{t})))
  {
    var r := s.(threads := Go(s, t, Finished), h := s.h.(refused := s.h.refused + multiset{t}));
    forall d ensures PushOk(r, d) { assert PushOk(s, d); }
  }

  lemma PushAccepted(s: State, t: Tid)
    requires PushesOk(s) && AtPhase(s, t, AtLock) && s.running
    ensures PushesOk(DoPushLocked(s, t))
  {
    var r := DoPushLocked(s, t);
    assert PushOk(s, t);
    forall d ensures PushOk(r, d) { assert PushOk(s, d); }
  }

  lemma PushesPush(s: State, u: Step)
    requires PushesOk(s) && Enabled(s, u) && (u.PushLocked? || u.PushTest? || u.Launch?)
    ensures PushesOk(Apply(s, u))
  {
    match u {
      case PushLocked(t) => if s.running { PushAccepted(s, t); } else { PushRefused(s, t); }
      case PushTest(t) => if s.reconnecting { PushRefused(s, t); } else { PushesKept(s, Apply(s, u), t); }
      case Launch(t, w) => PushesLaunch(s, t, w);
    }
  }

  lemma PushesWriter(s: State, u: Step)
    requires PushesOk(s) && Enabled(s, u) && (u.WriterTake? || u.WriterTest? || u.WriterSend?)
    ensures PushesOk(Apply(s, u))
  {
    PushesKept(s, Apply(s, u), u.t);
  }

  lemma PushesStep(s: State, u: Step)
    requires PushesOk(s) && Enabled(s, u)
    ensures PushesOk(Apply(s, u))
  {
    match u {
      case PushLocked(_) => PushesPush(s, u);
      case PushTest(_) => PushesPush(s, u);
      case Launch(_, _) => PushesPush(s, u);
      case WriterTake(_) => PushesWriter(s, u);
      case WriterTest(_) => PushesWriter(s, u);
      case WriterSend(_, _, _) => PushesWriter(s, u);
      case SetReconnecting(_) => PushesFlags(s, Apply(s, u));
      case Stop => PushesFlags(s, Apply(s, u));
      case _ => PushesKept(s, Apply(s, u), u.t);
    }
  }

  // ------------------------------------------------------------------ theorems

  ghost predicate Inv(s: State) {
    && Queued(s)
    && WireOk(s)
    && PushesOk(s)
  }

  lemma {:induction false} RunKeepsInv(tr: seq<State>, steps: seq<Step>, i: nat)
    requires IsRun(tr, steps) && i < |tr|
    ensures Inv(tr[i])
  {
    if i == 0 {
      StartInv();
    } else {
      RunKeepsInv(tr, steps, i - 1);
      NextInv(tr, steps, i - 1);
    }
  }

  lemma NextInv(tr: seq<State>, steps: seq<Step>, i: nat)
    requires IsRun(tr, steps) && i < |steps| && Inv(tr[i])
    ensures Inv(tr[i + 1])
  {
    QueuedStep(tr[i], steps[i]);
    WireStep(tr[i], steps[i]);
    PushesStep(tr[i], steps[i]);
  }

  lemma StartInv()
    ensures Inv(Start)
  {
    var s := Start;
    assert s.h.accepted[..Frontier(s)] == [];
  }

  ghost predicate IsWriter(s: State, t: Tid) { t in s.threads && Writes(s.threads[t]) }

  /** At most one goroutine is, or is about to be, the writevLoop; there is one exactly while writevSending is set. */
  lemma AtMostOneWriter(tr: seq<State>, steps: seq<Step>, i: nat)
    requires IsRun(tr, steps) && i < |tr|
    ensures forall t: Tid, w: Tid :: IsWriter(tr[i], t) && IsWriter(tr[i], w) ==> t == w
    ensures tr[i].q.sending <==> exists t: Tid :: IsWriter(tr[i], t)
  {
    var s := tr[i];
    RunKeepsInv(tr, steps, i);
    forall t: Tid | IsWriter(s, t) ensures s.h.writer == Some(t) { assert ThreadOk(s, t); }
    if s.q.sending { assert IsWriter(s, s.h.writer.value); }
  }

  /** A queued message always has a writer coming for it. */
  lemma QueueHasAWriter(tr: seq<State>, steps: seq<Step>, i: nat)
    requires IsRun(tr, steps) && i < |tr| && tr[i].q.msgs != []
    ensures exists t: Tid :: IsWriter(tr[i], t)
  {
    RunKeepsInv(tr, steps, i);
    AtMostOneWriter(tr, steps, i);
  }

  /**
   Every accepted message is in exactly one place: still queued, or with
   exactly one goroutine and not disposed of, or disposed of exactly once and
   with no goroutine. Nothing else is ever disposed of.
   */
  lemma AcceptedIsAccountedFor(tr: seq<State>, steps: seq<Step>, i: nat, k: nat)
    requires IsRun(tr, steps) && i < |tr|
    ensures tr[i].h.takenTo <= |tr[i].h.accepted| && tr[i].q.msgs == tr[i].h.accepted[tr[i].h.takenTo..]
    ensures k >= tr[i].h.takenTo ==> tr[i].h.disposed[k] == 0
    ensures k < tr[i].h.takenTo ==>
      if exists t :: Holds(tr[i], t, k) then tr[i].h.disposed[k] == 0 else tr[i].h.disposed[k] == 1
    ensures forall t, w :: Holds(tr[i], t, k) && Holds(tr[i], w, k) ==> t == w
  {
    var s := tr[i];
    RunKeepsInv(tr, steps, i);
    assert PositionOk(s, k);
    forall t: Tid | Holds(s, t, k) ensures k < s.h.takenTo && s.h.holder[k] == Some(t) { assert ThreadOk(s, t); }
    if k < s.h.takenTo && s.h.holder[k].Some? {
      assert Holds(s, s.h.holder[k].value, k);
    }
  }

  /** Goroutine t has taken message k and not disposed of it. */
  ghost predicate Holds(s: State, t: Tid, k: nat) {
    t in s.threads && HasBatch(s.threads[t]) && s.threads[t].lo <= k < s.threads[t].hi
  }

  lemma DrainedStep(s: State, u: Step)
    requires Queued(s) && s.h.drained && Enabled(s, u)
    ensures Apply(s, u).h.drained && Apply(s, u).h.accepted == s.h.accepted
  {
  }

  lemma {:induction false} AcceptsNoMore(tr: seq<State>, steps: seq<Step>, i: nat, j: nat)
    requires IsRun(tr, steps) && i <= j < |tr| && tr[i].h.drained
    ensures tr[j].h.drained && tr[j].h.accepted == tr[i].h.accepted
  {
    if i < j {
      AcceptsNoMore(tr, steps, i, j - 1);
      RunKeepsInv(tr, steps, j - 1);
      DrainedStep(tr[j - 1], steps[j - 1]);
    }
  }

  /** After closeAndClean's drain nothing enters the queue again. */
  lemma DrainIsFinal(tr: seq<State>, steps: seq<Step>, i: nat, j: nat)
    requires IsRun(tr, steps) && i <= j < |tr| && tr[i].h.drained
    ensures tr[j].h.accepted == tr[i].h.accepted
    ensures !tr[j].running && tr[j].q.msgs == [] && tr[j].q.buffers == []
  {
    AcceptsNoMore(tr, steps, i, j);
    RunKeepsInv(tr, steps, j);
  }

  /** When the drain is over and every goroutine has returned, each accepted message was disposed of exactly once. */
  lemma NothingIsLost(tr: seq<State>, steps: seq<Step>, i: nat, k: nat)
    requires IsRun(tr, steps) && i < |tr| && tr[i].h.drained
    requires forall t :: t in tr[i].threads ==> tr[i].threads[t].at == Finished
    requires k < |tr[i].h.accepted|
    ensures tr[i].h.disposed[k] == 1
  {
    RunKeepsInv(tr, steps, i);
    AcceptedIsAccountedFor(tr, steps, i, k);
  }

  /** out is k whole messages of ms and, unless that is all of them, a strictly shorter part of the next. */
  ghost predicate WholeThenCut(ms: seq<Msg>, out: Bytes, k: nat) {
    && k <= |ms| && BytesOf(ms[..k]) <= out
    && (k == |ms| ==> out == BytesOf(ms))
    && (k < |ms| ==> out[|BytesOf(ms[..k])|..] < BytesOf([ms[k]]))
  }

  /** Any prefix of the bytes of some messages is of that form. */
  lemma {:induction false} CutAnywhere(ms: seq<Msg>, n: nat) returns (k: nat)
    requires n <= |BytesOf(ms)|
    ensures WholeThenCut(ms, BytesOf(ms)[..n], k)
  {
    if ms == [] {
      k := 0;
    } else {
      var first := BytesOf([ms[0]]);
      assert ms == [ms[0]] + ms[1..];
      BytesConcat([ms[0]], ms[1..]);
      if n < |first| {
        k := 0;
        assert ms[..0] == [] && BytesOf(ms)[..n] == first[..n];
      } else {
        var rest := CutAnywhere(ms[1..], n - |first|);
        k := rest + 1;
        CutNext(ms, n, rest);
      }
    }
  }

  lemma CutNext(ms: seq<Msg>, n: nat, k: nat)
    requires ms != [] && |BytesOf([ms[0]])| <= n <= |BytesOf(ms)| == |BytesOf([ms[0]])| + |BytesOf(ms[1..])|
    requires WholeThenCut(ms[1..], BytesOf(ms[1..])[..n - |BytesOf([ms[0]])|], k)
    ensures WholeThenCut(ms, BytesOf(ms)[..n], k + 1)
  {
    var first, rest := BytesOf([ms[0]]), ms[1..];
    assert ms == [ms[0]] + rest && ms[..k + 1] == [ms[0]] + rest[..k];
    BytesConcat([ms[0]], rest);
    BytesConcat([ms[0]], rest[..k]);
    assert BytesOf(ms)[..n] == first + BytesOf(rest)[..n - |first|];
    if k < |rest| {
      assert ms[k + 1] == rest[k];
      assert BytesOf(ms)[..n][|BytesOf(ms[..k + 1])|..] == BytesOf(rest)[..n - |first|][|BytesOf(rest[..k])|..];
    }
  }

  lemma CutAttempt(accepted: seq<Msg>, a: Attempt)
    requires AttemptOk(accepted, a)
    ensures exists k: nat :: WholeThenCut(accepted[a.lo..a.hi], Put(accepted, a), k) && (a.ok ==> k == a.hi - a.lo)
  {
    var ms := accepted[a.lo..a.hi];
    if a.ok {
      assert ms[..|ms|] == ms && Put(accepted, a) == BytesOf(ms);
      assert WholeThenCut(ms, Put(accepted, a), |ms|);
    } else {
      var k := CutAnywhere(ms, a.n);
      assert WholeThenCut(ms, Put(accepted, a), k);
    }
  }

  /**
   The conn carries accepted messages in the order of acceptance, header and
   body adjacent, all whole but for at most one cut tail per failed write.
   */
  lemma WireIsInOrder(tr: seq<State>, steps: seq<Step>, i: nat)
    requires IsRun(tr, steps) && i < |tr|
    ensures InOrder(tr[i].h.accepted, tr[i].h.sent, |tr[i].h.accepted|)
    ensures tr[i].wire == WireOf(tr[i].h.accepted, tr[i].h.sent)
    ensures forall a :: a in tr[i].h.sent ==>
              exists k: nat :: WholeThenCut(tr[i].h.accepted[a.lo..a.hi], Put(tr[i].h.accepted, a), k) &&
                               (a.ok ==> k == a.hi - a.lo)
  {
    RunKeepsInv(tr, steps, i);
    forall a | a in tr[i].h.sent
      ensures exists k: nat :: WholeThenCut(tr[i].h.accepted[a.lo..a.hi], Put(tr[i].h.accepted, a), k) &&
                               (a.ok ==> k == a.hi - a.lo)
    {
      CutAttempt(tr[i].h.accepted, a);
    }
  }

  /** A push disposes of its message on the spot at most once, and then the message never enters the queue. */
  lemma PushRefusedOrAcceptedOnce(tr: seq<State>, steps: seq<Step>, i: nat, t: Tid)
    requires IsRun(tr, steps) && i < |tr|
    ensures tr[i].h.refused[t] <= 1
    ensures tr[i].h.refused[t] == 1 ==> t !in tr[i].h.pusher
    ensures forall j, k :: 0 <= j < k < |tr[i].h.pusher| ==> tr[i].h.pusher[j] != tr[i].h.pusher[k]
  {
    RunKeepsInv(tr, steps, i);
    assert PushOk(tr[i], t);
  }
}
