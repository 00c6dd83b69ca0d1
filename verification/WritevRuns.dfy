/**
 What pushWritev and writevLoop do for a caller, over every run: what is accepted,
 what an undisturbed connection carries, what is never written, and that the
 writer can always finish its work (client.go).
 */
module WritevRuns {
  import opened Prelude
  import opened WritevModel
  import opened WritevProofs
  import opened WritevTheorems

  // ------------------------------------------------- runs without trouble

  /** A step that can cost a message: a reconnect, a write that fails, a drain of messages. */
  predicate Troubles(s: State, u: Step) {
    u == SetReconnecting(true) || (u.WriterSend? && !u.ok) || (u.DrainTake? && s.q.msgs != [])
  }

  ghost predicate Undisturbed(tr: seq<State>, steps: seq<Step>, n: nat)
    requires IsRun(tr, steps) && n < |tr|
  {
    forall i {:trigger steps[i]} :: 0 <= i < n ==> !Troubles(tr[i], steps[i])
  }

  ghost predicate Untroubled(s: State) {
    && s.h.clean && !s.reconnecting
    && forall t {:trigger s.threads[t]} :: t in s.threads ==> !s.threads[t].closed
  }

  lemma UntroubledStep(s: State, u: Step)
    requires Untroubled(s) && Enabled(s, u) && !Troubles(s, u)
    ensures Untroubled(Apply(s, u))
  {
  }

  lemma {:induction false} UndisturbedIsUntroubled(tr: seq<State>, steps: seq<Step>, n: nat)
    requires IsRun(tr, steps) && n < |tr| && Undisturbed(tr, steps, n)
    ensures Untroubled(tr[n])
  {
    if n > 0 {
      UndisturbedIsUntroubled(tr, steps, n - 1);
      UntroubledNext(tr, steps, n - 1);
    }
  }

  lemma UntroubledNext(tr: seq<State>, steps: seq<Step>, i: nat)
    requires IsRun(tr, steps) && i < |steps| && Untroubled(tr[i]) && !Troubles(tr[i], steps[i])
    ensures Untroubled(tr[i + 1])
  {
    UntroubledStep(tr[i], steps[i]);
  }

  lemma BytesSplit(ms: seq<Msg>, n: nat)
    requires n <= |ms|
    ensures BytesOf(ms) == BytesOf(ms[..n]) + BytesOf(ms[n..])
  {
    assert ms == ms[..n] + ms[n..];
    BytesConcat(ms[..n], ms[n..]);
  }

  /**
   Without a reconnect, a failed write and a drain of messages: written, then the
   batch in hand, then the queue, is all that was accepted.
   */
  lemma CleanRunLosesNoByte(tr: seq<State>, steps: seq<Step>, i: nat)
    requires IsRun(tr, steps) && i < |tr| && Undisturbed(tr, steps, i)
    ensures var s := tr[i];
            && Frontier(s) <= |s.h.accepted|
            && s.wire == BytesOf(s.h.accepted[..Frontier(s)])
            && BytesOf(s.h.accepted) == s.wire + BytesOf(s.h.accepted[Frontier(s)..])
  {
    RunKeepsInv(tr, steps, i);
    UndisturbedIsUntroubled(tr, steps, i);
    BytesSplit(tr[i].h.accepted, Frontier(tr[i]));
  }

  /** And when every goroutine has returned, the conn carries every accepted message. */
  lemma CleanRunWritesEverything(tr: seq<State>, steps: seq<Step>, i: nat)
    requires IsRun(tr, steps) && i < |tr| && Undisturbed(tr, steps, i)
    requires forall t :: t in tr[i].threads ==> tr[i].threads[t].at == Finished
    ensures tr[i].wire == BytesOf(tr[i].h.accepted)
  {
    var s := tr[i];
    CleanRunLosesNoByte(tr, steps, i);
    RunKeepsInv(tr, steps, i);
    if s.q.msgs != [] {
      QueueHasAWriter(tr, steps, i);
      assert false;
    }
    assert s.h.accepted[..Frontier(s)] == s.h.accepted;
  }

  // ---------------------------------------------------------- a dropped batch

  /** The frontier does not go back, and an attempt that is added starts at it. */
  ghost predicate GoesOn(s: State, r: State) {
    && Frontier(s) <= Frontier(r)
    && (r.h.sent == s.h.sent ||
        (|r.h.sent| == |s.h.sent| + 1 && s.h.sent <= r.h.sent && r.h.sent[|s.h.sent|].lo == Frontier(s)))
  }

  lemma WriterGoesOn(s: State, u: Step)
    requires Queued(s) && WireOk(s) && Enabled(s, u) && (u.WriterTake? || u.WriterTest? || u.WriterSend?)
    ensures GoesOn(s, Apply(s, u))
  {
    assert ThreadOk(s, u.t);
    NonEmptyBuffers(s.q.msgs);
  }

  lemma OthersGoOn(s: State, u: Step)
    requires Queued(s) && WireOk(s) && Enabled(s, u)
    requires u.PushTest? || u.PushLocked? || u.Launch? || u.DisposeOne? || u.DisposeEnd? || u.DrainTake?
    ensures GoesOn(s, Apply(s, u))
  {
    assert ThreadOk(s, u.t);
  }

  lemma FrontierStep(s: State, u: Step)
    requires Queued(s) && WireOk(s) && Enabled(s, u)
    ensures GoesOn(s, Apply(s, u))
  {
    match u {
      case WriterTake(_) => WriterGoesOn(s, u);
      case WriterTest(_) => WriterGoesOn(s, u);
      case WriterSend(_, _, _) => WriterGoesOn(s, u);
      case Push(_, _) =>
      case SetReconnecting(_) =>
      case Stop =>
      case CleanStart(_) =>
      case _ => OthersGoOn(s, u);
    }
  }

  /** From s to r the frontier did not go back, and the attempts that were added start at or after it. */
  ghost predicate Onward(s: State, r: State) {
    && Frontier(s) <= Frontier(r) && s.h.sent <= r.h.sent
    && forall k :: |s.h.sent| <= k < |r.h.sent| ==> r.h.sent[k].lo >= Frontier(s)
  }

  lemma OnwardStep(s: State, r: State, r': State)
    requires Onward(s, r) && GoesOn(r, r')
    ensures Onward(s, r')
  {
  }

  lemma NextGoesOn(tr: seq<State>, steps: seq<Step>, i: nat)
    requires IsRun(tr, steps) && i < |steps|
    ensures GoesOn(tr[i], tr[i + 1])
  {
    RunKeepsInv(tr, steps, i);
    FrontierStep(tr[i], steps[i]);
  }

  lemma {:induction false} AttemptsGoOn(tr: seq<State>, steps: seq<Step>, i: nat, j: nat)
    requires IsRun(tr, steps) && i <= j < |tr|
    ensures Onward(tr[i], tr[j])
  {
    if i < j {
      AttemptsGoOn(tr, steps, i, j - 1);
      NextGoesOn(tr, steps, j - 1);
      OnwardStep(tr[i], tr[j - 1], tr[j]);
    }
  }

  /** The writer gets to SendN with its batch if and only if the Client is connected and no write of its has failed. */
  lemma WritesIffConnected(tr: seq<State>, steps: seq<Step>, i: nat, t: Tid)
    requires IsRun(tr, steps) && i < |steps| && steps[i] == WriterTest(t)
    ensures t in tr[i].threads && t in tr[i + 1].threads
    ensures tr[i + 1].threads[t].at == (if tr[i].reconnecting || tr[i].threads[t].closed then Disposing else Sending)
  {
  }

  /** A batch tested while the Client reconnects, or after a failed write, is never written, not even in part. */
  lemma DroppedIsNeverWritten(tr: seq<State>, steps: seq<Step>, i: nat, j: nat, t: Tid, a: Attempt)
    requires IsRun(tr, steps) && i < j < |tr| && steps[i] == WriterTest(t) && t in tr[i].threads
    requires (tr[i].reconnecting || tr[i].threads[t].closed) && a in tr[j].h.sent
    ensures a.hi <= tr[i].threads[t].lo || tr[i].threads[t].hi <= a.lo
  {
    var s, r := tr[i], tr[i + 1];
    RunKeepsInv(tr, steps, i);
    assert ThreadOk(s, t);
    AttemptsGoOn(tr, steps, i + 1, j);
    assert r == Apply(s, WriterTest(t)) && Frontier(s) == s.threads[t].lo && Frontier(r) == s.h.takenTo;
  }

  // --------------------------------------------------------- a broken writer

  /** The writer t has seen trouble, and is not in SendN. */
  predicate Broken(s: State, t: Tid) { t in s.threads && s.threads[t].closed && s.threads[t].at != Sending }

  lemma BrokenStep(s: State, u: Step, t: Tid)
    requires Enabled(s, u) && Broken(s, t)
    ensures Broken(Apply(s, u), t)
  {
  }

  lemma {:induction false} BrokenForGood(tr: seq<State>, steps: seq<Step>, i: nat, j: nat, t: Tid)
    requires IsRun(tr, steps) && i <= j < |tr| && Broken(tr[i], t)
    ensures Broken(tr[j], t)
  {
    if i < j {
      BrokenForGood(tr, steps, i, j - 1, t);
      BrokenStep(tr[j - 1], steps[j - 1], t);
    }
  }

  /** A writer whose write failed, or that dropped a batch, writes nothing more: everything it takes is dropped. */
  lemma BrokenWriterWritesNoMore(tr: seq<State>, steps: seq<Step>, i: nat, j: nat, t: Tid, ok: bool, n: nat)
    requires IsRun(tr, steps) && i < j < |steps|
    requires (steps[i].WriterSend? && steps[i].t == t && !steps[i].ok)
          || (steps[i] == WriterTest(t) && t in tr[i].threads && (tr[i].reconnecting || tr[i].threads[t].closed))
    ensures steps[j] != WriterSend(t, ok, n)
  {
    assert Broken(tr[i + 1], t);
    BrokenForGood(tr, steps, i + 1, j, t);
  }

  // ------------------------------------------------------------ after a Stop

  lemma StoppedStep(s: State, u: Step)
    requires Enabled(s, u) && !s.running
    ensures !Apply(s, u).running && Apply(s, u).h.accepted == s.h.accepted
  {
  }

  /** Once the Client is stopped, by Stop or by closeAndClean, its queue accepts nothing any more. */
  lemma {:induction false} StoppedAcceptsNothing(tr: seq<State>, steps: seq<Step>, i: nat, j: nat)
    requires IsRun(tr, steps) && i < j < |tr| && (steps[i].Stop? || steps[i].CleanStart?)
    ensures !tr[j].running && tr[j].h.accepted == tr[i].h.accepted
  {
    if i + 1 < j {
      StoppedAcceptsNothing(tr, steps, i, j - 1);
      StoppedStep(tr[j - 1], steps[j - 1]);
    }
  }

  // ------------------------------------------------------------- the pushes

  /** pushWritev goes on to the lock if and only if the Client does not reconnect; otherwise it refuses its message. */
  lemma TestRefusesIffReconnecting(tr: seq<State>, steps: seq<Step>, i: nat, t: Tid)
    requires IsRun(tr, steps) && i < |steps| && steps[i] == PushTest(t)
    ensures t in tr[i + 1].threads && tr[i + 1].h.accepted == tr[i].h.accepted
    ensures tr[i + 1].threads[t].at == if tr[i].reconnecting then Finished else AtLock
    ensures tr[i + 1].h.refused[t] == if tr[i].reconnecting then 1 else 0
  {
    RunKeepsInv(tr, steps, i);
    assert PushOk(tr[i], t);
  }

  /** The push of m by t has not been decided yet. */
  predicate Undecided(s: State, t: Tid, m: Msg) { t in s.threads && Pending(s.threads[t]) && s.threads[t].msg == m }

  /** The push of m by t is over: refused once, or m accepted as t's. */
  ghost predicate Decided(s: State, t: Tid, m: Msg) {
    && t in s.threads && !Pending(s.threads[t]) && |s.h.pusher| == |s.h.accepted|
    && (s.h.refused[t] == 1 || exists k :: 0 <= k < |s.h.pusher| && s.h.pusher[k] == t && s.h.accepted[k] == m)
  }

  lemma UndecidedStep(s: State, u: Step, t: Tid, m: Msg)
    requires Queued(s) && PushesOk(s) && Enabled(s, u) && Undecided(s, t, m)
    ensures Undecided(Apply(s, u), t, m) || Decided(Apply(s, u), t, m)
  {
    var r := Apply(s, u);
    assert PushOk(s, t);
    if u == PushLocked(t) && s.running {
      assert r.h.pusher[|s.h.pusher|] == t && r.h.accepted[|s.h.accepted|] == m;
    }
  }

  lemma DecidedStep(s: State, u: Step, t: Tid, m: Msg)
    requires Queued(s) && PushesOk(s) && Enabled(s, u) && PushesOk(Apply(s, u)) && Decided(s, t, m)
    ensures Decided(Apply(s, u), t, m)
  {
    var r := Apply(s, u);
    assert PushOk(s, t) && PushOk(r, t);
    assert s.h.pusher <= r.h.pusher && s.h.accepted <= r.h.accepted;
    if k :| 0 <= k < |s.h.pusher| && s.h.pusher[k] == t && s.h.accepted[k] == m {
      assert r.h.pusher[k] == t && r.h.accepted[k] == m;
    }
  }

  /** A push that is over has refused its message or put exactly that message into the queue. */
  lemma {:induction false} PushEnds(tr: seq<State>, steps: seq<Step>, n: nat, i: nat, t: Tid, m: Msg)
    requires IsRun(tr, steps) && n < i < |tr| && steps[n] == Push(t, m)
    ensures Undecided(tr[i], t, m) || Decided(tr[i], t, m)
  {
    if i == n + 1 {
      assert tr[i] == Apply(tr[n], Push(t, m));
    } else {
      PushEnds(tr, steps, n, i - 1, t, m);
      PushNext(tr, steps, i - 1, t, m);
    }
  }

  lemma PushNext(tr: seq<State>, steps: seq<Step>, i: nat, t: Tid, m: Msg)
    requires IsRun(tr, steps) && i < |steps| && (Undecided(tr[i], t, m) || Decided(tr[i], t, m))
    ensures Undecided(tr[i + 1], t, m) || Decided(tr[i + 1], t, m)
  {
    RunKeepsInv(tr, steps, i);
    RunKeepsInv(tr, steps, i + 1);
    if Undecided(tr[i], t, m) { UndecidedStep(tr[i], steps[i], t, m); } else { DecidedStep(tr[i], steps[i], t, m); }
  }

  /** Under the lock the message given to pushWritev is accepted, as the next one, if and only if the Client runs. */
  lemma AcceptedIffRunning(tr: seq<State>, steps: seq<Step>, n: nat, i: nat, t: Tid, m: Msg)
    requires IsRun(tr, steps) && n < i < |steps| && steps[n] == Push(t, m) && steps[i] == PushLocked(t)
    ensures tr[i + 1].h.accepted == if tr[i].running then tr[i].h.accepted + [m] else tr[i].h.accepted
    ensures tr[i + 1].h.pusher == if tr[i].running then tr[i].h.pusher + [t] else tr[i].h.pusher
    ensures tr[i + 1].h.refused[t] == if tr[i].running then 0 else 1
  {
    PushEnds(tr, steps, n, i, t, m);
    RunKeepsInv(tr, steps, i);
    assert PushOk(tr[i], t);
  }

  // --------------------------------------------------------------- the flush

  /** Steps lead from s to r. */
  ghost predicate Reaches(s: State, r: State) {
    exists tr: seq<State>, us: seq<Step> :: IsPath(tr, us) && tr[0] == s && tr[|us|] == r
  }

  ghost predicate IsPath(tr: seq<State>, us: seq<Step>) {
    && |tr| == |us| + 1
    && forall i {:trigger us[i]} :: 0 <= i < |us| ==> Enabled(tr[i], us[i]) && tr[i + 1] == Apply(tr[i], us[i])
  }

  lemma ReachesItself(s: State)
    ensures Reaches(s, s)
  {
    assert IsPath([s], []);
  }

  lemma ReachesNext(s: State, r: State, u: Step)
    requires Reaches(s, r) && Enabled(r, u)
    ensures Reaches(s, Apply(r, u))
  {
    var tr, us :| IsPath(tr, us) && tr[0] == s && tr[|us|] == r;
    var more, steps := tr + [Apply(r, u)], us + [u];
    assert forall i {:trigger steps[i]} :: 0 <= i < |us| ==> steps[i] == us[i];
    assert IsPath(more, steps);
  }

  /** On the way from s0 the goroutine w is the writer of a healthy connection. */
  ghost predicate Going(s0: State, s: State, w: Tid) {
    && Reaches(s0, s) && Queued(s) && s.h.accepted == s0.h.accepted && !s.reconnecting
    && s.h.writer == Some(w) && w in s.threads && !s.threads[w].closed
  }

  lemma GoesTo(s0: State, s: State, w: Tid, u: Step)
    requires Going(s0, s, w) && Enabled(s, u)
    ensures Reaches(s0, Apply(s, u)) && Queued(Apply(s, u))
  {
    ReachesNext(s0, s, u);
    QueuedStep(s, u);
  }

  /** It disposes of its batch and looks for more. */
  lemma {:induction false} Disposes(s0: State, s: State, w: Tid) returns (r: State)
    requires Going(s0, s, w) && AtPhase(s, w, Disposing)
    ensures Going(s0, r, w) && AtPhase(r, w, Loop) && r.wire == s.wire && r.q == s.q && r.h.takenTo == s.h.takenTo
    decreases s.threads[w].hi - s.threads[w].lo
  {
    assert ThreadOk(s, w);
    if s.threads[w].lo < s.threads[w].hi {
      GoesTo(s0, s, w, DisposeOne(w));
      r := Disposes(s0, Apply(s, DisposeOne(w)), w);
    } else {
      GoesTo(s0, s, w, DisposeEnd(w));
      r := Apply(s, DisposeEnd(w));
    }
  }

  /** It writes its batch, disposes of it and looks for more. */
  lemma WritesBatch(s0: State, s: State, w: Tid) returns (r: State)
    requires Going(s0, s, w) && AtPhase(s, w, Sending)
    ensures Going(s0, r, w) && AtPhase(r, w, Loop) && r.q == s.q && r.h.takenTo == s.h.takenTo
    ensures s.threads[w].lo <= s.threads[w].hi <= |s.h.accepted|
    ensures r.wire == s.wire + BytesOf(s.h.accepted[s.threads[w].lo..s.threads[w].hi])
  {
    assert ThreadOk(s, w);
    GoesTo(s0, s, w, WriterSend(w, true, 0));
    r := Disposes(s0, Apply(s, WriterSend(w, true, 0)), w);
  }

  lemma TestsBatch(s0: State, s: State, w: Tid) returns (r: State)
    requires Going(s0, s, w) && AtPhase(s, w, Batch)
    ensures Going(s0, r, w) && AtPhase(r, w, Loop) && r.q == s.q && r.h.takenTo == s.h.takenTo
    ensures s.threads[w].lo <= s.threads[w].hi <= |s.h.accepted|
    ensures r.wire == s.wire + BytesOf(s.h.accepted[s.threads[w].lo..s.threads[w].hi])
  {
    assert ThreadOk(s, w);
    GoesTo(s0, s, w, WriterTest(w));
    r := WritesBatch(s0, Apply(s, WriterTest(w)), w);
  }

  /** The queue was emptied, the writer has returned, and out was written. */
  ghost predicate Flushed(s0: State, s: State, r: State, out: Bytes) {
    && Reaches(s0, r) && r.h.accepted == s0.h.accepted
    && r.q == Queue([], [], false) && r.h.writer == None && r.wire == s.wire + out
  }

  lemma Exits(s0: State, s: State, w: Tid) returns (r: State)
    requires Going(s0, s, w) && AtPhase(s, w, Loop) && s.q.msgs == []
    ensures Flushed(s0, s, r, [])
  {
    NonEmptyBuffers(s.q.msgs);
    GoesTo(s0, s, w, WriterTake(w));
    r := Apply(s, WriterTake(w));
  }

  lemma FlushesFromLoop(s0: State, s: State, w: Tid) returns (r: State)
    requires Going(s0, s, w) && AtPhase(s, w, Loop)
    ensures Flushed(s0, s, r, BytesOf(s.q.msgs))
  {
    NonEmptyBuffers(s.q.msgs);
    if s.q.msgs == [] {
      r := Exits(s0, s, w);
    } else {
      GoesTo(s0, s, w, WriterTake(w));
      var took := Apply(s, WriterTake(w));
      assert s.h.accepted[took.threads[w].lo..took.threads[w].hi] == s.q.msgs;
      var wrote := TestsBatch(s0, took, w);
      r := Exits(s0, wrote, w);
    }
  }

  /** The batch the writer has taken and not written. */
  function InHand(s: State, w: Tid): (ms: seq<Msg>)
    requires w in s.threads && (Unsent(s.threads[w]) ==> s.threads[w].lo <= s.threads[w].hi <= |s.h.accepted|)
  {
    if Unsent(s.threads[w]) then s.h.accepted[s.threads[w].lo..s.threads[w].hi] else []
  }

  /** Wherever it is, the writer can get to the top of its loop with its batch written. */
  lemma GetsToLoop(s: State, w: Tid) returns (r: State)
    requires Going(s, s, w) && s.threads[w].at in {Batch, Sending, Disposing, Loop}
    requires Unsent(s.threads[w]) ==> s.threads[w].lo <= s.threads[w].hi <= |s.h.accepted|
    ensures Going(s, r, w) && AtPhase(r, w, Loop) && r.q == s.q && r.wire == s.wire + BytesOf(InHand(s, w))
  {
    r := s;
    match s.threads[w].at {
      case Batch => r := TestsBatch(s, s, w);
      case Sending => r := WritesBatch(s, s, w);
      case Disposing => r := Disposes(s, s, w);
      case Loop =>
    }
  }

  lemma FreshTid(threads: map<Tid, Pc>) returns (w: Tid)
    ensures w !in threads
  {
    w := 0;
    var left := threads.Keys;
    while w in left
      invariant forall t :: t in threads && t >= w ==> t in left
      decreases left
    {
      left := left - {w};
      w := w + 1;
    }
  }

  /** A goroutine about to start the writer starts it. */
  lemma Launches(s: State, t: Tid) returns (w: Tid)
    requires Going(s, s, t) && AtPhase(s, t, Launching)
    ensures Enabled(s, Launch(t, w)) && Going(s, Apply(s, Launch(t, w)), w) && AtPhase(Apply(s, Launch(t, w)), w, Loop)
    ensures Apply(s, Launch(t, w)).q == s.q && Apply(s, Launch(t, w)).wire == s.wire
  {
    w := FreshTid(s.threads);
    GoesTo(s, s, t, Launch(t, w));
  }

  lemma FlushedVia(s: State, looking: State, r: State, a: Bytes, b: Bytes)
    requires Flushed(s, looking, r, b) && looking.wire == s.wire + a
    ensures Flushed(s, s, r, a + b)
  {
    assert (s.wire + a) + b == s.wire + (a + b);
  }

  lemma FlushesAfterLaunch(s: State, t: Tid) returns (r: State)
    requires Going(s, s, t) && AtPhase(s, t, Launching)
    ensures Flushed(s, s, r, BytesOf(InHand(s, t)) + BytesOf(s.q.msgs))
  {
    var w := Launches(s, t);
    var looking := Apply(s, Launch(t, w));
    r := FlushesFromLoop(s, looking, w);
    FlushedVia(s, looking, r, [], BytesOf(s.q.msgs));
  }

  lemma FlushesFrom(s: State, w: Tid) returns (r: State)
    requires Going(s, s, w) && s.threads[w].at in {Batch, Sending, Disposing, Loop}
    requires Unsent(s.threads[w]) ==> s.threads[w].lo <= s.threads[w].hi <= |s.h.accepted|
    ensures Flushed(s, s, r, BytesOf(InHand(s, w)) + BytesOf(s.q.msgs))
  {
    var looking := GetsToLoop(s, w);
    r := FlushesFromLoop(s, looking, w);
    FlushedVia(s, looking, r, BytesOf(InHand(s, w)), BytesOf(s.q.msgs));
  }

  /**
   From every reachable state with a healthy connection the writer can go on:
   there are steps after which the queue is empty, the writer has returned, and
   the conn carries what it had in hand and all that was queued.
   */
  lemma WriterCanFlush(tr: seq<State>, steps: seq<Step>, i: nat, w: Tid) returns (r: State)
    requires IsRun(tr, steps) && i < |tr| && IsWriter(tr[i], w) && !tr[i].reconnecting && !tr[i].threads[w].closed
    ensures Unsent(tr[i].threads[w]) ==> tr[i].threads[w].lo <= tr[i].threads[w].hi <= |tr[i].h.accepted|
    ensures Flushed(tr[i], tr[i], r, BytesOf(InHand(tr[i], w)) + BytesOf(tr[i].q.msgs))
  {
    var s := tr[i];
    RunKeepsInv(tr, steps, i);
    assert ThreadOk(s, w);
    ReachesItself(s);
    if s.threads[w].at == Launching {
      r := FlushesAfterLaunch(s, w);
    } else {
      r := FlushesFrom(s, w);
    }
  }

  /** A push to a running, connected Client can be accepted: its message is the last of the queue. */
  lemma PushCanBeAccepted(s: State, t: Tid, m: Msg) returns (r: State)
    requires Queued(s) && s.running && !s.reconnecting && t !in s.threads
    ensures Reaches(s, r) && Queued(r) && r.h.accepted == s.h.accepted + [m] && r.q.msgs == s.q.msgs + [m]
    ensures r.wire == s.wire && !r.reconnecting && r.h.writer.Some? && r.h.writer.value in r.threads
    ensures s.h.writer.Some? ==> r.h.writer == s.h.writer && r.threads[r.h.writer.value] == s.threads[r.h.writer.value]
    ensures s.h.writer.None? ==> r.h.writer == Some(t) && AtPhase(r, t, Launching) && !r.threads[t].closed
  {
    ReachesItself(s);
    var a := Apply(s, Push(t, m));
    ReachesNext(s, s, Push(t, m));
    QueuedStep(s, Push(t, m));
    var b := Apply(a, PushTest(t));
    ReachesNext(s, a, PushTest(t));
    QueuedStep(a, PushTest(t));
    r := Apply(b, PushLocked(t));
    ReachesNext(s, b, PushLocked(t));
    QueuedStep(b, PushLocked(t));
  }

  lemma AcceptedCanBeWritten(s: State, w: Tid) returns (r: State)
    requires Queued(s) && !s.reconnecting && s.h.writer == Some(w) && w in s.threads && !s.threads[w].closed
    ensures Unsent(s.threads[w]) ==> s.threads[w].lo <= s.threads[w].hi <= |s.h.accepted|
    ensures Flushed(s, s, r, BytesOf(InHand(s, w)) + BytesOf(s.q.msgs))
  {
    ReachesItself(s);
    assert ThreadOk(s, w);
    if s.threads[w].at == Launching { r := FlushesAfterLaunch(s, w); } else { r := FlushesFrom(s, w); }
  }

  /** So every message pushed while the connection is healthy can get onto the wire, after those before it. */
  lemma PushCanBeWritten(tr: seq<State>, steps: seq<Step>, i: nat, t: Tid, m: Msg) returns (p: State, r: State)
    requires IsRun(tr, steps) && i < |tr| && tr[i].running && !tr[i].reconnecting && t !in tr[i].threads
    requires forall w: Tid :: IsWriter(tr[i], w) ==> !tr[i].threads[w].closed
    ensures Reaches(tr[i], p) && p.h.accepted == tr[i].h.accepted + [m] && p.wire == tr[i].wire
    ensures p.q.msgs == tr[i].q.msgs + [m] && p.h.writer.Some? && p.h.writer.value in p.threads
    ensures var q := p.threads[p.h.writer.value]; Unsent(q) ==> q.lo <= q.hi <= |p.h.accepted|
    ensures Flushed(p, p, r, BytesOf(InHand(p, p.h.writer.value)) + BytesOf(p.q.msgs))
  {
    RunKeepsInv(tr, steps, i);
    if tr[i].h.writer.Some? { assert IsWriter(tr[i], tr[i].h.writer.value); }
    p := PushCanBeAccepted(tr[i], t, m);
    r := AcceptedCanBeWritten(p, p.h.writer.value);
  }

  /** A new Client is connected: its first message can be all that is on the wire. */
  lemma FirstMessageCanBeWritten(t: Tid, m: Msg) returns (p: State, r: State)
    ensures Reaches(Start, p) && Reaches(p, r) && r.h.accepted == [m] && r.wire == BytesOf([m])
  {
    StartInv();
    p := PushCanBeAccepted(Start, t, m);
    r := AcceptedCanBeWritten(p, t);
    assert p.q.msgs == [m] && p.h.accepted == [m] && p.wire + ([] + BytesOf([m])) == BytesOf([m]);
  }

  /** The conn can break, and the Client stop, at any time; the drain then empties the queue for good. */
  lemma ClientCanBeDrained(tr: seq<State>, steps: seq<Step>, i: nat, t: Tid) returns (r: State)
    requires IsRun(tr, steps) && i < |tr| && t !in tr[i].threads
    ensures Reaches(tr[i], r) && r.h.drained && !r.running && r.reconnecting && r.q.msgs == [] && r.q.buffers == []
    ensures r.h.accepted == tr[i].h.accepted && r.wire == tr[i].wire
  {
    var s := tr[i];
    ReachesItself(s);
    ReachesNext(s, s, SetReconnecting(true));
    var a := Apply(s, SetReconnecting(true));
    ReachesNext(s, a, Stop);
    var b := Apply(a, Stop);
    ReachesNext(s, b, CleanStart(t));
    var c := Apply(b, CleanStart(t));
    ReachesNext(s, c, DrainTake(t));
    r := Apply(c, DrainTake(t));
  }
}
