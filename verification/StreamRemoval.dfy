/**
 When the receiver's map entry of a Stream goes away, and that it can always be
 brought to go away (stream.go, client.go).
 */
module StreamRemoval {
  import opened Prelude
  import opened StreamModel
  import opened StreamDelivery
  import opened StreamProgress
  import C = StreamClosing

  // ------------------------------------------------------------------ the entry

  /** The halves of the receiver's Stream that have been counted. */
  function Counted(s: State): (n: nat)
    requires |s.peers| > 0
  {
    var p := s.peers[0];
    (if p.stream.stateRecv && s.disp.at != ClosingData && s.disp.at != Counting then 1 else 0) +
    (if p.closer == ToDelete || p.closer == Over then 1 else 0)
  }

  /** The Stream was there before the message taken last. */
  predicate Known(c: Config, s: State) { c.local || |s.sent| - |s.link| > 1 }

  /** Some goroutine has counted the second half and not yet deleted the entry. */
  predicate Removing(s: State)
    requires |s.peers| > 0
  {
    s.disp.at == Deleting || s.peers[0].closer == ToDelete
  }

  ghost predicate EntryOk(c: Config, s: State)
    requires |s.peers| > 0
  {
    && s.peers[0].stream.closeCnt == Counted(s)
    && (Removing(s) ==> Counted(s) == 2)
    && (EofTaken(s) && (Known(c, s) || (Counted(s) == 2 && !Removing(s))) ==> s.entry.None?)
    && (s.entry.None? ==> EofTaken(s) && (Known(c, s) || Counted(s) == 2))
  }

  lemma EntrySend(c: Config, s: State, u: Step)
    requires Inv(c, s) && Enabled(c, s, u) && Offered(u).Some? && |s.peers| == 1 && EntryOk(c, s)
    ensures EntryOk(c, Apply(c, s, u))
  {
    if !s.sendClosed { SendKeepsTaken(s, Offered(u).value); }
  }

  lemma EntryLookup(c: Config, s: State)
    requires Inv(c, s) && Enabled(c, s, Lookup) && (|s.peers| == 1 ==> EntryOk(c, s))
    ensures |Apply(c, s, Lookup).peers| == 1 ==> EntryOk(c, Apply(c, s, Lookup))
  {
    TakesOne(s);
    if |s.peers| == 1 { assert PeerOk(s, s.peers[0]); }
  }

  /** A step of a Recv caller, or of the goroutine that closes the receiver's own half. */
  predicate ByPeer(u: Step) {
    u.RecvTakes? || u.RecvSeesFlag? || u.RecvSeesClosed? || u.PeerWins? || u.PeerCounts? || u.PeerDeletes?
  }

  lemma EntryPeer(c: Config, s: State, u: Step)
    requires Inv(c, s) && Enabled(c, s, u) && ByPeer(u) && |s.peers| == 1 && EntryOk(c, s)
    ensures |Apply(c, s, u).peers| == 1 && EntryOk(c, Apply(c, s, u))
  {
    assert PeerOk(s, s.peers[0]);
    assert EofTaken(Apply(c, s, u)) == EofTaken(s) && Known(c, Apply(c, s, u)) == Known(c, s);
  }

  lemma EntryReceive(c: Config, s: State, u: Step)
    requires Inv(c, s) && Enabled(c, s, u) && Offered(u).None? && !u.Lookup? && !ByPeer(u)
    requires |s.peers| == 1 && EntryOk(c, s)
    ensures |Apply(c, s, u).peers| == 1 && EntryOk(c, Apply(c, s, u))
  {
    assert PeerOk(s, s.peers[0]);
    assert EofTaken(Apply(c, s, u)) == EofTaken(s) && Known(c, Apply(c, s, u)) == Known(c, s);
  }

  lemma {:induction false} RunKeepsEntry(c: Config, tr: seq<State>, steps: seq<Step>, i: nat)
    requires IsRun(c, tr, steps) && i < |tr|
    ensures |tr[i].peers| == 1 ==> EntryOk(c, tr[i])
  {
    if i > 0 {
      RunKeepsEntry(c, tr, steps, i - 1);
      RunKeepsInv(c, tr, steps, i - 1);
      if steps[i - 1].Lookup? {
        EntryLookup(c, tr[i - 1]);
      } else if |tr[i - 1].peers| == 1 {
        if Offered(steps[i - 1]).Some? {
          EntrySend(c, tr[i - 1], steps[i - 1]);
        } else if ByPeer(steps[i - 1]) {
          EntryPeer(c, tr[i - 1], steps[i - 1]);
        } else {
          EntryReceive(c, tr[i - 1], steps[i - 1]);
        }
      }
    }
  }

  /** No call to close a half of the receiver's Stream is under way. */
  predicate Settled(s: State)
    requires |s.peers| > 0
  {
    s.disp.at == Idle && s.peers[0].closer in {Open, Over}
  }

  /**
   The entry is gone if and only if the sender's EOF was taken and either the Stream
   was there before it, or the receiver has closed its own half too.
   */
  lemma EntryGoneIff(c: Config, tr: seq<State>, steps: seq<Step>, i: nat)
    requires IsRun(c, tr, steps) && i < |tr| && |tr[i].peers| > 0 && Settled(tr[i])
    ensures var s := tr[i];
            s.entry.None? <==> EofTaken(s) && (Known(c, s) || s.peers[0].stream.stateSend)
  {
    RunKeepsInv(c, tr, steps, i);
    RunKeepsEntry(c, tr, steps, i);
    RunKeepsEof(c, tr, steps, i);
    assert PeerOk(tr[i], tr[i].peers[0]);
  }

  // ------------------------------------------------------------------ the queue

  lemma BoundedStep(c: Config, s: State, u: Step)
    requires Inv(c, s) && Enabled(c, s, u) && (|s.peers| == 1 ==> |s.peers[0].stream.queue| <= c.cap)
    ensures |Apply(c, s, u).peers| == 1 ==> |Apply(c, s, u).peers[0].stream.queue| <= c.cap
  {
  }

  /** chData never holds more than StreamQueueSize messages. */
  lemma {:induction false} QueueIsBounded(c: Config, tr: seq<State>, steps: seq<Step>, i: nat)
    requires IsRun(c, tr, steps) && i < |tr|
    ensures |tr[i].peers| == 1 ==> |tr[i].peers[0].stream.queue| <= c.cap
  {
    if i > 0 {
      QueueIsBounded(c, tr, steps, i - 1);
      RunKeepsInv(c, tr, steps, i - 1);
      BoundedStep(c, tr[i - 1], steps[i - 1]);
    }
  }

  // ----------------------------------------------------------------- the io.EOF

  lemma EofStays(c: Config, s: State, u: Step, k: nat)
    requires Enabled(c, s, u) && k < |s.peers| && s.peers[k].eof
    ensures k < |Apply(c, s, u).peers| && Apply(c, s, u).peers[k].eof
  {
  }

  /** After io.EOF Recv returns no message any more: all there ever are were returned before. */
  lemma {:induction false} EofIsFinal(c: Config, tr: seq<State>, steps: seq<Step>, i: nat, j: nat, k: nat)
    requires IsRun(c, tr, steps) && i < j < |tr| && (steps[i] == RecvSeesFlag(k) || steps[i] == RecvSeesClosed(k))
    ensures k < |tr[j].peers| && tr[j].peers[k].eof && tr[j].peers[k].received == NonEmpty(tr[j].sent)
  {
    if i + 1 < j {
      EofIsFinal(c, tr, steps, i, j - 1, k);
      EofStays(c, tr[j - 1], steps[j - 1], k);
    }
    EofComesLast(c, tr, steps, j, k);
  }

  // -------------------------------------------------------------- continuations

  ghost predicate Extends(c: Config, tr: seq<State>, steps: seq<Step>, tr': seq<State>, steps': seq<Step>) {
    IsRun(c, tr', steps') && tr <= tr' && steps <= steps'
  }

  /** Whatever is offered to an open Stream can be received, if there is anyone to receive it. */
  lemma OfferedCanBeReceived(c: Config, tr: seq<State>, steps: seq<Step>, u: Step)
    returns (tr': seq<State>, steps': seq<Step>)
    requires IsRun(c, tr, steps) && (c.local || c.handled) && Offered(u).Some? && !tr[|steps|].sendClosed
    ensures Extends(c, tr, steps, tr', steps') && |tr'[|steps'|].peers| > 0
    ensures tr'[|steps'|].peers[0].received == NonEmpty(tr[|steps|].sent + [Offered(u).value])
  {
    tr', steps' := Continue(c, tr, steps, u);
    tr', steps' := EverythingCanBeReceived(c, tr', steps');
  }

  function CloserAhead(at: Closer): (n: nat) {
    match at
    case Open => 3
    case Won => 2
    case ToDelete => 1
    case Over => 0
  }

  /** Only the receiver's own half, and its entry, differ. */
  predicate OnlyCloses(s: State, r: State) {
    && |r.peers| == |s.peers| > 0 && r.disp == s.disp && r.sent == s.sent && r.link == s.link
    && r.peers[0].received == s.peers[0].received && r.peers[0].eof == s.peers[0].eof
  }

  lemma PeerGoesOn(c: Config, s: State) returns (u: Step)
    requires Inv(c, s) && |s.peers| > 0 && s.peers[0].closer != Over
    ensures Enabled(c, s, u) && OnlyCloses(s, Apply(c, s, u))
    ensures CloserAhead(Apply(c, s, u).peers[0].closer) < CloserAhead(s.peers[0].closer)
  {
    assert PeerOk(s, s.peers[0]);
    match s.peers[0].closer {
      case Open => u := PeerWins(0);
      case Won => u := PeerCounts(0);
      case ToDelete => u := PeerDeletes(0);
    }
  }

  /** The receiver can close its own half, and is then done with it. */
  lemma {:induction false} PeerCanClose(c: Config, tr: seq<State>, steps: seq<Step>)
    returns (tr': seq<State>, steps': seq<Step>)
    requires IsRun(c, tr, steps) && |tr[|steps|].peers| > 0
    ensures Extends(c, tr, steps, tr', steps') && OnlyCloses(tr[|steps|], tr'[|steps'|])
    ensures tr'[|steps'|].peers[0].closer == Over && tr'[|steps'|].peers[0].stream.stateSend
    decreases CloserAhead(tr[|steps|].peers[0].closer)
  {
    RunKeepsInv(c, tr, steps, |steps|);
    tr', steps' := tr, steps;
    if tr[|steps|].peers[0].closer == Over {
      assert PeerOk(tr[|steps|], tr[|steps|].peers[0]);
    } else {
      var u := PeerGoesOn(c, tr[|steps|]);
      tr', steps' := Continue(c, tr, steps, u);
      tr', steps' := PeerCanClose(c, tr', steps');
    }
  }

  /** The sender can close, Recv can return everything and then io.EOF. */
  lemma StreamCanEnd(c: Config, tr: seq<State>, steps: seq<Step>) returns (tr': seq<State>, steps': seq<Step>)
    requires IsRun(c, tr, steps) && (c.local || c.handled)
    ensures Extends(c, tr, steps, tr', steps')
    ensures var r := tr'[|steps'|];
            |r.peers| > 0 && r.sendClosed && r.disp.at == Idle && r.link == [] && r.peers[0].eof
  {
    tr', steps' := Continue(c, tr, steps, CloseSend);
    RunKeepsInv(c, tr', steps', |steps'|);
    tr', steps' := EverythingCanBeReceived(c, tr', steps');
    NothingLeft(c, tr', steps', |steps'|);
    tr', steps' := Continue(c, tr', steps', RecvSeesFlag(0));
  }

  /** Every Stream can be closed from both ends, after which its receiver has no entry for it any more. */
  lemma StreamCanBeRemoved(c: Config, tr: seq<State>, steps: seq<Step>) returns (tr': seq<State>, steps': seq<Step>)
    requires IsRun(c, tr, steps) && (c.local || c.handled)
    ensures Extends(c, tr, steps, tr', steps')
    ensures var r := tr'[|steps'|];
            |r.peers| > 0 && r.peers[0].eof && r.peers[0].stream.stateSend && r.sendClosed && r.entry.None?
  {
    tr', steps' := StreamCanEnd(c, tr, steps);
    tr', steps' := PeerCanClose(c, tr', steps');
    EntryGoneIff(c, tr', steps', |steps'|);
    EofComesLast(c, tr', steps', |steps'|, 0);
    RunKeepsInv(c, tr', steps', |steps'|);
  }

  // -------------------------------------------------------------- calls to close

  /** Every step of a call brings it closer to its return, and a call begins with the half it is to close. */
  lemma EveryStepAdvances(tr: seq<C.State>, steps: seq<C.Step>, i: nat)
    requires C.IsRun(tr, steps) && i < |steps|
    ensures steps[i].t in tr[i + 1].threads
    ensures steps[i].Begin? ==> tr[i + 1].threads[steps[i].t] == C.Thread(steps[i].op, C.Begun)
    ensures !steps[i].Begin? ==>
              steps[i].t in tr[i].threads &&
              Ahead(tr[i + 1].threads[steps[i].t].at) < Ahead(tr[i].threads[steps[i].t].at)
  {
  }

  lemma ContinueCalls(tr: seq<C.State>, steps: seq<C.Step>, u: C.Step)
    returns (more: seq<C.State>, longer: seq<C.Step>)
    requires C.IsRun(tr, steps) && C.Enabled(tr[|steps|], u)
    ensures more == tr + [C.Apply(tr[|steps|], u)] && longer == steps + [u] && C.IsRun(more, longer)
  {
    more, longer := tr + [C.Apply(tr[|steps|], u)], steps + [u];
    assert forall i {:trigger longer[i]} :: 0 <= i < |steps| ==> longer[i] == steps[i];
  }

  ghost predicate CallsExtend(
    tr: seq<C.State>, steps: seq<C.Step>, tr': seq<C.State>, steps': seq<C.Step>)
  {
    C.IsRun(tr', steps') && tr <= tr' && steps <= steps'
  }

  /** Call t has its half closed, or is on the way to close it. */
  predicate Closes(s: C.State, t: C.Tid) {
    t in s.threads &&
    if s.threads[t].op == C.CloseRecv then s.threads[t].at == C.Begun || s.stream.stateRecv
    else s.threads[t].at in {C.Begun, C.InSend} || s.stream.stateSend
  }

  /** Closed halves stay closed, and owners stay owners. */
  predicate Holds(s: C.State, r: C.State) {
    && (s.stream.stateRecv ==> r.stream.stateRecv && r.hist.recvOwner == s.hist.recvOwner)
    && (s.stream.stateSend ==> r.stream.stateSend && r.hist.sendOwner == s.hist.sendOwner)
    && (s.hist.deleter.Some? ==> r.hist.deleter == s.hist.deleter)
    && (forall t :: t in s.threads ==> t in r.threads && (s.threads[t].at == C.Ended ==> r.threads[t].at == C.Ended))
  }

  lemma OneStepOn(s: C.State, t: C.Tid) returns (u: C.Step)
    requires C.Inv(s) && t in s.threads && s.threads[t].at != C.Ended
    ensures C.Enabled(s, u) && Holds(s, C.Apply(s, u)) && (Closes(s, t) ==> Closes(C.Apply(s, u), t))
    ensures Ahead(C.Apply(s, u).threads[t].at) < Ahead(s.threads[t].at)
    ensures C.Apply(s, u).threads[t].op == s.threads[t].op
  {
    assert C.ThreadOk(s, t);
    match s.threads[t].at {
      case Begun => u := C.First(t);
      case Claimed => u := C.DataClosed(t);
      case InSend => u := C.SendSwap(t);
      case ToCount => u := C.Counts(t);
      case ToDelete => u := C.Deletes(t);
    }
  }

  /** A call under way can go on alone until it has returned. */
  lemma {:induction false} CallCanEnd(tr: seq<C.State>, steps: seq<C.Step>, t: C.Tid)
    returns (tr': seq<C.State>, steps': seq<C.Step>)
    requires C.IsRun(tr, steps) && t in tr[|steps|].threads
    ensures CallsExtend(tr, steps, tr', steps') && Holds(tr[|steps|], tr'[|steps'|])
    ensures C.At(tr'[|steps'|], t, C.Ended) && tr'[|steps'|].threads[t].op == tr[|steps|].threads[t].op
    ensures Closes(tr[|steps|], t) ==> Closes(tr'[|steps'|], t)
    decreases Ahead(tr[|steps|].threads[t].at)
  {
    tr', steps' := tr, steps;
    if tr[|steps|].threads[t].at != C.Ended {
      C.RunKeepsInv(tr, steps, |steps|);
      var u := OneStepOn(tr[|steps|], t);
      tr', steps' := ContinueCalls(tr, steps, u);
      tr', steps' := CallCanEnd(tr', steps', t);
    }
  }

  lemma FreshCall(threads: map<C.Tid, C.Thread>) returns (t: C.Tid)
    ensures t !in threads
  {
    t := 0;
    var left := threads.Keys;
    while t in left
      invariant forall w :: w in threads && w >= t ==> w in left
      decreases left
    {
      left := left - {t};
      t := t + 1;
    }
  }

  /** Each of the three calls can be made at any time, and closes its half. */
  lemma CallCanClose(tr: seq<C.State>, steps: seq<C.Step>, op: C.Op)
    returns (tr': seq<C.State>, steps': seq<C.Step>)
    requires C.IsRun(tr, steps)
    ensures CallsExtend(tr, steps, tr', steps') && Holds(tr[|steps|], tr'[|steps'|])
    ensures if op == C.CloseRecv then tr'[|steps'|].stream.stateRecv else tr'[|steps'|].stream.stateSend
  {
    var t := FreshCall(tr[|steps|].threads);
    tr', steps' := ContinueCalls(tr, steps, C.Begin(t, op));
    tr', steps' := CallCanEnd(tr', steps', t);
  }

  /** Whatever calls are under way, the Stream can be brought to be deleted. */
  lemma StreamCanBeDeleted(tr: seq<C.State>, steps: seq<C.Step>) returns (tr': seq<C.State>, steps': seq<C.Step>)
    requires C.IsRun(tr, steps)
    ensures CallsExtend(tr, steps, tr', steps') && tr'[|steps'|].deletes == 1
  {
    tr', steps' := CallCanClose(tr, steps, C.CloseRecv);
    tr', steps' := CallCanClose(tr', steps', C.CloseSend);
    C.RunKeepsInv(tr', steps', |steps'|);
    tr', steps' := CallCanEnd(tr', steps', tr'[|steps'|].hist.recvOwner.value);
    C.RunKeepsInv(tr', steps', |steps'|);
    tr', steps' := CallCanEnd(tr', steps', tr'[|steps'|].hist.sendOwner.value);
    C.RunKeepsInv(tr', steps', |steps'|);
    tr', steps' := CallCanEnd(tr', steps', tr'[|steps'|].hist.deleter.value);
    C.RunKeepsInv(tr', steps', |steps'|);
  }
}
