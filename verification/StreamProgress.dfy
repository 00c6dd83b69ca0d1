/**
 What a Stream does for its two ends, over every run: an open half accepts what it
 is given, all of it can be received, the end of the stream after it, and closing
 a half closes it (stream.go).
 */
module StreamProgress {
  import opened Prelude
  import opened StreamModel
  import opened StreamDelivery
  import C = StreamClosing

  // ------------------------------------------------------------------- sending

  /** What a step of the sender offers to its Stream. */
  function Offered(u: Step): (m: Option<StreamMsg>) {
    match u
    case Send(data) => Some(StreamMsg(data, false))
    case SendAndClose(data) => Some(StreamMsg(data, true))
    case CloseSend => Some(StreamMsg([], true))
    case _ => None
  }

  /** An open send half accepts exactly the data given, and is closed by an EOF; a closed one accepts nothing. */
  lemma OpenHalfAccepts(c: Config, tr: seq<State>, steps: seq<Step>, i: nat)
    requires IsRun(c, tr, steps) && i < |steps|
    ensures var m := Offered(steps[i]);
            && tr[i + 1].sent == (if m.Some? && !tr[i].sendClosed then tr[i].sent + [m.value] else tr[i].sent)
            && tr[i + 1].sendClosed == (tr[i].sendClosed || (m.Some? && m.value.eof))
  {
    AcceptsStep(c, tr[i], steps[i]);
  }

  lemma AcceptsStep(c: Config, s: State, u: Step)
    requires Enabled(c, s, u)
    ensures var r, m := Apply(c, s, u), Offered(u);
            && r.sent == (if m.Some? && !s.sendClosed then s.sent + [m.value] else s.sent)
            && r.sendClosed == (s.sendClosed || (m.Some? && m.value.eof))
  {
  }

  // ----------------------------------------------------------------- receiving

  function PhaseWork(at: Phase): (n: nat) {
    match at
    case Idle => 0
    case Delivering => 8
    case Closing => 5
    case ClosingData => 4
    case Counting => 3
    case Deleting => 2
  }

  /** What the receiver has yet to do with the messages that were sent. */
  function Work(s: State): (n: nat) {
    10 * |s.link| + PhaseWork(s.disp.at) + if |s.peers| > 0 then |s.peers[0].stream.queue| else 0
  }

  /** The sender's EOF, once dispatched, has closed the receive half. */
  ghost predicate EofOk(s: State) {
    |s.peers| == 1 && EofTaken(s) && s.disp.at != Delivering && s.disp.at != Closing ==> s.peers[0].stream.stateRecv
  }

  lemma EofSend(c: Config, s: State, u: Step)
    requires Inv(c, s) && EofOk(s) && Enabled(c, s, u) && Offered(u).Some?
    ensures EofOk(Apply(c, s, u))
  {
    if !s.sendClosed { SendKeepsTaken(s, Offered(u).value); }
  }

  /** Every step of the receiver but the look-up leaves the link alone. */
  lemma LinkStays(c: Config, s: State, u: Step)
    requires Enabled(c, s, u) && Offered(u).None? && !u.Lookup?
    ensures Apply(c, s, u).sent == s.sent && Apply(c, s, u).link == s.link && |Apply(c, s, u).peers| == |s.peers|
  {
  }

  /** None of them opens the receive half again, and the dispatcher gets past its swap only with the half closed. */
  lemma EofReceive(c: Config, s: State, u: Step)
    requires Inv(c, s) && EofOk(s) && Enabled(c, s, u) && Offered(u).None? && !u.Lookup?
    ensures EofOk(Apply(c, s, u))
  {
    LinkStays(c, s, u);
    if |s.peers| == 1 && EofTaken(s) { HalfStaysClosed(c, s, u); }
  }

  lemma HalfStaysClosed(c: Config, s: State, u: Step)
    requires Inv(c, s) && EofOk(s) && Enabled(c, s, u) && Offered(u).None? && !u.Lookup?
    requires |s.peers| == 1 && EofTaken(s) && |Apply(c, s, u).peers| == 1
    ensures var r := Apply(c, s, u);
            r.disp.at != Delivering && r.disp.at != Closing ==> r.peers[0].stream.stateRecv
  {
  }

  lemma EofLookup(c: Config, s: State)
    requires Inv(c, s) && EofOk(s) && Enabled(c, s, Lookup)
    ensures EofOk(Apply(c, s, Lookup))
  {
    TakesOne(s);
  }

  lemma EofStep(c: Config, s: State, u: Step)
    requires Inv(c, s) && EofOk(s) && Enabled(c, s, u)
    ensures EofOk(Apply(c, s, u))
  {
    if u.Lookup? { EofLookup(c, s); } else if Offered(u).Some? { EofSend(c, s, u); } else { EofReceive(c, s, u); }
  }

  lemma {:induction false} RunKeepsEof(c: Config, tr: seq<State>, steps: seq<Step>, i: nat)
    requires IsRun(c, tr, steps) && i < |tr|
    ensures EofOk(tr[i])
  {
    if i > 0 {
      RunKeepsEof(c, tr, steps, i - 1);
      RunKeepsInv(c, tr, steps, i - 1);
      EofStep(c, tr[i - 1], steps[i - 1]);
    }
  }

  /** A step of the receiver that leaves less to do. */
  ghost predicate Helps(c: Config, s: State, u: Step) {
    Enabled(c, s, u) && Work(Apply(c, s, u)) < Work(s) && Apply(c, s, u).sent == s.sent
    && Apply(c, s, u).sendClosed == s.sendClosed
  }

  lemma DeliveryHelps(c: Config, s: State) returns (u: Step)
    requires Inv(c, s) && s.disp.at == Delivering
    ensures Helps(c, s, u)
  {
    assert PeerOk(s, s.peers[0]);
    if s.disp.msg.data == [] || Target(s).stateRecv {
      u := Ignores;
    } else if |Target(s).queue| < c.cap {
      u := Pushes;
    } else if Target(s).queue == [] {
      u := HandsOver;
    } else {
      u := RecvTakes(0);
    }
  }

  lemma ClosingHelps(c: Config, s: State) returns (u: Step)
    requires Inv(c, s) && s.disp.at in {Closing, ClosingData, Counting, Deleting}
    ensures Helps(c, s, u)
  {
    match s.disp.at {
      case Closing => u := Swaps;
      case ClosingData => u := ClosesData;
      case Counting => u := Counts;
      case Deleting => u := Deletes;
    }
  }

  /** Whatever was sent, there is a step that brings it closer to its receiver, until nothing is left. */
  lemma ReceiverGoesOn(c: Config, tr: seq<State>, steps: seq<Step>, i: nat) returns (u: Step)
    requires IsRun(c, tr, steps) && i < |tr| && Work(tr[i]) > 0
    ensures Helps(c, tr[i], u)
  {
    var s := tr[i];
    RunKeepsInv(c, tr, steps, i);
    if s.disp.at == Delivering {
      u := DeliveryHelps(c, s);
    } else if s.disp.at != Idle {
      u := ClosingHelps(c, s);
    } else if |s.link| > 0 {
      u := Lookup;
    } else {
      u := RecvTakes(0);
    }
  }

  /** When nothing is left every non-empty message was returned, and after an EOF the next Recv returns io.EOF. */
  lemma NothingLeft(c: Config, tr: seq<State>, steps: seq<Step>, i: nat)
    requires IsRun(c, tr, steps) && i < |tr| && Work(tr[i]) == 0 && |tr[i].peers| > 0
    ensures tr[i].peers[0].received == NonEmpty(tr[i].sent)
    ensures tr[i].sendClosed ==> Enabled(c, tr[i], RecvSeesFlag(0)) && Apply(c, tr[i], RecvSeesFlag(0)).peers[0].eof
  {
    var s := tr[i];
    RunKeepsInv(c, tr, steps, i);
    RunKeepsEof(c, tr, steps, i);
    assert PeerOk(s, s.peers[0]) && Taken(s) == s.sent;
    assert s.peers[0].received + [] + [] == s.peers[0].received;
  }

  /**
   Every run can be continued, by the receiver alone, until everything the sender
   was accepted is received, if there is a Stream to receive it.
   */
  lemma {:induction false} EverythingCanBeReceived(c: Config, tr: seq<State>, steps: seq<Step>)
    returns (tr': seq<State>, steps': seq<Step>)
    requires IsRun(c, tr, steps)
    ensures IsRun(c, tr', steps') && tr <= tr' && steps <= steps'
    ensures var s, r := tr[|steps|], tr'[|steps'|];
            && Work(r) == 0 && r.sent == s.sent && r.sendClosed == s.sendClosed
            && (|r.peers| > 0 ==> r.peers[0].received == NonEmpty(s.sent))
            && (c.local || (c.handled && s.sent != []) ==> |r.peers| > 0)
    decreases Work(tr[|steps|])
  {
    var s := tr[|steps|];
    if Work(s) == 0 {
      tr', steps' := tr, steps;
      if |s.peers| > 0 { NothingLeft(c, tr, steps, |steps|); }
      RunKeepsInv(c, tr, steps, |steps|);
    } else {
      var u := ReceiverGoesOn(c, tr, steps, |steps|);
      var more, longer := Continue(c, tr, steps, u);
      tr', steps' := EverythingCanBeReceived(c, more, longer);
    }
  }

  lemma Continue(c: Config, tr: seq<State>, steps: seq<Step>, u: Step) returns (more: seq<State>, longer: seq<Step>)
    requires IsRun(c, tr, steps) && Enabled(c, tr[|steps|], u)
    ensures more == tr + [Apply(c, tr[|steps|], u)] && longer == steps + [u] && IsRun(c, more, longer)
  {
    more, longer := tr + [Apply(c, tr[|steps|], u)], steps + [u];
    assert forall i {:trigger longer[i]} :: 0 <= i < |steps| ==> longer[i] == steps[i];
  }

  // ------------------------------------------------------------------- closing

  /** A CloseRecv or CloseSend call past its first swap leaves its half closed, and only such calls close one. */
  lemma CloseCloses(tr: seq<C.State>, steps: seq<C.Step>, i: nat, t: C.Tid)
    requires C.IsRun(tr, steps) && i < |tr| && t in tr[i].threads && tr[i].threads[t].at != C.Begun
    ensures tr[i].threads[t].op == C.CloseRecv ==> tr[i].stream.stateRecv
    ensures tr[i].threads[t].op == C.CloseSend ==> tr[i].stream.stateSend
  {
    EndedClosed(tr, steps, i, t);
  }

  ghost predicate ClosedFor(s: C.State, t: C.Tid) {
    t in s.threads && s.threads[t].at != C.Begun ==>
      && (s.threads[t].op == C.CloseRecv ==> s.stream.stateRecv)
      && (s.threads[t].op == C.CloseSend ==> s.stream.stateSend)
  }

  lemma ClosedForStep(s: C.State, u: C.Step, t: C.Tid)
    requires C.Enabled(s, u) && ClosedFor(s, t)
    ensures ClosedFor(C.Apply(s, u), t)
  {
  }

  lemma {:induction false} EndedClosed(tr: seq<C.State>, steps: seq<C.Step>, i: nat, t: C.Tid)
    requires C.IsRun(tr, steps) && i < |tr|
    ensures ClosedFor(tr[i], t)
  {
    if i > 0 {
      EndedClosed(tr, steps, i - 1, t);
      ClosedForStep(tr[i - 1], steps[i - 1], t);
    }
  }

  /** SendAndClose whose message went out has closed the send half. */
  lemma SentAndClosed(tr: seq<C.State>, steps: seq<C.Step>, i: nat, t: C.Tid)
    requires C.IsRun(tr, steps) && i < |steps| && steps[i] == C.SendSwap(t)
    ensures tr[i + 1].stream.stateSend
  {
  }

  /** A half is closed only if a call to close it was made. */
  lemma OnlyClosersClose(tr: seq<C.State>, steps: seq<C.Step>, i: nat)
    requires C.IsRun(tr, steps) && i < |tr|
    ensures tr[i].stream.stateRecv ==> exists t :: t in tr[i].threads && tr[i].threads[t].op == C.CloseRecv
    ensures tr[i].stream.stateSend ==> exists t :: t in tr[i].threads && tr[i].threads[t].op != C.CloseRecv
  {
    C.RunKeepsInv(tr, steps, i);
  }

  function Ahead(at: C.Phase): (n: nat) {
    match at
    case Begun => 6
    case Claimed => 5
    case InSend => 5
    case SendWon => 4
    case ToCount => 3
    case ToDelete => 2
    case Ended => 0
  }

  /** Each call can always go on, until it has returned. */
  lemma CloserGoesOn(tr: seq<C.State>, steps: seq<C.Step>, i: nat, t: C.Tid) returns (u: C.Step)
    requires C.IsRun(tr, steps) && i < |tr| && t in tr[i].threads && tr[i].threads[t].at != C.Ended
    ensures C.Enabled(tr[i], u) && t in C.Apply(tr[i], u).threads
    ensures Ahead(C.Apply(tr[i], u).threads[t].at) < Ahead(tr[i].threads[t].at)
  {
    match tr[i].threads[t].at {
      case Begun => u := C.First(t);
      case Claimed => u := C.DataClosed(t);
      case InSend => u := C.SendSwap(t);
      case SendWon => u := C.CountsTwice(t);
      case ToCount => u := C.Counts(t);
      case ToDelete => u := C.Deletes(t);
    }
  }
}
