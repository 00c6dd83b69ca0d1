/**
 Delivery on one Stream over an unbroken connection (stream.go, and the
 CmdStream case of OnMessage in handler.go): a sequential sender, a FIFO link,
 the receiver's one dispatching goroutine, any number of Recv callers, and a
 receiver that may close its own send half at any time. The receive half is
 closed by the sender's EOF only.
 */
module StreamDelivery {
  import opened Prelude
  import opened StreamModel

  /** local: the receiver created the Stream; handled: it has a handler for the method; cap: StreamQueueSize. */
  datatype Config = Config(local: bool, handled: bool, cap: nat)

  /** How far the receiver's CloseSendContext is. */
  datatype Closer = Open | Won | ToDelete | Over

  /** A Stream of the receiver, what Recv returned from it, and whether Recv returned io.EOF. */
  datatype Peer = Peer(stream: Stream, received: seq<StreamMsg>, eof: bool, closer: Closer)

  datatype Phase =
    | Idle
    | Delivering     // before onMessage
    | Closing        // before CloseRecv's swap
    | ClosingData
    | Counting
    | Deleting

  datatype Dispatcher = Dispatcher(at: Phase, msg: StreamMsg, on: nat)

  datatype State = State(
    sent: seq<StreamMsg>,      // accepted by the sender's Stream
    sendClosed: bool,          // its stateSend
    link: seq<StreamMsg>,
    entry: Option<nat>,        // the receiver's map entry for this id
    peers: seq<Peer>,          // Streams the receiver ever made for this id
    disp: Dispatcher)

  function Fresh(): (p: Peer) { Peer(NewStream, [], false, Open) }

  function Start(c: Config): (s: State) {
    State([], false, [], if c.local then Some(0) else None, if c.local then [Fresh()] else [],
          Dispatcher(Idle, StreamMsg([], false), 0))
  }

  datatype Step =
    | Send(data: Bytes)
    | SendAndClose(data: Bytes)
    | CloseSend
    | Lookup                   // getStreamAndPushMsg, and newStream when there is none
    | Ignores                  // onMessage: empty body, or the receive half is closed
    | Pushes                   // onMessage: queued in chData
    | HandsOver                // onMessage: straight to a waiting Recv
    | Swaps
    | ClosesData
    | Counts
    | Deletes
    | RecvTakes(k: nat)
    | RecvSeesFlag(k: nat)     // stateRecv set and chData empty
    | RecvSeesClosed(k: nat)   // chData closed and empty
    | PeerWins(k: nat)         // the receiver closes its own send half
    | PeerCounts(k: nat)
    | PeerDeletes(k: nat)

  predicate On(s: State) { s.disp.on < |s.peers| }

  function Target(s: State): (t: Stream)
    requires On(s)
  {
    s.peers[s.disp.on].stream
  }

  predicate Enabled(c: Config, s: State, u: Step) {
    match u
    case Send(_) => true
    case SendAndClose(_) => true
    case CloseSend => true
    case Lookup => s.disp.at == Idle && |s.link| > 0 && (s.entry.Some? ==> s.entry.value < |s.peers|)
    case Ignores => s.disp.at == Delivering && On(s) && (s.disp.msg.data == [] || Target(s).stateRecv)
    case Pushes =>
      s.disp.at == Delivering && On(s) && s.disp.msg.data != [] && !Target(s).stateRecv && |Target(s).queue| < c.cap
    case HandsOver =>
      s.disp.at == Delivering && On(s) && s.disp.msg.data != [] && !Target(s).stateRecv && Target(s).queue == []
    case Swaps => s.disp.at == Closing && On(s)
    case ClosesData => s.disp.at == ClosingData && On(s)
    case Counts => s.disp.at == Counting && On(s)
    case Deletes => s.disp.at == Deleting && On(s)
    case RecvTakes(k) => k < |s.peers| && |s.peers[k].stream.queue| > 0
    case RecvSeesFlag(k) => k < |s.peers| && s.peers[k].stream.stateRecv && s.peers[k].stream.queue == []
    case RecvSeesClosed(k) => k < |s.peers| && s.peers[k].stream.dataCloses > 0 && s.peers[k].stream.queue == []
    case PeerWins(k) => k < |s.peers| && !s.peers[k].stream.stateSend
    case PeerCounts(k) => k < |s.peers| && s.peers[k].closer == Won
    case PeerDeletes(k) => k < |s.peers| && s.peers[k].closer == ToDelete
  }

  /** Send and SendAndClose refuse after the send half is closed; an EOF closes it. */
  function DoSend(s: State, m: StreamMsg): (r: State) {
    if s.sendClosed then s else s.(sent := s.sent + [m], link := s.link + [m], sendClosed := m.eof)
  }

  function DoLookup(c: Config, s: State): (r: State)
    requires Enabled(c, s, Lookup)
  {
    var m := s.link[0];
    var n := s.(link := s.link[1..]);
    if s.entry.Some? then
      n.(entry := if m.eof then None else s.entry, disp := Dispatcher(Delivering, m, s.entry.value))
    else if !c.local && c.handled then
      n.(entry := Some(|s.peers|), peers := s.peers + [Fresh()], disp := Dispatcher(Delivering, m, |s.peers|))
    else n
  }

  function SetPeer(s: State, k: nat, p: Peer): (r: State)
    requires k < |s.peers|
  {
    s.(peers := s.peers[k := p])
  }

  function SetTarget(s: State, t: Stream, at: Phase): (r: State)
    requires On(s)
  {
    SetPeer(s, s.disp.on, s.peers[s.disp.on].(stream := t)).(disp := s.disp.(at := at))
  }

  function AfterMessage(m: StreamMsg): (r: Phase) { if m.eof then Closing else Idle }

  function DoHandOver(s: State): (r: State)
    requires On(s)
  {
    var p := s.peers[s.disp.on];
    SetPeer(s, s.disp.on, p.(received := p.received + [s.disp.msg])).(disp := s.disp.(at := AfterMessage(s.disp.msg)))
  }

  function DoTake(s: State, k: nat): (r: State)
    requires k < |s.peers| && |s.peers[k].stream.queue| > 0
  {
    var p := s.peers[k];
    SetPeer(s, k, p.(stream := p.stream.Pop(), received := p.received + [p.stream.queue[0]]))
  }

  function DoPeerCount(s: State, k: nat): (r: State)
    requires k < |s.peers|
  {
    var p := s.peers[k];
    SetPeer(s, k, p.(stream := p.stream.Count(), closer := if p.stream.closeCnt + 1 == 2 then ToDelete else Over))
  }

  function Apply(c: Config, s: State, u: Step): (r: State)
    requires Enabled(c, s, u)
  {
    match u
    case Send(data) => DoSend(s, StreamMsg(data, false))
    case SendAndClose(data) => DoSend(s, StreamMsg(data, true))
    case CloseSend => DoSend(s, StreamMsg([], true))
    case Lookup => DoLookup(c, s)
    case Ignores => s.(disp := s.disp.(at := AfterMessage(s.disp.msg)))
    case Pushes => SetTarget(s, Target(s).Push(s.disp.msg), AfterMessage(s.disp.msg))
    case HandsOver => DoHandOver(s)
    case Swaps =>
      if Target(s).stateRecv then s.(disp := s.disp.(at := Idle)) else SetTarget(s, Target(s).ClaimRecv(), ClosingData)
    case ClosesData => SetTarget(s, Target(s).CloseData(), Counting)
    case Counts => SetTarget(s, Target(s).Count(), if Target(s).closeCnt + 1 == 2 then Deleting else Idle)
    case Deletes => s.(entry := None, disp := s.disp.(at := Idle))
    case RecvTakes(k) => DoTake(s, k)
    case RecvSeesFlag(k) => SetPeer(s, k, s.peers[k].(eof := true))
    case RecvSeesClosed(k) => SetPeer(s, k, s.peers[k].(eof := true))
    case PeerWins(k) => SetPeer(s, k, s.peers[k].(stream := s.peers[k].stream.ClaimSend(), closer := Won))
    case PeerCounts(k) => DoPeerCount(s, k)
    case PeerDeletes(k) => SetPeer(s, k, s.peers[k].(closer := Over)).(entry := None)
  }

  ghost predicate IsRun(c: Config, tr: seq<State>, steps: seq<Step>) {
    && |tr| == |steps| + 1
    && tr[0] == Start(c)
    && forall i {:trigger steps[i]} ::
         0 <= i < |steps| ==> Enabled(c, tr[i], steps[i]) && tr[i + 1] == Apply(c, tr[i], steps[i])
  }

  // ---------------------------------------------------------------- invariant

  function NonEmpty(ms: seq<StreamMsg>): (r: seq<StreamMsg>) {
    if ms == [] then []
    else NonEmpty(ms[..|ms| - 1]) + (if ms[|ms| - 1].data == [] then [] else [ms[|ms| - 1]])
  }

  lemma NonEmptyOfAppend(ms: seq<StreamMsg>, m: StreamMsg)
    ensures NonEmpty(ms + [m]) == NonEmpty(ms) + (if m.data == [] then [] else [m])
  {
    assert (ms + [m])[..|ms|] == ms;
  }

  lemma {:induction false} NonEmptyPrefix(ms: seq<StreamMsg>, n: nat)
    requires n <= |ms|
    ensures NonEmpty(ms[..n]) <= NonEmpty(ms)
  {
    if n < |ms| {
      NonEmptyPrefix(ms[..|ms| - 1], n);
      assert ms[..|ms| - 1][..n] == ms[..n];
    } else {
      assert ms[..n] == ms;
    }
  }

  /** What has left the link. */
  function Taken(s: State): (r: seq<StreamMsg>)
    requires |s.link| <= |s.sent|
  {
    s.sent[..|s.sent| - |s.link|]
  }

  ghost predicate EofTaken(s: State) {
    |s.link| < |s.sent| && s.sent[|s.sent| - |s.link| - 1].eof
  }

  ghost predicate SenderOk(s: State) {
    && |s.link| <= |s.sent| && s.link == s.sent[|s.sent| - |s.link|..]
    && (forall i {:trigger s.sent[i]} ::
          0 <= i < |s.sent| - 1 ==> !s.sent[i].eof)
    && (s.sendClosed <==> |s.sent| > 0 && s.sent[|s.sent| - 1].eof)
  }

  function Pending(s: State): (r: seq<StreamMsg>) {
    if s.disp.at == Delivering && s.disp.msg.data != [] then [s.disp.msg] else []
  }

  ghost predicate DispatcherOk(s: State) {
    && (s.disp.at != Idle ==>
          |s.link| < |s.sent| && s.disp.msg == s.sent[|s.sent| - |s.link| - 1] && On(s))
    && (s.disp.at != Idle && s.disp.at != Delivering ==> s.disp.msg.eof)
  }

  predicate PastSwap(at: Phase) { at == ClosingData || at == Counting || at == Deleting }

  ghost predicate PeerOk(s: State, p: Peer)
    requires |s.link| <= |s.sent|
  {
    && p.received + p.stream.queue + Pending(s) == NonEmpty(Taken(s))
    && (p.stream.stateRecv ==> EofTaken(s) && s.disp.at != Delivering)
    && (p.stream.dataCloses > 0 || PastSwap(s.disp.at) ==> p.stream.stateRecv)
    && (p.eof ==> p.stream.stateRecv && p.stream.queue == [])
    && (!p.stream.stateRecv ==> p.stream.closeCnt == (if p.closer == Over then 1 else 0) && p.closer != ToDelete)
    && (p.stream.stateSend <==> p.closer != Open)
  }

  ghost predicate Inv(c: Config, s: State) {
    && SenderOk(s) && DispatcherOk(s)
    && |s.peers| == (if c.local || (c.handled && |s.link| < |s.sent|) then 1 else 0)
    && (|s.peers| == 1 ==> PeerOk(s, s.peers[0]))
    && (s.entry.Some? ==> s.entry.value < |s.peers|)
    && (!EofTaken(s) && |s.peers| == 1 ==> s.entry == Some(0))
  }

  lemma SendKeepsTaken(s: State, m: StreamMsg)
    requires SenderOk(s) && !s.sendClosed
    ensures var r := DoSend(s, m); SenderOk(r) && Taken(r) == Taken(s) && (EofTaken(r) <==> EofTaken(s))
  {
    var r := DoSend(s, m);
    assert r.link == r.sent[|r.sent| - |r.link|..];
  }

  lemma SendInv(c: Config, s: State, m: StreamMsg)
    requires Inv(c, s)
    ensures Inv(c, DoSend(s, m))
  {
    var r := DoSend(s, m);
    if !s.sendClosed {
      SendKeepsTaken(s, m);
      if |s.peers| == 1 { assert PeerOk(r, r.peers[0]); }
    }
  }

  lemma TakesOne(s: State)
    requires SenderOk(s) && |s.link| > 0
    ensures var n := |s.sent| - |s.link|;
            s.sent[n] == s.link[0] && s.link[1..] == s.sent[n + 1..] && s.sent[..n + 1] == s.sent[..n] + [s.link[0]]
    ensures !EofTaken(s)
  {
  }

  lemma FoundInv(c: Config, s: State)
    requires Inv(c, s) && Enabled(c, s, Lookup) && |s.peers| == 1
    ensures Inv(c, DoLookup(c, s))
  {
    var r := DoLookup(c, s);
    TakesOne(s);
    NonEmptyOfAppend(Taken(s), s.link[0]);
    var p := s.peers[0];
    assert PeerOk(s, p) && s.entry == Some(0);
    assert Taken(r) == Taken(s) + [s.link[0]];
    assert PeerOk(r, p) by {
      assert p.received + p.stream.queue + [] == p.received + p.stream.queue;
    }
  }

  lemma MadeInv(c: Config, s: State)
    requires Inv(c, s) && Enabled(c, s, Lookup) && |s.peers| == 0
    ensures Inv(c, DoLookup(c, s))
  {
    var r := DoLookup(c, s);
    TakesOne(s);
    if c.handled {
      NonEmptyOfAppend(Taken(s), s.link[0]);
      assert Taken(r) == Taken(s) + [s.link[0]];
      assert PeerOk(r, r.peers[0]);
    }
  }

  lemma IgnoresInv(c: Config, s: State)
    requires Inv(c, s) && Enabled(c, s, Ignores)
    ensures Inv(c, Apply(c, s, Ignores))
  {
    var r := Apply(c, s, Ignores);
    assert PeerOk(s, s.peers[0]);
    assert Taken(r) == Taken(s);
    assert PeerOk(r, r.peers[0]);
  }

  lemma PushesInv(c: Config, s: State)
    requires Inv(c, s) && Enabled(c, s, Pushes)
    ensures Inv(c, Apply(c, s, Pushes))
  {
    var r := Apply(c, s, Pushes);
    assert PeerOk(s, s.peers[0]);
    assert Taken(r) == Taken(s);
    assert PeerOk(r, r.peers[0]);
  }

  lemma HandsOverInv(c: Config, s: State)
    requires Inv(c, s) && Enabled(c, s, HandsOver)
    ensures Inv(c, Apply(c, s, HandsOver))
  {
    var r := Apply(c, s, HandsOver);
    assert PeerOk(s, s.peers[0]);
    assert Taken(r) == Taken(s);
    assert PeerOk(r, r.peers[0]);
  }

  lemma CloseRecvInv(c: Config, s: State, u: Step)
    requires Inv(c, s) && Enabled(c, s, u) && (u.ClosesData? || u.Counts? || u.Deletes?)
    ensures Inv(c, Apply(c, s, u))
  {
    var r := Apply(c, s, u);
    assert PeerOk(s, s.peers[0]);
    assert Taken(r) == Taken(s);
    assert PeerOk(r, r.peers[0]);
  }

  lemma SwapsInv(c: Config, s: State)
    requires Inv(c, s) && Enabled(c, s, Swaps)
    ensures Inv(c, Apply(c, s, Swaps))
  {
    var r := Apply(c, s, Swaps);
    assert PeerOk(s, s.peers[0]);
    assert Taken(r) == Taken(s);
    assert PeerOk(r, r.peers[0]);
  }

  /** The receiver's Stream changes, with or without its entry, once the EOF was taken. */
  lemma PeerInv(c: Config, s: State, p: Peer, r: State)
    requires Inv(c, s) && |s.peers| == 1 && PeerOk(s, p)
    requires r == SetPeer(s, 0, p) || (r == SetPeer(s, 0, p).(entry := None) && EofTaken(s))
    ensures Inv(c, r)
  {
  }

  lemma TakeOk(s: State, p: Peer)
    requires |s.link| <= |s.sent| && PeerOk(s, p) && |p.stream.queue| > 0
    ensures PeerOk(s, p.(stream := p.stream.Pop(), received := p.received + [p.stream.queue[0]]))
  {
    assert p.stream.queue == [p.stream.queue[0]] + p.stream.queue[1..];
  }

  lemma RecvInv(c: Config, s: State, u: Step)
    requires Inv(c, s) && Enabled(c, s, u) && (u.RecvTakes? || u.RecvSeesFlag? || u.RecvSeesClosed?)
    ensures Inv(c, Apply(c, s, u))
  {
    var r := Apply(c, s, u);
    assert PeerOk(s, s.peers[0]);
    if u.RecvTakes? { TakeOk(s, s.peers[0]); }
    PeerInv(c, s, r.peers[0], r);
  }

  lemma PeerWinsInv(c: Config, s: State, k: nat)
    requires Inv(c, s) && Enabled(c, s, PeerWins(k))
    ensures Inv(c, Apply(c, s, PeerWins(k)))
  {
    var r := Apply(c, s, PeerWins(k));
    assert PeerOk(s, s.peers[0]);
    PeerInv(c, s, r.peers[0], r);
  }

  lemma PeerCountsInv(c: Config, s: State, k: nat)
    requires Inv(c, s) && Enabled(c, s, PeerCounts(k))
    ensures Inv(c, Apply(c, s, PeerCounts(k)))
  {
    var r := Apply(c, s, PeerCounts(k));
    assert PeerOk(s, s.peers[0]);
    PeerInv(c, s, r.peers[0], r);
  }

  lemma PeerDeletesInv(c: Config, s: State, k: nat)
    requires Inv(c, s) && Enabled(c, s, PeerDeletes(k))
    ensures Inv(c, Apply(c, s, PeerDeletes(k)))
  {
    var r := Apply(c, s, PeerDeletes(k));
    assert PeerOk(s, s.peers[0]);
    PeerInv(c, s, r.peers[0], r);
  }

  lemma StepKeepsInv(c: Config, s: State, u: Step)
    requires Inv(c, s) && Enabled(c, s, u)
    ensures Inv(c, Apply(c, s, u))
  {
    match u {
      case Send(data) => SendInv(c, s, StreamMsg(data, false));
      case SendAndClose(data) => SendInv(c, s, StreamMsg(data, true));
      case CloseSend => SendInv(c, s, StreamMsg([], true));
      case Lookup => if |s.peers| == 1 { FoundInv(c, s); } else { MadeInv(c, s); }
      case Ignores => IgnoresInv(c, s);
      case Pushes => PushesInv(c, s);
      case HandsOver => HandsOverInv(c, s);
      case RecvTakes(_) => RecvInv(c, s, u);
      case RecvSeesFlag(_) => RecvInv(c, s, u);
      case RecvSeesClosed(_) => RecvInv(c, s, u);
      case PeerWins(k) => PeerWinsInv(c, s, k);
      case PeerCounts(k) => PeerCountsInv(c, s, k);
      case PeerDeletes(k) => PeerDeletesInv(c, s, k);
      case Swaps => SwapsInv(c, s);
      case _ => CloseRecvInv(c, s, u);
    }
  }

  lemma {:induction false} RunKeepsInv(c: Config, tr: seq<State>, steps: seq<Step>, i: nat)
    requires IsRun(c, tr, steps) && i < |tr|
    ensures Inv(c, tr[i])
  {
    if i > 0 {
      RunKeepsInv(c, tr, steps, i - 1);
      StepKeepsInv(c, tr[i - 1], steps[i - 1]);
    }
  }

  // ------------------------------------------------------------------ theorems

  /** The receiver makes one Stream, and Recv has returned a prefix of the non-empty messages accepted, in order. */
  lemma RecvReturnsAPrefix(c: Config, tr: seq<State>, steps: seq<Step>, i: nat, k: nat)
    requires IsRun(c, tr, steps) && i < |tr| && k < |tr[i].peers|
    ensures k == 0 && tr[i].peers[k].received <= NonEmpty(tr[i].sent)
  {
    var s := tr[i];
    RunKeepsInv(c, tr, steps, i);
    var p := s.peers[k];
    assert PeerOk(s, p);
    NonEmptyPrefix(s.sent, |s.sent| - |s.link|);
    assert p.received + p.stream.queue + Pending(s) == p.received + (p.stream.queue + Pending(s));
  }

  /** Whatever was accepted and not yet returned is in the queue, with the dispatcher, or on the link. */
  lemma NothingIsLost(c: Config, tr: seq<State>, steps: seq<Step>, i: nat)
    requires IsRun(c, tr, steps) && i < |tr| && |tr[i].peers| > 0
    ensures var s := tr[i];
            && |s.link| <= |s.sent| && s.sent == Taken(s) + s.link
            && s.peers[0].received + s.peers[0].stream.queue + Pending(s) == NonEmpty(Taken(s))
  {
    RunKeepsInv(c, tr, steps, i);
    assert PeerOk(tr[i], tr[i].peers[0]);
  }

  /** io.EOF is returned only after the sender closed, and after every non-empty message was returned. */
  lemma EofComesLast(c: Config, tr: seq<State>, steps: seq<Step>, i: nat, k: nat)
    requires IsRun(c, tr, steps) && i < |tr| && k < |tr[i].peers| && tr[i].peers[k].eof
    ensures tr[i].sendClosed && tr[i].link == [] && tr[i].peers[k].received == NonEmpty(tr[i].sent)
  {
    var s := tr[i];
    RunKeepsInv(c, tr, steps, i);
    assert PeerOk(s, s.peers[k]);
    assert EofTaken(s) && |s.link| == 0;
    assert Taken(s) == s.sent;
    assert s.peers[k].received + [] + [] == s.peers[k].received;
  }

  /** A message is dropped on arrival only where there is no Stream and no handler to make one. */
  lemma DroppedOnlyUnhandled(c: Config, tr: seq<State>, steps: seq<Step>, i: nat)
    requires IsRun(c, tr, steps) && i < |steps| && steps[i].Lookup? && tr[i + 1].disp.at == Idle
    ensures !c.local && !c.handled
  {
    RunKeepsInv(c, tr, steps, i);
  }
}
