/**
 Every interleaving of CloseRecv, CloseSendContext and SendAndCloseContext on
 one Stream (stream.go). Each compare-and-swap, channel close, counter addition
 and map deletion is one step.
 */
module StreamClosing {
  import opened Prelude
  import opened StreamModel

  type Tid = nat

  datatype Op = CloseRecv | CloseSend | SendAndClose

  datatype Phase =
    | Begun
    | Claimed        // CloseRecv won its swap, chData still open
    | InSend         // inside send, before its own swap
    | SendWon        // CloseSend whose inner swap won too
    | ToCount        // before halfClose
    | ToDelete       // counted the second half
    | Ended

  datatype Thread = Thread(op: Op, at: Phase)

  datatype History = History(recvOwner: Option<Tid>, sendOwner: Option<Tid>, deleter: Option<Tid>)

  datatype State = State(
    stream: Stream,
    threads: map<Tid, Thread>,
    recvCounts: nat,           // halfClose calls for each half
    sendCounts: nat,
    deletes: nat,              // deleteStream calls
    hist: History)

  const Start := State(NewStream, map[], 0, 0, 0, History(None, None, None))

  datatype Step =
    | Begin(t: Tid, op: Op)
    | First(t: Tid)            // the first swap, or SendAndClose's load of stateSend
    | DataClosed(t: Tid)
    | SendFails(t: Tid)        // the Client is stopped or reconnecting
    | SendSwap(t: Tid)         // the swap inside send; the message goes out after it
    | CountsTwice(t: Tid)
    | Counts(t: Tid)
    | Deletes(t: Tid)

  predicate At(s: State, t: Tid, at: Phase) { t in s.threads && s.threads[t].at == at }

  predicate Enabled(s: State, u: Step) {
    match u
    case Begin(t, _) => t !in s.threads
    case First(t) => At(s, t, Begun)
    case DataClosed(t) => At(s, t, Claimed)
    case SendFails(t) => At(s, t, InSend)
    case SendSwap(t) => At(s, t, InSend)
    case CountsTwice(t) => At(s, t, SendWon)
    case Counts(t) => At(s, t, ToCount)
    case Deletes(t) => At(s, t, ToDelete)
  }

  function Goes(s: State, t: Tid, at: Phase): (r: State)
    requires t in s.threads
  {
    s.(threads := s.threads[t := s.threads[t].(at := at)])
  }

  function WinRecv(s: State, t: Tid): (r: State)
    requires t in s.threads
  {
    Goes(s, t, Claimed).(stream := s.stream.ClaimRecv(), hist := s.hist.(recvOwner := Some(t)))
  }

  function WinSend(s: State, t: Tid, at: Phase): (r: State)
    requires t in s.threads
  {
    Goes(s, t, at).(stream := s.stream.ClaimSend(), hist := s.hist.(sendOwner := Some(t)))
  }

  function DoFirst(s: State, t: Tid): (r: State)
    requires t in s.threads
  {
    match s.threads[t].op
    case CloseRecv => if s.stream.stateRecv then Goes(s, t, Ended) else WinRecv(s, t)
    case CloseSend => if s.stream.stateSend then Goes(s, t, Ended) else WinSend(s, t, InSend)
    case SendAndClose => if s.stream.stateSend then Goes(s, t, Ended) else Goes(s, t, InSend)
  }

  /** After send: CloseSendContext still has its own halfClose to do. */
  function AfterSend(op: Op): (r: Phase) { if op == CloseSend then ToCount else Ended }

  function DoSendSwap(s: State, t: Tid): (r: State)
    requires t in s.threads
  {
    if s.stream.stateSend then Goes(s, t, AfterSend(s.threads[t].op))
    else WinSend(s, t, if s.threads[t].op == CloseSend then SendWon else ToCount)
  }

  /** halfClose, and where its thread goes from there. */
  function DoCount(s: State, t: Tid, next: Phase): (r: State)
    requires t in s.threads
  {
    var second := s.stream.closeCnt + 1 == 2;
    var n := Goes(s, t, if second then ToDelete else next).(stream := s.stream.Count());
    var h := if second then n.(hist := s.hist.(deleter := Some(t))) else n;
    if s.threads[t].op == CloseRecv then h.(recvCounts := s.recvCounts + 1) else h.(sendCounts := s.sendCounts + 1)
  }

  function Apply(s: State, u: Step): (r: State)
    requires Enabled(s, u)
  {
    match u
    case Begin(t, op) => s.(threads := s.threads[t := Thread(op, Begun)])
    case First(t) => DoFirst(s, t)
    case DataClosed(t) => Goes(s, t, ToCount).(stream := s.stream.CloseData())
    case SendFails(t) => Goes(s, t, AfterSend(s.threads[t].op))
    case SendSwap(t) => DoSendSwap(s, t)
    case CountsTwice(t) => DoCount(s, t, ToCount)
    case Counts(t) => DoCount(s, t, Ended)
    case Deletes(t) => Goes(s, t, Ended).(deletes := s.deletes + 1)
  }

  ghost predicate IsRun(tr: seq<State>, steps: seq<Step>) {
    && |tr| == |steps| + 1
    && tr[0] == Start
    && forall i {:trigger steps[i]} ::
         0 <= i < |steps| ==> Enabled(tr[i], steps[i]) && tr[i + 1] == Apply(tr[i], steps[i])
  }

  // ---------------------------------------------------------------- invariant

  /** The halves a thread has claimed and not yet counted. */
  predicate OwesRecv(p: Thread) { p.op == CloseRecv && (p.at == Claimed || p.at == ToCount) }

  predicate OwesSend(p: Thread) { p.op != CloseRecv && (p.at == ToCount || (p.op == CloseSend && p.at == InSend)) }

  predicate Shape(p: Thread) {
    && p.at != SendWon
    && (p.at == Claimed ==> p.op == CloseRecv)
    && (p.at == InSend ==> p.op != CloseRecv)
  }

  ghost predicate ThreadOk(s: State, t: Tid)
    requires t in s.threads
  {
    var p := s.threads[t];
    && Shape(p)
    && (OwesRecv(p) ==> s.hist.recvOwner == Some(t))
    && (OwesSend(p) ==> s.hist.sendOwner == Some(t))
    && (p.at == ToDelete ==> s.hist.deleter == Some(t))
  }

  ghost predicate RecvOk(s: State) {
    match s.hist.recvOwner
    case None => !s.stream.stateRecv && s.recvCounts == 0 && s.stream.dataCloses == 0
    case Some(t) =>
      && t in s.threads && s.stream.stateRecv && s.threads[t].op == CloseRecv && s.threads[t].at != Begun
      && s.recvCounts == (if OwesRecv(s.threads[t]) then 0 else 1)
      && s.stream.dataCloses == (if s.threads[t].at == Claimed then 0 else 1)
  }

  ghost predicate SendOk(s: State) {
    match s.hist.sendOwner
    case None => !s.stream.stateSend && s.sendCounts == 0
    case Some(t) =>
      && t in s.threads && s.stream.stateSend && s.threads[t].op != CloseRecv && s.threads[t].at != Begun
      && (s.threads[t].at == InSend ==> s.threads[t].op == CloseSend)
      && s.sendCounts == (if OwesSend(s.threads[t]) then 0 else 1)
  }

  ghost predicate DeleteOk(s: State) {
    && s.stream.closeCnt == s.recvCounts + s.sendCounts
    && (s.stream.closeCnt == 2 <==> s.hist.deleter.Some?)
    && match s.hist.deleter
       case None => s.deletes == 0
       case Some(t) =>
         && t in s.threads
         && (s.threads[t].at == ToDelete || s.threads[t].at == Ended)
         && s.deletes == (if s.threads[t].at == ToDelete then 0 else 1)
  }

  ghost predicate Inv(s: State) {
    && RecvOk(s)
    && SendOk(s)
    && DeleteOk(s)
    && forall t {:trigger ThreadOk(s, t)} ::
         t in s.threads ==> ThreadOk(s, t)
  }

  lemma BeginInv(s: State, t: Tid, op: Op)
    requires Inv(s) && t !in s.threads
    ensures Inv(Apply(s, Begin(t, op)))
  {
    var r := Apply(s, Begin(t, op));
    forall d | d in r.threads ensures ThreadOk(r, d) {
      if d != t { assert ThreadOk(s, d); }
    }
  }

  lemma GoesInv(s: State, t: Tid, at: Phase)
    requires Inv(s) && At(s, t, Begun)
    requires at == Ended || (at == InSend && s.threads[t].op == SendAndClose && !s.stream.stateSend)
    ensures Inv(Goes(s, t, at))
  {
    var r := Goes(s, t, at);
    assert ThreadOk(s, t);
    forall d | d in r.threads ensures ThreadOk(r, d) { assert ThreadOk(s, d); }
  }

  lemma WinRecvInv(s: State, t: Tid)
    requires Inv(s) && At(s, t, Begun) && s.threads[t].op == CloseRecv && !s.stream.stateRecv
    ensures Inv(WinRecv(s, t))
  {
    var r := WinRecv(s, t);
    assert ThreadOk(s, t);
    forall d | d in r.threads ensures ThreadOk(r, d) { assert ThreadOk(s, d); }
  }

  lemma WinSendInv(s: State, t: Tid)
    requires Inv(s) && At(s, t, Begun) && s.threads[t].op == CloseSend && !s.stream.stateSend
    ensures Inv(WinSend(s, t, InSend))
  {
    var r := WinSend(s, t, InSend);
    assert ThreadOk(s, t);
    forall d | d in r.threads ensures ThreadOk(r, d) { assert ThreadOk(s, d); }
  }

  lemma FirstInv(s: State, t: Tid)
    requires Inv(s) && At(s, t, Begun)
    ensures Inv(DoFirst(s, t))
  {
    var op := s.threads[t].op;
    if op == CloseRecv && !s.stream.stateRecv {
      WinRecvInv(s, t);
    } else if op == CloseSend && !s.stream.stateSend {
      WinSendInv(s, t);
    } else {
      GoesInv(s, t, if op == SendAndClose && !s.stream.stateSend then InSend else Ended);
    }
  }

  lemma DataClosedInv(s: State, t: Tid)
    requires Inv(s) && At(s, t, Claimed)
    ensures Inv(Apply(s, DataClosed(t)))
  {
    var r := Apply(s, DataClosed(t));
    assert ThreadOk(s, t);
    forall d | d in r.threads ensures ThreadOk(r, d) { assert ThreadOk(s, d); }
  }

  lemma SendInv(s: State, u: Step)
    requires Inv(s) && Enabled(s, u) && (u.SendFails? || u.SendSwap?)
    ensures Inv(Apply(s, u))
  {
    var r := Apply(s, u);
    assert ThreadOk(s, u.t);
    forall d | d in r.threads ensures ThreadOk(r, d) { assert ThreadOk(s, d); }
  }

  lemma CountInv(s: State, t: Tid)
    requires Inv(s) && At(s, t, ToCount)
    ensures Inv(DoCount(s, t, Ended))
  {
    var r := DoCount(s, t, Ended);
    assert ThreadOk(s, t);
    forall d | d in r.threads ensures ThreadOk(r, d) { assert ThreadOk(s, d); }
  }

  lemma DeletesInv(s: State, t: Tid)
    requires Inv(s) && At(s, t, ToDelete)
    ensures Inv(Apply(s, Deletes(t)))
  {
    var r := Apply(s, Deletes(t));
    assert ThreadOk(s, t);
    forall d | d in r.threads ensures ThreadOk(r, d) { assert ThreadOk(s, d); }
  }

  lemma StepKeepsInv(s: State, u: Step)
    requires Inv(s) && Enabled(s, u)
    ensures Inv(Apply(s, u))
  {
    forall t | t in s.threads ensures Shape(s.threads[t]) { assert ThreadOk(s, t); }
    match u {
      case Begin(t, op) => BeginInv(s, t, op);
      case First(t) => FirstInv(s, t);
      case DataClosed(t) => DataClosedInv(s, t);
      case SendFails(t) => SendInv(s, u);
      case SendSwap(t) => SendInv(s, u);
      case Counts(t) => CountInv(s, t);
      case Deletes(t) => DeletesInv(s, t);
      case CountsTwice(t) => assert false;
    }
  }

  lemma {:induction false} RunKeepsInv(tr: seq<State>, steps: seq<Step>, i: nat)
    requires IsRun(tr, steps) && i < |tr|
    ensures Inv(tr[i])
  {
    if i > 0 {
      RunKeepsInv(tr, steps, i - 1);
      StepKeepsInv(tr[i - 1], steps[i - 1]);
    }
  }

  // ------------------------------------------------------------------ theorems

  /** Each half is counted at most once, the counter stays within 2; chData is closed once at most. */
  lemma EachHalfCountsOnce(tr: seq<State>, steps: seq<Step>, i: nat)
    requires IsRun(tr, steps) && i < |tr|
    ensures tr[i].recvCounts <= 1 && tr[i].sendCounts <= 1
    ensures tr[i].stream.closeCnt == tr[i].recvCounts + tr[i].sendCounts <= 2
    ensures tr[i].stream.dataCloses <= 1
  {
    RunKeepsInv(tr, steps, i);
  }

  /** deleteStream runs at most once, and only when both halves are counted. */
  lemma DeletedOnce(tr: seq<State>, steps: seq<Step>, i: nat)
    requires IsRun(tr, steps) && i < |tr|
    ensures tr[i].deletes <= 1
    ensures tr[i].deletes == 1 ==> tr[i].recvCounts == 1 && tr[i].sendCounts == 1
  {
    RunKeepsInv(tr, steps, i);
  }

  ghost predicate Quiet(s: State) {
    forall t ::
      t in s.threads ==> s.threads[t].at == Ended
  }

  /** When all calls have returned, the Stream was deleted exactly if both halves are closed, and each was counted. */
  lemma DeletedIffBothClosed(tr: seq<State>, steps: seq<Step>, i: nat)
    requires IsRun(tr, steps) && i < |tr| && Quiet(tr[i])
    ensures tr[i].deletes == (if tr[i].stream.stateRecv && tr[i].stream.stateSend then 1 else 0)
    ensures tr[i].recvCounts == (if tr[i].stream.stateRecv then 1 else 0)
    ensures tr[i].sendCounts == (if tr[i].stream.stateSend then 1 else 0)
  {
    RunKeepsInv(tr, steps, i);
  }

  /** The swap inside send never wins for CloseSendContext, which has claimed the half already. */
  lemma NoSecondClaim(tr: seq<State>, steps: seq<Step>, i: nat, t: Tid)
    requires IsRun(tr, steps) && i < |tr| && At(tr[i], t, InSend) && tr[i].threads[t].op == CloseSend
    ensures tr[i].stream.stateSend && tr[i].hist.sendOwner == Some(t)
  {
    RunKeepsInv(tr, steps, i);
    assert ThreadOk(tr[i], t);
  }
}
