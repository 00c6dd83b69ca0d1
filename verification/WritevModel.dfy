/**
 The writev send queue of one generation of a Client (client.go, pushWritev,
 writevLoop, drainWritev and the drain in closeAndClean).

 Queue is the state guarded by writevMux and its functions are the critical
 sections; the class in WritevQueue.dfy is proved to perform them. State adds
 any number of pushing goroutines, the writers they launch and the goroutines
 that stop the Client, in any interleaving. Messages accepted under the lock
 are named by their position in the order of acceptance.
 */
module WritevModel {
  import opened Prelude

  /** A queued message; an empty body means that buffer holds everything. */
  datatype Msg = Msg(buffer: Bytes, body: Bytes)

  function BuffersOf(m: Msg): (r: seq<Bytes>) { if |m.body| > 0 then [m.buffer, m.body] else [m.buffer] }

  function AllBuffers(ms: seq<Msg>): (r: seq<Bytes>) {
    if ms == [] then [] else BuffersOf(ms[0]) + AllBuffers(ms[1..])
  }

  function BytesOf(ms: seq<Msg>): (b: Bytes) { Flatten(AllBuffers(ms)) }

  datatype Queue = Queue(buffers: seq<Bytes>, msgs: seq<Msg>, sending: bool) {
    /** pushWritev, under the lock of a running Client; the flag asks for a writer. */
    function Push(m: Msg): (r: (Queue, bool)) {
      (Queue(buffers + BuffersOf(m), msgs + [m], true), !sending)
    }

    /** writevLoop: an empty queue ends the writer, else it takes everything. */
    function Take(): (r: Queue) {
      if |buffers| == 0 then this.(sending := false) else Queue([], [], sending)
    }

    function Drain(): (r: Queue) { Queue([], [], sending) }
  }

  type Tid = nat

  datatype Phase =
    | Pushing    // pushWritev, before the test of reconnecting
    | AtLock     // before writevMux
    | Launching  // set writevSending, before the go statement
    | Loop       // writevLoop, before writevMux
    | Batch      // holds a batch, before the test of closed and reconnecting
    | Sending    // in SendN
    | Disposing  // OnMessageDone or dropMessage, one message at a time
    | ToDrain    // closeAndClean, running cleared, before drainWritev's lock
    | Draining   // dropping what drainWritev took
    | Finished

  /** A goroutine; lo..hi are the positions of the messages it still has to dispose of. */
  datatype Pc = Pc(at: Phase, msg: Msg, lo: nat, hi: nat, bufs: seq<Bytes>, closed: bool)

  const NoMsg := Msg([], [])

  /** One SendN call: the messages of its batch, and how many of their bytes it wrote; ok means all. */
  datatype Attempt = Attempt(lo: nat, hi: nat, ok: bool, n: nat)

  datatype History = History(
    accepted: seq<Msg>,        // every message that entered the queue, in order
    pusher: seq<Tid>,          // who pushed each of them
    refused: multiset<Tid>,    // pushes whose message was disposed of on the spot
    takenTo: nat,              // messages before this position left the queue
    holder: seq<Option<Tid>>,  // who holds each of those; None once disposed of
    disposed: multiset<nat>,
    sent: seq<Attempt>,        // the SendN calls, in order
    writer: Option<Tid>,       // the last goroutine made responsible for writing
    drained: bool,
    clean: bool)               // nothing dropped, and no write failed, so far

  datatype State = State(
    q: Queue,
    running: bool,
    reconnecting: bool,
    threads: map<Tid, Pc>,
    wire: Bytes,               // what the SendN calls wrote, on this conn and those before it
    h: History)

  const Start := State(Queue([], [], false), true, false, map[], [],
                       History([], [], multiset{}, 0, [], multiset{}, [], None, false, true))

  datatype Step =
    | Push(t: Tid, m: Msg)
    | PushTest(t: Tid)
    | PushLocked(t: Tid)
    | Launch(t: Tid, w: Tid)
    | WriterTake(t: Tid)
    | WriterTest(t: Tid)
    | WriterSend(t: Tid, ok: bool, n: nat)   // a write that fails may have written any part, n bytes
    | DisposeOne(t: Tid)
    | DisposeEnd(t: Tid)
    | SetReconnecting(b: bool)
    | Stop
    | CleanStart(t: Tid)         // closeAndClean clears running
    | DrainTake(t: Tid)

  predicate AtPhase(s: State, t: Tid, at: Phase) { t in s.threads && s.threads[t].at == at }

  predicate Enabled(s: State, u: Step) {
    match u
    case Push(t, m) => t !in s.threads
    case PushTest(t) => AtPhase(s, t, Pushing)
    case PushLocked(t) => AtPhase(s, t, AtLock)
    case Launch(t, w) => AtPhase(s, t, Launching) && w !in s.threads
    case WriterTake(t) => AtPhase(s, t, Loop)
    case WriterTest(t) => AtPhase(s, t, Batch)
    case WriterSend(t, ok, n) => AtPhase(s, t, Sending) && n <= |Flatten(s.threads[t].bufs)|
    case DisposeOne(t) =>
      && (AtPhase(s, t, Disposing) || AtPhase(s, t, Draining))
      && s.threads[t].lo < s.threads[t].hi && s.threads[t].lo < |s.h.holder|
    case DisposeEnd(t) => (AtPhase(s, t, Disposing) || AtPhase(s, t, Draining)) && s.threads[t].lo >= s.threads[t].hi
    case SetReconnecting(_) => true
    case Stop => true
    case CleanStart(t) => t !in s.threads
    case DrainTake(t) => AtPhase(s, t, ToDrain)
  }

  function Go(s: State, t: Tid, at: Phase): (m: map<Tid, Pc>)
    requires t in s.threads
  {
    s.threads[t := s.threads[t].(at := at)]
  }

  function Held(t: Tid, n: nat): (r: seq<Option<Tid>>) { seq(n, _ => Some(t)) }

  function DoPushLocked(s: State, t: Tid): (r: State)
    requires AtPhase(s, t, AtLock)
  {
    if !s.running then s.(threads := Go(s, t, Finished), h := s.h.(refused := s.h.refused + multiset{t}))
    else
      var (q, launch) := s.q.Push(s.threads[t].msg);
      s.(q := q, threads := Go(s, t, if launch then Launching else Finished),
         h := s.h.(accepted := s.h.accepted + [s.threads[t].msg], pusher := s.h.pusher + [t],
                   writer := if launch then Some(t) else s.h.writer))
  }

  /** The messages of the queue become t's. */
  function Hand(s: State, t: Tid, at: Phase): (r: State)
    requires t in s.threads
  {
    var n := |s.q.msgs|;
    s.(q := Queue([], [], s.q.sending),
       threads := s.threads[t := s.threads[t].(at := at, lo := s.h.takenTo, hi := s.h.takenTo + n,
                                               bufs := s.q.buffers)],
       h := s.h.(takenTo := s.h.takenTo + n, holder := s.h.holder + Held(t, n)))
  }

  function DoTake(s: State, t: Tid): (r: State)
    requires AtPhase(s, t, Loop)
  {
    if |s.q.buffers| == 0 then s.(q := s.q.Take(), threads := Go(s, t, Finished), h := s.h.(writer := None))
    else Hand(s, t, Batch)
  }

  function DoTest(s: State, t: Tid): (r: State)
    requires AtPhase(s, t, Batch)
  {
    if s.threads[t].closed || s.reconnecting then
      s.(threads := s.threads[t := s.threads[t].(at := Disposing, closed := true)], h := s.h.(clean := false))
    else s.(threads := Go(s, t, Sending))
  }

  function DoSend(s: State, t: Tid, ok: bool, n: nat): (r: State)
    requires AtPhase(s, t, Sending) && n <= |Flatten(s.threads[t].bufs)|
  {
    var p, out := s.threads[t], Flatten(s.threads[t].bufs);
    var put := if ok then out else out[..n];
    s.(wire := s.wire + put,
       threads := s.threads[t := p.(at := Disposing, closed := p.closed || !ok)],
       h := s.h.(sent := s.h.sent + [Attempt(p.lo, p.hi, ok, |put|)], clean := s.h.clean && ok))
  }

  function DoDispose(s: State, t: Tid): (r: State)
    requires t in s.threads && s.threads[t].lo < |s.h.holder|
  {
    var p := s.threads[t];
    s.(threads := s.threads[t := p.(lo := p.lo + 1)],
       h := s.h.(holder := s.h.holder[p.lo := None], disposed := s.h.disposed + multiset{p.lo}))
  }

  function Apply(s: State, u: Step): (r: State)
    requires Enabled(s, u)
  {
    match u
    case Push(t, m) => s.(threads := s.threads[t := Pc(Pushing, m, 0, 0, [], false)])
    case PushTest(t) =>
      if s.reconnecting then s.(threads := Go(s, t, Finished), h := s.h.(refused := s.h.refused + multiset{t}))
      else s.(threads := Go(s, t, AtLock))
    case PushLocked(t) => DoPushLocked(s, t)
    case Launch(t, w) =>
      s.(threads := Go(s, t, Finished)[w := Pc(Loop, NoMsg, 0, 0, [], false)], h := s.h.(writer := Some(w)))
    case WriterTake(t) => DoTake(s, t)
    case WriterTest(t) => DoTest(s, t)
    case WriterSend(t, ok, n) => DoSend(s, t, ok, n)
    case DisposeOne(t) => DoDispose(s, t)
    case DisposeEnd(t) => s.(threads := Go(s, t, if s.threads[t].at == Draining then Finished else Loop))
    case SetReconnecting(b) => s.(reconnecting := b)
    case Stop => s.(running := false)
    case CleanStart(t) => s.(running := false, threads := s.threads[t := Pc(ToDrain, NoMsg, 0, 0, [], false)])
    case DrainTake(t) =>
      var r := Hand(s, t, Draining);
      r.(h := r.h.(drained := true, clean := s.h.clean && s.q.msgs == []))
  }

  ghost predicate IsRun(tr: seq<State>, steps: seq<Step>) {
    && |tr| == |steps| + 1
    && tr[0] == Start
    && forall i {:trigger steps[i]} ::
         0 <= i < |steps| ==> Enabled(tr[i], steps[i]) && tr[i + 1] == Apply(tr[i], steps[i])
  }
}
