/**
 The table of pending blocking calls (client.go, sendRequest, addSession,
 deleteSession, getSession, clearSession, dropMessage; handler.go, the response
 case of OnMessage).

 A call creates its session, named by the call's sequence number, and waits on
 the session's done channel, which buffers one response. dropMessage may carry
 any sequence number, also that of a response or a broadcast.
 */
module Sessions {
  import opened Prelude

  type Seq = nat

  datatype Response = Response(seq_: Seq, body: seq<Byte>)

  /** rpcSession: the buffer of done, and how often done was closed. */
  datatype Session = Session(key: Seq, buf: seq<Response>, closes: nat)

  datatype Phase = Made | Waiting | Left

  /** dropMessage between deleteSession and close, and OnMessage between getSession and the send. */
  datatype Closer = Closer(x: Seq, over: bool)
  datatype Sender = Sender(x: Seq, m: Response, over: bool)

  datatype State = State(
    table: map<Seq, Seq>,            // sessionMap: the session registered under each number
    sessions: map<Seq, Session>,
    running: bool,
    calls: map<Seq, Phase>,
    closers: seq<Closer>,
    senders: seq<Sender>,
    got: map<Seq, Option<Response>>, // what sendRequest received; None is a nil response
    closerOf: map<Seq, nat>)         // history: the drop that took each session

  const Start := State(map[], map[], true, map[], [], [], map[], map[])

  datatype Step =
    | Make(q: Seq)
    | Add(q: Seq)
    | DropTake(x: Seq)        // dropMessage: deleteSession
    | DropClose(i: nat)       // dropMessage: close(session.done)
    | ClearAll                // clearSession
    | ResponseGet(m: Response)
    | ResponseSend(i: nat)    // sends, or panics on a closed channel and is recovered
    | Receive(q: Seq)
    | GiveUp(q: Seq)          // ctx done or Client stopped
    | Return(q: Seq)          // the deferred deleteSession
    | Stop
    | Restart

  predicate Enabled(s: State, u: Step) {
    match u
    case Make(q) => q !in s.calls
    case Add(q) => q in s.calls && s.calls[q] == Made
    case DropTake(x) => true
    case DropClose(i) => i < |s.closers| && !s.closers[i].over && s.closers[i].x in s.sessions
    case ClearAll => true
    case ResponseGet(m) => true
    case ResponseSend(i) =>
      i < |s.senders| && !s.senders[i].over && s.senders[i].x in s.sessions
      && (s.sessions[s.senders[i].x].closes > 0 || s.sessions[s.senders[i].x].buf == [])
    case Receive(q) =>
      q in s.calls && s.calls[q] == Waiting && q in s.sessions && q !in s.got
      && (s.sessions[q].buf != [] || s.sessions[q].closes > 0)
    case GiveUp(q) => q in s.calls && s.calls[q] == Waiting
    case Return(q) => q in s.calls && s.calls[q] == Waiting
    case Stop => true
    case Restart => true
  }

  function Close(s: Session): (r: Session) { s.(closes := s.closes + 1) }

  /** clearSession: close every registered session and empty the table. */
  function DoClear(s: State): (r: State) {
    s.(sessions := map x | x in s.sessions :: if x in s.table.Values then Close(s.sessions[x]) else s.sessions[x],
       table := map[])
  }

  function DoDropTake(s: State, x: Seq): (r: State) {
    if x in s.table then
      s.(table := s.table - {x}, closers := s.closers + [Closer(s.table[x], false)],
         closerOf := s.closerOf[s.table[x] := |s.closers|])
    else s
  }

  function DoDropClose(s: State, i: nat): (r: State)
    requires i < |s.closers| && s.closers[i].x in s.sessions
  {
    var x := s.closers[i].x;
    s.(sessions := s.sessions[x := Close(s.sessions[x])], closers := s.closers[i := Closer(x, true)])
  }

  function DoSend(s: State, i: nat): (r: State)
    requires i < |s.senders| && s.senders[i].x in s.sessions
  {
    var k := s.senders[i];
    var ss := s.sessions[k.x];
    s.(senders := s.senders[i := k.(over := true)],
       sessions := if ss.closes > 0 then s.sessions else s.sessions[k.x := ss.(buf := ss.buf + [k.m])])
  }

  function DoReceive(s: State, q: Seq): (r: State)
    requires q in s.sessions
  {
    var ss := s.sessions[q];
    if ss.buf != [] then s.(got := s.got[q := Some(ss.buf[0])], sessions := s.sessions[q := ss.(buf := ss.buf[1..])])
    else s.(got := s.got[q := None])
  }

  function Apply(s: State, u: Step): (r: State)
    requires Enabled(s, u)
  {
    match u
    case Make(q) => s.(calls := s.calls[q := Made], sessions := s.sessions[q := Session(q, [], 0)])
    case Add(q) => s.(table := if s.running then s.table[q := q] else s.table, calls := s.calls[q := Waiting])
    case DropTake(x) => DoDropTake(s, x)
    case DropClose(i) => DoDropClose(s, i)
    case ClearAll => DoClear(s)
    case ResponseGet(m) =>
      if m.seq_ in s.table then s.(senders := s.senders + [Sender(s.table[m.seq_], m, false)]) else s
    case ResponseSend(i) => DoSend(s, i)
    case Receive(q) => DoReceive(s, q)
    case GiveUp(q) => s
    case Return(q) => s.(table := s.table - {q}, calls := s.calls[q := Left])
    case Stop => s.(running := false)
    case Restart => s.(table := map[], running := true)
  }

  ghost predicate IsRun(tr: seq<State>, steps: seq<Step>) {
    && |tr| == |steps| + 1
    && tr[0] == Start
    && forall i {:trigger steps[i]} ::
         0 <= i < |steps| ==> Enabled(tr[i], steps[i]) && tr[i + 1] == Apply(tr[i], steps[i])
  }

  // ---------------------------------------------------------------- invariant

  ghost predicate EntryOk(s: State, q: Seq)
    requires q in s.table
  {
    s.table[q] == q && q in s.sessions && s.sessions[q].closes == 0 && q !in s.closerOf
    && q in s.calls && s.calls[q] == Waiting
  }

  /** Closed at most once; if a drop took the session, closed exactly when that drop is over. */
  ghost predicate SessionOk(s: State, x: Seq)
    requires x in s.sessions
  {
    var ss := s.sessions[x];
    && x in s.calls && ss.key == x && ss.closes <= 1
    && (s.calls[x] == Made ==> ss.closes == 0 && x !in s.closerOf)
    && (x in s.closerOf ==>
          s.closerOf[x] < |s.closers| && s.closers[s.closerOf[x]].x == x
          && ss.closes == (if s.closers[s.closerOf[x]].over then 1 else 0))
    && (forall m {:trigger m in ss.buf} ::
          m in ss.buf ==> m.seq_ == x)
  }

  ghost predicate CloserOk(s: State, i: nat)
    requires i < |s.closers|
  {
    var x := s.closers[i].x;
    x in s.closerOf && s.closerOf[x] == i && x in s.sessions && x !in s.table
  }

  ghost predicate SenderOk(s: State, i: nat)
    requires i < |s.senders|
  {
    s.senders[i].m.seq_ == s.senders[i].x && s.senders[i].x in s.sessions
  }

  ghost predicate GotOk(s: State, q: Seq)
    requires q in s.got
  {
    s.got[q].Some? ==> s.got[q].value.seq_ == q
  }

  ghost predicate Inv(s: State) {
    && (forall q {:trigger EntryOk(s, q)} ::
          q in s.table ==> EntryOk(s, q))
    && (forall x {:trigger SessionOk(s, x)} ::
          x in s.sessions ==> SessionOk(s, x))
    && (forall i: nat {:trigger CloserOk(s, i)} ::
          i < |s.closers| ==> CloserOk(s, i))
    && (forall i: nat {:trigger SenderOk(s, i)} ::
          i < |s.senders| ==> SenderOk(s, i))
    && (forall q {:trigger GotOk(s, q)} :: q in s.got ==> GotOk(s, q))
    && s.calls.Keys <= s.sessions.Keys && s.closerOf.Keys <= s.sessions.Keys
  }

  lemma Keep(s: State, r: State)
    requires Inv(s) && r.calls.Keys <= r.sessions.Keys
    requires forall q {:trigger EntryOk(r, q)} :: q in r.table ==> EntryOk(r, q)
    requires forall x {:trigger SessionOk(r, x)} :: x in r.sessions ==> SessionOk(r, x)
    requires s.closers == r.closers && s.closerOf == r.closerOf && s.senders == r.senders && s.got == r.got
    requires forall x :: x in r.table && x !in s.table ==> x !in s.closerOf
    requires s.sessions.Keys <= r.sessions.Keys
    ensures Inv(r)
  {
    forall i: nat | i < |r.closers| ensures CloserOk(r, i) { assert CloserOk(s, i); }
    forall i: nat | i < |r.senders| ensures SenderOk(r, i) { assert SenderOk(s, i); }
    forall q | q in r.got ensures GotOk(r, q) { assert GotOk(s, q); }
  }

  lemma CallInv(s: State, u: Step)
    requires Inv(s) && Enabled(s, u) && (u.Make? || u.Add? || u.Return? || u.Stop? || u.Restart? || u.GiveUp?)
    ensures Inv(Apply(s, u))
  {
    var r := Apply(s, u);
    if u.Add? { assert SessionOk(s, u.q); }
    if u.Make? { assert u.q in s.sessions ==> SessionOk(s, u.q); }
    forall q | q in r.table ensures EntryOk(r, q) { if q in s.table { assert EntryOk(s, q); } }
    forall x | x in r.sessions ensures SessionOk(r, x) { if x in s.sessions { assert SessionOk(s, x); } }
    Keep(s, r);
  }

  lemma ClearInv(s: State)
    requires Inv(s)
    ensures Inv(DoClear(s))
  {
    var r := DoClear(s);
    forall x | x in s.table.Values ensures x in s.table {
      var q :| q in s.table && s.table[q] == x;
      assert EntryOk(s, q);
    }
    forall x | x in r.sessions ensures SessionOk(r, x) {
      assert SessionOk(s, x);
      assert x in s.table ==> EntryOk(s, x);
    }
    Keep(s, r);
  }

  lemma DropTakeInv(s: State, x: Seq)
    requires Inv(s)
    ensures Inv(DoDropTake(s, x))
  {
    if x in s.table {
      var r := DoDropTake(s, x);
      assert EntryOk(s, x) && SessionOk(s, x);
      forall q | q in r.table ensures EntryOk(r, q) { assert EntryOk(s, q); }
      forall y | y in r.sessions ensures SessionOk(r, y) { assert SessionOk(s, y); }
      forall i: nat | i < |r.closers| ensures CloserOk(r, i) { if i < |s.closers| { assert CloserOk(s, i); } }
      forall i: nat | i < |r.senders| ensures SenderOk(r, i) { assert SenderOk(s, i); }
      forall q | q in r.got ensures GotOk(r, q) { assert GotOk(s, q); }
    }
  }

  lemma DropCloseInv(s: State, i: nat)
    requires Inv(s) && Enabled(s, DropClose(i))
    ensures Inv(DoDropClose(s, i))
  {
    var r, x := DoDropClose(s, i), s.closers[i].x;
    assert CloserOk(s, i) && SessionOk(s, x);
    forall q | q in r.table ensures EntryOk(r, q) { assert EntryOk(s, q); }
    forall y | y in r.sessions ensures SessionOk(r, y) { assert SessionOk(s, y); }
    forall j: nat | j < |r.closers| ensures CloserOk(r, j) { assert CloserOk(s, j); }
    forall j: nat | j < |r.senders| ensures SenderOk(r, j) { assert SenderOk(s, j); }
    forall q | q in r.got ensures GotOk(r, q) { assert GotOk(s, q); }
  }

  lemma ResponseInv(s: State, u: Step)
    requires Inv(s) && Enabled(s, u) && (u.ResponseGet? || u.ResponseSend?)
    ensures Inv(Apply(s, u))
  {
    var r := Apply(s, u);
    if u.ResponseGet? && u.m.seq_ in s.table { assert EntryOk(s, u.m.seq_); }
    if u.ResponseSend? { assert SenderOk(s, u.i) && SessionOk(s, s.senders[u.i].x); }
    forall q | q in r.table ensures EntryOk(r, q) { assert EntryOk(s, q); }
    forall y | y in r.sessions ensures SessionOk(r, y) { assert SessionOk(s, y); }
    forall j: nat | j < |r.closers| ensures CloserOk(r, j) { assert CloserOk(s, j); }
    forall j: nat | j < |r.senders| ensures SenderOk(r, j) { if j < |s.senders| { assert SenderOk(s, j); } }
    forall q | q in r.got ensures GotOk(r, q) { assert GotOk(s, q); }
  }

  /** The session of q loses its first response. */
  lemma TakenSession(s: State, q: Seq)
    requires Inv(s) && q in s.sessions && s.sessions[q].buf != []
    ensures s.sessions[q].buf[0].seq_ == q && SessionOk(DoReceive(s, q), q)
  {
    var buf := s.sessions[q].buf;
    assert SessionOk(s, q);
    assert buf[0] in buf && forall m :: m in buf[1..] ==> m in buf;
  }

  /** Call q is handed a response, or nil. */
  lemma ReceiveInv(s: State, q: Seq)
    requires Inv(s) && Enabled(s, Receive(q))
    ensures Inv(DoReceive(s, q))
  {
    var r := DoReceive(s, q);
    if s.sessions[q].buf == [] {
      GotInv(s, r, q);
    } else {
      TakenSession(s, q);
      var t := s.(sessions := r.sessions);
      forall x | x in t.table ensures EntryOk(t, x) { assert EntryOk(s, x); }
      forall y | y in t.sessions ensures SessionOk(t, y) {
        if y == q { assert SessionOk(r, q); } else { assert SessionOk(s, y); }
      }
      Keep(s, t);
      GotInv(t, r, q);
    }
  }

  lemma GotInv(s: State, r: State, q: Seq)
    requires Inv(s) && q in r.got && r == s.(got := s.got[q := r.got[q]]) && GotOk(r, q)
    ensures Inv(r)
  {
    forall x | x in r.table ensures EntryOk(r, x) { assert EntryOk(s, x); }
    forall y | y in r.sessions ensures SessionOk(r, y) { assert SessionOk(s, y); }
    forall j: nat | j < |r.closers| ensures CloserOk(r, j) { assert CloserOk(s, j); }
    forall j: nat | j < |r.senders| ensures SenderOk(r, j) { assert SenderOk(s, j); }
    forall x | x in r.got ensures GotOk(r, x) { assert x != q ==> GotOk(s, x); }
  }

  lemma StepKeepsInv(s: State, u: Step)
    requires Inv(s) && Enabled(s, u)
    ensures Inv(Apply(s, u))
  {
    match u {
      case DropTake(x) => DropTakeInv(s, x);
      case DropClose(i) => DropCloseInv(s, i);
      case ClearAll => ClearInv(s);
      case ResponseGet(_) => ResponseInv(s, u);
      case ResponseSend(_) => ResponseInv(s, u);
      case Receive(q) => ReceiveInv(s, q);
      case _ => CallInv(s, u);
    }
  }

  lemma {:induction false} RunKeepsInv(tr: seq<State>, steps: seq<Step>, i: nat)
    requires IsRun(tr, steps) && i < |tr|
    ensures Inv(tr[i])
  {
    if i > 0 {
      RunKeepsInv(tr, steps, i - 1);
      NextInv(tr, steps, i - 1);
    }
  }

  lemma NextInv(tr: seq<State>, steps: seq<Step>, i: nat)
    requires IsRun(tr, steps) && i < |steps| && Inv(tr[i])
    ensures Inv(tr[i + 1])
  {
    StepKeepsInv(tr[i], steps[i]);
  }

  // ------------------------------------------------------------------ theorems

  /** done is closed at most once, and a session in the table is open: closing never precedes leaving the table. */
  lemma DoneClosedAtMostOnce(tr: seq<State>, steps: seq<Step>, i: nat, x: Seq)
    requires IsRun(tr, steps) && i < |tr| && x in tr[i].sessions
    ensures tr[i].sessions[x].closes <= 1
    ensures tr[i].sessions[x].closes == 1 ==> x !in tr[i].table && x !in tr[i].table.Values
  {
    var s := tr[i];
    RunKeepsInv(tr, steps, i);
    assert SessionOk(s, x);
    assert x in s.table ==> EntryOk(s, x);
    forall q | q in s.table ensures s.table[q] == q { assert EntryOk(s, q); }
  }

  /** The session of call x is not in the table, and the call is past adding it. */
  predicate OffTable(s: State, x: Seq) { x in s.calls && s.calls[x] != Made && x !in s.table }

  /** A session that left the table never comes back to it. */
  lemma {:induction false} LeftForGood(tr: seq<State>, steps: seq<Step>, i: nat, j: nat, x: Seq)
    requires IsRun(tr, steps) && i <= j < |tr| && OffTable(tr[i], x)
    ensures OffTable(tr[j], x)
  {
    if i < j {
      LeftForGood(tr, steps, i, j - 1, x);
      LeftNext(tr, steps, j - 1, x);
    }
  }

  lemma LeftNext(tr: seq<State>, steps: seq<Step>, i: nat, x: Seq)
    requires IsRun(tr, steps) && i < |steps| && OffTable(tr[i], x)
    ensures OffTable(tr[i + 1], x)
  {
    LeftStep(tr[i], steps[i], x);
  }

  lemma LeftStep(s: State, u: Step, x: Seq)
    requires Enabled(s, u) && OffTable(s, x)
    ensures OffTable(Apply(s, u), x)
  {
    match u {
      case Make(_) => LeftCall(s, u, x);
      case Add(_) => LeftCall(s, u, x);
      case Return(_) => LeftCall(s, u, x);
      case _ =>
    }
  }

  lemma LeftCall(s: State, u: Step, x: Seq)
    requires Enabled(s, u) && OffTable(s, x) && (u.Make? || u.Add? || u.Return?)
    ensures OffTable(Apply(s, u), x)
  {
  }

  /** A blocking call receives a response that carries its own sequence number, or nil. */
  lemma CallGetsItsOwnResponse(tr: seq<State>, steps: seq<Step>, i: nat, q: Seq)
    requires IsRun(tr, steps) && i < |tr| && q in tr[i].got
    ensures tr[i].got[q].Some? ==> tr[i].got[q].value.seq_ == q
  {
    RunKeepsInv(tr, steps, i);
    assert GotOk(tr[i], q);
  }

  /** Also the responses still in a session's buffer, or on their way to it, carry its number. */
  lemma ResponsesGoHome(tr: seq<State>, steps: seq<Step>, i: nat, x: Seq, m: Response, k: nat)
    requires IsRun(tr, steps) && i < |tr|
    ensures x in tr[i].sessions && m in tr[i].sessions[x].buf ==> m.seq_ == x
    ensures k < |tr[i].senders| ==> tr[i].senders[k].m.seq_ == tr[i].senders[k].x
  {
    RunKeepsInv(tr, steps, i);
    assert x in tr[i].sessions ==> SessionOk(tr[i], x);
    assert k < |tr[i].senders| ==> SenderOk(tr[i], k);
  }

  /** A reconnect wakes every registered call: its done channel is closed and the table is empty. */
  lemma ClearWakesEveryCall(tr: seq<State>, steps: seq<Step>, i: nat, q: Seq)
    requires IsRun(tr, steps) && i < |steps| && steps[i] == ClearAll && q in tr[i].table
    ensures tr[i + 1].table == map[]
    ensures q in tr[i + 1].sessions && tr[i + 1].sessions[q].closes == 1
  {
    RunKeepsInv(tr, steps, i);
    assert EntryOk(tr[i], q);
    assert tr[i].table[q] in tr[i].table.Values;
  }
}
