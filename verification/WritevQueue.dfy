/**
 The writev queue as an object and the writevLoop as a loop (client.go,
 pushWritev, writevLoop and drainWritev). The methods of the class are the
 critical sections under writevMux, proved to be those of WritevModel.Queue.
 The loop runs against any schedule of pushes, reconnects and write results
 between its critical sections.
 */
module WritevQueue {
  import opened Prelude
  import opened WritevModel
  import opened WritevProofs

  class SendQueue {
    var buffers: seq<Bytes>
    var msgs: seq<Msg>
    var sending: bool

    ghost function View(): (q: Queue)
      reads this
    {
      Queue(buffers, msgs, sending)
    }

    constructor ()
      ensures View() == Queue([], [], false)
    {
      buffers, msgs, sending := [], [], false;
    }

    /** Reports whether the caller must start a writer. */
    method Push(m: Msg) returns (launch: bool)
      modifies this
      ensures (View(), launch) == old(View()).Push(m)
    {
      buffers := buffers + [m.buffer];
      if |m.body| > 0 {
        buffers := buffers + [m.body];
        assert buffers == old(buffers) + BuffersOf(m);
      }
      msgs := msgs + [m];
      launch := !sending;
      if launch {
        sending := true;
      }
    }

    /** more is false when the queue was empty; the writer must return then. */
    method Take() returns (bufs: seq<Bytes>, ms: seq<Msg>, more: bool)
      modifies this
      ensures View() == old(View()).Take()
      ensures more <==> |old(buffers)| > 0
      ensures bufs == old(buffers) && ms == old(msgs)
    {
      bufs, ms := buffers, msgs;
      if |buffers| == 0 {
        sending := false;
        return bufs, ms, false;
      }
      buffers, msgs := [], [];
      more := true;
    }

    method Drain() returns (ms: seq<Msg>)
      modifies this
      ensures View() == old(View()).Drain() && ms == old(msgs)
    {
      ms := msgs;
      buffers, msgs := [], [];
    }

    method PushOne(m: Msg)
      requires sending && buffers == AllBuffers(msgs)
      modifies this
      ensures sending && msgs == old(msgs) + [m] && buffers == AllBuffers(msgs)
    {
      AllBuffersConcat(msgs, [m]);
      assert [m][1..] == [] && BuffersOf(m) + [] == BuffersOf(m);
      assert AllBuffers([m]) == BuffersOf(m);
      var launch := Push(m);
    }

    /** Other goroutines push while the writer is not in its critical section. */
    method PushAll(ms: seq<Msg>)
      requires sending && buffers == AllBuffers(msgs)
      modifies this
      ensures sending && msgs == old(msgs) + ms && buffers == AllBuffers(msgs)
    {
      for i := 0 to |ms|
        invariant sending && msgs == old(msgs) + ms[..i] && buffers == AllBuffers(msgs)
      {
        assert ms[..i] + [ms[i]] == ms[..i + 1];
        Associative(old(msgs), ms[..i], [ms[i]]);
        PushOne(ms[i]);
      }
      assert ms[..|ms|] == ms;
    }
  }

  /** Written and done; done after a failed write; or dropped. */
  datatype Fate = Sent | Failed | Dropped

  /** What happens between two critical sections of the writer; a write that fails wrote some bytes, at most wrote. */
  datatype Turn = Turn(pushed: seq<Msg>, reconnecting: bool, writeOk: bool, wrote: nat)

  function Pushed(turns: seq<Turn>): (r: seq<Msg>) {
    if turns == [] then [] else turns[0].pushed + Pushed(turns[1..])
  }

  lemma {:induction false} PushedConcat(a: seq<Turn>, b: seq<Turn>)
    ensures Pushed(a + b) == Pushed(a) + Pushed(b)
  {
    if a == [] {
      assert a + b == b;
    } else {
      assert (a + b)[1..] == a[1..] + b;
      PushedConcat(a[1..], b);
    }
  }

  lemma Associative<T>(a: seq<T>, b: seq<T>, c: seq<T>)
    ensures (a + b) + c == a + (b + c)
  {
  }

  lemma PushedNext(turns: seq<Turn>, k: nat)
    requires k < |turns|
    ensures Pushed(turns[..k + 1]) == Pushed(turns[..k]) + turns[k].pushed
  {
    PushedConcat(turns[..k], [turns[k]]);
    assert turns[..k + 1] == turns[..k] + [turns[k]];
    assert turns[k].pushed + [] == turns[k].pushed;
  }

  /** The messages with the given fate. */
  function With(fate: Fate, ms: seq<Msg>, fates: seq<Fate>): (r: seq<Msg>)
    requires |ms| == |fates|
  {
    if ms == [] then [] else (if fates[0] == fate then [ms[0]] else []) + With(fate, ms[1..], fates[1..])
  }

  function Same(f: Fate, n: nat): (r: seq<Fate>) { seq(n, _ => f) }

  lemma {:induction false} WithSame(fate: Fate, b: seq<Msg>, all: Fate)
    ensures With(fate, b, Same(all, |b|)) == if all == fate then b else []
  {
    if b != [] {
      WithSame(fate, b[1..], all);
      assert Same(all, |b|)[1..] == Same(all, |b| - 1);
      assert b == [b[0]] + b[1..];
    }
  }

  lemma {:induction false} WithConcat(fate: Fate, a: seq<Msg>, f: seq<Fate>, b: seq<Msg>, g: seq<Fate>)
    requires |a| == |f| && |b| == |g|
    ensures With(fate, a + b, f + g) == With(fate, a, f) + With(fate, b, g)
  {
    if a == [] {
      assert a + b == b && f + g == g;
    } else {
      assert (a + b)[1..] == a[1..] + b && (f + g)[1..] == f[1..] + g;
      WithConcat(fate, a[1..], f[1..], b, g);
      Associative(if f[0] == fate then [a[0]] else [], With(fate, a[1..], f[1..]), With(fate, b, g));
    }
  }

  /** What the writer has done: the messages it took, their fates, the bytes written, and a cut at their end. */
  datatype Log = Log(order: seq<Msg>, fates: seq<Fate>, wire: Bytes, cut: Bytes)

  /**
   Each message has one fate; the conn carries the sent ones and, after a
   failed write, a part of the batch that failed; and once it broke only drops
   follow.
   */
  ghost predicate LogOk(l: Log, closed: bool) {
    && |l.fates| == |l.order|
    && l.wire == BytesOf(With(Sent, l.order, l.fates)) + l.cut
    && l.cut <= BytesOf(With(Failed, l.order, l.fates))
    && (forall i, j :: 0 <= i < j < |l.fates| && l.fates[i] == Dropped ==> l.fates[j] == Dropped)
    && (!closed ==> l.cut == [] && l.fates == Same(Sent, |l.order|))
  }

  function Record(l: Log, ms: seq<Msg>, fate: Fate, put: Bytes): (r: Log) {
    Log(l.order + ms, l.fates + Same(fate, |ms|), l.wire + put, if fate == Failed then put else l.cut)
  }

  lemma WithRecord(fate: Fate, l: Log, ms: seq<Msg>, all: Fate)
    requires |l.fates| == |l.order|
    ensures With(fate, l.order + ms, l.fates + Same(all, |ms|)) ==
            With(fate, l.order, l.fates) + if all == fate then ms else []
  {
    WithConcat(fate, l.order, l.fates, ms, Same(all, |ms|));
    WithSame(fate, ms, all);
  }

  lemma RecordSent(l: Log, ms: seq<Msg>)
    requires LogOk(l, false)
    ensures LogOk(Record(l, ms, Sent, BytesOf(ms)), false)
  {
    WithRecord(Sent, l, ms, Sent);
    BytesConcat(With(Sent, l.order, l.fates), ms);
  }

  lemma FailedMessages(l: Log, ms: seq<Msg>)
    requires l.fates == Same(Sent, |l.order|)
    ensures With(Sent, l.order + ms, l.fates + Same(Failed, |ms|)) == With(Sent, l.order, l.fates)
    ensures With(Failed, l.order + ms, l.fates + Same(Failed, |ms|)) == ms
  {
    WithRecord(Sent, l, ms, Failed);
    WithRecord(Failed, l, ms, Failed);
    WithSame(Failed, l.order, Sent);
  }

  lemma RecordFailed(l: Log, ms: seq<Msg>, put: Bytes)
    requires LogOk(l, false) && put <= BytesOf(ms)
    ensures LogOk(Record(l, ms, Failed, put), true)
  {
    FailedMessages(l, ms);
    assert l.wire == BytesOf(With(Sent, l.order, l.fates));
  }

  lemma RecordDropped(l: Log, closed: bool, ms: seq<Msg>)
    requires LogOk(l, closed)
    ensures LogOk(Record(l, ms, Dropped, []), true)
  {
    WithRecord(Sent, l, ms, Dropped);
    WithRecord(Failed, l, ms, Dropped);
    assert With(Sent, l.order, l.fates) + [] == With(Sent, l.order, l.fates);
    assert With(Failed, l.order, l.fates) + [] == With(Failed, l.order, l.fates);
  }

  /** What the loop does with one batch: drop it once the conn is broken, else write it with one writev. */
  method HandleBatch(l: Log, closed: bool, bufs: seq<Bytes>, ms: seq<Msg>, turn: Turn) returns (r: Log, broken: bool)
    requires LogOk(l, closed) && bufs == AllBuffers(ms)
    ensures LogOk(r, broken) && r.order == l.order + ms && l.wire <= r.wire
    ensures broken == (closed || turn.reconnecting || !turn.writeOk)
    ensures var fate := if closed || turn.reconnecting then Dropped else if turn.writeOk then Sent else Failed;
            r.fates == l.fates + Same(fate, |ms|)
  {
    var out := Flatten(bufs);
    broken := true;
    if closed || turn.reconnecting {
      RecordDropped(l, closed, ms);
      r := Record(l, ms, Dropped, []);
    } else if !turn.writeOk {
      var put := out[..if turn.wrote <= |out| then turn.wrote else |out|];
      RecordFailed(l, ms, put);
      r := Record(l, ms, Failed, put);
    } else {
      RecordSent(l, ms);
      r, broken := Record(l, ms, Sent, out), false;
    }
  }

  /** The batch of turn k: what was queued at the start, then what was pushed during the turn before. */
  function BatchOf(start: seq<Msg>, turns: seq<Turn>, k: nat): (ms: seq<Msg>)
    requires k <= |turns|
  {
    if k == 0 then start else turns[k - 1].pushed
  }

  predicate Breaks(t: Turn) { t.reconnecting || !t.writeOk }

  /** What becomes of the batch of turn k; nothing goes wrong after the last turn. */
  ghost function FateOf(turns: seq<Turn>, k: nat): (f: Fate)
    requires k <= |turns|
  {
    if exists j :: 0 <= j < k && Breaks(turns[j]) then Dropped
    else if k == |turns| then Sent
    else if turns[k].reconnecting then Dropped
    else if turns[k].writeOk then Sent
    else Failed
  }

  ghost function FatesTo(start: seq<Msg>, turns: seq<Turn>, n: nat): (fs: seq<Fate>)
    requires n <= |turns| + 1
  {
    if n == 0 then []
    else FatesTo(start, turns, n - 1) + Same(FateOf(turns, n - 1), |BatchOf(start, turns, n - 1)|)
  }

  /**
   One run of writevLoop, from its start with writevSending set until it
   returns. Each message queued meanwhile has exactly one fate, in the order of
   the queue: the batches before the first trouble are sent, that of a failed
   write failed, and everything else dropped. The conn carries the sent ones,
   unbroken, then a part of the batch whose write failed, if one did; and the
   loop returns only with the queue empty and writevSending cleared.
   */
  method WritevLoop(q: SendQueue, turns: seq<Turn>) returns (l: Log, used: nat)
    requires q.sending && q.buffers == AllBuffers(q.msgs)
    modifies q
    ensures q.View() == Queue([], [], false)
    ensures used <= |turns| && l.order == old(q.msgs) + Pushed(turns[..used])
    ensures LogOk(l, true) && (Healthy(turns) ==> l.wire == BytesOf(l.order))
    ensures l.fates == FatesTo(old(q.msgs), turns, used + 1)
  {
    var closed := false;
    l, used := Log([], [], [], []), 0;
    ghost var start, n := q.msgs, 0;
    LoopedStart(start, turns);
    while true
      invariant q.sending && q.buffers == AllBuffers(q.msgs)
      invariant Looped(start, turns, used, n, l, q.msgs, closed)
      decreases |turns| - used, |q.buffers|
    {
      var bufs, ms, more := q.Take();
      NonEmptyBuffers(ms);
      if !more {
        LoopedEnd(start, turns, used, n, l, closed);
        return;
      }
      var turn := if used < |turns| then turns[used] else Turn([], false, true, 0);
      ghost var before, broken := l, closed;
      l, closed := HandleBatch(l, closed, bufs, ms, turn);
      LoopedNext(start, turns, used, n, before, ms, broken, l, closed);
      n := n + 1;
      if used < |turns| {
        q.PushAll(turn.pushed);
        used := used + 1;
      }
    }
  }

  /** After n batches: what the writer took, did and left. */
  ghost predicate Looped(
    start: seq<Msg>, turns: seq<Turn>, used: nat, n: nat, l: Log, queued: seq<Msg>, closed: bool)
  {
    && LogOk(l, closed) && (Healthy(turns) ==> !closed)
    && Accounted(start, turns, used, l.order, queued)
    && Turned(start, turns, used, n, queued, l.fates, closed)
  }

  lemma LoopedStart(start: seq<Msg>, turns: seq<Turn>)
    ensures Looped(start, turns, 0, 0, Log([], [], [], []), start, false)
  {
    AccountedStart(start, turns);
  }

  lemma LoopedNext(start: seq<Msg>, turns: seq<Turn>, used: nat, n: nat, l: Log, ms: seq<Msg>, closed: bool,
                   r: Log, broken: bool)
    requires Looped(start, turns, used, n, l, ms, closed) && ms != [] && LogOk(r, broken) && r.order == l.order + ms
    requires var turn := if used < |turns| then turns[used] else Turn([], false, true, 0);
             var fate := if closed || turn.reconnecting then Dropped else if turn.writeOk then Sent else Failed;
             broken == (closed || Breaks(turn)) && r.fates == l.fates + Same(fate, |ms|)
    ensures if used < |turns| then Looped(start, turns, used + 1, n + 1, r, [] + turns[used].pushed, broken)
            else Looped(start, turns, used, n + 1, r, [], broken)
  {
    AccountedTake(start, turns, used, l.order, ms);
    TurnedNext(start, turns, used, n, ms, l.fates, closed);
    if used < |turns| { AccountedPush(start, turns, used, r.order); }
  }

  lemma LoopedEnd(start: seq<Msg>, turns: seq<Turn>, used: nat, n: nat, l: Log, closed: bool)
    requires Looped(start, turns, used, n, l, [], closed)
    ensures used <= |turns| && l.order == start + Pushed(turns[..used])
    ensures LogOk(l, true) && (Healthy(turns) ==> l.wire == BytesOf(l.order))
    ensures l.fates == FatesTo(start, turns, used + 1)
  {
    AccountedEnd(start, turns, used, l.order, []);
    Finished(l, closed);
    TurnedEnd(start, turns, used, n, [], l.fates, closed);
  }

  /** n batches are over; the queue holds the next one, or nothing after the last turn. */
  ghost predicate Turned(
    start: seq<Msg>, turns: seq<Turn>, used: nat, n: nat, queued: seq<Msg>, fates: seq<Fate>, closed: bool)
  {
    && used <= |turns| && n <= |turns| + 1 && fates == FatesTo(start, turns, n)
    && (closed <==> exists j :: 0 <= j < n && j < |turns| && Breaks(turns[j]))
    && ((n == used && queued == BatchOf(start, turns, used)) || (n == used + 1 && used == |turns| && queued == []))
  }

  lemma TurnedNext(
    start: seq<Msg>, turns: seq<Turn>, used: nat, n: nat, ms: seq<Msg>, fates: seq<Fate>, closed: bool)
    requires Turned(start, turns, used, n, ms, fates, closed) && ms != []
    ensures var turn := if used < |turns| then turns[used] else Turn([], false, true, 0);
            var fate := if closed || turn.reconnecting then Dropped else if turn.writeOk then Sent else Failed;
            && fates + Same(fate, |ms|) == FatesTo(start, turns, used + 1) && n == used
            && ((closed || Breaks(turn)) <==> exists j :: 0 <= j < n + 1 && j < |turns| && Breaks(turns[j]))
            && (used < |turns| ==> [] + turns[used].pushed == BatchOf(start, turns, used + 1))
  {
    assert used < |turns| ==> (Breaks(turns[used]) ==> exists j :: 0 <= j < n + 1 && j < |turns| && Breaks(turns[j]));
  }

  lemma TurnedEnd(
    start: seq<Msg>, turns: seq<Turn>, used: nat, n: nat, ms: seq<Msg>, fates: seq<Fate>, closed: bool)
    requires Turned(start, turns, used, n, ms, fates, closed) && AllBuffers(ms) == []
    ensures fates == FatesTo(start, turns, used + 1)
  {
    NonEmptyBuffers(ms);
    if n == used { assert Same(FateOf(turns, used), 0) == []; }
  }

  /** No reconnect and no failed write. */
  ghost predicate Healthy(turns: seq<Turn>) {
    forall k {:trigger turns[k]} :: 0 <= k < |turns| ==> turns[k].writeOk && !turns[k].reconnecting
  }

  /** What the writer took and what is queued is what was there and what was pushed, in order. */
  ghost predicate Accounted(start: seq<Msg>, turns: seq<Turn>, used: nat, order: seq<Msg>, queued: seq<Msg>) {
    used <= |turns| && order + queued == start + Pushed(turns[..used])
  }

  lemma AccountedStart(start: seq<Msg>, turns: seq<Turn>)
    ensures Accounted(start, turns, 0, [], start)
  {
    assert turns[..0] == [] && [] + start == start + [];
  }

  lemma AccountedTake(start: seq<Msg>, turns: seq<Turn>, used: nat, order: seq<Msg>, queued: seq<Msg>)
    requires Accounted(start, turns, used, order, queued)
    ensures Accounted(start, turns, used, order + queued, [])
  {
    assert (order + queued) + [] == order + queued;
  }

  lemma AccountedPush(start: seq<Msg>, turns: seq<Turn>, used: nat, order: seq<Msg>)
    requires Accounted(start, turns, used, order, []) && used < |turns|
    ensures Accounted(start, turns, used + 1, order, [] + turns[used].pushed)
  {
    assert order + [] == order && [] + turns[used].pushed == turns[used].pushed;
    PushedNext(turns, used);
    Associative(start, Pushed(turns[..used]), turns[used].pushed);
  }

  lemma AccountedEnd(start: seq<Msg>, turns: seq<Turn>, used: nat, order: seq<Msg>, queued: seq<Msg>)
    requires Accounted(start, turns, used, order, queued) && AllBuffers(queued) == []
    ensures used <= |turns| && order == start + Pushed(turns[..used])
  {
    NonEmptyBuffers(queued);
    assert order + [] == order;
  }

  lemma Finished(l: Log, closed: bool)
    requires LogOk(l, closed)
    ensures LogOk(l, true) && (!closed ==> l.wire == BytesOf(l.order))
  {
    if !closed {
      WithSame(Sent, l.order, Sent);
      assert BytesOf(l.order) + [] == BytesOf(l.order);
    }
  }
}
