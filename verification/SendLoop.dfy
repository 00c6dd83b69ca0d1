/**
 The two send loops of AsyncWrite (client.go, normalSendLoop and
 batchSendLoop). The send queue is a channel other goroutines push to at any
 moment; the loop is its only reader. Whatever the arrivals, the batching loop
 writes the bytes, and reports the messages, that the plain loop would.

 A MessageCoder is a function on messages. c.reconnecting is read at any value
 the other goroutines leave in it.
 */
module SendLoop {
  import opened Prelude

  datatype Message = Message(id: nat, buffer: Bytes)

  type Coder = Message -> Message

  /** The calls the loop makes on a message: OnMessageDone or dropMessage. */
  datatype Event = Done(m: Message) | Drop(m: Message)

  function Encode(coders: seq<Coder>, m: Message): (r: Message) {
    if coders == [] then m else Encode(coders[1..], coders[0](m))
  }

  lemma {:induction false} EncodeNext(coders: seq<Coder>, j: nat, m: Message)
    requires j < |coders|
    ensures Encode(coders[..j + 1], m) == coders[j](Encode(coders[..j], m))
  {
    if j > 0 {
      assert coders[..j + 1][1..] == coders[1..][..j] && coders[..j][1..] == coders[1..][..j - 1];
      EncodeNext(coders[1..], j - 1, coders[0](m));
    } else {
      assert coders[..1] == [coders[0]] && coders[..0] == [];
    }
  }

  /** The loop over the coders. */
  method RunCoders(coders: seq<Coder>, m: Message) returns (r: Message)
    ensures r == Encode(coders, m)
  {
    r := m;
    for j := 0 to |coders|
      invariant r == Encode(coders[..j], m)
    {
      EncodeNext(coders, j, m);
      r := coders[j](r);
    }
    assert coders[..|coders|] == coders;
  }

  // ------------------------------------------------------- the plain loop

  /** What a loop has done: bytes written, calls on messages, messages given to the coders. */
  datatype Trace = Trace(wire: Bytes, events: seq<Event>, encoded: seq<Message>)

  const Nothing := Trace([], [], [])

  function Then(a: Trace, b: Trace): (r: Trace) {
    Trace(a.wire + b.wire, a.events + b.events, a.encoded + b.encoded)
  }

  lemma ThenAssociates(a: Trace, b: Trace, c: Trace)
    ensures Then(Then(a, b), c) == Then(a, Then(b, c))
  {
  }

  /** One turn of normalSendLoop: write and report the encoded message, or drop it. */
  function NormalTurn(coders: seq<Coder>, m: Message, reconnecting: bool): (r: Trace) {
    if reconnecting then Trace([], [Drop(m)], [])
    else Trace(Encode(coders, m).buffer, [Done(Encode(coders, m))], [m])
  }

  /** normalSendLoop over ms, with the value of reconnecting it reads at each. */
  function Normal(coders: seq<Coder>, ms: seq<Message>, reconnecting: seq<bool>): (r: Trace)
    requires |ms| == |reconnecting|
  {
    if ms == [] then Nothing
    else Then(NormalTurn(coders, ms[0], reconnecting[0]), Normal(coders, ms[1..], reconnecting[1..]))
  }

  lemma {:induction false} NormalConcat(
    coders: seq<Coder>, a: seq<Message>, f: seq<bool>, b: seq<Message>, g: seq<bool>)
    requires |a| == |f| && |b| == |g|
    ensures Normal(coders, a + b, f + g) == Then(Normal(coders, a, f), Normal(coders, b, g))
  {
    if a == [] {
      assert a + b == b && f + g == g;
    } else {
      assert (a + b)[1..] == a[1..] + b && (f + g)[1..] == f[1..] + g;
      NormalConcat(coders, a[1..], f[1..], b, g);
      ThenAssociates(NormalTurn(coders, a[0], f[0]), Normal(coders, a[1..], f[1..]), Normal(coders, b, g));
    }
  }

  /** The plain loop is connected throughout. */
  function Connected(n: nat): (r: seq<bool>) { seq(n, _ => false) }

  function Plain(coders: seq<Coder>, ms: seq<Message>): (r: Trace) { Normal(coders, ms, Connected(|ms|)) }

  lemma PlainNext(coders: seq<Coder>, ms: seq<Message>, m: Message)
    ensures Plain(coders, ms + [m]) == Then(Plain(coders, ms), NormalTurn(coders, m, false))
  {
    NormalConcat(coders, ms, Connected(|ms|), [m], Connected(1));
    assert Connected(|ms| + 1) == Connected(|ms|) + Connected(1);
    assert Plain(coders, [m]) == Then(NormalTurn(coders, m, false), Nothing);
    assert Then(NormalTurn(coders, m, false), Nothing) == NormalTurn(coders, m, false);
  }

  // ---------------------------------------------------- one turn of batching

  /** The local variables of a turn of batchSendLoop, and how many further messages it received. */
  datatype Batch = Batch(buffer: Bytes, cur: Message, log: Trace, used: nat)

  /** Encode a message, append it to the buffer and report it. */
  function Add(coders: seq<Coder>, b: Batch, m: Message): (r: Batch) {
    var e := Encode(coders, m);
    b.(buffer := b.buffer + e.buffer, cur := e,
       log := b.log.(events := b.log.events + [Done(e)], encoded := b.log.encoded + [m]))
  }

  /** The body of the inner loop, receiving m. */
  function Merge(coders: seq<Coder>, b: Batch, m: Message): (r: Batch) {
    var first := if |b.buffer| == 0 then Add(coders, b, b.cur) else b;
    Add(coders, first, m).(used := b.used + 1)
  }

  /** The inner loop while messages remain of those counted at its start. */
  function Inner(coders: seq<Coder>, size: int, b: Batch, rest: seq<Message>): (r: Batch)
    decreases |rest|
  {
    if rest == [] || |b.buffer| >= size then b else Inner(coders, size, Merge(coders, b, rest[0]), rest[1..])
  }

  /** After the inner loop: one write, of the single message or of the buffer. */
  function Flush(coders: seq<Coder>, b: Batch): (r: Trace) {
    if |b.buffer| == 0 then Add(coders, b, b.cur).log.(wire := Encode(coders, b.cur).buffer)
    else b.log.(wire := b.buffer)
  }

  function FirstOf(first: Message): (b: Batch) { Batch([], first, Nothing, 0) }

  /** A connected turn that received first and found rest already queued. */
  function Turn(coders: seq<Coder>, size: int, first: Message, rest: seq<Message>): (r: (Trace, nat)) {
    var b := Inner(coders, size, FirstOf(first), rest);
    (Flush(coders, b), b.used)
  }

  /** A batch of two or more whose first two messages both encode to nothing. */
  ghost predicate StartsEmpty(coders: seq<Coder>, size: int, first: Message, rest: seq<Message>) {
    size > 0 && rest != [] && Encode(coders, first).buffer == [] && Encode(coders, rest[0]).buffer == []
  }

  /** The batch so far is the plain loop's work on the messages of ms. */
  ghost predicate Good(coders: seq<Coder>, b: Batch, ms: seq<Message>) {
    && b.buffer == Plain(coders, ms).wire && b.buffer != []
    && b.log.events == Plain(coders, ms).events && b.log.encoded == ms == Plain(coders, ms).encoded
    && b.used + 1 == |ms| && b.log.wire == []
  }

  lemma GoodNext(coders: seq<Coder>, b: Batch, ms: seq<Message>, m: Message)
    requires Good(coders, b, ms)
    ensures Good(coders, Merge(coders, b, m), ms + [m])
  {
    PlainNext(coders, ms, m);
  }

  lemma {:induction false} InnerGood(coders: seq<Coder>, size: int, b: Batch, ms: seq<Message>, rest: seq<Message>)
    requires Good(coders, b, ms)
    ensures var r := Inner(coders, size, b, rest);
            b.used <= r.used <= b.used + |rest| && Good(coders, r, ms + rest[..r.used - b.used])
    decreases |rest|
  {
    if rest == [] || |b.buffer| >= size {
      assert ms + rest[..0] == ms;
    } else {
      GoodNext(coders, b, ms, rest[0]);
      InnerGood(coders, size, Merge(coders, b, rest[0]), ms + [rest[0]], rest[1..]);
      var n := Inner(coders, size, b, rest).used - b.used;
      assert rest[..n] == [rest[0]] + rest[1..][..n - 1];
      assert ms + rest[..n] == (ms + [rest[0]]) + rest[1..][..n - 1];
    }
  }

  lemma FirstTwo(coders: seq<Coder>, first: Message, m: Message)
    requires !(Encode(coders, first).buffer == [] && Encode(coders, m).buffer == [])
    ensures Good(coders, Merge(coders, FirstOf(first), m), [first, m])
  {
    PlainNext(coders, [], first);
    PlainNext(coders, [first], m);
    assert [] + [first] == [first] && [first] + [m] == [first, m];
  }

  lemma MergedTurn(coders: seq<Coder>, size: int, first: Message, rest: seq<Message>)
    requires size > 0 && rest != [] && !StartsEmpty(coders, size, first, rest)
    ensures var b := Inner(coders, size, FirstOf(first), rest);
            b.used <= |rest| && Good(coders, b, [first] + rest[..b.used])
  {
    var b := FirstOf(first);
    FirstTwo(coders, first, rest[0]);
    InnerGood(coders, size, Merge(coders, b, rest[0]), [first, rest[0]], rest[1..]);
    var n := Inner(coders, size, b, rest).used;
    assert rest[..n] == [rest[0]] + rest[1..][..n - 1];
    assert [first] + rest[..n] == [first, rest[0]] + rest[1..][..n - 1];
  }

  /** Unless a batch starts with two empty messages, a turn is the plain loop's work on the messages it received. */
  lemma TurnIsPlain(coders: seq<Coder>, size: int, first: Message, rest: seq<Message>)
    requires !StartsEmpty(coders, size, first, rest)
    ensures var (log, used) := Turn(coders, size, first, rest);
            used <= |rest| && log == Plain(coders, [first] + rest[..used])
  {
    if rest == [] || size <= 0 {
      PlainNext(coders, [], first);
      assert [] + [first] == [first] && [first] + rest[..0] == [first];
    } else {
      MergedTurn(coders, size, first, rest);
    }
  }

  /** More calls on messages than messages received, or about to be. */
  ghost predicate Twice(b: Batch) {
    |b.log.events| >= b.used + 2 || (|b.log.events| == b.used + 1 && b.buffer == [])
  }

  lemma {:induction false} InnerTwice(coders: seq<Coder>, size: int, b: Batch, rest: seq<Message>)
    requires Twice(b)
    ensures Twice(Inner(coders, size, b, rest))
    decreases |rest|
  {
    if rest != [] && |b.buffer| < size {
      InnerTwice(coders, size, Merge(coders, b, rest[0]), rest[1..]);
    }
  }

  /**
   A turn agrees with the plain loop exactly when its batch does not start with
   two messages that encode to nothing; in that case it encodes a message twice
   and reports it twice.
   */
  lemma TurnIsPlainIff(coders: seq<Coder>, size: int, first: Message, rest: seq<Message>)
    ensures var (log, used) := Turn(coders, size, first, rest);
            (used <= |rest| && log == Plain(coders, [first] + rest[..used])) <==>
            !StartsEmpty(coders, size, first, rest)
    ensures StartsEmpty(coders, size, first, rest) ==>
      |Turn(coders, size, first, rest).0.events| > Turn(coders, size, first, rest).1 + 1
  {
    if StartsEmpty(coders, size, first, rest) {
      var b := Merge(coders, FirstOf(first), rest[0]);
      assert Twice(b);
      InnerTwice(coders, size, b, rest[1..]);
      var (log, used) := Turn(coders, size, first, rest);
      if used <= |rest| { PlainCounts(coders, [first] + rest[..used]); }
    } else {
      TurnIsPlain(coders, size, first, rest);
    }
  }

  lemma {:induction false} PlainCounts(coders: seq<Coder>, ms: seq<Message>)
    ensures |Plain(coders, ms).events| == |ms| && Plain(coders, ms).encoded == ms
  {
    if ms != [] {
      var n := |ms| - 1;
      PlainCounts(coders, ms[..n]);
      PlainNext(coders, ms[..n], ms[n]);
      assert ms[..n] + [ms[n]] == ms;
    }
  }

  /** Before its last message was added, a batch of three or more was below SendBufferSize. */
  lemma BatchStaysSmall(coders: seq<Coder>, size: int, first: Message, rest: seq<Message>)
    requires !StartsEmpty(coders, size, first, rest)
    ensures var used := Turn(coders, size, first, rest).1;
            2 <= used <= |rest| ==> |Plain(coders, [first] + rest[..used - 1]).wire| < size
  {
    if rest != [] && size > 0 {
      FirstTwo(coders, first, rest[0]);
      InnerSmall(coders, size, Merge(coders, FirstOf(first), rest[0]), [first, rest[0]], rest[1..]);
      var n := Inner(coders, size, FirstOf(first), rest).used;
      if 2 <= n <= |rest| {
        assert rest[..n - 1] == [rest[0]] + rest[1..][..n - 2];
        assert [first] + rest[..n - 1] == [first, rest[0]] + rest[1..][..n - 2];
      }
    }
  }

  lemma {:induction false} InnerSmall(coders: seq<Coder>, size: int, b: Batch, ms: seq<Message>, rest: seq<Message>)
    requires Good(coders, b, ms)
    ensures var n := Inner(coders, size, b, rest).used - b.used;
            0 < n <= |rest| ==> |Plain(coders, ms + rest[..n - 1]).wire| < size
    decreases |rest|
  {
    if rest != [] && |b.buffer| < size {
      GoodNext(coders, b, ms, rest[0]);
      var b' := Merge(coders, b, rest[0]);
      InnerSmall(coders, size, b', ms + [rest[0]], rest[1..]);
      InnerGood(coders, size, b', ms + [rest[0]], rest[1..]);
      var n := Inner(coders, size, b, rest).used - b.used;
      if n == 1 {
        assert ms + rest[..0] == ms;
      } else if n <= |rest| {
        assert rest[..n - 1] == [rest[0]] + rest[1..][..n - 2];
        assert ms + rest[..n - 1] == (ms + [rest[0]]) + rest[1..][..n - 2];
      }
    }
  }

  // ----------------------------------------------------------- the two loops

  /** chSend: the queue, and what other goroutines have yet to push. */
  class SendChan {
    var items: seq<Message>
    var coming: seq<Message>

    /** Everything the loop has yet to receive, in order. */
    ghost function All(): (r: seq<Message>)
      reads this
    {
      items + coming
    }

    /** Any number of pushes may happen here. */
    method Arrive()
      modifies this
      ensures All() == old(All()) && |items| >= old(|items|)
    {
      var k: nat :| k <= |coming|;
      items, coming := items + coming[..k], coming[k..];
    }

    /** A receive that may have to wait for a push. */
    method Receive() returns (m: Message)
      requires All() != []
      modifies this
      ensures m == old(All())[0] && All() == old(All())[1..]
    {
      Arrive();
      if items == [] {
        items, coming := [coming[0]], coming[1..];
      }
      m := items[0];
      items := items[1..];
    }

    /** A receive that finds a message waiting: it does not block. */
    method ReceiveReady() returns (m: Message)
      requires items != []
      modifies this
      ensures m == old(All())[0] && All() == old(All())[1..] && |items| >= old(|items|) - 1
    {
      m := items[0];
      items := items[1..];
      Arrive();
    }
  }

  method AddTo(coders: seq<Coder>, b: Batch, m: Message) returns (r: Batch)
    ensures r == Add(coders, b, m)
  {
    var e := RunCoders(coders, m);
    r := b.(buffer := b.buffer + e.buffer, cur := e,
            log := b.log.(events := b.log.events + [Done(e)], encoded := b.log.encoded + [m]));
  }

  /**
   A connected turn of batchSendLoop, from the receive of first to its write.
   seen is how many messages len(chSend) reported; the inner receives find
   exactly those, whatever else arrives meanwhile, so none of them blocks.
   */
  method BatchTurn(ch: SendChan, coders: seq<Coder>, size: int, first: Message)
    returns (log: Trace, used: nat, seen: nat)
    modifies ch
    ensures used <= seen <= |old(ch.All())|
    ensures (log, used) == Turn(coders, size, first, old(ch.All())[..seen])
    ensures ch.All() == old(ch.All())[used..]
  {
    ghost var all := ch.All();
    ch.Arrive();
    seen := |ch.items|;
    ghost var rest := all[..seen];
    var b := FirstOf(first);
    assert rest[0..] == rest;
    while b.used < seen && |b.buffer| < size
      invariant b.used <= seen <= |all| && rest == all[..seen]
      invariant ch.All() == all[b.used..] && |ch.items| >= seen - b.used
      invariant Inner(coders, size, b, rest[b.used..]) == Inner(coders, size, FirstOf(first), rest)
      decreases seen - b.used
    {
      ghost var start := b;
      if |b.buffer| == 0 {
        b := AddTo(coders, b, b.cur);
      }
      var m := ch.ReceiveReady();
      b := AddTo(coders, b, m);
      b := b.(used := b.used + 1);
      assert b == Merge(coders, start, m) && m == rest[start.used..][0];
      assert rest[start.used..][1..] == rest[b.used..];
    }
    used := b.used;
    if |b.buffer| == 0 {
      var e := AddTo(coders, b, b.cur);
      log := e.log.(wire := e.cur.buffer);
    } else {
      log := b.log.(wire := b.buffer);
    }
  }

  /** No two messages in a row encode to nothing: true of all messages with a header. */
  ghost predicate NoTwoEmpty(coders: seq<Coder>, ms: seq<Message>) {
    forall i {:trigger EmptyPair(coders, ms, i)} :: 0 <= i < |ms| - 1 ==> !EmptyPair(coders, ms, i)
  }

  ghost predicate EmptyPair(coders: seq<Coder>, ms: seq<Message>, i: int)
    requires 0 <= i < |ms| - 1
  {
    Encode(coders, ms[i]).buffer == [] && Encode(coders, ms[i + 1]).buffer == []
  }

  lemma NormalNext(coders: seq<Coder>, all: seq<Message>, n: nat, f: seq<bool>, flag: bool)
    requires n == |f| < |all|
    ensures Normal(coders, all[..n + 1], f + [flag]) ==
            Then(Normal(coders, all[..n], f), NormalTurn(coders, all[n], flag))
  {
    assert all[..n + 1] == all[..n] + [all[n]];
    NormalConcat(coders, all[..n], f, [all[n]], [flag]);
    assert Normal(coders, [all[n]], [flag]) == Then(NormalTurn(coders, all[n], flag), Nothing);
    assert Then(NormalTurn(coders, all[n], flag), Nothing) == NormalTurn(coders, all[n], flag);
  }

  lemma NormalSlices(coders: seq<Coder>, all: seq<Message>, f: seq<bool>, g: seq<bool>)
    requires |f| + |g| <= |all|
    ensures Normal(coders, all[..|f| + |g|], f + g) ==
            Then(Normal(coders, all[..|f|], f), Normal(coders, all[|f|..][..|g|], g))
  {
    assert all[..|f| + |g|] == all[..|f|] + all[|f|..][..|g|];
    NormalConcat(coders, all[..|f|], f, all[|f|..][..|g|], g);
  }

  lemma NoTwoEmptyAfter(coders: seq<Coder>, all: seq<Message>, n: nat)
    requires NoTwoEmpty(coders, all) && n <= |all|
    ensures NoTwoEmpty(coders, all[n..])
  {
    forall i | 0 <= i < |all[n..]| - 1 ensures !EmptyPair(coders, all[n..], i) {
      assert !EmptyPair(coders, all, n + i);
    }
  }

  // ------------------------------------------------ what a caller can rely on

  /** Those of ms that were not dropped. */
  function NotDropped(ms: seq<Message>, dropped: seq<bool>): (r: seq<Message>)
    requires |ms| == |dropped|
  {
    if ms == [] then [] else (if dropped[0] then [] else [ms[0]]) + NotDropped(ms[1..], dropped[1..])
  }

  function Encodings(coders: seq<Coder>, ms: seq<Message>): (r: seq<Bytes>) {
    seq(|ms|, i requires 0 <= i < |ms| => Encode(coders, ms[i]).buffer)
  }

  /**
   What a loop did with the messages all it could receive: message i was dropped,
   or written and reported, as dropped[i] says, and the drained ones after them
   reported; each message once, in order, and the encodings of those sent make up
   the wire.
   */
  ghost predicate Accounts(
    coders: seq<Coder>, all: seq<Message>, dropped: seq<bool>, drained: seq<Message>, log: Trace)
  {
    var n := |dropped|;
    && n + |drained| <= |all| && drained == all[n..n + |drained|]
    && |log.events| == n + |drained|
    && (forall i :: 0 <= i < n ==> log.events[i] == if dropped[i] then Drop(all[i]) else Done(Encode(coders, all[i])))
    && Reports(drained, log.events[n..])
    && log.encoded == NotDropped(all[..n], dropped) && log.wire == Flatten(Encodings(coders, log.encoded))
  }

  lemma EncodingsCons(coders: seq<Coder>, m: Message, ms: seq<Message>)
    ensures Flatten(Encodings(coders, [m] + ms)) == Encode(coders, m).buffer + Flatten(Encodings(coders, ms))
  {
    assert Encodings(coders, [m] + ms) == [Encode(coders, m).buffer] + Encodings(coders, ms);
    FlattenCons(Encode(coders, m).buffer, Encodings(coders, ms));
  }

  lemma {:induction false} NormalEvents(coders: seq<Coder>, ms: seq<Message>, dropped: seq<bool>, i: nat)
    requires |ms| == |dropped|
    ensures |Normal(coders, ms, dropped).events| == |ms|
    ensures i < |ms| ==> Normal(coders, ms, dropped).events[i] ==
                         if dropped[i] then Drop(ms[i]) else Done(Encode(coders, ms[i]))
  {
    if ms != [] { NormalEvents(coders, ms[1..], dropped[1..], if i == 0 then 0 else i - 1); }
  }

  lemma {:induction false} NormalWire(coders: seq<Coder>, ms: seq<Message>, dropped: seq<bool>)
    requires |ms| == |dropped|
    ensures Normal(coders, ms, dropped).encoded == NotDropped(ms, dropped)
    ensures Normal(coders, ms, dropped).wire == Flatten(Encodings(coders, NotDropped(ms, dropped)))
  {
    if ms != [] {
      NormalWire(coders, ms[1..], dropped[1..]);
      var rest := NotDropped(ms[1..], dropped[1..]);
      if dropped[0] {
        assert [] + rest == rest;
      } else {
        EncodingsCons(coders, ms[0], rest);
      }
    }
  }

  /** The plain loop accounts for every message. */
  lemma NormalAccounts(coders: seq<Coder>, ms: seq<Message>, dropped: seq<bool>)
    requires |ms| == |dropped|
    ensures Accounts(coders, ms, dropped, [], Normal(coders, ms, dropped))
  {
    assert ms[..|ms|] == ms;
    forall i: nat ensures |Normal(coders, ms, dropped).events| == |ms|
      ensures i < |ms| ==> Normal(coders, ms, dropped).events[i] ==
                           if dropped[i] then Drop(ms[i]) else Done(Encode(coders, ms[i]))
    {
      NormalEvents(coders, ms, dropped, i);
    }
    NormalWire(coders, ms, dropped);
  }

  /** OnMessageDone was called for each of the messages, in order. */
  predicate Reports(drained: seq<Message>, events: seq<Event>) {
    |events| == |drained| && forall i :: 0 <= i < |drained| ==> events[i] == Done(drained[i])
  }

  /** The calls end with those reports. */
  predicate EndsWith(log: Trace, drained: seq<Message>) {
    |drained| <= |log.events| && Reports(drained, log.events[|log.events| - |drained|..])
  }

  lemma EndsWithReports(log: Trace, drained: seq<Message>, events: seq<Event>)
    requires Reports(drained, events)
    ensures EndsWith(log.(events := log.events + events), drained)
  {
    assert (log.events + events)[|log.events|..] == events;
  }

  /** Reporting what was drained completes the account. */
  lemma DrainedAccounts(
    coders: seq<Coder>, all: seq<Message>, dropped: seq<bool>, drained: seq<Message>, log: Trace, events: seq<Event>)
    requires |dropped| + |drained| <= |all| && drained == all[|dropped|..|dropped| + |drained|]
    requires log == Normal(coders, all[..|dropped|], dropped)
    requires Reports(drained, events)
    ensures Accounts(coders, all, dropped, drained, log.(events := log.events + events))
  {
    NormalAccounts(coders, all[..|dropped|], dropped);
    assert all[..|dropped|][..|dropped|] == all[..|dropped|];
  }

  /** After chClose: every message still queued is reported, unsent. */
  method Drain(ch: SendChan) returns (drained: seq<Message>, events: seq<Event>)
    modifies ch
    ensures |drained| <= |old(ch.All())| && drained == old(ch.All())[..|drained|]
    ensures ch.All() == old(ch.All())[|drained|..] && ch.items == []
    ensures Reports(drained, events)
  {
    drained, events := [], [];
    ghost var all := ch.All();
    while ch.items != []
      invariant |drained| <= |all| && drained == all[..|drained|] && ch.All() == all[|drained|..]
      invariant Reports(drained, events)
      decreases |ch.All()|
    {
      var m := ch.ReceiveReady();
      drained, events := drained + [m], events + [Done(m)];
    }
  }

  /**
   normalSendLoop, until it sees chClose or nothing more ever comes.
   reconnecting(i) is what it reads in c.reconnecting at message i; dropped says
   what it did, and drained is what it found in the queue after chClose.
   */
  method NormalSendLoop(ch: SendChan, coders: seq<Coder>, reconnecting: nat -> bool)
    returns (log: Trace, dropped: seq<bool>, drained: seq<Message>, closed: bool)
    modifies ch
    ensures Accounts(coders, old(ch.All()), dropped, drained, log)
    ensures forall i :: 0 <= i < |dropped| ==> dropped[i] == reconnecting(i)
    ensures closed ==> ch.items == []
    ensures !closed ==> |dropped| == |old(ch.All())|
  {
    ghost var all := ch.All();
    log, dropped, drained := Nothing, [], [];
    var events: seq<Event> := [];
    closed := *;
    while ch.items + ch.coming != [] && !closed
      invariant |dropped| <= |all| && ch.All() == all[|dropped|..]
      invariant log == Normal(coders, all[..|dropped|], dropped)
      invariant forall i :: 0 <= i < |dropped| ==> dropped[i] == reconnecting(i)
      decreases |ch.All()|
    {
      var m := ch.Receive();
      NormalNext(coders, all, |dropped|, dropped, reconnecting(|dropped|));
      if reconnecting(|dropped|) {
        log := log.(events := log.events + [Drop(m)]);
      } else {
        var e := RunCoders(coders, m);
        log := Trace(log.wire + e.buffer, log.events + [Done(e)], log.encoded + [m]);
      }
      dropped := dropped + [reconnecting(|dropped|)];
      closed := *;
    }
    if closed {
      drained, events := Drain(ch);
    }
    DrainedAccounts(coders, all, dropped, drained, log, events);
    log := log.(events := log.events + events);
  }

  /** A turn drops its one message if it read reconnecting, and else drops nothing. */
  predicate Read(reconnecting: bool, flags: seq<bool>) {
    && flags != [] && (reconnecting ==> flags == [true])
    && (!reconnecting ==> forall i :: 0 <= i < |flags| ==> !flags[i])
  }

  /** One turn of batchSendLoop: a message dropped, or a batch written. */
  method BatchIteration(ch: SendChan, coders: seq<Coder>, size: int, reconnecting: bool)
    returns (turn: Trace, flags: seq<bool>)
    requires ch.All() != []
    modifies ch
    ensures 0 < |flags| <= |old(ch.All())| && ch.All() == old(ch.All())[|flags|..]
    ensures NoTwoEmpty(coders, old(ch.All())) ==> turn == Normal(coders, old(ch.All())[..|flags|], flags)
    ensures Read(reconnecting, flags)
  {
    ghost var all := ch.All();
    var first := ch.Receive();
    if reconnecting {
      turn, flags := Trace([], [Drop(first)], []), [true];
      assert turn == Then(turn, Nothing) && all[..1] == [first];
    } else {
      var used, seen;
      turn, used, seen := BatchTurn(ch, coders, size, first);
      flags := Connected(1 + used);
      PlainTurn(coders, size, all, seen, used, turn);
      Slices(all, 1, used);
    }
  }

  /** A turn on the messages in front of the queue is the plain loop's work on those it took. */
  lemma PlainTurn(coders: seq<Coder>, size: int, all: seq<Message>, seen: nat, used: nat, turn: Trace)
    requires used <= seen < |all| && (turn, used) == Turn(coders, size, all[0], all[1..][..seen])
    ensures NoTwoEmpty(coders, all) ==> turn == Plain(coders, all[..1 + used])
  {
    assert [all[0]] + all[1..][..seen][..used] == all[..1 + used];
    if NoTwoEmpty(coders, all) {
      if seen > 0 { assert !EmptyPair(coders, all, 0); }
      TurnIsPlain(coders, size, all[0], all[1..][..seen]);
    }
  }

  /** Some turn that could include message i began connected. */
  ghost predicate TurnConnected(reconnecting: nat -> bool, i: nat) { exists j: nat :: j <= i && !reconnecting(j) }

  ghost predicate ObeysAt(reconnecting: nat -> bool, dropped: seq<bool>, i: nat)
    requires i < |dropped|
  {
    if dropped[i] then reconnecting(i) else TurnConnected(reconnecting, i)
  }

  /** A message is dropped only when the loop reconnects there, and sent only in a turn that began connected. */
  ghost predicate Obeys(reconnecting: nat -> bool, dropped: seq<bool>) {
    forall i: nat {:trigger ObeysAt(reconnecting, dropped, i)} :: i < |dropped| ==> ObeysAt(reconnecting, dropped, i)
  }

  lemma ObeysNext(reconnecting: nat -> bool, f: seq<bool>, g: seq<bool>)
    requires Obeys(reconnecting, f) && Read(reconnecting(|f|), g)
    ensures Obeys(reconnecting, f + g)
  {
    forall i: nat | i < |f + g| ensures ObeysAt(reconnecting, f + g, i) {
      if i < |f| {
        assert ObeysAt(reconnecting, f, i);
      } else if !reconnecting(|f|) {
        assert TurnConnected(reconnecting, i);
      }
    }
  }

  lemma Slices<T>(s: seq<T>, m: nat, n: nat)
    requires m + n <= |s|
    ensures s[m..][n..] == s[m + n..]
  {
  }

  /** After some turns: what was done is the plain loop's work, and the reads were obeyed. */
  ghost predicate Turned(
    coders: seq<Coder>, all: seq<Message>, reconnecting: nat -> bool, dropped: seq<bool>, log: Trace)
  {
    && |dropped| <= |all| && Obeys(reconnecting, dropped)
    && (NoTwoEmpty(coders, all) ==> log == Normal(coders, all[..|dropped|], dropped))
  }

  lemma TurnedNext(coders: seq<Coder>, all: seq<Message>, reconnecting: nat -> bool,
                   f: seq<bool>, log: Trace, g: seq<bool>, turn: Trace)
    requires Turned(coders, all, reconnecting, f, log) && |f| + |g| <= |all| && Read(reconnecting(|f|), g)
    requires NoTwoEmpty(coders, all[|f|..]) ==> turn == Normal(coders, all[|f|..][..|g|], g)
    ensures Turned(coders, all, reconnecting, f + g, Then(log, turn))
  {
    ObeysNext(reconnecting, f, g);
    if NoTwoEmpty(coders, all) {
      NoTwoEmptyAfter(coders, all, |f|);
      NormalSlices(coders, all, f, g);
    }
  }

  /** The turns of batchSendLoop up to chClose, or until nothing more comes. */
  method BatchTurns(ch: SendChan, coders: seq<Coder>, size: int, reconnecting: nat -> bool)
    returns (log: Trace, dropped: seq<bool>, closed: bool)
    modifies ch
    ensures Turned(coders, old(ch.All()), reconnecting, dropped, log)
    ensures ch.All() == old(ch.All())[|dropped|..] && (!closed ==> ch.All() == [])
  {
    ghost var all := ch.All();
    log, dropped := Nothing, [];
    closed := *;
    while ch.items + ch.coming != [] && !closed
      invariant Turned(coders, all, reconnecting, dropped, log) && ch.All() == all[|dropped|..]
      decreases |ch.All()|
    {
      var turn, flags := BatchIteration(ch, coders, size, reconnecting(|dropped|));
      TurnedNext(coders, all, reconnecting, dropped, log, flags, turn);
      Slices(all, |dropped|, |flags|);
      log, dropped := Then(log, turn), dropped + flags;
      closed := *;
    }
  }

  /**
   batchSendLoop refines normalSendLoop: for every arrival pattern and every
   sequence of reconnects it accounts for the messages like a run of
   normalSendLoop on the same queue.
   */
  method BatchSendLoop(ch: SendChan, coders: seq<Coder>, size: int, reconnecting: nat -> bool)
    returns (log: Trace, dropped: seq<bool>, drained: seq<Message>, closed: bool)
    modifies ch
    ensures NoTwoEmpty(coders, old(ch.All())) ==> Accounts(coders, old(ch.All()), dropped, drained, log)
    ensures |dropped| + |drained| <= |old(ch.All())|
    ensures drained == old(ch.All())[|dropped|..|dropped| + |drained|] && EndsWith(log, drained)
    ensures Obeys(reconnecting, dropped) && (closed ==> ch.items == []) && (!closed ==> |dropped| == |old(ch.All())|)
  {
    ghost var all := ch.All();
    log, dropped, closed := BatchTurns(ch, coders, size, reconnecting);
    var events: seq<Event> := [];
    drained := [];
    if closed {
      drained, events := Drain(ch);
    }
    EndsWithReports(log, drained, events);
    BatchAccounts(coders, all, reconnecting, dropped, drained, log, events);
    log := log.(events := log.events + events);
  }

  lemma BatchAccounts(coders: seq<Coder>, all: seq<Message>, reconnecting: nat -> bool, dropped: seq<bool>,
                      drained: seq<Message>, log: Trace, events: seq<Event>)
    requires Turned(coders, all, reconnecting, dropped, log) && Reports(drained, events)
    requires |drained| <= |all[|dropped|..]| && drained == all[|dropped|..][..|drained|]
    ensures |dropped| + |drained| <= |all| && drained == all[|dropped|..|dropped| + |drained|]
    ensures NoTwoEmpty(coders, all) ==> Accounts(coders, all, dropped, drained, log.(events := log.events + events))
  {
    if NoTwoEmpty(coders, all) { DrainedAccounts(coders, all, dropped, drained, log, events); }
  }
}
