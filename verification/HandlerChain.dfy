/**
 Context.Next and Context.Abort (context.go) over a chain of handlers wrapped as
 Use and handle wrap them (handler.go): a body may call Next and Abort any
 number of times, and the wrapper calls Next after it.
 */
module HandlerChain {

  /** math.MaxInt, where Abort puts the index; no slice is longer. */
  const MAX_INT: nat := 0x7FFF_FFFF_FFFF_FFFF

  datatype Act = CallNext | CallAbort

  /** What one handler body does with its Context, in order. */
  type Body = seq<Act>

  datatype Event = Enter(i: nat) | Aborted

  type Chain = hs: seq<Body> | |hs| <= MAX_INT

  function Left(hs: Chain, index: nat): (n: nat) { if index < |hs| then |hs| - index else 0 }

  /** Next: the index it leaves and what happened. */
  function RunNext(hs: Chain, index: nat): (r: (nat, seq<Event>))
    ensures Left(hs, r.0) <= Left(hs, index)
    decreases Left(hs, index), 0
  {
    if index < |hs| then
      var b := RunActs(hs, hs[index] + [CallNext], index + 1);
      (b.0, [Enter(index)] + b.1)
    else (index, [])
  }

  function RunActs(hs: Chain, acts: seq<Act>, index: nat): (r: (nat, seq<Event>))
    ensures Left(hs, r.0) <= Left(hs, index)
    decreases Left(hs, index), |acts| + 1
  {
    if acts == [] then (index, [])
    else
      var now := if acts[0] == CallNext then RunNext(hs, index) else (MAX_INT, [Aborted]);
      var rest := RunActs(hs, acts[1..], now.0);
      (rest.0, now.1 + rest.1)
  }

  function Entered(es: seq<Event>): (r: seq<nat>) {
    if es == [] then [] else (if es[0].Enter? then [es[0].i] else []) + Entered(es[1..])
  }

  lemma {:induction false} EnteredOfConcat(a: seq<Event>, b: seq<Event>)
    ensures Entered(a + b) == Entered(a) + Entered(b)
  {
    if a == [] {
      assert a + b == b;
    } else {
      assert (a + b)[1..] == a[1..] + b;
      EnteredOfConcat(a[1..], b);
      assert (if a[0].Enter? then [a[0].i] else []) + (Entered(a[1..]) + Entered(b)) ==
             ((if a[0].Enter? then [a[0].i] else []) + Entered(a[1..])) + Entered(b);
    }
  }

  /** A body that aborts before it calls Next. */
  predicate StopsChain(b: Body) { b != [] && b[0] == CallAbort }

  /** One past the last handler entered from index on: the first that stops the chain, or all. */
  function Reach(hs: Chain, index: nat): (k: nat)
    ensures index <= |hs| ==> index <= k <= |hs|
    decreases Left(hs, index)
  {
    if index >= |hs| then |hs| else if StopsChain(hs[index]) then index + 1 else Reach(hs, index + 1)
  }

  function Range(a: nat, b: nat): (r: seq<nat>)
    requires a <= b
  {
    seq(b - a, i => a + i)
  }

  /** Past the end, or after Abort, nothing is entered any more. */
  lemma {:induction false} NothingPastTheEnd(hs: Chain, acts: seq<Act>, index: nat)
    requires index >= |hs|
    ensures Entered(RunActs(hs, acts, index).1) == [] && RunActs(hs, acts, index).0 >= |hs|
    decreases |acts|
  {
    if acts != [] {
      var now := if acts[0] == CallNext then RunNext(hs, index) else (MAX_INT, [Aborted]);
      NothingPastTheEnd(hs, acts[1..], now.0);
      EnteredOfConcat(now.1, RunActs(hs, acts[1..], now.0).1);
      assert Entered(now.1) == [] by { assert now.1 != [] ==> now.1[1..] == []; }
    }
  }

  /** Next enters the handlers in order, without repeats, up to the first that stops the chain, and is then done. */
  lemma {:induction false} NextEntersInOrder(hs: Chain, index: nat)
    requires index <= |hs|
    ensures Entered(RunNext(hs, index).1) == Range(index, Reach(hs, index))
    ensures RunNext(hs, index).0 >= |hs|
    decreases Left(hs, index)
  {
    if index < |hs| {
      var acts := hs[index] + [CallNext];
      var b := RunActs(hs, acts, index + 1);
      assert ([Enter(index)] + b.1)[1..] == b.1;
      var now := if acts[0] == CallNext then RunNext(hs, index + 1) else (MAX_INT, [Aborted]);
      if acts[0] == CallNext {
        NextEntersInOrder(hs, index + 1);
        assert Range(index, Reach(hs, index)) == [index] + Range(index + 1, Reach(hs, index + 1));
      } else {
        assert Range(index, Reach(hs, index)) == [index];
        assert now.1[1..] == [];
      }
      NothingPastTheEnd(hs, acts[1..], now.0);
      EnteredOfConcat(now.1, RunActs(hs, acts[1..], now.0).1);
    }
  }

  /** The whole chain: entries are 0, 1, 2, ... */
  lemma ChainEntersAPrefix(hs: Chain)
    ensures Entered(RunNext(hs, 0).1) == Range(0, Reach(hs, 0))
  {
    NextEntersInOrder(hs, 0);
  }

  /** All are entered exactly if no body before the last aborts before it calls Next. */
  lemma {:induction false} AllEnteredIff(hs: Chain, index: nat)
    requires index <= |hs|
    ensures Reach(hs, index) == |hs| <==> forall i :: index <= i < |hs| - 1 ==> !StopsChain(hs[i])
    decreases Left(hs, index)
  {
    if index < |hs| {
      AllEnteredIff(hs, index + 1);
    }
  }

  /** No handler is entered after an Abort. */
  ghost predicate QuietAfterAbort(es: seq<Event>) {
    forall i, j :: 0 <= i < j < |es| && es[i] == Aborted ==> !es[j].Enter?
  }

  lemma {:induction false} AbortEndsActs(hs: Chain, acts: seq<Act>, index: nat)
    ensures QuietAfterAbort(RunActs(hs, acts, index).1)
    ensures index >= |hs| || Aborted in RunActs(hs, acts, index).1 ==> RunActs(hs, acts, index).0 >= |hs|
    ensures index >= |hs| ==>
              forall i :: 0 <= i < |RunActs(hs, acts, index).1| ==> !RunActs(hs, acts, index).1[i].Enter?
    decreases Left(hs, index), |acts| + 1
  {
    if acts != [] {
      var now := if acts[0] == CallNext then RunNext(hs, index) else (MAX_INT, [Aborted]);
      if acts[0] == CallNext {
        AbortEndsNext(hs, index);
      }
      AbortEndsActs(hs, acts[1..], now.0);
    }
  }

  lemma {:induction false} AbortEndsNext(hs: Chain, index: nat)
    ensures QuietAfterAbort(RunNext(hs, index).1)
    ensures index >= |hs| || Aborted in RunNext(hs, index).1 ==> RunNext(hs, index).0 >= |hs|
    ensures index >= |hs| ==> RunNext(hs, index).1 == []
    decreases Left(hs, index), 0
  {
    if index < |hs| {
      AbortEndsActs(hs, hs[index] + [CallNext], index + 1);
    }
  }

  /** A Context: index, handlers, and what happened. */
  class Context {
    const handlers: Chain
    var index: nat
    ghost var trace: seq<Event>

    constructor (handlers: Chain)
      ensures this.handlers == handlers && index == 0 && trace == []
    {
      this.handlers := handlers;
      index, trace := 0, [];
    }

    method Abort()
      modifies this
      ensures index == MAX_INT && trace == old(trace) + [Aborted]
    {
      index := MAX_INT;
      trace := trace + [Aborted];
    }

    method Next()
      modifies this
      ensures index == RunNext(handlers, old(index)).0 && trace == old(trace) + RunNext(handlers, old(index)).1
      decreases Left(handlers, index), 0
    {
      var i := index;
      if i < |handlers| {
        index := index + 1;
        trace := trace + [Enter(i)];
        Handler(handlers[i] + [CallNext]);
        assert trace == old(trace) + ([Enter(i)] + RunActs(handlers, handlers[i] + [CallNext], i + 1).1);
      }
    }

    /** One handler's body, then the wrapper's own call. */
    method Handler(acts: seq<Act>)
      modifies this
      ensures index == RunActs(handlers, acts, old(index)).0
      ensures trace == old(trace) + RunActs(handlers, acts, old(index)).1
      decreases Left(handlers, index), |acts| + 1
    {
      if acts != [] {
        if acts[0] == CallNext {
          Next();
        } else {
          Abort();
        }
        ghost var mid := index;
        Handler(acts[1..]);
        ghost var now := if acts[0] == CallNext then RunNext(handlers, old(index)) else (MAX_INT, [Aborted]);
        assert trace == old(trace) + (now.1 + RunActs(handlers, acts[1..], mid).1);
      }
    }
  }
}
