/**
 singleflight.go over real objects: a group, its calls, their done channels and
 the async subscriptions. Each method is the body of the Go function of the
 same name and is proved to act on the group exactly as the critical sections
 of SfModel.Core.
 */
module SfGroup {
  import opened Prelude
  import opened SharedResult
  import opened SfModel

  /** A close-only channel. */
  class DoneChan {
    var closed: bool

    constructor ()
      ensures !closed
    {
      closed := false;
    }
  }

  /** sfAsyncSub; runs counts the calls of handler. */
  class AsyncSub {
    var fired: bool
    var timerStopped: bool
    var runs: nat

    ghost predicate Valid() reads this { runs == (if fired then 1 else 0) }

    constructor ()
      ensures Valid() && !fired && runs == 0
    {
      fired, timerStopped, runs := false, false, 0;
    }

    /** Whoever calls it, and however often, the handler runs once. */
    method Run()
      requires Valid()
      modifies this
      ensures Valid() && fired && runs == 1
      ensures Fire(Sub(old(fired), old(runs), Registered)) == Sub(fired, runs, Registered)
      ensures !old(fired) ==> timerStopped
    {
      if !fired {
        fired := true;
        timerStopped := true;
        runs := runs + 1;
      }
    }
  }

  class SfCall {
    var done: Option<DoneChan>
    var data: Bytes
    var result: Option<GoValue>
    var err: Option<string>
    var finished: bool
    var subs: seq<AsyncSub>
    var refs: int

    ghost function Value(): (c: Call<DoneChan, AsyncSub>)
      reads this
    {
      Call(done, Outcome(data, result, err), finished, subs, refs)
    }

    constructor ()
      ensures Value() == Blank()
    {
      done, data, result, err, finished, subs, refs := None, [], None, None, false, [], 0;
    }

    method Clear()
      modifies this
      ensures Value() == Blank()
    {
      done, data, result, err, finished, subs, refs := None, [], None, None, false, [], 0;
    }
  }

  class Group {
    var calls: map<SfKey, SfCall>
    var pool: seq<SfCall>
    ghost var objects: set<SfCall>

    ghost predicate Valid()
      reads this
    {
      && (forall k :: k in calls ==> calls[k] in objects)
      && (forall i :: 0 <= i < |pool| ==> pool[i] in objects)
    }

    ghost function View(): (g: Core<SfCall, DoneChan, AsyncSub>)
      reads this, objects
    {
      Core(calls, map c | c in objects :: c.Value(), multiset(pool))
    }

    /** Only call changed since then. */
    twostate lemma OneChanged(call: SfCall)
      requires call in objects && objects == old(objects)
      requires forall c :: c in objects && c != call ==> c.Value() == old(c.Value())
      ensures View().mem == old(View()).mem[call := call.Value()]
    {
    }

    constructor ()
      ensures Valid() && View() == Core(map[], map[], multiset{})
    {
      calls, pool, objects := map[], [], {};
    }

    /** sync.Pool.New: a blank call. */
    method MakeCall() returns (call: SfCall)
      requires Valid()
      modifies this`objects
      ensures Valid() && fresh(call) && objects == old(objects) + {call}
      ensures View().mem == old(View()).mem[call := Blank()]
    {
      call := new SfCall();
      objects := objects + {call};
      OneAdded(call);
    }

    twostate lemma OneAdded(new call: SfCall)
      requires fresh(call) && objects == old(objects) + {call} && call.Value() == Blank()
      requires forall c :: c in old(objects) ==> c.Value() == old(c.Value())
      ensures View().mem == old(View()).mem[call := Blank()]
    {
    }

    /** singleflightCallPool.Get: any pooled call, or a new one. */
    method PoolGet() returns (call: SfCall)
      requires Valid()
      modifies this`pool, this`objects
      ensures Valid() && objects == old(objects) + {call}
      ensures call !in old(objects) ==> fresh(call)
      ensures call in old(objects) ==> call in old(pool)
      ensures multiset(pool) == multiset(old(pool)) - multiset{call}
      ensures View().mem == if call in old(objects) then old(View()).mem else old(View()).mem[call := Blank()]
    {
      var reuse: bool := *;
      if |pool| > 0 && reuse {
        var i: nat :| i < |pool|;
        call := pool[i];
        WithoutCounts(pool, i);
        pool := Without(pool, i);
      } else {
        call := MakeCall();
        assert call !in pool;
      }
    }

    /** acquire, the entry exists. */
    method Join(k: SfKey) returns (call: SfCall)
      requires Valid() && k in calls
      modifies calls[k]
      ensures Valid() && call == calls[k] && View() == old(View()).Join(k)
    {
      ghost var before := View();
      call := calls[k];
      call.refs := call.refs + 1;
      assert View().mem == before.mem[call := call.Value()];
    }

    /** acquire, no entry: install call, which PoolGet took out of the pool. */
    method Open(k: SfKey, call: SfCall)
      requires Valid() && call in objects
      modifies this`calls, call
      ensures Valid()
      ensures !k.async ==> call.done.Some? && fresh(call.done.value) && !call.done.value.closed
      ensures View() == old(View()).Open(k, call, call.done).(pool := old(View()).pool)
    {
      call.refs := 1;
      if !k.async {
        var made := new DoneChan();
        call.done := Some(made);
      }
      calls := calls[k := call];
      OneChanged(call);
    }

    /** The leader is the caller that finds no entry; every other caller gets the leader's call. */
    method Acquire(k: SfKey) returns (call: SfCall, leader: bool)
      requires Valid()
      modifies this, objects
      ensures Valid() && objects == old(objects) + {call}
      ensures leader <==> k !in old(calls)
      ensures !leader ==> call == old(calls[k]) && View() == old(View()).Join(k)
      ensures leader && !k.async ==> call.done.Some? && fresh(call.done.value) && !call.done.value.closed
      ensures leader ==> call in old(pool) || call !in old(objects)
      ensures leader ==> View() == old(View()).OpenTaken(k, call, call.done)
    {
      leader := k !in calls;
      if leader {
        call := PoolGet();
        Open(k, call);
      } else {
        call := Join(k);
      }
    }

    /** releaseCall, the last reference: reset the call and pool it. */
    method Recycle(call: SfCall)
      requires Valid() && call in objects
      modifies this`pool, call
      ensures Valid() && View() == old(View()).Reset(call).Put(call)
    {
      ghost var before := View();
      call.Clear();
      pool := pool + [call];
      assert View().mem == before.mem[call := Blank()];
    }

    /** Drops one reference; the last one resets the call and puts it in the pool. */
    method ReleaseCall(call: SfCall)
      requires Valid() && call in objects
      modifies this`pool, call
      ensures Valid()
      ensures View() == if old(call.refs) - 1 != 0 then old(View()).DropRef(call)
                        else old(View()).DropRef(call).Reset(call).Put(call)
    {
      ghost var before := View();
      call.refs := call.refs - 1;
      assert View().mem == before.mem[call := call.Value()];
      if call.refs == 0 {
        Recycle(call);
      }
    }

    /** finish: the fields a follower reads after done is closed. */
    method Write(call: SfCall, data: Bytes, result: Option<GoValue>, err: Option<string>)
      requires Valid() && call in objects
      modifies call
      ensures Valid() && View() == old(View()).Write(call, Outcome(data, result, err)) && call.done == old(call.done)
    {
      ghost var before := View();
      call.data := data;
      call.result := result;
      call.err := err;
      assert View().mem == before.mem[call := call.Value()];
    }

    method Release(k: SfKey, call: SfCall)
      requires Valid() && call in objects
      modifies this`calls
      ensures Valid() && View() == old(View()).Remove(k, call)
    {
      if k in calls && calls[k] == call {
        calls := calls - {k};
      }
    }

    /** Publishes a blocking leader's outcome: the fields, then the entry, then the wake-up. */
    method Finish(k: SfKey, call: SfCall, data: Bytes, result: Option<GoValue>, err: Option<string>)
      requires Valid() && call in objects
      requires call.done.Some? && !call.done.value.closed
      modifies this, call, call.done.value
      ensures Valid() && objects == old(objects)
      ensures View() == old(View()).Write(call, Outcome(data, result, err)).Remove(k, call)
      ensures call.done == old(call.done) && call.done.value.closed
    {
      Write(call, data, result, err);
      Release(k, call);
      call.done.value.closed := true;
    }

    method AddSub(call: SfCall, sub: AsyncSub) returns (ok: bool)
      requires Valid() && call in objects
      modifies call
      ensures Valid() && (View(), ok) == old(View()).AddSub(call, sub)
    {
      ghost var before := View();
      if call.finished {
        ok := false;
        return;
      }
      call.subs := call.subs + [sub];
      assert View().mem == before.mem[call := call.Value()];
      ok := true;
    }

    method FinishAsync(k: SfKey, call: SfCall) returns (subs: seq<AsyncSub>)
      requires Valid() && call in objects
      modifies this, call
      ensures Valid() && objects == old(objects)
      ensures View() == old(View()).Capture(k, call) && subs == old(call.subs)
    {
      ghost var before := View();
      call.finished := true;
      subs := call.subs;
      call.subs := [];
      assert View().mem == before.mem[call := call.Value()];
      if k in calls && calls[k] == call {
        calls := calls - {k};
      }
    }
  }
}
