/**
 The pending-call tables over real objects (client.go, addSession to
 clearAsyncHandler and dropMessage; handler.go, getAsyncHandler and
 putAsyncHandler). The async methods are proved to be the critical sections of
 AsyncCallsModel.Table; the session methods state what Sessions assumes.
 */
module PendingTables {
  import opened Prelude
  import opened AsyncCallsModel

  class AsyncHandler {
    var timer: Option<Call>
    var handler: Option<Call>

    ghost function Value(): (h: Handler)
      reads this
    {
      Handler(timer, handler)
    }

    constructor ()
      ensures Value() == Empty
    {
      timer, handler := None, None;
    }
  }

  /** rpcSession; closes counts the close calls on done. */
  class RpcSession {
    const key: nat
    var closes: nat

    constructor (q: nat)
      ensures key == q && closes == 0
    {
      key, closes := q, 0;
    }
  }

  class Pending {
    var sessionMap: map<nat, RpcSession>
    var asyncMap: map<Call, AsyncHandler>
    var pool: seq<AsyncHandler>
    var running: bool
    ghost var objects: set<AsyncHandler>

    ghost predicate Valid()
      reads this, sessionMap.Values
    {
      && (forall q :: q in asyncMap ==> asyncMap[q] in objects)
      && (forall i :: 0 <= i < |pool| ==> pool[i] in objects)
      && (forall q :: q in sessionMap ==> sessionMap[q].key == q && sessionMap[q].closes == 0)
    }

    ghost function View(): (t: Table<AsyncHandler>)
      reads this, objects
    {
      Table(asyncMap, map a | a in objects :: a.Value(), multiset(pool), running)
    }

    twostate lemma OneChanged(a: AsyncHandler)
      requires a in objects && objects == old(objects)
      requires forall b :: b in objects && b != a ==> b.Value() == old(b.Value())
      ensures View().objs == old(View()).objs[a := a.Value()]
    {
    }

    constructor ()
      ensures Valid() && View() == Table(map[], map[], multiset{}, true) && sessionMap == map[]
    {
      sessionMap, asyncMap, pool, running, objects := map[], map[], [], true, {};
    }

    // ------------------------------------------------------------ CallAsync

    /** asyncHandlerPool.New. */
    method Make() returns (a: AsyncHandler)
      requires Valid()
      modifies this`objects
      ensures Valid() && fresh(a) && objects == old(objects) + {a}
      ensures View().objs == old(View()).objs[a := Empty]
    {
      a := new AsyncHandler();
      objects := objects + {a};
      OneAdded(a);
    }

    twostate lemma OneAdded(new a: AsyncHandler)
      requires fresh(a) && objects == old(objects) + {a} && a.Value() == Empty
      requires forall b :: b in old(objects) ==> b.Value() == old(b.Value())
      ensures View().objs == old(View()).objs[a := Empty]
    {
    }

    /** asyncHandlerPool.Get: any pooled object, or a new one. */
    method PoolGet() returns (a: AsyncHandler)
      requires Valid()
      modifies this`pool, this`objects
      ensures Valid() && objects == old(objects) + {a}
      ensures a !in old(objects) ==> fresh(a)
      ensures a in old(objects) ==> a in old(pool)
      ensures multiset(pool) == multiset(old(pool)) - multiset{a}
      ensures View().objs == if a in old(objects) then old(View()).objs else old(View()).objs[a := Empty]
    {
      var reuse: bool := *;
      if |pool| > 0 && reuse {
        var i: nat :| i < |pool|;
        a := pool[i];
        WithoutCounts(pool, i);
        pool := Without(pool, i);
      } else {
        a := Make();
        assert a !in pool;
      }
    }

    method Fill(a: AsyncHandler, q: Call)
      requires Valid() && a in objects
      modifies a
      ensures Valid() && View() == old(View()).(objs := old(View()).objs[a := Handler(Some(q), Some(q))])
    {
      a.timer := Some(q);
      a.handler := Some(q);
      OneChanged(a);
    }

    /** getAsyncHandler for call q. */
    method GetAsyncHandler(q: Call) returns (a: AsyncHandler)
      requires Valid()
      modifies this`pool, this`objects, objects
      ensures Valid() && objects == old(objects) + {a}
      ensures a in old(pool) || a !in old(objects)
      ensures View() == old(View()).Get(a, q)
    {
      a := PoolGet();
      ghost var got := View();
      Fill(a, q);
      assert got.objs[a := Handler(Some(q), Some(q))] == old(View()).objs[a := Handler(Some(q), Some(q))];
    }

    method AddAsyncHandler(q: Call, a: AsyncHandler)
      requires Valid() && a in objects
      modifies this`asyncMap
      ensures Valid() && View() == old(View()).Add(q, a)
    {
      if running {
        asyncMap := asyncMap[q := a];
      }
    }

    method PutAsyncHandler(a: AsyncHandler)
      requires Valid() && a in objects
      modifies this`pool, a
      ensures Valid() && View() == old(View()).Put(a)
    {
      a.timer := None;
      a.handler := None;
      pool := pool + [a];
      OneChanged(a);
    }

    method DeleteAsyncHandler(q: Call)
      requires Valid()
      modifies this`asyncMap, this`pool, if q in asyncMap then {asyncMap[q]} else {}
      ensures Valid() && View() == old(View()).Delete(q)
    {
      if q in asyncMap {
        var a := asyncMap[q];
        asyncMap := asyncMap - {q};
        PutAsyncHandler(a);
      }
    }

    method GetAndDeleteAsyncHandler(q: Call) returns (a: Option<AsyncHandler>)
      requires Valid()
      modifies this`asyncMap
      ensures Valid() && View() == old(View()).Remove(q)
      ensures a == if q in old(asyncMap) then Some(old(asyncMap[q])) else None
    {
      a := if q in asyncMap then Some(asyncMap[q]) else None;
      asyncMap := asyncMap - {q};
    }

    /** The critical section of clearAsyncHandler; the caller runs the handlers it returns. */
    method ClearAsyncHandler() returns (taken: map<Call, AsyncHandler>)
      requires Valid()
      modifies this`asyncMap
      ensures Valid() && View() == old(View()).Clear() && taken == old(asyncMap)
    {
      taken := asyncMap;
      asyncMap := map[];
    }

    // ------------------------------------------------------- blocking calls

    method AddSession(q: nat, sess: RpcSession)
      requires Valid() && sess.key == q && sess.closes == 0
      modifies this`sessionMap
      ensures Valid()
      ensures sessionMap == if running then old(sessionMap)[q := sess] else old(sessionMap)
    {
      if running {
        sessionMap := sessionMap[q := sess];
      }
    }

    method DeleteSession(q: nat) returns (sess: Option<RpcSession>)
      requires Valid()
      modifies this`sessionMap
      ensures Valid() && sessionMap == old(sessionMap) - {q}
      ensures sess == if q in old(sessionMap) then Some(old(sessionMap[q])) else None
    {
      sess := if q in sessionMap then Some(sessionMap[q]) else None;
      sessionMap := sessionMap - {q};
    }

    /** Closes the done channel of every registered session, each once, and of no other. */
    method ClearSession()
      requires Valid()
      modifies this`sessionMap, sessionMap.Values
      ensures Valid() && sessionMap == map[]
      ensures forall q :: q in old(sessionMap) ==> old(sessionMap[q]).closes == 1
    {
      var rest := sessionMap.Keys;
      while rest != {}
        invariant rest <= sessionMap.Keys && sessionMap == old(sessionMap)
        invariant forall q :: q in sessionMap ==> sessionMap[q].key == q
        invariant forall q :: q in sessionMap ==> sessionMap[q].closes == (if q in rest then 0 else 1)
        decreases |rest|
      {
        var q :| q in rest;
        sessionMap[q].closes := sessionMap[q].closes + 1;
        rest := rest - {q};
      }
      sessionMap := map[];
    }

    /** dropMessage: fails the pending call registered under the message's number, if any, and no other. */
    method DropMessage(q: nat, isAsync: bool)
      requires Valid()
      modifies this`sessionMap, this`asyncMap, this`pool
      modifies if q in sessionMap then {sessionMap[q]} else {}
      modifies if q in asyncMap then {asyncMap[q]} else {}
      ensures Valid()
      ensures isAsync ==> sessionMap == old(sessionMap) && View() == old(View()).Delete(q)
      ensures !isAsync ==> View() == old(View()) && sessionMap == old(sessionMap) - {q}
      ensures !isAsync && q in old(sessionMap) ==> old(sessionMap[q]).closes == 1
    {
      if !isAsync {
        var sess := DeleteSession(q);
        if sess.Some? {
          sess.value.closes := sess.value.closes + 1;
        }
      } else {
        DeleteAsyncHandler(q);
      }
    }
  }
}
