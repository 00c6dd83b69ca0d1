/**
 The objects behind MessageCallbacks: a Message with its count (proto.go), a
 Handler with its callbacks (handler.go), and PushMsg and Broadcast as they call
 them (client.go, server.go). Each method performs the acts of its path.
 */
module MessageObjects {
  import opened Prelude
  import opened MessageCallbacks

  /** Count and number of frees after one act, and after a list of acts. */
  function Performed(v: (int, nat), a: Act): (r: (int, nat)) {
    if a == Release then (v.0 - 1, if v.0 == 0 then v.1 + 1 else v.1) else v
  }

  function PerformAll(v: (int, nat), acts: seq<Act>): (r: (int, nat))
    decreases |acts|
  {
    if acts == [] then v else PerformAll(Performed(v, acts[0]), acts[1..])
  }

  class Message {
    var ref: int
    var frees: nat

    constructor()
      ensures View() == (0, 0)
    {
      ref, frees := 0, 0;
    }

    function View(): (v: (int, nat))
      reads this
    {
      (ref, frees)
    }

    method Retain() returns (n: int)
      modifies this`ref
      ensures n == ref == old(ref) + 1
    {
      ref := ref + 1;
      n := ref;
    }

    /** Release, up to putting the Message back into its pool. */
    method Release() returns (n: int)
      modifies this
      ensures n == ref && View() == Performed(old(View()), Act.Release)
    {
      ref := ref - 1;
      n := ref;
      if n == -1 {
        frees := frees + 1;
      }
    }
  }

  class Handler {
    var pools: bool
    var onOverstock: Handler?
    var onDropped: Handler?

    constructor()
      ensures View() == Callbacks(false, None, None)
    {
      pools, onOverstock, onDropped := false, null, null;
    }

    ghost function View(): (v: Callbacks<Handler>)
      reads this
    {
      Callbacks(pools,
                if onOverstock == null then None else Some(onOverstock),
                if onDropped == null then None else Some(onDropped))
    }

    /** cp := *h: the wrappers go on calling the Handler they were set on. */
    method Clone() returns (cp: Handler)
      ensures fresh(cp) && cp.View() == View()
    {
      cp := new Handler();
      cp.pools, cp.onOverstock, cp.onDropped := pools, onOverstock, onDropped;
    }

    /** HandleMessageDone, as EnablePool calls it. */
    method EnablePool(enable: bool)
      modifies this
      ensures View() == old(View()).(pools := enable)
    {
      pools := enable;
    }

    method HandleOverstock()
      modifies this
      ensures View() == old(View()).(onOverstock := Some(this))
    {
      onOverstock := this;
    }

    method HandleMessageDropped()
      modifies this
      ensures View() == old(View()).(onDropped := Some(this))
    {
      onDropped := this;
    }

    method OnMessageDone(ghost hs: set<Handler>, m: Message)
      requires this in hs
      modifies m
      ensures m.View() == PerformAll(old(m.View()), MessageCallbacks.OnMessageDone(Table(hs), this))
    {
      if pools {
        var n := m.Release();
      }
    }

    method OnOverstock(ghost hs: set<Handler>, m: Message)
      requires this in hs && Closed(hs)
      modifies m
      ensures m.View() == PerformAll(old(m.View()), MessageCallbacks.OnOverstock(Table(hs), this))
    {
      if onOverstock != null {
        onOverstock.OnMessageDone(hs, m);
      }
    }

    method OnMessageDropped(ghost hs: set<Handler>, m: Message)
      requires this in hs && Closed(hs)
      modifies m
      ensures m.View() == PerformAll(old(m.View()), MessageCallbacks.OnMessageDropped(Table(hs), this))
    {
      if onDropped != null {
        onDropped.OnMessageDone(hs, m);
      }
    }
  }

  ghost function Table(hs: set<Handler>): (t: map<Handler, Callbacks<Handler>>)
    reads hs
  {
    map h | h in hs :: h.View()
  }

  /** hs holds every Handler that a wrapper in it was set on. */
  ghost predicate Closed(hs: set<Handler>)
    reads hs
  {
    forall h :: h in hs ==>
      (h.onOverstock != null ==> h.onOverstock in hs) && (h.onDropped != null ==> h.onDropped in hs)
  }

  /** A Client, as far as PushMsg reads it. */
  datatype Mode = Mode(asyncWritev: bool, asyncWrite: bool)

  ghost function EnvOf(hs: set<Handler>, h: Handler, mode: Mode): (e: Env<Handler>)
    reads hs
  {
    Env(Table(hs), h, mode.asyncWritev, mode.asyncWrite)
  }

  /** Writing and queuing leave the count alone. */
  lemma OnlyReleaseCounts(v: (int, nat), acts: seq<Act>)
    ensures PerformAll(v, [Write] + acts) == PerformAll(v, acts)
    ensures PerformAll(v, [Enqueue]) == v
  {
    assert ([Write] + acts)[1..] == acts;
    assert [Enqueue][1..] == [];
  }

  method PushMsg(ghost hs: set<Handler>, h: Handler, mode: Mode, m: Message, seen: Reads, wait: Wait)
    returns (queued: bool)
    requires h in hs && Closed(hs)
    modifies m
    ensures queued == Queues(EnvOf(hs, h, mode), seen)
    ensures m.View() == PerformAll(old(m.View()), MessageCallbacks.PushMsg(EnvOf(hs, h, mode), seen, wait))
  {
    ghost var v, e := m.View(), EnvOf(hs, h, mode);
    queued := false;
    if !seen.stateOk {
      h.OnMessageDone(hs, m);
    } else if mode.asyncWritev || !mode.asyncWrite {
      if seen.reconnecting {
        h.OnMessageDropped(hs, m);
      } else if !mode.asyncWritev {
        h.OnMessageDone(hs, m);
        OnlyReleaseCounts(v, MessageCallbacks.OnMessageDone(e.hs, h));
      } else if !seen.running {
        h.OnMessageDone(hs, m);
      } else {
        queued := true;
        OnlyReleaseCounts(v, []);
      }
    } else if seen.select == Sent {
      queued := true;
      OnlyReleaseCounts(v, []);
    } else if wait == NoWait {
      h.OnOverstock(hs, m);
    } else {
      h.OnMessageDone(hs, m);
    }
  }

  /** The references that PushMsg did not release at once: queued, or forgotten by a missing callback. */
  ghost function Outstanding<A>(e: Env<A>, seen: seq<Reads>): (n: nat) {
    if seen == [] then 0
    else Outstanding(e, seen[..|seen| - 1]) + 1 - ReleasedNow(e, seen[|seen| - 1])
  }

  ghost function ReleasedNow<A>(e: Env<A>, r: Reads): (n: nat)
    ensures n <= 1
  {
    PushMsgDisposesOnce(e, r, NoWait);
    Count(MessageCallbacks.PushMsg(e, r, NoWait), Release)
  }

  lemma OneMoreOutstanding<A>(e: Env<A>, seen: seq<Reads>, i: nat)
    requires i < |seen|
    ensures Outstanding(e, seen[..i + 1]) == Outstanding(e, seen[..i]) + 1 - ReleasedNow(e, seen[i])
  {
    assert seen[..i + 1][..i] == seen[..i];
  }

  /** PushMsg takes from the count what it releases. */
  lemma PushMsgTakes<A>(e: Env<A>, v: (int, nat), r: Reads)
    requires v.0 > 0
    ensures PerformAll(v, MessageCallbacks.PushMsg(e, r, NoWait)) == (v.0 - ReleasedNow(e, r), v.1)
  {
    PushMsgEnds(e, r, NoWait);
    CountsOf();
    OnlyReleaseCounts(v, []);
    OnlyReleaseCounts(v, [Release]);
    assert [Release][1..] == [];
  }

  /** One turn of Broadcast's loop. */
  method RetainAndPush(ghost hs: set<Handler>, h: Handler, mode: Mode, m: Message, seen: Reads) returns (queued: bool)
    requires h in hs && Closed(hs) && m.ref >= 0
    modifies m
    ensures queued == Queues(EnvOf(hs, h, mode), seen)
    ensures m.View() == (old(m.ref) + 1 - ReleasedNow(EnvOf(hs, h, mode), seen), old(m.frees))
  {
    var n := m.Retain();
    PushMsgTakes(EnvOf(hs, h, mode), m.View(), seen);
    queued := PushMsg(hs, h, mode, m, seen, NoWait);
  }

  /** Broadcast's loop over the Clients, each with what its PushMsg reads. */
  method PushToAll(ghost hs: set<Handler>, h: Handler, mode: Mode, m: Message, seen: seq<Reads>)
    returns (queued: seq<bool>)
    requires h in hs && Closed(hs) && m.View() == (0, 0)
    modifies m
    ensures |queued| == |seen|
    ensures forall i :: 0 <= i < |seen| ==> queued[i] == Queues(EnvOf(hs, h, mode), seen[i])
    ensures m.View() == (Outstanding(EnvOf(hs, h, mode), seen), 0)
  {
    ghost var e := EnvOf(hs, h, mode);
    queued := [];
    for i := 0 to |seen|
      invariant Closed(hs) && EnvOf(hs, h, mode) == e
      invariant |queued| == i && forall j :: 0 <= j < i ==> queued[j] == Queues(e, seen[j])
      invariant m.View() == (Outstanding(e, seen[..i]), 0)
    {
      var q := RetainAndPush(hs, h, mode, m, seen[i]);
      queued := queued + [q];
      OneMoreOutstanding(e, seen, i);
    }
    assert seen[..|seen|] == seen;
  }

  /** Broadcast run alone: what it leaves is held by the queues, or forgotten; the last holder frees. */
  method Broadcast(ghost hs: set<Handler>, h: Handler, mode: Mode, m: Message, seen: seq<Reads>)
    returns (queued: seq<bool>)
    requires h in hs && Closed(hs) && m.View() == (0, 0)
    modifies m
    ensures |queued| == |seen|
    ensures forall i :: 0 <= i < |seen| ==> queued[i] == Queues(EnvOf(hs, h, mode), seen[i])
    ensures m.ref + 1 == Outstanding(EnvOf(hs, h, mode), seen)
    ensures m.frees == if Outstanding(EnvOf(hs, h, mode), seen) == 0 then 1 else 0
  {
    queued := PushToAll(hs, h, mode, m, seen);
    var n := m.Release();
  }
}
