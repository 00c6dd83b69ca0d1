/**
 The async leader that publishes twice (client.go, callAsyncSingleflight): its
 wrapped handler and the branch for an error of callAsyncOnce each run
 finishAsync, hand out what it returns and run releaseCall. The machine is that
 of SfModel with the second publication as further steps of its own goroutine;
 AsyncCallsTheorems.PublishesTwiceIff says when a leader gets there.
 */
module SfTwice {
  import opened Prelude
  import opened SfModel
  import opened SfProofs
  import opened SfTidy
  import opened SfDelivery
  import opened SfAsync
  import opened SfTheorems

  /** How far the second publication of a leader is. */
  datatype Again = Took | Zero | Cleared | Over

  datatype Twice = Twice(s: State, again: map<Caller, Again>, taken: map<Caller, seq<Caller>>)

  const Begin := Twice(Start, map[], map[])

  datatype Move =
    | Plain(t: Step)
    | CaptureAgain(g: Caller)     // finishAsync, and the followers it returns go to the executor
    | DropAgain(g: Caller)        // releaseCall: the decrement
    | ResetAgain(g: Caller)
    | PutAgain(g: Caller)

  /** g published once, and o is the call it got from acquire. */
  predicate Published(s: State, g: Caller) {
    g in s.hist.captured && g in s.hist.led && s.hist.led[g].call in s.core.mem
  }

  predicate AgainAt(x: Twice, g: Caller, at: Again) { g in x.again && x.again[g] == at && Published(x.s, g) }

  predicate CanMove(x: Twice, m: Move) {
    match m
    case Plain(t) => Enabled(x.s, t)
    case CaptureAgain(g) => Published(x.s, g) && g !in x.again
    case DropAgain(g) => AgainAt(x, g, Took)
    case ResetAgain(g) => AgainAt(x, g, Zero)
    case PutAgain(g) => AgainAt(x, g, Cleared)
  }

  function CallOf(s: State, g: Caller): (o: CallId)
    requires Published(s, g)
  {
    s.hist.led[g].call
  }

  function DoCaptureAgain(s: State, g: Caller): (r: State)
    requires Published(s, g)
  {
    var o := CallOf(s, g);
    s.(core := s.core.Capture(s.hist.led[g].k, o),
       dl := s.dl.(executor := s.dl.executor + multiset(s.core.mem[o].subs)))
  }

  function DoDropAgain(s: State, g: Caller): (r: State)
    requires Published(s, g)
  {
    s.(core := s.core.DropRef(CallOf(s, g)))
  }

  function Moved(x: Twice, m: Move): (r: Twice)
    requires CanMove(x, m)
  {
    match m
    case Plain(t) => x.(s := Apply(x.s, t))
    case CaptureAgain(g) =>
      Twice(DoCaptureAgain(x.s, g), x.again[g := Took], x.taken[g := x.s.core.mem[CallOf(x.s, g)].subs])
    case DropAgain(g) =>
      x.(s := DoDropAgain(x.s, g),
         again := x.again[g := if x.s.core.mem[CallOf(x.s, g)].refs - 1 == 0 then Zero else Over])
    case ResetAgain(g) => x.(s := x.s.(core := x.s.core.Reset(CallOf(x.s, g))), again := x.again[g := Cleared])
    case PutAgain(g) => x.(s := x.s.(core := x.s.core.Put(CallOf(x.s, g))), again := x.again[g := Over])
  }

  ghost predicate IsTwiceRun(tr: seq<Twice>, ms: seq<Move>) {
    && |tr| == |ms| + 1
    && tr[0] == Begin
    && forall i {:trigger ms[i]} ::
         0 <= i < |ms| ==> CanMove(tr[i], ms[i]) && tr[i + 1] == Moved(tr[i], ms[i])
  }

  // ---------------------------------------------------------- the references

  ghost predicate LedKnown(s: State) { s.hist.led.Keys <= s.callers.Keys }

  lemma LedStep(s: State, t: Step)
    requires LedKnown(s) && Enabled(s, t)
    ensures LedKnown(Apply(s, t))
  {
  }

  /** finishAsync never touches a count, so it keeps what Sound says. */
  lemma CaptureAgainSound(s: State, g: Caller)
    requires Sound(s) && Published(s, g)
    ensures Sound(DoCaptureAgain(s, g))
  {
    var r := DoCaptureAgain(s, g);
    assert HoldersOk(r) by {
      forall d | d in r.callers ensures HolderOk(r, d) { assert HolderOk(s, d); }
    }
    assert RecyclersOk(r) by {
      forall d | d in r.callers ensures RecyclerOk(r, d) { assert RecyclerOk(s, d); }
    }
    assert EntriesOk(r) by {
      forall k | k in r.core.calls ensures EntryOk(r, k) { assert EntryOk(s, k); }
    }
    assert PoolOk(r) by {
      forall o ensures PooledOk(r, o) { assert PooledOk(s, o); }
    }
    assert Counted(r) by {
      forall o | o in r.core.mem ensures r.core.mem[o].refs == |Holders(r.callers, o)| {
        assert s.core.mem[o].refs == |Holders(s.callers, o)|;
      }
    }
  }

  lemma {:induction false} SoundUntilDrop(tr: seq<Twice>, ms: seq<Move>, i: nat)
    requires IsTwiceRun(tr, ms) && i < |tr|
    requires forall j :: 0 <= j < i ==> ms[j].Plain? || ms[j].CaptureAgain?
    ensures Sound(tr[i].s) && LedKnown(tr[i].s)
  {
    if i > 0 {
      SoundUntilDrop(tr, ms, i - 1);
      var s, m := tr[i - 1].s, ms[i - 1];
      if m.Plain? {
        SoundStep(s, m.t);
        LedStep(s, m.t);
      } else {
        CaptureAgainSound(s, m.g);
      }
    }
  }

  ghost predicate AllTook(x: Twice) { forall g {:trigger x.again[g]} :: g in x.again ==> x.again[g] == Took }

  lemma TookStep(x: Twice, m: Move)
    requires AllTook(x) && CanMove(x, m) && !m.DropAgain?
    ensures AllTook(Moved(x, m)) && (m.Plain? || m.CaptureAgain?)
  {
  }

  /** Only a decrement leads to the other two steps. */
  lemma {:induction false} NoDropNoRecycle(tr: seq<Twice>, ms: seq<Move>, i: nat)
    requires IsTwiceRun(tr, ms) && i < |tr|
    requires forall j :: 0 <= j < i ==> !ms[j].DropAgain?
    ensures AllTook(tr[i])
    ensures forall j :: 0 <= j < i ==> ms[j].Plain? || ms[j].CaptureAgain?
  {
    if i > 0 {
      NoDropNoRecycle(tr, ms, i - 1);
      TookStep(tr[i - 1], ms[i - 1]);
    }
  }

  /** The second decrement leaves one reference too few for the holders. */
  lemma DropAgainMiscounts(s: State, g: Caller)
    requires Sound(s) && Published(s, g)
    ensures DoDropAgain(s, g).core.mem[CallOf(s, g)].refs == |Holders(s.callers, CallOf(s, g))| - 1
    ensures !Counted(DoDropAgain(s, g))
  {
    var o := CallOf(s, g);
    assert s.core.mem[o].refs == |Holders(s.callers, o)|;
    assert Holders(DoDropAgain(s, g).callers, o) == Holders(s.callers, o);
  }

  lemma {:induction false} FirstDrop(ms: seq<Move>, n: nat) returns (i: nat)
    requires n < |ms| && ms[n].DropAgain?
    ensures i <= n && ms[i].DropAgain? && forall j :: 0 <= j < i ==> !ms[j].DropAgain?
  {
    i := 0;
    while !ms[i].DropAgain?
      invariant i <= n && forall j :: 0 <= j < i ==> !ms[j].DropAgain?
      decreases n - i
    {
      i := i + 1;
    }
  }

  /** Over every run, refs counts the holders of every call throughout if and only if no leader releases twice. */
  lemma CountedIffReleasedOnce(tr: seq<Twice>, ms: seq<Move>)
    requires IsTwiceRun(tr, ms)
    ensures (forall i {:trigger tr[i]} :: 0 <= i < |tr| ==> Counted(tr[i].s)) <==>
            (forall i {:trigger ms[i]} :: 0 <= i < |ms| ==> !ms[i].DropAgain?)
  {
    if n :| 0 <= n < |ms| && ms[n].DropAgain? {
      var i := FirstDrop(ms, n);
      NoDropNoRecycle(tr, ms, i);
      SoundUntilDrop(tr, ms, i);
      DropAgainMiscounts(tr[i].s, ms[i].g);
      assert tr[i + 1].s == DoDropAgain(tr[i].s, ms[i].g);
    } else {
      forall i | 0 <= i < |tr| ensures Counted(tr[i].s) {
        NoDropNoRecycle(tr, ms, i);
        SoundUntilDrop(tr, ms, i);
      }
    }
  }

  /**
   The first second release recycles the call, and does so under its holder, if
   and only if exactly one caller holds it; with more holders it leaves that to
   one of them, and with none it takes the count below zero.
   */
  lemma FreesAHeldCallIff(tr: seq<Twice>, ms: seq<Move>, i: nat)
    requires IsTwiceRun(tr, ms) && i < |ms| && ms[i].DropAgain?
    requires forall j :: 0 <= j < i ==> !ms[j].DropAgain?
    ensures var g := ms[i].g; var o := CallOf(tr[i].s, g); var n := |Holders(tr[i].s.callers, o)|;
            && (tr[i + 1].again[g] == Zero <==> n == 1)
            && tr[i + 1].s.callers == tr[i].s.callers && tr[i + 1].s.core.mem[o].refs == n - 1
  {
    NoDropNoRecycle(tr, ms, i);
    SoundUntilDrop(tr, ms, i);
    DropAgainMiscounts(tr[i].s, ms[i].g);
  }

  // ------------------------------------------------------------ the capture

  /** Followers are collected only by a leader that is still sending. */
  ghost predicate HomeOk(s: State, o: CallId) {
    o in s.core.mem && s.core.mem[o].subs != [] ==>
      && o in s.hist.leaderOf && s.hist.leaderOf[o] in s.callers
      && s.callers[s.hist.leaderOf[o]].at == Lead && s.callers[s.hist.leaderOf[o]].call == o
      && s.callers[s.hist.leaderOf[o]].k.async
  }

  ghost predicate Homes(s: State) { forall o {:trigger HomeOk(s, o)} :: HomeOk(s, o) }

  lemma AddSubHomes(s: State, c: Caller)
    requires Inv(s) && Homes(s) && AtPhase(s, c, Subscribing) && c in s.dl.subs
    ensures Homes(DoAddSub(s, c))
  {
    var r := DoAddSub(s, c);
    assert HolderOk(s, c) && AsyncHolderOk(s, c) && LedOk(s, s.callers[c].gen);
    forall o ensures HomeOk(r, o) { assert HomeOk(s, o); }
  }

  lemma AcquireHomes(s: State, c: Caller, k: SfKey, obj: CallId)
    requires Inv(s) && Homes(s) && Enabled(s, Acquire(c, k, obj))
    ensures Homes(Apply(s, Acquire(c, k, obj)))
  {
    var r := Apply(s, Acquire(c, k, obj));
    if k !in s.core.calls { OpenedIsBlank(s, obj); }
    forall o ensures HomeOk(r, o) { assert HomeOk(s, o); }
  }

  lemma MoveHomes(s: State, t: Step)
    requires Homes(s) && Enabled(s, t) && (IsLeaderMove(t) || IsFollowerMove(t))
    ensures Homes(Apply(s, t))
  {
    var r := Apply(s, t);
    forall o ensures HomeOk(r, o) { assert HomeOk(s, o); }
  }

  lemma OtherHomes(s: State, t: Step)
    requires Inv(s) && Homes(s) && Enabled(s, t)
    requires !t.Acquire? && !t.FollowerAddSub? && !IsLeaderMove(t) && !IsFollowerMove(t)
    ensures Homes(Apply(s, t))
  {
    var r := Apply(s, t);
    forall o ensures HomeOk(r, o) { assert HomeOk(s, o); }
  }

  lemma HomesStep(s: State, t: Step)
    requires Inv(s) && Homes(s) && Enabled(s, t)
    ensures Homes(Apply(s, t))
  {
    if t.Acquire? {
      AcquireHomes(s, t.c, t.key, t.obj);
    } else if t.FollowerAddSub? {
      AddSubHomes(s, t.c);
    } else if IsLeaderMove(t) || IsFollowerMove(t) {
      MoveHomes(s, t);
    } else {
      OtherHomes(s, t);
    }
  }

  lemma {:induction false} PlainUntilCapture(tr: seq<Twice>, ms: seq<Move>, i: nat)
    requires IsTwiceRun(tr, ms) && i < |tr|
    requires forall j :: 0 <= j < i ==> ms[j].Plain?
    ensures Inv(tr[i].s) && Homes(tr[i].s)
  {
    if i > 0 {
      PlainUntilCapture(tr, ms, i - 1);
      StepKeepsInv(tr[i - 1].s, ms[i - 1].t);
      HomesStep(tr[i - 1].s, ms[i - 1].t);
    }
  }

  /** From s to r no entry, no call in the map and no pooled call changed, and no follower was taken from o. */
  ghost predicate Harmless(s: State, r: State, o: CallId)
    requires o in s.core.mem && s.core.calls.Values <= s.core.mem.Keys == r.core.mem.Keys
  {
    && r.core.calls == s.core.calls && s.core.mem[o].subs == []
    && (forall k {:trigger s.core.calls[k]} :: k in s.core.calls ==>
          r.core.mem[s.core.calls[k]] == s.core.mem[s.core.calls[k]])
    && (forall p {:trigger s.core.pool[p]} :: p in s.core.pool && p in s.core.mem ==> r.core.mem[p] == s.core.mem[p])
  }

  lemma EntryCalls(s: State)
    requires Sound(s)
    ensures s.core.calls.Values <= s.core.mem.Keys
  {
    forall o | o in s.core.calls.Values ensures o in s.core.mem {
      var k :| k in s.core.calls && s.core.calls[k] == o;
      assert EntryOk(s, k);
    }
  }

  lemma CollectingIsMapped(s: State, o: CallId)
    requires Tidy(s) && Homes(s) && o in s.core.mem
    ensures s.core.mem[o].subs != [] ==> o in s.core.calls.Values
  {
    assert HomeOk(s, o);
    if s.core.mem[o].subs != [] {
      var g := s.hist.leaderOf[o];
      assert CallerTidy(s, g);
      assert s.callers[g].k in s.core.calls.Keys;
    }
  }

  /** A call in the map is not finished. */
  lemma EntryNotFinished(s: State, k: SfKey)
    requires Inv(s) && k in s.core.calls
    ensures s.core.calls[k] in s.core.mem && !s.core.mem[s.core.calls[k]].finished
  {
    assert EntryOk(s, k);
    var g := s.hist.leaderOf[s.core.calls[k]];
    assert HolderOk(s, g) && CallerTidy(s, g) && AsyncHolderOk(s, g);
  }

  /**
   The first second capture is harmless if and only if its call is neither in
   the map again nor in the pool. Otherwise it removes or finishes the entry of
   another leader, or leaves a finished call in the pool.
   */
  lemma SecondCaptureHarmlessIff(tr: seq<Twice>, ms: seq<Move>, i: nat)
    requires IsTwiceRun(tr, ms) && i < |ms| && ms[i].CaptureAgain?
    requires forall j :: 0 <= j < i ==> ms[j].Plain?
    ensures var s := tr[i].s; var o := CallOf(s, ms[i].g);
            && s.core.calls.Values <= s.core.mem.Keys == tr[i + 1].s.core.mem.Keys
            && (Harmless(s, tr[i + 1].s, o) <==> o !in s.core.calls.Values && o !in s.core.pool)
  {
    var s, r, g := tr[i].s, tr[i + 1].s, ms[i].g;
    var o, kg := CallOf(s, g), s.hist.led[g].k;
    PlainUntilCapture(tr, ms, i);
    EntryCalls(s);
    CollectingIsMapped(s, o);
    assert PooledTidy(s, o);
    if k :| k in s.core.calls && s.core.calls[k] == o {
      EntryNotFinished(s, k);
      assert k == kg ==> r.core.calls != s.core.calls;
    }
  }

  /** What it takes are followers of the leader that has the call now, who is not g. */
  lemma SecondCaptureSteals(tr: seq<Twice>, ms: seq<Move>, i: nat, h: Caller)
    requires IsTwiceRun(tr, ms) && i < |ms| && ms[i].CaptureAgain?
    requires forall j :: 0 <= j < i ==> ms[j].Plain?
    requires ms[i].g in tr[i + 1].taken && h in tr[i + 1].taken[ms[i].g]
    ensures h in tr[i].s.hist.joined && tr[i].s.hist.joined[h] != ms[i].g && h in tr[i + 1].s.dl.executor
  {
    var s, g := tr[i].s, ms[i].g;
    var o := CallOf(s, g);
    PlainUntilCapture(tr, ms, i);
    assert h in s.core.mem[o].subs;
    assert HomeOk(s, o);
    var l := s.hist.leaderOf[o];
    assert HolderOk(s, l) && AsyncHolderOk(s, l);
  }

  // ------------------------------------------------------------------- runs

  /** Some run ends in x. */
  ghost predicate Reached(x: Twice) { exists tr, ms :: IsTwiceRun(tr, ms) && tr[|ms|] == x }

  lemma BeginIsReached()
    ensures Reached(Begin)
  {
    assert IsTwiceRun([Begin], []);
  }

  lemma NextIsReached(x: Twice, m: Move)
    requires Reached(x) && CanMove(x, m)
    ensures Reached(Moved(x, m))
  {
    var tr, ms :| IsTwiceRun(tr, ms) && tr[|ms|] == x;
    var more, steps := tr + [Moved(x, m)], ms + [m];
    assert forall i {:trigger steps[i]} :: 0 <= i < |ms| ==> steps[i] == ms[i];
    assert IsTwiceRun(more, steps);
  }
}
