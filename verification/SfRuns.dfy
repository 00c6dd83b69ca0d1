/**
 Runs that show what the conditions of SfTwice and SfFallback shut out. Each
 state on the way is written out, and each lemma covers a few steps.
 */
module SfRuns {
  import opened Prelude
  import opened SfModel
  import opened SfProofs
  import T = SfTwice
  import F = SfFallback

  function Leader(k: SfKey, at: Phase): (p: Pc) { Pc(at, k, 7, 0, None, []) }

  function Past(k: SfKey): (h: History) { History(map[7 := 0], map[], map[0 := Led(k, 7)], map[], map[], map[], map[]) }

  /** Leader 0 sends its request on call 7. */
  function Leading(k: SfKey): (s: State) {
    State(Core(map[k := 7], map[7 := Blank().(refs := 1)], multiset{}), map[0 := Leader(k, Lead)],
          Start.dl, Past(k))
  }

  /** The follower 1, before addSub, its subscription being u. */
  function Shared(k: SfKey, u: Sub): (s: State) {
    State(Core(map[k := 7], map[7 := Blank().(refs := 2)], multiset{}),
          map[0 := Leader(k, Lead), 1 := Pc(Subscribing, k, 7, 0, None, [])],
          Start.dl.(subs := map[1 := u]), Past(k).(joined := map[1 := 0]))
  }

  /** The leader has captured: no follower was registered. */
  function Captured(k: SfKey, u: Sub): (s: State) {
    State(Core(map[], map[7 := Blank().(finished := true, refs := 2)], multiset{}),
          map[0 := Leader(k, Fan), 1 := Pc(Subscribing, k, 7, 0, None, [])],
          Start.dl.(subs := map[1 := u]), Past(k).(joined := map[1 := 0], captured := map[0 := []]))
  }

  /** The leader has published and released; follower 1 still holds the call. */
  function OneFollower(k: SfKey): (s: State) {
    State(Core(map[], map[7 := Blank().(finished := true, refs := 1)], multiset{}),
          map[0 := Leader(k, Finished), 1 := Pc(Subscribing, k, 7, 0, None, [])],
          Start.dl.(subs := map[1 := Sub(false, 0, Created)]),
          Past(k).(lastHolder := map[7 := 0], joined := map[1 := 0], captured := map[0 := []]))
  }

  lemma SharedIsReached(k: SfKey)
    requires k.async
    ensures Apply(Start, Acquire(0, k, 7)) == Leading(k)
    ensures Apply(Leading(k), Acquire(1, k, 7)) == Shared(k, Sub(false, 0, Created))
  {
  }

  lemma CapturedIsReached(k: SfKey, u: Sub)
    requires k.async
    ensures Enabled(Shared(k, u), LeaderCapture(0)) && Apply(Shared(k, u), LeaderCapture(0)) == Captured(k, u)
  {
  }

  lemma OneFollowerIsReached(k: SfKey)
    requires k.async
    ensures Apply(Apply(Captured(k, Sub(false, 0, Created)), FanEnd(0)), Decrement(0)) == OneFollower(k)
  {
  }

  // ----------------------------------------------- publishing and releasing twice

  /** s, with no second publication so far. */
  function Once(s: State): (x: T.Twice) { T.Twice(s, map[], map[]) }

  lemma OnceNext(s: State, t: Step)
    requires T.Reached(Once(s)) && Enabled(s, t)
    ensures T.Reached(Once(Apply(s, t)))
  {
    T.NextIsReached(Once(s), T.Plain(t));
  }

  lemma LeadingOnce(k: SfKey)
    requires k.async
    ensures T.Reached(Once(Leading(k)))
  {
    T.BeginIsReached();
    OnceNext(Start, Acquire(0, k, 7));
    SharedIsReached(k);
  }

  lemma OneFollowerOnce(k: SfKey)
    requires k.async
    ensures T.Reached(Once(OneFollower(k)))
  {
    var u := Sub(false, 0, Created);
    LeadingOnce(k);
    SharedIsReached(k);
    OnceNext(Leading(k), Acquire(1, k, 7));
    CapturedIsReached(k, u);
    OnceNext(Shared(k, u), LeaderCapture(0));
    OnceNext(Captured(k, u), FanEnd(0));
    OnceNext(Apply(Captured(k, u), FanEnd(0)), Decrement(0));
    OneFollowerIsReached(k);
  }

  /** The second release puts the call into the pool while the follower holds it. */
  function FreedTwice(k: SfKey): (x: T.Twice)
    requires k.async
  {
    var x := T.Moved(T.Moved(Once(OneFollower(k)), T.CaptureAgain(0)), T.DropAgain(0));
    T.Moved(T.Moved(x, T.ResetAgain(0)), T.PutAgain(0))
  }

  lemma SecondReleaseFreesAHeldCall(k: SfKey)
    requires k.async
    ensures T.Reached(FreedTwice(k)) && 7 in FreedTwice(k).s.core.pool && Holds(FreedTwice(k).s.callers[1], 7)
  {
    var x := Once(OneFollower(k));
    OneFollowerOnce(k);
    T.NextIsReached(x, T.CaptureAgain(0));
    var y := T.Moved(x, T.CaptureAgain(0));
    T.NextIsReached(y, T.DropAgain(0));
    var z := T.Moved(y, T.DropAgain(0));
    T.NextIsReached(z, T.ResetAgain(0));
    T.NextIsReached(T.Moved(z, T.ResetAgain(0)), T.PutAgain(0));
  }

  /** Leader 0, alone, has captured and handed out nothing. */
  function Alone(k: SfKey): (s: State) {
    State(Core(map[], map[7 := Blank().(finished := true, refs := 1)], multiset{}),
          map[0 := Leader(k, Releasing)], Start.dl, Past(k).(captured := map[0 := []]))
  }

  /** Its call is in the pool. */
  function Pooled(k: SfKey): (s: State) {
    State(Core(map[], map[7 := Blank()], multiset{7}), map[0 := Leader(k, Finished)], Start.dl,
          Past(k).(lastHolder := map[7 := 0], captured := map[0 := []]))
  }

  /** Leader 1 of another key has it now, with follower 2 at the given point and the given followers registered. */
  function Reused(k: SfKey, k': SfKey, at: Phase, u: SubStatus, subs: seq<Caller>): (s: State) {
    State(Core(map[k' := 7], map[7 := Blank().(subs := subs, refs := 2)], multiset{}),
          map[0 := Leader(k, Finished), 1 := Pc(Lead, k', 7, 1, None, []), 2 := Pc(at, k', 7, 1, None, [])],
          Start.dl.(subs := map[2 := Sub(false, 0, u)]),
          History(map[7 := 1], map[7 := 0], map[0 := Led(k, 7), 1 := Led(k', 7)],
                  map[2 := 1], map[], map[], map[0 := []]))
  }

  lemma AloneIsReached(k: SfKey)
    requires k.async
    ensures Apply(Apply(Leading(k), LeaderCapture(0)), FanEnd(0)) == Alone(k)
  {
  }

  lemma PooledIsReached(k: SfKey)
    ensures Apply(Apply(Apply(Alone(k), Decrement(0)), ResetCall(0)), PutCall(0)) == Pooled(k)
  {
  }

  lemma ReusedIsReached(k: SfKey, k': SfKey)
    requires k'.async
    ensures Apply(Apply(Pooled(k), Acquire(1, k', 7)), Acquire(2, k', 7)) == Reused(k, k', Subscribing, Created, [])
  {
    var a := Apply(Pooled(k), Acquire(1, k', 7));
    assert a.core == Core(map[k' := 7], map[7 := Blank().(refs := 1)], multiset{});
  }

  lemma FollowerIsRegistered(k: SfKey, k': SfKey)
    ensures Apply(Reused(k, k', Subscribing, Created, []), FollowerAddSub(2)) ==
            Reused(k, k', Releasing, Registered, [2])
  {
    var s := Reused(k, k', Subscribing, Created, []);
    assert s.core.mem[7].subs + [2] == [2];
  }

  lemma PooledOnce(k: SfKey)
    requires k.async
    ensures T.Reached(Once(Pooled(k)))
  {
    LeadingOnce(k);
    OnceNext(Leading(k), LeaderCapture(0));
    OnceNext(Apply(Leading(k), LeaderCapture(0)), FanEnd(0));
    AloneIsReached(k);
    OnceNext(Alone(k), Decrement(0));
    OnceNext(Apply(Alone(k), Decrement(0)), ResetCall(0));
    OnceNext(Apply(Apply(Alone(k), Decrement(0)), ResetCall(0)), PutCall(0));
    PooledIsReached(k);
  }

  lemma ReusedOnce(k: SfKey, k': SfKey)
    requires k.async && k'.async
    ensures T.Reached(Once(Reused(k, k', Releasing, Registered, [2])))
  {
    PooledOnce(k);
    OnceNext(Pooled(k), Acquire(1, k', 7));
    OnceNext(Apply(Pooled(k), Acquire(1, k', 7)), Acquire(2, k', 7));
    ReusedIsReached(k, k');
    OnceNext(Reused(k, k', Subscribing, Created, []), FollowerAddSub(2));
    FollowerIsRegistered(k, k');
  }

  /** The second capture of leader 0 takes leader 1's follower and finishes its entry. */
  lemma SecondCaptureStealsAFollower(k: SfKey, k': SfKey)
    requires k.async && k'.async && k != k'
    ensures var x := T.Moved(Once(Reused(k, k', Releasing, Registered, [2])), T.CaptureAgain(0));
            && T.Reached(x) && x.taken[0] == [2] && x.s.hist.joined[2] == 1
            && k' in x.s.core.calls && x.s.core.calls[k'] == 7 && x.s.core.mem[7].finished
  {
    ReusedOnce(k, k');
    T.NextIsReached(Once(Reused(k, k', Releasing, Registered, [2])), T.CaptureAgain(0));
  }

  // ----------------------------------------------------- a refused follower

  /** The follower was refused after its timer had called the handler. */
  function RefusedLate(k: SfKey): (s: State) {
    Captured(k, Sub(true, 1, Refused)).(callers :=
      map[0 := Leader(k, Fan), 1 := Pc(Releasing, k, 7, 0, None, [])])
  }

  /** A follower whose timer had the given fate, not refused so far. */
  function Following(s: State, expired: set<Caller>): (x: F.Follow) { F.Follow(s, expired, {}, map[]) }

  lemma FollowNext(s: State, expired: set<Caller>, t: Step)
    requires F.Reached(Following(s, expired)) && Enabled(s, t) && !t.TimerFires? && !t.Execute?
    ensures F.Reached(Following(Apply(s, t), expired))
  {
    F.NextIsReached(Following(s, expired), F.Plain(t));
  }

  lemma SharedFollowing(k: SfKey)
    requires k.async
    ensures F.Reached(Following(Shared(k, Sub(false, 0, Created)), {}))
  {
    F.BeginIsReached();
    SharedIsReached(k);
    FollowNext(Start, {}, Acquire(0, k, 7));
    FollowNext(Leading(k), {}, Acquire(1, k, 7));
  }

  lemma TimerFiresFirst(k: SfKey)
    requires k.async
    ensures F.Reached(Following(Shared(k, Sub(true, 1, Created)), {1}))
  {
    var x := Following(Shared(k, Sub(false, 0, Created)), {});
    SharedFollowing(k);
    F.NextIsReached(x, F.Expires(1));
    F.NextIsReached(F.Moved(x, F.Expires(1)), F.Fires(1));
    assert F.Moved(F.Moved(x, F.Expires(1)), F.Fires(1)) == Following(Shared(k, Sub(true, 1, Created)), {1});
  }

  lemma AddSubRefuses(k: SfKey)
    ensures Apply(Captured(k, Sub(true, 1, Created)), FollowerAddSub(1)) == RefusedLate(k)
  {
  }

  lemma RefusedIsReached(k: SfKey)
    requires k.async
    ensures F.Reached(Following(RefusedLate(k), {1}))
  {
    var u := Sub(true, 1, Created);
    TimerFiresFirst(k);
    CapturedIsReached(k, u);
    FollowNext(Shared(k, u), {1}, LeaderCapture(0));
    FollowNext(Captured(k, u), {1}, FollowerAddSub(1));
    AddSubRefuses(k);
  }

  /** Stop comes too late, and the follower's own request calls the handler again. */
  lemma RefusedIsCalledTwice(k: SfKey)
    requires k.async
    ensures var x := Following(RefusedLate(k), {1});
            var y := F.Moved(F.Moved(F.Moved(x, F.Stops(1)), F.Sends(1)), F.Calls(1));
            F.Reached(y) && F.HandlerCalls(y, 1) == 2
  {
    var x := Following(RefusedLate(k), {1});
    RefusedIsReached(k);
    F.NextIsReached(x, F.Stops(1));
    var y := F.Moved(x, F.Stops(1));
    F.NextIsReached(y, F.Sends(1));
    F.NextIsReached(F.Moved(y, F.Sends(1)), F.Calls(1));
  }
}
