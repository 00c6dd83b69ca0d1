/**
 The async follower that addSub refuses (client.go, callAsyncSingleflight): it
 stops its timer and sends a request of its own with the same handler. The
 machine is that of SfModel with the timers split into expiring and firing, and
 with the follower's Stop, its own request and the handler call of that request
 (at most one, by AsyncCallsTheorems.HandlerAtMostOnce) as further steps.
 */
module SfFallback {
  import opened Prelude
  import opened SfModel
  import opened SfProofs
  import opened SfDelivery
  import opened SfAsync
  import opened SfTheorems

  /** How far a refused follower is. */
  datatype Fall = TimerStopped | Sent | Called

  /** expired: timers whose function was started; stopped: those that Stop kept from starting. */
  datatype Follow = Follow(s: State, expired: set<Caller>, stopped: set<Caller>, falls: map<Caller, Fall>)

  const Begin := Follow(Start, {}, {}, map[])

  datatype Move =
    | Plain(t: Step)             // any step but a timer's
    | Expires(h: Caller)
    | Fires(h: Caller)           // the timer's function runs sub.fire
    | Stops(h: Caller)           // refused: sub.timer.Stop()
    | Sends(h: Caller)           // callAsyncOnce with the follower's handler
    | Calls(h: Caller)           // that request calls the handler

  predicate Refused(s: State, h: Caller) { h in s.dl.subs && s.dl.subs[h].status == SubStatus.Refused }

  predicate FallAt(x: Follow, h: Caller, at: Fall) { h in x.falls && x.falls[h] == at }

  predicate CanMove(x: Follow, m: Move) {
    match m
    case Plain(t) => Enabled(x.s, t) && !t.TimerFires?
    case Expires(h) => h in x.s.dl.subs && h !in x.expired && h !in x.stopped
    case Fires(h) => h in x.s.dl.subs && h in x.expired
    case Stops(h) => Refused(x.s, h) && h !in x.falls
    case Sends(h) => FallAt(x, h, TimerStopped)
    case Calls(h) => FallAt(x, h, Sent)
  }

  /** timer.Stop: no effect once the timer has expired. */
  function StopTimer(x: Follow, h: Caller): (r: set<Caller>) { if h in x.expired then x.stopped else x.stopped + {h} }

  function Moved(x: Follow, m: Move): (r: Follow)
    requires CanMove(x, m)
  {
    match m
    case Plain(t) =>
      var wins := t.Execute? && !x.s.dl.subs[t.h].fired;
      x.(s := Apply(x.s, t), stopped := if wins then StopTimer(x, t.h) else x.stopped)
    case Expires(h) => x.(expired := x.expired + {h})
    case Fires(h) => x.(s := Apply(x.s, TimerFires(h)))
    case Stops(h) => x.(stopped := StopTimer(x, h), falls := x.falls[h := TimerStopped])
    case Sends(h) => x.(falls := x.falls[h := Sent])
    case Calls(h) => x.(falls := x.falls[h := Called])
  }

  ghost predicate IsFollowRun(tr: seq<Follow>, ms: seq<Move>) {
    && |tr| == |ms| + 1
    && tr[0] == Begin
    && forall i {:trigger ms[i]} ::
         0 <= i < |ms| ==> CanMove(tr[i], ms[i]) && tr[i + 1] == Moved(tr[i], ms[i])
  }

  /** All calls of a follower's handler: by its subscription and by its own request. */
  function HandlerCalls(x: Follow, h: Caller): (n: nat)
    requires h in x.s.dl.subs
  {
    x.s.dl.subs[h].runs + if FallAt(x, h, Called) then 1 else 0
  }

  // ---------------------------------------------------------------- invariant

  ghost predicate ExecutorOk(s: State) {
    forall h {:trigger s.dl.executor[h]} ::
      h in s.dl.executor ==> h in s.dl.subs && s.dl.subs[h].status == Registered
  }

  /** Unless registered, a subscription was fired by its timer only; a refused one has its timer expired or stopped. */
  ghost predicate FollowOk(x: Follow, h: Caller)
    requires h in x.s.dl.subs
  {
    && (x.s.dl.subs[h].fired && x.s.dl.subs[h].status != Registered ==> h in x.expired)
    && (h in x.falls ==> Refused(x.s, h) && (h in x.expired || h in x.stopped))
    && !(h in x.expired && h in x.stopped)
  }

  ghost predicate Follows(x: Follow) {
    && Inv(x.s)
    && ExecutorOk(x.s)
    && x.falls.Keys <= x.s.dl.subs.Keys
    && (x.expired + x.stopped <= x.s.dl.subs.Keys)
    && forall h {:trigger FollowOk(x, h)} ::
         h in x.s.dl.subs ==> FollowOk(x, h)
  }

  lemma FanOneExecutor(s: State, c: Caller)
    requires Inv(s) && ExecutorOk(s) && AtPhase(s, c, Fan) && s.callers[c].rest != []
    ensures ExecutorOk(DoFanOne(s, c))
  {
    assert HolderOk(s, c) && AsyncHolderOk(s, c) && CapturedOk(s, c);
    TailMembers(s.callers[c].rest);
  }

  /** What a step of the group does to the subscriptions. */
  ghost predicate SubsFollow(s: State, t: Step, r: State) {
    && ExecutorOk(r) && s.dl.subs.Keys <= r.dl.subs.Keys
    && (forall h {:trigger s.dl.subs[h]} :: h in s.dl.subs && s.dl.subs[h].status != Created ==>
          r.dl.subs[h].status == s.dl.subs[h].status)
    && (forall h {:trigger r.dl.subs[h]} :: h in r.dl.subs && r.dl.subs[h].fired ==>
          h in s.dl.subs && (s.dl.subs[h].fired || t == Execute(h) || t == TimerFires(h)))
  }

  lemma AcquireSubs(s: State, c: Caller, k: SfKey, obj: CallId)
    requires Inv(s) && ExecutorOk(s) && Enabled(s, Acquire(c, k, obj))
    ensures SubsFollow(s, Acquire(c, k, obj), Apply(s, Acquire(c, k, obj)))
  {
  }

  lemma AddSubSubs(s: State, c: Caller)
    requires Inv(s) && ExecutorOk(s) && Enabled(s, FollowerAddSub(c))
    ensures SubsFollow(s, FollowerAddSub(c), Apply(s, FollowerAddSub(c)))
  {
    assert HolderOk(s, c) && AsyncHolderOk(s, c);
  }

  lemma FireSubs(s: State, t: Step)
    requires ExecutorOk(s) && Enabled(s, t) && (t.Execute? || t.TimerFires?)
    ensures SubsFollow(s, t, Apply(s, t))
  {
  }

  /** Every other step leaves the subscriptions and the executor alone. */
  lemma QuietSubs(s: State, t: Step)
    requires Enabled(s, t)
    requires !t.Acquire? && !t.FollowerAddSub? && !t.FanOne? && !t.Execute? && !t.TimerFires?
    ensures Apply(s, t).dl.subs == s.dl.subs && Apply(s, t).dl.executor == s.dl.executor
  {
  }

  lemma PlainSubs(s: State, t: Step)
    requires Inv(s) && ExecutorOk(s) && Enabled(s, t)
    ensures SubsFollow(s, t, Apply(s, t))
  {
    match t {
      case Acquire(c, k, obj) => AcquireSubs(s, c, k, obj);
      case FollowerAddSub(c) => AddSubSubs(s, c);
      case FanOne(c) => FanOneExecutor(s, c);
      case Execute(_) => FireSubs(s, t);
      case TimerFires(_) => FireSubs(s, t);
      case _ => QuietSubs(s, t);
    }
  }

  lemma PlainFollows(x: Follow, t: Step)
    requires Follows(x) && CanMove(x, Plain(t))
    ensures Follows(Moved(x, Plain(t)))
  {
    var r := Moved(x, Plain(t));
    StepKeepsInv(x.s, t);
    PlainSubs(x.s, t);
    forall h | h in r.s.dl.subs ensures FollowOk(r, h) {
      if h in x.s.dl.subs { assert FollowOk(x, h); }
    }
  }

  lemma FiresFollows(x: Follow, h: Caller)
    requires Follows(x) && CanMove(x, Fires(h))
    ensures Follows(Moved(x, Fires(h)))
  {
    var r := Moved(x, Fires(h));
    StepKeepsInv(x.s, TimerFires(h));
    forall d | d in r.s.dl.subs ensures FollowOk(r, d) { assert FollowOk(x, d); }
  }

  lemma OwnFollows(x: Follow, m: Move)
    requires Follows(x) && CanMove(x, m) && !m.Plain? && !m.Fires?
    ensures Follows(Moved(x, m))
  {
    var r := Moved(x, m);
    forall d | d in r.s.dl.subs ensures FollowOk(r, d) { assert FollowOk(x, d); }
  }

  lemma {:induction false} RunFollows(tr: seq<Follow>, ms: seq<Move>, i: nat)
    requires IsFollowRun(tr, ms) && i < |tr|
    ensures Follows(tr[i])
  {
    if i > 0 {
      RunFollows(tr, ms, i - 1);
      match ms[i - 1] {
        case Plain(t) => PlainFollows(tr[i - 1], t);
        case Fires(h) => FiresFollows(tr[i - 1], h);
        case _ => OwnFollows(tr[i - 1], ms[i - 1]);
      }
    }
  }

  // ------------------------------------------------------------------ theorems

  /**
   Over every run, a follower's handler is called at most once if and only if it
   is not the case that addSub refused it, its timer won fire, and its own
   request called the handler; and then the timer had expired before Stop.
   */
  lemma CalledAtMostOnceIff(tr: seq<Follow>, ms: seq<Move>, i: nat, h: Caller)
    requires IsFollowRun(tr, ms) && i < |tr| && h in tr[i].s.dl.subs
    ensures HandlerCalls(tr[i], h) <= 2
    ensures HandlerCalls(tr[i], h) <= 1 <==>
            !(Refused(tr[i].s, h) && tr[i].s.dl.subs[h].fired && FallAt(tr[i], h, Called))
    ensures HandlerCalls(tr[i], h) == 2 ==> h in tr[i].expired && h !in tr[i].stopped
  {
    RunFollows(tr, ms, i);
    assert FollowOk(tr[i], h) && SubOk(tr[i].s, h);
  }

  /** A refused follower whose Stop was in time is called by its own request only. */
  lemma StoppedInTime(tr: seq<Follow>, ms: seq<Move>, i: nat, h: Caller)
    requires IsFollowRun(tr, ms) && i < |tr| && Refused(tr[i].s, h) && h in tr[i].stopped
    ensures tr[i].s.dl.subs[h].runs == 0 && HandlerCalls(tr[i], h) <= 1
  {
    RunFollows(tr, ms, i);
    assert FollowOk(tr[i], h) && SubOk(tr[i].s, h);
  }

  // ------------------------------------------------------------------- runs

  /** Some run ends in x. */
  ghost predicate Reached(x: Follow) { exists tr, ms :: IsFollowRun(tr, ms) && tr[|ms|] == x }

  lemma BeginIsReached()
    ensures Reached(Begin)
  {
    assert IsFollowRun([Begin], []);
  }

  lemma NextIsReached(x: Follow, m: Move)
    requires Reached(x) && CanMove(x, m)
    ensures Reached(Moved(x, m))
  {
    var tr, ms :| IsFollowRun(tr, ms) && tr[|ms|] == x;
    var more, steps := tr + [Moved(x, m)], ms + [m];
    assert forall i {:trigger steps[i]} :: 0 <= i < |ms| ==> steps[i] == ms[i];
    assert IsFollowRun(more, steps);
  }
}
