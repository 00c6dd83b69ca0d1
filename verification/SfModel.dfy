/**
 The singleflight group as a step machine (singleflight.go and the callers in
 client.go, callSingleflight and callAsyncSingleflight).

 Core is the shared state: the map guarded by the group lock, the call objects
 and the pool they are recycled through. Each function on Core is one critical
 section or one atomic operation; the class in SfGroup.dfy is proved
 to perform exactly these. State adds any number of callers, each at some point
 of its own code, and any interleaving of their steps is a run.

 A caller is one invocation, named by a number. A leader's number also names
 the done channel its acquire makes, and an async follower's number names its
 subscription. A leader publishes once and every holder releases once: that is
 the discipline the program counters express.
 */
module SfModel {
  import opened Prelude
  import opened SharedResult

  datatype SfKey = SfKey(name: string, key: string, async: bool)

  /** singleflightCall; D names done channels and H subscriptions. */
  datatype Call<+D, +H> = Call(done: Option<D>, outcome: Outcome, finished: bool, subs: seq<H>, refs: int)

  function Blank<D, H>(): (c: Call<D, H>) { Call(None, NoOutcome, false, [], 0) }

  datatype Core<!C, +D, +H> = Core(
    calls: map<SfKey, C>,
    mem: map<C, Call<D, H>>,
    pool: multiset<C>)
  {
    /** acquire, the entry exists: take a reference. */
    function Join(k: SfKey): (g: Core<C, D, H>)
      requires k in calls && calls[k] in mem
    {
      this.(mem := mem[calls[k] := mem[calls[k]].(refs := mem[calls[k]].refs + 1)])
    }

    /** acquire, no entry: use the object c, which came from the pool or is new. */
    function Open(k: SfKey, c: C, ch: Option<D>): (g: Core<C, D, H>)
      requires c in mem
    {
      var call := mem[c].(refs := 1, done := if k.async then mem[c].done else ch);
      Core(calls[k := c], mem[c := call], pool - multiset{c})
    }

    /** Open with the object sync.Pool handed out: a pooled one as it is, or a new, blank one. */
    function OpenTaken(k: SfKey, c: C, ch: Option<D>): (g: Core<C, D, H>) {
      (if c in mem then this else this.(mem := mem[c := Blank()])).Open(k, c, ch)
    }

    /** release: drop the entry unless it was replaced. */
    function Remove(k: SfKey, c: C): (g: Core<C, D, H>) {
      if k in calls && calls[k] == c then this.(calls := calls - {k}) else this
    }

    function Write(c: C, o: Outcome): (g: Core<C, D, H>)
      requires c in mem
    {
      this.(mem := mem[c := mem[c].(outcome := o)])
    }

    function AddSub(c: C, h: H): (r: (Core<C, D, H>, bool))
      requires c in mem
    {
      if mem[c].finished then (this, false)
      else (this.(mem := mem[c := mem[c].(subs := mem[c].subs + [h])]), true)
    }

    /** finishAsync: mark finished, take the followers, drop the entry. */
    function Capture(k: SfKey, c: C): (g: Core<C, D, H>)
      requires c in mem
    {
      this.(mem := mem[c := mem[c].(finished := true, subs := [])]).Remove(k, c)
    }

    /** releaseCall: the atomic decrement. */
    function DropRef(c: C): (g: Core<C, D, H>)
      requires c in mem
    {
      this.(mem := mem[c := mem[c].(refs := mem[c].refs - 1)])
    }

    /** releaseCall, last reference: reset the object. */
    function Reset(c: C): (g: Core<C, D, H>) { this.(mem := mem[c := Blank()]) }

    /** releaseCall, last reference: put it in the pool. */
    function Put(c: C): (g: Core<C, D, H>) { this.(pool := pool + multiset{c}) }
  }

  type CallId = nat
  type Caller = nat

  /** Where a caller is in its code. */
  datatype Phase =
    | Lead         // leader: sending the request
    | Wrote        // finish: fields written
    | Removed      // finish: entry dropped
    | Fan          // async leader: handing the captured followers to the executor
    | Joined       // blocking follower, before select
    | Waiting      // in select on call.done
    | Saw          // done was closed, fields not read yet
    | Subscribing  // async follower, timer armed, before addSub
    | Releasing    // before the decrement of refs
    | Zeroed       // took refs to 0
    | Blanked      // object reset, before pool.Put
    | Finished

  /** A caller: its local variables, and the generation (its leader) it belongs to. */
  datatype Pc = Pc(at: Phase, k: SfKey, call: CallId, gen: Caller, ch: Option<Caller>, rest: seq<Caller>)

  datatype SubStatus = Created | Registered | Refused

  /** An async follower's subscription; runs counts the calls of its handler. */
  datatype Sub = Sub(fired: bool, runs: nat, status: SubStatus)

  datatype Delivery = Delivery(
    closed: set<Caller>,          // closed done channels
    executor: multiset<Caller>,   // followers handed to AsyncExecute, not run yet
    subs: map<Caller, Sub>)

  datatype Led = Led(k: SfKey, call: CallId)

  datatype History = History(
    leaderOf: map<CallId, Caller>,        // last leader of each object
    lastHolder: map<CallId, Caller>,      // the caller that took each object's count to 0
    led: map<Caller, Led>,                // what each leader leads
    joined: map<Caller, Caller>,          // the leader each follower shared with
    published: map<Caller, Outcome>,      // what each blocking leader wrote
    saw: map<Caller, Outcome>,            // what each blocking follower read
    captured: map<Caller, seq<Caller>>)   // the followers each async leader took

  datatype State = State(
    core: Core<CallId, Caller, Caller>,
    callers: map<Caller, Pc>,
    dl: Delivery,
    hist: History)

  const Start := State(Core(map[], map[], multiset{}), map[],
                       Delivery({}, multiset{}, map[]),
                       History(map[], map[], map[], map[], map[], map[], map[]))

  datatype Step =
    | Acquire(c: Caller, key: SfKey, obj: CallId)
    | LeaderWrite(c: Caller, out: Outcome)
    | LeaderRemove(c: Caller)
    | LeaderClose(c: Caller)
    | LeaderCapture(c: Caller)
    | FanOne(c: Caller)
    | FanEnd(c: Caller)
    | FollowerSelect(c: Caller)
    | FollowerDone(c: Caller)
    | FollowerGiveUp(c: Caller)           // its own ctx is done, or the Client stopped
    | FollowerRead(c: Caller)
    | FollowerAddSub(c: Caller)
    | Decrement(c: Caller)
    | ResetCall(c: Caller)
    | PutCall(c: Caller)
    | Execute(h: Caller)                  // the executor runs sub.fire
    | TimerFires(h: Caller)               // the follower's own timer runs sub.fire
    | PoolDrops(obj: CallId)              // the garbage collector empties part of a sync.Pool

  predicate AtPhase(s: State, c: Caller, at: Phase) {
    c in s.callers && s.callers[c].at == at && s.callers[c].call in s.core.mem
  }

  predicate Enabled(s: State, t: Step) {
    match t
    case Acquire(c, key, obj) =>
      c !in s.callers &&
      (key in s.core.calls ==> s.core.calls[key] in s.core.mem && s.core.calls[key] in s.hist.leaderOf) &&
      (key !in s.core.calls ==> obj in s.core.pool || obj !in s.core.mem)
    case LeaderWrite(c, _) => AtPhase(s, c, Lead) && !s.callers[c].k.async
    case LeaderRemove(c) => AtPhase(s, c, Wrote)
    case LeaderClose(c) => AtPhase(s, c, Removed)
    case LeaderCapture(c) => AtPhase(s, c, Lead) && s.callers[c].k.async
    case FanOne(c) => AtPhase(s, c, Fan) && s.callers[c].rest != []
    case FanEnd(c) => AtPhase(s, c, Fan) && s.callers[c].rest == []
    case FollowerSelect(c) => AtPhase(s, c, Joined)
    case FollowerDone(c) => AtPhase(s, c, Waiting) && s.callers[c].ch.Some? && s.callers[c].ch.value in s.dl.closed
    case FollowerGiveUp(c) => AtPhase(s, c, Waiting)
    case FollowerRead(c) => AtPhase(s, c, Saw)
    case FollowerAddSub(c) => AtPhase(s, c, Subscribing) && c in s.dl.subs
    case Decrement(c) => AtPhase(s, c, Releasing)
    case ResetCall(c) => AtPhase(s, c, Zeroed)
    case PutCall(c) => AtPhase(s, c, Blanked)
    case Execute(h) => h in s.dl.executor && h in s.dl.subs
    case TimerFires(h) => h in s.dl.subs
    case PoolDrops(obj) => obj in s.core.pool
  }

  /** sub.fire: the compare-and-swap lets only its first winner call the handler. */
  function Fire(u: Sub): (r: Sub) {
    if u.fired then u else u.(fired := true, runs := u.runs + 1)
  }

  function Go(s: State, c: Caller, at: Phase): (m: map<Caller, Pc>)
    requires c in s.callers
  {
    s.callers[c := s.callers[c].(at := at)]
  }

  function DoJoin(s: State, c: Caller, k: SfKey): (r: State)
    requires k in s.core.calls && s.core.calls[k] in s.core.mem && s.core.calls[k] in s.hist.leaderOf
  {
    var o := s.core.calls[k];
    var g := s.hist.leaderOf[o];
    State(s.core.Join(k),
          s.callers[c := Pc(if k.async then Subscribing else Joined, k, o, g, None, [])],
          if k.async then s.dl.(subs := s.dl.subs[c := Sub(false, 0, Created)]) else s.dl,
          s.hist.(joined := s.hist.joined[c := g]))
  }

  function DoOpen(s: State, c: Caller, k: SfKey, obj: CallId): (r: State) {
    State(s.core.OpenTaken(k, obj, Some(c)),
          s.callers[c := Pc(Lead, k, obj, c, None, [])],
          s.dl,
          s.hist.(leaderOf := s.hist.leaderOf[obj := c], led := s.hist.led[c := Led(k, obj)]))
  }

  function DoWrite(s: State, c: Caller, out: Outcome): (r: State)
    requires AtPhase(s, c, Lead)
  {
    State(s.core.Write(s.callers[c].call, out), Go(s, c, Wrote), s.dl,
          s.hist.(published := s.hist.published[c := out]))
  }

  function DoRemove(s: State, c: Caller): (r: State)
    requires AtPhase(s, c, Wrote)
  {
    s.(core := s.core.Remove(s.callers[c].k, s.callers[c].call), callers := Go(s, c, Removed))
  }

  function DoClose(s: State, c: Caller): (r: State)
    requires AtPhase(s, c, Removed)
  {
    var ch := s.core.mem[s.callers[c].call].done;
    s.(callers := Go(s, c, Releasing),
       dl := s.dl.(closed := if ch.Some? then s.dl.closed + {ch.value} else s.dl.closed))
  }

  function DoCapture(s: State, c: Caller): (r: State)
    requires AtPhase(s, c, Lead)
  {
    var p := s.callers[c];
    var taken := s.core.mem[p.call].subs;
    State(s.core.Capture(p.k, p.call), s.callers[c := p.(at := Fan, rest := taken)], s.dl,
          s.hist.(captured := s.hist.captured[c := taken]))
  }

  function DoFanOne(s: State, c: Caller): (r: State)
    requires AtPhase(s, c, Fan) && s.callers[c].rest != []
  {
    var p := s.callers[c];
    s.(callers := s.callers[c := p.(rest := p.rest[1..])],
       dl := s.dl.(executor := s.dl.executor + multiset{p.rest[0]}))
  }

  function DoSelect(s: State, c: Caller): (r: State)
    requires AtPhase(s, c, Joined)
  {
    var p := s.callers[c];
    s.(callers := s.callers[c := p.(at := Waiting, ch := s.core.mem[p.call].done)])
  }

  function DoRead(s: State, c: Caller): (r: State)
    requires AtPhase(s, c, Saw)
  {
    s.(callers := Go(s, c, Releasing),
       hist := s.hist.(saw := s.hist.saw[c := s.core.mem[s.callers[c].call].outcome]))
  }

  function DoAddSub(s: State, c: Caller): (r: State)
    requires AtPhase(s, c, Subscribing) && c in s.dl.subs
  {
    var (core, ok) := s.core.AddSub(s.callers[c].call, c);
    s.(core := core, callers := Go(s, c, Releasing),
       dl := s.dl.(subs := s.dl.subs[c := s.dl.subs[c].(status := if ok then Registered else Refused)]))
  }

  function DoDecrement(s: State, c: Caller): (r: State)
    requires AtPhase(s, c, Releasing)
  {
    var o := s.callers[c].call;
    s.(core := s.core.DropRef(o),
       callers := Go(s, c, if s.core.mem[o].refs - 1 == 0 then Zeroed else Finished),
       hist := s.hist.(lastHolder := s.hist.lastHolder[o := c]))
  }

  function DoReset(s: State, c: Caller): (r: State)
    requires c in s.callers
  {
    s.(core := s.core.Reset(s.callers[c].call), callers := Go(s, c, Blanked))
  }

  function DoPut(s: State, c: Caller): (r: State)
    requires c in s.callers
  {
    s.(core := s.core.Put(s.callers[c].call), callers := Go(s, c, Finished))
  }

  function DoFire(s: State, h: Caller, executor: multiset<Caller>): (r: State)
    requires h in s.dl.subs
  {
    s.(dl := s.dl.(executor := executor, subs := s.dl.subs[h := Fire(s.dl.subs[h])]))
  }

  function Apply(s: State, t: Step): (r: State)
    requires Enabled(s, t)
  {
    match t
    case Acquire(c, k, obj) => if k in s.core.calls then DoJoin(s, c, k) else DoOpen(s, c, k, obj)
    case LeaderWrite(c, out) => DoWrite(s, c, out)
    case LeaderRemove(c) => DoRemove(s, c)
    case LeaderClose(c) => DoClose(s, c)
    case LeaderCapture(c) => DoCapture(s, c)
    case FanOne(c) => DoFanOne(s, c)
    case FanEnd(c) => s.(callers := Go(s, c, Releasing))
    case FollowerSelect(c) => DoSelect(s, c)
    case FollowerDone(c) => s.(callers := Go(s, c, Saw))
    case FollowerGiveUp(c) => s.(callers := Go(s, c, Releasing))
    case FollowerRead(c) => DoRead(s, c)
    case FollowerAddSub(c) => DoAddSub(s, c)
    case Decrement(c) => DoDecrement(s, c)
    case ResetCall(c) => DoReset(s, c)
    case PutCall(c) => DoPut(s, c)
    case Execute(h) => DoFire(s, h, s.dl.executor - multiset{h})
    case TimerFires(h) => DoFire(s, h, s.dl.executor)
    case PoolDrops(obj) => s.(core := s.core.(pool := s.core.pool - multiset{obj}))
  }

  /** tr is a run: it starts empty and each state follows from the one before by the named step. */
  ghost predicate IsRun(tr: seq<State>, steps: seq<Step>) {
    && |tr| == |steps| + 1
    && tr[0] == Start
    && forall i {:trigger steps[i]} ::
         0 <= i < |steps| ==> Enabled(tr[i], steps[i]) && tr[i + 1] == Apply(tr[i], steps[i])
  }
}
