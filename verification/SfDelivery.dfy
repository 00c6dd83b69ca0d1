/** What followers of a singleflight call are given, over every run. */
module SfDelivery {
  import opened Prelude
  import opened SharedResult
  import opened SfModel
  import opened SfProofs
  import opened SfTidy

  // -------------------------------------------------------- blocking delivery

  ghost predicate WaiterOk(s: State, c: Caller)
    requires c in s.callers
  {
    var p := s.callers[c];
    Holds(p, p.call) && p.call in s.core.mem ==>
      && s.core.mem[p.call].done == (if p.k.async then None else Some(p.gen))
      && (p.gen in s.hist.published ==> s.core.mem[p.call].outcome == s.hist.published[p.gen])
      && (p.at == Lead ==> c !in s.hist.published)
      && (p.at == Wrote || p.at == Removed ==> c in s.hist.published && c !in s.dl.closed)
      && (p.at == Waiting ==> p.ch == Some(p.gen))
      && (p.at == Saw ==> p.gen in s.dl.closed)
  }

  ghost predicate SawOk(s: State, c: Caller)
    requires c in s.hist.saw
  {
    c in s.hist.joined && s.hist.joined[c] in s.hist.published
    && s.hist.saw[c] == s.hist.published[s.hist.joined[c]]
  }

  /** The histories speak of callers that exist. */
  ghost predicate Known(s: State) {
    && s.hist.led.Keys <= s.callers.Keys && s.hist.joined.Keys <= s.callers.Keys
    && s.hist.published.Keys <= s.hist.led.Keys && s.dl.closed <= s.hist.published.Keys
    && s.dl.subs.Keys <= s.hist.joined.Keys && s.hist.captured.Keys <= s.hist.led.Keys
  }

  ghost predicate WaitersOk(s: State) {
    forall c {:trigger WaiterOk(s, c)} ::
      c in s.callers ==> WaiterOk(s, c)
  }

  ghost predicate ReadsOk(s: State) {
    forall c {:trigger SawOk(s, c)} ::
      c in s.hist.saw ==> SawOk(s, c)
  }

  ghost predicate Blocking(s: State) {
    && Known(s)
    && WaitersOk(s)
    && ReadsOk(s)
  }

  /** The object d holds still has d's channel, and d's leader's outcome if there is one. */
  ghost predicate SameCall(s: State, r: State, d: Caller)
    requires d in s.callers
  {
    var o, g := s.callers[d].call, s.callers[d].gen;
    o in s.core.mem && o in r.core.mem && r.core.mem[o].done == s.core.mem[o].done
    && (g in r.hist.published ==>
          (g in s.hist.published && r.core.mem[o].outcome == s.core.mem[o].outcome)
          || r.core.mem[o].outcome == r.hist.published[g])
  }

  lemma WaitersAfter(s: State, r: State, c: Caller)
    requires WaitersOk(s) && c in r.callers && r.callers == s.callers[c := r.callers[c]]
    requires WaiterOk(r, c)
    requires forall d {:trigger SameCall(s, r, d)} ::
      d in s.callers && d != c && Holds(s.callers[d], s.callers[d].call) ==> SameCall(s, r, d)
    requires s.hist.published.Keys <= r.hist.published.Keys
    requires forall x :: x in s.hist.published && x != c ==> r.hist.published[x] == s.hist.published[x]
    requires c in s.hist.published ==> r.hist.published[c] == s.hist.published[c]
    requires forall x :: x in r.hist.published && x !in s.hist.published ==> x == c
    requires s.dl.closed <= r.dl.closed && forall x :: x in r.dl.closed && x !in s.dl.closed ==> x == c
    ensures WaitersOk(r)
  {
    forall d | d in r.callers ensures WaiterOk(r, d) {
      if d != c {
        assert WaiterOk(s, d);
        assert Holds(s.callers[d], s.callers[d].call) ==> SameCall(s, r, d);
      }
    }
  }

  lemma ReadsAfter(s: State, r: State)
    requires ReadsOk(s) && Known(s) && r.hist.saw == s.hist.saw
    requires forall x :: x in s.hist.published ==> x in r.hist.published && r.hist.published[x] == s.hist.published[x]
    requires forall x :: x in s.hist.joined ==> x in r.hist.joined && r.hist.joined[x] == s.hist.joined[x]
    ensures ReadsOk(r)
  {
    forall c | c in r.hist.saw ensures SawOk(r, c) { assert SawOk(s, c); }
  }

  /** Steps of a caller that leave every channel and outcome alone. */
  lemma BlockingMove(s: State, r: State, c: Caller)
    requires HoldersOk(s) && Blocking(s) && Known(r)
    requires c in s.callers && c in r.callers && r.callers == s.callers[c := r.callers[c]]
    requires forall x :: x in s.core.mem ==> x in r.core.mem
    requires forall x :: x in s.core.mem ==> r.core.mem[x].done == s.core.mem[x].done
    requires forall x :: x in s.core.mem ==> r.core.mem[x].outcome == s.core.mem[x].outcome
    requires r.hist.published == s.hist.published && r.hist.saw == s.hist.saw && r.hist.joined == s.hist.joined
    requires s.dl.closed <= r.dl.closed && forall x :: x in r.dl.closed && x !in s.dl.closed ==> x == c
    requires WaiterOk(r, c)
    ensures Blocking(r)
  {
    forall d | d in s.callers && d != c && Holds(s.callers[d], s.callers[d].call) ensures SameCall(s, r, d) {
      assert HolderOk(s, d);
    }
    WaitersAfter(s, r, c);
    ReadsAfter(s, r);
  }

  lemma BlockingLeader(s: State, t: Step)
    requires Sound(s) && Blocking(s) && Enabled(s, t)
    requires t.LeaderRemove? || t.LeaderClose?
    ensures Blocking(Apply(s, t))
  {
    assert HolderOk(s, t.c) && WaiterOk(s, t.c);
    match t {
      case LeaderRemove(c) => BlockingMove(s, DoRemove(s, c), c);
      case LeaderClose(c) => BlockingMove(s, DoClose(s, c), c);
    }
  }

  lemma BlockingFan(s: State, t: Step)
    requires Sound(s) && Blocking(s) && Enabled(s, t)
    requires t.LeaderCapture? || t.FanOne? || t.FanEnd?
    ensures Blocking(Apply(s, t))
  {
    assert HolderOk(s, t.c) && WaiterOk(s, t.c);
    match t {
      case LeaderCapture(c) => BlockingMove(s, DoCapture(s, c), c);
      case FanOne(c) => BlockingMove(s, DoFanOne(s, c), c);
      case FanEnd(c) => BlockingMove(s, s.(callers := Go(s, c, Releasing)), c);
    }
  }

  lemma BlockingFollower(s: State, t: Step)
    requires Sound(s) && Blocking(s) && Enabled(s, t)
    requires t.FollowerSelect? || t.FollowerDone? || t.FollowerGiveUp?
    ensures Blocking(Apply(s, t))
  {
    assert HolderOk(s, t.c) && WaiterOk(s, t.c);
    match t {
      case FollowerSelect(c) => BlockingMove(s, DoSelect(s, c), c);
      case FollowerDone(c) => BlockingMove(s, s.(callers := Go(s, c, Saw)), c);
      case FollowerGiveUp(c) => BlockingMove(s, s.(callers := Go(s, c, Releasing)), c);
    }
  }

  lemma BlockingAddSub(s: State, c: Caller)
    requires Sound(s) && Blocking(s) && AtPhase(s, c, Subscribing) && c in s.dl.subs
    ensures Blocking(DoAddSub(s, c))
  {
    assert HolderOk(s, c) && WaiterOk(s, c);
    BlockingMove(s, DoAddSub(s, c), c);
  }

  /** The leader's write reaches the holders of its own generation only. */
  lemma BlockingWrite(s: State, c: Caller, out: Outcome)
    requires Sound(s) && Blocking(s) && AtPhase(s, c, Lead) && !s.callers[c].k.async
    ensures Blocking(DoWrite(s, c, out))
  {
    var r := DoWrite(s, c, out);
    assert HolderOk(s, c) && WaiterOk(s, c);
    forall d | d in s.callers && d != c && Holds(s.callers[d], s.callers[d].call) ensures SameCall(s, r, d) {
      assert HolderOk(s, d) && WaiterOk(s, d);
    }
    WaitersAfter(s, r, c);
    ReadsAfter(s, r);
  }

  /** A follower that saw done reads what its own leader wrote. */
  lemma BlockingRead(s: State, c: Caller)
    requires Sound(s) && Blocking(s) && AtPhase(s, c, Saw)
    ensures Blocking(DoRead(s, c))
  {
    var r := DoRead(s, c);
    assert HolderOk(s, c) && WaiterOk(s, c);
    forall d | d in s.callers && d != c && Holds(s.callers[d], s.callers[d].call) ensures SameCall(s, r, d) {
      assert HolderOk(s, d);
    }
    WaitersAfter(s, r, c);
    forall d | d in r.hist.saw ensures SawOk(r, d) { assert d != c ==> SawOk(s, d); }
  }

  lemma BlockingRelease(s: State, r: State, c: Caller)
    requires Sound(s) && Blocking(s) && c in s.callers
    requires (AtPhase(s, c, Releasing) && r == DoDecrement(s, c)) || (AtPhase(s, c, Zeroed) && r == DoReset(s, c))
          || (AtPhase(s, c, Blanked) && r == DoPut(s, c))
    ensures Blocking(r)
  {
    assert HolderOk(s, c) && RecyclerOk(s, c);
    if s.callers[c].at == Zeroed { NoHolders(s, s.callers[c].call); }
    forall d | d in s.callers && d != c && Holds(s.callers[d], s.callers[d].call) ensures SameCall(s, r, d) {
      assert HolderOk(s, d);
    }
    WaitersAfter(s, r, c);
    ReadsAfter(s, r);
  }

  lemma BlockingJoin(s: State, c: Caller, k: SfKey)
    requires Sound(s) && Blocking(s) && c !in s.callers && k in s.core.calls && EntryOk(s, k)
    ensures Blocking(DoJoin(s, c, k))
  {
    var r, g := DoJoin(s, c, k), s.hist.leaderOf[s.core.calls[k]];
    assert HolderOk(s, g) && WaiterOk(s, g);
    forall d | d in s.callers && d != c && Holds(s.callers[d], s.callers[d].call) ensures SameCall(s, r, d) {
      assert HolderOk(s, d);
    }
    WaitersAfter(s, r, c);
    ReadsAfter(s, r);
  }

  lemma BlockingOpen(s: State, c: Caller, k: SfKey, obj: CallId)
    requires Sound(s) && Tidy(s) && Blocking(s) && c !in s.callers && k !in s.core.calls
    requires obj in s.core.pool || obj !in s.core.mem
    ensures Blocking(DoOpen(s, c, k, obj))
  {
    var r := DoOpen(s, c, k, obj);
    OpenedIsFree(s, obj);
    OpenedIsBlank(s, obj);
    forall d | d in s.callers && d != c && Holds(s.callers[d], s.callers[d].call) ensures SameCall(s, r, d) {
      assert HolderOk(s, d);
    }
    WaitersAfter(s, r, c);
    ReadsAfter(s, r);
  }

  lemma BlockingAcquire(s: State, c: Caller, k: SfKey, obj: CallId)
    requires Sound(s) && Tidy(s) && Blocking(s) && Enabled(s, Acquire(c, k, obj))
    ensures Blocking(Apply(s, Acquire(c, k, obj)))
  {
    if k in s.core.calls {
      assert EntryOk(s, k);
      BlockingJoin(s, c, k);
    } else {
      BlockingOpen(s, c, k, obj);
    }
  }

  lemma BlockingElsewhere(s: State, r: State)
    requires Blocking(s) && r.callers == s.callers && r.hist == s.hist && r.core.mem == s.core.mem
    requires r.dl.closed == s.dl.closed && r.dl.subs.Keys == s.dl.subs.Keys
    ensures Blocking(r)
  {
    forall d | d in r.callers ensures WaiterOk(r, d) { assert WaiterOk(s, d); }
    forall d | d in r.hist.saw ensures SawOk(r, d) { assert SawOk(s, d); }
  }

  lemma BlockingStep(s: State, t: Step)
    requires Sound(s) && Tidy(s) && Blocking(s) && Enabled(s, t)
    ensures Blocking(Apply(s, t))
  {
    match t {
      case Acquire(c, k, obj) => BlockingAcquire(s, c, k, obj);
      case LeaderWrite(c, out) => BlockingWrite(s, c, out);
      case FollowerRead(c) => BlockingRead(s, c);
      case Decrement(c) => BlockingRelease(s, DoDecrement(s, c), c);
      case ResetCall(c) => BlockingRelease(s, DoReset(s, c), c);
      case PutCall(c) => BlockingRelease(s, DoPut(s, c), c);
      case Execute(_) => BlockingElsewhere(s, Apply(s, t));
      case TimerFires(_) => BlockingElsewhere(s, Apply(s, t));
      case PoolDrops(_) => BlockingElsewhere(s, Apply(s, t));
      case FollowerSelect(_) => BlockingFollower(s, t);
      case FollowerDone(_) => BlockingFollower(s, t);
      case FollowerGiveUp(_) => BlockingFollower(s, t);
      case FollowerAddSub(c) => BlockingAddSub(s, c);
      case LeaderRemove(_) => BlockingLeader(s, t);
      case LeaderClose(_) => BlockingLeader(s, t);
      case _ => BlockingFan(s, t);
    }
  }
}
