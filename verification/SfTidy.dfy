/** What leaders that publish once keep: every unfinished leader has its entry, and recycled calls are reset. */
module SfTidy {
  import opened SfModel
  import opened SfProofs

  ghost predicate CallerTidy(s: State, c: Caller)
    requires c in s.callers
  {
    var p := s.callers[c];
    && (Unfinished(p) ==> p.k in s.core.calls && s.core.calls[p.k] == p.call)
    && (p.at == Blanked ==> p.call in s.core.mem && s.core.mem[p.call] == Blank())
    && (Holds(p, p.call) && !p.k.async && p.call in s.core.mem ==> !s.core.mem[p.call].finished)
  }

  ghost predicate PooledTidy(s: State, o: CallId) {
    o in s.core.pool ==> o in s.core.mem && s.core.mem[o] == Blank()
  }

  ghost predicate Tidy(s: State) {
    && (forall c {:trigger CallerTidy(s, c)} ::
          c in s.callers ==> CallerTidy(s, c))
    && forall o {:trigger PooledTidy(s, o)} :: PooledTidy(s, o)
  }

  /** A step of a holder on its own object that leaves the entries alone. */
  lemma MoveTidy(s: State, r: State, c: Caller)
    requires Sound(s) && Tidy(s) && Keeps(s, r, c)
    requires s.callers[c].call in s.core.mem
    requires r.core.mem[s.callers[c].call].finished == s.core.mem[s.callers[c].call].finished
    ensures Tidy(r)
  {
    HeldIsLive(s, c);
    forall d | d in r.callers ensures CallerTidy(r, d) { assert CallerTidy(s, d); }
    forall o ensures PooledTidy(r, o) { assert PooledTidy(s, o); }
  }

  lemma LeaderMoveTidy(s: State, t: Step)
    requires Sound(s) && Tidy(s) && Enabled(s, t) && IsLeaderMove(t)
    ensures Tidy(Apply(s, t))
  {
    assert HolderOk(s, t.c);
    match t {
      case LeaderWrite(c, out) => MoveTidy(s, DoWrite(s, c, out), c);
      case LeaderClose(c) => MoveTidy(s, DoClose(s, c), c);
      case FanOne(c) => MoveTidy(s, DoFanOne(s, c), c);
      case FanEnd(c) => MoveTidy(s, s.(callers := Go(s, c, Releasing)), c);
    }
  }

  lemma FollowerMoveTidy(s: State, t: Step)
    requires Sound(s) && Tidy(s) && Enabled(s, t) && IsFollowerMove(t)
    ensures Tidy(Apply(s, t))
  {
    assert HolderOk(s, t.c);
    match t {
      case FollowerSelect(c) => MoveTidy(s, DoSelect(s, c), c);
      case FollowerDone(c) => MoveTidy(s, s.(callers := Go(s, c, Saw)), c);
      case FollowerGiveUp(c) => MoveTidy(s, s.(callers := Go(s, c, Releasing)), c);
      case FollowerRead(c) => MoveTidy(s, DoRead(s, c), c);
    }
  }

  /** finish and finishAsync drop the entry of their own leader only. */
  lemma RemoveTidy(s: State, r: State, c: Caller)
    requires Sound(s) && Tidy(s) && c in s.callers && Unfinished(s.callers[c])
    requires c in r.callers && r.callers == s.callers[c := r.callers[c]]
    requires !Unfinished(r.callers[c]) && r.callers[c].at != Blanked
    requires r.core.calls == s.core.Remove(s.callers[c].k, s.callers[c].call).calls && r.core.pool == s.core.pool
    requires r.callers[c].k == s.callers[c].k && r.callers[c].call == s.callers[c].call
    requires forall o :: o in s.core.mem && o != s.callers[c].call ==> o in r.core.mem && r.core.mem[o] == s.core.mem[o]
    requires s.callers[c].k.async || r.core.mem == s.core.mem
    ensures Tidy(r)
  {
    HeldIsLive(s, c);
    assert HolderOk(s, c);
    forall d | d in r.callers ensures CallerTidy(r, d) {
      assert CallerTidy(s, d) && HolderOk(s, d);
    }
    forall o ensures PooledTidy(r, o) { assert PooledTidy(s, o); }
  }

  lemma FinishTidy(s: State, t: Step)
    requires Sound(s) && Tidy(s) && Enabled(s, t) && (t.LeaderRemove? || t.LeaderCapture?)
    ensures Tidy(Apply(s, t))
  {
    RemoveTidy(s, Apply(s, t), t.c);
  }

  lemma AddSubTidy(s: State, c: Caller)
    requires Sound(s) && Tidy(s) && AtPhase(s, c, Subscribing) && c in s.dl.subs
    ensures Tidy(DoAddSub(s, c))
  {
    assert HolderOk(s, c);
    MoveTidy(s, DoAddSub(s, c), c);
  }

  lemma JoinTidy(s: State, c: Caller, k: SfKey)
    requires Sound(s) && Tidy(s) && c !in s.callers && k in s.core.calls && EntryOk(s, k)
    ensures Tidy(DoJoin(s, c, k))
  {
    var r, g := DoJoin(s, c, k), s.hist.leaderOf[s.core.calls[k]];
    HeldIsLive(s, g);
    assert CallerTidy(s, g);
    forall d | d in r.callers ensures CallerTidy(r, d) {
      if d != c { assert CallerTidy(s, d); }
    }
    forall o ensures PooledTidy(r, o) { assert PooledTidy(s, o); }
  }

  lemma OpenTidy(s: State, c: Caller, k: SfKey, obj: CallId)
    requires Sound(s) && Tidy(s) && c !in s.callers && k !in s.core.calls
    requires obj in s.core.pool || obj !in s.core.mem
    ensures Tidy(DoOpen(s, c, k, obj))
  {
    var r := DoOpen(s, c, k, obj);
    OpenedIsFree(s, obj);
    OpenedIsBlank(s, obj);
    forall d | d in r.callers ensures CallerTidy(r, d) {
      if d != c { assert CallerTidy(s, d); }
    }
    forall o ensures PooledTidy(r, o) { assert PooledTidy(s, o) && PooledOk(s, o); }
  }

  lemma ReleaseTidy(s: State, r: State, c: Caller)
    requires Sound(s) && Tidy(s) && c in s.callers
    requires (AtPhase(s, c, Releasing) && r == DoDecrement(s, c)) || (AtPhase(s, c, Zeroed) && r == DoReset(s, c))
          || (AtPhase(s, c, Blanked) && r == DoPut(s, c))
    ensures Tidy(r)
  {
    assert RecyclerOk(s, c) && CallerTidy(s, c);
    if s.callers[c].at == Releasing { HeldIsLive(s, c); }
    if s.callers[c].at == Zeroed { NoHolders(s, s.callers[c].call); }
    forall d | d in r.callers ensures CallerTidy(r, d) { assert CallerTidy(s, d) && RecyclerOk(s, d); }
    forall o ensures PooledTidy(r, o) { assert PooledTidy(s, o); }
  }

  lemma TidyElsewhere(s: State, r: State)
    requires Tidy(s) && r.callers == s.callers && r.core.calls == s.core.calls && r.core.mem == s.core.mem
    requires forall o {:trigger r.core.pool[o]} :: r.core.pool[o] <= s.core.pool[o]
    ensures Tidy(r)
  {
    forall d | d in r.callers ensures CallerTidy(r, d) { assert CallerTidy(s, d); }
    forall o ensures PooledTidy(r, o) { assert PooledTidy(s, o); }
  }

  lemma TidyStep(s: State, t: Step)
    requires Sound(s) && Tidy(s) && Enabled(s, t)
    ensures Tidy(Apply(s, t))
  {
    if IsLeaderMove(t) {
      LeaderMoveTidy(s, t);
    } else if IsFollowerMove(t) {
      FollowerMoveTidy(s, t);
    } else {
      match t {
        case Acquire(c, k, obj) =>
          if k in s.core.calls {
            assert EntryOk(s, k);
            JoinTidy(s, c, k);
          } else {
            OpenTidy(s, c, k, obj);
          }
        case LeaderRemove(c) => FinishTidy(s, t);
        case LeaderCapture(c) => FinishTidy(s, t);
        case FollowerAddSub(c) => AddSubTidy(s, c);
        case Decrement(c) => ReleaseTidy(s, DoDecrement(s, c), c);
        case ResetCall(c) => ReleaseTidy(s, DoReset(s, c), c);
        case PutCall(c) => ReleaseTidy(s, DoPut(s, c), c);
        case Execute(h) => TidyElsewhere(s, Apply(s, t));
        case TimerFires(h) => TidyElsewhere(s, Apply(s, t));
        case PoolDrops(obj) => TidyElsewhere(s, Apply(s, t));
      }
    }
  }

  /** The object a new leader takes is as new. */
  lemma OpenedIsBlank(s: State, obj: CallId)
    requires Tidy(s) && (obj in s.core.pool || obj !in s.core.mem)
    ensures obj in s.core.mem ==> s.core.mem[obj] == Blank()
  {
    assert PooledTidy(s, obj);
  }
}
