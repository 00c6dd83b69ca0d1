/** What every run of the singleflight machine keeps. */
module SfProofs {
  import opened Prelude
  import opened SfModel

  // ---------------------------------------------------------------- ownership

  /** The caller at p holds a counted reference to o. */
  predicate Holds(p: Pc, o: CallId) { p.call == o && p.at != Zeroed && p.at != Blanked && p.at != Finished }

  ghost function Holders(callers: map<Caller, Pc>, o: CallId): (r: set<Caller>) {
    set c | c in callers && Holds(callers[c], o)
  }

  predicate Recycles(p: Pc, o: CallId) { p.call == o && (p.at == Zeroed || p.at == Blanked) }

  /** A leader that has not dropped its entry yet. */
  predicate Unfinished(p: Pc) { p.at == Lead || p.at == Wrote }

  predicate IsLeader(p: Pc) { Unfinished(p) || p.at == Removed || p.at == Fan }

  predicate IsFollower(p: Pc) { p.at == Joined || p.at == Waiting || p.at == Saw || p.at == Subscribing }

  ghost predicate HolderOk(s: State, c: Caller)
    requires c in s.callers
  {
    var p := s.callers[c];
    Holds(p, p.call) ==>
      && p.call in s.core.mem && p.call in s.hist.leaderOf && s.hist.leaderOf[p.call] == p.gen
      && p.gen in s.hist.led && s.hist.led[p.gen] == Led(p.k, p.call)
      && (IsLeader(p) ==> p.gen == c)
      && (IsFollower(p) ==> c in s.hist.joined && s.hist.joined[c] == p.gen)
      && (p.at == Joined || p.at == Waiting || p.at == Saw || p.at == Wrote || p.at == Removed ==> !p.k.async)
      && (p.at == Subscribing || p.at == Fan ==> p.k.async)
  }

  ghost predicate RecyclerOk(s: State, c: Caller)
    requires c in s.callers
  {
    var p := s.callers[c];
    Recycles(p, p.call) ==>
      && p.call in s.core.mem && s.core.mem[p.call].refs == 0 && p.call !in s.core.pool
      && p.call in s.hist.lastHolder && s.hist.lastHolder[p.call] == c
  }

  ghost predicate EntryOk(s: State, k: SfKey)
    requires k in s.core.calls
  {
    var o := s.core.calls[k];
    && o in s.core.mem && o in s.hist.leaderOf && s.hist.leaderOf[o] in s.callers
    && Unfinished(s.callers[s.hist.leaderOf[o]])
    && s.callers[s.hist.leaderOf[o]].call == o && s.callers[s.hist.leaderOf[o]].k == k
  }

  ghost predicate PooledOk(s: State, o: CallId) {
    s.core.pool[o] <= 1 && (o in s.core.pool ==> o in s.core.mem && s.core.mem[o].refs == 0)
  }

  ghost predicate HoldersOk(s: State) {
    forall c {:trigger HolderOk(s, c)} ::
      c in s.callers ==> HolderOk(s, c)
  }

  ghost predicate RecyclersOk(s: State) {
    forall c {:trigger RecyclerOk(s, c)} ::
      c in s.callers ==> RecyclerOk(s, c)
  }

  ghost predicate EntriesOk(s: State) {
    forall k {:trigger EntryOk(s, k)} ::
      k in s.core.calls ==> EntryOk(s, k)
  }

  ghost predicate PoolOk(s: State) {
    forall o :: PooledOk(s, o)
  }

  ghost predicate Owned(s: State) {
    && HoldersOk(s)
    && RecyclersOk(s)
    && EntriesOk(s)
    && PoolOk(s)
  }

  ghost predicate Counted(s: State) {
    forall o {:trigger Holders(s.callers, o)} ::
      o in s.core.mem ==> s.core.mem[o].refs == |Holders(s.callers, o)|
  }

  function Bit(b: bool): (n: nat) { if b then 1 else 0 }

  lemma HoldersAfter(callers: map<Caller, Pc>, c: Caller, p: Pc, o: CallId)
    ensures |Holders(callers[c := p], o)| + Bit(c in callers && Holds(callers[c], o))
         == |Holders(callers, o)| + Bit(Holds(p, o))
  {
    var before, after := Holders(callers, o), Holders(callers[c := p], o);
    if Holds(p, o) {
      assert after == before + {c};
    } else {
      assert after == before - {c};
    }
  }

  lemma NoHolders(s: State, o: CallId)
    requires Counted(s) && o in s.core.mem && s.core.mem[o].refs == 0
    ensures forall c :: c in s.callers ==> !Holds(s.callers[c], o)
  {
    assert |Holders(s.callers, o)| == 0;
    forall c | c in s.callers ensures !Holds(s.callers[c], o) {
      assert c !in Holders(s.callers, o);
    }
  }

  lemma HeldIsLive(s: State, c: Caller)
    requires Owned(s) && Counted(s) && c in s.callers && Holds(s.callers[c], s.callers[c].call)
    ensures s.callers[c].call in s.core.mem && s.core.mem[s.callers[c].call].refs > 0
    ensures s.callers[c].call !in s.core.pool
    ensures forall d :: d in s.callers ==> !Recycles(s.callers[d], s.callers[c].call)
  {
    var o := s.callers[c].call;
    assert HolderOk(s, c);
    assert c in Holders(s.callers, o);
    assert PooledOk(s, o);
    forall d | d in s.callers ensures !Recycles(s.callers[d], o) { assert RecyclerOk(s, d); }
  }

  /** A step that moves one caller without changing what it holds, nor any count. */
  lemma CountedMove(s: State, r: State, c: Caller)
    requires Counted(s) && c in s.callers && c in r.callers && r.callers == s.callers[c := r.callers[c]]
    requires forall o :: Holds(r.callers[c], o) == Holds(s.callers[c], o)
    requires r.core.mem.Keys == s.core.mem.Keys
    requires forall o :: o in s.core.mem ==> r.core.mem[o].refs == s.core.mem[o].refs
    ensures Counted(r)
  {
    forall o | o in r.core.mem ensures r.core.mem[o].refs == |Holders(r.callers, o)| {
      HoldersAfter(s.callers, c, r.callers[c], o);
    }
  }

  lemma CountedJoin(s: State, c: Caller, k: SfKey)
    requires Counted(s) && c !in s.callers
    requires k in s.core.calls && s.core.calls[k] in s.core.mem && s.core.calls[k] in s.hist.leaderOf
    ensures Counted(DoJoin(s, c, k))
  {
    var r := DoJoin(s, c, k);
    forall x | x in r.core.mem ensures r.core.mem[x].refs == |Holders(r.callers, x)| {
      HoldersAfter(s.callers, c, r.callers[c], x);
    }
  }

  lemma CountedOpen(s: State, c: Caller, k: SfKey, obj: CallId)
    requires Counted(s) && c !in s.callers && forall d :: d in s.callers ==> !Holds(s.callers[d], obj)
    ensures Counted(DoOpen(s, c, k, obj))
  {
    assert Holders(s.callers, obj) == {};
    var r := DoOpen(s, c, k, obj);
    forall x | x in r.core.mem ensures r.core.mem[x].refs == |Holders(r.callers, x)| {
      HoldersAfter(s.callers, c, r.callers[c], x);
    }
  }

  lemma CountedDecrement(s: State, c: Caller)
    requires Counted(s) && AtPhase(s, c, Releasing)
    ensures Counted(DoDecrement(s, c))
  {
    var r := DoDecrement(s, c);
    forall x | x in r.core.mem ensures r.core.mem[x].refs == |Holders(r.callers, x)| {
      HoldersAfter(s.callers, c, r.callers[c], x);
    }
  }

  /** Who led, joined and last held what is the same. */
  ghost predicate SameOwners(s: State, r: State) {
    && r.hist.leaderOf == s.hist.leaderOf && r.hist.lastHolder == s.hist.lastHolder
    && r.hist.led == s.hist.led && r.hist.joined == s.hist.joined
  }

  /** A step of a holder that keeps its object, its generation and its entry. */
  lemma OwnedMove(s: State, r: State, c: Caller)
    requires Owned(s) && Counted(s) && c in s.callers && c in r.callers && r.callers == s.callers[c := r.callers[c]]
    requires Holds(s.callers[c], s.callers[c].call) && Holds(r.callers[c], s.callers[c].call)
    requires Unfinished(r.callers[c]) == Unfinished(s.callers[c]) && r.callers[c].k == s.callers[c].k
    requires r.core.calls == s.core.calls && r.core.pool == s.core.pool
    requires r.core.mem.Keys == s.core.mem.Keys
    requires forall o :: o in s.core.mem && o != s.callers[c].call ==> r.core.mem[o] == s.core.mem[o]
    requires SameOwners(s, r) && HolderOk(r, c)
    ensures Owned(r)
  {
    HeldIsLive(s, c);
    assert HolderOk(s, c);
    assert HoldersOk(r) by {
      forall d | d in r.callers ensures HolderOk(r, d) { assert d != c ==> HolderOk(s, d); }
    }
    assert RecyclersOk(r) by {
      forall d | d in r.callers ensures RecyclerOk(r, d) { assert RecyclerOk(s, d); }
    }
    assert EntriesOk(r) by {
      forall k | k in r.core.calls ensures EntryOk(r, k) { assert EntryOk(s, k); }
    }
    assert PoolOk(r) by {
      forall o ensures PooledOk(r, o) { assert PooledOk(s, o); }
    }
  }

  ghost predicate Sound(s: State) {
    && HoldersOk(s)
    && RecyclersOk(s)
    && EntriesOk(s)
    && PoolOk(s)
    && Counted(s)
  }

  /** The conditions of CountedMove and OwnedMove, for a step of caller c from s to r. */
  ghost predicate Keeps(s: State, r: State, c: Caller) {
    && c in s.callers && c in r.callers && r.callers == s.callers[c := r.callers[c]]
    && Holds(s.callers[c], s.callers[c].call) && Holds(r.callers[c], s.callers[c].call)
    && Unfinished(r.callers[c]) == Unfinished(s.callers[c]) && r.callers[c].k == s.callers[c].k
    && r.core.calls == s.core.calls && r.core.pool == s.core.pool
    && r.core.mem.Keys == s.core.mem.Keys
    && (forall o :: o in s.core.mem && o != s.callers[c].call ==> r.core.mem[o] == s.core.mem[o])
    && (s.callers[c].call in s.core.mem ==> r.core.mem[s.callers[c].call].refs == s.core.mem[s.callers[c].call].refs)
    && SameOwners(s, r) && HolderOk(r, c)
  }

  lemma SoundMove(s: State, r: State, c: Caller)
    requires Sound(s) && Keeps(s, r, c)
    ensures Sound(r)
  {
    CountedMove(s, r, c);
    OwnedMove(s, r, c);
  }

  predicate IsLeaderMove(t: Step) { t.LeaderWrite? || t.LeaderClose? || t.FanOne? || t.FanEnd? }

  predicate IsFollowerMove(t: Step) {
    t.FollowerSelect? || t.FollowerDone? || t.FollowerGiveUp? || t.FollowerRead?
  }

  lemma LeaderMoveSound(s: State, t: Step)
    requires Sound(s) && Enabled(s, t) && IsLeaderMove(t)
    ensures Sound(Apply(s, t))
  {
    assert HolderOk(s, t.c);
    match t {
      case LeaderWrite(c, out) => SoundMove(s, DoWrite(s, c, out), c);
      case LeaderClose(c) => SoundMove(s, DoClose(s, c), c);
      case FanOne(c) => SoundMove(s, DoFanOne(s, c), c);
      case FanEnd(c) => SoundMove(s, s.(callers := Go(s, c, Releasing)), c);
    }
  }

  lemma FollowerMoveSound(s: State, t: Step)
    requires Sound(s) && Enabled(s, t) && IsFollowerMove(t)
    ensures Sound(Apply(s, t))
  {
    assert HolderOk(s, t.c);
    match t {
      case FollowerSelect(c) => SoundMove(s, DoSelect(s, c), c);
      case FollowerDone(c) => SoundMove(s, s.(callers := Go(s, c, Saw)), c);
      case FollowerGiveUp(c) => SoundMove(s, s.(callers := Go(s, c, Releasing)), c);
      case FollowerRead(c) => SoundMove(s, DoRead(s, c), c);
    }
  }

  lemma AddSubSound(s: State, c: Caller)
    requires Sound(s) && AtPhase(s, c, Subscribing) && c in s.dl.subs
    ensures Sound(DoAddSub(s, c))
  {
    assert HolderOk(s, c);
    SoundMove(s, DoAddSub(s, c), c);
  }

  /** finish and finishAsync drop the leader's own entry, and no other. */
  lemma RemoveSound(s: State, r: State, c: Caller)
    requires Sound(s) && c in s.callers && Unfinished(s.callers[c])
    requires c in r.callers && r.callers == s.callers[c := r.callers[c]] && Holds(r.callers[c], s.callers[c].call)
    requires !Unfinished(r.callers[c]) && HolderOk(r, c)
    requires r.core.calls == s.core.Remove(s.callers[c].k, s.callers[c].call).calls && r.core.pool == s.core.pool
    requires r.core.mem.Keys == s.core.mem.Keys
    requires forall o :: o in s.core.mem && o != s.callers[c].call ==> r.core.mem[o] == s.core.mem[o]
    requires s.callers[c].call in s.core.mem ==>
               r.core.mem[s.callers[c].call].refs == s.core.mem[s.callers[c].call].refs
    requires SameOwners(s, r)
    ensures Sound(r)
  {
    CountedMove(s, r, c);
    HeldIsLive(s, c);
    assert HolderOk(s, c);
    assert HoldersOk(r) by {
      forall d | d in r.callers ensures HolderOk(r, d) { assert HolderOk(s, d); }
    }
    assert RecyclersOk(r) by {
      forall d | d in r.callers ensures RecyclerOk(r, d) { assert RecyclerOk(s, d); }
    }
    assert EntriesOk(r) by {
      forall k | k in r.core.calls ensures EntryOk(r, k) { assert EntryOk(s, k); }
    }
    assert PoolOk(r) by {
      forall o ensures PooledOk(r, o) { assert PooledOk(s, o); }
    }
  }

  lemma JoinSound(s: State, c: Caller, k: SfKey)
    requires Sound(s) && c !in s.callers && k in s.core.calls
    ensures EntryOk(s, k)
    ensures Sound(DoJoin(s, c, k))
  {
    assert EntryOk(s, k);
    var r, o := DoJoin(s, c, k), s.core.calls[k];
    var g := s.hist.leaderOf[o];
    assert HolderOk(s, g);
    HeldIsLive(s, g);
    CountedJoin(s, c, k);
    assert HoldersOk(r) by {
      forall d | d in r.callers ensures HolderOk(r, d) { assert d != c ==> HolderOk(s, d); }
    }
    assert RecyclersOk(r) by {
      forall d | d in r.callers ensures RecyclerOk(r, d) { assert d != c ==> RecyclerOk(s, d); }
    }
    assert EntriesOk(r) by {
      forall x | x in r.core.calls ensures EntryOk(r, x) { assert EntryOk(s, x); }
    }
    assert PoolOk(r) by {
      forall x ensures PooledOk(r, x) { assert PooledOk(s, x); }
    }
  }

  /** The object a new leader takes is held, mapped and recycled by nobody. */
  lemma OpenedIsFree(s: State, obj: CallId)
    requires Sound(s) && (obj in s.core.pool || obj !in s.core.mem)
    ensures forall d :: d in s.callers ==> !Holds(s.callers[d], obj)
    ensures forall d :: d in s.callers ==> !Recycles(s.callers[d], obj)
    ensures forall x :: x in s.core.calls ==> s.core.calls[x] != obj
    ensures obj in s.core.mem ==> s.core.mem[obj].refs == 0 && s.core.pool[obj] == 1
  {
    assert PooledOk(s, obj);
    if obj in s.core.mem { NoHolders(s, obj); }
    forall d | d in s.callers ensures !Holds(s.callers[d], obj) && !Recycles(s.callers[d], obj) {
      assert HolderOk(s, d) && RecyclerOk(s, d);
    }
    forall x | x in s.core.calls ensures s.core.calls[x] != obj { assert EntryOk(s, x); }
  }

  /** A new leader c takes the free object obj. */
  lemma OpenFree(s: State, r: State, c: Caller, k: SfKey, obj: CallId)
    requires Owned(s) && c !in s.callers && k !in s.core.calls && c !in s.hist.led
    requires forall d :: d in s.callers ==> !Holds(s.callers[d], obj) && !Recycles(s.callers[d], obj)
    requires forall x :: x in s.core.calls ==> s.core.calls[x] != obj
    requires r.callers == s.callers[c := Pc(Lead, k, obj, c, None, [])]
    requires r.core.calls == s.core.calls[k := obj] && obj in r.core.mem
    requires forall x :: x in s.core.mem && x != obj ==> x in r.core.mem && r.core.mem[x] == s.core.mem[x]
    requires forall x :: r.core.pool[x] == if x == obj then 0 else s.core.pool[x]
    requires r.hist.leaderOf == s.hist.leaderOf[obj := c] && r.hist.led == s.hist.led[c := Led(k, obj)]
    requires r.hist.joined == s.hist.joined && r.hist.lastHolder == s.hist.lastHolder
    ensures Owned(r)
  {
    assert HoldersOk(r) by {
      forall d | d in r.callers ensures HolderOk(r, d) { assert d != c ==> HolderOk(s, d); }
    }
    assert RecyclersOk(r) by {
      forall d | d in r.callers ensures RecyclerOk(r, d) { assert d != c ==> RecyclerOk(s, d); }
    }
    assert EntriesOk(r) by {
      forall x | x in r.core.calls ensures EntryOk(r, x) { assert x != k ==> EntryOk(s, x); }
    }
    assert PoolOk(r) by {
      forall x ensures PooledOk(r, x) { assert PooledOk(s, x); }
    }
  }

  lemma OpenSound(s: State, c: Caller, k: SfKey, obj: CallId)
    requires Sound(s) && c !in s.callers && k !in s.core.calls && (obj in s.core.pool || obj !in s.core.mem)
    requires c !in s.hist.led
    ensures Sound(DoOpen(s, c, k, obj))
  {
    OpenedIsFree(s, obj);
    CountedOpen(s, c, k, obj);
    assert PooledOk(s, obj);
    OpenFree(s, DoOpen(s, c, k, obj), c, k, obj);
  }

  lemma DecrementSound(s: State, c: Caller)
    requires Sound(s) && AtPhase(s, c, Releasing)
    ensures Sound(DoDecrement(s, c))
  {
    var r := DoDecrement(s, c);
    HeldIsLive(s, c);
    CountedDecrement(s, c);
    assert HoldersOk(r) by {
      forall d | d in r.callers ensures HolderOk(r, d) { assert HolderOk(s, d); }
    }
    assert RecyclersOk(r) by {
      forall d | d in r.callers ensures RecyclerOk(r, d) { assert RecyclerOk(s, d); }
    }
    assert EntriesOk(r) by {
      forall k | k in r.core.calls ensures EntryOk(r, k) { assert EntryOk(s, k); }
    }
    assert PoolOk(r) by {
      forall o ensures PooledOk(r, o) { assert PooledOk(s, o); }
    }
  }

  /** Resetting and pooling touch an object nobody holds. */
  lemma RecycleSound(s: State, r: State, c: Caller)
    requires Sound(s) && c in s.callers && Recycles(s.callers[c], s.callers[c].call)
    requires s.callers[c].at == Zeroed ==> r == DoReset(s, c)
    requires s.callers[c].at == Blanked ==> r == DoPut(s, c)
    ensures Sound(r)
  {
    assert RecyclerOk(s, c);
    NoHolders(s, s.callers[c].call);
    CountedMove(s, r, c);
    assert HoldersOk(r) by {
      forall d | d in r.callers ensures HolderOk(r, d) { assert HolderOk(s, d); }
    }
    assert RecyclersOk(r) by {
      forall d | d in r.callers ensures RecyclerOk(r, d) { assert RecyclerOk(s, d); }
    }
    assert EntriesOk(r) by {
      forall k | k in r.core.calls ensures EntryOk(r, k) { assert EntryOk(s, k); }
    }
    assert PoolOk(r) by {
      forall x ensures PooledOk(r, x) { assert PooledOk(s, x); }
    }
  }

  lemma AcquireSound(s: State, c: Caller, k: SfKey, obj: CallId)
    requires Sound(s) && Enabled(s, Acquire(c, k, obj)) && c !in s.hist.led
    ensures Sound(Apply(s, Acquire(c, k, obj)))
  {
    if k in s.core.calls { JoinSound(s, c, k); } else { OpenSound(s, c, k, obj); }
  }

  lemma LeaveSound(s: State, t: Step)
    requires Sound(s) && Enabled(s, t) && (t.LeaderRemove? || t.LeaderCapture?)
    ensures Sound(Apply(s, t))
  {
    assert HolderOk(s, t.c);
    RemoveSound(s, Apply(s, t), t.c);
  }

  lemma ReleaseSound(s: State, t: Step)
    requires Sound(s) && Enabled(s, t) && (t.Decrement? || t.ResetCall? || t.PutCall?)
    ensures Sound(Apply(s, t))
  {
    if t.Decrement? { DecrementSound(s, t.c); } else { RecycleSound(s, Apply(s, t), t.c); }
  }

  /** Every step keeps the ownership of the call objects. */
  lemma SoundStep(s: State, t: Step)
    requires Sound(s) && Enabled(s, t) && (t.Acquire? ==> t.c !in s.hist.led)
    ensures Sound(Apply(s, t))
  {
    if IsLeaderMove(t) {
      LeaderMoveSound(s, t);
    } else if IsFollowerMove(t) {
      FollowerMoveSound(s, t);
    } else {
      match t {
        case Acquire(c, k, obj) => AcquireSound(s, c, k, obj);
        case LeaderRemove(_) => LeaveSound(s, t);
        case LeaderCapture(_) => LeaveSound(s, t);
        case FollowerAddSub(c) => AddSubSound(s, c);
        case Decrement(_) => ReleaseSound(s, t);
        case ResetCall(_) => ReleaseSound(s, t);
        case PutCall(_) => ReleaseSound(s, t);
        case Execute(h) => SoundElsewhere(s, Apply(s, t));
        case TimerFires(h) => SoundElsewhere(s, Apply(s, t));
        case PoolDrops(obj) => PoolDropSound(s, obj);
      }
    }
  }

  lemma SoundElsewhere(s: State, r: State)
    requires Sound(s) && r.core == s.core && r.callers == s.callers && r.hist == s.hist
    ensures Sound(r)
  {
    assert HoldersOk(r) by { forall d | d in r.callers ensures HolderOk(r, d) { assert HolderOk(s, d); } }
    assert RecyclersOk(r) by { forall d | d in r.callers ensures RecyclerOk(r, d) { assert RecyclerOk(s, d); } }
    assert EntriesOk(r) by { forall k | k in r.core.calls ensures EntryOk(r, k) { assert EntryOk(s, k); } }
    assert PoolOk(r) by { forall x ensures PooledOk(r, x) { assert PooledOk(s, x); } }
  }

  lemma PoolDropSound(s: State, obj: CallId)
    requires Sound(s)
    ensures Sound(s.(core := s.core.(pool := s.core.pool - multiset{obj})))
  {
    var r := s.(core := s.core.(pool := s.core.pool - multiset{obj}));
    assert HoldersOk(r) by { forall d | d in r.callers ensures HolderOk(r, d) { assert HolderOk(s, d); } }
    assert RecyclersOk(r) by { forall d | d in r.callers ensures RecyclerOk(r, d) { assert RecyclerOk(s, d); } }
    assert EntriesOk(r) by { forall k | k in r.core.calls ensures EntryOk(r, k) { assert EntryOk(s, k); } }
    assert PoolOk(r) by { forall x ensures PooledOk(r, x) { assert PooledOk(s, x); } }
  }
}
