/** The fan-out of an async leader's result to the followers that joined it. */
module SfAsync {
  import opened Prelude
  import opened SfModel
  import opened SfProofs
  import opened SfTidy
  import opened SfDelivery

  /** A list of followers that joined leader g: all registered, none twice. */
  ghost predicate FollowerList(s: State, g: Caller, list: seq<Caller>) {
    && Distinct(list)
    && forall h {:trigger h in list} :: h in list ==>
         && h in s.dl.subs && s.dl.subs[h].status == Registered
         && h in s.hist.joined && s.hist.joined[h] == g
  }

  ghost predicate AsyncHolderOk(s: State, c: Caller)
    requires c in s.callers
  {
    var p := s.callers[c];
    Holds(p, p.call) && p.k.async && p.call in s.core.mem ==>
      && s.core.mem[p.call].finished == (p.gen in s.hist.captured)
      && (p.at == Subscribing ==> c in s.dl.subs && s.dl.subs[c].status == Created)
      && (p.at == Lead ==> c !in s.hist.captured && FollowerList(s, c, s.core.mem[p.call].subs))
      && (p.at == Fan ==>
            c in s.hist.captured && forall h {:trigger h in p.rest} :: h in p.rest ==> h in s.hist.captured[c])
  }

  /** An async leader that has not captured its followers is still sending. */
  ghost predicate LedOk(s: State, g: Caller)
    requires g in s.hist.led
  {
    s.hist.led[g].k.async && g !in s.hist.captured ==>
      g in s.callers && s.callers[g].at == Lead && s.callers[g].call == s.hist.led[g].call
      && s.callers[g].k == s.hist.led[g].k && s.hist.led[g].call in s.core.mem
  }

  ghost predicate SubOk(s: State, h: Caller)
    requires h in s.dl.subs
  {
    var u := s.dl.subs[h];
    && u.runs == (if u.fired then 1 else 0)
    && h in s.hist.joined && s.hist.joined[h] in s.hist.led && s.hist.led[s.hist.joined[h]].k.async
    && (u.status == Created ==> h in s.callers && s.callers[h].at == Subscribing)
    && (u.status == Registered ==>
          var g := s.hist.joined[h];
          if g in s.hist.captured then h in s.hist.captured[g]
          else s.hist.led[g].call in s.core.mem && h in s.core.mem[s.hist.led[g].call].subs)
  }

  /** A captured follower has been called, or is with the executor, or is still to be handed to it. */
  ghost predicate OnItsWay(s: State, g: Caller, h: Caller)
    requires h in s.dl.subs
  {
    s.dl.subs[h].fired || h in s.dl.executor
    || (g in s.callers && s.callers[g].at == Fan && h in s.callers[g].rest)
  }

  ghost predicate CapturedOk(s: State, g: Caller)
    requires g in s.hist.captured
  {
    && FollowerList(s, g, s.hist.captured[g])
    && (forall h {:trigger OnItsWay(s, g, h)} ::
          h in s.hist.captured[g] ==> OnItsWay(s, g, h))
  }

  ghost predicate AsyncHolders(s: State) {
    forall c {:trigger AsyncHolderOk(s, c)} ::
      c in s.callers ==> AsyncHolderOk(s, c)
  }

  ghost predicate AllLed(s: State) {
    forall g {:trigger LedOk(s, g)} ::
      g in s.hist.led ==> LedOk(s, g)
  }

  ghost predicate SubsOk(s: State) {
    forall h {:trigger SubOk(s, h)} ::
      h in s.dl.subs ==> SubOk(s, h)
  }

  ghost predicate AllCaptured(s: State) {
    forall g {:trigger CapturedOk(s, g)} ::
      g in s.hist.captured ==> CapturedOk(s, g)
  }

  ghost predicate Async(s: State) {
    && AsyncHolders(s)
    && AllLed(s)
    && SubsOk(s)
    && AllCaptured(s)
    && forall h :: h in s.dl.executor ==> h in s.dl.subs
  }

  // ------------------------------------------------------------- step lemmas

  /** Histories grow, registered followers stay registered, and no handler call is undone. */
  ghost predicate Grows(s: State, r: State) {
    && (forall h {:trigger h in s.dl.subs} :: h in s.dl.subs ==>
          && h in r.dl.subs && (s.dl.subs[h].fired ==> r.dl.subs[h].fired)
          && (s.dl.subs[h].status == Registered ==> r.dl.subs[h].status == Registered))
    && (forall h {:trigger h in s.hist.joined} ::
          h in s.hist.joined ==> h in r.hist.joined && r.hist.joined[h] == s.hist.joined[h])
    && (forall g {:trigger g in s.hist.captured} ::
          g in s.hist.captured ==> g in r.hist.captured && r.hist.captured[g] == s.hist.captured[g])
  }

  /** s and r agree on the async side of object o. */
  ghost predicate SameSubs(s: State, r: State, o: CallId) {
    o in s.core.mem ==> o in r.core.mem && r.core.mem[o].finished == s.core.mem[o].finished
                        && r.core.mem[o].subs == s.core.mem[o].subs
  }

  lemma ListKept(s: State, r: State, g: Caller, list: seq<Caller>)
    requires FollowerList(s, g, list) && Grows(s, r)
    ensures FollowerList(r, g, list)
  {
  }

  lemma CapturedAfter(s: State, r: State)
    requires AllCaptured(s) && Grows(s, r)
    requires forall g, h {:trigger OnItsWay(s, g, h)} ::
      g in s.hist.captured && h in s.hist.captured[g] && h in s.dl.subs && OnItsWay(s, g, h) ==> OnItsWay(r, g, h)
    requires forall g {:trigger CapturedOk(r, g)} :: g in r.hist.captured && g !in s.hist.captured ==> CapturedOk(r, g)
    ensures AllCaptured(r)
  {
    forall g | g in r.hist.captured ensures CapturedOk(r, g) {
      if g in s.hist.captured {
        assert CapturedOk(s, g);
        ListKept(s, r, g, s.hist.captured[g]);
        forall h | h in r.hist.captured[g] ensures OnItsWay(r, g, h) { assert OnItsWay(s, g, h); }
      }
    }
  }

  /** The async side of the object d holds is as d's place in the code needs it. */
  ghost predicate SameHold(s: State, r: State, d: Caller)
    requires d in s.callers
  {
    var p := s.callers[d];
    && p.call in s.core.mem && p.call in r.core.mem
    && r.core.mem[p.call].finished == (p.gen in r.hist.captured)
    && (p.at == Subscribing ==> d in s.dl.subs && d in r.dl.subs && r.dl.subs[d].status == s.dl.subs[d].status)
    && (p.at == Lead ==> d !in r.hist.captured && FollowerList(r, d, r.core.mem[p.call].subs))
  }

  lemma AsyncHoldersAfter(s: State, r: State, c: Caller)
    requires AsyncHolders(s) && Grows(s, r)
    requires c in r.callers && r.callers == s.callers[c := r.callers[c]] && AsyncHolderOk(r, c)
    requires forall d {:trigger SameHold(s, r, d)} ::
      d in s.callers && d != c && Holds(s.callers[d], s.callers[d].call) && s.callers[d].k.async ==> SameHold(s, r, d)
    ensures AsyncHolders(r)
  {
    forall d | d in r.callers ensures AsyncHolderOk(r, d) {
      if d != c && Holds(s.callers[d], s.callers[d].call) && s.callers[d].k.async {
        assert AsyncHolderOk(s, d) && SameHold(s, r, d);
      }
    }
  }

  lemma TailMembers<T>(list: seq<T>)
    requires list != []
    ensures list[0] in list
    ensures forall x :: x in list <==> x == list[0] || x in list[1..]
  {
    assert list == [list[0]] + list[1..];
  }

  lemma ListAppend(r: State, g: Caller, list: seq<Caller>, c: Caller)
    requires FollowerList(r, g, list) && c !in list
    requires c in r.dl.subs && r.dl.subs[c].status == Registered && c in r.hist.joined && r.hist.joined[c] == g
    ensures FollowerList(r, g, list + [c])
  {
  }

  /** A holder whose object and generation the step does not touch. */
  lemma OtherHold(s: State, r: State, d: Caller)
    requires HoldersOk(s) && AsyncHolders(s) && Grows(s, r) && d in s.callers
    requires Holds(s.callers[d], s.callers[d].call) && s.callers[d].k.async
    requires SameSubs(s, r, s.callers[d].call)
    requires s.callers[d].gen in r.hist.captured <==> s.callers[d].gen in s.hist.captured
    requires d in s.dl.subs ==> r.dl.subs[d].status == s.dl.subs[d].status
    ensures SameHold(s, r, d)
  {
    assert HolderOk(s, d) && AsyncHolderOk(s, d);
    if s.callers[d].at == Lead { ListKept(s, r, d, s.core.mem[s.callers[d].call].subs); }
  }

  /** A caller moves; no subscription, capture or follower list changes. */
  ghost predicate AsyncQuiet(s: State, r: State, c: Caller) {
    && c in s.callers && c in r.callers && r.callers == s.callers[c := r.callers[c]]
    && (forall o {:trigger SameSubs(s, r, o)} :: SameSubs(s, r, o))
    && (s.callers[c].at == Lead ==> !s.callers[c].k.async)
    && (s.callers[c].at == Fan ==> s.callers[c].rest == [])
    && s.callers[c].at != Subscribing
    && r.callers[c].at != Subscribing && r.callers[c].at != Lead && r.callers[c].at != Fan
    && r.callers[c].call == s.callers[c].call && r.callers[c].gen == s.callers[c].gen
    && r.callers[c].k == s.callers[c].k
    && (Holds(r.callers[c], r.callers[c].call) ==> Holds(s.callers[c], s.callers[c].call))
    && r.dl.subs == s.dl.subs && r.dl.executor == s.dl.executor
    && r.hist.captured == s.hist.captured && r.hist.joined == s.hist.joined && r.hist.led == s.hist.led
  }

  lemma QuietHolders(s: State, r: State, c: Caller)
    requires HoldersOk(s) && AsyncHolders(s) && AsyncQuiet(s, r, c)
    ensures Grows(s, r) && AsyncHolders(r)
  {
    assert HolderOk(s, c) && AsyncHolderOk(s, c) && SameSubs(s, r, s.callers[c].call);
    forall d | d in s.callers && d != c && Holds(s.callers[d], s.callers[d].call) && s.callers[d].k.async
      ensures SameHold(s, r, d)
    {
      assert SameSubs(s, r, s.callers[d].call);
      OtherHold(s, r, d);
    }
    AsyncHoldersAfter(s, r, c);
  }

  lemma QuietLed(s: State, r: State, c: Caller)
    requires HoldersOk(s) && AllLed(s) && SubsOk(s) && AsyncQuiet(s, r, c)
    ensures AllLed(r) && SubsOk(r)
  {
    forall g | g in r.hist.led ensures LedOk(r, g) { assert LedOk(s, g) && SameSubs(s, r, s.hist.led[g].call); }
    forall h | h in r.dl.subs ensures SubOk(r, h) {
      assert SubOk(s, h);
      assert LedOk(s, s.hist.joined[h]) && SameSubs(s, r, s.hist.led[s.hist.joined[h]].call);
    }
  }

  lemma AsyncMove(s: State, r: State, c: Caller)
    requires Sound(s) && Async(s) && AsyncQuiet(s, r, c)
    ensures Async(r)
  {
    QuietHolders(s, r, c);
    QuietLed(s, r, c);
    CapturedAfter(s, r);
  }

  /** Resetting an object nobody holds changes no collecting leader's list. */
  lemma AsyncReset(s: State, c: Caller)
    requires Sound(s) && Async(s) && AtPhase(s, c, Zeroed)
    ensures Async(DoReset(s, c))
  {
    var r, o := DoReset(s, c), s.callers[c].call;
    assert RecyclerOk(s, c);
    NoHolders(s, o);
    assert Grows(s, r);
    forall d | d in s.callers && d != c && Holds(s.callers[d], s.callers[d].call) && s.callers[d].k.async
      ensures SameHold(s, r, d)
    {
      OtherHold(s, r, d);
    }
    AsyncHoldersAfter(s, r, c);
    forall g | g in r.hist.led ensures LedOk(r, g) { assert LedOk(s, g); }
    forall h | h in r.dl.subs ensures SubOk(r, h) { assert SubOk(s, h) && LedOk(s, s.hist.joined[h]); }
    CapturedAfter(s, r);
  }

  lemma AsyncJoin(s: State, c: Caller, k: SfKey)
    requires Sound(s) && Known(s) && Async(s) && c !in s.callers && k in s.core.calls
    requires EntryOk(s, k)
    ensures Async(DoJoin(s, c, k))
  {
    var r, o := DoJoin(s, c, k), s.core.calls[k];
    var g0 := s.hist.leaderOf[o];
    assert HolderOk(s, g0) && AsyncHolderOk(s, g0);
    assert Grows(s, r);
    forall d | d in s.callers && d != c && Holds(s.callers[d], s.callers[d].call) && s.callers[d].k.async
      ensures SameHold(s, r, d)
    {
      OtherHold(s, r, d);
    }
    AsyncHoldersAfter(s, r, c);
    JoinLists(s, c, k);
    CapturedAfter(s, r);
  }

  lemma JoinLists(s: State, c: Caller, k: SfKey)
    requires Sound(s) && Known(s) && Async(s) && c !in s.callers && k in s.core.calls
    requires EntryOk(s, k)
    ensures AllLed(DoJoin(s, c, k)) && SubsOk(DoJoin(s, c, k))
  {
    var r := DoJoin(s, c, k);
    var g0 := s.hist.leaderOf[s.core.calls[k]];
    assert HolderOk(s, g0);
    forall g | g in r.hist.led ensures LedOk(r, g) { assert LedOk(s, g); }
    forall h | h in r.dl.subs ensures SubOk(r, h) {
      if h != c { assert SubOk(s, h) && LedOk(s, s.hist.joined[h]); }
    }
  }

  lemma AsyncOpen(s: State, c: Caller, k: SfKey, obj: CallId)
    requires Sound(s) && Tidy(s) && Known(s) && Async(s) && c !in s.callers && k !in s.core.calls
    requires obj in s.core.pool || obj !in s.core.mem
    ensures Async(DoOpen(s, c, k, obj))
  {
    OpenedIsFree(s, obj);
    OpenedIsBlank(s, obj);
    OpenHolders(s, c, k, obj);
    OpenLists(s, c, k, obj);
    CapturedAfter(s, DoOpen(s, c, k, obj));
  }

  lemma OpenHolders(s: State, c: Caller, k: SfKey, obj: CallId)
    requires HoldersOk(s) && Known(s) && AsyncHolders(s) && c !in s.callers
    requires obj in s.core.mem ==> s.core.mem[obj] == Blank()
    requires forall d :: d in s.callers ==> !Holds(s.callers[d], obj)
    ensures Grows(s, DoOpen(s, c, k, obj)) && AsyncHolders(DoOpen(s, c, k, obj))
  {
    var r := DoOpen(s, c, k, obj);
    forall d | d in s.callers && d != c && Holds(s.callers[d], s.callers[d].call) && s.callers[d].k.async
      ensures SameHold(s, r, d)
    {
      OtherHold(s, r, d);
    }
    AsyncHoldersAfter(s, r, c);
  }

  lemma OpenLists(s: State, c: Caller, k: SfKey, obj: CallId)
    requires Sound(s) && Known(s) && Async(s) && c !in s.callers && k !in s.core.calls
    requires forall d :: d in s.callers ==> !Holds(s.callers[d], obj)
    ensures AllLed(DoOpen(s, c, k, obj)) && SubsOk(DoOpen(s, c, k, obj))
  {
    var r := DoOpen(s, c, k, obj);
    forall g | g in r.hist.led ensures LedOk(r, g) { if g != c { assert LedOk(s, g); } }
    forall h | h in r.dl.subs ensures SubOk(r, h) {
      assert SubOk(s, h) && LedOk(s, s.hist.joined[h]);
    }
  }

  /** addSub: the follower joins its leader's list, or is refused and is in no list. */
  lemma AsyncAddSub(s: State, c: Caller)
    requires Sound(s) && Known(s) && Async(s) && AtPhase(s, c, Subscribing) && c in s.dl.subs
    ensures Async(DoAddSub(s, c))
  {
    var r, o, g := DoAddSub(s, c), s.callers[c].call, s.callers[c].gen;
    assert HolderOk(s, c) && AsyncHolderOk(s, c) && LedOk(s, g) && SubOk(s, c);
    assert Grows(s, r);
    forall d | d in s.callers && d != c && Holds(s.callers[d], s.callers[d].call) && s.callers[d].k.async
      ensures SameHold(s, r, d)
    {
      assert HolderOk(s, d) && AsyncHolderOk(s, d);
      if s.callers[d].at == Lead { AddSubList(s, r, c, d); }
    }
    AsyncHoldersAfter(s, r, c);
    AddSubLists(s, c);
    CapturedAfter(s, r);
  }

  lemma AddSubList(s: State, r: State, c: Caller, d: Caller)
    requires HoldersOk(s) && AsyncHolders(s) && AtPhase(s, c, Subscribing) && c in s.dl.subs && r == DoAddSub(s, c)
    requires d in s.callers && d != c && s.callers[d].at == Lead && s.callers[d].k.async
    requires Grows(s, r)
    ensures s.callers[d].call in r.core.mem && d !in s.hist.captured
    ensures FollowerList(r, d, r.core.mem[s.callers[d].call].subs)
  {
    assert HolderOk(s, c) && HolderOk(s, d) && AsyncHolderOk(s, d) && AsyncHolderOk(s, c);
    var list := s.core.mem[s.callers[d].call].subs;
    ListKept(s, r, d, list);
    if s.callers[d].call == s.callers[c].call {
      ListAppend(r, d, list, c);
    }
  }

  lemma AddSubLists(s: State, c: Caller)
    requires Sound(s) && Async(s) && AtPhase(s, c, Subscribing) && c in s.dl.subs
    ensures AllLed(DoAddSub(s, c)) && SubsOk(DoAddSub(s, c))
  {
    var r, g0 := DoAddSub(s, c), s.callers[c].gen;
    assert HolderOk(s, c) && AsyncHolderOk(s, c) && LedOk(s, g0) && SubOk(s, c);
    forall g | g in r.hist.led ensures LedOk(r, g) { assert LedOk(s, g); }
    forall h | h in r.dl.subs ensures SubOk(r, h) {
      assert SubOk(s, h) && LedOk(s, s.hist.joined[h]);
    }
  }

  /** finishAsync takes exactly the followers registered so far. */
  lemma AsyncCapture(s: State, c: Caller)
    requires Sound(s) && Known(s) && Async(s) && AtPhase(s, c, Lead) && s.callers[c].k.async
    ensures Async(DoCapture(s, c))
  {
    var r, o := DoCapture(s, c), s.callers[c].call;
    assert HolderOk(s, c) && AsyncHolderOk(s, c) && LedOk(s, c);
    assert Grows(s, r);
    forall d | d in s.callers && d != c && Holds(s.callers[d], s.callers[d].call) && s.callers[d].k.async
      ensures SameHold(s, r, d)
    {
      assert HolderOk(s, d) && AsyncHolderOk(s, d);
      if s.callers[d].at == Lead { ListKept(s, r, d, s.core.mem[s.callers[d].call].subs); }
    }
    AsyncHoldersAfter(s, r, c);
    CaptureLists(s, c);
    ListKept(s, r, c, s.core.mem[o].subs);
    forall h | h in r.hist.captured[c] ensures OnItsWay(r, c, h) {}
    assert CapturedOk(r, c);
    CapturedAfter(s, r);
  }

  lemma CaptureLists(s: State, c: Caller)
    requires Sound(s) && Async(s) && AtPhase(s, c, Lead) && s.callers[c].k.async
    ensures AllLed(DoCapture(s, c)) && SubsOk(DoCapture(s, c))
  {
    var r := DoCapture(s, c);
    assert HolderOk(s, c) && AsyncHolderOk(s, c) && LedOk(s, c);
    forall g | g in s.hist.led && g != c
      ensures LedOk(r, g) && LedOk(s, g)
      ensures g !in s.hist.captured && s.hist.led[g].k.async ==> s.hist.led[g].call != s.callers[c].call
    {
      assert LedOk(s, g);
      if g !in s.hist.captured && s.hist.led[g].k.async { assert HolderOk(s, g); }
    }
    forall h | h in r.dl.subs ensures SubOk(r, h) {
      assert SubOk(s, h);
      assert s.hist.joined[h] != c ==> LedOk(s, s.hist.joined[h]);
    }
    assert LedOk(r, c);
  }

  lemma AsyncFanOne(s: State, c: Caller)
    requires Sound(s) && Known(s) && Async(s) && AtPhase(s, c, Fan) && s.callers[c].rest != []
    ensures Async(DoFanOne(s, c))
  {
    var r := DoFanOne(s, c);
    TailMembers(s.callers[c].rest);
    assert HolderOk(s, c) && AsyncHolderOk(s, c) && CapturedOk(s, c);
    assert s.callers[c].rest[0] in s.dl.subs;
    assert Grows(s, r);
    forall d | d in s.callers && d != c && Holds(s.callers[d], s.callers[d].call) && s.callers[d].k.async
      ensures SameHold(s, r, d)
    {
      OtherHold(s, r, d);
    }
    AsyncHoldersAfter(s, r, c);
    FanOneRest(s, c);
  }

  lemma FanOneRest(s: State, c: Caller)
    requires AllLed(s) && SubsOk(s) && AllCaptured(s) && AtPhase(s, c, Fan) && s.callers[c].rest != []
    ensures AllLed(DoFanOne(s, c)) && SubsOk(DoFanOne(s, c)) && AllCaptured(DoFanOne(s, c))
  {
    var r := DoFanOne(s, c);
    TailMembers(s.callers[c].rest);
    forall g | g in r.hist.led ensures LedOk(r, g) { assert LedOk(s, g); }
    forall h | h in r.dl.subs ensures SubOk(r, h) { assert SubOk(s, h); }
    assert Grows(s, r);
    CapturedAfter(s, r);
  }

  /** Firing a subscription, by the executor or by its timer. */
  lemma AsyncFire(s: State, h: Caller, executor: multiset<Caller>)
    requires Async(s) && h in s.dl.subs
    requires forall x :: x in executor ==> x in s.dl.executor
    requires forall x :: x in s.dl.executor && x != h ==> x in executor
    ensures Async(DoFire(s, h, executor))
  {
    var r := DoFire(s, h, executor);
    assert Grows(s, r);
    forall d | d in r.callers ensures AsyncHolderOk(r, d) {
      assert AsyncHolderOk(s, d);
      var p := s.callers[d];
      if Holds(p, p.call) && p.k.async && p.call in s.core.mem && p.at == Lead {
        ListKept(s, r, d, s.core.mem[p.call].subs);
      }
    }
    forall g | g in r.hist.led ensures LedOk(r, g) { assert LedOk(s, g); }
    forall x | x in r.dl.subs ensures SubOk(r, x) { assert SubOk(s, x); }
    CapturedAfter(s, r);
  }

  lemma AsyncElsewhere(s: State, r: State)
    requires Async(s) && r.callers == s.callers && r.hist == s.hist && r.core.mem == s.core.mem && r.dl == s.dl
    ensures Async(r)
  {
    forall d | d in r.callers ensures AsyncHolderOk(r, d) { assert AsyncHolderOk(s, d); }
    forall g | g in r.hist.led ensures LedOk(r, g) { assert LedOk(s, g); }
    forall h | h in r.dl.subs ensures SubOk(r, h) { assert SubOk(s, h); }
    assert Grows(s, r);
    CapturedAfter(s, r);
  }

  lemma AsyncLeader(s: State, t: Step)
    requires Sound(s) && Async(s) && Enabled(s, t)
    requires t.LeaderWrite? || t.LeaderRemove? || t.LeaderClose? || t.FanEnd?
    ensures Async(Apply(s, t))
  {
    assert HolderOk(s, t.c);
    match t {
      case LeaderWrite(c, out) => AsyncMove(s, DoWrite(s, c, out), c);
      case LeaderRemove(c) => AsyncMove(s, DoRemove(s, c), c);
      case LeaderClose(c) => AsyncMove(s, DoClose(s, c), c);
      case FanEnd(c) => AsyncMove(s, s.(callers := Go(s, c, Releasing)), c);
    }
  }

  lemma AsyncFollower(s: State, t: Step)
    requires Sound(s) && Async(s) && Enabled(s, t)
    requires t.FollowerSelect? || t.FollowerDone? || t.FollowerGiveUp? || t.FollowerRead?
    ensures Async(Apply(s, t))
  {
    assert HolderOk(s, t.c);
    match t {
      case FollowerSelect(c) => AsyncMove(s, DoSelect(s, c), c);
      case FollowerDone(c) => AsyncMove(s, s.(callers := Go(s, c, Saw)), c);
      case FollowerGiveUp(c) => AsyncMove(s, s.(callers := Go(s, c, Releasing)), c);
      case FollowerRead(c) => AsyncMove(s, DoRead(s, c), c);
    }
  }

  lemma AsyncStep(s: State, t: Step)
    requires Sound(s) && Tidy(s) && Known(s) && Async(s) && Enabled(s, t)
    ensures Async(Apply(s, t))
  {
    match t {
      case Acquire(c, k, obj) =>
        if k in s.core.calls {
          assert EntryOk(s, k);
          AsyncJoin(s, c, k);
        } else {
          AsyncOpen(s, c, k, obj);
        }
      case LeaderCapture(c) => AsyncCapture(s, c);
      case FanOne(c) => AsyncFanOne(s, c);
      case FollowerAddSub(c) => AsyncAddSub(s, c);
      case Decrement(c) => AsyncMove(s, DoDecrement(s, c), c);
      case ResetCall(c) => AsyncReset(s, c);
      case PutCall(c) => AsyncMove(s, DoPut(s, c), c);
      case Execute(h) => AsyncFire(s, h, s.dl.executor - multiset{h});
      case TimerFires(h) => AsyncFire(s, h, s.dl.executor);
      case PoolDrops(_) => AsyncElsewhere(s, Apply(s, t));
      case FollowerSelect(_) => AsyncFollower(s, t);
      case FollowerDone(_) => AsyncFollower(s, t);
      case FollowerGiveUp(_) => AsyncFollower(s, t);
      case FollowerRead(_) => AsyncFollower(s, t);
      case _ => AsyncLeader(s, t);
    }
  }
}
