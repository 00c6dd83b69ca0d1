/**
 What singleflight does for its callers, over every run: what a follower finds is
 what its leader's request returned, and nobody is left behind (client.go,
 callSingleflight and callAsyncSingleflight; singleflight.go).
 */
module SfAnswers {
  import opened Prelude
  import opened SharedResult
  import opened SfModel
  import opened SfProofs
  import opened SfTidy
  import opened SfDelivery
  import opened SfAsync
  import opened SfTheorems

  // ----------------------------------------------------------------- the pool

  /** o is out of the pool, and nobody has it any more. */
  ghost predicate Gone(s: State, o: CallId) {
    && o in s.core.mem && o !in s.core.pool
    && (forall k :: k in s.core.calls ==> s.core.calls[k] != o)
    && (forall c :: c in s.callers && s.callers[c].call == o ==> s.callers[c].at == Finished)
  }

  lemma GoneAcquire(s: State, c: Caller, k: SfKey, obj: CallId, o: CallId)
    requires Enabled(s, Acquire(c, k, obj)) && Gone(s, o)
    ensures Gone(Apply(s, Acquire(c, k, obj)), o)
  {
  }

  lemma GoneLeader(s: State, t: Step, o: CallId)
    requires Enabled(s, t) && ByLeader(t) && !t.Acquire? && Gone(s, o)
    ensures Gone(Apply(s, t), o)
  {
  }

  lemma GoneFollower(s: State, t: Step, o: CallId)
    requires Enabled(s, t) && ByFollower(t) && Gone(s, o)
    ensures Gone(Apply(s, t), o)
  {
  }

  lemma GoneElse(s: State, t: Step, o: CallId)
    requires Enabled(s, t) && !ByLeader(t) && !ByFollower(t) && Gone(s, o)
    ensures Gone(Apply(s, t), o)
  {
  }

  lemma GoneStays(s: State, t: Step, o: CallId)
    requires Enabled(s, t) && Gone(s, o)
    ensures Gone(Apply(s, t), o)
  {
    if t.Acquire? {
      GoneAcquire(s, t.c, t.key, t.obj, o);
    } else if ByLeader(t) {
      GoneLeader(s, t, o);
    } else if ByFollower(t) {
      GoneFollower(s, t, o);
    } else {
      GoneElse(s, t, o);
    }
  }

  lemma DropsLast(s: State, o: CallId)
    requires Enabled(s, PoolDrops(o)) && o in s.core.mem && s.core.pool[o] == 1
    requires forall k :: k in s.core.calls ==> s.core.calls[k] != o
    requires forall c :: c in s.callers ==> !Holds(s.callers[c], o) && !Recycles(s.callers[c], o)
    ensures Gone(Apply(s, PoolDrops(o)), o)
  {
  }

  lemma DroppedIsGone(tr: seq<State>, steps: seq<Step>, i: nat, o: CallId)
    requires IsRun(tr, steps) && i < |steps| && steps[i] == PoolDrops(o)
    ensures Gone(tr[i + 1], o)
  {
    PooledIsUnused(tr, steps, i, o);
    DropsLast(tr[i], o);
  }

  lemma GoneNext(tr: seq<State>, steps: seq<Step>, i: nat, o: CallId)
    requires IsRun(tr, steps) && i < |steps| && Gone(tr[i], o)
    ensures Gone(tr[i + 1], o)
  {
    GoneStays(tr[i], steps[i], o);
  }

  /** A call the garbage collector took from the pool is never led, joined or pooled again. */
  lemma {:induction false} DroppedIsNeverReused(tr: seq<State>, steps: seq<Step>, i: nat, j: nat, o: CallId)
    requires IsRun(tr, steps) && i < j < |tr| && steps[i] == PoolDrops(o)
    ensures Gone(tr[j], o)
  {
    if i + 1 == j {
      DroppedIsGone(tr, steps, i, o);
    } else {
      DroppedIsNeverReused(tr, steps, i, j - 1, o);
      GoneNext(tr, steps, j - 1, o);
    }
  }

  // ---------------------------------------------------------- the publication

  /** Leader g has published out. */
  predicate HasPublished(s: State, g: Caller, out: Outcome) {
    g in s.callers && s.callers[g].at != Lead && g in s.hist.published && s.hist.published[g] == out
  }

  // A follower's step, a release, a handler call or the pool leaves the leaders and what they wrote alone.

  predicate ByLeader(t: Step) {
    t.Acquire? || t.LeaderWrite? || t.LeaderRemove? || t.LeaderClose? || t.LeaderCapture? || t.FanOne? || t.FanEnd?
  }

  predicate Leading(s: State, g: Caller) { g in s.callers && s.callers[g].at in {Lead, Wrote, Removed} }

  predicate Keeps(s: State, r: State, g: Caller) {
    && r.hist.led == s.hist.led && r.hist.published == s.hist.published && r.dl.closed == s.dl.closed
    && (g in s.callers <==> g in r.callers)
    && (Leading(s, g) || Leading(r, g) ==> g in s.callers && g in r.callers && r.callers[g].at == s.callers[g].at)
  }

  predicate ByFollower(t: Step) {
    t.FollowerSelect? || t.FollowerDone? || t.FollowerGiveUp? || t.FollowerRead? || t.FollowerAddSub?
  }

  lemma FollowerKeeps(s: State, t: Step, g: Caller)
    requires Enabled(s, t) && ByFollower(t)
    ensures Keeps(s, Apply(s, t), g)
  {
  }

  lemma OthersKeep(s: State, t: Step, g: Caller)
    requires Enabled(s, t) && !ByLeader(t)
    ensures Keeps(s, Apply(s, t), g)
  {
    if ByFollower(t) { FollowerKeeps(s, t, g); }
  }

  /** Only LeaderWrite publishes, and only Acquire makes a caller a leader. */
  lemma OnlyWritePublishes(s: State, t: Step)
    requires Enabled(s, t) && !t.LeaderWrite?
    ensures Apply(s, t).hist.published == s.hist.published
  {
    if !ByLeader(t) { OthersKeep(s, t, 0); }
  }

  lemma OnlyAcquireLeads(s: State, t: Step, g: Caller)
    requires Enabled(s, t) && g in s.callers && s.callers[g].at != Lead
    ensures g in Apply(s, t).callers && Apply(s, t).callers[g].at != Lead
  {
    if !ByLeader(t) { OthersKeep(s, t, g); }
  }

  lemma PublishedStays(s: State, t: Step, g: Caller, out: Outcome)
    requires Enabled(s, t) && HasPublished(s, g, out)
    ensures HasPublished(Apply(s, t), g, out)
  {
    OnlyAcquireLeads(s, t, g);
    if !t.LeaderWrite? { OnlyWritePublishes(s, t); }
  }

  /** What a blocking leader gives to finish is what it has published from then on. */
  lemma {:induction false} PublishedIsWritten(
    tr: seq<State>, steps: seq<Step>, n: nat, i: nat, g: Caller, out: Outcome)
    requires IsRun(tr, steps) && n < i < |tr| && steps[n] == LeaderWrite(g, out)
    ensures HasPublished(tr[i], g, out)
  {
    if n + 1 < i {
      PublishedIsWritten(tr, steps, n, i - 1, g, out);
      PublishedStays(tr[i - 1], steps[i - 1], g, out);
    }
  }

  lemma PublishedStep(s: State, t: Step, g: Caller)
    requires Enabled(s, t) && g in Apply(s, t).hist.published
    ensures var out := Apply(s, t).hist.published[g];
            t == LeaderWrite(g, out) || (g in s.hist.published && s.hist.published[g] == out)
  {
    if !t.LeaderWrite? { OnlyWritePublishes(s, t); }
  }

  /** And nothing else is published. */
  lemma {:induction false} PublishedWasWritten(tr: seq<State>, steps: seq<Step>, i: nat, g: Caller) returns (n: nat)
    requires IsRun(tr, steps) && i < |tr| && g in tr[i].hist.published
    ensures n < i && steps[n] == LeaderWrite(g, tr[i].hist.published[g])
  {
    PublishedStep(tr[i - 1], steps[i - 1], g);
    if steps[i - 1] == LeaderWrite(g, tr[i].hist.published[g]) {
      n := i - 1;
    } else {
      n := PublishedWasWritten(tr, steps, i - 1, g);
    }
  }

  /**
   End to end, from the reply alone: when the leader it joined got data, a
   follower finds the payload in a text target of any old content, and in any
   other target what the codec makes of it (or of a zero one, if the follower
   copies); or the leader's decoding error.
   */
  lemma FollowerFindsTheLeadersReply(
    tr: seq<State>, steps: seq<Step>, n: nat, i: nat, c: Caller,
    um: Unmarshal, data: Bytes, leader: Rsp, typ: string, was: Bytes)
    requires IsRun(tr, steps) && n < i < |tr| && c in tr[i].hist.saw && c in tr[i].hist.joined
    requires steps[n] == LeaderWrite(tr[i].hist.joined[c], LeaderOutcome(um, Ok(data), leader))
    ensures var rsp := Pointer(GoValue(typ, was));
            var got := FollowerResult(um, tr[i].hist.saw[c], rsp);
            && (forall e :: LeaderFails(um, data, leader, e) ==> got == Failed(e))
            && ((forall e :: !LeaderFails(um, data, leader, e)) ==>
                  got == if typ in {"string", "[]byte"} then Decoded(Pointer(GoValue(typ, data)))
                         else Filled(typ, um(data, if Copies(leader, rsp) then Pointer(GoValue(typ, [])) else rsp)))
  {
    FollowerReadsItsLeader(tr, steps, i, c);
    PublishedIsWritten(tr, steps, n, i, tr[i].hist.joined[c], LeaderOutcome(um, Ok(data), leader));
    FollowerFindsTheReply(um, data, leader, typ, was);
  }

  // --------------------------------------------------------------- joining

  /** acquire makes the caller a follower of the entry's leader if there is one, and else the leader of a new entry. */
  lemma AcquireJoinsOrLeads(tr: seq<State>, steps: seq<Step>, i: nat, c: Caller, k: SfKey, obj: CallId)
    requires IsRun(tr, steps) && i < |steps| && steps[i] == Acquire(c, k, obj)
    ensures c in tr[i + 1].callers && tr[i + 1].callers[c].k == k && k in tr[i + 1].core.calls
    ensures tr[i + 1].callers[c].call == tr[i + 1].core.calls[k]
    ensures k !in tr[i].core.calls ==> tr[i + 1].callers[c].at == Lead && tr[i + 1].callers[c].gen == c
    ensures k in tr[i].core.calls ==>
              && tr[i + 1].core.calls == tr[i].core.calls && IsFollower(tr[i + 1].callers[c])
              && c in tr[i + 1].hist.joined && tr[i + 1].hist.joined[c] in tr[i].callers
              && var l := tr[i].callers[tr[i + 1].hist.joined[c]];
                 Unfinished(l) && l.k == k && l.call == tr[i].core.calls[k]
  {
    RunKeepsInv(tr, steps, i);
    assert k in tr[i].core.calls ==> EntryOk(tr[i], k);
  }

  // ------------------------------------------------------------- being woken

  /** A blocking leader that has not closed its done yet is on its way there. */
  ghost predicate CloserOk(s: State, g: Caller)
    requires g in s.hist.led
  {
    !s.hist.led[g].k.async && g !in s.dl.closed ==>
      g in s.callers && s.callers[g].at in {Lead, Wrote, Removed}
  }

  ghost predicate ClosersOk(s: State) {
    forall g {:trigger CloserOk(s, g)} ::
      g in s.hist.led ==> CloserOk(s, g)
  }

  lemma CloseClosers(s: State, c: Caller)
    requires Inv(s) && ClosersOk(s) && AtPhase(s, c, Removed)
    ensures ClosersOk(DoClose(s, c))
  {
    var r := DoClose(s, c);
    assert HolderOk(s, c) && WaiterOk(s, c);
    forall g | g in r.hist.led ensures CloserOk(r, g) { assert CloserOk(s, g); }
  }

  lemma AcquireClosers(s: State, c: Caller, k: SfKey, obj: CallId)
    requires Inv(s) && ClosersOk(s) && Enabled(s, Acquire(c, k, obj))
    ensures ClosersOk(Apply(s, Acquire(c, k, obj)))
  {
    var r := Apply(s, Acquire(c, k, obj));
    forall g | g in r.hist.led ensures CloserOk(r, g) { if g in s.hist.led { assert CloserOk(s, g); } }
  }

  lemma LedStays(s: State, t: Step)
    requires Enabled(s, t) && !t.Acquire?
    ensures Apply(s, t).hist.led == s.hist.led
  {
    if !ByLeader(t) { OthersKeep(s, t, 0); }
  }

  lemma CloserStays(s: State, t: Step, g: Caller)
    requires Enabled(s, t) && !t.LeaderClose? && !t.Acquire? && g in s.hist.led && CloserOk(s, g)
    requires t == LeaderCapture(g) ==> s.hist.led[g].k.async
    ensures g in Apply(s, t).hist.led && CloserOk(Apply(s, t), g)
  {
    if !ByLeader(t) { OthersKeep(s, t, g); }
  }

  lemma OtherClosers(s: State, t: Step)
    requires Inv(s) && ClosersOk(s) && Enabled(s, t) && !t.LeaderClose? && !t.Acquire?
    ensures ClosersOk(Apply(s, t))
  {
    LedStays(s, t);
    forall g | g in s.hist.led ensures CloserOk(Apply(s, t), g) {
      assert CloserOk(s, g);
      if t == LeaderCapture(g) { assert HolderOk(s, g); }
      CloserStays(s, t, g);
    }
  }

  lemma {:induction false} RunKeepsClosers(tr: seq<State>, steps: seq<Step>, i: nat)
    requires IsRun(tr, steps) && i < |tr|
    ensures ClosersOk(tr[i])
  {
    if i > 0 {
      RunKeepsClosers(tr, steps, i - 1);
      RunKeepsInv(tr, steps, i - 1);
      if steps[i - 1].LeaderClose? {
        CloseClosers(tr[i - 1], steps[i - 1].c);
      } else if steps[i - 1].Acquire? {
        AcquireClosers(tr[i - 1], steps[i - 1].c, steps[i - 1].key, steps[i - 1].obj);
      } else {
        OtherClosers(tr[i - 1], steps[i - 1]);
      }
    }
  }

  /** A waiting follower can go on as soon as its leader is past closing done. */
  lemma WaitingIsWoken(tr: seq<State>, steps: seq<Step>, i: nat, c: Caller)
    requires IsRun(tr, steps) && i < |tr| && AtPhase(tr[i], c, Waiting)
    ensures var g := tr[i].callers[c].gen;
            Enabled(tr[i], FollowerDone(c)) ||
            (g in tr[i].callers && tr[i].callers[g].at in {Lead, Wrote, Removed})
  {
    RunKeepsInv(tr, steps, i);
    RunKeepsClosers(tr, steps, i);
    assert HolderOk(tr[i], c) && WaiterOk(tr[i], c) && CloserOk(tr[i], tr[i].callers[c].gen);
  }

  /** What it reads then is what its leader published. */
  lemma WokenReadsItsLeader(tr: seq<State>, steps: seq<Step>, i: nat, c: Caller)
    requires IsRun(tr, steps) && i < |steps| && steps[i] == FollowerRead(c)
    ensures c in tr[i].callers && c in tr[i + 1].hist.saw && tr[i].callers[c].gen in tr[i].hist.published
    ensures tr[i + 1].hist.saw[c] == tr[i].hist.published[tr[i].callers[c].gen]
  {
    RunKeepsInv(tr, steps, i);
    assert HolderOk(tr[i], c) && WaiterOk(tr[i], c);
  }

  // -------------------------------------------------------------- going on

  /** How much of its code a caller has before it. */
  function Ahead(at: Phase): (n: nat) {
    match at
    case Lead => 9
    case Wrote => 8
    case Removed => 7
    case Fan => 6
    case Joined => 6
    case Waiting => 5
    case Saw => 4
    case Subscribing => 4
    case Releasing => 3
    case Zeroed => 2
    case Blanked => 1
    case Finished => 0
  }

  predicate Later(p: Pc, q: Pc) { Ahead(q.at) < Ahead(p.at) || (q.at == p.at && |q.rest| < |p.rest|) }

  /** Step t takes caller c further and moves nobody else. */
  ghost predicate Advances(s: State, c: Caller, t: Step)
    requires c in s.callers
  {
    && Enabled(s, t)
    && c in Apply(s, t).callers && Apply(s, t).callers == s.callers[c := Apply(s, t).callers[c]]
    && Later(s.callers[c], Apply(s, t).callers[c])
  }

  lemma LeaderGoesOn(s: State, c: Caller) returns (t: Step)
    requires Inv(s) && c in s.callers && IsLeader(s.callers[c])
    ensures Advances(s, c, t)
  {
    assert HolderOk(s, c) && AsyncHolderOk(s, c);
    match s.callers[c].at {
      case Lead => t := if s.callers[c].k.async then LeaderCapture(c) else LeaderWrite(c, NoOutcome);
      case Wrote => t := LeaderRemove(c);
      case Removed => t := LeaderClose(c);
      case Fan => t := if s.callers[c].rest == [] then FanEnd(c) else FanOne(c);
    }
  }

  lemma FollowerGoesOn(s: State, c: Caller) returns (t: Step)
    requires Inv(s) && c in s.callers && IsFollower(s.callers[c])
    ensures Advances(s, c, t)
  {
    assert HolderOk(s, c) && AsyncHolderOk(s, c);
    match s.callers[c].at {
      case Joined => t := FollowerSelect(c);
      case Waiting => t := FollowerGiveUp(c);
      case Saw => t := FollowerRead(c);
      case Subscribing => t := FollowerAddSub(c);
    }
  }

  lemma ReleaserGoesOn(s: State, c: Caller) returns (t: Step)
    requires Inv(s) && c in s.callers && s.callers[c].at in {Releasing, Zeroed, Blanked}
    ensures Advances(s, c, t)
  {
    assert HolderOk(s, c) && RecyclerOk(s, c);
    match s.callers[c].at {
      case Releasing => t := Decrement(c);
      case Zeroed => t := ResetCall(c);
      case Blanked => t := PutCall(c);
    }
  }

  /** No caller is ever stuck: each has a step of its own that takes it further, until it is finished. */
  lemma EveryCallerGoesOn(tr: seq<State>, steps: seq<Step>, i: nat, c: Caller) returns (t: Step)
    requires IsRun(tr, steps) && i < |tr| && c in tr[i].callers && tr[i].callers[c].at != Finished
    ensures Advances(tr[i], c, t)
  {
    RunKeepsInv(tr, steps, i);
    if IsLeader(tr[i].callers[c]) {
      t := LeaderGoesOn(tr[i], c);
    } else if IsFollower(tr[i].callers[c]) {
      t := FollowerGoesOn(tr[i], c);
    } else {
      t := ReleaserGoesOn(tr[i], c);
    }
  }

  /** A follower with the executor can run, and then its handler has run. */
  lemma ExecutedIsCalled(tr: seq<State>, steps: seq<Step>, i: nat, h: Caller)
    requires IsRun(tr, steps) && i < |tr| && h in tr[i].dl.executor
    ensures Enabled(tr[i], Execute(h)) && Apply(tr[i], Execute(h)).dl.subs[h].runs == 1
    ensures Apply(tr[i], Execute(h)).dl.executor == tr[i].dl.executor - multiset{h}
  {
    RunKeepsInv(tr, steps, i);
    assert SubOk(tr[i], h);
  }

  /** A caller is finished only after its reference was given back: its decrement is the last it does to a held call. */
  lemma ReleaseDropsOneReference(tr: seq<State>, steps: seq<Step>, i: nat, c: Caller)
    requires IsRun(tr, steps) && i < |steps| && steps[i] == Decrement(c)
    ensures var o := tr[i].callers[c].call;
            && o in tr[i].core.mem && o in tr[i + 1].core.mem
            && tr[i + 1].core.mem[o].refs == tr[i].core.mem[o].refs - 1
            && tr[i + 1].callers[c].at == if |Holders(tr[i].callers, o)| == 1 then Zeroed else Finished
  {
    RunKeepsInv(tr, steps, i);
  }

  /** The last holder puts the call, reset, into the pool. */
  lemma LastHolderPools(tr: seq<State>, steps: seq<Step>, i: nat, c: Caller)
    requires IsRun(tr, steps) && i < |tr| && AtPhase(tr[i], c, Zeroed)
    ensures Enabled(tr[i], ResetCall(c)) && Enabled(Apply(tr[i], ResetCall(c)), PutCall(c))
    ensures var r, o := Apply(Apply(tr[i], ResetCall(c)), PutCall(c)), tr[i].callers[c].call;
            r.core.pool[o] == 1 && r.core.mem[o] == Blank() && r.callers[c].at == Finished
  {
    RunKeepsInv(tr, steps, i);
    assert RecyclerOk(tr[i], c);
  }

  // ---------------------------------------------------------- what can happen

  lemma Continue(tr: seq<State>, steps: seq<Step>, t: Step) returns (more: seq<State>, longer: seq<Step>)
    requires IsRun(tr, steps) && Enabled(tr[|steps|], t)
    ensures more == tr + [Apply(tr[|steps|], t)] && longer == steps + [t] && IsRun(more, longer)
  {
    more, longer := tr + [Apply(tr[|steps|], t)], steps + [t];
    assert forall i {:trigger longer[i]} :: 0 <= i < |steps| ==> longer[i] == steps[i];
  }

  /** The run goes on. */
  ghost predicate Extends(tr: seq<State>, steps: seq<Step>, tr': seq<State>, steps': seq<Step>) {
    IsRun(tr', steps') && |steps| < |steps'| && tr <= tr' && steps <= steps'
  }

  /** g leads a call of key k that h follows, each at the given point. */
  predicate Pair(s: State, k: SfKey, g: Caller, at: Phase, h: Caller, at': Phase) {
    && g != h && AtPhase(s, g, at) && AtPhase(s, h, at') && s.callers[g].k == s.callers[h].k == k
    && s.callers[g].call == s.callers[h].call && s.callers[g].gen == s.callers[h].gen == g
  }

  /** Any run goes on with two new callers of an idle key: the first leads, the second follows. */
  lemma PairCanMeet(tr: seq<State>, steps: seq<Step>, k: SfKey, g: Caller, h: Caller, obj: CallId)
    returns (tr': seq<State>, steps': seq<Step>)
    requires IsRun(tr, steps) && g != h && g !in tr[|steps|].callers && h !in tr[|steps|].callers
    requires k !in tr[|steps|].core.calls && (obj in tr[|steps|].core.pool || obj !in tr[|steps|].core.mem)
    ensures Extends(tr, steps, tr', steps')
    ensures Pair(tr'[|steps'|], k, g, Lead, h, if k.async then Subscribing else Joined)
    ensures k.async ==> h in tr'[|steps'|].dl.subs && tr'[|steps'|].dl.subs[h] == Sub(false, 0, Created)
  {
    tr', steps' := Continue(tr, steps, Acquire(g, k, obj));
    tr', steps' := Continue(tr', steps', Acquire(h, k, obj));
  }

  /** A blocking pair: the leader publishes while the follower waits. */
  lemma LeaderCanPublish(tr: seq<State>, steps: seq<Step>, k: SfKey, g: Caller, h: Caller, out: Outcome)
    returns (tr': seq<State>, steps': seq<Step>)
    requires IsRun(tr, steps) && !k.async && Pair(tr[|steps|], k, g, Lead, h, Joined)
    ensures Extends(tr, steps, tr', steps') && Pair(tr'[|steps'|], k, g, Releasing, h, Waiting)
    ensures HasPublished(tr'[|steps'|], g, out)
  {
    tr', steps' := Continue(tr, steps, FollowerSelect(h));
    tr', steps' := Continue(tr', steps', LeaderWrite(g, out));
    tr', steps' := Continue(tr', steps', LeaderRemove(g));
    tr', steps' := Continue(tr', steps', LeaderClose(g));
  }

  lemma FollowerCanRead(tr: seq<State>, steps: seq<Step>, k: SfKey, g: Caller, h: Caller, out: Outcome)
    returns (tr': seq<State>, steps': seq<Step>)
    requires IsRun(tr, steps) && Pair(tr[|steps|], k, g, Releasing, h, Waiting) && HasPublished(tr[|steps|], g, out)
    ensures Extends(tr, steps, tr', steps') && Pair(tr'[|steps'|], k, g, Releasing, h, Releasing)
    ensures h in tr'[|steps'|].hist.saw && tr'[|steps'|].hist.saw[h] == out
  {
    WaitingIsWoken(tr, steps, |steps|, h);
    tr', steps' := Continue(tr, steps, FollowerDone(h));
    var n := |steps'|;
    tr', steps' := Continue(tr', steps', FollowerRead(h));
    WokenReadsItsLeader(tr', steps', n, h);
  }

  /** So any run goes on to a follower that read the very outcome its leader was given. */
  lemma OutcomeCanReachAFollower(
    tr: seq<State>, steps: seq<Step>, k: SfKey, g: Caller, h: Caller, obj: CallId, out: Outcome)
    returns (tr': seq<State>, steps': seq<Step>)
    requires IsRun(tr, steps) && g != h && g !in tr[|steps|].callers && h !in tr[|steps|].callers && !k.async
    requires k !in tr[|steps|].core.calls && (obj in tr[|steps|].core.pool || obj !in tr[|steps|].core.mem)
    ensures Extends(tr, steps, tr', steps') && h in tr'[|steps'|].hist.saw && tr'[|steps'|].hist.saw[h] == out
  {
    tr', steps' := PairCanMeet(tr, steps, k, g, h, obj);
    tr', steps' := LeaderCanPublish(tr', steps', k, g, h, out);
    tr', steps' := FollowerCanRead(tr', steps', k, g, h, out);
  }

  /** An async pair: the follower registers, and the leader takes it. */
  lemma LeaderCanCapture(tr: seq<State>, steps: seq<Step>, k: SfKey, g: Caller, h: Caller)
    returns (tr': seq<State>, steps': seq<Step>)
    requires IsRun(tr, steps) && k.async && Pair(tr[|steps|], k, g, Lead, h, Subscribing) && h in tr[|steps|].dl.subs
    ensures Extends(tr, steps, tr', steps') && Pair(tr'[|steps'|], k, g, Fan, h, Releasing)
    ensures h in tr'[|steps'|].callers[g].rest
  {
    RunKeepsInv(tr, steps, |steps|);
    assert HolderOk(tr[|steps|], g) && HolderOk(tr[|steps|], h);
    assert AsyncHolderOk(tr[|steps|], g) && AsyncHolderOk(tr[|steps|], h);
    tr', steps' := Continue(tr, steps, FollowerAddSub(h));
    tr', steps' := Continue(tr', steps', LeaderCapture(g));
  }

  /** And hands out its followers until h is with the executor. */
  lemma {:induction false} LeaderCanHandOut(tr: seq<State>, steps: seq<Step>, g: Caller, h: Caller)
    returns (tr': seq<State>, steps': seq<Step>)
    requires IsRun(tr, steps) && AtPhase(tr[|steps|], g, Fan) && h in tr[|steps|].callers[g].rest
    ensures Extends(tr, steps, tr', steps') && h in tr'[|steps'|].dl.executor
    decreases |tr[|steps|].callers[g].rest|
  {
    var first := tr[|steps|].callers[g].rest[0];
    tr', steps' := Continue(tr, steps, FanOne(g));
    if first != h {
      tr', steps' := LeaderCanHandOut(tr', steps', g, h);
    }
  }

  /** So any run goes on to an async follower whose handler the fan-out has called. */
  lemma FanOutCanReachAFollower(tr: seq<State>, steps: seq<Step>, k: SfKey, g: Caller, h: Caller, obj: CallId)
    returns (tr': seq<State>, steps': seq<Step>)
    requires IsRun(tr, steps) && g != h && g !in tr[|steps|].callers && h !in tr[|steps|].callers && k.async
    requires k !in tr[|steps|].core.calls && (obj in tr[|steps|].core.pool || obj !in tr[|steps|].core.mem)
    ensures Extends(tr, steps, tr', steps') && h in tr'[|steps'|].dl.subs && tr'[|steps'|].dl.subs[h].runs == 1
  {
    tr', steps' := PairCanMeet(tr, steps, k, g, h, obj);
    tr', steps' := LeaderCanCapture(tr', steps', k, g, h);
    tr', steps' := LeaderCanHandOut(tr', steps', g, h);
    ExecutedIsCalled(tr', steps', |steps'|, h);
    tr', steps' := Continue(tr', steps', Execute(h));
  }

  /** The timer of a follower can call its handler at any time; a follower may give up, and a pool lose a call. */
  lemma TimerCanFire(tr: seq<State>, steps: seq<Step>, h: Caller) returns (tr': seq<State>, steps': seq<Step>)
    requires IsRun(tr, steps) && h in tr[|steps|].dl.subs
    ensures Extends(tr, steps, tr', steps') && h in tr'[|steps'|].dl.subs && tr'[|steps'|].dl.subs[h].runs == 1
    ensures tr'[|steps'|] == tr[|steps|].(dl := tr'[|steps'|].dl)
  {
    tr', steps' := Continue(tr, steps, TimerFires(h));
    HandlerExactlyOnce(tr', steps', |steps|, |steps| + 1, h);
  }
}
