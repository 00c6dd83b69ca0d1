/**
 The reference count of one Message through Server.Broadcast (server.go): any
 number of Clients push it, and their queues, send loops and drains go on after
 Broadcast has returned (client.go, proto.go). A path runs its acts one by one,
 interleaved with all others, so that nothing here says that a reference has
 one owner: that is proved.
 */
module MessageRefs {
  import opened Prelude
  import opened MessageCallbacks

  type ClientId = nat
  type HandlerId = nat

  /** PushMsg for one Client: not called yet, or what it still has to do. */
  datatype Push = Before | Doing(acts: seq<Act>)

  /** ref as in the Message; freeing: Release calls that reached -1; frees: Handler.Free calls done. */
  datatype State = State(
    ref: int,
    caster: bool,                         // Broadcast still holds its own reference
    push: map<ClientId, Push>,
    queued: multiset<ClientId>,           // in chSend, or in the writev queue
    loops: map<ClientId, seq<Act>>,       // what the goroutine that took it out still has to do
    over: set<ClientId>,                  // the send loop has returned, or the writev queue was drained for good
    freeing: nat,
    frees: nat,
    // History.
    releases: multiset<ClientId>,
    seen: map<ClientId, (Reads, Wait)>,   // what PushMsg read
    handled: map<ClientId, Handling>)     // how the queue's owner ended it

  /** newMessage: count 0, held by Broadcast. */
  const Start := State(0, true, map[], multiset{}, map[], {}, 0, 0, multiset{}, map[], map[])

  datatype Step =
    | Retain(c: ClientId)                             // in Broadcast's loop, before PushMsg
    | Pushes(c: ClientId, seen: Reads, wait: Wait)    // PushMsg, up to its decision
    | PusherActs(c: ClientId)
    | LoopTakes(c: ClientId, how: Handling)
    | LoopActs(c: ClientId)
    | LoopEnds(c: ClientId)                           // finds the queue empty after the Client stopped
    | CasterReleases
    | Frees

  function PusherTodo(s: State, c: ClientId): (acts: seq<Act>) {
    if c in s.push && s.push[c].Doing? then s.push[c].acts else []
  }

  function LoopTodo(s: State, c: ClientId): (acts: seq<Act>) { if c in s.loops then s.loops[c] else [] }

  predicate Enabled(e: Env<HandlerId>, s: State, u: Step) {
    match u
    case Retain(c) => s.caster && c !in s.push
    // pushWritev reads running and appends in one critical section: after the last drain running is false.
    case Pushes(c, seen, _) => c in s.push && s.push[c] == Before && (e.asyncWritev && c in s.over ==> !seen.running)
    case PusherActs(c) => PusherTodo(s, c) != []
    case LoopTakes(c, how) => c in s.queued && c !in s.over && LoopTodo(s, c) == [] && (how.Clears? ==> !e.asyncWritev)
    case LoopActs(c) => LoopTodo(s, c) != []
    case LoopEnds(c) => c !in s.queued && LoopTodo(s, c) == []
    case CasterReleases => s.caster
    case Frees => s.freeing > 0
  }

  /** Release: whoever brings the count to -1 frees. */
  function Released(s: State): (r: State) {
    s.(ref := s.ref - 1, freeing := if s.ref - 1 == -1 then s.freeing + 1 else s.freeing)
  }

  /** One act for Client c. */
  function Perform(s: State, c: ClientId, a: Act): (r: State) {
    match a
    case Write => s
    case Release => Released(s).(releases := s.releases + multiset{c})
    case Enqueue => s.(queued := s.queued + multiset{c})
  }

  function DoPush(e: Env<HandlerId>, s: State, c: ClientId, seen: Reads, wait: Wait): (r: State) {
    var acts := PushMsg(e, seen, wait);
    var n := s.(seen := s.seen[c := (seen, wait)]);
    if acts != [] && acts[0] == Enqueue then Perform(n, c, Enqueue).(push := s.push[c := Doing(acts[1..])])
    else n.(push := s.push[c := Doing(acts)])
  }

  function Apply(e: Env<HandlerId>, s: State, u: Step): (r: State)
    requires Enabled(e, s, u)
  {
    match u
    case Retain(c) => s.(ref := s.ref + 1, push := s.push[c := Before])
    case Pushes(c, seen, wait) => DoPush(e, s, c, seen, wait)
    case PusherActs(c) =>
      var acts := PusherTodo(s, c);
      Perform(s.(push := s.push[c := Doing(acts[1..])]), c, acts[0])
    case LoopTakes(c, how) =>
      s.(queued := s.queued - multiset{c}, loops := s.loops[c := Handle(e, how)], handled := s.handled[c := how])
    case LoopActs(c) =>
      var acts := LoopTodo(s, c);
      Perform(s.(loops := s.loops[c := acts[1..]]), c, acts[0])
    case LoopEnds(c) => s.(over := s.over + {c})
    case CasterReleases => Released(s.(caster := false))
    case Frees => s.(freeing := s.freeing - 1, frees := s.frees + 1)
  }

  ghost predicate IsRun(e: Env<HandlerId>, tr: seq<State>, steps: seq<Step>) {
    && |tr| == |steps| + 1
    && tr[0] == Start
    && forall i {:trigger steps[i]} ::
         0 <= i < |steps| ==> Enabled(e, tr[i], steps[i]) && tr[i + 1] == Apply(e, tr[i], steps[i])
  }

  // ---------------------------------------------------------------- invariant

  /** Clients that were given a reference and have not released it. */
  ghost function Holders(s: State): (r: set<ClientId>) { set c | c in s.push && s.releases[c] == 0 }

  ghost function HolderCount(s: State): (n: nat) { |Holders(s)| + if s.caster then 1 else 0 }

  /** The releases the paths Client c has taken add up to; a queued Message counts as one. */
  ghost function Due(e: Env<HandlerId>, s: State, c: ClientId): (n: nat)
    requires c in s.seen
  {
    if !Queues(e, s.seen[c].0) then Count(PushMsg(e, s.seen[c].0, s.seen[c].1), Release)
    else if c in s.handled then Count(Handle(e, s.handled[c]), Release)
    else 1
  }

  ghost predicate ClientOk(e: Env<HandlerId>, s: State, c: ClientId) {
    && Orderly(PusherTodo(s, c)) && Orderly(LoopTodo(s, c))
    && (c !in s.push || s.push[c] == Before ==>
          s.releases[c] == s.queued[c] == 0 && LoopTodo(s, c) == [] && c !in s.handled)
    && (c in s.push && s.push[c].Doing? ==>
          && c in s.seen
          && s.releases[c] + Count(PusherTodo(s, c), Release) + s.queued[c] + Count(LoopTodo(s, c), Release) ==
             Due(e, s, c)
          && (Queues(e, s.seen[c].0) ==> PusherTodo(s, c) == [])
          && (!Queues(e, s.seen[c].0) ==> LoopTodo(s, c) == [] && s.queued[c] == 0 && c !in s.handled)
          && (c in s.handled ==> s.queued[c] == 0)
          && (c !in s.handled ==> LoopTodo(s, c) == [] && (Queues(e, s.seen[c].0) ==> s.releases[c] == 0))
          && (Write in PusherTodo(s, c) || Write in LoopTodo(s, c) ==> s.releases[c] == 0))
    && (e.asyncWritev && c in s.over ==> s.queued[c] == 0)
  }

  ghost predicate Counted(s: State) {
    && s.ref + 1 == HolderCount(s)
    && s.freeing + s.frees == (if HolderCount(s) == 0 then 1 else 0)
  }

  ghost predicate Inv(e: Env<HandlerId>, s: State) {
    && Counted(s)
    && forall c {:trigger ClientOk(e, s, c)} :: ClientOk(e, s, c)
  }

  /** A Release by Client c, who had not released, is counted. */
  lemma ReleaseCounted(s: State, r: State, c: ClientId)
    requires Counted(s) && c in s.push && s.releases[c] == 0
    requires r.ref == s.ref - 1 && r.freeing == (if r.ref == -1 then s.freeing + 1 else s.freeing)
    requires r.push.Keys == s.push.Keys && r.releases == s.releases + multiset{c}
    requires r.caster == s.caster && r.frees == s.frees
    ensures Counted(r)
  {
    assert c in Holders(s);
    assert Holders(r) == Holders(s) - {c};
  }

  /** A step that gives and releases nothing. */
  lemma StaysCounted(s: State, r: State)
    requires Counted(s)
    requires r.ref == s.ref && r.freeing + r.frees == s.freeing + s.frees
    requires r.push.Keys == s.push.Keys && r.releases == s.releases && r.caster == s.caster
    ensures Counted(r)
  {
    assert Holders(r) == Holders(s);
  }

  /** s and r agree on Client d. */
  ghost predicate SameFor(s: State, r: State, d: ClientId) {
    && (d in r.push <==> d in s.push) && (d in s.push ==> r.push[d] == s.push[d])
    && (d in r.seen <==> d in s.seen) && (d in s.seen ==> r.seen[d] == s.seen[d])
    && (d in r.handled <==> d in s.handled) && (d in s.handled ==> r.handled[d] == s.handled[d])
    && LoopTodo(r, d) == LoopTodo(s, d) && r.releases[d] == s.releases[d] && r.queued[d] == s.queued[d]
    && (d in r.over <==> d in s.over)
  }

  lemma OthersOk(e: Env<HandlerId>, s: State, r: State, c: ClientId)
    requires Inv(e, s) && ClientOk(e, r, c) && Counted(r)
    requires forall d {:trigger SameFor(s, r, d)} :: d != c ==> SameFor(s, r, d)
    ensures Inv(e, r)
  {
    forall d ensures ClientOk(e, r, d) {
      if d != c { assert ClientOk(e, s, d) && SameFor(s, r, d); }
    }
  }

  lemma RetainInv(e: Env<HandlerId>, s: State, c: ClientId)
    requires Inv(e, s) && Enabled(e, s, Retain(c))
    ensures Inv(e, Apply(e, s, Retain(c)))
  {
    var r := Apply(e, s, Retain(c));
    assert ClientOk(e, s, c);
    assert c !in Holders(s);
    assert Holders(r) == Holders(s) + {c};
    OthersOk(e, s, r, c);
  }

  lemma PushOk(e: Env<HandlerId>, s: State, c: ClientId, seen: Reads, wait: Wait)
    requires Inv(e, s) && Enabled(e, s, Pushes(c, seen, wait))
    ensures ClientOk(e, DoPush(e, s, c, seen, wait), c)
  {
    PushMsgDisposesOnce(e, seen, wait);
    CountsOf();
    assert ClientOk(e, s, c);
  }

  lemma PushInv(e: Env<HandlerId>, s: State, c: ClientId, seen: Reads, wait: Wait)
    requires Inv(e, s) && Enabled(e, s, Pushes(c, seen, wait))
    ensures Inv(e, DoPush(e, s, c, seen, wait))
  {
    var r := DoPush(e, s, c, seen, wait);
    PushMsgDisposesOnce(e, seen, wait);
    PushOk(e, s, c, seen, wait);
    StaysCounted(s, r);
    OthersOk(e, s, r, c);
  }

  /** What is left after the first act. */
  lemma Rest(acts: seq<Act>)
    requires acts != [] && Orderly(acts)
    ensures acts[0] != Enqueue && Orderly(acts[1..])
    ensures Count(acts, Release) == Count(acts[1..], Release) + (if acts[0] == Release then 1 else 0)
    ensures Write !in acts[1..] && (acts[0] == Write ==> Write in acts)
  {
    assert acts == [acts[0]] + acts[1..];
    CountsOf();
  }

  /** A goroutine still has to write or release the Message for Client c. */
  predicate Uses(s: State, c: ClientId) {
    Write in PusherTodo(s, c) || Write in LoopTodo(s, c) || Release in PusherTodo(s, c) || Release in LoopTodo(s, c)
  }

  /** A Client that still has to write or release holds its reference. */
  lemma StillHolds(e: Env<HandlerId>, s: State, c: ClientId)
    requires Inv(e, s)
    ensures c in s.queued || Uses(s, c) ==> c in s.push && s.releases[c] == 0 && s.ref >= 0
  {
    assert ClientOk(e, s, c);
    CountsOf();
    if c in s.seen {
      PushMsgDisposesOnce(e, s.seen[c].0, s.seen[c].1);
      if c in s.handled { HandlingDisposesOnce(e, s.handled[c]); }
    }
    if c in s.push && s.releases[c] == 0 { assert c in Holders(s); }
  }

  lemma PusherActsOk(e: Env<HandlerId>, s: State, c: ClientId)
    requires Inv(e, s) && Enabled(e, s, PusherActs(c))
    ensures ClientOk(e, Apply(e, s, PusherActs(c)), c)
  {
    assert ClientOk(e, s, c);
    Rest(PusherTodo(s, c));
    StillHolds(e, s, c);
  }

  lemma PusherActsInv(e: Env<HandlerId>, s: State, c: ClientId)
    requires Inv(e, s) && Enabled(e, s, PusherActs(c))
    ensures Inv(e, Apply(e, s, PusherActs(c)))
  {
    var r, acts := Apply(e, s, PusherActs(c)), PusherTodo(s, c);
    assert ClientOk(e, s, c);
    Rest(acts);
    StillHolds(e, s, c);
    PusherActsOk(e, s, c);
    if acts[0] == Release { ReleaseCounted(s, r, c); } else { StaysCounted(s, r); }
    OthersOk(e, s, r, c);
  }

  lemma LoopActsInv(e: Env<HandlerId>, s: State, c: ClientId)
    requires Inv(e, s) && Enabled(e, s, LoopActs(c))
    ensures Inv(e, Apply(e, s, LoopActs(c)))
  {
    var r, acts := Apply(e, s, LoopActs(c)), LoopTodo(s, c);
    assert ClientOk(e, s, c);
    Rest(acts);
    StillHolds(e, s, c);
    if acts[0] == Release { ReleaseCounted(s, r, c); } else { StaysCounted(s, r); }
    OthersOk(e, s, r, c);
  }

  lemma LoopTakesInv(e: Env<HandlerId>, s: State, c: ClientId, how: Handling)
    requires Inv(e, s) && Enabled(e, s, LoopTakes(c, how))
    ensures Inv(e, Apply(e, s, LoopTakes(c, how)))
  {
    var r := Apply(e, s, LoopTakes(c, how));
    assert ClientOk(e, s, c);
    HandlingDisposesOnce(e, how);
    StillHolds(e, s, c);
    CountsOf();
    StaysCounted(s, r);
    OthersOk(e, s, r, c);
  }

  lemma LoopEndsInv(e: Env<HandlerId>, s: State, c: ClientId)
    requires Inv(e, s) && Enabled(e, s, LoopEnds(c))
    ensures Inv(e, Apply(e, s, LoopEnds(c)))
  {
    var r := Apply(e, s, LoopEnds(c));
    assert ClientOk(e, s, c);
    StaysCounted(s, r);
    OthersOk(e, s, r, c);
  }

  lemma FreeInv(e: Env<HandlerId>, s: State, u: Step)
    requires Inv(e, s) && Enabled(e, s, u) && (u.CasterReleases? || u.Frees?)
    ensures Inv(e, Apply(e, s, u))
  {
    var r := Apply(e, s, u);
    assert Holders(r) == Holders(s);
    forall d ensures ClientOk(e, r, d) { assert ClientOk(e, s, d) && SameFor(s, r, d); }
  }

  lemma StepKeepsInv(e: Env<HandlerId>, s: State, u: Step)
    requires Inv(e, s) && Enabled(e, s, u)
    ensures Inv(e, Apply(e, s, u))
  {
    match u {
      case Retain(c) => RetainInv(e, s, c);
      case Pushes(c, seen, wait) => PushInv(e, s, c, seen, wait);
      case PusherActs(c) => PusherActsInv(e, s, c);
      case LoopTakes(c, how) => LoopTakesInv(e, s, c, how);
      case LoopActs(c) => LoopActsInv(e, s, c);
      case LoopEnds(c) => LoopEndsInv(e, s, c);
      case CasterReleases => FreeInv(e, s, u);
      case Frees => FreeInv(e, s, u);
    }
  }

  lemma StartInv(e: Env<HandlerId>, s: State)
    requires s == Start
    ensures Inv(e, s)
  {
    assert Holders(s) == {};
    forall c ensures ClientOk(e, s, c) { assert PusherTodo(s, c) == [] && LoopTodo(s, c) == []; }
  }

  lemma NextInv(e: Env<HandlerId>, tr: seq<State>, steps: seq<Step>, i: nat)
    requires IsRun(e, tr, steps) && i < |steps| && Inv(e, tr[i])
    ensures Inv(e, tr[i + 1])
  {
    StepKeepsInv(e, tr[i], steps[i]);
  }

  lemma {:induction false} RunKeepsInv(e: Env<HandlerId>, tr: seq<State>, steps: seq<Step>, i: nat)
    requires IsRun(e, tr, steps) && i < |tr|
    ensures Inv(e, tr[i])
  {
    if i == 0 {
      StartInv(e, tr[0]);
    } else {
      RunKeepsInv(e, tr, steps, i - 1);
      NextInv(e, tr, steps, i - 1);
    }
  }

  // ------------------------------------------------------------------ theorems

  /** However the paths interleave, a Client's reference is released at most once. */
  lemma ReleasedAtMostOnce(e: Env<HandlerId>, tr: seq<State>, steps: seq<Step>, i: nat, c: ClientId)
    requires IsRun(e, tr, steps) && i < |tr|
    ensures tr[i].releases[c] <= 1
  {
    var s := tr[i];
    RunKeepsInv(e, tr, steps, i);
    assert ClientOk(e, s, c);
    if c in s.seen {
      PushMsgDisposesOnce(e, s.seen[c].0, s.seen[c].1);
      if c in s.handled { HandlingDisposesOnce(e, s.handled[c]); }
    }
  }

  /** ref + 1 counts the holders: Broadcast until it releases, and every Client whose reference no path has released. */
  lemma RefCountsHolders(e: Env<HandlerId>, tr: seq<State>, steps: seq<Step>, i: nat)
    requires IsRun(e, tr, steps) && i < |tr|
    ensures tr[i].ref + 1 == |Holders(tr[i])| + (if tr[i].caster then 1 else 0)
  {
    RunKeepsInv(e, tr, steps, i);
  }

  /** The act that step u performs on the Message for Client c. */
  function Performs(s: State, u: Step, c: ClientId): (a: Option<Act>) {
    if u == PusherActs(c) && PusherTodo(s, c) != [] then Some(PusherTodo(s, c)[0])
    else if u == LoopActs(c) && LoopTodo(s, c) != [] then Some(LoopTodo(s, c)[0])
    else None
  }

  /**
   While a queue holds the Message, or a goroutine has yet to write or release
   it, it is not freed; so it is never written, nor released, after it was.
   */
  lemma HeldIsNotFreed(e: Env<HandlerId>, tr: seq<State>, steps: seq<Step>, i: nat, c: ClientId)
    requires IsRun(e, tr, steps) && i < |tr|
    ensures c in tr[i].queued || Uses(tr[i], c) ==> tr[i].freeing == tr[i].frees == 0
    ensures i < |steps| && Performs(tr[i], steps[i], c).Some? ==> tr[i].ref >= 0 && tr[i].freeing == tr[i].frees == 0
  {
    RunKeepsInv(e, tr, steps, i);
    assert ClientOk(e, tr[i], c);
    StillHolds(e, tr[i], c);
  }

  /** It is freed at most once, and the free is owed exactly when the last holder has let go. */
  lemma FreedOnceByTheLast(e: Env<HandlerId>, tr: seq<State>, steps: seq<Step>, i: nat)
    requires IsRun(e, tr, steps) && i < |tr|
    ensures tr[i].freeing + tr[i].frees <= 1
    ensures tr[i].freeing + tr[i].frees == 1 <==>
            !tr[i].caster && forall c :: c in tr[i].push ==> tr[i].releases[c] == 1
  {
    var s := tr[i];
    RunKeepsInv(e, tr, steps, i);
    forall c | c in s.push ensures s.releases[c] == 1 <==> c !in Holders(s) { ReleasedAtMostOnce(e, tr, steps, i, c); }
  }

  /** Nobody has anything left to do for Client c: what its queue still holds came after its loop had returned. */
  ghost predicate AtRest(s: State, c: ClientId) {
    && c in s.push && s.push[c] == Doing([])
    && LoopTodo(s, c) == []
    && (c in s.queued ==> c in s.over)
  }

  /** The callback that ended Client c's path leads to a Release; a queued Message was taken out again. */
  ghost predicate Disposed(e: Env<HandlerId>, s: State, c: ClientId)
    requires c in s.seen
  {
    if Queues(e, s.seen[c].0) then c !in s.queued && c in s.handled && HandlingReleases(e, s.handled[c])
    else PushReleases(e, s.seen[c].0, s.seen[c].1)
  }

  /** At rest, a Client's reference was released if and only if its path was complete and not queued too late. */
  lemma ReleasedIffDisposed(e: Env<HandlerId>, tr: seq<State>, steps: seq<Step>, i: nat, c: ClientId)
    requires IsRun(e, tr, steps) && i < |tr| && AtRest(tr[i], c)
    ensures c in tr[i].seen && (tr[i].releases[c] == 1 <==> Disposed(e, tr[i], c))
  {
    var s := tr[i];
    RunKeepsInv(e, tr, steps, i);
    assert ClientOk(e, s, c);
    PushMsgDisposesOnce(e, s.seen[c].0, s.seen[c].1);
    if c in s.handled { HandlingDisposesOnce(e, s.handled[c]); }
    CountsOf();
  }

  /** The Message is freed in the end if and only if that holds of every Client. */
  lemma FreedIffAllDisposed(e: Env<HandlerId>, tr: seq<State>, steps: seq<Step>, i: nat)
    requires IsRun(e, tr, steps) && i < |tr| && !tr[i].caster
    requires forall c :: c in tr[i].push ==> AtRest(tr[i], c)
    ensures forall c :: c in tr[i].push ==> c in tr[i].seen
    ensures tr[i].freeing + tr[i].frees == 1 <==> forall c :: c in tr[i].push ==> Disposed(e, tr[i], c)
  {
    FreedOnceByTheLast(e, tr, steps, i);
    forall c | c in tr[i].push
      ensures c in tr[i].seen && (tr[i].releases[c] == 1 <==> Disposed(e, tr[i], c))
    {
      ReleasedIffDisposed(e, tr, steps, i, c);
    }
  }

  /** With AsyncWritev nothing is queued too late, so with the callbacks set every reference is released. */
  lemma WritevLosesNothing(e: Env<HandlerId>, tr: seq<State>, steps: seq<Step>, i: nat, c: ClientId)
    requires IsRun(e, tr, steps) && i < |tr| && AtRest(tr[i], c) && e.asyncWritev
    ensures c !in tr[i].queued
    ensures DoneReleases(e) && DropReleases(e) ==> tr[i].releases[c] == 1
  {
    RunKeepsInv(e, tr, steps, i);
    assert ClientOk(e, tr[i], c);
    ReleasedIffDisposed(e, tr, steps, i, c);
  }

  /** With a Handler whose callbacks all release: lost exactly if it entered chSend after the loop had returned. */
  lemma LostIffQueuedTooLate(e: Env<HandlerId>, tr: seq<State>, steps: seq<Step>, i: nat, c: ClientId)
    requires IsRun(e, tr, steps) && i < |tr| && AtRest(tr[i], c)
    requires DoneReleases(e) && DropReleases(e) && OverstockReleases(e)
    ensures tr[i].releases[c] == 0 <==> c in tr[i].queued
  {
    RunKeepsInv(e, tr, steps, i);
    assert ClientOk(e, tr[i], c);
    ReleasedIffDisposed(e, tr, steps, i, c);
    ReleasedAtMostOnce(e, tr, steps, i, c);
  }

  /** Both happen: the Client's loop returns between CheckState and the select on chSend. */
  lemma QueuedTooLate(e: Env<HandlerId>)
    requires !e.asyncWritev && e.asyncWrite
    ensures var s := Apply(e, Apply(e, Start, Retain(0)), LoopEnds(0));
            var r := Apply(e, Apply(e, s, Pushes(0, Reads(true, false, true, Sent), NoWait)), CasterReleases);
            AtRest(r, 0) && 0 in r.queued && r.ref == 0
  {
  }
}
