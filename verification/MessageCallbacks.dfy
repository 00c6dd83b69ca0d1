/**
 What becomes of the reference to a Message on every path that gives it up:
 each path is the list of things it does with the Message, in order (client.go,
 PushMsg, pushMessage, pushWritev, writeSync, dropMessage and the send loops,
 without coders; handler.go, the callbacks).

 A Handler's onOverstock and onMessageDropped are wrappers made by
 HandleOverstock and HandleMessageDropped: they end in OnMessageDone of the
 Handler they were set on, also when a Clone of it calls them.
 */
module MessageCallbacks {
  import opened Prelude

  datatype Act =
    | Write      // reads the Message's bytes: Send, SendN, or Append to the batch buffer
    | Release
    | Enqueue    // into chSend, or into the writev queue

  /** pools: onMessageDone releases, as EnablePool(true) sets it; the others: the Handler each wrapper was set on. */
  datatype Callbacks<+A> = Callbacks(pools: bool, onOverstock: Option<A>, onDropped: Option<A>)

  /** The Handlers there are, and the one a Client uses, with its mode. */
  datatype Env<!A> = Env(hs: map<A, Callbacks<A>>, h: A, asyncWritev: bool, asyncWrite: bool)

  function OnMessageDone<A>(hs: map<A, Callbacks<A>>, h: A): (acts: seq<Act>) {
    if h in hs && hs[h].pools then [Release] else []
  }

  function OnOverstock<A>(hs: map<A, Callbacks<A>>, h: A): (acts: seq<Act>) {
    if h in hs && hs[h].onOverstock.Some? then OnMessageDone(hs, hs[h].onOverstock.value) else []
  }

  function OnMessageDropped<A>(hs: map<A, Callbacks<A>>, h: A): (acts: seq<Act>) {
    if h in hs && hs[h].onDropped.Some? then OnMessageDone(hs, hs[h].onDropped.value) else []
  }

  function WriteSync<A>(e: Env<A>, reconnecting: bool): (acts: seq<Act>) {
    if reconnecting then OnMessageDropped(e.hs, e.h) else [Write] + OnMessageDone(e.hs, e.h)
  }

  function PushWritev<A>(e: Env<A>, reconnecting: bool, running: bool): (acts: seq<Act>) {
    if reconnecting then OnMessageDropped(e.hs, e.h)
    else if !running then OnMessageDone(e.hs, e.h)
    else [Enqueue]
  }

  /** The case a select took; Full is its default. */
  datatype Select = Sent | Full | TimedOut | Stopped

  /** pushMessage, with a timer or without one. */
  function PushMessage<A>(e: Env<A>, timed: bool, select: Select): (acts: seq<Act>) {
    if select == Sent then [Enqueue]
    else if timed || select == Stopped then OnMessageDone(e.hs, e.h)
    else OnOverstock(e.hs, e.h)
  }

  datatype Wait = NoWait | Forever | Bounded

  /** What one PushMsg call reads, each at its own time, so in any combination. */
  datatype Reads = Reads(stateOk: bool, reconnecting: bool, running: bool, select: Select)

  function PushMsg<A>(e: Env<A>, r: Reads, wait: Wait): (acts: seq<Act>) {
    if !r.stateOk then OnMessageDone(e.hs, e.h)
    else if e.asyncWritev then PushWritev(e, r.reconnecting, r.running)
    else if !e.asyncWrite then WriteSync(e, r.reconnecting)
    else match wait
      case NoWait => if r.select == Sent then [Enqueue] else OnOverstock(e.hs, e.h)
      case Forever => if r.select == Sent then [Enqueue] else OnMessageDone(e.hs, e.h)
      case Bounded => PushMessage(e, true, r.select)
  }

  /** What a send loop, the writev loop or a drain does with a Message it took out of its queue. */
  datatype Handling =
    | Sends     // written, whether or not the write failed
    | Drops     // dropMessage: reconnecting, the conn broken, or drainWritev
    | Clears    // chSend is emptied after chClose was closed

  function Handle<A>(e: Env<A>, how: Handling): (acts: seq<Act>) {
    match how
    case Sends => [Write] + OnMessageDone(e.hs, e.h)
    case Drops => OnMessageDropped(e.hs, e.h)
    case Clears => OnMessageDone(e.hs, e.h)
  }

  // ---------------------------------------------------------------- counting

  function Count(acts: seq<Act>, a: Act): (n: nat) {
    if acts == [] then 0 else (if acts[0] == a then 1 else 0) + Count(acts[1..], a)
  }

  /** A Message is never released before it is written, and never twice. */
  predicate Orderly(acts: seq<Act>) { acts == [] || acts == [Release] || acts == [Write] || acts == [Write, Release] }

  // Which callbacks lead to a Release.
  predicate DoneReleases<A>(e: Env<A>) { e.h in e.hs && e.hs[e.h].pools }

  predicate Reaches<A>(hs: map<A, Callbacks<A>>, owner: Option<A>) {
    owner.Some? && owner.value in hs && hs[owner.value].pools
  }

  predicate OverstockReleases<A>(e: Env<A>) { e.h in e.hs && Reaches(e.hs, e.hs[e.h].onOverstock) }

  predicate DropReleases<A>(e: Env<A>) { e.h in e.hs && Reaches(e.hs, e.hs[e.h].onDropped) }

  /** PushMsg queues the Message. */
  predicate Queues<A>(e: Env<A>, r: Reads) {
    && r.stateOk
    && if e.asyncWritev then r.running && !r.reconnecting else e.asyncWrite && r.select == Sent
  }

  /** PushMsg drops it: the Client reconnects, and it is not for chSend. */
  predicate PushDrops<A>(e: Env<A>, r: Reads) { r.stateOk && r.reconnecting && (e.asyncWritev || !e.asyncWrite) }

  /** PushMsg finds chSend full and may not wait. */
  predicate Overstocks<A>(e: Env<A>, r: Reads, wait: Wait) {
    r.stateOk && !e.asyncWritev && e.asyncWrite && r.select != Sent && wait == NoWait
  }

  /** The callback at the end of a path that does not queue. */
  predicate PushReleases<A>(e: Env<A>, r: Reads, wait: Wait) {
    if PushDrops(e, r) then DropReleases(e)
    else if Overstocks(e, r, wait) then OverstockReleases(e)
    else DoneReleases(e)
  }

  lemma CountsOf()
    ensures [Write] + [Release] == [Write, Release] && [Write] + [] == [Write]
    ensures Count([], Release) == 0 && Count([], Enqueue) == 0
    ensures Count([Release], Release) == 1 && Count([Release], Enqueue) == 0
    ensures Count([Write], Release) == 0 && Count([Write], Enqueue) == 0
    ensures Count([Write, Release], Release) == 1 && Count([Write, Release], Enqueue) == 0
    ensures Count([Enqueue], Release) == 0 && Count([Enqueue], Enqueue) == 1
  {
  }

  lemma Ends<A>(e: Env<A>)
    ensures OnMessageDone(e.hs, e.h) == if DoneReleases(e) then [Release] else []
    ensures OnOverstock(e.hs, e.h) == if OverstockReleases(e) then [Release] else []
    ensures OnMessageDropped(e.hs, e.h) == if DropReleases(e) then [Release] else []
  {
  }

  /** PushMsg writes the Message itself. */
  predicate PushWrites<A>(e: Env<A>, r: Reads) { r.stateOk && !e.asyncWritev && !e.asyncWrite && !r.reconnecting }

  lemma PushMsgEnds<A>(e: Env<A>, r: Reads, wait: Wait)
    ensures PushMsg(e, r, wait) ==
            if Queues(e, r) then [Enqueue]
            else (if PushWrites(e, r) then [Write] else []) + if PushReleases(e, r, wait) then [Release] else []
  {
    Ends(e);
  }

  /**
   Queued and released together are one for every path of PushMsg, exactly if
   it queues or the callback it ends in leads to a Release; they are never two.
   */
  lemma PushMsgDisposesOnce<A>(e: Env<A>, r: Reads, wait: Wait)
    ensures var acts := PushMsg(e, r, wait);
            && Count(acts, Enqueue) + Count(acts, Release) <= 1
            && (Count(acts, Enqueue) == 1 <==> Queues(e, r))
            && (Count(acts, Enqueue) + Count(acts, Release) == 1 <==> Queues(e, r) || PushReleases(e, r, wait))
    ensures Queues(e, r) ==> PushMsg(e, r, wait) == [Enqueue]
    ensures !Queues(e, r) ==> Orderly(PushMsg(e, r, wait))
  {
    PushMsgEnds(e, r, wait);
    CountsOf();
  }

  lemma PushMessageDisposesOnce<A>(e: Env<A>, timed: bool, select: Select)
    ensures var acts := PushMessage(e, timed, select);
            && Count(acts, Enqueue) + Count(acts, Release) <= 1
            && (Count(acts, Enqueue) == 1 <==> select == Sent)
            && (Count(acts, Enqueue) + Count(acts, Release) == 1 <==>
                select == Sent || if timed || select == Stopped then DoneReleases(e) else OverstockReleases(e))
  {
    CountsOf();
  }

  predicate HandlingReleases<A>(e: Env<A>, how: Handling) { if how.Drops? then DropReleases(e) else DoneReleases(e) }

  /** A queue's Message is not queued again, and released once exactly if the callback it ends in leads to a Release. */
  lemma HandlingDisposesOnce<A>(e: Env<A>, how: Handling)
    ensures Orderly(Handle(e, how)) && Count(Handle(e, how), Enqueue) == 0
    ensures Count(Handle(e, how), Release) == if HandlingReleases(e, how) then 1 else 0
  {
    CountsOf();
  }

  /**
   A Clone keeps the wrappers of the Handler it was made from. If onMessageDone
   is then set to release on the clone only, full queues and drops still go by
   the old Handler: with all three callbacks set, they release nothing.
   */
  lemma CloneGoesByItsOriginal<A>(hs: map<A, Callbacks<A>>, h: A, cp: A)
    requires h in hs && h != cp && hs[h].onOverstock == Some(h) && hs[h].onDropped == Some(h)
    ensures var hs' := hs[cp := hs[h].(pools := true)];
            && OnMessageDone(hs', cp) == [Release]
            && OnOverstock(hs', cp) == OnMessageDropped(hs', cp) == OnMessageDone(hs, h)
            && (OnOverstock(hs', cp) == [] <==> !hs[h].pools)
  {
  }
}
