/**
 Every Client a Message was given to can come to rest, and the free that is owed
 can be done (server.go, client.go, proto.go): with MessageRefs.FreedIffAllDisposed
 this says when a broadcast Message is freed in the end.
 */
module MessageProgress {
  import opened Prelude
  import opened MessageCallbacks
  import opened MessageRefs

  /** What is still to be done for Client c; a Message queued after the loop had returned is nobody's work. */
  function Work(s: State, c: ClientId): (n: nat) {
    (if c in s.push && s.push[c] == Before then 9 else 0) + |PusherTodo(s, c)| + |LoopTodo(s, c)| +
    if c in s.over then 0 else 4 * s.queued[c]
  }

  /** Step u leaves less to do for Client c, and changes nothing for the others. */
  ghost predicate Helps(e: Env<HandlerId>, s: State, u: Step, c: ClientId) {
    && Enabled(e, s, u) && Work(Apply(e, s, u), c) < Work(s, c)
    && forall d {:trigger SameFor(s, Apply(e, s, u), d)} :: d != c ==> SameFor(s, Apply(e, s, u), d)
  }

  lemma ShortActs(e: Env<HandlerId>)
    ensures |OnMessageDone(e.hs, e.h)| <= 1 && Enqueue !in OnMessageDone(e.hs, e.h)
    ensures |OnMessageDropped(e.hs, e.h)| <= 1
  {
  }

  lemma PushHelps(e: Env<HandlerId>, s: State, c: ClientId) returns (u: Step)
    requires c in s.push && s.push[c] == Before
    ensures Helps(e, s, u, c)
  {
    u := Pushes(c, Reads(false, false, false, Full), NoWait);
    ShortActs(e);
  }

  lemma PusherHelps(e: Env<HandlerId>, s: State, c: ClientId)
    requires Inv(e, s) && PusherTodo(s, c) != []
    ensures Helps(e, s, PusherActs(c), c)
  {
    assert ClientOk(e, s, c);
  }

  lemma LoopHelps(e: Env<HandlerId>, s: State, c: ClientId)
    requires Inv(e, s) && LoopTodo(s, c) != []
    ensures Helps(e, s, LoopActs(c), c)
  {
    assert ClientOk(e, s, c);
  }

  lemma TakeHelps(e: Env<HandlerId>, s: State, c: ClientId) returns (u: Step)
    requires c in s.queued && c !in s.over && LoopTodo(s, c) == []
    ensures Helps(e, s, u, c)
  {
    u := LoopTakes(c, Drops);
    ShortActs(e);
  }

  /** No Client is stuck: until it is at rest there is a step of its own that leaves less to do. */
  lemma ClientGoesOn(e: Env<HandlerId>, tr: seq<State>, steps: seq<Step>, i: nat, c: ClientId) returns (u: Step)
    requires IsRun(e, tr, steps) && i < |tr| && c in tr[i].push && !AtRest(tr[i], c)
    ensures Helps(e, tr[i], u, c)
  {
    var s := tr[i];
    RunKeepsInv(e, tr, steps, i);
    if s.push[c] == Before {
      u := PushHelps(e, s, c);
    } else if PusherTodo(s, c) != [] {
      u := PusherActs(c);
      PusherHelps(e, s, c);
    } else if LoopTodo(s, c) != [] {
      u := LoopActs(c);
      LoopHelps(e, s, c);
    } else {
      u := TakeHelps(e, s, c);
    }
  }

  /** The free that is owed can be done at once. */
  lemma OwedIsFreed(e: Env<HandlerId>, tr: seq<State>, steps: seq<Step>, i: nat)
    requires IsRun(e, tr, steps) && i < |tr| && tr[i].freeing > 0
    ensures Enabled(e, tr[i], Frees) && Apply(e, tr[i], Frees).frees == 1 && Apply(e, tr[i], Frees).freeing == 0
  {
    RunKeepsInv(e, tr, steps, i);
  }

  /** Each Retain in Broadcast's loop gives its Client a reference, and Broadcast gives up its own. */
  lemma CasterCounts(e: Env<HandlerId>, tr: seq<State>, steps: seq<Step>, i: nat)
    requires IsRun(e, tr, steps) && i < |steps|
    ensures steps[i].Retain? ==> tr[i + 1].ref == tr[i].ref + 1 && Holders(tr[i + 1]) == Holders(tr[i]) + {steps[i].c}
    ensures steps[i].CasterReleases? ==> tr[i + 1].ref == tr[i].ref - 1 && !tr[i + 1].caster
  {
    RunKeepsInv(e, tr, steps, i);
    if steps[i].Retain? { assert ClientOk(e, tr[i], steps[i].c); }
  }
}
