/** The promises of singleflight, for every run of any number of callers in any interleaving. */
module SfTheorems {
  import opened Prelude
  import opened SharedResult
  import opened SfModel
  import opened SfProofs
  import opened SfTidy
  import opened SfDelivery
  import opened SfAsync

  ghost predicate Inv(s: State) {
    && Sound(s)
    && Tidy(s)
    && Blocking(s)
    && Async(s)
  }

  lemma StepKeepsInv(s: State, t: Step)
    requires Inv(s) && Enabled(s, t)
    ensures Inv(Apply(s, t))
  {
    SoundStep(s, t);
    TidyStep(s, t);
    BlockingStep(s, t);
    AsyncStep(s, t);
  }

  lemma {:induction false} RunKeepsInv(tr: seq<State>, steps: seq<Step>, i: nat)
    requires IsRun(tr, steps) && i < |tr|
    ensures Inv(tr[i])
  {
    if i > 0 {
      RunKeepsInv(tr, steps, i - 1);
      StepKeepsInv(tr[i - 1], steps[i - 1]);
    }
  }

  /** refs is the number of callers between acquire and the decrement in releaseCall. */
  lemma RefsCountHolders(tr: seq<State>, steps: seq<Step>, i: nat, o: CallId)
    requires IsRun(tr, steps) && i < |tr| && o in tr[i].core.mem
    ensures tr[i].core.mem[o].refs == |Holders(tr[i].callers, o)|
  {
    RunKeepsInv(tr, steps, i);
  }

  /**
   A call in the map is unfinished and held by its leader, who is the only
   unfinished leader of that key; and the entry of an unfinished leader is its
   own call.
   */
  lemma EntriesAreUnfinished(tr: seq<State>, steps: seq<Step>, i: nat, k: SfKey)
    requires IsRun(tr, steps) && i < |tr|
    ensures k in tr[i].core.calls ==>
      exists c :: c in tr[i].callers && Unfinished(tr[i].callers[c]) && tr[i].callers[c].k == k
               && tr[i].callers[c].call == tr[i].core.calls[k] && c in Holders(tr[i].callers, tr[i].core.calls[k])
    ensures k in tr[i].core.calls && k.async ==>
      tr[i].core.calls[k] in tr[i].core.mem && !tr[i].core.mem[tr[i].core.calls[k]].finished
    ensures forall c, d | c in tr[i].callers && d in tr[i].callers ::
      (Unfinished(tr[i].callers[c]) && Unfinished(tr[i].callers[d]) &&
       tr[i].callers[c].k == tr[i].callers[d].k == k) ==> c == d
  {
    var s := tr[i];
    RunKeepsInv(tr, steps, i);
    if k in s.core.calls {
      assert EntryOk(s, k);
      var c := s.hist.leaderOf[s.core.calls[k]];
      assert HolderOk(s, c) && AsyncHolderOk(s, c);
      assert c in Holders(s.callers, s.core.calls[k]);
    }
    forall c, d | c in s.callers && d in s.callers && Unfinished(s.callers[c]) && Unfinished(s.callers[d])
      && s.callers[c].k == k && s.callers[d].k == k
      ensures c == d
    {
      assert HolderOk(s, c) && HolderOk(s, d);
      assert CallerTidy(s, c) && CallerTidy(s, d);
    }
  }

  /** A pooled call is reset, pooled once, in no map entry, held by nobody and being recycled by nobody. */
  lemma PooledIsUnused(tr: seq<State>, steps: seq<Step>, i: nat, o: CallId)
    requires IsRun(tr, steps) && i < |tr| && o in tr[i].core.pool
    ensures o in tr[i].core.mem && tr[i].core.mem[o] == Blank() && tr[i].core.pool[o] == 1
    ensures forall k :: k in tr[i].core.calls ==> tr[i].core.calls[k] != o
    ensures forall c :: c in tr[i].callers ==> !Holds(tr[i].callers[c], o) && !Recycles(tr[i].callers[c], o)
  {
    RunKeepsInv(tr, steps, i);
    assert PooledOk(tr[i], o);
    OpenedIsFree(tr[i], o);
    OpenedIsBlank(tr[i], o);
  }

  /** No run closes a nil or already closed done channel. */
  lemma DoneClosedAtMostOnce(tr: seq<State>, steps: seq<Step>, i: nat, c: Caller)
    requires IsRun(tr, steps) && i < |steps| && steps[i] == LeaderClose(c)
    ensures var done := tr[i].core.mem[tr[i].callers[c].call].done;
            done.Some? && done.value !in tr[i].dl.closed && tr[i + 1].dl.closed == tr[i].dl.closed + {done.value}
  {
    RunKeepsInv(tr, steps, i);
    assert HolderOk(tr[i], c) && WaiterOk(tr[i], c);
  }

  /** What a blocking follower read is what its own leader published, even if the call was recycled since. */
  lemma FollowerReadsItsLeader(tr: seq<State>, steps: seq<Step>, i: nat, c: Caller)
    requires IsRun(tr, steps) && i < |tr| && c in tr[i].hist.saw
    ensures c in tr[i].hist.joined && tr[i].hist.joined[c] in tr[i].hist.published
    ensures tr[i].hist.saw[c] == tr[i].hist.published[tr[i].hist.joined[c]]
  {
    RunKeepsInv(tr, steps, i);
    assert SawOk(tr[i], c);
  }

  /**
   End to end: if the leader published the outcome of decoding reply into its
   own rsp, a follower with a zero-valued rsp of any type ends as if it had
   received reply itself, or with the leader's error.
   */
  lemma FollowerSharesTheReply(
    tr: seq<State>, steps: seq<Step>, i: nat, c: Caller,
    um: Unmarshal, reply: Result<Bytes, string>, leader: Rsp, rsp: Rsp)
    requires IsRun(tr, steps) && i < |tr| && c in tr[i].hist.saw
    requires c in tr[i].hist.joined && tr[i].hist.joined[c] in tr[i].hist.published
    requires tr[i].hist.published[tr[i].hist.joined[c]] == LeaderOutcome(um, reply, leader)
    requires !(reply.Ok? && ParseShared(um, reply.value, leader).1.Panicked?) && ZeroValued(rsp)
    ensures FollowerResult(um, tr[i].hist.saw[c], rsp) ==
      match reply
      case Err(e) => Failed(e)
      case Ok(data) =>
        var d := ParseShared(um, data, leader).1;
        if d.Failed? then Failed(d.err) else ParseData(um, data, rsp)
  {
    FollowerReadsItsLeader(tr, steps, i, c);
    FollowerAgreesWithDecoding(um, reply, leader, rsp);
  }

  /** A follower that joined is captured by its own leader's finishAsync, once, and by no other. */
  lemma JoinedIsCapturedOnce(tr: seq<State>, steps: seq<Step>, i: nat, h: Caller, g: Caller)
    requires IsRun(tr, steps) && i < |tr|
    requires h in tr[i].dl.subs && tr[i].dl.subs[h].status == Registered && g in tr[i].hist.captured
    ensures h in tr[i].hist.joined
    ensures h in tr[i].hist.captured[g] <==> tr[i].hist.joined[h] == g
    ensures forall m, n :: 0 <= m < n < |tr[i].hist.captured[g]| ==>
      !(tr[i].hist.captured[g][m] == h && tr[i].hist.captured[g][n] == h)
  {
    RunKeepsInv(tr, steps, i);
    assert SubOk(tr[i], h) && CapturedOk(tr[i], g);
  }

  /** A follower refused by addSub is in no captured list. */
  lemma RefusedIsNotCaptured(tr: seq<State>, steps: seq<Step>, i: nat, h: Caller, g: Caller)
    requires IsRun(tr, steps) && i < |tr|
    requires h in tr[i].dl.subs && tr[i].dl.subs[h].status != Registered && g in tr[i].hist.captured
    ensures h !in tr[i].hist.captured[g]
  {
    RunKeepsInv(tr, steps, i);
    assert CapturedOk(tr[i], g);
  }

  /** A subscription's handler runs at most once, whichever of fan-out and timer comes first. */
  lemma HandlerAtMostOnce(tr: seq<State>, steps: seq<Step>, i: nat, h: Caller)
    requires IsRun(tr, steps) && i < |tr| && h in tr[i].dl.subs
    ensures tr[i].dl.subs[h].runs <= 1
  {
    RunKeepsInv(tr, steps, i);
    assert SubOk(tr[i], h);
  }

  lemma FiredStays(s: State, t: Step, h: Caller)
    requires Inv(s) && Enabled(s, t) && h in s.dl.subs && s.dl.subs[h].fired
    ensures h in Apply(s, t).dl.subs && Apply(s, t).dl.subs[h].fired
  {
    if t.Acquire? { assert SubOk(s, h); }
  }

  /** Once the executor or the timer has run a subscription, its handler has run exactly once, for good. */
  lemma {:induction false} HandlerExactlyOnce(tr: seq<State>, steps: seq<Step>, i: nat, j: nat, h: Caller)
    requires IsRun(tr, steps) && i < j < |tr|
    requires steps[i] == Execute(h) || steps[i] == TimerFires(h)
    ensures h in tr[j].dl.subs && tr[j].dl.subs[h].fired && tr[j].dl.subs[h].runs == 1
  {
    if j == i + 1 {
      assert tr[j] == Apply(tr[i], steps[i]);
    } else {
      HandlerExactlyOnce(tr, steps, i, j - 1, h);
      RunKeepsInv(tr, steps, j - 1);
      FiredStays(tr[j - 1], steps[j - 1], h);
    }
    RunKeepsInv(tr, steps, j);
    assert SubOk(tr[j], h);
  }

  /** When the leader has handed out its followers and the executor is done with h, h's handler has run once. */
  lemma FanOutReachesEveryFollower(tr: seq<State>, steps: seq<Step>, i: nat, g: Caller, h: Caller)
    requires IsRun(tr, steps) && i < |tr|
    requires g in tr[i].hist.captured && h in tr[i].hist.captured[g] && g in tr[i].callers
    requires tr[i].callers[g].at != Fan && h !in tr[i].dl.executor
    ensures h in tr[i].dl.subs && tr[i].dl.subs[h].runs == 1
  {
    var s := tr[i];
    RunKeepsInv(tr, steps, i);
    assert CapturedOk(s, g) && OnItsWay(s, g, h) && SubOk(s, h);
  }
}
