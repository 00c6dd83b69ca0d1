/**
 What Stop, Restart and the receive loop do for a Client, over every run: Stop
 stops, every loop that was left ends with its callbacks, and every Restart can
 finish with the Client running (client.go).
 */
module GenerationsProgress {
  import opened Generations

  /** Stop, also the one inside Restart, leaves the Client stopped with its chClose closed, and changes nothing else. */
  lemma StopStops(tr: seq<State>, steps: seq<Step>, i: nat)
    requires IsRun(tr, steps) && i < |steps| && (steps[i].Stop? || steps[i].RestartStop?)
    ensures |tr[i + 1].life.closes| == |tr[i].life.closes| > 0
    ensures !tr[i + 1].life.running && tr[i + 1].life.closes[Current(tr[i].life)] == 1
    ensures forall g :: 0 <= g < Current(tr[i].life) ==> tr[i + 1].life.closes[g] == tr[i].life.closes[g]
    ensures tr[i + 1].loops == tr[i].loops && tr[i + 1].life.reconnecting == tr[i].life.reconnecting
  {
    RunKeepsBase(tr, steps, i);
  }

  /** The teardown of a loop leaves the Client stopped and that loop's own chClose closed. */
  lemma CleanStops(tr: seq<State>, steps: seq<Step>, i: nat, g: Gen)
    requires IsRun(tr, steps) && i < |steps| && steps[i] == Clean(g)
    ensures g < |tr[i + 1].life.closes| && !tr[i + 1].life.running && tr[i + 1].life.closes[g] == 1
    ensures LoopAt(tr[i + 1], g, Cleaned)
  {
    RunKeepsBase(tr, steps, i);
  }

  /** A Restart that dialed installs a fresh generation, with its loop, if and only if the Client is not running. */
  lemma InstallInstallsIff(tr: seq<State>, steps: seq<Step>, i: nat, t: Tid, dialOk: bool)
    requires IsRun(tr, steps) && i < |steps| && steps[i] == RestartInstall(t, dialOk)
    ensures RestartAt(tr[i + 1], t, Ended)
    ensures if dialOk && !tr[i].life.running
            then tr[i + 1].life == Life(true, false, true, tr[i].life.closes + [0])
                 && tr[i + 1].loops == tr[i].loops[|tr[i].life.closes| := Receiving]
            else tr[i + 1].life == tr[i].life && tr[i + 1].loops == tr[i].loops
  {
    RunKeepsBase(tr, steps, i);
  }

  /** run starts the Client and its first loop. */
  lemma RunStarts(tr: seq<State>, steps: seq<Step>, i: nat)
    requires IsRun(tr, steps) && i < |steps| && steps[i].Run?
    ensures tr[i + 1].life == Life(true, false, true, [0]) && tr[i + 1].loops == map[0 := Receiving]
  {
    RunKeepsBase(tr, steps, i);
  }

  /** CheckState refuses from the moment the conn breaks, and no more once it is redialed. */
  lemma ReconnectingFollowsTheConn(tr: seq<State>, steps: seq<Step>, i: nat, g: Gen)
    requires IsRun(tr, steps) && i < |steps| && (steps[i] == ConnBreaks(g) || steps[i] == Reconnected(g))
    ensures tr[i + 1].life == tr[i].life.(reconnecting := steps[i].ConnBreaks?)
    ensures LoopAt(tr[i + 1], g, if steps[i].ConnBreaks? then Reconnecting else Receiving)
  {
  }

  // -------------------------------------------------------------- the loop ends

  function Ahead(l: Loop): (n: nat) {
    match l
    case Receiving => 6
    case Reconnecting => 6
    case Exiting => 5
    case Cleaned => 4
    case StopCalled => 3
    case Reported => 2
    case Gone => 0
  }

  /** The step a loop takes next once it leaves. */
  function NextOf(l: Loop, g: Gen): (u: Step)
    requires l != Gone
  {
    match l
    case Receiving => LeavesLoop(g)
    case Reconnecting => LeavesLoop(g)
    case Exiting => Clean(g)
    case Cleaned => CallOnStop(g)
    case StopCalled => CallOnDisconnected(g)
    case Reported => LoopReturns(g)
  }

  /** Every loop that is not gone can go on towards its end, whatever else happens; the Restarts stay where they are. */
  lemma LoopGoesOn(s: State, g: Gen)
    requires Base(s) && g in s.loops && s.loops[g] != Gone
    ensures var u := NextOf(s.loops[g], g);
            && Enabled(s, u) && Base(Apply(s, u)) && g in Apply(s, u).loops
            && Ahead(Apply(s, u).loops[g]) < Ahead(s.loops[g]) && Apply(s, u).restarts == s.restarts
  {
    assert LoopOk(s, g);
    StepKeepsBase(s, NextOf(s.loops[g], g));
  }

  // ------------------------------------------------------- a Restart can finish

  lemma Continue(tr: seq<State>, steps: seq<Step>, u: Step) returns (more: seq<State>, longer: seq<Step>)
    requires IsRun(tr, steps) && Enabled(tr[|steps|], u)
    ensures more == tr + [Apply(tr[|steps|], u)] && longer == steps + [u] && IsRun(more, longer)
  {
    more, longer := tr + [Apply(tr[|steps|], u)], steps + [u];
    assert forall i {:trigger longer[i]} :: 0 <= i < |steps| ==> longer[i] == steps[i];
  }

  /** A run can be continued until loop g has returned; no Restart moves meanwhile. */
  lemma {:induction false} LoopCanEnd(tr: seq<State>, steps: seq<Step>, g: Gen)
    returns (tr': seq<State>, steps': seq<Step>)
    requires IsRun(tr, steps) && g in tr[|steps|].loops
    ensures IsRun(tr', steps') && tr <= tr' && steps <= steps'
    ensures LoopAt(tr'[|steps'|], g, Gone) && tr'[|steps'|].restarts == tr[|steps|].restarts
    decreases Ahead(tr[|steps|].loops[g])
  {
    var s := tr[|steps|];
    RunKeepsBase(tr, steps, |steps|);
    if s.loops[g] == Gone {
      tr', steps' := tr, steps;
    } else {
      LoopGoesOn(s, g);
      var more, longer := Continue(tr, steps, NextOf(s.loops[g], g));
      tr', steps' := LoopCanEnd(more, longer, g);
    }
  }

  /** A Restart waits for a generation that was started. */
  ghost predicate WaitsOk(s: State, t: Tid) {
    t in s.restarts && s.restarts[t].at in {Phase.Read, Waits} ==> s.restarts[t].waitsFor in s.loops
  }

  lemma WaitsStep(s: State, u: Step, t: Tid)
    requires Base(s) && WaitsOk(s, t) && Enabled(s, u) && (t in s.restarts ==> s.life.started)
    ensures WaitsOk(Apply(s, u), t) && (t in Apply(s, u).restarts ==> Apply(s, u).life.started)
  {
  }

  lemma {:induction false} RunKeepsWaits(tr: seq<State>, steps: seq<Step>, i: nat, t: Tid)
    requires IsRun(tr, steps) && i < |tr|
    ensures WaitsOk(tr[i], t) && (t in tr[i].restarts ==> tr[i].life.started)
  {
    if i > 0 {
      RunKeepsWaits(tr, steps, i - 1, t);
      RunKeepsBase(tr, steps, i - 1);
      WaitsStep(tr[i - 1], steps[i - 1], t);
    }
  }

  /** The run goes on to r, with Restart t at the given point. */
  ghost predicate GoesTo(tr: seq<State>, steps: seq<Step>, tr': seq<State>, steps': seq<Step>, t: Tid, at: Phase) {
    IsRun(tr', steps') && tr <= tr' && steps <= steps' && RestartAt(tr'[|steps'|], t, at)
  }

  lemma BegunCanWait(tr: seq<State>, steps: seq<Step>, t: Tid) returns (tr': seq<State>, steps': seq<Step>)
    requires IsRun(tr, steps) && (RestartAt(tr[|steps|], t, Begun) || RestartAt(tr[|steps|], t, Phase.Read))
    ensures GoesTo(tr, steps, tr', steps', t, Waits)
  {
    tr', steps' := tr, steps;
    if RestartAt(tr[|steps|], t, Begun) {
      tr', steps' := Continue(tr', steps', RestartRead(t));
    }
    tr', steps' := Continue(tr', steps', RestartStop(t));
  }

  lemma WaitingCanGetReady(tr: seq<State>, steps: seq<Step>, t: Tid) returns (tr': seq<State>, steps': seq<Step>)
    requires IsRun(tr, steps) && RestartAt(tr[|steps|], t, Waits)
    ensures GoesTo(tr, steps, tr', steps', t, Ready)
  {
    RunKeepsWaits(tr, steps, |steps|, t);
    tr', steps' := LoopCanEnd(tr, steps, tr[|steps|].restarts[t].waitsFor);
    tr', steps' := Continue(tr', steps', RestartWaited(t));
  }

  lemma ReadyCanInstall(tr: seq<State>, steps: seq<Step>, t: Tid) returns (tr': seq<State>, steps': seq<Step>)
    requires IsRun(tr, steps) && RestartAt(tr[|steps|], t, Ready)
    ensures GoesTo(tr, steps, tr', steps', t, Ended) && tr'[|steps'|].life.running
  {
    tr', steps' := Continue(tr, steps, RestartInstall(t, true));
  }

  /** From every reachable state a Restart under way can finish, and then the Client runs. */
  lemma RestartCanFinish(tr: seq<State>, steps: seq<Step>, t: Tid) returns (tr': seq<State>, steps': seq<Step>)
    requires IsRun(tr, steps) && t in tr[|steps|].restarts && tr[|steps|].restarts[t].at != Ended
    ensures GoesTo(tr, steps, tr', steps', t, Ended) && tr'[|steps'|].life.running
  {
    RunKeepsBase(tr, steps, |steps|);
    tr', steps' := tr, steps;
    if tr[|steps|].restarts[t].at in {Begun, Phase.Read} {
      tr', steps' := BegunCanWait(tr', steps', t);
    }
    if tr'[|steps'|].restarts[t].at == Waits {
      tr', steps' := WaitingCanGetReady(tr', steps', t);
    }
    tr', steps' := ReadyCanInstall(tr', steps', t);
  }
}
