/**
 The generations of a Client: run, Stop, Restart, recvLoop and closeAndClean
 (client.go). Generation g has its own chClose and recvDone channels and its
 own recvLoop. Stop may be called by anyone at any time; the conn may break and
 redials may fail or succeed at any time.

 The machine allows any number of overlapping Restart calls. OneLoopIffTimely
 says exactly which runs keep a single receive loop, SeparateRestartsAreTimely
 that those without overlap are among them, and OverlappingRestarts ends a run
 that is not.
 */
module Generations {

  type Gen = nat
  type Tid = nat

  /**
   The fields of a Client that Client.mux guards. closes[g] counts the close
   calls on chClose of generation g; the last generation is the current one,
   whose recvDone the Client holds once started.
   */
  datatype Life = Life(running: bool, reconnecting: bool, started: bool, closes: seq<nat>)

  /** A Client before run. */
  const NewLife := Life(false, false, false, [0])

  function Current(l: Life): (g: Gen)
    requires |l.closes| > 0
  {
    |l.closes| - 1
  }

  function CloseChan(closes: seq<nat>, g: Gen): (r: seq<nat>)
    requires g < |closes|
    ensures |r| == |closes| && r[g] > 0 && (closes[g] <= 1 ==> r[g] == 1)
    ensures forall d :: 0 <= d < |r| && d != g ==> r[d] == closes[d]
  {
    if closes[g] > 0 then closes else closes[g := closes[g] + 1]
  }

  function Ran(l: Life): (r: Life) { if !l.running then l.(running := true, started := true) else l }

  /** The lock section shared by Stop (g the current generation) and closeAndClean (g the loop's own). */
  function Closed(l: Life, g: Gen): (r: Life)
    requires g < |l.closes|
  {
    l.(running := false, closes := CloseChan(l.closes, g))
  }

  /** Restart's second lock section: a dialed conn installs a new generation. */
  function Installed(l: Life, dialOk: bool): (r: Life) {
    if !l.running && dialOk then Life(true, false, true, l.closes + [0]) else l
  }

  // ------------------------------------------------------------ the machine

  datatype Loop =
    | Receiving
    | Reconnecting
    | Exiting        // before the lock of closeAndClean
    | Cleaned        // running cleared, chClose closed
    | StopCalled     // onStop was called
    | Reported       // OnDisconnected was called
    | Gone           // recvDone closed

  datatype Phase =
    | Begun          // before reading c.recvDone
    | Read           // before Stop
    | Waits          // on the recvDone it read
    | Ready          // before the second lock
    | Ended

  datatype Restarter = Restarter(at: Phase, waitsFor: Gen)

  datatype State = State(
    life: Life,
    loops: map<Gen, Loop>,
    restarts: map<Tid, Restarter>,
    onStop: multiset<Gen>,       // calls of onStop and OnDisconnected by each generation
    onDisconnected: multiset<Gen>)

  const Start := State(NewLife, map[], map[], multiset{}, multiset{})

  datatype Step =
    | Run
    | Stop
    | ConnBreaks(g: Gen)
    | Reconnected(g: Gen)
    | LeavesLoop(g: Gen)         // chClose seen closed, a server-role Client's conn broke, or out of attempts
    | Clean(g: Gen)              // the lock of closeAndClean
    | CallOnStop(g: Gen)
    | CallOnDisconnected(g: Gen)
    | LoopReturns(g: Gen)
    | RestartBegin(t: Tid)
    | RestartRead(t: Tid)
    | RestartStop(t: Tid)
    | RestartWaited(t: Tid)
    | RestartInstall(t: Tid, dialOk: bool)

  predicate LoopAt(s: State, g: Gen, at: Loop) { g in s.loops && s.loops[g] == at && g < |s.life.closes| }

  predicate RestartAt(s: State, t: Tid, at: Phase) { t in s.restarts && s.restarts[t].at == at && |s.life.closes| > 0 }

  predicate Enabled(s: State, u: Step) {
    match u
    case Run => !s.life.started && |s.life.closes| > 0
    case Stop => s.life.started && |s.life.closes| > 0
    case ConnBreaks(g) => LoopAt(s, g, Receiving)
    case Reconnected(g) => LoopAt(s, g, Reconnecting)
    case LeavesLoop(g) => LoopAt(s, g, Receiving) || LoopAt(s, g, Reconnecting)
    case Clean(g) => LoopAt(s, g, Exiting)
    case CallOnStop(g) => LoopAt(s, g, Cleaned)
    case CallOnDisconnected(g) => LoopAt(s, g, StopCalled)
    case LoopReturns(g) => LoopAt(s, g, Reported)
    case RestartBegin(t) => s.life.started && t !in s.restarts
    case RestartRead(t) => RestartAt(s, t, Begun)
    case RestartStop(t) => RestartAt(s, t, Read)
    case RestartWaited(t) => RestartAt(s, t, Waits) && LoopAt(s, s.restarts[t].waitsFor, Gone)
    case RestartInstall(t, _) => RestartAt(s, t, Ready)
  }

  function DoRun(s: State): (r: State)
    requires |s.life.closes| > 0
  {
    if !s.life.running then s.(life := Ran(s.life), loops := s.loops[Current(s.life) := Receiving]) else s
  }

  function DoStop(s: State): (r: State)
    requires |s.life.closes| > 0
  {
    s.(life := Closed(s.life, Current(s.life)))
  }

  function DoInstall(s: State, t: Tid, dialOk: bool): (r: State)
    requires t in s.restarts && |s.life.closes| > 0
  {
    var ended := s.restarts[t := s.restarts[t].(at := Ended)];
    if !s.life.running && dialOk then
      s.(life := Installed(s.life, dialOk), loops := s.loops[Current(s.life) + 1 := Receiving], restarts := ended)
    else s.(restarts := ended)
  }

  function DoLoop(s: State, g: Gen, at: Loop): (r: State) { s.(loops := s.loops[g := at]) }

  function DoRestart(s: State, t: Tid, p: Restarter): (r: State) { s.(restarts := s.restarts[t := p]) }

  function Apply(s: State, u: Step): (r: State)
    requires Enabled(s, u)
  {
    match u
    case Run => DoRun(s)
    case Stop => DoStop(s)
    case ConnBreaks(g) => DoLoop(s, g, Reconnecting).(life := s.life.(reconnecting := true))
    case Reconnected(g) => DoLoop(s, g, Receiving).(life := s.life.(reconnecting := false))
    case LeavesLoop(g) => DoLoop(s, g, Exiting)
    case Clean(g) => DoLoop(s, g, Cleaned).(life := Closed(s.life, g))
    case CallOnStop(g) => DoLoop(s, g, StopCalled).(onStop := s.onStop + multiset{g})
    case CallOnDisconnected(g) => DoLoop(s, g, Reported).(onDisconnected := s.onDisconnected + multiset{g})
    case LoopReturns(g) => DoLoop(s, g, Gone)
    case RestartBegin(t) => DoRestart(s, t, Restarter(Begun, 0))
    case RestartRead(t) => DoRestart(s, t, Restarter(Read, Current(s.life)))
    case RestartStop(t) => DoRestart(DoStop(s), t, s.restarts[t].(at := Waits))
    case RestartWaited(t) => DoRestart(s, t, s.restarts[t].(at := Ready))
    case RestartInstall(t, dialOk) => DoInstall(s, t, dialOk)
  }

  ghost predicate IsRun(tr: seq<State>, steps: seq<Step>) {
    && |tr| == |steps| + 1
    && tr[0] == Start
    && forall i {:trigger steps[i]} ::
         0 <= i < |steps| ==> Enabled(tr[i], steps[i]) && tr[i + 1] == Apply(tr[i], steps[i])
  }

  /** Restart's second lock section puts in a new generation: it is not running and the dial succeeded. */
  predicate Installs(s: State, u: Step) { u.RestartInstall? && u.dialOk && !s.life.running }

  /** A step that installs does so after the current loop has returned, which Restart could test under its lock. */
  predicate TimelyStep(s: State, u: Step)
    requires Enabled(s, u)
  {
    Installs(s, u) ==> LoopAt(s, Current(s.life), Gone)
  }

  ghost predicate Timely(tr: seq<State>, steps: seq<Step>)
    requires IsRun(tr, steps)
  {
    forall i {:trigger steps[i]} :: 0 <= i < |steps| ==> TimelyStep(tr[i], steps[i])
  }

  predicate Alive(l: Loop) { l != Gone }

  ghost predicate OneAlive(s: State) {
    forall g, g' :: g in s.loops && g' in s.loops && Alive(s.loops[g]) && Alive(s.loops[g']) ==> g == g'
  }

  // ----------------------------------------------- what every run keeps

  predicate BeforeClean(l: Loop) { l == Receiving || l == Reconnecting || l == Exiting }

  ghost predicate LoopOk(s: State, g: Gen)
    requires g in s.loops
  {
    var l := s.loops[g];
    && s.life.started && g < |s.life.closes|
    && (!BeforeClean(l) ==> s.life.closes[g] == 1)
    && s.onStop[g] == (if l == StopCalled || l == Reported || l == Gone then 1 else 0)
    && s.onDisconnected[g] == (if l == Reported || l == Gone then 1 else 0)
  }

  ghost predicate LifeOk(l: Life) {
    && |l.closes| > 0
    && (forall g {:trigger l.closes[g]} ::
          0 <= g < |l.closes| ==> l.closes[g] <= 1)
    && (!l.started ==> l == NewLife)
    && (l.running ==> l.closes[Current(l)] == 0)
  }

  ghost predicate Base(s: State) {
    && LifeOk(s.life)
    && (!s.life.started ==> s == Start)
    && (forall g {:trigger g in s.loops} ::
          g in s.loops <==> s.life.started && 0 <= g < |s.life.closes|)
    && (forall g {:trigger LoopOk(s, g)} ::
          g in s.loops ==> LoopOk(s, g))
    && (forall g {:trigger s.onStop[g]} ::
          g !in s.loops ==> s.onStop[g] == 0)
    && (forall g {:trigger s.onDisconnected[g]} ::
          g !in s.loops ==> s.onDisconnected[g] == 0)
  }

  lemma LoopStepBase(s: State, u: Step)
    requires Base(s) && Enabled(s, u) && (u.ConnBreaks? || u.Reconnected? || u.LeavesLoop? || u.LoopReturns?)
    ensures Base(Apply(s, u))
  {
    var r := Apply(s, u);
    assert LoopOk(s, u.g);
    forall g | g in r.loops ensures LoopOk(r, g) { assert LoopOk(s, g); }
  }

  lemma CallbackBase(s: State, u: Step)
    requires Base(s) && Enabled(s, u) && (u.CallOnStop? || u.CallOnDisconnected?)
    ensures Base(Apply(s, u))
  {
    var r := Apply(s, u);
    assert LoopOk(s, u.g);
    forall g | g in r.loops ensures LoopOk(r, g) { assert LoopOk(s, g); }
  }

  lemma CleanBase(s: State, g: Gen)
    requires Base(s) && LoopAt(s, g, Exiting)
    ensures Base(Apply(s, Clean(g)))
  {
    var r := Apply(s, Clean(g));
    assert LoopOk(s, g);
    forall d | d in r.loops ensures LoopOk(r, d) { assert LoopOk(s, d); }
  }

  lemma StopBase(s: State)
    requires Base(s) && s.life.started
    ensures Base(DoStop(s))
  {
    var r := DoStop(s);
    forall g | g in r.loops ensures LoopOk(r, g) { assert LoopOk(s, g); }
  }

  /** A move of a Restart that changes nothing else. */
  lemma RestartBase(s: State, t: Tid, p: Restarter)
    requires Base(s) && s.life.started
    ensures Base(DoRestart(s, t, p))
  {
    var r := DoRestart(s, t, p);
    forall g | g in r.loops ensures LoopOk(r, g) { assert LoopOk(s, g); }
  }

  lemma InstallBase(s: State, t: Tid, dialOk: bool)
    requires Base(s) && RestartAt(s, t, Ready) && s.life.started
    ensures Base(DoInstall(s, t, dialOk))
  {
    var r := DoInstall(s, t, dialOk);
    forall g | g in r.loops ensures LoopOk(r, g) {
      if g in s.loops { assert LoopOk(s, g); }
    }
  }

  lemma StepKeepsBase(s: State, u: Step)
    requires Base(s) && Enabled(s, u)
    ensures Base(Apply(s, u))
  {
    match u {
      case Run => assert LoopOk(Apply(s, u), 0);
      case Stop => StopBase(s);
      case Clean(g) => CleanBase(s, g);
      case CallOnStop(g) => CallbackBase(s, u);
      case CallOnDisconnected(g) => CallbackBase(s, u);
      case RestartBegin(t) => RestartBase(s, t, Restarter(Begun, 0));
      case RestartRead(t) => RestartBase(s, t, Restarter(Read, Current(s.life)));
      case RestartStop(t) => StopBase(s); RestartBase(DoStop(s), t, s.restarts[t].(at := Waits));
      case RestartWaited(t) => RestartBase(s, t, s.restarts[t].(at := Ready));
      case RestartInstall(t, dialOk) => InstallBase(s, t, dialOk);
      case _ => LoopStepBase(s, u);
    }
  }

  lemma {:induction false} RunKeepsBase(tr: seq<State>, steps: seq<Step>, i: nat)
    requires IsRun(tr, steps) && i < |tr|
    ensures Base(tr[i])
  {
    if i > 0 {
      RunKeepsBase(tr, steps, i - 1);
      StepKeepsBase(tr[i - 1], steps[i - 1]);
    }
  }

  // ---------------------------------------------- what timely runs keep

  /** Only the current loop is alive; an open current chClose means running; reconnecting is that loop's. */
  ghost predicate Single(s: State) {
    && |s.life.closes| > 0
    && (forall g {:trigger s.loops[g]} ::
          g in s.loops && Alive(s.loops[g]) ==> g == Current(s.life))
    && (s.life.started && s.life.closes[Current(s.life)] == 0 ==> s.life.running)
    && (LoopAt(s, Current(s.life), Receiving) ==> !s.life.reconnecting)
    && (LoopAt(s, Current(s.life), Reconnecting) ==> s.life.reconnecting)
  }

  predicate IsLoopStep(u: Step) {
    || u.ConnBreaks? || u.Reconnected? || u.LeavesLoop? || u.Clean?
    || u.CallOnStop? || u.CallOnDisconnected? || u.LoopReturns?
  }

  lemma LoopKeepsSingle(s: State, u: Step)
    requires Base(s) && Single(s) && Enabled(s, u) && IsLoopStep(u)
    ensures Single(Apply(s, u))
  {
    assert u.g == Current(s.life);
  }

  lemma StepKeepsSingle(s: State, u: Step)
    requires Base(s) && Single(s) && Enabled(s, u) && TimelyStep(s, u)
    ensures Single(Apply(s, u))
  {
    if IsLoopStep(u) { LoopKeepsSingle(s, u); }
  }

  /** An install that leaves one loop alive was timely. */
  lemma OneAliveIsTimely(s: State, u: Step)
    requires Base(s) && Enabled(s, u) && OneAlive(Apply(s, u))
    ensures TimelyStep(s, u)
  {
    if Installs(s, u) {
      var r, c := Apply(s, u), Current(s.life);
      assert c in s.loops && r.loops[c] == s.loops[c];
      assert c + 1 in r.loops && Alive(r.loops[c + 1]);
    }
  }

  lemma {:induction false} RunKeepsSingle(tr: seq<State>, steps: seq<Step>, i: nat)
    requires IsRun(tr, steps) && Timely(tr, steps) && i < |tr|
    ensures Base(tr[i]) && Single(tr[i])
  {
    RunKeepsBase(tr, steps, i);
    if i > 0 {
      RunKeepsSingle(tr, steps, i - 1);
      assert TimelyStep(tr[i - 1], steps[i - 1]);
      StepKeepsSingle(tr[i - 1], steps[i - 1]);
    }
  }

  // ------------------------------------------------------------------ theorems

  /**
   With any number of overlapping Restarts, at most one recvLoop is alive
   throughout if and only if every install finds the current loop returned.
   */
  lemma OneLoopIffTimely(tr: seq<State>, steps: seq<Step>)
    requires IsRun(tr, steps)
    ensures (forall i {:trigger tr[i]} :: 0 <= i < |tr| ==> OneAlive(tr[i])) <==> Timely(tr, steps)
  {
    if Timely(tr, steps) {
      forall i | 0 <= i < |tr| ensures OneAlive(tr[i]) { RunKeepsSingle(tr, steps, i); }
    }
    if forall i {:trigger tr[i]} :: 0 <= i < |tr| ==> OneAlive(tr[i]) {
      forall i | 0 <= i < |steps| ensures TimelyStep(tr[i], steps[i]) {
        RunKeepsBase(tr, steps, i);
        assert OneAlive(tr[i + 1]);
        OneAliveIsTimely(tr[i], steps[i]);
      }
    }
  }

  /** The loop that is alive is the current generation's. */
  lemma AtMostOneLoop(tr: seq<State>, steps: seq<Step>, i: nat, g: Gen)
    requires IsRun(tr, steps) && Timely(tr, steps) && i < |tr|
    requires g in tr[i].loops && Alive(tr[i].loops[g])
    ensures g == |tr[i].life.closes| - 1
  {
    RunKeepsSingle(tr, steps, i);
  }

  /**
   In every run, running holds only while the current chClose is open, and no
   chClose is closed twice; in a timely run, once started, it holds exactly then.
   */
  lemma RunningIffOpen(tr: seq<State>, steps: seq<Step>, i: nat, g: Gen)
    requires IsRun(tr, steps) && i < |tr|
    ensures |tr[i].life.closes| > 0
    ensures tr[i].life.running ==> tr[i].life.closes[Current(tr[i].life)] == 0
    ensures g < |tr[i].life.closes| ==> tr[i].life.closes[g] <= 1
    ensures Timely(tr, steps) && tr[i].life.started ==>
              (tr[i].life.running <==> tr[i].life.closes[Current(tr[i].life)] == 0)
  {
    RunKeepsBase(tr, steps, i);
    if Timely(tr, steps) { RunKeepsSingle(tr, steps, i); }
  }

  /**
   In every run, no generation runs onStop or OnDisconnected twice, and one
   whose loop returned has run both and closed its chClose; in a timely run,
   every generation before the current one has.
   */
  lemma CallbacksOncePerGeneration(tr: seq<State>, steps: seq<Step>, i: nat, g: Gen)
    requires IsRun(tr, steps) && i < |tr|
    ensures tr[i].onStop[g] <= 1 && tr[i].onDisconnected[g] <= tr[i].onStop[g]
    ensures LoopAt(tr[i], g, Gone) ==> tr[i].onDisconnected[g] == 1 && tr[i].life.closes[g] == 1
    ensures Timely(tr, steps) && g < |tr[i].life.closes| - 1 ==> LoopAt(tr[i], g, Gone)
  {
    RunKeepsBase(tr, steps, i);
    if g in tr[i].loops { assert LoopOk(tr[i], g); }
    assert tr[i].onStop[g] <= 1 && tr[i].onDisconnected[g] <= 1;
    if Timely(tr, steps) { RunKeepsSingle(tr, steps, i); }
  }

  /**
   In every run, an install starts a generation with nothing closed; in a timely
   run, it comes after the old generation's callbacks.
   */
  lemma InstalledAfterCallbacks(tr: seq<State>, steps: seq<Step>, i: nat)
    requires IsRun(tr, steps) && i < |steps|
    requires |tr[i + 1].life.closes| != |tr[i].life.closes|
    ensures tr[i + 1].life == Life(true, false, true, tr[i].life.closes + [0]) && !tr[i].life.running
    ensures Timely(tr, steps) ==>
              var g := |tr[i].life.closes| - 1;
              g >= 0 && LoopAt(tr[i], g, Gone) && tr[i].onStop[g] == 1 && tr[i].onDisconnected[g] == 1
  {
    RunKeepsBase(tr, steps, i);
    var s, u := tr[i], steps[i];
    assert Installs(s, u);
    if Timely(tr, steps) {
      assert TimelyStep(s, u);
      assert LoopOk(s, Current(s.life));
    }
  }

  /** A call that CheckState lets through finds the current loop neither reconnecting nor past its teardown. */
  lemma AcceptedWhileConnected(tr: seq<State>, steps: seq<Step>, i: nat)
    requires IsRun(tr, steps) && Timely(tr, steps) && i < |tr|
    requires tr[i].life.running && !tr[i].life.reconnecting
    ensures var g := |tr[i].life.closes| - 1;
            g >= 0 && (LoopAt(tr[i], g, Receiving) || LoopAt(tr[i], g, Exiting))
  {
    RunKeepsSingle(tr, steps, i);
    assert LoopOk(tr[i], Current(tr[i].life));
  }

  // ------------------------------------------------- one Restart at a time

  predicate Active(p: Restarter) { p.at != Ended }

  ghost predicate NoRestart(s: State) {
    forall t {:trigger s.restarts[t]} ::
      t in s.restarts ==> !Active(s.restarts[t])
  }

  /** Restart is only called when no other Restart is under way. */
  ghost predicate OneRestartAtATime(tr: seq<State>, steps: seq<Step>)
    requires IsRun(tr, steps)
  {
    forall i {:trigger steps[i]} :: 0 <= i < |steps| && steps[i].RestartBegin? ==> NoRestart(tr[i])
  }

  /** A Restart that has read recvDone waits for the current generation, which it has stopped. */
  ghost predicate RestartOk(s: State, t: Tid)
    requires t in s.restarts && |s.life.closes| > 0
  {
    var p := s.restarts[t];
    && (p.at == Read || p.at == Waits || p.at == Ready ==> p.waitsFor == Current(s.life))
    && (p.at == Ready ==> LoopAt(s, Current(s.life), Gone))
    && (Active(p) ==> s.life.started && forall d :: d in s.restarts && d != t ==> !Active(s.restarts[d]))
  }

  ghost predicate Waiting(s: State) {
    && |s.life.closes| > 0
    && forall t {:trigger RestartOk(s, t)} ::
         t in s.restarts ==> RestartOk(s, t)
  }

  lemma RestartMoves(s: State, u: Step)
    requires Base(s) && Waiting(s) && Enabled(s, u) && (u.RestartBegin? ==> NoRestart(s))
    requires u.RestartBegin? || u.RestartRead? || u.RestartStop? || u.RestartWaited?
    ensures Waiting(Apply(s, u))
  {
    var r := Apply(s, u);
    if u.t in s.restarts { assert RestartOk(s, u.t); }
    forall t | t in r.restarts ensures RestartOk(r, t) {
      if t in s.restarts { assert RestartOk(s, t); }
    }
  }

  lemma InstallMoves(s: State, t: Tid, dialOk: bool)
    requires Base(s) && Waiting(s) && RestartAt(s, t, Ready)
    ensures Waiting(DoInstall(s, t, dialOk))
  {
    var r := DoInstall(s, t, dialOk);
    assert RestartOk(s, t);
    forall d | d in r.restarts ensures RestartOk(r, d) { assert RestartOk(s, d); }
  }

  lemma LoopMoves(s: State, u: Step)
    requires Base(s) && Waiting(s) && Enabled(s, u)
    requires !u.RestartBegin? && !u.RestartRead? && !u.RestartStop? && !u.RestartWaited? && !u.RestartInstall?
    ensures Waiting(Apply(s, u))
  {
    var r := Apply(s, u);
    forall t | t in r.restarts ensures RestartOk(r, t) { assert RestartOk(s, t); }
  }

  lemma {:induction false} WaitingKept(tr: seq<State>, steps: seq<Step>, i: nat)
    requires IsRun(tr, steps) && OneRestartAtATime(tr, steps) && i < |tr|
    ensures Waiting(tr[i])
  {
    if i > 0 {
      var s, u := tr[i - 1], steps[i - 1];
      WaitingKept(tr, steps, i - 1);
      RunKeepsBase(tr, steps, i - 1);
      if u.RestartInstall? {
        InstallMoves(s, u.t, u.dialOk);
      } else if u.RestartBegin? || u.RestartRead? || u.RestartStop? || u.RestartWaited? {
        RestartMoves(s, u);
      } else {
        LoopMoves(s, u);
      }
    }
  }

  /** Restarts that do not overlap are timely, whatever Stop calls and broken conns come between. */
  lemma SeparateRestartsAreTimely(tr: seq<State>, steps: seq<Step>)
    requires IsRun(tr, steps) && OneRestartAtATime(tr, steps)
    ensures Timely(tr, steps)
  {
    forall i | 0 <= i < |steps| ensures TimelyStep(tr[i], steps[i]) {
      WaitingKept(tr, steps, i);
      if steps[i].RestartInstall? { assert RestartOk(tr[i], steps[i].t); }
    }
  }

  // ------------------------------------------------------ an untimely run

  /** Two Restart calls that both read the recvDone of generation 0. */
  const BOTH_READ := State(
    Life(true, false, true, [0]),
    map[0 := Receiving],
    map[0 := Restarter(Read, 0), 1 := Restarter(Read, 0)],
    multiset{},
    multiset{})

  /** The same two after they stopped it. */
  const BOTH_WAIT := State(
    Life(false, false, true, [1]),
    map[0 := Receiving],
    map[0 := Restarter(Waits, 0), 1 := Restarter(Waits, 0)],
    multiset{},
    multiset{})

  /** The same two once the loop has made its callbacks. */
  const BOTH_CLEANED := BOTH_WAIT.(loops := map[0 := Reported], onStop := multiset{0}, onDisconnected := multiset{0})

  /** The same two once the loop has returned. */
  const BOTH_READY := State(
    Life(false, false, true, [1]),
    map[0 := Gone],
    map[0 := Restarter(Ready, 0), 1 := Restarter(Ready, 0)],
    multiset{0},
    multiset{0})

  /** Without the discipline, those states are reachable. */
  lemma BothMayRead()
    ensures var s := Apply(Apply(Apply(Start, Run), RestartBegin(0)), RestartBegin(1));
            Apply(Apply(s, RestartRead(0)), RestartRead(1)) == BOTH_READ
  {
  }

  lemma BothMayWait()
    ensures Apply(Apply(BOTH_READ, RestartStop(0)), RestartStop(1)) == BOTH_WAIT
  {
  }

  lemma BothMayBeCleaned()
    ensures var s0 := Apply(Apply(BOTH_WAIT, LeavesLoop(0)), Clean(0));
            Apply(Apply(s0, CallOnStop(0)), CallOnDisconnected(0)) == BOTH_CLEANED
  {
  }

  lemma BothMayBeReady()
    ensures var s0 := Apply(BOTH_CLEANED, LoopReturns(0));
            Apply(Apply(s0, RestartWaited(0)), RestartWaited(1)) == BOTH_READY
  {
  }

  /** Both have installed a generation, with a Stop between the two: two loops are alive. */
  const BOTH_INSTALLED := State(
    Life(true, false, true, [1, 1, 0]),
    map[0 := Gone, 1 := Receiving, 2 := Receiving],
    map[0 := Restarter(Ended, 0), 1 := Restarter(Ended, 0)],
    multiset{0},
    multiset{0})

  lemma BothMayInstall()
    ensures var s0 := Apply(Apply(BOTH_READY, RestartInstall(0, true)), Stop);
            Apply(s0, RestartInstall(1, true)) == BOTH_INSTALLED
    ensures !OneAlive(BOTH_INSTALLED)
  {
    var s := BOTH_INSTALLED;
    assert 1 in s.loops && 2 in s.loops && Alive(s.loops[1]) && Alive(s.loops[2]);
  }

  /** From there, the teardown of the older loop clears running while the newest chClose is open. */
  lemma OverlappingRestarts()
    ensures var s := Apply(Apply(BOTH_INSTALLED, LeavesLoop(1)), Clean(1));
            !s.life.running && s.life.closes[2] == 0 && LoopAt(s, 2, Receiving)
  {
  }
}
