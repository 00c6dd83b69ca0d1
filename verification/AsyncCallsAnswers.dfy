/**
 What CallAsync does for its caller, over every run: a registered call stays
 registered until someone takes it out, whoever takes it runs its handler, and
 its object comes back to the pool (client.go, handler.go).
 */
module AsyncCallsAnswers {
  import opened Prelude
  import opened AsyncCallsModel
  import opened AsyncCallsProofs
  import opened AsyncCallsTheorems

  // ------------------------------------------------------------ registration

  /** u may take call q out of the table. */
  predicate Removes(u: Step, q: Call) {
    u == Take(q) || u == Drop(q) || u == FailDelete(q) || u.ClearAll? || u.Restart?
  }

  /** Call q is registered with object a. */
  predicate Registered(s: State, q: Call, a: Obj) { q in s.t.entries && s.t.entries[q] == a }

  /** addAsyncHandler registers the call's own object if and only if the Client runs. */
  lemma RegisteredIffRunning(tr: seq<State>, steps: seq<Step>, i: nat, q: Call)
    requires IsRun(tr, steps) && i < |steps| && steps[i] == AddObj(q)
    ensures q in tr[i].calls && q !in tr[i].t.entries
    ensures if tr[i].t.running then Registered(tr[i + 1], q, tr[i].calls[q].ah) else q !in tr[i + 1].t.entries
  {
    RunKeepsInv(tr, steps, i);
    RegisteredIsStarted(tr[i], q);
  }

  lemma RegisteredIsStarted(s: State, q: Call)
    requires Inv(s)
    ensures q in s.t.entries || q in s.taskOf ==> Started(s, q)
  {
    assert q in s.t.entries ==> EntryOk(s, q);
    assert InvokedOk(s, q);
    assert q in s.taskOf ==> TaskOk(s, s.taskOf[q]);
  }

  lemma RegisteredStep(s: State, u: Step, q: Call, a: Obj)
    requires Inv(s) && Enabled(s, u) && Registered(s, q, a) && !Removes(u, q)
    ensures Registered(Apply(s, u), q, a)
  {
    assert EntryOk(s, q);
  }

  /** No step in between takes q out. */
  ghost predicate Untouched(steps: seq<Step>, i: nat, j: nat, q: Call)
    requires i <= j <= |steps|
  {
    forall n {:trigger steps[n]} :: i <= n < j ==> !Removes(steps[n], q)
  }

  /** It stays registered until a timer, a response, a drop, a failed push, a reconnect or a Restart removes it. */
  lemma {:induction false} StaysRegistered(tr: seq<State>, steps: seq<Step>, i: nat, j: nat, q: Call, a: Obj)
    requires IsRun(tr, steps) && i <= j < |tr| && Registered(tr[i], q, a) && Untouched(steps, i, j, q)
    ensures Registered(tr[j], q, a)
  {
    if i < j {
      StaysRegistered(tr, steps, i, j - 1, q, a);
      RunKeepsInv(tr, steps, j - 1);
      RegisteredStep(tr[j - 1], steps[j - 1], q, a);
    }
  }

  // ------------------------------------------------------------- the answer

  /** A task holds call q's object and has yet to call its handler. */
  ghost predicate Pending(s: State, q: Call) {
    && q in s.taskOf && q !in s.t.entries && TaskAt(s, s.taskOf[q], Holding)
    && s.tasks[s.taskOf[q]].q == q && s.invoked[q] == 0
  }

  /** A timer or a response that finds the call registered takes it out and runs it. */
  lemma TakeStartsItsTask(tr: seq<State>, steps: seq<Step>, i: nat, q: Call)
    requires IsRun(tr, steps) && i < |steps| && steps[i] == Take(q) && q in tr[i].t.entries
    ensures Pending(tr[i + 1], q)
  {
    RunKeepsInv(tr, steps, i);
    RunKeepsInv(tr, steps, i + 1);
    assert InvokedOk(tr[i + 1], q) && TaskOk(tr[i + 1], tr[i + 1].taskOf[q]);
  }

  /** A reconnect takes out and runs every call that was registered. */
  lemma ClearStartsEveryTask(tr: seq<State>, steps: seq<Step>, i: nat, q: Call, order: seq<Call>)
    requires IsRun(tr, steps) && i < |steps| && steps[i] == ClearAll(order) && q in tr[i].t.entries
    ensures Pending(tr[i + 1], q) && tr[i + 1].t.entries == map[]
  {
    RunKeepsInv(tr, steps, i);
    RunKeepsInv(tr, steps, i + 1);
    assert q in order;
    ClearTakesEveryCall(tr[i], order, q);
    assert InvokedOk(tr[i + 1], q) && TaskOk(tr[i + 1], tr[i + 1].taskOf[q]);
    ClearEmpties(tr[i], order);
  }

  lemma {:induction false} ClearEmpties(s: State, order: seq<Call>)
    ensures forall x :: x in TakeEach(s, order).t.entries ==> x in s.t.entries && x !in order
    decreases |order|
  {
    if order != [] { ClearEmpties(DoTake(s, order[0]), order[1..]); }
  }

  /** The task can run at once, and then the handler of its call was called, once, and no other one. */
  lemma TaskCallsItsHandler(tr: seq<State>, steps: seq<Step>, i: nat, k: nat)
    requires IsRun(tr, steps) && i < |tr| && TaskAt(tr[i], k, Holding)
    ensures Enabled(tr[i], RunHandler(k))
    ensures Apply(tr[i], RunHandler(k)).invoked == tr[i].invoked + multiset{tr[i].tasks[k].q}
    ensures TaskAt(Apply(tr[i], RunHandler(k)), k, Ran)
  {
    TaskRunsItsOwnHandler(tr, steps, i, k);
  }

  lemma CountsStay(s: State, u: Step, q: Call)
    requires Enabled(s, u)
    ensures s.invoked[q] <= Apply(s, u).invoked[q]
  {
    if u.ClearAll? { TakeEachInvokes(s, u.order); }
  }

  lemma {:induction false} TakeEachInvokes(s: State, order: seq<Call>)
    ensures TakeEach(s, order).invoked == s.invoked
    decreases |order|
  {
    if order != [] { TakeEachInvokes(DoTake(s, order[0]), order[1..]); }
  }

  lemma {:induction false} CalledForGood(tr: seq<State>, steps: seq<Step>, i: nat, j: nat, q: Call)
    requires IsRun(tr, steps) && i <= j < |tr| && tr[i].invoked[q] == 1
    ensures tr[j].invoked[q] == 1
  {
    if i < j {
      CalledForGood(tr, steps, i, j - 1, q);
      CountsStay(tr[j - 1], steps[j - 1], q);
    }
    HandlerAtMostOnce(tr, steps, j, q);
  }

  /**
   End to end: a call that was added while the Client ran, whose response or
   timeout came before anything else removed it, has had its handler called
   exactly once from the moment the task that took it ran.
   */
  lemma AnsweredCallIsCalledOnce(
    tr: seq<State>, steps: seq<Step>, added: nat, taken: nat, ran: nat, i: nat, q: Call)
    requires IsRun(tr, steps) && added < taken < ran < i < |tr|
    requires steps[added] == AddObj(q) && tr[added].t.running
    requires steps[taken] == Take(q) && Untouched(steps, added + 1, taken, q)
    requires q in tr[ran].taskOf && steps[ran] == RunHandler(tr[ran].taskOf[q])
    ensures tr[i].invoked[q] == 1
  {
    RegisteredIffRunning(tr, steps, added, q);
    StaysRegistered(tr, steps, added + 1, taken, q, tr[added].calls[q].ah);
    TakeStartsItsTask(tr, steps, taken, q);
    RunKeepsInv(tr, steps, ran);
    var k := tr[ran].taskOf[q];
    assert InvokedOk(tr[ran], q) && TaskOk(tr[ran], k);
    TaskCallsItsHandler(tr, steps, ran, k);
    assert tr[ran + 1] == Apply(tr[ran], RunHandler(k));
    CalledForGood(tr, steps, ran + 1, i, q);
  }

  /** A call added to a stopped Client is never called back. */
  lemma StoppedIsNeverCalled(tr: seq<State>, steps: seq<Step>, i: nat, j: nat, q: Call)
    requires IsRun(tr, steps) && i < j < |tr| && steps[i] == AddObj(q) && !tr[i].t.running
    ensures tr[j].invoked[q] == 0
  {
    RunKeepsInv(tr, steps, i);
    RegisteredIsStarted(tr[i], q);
    RegisteredIffRunning(tr, steps, i, q);
    assert tr[i + 1] == Apply(tr[i], AddObj(q));
    SettledForever(tr, steps, i + 1, j, q);
  }

  // ------------------------------------------------------------- recycling

  /** After the handler the task empties the object and pools it: both steps can be taken. */
  lemma TaskRecyclesItsObject(tr: seq<State>, steps: seq<Step>, i: nat, k: nat)
    requires IsRun(tr, steps) && i < |tr| && TaskAt(tr[i], k, Ran)
    ensures Enabled(tr[i], ResetObj(k)) && Enabled(Apply(tr[i], ResetObj(k)), PutObj(k))
    ensures var r, a := Apply(Apply(tr[i], ResetObj(k)), PutObj(k)), tr[i].tasks[k].ah;
            TaskAt(r, k, Over) && r.t.pool[a] == 1 && a in r.t.objs && r.t.objs[a] == Empty
  {
    RunKeepsInv(tr, steps, i);
    assert TaskOk(tr[i], k) && ObjOk(tr[i], tr[i].tasks[k].ah);
  }

  /** A dropped message, or a failed push, recycles the object of a registered call. */
  lemma RemovedIsRecycled(tr: seq<State>, steps: seq<Step>, i: nat, q: Call, a: Obj)
    requires IsRun(tr, steps) && i < |steps| && (steps[i] == Drop(q) || steps[i] == FailDelete(q))
    requires Registered(tr[i], q, a)
    ensures q !in tr[i + 1].t.entries && tr[i + 1].t.pool[a] == 1
    ensures a in tr[i + 1].t.objs && tr[i + 1].t.objs[a] == Empty
  {
    RunKeepsInv(tr, steps, i);
    assert EntryOk(tr[i], q) && ObjOk(tr[i], a);
  }

  // ------------------------------------------------------------------- running

  lemma RunningAfter(s: State, u: Step)
    requires Enabled(s, u)
    ensures Apply(s, u).t.running == if u.Stop? then false else u.Restart? || s.t.running
  {
    if u.ClearAll? { TakeEachRunning(s, u.order); }
  }

  lemma {:induction false} TakeEachRunning(s: State, order: seq<Call>)
    ensures TakeEach(s, order).t.running == s.t.running
    decreases |order|
  {
    if order != [] { TakeEachRunning(DoTake(s, order[0]), order[1..]); }
  }

  /** The last Stop or Restart of the steps was no Stop. */
  function NotStopped(steps: seq<Step>): (r: bool) {
    if steps == [] then true
    else
      var last := steps[|steps| - 1];
      !last.Stop? && (last.Restart? || NotStopped(steps[..|steps| - 1]))
  }

  /** The Client takes registrations exactly while it was not stopped since it was started or restarted. */
  lemma {:induction false} RunningIffNotStopped(tr: seq<State>, steps: seq<Step>, i: nat)
    requires IsRun(tr, steps) && i < |tr|
    ensures tr[i].t.running == NotStopped(steps[..i])
  {
    if i > 0 {
      RunningIffNotStopped(tr, steps, i - 1);
      RunningAfter(tr[i - 1], steps[i - 1]);
      assert steps[..i][..i - 1] == steps[..i - 1];
    }
  }

  // ---------------------------------------------------------- what can happen

  lemma Continue(tr: seq<State>, steps: seq<Step>, u: Step) returns (more: seq<State>, longer: seq<Step>)
    requires IsRun(tr, steps) && Enabled(tr[|steps|], u)
    ensures more == tr + [Apply(tr[|steps|], u)] && longer == steps + [u] && IsRun(more, longer)
  {
    more, longer := tr + [Apply(tr[|steps|], u)], steps + [u];
    assert forall i {:trigger longer[i]} :: 0 <= i < |steps| ==> longer[i] == steps[i];
  }

  /** The run goes on. */
  ghost predicate Extends(tr: seq<State>, steps: seq<Step>, tr': seq<State>, steps': seq<Step>) {
    IsRun(tr', steps') && |steps| < |steps'| && tr <= tr' && steps <= steps'
  }

  /** Any run with the Client running goes on with a new CallAsync, whose object is pooled or new, registered. */
  lemma CallCanBegin(tr: seq<State>, steps: seq<Step>, q: Call, a: Obj) returns (tr': seq<State>, steps': seq<Step>)
    requires IsRun(tr, steps) && tr[|steps|].t.running && q !in tr[|steps|].calls
    requires a in tr[|steps|].t.pool || a !in tr[|steps|].t.objs
    ensures Extends(tr, steps, tr', steps')
    ensures var r := tr'[|steps'|];
            && Registered(r, q, a) && q in r.calls && r.calls[q] == Caller(Sending, a)
            && a in r.t.objs && r.t.objs[a] == Filled(q)
  {
    tr', steps' := Continue(tr, steps, Begin(q));
    tr', steps' := Continue(tr', steps', GetObj(q, a));
    tr', steps' := Continue(tr', steps', AddObj(q));
  }

  /** A call that someone took out can have its handler called and its object recycled. */
  lemma TaskCanEnd(tr: seq<State>, steps: seq<Step>, q: Call) returns (tr': seq<State>, steps': seq<Step>)
    requires IsRun(tr, steps) && Pending(tr[|steps|], q)
    ensures Extends(tr, steps, tr', steps')
    ensures var r, k := tr'[|steps'|], tr[|steps|].taskOf[q];
            && r.invoked[q] == 1 && TaskAt(r, k, Over) && r.t.pool[tr[|steps|].tasks[k].ah] == 1
            && r.calls == tr[|steps|].calls
  {
    var k := tr[|steps|].taskOf[q];
    TaskCallsItsHandler(tr, steps, |steps|, k);
    tr', steps' := Continue(tr, steps, RunHandler(k));
    TaskRecyclesItsObject(tr', steps', |steps'|, k);
    tr', steps' := Continue(tr', steps', ResetObj(k));
    tr', steps' := Continue(tr', steps', PutObj(k));
  }

  /** Then CallAsync can return, its response arrive, the handler run once, and the object be pooled. */
  lemma CallCanBeAnswered(tr: seq<State>, steps: seq<Step>, q: Call, a: Obj)
    returns (tr': seq<State>, steps': seq<Step>)
    requires IsRun(tr, steps) && tr[|steps|].t.running && q !in tr[|steps|].calls
    requires a in tr[|steps|].t.pool || a !in tr[|steps|].t.objs
    ensures Extends(tr, steps, tr', steps')
    ensures var r := tr'[|steps'|];
            r.invoked[q] == 1 && q in r.calls && r.calls[q].at == Returned && r.t.pool[a] == 1
  {
    tr', steps' := CallCanBegin(tr, steps, q, a);
    tr', steps' := Continue(tr', steps', PushOk(q));
    var n := |steps'|;
    tr', steps' := Continue(tr', steps', Take(q));
    TakeStartsItsTask(tr', steps', n, q);
    assert tr'[n + 1].tasks[tr'[n + 1].taskOf[q]].ah == a;
    tr', steps' := TaskCanEnd(tr', steps', q);
  }

  /** Or its push can fail: it returns the error, nothing is called, and the object is pooled. */
  lemma CallCanFail(tr: seq<State>, steps: seq<Step>, q: Call, a: Obj) returns (tr': seq<State>, steps': seq<Step>)
    requires IsRun(tr, steps) && tr[|steps|].t.running && q !in tr[|steps|].calls
    requires a in tr[|steps|].t.pool || a !in tr[|steps|].t.objs
    ensures Extends(tr, steps, tr', steps')
    ensures var r := tr'[|steps'|];
            && r.invoked[q] == 0 && q in r.calls && r.calls[q].at == Returned
            && r.t.pool[a] == 1 && q !in r.t.entries
  {
    tr', steps' := CallCanBegin(tr, steps, q, a);
    tr', steps' := Continue(tr', steps', PushFails(q));
    var n := |steps'|;
    tr', steps' := Continue(tr', steps', FailDelete(q));
    RemovedIsRecycled(tr', steps', n, q, a);
    RunKeepsInv(tr', steps', n);
    assert EntryOk(tr'[n], q);
    ErrorReturnWithoutCall(tr', steps', n, n + 1, q);
  }

  /** Or a reconnect can come first: the handler is called then. */
  lemma CallCanBeCleared(tr: seq<State>, steps: seq<Step>, q: Call, a: Obj, order: seq<Call>)
    returns (tr': seq<State>, steps': seq<Step>)
    requires IsRun(tr, steps) && Registered(tr[|steps|], q, a)
    requires Distinct(order) && forall x :: x in order <==> x in tr[|steps|].t.entries
    ensures Extends(tr, steps, tr', steps') && tr'[|steps'|].invoked[q] == 1
  {
    tr', steps' := Continue(tr, steps, ClearAll(order));
    ClearStartsEveryTask(tr', steps', |steps|, q, order);
    tr', steps' := TaskCanEnd(tr', steps', q);
  }

  /** A drop, a Stop and a Restart can come at any time, and a pool may lose what it has. */
  lemma ClientCanRestart(tr: seq<State>, steps: seq<Step>, q: Call) returns (tr': seq<State>, steps': seq<Step>)
    requires IsRun(tr, steps)
    ensures Extends(tr, steps, tr', steps') && tr'[|steps'|].t.running && tr'[|steps'|].t.entries == map[]
    ensures tr'[|steps'|].calls == tr[|steps|].calls && tr'[|steps'|].invoked == tr[|steps|].invoked
  {
    tr', steps' := Continue(tr, steps, Drop(q));
    tr', steps' := Continue(tr', steps', Stop);
    tr', steps' := Continue(tr', steps', Restart);
  }
}
