/** The promises of CallAsync's pending table, for every run. */
module AsyncCallsTheorems {
  import opened Prelude
  import opened AsyncCallsModel
  import opened AsyncCallsProofs

  lemma {:induction false} RunKeepsInv(tr: seq<State>, steps: seq<Step>, i: nat)
    requires IsRun(tr, steps) && i < |tr|
    ensures Inv(tr[i])
  {
    if i > 0 {
      RunKeepsInv(tr, steps, i - 1);
      StepKeepsInv(tr[i - 1], steps[i - 1]);
    }
  }

  /** Whatever mix of responses, timeouts, drops, reconnects and restarts: a handler is called at most once. */
  lemma HandlerAtMostOnce(tr: seq<State>, steps: seq<Step>, i: nat, q: Call)
    requires IsRun(tr, steps) && i < |tr|
    ensures tr[i].invoked[q] <= 1
  {
    var s := tr[i];
    RunKeepsInv(tr, steps, i);
    assert InvokedOk(s, q);
    if q in s.taskOf { assert TaskOk(s, s.taskOf[q]); }
  }

  /** Who can reach object a, read off the real state. */
  ghost predicate Owns(s: State, a: Obj, o: Owner) {
    match o
    case InTable(q) => q in s.t.entries && s.t.entries[q] == a
    case InTask(i) => i < |s.tasks| && s.tasks[i].ah == a && s.tasks[i].at != Over
    case InPool => s.t.pool[a] > 0
    case InCall(q) => q in s.calls && s.calls[q].at == Got && s.calls[q].ah == a
    case Lost => false
  }

  lemma OwnerIsNamed(s: State, a: Obj, o: Owner)
    requires Inv(s) && Owns(s, a, o)
    ensures a in s.t.objs && a in s.owner && s.owner[a] == o
  {
    match o {
      case InTable(q) => assert EntryOk(s, q);
      case InTask(i) => assert TaskOk(s, i);
      case InPool => assert a in s.t.objs ==> ObjOk(s, a);
      case InCall(q) => assert CallOk(s, q);
      case Lost =>
    }
  }

  /** Each pooled asyncHandler has at most one owner: a table entry, a running task, the pool or a call being set up. */
  lemma ObjectHasOneOwner(tr: seq<State>, steps: seq<Step>, i: nat, a: Obj, o: Owner, o': Owner)
    requires IsRun(tr, steps) && i < |tr|
    requires Owns(tr[i], a, o) && Owns(tr[i], a, o')
    ensures o == o'
    ensures tr[i].t.pool[a] <= 1
    ensures o == InPool ==> a in tr[i].t.objs && tr[i].t.objs[a] == Empty
  {
    RunKeepsInv(tr, steps, i);
    OwnerIsNamed(tr[i], a, o);
    OwnerIsNamed(tr[i], a, o');
    assert ObjOk(tr[i], a);
  }

  /** A task calls the handler of the very call it was taken for, never one of a recycled object. */
  lemma TaskRunsItsOwnHandler(tr: seq<State>, steps: seq<Step>, i: nat, k: nat)
    requires IsRun(tr, steps) && i < |tr| && TaskAt(tr[i], k, Holding)
    ensures tr[i].tasks[k].ah in tr[i].t.objs
    ensures tr[i].t.objs[tr[i].tasks[k].ah].handler == Some(tr[i].tasks[k].q)
    ensures tr[i].invoked[tr[i].tasks[k].q] == 0
  {
    RunKeepsInv(tr, steps, i);
    assert TaskOk(tr[i], k) && ObjOk(tr[i], tr[i].tasks[k].ah);
  }

  // --------------------------------------------- error returns and dropped calls

  /** Call q is past the table and nobody took its object to run it. */
  ghost predicate Settled(s: State, q: Call) {
    && Started(s, q)
    && q !in s.t.entries
    && q !in s.taskOf
  }

  lemma {:induction false} TakeEachSettled(s: State, order: seq<Call>, q: Call)
    requires Settled(s, q)
    ensures Settled(TakeEach(s, order), q)
    decreases |order|
  {
    if order != [] { TakeEachSettled(DoTake(s, order[0]), order[1..], q); }
  }

  lemma SettledStays(s: State, u: Step, q: Call)
    requires Settled(s, q) && Enabled(s, u)
    ensures Settled(Apply(s, u), q)
  {
    if u.ClearAll? { TakeEachSettled(s, u.order, q); }
  }

  lemma {:induction false} SettledForever(tr: seq<State>, steps: seq<Step>, i: nat, j: nat, q: Call)
    requires IsRun(tr, steps) && i <= j < |tr| && Settled(tr[i], q)
    ensures Settled(tr[j], q) && tr[j].invoked[q] == 0
  {
    if i < j {
      SettledForever(tr, steps, i, j - 1, q);
      SettledStays(tr[j - 1], steps[j - 1], q);
    }
    RunKeepsInv(tr, steps, j);
    assert InvokedOk(tr[j], q);
  }

  lemma {:induction false} TakeEachKeepsTask(s: State, order: seq<Call>, q: Call)
    requires Inv(s) && q in s.taskOf
    ensures q in TakeEach(s, order).taskOf
    decreases |order|
  {
    if order != [] {
      TakeInv(s, order[0]);
      TakeEachKeepsTask(DoTake(s, order[0]), order[1..], q);
    }
  }

  lemma TakenStays(s: State, u: Step, q: Call)
    requires Inv(s) && Enabled(s, u) && q in s.taskOf
    ensures q in Apply(s, u).taskOf
  {
    if u.ClearAll? { TakeEachKeepsTask(s, u.order, q); }
  }

  lemma {:induction false} TakenForever(tr: seq<State>, steps: seq<Step>, i: nat, j: nat, q: Call)
    requires IsRun(tr, steps) && i <= j < |tr| && q in tr[i].taskOf
    ensures q in tr[j].taskOf
  {
    if i < j {
      TakenForever(tr, steps, i, j - 1, q);
      RunKeepsInv(tr, steps, j - 1);
      TakenStays(tr[j - 1], steps[j - 1], q);
    }
  }

  /**
   CallAsync promises that the handler of a call that returned an error is not
   called. That holds exactly when nobody had taken the entry (its timer while
   the push was blocked, a response or a reconnect) before the failed push
   deletes it; otherwise the handler has run as soon as that task gets to it.
   */
  lemma ErrorReturnWithoutCall(tr: seq<State>, steps: seq<Step>, i: nat, j: nat, q: Call)
    requires IsRun(tr, steps) && i < j < |tr| && steps[i] == FailDelete(q)
    ensures q in tr[i].taskOf ==> q in tr[j].taskOf && tr[j].taskOf[q] < |tr[j].tasks|
    ensures tr[j].invoked[q] == 0 <==> (q in tr[i].taskOf ==> tr[j].tasks[tr[j].taskOf[q]].at == Holding)
  {
    var s := tr[i];
    RunKeepsInv(tr, steps, i);
    if q in s.taskOf {
      TakenForever(tr, steps, i, j, q);
      RunKeepsInv(tr, steps, j);
      assert InvokedOk(tr[j], q) && TaskOk(tr[j], tr[j].taskOf[q]);
    } else {
      assert tr[i + 1] == Apply(s, FailDelete(q));
      assert Settled(tr[i + 1], q);
      SettledForever(tr, steps, i + 1, j, q);
    }
  }

  /**
   How often the leader of an async singleflight call has published when its own
   request is call q: once in each call of its wrapped handler, and once when
   CallAsync returned an error.
   */
  ghost function Publications(tr: seq<State>, steps: seq<Step>, j: nat, q: Call): (n: nat)
    requires IsRun(tr, steps) && j < |tr|
  {
    tr[j].invoked[q] + if FailDelete(q) in steps[..j] then 1 else 0
  }

  /** Call q's push had failed when its entry was already taken, and the task that took it has called the handler. */
  ghost predicate FailedTooLate(tr: seq<State>, steps: seq<Step>, i: nat, j: nat, q: Call)
    requires IsRun(tr, steps) && i < j < |tr|
  {
    && steps[i] == FailDelete(q) && q in tr[i].taskOf && q in tr[j].taskOf
    && tr[j].taskOf[q] < |tr[j].tasks| && tr[j].tasks[tr[j].taskOf[q]].at != Holding
  }

  /** A leader publishes at most twice, and twice exactly when its push failed after its entry was taken and run. */
  lemma PublishesTwiceIff(tr: seq<State>, steps: seq<Step>, j: nat, q: Call)
    requires IsRun(tr, steps) && j < |tr|
    ensures Publications(tr, steps, j, q) <= 2
    ensures Publications(tr, steps, j, q) == 2 <==> exists i :: 0 <= i < j && FailedTooLate(tr, steps, i, j, q)
  {
    HandlerAtMostOnce(tr, steps, j, q);
    if FailDelete(q) in steps[..j] {
      var i: nat :| i < j && steps[..j][i] == FailDelete(q);
      ErrorReturnWithoutCall(tr, steps, i, j, q);
      if tr[j].invoked[q] == 1 { assert FailedTooLate(tr, steps, i, j, q); }
    }
    if i: nat :| i < j && FailedTooLate(tr, steps, i, j, q) {
      assert steps[..j][i] == FailDelete(q);
      ErrorReturnWithoutCall(tr, steps, i, j, q);
    }
  }

  /** A request dropped while its call was pending never has its handler called. */
  lemma DroppedIsNeverCalled(tr: seq<State>, steps: seq<Step>, i: nat, j: nat, q: Call)
    requires IsRun(tr, steps) && i < j < |tr| && steps[i] == Drop(q) && q in tr[i].t.entries
    ensures tr[j].invoked[q] == 0
  {
    RunKeepsInv(tr, steps, i);
    assert EntryOk(tr[i], q);
    assert tr[i + 1] == Apply(tr[i], Drop(q));
    SettledForever(tr, steps, i + 1, j, q);
  }

  /** A reconnect empties the table, and every pending call gets a task that runs its handler. */
  lemma {:induction false} ClearTakesEveryCall(s: State, order: seq<Call>, q: Call)
    requires Inv(s) && q in order && q in s.t.entries
    ensures var r := TakeEach(s, order);
            && q !in r.t.entries
            && q in r.taskOf
            && r.taskOf[q] < |r.tasks|
            && r.tasks[r.taskOf[q]].at == Holding
    decreases |order|
  {
    var s' := DoTake(s, order[0]);
    TakeInv(s, order[0]);
    if q == order[0] {
      TakenStaysHeld(s', order[1..], q);
    } else {
      ClearTakesEveryCall(s', order[1..], q);
    }
  }

  lemma {:induction false} TakenStaysHeld(s: State, order: seq<Call>, q: Call)
    requires Inv(s) && q !in s.t.entries
    requires q in s.taskOf && s.taskOf[q] < |s.tasks| && s.tasks[s.taskOf[q]].at == Holding
    ensures var r := TakeEach(s, order);
            && q !in r.t.entries
            && q in r.taskOf
            && r.taskOf[q] < |r.tasks|
            && r.tasks[r.taskOf[q]].at == Holding
    decreases |order|
  {
    if order != [] {
      TakeInv(s, order[0]);
      TakenStaysHeld(DoTake(s, order[0]), order[1..], q);
    }
  }

  /** A timer that fired while the push was blocked: the object is with the timer's task. */
  const FIRED := State(
    Table(map[], map[0 := Handler(Some(0), Some(0))], multiset{}, true),
    map[0 := Caller(Sending, 0)], [Task(0, 0, Holding)], multiset{}, map[0 := InTask(0)], map[0 := 0])

  lemma TimerMayFireFirst()
    ensures var s := Apply(Apply(Start, Begin(0)), GetObj(0, 0));
            Apply(Apply(s, AddObj(0)), Take(0)) == FIRED
  {
  }

  /** The failing case exists: the push then fails, and the caller gets both an error and its handler called. */
  lemma HandlerAndError()
    ensures var s := Apply(Apply(FIRED, PushFails(0)), FailDelete(0));
            Apply(s, RunHandler(0)).calls[0].at == Returned && Apply(s, RunHandler(0)).invoked[0] == 1
  {
  }
}
