/** What every run of CallAsync, responses, timeouts, drops, reconnects and restarts keeps. */
module AsyncCallsProofs {
  import opened Prelude
  import opened AsyncCallsModel

  // ---------------------------------------------------------------- invariant

  function Filled(q: Call): (h: Handler) { Handler(Some(q), Some(q)) }

  /** The object has the one owner the history names, and that owner's view of it is right. */
  ghost predicate ObjOk(s: State, a: Obj)
    requires a in s.t.objs
  {
    a in s.owner &&
    match s.owner[a]
    case InTable(q) => q in s.t.entries && s.t.entries[q] == a && s.t.objs[a] == Filled(q) && s.t.pool[a] == 0
    case InTask(i) =>
      && i < |s.tasks| && s.tasks[i].ah == a && s.tasks[i].at != Over && s.t.pool[a] == 0
      && s.t.objs[a] == (if s.tasks[i].at == Cleared then Empty else Filled(s.tasks[i].q))
    case InPool => s.t.pool[a] == 1 && s.t.objs[a] == Empty
    case InCall(q) =>
      q in s.calls && s.calls[q].at == Got && s.calls[q].ah == a && s.t.objs[a] == Filled(q) && s.t.pool[a] == 0
    case Lost => s.t.pool[a] == 0
  }

  /** Call q has reached the table or gone past it. */
  predicate Started(s: State, q: Call) { q in s.calls && s.calls[q].at != Armed && s.calls[q].at != Got }

  ghost predicate EntryOk(s: State, q: Call)
    requires q in s.t.entries
  {
    s.t.entries[q] in s.t.objs && s.t.entries[q] in s.owner && s.owner[s.t.entries[q]] == InTable(q)
    && Started(s, q) && q !in s.taskOf
  }

  ghost predicate TaskOk(s: State, i: nat)
    requires i < |s.tasks|
  {
    var k := s.tasks[i];
    && k.q in s.taskOf && s.taskOf[k.q] == i && Started(s, k.q) && k.q !in s.t.entries
    && (k.at != Over ==> k.ah in s.t.objs && k.ah in s.owner && s.owner[k.ah] == InTask(i))
    && s.invoked[k.q] == (if k.at == Holding then 0 else 1)
  }

  ghost predicate CallOk(s: State, q: Call)
    requires q in s.calls
  {
    s.calls[q].at == Got ==>
      s.calls[q].ah in s.t.objs && s.calls[q].ah in s.owner && s.owner[s.calls[q].ah] == InCall(q)
  }

  ghost predicate InvokedOk(s: State, q: Call) {
    if q in s.taskOf then s.taskOf[q] < |s.tasks| && s.tasks[s.taskOf[q]].q == q else s.invoked[q] == 0
  }

  ghost predicate ObjsOk(s: State) {
    && (forall a {:trigger ObjOk(s, a)} ::
          a in s.t.objs ==> ObjOk(s, a))
    && (forall a {:trigger s.t.pool[a]} ::
          a !in s.t.objs ==> s.t.pool[a] == 0)
  }

  ghost predicate Inv(s: State) {
    && ObjsOk(s)
    && (forall q {:trigger EntryOk(s, q)} ::
          q in s.t.entries ==> EntryOk(s, q))
    && (forall i: nat {:trigger TaskOk(s, i)} ::
          i < |s.tasks| ==> TaskOk(s, i))
    && (forall q {:trigger CallOk(s, q)} ::
          q in s.calls ==> CallOk(s, q))
    && (forall q {:trigger InvokedOk(s, q)} ::
          InvokedOk(s, q))
  }

  // ------------------------------------------------------------- step lemmas

  /** A call moves on; nothing else changes. */
  lemma CallMoves(s: State, r: State, q: Call)
    requires Inv(s) && r.t.entries == s.t.entries && r.t.objs == s.t.objs && r.t.pool == s.t.pool
    requires r.tasks == s.tasks && r.invoked == s.invoked && r.owner == s.owner && r.taskOf == s.taskOf
    requires q in r.calls && r.calls == s.calls[q := r.calls[q]] && r.calls[q].at != Got
    requires q in s.calls ==> s.calls[q].at != Got && (Started(s, q) ==> Started(r, q))
    ensures Inv(r)
  {
    forall a | a in r.t.objs ensures ObjOk(r, a) { assert ObjOk(s, a); }
    forall d | d in r.t.entries ensures EntryOk(r, d) { assert EntryOk(s, d); }
    forall i: nat | i < |r.tasks| ensures TaskOk(r, i) { assert TaskOk(s, i); }
    forall d | d in r.calls ensures CallOk(r, d) { assert d != q ==> CallOk(s, d); }
    forall d ensures InvokedOk(r, d) { assert InvokedOk(s, d); }
  }

  lemma GetInv(s: State, q: Call, a: Obj)
    requires Inv(s) && Enabled(s, GetObj(q, a))
    ensures Inv(DoGet(s, q, a))
  {
    var r := DoGet(s, q, a);
    assert a in s.t.objs ==> ObjOk(s, a);
    assert InvokedOk(s, q);
    assert ObjsOk(r) by {
      forall b | b in r.t.objs ensures ObjOk(r, b) { if b != a { assert ObjOk(s, b); } }
    }
    forall d | d in r.t.entries ensures EntryOk(r, d) { assert EntryOk(s, d); }
    forall i: nat | i < |r.tasks| ensures TaskOk(r, i) { assert TaskOk(s, i); }
    forall d | d in r.calls ensures CallOk(r, d) { assert d != q ==> CallOk(s, d); }
    forall d ensures InvokedOk(r, d) { assert InvokedOk(s, d); }
  }

  lemma AddInv(s: State, q: Call)
    requires Inv(s) && Enabled(s, AddObj(q))
    ensures Inv(DoAdd(s, q))
  {
    var r, a := DoAdd(s, q), s.calls[q].ah;
    assert CallOk(s, q) && ObjOk(s, a) && InvokedOk(s, q);
    assert q in s.t.entries ==> EntryOk(s, q);
    assert q in s.taskOf ==> TaskOk(s, s.taskOf[q]);
    assert ObjsOk(r) by {
      forall b | b in r.t.objs ensures ObjOk(r, b) { if b != a { assert ObjOk(s, b); } }
    }
    forall d | d in r.t.entries ensures EntryOk(r, d) { if d != q { assert EntryOk(s, d); } }
    forall i: nat | i < |r.tasks| ensures TaskOk(r, i) { assert TaskOk(s, i); }
    forall d | d in r.calls ensures CallOk(r, d) { assert d != q ==> CallOk(s, d); }
    forall d ensures InvokedOk(r, d) { assert InvokedOk(s, d); }
  }

  lemma DeleteInv(s: State, q: Call)
    requires Inv(s)
    ensures Inv(DoDelete(s, q))
  {
    if q in s.t.entries {
      var r, a := DoDelete(s, q), s.t.entries[q];
      assert EntryOk(s, q) && ObjOk(s, a);
      assert ObjsOk(r) by {
        forall b | b in r.t.objs ensures ObjOk(r, b) { if b != a { assert ObjOk(s, b); } }
      }
      forall d | d in r.t.entries ensures EntryOk(r, d) { assert EntryOk(s, d); }
      forall i: nat | i < |r.tasks| ensures TaskOk(r, i) { assert TaskOk(s, i); }
      forall d | d in r.calls ensures CallOk(r, d) { assert CallOk(s, d); }
      forall d ensures InvokedOk(r, d) { assert InvokedOk(s, d); }
    }
  }

  lemma TakeInv(s: State, q: Call)
    requires Inv(s)
    ensures Inv(DoTake(s, q))
  {
    if q in s.t.entries {
      var r, a := DoTake(s, q), s.t.entries[q];
      assert EntryOk(s, q) && ObjOk(s, a) && InvokedOk(s, q);
      assert ObjsOk(r) by {
        forall b | b in r.t.objs ensures ObjOk(r, b) { if b != a { assert ObjOk(s, b); } }
      }
      forall d | d in r.t.entries ensures EntryOk(r, d) { assert EntryOk(s, d); }
      forall i: nat | i < |r.tasks| ensures TaskOk(r, i) { if i < |s.tasks| { assert TaskOk(s, i); } }
      forall d | d in r.calls ensures CallOk(r, d) { assert CallOk(s, d); }
      forall d ensures InvokedOk(r, d) { assert InvokedOk(s, d); }
    }
  }

  lemma {:induction false} TakeEachInv(s: State, order: seq<Call>)
    requires Inv(s)
    ensures Inv(TakeEach(s, order))
    decreases |order|
  {
    if order != [] {
      TakeInv(s, order[0]);
      TakeEachInv(DoTake(s, order[0]), order[1..]);
    }
  }

  lemma RunInv(s: State, i: nat)
    requires Inv(s) && Enabled(s, RunHandler(i))
    ensures Inv(DoRun(s, i))
  {
    var r, k := DoRun(s, i), s.tasks[i];
    assert TaskOk(s, i) && ObjOk(s, k.ah);
    forall b | b in r.t.objs ensures ObjOk(r, b) { assert ObjOk(s, b); }
    forall d | d in r.t.entries ensures EntryOk(r, d) { assert EntryOk(s, d); }
    forall j: nat | j < |r.tasks| ensures TaskOk(r, j) { assert TaskOk(s, j); }
    forall d | d in r.calls ensures CallOk(r, d) { assert CallOk(s, d); }
    forall d ensures InvokedOk(r, d) { assert InvokedOk(s, d); }
  }

  lemma RecycleInv(s: State, r: State, i: nat)
    requires Inv(s)
    requires (TaskAt(s, i, Ran) && r == DoReset(s, i)) || (TaskAt(s, i, Cleared) && r == DoPut(s, i))
    ensures Inv(r)
  {
    var a := s.tasks[i].ah;
    assert TaskOk(s, i) && ObjOk(s, a);
    assert ObjsOk(r) by {
      forall b | b in r.t.objs ensures ObjOk(r, b) { assert ObjOk(s, b); }
    }
    forall d | d in r.t.entries ensures EntryOk(r, d) { assert EntryOk(s, d); }
    forall j: nat | j < |r.tasks| ensures TaskOk(r, j) { assert TaskOk(s, j); }
    forall d | d in r.calls ensures CallOk(r, d) { assert CallOk(s, d); }
    forall d ensures InvokedOk(r, d) { assert InvokedOk(s, d); }
  }

  lemma RestartInv(s: State)
    requires Inv(s)
    ensures Inv(DoRestart(s))
  {
    var r := DoRestart(s);
    forall b | b in r.t.objs ensures ObjOk(r, b) { assert ObjOk(s, b); }
    forall j: nat | j < |r.tasks| ensures TaskOk(r, j) { assert TaskOk(s, j); }
    forall d | d in r.calls ensures CallOk(r, d) { assert CallOk(s, d); }
    forall d ensures InvokedOk(r, d) { assert InvokedOk(s, d); }
  }

  lemma PoolDropInv(s: State, a: Obj)
    requires Inv(s) && a in s.t.pool
    ensures Inv(Apply(s, PoolDrops(a)))
  {
    var r := Apply(s, PoolDrops(a));
    assert ObjOk(s, a);
    assert ObjsOk(r) by {
      forall b | b in r.t.objs ensures ObjOk(r, b) { assert ObjOk(s, b); }
    }
    forall d | d in r.t.entries ensures EntryOk(r, d) { assert EntryOk(s, d); }
    forall j: nat | j < |r.tasks| ensures TaskOk(r, j) { assert TaskOk(s, j); }
    forall d | d in r.calls ensures CallOk(r, d) { assert CallOk(s, d); }
    forall d ensures InvokedOk(r, d) { assert InvokedOk(s, d); }
  }

  lemma StopInv(s: State)
    requires Inv(s)
    ensures Inv(Apply(s, Stop))
  {
    var r := Apply(s, Stop);
    forall b | b in r.t.objs ensures ObjOk(r, b) { assert ObjOk(s, b); }
    forall d | d in r.t.entries ensures EntryOk(r, d) { assert EntryOk(s, d); }
    forall j: nat | j < |r.tasks| ensures TaskOk(r, j) { assert TaskOk(s, j); }
    forall d | d in r.calls ensures CallOk(r, d) { assert CallOk(s, d); }
    forall d ensures InvokedOk(r, d) { assert InvokedOk(s, d); }
  }

  lemma StepKeepsInv(s: State, u: Step)
    requires Inv(s) && Enabled(s, u)
    ensures Inv(Apply(s, u))
  {
    match u {
      case Begin(q) => CallMoves(s, Apply(s, u), q);
      case GetObj(q, a) => GetInv(s, q, a);
      case AddObj(q) => AddInv(s, q);
      case PushOk(q) => CallMoves(s, Apply(s, u), q);
      case PushFails(q) => CallMoves(s, Apply(s, u), q);
      case FailDelete(q) =>
        DeleteInv(s, q);
        CallMoves(DoDelete(s, q), Apply(s, u), q);
      case Take(q) => TakeInv(s, q);
      case Drop(q) => DeleteInv(s, q);
      case ClearAll(order) => TakeEachInv(s, order);
      case RunHandler(i) => RunInv(s, i);
      case ResetObj(i) => RecycleInv(s, DoReset(s, i), i);
      case PutObj(i) => RecycleInv(s, DoPut(s, i), i);
      case Stop => StopInv(s);
      case Restart => RestartInv(s);
      case PoolDrops(a) => PoolDropInv(s, a);
    }
  }
}
