/**
 The table of pending CallAsync handlers (client.go, callAsyncOnce,
 addAsyncHandler, deleteAsyncHandler, getAndDeleteAsyncHandler,
 clearAsyncHandler; handler.go, getAsyncHandler, putAsyncHandler and the
 response case of OnMessage).

 Table is the map guarded by the Client's lock together with the pooled
 asyncHandler objects; its functions are the critical sections, and the class
 in PendingTables.dfy is proved to perform them. State adds any number of
 CallAsync invocations, named by their sequence number, and whoever took
 an object out of the table to run its handler.
 */
module AsyncCallsModel {
  import opened Prelude

  type Call = nat

  /** asyncHandler: whose timer and whose handler it carries. */
  datatype Handler = Handler(timer: Option<Call>, handler: Option<Call>)

  const Empty := Handler(None, None)

  datatype Table<!A> = Table(entries: map<Call, A>, objs: map<A, Handler>, pool: multiset<A>, running: bool) {
    /** getAsyncHandler with the object a, which came from the pool or is new. */
    function Get(a: A, q: Call): (t: Table<A>) {
      this.(objs := objs[a := Handler(Some(q), Some(q))], pool := pool - multiset{a})
    }

    function Add(q: Call, a: A): (t: Table<A>) { if running then this.(entries := entries[q := a]) else this }

    /** deleteAsyncHandler: remove the entry and recycle its object. */
    function Delete(q: Call): (t: Table<A>) {
      if q in entries then this.(entries := entries - {q}).Put(entries[q]) else this
    }

    /** getAndDeleteAsyncHandler. */
    function Remove(q: Call): (t: Table<A>) { this.(entries := entries - {q}) }

    function Clear(): (t: Table<A>) { this.(entries := map[]) }

    /** putAsyncHandler. */
    function Put(a: A): (t: Table<A>) { this.(objs := objs[a := Empty], pool := pool + multiset{a}) }
  }

  type Obj = nat

  datatype Phase =
    | Armed     // timer started, before getAsyncHandler
    | Got       // object filled in, before addAsyncHandler
    | Sending   // before the push returns
    | Failed    // the push failed, before deleteAsyncHandler
    | Returned

  /** A CallAsync invocation and the object in its local variable ah. */
  datatype Caller = Caller(at: Phase, ah: Obj)

  datatype TaskPhase = Holding | Ran | Cleared | Over

  /** Someone that took call q's object out of the table: timer, response or clearAsyncHandler. */
  datatype Task = Task(q: Call, ah: Obj, at: TaskPhase)

  datatype Owner = InTable(q: Call) | InTask(i: nat) | InPool | InCall(q: Call) | Lost

  datatype State = State(
    t: Table<Obj>,
    calls: map<Call, Caller>,
    tasks: seq<Task>,
    invoked: multiset<Call>,     // calls of each CallAsync's handler
    // History.
    owner: map<Obj, Owner>,
    taskOf: map<Call, nat>)      // who took each call's object

  const Start := State(Table(map[], map[], multiset{}, true), map[], [], multiset{}, map[], map[])

  datatype Step =
    | Begin(q: Call)                       // newRequestMessage and AfterFunc
    | GetObj(q: Call, a: Obj)
    | AddObj(q: Call)
    | PushOk(q: Call)
    | PushFails(q: Call)
    | FailDelete(q: Call)
    | Take(q: Call)                        // q's timer fires, or a response carries q
    | Drop(q: Call)                        // dropMessage of any message that carries q
    | ClearAll(order: seq<Call>)           // clearAsyncHandler, in some iteration order
    | RunHandler(i: nat)
    | ResetObj(i: nat)
    | PutObj(i: nat)
    | Stop
    | Restart
    | PoolDrops(a: Obj)

  predicate TaskAt(s: State, i: nat, at: TaskPhase) { i < |s.tasks| && s.tasks[i].at == at }

  ghost predicate Enabled(s: State, u: Step) {
    match u
    case Begin(q) => q !in s.calls
    case GetObj(q, a) => q in s.calls && s.calls[q].at == Armed && (a in s.t.pool || a !in s.t.objs)
    case AddObj(q) => q in s.calls && s.calls[q].at == Got
    case PushOk(q) => q in s.calls && s.calls[q].at == Sending
    case PushFails(q) => q in s.calls && s.calls[q].at == Sending
    case FailDelete(q) => q in s.calls && s.calls[q].at == Failed
    case Take(q) => true
    case Drop(q) => true
    case ClearAll(order) => Distinct(order) && forall q :: q in order <==> q in s.t.entries
    case RunHandler(i) => TaskAt(s, i, Holding) && s.tasks[i].ah in s.t.objs
    case ResetObj(i) => TaskAt(s, i, Ran)
    case PutObj(i) => TaskAt(s, i, Cleared)
    case Stop => true
    case Restart => true
    case PoolDrops(a) => a in s.t.pool
  }

  function Go(s: State, q: Call, at: Phase): (m: map<Call, Caller>)
    requires q in s.calls
  {
    s.calls[q := s.calls[q].(at := at)]
  }

  function DoGet(s: State, q: Call, a: Obj): (r: State)
    requires q in s.calls
  {
    s.(t := s.t.Get(a, q), calls := s.calls[q := Caller(Got, a)], owner := s.owner[a := InCall(q)])
  }

  function DoAdd(s: State, q: Call): (r: State)
    requires q in s.calls
  {
    var a := s.calls[q].ah;
    s.(t := s.t.Add(q, a), calls := Go(s, q, Sending), owner := s.owner[a := if s.t.running then InTable(q) else Lost])
  }

  /** The entry of q, if any, is recycled. */
  function DoDelete(s: State, q: Call): (r: State) {
    if q in s.t.entries then s.(t := s.t.Delete(q), owner := s.owner[s.t.entries[q] := InPool]) else s
  }

  /** The object of q, if any, moves to a new task. */
  function DoTake(s: State, q: Call): (r: State) {
    if q in s.t.entries then
      s.(t := s.t.Remove(q),
         tasks := s.tasks + [Task(q, s.t.entries[q], Holding)],
         owner := s.owner[s.t.entries[q] := InTask(|s.tasks|)],
         taskOf := s.taskOf[q := |s.tasks|])
    else s
  }

  /** clearAsyncHandler: the map is replaced in one critical section, then each object becomes a task. */
  function TakeEach(s: State, order: seq<Call>): (r: State)
    decreases |order|
  {
    if order == [] then s else TakeEach(DoTake(s, order[0]), order[1..])
  }

  function TaskTo(s: State, i: nat, at: TaskPhase): (r: seq<Task>)
    requires i < |s.tasks|
  {
    s.tasks[i := s.tasks[i].(at := at)]
  }

  /** ah.handler(...): whatever handler the object carries at this moment. */
  function DoRun(s: State, i: nat): (r: State)
    requires i < |s.tasks| && s.tasks[i].ah in s.t.objs
  {
    var h := s.t.objs[s.tasks[i].ah].handler;
    s.(tasks := TaskTo(s, i, Ran), invoked := if h.Some? then s.invoked + multiset{h.value} else s.invoked)
  }

  function DoReset(s: State, i: nat): (r: State)
    requires i < |s.tasks|
  {
    s.(t := s.t.(objs := s.t.objs[s.tasks[i].ah := Empty]), tasks := TaskTo(s, i, Cleared))
  }

  function DoPut(s: State, i: nat): (r: State)
    requires i < |s.tasks|
  {
    s.(t := s.t.(pool := s.t.pool + multiset{s.tasks[i].ah}), tasks := TaskTo(s, i, Over),
       owner := s.owner[s.tasks[i].ah := InPool])
  }

  /** Restart installs a new map; the objects of the old one are garbage. */
  function DoRestart(s: State): (r: State) {
    s.(t := s.t.(entries := map[], running := true),
       owner := map a | a in s.owner :: if s.owner[a].InTable? then Lost else s.owner[a])
  }

  ghost function Apply(s: State, u: Step): (r: State)
    requires Enabled(s, u)
  {
    match u
    case Begin(q) => s.(calls := s.calls[q := Caller(Armed, 0)])
    case GetObj(q, a) => DoGet(s, q, a)
    case AddObj(q) => DoAdd(s, q)
    case PushOk(q) => s.(calls := Go(s, q, Returned))
    case PushFails(q) => s.(calls := Go(s, q, Failed))
    case FailDelete(q) => DoDelete(s, q).(calls := Go(s, q, Returned))
    case Take(q) => DoTake(s, q)
    case Drop(q) => DoDelete(s, q)
    case ClearAll(order) => TakeEach(s, order)
    case RunHandler(i) => DoRun(s, i)
    case ResetObj(i) => DoReset(s, i)
    case PutObj(i) => DoPut(s, i)
    case Stop => s.(t := s.t.(running := false))
    case Restart => DoRestart(s)
    case PoolDrops(a) => s.(t := s.t.(pool := s.t.pool - multiset{a}), owner := s.owner[a := Lost])
  }

  ghost predicate IsRun(tr: seq<State>, steps: seq<Step>) {
    && |tr| == |steps| + 1
    && tr[0] == Start
    && forall i {:trigger steps[i]} ::
         0 <= i < |steps| ==> Enabled(tr[i], steps[i]) && tr[i + 1] == Apply(tr[i], steps[i])
  }
}
