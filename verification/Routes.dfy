/**
 Registration of middlewares and handlers (handler.go): Use, Handle and
 HandleNotFound as functions on the table, and what the chain of every method is
 after any history of them.
 */
module Routes {
  import opened Prelude

  const MAX_METHOD_LEN: nat := 127

  type HandlerId = nat

  /** An element of a chain: a function with ctx.Next() after it, or the default "not found" handler. */
  datatype Entry = Wrapped(h: HandlerId) | NotFound

  datatype Route = Route(async: bool, chain: seq<Entry>)

  datatype Table = Table(middles: seq<Entry>, routes: map<string, Route>)

  const EmptyTable := Table([], map[])

  datatype Op =
    | Use(cb: Option<HandlerId>)
    | Handle(name: string, h: HandlerId, async: bool)
    | HandleNotFound(h: HandlerId, async: bool)

  function DoUse(t: Table, cb: Option<HandlerId>): (r: Table) {
    if cb.None? then t
    else
      Table(t.middles + [Wrapped(cb.value)],
            map m | m in t.routes :: t.routes[m].(chain := t.routes[m].chain + [Wrapped(cb.value)]))
  }

  /** The "" route is there from the first registration on. */
  function WithDefault(t: Table): (r: Table) {
    if "" in t.routes then t else t.(routes := t.routes["" := Route(false, t.middles + [NotFound])])
  }

  /** handle panics on a name that is too long or taken; a taken one still leaves the default behind. */
  predicate Panics(t: Table, name: string) {
    |name| > MAX_METHOD_LEN || (name != "" && name in t.routes)
  }

  function DoHandle(t: Table, name: string, h: HandlerId, async: bool): (r: Table) {
    if |name| > MAX_METHOD_LEN then t
    else
      var d := WithDefault(t);
      if name in d.routes && name != "" then d
      else d.(routes := d.routes[name := Route(async, d.middles + [Wrapped(h)])])
  }

  function Apply(t: Table, op: Op): (r: Table) {
    match op
    case Use(cb) => DoUse(t, cb)
    case Handle(name, h, async) => if name == "" then t else DoHandle(t, name, h, async)
    case HandleNotFound(h, async) => DoHandle(t, "", h, async)
  }

  function After(ops: seq<Op>): (t: Table) {
    if ops == [] then EmptyTable else Apply(After(ops[..|ops| - 1]), ops[|ops| - 1])
  }

  // ------------------------------------------------------ what histories give

  /** The middlewares a history registers, in order. */
  function Middles(ops: seq<Op>): (r: seq<Entry>) {
    if ops == [] then []
    else
      var last := ops[|ops| - 1];
      Middles(ops[..|ops| - 1]) + (if last.Use? && last.cb.Some? then [Wrapped(last.cb.value)] else [])
  }

  /** A registration that gets past the checks of Handle and the length check. */
  predicate Registers(op: Op) {
    op.HandleNotFound? || (op.Handle? && 0 < |op.name| <= MAX_METHOD_LEN)
  }

  predicate RegistersName(op: Op, name: string) { op.Handle? && op.name == name && 0 < |name| <= MAX_METHOD_LEN }

  /** The chain that registering e at position i of the history gives by its end. */
  function Around(ops: seq<Op>, i: nat, e: Entry): (r: seq<Entry>)
    requires i < |ops|
  {
    Middles(ops[..i]) + [e] + Middles(ops[i + 1..])
  }

  lemma {:induction false} MiddlesOfTable(ops: seq<Op>)
    ensures After(ops).middles == Middles(ops)
  {
    if ops != [] {
      MiddlesOfTable(ops[..|ops| - 1]);
    }
  }

  lemma AroundGrows(ops: seq<Op>, i: nat, e: Entry)
    requires i < |ops| - 1
    ensures var last := ops[|ops| - 1];
            Around(ops, i, e) ==
            Around(ops[..|ops| - 1], i, e) + (if last.Use? && last.cb.Some? then [Wrapped(last.cb.value)] else [])
  {
    var n := |ops| - 1;
    assert ops[..n][..i] == ops[..i] && ops[..n][i + 1..] == ops[i + 1..][..n - i - 1];
    assert ops[i + 1..][n - i - 1] == ops[n];
  }

  lemma AroundLast(ops: seq<Op>, e: Entry)
    requires ops != []
    ensures Around(ops, |ops| - 1, e) == Middles(ops[..|ops| - 1]) + [e]
  {
    assert ops[|ops|..] == [];
  }

  /** Nothing but its own registration puts a name other than "" into the table. */
  lemma {:induction false} UnregisteredIsAbsent(ops: seq<Op>, name: string)
    requires name != ""
    requires forall i {:trigger ops[i]} :: 0 <= i < |ops| ==> !RegistersName(ops[i], name)
    ensures name !in After(ops).routes
  {
    if ops != [] {
      UnregisteredIsAbsent(ops[..|ops| - 1], name);
      assert !RegistersName(ops[|ops| - 1], name);
    }
  }

  /**
   The chain of a method: the middlewares registered before its first valid
   Handle, its handler, and the middlewares registered after; a second Handle
   changes nothing.
   */
  lemma {:induction false} ChainOfMethod(ops: seq<Op>, name: string, i: nat)
    requires i < |ops| && RegistersName(ops[i], name)
    requires forall j {:trigger ops[j]} :: 0 <= j < i ==> !RegistersName(ops[j], name)
    ensures name in After(ops).routes
    ensures After(ops).routes[name] == Route(ops[i].async, Around(ops, i, Wrapped(ops[i].h)))
  {
    var n := |ops| - 1;
    if i < n {
      ChainOfMethod(ops[..n], name, i);
      AroundGrows(ops, i, Wrapped(ops[i].h));
    } else {
      UnregisteredIsAbsent(ops[..n], name);
      MiddlesOfTable(ops[..n]);
      AroundLast(ops, Wrapped(ops[i].h));
    }
  }

  lemma {:induction false} NoDefaultYet(ops: seq<Op>)
    requires forall i {:trigger ops[i]} :: 0 <= i < |ops| ==> !Registers(ops[i])
    ensures After(ops).routes == map[]
  {
    if ops != [] {
      NoDefaultYet(ops[..|ops| - 1]);
      assert !Registers(ops[|ops| - 1]);
    }
  }

  /** Without HandleNotFound, "" has the default handler, registered with the first method. */
  lemma {:induction false} DefaultChain(ops: seq<Op>, i: nat)
    requires i < |ops| && Registers(ops[i])
    requires forall j {:trigger ops[j]} :: 0 <= j < i ==> !Registers(ops[j])
    requires forall j {:trigger ops[j]} :: 0 <= j < |ops| ==> !ops[j].HandleNotFound?
    ensures "" in After(ops).routes
    ensures After(ops).routes[""] == Route(false, Around(ops, i, NotFound))
  {
    var n := |ops| - 1;
    if i < n {
      DefaultChain(ops[..n], i);
      AroundGrows(ops, i, NotFound);
    } else {
      NoDefaultYet(ops[..n]);
      MiddlesOfTable(ops[..n]);
      AroundLast(ops, NotFound);
    }
  }

  /** Otherwise the last HandleNotFound decides. */
  lemma {:induction false} NotFoundChain(ops: seq<Op>, i: nat)
    requires i < |ops| && ops[i].HandleNotFound?
    requires forall j {:trigger ops[j]} :: i < j < |ops| ==> !ops[j].HandleNotFound?
    ensures "" in After(ops).routes
    ensures After(ops).routes[""] == Route(ops[i].async, Around(ops, i, Wrapped(ops[i].h)))
  {
    var n := |ops| - 1;
    if i < n {
      NotFoundChain(ops[..n], i);
      AroundGrows(ops, i, Wrapped(ops[i].h));
    } else {
      MiddlesOfTable(ops[..n]);
      AroundLast(ops, Wrapped(ops[i].h));
    }
  }
}
