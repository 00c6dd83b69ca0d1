/**
 The handler object (handler.go): its middles slice, its routes, and Clone. Every
 method is its function of module Routes, a chain once built is never written
 again, and a clone and its original share nothing that either changes.
 */
module RouteObjects {
  import opened Prelude
  import opened Routes

  class RouteObj {
    const async: bool
    const handlers: array<Entry>

    constructor (async: bool, handlers: array<Entry>)
      ensures this.async == async && this.handlers == handlers
    {
      this.async, this.handlers := async, handlers;
    }
  }

  /** make and copy, with room for more, and e as the last element if there is one. */
  method CopyOf(s: seq<Entry>, e: Option<Entry>, slack: nat) returns (a: array<Entry>)
    ensures fresh(a)
    ensures var n := |s| + (if e.Some? then 1 else 0);
            a.Length == n + slack && a[..n] == s + (if e.Some? then [e.value] else [])
  {
    a := new Entry[|s| + (if e.Some? then 1 else 0) + slack](_ => NotFound);
    forall i | 0 <= i < |s| {
      a[i] := s[i];
    }
    if e.Some? {
      a[|s|] := e.value;
    }
  }

  /** What the loop of Use has done to the table after the keys ks. */
  ghost function ExtendKeys(t: Table, ks: seq<string>, e: Entry): (r: Table) {
    if ks == [] then t
    else
      var k := ks[|ks| - 1];
      var p := ExtendKeys(t, ks[..|ks| - 1], e);
      if k in p.routes then SetRoute(p, k, p.routes[k].(chain := p.routes[k].chain + [e])) else p
  }

  lemma {:induction false} ExtendKeysAt(t: Table, ks: seq<string>, e: Entry, m: string)
    requires Distinct(ks)
    ensures var r := ExtendKeys(t, ks, e);
            && r.middles == t.middles && (m in r.routes <==> m in t.routes)
            && (m in t.routes ==>
                  r.routes[m] == if m in ks then t.routes[m].(chain := t.routes[m].chain + [e]) else t.routes[m])
  {
    if ks != [] {
      var n := |ks| - 1;
      ExtendKeysAt(t, ks[..n], e, m);
      assert ks == ks[..n] + [ks[n]];
    }
  }

  /** Over every key, that is Use. */
  lemma ExtendAll(t: Table, ks: seq<string>, h: HandlerId)
    requires Distinct(ks) && forall m :: m in ks <==> m in t.routes
    ensures ExtendKeys(t.(middles := t.middles + [Wrapped(h)]), ks, Wrapped(h)) == DoUse(t, Some(h))
  {
    var u := t.(middles := t.middles + [Wrapped(h)]);
    var r := ExtendKeys(u, ks, Wrapped(h));
    forall m: string ensures m in r.routes <==> m in t.routes { ExtendKeysAt(u, ks, Wrapped(h), m); }
    forall m | m in t.routes ensures r.routes[m] == DoUse(t, Some(h)).routes[m] { ExtendKeysAt(u, ks, Wrapped(h), m); }
    ExtendKeysAt(u, ks, Wrapped(h), "");
    assert r.routes == DoUse(t, Some(h)).routes;
  }

  /** What the loop of Clone has copied after the keys ks. */
  ghost function CopyKeys(t: Table, ks: seq<string>): (r: Table) {
    if ks == [] then t.(routes := map[])
    else
      var k := ks[|ks| - 1];
      var p := CopyKeys(t, ks[..|ks| - 1]);
      if k in t.routes then SetRoute(p, k, t.routes[k]) else p
  }

  lemma {:induction false} CopyKeysAt(t: Table, ks: seq<string>, m: string)
    ensures var r := CopyKeys(t, ks);
            && r.middles == t.middles && (m in r.routes <==> m in t.routes && m in ks)
            && (m in r.routes ==> r.routes[m] == t.routes[m])
  {
    if ks != [] {
      var n := |ks| - 1;
      CopyKeysAt(t, ks[..n], m);
      assert ks == ks[..n] + [ks[n]];
    }
  }

  lemma CopyAll(t: Table, ks: seq<string>)
    requires forall m :: m in ks <==> m in t.routes
    ensures CopyKeys(t, ks) == t
  {
    var r := CopyKeys(t, ks);
    forall m: string ensures (m in r.routes <==> m in t.routes) && (m in r.routes ==> r.routes[m] == t.routes[m]) {
      CopyKeysAt(t, ks, m);
    }
    CopyKeysAt(t, ks, "");
    assert r.routes == t.routes;
  }

  /** The keys of a map in the order in which range visits them. */
  method Keys(m: map<string, RouteObj>) returns (ks: seq<string>)
    ensures Distinct(ks) && forall k :: k in ks <==> k in m
  {
    ks := [];
    var todo := m.Keys;
    while todo != {}
      invariant Distinct(ks) && todo <= m.Keys
      invariant forall k :: k in ks <==> k in m && k !in todo
      decreases |todo|
    {
      var k :| k in todo;
      ks, todo := ks + [k], todo - {k};
    }
  }

  ghost function SetRoute(t: Table, k: string, r: Route): (s: Table) { t.(routes := t.routes[k := r]) }

  class Handler {
    var middles: array<Entry>
    var count: nat                       // len(middles); middles.Length is its capacity
    var routes: map<string, RouteObj>
    ghost var table: Table               // what the fields mean

    /** Everything this handler may write or reads its table from. */
    ghost var repr: set<object>

    ghost predicate RouteOk(m: string)
      reads this, repr
    {
      && m in routes && m in table.routes && routes[m].handlers in repr && routes[m].handlers != middles
      && routes[m].async == table.routes[m].async && routes[m].handlers[..] == table.routes[m].chain
    }

    ghost predicate Valid()
      reads this, repr
    {
      && this in repr && middles in repr
      && count <= middles.Length && middles[..count] == table.middles
      && routes.Keys == table.routes.Keys
      && forall m {:trigger RouteOk(m)} :: m in routes ==> RouteOk(m)
    }

    constructor ()
      ensures Valid() && fresh(repr) && table == EmptyTable
    {
      middles := new Entry[0];
      count, routes, table := 0, map[], EmptyTable;
      repr := {this, middles};
    }

    /** append(h.middles, e). */
    method AppendMiddle(e: Entry, slack: nat)
      requires Valid()
      modifies this`middles, this`count, this`table, this`repr, middles
      ensures Valid() && fresh(repr - old(repr)) && routes == old(routes)
      ensures table == old(table).(middles := old(table).middles + [e])
    {
      if count == middles.Length {
        middles := CopyOf(middles[..count], Some(e), slack);
        repr := repr + {middles};
      } else {
        middles[count] := e;
      }
      count := count + 1;
      assert middles[..count] == old(middles[..count]) + [e];
      table := table.(middles := table.middles + [e]);
      forall m | m in routes ensures RouteOk(m) { assert old(RouteOk(m)); }
    }

    /** routes[k] = &routerHandler{async, handlers}, for new handlers. */
    method Install(k: string, async: bool, handlers: array<Entry>)
      requires Valid() && handlers != middles
      modifies this`routes, this`table, this`repr
      ensures Valid() && repr == old(repr) + {handlers}
      ensures table == SetRoute(old(table), k, Route(async, handlers[..]))
    {
      var r := new RouteObj(async, handlers);
      routes, table := routes[k := r], SetRoute(table, k, Route(async, handlers[..]));
      repr := repr + {handlers};
      forall m | m in routes ensures RouteOk(m) {
        if m != k { assert old(RouteOk(m)); }
      }
    }

    /** One route replaced by a longer copy. */
    method ExtendRoute(k: string, e: Entry)
      requires Valid() && k in routes
      modifies this`routes, this`table, this`repr
      ensures Valid() && fresh(repr - old(repr))
      ensures var v := old(table).routes[k]; table == SetRoute(old(table), k, v.(chain := v.chain + [e]))
    {
      assert RouteOk(k);
      var a := CopyOf(routes[k].handlers[..], Some(e), 0);
      assert a[..a.Length] == a[..];
      Install(k, routes[k].async, a);
    }

    /** The loop of Use: every route is replaced by a longer copy. */
    method ExtendRoutes(ks: seq<string>, e: Entry)
      requires Valid()
      modifies this`routes, this`table, this`repr
      ensures Valid() && fresh(repr - old(repr)) && table == ExtendKeys(old(table), ks, e)
    {
      for i := 0 to |ks|
        invariant Valid() && fresh(repr - old(repr)) && table == ExtendKeys(old(table), ks[..i], e)
      {
        assert ks[..i + 1][..i] == ks[..i];
        if ks[i] in routes {
          ExtendRoute(ks[i], e);
        }
      }
      assert ks[..|ks|] == ks;
    }

    method Use(cb: Option<HandlerId>, slack: nat)
      requires Valid()
      modifies this, middles
      ensures Valid() && fresh(repr - old(repr)) && table == DoUse(old(table), cb)
    {
      if cb.Some? {
        var ks := Keys(routes);
        ExtendAll(table, ks, cb.value);
        AppendMiddle(Wrapped(cb.value), slack);
        ExtendRoutes(ks, Wrapped(cb.value));
      }
    }

    /** handle; on a panic the default route may have been added. */
    method Register(name: string, h: HandlerId, async: bool) returns (panics: bool)
      requires Valid()
      modifies this
      ensures Valid() && fresh(repr - old(repr)) && table == DoHandle(old(table), name, h, async)
      ensures panics == Panics(old(table), name)
    {
      panics := true;
      if |name| > MAX_METHOD_LEN {
        return;
      }
      if "" !in routes {
        var d := CopyOf(middles[..count], Some(NotFound), 0);
        assert d[..d.Length] == d[..];
        Install("", false, d);
      }
      if name in routes && name != "" {
        return;
      }
      var a := CopyOf(middles[..count], Some(Wrapped(h)), 0);
      assert a[..a.Length] == a[..];
      Install(name, async, a);
      panics := false;
    }

    method Handle(name: string, h: HandlerId, async: bool) returns (panics: bool)
      requires Valid()
      modifies this
      ensures Valid() && fresh(repr - old(repr)) && table == Apply(old(table), Op.Handle(name, h, async))
      ensures panics == (name == "" || Panics(old(table), name))
    {
      if name == "" {
        return true;
      }
      panics := Register(name, h, async);
    }

    method HandleNotFound(h: HandlerId, async: bool)
      requires Valid()
      modifies this
      ensures Valid() && fresh(repr - old(repr)) && table == Apply(old(table), Op.HandleNotFound(h, async))
    {
      var panics := Register("", h, async);
    }

    method Perform(op: Op, slack: nat)
      requires Valid()
      modifies this, middles
      ensures Valid() && fresh(repr - old(repr)) && table == Apply(old(table), op)
    {
      match op {
        case Use(cb) => Use(cb, slack);
        case Handle(name, h, async) => var panics := Handle(name, h, async);
        case HandleNotFound(h, async) => HandleNotFound(h, async);
      }
    }

    /** One route of a clone: a copy of the chain of v. */
    method CopyRoute(k: string, v: RouteObj)
      requires Valid()
      modifies this`routes, this`table, this`repr
      ensures Valid() && fresh(repr - old(repr))
      ensures table == SetRoute(old(table), k, Route(v.async, v.handlers[..]))
    {
      var a := CopyOf(v.handlers[..], None, 0);
      assert a[..a.Length] == a[..];
      Install(k, v.async, a);
    }

    /** Clone: the same table in arrays of its own. */
    method Clone() returns (c: Handler)
      requires Valid()
      ensures Valid() && c.Valid() && fresh(c.repr) && c.table == table
    {
      c := new Handler();
      c.TakeMiddles(middles[..count]);
      var ks := Keys(routes);
      for i := 0 to |ks|
        invariant Valid() && c.Valid() && fresh(c.repr) && c.table == CopyKeys(table, ks[..i])
      {
        assert ks[..i + 1][..i] == ks[..i];
        assert RouteOk(ks[i]);
        c.CopyRoute(ks[i], routes[ks[i]]);
      }
      assert ks[..|ks|] == ks;
      CopyAll(table, ks);
    }

    method TakeMiddles(s: seq<Entry>)
      requires Valid() && routes == map[]
      modifies this
      ensures Valid() && fresh(repr - old(repr)) && table == old(table).(middles := s) && routes == map[]
    {
      middles := CopyOf(s, None, 0);
      assert middles[..middles.Length] == middles[..];
      count, table, repr := |s|, table.(middles := s), repr + {middles};
    }
  }

  // ---------------------------------------------------------- independence

  function Replay(t: Table, ops: seq<Op>): (r: Table) {
    if ops == [] then t else Apply(Replay(t, ops[..|ops| - 1]), ops[|ops| - 1])
  }

  /** The operations of one side of an interleaving. */
  function Of(side: bool, ops: seq<(bool, Op)>): (r: seq<Op>) {
    if ops == [] then []
    else Of(side, ops[..|ops| - 1]) + if ops[|ops| - 1].0 == side then [ops[|ops| - 1].1] else []
  }

  lemma OfNext(side: bool, ops: seq<(bool, Op)>, i: nat, t: Table)
    requires i < |ops|
    ensures Replay(t, Of(side, ops[..i + 1])) ==
            if ops[i].0 == side then Apply(Replay(t, Of(side, ops[..i])), ops[i].1) else Replay(t, Of(side, ops[..i]))
  {
    var p := Of(side, ops[..i]);
    assert ops[..i + 1][..i] == ops[..i];
    assert (p + [ops[i].1])[..|p|] == p;
    assert p + [] == p;
  }

  /** Replay goes on with a history. */
  lemma {:induction false} ReplayIsAfter(before: seq<Op>, ops: seq<Op>)
    ensures Replay(After(before), ops) == After(before + ops)
  {
    if ops == [] {
      assert before + ops == before;
    } else {
      ReplayIsAfter(before, ops[..|ops| - 1]);
      assert (before + ops)[..|before + ops| - 1] == before + ops[..|ops| - 1];
    }
  }

  /**
   A handler and its clone, changed in any order: each ends as its own operations
   alone would leave it. Routes.ChainOfMethod then gives the chains of each from
   the common history and its own.
   */
  method Interleave(a: Handler, ops: seq<(bool, Op)>, slack: seq<nat>, ghost before: seq<Op>) returns (b: Handler)
    requires a.Valid() && |slack| == |ops|
    modifies a.repr
    ensures a.Valid() && b.Valid()
    ensures a.table == Replay(old(a.table), Of(true, ops)) && b.table == Replay(old(a.table), Of(false, ops))
    ensures old(a.table) == After(before) ==>
              a.table == After(before + Of(true, ops)) && b.table == After(before + Of(false, ops))
  {
    b := a.Clone();
    ghost var t := a.table;
    for i := 0 to |ops|
      invariant a.Valid() && b.Valid() && a.repr !! b.repr && fresh(b.repr) && fresh(a.repr - old(a.repr))
      invariant a.table == Replay(t, Of(true, ops[..i])) && b.table == Replay(t, Of(false, ops[..i]))
    {
      OfNext(true, ops, i, t);
      OfNext(false, ops, i, t);
      if ops[i].0 {
        a.Perform(ops[i].1, slack[i]);
      } else {
        b.Perform(ops[i].1, slack[i]);
      }
    }
    assert ops[..|ops|] == ops;
    ReplayIsAfter(before, Of(true, ops));
    ReplayIsAfter(before, Of(false, ops));
  }
}
