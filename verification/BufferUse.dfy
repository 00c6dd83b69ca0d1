/**
 A user of a BufferPool who frees each buffer once: whatever sequence of
 operations it performs, its buffers hold what plain byte sequences would.
 */
module BufferUse {
  import opened Prelude
  import opened BufferPool

  type Handle = nat

  /** The bytes of a buffer as its user knows them: None is a byte nobody has written. */
  type Cells = seq<Option<Byte>>

  datatype Op =
    | Malloc(h: Handle, size: nat)
    | Realloc(h: Handle, size: nat)
    | Append(h: Handle, more: Bytes)
    | Write(h: Handle, i: nat, b: Byte)
    | Free(h: Handle)

  function Unknown(n: nat): (c: Cells)
    ensures |c| == n && forall i :: 0 <= i < n ==> c[i] == None
  {
    seq(n, _ => None)
  }

  function Known(b: Bytes): (c: Cells)
    ensures |c| == |b| && forall i :: 0 <= i < |b| ==> c[i] == Some(b[i])
  {
    seq(|b|, i requires 0 <= i < |b| => Some(b[i]))
  }

  /** The operations on plain byte sequences. */
  predicate Allowed(st: map<Handle, Cells>, op: Op) {
    match op
    case Malloc(h, _) => h !in st
    case Realloc(h, _) => h in st
    case Append(h, _) => h in st
    case Write(h, i, _) => h in st && i < |st[h]|
    case Free(h) => h in st
  }

  function Plain(st: map<Handle, Cells>, op: Op): (r: map<Handle, Cells>)
    requires Allowed(st, op)
  {
    match op
    case Malloc(h, size) => st[h := Unknown(size)]
    case Realloc(h, size) =>
      st[h := if size <= |st[h]| then st[h][..size] else st[h] + Unknown(size - |st[h]|)]
    case Append(h, more) => st[h := st[h] + Known(more)]
    case Write(h, i, b) => st[h := st[h][i := Some(b)]]
    case Free(h) => st - {h}
  }

  predicate AllAllowed(st: map<Handle, Cells>, ops: seq<Op>)
    decreases |ops|
  {
    ops == [] || (Allowed(st, ops[0]) && AllAllowed(Plain(st, ops[0]), ops[1..]))
  }

  function PlainAll(st: map<Handle, Cells>, ops: seq<Op>): (r: map<Handle, Cells>)
    requires AllAllowed(st, ops)
    decreases |ops|
  {
    if ops == [] then st else PlainAll(Plain(st, ops[0]), ops[1..])
  }

  ghost predicate Matches(b: Bytes, c: Cells) {
    |b| == |c| && forall i {:trigger c[i]} :: 0 <= i < |b| && c[i].Some? ==> b[i] == c[i].value
  }

  /** owner names the one handle of each live array. */
  ghost predicate Linked(bufs: map<Handle, Slice>, owner: map<Arr, Handle>, live: set<Arr>) {
    && owner.Keys == live
    && (forall h {:trigger bufs[h]} :: h in bufs ==>
          bufs[h].len <= bufs[h].arr.Length && bufs[h].arr in owner && owner[bufs[h].arr] == h)
    && (forall a {:trigger owner[a]} :: a in owner ==> owner[a] in bufs && bufs[owner[a]].arr == a)
  }

  ghost function Unowned(owner: map<Arr, Handle>, bufs: map<Handle, Slice>, h: Handle): (r: map<Arr, Handle>) {
    if h in bufs then owner - {bufs[h].arr} else owner
  }

  /** The live arrays other than h's. */
  ghost function Others(bufs: map<Handle, Slice>, live: set<Arr>, h: Handle): (r: set<Arr>) {
    if h in bufs then live - {bufs[h].arr} else live
  }

  lemma UnbindLinked(bufs: map<Handle, Slice>, owner: map<Arr, Handle>, live: set<Arr>, h: Handle)
    requires Linked(bufs, owner, live)
    ensures Linked(bufs - {h}, Unowned(owner, bufs, h), Others(bufs, live, h))
  {
    var owner' := Unowned(owner, bufs, h);
    forall a | a in owner' ensures owner'[a] in bufs - {h} && (bufs - {h})[owner'[a]].arr == a {
      assert owner[a] in bufs && bufs[owner[a]].arr == a;
    }
  }

  lemma BindLinked(bufs: map<Handle, Slice>, owner: map<Arr, Handle>, live: set<Arr>, h: Handle, s: Slice)
    requires Linked(bufs, owner, live) && h !in bufs && s.arr !in live && s.len <= s.arr.Length
    ensures Linked(bufs[h := s], owner[s.arr := h], live + {s.arr})
  {
  }

  /** Handles and live arrays correspond one to one. */
  lemma {:induction false} AsManyAsLive(bufs: map<Handle, Slice>, owner: map<Arr, Handle>, live: set<Arr>)
    requires Linked(bufs, owner, live)
    ensures |bufs| == |live|
    decreases |bufs|
  {
    if |bufs| == 0 {
      assert forall a :: a in live ==> owner[a] in bufs.Keys;
      assert live == {};
    } else {
      var h :| h in bufs;
      UnbindLinked(bufs, owner, live, h);
      assert (bufs - {h}).Keys == bufs.Keys - {h};
      AsManyAsLive(bufs - {h}, Unowned(owner, bufs, h), Others(bufs, live, h));
    }
  }

  /** The buffers of a user: who owns which array, and what each holds. */
  ghost predicate Good(bufs: map<Handle, Slice>, owner: map<Arr, Handle>, live: set<Arr>,
                       held: map<Handle, Bytes>, store: map<Handle, Cells>) {
    && Linked(bufs, owner, live)
    && bufs.Keys == held.Keys == store.Keys
    && (forall h {:trigger held[h]} :: h in held ==> Matches(held[h], store[h]))
  }

  lemma UnbindGood(bufs: map<Handle, Slice>, owner: map<Arr, Handle>, live: set<Arr>, held: map<Handle, Bytes>,
                   store: map<Handle, Cells>, h: Handle)
    requires Good(bufs, owner, live, held, store)
    ensures Good(bufs - {h}, Unowned(owner, bufs, h), Others(bufs, live, h), held - {h}, store - {h})
  {
    UnbindLinked(bufs, owner, live, h);
    forall g | g in held - {h} ensures Matches((held - {h})[g], (store - {h})[g]) {
      assert Matches(held[g], store[g]);
    }
  }

  /** After the buffer of h was let go, another one takes its place. */
  lemma BindGood(bufs: map<Handle, Slice>, owner: map<Arr, Handle>, live: set<Arr>, held: map<Handle, Bytes>,
                 store: map<Handle, Cells>, h: Handle, s: Slice, b: Bytes, c: Cells)
    requires Good(bufs - {h}, owner, live - {s.arr}, held, store - {h}) && s.arr in live
    requires Matches(b, c) && s.len <= s.arr.Length
    ensures Good(bufs[h := s], owner[s.arr := h], live, held[h := b], store[h := c])
  {
    BindLinked(bufs - {h}, owner, live - {s.arr}, h, s);
    assert (bufs - {h})[h := s] == bufs[h := s];
    assert live - {s.arr} + {s.arr} == live;
  }

  ghost function Content(s: Slice): (b: Bytes)
    reads s.arr
  {
    if s.len <= s.arr.Length then s.arr[..s.len] else []
  }

  class User {
    const pool: Pool
    var bufs: map<Handle, Slice>
    ghost var store: map<Handle, Cells>
    ghost var owner: map<Arr, Handle>

    constructor (pool: Pool)
      requires pool.Valid() && pool.live == {}
      ensures this.pool == pool && Agrees() && store == map[]
    {
      this.pool := pool;
      bufs, store, owner := map[], map[], map[];
    }

    ghost function Mine(): (s: set<Arr>)
      reads this
    {
      set h | h in bufs :: bufs[h].arr
    }

    /** What the user's buffers hold. */
    ghost function Held(): (r: map<Handle, Bytes>)
      reads this, Mine()
    {
      map h | h in bufs :: Content(bufs[h])
    }

    /** Every buffer holds its cells, no two share an array, and the pool counts no other live ones. */
    ghost predicate Agrees()
      reads this, pool, Mine()
    {
      pool.Valid() && Good(bufs, owner, pool.live, Held(), store)
    }

    ghost function Arrays(): (s: set<Arr>)
      reads pool
    {
      pool.View().All()
    }

    /** The buffers other than h's own the arrays in live and hold what held says. */
    ghost predicate Rest(h: Handle, live: set<Arr>, held: map<Handle, Bytes>)
      reads this, Mine()
    {
      && Good(bufs - {h}, Unowned(owner, bufs, h), live, held, store - {h})
      && forall g {:trigger held[g]} :: g in held ==> g in bufs && held[g] == Content(bufs[g])
    }

    /** h is about to be bound to s. */
    ghost predicate Open(h: Handle, s: Slice, held: map<Handle, Bytes>)
      reads this, pool, Mine()
    {
      pool.Valid() && pool.Owns(s) && Rest(h, pool.live - {s.arr}, held)
    }

    method Bind(h: Handle, s: Slice, ghost c: Cells, ghost held: map<Handle, Bytes>)
      requires Open(h, s, held) && Matches(Content(s), c)
      modifies this
      ensures Agrees() && store == old(store)[h := c]
    {
      BindGood(bufs, Unowned(owner, bufs, h), pool.live, held, store, h, s, Content(s), c);
      bufs, store, owner := bufs[h := s], store[h := c], Unowned(owner, bufs, h)[s.arr := h];
      HeldIs(held[h := Content(s)]);
    }

    lemma HeldIs(m: map<Handle, Bytes>)
      requires m.Keys == bufs.Keys && forall g {:trigger m[g]} :: g in m ==> m[g] == Content(bufs[g])
      ensures Held() == m
    {
    }

    /** An operation that left the live arrays of the other buffers alone. */
    twostate lemma RestKept(h: Handle)
      requires old(Agrees()) && unchanged(this) && pool.Kept(old(Others(bufs, pool.live, h)))
      ensures Rest(h, old(Others(bufs, pool.live, h)), old(Held()) - {h})
    {
      UnbindGood(bufs, owner, old(pool.live), old(Held()), store, h);
      forall g | g in bufs && g != h ensures Content(bufs[g]) == old(Held())[g] {
        assert bufs[g].arr in old(Others(bufs, pool.live, h));
        assert bufs[g].arr[..] == old(bufs[g].arr[..]);
      }
    }

    twostate lemma Opened(h: Handle, new s: Slice)
      requires old(Agrees()) && unchanged(this) && pool.Valid() && pool.Owns(s)
      requires pool.live - {s.arr} == old(Others(bufs, pool.live, h)) && pool.Kept(old(Others(bufs, pool.live, h)))
      ensures Open(h, s, old(Held()) - {h})
    {
      RestKept(h);
    }

    /** The user forgets h. */
    method Unbind(h: Handle, ghost held: map<Handle, Bytes>)
      requires pool.Valid() && Rest(h, pool.live, held)
      modifies this
      ensures Agrees() && store == old(store) - {h}
    {
      bufs, store, owner := bufs - {h}, store - {h}, Unowned(owner, bufs, h);
      HeldIs(held);
    }

    method DoMalloc(h: Handle, size: nat, reuse: bool, slack: nat)
      requires Agrees() && h !in store
      modifies this, pool, Arrays()
      ensures Agrees() && store == old(store)[h := Unknown(size)]
      ensures pool.NoneAppeared()
    {
      var s := pool.Malloc(size, reuse, slack);
      Opened(h, s);
      Bind(h, s, Unknown(size), old(Held()) - {h});
    }

    method DoRealloc(h: Handle, size: nat, reuse: bool, slack: nat)
      requires Agrees() && h in store
      modifies this, pool, Arrays()
      ensures Agrees() && store == Plain(old(store), Op.Realloc(h, size))
      ensures pool.NoneAppeared()
    {
      var was := bufs[h];
      ghost var c := Plain(store, Op.Realloc(h, size))[h];
      assert Matches(Held()[h], store[h]);
      var s := pool.Realloc(was, size, reuse, slack);
      KeptPrefix(old(Held())[h], Content(s), store[h]);
      Opened(h, s);
      Bind(h, s, c, old(Held()) - {h});
    }

    method DoAppend(h: Handle, more: Bytes, reuse: bool, slack: nat)
      requires Agrees() && h in store
      modifies this, pool, Arrays()
      ensures Agrees() && store == old(store)[h := old(store)[h] + Known(more)]
      ensures pool.NoneAppeared()
    {
      var was := bufs[h];
      ghost var c := store[h] + Known(more);
      assert Matches(Held()[h], store[h]);
      var s := pool.AppendString(was, more, reuse, slack);
      AppendMatches(old(Held())[h], store[h], more);
      Opened(h, s);
      Bind(h, s, c, old(Held()) - {h});
    }

    /** The user writes into a buffer: no other one changes. */
    method DoWrite(h: Handle, i: nat, b: Byte)
      requires Agrees() && h in store && i < |store[h]|
      modifies this, Arrays()
      ensures Agrees() && store == old(store)[h := old(store)[h][i := Some(b)]]
    {
      assert Matches(Held()[h], store[h]);
      var s := bufs[h];
      s.arr[i] := b;
      WriteMatches(old(Held())[h], store[h], i, b);
      assert Content(s) == old(Held())[h][i := b];
      Opened(h, s);
      Bind(h, s, store[h][i := Some(b)], old(Held()) - {h});
    }

    /** Freeing never panics, even in Debug mode. */
    method DoFree(h: Handle) returns (panics: bool)
      requires Agrees() && h in store
      modifies this, pool
      ensures Agrees() && !panics && store == old(store) - {h}
      ensures pool.NoneAppeared()
    {
      panics := pool.Free(bufs[h]);
      RestKept(h);
      Unbind(h, old(Held()) - {h});
    }

    method Perform(op: Op, reuse: bool, slack: nat)
      requires Agrees() && Allowed(store, op)
      modifies this, pool, Arrays()
      ensures Agrees() && store == Plain(old(store), op)
      ensures pool.NoneAppeared()
    {
      match op {
        case Malloc(h, size) => DoMalloc(h, size, reuse, slack);
        case Realloc(h, size) => DoRealloc(h, size, reuse, slack);
        case Append(h, more) => DoAppend(h, more, reuse, slack);
        case Write(h, i, b) => DoWrite(h, i, b);
        case Free(h) => var panics := DoFree(h);
      }
    }

    /** In Debug mode, the counters differ by the number of tracked buffers, which are the user's. */
    lemma DebugCounts()
      requires Agrees() && pool.cfg.debug
      ensures pool.tracked == pool.live && pool.allocCnt - pool.freeCnt == |pool.tracked| == |bufs|
    {
      AsManyAsLive(bufs, owner, pool.live);
    }

    /**
     Any sequence of operations, with whatever the pools reuse and however much
     append grows: the buffers agree with the plain byte sequences at the end,
     and the live buffers are exactly the user's.
     */
    method PerformAll(ops: seq<Op>, reuse: seq<bool>, slack: seq<nat>)
      requires Agrees() && AllAllowed(store, ops) && |reuse| == |slack| == |ops|
      modifies this, pool, Arrays()
      ensures Agrees() && store == PlainAll(old(store), ops)
    {
      var i := 0;
      while i < |ops|
        invariant 0 <= i <= |ops| && Agrees() && AllAllowed(store, ops[i..])
        invariant PlainAll(store, ops[i..]) == PlainAll(old(store), ops)
        invariant pool.NoneAppeared()
      {
        assert ops[i..][1..] == ops[i + 1..];
        Perform(ops[i], reuse[i], slack[i]);
        i := i + 1;
      }
    }
  }

  lemma AppendMatches(b: Bytes, c: Cells, more: Bytes)
    requires Matches(b, c)
    ensures Matches(b + more, c + Known(more))
  {
  }

  lemma WriteMatches(b: Bytes, c: Cells, i: nat, v: Byte)
    requires Matches(b, c) && i < |b|
    ensures Matches(b[i := v], c[i := Some(v)])
  {
  }

  lemma KeptPrefix(was: Bytes, now: Bytes, c: Cells)
    requires Matches(was, c) && now[..Min(|was|, |now|)] == was[..Min(|was|, |now|)]
    ensures Matches(now, if |now| <= |c| then c[..|now|] else c + Unknown(|now| - |c|))
  {
    var d := if |now| <= |c| then c[..|now|] else c + Unknown(|now| - |c|);
    forall i | 0 <= i < |now| && d[i].Some? ensures now[i] == d[i].value {
      assert now[..Min(|was|, |now|)][i] == was[..Min(|was|, |now|)][i];
    }
  }
}
