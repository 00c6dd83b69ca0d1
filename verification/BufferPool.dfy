/**
 BufferPool (allocator.go): pooled buffers that grow, move between the small and
 the big pool and, in Debug mode, are tracked. A buffer is an array with a
 length; the array's length is the slice's capacity.
 */
module BufferPool {
  import opened Prelude

  datatype Slice = Slice(arr: array<Byte>, len: nat)

  function Min(a: nat, b: nat): (r: nat) { if a <= b then a else b }

  /** copy(dst[off:], src), for a src that fits. */
  method Copy(dst: array<Byte>, off: nat, src: Bytes)
    requires off + |src| <= dst.Length
    modifies dst
    ensures dst[..off] == old(dst[..off]) && dst[off..off + |src|] == src
    ensures dst[off + |src|..] == old(dst[off + |src|..])
  {
    var i := 0;
    while i < |src|
      invariant 0 <= i <= |src|
      invariant forall j :: 0 <= j < off ==> dst[j] == old(dst[j])
      invariant forall j :: 0 <= j < i ==> dst[off + j] == src[j]
      invariant forall j :: off + i <= j < dst.Length ==> dst[j] == old(dst[j])
    {
      dst[off + i] := src[i];
      i := i + 1;
    }
  }

  /** The builtin append: in place if there is room, else in a new array that may have slack bytes to spare. */
  method GoAppend(s: Slice, more: Bytes, slack: nat) returns (r: Slice)
    requires s.len <= s.arr.Length
    modifies s.arr
    ensures r.len == s.len + |more| <= r.arr.Length && r.arr[..r.len] == old(s.arr[..s.len]) + more
    ensures if r.len <= s.arr.Length then r.arr == s.arr else fresh(r.arr) && s.arr[..] == old(s.arr[..])
  {
    var n := s.len + |more|;
    var into := s.arr;
    if n > s.arr.Length {
      into := new Byte[n + slack];
      Copy(into, 0, s.arr[..s.len]);
    }
    Copy(into, s.len, more);
    assert into[..n] == into[..s.len] + into[s.len..n];
    r := Slice(into, n);
  }

  // ------------------------------------------------------------ the books

  /** The configuration of a pool; the sizes are equal if one pool serves both. */
  datatype Config = Config(debug: bool, smallSize: nat, bigSize: nat)
  {
    /** Which pool serves a size or capacity. */
    predicate Big(n: nat) { n >= bigSize && smallSize < bigSize }
  }

  type Arr = array<Byte>

  /** Where every buffer is, and what Debug mode has counted. */
  datatype Books = Books(small: set<Arr>, big: set<Arr>, live: set<Arr>, tracked: set<Arr>, allocs: nat, frees: nat)
  {
    ghost function Took(a: Arr): (r: Books) { this.(small := small - {a}, big := big - {a}) }

    ghost function Put(c: Config, a: Arr): (r: Books) {
      if c.Big(a.Length) then this.(big := big + {a}) else this.(small := small + {a})
    }

    ghost function HandedOut(c: Config, a: Arr): (r: Books) {
      var n := this.(live := live + {a});
      if c.debug then n.(tracked := tracked + {a}, allocs := allocs + 1) else n
    }

    ghost function Dropped(c: Config, a: Arr): (r: Books) {
      var n := this.(live := live - {a});
      if c.debug then n.(tracked := tracked - {a}, frees := frees + 1) else n
    }

    ghost function All(): (s: set<Arr>) { small + big + live }

    ghost predicate Has(a: Arr) { a in All() }
  }

  /**
   No live buffer is pooled, and none is in both pools. The capacities in the
   small pool are below bigSize, those in the big pool are not.
   */
  ghost predicate ArrOk(c: Config, b: Books, a: Arr) {
    && (a in b.live ==> a !in b.small && a !in b.big && a.Length > 0)
    && (a in b.small ==> a !in b.big && 0 < a.Length && (c.smallSize < c.bigSize ==> a.Length < c.bigSize))
    && (a in b.big ==> a.Length >= c.bigSize > c.smallSize)
  }

  /** In Debug mode, what is tracked is what is live, and the counters differ by its number. */
  ghost predicate Counted(c: Config, b: Books) { c.debug ==> b.tracked == b.live && b.allocs == b.frees + |b.live| }

  ghost predicate Sound(c: Config, b: Books) {
    && 0 < c.smallSize <= c.bigSize
    && (forall a {:trigger ArrOk(c, b, a)} :: a in b.All() ==> ArrOk(c, b, a))
    && Counted(c, b)
  }

  lemma TookSound(c: Config, b: Books, a: Arr)
    requires Sound(c, b)
    ensures Sound(c, b.Took(a))
    ensures a !in b.live ==> !b.Took(a).Has(a)
  {
    forall d | d in b.Took(a).All() ensures ArrOk(c, b.Took(a), d) { assert ArrOk(c, b, d); }
  }

  lemma PutSound(c: Config, b: Books, a: Arr)
    requires Sound(c, b) && !b.Has(a) && a.Length > 0
    ensures Sound(c, b.Put(c, a))
  {
    forall d | d in b.Put(c, a).All() ensures ArrOk(c, b.Put(c, a), d) {
      if d != a { assert ArrOk(c, b, d); }
    }
  }

  lemma HandedOutSound(c: Config, b: Books, a: Arr)
    requires Sound(c, b) && !b.Has(a) && a.Length > 0
    ensures Sound(c, b.HandedOut(c, a))
  {
    forall d | d in b.HandedOut(c, a).All() ensures ArrOk(c, b.HandedOut(c, a), d) {
      if d != a { assert ArrOk(c, b, d); }
    }
  }

  lemma DroppedSound(c: Config, b: Books, a: Arr)
    requires Sound(c, b) && a in b.live
    ensures Sound(c, b.Dropped(c, a)) && !b.Dropped(c, a).Has(a) && a.Length > 0
  {
    assert ArrOk(c, b, a);
    forall d | d in b.Dropped(c, a).All() ensures ArrOk(c, b.Dropped(c, a), d) { assert ArrOk(c, b, d); }
  }

  /** The live buffers are apart from the pooled ones. */
  lemma LiveIsApart(c: Config, b: Books)
    requires Sound(c, b)
    ensures b.live !! b.small + b.big
  {
    forall a | a in b.live ensures a !in b.small + b.big { assert ArrOk(c, b, a); }
  }

  // ------------------------------------------------------------- the object

  class Pool {
    const cfg: Config
    var smallPool: set<Arr>
    var bigPool: set<Arr>              // the small pool itself, and empty here, if the sizes are equal
    var allocCnt: nat
    var freeCnt: nat
    var tracked: set<Arr>              // the keys of allocStacks
    ghost var live: set<Arr>           // handed out and not freed

    ghost function View(): (b: Books)
      reads this
    {
      Books(smallPool, bigPool, live, tracked, allocCnt, freeCnt)
    }

    ghost predicate Valid()
      reads this
    {
      Sound(cfg, View())
    }

    constructor (smallWanted: int, bigWanted: int, debug: bool)
      ensures Valid() && View() == Books({}, {}, {}, {}, 0, 0) && cfg.debug == debug
      ensures cfg.smallSize == (if smallWanted <= 0 then 64 else smallWanted)
      ensures var b := if bigWanted <= 0 then 64 * 1024 else bigWanted;
              cfg.bigSize == (if b < cfg.smallSize then cfg.smallSize else b)
    {
      var s := if smallWanted <= 0 then 64 else smallWanted;
      var b := if bigWanted <= 0 then 64 * 1024 else bigWanted;
      cfg := Config(debug, s, if b < s then s else b);
      smallPool, bigPool, tracked, live := {}, {}, {}, {};
      allocCnt, freeCnt := 0, 0;
    }

    ghost predicate Owns(s: Slice)
      reads this
    {
      s.arr in live && s.len <= s.arr.Length
    }

    /** A pooled buffer leaves its pool. */
    method TakePooled(a: Arr)
      requires Valid() && (a in smallPool || a in bigPool)
      modifies this`smallPool, this`bigPool
      ensures Valid() && !View().Has(a) && NoneAppeared() && a.Length > 0
    {
      assert ArrOk(cfg, View(), a);
      smallPool, bigPool := smallPool - {a}, bigPool - {a};
      TookSound(cfg, old(View()), a);
    }

    /** The pool of a size class, and what a new buffer of it holds. */
    function PoolOf(big: bool): (pool: set<Arr>)
      reads this
    {
      if big then bigPool else smallPool
    }

    function PoolSize(big: bool): (n: nat) { if big then cfg.bigSize else cfg.smallSize }

    /** sync.Pool.Get: some pooled buffer, or a new one when the pool is empty or dropped what it had. */
    method Get(big: bool, reuse: bool) returns (a: Arr)
      requires Valid()
      modifies this`smallPool, this`bigPool
      ensures Valid() && !View().Has(a) && NoneAppeared() && a.Length > 0
      ensures if fresh(a) then a.Length == PoolSize(big) else a in old(PoolOf(big))
    {
      var pool := if big then bigPool else smallPool;
      if reuse && pool != {} {
        a :| a in pool;
        TakePooled(a);
      } else {
        a := new Byte[if big then cfg.bigSize else cfg.smallSize];
      }
    }

    /** Get, grown to at least n bytes of capacity; an outgrown array is left to the garbage collector. */
    method Obtain(big: bool, n: nat, reuse: bool, slack: nat) returns (a: Arr)
      requires Valid()
      modifies this`smallPool, this`bigPool, smallPool, bigPool
      ensures Valid() && !View().Has(a) && a.Length >= n && a.Length > 0
      ensures fresh(a) || a in old(PoolOf(big))
      ensures NoneAppeared() && live == old(live) && Kept(live)
    {
      LiveIsApart(cfg, View());
      a := Get(big, reuse);
      if n > a.Length {
        var s := GoAppend(Slice(a, a.Length), seq(n - a.Length, _ => 0 as Byte), slack);
        a := s.arr;
      }
    }

    /** A buffer becomes live; addAllocStack when Debug is set. */
    method HandOut(a: Arr)
      requires Valid() && !View().Has(a) && a.Length > 0
      modifies this`tracked, this`allocCnt, this`live
      ensures Valid() && View() == old(View()).HandedOut(cfg, a)
    {
      if cfg.debug {
        allocCnt := allocCnt + 1;
        tracked := tracked + {a};
      }
      live := live + {a};
      HandedOutSound(cfg, old(View()), a);
    }

    /** A buffer leaves; deleteAllocStack when Debug is set, which panics on an untracked one. */
    method Drop(a: Arr) returns (panics: bool)
      requires Valid() && (cfg.debug || a in live || !View().Has(a))
      modifies this`tracked, this`freeCnt, this`live
      ensures Valid() && panics == (cfg.debug && a !in old(live))
      ensures View() == if panics then old(View()) else old(View()).Dropped(cfg, a)
    {
      panics := false;
      if cfg.debug {
        if a !in tracked {
          panics := true;
          return;
        }
        freeCnt := freeCnt + 1;
        tracked := tracked - {a};
      }
      if a in old(live) { DroppedSound(cfg, old(View()), a); }
      live := live - {a};
      assert a !in old(live) ==> live == old(live);
    }

    /** pool.Put of a buffer that is in neither pool. */
    method PutBack(a: Arr)
      requires Valid() && !View().Has(a) && a.Length > 0
      modifies this`smallPool, this`bigPool
      ensures Valid() && View() == old(View()).Put(cfg, a)
    {
      PutSound(cfg, View(), a);
      if cfg.Big(a.Length) {
        bigPool := bigPool + {a};
      } else {
        smallPool := smallPool + {a};
      }
    }

    method Malloc(size: nat, reuse: bool, slack: nat) returns (r: Slice)
      requires Valid()
      modifies this, smallPool, bigPool
      ensures Valid() && Owns(r) && r.len == size
      ensures r.arr !in old(live) && live == old(live) + {r.arr}
      ensures fresh(r.arr) || r.arr in old(PoolOf(cfg.Big(size)))
      ensures NoneAppeared() && Kept(old(live))
    {
      var a := Obtain(cfg.Big(size), size, reuse, slack);
      HandOut(a);
      r := Slice(a, size);
    }

    /** These buffers hold what they held. */
    twostate predicate Kept(others: set<Arr>)
      reads others
    {
      forall a {:trigger a[..]} {:trigger a in others} :: a in others ==> a[..] == old(a[..])
    }

    /** The pool has no array that is neither new nor was there. */
    twostate predicate NoneAppeared()
      reads this
    {
      forall a {:trigger a in View().All()} :: a in View().All() ==> fresh(a) || a in old(View().All())
    }

    /**
     Free of a live buffer never panics; in Debug mode, freeing any other one does.
     Without Debug a buffer of the caller's own goes into the pool like a live one.
     */
    method Free(s: Slice) returns (panics: bool)
      requires Valid() && (cfg.debug || s.arr in live || (!View().Has(s.arr) && s.arr.Length > 0))
      modifies this
      ensures Valid() && panics == (cfg.debug && s.arr !in old(live))
      ensures View() == if panics then old(View()) else old(View()).Dropped(cfg, s.arr).Put(cfg, s.arr)
      ensures live == old(live) - {s.arr}
      ensures forall a :: a in View().All() ==> a == s.arr || a in old(View().All())
    {
      panics := Drop(s.arr);
      if panics {
        return;
      }
      if s.arr in old(live) { DroppedSound(cfg, old(View()), s.arr); }
      PutBack(s.arr);
    }

    /** A live buffer replaced by append's new array: the old one is left to the garbage collector. */
    method Replace(was: Arr, now: Arr)
      requires Valid() && was in live && now.Length > 0 && (now == was || !View().Has(now))
      modifies this`tracked, this`allocCnt, this`freeCnt, this`live
      ensures Valid() && live == old(live) - {was} + {now} && smallPool == old(smallPool) && bigPool == old(bigPool)
    {
      if now != was {
        var panics := Drop(was);
        HandOut(now);
      }
    }

    /** A buffer from the big pool, not yet handed out, that starts with s and more. */
    method Prepare(s: Slice, n: nat, more: Bytes, reuse: bool, slack: nat) returns (a: Arr)
      requires Valid() && Owns(s) && s.len + |more| <= n
      modifies this`smallPool, this`bigPool, smallPool, bigPool
      ensures Valid() && !View().Has(a) && a.Length >= n && a.Length > 0
      ensures a[..s.len + |more|] == old(s.arr[..s.len]) + more
      ensures fresh(a) || a in old(PoolOf(cfg.smallSize < cfg.bigSize))
      ensures NoneAppeared() && live == old(live) && Kept(live)
    {
      a := Obtain(cfg.smallSize < cfg.bigSize, n, reuse, slack);
      Copy(a, 0, s.arr[..s.len]);
      Copy(a, s.len, more);
      assert a[..s.len + |more|] == a[..s.len] + a[s.len..s.len + |more|];
    }

    /** A buffer of n bytes that starts with s and more takes the place of s, which is freed. */
    method Move(s: Slice, n: nat, more: Bytes, reuse: bool, slack: nat) returns (r: Slice)
      requires Valid() && Owns(s) && s.len + |more| <= n
      modifies this, smallPool, bigPool
      ensures Valid() && Owns(r) && r.len == n && r.arr !in old(live)
      ensures r.arr[..s.len + |more|] == old(s.arr[..s.len]) + more
      ensures live == old(live) - {s.arr} + {r.arr} && s.arr in smallPool + bigPool
      ensures fresh(r.arr) || r.arr in old(PoolOf(cfg.smallSize < cfg.bigSize))
      ensures NoneAppeared() && Kept(old(live))
    {
      var a := Prepare(s, n, more, reuse, slack);
      var panics := Free(s);
      HandOut(a);
      r := Slice(a, n);
    }

    /** The last branch of Realloc: append grows the buffer where it is or in a new array. */
    method Grow(s: Slice, size: nat, slack: nat) returns (r: Slice)
      requires Valid() && Owns(s) && size > s.arr.Length
      modifies this`tracked, this`allocCnt, this`freeCnt, this`live, s.arr
      ensures Valid() && Owns(r) && r.len == size && fresh(r.arr)
      ensures r.arr[..s.len] == old(s.arr[..s.len])
      ensures live == old(live) - {s.arr} + {r.arr}
    {
      var g := GoAppend(Slice(s.arr, s.arr.Length), seq(size - s.arr.Length, _ => 0 as Byte), slack);
      assert g.arr[..s.len] == g.arr[..g.len][..s.len] == old(s.arr[..])[..s.len];
      Replace(s.arr, g.arr);
      r := Slice(g.arr, size);
    }

    /**
     Realloc and reallocDebug: what of the old content fits is kept. The old buffer
     goes back to its pool exactly if the new size takes it across bigSize.
     */
    method Realloc(s: Slice, size: nat, reuse: bool, slack: nat) returns (r: Slice)
      requires Valid() && Owns(s)
      modifies this, smallPool, bigPool, s.arr
      ensures Valid() && Owns(r) && r.len == size
      ensures r.arr[..Min(s.len, size)] == old(s.arr[..Min(s.len, size)])
      ensures live == old(live) - {s.arr} + {r.arr}
      ensures r.arr == s.arr || r.arr !in old(live)
      ensures r.arr == s.arr <==> size <= s.arr.Length
      ensures s.arr in smallPool + bigPool <==> s.arr.Length < cfg.bigSize <= size
      ensures NoneAppeared() && Kept(old(live) - {s.arr})
    {
      LiveIsApart(cfg, View());
      if size <= s.arr.Length {
        r := Slice(s.arr, size);
      } else if s.arr.Length < cfg.bigSize && size >= cfg.bigSize {
        r := Move(s, size, [], reuse, slack);
        assert old(s.arr[..s.len]) + [] == old(s.arr[..s.len]);
      } else {
        r := Grow(s, size, slack);
      }
    }

    /** The last branch of AppendString: the builtin append. */
    method AppendHere(s: Slice, more: Bytes, slack: nat) returns (r: Slice)
      requires Valid() && Owns(s)
      modifies this`tracked, this`allocCnt, this`freeCnt, this`live, s.arr
      ensures Valid() && Owns(r) && r.arr[..r.len] == old(s.arr[..s.len]) + more
      ensures live == old(live) - {s.arr} + {r.arr} && (r.arr == s.arr || fresh(r.arr))
      ensures s.arr !in smallPool + bigPool
    {
      assert ArrOk(cfg, View(), s.arr);
      r := GoAppend(s, more, slack);
      Replace(s.arr, r.arr);
    }

    /**
     AppendString and appendStringDebug: plain concatenation. The old buffer goes back
     to its pool exactly if the length crosses bigSize.
     */
    method AppendString(s: Slice, more: Bytes, reuse: bool, slack: nat) returns (r: Slice)
      requires Valid() && Owns(s)
      modifies this, smallPool, bigPool, s.arr
      ensures Valid() && Owns(r) && r.arr[..r.len] == old(s.arr[..s.len]) + more
      ensures live == old(live) - {s.arr} + {r.arr}
      ensures r.arr == s.arr || r.arr !in old(live)
      ensures s.arr in smallPool + bigPool <==> s.len < cfg.bigSize <= s.len + |more|
      ensures NoneAppeared() && Kept(old(live) - {s.arr})
    {
      var total := s.len + |more|;
      if s.len < cfg.bigSize && total >= cfg.bigSize {
        r := Move(s, total, more, reuse, slack);
      } else {
        r := AppendHere(s, more, slack);
      }
    }
  }
}
