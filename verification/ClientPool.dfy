/**
 ClientPool.Next (client.go), used sequentially: round-robin over size Clients
 with a uint64 counter that wraps around at 2^64.
 */
module ClientPool {
  import opened Arithmetic

  const TWO_64: nat := 0x1_0000_0000_0000_0000

  /** NewClientPool's initial counter, so that the first draw is index 0. */
  const INITIAL_ROUND: nat := TWO_64 - 1

  /** A pool size: what len(clients) can be. */
  type Size = n: nat | 0 < n < 0x8000_0000_0000_0000 witness 1

  /** The counter after k more additions. */
  function Advance(round: nat, k: nat): (r: nat)
    ensures r < TWO_64
  {
    (round + k) % TWO_64
  }

  /** The index of the k-th draw of a call, counting from 0. */
  function Draw(round: nat, k: nat, n: Size): (i: nat)
    ensures i < n
  {
    Advance(round, k + 1) % n
  }

  /** The draws a call makes: up to the first healthy Client from the k-th draw on, or up to n. */
  function Draws(round: nat, healthy: seq<bool>, k: nat): (d: nat)
    requires 0 < |healthy| < 0x8000_0000_0000_0000 && k < |healthy|
    ensures k < d <= |healthy|
    decreases |healthy| - k
  {
    if healthy[Draw(round, k, |healthy|)] || k + 1 == |healthy| then k + 1 else Draws(round, healthy, k + 1)
  }

  /** The index Next returns. */
  function NextIndex(round: nat, healthy: seq<bool>): (i: nat)
    requires 0 < |healthy| < 0x8000_0000_0000_0000
  {
    Draw(round, Draws(round, healthy, 0) - 1, |healthy|)
  }

  /** A scan of n draws whose counter values do not pass 2^64. */
  predicate NoWrap(round: nat, n: Size) { Advance(round, 1) + n <= TWO_64 }

  // ----------------------------------------------------------- the indexes

  function Turn(s: nat, k: nat, n: nat): (i: nat)
    requires s < n && k < n
    ensures i < n
  {
    if s + k < n then s + k else s + k - n
  }

  lemma ModAdd(v: nat, k: nat, n: nat)
    requires k < n
    ensures (v + k) % n == Turn(v % n, k, n)
  {
    var q, s := v / n, v % n;
    assert v == n * q + s;
    if s + k < n {
      DivModUnique(v + k, n, q, s + k);
    } else {
      assert n * (q + 1) == n * q + n;
      DivModUnique(v + k, n, q + 1, s + k - n);
    }
  }

  /** The counter value of a draw. */
  lemma DrawValue(round: nat, k: nat, n: Size)
    requires k < n
    ensures var v := Advance(round, 1); Draw(round, k, n) == (if v + k < TWO_64 then v + k else v + k - TWO_64) % n
  {
    var v := Advance(round, 1);
    var q := (round + 1) / TWO_64;
    assert round + 1 == TWO_64 * q + v;
    if v + k < TWO_64 {
      DivModUnique(round + k + 1, TWO_64, q, v + k);
    } else {
      DivModUnique(round + k + 1, TWO_64, q + 1, v + k - TWO_64);
    }
  }

  lemma AddMultiple(v: nat, w: nat, n: nat)
    requires n > 0 && w % n == 0
    ensures (v + w) % n == v % n
  {
    var p, q := w / n, v / n;
    assert w == n * p && v == n * q + v % n;
    assert n * q + n * p == n * (q + p);
    DivModUnique(v + w, n, q + p, v % n);
  }

  /** Without a wrap, or when n divides 2^64, the draws go round the indexes. */
  lemma DrawTurns(round: nat, k: nat, n: Size)
    requires k < n && (NoWrap(round, n) || TWO_64 % n == 0)
    ensures Draw(round, k, n) == Turn(Advance(round, 1) % n, k, n)
  {
    var v := Advance(round, 1);
    DrawValue(round, k, n);
    ModAdd(v, k, n);
    if v + k >= TWO_64 {
      AddMultiple(v + k - TWO_64, TWO_64, n);
    }
  }

  /** The draw that gives index x, when they go round. */
  lemma DrawOf(round: nat, x: nat, n: Size) returns (k: nat)
    requires x < n && (NoWrap(round, n) || TWO_64 % n == 0)
    ensures k < n && Draw(round, k, n) == x
  {
    var s := Advance(round, 1) % n;
    k := if x >= s then x - s else x + n - s;
    DrawTurns(round, k, n);
  }

  /** A scan that wraps when n does not divide 2^64 misses this index. */
  function Missed(round: nat, n: Size): (x: int) {
    var a, c := TWO_64 - Advance(round, 1), TWO_64 % n;
    if a < c then n - 1 else n + c - a - 1
  }

  lemma BelowMultiple(w: nat, j: nat, n: nat)
    requires 0 < n <= w && j <= w && j <= w % n + n
    ensures (w - j) % n == if j <= w % n then w % n - j else n + w % n - j
  {
    var q, c := w / n, w % n;
    assert w == n * q + c;
    if j <= c {
      DivModUnique(w - j, n, q, c - j);
    } else {
      Quotient(w, n);
      assert n * q == n * (q - 1) + n;
      DivModUnique(w - j, n, q - 1, n + c - j);
    }
  }

  lemma Quotient(w: nat, n: nat)
    requires 0 < n <= w
    ensures w / n > 0
  {
  }

  /** The index of draw k of a scan that wraps after a draws; c is 2^64 modulo n. */
  function Wrapped(a: nat, c: nat, n: nat, k: nat): (i: int) {
    if k >= a then k - a else if a - k <= c then c - (a - k) else n + c - (a - k)
  }

  lemma DrawWraps(round: nat, n: Size, k: nat)
    requires !NoWrap(round, n) && k < n
    ensures Draw(round, k, n) == Wrapped(TWO_64 - Advance(round, 1), TWO_64 % n, n, k)
  {
    var a := TWO_64 - Advance(round, 1);
    DrawValue(round, k, n);
    if k < a {
      BelowMultiple(TWO_64, a - k, n);
    } else {
      DivModUnique(k - a, n, 0, k - a);
    }
  }

  lemma MissedIsMissed(round: nat, n: Size, k: nat)
    requires !NoWrap(round, n) && TWO_64 % n != 0 && k < n
    ensures 0 <= Missed(round, n) < n && Draw(round, k, n) != Missed(round, n)
  {
    DrawWraps(round, n, k);
    WrappedMisses(TWO_64 - Advance(round, 1), TWO_64 % n, n, k);
  }

  lemma WrappedMisses(a: nat, c: nat, n: nat, k: nat)
    requires 0 < a < n && 0 < c < n && k < n
    ensures var x := if a < c then n - 1 else n + c - a - 1; 0 <= x < n && Wrapped(a, c, n, k) != x
  {
  }

  lemma WrappedCollides(a: nat, c: nat, n: nat)
    requires 0 < a < n && 0 < c < n
    ensures var k := if a < c then 0 else a - c; var l := if a < c then c else a;
            k < l < n && Wrapped(a, c, n, k) == Wrapped(a, c, n, l)
  {
  }

  // ------------------------------------------------------------- theorems

  /** The draws of one call are all different exactly when no wrap falls inside the scan or the size divides 2^64. */
  lemma DrawsDistinctIff(round: nat, n: Size)
    ensures (forall k, l :: 0 <= k < l < n ==> Draw(round, k, n) != Draw(round, l, n))
            <==> NoWrap(round, n) || TWO_64 % n == 0
  {
    if NoWrap(round, n) || TWO_64 % n == 0 {
      forall k, l | 0 <= k < l < n ensures Draw(round, k, n) != Draw(round, l, n) {
        DrawTurns(round, k, n);
        DrawTurns(round, l, n);
      }
    } else {
      var a, c := TWO_64 - Advance(round, 1), TWO_64 % n;
      WrappedCollides(a, c, n);
      var k, l := if a < c then 0 else a - c, if a < c then c else a;
      DrawWraps(round, n, k);
      DrawWraps(round, n, l);
      assert Draw(round, k, n) == Draw(round, l, n);
    }
  }

  lemma {:induction false} DrawsStopAtHealthy(round: nat, healthy: seq<bool>, k: nat, j: nat)
    requires 0 < |healthy| < 0x8000_0000_0000_0000 && k <= j < |healthy|
    ensures var d := Draws(round, healthy, k);
            && (healthy[Draw(round, d - 1, |healthy|)] || d == |healthy|)
            && (healthy[Draw(round, j, |healthy|)] ==> healthy[Draw(round, d - 1, |healthy|)])
    ensures k <= j < Draws(round, healthy, k) - 1 ==> !healthy[Draw(round, j, |healthy|)]
    decreases |healthy| - k
  {
    if !healthy[Draw(round, k, |healthy|)] && k + 1 < |healthy| {
      DrawsStopAtHealthy(round, healthy, k + 1, if j > k then j else k + 1);
    }
  }

  /**
   Next finds a healthy Client whenever there is one, for every pattern of
   health, exactly under the same condition.
   */
  lemma FindsHealthyIff(round: nat, n: Size)
    ensures (forall healthy: seq<bool> :: |healthy| == n && true in healthy ==> healthy[NextIndex(round, healthy)])
            <==> NoWrap(round, n) || TWO_64 % n == 0
  {
    if NoWrap(round, n) || TWO_64 % n == 0 {
      forall healthy: seq<bool> | |healthy| == n && true in healthy ensures healthy[NextIndex(round, healthy)] {
        var x :| 0 <= x < n && healthy[x];
        var k := DrawOf(round, x, n);
        DrawsStopAtHealthy(round, healthy, 0, k);
      }
    } else {
      MissedIsMissed(round, n, 0);
      var x := Missed(round, n);
      var healthy := seq(n, i => i == x);
      assert healthy[x];
      MissedIsMissed(round, n, Draws(round, healthy, 0) - 1);
      assert !healthy[NextIndex(round, healthy)];
    }
  }

  /** The wrap does cost a healthy Client: three Clients, the second healthy, and a counter just below 2^64. */
  lemma WrapMissesAHealthyClient()
    ensures var healthy := [false, true, false]; true in healthy && !healthy[NextIndex(TWO_64 - 3, healthy)]
  {
    var healthy := [false, true, false];
    assert healthy[1];
    assert Draw(TWO_64 - 3, 0, 3) == 2 && Draw(TWO_64 - 3, 1, 3) == 0 && Draw(TWO_64 - 3, 2, 3) == 0;
  }

  /** With nothing healthy, all n Clients are tried and the last one is returned. */
  lemma NoneHealthy(round: nat, healthy: seq<bool>)
    requires 0 < |healthy| < 0x8000_0000_0000_0000 && true !in healthy
    ensures NextIndex(round, healthy) == Draw(round, |healthy| - 1, |healthy|)
  {
    DrawsStopAtHealthy(round, healthy, 0, 0);
  }

  /** With all healthy, call j (from 0) of a new pool returns index j modulo the size, up to the wrap. */
  lemma AllHealthyCycles(j: nat, healthy: seq<bool>)
    requires 0 < |healthy| < 0x8000_0000_0000_0000 && false !in healthy && j < TWO_64
    ensures NextIndex(Advance(INITIAL_ROUND, j), healthy) == j % |healthy|
    ensures Draws(Advance(INITIAL_ROUND, j), healthy, 0) == 1
  {
    var r := Advance(INITIAL_ROUND, j);
    if j == 0 {
      assert Advance(r, 1) == 0;
    } else {
      DivModUnique(INITIAL_ROUND + j, TWO_64, 1, j - 1);
      assert Advance(r, 1) == j;
    }
    assert healthy[Draw(r, 0, |healthy|)];
  }

  // ------------------------------------------------------------ the object

  class Client {
    var running: bool
    var reconnecting: bool

    predicate Healthy()
      reads this
    {
      running && !reconnecting
    }
  }

  class Pool {
    const clients: seq<Client>
    var round: nat

    constructor (clients: seq<Client>)
      ensures this.clients == clients && round == INITIAL_ROUND
    {
      this.clients := clients;
      round := INITIAL_ROUND;
    }

    ghost function Health(): (h: seq<bool>)
      reads clients
      ensures |h| == |clients|
    {
      seq(|clients|, i requires 0 <= i < |clients| reads clients => clients[i].Healthy())
    }

    /** atomic.AddUint64(&round, 1) and the Client at that index. */
    method Take() returns (c: Client)
      requires 0 < |clients| < 0x8000_0000_0000_0000
      modifies this`round
      ensures round == Advance(old(round), 1) && c == clients[round % |clients|]
    {
      round := Advance(round, 1);
      c := clients[round % |clients|];
    }

    method Next() returns (c: Client)
      requires 0 < |clients| < 0x8000_0000_0000_0000 && round < TWO_64
      modifies this`round
      ensures c == clients[NextIndex(old(round), Health())]
      ensures round == Advance(old(round), Draws(old(round), Health(), 0)) < TWO_64
    {
      ghost var h := Health();
      c := Take();
      if c.running && !c.reconnecting {
        return;
      }
      var i := 1;
      while i < |clients|
        invariant 1 <= i <= |clients| && round == Advance(old(round), i)
        invariant c == clients[Draw(old(round), i - 1, |clients|)] && !h[Draw(old(round), i - 1, |clients|)]
        invariant Draws(old(round), h, i - 1) == Draws(old(round), h, 0)
      {
        AdvanceTwice(old(round), i);
        c := Take();
        if c.running && !c.reconnecting {
          return;
        }
        i := i + 1;
      }
    }
  }

  lemma AdvanceTwice(r: nat, k: nat)
    ensures Advance(Advance(r, k), 1) == Advance(r, k + 1)
  {
    var q, v := (r + k) / TWO_64, Advance(r, k);
    assert r + k == TWO_64 * q + v;
    if v + 1 < TWO_64 {
      DivModUnique(r + k + 1, TWO_64, q, v + 1);
    } else {
      DivModUnique(r + k + 1, TWO_64, q + 1, 0);
    }
  }
}
