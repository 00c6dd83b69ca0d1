/** Values shared by the models of the components. */
module Prelude {

  datatype Option<+T> = None | Some(value: T)

  datatype Result<+T, +E> = Ok(value: T) | Err(error: E)

  /** A byte by its value. */
  type Byte = x: int | 0 <= x < 256

  type Bytes = seq<Byte>

  /** No element occurs twice. */
  ghost predicate Distinct<T>(s: seq<T>) {
    forall i, j :: 0 <= i < j < |s| ==> s[i] != s[j]
  }

  /** The bytes of a list of buffers, in order. */
  function Flatten<T>(parts: seq<seq<T>>): (r: seq<T>) {
    if parts == [] then [] else parts[0] + Flatten(parts[1..])
  }

  lemma {:induction false} FlattenConcat<T>(a: seq<seq<T>>, b: seq<seq<T>>)
    ensures Flatten(a + b) == Flatten(a) + Flatten(b)
  {
    if a == [] {
      assert a + b == b;
    } else {
      assert (a + b)[1..] == a[1..] + b;
      FlattenConcat(a[1..], b);
    }
  }

  lemma FlattenCons<T>(x: seq<T>, rest: seq<seq<T>>)
    ensures Flatten([x] + rest) == x + Flatten(rest)
  {
    assert ([x] + rest)[1..] == rest;
  }

  function Without<T>(s: seq<T>, i: nat): (r: seq<T>)
    requires i < |s|
  {
    s[..i] + s[i + 1..]
  }

  /** Taking out the element at i takes one occurrence of it, and only that. */
  lemma WithoutCounts<T>(s: seq<T>, i: nat)
    requires i < |s|
    ensures multiset(Without(s, i)) == multiset(s) - multiset{s[i]}
    ensures forall j :: 0 <= j < |s| - 1 ==> Without(s, i)[j] in s
  {
    assert s == s[..i] + [s[i]] + s[i + 1..];
  }
}
