/** Types every module of the model shares. */
module Prelude {
  datatype Option<+T> = None | Some(value: T)

  datatype Result<+T, +E> = Ok(value: T) | Err(error: E) {
    predicate IsFailure() {
      Err?
    }

    function PropagateFailure<U>(): Result<U, E>
      requires Err?
    {
      Err(error)
    }

    function Extract(): T
      requires Ok?
    {
      value
    }
  }

  /** An instant or a duration in microseconds, the resolution of both clocks the program reads. */
  type Time = nat

  const SECOND: Time := 1_000_000

  const HORIZON: Time := 72 * 3600 * SECOND

  function Min(a: int, b: int): int {
    if a <= b then a else b
  }

  function Pow2(n: nat): nat {
    if n == 0 then 1 else 2 * Pow2(n - 1)
  }

  /** The value a table holds under a key, as a SELECT would report it. */
  function Lookup<K, V>(table: map<K, V>, key: K): Option<V> {
    if key in table then Some(table[key]) else None
  }

  lemma CardinalityGrows<T>(a: set<T>, b: set<T>)
    requires a <= b
    ensures |a| <= |b|
  {
    assert b == a + (b - a);
  }
}

/** Text shared by the markers and keys that several parts compose. */
module Text {

  /** SHA-256 in hexadecimal; every result about it assumes only that it is injective. */
  type Hash = string -> string

  ghost predicate Injective(sha256: Hash) {
    forall a, b :: sha256(a) == sha256(b) ==> a == b
  }

  predicate ColonFree(s: string) {
    ':' !in s
  }

  /** A colon-free head can be read back from `head:tail`. */
  lemma {:induction false} ColonSplits(a: string, x: string, b: string, y: string)
    requires ColonFree(a) && ColonFree(b)
    requires a + ":" + x == b + ":" + y
    ensures a == b && x == y
  {
    if a == [] {
      assert (b + ":" + y)[0] == ':';
      assert b == [];
      assert x == (a + ":" + x)[1..] == (b + ":" + y)[1..] == y;
    } else {
      assert (a + ":" + x)[0] == a[0];
      assert (b + ":" + y)[0] == if b == [] then ':' else b[0];
      assert (a + ":" + x)[1..] == a[1..] + ":" + x;
      assert (b + ":" + y)[1..] == b[1..] + ":" + y;
      ColonSplits(a[1..], x, b[1..], y);
      assert a == [a[0]] + a[1..] && b == [b[0]] + b[1..];
    }
  }

  lemma SuffixEqual(prefix: string, x: string, y: string)
    requires prefix + x == prefix + y
    ensures x == y
  {
    assert x == (prefix + x)[|prefix|..] && y == (prefix + y)[|prefix|..];
  }
}
