/** Text order and the stable sort that canonical serialisation and planning rely on. */
module Ordering {

  /** Strings compare character by character, a prefix before its extensions. */
  predicate Leq(a: string, b: string) {
    a == [] || (b != [] && (a[0] < b[0] || (a[0] == b[0] && Leq(a[1..], b[1..]))))
  }

  lemma {:induction false} LeqTotal(a: string, b: string)
    ensures Leq(a, b) || Leq(b, a)
  {
    if a != [] && b != [] && a[0] == b[0] { LeqTotal(a[1..], b[1..]); }
  }

  lemma {:induction false} LeqAntisymmetric(a: string, b: string)
    requires Leq(a, b) && Leq(b, a)
    ensures a == b
  {
    if a != [] {
      LeqAntisymmetric(a[1..], b[1..]);
      assert a == [a[0]] + a[1..] && b == [b[0]] + b[1..];
    }
  }

  lemma {:induction false} LeqTransitive(a: string, b: string, c: string)
    requires Leq(a, b) && Leq(b, c)
    ensures Leq(a, c)
  {
    if a != [] && a[0] == b[0] && b[0] == c[0] { LeqTransitive(a[1..], b[1..], c[1..]); }
  }

  /** `x` after everything whose key is not greater, so that equal keys keep their order. */
  function Insert<T>(sorted: seq<T>, x: T, key: T -> string): seq<T> {
    if sorted == [] || Leq(key(sorted[|sorted| - 1]), key(x)) then sorted + [x]
    else Insert(sorted[..|sorted| - 1], x, key) + [sorted[|sorted| - 1]]
  }

  /** Python's `sorted(xs, key=...)`. */
  function Sorted<T>(xs: seq<T>, key: T -> string): seq<T> {
    if xs == [] then [] else Insert(Sorted(xs[..|xs| - 1], key), xs[|xs| - 1], key)
  }

  lemma {:induction false} InsertAdds<T>(sorted: seq<T>, x: T, key: T -> string)
    ensures multiset(Insert(sorted, x, key)) == multiset(sorted) + multiset{x}
  {
    if !(sorted == [] || Leq(key(sorted[|sorted| - 1]), key(x))) {
      var n := |sorted| - 1;
      assert sorted == sorted[..n] + [sorted[n]];
      InsertAdds(sorted[..n], x, key);
    }
  }

  lemma {:induction false} SortedPermutes<T>(xs: seq<T>, key: T -> string)
    ensures multiset(Sorted(xs, key)) == multiset(xs)
  {
    if xs != [] {
      var n := |xs| - 1;
      assert xs == xs[..n] + [xs[n]];
      SortedPermutes(xs[..n], key);
      InsertAdds(Sorted(xs[..n], key), xs[n], key);
    }
  }

  ghost predicate Ascending<T>(xs: seq<T>, key: T -> string) {
    forall i, j :: 0 <= i < j < |xs| ==> Leq(key(xs[i]), key(xs[j]))
  }

  lemma {:induction false} InsertAscends<T>(sorted: seq<T>, x: T, key: T -> string)
    requires Ascending(sorted, key)
    ensures Ascending(Insert(sorted, x, key), key)
  {
    var n := |sorted| - 1;
    if sorted == [] {
    } else if Leq(key(sorted[n]), key(x)) {
      forall i | 0 <= i <= n ensures Leq(key(sorted[i]), key(x)) {
        if i < n { LeqTransitive(key(sorted[i]), key(sorted[n]), key(x)); }
      }
    } else {
      InsertAscends(sorted[..n], x, key);
      InsertAdds(sorted[..n], x, key);
      LeqTotal(key(sorted[n]), key(x));
      var front := Insert(sorted[..n], x, key);
      forall i | 0 <= i < |front| ensures Leq(key(front[i]), key(sorted[n])) {
        assert front[i] in multiset(front);
        assert front[i] == x || front[i] in sorted[..n];
      }
    }
  }

  lemma {:induction false} SortedAscends<T>(xs: seq<T>, key: T -> string)
    ensures Ascending(Sorted(xs, key), key)
  {
    if xs != [] {
      SortedAscends(xs[..|xs| - 1], key);
      InsertAscends(Sorted(xs[..|xs| - 1], key), xs[|xs| - 1], key);
    }
  }

  function Itself(s: string): string {
    s
  }

  lemma SmallestFirst(a: seq<string>, x: string)
    requires Ascending(a, Itself) && x in a
    ensures Leq(a[0], x)
  {
    var j :| 0 <= j < |a| && a[j] == x;
    if j == 0 {
      LeqTotal(x, x);
    } else {
      assert Leq(Itself(a[0]), Itself(a[j]));
    }
  }

  lemma SameMembers(a: seq<string>, b: seq<string>, x: string)
    requires multiset(a) == multiset(b) && x in a
    ensures x in b
  {
    assert x in multiset(a) && x in multiset(b);
  }

  lemma SameHeads(a: seq<string>, b: seq<string>)
    requires multiset(a) == multiset(b) && Ascending(a, Itself) && Ascending(b, Itself) && a != [] && b != []
    ensures a[0] == b[0]
  {
    SameMembers(a, b, a[0]);
    SameMembers(b, a, b[0]);
    SmallestFirst(a, b[0]);
    SmallestFirst(b, a[0]);
    LeqAntisymmetric(a[0], b[0]);
  }

  lemma TailMultiset<T>(a: seq<T>)
    requires a != []
    ensures multiset(a[1..]) == multiset(a) - multiset{a[0]}
  {
    assert a == [a[0]] + a[1..];
  }

  /** One multiset of strings has one ascending arrangement. */
  lemma {:induction false} AscendingIsUnique(a: seq<string>, b: seq<string>)
    requires multiset(a) == multiset(b) && Ascending(a, Itself) && Ascending(b, Itself)
    ensures a == b
  {
    assert |multiset(a)| == |multiset(b)|;
    if a != [] {
      SameHeads(a, b);
      TailMultiset(a);
      TailMultiset(b);
      TailsAscend(a);
      TailsAscend(b);
      AscendingIsUnique(a[1..], b[1..]);
      assert a == [a[0]] + a[1..] && b == [b[0]] + b[1..];
    }
  }

  lemma TailsAscend(a: seq<string>)
    requires a != [] && Ascending(a, Itself)
    ensures Ascending(a[1..], Itself)
  {
    forall i, j | 0 <= i < j < |a| - 1 ensures Leq(Itself(a[1..][i]), Itself(a[1..][j])) {
      assert Leq(Itself(a[i + 1]), Itself(a[j + 1]));
    }
  }

  /** An order a set's elements may be met in, which depends on how the set was built. */
  ghost predicate Enumerates(xs: seq<string>, s: set<string>) {
    && (forall x :: x in xs <==> x in s)
    && (forall i, j :: 0 <= i < j < |xs| ==> xs[i] != xs[j])
  }

  lemma {:induction false} EnumerationMultiset(xs: seq<string>, s: set<string>)
    requires Enumerates(xs, s)
    ensures multiset(xs) == multiset(s)
  {
    if xs != [] {
      var n := |xs| - 1;
      var rest := s - {xs[n]};
      assert xs == xs[..n] + [xs[n]];
      forall x ensures x in xs[..n] <==> x in rest {
        assert x in xs <==> x in xs[..n] || x == xs[n];
      }
      EnumerationMultiset(xs[..n], rest);
      assert s == rest + {xs[n]};
    } else {
      assert s == {};
    }
  }

  /** Sorting forgets the order a set was met in. */
  lemma SortForgetsOrder(xs: seq<string>, ys: seq<string>, s: set<string>)
    requires Enumerates(xs, s) && Enumerates(ys, s)
    ensures Sorted(xs, Itself) == Sorted(ys, Itself)
  {
    EnumerationMultiset(xs, s);
    EnumerationMultiset(ys, s);
    SortedAscends(xs, Itself);
    SortedAscends(ys, Itself);
    SortedPermutes(xs, Itself);
    SortedPermutes(ys, Itself);
    AscendingIsUnique(Sorted(xs, Itself), Sorted(ys, Itself));
  }

  lemma SortedHasTheSame<T>(xs: seq<T>, key: T -> string, x: T)
    ensures x in Sorted(xs, key) <==> x in xs
  {
    SortedPermutes(xs, key);
    assert x in multiset(Sorted(xs, key)) <==> x in multiset(xs);
  }

  predicate Distinct<T(==)>(xs: seq<T>) {
    forall i, j :: 0 <= i < j < |xs| ==> xs[i] != xs[j]
  }

  lemma {:induction false} DistinctMultiplicity<T>(xs: seq<T>)
    ensures Distinct(xs) <==> forall x :: multiset(xs)[x] <= 1
  {
    if xs != [] {
      var n := |xs| - 1;
      assert xs == xs[..n] + [xs[n]];
      DistinctMultiplicity(xs[..n]);
      if Distinct(xs) {
        assert xs[n] !in xs[..n];
      } else if Distinct(xs[..n]) {
        assert xs[n] in xs[..n];
        assert multiset(xs)[xs[n]] >= 2;
      } else {
        var x :| multiset(xs[..n])[x] > 1;
        assert multiset(xs)[x] > 1;
      }
    }
  }
}
