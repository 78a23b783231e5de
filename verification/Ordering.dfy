/** Python's ordering of `str` values (by code point, lexicographically) and `sorted`. */
module Ordering {
  predicate Le(a: string, b: string) {
    if a == [] then true
    else if b == [] then false
    else if a[0] == b[0] then Le(a[1..], b[1..])
    else a[0] < b[0]
  }

  lemma {:induction false} LeReflexive(a: string)
    ensures Le(a, a)
  {
    if a != [] { LeReflexive(a[1..]); }
  }

  lemma {:induction false} LeTotal(a: string, b: string)
    ensures Le(a, b) || Le(b, a)
  {
    if a != [] && b != [] && a[0] == b[0] { LeTotal(a[1..], b[1..]); }
  }

  lemma {:induction false} LeAntisymmetric(a: string, b: string)
    requires Le(a, b) && Le(b, a)
    ensures a == b
  {
    if a != [] && b != [] {
      LeAntisymmetric(a[1..], b[1..]);
      assert a == [a[0]] + a[1..] && b == [b[0]] + b[1..];
    }
  }

  lemma {:induction false} LeTransitive(a: string, b: string, c: string)
    requires Le(a, b) && Le(b, c)
    ensures Le(a, c)
  {
    if a != [] && b != [] && c != [] && a[0] == b[0] && b[0] == c[0] {
      LeTransitive(a[1..], b[1..], c[1..]);
    }
  }

  /** `sorted(items, key=key)`: a stable insertion sort stands for the library's sort. */
  function Insert<T>(x: T, sorted: seq<T>, key: T -> string): (r: seq<T>)
    ensures multiset(r) == multiset{x} + multiset(sorted)
  {
    if sorted == [] then [x]
    else if Le(key(x), key(sorted[0])) then [x] + sorted
    else
      assert sorted == [sorted[0]] + sorted[1..];
      [sorted[0]] + Insert(x, sorted[1..], key)
  }

  function Sorted<T>(items: seq<T>, key: T -> string): (r: seq<T>)
    ensures multiset(r) == multiset(items)
  {
    if items == [] then []
    else
      assert items == [items[0]] + items[1..];
      Insert(items[0], Sorted(items[1..], key), key)
  }

  ghost predicate InOrder<T>(items: seq<T>, key: T -> string) {
    forall i, j :: 0 <= i < j < |items| ==> Le(key(items[i]), key(items[j]))
  }

  lemma {:induction false} InsertInOrder<T>(x: T, sorted: seq<T>, key: T -> string)
    requires InOrder(sorted, key)
    ensures InOrder(Insert(x, sorted, key), key)
  {
    if sorted == [] {
    } else if Le(key(x), key(sorted[0])) {
      forall j | 0 <= j < |sorted| ensures Le(key(x), key(sorted[j])) {
        if j > 0 { LeTransitive(key(x), key(sorted[0]), key(sorted[j])); }
      }
    } else {
      LeTotal(key(x), key(sorted[0]));
      var rest := Insert(x, sorted[1..], key);
      InsertInOrder(x, sorted[1..], key);
      forall j | 0 <= j < |rest| ensures Le(key(sorted[0]), key(rest[j])) {
        assert rest[j] in multiset(rest);
        assert rest[j] == x || rest[j] in sorted[1..];
      }
    }
  }

  lemma {:induction false} SortedInOrder<T>(items: seq<T>, key: T -> string)
    ensures InOrder(Sorted(items, key), key)
  {
    if items != [] {
      SortedInOrder(items[1..], key);
      InsertInOrder(items[0], Sorted(items[1..], key), key);
    }
  }

  /** The head of an ordered sequence is least among its members. */
  lemma HeadIsLeast<T>(a: seq<T>, x: T, key: T -> string)
    requires InOrder(a, key) && x in a
    ensures Le(key(a[0]), key(x))
  {
    LeReflexive(key(x));
    var i :| 0 <= i < |a| && a[i] == x;
    assert i == 0 || 0 < i < |a|;
  }

  ghost predicate InjectiveOn<T(!new)>(key: T -> string, items: multiset<T>) {
    forall x, y :: x in items && y in items && key(x) == key(y) ==> x == y
  }

  lemma HeadsAgree<T(!new)>(a: seq<T>, b: seq<T>, key: T -> string)
    requires InjectiveOn(key, multiset(a)) && a != []
    requires multiset(a) == multiset(b) && InOrder(a, key) && InOrder(b, key)
    ensures b != [] && a[0] == b[0]
  {
    assert a[0] in multiset(b);
    assert b[0] in multiset(a);
    HeadIsLeast(a, b[0], key);
    HeadIsLeast(b, a[0], key);
    LeAntisymmetric(key(a[0]), key(b[0]));
  }

  lemma Tail<T(!new)>(a: seq<T>, key: T -> string)
    requires a != [] && InOrder(a, key) && InjectiveOn(key, multiset(a))
    ensures multiset(a[1..]) == multiset(a) - multiset{a[0]}
    ensures InOrder(a[1..], key) && InjectiveOn(key, multiset(a[1..]))
  {
    assert a == [a[0]] + a[1..];
  }

  /** The sorted form is unique when equal keys mean equal items. */
  lemma {:induction false} InOrderUnique<T(!new)>(a: seq<T>, b: seq<T>, key: T -> string)
    requires InjectiveOn(key, multiset(a))
    requires multiset(a) == multiset(b) && InOrder(a, key) && InOrder(b, key)
    ensures a == b
    decreases |a|
  {
    if a == [] {
      assert |b| == |multiset(b)| == |multiset(a)|;
    } else {
      HeadsAgree(a, b, key);
      Tails(a, b, key);
      InOrderUnique(a[1..], b[1..], key);
      assert a == [a[0]] + a[1..] && b == [b[0]] + b[1..];
    }
  }

  lemma Tails<T(!new)>(a: seq<T>, b: seq<T>, key: T -> string)
    requires InjectiveOn(key, multiset(a)) && a != [] && b != [] && a[0] == b[0]
    requires multiset(a) == multiset(b) && InOrder(a, key) && InOrder(b, key)
    ensures multiset(a[1..]) == multiset(b[1..])
    ensures InjectiveOn(key, multiset(a[1..])) && InOrder(a[1..], key) && InOrder(b[1..], key)
  {
    Tail(a, key);
    Tail(b, key);
  }

  /** `sorted` of a set of names: the one strictly increasing sequence of its members. */
  ghost function SortedNames(names: set<string>): (r: seq<string>)
    ensures |r| == |names|
    ensures forall i :: 0 <= i < |r| ==> r[i] in names
    ensures forall x :: x in names ==> x in r
  {
    if names == {} then []
    else
      LeastExists(names);
      var least :| least in names && forall y :: y in names ==> Le(least, y);
      [least] + SortedNames(names - {least})
  }

  lemma {:induction false} SortedNamesIncrease(names: set<string>)
    ensures forall i, j :: 0 <= i < j < |SortedNames(names)| ==> SortedNames(names)[i] != SortedNames(names)[j]
    ensures forall i, j :: 0 <= i < j < |SortedNames(names)| ==> Le(SortedNames(names)[i], SortedNames(names)[j])
  {
    if names != {} {
      var r := SortedNames(names);
      SortedNamesIncrease(names - {r[0]});
      forall i, j | 0 <= i < j < |r| ensures r[i] != r[j] && Le(r[i], r[j]) {
        LeastExists(names);
        assert r[1..] == SortedNames(names - {r[0]});
        assert r[j] == r[1..][j - 1];
        if i > 0 { assert r[i] == r[1..][i - 1]; }
      }
    }
  }

  lemma {:induction false} Least(names: set<string>) returns (least: string)
    requires names != {}
    ensures least in names && forall y :: y in names ==> Le(least, y)
  {
    var x :| x in names;
    var rest := names - {x};
    LeReflexive(x);
    if rest == {} {
      least := x;
      forall y | y in names ensures Le(least, y) {
        assert y !in rest;
      }
    } else {
      var other := Least(rest);
      LeTotal(x, other);
      least := if Le(x, other) then x else other;
      forall y | y in names ensures Le(least, y) {
        if y == x {
        } else {
          assert y in rest;
          if least == x { LeTransitive(x, other, y); }
        }
      }
    }
  }

  lemma LeastExists(names: set<string>)
    requires names != {}
    ensures exists x :: x in names && forall y :: y in names ==> Le(x, y)
  {
    var x := Least(names);
  }
}
