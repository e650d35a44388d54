/** The value-or-nothing and value-or-error types the models share. */
module Wrappers {

  datatype Option<+T> = None | Some(value: T) {

    /** Python's `x or default` for a value that is only ever absent, never falsy. */
    function GetOr(default: T): T {
      match this
      case Some(v) => v
      case None => default
    }
  }

  datatype Result<+R, +E> = Success(value: R) | Failure(error: E)
}

/** Python's `sorted`: a stable sort by a key order, and the order on strings. */
module Sorting {

  ghost predicate Total<T(!new)>(le: (T, T) -> bool) {
    forall x, y :: le(x, y) || le(y, x)
  }

  ghost predicate Transitive<T(!new)>(le: (T, T) -> bool) {
    forall x, y, z :: le(x, y) && le(y, z) ==> le(x, z)
  }

  ghost predicate Ordering<T(!new)>(le: (T, T) -> bool) {
    Total(le) && Transitive(le)
  }

  ghost predicate Sorted<T>(xs: seq<T>, le: (T, T) -> bool) {
    forall i, j :: 0 <= i < j < |xs| ==> le(xs[i], xs[j])
  }

  /** No two different elements share a place in the order. */
  ghost predicate Distinguishes<T>(le: (T, T) -> bool, xs: seq<T>) {
    forall x, y :: x in xs && y in xs && le(x, y) && le(y, x) ==> x == y
  }

  function Insert<T>(x: T, ys: seq<T>, le: (T, T) -> bool): seq<T> {
    if ys == [] then [x]
    else if le(x, ys[0]) then [x] + ys
    else [ys[0]] + Insert(x, ys[1..], le)
  }

  /** Stable: an element goes in front of the later elements it is level with. */
  function Sort<T>(xs: seq<T>, le: (T, T) -> bool): seq<T> {
    if xs == [] then [] else Insert(xs[0], Sort(xs[1..], le), le)
  }

  lemma {:induction false} InsertAdds<T>(x: T, ys: seq<T>, le: (T, T) -> bool)
    ensures multiset(Insert(x, ys, le)) == multiset(ys) + multiset{x}
  {
    if ys != [] {
      assert ys == [ys[0]] + ys[1..];
      if !le(x, ys[0]) {
        InsertAdds(x, ys[1..], le);
      }
    }
  }

  /** Sorting loses and invents nothing. */
  lemma {:induction false} SortPermutes<T>(xs: seq<T>, le: (T, T) -> bool)
    ensures multiset(Sort(xs, le)) == multiset(xs)
    ensures |Sort(xs, le)| == |xs|
    ensures forall x :: x in Sort(xs, le) <==> x in xs
  {
    if xs != [] {
      SortPermutes(xs[1..], le);
      InsertAdds(xs[0], Sort(xs[1..], le), le);
      assert xs == [xs[0]] + xs[1..];
    }
    assert |multiset(Sort(xs, le))| == |multiset(xs)|;
    SameElements(Sort(xs, le), xs);
  }

  lemma SameElements<T>(xs: seq<T>, ys: seq<T>)
    requires multiset(xs) == multiset(ys)
    ensures forall x :: x in xs <==> x in ys
  {
    forall x ensures x in xs <==> x in ys {
      assert x in multiset(xs) <==> x in multiset(ys);
    }
  }

  lemma {:induction false} InsertKeepsOrder<T(!new)>(x: T, ys: seq<T>, le: (T, T) -> bool)
    requires Ordering(le) && Sorted(ys, le)
    ensures Sorted(Insert(x, ys, le), le)
  {
    if ys != [] && !le(x, ys[0]) {
      InsertKeepsOrder(x, ys[1..], le);
      var rest := Insert(x, ys[1..], le);
      InsertAdds(x, ys[1..], le);
      SameElements(rest, ys[1..] + [x]);
      forall z | z in rest ensures le(ys[0], z) {
        assert z in ys[1..] || z == x;
      }
    }
  }

  lemma {:induction false} SortSorts<T(!new)>(xs: seq<T>, le: (T, T) -> bool)
    requires Ordering(le)
    ensures Sorted(Sort(xs, le), le)
  {
    if xs != [] {
      SortSorts(xs[1..], le);
      InsertKeepsOrder(xs[0], Sort(xs[1..], le), le);
    }
  }

  ghost predicate Level<T>(x: T, y: T, le: (T, T) -> bool) { le(x, y) && le(y, x) }

  /** The elements level with one, in the order of the list. */
  ghost function LevelWith<T>(xs: seq<T>, y: T, le: (T, T) -> bool): seq<T> {
    if xs == [] then [] else (if Level(xs[0], y, le) then [xs[0]] else []) + LevelWith(xs[1..], y, le)
  }

  lemma {:induction false} InsertIsStable<T(!new)>(x: T, xs: seq<T>, y: T, le: (T, T) -> bool)
    requires Transitive(le)
    ensures LevelWith(Insert(x, xs, le), y, le) == (if Level(x, y, le) then [x] else []) + LevelWith(xs, y, le)
  {
    if xs == [] || le(x, xs[0]) {
      assert ([x] + xs)[1..] == xs;
    } else {
      var rest := Insert(x, xs[1..], le);
      InsertIsStable(x, xs[1..], y, le);
      assert ([xs[0]] + rest)[1..] == rest;
      assert !(Level(x, y, le) && Level(xs[0], y, le));
    }
  }

  /** Elements level with one another stay in the order in which they came. */
  lemma {:induction false} SortIsStable<T(!new)>(xs: seq<T>, y: T, le: (T, T) -> bool)
    requires Transitive(le)
    ensures LevelWith(Sort(xs, le), y, le) == LevelWith(xs, y, le)
  {
    if xs != [] {
      SortIsStable(xs[1..], y, le);
      InsertIsStable(xs[0], Sort(xs[1..], le), y, le);
    }
  }

  lemma HeadIsLeast<T>(xs: seq<T>, x: T, le: (T, T) -> bool)
    requires Sorted(xs, le) && x in xs && le(xs[0], xs[0])
    ensures le(xs[0], x)
  {
    var i :| 0 <= i < |xs| && xs[i] == x;
  }

  lemma TailElements<T>(xs: seq<T>)
    requires xs != []
    ensures multiset(xs[1..]) == multiset(xs) - multiset{xs[0]}
  {
    assert xs == [xs[0]] + xs[1..];
  }

  /** The sorted arrangement of a collection is unique once the order tells its elements apart. */
  lemma {:induction false} SortedIsUnique<T(!new)>(xs: seq<T>, ys: seq<T>, le: (T, T) -> bool)
    requires Total(le) && Sorted(xs, le) && Sorted(ys, le)
    requires multiset(xs) == multiset(ys) && Distinguishes(le, xs)
    ensures xs == ys
  {
    assert |xs| == |multiset(xs)| == |multiset(ys)| == |ys|;
    if xs != [] {
      SameElements(xs, ys);
      assert xs[0] in ys && ys[0] in xs;
      assert xs[0] == ys[0] by {
        HeadIsLeast(xs, ys[0], le);
        HeadIsLeast(ys, xs[0], le);
      }
      TailElements(xs);
      TailElements(ys);
      SortedIsUnique(xs[1..], ys[1..], le);
      assert xs == [xs[0]] + xs[1..] && ys == [ys[0]] + ys[1..];
    }
  }

  /** Sorting forgets the order of arrival. */
  lemma SortIgnoresArrival<T(!new)>(xs: seq<T>, ys: seq<T>, le: (T, T) -> bool)
    requires Ordering(le) && multiset(xs) == multiset(ys) && Distinguishes(le, xs)
    ensures Sort(xs, le) == Sort(ys, le)
  {
    SortSorts(xs, le);
    SortSorts(ys, le);
    SortPermutes(xs, le);
    SortPermutes(ys, le);
    SortedIsUnique(Sort(xs, le), Sort(ys, le), le);
  }

  ghost function Enumerate(s: set<int>): (xs: seq<int>)
    ensures multiset(xs) == multiset(s)
  {
    if exists x :: x in s then var x :| x in s; [x] + Enumerate(s - {x}) else assert s == {}; []
  }

  /** A list without repetitions is its set, listed. */
  lemma {:induction false} DistinctIsSet(xs: seq<int>, s: set<int>)
    requires forall i, j :: 0 <= i < j < |xs| ==> xs[i] != xs[j]
    requires forall x :: x in xs <==> x in s
    ensures multiset(xs) == multiset(s) && |xs| == |s|
  {
    if xs == [] {
      assert forall x :: x in s <==> x in {};
    } else {
      assert xs == [xs[0]] + xs[1..];
      DistinctIsSet(xs[1..], s - {xs[0]});
      assert s == s - {xs[0]} + {xs[0]};
    }
  }

  /** Code-point order on strings, as Python compares them. */
  predicate StringLe(a: string, b: string) {
    if a == [] then true
    else if b == [] then false
    else a[0] < b[0] || (a[0] == b[0] && StringLe(a[1..], b[1..]))
  }

  /** The strings differ from the k-th character on, and there the first is the lesser. */
  ghost predicate LesserFrom(a: string, b: string, k: nat) {
    k < |a| && k < |b| && a[..k] == b[..k] && a[k] < b[k]
  }

  /** One string is no greater than another if it is the beginning of it, or lesser where they first differ. */
  lemma {:induction false} StringLeIff(a: string, b: string)
    ensures StringLe(a, b) <==> a <= b || exists k: nat :: LesserFrom(a, b, k)
  {
    if a != [] && b != [] {
      StringLeIff(a[1..], b[1..]);
      if a[0] == b[0] {
        assert a <= b <==> a[1..] <= b[1..] by {
          assert a == [a[0]] + a[1..] && b == [b[0]] + b[1..];
        }
        if k: nat :| LesserFrom(a[1..], b[1..], k) {
          assert a[..k + 1] == [a[0]] + a[1..][..k] && b[..k + 1] == [b[0]] + b[1..][..k];
          assert LesserFrom(a, b, k + 1);
        }
        if k: nat :| LesserFrom(a, b, k) {
          assert a[1..][..k - 1] == a[..k][1..] && b[1..][..k - 1] == b[..k][1..];
          assert LesserFrom(a[1..], b[1..], k - 1);
        }
      } else {
        if a[0] < b[0] {
          assert LesserFrom(a, b, 0);
        }
        assert forall k: nat :: LesserFrom(a, b, k) && k > 0 ==> a[..k][0] == b[..k][0];
      }
    }
  }

  lemma {:induction false} StringLeTotal(a: string, b: string)
    ensures StringLe(a, b) || StringLe(b, a)
  {
    if a != [] && b != [] && a[0] == b[0] {
      StringLeTotal(a[1..], b[1..]);
    }
  }

  lemma {:induction false} StringLeTransitive(a: string, b: string, c: string)
    requires StringLe(a, b) && StringLe(b, c)
    ensures StringLe(a, c)
  {
    if a != [] && a[0] == b[0] == c[0] {
      StringLeTransitive(a[1..], b[1..], c[1..]);
    }
  }

  lemma {:induction false} StringLeAntisymmetric(a: string, b: string)
    requires StringLe(a, b) && StringLe(b, a)
    ensures a == b
  {
    if a != [] {
      StringLeAntisymmetric(a[1..], b[1..]);
      assert a == [a[0]] + a[1..] && b == [b[0]] + b[1..];
    }
  }
}
