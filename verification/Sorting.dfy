/**
  Stable sorting as Python's `sorted` does it, over any total preorder, and the
  order of strings by code point.  The one fact the other components use is
  `SortedUnique`: a sorted arrangement is determined by its elements.
 */
module Sorting {

  ghost predicate Preorder<T(!new)>(le: (T, T) -> bool) {
    && (forall x, y :: le(x, y) || le(y, x))
    && (forall x, y, z :: le(x, y) && le(y, z) ==> le(x, z))
  }

  ghost predicate TotalOrder<T(!new)>(le: (T, T) -> bool) {
    && Preorder(le)
    && (forall x, y :: le(x, y) && le(y, x) ==> x == y)
  }

  ghost predicate SortedBy<T>(le: (T, T) -> bool, xs: seq<T>) {
    forall i, j :: 0 <= i < j < |xs| ==> le(xs[i], xs[j])
  }

  function Insert<T>(le: (T, T) -> bool, x: T, xs: seq<T>): seq<T> {
    if xs == [] || le(x, xs[0]) then [x] + xs else [xs[0]] + Insert(le, x, xs[1..])
  }

  /** Stable: an element is placed before the later elements it ties with. */
  function Sort<T>(le: (T, T) -> bool, xs: seq<T>): seq<T> {
    if xs == [] then [] else Insert(le, xs[0], Sort(le, xs[1..]))
  }

  lemma {:induction false} InsertAdds<T(!new)>(le: (T, T) -> bool, x: T, xs: seq<T>)
    ensures multiset(Insert(le, x, xs)) == multiset(xs) + multiset{x}
  {
    if xs != [] && !le(x, xs[0]) {
      InsertAdds(le, x, xs[1..]);
      assert xs == [xs[0]] + xs[1..];
    }
  }

  lemma SortedCons<T(!new)>(le: (T, T) -> bool, x: T, xs: seq<T>)
    requires SortedBy(le, xs) && forall y :: y in multiset(xs) ==> le(x, y)
    ensures SortedBy(le, [x] + xs)
  {
    forall j | 0 <= j < |xs| ensures le(x, xs[j]) {
      assert xs[j] in multiset(xs);
    }
  }

  lemma {:induction false} InsertSorted<T(!new)>(le: (T, T) -> bool, x: T, xs: seq<T>)
    requires Preorder(le) && SortedBy(le, xs)
    ensures SortedBy(le, Insert(le, x, xs))
    ensures multiset(Insert(le, x, xs)) == multiset(xs) + multiset{x}
  {
    InsertAdds(le, x, xs);
    if xs == [] {
    } else if le(x, xs[0]) {
      HeadFirst(le, xs);
      SortedCons(le, x, xs);
    } else {
      InsertSorted(le, x, xs[1..]);
      HeadFirst(le, xs);
      TailMultiset(xs);
      SortedCons(le, xs[0], Insert(le, x, xs[1..]));
    }
  }

  lemma HeadFirst<T(!new)>(le: (T, T) -> bool, xs: seq<T>)
    requires Preorder(le) && SortedBy(le, xs) && xs != []
    ensures forall y :: y in multiset(xs) ==> le(xs[0], y)
    ensures SortedBy(le, xs[1..])
  {
    forall y | y in multiset(xs) ensures le(xs[0], y) {
      var i :| 0 <= i < |xs| && xs[i] == y;
    }
  }

  lemma {:induction false} SortSorted<T(!new)>(le: (T, T) -> bool, xs: seq<T>)
    requires Preorder(le)
    ensures SortedBy(le, Sort(le, xs))
    ensures multiset(Sort(le, xs)) == multiset(xs)
  {
    if xs != [] {
      SortSorted(le, xs[1..]);
      InsertSorted(le, xs[0], Sort(le, xs[1..]));
      assert xs == [xs[0]] + xs[1..];
    }
  }

  /** The elements that rank with x, in their order. */
  ghost function Ties<T>(le: (T, T) -> bool, x: T, xs: seq<T>): seq<T> {
    if xs == [] then [] else (if le(x, xs[0]) && le(xs[0], x) then [xs[0]] else []) + Ties(le, x, xs[1..])
  }

  lemma TiesCons<T(!new)>(le: (T, T) -> bool, x: T, y: T, xs: seq<T>)
    ensures Ties(le, x, [y] + xs) == (if le(x, y) && le(y, x) then [y] else []) + Ties(le, x, xs)
  {
    assert ([y] + xs)[1..] == xs;
  }

  lemma {:induction false} InsertTies<T(!new)>(le: (T, T) -> bool, x: T, y: T, xs: seq<T>)
    requires Preorder(le)
    ensures Ties(le, x, Insert(le, y, xs)) == (if le(x, y) && le(y, x) then [y] else []) + Ties(le, x, xs)
    decreases |xs|
  {
    hide Preorder, Ties;
    if xs == [] || le(y, xs[0]) {
      TiesCons(le, x, y, xs);
    } else {
      InsertTies(le, x, y, xs[1..]);
      TiesCons(le, x, xs[0], Insert(le, y, xs[1..]));
      TiesCons(le, x, xs[0], xs[1..]);
      assert xs == [xs[0]] + xs[1..];
      if le(y, x) {
        TiesNot(le, x, y, xs[0]);
      }
    }
  }

  lemma TiesNot<T(!new)>(le: (T, T) -> bool, x: T, y: T, z: T)
    requires Preorder(le) && !le(y, z) && le(y, x)
    ensures !le(x, z)
  {
  }

  /** Sorting is stable: elements that rank alike keep their order. */
  lemma {:induction false} SortStable<T(!new)>(le: (T, T) -> bool, x: T, xs: seq<T>)
    requires Preorder(le)
    ensures Ties(le, x, Sort(le, xs)) == Ties(le, x, xs)
  {
    if xs != [] {
      SortStable(le, x, xs[1..]);
      InsertTies(le, x, xs[0], Sort(le, xs[1..]));
    }
  }

  ghost predicate NoTies<T(!new)>(le: (T, T) -> bool, xs: seq<T>) {
    forall x, y :: x in xs && y in xs && le(x, y) && le(y, x) ==> x == y
  }

  /** Two sorted arrangements of the same elements are the same sequence, when no two different elements tie. */
  lemma {:induction false} SortedUnique<T(!new)>(le: (T, T) -> bool, xs: seq<T>, ys: seq<T>)
    requires SortedBy(le, xs) && SortedBy(le, ys) && NoTies(le, xs)
    requires multiset(xs) == multiset(ys)
    ensures xs == ys
  {
    assert |multiset(xs)| == |xs| && |multiset(ys)| == |ys|;
    if xs != [] {
      SortedHead(le, xs, ys);
      SortedTail(le, xs);
      SortedTail(le, ys);
      assert NoTies(le, xs[1..]);
      hide SortedBy, NoTies;
      SortedUnique(le, xs[1..], ys[1..]);
      assert xs == [xs[0]] + xs[1..] && ys == [ys[0]] + ys[1..];
    }
  }

  lemma SortedTail<T>(le: (T, T) -> bool, xs: seq<T>)
    requires SortedBy(le, xs) && xs != []
    ensures SortedBy(le, xs[1..]) && multiset(xs[1..]) == multiset(xs) - multiset{xs[0]}
  {
    TailMultiset(xs);
  }

  lemma TailMultiset<T>(xs: seq<T>)
    requires xs != []
    ensures multiset(xs[1..]) == multiset(xs) - multiset{xs[0]}
  {
    assert xs == [xs[0]] + xs[1..];
  }

  lemma SortedHead<T(!new)>(le: (T, T) -> bool, xs: seq<T>, ys: seq<T>)
    requires SortedBy(le, xs) && SortedBy(le, ys) && NoTies(le, xs)
    requires multiset(xs) == multiset(ys) && xs != [] && ys != []
    ensures xs[0] == ys[0]
  {
    assert xs[0] in multiset(ys) && ys[0] in multiset(xs);
    var i :| 0 <= i < |ys| && ys[i] == xs[0];
    var j :| 0 <= j < |xs| && xs[j] == ys[0];
    assert i != 0 ==> le(ys[0], xs[0]);
    assert j != 0 ==> le(xs[0], ys[0]);
  }

  // ----- strings by code point

  predicate StringLe(a: string, b: string) {
    if a == "" then true
    else if b == "" then false
    else if a[0] != b[0] then a[0] < b[0]
    else StringLe(a[1..], b[1..])
  }

  lemma {:induction false} StringLeTotal(a: string, b: string)
    ensures StringLe(a, b) || StringLe(b, a)
    ensures StringLe(a, b) && StringLe(b, a) ==> a == b
  {
    if a != "" && b != "" {
      StringLeTotal(a[1..], b[1..]);
      assert a == [a[0]] + a[1..] && b == [b[0]] + b[1..];
    }
  }

  /** Code point by code point: one string is a prefix of the other, or the first difference decides. */
  lemma {:induction false} StringLeAt(a: string, b: string)
    ensures StringLe(a, b) <==>
              a <= b || exists i :: 0 <= i < |a| && i < |b| && a[..i] == b[..i] && a[i] < b[i]
  {
    if a != "" && b != "" && a[0] == b[0] {
      StringLeAt(a[1..], b[1..]);
      assert a <= b <==> a[1..] <= b[1..] by {
        assert a == [a[0]] + a[1..] && b == [b[0]] + b[1..];
      }
      forall i | 0 < i < |a| && i < |b| ensures a[..i] == b[..i] <==> a[1..][..i - 1] == b[1..][..i - 1] {
        assert a[..i] == [a[0]] + a[1..][..i - 1] && b[..i] == [b[0]] + b[1..][..i - 1];
      }
      if i :| 0 <= i < |a[1..]| && i < |b[1..]| && a[1..][..i] == b[1..][..i] && a[1..][i] < b[1..][i] {
        assert a[..i + 1] == b[..i + 1] && a[i + 1] < b[i + 1];
      }
      if i :| 0 <= i < |a| && i < |b| && a[..i] == b[..i] && a[i] < b[i] {
        assert a[1..][i - 1] < b[1..][i - 1];
      }
    } else if a != "" && b != "" {
      assert a[..0] == b[..0];
      forall i | 0 < i < |a| && i < |b| ensures a[..i] != b[..i] {
        assert a[..i][0] == a[0] && b[..i][0] == b[0];
      }
    }
  }

  lemma {:induction false} StringLeTransitive(a: string, b: string, c: string)
    requires StringLe(a, b) && StringLe(b, c)
    ensures StringLe(a, c)
  {
    if a != "" && a[0] == b[0] == c[0] {
      StringLeTransitive(a[1..], b[1..], c[1..]);
    }
  }

  lemma StringLeOrder()
    ensures TotalOrder(StringLe)
  {
    forall a, b ensures (StringLe(a, b) || StringLe(b, a)) && (StringLe(a, b) && StringLe(b, a) ==> a == b) {
      StringLeTotal(a, b);
    }
    forall a, b, c | StringLe(a, b) && StringLe(b, c) ensures StringLe(a, c) {
      StringLeTransitive(a, b, c);
    }
  }

  // ----- sorted(set)

  predicate Distinct<T(==)>(xs: seq<T>) {
    forall i, j :: 0 <= i < j < |xs| ==> xs[i] != xs[j]
  }

  function ToSet<T(==)>(xs: seq<T>): set<T> {
    set x | x in xs
  }

  ghost predicate SortedListing(xs: seq<string>, s: set<string>) {
    SortedBy(StringLe, xs) && Distinct(xs) && ToSet(xs) == s
  }

  lemma {:induction false} DistinctMultiset<T>(xs: seq<T>, x: T)
    requires Distinct(xs)
    ensures multiset(xs)[x] == if x in xs then 1 else 0
  {
    if xs != [] {
      DistinctMultiset(xs[1..], x);
      assert xs == [xs[0]] + xs[1..];
    }
  }

  lemma SortedListingUnique(xs: seq<string>, ys: seq<string>, s: set<string>)
    requires SortedListing(xs, s) && SortedListing(ys, s)
    ensures xs == ys
  {
    StringLeOrder();
    forall x ensures multiset(xs)[x] == multiset(ys)[x] {
      DistinctMultiset(xs, x);
      DistinctMultiset(ys, x);
      assert x in xs <==> x in s;
      assert x in ys <==> x in s;
    }
    SortedUnique(StringLe, xs, ys);
  }

  lemma DistinctCons<T(!new)>(x: T, xs: seq<T>)
    requires Distinct(xs) && x !in ToSet(xs)
    ensures Distinct([x] + xs) && ToSet([x] + xs) == {x} + ToSet(xs)
  {
  }

  /** The elements of a set in some order. */
  ghost function Listing<T(!new)>(s: set<T>): (xs: seq<T>)
    ensures Distinct(xs) && ToSet(xs) == s && |xs| == |s|
  {
    if s == {} then [] else
    var x :| x in s;
    var rest := Listing(s - {x});
    hide Distinct, ToSet;
    DistinctCons(x, rest);
    [x] + rest
  }

  lemma {:induction false} InsertKeepsDistinct<T(!new)>(le: (T, T) -> bool, x: T, xs: seq<T>)
    requires Distinct(xs) && x !in xs
    ensures Distinct(Insert(le, x, xs)) && ToSet(Insert(le, x, xs)) == ToSet(xs) + {x}
    ensures |Insert(le, x, xs)| == |xs| + 1
  {
    if xs != [] && !le(x, xs[0]) {
      InsertKeepsDistinct(le, x, xs[1..]);
      var tail := Insert(le, x, xs[1..]);
      assert xs[0] !in ToSet(tail) by {
        assert xs[0] !in ToSet(xs[1..]);
      }
      DistinctCons(xs[0], tail);
      assert ToSet(xs) == {xs[0]} + ToSet(xs[1..]);
    }
  }

  lemma {:induction false} SortKeepsDistinct<T(!new)>(le: (T, T) -> bool, xs: seq<T>)
    requires Distinct(xs)
    ensures Distinct(Sort(le, xs)) && ToSet(Sort(le, xs)) == ToSet(xs) && |Sort(le, xs)| == |xs|
  {
    if xs != [] {
      SortKeepsDistinct(le, xs[1..]);
      assert xs[0] !in ToSet(xs[1..]);
      InsertKeepsDistinct(le, xs[0], Sort(le, xs[1..]));
      assert ToSet(xs) == {xs[0]} + ToSet(xs[1..]);
    }
  }

  /** Python's `sorted` of a set of strings. */
  ghost function Sorted(s: set<string>): (xs: seq<string>)
    ensures SortedListing(xs, s) && |xs| == |s|
  {
    StringLeOrder();
    SortSorted(StringLe, Listing(s));
    SortKeepsDistinct(StringLe, Listing(s));
    Sort(StringLe, Listing(s))
  }

  lemma SortedToSet(s: set<string>)
    ensures ToSet(Sorted(s)) == s && Distinct(Sorted(s)) && (Sorted(s) == [] <==> s == {})
  {
  }

  /** The same list computed by inserting the elements in any order. */
  method SortedList(s: set<string>) returns (xs: seq<string>)
    ensures xs == Sorted(s)
  {
    StringLeOrder();
    xs := [];
    var todo := s;
    while todo != {}
      invariant todo <= s && SortedListing(xs, s - todo)
    {
      var x :| x in todo;
      assert x !in ToSet(xs);
      InsertSorted(StringLe, x, xs);
      InsertKeepsDistinct(StringLe, x, xs);
      todo := todo - {x};
      xs := Insert(StringLe, x, xs);
      assert ToSet(xs) == s - todo;
    }
    SortedListingUnique(xs, Sorted(s), s);
  }
}
