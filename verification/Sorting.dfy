/** Go's sort.Slice, and finite sets listed in sorted order.
    The library's algorithm is not modelled: what callers learn about `Sort` is that the result
    is a permutation on which no later element is less than an earlier one. `OrderedIsUnique`
    shows that this fixes the result whenever the elements are distinct and the comparison is a
    strict total order on them, so the algorithm (and its instability) cannot matter. */
module Sorting {
  ghost predicate Distinct<T>(xs: seq<T>) {
    forall i, j :: 0 <= i < j < |xs| ==> xs[i] != xs[j]
  }

  function ToSet<T>(xs: seq<T>): set<T> {
    set x | x in xs
  }

  /** What sort.Slice leaves behind. */
  ghost predicate Ordered<T>(xs: seq<T>, less: (T, T) -> bool) {
    forall i, j :: 0 <= i < j < |xs| ==> !less(xs[j], xs[i])
  }

  /** Total, antisymmetric and transitive between distinct members of `s`; nothing is asked of
      less(x, x), which ServerLessThan answers with true for a leader. */
  ghost predicate StrictTotalOn<T(!new)>(s: set<T>, less: (T, T) -> bool) {
    && (forall x, y :: x in s && y in s && x != y ==> less(x, y) != less(y, x))
    && (forall x, y, z :: (x in s && y in s && z in s && x != y && y != z && x != z
                           && less(x, y) && less(y, z)) ==> less(x, z))
  }

  function Insert<T>(x: T, xs: seq<T>, less: (T, T) -> bool): seq<T> {
    if xs == [] then [x]
    else if less(x, xs[0]) then [x] + xs
    else [xs[0]] + Insert(x, xs[1..], less)
  }

  function Sort<T>(xs: seq<T>, less: (T, T) -> bool): seq<T> {
    if xs == [] then [] else Insert(xs[0], Sort(xs[1..], less), less)
  }

  lemma {:induction false} InsertPermutes<T>(x: T, xs: seq<T>, less: (T, T) -> bool)
    ensures multiset(Insert(x, xs, less)) == multiset{x} + multiset(xs)
  {
    if xs != [] {
      assert xs == [xs[0]] + xs[1..];
      InsertPermutes(x, xs[1..], less);
    }
  }

  lemma {:induction false} SortPermutes<T>(xs: seq<T>, less: (T, T) -> bool)
    ensures multiset(Sort(xs, less)) == multiset(xs)
  {
    if xs != [] {
      SortPermutes(xs[1..], less);
      InsertPermutes(xs[0], Sort(xs[1..], less), less);
      assert xs == [xs[0]] + xs[1..];
    }
  }

  lemma PermutationFacts<T>(xs: seq<T>, ys: seq<T>)
    requires multiset(xs) == multiset(ys)
    ensures |xs| == |ys|
    ensures ToSet(xs) == ToSet(ys)
    ensures Distinct(xs) ==> Distinct(ys)
  {
    assert |multiset(xs)| == |multiset(ys)|;
    forall x ensures x in xs <==> x in ys {
      assert x in xs <==> x in multiset(xs);
      assert x in ys <==> x in multiset(ys);
    }
    if Distinct(xs) {
      forall i, j | 0 <= i < j < |ys| ensures ys[i] != ys[j] {
        DistinctMultiplicity(xs, ys[i]);
        if ys[i] == ys[j] {
          RepeatedMultiplicity(ys, i, j);
        }
      }
    }
  }

  lemma {:induction false} DistinctMultiplicity<T>(xs: seq<T>, x: T)
    requires Distinct(xs)
    ensures multiset(xs)[x] <= 1
  {
    if xs != [] {
      DistinctMultiplicity(xs[1..], x);
      assert xs == [xs[0]] + xs[1..];
      assert x in xs[1..] <==> x in multiset(xs[1..]);
    }
  }

  lemma RepeatedMultiplicity<T>(xs: seq<T>, i: nat, j: nat)
    requires i < j < |xs| && xs[i] == xs[j]
    ensures multiset(xs)[xs[i]] >= 2
  {
    assert xs == xs[..i] + [xs[i]] + xs[i + 1..j] + [xs[j]] + xs[j + 1..];
  }

  lemma {:induction false} InsertOrdered<T(!new)>(x: T, xs: seq<T>, less: (T, T) -> bool)
    requires x !in xs && Distinct(xs) && Ordered(xs, less)
    requires StrictTotalOn(ToSet(xs) + {x}, less)
    ensures Ordered(Insert(x, xs, less), less)
  {
    if xs == [] {
    } else if less(x, xs[0]) {
      InsertFirst(x, xs, less);
    } else {
      var t := Insert(x, xs[1..], less);
      InsertOrdered(x, xs[1..], less);
      InsertPermutes(x, xs[1..], less);
      forall y | y in t ensures y == x || y in xs[1..] {
        assert y in multiset(t);
      }
      FirstStays(xs[0], t, less);
    }
  }

  lemma InsertFirst<T(!new)>(x: T, xs: seq<T>, less: (T, T) -> bool)
    requires xs != [] && x !in xs && Distinct(xs) && Ordered(xs, less) && less(x, xs[0])
    requires StrictTotalOn(ToSet(xs) + {x}, less)
    ensures Ordered([x] + xs, less)
  {
    forall i | 0 <= i < |xs| ensures !less(xs[i], x) {
      if i > 0 {
        assert xs[0] != xs[i] && !less(xs[i], xs[0]);
        assert less(xs[0], xs[i]);
      }
    }
  }

  lemma FirstStays<T>(first: T, rest: seq<T>, less: (T, T) -> bool)
    requires Ordered(rest, less) && forall y :: y in rest ==> !less(y, first)
    ensures Ordered([first] + rest, less)
  {
  }

  lemma {:induction false} SortOrdered<T(!new)>(xs: seq<T>, less: (T, T) -> bool)
    requires Distinct(xs) && StrictTotalOn(ToSet(xs), less)
    ensures Ordered(Sort(xs, less), less)
  {
    if xs != [] {
      SortOrdered(xs[1..], less);
      SortPermutes(xs[1..], less);
      PermutationFacts(xs[1..], Sort(xs[1..], less));
      assert xs[0] !in ToSet(Sort(xs[1..], less));
      assert ToSet(xs) == ToSet(Sort(xs[1..], less)) + {xs[0]};
      InsertOrdered(xs[0], Sort(xs[1..], less), less);
    }
  }

  lemma HeadsAgree<T(!new)>(xs: seq<T>, ys: seq<T>, less: (T, T) -> bool)
    requires xs != [] && ys != [] && ToSet(xs) == ToSet(ys)
    requires Ordered(xs, less) && Ordered(ys, less)
    requires StrictTotalOn(ToSet(xs), less)
    ensures xs[0] == ys[0]
  {
    assert xs[0] in ToSet(ys) && ys[0] in ToSet(xs);
    var i :| 0 <= i < |ys| && ys[i] == xs[0];
    var j :| 0 <= j < |xs| && xs[j] == ys[0];
    assert i == 0 || !less(ys[i], ys[0]);
    assert j == 0 || !less(xs[j], xs[0]);
  }

  /** Two orderly listings of the same distinct elements are the same listing. */
  lemma {:induction false} OrderedIsUnique<T(!new)>(xs: seq<T>, ys: seq<T>, less: (T, T) -> bool)
    requires Distinct(xs) && Distinct(ys) && ToSet(xs) == ToSet(ys)
    requires Ordered(xs, less) && Ordered(ys, less)
    requires StrictTotalOn(ToSet(xs), less)
    ensures xs == ys
  {
    if xs == [] {
      DistinctLength(ys);
    } else {
      assert xs[0] in ToSet(ys);
      HeadsAgree(xs, ys, less);
      forall x ensures x in ToSet(xs[1..]) <==> x in ToSet(ys[1..]) {
        assert x in xs[1..] <==> x in ToSet(xs) && x != xs[0];
        assert x in ys[1..] <==> x in ToSet(ys) && x != ys[0];
      }
      OrderedIsUnique(xs[1..], ys[1..], less);
      assert xs == [xs[0]] + xs[1..] && ys == [ys[0]] + ys[1..];
    }
  }

  /** sort.Slice as its callers see it. */
  method SortSlice<T(!new)>(xs: seq<T>, less: (T, T) -> bool) returns (sorted: seq<T>)
    ensures multiset(sorted) == multiset(xs)
    ensures |sorted| == |xs| && ToSet(sorted) == ToSet(xs)
    ensures Distinct(xs) ==> Distinct(sorted)
    ensures Distinct(xs) && StrictTotalOn(ToSet(xs), less) ==> Ordered(sorted, less)
  {
    sorted := Sort(xs, less);
    SortPermutes(xs, less);
    PermutationFacts(xs, sorted);
    if Distinct(xs) && StrictTotalOn(ToSet(xs), less) {
      SortOrdered(xs, less);
    }
  }

  lemma {:induction false} DistinctLength<T>(xs: seq<T>)
    requires Distinct(xs)
    ensures |ToSet(xs)| == |xs|
  {
    if xs != [] {
      DistinctLength(xs[1..]);
      assert ToSet(xs) == ToSet(xs[1..]) + {xs[0]};
    }
  }
}

/** Finite sets of identifiers listed in sorted order. */
module IdLists {
  import opened Ids
  import opened Sorting

  ghost predicate Lists(xs: seq<Id>, s: set<Id>) {
    Distinct(xs) && ToSet(xs) == s && Ordered(xs, Less)
  }

  lemma LessIsTotal(s: set<Id>)
    ensures StrictTotalOn(s, Less)
  {
    forall x, y | x in s && y in s && x != y ensures Less(x, y) != Less(y, x) {
      LessTotal(x, y);
    }
    forall x, y, z | x in s && y in s && z in s && Less(x, y) && Less(y, z) ensures Less(x, z) {
      LessTransitive(x, y, z);
    }
  }

  /** The one sorted listing of a finite set. */
  ghost function Listing(s: set<Id>): (xs: seq<Id>)
    ensures Lists(xs, s)
  {
    if s == {} then []
    else
      var x :| x in s;
      var rest := Listing(s - {x});
      InsertLists(x, rest, s - {x});
      assert s == (s - {x}) + {x};
      Insert(x, rest, Less)
  }

  lemma {:induction false} InsertLists(x: Id, xs: seq<Id>, s: set<Id>)
    requires Lists(xs, s) && x !in s
    ensures Lists(Insert(x, xs, Less), s + {x})
  {
    LessIsTotal(s + {x});
    InsertPermutes(x, xs, Less);
    assert x !in xs;
    InsertOrdered(x, xs, Less);
    assert multiset([x] + xs) == multiset(Insert(x, xs, Less));
    PermutationFacts([x] + xs, Insert(x, xs, Less));
    assert ToSet([x] + xs) == s + {x};
  }

  lemma ListingIsUnique(xs: seq<Id>, s: set<Id>)
    requires Lists(xs, s)
    ensures xs == Listing(s)
  {
    LessIsTotal(s);
    OrderedIsUnique(xs, Listing(s), Less);
  }
}
