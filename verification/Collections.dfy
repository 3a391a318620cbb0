/** Filtering and stable sorting of sequences, as `filter` and `sort` do it. */
module Collections {
  function Filter<T(!new)>(keep: T -> bool, xs: seq<T>): (r: seq<T>)
    ensures forall x :: x in r <==> x in xs && keep(x)
  {
    if xs == [] then []
    else if keep(xs[0]) then [xs[0]] + Filter(keep, xs[1..])
    else Filter(keep, xs[1..])
  }

  lemma {:induction false} FilterConcat<T(!new)>(keep: T -> bool, a: seq<T>, b: seq<T>)
    ensures Filter(keep, a + b) == Filter(keep, a) + Filter(keep, b)
  {
    if a == [] {
      assert a + b == b;
    } else {
      assert (a + b)[1..] == a[1..] + b;
      FilterConcat(keep, a[1..], b);
    }
  }

  lemma {:induction false} FilterAll<T(!new)>(keep: T -> bool, xs: seq<T>)
    requires forall x | x in xs :: keep(x)
    ensures Filter(keep, xs) == xs
  {
    if xs != [] {
      FilterAll(keep, xs[1..]);
    }
  }

  lemma {:induction false} FilterNone<T(!new)>(keep: T -> bool, xs: seq<T>)
    requires forall x | x in xs :: !keep(x)
    ensures Filter(keep, xs) == []
  {
    if xs != [] {
      FilterNone(keep, xs[1..]);
    }
  }

  /** Filtering by the weaker test first changes nothing. */
  lemma {:induction false} FilterTwice<T(!new)>(keep: T -> bool, weaker: T -> bool, xs: seq<T>)
    requires forall x | x in xs && keep(x) :: weaker(x)
    ensures Filter(keep, Filter(weaker, xs)) == Filter(keep, xs)
  {
    if xs != [] {
      FilterTwice(keep, weaker, xs[1..]);
      if weaker(xs[0]) {
        assert ([xs[0]] + Filter(weaker, xs[1..]))[1..] == Filter(weaker, xs[1..]);
      }
    }
  }

  /** Two filters commute. */
  lemma {:induction false} FilterCommutes<T(!new)>(p: T -> bool, q: T -> bool, xs: seq<T>)
    ensures Filter(p, Filter(q, xs)) == Filter(q, Filter(p, xs))
  {
    if xs != [] {
      FilterCommutes(p, q, xs[1..]);
      var x, rest := xs[0], xs[1..];
      assert ([x] + Filter(q, rest))[1..] == Filter(q, rest);
      assert ([x] + Filter(p, rest))[1..] == Filter(p, rest);
    }
  }

  // ---------- Stable sorting by an integer key ----------

  predicate SortedBy<T(!new)>(key: T -> int, xs: seq<T>) {
    forall i, j :: 0 <= i < j < |xs| ==> key(xs[i]) <= key(xs[j])
  }

  function Insert<T(!new)>(key: T -> int, x: T, xs: seq<T>): (r: seq<T>)
    ensures |r| == |xs| + 1
    ensures forall y :: y in r <==> y == x || y in xs
  {
    if xs == [] || key(x) <= key(xs[0]) then [x] + xs
    else [xs[0]] + Insert(key, x, xs[1..])
  }

  function SortBy<T(!new)>(key: T -> int, xs: seq<T>): (r: seq<T>)
    ensures |r| == |xs|
    ensures forall y :: y in r <==> y in xs
  {
    if xs == [] then [] else Insert(key, xs[0], SortBy(key, xs[1..]))
  }

  lemma {:induction false} InsertSorts<T(!new)>(key: T -> int, x: T, xs: seq<T>)
    requires SortedBy(key, xs)
    ensures SortedBy(key, Insert(key, x, xs))
  {
    if xs != [] && key(x) > key(xs[0]) {
      assert SortedBy(key, xs[1..]);
      InsertSorts(key, x, xs[1..]);
      var rest := Insert(key, x, xs[1..]);
      forall i | 0 <= i < |rest|
        ensures key(xs[0]) <= key(rest[i])
      {
        assert rest[i] in rest;
        if rest[i] != x {
          var j :| 0 <= j < |xs[1..]| && xs[1..][j] == rest[i];
          assert rest[i] == xs[j + 1];
        }
      }
    }
  }

  lemma {:induction false} SortBySorts<T(!new)>(key: T -> int, xs: seq<T>)
    ensures SortedBy(key, SortBy(key, xs))
  {
    if xs != [] {
      SortBySorts(key, xs[1..]);
      InsertSorts(key, xs[0], SortBy(key, xs[1..]));
    }
  }

  lemma {:induction false} SortedIsFixed<T(!new)>(key: T -> int, xs: seq<T>)
    requires SortedBy(key, xs)
    ensures SortBy(key, xs) == xs
  {
    if xs != [] {
      assert SortedBy(key, xs[1..]);
      SortedIsFixed(key, xs[1..]);
      assert |xs| > 1 ==> xs[1..][0] == xs[1];
    }
  }

  /** Sorting part of the input first changes nothing. */
  lemma {:induction false} SortSortedTail<T(!new)>(key: T -> int, a: seq<T>, b: seq<T>)
    ensures SortBy(key, a + SortBy(key, b)) == SortBy(key, a + b)
  {
    if a == [] {
      SortBySorts(key, b);
      SortedIsFixed(key, SortBy(key, b));
      assert a + b == b && a + SortBy(key, b) == SortBy(key, b);
    } else {
      assert (a + b)[1..] == a[1..] + b;
      assert (a + SortBy(key, b))[1..] == a[1..] + SortBy(key, b);
      SortSortedTail(key, a[1..], b);
    }
  }
}
