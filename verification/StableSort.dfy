/** What a stable sort by time does, and that nothing else does it. */
module StableSort {
  import opened Basics

  /** Each element goes after everything that is not later. */
  function Insert<T>(s: seq<T>, x: T, time: T -> int): (r: seq<T>)
    ensures |r| == |s| + 1
  {
    if s == [] || time(s[|s| - 1]) <= time(x) then s + [x]
    else Insert(s[..|s| - 1], x, time) + [s[|s| - 1]]
  }

  function Sort<T>(s: seq<T>, time: T -> int): (r: seq<T>)
    ensures |r| == |s|
  {
    if s == [] then [] else Insert(Sort(s[..|s| - 1], time), s[|s| - 1], time)
  }

  ghost predicate Ordered<T>(s: seq<T>, time: T -> int) {
    forall i, j :: 0 <= i < j < |s| ==> time(s[i]) <= time(s[j])
  }

  lemma {:induction false} InsertAdds<T>(s: seq<T>, x: T, time: T -> int)
    ensures multiset(Insert(s, x, time)) == multiset(s) + multiset{x}
  {
    if s != [] && time(s[|s| - 1]) > time(x) {
      InsertAdds(s[..|s| - 1], x, time);
      assert s == s[..|s| - 1] + [s[|s| - 1]];
    }
  }

  lemma {:induction false} InsertKeepsOrder<T>(s: seq<T>, x: T, time: T -> int)
    requires Ordered(s, time)
    ensures Ordered(Insert(s, x, time), time)
    ensures forall i :: 0 <= i < |s| + 1 ==>
      time(Insert(s, x, time)[i]) <= Max(time(x), if s == [] then time(x) else time(s[|s| - 1]))
  {
    if s != [] && time(s[|s| - 1]) > time(x) {
      InsertKeepsOrder(s[..|s| - 1], x, time);
    }
  }

  /** Sorting loses no element, invents none, and puts them in order of time. */
  lemma {:induction false} SortOrders<T>(s: seq<T>, time: T -> int)
    ensures Ordered(Sort(s, time), time) && multiset(Sort(s, time)) == multiset(s)
  {
    if s != [] {
      SortOrders(s[..|s| - 1], time);
      InsertKeepsOrder(Sort(s[..|s| - 1], time), s[|s| - 1], time);
      InsertAdds(Sort(s[..|s| - 1], time), s[|s| - 1], time);
      assert s == s[..|s| - 1] + [s[|s| - 1]];
    }
  }

  // ---- selecting

  /** The elements wanted, in their order. */
  function Keep<T>(s: seq<T>, want: T -> bool): seq<T> {
    if s == [] then []
    else if want(s[|s| - 1]) then Keep(s[..|s| - 1], want) + [s[|s| - 1]]
    else Keep(s[..|s| - 1], want)
  }

  lemma KeepAppends<T>(s: seq<T>, x: T, want: T -> bool)
    ensures Keep(s + [x], want) == if want(x) then Keep(s, want) + [x] else Keep(s, want)
  {
    assert (s + [x])[..|s|] == s;
  }

  lemma {:induction false} KeepIsWithin<T>(s: seq<T>, want: T -> bool)
    ensures forall x :: x in Keep(s, want) ==> x in s
  {
    if s != [] {
      KeepIsWithin(s[..|s| - 1], want);
    }
  }

  /** Selecting keeps every element that is wanted as often as it is there, and no other. */
  lemma {:induction false} KeepIsExact<T>(s: seq<T>, want: T -> bool, x: T)
    ensures multiset(Keep(s, want))[x] == if want(x) then multiset(s)[x] else 0
  {
    if s != [] {
      KeepIsExact(s[..|s| - 1], want, x);
      assert s == s[..|s| - 1] + [s[|s| - 1]];
    }
  }

  lemma {:induction false} InsertKeeps<T>(s: seq<T>, x: T, time: T -> int, want: T -> bool)
    requires Ordered(s, time)
    ensures Keep(Insert(s, x, time), want) == if want(x) then Insert(Keep(s, want), x, time) else Keep(s, want)
  {
    if s == [] || time(s[|s| - 1]) <= time(x) {
      KeepAppends(s, x, want);
      KeepIsWithin(s, want);
      var kept := Keep(s, want);
      assert kept != [] ==> kept[|kept| - 1] in kept;
    } else {
      var last, rest := s[|s| - 1], s[..|s| - 1];
      InsertKeeps(rest, x, time, want);
      KeepAppends(Insert(rest, x, time), last, want);
      if want(last) {
        assert Keep(s, want)[..|Keep(rest, want)|] == Keep(rest, want);
      }
    }
  }

  /** A stable sort commutes with selecting. */
  lemma {:induction false} SortCommutesWithKeep<T>(s: seq<T>, time: T -> int, want: T -> bool)
    ensures Keep(Sort(s, time), want) == Sort(Keep(s, want), time)
  {
    if s != [] {
      var last, rest := s[|s| - 1], s[..|s| - 1];
      SortCommutesWithKeep(rest, time, want);
      SortOrders(rest, time);
      InsertKeeps(Sort(rest, time), last, time, want);
      if want(last) {
        assert Keep(s, want)[..|Keep(rest, want)|] == Keep(rest, want);
      }
    }
  }

  // ---- stability, and that nothing else is left to choose

  /** The elements of one instant, in their order. */
  function At<T>(s: seq<T>, time: T -> int, t: int): seq<T> {
    if s == [] then []
    else if time(s[|s| - 1]) == t then At(s[..|s| - 1], time, t) + [s[|s| - 1]]
    else At(s[..|s| - 1], time, t)
  }

  lemma AtAppends<T>(s: seq<T>, x: T, time: T -> int, t: int)
    ensures At(s + [x], time, t) == if time(x) == t then At(s, time, t) + [x] else At(s, time, t)
  {
    assert (s + [x])[..|s|] == s;
  }

  lemma {:induction false} InsertAt<T>(s: seq<T>, x: T, time: T -> int, t: int)
    ensures At(Insert(s, x, time), time, t) == if time(x) == t then At(s, time, t) + [x] else At(s, time, t)
  {
    if s == [] || time(s[|s| - 1]) <= time(x) {
      AtAppends(s, x, time, t);
    } else {
      var last, rest := s[|s| - 1], s[..|s| - 1];
      InsertAt(rest, x, time, t);
      AtAppends(Insert(rest, x, time), last, time, t);
    }
  }

  /** Elements of the same instant keep the order they came in. */
  lemma {:induction false} SortIsStable<T>(s: seq<T>, time: T -> int, t: int)
    ensures At(Sort(s, time), time, t) == At(s, time, t)
  {
    if s != [] {
      SortIsStable(s[..|s| - 1], time, t);
      InsertAt(Sort(s[..|s| - 1], time), s[|s| - 1], time, t);
    }
  }

  lemma {:induction false} AtLater<T>(s: seq<T>, time: T -> int, t: int)
    requires forall i :: 0 <= i < |s| ==> time(s[i]) < t
    ensures At(s, time, t) == []
  {
    if s != [] {
      AtLater(s[..|s| - 1], time, t);
    }
  }

  ghost predicate SameInstants<T>(s: seq<T>, r: seq<T>, time: T -> int) {
    forall t :: At(s, time, t) == At(r, time, t)
  }

  // The one list cannot end later than the other.
  lemma EndsNoLater<T>(s: seq<T>, r: seq<T>, time: T -> int)
    requires Ordered(s, time) && SameInstants(s, r, time) && r != []
    ensures s != [] && time(r[|r| - 1]) <= time(s[|s| - 1])
  {
    var end := time(r[|r| - 1]);
    assert At(s, time, end) == At(r, time, end);
    if forall i :: 0 <= i < |s| ==> time(s[i]) < end {
      AtLater(s, time, end);
    }
  }

  // Both end with the same element, and what comes before agrees as well.
  lemma SameEnd<T>(s: seq<T>, r: seq<T>, time: T -> int)
    requires SameInstants(s, r, time) && s != [] && r != [] && time(s[|s| - 1]) == time(r[|r| - 1])
    ensures s[|s| - 1] == r[|r| - 1] && SameInstants(s[..|s| - 1], r[..|r| - 1], time)
  {
    var u, v, end := s[..|s| - 1], r[..|r| - 1], time(s[|s| - 1]);
    var a, b := At(s, time, end), At(r, time, end);
    assert a == b && a == At(u, time, end) + [s[|s| - 1]] && b == At(v, time, end) + [r[|r| - 1]];
    assert a[|a| - 1] == s[|s| - 1] && b[|b| - 1] == r[|r| - 1];
    forall t ensures At(u, time, t) == At(v, time, t) {
      assert At(s, time, t) == At(r, time, t);
      if t == end {
        assert At(s, time, t)[..|At(u, time, t)|] == At(u, time, t);
        assert At(r, time, t)[..|At(v, time, t)|] == At(v, time, t);
      }
    }
  }

  /** Two ordered lists with the same elements, in the same order, at every instant are the same list. */
  lemma {:induction false} StableOrderIsUnique<T>(s: seq<T>, r: seq<T>, time: T -> int)
    requires Ordered(s, time) && Ordered(r, time) && SameInstants(s, r, time)
    ensures s == r
  {
    if s == [] && r == [] {
      return;
    }
    if r != [] {
      EndsNoLater(s, r, time);
    }
    if s != [] {
      EndsNoLater(r, s, time);
    }
    SameEnd(s, r, time);
    StableOrderIsUnique(s[..|s| - 1], r[..|r| - 1], time);
    assert s == s[..|s| - 1] + [s[|s| - 1]] && r == r[..|r| - 1] + [r[|r| - 1]];
  }

  /** Any ordered list that keeps the order within each instant is the sorted one: the result of a stable sort
      is determined, whatever algorithm computes it. */
  lemma AnyStableSortAgrees<T>(s: seq<T>, r: seq<T>, time: T -> int)
    requires Ordered(r, time) && SameInstants(r, s, time)
    ensures r == Sort(s, time)
  {
    SortOrders(s, time);
    forall t ensures At(Sort(s, time), time, t) == At(r, time, t) {
      SortIsStable(s, time, t);
    }
    StableOrderIsUnique(Sort(s, time), r, time);
  }
}
