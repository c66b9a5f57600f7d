// Sorting by a strict order, and what does not depend on the order of the input.
module Ranking {
  function Insert<T>(x: T, s: seq<T>, before: (T, T) -> bool): seq<T> {
    if s == [] || before(x, s[0]) then [x] + s else [s[0]] + Insert(x, s[1..], before)
  }

  function SortBy<T>(s: seq<T>, before: (T, T) -> bool): seq<T> {
    if s == [] then [] else Insert(s[0], SortBy(s[1..], before), before)
  }

  ghost predicate Distinct<T>(s: seq<T>) { forall i, j :: 0 <= i < j < |s| ==> s[i] != s[j] }

  /** `before` orders the values of `zone` strictly and totally. */
  ghost predicate OrdersOn<T(!new)>(zone: iset<T>, before: (T, T) -> bool) {
    && (forall x, y :: x in zone && y in zone && x != y ==> before(x, y) || before(y, x))
    && (forall x, y :: x in zone && y in zone && before(x, y) ==> !before(y, x))
    && (forall x, y, z :: x in zone && y in zone && z in zone && before(x, y) && before(y, z) ==> before(x, z))
  }

  ghost predicate Within<T>(s: seq<T>, zone: iset<T>) { forall i :: 0 <= i < |s| ==> s[i] in zone }

  ghost predicate Ascending<T>(s: seq<T>, before: (T, T) -> bool) {
    forall i, j :: 0 <= i < j < |s| ==> before(s[i], s[j])
  }

  lemma {:induction false} InsertKeeps<T>(x: T, s: seq<T>, before: (T, T) -> bool)
    ensures multiset(Insert(x, s, before)) == multiset(s) + multiset{x}
  {
    if s != [] && !before(x, s[0]) {
      InsertKeeps(x, s[1..], before);
      assert s == [s[0]] + s[1..];
    }
  }

  /** Sorting rearranges. */
  lemma {:induction false} SortKeeps<T>(s: seq<T>, before: (T, T) -> bool)
    ensures multiset(SortBy(s, before)) == multiset(s)
  {
    if s != [] {
      SortKeeps(s[1..], before);
      InsertKeeps(s[0], SortBy(s[1..], before), before);
      assert s == [s[0]] + s[1..];
    }
  }

  lemma SameMembers<T>(s: seq<T>, t: seq<T>)
    requires multiset(s) == multiset(t)
    ensures |s| == |t| && forall y :: y in s <==> y in t
  {
    assert forall y :: y in s <==> y in multiset(s);
    assert forall y :: y in t <==> y in multiset(t);
    assert |s| == |multiset(s)| == |multiset(t)| == |t|;
  }

  lemma {:induction false} InsertAscends<T(!new)>(zone: iset<T>, x: T, s: seq<T>, before: (T, T) -> bool)
    requires OrdersOn(zone, before) && Within(s, zone) && x in zone
    requires Ascending(s, before) && x !in s
    ensures Ascending(Insert(x, s, before), before)
    ensures forall y :: y in Insert(x, s, before) <==> y == x || y in s
  {
    if s != [] {
      if before(x, s[0]) {
        assert forall j :: 0 < j < |s| ==> before(s[0], s[j]);
      } else {
        var tail := Insert(x, s[1..], before);
        InsertAscends(zone, x, s[1..], before);
        forall y | y in tail ensures before(s[0], y) {
          if y != x {
            assert y in s[1..];
            var k :| 0 <= k < |s[1..]| && s[1..][k] == y;
            assert before(s[0], s[k + 1]);
          }
        }
        forall j | 0 <= j < |tail| ensures before(s[0], tail[j]) {
          assert tail[j] in tail;
        }
      }
    }
  }

  /** Sorting distinct values by a strict order puts them in ascending order. */
  lemma {:induction false} SortAscends<T(!new)>(zone: iset<T>, s: seq<T>, before: (T, T) -> bool)
    requires OrdersOn(zone, before) && Within(s, zone) && Distinct(s)
    ensures Ascending(SortBy(s, before), before)
    ensures forall y :: y in SortBy(s, before) <==> y in s
  {
    if s != [] {
      SortAscends(zone, s[1..], before);
      assert s == [s[0]] + s[1..];
      var tail := SortBy(s[1..], before);
      forall i | 0 <= i < |tail| ensures tail[i] in zone {
        assert tail[i] in s[1..];
      }
      InsertAscends(zone, s[0], tail, before);
    }
  }

  lemma FirstIsLeast<T>(s: seq<T>, before: (T, T) -> bool, y: T)
    requires Ascending(s, before) && y in s && y != s[0]
    ensures before(s[0], y)
  {
    var i :| 0 <= i < |s| && s[i] == y;
  }

  lemma DropFirst<T>(s: seq<T>)
    requires s != []
    ensures multiset(s[1..]) == multiset(s) - multiset{s[0]}
  {
    assert s == [s[0]] + s[1..];
  }

  lemma SameFirst<T(!new)>(zone: iset<T>, s: seq<T>, t: seq<T>, before: (T, T) -> bool)
    requires OrdersOn(zone, before) && Within(s, zone)
    requires Ascending(s, before) && Ascending(t, before) && multiset(s) == multiset(t) && s != []
    ensures t != [] && s[0] == t[0]
  {
    SameMembers(s, t);
    assert s[0] in t && t[0] in s;
    assert s[0] in zone && t[0] in zone;
    if s[0] != t[0] {
      FirstIsLeast(s, before, t[0]);
      FirstIsLeast(t, before, s[0]);
      assert false;
    }
  }

  /** Two ascending lists of the same values are the same list. */
  lemma {:induction false} AscendingUnique<T(!new)>(zone: iset<T>, s: seq<T>, t: seq<T>, before: (T, T) -> bool)
    requires OrdersOn(zone, before) && Within(s, zone)
    requires Ascending(s, before) && Ascending(t, before) && multiset(s) == multiset(t)
    ensures s == t
    decreases |s|
  {
    if s == [] {
      SameMembers(s, t);
    } else {
      SameFirst(zone, s, t, before);
      DropFirst(s);
      DropFirst(t);
      AscendingUnique(zone, s[1..], t[1..], before);
      assert s == [s[0]] + s[1..] && t == [t[0]] + t[1..];
    }
  }

  /** Taking one occurrence out of a list. */
  lemma TakeOut<T>(t: seq<T>, i: nat)
    requires i < |t|
    ensures multiset(t[..i] + t[i + 1..]) == multiset(t) - multiset{t[i]}
  {
    assert t == t[..i] + [t[i]] + t[i + 1..];
  }

  lemma DropLast<T>(s: seq<T>)
    requires s != []
    ensures multiset(s[..|s| - 1]) == multiset(s) - multiset{s[|s| - 1]}
  {
    assert s == s[..|s| - 1] + [s[|s| - 1]];
  }

  lemma {:induction false} DistinctReordered<T>(s: seq<T>, t: seq<T>)
    requires multiset(s) == multiset(t) && Distinct(s)
    ensures Distinct(t)
    decreases |s|
  {
    SameMembers(s, t);
    if s != [] {
      var last := s[|s| - 1];
      assert last in t;
      var i: nat :| i < |t| && t[i] == last;
      var front, rest := s[..|s| - 1], t[..i] + t[i + 1..];
      TakeOut(t, i);
      DropLast(s);
      DistinctReordered(front, rest);
      SameMembers(front, rest);
      assert last !in rest;
      forall a, b | 0 <= a < b < |t| ensures t[a] != t[b] {
        if a != i {
          PositionAfterTakeOut(t, i, a);
        }
        if b != i {
          PositionAfterTakeOut(t, i, b);
        }
      }
    }
  }

  lemma PositionAfterTakeOut<T>(t: seq<T>, i: nat, a: nat)
    requires i < |t| && a < |t| && a != i
    ensures var rest := t[..i] + t[i + 1..];
            var p := if a < i then a else a - 1;
            rest[p] == t[a] && t[a] in rest
  {
    var rest := t[..i] + t[i + 1..];
    assert rest[if a < i then a else a - 1] == t[a];
  }

  /** The ranking of distinct values does not depend on the order they came in. */
  lemma SortReordered<T(!new)>(zone: iset<T>, s: seq<T>, t: seq<T>, before: (T, T) -> bool)
    requires OrdersOn(zone, before) && Within(s, zone) && Distinct(s) && multiset(s) == multiset(t)
    ensures SortBy(s, before) == SortBy(t, before)
  {
    SameMembers(s, t);
    forall i | 0 <= i < |t| ensures t[i] in zone {
      assert t[i] in s;
    }
    DistinctReordered(s, t);
    SortAscends(zone, s, before);
    SortAscends(zone, t, before);
    SortKeeps(s, before);
    SortKeeps(t, before);
    var x := SortBy(s, before);
    forall i | 0 <= i < |x| ensures x[i] in zone {
      assert x[i] in s;
    }
    AscendingUnique(zone, x, SortBy(t, before), before);
  }

  function Map<T, U>(f: T -> U, s: seq<T>): (r: seq<U>)
    ensures |r| == |s| && forall i :: 0 <= i < |s| ==> r[i] == f(s[i])
  {
    seq(|s|, i requires 0 <= i < |s| => f(s[i]))
  }

  lemma MapConcat<T, U>(f: T -> U, s: seq<T>, t: seq<T>)
    ensures Map(f, s + t) == Map(f, s) + Map(f, t)
  {
  }

  lemma MapTake<T, U>(f: T -> U, s: seq<T>, n: nat)
    requires n <= |s|
    ensures Map(f, s)[..n] == Map(f, s[..n])
  {
  }

  function Filter<T(!new)>(p: T -> bool, s: seq<T>): (r: seq<T>)
    ensures forall y :: y in r <==> y in s && p(y)
  {
    if s == [] then []
    else
      assert s == s[..|s| - 1] + [s[|s| - 1]];
      Filter(p, s[..|s| - 1]) + if p(s[|s| - 1]) then [s[|s| - 1]] else []
  }

  lemma {:induction false} FilterDistinct<T(!new)>(p: T -> bool, s: seq<T>)
    requires Distinct(s)
    ensures Distinct(Filter(p, s)) && |Filter(p, s)| <= |s|
  {
    if s != [] {
      FilterDistinct(p, s[..|s| - 1]);
      assert s[|s| - 1] !in s[..|s| - 1];
    }
  }

  lemma {:induction false} FilterConcat<T(!new)>(p: T -> bool, s: seq<T>, t: seq<T>)
    ensures Filter(p, s + t) == Filter(p, s) + Filter(p, t)
    decreases |t|
  {
    if t == [] {
      assert s + t == s;
    } else {
      assert (s + t)[..|s + t| - 1] == s + t[..|t| - 1];
      FilterConcat(p, s, t[..|t| - 1]);
    }
  }

  lemma FilterOne<T(!new)>(p: T -> bool, front: seq<T>, x: T, back: seq<T>)
    ensures multiset(Filter(p, front + [x] + back))
              == multiset(Filter(p, front + back)) + if p(x) then multiset{x} else multiset{}
  {
    FilterConcat(p, front, back);
    FilterConcat(p, front + [x], back);
    assert (front + [x])[..|front|] == front;
  }

  lemma {:induction false} FilterReordered<T(!new)>(p: T -> bool, s: seq<T>, t: seq<T>)
    requires multiset(s) == multiset(t)
    ensures multiset(Filter(p, s)) == multiset(Filter(p, t))
    decreases |s|
  {
    if s != [] {
      var i := LastAlso(s, t);
      FilterReordered(p, s[..|s| - 1], t[..i] + t[i + 1..]);
      assert t == t[..i] + [t[i]] + t[i + 1..];
      FilterOne(p, t[..i], t[i], t[i + 1..]);
    } else {
      SameMembers(s, t);
    }
  }

  lemma MapOne<T, U>(f: T -> U, t: seq<T>, i: nat)
    requires i < |t|
    ensures multiset(Map(f, t)) == multiset(Map(f, t[..i] + t[i + 1..])) + multiset{f(t[i])}
  {
    var m := Map(f, t);
    assert m == m[..i] + [m[i]] + m[i + 1..];
    assert Map(f, t[..i] + t[i + 1..]) == m[..i] + m[i + 1..];
  }

  lemma MapLast<T, U>(f: T -> U, s: seq<T>)
    requires s != []
    ensures multiset(Map(f, s)) == multiset(Map(f, s[..|s| - 1])) + multiset{f(s[|s| - 1])}
  {
    assert Map(f, s) == Map(f, s[..|s| - 1]) + [f(s[|s| - 1])];
  }

  /** Lists that are rearrangements of each other share their last value. */
  lemma LastAlso<T>(s: seq<T>, t: seq<T>) returns (i: nat)
    requires multiset(s) == multiset(t) && s != []
    ensures i < |t| && t[i] == s[|s| - 1] && multiset(s[..|s| - 1]) == multiset(t[..i] + t[i + 1..])
  {
    SameMembers(s, t);
    assert s[|s| - 1] in t;
    i :| 0 <= i < |t| && t[i] == s[|s| - 1];
    TakeOut(t, i);
    DropLast(s);
  }

  lemma {:induction false} MapReordered<T, U>(f: T -> U, s: seq<T>, t: seq<T>)
    requires multiset(s) == multiset(t)
    ensures multiset(Map(f, s)) == multiset(Map(f, t))
    decreases |s|
  {
    if s != [] {
      var i := LastAlso(s, t);
      MapReordered(f, s[..|s| - 1], t[..i] + t[i + 1..]);
      MapLast(f, s);
      MapOne(f, t, i);
    } else {
      SameMembers(s, t);
    }
  }

  /** Distinct values drawn from a list are no more than the list. */
  lemma {:induction false} DistinctFits<T>(s: seq<T>, t: seq<T>)
    requires Distinct(s) && forall y :: y in s ==> y in t
    ensures |s| <= |t|
    decreases |s|
  {
    if s != [] {
      var last := s[|s| - 1];
      assert last in t;
      var i: nat :| i < |t| && t[i] == last;
      var rest := t[..i] + t[i + 1..];
      forall y | y in s[..|s| - 1] ensures y in rest {
        assert y in s && y != last;
        var j: nat :| j < |t| && t[j] == y;
        PositionAfterTakeOut(t, i, j);
      }
      DistinctFits(s[..|s| - 1], rest);
    }
  }

  // ----- a ranking as positions in the unranked list -----

  /** `order` lists the positions of the rows that satisfy `p`, all of them, the better before the worse. */
  ghost predicate RanksBy<T>(rows: seq<T>, p: T -> bool, before: (T, T) -> bool, order: seq<nat>) {
    && (forall k :: 0 <= k < |order| ==> order[k] < |rows| && p(rows[order[k]]))
    && (forall i: nat :: i < |rows| && p(rows[i]) ==> i in order)
    && (forall a, b :: 0 <= a < b < |order| ==> before(rows[order[a]], rows[order[b]]))
  }

  lemma {:induction false} Places<T>(rows: seq<T>, picked: seq<T>) returns (order: seq<nat>)
    requires forall x :: x in picked ==> x in rows
    ensures |order| == |picked| && forall k :: 0 <= k < |order| ==> order[k] < |rows| && rows[order[k]] == picked[k]
  {
    if picked == [] {
      order := [];
    } else {
      var front, x := picked[..|picked| - 1], picked[|picked| - 1];
      order := Places(rows, front);
      assert x in picked;
      var i: nat :| i < |rows| && rows[i] == x;
      order := order + [i];
    }
  }

  /** Filtering and sorting distinct rows lists exactly the positions wanted, in order. */
  lemma RankedPlaces<T(!new)>(zone: iset<T>, rows: seq<T>, p: T -> bool, before: (T, T) -> bool)
    returns (order: seq<nat>)
    requires OrdersOn(zone, before) && Within(rows, zone) && Distinct(rows)
    ensures RanksBy(rows, p, before, order)
    ensures var ranked := SortBy(Filter(p, rows), before);
            |order| == |ranked| && forall k :: 0 <= k < |order| ==> order[k] < |rows| && rows[order[k]] == ranked[k]
  {
    var picked := Filter(p, rows);
    FilterDistinct(p, rows);
    forall i | 0 <= i < |picked| ensures picked[i] in zone {
      assert picked[i] in picked;
    }
    SortAscends(zone, picked, before);
    var ranked := SortBy(picked, before);
    order := Places(rows, ranked);
    forall k | 0 <= k < |order| ensures p(rows[order[k]]) {
      assert ranked[k] in ranked;
    }
    forall i: nat | i < |rows| && p(rows[i]) ensures i in order {
      assert rows[i] in ranked;
      var k :| 0 <= k < |ranked| && ranked[k] == rows[i];
      assert rows[order[k]] == rows[i];
      assert order[k] == i;
    }
  }
}
