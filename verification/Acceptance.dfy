// Judging a list of evidence in order: each item is rejected, repeats an earlier key, or gives a row.
module Acceptance {
  import opened Ranking
  import opened Wrappers

  datatype Ledger<R> = Ledger(rows: seq<R>, rejected: nat)

  predicate KeyTaken<R>(key: R -> int, rows: seq<R>, k: int) { k in Map(key, rows) }

  function Enter<R>(key: R -> int, ledger: Ledger<R>, judged: Option<R>): Ledger<R> {
    if judged.Some? && !KeyTaken(key, ledger.rows, key(judged.value))
    then Ledger(ledger.rows + [judged.value], ledger.rejected)
    else Ledger(ledger.rows, ledger.rejected + 1)
  }

  function Accept<T, R>(judge: T -> Option<R>, key: R -> int, items: seq<T>): Ledger<R> {
    if items == [] then Ledger([], 0)
    else Enter(key, Accept(judge, key, items[..|items| - 1]), judge(items[|items| - 1]))
  }

  /** The loop that appends to the rows and the rejections. */
  method Collect<T, R>(judge: T -> Option<R>, key: R -> int, items: seq<T>) returns (rows: seq<R>, rejected: nat)
    ensures Ledger(rows, rejected) == Accept(judge, key, items)
  {
    rows, rejected := [], 0;
    for i := 0 to |items|
      invariant Ledger(rows, rejected) == Accept(judge, key, items[..i])
    {
      assert items[..i + 1][..i] == items[..i];
      var judged := judge(items[i]);
      if judged.Some? && !KeyTaken(key, rows, key(judged.value)) {
        rows := rows + [judged.value];
      } else {
        rejected := rejected + 1;
      }
    }
    assert items[..|items|] == items;
  }

  function RowOf<T, R>(judge: T -> Option<R>, other: R, item: T): R {
    var judged := judge(item);
    if judged.Some? then judged.value else other
  }

  ghost predicate AllJudged<T, R>(judge: T -> Option<R>, items: seq<T>) {
    forall i :: 0 <= i < |items| ==> judge(items[i]).Some?
  }

  function Rows<T, R>(judge: T -> Option<R>, items: seq<T>): (rows: seq<R>)
    requires AllJudged(judge, items)
    ensures |rows| == |items| && forall i :: 0 <= i < |items| ==> rows[i] == judge(items[i]).value
  {
    seq(|items|, i requires 0 <= i < |items| => judge(items[i]).value)
  }

  /** Everything is accepted. */
  ghost predicate Clean<T, R>(judge: T -> Option<R>, key: R -> int, items: seq<T>) {
    AllJudged(judge, items) && Distinct(Map(key, Rows(judge, items)))
  }

  lemma CleanTake<T, R>(judge: T -> Option<R>, key: R -> int, items: seq<T>)
    requires items != []
    ensures var n := |items| - 1;
            Clean(judge, key, items) <==>
              Clean(judge, key, items[..n]) && judge(items[n]).Some?
              && key(judge(items[n]).value) !in Map(key, Rows(judge, items[..n]))
  {
    var n := |items| - 1;
    if AllJudged(judge, items) {
      assert items[n] in items && judge(items[n]).Some?;
      forall i | 0 <= i < n ensures judge(items[..n][i]).Some? {
        assert judge(items[i]).Some?;
      }
      var keys, front := Map(key, Rows(judge, items)), Map(key, Rows(judge, items[..n]));
      assert keys == front + [key(judge(items[n]).value)];
    } else if AllJudged(judge, items[..n]) && judge(items[n]).Some? {
      forall i | 0 <= i < |items| ensures judge(items[i]).Some? {
        if i < n {
          assert judge(items[..n][i]).Some?;
        }
      }
    }
  }

  /** Nothing is rejected exactly when every item judges well and no key repeats. */
  lemma {:induction false} NothingRejected<T, R>(judge: T -> Option<R>, key: R -> int, items: seq<T>)
    ensures Accept(judge, key, items).rejected == 0 <==> Clean(judge, key, items)
    ensures Clean(judge, key, items) ==> Accept(judge, key, items).rows == Rows(judge, items)
  {
    if items != [] {
      NothingRejected(judge, key, items[..|items| - 1]);
      CleanTake(judge, key, items);
    }
  }

  lemma RowsReordered<T, R>(judge: T -> Option<R>, s: seq<T>, t: seq<T>)
    requires multiset(s) == multiset(t) && AllJudged(judge, s)
    ensures AllJudged(judge, t) && multiset(Rows(judge, s)) == multiset(Rows(judge, t))
  {
    SameMembers(s, t);
    forall i | 0 <= i < |t| ensures judge(t[i]).Some? {
      assert t[i] in s;
      var j :| 0 <= j < |s| && s[j] == t[i];
    }
    if s != [] {
      var other := judge(s[0]).value;
      var row := (item: T) => RowOf(judge, other, item);
      MapReordered(row, s, t);
      assert Map(row, s) == Rows(judge, s) && Map(row, t) == Rows(judge, t);
    } else {
      assert t == [];
    }
  }

  /** Whether everything is accepted, and which rows then result, does not depend on the order. */
  lemma CleanReordered<T, R>(judge: T -> Option<R>, key: R -> int, s: seq<T>, t: seq<T>)
    requires multiset(s) == multiset(t) && Clean(judge, key, s)
    ensures Clean(judge, key, t) && multiset(Rows(judge, s)) == multiset(Rows(judge, t))
  {
    RowsReordered(judge, s, t);
    MapReordered(key, Rows(judge, s), Rows(judge, t));
    DistinctReordered(Map(key, Rows(judge, s)), Map(key, Rows(judge, t)));
  }

  ghost predicate JudgedAlike<T, R>(judge: T -> Option<R>, s: seq<T>, t: seq<T>) {
    |s| == |t| && forall i :: 0 <= i < |s| ==> judge(s[i]) == judge(t[i])
  }

  /** Items that are judged alike are accepted alike. */
  lemma {:induction false} AcceptAlike<T, R>(judge: T -> Option<R>, key: R -> int, s: seq<T>, t: seq<T>)
    requires JudgedAlike(judge, s, t)
    ensures Accept(judge, key, s) == Accept(judge, key, t)
    decreases |s|
  {
    if s != [] {
      AcceptAlike(judge, key, s[..|s| - 1], t[..|t| - 1]);
    }
  }
}
