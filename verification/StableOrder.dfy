/** Stable ordering of rows by window, and stable merging of ordered runs. */
module StableOrder {

  datatype Row = Row(windowId: int, content: string)

  ghost predicate Ascending(rows: seq<Row>) {
    forall i, j | 0 <= i < j < |rows| :: rows[i].windowId <= rows[j].windowId
  }

  /** The rows of one window, in order. */
  function OfWindow(rows: seq<Row>, w: int): seq<Row> {
    if rows == [] then []
    else (if rows[0].windowId == w then [rows[0]] else []) + OfWindow(rows[1..], w)
  }

  /** Ascending by window, and within each window exactly the given rows in their given order. */
  ghost predicate IsStableSort(rows: seq<Row>, sorted: seq<Row>) {
    Ascending(sorted) && forall w :: OfWindow(sorted, w) == OfWindow(rows, w)
  }

  lemma {:induction false} OfWindowConcat(a: seq<Row>, b: seq<Row>, w: int)
    ensures OfWindow(a + b, w) == OfWindow(a, w) + OfWindow(b, w)
  {
    if a == [] {
      assert a + b == b;
    } else {
      assert (a + b)[1..] == a[1..] + b;
      OfWindowConcat(a[1..], b, w);
    }
  }

  lemma {:induction false} OfWindowEmpty(rows: seq<Row>, w: int)
    requires forall i | 0 <= i < |rows| :: rows[i].windowId != w
    ensures OfWindow(rows, w) == []
  {
    if rows != [] {
      OfWindowEmpty(rows[1..], w);
    }
  }

  lemma {:induction false} OfWindowMembers(rows: seq<Row>, w: int, i: nat)
    requires i < |rows| && rows[i].windowId == w
    ensures rows[i] in OfWindow(rows, w)
  {
    if i > 0 {
      OfWindowMembers(rows[1..], w, i - 1);
    }
  }

  lemma {:induction false} OfWindowOnly(rows: seq<Row>, w: int)
    ensures forall r | r in OfWindow(rows, w) :: r in rows && r.windowId == w
  {
    if rows != [] {
      OfWindowOnly(rows[1..], w);
    }
  }

  /** There is exactly one stable sort. */
  lemma {:induction false} StableSortUnique(a: seq<Row>, b: seq<Row>)
    requires Ascending(a) && Ascending(b)
    requires forall w :: OfWindow(a, w) == OfWindow(b, w)
    ensures a == b
  {
    if a == [] || b == [] {
      if a != [] {
        OfWindowMembers(a, a[0].windowId, 0);
      }
      if b != [] {
        OfWindowMembers(b, b[0].windowId, 0);
      }
    } else {
      SameFirst(a, b);
      SameFirst(b, a);
      var w := a[0].windowId;
      assert OfWindow(a, w)[0] == a[0] && OfWindow(b, w)[0] == b[0];
      forall v
        ensures OfWindow(a[1..], v) == OfWindow(b[1..], v)
      {
        assert OfWindow(a, v) == OfWindow(b, v);
        if v == w {
          assert OfWindow(a[1..], v) == OfWindow(a, v)[1..] && OfWindow(b[1..], v) == OfWindow(b, v)[1..];
        } else {
          assert [] + OfWindow(a[1..], v) == OfWindow(a[1..], v) && [] + OfWindow(b[1..], v) == OfWindow(b[1..], v);
        }
      }
      StableSortUnique(a[1..], b[1..]);
      assert a == [a[0]] + a[1..] && b == [b[0]] + b[1..];
    }
  }

  lemma SameFirst(a: seq<Row>, b: seq<Row>)
    requires a != [] && b != [] && Ascending(b)
    requires forall w :: OfWindow(a, w) == OfWindow(b, w)
    ensures b[0].windowId <= a[0].windowId
  {
    OfWindowMembers(a, a[0].windowId, 0);
    assert OfWindow(a, a[0].windowId) == OfWindow(b, a[0].windowId);
    OfWindowOnly(b, a[0].windowId);
    var i :| 0 <= i < |b| && b[i] == a[0];
    assert b[0].windowId <= b[i].windowId;
  }

  /** A stable sort loses and invents nothing. */
  lemma {:induction false} StableSortIsPermutation(rows: seq<Row>, sorted: seq<Row>)
    requires forall w :: OfWindow(sorted, w) == OfWindow(rows, w)
    ensures multiset(sorted) == multiset(rows)
  {
    forall r: Row
      ensures multiset(sorted)[r] == multiset(rows)[r]
    {
      CountInWindow(sorted, r);
      CountInWindow(rows, r);
      assert OfWindow(sorted, r.windowId) == OfWindow(rows, r.windowId);
    }
  }

  lemma {:induction false} CountInWindow(rows: seq<Row>, r: Row)
    ensures multiset(rows)[r] == multiset(OfWindow(rows, r.windowId))[r]
  {
    if rows != [] {
      CountInWindow(rows[1..], r);
      assert rows == [rows[0]] + rows[1..];
    }
  }

  // ---- Sorting one buffer ----

  /** Before the first row of a later window: behind its equals. */
  function InsertLast(rows: seq<Row>, r: Row): seq<Row> {
    if rows == [] || rows[|rows| - 1].windowId <= r.windowId then rows + [r]
    else InsertLast(rows[..|rows| - 1], r) + [rows[|rows| - 1]]
  }

  function SortByWindow(rows: seq<Row>): seq<Row> {
    if rows == [] then [] else InsertLast(SortByWindow(rows[..|rows| - 1]), rows[|rows| - 1])
  }

  lemma {:induction false} InsertLastMembers(rows: seq<Row>, r: Row)
    ensures forall x | x in InsertLast(rows, r) :: x in rows || x == r
  {
    if rows != [] && rows[|rows| - 1].windowId > r.windowId {
      InsertLastMembers(rows[..|rows| - 1], r);
    }
  }

  lemma {:induction false} InsertLastAscends(rows: seq<Row>, r: Row)
    requires Ascending(rows)
    ensures Ascending(InsertLast(rows, r))
  {
    if rows != [] && rows[|rows| - 1].windowId > r.windowId {
      var init, last := rows[..|rows| - 1], rows[|rows| - 1];
      var moved := InsertLast(init, r);
      InsertLastAscends(init, r);
      InsertLastMembers(init, r);
      forall i | 0 <= i < |moved|
        ensures moved[i].windowId <= last.windowId
      {
        assert moved[i] in moved;
      }
      assert InsertLast(rows, r) == moved + [last];
    }
  }

  lemma {:induction false} InsertLastIsStable(rows: seq<Row>, r: Row, w: int)
    requires Ascending(rows)
    ensures OfWindow(InsertLast(rows, r), w) == OfWindow(rows + [r], w)
  {
    if rows != [] && rows[|rows| - 1].windowId > r.windowId {
      var init, last := rows[..|rows| - 1], rows[|rows| - 1];
      InsertLastIsStable(init, r, w);
      OfWindowConcat(InsertLast(init, r), [last], w);
      OfWindowConcat(init, [r], w);
      OfWindowConcat(init, [last], w);
      OfWindowConcat(rows, [r], w);
      assert rows == init + [last];
      assert OfWindow([last], w) == [] || OfWindow([r], w) == [];
    }
  }

  lemma {:induction false} SortByWindowSorts(rows: seq<Row>)
    ensures IsStableSort(rows, SortByWindow(rows))
  {
    if rows != [] {
      var init, last := rows[..|rows| - 1], rows[|rows| - 1];
      SortByWindowSorts(init);
      InsertLastAscends(SortByWindow(init), last);
      forall w
        ensures OfWindow(SortByWindow(rows), w) == OfWindow(rows, w)
      {
        InsertLastIsStable(SortByWindow(init), last, w);
        OfWindowConcat(SortByWindow(init), [last], w);
        OfWindowConcat(init, [last], w);
        assert rows == init + [last];
      }
    }
  }

  // ---- Merging ordered runs ----

  /** Their rows of one window, run after run. */
  function AcrossRuns(runs: seq<seq<Row>>, w: int): seq<Row> {
    if runs == [] then [] else OfWindow(runs[0], w) + AcrossRuns(runs[1..], w)
  }

  ghost predicate AllAscending(runs: seq<seq<Row>>) {
    forall i | 0 <= i < |runs| :: Ascending(runs[i])
  }

  function TotalRows(runs: seq<seq<Row>>): nat {
    if runs == [] then 0 else |runs[0]| + TotalRows(runs[1..])
  }

  /** The run whose head has the least window; the first of several. */
  function LeastRun(runs: seq<seq<Row>>): (k: nat)
    requires exists i :: 0 <= i < |runs| && runs[i] != []
    ensures k < |runs| && runs[k] != []
    ensures forall i | 0 <= i < |runs| && runs[i] != [] :: runs[k][0].windowId <= runs[i][0].windowId
    ensures forall i | 0 <= i < k && runs[i] != [] :: runs[k][0].windowId < runs[i][0].windowId
  {
    var init, last := runs[..|runs| - 1], |runs| - 1;
    if forall i | 0 <= i < last :: runs[i] == [] then last
    else
      assert exists i :: 0 <= i < |init| && init[i] != [] by {
        var i :| 0 <= i < last && runs[i] != [];
        assert init[i] != [];
      }
      var k := LeastRun(init);
      assert forall i | 0 <= i < last :: init[i] == runs[i];
      if runs[last] != [] && runs[last][0].windowId < runs[k][0].windowId then last else k
  }

  lemma {:induction false} DropHeadShrinks(runs: seq<seq<Row>>, k: nat)
    requires k < |runs| && runs[k] != []
    ensures TotalRows(runs[k := runs[k][1..]]) + 1 == TotalRows(runs)
  {
    var next := runs[k := runs[k][1..]];
    if k > 0 {
      DropHeadShrinks(runs[1..], k - 1);
      assert next[1..] == runs[1..][k - 1 := runs[k][1..]];
    } else {
      assert next[1..] == runs[1..];
    }
  }

  /** Take the least head, again and again; between equal windows the earlier run goes first. */
  function Merge(runs: seq<seq<Row>>): seq<Row>
    decreases TotalRows(runs)
  {
    if forall i | 0 <= i < |runs| :: runs[i] == [] then []
    else
      var k := LeastRun(runs);
      DropHeadShrinks(runs, k);
      [runs[k][0]] + Merge(runs[k := runs[k][1..]])
  }

  lemma {:induction false} AcrossEmpty(runs: seq<seq<Row>>, w: int)
    requires forall i | 0 <= i < |runs| :: runs[i] == []
    ensures AcrossRuns(runs, w) == []
  {
    if runs != [] {
      AcrossEmpty(runs[1..], w);
    }
  }

  /** Taking a head whose window no earlier run holds takes the first of that window across the runs. */
  lemma {:induction false} TakeHead(runs: seq<seq<Row>>, k: nat, w: int)
    requires k < |runs| && runs[k] != []
    requires forall i | 0 <= i < k :: OfWindow(runs[i], runs[k][0].windowId) == []
    ensures AcrossRuns(runs, w) ==
            (if runs[k][0].windowId == w then [runs[k][0]] else []) + AcrossRuns(runs[k := runs[k][1..]], w)
  {
    var next := runs[k := runs[k][1..]];
    if k == 0 {
      assert next[1..] == runs[1..];
    } else {
      assert forall i | 0 <= i < k - 1 :: runs[1..][i] == runs[i + 1];
      TakeHead(runs[1..], k - 1, w);
      assert next[1..] == runs[1..][k - 1 := runs[k][1..]];
    }
  }

  lemma EarlierRunsLack(runs: seq<seq<Row>>, k: nat)
    requires AllAscending(runs) && k < |runs| && runs[k] != []
    requires forall i | 0 <= i < k && runs[i] != [] :: runs[k][0].windowId < runs[i][0].windowId
    ensures forall i | 0 <= i < k :: OfWindow(runs[i], runs[k][0].windowId) == []
  {
    forall i | 0 <= i < k
      ensures OfWindow(runs[i], runs[k][0].windowId) == []
    {
      forall j | 0 <= j < |runs[i]|
        ensures runs[i][j].windowId != runs[k][0].windowId
      {
        assert runs[i][0].windowId <= runs[i][j].windowId;
      }
      OfWindowEmpty(runs[i], runs[k][0].windowId);
    }
  }

  ghost predicate InSome(runs: seq<seq<Row>>, r: Row) {
    exists i :: 0 <= i < |runs| && r in runs[i]
  }

  /** Merging ascending runs is a stable sort of the runs taken one after the other. */
  lemma {:induction false} MergeSorts(runs: seq<seq<Row>>)
    requires AllAscending(runs)
    ensures Ascending(Merge(runs))
    ensures forall w :: OfWindow(Merge(runs), w) == AcrossRuns(runs, w)
    ensures forall r | r in Merge(runs) :: InSome(runs, r)
    decreases TotalRows(runs)
  {
    if forall i | 0 <= i < |runs| :: runs[i] == [] {
      forall w
        ensures AcrossRuns(runs, w) == []
      {
        AcrossEmpty(runs, w);
      }
    } else {
      var k := LeastRun(runs);
      var next := runs[k := runs[k][1..]];
      DropHeadShrinks(runs, k);
      MergeSorts(next);
      EarlierRunsLack(runs, k);
      MergeStep(runs, k);
    }
  }

  lemma MergeStep(runs: seq<seq<Row>>, k: nat)
    requires AllAscending(runs) && !(forall i | 0 <= i < |runs| :: runs[i] == []) && k == LeastRun(runs)
    requires forall i | 0 <= i < k :: OfWindow(runs[i], runs[k][0].windowId) == []
    requires var rest := Merge(runs[k := runs[k][1..]]);
             && Ascending(rest)
             && (forall w :: OfWindow(rest, w) == AcrossRuns(runs[k := runs[k][1..]], w))
             && (forall r | r in rest :: InSome(runs[k := runs[k][1..]], r))
    ensures Ascending(Merge(runs))
    ensures forall w :: OfWindow(Merge(runs), w) == AcrossRuns(runs, w)
    ensures forall r | r in Merge(runs) :: InSome(runs, r)
  {
    var next := runs[k := runs[k][1..]];
    var head, rest := runs[k][0], Merge(next);
    DropHeadShrinks(runs, k);
    assert Merge(runs) == [head] + rest;
    forall r | r in rest
      ensures head.windowId <= r.windowId && InSome(runs, r)
    {
      var i :| 0 <= i < |runs| && r in next[i];
      var j :| 0 <= j < |next[i]| && next[i][j] == r;
      assert r == runs[i][if i == k then j + 1 else j];
      assert runs[i][0].windowId <= r.windowId;
    }
    assert ([head] + rest)[1..] == rest;
    forall w
      ensures OfWindow(Merge(runs), w) == AcrossRuns(runs, w)
    {
      TakeHead(runs, k, w);
    }
  }
}
