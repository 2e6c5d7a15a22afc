/** External merge sort with bounded memory: sorted runs, and multi-pass merging with bounded fan-in. */
module WindowSort {
  import opened Wrappers
  import opened StableOrder

  function CeilDiv(n: nat, d: nat): nat
    requires d >= 1
  {
    (n + d - 1) / d
  }

  lemma CeilDivBounds(n: nat, d: nat)
    requires d >= 1
    ensures n <= CeilDiv(n, d) * d < n + d
  {
  }

  lemma MulMonotone(a: int, b: int, f: nat)
    ensures a >= b ==> a * f >= b * f
  {
    if a >= b {
      assert a * f - b * f == (a - b) * f;
    }
  }

  lemma CeilDivIs(n: nat, d: nat, c: nat)
    requires d >= 1 && n <= c * d < n + d
    ensures c == CeilDiv(n, d)
  {
    CeilDivBounds(n, d);
    var e := CeilDiv(n, d);
    MulMonotone(c, e + 1, d);
    MulMonotone(e, c + 1, d);
    assert (e + 1) * d == e * d + d && (c + 1) * d == c * d + d;
  }

  lemma CeilDivTwice(n: nat, a: nat, b: nat)
    requires a >= 1 && b >= 1
    ensures a * b >= 1
    ensures CeilDiv(CeilDiv(n, a), b) == CeilDiv(n, a * b)
  {
    var c := CeilDiv(n, a);
    var e := CeilDiv(c, b);
    CeilDivBounds(n, a);
    CeilDivBounds(c, b);
    assert e * b * a == e * (a * b);
    assert c * a <= (e * b) * a;
    assert (e * b) * a <= (c + b - 1) * a;
    assert (c + b - 1) * a == c * a + (b - 1) * a;
    assert (b - 1) * a == b * a - a;
    CeilDivIs(n, a * b, e);
  }

  function Power(b: nat, e: nat): nat {
    if e == 0 then 1 else Power(b, e - 1) * b
  }

  lemma {:induction false} PowerPositive(b: nat, e: nat)
    requires b >= 1
    ensures Power(b, e) >= 1
  {
    if e > 0 {
      PowerPositive(b, e - 1);
    }
  }

  /** `passes` merge passes are needed to bring `runs` runs down to at most `fanIn`, and no fewer. */
  ghost predicate LeastPasses(runs: nat, fanIn: nat, passes: nat)
    requires fanIn >= 2
  {
    && Power(fanIn, passes) >= 1 && CeilDiv(runs, Power(fanIn, passes)) <= fanIn
    && forall q: nat | q < passes :: Power(fanIn, q) >= 1 && CeilDiv(runs, Power(fanIn, q)) > fanIn
  }

  lemma FewerRuns(n: nat, f: nat)
    requires n > f >= 2
    ensures CeilDiv(n, f) < n
  {
    CeilDivBounds(n, f);
    assert n * f >= n * 2;
    MulMonotone(CeilDiv(n, f), n, f);
  }

  lemma {:induction false} AcrossConcat(a: seq<seq<Row>>, b: seq<seq<Row>>, w: int)
    ensures AcrossRuns(a + b, w) == AcrossRuns(a, w) + AcrossRuns(b, w)
  {
    if a == [] {
      assert a + b == b;
    } else {
      assert (a + b)[1..] == a[1..] + b;
      AcrossConcat(a[1..], b, w);
    }
  }

  lemma AcrossOne(run: seq<Row>, w: int)
    ensures AcrossRuns([run], w) == OfWindow(run, w)
  {
  }

  /** The runs, read one after the other, hold `rows` window by window. */
  ghost predicate RunsHold(runs: seq<seq<Row>>, rows: seq<Row>) {
    AllAscending(runs) && forall w :: AcrossRuns(runs, w) == OfWindow(rows, w)
  }

  /** Two run lists hold the same rows window by window. */
  ghost predicate SameRows(a: seq<seq<Row>>, b: seq<seq<Row>>) {
    forall w :: AcrossRuns(a, w) == AcrossRuns(b, w)
  }

  lemma ExtendSame(merged: seq<seq<Row>>, done: seq<seq<Row>>, run: seq<Row>, group: seq<seq<Row>>)
    requires SameRows(merged, done)
    requires forall w :: OfWindow(run, w) == AcrossRuns(group, w)
    ensures SameRows(merged + [run], done + group)
  {
    forall w
      ensures AcrossRuns(merged + [run], w) == AcrossRuns(done + group, w)
    {
      AcrossConcat(merged, [run], w);
      AcrossOne(run, w);
      AcrossConcat(done, group, w);
    }
  }

  lemma SpillHolds(chunks: seq<seq<Row>>, buffer: seq<Row>, rows: seq<Row>)
    requires AllAscending(chunks) && forall w :: AcrossRuns(chunks, w) + OfWindow(buffer, w) == OfWindow(rows, w)
    ensures RunsHold(chunks + [SortByWindow(buffer)], rows)
  {
    SortByWindowSorts(buffer);
    forall w
      ensures AcrossRuns(chunks + [SortByWindow(buffer)], w) == OfWindow(rows, w)
    {
      AcrossConcat(chunks, [SortByWindow(buffer)], w);
      AcrossOne(SortByWindow(buffer), w);
    }
  }

  lemma AddHolds(chunks: seq<seq<Row>>, buffer: seq<Row>, rows: seq<Row>, row: Row)
    requires forall w :: AcrossRuns(chunks, w) + OfWindow(buffer, w) == OfWindow(rows, w)
    ensures forall w :: AcrossRuns(chunks, w) + OfWindow(buffer + [row], w) == OfWindow(rows + [row], w)
  {
    forall w
      ensures AcrossRuns(chunks, w) + OfWindow(buffer + [row], w) == OfWindow(rows + [row], w)
    {
      OfWindowConcat(buffer, [row], w);
      OfWindowConcat(rows, [row], w);
    }
  }

  lemma OneRowMore(chunks: nat, chunkRows: nat)
    ensures (chunks + 1) * chunkRows == chunks * chunkRows + chunkRows
  {
  }

  lemma HeldInRuns(runs: seq<seq<Row>>, rows: seq<Row>)
    requires RunsHold(runs, rows)
    ensures forall w :: AcrossRuns(runs, w) + OfWindow([], w) == OfWindow(rows, w)
  {
  }

  /** After `i` of `n` items, `groups` groups of size `f` have been formed, only the last possibly smaller. */
  ghost predicate Grouped(i: nat, n: nat, f: nat, groups: nat) {
    i <= groups * f < i + f && (i < n ==> i == groups * f)
  }

  lemma GroupedStep(i: nat, j: nat, n: nat, f: nat, groups: nat)
    requires i < n && f >= 1 && Grouped(i, n, f, groups) && j == if i + f <= n then i + f else n
    ensures Grouped(j, n, f, groups + 1)
  {
  }

  lemma GroupedEnd(i: nat, n: nat, f: nat, groups: nat)
    requires i == n && f >= 1 && Grouped(i, n, f, groups)
    ensures groups == CeilDiv(n, f)
  {
    CeilDivIs(n, f, groups);
  }

  class WindowSorter {
    const chunkRows: nat
    const fanIn: nat
    var buffer: seq<Row>
    var chunks: seq<seq<Row>>
    var consumed: bool
    var mergePasses: nat
    var openReaders: nat
    var maxOpenReaders: nat
    ghost var added: seq<Row>

    ghost predicate Valid()
      reads this
    {
      && 1 <= chunkRows && 2 <= fanIn
      && openReaders == 0 && maxOpenReaders <= fanIn
      && AllAscending(chunks)
      && (forall w :: AcrossRuns(chunks, w) + OfWindow(buffer, w) == OfWindow(added, w))
      && (!consumed ==> mergePasses == 0 && |buffer| < chunkRows && |added| == |chunks| * chunkRows + |buffer|)
    }

    constructor (chunkRows: nat, mergeFanIn: int)
      requires chunkRows >= 1
      ensures Valid() && added == [] && !consumed
      ensures this.chunkRows == chunkRows && fanIn == (if mergeFanIn < 2 then 2 else mergeFanIn)
    {
      this.chunkRows := chunkRows;
      fanIn := if mergeFanIn < 2 then 2 else mergeFanIn;
      buffer, chunks, consumed, mergePasses, openReaders, maxOpenReaders := [], [], false, 0, 0, 0;
      added := [];
    }

    method Add(row: Row)
      requires Valid()
      modifies this
      ensures Valid() && consumed == old(consumed) && added == old(added) + [row]
    {
      AddHolds(chunks, buffer, added, row);
      if !consumed {
        OneRowMore(|chunks|, chunkRows);
      }
      buffer := buffer + [row];
      added := added + [row];
      if |buffer| >= chunkRows {
        Spill();
        HeldInRuns(chunks, added);
      }
    }

    /** Sort the buffer into a run of its own. */
    method Spill()
      requires 1 <= chunkRows && AllAscending(chunks)
      requires forall w :: AcrossRuns(chunks, w) + OfWindow(buffer, w) == OfWindow(added, w)
      modifies this`buffer, this`chunks
      ensures buffer == [] && RunsHold(chunks, added)
      ensures |chunks| == |old(chunks)| + if old(buffer) == [] then 0 else 1
    {
      if buffer == [] {
        return;
      }
      SpillHolds(chunks, buffer, added);
      chunks := chunks + [SortByWindow(buffer)];
      buffer := [];
    }

    method OpenReaders(n: nat)
      requires openReaders == 0 && n <= fanIn && maxOpenReaders <= fanIn
      modifies this`openReaders, this`maxOpenReaders
      ensures openReaders == n && n <= maxOpenReaders <= fanIn
    {
      for i := 0 to n
        invariant openReaders == i && i <= maxOpenReaders <= fanIn
      {
        openReaders := openReaders + 1;
        if openReaders > maxOpenReaders {
          maxOpenReaders := openReaders;
        }
      }
    }

    /** Merge a group of runs through open readers, all closed again at the end. */
    method MergeGroup(group: seq<seq<Row>>) returns (merged: seq<Row>)
      requires openReaders == 0 && |group| <= fanIn && maxOpenReaders <= fanIn && AllAscending(group)
      modifies this`openReaders, this`maxOpenReaders
      ensures openReaders == 0 && maxOpenReaders <= fanIn
      ensures Ascending(merged) && forall w :: OfWindow(merged, w) == AcrossRuns(group, w)
    {
      OpenReaders(|group|);
      merged := Merge(group);
      MergeSorts(group);
      openReaders := 0;
    }

    /** The next group of runs as one run; a group of one is passed on unread. */
    method MergeNext(group: seq<seq<Row>>) returns (run: seq<Row>)
      requires openReaders == 0 && 1 <= |group| <= fanIn && maxOpenReaders <= fanIn && AllAscending(group)
      modifies this`openReaders, this`maxOpenReaders
      ensures openReaders == 0 && maxOpenReaders <= fanIn
      ensures Ascending(run) && forall w :: OfWindow(run, w) == AcrossRuns(group, w)
    {
      if |group| == 1 {
        run := group[0];
        assert group == [run];
        forall w
          ensures OfWindow(run, w) == AcrossRuns(group, w)
        {
          AcrossOne(run, w);
        }
      } else {
        run := MergeGroup(group);
      }
    }

    /** One pass: each group of `fanIn` runs becomes one run. */
    method MergePass(levels: seq<seq<Row>>) returns (next: seq<seq<Row>>)
      requires openReaders == 0 && maxOpenReaders <= fanIn && 2 <= fanIn && AllAscending(levels)
      modifies this`openReaders, this`maxOpenReaders
      ensures openReaders == 0 && maxOpenReaders <= fanIn
      ensures AllAscending(next) && SameRows(next, levels)
      ensures |next| == CeilDiv(|levels|, fanIn)
    {
      next := [];
      var i := 0;
      while i < |levels|
        invariant i <= |levels| && Grouped(i, |levels|, fanIn, |next|)
        invariant openReaders == 0 && maxOpenReaders <= fanIn
        invariant AllAscending(next) && SameRows(next, levels[..i])
        decreases |levels| - i
      {
        var j := if i + fanIn <= |levels| then i + fanIn else |levels|;
        var group := levels[i..j];
        var run := MergeNext(group);
        ExtendSame(next, levels[..i], run, group);
        GroupedStep(i, j, |levels|, fanIn, |next|);
        assert levels[..j] == levels[..i] + group;
        next := next + [run];
        i := j;
      }
      assert levels[..|levels|] == levels;
      GroupedEnd(i, |levels|, fanIn, |next|);
    }

    /**
     All rows added, as their stable sort by window; never more than `fanIn` readers open; and exactly the number
     of merge passes that the run count calls for. A second call is refused.
     */
    method IterSorted() returns (rows: Option<seq<Row>>)
      requires Valid()
      modifies this
      ensures Valid() && consumed && added == old(added)
      ensures old(consumed) ==> rows.None?
      ensures !old(consumed) ==>
                && rows.Some? && IsStableSort(added, rows.value) && rows.value == SortByWindow(added)
                && LeastPasses(CeilDiv(|added|, chunkRows), fanIn, mergePasses)
      ensures maxOpenReaders <= fanIn
    {
      if consumed {
        return None;
      }
      consumed := true;
      RunCount(|added|, chunkRows, |chunks|, |buffer|);
      Spill();
      var levels := ReduceRuns();
      var merged := MergeGroup(levels);
      SortByWindowSorts(added);
      assert forall w :: OfWindow(merged, w) == OfWindow(SortByWindow(added), w) by {
        assert forall w :: AcrossRuns(chunks, w) == OfWindow(added, w);
      }
      StableSortUnique(merged, SortByWindow(added));
      rows := Some(merged);
    }

    /** Merge passes until at most `fanIn` runs are left. */
    method ReduceRuns() returns (levels: seq<seq<Row>>)
      requires openReaders == 0 && maxOpenReaders <= fanIn && 2 <= fanIn && AllAscending(chunks)
      modifies this`openReaders, this`maxOpenReaders, this`mergePasses
      ensures openReaders == 0 && maxOpenReaders <= fanIn
      ensures |levels| <= fanIn && AllAscending(levels) && SameRows(levels, chunks)
      ensures LeastPasses(|chunks|, fanIn, mergePasses)
    {
      levels := chunks;
      var passes := 0;
      ghost var n := |chunks|;
      while |levels| > fanIn
        invariant openReaders == 0 && maxOpenReaders <= fanIn
        invariant AllAscending(levels) && SameRows(levels, chunks)
        invariant PassesSoFar(n, fanIn, passes, |levels|)
        decreases |levels|
      {
        var before := levels;
        levels := MergePass(before);
        OnePassMore(n, fanIn, passes, |before|);
        FewerRuns(|before|, fanIn);
        passes := passes + 1;
      }
      mergePasses := passes;
    }
  }

  /** `passes` passes, each of them needed, turned `n` runs into `left`. */
  ghost predicate PassesSoFar(n: nat, f: nat, passes: nat, left: nat)
    requires f >= 2
  {
    && Power(f, passes) >= 1 && left == CeilDiv(n, Power(f, passes))
    && forall q: nat | q < passes :: Power(f, q) >= 1 && CeilDiv(n, Power(f, q)) > f
  }

  lemma OnePassMore(n: nat, f: nat, passes: nat, left: nat)
    requires f >= 2 && PassesSoFar(n, f, passes, left) && left > f
    ensures PassesSoFar(n, f, passes + 1, CeilDiv(left, f))
  {
    CeilDivTwice(n, Power(f, passes), f);
    PowerPositive(f, passes + 1);
  }

  lemma RunCount(rows: nat, chunkRows: nat, chunks: nat, left: nat)
    requires chunkRows >= 1 && left < chunkRows && rows == chunks * chunkRows + left
    ensures CeilDiv(rows, chunkRows) == chunks + if left == 0 then 0 else 1
  {
    CeilDivIs(rows, chunkRows, chunks + if left == 0 then 0 else 1);
  }
}
