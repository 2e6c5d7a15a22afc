/** Chronological replay: three sorted streams visited window by window through one-row lookahead. */
module ReplayMerge {
  import opened Wrappers
  import opened StableOrder
  import opened WindowSort

  /** One replayed window and the rows drained in it. */
  datatype Visit = Visit(windowId: int, network: seq<Row>, behavior: seq<Row>, communication: seq<Row>)

  // ---- Lookahead ----

  class Peeker {
    var rest: seq<Row>
    var held: Option<Row>
    var advanced: bool

    ghost predicate Valid()
      reads this
    {
      (!advanced ==> held.None?) && (advanced && held.None? ==> rest == [])
    }

    /** The rows not yet taken. */
    ghost function Rows(): seq<Row>
      reads this
    {
      (if held.Some? then [held.value] else []) + rest
    }

    constructor (rows: seq<Row>)
      ensures Valid() && Rows() == rows
    {
      rest, held, advanced := rows, None, false;
    }

    method HasNext() returns (some: bool)
      requires Valid()
      modifies this
      ensures Valid() && Rows() == old(Rows())
      ensures some == (Rows() != [])
      ensures some ==> advanced && held == Some(Rows()[0])
    {
      if !advanced {
        if rest != [] {
          held, rest := Some(rest[0]), rest[1..];
        }
        advanced := true;
      }
      some := held.Some?;
    }

    method NextRow() returns (row: Row)
      requires Valid() && Rows() != []
      modifies this
      ensures Valid() && row == old(Rows())[0] && Rows() == old(Rows())[1..]
    {
      var _ := HasNext();
      row := held.value;
      advanced, held := false, None;
    }
  }

  /** The leading rows of one window. */
  function Leading(rows: seq<Row>, w: int): seq<Row> {
    if rows == [] || rows[0].windowId != w then [] else [rows[0]] + Leading(rows[1..], w)
  }

  function Behind(rows: seq<Row>, w: int): seq<Row> {
    if rows == [] || rows[0].windowId != w then rows else Behind(rows[1..], w)
  }

  /** Take the rows of one window off a stream. */
  method Drain(head: Peeker, w: int) returns (rows: seq<Row>)
    requires head.Valid()
    modifies head
    ensures head.Valid()
    ensures rows == Leading(old(head.Rows()), w) && head.Rows() == Behind(old(head.Rows()), w)
  {
    rows := [];
    ghost var before := head.Rows();
    var some := head.HasNext();
    while some && head.held.value.windowId == w
      invariant head.Valid() && some == (head.Rows() != [])
      invariant some ==> head.advanced && head.held == Some(head.Rows()[0])
      invariant rows + Leading(head.Rows(), w) == Leading(before, w)
      invariant Behind(head.Rows(), w) == Behind(before, w)
      decreases |head.Rows()|
    {
      TakeOne(rows, head.Rows(), w);
      var row := head.NextRow();
      rows := rows + [row];
      some := head.HasNext();
    }
    assert rows + [] == rows;
  }

  lemma TakeOne(taken: seq<Row>, rows: seq<Row>, w: int)
    requires rows != [] && rows[0].windowId == w
    ensures taken + Leading(rows, w) == taken + [rows[0]] + Leading(rows[1..], w)
    ensures Behind(rows, w) == Behind(rows[1..], w)
  {
  }

  // ---- The replay as a function of the three streams ----

  function HeadOf(rows: seq<Row>): (heads: seq<int>)
    ensures rows != [] ==> rows[0].windowId in heads
    ensures forall x | x in heads :: rows != [] && x == rows[0].windowId
  {
    if rows == [] then [] else [rows[0].windowId]
  }

  /** The least window at the head of a stream. */
  function Target(n: seq<Row>, b: seq<Row>, c: seq<Row>): (w: int)
    requires n != [] || b != [] || c != []
    ensures n != [] ==> w <= n[0].windowId
    ensures b != [] ==> w <= b[0].windowId
    ensures c != [] ==> w <= c[0].windowId
    ensures (n != [] && n[0].windowId == w) || (b != [] && b[0].windowId == w) || (c != [] && c[0].windowId == w)
  {
    var heads := HeadOf(n) + HeadOf(b) + HeadOf(c);
    assert n != [] ==> n[0].windowId in heads;
    assert b != [] ==> b[0].windowId in heads;
    assert c != [] ==> c[0].windowId in heads;
    Least(heads)
  }

  function Least(s: seq<int>): (m: int)
    requires s != []
    ensures m in s && forall x | x in s :: m <= x
  {
    if |s| == 1 then s[0]
    else
      assert s == [s[0]] + s[1..];
      var m := Least(s[1..]);
      if s[0] <= m then s[0] else m
  }

  lemma {:induction false} BehindShrinks(rows: seq<Row>, w: int)
    ensures |Behind(rows, w)| <= |rows|
    ensures rows != [] && rows[0].windowId == w ==> |Behind(rows, w)| < |rows|
    ensures rows == Leading(rows, w) + Behind(rows, w)
  {
    if rows != [] && rows[0].windowId == w {
      BehindShrinks(rows[1..], w);
      assert rows == [rows[0]] + rows[1..];
    }
  }

  lemma TargetShrinks(n: seq<Row>, b: seq<Row>, c: seq<Row>)
    requires n != [] || b != [] || c != []
    ensures var w := Target(n, b, c);
            |Behind(n, w)| + |Behind(b, w)| + |Behind(c, w)| < |n| + |b| + |c|
  {
    var w := Target(n, b, c);
    BehindShrinks(n, w);
    BehindShrinks(b, w);
    BehindShrinks(c, w);
  }

  function Replay(n: seq<Row>, b: seq<Row>, c: seq<Row>): seq<Visit>
    decreases |n| + |b| + |c|
  {
    if n == [] && b == [] && c == [] then []
    else
      var w := Target(n, b, c);
      TargetShrinks(n, b, c);
      [Visit(w, Leading(n, w), Leading(b, w), Leading(c, w))] + Replay(Behind(n, w), Behind(b, w), Behind(c, w))
  }

  // ---- What the replay visits ----

  predicate Mentions(rows: seq<Row>, w: int) {
    exists i :: 0 <= i < |rows| && rows[i].windowId == w
  }

  /** The stream has nothing below `w`. */
  ghost predicate From(rows: seq<Row>, w: int) {
    Ascending(rows) && forall i | 0 <= i < |rows| :: w <= rows[i].windowId
  }

  /** Taking the leading rows of the least window takes exactly that window. */
  lemma {:induction false} LeadingIsWindow(rows: seq<Row>, w: int)
    requires From(rows, w)
    ensures Leading(rows, w) == OfWindow(rows, w)
    ensures From(Behind(rows, w), w + 1)
    ensures forall v | v != w :: OfWindow(Behind(rows, w), v) == OfWindow(rows, v)
  {
    if rows == [] {
    } else if rows[0].windowId == w {
      LeadingIsWindow(rows[1..], w);
      forall v | v != w
        ensures OfWindow(Behind(rows, w), v) == OfWindow(rows, v)
      {
        assert [] + OfWindow(rows[1..], v) == OfWindow(rows[1..], v);
      }
    } else {
      OfWindowEmpty(rows, w);
    }
  }

  lemma MentionedRows(rows: seq<Row>, w: int)
    ensures Mentions(rows, w) <==> OfWindow(rows, w) != []
  {
  }

  /** The windows any stream mentions, each once and in strictly ascending order, each with all its rows. */
  ghost predicate Chronological(visits: seq<Visit>, n: seq<Row>, b: seq<Row>, c: seq<Row>) {
    && (forall i, j | 0 <= i < j < |visits| :: visits[i].windowId < visits[j].windowId)
    && (forall w :: Visited(visits, w) <==> Mentions(n, w) || Mentions(b, w) || Mentions(c, w))
    && (forall i | 0 <= i < |visits| ::
          && visits[i].network == OfWindow(n, visits[i].windowId)
          && visits[i].behavior == OfWindow(b, visits[i].windowId)
          && visits[i].communication == OfWindow(c, visits[i].windowId))
  }

  lemma {:induction false} ReplayIsChronological(n: seq<Row>, b: seq<Row>, c: seq<Row>)
    requires Ascending(n) && Ascending(b) && Ascending(c)
    ensures Chronological(Replay(n, b, c), n, b, c)
    decreases |n| + |b| + |c|
  {
    if n != [] || b != [] || c != [] {
      var w := Target(n, b, c);
      TargetShrinks(n, b, c);
      TargetIsLeast(n, b, c);
      BehindAscends(n, w);
      BehindAscends(b, w);
      BehindAscends(c, w);
      ReplayIsChronological(Behind(n, w), Behind(b, w), Behind(c, w));
      VisitFirst(n, b, c, w, Replay(Behind(n, w), Behind(b, w), Behind(c, w)));
    } else {
      NothingLeft(n, b, c);
    }
  }

  lemma BehindAscends(rows: seq<Row>, w: int)
    requires From(rows, w)
    ensures Ascending(Behind(rows, w))
  {
    LeadingIsWindow(rows, w);
  }

  lemma NothingLeft(n: seq<Row>, b: seq<Row>, c: seq<Row>)
    requires n == [] && b == [] && c == []
    ensures Chronological([], n, b, c)
  {
  }

  lemma TargetIsLeast(n: seq<Row>, b: seq<Row>, c: seq<Row>)
    requires Ascending(n) && Ascending(b) && Ascending(c)
    requires n != [] || b != [] || c != []
    ensures var w := Target(n, b, c);
            && From(n, w) && From(b, w) && From(c, w)
            && (Mentions(n, w) || Mentions(b, w) || Mentions(c, w))
  {
  }

  lemma StillMentioned(rows: seq<Row>, w: int, v: int)
    requires From(rows, w)
    ensures Mentions(Behind(rows, w), v) <==> Mentions(rows, v) && v != w
  {
  }

  ghost predicate Visited(visits: seq<Visit>, w: int) {
    exists i :: 0 <= i < |visits| && visits[i].windowId == w
  }

  lemma FirstIsLeast(n: seq<Row>, b: seq<Row>, c: seq<Row>, w: int, rest: seq<Visit>)
    requires From(n, w) && From(b, w) && From(c, w)
    requires Chronological(rest, Behind(n, w), Behind(b, w), Behind(c, w))
    ensures forall i | 0 <= i < |rest| :: w < rest[i].windowId
  {
    LeadingIsWindow(n, w);
    LeadingIsWindow(b, w);
    LeadingIsWindow(c, w);
    forall i | 0 <= i < |rest|
      ensures w < rest[i].windowId
    {
      assert Visited(rest, rest[i].windowId);
    }
  }

  lemma VisitsMentioned(n: seq<Row>, b: seq<Row>, c: seq<Row>, first: Visit, rest: seq<Visit>, v: int)
    requires var w := first.windowId;
             && From(n, w) && From(b, w) && From(c, w)
             && (Mentions(n, w) || Mentions(b, w) || Mentions(c, w))
             && Chronological(rest, Behind(n, w), Behind(b, w), Behind(c, w))
    ensures Visited([first] + rest, v) <==> Mentions(n, v) || Mentions(b, v) || Mentions(c, v)
  {
    var w, all := first.windowId, [first] + rest;
    StillMentioned(n, w, v);
    StillMentioned(b, w, v);
    StillMentioned(c, w, v);
    assert all[0] == first && forall i | 0 <= i < |rest| :: all[i + 1] == rest[i];
    if v == w {
      assert all[0].windowId == v;
    } else {
      assert Visited(all, v) <==> Visited(rest, v) by {
        if Visited(rest, v) {
          var i :| 0 <= i < |rest| && rest[i].windowId == v;
          assert all[i + 1].windowId == v;
        }
        if Visited(all, v) {
          var i :| 0 <= i < |all| && all[i].windowId == v;
          assert rest[i - 1].windowId == v;
        }
      }
    }
  }

  lemma VisitFirst(n: seq<Row>, b: seq<Row>, c: seq<Row>, w: int, rest: seq<Visit>)
    requires From(n, w) && From(b, w) && From(c, w)
    requires Mentions(n, w) || Mentions(b, w) || Mentions(c, w)
    requires Chronological(rest, Behind(n, w), Behind(b, w), Behind(c, w))
    ensures Chronological([Visit(w, Leading(n, w), Leading(b, w), Leading(c, w))] + rest, n, b, c)
  {
    var first := Visit(w, Leading(n, w), Leading(b, w), Leading(c, w));
    var all := [first] + rest;
    FirstIsLeast(n, b, c, w, rest);
    forall v
      ensures Visited(all, v) <==> Mentions(n, v) || Mentions(b, v) || Mentions(c, v)
    {
      VisitsMentioned(n, b, c, first, rest, v);
    }
    LeadingIsWindow(n, w);
    LeadingIsWindow(b, w);
    LeadingIsWindow(c, w);
    forall i | 0 <= i < |all|
      ensures all[i].network == OfWindow(n, all[i].windowId)
      ensures all[i].behavior == OfWindow(b, all[i].windowId)
      ensures all[i].communication == OfWindow(c, all[i].windowId)
    {
      if i > 0 {
        assert all[i] == rest[i - 1] && w < rest[i - 1].windowId;
      }
    }
  }

  /** Ascending streams, all beyond the last visited window. */
  ghost predicate Ahead(n: seq<Row>, b: seq<Row>, c: seq<Row>, last: Option<int>) {
    && Ascending(n) && Ascending(b) && Ascending(c)
    && (last.Some? ==> From(n, last.value + 1) && From(b, last.value + 1) && From(c, last.value + 1))
  }

  lemma WindowStep(n: seq<Row>, b: seq<Row>, c: seq<Row>, last: Option<int>)
    requires Ahead(n, b, c, last) && (n != [] || b != [] || c != [])
    ensures var w := Target(n, b, c);
            && Ahead(Behind(n, w), Behind(b, w), Behind(c, w), Some(w))
            && (last.Some? ==> last.value < w)
            && |Behind(n, w)| + |Behind(b, w)| + |Behind(c, w)| < |n| + |b| + |c|
  {
    var w := Target(n, b, c);
    TargetIsLeast(n, b, c);
    TargetShrinks(n, b, c);
    LeadingIsWindow(n, w);
    LeadingIsWindow(b, w);
    LeadingIsWindow(c, w);
  }

  // ---- The runner ----

  class ReplayRunner {
    const network: Peeker
    const behavior: Peeker
    const communication: Peeker
    var lastProcessed: Option<int>
    ghost const sources: (seq<Row>, seq<Row>, seq<Row>)

    ghost predicate Valid()
      reads this, network, behavior, communication
    {
      && network != behavior && network != communication && behavior != communication
      && network.Valid() && behavior.Valid() && communication.Valid()
    }

    /** Each stream is sorted before the replay begins. */
    constructor (networkRows: seq<Row>, behaviorRows: seq<Row>, communicationRows: seq<Row>, chunkRows: nat, fanIn: int)
      requires chunkRows >= 1
      ensures Valid() && fresh(network) && fresh(behavior) && fresh(communication)
      ensures sources == (networkRows, behaviorRows, communicationRows)
      ensures network.Rows() == SortByWindow(networkRows)
      ensures behavior.Rows() == SortByWindow(behaviorRows)
      ensures communication.Rows() == SortByWindow(communicationRows)
      ensures lastProcessed == None
    {
      var n := SortStream(networkRows, chunkRows, fanIn);
      var b := SortStream(behaviorRows, chunkRows, fanIn);
      var c := SortStream(communicationRows, chunkRows, fanIn);
      network := new Peeker(n);
      behavior := new Peeker(b);
      communication := new Peeker(c);
      lastProcessed := None;
      sources := (networkRows, behaviorRows, communicationRows);
    }

    /** Visit window after window; `ordered` tells whether no stream ever fell behind the last window. */
    method Run() returns (visits: seq<Visit>, ordered: bool)
      requires Valid() && lastProcessed == None
      requires Ascending(network.Rows()) && Ascending(behavior.Rows()) && Ascending(communication.Rows())
      modifies this, network, behavior, communication
      ensures Valid() && ordered
      ensures visits == Replay(old(network.Rows()), old(behavior.Rows()), old(communication.Rows()))
      ensures network.Rows() == [] && behavior.Rows() == [] && communication.Rows() == []
    {
      visits := [];
      ghost var n, b, c := network.Rows(), behavior.Rows(), communication.Rows();
      ghost var all := Replay(n, b, c);
      while true
        invariant Valid() && network.Rows() == n && behavior.Rows() == b && communication.Rows() == c
        invariant Ahead(n, b, c, lastProcessed)
        invariant visits + Replay(n, b, c) == all
        decreases |n| + |b| + |c|
      {
        var target := NextTarget();
        if target.None? {
          assert visits + [] == visits;
          return visits, true;
        }
        var w := target.value;
        WindowStep(n, b, c, lastProcessed);
        if lastProcessed.Some? && w < lastProcessed.value {
          return visits, false;
        }
        var visit := VisitWindow(w);
        n, b, c := Behind(n, w), Behind(b, w), Behind(c, w);
        assert (visits + [visit]) + Replay(n, b, c) == visits + ([visit] + Replay(n, b, c));
        visits := visits + [visit];
        lastProcessed := Some(w);
      }
    }

    method VisitWindow(w: int) returns (visit: Visit)
      requires Valid()
      modifies network, behavior, communication
      ensures Valid()
      ensures visit == Visit(w, Leading(old(network.Rows()), w), Leading(old(behavior.Rows()), w),
                             Leading(old(communication.Rows()), w))
      ensures network.Rows() == Behind(old(network.Rows()), w) && behavior.Rows() == Behind(old(behavior.Rows()), w)
      ensures communication.Rows() == Behind(old(communication.Rows()), w)
    {
      var networkRows := Drain(network, w);
      var behaviorRows := Drain(behavior, w);
      var communicationRows := Drain(communication, w);
      visit := Visit(w, networkRows, behaviorRows, communicationRows);
    }

    /** The least window among the heads that still have a row. */
    method NextTarget() returns (target: Option<int>)
      requires Valid()
      modifies network, behavior, communication
      ensures Valid()
      ensures network.Rows() == old(network.Rows()) && behavior.Rows() == old(behavior.Rows())
      ensures communication.Rows() == old(communication.Rows())
      ensures var n, b, c := network.Rows(), behavior.Rows(), communication.Rows();
              target == if n == [] && b == [] && c == [] then None else Some(Target(n, b, c))
    {
      var n := network.HasNext();
      var b := behavior.HasNext();
      var c := communication.HasNext();
      if !n && !b && !c {
        return None;
      }
      var heads := (if n then [network.held.value.windowId] else []) + (if b then [behavior.held.value.windowId] else []) +
                   (if c then [communication.held.value.windowId] else []);
      assert heads == HeadOf(network.Rows()) + HeadOf(behavior.Rows()) + HeadOf(communication.Rows());
      target := Some(Least(heads));
    }
  }

  method SortStream(rows: seq<Row>, chunkRows: nat, fanIn: int) returns (sorted: seq<Row>)
    requires chunkRows >= 1
    ensures sorted == SortByWindow(rows)
  {
    var sorter := new WindowSorter(chunkRows, fanIn);
    for i := 0 to |rows|
      invariant sorter.Valid() && !sorter.consumed && sorter.added == rows[..i]
      invariant fresh(sorter)
    {
      assert rows[..i + 1] == rows[..i] + [rows[i]];
      sorter.Add(rows[i]);
    }
    assert rows[..|rows|] == rows;
    var result := sorter.IterSorted();
    sorted := result.value;
  }

  /**
   From arbitrary input order: the replay visits exactly the windows mentioned by any stream, once each, in strictly
   ascending order, and drains in each window exactly that window's rows, in arrival order.
   */
  lemma ReplayOfRecords(n: seq<Row>, b: seq<Row>, c: seq<Row>)
    ensures Chronological(Replay(SortByWindow(n), SortByWindow(b), SortByWindow(c)), n, b, c)
  {
    SortByWindowSorts(n);
    SortByWindowSorts(b);
    SortByWindowSorts(c);
    ReplayIsChronological(SortByWindow(n), SortByWindow(b), SortByWindow(c));
    forall w
      ensures Mentions(SortByWindow(n), w) <==> Mentions(n, w)
      ensures Mentions(SortByWindow(b), w) <==> Mentions(b, w)
      ensures Mentions(SortByWindow(c), w) <==> Mentions(c, w)
    {
      SortMentions(n, w);
      SortMentions(b, w);
      SortMentions(c, w);
    }
  }

  lemma SortMentions(rows: seq<Row>, w: int)
    ensures Mentions(SortByWindow(rows), w) <==> Mentions(rows, w)
  {
    SortByWindowSorts(rows);
    MentionedRows(rows, w);
    MentionedRows(SortByWindow(rows), w);
  }
}
