/** The quorum-filtered listing of committed records: chunked scans, support counting, ordered pages. */
module CommittedView {
  import opened BlackboardContracts
  import opened Wrappers
  import opened ReplicaStorage
  import opened Lexicographic

  /** The most rows one storage query returns. */
  const QUERY_LIMIT: nat := 10000

  predicate SlotBefore(a: Slot, b: Slot) {
    if a.key == b.key then a.version < b.version else Leq(a.key, b.key)
  }

  lemma SlotOrder(a: Slot, b: Slot, c: Slot)
    ensures a == b || SlotBefore(a, b) || SlotBefore(b, a)
    ensures !(SlotBefore(a, b) && SlotBefore(b, a))
    ensures SlotBefore(a, b) && SlotBefore(b, c) ==> SlotBefore(a, c)
  {
    LeqTotal(a.key, b.key);
    LeqTotal(b.key, c.key);
    LeqTotal(a.key, c.key);
    if Leq(a.key, b.key) && Leq(b.key, c.key) {
      LeqTransitive(a.key, b.key, c.key);
    }
  }

  ghost predicate Ordered(rows: seq<Record>) {
    forall i, j | 0 <= i < j < |rows| :: SlotBefore(SlotOf(rows[i]), SlotOf(rows[j]))
  }

  /** A table listing: every committed row once, by key and version. */
  ghost predicate Lists(rows: seq<Record>, st: Store) {
    && Ordered(rows)
    && (forall r :: r in rows <==> SlotOf(r) in st.committed && st.committed[SlotOf(r)].record == r)
  }

  // ---- One replica's scan ----

  function Smaller(a: nat, b: nat): nat { if a <= b then a else b }

  /** LIMIT and OFFSET, the limit clamped. */
  function Query(table: seq<Record>, limit: nat, offset: nat): seq<Record> {
    var from := Smaller(offset, |table|);
    table[from..Smaller(from + Smaller(limit, QUERY_LIMIT), |table|)]
  }

  function FirstRows(table: seq<Record>, n: nat): seq<Record> {
    table[..Smaller(n, |table|)]
  }

  /** What a scan reads: up to the bound if one query can return a chunk, otherwise one clamped query. */
  function Reached(chunkSize: nat, maxRows: nat): nat {
    if Smaller(chunkSize, maxRows) <= QUERY_LIMIT then maxRows else QUERY_LIMIT
  }

  /** The rows up to the bound, and whether more remain. */
  predicate Faithful(table: seq<Record>, maxRows: nat, rows: seq<Record>, truncated: bool) {
    rows == FirstRows(table, maxRows) && truncated == (|table| > maxRows)
  }

  /** Scan in chunks up to the bound. The result is faithful exactly when a chunk, or the table, fits one query. */
  method Scan(table: seq<Record>, chunkSize: nat, maxRows: nat) returns (rows: seq<Record>, truncated: bool)
    requires chunkSize >= 1
    ensures rows == FirstRows(table, Reached(chunkSize, maxRows))
    ensures truncated <==> Smaller(chunkSize, maxRows) <= QUERY_LIMIT && |table| > maxRows
    ensures Faithful(table, maxRows, rows, truncated) <==>
            Smaller(chunkSize, maxRows) <= QUERY_LIMIT || |table| <= QUERY_LIMIT
  {
    rows := [];
    var exhausted := false;
    while |rows| < maxRows && !exhausted
      invariant |rows| <= maxRows && rows == FirstRows(table, |rows|) && |rows| <= |table|
      invariant Smaller(chunkSize, maxRows) <= QUERY_LIMIT && exhausted ==> |rows| == |table|
      invariant Smaller(chunkSize, maxRows) > QUERY_LIMIT ==>
                  if exhausted then rows == FirstRows(table, QUERY_LIMIT) else rows == []
      decreases !exhausted, maxRows - |rows|
    {
      var limit := Smaller(chunkSize, maxRows - |rows|);
      var chunk := Query(table, limit, |rows|);
      assert rows + chunk == FirstRows(table, |rows| + |chunk|);
      rows := rows + chunk;
      exhausted := |chunk| < limit;
    }
    truncated := false;
    if !exhausted {
      truncated := Query(table, 1, |rows|) != [];
    }
    if Smaller(chunkSize, maxRows) > QUERY_LIMIT && |table| > QUERY_LIMIT {
      assert |FirstRows(table, maxRows)| > |FirstRows(table, QUERY_LIMIT)|;
    }
  }

  /** Of a table of 10001 rows, scanned in chunks of 20000 with room for all, the last row is missed and not reported. */
  lemma ClampedScanMissesARow(table: seq<Record>)
    requires |table| == 10001
    ensures Reached(20000, 20000) == 10000
    ensures |FirstRows(table, 10000)| == 10000 && FirstRows(table, 20000) == table
    ensures !Faithful(table, 20000, FirstRows(table, 10000), false)
  {
    assert |FirstRows(table, 10000)| < |FirstRows(table, 20000)|;
  }

  // ---- Support ----

  /** What each of the three replicas showed; an unavailable replica showed nothing. */
  type Scans = s: seq<Option<seq<Record>>> | |s| == 3 witness [None, None, None]

  function Supporting(scans: Scans, r: Record): set<nat> {
    set k: nat | k < 3 && scans[k].Some? && r in scans[k].value
  }

  ghost predicate Supported(scans: Scans, r: Record) {
    |Supporting(scans, r)| >= QUORUM
  }

  ghost predicate OrderedScans(scans: Scans) {
    forall k: nat | k < 3 && scans[k].Some? :: Ordered(scans[k].value)
  }

  /** One record per (key, version): two supported records of one slot meet on a replica. */
  lemma SupportedUnique(scans: Scans, a: Record, b: Record)
    requires OrderedScans(scans) && Supported(scans, a) && Supported(scans, b) && SlotOf(a) == SlotOf(b)
    ensures a == b
  {
    var k := Meeting(Supporting(scans, a), Supporting(scans, b));
    var rows := scans[k].value;
    var i :| 0 <= i < |rows| && rows[i] == a;
    var j :| 0 <= j < |rows| && rows[j] == b;
    OrderedDistinct(rows);
  }

  lemma OrderedDistinct(rows: seq<Record>)
    requires Ordered(rows)
    ensures forall i, j | 0 <= i < |rows| && 0 <= j < |rows| && SlotOf(rows[i]) == SlotOf(rows[j]) :: i == j
  {
  }

  lemma Meeting(s: set<nat>, t: set<nat>) returns (k: nat)
    requires |s| >= 2 && |t| >= 2
    requires forall x | x in s || x in t :: x < 3
    ensures k in s && k in t
  {
    var all: set<nat> := {0, 1, 2};
    assert all == (s + t) + (all - (s + t));
    assert |s + t| <= |all| == 3;
    assert |s + t| + |s * t| == |s| + |t|;
    assert s * t != {};
    k :| k in s * t;
  }

  // ---- The view ----

  /** The supported records, each once, by key and version. */
  ghost predicate IsView(all: seq<Record>, scans: Scans) {
    Ordered(all) && forall r :: r in all <==> Supported(scans, r)
  }

  function Place(sorted: seq<Record>, r: Record): seq<Record> {
    if sorted == [] || SlotBefore(SlotOf(r), SlotOf(sorted[0])) then [r] + sorted
    else [sorted[0]] + Place(sorted[1..], r)
  }

  lemma {:induction false} PlaceKeepsOrder(sorted: seq<Record>, r: Record)
    requires Ordered(sorted) && forall x | x in sorted :: SlotOf(x) != SlotOf(r)
    ensures Ordered(Place(sorted, r))
    ensures forall x :: x in Place(sorted, r) <==> x in sorted || x == r
  {
    if sorted == [] {
    } else if SlotBefore(SlotOf(r), SlotOf(sorted[0])) {
      forall i | 0 <= i < |sorted|
        ensures SlotBefore(SlotOf(r), SlotOf(sorted[i]))
      {
        SlotOrder(SlotOf(r), SlotOf(sorted[0]), SlotOf(sorted[i]));
      }
    } else {
      var rest := Place(sorted[1..], r);
      assert sorted == [sorted[0]] + sorted[1..];
      PlaceKeepsOrder(sorted[1..], r);
      SlotOrder(SlotOf(r), SlotOf(sorted[0]), SlotOf(r));
      forall i | 0 <= i < |rest|
        ensures SlotBefore(SlotOf(sorted[0]), SlotOf(rest[i]))
      {
        assert rest[i] in rest;
        if rest[i] != r {
          var j :| 0 <= j < |sorted| - 1 && sorted[1..][j] == rest[i];
          assert sorted[j + 1] == rest[i];
        }
      }
    }
  }

  /** Count support over all scanned rows, keep what two replicas hold, and order it. */
  method BuildView(scans: Scans) returns (all: seq<Record>)
    requires OrderedScans(scans)
    ensures IsView(all, scans)
  {
    all := [];
    ghost var seen: set<Record> := {};
    for k := 0 to 3
      invariant Ordered(all)
      invariant forall r :: r in all <==> r in seen && Supported(scans, r)
      invariant forall j: nat, r | j < k && scans[j].Some? && r in scans[j].value :: r in seen
    {
      if scans[k].Some? {
        var rows := scans[k].value;
        for n := 0 to |rows|
          invariant Ordered(all)
          invariant forall r :: r in all <==> r in seen && Supported(scans, r)
          invariant forall j: nat, r | j < k && scans[j].Some? && r in scans[j].value :: r in seen
          invariant forall m | 0 <= m < n :: rows[m] in seen
        {
          var r := rows[n];
          if r !in all && |Supporting(scans, r)| >= QUORUM {
            forall x | x in all
              ensures SlotOf(x) != SlotOf(r)
            {
              if SlotOf(x) == SlotOf(r) {
                SupportedUnique(scans, x, r);
              }
            }
            PlaceKeepsOrder(all, r);
            all := Place(all, r);
          }
          seen := seen + {r};
        }
      }
    }
    forall r | Supported(scans, r)
      ensures r in all
    {
      assert Supporting(scans, r) != {};
      var k :| k in Supporting(scans, r);
      assert r in seen;
    }
  }

  function Page(all: seq<Record>, offset: nat, limit: nat): seq<Record> {
    var from := Smaller(offset, |all|);
    all[from..Smaller(from + limit, |all|)]
  }

  /** There is one view of given scans, so pages taken one after the other are pages of the same list. */
  lemma {:induction false} ViewUnique(a: seq<Record>, b: seq<Record>, scans: Scans)
    requires IsView(a, scans) && IsView(b, scans)
    ensures a == b
  {
    OrderedSame(a, b);
  }

  lemma SomeMember(s: seq<Record>)
    ensures s != [] ==> exists r :: r in s
  {
    if s != [] {
      assert s[0] in s;
    }
  }

  lemma {:induction false} OrderedSame(a: seq<Record>, b: seq<Record>)
    requires Ordered(a) && Ordered(b) && forall r :: r in a <==> r in b
    ensures a == b
  {
    if a == [] || b == [] {
      SomeMember(a);
      SomeMember(b);
    } else {
      LeastFirst(a, b);
      assert a == [a[0]] + a[1..] && b == [b[0]] + b[1..];
      forall r
        ensures r in a[1..] <==> r in b[1..]
      {
        TailMembers(a, r);
        TailMembers(b, r);
      }
      OrderedSame(a[1..], b[1..]);
    }
  }

  lemma TailMembers(s: seq<Record>, r: Record)
    requires s != [] && Ordered(s)
    ensures r in s[1..] <==> r in s && r != s[0]
  {
  }

  lemma HeadIsLeast(s: seq<Record>, r: Record)
    requires s != [] && Ordered(s) && r in s
    ensures r == s[0] || SlotBefore(SlotOf(s[0]), SlotOf(r))
  {
  }

  lemma LeastFirst(a: seq<Record>, b: seq<Record>)
    requires a != [] && b != [] && Ordered(a) && Ordered(b) && forall r :: r in a <==> r in b
    ensures a[0] == b[0]
  {
    HeadIsLeast(a, b[0]);
    HeadIsLeast(b, a[0]);
    SlotOrder(SlotOf(a[0]), SlotOf(b[0]), SlotOf(a[0]));
  }

  /** Consecutive pages join up, and pages from the start cover the whole. */
  lemma PagesConcatenate(all: seq<Record>, offset: nat, first: nat, second: nat)
    ensures Page(all, offset, first) + Page(all, offset + first, second) == Page(all, offset, first + second)
    ensures Page(all, 0, |all| + first) == all
  {
  }

  /** From stores to items: an item is a committed row that two responsive replicas hold within the scanned scope. */
  lemma ItemsAreCommittedTwice(stores: seq<Store>, tables: seq<seq<Record>>, scans: Scans, maxRows: nat, all: seq<Record>, r: Record)
    requires |stores| == 3 && |tables| == 3
    requires forall k: nat | k < 3 :: Lists(tables[k], stores[k])
    requires forall k: nat | k < 3 && scans[k].Some? :: scans[k].value == FirstRows(tables[k], maxRows)
    requires IsView(all, scans)
    ensures r in all <==>
            |set k: nat | k < 3 && scans[k].Some? && r in FirstRows(tables[k], maxRows)| >= QUORUM
    ensures r in all ==> exists i: nat, j: nat ::
              && i < j < 3 && SlotOf(r) in stores[i].committed && stores[i].committed[SlotOf(r)].record == r
              && SlotOf(r) in stores[j].committed && stores[j].committed[SlotOf(r)].record == r
  {
    var holders := set k: nat | k < 3 && scans[k].Some? && r in FirstRows(tables[k], maxRows);
    assert holders == Supporting(scans, r);
    if r in all {
      var a :| a in holders;
      assert |holders - {a}| >= 1;
      var b :| b in holders - {a};
      assert r in tables[a] && r in tables[b];
    }
  }
}
