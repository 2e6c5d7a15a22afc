/** Per-window accumulators of the three extraction modalities: every accepted event lands in exactly one row per key. */
module WindowManagers {
  import opened Wrappers
  import opened Watermark

  /** An accumulator key: window and device, or window and directed edge. */
  type Key<E(==)> = (int, E)

  type Counts<E(==)> = map<Key<E>, nat>

  function Bump<E(==)>(m: Counts<E>, k: Key<E>): Counts<E> {
    m[k := (if k in m then m[k] else 0) + 1]
  }

  /** The table counts exactly the logged contributions. */
  ghost predicate Tallies<E(!new)>(m: Counts<E>, log: seq<Key<E>>) {
    && (forall k :: k in m <==> k in log)
    && (forall k | k in m :: m[k] == multiset(log)[k])
  }

  /** Rows add up to the contributions. */
  lemma {:induction false} RowsAddUp<E(!new)>(m: Counts<E>, log: seq<Key<E>>)
    requires Tallies(m, log)
    ensures Total(m) == |log|
    decreases |m|
  {
    if m == map[] {
      assert forall i | 0 <= i < |log| :: log[i] in m;
    } else {
      var k := SomeKey(m);
      var rest := m - {k};
      var others := WithoutKey(log, k);
      WithoutKeyCounts(log, k);
      assert Tallies(rest, others);
      RowsAddUp(rest, others);
    }
  }

  ghost function SomeKey<E(!new)>(m: Counts<E>): (k: Key<E>)
    requires m != map[]
    ensures k in m
  {
    assert exists k :: k in m by {
      assert m.Keys != {};
    }
    var k :| k in m;
    k
  }

  ghost function Total<E(!new)>(m: Counts<E>): nat
    decreases |m|
  {
    if m == map[] then 0
    else
      var k := SomeKey(m);
      assert (m - {k}).Keys == m.Keys - {k};
      m[k] + Total(m - {k})
  }

  ghost function WithoutKey<E(!new)>(log: seq<Key<E>>, k: Key<E>): seq<Key<E>> {
    if log == [] then []
    else (if log[0] == k then [] else [log[0]]) + WithoutKey(log[1..], k)
  }

  lemma {:induction false} WithoutKeyCounts<E(!new)>(log: seq<Key<E>>, k: Key<E>)
    ensures multiset(WithoutKey(log, k)) == multiset(log)[k := 0]
    ensures |WithoutKey(log, k)| + multiset(log)[k] == |log|
    ensures forall x :: x in WithoutKey(log, k) <==> x in log && x != k
  {
    if log != [] {
      WithoutKeyCounts(log[1..], k);
      assert log == [log[0]] + log[1..];
    }
  }

  // ---- What a manager keeps ----

  /**
   Live and emitted keys are apart and together count every contribution; nothing emitted can still receive
   events, and nothing live is overlooked by the next finalization.
   */
  ghost predicate Books<E(!new)>(t: Tracker, live: Counts<E>, emitted: Counts<E>, log: seq<Key<E>>) {
    && live.Keys !! emitted.Keys
    && Tallies(live + emitted, log)
    && (forall k | k in live :: t.minWindow.Some? && t.minWindow.value <= k.0)
    && (forall k | k in emitted :: t.floor.Some? && k.0 < t.floor.value)
    && (forall k | k in live || k in emitted :: t.maxWindow.Some? && k.0 <= t.maxWindow.value)
  }

  /** The window lies between the least and the largest one the tracker has open. */
  predicate Spans(t: Tracker, w: int) {
    t.minWindow.Some? && t.maxWindow.Some? && t.minWindow.value <= w <= t.maxWindow.value
  }

  lemma ObserveKeepsBooks<E(!new)>(t: Tracker, live: Counts<E>, emitted: Counts<E>, log: seq<Key<E>>, ts: int, w: int)
    requires Books(t, live, emitted, log)
    ensures Books(ObserveEvent(t, ts, w), live, emitted, log)
  {
  }

  /** A contribution to an acceptable window, after the tracker observed it. */
  lemma CountKeepsBooks<E(!new)>(t: Tracker, live: Counts<E>, emitted: Counts<E>, log: seq<Key<E>>, k: Key<E>)
    requires Books(t, live, emitted, log)
    requires Spans(t, k.0) && k !in emitted
    ensures Books(t, Bump(live, k), emitted, log + [k])
  {
  }

  function InRange<E(==, !new)>(live: Counts<E>, lo: int, hi: int): Counts<E> {
    map k | k in live && lo <= k.0 <= hi :: live[k]
  }

  /** Exactly the windows below the floor are taken out of the table, with what they hold. */
  ghost predicate Finalizes<E(!new)>(t: Tracker, live: Counts<E>, live': Counts<E>, rows: Counts<E>) {
    && (forall k :: k in rows <==> k in live && t.floor.Some? && k.0 < t.floor.value)
    && (forall k | k in rows :: rows[k] == live[k])
    && live' == live - rows.Keys
  }

  /** One more contribution to each key of the list. */
  function BumpAll<E(==)>(m: Counts<E>, ks: seq<Key<E>>): Counts<E> {
    if ks == [] then m else Bump(BumpAll(m, ks[..|ks| - 1]), ks[|ks| - 1])
  }

  lemma BumpAllExtends<E>(m: Counts<E>, ks: seq<Key<E>>, k: Key<E>)
    ensures BumpAll(m, ks + [k]) == Bump(BumpAll(m, ks), k)
  {
    assert (ks + [k])[..|ks|] == ks;
  }

  /** With nothing due, no open window is below the floor. */
  lemma NothingDue<E(!new)>(t: Tracker, live: Counts<E>, emitted: Counts<E>, log: seq<Key<E>>)
    requires Books(t, live, emitted, log) && Due(t).1 == None
    ensures Due(t).0 == t && Finalizes(t, live, live, map[])
  {
    var none: Counts<E> := map[];
    assert live - none.Keys == live;
  }

  /** Closing the range a finalization is due for: exactly the open windows below the floor. */
  lemma CloseKeepsBooks<E(!new)>(t: Tracker, live: Counts<E>, emitted: Counts<E>, log: seq<Key<E>>, lo: int, hi: int)
    requires Books(t, live, emitted, log) && Due(t).1 == Some((lo, hi))
    ensures var rows := InRange(live, lo, hi);
            && rows.Keys !! emitted.Keys && Books(Due(t).0, live - rows.Keys, emitted + rows, log)
            && Finalizes(Due(t).0, live, live - rows.Keys, rows)
  {
  }

  lemma RemovalShrinks<E(!new)>(m: Counts<E>, gone: set<Key<E>>)
    ensures |m - gone| <= |m|
  {
  }

  datatype AddResult<E(==)> = Rows(rows: Counts<E>) | LateEvent | CapacityExceeded

  /** How one call moves the books: these contributions, these rows. */
  ghost predicate Moves<E(!new)>(emitted: Counts<E>, emitted': Counts<E>, log: seq<Key<E>>, log': seq<Key<E>>,
                                 rows: Counts<E>, contributed: seq<Key<E>>)
  {
    && log' == log + contributed
    && rows.Keys !! emitted.Keys && emitted' == emitted + rows
  }

  // ---- Accumulators over one tracker ----

  class WindowTable<E(==, !new)> {
    const grid: Grid
    const tracker: WatermarkTracker
    var live: Counts<E>
    ghost var emitted: Counts<E>
    ghost var log: seq<Key<E>>

    ghost predicate Valid()
      reads this, tracker
    {
      ValidGrid(grid) && Books(tracker.State(), live, emitted, log)
    }

    constructor (grid: Grid, maxLatenessNs: nat)
      requires ValidGrid(grid)
      ensures Valid() && fresh(tracker) && this.grid == grid
      ensures tracker.State() == NewTracker(maxLatenessNs, grid.windowNs)
      ensures live == map[] && emitted == map[] && log == []
    {
      this.grid := grid;
      tracker := new WatermarkTracker(grid.windowNs, maxLatenessNs);
      live, emitted, log := map[], map[], [];
    }

    /** Take an event into the tracker unless its window is already final. */
    method Admit(ts: int, w: int) returns (ok: bool)
      requires Valid()
      modifies tracker
      ensures Valid() && live == old(live) && emitted == old(emitted) && log == old(log)
      ensures ok == Acceptable(old(tracker.State()), w)
      ensures tracker.State() == if ok then ObserveEvent(old(tracker.State()), ts, w) else old(tracker.State())
      ensures ok ==> Spans(tracker.State(), w) && forall e: E :: (w, e) !in emitted
    {
      ok := tracker.EnsureAcceptable(w);
      if ok {
        ObserveKeepsBooks(tracker.State(), live, emitted, log, ts, w);
        var _ := tracker.Observe(ts, w);
      }
    }

    method Count(k: Key<E>)
      requires Valid()
      requires Spans(tracker.State(), k.0) && k !in emitted
      modifies this
      ensures Valid() && emitted == old(emitted) && log == old(log) + [k]
      ensures live == Bump(old(live), k)
    {
      CountKeepsBooks(tracker.State(), live, emitted, log, k);
      live := Bump(live, k);
      log := log + [k];
    }

    method FinalizeDue() returns (rows: Counts<E>)
      requires Valid()
      modifies this, tracker
      ensures Valid()
      ensures Moves(old(emitted), emitted, old(log), log, rows, [])
      ensures tracker.State() == Due(old(tracker.State())).0
      ensures Finalizes(tracker.State(), old(live), live, rows)
      ensures |live| <= |old(live)|
    {
      ghost var t := tracker.State();
      var due := tracker.DueWindows();
      match due
      case None =>
        NothingDue(t, live, emitted, log);
        rows := map[];
      case Some((lo, hi)) =>
        CloseKeepsBooks(t, live, emitted, log, lo, hi);
        rows := CloseRange(lo, hi);
    }

    /** Take the open windows of a range out of the table. */
    method CloseRange(lo: int, hi: int) returns (rows: Counts<E>)
      modifies this`live, this`emitted
      ensures rows == InRange(old(live), lo, hi)
      ensures live == old(live) - rows.Keys && emitted == old(emitted) + rows
      ensures |live| <= |old(live)|
    {
      rows := InRange(live, lo, hi);
      RemovalShrinks(live, rows.Keys);
      live := live - rows.Keys;
      emitted := emitted + rows;
    }

    /** Every open window, at the end of the stream. After it the emitted rows are exactly the contributions. */
    method Finish() returns (rows: Counts<E>)
      requires Valid()
      modifies this
      ensures Moves(old(emitted), emitted, old(log), log, rows, []) && rows == old(live)
      ensures live == map[] && Tallies(emitted, log) && Total(emitted) == |log|
      ensures forall k | k in emitted :: tracker.maxWindow.Some? && k.0 <= tracker.maxWindow.value
    {
      rows := live;
      assert emitted + live == live + emitted;
      live := map[];
      emitted := emitted + rows;
      RowsAddUp(emitted, log);
    }
  }
}
