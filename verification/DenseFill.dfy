/** Presence of (device, window) pairs as bits, and the dense rectangle of network rows filled in from it. */
module DenseFill {
  import opened Wrappers
  import opened Watermark
  import opened WindowManagers
  import opened ModalityManagers

  // ---- Bits ----

  function Mask(bit: nat): bv8
    requires bit < 8
  {
    match bit
    case 0 => 1
    case 1 => 2
    case 2 => 4
    case 3 => 8
    case 4 => 16
    case 5 => 32
    case 6 => 64
    case 7 => 128
  }

  predicate Set(b: bv8, bit: nat)
    requires bit < 8
  {
    b & Mask(bit) != 0
  }

  /** Setting one bit sets that bit and no other. */
  lemma SetOneBit(b: bv8, i: nat, j: nat)
    requires i < 8 && j < 8
    ensures Set(b | Mask(i), j) <==> i == j || Set(b, j)
  {
    MaskMeets(b, Mask(i), Mask(j));
    if i == j {
      MaskIsNonZero(i);
    } else {
      MasksApart(i, j);
    }
  }

  lemma MaskMeets(b: bv8, m: bv8, n: bv8)
    ensures (b | m) & n == (b & n) | (m & n)
    ensures (b & n) | 0 == b & n
    ensures m & n != 0 ==> (b & n) | (m & n) != 0
  {
  }

  lemma MaskIsNonZero(i: nat)
    requires i < 8
    ensures Mask(i) & Mask(i) != 0
  {
  }

  lemma MasksApart(i: nat, j: nat)
    requires i < 8 && j < 8 && i != j
    ensures Mask(i) & Mask(j) == 0
  {
  }

  lemma ZeroHasNone(j: nat)
    requires j < 8
    ensures !Set(0, j)
  {
  }

  // ---- The bitmap ----

  function Zeros(n: nat): (z: seq<bv8>)
    ensures |z| == n && forall i | 0 <= i < n :: z[i] == 0
  {
    if n == 0 then [] else Zeros(n - 1) + [0]
  }

  /** Window `w` is marked in the bytes of one device. */
  predicate InBytes(bytes: seq<bv8>, w: nat) {
    w / 8 < |bytes| && Set(bytes[w / 8], w % 8)
  }

  class PresenceBitmap {
    var bits: map<string, seq<bv8>>
    var negative: set<(string, int)>
    ghost var marked: set<(string, int)>

    /** The bits and the small set of negative windows stand for a plain set of pairs. */
    ghost predicate Valid()
      reads this
    {
      && (forall d: string, w: int :: (d, w) in marked <==> Marked(d, w))
      && (forall p | p in negative :: p.1 < 0)
      && (forall d | d in bits :: exists w: nat :: InBytes(bits[d], w))
    }

    predicate Marked(device: string, w: int)
      reads this
    {
      if w < 0 then (device, w) in negative
      else device in bits && InBytes(bits[device], w)
    }

    constructor ()
      ensures Valid() && marked == {}
    {
      bits, negative, marked := map[], {}, {};
    }

    method Mark(device: string, w: int)
      requires Valid()
      modifies this
      ensures Valid() && marked == old(marked) + {(device, w)}
    {
      marked := marked + {(device, w)};
      if w < 0 {
        negative := negative + {(device, w)};
        return;
      }
      var bytes := if device in bits then bits[device] else [];
      var more := MarkByte(bytes, w);
      bits := bits[device := more];
      assert InBytes(bits[device], w);
    }

    method Has(device: string, w: int) returns (present: bool)
      requires Valid()
      ensures present == ((device, w) in marked)
    {
      if w < 0 {
        return (device, w) in negative;
      }
      if device !in bits {
        return false;
      }
      var at, bit := w / 8, w % 8;
      if at >= |bits[device]| {
        return false;
      }
      return bits[device][at] & Mask(bit) != 0;
    }

    /** Every device with a mark. */
    method Devices() returns (names: set<string>)
      requires Valid()
      ensures forall d :: d in names <==> exists w :: (d, w) in marked
    {
      names := bits.Keys + set p | p in negative :: p.0;
      forall d
        ensures d in names <==> exists w :: (d, w) in marked
      {
        if d in bits {
          var w: nat :| InBytes(bits[d], w);
          assert Marked(d, w);
          assert (d, w) in marked;
        } else if d in names {
          var p :| p in negative && p.0 == d;
          assert Marked(d, p.1);
          assert (d, p.1) in marked;
        }
        forall w | (d, w) in marked
          ensures d in names
        {
          assert Marked(d, w);
          if w < 0 {
            var p := (d, w);
            assert p in negative && p.0 == d;
          }
        }
      }
    }
  }

  method MarkByte(bytes: seq<bv8>, w: nat) returns (more: seq<bv8>)
    ensures forall v: nat :: InBytes(more, v) <==> v == w || InBytes(bytes, v)
  {
    var at, bit := w / 8, w % 8;
    var long := if at >= |bytes| then bytes + Zeros(at - |bytes| + 1) else bytes;
    more := long[at := long[at] | Mask(bit)];
    forall v: nat
      ensures InBytes(more, v) <==> v == w || InBytes(bytes, v)
    {
      ZeroHasNone(v % 8);
      if v / 8 == at {
        SetOneBit(long[at], bit, v % 8);
        assert v == w <==> v % 8 == bit;
      }
    }
  }

  // ---- The rectangle ----

  /** Every pair of the rectangle has exactly one row, observed or filled; filled rows lie in it, once each. */
  ghost predicate Dense(observed: set<Key<string>>, filled: seq<Key<string>>, devices: set<string>, lo: int, hi: int) {
    && (forall i, j | 0 <= i < j < |filled| :: filled[i] != filled[j])
    && (forall k | k in filled :: k !in observed && k.1 in devices && lo <= k.0 <= hi)
    && (forall d, w | d in devices && lo <= w <= hi :: (w, d) in observed || (w, d) in filled)
  }

  /** Fill one device from `lo` to `hi`. */
  method FillDevice(presence: PresenceBitmap, device: string, lo: int, hi: int) returns (filled: seq<Key<string>>)
    requires presence.Valid() && lo <= hi + 1
    ensures forall i, j | 0 <= i < j < |filled| :: filled[i] != filled[j]
    ensures forall k :: k in filled <==> k.1 == device && lo <= k.0 <= hi && (device, k.0) !in presence.marked
  {
    filled := [];
    var w := lo;
    while w <= hi
      invariant lo <= w <= hi + 1
      invariant forall i, j | 0 <= i < j < |filled| :: filled[i] != filled[j]
      invariant forall k :: k in filled <==> k.1 == device && lo <= k.0 < w && (device, k.0) !in presence.marked
    {
      var present := presence.Has(device, w);
      if !present {
        filled := filled + [(w, device)];
      }
      w := w + 1;
    }
  }

  ghost predicate MarksExactly(presence: PresenceBitmap, observed: set<Key<string>>)
    reads presence
  {
    forall d: string, w: int :: (d, w) in presence.marked <==> (w, d) in observed
  }

  method FillRectangle(presence: PresenceBitmap, universe: set<string>, lo: int, hi: int, ghost observed: set<Key<string>>)
    returns (filled: seq<Key<string>>)
    requires presence.Valid() && lo <= hi && MarksExactly(presence, observed)
    ensures Dense(observed, filled, universe, lo, hi)
  {
    filled := [];
    var rest := universe;
    while rest != {}
      invariant rest <= universe
      invariant Dense(observed, filled, universe - rest, lo, hi)
      decreases rest
    {
      var d :| d in rest;
      var more := FillDevice(presence, d, lo, hi);
      assert universe - (rest - {d}) == (universe - rest) + {d};
      DenseExtends(observed, filled, more, universe - rest, d, lo, hi);
      filled := filled + more;
      rest := rest - {d};
    }
    assert universe - {} == universe;
  }

  lemma DenseExtends(observed: set<Key<string>>, filled: seq<Key<string>>, more: seq<Key<string>>, devices: set<string>,
                     d: string, lo: int, hi: int)
    requires Dense(observed, filled, devices, lo, hi) && d !in devices
    requires forall i, j | 0 <= i < j < |more| :: more[i] != more[j]
    requires forall k :: k in more <==> k.1 == d && lo <= k.0 <= hi && k !in observed
    ensures Dense(observed, filled + more, devices + {d}, lo, hi)
  {
  }

  // ---- The whole extraction ----

  datatype Packet = Packet(ts: Option<int>, ends: Endpoints)

  datatype Extraction = Extraction(observed: Counts<string>, filled: seq<Key<string>>, minWindow: int, maxWindow: int)

  /** What packets contribute: one entry per timestamped packet and participating device. */
  function Contributions(g: Grid, packets: seq<Packet>): seq<Key<string>>
    requires ValidGrid(g)
  {
    if packets == [] then []
    else
      var p := packets[|packets| - 1];
      Contributions(g, packets[..|packets| - 1]) + ContributionOf(g, p)
  }

  /** The tracker after these packets, none of them late. */
  function AfterPackets(g: Grid, t: Tracker, packets: seq<Packet>): Tracker
    requires ValidGrid(g)
  {
    if packets == [] then t
    else
      var p := packets[|packets| - 1];
      AfterPacket(g, AfterPackets(g, t, packets[..|packets| - 1]), p.ts, p.ends)
  }

  /** Some packet before the `n`-th is more than `k` windows ahead of it. */
  ghost predicate LateAt(g: Grid, k: nat, packets: seq<Packet>, n: nat)
    requires ValidGrid(g)
  {
    && n < |packets| && packets[n].ts.Some?
    && exists m :: 0 <= m < n && packets[m].ts.Some?
                   && WindowOf(g, packets[n].ts.value) < WindowOf(g, packets[m].ts.value) - k
  }

  /** The greatest window of a timestamped packet, if there is one. */
  ghost predicate GreatestIs(g: Grid, packets: seq<Packet>, greatest: Option<int>)
    requires ValidGrid(g)
  {
    && (forall m | 0 <= m < |packets| && packets[m].ts.Some? ::
          greatest.Some? && WindowOf(g, packets[m].ts.value) <= greatest.value)
    && (greatest.Some? ==>
          exists m :: 0 <= m < |packets| && packets[m].ts.Some? && WindowOf(g, packets[m].ts.value) == greatest.value)
  }

  /** The floor trails the greatest window of the packets by the lateness. */
  ghost predicate Tracked(g: Grid, packets: seq<Packet>, t: Tracker)
    requires ValidGrid(g)
  {
    && GreatestIs(g, packets, t.maxWindow)
    && t.floor == if t.maxWindow.Some? then Some(t.maxWindow.value - t.lateness) else None
  }

  lemma TrackedMore(g: Grid, packets: seq<Packet>, t: Tracker, p: Packet)
    requires ValidGrid(g) && Tracked(g, packets, t)
    ensures Tracked(g, packets + [p], AfterPacket(g, t, p.ts, p.ends)) && AfterPacket(g, t, p.ts, p.ends).lateness == t.lateness
  {
    var all, next := packets + [p], AfterPacket(g, t, p.ts, p.ends);
    assert forall m | 0 <= m < |packets| :: all[m] == packets[m];
    assert all[|packets|] == p;
    if next.maxWindow.Some? {
      if t.maxWindow.Some? && next.maxWindow == t.maxWindow {
        var m :| 0 <= m < |packets| && packets[m].ts.Some? && WindowOf(g, packets[m].ts.value) == t.maxWindow.value;
        assert all[m] == packets[m];
      }
    }
  }

  lemma LateIsUnacceptable(g: Grid, packets: seq<Packet>, n: nat, t: Tracker)
    requires ValidGrid(g) && n < |packets| && packets[n].ts.Some? && Tracked(g, packets[..n], t)
    ensures LateAt(g, t.lateness, packets, n) <==> !Acceptable(t, WindowOf(g, packets[n].ts.value))
  {
    var early := packets[..n];
    assert forall m | 0 <= m < n :: early[m] == packets[m];
    if t.maxWindow.Some? {
      var m :| 0 <= m < n && early[m].ts.Some? && WindowOf(g, early[m].ts.value) == t.maxWindow.value;
      assert packets[m] == early[m];
    }
  }

  /** What one packet contributes. */
  function ContributionOf(g: Grid, p: Packet): seq<Key<string>>
    requires ValidGrid(g)
  {
    if p.ts.Some? then KeysAt(WindowOf(g, p.ts.value), Participants(p.ends)) else []
  }

  /** The tracker and the log after the first `n` packets, none of them late. */
  ghost predicate Fed(g: Grid, maxLatenessNs: nat, packets: seq<Packet>, n: nat, t: Tracker, log: seq<Key<string>>)
    requires ValidGrid(g)
  {
    && n <= |packets|
    && t == AfterPackets(g, NewTracker(maxLatenessNs, g.windowNs), packets[..n])
    && Tracked(g, packets[..n], t) && t.lateness == LatenessWindows(maxLatenessNs, g.windowNs)
    && log == Contributions(g, packets[..n])
    && forall m: nat | m < n :: !LateAt(g, t.lateness, packets, m)
  }

  lemma FedMore(g: Grid, maxLatenessNs: nat, packets: seq<Packet>, n: nat, t: Tracker, log: seq<Key<string>>)
    requires ValidGrid(g) && n < |packets| && Fed(g, maxLatenessNs, packets, n, t, log)
    ensures packets[n].ts.Some? && !Acceptable(t, WindowOf(g, packets[n].ts.value)) <==> LateAt(g, t.lateness, packets, n)
    ensures !LateAt(g, t.lateness, packets, n) ==>
              Fed(g, maxLatenessNs, packets, n + 1, AfterPacket(g, t, packets[n].ts, packets[n].ends),
                  log + ContributionOf(g, packets[n]))
  {
    assert packets[..n + 1][..n] == packets[..n] && packets[..n + 1] == packets[..n] + [packets[n]];
    if packets[n].ts.Some? {
      LateIsUnacceptable(g, packets, n, t);
    }
    TrackedMore(g, packets[..n], t, packets[n]);
  }

  function AtLeastZero(w: Option<int>): (bound: int)
    ensures bound >= 0 && (w.Some? ==> bound >= w.value)
  {
    if w.None? || w.value < 0 then 0 else w.value
  }

  function AtMostZero(w: Option<int>): (bound: int)
    ensures bound <= 0 && (w.Some? ==> bound <= w.value)
  {
    if w.None? || w.value > 0 then 0 else w.value
  }

  method MarkRows(presence: PresenceBitmap, rows: Counts<string>, ghost observed: set<Key<string>>)
    requires presence.Valid() && MarksExactly(presence, observed)
    modifies presence
    ensures presence.Valid() && MarksExactly(presence, observed + rows.Keys)
  {
    var rest := rows.Keys;
    while rest != {}
      invariant rest <= rows.Keys
      invariant presence.Valid() && MarksExactly(presence, observed + (rows.Keys - rest))
      decreases rest
    {
      var k :| k in rest;
      presence.Mark(k.1, k.0);
      rest := rest - {k};
    }
  }

  /** The `n`-th packet, and the rows it makes final. */
  method Feed(grid: Grid, maxLatenessNs: nat, manager: NetworkWindowManager, presence: PresenceBitmap, packets: seq<Packet>,
              n: nat, observed: Counts<string>)
    returns (next: Option<Counts<string>>)
    requires ValidGrid(grid) && n < |packets| && manager.table.Valid() && presence.Valid() && manager.table.grid == grid
    requires observed == manager.table.emitted && MarksExactly(presence, observed.Keys)
    requires Fed(grid, maxLatenessNs, packets, n, manager.table.tracker.State(), manager.table.log)
    modifies manager.table, manager.table.tracker, presence
    ensures manager.table.Valid() && presence.Valid()
    ensures next.None? <==> LateAt(grid, LatenessWindows(maxLatenessNs, grid.windowNs), packets, n)
    ensures next.Some? ==>
              && next.value == manager.table.emitted && MarksExactly(presence, next.value.Keys)
              && Fed(grid, maxLatenessNs, packets, n + 1, manager.table.tracker.State(), manager.table.log)
  {
    FedMore(grid, maxLatenessNs, packets, n, manager.table.tracker.State(), manager.table.log);
    var answer := manager.AddPacket(packets[n].ts, packets[n].ends);
    match answer
    case LateEvent => return None;
    case Rows(rows) =>
      MarkRows(presence, rows, observed.Keys);
      next := Some(observed + rows);
  }

  /**
   One pass over a packet stream. It fails exactly when some packet is more than K windows behind an earlier one.
   Otherwise the observed rows count every contribution exactly once, and every device that was seen or is protected has
   exactly one row for each window from the tracker's least window or 0 to the greatest window of a packet or 0.
   */
  method ExtractNetwork(grid: Grid, maxLatenessNs: nat, packets: seq<Packet>, protected: set<string>)
    returns (result: Option<Extraction>)
    requires ValidGrid(grid)
    ensures result.None? <==> exists n: nat :: LateAt(grid, LatenessWindows(maxLatenessNs, grid.windowNs), packets, n)
    ensures result.Some? ==>
              var x := result.value;
              && Tallies(x.observed, Contributions(grid, packets)) && Total(x.observed) == |Contributions(grid, packets)|
              && (exists greatest :: GreatestIs(grid, packets, greatest) && x.maxWindow == AtLeastZero(greatest))
              && x.minWindow == AtMostZero(AfterPackets(grid, NewTracker(maxLatenessNs, grid.windowNs), packets).minWindow)
              && (forall k | k in x.observed :: k.0 <= x.maxWindow)
              && Dense(x.observed.Keys, x.filled, protected + set k | k in x.observed.Keys :: k.1, x.minWindow, x.maxWindow)
  {
    var manager := new NetworkWindowManager(grid, maxLatenessNs);
    var presence := new PresenceBitmap();
    var observed: Counts<string> := map[];
    for n := 0 to |packets|
      invariant manager.table.Valid() && presence.Valid() && fresh(manager.table) && fresh(manager.table.tracker) && fresh(presence)
      invariant manager.table.grid == grid
      invariant observed == manager.table.emitted && MarksExactly(presence, observed.Keys)
      invariant Fed(grid, maxLatenessNs, packets, n, manager.table.tracker.State(), manager.table.log)
    {
      var next := Feed(grid, maxLatenessNs, manager, presence, packets, n, observed);
      if next.None? {
        return None;
      }
      observed := next.value;
    }
    assert packets[..|packets|] == packets;
    var x := Complete(manager.table, presence, observed, protected);
    result := Some(x);
  }

  /** Emit what is still live, then fill the rectangle. */
  method Complete(table: WindowTable<string>, presence: PresenceBitmap, observed: Counts<string>, protected: set<string>)
    returns (x: Extraction)
    requires table.Valid() && presence.Valid() && MarksExactly(presence, observed.Keys) && observed == table.emitted
    modifies table, presence
    ensures x.observed == table.emitted && Tallies(x.observed, old(table.log)) && Total(x.observed) == |old(table.log)|
    ensures x.maxWindow == AtLeastZero(table.tracker.maxWindow) && x.minWindow == AtMostZero(table.tracker.minWindow)
    ensures forall k | k in x.observed :: k.0 <= x.maxWindow
    ensures Dense(x.observed.Keys, x.filled, protected + set k | k in x.observed.Keys :: k.1, x.minWindow, x.maxWindow)
  {
    var rows := table.Finish();
    MarkRows(presence, rows, observed.Keys);
    var all := observed + rows;
    var lo, hi := AtMostZero(table.tracker.minWindow), AtLeastZero(table.tracker.maxWindow);
    var devices := presence.Devices();
    SeenDevices(presence, all.Keys, devices);
    var filled := FillRectangle(presence, protected + devices, lo, hi, all.Keys);
    x := Extraction(all, filled, lo, hi);
  }

  lemma SeenDevices(presence: PresenceBitmap, observed: set<Key<string>>, devices: set<string>)
    requires MarksExactly(presence, observed)
    requires forall d :: d in devices <==> exists w :: (d, w) in presence.marked
    ensures devices == set k | k in observed :: k.1
  {
    var seen := set k | k in observed :: k.1;
    forall d
      ensures d in devices <==> d in seen
    {
      if d in devices {
        var w :| (d, w) in presence.marked;
        assert (w, d) in observed && (w, d).1 == d;
      }
      if d in seen {
        var k :| k in observed && k.1 == d;
        var w := k.0;
        assert k == (w, d);
        assert (d, w) in presence.marked;
      }
    }
  }
}
