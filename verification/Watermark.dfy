/** The shared window grid and the maximum-lateness watermark that decides when windows are final. */
module Watermark {
  import opened Wrappers

  // ---- The grid ----

  /** Integer nanoseconds; `tolerance` is the clock alignment tolerance before the scenario start. */
  datatype Grid = Grid(startNs: int, windowNs: int, tolerance: int)

  predicate ValidGrid(g: Grid) {
    g.windowNs >= 1 && g.tolerance >= 0
  }

  /** Floor division. */
  function RawWindow(g: Grid, ts: int): int
    requires ValidGrid(g)
  {
    (ts - g.startNs) / g.windowNs
  }

  datatype Disposition = InGrid | PrestartSnapped | PrestartNegative

  function Assign(g: Grid, ts: int): (int, Disposition)
    requires ValidGrid(g)
  {
    var raw := RawWindow(g, ts);
    if raw >= 0 then (raw, InGrid)
    else if 0 <= g.startNs - ts <= g.tolerance then (0, PrestartSnapped)
    else (raw, PrestartNegative)
  }

  function WindowOf(g: Grid, ts: int): int
    requires ValidGrid(g)
  {
    Assign(g, ts).0
  }

  function WindowStart(g: Grid, w: int): int {
    g.startNs + w * g.windowNs
  }

  /** From the start on an event is in the grid; within the tolerance before it, it is snapped to window 0. */
  lemma AssignCases(g: Grid, ts: int)
    requires ValidGrid(g)
    ensures Assign(g, ts).1.InGrid? <==> ts >= g.startNs
    ensures Assign(g, ts).1.PrestartSnapped? <==> g.startNs - g.tolerance <= ts < g.startNs
    ensures Assign(g, ts).1.PrestartSnapped? ==> WindowOf(g, ts) == 0
    ensures Assign(g, ts).1.PrestartNegative? <==> WindowOf(g, ts) < 0
  {
    StartIsZero(g);
    if ts >= g.startNs {
      RawMonotone(g, g.startNs, ts);
    }
  }

  /** In-grid and negative events lie within the bounds of their window. */
  lemma WindowContains(g: Grid, ts: int)
    requires ValidGrid(g) && !Assign(g, ts).1.PrestartSnapped?
    ensures WindowStart(g, WindowOf(g, ts)) <= ts < WindowStart(g, WindowOf(g, ts) + 1)
  {
    var d, w := ts - g.startNs, g.windowNs;
    assert d == w * (d / w) + d % w;
    assert (d / w + 1) * w == w * (d / w) + w;
  }

  lemma RawMonotone(g: Grid, a: int, b: int)
    requires ValidGrid(g) && a <= b
    ensures RawWindow(g, a) <= RawWindow(g, b)
  {
    DivMonotone(a - g.startNs, b - g.startNs, g.windowNs);
  }

  lemma DivMonotone(a: int, b: int, w: int)
    requires w >= 1 && a <= b
    ensures a / w <= b / w
  {
    QuotientBounds(a, w);
    QuotientBounds(b, w);
    Above(b / w, a / w, w);
  }

  lemma QuotientBounds(a: int, w: int)
    requires w >= 1
    ensures (a / w) * w <= a < (a / w) * w + w
  {
    assert a == w * (a / w) + a % w;
  }

  /** An integer whose multiple reaches less than one step beyond another's is not larger. */
  lemma Above(p: int, q: int, w: int)
    requires w >= 1
    ensures q > p ==> q * w >= p * w + w
  {
    NonNegativeProduct(q - p - 1, w);
    assert (q - p - 1) * w == q * w - p * w - w;
  }

  lemma NonNegativeProduct(a: int, w: int)
    requires w >= 1
    ensures a >= 0 ==> a * w >= 0
  {
  }

  lemma AssignMonotone(g: Grid, a: int, b: int)
    requires ValidGrid(g) && a <= b
    ensures WindowOf(g, a) <= WindowOf(g, b)
  {
    RawMonotone(g, a, b);
    StartIsZero(g);
    if b >= g.startNs {
      RawMonotone(g, g.startNs, b);
    }
  }

  lemma StartIsZero(g: Grid)
    requires ValidGrid(g)
    ensures RawWindow(g, g.startNs) == 0
    ensures forall ts | ts < g.startNs :: RawWindow(g, ts) < 0
  {
    forall ts | ts < g.startNs
      ensures RawWindow(g, ts) < 0
    {
      QuotientBounds(ts - g.startNs, g.windowNs);
      NonNegativeProduct(RawWindow(g, ts), g.windowNs);
    }
  }

  // ---- The tracker ----

  datatype Tracker = Tracker(
    lateness: nat,
    maxWindow: Option<int>,
    minWindow: Option<int>,
    floor: Option<int>,
    maxTs: Option<int>,
    maxLateness: int)

  /** ceil(L / w) */
  function LatenessWindows(maxLatenessNs: nat, windowNs: int): nat
    requires windowNs >= 1
  {
    -((0 - maxLatenessNs) / windowNs)
  }

  function NewTracker(maxLatenessNs: nat, windowNs: int): Tracker
    requires windowNs >= 1
  {
    Tracker(LatenessWindows(maxLatenessNs, windowNs), None, None, None, None, 0)
  }

  predicate Acceptable(t: Tracker, w: int) {
    t.floor.None? || w >= t.floor.value
  }

  function Larger(a: Option<int>, b: int): int {
    if a.None? || b > a.value then b else a.value
  }

  function Smaller(a: Option<int>, b: int): int {
    if a.None? || b < a.value then b else a.value
  }

  function ObserveEvent(t: Tracker, ts: int, w: int): Tracker {
    var maxWindow := Larger(t.maxWindow, w);
    var maxTs := Larger(t.maxTs, ts);
    Tracker(
      t.lateness,
      Some(maxWindow),
      Some(Smaller(t.minWindow, w)),
      Some(Larger(t.floor, maxWindow - t.lateness)),
      Some(maxTs),
      if maxTs - ts > t.maxLateness then maxTs - ts else t.maxLateness)
  }

  /** The windows to finalize now, and the tracker once they are. */
  function Due(t: Tracker): (Tracker, Option<(int, int)>) {
    if t.floor.None? || t.minWindow.None? then (t, None)
    else if t.floor.value - 1 < t.minWindow.value then (t, None)
    else (t.(minWindow := t.floor), Some((t.minWindow.value, t.floor.value - 1)))
  }

  class WatermarkTracker {
    var lateness: nat
    var maxWindow: Option<int>
    var minWindow: Option<int>
    var floor: Option<int>
    var maxTs: Option<int>
    var maxLateness: int

    ghost function State(): Tracker
      reads this
    {
      Tracker(lateness, maxWindow, minWindow, floor, maxTs, maxLateness)
    }

    constructor (windowNs: int, maxLatenessNs: nat)
      requires windowNs >= 1
      ensures State() == NewTracker(maxLatenessNs, windowNs)
    {
      lateness := LatenessWindows(maxLatenessNs, windowNs);
      maxWindow, minWindow, floor, maxTs, maxLateness := None, None, None, None, 0;
    }

    method EnsureAcceptable(w: int) returns (ok: bool)
      ensures ok == Acceptable(State(), w)
    {
      ok := !(floor.Some? && w < floor.value);
    }

    method Observe(ts: int, w: int) returns (advanced: bool)
      modifies this
      ensures State() == ObserveEvent(old(State()), ts, w)
      ensures advanced == (floor != old(floor))
    {
      if maxWindow.None? || w > maxWindow.value {
        maxWindow := Some(w);
      }
      if minWindow.None? || w < minWindow.value {
        minWindow := Some(w);
      }
      if maxTs.None? || ts > maxTs.value {
        maxTs := Some(ts);
      }
      if maxTs.value - ts > maxLateness {
        maxLateness := maxTs.value - ts;
      }
      var next := maxWindow.value - lateness;
      advanced := false;
      if floor.None? || next > floor.value {
        advanced := true;
        floor := Some(next);
      }
    }

    method DueWindows() returns (due: Option<(int, int)>)
      modifies this
      ensures (State(), due) == Due(old(State()))
    {
      if floor.None? || minWindow.None? {
        return None;
      }
      var lo, hi := minWindow.value, floor.value - 1;
      if hi < lo {
        return None;
      }
      minWindow := floor;
      return Some((lo, hi));
    }
  }

  // ---- What every run of accepted events establishes ----

  /** One accepted event, or one finalization. */
  datatype Act = Accept(ts: int) | Finalize

  function Step(g: Grid, t: Tracker, a: Act): Tracker
    requires ValidGrid(g)
  {
    match a
    case Accept(ts) => ObserveEvent(t, ts, WindowOf(g, ts))
    case Finalize => Due(t).0
  }

  function RunTracker(g: Grid, t: Tracker, acts: seq<Act>): Tracker
    requires ValidGrid(g)
  {
    if acts == [] then t else Step(g, RunTracker(g, t, acts[..|acts| - 1]), acts[|acts| - 1])
  }

  /** The floor is exactly K below the largest window, and the largest window belongs to the largest timestamp. */
  ghost predicate TrackerInv(g: Grid, t: Tracker)
    requires ValidGrid(g)
  {
    && (t.maxWindow.Some? <==> t.floor.Some?) && (t.maxTs.Some? <==> t.floor.Some?) && (t.minWindow.Some? <==> t.floor.Some?)
    && (t.floor.Some? ==>
          && t.floor.value == t.maxWindow.value - t.lateness
          && t.maxWindow.value == WindowOf(g, t.maxTs.value))
  }

  lemma StepKeepsTracker(g: Grid, t: Tracker, a: Act)
    requires ValidGrid(g) && TrackerInv(g, t)
    ensures TrackerInv(g, Step(g, t, a)) && Step(g, t, a).lateness == t.lateness
    ensures t.floor.Some? ==> Step(g, t, a).floor.Some? && t.floor.value <= Step(g, t, a).floor.value
  {
    if a.Accept? && t.maxTs.Some? {
      if a.ts <= t.maxTs.value {
        AssignMonotone(g, a.ts, t.maxTs.value);
      } else {
        AssignMonotone(g, t.maxTs.value, a.ts);
      }
    }
  }

  lemma {:induction false} RunKeepsTracker(g: Grid, maxLatenessNs: nat, acts: seq<Act>)
    requires ValidGrid(g)
    ensures var t := RunTracker(g, NewTracker(maxLatenessNs, g.windowNs), acts);
            TrackerInv(g, t) && t.lateness == LatenessWindows(maxLatenessNs, g.windowNs)
  {
    if acts != [] {
      RunKeepsTracker(g, maxLatenessNs, acts[..|acts| - 1]);
      StepKeepsTracker(g, RunTracker(g, NewTracker(maxLatenessNs, g.windowNs), acts[..|acts| - 1]), acts[|acts| - 1]);
    }
  }

  lemma LatenessBounds(maxLatenessNs: nat, windowNs: int)
    requires windowNs >= 1
    ensures var k := LatenessWindows(maxLatenessNs, windowNs);
            (k - 1) * windowNs < maxLatenessNs <= k * windowNs
  {
    var q := (0 - maxLatenessNs) / windowNs;
    QuotientBounds(0 - maxLatenessNs, windowNs);
    assert (-q) * windowNs == -(q * windowNs);
    assert (-q - 1) * windowNs == -(q * windowNs) - windowNs;
  }

  /** When the newest timestamp `m` leaves every event at most `lateness` behind it acceptable. */
  predicate Lenient(g: Grid, m: int, lateness: nat, k: nat) {
    || m >= g.startNs
    || m < g.startNs - g.tolerance
    || m - lateness >= g.startNs - g.tolerance
    || m - lateness >= g.startNs - k * g.windowNs
  }

  /**
   Every event at most L behind the newest is accepted if and only if the newest is at or after the start, or too early
   to be snapped, or L behind it is still snapped, or at most K windows before the start.
   */
  lemma WithinLatenessIff(g: Grid, maxLatenessNs: nat, acts: seq<Act>)
    requires ValidGrid(g)
    requires RunTracker(g, NewTracker(maxLatenessNs, g.windowNs), acts).maxTs.Some?
    ensures var t := RunTracker(g, NewTracker(maxLatenessNs, g.windowNs), acts);
            (forall ts | ts >= t.maxTs.value - maxLatenessNs :: Acceptable(t, WindowOf(g, ts))) <==>
            Lenient(g, t.maxTs.value, maxLatenessNs, t.lateness)
  {
    var t := RunTracker(g, NewTracker(maxLatenessNs, g.windowNs), acts);
    RunKeepsTracker(g, maxLatenessNs, acts);
    LatenessBounds(maxLatenessNs, g.windowNs);
    var oldest := t.maxTs.value - maxLatenessNs;
    forall ts | ts >= oldest
      ensures WindowOf(g, oldest) <= WindowOf(g, ts)
    {
      AssignMonotone(g, oldest, ts);
    }
    assert Acceptable(t, WindowOf(g, oldest)) <==> WindowOf(g, oldest) >= t.floor.value;
    OldestIff(g, t.maxTs.value, maxLatenessNs, t.lateness);
  }

  /** The oldest event within the lateness is at most K windows behind the newest exactly then. */
  lemma OldestIff(g: Grid, m: int, lateness: nat, k: nat)
    requires ValidGrid(g) && lateness <= k * g.windowNs
    ensures WindowOf(g, m - lateness) >= WindowOf(g, m) - k <==> Lenient(g, m, lateness, k)
  {
    StartIsZero(g);
    WindowsApart(g, m - lateness, m, k);
    WindowsBeforeStart(g, m - lateness, k);
    AssignMonotone(g, m - lateness, m);
    if m >= g.startNs {
      RawMonotone(g, g.startNs, m);
    }
  }

  lemma WindowsBeforeStart(g: Grid, ts: int, k: nat)
    requires ValidGrid(g)
    ensures RawWindow(g, ts) + k >= 0 <==> ts >= g.startNs - k * g.windowNs
  {
    QuotientBounds(ts - g.startNs, g.windowNs);
    var raw := RawWindow(g, ts);
    assert (0 - k) * g.windowNs == 0 - k * g.windowNs;
    Above(raw, 0 - k, g.windowNs);
    if raw + k >= 0 {
      NonNegativeProduct(raw + k, g.windowNs);
      assert (raw + k) * g.windowNs == raw * g.windowNs + k * g.windowNs;
    }
  }

  /** Once an event at or after the scenario start was seen, lateness up to L is always accepted. */
  lemma WithinLatenessIsAccepted(g: Grid, maxLatenessNs: nat, acts: seq<Act>, ts: int)
    requires ValidGrid(g)
    requires var t := RunTracker(g, NewTracker(maxLatenessNs, g.windowNs), acts);
             t.maxTs.Some? && t.maxTs.value >= g.startNs && ts >= t.maxTs.value - maxLatenessNs
    ensures Acceptable(RunTracker(g, NewTracker(maxLatenessNs, g.windowNs), acts), WindowOf(g, ts))
  {
    var t := RunTracker(g, NewTracker(maxLatenessNs, g.windowNs), acts);
    RunKeepsTracker(g, maxLatenessNs, acts);
    RawMonotone(g, g.startNs, t.maxTs.value);
    StartIsZero(g);
    LatenessBounds(maxLatenessNs, g.windowNs);
    WindowsApart(g, ts, t.maxTs.value, t.lateness);
  }

  /** Events at most k windows' length apart are at most k windows apart. */
  lemma WindowsApart(g: Grid, a: int, b: int, k: nat)
    requires ValidGrid(g) && b - a <= k * g.windowNs
    ensures RawWindow(g, b) - k <= RawWindow(g, a)
  {
    QuotientBounds(a - g.startNs, g.windowNs);
    QuotientBounds(b - g.startNs, g.windowNs);
    var p, q := RawWindow(g, a) + k, RawWindow(g, b);
    assert p * g.windowNs == RawWindow(g, a) * g.windowNs + k * g.windowNs;
    Above(p, q, g.windowNs);
  }

  /** An in-grid event K + 1 windows' length behind is always refused. */
  lemma FarBehindIsRefused(g: Grid, maxLatenessNs: nat, acts: seq<Act>, ts: int)
    requires ValidGrid(g) && Assign(g, ts).1.InGrid?
    requires var t := RunTracker(g, NewTracker(maxLatenessNs, g.windowNs), acts);
             t.maxTs.Some? && ts <= t.maxTs.value - (t.lateness + 1) * g.windowNs
    ensures !Acceptable(RunTracker(g, NewTracker(maxLatenessNs, g.windowNs), acts), WindowOf(g, ts))
  {
    var t := RunTracker(g, NewTracker(maxLatenessNs, g.windowNs), acts);
    var k := t.lateness + 1;
    RunKeepsTracker(g, maxLatenessNs, acts);
    RawMonotone(g, ts, ts + k * g.windowNs);
    RawMonotone(g, ts + k * g.windowNs, t.maxTs.value);
    ShiftedWindow(g, ts, k);
  }

  lemma ShiftedWindow(g: Grid, ts: int, k: nat)
    requires ValidGrid(g)
    ensures RawWindow(g, ts + k * g.windowNs) == RawWindow(g, ts) + k
  {
    QuotientBounds(ts - g.startNs, g.windowNs);
    QuotientBounds(ts + k * g.windowNs - g.startNs, g.windowNs);
    var p, q := RawWindow(g, ts) + k, RawWindow(g, ts + k * g.windowNs);
    assert p * g.windowNs == RawWindow(g, ts) * g.windowNs + k * g.windowNs;
    Above(p, q, g.windowNs);
    Above(q, p, g.windowNs);
  }

  /** Before the start the bound can fail: a snapped event lifts the floor, and an event within L is refused. */
  lemma SnappedEventBreaksTheBound()
    ensures var g := Grid(0, 2, 1);
            var t := RunTracker(g, NewTracker(4, g.windowNs), [Accept(-1)]);
            t.maxTs == Some(-1) && -5 >= -1 - 4 && !Acceptable(t, WindowOf(g, -5))
  {
    var g := Grid(0, 2, 1);
    var acts := [Accept(-1)];
    assert acts[..0] == [];
    assert RunTracker(g, NewTracker(4, g.windowNs), acts) == Step(g, NewTracker(4, g.windowNs), Accept(-1));
  }
}
