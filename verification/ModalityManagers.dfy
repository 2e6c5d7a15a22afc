/** The network, behaviour and communication window managers over the shared table. */
module ModalityManagers {
  import opened Wrappers
  import opened Watermark
  import opened WindowManagers

  function KeysAt<E(==)>(w: int, es: seq<E>): (ks: seq<Key<E>>)
    ensures |ks| == |es| && forall i | 0 <= i < |es| :: ks[i] == (w, es[i])
  {
    if es == [] then [] else [(w, es[0])] + KeysAt(w, es[1..])
  }

  lemma {:induction false} KeysAtExtends<E>(w: int, es: seq<E>, e: E)
    ensures KeysAt(w, es + [e]) == KeysAt(w, es) + [(w, e)]
  {
  }

  /** Nothing was contributed and nothing emitted. */
  ghost predicate Idle<E(!new)>(emitted: Counts<E>, emitted': Counts<E>, log: seq<Key<E>>, log': seq<Key<E>>) {
    emitted' == emitted && log' == log
  }

  // ---- Network ----

  /** The inventory devices a packet's addresses resolve to. */
  datatype Endpoints = Endpoints(srcByMac: Option<string>, dstByMac: Option<string>, srcByIp: Option<string>, dstByIp: Option<string>)

  /** MAC addresses first; IP addresses only when neither MAC is known; a device talking to itself counts once. */
  function Participants(e: Endpoints): (devices: seq<string>)
    ensures |devices| <= 2 && (|devices| == 2 ==> devices[0] != devices[1])
    ensures forall d :: d in devices <==>
              if e.srcByMac.Some? || e.dstByMac.Some? then e.srcByMac == Some(d) || e.dstByMac == Some(d)
              else e.srcByIp == Some(d) || e.dstByIp == Some(d)
    ensures |devices| == 2 ==> e.srcByMac == Some(devices[0]) || (e.srcByMac.None? && e.srcByIp == Some(devices[0]))
  {
    var byMac := e.srcByMac.Some? || e.dstByMac.Some?;
    var src, dst := if byMac then e.srcByMac else e.srcByIp, if byMac then e.dstByMac else e.dstByIp;
    match (src, dst)
    case (None, None) => []
    case (Some(s), None) => [s]
    case (None, Some(d)) => [d]
    case (Some(s), Some(d)) => if s == d then [d] else [s, d]
  }

  /** The tracker after an accepted packet: windows are only finalized when a device takes part. */
  function AfterPacket(g: Grid, t: Tracker, ts: Option<int>, ends: Endpoints): Tracker
    requires ValidGrid(g)
  {
    if ts.None? then t
    else
      var seen := ObserveEvent(t, ts.value, WindowOf(g, ts.value));
      if Participants(ends) == [] then seen else Due(seen).0
  }

  class NetworkWindowManager {
    const table: WindowTable<string>

    constructor (grid: Grid, maxLatenessNs: nat)
      requires ValidGrid(grid)
      ensures table.Valid() && fresh(table) && fresh(table.tracker) && table.grid == grid
      ensures table.tracker.State() == NewTracker(maxLatenessNs, grid.windowNs)
      ensures table.emitted == map[] && table.log == []
    {
      table := new WindowTable(grid, maxLatenessNs);
    }

    /** One row contribution per participating device; an unresolved packet only moves the watermark. */
    method AddPacket(ts: Option<int>, ends: Endpoints) returns (result: AddResult<string>)
      requires table.Valid()
      modifies table, table.tracker
      ensures table.Valid() && !result.CapacityExceeded?
      ensures ts.None? ==> result == Rows(map[]) && Idle(old(table.emitted), table.emitted, old(table.log), table.log)
      ensures ts.Some? ==>
                (result.LateEvent? <==> !Acceptable(old(table.tracker.State()), WindowOf(table.grid, ts.value)))
      ensures result.LateEvent? ==>
                Idle(old(table.emitted), table.emitted, old(table.log), table.log) && table.tracker.State() == old(table.tracker.State())
      ensures ts.None? || result.LateEvent? || Participants(ends) == [] ==> table.live == old(table.live)
      ensures ts.Some? && result.Rows? && Participants(ends) != [] ==>
                Finalizes(table.tracker.State(), BumpAll(old(table.live), KeysAt(WindowOf(table.grid, ts.value), Participants(ends))),
                          table.live, result.rows)
      ensures ts.Some? && result.Rows? && Participants(ends) == [] ==> result.rows == map[]
      ensures result.Rows? ==> table.tracker.State() == AfterPacket(table.grid, old(table.tracker.State()), ts, ends)
      ensures ts.Some? && result.Rows? ==>
                Moves(old(table.emitted), table.emitted, old(table.log), table.log, result.rows,
                      KeysAt(WindowOf(table.grid, ts.value), Participants(ends)))
    {
      if ts.None? {
        return Rows(map[]);
      }
      var w := WindowOf(table.grid, ts.value);
      var ok := table.Admit(ts.value, w);
      if !ok {
        return LateEvent;
      }
      var devices := Participants(ends);
      if devices == [] {
        return Rows(map[]);
      }
      CountAll(w, devices);
      var rows := table.FinalizeDue();
      assert table.log + [] == table.log;
      result := Rows(rows);
    }

    /** Count the window once for each device. */
    method CountAll(w: int, devices: seq<string>)
      requires table.Valid() && Spans(table.tracker.State(), w) && forall e: string :: (w, e) !in table.emitted
      modifies table
      ensures table.Valid() && table.emitted == old(table.emitted)
      ensures table.log == old(table.log) + KeysAt(w, devices)
      ensures table.live == BumpAll(old(table.live), KeysAt(w, devices))
    {
      ghost var emitted, log, live := table.emitted, table.log, table.live;
      for i := 0 to |devices|
        invariant table.Valid() && table.emitted == emitted
        invariant table.log == log + KeysAt(w, devices[..i])
        invariant table.live == BumpAll(live, KeysAt(w, devices[..i]))
      {
        KeysAtExtends(w, devices[..i], devices[i]);
        BumpAllExtends(live, KeysAt(w, devices[..i]), (w, devices[i]));
        assert devices[..i + 1] == devices[..i] + [devices[i]];
        table.Count((w, devices[i]));
        assert table.log == log + (KeysAt(w, devices[..i]) + [(w, devices[i])]);
      }
      assert devices[..|devices|] == devices;
    }
  }

  // ---- Behaviour ----

  class BehaviorWindowManager {
    const table: WindowTable<string>

    constructor (grid: Grid, maxLatenessNs: nat)
      requires ValidGrid(grid)
      ensures table.Valid() && fresh(table) && fresh(table.tracker) && table.grid == grid
      ensures table.tracker.State() == NewTracker(maxLatenessNs, grid.windowNs)
      ensures table.emitted == map[] && table.log == []
    {
      table := new WindowTable(grid, maxLatenessNs);
    }

    /** `device` is the resolved source, if it has a supported behaviour profile; other events leave no trace. */
    method AddEvent(ts: int, device: Option<string>) returns (result: AddResult<string>)
      requires table.Valid()
      modifies table, table.tracker
      ensures table.Valid() && !result.CapacityExceeded?
      ensures device.None? ==>
                && result == Rows(map[]) && table.tracker.State() == old(table.tracker.State())
                && Idle(old(table.emitted), table.emitted, old(table.log), table.log)
      ensures device.Some? ==>
                (result.LateEvent? <==> !Acceptable(old(table.tracker.State()), WindowOf(table.grid, ts)))
      ensures result.LateEvent? ==>
                Idle(old(table.emitted), table.emitted, old(table.log), table.log) && table.tracker.State() == old(table.tracker.State())
      ensures !(device.Some? && result.Rows?) ==> table.live == old(table.live)
      ensures device.Some? && result.Rows? ==>
                && table.tracker.State() == Due(ObserveEvent(old(table.tracker.State()), ts, WindowOf(table.grid, ts))).0
                && Finalizes(table.tracker.State(), Bump(old(table.live), (WindowOf(table.grid, ts), device.value)), table.live,
                             result.rows)
      ensures device.Some? && result.Rows? ==>
                Moves(old(table.emitted), table.emitted, old(table.log), table.log, result.rows,
                      [(WindowOf(table.grid, ts), device.value)])
    {
      if device.None? {
        return Rows(map[]);
      }
      var w := WindowOf(table.grid, ts);
      var ok := table.Admit(ts, w);
      if !ok {
        return LateEvent;
      }
      table.Count((w, device.value));
      var rows := table.FinalizeDue();
      assert [(w, device.value)] + [] == [(w, device.value)];
      result := Rows(rows);
    }
  }

  // ---- Communication ----

  /** A directed edge between two resolved endpoints. */
  type Edge = (string, string)

  class CommunicationWindowManager {
    const table: WindowTable<Edge>
    const capacity: nat

    constructor (grid: Grid, maxLatenessNs: nat, capacity: int)
      requires ValidGrid(grid)
      ensures table.Valid() && fresh(table) && fresh(table.tracker) && table.grid == grid
      ensures table.tracker.State() == NewTracker(maxLatenessNs, grid.windowNs)
      ensures table.emitted == map[] && table.log == []
      ensures this.capacity == if capacity < 1 then 1 else capacity
    {
      table := new WindowTable(grid, maxLatenessNs);
      this.capacity := if capacity < 1 then 1 else capacity;
    }

    /** A new edge beyond the capacity fails the extraction instead of being dropped. */
    method AddPacket(ts: Option<int>, edge: Edge) returns (result: AddResult<Edge>)
      requires table.Valid() && |table.live| <= capacity
      modifies table, table.tracker
      ensures table.Valid() && |table.live| <= capacity
      ensures ts.None? ==> result == Rows(map[]) && Idle(old(table.emitted), table.emitted, old(table.log), table.log)
      ensures ts.Some? ==>
                (result.LateEvent? <==> !Acceptable(old(table.tracker.State()), WindowOf(table.grid, ts.value)))
      ensures ts.Some? && !result.LateEvent? ==>
                (result.CapacityExceeded? <==>
                   (WindowOf(table.grid, ts.value), edge) !in old(table.live) && |old(table.live)| >= capacity)
      ensures !result.Rows? ==> Idle(old(table.emitted), table.emitted, old(table.log), table.log)
      ensures ts.None? || !result.Rows? ==> table.live == old(table.live)
      ensures ts.None? || result.LateEvent? ==> table.tracker.State() == old(table.tracker.State())
      ensures ts.Some? && result.CapacityExceeded? ==>
                table.tracker.State() == ObserveEvent(old(table.tracker.State()), ts.value, WindowOf(table.grid, ts.value))
      ensures ts.Some? && result.Rows? ==>
                && table.tracker.State() == Due(ObserveEvent(old(table.tracker.State()), ts.value, WindowOf(table.grid, ts.value))).0
                && Finalizes(table.tracker.State(), Bump(old(table.live), (WindowOf(table.grid, ts.value), edge)), table.live,
                             result.rows)
      ensures ts.Some? && result.Rows? ==>
                Moves(old(table.emitted), table.emitted, old(table.log), table.log, result.rows,
                      [(WindowOf(table.grid, ts.value), edge)])
    {
      if ts.None? {
        return Rows(map[]);
      }
      var w := WindowOf(table.grid, ts.value);
      var ok := table.Admit(ts.value, w);
      if !ok {
        return LateEvent;
      }
      var key := (w, edge);
      if key !in table.live && |table.live| >= capacity {
        return CapacityExceeded;
      }
      var rows := Contribute(key);
      result := Rows(rows);
    }

    method Contribute(key: Key<Edge>) returns (rows: Counts<Edge>)
      requires table.Valid() && (key in table.live || |table.live| < capacity) && |table.live| <= capacity
      requires Spans(table.tracker.State(), key.0) && key !in table.emitted
      modifies table, table.tracker
      ensures table.Valid() && |table.live| <= capacity
      ensures Moves(old(table.emitted), table.emitted, old(table.log), table.log, rows, [key])
      ensures table.tracker.State() == Due(old(table.tracker.State())).0
      ensures Finalizes(table.tracker.State(), Bump(old(table.live), key), table.live, rows)
    {
      BumpSize(table.live, key);
      table.Count(key);
      rows := table.FinalizeDue();
      assert table.log + [] == table.log;
    }
  }

  lemma BumpSize<E(!new)>(m: Counts<E>, k: Key<E>)
    ensures |Bump(m, k)| == |m| + if k in m then 0 else 1
  {
  }
}
