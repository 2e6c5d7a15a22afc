/** Risk propagation over the device graph: a queue-based search, and the closed form it computes. */
module Propagation {
  import opened Wrappers

  // ---- Levels: what a source of some risk pushes over d hops ----

  datatype Params = Params(weight: real, decay: real, maxHops: nat)

  const CUTOFF: real := 0.000000001

  function Pow(x: real, n: nat): real {
    if n == 0 then 1.0 else x * Pow(x, n - 1)
  }

  /** What a risk becomes over one more hop. */
  function Push(risk: real, weight: real, decay: real): real {
    risk * weight * decay
  }

  function Level(p: Params, risk: real, d: nat): real {
    if d == 0 then risk else Push(Level(p, risk, d - 1), p.weight, Pow(p.decay, d))
  }

  /** Every push on the way to hop `d` was above the cutoff. */
  predicate Alive(p: Params, risk: real, d: nat) {
    d == 0 || (Alive(p, risk, d - 1) && Level(p, risk, d) > CUTOFF)
  }

  lemma {:induction false} AliveEarlier(p: Params, risk: real, k: nat, d: nat)
    requires k <= d && Alive(p, risk, d)
    ensures Alive(p, risk, k)
    decreases d
  {
    if k < d {
      AliveEarlier(p, risk, k, d - 1);
    }
  }

  function Triangle(d: nat): nat {
    if d == 0 then 0 else Triangle(d - 1) + d
  }

  lemma {:induction false} TriangleIsHalfSquare(d: nat)
    ensures Triangle(d) == d * (d + 1) / 2
  {
    if d > 0 {
      TriangleIsHalfSquare(d - 1);
    }
  }

  lemma {:induction false} PowAdd(x: real, m: nat, n: nat)
    ensures Pow(x, m) * Pow(x, n) == Pow(x, m + n)
  {
    if m > 0 {
      PowAdd(x, m - 1, n);
      assert Pow(x, m) * Pow(x, n) == x * (Pow(x, m - 1) * Pow(x, n));
    }
  }

  lemma {:induction false} LevelTriangle(p: Params, risk: real, d: nat)
    ensures Level(p, risk, d) == risk * Pow(p.weight, d) * Pow(p.decay, Triangle(d))
  {
    if d > 0 {
      LevelTriangle(p, risk, d - 1);
      var a, b, c := Pow(p.weight, d - 1), Pow(p.decay, Triangle(d - 1)), Pow(p.decay, d);
      PowAdd(p.decay, Triangle(d - 1), d);
      Regroup(Level(p, risk, d - 1), risk, a, b, p.weight, c);
    }
  }

  /** risk * w^d * decay^(d(d+1)/2) */
  lemma LevelClosedForm(p: Params, risk: real, d: nat)
    ensures Level(p, risk, d) == risk * Pow(p.weight, d) * Pow(p.decay, d * (d + 1) / 2)
  {
    TriangleIsHalfSquare(d);
    LevelTriangle(p, risk, d);
  }

  lemma Regroup(level: real, risk: real, a: real, b: real, w: real, c: real)
    requires level == risk * a * b
    ensures Push(level, w, c) == risk * (w * a) * (b * c)
  {
    assert (risk * a * b) * w * c == (risk * a) * (b * (w * c));
    assert b * (w * c) == w * (b * c);
    assert (risk * a) * (w * (b * c)) == ((risk * a) * w) * (b * c);
    assert (risk * a) * w == risk * (w * a);
  }

  predicate Unit(x: real) { 0.0 <= x <= 1.0 }

  lemma {:induction false} PowUnit(x: real, n: nat)
    requires Unit(x)
    ensures Unit(Pow(x, n))
  {
    if n > 0 {
      PowUnit(x, n - 1);
      ProductOfUnits(x, Pow(x, n - 1));
    }
  }

  lemma ProductOfUnits(x: real, y: real)
    requires Unit(x) && Unit(y)
    ensures Unit(x * y) && x * y <= x && x * y <= y
  {
    assert x * y <= x * 1.0;
    assert x * y <= 1.0 * y;
  }

  /** With weight and decay in [0,1] levels only fall, so the last one decides. */
  lemma {:induction false} AliveIsAboveCutoff(p: Params, risk: real, d: nat)
    requires Unit(p.weight) && Unit(p.decay) && risk >= 0.0
    ensures 0.0 <= Level(p, risk, d) <= risk
    ensures d > 0 ==> Level(p, risk, d) <= Level(p, risk, d - 1)
    ensures d > 0 ==> (Alive(p, risk, d) <==> Level(p, risk, d) > CUTOFF)
  {
    if d > 0 {
      AliveIsAboveCutoff(p, risk, d - 1);
      PowUnit(p.decay, d);
      Shrinks(Level(p, risk, d - 1), p.weight, Pow(p.decay, d));
    }
  }

  lemma Shrinks(r: real, w: real, c: real)
    requires r >= 0.0 && Unit(w) && Unit(c)
    ensures 0.0 <= Push(r, w, c) <= r
  {
    assert 0.0 <= r * w <= r * 1.0;
    assert 0.0 <= (r * w) * c <= (r * w) * 1.0;
  }

  lemma {:induction false} LevelMonotone(p: Params, r: real, s: real, d: nat)
    requires p.weight >= 0.0 && p.decay >= 0.0 && r <= s
    ensures Level(p, r, d) <= Level(p, s, d)
    ensures Alive(p, r, d) ==> Alive(p, s, d)
  {
    if d > 0 {
      LevelMonotone(p, r, s, d - 1);
      PowNonNegative(p.decay, d);
      Scale(Level(p, r, d - 1), Level(p, s, d - 1), p.weight, Pow(p.decay, d));
    }
  }

  lemma {:induction false} PowNonNegative(x: real, n: nat)
    requires x >= 0.0
    ensures Pow(x, n) >= 0.0
  {
    if n > 0 {
      PowNonNegative(x, n - 1);
    }
  }

  lemma Scale(a: real, b: real, w: real, c: real)
    requires a <= b && w >= 0.0 && c >= 0.0
    ensures Push(a, w, c) <= Push(b, w, c)
  {
    assert a * w <= b * w;
  }

  // ---- The guarded part of the graph ----

  /** `adjacent` lists all neighbours, repetitions included; `guarded` are the protected devices. */
  datatype Net = Net(adjacent: map<string, seq<string>>, guarded: set<string>)

  predicate Covers(net: Net) {
    net.guarded <= net.adjacent.Keys
  }

  predicate Edge(net: Net, u: string, v: string) {
    u in net.adjacent && v in net.adjacent[u] && v in net.guarded
  }

  /** A walk of guarded devices from `p[0]`. */
  ghost predicate Walk(net: Net, p: seq<string>) {
    p != [] && forall i, j | 0 <= i < j < |p| && j == i + 1 :: Edge(net, p[i], p[j])
  }

  /** Some walk of `d` hops leads from `src` to `v`. */
  ghost predicate Reaches(net: Net, src: string, v: string, d: nat) {
    exists p: seq<string> :: Walk(net, p) && |p| == d + 1 && p[0] == src && p[d] == v
  }

  /** The shortest walk has `d` hops. */
  ghost predicate AtDistance(net: Net, src: string, v: string, d: nat) {
    Reaches(net, src, v, d) && forall k: nat | k < d :: !Reaches(net, src, v, k)
  }

  lemma ReachesSelf(net: Net, src: string)
    ensures AtDistance(net, src, src, 0)
  {
    var p := [src];
    assert Walk(net, p) && p[0] == src;
  }

  lemma NoHops(net: Net, src: string, v: string)
    ensures Reaches(net, src, v, 0) <==> v == src
  {
    ReachesSelf(net, src);
  }

  lemma OneHopMore(net: Net, src: string, u: string, v: string, d: nat)
    requires Reaches(net, src, u, d) && Edge(net, u, v)
    ensures Reaches(net, src, v, d + 1)
  {
    var p: seq<string> :| Walk(net, p) && |p| == d + 1 && p[0] == src && p[d] == u;
    var q := p + [v];
    assert Walk(net, q) && q[0] == src && q[d + 1] == v;
  }

  /** On a shortest walk the last device but one is one hop nearer. */
  lemma NearerNeighbour(net: Net, src: string, v: string, d: nat) returns (u: string)
    requires AtDistance(net, src, v, d) && d >= 1
    ensures AtDistance(net, src, u, d - 1) && Edge(net, u, v)
  {
    var p: seq<string> :| Walk(net, p) && |p| == d + 1 && p[0] == src && p[d] == v;
    u := p[d - 1];
    var q := p[..d];
    assert Walk(net, q) && |q| == d && q[0] == src && q[d - 1] == u;
    forall k: nat | k < d - 1
      ensures !Reaches(net, src, u, k)
    {
      if Reaches(net, src, u, k) {
        OneHopMore(net, src, u, v, k);
        assert false;
      }
    }
  }

  lemma DistanceUnique(net: Net, src: string, v: string, d: nat, e: nat)
    requires AtDistance(net, src, v, d) && AtDistance(net, src, v, e)
    ensures d == e
  {
  }

  /** What `src` contributes to `v`. */
  ghost predicate Pushes(net: Net, p: Params, src: string, risk: real, v: string, d: nat) {
    1 <= d <= p.maxHops && AtDistance(net, src, v, d) && Alive(p, risk, d)
  }

  ghost function Contribution(net: Net, p: Params, src: string, risk: real, v: string): real {
    if exists d: nat :: Pushes(net, p, src, risk, v, d) then
      var d: nat :| Pushes(net, p, src, risk, v, d);
      Level(p, risk, d)
    else 0.0
  }

  lemma ContributionAt(net: Net, p: Params, src: string, risk: real, v: string, d: nat)
    requires Pushes(net, p, src, risk, v, d)
    ensures Contribution(net, p, src, risk, v) == Level(p, risk, d) > CUTOFF
  {
  }

  // ---- One source: the search ----

  datatype Visit = Visit(node: string, risk: real, hops: nat)

  /** The devices the search owes a visit within `d` hops. */
  ghost predicate Due(net: Net, p: Params, src: string, risk: real, v: string, d: nat) {
    AtDistance(net, src, v, d) && d <= p.maxHops && Alive(p, risk, d)
  }

  /** `depth` records when each visited device was reached. */
  ghost predicate Searched(net: Net, p: Params, src: string, risk: real, depth: map<string, nat>) {
    && src in depth && depth[src] == 0
    && (forall v | v in depth :: Due(net, p, src, risk, v, depth[v]))
  }

  ghost predicate Queued(p: Params, risk: real, depth: map<string, nat>, queue: seq<Visit>) {
    && (forall i | 0 <= i < |queue| ::
          && queue[i].node in depth && depth[queue[i].node] == queue[i].hops
          && queue[i].risk == Level(p, risk, queue[i].hops))
    && (forall i, j | 0 <= i < j < |queue| :: queue[i].hops <= queue[j].hops <= queue[i].hops + 1)
  }

  ghost predicate Waiting(queue: seq<Visit>, u: string) {
    exists i :: 0 <= i < |queue| && queue[i].node == u
  }

  /** The device has nothing left to push to. */
  ghost predicate Expanded(net: Net, p: Params, risk: real, depth: map<string, nat>, u: string)
    requires u in depth
  {
    depth[u] < p.maxHops && Alive(p, risk, depth[u] + 1) ==> forall v | Edge(net, u, v) :: v in depth
  }

  /** When every device nearer than `h` is expanded, everything due within `h` hops is visited. */
  lemma {:induction false} NearIsVisited(net: Net, p: Params, src: string, risk: real, depth: map<string, nat>, h: nat,
                                         v: string, k: nat)
    requires Searched(net, p, src, risk, depth)
    requires forall u | u in depth && depth[u] < h :: Expanded(net, p, risk, depth, u)
    requires k <= h && Due(net, p, src, risk, v, k)
    ensures v in depth && depth[v] == k
    decreases k
  {
    if k == 0 {
      NoHops(net, src, v);
    } else {
      var u := NearerNeighbour(net, src, v, k);
      AliveEarlier(p, risk, k - 1, k);
      NearIsVisited(net, p, src, risk, depth, h, u, k - 1);
      assert Expanded(net, p, risk, depth, u);
      DistanceUnique(net, src, v, k, depth[v]);
    }
  }

  /** An unvisited neighbour of the device at the head of the queue is exactly one hop further. */
  lemma NewNeighbour(net: Net, p: Params, src: string, risk: real, depth: map<string, nat>, u: string, v: string)
    requires Searched(net, p, src, risk, depth) && u in depth
    requires forall x | x in depth && depth[x] < depth[u] :: Expanded(net, p, risk, depth, x)
    requires Edge(net, u, v) && v !in depth
    ensures AtDistance(net, src, v, depth[u] + 1)
  {
    OneHopMore(net, src, u, v, depth[u]);
    forall k: nat | k <= depth[u]
      ensures !Reaches(net, src, v, k)
    {
      if Reaches(net, src, v, k) {
        var m := Shortest(net, src, v, k);
        AliveEarlier(p, risk, m, depth[u]);
        NearIsVisited(net, p, src, risk, depth, depth[u], v, m);
        assert false;
      }
    }
  }

  lemma {:induction false} Shortest(net: Net, src: string, v: string, k: nat) returns (m: nat)
    requires Reaches(net, src, v, k)
    ensures m <= k && AtDistance(net, src, v, m)
  {
    if j: nat :| j < k && Reaches(net, src, v, j) {
      m := Shortest(net, src, v, j);
    } else {
      m := k;
    }
  }

  function Value(found: map<string, real>, v: string): real {
    if v in found then found[v] else 0.0
  }

  function Max(a: real, b: real): real {
    if a >= b then a else b
  }

  /** The best push so far, once the devices in `depth` have been reached from `src`. */
  ghost predicate Recorded(p: Params, src: string, risk: real, depth: map<string, nat>, before: map<string, real>,
                           found: map<string, real>)
  {
    forall v :: Value(found, v) ==
                if v in depth && v != src then Max(Value(before, v), Level(p, risk, depth[v])) else Value(before, v)
  }

  /** Everybody visited and not waiting, `except` apart, is expanded. */
  ghost predicate Settled(net: Net, p: Params, risk: real, depth: map<string, nat>, queue: seq<Visit>, except: set<string>) {
    forall u | u in depth && u !in except && !Waiting(queue, u) :: Expanded(net, p, risk, depth, u)
  }

  /** A finished search visited exactly the devices the source contributes to. */
  lemma SearchIsComplete(net: Net, p: Params, src: string, risk: real, depth: map<string, nat>, v: string)
    requires Searched(net, p, src, risk, depth) && Settled(net, p, risk, depth, [], {})
    ensures Contribution(net, p, src, risk, v) == if v in depth && v != src then Level(p, risk, depth[v]) else 0.0
  {
    if v in depth && v != src {
      NoHops(net, src, v);
      ContributionAt(net, p, src, risk, v, depth[v]);
    } else {
      forall d: nat
        ensures !Pushes(net, p, src, risk, v, d)
      {
        if Pushes(net, p, src, risk, v, d) {
          forall u | u in depth && depth[u] < d
            ensures Expanded(net, p, risk, depth, u)
          {
            assert !Waiting([], u);
          }
          NearIsVisited(net, p, src, risk, depth, d, v, d);
          ReachesSelf(net, src);
        }
      }
    }
  }

  /** In the middle of expanding the device `at`. */
  ghost predicate Expanding(net: Net, p: Params, src: string, risk: real, at: Visit, depth: map<string, nat>,
                            queue: seq<Visit>)
  {
    && depth.Keys <= net.guarded
    && Searched(net, p, src, risk, depth) && Queued(p, risk, depth, queue)
    && at.node in depth && depth[at.node] == at.hops && at.risk == Level(p, risk, at.hops)
    && (forall i | 0 <= i < |queue| :: at.hops <= queue[i].hops <= at.hops + 1)
    && Settled(net, p, risk, depth, queue, {at.node})
  }

  lemma BeginExpanding(net: Net, p: Params, src: string, risk: real, at: Visit, depth: map<string, nat>,
                       queue: seq<Visit>)
    requires depth.Keys <= net.guarded
    requires Searched(net, p, src, risk, depth) && Queued(p, risk, depth, [at] + queue)
    requires Settled(net, p, risk, depth, [at] + queue, {})
    ensures Expanding(net, p, src, risk, at, depth, queue)
  {
    var all := [at] + queue;
    assert all[0] == at && forall i | 0 <= i < |queue| :: all[i + 1] == queue[i];
    SettledWithout(net, p, risk, depth, at, queue);
  }

  lemma VisitKeepsExpanding(net: Net, p: Params, src: string, risk: real, at: Visit, depth: map<string, nat>,
                            queue: seq<Visit>, v: string)
    requires Expanding(net, p, src, risk, at, depth, queue)
    requires Edge(net, at.node, v) && v !in depth
    requires at.hops < p.maxHops && Level(p, risk, at.hops + 1) > CUTOFF
    ensures Expanding(net, p, src, risk, at, depth[v := at.hops + 1],
                      queue + [Visit(v, Level(p, risk, at.hops + 1), at.hops + 1)])
  {
    var visit := Visit(v, Level(p, risk, at.hops + 1), at.hops + 1);
    NearerAreExpanded(net, p, risk, depth, queue, at);
    NewNeighbour(net, p, src, risk, depth, at.node, v);
    SettledGrows(net, p, risk, depth, queue, {at.node}, v, visit);
    QueueGrows(p, risk, depth, queue, at, visit);
  }

  lemma QueueGrows(p: Params, risk: real, depth: map<string, nat>, queue: seq<Visit>, at: Visit, visit: Visit)
    requires Queued(p, risk, depth, queue) && visit.node !in depth
    requires forall i | 0 <= i < |queue| :: at.hops <= queue[i].hops <= at.hops + 1
    requires visit.hops == at.hops + 1 && visit.risk == Level(p, risk, visit.hops)
    ensures Queued(p, risk, depth[visit.node := visit.hops], queue + [visit])
  {
  }

  /** The first `k` neighbours that can be pushed to are visited. */
  ghost predicate Pushed(net: Net, p: Params, risk: real, at: Visit, depth: map<string, nat>, k: nat)
    requires at.node in net.adjacent && k <= |net.adjacent[at.node]|
  {
    Level(p, risk, at.hops + 1) > CUTOFF ==>
      forall m | 0 <= m < k && net.adjacent[at.node][m] in net.guarded :: net.adjacent[at.node][m] in depth
  }

  lemma PushedMore(net: Net, p: Params, risk: real, at: Visit, depth: map<string, nat>, depth': map<string, nat>, k: nat)
    requires at.node in net.adjacent && k < |net.adjacent[at.node]|
    requires Pushed(net, p, risk, at, depth, k) && depth.Keys <= depth'.Keys
    requires Level(p, risk, at.hops + 1) > CUTOFF && net.adjacent[at.node][k] in net.guarded ==> net.adjacent[at.node][k] in depth'
    ensures Pushed(net, p, risk, at, depth', k + 1)
  {
  }

  /** Nothing left to push from `at`. */
  lemma EndExpanding(net: Net, p: Params, src: string, risk: real, at: Visit, depth: map<string, nat>, queue: seq<Visit>)
    requires at.node in net.adjacent
    requires Expanding(net, p, src, risk, at, depth, queue)
    requires Pushed(net, p, risk, at, depth, |net.adjacent[at.node]|)
    ensures depth.Keys <= net.guarded
    ensures Searched(net, p, src, risk, depth) && Queued(p, risk, depth, queue)
    ensures Settled(net, p, risk, depth, queue, {})
  {
  }

  /** Push to one neighbour. */
  method PushTo(net: Net, p: Params, ghost src: string, at: Visit, v: string, pushed: real, visited: set<string>,
                queue: seq<Visit>, found: map<string, real>, ghost risk: real, ghost depth: map<string, nat>,
                ghost before: map<string, real>)
    returns (visited': set<string>, queue': seq<Visit>, found': map<string, real>, ghost depth': map<string, nat>)
    requires at.node in net.adjacent && v in net.adjacent[at.node] && at.hops < p.maxHops
    requires visited == depth.Keys && Expanding(net, p, src, risk, at, depth, queue)
    requires Recorded(p, src, risk, depth, before, found)
    requires pushed == Level(p, risk, at.hops + 1)
    ensures visited' == depth'.Keys && visited <= visited' && (visited' == visited ==> queue' == queue)
    ensures Expanding(net, p, src, risk, at, depth', queue')
    ensures Recorded(p, src, risk, depth', before, found')
    ensures pushed > CUTOFF && v in net.guarded ==> v in depth'
  {
    visited', queue', found', depth' := visited, queue, found, depth;
    if v in visited || v !in net.guarded || pushed <= CUTOFF {
      return;
    }
    VisitKeepsExpanding(net, p, src, risk, at, depth, queue, v);
    RecordVisit(p, src, risk, depth, before, found, v, at.hops + 1);
    visited' := visited + {v};
    if pushed > Value(found, v) {
      found' := found[v := pushed];
    }
    queue' := queue + [Visit(v, pushed, at.hops + 1)];
    depth' := depth[v := at.hops + 1];
  }

  /** Push from one device to all its unvisited guarded neighbours. */
  method Expand(net: Net, p: Params, ghost src: string, at: Visit, visited: set<string>, queue: seq<Visit>,
                found: map<string, real>, ghost risk: real, ghost depth: map<string, nat>, ghost before: map<string, real>)
    returns (visited': set<string>, queue': seq<Visit>, found': map<string, real>, ghost depth': map<string, nat>)
    requires at.node in net.adjacent && at.hops < p.maxHops
    requires visited == depth.Keys && Expanding(net, p, src, risk, at, depth, queue)
    requires Recorded(p, src, risk, depth, before, found)
    ensures visited' == depth'.Keys && depth'.Keys <= net.guarded && visited <= visited'
    ensures visited' == visited ==> queue' == queue
    ensures Searched(net, p, src, risk, depth') && Queued(p, risk, depth', queue')
    ensures Settled(net, p, risk, depth', queue', {})
    ensures Recorded(p, src, risk, depth', before, found')
  {
    visited', queue', found', depth' := visited, queue, found, depth;
    var neighbours := net.adjacent[at.node];
    var pushed := Push(at.risk, p.weight, Pow(p.decay, at.hops + 1));
    assert pushed == Level(p, risk, at.hops + 1);
    var k := 0;
    while k < |neighbours|
      invariant k <= |neighbours|
      invariant visited' == depth'.Keys && visited <= visited' && (visited' == visited ==> queue' == queue)
      invariant Expanding(net, p, src, risk, at, depth', queue')
      invariant Recorded(p, src, risk, depth', before, found')
      invariant Pushed(net, p, risk, at, depth', k)
    {
      ghost var was := depth';
      visited', queue', found', depth' :=
        PushTo(net, p, src, at, neighbours[k], pushed, visited', queue', found', risk, depth', before);
      PushedMore(net, p, risk, at, was, depth', k);
      k := k + 1;
    }
    EndExpanding(net, p, src, risk, at, depth', queue');
  }

  lemma RecordVisit(p: Params, src: string, risk: real, depth: map<string, nat>, before: map<string, real>,
                    found: map<string, real>, v: string, hops: nat)
    requires Recorded(p, src, risk, depth, before, found) && src in depth && v !in depth
    ensures var pushed := Level(p, risk, hops);
            Recorded(p, src, risk, depth[v := hops], before, if pushed > Value(found, v) then found[v := pushed] else found)
  {
  }

  lemma SettledWithout(net: Net, p: Params, risk: real, depth: map<string, nat>, at: Visit, queue: seq<Visit>)
    requires Settled(net, p, risk, depth, [at] + queue, {})
    ensures Settled(net, p, risk, depth, queue, {at.node})
  {
  }

  lemma NearerAreExpanded(net: Net, p: Params, risk: real, depth: map<string, nat>, queue: seq<Visit>, at: Visit)
    requires Queued(p, risk, depth, queue) && Settled(net, p, risk, depth, queue, {at.node})
    requires at.node in depth && depth[at.node] == at.hops
    requires forall i | 0 <= i < |queue| :: at.hops <= queue[i].hops
    ensures forall x | x in depth && depth[x] < at.hops :: Expanded(net, p, risk, depth, x)
  {
  }

  lemma SettledGrows(net: Net, p: Params, risk: real, depth: map<string, nat>, queue: seq<Visit>, except: set<string>,
                     v: string, visit: Visit)
    requires Settled(net, p, risk, depth, queue, except) && v !in depth && visit.node == v
    ensures Settled(net, p, risk, depth[v := visit.hops], queue + [visit], except)
  {
    var more, longer := depth[v := visit.hops], queue + [visit];
    forall u | u in more && u !in except && !Waiting(longer, u)
      ensures Expanded(net, p, risk, more, u)
    {
      assert longer[|queue|].node == v;
      assert forall i | 0 <= i < |queue| :: longer[i] == queue[i];
      assert u in depth && !Waiting(queue, u);
    }
  }

  /** Between two expansions. */
  ghost predicate InSearch(net: Net, p: Params, src: string, risk: real, depth: map<string, nat>, queue: seq<Visit>,
                           before: map<string, real>, found: map<string, real>)
  {
    && depth.Keys <= net.guarded
    && Searched(net, p, src, risk, depth) && Queued(p, risk, depth, queue)
    && Settled(net, p, risk, depth, queue, {})
    && Recorded(p, src, risk, depth, before, found)
  }

  lemma SearchBegins(net: Net, p: Params, src: string, risk: real, before: map<string, real>)
    requires src in net.guarded
    ensures InSearch(net, p, src, risk, map[src := 0], [Visit(src, risk, 0)], before, before)
  {
    var queue := [Visit(src, risk, 0)];
    ReachesSelf(net, src);
    assert queue[0].node == src && Waiting(queue, src);
  }

  lemma SearchEnds(net: Net, p: Params, src: string, risk: real, depth: map<string, nat>, before: map<string, real>,
                   found: map<string, real>)
    requires InSearch(net, p, src, risk, depth, [], before, found)
    requires forall v :: Value(before, v) >= 0.0
    ensures forall v :: Value(found, v) == Max(Value(before, v), Contribution(net, p, src, risk, v))
  {
    forall v
      ensures Value(found, v) == Max(Value(before, v), Contribution(net, p, src, risk, v))
    {
      SearchIsComplete(net, p, src, risk, depth, v);
    }
  }

  /** Take one device from the queue and expand it. */
  method Advance(net: Net, p: Params, ghost src: string, visited: set<string>, queue: seq<Visit>, found: map<string, real>,
                 ghost risk: real, ghost depth: map<string, nat>, ghost before: map<string, real>)
    returns (visited': set<string>, queue': seq<Visit>, found': map<string, real>, ghost depth': map<string, nat>)
    requires Covers(net) && queue != [] && visited == depth.Keys
    requires InSearch(net, p, src, risk, depth, queue, before, found)
    ensures visited' == depth'.Keys && visited <= visited' && (visited' == visited ==> |queue'| < |queue|)
    ensures InSearch(net, p, src, risk, depth', queue', before, found')
  {
    var at := queue[0];
    assert queue == [at] + queue[1..];
    BeginExpanding(net, p, src, risk, at, depth, queue[1..]);
    visited', queue', found', depth' := visited, queue[1..], found, depth;
    if at.hops < p.maxHops {
      visited', queue', found', depth' := Expand(net, p, src, at, visited, queue', found, risk, depth, before);
    } else {
      SettledAtBound(net, p, src, risk, at, depth, queue');
    }
  }

  /** Search from one source and keep, for every device reached, the larger of the old and the new push. */
  method Spread(net: Net, p: Params, src: string, risk: real, before: map<string, real>) returns (found: map<string, real>)
    requires Covers(net) && src in net.guarded
    requires forall v :: Value(before, v) >= 0.0
    ensures forall v :: Value(found, v) == Max(Value(before, v), Contribution(net, p, src, risk, v))
  {
    found := before;
    var visited, queue := {src}, [Visit(src, risk, 0)];
    ghost var depth: map<string, nat> := map[src := 0];
    SearchBegins(net, p, src, risk, before);
    while queue != []
      invariant visited == depth.Keys && visited <= net.guarded
      invariant InSearch(net, p, src, risk, depth, queue, before, found)
      decreases net.guarded - visited, |queue|
    {
      ghost var was := visited;
      visited, queue, found, depth := Advance(net, p, src, visited, queue, found, risk, depth, before);
      assert was <= visited <= net.guarded;
      assert was != visited ==> net.guarded - visited < net.guarded - was;
    }
    SearchEnds(net, p, src, risk, depth, before, found);
  }

  lemma SettledAtBound(net: Net, p: Params, src: string, risk: real, at: Visit, depth: map<string, nat>, queue: seq<Visit>)
    requires Expanding(net, p, src, risk, at, depth, queue) && at.hops >= p.maxHops
    ensures Settled(net, p, risk, depth, queue, {})
  {
  }
}
