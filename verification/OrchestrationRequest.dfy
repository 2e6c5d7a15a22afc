/** Orchestration requests: order-insensitive digests and the deterministic routing policy. */
module OrchestrationRequest {
  import opened Lexicographic

  datatype Route = Route(routeId: string, priority: nat)

  /** `rest` stands for the remaining hashed fields. */
  datatype Request = Request(requestId: string, version: nat, roundId: string, routes: seq<Route>, rest: string)

  /** SHA-256 over the canonical JSON, idealised as a free constructor. */
  datatype RequestDigest = RequestDigest(requestId: string, version: nat, roundId: string, sortedRoutes: seq<Route>, rest: string)

  datatype ProposalDigest =
    ProposalDigest(requestId: string, version: nat, roundId: string, requestDigest: RequestDigest, routeId: string)

  predicate UniqueIds(routes: seq<Route>) {
    forall i, j | 0 <= i < j < |routes| :: routes[i].routeId != routes[j].routeId
  }

  /** What the request contract admits. */
  predicate ValidRequest(r: Request) {
    r.routes != [] && UniqueIds(r.routes)
  }

  // ---- Canonical route order ----

  predicate SortedById(routes: seq<Route>) {
    forall i, j | 0 <= i < j < |routes| :: Leq(routes[i].routeId, routes[j].routeId)
  }

  function Insert(r: Route, sorted: seq<Route>): seq<Route> {
    if sorted == [] || Leq(r.routeId, sorted[0].routeId) then [r] + sorted
    else [sorted[0]] + Insert(r, sorted[1..])
  }

  function Sorted(routes: seq<Route>): seq<Route> {
    if routes == [] then [] else Insert(routes[0], Sorted(routes[1..]))
  }

  lemma {:induction false} InsertSorts(r: Route, sorted: seq<Route>)
    requires SortedById(sorted)
    ensures SortedById(Insert(r, sorted))
    ensures multiset(Insert(r, sorted)) == multiset{r} + multiset(sorted)
  {
    if sorted == [] {
    } else if Leq(r.routeId, sorted[0].routeId) {
      forall i | 0 <= i < |sorted|
        ensures Leq(r.routeId, sorted[i].routeId)
      {
        if i > 0 {
          LeqTransitive(r.routeId, sorted[0].routeId, sorted[i].routeId);
        }
      }
    } else {
      var rest := Insert(r, sorted[1..]);
      InsertSorts(r, sorted[1..]);
      LeqTotal(r.routeId, sorted[0].routeId);
      assert sorted == [sorted[0]] + sorted[1..];
      forall i | 0 <= i < |rest|
        ensures Leq(sorted[0].routeId, rest[i].routeId)
      {
        assert rest[i] in multiset(rest);
        assert rest[i] == r || rest[i] in sorted[1..];
      }
    }
  }

  lemma {:induction false} SortedSorts(routes: seq<Route>)
    ensures SortedById(Sorted(routes))
    ensures multiset(Sorted(routes)) == multiset(routes)
  {
    if routes != [] {
      SortedSorts(routes[1..]);
      InsertSorts(routes[0], Sorted(routes[1..]));
      assert routes == [routes[0]] + routes[1..];
    }
  }

  /** Ids are distinct in the multiset, whatever the order. */
  ghost predicate DistinctIds(m: multiset<Route>) {
    && (forall a, b | a in m && b in m && a.routeId == b.routeId :: a == b)
    && (forall a | a in m :: m[a] == 1)
  }

  lemma UniqueIdsAreDistinct(routes: seq<Route>)
    requires UniqueIds(routes)
    ensures DistinctIds(multiset(routes))
  {
    forall a | a in multiset(routes)
      ensures multiset(routes)[a] == 1
    {
      var i :| 0 <= i < |routes| && routes[i] == a;
      assert routes == routes[..i] + [a] + routes[i + 1..];
      assert a !in routes[..i] && a !in routes[i + 1..];
      assert multiset(routes) == multiset(routes[..i]) + multiset{a} + multiset(routes[i + 1..]);
    }
  }

  lemma DistinctWithout(m: multiset<Route>, r: Route)
    requires DistinctIds(m)
    ensures DistinctIds(m - multiset{r})
  {
  }

  lemma TailMultiset(s: seq<Route>)
    requires s != []
    ensures multiset(s[1..]) == multiset(s) - multiset{s[0]}
  {
    assert s == [s[0]] + s[1..];
  }

  lemma SameLength(a: seq<Route>, b: seq<Route>)
    requires multiset(a) == multiset(b)
    ensures |a| == |b|
  {
    assert |a| == |multiset(a)|;
    assert |b| == |multiset(b)|;
  }

  lemma TailSorted(s: seq<Route>)
    requires s != [] && SortedById(s)
    ensures SortedById(s[1..])
  {
  }

  /** With distinct ids there is only one sorted arrangement. */
  lemma {:induction false} SortedIsUnique(a: seq<Route>, b: seq<Route>)
    requires SortedById(a) && SortedById(b)
    requires multiset(a) == multiset(b) && DistinctIds(multiset(a))
    ensures a == b
    decreases |a|
  {
    SameLength(a, b);
    if a != [] {
      SameHead(a, b);
      var x, a', b' := a[0], a[1..], b[1..];
      assert multiset(a') == multiset(b') && DistinctIds(multiset(a')) by {
        TailMultiset(a);
        TailMultiset(b);
        DistinctWithout(multiset(a), x);
      }
      TailSorted(a);
      TailSorted(b);
      SortedIsUnique(a', b');
      assert a == [x] + a' && b == [x] + b';
    }
  }

  lemma SameHead(a: seq<Route>, b: seq<Route>)
    requires a != [] && b != [] && SortedById(a) && SortedById(b)
    requires multiset(a) == multiset(b) && DistinctIds(multiset(a))
    ensures a[0] == b[0]
  {
    assert a[0] in multiset(b) && b[0] in multiset(a);
    var i :| 0 <= i < |b| && b[i] == a[0];
    var j :| 0 <= j < |a| && a[j] == b[0];
    LeqTotal(a[0].routeId, b[0].routeId);
    LeqTotal(a[0].routeId, a[0].routeId);
    assert Leq(b[0].routeId, a[0].routeId);
    assert Leq(a[0].routeId, b[0].routeId);
  }

  function DigestOf(r: Request): RequestDigest {
    RequestDigest(r.requestId, r.version, r.roundId, Sorted(r.routes), r.rest)
  }

  /** The same request up to the order in which candidates are listed. */
  predicate SameUpToOrder(a: Request, b: Request) {
    && a.requestId == b.requestId && a.version == b.version && a.roundId == b.roundId && a.rest == b.rest
    && multiset(a.routes) == multiset(b.routes)
  }

  /** The digest identifies exactly the requests that differ at most in candidate order. */
  lemma DigestIsCanonical(a: Request, b: Request)
    requires ValidRequest(a) && ValidRequest(b)
    ensures DigestOf(a) == DigestOf(b) <==> SameUpToOrder(a, b)
  {
    SortedSorts(a.routes);
    SortedSorts(b.routes);
    UniqueIdsAreDistinct(a.routes);
    if SameUpToOrder(a, b) {
      SortedIsUnique(Sorted(a.routes), Sorted(b.routes));
    }
  }

  // ---- Policy ----

  /** Priority first, then route id. */
  predicate Preferred(a: Route, b: Route) {
    a.priority < b.priority || (a.priority == b.priority && Leq(a.routeId, b.routeId))
  }

  lemma PreferredIsTotal(a: Route, b: Route, c: Route)
    ensures Preferred(a, b) || Preferred(b, a)
    ensures Preferred(a, b) && Preferred(b, a) ==> a == b
    ensures Preferred(a, b) && Preferred(b, c) ==> Preferred(a, c)
  {
    LeqTotal(a.routeId, b.routeId);
    if Leq(a.routeId, b.routeId) && Leq(b.routeId, c.routeId) {
      LeqTransitive(a.routeId, b.routeId, c.routeId);
    }
  }

  /** The least candidate by (priority, route id). */
  function Choose(routes: seq<Route>): (best: Route)
    requires routes != []
    ensures best in routes && forall r | r in routes :: Preferred(best, r)
  {
    if |routes| == 1 then
      PreferredIsTotal(routes[0], routes[0], routes[0]);
      routes[0]
    else
      var rest := Choose(routes[1..]);
      assert routes == [routes[0]] + routes[1..];
      PreferredIsTotal(routes[0], rest, rest);
      assert forall r | r in routes :: r == routes[0] || r in routes[1..];
      assert Preferred(routes[0], routes[0]) && Preferred(rest, rest) by {
        PreferredIsTotal(routes[0], routes[0], rest);
        PreferredIsTotal(rest, rest, rest);
      }
      if Preferred(routes[0], rest) then
        assert forall r | r in routes[1..] :: Preferred(routes[0], r) by {
          forall r | r in routes[1..]
            ensures Preferred(routes[0], r)
          {
            PreferredIsTotal(routes[0], rest, r);
          }
        }
        routes[0]
      else rest
  }

  /** No declared route has a lower priority number, and none of the same number has an earlier id. */
  lemma ChosenIsLeast(routes: seq<Route>, r: Route)
    requires r in routes
    ensures Choose(routes).priority <= r.priority
    ensures Choose(routes).priority == r.priority ==> Leq(Choose(routes).routeId, r.routeId)
  {
    assert Preferred(Choose(routes), r);
  }

  /** Candidate order does not influence the choice. */
  lemma ChoiceIgnoresOrder(a: Request, b: Request)
    requires ValidRequest(a) && ValidRequest(b) && SameUpToOrder(a, b)
    ensures Choose(a.routes) == Choose(b.routes)
  {
    var x, y := Choose(a.routes), Choose(b.routes);
    assert x in multiset(b.routes) && y in multiset(a.routes);
    PreferredIsTotal(x, y, y);
  }
}
