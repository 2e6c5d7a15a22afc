/** What one propagation pass guarantees, whatever order it works in. */
module DeviceProperties {
  import opened Wrappers
  import opened Propagation
  import opened DeviceModel

  /** The same neighbours, listed in any order and any number of times. */
  ghost predicate SameNeighbours(a: map<string, seq<string>>, b: map<string, seq<string>>) {
    && a.Keys == b.Keys
    && (forall u, v | u in a :: v in a[u] <==> v in b[u])
  }

  lemma SameReach(a: map<string, seq<string>>, b: map<string, seq<string>>, guarded: set<string>, src: string, v: string, d: nat)
    requires SameNeighbours(a, b)
    ensures Reaches(Net(a, guarded), src, v, d) ==> Reaches(Net(b, guarded), src, v, d)
  {
  }

  lemma SameDistance(a: map<string, seq<string>>, b: map<string, seq<string>>, guarded: set<string>, src: string, v: string, d: nat)
    requires SameNeighbours(a, b) && AtDistance(Net(a, guarded), src, v, d)
    ensures AtDistance(Net(b, guarded), src, v, d)
  {
    SameReach(a, b, guarded, src, v, d);
    forall k: nat | k < d
      ensures !Reaches(Net(b, guarded), src, v, k)
    {
      SameReach(b, a, guarded, src, v, k);
    }
  }

  lemma SameContribution(a: map<string, seq<string>>, b: map<string, seq<string>>, guarded: set<string>, p: Params,
                         src: string, risk: real, v: string)
    requires SameNeighbours(a, b)
    ensures Contribution(Net(a, guarded), p, src, risk, v) == Contribution(Net(b, guarded), p, src, risk, v)
  {
    if d: nat :| Pushes(Net(a, guarded), p, src, risk, v, d) {
      SameDistance(a, b, guarded, src, v, d);
      ContributionAt(Net(a, guarded), p, src, risk, v, d);
      ContributionAt(Net(b, guarded), p, src, risk, v, d);
    } else if d: nat :| Pushes(Net(b, guarded), p, src, risk, v, d) {
      SameDistance(b, a, guarded, src, v, d);
      assert Pushes(Net(a, guarded), p, src, risk, v, d);
    }
  }

  /** The same protected devices with the same spreadable risk; anything may differ elsewhere. */
  ghost predicate SameSources(s: Devices, t: Devices) {
    && Guarded(s) == Guarded(t)
    && forall v | v in Guarded(s) :: SourceRisk(s[v]) == SourceRisk(t[v])
  }

  lemma SameSourcesSamePropagation(s: Devices, t: Devices, a: map<string, seq<string>>, b: map<string, seq<string>>,
                                   p: Params, v: string, x: real)
    requires SameSources(s, t) && SameNeighbours(a, b) && IsPropagated(s, a, p, v, x)
    ensures IsPropagated(t, b, p, v, x)
  {
    forall src: string
      ensures Spreads(s, src) <==> Spreads(t, src)
      ensures Spreads(s, src) ==> From(t, b, p, src, v) == From(s, a, p, src, v)
    {
      assert src in Guarded(s) <==> src in Guarded(t);
      if Spreads(s, src) {
        SameContribution(a, b, Guarded(s), p, src, SourceRisk(s[src]), v);
      }
    }
  }

  /**
   The result depends on nothing but the spreadable risk of the protected devices and who neighbours whom: not on
   neighbour order, dictionary order, earlier propagation, or any evidence about attackers and the cloud.
   */
  lemma PropagationIsDetermined(s: Devices, s': Devices, t: Devices, t': Devices, a: map<string, seq<string>>,
                                b: map<string, seq<string>>, p: Params, v: string)
    requires Propagates(s, s', a, p) && Propagates(t, t', b, p)
    requires SameSources(s, t) && SameNeighbours(a, b)
    requires v in s && v in t
    ensures s'[v].propagatedRisk == t'[v].propagatedRisk
  {
    SameSourcesSamePropagation(s, t, a, b, p, v, s'[v].propagatedRisk);
    PropagatedUnique(t, b, p, v, s'[v].propagatedRisk, t'[v].propagatedRisk);
  }

  /** A pass leaves the sources as they were. */
  lemma PropagationKeepsSources(s: Devices, s': Devices, adjacent: map<string, seq<string>>, p: Params)
    requires Propagates(s, s', adjacent, p)
    ensures SameSources(s, s')
  {
  }

  /** A second pass changes nothing. */
  lemma PropagationIsIdempotent(s: Devices, s1: Devices, s2: Devices, adjacent: map<string, seq<string>>, p: Params)
    requires Propagates(s, s1, adjacent, p) && Propagates(s1, s2, adjacent, p)
    ensures s2 == s1
  {
    PropagationKeepsSources(s, s1, adjacent, p);
    forall v | v in s
      ensures s2[v] == s1[v]
    {
      PropagationIsDetermined(s, s1, s1, s2, adjacent, adjacent, p, v);
      UpdatedTwice(s[v], s1[v].propagatedRisk);
      assert s1[v] == Updated(s[v], s1[v].propagatedRisk) && s2[v] == Updated(s1[v], s2[v].propagatedRisk);
    }
  }

  /** No evidence is weaker than any, and more risk is stronger. */
  predicate AtMost(a: Option<real>, b: Option<real>) {
    a.None? || (b.Some? && a.value <= b.value)
  }

  /** The same devices with at least as much evidence of risk on each. */
  ghost predicate Riskier(s: Devices, t: Devices) {
    && s.Keys == t.Keys
    && forall v | v in s ::
         && s[v].isProtected == t[v].isProtected
         && AtMost(s[v].networkRisk, t[v].networkRisk) && AtMost(s[v].behaviorRisk, t[v].behaviorRisk)
  }

  lemma ContributionMonotone(net: Net, p: Params, src: string, r: real, q: real, v: string)
    requires p.weight >= 0.0 && p.decay >= 0.0 && r <= q
    ensures Contribution(net, p, src, r, v) <= Contribution(net, p, src, q, v)
  {
    if d: nat :| Pushes(net, p, src, r, v, d) {
      LevelMonotone(p, r, q, d);
      ContributionAt(net, p, src, r, v, d);
      ContributionAt(net, p, src, q, v, d);
    } else if d: nat :| Pushes(net, p, src, q, v, d) {
      ContributionAt(net, p, src, q, v, d);
    }
  }

  /** More direct risk anywhere never lowers propagated or systemic risk anywhere. */
  lemma PropagationIsMonotone(s: Devices, s': Devices, t: Devices, t': Devices, adjacent: map<string, seq<string>>,
                              p: Params, v: string)
    requires p.weight >= 0.0 && p.decay >= 0.0
    requires Riskier(s, t) && Propagates(s, s', adjacent, p) && Propagates(t, t', adjacent, p)
    requires v in s
    ensures s'[v].propagatedRisk <= t'[v].propagatedRisk
    ensures s'[v].systemicRisk <= t'[v].systemicRisk
  {
    var x, y := s'[v].propagatedRisk, t'[v].propagatedRisk;
    PropagatedMonotone(s, t, adjacent, p, v, x, y);
    SystemicMonotone(s[v], t[v], x, y);
  }

  lemma PropagatedMonotone(s: Devices, t: Devices, adjacent: map<string, seq<string>>, p: Params, v: string, x: real,
                           y: real)
    requires p.weight >= 0.0 && p.decay >= 0.0 && Riskier(s, t)
    requires IsPropagated(s, adjacent, p, v, x) && IsPropagated(t, adjacent, p, v, y)
    ensures x <= y
  {
    if x != 0.0 {
      var src :| Spreads(s, src) && From(s, adjacent, p, src, v) == x;
      FromMonotone(s, t, adjacent, p, src, v);
      assert From(t, adjacent, p, src, v) <= y;
    }
  }

  lemma FromMonotone(s: Devices, t: Devices, adjacent: map<string, seq<string>>, p: Params, src: string, v: string)
    requires p.weight >= 0.0 && p.decay >= 0.0 && Riskier(s, t) && Spreads(s, src)
    ensures Spreads(t, src) && From(s, adjacent, p, src, v) <= From(t, adjacent, p, src, v)
  {
    assert Guarded(s) == Guarded(t);
    SourceMonotone(s[src], t[src]);
    ContributionMonotone(NetOf(s, adjacent), p, src, SourceRisk(s[src]), SourceRisk(t[src]), v);
  }

  lemma SourceMonotone(a: DeviceState, b: DeviceState)
    requires AtMost(a.networkRisk, b.networkRisk) && AtMost(a.behaviorRisk, b.behaviorRisk)
    requires SourceRisk(a) > 0.0
    ensures SourceRisk(b) >= SourceRisk(a)
  {
  }

  lemma SystemicMonotone(a: DeviceState, b: DeviceState, x: real, y: real)
    requires AtMost(a.networkRisk, b.networkRisk) && AtMost(a.behaviorRisk, b.behaviorRisk) && x <= y
    ensures Systemic(a, x) <= Systemic(b, y)
  {
  }

  /** With weight and decay in [0,1] no device receives more than some source has. */
  lemma PropagationIsBounded(s: Devices, s': Devices, adjacent: map<string, seq<string>>, p: Params, v: string)
    requires Unit(p.weight) && Unit(p.decay)
    requires Propagates(s, s', adjacent, p) && v in s
    ensures s'[v].propagatedRisk == 0.0 ||
            exists src :: Spreads(s, src) && s'[v].propagatedRisk <= SourceRisk(s[src])
  {
    var x := s'[v].propagatedRisk;
    if x != 0.0 {
      var src :| Spreads(s, src) && From(s, adjacent, p, src, v) == x;
      ContributionBounded(NetOf(s, adjacent), p, src, SourceRisk(s[src]), v);
    }
  }

  lemma ContributionBounded(net: Net, p: Params, src: string, risk: real, v: string)
    requires Unit(p.weight) && Unit(p.decay) && risk >= 0.0
    ensures Contribution(net, p, src, risk, v) <= risk
  {
    if d: nat :| Pushes(net, p, src, risk, v, d) {
      ContributionAt(net, p, src, risk, v, d);
      AliveIsAboveCutoff(p, risk, d);
    }
  }

  /** The closed form: what a source at shortest protected-only distance `d` contributes, with parameters in [0,1]. */
  lemma ContributionClosedForm(net: Net, p: Params, src: string, risk: real, v: string, d: nat)
    requires Unit(p.weight) && Unit(p.decay) && risk >= 0.0
    requires AtDistance(net, src, v, d) && d >= 1
    ensures var pushed := risk * Pow(p.weight, d) * Pow(p.decay, d * (d + 1) / 2);
            Contribution(net, p, src, risk, v) == if d <= p.maxHops && pushed > CUTOFF then pushed else 0.0
  {
    LevelClosedForm(p, risk, d);
    AliveIsAboveCutoff(p, risk, d);
    if Pushes(net, p, src, risk, v, d) {
      ContributionAt(net, p, src, risk, v, d);
    } else if e: nat :| Pushes(net, p, src, risk, v, e) {
      DistanceUnique(net, src, v, d, e);
    }
  }

  /** A device no protected walk reaches receives nothing from the source. */
  lemma UnreachedGetsNothing(net: Net, p: Params, src: string, risk: real, v: string)
    requires v == src || forall d: nat :: !Reaches(net, src, v, d)
    ensures Contribution(net, p, src, risk, v) == 0.0
  {
    ReachesSelf(net, src);
    forall d: nat
      ensures !Pushes(net, p, src, risk, v, d)
    {
      assert v == src ==> Reaches(net, src, v, 0);
    }
  }

  // ---- Defended blast radius ----

  /** What one device adds: nothing for attackers and unprotected devices. */
  function Exposure(states: Devices, v: string, criticality: string -> real): real {
    if v in states && states[v].isProtected && !states[v].isAttacker then states[v].systemicRisk * criticality(v) else 0.0
  }

  function BlastRadius(states: Devices, order: seq<string>, criticality: string -> real): real {
    if order == [] then 0.0
    else BlastRadius(states, order[..|order| - 1], criticality) + Exposure(states, order[|order| - 1], criticality)
  }

  /** The radius counts every defended device with its whole risk, and nobody else at all. */
  lemma {:induction false} BlastRadiusCounts(s: Devices, t: Devices, order: seq<string>, criticality: string -> real, v: string)
    requires forall u :: criticality(u) >= 0.0
    requires forall u | u in s :: s[u].systemicRisk >= 0.0
    requires forall u | Defended(s, u) || Defended(t, u) ::
               Defended(s, u) && Defended(t, u) && s[u].systemicRisk == t[u].systemicRisk
    ensures BlastRadius(s, order, criticality) == BlastRadius(t, order, criticality)
    ensures BlastRadius(s, order, criticality) >= 0.0
    ensures v in order && Defended(s, v) ==> BlastRadius(s, order, criticality) >= s[v].systemicRisk * criticality(v)
  {
    if order != [] {
      var last := order[|order| - 1];
      BlastRadiusCounts(s, t, order[..|order| - 1], criticality, v);
      assert Defended(s, last) <==> Defended(t, last);
      assert Exposure(s, last, criticality) == Exposure(t, last, criticality);
      ExposureNonNegative(s, last, criticality);
      if v in order && v != last {
        assert v in order[..|order| - 1];
      }
    }
  }

  predicate Defended(s: Devices, v: string) {
    v in s && s[v].isProtected && !s[v].isAttacker
  }

  lemma ExposureNonNegative(s: Devices, v: string, criticality: string -> real)
    requires criticality(v) >= 0.0 && (v in s ==> s[v].systemicRisk >= 0.0)
    ensures Exposure(s, v, criticality) >= 0.0
    ensures Defended(s, v) ==> Exposure(s, v, criticality) == s[v].systemicRisk * criticality(v)
  {
  }

  lemma ExposureMonotone(s: Devices, s': Devices, t: Devices, t': Devices, adjacent: map<string, seq<string>>, p: Params,
                         v: string, criticality: string -> real)
    requires p.weight >= 0.0 && p.decay >= 0.0 && criticality(v) >= 0.0
    requires Riskier(s, t) && Propagates(s, s', adjacent, p) && Propagates(t, t', adjacent, p)
    requires v in s ==> s[v].isAttacker == t[v].isAttacker
    ensures Exposure(s', v, criticality) <= Exposure(t', v, criticality)
  {
    if v in s {
      PropagationIsMonotone(s, s', t, t', adjacent, p, v);
      PassKeepsRole(s, s', adjacent, p, v);
      PassKeepsRole(t, t', adjacent, p, v);
      ExposureOfRisk(s', t', v, criticality);
    }
  }

  lemma PassKeepsRole(s: Devices, s': Devices, adjacent: map<string, seq<string>>, p: Params, v: string)
    requires Propagates(s, s', adjacent, p) && v in s
    ensures s'[v].isProtected == s[v].isProtected && s'[v].isAttacker == s[v].isAttacker
  {
    assert s'[v] == Updated(s[v], s'[v].propagatedRisk);
  }

  lemma ExposureOfRisk(s: Devices, t: Devices, v: string, criticality: string -> real)
    requires v in s && v in t && criticality(v) >= 0.0
    requires s[v].isProtected == t[v].isProtected && s[v].isAttacker == t[v].isAttacker
    requires s[v].systemicRisk <= t[v].systemicRisk
    ensures Exposure(s, v, criticality) <= Exposure(t, v, criticality)
  {
  }

  /** More direct risk never shrinks the defended blast radius. */
  lemma {:induction false} BlastRadiusMonotone(s: Devices, s': Devices, t: Devices, t': Devices,
                                               adjacent: map<string, seq<string>>, p: Params, order: seq<string>,
                                               criticality: string -> real)
    requires p.weight >= 0.0 && p.decay >= 0.0 && forall v :: criticality(v) >= 0.0
    requires Riskier(s, t) && Propagates(s, s', adjacent, p) && Propagates(t, t', adjacent, p)
    requires forall v | v in s :: s[v].isAttacker == t[v].isAttacker
    ensures BlastRadius(s', order, criticality) <= BlastRadius(t', order, criticality)
  {
    if order != [] {
      BlastRadiusMonotone(s, s', t, t', adjacent, p, order[..|order| - 1], criticality);
      ExposureMonotone(s, s', t, t', adjacent, p, order[|order| - 1], criticality);
    }
  }
}
