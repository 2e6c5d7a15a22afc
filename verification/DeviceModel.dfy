/** The device model: evidence per device, and propagated and systemic risk as functions of it. */
module DeviceModel {
  import opened Wrappers
  import opened Propagation

  datatype DeviceState = DeviceState(
    isProtected: bool,
    isAttacker: bool,
    behaviorSupported: bool,
    networkRisk: Option<real>,
    behaviorRisk: Option<real>,
    compromised: bool,
    propagatedRisk: real,
    systemicRisk: real)

  type Devices = map<string, DeviceState>

  function OrZero(risk: Option<real>): real {
    if risk.Some? then risk.value else 0.0
  }

  /** A finding about the device itself. */
  predicate Evidence(st: DeviceState, x: real) {
    st.networkRisk == Some(x) || st.behaviorRisk == Some(x)
  }

  /** The risk a device can spread. */
  function SourceRisk(st: DeviceState): (risk: real)
    ensures forall x | Evidence(st, x) :: risk >= x
    ensures st.networkRisk.None? || st.behaviorRisk.None? || (exists x :: Evidence(st, x) && x >= 0.0) ==> risk >= 0.0
    ensures (risk == 0.0 && (st.networkRisk.None? || st.behaviorRisk.None?)) || Evidence(st, risk)
  {
    Max(OrZero(st.networkRisk), OrZero(st.behaviorRisk))
  }

  /** Missing evidence is ignored, not counted as zero. */
  function Direct(st: DeviceState): Option<real> {
    match (st.networkRisk, st.behaviorRisk)
    case (None, None) => None
    case (Some(n), None) => Some(n)
    case (None, Some(b)) => Some(b)
    case (Some(n), Some(b)) => Some(Max(n, b))
  }

  function Systemic(st: DeviceState, propagated: real): (risk: real)
    ensures risk >= propagated && (forall x | Evidence(st, x) :: risk >= x)
    ensures risk == propagated || Evidence(st, risk)
  {
    if Direct(st).None? then propagated else Max(Direct(st).value, propagated)
  }

  function Guarded(states: Devices): set<string> {
    set v | v in states && states[v].isProtected
  }

  function NetOf(states: Devices, adjacent: map<string, seq<string>>): Net {
    Net(adjacent, Guarded(states))
  }

  predicate Spreads(states: Devices, s: string) {
    s in states && states[s].isProtected && SourceRisk(states[s]) > 0.0
  }

  ghost function From(states: Devices, adjacent: map<string, seq<string>>, p: Params, s: string, v: string): real
    requires s in states
  {
    Contribution(NetOf(states, adjacent), p, s, SourceRisk(states[s]), v)
  }

  /** `x` is the largest contribution of any protected source to `v`, or 0 without one. */
  ghost predicate IsPropagated(states: Devices, adjacent: map<string, seq<string>>, p: Params, v: string, x: real) {
    && x >= 0.0
    && (forall s | Spreads(states, s) :: From(states, adjacent, p, s, v) <= x)
    && (x == 0.0 || exists s :: Spreads(states, s) && From(states, adjacent, p, s, v) == x)
  }

  /** One propagation pass: every device gets its closed form, and nothing else changes. */
  ghost predicate Propagates(states: Devices, states': Devices, adjacent: map<string, seq<string>>, p: Params) {
    && states'.Keys == states.Keys
    && forall v | v in states ::
         && IsPropagated(states, adjacent, p, v, states'[v].propagatedRisk)
         && states'[v] == Updated(states[v], states'[v].propagatedRisk)
  }

  function Updated(st: DeviceState, propagated: real): DeviceState {
    st.(propagatedRisk := propagated, systemicRisk := Systemic(st, propagated))
  }

  /**
   The fused risk of a device after a pass: no lower than what reached it and than its own evidence, one of those
   values, and just what reached it if there is no evidence. The evidence itself is never overwritten.
   */
  ghost predicate Fused(st: DeviceState, st': DeviceState) {
    && st' == st.(propagatedRisk := st'.propagatedRisk, systemicRisk := st'.systemicRisk)
    && st'.systemicRisk >= st'.propagatedRisk
    && (forall x | Evidence(st, x) :: st'.systemicRisk >= x)
    && (st'.systemicRisk == st'.propagatedRisk || Evidence(st, st'.systemicRisk))
    && (st.networkRisk.None? && st.behaviorRisk.None? ==> st'.systemicRisk == st'.propagatedRisk)
  }

  lemma PropagatedUnique(states: Devices, adjacent: map<string, seq<string>>, p: Params, v: string, x: real, y: real)
    requires IsPropagated(states, adjacent, p, v, x) && IsPropagated(states, adjacent, p, v, y)
    ensures x == y
  {
  }

  class DeviceABM {
    const adjacent: map<string, seq<string>>
    const params: Params
    /** The iteration order of the state dictionary. */
    const order: seq<string>
    var states: Devices

    ghost predicate Valid()
      reads this
    {
      && (forall v :: v in order <==> v in states)
      && states.Keys <= adjacent.Keys
    }

    constructor (adjacent: map<string, seq<string>>, params: Params, order: seq<string>, states: Devices)
      requires (forall v :: v in order <==> v in states) && states.Keys <= adjacent.Keys
      ensures Valid() && this.adjacent == adjacent && this.params == params && this.states == states
    {
      this.adjacent, this.params, this.order, this.states := adjacent, params, order, states;
    }

    method ApplyNetworkEvidence(entity: string, probability: real) returns (known: bool)
      requires Valid()
      modifies this
      ensures Valid() && known == (entity in old(states))
      ensures states == if !known then old(states) else
                old(states)[entity := old(states)[entity].(
                  networkRisk := Some(probability),
                  compromised := old(states)[entity].compromised || (old(states)[entity].isProtected && probability >= 0.5))]
    {
      if entity !in states {
        return false;
      }
      var st := states[entity].(networkRisk := Some(probability));
      if st.isProtected && probability >= 0.5 {
        st := st.(compromised := true);
      }
      states := states[entity := st];
      return true;
    }

    /** Refused for a device without a behaviour profile, so its behaviour risk stays absent. */
    method ApplyBehaviorEvidence(entity: string, score: real) returns (accepted: bool)
      requires Valid()
      modifies this
      ensures Valid() && accepted == (entity in old(states) && old(states)[entity].behaviorSupported)
      ensures states == if !accepted then old(states) else
                old(states)[entity := old(states)[entity].(behaviorRisk := Some(score))]
    {
      if entity !in states || !states[entity].behaviorSupported {
        return false;
      }
      states := states[entity := states[entity].(behaviorRisk := Some(score))];
      return true;
    }

    /** Search from every protected source, then overwrite propagated and systemic risk. */
    method Propagate()
      requires Valid()
      modifies this
      ensures Valid()
      ensures Propagates(old(states), states, adjacent, params)
      ensures forall v | v in states :: Fused(old(states)[v], states[v])
    {
      var net := NetOf(states, adjacent);
      var found: map<string, real> := map[];
      for n := 0 to |order|
        invariant Valid() && states == old(states)
        invariant Best(states, adjacent, params, order[..n], found)
      {
        var s := order[n];
        ghost var before := found;
        if Spreads(states, s) {
          found := Spread(net, params, s, SourceRisk(states[s]), found);
        }
        BestExtends(states, adjacent, params, order, n, before, found);
      }
      assert order[..|order|] == order;
      BestIsPropagated(states, adjacent, params, order, found);
      Overwrite(found);
    }

    /** Replace every device's propagated and systemic risk. */
    method Overwrite(found: map<string, real>)
      requires Valid()
      modifies this
      ensures Valid() && states.Keys == old(states).Keys
      ensures forall v | v in states :: states[v] == Updated(old(states)[v], Value(found, v))
      ensures forall v | v in states :: Fused(old(states)[v], states[v])
    {
      ghost var was := states;
      for n := 0 to |order|
        invariant states.Keys == was.Keys && Valid()
        invariant forall v | v in was :: states[v] == if v in order[..n] then Updated(was[v], Value(found, v)) else was[v]
      {
        assert order[..n + 1] == order[..n] + [order[n]];
        var st := states[order[n]];
        UpdatedTwice(was[order[n]], Value(found, order[n]));
        states := states[order[n] := Updated(st, Value(found, order[n]))];
      }
      assert order[..|order|] == order;
    }
  }

  lemma UpdatedTwice(st: DeviceState, x: real)
    ensures Updated(Updated(st, x), x) == Updated(st, x)
  {
  }

  /** The largest contributions of the sources looked at so far. */
  ghost predicate Best(states: Devices, adjacent: map<string, seq<string>>, p: Params, done: seq<string>,
                       found: map<string, real>)
  {
    forall v ::
      && Value(found, v) >= 0.0
      && (forall s | s in done && Spreads(states, s) :: From(states, adjacent, p, s, v) <= Value(found, v))
      && (Value(found, v) == 0.0 || exists s :: s in done && Spreads(states, s) && From(states, adjacent, p, s, v) == Value(found, v))
  }

  lemma BestExtends(states: Devices, adjacent: map<string, seq<string>>, p: Params, order: seq<string>, n: nat,
                    before: map<string, real>, found: map<string, real>)
    requires n < |order| && Best(states, adjacent, p, order[..n], before)
    requires if Spreads(states, order[n])
             then forall v :: Value(found, v) == Max(Value(before, v), From(states, adjacent, p, order[n], v))
             else found == before
    ensures Best(states, adjacent, p, order[..n + 1], found)
  {
  }

  lemma BestIsPropagated(states: Devices, adjacent: map<string, seq<string>>, p: Params, order: seq<string>,
                         found: map<string, real>)
    requires Best(states, adjacent, p, order, found)
    requires forall v :: v in order <==> v in states
    ensures forall v :: IsPropagated(states, adjacent, p, v, Value(found, v))
  {
  }
}
