/** How a coordinator reads a set of acknowledgements or observations. */
module Quorum {
  import opened BlackboardContracts
  import opened Wrappers

  /** The full compatibility identity of a prepared acknowledgement. */
  datatype Identity = Identity(recordId: RecordId, key: string, version: nat, contentHash: Digest)

  datatype QuorumVerdict = QuorumMet | InsufficientAcks | IncompatibleAcks

  datatype QuorumDecision = QuorumDecision(verdict: QuorumVerdict, compatible: set<nat>)

  function IdentityOf(a: Ack): Option<Identity> {
    if a.status.AckPrepared? && a.subject.Some? then
      var r := a.subject.value;
      Some(Identity(r.recordId, r.key, r.version, r.contentHash))
    else None
  }

  /** Positions of the acknowledgements carrying one identity. */
  function Supporters(acks: seq<Ack>, id: Identity): set<nat> {
    set j: nat | j < |acks| && IdentityOf(acks[j]) == Some(id)
  }

  /** What the grouping must deliver: the largest compatible group, if it is large enough. */
  ghost predicate Decides(acks: seq<Ack>, required: nat, d: QuorumDecision) {
    match d.verdict
    case QuorumMet =>
      exists id: Identity ::
        && d.compatible == Supporters(acks, id)
        && |Supporters(acks, id)| >= required
        && (forall other: Identity :: |Supporters(acks, other)| <= |Supporters(acks, id)|)
    case IncompatibleAcks =>
      && d.compatible == {}
      && (forall id: Identity :: |Supporters(acks, id)| < required)
      && (exists a: Identity, b: Identity :: a != b && Supporters(acks, a) != {} && Supporters(acks, b) != {})
    case InsufficientAcks =>
      && d.compatible == {}
      && (forall id: Identity :: |Supporters(acks, id)| < required)
      && (forall a: Identity, b: Identity :: Supporters(acks, a) != {} && Supporters(acks, b) != {} ==> a == b)
  }

  lemma SupportersExtend(acks: seq<Ack>, a: Ack, id: Identity)
    ensures Supporters(acks + [a], id) ==
            Supporters(acks, id) + (if IdentityOf(a) == Some(id) then {|acks|} else {})
  {
  }

  /** The groups so far, with the identities in order of first appearance. */
  ghost predicate Grouped(acks: seq<Ack>, order: seq<Identity>, groups: map<Identity, set<nat>>) {
    && (forall id: Identity :: id in order <==> id in groups)
    && (forall id: Identity :: Supporters(acks, id) == if id in groups then groups[id] else {})
    && (forall id: Identity | id in groups :: groups[id] != {})
    && (forall m, n | 0 <= m < n < |order| :: order[m] != order[n])
  }

  method GroupOne(acks: seq<Ack>, a: Ack, order: seq<Identity>, groups: map<Identity, set<nat>>)
    returns (order': seq<Identity>, groups': map<Identity, set<nat>>)
    requires Grouped(acks, order, groups)
    ensures Grouped(acks + [a], order', groups')
  {
    order', groups' := order, groups;
    forall id: Identity
      ensures Supporters(acks + [a], id) == Supporters(acks, id) + (if IdentityOf(a) == Some(id) then {|acks|} else {})
    {
      SupportersExtend(acks, a, id);
    }
    match IdentityOf(a)
    case None =>
    case Some(id) =>
      if id !in groups {
        order' := order + [id];
        groups' := groups[id := {|acks|}];
      } else {
        groups' := groups[id := groups[id] + {|acks|}];
      }
  }

  /** An identity with the largest group. */
  method Largest(order: seq<Identity>, groups: map<Identity, set<nat>>) returns (best: Identity)
    requires order != [] && forall id: Identity :: id in order <==> id in groups
    ensures best in groups && forall id: Identity | id in groups :: |groups[id]| <= |groups[best]|
  {
    best := order[0];
    for n := 1 to |order|
      invariant best in order
      invariant forall m | 0 <= m < n :: |groups[order[m]]| <= |groups[best]|
    {
      if |groups[order[n]]| > |groups[best]| {
        best := order[n];
      }
    }
  }

  /** Group prepared acknowledgements by identity, then take the largest group. */
  method EvaluateQuorum(acks: seq<Ack>, required: nat) returns (d: QuorumDecision)
    requires required >= 1
    ensures Decides(acks, required, d)
  {
    var groups: map<Identity, set<nat>> := map[];
    var order: seq<Identity> := [];
    for i := 0 to |acks|
      invariant Grouped(acks[..i], order, groups)
    {
      assert acks[..i + 1] == acks[..i] + [acks[i]];
      order, groups := GroupOne(acks[..i], acks[i], order, groups);
    }
    assert acks[..|acks|] == acks;
    if order == [] {
      return QuorumDecision(InsufficientAcks, {});
    }
    var best := Largest(order, groups);
    assert forall id: Identity :: |Supporters(acks, id)| <= |groups[best]|;
    if |groups[best]| >= required {
      assert Supporters(acks, best) == groups[best];
      return QuorumDecision(QuorumMet, groups[best]);
    }
    if |order| > 1 {
      assert Supporters(acks, order[0]) != {} && Supporters(acks, order[1]) != {};
      return QuorumDecision(IncompatibleAcks, {});
    }
    return QuorumDecision(InsufficientAcks, {});
  }

  /** With fewer than twice the required acknowledgements, tie-breaking between groups cannot matter. */
  lemma WinnerIsUnique(acks: seq<Ack>, required: nat, a: Identity, b: Identity)
    requires |acks| < 2 * required
    requires |Supporters(acks, a)| >= required && |Supporters(acks, b)| >= required
    ensures a == b
  {
    if a != b {
      var sa, sb := Supporters(acks, a), Supporters(acks, b);
      assert sa !! sb && sa + sb <= Indices(|acks|);
      SubsetCount(sa + sb, Indices(|acks|));
      assert false;
    }
  }

  lemma SubsetCount(a: set<nat>, b: set<nat>)
    requires a <= b
    ensures |a| <= |b|
  {
    assert b == a + (b - a);
  }

  function Indices(n: nat): (s: set<nat>)
    ensures forall j: nat :: j in s <==> j < n
    ensures |s| == n
  {
    if n == 0 then {} else Indices(n - 1) + {n - 1}
  }

  predicate Answered(a: Ack) {
    !a.status.Unavailable? && !a.status.StorageError?
  }

  /** Some replica answered, and every replica that answered gave this status. */
  ghost predicate Unanimous(acks: seq<Ack>, status: AckStatus) {
    && (exists a :: a in acks && Answered(a))
    && (forall a | a in acks && Answered(a) :: a.status == status)
  }

  /** The outcome when no replica prepared: unanimous among the replicas that answered, or no quorum. */
  function ClassifyTotalRejection(acks: seq<Ack>): (outcome: WriteOutcome)
    ensures outcome.RejectedStale? <==> Unanimous(acks, RejectStale)
    ensures outcome.RejectedConflict? <==> Unanimous(acks, RejectConflict)
    ensures outcome.RejectedSchema? <==> Unanimous(acks, RejectSchema) || Unanimous(acks, RejectIntegrity)
    ensures outcome.RejectedStale? || outcome.RejectedConflict? || outcome.RejectedSchema? || outcome.FailedQuorum?
  {
    var terminal := set a | a in acks && Answered(a) :: a.status;
    assert forall s: AckStatus :: terminal == {s} <==> Unanimous(acks, s) by {
      forall s: AckStatus
        ensures terminal == {s} <==> Unanimous(acks, s)
      {
        TerminalStatus(acks, terminal, s);
      }
    }
    if terminal == {RejectStale} then RejectedStale
    else if terminal == {RejectConflict} then RejectedConflict
    else if terminal == {RejectSchema} || terminal == {RejectIntegrity} then RejectedSchema
    else FailedQuorum
  }

  lemma TerminalStatus(acks: seq<Ack>, terminal: set<AckStatus>, s: AckStatus)
    requires terminal == set a | a in acks && Answered(a) :: a.status
    ensures terminal == {s} <==> Unanimous(acks, s)
  {
    assert forall a | a in acks && Answered(a) :: a.status in terminal;
    if terminal == {s} {
      assert s in terminal;
    }
    if Unanimous(acks, s) {
      var a :| a in acks && Answered(a);
      assert a.status == s;
      assert terminal == {s};
    }
  }

  // ---- Reads ----

  datatype Observation = Observation(responded: bool, record: Option<Record>)

  datatype ReadResult = ReadResult(outcome: ReadOutcome, record: Option<Record>, divergent: set<nat>)

  predicate Present(o: Observation) { o.responded && o.record.Some? }

  /** Positions of the observations presenting the same version and content as `r`. */
  function Agreeing(obs: seq<Observation>, r: Record): set<nat> {
    set j: nat | j < |obs| && Present(obs[j])
                 && obs[j].record.value.version == r.version
                 && obs[j].record.value.contentHash == r.contentHash
  }

  function Responders(obs: seq<Observation>): set<nat> {
    set j: nat | j < |obs| && obs[j].responded
  }

  function Presenters(obs: seq<Observation>): set<nat> {
    set j: nat | j < |obs| && Present(obs[j])
  }

  ghost predicate Authoritative(r: ReadResult) {
    r.outcome.Consistent? || r.outcome.DegradedConsistent?
  }

  /** A read's outcome as the agreement among its three observations determines it. */
  ghost predicate Answers(obs: seq<Observation>, result: ReadResult)
    requires |obs| == 3
  {
    var responders := Responders(obs);
    var present := Presenters(obs);
    && (result.outcome.ReadUnavailable? <==> responders == {})
    && (result.outcome.NotFound? <==> present == {} && |responders| >= QUORUM)
    && (result.outcome.InsufficientQuorum? <==> responders != {} && |responders| < QUORUM)
    && (result.outcome.Consistent? <==> exists j :: j in present && |Agreeing(obs, obs[j].record.value)| == 3)
    && (Authoritative(result) <==> exists j :: j in present && |Agreeing(obs, obs[j].record.value)| >= QUORUM)
    && (result.record.Some? <==> Authoritative(result))
    && (Authoritative(result) ==>
          && (exists j :: j in present && result.record == obs[j].record)
          && |Agreeing(obs, result.record.value)| >= QUORUM)
    && (result.outcome.DegradedConsistent? ==>
          result.divergent == responders - Agreeing(obs, result.record.value))
    && !result.outcome.AuthorizationRejected?
  }

  /** Without a conclusive majority the disagreement is reported against some largest group, otherwise not at all. */
  ghost predicate ReportsDisagreement(obs: seq<Observation>, result: ReadResult)
    requires |obs| == 3
  {
    && (result.outcome.Consistent? || result.outcome.NotFound? || result.outcome.ReadUnavailable? ==> result.divergent == {})
    && (result.outcome.Inconsistent? ==>
          exists j :: j in Presenters(obs)
                      && result.divergent == Responders(obs) - Agreeing(obs, obs[j].record.value)
                      && forall k | k in Presenters(obs) ::
                           |Agreeing(obs, obs[k].record.value)| <= |Agreeing(obs, obs[j].record.value)|)
  }

  /** Group the observations by version and content, and apply the read policy to the largest group. */
  method DecideRead(obs: seq<Observation>) returns (result: ReadResult)
    requires |obs| == 3
    ensures Answers(obs, result)
    ensures ReportsDisagreement(obs, result)
  {
    var responders := Responders(obs);
    var present := Presenters(obs);
    assert present <= responders;
    if responders == {} {
      return ReadResult(ReadUnavailable, None, {});
    }
    if present == {} {
      return ReadResult(if |responders| >= QUORUM then NotFound else InsufficientQuorum, None, {});
    }
    var best :| best in present;
    var rest := present - {best};
    while rest != {}
      invariant best in present && rest <= present
      invariant forall j | j in present - rest ::
                  |Agreeing(obs, obs[j].record.value)| <= |Agreeing(obs, obs[best].record.value)|
      decreases rest
    {
      var j :| j in rest;
      if |Agreeing(obs, obs[j].record.value)| > |Agreeing(obs, obs[best].record.value)| {
        best := j;
      }
      rest := rest - {j};
    }
    var group := Agreeing(obs, obs[best].record.value);
    var divergent := responders - group;
    SubsetCount(group, responders);
    SubsetCount(responders, Indices(3));
    if |responders| < QUORUM {
      return ReadResult(InsufficientQuorum, None, divergent);
    }
    if |group| == |responders| && |responders| == 3 {
      return ReadResult(Consistent, obs[best].record, {});
    }
    if |group| >= QUORUM {
      return ReadResult(DegradedConsistent, obs[best].record, divergent);
    }
    return ReadResult(Inconsistent, None, divergent);
  }
}
