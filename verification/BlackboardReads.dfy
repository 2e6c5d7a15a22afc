/** What a quorum read says about the run it observes at three different moments. */
module Reads {
  import opened BlackboardContracts
  import opened Wrappers
  import opened ReplicaStorage
  import opened BlackboardProtocol
  import opened Quorum

  function RecordOf(row: Option<Row>): Option<Record> {
    if row.Some? then Some(row.value.record) else None
  }

  /** Replica `k` was observed at position `mark` of the run. */
  ghost predicate SeenAt(w: World, events: seq<Event>, lo: nat, mark: nat, k: ReplicaIndex, key: string,
                         version: Option<nat>, o: Observation)
  {
    && lo <= mark <= |events|
    && (o.responded ==> o.record == RecordOf(LookUp(Run(w, events[..mark])[k], key, version)))
  }

  /** Three observations, one per replica, each at its own moment of the run from `lo` on. */
  ghost predicate Observed(w: World, events: seq<Event>, lo: nat, key: string, version: Option<nat>,
                           obs: seq<Observation>, marks: seq<nat>)
  {
    && |obs| == 3 && |marks| == 3 && lo <= |events|
    && (forall k: ReplicaIndex :: SeenAt(w, events, lo, marks[k], k, key, version, obs[k]))
  }

  lemma SeenAtExtends(w: World, events: seq<Event>, more: seq<Event>, lo: nat, mark: nat, k: ReplicaIndex, key: string,
                      version: Option<nat>, o: Observation)
    requires events <= more
    requires SeenAt(w, events, lo, mark, k, key, version, o)
    ensures SeenAt(w, more, lo, mark, k, key, version, o)
  {
    assert more[..mark] == events[..mark];
  }

  /** An observed record sits on its replica from then on. */
  lemma SeenIsHeld(w: World, events: seq<Event>, lo: nat, mark: nat, k: ReplicaIndex, key: string,
                   version: Option<nat>, o: Observation)
    requires WorldInv(w)
    requires SeenAt(w, events, lo, mark, k, key, version, o)
    requires Present(o)
    ensures Holds(Run(w, events)[k], o.record.value) && Sound(o.record.value)
    ensures o.record.value.key == key
    ensures version.Some? ==> o.record.value.version == version.value
  {
    PrefixEvolves(w, events, mark, |events|);
    assert events[..|events|] == events;
    HeadRowAgrees(Run(w, events[..mark])[k], key);
  }

  /** A replica that held `r` when the read began presents `r`, or its key's later head. */
  lemma HolderPresents(w: World, events: seq<Event>, lo: nat, mark: nat, k: ReplicaIndex, key: string,
                       version: Option<nat>, o: Observation, r: Record)
    requires WorldInv(w)
    requires SeenAt(w, events, lo, mark, k, key, version, o)
    requires o.responded && r.key == key && r.version >= 1
    requires Holds(Run(w, events[..lo])[k], r)
    requires version.None? || version == Some(r.version)
    ensures Present(o)
    ensures version.None? ==> o.record.value.version >= r.version
    ensures version.Some? ==> o.record.value == r
  {
    PrefixEvolves(w, events, lo, mark);
    var st := Run(w, events[..mark])[k];
    assert Holds(st, r);
    HeadRowAgrees(st, key);
  }

  /** The record of an authoritative read is committed on two replicas. */
  lemma AuthoritativeIsHeld(w: World, events: seq<Event>, lo: nat, key: string, version: Option<nat>,
                            obs: seq<Observation>, marks: seq<nat>, result: ReadResult)
    requires WorldInv(w)
    requires Observed(w, events, lo, key, version, obs, marks)
    requires Answers(obs, result) && Authoritative(result)
    ensures result.record.Some? && result.record.value.key == key && Sound(result.record.value)
    ensures version.Some? ==> result.record.value.version == version.value
    ensures QuorumHolds(Run(w, events), result.record.value)
  {
    var r := result.record.value;
    var group := Agreeing(obs, r);
    var a :| a in group;
    assert |group - {a}| >= 1;
    var b :| b in group - {a};
    var source :| 0 <= source < 3 && Present(obs[source]) && obs[source].record == Some(r);
    SeenIsHeld(w, events, lo, marks[source], source, key, version, obs[source]);
    SeenIsHeld(w, events, lo, marks[a], a, key, version, obs[a]);
    SeenIsHeld(w, events, lo, marks[b], b, key, version, obs[b]);
    assert obs[a].record.value == r && obs[b].record.value == r;
  }

  /** An authoritative read meets one of any two holders of `r`. */
  lemma AuthorityMeetsHolder(w: World, events: seq<Event>, lo: nat, key: string, version: Option<nat>,
                             obs: seq<Observation>, marks: seq<nat>, result: ReadResult, r: Record,
                             i: ReplicaIndex, j: ReplicaIndex)
    requires WorldInv(w)
    requires Observed(w, events, lo, key, version, obs, marks)
    requires Answers(obs, result) && Authoritative(result)
    requires i != j && Holds(Run(w, events[..lo])[i], r) && Holds(Run(w, events[..lo])[j], r)
    requires r.key == key && r.version >= 1
    requires version.None? || version == Some(r.version)
    ensures result.record.Some? && result.record.value.version >= r.version
    ensures version.Some? ==> result.record == Some(r)
  {
    AuthoritativeIsHeld(w, events, lo, key, version, obs, marks, result);
    var m := MeetsPair(Agreeing(obs, result.record.value), i, j);
    assert Present(obs[m]);
    HolderPresents(w, events, lo, marks[m], m, key, version, obs[m], r);
    SeenIsHeld(w, events, lo, marks[m], m, key, version, obs[m]);
  }

  /** Once two replicas hold `r`, no later read of its key misses it, whatever moments it observes. */
  lemma ReadRespectsCommit(w: World, events: seq<Event>, lo: nat, key: string, version: Option<nat>,
                           obs: seq<Observation>, marks: seq<nat>, result: ReadResult, r: Record)
    requires WorldInv(w)
    requires Observed(w, events, lo, key, version, obs, marks)
    requires Answers(obs, result)
    requires QuorumHolds(Run(w, events[..lo]), r) && r.key == key && r.version >= 1
    requires version.None? || version == Some(r.version)
    ensures !result.outcome.NotFound?
    ensures Authoritative(result) ==> result.record.Some? && result.record.value.version >= r.version
    ensures Authoritative(result) && version.Some? ==> result.record == Some(r)
  {
    var before := Run(w, events[..lo]);
    var i: ReplicaIndex, j: ReplicaIndex :| i != j && Holds(before[i], r) && Holds(before[j], r);
    HolderIsSeen(w, events, lo, key, version, obs, marks, r, i, j);
    if Authoritative(result) {
      AuthorityMeetsHolder(w, events, lo, key, version, obs, marks, result, r, i, j);
    }
  }

  /** Among two responders one shows what one of any two holders of `r` must show. */
  lemma HolderIsSeen(w: World, events: seq<Event>, lo: nat, key: string, version: Option<nat>,
                     obs: seq<Observation>, marks: seq<nat>, r: Record, i: ReplicaIndex, j: ReplicaIndex)
    requires WorldInv(w)
    requires Observed(w, events, lo, key, version, obs, marks)
    requires i != j && Holds(Run(w, events[..lo])[i], r) && Holds(Run(w, events[..lo])[j], r)
    requires r.key == key && r.version >= 1
    requires version.None? || version == Some(r.version)
    ensures |Responders(obs)| >= QUORUM ==> Presenters(obs) != {}
  {
    var responders := Responders(obs);
    if |responders| >= QUORUM {
      var m := MeetsPair(responders, i, j);
      HolderPresents(w, events, lo, marks[m], m, key, version, obs[m], r);
      assert m in Presenters(obs);
    }
  }

  /** Two of three positions always include one of a given pair. */
  lemma MeetsPair(s: set<nat>, i: ReplicaIndex, j: ReplicaIndex) returns (m: ReplicaIndex)
    requires |s| >= 2 && i != j
    requires forall x | x in s :: x < 3
    ensures m in s && (m == i || m == j)
  {
    if i in s {
      m := i;
    } else {
      var other: nat := 3 - i - j;
      assert |s - {other}| >= 1;
      var x :| x in s - {other};
      m := j;
    }
  }

  /** With the same record at the head of three responsive replicas the read is CONSISTENT on it. */
  lemma AgreementReadsConsistent(obs: seq<Observation>, result: ReadResult, r: Record)
    requires |obs| == 3 && Answers(obs, result)
    requires forall k: ReplicaIndex :: obs[k] == Observation(true, Some(r))
    ensures result.outcome.Consistent? && result.record == Some(r)
  {
    assert Agreeing(obs, r) == Indices(3);
    assert obs[0].record == Some(r);
    assert 0 in Presenters(obs);
  }

  /** Two distinct replicas each had nothing to show at some moment of the read. */
  ghost predicate TwoEmptyMoments(w: World, events: seq<Event>, lo: nat, key: string, version: Option<nat>) {
    exists i: ReplicaIndex, j: ReplicaIndex, p: nat, q: nat ::
      && i != j
      && EmptyAt(w, events, lo, p, i, key, version)
      && EmptyAt(w, events, lo, q, j, key, version)
  }

  ghost predicate EmptyAt(w: World, events: seq<Event>, lo: nat, mark: nat, k: ReplicaIndex, key: string,
                          version: Option<nat>)
  {
    lo <= mark <= |events| && LookUp(Run(w, events[..mark])[k], key, version).None?
  }

  lemma NotFoundSawTwoEmpty(w: World, events: seq<Event>, lo: nat, key: string, version: Option<nat>,
                            obs: seq<Observation>, marks: seq<nat>, result: ReadResult)
    requires Observed(w, events, lo, key, version, obs, marks)
    requires Answers(obs, result) && result.outcome.NotFound?
    ensures TwoEmptyMoments(w, events, lo, key, version)
  {
    var responders := Responders(obs);
    var i :| i in responders;
    assert |responders - {i}| >= 1;
    var j :| j in responders - {i};
    forall m | m in responders
      ensures obs[m].record.None?
    {
      assert m !in Presenters(obs);
    }
    assert EmptyAt(w, events, lo, marks[i], i, key, version);
    assert EmptyAt(w, events, lo, marks[j], j, key, version);
  }

  /** An authoritative record belongs to the request and is committed on two replicas. */
  ghost predicate Grounded(after: World, key: string, version: Option<nat>, result: ReadResult) {
    Authoritative(result) ==>
      && result.record.Some? && result.record.value.key == key && Sound(result.record.value)
      && (version.Some? ==> result.record.value.version == version.value)
      && QuorumHolds(after, result.record.value)
  }

  /** No record two replicas held when the read began is missed, or answered with anything older or different. */
  ghost predicate RespectsCommits(before: World, key: string, version: Option<nat>, result: ReadResult) {
    forall r: Record | QuorumHolds(before, r) && r.key == key && r.version >= 1 ::
      && (version.None? ==>
            && !result.outcome.NotFound?
            && (Authoritative(result) ==> result.record.Some? && result.record.value.version >= r.version))
      && (version == Some(r.version) ==>
            && !result.outcome.NotFound?
            && (Authoritative(result) ==> result.record == Some(r)))
  }

  /** Everything a decided read establishes, for every record committed before it began. */
  lemma ReadFacts(w: World, events: seq<Event>, lo: nat, key: string, version: Option<nat>,
                  obs: seq<Observation>, marks: seq<nat>, result: ReadResult)
    requires WorldInv(w)
    requires Observed(w, events, lo, key, version, obs, marks)
    requires Answers(obs, result)
    ensures Grounded(Run(w, events), key, version, result)
    ensures RespectsCommits(Run(w, events[..lo]), key, version, result)
    ensures result.outcome.NotFound? ==> TwoEmptyMoments(w, events, lo, key, version)
  {
    if Authoritative(result) {
      AuthoritativeIsHeld(w, events, lo, key, version, obs, marks, result);
    }
    if result.outcome.NotFound? {
      NotFoundSawTwoEmpty(w, events, lo, key, version, obs, marks, result);
    }
    forall r: Record | QuorumHolds(Run(w, events[..lo]), r) && r.key == key && r.version >= 1
      ensures version.None? ==>
                && !result.outcome.NotFound?
                && (Authoritative(result) ==> result.record.Some? && result.record.value.version >= r.version)
      ensures version == Some(r.version) ==>
                && !result.outcome.NotFound?
                && (Authoritative(result) ==> result.record == Some(r))
    {
      if version.None? || version == Some(r.version) {
        ReadRespectsCommit(w, events, lo, key, version, obs, marks, result, r);
      }
    }
  }

  /** A write reported COMMITTED before a read began is what the read returns, or is overtaken by a later version. */
  lemma ReadAfterCommit(w: World, events: seq<Event>, lo: nat, op: string, r: Record, version: Option<nat>,
                        obs: seq<Observation>, marks: seq<nat>, result: ReadResult)
    requires WorldInv(w) && Sound(r)
    requires Observed(w, events, lo, r.key, version, obs, marks) && Answers(obs, result)
    requires CommittedBy(w, events[..lo], op, r)
    requires version.None? || version == Some(r.version)
    ensures !result.outcome.NotFound?
    ensures Authoritative(result) && version.Some? ==> result.record == Some(r)
    ensures Authoritative(result) && version.None? ==>
              && result.record.Some? && result.record.value.version >= r.version
              && (result.record.value.version == r.version ==> result.record.value == r)
  {
    CommittedIsHeld(w, events[..lo], op, r);
    ReadRespectsCommit(w, events, lo, r.key, version, obs, marks, result, r);
    if Authoritative(result) {
      AuthoritativeIsHeld(w, events, lo, r.key, version, obs, marks, result);
      PrefixEvolves(w, events, lo, |events|);
      assert events[..|events|] == events;
      QuorumPersists(Run(w, events[..lo]), Run(w, events), r);
      if result.record.value.version == r.version {
        QuorumUnique(Run(w, events), result.record.value, r);
      }
    }
  }

  /** Of two reads of a key, the one that began after the other ended never reports anything older, or nothing. */
  lemma ReadsNeverGoBack(w: World, events: seq<Event>, n: nat, lo: nat, key: string, first: ReadResult, second: ReadResult)
    requires WorldInv(w) && n <= lo <= |events|
    requires Grounded(Run(w, events[..n]), key, None, first) && Authoritative(first)
    requires RespectsCommits(Run(w, events[..lo]), key, None, second)
    ensures !second.outcome.NotFound?
    ensures Authoritative(second) ==> second.record.Some? && second.record.value.version >= first.record.value.version
  {
    PrefixEvolves(w, events, n, lo);
    QuorumPersists(Run(w, events[..n]), Run(w, events[..lo]), first.record.value);
  }
}
