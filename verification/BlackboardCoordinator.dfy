/**
 The coordinator's write, read and repair lifecycles over three replica objects. Between any two replica calls
 an arbitrary environment acts: other coordinators' transactions on the same stores, and health changes.
 */
module Coordinator {
  import opened BlackboardContracts
  import opened Wrappers
  import opened ReplicaStorage
  import opened BlackboardProtocol
  import opened Replica
  import opened Quorum
  import opened Reads

  /** One step of the environment between two replica calls. */
  datatype Interference = Elsewhere(event: Event) | Operator(replica: ReplicaIndex, health: Health)

  type Schedule = nat -> seq<Interference>

  /** Everything outside the coordinator that one write meets. */
  datatype WriteConditions = WriteConditions(
    prepare: ReplicaIndex -> PrepareCall,
    commit: ReplicaIndex -> Fault,
    abort: ReplicaIndex -> Fault,
    env: Schedule)

  /** Which observations fail, and what the environment does around them. */
  datatype ReadConditions = ReadConditions(fails: ReplicaIndex -> bool, env: Schedule)

  datatype RepairConditions = RepairConditions(
    probe: ReadConditions,
    upsert: ReplicaIndex -> Fault,
    recheckFails: ReplicaIndex -> bool,
    env: Schedule)

  /** Replica `k` answers, and its head of the key is `r`. */
  ghost predicate Fixed(w: World, healths: seq<Health>, k: ReplicaIndex, r: Record)
    requires |healths| == 3
  {
    HeadIs(w[k], r) && !healths[k].Down?
  }

  /** Every replica reported repaired is in order. */
  ghost predicate AllFixed(w: World, healths: seq<Health>, targets: seq<ReplicaIndex>, statuses: seq<RepairStatus>,
                           r: Record)
    requires |healths| == 3
  {
    |statuses| == |targets| &&
    forall m | 0 <= m < |targets| && statuses[m].Repaired? :: Fixed(w, healths, targets[m], r)
  }

  lemma AllFixedExtends(w: World, healths: seq<Health>, w': World, healths': seq<Health>, targets: seq<ReplicaIndex>,
                        n: nat, statuses: seq<RepairStatus>, status: RepairStatus, r: Record)
    requires |healths| == 3 && |healths'| == 3 && n < |targets|
    requires AllFixed(w, healths, targets[..n], statuses, r)
    requires forall k: ReplicaIndex | Fixed(w, healths, k, r) :: Fixed(w', healths', k, r)
    requires status.Repaired? ==> Fixed(w', healths', targets[n], r)
    ensures AllFixed(w', healths', targets[..n + 1], statuses + [status], r)
  {
  }

  /** All three replicas were targets and all were reported repaired. */
  ghost predicate Complete(targets: seq<ReplicaIndex>, statuses: seq<RepairStatus>) {
    (forall i: ReplicaIndex :: i in targets) && (forall s | s in statuses :: s.Repaired?)
  }

  datatype RepairStatus = Repaired | PreservedDivergentHead | RepairRefused

  /** Three responsive replicas whose head row of the key is `r`. */
  ghost predicate Aligned(w: World, healths: seq<Health>, key: string, r: Record)
    requires |healths| == 3
  {
    forall k: ReplicaIndex :: !healths[k].Down? && RecordOf(HeadRow(w[k], key)) == Some(r)
  }

  /** The environment issues this transaction around one of the observations. */
  ghost predicate DuringRead(c: ReadConditions, e: Event) {
    exists k: ReplicaIndex :: e in EventsOf(c.env(k))
  }

  /** Replica `k` answers the observation. */
  ghost predicate Answering(healths: seq<Health>, c: ReadConditions, k: ReplicaIndex)
    requires |healths| == 3
  {
    !healths[k].Down? && !c.fails(k)
  }

  /** It answers, and has exactly this to show for the request. */
  ghost predicate Presents(w: World, healths: seq<Health>, c: ReadConditions, key: string, version: Option<nat>,
                           k: ReplicaIndex, shown: Option<Record>)
    requires |healths| == 3
  {
    Answering(healths, c, k) && RecordOf(LookUp(w[k], key, version)) == shown
  }

  /** What a replica shows when nothing happens around the observation. */
  ghost predicate Shows(w: World, healths: seq<Health>, c: ReadConditions, k: ReplicaIndex, key: string,
                        version: Option<nat>, o: Observation)
    requires |healths| == 3
  {
    o == if Answering(healths, c, k) then Observation(true, RecordOf(LookUp(w[k], key, version))) else Observation(false, None)
  }

  /** Nothing happens around the replica calls. */
  ghost predicate Silent(env: Schedule) {
    forall n :: env(n) == []
  }

  /** Nothing happens around the observations and none of them fails. */
  ghost predicate Undisturbed(c: ReadConditions) {
    Silent(c.env) && (forall k: ReplicaIndex :: !c.fails(k))
  }

  /** Two replicas answer. */
  ghost predicate TwoAnswer(healths: seq<Health>, c: ReadConditions)
    requires |healths| == 3
  {
    exists i: ReplicaIndex, j: ReplicaIndex :: i != j && Answering(healths, c, i) && Answering(healths, c, j)
  }

  /** Two replicas answer with `r`. */
  ghost predicate TwoPresent(w: World, healths: seq<Health>, c: ReadConditions, key: string, version: Option<nat>, r: Record)
    requires |healths| == 3
  {
    exists i: ReplicaIndex, j: ReplicaIndex ::
      i != j && Presents(w, healths, c, key, version, i, Some(r)) && Presents(w, healths, c, key, version, j, Some(r))
  }

  /** All three do. */
  ghost predicate AllPresent(w: World, healths: seq<Health>, c: ReadConditions, key: string, version: Option<nat>, r: Record)
    requires |healths| == 3
  {
    forall k: ReplicaIndex :: Presents(w, healths, c, key, version, k, Some(r))
  }

  /** Two replicas answer and nobody who answers has anything to show. */
  ghost predicate NobodyPresents(w: World, healths: seq<Health>, c: ReadConditions, key: string, version: Option<nat>)
    requires |healths| == 3
  {
    && TwoAnswer(healths, c)
    && forall k: ReplicaIndex | Answering(healths, c, k) :: Presents(w, healths, c, key, version, k, None)
  }

  /**
   The result of a read as what the replicas show determines it: a record exactly if two answer with it, CONSISTENT
   if all three do, and otherwise the outcome that names what is missing.
   */
  ghost predicate Reflects(w: World, healths: seq<Health>, c: ReadConditions, key: string, version: Option<nat>,
                           result: ReadResult)
    requires |healths| == 3
  {
    && (forall r: Record :: result.record == Some(r) <==> TwoPresent(w, healths, c, key, version, r))
    && (result.outcome.Consistent? <==> result.record.Some? && AllPresent(w, healths, c, key, version, result.record.value))
    && (result.outcome.DegradedConsistent? <==>
          result.record.Some? && !AllPresent(w, healths, c, key, version, result.record.value))
    && (result.outcome.NotFound? <==> NobodyPresents(w, healths, c, key, version))
    && (result.outcome.ReadUnavailable? <==> forall k: ReplicaIndex :: !Answering(healths, c, k))
    && (result.outcome.InsufficientQuorum? <==>
          !TwoAnswer(healths, c) && exists k: ReplicaIndex :: Answering(healths, c, k))
    && !result.outcome.AuthorizationRejected?
  }

  /** A degraded answer marks exactly the replicas that answered otherwise; any other answer marks nobody. */
  ghost predicate MarksDivergent(w: World, healths: seq<Health>, healths': seq<Health>, c: ReadConditions, key: string,
                                 version: Option<nat>, result: ReadResult)
    requires |healths| == 3 && |healths'| == 3
  {
    forall k: ReplicaIndex ::
      healths'[k] ==
      if result.outcome.DegradedConsistent? && Answering(healths, c, k)
         && !Presents(w, healths, c, key, version, k, result.record)
      then Diverged else healths[k]
  }

  /** The head on the first available replica. */
  function Hint(w: World, healths: seq<Health>, key: string): nat
    requires |healths| == 3
  {
    if !healths[0].Down? then Head(w[0], key)
    else if !healths[1].Down? then Head(w[1], key)
    else if !healths[2].Down? then Head(w[2], key)
    else 0
  }

  /** The head of whichever replica is the first that is up, and 0 when none is. */
  lemma HintIsFirstHead(w: World, healths: seq<Health>, key: string, k: ReplicaIndex)
    requires |healths| == 3
    ensures !healths[k].Down? && (forall j: ReplicaIndex | j < k :: healths[j].Down?) ==> Hint(w, healths, key) == Head(w[k], key)
    ensures (forall j: ReplicaIndex :: healths[j].Down?) ==> Hint(w, healths, key) == 0
  {
  }

  lemma SameContent(a: Record, b: Record)
    requires Sound(a) && Sound(b) && a.contentHash == b.contentHash
    ensures a == b
  {
  }

  /** The record of a majority is shown by two distinct replicas. */
  lemma TwoAgree(obs: seq<Observation>, r: Record)
    requires |obs| == 3 && |Agreeing(obs, r)| >= QUORUM && Sound(r)
    requires forall k: ReplicaIndex | Present(obs[k]) :: Sound(obs[k].record.value)
    ensures exists i: ReplicaIndex, j: ReplicaIndex ::
              i != j && obs[i] == Observation(true, Some(r)) && obs[j] == Observation(true, Some(r))
  {
    var group := Agreeing(obs, r);
    var i :| i in group;
    assert |group - {i}| >= 1;
    var j :| j in group - {i};
    SameContent(obs[i].record.value, r);
    SameContent(obs[j].record.value, r);
  }

  lemma PairIsReturned(obs: seq<Observation>, result: ReadResult, r: Record, i: ReplicaIndex, j: ReplicaIndex)
    requires |obs| == 3 && Answers(obs, result) && i != j && Sound(r)
    requires obs[i] == Observation(true, Some(r)) && obs[j] == Observation(true, Some(r))
    requires forall k: ReplicaIndex | Present(obs[k]) :: Sound(obs[k].record.value)
    ensures result.record == Some(r)
  {
    assert {i, j} <= Agreeing(obs, r);
    SubsetCount({i, j}, Agreeing(obs, r));
    assert i in Presenters(obs);
    var found := result.record.value;
    var m := MeetsPair(Agreeing(obs, found), i, j);
    var k :| k in Presenters(obs) && result.record == obs[k].record;
    assert Present(obs[k]);
    SameContent(found, r);
  }

  /** What a replica shows for a request is sound. */
  lemma ShownIsSound(w: World, healths: seq<Health>, c: ReadConditions, key: string, version: Option<nat>,
                     obs: seq<Observation>)
    requires WorldInv(w) && |healths| == 3 && |obs| == 3
    requires forall k: ReplicaIndex :: Shows(w, healths, c, k, key, version, obs[k])
    ensures forall k: ReplicaIndex | Present(obs[k]) :: Sound(obs[k].record.value)
  {
    forall k: ReplicaIndex | Present(obs[k])
      ensures Sound(obs[k].record.value)
    {
      assert Shows(w, healths, c, k, key, version, obs[k]);
      HeadRowAgrees(w[k], key);
    }
  }

  lemma PresentsIsShown(w: World, healths: seq<Health>, c: ReadConditions, key: string, version: Option<nat>,
                        k: ReplicaIndex, r: Record, o: Observation)
    requires |healths| == 3 && Shows(w, healths, c, k, key, version, o)
    ensures Presents(w, healths, c, key, version, k, Some(r)) <==> o == Observation(true, Some(r))
  {
  }

  /** A read returns `r` exactly when two replicas answer with it. */
  lemma MajorityIsRead(w: World, healths: seq<Health>, c: ReadConditions, key: string, version: Option<nat>,
                       obs: seq<Observation>, result: ReadResult, r: Record)
    requires WorldInv(w) && |healths| == 3 && |obs| == 3 && Answers(obs, result)
    requires forall k: ReplicaIndex :: Shows(w, healths, c, k, key, version, obs[k])
    ensures result.record == Some(r) <==> TwoPresent(w, healths, c, key, version, r)
  {
    ShownIsSound(w, healths, c, key, version, obs);
    if result.record == Some(r) {
      ReturnedIsShown(obs, result, r);
      var i: ReplicaIndex, j: ReplicaIndex :|
        i != j && obs[i] == Observation(true, Some(r)) && obs[j] == Observation(true, Some(r));
      PresentsIsShown(w, healths, c, key, version, i, r, obs[i]);
      PresentsIsShown(w, healths, c, key, version, j, r, obs[j]);
    }
    if TwoPresent(w, healths, c, key, version, r) {
      var i: ReplicaIndex, j: ReplicaIndex :|
        i != j && Presents(w, healths, c, key, version, i, Some(r)) && Presents(w, healths, c, key, version, j, Some(r));
      PresentsIsShown(w, healths, c, key, version, i, r, obs[i]);
      PresentsIsShown(w, healths, c, key, version, j, r, obs[j]);
      PairIsReturned(obs, result, r, i, j);
    }
  }

  lemma ReturnedIsShown(obs: seq<Observation>, result: ReadResult, r: Record)
    requires |obs| == 3 && Answers(obs, result) && result.record == Some(r)
    requires forall k: ReplicaIndex | Present(obs[k]) :: Sound(obs[k].record.value)
    ensures exists i: ReplicaIndex, j: ReplicaIndex ::
              i != j && obs[i] == Observation(true, Some(r)) && obs[j] == Observation(true, Some(r))
  {
    var j :| j in Presenters(obs) && result.record == obs[j].record;
    assert Present(obs[j]);
    TwoAgree(obs, r);
  }

  /** All three answer with one record exactly when the read is CONSISTENT. */
  lemma UnanimityIsConsistent(obs: seq<Observation>, result: ReadResult, r: Record)
    requires |obs| == 3 && Answers(obs, result) && result.record == Some(r) && Sound(r)
    requires forall k: ReplicaIndex | Present(obs[k]) :: Sound(obs[k].record.value)
    ensures result.outcome.Consistent? <==> forall k: ReplicaIndex :: obs[k] == Observation(true, Some(r))
  {
    if forall k: ReplicaIndex :: obs[k] == Observation(true, Some(r)) {
      assert Agreeing(obs, r) == Indices(3) && 0 in Presenters(obs);
    }
    if result.outcome.Consistent? {
      var j :| j in Presenters(obs) && |Agreeing(obs, obs[j].record.value)| == 3;
      AllAgree(obs, j, r);
    }
  }

  /** If all three agree with one of them, they all agree with any record two of them agree on. */
  lemma AllAgree(obs: seq<Observation>, j: ReplicaIndex, r: Record)
    requires |obs| == 3 && Present(obs[j]) && |Agreeing(obs, obs[j].record.value)| == 3
    requires |Agreeing(obs, r)| >= QUORUM && Sound(r)
    requires forall k: ReplicaIndex | Present(obs[k]) :: Sound(obs[k].record.value)
    ensures forall k: ReplicaIndex :: obs[k] == Observation(true, Some(r))
  {
    var first := obs[j].record.value;
    WholeSet(Agreeing(obs, first));
    var m :| m in Agreeing(obs, r);
    SameContent(obs[m].record.value, r);
    assert m in Agreeing(obs, first);
    SameContent(r, first);
    forall k: ReplicaIndex
      ensures obs[k] == Observation(true, Some(r))
    {
      assert k in Agreeing(obs, first);
      SameContent(obs[k].record.value, first);
    }
  }

  lemma WholeSet(s: set<nat>)
    requires |s| == 3 && forall x | x in s :: x < 3
    ensures forall k: ReplicaIndex :: k in s
  {
    if k: ReplicaIndex :| k !in s {
      assert s <= Indices(3) - {k};
      SubsetCount(s, Indices(3) - {k});
    }
  }

  /** Counting responders: none, exactly one, at least two. */
  lemma RespondersCount(healths: seq<Health>, c: ReadConditions, obs: seq<Observation>)
    requires |healths| == 3 && |obs| == 3
    requires forall k: ReplicaIndex :: obs[k].responded <==> Answering(healths, c, k)
    ensures |Responders(obs)| >= QUORUM <==> TwoAnswer(healths, c)
    ensures Responders(obs) == {} <==> forall k: ReplicaIndex :: !Answering(healths, c, k)
  {
    var responders := Responders(obs);
    if |responders| >= QUORUM {
      var i :| i in responders;
      assert |responders - {i}| >= 1;
      var j :| j in responders - {i};
    }
    if TwoAnswer(healths, c) {
      var i: ReplicaIndex, j: ReplicaIndex :| i != j && Answering(healths, c, i) && Answering(healths, c, j);
      SubsetCount({i, j}, responders);
    }
    if k: ReplicaIndex :| Answering(healths, c, k) {
      assert k in responders;
    }
  }

  /** With nothing happening in between, the answer is what the replicas show. */
  lemma ReadReflects(w: World, healths: seq<Health>, c: ReadConditions, key: string, version: Option<nat>,
                     obs: seq<Observation>, result: ReadResult)
    requires WorldInv(w) && |healths| == 3 && |obs| == 3 && Answers(obs, result)
    requires forall k: ReplicaIndex :: Shows(w, healths, c, k, key, version, obs[k])
    ensures Reflects(w, healths, c, key, version, result)
    ensures result.outcome.DegradedConsistent? ==> Divergent(w, healths, c, key, version, result)
  {
    assert forall r: Record :: result.record == Some(r) <==> TwoPresent(w, healths, c, key, version, r) by {
      forall r: Record
        ensures result.record == Some(r) <==> TwoPresent(w, healths, c, key, version, r)
      {
        MajorityIsRead(w, healths, c, key, version, obs, result, r);
      }
    }
    FewReflects(w, healths, c, key, version, obs, result);
    if result.record.Some? {
      MajorityReflects(w, healths, c, key, version, obs, result);
    }
    AuthorityHasRecord(obs, result);
  }

  lemma AuthorityHasRecord(obs: seq<Observation>, result: ReadResult)
    requires |obs| == 3 && Answers(obs, result)
    ensures result.record.Some? <==> result.outcome.Consistent? || result.outcome.DegradedConsistent?
    ensures !result.outcome.AuthorizationRejected?
  {
  }

  /** The outcomes that depend only on who answers and whether anyone has anything. */
  lemma FewReflects(w: World, healths: seq<Health>, c: ReadConditions, key: string, version: Option<nat>,
                    obs: seq<Observation>, result: ReadResult)
    requires |healths| == 3 && |obs| == 3 && Answers(obs, result)
    requires forall k: ReplicaIndex :: Shows(w, healths, c, k, key, version, obs[k])
    ensures result.outcome.NotFound? <==> NobodyPresents(w, healths, c, key, version)
    ensures result.outcome.ReadUnavailable? <==> forall k: ReplicaIndex :: !Answering(healths, c, k)
    ensures result.outcome.InsufficientQuorum? <==>
              !TwoAnswer(healths, c) && exists k: ReplicaIndex :: Answering(healths, c, k)
  {
    forall k: ReplicaIndex
      ensures obs[k].responded <==> Answering(healths, c, k)
    {
      assert Shows(w, healths, c, k, key, version, obs[k]);
    }
    RespondersCount(healths, c, obs);
    EmptyIsNotFound(w, healths, c, key, version, obs);
  }

  /** Exactly the replicas that answered, and not with this record, are reported divergent. */
  ghost predicate Divergent(w: World, healths: seq<Health>, c: ReadConditions, key: string, version: Option<nat>,
                            result: ReadResult)
    requires |healths| == 3
  {
    forall k: ReplicaIndex ::
      k in result.divergent <==> Answering(healths, c, k) && !Presents(w, healths, c, key, version, k, result.record)
  }

  /** How far the record of a majority is shared. */
  lemma MajorityReflects(w: World, healths: seq<Health>, c: ReadConditions, key: string, version: Option<nat>,
                         obs: seq<Observation>, result: ReadResult)
    requires WorldInv(w) && |healths| == 3 && |obs| == 3 && Answers(obs, result) && result.record.Some?
    requires forall k: ReplicaIndex :: Shows(w, healths, c, k, key, version, obs[k])
    ensures result.outcome.Consistent? <==> AllPresent(w, healths, c, key, version, result.record.value)
    ensures result.outcome.DegradedConsistent? ==> Divergent(w, healths, c, key, version, result)
  {
    ShownIsSound(w, healths, c, key, version, obs);
    var r := result.record.value;
    var i :| i in Presenters(obs) && result.record == obs[i].record;
    assert Present(obs[i]);
    UnanimityIsConsistent(obs, result, r);
    DivergentShowOtherwise(obs, r);
    forall k: ReplicaIndex
      ensures obs[k].responded <==> Answering(healths, c, k)
      ensures Presents(w, healths, c, key, version, k, result.record) <==> obs[k] == Observation(true, Some(r))
    {
      assert Shows(w, healths, c, k, key, version, obs[k]);
    }
  }

  /** Outside the group of `r` are exactly the observations that do not show `r`. */
  lemma DivergentShowOtherwise(obs: seq<Observation>, r: Record)
    requires |obs| == 3 && Sound(r)
    requires forall k: ReplicaIndex | Present(obs[k]) :: Sound(obs[k].record.value)
    ensures forall k: ReplicaIndex ::
              k in Responders(obs) - Agreeing(obs, r) <==> obs[k].responded && obs[k] != Observation(true, Some(r))
  {
    forall k: ReplicaIndex
      ensures k in Agreeing(obs, r) <==> obs[k] == Observation(true, Some(r))
    {
      if k in Agreeing(obs, r) {
        SameContent(obs[k].record.value, r);
      }
    }
  }

  lemma EmptyIsNotFound(w: World, healths: seq<Health>, c: ReadConditions, key: string, version: Option<nat>,
                        obs: seq<Observation>)
    requires |healths| == 3 && |obs| == 3
    requires forall k: ReplicaIndex :: Shows(w, healths, c, k, key, version, obs[k])
    ensures (forall k: ReplicaIndex | Answering(healths, c, k) :: Presents(w, healths, c, key, version, k, None)) <==>
              Presenters(obs) == {}
  {
    forall k: ReplicaIndex
      ensures Answering(healths, c, k) && !Presents(w, healths, c, key, version, k, None) <==> k in Presenters(obs)
    {
      assert Shows(w, healths, c, k, key, version, obs[k]);
    }
  }

  /** Aligned replicas that answer are read as CONSISTENT on their common head. */
  lemma AlignedReadsConsistent(w: World, healths: seq<Health>, c: ReadConditions, key: string, result: ReadResult, r: Record)
    requires |healths| == 3 && Reflects(w, healths, c, key, None, result)
    requires Aligned(w, healths, key, r) && Undisturbed(c)
    ensures result.outcome.Consistent? && result.record == Some(r)
  {
    forall k: ReplicaIndex
      ensures Presents(w, healths, c, key, None, k, Some(r))
    {
    }
    assert Presents(w, healths, c, key, None, 0, Some(r)) && Presents(w, healths, c, key, None, 1, Some(r));
  }

  /** The transaction commits nothing under this key. */
  predicate KeepsKey(e: Event, key: string) {
    match e.tx
    case TxPrepare(_, _, _, _) => true
    case TxCommit(slot, _, _) => slot.key != key
    case TxAbort(_, _) => true
    case TxUpsert(record, _) => record.key != key
  }

  /** An environment that neither commits under the key nor touches any replica's health. */
  ghost predicate Calm(env: Schedule, key: string) {
    forall n: nat :: CalmSteps(env(n), key)
  }

  ghost predicate CalmSteps(steps: seq<Interference>, key: string) {
    forall step | step in steps :: step.Elsewhere? && KeepsKey(step.event, key)
  }

  /** `r` is committed here and nothing of its key above it. */
  ghost predicate HeadIs(st: Store, r: Record) {
    Head(st, r.key) == r.version && Holds(st, r)
  }

  lemma HeadIsHeadRow(st: Store, r: Record)
    requires StoreInv(st) && r.version >= 1
    ensures HeadIs(st, r) <==> RecordOf(HeadRow(st, r.key)) == Some(r)
  {
    HeadRowAgrees(st, r.key);
  }

  lemma HeadUnmoved(st: Store, i: ReplicaIndex, tx: Tx, key: string)
    requires KeepsKey(Event(i, tx), key)
    ensures Head(ApplyTx(st, tx), key) == Head(st, key)
  {
  }

  lemma StepKeepsHead(w: World, e: Event, r: Record)
    requires WorldInv(w) && KeepsKey(e, r.key)
    ensures KeepsHeads(w, Step(w, e), r)
  {
    HeadUnmoved(w[e.replica], e.replica, e.tx, r.key);
    ApplyTxKeepsInvariant(w[e.replica], e.tx);
  }

  lemma {:induction false} RunKeepsHead(w: World, events: seq<Event>, r: Record)
    requires WorldInv(w)
    requires forall e | e in events :: KeepsKey(e, r.key)
    ensures KeepsHeads(w, Run(w, events), r)
  {
    if events != [] {
      var prefix := events[..|events| - 1];
      RunKeepsHead(w, prefix, r);
      RunKeepsInvariant(w, prefix);
      StepKeepsHead(Run(w, prefix), events[|events| - 1], r);
    }
  }

  /** The record is this replica's head, or its next version. */
  ghost predicate Mendable(st: Store, r: Record) {
    HeadIs(st, r) || Head(st, r.key) + 1 == r.version
  }

  /** A repair insert gets through to replica `i`, which can take the record. */
  ghost predicate Mends(w: World, healths: seq<Health>, c: RepairConditions, i: ReplicaIndex, r: Record)
    requires |healths| == 3
  {
    !healths[i].Down? && c.upsert(i).NoFault? && Mendable(w[i], r)
  }

  /** Its head is already beyond the record. */
  ghost predicate Ahead(w: World, c: RepairConditions, i: ReplicaIndex, r: Record) {
    !c.recheckFails(i) && Head(w[i], r.key) > r.version
  }

  /** What a repair insert does to the stores. */
  ghost predicate InsertTurn(w: World, healths: seq<Health>, w': World, c: RepairConditions, i: ReplicaIndex, r: Record, ack: Ack)
    requires |healths| == 3
  {
    && (forall k: ReplicaIndex | k != i :: w'[k] == w[k])
    && (if Mends(w, healths, c, i, r) then ack.status.AckCommitted? && HeadIs(w'[i], r) else w'[i] == w[i])
    && (ack.status.AckCommitted? && HeadIs(w'[i], r) ==> Mends(w, healths, c, i, r))
  }

  /** The store and the health of one repaired replica: mended and cleared, preserved and marked, or left alone. */
  ghost predicate Treated(w: World, healths: seq<Health>, c: RepairConditions, k: ReplicaIndex, r: Record, st: Store,
                          health: Health)
    requires |healths| == 3
  {
    && (if Mends(w, healths, c, k, r) then HeadIs(st, r) else st == w[k])
    && health == if Mends(w, healths, c, k, r) && !c.recheckFails(k) then Cleared(healths[k])
                 else if Ahead(w, c, k, r) then Diverged else healths[k]
  }

  function Cleared(health: Health): Health {
    if health.Diverged? then Healthy else health
  }

  /** A replica is reported repaired exactly if the insert mends it, and preserved exactly if its head is beyond the record. */
  ghost predicate Reported(w: World, healths: seq<Health>, c: RepairConditions, i: ReplicaIndex, r: Record, status: RepairStatus)
    requires |healths| == 3
  {
    && (status.Repaired? <==> Mends(w, healths, c, i, r) && !c.recheckFails(i))
    && (status.PreservedDivergentHead? <==> Ahead(w, c, i, r))
  }

  /** A whole repair with nothing around it: every target is treated and reported by the state before, nobody else touched. */
  ghost predicate AllTreated(w: World, healths: seq<Health>, w': World, healths': seq<Health>, c: RepairConditions,
                             targets: seq<ReplicaIndex>, r: Record, statuses: seq<RepairStatus>)
    requires |healths| == 3 && |healths'| == 3
  {
    && |statuses| == |targets|
    && (forall n | 0 <= n < |targets| :: Reported(w, healths, c, targets[n], r, statuses[n]))
    && (forall k: ReplicaIndex | k in targets :: Treated(w, healths, c, k, r, w'[k], healths'[k]))
    && (forall k: ReplicaIndex | k !in targets :: w'[k] == w[k] && healths'[k] == healths[k])
  }

  /** Treating a replica again changes nothing that matters. */
  lemma TreatedTwice(w: World, healths: seq<Health>, w1: World, healths1: seq<Health>, c: RepairConditions, i: ReplicaIndex,
                     r: Record, st: Store, health: Health, status: RepairStatus)
    requires |healths| == 3 && |healths1| == 3
    requires Treated(w, healths, c, i, r, w1[i], healths1[i]) || (w1[i] == w[i] && healths1[i] == healths[i])
    requires Treated(w1, healths1, c, i, r, st, health) && Reported(w1, healths1, c, i, r, status)
    ensures Treated(w, healths, c, i, r, st, health) && Reported(w, healths, c, i, r, status)
  {
  }

  lemma AllTreatedExtends(w: World, healths: seq<Health>, w1: World, healths1: seq<Health>, w2: World, healths2: seq<Health>,
                          c: RepairConditions, targets: seq<ReplicaIndex>, n: nat, r: Record, statuses: seq<RepairStatus>,
                          status: RepairStatus)
    requires |healths| == 3 && |healths1| == 3 && |healths2| == 3 && n < |targets|
    requires AllTreated(w, healths, w1, healths1, c, targets[..n], r, statuses)
    requires forall k: ReplicaIndex | k != targets[n] :: w2[k] == w1[k] && healths2[k] == healths1[k]
    requires Treated(w1, healths1, c, targets[n], r, w2[targets[n]], healths2[targets[n]])
    requires Reported(w1, healths1, c, targets[n], r, status)
    ensures AllTreated(w, healths, w2, healths2, c, targets[..n + 1], r, statuses + [status])
  {
    var i := targets[n];
    TreatedTwice(w, healths, w1, healths1, c, i, r, w2[i], healths2[i], status);
    assert targets[..n + 1] == targets[..n] + [i];
  }

  /** Judging by the head after the insert treats and reports the replica. */
  lemma JudgedIsTreated(w: World, healths: seq<Health>, w': World, healths': seq<Health>, c: RepairConditions, i: ReplicaIndex,
                        r: Record, ack: Ack, status: RepairStatus)
    requires |healths| == 3 && |healths'| == 3 && InsertTurn(w, healths, w', c, i, r, ack)
    requires status.Repaired? <==> ack.status.AckCommitted? && !c.recheckFails(i) && HeadIs(w'[i], r)
    requires status.PreservedDivergentHead? <==> !status.Repaired? && Ahead(w', c, i, r)
    requires healths'[i] == if status.Repaired? then Cleared(healths[i])
                            else if status.PreservedDivergentHead? then Diverged else healths[i]
    ensures Treated(w, healths, c, i, r, w'[i], healths'[i]) && Reported(w, healths, c, i, r, status)
  {
  }

  lemma InsertedByUpsert(w: World, healths: seq<Health>, i: ReplicaIndex, op: string, r: SoundRecord, c: RepairConditions)
    requires WorldInv(w) && |healths| == 3
    ensures var (tx, ack) := UpsertReply(w[i], i, healths[i], op, r, c.upsert(i));
            && (tx == None || tx == Some(TxUpsert(r, op)))
            && (ack.status.AckCommitted? ==> !healths[i].Down?)
            && InsertTurn(w, healths, w[i := ApplyOptional(w[i], tx)], c, i, r, ack)
  {
    UpsertReplyShape(w[i], i, healths[i], op, r, c.upsert(i));
    UpsertMends(w[i], i, healths[i], op, r, c.upsert(i));
  }

  /** A repair insert mends exactly a replica that answers and has the record at its head or right above it. */
  lemma UpsertMends(st: Store, i: ReplicaIndex, health: Health, op: string, r: SoundRecord, fault: Fault)
    requires StoreInv(st)
    ensures var (tx, ack) := UpsertReply(st, i, health, op, r, fault);
            var st' := ApplyOptional(st, tx);
            var mends := !health.Down? && fault.NoFault? && Mendable(st, r);
            && (mends ==> ack.status.AckCommitted? && HeadIs(st', r))
            && (!mends ==> st' == st && !(ack.status.AckCommitted? && HeadIs(st', r)))
  {
    UpsertAnswered(st, i, health, op, r, fault);
  }

  lemma {:induction false} CalmEvents(steps: seq<Interference>, key: string)
    requires CalmSteps(steps, key)
    ensures forall e | e in EventsOf(steps) :: KeepsKey(e, key)
  {
    if steps != [] {
      CalmEvents(steps[..|steps| - 1], key);
    }
  }

  /** From `lo` on: other operations' transactions, and upserts of `r` by this repair. */
  ghost predicate RepairSegment(events: seq<Event>, lo: nat, op: string, r: Record) {
    forall n | lo <= n < |events| ::
      Foreign(events[n], op) || (events[n].tx.TxUpsert? && events[n].tx.record == r && events[n].tx.operationId == op)
  }

  /** Heads equal to `r` stay equal to `r`. */
  ghost predicate KeepsHeads(w: World, w': World, r: Record) {
    forall k: ReplicaIndex :: HeadIs(w[k], r) ==> HeadIs(w'[k], r)
  }

  lemma CalmKeepsHeads(w: World, before: seq<Event>, steps: seq<Interference>, r: Record)
    requires WorldInv(w)
    requires CalmSteps(steps, r.key)
    ensures KeepsHeads(Run(w, before), Run(w, before + EventsOf(steps)), r)
  {
    RunKeepsInvariant(w, before);
    RunAppend(w, before, EventsOf(steps));
    CalmEvents(steps, r.key);
    RunKeepsHead(Run(w, before), EventsOf(steps), r);
  }

  lemma UpsertStepKeepsHeads(w: World, i: ReplicaIndex, op: string, r: SoundRecord)
    ensures KeepsHeads(w, Step(w, Event(i, TxUpsert(r, op))), r)
  {
  }

  /** One repair as the run sees it: interference, at most one upsert of the majority record, interference. */
  lemma RepairKeepsHeads(w: World, before: seq<Event>, first: seq<Interference>, issued: seq<Event>,
                         second: seq<Interference>, i: ReplicaIndex, op: string, r: SoundRecord)
    requires WorldInv(w)
    requires issued == [] || issued == [Event(i, TxUpsert(r, op))]
    requires CalmSteps(first, r.key) && CalmSteps(second, r.key)
    ensures KeepsHeads(Run(w, before), Run(w, before + EventsOf(first) + issued + EventsOf(second)), r)
  {
    var t1 := before + EventsOf(first);
    var t2 := t1 + issued;
    var t3 := t2 + EventsOf(second);
    CalmKeepsHeads(w, before, first, r);
    if issued != [] {
      assert (t1 + issued)[..|t1|] == t1;
      UpsertStepKeepsHeads(Run(w, t1), i, op, r);
    } else {
      assert t2 == t1;
    }
    CalmKeepsHeads(w, t2, second, r);
    KeepsHeadsChain(Run(w, before), Run(w, t1), Run(w, t2), r);
    KeepsHeadsChain(Run(w, before), Run(w, t2), Run(w, t3), r);
  }

  lemma KeepsHeadsChain(w0: World, w1: World, w2: World, r: Record)
    requires KeepsHeads(w0, w1, r) && KeepsHeads(w1, w2, r)
    ensures KeepsHeads(w0, w2, r)
  {
  }

  lemma UpsertReplyShape(st: Store, i: ReplicaIndex, health: Health, op: string, r: SoundRecord, fault: Fault)
    ensures var (tx, ack) := UpsertReply(st, i, health, op, r, fault);
            && (tx == None || tx == Some(TxUpsert(r, op)))
            && (ack.status.AckCommitted? ==> !health.Down?)
  {
  }

  lemma EnvironmentTurn(w: World, before: seq<Event>, n: nat, env: Schedule, op: string)
    requires ForeignSchedule(env, op)
    ensures var after := before + EventsOf(env(n));
            && (forall m | |before| <= m < |after| :: DuringWrite(env, after[m]))
            && NoOwnCommit(after, |before|, op)
            && (forall k: ReplicaIndex :: Quiet(Run(w, before)[k], Run(w, after)[k], op))
  {
    var after := before + EventsOf(env(n));
    forall m | |before| <= m < |after|
      ensures DuringWrite(env, after[m]) && Foreign(after[m], op)
    {
      assert after[m] in EventsOf(env(n));
    }
    RunAppend(w, before, EventsOf(env(n)));
    ForeignRunQuiet(Run(w, before), EventsOf(env(n)), op);
  }

  /** Nothing happens around the replica calls and none of them fails. */
  ghost predicate Unhindered(c: WriteConditions) {
    && Silent(c.env)
    && (forall k: ReplicaIndex ::
          c.prepare(k).fault.NoFault? && c.prepare(k).interception.PassThrough? && c.prepare(k).fits && c.commit(k).NoFault?)
  }

  /** The record hook of replica `k` hands on what it is given. */
  predicate Untouched(c: WriteConditions, k: ReplicaIndex) {
    c.prepare(k).interception.PassThrough?
  }

  /** A replica that can stage this record: it answers, the record is its next version, and its slot is free to take. */
  ghost predicate Receptive(st: Store, health: Health, r: Record, call: PrepareCall, lease: real) {
    && Sound(r) && !health.Down? && call.fault.NoFault? && call.fits
    && Head(st, r.key) + 1 == r.version && !Leased(st, r, call.now, lease)
  }

  predicate Granted(ack: Ack, r: Record) {
    ack.status.AckPrepared? && ack.subject == Some(r)
  }

  ghost predicate StagedHere(st: Store, op: string, r: Record) {
    StagedBy(st, SlotOf(r), r.recordId, op) && Head(st, r.key) + 1 == r.version
  }

  /** It granted the prepare, holds the staging and still answers. */
  ghost predicate Primed(st: Store, health: Health, op: string, r: Record, ack: Ack) {
    Granted(ack, r) && StagedHere(st, op, r) && !health.Down?
  }

  /** Every replica with an honest hook that granted anything is ready to commit this record. */
  ghost predicate AllPrimed(w: World, healths: seq<Health>, op: string, r: Record, acks: seq<Ack>, c: WriteConditions)
    requires |healths| == 3 && |acks| == 3
  {
    forall k: ReplicaIndex | Untouched(c, k) && acks[k].status.AckPrepared? :: Primed(w[k], healths[k], op, r, acks[k])
  }

  /** Two replicas granted the prepare of this record. */
  ghost predicate TwoGranted(acks: seq<Ack>, r: Record)
    requires |acks| == 3
  {
    exists i: ReplicaIndex, j: ReplicaIndex :: i != j && Granted(acks[i], r) && Granted(acks[j], r)
  }

  /** A prepare through an honest hook is granted exactly by a receptive replica, and leaves it primed. */
  lemma PrepareIsGranted(st: Store, i: ReplicaIndex, health: Health, op: string, r: Record, call: PrepareCall, lease: real)
    requires call.interception.PassThrough?
    ensures var (tx, ack) := PrepareReply(st, i, health, op, r, call, lease);
            && (ack.status.AckPrepared? <==> Receptive(st, health, r, call, lease))
            && (ack.status.AckPrepared? ==> Primed(ApplyOptional(st, tx), health, op, r, ack))
  {
    PrepareAnswered(st, i, health, op, r, r, call, lease);
  }

  /** Everything a commit call does to a settled store. */
  ghost predicate CommitCall(st: Store, st': Store, i: ReplicaIndex, health: Health, op: string, record: Record, fault: Fault,
                             prepared: Ack, ack: Ack)
  {
    && Settled(st', op, record, prepared, ack.status.AckCommitted?)
    && ack.replica == i && ack.subject == Some(record)
    && (ack.status.AckCommitted? ==>
          && prepared.status.AckPrepared? && prepared.subject.Some?
          && prepared.subject.value.recordId == record.recordId)
    && (ack.status.AckCommitted? <==>
          !health.Down? && fault.NoFault? && StagedBy(st, SlotOf(record), record.recordId, op))
  }

  lemma CommitSettles(st: Store, i: ReplicaIndex, health: Health, op: string, record: Record, fault: Fault, prepared: Ack)
    requires StoreInv(st) && Settled(st, op, record, prepared, false)
    ensures var (tx, ack) := CommitReply(st, i, health, op, record, fault);
            && CommitCall(st, ApplyOptional(st, tx), i, health, op, record, fault, prepared, ack)
            && (tx.None? || tx == Some(TxCommit(SlotOf(record), record.recordId, op)))
            && (ack.status.AckCommitted? ==>
                  tx.Some? && CommitPromote(st, SlotOf(record), record.recordId, op).1.Promoted?)
  {
    CommitPromotes(st, i, health, op, record, fault, prepared);
    CommitAnswered(st, i, health, op, record, fault);
  }

  lemma CommitIsPromotion(w: World, before: seq<Event>, i: ReplicaIndex, op: string, record: Record, tx: Option<Tx>)
    requires tx == Some(TxCommit(SlotOf(record), record.recordId, op))
    requires CommitPromote(Run(w, before)[i], SlotOf(record), record.recordId, op).1.Promoted?
    ensures PromotedAt(w, before + [Event(i, tx.value)], |before|, i, op, record)
  {
  }

  /** Two grants of one record are a quorum, which takes in every other grant of it. */
  lemma GrantsAreQuorum(acks: seq<Ack>, r: Record, d: QuorumDecision)
    requires |acks| == 3 && Decides(acks, QUORUM, d) && TwoGranted(acks, r)
    ensures d.verdict.QuorumMet?
    ensures forall k: ReplicaIndex | Granted(acks[k], r) :: k in d.compatible
  {
    var id := Identity(r.recordId, r.key, r.version, r.contentHash);
    var i: ReplicaIndex, j: ReplicaIndex :| i != j && Granted(acks[i], r) && Granted(acks[j], r);
    assert {i, j} <= Supporters(acks, id);
    SubsetCount({i, j}, Supporters(acks, id));
    if d.verdict.QuorumMet? {
      var best: Identity :| d.compatible == Supporters(acks, best) && |Supporters(acks, best)| >= QUORUM
                            && forall other: Identity :: |Supporters(acks, other)| <= |Supporters(acks, best)|;
      WinnerIsUnique(acks, QUORUM, id, best);
    }
  }

  ghost predicate TwoPrepared(acks: seq<Ack>)
    requires |acks| == 3
  {
    exists i: ReplicaIndex, j: ReplicaIndex :: i != j && acks[i].status.AckPrepared? && acks[j].status.AckPrepared?
  }

  /** A met quorum needs two grants. */
  lemma QuorumNeedsGrants(acks: seq<Ack>, d: QuorumDecision)
    requires |acks| == 3 && Decides(acks, QUORUM, d) && d.verdict.QuorumMet?
    ensures TwoPrepared(acks)
  {
    var best: Identity :| d.compatible == Supporters(acks, best) && |Supporters(acks, best)| >= QUORUM;
    var i :| i in Supporters(acks, best);
    assert |Supporters(acks, best) - {i}| >= 1;
    var j :| j in Supporters(acks, best) - {i};
  }

  /** Exactly the prepared replicas, or exactly the others with a known subject, were asked to abort. */
  ghost predicate AbortAnswers(acks: seq<Ack>, prepared: bool, answers: seq<PhaseAnswer>, n: nat)
    requires |acks| == 3 && |answers| == 3
  {
    forall k: ReplicaIndex | k < n ::
      answers[k].FromAbort? <==> acks[k].status.AckPrepared? == prepared && (prepared || acks[k].subject.Some?)
  }

  datatype Admission = Admitted | BlankPrincipal | InvalidSchema | Denied

  datatype WriteResult = WriteResult(
    outcome: WriteOutcome,
    prepareAcks: seq<Ack>,
    commitAcks: seq<Ack>,
    abortAcks: seq<Ack>)

  /** What one replica answered in the commit phase. */
  datatype PhaseAnswer = Skipped | FromCommit(ack: Ack) | FromAbort(ack: Ack)

  predicate PromotedBy(answer: PhaseAnswer) {
    answer.FromCommit? && answer.ack.status.AckCommitted?
  }

  function EventOf(step: Interference): seq<Event> {
    if step.Elsewhere? then [step.event] else []
  }

  function EventsOf(steps: seq<Interference>): seq<Event> {
    if steps == [] then []
    else EventsOf(steps[..|steps| - 1]) + EventOf(steps[|steps| - 1])
  }

  ghost predicate NoOperator(steps: seq<Interference>) {
    forall step | step in steps :: step.Elsewhere?
  }

  /** The transaction belongs to some other operation. */
  predicate Foreign(e: Event, op: string) {
    match e.tx
    case TxPrepare(_, o, _, _) => o != op
    case TxCommit(_, _, o) => o != op
    case TxAbort(_, owner) => owner != Some(op)
    case TxUpsert(_, o) => o != op
  }

  ghost predicate ForeignSchedule(env: Schedule, op: string) {
    forall n: nat, e :: e in EventsOf(env(n)) ==> Foreign(e, op)
  }

  /** A replica's state during the commit phase; `done` says whether this operation promoted its row here. */
  ghost predicate Settled(st: Store, op: string, record: Record, prepared: Ack, done: bool) {
    && StagedAs(st, op, prepared)
    && WroteOnly(st, op, record)
    && (Gained(st, op) <==> done)
    && (done ==> NoStaging(st, op))
  }

  lemma SettledPersists(st: Store, st': Store, op: string, record: Record, prepared: Ack, done: bool)
    requires Settled(st, op, record, prepared, done) && Quiet(st, st', op)
    ensures Settled(st', op, record, prepared, done)
  {
  }

  /** The transactions one write may issue itself. */
  predicate OwnWrite(e: Event, op: string, record: Record) {
    match e.tx
    case TxPrepare(_, o, _, _) => o == op
    case TxCommit(slot, id, o) => slot == SlotOf(record) && id == record.recordId && o == op
    case TxAbort(_, owner) => owner == Some(op)
    case TxUpsert(_, _) => false
  }

  /** Some committed row was written by this operation. */
  ghost predicate Gained(st: Store, op: string) {
    exists s :: s in st.committed && st.committed[s].operationId == op
  }

  /** No staging of this operation is left. */
  ghost predicate NoStaging(st: Store, op: string) {
    forall s | s in st.pending :: st.pending[s].operationId != op
  }

  ghost function GainedReplicas(w: World, op: string): set<ReplicaIndex> {
    set i: ReplicaIndex | Gained(w[i], op)
  }

  /** What the staging of this operation on one replica can be, given the replica's prepare acknowledgement. */
  ghost predicate StagedAs(st: Store, op: string, ack: Ack) {
    forall s | s in st.pending && st.pending[s].operationId == op ::
      && ack.status.AckPrepared? && ack.subject.Some?
      && s == SlotOf(ack.subject.value)
      && st.pending[s].record.recordId == ack.subject.value.recordId
  }

  /** Every row this operation wrote is `record`. */
  ghost predicate WroteOnly(st: Store, op: string, record: Record) {
    forall s | s in st.committed && st.committed[s].operationId == op ::
      s == SlotOf(record) && st.committed[s].record.recordId == record.recordId
  }

  /** The operation's rows are untouched and its staging can only go away. */
  ghost predicate Quiet(st: Store, st': Store, op: string) {
    && (forall s | s in st.committed && st.committed[s].operationId == op ::
          s in st'.committed && st'.committed[s] == st.committed[s])
    && (forall s | s in st'.committed && st'.committed[s].operationId == op ::
          s in st.committed && st.committed[s].operationId == op)
    && (forall s | s in st'.pending && st'.pending[s].operationId == op ::
          s in st.pending && st.pending[s].operationId == op && st.pending[s].record == st'.pending[s].record)
  }

  lemma ForeignStepQuiet(w: World, e: Event, op: string)
    requires Foreign(e, op)
    ensures forall k: ReplicaIndex :: Quiet(w[k], Step(w, e)[k], op)
  {
  }

  lemma {:induction false} ForeignRunQuiet(w: World, events: seq<Event>, op: string)
    requires forall e | e in events :: Foreign(e, op)
    ensures forall k: ReplicaIndex :: Quiet(w[k], Run(w, events)[k], op)
  {
    if events != [] {
      var prefix := events[..|events| - 1];
      ForeignRunQuiet(w, prefix, op);
      ForeignStepQuiet(Run(w, prefix), events[|events| - 1], op);
    }
  }

  /** Preparing stages at most the acknowledged record, and commits nothing. */
  lemma PrepareStages(st: Store, i: ReplicaIndex, health: Health, op: string, record: Record, call: PrepareCall,
                      lease: real)
    requires NoStaging(st, op)
    ensures var (tx, ack) := PrepareReply(st, i, health, op, record, call, lease);
            && (tx.Some? ==> OwnWrite(Event(i, tx.value), op, record) && !tx.value.TxCommit?)
            && ApplyOptional(st, tx).committed == st.committed
            && StagedAs(ApplyOptional(st, tx), op, ack)
            && ack.replica == i
            && (ack.status.AckPrepared? ==>
                  && ack.subject.Some? && Sound(ack.subject.value)
                  && Head(st, ack.subject.value.key) + 1 == ack.subject.value.version
                  && (call.interception.PassThrough? ==> ack.subject.value == record))
  {
  }

  /** Promotion writes exactly the proposed id and uses up the staging; a refusal changes nothing. */
  lemma CommitPromotes(st: Store, i: ReplicaIndex, health: Health, op: string, record: Record, fault: Fault, ack: Ack)
    requires StoreInv(st) && StagedAs(st, op, ack) && WroteOnly(st, op, record)
    ensures var (tx, reply) := CommitReply(st, i, health, op, record, fault);
            var st' := ApplyOptional(st, tx);
            && WroteOnly(st', op, record)
            && (reply.status.AckCommitted? ==>
                  && Gained(st', op) && NoStaging(st', op)
                  && tx.Some? && CommitPromote(st, SlotOf(record), record.recordId, op).1.Promoted?
                  && ack.status.AckPrepared? && ack.subject.Some? && ack.subject.value.recordId == record.recordId)
            && (!reply.status.AckCommitted? ==> st' == st)
  {
    var (tx, reply) := CommitReply(st, i, health, op, record, fault);
    var st' := ApplyOptional(st, tx);
    if reply.status.AckCommitted? {
      assert SlotOf(record) in st'.committed && st'.committed[SlotOf(record)].operationId == op;
    }
  }

  lemma AbortClears(st: Store, i: ReplicaIndex, health: Health, op: string, slot: Slot, fault: Fault)
    ensures var (tx, reply) := AbortReply(i, health, op, slot, fault);
            var st' := ApplyOptional(st, tx);
            && Quiet(st, st', op)
            && (reply.status.Aborted? ==>
                  slot !in st'.pending || st'.pending[slot].operationId != op)
  {
  }

  /** At position `mark` of the run, replica `k` had committed everything before `r` and nothing after. */
  ghost predicate StoodBehind(w: World, events: seq<Event>, lo: nat, mark: nat, k: ReplicaIndex, r: Record) {
    lo <= mark <= |events| && Head(Run(w, events[..mark])[k], r.key) + 1 == r.version
  }

  lemma StoodBehindExtends(w: World, events: seq<Event>, more: seq<Event>, lo: nat, mark: nat, k: ReplicaIndex,
                           r: Record)
    requires events <= more
    requires StoodBehind(w, events, lo, mark, k, r)
    ensures StoodBehind(w, more, lo, mark, k, r)
  {
    assert more[..mark] == events[..mark];
  }

  /** What is known of replica `k` between its prepare and its commit or abort. */
  ghost predicate PreparedState(w: World, events: seq<Event>, lo: nat, op: string, record: Record, k: ReplicaIndex,
                                st: Store, ack: Ack, mark: nat, c: WriteConditions)
  {
    && !Gained(st, op) && StagedAs(st, op, ack)
    && PreparedAck(w, events, lo, record, k, ack, mark, c)
  }

  ghost predicate PreparedAck(w: World, events: seq<Event>, lo: nat, record: Record, k: ReplicaIndex, ack: Ack,
                              mark: nat, c: WriteConditions)
  {
    && ack.replica == k
    && (ack.status.AckPrepared? ==>
          && ack.subject.Some? && Sound(ack.subject.value)
          && StoodBehind(w, events, lo, mark, k, ack.subject.value)
          && (c.prepare(k).interception.PassThrough? ==> ack.subject.value == record))
  }

  lemma PreparedStatePersists(w: World, events: seq<Event>, more: seq<Event>, lo: nat, op: string, record: Record,
                              k: ReplicaIndex, st: Store, st': Store, ack: Ack, mark: nat, c: WriteConditions)
    requires events <= more && Quiet(st, st', op)
    requires PreparedState(w, events, lo, op, record, k, st, ack, mark, c)
    ensures PreparedState(w, more, lo, op, record, k, st', ack, mark, c)
  {
    PreparedAckPersists(w, events, more, lo, record, k, ack, mark, c);
  }

  lemma PreparedAckPersists(w: World, events: seq<Event>, more: seq<Event>, lo: nat, record: Record, k: ReplicaIndex,
                            ack: Ack, mark: nat, c: WriteConditions)
    requires events <= more
    requires PreparedAck(w, events, lo, record, k, ack, mark, c)
    ensures PreparedAck(w, more, lo, record, k, ack, mark, c)
  {
    if ack.status.AckPrepared? {
      StoodBehindExtends(w, events, more, lo, mark, k, ack.subject.value);
    }
  }

  /** Replica `k` after (or, with `Skipped`, before) its part of the commit phase. */
  ghost predicate AfterCommit(w: World, events: seq<Event>, op: string, record: Record, k: ReplicaIndex, st: Store,
                              prepared: Ack, wins: bool, answer: PhaseAnswer)
  {
    && Settled(st, op, record, prepared, PromotedBy(answer))
    && AnswerFits(op, record, k, st, prepared, answer)
    && (PromotedBy(answer) ==>
          && wins && (exists n: nat :: PromotedAt(w, events, n, k, op, record))
          && prepared.status.AckPrepared? && prepared.subject.Some?
          && prepared.subject.value.recordId == record.recordId)
  }

  /** The replica acknowledged aborting what it had staged. */
  predicate AbortedOwn(record: Record, prepared: Ack, answer: PhaseAnswer) {
    && answer.FromAbort? && answer.ack.status.Aborted?
    && prepared.status.AckPrepared? && prepared.subject == Some(record)
  }

  ghost predicate AnswerFits(op: string, record: Record, k: ReplicaIndex, st: Store, prepared: Ack, answer: PhaseAnswer) {
    && (!answer.Skipped? ==> answer.ack.replica == k)
    && (answer.FromCommit? ==> answer.ack.subject == Some(record))
    && (AbortedOwn(record, prepared, answer) ==> NoStaging(st, op))
  }

  lemma AfterCommitPersists(w: World, events: seq<Event>, more: seq<Event>, op: string, record: Record,
                            k: ReplicaIndex, st: Store, st': Store, prepared: Ack, wins: bool, answer: PhaseAnswer)
    requires events <= more && Quiet(st, st', op)
    requires AfterCommit(w, events, op, record, k, st, prepared, wins, answer)
    ensures AfterCommit(w, more, op, record, k, st', prepared, wins, answer)
  {
    SettledPersists(st, st', op, record, prepared, PromotedBy(answer));
    if PromotedBy(answer) {
      var n: nat :| PromotedAt(w, events, n, k, op, record);
      PromotedExtends(w, events, more, n, k, op, record);
    }
  }

  /** Among the first `n` replicas, exactly the prepared winners were asked to commit and the prepared losers to abort. */
  ghost predicate CommitAnswers(acks: seq<Ack>, winners: set<nat>, answers: seq<PhaseAnswer>, n: nat)
    requires |acks| == 3 && |answers| == 3
  {
    forall k: ReplicaIndex | k < n ::
      && (answers[k].FromCommit? <==> acks[k].status.AckPrepared? && k in winners)
      && (answers[k].FromAbort? <==> acks[k].status.AckPrepared? && k !in winners)
  }

  /** The commit phase after the first `n` replicas. */
  ghost predicate CommitProgress(w: World, events: seq<Event>, op: string, record: Record, stores: World, acks: seq<Ack>,
                                 winners: set<nat>, answers: seq<PhaseAnswer>, n: nat)
    requires |acks| == 3 && |answers| == 3
  {
    && (forall k: ReplicaIndex | n <= k :: answers[k] == Skipped)
    && CommitAnswers(acks, winners, answers, n)
    && (forall k: ReplicaIndex :: AfterCommit(w, events, op, record, k, stores[k], acks[k], k in winners, answers[k]))
  }

  lemma CommitAdvances(w: World, events: seq<Event>, more: seq<Event>, op: string, record: Record, stores: World,
                       stores': World, acks: seq<Ack>, winners: set<nat>, answers: seq<PhaseAnswer>, j: ReplicaIndex,
                       answer: PhaseAnswer)
    requires |acks| == 3 && |answers| == 3 && events <= more
    requires CommitProgress(w, events, op, record, stores, acks, winners, answers, j)
    requires forall k: ReplicaIndex | k != j :: Quiet(stores[k], stores'[k], op)
    requires AfterCommit(w, more, op, record, j, stores'[j], acks[j], j in winners, answer)
    requires answer.FromCommit? <==> acks[j].status.AckPrepared? && j in winners
    requires answer.FromAbort? <==> acks[j].status.AckPrepared? && j !in winners
    ensures CommitProgress(w, more, op, record, stores', acks, winners, answers[j := answer], j + 1)
  {
    var next := answers[j := answer];
    forall k: ReplicaIndex
      ensures AfterCommit(w, more, op, record, k, stores'[k], acks[k], k in winners, next[k])
    {
      if k != j {
        AfterCommitPersists(w, events, more, op, record, k, stores[k], stores'[k], acks[k], k in winners, answers[k]);
      }
    }
  }

  function CommitAcksOf(answers: seq<PhaseAnswer>): (acks: seq<Ack>)
    ensures forall a :: a in acks <==> FromCommit(a) in answers
  {
    if answers == [] then []
    else
      var last := answers[|answers| - 1];
      assert answers == answers[..|answers| - 1] + [last];
      CommitAcksOf(answers[..|answers| - 1]) + if last.FromCommit? then [last.ack] else []
  }

  function AbortAcksOf(answers: seq<PhaseAnswer>): (acks: seq<Ack>)
    ensures forall a :: a in acks <==> FromAbort(a) in answers
  {
    if answers == [] then []
    else
      var last := answers[|answers| - 1];
      assert answers == answers[..|answers| - 1] + [last];
      AbortAcksOf(answers[..|answers| - 1]) + if last.FromAbort? then [last.ack] else []
  }

  function PromotedReplicas(answers: seq<PhaseAnswer>): set<ReplicaIndex>
    requires |answers| == 3
  {
    set k: ReplicaIndex | PromotedBy(answers[k])
  }

  /** The replicas among the first `n` that promoted. */
  function PromotedUpTo(answers: seq<PhaseAnswer>, n: nat): (s: set<nat>)
    requires n <= |answers|
    ensures forall k: nat :: k in s <==> k < n && PromotedBy(answers[k])
  {
    if n == 0 then {}
    else PromotedUpTo(answers, n - 1) + (if PromotedBy(answers[n - 1]) then {n - 1} else {})
  }

  lemma DurableAppends(acks: seq<Ack>, last: Ack, record: Record)
    requires last.subject == Some(record)
    ensures Durable(acks + [last], record) == Durable(acks, record) + if last.status.AckCommitted? then 1 else 0
  {
  }

  /** Counting durable acknowledgements counts the replicas that promoted. */
  lemma {:induction false} DurableCounts(answers: seq<PhaseAnswer>, n: nat, record: Record)
    requires n <= |answers|
    requires forall k | 0 <= k < |answers| && answers[k].FromCommit? :: answers[k].ack.subject == Some(record)
    ensures Durable(CommitAcksOf(answers[..n]), record) == |PromotedUpTo(answers, n)|
  {
    if n > 0 {
      DurableCounts(answers, n - 1, record);
      var last := answers[n - 1];
      assert answers[..n][..n - 1] == answers[..n - 1];
      var acks := CommitAcksOf(answers[..n - 1]);
      assert CommitAcksOf(answers[..n]) == acks + (if last.FromCommit? then [last.ack] else []);
      if last.FromCommit? {
        DurableAppends(acks, last.ack, record);
      } else {
        assert acks + [] == acks;
      }
    }
  }

  /** The reported outcome counts the replicas that gained the row: two or more, exactly one, none. */
  ghost predicate ExactOutcome(stores: World, op: string, outcome: WriteOutcome) {
    && (outcome.Committed? <==> |GainedReplicas(stores, op)| >= 2)
    && (outcome.PartialCommit? <==> |GainedReplicas(stores, op)| == 1)
  }

  /** No staging of the operation survives where it was promoted, or aborted as it was staged. */
  ghost predicate StagingCleared(stores: World, op: string, c: WriteConditions, result: WriteResult) {
    && (forall a | a in result.commitAcks && a.status.AckCommitted? ::
          a.replica < 3 && NoStaging(stores[a.replica], op))
    && (forall a | a in result.abortAcks && a.status.Aborted? ::
          a.replica < 3 && (c.prepare(a.replica).interception.PassThrough? ==> NoStaging(stores[a.replica], op)))
  }

  predicate AskedToCommit(result: WriteResult, k: nat) {
    exists a :: a in result.commitAcks && a.replica == k
  }

  predicate AskedToAbort(result: WriteResult, k: nat) {
    exists a :: a in result.abortAcks && a.replica == k
  }

  /**
   How an admitted write is conducted, given the three prepare acknowledgements: no grant, no further call and the
   classified rejection; no compatible quorum, an abort on every grant; otherwise a commit on exactly the compatible
   group and an abort on every other replica that reported what it was asked to stage.
   */
  ghost predicate Conducted(result: WriteResult) {
    var acks := result.prepareAcks;
    && |acks| == 3
    && if forall a | a in acks :: !a.status.AckPrepared? then
         result.outcome == ClassifyTotalRejection(acks) && result.commitAcks == [] && result.abortAcks == []
       else
         exists d :: Decides(acks, QUORUM, d) && (if d.verdict.QuorumMet? then CommittedGroup(result, d.compatible) else AbortedAll(result))
  }

  ghost predicate AbortedAll(result: WriteResult)
    requires |result.prepareAcks| == 3
  {
    && result.outcome == FailedQuorum && result.commitAcks == []
    && forall k: ReplicaIndex :: AskedToAbort(result, k) <==> result.prepareAcks[k].status.AckPrepared?
  }

  ghost predicate CommittedGroup(result: WriteResult, group: set<nat>)
    requires |result.prepareAcks| == 3
  {
    && (result.outcome.Committed? || result.outcome.PartialCommit? || result.outcome.FailedStorage?)
    && (forall k: ReplicaIndex :: AskedToCommit(result, k) <==> k in group)
    && (forall k: ReplicaIndex ::
          AskedToAbort(result, k) <==>
            if result.prepareAcks[k].status.AckPrepared? then k !in group else result.prepareAcks[k].subject.Some?)
  }

  /** A write that met its quorum, conducted by these commit answers and this cleanup. */
  lemma FinishIsConducted(acks: seq<Ack>, d: QuorumDecision, answers: seq<PhaseAnswer>, cleanup: seq<PhaseAnswer>,
                          result: WriteResult)
    requires |acks| == 3 && |answers| == 3 && |cleanup| == 3
    requires Decides(acks, QUORUM, d) && d.verdict.QuorumMet?
    requires CommitAnswers(acks, d.compatible, answers, 3) && AbortAnswers(acks, false, cleanup, 3)
    requires forall k: ReplicaIndex | !answers[k].Skipped? :: answers[k].ack.replica == k
    requires forall k: ReplicaIndex | !cleanup[k].Skipped? :: cleanup[k].ack.replica == k
    requires result.prepareAcks == acks && result.commitAcks == CommitAcksOf(answers)
    requires result.abortAcks == AbortAcksOf(answers) + AbortAcksOf(cleanup)
    requires result.outcome.Committed? || result.outcome.PartialCommit? || result.outcome.FailedStorage?
    ensures Conducted(result)
  {
    CompatiblePrepared(acks, d);
    forall k: ReplicaIndex
      ensures AskedToCommit(result, k) <==> k in d.compatible
      ensures AskedToAbort(result, k) <==>
                if acks[k].status.AckPrepared? then k !in d.compatible else acks[k].subject.Some?
    {
      AskedInFinish(acks, d.compatible, answers, cleanup, result, k);
    }
    assert CommittedGroup(result, d.compatible);
    ConductedBy(result, d);
  }

  lemma AskedInFinish(acks: seq<Ack>, group: set<nat>, answers: seq<PhaseAnswer>, cleanup: seq<PhaseAnswer>,
                      result: WriteResult, k: ReplicaIndex)
    requires |acks| == 3 && |answers| == 3 && |cleanup| == 3
    requires CommitAnswers(acks, group, answers, 3) && AbortAnswers(acks, false, cleanup, 3)
    requires forall i: ReplicaIndex | !answers[i].Skipped? :: answers[i].ack.replica == i
    requires forall i: ReplicaIndex | !cleanup[i].Skipped? :: cleanup[i].ack.replica == i
    requires result.commitAcks == CommitAcksOf(answers) && result.abortAcks == AbortAcksOf(answers) + AbortAcksOf(cleanup)
    requires k in group ==> acks[k].status.AckPrepared?
    ensures AskedToCommit(result, k) <==> k in group
    ensures AskedToAbort(result, k) <==> if acks[k].status.AckPrepared? then k !in group else acks[k].subject.Some?
  {
  }

  /** The members of a met quorum all prepared, so somebody did. */
  lemma CompatiblePrepared(acks: seq<Ack>, d: QuorumDecision)
    requires |acks| == 3 && Decides(acks, QUORUM, d) && d.verdict.QuorumMet?
    ensures forall k | k in d.compatible :: k < 3 && acks[k].status.AckPrepared?
    ensures exists a :: a in acks && a.status.AckPrepared?
  {
  }

  lemma AbortedIsConducted(acks: seq<Ack>, d: QuorumDecision, aborts: seq<PhaseAnswer>, result: WriteResult)
    requires |acks| == 3 && |aborts| == 3
    requires Decides(acks, QUORUM, d) && !d.verdict.QuorumMet? && exists a :: a in acks && a.status.AckPrepared?
    requires AbortAnswers(acks, true, aborts, 3)
    requires forall k: ReplicaIndex | !aborts[k].Skipped? :: aborts[k].ack.replica == k
    requires result == WriteResult(FailedQuorum, acks, [], AbortAcksOf(aborts))
    ensures Conducted(result)
  {
    forall k: ReplicaIndex
      ensures AskedToAbort(result, k) <==> acks[k].status.AckPrepared?
    {
      AskedOf(aborts, k);
    }
    assert AbortedAll(result);
    ConductedBy(result, d);
  }

  /** The acknowledgements decide it. */
  lemma ConductedBy(result: WriteResult, d: QuorumDecision)
    requires |result.prepareAcks| == 3 && Decides(result.prepareAcks, QUORUM, d)
    requires exists a :: a in result.prepareAcks && a.status.AckPrepared?
    requires if d.verdict.QuorumMet? then CommittedGroup(result, d.compatible) else AbortedAll(result)
    ensures Conducted(result)
  {
  }

  /** Two gains are COMMITTED. */
  lemma TwoGainsCommit(stores: World, op: string, outcome: WriteOutcome, i: ReplicaIndex, j: ReplicaIndex)
    requires ExactOutcome(stores, op, outcome) && i != j && Gained(stores[i], op) && Gained(stores[j], op)
    ensures outcome.Committed?
  {
    var pair: set<ReplicaIndex> := {i, j};
    assert GainedReplicas(stores, op) == pair + (GainedReplicas(stores, op) - pair);
  }

  /** After a write with nothing around it: a replica that did not acknowledge its commit is diverged, the others as before. */
  ghost predicate MarksLaggards(healths: seq<Health>, healths': seq<Health>, stores: World, op: string, result: WriteResult)
    requires |healths| == 3 && |healths'| == 3
  {
    forall k: ReplicaIndex ::
      healths'[k] == if AskedToCommit(result, k) && !Gained(stores[k], op) then Diverged else healths[k]
  }

  /** The same, read off the answers of the commit phase so far. */
  ghost predicate MarksUnanswered(healths: seq<Health>, healths': seq<Health>, answers: seq<PhaseAnswer>)
    requires |healths| == 3 && |healths'| == 3 && |answers| == 3
  {
    forall k: ReplicaIndex ::
      healths'[k] == if answers[k].FromCommit? && !PromotedBy(answers[k]) then Diverged else healths[k]
  }

  /** Winners that are primed promote exactly if their commit meets no fault. */
  ghost predicate PrimedPromote(w: World, healths: seq<Health>, op: string, r: Record, acks: seq<Ack>, winners: set<nat>,
                                answers: seq<PhaseAnswer>, c: WriteConditions, n: nat)
    requires |healths| == 3 && |acks| == 3 && |answers| == 3
  {
    forall k: ReplicaIndex | k < n && k in winners && Primed(w[k], healths[k], op, r, acks[k]) ::
      PromotedBy(answers[k]) <==> c.commit(k).NoFault?
  }

  /** The commit phase with nothing around it, after the first `n` replicas. */
  ghost predicate PhaseSoFar(w: World, h: seq<Health>, stores: World, healths: seq<Health>, op: string, r: Record,
                             acks: seq<Ack>, winners: set<nat>, answers: seq<PhaseAnswer>, c: WriteConditions, n: nat)
    requires |h| == 3 && |healths| == 3 && |acks| == 3 && |answers| == 3
  {
    && MarksUnanswered(h, healths, answers) && AbortsHeard(h, answers, c)
    && PrimedPromote(w, h, op, r, acks, winners, answers, c, n)
    && forall k: ReplicaIndex | n <= k :: stores[k] == w[k] && answers[k].Skipped?
  }

  lemma PhaseAdvances(w: World, h: seq<Health>, stores: World, healths: seq<Health>, stores': World, healths': seq<Health>,
                      op: string, r: Record, acks: seq<Ack>, winners: set<nat>, answers: seq<PhaseAnswer>,
                      answers': seq<PhaseAnswer>, c: WriteConditions, j: ReplicaIndex)
    requires |h| == 3 && |healths| == 3 && |healths'| == 3 && |acks| == 3 && |answers| == 3 && |answers'| == 3
    requires PhaseSoFar(w, h, stores, healths, op, r, acks, winners, answers, c, j)
    requires answers' == answers[j := answers'[j]]
    requires healths' == healths[j := if answers'[j].FromCommit? && !PromotedBy(answers'[j]) then Diverged else healths[j]]
    requires forall k: ReplicaIndex | k != j :: stores'[k] == stores[k]
    requires j in winners && Primed(stores[j], healths[j], op, r, acks[j]) ==> (PromotedBy(answers'[j]) <==> c.commit(j).NoFault?)
    requires answers'[j].FromAbort? ==> (answers'[j].ack.status.Aborted? <==> !healths[j].Down? && c.abort(j).NoFault?)
    ensures PhaseSoFar(w, h, stores', healths', op, r, acks, winners, answers', c, j + 1)
  {
  }

  lemma MarkedAfterFinish(healths: seq<Health>, healths': seq<Health>, stores: World, op: string, answers: seq<PhaseAnswer>,
                          result: WriteResult)
    requires |healths| == 3 && |healths'| == 3 && |answers| == 3 && MarksUnanswered(healths, healths', answers)
    requires forall k: ReplicaIndex | !answers[k].Skipped? :: answers[k].ack.replica == k
    requires forall k: ReplicaIndex :: Gained(stores[k], op) <==> PromotedBy(answers[k])
    requires result.commitAcks == CommitAcksOf(answers)
    ensures MarksLaggards(healths, healths', stores, op, result)
  {
    forall k: ReplicaIndex
      ensures AskedToCommit(result, k) <==> answers[k].FromCommit?
    {
      AskedOf(answers, k);
    }
  }

  /** Every replica with an honest hook gained the row exactly if it granted the prepare and its commit met no fault. */
  ghost predicate GrantsGain(stores: World, op: string, acks: seq<Ack>, c: WriteConditions)
    requires |acks| == 3
  {
    forall k: ReplicaIndex | Untouched(c, k) :: Gained(stores[k], op) <==> acks[k].status.AckPrepared? && c.commit(k).NoFault?
  }

  /** A replica's answer to an abort order is `Aborted` exactly if it is up and the call meets no fault. */
  ghost predicate AbortsHeard(healths: seq<Health>, answers: seq<PhaseAnswer>, c: WriteConditions)
    requires |healths| == 3 && |answers| == 3
  {
    forall k: ReplicaIndex | answers[k].FromAbort? ::
      answers[k].ack.status.Aborted? <==> !healths[k].Down? && c.abort(k).NoFault?
  }

  /** The replica was up, its hook honest, and neither its commit nor its abort can fail. */
  ghost predicate Reliable(healths: seq<Health>, c: WriteConditions, k: ReplicaIndex)
    requires |healths| == 3
  {
    Untouched(c, k) && !healths[k].Down? && c.commit(k).NoFault? && c.abort(k).NoFault?
  }

  /** A write leaves no staging on a reliable replica, however it ends. */
  ghost predicate LeavesNothing(healths: seq<Health>, stores: World, op: string, c: WriteConditions)
    requires |healths| == 3
  {
    forall k: ReplicaIndex | Reliable(healths, c, k) :: NoStaging(stores[k], op)
  }

  lemma FinishLeavesNothing(w: World, healths: seq<Health>, stores: World, events: seq<Event>, origin: World, op: string,
                            r: Record, acks: seq<Ack>, c: WriteConditions, winners: set<nat>, answers: seq<PhaseAnswer>)
    requires |healths| == 3 && |acks| == 3 && |answers| == 3
    requires AllPrimed(w, healths, op, r, acks, c)
    requires PrimedPromote(w, healths, op, r, acks, winners, answers, c, 3) && AbortsHeard(healths, answers, c)
    requires CommitAnswers(acks, winners, answers, 3)
    requires forall k: ReplicaIndex :: AfterCommit(origin, events, op, r, k, stores[k], acks[k], k in winners, answers[k])
    ensures LeavesNothing(healths, stores, op, c)
  {
    forall k: ReplicaIndex | Reliable(healths, c, k)
      ensures NoStaging(stores[k], op)
    {
      assert AfterCommit(origin, events, op, r, k, stores[k], acks[k], k in winners, answers[k]);
      if acks[k].status.AckPrepared? {
        assert Primed(w[k], healths[k], op, r, acks[k]);
        assert k in winners ==> PromotedBy(answers[k]);
        assert k !in winners ==> AbortedOwn(r, acks[k], answers[k]);
      }
    }
  }

  lemma AbandonLeavesNothing(healths: seq<Health>, stores: World, op: string, r: Record, acks: seq<Ack>,
                             c: WriteConditions, answers: seq<PhaseAnswer>)
    requires |healths| == 3 && |acks| == 3 && |answers| == 3
    requires AbortAnswers(acks, true, answers, 3) && AbortsHeard(healths, answers, c)
    requires forall k: ReplicaIndex :: StagedAs(stores[k], op, acks[k]) && AnswerFits(op, r, k, stores[k], acks[k], answers[k])
    requires forall k: ReplicaIndex | Untouched(c, k) && acks[k].status.AckPrepared? :: acks[k].subject == Some(r)
    ensures LeavesNothing(healths, stores, op, c)
  {
    forall k: ReplicaIndex | Reliable(healths, c, k)
      ensures NoStaging(stores[k], op)
    {
      assert acks[k].status.AckPrepared? ==> AbortedOwn(r, acks[k], answers[k]);
    }
  }

  ghost predicate NobodyGained(stores: World, op: string) {
    forall k: ReplicaIndex :: !Gained(stores[k], op)
  }

  /** The acknowledgement is replica `k`'s own answer to the prepare. */
  ghost predicate Replied(w: World, healths: seq<Health>, leases: seq<real>, k: ReplicaIndex, op: string, r: Record,
                          c: WriteConditions, ack: Ack)
    requires |healths| == 3 && |leases| == 3
  {
    ack == PrepareReply(w[k], k, healths[k], op, r, c.prepare(k), leases[k]).1
  }

  /**
   How an unhindered write is refused: stale if every replica that answers has the version already, malformed if all
   of them are further behind, in conflict if another record's live lease holds the slot on all of them.
   */
  ghost predicate Classified(w: World, healths: seq<Health>, leases: seq<real>, r: Record, c: WriteConditions,
                             outcome: WriteOutcome)
    requires |healths| == 3 && |leases| == 3
  {
    var someone := exists k: ReplicaIndex :: !healths[k].Down?;
    && (outcome.RejectedStale? <==>
          someone && forall k: ReplicaIndex | !healths[k].Down? :: r.version <= Head(w[k], r.key))
    && (outcome.RejectedSchema? <==>
          someone && forall k: ReplicaIndex | !healths[k].Down? :: r.version > Head(w[k], r.key) + 1)
    && (outcome.RejectedConflict? <==>
          someone && forall k: ReplicaIndex | !healths[k].Down? ::
            r.version == Head(w[k], r.key) + 1 && Leased(w[k], r, c.prepare(k).now, leases[k]))
  }

  /** What one acknowledgement of an unhindered prepare of a sound record can be. */
  ghost predicate PlainAnswer(st: Store, down: bool, r: Record, now: real, lease: real, ack: Ack) {
    && (down <==> ack.status.Unavailable?) && !ack.status.StorageError? && !ack.status.RejectIntegrity?
    && (!down ==> AnswersPrepare(st, r, now, lease, ack))
  }

  /** All the answering replicas gave this answer. */
  lemma UnanimityMeans(acks: seq<Ack>, healths: seq<Health>, status: AckStatus)
    requires |acks| == 3 && |healths| == 3
    requires forall k: ReplicaIndex :: (acks[k].status.Unavailable? <==> healths[k].Down?) && !acks[k].status.StorageError?
    ensures Unanimous(acks, status) <==>
              && (exists k: ReplicaIndex :: !healths[k].Down?)
              && (forall k: ReplicaIndex | !healths[k].Down? :: acks[k].status == status)
  {
    forall k: ReplicaIndex
      ensures acks[k] in acks && (Answered(acks[k]) <==> !healths[k].Down?)
    {
    }
    if Unanimous(acks, status) {
      var a :| a in acks && Answered(a);
      var k :| 0 <= k < 3 && acks[k] == a;
      assert !healths[k].Down?;
    }
    if k: ReplicaIndex :| !healths[k].Down? {
      assert acks[k] in acks && Answered(acks[k]);
    }
    if forall k: ReplicaIndex | !healths[k].Down? :: acks[k].status == status {
      forall a | a in acks && Answered(a)
        ensures a.status == status
      {
        var k: ReplicaIndex :| acks[k] == a;
      }
    }
  }

  lemma RefusalIsClassified(w: World, healths: seq<Health>, leases: seq<real>, op: string, r: Record, c: WriteConditions,
                            result: WriteResult)
    requires |healths| == 3 && |leases| == 3 && Unhindered(c) && Sound(r) && Conducted(result)
    requires forall k: ReplicaIndex :: Replied(w, healths, leases, k, op, r, c, result.prepareAcks[k])
    ensures Classified(w, healths, leases, r, c, result.outcome)
  {
    var acks := result.prepareAcks;
    forall k: ReplicaIndex
      ensures PlainAnswer(w[k], healths[k].Down?, r, c.prepare(k).now, leases[k], acks[k])
    {
      assert Replied(w, healths, leases, k, op, r, c, acks[k]);
      PrepareAnswered(w[k], k, healths[k], op, r, r, c.prepare(k), leases[k]);
    }
    PlainlyClassified(w, healths, leases, r, c, result);
  }

  lemma PlainlyClassified(w: World, healths: seq<Health>, leases: seq<real>, r: Record, c: WriteConditions,
                          result: WriteResult)
    requires |healths| == 3 && |leases| == 3 && Conducted(result)
    requires forall k: ReplicaIndex ::
               PlainAnswer(w[k], healths[k].Down?, r, c.prepare(k).now, leases[k], result.prepareAcks[k])
    ensures Classified(w, healths, leases, r, c, result.outcome)
  {
    var acks := result.prepareAcks;
    if forall a | a in acks :: !a.status.AckPrepared? {
      UnanimityMeans(acks, healths, RejectStale);
      UnanimityMeans(acks, healths, RejectConflict);
      UnanimityMeans(acks, healths, RejectSchema);
      UnanimityMeans(acks, healths, RejectIntegrity);
    } else {
      var a :| a in acks && a.status.AckPrepared?;
      var k: ReplicaIndex :| acks[k] == a;
      assert PlainAnswer(w[k], healths[k].Down?, r, c.prepare(k).now, leases[k], acks[k]);
    }
  }

  /** The replicas with honest hooks granted exactly as they were receptive. */
  ghost predicate AsReady(ready: seq<bool>, acks: seq<Ack>, c: WriteConditions)
    requires |ready| == 3 && |acks| == 3
  {
    forall k: ReplicaIndex | Untouched(c, k) :: acks[k].status.AckPrepared? <==> ready[k]
  }

  /** What became of the granted stagings, and of the replicas' health. */
  ghost predicate Settlement(w: World, healths: seq<Health>, stores: World, healths': seq<Health>, op: string, r: Record,
                             acks: seq<Ack>, c: WriteConditions, result: WriteResult)
    requires |healths| == 3 && |healths'| == 3 && |acks| == 3
  {
    && result.prepareAcks == acks
    && (Silent(c.env) ==> MarksLaggards(healths, healths', stores, op, result))
    && (Silent(c.env) && AllPrimed(w, healths, op, r, acks, c) && TwoGranted(acks, r) ==> GrantsGain(stores, op, acks, c))
    && (TwoPrepared(acks) || NobodyGained(stores, op))
    && (Silent(c.env) && AllPrimed(w, healths, op, r, acks, c) ==> LeavesNothing(healths, stores, op, c))
  }

  /** A write nobody is told to commit. */
  lemma GivenUp(w: World, healths: seq<Health>, stores: World, healths': seq<Health>, op: string, r: Record,
                acks: seq<Ack>, c: WriteConditions, result: WriteResult)
    requires |healths| == 3 && |healths'| == 3 && |acks| == 3
    requires result.prepareAcks == acks && result.commitAcks == [] && NobodyGained(stores, op) && !TwoGranted(acks, r)
    requires Silent(c.env) ==> healths' == healths && LeavesNothing(healths, stores, op, c)
    ensures Settlement(w, healths, stores, healths', op, r, acks, c, result)
  {
  }

  /** A finished commit phase settles the write. */
  lemma FinishSettles(w: World, healths: seq<Health>, stores: World, healths': seq<Health>, events: seq<Event>, origin: World,
                      op: string, r: Record, acks: seq<Ack>, c: WriteConditions, d: QuorumDecision,
                      answers: seq<PhaseAnswer>, result: WriteResult)
    requires |healths| == 3 && |healths'| == 3 && |acks| == 3 && |answers| == 3
    requires Decides(acks, QUORUM, d) && d.verdict.QuorumMet?
    requires forall k: ReplicaIndex ::
               AfterCommit(origin, events, op, r, k, stores[k], acks[k], k in d.compatible, answers[k])
    requires Silent(c.env) ==>
               && MarksUnanswered(healths, healths', answers) && AbortsHeard(healths, answers, c)
               && PrimedPromote(w, healths, op, r, acks, d.compatible, answers, c, 3)
    requires CommitAnswers(acks, d.compatible, answers, 3)
    requires result.prepareAcks == acks && result.commitAcks == CommitAcksOf(answers)
    ensures Settlement(w, healths, stores, healths', op, r, acks, c, result)
  {
    QuorumNeedsGrants(acks, d);
    forall k: ReplicaIndex
      ensures Gained(stores[k], op) <==> PromotedBy(answers[k])
      ensures PromotedBy(answers[k]) ==> acks[k].status.AckPrepared?
      ensures !answers[k].Skipped? ==> answers[k].ack.replica == k
    {
      assert AfterCommit(origin, events, op, r, k, stores[k], acks[k], k in d.compatible, answers[k]);
    }
    if Silent(c.env) {
      MarkedAfterFinish(healths, healths', stores, op, answers, result);
      if AllPrimed(w, healths, op, r, acks, c) {
        FinishLeavesNothing(w, healths, stores, events, origin, op, r, acks, c, d.compatible, answers);
        if TwoGranted(acks, r) {
          QuorumGains(w, healths, stores, op, r, acks, d, answers, c);
        }
      }
    }
  }

  /** Two receptive replicas with honest hooks. */
  ghost predicate TwoReady(ready: seq<bool>, c: WriteConditions)
    requires |ready| == 3
  {
    exists i: ReplicaIndex, j: ReplicaIndex :: i != j && Untouched(c, i) && Untouched(c, j) && ready[i] && ready[j]
  }

  /**
   What an admitted write with nothing around it delivers, replica by replica: a grant from every receptive one; the
   row on exactly those whose commit meets no fault, as soon as two are receptive; and nothing anywhere otherwise.
   */
  ghost predicate Delivered(ready: seq<bool>, stores: World, op: string, c: WriteConditions, result: WriteResult)
    requires |ready| == 3
  {
    && |result.prepareAcks| == 3
    && AsReady(ready, result.prepareAcks, c)
    && (TwoReady(ready, c) ==>
          forall k: ReplicaIndex | Untouched(c, k) :: Gained(stores[k], op) <==> ready[k] && c.commit(k).NoFault?)
    && ((forall k: ReplicaIndex :: Untouched(c, k)) && !TwoReady(ready, c) ==> NobodyGained(stores, op))
    && (Unhindered(c) ==> (result.outcome.Committed? <==> TwoReady(ready, c)))
  }

  lemma SettlementDelivers(ready: seq<bool>, w: World, healths: seq<Health>, stores: World, healths': seq<Health>, op: string,
                           r: Record, acks: seq<Ack>, c: WriteConditions, result: WriteResult)
    requires |ready| == 3 && |healths| == 3 && |healths'| == 3 && |acks| == 3 && Silent(c.env)
    requires AllPrimed(w, healths, op, r, acks, c)
    requires AsReady(ready, acks, c)
    requires Settlement(w, healths, stores, healths', op, r, acks, c, result)
    requires ExactOutcome(stores, op, result.outcome)
    ensures Delivered(ready, stores, op, c, result)
  {
    if TwoReady(ready, c) {
      var i: ReplicaIndex, j: ReplicaIndex :| i != j && Untouched(c, i) && Untouched(c, j) && ready[i] && ready[j];
      assert Primed(w[i], healths[i], op, r, acks[i]) && Primed(w[j], healths[j], op, r, acks[j]);
      assert TwoGranted(acks, r);
      if Unhindered(c) {
        TwoGainsCommit(stores, op, result.outcome, i, j);
      }
    } else if forall k: ReplicaIndex :: Untouched(c, k) {
      assert !TwoPrepared(acks);
      assert GainedReplicas(stores, op) == {};
    }
  }

  lemma QuorumGains(w: World, healths: seq<Health>, stores: World, op: string, r: Record, acks: seq<Ack>, d: QuorumDecision,
                    answers: seq<PhaseAnswer>, c: WriteConditions)
    requires |healths| == 3 && |acks| == 3 && |answers| == 3
    requires Decides(acks, QUORUM, d) && TwoGranted(acks, r) && AllPrimed(w, healths, op, r, acks, c)
    requires PrimedPromote(w, healths, op, r, acks, d.compatible, answers, c, 3)
    requires forall k: ReplicaIndex :: Gained(stores[k], op) <==> PromotedBy(answers[k])
    requires forall k: ReplicaIndex | PromotedBy(answers[k]) :: acks[k].status.AckPrepared?
    ensures GrantsGain(stores, op, acks, c)
  {
    GrantsAreQuorum(acks, r, d);
    forall k: ReplicaIndex | Untouched(c, k)
      ensures Gained(stores[k], op) <==> acks[k].status.AckPrepared? && c.commit(k).NoFault?
    {
      if acks[k].status.AckPrepared? {
        assert Primed(w[k], healths[k], op, r, acks[k]);
      }
    }
  }

  /** Who was asked what, read off the answers. */
  lemma AskedOf(answers: seq<PhaseAnswer>, k: ReplicaIndex)
    requires |answers| == 3
    requires forall i: ReplicaIndex | !answers[i].Skipped? :: answers[i].ack.replica == i
    ensures (exists a :: a in CommitAcksOf(answers) && a.replica == k) <==> answers[k].FromCommit?
    ensures (exists a :: a in AbortAcksOf(answers) && a.replica == k) <==> answers[k].FromAbort?
  {
  }

  lemma NothingGained(stores: World, op: string, outcome: WriteOutcome)
    requires forall k: ReplicaIndex :: !Gained(stores[k], op)
    requires !outcome.Committed? && !outcome.PartialCommit?
    ensures ExactOutcome(stores, op, outcome)
    ensures forall k: ReplicaIndex, record: Record :: WroteOnly(stores[k], op, record)
  {
  }

  lemma DurableIsGained(w: World, events: seq<Event>, op: string, record: Record, stores: World, acks: seq<Ack>,
                        winners: set<nat>, answers: seq<PhaseAnswer>)
    requires |acks| == 3 && |answers| == 3
    requires forall k: ReplicaIndex ::
               AfterCommit(w, events, op, record, k, stores[k], acks[k], k in winners, answers[k])
    ensures GainedReplicas(stores, op) == PromotedReplicas(answers)
    ensures Durable(CommitAcksOf(answers), record) == |GainedReplicas(stores, op)|
  {
    forall k: ReplicaIndex
      ensures Gained(stores[k], op) <==> PromotedBy(answers[k])
    {
      assert AfterCommit(w, events, op, record, k, stores[k], acks[k], k in winners, answers[k]);
    }
    assert GainedReplicas(stores, op) == PromotedReplicas(answers);
    forall k | 0 <= k < |answers| && answers[k].FromCommit?
      ensures answers[k].ack.subject == Some(record)
    {
      assert AfterCommit(w, events, op, record, k, stores[k], acks[k], k in winners, answers[k]);
    }
    DurableCounts(answers, 3, record);
    assert answers[..3] == answers;
    SameCount(PromotedUpTo(answers, 3), PromotedReplicas(answers));
  }

  lemma TwoPromotionsCommit(w: World, events: seq<Event>, op: string, record: Record, promoted: set<ReplicaIndex>)
    requires forall k: ReplicaIndex | k in promoted :: exists n: nat :: PromotedAt(w, events, n, k, op, record)
    requires |promoted| >= 2
    ensures CommittedBy(w, events, op, record)
  {
    var i, j := TwoOf(promoted);
    var m: nat :| PromotedAt(w, events, m, i, op, record);
    var n: nat :| PromotedAt(w, events, n, j, op, record);
  }

  lemma AnswersClear(stores: World, op: string, record: Record, c: WriteConditions, acks: seq<Ack>,
                     answers: seq<PhaseAnswer>)
    requires |acks| == 3 && |answers| == 3
    requires forall k: ReplicaIndex ::
               && AnswerFits(op, record, k, stores[k], acks[k], answers[k])
               && (PromotedBy(answers[k]) ==> NoStaging(stores[k], op))
               && StagedAs(stores[k], op, acks[k])
               && (acks[k].status.AckPrepared? && c.prepare(k).interception.PassThrough? ==>
                     acks[k].subject == Some(record))
    ensures forall a | a in CommitAcksOf(answers) && a.status.AckCommitted? ::
              a.replica < 3 && NoStaging(stores[a.replica], op)
    ensures forall a | a in AbortAcksOf(answers) && a.status.Aborted? ::
              a.replica < 3 && (c.prepare(a.replica).interception.PassThrough? ==> NoStaging(stores[a.replica], op))
  {
  }

  lemma {:induction false} SameCount(a: set<nat>, b: set<ReplicaIndex>)
    requires forall x: nat :: x in a <==> x < 3 && x in b
    ensures |a| == |b|
  {
    if a == {} {
      assert b == {};
    } else {
      var x :| x in a;
      SameCount(a - {x}, b - {x});
    }
  }

  lemma TwoOf(s: set<ReplicaIndex>) returns (i: ReplicaIndex, j: ReplicaIndex)
    requires |s| >= 2
    ensures i in s && j in s && i != j
  {
    i :| i in s;
    assert |s - {i}| >= 1;
    j :| j in s - {i};
  }

  /** A promotion anywhere means the winning group staged this very record on two replicas. */
  lemma PromotionNeedsQuorum(w: World, events: seq<Event>, lo: nat, record: Record, acks: seq<Ack>, marks: seq<nat>,
                             c: WriteConditions, d: QuorumDecision, k: ReplicaIndex)
    requires |acks| == 3 && |marks| == 3 && Sound(record)
    requires d.verdict.QuorumMet? && Decides(acks, QUORUM, d)
    requires forall i: ReplicaIndex :: PreparedAck(w, events, lo, record, i, acks[i], marks[i], c)
    requires k in d.compatible && acks[k].status.AckPrepared? && acks[k].subject.Some?
    requires acks[k].subject.value.recordId == record.recordId
    ensures TwoStoodBehind(w, events, lo, |events|, record)
  {
    var id: Identity :| d.compatible == Supporters(acks, id) && |Supporters(acks, id)| >= QUORUM;
    RecordIdDeterminesRecord(acks[k].subject.value, record);
    assert |d.compatible - {k}| >= 1;
    var b :| b in d.compatible - {k};
    RecordIdDeterminesRecord(acks[b].subject.value, record);
    assert StoodBehind(w, events, lo, marks[k], k, record) && StoodBehind(w, events, lo, marks[b], b, record);
  }

  lemma TwoStoodBehindExtends(w: World, events: seq<Event>, more: seq<Event>, lo: nat, hi: nat, r: Record)
    requires events <= more && TwoStoodBehind(w, events, lo, hi, r)
    ensures TwoStoodBehind(w, more, lo, hi, r)
  {
    var a: ReplicaIndex, b: ReplicaIndex, p: nat, q: nat :|
      && a != b && p <= hi && q <= hi
      && StoodBehind(w, events, lo, p, a, r) && StoodBehind(w, events, lo, q, b, r);
    StoodBehindExtends(w, events, more, lo, p, a, r);
    StoodBehindExtends(w, events, more, lo, q, b, r);
  }

  /** What the answers of a finished commit phase amount to; `before` is the run when the quorum was met. */
  lemma CommitCounts(w: World, before: seq<Event>, events: seq<Event>, lo: nat, op: string, record: Record,
                     stores: World, c: WriteConditions, acks: seq<Ack>, marks: seq<nat>, d: QuorumDecision,
                     answers: seq<PhaseAnswer>)
    requires |acks| == 3 && |marks| == 3 && |answers| == 3
    requires d.verdict.QuorumMet? && Decides(acks, QUORUM, d)
    requires forall k: ReplicaIndex :: PreparedAck(w, before, lo, record, k, acks[k], marks[k], c)
    requires forall k: ReplicaIndex ::
               AfterCommit(w, events, op, record, k, stores[k], acks[k], k in d.compatible, answers[k])
    ensures var gained := |GainedReplicas(stores, op)|;
            && Durable(CommitAcksOf(answers), record) == gained
            && (gained >= 2 ==> CommittedBy(w, events, op, record))
            && (gained >= 1 && Sound(record) ==> TwoStoodBehind(w, before, lo, |before|, record))
  {
    DurableIsGained(w, events, op, record, stores, acks, d.compatible, answers);
    var promoted := PromotedReplicas(answers);
    forall k: ReplicaIndex | k in promoted
      ensures exists n: nat :: PromotedAt(w, events, n, k, op, record)
    {
      assert AfterCommit(w, events, op, record, k, stores[k], acks[k], k in d.compatible, answers[k]);
    }
    if |promoted| >= 2 {
      TwoPromotionsCommit(w, events, op, record, promoted);
    }
    if Sound(record) && |promoted| >= 1 {
      var k: ReplicaIndex :| k in promoted;
      assert AfterCommit(w, events, op, record, k, stores[k], acks[k], k in d.compatible, answers[k]);
      PromotionNeedsQuorum(w, before, lo, record, acks, marks, c, d, k);
    }
  }

  lemma CommitClears(w: World, before: seq<Event>, events: seq<Event>, lo: nat, op: string, record: Record,
                     stores: World, c: WriteConditions, acks: seq<Ack>, marks: seq<nat>, winners: set<nat>,
                     answers: seq<PhaseAnswer>, cleanup: seq<PhaseAnswer>, result: WriteResult)
    requires |acks| == 3 && |marks| == 3 && |answers| == 3 && |cleanup| == 3
    requires forall k: ReplicaIndex :: PreparedAck(w, before, lo, record, k, acks[k], marks[k], c)
    requires forall k: ReplicaIndex ::
               AfterCommit(w, events, op, record, k, stores[k], acks[k], k in winners, answers[k])
    requires forall k: ReplicaIndex ::
               !cleanup[k].FromCommit? && AnswerFits(op, record, k, stores[k], acks[k], cleanup[k])
    requires result.commitAcks == CommitAcksOf(answers)
    requires result.abortAcks == AbortAcksOf(answers) + AbortAcksOf(cleanup)
    ensures forall k: ReplicaIndex :: WroteOnly(stores[k], op, record)
    ensures StagingCleared(stores, op, c, result)
  {
    forall k: ReplicaIndex
      ensures AnswerFits(op, record, k, stores[k], acks[k], answers[k])
      ensures PromotedBy(answers[k]) ==> NoStaging(stores[k], op)
      ensures StagedAs(stores[k], op, acks[k]) && WroteOnly(stores[k], op, record)
      ensures acks[k].status.AckPrepared? && c.prepare(k).interception.PassThrough? ==> acks[k].subject == Some(record)
    {
      assert AfterCommit(w, events, op, record, k, stores[k], acks[k], k in winners, answers[k]);
      assert PreparedAck(w, before, lo, record, k, acks[k], marks[k], c);
    }
    AnswersClear(stores, op, record, c, acks, answers);
    AnswersClear(stores, op, record, c, acks, cleanup);
  }

  predicate OwnCommit(e: Event, op: string) {
    e.tx.TxCommit? && e.tx.operationId == op
  }

  /** The environment issues this transaction around one of the replica calls. */
  ghost predicate DuringWrite(env: Schedule, e: Event) {
    exists k: nat :: e in EventsOf(env(k))
  }

  /** From `lo` on the run holds only the environment's transactions and this write's own. */
  ghost predicate WriteSegment(env: Schedule, events: seq<Event>, lo: nat, op: string, record: Record) {
    forall n | lo <= n < |events| :: DuringWrite(env, events[n]) || OwnWrite(events[n], op, record)
  }

  lemma SegmentOf(env: Schedule, before: seq<Event>, mid: seq<Event>, issued: seq<Event>, op: string, record: Record)
    requires before <= mid && (forall n | |before| <= n < |mid| :: DuringWrite(env, mid[n]))
    requires forall e | e in issued :: OwnWrite(e, op, record)
    ensures WriteSegment(env, mid + issued, |before|, op, record)
  {
  }

  /** None of them is a commit of this write. */
  ghost predicate NoOwnCommit(events: seq<Event>, lo: nat, op: string) {
    forall n | lo <= n < |events| :: !OwnCommit(events[n], op)
  }

  /** Two distinct replicas stood just below `r`'s version at positions of the run between `lo` and `hi`. */
  ghost predicate TwoStoodBehind(w: World, events: seq<Event>, lo: nat, hi: nat, r: Record) {
    exists a: ReplicaIndex, b: ReplicaIndex, p: nat, q: nat ::
      && a != b && p <= hi && q <= hi
      && StoodBehind(w, events, lo, p, a, r) && StoodBehind(w, events, lo, q, b, r)
  }

  /** The acknowledgements that prove durability of this very record. */
  function Durable(acks: seq<Ack>, record: Record): nat {
    if acks == [] then 0
    else
      var a := acks[|acks| - 1];
      Durable(acks[..|acks| - 1], record) +
      if a.status.AckCommitted? && a.subject.Some?
         && a.subject.value.contentHash == record.contentHash && a.subject.value.recordId == record.recordId
      then 1 else 0
  }

  /** The run after an optional transaction on one replica. */
  lemma RunIssued(w: World, events: seq<Event>, i: ReplicaIndex, tx: Option<Tx>, before: World, after: World)
    requires before == Run(w, events) && after == before[i := ApplyOptional(before[i], tx)]
    ensures Run(w, events + if tx.Some? then [Event(i, tx.value)] else []) == after
  {
    if tx.Some? {
      assert (events + [Event(i, tx.value)])[..|events|] == events;
    } else {
      assert events + [] == events;
    }
  }

  class BlackboardCoordinator {
    const replicas: seq<BlackboardReplica>
    ghost const origin: World
    ghost var trace: seq<Event>

    ghost predicate Shape() {
      && |replicas| == 3
      && (forall i: ReplicaIndex :: replicas[i].index == i)
      && replicas[0] != replicas[1] && replicas[0] != replicas[2] && replicas[1] != replicas[2]
      && replicas[0].db != replicas[1].db && replicas[0].db != replicas[2].db && replicas[1].db != replicas[2].db
    }

    ghost function Footprint(): set<object>
      requires Shape()
    {
      {this, replicas[0], replicas[1], replicas[2], replicas[0].db, replicas[1].db, replicas[2].db}
    }

    ghost function Stores(): World
      requires Shape()
      reads replicas[0].db, replicas[1].db, replicas[2].db
    {
      [replicas[0].db.Contents(), replicas[1].db.Contents(), replicas[2].db.Contents()]
    }

    ghost function Healths(): seq<Health>
      requires Shape()
      reads replicas[0], replicas[1], replicas[2]
      ensures |Healths()| == 3
    {
      [replicas[0].health, replicas[1].health, replicas[2].health]
    }

    /** The stores are what the recorded transactions made of the origin. */
    ghost predicate Valid()
      reads this
      reads if Shape() then Footprint() else {}
    {
      && Shape()
      && WorldInv(origin)
      && Stores() == Run(origin, trace)
    }

    constructor (lease: real)
      ensures Valid() && fresh(Footprint() - {this})
      ensures origin == EMPTY_WORLD && trace == []
    {
      var r0 := new BlackboardReplica(0, lease);
      var r1 := new BlackboardReplica(1, lease);
      var r2 := new BlackboardReplica(2, lease);
      replicas := [r0, r1, r2];
      origin, trace := EMPTY_WORLD, [];
    }

    lemma StoresSound()
      requires Valid()
      ensures WorldInv(Stores())
    {
      RunKeepsInvariant(origin, trace);
    }

    // ---- Single steps ----

    /** Only replica `i` has new contents. */
    lemma StoresBut(i: ReplicaIndex, before: World, st: Store)
      requires Shape() && replicas[i].db.Contents() == st
      requires i == 0 || replicas[0].db.Contents() == before[0]
      requires i == 1 || replicas[1].db.Contents() == before[1]
      requires i == 2 || replicas[2].db.Contents() == before[2]
      ensures Stores() == before[i := st]
    {
    }

    ghost method Record(i: ReplicaIndex, tx: Option<Tx>, before: World)
      requires Shape() && WorldInv(origin)
      requires before == Run(origin, trace)
      requires Stores() == before[i := ApplyOptional(before[i], tx)]
      modifies this`trace
      ensures Valid()
      ensures trace == old(trace) + (if tx.Some? then [Event(i, tx.value)] else [])
    {
      var after := Stores();
      RunIssued(origin, trace, i, tx, before, after);
      trace := trace + if tx.Some? then [Event(i, tx.value)] else [];
      assert Stores() == after;
    }

    method Transact(e: Event)
      requires Valid()
      modifies this`trace, replicas[0].db, replicas[1].db, replicas[2].db
      ensures Valid()
      ensures trace == old(trace) + [e]
      ensures Healths() == old(Healths())
    {
      ghost var before := Stores();
      replicas[e.replica].db.Execute(e.tx);
      StoresBut(e.replica, before, ApplyOptional(before[e.replica], Some(e.tx)));
      Record(e.replica, Some(e.tx), before);
    }

    method InterfereOnce(step: Interference)
      requires Valid()
      modifies Footprint()
      ensures Valid()
      ensures trace == old(trace) + EventOf(step)
      ensures step.Elsewhere? ==> Healths() == old(Healths())
    {
      match step
      case Elsewhere(e) => Transact(e);
      case Operator(i, h) => replicas[i].SetHealth(h);
    }

    /** The environment acts between two replica calls. */
    method Interfere(steps: seq<Interference>)
      requires Valid()
      modifies Footprint()
      ensures Valid()
      ensures trace == old(trace) + EventsOf(steps)
      ensures NoOperator(steps) ==> Healths() == old(Healths())
      decreases |steps|
    {
      if steps != [] {
        var last := steps[|steps| - 1];
        assert NoOperator(steps) ==> NoOperator(steps[..|steps| - 1]) && last.Elsewhere?;
        Interfere(steps[..|steps| - 1]);
        InterfereOnce(last);
      }
    }

    method MarkDiverged(i: ReplicaIndex)
      requires Valid()
      modifies replicas[i]
      ensures Valid() && Stores() == old(Stores())
      ensures Healths() == old(Healths())[i := Diverged]
    {
      replicas[i].MarkDiverged();
    }

    method ClearDivergence(i: ReplicaIndex)
      requires Valid()
      modifies replicas[i]
      ensures Valid() && Stores() == old(Stores())
      ensures Healths() == old(Healths())[i := if old(Healths())[i].Diverged? then Healthy else old(Healths())[i]]
    {
      replicas[i].ClearDivergence();
    }

    /** Interference by other operations leaves this operation's rows and stagings alone. */
    method InterfereForeign(n: nat, env: Schedule, ghost op: string)
      requires Valid()
      requires ForeignSchedule(env, op)
      modifies Footprint()
      ensures Valid()
      ensures old(trace) <= trace
      ensures forall n | |old(trace)| <= n < |trace| :: DuringWrite(env, trace[n])
      ensures NoOwnCommit(trace, |old(trace)|, op)
      ensures forall k: ReplicaIndex :: Quiet(old(Stores())[k], Stores()[k], op)
      ensures env(n) == [] ==> Stores() == old(Stores()) && Healths() == old(Healths())
    {
      EnvironmentTurn(origin, trace, n, env, op);
      ghost var t0 := trace;
      Interfere(env(n));
      assert env(n) == [] ==> trace == t0;
    }

    method DispatchPrepare(i: ReplicaIndex, op: string, record: Record, call: PrepareCall)
      returns (ack: Ack, ghost tx: Option<Tx>)
      requires Valid()
      modifies this`trace, replicas[0].db, replicas[1].db, replicas[2].db
      ensures Valid()
      ensures (tx, ack) ==
              PrepareReply(old(Stores())[i], i, old(Healths())[i], op, record, call, replicas[i].pendingLease)
      ensures trace == old(trace) + (if tx.Some? then [Event(i, tx.value)] else [])
      ensures Stores() == old(Stores())[i := ApplyOptional(old(Stores())[i], tx)]
      ensures Healths() == old(Healths())
    {
      ghost var before := Stores();
      tx := PrepareReply(before[i], i, Healths()[i], op, record, call, replicas[i].pendingLease).0;
      ack := replicas[i].Prepare(op, record, call);
      StoresBut(i, before, ApplyOptional(before[i], tx));
      Record(i, tx, before);
    }

    method CallPrepare(i: ReplicaIndex, op: string, record: Record, call: PrepareCall)
      returns (ack: Ack, ghost issued: seq<Event>, ghost staged: Store)
      requires Valid()
      requires NoStaging(Stores()[i], op)
      modifies this`trace, replicas[0].db, replicas[1].db, replicas[2].db
      ensures Valid()
      ensures trace == old(trace) + issued && |issued| <= 1
      ensures forall e | e in issued :: OwnWrite(e, op, record) && !e.tx.TxCommit?
      ensures Stores() == old(Stores())[i := staged]
      ensures staged.committed == old(Stores())[i].committed
      ensures StagedAs(staged, op, ack)
      ensures ack.replica == i
      ensures ack.status.AckPrepared? ==>
                && ack.subject.Some? && Sound(ack.subject.value)
                && Head(old(Stores())[i], ack.subject.value.key) + 1 == ack.subject.value.version
                && (call.interception.PassThrough? ==> ack.subject.value == record)
      ensures Healths() == old(Healths())
      ensures ack == PrepareReply(old(Stores())[i], i, old(Healths())[i], op, record, call, replicas[i].pendingLease).1
      ensures call.interception.PassThrough? ==>
                && (ack.status.AckPrepared? <==>
                      Receptive(old(Stores())[i], old(Healths())[i], record, call, replicas[i].pendingLease))
                && (ack.status.AckPrepared? ==> Primed(staged, Healths()[i], op, record, ack))
    {
      ghost var before := Stores()[i];
      if call.interception.PassThrough? {
        PrepareIsGranted(before, i, Healths()[i], op, record, call, replicas[i].pendingLease);
      }
      PrepareStages(before, i, Healths()[i], op, record, call, replicas[i].pendingLease);
      ghost var tx;
      ack, tx := DispatchPrepare(i, op, record, call);
      staged := ApplyOptional(before, tx);
      issued := if tx.Some? then [Event(i, tx.value)] else [];
    }

    method DispatchCommit(i: ReplicaIndex, op: string, record: Record, fault: Fault)
      returns (ack: Ack, ghost tx: Option<Tx>)
      requires Valid()
      modifies this`trace, replicas[0].db, replicas[1].db, replicas[2].db
      ensures Valid()
      ensures (tx, ack) == CommitReply(old(Stores())[i], i, old(Healths())[i], op, record, fault)
      ensures trace == old(trace) + (if tx.Some? then [Event(i, tx.value)] else [])
      ensures Stores() == old(Stores())[i := ApplyOptional(old(Stores())[i], tx)]
      ensures Healths() == old(Healths())
    {
      ghost var before := Stores();
      tx := CommitReply(before[i], i, Healths()[i], op, record, fault).0;
      ack := replicas[i].Commit(op, record, fault);
      StoresBut(i, before, ApplyOptional(before[i], tx));
      Record(i, tx, before);
    }

    method CallCommit(i: ReplicaIndex, op: string, record: Record, fault: Fault, ghost prepared: Ack)
      returns (ack: Ack, ghost issued: seq<Event>, ghost after: Store)
      requires Valid()
      requires Settled(Stores()[i], op, record, prepared, false)
      modifies this`trace, replicas[0].db, replicas[1].db, replicas[2].db
      ensures Valid()
      ensures trace == old(trace) + issued
      ensures forall e | e in issued :: OwnWrite(e, op, record)
      ensures Stores() == old(Stores())[i := after] && Healths() == old(Healths())
      ensures CommitCall(old(Stores())[i], after, i, old(Healths())[i], op, record, fault, prepared, ack)
      ensures ack.status.AckCommitted? ==> PromotedAt(origin, trace, |old(trace)|, i, op, record)
    {
      StoresSound();
      ghost var before, t0 := Stores()[i], trace;
      CommitSettles(before, i, Healths()[i], op, record, fault, prepared);
      ghost var tx;
      ack, tx := DispatchCommit(i, op, record, fault);
      after := ApplyOptional(before, tx);
      issued := if tx.Some? then [Event(i, tx.value)] else [];
      if ack.status.AckCommitted? {
        CommitIsPromotion(origin, t0, i, op, record, tx);
      }
    }

    method DispatchAbort(i: ReplicaIndex, op: string, slot: Slot, fault: Fault) returns (ack: Ack, ghost tx: Option<Tx>)
      requires Valid()
      modifies this`trace, replicas[0].db, replicas[1].db, replicas[2].db
      ensures Valid()
      ensures (tx, ack) == AbortReply(i, old(Healths())[i], op, slot, fault)
      ensures trace == old(trace) + (if tx.Some? then [Event(i, tx.value)] else [])
      ensures Stores() == old(Stores())[i := ApplyOptional(old(Stores())[i], tx)]
      ensures Healths() == old(Healths())
    {
      ghost var before, healths := Stores(), Healths();
      tx := AbortReply(i, healths[i], op, slot, fault).0;
      ack := replicas[i].Abort(op, slot, fault);
      StoresBut(i, before, ApplyOptional(before[i], tx));
      assert Healths() == healths;
      Record(i, tx, before);
    }

    method CallAbort(i: ReplicaIndex, op: string, slot: Slot, fault: Fault)
      returns (ack: Ack, ghost issued: seq<Event>, ghost after: Store)
      requires Valid()
      modifies this`trace, replicas[0].db, replicas[1].db, replicas[2].db
      ensures Valid()
      ensures trace == old(trace) + issued
      ensures forall e | e in issued :: e.tx == TxAbort(slot, Some(op))
      ensures Stores() == old(Stores())[i := after] && Healths() == old(Healths())
      ensures Quiet(old(Stores())[i], after, op)
      ensures ack.replica == i
      ensures ack.status.Aborted? ==> slot !in after.pending || after.pending[slot].operationId != op
      ensures ack.status.Aborted? <==> !old(Healths())[i].Down? && fault.NoFault?
    {
      ghost var before := Stores()[i];
      AbortClears(before, i, Healths()[i], op, slot, fault);
      ghost var tx;
      ack, tx := DispatchAbort(i, op, slot, fault);
      after := ApplyOptional(before, tx);
      issued := if tx.Some? then [Event(i, tx.value)] else [];
    }

    method DispatchUpsert(i: ReplicaIndex, op: string, record: Record, fault: Fault) returns (ack: Ack, ghost tx: Option<Tx>)
      requires Valid()
      modifies this`trace, replicas[0].db, replicas[1].db, replicas[2].db
      ensures Valid()
      ensures (tx, ack) == UpsertReply(old(Stores())[i], i, old(Healths())[i], op, record, fault)
      ensures trace == old(trace) + (if tx.Some? then [Event(i, tx.value)] else [])
      ensures Stores() == old(Stores())[i := ApplyOptional(old(Stores())[i], tx)]
      ensures Healths() == old(Healths())
    {
      ghost var before := Stores();
      tx := UpsertReply(before[i], i, Healths()[i], op, record, fault).0;
      ack := replicas[i].UpsertExternal(op, record, fault);
      StoresBut(i, before, ApplyOptional(before[i], tx));
      Record(i, tx, before);
    }

    // ---- Write ----

    /** Replica `k` can stage the record under these circumstances. */
    ghost predicate Ready(k: ReplicaIndex, record: Record, c: WriteConditions)
      requires Shape()
      reads Footprint()
    {
      Receptive(Stores()[k], Healths()[k], record, c.prepare(k), replicas[k].pendingLease)
    }

    ghost function Leases(): seq<real>
      requires Shape()
      ensures |Leases()| == 3
    {
      [replicas[0].pendingLease, replicas[1].pendingLease, replicas[2].pendingLease]
    }

    ghost function Readiness(record: Record, c: WriteConditions): seq<bool>
      requires Shape()
      reads Footprint()
      ensures |Readiness(record, c)| == 3
    {
      [Ready(0, record, c), Ready(1, record, c), Ready(2, record, c)]
    }

    method PrepareOne(i: ReplicaIndex, op: string, record: Record, c: WriteConditions)
      returns (ack: Ack, ghost mark: nat)
      requires Valid()
      requires ForeignSchedule(c.env, op)
      requires !Gained(Stores()[i], op) && NoStaging(Stores()[i], op)
      modifies Footprint()
      ensures Valid() && old(trace) <= trace
      ensures WriteSegment(c.env, trace, |old(trace)|, op, record) && NoOwnCommit(trace, |old(trace)|, op)
      ensures forall k: ReplicaIndex | k != i :: Quiet(old(Stores())[k], Stores()[k], op)
      ensures PreparedState(origin, trace, |old(trace)|, op, record, i, Stores()[i], ack, mark, c)
      ensures Silent(c.env) ==> Healths() == old(Healths()) && forall k: ReplicaIndex | k != i :: Stores()[k] == old(Stores())[k]
      ensures Silent(c.env) ==> Replied(old(Stores()), old(Healths()), Leases(), i, op, record, c, ack)
      ensures Silent(c.env) && Untouched(c, i) ==>
                && (ack.status.AckPrepared? <==> old(Ready(i, record, c)))
                && (ack.status.AckPrepared? ==> Primed(Stores()[i], Healths()[i], op, record, ack))
    {
      InterfereForeign(i, c.env, op);
      ghost var before := trace;
      mark := |before|;
      ghost var issued, staged;
      ack, issued, staged := CallPrepare(i, op, record, c.prepare(i));
      assert trace[..mark] == before;
    }

    /** Ask every replica in turn to stage the record. */
    method PreparePhase(op: string, record: Record, c: WriteConditions)
      returns (acks: seq<Ack>, ghost marks: seq<nat>)
      requires Valid()
      requires ForeignSchedule(c.env, op)
      requires forall k: ReplicaIndex :: !Gained(Stores()[k], op) && NoStaging(Stores()[k], op)
      modifies Footprint()
      ensures Valid() && old(trace) <= trace
      ensures WriteSegment(c.env, trace, |old(trace)|, op, record) && NoOwnCommit(trace, |old(trace)|, op)
      ensures |acks| == 3 && |marks| == 3
      ensures forall k: ReplicaIndex :: PreparedState(origin, trace, |old(trace)|, op, record, k, Stores()[k], acks[k], marks[k], c)
      ensures Silent(c.env) ==>
                && Healths() == old(Healths()) && AllPrimed(Stores(), Healths(), op, record, acks, c)
                && AsReady(old(Readiness(record, c)), acks, c)
                && forall k: ReplicaIndex :: Replied(old(Stores()), old(Healths()), Leases(), k, op, record, c, acks[k])
    {
      acks, marks := [], [];
      ghost var ready, w, h := Readiness(record, c), Stores(), Healths();
      for i := 0 to 3
        invariant Valid() && old(trace) <= trace
        invariant WriteSegment(c.env, trace, |old(trace)|, op, record) && NoOwnCommit(trace, |old(trace)|, op)
        invariant |acks| == i && |marks| == i
        invariant forall k: ReplicaIndex | k < i ::
                    PreparedState(origin, trace, |old(trace)|, op, record, k, Stores()[k], acks[k], marks[k], c)
        invariant forall k: ReplicaIndex | i <= k :: !Gained(Stores()[k], op) && NoStaging(Stores()[k], op)
        invariant Silent(c.env) ==>
                    && Healths() == h && (forall k: ReplicaIndex | i <= k :: Stores()[k] == w[k])
                    && (forall k: ReplicaIndex | k < i :: Replied(w, h, Leases(), k, op, record, c, acks[k]))
                    && (forall k: ReplicaIndex | k < i && Untouched(c, k) ::
                          && (acks[k].status.AckPrepared? <==> ready[k])
                          && (acks[k].status.AckPrepared? ==> Primed(Stores()[k], Healths()[k], op, record, acks[k])))
      {
        ghost var t0, w0 := trace, Stores();
        assert Silent(c.env) ==> (Ready(i, record, c) <==> ready[i]);
        ghost var h0 := Healths();
        var ack, mark := PrepareOne(i, op, record, c);
        assert Silent(c.env) ==> w0[i] == w[i] && h0 == h && Replied(w, h, Leases(), i, op, record, c, ack);
        forall k: ReplicaIndex | k < i
          ensures PreparedState(origin, trace, |old(trace)|, op, record, k, Stores()[k], acks[k], marks[k], c)
        {
          PreparedStatePersists(origin, t0, trace, |old(trace)|, op, record, k, w0[k], Stores()[k], acks[k], marks[k], c);
        }
        acks, marks := acks + [ack], marks + [mark];
      }
    }

    /** One replica's part of the commit phase: promote a winner, abort a loser, skip the unprepared. */
    method CommitOne(j: ReplicaIndex, op: string, record: Record, c: WriteConditions, prepared: Ack, wins: bool)
      returns (answer: PhaseAnswer)
      requires Valid()
      requires ForeignSchedule(c.env, op)
      requires Settled(Stores()[j], op, record, prepared, false)
      modifies Footprint()
      ensures Valid() && old(trace) <= trace
      ensures WriteSegment(c.env, trace, |old(trace)|, op, record)
      ensures forall k: ReplicaIndex | k != j :: Quiet(old(Stores())[k], Stores()[k], op)
      ensures AfterCommit(origin, trace, op, record, j, Stores()[j], prepared, wins, answer)
      ensures answer.FromCommit? <==> prepared.status.AckPrepared? && wins
      ensures answer.FromAbort? <==> prepared.status.AckPrepared? && !wins
      ensures Silent(c.env) ==>
                && Healths() == old(Healths())[j := if answer.FromCommit? && !PromotedBy(answer) then Diverged else old(Healths())[j]]
                && forall k: ReplicaIndex | k != j :: Stores()[k] == old(Stores())[k]
      ensures Silent(c.env) && wins && Primed(old(Stores())[j], old(Healths())[j], op, record, prepared) ==>
                (PromotedBy(answer) <==> c.commit(j).NoFault?)
      ensures Silent(c.env) && answer.FromAbort? ==>
                (answer.ack.status.Aborted? <==> !old(Healths())[j].Down? && c.abort(j).NoFault?)
    {
      if !prepared.status.AckPrepared? {
        InterfereForeign(3 + j, c.env, op);
        SettledPersists(old(Stores())[j], Stores()[j], op, record, prepared, false);
        return Skipped;
      }
      if wins {
        var ack := CommitWinner(j, op, record, c, prepared);
        answer := FromCommit(ack);
      } else {
        answer := AbortLoser(j, op, record, c, prepared);
      }
    }

    method CommitWinner(j: ReplicaIndex, op: string, record: Record, c: WriteConditions, prepared: Ack) returns (ack: Ack)
      requires Valid()
      requires ForeignSchedule(c.env, op)
      requires Settled(Stores()[j], op, record, prepared, false)
      modifies Footprint()
      ensures Valid() && old(trace) <= trace
      ensures WriteSegment(c.env, trace, |old(trace)|, op, record)
      ensures forall k: ReplicaIndex | k != j :: Quiet(old(Stores())[k], Stores()[k], op)
      ensures AfterCommit(origin, trace, op, record, j, Stores()[j], prepared, true, FromCommit(ack))
      ensures !ack.status.AckCommitted? ==> Healths()[j].Diverged?
      ensures Silent(c.env) ==>
                && Healths() == old(Healths())[j := if ack.status.AckCommitted? then old(Healths())[j] else Diverged]
                && forall k: ReplicaIndex | k != j :: Stores()[k] == old(Stores())[k]
      ensures Silent(c.env) && StagedHere(old(Stores())[j], op, record) && !old(Healths())[j].Down? ==>
                (ack.status.AckCommitted? <==> c.commit(j).NoFault?)
    {
      InterfereForeign(3 + j, c.env, op);
      SettledPersists(old(Stores())[j], Stores()[j], op, record, prepared, false);
      ghost var mid, issued := trace, [];
      ack, issued := OrderCommit(j, op, record, c.commit(j), prepared);
      SegmentOf(c.env, old(trace), mid, issued, op, record);
    }

    /** Order the promotion; a replica that does not acknowledge it is marked diverged. */
    method OrderCommit(j: ReplicaIndex, op: string, record: Record, fault: Fault, ghost prepared: Ack)
      returns (ack: Ack, ghost issued: seq<Event>)
      requires Valid()
      requires Settled(Stores()[j], op, record, prepared, false)
      modifies Footprint()
      ensures Valid() && trace == old(trace) + issued
      ensures forall e | e in issued :: OwnWrite(e, op, record)
      ensures forall k: ReplicaIndex | k != j :: Stores()[k] == old(Stores())[k]
      ensures AfterCommit(origin, trace, op, record, j, Stores()[j], prepared, true, FromCommit(ack))
      ensures Healths() == old(Healths())[j := if ack.status.AckCommitted? then old(Healths())[j] else Diverged]
      ensures ack.status.AckCommitted? <==>
                !old(Healths())[j].Down? && fault.NoFault? && StagedBy(old(Stores())[j], SlotOf(record), record.recordId, op)
    {
      ghost var after;
      ack, issued, after := CallCommit(j, op, record, fault, prepared);
      if !ack.status.AckCommitted? {
        MarkDiverged(j);
      }
    }

    method AbortLoser(j: ReplicaIndex, op: string, record: Record, c: WriteConditions, prepared: Ack)
      returns (answer: PhaseAnswer)
      requires Valid()
      requires ForeignSchedule(c.env, op)
      requires Settled(Stores()[j], op, record, prepared, false)
      modifies Footprint()
      ensures Valid() && old(trace) <= trace && answer.FromAbort?
      ensures WriteSegment(c.env, trace, |old(trace)|, op, record)
      ensures forall k: ReplicaIndex | k != j :: Quiet(old(Stores())[k], Stores()[k], op)
      ensures AfterCommit(origin, trace, op, record, j, Stores()[j], prepared, false, answer)
      ensures Silent(c.env) ==>
                && Healths() == old(Healths()) && (forall k: ReplicaIndex | k != j :: Stores()[k] == old(Stores())[k])
                && (answer.ack.status.Aborted? <==> !old(Healths())[j].Down? && c.abort(j).NoFault?)
    {
      InterfereForeign(3 + j, c.env, op);
      SettledPersists(old(Stores())[j], Stores()[j], op, record, prepared, false);
      ghost var before := Stores()[j];
      ghost var issued, after;
      var ack;
      ack, issued, after := CallAbort(j, op, SlotOf(record), c.abort(j));
      SettledPersists(before, after, op, record, prepared, false);
      answer := FromAbort(ack);
    }

    /** Promote the winners in turn; each loser's staging is aborted. */
    method CommitPhase(op: string, record: Record, c: WriteConditions, acks: seq<Ack>, winners: set<nat>)
      returns (answers: seq<PhaseAnswer>)
      requires Valid() && |acks| == 3
      requires ForeignSchedule(c.env, op)
      requires forall k: ReplicaIndex :: Settled(Stores()[k], op, record, acks[k], false)
      modifies Footprint()
      ensures Valid() && old(trace) <= trace
      ensures WriteSegment(c.env, trace, |old(trace)|, op, record)
      ensures |answers| == 3
      ensures forall k: ReplicaIndex ::
                AfterCommit(origin, trace, op, record, k, Stores()[k], acks[k], k in winners, answers[k])
      ensures CommitAnswers(acks, winners, answers, 3)
      ensures Silent(c.env) ==>
                && MarksUnanswered(old(Healths()), Healths(), answers) && AbortsHeard(old(Healths()), answers, c)
                && PrimedPromote(old(Stores()), old(Healths()), op, record, acks, winners, answers, c, 3)
    {
      answers := [Skipped, Skipped, Skipped];
      ghost var w, h := Stores(), Healths();
      for j := 0 to 3
        invariant Valid() && old(trace) <= trace
        invariant WriteSegment(c.env, trace, |old(trace)|, op, record)
        invariant |answers| == 3 && CommitProgress(origin, trace, op, record, Stores(), acks, winners, answers, j)
        invariant Silent(c.env) ==> PhaseSoFar(w, h, Stores(), Healths(), op, record, acks, winners, answers, c, j)
      {
        ghost var before, healths, stores := answers, Healths(), Stores();
        answers := CommitNext(j, op, record, c, acks, winners, answers);
        if Silent(c.env) {
          PhaseAdvances(w, h, stores, healths, Stores(), Healths(), op, record, acks, winners, before, answers, c, j);
        }
      }
    }

    /** Replica `j`'s turn in the commit phase. */
    method CommitNext(j: ReplicaIndex, op: string, record: Record, c: WriteConditions, acks: seq<Ack>,
                      winners: set<nat>, answers: seq<PhaseAnswer>)
      returns (answers': seq<PhaseAnswer>)
      requires Valid() && |acks| == 3 && |answers| == 3
      requires ForeignSchedule(c.env, op)
      requires CommitProgress(origin, trace, op, record, Stores(), acks, winners, answers, j)
      modifies Footprint()
      ensures Valid() && old(trace) <= trace
      ensures WriteSegment(c.env, trace, |old(trace)|, op, record)
      ensures |answers'| == 3 && answers' == answers[j := answers'[j]]
      ensures CommitProgress(origin, trace, op, record, Stores(), acks, winners, answers', j + 1)
      ensures Silent(c.env) ==>
                && Healths() == old(Healths())[j := if answers'[j].FromCommit? && !PromotedBy(answers'[j]) then Diverged
                                                    else old(Healths())[j]]
                && forall k: ReplicaIndex | k != j :: Stores()[k] == old(Stores())[k]
      ensures Silent(c.env) && j in winners && Primed(old(Stores())[j], old(Healths())[j], op, record, acks[j]) ==>
                (PromotedBy(answers'[j]) <==> c.commit(j).NoFault?)
      ensures Silent(c.env) && answers'[j].FromAbort? ==>
                (answers'[j].ack.status.Aborted? <==> !old(Healths())[j].Down? && c.abort(j).NoFault?)
    {
      ghost var t0, w0 := trace, Stores();
      var answer := CommitOne(j, op, record, c, acks[j], j in winners);
      CommitAdvances(origin, t0, trace, op, record, w0, Stores(), acks, winners, answers, j, answer);
      answers' := answers[j := answer];
    }

    /** Explicit aborts on the replicas that prepared (`prepared`) or on those that did not. */
    method AbortWhere(op: string, record: Record, c: WriteConditions, acks: seq<Ack>, prepared: bool)
      returns (answers: seq<PhaseAnswer>)
      requires Valid() && |acks| == 3
      requires ForeignSchedule(c.env, op)
      requires forall k: ReplicaIndex :: StagedAs(Stores()[k], op, acks[k])
      modifies Footprint()
      ensures Valid() && old(trace) <= trace
      ensures WriteSegment(c.env, trace, |old(trace)|, op, record)
      ensures NoOwnCommit(trace, |old(trace)|, op)
      ensures forall k: ReplicaIndex :: Quiet(old(Stores())[k], Stores()[k], op)
      ensures |answers| == 3
      ensures forall k: ReplicaIndex :: !answers[k].FromCommit? && AnswerFits(op, record, k, Stores()[k], acks[k], answers[k])
      ensures AbortAnswers(acks, prepared, answers, 3)
      ensures Silent(c.env) ==> Healths() == old(Healths()) && AbortsHeard(old(Healths()), answers, c)
    {
      answers := [Skipped, Skipped, Skipped];
      for j := 0 to 3
        invariant Valid() && old(trace) <= trace
        invariant WriteSegment(c.env, trace, |old(trace)|, op, record) && NoOwnCommit(trace, |old(trace)|, op)
        invariant forall k: ReplicaIndex :: Quiet(old(Stores())[k], Stores()[k], op)
        invariant |answers| == 3 && AbortAnswers(acks, prepared, answers, j)
        invariant Silent(c.env) ==> Healths() == old(Healths()) && AbortsHeard(old(Healths()), answers, c)
        invariant forall k: ReplicaIndex ::
                    !answers[k].FromCommit? && AnswerFits(op, record, k, Stores()[k], acks[k], answers[k])
      {
        var answer := AbortOne(j, op, record, c, acks[j], prepared);
        answers := answers[j := answer];
      }
    }

    method AbortOne(j: ReplicaIndex, op: string, record: Record, c: WriteConditions, ack: Ack, prepared: bool)
      returns (answer: PhaseAnswer)
      requires Valid()
      requires ForeignSchedule(c.env, op)
      requires StagedAs(Stores()[j], op, ack)
      modifies Footprint()
      ensures Valid() && old(trace) <= trace
      ensures WriteSegment(c.env, trace, |old(trace)|, op, record) && NoOwnCommit(trace, |old(trace)|, op)
      ensures forall k: ReplicaIndex :: Quiet(old(Stores())[k], Stores()[k], op)
      ensures !answer.FromCommit? && AnswerFits(op, record, j, Stores()[j], ack, answer)
      ensures answer.FromAbort? <==> ack.status.AckPrepared? == prepared && (prepared || ack.subject.Some?)
      ensures Silent(c.env) ==>
                && Healths() == old(Healths())
                && (answer.FromAbort? ==>
                      (answer.ack.status.Aborted? <==> !old(Healths())[j].Down? && c.abort(j).NoFault?))
    {
      if ack.status.AckPrepared? != prepared || (!prepared && ack.subject.None?) {
        InterfereForeign(6 + j, c.env, op);
        return Skipped;
      }
      var reply := AbortSlot(j, op, record, if prepared then SlotOf(record) else SlotOf(ack.subject.value), c, ack);
      answer := FromAbort(reply);
    }

    method AbortSlot(j: ReplicaIndex, op: string, record: Record, slot: Slot, c: WriteConditions, ghost prepared: Ack)
      returns (ack: Ack)
      requires Valid()
      requires ForeignSchedule(c.env, op)
      requires StagedAs(Stores()[j], op, prepared)
      requires prepared.status.AckPrepared? ==> slot == SlotOf(record)
      modifies Footprint()
      ensures Valid() && old(trace) <= trace
      ensures WriteSegment(c.env, trace, |old(trace)|, op, record) && NoOwnCommit(trace, |old(trace)|, op)
      ensures forall k: ReplicaIndex :: Quiet(old(Stores())[k], Stores()[k], op)
      ensures AnswerFits(op, record, j, Stores()[j], prepared, FromAbort(ack))
      ensures Silent(c.env) ==>
                && Healths() == old(Healths())
                && (ack.status.Aborted? <==> !old(Healths())[j].Down? && c.abort(j).NoFault?)
    {
      InterfereForeign(6 + j, c.env, op);
      ghost var issued, after;
      ack, issued, after := CallAbort(j, op, slot, c.abort(j));
    }

    /** The commit phase on the winning group, then an abort on whoever did not prepare. */
    method CommitThenClean(op: string, record: Record, c: WriteConditions, acks: seq<Ack>, winners: set<nat>)
      returns (answers: seq<PhaseAnswer>, cleanup: seq<PhaseAnswer>)
      requires Valid() && |acks| == 3
      requires ForeignSchedule(c.env, op)
      requires forall k: ReplicaIndex :: Settled(Stores()[k], op, record, acks[k], false)
      modifies Footprint()
      ensures Valid() && old(trace) <= trace
      ensures WriteSegment(c.env, trace, |old(trace)|, op, record)
      ensures |answers| == 3 && |cleanup| == 3
      ensures CommitAnswers(acks, winners, answers, 3) && AbortAnswers(acks, false, cleanup, 3)
      ensures forall k: ReplicaIndex ::
                && AfterCommit(origin, trace, op, record, k, Stores()[k], acks[k], k in winners, answers[k])
                && !cleanup[k].FromCommit? && AnswerFits(op, record, k, Stores()[k], acks[k], cleanup[k])
      ensures Silent(c.env) ==>
                && MarksUnanswered(old(Healths()), Healths(), answers) && AbortsHeard(old(Healths()), answers, c)
                && PrimedPromote(old(Stores()), old(Healths()), op, record, acks, winners, answers, c, 3)
    {
      answers := CommitPhase(op, record, c, acks, winners);
      ghost var t2, w2 := trace, Stores();
      cleanup := AbortWhere(op, record, c, acks, false);
      forall k: ReplicaIndex
        ensures AfterCommit(origin, trace, op, record, k, Stores()[k], acks[k], k in winners, answers[k])
      {
        AfterCommitPersists(origin, t2, trace, op, record, k, w2[k], Stores()[k], acks[k], k in winners, answers[k]);
      }
    }

    /** From a met quorum to the reported outcome. */
    method Finish(op: string, record: Record, c: WriteConditions, acks: seq<Ack>, ghost marks: seq<nat>,
                  quorum: QuorumDecision, ghost lo: nat)
      returns (result: WriteResult)
      requires Valid() && |acks| == 3 && |marks| == 3
      requires ForeignSchedule(c.env, op)
      requires forall k: ReplicaIndex ::
                 PreparedState(origin, trace, lo, op, record, k, Stores()[k], acks[k], marks[k], c)
      requires quorum.verdict.QuorumMet? && Decides(acks, QUORUM, quorum)
      modifies Footprint()
      ensures Valid() && old(trace) <= trace
      ensures WriteSegment(c.env, trace, |old(trace)|, op, record)
      ensures ExactOutcome(Stores(), op, result.outcome)
      ensures forall k: ReplicaIndex :: WroteOnly(Stores()[k], op, record)
      ensures result.outcome.Committed? ==> CommittedBy(origin, trace, op, record)
      ensures StagingCleared(Stores(), op, c, result)
      ensures (result.outcome.Committed? || result.outcome.PartialCommit?) && Sound(record) ==>
                TwoStoodBehind(origin, old(trace), lo, |old(trace)|, record)
      ensures Conducted(result)
      ensures Settlement(old(Stores()), old(Healths()), Stores(), Healths(), op, record, acks, c, result)
    {
      ghost var t1, w1, h1 := trace, Stores(), Healths();
      var answers, cleanup := CommitThenClean(op, record, c, acks, quorum.compatible);
      CommitCounts(origin, t1, trace, lo, op, record, Stores(), c, acks, marks, quorum, answers);
      var durable := Durable(CommitAcksOf(answers), record);
      var outcome :=
        if durable >= QUORUM then Committed
        else if durable == 1 then PartialCommit
        else FailedStorage;
      result := WriteResult(outcome, acks, CommitAcksOf(answers), AbortAcksOf(answers) + AbortAcksOf(cleanup));
      CommitClears(origin, t1, trace, lo, op, record, Stores(), c, acks, marks, quorum.compatible, answers, cleanup,
                   result);
      FinishIsConducted(acks, quorum, answers, cleanup, result);
      FinishSettles(w1, h1, Stores(), Healths(), trace, origin, op, record, acks, c, quorum, answers, result);
    }

    /**
     One write. The outcome counts exactly the replicas that gained the row in this operation: COMMITTED two or
     more, PARTIAL_COMMIT one, every other outcome none. No transaction of the write promotes before position
     `commitStart`, by which two replicas had stood just below the record's version.
     */
    method Propose(op: string, record: Record, admission: Admission, c: WriteConditions)
      returns (result: WriteResult, ghost commitStart: nat)
      requires Valid()
      requires ForeignSchedule(c.env, op)
      requires forall k: ReplicaIndex :: !Gained(Stores()[k], op) && NoStaging(Stores()[k], op)
      modifies Footprint()
      ensures Valid() && old(trace) <= trace
      ensures WriteSegment(c.env, trace, |old(trace)|, op, record)
      ensures ExactOutcome(Stores(), op, result.outcome)
      ensures forall k: ReplicaIndex :: WroteOnly(Stores()[k], op, record)
      ensures result.outcome.Committed? ==> CommittedBy(origin, trace, op, record)
      ensures StagingCleared(Stores(), op, c, result)
      ensures |old(trace)| <= commitStart <= |trace|
      ensures forall n | |old(trace)| <= n < commitStart :: !OwnCommit(trace[n], op)
      ensures (result.outcome.Committed? || result.outcome.PartialCommit?) && Sound(record) ==>
                TwoStoodBehind(origin, trace, |old(trace)|, commitStart, record)
      ensures if admission.Admitted? then Conducted(result) else result.prepareAcks == [] && trace == old(trace)
      ensures !admission.Admitted? ==>
                && result == WriteResult(if admission.InvalidSchema? then RejectedSchema else RejectedAuthorization, [], [], [])
                && Healths() == old(Healths())
      ensures Silent(c.env) ==>
                && MarksLaggards(old(Healths()), Healths(), Stores(), op, result)
                && LeavesNothing(old(Healths()), Stores(), op, c)
      ensures admission.Admitted? && Silent(c.env) ==> Delivered(old(Readiness(record, c)), Stores(), op, c, result)
      ensures admission.Admitted? && Unhindered(c) && Sound(record) ==>
                Classified(old(Stores()), old(Healths()), Leases(), record, c, result.outcome)
    {
      commitStart := |trace|;
      if !admission.Admitted? {
        result := WriteResult(if admission.InvalidSchema? then RejectedSchema else RejectedAuthorization, [], [], []);
        NothingGained(Stores(), op, result.outcome);
        return;
      }
      var acks;
      ghost var marks;
      acks, marks := PreparePhase(op, record, c);
      ghost var w1, h1 := Stores(), Healths();
      result, commitStart := Conclude(op, record, c, acks, marks, |old(trace)|);
      if Silent(c.env) {
        SettlementDelivers(old(Readiness(record, c)), w1, h1, Stores(), Healths(), op, record, acks, c, result);
        if Unhindered(c) && Sound(record) {
          RefusalIsClassified(old(Stores()), old(Healths()), Leases(), op, record, c, result);
        }
      }
    }

    /** From the prepare acknowledgements to the outcome. */
    method Conclude(op: string, record: Record, c: WriteConditions, acks: seq<Ack>, ghost marks: seq<nat>, ghost lo: nat)
      returns (result: WriteResult, ghost commitStart: nat)
      requires Valid() && |acks| == 3 && |marks| == 3 && lo <= |trace|
      requires ForeignSchedule(c.env, op)
      requires forall k: ReplicaIndex ::
                 PreparedState(origin, trace, lo, op, record, k, Stores()[k], acks[k], marks[k], c)
      modifies Footprint()
      ensures Valid() && old(trace) <= trace
      ensures WriteSegment(c.env, trace, |old(trace)|, op, record)
      ensures ExactOutcome(Stores(), op, result.outcome)
      ensures forall k: ReplicaIndex :: WroteOnly(Stores()[k], op, record)
      ensures result.outcome.Committed? ==> CommittedBy(origin, trace, op, record)
      ensures StagingCleared(Stores(), op, c, result)
      ensures |old(trace)| <= commitStart <= |trace|
      ensures forall n | |old(trace)| <= n < commitStart :: !OwnCommit(trace[n], op)
      ensures (result.outcome.Committed? || result.outcome.PartialCommit?) && Sound(record) ==>
                TwoStoodBehind(origin, trace, lo, commitStart, record)
      ensures Conducted(result)
      ensures Settlement(old(Stores()), old(Healths()), Stores(), Healths(), op, record, acks, c, result)
    {
      commitStart := |trace|;
      ghost var t1, w1, h1 := trace, Stores(), Healths();
      if forall a | a in acks :: !a.status.AckPrepared? {
        assert forall k: ReplicaIndex :: acks[k] in acks;
        result := WriteResult(ClassifyTotalRejection(acks), acks, [], []);
        NothingGained(Stores(), op, result.outcome);
        GivenUp(w1, h1, Stores(), Healths(), op, record, acks, c, result);
        return;
      }
      var quorum := EvaluateQuorum(acks, QUORUM);
      if !quorum.verdict.QuorumMet? {
        result := Abandon(op, record, c, acks, quorum);
        commitStart := |trace|;
        GivenUp(w1, h1, Stores(), Healths(), op, record, acks, c, result);
        return;
      }
      result := Finish(op, record, c, acks, marks, quorum, lo);
      if (result.outcome.Committed? || result.outcome.PartialCommit?) && Sound(record) {
        TwoStoodBehindExtends(origin, t1, trace, lo, commitStart, record);
      }
    }

    /** Without a compatible quorum every granted staging is aborted. */
    method Abandon(op: string, record: Record, c: WriteConditions, acks: seq<Ack>, quorum: QuorumDecision)
      returns (result: WriteResult)
      requires Valid() && |acks| == 3
      requires ForeignSchedule(c.env, op)
      requires forall k: ReplicaIndex ::
                 && !Gained(Stores()[k], op) && StagedAs(Stores()[k], op, acks[k])
                 && (acks[k].status.AckPrepared? && c.prepare(k).interception.PassThrough? ==> acks[k].subject == Some(record))
      requires Decides(acks, QUORUM, quorum) && !quorum.verdict.QuorumMet? && exists a :: a in acks && a.status.AckPrepared?
      modifies Footprint()
      ensures Valid() && old(trace) <= trace
      ensures WriteSegment(c.env, trace, |old(trace)|, op, record) && NoOwnCommit(trace, |old(trace)|, op)
      ensures ExactOutcome(Stores(), op, result.outcome)
      ensures result.outcome.FailedQuorum?
      ensures forall k: ReplicaIndex :: WroteOnly(Stores()[k], op, record)
      ensures StagingCleared(Stores(), op, c, result)
      ensures Conducted(result)
      ensures result.commitAcks == [] && result.prepareAcks == acks
      ensures NobodyGained(Stores(), op) && !TwoGranted(acks, record)
      ensures Silent(c.env) ==> Healths() == old(Healths()) && LeavesNothing(old(Healths()), Stores(), op, c)
    {
      if TwoGranted(acks, record) {
        GrantsAreQuorum(acks, record, quorum);
      }
      var aborts := AbortWhere(op, record, c, acks, true);
      result := WriteResult(FailedQuorum, acks, [], AbortAcksOf(aborts));
      NothingGained(Stores(), op, result.outcome);
      AnswersClear(Stores(), op, record, c, acks, aborts);
      AbortedIsConducted(acks, quorum, aborts, result);
      if Silent(c.env) {
        AbandonLeavesNothing(Healths(), Stores(), op, record, acks, c, aborts);
      }
    }

    // ---- Read ----

    method Observe(k: ReplicaIndex, key: string, version: Option<nat>, fails: bool) returns (o: Observation)
      requires Valid()
      ensures o.responded <==> !Healths()[k].Down? && !fails
      ensures o.responded ==> o.record == RecordOf(LookUp(Stores()[k], key, version))
      ensures !o.responded ==> o.record == None
    {
      if replicas[k].health.Down? || fails {
        return Observation(false, None);
      }
      var row := replicas[k].db.CommittedRow(key, version);
      o := Observation(true, RecordOf(row));
    }

    method ObserveOne(k: ReplicaIndex, key: string, version: Option<nat>, c: ReadConditions)
      returns (o: Observation, ghost mark: nat)
      requires Valid()
      modifies Footprint()
      ensures Valid() && old(trace) <= trace
      ensures forall n | |old(trace)| <= n < |trace| :: DuringRead(c, trace[n])
      ensures SeenAt(origin, trace, |old(trace)|, mark, k, key, version, o)
      ensures Silent(c.env) ==>
                && Healths() == old(Healths()) && Stores() == old(Stores())
                && Shows(Stores(), Healths(), c, k, key, version, o)
    {
      Interfere(c.env(k));
      mark := |trace|;
      assert trace[..mark] == trace;
      o := Observe(k, key, version, c.fails(k));
    }

    /** Observe the three replicas one after the other while the environment goes on. */
    method ObserveAll(key: string, version: Option<nat>, c: ReadConditions)
      returns (obs: seq<Observation>, ghost marks: seq<nat>)
      requires Valid()
      modifies Footprint()
      ensures Valid()
      ensures old(trace) <= trace
      ensures forall n | |old(trace)| <= n < |trace| :: DuringRead(c, trace[n])
      ensures Observed(origin, trace, |old(trace)|, key, version, obs, marks)
      ensures Silent(c.env) ==>
                && Stores() == old(Stores()) && Healths() == old(Healths())
                && forall k: ReplicaIndex :: Shows(old(Stores()), old(Healths()), c, k, key, version, obs[k])
    {
      ghost var w, h := Stores(), Healths();
      ghost var m0, m1, m2;
      var o0, o1, o2;
      o0, m0 := ObserveOne(0, key, version, c);
      ghost var t0 := trace;
      assert Silent(c.env) ==> Stores() == w && Healths() == h && Shows(w, h, c, 0, key, version, o0);
      o1, m1 := ObserveOne(1, key, version, c);
      ghost var t1 := trace;
      assert Silent(c.env) ==> Stores() == w && Healths() == h && Shows(w, h, c, 1, key, version, o1);
      o2, m2 := ObserveOne(2, key, version, c);
      assert Silent(c.env) ==> Stores() == w && Healths() == h && Shows(w, h, c, 2, key, version, o2);
      SeenAtExtends(origin, t0, trace, |old(trace)|, m0, 0, key, version, o0);
      SeenAtExtends(origin, t1, trace, |old(trace)|, m1, 1, key, version, o1);
      obs, marks := [o0, o1, o2], [m0, m1, m2];
    }

    /**
     A quorum read. It writes nothing. Its record is committed on two replicas, and nothing two replicas held when
     it began is missed, whatever happens between its three observations.
     */
    method Read(key: string, version: Option<nat>, authorized: bool, c: ReadConditions)
      returns (result: ReadResult)
      requires Valid()
      modifies Footprint()
      ensures Valid() && old(trace) <= trace
      ensures forall n | |old(trace)| <= n < |trace| :: DuringRead(c, trace[n])
      ensures result.record.Some? <==> Authoritative(result)
      ensures Grounded(Stores(), key, version, result)
      ensures RespectsCommits(old(Stores()), key, version, result)
      ensures result.outcome.NotFound? ==> TwoEmptyMoments(origin, trace, |old(trace)|, key, version)
      ensures !authorized ==>
                result.outcome.AuthorizationRejected? && trace == old(trace) && Healths() == old(Healths())
      ensures authorized && Silent(c.env) ==>
                && Reflects(old(Stores()), old(Healths()), c, key, version, result) && Stores() == old(Stores())
                && MarksDivergent(old(Stores()), old(Healths()), Healths(), c, key, version, result)
    {
      if !authorized {
        return ReadResult(AuthorizationRejected, None, {});
      }
      result := Decide(key, version, c);
      if result.outcome.DegradedConsistent? {
        MarkAll(result.divergent);
      }
    }

    /** The same without marking the divergent replicas. */
    method Decide(key: string, version: Option<nat>, c: ReadConditions) returns (result: ReadResult)
      requires Valid()
      modifies Footprint()
      ensures Valid() && old(trace) <= trace
      ensures forall n | |old(trace)| <= n < |trace| :: DuringRead(c, trace[n])
      ensures result.record.Some? <==> Authoritative(result)
      ensures Grounded(Stores(), key, version, result)
      ensures RespectsCommits(old(Stores()), key, version, result)
      ensures result.outcome.NotFound? ==> TwoEmptyMoments(origin, trace, |old(trace)|, key, version)
      ensures Silent(c.env) ==>
                && Stores() == old(Stores()) && Healths() == old(Healths())
                && Reflects(old(Stores()), old(Healths()), c, key, version, result)
                && (result.outcome.DegradedConsistent? ==>
                      Divergent(old(Stores()), old(Healths()), c, key, version, result))
    {
      ghost var t0, w0, h0 := trace, Stores(), Healths();
      var obs;
      ghost var marks;
      obs, marks := ObserveAll(key, version, c);
      result := DecideRead(obs);
      assert trace[..|t0|] == t0;
      ReadFacts(origin, trace, |t0|, key, version, obs, marks, result);
      if Silent(c.env) {
        RunKeepsInvariant(origin, t0);
        ReadReflects(w0, h0, c, key, version, obs, result);
      }
    }

    /** Mark the named replicas, and nobody else. */
    method MarkAll(ids: set<nat>)
      requires Valid()
      modifies replicas[0], replicas[1], replicas[2]
      ensures Valid() && Stores() == old(Stores())
      ensures forall k: ReplicaIndex :: Healths()[k] == if k in ids then Diverged else old(Healths())[k]
    {
      for k := 0 to 3
        invariant Valid() && Stores() == old(Stores())
        invariant forall i: ReplicaIndex :: Healths()[i] == if i < k && i in ids then Diverged else old(Healths())[i]
      {
        if k in ids {
          MarkDiverged(k);
        }
      }
    }

    /** The head at the first replica not marked unavailable: a hint, nothing more. */
    method HeadVersionHint(key: string) returns (v: nat)
      requires Valid()
      ensures v == Hint(Stores(), Healths(), key)
    {
      StoresSound();
      for k := 0 to 3
        invariant forall j: ReplicaIndex | j < k :: Healths()[j].Down?
      {
        if !replicas[k].health.Down? {
          var row := replicas[k].db.CommittedRow(key, None);
          HeadRowAgrees(Stores()[k], key);
          return if row.Some? then row.value.record.version else 0;
        }
      }
      return 0;
    }

    // ---- Repair ----

    /** The head record two replicas agree on, if any. */
    method ReadInternalMajority(key: string, c: ReadConditions) returns (probe: Option<Record>)
      requires Valid()
      modifies Footprint()
      ensures Valid() && old(trace) <= trace
      ensures forall n | |old(trace)| <= n < |trace| :: DuringRead(c, trace[n])
      ensures probe.Some? ==> Sound(probe.value) && probe.value.key == key && QuorumHolds(Stores(), probe.value)
      ensures Silent(c.env) ==> Stores() == old(Stores()) && Healths() == old(Healths())
      ensures Silent(c.env) ==>
                forall r: Record :: probe == Some(r) <==> TwoPresent(old(Stores()), old(Healths()), c, key, None, r)
    {
      var result := Decide(key, None, c);
      probe := result.record;
    }

    method ProbeMajority(ghost op: string, key: string, c: ReadConditions) returns (probe: Option<Record>)
      requires Valid()
      requires ForeignSchedule(c.env, op)
      modifies Footprint()
      ensures Valid() && old(trace) <= trace
      ensures forall n | |old(trace)| <= n < |trace| :: Foreign(trace[n], op)
      ensures probe.Some? ==>
                Sound(probe.value) && probe.value.key == key && QuorumHolds(Run(origin, trace), probe.value)
      ensures Silent(c.env) ==> Stores() == old(Stores()) && Healths() == old(Healths())
      ensures Silent(c.env) ==>
                forall r: Record :: probe == Some(r) <==> TwoPresent(old(Stores()), old(Healths()), c, key, None, r)
    {
      probe := ReadInternalMajority(key, c);
    }

    /** The upsert with the environment acting before and after it. */
    method RepairCall(n: nat, i: ReplicaIndex, op: string, probe: SoundRecord, c: RepairConditions)
      returns (ack: Ack, ghost issued: seq<Event>)
      requires Valid()
      modifies Footprint()
      ensures Valid()
      ensures trace == old(trace) + EventsOf(c.env(2 * n)) + issued + EventsOf(c.env(2 * n + 1))
      ensures issued == [] || issued == [Event(i, TxUpsert(probe, op))]
      ensures NoOperator(c.env(2 * n)) && NoOperator(c.env(2 * n + 1)) ==>
                Healths() == old(Healths()) && (ack.status.AckCommitted? ==> !old(Healths())[i].Down?)
      ensures Silent(c.env) ==> InsertTurn(old(Stores()), old(Healths()), Stores(), c, i, probe, ack)
    {
      ghost var t0, w0, h0 := trace, Stores(), Healths();
      Interfere(c.env(2 * n));
      assert c.env(2 * n) == [] ==> trace == t0 && Stores() == w0 && Healths() == h0;
      issued, ack := RepairDispatch(i, op, probe, c);
      ghost var t1, w1 := trace, Stores();
      Interfere(c.env(2 * n + 1));
      assert c.env(2 * n + 1) == [] ==> trace == t1 && Stores() == w1;
    }

    method RepairDispatch(i: ReplicaIndex, op: string, probe: SoundRecord, c: RepairConditions)
      returns (ghost issued: seq<Event>, ack: Ack)
      requires Valid()
      modifies this`trace, replicas[0].db, replicas[1].db, replicas[2].db
      ensures Valid() && Healths() == old(Healths())
      ensures trace == old(trace) + issued && (issued == [] || issued == [Event(i, TxUpsert(probe, op))])
      ensures ack.status.AckCommitted? ==> !old(Healths())[i].Down?
      ensures InsertTurn(old(Stores()), old(Healths()), Stores(), c, i, probe, ack)
    {
      StoresSound();
      InsertedByUpsert(Stores(), Healths(), i, op, probe, c);
      ghost var tx;
      ack, tx := DispatchUpsert(i, op, probe, c.upsert(i));
      issued := if tx.Some? then [Event(i, tx.value)] else [];
    }

    /** The same, as far as it moves heads and health. */
    method RepairStep(n: nat, i: ReplicaIndex, op: string, probe: SoundRecord, c: RepairConditions) returns (ack: Ack)
      requires Valid()
      requires ForeignSchedule(c.env, op)
      modifies Footprint()
      ensures Valid() && old(trace) <= trace
      ensures RepairSegment(trace, |old(trace)|, op, probe)
      ensures Calm(c.env, probe.key) ==>
                && KeepsHeads(Run(origin, old(trace)), Run(origin, trace), probe)
                && Healths() == old(Healths()) && (ack.status.AckCommitted? ==> !Healths()[i].Down?)
      ensures Silent(c.env) ==>
                Healths() == old(Healths()) && InsertTurn(old(Stores()), old(Healths()), Stores(), c, i, probe, ack)
    {
      ghost var issued;
      ack, issued := RepairCall(n, i, op, probe, c);
      if Calm(c.env, probe.key) {
        RepairKeepsHeads(origin, old(trace), c.env(2 * n), issued, c.env(2 * n + 1), i, op, probe);
      }
    }

    /** The head after a repair decides what is reported and how the replica is marked. */
    method Judge(i: ReplicaIndex, probe: SoundRecord, ack: Ack, recheckFails: bool) returns (status: RepairStatus)
      requires Valid()
      modifies replicas[i]
      ensures Valid()
      ensures Stores() == old(Stores())
      ensures status.Repaired? <==> ack.status.AckCommitted? && !recheckFails && HeadIs(Run(origin, trace)[i], probe)
      ensures status.PreservedDivergentHead? <==>
                !status.Repaired? && !recheckFails && Head(Run(origin, trace)[i], probe.key) > probe.version
      ensures Healths() == old(Healths())[i := if status.Repaired? then Cleared(old(Healths())[i])
                                               else if status.PreservedDivergentHead? then Diverged
                                               else old(Healths())[i]]
    {
      var head := None;
      if !recheckFails {
        head := HeadOf(i, probe);
      }
      if ack.status.AckCommitted? && head.Some? && head.value.record.recordId == probe.recordId {
        ClearDivergence(i);
        return Repaired;
      }
      if head.Some? && head.value.record.version > probe.version {
        MarkDiverged(i);
        return PreservedDivergentHead;
      }
      return RepairRefused;
    }

    /** The head row of the repaired record's key. */
    method HeadOf(i: ReplicaIndex, probe: SoundRecord) returns (row: Option<Row>)
      requires Valid()
      ensures row == HeadRow(Run(origin, trace)[i], probe.key)
      ensures row.Some? && row.value.record.recordId == probe.recordId <==> HeadIs(Run(origin, trace)[i], probe)
      ensures (row.Some? && row.value.record.version > probe.version) <==> Head(Run(origin, trace)[i], probe.key) > probe.version
    {
      ghost var st := Run(origin, trace)[i];
      RunKeepsInvariant(origin, trace);
      assert replicas[i].db.Contents() == st;
      row := replicas[i].db.CommittedRow(probe.key, None);
      HeadIsHeadRow(st, probe);
      HeadRowAgrees(st, probe.key);
      if row.Some? && row.value.record.recordId == probe.recordId {
        RecordIdDeterminesRecord(row.value.record, probe);
      }
    }

    /** Repair one replica from the majority record, then look at the head it ended up with. */
    method RepairOne(n: nat, i: ReplicaIndex, op: string, probe: SoundRecord, c: RepairConditions)
      returns (status: RepairStatus)
      requires Valid()
      requires ForeignSchedule(c.env, op)
      modifies Footprint()
      ensures Valid() && old(trace) <= trace
      ensures RepairSegment(trace, |old(trace)|, op, probe)
      ensures Calm(c.env, probe.key) ==>
                && (status.Repaired? ==> Fixed(Run(origin, trace), Healths(), i, probe))
                && (forall k: ReplicaIndex | Fixed(Run(origin, old(trace)), old(Healths()), k, probe) ::
                      Fixed(Run(origin, trace), Healths(), k, probe))
      ensures Silent(c.env) ==>
                && (forall k: ReplicaIndex | k != i :: Stores()[k] == old(Stores())[k] && Healths()[k] == old(Healths())[k])
                && Treated(old(Stores()), old(Healths()), c, i, probe, Stores()[i], Healths()[i])
                && Reported(old(Stores()), old(Healths()), c, i, probe, status)
    {
      ghost var w0, h0 := Stores(), Healths();
      var ack := RepairStep(n, i, op, probe, c);
      status := Judge(i, probe, ack, c.recheckFails(i));
      if Silent(c.env) {
        JudgedIsTreated(w0, h0, Stores(), Healths(), c, i, probe, ack, status);
      }
    }

    /**
     Operator repair of one key. It only ever inserts a record that two replicas already held at position `mark`,
     before its first insertion; when every replica is reported repaired and nobody else wrote the key, all three
     heads are that record.
     */
    method Resync(op: string, key: string, authorized: bool, targets: seq<ReplicaIndex>, c: RepairConditions)
      returns (probe: Option<Record>, statuses: seq<RepairStatus>, ghost mark: nat)
      requires Valid()
      requires ForeignSchedule(c.env, op) && ForeignSchedule(c.probe.env, op)
      modifies Footprint()
      ensures Valid() && old(trace) <= trace
      ensures |old(trace)| <= mark <= |trace|
      ensures forall n | |old(trace)| <= n < mark :: Foreign(trace[n], op)
      ensures authorized && Silent(c.probe.env) ==>
                forall r: Record :: probe == Some(r) <==> TwoPresent(old(Stores()), old(Healths()), c.probe, key, None, r)
      ensures probe.None? ==> mark == |trace| && statuses == []
      ensures probe.Some? ==>
                && Sound(probe.value) && probe.value.key == key && |statuses| == |targets|
                && QuorumHolds(Run(origin, trace[..mark]), probe.value)
                && RepairSegment(trace, mark, op, probe.value)
      ensures probe.Some? && Calm(c.env, key) && Complete(targets, statuses) ==>
                Aligned(Stores(), Healths(), key, probe.value)
      ensures probe.Some? && Silent(c.probe.env) && Silent(c.env) ==>
                AllTreated(old(Stores()), old(Healths()), Stores(), Healths(), c, targets, probe.value, statuses)
      ensures probe.None? && Silent(c.probe.env) ==> Stores() == old(Stores()) && Healths() == old(Healths())
      ensures !authorized ==> probe.None? && Stores() == old(Stores()) && Healths() == old(Healths())
    {
      statuses, probe, mark := [], None, |trace|;
      if !authorized {
        return;
      }
      probe := ProbeMajority(op, key, c.probe);
      mark := |trace|;
      ghost var probed := trace;
      assert trace[..mark] == probed;
      if probe.None? {
        return;
      }
      var r: SoundRecord := probe.value;
      statuses := RepairAll(op, r, targets, c);
      assert trace[..mark] == probed;
      if Calm(c.env, key) && Complete(targets, statuses) {
        EveryoneFixed(targets, statuses, r);
      }
    }

    /** All targets in turn. */
    method RepairAll(op: string, r: SoundRecord, targets: seq<ReplicaIndex>, c: RepairConditions)
      returns (statuses: seq<RepairStatus>)
      requires Valid()
      requires ForeignSchedule(c.env, op)
      modifies Footprint()
      ensures Valid() && old(trace) <= trace
      ensures RepairSegment(trace, |old(trace)|, op, r)
      ensures |statuses| == |targets|
      ensures Calm(c.env, r.key) ==> AllFixed(Run(origin, trace), Healths(), targets, statuses, r)
      ensures Silent(c.env) ==> AllTreated(old(Stores()), old(Healths()), Stores(), Healths(), c, targets, r, statuses)
    {
      statuses := [];
      ghost var w, h := Stores(), Healths();
      for n := 0 to |targets|
        invariant Valid() && old(trace) <= trace
        invariant RepairSegment(trace, |old(trace)|, op, r)
        invariant |statuses| == n
        invariant Calm(c.env, r.key) ==> AllFixed(Run(origin, trace), Healths(), targets[..n], statuses, r)
        invariant Silent(c.env) ==> AllTreated(w, h, Stores(), Healths(), c, targets[..n], r, statuses)
      {
        ghost var w0, h0 := Stores(), Healths();
        var status := RepairOne(n, targets[n], op, r, c);
        if Calm(c.env, r.key) {
          AllFixedExtends(w0, h0, Run(origin, trace), Healths(), targets, n, statuses, status, r);
        }
        if Silent(c.env) {
          AllTreatedExtends(w, h, w0, h0, Stores(), Healths(), c, targets, n, r, statuses, status);
        }
        statuses := statuses + [status];
      }
      assert targets[..|targets|] == targets;
    }

    lemma EveryoneFixed(targets: seq<ReplicaIndex>, statuses: seq<RepairStatus>, r: SoundRecord)
      requires Valid()
      requires AllFixed(Run(origin, trace), Healths(), targets, statuses, r)
      requires Complete(targets, statuses)
      ensures Aligned(Stores(), Healths(), r.key, r)
    {
      StoresSound();
      forall k: ReplicaIndex
        ensures !Healths()[k].Down? && RecordOf(HeadRow(Stores()[k], r.key)) == Some(r)
      {
        assert k in targets;
        var m :| 0 <= m < |targets| && targets[m] == k;
        assert statuses[m] in statuses;
        HeadIsHeadRow(Stores()[k], r);
      }
    }

  }
}
