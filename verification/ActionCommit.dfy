/** The committer above the ledger: binding checks, idempotent retries, and one decision per action key. */
module ActionCommit {
  import opened BlackboardContracts
  import opened Wrappers
  import opened ReplicaStorage
  import opened BlackboardProtocol
  import opened Replica
  import opened Coordinator
  import opened ActionHistory
  import opened ActionLedger

  datatype Recommendation = Recommendation(
    recommendationId: string,
    workflowId: string,
    windowId: nat,
    entityId: string,
    logicalTimestamp: string,
    action: Action)

  /** What the caller claims the recommendation is about. */
  datatype Binding = Binding(workflowId: string, replayId: string, windowId: nat, entityId: string, logicalTimestamp: string)

  datatype CommitResult = Done(decision: Decision) | Unbound | Contradicts | Failed

  predicate Bound(r: Recommendation, b: Binding) {
    && r.workflowId == b.workflowId && r.windowId == b.windowId
    && r.entityId == b.entityId && r.logicalTimestamp == b.logicalTimestamp
  }

  function CommitKey(b: Binding): ActionKey {
    ActionKey(Some(b.workflowId), b.replayId, b.windowId, b.entityId)
  }

  function Decide(decisionId: string, r: Recommendation, b: Binding): Decision {
    Decision(decisionId, b.workflowId, b.replayId, b.windowId, b.entityId, b.logicalTimestamp, r.action, r.recommendationId)
  }

  predicate Carries(d: Decision, r: Recommendation) {
    d.action == r.action && d.recommendationId == r.recommendationId
  }

  /** The circumstances of one commit: its own reads, the put's read, and the write attempts. */
  datatype CommitConditions = CommitConditions(first: Access, second: Access, put: Access, tries: nat -> Try, decisionId: string)

  /** Write attempts use fresh ids that no other participant uses. */
  ghost predicate Unshared(w: World, c: CommitConditions) {
    && OwnIds(c.tries)
    && forall s: nat ::
         var op := c.tries(s).operationId;
         && FreshOperation(w, op)
         && ForeignRead(c.first.read, op) && ForeignRead(c.second.read, op) && ForeignRead(c.put.read, op)
  }

  /** A decision already made is handed out to the same recommendation, and contradicts every other. */
  function Answer(d: Decision, r: Recommendation): CommitResult {
    if d.action == r.action && d.recommendationId == r.recommendationId then Done(d) else Contradicts
  }

  /**
   The decision that stands under the key settles the verdict: the cached one, or past the cache, when nothing happens
   around the read, the one two replicas answer with.
   */
  ghost predicate Upheld(entries: map<ActionKey, Decision>, w: World, healths: seq<Health>, key: ActionKey, access: Access,
                         quiet: bool, r: Recommendation, verdict: Option<CommitResult>)
    requires |healths| == 3
  {
    && (key in entries ==> verdict == Some(Answer(entries[key], r)))
    && (key !in entries && quiet ==>
          forall d: Decision | Recorded(w, healths, access.read, key, d) && Suits(key, d) :: verdict == Some(Answer(d, r)))
  }

  /** What a lookup's answer means for the recommendation. */
  function Verdict(existing: Lookup, r: Recommendation): Option<CommitResult> {
    match existing
    case Absent => None
    case Unreadable => Some(Failed)
    case Found(d) => Some(Answer(d, r))
  }

  lemma LookupIsUpheld(entries: map<ActionKey, Decision>, w: World, healths: seq<Health>, key: ActionKey, access: Access,
                       quiet: bool, r: Recommendation, existing: Lookup)
    requires |healths| == 3
    requires key in entries ==> existing == Found(entries[key])
    requires key !in entries && quiet ==> LooksUp(w, healths, access.read, key, existing)
    ensures Upheld(entries, w, healths, key, access, quiet, r, Verdict(existing, r))
    ensures key !in entries && quiet ==>
              (Verdict(existing, r).None? <==> NobodyPresents(w, healths, access.read, RecordKey(key), None))
  {
  }

  lemma PutIsUpheld(entries: map<ActionKey, Decision>, w: World, healths: seq<Health>, key: ActionKey, access: Access,
                    quiet: bool, r: Recommendation, decision: Decision, put: PutOutcome, result: CommitResult)
    requires |healths| == 3 && Carries(decision, r)
    requires PutUpholds(entries, w, healths, key, access, quiet, decision, put)
    requires (put.Stored? ==> result == Done(put.decision)) && (put.Conflict? ==> result == Contradicts)
    ensures Upheld(entries, w, healths, key, access, quiet, r, Some(result))
  {
  }

  /** The success is cached under the key. */
  predicate Remembered(entries: map<ActionKey, Decision>, key: ActionKey, result: CommitResult) {
    result.Done? ==> key in entries && entries[key] == result.decision
  }

  /** A backed decision answers the recommendation. */
  ghost predicate Settles(w: World, key: string, r: Recommendation, result: CommitResult) {
    && (result.Done? ==> Carries(result.decision, r) && Backed(w, key, result.decision))
    && (result.Contradicts? ==> exists d :: Backed(w, key, d) && !Carries(d, r))
  }

  class ActionCommitter {
    const ledger: BlackboardActionLedger

    constructor (ledger: BlackboardActionLedger)
      ensures this.ledger == ledger
    {
      this.ledger := ledger;
    }

    ghost function Trace(): seq<Event>
      reads ledger.service.coordinator
    {
      ledger.service.coordinator.trace
    }

    ghost function Origin(): World {
      ledger.service.coordinator.origin
    }

    /** Nothing was ever recorded or cached under the key, and the replicas respond. */
    ghost predicate Untouched(key: ActionKey)
      requires ledger.Valid()
      reads ledger.service.coordinator, ledger.cache
      reads if ledger.service.coordinator.Shape() then ledger.service.coordinator.Footprint() else {}
    {
      && key !in ledger.cache.entries
      && FreshKey(ledger.service.coordinator.Stores(), ledger.service.coordinator.Healths(), RecordKey(key))
    }

    ghost function Stores(): World
      requires ledger.service.coordinator.Shape()
      reads ledger.service.coordinator.Footprint()
    {
      ledger.service.coordinator.Stores()
    }

    ghost function Healths(): seq<Health>
      requires ledger.service.coordinator.Shape()
      reads ledger.service.coordinator.Footprint()
      ensures |Healths()| == 3
    {
      ledger.service.coordinator.Healths()
    }

    /** An authorised read on an enabled Blackboard with nothing around it, in which no observation fails. */
    ghost predicate Calmly(access: Access) {
      ledger.Quietly(access) && Undisturbed(access.read)
    }

    /** Look for a decision already made. */
    method Check(key: ActionKey, r: Recommendation, access: Access, ghost tries: nat -> Try)
      returns (verdict: Option<CommitResult>)
      requires ledger.Valid()
      requires forall s: nat :: FreshOperation(ledger.World(), tries(s).operationId) && ForeignRead(access.read, tries(s).operationId)
      modifies ledger.Footprint()
      ensures ledger.Valid() && old(Trace()) <= Trace()
      ensures forall s: nat :: FreshOperation(ledger.World(), tries(s).operationId)
      ensures verdict.Some? ==> Settles(ledger.World(), RecordKey(key), r, verdict.value) && !verdict.value.Unbound?
      ensures verdict.Some? && verdict.value.Done? ==> Matches(key, verdict.value.decision)
      ensures forall n | |old(Trace())| <= n < |Trace()| :: DuringRead(access.read, Trace()[n])
      ensures Upheld(old(ledger.cache.entries), old(Stores()), old(Healths()), key, access, ledger.Quietly(access), r, verdict)
      ensures key in old(ledger.cache.entries) ==> Trace() == old(Trace())
      ensures key !in old(ledger.cache.entries) && ledger.Quietly(access) ==>
                (verdict.None? <==> NobodyPresents(old(Stores()), old(Healths()), access.read, RecordKey(key), None))
      ensures if verdict.Some? then Remembered(ledger.cache.entries, key, verdict.value)
              else key !in ledger.cache.entries && key !in old(ledger.cache.entries)
      ensures old(Untouched(key)) && Calmly(access) ==> verdict.None? && Untouched(key)
    {
      ledger.FreshIsVacant(key, access.read);
      ghost var w, t0, entries, stores, healths := Origin(), Trace(), ledger.cache.entries, Stores(), Healths();
      var existing := ledger.Get(key, access);
      ReadForeignStaysFresh(w, t0, Trace(), access.read, tries);
      LookupIsUpheld(entries, stores, healths, key, access, ledger.Quietly(access), r, existing);
      match existing
      case Absent => verdict := None;
      case Unreadable => verdict := Some(Failed);
      case Found(d) => verdict := Some(if Carries(d, r) then Done(d) else Contradicts);
    }

    /** Put the new decision under the key. */
    method Write(key: ActionKey, r: Recommendation, decision: Decision, c: CommitConditions)
      returns (result: CommitResult, ghost turns: seq<Option<string>>)
      requires ledger.Valid() && Unshared(ledger.World(), c)
      requires Matches(key, decision) && Carries(decision, r)
      modifies ledger.Footprint()
      ensures ledger.Valid() && old(Trace()) <= Trace()
      ensures !result.Unbound?
      ensures Settles(ledger.World(), RecordKey(key), r, result)
      ensures !result.Done? ==> NoneWon(ledger.World(), c.tries)
      ensures result.Done? ==> Matches(key, result.decision)
      ensures ledger.PutSection(|old(Trace())|, turns, c.put.read, c.tries, RecordKey(key))
      ensures PutKeeps(Origin(), Trace(), |old(Trace())|, turns, RecordKey(key))
      ensures Remembered(ledger.cache.entries, key, result)
      ensures Upheld(old(ledger.cache.entries), old(Stores()), old(Healths()), key, c.put, ledger.Quietly(c.put), r, Some(result))
      ensures old(Untouched(key)) && Unopposed(c.tries(0)) && Calmly(c.put) ==> result == Done(decision)
    {
      ghost var entries, w, h := ledger.cache.entries, Stores(), Healths();
      var put;
      put, turns := ledger.Put(key, decision, c.put, c.tries);
      match put {
        case Stored(d) => result := Done(d);
        case Conflict => result := Contradicts;
        case PutFailed => result := Failed;
      }
      PutIsUpheld(entries, w, h, key, c.put, ledger.Quietly(c.put), r, decision, put, result);
    }

    /**
     Commit a recommendation. A success carries its action and id and is backed by two replicas; a conflict is
     reported only when a different decision is backed. `start` is where the put's critical section begins.
     */
    method Commit(r: Recommendation, b: Binding, c: CommitConditions)
      returns (result: CommitResult, ghost start: nat, ghost turns: seq<Option<string>>)
      requires ledger.Valid() && Unshared(ledger.World(), c)
      modifies ledger.Footprint()
      ensures ledger.Valid() && old(Trace()) <= Trace()
      ensures result.Unbound? <==> !Bound(r, b)
      ensures result.Unbound? ==> Trace() == old(Trace())
      ensures Settles(ledger.World(), RecordKey(CommitKey(b)), r, result)
      ensures result.Done? ==> Matches(CommitKey(b), result.decision)
      ensures !result.Done? ==> NoneWon(ledger.World(), c.tries)
      ensures |old(Trace())| <= start <= |Trace()|
      ensures forall n | |old(Trace())| <= n < start ::
                DuringRead(c.first.read, Trace()[n]) || DuringRead(c.second.read, Trace()[n])
      ensures ledger.PutSection(start, turns, c.put.read, c.tries, RecordKey(CommitKey(b)))
      ensures PutKeeps(Origin(), Trace(), start, turns, RecordKey(CommitKey(b)))
      ensures Remembered(ledger.cache.entries, CommitKey(b), result)
      ensures Bound(r, b) ==>
                Upheld(old(ledger.cache.entries), old(Stores()), old(Healths()), CommitKey(b), c.first,
                       ledger.Quietly(c.first), r, Some(result))
      ensures CommitKey(b) in old(ledger.cache.entries) ==> Trace() == old(Trace())
      ensures (Bound(r, b) && old(Untouched(CommitKey(b))) && Unopposed(c.tries(0))
               && Calmly(c.first) && Calmly(c.second) && Calmly(c.put)) ==>
                result == Done(Decide(c.decisionId, r, b))
    {
      start, turns := |Trace()|, [];
      if !Bound(r, b) {
        FreshIsUnwon(ledger.World(), c.tries, 0);
        EmptySection(Origin(), Trace(), c, RecordKey(CommitKey(b)));
        return Unbound, start, turns;
      }
      var key := CommitKey(b);
      var verdict := Check(key, r, c.first, c.tries);
      if verdict.None? {
        verdict := Check(key, r, c.second, c.tries);
      }
      start := |Trace()|;
      if verdict.Some? {
        FreshIsUnwon(ledger.World(), c.tries, 0);
        EmptySection(Origin(), Trace(), c, RecordKey(key));
        return verdict.value, start, turns;
      }
      result, turns := Write(key, r, Decide(c.decisionId, r, b), c);
    }
  }

  lemma EmptySection(w: World, events: seq<Event>, c: CommitConditions, key: string)
    ensures PutKeeps(w, events, |events|, [], key)
    ensures Itemized(events, |events|, [], c.tries, MAX_PROPOSE_RETRIES, key)
    ensures ReadsElsewhere(events, |events|, [], c.put.read)
  {
  }
}
