/** The write-once action ledger over the Blackboard: bounded cache, retrying writer, and the committer above it. */
module ActionLedger {
  import opened BlackboardContracts
  import opened Wrappers
  import opened ReplicaStorage
  import opened BlackboardProtocol
  import opened Replica
  import opened Quorum
  import opened Reads
  import opened Coordinator
  import opened ActionHistory
  import opened BoundedDict

  const MAX_PROPOSE_RETRIES: nat := 5

  datatype ActionKey = ActionKey(workflowId: Option<string>, replayId: string, windowId: nat, entityId: string)

  function RecordKey(key: ActionKey): string {
    "workflow/action/" + key.replayId + "/" + Decimal(key.windowId) + "/" + key.entityId
  }

  /** The decision is bound to the key's replay, window and entity. */
  predicate Matches(key: ActionKey, d: Decision) {
    d.replayId == key.replayId && d.windowId == key.windowId && d.entityId == key.entityId
  }

  predicate SameAction(d: Decision, e: Decision) {
    d.action == e.action && d.recommendationId == e.recommendationId
  }

  function KeyOf(workflowId: Option<string>, d: Decision): ActionKey {
    ActionKey(workflowId, d.replayId, d.windowId, d.entityId)
  }

  // ---- The retrying writer ----

  /** Everything outside the service that one proposal meets. */
  datatype Try = Try(operationId: string, admission: Admission, hintFails: bool, write: WriteConditions)

  ghost predicate FreshOperation(w: World, op: string) {
    forall k: ReplicaIndex :: !Gained(w[k], op) && NoStaging(w[k], op)
  }

  /** Operation ids are fresh, and nobody else uses them. */
  ghost predicate OwnIds(tries: nat -> Try) {
    && (forall s: nat, t: nat | s < t :: tries(s).operationId != tries(t).operationId)
    && (forall s: nat, t: nat :: ForeignSchedule(tries(s).write.env, tries(t).operationId))
  }

  /** No two replicas gained a row of this operation. */
  ghost predicate Unwon(w: World, op: string) {
    forall i: ReplicaIndex, j: ReplicaIndex | i != j :: !(Gained(w[i], op) && Gained(w[j], op))
  }

  /** Nor of any of the first `n` attempts. */
  ghost predicate UnwonUpTo(w: World, tries: nat -> Try, n: nat) {
    forall s: nat | s < n :: Unwon(w, tries(s).operationId)
  }

  ghost predicate NoneWon(w: World, tries: nat -> Try) {
    forall s: nat :: Unwon(w, tries(s).operationId)
  }

  lemma UncommittedIsUnwon(w: World, op: string, outcome: WriteOutcome)
    requires ExactOutcome(w, op, outcome) && !outcome.Committed?
    ensures Unwon(w, op)
  {
    forall i: ReplicaIndex, j: ReplicaIndex | i != j && Gained(w[i], op)
      ensures !Gained(w[j], op)
    {
      if Gained(w[j], op) {
        TwoGainsCommit(w, op, outcome, i, j);
      }
    }
  }

  /** Other operations' transactions win nothing for this one. */
  lemma UnwonAlong(w: World, before: seq<Event>, events: seq<Event>, op: string)
    requires before <= events && Unwon(Run(w, before), op)
    requires forall n | |before| <= n < |events| :: Foreign(events[n], op)
    ensures Unwon(Run(w, events), op)
  {
    var added := events[|before|..];
    assert before + added == events;
    ForeignTail(events, |before|, op);
    RunAppend(w, before, added);
    ForeignRunQuiet(Run(w, before), added, op);
    forall k: ReplicaIndex
      ensures Gained(Run(w, events)[k], op) ==> Gained(Run(w, before)[k], op)
    {
      assert Quiet(Run(w, before)[k], Run(w, events)[k], op);
    }
  }

  lemma EarlierStayUnwon(w: World, before: seq<Event>, events: seq<Event>, tries: nat -> Try, t: nat, r: Record)
    requires before <= events && OwnIds(tries)
    requires WriteSegment(tries(t).write.env, events, |before|, tries(t).operationId, r)
    requires UnwonUpTo(Run(w, before), tries, t)
    ensures UnwonUpTo(Run(w, events), tries, t)
  {
    forall s: nat | s < t
      ensures Unwon(Run(w, events), tries(s).operationId)
    {
      SegmentIsForeign(tries, t, s, events, |before|, r);
      UnwonAlong(w, before, events, tries(s).operationId);
    }
  }

  lemma OneMoreUnwon(w: World, before: seq<Event>, events: seq<Event>, tries: nat -> Try, t: nat, r: Record,
                     outcome: WriteOutcome)
    requires before <= events && OwnIds(tries)
    requires WriteSegment(tries(t).write.env, events, |before|, tries(t).operationId, r)
    requires UnwonUpTo(Run(w, before), tries, t)
    requires ExactOutcome(Run(w, events), tries(t).operationId, outcome) && !outcome.Committed?
    ensures UnwonUpTo(Run(w, events), tries, t + 1)
  {
    EarlierStayUnwon(w, before, events, tries, t, r);
    UncommittedIsUnwon(Run(w, events), tries(t).operationId, outcome);
  }

  lemma FreshIsUnwon(w: World, tries: nat -> Try, t: nat)
    requires UnwonUpTo(w, tries, t)
    requires forall s: nat | t <= s :: FreshOperation(w, tries(s).operationId)
    ensures NoneWon(w, tries)
  {
    forall s: nat
      ensures Unwon(w, tries(s).operationId)
    {
      assert t <= s ==> FreshOperation(w, tries(s).operationId);
    }
  }

  lemma FreshStaysFresh(w: World, w': World, op: string)
    requires FreshOperation(w, op) && forall k: ReplicaIndex :: Quiet(w[k], w'[k], op)
    ensures FreshOperation(w', op)
  {
  }

  lemma FreshAlong(w: World, before: seq<Event>, events: seq<Event>, op: string)
    requires before <= events && FreshOperation(Run(w, before), op)
    requires forall n | |before| <= n < |events| :: Foreign(events[n], op)
    ensures FreshOperation(Run(w, events), op)
  {
    var added := events[|before|..];
    assert before + added == events;
    ForeignTail(events, |before|, op);
    RunAppend(w, before, added);
    QuietIsFresh(Run(w, before), added, op);
  }

  lemma ForeignTail(events: seq<Event>, lo: nat, op: string)
    requires lo <= |events| && forall n | lo <= n < |events| :: Foreign(events[n], op)
    ensures forall e | e in events[lo..] :: Foreign(e, op)
  {
    assert forall n | 0 <= n < |events| - lo :: events[lo..][n] == events[lo + n];
  }

  lemma QuietIsFresh(w: World, events: seq<Event>, op: string)
    requires FreshOperation(w, op) && forall e | e in events :: Foreign(e, op)
    ensures FreshOperation(Run(w, events), op)
  {
    ForeignRunQuiet(w, events, op);
    FreshStaysFresh(w, Run(w, events), op);
  }

  /** An attempt's transactions are foreign to every other attempt, and leave every other key alone. */
  lemma SegmentIsForeign(tries: nat -> Try, s: nat, t: nat, events: seq<Event>, lo: nat, r: Record)
    requires OwnIds(tries) && s != t
    requires WriteSegment(tries(s).write.env, events, lo, tries(s).operationId, r)
    ensures forall n | lo <= n < |events| :: Foreign(events[n], tries(t).operationId)
  {
  }

  lemma SegmentIsMixed(env: Schedule, events: seq<Event>, lo: nat, op: string, r: Record)
    requires ForeignSchedule(env, op) && WriteSegment(env, events, lo, op, r)
    ensures Mixed(events, lo, op, r)
  {
  }

  /** A transaction of the operation's own write, which can commit under no key but this one. */
  predicate OwnOn(e: Event, op: string, key: string) {
    match e.tx
    case TxPrepare(_, o, _, _) => o == op
    case TxCommit(slot, _, o) => o == op && slot.key == key
    case TxAbort(_, owner) => owner == Some(op)
    case TxUpsert(_, _) => false
  }

  /** The transaction is the attempt's own, or happens around it. */
  ghost predicate ByTry(e: Event, t: Try, key: string) {
    DuringWrite(t.write.env, e) || OwnOn(e, t.operationId, key)
  }

  /** From `lo` on each turn that names an operation names one of the first `used` attempts, whose transaction it is. */
  ghost predicate Itemized(events: seq<Event>, lo: nat, turns: seq<Option<string>>, tries: nat -> Try, used: nat, key: string) {
    && lo + |turns| == |events|
    && forall n | lo <= n < |events| && turns[n - lo].Some? :: ByNamed(events[n], turns[n - lo].value, tries, used, key)
  }

  ghost predicate ByNamed(e: Event, op: string, tries: nat -> Try, used: nat, key: string) {
    exists t: nat :: t < used && tries(t).operationId == op && ByTry(e, tries(t), key)
  }

  /** From `lo` on each turn that names nobody is the read's. */
  ghost predicate ReadsElsewhere(events: seq<Event>, lo: nat, turns: seq<Option<string>>, read: ReadConditions) {
    && lo + |turns| == |events|
    && forall n | lo <= n < |events| && turns[n - lo].None? :: DuringRead(read, events[n])
  }

  ghost predicate AllNamed(turns: seq<Option<string>>) {
    forall turn | turn in turns :: turn.Some?
  }

  /** The attempts so far keep the key safe, and are accounted for. */
  ghost predicate Attempted(w: World, events: seq<Event>, lo: nat, turns: seq<Option<string>>, tries: nat -> Try, used: nat,
                            key: string, empty: bool)
  {
    SafeSoFar(w, events, lo, turns, key, empty) && Itemized(events, lo, turns, tries, used, key) && AllNamed(turns)
  }

  lemma ItemizedMore(before: seq<Event>, events: seq<Event>, lo: nat, turns: seq<Option<string>>, tries: nat -> Try,
                     t: nat, r: Record)
    requires before <= events && Itemized(before, lo, turns, tries, t, r.key) && AllNamed(turns)
    requires WriteSegment(tries(t).write.env, events, |before|, tries(t).operationId, r)
    ensures var more := turns + Turn(Some(tries(t).operationId), |events| - |before|);
            Itemized(events, lo, more, tries, t + 1, r.key) && AllNamed(more)
  {
    var more := turns + Turn(Some(tries(t).operationId), |events| - |before|);
    forall n | lo <= n < |events| && more[n - lo].Some?
      ensures ByNamed(events[n], more[n - lo].value, tries, t + 1, r.key)
    {
      if n < |before| {
        assert more[n - lo] == turns[n - lo] && events[n] == before[n];
        assert ByNamed(before[n], turns[n - lo].value, tries, t, r.key);
      } else {
        assert ByTry(events[n], tries(t), r.key);
      }
    }
  }

  /** How attempts end: one by one while the answer is stale, at most five, none once the hint fails or the key is bad. */
  ghost predicate Retried(answers: seq<WriteOutcome>, outcome: Option<WriteOutcome>, key: string, tries: nat -> Try) {
    && |answers| <= MAX_PROPOSE_RETRIES
    && (forall i | 0 <= i < |answers| - 1 :: answers[i].RejectedStale?)
    && match outcome
       case None =>
         && |answers| < MAX_PROPOSE_RETRIES && (tries(|answers|).hintFails || !KeyShape(key))
         && (forall a | a in answers :: a.RejectedStale?)
       case Some(o) =>
         && answers != [] && o == answers[|answers| - 1]
         && (o.RejectedStale? ==> |answers| == MAX_PROPOSE_RETRIES)
  }

  /** Nothing but stale answers so far. */
  ghost predicate StaleSoFar(answers: seq<WriteOutcome>, outcome: Option<WriteOutcome>, key: string) {
    && |answers| <= MAX_PROPOSE_RETRIES && (forall a | a in answers :: a.RejectedStale?)
    && if answers == [] then outcome == None else outcome == Some(RejectedStale) && KeyShape(key)
  }

  lemma OutcomeCountsGains(w: World, op: string, outcome: WriteOutcome)
    requires ExactOutcome(w, op, outcome)
    ensures (outcome.Committed? || outcome.PartialCommit?) <==> GainedSomewhere(w, op)
  {
    if GainedSomewhere(w, op) {
      var k: ReplicaIndex :| Gained(w[k], op);
      assert k in GainedReplicas(w, op);
    } else {
      assert GainedReplicas(w, op) == {};
    }
  }

  /** The first attempt meets no obstacle. */
  ghost predicate Unopposed(t: Try) {
    t.admission.Admitted? && !t.hintFails && Unhindered(t.write)
  }

  /** The key was never used on any replica that answers, and two of them do. */
  ghost predicate FreshKey(w: World, healths: seq<Health>, key: string)
    requires |healths| == 3
  {
    && KeyShape(key)
    && (exists i: ReplicaIndex, j: ReplicaIndex :: i != j && !healths[i].Down? && !healths[j].Down?)
    && forall k: ReplicaIndex | !healths[k].Down? :: Head(w[k], key) == 0 && Slot(key, 1) !in w[k].pending
  }

  lemma FreshKeyIsReady(w: World, healths: seq<Health>, key: string, body: Payload, c: WriteConditions, leases: seq<real>,
                        ready: seq<bool>)
    requires |healths| == 3 && |leases| == 3 && |ready| == 3 && FreshKey(w, healths, key) && Unhindered(c)
    requires forall k: ReplicaIndex ::
               ready[k] <==> Receptive(w[k], healths[k], BuildRecord(key, 1, body), c.prepare(k), leases[k])
    ensures Hint(w, healths, key) == 0
    ensures TwoReady(ready, c)
  {
    var i: ReplicaIndex, j: ReplicaIndex :| i != j && !healths[i].Down? && !healths[j].Down?;
    assert ready[i] && ready[j];
  }

  lemma FreshKeyIsEmpty(w: World, healths: seq<Health>, c: ReadConditions, key: string)
    requires |healths| == 3 && WorldInv(w) && FreshKey(w, healths, key) && Undisturbed(c)
    ensures NobodyPresents(w, healths, c, key, None)
  {
    var i: ReplicaIndex, j: ReplicaIndex :| i != j && !healths[i].Down? && !healths[j].Down?;
    assert Answering(healths, c, i) && Answering(healths, c, j);
    forall k: ReplicaIndex | Answering(healths, c, k)
      ensures Presents(w, healths, c, key, None, k, None)
    {
      HeadRowAgrees(w[k], key);
    }
  }

  // ---- What a lookup finds ----

  /** The decision fits the key, its workflow included if the key names one. */
  predicate Suits(key: ActionKey, d: Decision) {
    Matches(key, d) && (key.workflowId.Some? ==> d.workflowId == key.workflowId.value)
  }

  /** Two replicas answer with a record at the head that carries this decision. */
  ghost predicate Recorded(w: World, healths: seq<Health>, c: ReadConditions, key: ActionKey, d: Decision)
    requires |healths| == 3
  {
    exists r: Record :: TwoPresent(w, healths, c, RecordKey(key), None, r) && r.body == Enforcement(d)
  }

  /** A lookup past the cache finds exactly the decision two replicas hold, and nothing exactly where nobody has anything. */
  ghost predicate LooksUp(w: World, healths: seq<Health>, c: ReadConditions, key: ActionKey, result: Lookup)
    requires |healths| == 3
  {
    && (forall d: Decision :: result == Found(d) <==> Recorded(w, healths, c, key, d) && Suits(key, d))
    && (result.Absent? <==> NobodyPresents(w, healths, c, RecordKey(key), None))
  }

  /** What the ledger makes of a read. */
  function Interpreted(key: ActionKey, read: ReadResult): Lookup {
    if read.outcome.NotFound? then Absent
    else if read.record.None? then Unreadable
    else match read.record.value.body
      case Opaque(_) => Unreadable
      case Enforcement(d) => if Suits(key, d) then Found(d) else Unreadable
  }

  lemma InterpretedLooksUp(w: World, healths: seq<Health>, c: ReadConditions, key: ActionKey, read: ReadResult)
    requires |healths| == 3 && Reflects(w, healths, c, RecordKey(key), None, read)
    ensures LooksUp(w, healths, c, key, Interpreted(key, read))
    ensures Interpreted(key, read).Absent? ==> !read.outcome.DegradedConsistent?
  {
    var result := Interpreted(key, read);
    forall d: Decision
      ensures result == Found(d) <==> Recorded(w, healths, c, key, d) && Suits(key, d)
    {
      if result == Found(d) {
        assert TwoPresent(w, healths, c, RecordKey(key), None, read.record.value);
      }
      if Recorded(w, healths, c, key, d) && Suits(key, d) {
        var r: Record :| TwoPresent(w, healths, c, RecordKey(key), None, r) && r.body == Enforcement(d);
        assert read.record == Some(r);
        assert !NobodyPresents(w, healths, c, RecordKey(key), None);
      }
    }
  }

  class BlackboardService {
    const coordinator: BlackboardCoordinator
    const enabled: bool

    constructor (coordinator: BlackboardCoordinator, enabled: bool)
      ensures this.coordinator == coordinator && this.enabled == enabled
    {
      this.coordinator, this.enabled := coordinator, enabled;
    }

    /** One proposal of the next version of a key, as the head hint has it. */
    method ProposeOnce(key: string, body: Payload, tries: nat -> Try, t: nat, ghost lo: nat,
                       ghost turns: seq<Option<string>>)
      returns (outcome: WriteOutcome, ghost turns': seq<Option<string>>)
      requires coordinator.Valid() && KeyShape(key)
      requires OwnIds(tries)
      requires forall s: nat | t <= s :: FreshOperation(Run(coordinator.origin, coordinator.trace), tries(s).operationId)
      requires Attempted(coordinator.origin, coordinator.trace, lo, turns, tries, t, key, true)
      requires UnwonUpTo(Run(coordinator.origin, coordinator.trace), tries, t)
      modifies coordinator.Footprint()
      ensures coordinator.Valid() && old(coordinator.trace) <= coordinator.trace
      ensures forall s: nat | t < s :: FreshOperation(Run(coordinator.origin, coordinator.trace), tries(s).operationId)
      ensures Attempted(coordinator.origin, coordinator.trace, lo, turns', tries, t + 1, key,
                        !outcome.Committed? && !outcome.PartialCommit?)
      ensures outcome.Committed? ==> Backing(Run(coordinator.origin, coordinator.trace), key, body)
      ensures !outcome.Committed? ==> UnwonUpTo(Run(coordinator.origin, coordinator.trace), tries, t + 1)
      ensures Unopposed(tries(t)) && FreshKey(old(coordinator.Stores()), old(coordinator.Healths()), key) ==> outcome.Committed?
    {
      ghost var w, t0 := coordinator.origin, coordinator.trace;
      ghost var record, commitStart;
      outcome, record, commitStart := AttemptFresh(key, body, tries(t));
      turns' := turns + Turn(Some(tries(t).operationId), |coordinator.trace| - |t0|);
      AttemptDone(w, t0, coordinator.trace, lo, turns, tries, t, commitStart, record, outcome);
    }

    /** On a fresh key the hint is 0, and two replicas are ready for version 1. */
    lemma FreshIsReady(key: string, body: Payload, c: WriteConditions)
      requires coordinator.Valid()
      requires FreshKey(coordinator.Stores(), coordinator.Healths(), key) && Unhindered(c)
      ensures Hint(coordinator.Stores(), coordinator.Healths(), key) == 0
      ensures TwoReady(coordinator.Readiness(BuildRecord(key, 1, body), c), c)
    {
      FreshKeyIsReady(coordinator.Stores(), coordinator.Healths(), key, body, c, coordinator.Leases(),
                      coordinator.Readiness(BuildRecord(key, 1, body), c));
    }

    /** Read the head hint and propose the version above it. */
    method Attempt(key: string, body: Payload, try: Try)
      returns (outcome: WriteOutcome, ghost record: Record, ghost commitStart: nat)
      requires coordinator.Valid() && KeyShape(key)
      requires ForeignSchedule(try.write.env, try.operationId)
      requires FreshOperation(Run(coordinator.origin, coordinator.trace), try.operationId)
      modifies coordinator.Footprint()
      ensures coordinator.Valid()
      ensures record == BuildRecord(key, Hint(old(coordinator.Stores()), old(coordinator.Healths()), key) + 1, body)
      ensures try.admission.Admitted? && Unhindered(try.write) ==>
                (outcome.Committed? <==> TwoReady(old(coordinator.Readiness(record, try.write)), try.write))
      ensures try.admission.InvalidSchema? ==> outcome.RejectedSchema?
      ensures try.admission.BlankPrincipal? || try.admission.Denied? ==> outcome.RejectedAuthorization?
      ensures Proposed(coordinator.origin, old(coordinator.trace), coordinator.trace, commitStart, try.write.env,
                       try.operationId, record, outcome)
    {
      var hint := coordinator.HeadVersionHint(key);
      var proposal := BuildRecord(key, hint + 1, body);
      record := proposal;
      ghost var ready := coordinator.Readiness(proposal, try.write);
      var result;
      result, commitStart := coordinator.Propose(try.operationId, proposal, try.admission, try.write);
      outcome := result.outcome;
      assert try.admission.Admitted? && Unhindered(try.write) ==> (outcome.Committed? <==> TwoReady(ready, try.write));
    }

    /** The same; a fresh key is committed if nothing stands in the way. */
    method AttemptFresh(key: string, body: Payload, try: Try)
      returns (outcome: WriteOutcome, ghost record: Record, ghost commitStart: nat)
      requires coordinator.Valid() && KeyShape(key)
      requires ForeignSchedule(try.write.env, try.operationId)
      requires FreshOperation(Run(coordinator.origin, coordinator.trace), try.operationId)
      modifies coordinator.Footprint()
      ensures coordinator.Valid() && record.key == key && record.body == body
      ensures Proposed(coordinator.origin, old(coordinator.trace), coordinator.trace, commitStart, try.write.env,
                       try.operationId, record, outcome)
      ensures Unopposed(try) && FreshKey(old(coordinator.Stores()), old(coordinator.Healths()), key) ==> outcome.Committed?
    {
      ghost var easy := Unopposed(try) && FreshKey(coordinator.Stores(), coordinator.Healths(), key);
      ghost var first := BuildRecord(key, 1, body);
      ghost var ready := coordinator.Readiness(first, try.write);
      if easy {
        FreshIsReady(key, body, try.write);
      }
      outcome, record, commitStart := Attempt(key, body, try);
      assert easy ==> record == first && TwoReady(ready, try.write);
    }

    /** One round of the retry loop: nothing if the hint fails or the key is bad, otherwise one more attempt. */
    method TryNext(key: string, body: Payload, tries: nat -> Try, t: nat, ghost lo: nat, ghost turns: seq<Option<string>>)
      returns (outcome: Option<WriteOutcome>, ghost turns': seq<Option<string>>, ghost empty: bool)
      requires coordinator.Valid() && OwnIds(tries)
      requires forall s: nat | t <= s :: FreshOperation(Run(coordinator.origin, coordinator.trace), tries(s).operationId)
      requires Attempted(coordinator.origin, coordinator.trace, lo, turns, tries, t, key, true)
      requires UnwonUpTo(Run(coordinator.origin, coordinator.trace), tries, t)
      modifies coordinator.Footprint()
      ensures coordinator.Valid() && old(coordinator.trace) <= coordinator.trace
      ensures forall s: nat | t < s :: FreshOperation(Run(coordinator.origin, coordinator.trace), tries(s).operationId)
      ensures outcome.None? <==> tries(t).hintFails || !KeyShape(key)
      ensures Attempted(coordinator.origin, coordinator.trace, lo, turns', tries, if outcome.None? then t else t + 1, key, empty)
      ensures outcome == Some(RejectedStale) ==> empty
      ensures outcome == Some(Committed) ==> Backing(Run(coordinator.origin, coordinator.trace), key, body)
      ensures outcome != Some(Committed) ==>
                UnwonUpTo(Run(coordinator.origin, coordinator.trace), tries, if outcome.None? then t else t + 1)
      ensures outcome.None? ==> coordinator.trace == old(coordinator.trace)
      ensures Unopposed(tries(t)) && FreshKey(old(coordinator.Stores()), old(coordinator.Healths()), key) ==>
                outcome == Some(Committed)
    {
      if tries(t).hintFails || !KeyShape(key) {
        return None, turns, true;
      }
      var answer;
      answer, turns' := ProposeOnce(key, body, tries, t, lo, turns);
      outcome, empty := Some(answer), !answer.Committed? && !answer.PartialCommit?;
    }

    /**
     Propose the next version, again while the answer is stale. Whatever is reported, a key that had two empty
     replicas and nothing beyond version 1 stays within version 1.
     */
    method ProposeNextVersion(key: string, body: Payload, tries: nat -> Try)
      returns (outcome: Option<WriteOutcome>, ghost turns: seq<Option<string>>, ghost answers: seq<WriteOutcome>,
               ghost empty: bool)
      requires coordinator.Valid() && OwnIds(tries)
      requires forall s: nat :: FreshOperation(Run(coordinator.origin, coordinator.trace), tries(s).operationId)
      modifies coordinator.Footprint()
      ensures coordinator.Valid() && old(coordinator.trace) <= coordinator.trace
      ensures Attempted(coordinator.origin, coordinator.trace, |old(coordinator.trace)|, turns, tries, |answers|, key, empty)
      ensures Retried(answers, outcome, key, tries)
      ensures outcome == Some(Committed) ==> Backing(Run(coordinator.origin, coordinator.trace), key, body)
      ensures outcome != Some(Committed) ==> NoneWon(Run(coordinator.origin, coordinator.trace), tries)
      ensures Unopposed(tries(0)) && FreshKey(old(coordinator.Stores()), old(coordinator.Healths()), key) ==>
                outcome == Some(Committed)
    {
      ghost var lo, w, h := |coordinator.trace|, coordinator.Stores(), coordinator.Healths();
      ghost var easy := Unopposed(tries(0)) && FreshKey(w, h, key);
      outcome, turns, answers, empty := None, [], [], true;
      NothingAttempted(coordinator.origin, coordinator.trace, tries, key);
      var t := 0;
      while t < MAX_PROPOSE_RETRIES
        invariant coordinator.Valid() && old(coordinator.trace) <= coordinator.trace
        invariant forall s: nat | t <= s :: FreshOperation(Run(coordinator.origin, coordinator.trace), tries(s).operationId)
        invariant empty && Attempted(coordinator.origin, coordinator.trace, lo, turns, tries, t, key, true)
        invariant UnwonUpTo(Run(coordinator.origin, coordinator.trace), tries, t)
        invariant t == |answers| && StaleSoFar(answers, outcome, key)
        invariant t == 0 ==> coordinator.Stores() == w && coordinator.Healths() == h
        invariant easy ==> t == 0
      {
        outcome, turns, empty := TryNext(key, body, tries, t, lo, turns);
        if outcome.None? {
          FreshIsUnwon(Run(coordinator.origin, coordinator.trace), tries, t);
          return;
        }
        answers := answers + [outcome.value];
        if !outcome.value.RejectedStale? {
          if !outcome.value.Committed? {
            FreshIsUnwon(Run(coordinator.origin, coordinator.trace), tries, t + 1);
          }
          return;
        }
        t := t + 1;
      }
      FreshIsUnwon(Run(coordinator.origin, coordinator.trace), tries, t);
    }
  }

  lemma SafeAtStart(w: World, events: seq<Event>, key: string)
    ensures SafeSoFar(w, events, |events|, [], key, true)
  {
    assert events[..|events|] == events;
  }

  lemma NothingAttempted(w: World, events: seq<Event>, tries: nat -> Try, key: string)
    ensures Attempted(w, events, |events|, [], tries, 0, key, true)
  {
    SafeAtStart(w, events, key);
  }

  /** What the coordinator's contract says of one proposal. */
  ghost predicate Proposed(w: World, before: seq<Event>, events: seq<Event>, commitStart: nat, env: Schedule,
                           op: string, r: Record, outcome: WriteOutcome)
  {
    && before <= events && Sound(r)
    && WriteSegment(env, events, |before|, op, r)
    && ExactOutcome(Run(w, events), op, outcome)
    && (outcome.Committed? ==> CommittedBy(w, events, op, r))
    && |before| <= commitStart <= |events|
    && (forall n | |before| <= n < commitStart :: !OwnCommit(events[n], op))
    && (outcome.Committed? || outcome.PartialCommit? ==> TwoStoodBehind(w, events, |before|, commitStart, r))
  }

  lemma ProposedIsSafe(w: World, before: seq<Event>, events: seq<Event>, lo: nat, turns: seq<Option<string>>,
                       commitStart: nat, env: Schedule, op: string, r: Record, outcome: WriteOutcome)
    requires WorldInv(w) && ForeignSchedule(env, op)
    requires Proposed(w, before, events, commitStart, env, op, r, outcome)
    requires SafeSoFar(w, before, lo, turns, r.key, true)
    ensures SafeSoFar(w, events, lo, turns + Turn(Some(op), |events| - |before|), r.key,
                      !outcome.Committed? && !outcome.PartialCommit?)
  {
    var gained := outcome.Committed? || outcome.PartialCommit?;
    OutcomeCountsGains(Run(w, events), op, outcome);
    ProposedIsAttempt(w, before, events, commitStart, env, op, r, outcome);
    AttemptIsSafe(w, before, events, lo, turns, commitStart, op, r, gained);
  }

  /** One more attempt: the key stays safe, later ids stay fresh, and what was committed is backed. */
  lemma AttemptedMore(w: World, before: seq<Event>, events: seq<Event>, lo: nat, turns: seq<Option<string>>,
                      tries: nat -> Try, t: nat, commitStart: nat, r: Record, outcome: WriteOutcome)
    requires WorldInv(w) && OwnIds(tries)
    requires Proposed(w, before, events, commitStart, tries(t).write.env, tries(t).operationId, r, outcome)
    requires Attempted(w, before, lo, turns, tries, t, r.key, true)
    requires forall s: nat | t <= s :: FreshOperation(Run(w, before), tries(s).operationId)
    ensures Attempted(w, events, lo, turns + Turn(Some(tries(t).operationId), |events| - |before|), tries, t + 1, r.key,
                      !outcome.Committed? && !outcome.PartialCommit?)
    ensures forall s: nat | t < s :: FreshOperation(Run(w, events), tries(s).operationId)
    ensures outcome.Committed? ==> Backing(Run(w, events), r.key, r.body)
  {
    ProposedIsSafe(w, before, events, lo, turns, commitStart, tries(t).write.env, tries(t).operationId, r, outcome);
    ItemizedMore(before, events, lo, turns, tries, t, r);
    OthersStayFresh(w, before, events, tries, t, r);
    if outcome.Committed? {
      CommittedIsBacking(w, events, tries(t).operationId, r);
    }
  }

  /** And unless it committed, nothing was won by any attempt so far. */
  lemma AttemptDone(w: World, before: seq<Event>, events: seq<Event>, lo: nat, turns: seq<Option<string>>, tries: nat -> Try,
                    t: nat, commitStart: nat, r: Record, outcome: WriteOutcome)
    requires WorldInv(w) && OwnIds(tries)
    requires Proposed(w, before, events, commitStart, tries(t).write.env, tries(t).operationId, r, outcome)
    requires Attempted(w, before, lo, turns, tries, t, r.key, true) && UnwonUpTo(Run(w, before), tries, t)
    requires forall s: nat | t <= s :: FreshOperation(Run(w, before), tries(s).operationId)
    ensures Attempted(w, events, lo, turns + Turn(Some(tries(t).operationId), |events| - |before|), tries, t + 1, r.key,
                      !outcome.Committed? && !outcome.PartialCommit?)
    ensures forall s: nat | t < s :: FreshOperation(Run(w, events), tries(s).operationId)
    ensures outcome.Committed? ==> Backing(Run(w, events), r.key, r.body)
    ensures !outcome.Committed? ==> UnwonUpTo(Run(w, events), tries, t + 1)
  {
    AttemptedMore(w, before, events, lo, turns, tries, t, commitStart, r, outcome);
    if !outcome.Committed? {
      OneMoreUnwon(w, before, events, tries, t, r, outcome);
    }
  }

  lemma ProposedIsAttempt(w: World, before: seq<Event>, events: seq<Event>, commitStart: nat, env: Schedule,
                          op: string, r: Record, outcome: WriteOutcome)
    requires ForeignSchedule(env, op)
    requires Proposed(w, before, events, commitStart, env, op, r, outcome)
    requires (outcome.Committed? || outcome.PartialCommit?) <==> GainedSomewhere(Run(w, events), op)
    ensures Attempt(w, events, |before|, commitStart, op, r)
  {
    SegmentIsMixed(env, events, |before|, op, r);
    assert events[..|events|] == events;
  }

  lemma OthersStayFresh(w: World, before: seq<Event>, events: seq<Event>, tries: nat -> Try, t: nat, r: Record)
    requires before <= events && OwnIds(tries)
    requires WriteSegment(tries(t).write.env, events, |before|, tries(t).operationId, r)
    requires forall s: nat | t <= s :: FreshOperation(Run(w, before), tries(s).operationId)
    ensures forall s: nat | t < s :: FreshOperation(Run(w, events), tries(s).operationId)
  {
    forall s: nat | t < s
      ensures FreshOperation(Run(w, events), tries(s).operationId)
    {
      SegmentIsForeign(tries, t, s, events, |before|, r);
      FreshAlong(w, before, events, tries(s).operationId);
    }
  }

  lemma CommittedIsBacking(w: World, events: seq<Event>, op: string, r: Record)
    requires WorldInv(w) && Sound(r) && CommittedBy(w, events, op, r)
    ensures Backing(Run(w, events), r.key, r.body)
  {
    CommittedIsHeld(w, events, op, r);
  }

  // ---- The ledger ----

  /** Every cached decision is bound to its key and backed by two replicas. */
  ghost predicate CacheBacked(entries: map<ActionKey, Decision>, w: World) {
    forall k | k in entries :: Matches(k, entries[k]) && Backed(w, RecordKey(k), entries[k])
  }

  lemma CacheStaysBacked(entries: map<ActionKey, Decision>, w: World, w': World)
    requires CacheBacked(entries, w) && Evolves(w, w')
    ensures CacheBacked(entries, w')
  {
  }

  lemma StoreKeepsBacked(entries: map<ActionKey, Decision>, entries': map<ActionKey, Decision>, key: ActionKey,
                         d: Decision, w: World)
    requires CacheBacked(entries, w) && Matches(key, d) && Backed(w, RecordKey(key), d)
    requires key in entries' && entries'[key] == d
    requires forall k | k in entries' && k != key :: k in entries && entries'[k] == entries[k]
    ensures CacheBacked(entries', w)
  {
  }

  lemma RunExtended(w: World, before: seq<Event>, events: seq<Event>)
    requires WorldInv(w) && before <= events
    ensures Evolves(Run(w, before), Run(w, events))
  {
    PrefixEvolves(w, events, |before|, |events|);
    assert events[..|before|] == before && events[..|events|] == events;
  }

  datatype Lookup = Found(decision: Decision) | Absent | Unreadable

  datatype PutOutcome = Stored(decision: Decision) | Conflict | PutFailed

  /** The circumstances of one ledger read. */
  datatype Access = Access(authorized: bool, read: ReadConditions)

  /** A decision already there is returned if it is the same action, and a conflict otherwise. */
  function Resolved(existing: Decision, decision: Decision): PutOutcome {
    if existing.action == decision.action && existing.recommendationId == decision.recommendationId
    then Stored(existing) else Conflict
  }

  /**
   The decision that stands under the key settles a put: the cached one, or past the cache, when nothing happens around
   the read, the one two replicas answer with. Without one there is no conflict.
   */
  ghost predicate PutUpholds(entries: map<ActionKey, Decision>, w: World, healths: seq<Health>, key: ActionKey, access: Access,
                             quiet: bool, decision: Decision, outcome: PutOutcome)
    requires |healths| == 3
  {
    && (key in entries ==> outcome == Resolved(entries[key], decision))
    && (key !in entries && quiet ==>
          forall d: Decision | Recorded(w, healths, access.read, key, d) && Suits(key, d) :: outcome == Resolved(d, decision))
    && (key !in entries && quiet && outcome.Conflict? ==>
          exists d: Decision :: Recorded(w, healths, access.read, key, d) && Suits(key, d) && !SameAction(d, decision))
  }

  /** A put that looked the key up and found this. */
  lemma ExistingUpholds(entries: map<ActionKey, Decision>, w: World, healths: seq<Health>, key: ActionKey, access: Access,
                        quiet: bool, decision: Decision, existing: Lookup, outcome: PutOutcome)
    requires |healths| == 3
    requires key in entries ==> existing == Found(entries[key])
    requires key !in entries && quiet ==> LooksUp(w, healths, access.read, key, existing)
    requires existing.Found? ==> outcome == Resolved(existing.decision, decision)
    requires !existing.Found? ==> !outcome.Conflict?
    ensures PutUpholds(entries, w, healths, key, access, quiet, decision, outcome)
  {
  }

  lemma CachedIsBacked(entries: map<ActionKey, Decision>, key: ActionKey, w: World)
    requires CacheBacked(entries, w) && key in entries
    ensures Matches(key, entries[key]) && Backed(w, RecordKey(key), entries[key])
  {
  }

  class BlackboardActionLedger {
    const service: BlackboardService
    const cache: BoundedCache<ActionKey, Decision>

    constructor (service: BlackboardService, limit: nat)
      requires limit >= 1
      ensures this.service == service && fresh(cache) && cache.Valid() && cache.entries == map[]
    {
      this.service := service;
      this.cache := new BoundedCache(limit);
    }

    ghost function World(): (w: World)
      reads service.coordinator
    {
      Run(service.coordinator.origin, service.coordinator.trace)
    }

    ghost predicate Valid()
      reads service.coordinator, cache
      reads if service.coordinator.Shape() then service.coordinator.Footprint() else {}
    {
      && service.coordinator.Valid()
      && (cache as object) !in service.coordinator.Footprint()
      && cache.Valid()
      && CacheBacked(cache.entries, World())
    }

    ghost function Footprint(): set<object>
      requires service.coordinator.Shape()
    {
      service.coordinator.Footprint() + {cache}
    }

    /** An authorised read with nothing happening around it, on an enabled Blackboard. */
    ghost predicate Quietly(access: Access) {
      service.enabled && access.authorized && Silent(access.read.env)
    }

    /** A lookup that misses the cache finds what the replicas hold, and disturbs nothing if it finds nothing. */
    twostate predicate LookedUp(access: Access, key: ActionKey, result: Lookup)
      requires service.coordinator.Shape()
      reads service.coordinator.Footprint()
    {
      && LooksUp(old(service.coordinator.Stores()), old(service.coordinator.Healths()), access.read, key, result)
      && service.coordinator.Stores() == old(service.coordinator.Stores())
      && (result.Absent? ==> service.coordinator.Healths() == old(service.coordinator.Healths()))
    }

    /** The authoritative read behind a cache miss. */
    method ReadDecision(key: ActionKey, access: Access) returns (result: Lookup)
      requires service.coordinator.Valid()
      modifies service.coordinator.Footprint()
      ensures service.coordinator.Valid() && old(service.coordinator.trace) <= service.coordinator.trace
      ensures forall n | |old(service.coordinator.trace)| <= n < |service.coordinator.trace| ::
                DuringRead(access.read, service.coordinator.trace[n])
      ensures result.Found? ==>
                && Matches(key, result.decision) && Backed(World(), RecordKey(key), result.decision)
                && (key.workflowId.Some? ==> result.decision.workflowId == key.workflowId.value)
      ensures result.Absent? ==> SeenAbsent(service.coordinator.origin, old(service.coordinator.trace),
                                            service.coordinator.trace, RecordKey(key))
      ensures Quietly(access) ==> LookedUp(access, key, result)
      ensures !service.enabled || !access.authorized ==> result.Unreadable?
    {
      if !service.enabled {
        return Unreadable;
      }
      ghost var w, h := service.coordinator.Stores(), service.coordinator.Healths();
      var read := service.coordinator.Read(RecordKey(key), None, access.authorized, access.read);
      if Quietly(access) {
        InterpretedLooksUp(w, h, access.read, key, read);
      }
      if read.outcome.NotFound? {
        NotFoundUnbacked(old(World()), RecordKey(key), read);
        return Absent;
      }
      if !read.outcome.Consistent? && !read.outcome.DegradedConsistent? {
        return Unreadable;
      }
      match read.record.value.body
      case Opaque(_) => return Unreadable;
      case Enforcement(d) =>
        if !Matches(key, d) || (key.workflowId.Some? && d.workflowId != key.workflowId.value) {
          return Unreadable;
        }
        return Found(d);
    }

    method Remember(key: ActionKey, d: Decision)
      requires Valid()
      requires Matches(key, d) && Backed(World(), RecordKey(key), d)
      modifies cache
      ensures Valid() && World() == old(World())
      ensures key in cache.entries && cache.entries[key] == d
      ensures cache.Contents() == BoundedDict.Stored(old(cache.Contents()), cache.limit, key, d)
    {
      ghost var origin, t0 := service.coordinator.origin, service.coordinator.trace;
      StoreBacked(key, d, Run(origin, t0));
      StillValid(t0);
    }

    method StoreBacked(key: ActionKey, d: Decision, ghost w: World)
      requires cache.Valid() && CacheBacked(cache.entries, w)
      requires Matches(key, d) && Backed(w, RecordKey(key), d)
      modifies cache
      ensures cache.Valid() && CacheBacked(cache.entries, w)
      ensures key in cache.entries && cache.entries[key] == d
      ensures cache.Contents() == BoundedDict.Stored(old(cache.Contents()), cache.limit, key, d)
    {
      ghost var entries := cache.entries;
      StoreKeeps(cache.Contents(), cache.limit, key, d);
      cache.Store(key, d);
      StoreKeepsBacked(entries, cache.entries, key, d, w);
    }

    method Recall(key: ActionKey) returns (d: Decision)
      requires Valid() && key in cache.entries
      modifies cache
      ensures Valid() && d == old(cache.entries)[key]
      ensures cache.Contents() == Touched(old(cache.Contents()), key)
    {
      ghost var origin, t0, young := service.coordinator.origin, service.coordinator.trace, Touched(cache.Contents(), key);
      d := TouchBacked(key, Run(origin, t0));
      assert cache.Contents() == young;
      StillValid(t0);
    }

    method TouchBacked(key: ActionKey, ghost w: World) returns (d: Decision)
      requires cache.Valid() && CacheBacked(cache.entries, w) && key in cache.entries
      modifies cache
      ensures cache.Valid() && cache.Contents() == Touched(old(cache.Contents()), key) && CacheBacked(cache.entries, w)
      ensures d == old(cache.entries)[key]
    {
      cache.Touch(key);
      d := cache.entries[key];
    }

    /** The cache stays backed whatever happened on the Blackboard. */
    lemma StillValid(before: seq<Event>)
      requires service.coordinator.Valid() && cache.Valid() && (cache as object) !in service.coordinator.Footprint()
      requires before <= service.coordinator.trace
      requires CacheBacked(cache.entries, Run(service.coordinator.origin, before))
      ensures Valid()
    {
      RunExtended(service.coordinator.origin, before, service.coordinator.trace);
      CacheStaysBacked(cache.entries, Run(service.coordinator.origin, before), World());
    }

    method ReadThrough(key: ActionKey, access: Access) returns (result: Lookup)
      requires Valid()
      modifies service.coordinator.Footprint()
      ensures Valid()
      ensures Looked(service.coordinator.origin, old(service.coordinator.trace), service.coordinator.trace, access, key, result)
      ensures Quietly(access) ==> LookedUp(access, key, result)
      ensures !service.enabled || !access.authorized ==> result.Unreadable?
    {
      ghost var t0 := service.coordinator.trace;
      result := ReadDecision(key, access);
      StillValid(t0);
    }

    /** Read the Blackboard and keep what was found. */
    method Fetch(key: ActionKey, access: Access) returns (result: Lookup)
      requires Valid()
      modifies Footprint()
      ensures Valid()
      ensures Looked(service.coordinator.origin, old(service.coordinator.trace), service.coordinator.trace, access, key, result)
      ensures if result.Found? then key in cache.entries && cache.entries[key] == result.decision
              else cache.entries == old(cache.entries)
      ensures cache.Contents() == if result.Found? then BoundedDict.Stored(old(cache.Contents()), cache.limit, key, result.decision)
                                  else old(cache.Contents())
      ensures Quietly(access) ==> LookedUp(access, key, result)
      ensures !service.enabled || !access.authorized ==> result.Unreadable?
    {
      result := ReadThrough(key, access);
      if result.Found? {
        Remember(key, result.decision);
      }
    }

    /**
     Look a decision up, first in the cache. What is found is bound to the key and backed by two replicas; nothing
     is reported absent that was backed when the read began.
     */
    method Get(key: ActionKey, access: Access) returns (result: Lookup)
      requires Valid()
      modifies Footprint()
      ensures Valid()
      ensures Looked(service.coordinator.origin, old(service.coordinator.trace), service.coordinator.trace, access, key, result)
      ensures if result.Found? then key in cache.entries && cache.entries[key] == result.decision
              else cache.entries == old(cache.entries)
      ensures cache.Contents() == if key in old(cache.entries) then Touched(old(cache.Contents()), key)
                                  else if result.Found? then BoundedDict.Stored(old(cache.Contents()), cache.limit, key, result.decision)
                                  else old(cache.Contents())
      ensures key in old(cache.entries) ==>
                result == Found(old(cache.entries)[key]) && service.coordinator.trace == old(service.coordinator.trace)
      ensures key !in old(cache.entries) && Quietly(access) ==> LookedUp(access, key, result)
      ensures key !in old(cache.entries) && (!service.enabled || !access.authorized) ==> result.Unreadable?
    {
      if key in cache.entries {
        CachedIsBacked(cache.entries, key, World());
        var d := Recall(key);
        return Found(d);
      }
      result := Fetch(key, access);
    }

    /** From `lo` on the trace holds nothing but the write attempts' transactions and what happens around them. */
    ghost predicate WriteSection(lo: nat, turns: seq<Option<string>>, tries: nat -> Try, key: string)
      reads service.coordinator
    {
      Itemized(service.coordinator.trace, lo, turns, tries, MAX_PROPOSE_RETRIES, key) && AllNamed(turns)
    }

    /** From `lo` on the trace holds the read's surroundings, then the write attempts. */
    ghost predicate PutSection(lo: nat, turns: seq<Option<string>>, read: ReadConditions, tries: nat -> Try, key: string)
      reads service.coordinator
    {
      && Itemized(service.coordinator.trace, lo, turns, tries, MAX_PROPOSE_RETRIES, key)
      && ReadsElsewhere(service.coordinator.trace, lo, turns, read)
    }

    method Propose(key: ActionKey, decision: Decision, tries: nat -> Try)
      returns (outcome: Option<WriteOutcome>, ghost turns: seq<Option<string>>)
      requires Valid() && OwnIds(tries)
      requires forall s: nat :: FreshOperation(World(), tries(s).operationId)
      modifies service.coordinator.Footprint()
      ensures Valid() && old(service.coordinator.trace) <= service.coordinator.trace
      ensures exists empty :: SafeSoFar(service.coordinator.origin, service.coordinator.trace,
                                        |old(service.coordinator.trace)|, turns, RecordKey(key), empty)
      ensures WriteSection(|old(service.coordinator.trace)|, turns, tries, RecordKey(key))
      ensures outcome == Some(Committed) ==> Backed(World(), RecordKey(key), decision)
      ensures outcome != Some(Committed) ==> NoneWon(World(), tries)
      ensures Unopposed(tries(0)) && FreshKey(old(service.coordinator.Stores()), old(service.coordinator.Healths()), RecordKey(key)) ==>
                outcome == Some(Committed)
    {
      ghost var t0 := service.coordinator.trace;
      ghost var answers, empty;
      outcome, turns, answers, empty := service.ProposeNextVersion(RecordKey(key), Enforcement(decision), tries);
      StillValid(t0);
    }

    /** The quorum-backed write of a decision nobody has recorded. */
    method Record(key: ActionKey, decision: Decision, tries: nat -> Try)
      returns (result: PutOutcome, ghost turns: seq<Option<string>>)
      requires Valid() && OwnIds(tries) && Matches(key, decision)
      requires forall s: nat :: FreshOperation(World(), tries(s).operationId)
      modifies Footprint()
      ensures Valid() && old(service.coordinator.trace) <= service.coordinator.trace
      ensures exists empty :: SafeSoFar(service.coordinator.origin, service.coordinator.trace,
                                        |old(service.coordinator.trace)|, turns, RecordKey(key), empty)
      ensures WriteSection(|old(service.coordinator.trace)|, turns, tries, RecordKey(key))
      ensures result.Stored? ==> result.decision == decision && Backed(World(), RecordKey(key), decision)
      ensures !result.Conflict? && (!service.enabled ==> result.PutFailed?)
      ensures result.PutFailed? ==> NoneWon(World(), tries)
      ensures result.Stored? ==> key in cache.entries && cache.entries[key] == decision
      ensures (service.enabled && Unopposed(tries(0))
               && FreshKey(old(service.coordinator.Stores()), old(service.coordinator.Healths()), RecordKey(key))) ==>
                result == Stored(decision)
    {
      turns := [];
      if !service.enabled {
        SafeAtStart(service.coordinator.origin, service.coordinator.trace, RecordKey(key));
        FreshIsUnwon(World(), tries, 0);
        return PutFailed, turns;
      }
      var outcome;
      outcome, turns := Propose(key, decision, tries);
      if outcome != Some(Committed) {
        return PutFailed, turns;
      }
      Remember(key, decision);
      return Stored(decision), turns;
    }

    /** The read before the write, which alone accounts for what happens during it. */
    method ReadFirst(key: ActionKey, decision: Decision, access: Access, ghost tries: nat -> Try)
      returns (existing: Lookup, ghost turns: seq<Option<string>>)
      requires Valid()
      requires forall s: nat :: FreshOperation(World(), tries(s).operationId) && ForeignRead(access.read, tries(s).operationId)
      modifies Footprint()
      ensures Valid()
      ensures Looked(service.coordinator.origin, old(service.coordinator.trace), service.coordinator.trace, access, key, existing)
      ensures key in old(cache.entries) ==> existing == Found(old(cache.entries)[key])
      ensures existing.Found? ==> key in cache.entries && cache.entries[key] == existing.decision
      ensures key !in old(cache.entries) && Quietly(access) ==> LookedUp(access, key, existing)
      ensures forall s: nat :: FreshOperation(World(), tries(s).operationId)
      ensures PutSection(|old(service.coordinator.trace)|, turns, access.read, tries, RecordKey(KeyOf(None, decision)))
      ensures PutKeeps(service.coordinator.origin, service.coordinator.trace, |old(service.coordinator.trace)|, turns,
                       RecordKey(key))
    {
      ghost var w, t0 := service.coordinator.origin, service.coordinator.trace;
      existing := Get(key, access);
      ghost var t1 := service.coordinator.trace;
      turns := Turn(None, |t1| - |t0|);
      ReadingKeeps(w, t1, |t0|, RecordKey(key));
      ReadForeignStaysFresh(w, t0, t1, access.read, tries);
    }

    /**
     Record a decision unless the key already has one. A success is backed by two replicas and agrees with the
     request in action and recommendation; under the commit lock the key stays within version 1.
     */
    method Put(key: ActionKey, decision: Decision, access: Access, tries: nat -> Try)
      returns (result: PutOutcome, ghost turns: seq<Option<string>>)
      requires Valid() && OwnIds(tries)
      requires forall s: nat :: FreshOperation(World(), tries(s).operationId) && ForeignRead(access.read, tries(s).operationId)
      modifies Footprint()
      ensures Valid() && old(service.coordinator.trace) <= service.coordinator.trace
      ensures result.Stored? ==> SameAction(result.decision, decision)
      ensures result.Stored? && Matches(key, decision) ==>
                Matches(key, result.decision) && Backed(World(), RecordKey(key), result.decision)
      ensures result.Conflict? ==> exists d :: Backed(World(), RecordKey(key), d) && !SameAction(d, decision)
      ensures !result.Stored? ==> NoneWon(World(), tries)
      ensures PutSection(|old(service.coordinator.trace)|, turns, access.read, tries, RecordKey(KeyOf(None, decision)))
      ensures Matches(key, decision) ==>
                PutKeeps(service.coordinator.origin, service.coordinator.trace, |old(service.coordinator.trace)|, turns,
                         RecordKey(key))
      ensures result.Stored? && Matches(key, decision) ==>
                key in cache.entries && cache.entries[key] == result.decision
      ensures PutUpholds(old(cache.entries), old(service.coordinator.Stores()), old(service.coordinator.Healths()), key,
                         access, Quietly(access), decision, result)
      ensures (Matches(key, decision) && key !in old(cache.entries) && Quietly(access) && Unopposed(tries(0))
               && Undisturbed(access.read)
               && FreshKey(old(service.coordinator.Stores()), old(service.coordinator.Healths()), RecordKey(key))) ==>
                result == Stored(decision)
    {
      ghost var t0, entries := service.coordinator.trace, cache.entries;
      ghost var w, h := service.coordinator.Stores(), service.coordinator.Healths();
      FreshIsVacant(key, access.read);
      var existing;
      existing, turns := ReadFirst(key, decision, access, tries);
      FreshIsUnwon(World(), tries, 0);
      if existing.Unreadable? {
        result := PutFailed;
      } else if existing.Found? {
        result := if SameAction(existing.decision, decision) then Stored(existing.decision) else Conflict;
      } else {
        result, turns := PutNew(key, decision, access.read, tries, t0);
      }
      ExistingUpholds(entries, w, h, key, access, Quietly(access), decision, existing, result);
    }

    lemma FreshIsVacant(key: ActionKey, c: ReadConditions)
      requires Valid()
      ensures FreshKey(service.coordinator.Stores(), service.coordinator.Healths(), RecordKey(key)) && Undisturbed(c) ==>
                NobodyPresents(service.coordinator.Stores(), service.coordinator.Healths(), c, RecordKey(key), None)
    {
      var w, h := service.coordinator.Stores(), service.coordinator.Healths();
      service.coordinator.StoresSound();
      if FreshKey(w, h, RecordKey(key)) && Undisturbed(c) {
        FreshKeyIsEmpty(w, h, c, RecordKey(key));
      }
    }

    /** Write a decision under a key that was just read absent. */
    method PutNew(key: ActionKey, decision: Decision, ghost read: ReadConditions, tries: nat -> Try, ghost before: seq<Event>)
      returns (result: PutOutcome, ghost turns: seq<Option<string>>)
      requires Valid() && OwnIds(tries)
      requires forall s: nat :: FreshOperation(World(), tries(s).operationId)
      requires SeenAbsent(service.coordinator.origin, before, service.coordinator.trace, RecordKey(key))
      requires forall n | |before| <= n < |service.coordinator.trace| :: DuringRead(read, service.coordinator.trace[n])
      modifies Footprint()
      ensures Valid() && old(service.coordinator.trace) <= service.coordinator.trace
      ensures !result.Conflict? && (result.Stored? ==> result.decision == decision)
      ensures result.PutFailed? ==> NoneWon(World(), tries)
      ensures result.Stored? && Matches(key, decision) ==> Backed(World(), RecordKey(key), decision)
      ensures result.Stored? && Matches(key, decision) ==> key in cache.entries && cache.entries[key] == decision
      ensures PutSection(|before|, turns, read, tries, RecordKey(KeyOf(None, decision)))
      ensures Matches(key, decision) ==>
                PutKeeps(service.coordinator.origin, service.coordinator.trace, |before|, turns, RecordKey(key))
      ensures (Matches(key, decision) && service.enabled && Unopposed(tries(0))
               && FreshKey(old(service.coordinator.Stores()), old(service.coordinator.Healths()), RecordKey(key))) ==>
                result == Stored(decision)
    {
      ghost var w, mid := service.coordinator.origin, service.coordinator.trace;
      ghost var attempts;
      var home := KeyOf(key.workflowId, decision);
      result, attempts := Record(home, decision, tries);
      turns := Turn(None, |mid| - |before|) + attempts;
      ReadThenWrite(before, mid, service.coordinator.trace, attempts, read, tries, RecordKey(home));
      if Matches(key, decision) {
        assert home == key;
        PutKeepsKey(w, before, mid, service.coordinator.trace, attempts, turns, RecordKey(key));
      }
    }
  }

  lemma ReadThenWrite(before: seq<Event>, mid: seq<Event>, events: seq<Event>, attempts: seq<Option<string>>,
                      read: ReadConditions, tries: nat -> Try, key: string)
    requires before <= mid <= events
    requires forall n | |before| <= n < |mid| :: DuringRead(read, mid[n])
    requires Itemized(events, |mid|, attempts, tries, MAX_PROPOSE_RETRIES, key) && AllNamed(attempts)
    ensures var turns := Turn(None, |mid| - |before|) + attempts;
            && Itemized(events, |before|, turns, tries, MAX_PROPOSE_RETRIES, key)
            && ReadsElsewhere(events, |before|, turns, read)
  {
    var turns := Turn(None, |mid| - |before|) + attempts;
    forall n | |before| <= n < |events| && turns[n - |before|].Some?
      ensures ByNamed(events[n], turns[n - |before|].value, tries, MAX_PROPOSE_RETRIES, key)
    {
      assert n >= |mid| && turns[n - |before|] == attempts[n - |mid|];
    }
    assert forall k | 0 <= k < |attempts| :: attempts[k].Some?;
    assert forall n | |before| <= n < |mid| :: mid[n] == events[n];
  }

  lemma PutKeepsKey(w: World, before: seq<Event>, mid: seq<Event>, events: seq<Event>, attempts: seq<Option<string>>,
                   turns: seq<Option<string>>, key: string)
    requires WorldInv(w) && mid <= events
    requires SeenAbsent(w, before, mid, key)
    requires exists empty :: SafeSoFar(w, events, |mid|, attempts, key, empty)
    requires turns == Turn(None, |mid| - |before|) + attempts
    ensures PutKeeps(w, events, |before|, turns, key)
  {
    var empty :| SafeSoFar(w, events, |mid|, attempts, key, empty);
    PutIsSafe(w, mid, events, |before|, attempts, turns, key, empty);
  }

  /** Two replicas were empty at moments after `before`, and no decision was backed at it. */
  ghost predicate SeenAbsent(w: World, before: seq<Event>, events: seq<Event>, key: string) {
    && before <= events
    && TwoEmptyMoments(w, events, |before|, key, None)
    && (forall d :: !Backed(Run(w, before), key, d))
  }

  /** What a lookup answers between two positions of the run. */
  ghost predicate Looked(w: World, before: seq<Event>, events: seq<Event>, access: Access, key: ActionKey, result: Lookup) {
    && before <= events
    && (forall n | |before| <= n < |events| :: DuringRead(access.read, events[n]))
    && (result.Found? ==> Matches(key, result.decision) && Backed(Run(w, events), RecordKey(key), result.decision))
    && (result.Absent? ==> SeenAbsent(w, before, events, RecordKey(key)))
  }

  ghost predicate ForeignRead(c: ReadConditions, op: string) {
    ForeignSchedule(c.env, op)
  }

  lemma ReadForeignStaysFresh(w: World, before: seq<Event>, events: seq<Event>, c: ReadConditions, tries: nat -> Try)
    requires before <= events
    requires forall n | |before| <= n < |events| :: DuringRead(c, events[n])
    requires forall s: nat :: FreshOperation(Run(w, before), tries(s).operationId) && ForeignRead(c, tries(s).operationId)
    ensures forall s: nat :: FreshOperation(Run(w, events), tries(s).operationId)
  {
    forall s: nat
      ensures FreshOperation(Run(w, events), tries(s).operationId)
    {
      var op := tries(s).operationId;
      assert ForeignRead(c, op);
      forall n | |before| <= n < |events|
        ensures Foreign(events[n], op)
      {
        var k: ReplicaIndex :| events[n] in EventsOf(c.env(k));
      }
      FreshAlong(w, before, events, op);
    }
  }

  /** A key the read found nothing under backed no decision when the read began. */
  lemma NotFoundUnbacked(w: World, key: string, result: ReadResult)
    requires RespectsCommits(w, key, None, result) && result.outcome.NotFound?
    ensures forall d :: !Backed(w, key, d)
  {
  }
}
