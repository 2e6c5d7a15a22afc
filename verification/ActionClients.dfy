/**
 Any sequence of lookups, puts and commits, through any ledgers on one Blackboard, with other transactions in between:
 at most one decision per key.
 */
module ActionClients {
  import opened BlackboardContracts
  import opened Wrappers
  import opened ReplicaStorage
  import opened BlackboardProtocol
  import opened Replica
  import opened Reads
  import opened Coordinator
  import opened ActionHistory
  import opened ActionLedger
  import opened ActionCommit

  datatype Call =
    | GetCall(ledger: nat, key: ActionKey, access: Access)
    | PutCall(ledger: nat, key: ActionKey, decision: Decision, access: Access, tries: nat -> Try)
    | CommitCall(ledger: nat, recommendation: Recommendation, binding: Binding, conditions: CommitConditions)

  datatype Answer = LookedUp(lookup: Lookup) | PutAnswer(outcome: PutOutcome) | CommitAnswer(result: CommitResult)

  function KeyOfCall(call: Call): ActionKey {
    match call
    case GetCall(_, key, _) => key
    case PutCall(_, key, _, _, _) => key
    case CommitCall(_, _, binding, _) => CommitKey(binding)
  }

  /** The decision an answer hands to its caller. */
  function DecisionIn(a: Answer): Option<Decision> {
    match a
    case LookedUp(Found(d)) => Some(d)
    case PutAnswer(Stored(d)) => Some(d)
    case CommitAnswer(Done(d)) => Some(d)
    case _ => None
  }

  predicate Refused(a: Answer) {
    a == PutAnswer(Conflict) || a == CommitAnswer(Contradicts)
  }

  /** The decision is what the call asked for. */
  predicate Suits(call: Call, d: Decision) {
    match call
    case GetCall(_, _, _) => true
    case PutCall(_, _, decision, _, _) => SameAction(d, decision)
    case CommitCall(_, recommendation, _, _) => Carries(d, recommendation)
  }

  // ---- Whose transaction is whose ----

  /** One of the call's write attempts has this operation id. */
  ghost predicate Issues(call: Call, op: string) {
    match call
    case GetCall(_, _, _) => false
    case PutCall(_, _, _, _, tries) => exists s: nat :: tries(s).operationId == op
    case CommitCall(_, _, _, c) => exists s: nat :: c.tries(s).operationId == op
  }

  ghost predicate DistinctIds(call: Call) {
    match call
    case GetCall(_, _, _) => true
    case PutCall(_, _, _, _, tries) => forall s: nat, t: nat | s < t :: tries(s).operationId != tries(t).operationId
    case CommitCall(_, _, _, c) => forall s: nat, t: nat | s < t :: c.tries(s).operationId != c.tries(t).operationId
  }

  /** The transaction happens around one of the call's reads or writes. */
  ghost predicate Around(call: Call, e: Event) {
    match call
    case GetCall(_, _, access) => DuringRead(access.read, e)
    case PutCall(_, _, _, access, tries) => DuringRead(access.read, e) || exists s: nat :: DuringWrite(tries(s).write.env, e)
    case CommitCall(_, _, _, c) =>
      || DuringRead(c.first.read, e) || DuringRead(c.second.read, e) || DuringRead(c.put.read, e)
      || exists s: nat :: DuringWrite(c.tries(s).write.env, e)
  }

  /** Nothing that happens around the call uses the operation id. */
  ghost predicate Spares(call: Call, op: string) {
    match call
    case GetCall(_, _, access) => ForeignRead(access.read, op)
    case PutCall(_, _, _, access, tries) =>
      ForeignRead(access.read, op) && forall s: nat :: ForeignSchedule(tries(s).write.env, op)
    case CommitCall(_, _, _, c) =>
      && ForeignRead(c.first.read, op) && ForeignRead(c.second.read, op) && ForeignRead(c.put.read, op)
      && forall s: nat :: ForeignSchedule(c.tries(s).write.env, op)
  }

  /** Every operation id belongs to one write attempt of one call. */
  ghost predicate Separate(calls: seq<Call>) {
    && (forall i | 0 <= i < |calls| :: DistinctIds(calls[i]))
    && (forall i, j, op | 0 <= i < |calls| && 0 <= j < |calls| && Issues(calls[i], op) :: Spares(calls[j], op))
    && (forall i, j, op | 0 <= i < j < |calls| && Issues(calls[i], op) :: !Issues(calls[j], op))
  }

  /** The transaction belongs to none of the calls. */
  ghost predicate Others(calls: seq<Call>, e: Event) {
    forall i, op | 0 <= i < |calls| && Issues(calls[i], op) :: Foreign(e, op)
  }

  /** From `lo` on, whatever is not the calls' own leaves the key alone or repairs it with a record two replicas hold. */
  ghost predicate OthersKeep(w: World, events: seq<Event>, lo: nat, calls: seq<Call>, key: string) {
    forall n: nat | lo <= n < |events| && Others(calls, events[n]) :: DisciplinedAt(w, events, n, key)
  }

  lemma AroundIsForeign(call: Call, e: Event, op: string)
    requires Around(call, e) && Spares(call, op)
    ensures Foreign(e, op)
  {
  }

  lemma AroundIsOthers(calls: seq<Call>, i: nat, e: Event)
    requires Separate(calls) && i < |calls| && Around(calls[i], e)
    ensures Others(calls, e)
  {
    forall j, op | 0 <= j < |calls| && Issues(calls[j], op)
      ensures Foreign(e, op)
    {
      AroundIsForeign(calls[i], e, op);
    }
  }

  // ---- One call, as a stretch of the run ----

  /** One of the call's own transactions, which can commit under no key but the call's. */
  ghost predicate Own(call: Call, e: Event, op: string) {
    Issues(call, op) && OwnOn(e, op, RecordKey(KeyOfCall(call)))
  }

  /** What a position of the critical section holds, given whose turn it is. */
  ghost predicate TurnOf(call: Call, e: Event, turn: Option<string>) {
    Around(call, e) || (turn.Some? && Own(call, e, turn.value))
  }

  /** The call's stretch of the run: reads, then a critical section from `start` on that keeps the call's key. */
  ghost predicate Handled(w: World, before: seq<Event>, events: seq<Event>, call: Call, start: nat,
                          turns: seq<Option<string>>)
  {
    && before <= events && |before| <= start && start + |turns| == |events|
    && (forall n | |before| <= n < start :: Around(call, events[n]))
    && (forall n | start <= n < |events| :: TurnOf(call, events[n], turns[n - start]))
    && PutKeeps(w, events, start, turns, RecordKey(KeyOfCall(call)))
  }

  /** A call keeps every key within version 1, if everyone else keeps it. */
  lemma HandledKeeps(w: World, before: seq<Event>, events: seq<Event>, calls: seq<Call>, i: nat, start: nat,
                     turns: seq<Option<string>>, key: string)
    requires WorldInv(w) && Separate(calls) && i < |calls|
    requires Handled(w, before, events, calls[i], start, turns)
    requires OthersKeep(w, events, |before|, calls, key) && AtMostOne(At(w, events, |before|), key)
    ensures AtMostOne(At(w, events, |events|), key)
  {
    AroundDisciplined(w, |before|, events, calls, i, key);
    if key == RecordKey(KeyOfCall(calls[i])) {
      QuietStretch(w, events, |before|, start, key);
      SectionDisciplined(w, before, events, calls[i], start, turns, key);
    } else {
      OtherKeyDisciplined(w, before, events, calls[i], start, turns, key);
      QuietStretch(w, events, |before|, |events|, key);
    }
  }

  /** What happens around a call is other participants' doing. */
  lemma AroundDisciplined(w: World, lo: nat, events: seq<Event>, calls: seq<Call>, i: nat, key: string)
    requires Separate(calls) && i < |calls| && OthersKeep(w, events, lo, calls, key)
    ensures forall n: nat | lo <= n < |events| && Around(calls[i], events[n]) :: DisciplinedAt(w, events, n, key)
  {
    forall n: nat | lo <= n < |events| && Around(calls[i], events[n])
      ensures DisciplinedAt(w, events, n, key)
    {
      AroundIsOthers(calls, i, events[n]);
    }
  }

  /** A call's own transactions leave every other key alone. */
  lemma OtherKeyDisciplined(w: World, before: seq<Event>, events: seq<Event>, call: Call, start: nat,
                            turns: seq<Option<string>>, key: string)
    requires Handled(w, before, events, call, start, turns) && key != RecordKey(KeyOfCall(call))
    requires forall n: nat | |before| <= n < |events| && Around(call, events[n]) :: DisciplinedAt(w, events, n, key)
    ensures forall n: nat | |before| <= n < |events| :: DisciplinedAt(w, events, n, key)
  {
    forall n: nat | |before| <= n < |events|
      ensures DisciplinedAt(w, events, n, key)
    {
      if !Around(call, events[n]) {
        assert TurnOf(call, events[n], turns[n - start]);
      }
    }
  }

  lemma QuietStretch(w: World, events: seq<Event>, m: nat, n: nat, key: string)
    requires WorldInv(w) && m <= n <= |events|
    requires forall p: nat | m <= p < n :: DisciplinedAt(w, events, p, key)
    requires AtMostOne(At(w, events, m), key)
    ensures AtMostOne(At(w, events, n), key)
  {
    forall p: nat | m <= p < n
      ensures HarmlessAt(w, events, p, key)
    {
      DisciplinedIsHarmless(w, events, p, key);
    }
    HarmlessRun(w, events, m, n, key);
  }

  /** In the critical section only what happens around the call is foreign to the attempt whose turn it is. */
  lemma SectionDisciplined(w: World, before: seq<Event>, events: seq<Event>, call: Call, start: nat,
                           turns: seq<Option<string>>, key: string)
    requires Handled(w, before, events, call, start, turns)
    requires forall n: nat | |before| <= n < |events| && Around(call, events[n]) :: DisciplinedAt(w, events, n, key)
    ensures TurnsDisciplined(w, events, start, turns, key)
  {
    forall n: nat | start <= n < start + |turns| && n < |events|
                    && (turns[n - start].Some? ==> Foreign(events[n], turns[n - start].value))
      ensures DisciplinedAt(w, events, n, key)
    {
      assert TurnOf(call, events[n], turns[n - start]);
      assert Around(call, events[n]);
    }
  }

  /** Ids of other calls stay unused. */
  lemma HandledSpares(w: World, before: seq<Event>, events: seq<Event>, calls: seq<Call>, i: nat, start: nat,
                      turns: seq<Option<string>>, j: nat, op: string)
    requires Separate(calls) && i < |calls| && j < |calls| && i != j && Issues(calls[j], op)
    requires Handled(w, before, events, calls[i], start, turns)
    requires FreshOperation(Run(w, before), op)
    ensures FreshOperation(Run(w, events), op)
  {
    forall n | |before| <= n < |events|
      ensures Foreign(events[n], op)
    {
      if Around(calls[i], events[n]) {
        AroundIsForeign(calls[i], events[n], op);
      } else {
        assert TurnOf(calls[i], events[n], turns[n - start]);
      }
    }
    FreshAlong(w, before, events, op);
  }

  /** Ids that the calls from the `i`-th on will use are unused. */
  ghost predicate FreshFrom(w: World, calls: seq<Call>, i: nat) {
    forall j, op | i <= j < |calls| && Issues(calls[j], op) :: FreshOperation(w, op)
  }

  lemma HandledStaysFresh(w: World, before: seq<Event>, events: seq<Event>, calls: seq<Call>, i: nat, start: nat,
                          turns: seq<Option<string>>)
    requires Separate(calls) && i < |calls| && FreshFrom(Run(w, before), calls, i)
    requires Handled(w, before, events, calls[i], start, turns)
    ensures FreshFrom(Run(w, events), calls, i + 1)
  {
    forall j, op | i + 1 <= j < |calls| && Issues(calls[j], op)
      ensures FreshOperation(Run(w, events), op)
    {
      HandledSpares(w, before, events, calls, i, start, turns, j, op);
    }
  }

  lemma ReadyToPut(w: World, calls: seq<Call>, i: nat)
    requires Separate(calls) && i < |calls| && calls[i].PutCall? && FreshFrom(w, calls, i)
    ensures OwnIds(calls[i].tries)
    ensures forall s: nat ::
              FreshOperation(w, calls[i].tries(s).operationId) && ForeignRead(calls[i].access.read, calls[i].tries(s).operationId)
  {
    var call := calls[i];
    forall s: nat
      ensures Issues(call, call.tries(s).operationId)
    {
    }
  }

  lemma ReadyToCommit(w: World, calls: seq<Call>, i: nat)
    requires Separate(calls) && i < |calls| && calls[i].CommitCall? && FreshFrom(w, calls, i)
    ensures Unshared(w, calls[i].conditions)
  {
    var call := calls[i];
    forall s: nat
      ensures Issues(call, call.conditions.tries(s).operationId)
    {
    }
  }

  lemma LookupHandled(w: World, before: seq<Event>, events: seq<Event>, call: Call)
    requires call.GetCall? && before <= events
    requires forall n | |before| <= n < |events| :: DuringRead(call.access.read, events[n])
    ensures Handled(w, before, events, call, |events|, [])
  {
  }

  /** What a put's contract says of its section is what the call's stretch of the run must be. */
  lemma PutHandled(w: World, before: seq<Event>, events: seq<Event>, call: Call, turns: seq<Option<string>>)
    requires call.PutCall? && Matches(call.key, call.decision) && before <= events
    requires Itemized(events, |before|, turns, call.tries, MAX_PROPOSE_RETRIES, RecordKey(KeyOf(None, call.decision)))
    requires ReadsElsewhere(events, |before|, turns, call.access.read)
    requires PutKeeps(w, events, |before|, turns, RecordKey(call.key))
    ensures Handled(w, before, events, call, |before|, turns)
  {
    forall n | |before| <= n < |events|
      ensures TurnOf(call, events[n], turns[n - |before|])
    {
      if turns[n - |before|].Some? {
        NamedTurn(call, events[n], turns[n - |before|].value, call.tries);
      }
    }
  }

  lemma CommitHandled(w: World, before: seq<Event>, events: seq<Event>, call: Call, start: nat, turns: seq<Option<string>>)
    requires call.CommitCall? && before <= events && |before| <= start <= |events|
    requires forall n | |before| <= n < start ::
               DuringRead(call.conditions.first.read, events[n]) || DuringRead(call.conditions.second.read, events[n])
    requires Itemized(events, start, turns, call.conditions.tries, MAX_PROPOSE_RETRIES, RecordKey(KeyOfCall(call)))
    requires ReadsElsewhere(events, start, turns, call.conditions.put.read)
    requires PutKeeps(w, events, start, turns, RecordKey(KeyOfCall(call)))
    ensures Handled(w, before, events, call, start, turns)
  {
    forall n | start <= n < |events|
      ensures TurnOf(call, events[n], turns[n - start])
    {
      if turns[n - start].Some? {
        NamedTurn(call, events[n], turns[n - start].value, call.conditions.tries);
      }
    }
  }

  lemma NamedTurn(call: Call, e: Event, op: string, tries: nat -> Try)
    requires call.PutCall? || call.CommitCall?
    requires tries == if call.PutCall? then call.tries else call.conditions.tries
    requires ByNamed(e, op, tries, MAX_PROPOSE_RETRIES, RecordKey(KeyOfCall(call)))
    ensures TurnOf(call, e, Some(op))
  {
    var t: nat :| t < MAX_PROPOSE_RETRIES && tries(t).operationId == op && ByTry(e, tries(t), RecordKey(KeyOfCall(call)));
    assert Issues(call, op);
  }

  // ---- A whole history of calls ----

  ghost predicate HandledBetween(w: World, events: seq<Event>, m: nat, n: nat, call: Call) {
    && m <= n <= |events|
    && exists start: nat, turns: seq<Option<string>> :: Handled(w, events[..m], events[..n], call, start, turns)
  }

  /** The run from `lo` on is these calls, one after another, cut at these positions. */
  ghost predicate Served(w: World, events: seq<Event>, lo: nat, calls: seq<Call>, cuts: seq<nat>) {
    && |cuts| == |calls| + 1 && cuts[0] == lo && cuts[|calls|] == |events|
    && forall i, j | 0 <= i < |calls| && j == i + 1 :: HandledBetween(w, events, cuts[i], cuts[j], calls[i])
  }

  lemma ServedMore(w: World, before: seq<Event>, events: seq<Event>, lo: nat, calls: seq<Call>, cuts: seq<nat>,
                   call: Call, start: nat, turns: seq<Option<string>>)
    requires Served(w, before, lo, calls, cuts) && Handled(w, before, events, call, start, turns)
    ensures Served(w, events, lo, calls + [call], cuts + [|events|])
  {
    var all, more := calls + [call], cuts + [|events|];
    forall i, j | 0 <= i < |all| && j == i + 1
      ensures HandledBetween(w, events, more[i], more[j], all[i])
    {
      if i < |calls| {
        assert HandledBetween(w, before, cuts[i], cuts[j], calls[i]);
        assert events[..cuts[i]] == before[..cuts[i]] && events[..cuts[j]] == before[..cuts[j]];
      } else {
        assert events[..|before|] == before && events[..|events|] == events;
        assert Handled(w, events[..more[i]], events[..more[j]], call, start, turns);
      }
    }
  }

  lemma ServedCall(w: World, events: seq<Event>, lo: nat, calls: seq<Call>, cuts: seq<nat>, i: nat)
    requires Served(w, events, lo, calls, cuts) && i < |calls|
    ensures HandledBetween(w, events, cuts[i], cuts[i + 1], calls[i])
  {
  }

  lemma {:induction false} HistoryKeepsBound(w: World, events: seq<Event>, lo: nat, calls: seq<Call>, cuts: seq<nat>,
                                             key: string, i: nat)
    requires WorldInv(w) && Separate(calls) && Served(w, events, lo, calls, cuts) && i <= |calls|
    requires lo <= |events| && OthersKeep(w, events, lo, calls, key) && AtMostOne(At(w, events, lo), key)
    ensures lo <= cuts[i] <= |events| && AtMostOne(At(w, events, cuts[i]), key)
  {
    if i > 0 {
      HistoryKeepsBound(w, events, lo, calls, cuts, key, i - 1);
      ServedCall(w, events, lo, calls, cuts, i - 1);
      CallKeepsBound(w, events, lo, calls, i - 1, cuts[i - 1], cuts[i], key);
    }
  }

  lemma CallKeepsBound(w: World, events: seq<Event>, lo: nat, calls: seq<Call>, i: nat, m: nat, n: nat, key: string)
    requires WorldInv(w) && Separate(calls) && i < |calls| && lo <= m && HandledBetween(w, events, m, n, calls[i])
    requires OthersKeep(w, events, lo, calls, key) && AtMostOne(At(w, events, m), key)
    ensures AtMostOne(At(w, events, n), key)
  {
    var before, after := events[..m], events[..n];
    var start: nat, turns: seq<Option<string>> :| Handled(w, before, after, calls[i], start, turns);
    forall p: nat | m <= p < n && Others(calls, after[p])
      ensures DisciplinedAt(w, after, p, key)
    {
      assert after[p] == events[p];
      DisciplinedEarlier(w, after, events, p, key);
    }
    SamePosition(w, after, events, m);
    SamePosition(w, after, events, n);
    HandledKeeps(w, before, after, calls, i, start, turns, key);
  }

  /**
   Write-once: in any run of calls, two decisions of one key that were ever held by two replicas, at any two moments,
   are one decision, as long as everyone else keeps the key.
   */
  lemma WriteOnce(w: World, events: seq<Event>, lo: nat, calls: seq<Call>, cuts: seq<nat>, key: string,
                  m: nat, d1: Decision, n: nat, d2: Decision)
    requires WorldInv(w) && Separate(calls) && lo <= |events| && Served(w, events, lo, calls, cuts)
    requires OthersKeep(w, events, lo, calls, key) && AtMostOne(At(w, events, lo), key)
    requires m <= |events| && n <= |events|
    requires Backed(At(w, events, m), key, d1) && Backed(At(w, events, n), key, d2)
    ensures d1 == d2
  {
    HistoryKeepsBound(w, events, lo, calls, cuts, key, |calls|);
    PrefixEvolves(w, events, m, |events|);
    PrefixEvolves(w, events, n, |events|);
    BackedPersists(At(w, events, m), At(w, events, |events|), key, d1);
    BackedPersists(At(w, events, n), At(w, events, |events|), key, d2);
    BackedIsUnique(At(w, events, |events|), key, d1, d2);
  }

  // ---- The clients ----

  /** What an answer says of the stores. */
  ghost predicate Vouches(w: World, call: Call, a: Answer) {
    var key := KeyOfCall(call);
    && (DecisionIn(a).Some? ==>
          && Matches(key, DecisionIn(a).value) && Backed(w, RecordKey(key), DecisionIn(a).value)
          && Suits(call, DecisionIn(a).value))
    && (Refused(a) ==> exists d :: Backed(w, RecordKey(key), d) && !Suits(call, d))
  }

  lemma VouchesLater(w: World, w': World, call: Call, a: Answer)
    requires Vouches(w, call, a) && Evolves(w, w')
    ensures Vouches(w', call, a)
  {
    var key := KeyOfCall(call);
    if DecisionIn(a).Some? {
      BackedPersists(w, w', RecordKey(key), DecisionIn(a).value);
    }
    if Refused(a) {
      var d :| Backed(w, RecordKey(key), d) && !Suits(call, d);
      BackedPersists(w, w', RecordKey(key), d);
    }
  }

  ghost predicate PutAnswers(w: World, key: ActionKey, decision: Decision, outcome: PutOutcome) {
    && (outcome.Stored? ==>
          && SameAction(outcome.decision, decision) && Matches(key, outcome.decision)
          && Backed(w, RecordKey(key), outcome.decision))
    && (outcome.Conflict? ==> exists d :: Backed(w, RecordKey(key), d) && !SameAction(d, decision))
  }

  lemma PutVouches(w: World, call: Call, outcome: PutOutcome)
    requires call.PutCall? && PutAnswers(w, call.key, call.decision, outcome)
    ensures Vouches(w, call, PutAnswer(outcome))
  {
    if outcome.Conflict? {
      var d :| Backed(w, RecordKey(call.key), d) && !SameAction(d, call.decision);
      assert !Suits(call, d);
    }
  }

  /** Every answer so far stands. */
  ghost predicate AllVouch(w: World, calls: seq<Call>, answers: seq<Answer>) {
    |answers| <= |calls| && forall k | 0 <= k < |answers| :: Vouches(w, calls[k], answers[k])
  }

  lemma AllVouchLater(w: World, w': World, calls: seq<Call>, answers: seq<Answer>)
    requires AllVouch(w, calls, answers) && Evolves(w, w')
    ensures AllVouch(w', calls, answers)
  {
    forall k | 0 <= k < |answers|
      ensures Vouches(w', calls[k], answers[k])
    {
      VouchesLater(w, w', calls[k], answers[k]);
    }
  }

  /** The read a call starts with. */
  function FirstAccess(call: Call): Access {
    match call
    case GetCall(_, _, access) => access
    case PutCall(_, _, _, access, _) => access
    case CommitCall(_, _, _, c) => c.first
  }

  /** The decision that settles a call: the cached one, or past the cache the one two replicas answer its read with. */
  ghost predicate Stands(entries: map<ActionKey, Decision>, w: World, healths: seq<Health>, key: ActionKey, access: Access,
                         quiet: bool, d: Decision)
    requires |healths| == 3
  {
    if key in entries then entries[key] == d
    else quiet && Recorded(w, healths, access.read, key, d) && ActionLedger.Suits(key, d)
  }

  /** The call gets the decision if it suits it, and is refused otherwise. */
  predicate Upholds(d: Decision, call: Call, a: Answer) {
    if Suits(call, d) then DecisionIn(a) == Some(d) else Refused(a)
  }

  /** A commit whose recommendation is not bound as claimed is answered before anything is looked up. */
  predicate Proper(call: Call) {
    call.CommitCall? ==> Bound(call.recommendation, call.binding)
  }

  /** Every decision that stands is upheld. */
  ghost predicate UpholdsAny(entries: map<ActionKey, Decision>, w: World, healths: seq<Health>, quiet: bool, call: Call, a: Answer)
    requires |healths| == 3
  {
    Proper(call) ==>
      forall d: Decision | Stands(entries, w, healths, KeyOfCall(call), FirstAccess(call), quiet, d) :: Upholds(d, call, a)
  }

  lemma FoundUpholds(entries: map<ActionKey, Decision>, w: World, healths: seq<Health>, quiet: bool, call: Call, lookup: Lookup)
    requires |healths| == 3 && call.GetCall?
    requires call.key in entries ==> lookup == Found(entries[call.key])
    requires call.key !in entries && quiet ==> LooksUp(w, healths, call.access.read, call.key, lookup)
    ensures UpholdsAny(entries, w, healths, quiet, call, LookedUp(lookup))
  {
  }

  lemma StoredUpholds(entries: map<ActionKey, Decision>, w: World, healths: seq<Health>, quiet: bool, call: Call,
                      outcome: PutOutcome)
    requires |healths| == 3 && call.PutCall?
    requires PutUpholds(entries, w, healths, call.key, call.access, quiet, call.decision, outcome)
    ensures UpholdsAny(entries, w, healths, quiet, call, PutAnswer(outcome))
  {
  }

  lemma DoneUpholds(entries: map<ActionKey, Decision>, w: World, healths: seq<Health>, quiet: bool, call: Call,
                    result: CommitResult)
    requires |healths| == 3 && call.CommitCall?
    requires Proper(call) ==>
               Upheld(entries, w, healths, CommitKey(call.binding), call.conditions.first, quiet, call.recommendation, Some(result))
    ensures UpholdsAny(entries, w, healths, quiet, call, CommitAnswer(result))
  {
  }

  /** Two answers about one key never contradict each other. */
  ghost predicate Compatible(first: Answer, call: Call, second: Answer) {
    DecisionIn(first).Some? ==>
      && (DecisionIn(second).Some? ==> DecisionIn(second) == DecisionIn(first))
      && (Refused(second) ==> !Suits(call, DecisionIn(first).value))
  }

  lemma AnswersCompatible(w: World, key: string, c1: Call, first: Answer, c2: Call, second: Answer)
    requires WorldInv(w) && AtMostOne(w, key)
    requires RecordKey(KeyOfCall(c1)) == key && RecordKey(KeyOfCall(c2)) == key
    requires Vouches(w, c1, first) && Vouches(w, c2, second)
    ensures Compatible(first, c2, second)
  {
    if DecisionIn(first).Some? {
      var d := DecisionIn(first).value;
      if DecisionIn(second).Some? {
        BackedIsUnique(w, key, d, DecisionIn(second).value);
      }
      if Refused(second) {
        var other :| Backed(w, key, other) && !Suits(c2, other);
        BackedIsUnique(w, key, d, other);
      }
    }
  }

  class ActionClients {
    const coordinator: BlackboardCoordinator
    const ledgers: seq<BlackboardActionLedger>

    constructor (coordinator: BlackboardCoordinator, ledgers: seq<BlackboardActionLedger>)
      ensures this.coordinator == coordinator && this.ledgers == ledgers
    {
      this.coordinator, this.ledgers := coordinator, ledgers;
    }

    ghost function Caches(): set<object> {
      set i | 0 <= i < |ledgers| :: ledgers[i].cache as object
    }

    /** The ledgers share the Blackboard, and each has a cache of its own. */
    ghost predicate Wired() {
      && (forall i | 0 <= i < |ledgers| :: ledgers[i].service.coordinator == coordinator)
      && (forall i, j | 0 <= i < j < |ledgers| :: ledgers[i].cache != ledgers[j].cache)
    }

    ghost predicate Valid()
      reads coordinator, Caches()
      reads if coordinator.Shape() then coordinator.Footprint() else {}
    {
      && Wired() && coordinator.Valid()
      && forall i | 0 <= i < |ledgers| :: ledgers[i].Valid()
    }

    ghost function World(): World
      reads coordinator
    {
      Run(coordinator.origin, coordinator.trace)
    }

    /** A call names an existing ledger, and puts decisions under their own keys. */
    ghost predicate Fits(call: Call) {
      && call.ledger < |ledgers|
      && (call.PutCall? ==> Matches(call.key, call.decision))
    }


    /** A call through one ledger leaves the others' caches backed. */
    twostate lemma RestStaysValid(k: nat)
      requires old(Valid()) && k < |ledgers| && ledgers[k].Valid()
      requires old(coordinator.trace) <= coordinator.trace
      requires forall i | 0 <= i < |ledgers| && i != k :: unchanged(ledgers[i].cache)
      ensures Valid()
    {
      forall i | 0 <= i < |ledgers| && i != k
        ensures ledgers[i].Valid()
      {
        ledgers[i].StillValid(old(coordinator.trace));
      }
    }

    lemma OwnFootprint(k: nat)
      requires Valid() && k < |ledgers|
      ensures ledgers[k].Footprint() <= coordinator.Footprint() + Caches()
      ensures forall i | 0 <= i < |ledgers| && i != k :: ledgers[i].cache as object !in ledgers[k].Footprint()
    {
    }

    ghost predicate ReadsQuietly(call: Call)
      requires call.ledger < |ledgers|
    {
      ledgers[call.ledger].Quietly(FirstAccess(call))
    }

    ghost function CacheOf(k: nat): map<ActionKey, Decision>
      requires k < |ledgers|
      reads ledgers[k].cache
    {
      ledgers[k].cache.entries
    }

    method GetThrough(call: Call) returns (lookup: Lookup)
      requires Valid() && Fits(call) && call.GetCall?
      modifies coordinator.Footprint(), Caches()
      ensures Valid()
      ensures Looked(coordinator.origin, old(coordinator.trace), coordinator.trace, call.access, call.key, lookup)
      ensures UpholdsAny(old(CacheOf(call.ledger)), old(coordinator.Stores()), old(coordinator.Healths()),
                         ReadsQuietly(call), call, LookedUp(lookup))
    {
      OwnFootprint(call.ledger);
      ghost var entries, w, h := CacheOf(call.ledger), coordinator.Stores(), coordinator.Healths();
      lookup := ledgers[call.ledger].Get(call.key, call.access);
      FoundUpholds(entries, w, h, ReadsQuietly(call), call, lookup);
      RestStaysValid(call.ledger);
    }

    method PutThrough(k: nat, key: ActionKey, decision: Decision, access: Access, tries: nat -> Try)
      returns (outcome: PutOutcome, ghost turns: seq<Option<string>>)
      requires Valid() && k < |ledgers| && OwnIds(tries) && Matches(key, decision)
      requires forall s: nat :: FreshOperation(World(), tries(s).operationId) && ForeignRead(access.read, tries(s).operationId)
      modifies coordinator.Footprint(), Caches()
      ensures Valid() && old(coordinator.trace) <= coordinator.trace
      ensures PutAnswers(World(), key, decision, outcome)
      ensures PutUpholds(old(CacheOf(k)), old(coordinator.Stores()), old(coordinator.Healths()), key, access,
                         ledgers[k].Quietly(access), decision, outcome)
      ensures Itemized(coordinator.trace, |old(coordinator.trace)|, turns, tries, MAX_PROPOSE_RETRIES, RecordKey(KeyOf(None, decision)))
      ensures ReadsElsewhere(coordinator.trace, |old(coordinator.trace)|, turns, access.read)
      ensures PutKeeps(coordinator.origin, coordinator.trace, |old(coordinator.trace)|, turns, RecordKey(key))
    {
      OwnFootprint(k);
      outcome, turns := ledgers[k].Put(key, decision, access, tries);
      RestStaysValid(k);
    }

    method CommitThrough(k: nat, r: Recommendation, b: Binding, c: CommitConditions)
      returns (result: CommitResult, ghost start: nat, ghost turns: seq<Option<string>>)
      requires Valid() && k < |ledgers| && Unshared(World(), c)
      modifies coordinator.Footprint(), Caches()
      ensures Valid() && old(coordinator.trace) <= coordinator.trace
      ensures Settles(World(), RecordKey(CommitKey(b)), r, result)
      ensures result.Done? ==> Matches(CommitKey(b), result.decision)
      ensures Bound(r, b) ==>
                Upheld(old(CacheOf(k)), old(coordinator.Stores()), old(coordinator.Healths()), CommitKey(b), c.first,
                       ledgers[k].Quietly(c.first), r, Some(result))
      ensures |old(coordinator.trace)| <= start <= |coordinator.trace|
      ensures forall n | |old(coordinator.trace)| <= n < start ::
                DuringRead(c.first.read, coordinator.trace[n]) || DuringRead(c.second.read, coordinator.trace[n])
      ensures Itemized(coordinator.trace, start, turns, c.tries, MAX_PROPOSE_RETRIES, RecordKey(CommitKey(b)))
      ensures ReadsElsewhere(coordinator.trace, start, turns, c.put.read)
      ensures PutKeeps(coordinator.origin, coordinator.trace, start, turns, RecordKey(CommitKey(b)))
    {
      OwnFootprint(k);
      var committer := new ActionCommitter(ledgers[k]);
      result, start, turns := committer.Commit(r, b, c);
      RestStaysValid(k);
    }

    method Lookup(call: Call) returns (answer: Answer)
      requires Valid() && Fits(call) && call.GetCall?
      modifies coordinator.Footprint(), Caches()
      ensures Valid() && Vouches(World(), call, answer)
      ensures UpholdsAny(old(CacheOf(call.ledger)), old(coordinator.Stores()), old(coordinator.Healths()),
                         ReadsQuietly(call), call, answer)
      ensures Handled(coordinator.origin, old(coordinator.trace), coordinator.trace, call, |coordinator.trace|, [])
    {
      var lookup := GetThrough(call);
      answer := LookedUp(lookup);
      LookupHandled(coordinator.origin, old(coordinator.trace), coordinator.trace, call);
    }

    method PutDecision(call: Call) returns (answer: Answer, ghost turns: seq<Option<string>>)
      requires Valid() && Fits(call) && call.PutCall?
      requires OwnIds(call.tries)
      requires forall s: nat ::
                 FreshOperation(World(), call.tries(s).operationId) && ForeignRead(call.access.read, call.tries(s).operationId)
      modifies coordinator.Footprint(), Caches()
      ensures Valid() && Vouches(World(), call, answer)
      ensures UpholdsAny(old(CacheOf(call.ledger)), old(coordinator.Stores()), old(coordinator.Healths()),
                         ReadsQuietly(call), call, answer)
      ensures Handled(coordinator.origin, old(coordinator.trace), coordinator.trace, call, |old(coordinator.trace)|, turns)
    {
      ghost var entries, w, h := CacheOf(call.ledger), coordinator.Stores(), coordinator.Healths();
      var outcome;
      outcome, turns := PutThrough(call.ledger, call.key, call.decision, call.access, call.tries);
      answer := PutAnswer(outcome);
      PutVouches(World(), call, outcome);
      StoredUpholds(entries, w, h, ReadsQuietly(call), call, outcome);
      PutHandled(coordinator.origin, old(coordinator.trace), coordinator.trace, call, turns);
    }

    method CommitDecision(call: Call) returns (answer: Answer, ghost start: nat, ghost turns: seq<Option<string>>)
      requires Valid() && Fits(call) && call.CommitCall? && Unshared(World(), call.conditions)
      modifies coordinator.Footprint(), Caches()
      ensures Valid() && Vouches(World(), call, answer)
      ensures UpholdsAny(old(CacheOf(call.ledger)), old(coordinator.Stores()), old(coordinator.Healths()),
                         ReadsQuietly(call), call, answer)
      ensures Handled(coordinator.origin, old(coordinator.trace), coordinator.trace, call, start, turns)
    {
      ghost var entries, w, h := CacheOf(call.ledger), coordinator.Stores(), coordinator.Healths();
      var result;
      result, start, turns := CommitThrough(call.ledger, call.recommendation, call.binding, call.conditions);
      answer := CommitAnswer(result);
      DoneUpholds(entries, w, h, ReadsQuietly(call), call, result);
      CommitHandled(coordinator.origin, old(coordinator.trace), coordinator.trace, call, start, turns);
    }

    /** One call, whichever it is. */
    method Handle(calls: seq<Call>, i: nat) returns (answer: Answer, ghost start: nat, ghost turns: seq<Option<string>>)
      requires i < |calls| && Valid() && Fits(calls[i]) && Separate(calls) && FreshFrom(World(), calls, i)
      modifies coordinator.Footprint(), Caches()
      ensures Valid() && Vouches(World(), calls[i], answer)
      ensures UpholdsAny(old(CacheOf(calls[i].ledger)), old(coordinator.Stores()), old(coordinator.Healths()),
                         ReadsQuietly(calls[i]), calls[i], answer)
      ensures Handled(coordinator.origin, old(coordinator.trace), coordinator.trace, calls[i], start, turns)
      ensures FreshFrom(World(), calls, i + 1)
    {
      ghost var t0 := coordinator.trace;
      match calls[i] {
      case GetCall(_, _, _) =>
        answer := Lookup(calls[i]);
        start, turns := |coordinator.trace|, [];
      case PutCall(_, _, _, _, tries) =>
        ReadyToPut(World(), calls, i);
        answer, turns := PutDecision(calls[i]);
        start := |t0|;
      case CommitCall(_, _, _, c) =>
        ReadyToCommit(World(), calls, i);
        answer, start, turns := CommitDecision(calls[i]);
      }
      HandledStaysFresh(coordinator.origin, t0, coordinator.trace, calls, i, start, turns);
    }

    /** If both calls are about one key, within version 1 before, that others have kept since, their answers are compatible. */
    ghost predicate Agrees(before: seq<Event>, calls: seq<Call>, c1: Call, first: Answer, c2: Call, second: Answer)
      requires before <= coordinator.trace
      reads coordinator
    {
      var key := RecordKey(KeyOfCall(c1));
      && key == RecordKey(KeyOfCall(c2))
      && OthersKeep(coordinator.origin, coordinator.trace, |before|, calls, key)
      && AtMostOne(Run(coordinator.origin, before), key) ==>
        Compatible(first, c2, second)
    }

    /** One more call after those served so far. */
    method ServeNext(calls: seq<Call>, i: nat, answers: seq<Answer>, ghost lo: nat, ghost cuts: seq<nat>)
      returns (answers': seq<Answer>, ghost cuts': seq<nat>)
      requires i < |calls| && Valid() && Fits(calls[i]) && Separate(calls) && FreshFrom(World(), calls, i)
      requires Served(coordinator.origin, coordinator.trace, lo, calls[..i], cuts) && AllVouch(World(), calls, answers) && |answers| == i
      modifies coordinator.Footprint(), Caches()
      ensures Valid() && old(coordinator.trace) <= coordinator.trace && FreshFrom(World(), calls, i + 1)
      ensures Served(coordinator.origin, coordinator.trace, lo, calls[..i + 1], cuts')
      ensures |answers'| == i + 1 && AllVouch(World(), calls, answers')
    {
      ghost var t0, before := coordinator.trace, World();
      ghost var start, turns;
      var answer;
      answer, start, turns := Handle(calls, i);
      ServedMore(coordinator.origin, t0, coordinator.trace, lo, calls[..i], cuts, calls[i], start, turns);
      assert calls[..i + 1] == calls[..i] + [calls[i]];
      RunExtended(coordinator.origin, t0, coordinator.trace);
      AllVouchLater(before, World(), calls, answers);
      answers', cuts' := answers + [answer], cuts + [|coordinator.trace|];
    }

    /**
     Serve any calls one after another. Whatever else happens on the replicas, as long as it keeps a key, all
     decisions handed out for the key are one decision, and no call is refused that this decision would suit.
     */
    method Serve(calls: seq<Call>) returns (answers: seq<Answer>, ghost cuts: seq<nat>)
      requires Valid() && (forall call | call in calls :: Fits(call))
      requires Separate(calls) && FreshFrom(World(), calls, 0)
      modifies coordinator.Footprint(), Caches()
      ensures Valid() && old(coordinator.trace) <= coordinator.trace
      ensures Served(coordinator.origin, coordinator.trace, |old(coordinator.trace)|, calls, cuts)
      ensures |answers| == |calls| && AllVouch(World(), calls, answers)
      ensures forall i, j | 0 <= i < |calls| && 0 <= j < |calls| ::
                Agrees(old(coordinator.trace), calls, calls[i], answers[i], calls[j], answers[j])
    {
      answers, cuts := [], [|coordinator.trace|];
      for i := 0 to |calls|
        invariant Valid() && old(coordinator.trace) <= coordinator.trace && FreshFrom(World(), calls, i)
        invariant Served(coordinator.origin, coordinator.trace, |old(coordinator.trace)|, calls[..i], cuts)
        invariant |answers| == i && AllVouch(World(), calls, answers)
      {
        answers, cuts := ServeNext(calls, i, answers, |old(coordinator.trace)|, cuts);
      }
      assert calls[..|calls|] == calls;
      forall i, j | 0 <= i < |calls| && 0 <= j < |calls|
        ensures Agrees(old(coordinator.trace), calls, calls[i], answers[i], calls[j], answers[j])
      {
        ServedConsistently(old(coordinator.trace), calls, cuts, calls[i], answers[i], calls[j], answers[j]);
      }
    }

    lemma ServedConsistently(before: seq<Event>, calls: seq<Call>, cuts: seq<nat>, c1: Call, first: Answer, c2: Call,
                             second: Answer)
      requires Valid() && before <= coordinator.trace && Separate(calls)
      requires Served(coordinator.origin, coordinator.trace, |before|, calls, cuts)
      requires Vouches(World(), c1, first) && Vouches(World(), c2, second)
      ensures Agrees(before, calls, c1, first, c2, second)
    {
      var w, events, key := coordinator.origin, coordinator.trace, RecordKey(KeyOfCall(c1));
      if && key == RecordKey(KeyOfCall(c2)) && OthersKeep(w, events, |before|, calls, key)
         && AtMostOne(Run(w, before), key)
      {
        assert events[..|before|] == before && events[..|events|] == events;
        HistoryKeepsBound(w, events, |before|, calls, cuts, key, |calls|);
        RunKeepsInvariant(w, events);
        AnswersCompatible(World(), key, c1, first, c2, second);
      }
    }
  }
}
