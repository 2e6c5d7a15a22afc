# Replicated Blackboard, orchestration rounds, streaming features and risk propagation

A Dafny model of four parts of the system, with proofs about every input, run or schedule.

**The replicated Blackboard.** Three SQLite stores hold committed rows, a head index and staged prepares.
`ReplicaStorage.dfy` models one store as an object changed by four transactions; `BlackboardProtocol.dfy` takes any
interleaving of such transactions on three stores as a run. `BlackboardReplica.dfy`, `BlackboardQuorum.dfy`,
`BlackboardReads.dfy` and `BlackboardCoordinator.dfy` model replicas, vote counting, quorum reads, writes and operator
repair. Whatever other coordinators, operators and faults do between two steps of a coordinator is a parameter of the
operation: a schedule of foreign transactions and health changes. A ghost trace records every transaction, so what one
call promises is a statement about a run. `ActionHistory.dfy`, `ActionLedger.dfy` and `ActionCommit.dfy` build the
write-once action ledger on top, and `ActionClients.dfy` any sequence of calls to it;
`CommittedView.dfy` is the bounded listing of quorum-held rows.

**The orchestrator round.** `OrchestrationRequest.dfy`, `OrchestrationRound.dfy`, `OrchestrationSchedule.dfy` and
`OrchestrationCoordinator.dfy` model authenticated two-of-three rounds against arbitrary messages and arrival orders.
`BoundedDict.dfy` is the insertion-ordered dictionary behind both the replay cache and the ledger cache.

**Bounded-memory streaming.** `StableOrder.dfy` and `WindowSort.dfy` (external merge sort), `ReplayMerge.dfy`
(chronological merge of three streams), `Watermark.dfy`, `WindowManagers.dfy` and `ModalityManagers.dfy` (event-time
windows), `DenseFill.dfy` (presence bitmap and dense rectangle), `OnlineStats.dfy` (running moments),
`EventBroker.dfy` (event delivery with lag flags).

**Risk propagation.** `Propagation.dfy`, `DeviceModel.dfy` and `DeviceProperties.dfy`: the queue-based search with hop
decay, hop bound and cutoff equals a maximum over shortest protected paths.

Code that updates objects in place is modelled by classes and loops proved against specification functions on values;
the protocol, canonicalisation and ordering results are lemmas about those functions.

## Assumptions

- SHA-256 digests, content hashes and message authentication codes are ideal: equal digests mean equal contents, and
  the twelve hexadecimal digits kept in a record id do not collide.
- A SQLite transaction is atomic, and persisted bytes come back as written.
- `quorum_size` is 2 and there are three replicas.
- Operation ids are fresh and belong to one operation.
- Reals stand for floating-point numbers.
- Python's unbounded integers are Dafny's integers; floor division with a positive divisor is Dafny's division.

## Where code and documentation differ

- The lateness bound described in `datasets/datasense/ordering.py` does not hold for every event: one that is snapped
  into window 0 can close the window of an event within the lateness. `Watermark.WithinLatenessIff` gives the exact
  condition, `Watermark.SnappedEventBreaksTheBound` a concrete case.
- `OnlineStats` says it reports population variance but divides by n - 1; see `OnlineStats.SampleIsPopulationIff`
  and `OnlineStats.TwoValuesDiffer`.
- The listing promises an honest truncation flag; that needs an effective chunk within the query cap of 10 000 rows,
  see `CommittedView.Scan` and `CommittedView.ClampedScanMissesARow`.
- A version below a COMMITTED one need not have a quorum of its own; see `BlackboardProtocol.PredecessorMayLackQuorum`,
  and `BlackboardProtocol.PredecessorHasQuorum` for when it has one.
- A vote's reason code says it matched the voter's own policy, but a vote approves whatever proposal it is handed; see
  `OrchestrationSchedule.OrchestratorReplica.Vote`.

## Model

| member | source | states |
|---|---|---|
| `BlackboardContracts.LabelInjective` | blackboard/contracts.py:139-141 | The readable part of a record id determines key and version, because a well-shaped key holds no hash sign. |
| `BlackboardContracts.RecordIdDeterminesRecord` | blackboard/contracts.py:306-338 | Two records that pass integrity verification and share an id are one record. |
| `ReplicaStorage.ReplicaDatabase.Prepare` | blackboard/storage.py:264-356 | Stale exactly at or below the head, ahead exactly beyond head + 1, both leaving the tables alone; one above the head a free or identical slot is staged afresh, another record's staging is a conflict while its lease lasts and is taken over once it has run out; the answer carries the head. |
| `ReplicaStorage.ReplicaDatabase.Promote` | blackboard/storage.py:358-419 | A promotion happens exactly if this operation has this record id staged; it moves the staged row into the committed table, sets the head and deletes the staging, and a refusal changes nothing. |
| `ReplicaStorage.ReplicaDatabase.Abort` | blackboard/storage.py:421-441 | The staging of the slot goes exactly if it is there and is the named operation's, or no operation is named; nothing else changes. |
| `ReplicaStorage.ReplicaDatabase.Upsert` | blackboard/storage.py:443-509 | A sound external row is inserted exactly at head + 1 and clears the staging of its slot; an identical row is a no-op, anything else is refused without a change. |
| `ReplicaStorage.ReplicaDatabase.CommittedRow` | blackboard/storage.py:181-199 | A versioned lookup reads the slot; a lookup without version reads the row with the highest version. |
| `ReplicaStorage.ApplyTxKeepsInvariant` | blackboard/storage.py:264-509 | Every transaction keeps the store invariant, never changes or removes a committed row and never lowers a head. |
| `ReplicaStorage.HistoryShape` | blackboard/storage.py:192-199 | After any transactions whatever the committed versions of a key are exactly 1..head, anything staged sits at head + 1, and the head row agrees with the head index. |
| `ReplicaStorage.HeadRowAgrees` | blackboard/storage.py:192-199 | In a sound store the row with the highest version is the row the head index points at. |
| `ReplicaStorage.DeadRefusals` | blackboard/storage.py:358-509 | In no reachable store does a promotion meet the non-forward refusal, nor any insert the unique record-id index. |
| `ReplicaStorage.FreshSlotIsUnique` | blackboard/storage.py:409-419 | A sound record of an empty slot cannot collide with a record id already committed. |
| `BlackboardProtocol.RunKeepsInvariant` | blackboard/coordinator.py:25-28 | Every interleaving of the replicas' transactions keeps all three stores sound, and only adds rows. |
| `BlackboardProtocol.PrefixEvolves` | blackboard/coordinator.py:25-28 | Between any two moments of a run committed rows persist and heads do not go down. |
| `BlackboardProtocol.QuorumPersists` | blackboard/coordinator.py:25-28 | A record two replicas hold stays held by two replicas. |
| `BlackboardProtocol.QuorumUnique` | blackboard/coordinator.py:85-129 | Two records held by two replicas each at one key and version are one record. |
| `BlackboardProtocol.PromotionHolds` | blackboard/storage.py:368-419 | A promotion under the verified record's id leaves exactly that record committed, whatever was handed to prepare. |
| `BlackboardProtocol.CommittedIsHeld` | blackboard/coordinator.py:358-531 | A write reported COMMITTED is held by two replicas from then on. |
| `BlackboardProtocol.Agreement` | blackboard/coordinator.py:358-531 | In every interleaving of any number of coordinators, outages, takeovers and repairs, two COMMITTED writes of one key and version carry the same record. |
| `BlackboardProtocol.PredecessorMayLackQuorum` | blackboard/storage.py:285-296 | For any two first versions and any second version there is a run that commits the second on two replicas while no first version is held by two. |
| `BlackboardProtocol.PredecessorHasQuorum` | blackboard/storage.py:285-296 | The version below a COMMITTED one is held by two replicas whenever every promotion and repair of its slot in the run carries one record. |
| `Replica.BlackboardReplica.Prepare` | blackboard/replica.py:248-380 | The acknowledgement and the store after a prepare, for every health, fault, interception and staging answer. |
| `Replica.BlackboardReplica.Commit` | blackboard/replica.py:382-445 | The acknowledgement and the store after a commit order. |
| `Replica.BlackboardReplica.Abort` | blackboard/replica.py:447-505 | The acknowledgement and the store after an abort order. |
| `Replica.BlackboardReplica.UpsertExternal` | blackboard/replica.py:514-584 | The acknowledgement and the store after a repair insert. |
| `Replica.PrepareAnswered` | blackboard/replica.py:248-380 | A prepare is answered UNAVAILABLE exactly when the replica is down or unreachable; a malformed, tampered or unfit record is rejected before the store; otherwise stale, ahead, conflict or granted follow from head and lease, and only a grant changes the store, namely stages this record. |
| `Replica.CommitAnswered` | blackboard/replica.py:382-445 | A commit is acknowledged exactly if the replica answers and this operation has this record staged; then the row is promoted, otherwise nothing changes. |
| `Replica.AbortAnswered` | blackboard/replica.py:447-505 | An abort that gets through is acknowledged and removes this operation's staging of the slot and nothing else. |
| `Replica.UpsertAnswered` | blackboard/replica.py:514-584 | A repair insert is acknowledged exactly if the replica answers and the sound record is there already or is the next version; a refusal is a conflict. |
| `Replica.BlackboardReplica.MarkDiverged` | blackboard/replica.py:193-196 | Whatever the health was, even unavailable, it becomes diverged. |
| `Replica.BlackboardReplica.ClearDivergence` | blackboard/replica.py:198-201 | Only a diverged replica becomes healthy. |
| `Quorum.EvaluateQuorum` | blackboard/coordinator.py:85-129 | The quorum is met exactly when some identity has enough prepared supporters; compatible and dissenting indices are the supporters and the other prepared ones. |
| `Quorum.WinnerIsUnique` | blackboard/coordinator.py:85-129 | With fewer than twice the required acknowledgements at most one identity can win, so the tie rule is never used. |
| `Quorum.ClassifyTotalRejection` | blackboard/coordinator.py:533-577 | Exactly when a rejection is reported stale, conflicting or schema: every replica that answered gave that answer. |
| `Quorum.DecideRead` | blackboard/coordinator.py:645-814 | From three observations: the outcome, the record, the supporting and the divergent replicas of a quorum read; disagreement without a majority is reported against a largest group. |
| `Reads.AuthoritativeIsHeld` | blackboard/coordinator.py:645-814 | An authoritative record answers the request and is committed on two replicas, although the three were observed at different moments. |
| `Reads.ReadRespectsCommit` | blackboard/coordinator.py:645-814 | A record two replicas held when the read began is never reported missing; a versioned read returns exactly it, a latest read nothing older. |
| `Reads.ReadAfterCommit` | blackboard/coordinator.py:637-814 | After COMMITTED, a read of that version returns that record, and a read of the latest returns it or a later version; neither is NOT_FOUND. |
| `Reads.ReadsNeverGoBack` | blackboard/coordinator.py:637-814 | After one authoritative latest read, a later one is not NOT_FOUND and reports no lower version. |
| `Reads.NotFoundSawTwoEmpty` | blackboard/coordinator.py:725-744 | NOT_FOUND means two distinct replicas had nothing to show at some moment of the read. |
| `Reads.AgreementReadsConsistent` | blackboard/coordinator.py:775-783 | Three responses with one record give CONSISTENT with that record. |
| `Reads.ReadFacts` | blackboard/coordinator.py:645-814 | All of the above for a read inside any run, against every record committed before it began. |
| `Coordinator.BlackboardCoordinator.Propose` | blackboard/coordinator.py:283-531 | COMMITTED means at least two replicas gained the row in this operation, PARTIAL_COMMIT exactly one, anything else none. With nothing happening in between, replica by replica: every receptive one grants; once two are receptive each of those gains the row unless its own commit fails, whatever the third is; with fewer nobody gains it; a replica that missed its commit is marked diverged and no other health changes; no reliable replica keeps a staging. Unhindered, COMMITTED exactly when two are receptive, and stale, schema and conflict exactly when all available replicas say so. |
| `Coordinator.BlackboardCoordinator.PreparePhase` | blackboard/coordinator.py:375-380 | Each replica is asked on its own: a receptive one grants and holds the staging, whatever the others are, and one that does not grant stays as it was; whoever acknowledged stood exactly one version below. |
| `Coordinator.BlackboardCoordinator.CommitPhase` | blackboard/coordinator.py:432-468 | Exactly the prepared winners are told to commit and the other prepared replicas to abort; a primed winner promotes exactly if its commit meets no fault, and exactly those that fail are marked diverged. |
| `Coordinator.BlackboardCoordinator.AbortWhere` | blackboard/coordinator.py:579-614 | Exactly the replicas with (or, in the other mode, without) a prepared acknowledgement naming a record are told to abort, an abort is acknowledged exactly by a replica that is up and meets no fault, and nobody gains a row or changes health. |
| `Coordinator.BlackboardCoordinator.Finish` | blackboard/coordinator.py:429-531 | A write that reached its quorum: exact outcome, cleared staging, and the promotions two replicas acknowledged. |
| `Coordinator.BlackboardCoordinator.Conclude` | blackboard/coordinator.py:382-531 | A round of prepares is ended as a commit, an abort or a total rejection, each with the exact outcome. |
| `Coordinator.BlackboardCoordinator.Abandon` | blackboard/coordinator.py:404-427 | A write without quorum gains no row anywhere, ends as FAILED_QUORUM, and clears what acknowledges the abort. |
| `Coordinator.SettlementDelivers` | blackboard/coordinator.py:375-531 | From the grants to the outcome: two receptive replicas make the write COMMITTED unless a commit fails, whatever the third replica is. |
| `Coordinator.GrantsAreQuorum` | blackboard/coordinator.py:85-129 | Two grants of one record are a quorum, and the winning group takes in every grant of it. |
| `Coordinator.RefusalIsClassified` | blackboard/coordinator.py:533-577 | An unhindered write is refused as stale, malformed or conflicting exactly when every replica that answers has the version, is further behind, or holds the slot for another record under a live lease. |
| `Coordinator.FinishLeavesNothing` | blackboard/coordinator.py:429-476 | After a write that reached its quorum no replica that is up and meets no fault keeps a staging of it. |
| `Coordinator.CommitCounts` | blackboard/coordinator.py:486-520 | The durable acknowledgements counted by the coordinator are exactly the replicas that gained the row. |
| `Coordinator.CommitClears` | blackboard/coordinator.py:432-476 | An acknowledged commit or abort leaves no staging of the operation behind, with pass-through hooks. |
| `Coordinator.CommitSettles` | blackboard/replica.py:382-445 | A commit order promotes exactly the staged record of this operation or changes nothing; it is acknowledged exactly if the replica is up, meets no fault and has it staged. |
| `Coordinator.PrepareStages` | blackboard/replica.py:248-380 | A prepare stages under this operation exactly when it acknowledges, one version above the head, and commits nothing. |
| `Coordinator.ForeignRunQuiet` | blackboard/coordinator.py:25-28 | Transactions of other operations neither add rows under this operation nor stage for it. |
| `Coordinator.BlackboardCoordinator.Observe` | blackboard/coordinator.py:816-859 | A replica that is up answers with its committed row of the request, otherwise it does not respond. |
| `Coordinator.BlackboardCoordinator.Read` | blackboard/coordinator.py:645-814 | A result carries a record exactly when authoritative; it is grounded in two replicas, respects every earlier commit, and reports NOT_FOUND only after two empty replicas were seen. With nothing happening in between, latest or versioned: the record is r exactly when two replicas answer with r, CONSISTENT exactly when all three do, DEGRADED_CONSISTENT otherwise; NOT_FOUND, UNAVAILABLE and INSUFFICIENT_QUORUM exactly by who answers; and exactly the replicas that answered a degraded read otherwise are marked diverged. |
| `Coordinator.BlackboardCoordinator.HeadVersionHint` | blackboard/coordinator.py:1004-1015 | The head of the first replica that is up, 0 when none is: the hint that the retry loop starts from. |
| `Coordinator.HintIsFirstHead` | blackboard/coordinator.py:1004-1015 | The hint is the head of whichever replica is the first that is up, and 0 when none is. |
| `Coordinator.BlackboardCoordinator.ReadInternalMajority` | blackboard/coordinator.py:964-982 | What repair takes for the majority head is a sound record of the key held by two replicas; with nothing happening in between it is r exactly when two replicas answer with r at the head. |
| `Coordinator.ReadReflects` | blackboard/coordinator.py:694-814 | With nothing happening between the observations, every read outcome, the record and the divergent replicas are determined by what the replicas show. |
| `Coordinator.MajorityIsRead` | blackboard/coordinator.py:746-808 | Grouping by version and content hash returns a record exactly when two replicas answer with it, latest or versioned. |
| `Coordinator.BlackboardCoordinator.Resync` | blackboard/coordinator.py:865-962 | Repair issues nothing but inserts of one majority-held record; if every replica reports REPAIRED with nothing else touching the key, all three heads are that record. With nothing in between, target by target and whatever the others are: reported repaired exactly if up, unfailing and at or right below the record, and then its head is the record and its divergence is cleared; preserved and marked exactly if its head is beyond the record; otherwise untouched. |
| `Coordinator.BlackboardCoordinator.RepairOne` | blackboard/coordinator.py:904-947 | One target: with nothing in between its status, store and health afterwards follow from its store and health before; the other replicas are untouched. |
| `Coordinator.BlackboardCoordinator.Judge` | blackboard/coordinator.py:913-947 | REPAIRED exactly when the insert was acknowledged and the head re-read is the record, then divergence is cleared; a preserved divergent head exactly when the head is later, then it is marked; otherwise no health changes. |
| `Coordinator.AlignedReadsConsistent` | blackboard/coordinator.py:865-962 | When all three replicas answer and their heads are one record, the latest read is CONSISTENT on it. |
| `Coordinator.UpsertMends` | blackboard/storage.py:443-509 | A repair insert mends exactly a replica that is up, meets no fault and has the record at its head or right above it; otherwise nothing changes. |
| `Coordinator.RepairKeepsHeads` | blackboard/coordinator.py:865-962 | With nothing else touching the key, repairing one replica disturbs no replica whose head already is the record. |
| `ActionHistory.VersionIsOne` | backend/app/services/blackboard_service.py:342-381 | A write that starts with two empty replicas and gains a row anywhere is a write of version 1. |
| `ActionHistory.NotFoundLeavesEmptyPair` | agentic_workflow/blackboard_ledger.py:50-110 | After a read that found nothing two replicas are still empty, if others only repair what two replicas hold. |
| `ActionHistory.AttemptKeepsKey` | backend/app/services/blackboard_service.py:342-381 | One write attempt leaves every head of the key at most 1, and the pair empty if it gained nothing. |
| `ActionHistory.RepairStep` | blackboard/coordinator.py:865-962 | A repair can neither fill an empty pair of replicas nor raise the key above version 1. |
| `ActionHistory.BackedIsUnique` | agentic_workflow/blackboard_ledger.py:112-171 | Within version 1 at most one decision of a key is held by two replicas. |
| `ActionHistory.PutIsSafe` | agentic_workflow/blackboard_ledger.py:112-171 | Read-before-write under the commit lock keeps the key within version 1, whatever the attempts returned. |
| `ActionLedger.BlackboardService.ProposeNextVersion` | backend/app/services/blackboard_service.py:342-381 | At most five attempts at the hinted head + 1, stopping at the first answer other than stale or when the hint fails; every transaction on the run is an attempt's own or happens around one; COMMITTED means two replicas hold the payload, any other answer that no attempt was gained by two; and the key stays safe through every retry. |
| `ActionLedger.BlackboardService.Attempt` | backend/app/services/blackboard_service.py:357-380 | One attempt writes the payload at the hinted head + 1 with the exact outcome of a write; admitted and unhindered it is COMMITTED exactly when two replicas are ready for it. |
| `ActionLedger.BlackboardActionLedger.Get` | agentic_workflow/blackboard_ledger.py:50-110 | A cached decision is returned as it is. Past the cache a found decision is bound to the key and held by two replicas, and absent means two replicas were seen empty; with nothing happening in between, found exactly the fitting decision two replicas answer with at the head, absent exactly when nobody who answers has anything, unreadable otherwise. |
| `ActionLedger.BlackboardActionLedger.Put` | agentic_workflow/blackboard_ledger.py:112-171 | A success is held by two replicas and has the requested action and recommendation, a conflict has a different decision held by two replicas. A cached decision, or past the cache the one two replicas answer with, is returned to the same action and recommendation and refused to any other; without one there is no conflict. A failure means no attempt was gained by two replicas. Its stretch of the run keeps the key within version 1; on a fresh key with two responsive replicas the decision is stored. |
| `ActionCommit.ActionCommitter.Check` | agentic_workflow/action_commit.py:93-104 | A cached decision, or with nothing happening in between the fitting one two replicas answer with, settles the commit: same action and recommendation is success, anything else a conflict; it goes on exactly when nobody has anything; a success is remembered. |
| `ActionCommit.ActionCommitter.Commit` | agentic_workflow/action_commit.py:66-152 | Bindings are refused first; a success carries the recommendation, is held by two replicas and is remembered; a conflict has a different held decision. Idempotent: while a decision is cached, or held at the head and read undisturbed, committing the same action and recommendation again returns it and any other is a conflict. Anything but success means no attempt was gained by two replicas. On an untouched key an unopposed commit returns the new decision. |
| `ActionLedger.InterpretedLooksUp` | agentic_workflow/blackboard_ledger.py:78-110 | A read that reflects the replicas is interpreted as found, absent or unreadable exactly by the decision two of them show. |
| `ActionLedger.OneMoreUnwon` | agentic_workflow/blackboard_ledger.py:140-160 | An attempt that is not COMMITTED leaves no attempt so far gained by two replicas. |
| `ActionClients.HandledKeeps` | agentic_workflow/blackboard_ledger.py:112-171 | One lookup, put or commit keeps every key within version 1, if everyone else's transactions keep it. |
| `ActionClients.HistoryKeepsBound` | agentic_workflow/blackboard_ledger.py:112-171 | So does any sequence of them, at every position between two calls. |
| `ActionClients.WriteOnce` | agentic_workflow/blackboard_ledger.py:112-171 | In any run of calls, two decisions of one key ever held by two replicas, at any two moments, are one decision, as long as others' transactions keep the key. |
| `ActionClients.AnswersCompatible` | agentic_workflow/action_commit.py:93-152 | Once a decision was handed out, another answer for the key hands out the same one, and refuses only what it does not suit. |
| `ActionClients.ActionClients.Serve` | agentic_workflow/blackboard_ledger.py:50-171 | Any lookups, puts and commits through any ledgers on one coordinator: all decisions found, stored or committed under one key are equal and held by two replicas, across eviction, partial commits, outages and retries; the run is exactly these calls' stretches. |
| `ActionClients.ActionClients.Handle` | agentic_workflow/blackboard_ledger.py:50-171 | One lookup, put or commit through any ledger: the decision that stands under its key, cached or answered by two replicas, is handed to a call it suits and refused to any other. |
| `BoundedDict.TouchKeeps` | agentic_workflow/blackboard_ledger.py:64-69 | Moving an entry to the young end takes it out of its place and puts it last, with every other entry in order and nothing else changed. |
| `BoundedDict.EvictKeeps` | agentic_workflow/blackboard_ledger.py:98-101 | Eviction keeps exactly the youngest entries up to the limit, with their values. |
| `BoundedDict.StoreKeeps` | agentic_workflow/blackboard_ledger.py:167-170 | A stored entry is present with its value and every other entry is an old one; overwriting keeps its place, a new one comes last, and only the oldest goes when the limit is exceeded. |
| `BoundedDict.BoundedCache.Touch` | agentic_workflow/blackboard_ledger.py:64-69 | The reordering in place is the specified one. |
| `BoundedDict.BoundedCache.Store` | orchestration/coordinator.py:45-55 | Insert-then-evict in place equals the specified store. |
| `OrchestrationRequest.SortedIsUnique` | orchestration/hashing.py:27-32 | Routes with distinct ids have one arrangement by id. |
| `OrchestrationRequest.DigestIsCanonical` | orchestration/hashing.py:27-32 | Two valid requests have one digest exactly when they differ at most in the order of their routes. |
| `OrchestrationRequest.Choose` | orchestration/policy.py:23-25 | The chosen route is a declared one, least by priority and then by id. |
| `OrchestrationRequest.ChosenIsLeast` | orchestration/policy.py:23-25 | No declared route has a lower priority number than the chosen one, and none of the same number an earlier id. |
| `OrchestrationRequest.ChoiceIgnoresOrder` | orchestration/policy.py:23-25 | Permuting the candidate routes does not change the choice. |
| `OrchestrationRound.ReceiveKeepsInvariant` | orchestration/coordinator.py:126-229 | One message, however malformed or forged, keeps the round sound and never changes a latched quorum. |
| `OrchestrationRound.RoundSafety` | orchestration/coordinator.py:126-233 | Every message sequence keeps the round sound and the quorum latched. |
| `OrchestrationRound.ClosedRoundIsFinal` | orchestration/coordinator.py:126-233 | After close no message changes anything. |
| `OrchestrationRound.OneWinner` | orchestration/coordinator.py:220-228 | At most one digest ever has two approvals. |
| `OrchestrationRound.MoreVotesKeepWinner` | orchestration/coordinator.py:218-228 | Another sender's vote cannot change the winner. |
| `OrchestrationRound.QuorumWasProposed` | orchestration/coordinator.py:239-246 | The latched digest is the digest of an accepted proposal, and all proposals with it name one route, so the lookup in the decision cannot fail. |
| `OrchestrationRound.DecisionRound.ObserveMessage` | orchestration/coordinator.py:45-55 | The replay cache classifies a message as new, duplicate or conflicting and remembers it. |
| `OrchestrationRound.DecisionRound.AcceptProposalMessage` | orchestration/coordinator.py:126-177 | State and reply after a proposal message are those of the transition function, for every fault and replay. |
| `OrchestrationRound.DecisionRound.AcceptVoteMessage` | orchestration/coordinator.py:179-229 | State and reply after a vote message, including the latch. |
| `OrchestrationRound.ProposalAccepted` | orchestration/coordinator.py:126-177 | A proposal is accepted exactly if the round is open, its own sender made hash and tag over its body, it concerns this request, names a declared route and carries that route's digest, its id is new and its sender has not proposed; duplicates, forgeries and conflicts are told apart, and only an acceptance adds it. |
| `OrchestrationRound.VoteAccepted` | orchestration/coordinator.py:179-229 | The same for a vote on a digest somebody proposed; a latched quorum stays. |
| `OrchestrationRound.AuthenticVerifies` | orchestration/authentication.py:48-64 | Verification passes exactly for a registered sender's own hash and tag over the body, and each failure says which of these is wrong. |
| `OrchestrationRound.DecisionRound.CloseRound` | orchestration/coordinator.py:231-233 | Closing sets the terminal flag only. |
| `OrchestrationRound.Tally` | orchestration/coordinator.py:220-228 | The counting loop finds a digest with two approvals exactly when there is one. |
| `OrchestrationRound.DecisionRound.BuildDecision` | orchestration/coordinator.py:235-332 | DECIDED names a declared route, the quorum digest of this very request and two distinct verified approvers; supporters and disagreeing senders partition the voters; otherwise the reason fits. |
| `OrchestrationSchedule.OrchestratorReplica.Propose` | orchestration/replica.py:83-136 | An available orchestrator, and no other, proposes a declared route that is least by priority and id, in a message every round of the request accepts, under the next sequence number. |
| `OrchestrationSchedule.OrchestratorReplica.Vote` | orchestration/replica.py:138-186 | An available orchestrator, and no other, approves the digest of whatever proposal it is handed, in a message that is genuine for the request, under the next sequence number. |
| `OrchestrationSchedule.HonestAgree` | orchestration/replica.py:83-186 | Two default-policy orchestrators propose and approve the same digest however their candidates are ordered. |
| `OrchestrationSchedule.ObserveKeeps` | orchestration/coordinator.py:45-55 | The replay cache reports a message new exactly when its id is not remembered, and never alters another entry. |
| `OrchestrationSchedule.QuorumOnLeastRoute` | orchestration/coordinator.py:413-456 | When both honest orchestrators' proposals and votes are heard, the quorum is on the least route under every order and whatever the third sends. |
| `OrchestrationSchedule.QuorumNeedsHonest` | orchestration/coordinator.py:413-456 | With two honest orchestrators no other digest can ever reach a quorum. |
| `OrchestrationCoordinator.Adjudication.Consume` | orchestration/coordinator.py:524-563 | One completed call: its message is delivered only in the phase it belongs to, an accepted proposal leads to a vote, everything else ends the part. |
| `OrchestrationCoordinator.OneIsConsumed` | orchestration/coordinator.py:524-563 | An admissible new proposal is taken and asks its part for a vote, a votable new vote is counted and ends the part, anything else a working part comes back with ends it, and no other part moves. |
| `OrchestrationCoordinator.Adjudication.ConsumeAll` | orchestration/coordinator.py:426-457 | A batch of completions is consumed one by one in order, stopping only at a quorum, when no part is pending, or at the end; phases, round and deliveries are exactly those. |
| `OrchestrationCoordinator.Adjudication.Adjudicate` | orchestration/coordinator.py:394-498 | The round ends closed with a decision justified by exactly what the arrivals lead to; whenever two default-policy orchestrators complete proposal and vote in time, it is DECIDED on the least route, whatever the third part completes with. |
| `OrchestrationCoordinator.LoopIsEvery` | orchestration/coordinator.py:426-457 | Stopping early loses nothing but work after a quorum: otherwise the loop has the effect of consuming every completion. |
| `OrchestrationCoordinator.InTimeDecides` | orchestration/coordinator.py:413-456 | From the arrivals to the decision: two orchestrators heard in time decide the round on the least route under every arrival order and candidate order. |
| `OrchestrationCoordinator.RelayedProposalSilences` | orchestration/coordinator.py:547-563 | A proposal another part relayed first is a duplicate when its author sends it, so the author is never asked to vote. |
| `OrchestrationCoordinator.OutcomeIgnoresSchedule` | orchestration/coordinator.py:394-498 | With two honest orchestrators every decision made is the least route; if both were heard the outcome is DECIDED. |
| `Propagation.Spread` | simulation/abm.py:134-168 | One breadth-first search raises every device to the maximum of its old value and the source's contribution at shortest distance. |
| `Propagation.LevelClosedForm` | simulation/abm.py:150-163 | After d hops the pushed risk is risk * weight^d * decay^(d(d+1)/2). |
| `Propagation.AliveIsAboveCutoff` | simulation/abm.py:150-163 | For weight and decay in [0,1] the search's hop-by-hop cutoff test is the same as testing the final level. |
| `Propagation.SearchIsComplete` | simulation/abm.py:134-168 | When the queue is empty every device due a contribution has been visited at its shortest distance. |
| `DeviceModel.DeviceABM.ApplyNetworkEvidence` | simulation/abm.py:103-111 | Evidence about a known device replaces its network risk and may mark a protected one compromised; nothing else changes. |
| `DeviceModel.DeviceABM.ApplyBehaviorEvidence` | simulation/abm.py:113-124 | Only devices with behaviour support take a behaviour score. |
| `DeviceModel.DeviceABM.Propagate` | simulation/abm.py:126-179 | Every device's propagated risk is the greatest contribution of the protected sources; its systemic risk is at least that and at least each evidence present, equals one of these, and is the propagated risk when there is none; evidence is never overwritten. |
| `DeviceProperties.ContributionClosedForm` | simulation/abm.py:134-168 | At shortest protected distance d a source contributes risk * weight^d * decay^(d(d+1)/2) if within the hop bound and above the cutoff, else nothing. |
| `DeviceProperties.UnreachedGetsNothing` | simulation/abm.py:134-168 | A source gives nothing to itself or to a device no protected path reaches. |
| `DeviceProperties.PropagationIsDetermined` | simulation/abm.py:126-179 | The result does not depend on neighbour order, dictionary order or earlier propagated values. |
| `DeviceProperties.PropagationIsIdempotent` | simulation/abm.py:126-179 | Propagating twice is propagating once. |
| `DeviceProperties.PropagationIsMonotone` | simulation/abm.py:126-179 | More direct risk anywhere means no less propagated and systemic risk everywhere. |
| `DeviceProperties.PropagationIsBounded` | simulation/abm.py:126-179 | Propagated risk never exceeds the direct risk of some source. |
| `DeviceProperties.BlastRadiusMonotone` | simulation/abm.py:181-190 | More direct risk means no smaller defended blast radius. |
| `DeviceProperties.BlastRadiusCounts` | simulation/abm.py:181-190 | The radius depends on the defended devices alone and counts each with its whole risk times criticality. |
| `DeviceModel.SourceRisk` | simulation/abm.py:134-143 | The spreadable risk is at least each evidence present and equals one of them, or 0. |
| `StableOrder.StableSortUnique` | datasets/datasense/window_sort.py:96-152 | An ascending sequence that keeps each window's rows in order is unique. |
| `StableOrder.StableSortIsPermutation` | datasets/datasense/window_sort.py:96-152 | Keeping each window's rows makes the result a permutation. |
| `StableOrder.SortByWindowSorts` | datasets/datasense/window_sort.py:82-93 | The reference sort is ascending and stable. |
| `StableOrder.MergeSorts` | datasets/datasense/window_sort.py:126-146 | Merging ascending runs, earlier run first on ties, is ascending and keeps each window's rows in run order. |
| `WindowSort.WindowSorter.Add` | datasets/datasense/window_sort.py:69-93 | A row is remembered; full buffers become ascending runs that still hold every row in order. |
| `WindowSort.WindowSorter.Spill` | datasets/datasense/window_sort.py:82-93 | A non-empty buffer becomes exactly one more run. |
| `WindowSort.WindowSorter.MergeGroup` | datasets/datasense/window_sort.py:126-131 | A group of at most fan-in runs becomes one ascending run with the same rows. |
| `WindowSort.WindowSorter.MergePass` | datasets/datasense/window_sort.py:117-137 | One pass keeps the rows, never opens more than fan-in readers, and leaves ceil(runs / fan-in) runs. |
| `WindowSort.WindowSorter.ReduceRuns` | datasets/datasense/window_sort.py:114-140 | Merging stops at the least number p of passes with ceil(chunks / fan_in^p) <= fan_in. |
| `WindowSort.WindowSorter.IterSorted` | datasets/datasense/window_sort.py:96-152 | The rows come out as the stable sort of what was added, with at most fan-in open readers and the least number of passes; a second call fails. |
| `ReplayMerge.Peeker.HasNext` | simulation/replay.py:80-87 | Looking ahead consumes nothing and holds the next row. |
| `ReplayMerge.Peeker.NextRow` | simulation/replay.py:93-98 | The next row, and the rest stays. |
| `ReplayMerge.Drain` | simulation/replay.py:414-418 | Exactly the leading rows of the window are taken. |
| `ReplayMerge.ReplayRunner.Run` | simulation/replay.py:200-242 | The loop drains all three streams, visits them as the reference replay does, and never meets the ordering error. |
| `ReplayMerge.ReplayIsChronological` | simulation/replay.py:219-242 | Window ids are visited in strictly ascending order, exactly the union of the three streams', each row once in its own window. |
| `ReplayMerge.ReplayOfRecords` | simulation/replay.py:147-242 | The same for unsorted records sorted per stream first. |
| `Watermark.WindowContains` | datasets/datasense/windowing.py:83-115 | An event that is not snapped lies within the bounds of its window. |
| `Watermark.AssignCases` | datasets/datasense/windowing.py:86-110 | In the grid exactly from the start on, snapped to window 0 exactly within the tolerance before it, negative exactly before that. |
| `Watermark.AssignMonotone` | datasets/datasense/windowing.py:86-110 | Later events never get earlier windows, snapping included. |
| `Watermark.WatermarkTracker.EnsureAcceptable` | datasets/datasense/ordering.py:39-46 | A window is refused exactly when it is below the floor. |
| `Watermark.WatermarkTracker.Observe` | datasets/datasense/ordering.py:48-65 | The tracker after an event is the specified one, and the answer says whether the floor moved. |
| `Watermark.WatermarkTracker.DueWindows` | datasets/datasense/ordering.py:67-77 | The range below the floor is handed out once. |
| `Watermark.RunKeepsTracker` | datasets/datasense/ordering.py:26-77 | In every run the floor is the greatest window minus the lateness in windows, and only rises. |
| `Watermark.WithinLatenessIff` | datasets/datasense/ordering.py:32-65 | All events at most L behind the newest timestamp are accepted if and only if the newest is at or after the start, or too early to be snapped, or L before it is still snapped, or L before it is at most K windows before the start. |
| `Watermark.WithinLatenessIsAccepted` | datasets/datasense/ordering.py:32-65 | Once the newest timestamp is at or after the scenario start, every event within the lateness is accepted. |
| `Watermark.FarBehindIsRefused` | datasets/datasense/ordering.py:32-46 | An in-grid event more than the lateness in windows plus one behind is refused. |
| `Watermark.SnappedEventBreaksTheBound` | datasets/datasense/windowing.py:86-110 | A concrete snapped event before the start makes an event within the lateness refused. |
| `WindowManagers.RowsAddUp` | datasets/datasense/behavior_features.py:392-395 | Counts that match a log of contributions sum to its length. |
| `WindowManagers.CloseKeepsBooks` | datasets/datasense/behavior_features.py:278-286 | Finalizing takes out exactly the open windows below the floor, emits rows never emitted before and keeps live and emitted counts equal to the log. |
| `WindowManagers.WindowTable.Admit` | datasets/datasense/ordering.py:39-65 | An accepted event's window has not been emitted; a late one changes nothing. |
| `WindowManagers.WindowTable.FinalizeDue` | datasets/datasense/behavior_features.py:278-286 | Exactly the open windows below the floor leave the table as rows with what they hold; emitted rows are new, and each (window, entity) row is emitted at most once. |
| `WindowManagers.WindowTable.Finish` | datasets/datasense/behavior_features.py:392-395 | After finish nothing is live, the emitted counts are exactly the contributions, and they sum to their number. |
| `ModalityManagers.Participants` | datasets/datasense/network_features.py:303-322 | The participants are exactly the known MAC endpoints, or when neither is known the known IP endpoints, source first, each once. |
| `ModalityManagers.NetworkWindowManager.AddPacket` | datasets/datasense/network_features.py:258-322 | A packet is refused exactly when late, and otherwise counted once for each participating device in its window; then exactly the windows below the new floor are emitted and leave the table. |
| `ModalityManagers.BehaviorWindowManager.AddEvent` | datasets/datasense/behavior_features.py:237-276 | An event of a known device is refused exactly when late, and otherwise counted once; then exactly the windows below the new floor are emitted and leave the table; other events change nothing. |
| `ModalityManagers.CommunicationWindowManager.AddPacket` | datasets/datasense/communication.py:242-297 | A packet is counted once on its edge, refused when late, and fails for capacity exactly when it needs a new edge in a full table; then exactly the windows below the new floor are emitted and leave the table; live edges never exceed the capacity. |
| `DenseFill.SetOneBit` | datasets/datasense/extraction.py:76-95 | Setting one bit of a byte makes that bit readable and no other. |
| `DenseFill.PresenceBitmap.Mark` | datasets/datasense/extraction.py:76-84 | Marking adds exactly one (device, window) pair, negative windows included. |
| `DenseFill.PresenceBitmap.Has` | datasets/datasense/extraction.py:86-95 | A pair is present exactly when it was marked. |
| `DenseFill.PresenceBitmap.Devices` | datasets/datasense/extraction.py:97-101 | Exactly the devices with a mark. |
| `DenseFill.MarkByte` | datasets/datasense/extraction.py:76-84 | Growing and setting the byte string adds exactly one window. |
| `DenseFill.FillRectangle` | datasets/datasense/extraction.py:218-226 | The filled rows are exactly the missing pairs of the rectangle, each once. |
| `DenseFill.ExtractNetwork` | datasets/datasense/extraction.py:178-226 | The extraction fails exactly when some packet is more than K windows behind an earlier one. Otherwise the observed counts add up, and observed and filled rows together have each device of the universe once in every window from the tracker's least window (or 0) to the greatest window of a packet (or 0). |
| `OnlineStats.UpdateIsExact` | datasets/datasense/network_features.py:145-154 | The running mean and second moment after one more value are those of the longer sequence. |
| `OnlineStats.Welford.Add` | datasets/datasense/network_features.py:145-154 | Count, mean, moment and extremes stay those of all values added. |
| `OnlineStats.MomentIsSpread` | datasets/datasense/network_features.py:145-154 | The running moment is the sum of squared distances from the mean. |
| `OnlineStats.Welford.ReportedVariance` | datasets/datasense/network_features.py:156-166 | The reported variance is the squared deviation over n - 1, or 0 for a single value, and it is the population variance exactly when all values are equal. |
| `OnlineStats.SpreadIsZeroIff` | datasets/datasense/network_features.py:145-154 | The squared deviations about a number vanish exactly when every value is that number. |
| `OnlineStats.SampleIsPopulationIff` | datasets/datasense/network_features.py:133-166 | Dividing by n - 1 gives the population variance the class comment announces if and only if all values are equal. |
| `OnlineStats.TwoValuesDiffer` | datasets/datasense/network_features.py:133-166 | For the values 0 and 2 the population variance is 1 and the reported one is 2. |
| `EventBroker.EventBroker.PublishEvent` | backend/app/services/event_broker.py:42-51 | A published event enters the ring, which forgets its oldest, and every queue of its replay that has room; a full queue keeps what it has and is flagged lagged. |
| `EventBroker.EventBroker.SubscribeTo` | backend/app/services/event_broker.py:53-68 | A subscriber starts, under a new id and unflagged, with the youngest retained events of its replay; every other subscriber stays. |
| `EventBroker.EventBroker.UnsubscribeFrom` | backend/app/services/event_broker.py:70-76 | Exactly that subscriber goes; every other stays as it is. |
| `EventBroker.EventBroker.DrainQueue` | backend/app/services/event_broker.py:78-90 | The queue and the lag flag are handed over and reset. |
| `EventBroker.ReplayController.PublishNext` | backend/app/services/replay_controller.py:229-252 | Each replay's events are numbered 0, 1, 2, ... in the order the broker gets them. |
| `EventBroker.RunKeeps` | backend/app/services/event_broker.py:42-90 | Every schedule of publishes, subscriptions and drains keeps each queue a suffix of its replay's stream from the last drain on. |
| `EventBroker.JoinerGetsBacklog` | backend/app/services/event_broker.py:53-76 | In every schedule a joiner starts with the newest events of its replay among the newest of all, and nobody else's subscription changes when somebody joins or leaves. |
| `EventBroker.NoSilentGaps` | backend/app/services/event_broker.py:78-90 | Each drain is a consecutive stretch, later drains lie later, and the next one continues seamlessly exactly when it was not flagged lagged. |
| `CommittedView.Scan` | blackboard/coordinator.py:1044-1071 | The chunked scan is the first scan_max_rows rows of the table, flagged truncated exactly when more remain, if and only if the effective chunk or the table is within the query cap; otherwise it returns the capped rows unflagged. |
| `CommittedView.ClampedScanMissesARow` | blackboard/storage.py:237 | A table of 10001 rows scanned in chunks of 20000 with room for all shows 10000 rows and no truncation. |
| `CommittedView.BuildView` | blackboard/coordinator.py:1073-1093 | The verified items are exactly the rows in the scans of two responsive replicas, ordered by key and version. |
| `CommittedView.SupportedUnique` | blackboard/coordinator.py:1073-1093 | At most one record per key and version is supported by two. |
| `CommittedView.ViewUnique` | blackboard/coordinator.py:1073-1093 | That view is determined by the scans. |
| `CommittedView.PagesConcatenate` | blackboard/coordinator.py:1092-1112 | Consecutive pages concatenate to the whole view. |
| `CommittedView.ItemsAreCommittedTwice` | blackboard/coordinator.py:1041-1094 | An item of the view is committed on two replicas, and every row within both scans of two replicas is an item. |

## Left out

- Replica health of other coordinators: their transactions may happen at any time, whatever health this coordinator has recorded.
- Phase listeners, latency samples, counters, per-replica sync maps, reason texts, divergence history and event publication around a write.
- Principals, policies, blank-input and schema gates of a write: they are one parameter telling whether the write is admitted.
- Stored rows that fail verification when read: bytes are assumed to come back as written, so that branch never arises.
- The deterministic tie rule among equally large groups: with three replicas and a quorum of two no tie reaches the quorum.
- Hash collisions, key management and canonical JSON encoding.
- The in-memory ledger of the committer, which forgets evicted decisions.
- Keys of the action ledger that are neither triples nor quadruples; identifiers, clocks and UUIDs are parameters.
- ActionLedger.BlackboardActionLedger.Put: write-once is stated for decisions bound to the key they are put under, as the committer always does; a put under a foreign key only promises its success and conflict answers.
- ActionClients.ActionClients.Serve: calls run one after another, as the commit lock makes puts do; a commit that another client's call interrupts is its lookups and its put, taken as separate calls.
- ActionCommit.ActionCommitter.Commit: evidence references, reason codes and policy fields of a decision are not modelled; they are copied unchanged.
- Quorum.EvaluateQuorum: does not say which identity is chosen among equally supported ones.
- CommittedView.Scan: does not model the key prefix filter, whose LIKE pattern treats an underscore as a wildcard, nor the count of unverified rows.
- OrchestrationCoordinator.Adjudication.Adjudicate: does not model in-flight calls left over from earlier rounds, latencies, the rejection list or the registry of active rounds; completed calls may arrive in any order and number.
- WindowSort.WindowSorter.IterSorted: yields the whole sequence at once; temporary files, their clean-up and the inversion counters are not modelled.
- ReplayMerge.ReplayRunner.Run: does not model pacing, pause and cancel, detectors, graph updates or emitted events; fused input is not modelled.
- DeviceModel.DeviceABM.Propagate: the set of devices and the topology are fixed; snapshots and digests are not modelled.
- DeviceProperties.BlastRadiusMonotone: does not model the rounding to six digits.
- WindowManagers.WindowTable.FinalizeDue: does not state the order of rows inside one finalization batch, nor any feature beyond the count.
- ModalityManagers.BehaviorWindowManager.AddEvent: does not model cross-window gaps, history pruning or diagnostics.
- DenseFill.ExtractNetwork: covers the network branch; packet decoding, communication rows and collected statistics are not modelled.
- OnlineStats.Welford.ReportedVariance: the square root taken of the variance is not modelled.
- EventBroker.EventBroker.DrainQueue: payloads are not modelled, nor the query for the oldest retained sequence number.
- Packet capture and frame decoding, model training and inference, HTTP, WebSocket and user interface.
