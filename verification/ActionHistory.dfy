/**
 Why an action key never gets past version 1: positions of one run, two empty replicas, and what other
 transactions may do to the key meanwhile.
 */
module ActionHistory {
  import opened BlackboardContracts
  import opened Wrappers
  import opened ReplicaStorage
  import opened BlackboardProtocol
  import opened Reads
  import opened Coordinator

  /** The stores after the first `n` transactions. */
  function At(w: World, events: seq<Event>, n: nat): World
    requires n <= |events|
  {
    Run(w, events[..n])
  }

  ghost predicate AtMostOne(w: World, key: string) {
    forall k: ReplicaIndex :: Head(w[k], key) <= 1
  }

  ghost predicate EmptyPair(w: World, i: ReplicaIndex, j: ReplicaIndex, key: string) {
    i != j && Head(w[i], key) == 0 && Head(w[j], key) == 0
  }

  /** The transaction leaves the key's committed rows alone, or repairs it with a record two replicas hold. */
  ghost predicate DisciplinedAt(w: World, events: seq<Event>, n: nat, key: string) {
    && n < |events|
    && (KeepsKey(events[n], key) || (events[n].tx.TxUpsert? && QuorumHolds(At(w, events, n), events[n].tx.record)))
  }

  /** As far as the key's heads go: nothing moved, or a repair. */
  ghost predicate HarmlessAt(w: World, events: seq<Event>, n: nat, key: string) {
    && n < |events|
    && ((forall k: ReplicaIndex :: Head(At(w, events, n + 1)[k], key) == Head(At(w, events, n)[k], key))
        || (events[n].tx.TxUpsert? && QuorumHolds(At(w, events, n), events[n].tx.record)))
  }

  lemma StepAt(w: World, events: seq<Event>, n: nat)
    requires n < |events|
    ensures At(w, events, n + 1) == Step(At(w, events, n), events[n])
  {
    assert events[..n + 1][..n] == events[..n];
  }

  lemma DisciplinedIsHarmless(w: World, events: seq<Event>, n: nat, key: string)
    requires DisciplinedAt(w, events, n, key)
    ensures HarmlessAt(w, events, n, key)
  {
    StepAt(w, events, n);
    var e := events[n];
    if KeepsKey(e, key) {
      HeadUnmoved(At(w, events, n)[e.replica], e.replica, e.tx, key);
    }
  }

  /** A quorum-held record of the key needs two replicas with a committed row. */
  lemma RepairNeedsRows(w: World, r: Record, i: ReplicaIndex, j: ReplicaIndex)
    requires WorldInv(w) && QuorumHolds(w, r)
    ensures r.version >= 1
    ensures !EmptyPair(w, i, j, r.key)
    ensures AtMostOne(w, r.key) ==> r.version == 1
  {
    var a, b := TwoAbove(w, r);
    TwoRowsLeaveNoEmptyPair(w, a, b, i, j, r.key);
  }

  lemma TwoRowsLeaveNoEmptyPair(w: World, a: ReplicaIndex, b: ReplicaIndex, i: ReplicaIndex, j: ReplicaIndex,
                                key: string)
    requires a != b && Head(w[a], key) >= 1 && Head(w[b], key) >= 1
    ensures !EmptyPair(w, i, j, key)
  {
  }

  lemma TwoAbove(w: World, r: Record) returns (a: ReplicaIndex, b: ReplicaIndex)
    requires WorldInv(w) && QuorumHolds(w, r)
    ensures a != b && 1 <= r.version <= Head(w[a], r.key) && r.version <= Head(w[b], r.key)
  {
    a, b :| a != b && Holds(w[a], r) && Holds(w[b], r);
    HeldBelowHead(w[a], r);
    HeldBelowHead(w[b], r);
  }

  lemma HeldBelowHead(st: Store, r: Record)
    requires StoreInv(st) && Holds(st, r)
    ensures Sound(r) && 1 <= r.version <= Head(st, r.key)
  {
  }

  /** A repair of a key with two empty replicas, or beyond version 1, cannot happen. */
  lemma RepairStep(w: World, e: Event, key: string)
    requires WorldInv(w) && e.tx.TxUpsert? && QuorumHolds(w, e.tx.record)
    ensures AtMostOne(w, key) ==> AtMostOne(Step(w, e), key)
    ensures forall i: ReplicaIndex, j: ReplicaIndex | EmptyPair(w, i, j, key) :: EmptyPair(Step(w, e), i, j, key)
  {
    if KeepsKey(e, key) {
      QuietStep(w, e, key);
    } else {
      RepairOfKey(w, e, key);
    }
  }

  lemma QuietStep(w: World, e: Event, key: string)
    requires KeepsKey(e, key)
    ensures forall k: ReplicaIndex :: Head(Step(w, e)[k], key) == Head(w[k], key)
  {
  }

  lemma RepairOfKey(w: World, e: Event, key: string)
    requires WorldInv(w) && e.tx.TxUpsert? && e.tx.record.key == key && QuorumHolds(w, e.tx.record)
    ensures AtMostOne(w, key) ==> AtMostOne(Step(w, e), key)
    ensures forall i: ReplicaIndex, j: ReplicaIndex :: !EmptyPair(w, i, j, key)
  {
    var r := e.tx.record;
    RepairNeedsRows(w, r, 0, 1);
    forall i: ReplicaIndex, j: ReplicaIndex
      ensures !EmptyPair(w, i, j, key)
    {
      RepairNeedsRows(w, r, i, j);
    }
    if AtMostOne(w, key) {
      UpsertKeepsBound(w, e, r);
    }
  }

  lemma UpsertKeepsBound(w: World, e: Event, r: SoundRecord)
    requires e.tx.TxUpsert? && e.tx.record == r && r.version == 1
    requires AtMostOne(w, r.key)
    ensures AtMostOne(Step(w, e), r.key)
  {
  }

  /** Bounds on the key's heads survive from `u` to `v`. */
  ghost predicate Narrows(u: World, v: World, key: string) {
    && (AtMostOne(u, key) ==> AtMostOne(v, key))
    && (forall i: ReplicaIndex, j: ReplicaIndex | EmptyPair(u, i, j, key) :: EmptyPair(v, i, j, key))
  }

  lemma NarrowsTwice(u: World, v: World, w: World, key: string)
    requires Narrows(u, v, key) && Narrows(v, w, key)
    ensures Narrows(u, w, key)
  {
  }

  lemma HarmlessStep(w: World, events: seq<Event>, n: nat, key: string)
    requires WorldInv(w) && HarmlessAt(w, events, n, key)
    ensures Narrows(At(w, events, n), At(w, events, n + 1), key)
  {
    var now, next, e := At(w, events, n), At(w, events, n + 1), events[n];
    if exists k: ReplicaIndex :: Head(next[k], key) != Head(now[k], key) {
      StepAt(w, events, n);
      RunKeepsInvariant(w, events[..n]);
      RepairStep(now, e, key);
    }
  }

  lemma {:induction false} HarmlessRun(w: World, events: seq<Event>, m: nat, n: nat, key: string)
    requires WorldInv(w) && m <= n <= |events|
    requires forall p: nat | m <= p < n :: HarmlessAt(w, events, p, key)
    ensures Narrows(At(w, events, m), At(w, events, n), key)
    decreases n - m
  {
    if m < n {
      HarmlessRun(w, events, m, n - 1, key);
      assert HarmlessAt(w, events, n - 1, key);
      HarmlessStep(w, events, n - 1, key);
      NarrowsTwice(At(w, events, m), At(w, events, n - 1), At(w, events, n), key);
    }
  }

  /** Heads only grow, so a bound at a later position holds at every earlier one. */
  lemma EarlierHeads(w: World, events: seq<Event>, m: nat, n: nat, k: ReplicaIndex, key: string)
    requires WorldInv(w) && m <= n <= |events|
    ensures Head(At(w, events, m)[k], key) <= Head(At(w, events, n)[k], key)
  {
    PrefixEvolves(w, events, m, n);
  }

  /** Two replicas seen empty at two moments are both empty afterwards, if others keep the discipline. */
  lemma NotFoundLeavesEmptyPair(w: World, events: seq<Event>, lo: nat, key: string)
    returns (i: ReplicaIndex, j: ReplicaIndex)
    requires WorldInv(w)
    requires TwoEmptyMoments(w, events, lo, key, None)
    requires forall n: nat | lo <= n < |events| :: DisciplinedAt(w, events, n, key)
    ensures EmptyPair(At(w, events, |events|), i, j, key)
  {
    var a: ReplicaIndex, b: ReplicaIndex, p: nat, q: nat :|
      a != b && EmptyAt(w, events, lo, p, a, key, None) && EmptyAt(w, events, lo, q, b, key, None);
    i, j := a, b;
    EmptyHead(w, events, p, a, key);
    EmptyHead(w, events, q, b, key);
    var start := if p <= q then p else q;
    EarlierHeads(w, events, start, p, a, key);
    EarlierHeads(w, events, start, q, b, key);
    forall n: nat | start <= n < |events|
      ensures HarmlessAt(w, events, n, key)
    {
      DisciplinedIsHarmless(w, events, n, key);
    }
    HarmlessRun(w, events, start, |events|, key);
    assert EmptyPair(At(w, events, start), a, b, key);
  }

  lemma EmptyHead(w: World, events: seq<Event>, n: nat, k: ReplicaIndex, key: string)
    requires WorldInv(w) && n <= |events|
    requires HeadRow(At(w, events, n)[k], key).None?
    ensures Head(At(w, events, n)[k], key) == 0
  {
    RunKeepsInvariant(w, events[..n]);
    HeadRowAgrees(At(w, events, n)[k], key);
  }

  // ---- One write attempt ----

  /** The attempt's own transactions that commit nothing. */
  lemma OwnPrelude(e: Event, op: string, r: Record, key: string)
    requires OwnWrite(e, op, r) && !OwnCommit(e, op)
    ensures KeepsKey(e, key)
  {
  }

  /** Two replicas were empty before the first promotion, and two stood just below the version: it is version 1. */
  lemma VersionIsOne(w: World, events: seq<Event>, lo: nat, commitStart: nat, r: Record, i: ReplicaIndex, j: ReplicaIndex)
    requires WorldInv(w) && lo <= commitStart <= |events|
    requires TwoStoodBehind(w, events, lo, commitStart, r)
    requires EmptyPair(At(w, events, commitStart), i, j, r.key)
    ensures r.version == 1
  {
    var a: ReplicaIndex, b: ReplicaIndex, p: nat, q: nat :|
      && a != b && p <= commitStart && q <= commitStart
      && StoodBehind(w, events, lo, p, a, r) && StoodBehind(w, events, lo, q, b, r);
    BehindLater(w, events, lo, p, commitStart, a, r);
    BehindLater(w, events, lo, q, commitStart, b, r);
    PairsMeet(At(w, events, commitStart), a, b, i, j, r.key, r.version);
  }

  /** Two replicas at `version - 1` or above, and two empty ones, among three. */
  lemma PairsMeet(w: World, a: ReplicaIndex, b: ReplicaIndex, i: ReplicaIndex, j: ReplicaIndex, key: string, version: nat)
    requires a != b && version <= Head(w[a], key) + 1 && version <= Head(w[b], key) + 1
    requires EmptyPair(w, i, j, key)
    ensures version <= 1
  {
  }

  lemma BehindLater(w: World, events: seq<Event>, lo: nat, p: nat, n: nat, k: ReplicaIndex, r: Record)
    requires WorldInv(w) && p <= n <= |events|
    requires StoodBehind(w, events, lo, p, k, r)
    ensures 1 <= r.version <= Head(At(w, events, n)[k], r.key) + 1
  {
    EarlierHeads(w, events, p, n, k, r.key);
  }

  /** A promotion of version 1 keeps the bound. */
  lemma CommitStep(w: World, events: seq<Event>, n: nat, op: string, r: Record)
    requires WorldInv(w) && n < |events|
    requires OwnWrite(events[n], op, r) && OwnCommit(events[n], op) && r.version == 1
    requires AtMostOne(At(w, events, n), r.key)
    ensures AtMostOne(At(w, events, n + 1), r.key)
  {
    StepAt(w, events, n);
  }

  /** Where nothing was gained, the attempt's commits changed nothing. */
  lemma RefusedCommit(w: World, events: seq<Event>, n: nat, op: string, r: Record)
    requires WorldInv(w) && n < |events|
    requires OwnWrite(events[n], op, r) && OwnCommit(events[n], op)
    requires !GainedSomewhere(At(w, events, |events|), op)
    ensures HarmlessAt(w, events, n, r.key)
  {
    StepAt(w, events, n);
    var e := events[n];
    var st, st' := At(w, events, n)[e.replica], At(w, events, n + 1)[e.replica];
    PrefixEvolves(w, events, n + 1, |events|);
    var final := At(w, events, |events|)[e.replica];
    assert Extends(st', final);
    PromotionGains(st, e.tx.slot, e.tx.recordId, op);
    GainedPersists(st', final, op);
  }

  lemma GainedPersists(st: Store, st': Store, op: string)
    requires Extends(st, st')
    ensures Gained(st, op) ==> Gained(st', op)
  {
  }

  /** Some replica committed a row for this operation. */
  ghost predicate GainedSomewhere(w: World, op: string) {
    exists k: ReplicaIndex :: Gained(w[k], op)
  }

  lemma PromotionGains(st: Store, slot: Slot, id: RecordId, op: string)
    ensures var (st', outcome) := CommitPromote(st, slot, id, op);
            if outcome.Promoted? then Gained(st', op) else st' == st
  {
    var (st', outcome) := CommitPromote(st, slot, id, op);
    if outcome.Promoted? {
      var s := SlotOf(st.pending[slot].record);
      assert s in st'.committed && st'.committed[s].operationId == op;
    }
  }

  /** From `lo` on the run holds only other operations' transactions and this attempt's own. */
  ghost predicate Mixed(events: seq<Event>, lo: nat, op: string, r: Record) {
    forall n | lo <= n < |events| :: Foreign(events[n], op) || OwnWrite(events[n], op, r)
  }

  /** What one write attempt on an action key establishes, by the coordinator's contract. */
  ghost predicate Attempt(w: World, events: seq<Event>, lo: nat, commitStart: nat, op: string, r: Record) {
    && Mixed(events, lo, op, r)
    && lo <= commitStart <= |events|
    && (forall n | lo <= n < commitStart :: !OwnCommit(events[n], op))
    && (GainedSomewhere(At(w, events, |events|), op) ==>
          TwoStoodBehind(w, events, lo, commitStart, r))
  }

  /** The transactions of others during the attempt keep the discipline. */
  ghost predicate OthersDisciplined(w: World, events: seq<Event>, lo: nat, op: string, key: string) {
    forall n: nat | lo <= n < |events| && Foreign(events[n], op) :: DisciplinedAt(w, events, n, key)
  }

  /** Starting from two empty replicas, an attempt leaves every head at most 1, and the pair empty if it gained nothing. */
  lemma AttemptKeepsKey(w: World, events: seq<Event>, lo: nat, commitStart: nat, op: string, r: Record,
                        i: ReplicaIndex, j: ReplicaIndex)
    requires WorldInv(w)
    requires Attempt(w, events, lo, commitStart, op, r)
    requires OthersDisciplined(w, events, lo, op, r.key)
    requires EmptyPair(At(w, events, lo), i, j, r.key) && AtMostOne(At(w, events, lo), r.key)
    ensures AtMostOne(At(w, events, |events|), r.key)
    ensures !GainedSomewhere(At(w, events, |events|), op) ==>
              EmptyPair(At(w, events, |events|), i, j, r.key)
  {
    if !GainedSomewhere(At(w, events, |events|), op) {
      forall n: nat | lo <= n < |events|
        ensures HarmlessAt(w, events, n, r.key)
      {
        AttemptEvent(w, events, lo, op, r, n);
        if OwnCommit(events[n], op) && !Foreign(events[n], op) {
          RefusedCommit(w, events, n, op, r);
        }
      }
      HarmlessRun(w, events, lo, |events|, r.key);
    } else {
      forall n: nat | lo <= n < commitStart
        ensures HarmlessAt(w, events, n, r.key)
      {
        AttemptEvent(w, events, lo, op, r, n);
      }
      HarmlessRun(w, events, lo, commitStart, r.key);
      VersionIsOne(w, events, lo, commitStart, r, i, j);
      CommitsKeepBound(w, events, lo, |events|, op, r);
    }
  }

  lemma AttemptEvent(w: World, events: seq<Event>, lo: nat, op: string, r: Record, n: nat)
    requires Mixed(events, lo, op, r) && lo <= n < |events|
    requires OthersDisciplined(w, events, lo, op, r.key)
    ensures HarmlessAt(w, events, n, r.key) || (OwnWrite(events[n], op, r) && OwnCommit(events[n], op))
  {
    if Foreign(events[n], op) {
      DisciplinedIsHarmless(w, events, n, r.key);
    } else if !OwnCommit(events[n], op) {
      OwnPrelude(events[n], op, r, r.key);
      DisciplinedIsHarmless(w, events, n, r.key);
    }
  }

  lemma {:induction false} CommitsKeepBound(w: World, events: seq<Event>, lo: nat, n: nat, op: string, r: Record)
    requires WorldInv(w) && lo <= n <= |events|
    requires Mixed(events, lo, op, r) && OthersDisciplined(w, events, lo, op, r.key)
    requires r.version == 1 && AtMostOne(At(w, events, lo), r.key)
    ensures AtMostOne(At(w, events, n), r.key)
    decreases n - lo
  {
    if lo < n {
      CommitsKeepBound(w, events, lo, n - 1, op, r);
      AttemptStepKeepsBound(w, events, lo, n - 1, op, r);
    }
  }

  lemma AttemptStepKeepsBound(w: World, events: seq<Event>, lo: nat, n: nat, op: string, r: Record)
    requires WorldInv(w) && lo <= n < |events|
    requires Mixed(events, lo, op, r) && OthersDisciplined(w, events, lo, op, r.key)
    requires r.version == 1 && AtMostOne(At(w, events, n), r.key)
    ensures AtMostOne(At(w, events, n + 1), r.key)
  {
    AttemptEvent(w, events, lo, op, r, n);
    if HarmlessAt(w, events, n, r.key) {
      HarmlessStep(w, events, n, r.key);
    } else {
      CommitStep(w, events, n, op, r);
    }
  }

  // ---- Decisions, and the whole history of one key ----

  /** Two replicas hold a record of the key with this content. */
  ghost predicate Backing(w: World, key: string, body: Payload) {
    exists r: Record :: QuorumHolds(w, r) && Sound(r) && r.key == key && r.body == body
  }

  /** Two replicas hold a record of the key carrying this decision. */
  ghost predicate Backed(w: World, key: string, d: Decision) {
    Backing(w, key, Enforcement(d))
  }

  lemma BackedPersists(w: World, w': World, key: string, d: Decision)
    requires Evolves(w, w') && Backed(w, key, d)
    ensures Backed(w', key, d)
  {
  }

  lemma BackedIsUnique(w: World, key: string, d1: Decision, d2: Decision)
    requires WorldInv(w) && AtMostOne(w, key)
    requires Backed(w, key, d1) && Backed(w, key, d2)
    ensures d1 == d2
  {
    var r1: Record :| QuorumHolds(w, r1) && Sound(r1) && r1.key == key && r1.body == Enforcement(d1);
    var r2: Record :| QuorumHolds(w, r2) && Sound(r2) && r2.key == key && r2.body == Enforcement(d2);
    RepairNeedsRows(w, r1, 0, 1);
    RepairNeedsRows(w, r2, 0, 1);
    QuorumUnique(w, r1, r2);
  }

  /** Whose write attempt, if any, is running at each position: a transaction of nobody here is the others'. */
  ghost predicate TurnsDisciplined(w: World, events: seq<Event>, lo: nat, turns: seq<Option<string>>, key: string) {
    forall n: nat | lo <= n < lo + |turns| && n < |events| && (turns[n - lo].Some? ==> Foreign(events[n], turns[n - lo].value)) ::
      DisciplinedAt(w, events, n, key)
  }

  /** What one put under the commit lock does to the key's heads, if the others keep the discipline. */
  ghost predicate PutKeeps(w: World, events: seq<Event>, lo: nat, turns: seq<Option<string>>, key: string) {
    && lo + |turns| <= |events|
    && (TurnsDisciplined(w, events, lo, turns, key) && AtMostOne(At(w, events, lo), key) ==>
          AtMostOne(At(w, events, lo + |turns|), key))
  }

  lemma DisciplinedEarlier(w: World, events: seq<Event>, more: seq<Event>, n: nat, key: string)
    requires events <= more && n < |events|
    ensures DisciplinedAt(w, events, n, key) <==> DisciplinedAt(w, more, n, key)
  {
    assert more[..n] == events[..n];
  }

  /** The key stays within version 1, and empty on a pair of replicas while nothing was gained. */
  ghost predicate SafeSoFar(w: World, events: seq<Event>, lo: nat, turns: seq<Option<string>>, key: string, empty: bool) {
    && lo + |turns| == |events|
    && (TurnsDisciplined(w, events, lo, turns, key) && AtMostOne(At(w, events, lo), key) ==>
          forall i: ReplicaIndex, j: ReplicaIndex | EmptyPair(At(w, events, lo), i, j, key) ::
            && AtMostOne(Run(w, events), key)
            && (empty ==> EmptyPair(Run(w, events), i, j, key)))
  }

  function Turn(op: Option<string>, n: nat): seq<Option<string>> {
    seq(n, _ => op)
  }

  lemma TurnsSplit(w: World, before: seq<Event>, events: seq<Event>, lo: nat, turns: seq<Option<string>>, op: string,
                   key: string)
    requires lo + |turns| == |before| && before <= events
    requires TurnsDisciplined(w, events, lo, turns + Turn(Some(op), |events| - |before|), key)
    ensures TurnsDisciplined(w, before, lo, turns, key)
    ensures OthersDisciplined(w, events, |before|, op, key)
  {
    var all := turns + Turn(Some(op), |events| - |before|);
    forall n: nat | lo <= n < |before| && (turns[n - lo].Some? ==> Foreign(before[n], turns[n - lo].value))
      ensures DisciplinedAt(w, before, n, key)
    {
      assert all[n - lo] == turns[n - lo];
      DisciplinedEarlier(w, before, events, n, key);
    }
    forall n: nat | |before| <= n < |events| && Foreign(events[n], op)
      ensures DisciplinedAt(w, events, n, key)
    {
      assert all[n - lo] == Some(op);
    }
  }

  /** One more attempt on the key. */
  lemma AttemptIsSafe(w: World, before: seq<Event>, events: seq<Event>, lo: nat, turns: seq<Option<string>>,
                      commitStart: nat, op: string, r: Record, gained: bool)
    requires WorldInv(w) && before <= events
    requires SafeSoFar(w, before, lo, turns, r.key, true)
    requires Attempt(w, events, |before|, commitStart, op, r)
    requires gained <==> GainedSomewhere(Run(w, events), op)
    ensures SafeSoFar(w, events, lo, turns + Turn(Some(op), |events| - |before|), r.key, !gained)
  {
    var all := turns + Turn(Some(op), |events| - |before|);
    assert events[..lo] == before[..lo] && events[..|before|] == before && events[..|events|] == events;
    if TurnsDisciplined(w, events, lo, all, r.key) && AtMostOne(At(w, events, lo), r.key) {
      TurnsSplit(w, before, events, lo, turns, op, r.key);
      forall i: ReplicaIndex, j: ReplicaIndex | EmptyPair(At(w, events, lo), i, j, r.key)
        ensures AtMostOne(Run(w, events), r.key)
        ensures !gained ==> EmptyPair(Run(w, events), i, j, r.key)
      {
        AttemptKeepsKey(w, events, |before|, commitStart, op, r, i, j);
      }
    }
  }

  /** Only reading keeps the key as others leave it. */
  lemma ReadingKeeps(w: World, events: seq<Event>, lo: nat, key: string)
    requires WorldInv(w) && lo <= |events|
    ensures PutKeeps(w, events, lo, Turn(None, |events| - lo), key)
  {
    var turns := Turn(None, |events| - lo);
    if TurnsDisciplined(w, events, lo, turns, key) {
      AllDisciplined(w, events, lo, key);
      HarmlessRun(w, events, lo, |events|, key);
    }
  }

  lemma AllDisciplined(w: World, events: seq<Event>, lo: nat, key: string)
    requires lo <= |events|
    requires TurnsDisciplined(w, events, lo, Turn(None, |events| - lo), key)
    ensures forall n: nat | lo <= n < |events| :: DisciplinedAt(w, events, n, key) && HarmlessAt(w, events, n, key)
  {
    var turns := Turn(None, |events| - lo);
    forall n: nat | lo <= n < |events|
      ensures DisciplinedAt(w, events, n, key) && HarmlessAt(w, events, n, key)
    {
      assert turns[n - lo] == None;
      DisciplinedIsHarmless(w, events, n, key);
    }
  }

  lemma PrefixOfTurns(w: World, mid: seq<Event>, events: seq<Event>, lo: nat, turns: seq<Option<string>>, key: string)
    requires lo <= |mid| && mid <= events && |mid| + |turns| == |events|
    requires TurnsDisciplined(w, events, lo, Turn(None, |mid| - lo) + turns, key)
    ensures TurnsDisciplined(w, mid, lo, Turn(None, |mid| - lo), key)
    ensures TurnsDisciplined(w, events, |mid|, turns, key)
  {
    var all := Turn(None, |mid| - lo) + turns;
    forall n: nat | lo <= n < |mid|
      ensures DisciplinedAt(w, mid, n, key)
    {
      assert all[n - lo] == None;
      DisciplinedEarlier(w, mid, events, n, key);
    }
    forall n: nat | |mid| <= n < |events| && (turns[n - |mid|].Some? ==> Foreign(events[n], turns[n - |mid|].value))
      ensures DisciplinedAt(w, events, n, key)
    {
      assert all[n - lo] == turns[n - |mid|];
    }
  }

  /** After a read that found nothing the key is still within the bound, and empty on two replicas. */
  lemma NotFoundIsSafe(w: World, mid: seq<Event>, lo: nat, key: string) returns (i: ReplicaIndex, j: ReplicaIndex)
    requires WorldInv(w) && lo <= |mid|
    requires TwoEmptyMoments(w, mid, lo, key, None)
    requires TurnsDisciplined(w, mid, lo, Turn(None, |mid| - lo), key) && AtMostOne(At(w, mid, lo), key)
    ensures AtMostOne(At(w, mid, |mid|), key) && EmptyPair(At(w, mid, |mid|), i, j, key)
  {
    AllDisciplined(w, mid, lo, key);
    HarmlessRun(w, mid, lo, |mid|, key);
    i, j := NotFoundLeavesEmptyPair(w, mid, lo, key);
  }

  /** A read that found nothing, then attempts: the whole put. */
  lemma PutIsSafe(w: World, mid: seq<Event>, events: seq<Event>, lo: nat, turns: seq<Option<string>>,
                  all: seq<Option<string>>, key: string, empty: bool)
    requires WorldInv(w) && lo <= |mid| && mid <= events
    requires TwoEmptyMoments(w, mid, lo, key, None)
    requires SafeSoFar(w, events, |mid|, turns, key, empty)
    requires all == Turn(None, |mid| - lo) + turns
    ensures PutKeeps(w, events, lo, all, key)
  {
    SafeLength(w, events, |mid|, turns, key, empty);
    PutEnds(w, mid, events, lo, turns, all, key, empty);
    KeepsToTheEnd(w, events, lo, all, key);
  }

  lemma KeepsToTheEnd(w: World, events: seq<Event>, lo: nat, turns: seq<Option<string>>, key: string)
    requires lo + |turns| == |events|
    requires TurnsDisciplined(w, events, lo, turns, key) && AtMostOne(At(w, events, lo), key) ==>
               AtMostOne(At(w, events, |events|), key)
    ensures PutKeeps(w, events, lo, turns, key)
  {
  }

  lemma PutEnds(w: World, mid: seq<Event>, events: seq<Event>, lo: nat, turns: seq<Option<string>>,
                all: seq<Option<string>>, key: string, empty: bool)
    requires WorldInv(w) && lo <= |mid| && mid <= events
    requires TwoEmptyMoments(w, mid, lo, key, None)
    requires SafeSoFar(w, events, |mid|, turns, key, empty)
    requires all == Turn(None, |mid| - lo) + turns
    ensures TurnsDisciplined(w, events, lo, all, key) && AtMostOne(At(w, events, lo), key) ==>
              AtMostOne(At(w, events, |events|), key)
  {
    if TurnsDisciplined(w, events, lo, all, key) && AtMostOne(At(w, events, lo), key) {
      PutWhole(w, mid, events, lo, turns, all, key, empty);
    }
  }

  lemma SafeLength(w: World, events: seq<Event>, lo: nat, turns: seq<Option<string>>, key: string, empty: bool)
    requires SafeSoFar(w, events, lo, turns, key, empty)
    ensures lo + |turns| == |events|
  {
  }

  lemma PutWhole(w: World, mid: seq<Event>, events: seq<Event>, lo: nat, turns: seq<Option<string>>,
                 all: seq<Option<string>>, key: string, empty: bool)
    requires WorldInv(w) && lo <= |mid| && mid <= events
    requires TwoEmptyMoments(w, mid, lo, key, None)
    requires SafeSoFar(w, events, |mid|, turns, key, empty)
    requires all == Turn(None, |mid| - lo) + turns && TurnsDisciplined(w, events, lo, all, key)
    requires AtMostOne(At(w, events, lo), key)
    ensures AtMostOne(At(w, events, |events|), key)
  {
    PrefixOfTurns(w, mid, events, lo, turns, key);
    PutCase(w, mid, events, lo, turns, key, empty);
  }

  lemma PutCase(w: World, mid: seq<Event>, events: seq<Event>, lo: nat, turns: seq<Option<string>>, key: string,
                empty: bool)
    requires WorldInv(w) && lo <= |mid| && mid <= events
    requires TwoEmptyMoments(w, mid, lo, key, None)
    requires SafeSoFar(w, events, |mid|, turns, key, empty)
    requires TurnsDisciplined(w, mid, lo, Turn(None, |mid| - lo), key)
    requires TurnsDisciplined(w, events, |mid|, turns, key)
    requires AtMostOne(At(w, events, lo), key)
    ensures AtMostOne(At(w, events, |events|), key)
  {
    SamePosition(w, mid, events, lo);
    SamePosition(w, mid, events, |mid|);
    var i, j := NotFoundIsSafe(w, mid, lo, key);
    SafeNow(w, events, |mid|, turns, key, empty, i, j);
  }

  lemma SamePosition(w: World, mid: seq<Event>, events: seq<Event>, n: nat)
    requires mid <= events && n <= |mid|
    ensures At(w, events, n) == At(w, mid, n)
  {
    assert events[..n] == mid[..n];
  }

  lemma SafeNow(w: World, events: seq<Event>, lo: nat, turns: seq<Option<string>>, key: string, empty: bool,
                i: ReplicaIndex, j: ReplicaIndex)
    requires SafeSoFar(w, events, lo, turns, key, empty)
    requires TurnsDisciplined(w, events, lo, turns, key) && AtMostOne(At(w, events, lo), key)
    requires EmptyPair(At(w, events, lo), i, j, key)
    ensures AtMostOne(At(w, events, |events|), key)
  {
    assert events[..|events|] == events;
  }
}
