/**
 Three stores changed by one atomic transaction at a time. A run is any interleaving of the transactions of
 any number of coordinators, with repairs, lease takeovers and aborts among them.
 */
module BlackboardProtocol {
  import opened BlackboardContracts
  import opened Wrappers
  import opened ReplicaStorage

  type ReplicaIndex = i: nat | i < 3

  type World = w: seq<Store> | |w| == 3 witness [EMPTY_STORE, EMPTY_STORE, EMPTY_STORE]

  const EMPTY_WORLD: World := [EMPTY_STORE, EMPTY_STORE, EMPTY_STORE]

  datatype Event = Event(replica: ReplicaIndex, tx: Tx)

  function Step(w: World, e: Event): World {
    w[e.replica := ApplyTx(w[e.replica], e.tx)]
  }

  function Run(w: World, events: seq<Event>): World {
    if events == [] then w else Step(Run(w, events[..|events| - 1]), events[|events| - 1])
  }

  ghost predicate WorldInv(w: World) {
    forall i: ReplicaIndex :: StoreInv(w[i])
  }

  lemma EmptyWorldSound()
    ensures WorldInv(EMPTY_WORLD)
  {
    assert StoreInv(EMPTY_STORE);
  }

  /** Every replica keeps its committed rows and its heads. */
  ghost predicate Evolves(w: World, w': World) {
    forall i: ReplicaIndex :: Extends(w[i], w'[i])
  }

  lemma {:induction false} RunKeepsInvariant(w: World, events: seq<Event>)
    requires WorldInv(w)
    ensures WorldInv(Run(w, events))
    ensures Evolves(w, Run(w, events))
  {
    if events != [] {
      var prefix := events[..|events| - 1];
      RunKeepsInvariant(w, prefix);
      StepKeepsInvariant(Run(w, prefix), events[|events| - 1]);
    }
  }

  lemma StepKeepsInvariant(w: World, e: Event)
    requires WorldInv(w)
    ensures WorldInv(Step(w, e))
    ensures Evolves(w, Step(w, e))
  {
    ApplyTxKeepsInvariant(w[e.replica], e.tx);
  }

  lemma {:induction false} RunAppend(w: World, first: seq<Event>, second: seq<Event>)
    ensures Run(w, first + second) == Run(Run(w, first), second)
  {
    if second == [] {
      assert first + second == first;
    } else {
      var last := |second| - 1;
      RunAppend(w, first, second[..last]);
      assert (first + second)[..|first + second| - 1] == first + second[..last];
    }
  }

  /** Positions in one run are ordered by evolution. */
  lemma PrefixEvolves(w: World, events: seq<Event>, m: nat, n: nat)
    requires WorldInv(w)
    requires m <= n <= |events|
    ensures WorldInv(Run(w, events[..m]))
    ensures WorldInv(Run(w, events[..n]))
    ensures Evolves(Run(w, events[..m]), Run(w, events[..n]))
  {
    assert events[..m] + events[m..n] == events[..n];
    LaterEvolves(w, events[..m], events[m..n]);
  }

  lemma LaterEvolves(w: World, first: seq<Event>, second: seq<Event>)
    requires WorldInv(w)
    ensures WorldInv(Run(w, first)) && WorldInv(Run(w, first + second))
    ensures Evolves(Run(w, first), Run(w, first + second))
  {
    RunAppend(w, first, second);
    RunKeepsInvariant(w, first);
    RunKeepsInvariant(Run(w, first), second);
  }

  predicate Holds(st: Store, r: Record) {
    SlotOf(r) in st.committed && st.committed[SlotOf(r)].record == r
  }

  /** Two distinct replicas hold exactly this record. */
  ghost predicate QuorumHolds(w: World, r: Record) {
    exists i: ReplicaIndex, j: ReplicaIndex :: i != j && Holds(w[i], r) && Holds(w[j], r)
  }

  lemma QuorumPersists(w: World, w': World, r: Record)
    requires Evolves(w, w') && QuorumHolds(w, r)
    ensures QuorumHolds(w', r)
  {
  }

  /** Any two of three replicas share one. */
  lemma QuorumUnique(w: World, a: Record, b: Record)
    requires QuorumHolds(w, a) && QuorumHolds(w, b)
    requires SlotOf(a) == SlotOf(b)
    ensures a == b
  {
  }

  // ---- Agreement over every run ----

  /** Event `n` of the run is operation `op` promoting `r` on replica `i`, and it was acknowledged. */
  ghost predicate PromotedAt(w: World, events: seq<Event>, n: nat, i: ReplicaIndex, op: string, r: Record) {
    && n < |events|
    && events[n] == Event(i, TxCommit(SlotOf(r), r.recordId, op))
    && CommitPromote(Run(w, events[..n])[i], SlotOf(r), r.recordId, op).1.Promoted?
  }

  /** What `propose` needs to return COMMITTED: promotions acknowledged by two distinct replicas. */
  ghost predicate CommittedBy(w: World, events: seq<Event>, op: string, r: Record) {
    exists m: nat, n: nat, i: ReplicaIndex, j: ReplicaIndex ::
      i != j && PromotedAt(w, events, m, i, op, r) && PromotedAt(w, events, n, j, op, r)
  }

  lemma PromotionHolds(w: World, events: seq<Event>, n: nat, i: ReplicaIndex, op: string, r: Record)
    requires WorldInv(w) && Verified(r)
    requires PromotedAt(w, events, n, i, op, r)
    ensures Holds(Run(w, events)[i], r)
  {
    var before := Run(w, events[..n]);
    PrefixEvolves(w, events, n, n + 1);
    PrefixEvolves(w, events, n + 1, |events|);
    assert events[..|events|] == events;
    assert events[..n + 1][..n] == events[..n];
    assert Run(w, events[..n + 1]) == Step(before, events[n]);
    var staged := before[i].pending[SlotOf(r)].record;
    RecordIdDeterminesRecord(staged, r);
    assert Holds(Step(before, events[n])[i], r);
  }

  lemma CommittedIsHeld(w: World, events: seq<Event>, op: string, r: Record)
    requires WorldInv(w) && Verified(r)
    requires CommittedBy(w, events, op, r)
    ensures QuorumHolds(Run(w, events), r)
  {
    var m: nat, n: nat, i: ReplicaIndex, j: ReplicaIndex :|
      i != j && PromotedAt(w, events, m, i, op, r) && PromotedAt(w, events, n, j, op, r);
    PromotionHolds(w, events, m, i, op, r);
    PromotionHolds(w, events, n, j, op, r);
  }

  lemma AgreementFrom(w: World, events: seq<Event>, op1: string, r1: Record, op2: string, r2: Record)
    requires WorldInv(w) && Verified(r1) && Verified(r2)
    requires CommittedBy(w, events, op1, r1) && CommittedBy(w, events, op2, r2)
    requires SlotOf(r1) == SlotOf(r2)
    ensures r1 == r2
  {
    CommittedIsHeld(w, events, op1, r1);
    CommittedIsHeld(w, events, op2, r2);
    QuorumUnique(Run(w, events), r1, r2);
  }

  /** In every interleaving, two operations reported COMMITTED for one (key, version) carry one record. */
  lemma Agreement(events: seq<Event>, op1: string, r1: Record, op2: string, r2: Record)
    requires Verified(r1) && Verified(r2)
    requires CommittedBy(EMPTY_WORLD, events, op1, r1)
    requires CommittedBy(EMPTY_WORLD, events, op2, r2)
    requires SlotOf(r1) == SlotOf(r2)
    ensures r1 == r2
  {
    EmptyWorldSound();
    AgreementFrom(EMPTY_WORLD, events, op1, r1, op2, r2);
  }

  // ---- What agreement does not say of the version below, and when it does hold ----

  /** Everything that could put a row into the slot carries `r`. */
  predicate CarryOnly(events: seq<Event>, slot: Slot, r: Record) {
    forall n | 0 <= n < |events| ::
      match events[n].tx
      case TxCommit(s, id, _) => s == slot ==> id == r.recordId
      case TxUpsert(record, _) => SlotOf(record) == slot ==> record == r
      case _ => true
  }

  lemma {:induction false} SlotHoldsOnly(events: seq<Event>, slot: Slot, r: Record)
    requires Verified(r) && CarryOnly(events, slot, r)
    ensures forall k: ReplicaIndex | slot in Run(EMPTY_WORLD, events)[k].committed ::
              Run(EMPTY_WORLD, events)[k].committed[slot].record == r
  {
    if events != [] {
      var prefix, e := events[..|events| - 1], events[|events| - 1];
      SlotHoldsOnly(prefix, slot, r);
      EmptyWorldSound();
      RunKeepsInvariant(EMPTY_WORLD, prefix);
      SlotStep(Run(EMPTY_WORLD, prefix)[e.replica], e.tx, slot, r);
    }
  }

  lemma SlotStep(st: Store, tx: Tx, slot: Slot, r: Record)
    requires StoreInv(st) && Verified(r)
    requires slot in st.committed ==> st.committed[slot].record == r
    requires tx.TxCommit? && tx.slot == slot ==> tx.recordId == r.recordId
    requires tx.TxUpsert? && SlotOf(tx.record) == slot ==> tx.record == r
    ensures var st' := ApplyTx(st, tx); slot in st'.committed ==> st'.committed[slot].record == r
  {
    match tx
    case TxCommit(s, id, op) => PromotionStep(st, s, id, op, slot, r);
    case TxUpsert(record, op) => assert ApplyTx(st, tx) == UpsertExternal(st, record, op).0;
    case _ => assert ApplyTx(st, tx).committed == st.committed;
  }

  lemma PromotionStep(st: Store, s: Slot, id: RecordId, op: string, slot: Slot, r: Record)
    requires StagedNext(st) && Verified(r)
    requires slot in st.committed ==> st.committed[slot].record == r
    requires s == slot ==> id == r.recordId
    ensures var st' := CommitPromote(st, s, id, op).0; slot in st'.committed ==> st'.committed[slot].record == r
  {
    if s in st.pending && s == slot && st.pending[s].record.recordId == id {
      RecordIdDeterminesRecord(st.pending[s].record, r);
    }
  }

  /**
   The version below a COMMITTED one has a quorum whenever every promotion and repair of that slot in the run carries
   one record: that record is held by two replicas.
   */
  lemma PredecessorHasQuorum(events: seq<Event>, op: string, c: Record, r: Record)
    requires Verified(c) && Verified(r) && CommittedBy(EMPTY_WORLD, events, op, c)
    requires c.version >= 2 && SlotOf(r) == Slot(c.key, c.version - 1)
    requires CarryOnly(events, SlotOf(r), r)
    ensures QuorumHolds(Run(EMPTY_WORLD, events), r)
  {
    var w := Run(EMPTY_WORLD, events);
    EmptyWorldSound();
    RunKeepsInvariant(EMPTY_WORLD, events);
    CommittedIsHeld(EMPTY_WORLD, events, op, c);
    var i: ReplicaIndex, j: ReplicaIndex :| i != j && Holds(w[i], c) && Holds(w[j], c);
    SlotHoldsOnly(events, SlotOf(r), r);
    BelowIsHeld(w[i], c);
    BelowIsHeld(w[j], c);
    assert Holds(w[i], r) && Holds(w[j], r);
  }

  lemma BelowIsHeld(st: Store, c: Record)
    requires StoreInv(st) && Holds(st, c) && c.version >= 2
    ensures Slot(c.key, c.version - 1) in st.committed
  {
    assert SlotOf(c).version <= Head(st, SlotOf(c).key);
  }

  /** One operation staging and promoting a record on one replica. */
  function WriteOn(i: ReplicaIndex, r: SoundRecord, op: string): seq<Event> {
    [Event(i, TxPrepare(r, op, 0.0, 0.0)), Event(i, TxCommit(SlotOf(r), r.recordId, op))]
  }

  function Written(st: Store, r: Record, op: string): Store {
    Store(st.committed[SlotOf(r) := Row(r, op)], st.heads[r.key := r.version], st.pending)
  }

  lemma WriteOnStore(st: Store, r: SoundRecord, op: string)
    requires StoreInv(st) && r.version == Head(st, r.key) + 1 && SlotOf(r) !in st.pending
    ensures var staged := ApplyTx(st, TxPrepare(r, op, 0.0, 0.0));
            CommitPromote(staged, SlotOf(r), r.recordId, op) == (Written(st, r, op), Promoted)
  {
    FreshSlotIsUnique(st, r);
    assert st.pending[SlotOf(r) := Pending(r, op, 0.0)] - {SlotOf(r)} == st.pending;
  }

  lemma RunTwoMore(w: World, events: seq<Event>, first: Event, second: Event)
    ensures var more := events + [first, second];
            && Run(w, more[..|events| + 1]) == Step(Run(w, events), first)
            && Run(w, more) == Step(Step(Run(w, events), first), second)
  {
    var more := events + [first, second];
    assert more[..|events| + 1] == events + [first];
    assert (events + [first])[..|events|] == events;
  }

  lemma WriteNext(w: World, events: seq<Event>, i: ReplicaIndex, r: SoundRecord, op: string)
    requires StoreInv(Run(w, events)[i])
    requires r.version == Head(Run(w, events)[i], r.key) + 1 && SlotOf(r) !in Run(w, events)[i].pending
    ensures Run(w, events + WriteOn(i, r, op)) == Run(w, events)[i := Written(Run(w, events)[i], r, op)]
    ensures PromotedAt(w, events + WriteOn(i, r, op), |events| + 1, i, op, r)
  {
    RunTwoMore(w, events, WriteOn(i, r, op)[0], WriteOn(i, r, op)[1]);
    WriteOnStore(Run(w, events)[i], r, op);
  }

  /**
   Two partial commits of different first versions let a second version commit on both replicas: the version below
   a COMMITTED one need not be held by two replicas.
   */
  lemma PredecessorMayLackQuorum(a: SoundRecord, b: SoundRecord, c: SoundRecord, op: string) returns (events: seq<Event>)
    requires a.key == b.key == c.key && a.version == b.version == 1 && c.version == 2 && a != b
    ensures CommittedBy(EMPTY_WORLD, events, op, c)
    ensures forall r: Record | r.key == c.key && r.version == 1 :: !QuorumHolds(Run(EMPTY_WORLD, events), r)
  {
    var start := SplitStart(a, b, op);
    var third := start + WriteOn(0, c, op);
    var w := WriteMore(start, [Written(EMPTY_STORE, a, op), Written(EMPTY_STORE, b, op), EMPTY_STORE], 0, c, op);
    events := third + WriteOn(1, c, op);
    w := WriteMore(third, w, 1, c, op);
    PromotedExtends(EMPTY_WORLD, third, events, |start| + 1, 0, op, c);
    SplitBelow(w, a, b, c, op);
  }

  lemma SplitStart(a: SoundRecord, b: SoundRecord, op: string) returns (events: seq<Event>)
    requires a.version == b.version == 1
    ensures Run(EMPTY_WORLD, events) == [Written(EMPTY_STORE, a, op), Written(EMPTY_STORE, b, op), EMPTY_STORE]
  {
    var w := WriteMore([], EMPTY_WORLD, 0, a, op);
    w := WriteMore([] + WriteOn(0, a, op), w, 1, b, op);
    events := [] + WriteOn(0, a, op) + WriteOn(1, b, op);
  }

  lemma PromotedExtends(w: World, events: seq<Event>, more: seq<Event>, n: nat, k: ReplicaIndex, op: string, r: Record)
    requires events <= more
    requires PromotedAt(w, events, n, k, op, r)
    ensures PromotedAt(w, more, n, k, op, r)
  {
    assert more[..n] == events[..n];
  }

  /** One first version on replica 0, another on replica 1, the second version on both. */
  lemma SplitBelow(w: World, a: SoundRecord, b: SoundRecord, c: SoundRecord, op: string)
    requires a.key == b.key == c.key && a.version == b.version == 1 && c.version == 2 && a != b
    requires w[0] == Written(Written(EMPTY_STORE, a, op), c, op) && w[1] == Written(Written(EMPTY_STORE, b, op), c, op)
    requires w[2] == EMPTY_STORE
    ensures forall r: Record | r.key == c.key && r.version == 1 :: !QuorumHolds(w, r)
  {
  }

  lemma WriteMore(events: seq<Event>, w: World, i: ReplicaIndex, r: SoundRecord, op: string) returns (w': World)
    requires w == Run(EMPTY_WORLD, events)
    requires r.version == Head(w[i], r.key) + 1 && SlotOf(r) !in w[i].pending
    ensures w' == Run(EMPTY_WORLD, events + WriteOn(i, r, op)) == w[i := Written(w[i], r, op)]
    ensures PromotedAt(EMPTY_WORLD, events + WriteOn(i, r, op), |events| + 1, i, op, r)
  {
    EmptyWorldSound();
    RunKeepsInvariant(EMPTY_WORLD, events);
    WriteNext(EMPTY_WORLD, events, i, r, op);
    w' := w[i := Written(w[i], r, op)];
  }
}
