/** One replica's store: committed rows, head index and pending prepares, changed one transaction at a time. */
module ReplicaStorage {
  import opened BlackboardContracts
  import opened Wrappers

  datatype Slot = Slot(key: string, version: nat)

  datatype Row = Row(record: Record, operationId: string)

  datatype Pending = Pending(record: Record, operationId: string, createdEpoch: real)

  datatype Store = Store(committed: map<Slot, Row>, heads: map<string, nat>, pending: map<Slot, Pending>)

  const EMPTY_STORE := Store(map[], map[], map[])

  datatype PrepareOutcome = Prepared | PreparedLeaseTakeover | StaleVersion | AheadOfHead | SlotConflict

  datatype PrepareResult = PrepareResult(outcome: PrepareOutcome, currentVersion: nat)

  /** `IntegrityError` is SQLite refusing a duplicate primary key or record id; the transaction rolls back. */
  datatype CommitOutcome = Promoted | UnknownOperation | RefusedNonForward | IntegrityError

  datatype UpsertStatus = Inserted | Identical | Refused | UpsertIntegrityError

  function SlotOf(r: Record): Slot {
    Slot(r.key, r.version)
  }

  /** A missing head is head 0. */
  function Head(st: Store, key: string): nat {
    if key in st.heads then st.heads[key] else 0
  }

  /** An insert of `r` would break the primary key or the unique record-id index. */
  predicate BreaksUniqueness(committed: map<Slot, Row>, r: Record) {
    SlotOf(r) in committed || exists s | s in committed :: committed[s].record.recordId == r.recordId
  }

  // ---- The transactions, as functions on store contents ----

  function PrepareInsert(st: Store, staged: Record, op: string, now: real, lease: real): (Store, PrepareResult) {
    var slot := SlotOf(staged);
    var head := Head(st, staged.key);
    if staged.version <= head then (st, PrepareResult(StaleVersion, head))
    else if staged.version != head + 1 then (st, PrepareResult(AheadOfHead, head))
    else if slot in st.pending then
      var pending := st.pending[slot];
      if pending.record.recordId == staged.recordId then
        (st.(pending := st.pending[slot := Pending(pending.record, op, now)]), PrepareResult(Prepared, head))
      else if now - pending.createdEpoch > lease then
        (st.(pending := st.pending[slot := Pending(staged, op, now)]), PrepareResult(PreparedLeaseTakeover, head))
      else (st, PrepareResult(SlotConflict, head))
    else (st.(pending := st.pending[slot := Pending(staged, op, now)]), PrepareResult(Prepared, head))
  }

  /** This slot holds the staging now; every other slot and both other tables are as they were. */
  predicate Restaged(st: Store, st': Store, slot: Slot, row: Pending) {
    st'.committed == st.committed && st'.heads == st.heads && st'.pending == st.pending[slot := row]
  }

  /**
   What a prepare of the version right above the head does: a slot that is free or holds this very record is staged
   afresh; another record's staging stands as long as its lease lasts, and is replaced once the lease has run out.
   */
  predicate NextIsStaged(st: Store, st': Store, staged: Record, op: string, now: real, lease: real,
                         outcome: PrepareOutcome)
  {
    var slot := SlotOf(staged);
    && (slot !in st.pending ==> outcome.Prepared? && Restaged(st, st', slot, Pending(staged, op, now)))
    && (slot in st.pending && st.pending[slot].record.recordId == staged.recordId ==>
          outcome.Prepared? && Restaged(st, st', slot, Pending(st.pending[slot].record, op, now)))
    && (slot in st.pending && st.pending[slot].record.recordId != staged.recordId ==>
          && (now - st.pending[slot].createdEpoch <= lease ==> outcome.SlotConflict? && st' == st)
          && (now - st.pending[slot].createdEpoch > lease ==>
                outcome.PreparedLeaseTakeover? && Restaged(st, st', slot, Pending(staged, op, now))))
  }

  /** This operation holds the slot with this record. */
  predicate StagedBy(st: Store, slot: Slot, id: RecordId, op: string) {
    slot in st.pending && st.pending[slot].operationId == op && st.pending[slot].record.recordId == id
  }

  function CommitPromote(st: Store, slot: Slot, id: RecordId, op: string): (Store, CommitOutcome) {
    if slot !in st.pending || st.pending[slot].operationId != op || st.pending[slot].record.recordId != id then
      (st, UnknownOperation)
    else if slot.version != Head(st, slot.key) + 1 then (st, RefusedNonForward)
    else
      var staged := st.pending[slot].record;
      if BreaksUniqueness(st.committed, staged) then (st, IntegrityError)
      else
        (Store(
           st.committed[SlotOf(staged) := Row(staged, op)],
           st.heads[slot.key := slot.version],
           st.pending - {slot}),
         Promoted)
  }

  /** With an operation id only that operation's staging goes. */
  function AbortPending(st: Store, slot: Slot, op: Option<string>): (Store, bool) {
    if slot in st.pending && (op.None? || st.pending[slot].operationId == op.value)
    then (st.(pending := st.pending - {slot}), true)
    else (st, false)
  }

  function UpsertExternal(st: Store, record: Record, op: string): (Store, UpsertStatus) {
    var slot := SlotOf(record);
    if slot in st.committed then
      (st, if st.committed[slot].record.recordId == record.recordId then Identical else Refused)
    else if record.version != Head(st, record.key) + 1 then (st, Refused)
    else if BreaksUniqueness(st.committed, record) then (st, UpsertIntegrityError)
    else
      (Store(
         st.committed[slot := Row(record, op)],
         st.heads[record.key := record.version],
         st.pending - {slot}),
       Inserted)
  }

  function VersionsOf(st: Store, key: string): set<nat> {
    set s | s in st.committed && s.key == key :: s.version
  }

  function Maximum(s: set<nat>): (m: nat)
    requires s != {}
    ensures m in s && forall x | x in s :: x <= m
  {
    MaximumExists(s);
    var m :| m in s && forall x | x in s :: x <= m;
    m
  }

  lemma MaximumExists(s: set<nat>)
    requires s != {}
    ensures exists m :: m in s && forall x | x in s :: x <= m
  {
    var x :| x in s;
    var rest := s - {x};
    if rest == {} {
      assert s == {x};
    } else {
      MaximumExists(rest);
      var m :| m in rest && forall y | y in rest :: y <= m;
      var best := if x <= m then m else x;
      assert forall y | y in s :: y == x || y in rest;
      assert best in s && forall y | y in s :: y <= best;
    }
  }

  /** The committed row with the highest version of a key. */
  function HeadRow(st: Store, key: string): Option<Row> {
    var versions := VersionsOf(st, key);
    if versions == {} then None else Some(st.committed[Slot(key, Maximum(versions))])
  }

  // ---- One replica's transactions as data, and what any sequence of them keeps ----

  /** `staged` and `record` have passed the replica's integrity verification. */
  datatype Tx =
    | TxPrepare(staged: SoundRecord, operationId: string, now: real, lease: real)
    | TxCommit(slot: Slot, recordId: RecordId, operationId: string)
    | TxAbort(slot: Slot, owner: Option<string>)
    | TxUpsert(record: SoundRecord, operationId: string)

  function ApplyTx(st: Store, tx: Tx): Store {
    match tx
    case TxPrepare(staged, op, now, lease) => PrepareInsert(st, staged, op, now, lease).0
    case TxCommit(slot, id, op) => CommitPromote(st, slot, id, op).0
    case TxAbort(slot, owner) => AbortPending(st, slot, owner).0
    case TxUpsert(record, op) => UpsertExternal(st, record, op).0
  }

  function ApplyAll(st: Store, txs: seq<Tx>): Store {
    if txs == [] then st else ApplyTx(ApplyAll(st, txs[..|txs| - 1]), txs[|txs| - 1])
  }

  ghost predicate RowsSound(st: Store) {
    forall s | s in st.committed ::
      && SlotOf(st.committed[s].record) == s
      && Sound(st.committed[s].record)
      && s.version <= Head(st, s.key)
  }

  ghost predicate Contiguous(st: Store) {
    && (forall k: string, v: nat | 1 <= v <= Head(st, k) :: Slot(k, v) in st.committed)
    && (forall k | k in st.heads :: st.heads[k] >= 1)
  }

  ghost predicate StagedNext(st: Store) {
    forall s | s in st.pending ::
      && SlotOf(st.pending[s].record) == s
      && Sound(st.pending[s].record)
      && s.version == Head(st, s.key) + 1
  }

  /** Committed versions of a key are exactly 1..head; what is staged is sound and sits at head + 1. */
  ghost predicate StoreInv(st: Store) {
    RowsSound(st) && Contiguous(st) && StagedNext(st)
  }

  /** Committed rows are write-once and heads never go down. */
  ghost predicate Extends(st: Store, st': Store) {
    && (forall s | s in st.committed :: s in st'.committed && st'.committed[s] == st.committed[s])
    && (forall k: string :: Head(st, k) <= Head(st', k))
  }

  lemma ApplyTxKeepsInvariant(st: Store, tx: Tx)
    requires StoreInv(st)
    ensures StoreInv(ApplyTx(st, tx))
    ensures Extends(st, ApplyTx(st, tx))
  {
    match tx
    case TxPrepare(staged, op, now, lease) => PrepareKeepsInvariant(st, staged, op, now, lease);
    case TxCommit(slot, id, op) => PromoteKeepsInvariant(st, slot, id, op);
    case TxAbort(slot, owner) => AbortKeepsInvariant(st, slot, owner);
    case TxUpsert(record, op) => UpsertKeepsInvariant(st, record, op);
  }

  lemma PrepareKeepsInvariant(st: Store, staged: SoundRecord, op: string, now: real, lease: real)
    requires StoreInv(st)
    ensures StoreInv(PrepareInsert(st, staged, op, now, lease).0)
    ensures Extends(st, PrepareInsert(st, staged, op, now, lease).0)
  {
    var slot := SlotOf(staged);
    var (st', result) := PrepareInsert(st, staged, op, now, lease);
    if result.outcome.Prepared? || result.outcome.PreparedLeaseTakeover? {
      var row := st'.pending[slot];
      assert st' == st.(pending := st.pending[slot := row]);
      StagingKeepsInvariant(st, slot, row);
    }
  }

  lemma StagingKeepsInvariant(st: Store, slot: Slot, row: Pending)
    requires StoreInv(st)
    requires SlotOf(row.record) == slot && Sound(row.record) && slot.version == Head(st, slot.key) + 1
    ensures StoreInv(st.(pending := st.pending[slot := row]))
    ensures Extends(st, st.(pending := st.pending[slot := row]))
  {
  }

  lemma AbortKeepsInvariant(st: Store, slot: Slot, owner: Option<string>)
    requires StoreInv(st)
    ensures StoreInv(AbortPending(st, slot, owner).0)
    ensures Extends(st, AbortPending(st, slot, owner).0)
  {
    var st' := AbortPending(st, slot, owner).0;
    assert st'.committed == st.committed && st'.heads == st.heads;
  }

  lemma PromoteKeepsInvariant(st: Store, slot: Slot, id: RecordId, op: string)
    requires StoreInv(st)
    ensures StoreInv(CommitPromote(st, slot, id, op).0)
    ensures Extends(st, CommitPromote(st, slot, id, op).0)
  {
    var (st', outcome) := CommitPromote(st, slot, id, op);
    if outcome.Promoted? {
      AppendKeepsInvariant(st, st.pending[slot].record, op);
      assert st' == Appended(st, st.pending[slot].record, op);
    }
  }

  lemma UpsertKeepsInvariant(st: Store, record: SoundRecord, op: string)
    requires StoreInv(st)
    ensures StoreInv(UpsertExternal(st, record, op).0)
    ensures Extends(st, UpsertExternal(st, record, op).0)
  {
    var (st', status) := UpsertExternal(st, record, op);
    if status.Inserted? {
      AppendKeepsInvariant(st, record, op);
      assert st' == Appended(st, record, op);
    }
  }

  /** Promotion and repair both append the next version of one key. */
  lemma AppendKeepsInvariant(st: Store, r: Record, op: string)
    requires StoreInv(st) && Sound(r)
    requires r.version == Head(st, r.key) + 1
    ensures StoreInv(Appended(st, r, op)) && Extends(st, Appended(st, r, op))
  {
    AppendKeepsRows(st, r, op);
    AppendKeepsContiguous(st, r, op);
    AppendKeepsStaged(st, r, op);
  }

  function Appended(st: Store, r: Record, op: string): Store {
    Store(st.committed[SlotOf(r) := Row(r, op)], st.heads[r.key := r.version], st.pending - {SlotOf(r)})
  }

  lemma AppendKeepsRows(st: Store, r: Record, op: string)
    requires RowsSound(st) && Sound(r) && r.version == Head(st, r.key) + 1
    ensures RowsSound(Appended(st, r, op)) && Extends(st, Appended(st, r, op))
  {
    var st' := Appended(st, r, op);
    assert SlotOf(r) !in st.committed;
    forall s | s in st'.committed
      ensures SlotOf(st'.committed[s].record) == s && Sound(st'.committed[s].record) && s.version <= Head(st', s.key)
    {
      if s == SlotOf(r) {
        assert st'.committed[s].record == r;
      } else {
        assert s in st.committed && st'.committed[s] == st.committed[s];
      }
    }
  }

  lemma AppendKeepsContiguous(st: Store, r: Record, op: string)
    requires Contiguous(st) && r.version == Head(st, r.key) + 1
    ensures Contiguous(Appended(st, r, op))
  {
  }

  lemma AppendKeepsStaged(st: Store, r: Record, op: string)
    requires StagedNext(st) && r.version == Head(st, r.key) + 1
    ensures StagedNext(Appended(st, r, op))
  {
  }

  lemma {:induction false} ApplyAllKeepsInvariant(st: Store, txs: seq<Tx>)
    requires StoreInv(st)
    ensures StoreInv(ApplyAll(st, txs))
    ensures Extends(st, ApplyAll(st, txs))
  {
    if txs != [] {
      ApplyAllKeepsInvariant(st, txs[..|txs| - 1]);
      ApplyTxKeepsInvariant(ApplyAll(st, txs[..|txs| - 1]), txs[|txs| - 1]);
    }
  }

  /** In every transaction history: contiguous versions, one staging per key at head + 1, an honest head row. */
  lemma HistoryShape(txs: seq<Tx>, key: string)
    ensures var st := ApplyAll(EMPTY_STORE, txs);
            && (forall v: nat :: Slot(key, v) in st.committed <==> 1 <= v <= Head(st, key))
            && (forall v: nat :: Slot(key, v) in st.pending ==> v == Head(st, key) + 1)
            && HeadRow(st, key) == (if Head(st, key) == 0 then None else Some(st.committed[Slot(key, Head(st, key))]))
  {
    ApplyAllKeepsInvariant(EMPTY_STORE, txs);
    HeadRowAgrees(ApplyAll(EMPTY_STORE, txs), key);
  }

  lemma HeadRowAgrees(st: Store, key: string)
    requires StoreInv(st)
    ensures Head(st, key) >= 1 ==> Slot(key, Head(st, key)) in st.committed
    ensures HeadRow(st, key) == (if Head(st, key) == 0 then None else Some(st.committed[Slot(key, Head(st, key))]))
  {
    var versions := VersionsOf(st, key);
    var h := Head(st, key);
    if h == 0 {
      assert versions == {};
    } else {
      assert Slot(key, h).version in versions;
      assert forall v | v in versions :: Slot(key, v) in st.committed;
    }
  }

  /** Neither the non-forward refusal nor a uniqueness violation can occur in any transaction history. */
  lemma DeadRefusals(txs: seq<Tx>, slot: Slot, id: RecordId, op: string, record: SoundRecord)
    ensures var st := ApplyAll(EMPTY_STORE, txs);
            && !CommitPromote(st, slot, id, op).1.RefusedNonForward?
            && !CommitPromote(st, slot, id, op).1.IntegrityError?
            && !UpsertExternal(st, record, op).1.UpsertIntegrityError?
  {
    var st := ApplyAll(EMPTY_STORE, txs);
    ApplyAllKeepsInvariant(EMPTY_STORE, txs);
    if slot in st.pending {
      FreshSlotIsUnique(st, st.pending[slot].record);
    }
    if SlotOf(record) !in st.committed {
      FreshSlotIsUnique(st, record);
    }
  }

  /** The unique record-id index only fires on an occupied slot. */
  lemma FreshSlotIsUnique(st: Store, r: Record)
    requires StoreInv(st) && Sound(r)
    requires SlotOf(r) !in st.committed
    ensures !BreaksUniqueness(st.committed, r)
  {
    forall s | s in st.committed
      ensures st.committed[s].record.recordId != r.recordId
    {
      var other := st.committed[s].record;
      if other.recordId == r.recordId {
        LabelInjective(other.key, other.version, r.key, r.version);
        assert false;
      }
    }
  }

  // ---- The database object ----

  class ReplicaDatabase {
    var committed: map<Slot, Row>
    var heads: map<string, nat>
    var pending: map<Slot, Pending>

    ghost function Contents(): Store
      reads this
    {
      Store(committed, heads, pending)
    }

    constructor ()
      ensures Contents() == EMPTY_STORE
    {
      committed, heads, pending := map[], map[], map[];
    }

    function HeadVersion(key: string): (v: nat)
      reads this
      ensures v == Head(Contents(), key)
    {
      if key in heads then heads[key] else 0
    }

    method Prepare(staged: Record, op: string, now: real, lease: real) returns (result: PrepareResult)
      modifies this
      ensures (Contents(), result) == PrepareInsert(old(Contents()), staged, op, now, lease)
      ensures result.currentVersion == Head(old(Contents()), staged.key)
      ensures result.outcome.StaleVersion? <==> staged.version <= Head(old(Contents()), staged.key)
      ensures result.outcome.AheadOfHead? <==> staged.version > Head(old(Contents()), staged.key) + 1
      ensures staged.version == Head(old(Contents()), staged.key) + 1 ==>
                NextIsStaged(old(Contents()), Contents(), staged, op, now, lease, result.outcome)
      ensures !(result.outcome.Prepared? || result.outcome.PreparedLeaseTakeover?) ==> Contents() == old(Contents())
      ensures committed == old(committed) && heads == old(heads)
    {
      var head := HeadVersion(staged.key);
      if staged.version <= head {
        return PrepareResult(StaleVersion, head);
      }
      if staged.version != head + 1 {
        return PrepareResult(AheadOfHead, head);
      }
      var slot := SlotOf(staged);
      var takeover := false;
      if slot in pending {
        var row := pending[slot];
        if row.record.recordId == staged.recordId {
          pending := pending[slot := row.(operationId := op, createdEpoch := now)];
          return PrepareResult(Prepared, head);
        }
        if now - row.createdEpoch > lease {
          pending := pending - {slot};
          takeover := true;
        } else {
          return PrepareResult(SlotConflict, head);
        }
      }
      pending := pending[slot := Pending(staged, op, now)];
      assert takeover ==> pending == old(pending)[slot := Pending(staged, op, now)];
      return PrepareResult(if takeover then PreparedLeaseTakeover else Prepared, head);
    }

    method Promote(slot: Slot, id: RecordId, op: string) returns (outcome: CommitOutcome)
      modifies this
      ensures (Contents(), outcome) == CommitPromote(old(Contents()), slot, id, op)
      ensures outcome.UnknownOperation? <==> !StagedBy(old(Contents()), slot, id, op)
      ensures StoreInv(old(Contents())) && StagedBy(old(Contents()), slot, id, op) ==> outcome.Promoted?
      ensures outcome.Promoted? ==>
                && StagedBy(old(Contents()), slot, id, op) && slot.version == Head(old(Contents()), slot.key) + 1
                && pending == old(pending) - {slot} && heads == old(heads)[slot.key := slot.version]
                && var row := old(pending)[slot].record; committed == old(committed)[SlotOf(row) := Row(row, op)]
      ensures !outcome.Promoted? ==> Contents() == old(Contents())
    {
      if StoreInv(Contents()) && slot in pending {
        FreshSlotIsUnique(Contents(), pending[slot].record);
      }
      if slot !in pending || pending[slot].operationId != op || pending[slot].record.recordId != id {
        return UnknownOperation;
      }
      var head := HeadVersion(slot.key);
      if slot.version != head + 1 {
        return RefusedNonForward;
      }
      var staged := pending[slot].record;
      if BreaksUniqueness(committed, staged) {
        return IntegrityError;
      }
      pending := pending - {slot};
      committed := committed[SlotOf(staged) := Row(staged, op)];
      heads := heads[slot.key := slot.version];
      return Promoted;
    }

    method Abort(slot: Slot, op: Option<string>) returns (removed: bool)
      modifies this
      ensures (Contents(), removed) == AbortPending(old(Contents()), slot, op)
      ensures removed <==> slot in old(pending) && (op == None || op == Some(old(pending)[slot].operationId))
      ensures pending == if removed then old(pending) - {slot} else old(pending)
      ensures committed == old(committed) && heads == old(heads)
    {
      removed := slot in pending && (op.None? || pending[slot].operationId == op.value);
      if removed {
        pending := pending - {slot};
      }
    }

    method Upsert(record: Record, op: string) returns (status: UpsertStatus)
      modifies this
      ensures (Contents(), status) == UpsertExternal(old(Contents()), record, op)
      ensures status.Identical? <==>
                SlotOf(record) in old(committed) && old(committed)[SlotOf(record)].record.recordId == record.recordId
      ensures status.Inserted? ==>
                && SlotOf(record) !in old(committed) && record.version == Head(old(Contents()), record.key) + 1
                && committed == old(committed)[SlotOf(record) := Row(record, op)]
                && heads == old(heads)[record.key := record.version] && pending == old(pending) - {SlotOf(record)}
      ensures StoreInv(old(Contents())) && Sound(record) && record.version == Head(old(Contents()), record.key) + 1 ==>
                status.Inserted?
      ensures !status.Inserted? ==> Contents() == old(Contents())
    {
      if StoreInv(Contents()) && Sound(record) && SlotOf(record) !in committed {
        FreshSlotIsUnique(Contents(), record);
      }
      var slot := SlotOf(record);
      if slot in committed {
        return if committed[slot].record.recordId == record.recordId then Identical else Refused;
      }
      var head := HeadVersion(record.key);
      if record.version != head + 1 {
        return Refused;
      }
      if BreaksUniqueness(committed, record) {
        return UpsertIntegrityError;
      }
      committed := committed[slot := Row(record, op)];
      heads := heads[record.key := record.version];
      pending := pending - {slot};
      return Inserted;
    }

    /** Any one transaction, whoever issued it. */
    method Execute(tx: Tx)
      modifies this
      ensures Contents() == ApplyTx(old(Contents()), tx)
    {
      match tx
      case TxPrepare(staged, op, now, lease) => var _ := Prepare(staged, op, now, lease);
      case TxCommit(slot, id, op) => var _ := Promote(slot, id, op);
      case TxAbort(slot, owner) => var _ := Abort(slot, owner);
      case TxUpsert(record, op) => var _ := Upsert(record, op);
    }

    /** The committed row at one slot, or the row with the highest version of the key. */
    function CommittedRow(key: string, version: Option<nat>): (row: Option<Row>)
      reads this
      ensures row == LookUp(Contents(), key, version)
    {
      match version
      case None => HeadRow(Store(committed, heads, pending), key)
      case Some(v) => if Slot(key, v) in committed then Some(committed[Slot(key, v)]) else None
    }
  }

  function LookUp(st: Store, key: string, version: Option<nat>): Option<Row> {
    match version
    case None => HeadRow(st, key)
    case Some(v) => if Slot(key, v) in st.committed then Some(st.committed[Slot(key, v)]) else None
  }
}
