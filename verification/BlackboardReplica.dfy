/** One replica: health and fault handling around its database, answering every call with an acknowledgement. */
module Replica {
  import opened BlackboardContracts
  import opened Wrappers
  import opened ReplicaStorage
  import opened BlackboardProtocol

  datatype Health = Healthy | Down | Diverged

  /** How a call can fail without touching the store. */
  datatype Fault = NoFault | HookUnavailable | HookError | StorageFailure

  /** What the record hook hands to `prepare`. */
  datatype Interception = PassThrough | Substitute(record: Record) | NotARecord

  /** The circumstances of one prepare; `fits` is the firewall and size check. */
  datatype PrepareCall = PrepareCall(fault: Fault, interception: Interception, fits: bool, now: real)

  function ApplyOptional(st: Store, tx: Option<Tx>): Store {
    if tx.Some? then ApplyTx(st, tx.value) else st
  }

  /** The transaction a prepare runs, if any, and its acknowledgement. */
  function PrepareReply(st: Store, i: ReplicaIndex, health: Health, op: string, record: Record, call: PrepareCall,
                        lease: real): (Option<Tx>, Ack)
  {
    if health.Down? || call.fault.HookUnavailable? then (None, Ack(i, Unavailable, Some(record), None))
    else if call.fault.HookError? then (None, Ack(i, StorageError, Some(record), None))
    else if call.interception.NotARecord? then (None, Ack(i, RejectSchema, None, None))
    else
      var staged := if call.interception.Substitute? then call.interception.record else record;
      if !KeyShape(staged.key) || staged.version < 1 then (None, Ack(i, RejectSchema, None, None))
      else if !Verified(staged) then (None, Ack(i, RejectIntegrity, Some(staged), None))
      else if !call.fits then (None, Ack(i, RejectSchema, Some(staged), None))
      else if call.fault.StorageFailure? then (None, Ack(i, StorageError, Some(staged), None))
      else
        var result := PrepareInsert(st, staged, op, call.now, lease).1;
        var tx := Some(TxPrepare(staged, op, call.now, lease));
        match result.outcome
        case Prepared => (tx, Ack(i, AckPrepared, Some(staged), None))
        case PreparedLeaseTakeover => (tx, Ack(i, AckPrepared, Some(staged), None))
        case StaleVersion => (tx, Ack(i, RejectStale, Some(staged), Some(result.currentVersion)))
        case AheadOfHead => (tx, Ack(i, RejectSchema, Some(staged), Some(result.currentVersion)))
        case SlotConflict => (tx, Ack(i, RejectConflict, Some(staged), Some(result.currentVersion)))
  }

  function CommitReply(st: Store, i: ReplicaIndex, health: Health, op: string, record: Record, fault: Fault)
    : (Option<Tx>, Ack)
  {
    if health.Down? || fault.HookUnavailable? then (None, Ack(i, Unavailable, Some(record), None))
    else if fault.HookError? || fault.StorageFailure? then (None, Ack(i, StorageError, Some(record), None))
    else
      var outcome := CommitPromote(st, SlotOf(record), record.recordId, op).1;
      (Some(TxCommit(SlotOf(record), record.recordId, op)),
       Ack(i, if outcome.Promoted? then AckCommitted else StorageError, Some(record), None))
  }

  function AbortReply(i: ReplicaIndex, health: Health, op: string, slot: Slot, fault: Fault): (Option<Tx>, Ack) {
    if health.Down? || fault.HookUnavailable? then (None, Ack(i, Unavailable, None, None))
    else if fault.HookError? || fault.StorageFailure? then (None, Ack(i, StorageError, None, None))
    else (Some(TxAbort(slot, Some(op))), Ack(i, Aborted, None, None))
  }

  function UpsertReply(st: Store, i: ReplicaIndex, health: Health, op: string, record: Record, fault: Fault)
    : (Option<Tx>, Ack)
  {
    if health.Down? || fault.HookUnavailable? then (None, Ack(i, Unavailable, Some(record), None))
    else if fault.HookError? || fault.StorageFailure? || !Sound(record) then
      (None, Ack(i, StorageError, Some(record), None))
    else
      var status := UpsertExternal(st, record, op).1;
      (Some(TxUpsert(record, op)),
       Ack(i,
           match status {
             case Inserted => AckCommitted
             case Identical => AckCommitted
             case Refused => RejectConflict
             case UpsertIntegrityError => StorageError
           },
           Some(record), None))
  }

  /** The record a prepare is about: the one handed in, or what the hook put in its place. */
  predicate Stages(record: Record, call: PrepareCall, staged: Record) {
    call.interception == Substitute(staged) || (call.interception.PassThrough? && staged == record)
  }

  /** Another record holds the slot and its lease has not run out. */
  predicate Leased(st: Store, staged: Record, now: real, lease: real) {
    && SlotOf(staged) in st.pending && st.pending[SlotOf(staged)].record.recordId != staged.recordId
    && now - st.pending[SlotOf(staged)].createdEpoch <= lease
  }

  /** The answer to a prepare that got through to the store. */
  predicate AnswersPrepare(st: Store, staged: Record, now: real, lease: real, ack: Ack) {
    var head := Head(st, staged.key);
    && ack.subject == Some(staged)
    && (ack.status.AckPrepared? <==> staged.version == head + 1 && !Leased(st, staged, now, lease))
    && (ack.status.RejectStale? <==> staged.version <= head)
    && (ack.status.RejectSchema? <==> staged.version > head + 1)
    && (ack.status.RejectConflict? <==> staged.version == head + 1 && Leased(st, staged, now, lease))
    && (!ack.status.AckPrepared? ==> ack.currentVersion == Some(head))
  }

  /** The record is already committed in its slot, or is the next version of its key. */
  predicate Insertable(st: Store, record: Record) {
    || (SlotOf(record) in st.committed && st.committed[SlotOf(record)].record.recordId == record.recordId)
    || Head(st, record.key) + 1 == record.version
  }

  /** Nothing changed, or the record became the head of its key and its slot's staging is gone. */
  predicate Grown(st: Store, st': Store, record: Record, op: string) {
    || st' == st
    || (&& SlotOf(record) !in st.committed && record.version == Head(st, record.key) + 1
        && st'.committed == st.committed[SlotOf(record) := Row(record, op)]
        && st'.heads == st.heads[record.key := record.version] && st'.pending == st.pending - {SlotOf(record)})
  }

  /** The slot holds this record's staging under this operation and time; the rest of the store is as it was. */
  predicate StagedNow(st: Store, st': Store, staged: Record, op: string, now: real) {
    var slot := SlotOf(staged);
    && slot in st'.pending && Restaged(st, st', slot, st'.pending[slot])
    && st'.pending[slot].record.recordId == staged.recordId
    && st'.pending[slot].operationId == op && st'.pending[slot].createdEpoch == now
  }

  /**
   What a prepare does, whatever stops it: nothing below the store is reached while the replica is down, a hook
   interferes or the record is unfit; otherwise the head and the lease decide, and only a grant changes the store.
   */
  lemma PrepareAnswered(st: Store, i: ReplicaIndex, health: Health, op: string, record: Record, staged: Record,
                        call: PrepareCall, lease: real)
    requires call.interception.NotARecord? || Stages(record, call, staged)
    ensures var (tx, ack) := PrepareReply(st, i, health, op, record, call, lease);
            var st' := ApplyOptional(st, tx);
            && ack.replica == i
            && (ack.status.Unavailable? <==> health.Down? || call.fault.HookUnavailable?)
            && (!health.Down? && call.fault.HookError? ==> ack.status.StorageError?)
            && (!health.Down? && call.interception.NotARecord? && (call.fault.NoFault? || call.fault.StorageFailure?) ==>
                  ack.status.RejectSchema?)
            && (!health.Down? && !call.interception.NotARecord? && (call.fault.NoFault? || call.fault.StorageFailure?) ==>
                  && (KeyShape(staged.key) && staged.version >= 1 && !Verified(staged) <==> ack.status.RejectIntegrity?)
                  && (!KeyShape(staged.key) || staged.version < 1 || (Verified(staged) && !call.fits) ==>
                        ack.status.RejectSchema?)
                  && (Sound(staged) && call.fits && call.fault.StorageFailure? ==> ack.status.StorageError?)
                  && (Sound(staged) && call.fits && call.fault.NoFault? ==>
                        AnswersPrepare(st, staged, call.now, lease, ack)))
            && (ack.status.AckPrepared? ==> StagedNow(st, st', staged, op, call.now))
            && (!ack.status.AckPrepared? ==> st' == st)
  {
  }

  /** A commit is acknowledged exactly if the replica answers and this operation has this record staged. */
  lemma CommitAnswered(st: Store, i: ReplicaIndex, health: Health, op: string, record: Record, fault: Fault)
    requires StoreInv(st)
    ensures var (tx, ack) := CommitReply(st, i, health, op, record, fault);
            var st' := ApplyOptional(st, tx);
            && ack.replica == i && ack.subject == Some(record)
            && (ack.status.Unavailable? <==> health.Down? || fault.HookUnavailable?)
            && (ack.status.AckCommitted? <==>
                  !health.Down? && fault.NoFault? && StagedBy(st, SlotOf(record), record.recordId, op))
            && (ack.status.Unavailable? || ack.status.AckCommitted? || ack.status.StorageError?)
            && (ack.status.AckCommitted? ==> Grown(st, st', st.pending[SlotOf(record)].record, op) && st' != st)
            && (!ack.status.AckCommitted? ==> st' == st)
  {
    var slot := SlotOf(record);
    if slot in st.pending {
      FreshSlotIsUnique(st, st.pending[slot].record);
    }
    if StagedBy(st, slot, record.recordId, op) {
      assert slot in CommitPromote(st, slot, record.recordId, op).0.committed;
    }
  }

  /** An abort that gets through is acknowledged, and takes away this operation's staging of the slot and nothing else. */
  lemma AbortAnswered(st: Store, i: ReplicaIndex, health: Health, op: string, slot: Slot, fault: Fault)
    ensures var (tx, ack) := AbortReply(i, health, op, slot, fault);
            var st' := ApplyOptional(st, tx);
            && ack.replica == i && ack.subject == None
            && (ack.status.Unavailable? <==> health.Down? || fault.HookUnavailable?)
            && (ack.status.Aborted? <==> !health.Down? && fault.NoFault?)
            && (ack.status.Unavailable? || ack.status.Aborted? || ack.status.StorageError?)
            && st'.committed == st.committed && st'.heads == st.heads
            && (forall s :: s in st'.pending <==>
                  s in st.pending && !(ack.status.Aborted? && s == slot && st.pending[s].operationId == op))
            && (forall s | s in st'.pending :: st'.pending[s] == st.pending[s])
  {
  }

  /** A repair insert is acknowledged exactly if the record is there already or is the next version of its key. */
  lemma UpsertAnswered(st: Store, i: ReplicaIndex, health: Health, op: string, record: Record, fault: Fault)
    requires StoreInv(st)
    ensures var (tx, ack) := UpsertReply(st, i, health, op, record, fault);
            var st' := ApplyOptional(st, tx);
            && ack.replica == i && ack.subject == Some(record)
            && (ack.status.Unavailable? <==> health.Down? || fault.HookUnavailable?)
            && (!health.Down? && !fault.HookUnavailable? ==>
                  && (ack.status.StorageError? <==> !fault.NoFault? || !Sound(record))
                  && (ack.status.AckCommitted? <==> fault.NoFault? && Sound(record) && Insertable(st, record))
                  && (ack.status.RejectConflict? <==> fault.NoFault? && Sound(record) && !Insertable(st, record)))
            && Grown(st, st', record, op)
            && (ack.status.AckCommitted? ==>
                  SlotOf(record) in st'.committed && st'.committed[SlotOf(record)].record.recordId == record.recordId)
  {
    if Sound(record) && SlotOf(record) !in st.committed {
      FreshSlotIsUnique(st, record);
    }
  }

  class BlackboardReplica {
    const index: ReplicaIndex
    const db: ReplicaDatabase
    const pendingLease: real
    var health: Health

    constructor (index: ReplicaIndex, pendingLease: real)
      ensures this.index == index && this.pendingLease == pendingLease && health == Healthy
      ensures fresh(db) && db.Contents() == EMPTY_STORE
    {
      this.index, this.pendingLease, this.health := index, pendingLease, Healthy;
      this.db := new ReplicaDatabase();
    }

    method SetHealth(h: Health)
      modifies this
      ensures health == h
    {
      health := h;
    }

    /** Marking diverged overwrites any health, an outage included. */
    method MarkDiverged()
      modifies this
      ensures health == Diverged
    {
      health := Diverged;
    }

    method ClearDivergence()
      modifies this
      ensures health == if old(health).Diverged? then Healthy else old(health)
    {
      if health.Diverged? {
        health := Healthy;
      }
    }

    method Prepare(op: string, record: Record, call: PrepareCall) returns (ack: Ack)
      modifies db
      ensures var (tx, reply) := PrepareReply(old(db.Contents()), index, health, op, record, call, pendingLease);
              ack == reply && db.Contents() == ApplyOptional(old(db.Contents()), tx)
    {
      if health.Down? || call.fault.HookUnavailable? {
        return Ack(index, Unavailable, Some(record), None);
      }
      if call.fault.HookError? {
        return Ack(index, StorageError, Some(record), None);
      }
      if call.interception.NotARecord? {
        return Ack(index, RejectSchema, None, None);
      }
      var staged := if call.interception.Substitute? then call.interception.record else record;
      if !KeyShape(staged.key) || staged.version < 1 {
        return Ack(index, RejectSchema, None, None);
      }
      if !Verified(staged) {
        return Ack(index, RejectIntegrity, Some(staged), None);
      }
      if !call.fits {
        return Ack(index, RejectSchema, Some(staged), None);
      }
      if call.fault.StorageFailure? {
        return Ack(index, StorageError, Some(staged), None);
      }
      var result := db.Prepare(staged, op, call.now, pendingLease);
      match result.outcome
      case Prepared => ack := Ack(index, AckPrepared, Some(staged), None);
      case PreparedLeaseTakeover => ack := Ack(index, AckPrepared, Some(staged), None);
      case StaleVersion => ack := Ack(index, RejectStale, Some(staged), Some(result.currentVersion));
      case AheadOfHead => ack := Ack(index, RejectSchema, Some(staged), Some(result.currentVersion));
      case SlotConflict => ack := Ack(index, RejectConflict, Some(staged), Some(result.currentVersion));
    }

    method Commit(op: string, record: Record, fault: Fault) returns (ack: Ack)
      modifies db
      ensures var (tx, reply) := CommitReply(old(db.Contents()), index, health, op, record, fault);
              ack == reply && db.Contents() == ApplyOptional(old(db.Contents()), tx)
    {
      if health.Down? || fault.HookUnavailable? {
        return Ack(index, Unavailable, Some(record), None);
      }
      if fault != NoFault {
        return Ack(index, StorageError, Some(record), None);
      }
      var outcome := db.Promote(SlotOf(record), record.recordId, op);
      ack := Ack(index, if outcome.Promoted? then AckCommitted else StorageError, Some(record), None);
    }

    method Abort(op: string, slot: Slot, fault: Fault) returns (ack: Ack)
      modifies db
      ensures var (tx, reply) := AbortReply(index, health, op, slot, fault);
              ack == reply && db.Contents() == ApplyOptional(old(db.Contents()), tx)
    {
      if health.Down? || fault.HookUnavailable? {
        return Ack(index, Unavailable, None, None);
      }
      if fault != NoFault {
        return Ack(index, StorageError, None, None);
      }
      var _ := db.Abort(slot, Some(op));
      ack := Ack(index, Aborted, None, None);
    }

    method UpsertExternal(op: string, record: Record, fault: Fault) returns (ack: Ack)
      modifies db
      ensures var (tx, reply) := UpsertReply(old(db.Contents()), index, health, op, record, fault);
              ack == reply && db.Contents() == ApplyOptional(old(db.Contents()), tx)
    {
      if health.Down? || fault.HookUnavailable? {
        return Ack(index, Unavailable, Some(record), None);
      }
      if fault != NoFault || !Sound(record) {
        return Ack(index, StorageError, Some(record), None);
      }
      var status := db.Upsert(record, op);
      match status
      case Inserted => ack := Ack(index, AckCommitted, Some(record), None);
      case Identical => ack := Ack(index, AckCommitted, Some(record), None);
      case Refused => ack := Ack(index, RejectConflict, Some(record), None);
      case UpsertIntegrityError => ack := Ack(index, StorageError, Some(record), None);
    }
  }
}
