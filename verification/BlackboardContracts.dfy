/** The Blackboard's value objects: records, their derived identities, and acknowledgements. */
module BlackboardContracts {
  import opened Wrappers

  datatype Action = Allow | Monitor | Block

  /** An enforcement decision: the payload the action ledger stores. */
  datatype Decision = Decision(
    decisionId: string,
    workflowId: string,
    replayId: string,
    windowId: nat,
    entityId: string,
    logicalTimestamp: string,
    action: Action,
    recommendationId: string)

  datatype Payload = Opaque(text: string) | Enforcement(decision: Decision)

  /** SHA-256 over the hashed fields, idealised as a free (hence injective) constructor. */
  datatype Digest = Digest(key: string, version: nat, body: Payload)

  /** `{key}#v{version}#{hash prefix}`: the text up to the last '#', and the collision-free prefix. */
  datatype RecordId = RecordId(text: string, hashPrefix: Digest)

  datatype Record = Record(key: string, version: nat, body: Payload, contentHash: Digest, recordId: RecordId)

  /** Decimal rendering of a version or window number. */
  function Decimal(n: nat): (s: string)
    ensures |s| >= 1
    ensures forall i | 0 <= i < |s| :: '0' <= s[i] <= '9'
  {
    if n < 10 then [DigitChar(n)] else Decimal(n / 10) + [DigitChar(n % 10)]
  }

  function DigitChar(d: nat): (c: char)
    requires d < 10
    ensures '0' <= c <= '9'
  {
    '0' + d as char
  }

  function Label(key: string, version: nat): string {
    key + "#v" + Decimal(version)
  }

  function DeriveRecordId(key: string, version: nat, hash: Digest): RecordId {
    RecordId(Label(key, version), hash)
  }

  function BuildRecord(key: string, version: nat, body: Payload): Record {
    var hash := Digest(key, version, body);
    Record(key, version, body, hash, DeriveRecordId(key, version, hash))
  }

  /** The stored hash and id are the ones recomputed from the content. */
  predicate Verified(r: Record) {
    && r.contentHash == Digest(r.key, r.version, r.body)
    && r.recordId == DeriveRecordId(r.key, r.version, r.contentHash)
  }

  predicate AlphaNumeric(c: char) {
    'A' <= c <= 'Z' || 'a' <= c <= 'z' || '0' <= c <= '9'
  }

  predicate KeyChar(c: char) {
    AlphaNumeric(c) || c in "._:/-"
  }

  predicate KeyCore(s: string) {
    && 1 <= |s| <= 128
    && AlphaNumeric(s[0])
    && forall i | 0 <= i < |s| :: KeyChar(s[i])
  }

  /** The key pattern; `$` also matches before one trailing newline. */
  predicate KeyShape(s: string) {
    KeyCore(s) || (|s| >= 1 && s[|s| - 1] == '\n' && KeyCore(s[..|s| - 1]))
  }

  /** What construction and integrity verification establish about a record. */
  predicate Sound(r: Record) {
    KeyShape(r.key) && r.version >= 1 && Verified(r)
  }

  type SoundRecord = r: Record | Sound(r) witness BuildRecord("a", 1, Opaque(""))

  lemma KeyHasNoHash(s: string)
    requires KeyShape(s)
    ensures '#' !in s
  {
    forall i | 0 <= i < |s|
      ensures s[i] != '#'
    {
      assert i < |s| - 1 ==> s[..|s| - 1][i] == s[i];
    }
  }

  lemma {:induction false} DecimalInjective(m: nat, n: nat)
    requires Decimal(m) == Decimal(n)
    ensures m == n
  {
    if m >= 10 && n >= 10 {
      assert Decimal(m)[..|Decimal(m)| - 1] == Decimal(m / 10);
      assert Decimal(n)[..|Decimal(n)| - 1] == Decimal(n / 10);
      DecimalInjective(m / 10, n / 10);
      assert Decimal(m)[|Decimal(m)| - 1] == DigitChar(m % 10);
      assert Decimal(n)[|Decimal(n)| - 1] == DigitChar(n % 10);
      assert m % 10 == n % 10;
    } else {
      DecimalLength(m);
      DecimalLength(n);
    }
  }

  lemma DecimalLength(n: nat)
    ensures |Decimal(n)| == 1 <==> n < 10
  {
  }

  /** The readable part of a record id already determines key and version, because no key holds '#'. */
  lemma LabelInjective(k1: string, v1: nat, k2: string, v2: nat)
    requires KeyShape(k1) && KeyShape(k2)
    requires Label(k1, v1) == Label(k2, v2)
    ensures k1 == k2 && v1 == v2
  {
    KeyHasNoHash(k1);
    KeyHasNoHash(k2);
    var s := Label(k1, v1);
    assert s[|k1|] == '#' && s[|k2|] == '#';
    assert forall i | 0 <= i < |k1| :: s[i] == k1[i];
    assert forall i | 0 <= i < |k2| :: s[i] == k2[i];
    assert |k1| == |k2|;
    assert k1 == s[..|k1|] == k2;
    assert Decimal(v1) == s[|k1| + 2..] == Decimal(v2);
    DecimalInjective(v1, v2);
  }

  /** Two sound records with one id are one record. */
  lemma RecordIdDeterminesRecord(a: Record, b: Record)
    requires Verified(a) && Verified(b)
    requires a.recordId == b.recordId
    ensures a == b
  {
  }

  datatype AckStatus =
    | AckPrepared
    | AckCommitted
    | Aborted
    | RejectStale
    | RejectConflict
    | RejectSchema
    | RejectIntegrity
    | Unavailable
    | StorageError

  /** One replica's acknowledgement; `subject` carries the identity fields it reports. */
  datatype Ack = Ack(replica: nat, status: AckStatus, subject: Option<Record>, currentVersion: Option<nat>)

  datatype WriteOutcome =
    | Committed
    | PartialCommit
    | FailedQuorum
    | FailedStorage
    | RejectedStale
    | RejectedConflict
    | RejectedSchema
    | RejectedAuthorization

  datatype ReadOutcome =
    | Consistent
    | DegradedConsistent
    | Inconsistent
    | InsufficientQuorum
    | NotFound
    | ReadUnavailable
    | AuthorizationRejected

  /** Acknowledgements needed to commit, and replicas that must agree on a read (of three). */
  const QUORUM: nat := 2
}
