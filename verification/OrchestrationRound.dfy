/** One authenticated two-of-three decision round as a message-driven state machine. */
module OrchestrationRound {
  import opened Wrappers
  import opened BoundedDict
  import opened OrchestrationRequest

  const ORCHESTRATOR_A: string := "orchestrator_a"
  const ORCHESTRATOR_B: string := "orchestrator_b"
  const ORCHESTRATOR_C: string := "orchestrator_c"
  const ORCHESTRATORS: set<string> := {ORCHESTRATOR_A, ORCHESTRATOR_B, ORCHESTRATOR_C}
  const REQUIRED_QUORUM: nat := 2

  datatype Choice = Approve | Reject | Abstain

  /** The request a message claims to answer. */
  datatype Subject = Subject(requestId: string, version: nat, roundId: string, requestDigest: RequestDigest)

  /** `extra` stands for the remaining signed fields. */
  datatype Body =
    | ProposalBody(messageId: string, sender: string, about: Subject, routeId: string, digest: ProposalDigest, extra: string)
    | VoteBody(messageId: string, sender: string, about: Subject, digest: ProposalDigest, choice: Choice, extra: string)

  /** SHA-256 of the signed content, idealised as a free constructor. */
  datatype ContentHash = ContentHash(body: Body, keyId: string)

  /** HMAC under the signer's own key, idealised likewise. */
  datatype Tag = Tag(signer: string, body: Body, keyId: string)

  datatype Message = Message(body: Body, keyId: string, hash: ContentHash, tag: Tag)

  datatype Reason =
    | LateMessage | UnknownOrchestrator | AuthIdentityMismatch | MessageHashMismatch | AuthenticationFailed
    | WrongRequest | WrongRequestVersion | WrongRound | WrongRequestDigest
    | UnknownRoute | ProposalDigestMismatch | UnknownProposalDigest
    | ConflictingMessageId | ConflictingProposal | ConflictingVote

  datatype Reply = Accepted | Duplicate | Rejected(reason: Reason)

  type Seen = Ordered<(string, string), ContentHash>

  datatype Round = Round(
    proposals: map<string, Message>,
    votes: map<string, Message>,
    quorum: Option<ProposalDigest>,
    seen: Seen,
    terminal: bool)

  // ---- Checks on one message ----

  function Verify(m: Message): Option<Reason> {
    if m.body.sender !in ORCHESTRATORS then Some(UnknownOrchestrator)
    else if m.keyId != m.body.sender then Some(AuthIdentityMismatch)
    else if m.hash != ContentHash(m.body, m.keyId) then Some(MessageHashMismatch)
    else if m.tag != Tag(m.body.sender, m.body, m.keyId) then Some(AuthenticationFailed)
    else None
  }

  function Binding(request: Request, about: Subject): Option<Reason> {
    if about.requestId != request.requestId then Some(WrongRequest)
    else if about.version != request.version then Some(WrongRequestVersion)
    else if about.roundId != request.roundId then Some(WrongRound)
    else if about.requestDigest != DigestOf(request) then Some(WrongRequestDigest)
    else None
  }

  function Declared(request: Request): set<string> {
    set r | r in request.routes :: r.routeId
  }

  function SemanticDigest(about: Subject, routeId: string): ProposalDigest {
    ProposalDigest(about.requestId, about.version, about.roundId, about.requestDigest, routeId)
  }

  /** Everything checked before the replay cache is consulted. */
  function ProposalFault(request: Request, m: Message): Option<Reason>
    requires m.body.ProposalBody?
  {
    if Verify(m).Some? then Verify(m)
    else if Binding(request, m.body.about).Some? then Binding(request, m.body.about)
    else if m.body.routeId !in Declared(request) then Some(UnknownRoute)
    else if m.body.digest != SemanticDigest(m.body.about, m.body.routeId) then Some(ProposalDigestMismatch)
    else None
  }

  function KnownDigests(proposals: map<string, Message>): set<ProposalDigest> {
    set s | s in proposals :: proposals[s].body.digest
  }

  function VoteFault(request: Request, proposals: map<string, Message>, m: Message): Option<Reason>
    requires m.body.VoteBody?
  {
    if Verify(m).Some? then Verify(m)
    else if Binding(request, m.body.about).Some? then Binding(request, m.body.about)
    else if m.body.digest !in KnownDigests(proposals) then Some(UnknownProposalDigest)
    else None
  }

  // ---- The replay cache ----

  datatype Novelty = New | Repeated | Conflicting

  function Observe(seen: Seen, limit: nat, m: Message): (Seen, Novelty) {
    var key := (m.body.sender, m.body.messageId);
    if key in seen.entries then
      (Touched(seen, key), if seen.entries[key] == m.hash then Repeated else Conflicting)
    else (Stored(seen, limit, key, m.hash), New)
  }

  // ---- Counting ----

  predicate Supportive(m: Message) {
    m.body.VoteBody? && m.body.choice.Approve?
  }

  predicate Approves(m: Message, d: ProposalDigest) {
    Supportive(m) && m.body.digest == d
  }

  function Approvers(votes: map<string, Message>, d: ProposalDigest): set<string> {
    set s | s in votes && Approves(votes[s], d)
  }

  /** The digest two senders approve, if any. */
  ghost function Winner(votes: map<string, Message>): (q: Option<ProposalDigest>)
    ensures q.Some? ==> |Approvers(votes, q.value)| >= REQUIRED_QUORUM
    ensures q.None? ==> forall d :: |Approvers(votes, d)| < REQUIRED_QUORUM
  {
    if exists d :: |Approvers(votes, d)| >= REQUIRED_QUORUM then
      var d :| |Approvers(votes, d)| >= REQUIRED_QUORUM;
      Some(d)
    else None
  }

  // ---- One message, as a function on the round ----

  ghost function AcceptProposal(request: Request, limit: nat, st: Round, m: Message): (Round, Reply)
    requires m.body.ProposalBody?
  {
    if st.terminal then (st, Rejected(LateMessage))
    else if ProposalFault(request, m).Some? then (st, Rejected(ProposalFault(request, m).value))
    else
      var (seen, novelty) := Observe(st.seen, limit, m);
      var next := st.(seen := seen);
      if novelty.Repeated? then (next, Duplicate)
      else if novelty.Conflicting? then (next, Rejected(ConflictingMessageId))
      else if m.body.sender in st.proposals then
        (next, if st.proposals[m.body.sender].hash == m.hash then Duplicate else Rejected(ConflictingProposal))
      else (next.(proposals := st.proposals[m.body.sender := m]), Accepted)
  }

  ghost function AcceptVote(request: Request, limit: nat, st: Round, m: Message): (Round, Reply)
    requires m.body.VoteBody?
  {
    if st.terminal then (st, Rejected(LateMessage))
    else if VoteFault(request, st.proposals, m).Some? then (st, Rejected(VoteFault(request, st.proposals, m).value))
    else
      var (seen, novelty) := Observe(st.seen, limit, m);
      var next := st.(seen := seen);
      if novelty.Repeated? then (next, Duplicate)
      else if novelty.Conflicting? then (next, Rejected(ConflictingMessageId))
      else if m.body.sender in st.votes then
        (next, if st.votes[m.body.sender].hash == m.hash then Duplicate else Rejected(ConflictingVote))
      else
        var votes := st.votes[m.body.sender := m];
        (next.(votes := votes, quorum := if st.quorum.Some? then st.quorum else Winner(votes)), Accepted)
  }

  // ---- What acceptance means ----

  /** Its own sender made the hash and the tag, over this very body. */
  predicate Authentic(m: Message) {
    && m.body.sender in ORCHESTRATORS && m.keyId == m.body.sender
    && m.hash == ContentHash(m.body, m.keyId) && m.tag == Tag(m.body.sender, m.body, m.keyId)
  }

  /** It answers this very request. */
  predicate Concerns(request: Request, about: Subject) {
    about == Subject(request.requestId, request.version, request.roundId, DigestOf(request))
  }

  /** A proposal that names a declared route of this request, and whose digest says so. */
  predicate Admissible(request: Request, m: Message)
    requires m.body.ProposalBody?
  {
    && Authentic(m) && Concerns(request, m.body.about)
    && (exists r :: r in request.routes && r.routeId == m.body.routeId)
    && m.body.digest == ProposalDigest(request.requestId, request.version, request.roundId, DigestOf(request), m.body.routeId)
  }

  /** A vote on what somebody has proposed for this request. */
  predicate Votable(request: Request, proposals: map<string, Message>, m: Message)
    requires m.body.VoteBody?
  {
    Authentic(m) && Concerns(request, m.body.about) && exists s :: s in proposals && proposals[s].body.digest == m.body.digest
  }

  /** The key under which a message is remembered. */
  function MemoryKey(m: Message): (string, string) {
    (m.body.sender, m.body.messageId)
  }

  /** This message was seen before, under its own hash. */
  predicate Remembered(seen: Seen, m: Message) {
    MemoryKey(m) in seen.entries && seen.entries[MemoryKey(m)] == m.hash
  }

  /** Another message was seen before under this one's sender and id. */
  predicate Forged(seen: Seen, m: Message) {
    MemoryKey(m) in seen.entries && seen.entries[MemoryKey(m)] != m.hash
  }

  /**
   A proposal is accepted exactly if the round is open, the message is authentic and admissible, nothing was seen under
   its id and its sender has not proposed; then it alone is added. Each refusal names what is wrong.
   */
  lemma ProposalAccepted(request: Request, limit: nat, st: Round, m: Message)
    requires m.body.ProposalBody?
    ensures var (st', reply) := AcceptProposal(request, limit, st, m);
            && (reply.Accepted? <==>
                  !st.terminal && Admissible(request, m) && MemoryKey(m) !in st.seen.entries && m.body.sender !in st.proposals)
            && (reply == Rejected(LateMessage) <==> st.terminal)
            && (reply == Rejected(ConflictingMessageId) <==> !st.terminal && Admissible(request, m) && Forged(st.seen, m))
            && (reply == Rejected(ConflictingProposal) <==>
                  && !st.terminal && Admissible(request, m) && MemoryKey(m) !in st.seen.entries
                  && m.body.sender in st.proposals && st.proposals[m.body.sender].hash != m.hash)
            && (reply.Duplicate? <==>
                  && !st.terminal && Admissible(request, m)
                  && (|| Remembered(st.seen, m)
                      || (&& MemoryKey(m) !in st.seen.entries && m.body.sender in st.proposals
                          && st.proposals[m.body.sender].hash == m.hash)))
            && st'.proposals == (if reply.Accepted? then st.proposals[m.body.sender := m] else st.proposals)
            && st'.votes == st.votes && st'.quorum == st.quorum && st'.terminal == st.terminal
            && (st.terminal || !Admissible(request, m) ==> st' == st)
  {
    AuthenticVerifies(m);
    assert m.body.routeId in Declared(request) <==> exists r :: r in request.routes && r.routeId == m.body.routeId;
  }

  /** The same for a vote; a quorum once latched is kept. */
  lemma VoteAccepted(request: Request, limit: nat, st: Round, m: Message)
    requires m.body.VoteBody?
    ensures var (st', reply) := AcceptVote(request, limit, st, m);
            && (reply.Accepted? <==>
                  && !st.terminal && Votable(request, st.proposals, m)
                  && MemoryKey(m) !in st.seen.entries && m.body.sender !in st.votes)
            && (reply == Rejected(LateMessage) <==> st.terminal)
            && (reply == Rejected(ConflictingMessageId) <==>
                  !st.terminal && Votable(request, st.proposals, m) && Forged(st.seen, m))
            && (reply == Rejected(ConflictingVote) <==>
                  && !st.terminal && Votable(request, st.proposals, m) && MemoryKey(m) !in st.seen.entries
                  && m.body.sender in st.votes && st.votes[m.body.sender].hash != m.hash)
            && (reply.Duplicate? <==>
                  && !st.terminal && Votable(request, st.proposals, m)
                  && (|| Remembered(st.seen, m)
                      || (&& MemoryKey(m) !in st.seen.entries && m.body.sender in st.votes
                          && st.votes[m.body.sender].hash == m.hash)))
            && st'.votes == (if reply.Accepted? then st.votes[m.body.sender := m] else st.votes)
            && st'.proposals == st.proposals && st'.terminal == st.terminal
            && (st.quorum.Some? || !reply.Accepted? ==> st'.quorum == st.quorum)
            && (st.terminal || !Votable(request, st.proposals, m) ==> st' == st)
  {
    AuthenticVerifies(m);
    assert m.body.digest in KnownDigests(st.proposals) <==>
           exists s :: s in st.proposals && st.proposals[s].body.digest == m.body.digest;
  }

  /** What each authentication failure says. */
  lemma AuthenticVerifies(m: Message)
    ensures Verify(m).None? <==> Authentic(m)
    ensures Verify(m) == Some(UnknownOrchestrator) <==> m.body.sender !in ORCHESTRATORS
    ensures Verify(m) == Some(AuthIdentityMismatch) <==> m.body.sender in ORCHESTRATORS && m.keyId != m.body.sender
    ensures Verify(m) == Some(MessageHashMismatch) <==>
              m.body.sender in ORCHESTRATORS && m.keyId == m.body.sender && m.hash != ContentHash(m.body, m.keyId)
  {
  }

  // ---- Any sequence of messages ----

  datatype Delivery = Deliver(message: Message) | Close

  ghost function Receive(request: Request, limit: nat, st: Round, d: Delivery): Round {
    match d
    case Close => st.(terminal := true)
    case Deliver(m) =>
      if m.body.ProposalBody? then AcceptProposal(request, limit, st, m).0 else AcceptVote(request, limit, st, m).0
  }

  ghost function ReceiveAll(request: Request, limit: nat, st: Round, ds: seq<Delivery>): Round {
    if ds == [] then st
    else Receive(request, limit, ReceiveAll(request, limit, st, ds[..|ds| - 1]), ds[|ds| - 1])
  }

  function Start(seen: Seen): Round {
    Round(map[], map[], None, seen, false)
  }

  /** What every reachable round satisfies; the latched quorum is exactly the digest two senders approve. */
  ghost predicate RoundInv(request: Request, st: Round) {
    && (forall s | s in st.proposals ::
          && st.proposals[s].body.ProposalBody? && st.proposals[s].body.sender == s
          && ProposalFault(request, st.proposals[s]) == None)
    && (forall s | s in st.votes ::
          && st.votes[s].body.VoteBody? && st.votes[s].body.sender == s
          && VoteFault(request, st.proposals, st.votes[s]) == None)
    && st.quorum == Winner(st.votes)
  }

  lemma VotersAreOrchestrators(request: Request, st: Round)
    requires RoundInv(request, st)
    ensures st.votes.Keys <= ORCHESTRATORS && |st.votes.Keys| <= 3
  {
    assert forall s | s in st.votes.Keys :: VoteFault(request, st.proposals, st.votes[s]) == None;
    Subset(st.votes.Keys, ORCHESTRATORS);
  }

  lemma Subset<T>(a: set<T>, b: set<T>)
    requires a <= b
    ensures |a| <= |b|
  {
    assert b == a + (b - a);
  }

  /** Among three voters at most one digest has two approvals. */
  lemma OneWinner(votes: map<string, Message>, a: ProposalDigest, b: ProposalDigest)
    requires votes.Keys <= ORCHESTRATORS
    requires |Approvers(votes, a)| >= REQUIRED_QUORUM && |Approvers(votes, b)| >= REQUIRED_QUORUM
    ensures a == b
  {
    var sa, sb := Approvers(votes, a), Approvers(votes, b);
    if a != b {
      assert sa !! sb;
      assert |sa + sb| == |sa| + |sb|;
      Subset(sa + sb, ORCHESTRATORS);
      assert false;
    }
  }

  lemma MoreVotesKeepWinner(votes: map<string, Message>, s: string, m: Message)
    requires s !in votes && s in ORCHESTRATORS && votes.Keys <= ORCHESTRATORS
    requires Winner(votes).Some?
    ensures Winner(votes[s := m]) == Winner(votes)
  {
    var d := Winner(votes).value;
    var more := votes[s := m];
    assert Approvers(votes, d) <= Approvers(more, d);
    Subset(Approvers(votes, d), Approvers(more, d));
    OneWinner(more, d, Winner(more).value);
  }

  lemma NewProposalKeeps(request: Request, st: Round, m: Message)
    requires RoundInv(request, st)
    requires m.body.ProposalBody? && ProposalFault(request, m) == None && m.body.sender !in st.proposals
    ensures RoundInv(request, st.(proposals := st.proposals[m.body.sender := m]))
  {
    var more := st.proposals[m.body.sender := m];
    forall x | x in KnownDigests(st.proposals)
      ensures x in KnownDigests(more)
    {
      var s :| s in st.proposals && st.proposals[s].body.digest == x;
      assert more[s] == st.proposals[s];
    }
    forall s | s in st.votes
      ensures VoteFault(request, more, st.votes[s]) == None
    {
      assert VoteFault(request, st.proposals, st.votes[s]) == None;
    }
  }

  lemma NewVoteKeeps(request: Request, st: Round, m: Message)
    requires RoundInv(request, st)
    requires m.body.VoteBody? && VoteFault(request, st.proposals, m) == None && m.body.sender !in st.votes
    ensures var votes := st.votes[m.body.sender := m];
            RoundInv(request, st.(votes := votes, quorum := if st.quorum.Some? then st.quorum else Winner(votes)))
  {
    VotersAreOrchestrators(request, st);
    if st.quorum.Some? {
      MoreVotesKeepWinner(st.votes, m.body.sender, m);
    }
  }

  lemma ReceiveKeepsInvariant(request: Request, limit: nat, st: Round, d: Delivery)
    requires RoundInv(request, st)
    ensures RoundInv(request, Receive(request, limit, st, d))
    ensures st.quorum.Some? ==> Receive(request, limit, st, d).quorum == st.quorum
  {
    match d
    case Close =>
    case Deliver(m) =>
      var remembered := st.(seen := Observe(st.seen, limit, m).0);
      assert RoundInv(request, remembered);
      if m.body.ProposalBody? {
        if AcceptProposal(request, limit, st, m).1.Accepted? {
          NewProposalKeeps(request, remembered, m);
        }
      } else if AcceptVote(request, limit, st, m).1.Accepted? {
        NewVoteKeeps(request, remembered, m);
      }
  }

  /** Whatever arrives, in whatever order: the invariant holds, and a formed quorum never changes. */
  lemma {:induction false} RoundSafety(request: Request, limit: nat, st: Round, ds: seq<Delivery>)
    requires RoundInv(request, st)
    ensures RoundInv(request, ReceiveAll(request, limit, st, ds))
    ensures st.quorum.Some? ==> ReceiveAll(request, limit, st, ds).quorum == st.quorum
  {
    if ds != [] {
      RoundSafety(request, limit, st, ds[..|ds| - 1]);
      ReceiveKeepsInvariant(request, limit, ReceiveAll(request, limit, st, ds[..|ds| - 1]), ds[|ds| - 1]);
    }
  }

  /** After a round is closed no message changes anything. */
  lemma {:induction false} ClosedRoundIsFinal(request: Request, limit: nat, st: Round, ds: seq<Delivery>)
    requires st.terminal
    ensures ReceiveAll(request, limit, st, ds) == st
  {
    if ds != [] {
      ClosedRoundIsFinal(request, limit, st, ds[..|ds| - 1]);
    }
  }

  // ---- The decision ----

  datatype Outcome = Decided | NoQuorum | TimedOut | InsufficientResponses

  datatype Verdict = Verdict(
    outcome: Outcome,
    route: Option<string>,
    digest: Option<ProposalDigest>,
    supporters: set<string>,
    disagreeing: set<string>)

  /** What a decision must say about the round it closes. */
  ghost predicate Justified(request: Request, st: Round, timedOut: bool, d: Verdict) {
    && d.digest == st.quorum
    && (d.outcome.Decided? <==> exists x :: |Approvers(st.votes, x)| >= REQUIRED_QUORUM)
    && (d.outcome.Decided? ==>
          && d.digest.Some? && d.route.Some?
          && d.route.value in Declared(request)
          && d.digest.value == ProposalDigest(request.requestId, request.version, request.roundId, DigestOf(request), d.route.value)
          && d.supporters == Approvers(st.votes, d.digest.value) && |d.supporters| >= REQUIRED_QUORUM
          && (forall s | s in d.supporters :: Verify(st.votes[s]) == None && st.votes[s].body.sender == s)
          && d.supporters !! d.disagreeing && d.supporters + d.disagreeing == st.votes.Keys)
    && (!d.outcome.Decided? ==>
          && d.route.None? && d.supporters == {}
          && (d.outcome.TimedOut? <==> timedOut)
          && (d.outcome.InsufficientResponses? <==> !timedOut && |st.votes.Keys| < REQUIRED_QUORUM)
          && d.disagreeing == if |st.votes.Keys| > 1 then st.votes.Keys else set s | s in st.votes && !Supportive(st.votes[s]))
  }

  /** The quorum was proposed: the route lookup finds a proposal, and every match names one route. */
  lemma QuorumWasProposed(request: Request, st: Round) returns (s: string)
    requires RoundInv(request, st) && st.quorum.Some?
    ensures s in st.proposals && st.proposals[s].body.digest == st.quorum.value
    ensures forall t | t in st.proposals && st.proposals[t].body.digest == st.quorum.value ::
              st.proposals[t].body.routeId == st.proposals[s].body.routeId
  {
    var d := st.quorum.value;
    var v :| v in Approvers(st.votes, d);
    VotedIsProposed(request, st.proposals, st.votes[v]);
    s :| s in st.proposals && st.proposals[s].body.digest == d;
    forall t | t in st.proposals && st.proposals[t].body.digest == d
      ensures st.proposals[t].body.routeId == st.proposals[s].body.routeId
    {
      SameDigestSameRoute(request, st.proposals[s], st.proposals[t]);
    }
  }

  lemma VotedIsProposed(request: Request, proposals: map<string, Message>, vote: Message)
    requires vote.body.VoteBody? && VoteFault(request, proposals, vote) == None
    ensures exists s :: s in proposals && proposals[s].body.digest == vote.body.digest
  {
  }

  lemma SameDigestSameRoute(request: Request, a: Message, b: Message)
    requires a.body.ProposalBody? && b.body.ProposalBody?
    requires ProposalFault(request, a) == None && ProposalFault(request, b) == None && a.body.digest == b.body.digest
    ensures a.body.routeId == b.body.routeId
  {
  }

  // ---- The round object ----

  method Supporters(votes: map<string, Message>, d: ProposalDigest) returns (names: set<string>)
    ensures names == Approvers(votes, d)
  {
    names := {};
    var rest := votes.Keys;
    while rest != {}
      invariant rest <= votes.Keys
      invariant names == Approvers(votes, d) - rest
      decreases rest
    {
      var s :| s in rest;
      if Approves(votes[s], d) {
        names := names + {s};
      }
      rest := rest - {s};
    }
  }

  /** Count the approvals of each voted digest; the first with a quorum wins. */
  method Tally(votes: map<string, Message>) returns (q: Option<ProposalDigest>)
    ensures q.Some? ==> |Approvers(votes, q.value)| >= REQUIRED_QUORUM
    ensures q.None? ==> forall d :: |Approvers(votes, d)| < REQUIRED_QUORUM
  {
    q := None;
    var rest := votes.Keys;
    while rest != {} && q.None?
      invariant rest <= votes.Keys
      invariant q.Some? ==> |Approvers(votes, q.value)| >= REQUIRED_QUORUM
      invariant q.None? ==> forall s | s in votes.Keys - rest :: |Approvers(votes, votes[s].body.digest)| < REQUIRED_QUORUM
      decreases rest
    {
      var s :| s in rest;
      var names := Supporters(votes, votes[s].body.digest);
      if |names| >= REQUIRED_QUORUM {
        q := Some(votes[s].body.digest);
      }
      rest := rest - {s};
    }
    if q.None? {
      forall d
        ensures |Approvers(votes, d)| < REQUIRED_QUORUM
      {
        if Approvers(votes, d) != {} {
          var s :| s in Approvers(votes, d);
          assert votes[s].body.digest == d;
        }
      }
    }
  }

  class DecisionRound {
    const request: Request
    const cache: BoundedCache<(string, string), ContentHash>
    var proposals: map<string, Message>
    var votes: map<string, Message>
    var quorum: Option<ProposalDigest>
    var terminal: bool

    ghost function State(): Round
      reads this, cache
    {
      Round(proposals, votes, quorum, cache.Contents(), terminal)
    }

    ghost predicate Valid()
      reads this, cache
    {
      ValidRequest(request) && cache.Valid() && RoundInv(request, State())
    }

    /** The replay cache is the coordinator's: rounds share it. */
    constructor (request: Request, cache: BoundedCache<(string, string), ContentHash>)
      requires ValidRequest(request) && cache.Valid()
      ensures Valid() && this.request == request && this.cache == cache
      ensures State() == Start(cache.Contents())
    {
      this.request, this.cache := request, cache;
      proposals, votes, quorum, terminal := map[], map[], None, false;
    }

    method ObserveMessage(m: Message) returns (novelty: Novelty)
      requires cache.Valid()
      modifies cache
      ensures cache.Valid()
      ensures (cache.Contents(), novelty) == Observe(old(cache.Contents()), cache.limit, m)
    {
      var key := (m.body.sender, m.body.messageId);
      if key in cache.entries {
        novelty := if cache.entries[key] == m.hash then Repeated else Conflicting;
        cache.Touch(key);
      } else {
        cache.Store(key, m.hash);
        novelty := New;
      }
    }

    method AcceptProposalMessage(m: Message) returns (reply: Reply)
      requires Valid() && m.body.ProposalBody?
      modifies this, cache
      ensures Valid()
      ensures (State(), reply) == AcceptProposal(request, cache.limit, old(State()), m)
    {
      ReceiveKeepsInvariant(request, cache.limit, State(), Deliver(m));
      if terminal {
        return Rejected(LateMessage);
      }
      var fault := ProposalFault(request, m);
      if fault.Some? {
        return Rejected(fault.value);
      }
      var novelty := ObserveMessage(m);
      match novelty
      case Repeated => return Duplicate;
      case Conflicting => return Rejected(ConflictingMessageId);
      case New =>
        if m.body.sender in proposals {
          return if proposals[m.body.sender].hash == m.hash then Duplicate else Rejected(ConflictingProposal);
        }
        proposals := proposals[m.body.sender := m];
        return Accepted;
    }

    method AcceptVoteMessage(m: Message) returns (reply: Reply)
      requires Valid() && m.body.VoteBody?
      modifies this, cache
      ensures Valid()
      ensures (State(), reply) == AcceptVote(request, cache.limit, old(State()), m)
    {
      VotersAreOrchestrators(request, State());
      ReceiveKeepsInvariant(request, cache.limit, State(), Deliver(m));
      if terminal {
        return Rejected(LateMessage);
      }
      var fault := VoteFault(request, proposals, m);
      if fault.Some? {
        return Rejected(fault.value);
      }
      var novelty := ObserveMessage(m);
      match novelty
      case Repeated => return Duplicate;
      case Conflicting => return Rejected(ConflictingMessageId);
      case New =>
        if m.body.sender in votes {
          return if votes[m.body.sender].hash == m.hash then Duplicate else Rejected(ConflictingVote);
        }
        RecordVote(m);
        return Accepted;
    }

    /** Add the vote and latch a quorum if it forms one. */
    method RecordVote(m: Message)
      requires votes.Keys <= ORCHESTRATORS && m.body.sender in ORCHESTRATORS
      modifies this`votes, this`quorum
      ensures votes == old(votes)[m.body.sender := m]
      ensures quorum == if old(quorum).Some? then old(quorum) else Winner(votes)
    {
      votes := votes[m.body.sender := m];
      if quorum.None? {
        quorum := Tally(votes);
        TallyIsWinner(votes, quorum);
      }
    }

    method CloseRound()
      requires Valid()
      modifies this`terminal
      ensures Valid() && State() == old(State()).(terminal := true)
    {
      terminal := true;
    }

    /** Close the round and say what it decided, and on whose word. */
    method BuildDecision(timedOut: bool) returns (d: Verdict)
      requires Valid()
      modifies this`terminal
      ensures Valid() && State() == old(State()).(terminal := true)
      ensures Justified(request, State(), timedOut, d)
    {
      terminal := true;
      if quorum.Some? {
        ghost var proposer := QuorumWasProposed(request, State());
        var s :| s in proposals && proposals[s].body.digest == quorum.value;
        var names := Supporters(votes, quorum.value);
        d := Verdict(Decided, Some(proposals[s].body.routeId), quorum, names, votes.Keys - names);
        DecidedIsJustified(request, State(), s);
      } else {
        var outcome :=
          if timedOut then TimedOut
          else if |votes.Keys| < REQUIRED_QUORUM then InsufficientResponses
          else NoQuorum;
        var against := if |votes.Keys| > 1 then votes.Keys else set s | s in votes && !Supportive(votes[s]);
        d := Verdict(outcome, None, None, {}, against);
      }
    }
  }

  lemma TallyIsWinner(votes: map<string, Message>, q: Option<ProposalDigest>)
    requires votes.Keys <= ORCHESTRATORS
    requires q.Some? ==> |Approvers(votes, q.value)| >= REQUIRED_QUORUM
    requires q.None? ==> forall d :: |Approvers(votes, d)| < REQUIRED_QUORUM
    ensures q == Winner(votes)
  {
    if q.Some? {
      OneWinner(votes, q.value, Winner(votes).value);
    }
  }

  lemma DecidedIsJustified(request: Request, st: Round, s: string)
    requires RoundInv(request, st) && st.quorum.Some?
    requires s in st.proposals && st.proposals[s].body.digest == st.quorum.value
    ensures st.proposals[s].body.routeId in Declared(request)
    ensures st.quorum.value == ProposalDigest(request.requestId, request.version, request.roundId, DigestOf(request),
                                              st.proposals[s].body.routeId)
    ensures |Approvers(st.votes, st.quorum.value)| >= REQUIRED_QUORUM
    ensures forall v | v in Approvers(st.votes, st.quorum.value) :: Verify(st.votes[v]) == None && st.votes[v].body.sender == v
    ensures Approvers(st.votes, st.quorum.value) <= st.votes.Keys
  {
    assert ProposalFault(request, st.proposals[s]) == None;
    forall v | v in Approvers(st.votes, st.quorum.value)
      ensures Verify(st.votes[v]) == None && st.votes[v].body.sender == v
    {
      assert VoteFault(request, st.proposals, st.votes[v]) == None;
    }
  }
}
