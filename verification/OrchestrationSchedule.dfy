/** Two orchestrators that follow the default policy decide a round, whatever the third sends and in whatever order. */
module OrchestrationSchedule {
  import opened BlackboardContracts
  import opened Wrappers
  import opened BoundedDict
  import opened OrchestrationRequest
  import opened OrchestrationRound

  // ---- Orchestrators ----

  function SubjectOf(request: Request): Subject {
    Subject(request.requestId, request.version, request.roundId, DigestOf(request))
  }

  function Sign(body: Body): Message {
    Message(body, body.sender, ContentHash(body, body.sender), Tag(body.sender, body, body.sender))
  }

  function ProposalOf(sender: string, request: Request, messageId: string, extra: string): Message
    requires request.routes != []
  {
    var route := Choose(request.routes).routeId;
    var about := SubjectOf(request);
    Sign(ProposalBody(messageId, sender, about, route, SemanticDigest(about, route), extra))
  }

  function VoteOf(sender: string, request: Request, proposal: Message, messageId: string, extra: string): Message {
    Sign(VoteBody(messageId, sender, SubjectOf(request), proposal.body.digest, Approve, extra))
  }

  class OrchestratorReplica {
    const orchestratorId: string
    var available: bool
    var senderSequence: nat

    constructor (orchestratorId: string)
      ensures this.orchestratorId == orchestratorId && available && senderSequence == 0
    {
      this.orchestratorId, available, senderSequence := orchestratorId, true, 0;
    }

    method Propose(request: Request, messageId: string) returns (m: Option<Message>)
      requires ValidRequest(request)
      modifies this
      ensures m.Some? <==> old(available)
      ensures m.Some? ==>
                && m.value.body.ProposalBody? && m.value.body.sender == orchestratorId
                && (orchestratorId in ORCHESTRATORS ==> ProposalFault(request, m.value) == None)
                && m.value.body.messageId == messageId && m.value.body.extra == Decimal(old(senderSequence))
                && (exists r :: r in request.routes && r.routeId == m.value.body.routeId
                                && forall other | other in request.routes :: Preferred(r, other))
      ensures m.Some? ==> m.value == ProposalOf(orchestratorId, request, messageId, Decimal(old(senderSequence)))
      ensures available == old(available) && senderSequence == old(senderSequence) + if m.Some? then 1 else 0
    {
      if !available {
        return None;
      }
      m := Some(ProposalOf(orchestratorId, request, messageId, Decimal(senderSequence)));
      senderSequence := senderSequence + 1;
    }

    method Vote(request: Request, proposal: Message, messageId: string) returns (m: Option<Message>)
      modifies this
      ensures m.Some? <==> old(available)
      ensures m.Some? ==>
                && Approves(m.value, proposal.body.digest) && m.value.body.sender == orchestratorId
                && (orchestratorId in ORCHESTRATORS ==> Genuine(request, m.value))
                && m.value.body.messageId == messageId && m.value.body.extra == Decimal(old(senderSequence))
      ensures m.Some? ==> m.value == VoteOf(orchestratorId, request, proposal, messageId, Decimal(old(senderSequence)))
      ensures available == old(available) && senderSequence == old(senderSequence) + if m.Some? then 1 else 0
    {
      if !available {
        return None;
      }
      m := Some(VoteOf(orchestratorId, request, proposal, messageId, Decimal(senderSequence)));
      senderSequence := senderSequence + 1;
    }
  }

  // ---- Honest participants in one round ----

  /** One orchestrator's part in the round; `request` is the round's request, its candidates listed in any order. */
  datatype Honest = Honest(sender: string, request: Request, proposalId: string, proposalExtra: string, voteId: string,
                           voteExtra: string)
  {
    function Proposal(): Message
      requires request.routes != []
    {
      ProposalOf(sender, request, proposalId, proposalExtra)
    }

    function Vote(): Message
      requires request.routes != []
    {
      VoteOf(sender, request, Proposal(), voteId, voteExtra)
    }
  }

  ghost predicate Participates(h: Honest, request: Request) {
    && h.sender in ORCHESTRATORS && h.proposalId != h.voteId
    && ValidRequest(request) && ValidRequest(h.request) && SameUpToOrder(request, h.request)
  }

  /** The message would be authenticated and belongs to this round. */
  predicate Genuine(request: Request, m: Message) {
    Verify(m) == None && Binding(request, m.body.about) == None
  }

  /** Nobody else signs for `h`, and `h` signs nothing else in this round. */
  ghost predicate Faithful(request: Request, h: Honest, ds: seq<Delivery>)
    requires h.request.routes != []
  {
    forall d | d in ds && d.Deliver? && Genuine(request, d.message) && d.message.body.sender == h.sender ::
      d.message == h.Proposal() || d.message == h.Vote()
  }

  /** The digest every honest orchestrator proposes and approves. */
  function LeastDigest(request: Request): ProposalDigest
    requires request.routes != []
  {
    SemanticDigest(SubjectOf(request), Choose(request.routes).routeId)
  }

  lemma HonestAgree(request: Request, h: Honest)
    requires Participates(h, request)
    ensures h.Proposal().body.digest == LeastDigest(request) && h.Vote().body.digest == LeastDigest(request)
    ensures ProposalFault(request, h.Proposal()) == None
    ensures Genuine(request, h.Vote())
  {
    DigestIsCanonical(request, h.request);
    ChoiceIgnoresOrder(request, h.request);
  }

  /** The two message ids of `h` are new to the replay cache, which earlier rounds may have filled. */
  predicate Unheard(seen: Seen, h: Honest) {
    (h.sender, h.proposalId) !in seen.entries && (h.sender, h.voteId) !in seen.entries
  }

  /** If the cache knows the two ids of `h`, it is from what `h` said and the round took. */
  ghost predicate Remembered(st: Round, h: Honest)
    requires h.request.routes != []
  {
    && ((h.sender, h.proposalId) in st.seen.entries ==>
          st.seen.entries[(h.sender, h.proposalId)] == h.Proposal().hash && h.sender in st.proposals)
    && ((h.sender, h.voteId) in st.seen.entries ==>
          st.seen.entries[(h.sender, h.voteId)] == h.Vote().hash && h.sender in st.votes)
  }

  ghost predicate Tracks(st: Round, h: Honest)
    requires h.request.routes != []
  {
    && (h.sender in st.proposals ==> st.proposals[h.sender] == h.Proposal())
    && (h.sender in st.votes ==> st.votes[h.sender] == h.Vote())
    && Remembered(st, h)
  }

  ghost predicate CacheOk(seen: Seen, limit: nat) {
    limit >= 1 && Indexed(seen) && |seen.order| <= limit
  }

  lemma ObserveKeeps(seen: Seen, limit: nat, m: Message)
    requires CacheOk(seen, limit)
    ensures var (seen', novelty) := Observe(seen, limit, m);
            var key := (m.body.sender, m.body.messageId);
            && CacheOk(seen', limit)
            && (novelty.New? <==> key !in seen.entries)
            && (novelty.New? ==> key in seen'.entries && seen'.entries[key] == m.hash)
            && (forall k | k in seen'.entries && (k != key || !novelty.New?) ::
                  k in seen.entries && seen'.entries[k] == seen.entries[k])
  {
    var key := (m.body.sender, m.body.messageId);
    if key in seen.entries {
      TouchKeeps(seen, key);
    } else {
      StoreKeeps(seen, limit, key, m.hash);
    }
  }

  /** What one delivery leaves as it was. */
  lemma ReceiveGrows(request: Request, limit: nat, st: Round, d: Delivery)
    ensures var next := Receive(request, limit, st, d);
            && (forall s | s in st.proposals :: s in next.proposals && next.proposals[s] == st.proposals[s])
            && (forall s | s in st.votes :: s in next.votes && next.votes[s] == st.votes[s])
  {
  }

  lemma ReceiveIsLocal(request: Request, limit: nat, st: Round, m: Message, s: string)
    requires m.body.sender != s
    ensures var next := Receive(request, limit, st, Deliver(m));
            && (next.seen == st.seen || next.seen == Observe(st.seen, limit, m).0)
            && (s in next.proposals <==> s in st.proposals) && (s in next.votes <==> s in st.votes)
  {
  }

  /** A message of somebody else changes nothing that concerns `h`. */
  lemma OthersMessage(request: Request, limit: nat, st: Round, h: Honest, m: Message)
    requires Participates(h, request) && CacheOk(st.seen, limit) && Tracks(st, h)
    requires m.body.sender != h.sender
    ensures var next := Receive(request, limit, st, Deliver(m)); CacheOk(next.seen, limit) && Tracks(next, h)
  {
    var next := Receive(request, limit, st, Deliver(m));
    ReceiveIsLocal(request, limit, st, m, h.sender);
    ReceiveGrows(request, limit, st, Deliver(m));
    ObserveKeeps(st.seen, limit, m);
    assert forall id: string | (h.sender, id) in next.seen.entries ::
        (h.sender, id) in st.seen.entries && next.seen.entries[(h.sender, id)] == st.seen.entries[(h.sender, id)];
    TracksLater(st, next, h);
  }

  lemma TracksLater(st: Round, next: Round, h: Honest)
    requires h.request.routes != [] && Tracks(st, h)
    requires h.sender in next.proposals <==> h.sender in st.proposals
    requires h.sender in next.votes <==> h.sender in st.votes
    requires h.sender in st.proposals ==> next.proposals[h.sender] == st.proposals[h.sender]
    requires h.sender in st.votes ==> next.votes[h.sender] == st.votes[h.sender]
    requires forall id: string | (h.sender, id) in next.seen.entries ::
               (h.sender, id) in st.seen.entries && next.seen.entries[(h.sender, id)] == st.seen.entries[(h.sender, id)]
    ensures Tracks(next, h)
  {
  }

  /** A message the round rejects before looking at its id changes nothing. */
  lemma FaultyMessage(request: Request, limit: nat, st: Round, m: Message)
    requires !Genuine(request, m)
    ensures Receive(request, limit, st, Deliver(m)) == st
  {
  }

  lemma OwnProposal(request: Request, limit: nat, st: Round, h: Honest)
    requires Participates(h, request) && CacheOk(st.seen, limit) && Tracks(st, h) && !st.terminal
    ensures var next := Receive(request, limit, st, Deliver(h.Proposal()));
            CacheOk(next.seen, limit) && Tracks(next, h) && h.sender in next.proposals
  {
    HonestAgree(request, h);
    ObserveKeeps(st.seen, limit, h.Proposal());
  }

  lemma OwnVote(request: Request, limit: nat, st: Round, h: Honest)
    requires Participates(h, request) && CacheOk(st.seen, limit) && Tracks(st, h) && !st.terminal
    ensures var next := Receive(request, limit, st, Deliver(h.Vote()));
            && CacheOk(next.seen, limit) && Tracks(next, h)
            && (LeastDigest(request) in KnownDigests(st.proposals) ==> h.sender in next.votes)
  {
    HonestAgree(request, h);
    ObserveKeeps(st.seen, limit, h.Vote());
  }

  lemma DeliveryTracks(request: Request, limit: nat, st: Round, h: Honest, m: Message)
    requires Participates(h, request) && CacheOk(st.seen, limit) && Tracks(st, h) && !st.terminal
    requires Genuine(request, m) && m.body.sender == h.sender ==> m == h.Proposal() || m == h.Vote()
    ensures var next := Receive(request, limit, st, Deliver(m)); CacheOk(next.seen, limit) && Tracks(next, h) && !next.terminal
  {
    if !Genuine(request, m) {
      FaultyMessage(request, limit, st, m);
    } else if m.body.sender != h.sender {
      OthersMessage(request, limit, st, h, m);
    } else if m == h.Proposal() {
      OwnProposal(request, limit, st, h);
    } else {
      OwnVote(request, limit, st, h);
    }
  }

  ghost predicate NoClose(ds: seq<Delivery>) {
    forall d | d in ds :: d.Deliver?
  }

  /** The round as `h` left it, at every moment of the stream. */
  lemma {:induction false} StreamTracks(request: Request, limit: nat, st: Round, h: Honest, ds: seq<Delivery>)
    requires Participates(h, request) && CacheOk(st.seen, limit) && Tracks(st, h) && !st.terminal
    requires NoClose(ds) && Faithful(request, h, ds)
    ensures var final := ReceiveAll(request, limit, st, ds);
            CacheOk(final.seen, limit) && Tracks(final, h) && !final.terminal
  {
    if ds != [] {
      var prefix := ds[..|ds| - 1];
      StreamTracks(request, limit, st, h, prefix);
      DeliveryTracks(request, limit, ReceiveAll(request, limit, st, prefix), h, ds[|ds| - 1].message);
    }
  }

  lemma {:induction false} StreamGrows(request: Request, limit: nat, st: Round, ds: seq<Delivery>, n: nat)
    requires n <= |ds|
    ensures var early, late := ReceiveAll(request, limit, st, ds[..n]), ReceiveAll(request, limit, st, ds);
            early.proposals.Keys <= late.proposals.Keys && early.votes.Keys <= late.votes.Keys
  {
    if n == |ds| {
      assert ds[..n] == ds;
    } else {
      var prefix := ds[..|ds| - 1];
      StreamGrows(request, limit, st, prefix, n);
      assert prefix[..n] == ds[..n];
      ReceiveGrows(request, limit, ReceiveAll(request, limit, st, prefix), ds[|ds| - 1]);
    }
  }

  /** The orchestrator's proposal and, later, its vote reached the round. */
  ghost predicate Heard(h: Honest, ds: seq<Delivery>, p: nat, v: nat)
    requires h.request.routes != []
  {
    p < v < |ds| && ds[p] == Deliver(h.Proposal()) && ds[v] == Deliver(h.Vote())
  }

  lemma HeardProposal(request: Request, limit: nat, st: Round, h: Honest, ds: seq<Delivery>, p: nat, n: nat)
    requires Participates(h, request) && CacheOk(st.seen, limit) && Tracks(st, h) && !st.terminal
    requires NoClose(ds) && Faithful(request, h, ds) && p < n <= |ds| && ds[p] == Deliver(h.Proposal())
    ensures h.sender in ReceiveAll(request, limit, st, ds[..n]).proposals
  {
    StreamTracks(request, limit, st, h, ds[..p]);
    OwnProposal(request, limit, ReceiveAll(request, limit, st, ds[..p]), h);
    assert ds[..p + 1][..p] == ds[..p] && ds[..n][..p + 1] == ds[..p + 1];
    assert h.sender in ReceiveAll(request, limit, st, ds[..p + 1]).proposals;
    StreamGrows(request, limit, st, ds[..n], p + 1);
  }

  lemma HeardVote(request: Request, limit: nat, st: Round, h: Honest, ds: seq<Delivery>, p: nat, v: nat)
    requires Participates(h, request) && CacheOk(st.seen, limit) && Tracks(st, h) && !st.terminal
    requires NoClose(ds) && Faithful(request, h, ds) && Heard(h, ds, p, v)
    ensures h.sender in ReceiveAll(request, limit, st, ds).votes
  {
    var upToV := ReceiveAll(request, limit, st, ds[..v]);
    HeardProposal(request, limit, st, h, ds, p, v);
    StreamTracks(request, limit, st, h, ds[..v]);
    HonestAgree(request, h);
    assert upToV.proposals[h.sender].body.digest in KnownDigests(upToV.proposals);
    OwnVote(request, limit, upToV, h);
    assert ds[..v + 1][..v] == ds[..v];
    assert h.sender in ReceiveAll(request, limit, st, ds[..v + 1]).votes;
    StreamGrows(request, limit, st, ds, v + 1);
  }

  lemma HeardVotes(request: Request, limit: nat, st: Round, h: Honest, ds: seq<Delivery>, p: nat, v: nat)
    requires Participates(h, request) && CacheOk(st.seen, limit) && Tracks(st, h) && !st.terminal
    requires NoClose(ds) && Faithful(request, h, ds) && Heard(h, ds, p, v)
    ensures var final := ReceiveAll(request, limit, st, ds);
            h.sender in final.votes && Approves(final.votes[h.sender], LeastDigest(request))
  {
    HeardVote(request, limit, st, h, ds, p, v);
    StreamTracks(request, limit, st, h, ds);
    HonestAgree(request, h);
  }

  /** The stream of one round in which two default-policy orchestrators were heard, whatever else it holds. */
  ghost predicate TwoHeard(request: Request, limit: nat, seen: Seen, a: Honest, b: Honest, ds: seq<Delivery>) {
    && Participates(a, request) && Participates(b, request) && a.sender != b.sender
    && CacheOk(seen, limit)
    && Unheard(seen, a) && Unheard(seen, b)
    && NoClose(ds) && Faithful(request, a, ds) && Faithful(request, b, ds)
    && (exists p: nat, v: nat :: Heard(a, ds, p, v))
    && (exists p: nat, v: nat :: Heard(b, ds, p, v))
  }

  lemma BothApprove(request: Request, limit: nat, seen: Seen, a: Honest, b: Honest, ds: seq<Delivery>)
    requires TwoHeard(request, limit, seen, a, b, ds)
    ensures Winner(ReceiveAll(request, limit, Start(seen), ds).votes).Some?
    ensures |Approvers(ReceiveAll(request, limit, Start(seen), ds).votes, LeastDigest(request))| >= REQUIRED_QUORUM
  {
    var final := ReceiveAll(request, limit, Start(seen), ds);
    var pa: nat, va: nat :| Heard(a, ds, pa, va);
    var pb: nat, vb: nat :| Heard(b, ds, pb, vb);
    HeardVotes(request, limit, Start(seen), a, ds, pa, va);
    HeardVotes(request, limit, Start(seen), b, ds, pb, vb);
    TwoApprovals(final.votes, a.sender, b.sender, LeastDigest(request));
  }

  /**
   Two orchestrators following the default policy were heard. Then under every arrival order, whatever the third
   sends and however each of them lists the candidates, the quorum is on the least (priority, route id) route.
   */
  lemma QuorumOnLeastRoute(request: Request, limit: nat, seen: Seen, a: Honest, b: Honest, ds: seq<Delivery>)
    requires TwoHeard(request, limit, seen, a, b, ds)
    ensures RoundInv(request, ReceiveAll(request, limit, Start(seen), ds))
    ensures ReceiveAll(request, limit, Start(seen), ds).quorum == Some(LeastDigest(request))
  {
    var final := ReceiveAll(request, limit, Start(seen), ds);
    StartsSound(request, seen);
    RoundSafety(request, limit, Start(seen), ds);
    BothApprove(request, limit, seen, a, b, ds);
    VotersAreOrchestrators(request, final);
    OneWinner(final.votes, LeastDigest(request), final.quorum.value);
  }

  /**
   Two faithful default-policy orchestrators suffice for safety: heard or not, no quorum forms on any other route,
   so a round stopped at its first quorum decides the same.
   */
  lemma QuorumNeedsHonest(request: Request, limit: nat, seen: Seen, a: Honest, b: Honest, ds: seq<Delivery>)
    requires Participates(a, request) && Participates(b, request) && a.sender != b.sender
    requires CacheOk(seen, limit)
    requires Unheard(seen, a) && Unheard(seen, b)
    requires NoClose(ds) && Faithful(request, a, ds) && Faithful(request, b, ds)
    ensures var st := ReceiveAll(request, limit, Start(seen), ds);
            RoundInv(request, st) && (st.quorum == None || st.quorum == Some(LeastDigest(request)))
  {
    var st := ReceiveAll(request, limit, Start(seen), ds);
    StartsSound(request, seen);
    RoundSafety(request, limit, Start(seen), ds);
    if st.quorum.Some? {
      VotersAreOrchestrators(request, st);
      StreamTracks(request, limit, Start(seen), a, ds);
      StreamTracks(request, limit, Start(seen), b, ds);
      HonestAgree(request, a);
      HonestAgree(request, b);
      PairInQuorum(Approvers(st.votes, st.quorum.value), a.sender, b.sender);
    }
  }

  /** Two of three approvers include one of any two orchestrators. */
  lemma PairInQuorum(names: set<string>, s: string, t: string)
    requires names <= ORCHESTRATORS && |names| >= REQUIRED_QUORUM
    requires s in ORCHESTRATORS && t in ORCHESTRATORS && s != t
    ensures s in names || t in names
  {
    var others := ORCHESTRATORS - {s, t};
    assert ORCHESTRATORS == others + {s, t};
    assert |others| == 1;
    if s !in names && t !in names {
      Subset(names, others);
      assert false;
    }
  }

  lemma StartsSound(request: Request, seen: Seen)
    ensures RoundInv(request, Start(seen))
  {
  }

  lemma TwoApprovals(votes: map<string, Message>, s: string, t: string, d: ProposalDigest)
    requires s != t && s in votes && t in votes
    requires Approves(votes[s], d) && Approves(votes[t], d)
    ensures |Approvers(votes, d)| >= REQUIRED_QUORUM
    ensures Winner(votes).Some?
  {
    Subset({s, t}, Approvers(votes, d));
  }
}
