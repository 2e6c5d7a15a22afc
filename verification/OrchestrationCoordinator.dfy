/** The adjudication event loop: each orchestrator proposes, then votes, as its answers complete in any order. */
module OrchestrationCoordinator {
  import opened Wrappers
  import opened BoundedDict
  import opened OrchestrationRequest
  import opened OrchestrationRound
  import opened OrchestrationSchedule

  type Part = i: nat | i < 3

  /** What an orchestrator is working on. */
  datatype Phase = Proposing | Voting | Finished

  /** How one piece of work ended; a failure is an omission or an outage. */
  datatype Answer = Produced(message: Message) | Failed

  datatype Completion = Completion(who: Part, answer: Answer)

  /** Work completed while the loop was waiting, and what was already done when it stopped. */
  datatype Arrivals = Arrivals(waiting: seq<Completion>, already: seq<Completion>, deadlineExpired: bool)

  /** The answer is the message this phase waits for. */
  predicate Expected(phase: Phase, answer: Answer) {
    match phase
    case Proposing => answer.Produced? && answer.message.body.ProposalBody?
    case Voting => answer.Produced? && answer.message.body.VoteBody?
    case Finished => false
  }

  // ---- What the loop makes of completed work ----

  type Phases = p: seq<Phase> | |p| == 3 witness [Finished, Finished, Finished]

  /** The parts' phases, the round, and the messages delivered to it so far. */
  datatype Progress = Progress(phases: Phases, st: Round, ds: seq<Delivery>)

  predicate Pending(phases: Phases) {
    exists i: Part :: !phases[i].Finished?
  }

  ghost function ReplyTo(request: Request, limit: nat, st: Round, m: Message): Reply {
    if m.body.ProposalBody? then AcceptProposal(request, limit, st, m).1 else AcceptVote(request, limit, st, m).1
  }

  /** An accepted proposal leads to a vote; everything else ends the part. */
  ghost function ConsumeOne(request: Request, limit: nat, g: Progress, c: Completion): Progress {
    var phase := g.phases[c.who];
    if phase.Finished? then g
    else if !Expected(phase, c.answer) then g.(phases := g.phases[c.who := Finished])
    else
      var m := c.answer.message;
      var votes := phase.Proposing? && ReplyTo(request, limit, g.st, m).Accepted?;
      Progress(g.phases[c.who := if votes then Voting else Finished],
               Receive(request, limit, g.st, Delivery.Deliver(m)), g.ds + [Delivery.Deliver(m)])
  }

  /**
   One completion: an admissible new proposal of a part that owes one is taken and asks the part for its vote, a votable
   new vote of a part that owes one is counted and ends the part, and anything else a working part comes back with ends it.
   */
  lemma OneIsConsumed(request: Request, limit: nat, g: Progress, c: Completion)
    ensures var next := ConsumeOne(request, limit, g, c);
            && (forall i: Part | i != c.who :: next.phases[i] == g.phases[i])
            && (g.phases[c.who].Finished? ==> next == g)
            && (!g.phases[c.who].Finished? && !Expected(g.phases[c.who], c.answer) ==>
                  next.phases[c.who].Finished? && next.st == g.st && next.ds == g.ds)
            && (Expected(g.phases[c.who], c.answer) ==> next.ds == g.ds + [Delivery.Deliver(c.answer.message)])
            && (g.phases[c.who].Proposing? && Expected(Proposing, c.answer) ==>
                  var m := c.answer.message;
                  var takes := !g.st.terminal && Admissible(request, m) && MemoryKey(m) !in g.st.seen.entries
                               && m.body.sender !in g.st.proposals;
                  && next.phases[c.who] == (if takes then Voting else Finished)
                  && next.st.proposals == (if takes then g.st.proposals[m.body.sender := m] else g.st.proposals)
                  && next.st.votes == g.st.votes)
            && (g.phases[c.who].Voting? && Expected(Voting, c.answer) ==>
                  var m := c.answer.message;
                  var takes := !g.st.terminal && Votable(request, g.st.proposals, m) && MemoryKey(m) !in g.st.seen.entries
                               && m.body.sender !in g.st.votes;
                  && next.phases[c.who].Finished?
                  && next.st.votes == (if takes then g.st.votes[m.body.sender := m] else g.st.votes)
                  && next.st.proposals == g.st.proposals)
  {
    if Expected(g.phases[c.who], c.answer) {
      var m := c.answer.message;
      if m.body.ProposalBody? {
        ProposalAccepted(request, limit, g.st, m);
      } else {
        VoteAccepted(request, limit, g.st, m);
      }
    }
  }

  /** In order, until a quorum forms (`stopAtQuorum`), the parts are over, or nothing more arrives. */
  ghost function ConsumeSeq(request: Request, limit: nat, g: Progress, cs: seq<Completion>, stopAtQuorum: bool): Progress
    decreases |cs|
  {
    if cs == [] || !Pending(g.phases) || (stopAtQuorum && g.st.quorum.Some?) then g
    else ConsumeSeq(request, limit, ConsumeOne(request, limit, g, cs[0]), cs[1..], stopAtQuorum)
  }

  /** Everything consumed while waiting, then everything already done. */
  ghost function Adjudicated(request: Request, limit: nat, g: Progress, arrivals: Arrivals): Progress {
    ConsumeSeq(request, limit, ConsumeSeq(request, limit, g, arrivals.waiting, true), arrivals.already, false)
  }

  // ---- Every arrival consumed, as if the loop never stopped ----

  ghost function ConsumeEvery(request: Request, limit: nat, g: Progress, cs: seq<Completion>): Progress {
    if cs == [] then g
    else ConsumeOne(request, limit, ConsumeEvery(request, limit, g, cs[..|cs| - 1]), cs[|cs| - 1])
  }

  lemma EveryStep(request: Request, limit: nat, g: Progress, cs: seq<Completion>, c: Completion)
    ensures ConsumeEvery(request, limit, g, cs + [c]) == ConsumeOne(request, limit, ConsumeEvery(request, limit, g, cs), c)
  {
    assert (cs + [c])[..|cs + [c]| - 1] == cs;
  }

  lemma {:induction false} EveryAppend(request: Request, limit: nat, g: Progress, first: seq<Completion>, second: seq<Completion>)
    ensures ConsumeEvery(request, limit, g, first + second) ==
            ConsumeEvery(request, limit, ConsumeEvery(request, limit, g, first), second)
  {
    if second == [] {
      assert first + second == first;
    } else {
      var init, c := second[..|second| - 1], second[|second| - 1];
      EveryAppend(request, limit, g, first, init);
      EveryStep(request, limit, g, first + init, c);
      EveryStep(request, limit, ConsumeEvery(request, limit, g, first), init, c);
      assert (first + init) + [c] == first + second && init + [c] == second;
    }
  }

  lemma {:induction false} NothingPending(request: Request, limit: nat, g: Progress, cs: seq<Completion>)
    requires !Pending(g.phases)
    ensures ConsumeEvery(request, limit, g, cs) == g
  {
    if cs != [] {
      NothingPending(request, limit, g, cs[..|cs| - 1]);
    }
  }

  /** The loop either stops at a quorum, or has the effect of consuming everything. */
  lemma {:induction false} LoopIsEvery(request: Request, limit: nat, g: Progress, cs: seq<Completion>, stopAtQuorum: bool)
    returns (n: nat)
    ensures n <= |cs| && ConsumeSeq(request, limit, g, cs, stopAtQuorum) == ConsumeEvery(request, limit, g, cs[..n])
    ensures n == |cs| || (stopAtQuorum && ConsumeEvery(request, limit, g, cs[..n]).st.quorum.Some?)
    decreases |cs|
  {
    if cs == [] {
      n := 0;
    } else if !Pending(g.phases) {
      n := |cs|;
      assert cs[..n] == cs;
      NothingPending(request, limit, g, cs);
    } else if stopAtQuorum && g.st.quorum.Some? {
      n := 0;
    } else {
      var next := ConsumeOne(request, limit, g, cs[0]);
      var rest := LoopIsEvery(request, limit, next, cs[1..], stopAtQuorum);
      n := rest + 1;
      OneIsEvery(request, limit, g, cs[0]);
      EveryAppend(request, limit, g, [cs[0]], cs[1..][..rest]);
      assert [cs[0]] + cs[1..][..rest] == cs[..n];
    }
  }

  lemma OneIsEvery(request: Request, limit: nat, g: Progress, c: Completion)
    ensures ConsumeEvery(request, limit, g, [c]) == ConsumeOne(request, limit, g, c)
  {
    assert [c][..0] == [];
  }

  /**
   The outcome does not depend on the schedule: with two faithful default-policy orchestrators a decision names the
   least (priority, route id) route, and there is a decision once both were heard.
   */
  lemma OutcomeIgnoresSchedule(request: Request, limit: nat, seen: Seen, a: Honest, b: Honest, ds: seq<Delivery>,
                               timedOut: bool, d: Verdict)
    requires Participates(a, request) && Participates(b, request) && a.sender != b.sender
    requires CacheOk(seen, limit)
    requires Unheard(seen, a) && Unheard(seen, b)
    requires NoClose(ds) && Faithful(request, a, ds) && Faithful(request, b, ds)
    requires Justified(request, ReceiveAll(request, limit, Start(seen), ds).(terminal := true), timedOut, d)
    ensures d.outcome.Decided? ==> d.route == Some(Choose(request.routes).routeId)
    ensures (exists p: nat, v: nat :: Heard(a, ds, p, v)) && (exists p: nat, v: nat :: Heard(b, ds, p, v)) ==>
              d.outcome.Decided?
  {
    QuorumNeedsHonest(request, limit, seen, a, b, ds);
    if TwoHeard(request, limit, seen, a, b, ds) {
      QuorumOnLeastRoute(request, limit, seen, a, b, ds);
    }
  }

  // ---- From the arrivals to the decision ----

  /** The deliveries are messages that these completions carry. */
  ghost predicate CarriedBy(ds: seq<Delivery>, cs: seq<Completion>) {
    forall d | d in ds :: d.Deliver? && exists c :: c in cs && c.answer == Produced(d.message)
  }

  lemma {:induction false} EveryDelivered(request: Request, limit: nat, g: Progress, cs: seq<Completion>)
    requires g.ds == []
    ensures var end := ConsumeEvery(request, limit, g, cs);
            CarriedBy(end.ds, cs) && end.st == ReceiveAll(request, limit, g.st, end.ds)
  {
    if cs != [] {
      var prefix, last := cs[..|cs| - 1], cs[|cs| - 1];
      var before, end := ConsumeEvery(request, limit, g, prefix), ConsumeEvery(request, limit, g, cs);
      EveryDelivered(request, limit, g, prefix);
      assert forall c | c in prefix :: c in cs;
      assert last in cs;
      if end.ds != before.ds {
        assert end.ds[..|end.ds| - 1] == before.ds;
      }
    }
  }

  lemma {:induction false} EveryGrows(request: Request, limit: nat, g: Progress, cs: seq<Completion>, i: Part)
    ensures g.ds <= ConsumeEvery(request, limit, g, cs).ds
    ensures (forall c | c in cs :: c.who != i) ==> ConsumeEvery(request, limit, g, cs).phases[i] == g.phases[i]
  {
    if cs != [] {
      EveryGrows(request, limit, g, cs[..|cs| - 1], i);
    }
  }

  /** The proposal and then the vote of `h` complete as part `i`, undisturbed, and nobody relays the proposal first. */
  ghost predicate SpeaksAt(h: Honest, i: Part, cs: seq<Completion>, p: nat, v: nat)
    requires h.request.routes != []
  {
    && p < v < |cs|
    && cs[p] == Completion(i, Produced(h.Proposal())) && cs[v] == Completion(i, Produced(h.Vote()))
    && (forall n | 0 <= n < v && n != p :: cs[n].who != i)
    && (forall n | 0 <= n < p :: cs[n].answer != Produced(h.Proposal()))
  }

  /** No completion carries a message signed by `h` for this round but its own two. */
  ghost predicate TrueTo(request: Request, h: Honest, cs: seq<Completion>)
    requires h.request.routes != []
  {
    forall c | c in cs && c.answer.Produced? && Genuine(request, c.answer.message) && c.answer.message.body.sender == h.sender ::
      c.answer.message == h.Proposal() || c.answer.message == h.Vote()
  }

  /** Two default-policy orchestrators speak in time in a new round; the third part completes with whatever it likes. */
  ghost predicate TwoInTime(request: Request, limit: nat, g: Progress, arrivals: Arrivals, i: Part, a: Honest, j: Part,
                            b: Honest)
  {
    var cs := arrivals.waiting + arrivals.already;
    && Participates(a, request) && Participates(b, request) && a.sender != b.sender && i != j
    && g.ds == [] && g.st == Start(g.st.seen) && CacheOk(g.st.seen, limit)
    && Unheard(g.st.seen, a) && Unheard(g.st.seen, b)
    && g.phases[i].Proposing? && g.phases[j].Proposing?
    && TrueTo(request, a, cs) && TrueTo(request, b, cs)
    && (exists p: nat, v: nat :: SpeaksAt(a, i, cs, p, v))
    && (exists p: nat, v: nat :: SpeaksAt(b, j, cs, p, v))
  }

  lemma CarriedIsFaithful(request: Request, h: Honest, cs: seq<Completion>, ds: seq<Delivery>)
    requires h.request.routes != [] && TrueTo(request, h, cs) && CarriedBy(ds, cs)
    ensures Faithful(request, h, ds) && NoClose(ds)
  {
  }

  /** Whoever's proposal was not delivered has not proposed. */
  lemma {:induction false} NotProposed(request: Request, limit: nat, seen: Seen, h: Honest, ds: seq<Delivery>)
    requires Participates(h, request) && Faithful(request, h, ds)
    requires Delivery.Deliver(h.Proposal()) !in ds
    ensures h.sender !in ReceiveAll(request, limit, Start(seen), ds).proposals
  {
    if ds != [] {
      NotProposed(request, limit, seen, h, ds[..|ds| - 1]);
      var d := ds[|ds| - 1];
      assert d in ds;
    }
  }

  lemma ProposalIsAccepted(request: Request, limit: nat, st: Round, h: Honest)
    requires Participates(h, request) && CacheOk(st.seen, limit) && Tracks(st, h) && !st.terminal
    requires h.sender !in st.proposals
    ensures ReplyTo(request, limit, st, h.Proposal()).Accepted?
  {
    HonestAgree(request, h);
    ObserveKeeps(st.seen, limit, h.Proposal());
  }

  /** A proposal that somebody else relayed first is a duplicate when its author sends it: the author is not asked to vote. */
  lemma RelayedProposalSilences(request: Request, limit: nat, g: Progress, h: Honest, i: Part)
    requires Participates(h, request) && CacheOk(g.st.seen, limit)
    requires g.phases[i].Proposing? && h.sender in g.st.proposals
    ensures ConsumeOne(request, limit, g, Completion(i, Produced(h.Proposal()))).phases[i] == Finished
  {
    ObserveKeeps(g.st.seen, limit, h.Proposal());
  }

  /** Before its proposal an orchestrator's part waits for it, and the round takes it. */
  lemma AsksForVote(request: Request, limit: nat, g: Progress, cs: seq<Completion>, h: Honest, i: Part, p: nat, v: nat)
    requires Participates(h, request) && g.ds == [] && g.st == Start(g.st.seen) && CacheOk(g.st.seen, limit)
    requires Unheard(g.st.seen, h) && g.phases[i].Proposing? && TrueTo(request, h, cs) && SpeaksAt(h, i, cs, p, v)
    ensures var before, after := ConsumeEvery(request, limit, g, cs[..p]), ConsumeEvery(request, limit, g, cs[..p + 1]);
            after.phases[i].Voting? && after.ds == before.ds + [Delivery.Deliver(h.Proposal())]
  {
    var before := ConsumeEvery(request, limit, g, cs[..p]);
    EveryDelivered(request, limit, g, cs[..p]);
    EveryGrows(request, limit, g, cs[..p], i);
    assert forall c | c in cs[..p] :: c in cs && c.who != i && c.answer != Produced(h.Proposal());
    CarriedIsFaithful(request, h, cs[..p], before.ds);
    NotProposed(request, limit, g.st.seen, h, before.ds);
    StreamTracks(request, limit, g.st, h, before.ds);
    ProposalIsAccepted(request, limit, before.st, h);
    assert cs[..p + 1][..p] == cs[..p];
  }

  /** Between its proposal and its vote the part waits, and the vote is delivered when it completes. */
  lemma VoteIsDelivered(request: Request, limit: nat, asked: Progress, between: seq<Completion>, h: Honest, i: Part)
    requires h.request.routes != [] && asked.phases[i].Voting? && forall c | c in between :: c.who != i
    ensures var waited := ConsumeEvery(request, limit, asked, between);
            && asked.ds <= waited.ds
            && ConsumeEvery(request, limit, asked, between + [Completion(i, Produced(h.Vote()))]).ds ==
               waited.ds + [Delivery.Deliver(h.Vote())]
  {
    EveryGrows(request, limit, asked, between, i);
    EveryStep(request, limit, asked, between, Completion(i, Produced(h.Vote())));
  }

  lemma HeardInTime(request: Request, limit: nat, g: Progress, cs: seq<Completion>, h: Honest, i: Part, p: nat, v: nat)
    requires Participates(h, request) && g.ds == [] && g.st == Start(g.st.seen) && CacheOk(g.st.seen, limit)
    requires Unheard(g.st.seen, h) && g.phases[i].Proposing? && TrueTo(request, h, cs) && SpeaksAt(h, i, cs, p, v)
    ensures exists m: nat, n: nat :: Heard(h, ConsumeEvery(request, limit, g, cs).ds, m, n)
  {
    AsksForVote(request, limit, g, cs, h, i, p, v);
    SplitAtVote(cs, h, i, p, v);
    HeardFrom(request, limit, g, cs[..p + 1], cs[p + 1..v], cs[v + 1..], h, i,
              ConsumeEvery(request, limit, g, cs[..p]).ds);
  }

  lemma SplitAtVote(cs: seq<Completion>, h: Honest, i: Part, p: nat, v: nat)
    requires h.request.routes != [] && SpeaksAt(h, i, cs, p, v)
    ensures cs == cs[..p + 1] + (cs[p + 1..v] + [Completion(i, Produced(h.Vote()))] + cs[v + 1..])
    ensures forall c | c in cs[p + 1..v] :: c.who != i
  {
  }

  lemma HeardFrom(request: Request, limit: nat, g: Progress, first: seq<Completion>, between: seq<Completion>,
                  rest: seq<Completion>, h: Honest, i: Part, earlier: seq<Delivery>)
    requires h.request.routes != [] && forall c | c in between :: c.who != i
    requires var asked := ConsumeEvery(request, limit, g, first);
             asked.phases[i].Voting? && asked.ds == earlier + [Delivery.Deliver(h.Proposal())]
    ensures var cs := first + (between + [Completion(i, Produced(h.Vote()))] + rest);
            exists m: nat, n: nat :: Heard(h, ConsumeEvery(request, limit, g, cs).ds, m, n)
  {
    var asked := ConsumeEvery(request, limit, g, first);
    var vote := between + [Completion(i, Produced(h.Vote()))];
    VoteIsDelivered(request, limit, asked, between, h, i);
    var waited, voted := ConsumeEvery(request, limit, asked, between), ConsumeEvery(request, limit, asked, vote);
    EveryGrows(request, limit, voted, rest, i);
    EveryAppend(request, limit, asked, vote, rest);
    EveryAppend(request, limit, g, first, vote + rest);
    var all := ConsumeEvery(request, limit, voted, rest).ds;
    assert voted.ds <= all;
    HeardInside(h, earlier, waited.ds, all);
  }

  lemma HeardInside(h: Honest, earlier: seq<Delivery>, waited: seq<Delivery>, all: seq<Delivery>)
    requires h.request.routes != []
    requires earlier + [Delivery.Deliver(h.Proposal())] <= waited && waited + [Delivery.Deliver(h.Vote())] <= all
    ensures Heard(h, all, |earlier|, |waited|)
  {
    assert all[|waited|] == (waited + [Delivery.Deliver(h.Vote())])[|waited|];
    assert all[|earlier|] == waited[|earlier|] == (earlier + [Delivery.Deliver(h.Proposal())])[|earlier|];
  }

  /** The adjudication consumed a prefix of the arrivals: all of them, unless a quorum stopped it while waiting. */
  lemma AdjudicatedIsEvery(request: Request, limit: nat, g: Progress, arrivals: Arrivals) returns (used: seq<Completion>, n: nat)
    requires g.ds == []
    ensures n <= |arrivals.waiting| && used == arrivals.waiting[..n] + arrivals.already
    ensures Adjudicated(request, limit, g, arrivals) == ConsumeEvery(request, limit, g, used)
    ensures forall c | c in used :: c in arrivals.waiting + arrivals.already
    ensures n == |arrivals.waiting| ||
            ConsumeEvery(request, limit, g, arrivals.waiting[..n]).st.quorum.Some?
  {
    n := LoopIsEvery(request, limit, g, arrivals.waiting, true);
    var first := ConsumeEvery(request, limit, g, arrivals.waiting[..n]);
    var m := LoopIsEvery(request, limit, first, arrivals.already, false);
    assert arrivals.already[..m] == arrivals.already;
    used := arrivals.waiting[..n] + arrivals.already;
    EveryAppend(request, limit, g, arrivals.waiting[..n], arrivals.already);
  }

  lemma QuorumStays(request: Request, limit: nat, g: Progress, first: seq<Completion>, second: seq<Completion>)
    requires g.ds == [] && g.st == Start(g.st.seen) && ConsumeEvery(request, limit, g, first).st.quorum.Some?
    ensures ConsumeEvery(request, limit, g, first + second).st.quorum.Some?
  {
    var middle := ConsumeEvery(request, limit, g, first);
    EveryDelivered(request, limit, g, first);
    StartsSound(request, g.st.seen);
    RoundSafety(request, limit, g.st, middle.ds);
    EveryAppend(request, limit, g, first, second);
    EveryDelivered(request, limit, middle.(ds := []), second);
    FromNothing(request, limit, middle, second);
    RoundSafety(request, limit, middle.st, ConsumeEvery(request, limit, middle.(ds := []), second).ds);
  }

  /** What was delivered before does not matter to what happens next. */
  lemma {:induction false} FromNothing(request: Request, limit: nat, g: Progress, cs: seq<Completion>)
    ensures var full, anew := ConsumeEvery(request, limit, g, cs), ConsumeEvery(request, limit, g.(ds := []), cs);
            full.st == anew.st && full.phases == anew.phases
  {
    if cs != [] {
      FromNothing(request, limit, g, cs[..|cs| - 1]);
    }
  }

  lemma InTimeDecides(request: Request, limit: nat, g: Progress, arrivals: Arrivals, i: Part, a: Honest, j: Part, b: Honest,
                      timedOut: bool, d: Verdict)
    requires TwoInTime(request, limit, g, arrivals, i, a, j, b)
    requires Justified(request, Adjudicated(request, limit, g, arrivals).st.(terminal := true), timedOut, d)
    ensures d.outcome.Decided? && d.route == Some(Choose(request.routes).routeId)
  {
    var used, n := AdjudicatedIsEvery(request, limit, g, arrivals);
    UsedIsLeast(request, limit, g, arrivals, i, a, j, b, used, timedOut, d);
    if n < |arrivals.waiting| {
      StoppedDecides(request, limit, g, arrivals.waiting[..n], arrivals.already, timedOut, d);
    } else {
      assert arrivals.waiting[..n] == arrivals.waiting;
      BothHeard(request, limit, g, arrivals, i, a, j, b);
    }
  }

  lemma UsedIsLeast(request: Request, limit: nat, g: Progress, arrivals: Arrivals, i: Part, a: Honest, j: Part, b: Honest,
                    used: seq<Completion>, timedOut: bool, d: Verdict)
    requires TwoInTime(request, limit, g, arrivals, i, a, j, b)
    requires forall c | c in used :: c in arrivals.waiting + arrivals.already
    requires Justified(request, ConsumeEvery(request, limit, g, used).st.(terminal := true), timedOut, d)
    ensures d.outcome.Decided? ==> d.route == Some(Choose(request.routes).routeId)
    ensures var ds := ConsumeEvery(request, limit, g, used).ds;
            (exists p: nat, v: nat :: Heard(a, ds, p, v)) && (exists p: nat, v: nat :: Heard(b, ds, p, v)) ==>
              d.outcome.Decided?
  {
    FewerIsTrue(request, a, arrivals.waiting + arrivals.already, used);
    FewerIsTrue(request, b, arrivals.waiting + arrivals.already, used);
    DecidedIsLeast(request, limit, g, used, a, b, timedOut, d);
  }

  lemma FewerIsTrue(request: Request, h: Honest, cs: seq<Completion>, used: seq<Completion>)
    requires h.request.routes != [] && TrueTo(request, h, cs) && forall c | c in used :: c in cs
    ensures TrueTo(request, h, used)
  {
  }

  /** A quorum that stopped the wait is still there at the end. */
  lemma StoppedDecides(request: Request, limit: nat, g: Progress, first: seq<Completion>, second: seq<Completion>,
                       timedOut: bool, d: Verdict)
    requires g.ds == [] && g.st == Start(g.st.seen) && ConsumeEvery(request, limit, g, first).st.quorum.Some?
    requires Justified(request, ConsumeEvery(request, limit, g, first + second).st.(terminal := true), timedOut, d)
    ensures d.outcome.Decided?
  {
    QuorumStays(request, limit, g, first, second);
    EveryDelivered(request, limit, g, first + second);
    QuorumIsDecided(request, limit, g.st.seen, ConsumeEvery(request, limit, g, first + second).ds, timedOut, d);
  }

  lemma DecidedIsLeast(request: Request, limit: nat, g: Progress, used: seq<Completion>, a: Honest, b: Honest,
                       timedOut: bool, d: Verdict)
    requires Participates(a, request) && Participates(b, request) && a.sender != b.sender
    requires g.ds == [] && g.st == Start(g.st.seen) && CacheOk(g.st.seen, limit)
    requires Unheard(g.st.seen, a) && Unheard(g.st.seen, b) && TrueTo(request, a, used) && TrueTo(request, b, used)
    requires Justified(request, ConsumeEvery(request, limit, g, used).st.(terminal := true), timedOut, d)
    ensures d.outcome.Decided? ==> d.route == Some(Choose(request.routes).routeId)
    ensures var ds := ConsumeEvery(request, limit, g, used).ds;
            (exists p: nat, v: nat :: Heard(a, ds, p, v)) && (exists p: nat, v: nat :: Heard(b, ds, p, v)) ==>
              d.outcome.Decided?
  {
    var end := ConsumeEvery(request, limit, g, used);
    EveryDelivered(request, limit, g, used);
    CarriedIsFaithful(request, a, used, end.ds);
    CarriedIsFaithful(request, b, used, end.ds);
    OutcomeIgnoresSchedule(request, limit, g.st.seen, a, b, end.ds, timedOut, d);
  }

  lemma BothHeard(request: Request, limit: nat, g: Progress, arrivals: Arrivals, i: Part, a: Honest, j: Part, b: Honest)
    requires TwoInTime(request, limit, g, arrivals, i, a, j, b)
    ensures var ds := ConsumeEvery(request, limit, g, arrivals.waiting + arrivals.already).ds;
            (exists p: nat, v: nat :: Heard(a, ds, p, v)) && (exists p: nat, v: nat :: Heard(b, ds, p, v))
  {
    var cs := arrivals.waiting + arrivals.already;
    var pa: nat, va: nat :| SpeaksAt(a, i, cs, pa, va);
    var pb: nat, vb: nat :| SpeaksAt(b, j, cs, pb, vb);
    HeardInTime(request, limit, g, cs, a, i, pa, va);
    HeardInTime(request, limit, g, cs, b, j, pb, vb);
  }

  lemma QuorumIsDecided(request: Request, limit: nat, seen: Seen, ds: seq<Delivery>, timedOut: bool, d: Verdict)
    requires ReceiveAll(request, limit, Start(seen), ds).quorum.Some?
    requires Justified(request, ReceiveAll(request, limit, Start(seen), ds).(terminal := true), timedOut, d)
    ensures d.outcome.Decided?
  {
    StartsSound(request, seen);
    RoundSafety(request, limit, Start(seen), ds);
  }

  class Adjudication {
    const round: DecisionRound
    var phases: Phases

    ghost predicate Valid()
      reads this, round, round.cache
    {
      round.Valid()
    }

    constructor (round: DecisionRound, available: seq<bool>)
      requires round.Valid() && |available| == 3
      ensures Valid() && this.round == round
      ensures forall i: Part :: phases[i] == if available[i] then Proposing else Finished
    {
      this.round := round;
      phases := seq(3, i requires 0 <= i < 3 => if available[i] then Proposing else Finished);
    }

    method Deliver(m: Message) returns (reply: Reply)
      requires Valid()
      modifies round, round.cache
      ensures Valid()
      ensures reply == ReplyTo(round.request, round.cache.limit, old(round.State()), m)
      ensures round.State() == Receive(round.request, round.cache.limit, old(round.State()), Delivery.Deliver(m))
    {
      if m.body.ProposalBody? {
        reply := round.AcceptProposalMessage(m);
      } else {
        reply := round.AcceptVoteMessage(m);
      }
    }

    ghost function Now(ds: seq<Delivery>): Progress
      reads this, round, round.cache
    {
      Progress(phases, round.State(), ds)
    }

    /** One completed piece of work. */
    method Consume(c: Completion, ghost ds: seq<Delivery>) returns (ghost ds': seq<Delivery>)
      requires Valid()
      modifies this, round, round.cache
      ensures Valid() && Now(ds') == ConsumeOne(round.request, round.cache.limit, old(Now(ds)), c)
    {
      ds' := ds;
      var phase := phases[c.who];
      if phase.Finished? {
        return;
      }
      phases := phases[c.who := Finished];
      if !Expected(phase, c.answer) {
        return;
      }
      var reply := Deliver(c.answer.message);
      ds' := ds + [Delivery.Deliver(c.answer.message)];
      if phase.Proposing? && reply.Accepted? {
        phases := phases[c.who := Voting];
      }
    }

    /** Consume answers until a quorum forms (`stopAtQuorum`), the parts are over, or nothing more arrives. */
    method ConsumeAll(cs: seq<Completion>, stopAtQuorum: bool, ghost ds: seq<Delivery>) returns (ghost ds': seq<Delivery>)
      requires Valid()
      modifies this, round, round.cache
      ensures Valid() && Now(ds') == ConsumeSeq(round.request, round.cache.limit, old(Now(ds)), cs, stopAtQuorum)
    {
      ds' := ds;
      var n := 0;
      while n < |cs| && Pending(phases) && !(stopAtQuorum && round.quorum.Some?)
        invariant n <= |cs| && Valid()
        invariant ConsumeSeq(round.request, round.cache.limit, Now(ds'), cs[n..], stopAtQuorum) ==
                  ConsumeSeq(round.request, round.cache.limit, old(Now(ds)), cs, stopAtQuorum)
      {
        assert cs[n..][0] == cs[n] && cs[n..][1..] == cs[n + 1..];
        ds' := Consume(cs[n], ds');
        n := n + 1;
      }
    }

    /**
     One adjudication: the decision is justified by the round that the arrivals, in their order, lead to. When two
     faithful default-policy orchestrators speak in time, it is DECIDED on the least (priority, route id) route.
     */
    method Adjudicate(arrivals: Arrivals) returns (d: Verdict, ghost ds: seq<Delivery>)
      requires Valid()
      modifies this, round, round.cache
      ensures Valid() && round.terminal
      ensures var g := Adjudicated(round.request, round.cache.limit, Progress(old(phases), old(round.State()), []), arrivals);
              && phases == g.phases && ds == g.ds && round.State() == g.st.(terminal := true)
              && Justified(round.request, round.State(), arrivals.deadlineExpired && Pending(g.phases), d)
      ensures forall i: Part, a: Honest, j: Part, b: Honest ::
                TwoInTime(round.request, round.cache.limit, Progress(old(phases), old(round.State()), []), arrivals, i, a, j, b) ==>
                  d.outcome.Decided? && d.route == Some(Choose(round.request.routes).routeId)
    {
      ghost var start := Now([]);
      ds := ConsumeAll(arrivals.waiting, true, []);
      ds := ConsumeAll(arrivals.already, false, ds);
      ghost var g := Now(ds);
      var timedOut := arrivals.deadlineExpired && Pending(phases);
      round.CloseRound();
      d := round.BuildDecision(timedOut);
      forall i: Part, a: Honest, j: Part, b: Honest |
             TwoInTime(round.request, round.cache.limit, start, arrivals, i, a, j, b)
        ensures d.outcome.Decided? && d.route == Some(Choose(round.request.routes).routeId)
      {
        InTimeDecides(round.request, round.cache.limit, start, arrivals, i, a, j, b, timedOut, d);
      }
    }
  }
}
