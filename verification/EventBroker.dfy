/** Event streaming: per-replay sequence numbers, a bounded ring, and isolated bounded subscriber queues. */
module EventBroker {
  import opened Wrappers

  datatype Envelope = Envelope(replayId: string, sequence: nat)

  datatype Subscriber = Subscriber(replayId: string, queue: seq<Envelope>, lagged: bool)

  datatype Broker = Broker(ring: seq<Envelope>, subs: map<nat, Subscriber>, nextId: nat)

  datatype Limits = Limits(ring: nat, queue: nat)

  predicate ValidLimits(l: Limits) {
    l.ring >= 1 && l.queue >= 1
  }

  const EMPTY_BROKER := Broker([], map[], 1)

  predicate IsSuffix<T(==)>(end: seq<T>, all: seq<T>) {
    |end| <= |all| && end == all[|all| - |end|..]
  }

  function LastOf<T(==)>(s: seq<T>, n: nat): (r: seq<T>)
    ensures |r| <= n && IsSuffix(r, s)
    ensures |s| <= n ==> r == s
    ensures |s| >= n ==> |r| == n
  {
    if |s| <= n then s else s[|s| - n..]
  }

  /** The events of one replay, in order. */
  function Of(history: seq<Envelope>, replay: string): seq<Envelope> {
    if history == [] then []
    else
      var e := history[|history| - 1];
      Of(history[..|history| - 1], replay) + if e.replayId == replay then [e] else []
  }

  // ---- Broker operations ----

  /** A full queue keeps what it has and marks the gap. */
  function Offer(s: Subscriber, limit: nat, e: Envelope): Subscriber {
    if s.replayId != e.replayId then s
    else if |s.queue| >= limit then s.(lagged := true)
    else s.(queue := s.queue + [e])
  }

  function Publish(b: Broker, l: Limits, e: Envelope): Broker {
    b.(ring := LastOf(b.ring + [e], l.ring), subs := map id | id in b.subs :: Offer(b.subs[id], l.queue, e))
  }

  /** A late joiner starts with the newest events the ring still has. */
  function Joined(b: Broker, l: Limits, replay: string): Subscriber {
    Subscriber(replay, LastOf(Of(b.ring, replay), l.queue), false)
  }

  function Subscribe(b: Broker, l: Limits, replay: string): Broker {
    b.(subs := b.subs[b.nextId := Joined(b, l, replay)], nextId := b.nextId + 1)
  }

  function Unsubscribe(b: Broker, id: nat): Broker {
    b.(subs := b.subs - {id})
  }

  function Drain(b: Broker, id: nat): (Broker, seq<Envelope>, bool) {
    if id !in b.subs then (b, [], false)
    else (b.(subs := b.subs[id := b.subs[id].(queue := [], lagged := false)]), b.subs[id].queue, b.subs[id].lagged)
  }

  /** The queue is the newest `limit` of these events, or all of them. */
  ghost predicate Newest(queue: seq<Envelope>, events: seq<Envelope>, limit: nat) {
    IsSuffix(queue, events) && (queue == events || |queue| == limit) && |queue| <= limit
  }

  /** A subscriber of this replay gets the event if its queue has room and is flagged otherwise; any other is left alone. */
  predicate Offered(s: Subscriber, s': Subscriber, limit: nat, e: Envelope) {
    && s'.replayId == s.replayId
    && (s.replayId != e.replayId ==> s' == s)
    && (s.replayId == e.replayId && |s.queue| < limit ==> s'.queue == s.queue + [e] && s'.lagged == s.lagged)
    && (s.replayId == e.replayId && |s.queue| >= limit ==> s'.queue == s.queue && s'.lagged)
  }

  class EventBroker {
    const limits: Limits
    var ring: seq<Envelope>
    var subs: map<nat, Subscriber>
    var nextId: nat

    ghost function State(): Broker
      reads this
    {
      Broker(ring, subs, nextId)
    }

    constructor (limits: Limits)
      requires ValidLimits(limits)
      ensures this.limits == limits && State() == EMPTY_BROKER
    {
      this.limits := limits;
      ring, subs, nextId := [], map[], 1;
    }

    method PublishEvent(e: Envelope)
      modifies this
      ensures State() == Publish(old(State()), limits, e)
      ensures Newest(ring, old(ring) + [e], limits.ring) && nextId == old(nextId)
      ensures subs.Keys == old(subs).Keys && forall id | id in subs :: Offered(old(subs)[id], subs[id], limits.queue, e)
    {
      ring := LastOf(ring + [e], limits.ring);
      var rest := subs.Keys;
      ghost var before := subs;
      while rest != {}
        invariant rest <= subs.Keys && subs.Keys == before.Keys && nextId == old(nextId) && ring == LastOf(old(ring) + [e], limits.ring)
        invariant forall id | id in before :: subs[id] == if id in rest then before[id] else Offer(before[id], limits.queue, e)
        decreases rest
      {
        var id :| id in rest;
        var s := subs[id];
        if s.replayId == e.replayId {
          if |s.queue| >= limits.queue {
            s := s.(lagged := true);
          } else {
            s := s.(queue := s.queue + [e]);
          }
        }
        subs := subs[id := s];
        rest := rest - {id};
      }
    }

    method SubscribeTo(replay: string) returns (id: nat)
      modifies this
      ensures id == old(nextId) && State() == Subscribe(old(State()), limits, replay)
      ensures nextId == id + 1 && ring == old(ring) && id in subs && subs == old(subs)[id := subs[id]]
      ensures subs[id].replayId == replay && !subs[id].lagged
      ensures Newest(subs[id].queue, Of(ring, replay), limits.queue)
    {
      id := nextId;
      nextId := nextId + 1;
      subs := subs[id := Subscriber(replay, LastOf(Of(ring, replay), limits.queue), false)];
    }

    method UnsubscribeFrom(id: nat)
      modifies this
      ensures State() == Unsubscribe(old(State()), id)
      ensures forall k :: k in subs <==> k in old(subs) && k != id
      ensures forall k | k in subs :: subs[k] == old(subs)[k]
      ensures ring == old(ring) && nextId == old(nextId)
    {
      if id in subs {
        subs := subs - {id};
      }
      assert subs == old(subs) - {id};
    }

    method DrainQueue(id: nat) returns (events: seq<Envelope>, lagged: bool)
      modifies this
      ensures (State(), events, lagged) == Drain(old(State()), id)
      ensures id in old(subs) ==>
                && events == old(subs)[id].queue && lagged == old(subs)[id].lagged
                && subs == old(subs)[id := Subscriber(old(subs)[id].replayId, [], false)]
      ensures id !in old(subs) ==> events == [] && !lagged && subs == old(subs)
      ensures ring == old(ring) && nextId == old(nextId)
    {
      if id !in subs {
        return [], false;
      }
      events, lagged := subs[id].queue, subs[id].lagged;
      subs := subs[id := subs[id].(queue := [], lagged := false)];
    }
  }

  /** The controller numbers the events of each replay and hands them on under one lock. */
  class ReplayController {
    const broker: EventBroker
    var sequences: map<string, nat>
    ghost var history: seq<Envelope>

    ghost predicate Valid()
      reads this
    {
      Numbered(history) && forall r: string :: |Of(history, r)| == if r in sequences then sequences[r] else 0
    }

    constructor (broker: EventBroker)
      ensures Valid() && this.broker == broker && history == []
    {
      this.broker := broker;
      sequences, history := map[], [];
    }

    method PublishNext(replay: string) returns (e: Envelope)
      requires Valid()
      modifies this, broker
      ensures Valid() && history == old(history) + [e]
      ensures e == Envelope(replay, |Of(old(history), replay)|)
      ensures broker.State() == Publish(old(broker.State()), broker.limits, e)
    {
      var seqno := if replay in sequences then sequences[replay] else 0;
      sequences := sequences[replay := seqno + 1];
      e := Envelope(replay, seqno);
      NumberNext(history, e);
      history := history + [e];
      broker.PublishEvent(e);
    }
  }

  /** The n-th event of a replay carries sequence number n. */
  ghost predicate Numbered(history: seq<Envelope>) {
    forall r: string, n: nat :: n < |Of(history, r)| ==> Of(history, r)[n].sequence == n
  }

  lemma NumberNext(history: seq<Envelope>, e: Envelope)
    requires Numbered(history) && e.sequence == |Of(history, e.replayId)|
    ensures Numbered(history + [e])
    ensures forall r: string :: Of(history + [e], r) == Of(history, r) + if e.replayId == r then [e] else []
  {
  }

  // ---- Every schedule ----

  datatype Op = PublishOp(replay: string) | SubscribeOp(replay: string) | UnsubscribeOp(id: nat) | DrainOp(id: nat)

  /** One answer to a drain, with the positions in the replay's stream it covers. */
  datatype Drained = Drained(from: nat, events: seq<Envelope>, lagged: bool)

  /** One subscription as seen from outside: its replay, where its queue starts in that stream, its drains so far. */
  datatype Account = Account(replay: string, start: nat, drains: seq<Drained>)

  datatype World = World(broker: Broker, history: seq<Envelope>, accounts: map<nat, Account>)

  const EMPTY_WORLD := World(EMPTY_BROKER, [], map[])

  function Act(w: World, l: Limits, op: Op): World {
    match op
    case PublishOp(r) =>
      var e := Envelope(r, |Of(w.history, r)|);
      w.(broker := Publish(w.broker, l, e), history := w.history + [e])
    case SubscribeOp(r) =>
      var start := StartOf(w.history, r, Joined(w.broker, l, r).queue);
      w.(broker := Subscribe(w.broker, l, r), accounts := w.accounts[w.broker.nextId := Account(r, start, [])])
    case UnsubscribeOp(id) => w.(broker := Unsubscribe(w.broker, id))
    case DrainOp(id) =>
      if id !in w.broker.subs || id !in w.accounts then w
      else
        var (b, events, lagged) := Drain(w.broker, id);
        var a := w.accounts[id];
        w.(broker := b,
           accounts := w.accounts[id := Account(a.replay, |Of(w.history, a.replay)|, a.drains + [Drained(a.start, events, lagged)])])
  }

  function StartOf(history: seq<Envelope>, r: string, queue: seq<Envelope>): nat {
    if |Of(history, r)| >= |queue| then |Of(history, r)| - |queue| else 0
  }

  function RunAll(l: Limits, ops: seq<Op>): World {
    if ops == [] then EMPTY_WORLD else Act(RunAll(l, ops[..|ops| - 1]), l, ops[|ops| - 1])
  }

  /** The queue is a contiguous stretch of the stream: up to its end, or full with a marked gap behind it. */
  ghost predicate Queue(s: Subscriber, limit: nat, stream: seq<Envelope>, start: nat) {
    && start + |s.queue| <= |stream| && s.queue == stream[start..start + |s.queue|]
    && |s.queue| <= limit
    && (if s.lagged then |s.queue| == limit && start + |s.queue| < |stream| else start + |s.queue| == |stream|)
  }

  /** Each drain is a contiguous stretch, starting no earlier than the previous one ended, and right there unless lagged. */
  ghost predicate Seamless(drains: seq<Drained>, stream: seq<Envelope>, start: nat) {
    && start <= |stream|
    && (forall i | 0 <= i < |drains| ::
          && drains[i].from + |drains[i].events| <= |stream|
          && drains[i].events == stream[drains[i].from..drains[i].from + |drains[i].events|])
    && (forall i | 0 <= i < |drains| ::
          var end := drains[i].from + |drains[i].events|;
          var next := if i + 1 < |drains| then drains[i + 1].from else start;
          if drains[i].lagged then end < next else end == next)
  }

  /** A subscriber and its account agree. */
  ghost predicate Accounted(s: Subscriber, a: Account, l: Limits, history: seq<Envelope>) {
    s.replayId == a.replay && Queue(s, l.queue, Of(history, a.replay), a.start)
  }

  ghost predicate Sound(a: Account, history: seq<Envelope>) {
    Seamless(a.drains, Of(history, a.replay), a.start)
  }

  ghost predicate Inv(w: World, l: Limits) {
    && Numbered(w.history)
    && w.broker.ring == LastOf(w.history, l.ring)
    && (forall id | id in w.accounts :: id < w.broker.nextId)
    && (forall id | id in w.broker.subs :: id in w.accounts && Accounted(w.broker.subs[id], w.accounts[id], l, w.history))
    && (forall id | id in w.accounts :: Sound(w.accounts[id], w.history))
  }

  lemma {:induction false} OfConcat(a: seq<Envelope>, b: seq<Envelope>, r: string)
    ensures Of(a + b, r) == Of(a, r) + Of(b, r)
  {
    if b == [] {
      assert a + b == a;
    } else {
      var last := |b| - 1;
      assert (a + b)[..|a + b| - 1] == a + b[..last];
      OfConcat(a, b[..last], r);
    }
  }

  /** What the ring has of a replay is the end of its stream. */
  lemma RingHoldsSuffix(history: seq<Envelope>, limit: nat, r: string)
    ensures IsSuffix(Of(LastOf(history, limit), r), Of(history, r))
  {
    var ring := LastOf(history, limit);
    var older := history[..|history| - |ring|];
    assert history == older + ring;
    OfConcat(older, ring, r);
  }

  lemma DrainKeepsSeamless(drains: seq<Drained>, stream: seq<Envelope>, start: nat, s: Subscriber, limit: nat)
    requires Seamless(drains, stream, start) && Queue(s, limit, stream, start)
    ensures Seamless(drains + [Drained(start, s.queue, s.lagged)], stream, |stream|)
  {
    var all := drains + [Drained(start, s.queue, s.lagged)];
    forall i | 0 <= i < |all|
      ensures all[i].from + |all[i].events| <= |stream|
      ensures all[i].events == stream[all[i].from..all[i].from + |all[i].events|]
      ensures var end := all[i].from + |all[i].events|;
              var next := if i + 1 < |all| then all[i + 1].from else |stream|;
              if all[i].lagged then end < next else end == next
    {
      if i + 1 < |drains| {
        assert all[i] == drains[i] && all[i + 1] == drains[i + 1];
      } else if i < |drains| {
        assert all[i] == drains[i] && all[i + 1].from == start;
      } else {
        assert all[i] == Drained(start, s.queue, s.lagged);
      }
    }
  }

  lemma RingSlides(history: seq<Envelope>, limit: nat, e: Envelope)
    ensures LastOf(LastOf(history, limit) + [e], limit) == LastOf(history + [e], limit)
  {
  }

  lemma SubscribersFollow(w: World, l: Limits, e: Envelope)
    requires forall id | id in w.broker.subs :: id in w.accounts && Accounted(w.broker.subs[id], w.accounts[id], l, w.history)
    ensures forall id | id in w.broker.subs ::
              Accounted(Offer(w.broker.subs[id], l.queue, e), w.accounts[id], l, w.history + [e])
  {
  }

  lemma AccountsFollow(a: Account, history: seq<Envelope>, e: Envelope)
    requires Sound(a, history)
    ensures Sound(a, history + [e])
  {
  }

  lemma PublishKeeps(w: World, l: Limits, r: string)
    requires Inv(w, l)
    ensures Inv(Act(w, l, PublishOp(r)), l)
  {
    var e := Envelope(r, |Of(w.history, r)|);
    NumberNext(w.history, e);
    RingSlides(w.history, l.ring, e);
    SubscribersFollow(w, l, e);
    forall id | id in w.accounts
      ensures Sound(w.accounts[id], w.history + [e])
    {
      AccountsFollow(w.accounts[id], w.history, e);
    }
  }

  lemma SuffixOfSuffix<T>(all: seq<T>, mid: seq<T>, end: seq<T>)
    requires IsSuffix(mid, all) && IsSuffix(end, mid)
    ensures IsSuffix(end, all)
  {
  }

  lemma LastIsSuffix<T>(s: seq<T>, n: nat)
    ensures IsSuffix(LastOf(s, n), s)
  {
  }

  lemma JoinedQueue(history: seq<Envelope>, ring: nat, limit: nat, r: string)
    ensures IsSuffix(LastOf(Of(LastOf(history, ring), r), limit), Of(history, r))
  {
    var recent := Of(LastOf(history, ring), r);
    RingHoldsSuffix(history, ring, r);
    LastIsSuffix(recent, limit);
    SuffixOfSuffix(Of(history, r), recent, LastOf(recent, limit));
  }

  lemma JoinedIsAccounted(history: seq<Envelope>, l: Limits, r: string, queue: seq<Envelope>)
    requires IsSuffix(queue, Of(history, r)) && |queue| <= l.queue
    ensures var a := Account(r, StartOf(history, r, queue), []);
            Accounted(Subscriber(r, queue, false), a, l, history) && Sound(a, history)
  {
  }

  /** Replacing one subscriber and its account by ones that agree. */
  lemma ReplaceKeeps(w: World, w': World, l: Limits, id: nat)
    requires Inv(w, l)
    requires w'.history == w.history && w'.broker.ring == w.broker.ring
    requires id < w'.broker.nextId && w.broker.nextId <= w'.broker.nextId
    requires id in w'.broker.subs && id in w'.accounts
    requires w'.broker.subs == w.broker.subs[id := w'.broker.subs[id]] && w'.accounts == w.accounts[id := w'.accounts[id]]
    requires Accounted(w'.broker.subs[id], w'.accounts[id], l, w.history) && Sound(w'.accounts[id], w.history)
    ensures Inv(w', l)
  {
  }

  lemma SubscribeKeeps(w: World, l: Limits, r: string)
    requires Inv(w, l)
    ensures Inv(Act(w, l, SubscribeOp(r)), l)
  {
    JoinedAgrees(w.broker, w.history, l, r);
    ReplaceKeeps(w, Act(w, l, SubscribeOp(r)), l, w.broker.nextId);
  }

  lemma JoinedAgrees(b: Broker, history: seq<Envelope>, l: Limits, r: string)
    requires b.ring == LastOf(history, l.ring)
    ensures var s := Joined(b, l, r);
            var a := Account(r, StartOf(history, r, s.queue), []);
            Accounted(s, a, l, history) && Sound(a, history)
  {
    JoinedQueue(history, l.ring, l.queue, r);
    JoinedIsAccounted(history, l, r, Joined(b, l, r).queue);
  }

  lemma DrainedIsAccounted(s: Subscriber, a: Account, l: Limits, history: seq<Envelope>)
    requires Accounted(s, a, l, history) && Sound(a, history)
    ensures var a' := Account(a.replay, |Of(history, a.replay)|, a.drains + [Drained(a.start, s.queue, s.lagged)]);
            Accounted(s.(queue := [], lagged := false), a', l, history) && Sound(a', history)
  {
    DrainKeepsSeamless(a.drains, Of(history, a.replay), a.start, s, l.queue);
  }

  lemma DrainKeeps(w: World, l: Limits, id: nat)
    requires Inv(w, l)
    ensures Inv(Act(w, l, DrainOp(id)), l)
  {
    if id in w.broker.subs {
      DrainedIsAccounted(w.broker.subs[id], w.accounts[id], l, w.history);
      ReplaceKeeps(w, Act(w, l, DrainOp(id)), l, id);
    }
  }

  lemma {:induction false} RunKeeps(l: Limits, ops: seq<Op>)
    requires ValidLimits(l)
    ensures Inv(RunAll(l, ops), l)
  {
    if ops != [] {
      RunKeeps(l, ops[..|ops| - 1]);
      var w, op := RunAll(l, ops[..|ops| - 1]), ops[|ops| - 1];
      match op
      case PublishOp(r) => PublishKeeps(w, l, r);
      case SubscribeOp(r) => SubscribeKeeps(w, l, r);
      case UnsubscribeOp(id) =>
      case DrainOp(id) => DrainKeeps(w, l, id);
    }
  }

  /** The subscriber starts unflagged with the newest events of its replay that are among the newest of all. */
  ghost predicate Started(s: Subscriber, l: Limits, history: seq<Envelope>, r: string) {
    && s.replayId == r && !s.lagged
    && Newest(s.queue, Of(LastOf(history, l.ring), r), l.queue) && IsSuffix(s.queue, Of(history, r))
  }

  lemma JoinedStarts(b: Broker, l: Limits, history: seq<Envelope>, r: string)
    requires b.ring == LastOf(history, l.ring)
    ensures Started(Joined(b, l, r), l, history, r)
  {
    JoinedQueue(history, l.ring, l.queue, r);
  }

  /** Everyone but this one subscriber is as before. */
  ghost predicate OthersStay(subs: map<nat, Subscriber>, subs': map<nat, Subscriber>, id: nat) {
    forall k | k != id :: (k in subs <==> k in subs') && (k in subs ==> subs'[k] == subs[k])
  }

  /**
   In every schedule a joiner, under a new id, starts with the newest events of its replay among the newest of all, and
   nobody else's subscription changes when somebody joins or leaves.
   */
  lemma JoinerGetsBacklog(l: Limits, ops: seq<Op>, r: string, gone: nat)
    requires ValidLimits(l)
    ensures var w := RunAll(l, ops);
            var joined, left := Subscribe(w.broker, l, r), Unsubscribe(w.broker, gone);
            var id := w.broker.nextId;
            && id !in w.broker.subs && id in joined.subs && Started(joined.subs[id], l, w.history, r)
            && OthersStay(w.broker.subs, joined.subs, id)
            && gone !in left.subs && OthersStay(w.broker.subs, left.subs, gone)
  {
    RunKeeps(l, ops);
    var w := RunAll(l, ops);
    JoinedStarts(w.broker, l, w.history, r);
    LeavesOthers(w.broker, l, r, gone);
    assert w.broker.nextId !in w.broker.subs;
  }

  lemma LeavesOthers(b: Broker, l: Limits, r: string, gone: nat)
    ensures b.nextId in Subscribe(b, l, r).subs && Subscribe(b, l, r).subs[b.nextId] == Joined(b, l, r)
    ensures OthersStay(b.subs, Subscribe(b, l, r).subs, b.nextId)
    ensures gone !in Unsubscribe(b, gone).subs && OthersStay(b.subs, Unsubscribe(b, gone).subs, gone)
  {
  }

  /**
   No silent gaps, in every schedule: the events of one drain have consecutive sequence numbers; the next drain starts
   with the immediately following number unless this one was flagged lagged, and then strictly later, behind a real gap.
   */
  lemma NoSilentGaps(l: Limits, ops: seq<Op>, id: nat, i: nat)
    requires ValidLimits(l)
    requires id in RunAll(l, ops).accounts && i < |RunAll(l, ops).accounts[id].drains|
    ensures var d := RunAll(l, ops).accounts[id].drains;
            && Consecutive(d[i])
            && (forall j: nat :: i < j < |d| ==> d[i].from + |d[i].events| <= d[j].from)
            && (i + 1 < |d| ==>
                  if d[i].lagged then d[i].from + |d[i].events| < d[i + 1].from else d[i].from + |d[i].events| == d[i + 1].from)
  {
    RunKeeps(l, ops);
    var w := RunAll(l, ops);
    AccountIsSeamless(w.history, w.accounts[id], i);
  }

  lemma AccountIsSeamless(history: seq<Envelope>, a: Account, i: nat)
    requires Numbered(history) && Sound(a, history) && i < |a.drains|
    ensures Consecutive(a.drains[i])
    ensures forall j: nat :: i < j < |a.drains| ==> a.drains[i].from + |a.drains[i].events| <= a.drains[j].from
    ensures i + 1 < |a.drains| ==>
              if a.drains[i].lagged then a.drains[i].from + |a.drains[i].events| < a.drains[i + 1].from
              else a.drains[i].from + |a.drains[i].events| == a.drains[i + 1].from
  {
    StretchIsConsecutive(history, a.replay, a.drains[i]);
    forall j: nat | i < j < |a.drains|
      ensures a.drains[i].from + |a.drains[i].events| <= a.drains[j].from
    {
      DrainsAdvance(a.drains, Of(history, a.replay), a.start, i, j);
    }
  }

  /** The events carry the numbers from, from + 1, and so on. */
  ghost predicate Consecutive(d: Drained) {
    forall n: nat :: n < |d.events| ==> d.events[n].sequence == d.from + n
  }

  lemma StretchIsConsecutive(history: seq<Envelope>, r: string, d: Drained)
    requires Numbered(history)
    requires d.from + |d.events| <= |Of(history, r)| && d.events == Of(history, r)[d.from..d.from + |d.events|]
    ensures Consecutive(d)
  {
  }

  lemma {:induction false} DrainsAdvance(d: seq<Drained>, stream: seq<Envelope>, start: nat, i: nat, j: nat)
    requires Seamless(d, stream, start) && i < j < |d|
    ensures d[i].from + |d[i].events| <= d[j].from
    decreases j
  {
    if i + 1 < j {
      DrainsAdvance(d, stream, start, i, j - 1);
    }
    assert d[j - 1].from + |d[j - 1].events| <= d[j].from;
  }
}
