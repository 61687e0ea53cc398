/**
  One broadcast node: deduplication, causal delivery, hold-back, origination,
  clock synchronisation and the background drain.

  `NodeState` carries the node's fields together with the histories the claims
  speak of: `accepted` (what passed deduplication, in order), `log` (the
  deliveries handed to the application) and `merged` (clocks merged by a sync).
  The class at the end implements each operation with the objects the node owns.
 */
module BroadcastNodes {
  import opened Clocks
  import opened HoldBack
  import opened Listing
  import opened Sequences

  datatype NodeState = NodeState(
    self: NodeId,
    seen: set<MsgId>,
    clock: Clock,
    held: seq<Held>,
    log: seq<Message>,
    accepted: seq<Message>,
    merged: seq<Clock>)

  function Fresh(self: NodeId): NodeState {
    NodeState(self, {}, map[], [], [], [], [])
  }

  function AfterDrain(st: NodeState, d: Outcome): NodeState {
    st.(clock := d.clock, held := d.held, log := st.log + d.released)
  }

  /** The id is recorded as seen and the message counts as accepted. */
  function Marked(st: NodeState, m: Message): NodeState {
    st.(seen := st.seen + {m.id}, accepted := st.accepted + [m])
  }

  /** A message arriving from a peer. */
  function Receive(st: NodeState, m: Message, now: Time): NodeState {
    if m.id in st.seen then st
    else
      var marked := Marked(st, m);
      if Ready(st.clock, m) then
        AfterDrain(marked.(log := st.log + [m]), Drained(Join(st.clock, m.stamp), st.held, now, HOLDBACK_TIMEOUT))
      else
        AfterDrain(marked, Drained(st.clock, st.held + [Held(now, m)], now, HOLDBACK_TIMEOUT))
  }

  /** The message this node would originate: stamped with its own incremented clock. */
  function Draft(st: NodeState, id: MsgId, timestamp: Time, content: Content): Message {
    Message(id, st.self, Bump(st.clock, st.self), timestamp, content)
  }

  /** Originating a broadcast; a draft that cannot be signed is marked seen and dropped. */
  function Originate(st: NodeState, id: MsgId, timestamp: Time, content: Content, signed: bool): NodeState {
    if id in st.seen then st
    else if !signed then st.(seen := st.seen + {id})
    else
      var m := Draft(st, id, timestamp, content);
      st.(seen := st.seen + {id}, clock := m.stamp, log := st.log + [m], accepted := st.accepted + [m])
  }

  /** Merging a clock recovered from the store, then draining. */
  function Sync(st: NodeState, vc: Clock, now: Time): NodeState {
    AfterDrain(st.(merged := st.merged + [vc]), Drained(Join(st.clock, vc), st.held, now, HOLDBACK_TIMEOUT))
  }

  /** The background task. */
  function Tick(st: NodeState, now: Time): NodeState {
    if st.held == [] then st else AfterDrain(st, Drained(st.clock, st.held, now, HOLDBACK_TIMEOUT))
  }

  datatype Action =
    | Arrival(msg: Message, now: Time)
    | Origination(id: MsgId, timestamp: Time, content: Content, signed: bool)
    | ClockSync(vc: Clock, now: Time)
    | DrainTick(now: Time)

  function Apply(st: NodeState, a: Action): NodeState {
    match a
    case Arrival(m, now) => Receive(st, m, now)
    case Origination(id, ts, content, signed) => Originate(st, id, ts, content, signed)
    case ClockSync(vc, now) => Sync(st, vc, now)
    case DrainTick(now) => Tick(st, now)
  }

  function Run(self: NodeId, actions: seq<Action>): NodeState {
    if actions == [] then Fresh(self)
    else Apply(Run(self, actions[..|actions| - 1]), actions[|actions| - 1])
  }

  // ---- Conservation in all runs, timeouts and syncs included ----

  /** `c` is the component-wise maximum of the delivered stamps and the merged clocks. */
  ghost predicate IsMaximum(c: Clock, log: seq<Message>, merged: seq<Clock>) {
    && (forall i | 0 <= i < |log| :: Leq(log[i].stamp, c))
    && (forall i | 0 <= i < |merged| :: Leq(merged[i], c))
    && (forall k | At(c, k) > 0 :: Attained(c, log, merged, k))
  }

  ghost predicate Attained(c: Clock, log: seq<Message>, merged: seq<Clock>, k: NodeId) {
    || (exists i | 0 <= i < |log| :: At(log[i].stamp, k) == At(c, k))
    || (exists i | 0 <= i < |merged| :: At(merged[i], k) == At(c, k))
  }

  /** Every accepted message is delivered once or held once, and never both. */
  ghost predicate Balanced(st: NodeState) {
    && multiset(st.log) + multiset(Msgs(st.held)) == multiset(st.accepted)
    && UniqueIds(st.accepted)
    && (forall i | 0 <= i < |st.accepted| :: st.accepted[i].id in st.seen)
  }

  lemma MaximumOne(c: Clock, log: seq<Message>, merged: seq<Clock>, m: Message)
    requires IsMaximum(c, log, merged)
    ensures IsMaximum(Join(c, m.stamp), log + [m], merged)
  {
    var d, l := Join(c, m.stamp), log + [m];
    forall k ensures At(d, k) == Max(At(c, k), At(m.stamp, k)) { AtJoin(c, m.stamp, k); }
    assert l[|log|] == m;
    forall k | At(d, k) > 0 ensures Attained(d, l, merged, k) {
      if At(m.stamp, k) == At(d, k) {
        assert At(l[|log|].stamp, k) == At(d, k);
      } else {
        assert Attained(c, log, merged, k);
        assert forall i | 0 <= i < |log| :: l[i] == log[i];
      }
    }
  }

  lemma MaximumSnoc(c: Clock, log: seq<Message>, merged: seq<Clock>, m: Message, d: Clock, more: seq<Message>)
    requires IsMaximum(c, log, merged) && d == Join(c, m.stamp) && more == log + [m]
    ensures IsMaximum(d, more, merged)
  {
    MaximumOne(c, log, merged, m);
  }

  lemma {:induction false} MaximumMany(c: Clock, log: seq<Message>, merged: seq<Clock>, ms: seq<Message>)
    requires IsMaximum(c, log, merged)
    ensures IsMaximum(After(c, ms), log + ms, merged)
  {
    if ms == [] {
      assert log + ms == log;
    } else {
      var n := |ms| - 1;
      MaximumMany(c, log, merged, ms[..n]);
      var d, l := After(c, ms[..n]), log + ms[..n];
      assert log + ms == l + [ms[n]];
      MaximumSnoc(d, l, merged, ms[n], After(c, ms), log + ms);
    }
  }

  lemma MaximumMerge(c: Clock, log: seq<Message>, merged: seq<Clock>, vc: Clock)
    requires IsMaximum(c, log, merged)
    ensures IsMaximum(Join(c, vc), log, merged + [vc])
  {
    var d, l := Join(c, vc), merged + [vc];
    forall k ensures At(d, k) == Max(At(c, k), At(vc, k)) { AtJoin(c, vc, k); }
    assert l[|merged|] == vc;
    forall k | At(d, k) > 0 ensures Attained(d, log, l, k) {
      if At(vc, k) == At(d, k) {
        assert At(l[|merged|], k) == At(d, k);
      } else {
        assert Attained(c, log, merged, k);
        assert forall i | 0 <= i < |merged| :: l[i] == merged[i];
      }
    }
  }

  /** A drain moves messages from the queue to the log and keeps the clock the maximum. */
  lemma DrainKeeps(st: NodeState, c: Clock, q: seq<Held>, now: Time)
    requires IsMaximum(c, st.log, st.merged)
    ensures var r := AfterDrain(st, Drained(c, q, now, HOLDBACK_TIMEOUT));
            && IsMaximum(r.clock, r.log, r.merged)
            && multiset(r.log) + multiset(Msgs(r.held)) == multiset(st.log) + multiset(Msgs(q))
            && NoneReady(r.clock, r.held)
  {
    var d := Drained(c, q, now, HOLDBACK_TIMEOUT);
    DrainConserves(c, q, now, HOLDBACK_TIMEOUT);
    MaximumMany(c, st.log, st.merged, d.released);
  }

  ghost predicate Good(st: NodeState) {
    Balanced(st) && IsMaximum(st.clock, st.log, st.merged)
  }

  lemma ReadyArrivalKeeps(st: NodeState, m: Message, now: Time)
    requires Good(st) && m.id !in st.seen && Ready(st.clock, m)
    ensures Good(Receive(st, m, now)) && NoneReady(Receive(st, m, now).clock, Receive(st, m, now).held)
  {
    MaximumOne(st.clock, st.log, st.merged, m);
    DrainKeeps(Marked(st, m).(log := st.log + [m]), Join(st.clock, m.stamp), st.held, now);
    assert UniqueIds(st.accepted + [m]);
  }

  lemma HeldArrivalKeeps(st: NodeState, m: Message, now: Time)
    requires Good(st) && m.id !in st.seen && !Ready(st.clock, m)
    ensures Good(Receive(st, m, now)) && NoneReady(Receive(st, m, now).clock, Receive(st, m, now).held)
  {
    DrainKeeps(Marked(st, m), st.clock, st.held + [Held(now, m)], now);
    MsgsSnoc(st.held, Held(now, m));
    assert UniqueIds(st.accepted + [m]);
  }

  lemma ReceiveKeeps(st: NodeState, m: Message, now: Time)
    requires Good(st)
    ensures Good(Receive(st, m, now))
    ensures m.id !in st.seen ==> NoneReady(Receive(st, m, now).clock, Receive(st, m, now).held)
  {
    if m.id !in st.seen {
      if Ready(st.clock, m) {
        ReadyArrivalKeeps(st, m, now);
      } else {
        HeldArrivalKeeps(st, m, now);
      }
    }
  }

  lemma JoinBump(c: Clock, n: NodeId)
    ensures Join(c, Bump(c, n)) == Bump(c, n)
  {
  }

  lemma OriginateKeeps(st: NodeState, id: MsgId, timestamp: Time, content: Content, signed: bool)
    requires Good(st)
    ensures Good(Originate(st, id, timestamp, content, signed))
  {
    var m := Draft(st, id, timestamp, content);
    MaximumOne(st.clock, st.log, st.merged, m);
    JoinBump(st.clock, st.self);
    assert id !in st.seen ==> UniqueIds(st.accepted + [m]);
  }

  lemma SyncKeeps(st: NodeState, vc: Clock, now: Time)
    requires Good(st)
    ensures Good(Sync(st, vc, now)) && NoneReady(Sync(st, vc, now).clock, Sync(st, vc, now).held)
  {
    MaximumMerge(st.clock, st.log, st.merged, vc);
    DrainKeeps(st.(merged := st.merged + [vc]), Join(st.clock, vc), st.held, now);
  }

  lemma TickKeeps(st: NodeState, now: Time)
    requires Good(st)
    ensures Good(Tick(st, now)) && NoneReady(Tick(st, now).clock, Tick(st, now).held)
  {
    if st.held != [] {
      DrainKeeps(st, st.clock, st.held, now);
    }
  }

  lemma ApplyKeeps(st: NodeState, a: Action)
    requires Good(st)
    ensures Good(Apply(st, a))
  {
    match a
    case Arrival(m, now) => ReceiveKeeps(st, m, now);
    case Origination(id, ts, content, signed) => OriginateKeeps(st, id, ts, content, signed);
    case ClockSync(vc, now) => SyncKeeps(st, vc, now);
    case DrainTick(now) => TickKeeps(st, now);
  }

  /** Over every run of arrivals, originations, syncs and drain ticks, whatever expires. */
  lemma {:induction false} RunConserves(self: NodeId, actions: seq<Action>)
    ensures Good(Run(self, actions))
  {
    if actions != [] {
      RunConserves(self, actions[..|actions| - 1]);
      ApplyKeeps(Run(self, actions[..|actions| - 1]), actions[|actions| - 1]);
    }
  }

  lemma PlacedIsAccepted(st: NodeState, x: Message)
    requires Balanced(st)
    ensures x in st.log || x in Msgs(st.held) <==> x in st.accepted
  {
    assert x in st.log <==> x in multiset(st.log);
    assert x in Msgs(st.held) <==> x in multiset(Msgs(st.held));
    assert x in st.accepted <==> x in multiset(st.accepted);
  }

  lemma BalancedOnce(st: NodeState, m: Message, x: Message)
    requires Balanced(st) && m in st.accepted
    ensures multiset(st.log)[m] + multiset(Msgs(st.held))[m] == 1
    ensures (x in st.log || x in Msgs(st.held)) && x.id == m.id ==> x == m
  {
    CountOnce(st.accepted, m);
    PlacedIsAccepted(st, x);
    if x in st.accepted && x.id == m.id {
      SameIdSame(st.accepted, x, m);
    }
  }

  /**
    In every run each accepted message is in the log once or in the queue once,
    never both, and no other delivered or held message has its id.
   */
  lemma ExactlyOnce(self: NodeId, actions: seq<Action>, m: Message, x: Message)
    requires m in Run(self, actions).accepted
    ensures var st := Run(self, actions);
            && multiset(st.log)[m] + multiset(Msgs(st.held))[m] == 1
            && ((x in st.log || x in Msgs(st.held)) && x.id == m.id ==> x == m)
  {
    RunConserves(self, actions);
    BalancedOnce(Run(self, actions), m, x);
  }

  lemma CountOnce(ms: seq<Message>, m: Message)
    requires UniqueIds(ms)
    ensures multiset(ms)[m] == if m in ms then 1 else 0
  {
    OnceInUnique(ms, m);
    assert m in ms <==> m in multiset(ms);
  }

  /** A message whose id is new to the node is accepted, whatever its stamp and the time. */
  lemma FirstArrivalIsAccepted(self: NodeId, actions: seq<Action>, m: Message, now: Time)
    requires m.id !in Run(self, actions).seen
    ensures var st := Run(self, actions + [Arrival(m, now)]);
            m in st.accepted && m.id in st.seen && (m in st.log || m in Msgs(st.held)) && NoneReady(st.clock, st.held)
  {
    var all := actions + [Arrival(m, now)];
    assert all[..|actions|] == actions;
    RunConserves(self, actions);
    var before := Run(self, actions);
    ReceiveKeeps(before, m, now);
    var st := Run(self, all);
    assert st.accepted == before.accepted + [m];
    assert st.accepted[|before.accepted|] == m;
    PlacedIsAccepted(st, m);
  }

  // ---- The queue ages no further than the timeout ----

  /** Right after a first arrival, a sync or a tick nothing held has waited longer than five seconds. */
  lemma ActionLeavesNoneExpired(st: NodeState, a: Action, i: nat)
    requires !a.Origination? && (a.Arrival? ==> a.msg.id !in st.seen) && i < |Apply(st, a).held|
    ensures a.now - Apply(st, a).held[i].at <= 5.0
  {
    match a
    case Arrival(m, now) =>
      if Ready(st.clock, m) {
        DrainLeavesNoneExpired(Join(st.clock, m.stamp), st.held, now, HOLDBACK_TIMEOUT);
      } else {
        DrainLeavesNoneExpired(st.clock, st.held + [Held(now, m)], now, HOLDBACK_TIMEOUT);
      }
    case ClockSync(vc, now) => DrainLeavesNoneExpired(Join(st.clock, vc), st.held, now, HOLDBACK_TIMEOUT);
    case DrainTick(now) => DrainLeavesNoneExpired(st.clock, st.held, now, HOLDBACK_TIMEOUT);
  }

  /** An action adds at most the arriving message to the queue, at its time of arrival. */
  lemma HeldBefore(st: NodeState, a: Action, h: Held)
    requires h in Apply(st, a).held
    ensures h in st.held || a == Arrival(h.msg, h.at)
  {
    match a
    case Arrival(m, now) =>
      if m.id !in st.seen {
        if Ready(st.clock, m) {
          DrainLeavesNoneExpired(Join(st.clock, m.stamp), st.held, now, HOLDBACK_TIMEOUT);
          SubsequenceMembers(Apply(st, a).held, st.held, h);
        } else {
          DrainLeavesNoneExpired(st.clock, st.held + [Held(now, m)], now, HOLDBACK_TIMEOUT);
          SubsequenceMembers(Apply(st, a).held, st.held + [Held(now, m)], h);
        }
      }
    case Origination(_, _, _, _) =>
    case ClockSync(vc, now) =>
      DrainLeavesNoneExpired(Join(st.clock, vc), st.held, now, HOLDBACK_TIMEOUT);
      SubsequenceMembers(Apply(st, a).held, st.held, h);
    case DrainTick(now) =>
      if st.held != [] {
        DrainLeavesNoneExpired(st.clock, st.held, now, HOLDBACK_TIMEOUT);
        SubsequenceMembers(Apply(st, a).held, st.held, h);
      }
  }

  /** In every run a held entry is an arrival of its message at its recorded time. */
  lemma {:induction false} HeldSinceArrival(self: NodeId, actions: seq<Action>, h: Held)
    requires h in Run(self, actions).held
    ensures Arrival(h.msg, h.at) in actions
  {
    if actions != [] {
      var n := |actions| - 1;
      assert actions == actions[..n] + [actions[n]];
      HeldBefore(Run(self, actions[..n]), actions[n], h);
      if h in Run(self, actions[..n]).held {
        HeldSinceArrival(self, actions[..n], h);
      }
    }
  }

  // ---- What a broadcast says ----

  /** The caller's message from this node: its id, time and content, and the old clock with one more for this node. */
  ghost predicate Says(st: NodeState, id: MsgId, timestamp: Time, content: Content, m: Message) {
    && m.id == id && m.timestamp == timestamp && m.content == content && m.sender == st.self
    && forall k :: At(m.stamp, k) == At(st.clock, k) + (if k == st.self then 1 else 0)
  }

  /** A new, signed broadcast delivers exactly that message to its own node; any other changes at most the seen set. */
  lemma OriginationSays(st: NodeState, id: MsgId, timestamp: Time, content: Content, signed: bool)
    returns (m: Message)
    ensures var r := Originate(st, id, timestamp, content, signed);
            && Says(st, id, timestamp, content, m)
            && r.self == st.self && r.seen == st.seen + {id} && r.held == st.held && r.merged == st.merged
            && (id !in st.seen && signed ==>
                  r.log == st.log + [m] && r.accepted == st.accepted + [m] && r.clock == m.stamp)
            && (id in st.seen || !signed ==> r == st.(seen := st.seen + {id}))
  {
    m := Draft(st, id, timestamp, content);
    assert id in st.seen ==> st.seen + {id} == st.seen;
  }

  // ---- What an action delivers when nothing has expired ----

  /** The deliveries `after` made on top of `before`. */
  function NewDeliveries(before: NodeState, after: NodeState): seq<Message> {
    if |before.log| <= |after.log| then after.log[|before.log|..] else []
  }

  function HeldSet(st: NodeState): set<Message> { Elems(Msgs(st.held)) }

  /** From clock `c` the node delivered exactly `ms`, legally; that and what it still holds comes from `pool`. */
  ghost predicate Delivers(st: NodeState, c: Clock, pool: set<Message>, after: NodeState, ms: seq<Message>) {
    && after.self == st.self && after.log == st.log + ms && Legal(c, ms) && after.clock == After(c, ms)
    && Elems(ms) <= pool && HeldSet(after) <= pool
  }

  lemma OutcomeFromQueue(q: seq<Held>, d: Outcome)
    requires Conserves(q, d)
    ensures Elems(d.released) <= Elems(Msgs(q)) && Elems(Msgs(d.held)) <= Elems(Msgs(q))
  {
    forall m | m in Elems(d.released) || m in Elems(Msgs(d.held)) ensures m in Elems(Msgs(q)) {
      InOutcome(q, d, m);
    }
  }

  lemma OneIsLegal(c: Clock, m: Message)
    requires Ready(c, m)
    ensures Legal(c, [m]) && After(c, [m]) == Join(c, m.stamp)
  {
    assert ReadyAt(c, [m], 0) by { assert [m][..0] == []; }
    AfterOne(c, [], m);
    assert [] + [m] == [m];
  }

  /** A quiet drain from clock `c` over queue `q`. */
  lemma QuietDrain(st: NodeState, c: Clock, q: seq<Held>, now: Time) returns (ms: seq<Message>)
    requires NoneExpired(q, now, HOLDBACK_TIMEOUT)
    ensures Delivers(st, c, Elems(Msgs(q)), AfterDrain(st, Drained(c, q, now, HOLDBACK_TIMEOUT)), ms)
  {
    var d := Drained(c, q, now, HOLDBACK_TIMEOUT);
    DrainLegal(c, q, now, HOLDBACK_TIMEOUT);
    OutcomeFromQueue(q, d);
    ms := d.released;
  }

  lemma FirstThenRest(st: NodeState, m: Message, mid: NodeState, after: NodeState, rest: seq<Message>)
    requires Ready(st.clock, m) && mid.self == st.self && mid.log == st.log + [m]
    requires Delivers(mid, Join(st.clock, m.stamp), HeldSet(st), after, rest)
    ensures Delivers(st, st.clock, HeldSet(st) + {m}, after, [m] + rest)
  {
    var ms := [m] + rest;
    assert Legal(st.clock, ms) && After(st.clock, ms) == after.clock by {
      OneIsLegal(st.clock, m);
      LegalConcat(st.clock, [m], rest);
    }
    assert st.log + [m] + rest == st.log + ms;
    forall x | x in Elems(ms) ensures x in HeldSet(st) + {m} {
      var i :| 0 <= i < |ms| && ms[i] == x;
      assert i > 0 ==> rest[i - 1] == x;
    }
  }

  lemma QuietReceive(st: NodeState, m: Message, now: Time) returns (ms: seq<Message>)
    requires NoneExpired(st.held, now, HOLDBACK_TIMEOUT)
    ensures Delivers(st, st.clock, HeldSet(st) + {m}, Receive(st, m, now), ms)
    ensures m.id !in st.seen && Ready(st.clock, m) ==> ms != [] && ms[0] == m
  {
    ms := [];
    if m.id !in st.seen {
      if Ready(st.clock, m) {
        var mid := Marked(st, m).(log := st.log + [m]);
        var rest := QuietDrain(mid, Join(st.clock, m.stamp), st.held, now);
        FirstThenRest(st, m, mid, Receive(st, m, now), rest);
        ms := [m] + rest;
      } else {
        var q := st.held + [Held(now, m)];
        ms := QuietDrain(Marked(st, m), st.clock, q, now);
        MsgsSnoc(st.held, Held(now, m));
        assert Elems(Msgs(q)) == HeldSet(st) + {m};
      }
    }
  }

  lemma QuietTick(st: NodeState, now: Time) returns (ms: seq<Message>)
    requires NoneExpired(st.held, now, HOLDBACK_TIMEOUT)
    ensures Delivers(st, st.clock, HeldSet(st), Tick(st, now), ms)
  {
    ms := [];
    if st.held != [] {
      ms := QuietDrain(st, st.clock, st.held, now);
    }
  }

  lemma QuietSync(st: NodeState, vc: Clock, now: Time) returns (ms: seq<Message>)
    requires NoneExpired(st.held, now, HOLDBACK_TIMEOUT)
    ensures Delivers(st, Join(st.clock, vc), HeldSet(st), Sync(st, vc, now), ms)
  {
    ms := QuietDrain(st.(merged := st.merged + [vc]), Join(st.clock, vc), st.held, now);
  }

  lemma QuietOriginate(st: NodeState, id: MsgId, ts: Time, content: Content, signed: bool) returns (ms: seq<Message>)
    ensures var m := Draft(st, id, ts, content);
            && Delivers(st, st.clock, HeldSet(st) + {m}, Originate(st, id, ts, content, signed), ms)
            && m.Stamped()
  {
    ms := [];
    var m := Draft(st, id, ts, content);
    assert st.self in m.stamp;
    if id !in st.seen && signed {
      OneIsLegal(st.clock, m);
      JoinBump(st.clock, st.self);
      ms := [m];
    }
  }

  // ---- The node object ----

  /** One copy handed to the transport. */
  datatype Frame = Frame(to: NodeId, msg: Message, ttl: nat)

  /** Forwarding goes to every peer except this node and the message's originator. */
  function Targets(self: NodeId, peers: seq<NodeId>, sender: NodeId): (ts: seq<NodeId>)
    ensures forall p :: p in ts <==> p in peers && p != self && p != sender
    ensures |ts| <= |peers|
  {
    if peers == [] then []
    else
      var rest := Targets(self, peers[..|peers| - 1], sender);
      var p := peers[|peers| - 1];
      if p == self || p == sender then rest else rest + [p]
  }

  function Frames(ts: seq<NodeId>, m: Message, ttl: nat): (fs: seq<Frame>)
    ensures |fs| == |ts| && forall i | 0 <= i < |ts| :: fs[i] == Frame(ts[i], m, ttl)
  {
    seq(|ts|, i requires 0 <= i < |ts| => Frame(ts[i], m, ttl))
  }

  class BroadcastNode {
    const self: NodeId
    var seen: set<MsgId>
    const vc: VectorClock
    const holdBack: HoldBackQueue
    ghost var log: seq<Message>
    ghost var accepted: seq<Message>
    ghost var merged: seq<Clock>

    ghost predicate Valid() {
      holdBack.timeout == HOLDBACK_TIMEOUT
    }

    ghost function State(): NodeState
      reads this, vc, holdBack
    {
      NodeState(self, seen, vc.clock, holdBack.queue, log, accepted, merged)
    }

    constructor (self: NodeId)
      ensures Valid() && fresh(vc) && fresh(holdBack)
      ensures State() == Fresh(self)
    {
      this.self := self;
      seen := {};
      vc := new VectorClock();
      holdBack := new HoldBackQueue(HOLDBACK_TIMEOUT);
      log, accepted, merged := [], [], [];
    }

    method Deduplicate(id: MsgId) returns (isNew: bool)
      modifies this`seen
      ensures isNew == (id !in old(seen)) && seen == old(seen) + {id}
    {
      if id in seen {
        return false;
      }
      seen := seen + {id};
      return true;
    }

    method PeersExcluding(peers: seq<NodeId>, sender: NodeId) returns (targets: seq<NodeId>)
      ensures targets == Targets(self, peers, sender)
    {
      targets := [];
      for i := 0 to |peers|
        invariant targets == Targets(self, peers[..i], sender)
      {
        assert peers[..i + 1][..i] == peers[..i];
        if peers[i] != self && peers[i] != sender {
          targets := targets + [peers[i]];
        }
      }
      assert peers[..|peers|] == peers;
    }

    /** The causal part of an arrival: deliver at once or hold back, then drain. */
    method DeliverOrHold(m: Message, now: Time) returns (delivered: seq<Message>)
      requires Valid()
      modifies this`log, vc, holdBack
      ensures log == old(log) + delivered
      ensures Ready(old(vc.clock), m) ==>
        var d := Drained(Join(old(vc.clock), m.stamp), old(holdBack.queue), now, HOLDBACK_TIMEOUT);
        Outcome(vc.clock, delivered, holdBack.queue) == Outcome(d.clock, [m] + d.released, d.held)
      ensures !Ready(old(vc.clock), m) ==>
        Outcome(vc.clock, delivered, holdBack.queue) ==
        Drained(old(vc.clock), old(holdBack.queue) + [Held(now, m)], now, HOLDBACK_TIMEOUT)
    {
      var ready := vc.IsReady(m);
      if ready {
        vc.Merge(m.stamp);
        var rest := holdBack.Drain(vc, now);
        delivered := [m] + rest;
      } else {
        holdBack.Add(m, now);
        delivered := holdBack.Drain(vc, now);
      }
      log := log + delivered;
    }

    /**
      Process an incoming message; `delivered` are the application callbacks,
      `sent` the forwarded copies.  Content encrypted for this peer is not forwarded.
     */
    method HandleArrival(m: Message, ttl: nat, encrypted: bool, peers: seq<NodeId>, now: Time)
      returns (isNew: bool, delivered: seq<Message>, sent: seq<Frame>)
      requires Valid()
      modifies this, vc, holdBack
      ensures State() == Receive(old(State()), m, now)
      ensures log == old(log) + delivered
      ensures isNew == (m.id !in old(seen))
      ensures !isNew ==> State() == old(State())
      ensures sent == if isNew && ttl > 0 && !encrypted then Frames(Targets(self, peers, m.sender), m, ttl - 1) else []
    {
      delivered, sent := [], [];
      isNew := Deduplicate(m.id);
      if !isNew {
        return;
      }
      accepted := accepted + [m];
      delivered := DeliverOrHold(m, now);
      assert Ready(old(vc.clock), m) ==> old(log) + delivered == old(log) + [m] + delivered[1..];
      if ttl > 0 && !encrypted {
        var targets := PeersExcluding(peers, m.sender);
        sent := Frames(targets, m, ttl - 1);
      }
    }

    /** Originate a broadcast; the stamped message is delivered locally before it is forwarded. */
    method Broadcast(id: MsgId, timestamp: Time, content: Content, ttl: nat, signed: bool, peers: seq<NodeId>)
      returns (delivered: seq<Message>, sent: seq<Frame>)
      requires Valid()
      modifies this, vc
      ensures State() == Originate(old(State()), id, timestamp, content, signed)
      ensures log == old(log) + delivered
      ensures delivered == if id !in old(seen) && signed then [Draft(old(State()), id, timestamp, content)] else []
      ensures delivered != [] ==> |delivered| == 1 && Says(old(State()), id, timestamp, content, delivered[0])
      ensures sent == if delivered != [] && ttl > 0 then Frames(Targets(self, peers, self), delivered[0], ttl) else []
      ensures forall i | 0 <= i < |sent| ::
        Says(old(State()), id, timestamp, content, sent[i].msg) && sent[i].ttl == ttl &&
        sent[i].to in peers && sent[i].to != self
      ensures !signed ==> vc.clock == old(vc.clock)
    {
      delivered, sent := [], [];
      var isNew := Deduplicate(id);
      if !isNew || !signed {
        return;
      }
      vc.Increment(self);
      var m := Message(id, self, vc.clock, timestamp, content);
      delivered := [m];
      accepted, log := accepted + [m], log + [m];
      if ttl > 0 {
        var targets := PeersExcluding(peers, self);
        sent := Frames(targets, m, ttl);
        assert forall i | 0 <= i < |targets| :: targets[i] in targets;
      }
    }

    method SyncVectorClock(other: Clock, now: Time) returns (delivered: seq<Message>)
      requires Valid()
      modifies this, vc, holdBack
      ensures State() == Sync(old(State()), other, now)
      ensures log == old(log) + delivered
    {
      vc.Merge(other);
      merged := merged + [other];
      delivered := holdBack.Drain(vc, now);
      log := log + delivered;
    }

    method BackgroundDrain(now: Time) returns (delivered: seq<Message>)
      requires Valid()
      modifies this, vc, holdBack
      ensures State() == Tick(old(State()), now)
      ensures log == old(log) + delivered
    {
      delivered := [];
      if holdBack.queue != [] {
        delivered := holdBack.Drain(vc, now);
        log := log + delivered;
      }
    }
  }
}
