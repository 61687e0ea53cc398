/**
  Any number of nodes over a network that loses, duplicates and reorders.

  `sent` is everything any node ever put on the wire, oldest first.  An arrival
  may pick any element of it, any number of times or never, at any node, which
  covers loss, duplication, reordering and every forwarding path.  Runs are
  those in which no held message times out and no clock is synchronised; the
  order of deliveries is only promised for those.
 */
module Network {
  import opened Clocks
  import opened HoldBack
  import opened BroadcastNodes
  import opened Listing

  datatype Net = Net(nodes: map<NodeId, NodeState>, sent: seq<Message>, minted: set<MsgId>)

  datatype Step =
    | Broadcasting(n: NodeId, id: MsgId, timestamp: Time, content: Content, signed: bool)
    | DirectSend(n: NodeId, id: MsgId, timestamp: Time, content: Content)
    | Arriving(n: NodeId, msg: Message, now: Time)
    | Draining(n: NodeId, now: Time)

  predicate Originates(s: Step) { s.Broadcasting? || s.DirectSend? }

  function Init(names: set<NodeId>): Net {
    Net(map n | n in names :: Fresh(n), [], {})
  }

  /** The step names a node, an arrival was sent before, and nothing held at the node has expired. */
  ghost predicate Enabled(net: Net, s: Step) {
    && s.n in net.nodes
    && (s.Arriving? ==> s.msg in net.sent)
    && (s.Arriving? || s.Draining? ==> NoneExpired(net.nodes[s.n].held, s.now, HOLDBACK_TIMEOUT))
  }

  function Next(net: Net, s: Step): Net {
    if s.n !in net.nodes then net
    else
      var st := net.nodes[s.n];
      match s
      case Broadcasting(n, id, ts, content, signed) =>
        var leaves := id !in st.seen && signed;
        Net(net.nodes[n := Originate(st, id, ts, content, signed)],
            if leaves then net.sent + [Draft(st, id, ts, content)] else net.sent,
            net.minted + {id})
      case DirectSend(n, id, ts, content) =>
        net.(sent := net.sent + [Message(id, n, map[], ts, content)], minted := net.minted + {id})
      case Arriving(n, m, now) =>
        net.(nodes := net.nodes[n := Receive(st, m, now)])
      case Draining(n, now) =>
        net.(nodes := net.nodes[n := Tick(st, now)])
  }

  function Exec(names: set<NodeId>, steps: seq<Step>): Net {
    if steps == [] then Init(names)
    else Next(Exec(names, steps[..|steps| - 1]), steps[|steps| - 1])
  }

  /** Every step is enabled when it is taken. */
  ghost predicate Runs(names: set<NodeId>, steps: seq<Step>) {
    steps == [] ||
    (Runs(names, steps[..|steps| - 1]) && Enabled(Exec(names, steps[..|steps| - 1]), steps[|steps| - 1]))
  }

  /** `net` is a state of some run from empty nodes. */
  ghost predicate Reachable(net: Net) {
    exists names, steps :: Runs(names, steps) && net == Exec(names, steps)
  }

  // ---- The global invariant ----

  ghost predicate Sent(sent: seq<Message>, k: NodeId, v: nat, limit: nat)
    requires limit <= |sent|
  {
    exists p | 0 <= p < limit :: sent[p].Stamped() && sent[p].sender == k && sent[p].Seq() == v
  }

  /** Everything the stamp of `sent[i]` counts was sent before it. */
  ghost predicate Preceded(sent: seq<Message>, i: nat)
    requires i < |sent|
  {
    forall k, v | 1 <= v <= At(sent[i].stamp, k) && (k != sent[i].sender || v < sent[i].Seq()) :: Sent(sent, k, v, i)
  }

  /** An originated stamp is the originator's clock right after the origination. */
  ghost predicate OwnStamps(self: NodeId, log: seq<Message>) {
    forall i | 0 <= i < |log| && log[i].Stamped() && log[i].sender == self :: OwnStampAt(log, i)
  }

  ghost predicate OwnStampAt(log: seq<Message>, i: nat)
    requires i < |log|
  {
    log[i].stamp == After(map[], log[..i + 1])
  }

  ghost predicate HeldOk(st: NodeState, sent: seq<Message>) {
    forall i | 0 <= i < |st.held| ::
      st.held[i].msg.Stamped() && st.held[i].msg.sender != st.self && st.held[i].msg in sent
  }

  ghost predicate LogSent(st: NodeState, sent: seq<Message>) {
    forall i | 0 <= i < |st.log| && st.log[i].Stamped() :: st.log[i] in sent
  }

  ghost predicate Ordered(st: NodeState) {
    Legal(map[], st.log) && st.clock == After(map[], st.log) && NoneReady(st.clock, st.held)
  }

  ghost predicate NodeOk(st: NodeState, sent: seq<Message>) {
    Ordered(st) && OwnStamps(st.self, st.log) && HeldOk(st, sent) && LogSent(st, sent)
  }

  ghost predicate SentOk(nodes: map<NodeId, NodeState>, sent: seq<Message>, i: nat)
    requires i < |sent|
  {
    var m := sent[i];
    m.Stamped() ==>
      m.sender in nodes && m in nodes[m.sender].log && m.id in nodes[m.sender].seen && Preceded(sent, i)
  }

  ghost predicate NodesOk(nodes: map<NodeId, NodeState>, sent: seq<Message>) {
    forall n | n in nodes :: nodes[n].self == n && NodeOk(nodes[n], sent)
  }

  ghost predicate WireOk(nodes: map<NodeId, NodeState>, sent: seq<Message>, limit: nat)
    requires limit <= |sent|
  {
    forall i | 0 <= i < limit :: SentOk(nodes, sent, i)
  }

  ghost predicate Inv(net: Net) {
    NodesOk(net.nodes, net.sent) && WireOk(net.nodes, net.sent, |net.sent|)
  }

  // ---- Facts that follow from the invariant ----

  lemma SentIsOk(net: Net, m: Message)
    requires Inv(net) && m in net.sent && m.Stamped()
    ensures m.sender in net.nodes && m in net.nodes[m.sender].log && m.id in net.nodes[m.sender].seen
  {
    var i :| 0 <= i < |net.sent| && net.sent[i] == m;
    assert SentOk(net.nodes, net.sent, i);
  }

  /** Sender and number identify a stamped message network-wide. */
  lemma StampIdentifies(net: Net, a: Message, b: Message)
    requires Inv(net) && a in net.sent && b in net.sent && a.Stamped() && b.Stamped()
    requires a.sender == b.sender && a.Seq() == b.Seq()
    ensures a == b
  {
    SentIsOk(net, a);
    SentIsOk(net, b);
    var log := net.nodes[a.sender].log;
    assert NodeOk(net.nodes[a.sender], net.sent);
    var i :| 0 <= i < |log| && log[i] == a;
    var j :| 0 <= j < |log| && log[j] == b;
    LegalNumbersUnique(map[], log, i, j);
  }

  lemma LogBound(st: NodeState, m: Message)
    requires Ordered(st) && m in st.log && m.Stamped()
    ensures 1 <= m.Seq() <= At(st.clock, m.sender)
  {
    var i :| 0 <= i < |st.log| && st.log[i] == m;
    LegalSeqBounds(map[], st.log, i, |st.log|);
    assert st.log[..|st.log|] == st.log;
  }

  /** No stamp counts more messages of `n` than `n` has sent. */
  lemma OwnEntryBounded(net: Net, n: NodeId, m: Message)
    requires Inv(net) && n in net.nodes && m in net.sent && m.Stamped() && m.sender != n
    ensures At(m.stamp, n) <= At(net.nodes[n].clock, n)
  {
    if At(m.stamp, n) > 0 {
      var i :| 0 <= i < |net.sent| && net.sent[i] == m;
      assert SentOk(net.nodes, net.sent, i);
      assert Sent(net.sent, n, At(m.stamp, n), i);
      var p :| 0 <= p < i && net.sent[p].Stamped() && net.sent[p].sender == n && net.sent[p].Seq() == At(m.stamp, n);
      SentIsOk(net, net.sent[p]);
      assert NodeOk(net.nodes[n], net.sent);
      LogBound(net.nodes[n], net.sent[p]);
    }
  }

  lemma LogHas(st: NodeState, sent: seq<Message>, k: NodeId, v: nat) returns (m: Message)
    requires NodeOk(st, sent) && 1 <= v <= At(st.clock, k)
    ensures m in st.log && m.Stamped() && m.sender == k && m.Seq() == v && m in sent
  {
    var i := LegalHitsEveryNumber(map[], st.log, k, v);
    m := st.log[i];
  }

  // ---- Every step keeps the invariant ----

  lemma BumpKeepsUnready(c: Clock, n: NodeId, m: Message)
    requires !Ready(c, m) && m.sender != n && At(m.stamp, n) <= At(c, n)
    ensures !Ready(Bump(c, n), m)
  {
    var d := Bump(c, n);
    assert At(d, m.sender) == At(c, m.sender);
    if m.Seq() == At(c, m.sender) + 1 {
      var k :| k in m.stamp && k != m.sender && m.stamp[k] > At(c, k);
      assert k != n;
      assert At(d, k) == At(c, k);
    }
  }

  /** A node's own increment, which drains nothing, makes no held message ready. */
  lemma OwnIncrementUnblocksNothing(net: Net, n: NodeId)
    requires Inv(net) && n in net.nodes
    ensures NoneReady(Bump(net.nodes[n].clock, n), net.nodes[n].held)
  {
    var st := net.nodes[n];
    assert NodeOk(st, net.sent);
    forall i | 0 <= i < |st.held| ensures !Ready(Bump(st.clock, n), st.held[i].msg) {
      OwnEntryBounded(net, n, st.held[i].msg);
      BumpKeepsUnready(st.clock, n, st.held[i].msg);
    }
  }

  lemma DraftIsReady(st: NodeState, id: MsgId, ts: Time, content: Content)
    ensures Ready(st.clock, Draft(st, id, ts, content)) && Draft(st, id, ts, content).Stamped()
    ensures Draft(st, id, ts, content).Seq() == At(st.clock, st.self) + 1
  {
    assert st.self in Draft(st, id, ts, content).stamp;
  }

  lemma LegalSnoc(c: Clock, ms: seq<Message>, m: Message)
    requires Legal(c, ms) && Ready(After(c, ms), m)
    ensures Legal(c, ms + [m]) && After(c, ms + [m]) == Join(After(c, ms), m.stamp)
  {
    AfterOne(c, ms, m);
    forall i | 0 <= i < |ms + [m]| ensures ReadyAt(c, ms + [m], i) {
      assert (ms + [m])[..i] == ms[..i];
      if i < |ms| {
        assert ReadyAt(c, ms, i);
      } else {
        assert ms[..|ms|] == ms;
      }
    }
  }

  lemma OwnStampsOwn(self: NodeId, log: seq<Message>, m: Message)
    requires OwnStamps(self, log) && m.stamp == After(map[], log + [m])
    ensures OwnStamps(self, log + [m])
  {
    var all := log + [m];
    forall i | 0 <= i < |all| && all[i].Stamped() && all[i].sender == self
      ensures OwnStampAt(all, i)
    {
      if i < |log| {
        assert OwnStampAt(log, i);
        assert all[..i + 1] == log[..i + 1];
      } else {
        assert all[..i + 1] == all;
      }
    }
  }

  lemma OwnStampsForeign(self: NodeId, log: seq<Message>, ms: seq<Message>)
    requires OwnStamps(self, log)
    requires forall i | 0 <= i < |ms| :: ms[i].Stamped() ==> ms[i].sender != self
    ensures OwnStamps(self, log + ms)
  {
    var all := log + ms;
    forall i | 0 <= i < |all| && all[i].Stamped() && all[i].sender == self
      ensures OwnStampAt(all, i)
    {
      assert i < |log|;
      assert OwnStampAt(log, i);
      assert all[..i + 1] == log[..i + 1];
    }
  }

  lemma OriginateNodeOk(st: NodeState, sent: seq<Message>, id: MsgId, ts: Time, content: Content)
    requires NodeOk(st, sent) && id !in st.seen && NoneReady(Bump(st.clock, st.self), st.held)
    ensures NodeOk(Originate(st, id, ts, content, true), sent + [Draft(st, id, ts, content)])
  {
    var m := Draft(st, id, ts, content);
    DraftIsReady(st, id, ts, content);
    LegalSnoc(map[], st.log, m);
    JoinBump(st.clock, st.self);
    OwnStampsOwn(st.self, st.log, m);
    SentGrows(st, sent, m);
    assert (sent + [m])[|sent|] == m;
  }

  lemma SentGrows(st: NodeState, sent: seq<Message>, m: Message)
    requires HeldOk(st, sent) && LogSent(st, sent)
    ensures HeldOk(st, sent + [m]) && LogSent(st, sent + [m])
  {
  }

  /** A drain of messages from others delivers a legal sequence and touches no own stamp. */
  lemma DrainNodeOk(st: NodeState, q: seq<Held>, sent: seq<Message>, now: Time)
    requires Legal(map[], st.log) && st.clock == After(map[], st.log) && OwnStamps(st.self, st.log) && LogSent(st, sent)
    requires HeldOk(st.(held := q), sent) && NoneExpired(q, now, HOLDBACK_TIMEOUT)
    ensures var r := AfterDrain(st, Drained(st.clock, q, now, HOLDBACK_TIMEOUT));
            Ordered(r) && OwnStamps(r.self, r.log) && HeldOk(r, sent) && LogSent(r, sent)
  {
    var d := Drained(st.clock, q, now, HOLDBACK_TIMEOUT);
    DrainLegal(st.clock, q, now, HOLDBACK_TIMEOUT);
    LegalConcat(map[], st.log, d.released);
    ForeignOutcome(st, q, sent, d);
    OwnStampsForeign(st.self, st.log, d.released);
  }

  lemma ForeignOutcome(st: NodeState, q: seq<Held>, sent: seq<Message>, d: Outcome)
    requires Conserves(q, d) && HeldOk(st.(held := q), sent)
    ensures forall i | 0 <= i < |d.released| ::
      d.released[i].Stamped() && d.released[i].sender != st.self && d.released[i] in sent
    ensures HeldOk(st.(held := d.held), sent)
  {
    forall i | 0 <= i < |d.released|
      ensures d.released[i].Stamped() && d.released[i].sender != st.self && d.released[i] in sent
    {
      FromQueue(q, d, d.released[i]);
    }
    forall i | 0 <= i < |d.held|
      ensures d.held[i].msg.Stamped() && d.held[i].msg.sender != st.self && d.held[i].msg in sent
    {
      assert Msgs(d.held)[i] == d.held[i].msg;
      FromQueue(q, d, d.held[i].msg);
    }
  }

  lemma FromQueue(q: seq<Held>, d: Outcome, m: Message)
    requires Conserves(q, d) && (m in d.released || m in Msgs(d.held))
    ensures exists i | 0 <= i < |q| :: q[i].msg == m
  {
    InOutcome(q, d, m);
    var i :| 0 <= i < |Msgs(q)| && Msgs(q)[i] == m;
    assert q[i].msg == m;
  }

  lemma ReadyArrivalNodeOk(st: NodeState, sent: seq<Message>, m: Message, now: Time)
    requires NodeOk(st, sent) && m in sent && m.id !in st.seen && (m.Stamped() ==> m.sender != st.self)
    requires NoneExpired(st.held, now, HOLDBACK_TIMEOUT) && Ready(st.clock, m)
    ensures NodeOk(Receive(st, m, now), sent)
  {
    LegalSnoc(map[], st.log, m);
    OwnStampsForeign(st.self, st.log, [m]);
    var at := Marked(st, m).(log := st.log + [m], clock := Join(st.clock, m.stamp));
    assert LogSent(at, sent);
    DrainNodeOk(at, st.held, sent, now);
  }

  lemma HeldArrivalNodeOk(st: NodeState, sent: seq<Message>, m: Message, now: Time)
    requires NodeOk(st, sent) && m in sent && m.id !in st.seen && (m.Stamped() ==> m.sender != st.self)
    requires NoneExpired(st.held, now, HOLDBACK_TIMEOUT) && !Ready(st.clock, m)
    ensures NodeOk(Receive(st, m, now), sent)
  {
    DrainNodeOk(Marked(st, m), st.held + [Held(now, m)], sent, now);
  }

  lemma TickNodeOk(st: NodeState, sent: seq<Message>, now: Time)
    requires NodeOk(st, sent) && NoneExpired(st.held, now, HOLDBACK_TIMEOUT)
    ensures NodeOk(Tick(st, now), sent)
  {
    if st.held != [] {
      DrainNodeOk(st, st.held, sent, now);
    }
  }

  /** A fresh draft is preceded by everything its stamp counts. */
  lemma DraftPreceded(net: Net, n: NodeId, id: MsgId, ts: Time, content: Content)
    requires Inv(net) && n in net.nodes
    ensures Preceded(net.sent + [Draft(net.nodes[n], id, ts, content)], |net.sent|)
  {
    var st := net.nodes[n];
    var m := Draft(st, id, ts, content);
    var sent := net.sent + [m];
    DraftIsReady(st, id, ts, content);
    assert NodeOk(st, net.sent);
    forall k, v | 1 <= v <= At(m.stamp, k) && (k != n || v < m.Seq()) ensures Sent(sent, k, v, |net.sent|) {
      assert v <= At(st.clock, k);
      var x := LogHas(st, net.sent, k, v);
      var p :| 0 <= p < |net.sent| && net.sent[p] == x;
      assert sent[p] == x;
    }
  }

  lemma PrecededGrows(sent: seq<Message>, m: Message, i: nat)
    requires i < |sent| && Preceded(sent, i)
    ensures Preceded(sent + [m], i)
  {
    forall k, v | 1 <= v <= At(sent[i].stamp, k) && (k != sent[i].sender || v < sent[i].Seq())
      ensures Sent(sent + [m], k, v, i)
    {
      assert Sent(sent, k, v, i);
      var p :| 0 <= p < i && sent[p].Stamped() && sent[p].sender == k && sent[p].Seq() == v;
      assert (sent + [m])[p] == sent[p];
    }
  }

  /** Replacing one node by a state with a longer log and a larger seen set keeps the invariant. */
  lemma ReplaceNode(nodes: map<NodeId, NodeState>, sent: seq<Message>, n: NodeId, st: NodeState, limit: nat)
    requires n in nodes && nodes[n].log <= st.log && nodes[n].seen <= st.seen && limit <= |sent|
    requires NodesOk(nodes, sent) && WireOk(nodes, sent, limit)
    requires st.self == n && NodeOk(st, sent)
    ensures NodesOk(nodes[n := st], sent) && WireOk(nodes[n := st], sent, limit)
  {
    var nodes' := nodes[n := st];
    forall i | 0 <= i < limit ensures SentOk(nodes', sent, i) {
      assert SentOk(nodes, sent, i);
    }
  }

  /** Adding a message to the wire disturbs no node and no earlier message. */
  lemma WireGrows(net: Net, m: Message)
    requires Inv(net)
    ensures NodesOk(net.nodes, net.sent + [m]) && WireOk(net.nodes, net.sent + [m], |net.sent|)
  {
    forall n | n in net.nodes ensures net.nodes[n].self == n && NodeOk(net.nodes[n], net.sent + [m]) {
      SentGrows(net.nodes[n], net.sent, m);
    }
    forall i | 0 <= i < |net.sent| ensures SentOk(net.nodes, net.sent + [m], i) {
      assert SentOk(net.nodes, net.sent, i);
      if net.sent[i].Stamped() {
        PrecededGrows(net.sent, m, i);
      }
    }
  }

  lemma BroadcastInv(net: Net, s: Step)
    requires Inv(net) && s.Broadcasting? && s.n in net.nodes && s.id !in net.nodes[s.n].seen && s.signed
    ensures Inv(Next(net, s))
  {
    var st := net.nodes[s.n];
    var m := Draft(st, s.id, s.timestamp, s.content);
    var st' := Originate(st, s.id, s.timestamp, s.content, true);
    BroadcasterIsReplaced(net, s.n, s.id, s.timestamp, s.content);
    DraftIsSentOk(net, s.n, s.id, s.timestamp, s.content);
    WireSnoc(net.nodes[s.n := st'], net.sent, m);
  }

  lemma BroadcasterIsReplaced(net: Net, n: NodeId, id: MsgId, ts: Time, content: Content)
    requires Inv(net) && n in net.nodes && id !in net.nodes[n].seen
    ensures var st := net.nodes[n]; var m := Draft(st, id, ts, content);
            var nodes := net.nodes[n := Originate(st, id, ts, content, true)];
            NodesOk(nodes, net.sent + [m]) && WireOk(nodes, net.sent + [m], |net.sent|)
  {
    var st := net.nodes[n];
    var m := Draft(st, id, ts, content);
    assert NodeOk(st, net.sent);
    WireGrows(net, m);
    OwnIncrementUnblocksNothing(net, n);
    OriginateNodeOk(st, net.sent, id, ts, content);
    ReplaceNode(net.nodes, net.sent + [m], n, Originate(st, id, ts, content, true), |net.sent|);
  }

  lemma DraftIsSentOk(net: Net, n: NodeId, id: MsgId, ts: Time, content: Content)
    requires Inv(net) && n in net.nodes && id !in net.nodes[n].seen
    ensures var st := net.nodes[n];
            var nodes := net.nodes[n := Originate(st, id, ts, content, true)];
            SentOk(nodes, net.sent + [Draft(st, id, ts, content)], |net.sent|)
  {
    var st := net.nodes[n];
    DraftPreceded(net, n, id, ts, content);
    assert Originate(st, id, ts, content, true).log[|st.log|] == Draft(st, id, ts, content);
  }

  lemma WireSnoc(nodes: map<NodeId, NodeState>, sent: seq<Message>, m: Message)
    requires WireOk(nodes, sent + [m], |sent|) && SentOk(nodes, sent + [m], |sent|)
    ensures WireOk(nodes, sent + [m], |sent| + 1)
  {
  }

  lemma SilentBroadcastInv(net: Net, s: Step)
    requires Inv(net) && s.Broadcasting? && s.n in net.nodes && (s.id in net.nodes[s.n].seen || !s.signed)
    ensures Inv(Next(net, s))
  {
    var st := net.nodes[s.n];
    var st' := Originate(st, s.id, s.timestamp, s.content, s.signed);
    assert NodeOk(st, net.sent);
    assert NodeOk(st', net.sent);
    ReplaceNode(net.nodes, net.sent, s.n, st', |net.sent|);
  }

  lemma DirectInv(net: Net, s: Step)
    requires Inv(net) && s.DirectSend? && s.n in net.nodes
    ensures Inv(Next(net, s))
  {
    var m := Message(s.id, s.n, map[], s.timestamp, s.content);
    WireGrows(net, m);
    assert SentOk(net.nodes, net.sent + [m], |net.sent|);
  }

  lemma LocalInv(net: Net, s: Step)
    requires Inv(net) && Enabled(net, s) && (s.Arriving? || s.Draining?)
    ensures Inv(Next(net, s))
  {
    var st := net.nodes[s.n];
    assert NodeOk(st, net.sent);
    var st' := if s.Arriving? then Receive(st, s.msg, s.now) else Tick(st, s.now);
    if s.Draining? {
      TickNodeOk(st, net.sent, s.now);
    } else if s.msg.id !in st.seen {
      if s.msg.Stamped() {
        SentIsOk(net, s.msg);
      }
      if Ready(st.clock, s.msg) {
        ReadyArrivalNodeOk(st, net.sent, s.msg, s.now);
      } else {
        HeldArrivalNodeOk(st, net.sent, s.msg, s.now);
      }
    }
    ReplaceNode(net.nodes, net.sent, s.n, st', |net.sent|);
  }

  lemma NextInv(net: Net, s: Step)
    requires Inv(net) && Enabled(net, s)
    ensures Inv(Next(net, s))
  {
    match s
    case Broadcasting(_, _, _, _, _) =>
      if s.id !in net.nodes[s.n].seen && s.signed {
        BroadcastInv(net, s);
      } else {
        SilentBroadcastInv(net, s);
      }
    case DirectSend(_, _, _, _) => DirectInv(net, s);
    case Arriving(_, _, _) => LocalInv(net, s);
    case Draining(_, _) => LocalInv(net, s);
  }

  /** The invariant holds in every state every run reaches. */
  lemma {:induction false} ReachableInv(names: set<NodeId>, steps: seq<Step>)
    requires Runs(names, steps)
    ensures Inv(Exec(names, steps))
  {
    if steps == [] {
      InitInv(names);
    } else {
      ReachableInv(names, steps[..|steps| - 1]);
      NextInv(Exec(names, steps[..|steps| - 1]), steps[|steps| - 1]);
    }
  }

  lemma ReachableOk(net: Net)
    requires Reachable(net)
    ensures Inv(net)
  {
    var names, steps :| Runs(names, steps) && net == Exec(names, steps);
    ReachableInv(names, steps);
  }

  lemma InitInv(names: set<NodeId>)
    ensures Inv(Init(names))
  {
    var net := Init(names);
  }

  // ---- Causal safety ----

  /** `b`'s originator had delivered (or originated) `a` when it originated `b`. */
  ghost predicate Precedes(net: Net, a: Message, b: Message) {
    && a.Stamped() && b.Stamped() && b.sender in net.nodes
    && var log := net.nodes[b.sender].log;
       exists i, j | 0 <= i < j < |log| :: log[i] == a && log[j] == b
  }

  /** Happened-before: a chain of direct precedences. */
  ghost predicate HappenedBefore(net: Net, chain: seq<Message>) {
    |chain| >= 2 && forall i | 0 <= i < |chain| - 1 :: Link(net, chain, i)
  }

  ghost predicate Link(net: Net, chain: seq<Message>, i: nat)
    requires i + 1 < |chain|
  {
    Precedes(net, chain[i], chain[i + 1])
  }

  ghost predicate DeliveredBefore(log: seq<Message>, a: Message, b: Message) {
    forall j | 0 <= j < |log| && log[j] == b :: exists i | 0 <= i < j :: log[i] == a
  }

  /** The stamp's k-entry counts exactly the messages of k its originator had delivered. */
  lemma StampCountsDeliveries(net: Net, n: NodeId, j: nat, k: NodeId)
    requires Reachable(net) && n in net.nodes && j < |net.nodes[n].log|
    requires net.nodes[n].log[j].Stamped() && net.nodes[n].log[j].sender == n
    ensures At(net.nodes[n].log[j].stamp, k) == CountFrom(net.nodes[n].log[..j + 1], k)
  {
    ReachableOk(net);
    assert NodeOk(net.nodes[n], net.sent);
    assert OwnStampAt(net.nodes[n].log, j);
    LegalPrefix(map[], net.nodes[n].log, j + 1);
    ClockCounts(map[], net.nodes[n].log[..j + 1], k);
  }

  /** The stamp of `b` counts every message its originator delivered before it. */
  lemma StampCountsPredecessor(st: NodeState, sent: seq<Message>, i: nat, j: nat)
    requires NodeOk(st, sent) && i < j < |st.log|
    requires st.log[i].Stamped() && st.log[j].Stamped() && st.log[j].sender == st.self
    ensures st.log[i].Seq() <= At(st.log[j].stamp, st.log[i].sender)
    ensures st.log[i].sender == st.self ==> st.log[i].Seq() < st.log[j].Seq()
  {
    assert OwnStampAt(st.log, j);
    AfterCovers(map[], st.log, i, j + 1);
    if st.log[i].sender == st.self {
      LegalSeqBounds(map[], st.log, i, j);
      assert ReadyAt(map[], st.log, j);
    }
  }

  /** What the stamp counts had been delivered by whoever delivers the message. */
  lemma CountedIsDelivered(st: NodeState, sent: seq<Message>, j: nat, k: NodeId, v: nat) returns (i: nat)
    requires NodeOk(st, sent) && j < |st.log| && st.log[j].Stamped()
    requires 1 <= v <= At(st.log[j].stamp, k) && (k == st.log[j].sender ==> v < st.log[j].Seq())
    ensures i < j && st.log[i].Stamped() && st.log[i].sender == k && st.log[i].Seq() == v && st.log[i] in sent
  {
    var b := st.log[j];
    var c := After(map[], st.log[..j]);
    assert ReadyAt(map[], st.log, j);
    assert k in b.stamp;
    assert v <= At(c, k);
    LegalPrefix(map[], st.log, j);
    i := LegalHitsEveryNumber(map[], st.log[..j], k, v);
    assert st.log[..j][i] == st.log[i];
  }

  lemma DirectSafety(net: Net, a: Message, b: Message, n: NodeId)
    requires Inv(net) && Precedes(net, a, b) && n in net.nodes
    ensures DeliveredBefore(net.nodes[n].log, a, b)
  {
    var home := net.nodes[b.sender];
    var st := net.nodes[n];
    assert NodeOk(home, net.sent) && NodeOk(st, net.sent);
    var i, j :| 0 <= i < j < |home.log| && home.log[i] == a && home.log[j] == b;
    StampCountsPredecessor(home, net.sent, i, j);
    LogBound(home, a);
    forall t | 0 <= t < |st.log| && st.log[t] == b ensures exists p | 0 <= p < t :: st.log[p] == a {
      var p := CountedIsDelivered(st, net.sent, t, a.sender, a.Seq());
      StampIdentifies(net, a, st.log[p]);
    }
  }

  lemma DeliveredBeforeTrans(log: seq<Message>, a: Message, b: Message, c: Message)
    requires DeliveredBefore(log, a, b) && DeliveredBefore(log, b, c)
    ensures DeliveredBefore(log, a, c)
  {
  }

  lemma {:induction false} ChainSafety(net: Net, chain: seq<Message>, n: NodeId, z: nat)
    requires Inv(net) && HappenedBefore(net, chain) && n in net.nodes && 1 <= z < |chain|
    ensures DeliveredBefore(net.nodes[n].log, chain[0], chain[z])
  {
    assert Link(net, chain, z - 1);
    DirectSafety(net, chain[z - 1], chain[z], n);
    if z > 1 {
      ChainSafety(net, chain, n, z - 1);
      DeliveredBeforeTrans(net.nodes[n].log, chain[0], chain[z - 1], chain[z]);
    }
  }

  /**
    Network-wide causal safety: in every state of every run, if the first
    message of a chain happened before the last one, every node that delivered
    the last had delivered the first earlier.
   */
  lemma CausalSafety(net: Net, chain: seq<Message>, n: NodeId)
    requires Reachable(net) && HappenedBefore(net, chain) && n in net.nodes
    ensures DeliveredBefore(net.nodes[n].log, chain[0], chain[|chain| - 1])
  {
    ReachableOk(net);
    ChainSafety(net, chain, n, |chain| - 1);
  }

  // ---- Nothing waits without a reason ----

  ghost predicate NetGood(net: Net) {
    forall n | n in net.nodes :: Good(net.nodes[n])
  }

  lemma {:induction false} ReachableGood(names: set<NodeId>, steps: seq<Step>)
    ensures NetGood(Exec(names, steps))
  {
    if steps == [] {
      assert IsMaximum(map[], [], []);
    } else {
      var net, s := Exec(names, steps[..|steps| - 1]), steps[|steps| - 1];
      ReachableGood(names, steps[..|steps| - 1]);
      if s.n in net.nodes {
        match s
        case Broadcasting(n, id, ts, content, signed) => OriginateKeeps(net.nodes[n], id, ts, content, signed);
        case DirectSend(_, _, _, _) =>
        case Arriving(n, m, now) => ReceiveKeeps(net.nodes[n], m, now);
        case Draining(n, now) => TickKeeps(net.nodes[n], now);
      }
    }
  }

  /** The node has delivered or holds the v-th message of k. */
  ghost predicate Has(st: NodeState, k: NodeId, v: nat) {
    exists m :: m in st.accepted && m.Stamped() && m.sender == k && m.Seq() == v
  }

  /** Everything the accepted messages depend on has been accepted too. */
  ghost predicate CausallyClosed(st: NodeState) {
    forall m, k, v | m in st.accepted && 1 <= v <= At(m.stamp, k) :: Has(st, k, v)
  }

  /** Where a message first appears on the wire. */
  function IndexOf(sent: seq<Message>, m: Message): (i: nat)
    requires m in sent
    ensures i < |sent| && sent[i] == m && forall j | 0 <= j < i :: sent[j] != m
  {
    if sent[0] == m then 0 else 1 + IndexOf(sent[1..], m)
  }

  /** The held message that was sent first. */
  lemma {:induction false} OldestHeld(held: seq<Held>, sent: seq<Message>) returns (b: nat)
    requires held != [] && forall i | 0 <= i < |held| :: held[i].msg in sent
    ensures b < |held|
    ensures forall i | 0 <= i < |held| :: IndexOf(sent, held[b].msg) <= IndexOf(sent, held[i].msg)
  {
    b := 0;
    for i := 1 to |held|
      invariant b < |held|
      invariant forall j | 0 <= j < i :: IndexOf(sent, held[b].msg) <= IndexOf(sent, held[j].msg)
    {
      if IndexOf(sent, held[i].msg) < IndexOf(sent, held[b].msg) {
        b := i;
      }
    }
  }

  /** What an unready stamped message is waiting for. */
  lemma Blocker(c: Clock, m: Message) returns (k: NodeId, v: nat)
    requires m.Stamped() && !Ready(c, m) && m.Seq() > At(c, m.sender)
    ensures At(c, k) < v <= At(m.stamp, k) && (k != m.sender || v < m.Seq())
  {
    if m.Seq() == At(c, m.sender) + 1 {
      k :| k in m.stamp && k != m.sender && m.stamp[k] > At(c, k);
      v := m.stamp[k];
    } else {
      k, v := m.sender, At(c, m.sender) + 1;
    }
  }

  lemma HeldIsAhead(net: Net, n: NodeId, m: Message)
    requires Inv(net) && NetGood(net) && n in net.nodes && m in Msgs(net.nodes[n].held)
    ensures m.Stamped() && m in net.sent && m.Seq() > At(net.nodes[n].clock, m.sender)
  {
    var st := net.nodes[n];
    assert NodeOk(st, net.sent);
    var i :| 0 <= i < |st.held| && Msgs(st.held)[i] == m;
    assert st.held[i].msg == m;
    PlacedIsAccepted(st, m);
    BalancedOnce(st, m, m);
    assert m !in st.log;
    SentIsOk(net, m);
    var home := net.nodes[m.sender];
    assert NodeOk(home, net.sent);
    LogBound(home, m);
    if m.Seq() <= At(st.clock, m.sender) {
      var x := LogHas(st, net.sent, m.sender, m.Seq());
      StampIdentifies(net, x, m);
    }
  }

  ghost predicate IsOldest(held: seq<Held>, sent: seq<Message>, m: Message) {
    m in sent &&
    forall i | 0 <= i < |held| :: held[i].msg in sent && IndexOf(sent, m) <= IndexOf(sent, held[i].msg)
  }

  /** Something the oldest held message counts was sent before it, so it is not held. */
  lemma OlderIsNotHeld(net: Net, held: seq<Held>, m: Message, x: Message)
    requires Inv(net) && IsOldest(held, net.sent, m) && m.Stamped()
    requires x.Stamped() && 1 <= x.Seq() <= At(m.stamp, x.sender) && (x.sender != m.sender || x.Seq() < m.Seq())
    ensures x !in Msgs(held)
  {
    var at := IndexOf(net.sent, m);
    assert SentOk(net.nodes, net.sent, at) && Sent(net.sent, x.sender, x.Seq(), at);
    var p :| 0 <= p < at && net.sent[p].Stamped() && net.sent[p].sender == x.sender && net.sent[p].Seq() == x.Seq();
    forall i | 0 <= i < |held| ensures held[i].msg != x {
      var h := held[i].msg;
      if h == x {
        StampIdentifies(net, h, net.sent[p]);
      }
    }
    assert forall i | 0 <= i < |held| :: Msgs(held)[i] != x;
  }

  lemma NotAccepted(net: Net, n: NodeId, m: Message, k: NodeId, v: nat)
    requires Inv(net) && NetGood(net) && n in net.nodes && m.Stamped() && IsOldest(net.nodes[n].held, net.sent, m)
    requires At(net.nodes[n].clock, k) < v <= At(m.stamp, k) && (k != m.sender || v < m.Seq())
    ensures !Has(net.nodes[n], k, v)
  {
    var st := net.nodes[n];
    assert NodeOk(st, net.sent);
    forall x | x in st.accepted && x.Stamped() && x.sender == k ensures x.Seq() != v {
      if x.Seq() == v {
        PlacedIsAccepted(st, x);
        OlderIsNotHeld(net, st.held, m, x);
        LogBound(st, x);
      }
    }
  }

  /**
    A node holds messages back only because something they depend on has
    neither been delivered nor is held: in every state of every run, if the
    queue is not empty then some held message counts a message the node has
    not accepted.
   */
  lemma HeldMeansMissing(net: Net, n: NodeId) returns (m: Message, k: NodeId, v: nat)
    requires Reachable(net) && n in net.nodes && net.nodes[n].held != []
    ensures m in Msgs(net.nodes[n].held) && 1 <= v <= At(m.stamp, k) && !Has(net.nodes[n], k, v)
  {
    ReachableOk(net);
    var names, steps :| Runs(names, steps) && net == Exec(names, steps);
    ReachableGood(names, steps);
    m, k, v := MissingPredecessor(net, n);
  }

  lemma MissingPredecessor(net: Net, n: NodeId) returns (m: Message, k: NodeId, v: nat)
    requires Inv(net) && NetGood(net) && n in net.nodes && net.nodes[n].held != []
    ensures m in Msgs(net.nodes[n].held) && 1 <= v <= At(m.stamp, k) && !Has(net.nodes[n], k, v)
  {
    var st := net.nodes[n];
    assert NodeOk(st, net.sent);
    var b := OldestHeld(st.held, net.sent);
    m := st.held[b].msg;
    assert Msgs(st.held)[b] == m;
    HeldIsAhead(net, n, m);
    k, v := Blocker(st.clock, m);
    NotAccepted(net, n, m, k, v);
  }

  /**
    Arrival-order independence: once what a node has accepted is causally
    closed, whatever the order and the repetitions in which it arrived and
    however its own broadcasts were interleaved, nothing is held, everything
    has been delivered, and the clock is the number of messages per sender.
   */
  lemma ClosedSetIsDelivered(net: Net, n: NodeId)
    requires Reachable(net) && n in net.nodes && CausallyClosed(net.nodes[n])
    ensures var st := net.nodes[n];
            && st.held == []
            && multiset(st.log) == multiset(st.accepted)
            && forall k :: At(st.clock, k) == CountFrom(st.log, k)
  {
    var st := net.nodes[n];
    ReachableOk(net);
    var names, steps :| Runs(names, steps) && net == Exec(names, steps);
    ReachableGood(names, steps);
    if st.held != [] {
      var m, k, v := HeldMeansMissing(net, n);
      PlacedIsAccepted(st, m);
    }
    assert NodeOk(st, net.sent);
    forall k ensures At(st.clock, k) == CountFrom(st.log, k) {
      ClockCounts(map[], st.log, k);
    }
  }

  // ---- Convergence ----

  /** Every stamped message ever sent has reached the node. */
  ghost predicate HasEverything(net: Net, n: NodeId)
    requires n in net.nodes
  {
    forall m | m in net.sent && m.Stamped() :: m in net.nodes[n].accepted
  }

  /** What a delivered or held stamp counts was sent. */
  lemma CountedWasSent(net: Net, m: Message, k: NodeId, v: nat) returns (x: Message)
    requires Inv(net) && m in net.sent && m.Stamped() && 1 <= v <= At(m.stamp, k)
    ensures x in net.sent && x.Stamped() && x.sender == k && x.Seq() == v
  {
    if k == m.sender && v == m.Seq() {
      x := m;
    } else {
      var i :| 0 <= i < |net.sent| && net.sent[i] == m;
      assert SentOk(net.nodes, net.sent, i);
      assert v <= m.Seq() || k != m.sender;
      assert Sent(net.sent, k, v, i);
      var p :| 0 <= p < i && net.sent[p].Stamped() && net.sent[p].sender == k && net.sent[p].Seq() == v;
      x := net.sent[p];
    }
  }

  lemma AcceptedWasSent(net: Net, n: NodeId, m: Message)
    requires Inv(net) && NetGood(net) && n in net.nodes && m in net.nodes[n].accepted && m.Stamped()
    ensures m in net.sent
  {
    var st := net.nodes[n];
    assert NodeOk(st, net.sent);
    PlacedIsAccepted(st, m);
    if m in Msgs(st.held) {
      var i :| 0 <= i < |st.held| && Msgs(st.held)[i] == m;
      assert st.held[i].msg == m;
    }
  }

  lemma EverythingIsClosed(net: Net, n: NodeId)
    requires Inv(net) && NetGood(net) && n in net.nodes && HasEverything(net, n)
    ensures CausallyClosed(net.nodes[n])
  {
    var st := net.nodes[n];
    forall m, k, v | m in st.accepted && 1 <= v <= At(m.stamp, k) ensures Has(st, k, v) {
      assert m.Stamped();
      AcceptedWasSent(net, n, m);
      var x := CountedWasSent(net, m, k, v);
    }
  }

  /** A node's clock counts only messages that were sent, so it is below that of a node that has everything. */
  lemma ClockIsBelow(net: Net, a: NodeId, b: NodeId, k: NodeId)
    requires Inv(net) && a in net.nodes && b in net.nodes && HasEverything(net, b)
    requires Balanced(net.nodes[b]) && net.nodes[b].held == []
    ensures At(net.nodes[a].clock, k) <= At(net.nodes[b].clock, k)
  {
    var v := At(net.nodes[a].clock, k);
    if v > 0 {
      assert NodeOk(net.nodes[a], net.sent) && NodeOk(net.nodes[b], net.sent);
      var x := LogHas(net.nodes[a], net.sent, k, v);
      PlacedIsAccepted(net.nodes[b], x);
      LogBound(net.nodes[b], x);
    }
  }

  /**
    Convergence: two nodes that have received everything sent so far, in
    whatever orders and among whatever losses and repetitions, hold nothing,
    agree on every clock entry and have delivered the same stamped messages.
   */
  lemma NodesConverge(net: Net, a: NodeId, b: NodeId)
    requires Reachable(net) && a in net.nodes && b in net.nodes && HasEverything(net, a) && HasEverything(net, b)
    ensures net.nodes[a].held == [] && net.nodes[b].held == []
    ensures forall k :: At(net.nodes[a].clock, k) == At(net.nodes[b].clock, k)
    ensures forall m: Message | m.Stamped() :: m in net.nodes[a].log <==> m in net.nodes[b].log
  {
    ReachableOk(net);
    var names, steps :| Runs(names, steps) && net == Exec(names, steps);
    ReachableGood(names, steps);
    EverythingIsClosed(net, a);
    EverythingIsClosed(net, b);
    ClosedSetIsDelivered(net, a);
    ClosedSetIsDelivered(net, b);
    forall k ensures At(net.nodes[a].clock, k) == At(net.nodes[b].clock, k) {
      ClockIsBelow(net, a, b, k);
      ClockIsBelow(net, b, a, k);
    }
    forall m: Message | m.Stamped() ensures m in net.nodes[a].log <==> m in net.nodes[b].log {
      DeliveredIffSent(net, a, m);
      DeliveredIffSent(net, b, m);
    }
  }

  lemma DeliveredIffSent(net: Net, n: NodeId, m: Message)
    requires Inv(net) && NetGood(net) && n in net.nodes && HasEverything(net, n) && net.nodes[n].held == []
    requires m.Stamped()
    ensures m in net.nodes[n].log <==> m in net.sent
  {
    var st := net.nodes[n];
    PlacedIsAccepted(st, m);
    if m in st.accepted {
      AcceptedWasSent(net, n, m);
    }
  }

  // ---- With fresh ids, an arrival is accepted for good ----

  /** Every origination uses an id no origination used before. */
  ghost predicate FreshRun(names: set<NodeId>, steps: seq<Step>) {
    steps == [] ||
    (FreshRun(names, steps[..|steps| - 1]) && Enabled(Exec(names, steps[..|steps| - 1]), steps[|steps| - 1]) &&
     (Originates(steps[|steps| - 1]) ==> steps[|steps| - 1].id !in Exec(names, steps[..|steps| - 1]).minted))
  }

  lemma {:induction false} FreshRunRuns(names: set<NodeId>, steps: seq<Step>)
    requires FreshRun(names, steps)
    ensures Runs(names, steps)
  {
    if steps != [] {
      FreshRunRuns(names, steps[..|steps| - 1]);
    }
  }

  /** A seen id belongs to an accepted message, or to a draft that never left. */
  ghost predicate SeenOk(st: NodeState, sent: seq<Message>) {
    && (forall id | id in st.seen && SentId(sent, id) :: exists m :: m in st.accepted && m.id == id)
    && (forall m | m in st.accepted :: m in sent)
  }

  ghost predicate SentId(sent: seq<Message>, id: MsgId) {
    exists i | 0 <= i < |sent| :: sent[i].id == id
  }

  ghost predicate IdsOk(net: Net) {
    && UniqueIds(net.sent)
    && (forall i | 0 <= i < |net.sent| :: net.sent[i].id in net.minted)
    && (forall n | n in net.nodes :: net.nodes[n].seen <= net.minted && SeenOk(net.nodes[n], net.sent))
  }

  lemma SeenOkUnrelated(st: NodeState, sent: seq<Message>, m: Message)
    requires SeenOk(st, sent) && m.id !in st.seen
    ensures SeenOk(st, sent + [m])
  {
    forall id | id in st.seen && SentId(sent + [m], id) ensures exists x :: x in st.accepted && x.id == id {
      var i :| 0 <= i < |sent + [m]| && (sent + [m])[i].id == id;
      assert i < |sent| && sent[i].id == id;
      assert SentId(sent, id);
    }
  }

  lemma SeenOkAccept(st: NodeState, sent: seq<Message>, m: Message)
    requires SeenOk(st, sent) && m in sent
    ensures SeenOk(Marked(st, m), sent)
  {
    var st' := Marked(st, m);
    assert st'.accepted[|st.accepted|] == m;
    forall id | id in st'.seen && SentId(sent, id) ensures exists x :: x in st'.accepted && x.id == id {
      if id in st.seen {
        var x :| x in st.accepted && x.id == id;
        assert x in st'.accepted;
      } else {
        assert m in st'.accepted;
      }
    }
  }

  lemma DistinctSnoc(sent: seq<Message>, m: Message)
    requires UniqueIds(sent) && !SentId(sent, m.id)
    ensures UniqueIds(sent + [m])
  {
  }

  lemma NotMintedNotSent(net: Net, id: MsgId)
    requires IdsOk(net) && id !in net.minted
    ensures !SentId(net.sent, id)
  {
  }

  lemma OriginationIds(net: Net, s: Step)
    requires IdsOk(net) && Originates(s) && s.n in net.nodes && s.id !in net.minted
    ensures IdsOk(Next(net, s))
  {
    var st := net.nodes[s.n];
    NotMintedNotSent(net, s.id);
    var m := if s.Broadcasting? then Draft(st, s.id, s.timestamp, s.content)
             else Message(s.id, s.n, map[], s.timestamp, s.content);
    DistinctSnoc(net.sent, m);
    forall n | n in net.nodes ensures SeenOk(net.nodes[n], net.sent + [m]) {
      SeenOkUnrelated(net.nodes[n], net.sent, m);
    }
    assert (net.sent + [m])[|net.sent|] == m;
    SeenOkAccept(st, net.sent + [m], m);
  }

  lemma ArrivalIds(net: Net, s: Step)
    requires IdsOk(net) && Enabled(net, s) && (s.Arriving? || s.Draining?)
    ensures IdsOk(Next(net, s))
  {
    if s.Arriving? {
      SeenOkAccept(net.nodes[s.n], net.sent, s.msg);
    }
  }

  lemma {:induction false} FreshIdsOk(names: set<NodeId>, steps: seq<Step>)
    requires FreshRun(names, steps)
    ensures IdsOk(Exec(names, steps))
  {
    if steps != [] {
      var net, s := Exec(names, steps[..|steps| - 1]), steps[|steps| - 1];
      FreshIdsOk(names, steps[..|steps| - 1]);
      if Originates(s) {
        OriginationIds(net, s);
      } else {
        ArrivalIds(net, s);
      }
    }
  }

  lemma AcceptedGrows(net: Net, s: Step, n: NodeId)
    requires n in net.nodes
    ensures n in Next(net, s).nodes && net.nodes[n].accepted <= Next(net, s).nodes[n].accepted
  {
  }

  lemma ArrivalIsAccepted(net: Net, s: Step)
    requires IdsOk(net) && Enabled(net, s) && s.Arriving?
    ensures s.msg in Next(net, s).nodes[s.n].accepted
  {
    var st := net.nodes[s.n];
    if s.msg.id in st.seen {
      var i :| 0 <= i < |net.sent| && net.sent[i] == s.msg;
      assert SentId(net.sent, s.msg.id);
      var x :| x in st.accepted && x.id == s.msg.id;
      SameIdSame(net.sent, x, s.msg);
    } else {
      assert Next(net, s).nodes[s.n].accepted[|st.accepted|] == s.msg;
    }
  }

  /** With fresh ids, whatever arrived at a node has been accepted by it, and stays so. */
  lemma {:induction false} ArrivalsAreAccepted(names: set<NodeId>, steps: seq<Step>, i: nat)
    requires FreshRun(names, steps) && i < |steps| && steps[i].Arriving?
    ensures steps[i].n in Exec(names, steps).nodes
    ensures steps[i].msg in Exec(names, steps).nodes[steps[i].n].accepted
  {
    var z := |steps| - 1;
    var net := Exec(names, steps[..z]);
    FreshIdsOk(names, steps[..z]);
    if i == z {
      ArrivalIsAccepted(net, steps[z]);
    } else {
      assert steps[..z][i] == steps[i];
      ArrivalsAreAccepted(names, steps[..z], i);
      AcceptedGrows(net, steps[z], steps[i].n);
    }
  }

  /** Any order, any repetition: every message that arrived is delivered once the set is causally closed. */
  lemma ArrivalOrderIsIrrelevant(names: set<NodeId>, steps: seq<Step>, i: nat)
    requires FreshRun(names, steps) && i < |steps| && steps[i].Arriving?
    requires steps[i].n in Exec(names, steps).nodes && CausallyClosed(Exec(names, steps).nodes[steps[i].n])
    ensures var st := Exec(names, steps).nodes[steps[i].n];
            steps[i].msg in st.log && st.held == [] && forall k :: At(st.clock, k) == CountFrom(st.log, k)
  {
    var net := Exec(names, steps);
    var st := net.nodes[steps[i].n];
    FreshRunRuns(names, steps);
    ArrivalsAreAccepted(names, steps, i);
    ClosedSetIsDelivered(net, steps[i].n);
    assert steps[i].msg in multiset(st.accepted);
  }
}
