/**
  Flooding one plaintext message over a fixed, possibly cyclic topology.

  The state is global: who has seen the message, which copies are in flight,
  which nodes have forwarded it and how many copies were ever sent.  A step
  delivers, loses or duplicates one copy; what a node does with a copy is what
  `BroadcastNode.HandleArrival` and `BroadcastNode.Broadcast` send.
 */
module Flood {
  import opened Clocks
  import opened BroadcastNodes
  import opened Sequences

  /** Each node's peer list. */
  type Topology = map<NodeId, seq<NodeId>>

  /** Peer lists name known nodes only. */
  ghost predicate Closed(t: Topology) {
    forall n, i | n in t && 0 <= i < |t[n]| :: t[n][i] in t
  }

  datatype State = State(seen: set<NodeId>, inFlight: seq<Frame>, forwarders: seq<NodeId>, sent: nat)

  /** The copies node `n` sends: everyone it knows except itself and the originator. */
  function Out(t: Topology, m: Message, n: NodeId, ttl: nat): seq<Frame>
    requires n in t
  {
    Frames(Targets(n, t[n], m.sender), m, ttl)
  }

  function Emit(t: Topology, st: State, m: Message, n: NodeId, ttl: nat): State
    requires n in t
  {
    var fs := Out(t, m, n, ttl);
    st.(inFlight := st.inFlight + fs, forwarders := st.forwarders + [n], sent := st.sent + |fs|)
  }

  function Start(t: Topology, m: Message, ttl: nat): State
    requires m.sender in t
  {
    var st := State({m.sender}, [], [], 0);
    if ttl > 0 then Emit(t, st, m, m.sender, ttl) else st
  }

  datatype Step = Deliver(i: nat) | Lose(i: nat) | Duplicate(i: nat)

  function Without(fs: seq<Frame>, i: nat): seq<Frame>
    requires i < |fs|
  {
    fs[..i] + fs[i + 1..]
  }

  /** First sight marks and forwards; every later copy is dropped. */
  function Arrived(t: Topology, st: State, f: Frame): State {
    if f.to in st.seen || f.to !in t then st
    else
      var marked := st.(seen := st.seen + {f.to});
      if f.ttl > 0 then Emit(t, marked, f.msg, f.to, f.ttl - 1) else marked
  }

  function Next(t: Topology, st: State, step: Step): State
    requires step.i < |st.inFlight|
  {
    var f := st.inFlight[step.i];
    match step
    case Deliver(i) => Arrived(t, st.(inFlight := Without(st.inFlight, i)), f)
    case Lose(i) => st.(inFlight := Without(st.inFlight, i))
    case Duplicate(i) => st.(inFlight := st.inFlight + [f])
  }

  /** `states` is a run of the flood, one state longer than `steps`. */
  ghost predicate IsRun(t: Topology, m: Message, ttl: nat, states: seq<State>, steps: seq<Step>) {
    && m.sender in t && |states| == |steps| + 1 && states[0] == Start(t, m, ttl)
    && forall i | 0 <= i < |steps| :: Linked(t, states, steps, i)
  }

  ghost predicate Linked(t: Topology, states: seq<State>, steps: seq<Step>, i: nat)
    requires |states| == |steps| + 1 && i < |steps|
  {
    steps[i].i < |states[i].inFlight| && states[i + 1] == Next(t, states[i], steps[i])
  }

  ghost predicate Lossless(steps: seq<Step>) {
    forall i | 0 <= i < |steps| :: !steps[i].Lose?
  }

  ghost predicate WithoutRetries(steps: seq<Step>) {
    forall i | 0 <= i < |steps| :: !steps[i].Duplicate?
  }

  lemma RunPrefix(t: Topology, m: Message, ttl: nat, states: seq<State>, steps: seq<Step>)
    requires IsRun(t, m, ttl, states, steps) && steps != []
    ensures var n := |steps| - 1;
            IsRun(t, m, ttl, states[..n + 1], steps[..n]) && Linked(t, states, steps, n)
  {
    var n := |steps| - 1;
    var front, path := states[..n + 1], steps[..n];
    forall i | 0 <= i < n ensures Linked(t, front, path, i) {
      assert Linked(t, states, steps, i);
    }
  }

  // ---- Every node forwards at most once ----

  ghost predicate Distinct(ns: seq<NodeId>) {
    forall i, j | 0 <= i < j < |ns| :: ns[i] != ns[j]
  }

  function OutDegree(t: Topology, m: Message, n: NodeId): nat
    requires n in t
  {
    |Targets(n, t[n], m.sender)|
  }

  /** Copies the listed forwarders send between them. */
  function Total(t: Topology, m: Message, ns: seq<NodeId>): nat
    requires Elems(ns) <= t.Keys
  {
    if ns == [] then 0
    else
      assert ns[|ns| - 1] in Elems(ns);
      Total(t, m, ns[..|ns| - 1]) + OutDegree(t, m, ns[|ns| - 1])
  }

  /** Every copy in flight is of `m` and addressed to a known node that is not the originator. */
  ghost predicate Copies(t: Topology, m: Message, fs: seq<Frame>) {
    forall i | 0 <= i < |fs| :: fs[i].msg == m && fs[i].to in t && fs[i].to != m.sender
  }

  /** What holds in every state, whatever is lost or duplicated. */
  ghost predicate Sound(t: Topology, m: Message, st: State) {
    && Copies(t, m, st.inFlight)
    && m.sender in st.seen && st.seen <= t.Keys
    && Distinct(st.forwarders) && Elems(st.forwarders) <= st.seen
    && st.sent == Total(t, m, st.forwarders)
  }

  lemma OutCopies(t: Topology, m: Message, n: NodeId, ttl: nat)
    requires Closed(t) && n in t
    ensures Copies(t, m, Out(t, m, n, ttl))
  {
    var ts := Targets(n, t[n], m.sender);
    forall i | 0 <= i < |ts| ensures ts[i] in t && ts[i] != m.sender {
      assert ts[i] in ts;
      var j :| 0 <= j < |t[n]| && t[n][j] == ts[i];
    }
  }

  lemma EmitSound(t: Topology, st: State, m: Message, n: NodeId, ttl: nat)
    requires Closed(t) && Sound(t, m, st) && n in st.seen && n !in st.forwarders
    ensures Sound(t, m, Emit(t, st, m, n, ttl))
  {
    var r, fs := Emit(t, st, m, n, ttl), Out(t, m, n, ttl);
    OutCopies(t, m, n, ttl);
    CopiesJoin(t, m, st.inFlight, fs);
    OneMoreForwarder(t, m, st.forwarders, n);
    assert r.forwarders == st.forwarders + [n] && r.inFlight == st.inFlight + fs;
  }

  lemma CopiesJoin(t: Topology, m: Message, a: seq<Frame>, b: seq<Frame>)
    requires Copies(t, m, a) && Copies(t, m, b)
    ensures Copies(t, m, a + b)
  {
  }

  lemma OneMoreForwarder(t: Topology, m: Message, ns: seq<NodeId>, n: NodeId)
    requires Distinct(ns) && Elems(ns) <= t.Keys && n in t && n !in ns
    ensures Distinct(ns + [n]) && Elems(ns + [n]) == Elems(ns) + {n}
    ensures Total(t, m, ns + [n]) == Total(t, m, ns) + OutDegree(t, m, n)
  {
    ElemsSnoc(ns, n);
    assert (ns + [n])[..|ns|] == ns;
  }

  lemma StartSound(t: Topology, m: Message, ttl: nat)
    requires Closed(t) && m.sender in t
    ensures Sound(t, m, Start(t, m, ttl))
  {
    var st := State({m.sender}, [], [], 0);
    if ttl > 0 {
      EmitSound(t, st, m, m.sender, ttl);
    }
  }

  lemma WithoutCopies(t: Topology, m: Message, fs: seq<Frame>, i: nat)
    requires i < |fs| && Copies(t, m, fs)
    ensures Copies(t, m, Without(fs, i))
  {
  }

  lemma ArrivedSound(t: Topology, m: Message, st: State, f: Frame)
    requires Closed(t) && Sound(t, m, st) && f.msg == m
    ensures Sound(t, m, Arrived(t, st, f))
  {
    if f.to !in st.seen && f.to in t {
      var marked := st.(seen := st.seen + {f.to});
      assert f.to !in Elems(st.forwarders);
      if f.ttl > 0 {
        EmitSound(t, marked, m, f.to, f.ttl - 1);
      }
    }
  }

  lemma NextSound(t: Topology, m: Message, st: State, step: Step)
    requires Closed(t) && Sound(t, m, st) && step.i < |st.inFlight|
    ensures Sound(t, m, Next(t, st, step))
  {
    WithoutCopies(t, m, st.inFlight, step.i);
    if step.Deliver? {
      ArrivedSound(t, m, st.(inFlight := Without(st.inFlight, step.i)), st.inFlight[step.i]);
    }
  }

  /** In every run, lossy or not, no node forwards twice and only nodes that saw the message forward it. */
  lemma {:induction false} ForwardsAtMostOnce(t: Topology, m: Message, ttl: nat, states: seq<State>, steps: seq<Step>)
    requires Closed(t) && IsRun(t, m, ttl, states, steps)
    ensures Sound(t, m, states[|steps|])
    decreases |steps|
  {
    if steps == [] {
      StartSound(t, m, ttl);
    } else {
      RunPrefix(t, m, ttl, states, steps);
      var n := |steps| - 1;
      ForwardsAtMostOnce(t, m, ttl, states[..n + 1], steps[..n]);
      NextSound(t, m, states[n], steps[n]);
    }
  }

  // ---- Termination and the bound on sends ----

  /** Every delivery or loss lowers the pair (nodes that have not seen it, copies in flight). */
  lemma MeasureDecreases(t: Topology, m: Message, st: State, step: Step)
    requires Closed(t) && Sound(t, m, st) && step.i < |st.inFlight| && !step.Duplicate?
    ensures var r := Next(t, st, step); var before, after := |t.Keys - st.seen|, |t.Keys - r.seen|;
            after < before || (after == before && |r.inFlight| < |st.inFlight|)
  {
    var f := st.inFlight[step.i];
    if step.Deliver? && f.to !in st.seen {
      assert t.Keys - Next(t, st, step).seen == (t.Keys - st.seen) - {f.to};
    }
  }

  lemma Accounting(t: Topology, st: State, step: Step)
    requires step.i < |st.inFlight| && !step.Duplicate?
    ensures var r := Next(t, st, step); r.sent - |r.inFlight| == st.sent - |st.inFlight| + 1
  {
  }

  /** Without retries, every copy ever sent is in flight or was used up by one step. */
  lemma {:induction false} StepsUseUpCopies(t: Topology, m: Message, ttl: nat, states: seq<State>, steps: seq<Step>)
    requires IsRun(t, m, ttl, states, steps) && WithoutRetries(steps)
    ensures |steps| + |states[|steps|].inFlight| == states[|steps|].sent
    decreases |steps|
  {
    if steps != [] {
      RunPrefix(t, m, ttl, states, steps);
      var n := |steps| - 1;
      assert WithoutRetries(steps[..n]);
      StepsUseUpCopies(t, m, ttl, states[..n + 1], steps[..n]);
      Accounting(t, states[n], steps[n]);
    }
  }

  lemma {:induction false} DistinctSize(ns: seq<NodeId>)
    requires Distinct(ns)
    ensures |Elems(ns)| == |ns|
  {
    if ns != [] {
      var n := |ns| - 1;
      DistinctSize(ns[..n]);
      assert Elems(ns) == Elems(ns[..n]) + {ns[n]};
    }
  }

  lemma SubsetSize(a: set<NodeId>, b: set<NodeId>)
    requires a <= b
    ensures |a| <= |b| && (|a| == |b| ==> a == b)
  {
    assert |b - a| == |b| - |a|;
    if |a| == |b| {
      assert b - a == {};
    }
  }

  lemma TotalSnoc(t: Topology, m: Message, ns: seq<NodeId>)
    requires ns != [] && Elems(ns) <= t.Keys
    ensures var n := |ns| - 1;
            ns[n] in t && Elems(ns[..n]) <= t.Keys &&
            Total(t, m, ns) == Total(t, m, ns[..n]) + OutDegree(t, m, ns[n])
  {
    assert ns[|ns| - 1] in Elems(ns);
    assert Elems(ns[..|ns| - 1]) <= Elems(ns);
  }

  lemma OneMore(n: nat, d: int)
    ensures (n + 1) * d == n * d + d
  {
  }

  lemma {:induction false} TotalAtMost(t: Topology, m: Message, ns: seq<NodeId>, degree: nat)
    requires Elems(ns) <= t.Keys
    requires forall n | n in t :: OutDegree(t, m, n) <= degree
    ensures Total(t, m, ns) <= |ns| * degree
  {
    if ns != [] {
      var n := |ns| - 1;
      TotalSnoc(t, m, ns);
      TotalAtMost(t, m, ns[..n], degree);
      OneMore(n, degree);
    }
  }

  lemma TimesMonotone(a: nat, b: nat, d: nat)
    requires a <= b
    ensures a * d <= b * d
  {
  }

  /** Flooding terminates: a run without retries takes at most one step per node and peer. */
  lemma RunsAreBounded(t: Topology, m: Message, ttl: nat, states: seq<State>, steps: seq<Step>, degree: nat)
    requires Closed(t) && IsRun(t, m, ttl, states, steps) && WithoutRetries(steps)
    requires forall n | n in t :: |t[n]| <= degree
    ensures |steps| <= states[|steps|].sent <= |t| * degree
  {
    ForwardsAtMostOnce(t, m, ttl, states, steps);
    StepsUseUpCopies(t, m, ttl, states, steps);
    var ns := states[|steps|].forwarders;
    TotalAtMost(t, m, ns, degree);
    DistinctSize(ns);
    SubsetSize(Elems(ns), t.Keys);
    TimesMonotone(|ns|, |t|, degree);
  }

  // ---- Coverage ----

  /** Some copy is on its way to `p`, or it has seen the message. */
  ghost predicate Served(st: State, p: NodeId) {
    p in st.seen || exists i | 0 <= i < |st.inFlight| :: st.inFlight[i].to == p
  }

  /** Everyone a forwarder sends to is served. */
  ghost predicate Serving(t: Topology, m: Message, st: State) {
    forall n, p | n in st.forwarders && n in t && p in Targets(n, t[n], m.sender) :: Served(st, p)
  }

  /** Each hop a copy has spent is paid for by a node that has seen the message. */
  ghost predicate PaidFor(st: State, ttl: nat) {
    forall i | 0 <= i < |st.inFlight| :: st.inFlight[i].ttl + |st.seen| > ttl
  }

  /** A node that stayed silent was told last, with everyone else already told. */
  ghost predicate SilentOnlyAtTheEnd(t: Topology, st: State) {
    st.seen <= Elems(st.forwarders) || t.Keys <= st.seen
  }

  ghost predicate Covering(t: Topology, m: Message, ttl: nat, st: State) {
    Sound(t, m, st) && Serving(t, m, st) && PaidFor(st, ttl) && SilentOnlyAtTheEnd(t, st)
  }

  lemma OutServes(t: Topology, st: State, m: Message, n: NodeId, ttl: nat, p: NodeId)
    requires n in t && p in Targets(n, t[n], m.sender)
    ensures Served(Emit(t, st, m, n, ttl), p)
  {
    var ts := Targets(n, t[n], m.sender);
    var i :| 0 <= i < |ts| && ts[i] == p;
    assert Emit(t, st, m, n, ttl).inFlight[|st.inFlight| + i] == Frame(p, m, ttl);
  }

  lemma StillServed(st: State, after: State, p: NodeId)
    requires Served(st, p) && st.seen <= after.seen
    requires forall i | 0 <= i < |st.inFlight| :: st.inFlight[i] in after.inFlight || st.inFlight[i].to in after.seen
    ensures Served(after, p)
  {
  }

  lemma EmitServes(t: Topology, st: State, m: Message, n: NodeId, ttl: nat)
    requires n in t && Serving(t, m, st)
    ensures Serving(t, m, Emit(t, st, m, n, ttl))
  {
    var r := Emit(t, st, m, n, ttl);
    forall k, p | k in r.forwarders && k in t && p in Targets(k, t[k], m.sender) ensures Served(r, p) {
      if k == n {
        OutServes(t, st, m, n, ttl, p);
      } else {
        assert k in st.forwarders;
        StillServed(st, r, p);
      }
    }
  }

  /** Removing a copy whose addressee is marked seen leaves everyone served. */
  lemma MarkServes(t: Topology, m: Message, st: State, i: nat)
    requires i < |st.inFlight| && Serving(t, m, st)
    ensures Serving(t, m, st.(inFlight := Without(st.inFlight, i), seen := st.seen + {st.inFlight[i].to}))
  {
    var r := st.(inFlight := Without(st.inFlight, i), seen := st.seen + {st.inFlight[i].to});
    forall j | 0 <= j < |st.inFlight| ensures st.inFlight[j] in r.inFlight || st.inFlight[j].to in r.seen {
      if j < i {
        assert r.inFlight[j] == st.inFlight[j];
      } else if j > i {
        assert r.inFlight[j - 1] == st.inFlight[j];
      }
    }
    forall n, p | n in r.forwarders && n in t && p in Targets(n, t[n], m.sender) ensures Served(r, p) {
      StillServed(st, r, p);
    }
  }

  lemma DeliverServes(t: Topology, m: Message, st: State, i: nat)
    requires i < |st.inFlight| && Serving(t, m, st) && st.inFlight[i].to in t && st.inFlight[i].msg == m
    ensures Serving(t, m, Next(t, st, Deliver(i)))
  {
    var f := st.inFlight[i];
    var marked := st.(inFlight := Without(st.inFlight, i), seen := st.seen + {f.to});
    MarkServes(t, m, st, i);
    if f.to in st.seen {
      assert marked.seen == st.seen;
    } else if f.ttl > 0 {
      EmitServes(t, marked, m, f.to, f.ttl - 1);
    }
  }

  lemma DuplicateServes(t: Topology, m: Message, st: State, i: nat)
    requires i < |st.inFlight| && Serving(t, m, st)
    ensures Serving(t, m, Next(t, st, Duplicate(i)))
  {
    var r := Next(t, st, Duplicate(i));
    forall j | 0 <= j < |st.inFlight| ensures st.inFlight[j] in r.inFlight {
      assert r.inFlight[j] == st.inFlight[j];
    }
    forall n, p | n in r.forwarders && n in t && p in Targets(n, t[n], m.sender) ensures Served(r, p) {
      StillServed(st, r, p);
    }
  }

  lemma DeliverPaid(t: Topology, m: Message, st: State, i: nat, ttl: nat)
    requires i < |st.inFlight| && PaidFor(st, ttl)
    ensures PaidFor(Next(t, st, Deliver(i)), ttl)
  {
  }

  /** With at most `ttl + 2` nodes, a copy that may not be forwarded reaches the last node. */
  lemma DeliverSilent(t: Topology, m: Message, st: State, i: nat, ttl: nat)
    requires Sound(t, m, st) && i < |st.inFlight| && PaidFor(st, ttl) && SilentOnlyAtTheEnd(t, st) && |t| <= ttl + 2
    ensures SilentOnlyAtTheEnd(t, Next(t, st, Deliver(i)))
  {
    var f := st.inFlight[i];
    var r := Next(t, st, Deliver(i));
    if f.to !in st.seen {
      SubsetSize(r.seen, t.Keys);
      if f.ttl > 0 {
        ElemsSnoc(st.forwarders, f.to);
      }
    }
  }

  lemma NextCovers(t: Topology, m: Message, ttl: nat, st: State, step: Step)
    requires Closed(t) && |t| <= ttl + 2 && Covering(t, m, ttl, st) && step.i < |st.inFlight| && !step.Lose?
    ensures Covering(t, m, ttl, Next(t, st, step))
  {
    NextSound(t, m, st, step);
    if step.Deliver? {
      DeliverServes(t, m, st, step.i);
      DeliverPaid(t, m, st, step.i, ttl);
      DeliverSilent(t, m, st, step.i, ttl);
    } else {
      DuplicateServes(t, m, st, step.i);
    }
  }

  lemma StartCovers(t: Topology, m: Message, ttl: nat)
    requires Closed(t) && m.sender in t && ttl >= 1
    ensures Covering(t, m, ttl, Start(t, m, ttl))
  {
    StartSound(t, m, ttl);
    EmitServes(t, State({m.sender}, [], [], 0), m, m.sender, ttl);
    StartForwards(t, m, ttl);
  }

  lemma {:induction false} RunCovers(t: Topology, m: Message, ttl: nat, states: seq<State>, steps: seq<Step>)
    requires Closed(t) && 1 <= ttl && |t| <= ttl + 2 && IsRun(t, m, ttl, states, steps) && Lossless(steps)
    ensures Covering(t, m, ttl, states[|steps|])
    decreases |steps|
  {
    if steps == [] {
      StartCovers(t, m, ttl);
    } else {
      RunPrefix(t, m, ttl, states, steps);
      var n := |steps| - 1;
      assert Lossless(steps[..n]);
      RunCovers(t, m, ttl, states[..n + 1], steps[..n]);
      NextCovers(t, m, ttl, states[n], steps[n]);
    }
  }

  ghost predicate IsPath(t: Topology, path: seq<NodeId>) {
    path != [] && forall i | 0 <= i < |path| - 1 :: Edge(t, path[i], path[i + 1])
  }

  ghost predicate Edge(t: Topology, a: NodeId, b: NodeId) {
    a in t && b in t[a]
  }

  lemma {:induction false} PathIsSeen(t: Topology, m: Message, ttl: nat, st: State, path: seq<NodeId>, i: nat)
    requires Closed(t) && Covering(t, m, ttl, st) && st.inFlight == []
    requires IsPath(t, path) && path[0] == m.sender && i < |path|
    ensures path[i] in st.seen
  {
    if i > 0 {
      PathIsSeen(t, m, ttl, st, path, i - 1);
      var a, b := path[i - 1], path[i];
      assert Edge(t, a, b);
      if st.seen <= Elems(st.forwarders) {
        assert a in Elems(st.forwarders);
        assert b != a && b != m.sender ==> Served(st, b);
      } else {
        var j :| 0 <= j < |t[a]| && t[a][j] == b;
      }
    }
  }

  /**
    Coverage: on any topology of at most `ttl + 2` nodes, once nothing is in
    flight and if nothing was lost, everything reachable from the originator
    has seen the message, however copies were ordered or duplicated.
   */
  lemma FloodCovers(t: Topology, m: Message, ttl: nat, states: seq<State>, steps: seq<Step>, path: seq<NodeId>)
    requires Closed(t) && 1 <= ttl && |t| <= ttl + 2 && IsRun(t, m, ttl, states, steps) && Lossless(steps)
    requires states[|steps|].inFlight == []
    requires IsPath(t, path) && path[0] == m.sender
    ensures path[|path| - 1] in states[|steps|].seen
  {
    RunCovers(t, m, ttl, states, steps);
    PathIsSeen(t, m, ttl, states[|steps|], path, |path| - 1);
  }

  // ---- The hop limit is tight ----

  /** Hop counts from the originator: an edge leads at most one hop further. */
  ghost predicate IsHops(t: Topology, origin: NodeId, hops: map<NodeId, nat>) {
    && origin in t && t.Keys <= hops.Keys && hops[origin] == 0
    && forall a, b | Edge(t, a, b) && b in t :: hops[b] <= hops[a] + 1
  }

  ghost predicate WithinReach(t: Topology, hops: map<NodeId, nat>, st: State, ttl: nat)
    requires t.Keys <= hops.Keys
  {
    && (forall n | n in st.seen && n in t :: hops[n] <= ttl + 1)
    && (forall i | 0 <= i < |st.inFlight| && st.inFlight[i].to in t ::
          hops[st.inFlight[i].to] + st.inFlight[i].ttl <= ttl + 1)
  }

  lemma OutWithinReach(t: Topology, m: Message, hops: map<NodeId, nat>, n: NodeId, left: nat, ttl: nat)
    requires IsHops(t, m.sender, hops) && n in t && hops[n] + left <= ttl
    ensures forall i | 0 <= i < |Out(t, m, n, left)| && Out(t, m, n, left)[i].to in t ::
      hops[Out(t, m, n, left)[i].to] + left <= ttl + 1
  {
    var ts := Targets(n, t[n], m.sender);
    forall i | 0 <= i < |ts| && ts[i] in t ensures hops[ts[i]] <= hops[n] + 1 {
      assert ts[i] in ts;
      assert Edge(t, n, ts[i]);
    }
  }

  lemma NextWithinReach(t: Topology, m: Message, hops: map<NodeId, nat>, st: State, step: Step, ttl: nat)
    requires IsHops(t, m.sender, hops) && Sound(t, m, st) && WithinReach(t, hops, st, ttl) && step.i < |st.inFlight|
    ensures WithinReach(t, hops, Next(t, st, step), ttl)
  {
    var f := st.inFlight[step.i];
    if step.Deliver? && f.ttl > 0 {
      OutWithinReach(t, m, hops, f.to, f.ttl - 1, ttl);
    }
  }

  /** In no run does a node more than `ttl + 1` hops away see the message. */
  lemma {:induction false} Horizon(
      t: Topology, m: Message, hops: map<NodeId, nat>, ttl: nat, states: seq<State>, steps: seq<Step>)
    requires Closed(t) && IsRun(t, m, ttl, states, steps) && IsHops(t, m.sender, hops)
    ensures WithinReach(t, hops, states[|steps|], ttl)
    decreases |steps|
  {
    if steps == [] {
      OutWithinReach(t, m, hops, m.sender, ttl, ttl);
    } else {
      RunPrefix(t, m, ttl, states, steps);
      var n := |steps| - 1;
      Horizon(t, m, hops, ttl, states[..n + 1], steps[..n]);
      ForwardsAtMostOnce(t, m, ttl, states[..n + 1], steps[..n]);
      NextWithinReach(t, m, hops, states[n], steps[n], ttl);
    }
  }

  /** `t` links consecutive nodes of `line`, both ways, and nothing else. */
  ghost predicate IsLine(t: Topology, line: seq<NodeId>) {
    && line != [] && Distinct(line) && t.Keys == Elems(line) && Closed(t)
    && forall i, j | 0 <= i < |line| && 0 <= j < |line| :: Edge(t, line[i], line[j]) <==> i == j + 1 || j == i + 1
  }

  ghost function Position(line: seq<NodeId>, n: NodeId): (i: nat)
    requires n in Elems(line)
    ensures i < |line| && line[i] == n
  {
    var i :| 0 <= i < |line| && line[i] == n; i
  }

  lemma LineHops(t: Topology, line: seq<NodeId>) returns (hops: map<NodeId, nat>)
    requires IsLine(t, line)
    ensures IsHops(t, line[0], hops) && hops[line[|line| - 1]] == |line| - 1
  {
    hops := map n | n in Elems(line) :: Position(line, n);
    assert line[0] in Elems(line) && line[|line| - 1] in Elems(line);
    forall a, b | Edge(t, a, b) && b in t ensures hops[b] <= hops[a] + 1 {
      assert Edge(t, line[hops[a]], line[hops[b]]);
    }
  }

  lemma FirstStepTakesACopy(t: Topology, m: Message, ttl: nat, states: seq<State>, steps: seq<Step>)
    requires IsRun(t, m, ttl, states, steps) && steps != []
    ensures states[0].inFlight != []
  {
    assert Linked(t, states, steps, 0);
  }

  lemma NothingToDo(t: Topology, m: Message, states: seq<State>, steps: seq<Step>)
    requires IsRun(t, m, 0, states, steps)
    ensures states[|steps|].seen == {m.sender}
  {
    if steps != [] {
      FirstStepTakesACopy(t, m, 0, states, steps);
    }
  }

  lemma ShortLineIsCovered(t: Topology, line: seq<NodeId>, m: Message, ttl: nat, states: seq<State>, steps: seq<Step>)
    requires IsLine(t, line) && m.sender == line[0]
    requires IsRun(t, m, ttl, states, steps) && Lossless(steps) && states[|steps|].inFlight == []
    requires 1 <= ttl && |line| <= ttl + 2
    ensures Elems(line) <= states[|steps|].seen
  {
    DistinctSize(line);
    assert |t| == |t.Keys|;
    forall i | 0 <= i < |line| ensures line[i] in states[|steps|].seen {
      var path := line[..i + 1];
      forall j | 0 <= j < |path| - 1 ensures Edge(t, path[j], path[j + 1]) {
        assert Edge(t, line[j], line[j + 1]);
      }
      FloodCovers(t, m, ttl, states, steps, path);
    }
  }

  /** On a line flooded from its end, everyone is covered exactly when the line has at most `ttl + 2` nodes. */
  lemma LineIsCoveredIff(t: Topology, line: seq<NodeId>, m: Message, ttl: nat, states: seq<State>, steps: seq<Step>)
    requires IsLine(t, line) && m.sender == line[0]
    requires IsRun(t, m, ttl, states, steps) && Lossless(steps) && states[|steps|].inFlight == []
    ensures Elems(line) <= states[|steps|].seen <==> |line| == 1 || (1 <= ttl && |line| <= ttl + 2)
  {
    var last := line[|line| - 1];
    assert last in Elems(line);
    ForwardsAtMostOnce(t, m, ttl, states, steps);
    if |line| == 1 {
      assert Elems(line) == {m.sender};
    } else if ttl == 0 {
      NothingToDo(t, m, states, steps);
    } else if |line| <= ttl + 2 {
      ShortLineIsCovered(t, line, m, ttl, states, steps);
    } else {
      var hops := LineHops(t, line);
      Horizon(t, m, hops, ttl, states, steps);
    }
  }

  // ---- The cost of a full mesh ----

  ghost predicate FullMesh(t: Topology) {
    forall n | n in t :: Distinct(t[n]) && Elems(t[n]) == t.Keys - {n}
  }

  lemma {:induction false} TargetsDistinct(self: NodeId, peers: seq<NodeId>, sender: NodeId)
    requires Distinct(peers)
    ensures Distinct(Targets(self, peers, sender))
    ensures Elems(Targets(self, peers, sender)) == Elems(peers) - {self, sender}
  {
    if peers != [] {
      var n := |peers| - 1;
      TargetsDistinct(self, peers[..n], sender);
      assert peers == peers[..n] + [peers[n]];
      ElemsSnoc(peers[..n], peers[n]);
      ElemsSnoc(Targets(self, peers[..n], sender), peers[n]);
      assert peers[n] !in Elems(peers[..n]);
    }
  }

  lemma MeshDegree(t: Topology, m: Message, n: NodeId)
    requires FullMesh(t) && n in t && m.sender in t
    ensures OutDegree(t, m, n) == |t| - 2 + (if n == m.sender then 1 else 0)
  {
    TargetsDistinct(n, t[n], m.sender);
    DistinctSize(Targets(n, t[n], m.sender));
    assert t.Keys - {n} - {n, m.sender} == t.Keys - {n, m.sender};
    if n == m.sender {
      assert t.Keys - {n, m.sender} == t.Keys - {n};
    }
    assert |t.Keys - {n, m.sender}| == |t.Keys| - |{n, m.sender}|;
  }

  lemma {:induction false} MeshTotal(t: Topology, m: Message, ns: seq<NodeId>)
    requires FullMesh(t) && Distinct(ns) && Elems(ns) <= t.Keys && m.sender in t
    ensures Total(t, m, ns) == |ns| * (|t| - 2) + (if m.sender in ns then 1 else 0)
  {
    if ns != [] {
      var n := |ns| - 1;
      TotalSnoc(t, m, ns);
      MeshTotal(t, m, ns[..n]);
      MeshDegree(t, m, ns[n]);
      OneMore(n, |t| - 2);
      assert m.sender in ns <==> m.sender in ns[..n] || m.sender == ns[n] by {
        assert ns == ns[..n] + [ns[n]];
      }
    }
  }

  lemma MeshSum(n: nat, k: nat)
    requires 1 <= n && k <= n
    ensures n * (n - 2) + 1 == (n - 1) * (n - 1) == (n - 1) + (n - 1) * (n - 2)
    ensures n >= 2 ==> k * (n - 2) <= n * (n - 2)
  {
  }

  /** In a full mesh of N nodes a broadcast costs at most (N-1) + (N-1)(N-2) = (N-1)^2 sends, retries excluded. */
  lemma MeshBound(t: Topology, m: Message, ttl: nat, states: seq<State>, steps: seq<Step>)
    requires Closed(t) && FullMesh(t) && IsRun(t, m, ttl, states, steps)
    ensures states[|steps|].sent <= (|t| - 1) * (|t| - 1)
  {
    ForwardsAtMostOnce(t, m, ttl, states, steps);
    var ns := states[|steps|].forwarders;
    MeshTotal(t, m, ns);
    DistinctSize(ns);
    SubsetSize(Elems(ns), t.Keys);
    assert m.sender in t.Keys;
    MeshSum(|t|, |ns|);
  }

  lemma StartForwards(t: Topology, m: Message, ttl: nat)
    requires m.sender in t && 1 <= ttl
    ensures PaidFor(Start(t, m, ttl), ttl) && Start(t, m, ttl).seen <= Elems(Start(t, m, ttl).forwarders)
  {
    var st := State({m.sender}, [], [], 0);
    assert Start(t, m, ttl).forwarders == [m.sender];
  }

  /** With a hop limit of at least N-1, everyone who sees the message forwards it, even if copies are lost. */
  lemma {:induction false} EveryoneForwards(t: Topology, m: Message, ttl: nat, states: seq<State>, steps: seq<Step>)
    requires Closed(t) && 1 <= ttl && |t| <= ttl + 1 && IsRun(t, m, ttl, states, steps)
    ensures PaidFor(states[|steps|], ttl) && states[|steps|].seen <= Elems(states[|steps|].forwarders)
    decreases |steps|
  {
    if steps == [] {
      StartForwards(t, m, ttl);
    } else {
      RunPrefix(t, m, ttl, states, steps);
      var n := |steps| - 1;
      EveryoneForwards(t, m, ttl, states[..n + 1], steps[..n]);
      ForwardsAtMostOnce(t, m, ttl, states[..n + 1], steps[..n]);
      NextForwards(t, m, ttl, states[n], steps[n]);
    }
  }

  lemma NextForwards(t: Topology, m: Message, ttl: nat, st: State, step: Step)
    requires |t| <= ttl + 1 && step.i < |st.inFlight| && Sound(t, m, st)
    requires PaidFor(st, ttl) && st.seen <= Elems(st.forwarders)
    ensures PaidFor(Next(t, st, step), ttl) && Next(t, st, step).seen <= Elems(Next(t, st, step).forwarders)
  {
    if step.Deliver? {
      DeliverPaid(t, m, st, step.i, ttl);
      DeliverForwards(t, m, ttl, st, step.i);
    }
  }

  lemma DeliverForwards(t: Topology, m: Message, ttl: nat, st: State, i: nat)
    requires |t| <= ttl + 1 && i < |st.inFlight| && Sound(t, m, st)
    requires PaidFor(st, ttl) && st.seen <= Elems(st.forwarders)
    ensures Next(t, st, Deliver(i)).seen <= Elems(Next(t, st, Deliver(i)).forwarders)
  {
    var f := st.inFlight[i];
    if f.to !in st.seen {
      SubsetSize(st.seen + {f.to}, t.Keys);
      ElemsSnoc(st.forwarders, f.to);
    }
  }

  lemma MeshIsCovered(t: Topology, m: Message, ttl: nat, states: seq<State>, steps: seq<Step>)
    requires Closed(t) && FullMesh(t) && 1 <= ttl && |t| <= ttl + 2
    requires IsRun(t, m, ttl, states, steps) && Lossless(steps) && states[|steps|].inFlight == []
    ensures states[|steps|].seen == t.Keys
  {
    ForwardsAtMostOnce(t, m, ttl, states, steps);
    forall n | n in t && n != m.sender ensures n in states[|steps|].seen {
      var path := [m.sender, n];
      assert n in Elems(t[m.sender]);
      assert Edge(t, m.sender, n);
      FloodCovers(t, m, ttl, states, steps, path);
    }
  }

  /** And exactly that many when nothing is lost and the hop limit is at least N-1. */
  lemma MeshCost(t: Topology, m: Message, ttl: nat, states: seq<State>, steps: seq<Step>)
    requires Closed(t) && FullMesh(t) && 1 <= ttl && |t| <= ttl + 1
    requires IsRun(t, m, ttl, states, steps) && Lossless(steps) && states[|steps|].inFlight == []
    ensures states[|steps|].sent == (|t| - 1) * (|t| - 1)
  {
    ForwardsAtMostOnce(t, m, ttl, states, steps);
    MeshIsCovered(t, m, ttl, states, steps);
    EveryoneForwards(t, m, ttl, states, steps);
    var ns := states[|steps|].forwarders;
    assert Elems(ns) == t.Keys;
    assert m.sender in Elems(ns);
    DistinctSize(ns);
    MeshTotal(t, m, ns);
    MeshSum(|t|, |ns|);
  }
}
