/**
  The hold-back queue: a timeout flush followed by a cascading fixpoint.

  `Drained` specifies the loop of the queue object.  The lemmas show that, when
  nothing has expired, what it releases does not depend on the order of the
  queue and that no causally legal schedule could release more.
 */
module HoldBack {
  import opened Clocks
  import opened Sequences

  const HOLDBACK_TIMEOUT: Time := 5.0

  datatype Held = Held(at: Time, msg: Message)

  /** What a run over the queue leaves behind. */
  datatype Outcome = Outcome(clock: Clock, released: seq<Message>, held: seq<Held>)

  predicate Expired(h: Held, now: Time, timeout: Time) {
    now - h.at > timeout
  }

  ghost predicate NoneExpired(q: seq<Held>, now: Time, timeout: Time) {
    forall i | 0 <= i < |q| :: !Expired(q[i], now, timeout)
  }

  function Msgs(q: seq<Held>): (ms: seq<Message>)
    ensures |ms| == |q| && forall i | 0 <= i < |q| :: ms[i] == q[i].msg
  {
    seq(|q|, i requires 0 <= i < |q| => q[i].msg)
  }

  function Release(r: Outcome, h: Held): Outcome {
    Outcome(Join(r.clock, h.msg.stamp), r.released + [h.msg], r.held)
  }

  function Keep(r: Outcome, h: Held): Outcome {
    Outcome(r.clock, r.released, r.held + [h])
  }

  /** Deliver everything that waited too long, in queue order. */
  function Flush(c: Clock, q: seq<Held>, now: Time, timeout: Time): (r: Outcome)
    ensures |r.released| + |r.held| == |q|
  {
    if q == [] then Outcome(c, [], [])
    else
      var r := Flush(c, q[..|q| - 1], now, timeout);
      var h := q[|q| - 1];
      if Expired(h, now, timeout) then Release(r, h) else Keep(r, h)
  }

  /** One sweep: deliver each entry that is ready when it is looked at. */
  function Sweep(c: Clock, q: seq<Held>): (r: Outcome)
    ensures |r.released| + |r.held| == |q|
  {
    if q == [] then Outcome(c, [], [])
    else
      var r := Sweep(c, q[..|q| - 1]);
      var h := q[|q| - 1];
      if Ready(r.clock, h.msg) then Release(r, h) else Keep(r, h)
  }

  /** Sweeps until one of them delivers nothing. */
  function Settle(c: Clock, q: seq<Held>): (r: Outcome)
    ensures |r.released| + |r.held| == |q|
    decreases |q|
  {
    var r := Sweep(c, q);
    if r.released == [] then r
    else
      var rest := Settle(r.clock, r.held);
      Outcome(rest.clock, r.released + rest.released, rest.held)
  }

  function Drained(c: Clock, q: seq<Held>, now: Time, timeout: Time): Outcome {
    var f := Flush(c, q, now, timeout);
    var s := Settle(f.clock, f.held);
    Outcome(s.clock, f.released + s.released, s.held)
  }

  // ---- What one drain keeps, expired entries or not ----

  /** Nothing is lost and nothing is duplicated. */
  ghost predicate Conserves(q: seq<Held>, r: Outcome) {
    multiset(r.released) + multiset(Msgs(r.held)) == multiset(Msgs(q))
  }

  lemma MsgsSnoc(q: seq<Held>, h: Held)
    ensures Msgs(q + [h]) == Msgs(q) + [h.msg]
  {
  }

  lemma MsgsLast(q: seq<Held>)
    requires q != []
    ensures Msgs(q) == Msgs(q[..|q| - 1]) + [q[|q| - 1].msg]
  {
  }

  lemma StepConserves(q: seq<Held>, r: Outcome)
    requires q != [] && Conserves(q[..|q| - 1], r)
    ensures Conserves(q, Release(r, q[|q| - 1]))
    ensures Conserves(q, Keep(r, q[|q| - 1]))
  {
    MsgsLast(q);
    MsgsSnoc(r.held, q[|q| - 1]);
  }

  lemma AfterOne(c: Clock, ms: seq<Message>, m: Message)
    ensures After(c, ms + [m]) == Join(After(c, ms), m.stamp)
  {
    assert (ms + [m])[..|ms|] == ms;
  }

  lemma {:induction false} FlushConserves(c: Clock, q: seq<Held>, now: Time, timeout: Time)
    ensures Conserves(q, Flush(c, q, now, timeout))
    ensures Flush(c, q, now, timeout).clock == After(c, Flush(c, q, now, timeout).released)
  {
    if q != [] {
      FlushConserves(c, q[..|q| - 1], now, timeout);
      var r := Flush(c, q[..|q| - 1], now, timeout);
      StepConserves(q, r);
      AfterOne(c, r.released, q[|q| - 1].msg);
    }
  }

  /** The flush releases exactly the entries older than the timeout and keeps exactly the others, in queue order. */
  lemma {:induction false} FlushIsExact(c: Clock, q: seq<Held>, now: Time, timeout: Time)
    ensures var out := Filter(q, (h: Held) => now - h.at > timeout);
            var r := Flush(c, q, now, timeout);
            && r.released == Msgs(out) && r.clock == After(c, Msgs(out))
            && r.held == Filter(q, (h: Held) => !(now - h.at > timeout))
  {
    if q != [] {
      var front, h := q[..|q| - 1], q[|q| - 1];
      FlushIsExact(c, front, now, timeout);
      var out := Filter(front, (h: Held) => now - h.at > timeout);
      MsgsSnoc(out, h);
      AfterOne(c, Msgs(out), h.msg);
    }
  }

  /** Sweeping keeps the remaining entries as they are, arrival times included, in queue order. */
  lemma {:induction false} SweepKeepsOrder(c: Clock, q: seq<Held>)
    ensures Subsequence(Sweep(c, q).held, q)
  {
    if q != [] {
      SweepKeepsOrder(c, q[..|q| - 1]);
      SubsequenceGrows(Sweep(c, q[..|q| - 1]).held, q[..|q| - 1], q[|q| - 1]);
      assert q == q[..|q| - 1] + [q[|q| - 1]];
    }
  }

  /** One sweep delivers in queue order. */
  lemma {:induction false} SweepReleasesInOrder(c: Clock, q: seq<Held>)
    ensures Subsequence(Sweep(c, q).released, Msgs(q))
  {
    if q != [] {
      var front, h := q[..|q| - 1], q[|q| - 1];
      SweepReleasesInOrder(c, front);
      MsgsLast(q);
      SubsequenceGrows(Sweep(c, front).released, Msgs(front), h.msg);
    }
  }

  lemma {:induction false} SettleKeepsOrder(c: Clock, q: seq<Held>)
    ensures Subsequence(Settle(c, q).held, q)
    decreases |q|
  {
    var r := Sweep(c, q);
    SweepKeepsOrder(c, q);
    if r.released != [] {
      SettleKeepsOrder(r.clock, r.held);
      SubsequenceTransitive(Settle(r.clock, r.held).held, r.held, q);
    }
  }

  /** Whatever a drain leaves was in the queue as it is, in that order, and is not older than the timeout. */
  lemma DrainLeavesNoneExpired(c: Clock, q: seq<Held>, now: Time, timeout: Time)
    ensures var held := Drained(c, q, now, timeout).held;
            Subsequence(held, q) && forall i | 0 <= i < |held| :: now - held[i].at <= timeout
  {
    var f := Flush(c, q, now, timeout);
    var held := Drained(c, q, now, timeout).held;
    var young := (h: Held) => !(now - h.at > timeout);
    FlushIsExact(c, q, now, timeout);
    SettleKeepsOrder(f.clock, f.held);
    forall i | 0 <= i < |held| ensures now - held[i].at <= timeout {
      SubsequenceMembers(held, f.held, held[i]);
      FilterIsExact(q, young, held[i]);
    }
    FilterIsExact(q, young, Held(now, Message("", "", map[], now, Chat(""))));
    SubsequenceTransitive(held, f.held, q);
  }

  lemma {:induction false} FlushNothing(c: Clock, q: seq<Held>, now: Time, timeout: Time)
    requires NoneExpired(q, now, timeout)
    ensures Flush(c, q, now, timeout) == Outcome(c, [], q)
  {
    if q != [] {
      FlushNothing(c, q[..|q| - 1], now, timeout);
      assert q == q[..|q| - 1] + [q[|q| - 1]];
    }
  }

  /** A sweep delivers a legal sequence. */
  lemma {:induction false} SweepLegal(c: Clock, q: seq<Held>)
    ensures var r := Sweep(c, q);
            Conserves(q, r) && Legal(c, r.released) && r.clock == After(c, r.released)
  {
    if q != [] {
      SweepLegal(c, q[..|q| - 1]);
      var r := Sweep(c, q[..|q| - 1]);
      var m := q[|q| - 1].msg;
      StepConserves(q, r);
      if Ready(r.clock, m) {
        assert Legal(r.clock, [m]) by { assert [m][..0] == []; assert ReadyAt(r.clock, [m], 0); }
        LegalConcat(c, r.released, [m]);
        assert [m][..0] == [];
      }
    }
  }

  /** A sweep that delivers nothing saw every entry unready. */
  lemma {:induction false} IdleSweep(c: Clock, q: seq<Held>)
    requires Sweep(c, q).released == []
    ensures Sweep(c, q) == Outcome(c, [], q)
    ensures forall i | 0 <= i < |q| :: !Ready(c, q[i].msg)
  {
    if q != [] {
      var r := Sweep(c, q[..|q| - 1]);
      assert r.released == [] by {
        assert r.released <= Sweep(c, q).released;
      }
      IdleSweep(c, q[..|q| - 1]);
      assert q == q[..|q| - 1] + [q[|q| - 1]];
    }
  }

  ghost predicate NoneReady(c: Clock, q: seq<Held>) {
    forall i | 0 <= i < |q| :: !Ready(c, q[i].msg)
  }

  /** A legal way to deliver part of the queue after which nothing more is deliverable. */
  ghost predicate Fixpoint(c: Clock, q: seq<Held>, r: Outcome) {
    Conserves(q, r) && Legal(c, r.released) && r.clock == After(c, r.released) && NoneReady(r.clock, r.held)
  }

  /** The fixpoint delivers a legal sequence and leaves nothing deliverable. */
  lemma {:induction false} SettleLegal(c: Clock, q: seq<Held>)
    ensures Fixpoint(c, q, Settle(c, q))
    decreases |q|
  {
    var r := Sweep(c, q);
    SweepLegal(c, q);
    if r.released == [] {
      IdleSweep(c, q);
    } else {
      SettleLegal(r.clock, r.held);
      LegalConcat(c, r.released, Settle(r.clock, r.held).released);
    }
  }

  /** For every queue, clock and time: conservation, the final clock, and nothing ready is left behind. */
  lemma DrainConserves(c: Clock, q: seq<Held>, now: Time, timeout: Time)
    ensures var r := Drained(c, q, now, timeout);
            Conserves(q, r) && r.clock == After(c, r.released) && NoneReady(r.clock, r.held)
  {
    var f := Flush(c, q, now, timeout);
    FlushConserves(c, q, now, timeout);
    SettleLegal(f.clock, f.held);
    AfterConcat(c, f.released, Settle(f.clock, f.held).released);
  }

  /** Without an expired entry the drain is the fixpoint alone, so it is causally legal. */
  lemma DrainLegal(c: Clock, q: seq<Held>, now: Time, timeout: Time)
    requires NoneExpired(q, now, timeout)
    ensures var r := Drained(c, q, now, timeout);
            r == Settle(c, q) && Fixpoint(c, q, r)
  {
    FlushNothing(c, q, now, timeout);
    SettleLegal(c, q);
    var s := Settle(c, q);
    assert [] + s.released == s.released;
  }

  // ---- Confluence and maximality ----

  /** Sender and number identify the stamped messages waiting in the queue. */
  ghost predicate DistinctStamps(ms: seq<Message>) {
    forall i, j | 0 <= i < j < |ms| && ms[i].Stamped() && ms[j].Stamped() ::
      ms[i].sender != ms[j].sender || ms[i].Seq() != ms[j].Seq()
  }

  lemma InOutcome(q: seq<Held>, r: Outcome, m: Message)
    requires Conserves(q, r)
    ensures m in Msgs(q) <==> m in r.released || m in Msgs(r.held)
  {
    assert m in Msgs(q) <==> m in multiset(Msgs(q));
    assert m in Msgs(r.held) <==> m in multiset(Msgs(r.held));
    assert m in r.released <==> m in multiset(r.released);
  }

  lemma ReleasesNext(c: Clock, q: seq<Held>, r: Outcome, ms: seq<Message>, n: nat)
    requires Fixpoint(c, q, r) && DistinctStamps(Msgs(q)) && n < |ms|
    requires Legal(c, ms) && ms[n] in Msgs(q) && Leq(After(c, ms[..n]), r.clock)
    ensures ms[n] in r.released && Leq(After(c, ms[..n + 1]), r.clock)
  {
    DeliveriesGrow(c, ms[..n]);
    assert ReadyAt(c, ms, n);
    SchedulableIsReleased(c, q, r, After(c, ms[..n]), ms[n]);
    AfterSnoc(c, ms, n);
  }

  lemma {:induction false} ScheduleIsPassed(c: Clock, q: seq<Held>, r: Outcome, ms: seq<Message>, n: nat)
    requires Fixpoint(c, q, r) && DistinctStamps(Msgs(q)) && n <= |ms|
    requires Legal(c, ms) && forall i | 0 <= i < |ms| :: ms[i] in Msgs(q)
    ensures Leq(After(c, ms[..n]), r.clock)
  {
    if n == 0 {
      DeliveriesGrow(c, r.released);
    } else {
      ScheduleIsPassed(c, q, r, ms, n - 1);
      ReleasesNext(c, q, r, ms, n - 1);
    }
  }

  /** Whatever a legal schedule `ms` drawn from the queue delivers, a fixpoint delivers too. */
  lemma ReleasesEverySchedule(c: Clock, q: seq<Held>, r: Outcome, ms: seq<Message>)
    requires Fixpoint(c, q, r) && DistinctStamps(Msgs(q))
    requires Legal(c, ms) && forall i | 0 <= i < |ms| :: ms[i] in Msgs(q)
    ensures forall i | 0 <= i < |ms| :: ms[i] in r.released
    ensures Leq(After(c, ms), r.clock)
  {
    forall i | 0 <= i < |ms| ensures ms[i] in r.released {
      ScheduleIsPassed(c, q, r, ms, i);
      ReleasesNext(c, q, r, ms, i);
    }
    ScheduleIsPassed(c, q, r, ms, |ms|);
    assert ms[..|ms|] == ms;
  }

  /** A message that is ready at a clock the fixpoint has passed is among the released ones. */
  lemma SchedulableIsReleased(c: Clock, q: seq<Held>, r: Outcome, d: Clock, m: Message)
    requires Fixpoint(c, q, r) && DistinctStamps(Msgs(q)) && m in Msgs(q)
    requires Leq(c, d) && Leq(d, r.clock) && Ready(d, m)
    ensures m in r.released && Leq(Join(d, m.stamp), r.clock)
  {
    InOutcome(q, r, m);
    if Ready(r.clock, m) {
      assert m !in Msgs(r.held);
    } else {
      assert At(c, m.sender) <= At(d, m.sender) <= At(r.clock, m.sender);
      assert forall k | k in m.stamp && k != m.sender :: m.stamp[k] <= At(d, k) <= At(r.clock, k);
      var i := LegalHitsEveryNumber(c, r.released, m.sender, m.Seq());
      TwinsAreEqual(q, r, r.released[i], m);
    }
    ReleasedIsCovered(c, r.released, m);
    forall k ensures At(Join(d, m.stamp), k) <= At(r.clock, k) {
      AtJoin(d, m.stamp, k);
    }
  }

  lemma ReleasedIsCovered(c: Clock, ms: seq<Message>, m: Message)
    requires m in ms
    ensures Leq(m.stamp, After(c, ms))
  {
    var i :| 0 <= i < |ms| && ms[i] == m;
    AfterCovers(c, ms, i, |ms|);
    assert ms[..|ms|] == ms;
  }

  lemma TwinsAreEqual(q: seq<Held>, r: Outcome, a: Message, b: Message)
    requires Conserves(q, r) && DistinctStamps(Msgs(q))
    requires a in Msgs(q) || a in r.released || a in Msgs(r.held)
    requires b in Msgs(q) || b in r.released || b in Msgs(r.held)
    requires a.Stamped() && b.Stamped() && a.sender == b.sender && a.Seq() == b.Seq()
    ensures a == b
  {
    InOutcome(q, r, a);
    InOutcome(q, r, b);
    var ms := Msgs(q);
    var i :| 0 <= i < |ms| && ms[i] == a;
    var j :| 0 <= j < |ms| && ms[j] == b;
    assert i == j || a == b;
  }

  /**
    Maximality: a legal schedule of queued messages delivers a subset of what
    the drain delivers, and reaches at most the clock the drain reaches.
   */
  lemma DrainIsMaximal(c: Clock, q: seq<Held>, now: Time, timeout: Time, ms: seq<Message>)
    requires NoneExpired(q, now, timeout) && DistinctStamps(Msgs(q))
    requires Legal(c, ms) && forall i | 0 <= i < |ms| :: ms[i] in Msgs(q)
    ensures var r := Drained(c, q, now, timeout);
            (forall i | 0 <= i < |ms| :: ms[i] in r.released) && Leq(After(c, ms), r.clock)
  {
    DrainLegal(c, q, now, timeout);
    ReleasesEverySchedule(c, q, Settle(c, q), ms);
  }

  /** Releasing is all or nothing for each queued message value. */
  lemma ReleasedMultiplicity(c: Clock, q: seq<Held>, r: Outcome, m: Message)
    requires Fixpoint(c, q, r) && DistinctStamps(Msgs(q))
    ensures multiset(r.released)[m] == if m in r.released then multiset(Msgs(q))[m] else 0
  {
    assert multiset(r.released)[m] + multiset(Msgs(r.held))[m] == multiset(Msgs(q))[m];
    if m.Stamped() {
      StampedOnce(Msgs(q), m);
    } else {
      assert forall i | 0 <= i < |r.held| :: Msgs(r.held)[i] != m;
      assert m !in Msgs(r.held);
    }
    assert m in r.released <==> multiset(r.released)[m] > 0;
  }

  lemma {:induction false} StampedOnce(ms: seq<Message>, m: Message)
    requires DistinctStamps(ms) && m.Stamped()
    ensures multiset(ms)[m] <= 1
  {
    if ms != [] {
      var n := |ms| - 1;
      assert ms == ms[..n] + [ms[n]];
      StampedOnce(ms[..n], m);
      if ms[n] == m {
        assert forall i | 0 <= i < n :: ms[..n][i] != m;
        assert m !in ms[..n];
      }
    }
  }

  /**
    Confluence: two orderings of the same queue release the same messages,
    leave the same messages waiting and reach the same clock.
   */
  lemma DrainIsConfluent(c: Clock, p: seq<Held>, q: seq<Held>, now: Time, timeout: Time)
    requires multiset(Msgs(p)) == multiset(Msgs(q)) && DistinctStamps(Msgs(p)) && DistinctStamps(Msgs(q))
    requires NoneExpired(p, now, timeout) && NoneExpired(q, now, timeout)
    ensures var a, b := Drained(c, p, now, timeout), Drained(c, q, now, timeout);
            multiset(a.released) == multiset(b.released) &&
            multiset(Msgs(a.held)) == multiset(Msgs(b.held)) &&
            Leq(a.clock, b.clock) && Leq(b.clock, a.clock)
  {
    DrainLegal(c, p, now, timeout);
    DrainLegal(c, q, now, timeout);
    var a, b := Settle(c, p), Settle(c, q);
    SameMessages(p, q);
    FixpointsAgree(c, p, a, q, b);
    FixpointsAgree(c, q, b, p, a);
    forall m ensures multiset(a.released)[m] == multiset(b.released)[m] {
      ReleasedMultiplicity(c, p, a, m);
      ReleasedMultiplicity(c, q, b, m);
    }
    assert multiset(a.released) == multiset(b.released);
    assert multiset(Msgs(a.held)) == multiset(Msgs(p)) - multiset(a.released);
    assert multiset(Msgs(b.held)) == multiset(Msgs(q)) - multiset(b.released);
  }

  /** What one fixpoint of the queue releases, every other one releases. */
  lemma FixpointsAgree(c: Clock, p: seq<Held>, a: Outcome, q: seq<Held>, b: Outcome)
    requires Fixpoint(c, p, a) && Fixpoint(c, q, b) && DistinctStamps(Msgs(q))
    requires forall m :: m in Msgs(p) <==> m in Msgs(q)
    ensures forall m :: m in a.released ==> m in b.released
    ensures Leq(a.clock, b.clock)
  {
    forall i | 0 <= i < |a.released| ensures a.released[i] in Msgs(q) {
      InOutcome(p, a, a.released[i]);
    }
    ReleasesEverySchedule(c, q, b, a.released);
  }

  lemma SameMessages(p: seq<Held>, q: seq<Held>)
    requires multiset(Msgs(p)) == multiset(Msgs(q))
    ensures forall m :: m in Msgs(p) <==> m in Msgs(q)
  {
    forall m ensures m in Msgs(p) <==> m in Msgs(q) {
      assert m in Msgs(p) <==> m in multiset(Msgs(p));
      assert m in Msgs(q) <==> m in multiset(Msgs(q));
    }
  }

  // ---- The queue object ----

  /** A drain that has delivered `before` goes on by one sweep. */
  lemma SettleUnfolds(c: Clock, q: seq<Held>, before: seq<Message>)
    ensures var r := Sweep(c, q); var s := Settle(c, q);
            if r.released == [] then s == r
            else
              var rest := Settle(r.clock, r.held);
              s.clock == rest.clock && s.held == rest.held &&
              before + s.released == before + r.released + rest.released
  {
    var r := Sweep(c, q);
    if r.released != [] {
      Associative(before, r.released, Settle(r.clock, r.held).released);
    }
  }

  class HoldBackQueue {
    var queue: seq<Held>
    const timeout: Time

    constructor (timeout: Time)
      ensures queue == [] && this.timeout == timeout
    {
      queue := [];
      this.timeout := timeout;
    }

    method Add(m: Message, now: Time)
      modifies this
      ensures queue == old(queue) + [Held(now, m)]
    {
      queue := queue + [Held(now, m)];
    }

    method FlushExpired(vc: VectorClock, now: Time) returns (delivered: seq<Message>)
      modifies this, vc
      ensures Outcome(vc.clock, delivered, queue) == Flush(old(vc.clock), old(queue), now, timeout)
    {
      delivered := [];
      var waiting: seq<Held> := [];
      for i := 0 to |queue|
        invariant queue == old(queue)
        invariant Outcome(vc.clock, delivered, waiting) == Flush(old(vc.clock), queue[..i], now, timeout)
      {
        var h := queue[i];
        assert queue[..i + 1][..i] == queue[..i];
        if now - h.at > timeout {
          vc.Merge(h.msg.stamp);
          delivered := delivered + [h.msg];
        } else {
          waiting := waiting + [h];
        }
      }
      assert queue[..|queue|] == queue;
      queue := waiting;
    }

    method SweepOnce(vc: VectorClock) returns (delivered: seq<Message>)
      modifies this, vc
      ensures Outcome(vc.clock, delivered, queue) == Sweep(old(vc.clock), old(queue))
    {
      delivered := [];
      var remaining: seq<Held> := [];
      for i := 0 to |queue|
        invariant queue == old(queue)
        invariant Outcome(vc.clock, delivered, remaining) == Sweep(old(vc.clock), queue[..i])
      {
        var h := queue[i];
        assert queue[..i + 1][..i] == queue[..i];
        var ready := vc.IsReady(h.msg);
        if ready {
          vc.Merge(h.msg.stamp);
          delivered := delivered + [h.msg];
        } else {
          remaining := remaining + [h];
        }
      }
      assert queue[..|queue|] == queue;
      queue := remaining;
    }

    /** Flush what expired, then sweep until a sweep changes nothing. */
    method Drain(vc: VectorClock, now: Time) returns (delivered: seq<Message>)
      modifies this, vc
      ensures Outcome(vc.clock, delivered, queue) == Drained(old(vc.clock), old(queue), now, timeout)
    {
      ghost var goal := Drained(vc.clock, queue, now, timeout);
      delivered := FlushExpired(vc, now);
      var changed := true;
      while changed
        invariant changed ==>
          var s := Settle(vc.clock, queue);
          goal == Outcome(s.clock, delivered + s.released, s.held)
        invariant !changed ==> goal == Outcome(vc.clock, delivered, queue)
        decreases changed, |queue|
      {
        SettleUnfolds(vc.clock, queue, delivered);
        var swept := SweepOnce(vc);
        delivered := delivered + swept;
        changed := swept != [];
      }
    }
  }
}
