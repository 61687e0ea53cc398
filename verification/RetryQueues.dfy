/**
  Sending with acknowledgement and retry, and the per-peer queue of messages
  that could not be delivered.

  The state machine follows one peer.  Sends and flushes overlap freely: each
  runs until its next await, so a step is the atomic stretch between two
  awaits.  The class at the end holds the queues of all peers.
 */
module RetryQueues {
  import opened Clocks
  import opened Sequences

  const MAX_RETRIES: nat := 3

  /**
    One peer's queue, the fresh sends in progress, the flushes in progress
    (each with the messages it still holds, the one being sent first), and
    histories: what was prepared, acknowledged, queued by a fresh send, and
    acknowledged to a flush.
   */
  datatype Retry = Retry(
    queue: seq<Message>,
    sends: seq<Message>,
    flushes: seq<seq<Message>>,
    prepared: seq<Message>,
    acked: seq<Message>,
    postponed: seq<Message>,
    flushed: seq<Message>)

  const Idle := Retry([], [], [], [], [], [], [])

  datatype Step =
    | Begin(msg: Message, canPrepare: bool)
    | SendEnds(i: nat, ok: bool)
    | FlushBegins
    | FlushHeadEnds(j: nat, ok: bool)

  ghost predicate Enabled(st: Retry, step: Step) {
    match step
    case Begin(_, _) => true
    case SendEnds(i, _) => i < |st.sends|
    case FlushBegins => true
    case FlushHeadEnds(j, _) => j < |st.flushes|
  }

  /** A running flush always has a message in hand. */
  ghost predicate Busy(st: Retry) {
    forall j | 0 <= j < |st.flushes| :: st.flushes[j] != []
  }

  function Drop<T>(s: seq<T>, i: nat): seq<T>
    requires i < |s|
  {
    s[..i] + s[i + 1..]
  }

  /** A fresh send: dropped when no wire form can be prepared, queued when every attempt fails. */
  function Next(st: Retry, step: Step): (r: Retry)
    requires Busy(st) && Enabled(st, step)
    ensures Busy(r)
  {
    match step
    case Begin(m, canPrepare) =>
      if canPrepare then st.(sends := st.sends + [m], prepared := st.prepared + [m]) else st
    case SendEnds(i, ok) =>
      var m := st.sends[i];
      var r := st.(sends := Drop(st.sends, i));
      if ok then r.(acked := st.acked + [m])
      else r.(queue := st.queue + [m], postponed := st.postponed + [m])
    case FlushBegins =>
      if st.queue == [] then st else st.(queue := [], flushes := st.flushes + [st.queue])
    case FlushHeadEnds(j, ok) =>
      var ms := st.flushes[j];
      if !ok then st.(flushes := Drop(st.flushes, j), queue := ms + st.queue)
      else
        var r := st.(acked := st.acked + [ms[0]], flushed := st.flushed + [ms[0]]);
        if |ms| == 1 then r.(flushes := Drop(st.flushes, j))
        else r.(flushes := st.flushes[j := ms[1..]])
  }

  ghost predicate IsRun(states: seq<Retry>, steps: seq<Step>) {
    && |states| == |steps| + 1 && states[0] == Idle
    && forall k | 0 <= k < |steps| :: Linked(states, steps, k)
  }

  ghost predicate Linked(states: seq<Retry>, steps: seq<Step>, k: nat)
    requires |states| == |steps| + 1 && k < |steps|
  {
    Busy(states[k]) && Enabled(states[k], steps[k]) && states[k + 1] == Next(states[k], steps[k])
  }

  lemma RunPrefix(states: seq<Retry>, steps: seq<Step>)
    requires IsRun(states, steps) && steps != []
    ensures IsRun(states[..|steps|], steps[..|steps| - 1]) && Linked(states, steps, |steps| - 1)
  {
    var front, path := states[..|steps|], steps[..|steps| - 1];
    forall k | 0 <= k < |path| ensures Linked(front, path, k) {
      assert Linked(states, steps, k);
    }
  }

  // ---- Conservation ----

  function Flat(fs: seq<seq<Message>>): seq<Message> {
    if fs == [] then [] else Flat(fs[..|fs| - 1]) + fs[|fs| - 1]
  }

  /** Every prepared message is acknowledged, queued, or held by one running send or flush. */
  ghost predicate Conserved(st: Retry) {
    multiset(st.acked) + multiset(st.queue) + multiset(st.sends) + multiset(Flat(st.flushes)) == multiset(st.prepared)
  }

  lemma FlatSnoc(fs: seq<seq<Message>>, f: seq<Message>)
    ensures Flat(fs + [f]) == Flat(fs) + f
  {
    assert (fs + [f])[..|fs|] == fs;
  }

  lemma DropCounts<T>(s: seq<T>, i: nat)
    requires i < |s|
    ensures multiset(s) == multiset(Drop(s, i)) + multiset{s[i]}
  {
    assert s == s[..i] + [s[i]] + s[i + 1..];
  }

  lemma {:induction false} FlatDrop(fs: seq<seq<Message>>, j: nat)
    requires j < |fs|
    ensures multiset(Flat(fs)) == multiset(Flat(Drop(fs, j))) + multiset(fs[j])
  {
    var front, last := fs[..|fs| - 1], fs[|fs| - 1];
    if j == |front| {
      assert Drop(fs, j) == front;
    } else {
      FlatDrop(front, j);
      assert Drop(fs, j) == Drop(front, j) + [last];
      FlatSnoc(Drop(front, j), last);
      BothGrow(Flat(front), Flat(Drop(front, j)), fs[j], last);
    }
  }

  lemma BothGrow(a: seq<Message>, b: seq<Message>, c: seq<Message>, d: seq<Message>)
    requires multiset(a) == multiset(b) + multiset(c)
    ensures multiset(a + d) == multiset(b + d) + multiset(c)
  {
  }

  lemma FlatUpdate(fs: seq<seq<Message>>, j: nat, f: seq<Message>)
    requires j < |fs|
    ensures multiset(Flat(fs[j := f])) + multiset(fs[j]) == multiset(Flat(fs)) + multiset(f)
  {
    FlatDrop(fs, j);
    FlatDrop(fs[j := f], j);
    assert Drop(fs[j := f], j) == Drop(fs, j);
  }

  lemma HeadCounts(ms: seq<Message>)
    requires ms != []
    ensures multiset(ms) == multiset{ms[0]} + multiset(ms[1..])
  {
    assert ms == [ms[0]] + ms[1..];
  }

  lemma FailedFlushKeeps(st: Retry, j: nat)
    requires Busy(st) && Conserved(st) && Enabled(st, FlushHeadEnds(j, false))
    ensures Conserved(Next(st, FlushHeadEnds(j, false)))
  {
    FlatDrop(st.flushes, j);
  }

  /** One message leaves a flush for the acknowledged. */
  lemma HeadMoves(st: Retry, r: Retry, m: Message)
    requires Conserved(st) && r.queue == st.queue && r.sends == st.sends && r.prepared == st.prepared
    requires r.acked == st.acked + [m] && multiset(Flat(st.flushes)) == multiset(Flat(r.flushes)) + multiset{m}
    ensures Conserved(r)
  {
  }

  lemma FlatWithoutHead(fs: seq<seq<Message>>, j: nat)
    requires j < |fs| && fs[j] != []
    ensures var without := if |fs[j]| == 1 then Drop(fs, j) else fs[j := fs[j][1..]];
            multiset(Flat(fs)) == multiset(Flat(without)) + multiset{fs[j][0]}
  {
    var head, rest := fs[j][0], fs[j][1..];
    HeadCounts(fs[j]);
    if |fs[j]| == 1 {
      FlatDrop(fs, j);
      assert fs[j] == [head];
    } else {
      FlatUpdate(fs, j, rest);
      Cancel(multiset(Flat(fs[j := rest])), multiset(Flat(fs)), multiset(rest), multiset{head});
    }
  }

  lemma Cancel(a: multiset<Message>, b: multiset<Message>, c: multiset<Message>, d: multiset<Message>)
    requires a + (d + c) == b + c
    ensures b == a + d
  {
    forall x ensures b[x] == (a + d)[x] {
      assert (a + (d + c))[x] == (b + c)[x];
    }
  }

  lemma FlushKeeps(st: Retry, j: nat, ok: bool)
    requires Busy(st) && Conserved(st) && Enabled(st, FlushHeadEnds(j, ok))
    ensures Conserved(Next(st, FlushHeadEnds(j, ok)))
  {
    if ok {
      FlatWithoutHead(st.flushes, j);
      HeadMoves(st, Next(st, FlushHeadEnds(j, ok)), st.flushes[j][0]);
    } else {
      FailedFlushKeeps(st, j);
    }
  }

  lemma SendKeeps(st: Retry, i: nat, ok: bool)
    requires Busy(st) && Conserved(st) && Enabled(st, SendEnds(i, ok))
    ensures Conserved(Next(st, SendEnds(i, ok)))
  {
    DropCounts(st.sends, i);
  }

  lemma NextKeeps(st: Retry, step: Step)
    requires Busy(st) && Conserved(st) && Enabled(st, step)
    ensures Conserved(Next(st, step))
  {
    match step
    case Begin(_, _) =>
    case SendEnds(i, ok) => SendKeeps(st, i, ok);
    case FlushBegins => FlatSnoc(st.flushes, st.queue);
    case FlushHeadEnds(j, ok) => FlushKeeps(st, j, ok);
  }

  /** Under any interleaving of sends and flushes no prepared message is lost or multiplied. */
  lemma {:induction false} RetryConserves(states: seq<Retry>, steps: seq<Step>)
    requires IsRun(states, steps)
    ensures Conserved(states[|steps|])
    decreases |steps|
  {
    if steps != [] {
      RunPrefix(states, steps);
      RetryConserves(states[..|steps|], steps[..|steps| - 1]);
      NextKeeps(states[|steps| - 1], steps[|steps| - 1]);
    }
  }

  /** A message prepared once is in exactly one place. */
  lemma ExactlyOnePlace(states: seq<Retry>, steps: seq<Step>, m: Message)
    requires IsRun(states, steps) && multiset(states[|steps|].prepared)[m] == 1
    ensures var st := states[|steps|];
            multiset(st.acked)[m] + multiset(st.queue)[m] + multiset(st.sends)[m] + multiset(Flat(st.flushes))[m] == 1
  {
    RetryConserves(states, steps);
    var st := states[|steps|];
    var all := multiset(st.acked) + multiset(st.queue) + multiset(st.sends) + multiset(Flat(st.flushes));
    assert all[m] == multiset(st.prepared)[m];
  }

  // ---- Order ----

  /** What flushes acknowledged, then what the flushes hold, oldest first, then the queue: the order of queueing. */
  ghost predicate InOrder(st: Retry) {
    st.flushed + Flat(st.flushes) + st.queue == st.postponed
  }

  /** Acknowledgements come from the oldest running flush and failures from the newest. */
  predicate Harmless(st: Retry, step: Step) {
    step.FlushHeadEnds? ==> step.j == if step.ok then 0 else |st.flushes| - 1
  }

  ghost predicate NoRepeats(ms: seq<Message>) {
    forall i, j | 0 <= i < j < |ms| :: ms[i] != ms[j]
  }

  lemma {:induction false} FlatSplit(fs: seq<seq<Message>>, j: nat)
    requires j < |fs|
    ensures Flat(fs) == Flat(fs[..j]) + fs[j] + Flat(fs[j + 1..])
    decreases |fs|
  {
    var n := |fs| - 1;
    if j == n {
      assert Flat(fs[j + 1..]) == [];
    } else {
      var front, last := fs[..n], fs[n];
      FlatSplit(front, j);
      assert front[..j] == fs[..j];
      assert fs[j + 1..] == front[j + 1..] + [last];
      FlatSnoc(front[j + 1..], last);
      Associative(Flat(fs[..j]) + fs[j], Flat(front[j + 1..]), last);
    }
  }

  lemma {:induction false} FlatConcat(a: seq<seq<Message>>, b: seq<seq<Message>>)
    ensures Flat(a + b) == Flat(a) + Flat(b)
  {
    if b == [] {
      assert a + b == a;
    } else {
      var n := |b| - 1;
      FlatConcat(a, b[..n]);
      assert a + b == (a + b[..n]) + [b[n]];
      FlatSnoc(a + b[..n], b[n]);
    }
  }

  lemma BeginningKeepsOrder(st: Retry, step: Step)
    requires Busy(st) && Enabled(st, step) && InOrder(st) && !step.FlushHeadEnds?
    ensures InOrder(Next(st, step))
  {
    match step
    case Begin(_, _) =>
    case SendEnds(i, _) =>
      Associative(st.flushed + Flat(st.flushes), st.queue, [st.sends[i]]);
    case FlushBegins =>
      FlatSnoc(st.flushes, st.queue);
      Associative(st.flushed, Flat(st.flushes), st.queue);
      assert st.flushed + (Flat(st.flushes) + st.queue) + [] == st.flushed + (Flat(st.flushes) + st.queue);
  }

  // A failed flush puts what it holds between the other flushes and the queue.

  lemma FailureMoves(st: Retry, j: nat)
    requires Busy(st) && j < |st.flushes|
    ensures var r := Next(st, FlushHeadEnds(j, false));
            var before, mine, after := Flat(st.flushes[..j]), st.flushes[j], Flat(st.flushes[j + 1..]);
            && Flat(st.flushes) == before + mine + after
            && Flat(r.flushes) == before + after && r.queue == mine + st.queue
            && r.flushed == st.flushed && r.postponed == st.postponed
  {
    FlatSplit(st.flushes, j);
    FlatConcat(st.flushes[..j], st.flushes[j + 1..]);
  }

  lemma {:induction false} FlatIsEmptyIff(fs: seq<seq<Message>>)
    requires forall j | 0 <= j < |fs| :: fs[j] != []
    ensures Flat(fs) == [] <==> fs == []
  {
  }

  /** Two different non-empty stretches cannot change places. */
  lemma SwapShows(a: seq<Message>, b: seq<Message>, c: seq<Message>, d: seq<Message>)
    requires b != [] && NoRepeats(a + b + c + d)
    ensures a + b + c + d == a + c + (b + d) <==> c == []
  {
    var x, y := a + b + c + d, a + c + (b + d);
    if c == [] {
      assert x == y;
    } else {
      assert x[|a|] == b[0] && x[|a| + |b|] == c[0] && y[|a|] == c[0];
    }
  }

  lemma FailureKeepsOrderIff(st: Retry, j: nat)
    requires Busy(st) && InOrder(st) && j < |st.flushes| && NoRepeats(st.postponed)
    ensures InOrder(Next(st, FlushHeadEnds(j, false))) <==> j == |st.flushes| - 1
  {
    FailureMoves(st, j);
    var before, mine, after := Flat(st.flushes[..j]), st.flushes[j], Flat(st.flushes[j + 1..]);
    var front := st.flushed + before;
    assert st.flushed + (before + mine + after) + st.queue == front + mine + after + st.queue;
    assert st.flushed + (before + after) + (mine + st.queue) == front + after + (mine + st.queue);
    SwapShows(front, mine, after, st.queue);
    FlatIsEmptyIff(st.flushes[j + 1..]);
  }

  lemma LastFailureKeepsOrder(st: Retry, j: nat)
    requires Busy(st) && InOrder(st) && j == |st.flushes| - 1
    ensures InOrder(Next(st, FlushHeadEnds(j, false)))
  {
    FailureMoves(st, j);
    var before, mine := Flat(st.flushes[..j]), st.flushes[j];
    assert Flat(st.flushes[j + 1..]) == [];
    assert st.flushed + (before + mine + []) + st.queue == st.flushed + (before + []) + (mine + st.queue);
  }

  // An acknowledged message leaves the head of its flush.

  lemma SuccessMoves(st: Retry, j: nat)
    requires Busy(st) && j < |st.flushes|
    ensures var r := Next(st, FlushHeadEnds(j, true));
            var before, mine, after := Flat(st.flushes[..j]), st.flushes[j], Flat(st.flushes[j + 1..]);
            && Flat(st.flushes) == before + mine + after
            && Flat(r.flushes) == before + mine[1..] + after && r.queue == st.queue
            && r.flushed == st.flushed + [mine[0]] && r.postponed == st.postponed
  {
    var ms := st.flushes[j];
    var r := Next(st, FlushHeadEnds(j, true));
    FlatSplit(st.flushes, j);
    if |ms| == 1 {
      FlatConcat(st.flushes[..j], st.flushes[j + 1..]);
      assert ms[1..] == [];
    } else {
      FlatSplit(r.flushes, j);
      assert r.flushes[..j] == st.flushes[..j] && r.flushes[j + 1..] == st.flushes[j + 1..];
    }
  }

  /** Pulling one message to the front shows unless it was there. */
  lemma PullShows(a: seq<Message>, b: seq<Message>, m: Message, c: seq<Message>)
    requires NoRepeats(a + b + ([m] + c))
    ensures a + b + ([m] + c) == a + [m] + (b + c) <==> b == []
  {
    var x, y := a + b + ([m] + c), a + [m] + (b + c);
    if b == [] {
      assert x == y;
    } else {
      assert x[|a|] == b[0] && x[|a| + |b|] == m && y[|a|] == m;
    }
  }

  lemma SuccessKeepsOrderIff(st: Retry, j: nat)
    requires Busy(st) && InOrder(st) && j < |st.flushes| && NoRepeats(st.postponed)
    ensures InOrder(Next(st, FlushHeadEnds(j, true))) <==> j == 0
  {
    SuccessMoves(st, j);
    var before, mine, after := Flat(st.flushes[..j]), st.flushes[j], Flat(st.flushes[j + 1..]);
    var rest := mine[1..] + after + st.queue;
    Pulled(st.flushed, before, mine, after, st.queue);
    PullShows(st.flushed, before, mine[0], rest);
    FlatIsEmptyIff(st.flushes[..j]);
  }

  lemma Pulled(a: seq<Message>, b: seq<Message>, mine: seq<Message>, c: seq<Message>, q: seq<Message>)
    requires mine != []
    ensures a + (b + mine + c) + q == a + b + ([mine[0]] + (mine[1..] + c + q))
    ensures (a + [mine[0]]) + (b + mine[1..] + c) + q == a + [mine[0]] + (b + (mine[1..] + c + q))
  {
    assert mine == [mine[0]] + mine[1..];
  }

  lemma FirstSuccessKeepsOrder(st: Retry)
    requires Busy(st) && InOrder(st) && st.flushes != []
    ensures InOrder(Next(st, FlushHeadEnds(0, true)))
  {
    SuccessMoves(st, 0);
    var mine, after := st.flushes[0], Flat(st.flushes[1..]);
    assert st.flushes[..0] == [];
    Pulled(st.flushed, [], mine, after, st.queue);
    assert [] + (mine[1..] + after + st.queue) == mine[1..] + after + st.queue;
    assert st.flushed + [] == st.flushed;
    Associative(st.flushed, [mine[0]], mine[1..] + after + st.queue);
  }

  lemma HarmlessKeepsOrder(st: Retry, step: Step)
    requires Busy(st) && Enabled(st, step) && InOrder(st) && Harmless(st, step)
    ensures InOrder(Next(st, step))
  {
    if !step.FlushHeadEnds? {
      BeginningKeepsOrder(st, step);
    } else if step.ok {
      FirstSuccessKeepsOrder(st);
    } else {
      LastFailureKeepsOrder(st, step.j);
    }
  }

  /**
    However many flushes overlap: a step keeps the queueing order if and only
    if it is harmless, an acknowledgement to the oldest flush or a failure of
    the newest.
   */
  lemma StepKeepsOrderIff(st: Retry, step: Step)
    requires Busy(st) && Enabled(st, step) && InOrder(st) && NoRepeats(st.postponed)
    ensures InOrder(Next(st, step)) <==> Harmless(st, step)
  {
    if !step.FlushHeadEnds? {
      BeginningKeepsOrder(st, step);
    } else if step.ok {
      SuccessKeepsOrderIff(st, step.j);
    } else {
      FailureKeepsOrderIff(st, step.j);
    }
  }

  ghost predicate AllHarmless(states: seq<Retry>, steps: seq<Step>)
    requires |states| == |steps| + 1
  {
    forall k | 0 <= k < |steps| :: Harmless(states[k], steps[k])
  }

  ghost predicate AlwaysInOrder(states: seq<Retry>) {
    forall k | 0 <= k < |states| :: InOrder(states[k])
  }

  lemma {:induction false} HarmlessRunIsInOrder(states: seq<Retry>, steps: seq<Step>, k: nat)
    requires IsRun(states, steps) && AllHarmless(states, steps) && k < |states|
    ensures InOrder(states[k])
  {
    if k > 0 {
      HarmlessRunIsInOrder(states, steps, k - 1);
      assert Linked(states, steps, k - 1);
      HarmlessKeepsOrder(states[k - 1], steps[k - 1]);
    }
  }

  lemma {:induction false} PostponedGrows(states: seq<Retry>, steps: seq<Step>, k: nat)
    requires IsRun(states, steps) && k < |states|
    ensures states[k].postponed <= states[|steps|].postponed
    decreases |steps| - k
  {
    if k < |steps| {
      assert Linked(states, steps, k);
      PostponedGrows(states, steps, k + 1);
    }
  }

  lemma OrderedStepIsHarmless(states: seq<Retry>, steps: seq<Step>, k: nat)
    requires IsRun(states, steps) && NoRepeats(states[|steps|].postponed) && k < |steps|
    requires InOrder(states[k]) && InOrder(states[k + 1])
    ensures Harmless(states[k], steps[k])
  {
    assert Linked(states, steps, k);
    PostponedGrows(states, steps, k);
    PrefixHasNoRepeats(states[k].postponed, states[|steps|].postponed);
    StepKeepsOrderIff(states[k], steps[k]);
  }

  lemma PrefixHasNoRepeats(a: seq<Message>, b: seq<Message>)
    requires a <= b && NoRepeats(b)
    ensures NoRepeats(a)
  {
    assert forall i | 0 <= i < |a| :: a[i] == b[i];
  }

  /** Over a whole run of distinct messages: the order is kept throughout if and only if every step is harmless. */
  lemma OrderIsKeptIff(states: seq<Retry>, steps: seq<Step>)
    requires IsRun(states, steps) && NoRepeats(states[|steps|].postponed)
    ensures AlwaysInOrder(states) <==> AllHarmless(states, steps)
  {
    if AllHarmless(states, steps) {
      forall k | 0 <= k < |states| ensures InOrder(states[k]) {
        HarmlessRunIsInOrder(states, steps, k);
      }
    }
    if AlwaysInOrder(states) {
      forall k | 0 <= k < |steps| ensures Harmless(states[k], steps[k]) {
        OrderedStepIsHarmless(states, steps, k);
      }
    }
  }

  /** A flush begins only when none is running. */
  ghost predicate OneFlushAtATime(states: seq<Retry>, steps: seq<Step>)
    requires |states| == |steps| + 1
  {
    forall k | 0 <= k < |steps| && steps[k].FlushBegins? :: states[k].flushes == []
  }

  lemma {:induction false} AtMostOneFlush(states: seq<Retry>, steps: seq<Step>, k: nat)
    requires IsRun(states, steps) && OneFlushAtATime(states, steps) && k < |states|
    ensures |states[k].flushes| <= 1
  {
    if k > 0 {
      AtMostOneFlush(states, steps, k - 1);
      assert Linked(states, steps, k - 1);
    }
  }

  /** With one flush at a time the queue is first in, first out, through failures, requeues and new arrivals. */
  lemma OrderIsPreserved(states: seq<Retry>, steps: seq<Step>)
    requires IsRun(states, steps) && OneFlushAtATime(states, steps)
    ensures AlwaysInOrder(states)
  {
    forall k | 0 <= k < |steps| ensures Harmless(states[k], steps[k]) {
      AtMostOneFlush(states, steps, k);
      assert Linked(states, steps, k);
    }
    forall k | 0 <= k < |states| ensures InOrder(states[k]) {
      HarmlessRunIsInOrder(states, steps, k);
    }
  }

  /** Two flushes that overlap can turn the queue around: the second to fail is put in front. */
  lemma OverlappingFlushesReorder(a: Message, b: Message)
    ensures var s0 := Next(Next(Idle, Begin(a, true)), Begin(b, true));
            var s1 := Next(Next(Next(Next(s0, SendEnds(0, false)), FlushBegins), SendEnds(0, false)), FlushBegins);
            var s2 := Next(Next(s1, FlushHeadEnds(0, false)), FlushHeadEnds(0, false));
            s2.postponed == [a, b] && s2.queue == [b, a]
  {
    var s0 := Next(Next(Idle, Begin(a, true)), Begin(b, true));
    assert s0 == Idle.(sends := [a, b], prepared := [a, b]);
    var s1 := Next(s0, SendEnds(0, false));
    assert s1 == s0.(sends := [b], queue := [a], postponed := [a]);
    var s2 := Next(s1, FlushBegins);
    assert s2 == s1.(queue := [], flushes := [[a]]);
    var s3 := Next(s2, SendEnds(0, false));
    assert s3 == s2.(sends := [], queue := [b], postponed := [a, b]);
    var s4 := Next(s3, FlushBegins);
    assert s4 == s3.(queue := [], flushes := [[a], [b]]);
    var s5 := Next(s4, FlushHeadEnds(0, false));
    assert s5 == s4.(queue := [a], flushes := [[b]]);
  }

  // ---- The queues object ----

  function Queued(qs: map<NodeId, seq<Message>>, peer: NodeId): seq<Message> {
    if peer in qs then qs[peer] else []
  }

  /** What the other tasks make of one peer's queue during the `i`-th await, appending, popping or putting back. */
  type Interference = (nat, seq<Message>) -> seq<Message>

  /** The queue after `n` awaits. */
  function Awaited(others: Interference, q: seq<Message>, n: nat): seq<Message> {
    if n == 0 then q else others(n - 1, Awaited(others, q, n - 1))
  }

  class RetryQueue {
    var queues: map<NodeId, seq<Message>>

    constructor ()
      ensures queues == map[]
    {
      queues := map[];
    }

    method Put(peer: NodeId, ms: seq<Message>)
      modifies this
      ensures Queued(queues, peer) == ms
      ensures forall p | p != peer :: Queued(queues, p) == Queued(old(queues), p)
    {
      queues := queues[peer := ms];
    }

    /**
      Deliver one message to one peer.  `acked(k)` tells whether attempt k is
      acknowledged, and `others` what happens to the queue while it is awaited.
     */
    method SendWithRetry(
        peer: NodeId, m: Message, canPrepare: bool, acked: nat -> bool, queueOnFail: bool, others: Interference)
      returns (ok: bool, ghost attempts: nat)
      modifies this
      ensures ok <==> canPrepare && exists k: nat | k < MAX_RETRIES :: acked(k)
      ensures attempts <= MAX_RETRIES && (attempts == 0 <==> !canPrepare)
      ensures ok ==> acked(attempts - 1) && forall k: nat | k < attempts - 1 :: !acked(k)
      ensures canPrepare && !ok ==> attempts == MAX_RETRIES
      ensures Queued(queues, peer) ==
        Awaited(others, Queued(old(queues), peer), attempts) + (if canPrepare && !ok && queueOnFail then [m] else [])
      ensures forall p | p != peer :: Queued(queues, p) == Queued(old(queues), p)
    {
      attempts := 0;
      if !canPrepare {
        return false, 0;
      }
      var attempt := 0;
      while attempt < MAX_RETRIES
        invariant attempt == attempts <= MAX_RETRIES
        invariant Queued(queues, peer) == Awaited(others, Queued(old(queues), peer), attempt)
        invariant forall p | p != peer :: Queued(queues, p) == Queued(old(queues), p)
        invariant forall k: nat | k < attempt :: !acked(k)
      {
        Put(peer, others(attempt, Queued(queues, peer)));
        attempts := attempts + 1;
        if acked(attempt) {
          return true, attempts;
        }
        attempt := attempt + 1;
      }
      if queueOnFail {
        Put(peer, Queued(queues, peer) + [m]);
      }
      return false, attempts;
    }

    /**
      Try to deliver everything queued for one peer.  `sends(i)` is the outcome
      of the i-th send, and `others` what other sends and flushes do to the
      queue while it is awaited.
     */
    method FlushPeerRetryQueue(peer: NodeId, sends: nat -> bool, others: Interference) returns (flushed: nat)
      modifies this
      ensures var ms := Queued(old(queues), peer);
              && flushed <= |ms|
              && (forall i: nat | i < flushed :: sends(i))
              && (flushed < |ms| ==> !sends(flushed))
              && Queued(queues, peer) ==
                 ms[flushed..] + Awaited(others, [], if flushed < |ms| then flushed + 1 else flushed)
      ensures forall p | p != peer :: Queued(queues, p) == Queued(old(queues), p)
    {
      var ms := Queued(queues, peer);
      queues := queues - {peer};
      flushed := 0;
      while flushed < |ms|
        invariant flushed <= |ms|
        invariant forall i: nat | i < flushed :: sends(i)
        invariant Queued(queues, peer) == Awaited(others, [], flushed)
        invariant forall p | p != peer :: Queued(queues, p) == Queued(old(queues), p)
      {
        Put(peer, others(flushed, Queued(queues, peer)));
        if !sends(flushed) {
          Put(peer, ms[flushed..] + Queued(queues, peer));
          return;
        }
        flushed := flushed + 1;
      }
    }
  }
}
