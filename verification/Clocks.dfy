/**
  Vector clocks and the messages they stamp.

  A clock is a finite map read with default 0.  Merging is the component-wise
  maximum, and a stamped message is ready when it is the next one owed by its
  sender and everything else it mentions has already been counted.
 */
module Clocks {
  type NodeId = string
  type MsgId = string
  type Time = real
  type Clock = map<NodeId, nat>

  /** What the recovery layer distinguishes about a payload. */
  datatype Content =
    | Chat(text: string)
    | RecoverRequest(cursor: Clock)
    | HistoryChunk(items: seq<Item>, isLast: bool)

  /** An element of a received batch; anything that is not a message is skipped. */
  datatype Item = Valid(msg: Message) | Invalid

  datatype Message = Message(id: MsgId, sender: NodeId, stamp: Clock, timestamp: Time, content: Content)
  {
    /** A message sent directly to one peer carries no stamp. */
    predicate Stamped() { stamp != map[] }

    /** The message's number in its own sender's sequence. */
    function Seq(): nat { At(stamp, sender) }
  }

  function At(c: Clock, k: NodeId): nat {
    if k in c then c[k] else 0
  }

  function Max(a: nat, b: nat): nat {
    if a < b then b else a
  }

  /** The component-wise maximum. */
  function Join(c: Clock, d: Clock): Clock {
    map k | k in c.Keys + d.Keys :: Max(At(c, k), At(d, k))
  }

  function Bump(c: Clock, n: NodeId): Clock {
    c[n := At(c, n) + 1]
  }

  ghost predicate Leq(c: Clock, d: Clock) {
    forall k :: At(c, k) <= At(d, k)
  }

  /** The delivery test. */
  predicate Ready(c: Clock, m: Message) {
    !m.Stamped() ||
    (m.Seq() == At(c, m.sender) + 1 &&
     forall k | k in m.stamp && k != m.sender :: m.stamp[k] <= At(c, k))
  }

  /** The clock after delivering `ms` in order. */
  function After(c: Clock, ms: seq<Message>): Clock {
    if ms == [] then c else Join(After(c, ms[..|ms| - 1]), ms[|ms| - 1].stamp)
  }

  /** Every message of `ms` is ready at the clock reached by the ones before it. */
  ghost predicate Legal(c: Clock, ms: seq<Message>) {
    forall i | 0 <= i < |ms| :: ReadyAt(c, ms, i)
  }

  ghost predicate ReadyAt(c: Clock, ms: seq<Message>, i: nat)
    requires i < |ms|
  {
    Ready(After(c, ms[..i]), ms[i])
  }

  lemma AtJoin(c: Clock, d: Clock, k: NodeId)
    ensures At(Join(c, d), k) == Max(At(c, k), At(d, k))
  {
  }

  /** Merging a ready stamp raises exactly the sender's entry, and by one. */
  lemma ReadyRaisesSenderByOne(c: Clock, m: Message, k: NodeId)
    requires Ready(c, m)
    ensures At(Join(c, m.stamp), k) == At(c, k) + (if m.Stamped() && k == m.sender then 1 else 0)
  {
  }

  lemma {:induction false} AfterConcat(c: Clock, a: seq<Message>, b: seq<Message>)
    ensures After(c, a + b) == After(After(c, a), b)
  {
    if b == [] {
      assert a + b == a;
    } else {
      var n := |b| - 1;
      assert (a + b)[..|a + b| - 1] == a + b[..n];
      AfterConcat(c, a, b[..n]);
    }
  }

  lemma LegalConcatAt(c: Clock, a: seq<Message>, b: seq<Message>, i: nat)
    requires Legal(c, a) && Legal(After(c, a), b) && i < |a + b|
    ensures ReadyAt(c, a + b, i)
  {
    if i < |a| {
      assert ReadyAt(c, a, i);
      assert (a + b)[..i] == a[..i];
    } else {
      var j := i - |a|;
      assert (a + b)[..i] == a + b[..j];
      AfterConcat(c, a, b[..j]);
      assert ReadyAt(After(c, a), b, j);
    }
  }

  lemma LegalConcat(c: Clock, a: seq<Message>, b: seq<Message>)
    requires Legal(c, a) && Legal(After(c, a), b)
    ensures Legal(c, a + b) && After(c, a + b) == After(After(c, a), b)
  {
    AfterConcat(c, a, b);
    forall i | 0 <= i < |a + b| ensures ReadyAt(c, a + b, i) {
      LegalConcatAt(c, a, b, i);
    }
  }

  lemma LegalPrefix(c: Clock, ms: seq<Message>, n: nat)
    requires Legal(c, ms) && n <= |ms|
    ensures Legal(c, ms[..n])
  {
    forall i | 0 <= i < n ensures ReadyAt(c, ms[..n], i) {
      assert ReadyAt(c, ms, i);
      assert ms[..n][..i] == ms[..i];
    }
  }

  lemma AfterSnoc(c: Clock, ms: seq<Message>, i: nat)
    requires i < |ms|
    ensures After(c, ms[..i + 1]) == Join(After(c, ms[..i]), ms[i].stamp)
  {
    assert ms[..i + 1][..i] == ms[..i];
  }

  lemma JoinGrows(c: Clock, d: Clock)
    ensures Leq(c, Join(c, d))
  {
    forall k ensures At(c, k) <= At(Join(c, d), k) {
      AtJoin(c, d, k);
    }
  }

  lemma LeqTransitive(a: Clock, b: Clock, c: Clock)
    requires Leq(a, b) && Leq(b, c)
    ensures Leq(a, c)
  {
    forall k ensures At(a, k) <= At(c, k) {
      assert At(a, k) <= At(b, k);
    }
  }

  lemma {:induction false} DeliveriesGrow(c: Clock, ms: seq<Message>)
    ensures Leq(c, After(c, ms))
  {
    if ms != [] {
      var n := |ms| - 1;
      DeliveriesGrow(c, ms[..n]);
      JoinGrows(After(c, ms[..n]), ms[n].stamp);
      LeqTransitive(c, After(c, ms[..n]), After(c, ms));
    }
  }

  /** Clocks only grow along a delivery sequence. */
  lemma AfterGrows(c: Clock, ms: seq<Message>, i: nat, j: nat)
    requires i <= j <= |ms|
    ensures Leq(After(c, ms[..i]), After(c, ms[..j]))
  {
    assert ms[..j] == ms[..i] + ms[i..j];
    AfterConcat(c, ms[..i], ms[i..j]);
    DeliveriesGrow(After(c, ms[..i]), ms[i..j]);
  }

  /** The clock covers every stamp that was delivered. */
  lemma AfterCovers(c: Clock, ms: seq<Message>, i: nat, n: nat)
    requires i < n <= |ms|
    ensures Leq(ms[i].stamp, After(c, ms[..n]))
  {
    AfterSnoc(c, ms, i);
    AfterGrows(c, ms, i + 1, n);
  }

  /** In a legal sequence a sender's entry passes through every number in between, one message each. */
  lemma {:induction false} LegalHitsEveryNumber(c: Clock, ms: seq<Message>, s: NodeId, v: nat) returns (i: nat)
    requires Legal(c, ms)
    requires At(c, s) < v <= At(After(c, ms), s)
    ensures i < |ms| && ms[i].Stamped() && ms[i].sender == s && ms[i].Seq() == v
    decreases |ms|
  {
    var n := |ms| - 1;
    LegalPrefix(c, ms, n);
    assert ms[..|ms|] == ms;
    if v <= At(After(c, ms[..n]), s) {
      i := LegalHitsEveryNumber(c, ms[..n], s, v);
    } else {
      assert ReadyAt(c, ms, n);
      ReadyRaisesSenderByOne(After(c, ms[..n]), ms[n], s);
      i := n;
    }
  }

  /** A stamped message of a legal sequence carries the number its sender's entry had reached, plus one. */
  lemma LegalSeqBounds(c: Clock, ms: seq<Message>, i: nat, n: nat)
    requires Legal(c, ms) && i < n <= |ms| && ms[i].Stamped()
    ensures At(c, ms[i].sender) < ms[i].Seq() <= At(After(c, ms[..n]), ms[i].sender)
  {
    AfterGrows(c, ms, 0, i);
    AfterCovers(c, ms, i, n);
    assert ReadyAt(c, ms, i);
    assert At(After(c, ms[..0]), ms[i].sender) <= At(After(c, ms[..i]), ms[i].sender);
  }

  /** In a legal sequence, sender and number identify a stamped message. */
  lemma LegalNumbersUnique(c: Clock, ms: seq<Message>, i: nat, j: nat)
    requires Legal(c, ms) && i < |ms| && j < |ms|
    requires ms[i].Stamped() && ms[j].Stamped()
    requires ms[i].sender == ms[j].sender && ms[i].Seq() == ms[j].Seq()
    ensures i == j
  {
    assert ReadyAt(c, ms, i) && ReadyAt(c, ms, j);
    if i < j {
      LegalSeqBounds(c, ms, i, j);
    } else if j < i {
      LegalSeqBounds(c, ms, j, i);
    }
  }

  /** How many stamped messages of `ms` come from `s`. */
  function CountFrom(ms: seq<Message>, s: NodeId): nat {
    if ms == [] then 0
    else CountFrom(ms[..|ms| - 1], s) +
         (if ms[|ms| - 1].Stamped() && ms[|ms| - 1].sender == s then 1 else 0)
  }

  /** Along a legal sequence the clock counts the messages of each sender. */
  lemma {:induction false} ClockCounts(c: Clock, ms: seq<Message>, s: NodeId)
    requires Legal(c, ms)
    ensures At(After(c, ms), s) == At(c, s) + CountFrom(ms, s)
  {
    if ms != [] {
      var n := |ms| - 1;
      LegalPrefix(c, ms, n);
      ClockCounts(c, ms[..n], s);
      assert ReadyAt(c, ms, n);
      ReadyRaisesSenderByOne(After(c, ms[..n]), ms[n], s);
    }
  }

  /** Merging entry by entry: one more key of `d` has been taken in. */
  lemma JoinOneMore(c: Clock, d: Clock, todo: set<NodeId>, k: NodeId)
    requires k in todo && k in d
    ensures Join(c, d - (todo - {k})) == Join(c, d - todo)[k := Max(At(Join(c, d - todo), k), d[k])]
  {
  }

  /** The clock object a node owns. */
  class VectorClock {
    var clock: Clock

    constructor ()
      ensures clock == map[]
    {
      clock := map[];
    }

    method Increment(node: NodeId)
      modifies this
      ensures clock == Bump(old(clock), node)
    {
      clock := clock[node := At(clock, node) + 1];
    }

    method Merge(other: Clock)
      modifies this
      ensures clock == Join(old(clock), other)
    {
      assert clock == Join(clock, other - other.Keys);
      var todo := other.Keys;
      while todo != {}
        invariant todo <= other.Keys
        invariant clock == Join(old(clock), other - todo)
        decreases |todo|
      {
        var node :| node in todo;
        JoinOneMore(old(clock), other, todo, node);
        clock := clock[node := Max(At(clock, node), other[node])];
        todo := todo - {node};
      }
      assert other - {} == other;
    }

    method IsReady(m: Message) returns (ready: bool)
      ensures ready == Ready(clock, m)
    {
      if m.stamp == map[] {
        return true;
      }
      if At(m.stamp, m.sender) != At(clock, m.sender) + 1 {
        return false;
      }
      var todo := m.stamp.Keys;
      while todo != {}
        invariant todo <= m.stamp.Keys
        invariant forall k | k in m.stamp && k !in todo && k != m.sender :: m.stamp[k] <= At(clock, k)
        decreases |todo|
      {
        var node :| node in todo;
        if node != m.sender && m.stamp[node] > At(clock, node) {
          return false;
        }
        todo := todo - {node};
      }
      return true;
    }
  }
}
