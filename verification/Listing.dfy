/**
  How the store lists messages: first occurrence of each id, then a stable sort
  by timestamp.  The sort is characterised independently of its algorithm.
 */
module Listing {
  import opened Clocks
  import opened Sequences

  function IdsOf(ms: seq<Message>): set<MsgId> {
    set m | m in ms :: m.id
  }

  ghost predicate UniqueIds(ms: seq<Message>) {
    forall i, j | 0 <= i < j < |ms| :: ms[i].id != ms[j].id
  }

  /** The first message of every id, in order. */
  function Dedupe(ms: seq<Message>): seq<Message> {
    if ms == [] then []
    else
      var d := Dedupe(ms[..|ms| - 1]);
      if ms[|ms| - 1].id in IdsOf(d) then d else d + [ms[|ms| - 1]]
  }

  lemma DedupeSnoc(ms: seq<Message>, m: Message)
    ensures Dedupe(ms + [m]) == if m.id in IdsOf(Dedupe(ms)) then Dedupe(ms) else Dedupe(ms) + [m]
  {
    assert (ms + [m])[..|ms|] == ms;
  }

  lemma UniqueSnoc(ms: seq<Message>, m: Message)
    requires UniqueIds(ms) && m.id !in IdsOf(ms)
    ensures UniqueIds(ms + [m])
  {
    forall i | 0 <= i < |ms| ensures ms[i].id != m.id {
      assert ms[i] in ms;
    }
  }

  lemma IdsSnoc(ms: seq<Message>, m: Message)
    ensures IdsOf(ms + [m]) == IdsOf(ms) + {m.id} && Elems(ms + [m]) == Elems(ms) + {m}
  {
    assert forall x :: x in ms + [m] <==> x in ms || x == m;
  }

  lemma {:induction false} DedupeUnique(ms: seq<Message>)
    ensures UniqueIds(Dedupe(ms)) && IdsOf(Dedupe(ms)) == IdsOf(ms) && Elems(Dedupe(ms)) <= Elems(ms)
  {
    if ms != [] {
      var n := |ms| - 1;
      DedupeUnique(ms[..n]);
      var d := Dedupe(ms[..n]);
      IdsSnoc(ms[..n], ms[n]);
      assert ms == ms[..n] + [ms[n]];
      if ms[n].id !in IdsOf(d) {
        UniqueSnoc(d, ms[n]);
        IdsSnoc(d, ms[n]);
      }
    }
  }

  /** Exactly the first message of every id is kept, where it stands. */
  lemma {:induction false} DedupeKeepsFirst(ms: seq<Message>, m: Message)
    ensures Subsequence(Dedupe(ms), ms)
    ensures m in Dedupe(ms) <==> IsFirst(ms, m)
  {
    if ms != [] {
      var front, last := ms[..|ms| - 1], ms[|ms| - 1];
      assert ms == front + [last];
      DedupeKeepsFirst(front, m);
      DedupeUnique(front);
      SubsequenceGrows(Dedupe(front), front, last);
      FirstInSnoc(front, last, m);
    }
  }

  ghost predicate IsFirst(ms: seq<Message>, m: Message) {
    exists i | 0 <= i < |ms| :: ms[i] == m && forall j | 0 <= j < i :: ms[j].id != m.id
  }

  lemma FirstInSnoc(front: seq<Message>, last: Message, m: Message)
    ensures IsFirst(front + [last], m) <==> IsFirst(front, m) || (m == last && last.id !in IdsOf(front))
  {
    var ms := front + [last];
    if IsFirst(ms, m) {
      var i :| 0 <= i < |ms| && ms[i] == m && forall j | 0 <= j < i :: ms[j].id != m.id;
      if i < |front| {
        assert front[i] == m && forall j | 0 <= j < i :: front[j].id == ms[j].id;
      } else {
        forall x | x in front ensures x.id != m.id {
          var j :| 0 <= j < |front| && front[j] == x;
          assert ms[j] == x;
        }
      }
    }
    if IsFirst(front, m) {
      var i :| 0 <= i < |front| && front[i] == m && forall j | 0 <= j < i :: front[j].id != m.id;
      assert ms[i] == m && forall j | 0 <= j < i :: ms[j].id == front[j].id;
    }
    if m == last && last.id !in IdsOf(front) {
      assert ms[|front|] == m;
      forall j | 0 <= j < |front| ensures ms[j].id != m.id {
        assert ms[j] in front;
      }
    }
  }

  lemma {:induction false} DedupeOfUnique(ms: seq<Message>)
    requires UniqueIds(ms)
    ensures Dedupe(ms) == ms
  {
    if ms != [] {
      var n := |ms| - 1;
      assert ms == ms[..n] + [ms[n]];
      DedupeOfUnique(ms[..n]);
      assert forall x | x in ms[..n] :: x.id != ms[n].id;
    }
  }

  // ---- Stable sort by timestamp ----

  ghost predicate Sorted(ms: seq<Message>) {
    forall i, j | 0 <= i < j < |ms| :: ms[i].timestamp <= ms[j].timestamp
  }

  /** After every message that is not later. */
  function Insert(ms: seq<Message>, m: Message): seq<Message> {
    if ms == [] || ms[|ms| - 1].timestamp <= m.timestamp then ms + [m]
    else Insert(ms[..|ms| - 1], m) + [ms[|ms| - 1]]
  }

  function StableSort(ms: seq<Message>): seq<Message> {
    if ms == [] then [] else Insert(StableSort(ms[..|ms| - 1]), ms[|ms| - 1])
  }

  /** The messages carrying one timestamp, in order. */
  function AtTime(ms: seq<Message>, t: Time): seq<Message> {
    if ms == [] then []
    else AtTime(ms[..|ms| - 1], t) + (if ms[|ms| - 1].timestamp == t then [ms[|ms| - 1]] else [])
  }

  lemma AtTimeSnoc(ms: seq<Message>, m: Message, t: Time)
    ensures AtTime(ms + [m], t) == AtTime(ms, t) + (if m.timestamp == t then [m] else [])
  {
    assert (ms + [m])[..|ms|] == ms;
  }

  lemma SortSnoc(ms: seq<Message>, m: Message)
    ensures StableSort(ms + [m]) == Insert(StableSort(ms), m)
  {
    assert (ms + [m])[..|ms|] == ms;
  }

  lemma {:induction false} InsertPermutes(ms: seq<Message>, m: Message)
    ensures multiset(Insert(ms, m)) == multiset(ms) + multiset{m}
  {
    if ms != [] && ms[|ms| - 1].timestamp > m.timestamp {
      var n := |ms| - 1;
      InsertPermutes(ms[..n], m);
      assert ms == ms[..n] + [ms[n]];
    }
  }

  lemma {:induction false} InsertBounded(ms: seq<Message>, m: Message, t: Time)
    requires m.timestamp <= t && forall i | 0 <= i < |ms| :: ms[i].timestamp <= t
    ensures forall i | 0 <= i < |Insert(ms, m)| :: Insert(ms, m)[i].timestamp <= t
  {
    if ms != [] && ms[|ms| - 1].timestamp > m.timestamp {
      InsertBounded(ms[..|ms| - 1], m, t);
    }
  }

  lemma {:induction false} InsertSorted(ms: seq<Message>, m: Message)
    requires Sorted(ms)
    ensures Sorted(Insert(ms, m))
  {
    if ms != [] && ms[|ms| - 1].timestamp > m.timestamp {
      var n := |ms| - 1;
      InsertSorted(ms[..n], m);
      InsertBounded(ms[..n], m, ms[n].timestamp);
    }
  }

  lemma {:induction false} InsertStable(ms: seq<Message>, m: Message, t: Time)
    requires Sorted(ms)
    ensures AtTime(Insert(ms, m), t) == AtTime(ms, t) + (if m.timestamp == t then [m] else [])
  {
    if ms == [] || ms[|ms| - 1].timestamp <= m.timestamp {
      AtTimeSnoc(ms, m, t);
    } else {
      var n := |ms| - 1;
      InsertStable(ms[..n], m, t);
      AtTimeSnoc(Insert(ms[..n], m), ms[n], t);
      var mine, last := if m.timestamp == t then [m] else [], if ms[n].timestamp == t then [ms[n]] else [];
      SwapEmpty(AtTime(ms[..n], t), mine, last);
    }
  }

  lemma SwapEmpty(a: seq<Message>, b: seq<Message>, c: seq<Message>)
    requires b == [] || c == []
    ensures a + b + c == a + c + b
  {
    if b == [] {
      assert a + b == a;
    } else {
      assert a + c == a;
    }
  }

  /** The listing is sorted, is a permutation, and keeps the order of equal timestamps. */
  lemma {:induction false} SortIsStable(ms: seq<Message>)
    ensures Sorted(StableSort(ms)) && multiset(StableSort(ms)) == multiset(ms)
    ensures forall t :: AtTime(StableSort(ms), t) == AtTime(ms, t)
  {
    if ms != [] {
      var front, m := ms[..|ms| - 1], ms[|ms| - 1];
      var sorted := StableSort(front);
      assert ms == front + [m];
      SortIsStable(front);
      InsertSorted(sorted, m);
      InsertPermutes(sorted, m);
      forall t ensures AtTime(StableSort(ms), t) == AtTime(ms, t) {
        InsertedAtTime(front, m, sorted, t);
      }
    }
  }

  lemma InsertedAtTime(front: seq<Message>, m: Message, sorted: seq<Message>, t: Time)
    requires Sorted(sorted) && AtTime(sorted, t) == AtTime(front, t)
    ensures AtTime(Insert(sorted, m), t) == AtTime(front + [m], t)
  {
    InsertStable(sorted, m, t);
    AtTimeSnoc(front, m, t);
  }

  lemma {:induction false} AtTimeMembers(ms: seq<Message>, t: Time)
    ensures AtTime(ms, t) != [] <==> exists i | 0 <= i < |ms| :: ms[i].timestamp == t
  {
    if ms != [] {
      var n := |ms| - 1;
      AtTimeMembers(ms[..n], t);
      if exists i | 0 <= i < |ms| :: ms[i].timestamp == t {
        var i :| 0 <= i < |ms| && ms[i].timestamp == t;
        assert i < n ==> ms[..n][i].timestamp == t;
      }
    }
  }

  lemma LastIsLatest(a: seq<Message>, b: seq<Message>)
    requires a != [] && Sorted(a) && Sorted(b) && forall t :: AtTime(a, t) == AtTime(b, t)
    ensures b != [] && a[|a| - 1].timestamp <= b[|b| - 1].timestamp
  {
    var t := a[|a| - 1].timestamp;
    AtTimeMembers(a, t);
    AtTimeMembers(b, t);
    assert a[|a| - 1].timestamp == t;
    assert AtTime(b, t) != [];
    var i :| 0 <= i < |b| && b[i].timestamp == t;
  }

  lemma AtTimeWithoutLast(a: seq<Message>, b: seq<Message>, u: Time)
    requires a != [] && b != [] && a[|a| - 1].timestamp == b[|b| - 1].timestamp && AtTime(a, u) == AtTime(b, u)
    ensures AtTime(a[..|a| - 1], u) == AtTime(b[..|b| - 1], u)
    ensures u == a[|a| - 1].timestamp ==> a[|a| - 1] == b[|b| - 1]
  {
    var x, y := AtTime(a[..|a| - 1], u), AtTime(b[..|b| - 1], u);
    if u == a[|a| - 1].timestamp {
      assert x + [a[|a| - 1]] == y + [b[|b| - 1]];
      assert |x| == |y| && x == (x + [a[|a| - 1]])[..|x|] && y == (y + [b[|b| - 1]])[..|y|];
      assert (x + [a[|a| - 1]])[|x|] == (y + [b[|b| - 1]])[|y|];
    } else {
      assert x + [] == x && y + [] == y;
    }
  }

  /** Sortedness and stability leave one possible listing. */
  lemma {:induction false} StableSortIsUnique(a: seq<Message>, b: seq<Message>)
    requires Sorted(a) && Sorted(b) && forall t :: AtTime(a, t) == AtTime(b, t)
    ensures a == b
    decreases |a|
  {
    if a == [] {
      if b != [] {
        LastIsLatest(b, a);
      }
    } else {
      LastIsLatest(a, b);
      LastIsLatest(b, a);
      var n, k := |a| - 1, |b| - 1;
      forall u ensures AtTime(a[..n], u) == AtTime(b[..k], u) {
        AtTimeWithoutLast(a, b, u);
      }
      AtTimeWithoutLast(a, b, a[n].timestamp);
      StableSortIsUnique(a[..n], b[..k]);
      assert a == a[..n] + [a[n]] && b == b[..k] + [b[k]];
    }
  }

  lemma SortOfSorted(ms: seq<Message>)
    requires Sorted(ms)
    ensures StableSort(ms) == ms
  {
    SortIsStable(ms);
    StableSortIsUnique(StableSort(ms), ms);
  }

  lemma UniqueByMultiset(a: seq<Message>, b: seq<Message>)
    requires UniqueIds(a) && multiset(a) == multiset(b)
    ensures UniqueIds(b) && Elems(a) == Elems(b) && IdsOf(a) == IdsOf(b) && |a| == |b|
  {
    forall m ensures m in a <==> m in b {
      assert m in a <==> m in multiset(a);
      assert m in b <==> m in multiset(b);
    }
    assert |multiset(a)| == |a| && |multiset(b)| == |b|;
    forall i, j | 0 <= i < j < |b| ensures b[i].id != b[j].id {
      if b[i].id == b[j].id {
        SameIdSame(a, b[i], b[j]);
        TwiceInMultiset(b, i, j);
        OnceInUnique(a, b[i]);
      }
    }
  }

  lemma SameIdSame(ms: seq<Message>, x: Message, y: Message)
    requires UniqueIds(ms) && x in ms && y in ms && x.id == y.id
    ensures x == y
  {
    var i :| 0 <= i < |ms| && ms[i] == x;
    var j :| 0 <= j < |ms| && ms[j] == y;
    assert i == j;
  }

  lemma TwiceInMultiset(ms: seq<Message>, i: nat, j: nat)
    requires i < j < |ms| && ms[i] == ms[j]
    ensures multiset(ms)[ms[i]] >= 2
  {
    assert ms == ms[..j] + [ms[j]] + ms[j + 1..];
    assert ms[..j][i] == ms[i];
    assert ms[i] in ms[..j];
  }

  lemma {:induction false} OnceInUnique(ms: seq<Message>, m: Message)
    requires UniqueIds(ms)
    ensures multiset(ms)[m] <= 1
  {
    if ms != [] {
      var n := |ms| - 1;
      assert ms == ms[..n] + [ms[n]];
      OnceInUnique(ms[..n], m);
      if ms[n] == m {
        assert forall i | 0 <= i < n :: ms[..n][i].id != m.id;
        assert m !in ms[..n];
      }
    }
  }

  lemma SortUnique(ms: seq<Message>)
    requires UniqueIds(ms)
    ensures UniqueIds(StableSort(ms)) && Elems(StableSort(ms)) == Elems(ms) && IdsOf(StableSort(ms)) == IdsOf(ms)
  {
    SortIsStable(ms);
    UniqueByMultiset(ms, StableSort(ms));
  }
}
