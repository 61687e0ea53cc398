/**
  The offline ordering checker.

  The checker replays a delivery log against the CBCAST rule without using the
  readiness test of the delivery layer.  Here the two are proved equivalent.
 */
module CausalCheck {
  import opened Clocks

  datatype Record = Record(id: MsgId, sender: NodeId, vc: Clock)

  datatype Kind = SenderGap | SenderRegress | MissingDependency(node: NodeId)

  datatype Violation = Violation(seqNo: nat, id: MsgId, kind: Kind)

  datatype Report = Report(delivered: nat, unique: nat, duplicates: nat, violations: seq<Violation>, finalClock: Clock)

  /** Everything accounted for before the i-th record: the baseline and all earlier stamps. */
  function Accounted(baseline: Clock, log: seq<Record>): Clock {
    if log == [] then baseline else Join(Accounted(baseline, log[..|log| - 1]), log[|log| - 1].vc)
  }

  /** One breach of the rule, by position and kind. */
  ghost predicate IsBreach(baseline: Clock, log: seq<Record>, v: Violation) {
    v.seqNo < |log| && v.id == log[v.seqNo].id &&
    BreachAt(Accounted(baseline, log[..v.seqNo]), log[v.seqNo], v.kind)
  }

  predicate BreachAt(done: Clock, r: Record, kind: Kind) {
    match kind
    case SenderGap => At(r.vc, r.sender) > At(done, r.sender) + 1
    case SenderRegress => At(r.vc, r.sender) < At(done, r.sender) + 1
    case MissingDependency(k) => k in r.vc && k != r.sender && r.vc[k] > At(done, k)
  }

  function Ids(log: seq<Record>): set<MsgId> {
    set i | 0 <= i < |log| :: log[i].id
  }

  lemma AccountedSnoc(baseline: Clock, log: seq<Record>, i: nat)
    requires i < |log|
    ensures Accounted(baseline, log[..i + 1]) == Join(Accounted(baseline, log[..i]), log[i].vc)
  {
    assert log[..i + 1][..i] == log[..i];
  }

  lemma BreachSnoc(baseline: Clock, log: seq<Record>, i: nat, v: Violation)
    requires i < |log|
    ensures IsBreach(baseline, log[..i + 1], v) <==>
            IsBreach(baseline, log[..i], v) ||
            (v.seqNo == i && v.id == log[i].id && BreachAt(Accounted(baseline, log[..i]), log[i], v.kind))
  {
    if v.seqNo <= i {
      assert log[..i + 1][..v.seqNo] == log[..v.seqNo];
    }
    if v.seqNo < i {
      assert log[..i][..v.seqNo] == log[..v.seqNo];
    }
  }

  lemma BreachesSnoc(baseline: Clock, log: seq<Record>, i: nat, before: seq<Violation>, found: seq<Violation>)
    requires i < |log| && forall v :: v in before <==> IsBreach(baseline, log[..i], v)
    requires forall v :: v in found <==>
      v.seqNo == i && v.id == log[i].id && BreachAt(Accounted(baseline, log[..i]), log[i], v.kind)
    ensures forall v :: v in before + found <==> IsBreach(baseline, log[..i + 1], v)
  {
    forall v ensures v in before + found <==> IsBreach(baseline, log[..i + 1], v) {
      BreachSnoc(baseline, log, i, v);
    }
  }

  lemma IdsSnoc(log: seq<Record>, i: nat)
    requires i < |log|
    ensures Ids(log[..i + 1]) == Ids(log[..i]) + {log[i].id}
  {
    assert forall j | 0 <= j < i :: log[..i + 1][j] == log[..i][j];
    assert log[..i + 1][i] == log[i];
  }

  /** Each violation once, by record, the sender's own sequence before the dependencies. */
  ghost predicate OnceInOrder(vs: seq<Violation>) {
    forall i, j | 0 <= i < j < |vs| ::
      && vs[i].seqNo <= vs[j].seqNo && vs[i] != vs[j]
      && (vs[i].seqNo == vs[j].seqNo ==> vs[j].kind.MissingDependency?)
  }

  /** The checks of one record, the dependency loop included. */
  method CheckRecord(done: Clock, r: Record, i: nat) returns (found: seq<Violation>)
    ensures forall v :: v in found <==> v.seqNo == i && v.id == r.id && BreachAt(done, r, v.kind)
    ensures OnceInOrder(found)
  {
    found := [];
    var expected := At(done, r.sender) + 1;
    var got := At(r.vc, r.sender);
    if got != expected {
      found := [Violation(i, r.id, if got > expected then SenderGap else SenderRegress)];
    }
    var todo := r.vc.Keys;
    while todo != {}
      invariant todo <= r.vc.Keys
      invariant forall v :: v in found <==>
        v.seqNo == i && v.id == r.id && BreachAt(done, r, v.kind) &&
        (v.kind.MissingDependency? ==> v.kind.node !in todo)
      invariant OnceInOrder(found)
      decreases |todo|
    {
      var node :| node in todo;
      if node != r.sender && r.vc[node] > At(done, node) {
        assert forall k | 0 <= k < |found| :: found[k] in found;
        found := found + [Violation(i, r.id, MissingDependency(node))];
      }
      todo := todo - {node};
    }
  }

  method Advance(done: Clock, vc: Clock) returns (next: Clock)
    ensures next == Join(done, vc)
  {
    var clock := new VectorClock();
    clock.Merge(done);
    assert clock.clock == done;
    clock.Merge(vc);
    next := clock.clock;
  }

  lemma OnceInOrderConcat(before: seq<Violation>, found: seq<Violation>, i: nat)
    requires OnceInOrder(before) && OnceInOrder(found)
    requires forall k | 0 <= k < |before| :: before[k].seqNo < i
    requires forall k | 0 <= k < |found| :: found[k].seqNo == i
    ensures OnceInOrder(before + found)
  {
  }

  /** Replays one peer's delivery sequence and reports exactly its breaches, each once and in order. */
  method CheckPeerLog(log: seq<Record>, baseline: Clock) returns (r: Report)
    ensures forall v :: v in r.violations <==> IsBreach(baseline, log, v)
    ensures OnceInOrder(r.violations)
    ensures r.finalClock == Accounted(baseline, log)
    ensures r.delivered == |log| && r.unique == |Ids(log)| && r.duplicates == |log| - |Ids(log)|
  {
    var done := baseline;
    var violations: seq<Violation> := [];
    var seen: set<MsgId> := {};
    var duplicates := 0;
    assert log[..0] == [];
    for i := 0 to |log|
      invariant done == Accounted(baseline, log[..i])
      invariant forall v :: v in violations <==> IsBreach(baseline, log[..i], v)
      invariant OnceInOrder(violations) && forall k | 0 <= k < |violations| :: violations[k].seqNo < i
      invariant seen == Ids(log[..i]) && duplicates == i - |seen|
    {
      var rec := log[i];
      IdsSnoc(log, i);
      if rec.id in seen {
        duplicates := duplicates + 1;
        assert seen + {rec.id} == seen;
      }
      seen := seen + {rec.id};
      var found := CheckRecord(done, rec, i);
      BreachesSnoc(baseline, log, i, violations, found);
      assert forall k | 0 <= k < |found| :: found[k] in found;
      OnceInOrderConcat(violations, found, i);
      violations := violations + found;
      AccountedSnoc(baseline, log, i);
      done := Advance(done, rec.vc);
    }
    assert log[..|log|] == log;
    r := Report(|log|, |seen|, duplicates, violations, done);
  }

  // ---- The checker's rule is the delivery test ----

  ghost predicate Clean(baseline: Clock, log: seq<Record>) {
    forall v :: !IsBreach(baseline, log, v)
  }

  /** What the delivery layer would say of the record. */
  function AsMessage(r: Record): Message {
    Message(r.id, r.sender, r.vc, 0.0, Chat(""))
  }

  ghost predicate InOrder(baseline: Clock, log: seq<Record>) {
    forall i | 0 <= i < |log| :: InOrderAt(baseline, log, i)
  }

  ghost predicate InOrderAt(baseline: Clock, log: seq<Record>, i: nat)
    requires i < |log|
  {
    log[i].vc != map[] && Ready(Accounted(baseline, log[..i]), AsMessage(log[i]))
  }

  lemma NoBreachMeansReady(done: Clock, r: Record)
    ensures (forall kind :: !BreachAt(done, r, kind)) <==> r.vc != map[] && Ready(done, AsMessage(r))
  {
    if forall kind :: !BreachAt(done, r, kind) {
      assert !BreachAt(done, r, SenderGap) && !BreachAt(done, r, SenderRegress);
      assert r.sender in r.vc;
      forall k | k in r.vc && k != r.sender ensures r.vc[k] <= At(done, k) {
        assert !BreachAt(done, r, MissingDependency(k));
      }
    }
  }

  /** The checker is exact: clean if and only if every record is stamped and was ready at what preceded it. */
  lemma CleanIffInOrder(baseline: Clock, log: seq<Record>)
    ensures Clean(baseline, log) <==> InOrder(baseline, log)
  {
    if Clean(baseline, log) {
      forall i | 0 <= i < |log| ensures InOrderAt(baseline, log, i) {
        forall kind ensures !BreachAt(Accounted(baseline, log[..i]), log[i], kind) {
          assert !IsBreach(baseline, log, Violation(i, log[i].id, kind));
        }
        NoBreachMeansReady(Accounted(baseline, log[..i]), log[i]);
      }
    }
    if InOrder(baseline, log) {
      forall v ensures !IsBreach(baseline, log, v) {
        if v.seqNo < |log| {
          assert InOrderAt(baseline, log, v.seqNo);
          NoBreachMeansReady(Accounted(baseline, log[..v.seqNo]), log[v.seqNo]);
        }
      }
    }
  }

  // ---- On the messages a peer delivered ----

  function AsRecord(m: Message): Record { Record(m.id, m.sender, m.stamp) }

  function AsRecords(ms: seq<Message>): (rs: seq<Record>)
    ensures |rs| == |ms| && forall i | 0 <= i < |ms| :: rs[i] == AsRecord(ms[i])
  {
    seq(|ms|, i requires 0 <= i < |ms| => AsRecord(ms[i]))
  }

  ghost predicate AllStamped(ms: seq<Message>) {
    forall i | 0 <= i < |ms| :: ms[i].Stamped()
  }

  lemma {:induction false} WholeLogIsAfter(baseline: Clock, ms: seq<Message>)
    ensures Accounted(baseline, AsRecords(ms)) == After(baseline, ms)
  {
    if ms != [] {
      WholeLogIsAfter(baseline, ms[..|ms| - 1]);
      assert AsRecords(ms)[..|ms| - 1] == AsRecords(ms[..|ms| - 1]);
    }
  }

  lemma AccountedIsAfter(baseline: Clock, ms: seq<Message>, n: nat)
    requires n <= |ms|
    ensures Accounted(baseline, AsRecords(ms)[..n]) == After(baseline, ms[..n])
  {
    WholeLogIsAfter(baseline, ms[..n]);
    assert AsRecords(ms)[..n] == AsRecords(ms[..n]);
  }

  lemma InOrderAtIffReadyAt(baseline: Clock, ms: seq<Message>, i: nat)
    requires i < |ms|
    ensures InOrderAt(baseline, AsRecords(ms), i) <==> ms[i].Stamped() && ReadyAt(baseline, ms, i)
  {
    AccountedIsAfter(baseline, ms, i);
  }

  /** The checker accepts a delivery log exactly when it is a causally legal sequence of stamped messages. */
  lemma CleanIffLegal(baseline: Clock, ms: seq<Message>)
    ensures Clean(baseline, AsRecords(ms)) <==> Legal(baseline, ms) && AllStamped(ms)
  {
    CleanIffInOrder(baseline, AsRecords(ms));
    forall i | 0 <= i < |ms|
      ensures InOrderAt(baseline, AsRecords(ms), i) <==> ms[i].Stamped() && ReadyAt(baseline, ms, i)
    {
      InOrderAtIffReadyAt(baseline, ms, i);
    }
  }
}
