/**
  History recovery end to end: a requester hands out its cursor, providers cut
  what it lacks into chunks, and the requester ingests the chunks in whatever
  order, however often, and whatever else its store is doing meanwhile.
 */
module Recovery {
  import opened Clocks
  import opened Listing
  import opened Sequences
  import opened StoreModel
  import opened LocalMessageStores

  ghost predicate IdsIdentify(w: set<Message>) {
    forall x, y | x in w && y in w && x.id == y.id :: x == y
  }

  /** Sender and positive number identify a message. */
  ghost predicate NumbersIdentify(w: set<Message>) {
    forall x, y | x in w && y in w && x.sender == y.sender && x.Seq() == y.Seq() >= 1 :: x == y
  }

  ghost predicate Consistent(w: set<Message>) {
    IdsIdentify(w) && NumbersIdentify(w)
  }

  /** The elements of a chunk as the requester receives them. */
  function Batch(ms: seq<Message>): (items: seq<Item>)
    ensures |items| == |ms| && forall i | 0 <= i < |ms| :: items[i] == Valid(ms[i])
  {
    seq(|ms|, i requires 0 <= i < |ms| => Valid(ms[i]))
  }

  function ItemMessages(items: seq<Item>): set<Message> {
    set i | 0 <= i < |items| && items[i].Valid? :: items[i].msg
  }

  function OpMessages(op: Op): set<Message> {
    match op
    case SaveOne(m) => {m}
    case SaveBatch(items) => ItemMessages(items)
    case AskCursor => {}
    case Restart(_, _, _) => {}
  }

  function AllMessages(ops: seq<Op>): set<Message> {
    if ops == [] then {} else AllMessages(ops[..|ops| - 1]) + OpMessages(ops[|ops| - 1])
  }

  // ---- What a world with unique ids makes of the abstract list ----

  lemma PutElems(saved: seq<Message>, m: Message, w: set<Message>)
    requires IdsIdentify(w) && Elems(saved) <= w && m in w
    ensures Elems(Put(saved, m)) == Elems(saved) + {m}
  {
    IdsSnoc(saved, m);
    if m.id in IdsOf(saved) {
      var x :| x in saved && x.id == m.id;
      assert x in Elems(saved);
    }
  }

  lemma ItemsSnoc(items: seq<Item>)
    requires items != []
    ensures var last := items[|items| - 1];
            ItemMessages(items) == ItemMessages(items[..|items| - 1]) + (if last.Valid? then {last.msg} else {})
  {
    var n := |items| - 1;
    var front, last := items[..n], items[n];
    forall m ensures m in ItemMessages(items) <==> m in ItemMessages(front) || (last.Valid? && m == last.msg) {
      if m in ItemMessages(items) {
        var i :| 0 <= i < |items| && items[i].Valid? && items[i].msg == m;
        assert i < n ==> front[i] == items[i];
      }
      if m in ItemMessages(front) {
        var i :| 0 <= i < n && front[i].Valid? && front[i].msg == m;
        assert items[i] == front[i];
      }
    }
  }

  lemma {:induction false} PutEachElems(saved: seq<Message>, items: seq<Item>, w: set<Message>)
    requires IdsIdentify(w) && Elems(saved) <= w && ItemMessages(items) <= w
    ensures Elems(PutEach(saved, items)) == Elems(saved) + ItemMessages(items)
  {
    if items != [] {
      var n := |items| - 1;
      ItemsSnoc(items);
      PutEachElems(saved, items[..n], w);
      if items[n].Valid? {
        PutElems(PutEach(saved, items[..n]), items[n].msg, w);
      }
    }
  }

  lemma {:induction false} RunListElems(saved: seq<Message>, ops: seq<Op>, w: set<Message>)
    requires IdsIdentify(w) && Elems(saved) <= w && AllMessages(ops) <= w
    ensures Elems(RunList(saved, ops)) == Elems(saved) + AllMessages(ops)
  {
    if ops != [] {
      var n := |ops| - 1;
      RunListElems(saved, ops[..n], w);
      var mid := RunList(saved, ops[..n]);
      match ops[n]
      case SaveOne(m) => PutElems(mid, m, w);
      case SaveBatch(items) => PutEachElems(mid, items, w);
      case AskCursor =>
      case Restart(_, _, _) =>
    }
  }

  lemma {:induction false} OpIsCounted(ops: seq<Op>, i: nat)
    requires i < |ops|
    ensures OpMessages(ops[i]) <= AllMessages(ops)
  {
    if i < |ops| - 1 {
      OpIsCounted(ops[..|ops| - 1], i);
    }
  }

  /** Exactly the old contents and everything ingested, each once. */
  lemma IngestExactly(st: Store, ops: seq<Op>, w: set<Message>)
    requires Synced(st) && IdsIdentify(w) && Elems(Contents(st.disk)) <= w && AllMessages(ops) <= w
    ensures var after := Contents(RunOps(st, ops).disk);
            UniqueIds(after) && Elems(after) == Elems(Contents(st.disk)) + AllMessages(ops)
  {
    DedupeUnique(Readable(st.disk));
    var saved := Contents(st.disk);
    RunRefines(st, saved, ops);
    RunListElems(saved, ops, w);
    DedupeUnique(Readable(RunOps(st, ops).disk));
  }

  // ---- Completeness ----

  /** Every chunk the provider builds for this cursor is ingested at least once. */
  ghost predicate Delivered(provider: Disk, cursor: Clock, size: nat, ops: seq<Op>)
    requires size > 0
  {
    var chunks := Split(Missing(ReadAll(provider), cursor), size, 1);
    forall i | 0 <= i < |chunks| :: SaveBatch(Batch(chunks[i].messages)) in ops
  }

  lemma ListedIffContained(d: Disk, m: Message)
    ensures m in ReadAll(d) <==> m in Contents(d)
  {
    SortIsStable(Contents(d));
    assert m in Contents(d) <==> m in multiset(Contents(d));
    assert m in ReadAll(d) <==> m in multiset(ReadAll(d));
  }

  lemma BatchMember(ms: seq<Message>, ops: seq<Op>, m: Message)
    requires m in ms && SaveBatch(Batch(ms)) in ops
    ensures m in AllMessages(ops)
  {
    var j :| 0 <= j < |ops| && ops[j] == SaveBatch(Batch(ms));
    OpIsCounted(ops, j);
    var k :| 0 <= k < |ms| && ms[k] == m;
    assert Batch(ms)[k] == Valid(m);
  }

  /** Some chunk carries each missing message. */
  lemma InSomeChunk(ms: seq<Message>, cursor: Clock, size: nat, m: Message) returns (i: nat)
    requires size > 0 && m in ms && m.Seq() > At(cursor, m.sender)
    ensures var chunks := Split(Missing(ms, cursor), size, 1); i < |chunks| && m in chunks[i].messages
  {
    MissingMembers(ms, cursor, m);
    SplitJoins(Missing(ms, cursor), size, 1);
    var chunks := Split(Missing(ms, cursor), size, 1);
    JoinedMembers(chunks, m);
    i :| 0 <= i < |chunks| && m in chunks[i].messages;
  }

  lemma ChunkedIsIngested(provider: Disk, cursor: Clock, size: nat, ops: seq<Op>, m: Message)
    requires size > 0 && Delivered(provider, cursor, size, ops)
    requires m in Contents(provider) && m.Seq() > At(cursor, m.sender)
    ensures m in AllMessages(ops)
  {
    ListedIffContained(provider, m);
    var i := InSomeChunk(ReadAll(provider), cursor, size, m);
    BatchMember(Split(Missing(ReadAll(provider), cursor), size, 1)[i].messages, ops, m);
  }

  /** A provider's message the cursor covers is one the requester already had. */
  lemma CoveredIsHeld(mine: seq<Message>, cursor: Clock, w: set<Message>, m: Message)
    requires Consistent(w) && Elems(mine) <= w && m in w && GapFree(cursor, mine)
    requires 1 <= m.Seq() <= At(cursor, m.sender)
    ensures m in Elems(mine)
  {
    assert Numbered(Elems(mine), m.sender, m.Seq());
    var x :| x in Elems(mine) && x.sender == m.sender && x.Seq() == m.Seq();
  }

  lemma ProviderMessageArrives(
      st: Store, provider: Disk, cursor: Clock, size: nat, ops: seq<Op>, w: set<Message>, m: Message)
    requires Synced(st) && Consistent(w) && Elems(Contents(st.disk)) <= w && AllMessages(ops) <= w
    requires size > 0 && GapFree(cursor, Contents(st.disk)) && Delivered(provider, cursor, size, ops)
    requires m in Contents(provider) && m in w && m.Seq() >= 1
    ensures m in Elems(Contents(RunOps(st, ops).disk))
  {
    IngestExactly(st, ops, w);
    if m.Seq() > At(cursor, m.sender) {
      ChunkedIsIngested(provider, cursor, size, ops, m);
    } else {
      CoveredIsHeld(Contents(st.disk), cursor, w, m);
    }
  }

  /**
    Recovery is complete.  A requester opened on any disk asks for its cursor;
    each provider, with any disk of its own, builds chunks for that cursor; the
    requester's store then goes through any run that ingests every such chunk
    at least once, in any order, mixed with live saves, other batches, cursor
    requests and restarts.  Afterwards it holds everything it held before,
    every stamped message of every provider, and nothing that was not saved,
    each id and each number once.
   */
  lemma RecoveryIsComplete(requester: Store, providers: seq<Disk>, size: nat, ops: seq<Op>, w: set<Message>)
    requires size > 0 && Consistent(w) && AllMessages(ops) <= w
    requires Elems(Contents(requester.disk)) <= w
    requires forall p | p in providers :: Elems(Contents(p)) <= w
    requires forall p | p in providers :: Delivered(p, Cursor(requester).0, size, ops)
    ensures var after := Contents(RunOps(Cursor(requester).1, ops).disk);
            && UniqueIds(after)
            && Elems(after) == Elems(Contents(requester.disk)) + AllMessages(ops)
            && (forall p, m | p in providers && m in Contents(p) && m.Seq() >= 1 :: m in Elems(after))
            && (forall x, y | x in after && y in after && x.sender == y.sender && x.Seq() == y.Seq() >= 1 :: x == y)
  {
    var st := Cursor(requester).1;
    var cursor := Cursor(requester).0;
    CursorIsGapFree(requester);
    RepairSyncs(requester);
    IngestExactly(st, ops, w);
    forall p, m | p in providers && m in Contents(p) && m.Seq() >= 1
      ensures m in Elems(Contents(RunOps(st, ops).disk))
    {
      assert m in Elems(Contents(p));
      ProviderMessageArrives(st, p, cursor, size, ops, w, m);
    }
    var after := Contents(RunOps(st, ops).disk);
    forall x, y | x in after && y in after && x.sender == y.sender && x.Seq() == y.Seq() >= 1 ensures x == y {
      assert x in Elems(after) && y in Elems(after);
    }
  }
}
