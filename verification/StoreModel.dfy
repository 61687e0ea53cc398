/**
  The message store as a value: an active log, numbered snapshots, in-memory
  indexes and two recovery flags.

  Files are sequences of messages with a readable flag.  The lemmas show that
  every run of saves, batches, compactions, rebuilds, cursor requests and
  reopenings behaves like one append-only list with distinct ids.
 */
module StoreModel {
  import opened Clocks
  import opened Listing
  import opened Sequences

  // ---- What is on disk ----

  datatype Line = Entry(msg: Message) | Garbled

  /** One snapshot: a metadata file naming how many messages a data file should hold. */
  datatype Snapshot = Snapshot(
    number: nat,
    metaReadable: bool,
    dataReadable: bool,
    messages: seq<Message>,
    expected: int)

  /** Snapshots in file-name order, which is number order for the automatic four-digit names. */
  datatype Disk = Disk(snapshots: seq<Snapshot>, active: seq<Line>)

  function SnapshotMessages(s: Snapshot): seq<Message> {
    if s.metaReadable && s.dataReadable then s.messages else []
  }

  function FromSnapshots(ss: seq<Snapshot>): seq<Message> {
    if ss == [] then [] else FromSnapshots(ss[..|ss| - 1]) + SnapshotMessages(ss[|ss| - 1])
  }

  function FromLines(ls: seq<Line>): seq<Message> {
    if ls == [] then []
    else FromLines(ls[..|ls| - 1]) + (if ls[|ls| - 1].Entry? then [ls[|ls| - 1].msg] else [])
  }

  /** Everything that can be read, snapshots first. */
  function Readable(d: Disk): seq<Message> {
    FromSnapshots(d.snapshots) + FromLines(d.active)
  }

  function Contents(d: Disk): seq<Message> { Dedupe(Readable(d)) }

  /** What every read returns. */
  function ReadAll(d: Disk): seq<Message> { StableSort(Contents(d)) }

  predicate UnreadableSnapshot(d: Disk) {
    exists i | 0 <= i < |d.snapshots| ::
      d.snapshots[i].metaReadable && d.snapshots[i].expected > |SnapshotMessages(d.snapshots[i])|
  }

  predicate Listed(d: Disk, n: nat) {
    exists i | 0 <= i < |d.snapshots| :: d.snapshots[i].metaReadable && d.snapshots[i].number == n
  }

  /** A number between two listed snapshots that no listed snapshot has. */
  predicate MissingSnapshot(d: Disk) {
    exists i, j | 0 <= i < |d.snapshots| && 0 <= j < |d.snapshots| ::
      d.snapshots[i].metaReadable && d.snapshots[j].metaReadable &&
      exists n | d.snapshots[i].number < n < d.snapshots[j].number :: !Listed(d, n)
  }

  predicate GarbledLog(d: Disk) {
    exists i | 0 <= i < |d.active| :: d.active[i].Garbled?
  }

  // ---- Indexes ----

  datatype Index = Index(ids: set<MsgId>, seqs: map<NodeId, set<nat>>, latest: Clock)

  const EmptyIndex := Index({}, map[], map[])

  function NumbersOf(ix: Index, s: NodeId): set<nat> {
    if s in ix.seqs then ix.seqs[s] else {}
  }

  function Add(ix: Index, m: Message): Index {
    Index(ix.ids + {m.id},
          ix.seqs[m.sender := NumbersOf(ix, m.sender) + {m.Seq()}],
          if m.Seq() > At(ix.latest, m.sender) then ix.latest[m.sender := m.Seq()] else ix.latest)
  }

  function Scan(ms: seq<Message>): Index {
    if ms == [] then EmptyIndex else Add(Scan(ms[..|ms| - 1]), ms[|ms| - 1])
  }

  ghost predicate Numbered(ms: set<Message>, s: NodeId, q: nat) {
    exists m :: m in ms && m.sender == s && m.Seq() == q
  }

  /** What the three indexes mean, whatever order the messages were read in. */
  ghost predicate Describes(ix: Index, ms: set<Message>) {
    && ix.ids == (set m | m in ms :: m.id)
    && (forall s, q: nat :: q in NumbersOf(ix, s) <==> Numbered(ms, s, q))
    && (forall s | s in ix.seqs :: ix.seqs[s] != {})
    && (forall s | s in ix.latest :: ix.latest[s] > 0)
    && (forall s :: At(ix.latest, s) > 0 ==> Numbered(ms, s, At(ix.latest, s)))
    && (forall s, q: nat :: Numbered(ms, s, q) ==> q <= At(ix.latest, s))
  }

  lemma NumberedAdd(ms: set<Message>, m: Message, s: NodeId, q: nat)
    ensures Numbered(ms + {m}, s, q) <==> Numbered(ms, s, q) || (m.sender == s && m.Seq() == q)
  {
    if m.sender == s && m.Seq() == q {
      assert m in ms + {m};
    }
    if Numbered(ms, s, q) {
      var x :| x in ms && x.sender == s && x.Seq() == q;
      assert x in ms + {m};
    }
  }

  lemma AddDescribesIds(ix: Index, ms: set<Message>, m: Message)
    requires ix.ids == (set x | x in ms :: x.id)
    ensures Add(ix, m).ids == (set x | x in ms + {m} :: x.id)
  {
    assert forall x :: x in ms + {m} <==> x in ms || x == m;
  }

  lemma AddDescribesNumbers(ix: Index, ms: set<Message>, m: Message)
    requires Describes(ix, ms)
    ensures forall s, q: nat :: q in NumbersOf(Add(ix, m), s) <==> Numbered(ms + {m}, s, q)
    ensures forall s | s in Add(ix, m).seqs :: Add(ix, m).seqs[s] != {}
  {
    forall s, q: nat ensures q in NumbersOf(Add(ix, m), s) <==> Numbered(ms + {m}, s, q) {
      NumberedAdd(ms, m, s, q);
    }
  }

  lemma AddDescribesLatest(ix: Index, ms: set<Message>, m: Message, s: NodeId)
    requires Describes(ix, ms)
    ensures var top := At(Add(ix, m).latest, s);
            && (top > 0 ==> Numbered(ms + {m}, s, top))
            && (forall q: nat :: Numbered(ms + {m}, s, q) ==> q <= top)
  {
    var top := At(Add(ix, m).latest, s);
    NumberedAdd(ms, m, s, top);
    forall q: nat | Numbered(ms + {m}, s, q) ensures q <= top {
      NumberedAdd(ms, m, s, q);
    }
  }

  lemma AddDescribes(ix: Index, ms: set<Message>, m: Message)
    requires Describes(ix, ms)
    ensures Describes(Add(ix, m), ms + {m})
  {
    AddDescribesIds(ix, ms, m);
    AddDescribesNumbers(ix, ms, m);
    forall s
      ensures At(Add(ix, m).latest, s) > 0 ==> Numbered(ms + {m}, s, At(Add(ix, m).latest, s))
      ensures forall q: nat :: Numbered(ms + {m}, s, q) ==> q <= At(Add(ix, m).latest, s)
    {
      AddDescribesLatest(ix, ms, m, s);
    }
  }

  lemma {:induction false} ScanDescribes(ms: seq<Message>)
    ensures Describes(Scan(ms), Elems(ms))
  {
    if ms != [] {
      var n := |ms| - 1;
      ScanDescribes(ms[..n]);
      AddDescribes(Scan(ms[..n]), Elems(ms[..n]), ms[n]);
      ElemsLast(ms);
    }
  }

  lemma LatestUnique(a: Index, b: Index, ms: set<Message>, s: NodeId)
    requires Describes(a, ms) && Describes(b, ms)
    ensures At(a.latest, s) <= At(b.latest, s)
  {
    if At(a.latest, s) > 0 {
      assert Numbered(ms, s, At(a.latest, s));
    }
  }

  /** The meaning determines the indexes. */
  lemma DescribesUnique(a: Index, b: Index, ms: set<Message>)
    requires Describes(a, ms) && Describes(b, ms)
    ensures a == b
  {
    forall s ensures At(a.latest, s) == At(b.latest, s) && NumbersOf(a, s) == NumbersOf(b, s) {
      LatestUnique(a, b, ms, s);
      LatestUnique(b, a, ms, s);
      assert forall q: nat :: q in NumbersOf(a, s) <==> q in NumbersOf(b, s);
    }
    forall s ensures s in a.seqs <==> s in b.seqs {
      assert s in a.seqs <==> NumbersOf(a, s) != {};
      assert s in b.seqs <==> NumbersOf(b, s) != {};
    }
    forall s ensures s in a.latest <==> s in b.latest {
      assert s in a.latest <==> At(a.latest, s) > 0;
      assert s in b.latest <==> At(b.latest, s) > 0;
    }
    assert a.seqs == b.seqs by {
      forall s | s in a.seqs ensures a.seqs[s] == b.seqs[s] {
        assert NumbersOf(a, s) == NumbersOf(b, s);
      }
    }
    assert a.latest == b.latest by {
      forall s | s in a.latest ensures a.latest[s] == b.latest[s] {
        assert At(a.latest, s) == At(b.latest, s);
      }
    }
  }

  /** Some sender's numbers do not run from 1 without a hole. */
  predicate Gaps(seqs: map<NodeId, set<nat>>) {
    exists s | s in seqs :: GapIn(seqs[s])
  }

  predicate GapIn(qs: set<nat>) {
    exists q | q in qs :: exists k: nat | 1 <= k <= q :: k !in qs
  }

  // ---- The operations ----

  datatype Store = Store(disk: Disk, index: Index, force: bool, needs: bool, threshold: int)

  function Damaged(d: Disk): bool {
    UnreadableSnapshot(d) || MissingSnapshot(d) || GarbledLog(d) || Gaps(Scan(Contents(d)).seqs)
  }

  /** Reconcile the indexes with what is readable, remembering signs of damage. */
  function Repair(st: Store): Store {
    var ix := Scan(Contents(st.disk));
    var alarm := Damaged(st.disk) || !(st.index.ids <= ix.ids);
    st.(index := ix, force := st.force || alarm, needs := st.needs || alarm)
  }

  /** The recovery cursor handed to peers. */
  function Cursor(st: Store): (Clock, Store) {
    var r := Repair(st);
    if r.force && Gaps(r.index.seqs) then (map[], r) else (r.index.latest, r.(force := false))
  }

  function NextNumber(ss: seq<Snapshot>): nat {
    if ss == [] then 1
    else
      var n := NextNumber(ss[..|ss| - 1]);
      if ss[|ss| - 1].number >= n then ss[|ss| - 1].number + 1 else n
  }

  function Written(number: nat, ms: seq<Message>): Snapshot {
    Snapshot(number, true, true, ms, |ms|)
  }

  /** Move the active log into a new snapshot. */
  function Compact(st: Store): Store {
    var ms := FromLines(st.disk.active);
    if ms == [] then st
    else
      var d := Disk(st.disk.snapshots + [Written(NextNumber(st.disk.snapshots), ms)], []);
      st.(disk := d, index := Scan(ReadAll(d)))
  }

  function MaybeCompact(st: Store): Store {
    if st.threshold > 0 && |FromLines(st.disk.active)| >= st.threshold then Compact(st) else st
  }

  function Lines(ms: seq<Message>): (ls: seq<Line>)
    ensures |ls| == |ms| && forall i | 0 <= i < |ms| :: ls[i] == Entry(ms[i])
  {
    seq(|ms|, i requires 0 <= i < |ms| => Entry(ms[i]))
  }

  /** Full pieces become snapshots numbered from `number`; the remainder is the active log. */
  function Pieces(ms: seq<Message>, size: nat, number: nat): Disk
    requires size > 0
    decreases |ms|
  {
    if |ms| < size then Disk([], Lines(ms))
    else
      var rest := Pieces(ms[size..], size, number + 1);
      Disk([Written(number, ms[..size])] + rest.snapshots, rest.active)
  }

  /** Rewrite all snapshots and the active log from the readable messages, in listing order. */
  function Rebuild(st: Store): Store {
    var ms := ReadAll(st.disk);
    if ms == [] then st
    else
      var d := Pieces(ms, if st.threshold > 0 then st.threshold else |ms|, 1);
      st.(disk := d, index := Scan(ReadAll(d)), force := false, needs := false)
  }

  function MaybeRebuild(st: Store): Store {
    if Gaps(st.index.seqs) then st else Rebuild(st)
  }

  function Appended(st: Store, m: Message): Store {
    st.(disk := st.disk.(active := st.disk.active + [Entry(m)]), index := Add(st.index, m))
  }

  function Save(st: Store, m: Message): Store {
    if m.id in st.index.ids then st
    else
      var a := Appended(st, m);
      if a.needs then MaybeRebuild(a) else MaybeCompact(a)
  }

  function SaveEach(st: Store, items: seq<Item>): Store {
    if items == [] then st
    else
      var r := SaveEach(st, items[..|items| - 1]);
      if items[|items| - 1].Valid? then Save(r, items[|items| - 1].msg) else r
  }

  function SaveMany(st: Store, items: seq<Item>): Store {
    var r := SaveEach(st, items);
    if r.needs then MaybeRebuild(r) else r
  }

  function InvalidCount(items: seq<Item>): nat {
    if items == [] then 0 else InvalidCount(items[..|items| - 1]) + (if items[|items| - 1].Invalid? then 1 else 0)
  }

  /** How many elements are new to the store when their turn comes. */
  function SavedCount(st: Store, items: seq<Item>): nat {
    if items == [] then 0
    else
      var front, last := items[..|items| - 1], items[|items| - 1];
      SavedCount(st, front) + (if last.Valid? && last.msg.id !in SaveEach(st, front).index.ids then 1 else 0)
  }

  // ---- What the operations do to the readable messages ----

  lemma {:induction false} FromLinesOfLines(ms: seq<Message>)
    ensures FromLines(Lines(ms)) == ms
  {
    if ms != [] {
      var n := |ms| - 1;
      assert Lines(ms)[..n] == Lines(ms[..n]);
      FromLinesOfLines(ms[..n]);
    }
  }

  lemma FromLinesSnoc(ls: seq<Line>, m: Message)
    ensures FromLines(ls + [Entry(m)]) == FromLines(ls) + [m]
  {
    assert (ls + [Entry(m)])[..|ls|] == ls;
  }

  lemma AppendReadable(st: Store, m: Message)
    ensures Readable(Appended(st, m).disk) == Readable(st.disk) + [m]
  {
    FromLinesSnoc(st.disk.active, m);
  }

  lemma CompactReadable(st: Store)
    ensures Readable(Compact(st).disk) == Readable(st.disk)
  {
    var ms := FromLines(st.disk.active);
    if ms != [] {
      var ss := st.disk.snapshots;
      var s := Written(NextNumber(ss), ms);
      assert (ss + [s])[..|ss|] == ss;
    }
  }

  lemma FromSnapshotsSnoc(ss: seq<Snapshot>, s: Snapshot)
    ensures FromSnapshots(ss + [s]) == FromSnapshots(ss) + SnapshotMessages(s)
  {
    assert (ss + [s])[..|ss|] == ss;
  }

  lemma {:induction false} FromSnapshotsCons(s: Snapshot, ss: seq<Snapshot>)
    ensures FromSnapshots([s] + ss) == SnapshotMessages(s) + FromSnapshots(ss)
  {
    if ss == [] {
      FromSnapshotsSnoc([], s);
      assert [s] + ss == [] + [s];
    } else {
      var front, last := ss[..|ss| - 1], ss[|ss| - 1];
      assert [s] + ss == ([s] + front) + [last] && ss == front + [last];
      FromSnapshotsCons(s, front);
      FromSnapshotsSnoc([s] + front, last);
      FromSnapshotsSnoc(front, last);
      Associative(SnapshotMessages(s), FromSnapshots(front), SnapshotMessages(last));
    }
  }

  lemma PieceReadable(number: nat, head: seq<Message>, rest: Disk)
    ensures Readable(Disk([Written(number, head)] + rest.snapshots, rest.active)) == head + Readable(rest)
  {
    FromSnapshotsCons(Written(number, head), rest.snapshots);
    Associative(head, FromSnapshots(rest.snapshots), FromLines(rest.active));
  }

  lemma LastPieceReadable(ms: seq<Message>)
    ensures Readable(Disk([], Lines(ms))) == ms
  {
    FromLinesOfLines(ms);
    assert [] + ms == ms;
  }

  lemma {:induction false} PiecesReadable(ms: seq<Message>, size: nat, number: nat)
    requires size > 0
    ensures Readable(Pieces(ms, size, number)) == ms
    decreases |ms|
  {
    if |ms| < size {
      LastPieceReadable(ms);
    } else {
      PiecesReadable(ms[size..], size, number + 1);
      var rest := Pieces(ms[size..], size, number + 1);
      assert Pieces(ms, size, number) == Disk([Written(number, ms[..size])] + rest.snapshots, rest.active);
      PieceReadable(number, ms[..size], rest);
      assert ms == ms[..size] + ms[size..];
    }
  }

  /** A rebuild rewrites the disk to exactly the listing. */
  lemma RebuildContents(st: Store)
    requires ReadAll(st.disk) != []
    ensures Readable(Rebuild(st).disk) == ReadAll(st.disk) && Contents(Rebuild(st).disk) == ReadAll(st.disk)
  {
    var ms := ReadAll(st.disk);
    PiecesReadable(ms, if st.threshold > 0 then st.threshold else |ms|, 1);
    DedupeUnique(Readable(st.disk));
    SortUnique(Contents(st.disk));
    DedupeOfUnique(ms);
  }

  // ---- Refinement of one list ----

  /** The indexes describe what is readable. */
  ghost predicate Synced(st: Store) {
    Describes(st.index, Elems(Contents(st.disk)))
  }

  /** The store lists what the abstract list `saved` lists. */
  ghost predicate Refines(st: Store, saved: seq<Message>) {
    && Synced(st) && UniqueIds(saved)
    && ReadAll(st.disk) == StableSort(saved)
    && Elems(Contents(st.disk)) == Elems(saved)
  }

  lemma RepairSyncs(st: Store)
    ensures Synced(Repair(st))
  {
    ScanDescribes(Contents(st.disk));
  }

  /** A fresh store, or one opened on any disk, refines the list of its readable messages. */
  lemma RepairRefines(st: Store)
    ensures Refines(Repair(st), Contents(st.disk))
  {
    RepairSyncs(st);
    DedupeUnique(Readable(st.disk));
  }

  lemma CompactRefines(st: Store, saved: seq<Message>)
    requires Refines(st, saved)
    ensures Refines(Compact(st), saved)
  {
    CompactReadable(st);
    RescanSyncs(Compact(st).disk);
  }

  /** Rescanning the listing gives the meaning of the contents. */
  lemma RescanSyncs(d: Disk)
    ensures Describes(Scan(ReadAll(d)), Elems(Contents(d)))
  {
    DedupeUnique(Readable(d));
    SortUnique(Contents(d));
    ScanDescribes(ReadAll(d));
  }

  lemma RebuildRefines(st: Store, saved: seq<Message>)
    requires Refines(st, saved)
    ensures Refines(Rebuild(st), saved)
  {
    if ReadAll(st.disk) != [] {
      var d := Rebuild(st).disk;
      RebuildContents(st);
      DedupeUnique(Readable(st.disk));
      SortIsStable(Contents(st.disk));
      SortUnique(Contents(st.disk));
      SortOfSorted(ReadAll(st.disk));
      RescanSyncs(d);
    }
  }

  lemma AppendContents(st: Store, saved: seq<Message>, m: Message)
    requires Refines(st, saved) && m.id !in st.index.ids
    ensures Contents(Appended(st, m).disk) == Contents(st.disk) + [m] && m.id !in IdsOf(saved)
  {
    AppendReadable(st, m);
    DedupeSnoc(Readable(st.disk), m);
    IdsAgree(st, saved);
  }

  lemma AppendRefines(st: Store, saved: seq<Message>, m: Message)
    requires Refines(st, saved) && m.id !in st.index.ids
    ensures Refines(Appended(st, m), saved + [m])
  {
    var c := Contents(st.disk);
    AppendContents(st, saved, m);
    assert ReadAll(Appended(st, m).disk) == StableSort(saved + [m]) by {
      SortSnoc(c, m);
      SortSnoc(saved, m);
    }
    UniqueSnoc(saved, m);
    assert Elems(c + [m]) == Elems(c) + {m} == Elems(saved + [m]) by {
      IdsSnoc(c, m);
      IdsSnoc(saved, m);
    }
    AddDescribes(st.index, Elems(c), m);
  }

  lemma IdsAgree(st: Store, saved: seq<Message>)
    requires Refines(st, saved)
    ensures st.index.ids == IdsOf(saved) == IdsOf(Contents(st.disk))
  {
    assert IdsOf(saved) == set m | m in Elems(saved) :: m.id;
    assert IdsOf(Contents(st.disk)) == set m | m in Elems(Contents(st.disk)) :: m.id;
  }

  /** The abstract save. */
  function Put(saved: seq<Message>, m: Message): seq<Message> {
    if m.id in IdsOf(saved) then saved else saved + [m]
  }

  function PutEach(saved: seq<Message>, items: seq<Item>): seq<Message> {
    if items == [] then saved
    else
      var r := PutEach(saved, items[..|items| - 1]);
      if items[|items| - 1].Valid? then Put(r, items[|items| - 1].msg) else r
  }

  lemma SaveRefines(st: Store, saved: seq<Message>, m: Message)
    requires Refines(st, saved)
    ensures Refines(Save(st, m), Put(saved, m))
  {
    IdsAgree(st, saved);
    if m.id !in st.index.ids {
      AppendRefines(st, saved, m);
      ReorganisedRefines(Appended(st, m), saved + [m]);
    }
  }

  lemma ReorganisedRefines(st: Store, saved: seq<Message>)
    requires Refines(st, saved)
    ensures Refines(if st.needs then MaybeRebuild(st) else MaybeCompact(st), saved)
  {
    if st.needs {
      RebuildRefines(st, saved);
    } else {
      CompactRefines(st, saved);
    }
  }

  lemma {:induction false} SaveEachRefines(st: Store, saved: seq<Message>, items: seq<Item>)
    requires Refines(st, saved)
    ensures Refines(SaveEach(st, items), PutEach(saved, items))
  {
    if items != [] {
      var n := |items| - 1;
      SaveEachRefines(st, saved, items[..n]);
      if items[n].Valid? {
        SaveRefines(SaveEach(st, items[..n]), PutEach(saved, items[..n]), items[n].msg);
      }
    }
  }

  lemma SaveManyRefines(st: Store, saved: seq<Message>, items: seq<Item>)
    requires Refines(st, saved)
    ensures Refines(SaveMany(st, items), PutEach(saved, items))
  {
    SaveEachRefines(st, saved, items);
    RebuildRefines(SaveEach(st, items), PutEach(saved, items));
  }

  lemma PutCounts(saved: seq<Message>, m: Message)
    ensures |Put(saved, m)| == |saved| + (if m.id in IdsOf(saved) then 0 else 1)
  {
  }

  /** Each saved element is one more message in the store, and nothing else is. */
  lemma {:induction false} SavedIsGrowth(st: Store, saved: seq<Message>, items: seq<Item>)
    requires Refines(st, saved)
    ensures |PutEach(saved, items)| == |saved| + SavedCount(st, items)
  {
    if items != [] {
      var n := |items| - 1;
      SavedIsGrowth(st, saved, items[..n]);
      SaveEachRefines(st, saved, items[..n]);
      IdsAgree(SaveEach(st, items[..n]), PutEach(saved, items[..n]));
      if items[n].Valid? {
        PutCounts(PutEach(saved, items[..n]), items[n].msg);
      }
    }
  }

  lemma CursorRefines(st: Store, saved: seq<Message>)
    requires Refines(st, saved)
    ensures Refines(Cursor(st).1, saved) && Cursor(st).1.disk == st.disk
  {
    RepairSyncs(st);
  }

  /** Opening the store again, with whatever the index and flag files hold by then. */
  function Reopen(st: Store, index: Index, force: bool, needs: bool): Store {
    Repair(st.(index := index, force := force, needs := needs))
  }

  datatype Op =
    | SaveOne(msg: Message)
    | SaveBatch(items: seq<Item>)
    | AskCursor
    | Restart(index: Index, force: bool, needs: bool)

  function Step(st: Store, op: Op): Store {
    match op
    case SaveOne(m) => Save(st, m)
    case SaveBatch(items) => SaveMany(st, items)
    case AskCursor => Cursor(st).1
    case Restart(index, force, needs) => Reopen(st, index, force, needs)
  }

  function RunOps(st: Store, ops: seq<Op>): Store {
    if ops == [] then st else Step(RunOps(st, ops[..|ops| - 1]), ops[|ops| - 1])
  }

  function ListStep(saved: seq<Message>, op: Op): seq<Message> {
    match op
    case SaveOne(m) => Put(saved, m)
    case SaveBatch(items) => PutEach(saved, items)
    case AskCursor => saved
    case Restart(_, _, _) => saved
  }

  function RunList(saved: seq<Message>, ops: seq<Op>): seq<Message> {
    if ops == [] then saved else ListStep(RunList(saved, ops[..|ops| - 1]), ops[|ops| - 1])
  }

  lemma StepRefines(st: Store, saved: seq<Message>, op: Op)
    requires Refines(st, saved)
    ensures Refines(Step(st, op), ListStep(saved, op))
  {
    match op
    case SaveOne(m) => SaveRefines(st, saved, m);
    case SaveBatch(items) => SaveManyRefines(st, saved, items);
    case AskCursor => CursorRefines(st, saved);
    case Restart(index, force, needs) => RepairSyncs(st.(index := index, force := force, needs := needs));
  }

  lemma {:induction false} RunRefines(st: Store, saved: seq<Message>, ops: seq<Op>)
    requires Refines(st, saved)
    ensures Refines(RunOps(st, ops), RunList(saved, ops))
  {
    if ops != [] {
      RunRefines(st, saved, ops[..|ops| - 1]);
      StepRefines(RunOps(st, ops[..|ops| - 1]), RunList(saved, ops[..|ops| - 1]), ops[|ops| - 1]);
    }
  }

  /**
    Over every run on an undamaged disk: reads return the stable timestamp sort
    of the saved list, its ids are distinct, and the indexes equal a full rescan.
   */
  lemma StoreIsOneList(st: Store, ops: seq<Op>)
    ensures var r := RunOps(Repair(st), ops); var saved := RunList(Contents(st.disk), ops);
            && UniqueIds(saved)
            && ReadAll(r.disk) == StableSort(saved)
            && r.index == Scan(saved)
  {
    RepairRefines(st);
    RunRefines(Repair(st), Contents(st.disk), ops);
    var saved := RunList(Contents(st.disk), ops);
    ScanDescribes(saved);
    DescribesUnique(RunOps(Repair(st), ops).index, Scan(saved), Elems(saved));
  }

  /** Compaction and rebuild change no read. */
  lemma ReorganisingIsInvisible(st: Store)
    requires Synced(st)
    ensures ReadAll(Compact(st).disk) == ReadAll(st.disk) && ReadAll(Rebuild(st).disk) == ReadAll(st.disk)
    ensures Compact(st).index == Rebuild(st).index == st.index
  {
    DedupeUnique(Readable(st.disk));
    var saved := Contents(st.disk);
    CompactRefines(st, saved);
    RebuildRefines(st, saved);
    DescribesUnique(Compact(st).index, st.index, Elems(saved));
    DescribesUnique(Rebuild(st).index, st.index, Elems(saved));
  }

  // ---- The cursor ----

  /** Everything up to the cursor is readable. */
  ghost predicate GapFree(c: Clock, ms: seq<Message>) {
    forall s, k: nat | 1 <= k <= At(c, s) :: Numbered(Elems(ms), s, k)
  }

  lemma NoGapsCovers(ix: Index, ms: seq<Message>)
    requires Describes(ix, Elems(ms)) && !Gaps(ix.seqs)
    ensures GapFree(ix.latest, ms)
  {
    forall s, k: nat | 1 <= k <= At(ix.latest, s) ensures Numbered(Elems(ms), s, k) {
      var q := At(ix.latest, s);
      assert q in NumbersOf(ix, s);
      assert !GapIn(ix.seqs[s]);
      assert k in NumbersOf(ix, s);
    }
  }

  /**
    Whatever is on disk, in the index files and in the flags, the cursor handed
    out is gap-free: empty, or the latest numbers with everything below readable.
   */
  lemma CursorIsGapFree(st: Store)
    ensures var c := Cursor(st).0;
            && GapFree(c, Contents(st.disk)) && GapFree(c, Readable(st.disk))
            && (c == map[] || c == Scan(Contents(st.disk)).latest)
  {
    var r := Repair(st);
    RepairSyncs(st);
    if !(r.force && Gaps(r.index.seqs)) {
      assert !Gaps(r.index.seqs);
      NoGapsCovers(r.index, Contents(st.disk));
    }
    DedupeUnique(Readable(st.disk));
    forall s, k: nat | Numbered(Elems(Contents(st.disk)), s, k) ensures Numbered(Elems(Readable(st.disk)), s, k) {
      var m :| m in Elems(Contents(st.disk)) && m.sender == s && m.Seq() == k;
      assert m in Elems(Readable(st.disk));
    }
  }

  /** The cursor is empty exactly when nothing is numbered or some sender's numbers have a hole. */
  lemma CursorIsEmptyIff(st: Store)
    ensures Cursor(st).0 == map[] <==>
            Gaps(Scan(Contents(st.disk)).seqs) || Scan(Contents(st.disk)).latest == map[]
  {
  }

  // ---- Snapshot numbers ----

  /** File-name order is number order: each snapshot is numbered above the ones before it. */
  ghost predicate Ascending(ss: seq<Snapshot>) {
    forall i, j | 0 <= i < j < |ss| :: ss[i].number < ss[j].number
  }

  lemma {:induction false} NextNumberIsAbove(ss: seq<Snapshot>, i: nat)
    requires i < |ss|
    ensures ss[i].number < NextNumber(ss)
  {
    if i < |ss| - 1 {
      NextNumberIsAbove(ss[..|ss| - 1], i);
    }
  }

  lemma CompactAscends(st: Store)
    requires Ascending(st.disk.snapshots)
    ensures Ascending(Compact(st).disk.snapshots)
  {
    var ss := st.disk.snapshots;
    forall i | 0 <= i < |ss| ensures ss[i].number < NextNumber(ss) {
      NextNumberIsAbove(ss, i);
    }
  }

  lemma {:induction false} PiecesAscend(ms: seq<Message>, size: nat, number: nat)
    requires size > 0
    ensures var ss := Pieces(ms, size, number).snapshots;
            Ascending(ss) && forall i | 0 <= i < |ss| :: ss[i].number >= number
    decreases |ms|
  {
    if |ms| >= size {
      PiecesAscend(ms[size..], size, number + 1);
    }
  }

  lemma MaybeRebuildAscends(st: Store)
    requires Ascending(st.disk.snapshots)
    ensures Ascending(MaybeRebuild(st).disk.snapshots)
  {
    var ms := ReadAll(st.disk);
    if ms != [] {
      PiecesAscend(ms, if st.threshold > 0 then st.threshold else |ms|, 1);
    }
  }

  lemma SaveAscends(st: Store, m: Message)
    requires Ascending(st.disk.snapshots)
    ensures Ascending(Save(st, m).disk.snapshots)
  {
    var a := Appended(st, m);
    MaybeRebuildAscends(a);
    CompactAscends(a);
  }

  lemma {:induction false} SaveEachAscends(st: Store, items: seq<Item>)
    requires Ascending(st.disk.snapshots)
    ensures Ascending(SaveEach(st, items).disk.snapshots)
  {
    if items != [] {
      var n := |items| - 1;
      SaveEachAscends(st, items[..n]);
      if items[n].Valid? {
        SaveAscends(SaveEach(st, items[..n]), items[n].msg);
      }
    }
  }

  /** Over every run of the store, snapshot numbers stay strictly ascending, so no snapshot overwrites another. */
  lemma {:induction false} RunKeepsNumbersAscending(st: Store, ops: seq<Op>)
    requires Ascending(st.disk.snapshots)
    ensures Ascending(RunOps(st, ops).disk.snapshots)
  {
    if ops != [] {
      var front := RunOps(st, ops[..|ops| - 1]);
      RunKeepsNumbersAscending(st, ops[..|ops| - 1]);
      match ops[|ops| - 1]
      case SaveOne(m) => SaveAscends(front, m);
      case SaveBatch(items) =>
        SaveEachAscends(front, items);
        MaybeRebuildAscends(SaveEach(front, items));
      case AskCursor =>
      case Restart(_, _, _) =>
    }
  }

  // ---- Holes in the numbers ----

  /** Some sender has a number with a lower one missing. */
  ghost predicate HasHole(ms: set<Message>) {
    exists s, q: nat, k: nat :: Numbered(ms, s, q) && 1 <= k <= q && !Numbered(ms, s, k)
  }

  lemma GapsAreHoles(ms: seq<Message>)
    ensures Gaps(Scan(ms).seqs) <==> HasHole(Elems(ms))
  {
    var ix := Scan(ms);
    ScanDescribes(ms);
    if Gaps(ix.seqs) {
      var s :| s in ix.seqs && GapIn(ix.seqs[s]);
      var q :| q in ix.seqs[s] && exists k: nat | 1 <= k <= q :: k !in ix.seqs[s];
      var k: nat :| 1 <= k <= q && k !in ix.seqs[s];
      assert q in NumbersOf(ix, s) && k !in NumbersOf(ix, s);
    }
    if HasHole(Elems(ms)) {
      var s, q: nat, k: nat :| Numbered(Elems(ms), s, q) && 1 <= k <= q && !Numbered(Elems(ms), s, k);
      assert q in NumbersOf(ix, s) && k !in NumbersOf(ix, s);
      assert GapIn(ix.seqs[s]);
    }
  }

  // ---- When the damage flags are raised ----

  /** How many messages a listed snapshot still yields. */
  function Yield(s: Snapshot): nat { if s.dataReadable then |s.messages| else 0 }

  /**
    The signs of damage, read off the disk: a line of the active log that is
    not a message, a listed snapshot with fewer messages than it names, a
    number between two listed snapshots that no listed snapshot has, a hole in
    some sender's numbers, or an id once known that nothing readable has.
   */
  ghost predicate Suspicious(d: Disk, known: set<MsgId>) {
    || (exists i | 0 <= i < |d.active| :: d.active[i] == Garbled)
    || (exists i | 0 <= i < |d.snapshots| ::
          d.snapshots[i].metaReadable && Yield(d.snapshots[i]) < d.snapshots[i].expected)
    || Skips(ListedNumbers(d))
    || HasHole(Elems(Contents(d)))
    || (exists id | id in known :: forall m | m in Readable(d) :: m.id != id)
  }

  /** The numbers of the listed snapshots. */
  ghost function ListedNumbers(d: Disk): set<nat> {
    set i | 0 <= i < |d.snapshots| && d.snapshots[i].metaReadable :: d.snapshots[i].number
  }

  ghost predicate Skips(numbers: set<nat>) {
    exists a, b | a in numbers && b in numbers :: exists n | a < n < b :: n !in numbers
  }

  lemma UnreadableIff(d: Disk)
    ensures UnreadableSnapshot(d) <==>
            exists i | 0 <= i < |d.snapshots| ::
              d.snapshots[i].metaReadable && Yield(d.snapshots[i]) < d.snapshots[i].expected
  {
  }

  lemma ListedIff(d: Disk, n: nat)
    ensures n in ListedNumbers(d) <==> Listed(d, n)
  {
  }

  lemma MissingSkips(d: Disk)
    requires MissingSnapshot(d)
    ensures Skips(ListedNumbers(d))
  {
    var i, j :| 0 <= i < |d.snapshots| && 0 <= j < |d.snapshots| &&
      d.snapshots[i].metaReadable && d.snapshots[j].metaReadable &&
      exists n | d.snapshots[i].number < n < d.snapshots[j].number :: !Listed(d, n);
    var a, b := d.snapshots[i].number, d.snapshots[j].number;
    var n :| a < n < b && !Listed(d, n);
    ListedIff(d, a);
    ListedIff(d, b);
    ListedIff(d, n);
  }

  lemma SkipsIsMissing(d: Disk)
    requires Skips(ListedNumbers(d))
    ensures MissingSnapshot(d)
  {
    var numbers := ListedNumbers(d);
    var a, b :| a in numbers && b in numbers && exists n | a < n < b :: n !in numbers;
    var n :| a < n < b && n !in numbers;
    var i :| 0 <= i < |d.snapshots| && d.snapshots[i].metaReadable && d.snapshots[i].number == a;
    var j :| 0 <= j < |d.snapshots| && d.snapshots[j].metaReadable && d.snapshots[j].number == b;
    ListedIff(d, n);
  }

  lemma SkipsIff(d: Disk)
    ensures MissingSnapshot(d) <==> Skips(ListedNumbers(d))
  {
    if MissingSnapshot(d) {
      MissingSkips(d);
    }
    if Skips(ListedNumbers(d)) {
      SkipsIsMissing(d);
    }
  }

  lemma LostIdIff(d: Disk, known: set<MsgId>)
    ensures known <= Scan(Contents(d)).ids <==> !exists id | id in known :: forall m | m in Readable(d) :: m.id != id
  {
    ScanDescribes(Contents(d));
    DedupeUnique(Readable(d));
    var ids := Scan(Contents(d)).ids;
    assert ids == IdsOf(Contents(d)) by {
      assert IdsOf(Contents(d)) == set m | m in Elems(Contents(d)) :: m.id;
    }
    forall id ensures id in ids <==> exists m :: m in Readable(d) && m.id == id {
      assert id in ids <==> id in IdsOf(Readable(d));
    }
  }

  /** After a repair each flag is raised if and only if it was before or the disk looks damaged. */
  lemma RepairRaisesIff(st: Store)
    ensures var r := Repair(st);
            && (r.force <==> st.force || Suspicious(st.disk, st.index.ids))
            && (r.needs <==> st.needs || Suspicious(st.disk, st.index.ids))
            && r.disk == st.disk && r.threshold == st.threshold
  {
    UnreadableIff(st.disk);
    SkipsIff(st.disk);
    LostIdIff(st.disk, st.index.ids);
    GapsAreHoles(Contents(st.disk));
  }

  /** Handing out a cursor leaves the force flag up exactly while some sender's numbers have a hole. */
  lemma CursorLeavesForceIff(st: Store)
    ensures Cursor(st).1.force <==> HasHole(Elems(Contents(st.disk)))
    ensures Cursor(st).1.needs == Repair(st).needs && Cursor(st).1.disk == st.disk
  {
    GapsAreHoles(Contents(st.disk));
  }

  // ---- What a rebuild and a compaction leave on disk ----

  /** Every file is whole, the snapshots are numbered from `number` without a gap and hold `size` messages each. */
  ghost predicate Tidy(d: Disk, size: nat, number: nat) {
    && (forall i | 0 <= i < |d.active| :: d.active[i] != Garbled)
    && (forall i | 0 <= i < |d.snapshots| :: TidyAt(d.snapshots[i], size, number + i))
  }

  ghost predicate TidyAt(s: Snapshot, size: nat, number: nat) {
    s.metaReadable && s.dataReadable && s.number == number && |s.messages| == s.expected == size
  }

  lemma {:induction false} PiecesAreTidy(ms: seq<Message>, size: nat, number: nat)
    requires size > 0
    ensures Tidy(Pieces(ms, size, number), size, number) && |Pieces(ms, size, number).active| < size
    decreases |ms|
  {
    if |ms| >= size {
      PiecesAreTidy(ms[size..], size, number + 1);
      var d, rest := Pieces(ms, size, number), Pieces(ms[size..], size, number + 1);
      forall i | 0 <= i < |d.snapshots| ensures TidyAt(d.snapshots[i], size, number + i) {
        if i > 0 {
          assert d.snapshots[i] == rest.snapshots[i - 1];
          assert TidyAt(rest.snapshots[i - 1], size, number + 1 + (i - 1));
        }
      }
    }
  }

  /** A tidy disk shows no sign of damage but possibly a hole in the numbers or a lost id. */
  lemma TidyShowsNoDamage(d: Disk, size: nat, number: nat)
    requires Tidy(d, size, number)
    ensures !Skips(ListedNumbers(d))
    ensures forall i | 0 <= i < |d.snapshots| :: Yield(d.snapshots[i]) >= d.snapshots[i].expected
  {
    var numbers := ListedNumbers(d);
    forall i | 0 <= i < |d.snapshots|
      ensures d.snapshots[i].number == number + i && Yield(d.snapshots[i]) >= d.snapshots[i].expected
    {
      assert TidyAt(d.snapshots[i], size, number + i);
    }
    forall a, b, n | a in numbers && b in numbers && a < n < b ensures n in numbers {
      assert TidyAt(d.snapshots[n - number], size, number + (n - number));
      assert d.snapshots[n - number].number == n;
    }
  }

  /**
    The first new message saved while a rebuild is due, if it leaves no sender
    gap, rewrites all files: every line and snapshot whole, numbered from 1,
    of the configured size, both flags down, and nothing suspicious left.
   */
  lemma NextSaveTidies(st: Store, m: Message)
    requires Synced(st) && st.needs && m.id !in st.index.ids && !HasHole(Elems(Contents(st.disk)) + {m})
    ensures var r := Save(st, m);
            && Tidy(r.disk, if st.threshold > 0 then st.threshold else |Contents(st.disk)| + 1, 1)
            && !r.force && !r.needs && !Suspicious(r.disk, r.index.ids)
            && Elems(Contents(r.disk)) == Elems(Contents(st.disk)) + {m}
  {
    var a, saved := Appended(st, m), Contents(st.disk);
    DedupeUnique(Readable(st.disk));
    AppendRefines(st, saved, m);
    RebuildRefines(a, saved + [m]);
    ElemsSnoc(saved, m);
    SyncedGapsAreHoles(a);
    RebuildTidies(a, saved + [m]);
    var r := Rebuild(a);
    assert Save(st, m) == r;
    NothingSuspicious(r, if st.threshold > 0 then st.threshold else |saved| + 1);
  }

  /** With a sender gap the files wait: the message is appended, nothing is rewritten, and both flags stay. */
  lemma NextSaveWaits(st: Store, m: Message)
    requires Synced(st) && st.needs && m.id !in st.index.ids && HasHole(Elems(Contents(st.disk)) + {m})
    ensures Save(st, m).disk == st.disk.(active := st.disk.active + [Entry(m)])
    ensures Save(st, m).needs && Save(st, m).force == st.force
  {
    var saved := Contents(st.disk);
    DedupeUnique(Readable(st.disk));
    AppendRefines(st, saved, m);
    ElemsSnoc(saved, m);
    SyncedGapsAreHoles(Appended(st, m));
  }

  /** A batch ends with a rebuild if one is still due, even when it brought nothing new, unless a sender gap is left. */
  lemma BatchTidies(st: Store, items: seq<Item>)
    requires Synced(st) && SaveEach(st, items).needs
    ensures var mid, r := SaveEach(st, items), SaveMany(st, items);
            if HasHole(Elems(Contents(mid.disk))) || Contents(mid.disk) == [] then r == mid
            else
              && Tidy(r.disk, if st.threshold > 0 then st.threshold else |Contents(mid.disk)|, 1)
              && !r.force && !r.needs && !Suspicious(r.disk, r.index.ids)
              && Elems(Contents(r.disk)) == Elems(Contents(mid.disk))
  {
    var mid, saved := SaveEach(st, items), Contents(SaveEach(st, items).disk);
    DedupeUnique(Readable(st.disk));
    SaveEachRefines(st, Contents(st.disk), items);
    ThresholdStays(st, items);
    SyncedGapsAreHoles(mid);
    DedupeUnique(Readable(mid.disk));
    if saved == [] {
      assert ReadAll(mid.disk) == [];
    } else if !HasHole(Elems(saved)) {
      RebuildRefines(mid, saved);
      RebuildTidies(mid, saved);
      NothingSuspicious(Rebuild(mid), if st.threshold > 0 then st.threshold else |saved|);
    }
  }

  lemma {:induction false} ThresholdStays(st: Store, items: seq<Item>)
    ensures SaveEach(st, items).threshold == st.threshold
  {
    if items != [] {
      ThresholdStays(st, items[..|items| - 1]);
    }
  }

  /** Opening the store again raises each flag if it was stored as raised or the disk looks damaged. */
  lemma ReopenRaisesIff(st: Store, index: Index, force: bool, needs: bool)
    ensures var r := Reopen(st, index, force, needs);
            && (r.force <==> force || Suspicious(st.disk, index.ids))
            && (r.needs <==> needs || Suspicious(st.disk, index.ids))
            && r.disk == st.disk && Synced(r)
  {
    RepairRaisesIff(st.(index := index, force := force, needs := needs));
    RepairSyncs(st.(index := index, force := force, needs := needs));
  }

  lemma SyncedGapsAreHoles(st: Store)
    requires Synced(st)
    ensures Gaps(st.index.seqs) <==> HasHole(Elems(Contents(st.disk)))
  {
    var c := Contents(st.disk);
    ScanDescribes(c);
    DescribesUnique(st.index, Scan(c), Elems(c));
    GapsAreHoles(c);
  }

  lemma RebuildTidies(st: Store, saved: seq<Message>)
    requires Refines(st, saved) && saved != []
    ensures var r := Rebuild(st);
            Tidy(r.disk, if st.threshold > 0 then st.threshold else |saved|, 1) && !r.force && !r.needs
  {
    SortIsStable(saved);
    assert |multiset(StableSort(saved))| == |StableSort(saved)| && |multiset(saved)| == |saved|;
    PiecesAreTidy(ReadAll(st.disk), if st.threshold > 0 then st.threshold else |saved|, 1);
  }

  lemma NothingSuspicious(r: Store, size: nat)
    requires Synced(r) && Tidy(r.disk, size, 1) && !HasHole(Elems(Contents(r.disk)))
    ensures !Suspicious(r.disk, r.index.ids)
  {
    var c := Contents(r.disk);
    TidyShowsNoDamage(r.disk, size, 1);
    ScanDescribes(c);
    DescribesUnique(r.index, Scan(c), Elems(c));
    LostIdIff(r.disk, r.index.ids);
  }

  /**
    A new message saved while no rebuild is due: the log is compacted exactly
    when it has reached the threshold, and then all of it, the new message
    included, becomes one new snapshot numbered above every other.
   */
  lemma SaveCompactsIff(st: Store, m: Message)
    requires !st.needs && m.id !in st.index.ids
    ensures var r := Save(st, m); var log := FromLines(st.disk.active) + [m]; var ss := st.disk.snapshots;
            if st.threshold > 0 && |log| >= st.threshold
            then
              && r.disk.active == [] && |r.disk.snapshots| == |ss| + 1 && r.disk.snapshots[..|ss|] == ss
              && var s := r.disk.snapshots[|ss|];
                 s.metaReadable && s.dataReadable && s.messages == log && s.expected == |log| &&
                 forall i | 0 <= i < |ss| :: ss[i].number < s.number
            else r.disk == Disk(ss, st.disk.active + [Entry(m)])
    ensures Save(st, m).force == st.force && Save(st, m).needs == st.needs
  {
    var ss := st.disk.snapshots;
    FromLinesSnoc(st.disk.active, m);
    forall i | 0 <= i < |ss| ensures ss[i].number < NextNumber(ss) {
      NextNumberIsAbove(ss, i);
    }
  }

  /** The invalid elements of a batch are those that are not messages. */
  lemma {:induction false} InvalidAreCounted(items: seq<Item>)
    ensures InvalidCount(items) == multiset(items)[Invalid]
  {
    if items != [] {
      InvalidAreCounted(items[..|items| - 1]);
      assert items == items[..|items| - 1] + [items[|items| - 1]];
    }
  }
}
