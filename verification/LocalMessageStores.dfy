/**
  The store object: the loops over files and indexes, each proved to compute
  the corresponding operation of `StoreModel`, and the chunks a provider builds.
 */
module LocalMessageStores {
  import opened Clocks
  import opened Listing
  import opened Sequences
  import S = StoreModel

  // ---- History chunks ----

  datatype Chunk = Chunk(chunkId: nat, isLast: bool, messages: seq<Message>)

  datatype ChunkResult = Chunks(chunks: seq<Chunk>) | BadChunkSize

  /** What a peer with this cursor lacks, in listing order. */
  function Missing(ms: seq<Message>, have: Clock): seq<Message> {
    if ms == [] then []
    else
      var m := ms[|ms| - 1];
      Missing(ms[..|ms| - 1], have) + (if m.Seq() > At(have, m.sender) then [m] else [])
  }

  function Split(ms: seq<Message>, size: nat, id: nat): seq<Chunk>
    requires size > 0
    decreases |ms|
  {
    if ms == [] then []
    else if |ms| <= size then [Chunk(id, true, ms)]
    else [Chunk(id, false, ms[..size])] + Split(ms[size..], size, id + 1)
  }

  function From(ms: seq<Message>, start: nat): seq<Message> {
    if start <= |ms| then ms[start..] else []
  }

  /** One more piece is cut off. */
  lemma SplitStep(ms: seq<Message>, start: nat, size: nat, id: nat)
    requires size > 0 && start < |ms|
    ensures var stop := if start + size < |ms| then start + size else |ms|;
            Split(From(ms, start), size, id) ==
            [Chunk(id, start + size >= |ms|, ms[start..stop])] + Split(From(ms, start + size), size, id + 1)
  {
    var rest := ms[start..];
    if |rest| <= size {
      assert From(ms, start + size) == [];
      assert Split([], size, id + 1) == [];
      assert ms[start..|ms|] == rest;
      assert [Chunk(id, true, rest)] + [] == [Chunk(id, true, rest)];
    } else {
      assert rest[..size] == ms[start..start + size];
      assert rest[size..] == ms[start + size..];
    }
  }

  function Joined(cs: seq<Chunk>): seq<Message> {
    if cs == [] then [] else cs[0].messages + Joined(cs[1..])
  }

  lemma {:induction false} MissingMembers(ms: seq<Message>, have: Clock, m: Message)
    ensures m in Missing(ms, have) <==> m in ms && m.Seq() > At(have, m.sender)
  {
    if ms != [] {
      MissingMembers(ms[..|ms| - 1], have, m);
      assert ms == ms[..|ms| - 1] + [ms[|ms| - 1]];
    }
  }

  /** What is missing keeps the order of the listing. */
  lemma {:induction false} MissingKeepsOrder(ms: seq<Message>, have: Clock)
    ensures Subsequence(Missing(ms, have), ms)
  {
    if ms != [] {
      var n := |ms| - 1;
      MissingKeepsOrder(ms[..n], have);
      assert Missing(ms[..n], have) + [] == Missing(ms[..n], have);
      SubsequenceGrows(Missing(ms[..n], have), ms[..n], ms[n]);
      assert ms == ms[..n] + [ms[n]];
    }
  }

  /** The chunks are the missing messages cut into pieces: nothing lost, nothing added, order kept. */
  lemma {:induction false} SplitJoins(ms: seq<Message>, size: nat, id: nat)
    requires size > 0
    ensures Joined(Split(ms, size, id)) == ms
    decreases |ms|
  {
    if ms != [] && |ms| > size {
      SplitJoins(ms[size..], size, id + 1);
      var cs := Split(ms[size..], size, id + 1);
      assert ([Chunk(id, false, ms[..size])] + cs)[1..] == cs;
      assert ms == ms[..size] + ms[size..];
    } else if ms != [] {
      assert [Chunk(id, true, ms)][1..] == [];
    }
  }

  /** Chunks are numbered consecutively, none is empty or too big, and exactly the last is marked last. */
  lemma {:induction false} SplitShape(ms: seq<Message>, size: nat, id: nat, i: nat)
    requires size > 0 && i < |Split(ms, size, id)|
    ensures var cs := Split(ms, size, id);
            cs[i].chunkId == id + i && 1 <= |cs[i].messages| <= size && (cs[i].isLast <==> i == |cs| - 1)
    decreases |ms|
  {
    if |ms| > size {
      var cs := Split(ms[size..], size, id + 1);
      assert cs != [];
      if i > 0 {
        SplitShape(ms[size..], size, id + 1, i - 1);
      }
    }
  }

  lemma {:induction false} JoinedMembers(cs: seq<Chunk>, m: Message)
    ensures m in Joined(cs) <==> exists i | 0 <= i < |cs| :: m in cs[i].messages
  {
    if cs != [] {
      JoinedMembers(cs[1..], m);
      if m in Joined(cs[1..]) {
        var j :| 0 <= j < |cs[1..]| && m in cs[1..][j].messages;
        assert cs[j + 1] == cs[1..][j];
      }
      if exists i | 0 <= i < |cs| :: m in cs[i].messages {
        var i :| 0 <= i < |cs| && m in cs[i].messages;
        assert i > 0 ==> cs[1..][i - 1] == cs[i];
      }
    }
  }

  // ---- The store object ----

  method MaxOf(qs: set<nat>) returns (top: nat)
    ensures top in qs || top == 0
    ensures forall q | q in qs :: q <= top
  {
    top := 0;
    var todo := qs;
    while todo != {}
      invariant todo <= qs && (top in qs || top == 0)
      invariant forall q | q in qs && q !in todo :: q <= top
      decreases |todo|
    {
      var q :| q in todo;
      if q > top {
        top := q;
      }
      todo := todo - {q};
    }
  }

  method HasGap(qs: set<nat>) returns (gap: bool)
    ensures gap == S.GapIn(qs)
  {
    var top := MaxOf(qs);
    for k := 1 to top + 1
      invariant forall j: nat | 1 <= j < k :: j in qs
    {
      if k !in qs {
        return true;
      }
    }
    return false;
  }

  method HasSenderSequenceGaps(seqs: map<NodeId, set<nat>>) returns (gaps: bool)
    ensures gaps == S.Gaps(seqs)
  {
    var todo := seqs.Keys;
    while todo != {}
      invariant todo <= seqs.Keys
      invariant forall s | s in seqs && s !in todo :: !S.GapIn(seqs[s])
      decreases |todo|
    {
      var s :| s in todo;
      var gap := HasGap(seqs[s]);
      if gap {
        return true;
      }
      todo := todo - {s};
    }
    return false;
  }

  /** One pass over the readable messages: drop repeated ids, build the three indexes. */
  method ScanReadable(ms: seq<Message>) returns (kept: seq<Message>, index: S.Index)
    ensures kept == Dedupe(ms) && index == S.Scan(Dedupe(ms))
  {
    kept, index := [], S.EmptyIndex;
    for i := 0 to |ms|
      invariant kept == Dedupe(ms[..i]) && index == S.Scan(kept) && index.ids == IdsOf(kept)
    {
      assert ms[..i + 1][..i] == ms[..i];
      if ms[i].id !in index.ids {
        IdsSnoc(kept, ms[i]);
        assert (kept + [ms[i]])[..|kept|] == kept;
        kept, index := kept + [ms[i]], S.Add(index, ms[i]);
      }
    }
    assert ms[..|ms|] == ms;
  }

  method CutIntoSnapshots(ms: seq<Message>, size: nat) returns (d: S.Disk)
    requires size > 0
    ensures d == S.Pieces(ms, size, 1)
  {
    var snapshots: seq<S.Snapshot> := [];
    var start := 0;
    while start + size <= |ms|
      invariant start <= |ms|
      invariant S.Pieces(ms, size, 1) ==
        var rest := S.Pieces(ms[start..], size, |snapshots| + 1);
        S.Disk(snapshots + rest.snapshots, rest.active)
    {
      assert ms[start..][size..] == ms[start + size..];
      assert ms[start..][..size] == ms[start..start + size];
      snapshots := snapshots + [S.Written(|snapshots| + 1, ms[start..start + size])];
      start := start + size;
    }
    d := S.Disk(snapshots, S.Lines(ms[start..]));
  }

  method CutIntoChunks(ms: seq<Message>, size: nat) returns (chunks: seq<Chunk>)
    requires size > 0
    ensures chunks == Split(ms, size, 1)
  {
    chunks := [];
    var start := 0;
    ghost var rest := Split(ms, size, 1);
    while start < |ms|
      invariant rest == Split(From(ms, start), size, |chunks| + 1)
      invariant Split(ms, size, 1) == chunks + rest
      decreases |ms| - start
    {
      var stop := if start + size < |ms| then start + size else |ms|;
      var chunk := Chunk(|chunks| + 1, start + size >= |ms|, ms[start..stop]);
      ghost var tail := Split(From(ms, start + size), size, |chunks| + 2);
      SplitStep(ms, start, size, |chunks| + 1);
      assert rest == [chunk] + tail;
      MoveOver(chunks, chunk, tail);
      rest := tail;
      chunks := chunks + [chunk];
      start := start + size;
    }
    assert rest == [];
  }

  lemma MoveOver(a: seq<Chunk>, c: Chunk, b: seq<Chunk>)
    ensures a + ([c] + b) == (a + [c]) + b
  {
  }

  class LocalMessageStore {
    var snapshots: seq<S.Snapshot>
    var active: seq<S.Line>
    var index: S.Index
    var force: bool
    var needs: bool
    const threshold: int

    function State(): S.Store
      reads this
    {
      S.Store(S.Disk(snapshots, active), index, force, needs, threshold)
    }

    /** Open the store on whatever the files hold. */
    constructor (disk: S.Disk, index: S.Index, force: bool, needs: bool, threshold: int)
      ensures State() == S.Repair(S.Store(disk, index, force, needs, threshold))
    {
      this.snapshots, this.active, this.index := disk.snapshots, disk.active, index;
      this.force, this.needs, this.threshold := force, needs, threshold;
      new;
      RepairIndexes();
    }

    method RepairIndexes()
      modifies this`index, this`force, this`needs
      ensures State() == S.Repair(old(State()))
      ensures var before := old(State());
              && (force <==> before.force || S.Suspicious(before.disk, before.index.ids))
              && (needs <==> before.needs || S.Suspicious(before.disk, before.index.ids))
    {
      S.RepairRaisesIff(State());
      var d := S.Disk(snapshots, active);
      var kept, repaired := ScanReadable(S.Readable(d));
      var gaps := HasSenderSequenceGaps(repaired.seqs);
      var damaged := S.UnreadableSnapshot(d) || S.MissingSnapshot(d) || S.GarbledLog(d) || gaps;
      if damaged || !(index.ids <= repaired.ids) {
        force, needs := true, true;
      }
      index := repaired;
    }

    method ReadAllMessages() returns (ms: seq<Message>)
      ensures ms == S.ReadAll(S.Disk(snapshots, active))
    {
      var kept, _ := ScanReadable(S.Readable(S.Disk(snapshots, active)));
      ms := StableSort(kept);
    }

    method RebuildIndexes()
      modifies this`index
      ensures index == S.Scan(S.ReadAll(S.Disk(snapshots, active)))
    {
      var ms := ReadAllMessages();
      index := S.EmptyIndex;
      for i := 0 to |ms|
        modifies this`index
        invariant index == S.Scan(ms[..i])
      {
        assert ms[..i + 1][..i] == ms[..i];
        index := S.Add(index, ms[i]);
      }
      assert ms[..|ms|] == ms;
    }

    method CompactActiveLog()
      modifies this
      ensures State() == S.Compact(old(State()))
    {
      var ms := S.FromLines(active);
      if ms == [] {
        return;
      }
      snapshots := snapshots + [S.Written(S.NextNumber(snapshots), ms)];
      active := [];
      RebuildIndexes();
    }

    method MaybeRebuildSnapshots()
      modifies this
      ensures State() == S.MaybeRebuild(old(State()))
    {
      var gaps := HasSenderSequenceGaps(index.seqs);
      if gaps {
        return;
      }
      var ms := ReadAllMessages();
      if ms == [] {
        return;
      }
      ghost var rebuilt := S.Rebuild(State());
      var d := CutIntoSnapshots(ms, if threshold > 0 then threshold else |ms|);
      assert d == rebuilt.disk;
      WriteDisk(d);
      assert State() == rebuilt;
    }

    method WriteDisk(d: S.Disk)
      modifies this
      ensures State() == S.Store(d, S.Scan(S.ReadAll(d)), false, false, threshold)
    {
      snapshots, active := d.snapshots, d.active;
      force, needs := false, false;
      RebuildIndexes();
    }

    /** Persist a message unless its id is already known. */
    method Save(m: Message) returns (saved: bool)
      modifies this
      ensures State() == S.Save(old(State()), m)
      ensures saved == (m.id !in old(index.ids))
      ensures !saved ==> State() == old(State())
    {
      if m.id in index.ids {
        return false;
      }
      active := active + [S.Entry(m)];
      index := S.Add(index, m);
      if needs {
        MaybeRebuildSnapshots();
      } else if threshold > 0 && |S.FromLines(active)| >= threshold {
        CompactActiveLog();
      }
      return true;
    }

    /** Persist a received batch; repeated ids and malformed elements do no harm. */
    method SaveMany(items: seq<Item>) returns (saved: nat, duplicates: nat, invalid: nat)
      modifies this
      ensures State() == S.SaveMany(old(State()), items)
      ensures saved == S.SavedCount(old(State()), items) && invalid == multiset(items)[Invalid]
      ensures saved + duplicates + invalid == |items|
    {
      saved, duplicates, invalid := 0, 0, 0;
      for i := 0 to |items|
        invariant State() == S.SaveEach(old(State()), items[..i])
        invariant saved == S.SavedCount(old(State()), items[..i]) && invalid == S.InvalidCount(items[..i])
        invariant saved + duplicates + invalid == i
      {
        assert items[..i + 1][..i] == items[..i];
        if items[i].Invalid? {
          invalid := invalid + 1;
        } else {
          var isNew := Save(items[i].msg);
          if isNew {
            saved := saved + 1;
          } else {
            duplicates := duplicates + 1;
          }
        }
      }
      assert items[..|items|] == items;
      S.InvalidAreCounted(items);
      if needs {
        MaybeRebuildSnapshots();
      }
    }

    method GetLatestVectorClock() returns (cursor: Clock)
      modifies this
      ensures (cursor, State()) == S.Cursor(old(State()))
    {
      RepairIndexes();
      if force {
        var gaps := HasSenderSequenceGaps(index.seqs);
        if gaps {
          return map[];
        }
        force := false;
      }
      return index.latest;
    }

    method GetMissingSince(have: Clock) returns (missing: seq<Message>)
      ensures missing == Missing(S.ReadAll(S.Disk(snapshots, active)), have)
      ensures Subsequence(missing, S.ReadAll(S.Disk(snapshots, active)))
    {
      var ms := ReadAllMessages();
      MissingKeepsOrder(ms, have);
      missing := [];
      for i := 0 to |ms|
        invariant missing == Missing(ms[..i], have)
      {
        assert ms[..i + 1][..i] == ms[..i];
        if ms[i].Seq() > At(have, ms[i].sender) {
          missing := missing + [ms[i]];
        }
      }
      assert ms[..|ms|] == ms;
    }

    method BuildHistoryChunks(have: Clock, size: int) returns (r: ChunkResult)
      ensures r.BadChunkSize? <==> size <= 0
      ensures r.Chunks? ==> r.chunks == Split(Missing(S.ReadAll(S.Disk(snapshots, active)), have), size, 1)
    {
      if size <= 0 {
        return BadChunkSize;
      }
      var ms := GetMissingSince(have);
      var chunks := CutIntoChunks(ms, size);
      r := Chunks(chunks);
    }
  }
}
