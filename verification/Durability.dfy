/**
  Checkpoints: the snapshot with the log tail beyond it, written as JSON and
  read back after a crash.
 */
module Durability {
  import opened Membership

  datatype Checkpoint = Checkpoint(snap: Snapshot, tail: seq<Event>, term: int, nextSeq: nat)

  function ReadBackSnapshot(s: Snapshot): Snapshot { s.(members := CarriedMembers(s.members, true)) }

  function ReadBackEvents(es: seq<Event>): (r: seq<Event>)
    ensures |r| == |es| && forall i | 0 <= i < |es| :: r[i] == CarriedEvent(es[i], true)
  {
    seq(|es|, i requires 0 <= i < |es| => CarriedEvent(es[i], true))
  }

  /** What a checkpoint file holds once read back. */
  function WriteCheckpoint(room: Room): Checkpoint {
    var tail := Since(room.log.events, room.snap.asOf);
    Checkpoint(ReadBackSnapshot(room.snap), ReadBackEvents(tail), room.log.term, room.log.nextSeq)
  }

  /** Insertion by sequence number, after equal ones. */
  function InsertBySeq(es: seq<Event>, e: Event): seq<Event> {
    if es == [] || es[|es| - 1].seqNo <= e.seqNo then es + [e]
    else InsertBySeq(es[..|es| - 1], e) + [es[|es| - 1]]
  }

  function SortBySeq(es: seq<Event>): seq<Event> {
    if es == [] then [] else InsertBySeq(SortBySeq(es[..|es| - 1]), es[|es| - 1])
  }

  function ReplayTail(s: Snapshot, es: seq<Event>): Snapshot {
    if es == [] then s else ApplyEvent(ReplayTail(s, es[..|es| - 1]), es[|es| - 1])
  }

  function Reconstruct(room: string, c: Checkpoint): Room {
    var tail := SortBySeq(c.tail);
    Room(Log(room, tail, c.nextSeq, c.term), ReplayTail(c.snap, tail))
  }

  lemma {:induction false} SortOfIncreasing(es: seq<Event>)
    requires Increasing(es)
    ensures SortBySeq(es) == es
  {
    if es != [] {
      var front, last := es[..|es| - 1], es[|es| - 1];
      SortOfIncreasing(front);
      assert front + [last] == es;
      assert front != [] ==> front[|front| - 1].seqNo < last.seqNo;
    }
  }

  ghost predicate BySeq(es: seq<Event>) {
    forall i, j | 0 <= i < j < |es| :: es[i].seqNo <= es[j].seqNo
  }

  lemma {:induction false} InsertBySeqPermutes(es: seq<Event>, e: Event)
    ensures multiset(InsertBySeq(es, e)) == multiset(es) + multiset{e}
  {
    if es != [] && es[|es| - 1].seqNo > e.seqNo {
      InsertBySeqPermutes(es[..|es| - 1], e);
      assert es == es[..|es| - 1] + [es[|es| - 1]];
    }
  }

  lemma {:induction false} InsertBySeqBounded(es: seq<Event>, e: Event, top: nat)
    requires e.seqNo <= top && forall i | 0 <= i < |es| :: es[i].seqNo <= top
    ensures forall i | 0 <= i < |InsertBySeq(es, e)| :: InsertBySeq(es, e)[i].seqNo <= top
  {
    if es != [] && es[|es| - 1].seqNo > e.seqNo {
      InsertBySeqBounded(es[..|es| - 1], e, top);
    }
  }

  lemma {:induction false} InsertBySeqSorts(es: seq<Event>, e: Event)
    requires BySeq(es)
    ensures BySeq(InsertBySeq(es, e))
  {
    if es != [] && es[|es| - 1].seqNo > e.seqNo {
      InsertBySeqSorts(es[..|es| - 1], e);
      InsertBySeqBounded(es[..|es| - 1], e, es[|es| - 1].seqNo);
    }
  }

  /** Whatever order a file lists its tail in, it is replayed by number, no event lost or added. */
  lemma {:induction false} SortBySeqSorts(es: seq<Event>)
    ensures multiset(SortBySeq(es)) == multiset(es) && BySeq(SortBySeq(es))
  {
    if es != [] {
      var front, last := es[..|es| - 1], es[|es| - 1];
      SortBySeqSorts(front);
      InsertBySeqPermutes(SortBySeq(front), last);
      InsertBySeqSorts(SortBySeq(front), last);
      assert es == front + [last];
    }
  }

  // ---- The replay in recovery changes nothing ----

  lemma {:induction false} RejectedReplayIsIdle(s: Snapshot, es: seq<Event>)
    requires forall i | 0 <= i < |es| :: es[i].seqNo > s.asOf
    requires TailRejected(es, s)
    ensures ReplayTail(s, es) == s
  {
    if es != [] {
      RejectedReplayIsIdle(s, es[..|es| - 1]);
    }
  }

  lemma TailProperties(room: Room)
    requires Membership.Consistent(room)
    ensures var tail := Since(room.log.events, room.snap.asOf);
            && Increasing(tail) && TailRejected(tail, room.snap)
            && (forall i | 0 <= i < |tail| :: tail[i].seqNo > room.snap.asOf)
  {
    var tail := Since(room.log.events, room.snap.asOf);
    SinceIncreasing(room.log.events, room.snap.asOf);
    forall i | 0 <= i < |tail|
      ensures tail[i].seqNo > room.snap.asOf
      ensures !TransitionValid(tail[i].kind, StateOf(room.snap.members, tail[i].userId))
    {
      SinceMembers(room.log.events, room.snap.asOf, tail[i]);
    }
  }

  /** What the checkpoint of a consistent room is reconstructed to. */
  lemma RecoveredRoom(room: Room, name: string)
    requires Membership.Consistent(room)
    ensures var tail := ReadBackEvents(Since(room.log.events, room.snap.asOf));
            Reconstruct(name, WriteCheckpoint(room)) ==
            Room(Log(name, tail, room.log.nextSeq, room.log.term), ReadBackSnapshot(room.snap))
  {
    TailProperties(room);
    var tail := ReadBackEvents(Since(room.log.events, room.snap.asOf));
    SortOfIncreasing(tail);
    RejectedReplayIsIdle(ReadBackSnapshot(room.snap), tail);
  }

  // ---- Bisimulation ----

  /** The rooms agree on everything but log entries the snapshot already covers. */
  ghost predicate Alike(a: Room, b: Room) {
    && a.snap == b.snap && a.log.roomId == b.log.roomId
    && a.log.nextSeq == b.log.nextSeq && a.log.term == b.log.term
    && Since(a.log.events, a.snap.asOf) == Since(b.log.events, b.snap.asOf)
  }

  ghost predicate NoEmptyKeyLogged(es: seq<Event>) {
    forall i | 0 <= i < |es| :: es[i].publicKey != Some([])
  }

  lemma ReadBackExactIff(es: seq<Event>)
    ensures ReadBackEvents(es) == es <==> NoEmptyKeyLogged(es)
  {
    if !NoEmptyKeyLogged(es) {
      var i :| 0 <= i < |es| && es[i].publicKey == Some([]);
      assert ReadBackEvents(es)[i].publicKey == None;
    }
  }

  lemma {:induction false} SinceAll(es: seq<Event>, n: nat)
    requires forall i | 0 <= i < |es| :: es[i].seqNo > n
    ensures Since(es, n) == es
  {
    if es != [] {
      SinceAll(es[..|es| - 1], n);
    }
  }

  /** Recovery restores a room exactly when no member and no tail event has an empty public key. */
  lemma RecoverRestoresIff(room: Room)
    requires Membership.Consistent(room)
    ensures Alike(room, Reconstruct(room.log.roomId, WriteCheckpoint(room))) <==>
            NoEmptyKey(room.snap.members) && NoEmptyKeyLogged(Since(room.log.events, room.snap.asOf))
  {
    RecoveredRoom(room, room.log.roomId);
    var tail := Since(room.log.events, room.snap.asOf);
    TailProperties(room);
    SinceAll(ReadBackEvents(tail), room.snap.asOf);
    ReplayIsExactIff(room.snap.members);
    ReadBackExactIff(tail);
  }

  /** Later events are filtered alike once the earlier threshold agrees. */
  lemma {:induction false} SinceLater(a: seq<Event>, n: nat, k: nat)
    requires n <= k
    ensures Since(Since(a, n), k) == Since(a, k)
  {
    if a != [] {
      var front, last := a[..|a| - 1], a[|a| - 1];
      SinceLater(front, n, k);
      if last.seqNo > n {
        SinceSnoc(Since(front, n), last, k);
      } else {
        assert Since(a, n) == Since(front, n);
      }
    }
  }

  /** Alike rooms react alike: same refusal, same event, same delta, and they stay alike. */
  lemma AlikeStep(a: Room, b: Room, i: Input)
    requires Alike(a, b) && a.snap.asOf < a.log.nextSeq
    ensures Stale(a, i) == Stale(b, i) && Recorded(a, i) == Recorded(b, i)
    ensures DeltaFor(a.snap, Recorded(a, i)) == DeltaFor(b.snap, Recorded(b, i))
    ensures Alike(Step(a, i), Step(b, i))
  {
    if !Stale(a, i) {
      var e := Recorded(a, i);
      var n, k := a.snap.asOf, Step(a, i).snap.asOf;
      SinceLater(a.log.events, n, k);
      SinceLater(b.log.events, n, k);
      SinceSnoc(a.log.events, e, k);
      SinceSnoc(b.log.events, e, k);
    }
  }

  /**
    Checkpoint then recover is a bisimulation: after any later inputs the
    original room and the recovered one have the same snapshot, numbers, term
    and events since any point at or after `asOf`.
   */
  lemma {:induction false} RecoveredReactsAlike(a: Room, b: Room, inputs: seq<Input>, from: nat)
    requires Alike(a, b) && Membership.Consistent(a) && from >= Run(a, inputs).snap.asOf
    ensures Alike(Run(a, inputs), Run(b, inputs))
    ensures Since(Run(a, inputs).log.events, from) == Since(Run(b, inputs).log.events, from)
  {
    if inputs != [] {
      var front, last := inputs[..|inputs| - 1], inputs[|inputs| - 1];
      RecoveredReactsAlike(a, b, front, Run(a, front).snap.asOf);
      RunConsistent(a, front);
      AlikeStep(Run(a, front), Run(b, front), last);
    }
    var ra, rb := Run(a, inputs), Run(b, inputs);
    SinceLater(ra.log.events, ra.snap.asOf, from);
    SinceLater(rb.log.events, rb.snap.asOf, from);
  }

  /** From a fresh room: run, checkpoint, crash, recover, run on. */
  lemma CheckpointIsTransparent(room: string, before: seq<Input>, after: seq<Input>)
    requires var r := Run(EmptyRoom(room), before);
             NoEmptyKey(r.snap.members) && NoEmptyKeyLogged(Since(r.log.events, r.snap.asOf))
    ensures var r := Run(EmptyRoom(room), before);
            Alike(Run(r, after), Run(Reconstruct(room, WriteCheckpoint(r)), after))
  {
    var r := Run(EmptyRoom(room), before);
    RunConsistent(EmptyRoom(room), before);
    RoomKeepsItsName(EmptyRoom(room), before);
    RecoverRestoresIff(r);
    RecoveredReactsAlike(r, Reconstruct(room, WriteCheckpoint(r)), after, Run(r, after).snap.asOf);
  }

  lemma {:induction false} RoomKeepsItsName(room: Room, inputs: seq<Input>)
    ensures Run(room, inputs).log.roomId == room.log.roomId
  {
    if inputs != [] {
      RoomKeepsItsName(room, inputs[..|inputs| - 1]);
    }
  }

  // ---- Any number of checkpoints and crashes ----

  function KeyOf(i: Input): Option<Key> { if i.Local? then i.request.publicKey else i.event.publicKey }

  /** No caller ever hands over an empty public key. */
  ghost predicate Keyed(inputs: seq<Input>) {
    forall i | 0 <= i < |inputs| :: KeyOf(inputs[i]) != Some([])
  }

  ghost predicate NoEmptyKeyAnywhere(room: Room) {
    NoEmptyKey(room.snap.members) && NoEmptyKeyLogged(room.log.events)
  }

  lemma StepKeepsKeys(room: Room, i: Input)
    requires NoEmptyKeyAnywhere(room) && KeyOf(i) != Some([])
    ensures NoEmptyKeyAnywhere(Step(room, i))
  {
    if !Stale(room, i) {
      var e := Recorded(room, i);
      assert NoEmptyKeyLogged(room.log.events + [e]);
    }
  }

  lemma {:induction false} RunKeepsKeys(room: Room, inputs: seq<Input>)
    requires NoEmptyKeyAnywhere(room) && Keyed(inputs)
    ensures NoEmptyKeyAnywhere(Run(room, inputs))
  {
    if inputs != [] {
      RunKeepsKeys(room, inputs[..|inputs| - 1]);
      StepKeepsKeys(Run(room, inputs[..|inputs| - 1]), inputs[|inputs| - 1]);
    }
  }

  lemma TailKeepsKeys(events: seq<Event>, n: nat)
    requires NoEmptyKeyLogged(events)
    ensures NoEmptyKeyLogged(Since(events, n))
  {
    forall i | 0 <= i < |Since(events, n)| ensures Since(events, n)[i].publicKey != Some([]) {
      SinceMembers(events, n, Since(events, n)[i]);
    }
  }

  /** What recovery builds is consistent, so it can be checkpointed again. */
  lemma RecoveredIsConsistent(room: Room)
    requires Membership.Consistent(room) && NoEmptyKeyAnywhere(room)
    ensures var r := Reconstruct(room.log.roomId, WriteCheckpoint(room));
            Membership.Consistent(r) && NoEmptyKeyAnywhere(r) && Alike(room, r)
  {
    var tail := Since(room.log.events, room.snap.asOf);
    RecoveredRoom(room, room.log.roomId);
    TailProperties(room);
    TailKeepsKeys(room.log.events, room.snap.asOf);
    RecoverRestoresIff(room);
    ReplayIsExactIff(room.snap.members);
    ReadBackExactIff(tail);
    forall i | 0 <= i < |tail| ensures tail[i].seqNo < room.log.nextSeq {
      SinceMembers(room.log.events, room.snap.asOf, tail[i]);
    }
  }

  /** Run a segment, checkpoint, crash, recover; and again. */
  function Cycles(room: Room, segments: seq<seq<Input>>): Room {
    if segments == [] then room
    else
      var r := Run(Cycles(room, segments[..|segments| - 1]), segments[|segments| - 1]);
      Reconstruct(r.log.roomId, WriteCheckpoint(r))
  }

  function Flatten(segments: seq<seq<Input>>): seq<Input> {
    if segments == [] then [] else Flatten(segments[..|segments| - 1]) + segments[|segments| - 1]
  }

  lemma {:induction false} RunConcat(room: Room, a: seq<Input>, b: seq<Input>)
    ensures Run(room, a + b) == Run(Run(room, a), b)
  {
    if b == [] {
      assert a + b == a;
    } else {
      assert (a + b)[..|a + b| - 1] == a + b[..|b| - 1];
      RunConcat(room, a, b[..|b| - 1]);
    }
  }

  lemma AlikeTransitive(a: Room, b: Room, c: Room)
    requires Alike(a, b) && Alike(b, c)
    ensures Alike(a, c)
  {
  }

  /**
    A room that is checkpointed, crashes and recovers any number of times is
    at every point alike to one that never crashed, as long as nobody hands
    over an empty public key.
   */
  lemma {:induction false} CyclesAreTransparent(room: Room, segments: seq<seq<Input>>)
    requires Membership.Consistent(room) && NoEmptyKeyAnywhere(room) && Keyed(Flatten(segments))
    ensures var r := Cycles(room, segments);
            Membership.Consistent(r) && NoEmptyKeyAnywhere(r) && Alike(Run(room, Flatten(segments)), r)
  {
    if segments != [] {
      var front, last := segments[..|segments| - 1], segments[|segments| - 1];
      var all := Flatten(front) + last;
      assert Keyed(Flatten(front)) && Keyed(last) by {
        assert forall i | 0 <= i < |Flatten(front)| :: all[i] == Flatten(front)[i];
        assert forall i | 0 <= i < |last| :: all[|Flatten(front)| + i] == last[i];
      }
      CyclesAreTransparent(room, front);
      OneMoreCycle(Run(room, Flatten(front)), Cycles(room, front), last);
      RunConcat(room, Flatten(front), last);
      RunConsistent(room, Flatten(front));
    }
  }

  lemma OneMoreCycle(a: Room, b: Room, inputs: seq<Input>)
    requires Alike(a, b) && Membership.Consistent(b) && NoEmptyKeyAnywhere(b) && Keyed(inputs)
    ensures var r := Run(b, inputs); var s := Reconstruct(r.log.roomId, WriteCheckpoint(r));
            Membership.Consistent(s) && NoEmptyKeyAnywhere(s) && Alike(Run(a, inputs), s)
  {
    var r := Run(b, inputs);
    AlikeSymmetric(a, b);
    RecoveredReactsAlike(b, a, inputs, r.snap.asOf);
    RunConsistent(b, inputs);
    RunKeepsKeys(b, inputs);
    RecoveredIsConsistent(r);
    AlikeSymmetric(r, Run(a, inputs));
    AlikeTransitive(Run(a, inputs), r, Reconstruct(r.log.roomId, WriteCheckpoint(r)));
  }

  lemma AlikeSymmetric(a: Room, b: Room)
    requires Alike(a, b)
    ensures Alike(b, a)
  {
  }

  // ---- The manager: newest readable checkpoint wins ----

  /** A checkpoint file: its number, and what it holds unless it is corrupt. */
  datatype File = File(seqNo: nat, content: Option<Checkpoint>)

  const KEEP_LAST: nat := 2

  /** Newest first. */
  ghost predicate Descending(fs: seq<File>) {
    forall i, j | 0 <= i < j < |fs| :: fs[i].seqNo > fs[j].seqNo
  }

  /** The listing once `f` is written, over any file of the same number. */
  function PutFile(fs: seq<File>, f: File): seq<File> {
    if fs == [] || fs[0].seqNo < f.seqNo then [f] + fs
    else if fs[0].seqNo == f.seqNo then [f] + fs[1..]
    else [fs[0]] + PutFile(fs[1..], f)
  }

  lemma {:induction false} PutFileMembers(fs: seq<File>, f: File, g: File)
    requires Descending(fs)
    ensures g in PutFile(fs, f) <==> g == f || (g in fs && g.seqNo != f.seqNo)
  {
    if fs != [] {
      assert fs == [fs[0]] + fs[1..];
      if fs[0].seqNo > f.seqNo {
        PutFileMembers(fs[1..], f, g);
      }
    }
  }

  lemma {:induction false} PutFileDescends(fs: seq<File>, f: File)
    requires Descending(fs)
    ensures Descending(PutFile(fs, f))
  {
    if fs != [] && fs[0].seqNo > f.seqNo {
      var rest := PutFile(fs[1..], f);
      PutFileDescends(fs[1..], f);
      forall i | 0 <= i < |rest| ensures fs[0].seqNo > rest[i].seqNo {
        PutFileMembers(fs[1..], f, rest[i]);
      }
    }
  }

  /** Where a new file ends up among the two that are kept. */
  lemma PutFilePosition(fs: seq<File>, f: File)
    requires Descending(fs)
    ensures var r := PutFile(fs, f);
            && r != []
            && (fs == [] || fs[0].seqNo <= f.seqNo ==> r[0] == f)
            && (fs != [] && fs[0].seqNo > f.seqNo ==> r[0] == fs[0] && |r| >= 2)
            && (fs != [] && fs[0].seqNo > f.seqNo && (|fs| == 1 || fs[1].seqNo <= f.seqNo) ==> r[1] == f)
            && (|fs| >= 2 && fs[1].seqNo > f.seqNo ==> r[1] == fs[1])
  {
    if fs != [] && fs[0].seqNo > f.seqNo {
      var rest := PutFile(fs[1..], f);
      assert rest != [];
      assert |fs| >= 2 ==> fs[1..][0] == fs[1];
    }
  }

  class DurabilityManager {
    /** The room's checkpoint files, newest first. */
    var files: seq<File>

    ghost predicate Valid() reads this { Descending(files) }

    constructor (files: seq<File>)
      requires Descending(files)
      ensures Valid() && this.files == files
    {
      this.files := files;
    }

    /** Write a checkpoint under its log's latest number and prune; it survives unless two files have higher numbers. */
    method ForceCheckpoint(room: Room)
      requires Valid() && room.log.nextSeq >= 1
      modifies this
      ensures Valid() && 1 <= |files| <= KEEP_LAST
      ensures var f := File(room.log.nextSeq - 1, Some(WriteCheckpoint(room)));
              && files == (var all := PutFile(old(files), f); if |all| > KEEP_LAST then all[..KEEP_LAST] else all)
              && (f in files <==> |old(files)| < 2 || old(files)[1].seqNo <= f.seqNo)
    {
      var f := File(room.log.nextSeq - 1, Some(WriteCheckpoint(room)));
      PutFileDescends(files, f);
      PutFilePosition(files, f);
      files := PutFile(files, f);
      if |files| > KEEP_LAST {
        files := files[..KEEP_LAST];
      }
    }

    /** The newest checkpoint that can be read; none if all are corrupt or there is none. */
    method Recover(room: string) returns (r: Option<Room>)
      ensures r == None <==> forall i | 0 <= i < |files| :: files[i].content == None
      ensures r.Some? ==> exists i | 0 <= i < |files| ::
        files[i].content.Some? && r.value == Reconstruct(room, files[i].content.value) &&
        forall j | 0 <= j < i :: files[j].content == None
    {
      for k := 0 to |files|
        invariant forall i | 0 <= i < k :: files[i].content == None
      {
        if files[k].content.Some? {
          var recovered := ReconstructRoom(room, files[k].content.value);
          return Some(recovered);
        }
      }
      return None;
    }

    method ReconstructRoom(room: string, c: Checkpoint) returns (r: Room)
      ensures r == Reconstruct(room, c)
    {
      var snap, tail := c.snap, SortBySeq(c.tail);
      for k := 0 to |tail|
        invariant snap == ReplayTail(c.snap, tail[..k])
      {
        assert tail[..k + 1][..k] == tail[..k];
        if tail[k].seqNo > snap.asOf {
          snap := ApplyEvent(snap, tail[k]);
        }
      }
      assert tail[..|tail|] == tail;
      r := Room(Log(room, tail, c.nextSeq, c.term), snap);
    }
  }
}
