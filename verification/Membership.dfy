/**
  Event-sourced membership: the append-only event log, the snapshot that is a
  projection of it, and the guards of the member state machine.

  A rejected event stays in the log but moves neither the member table nor
  `asOf`, which is what makes recovery and derived views subtle.
 */
module Membership {
  import opened Clocks

  type UserId = string
  type Key = seq<bv8>

  datatype Option<T> = None | Some(value: T)

  datatype MemberState = Joining | Backfilling | Active | Suspected | Disconnected | Leaving | Left

  datatype EventType =
    | JoinRequested | JoinAccepted | JoinRejected
    | LeaveRequested | LeaveConfirmed
    | Heartbeat
    | DisconnectSuspected | DisconnectTimeout | Reconnected
    | BackfillStarted | BackfillComplete

  datatype Event = Event(
    seqNo: nat,
    roomId: string,
    userId: UserId,
    kind: EventType,
    timestamp: Time,
    version: nat,
    source: string,
    term: int,
    traceId: Option<string>,
    displayName: string,
    originator: Option<string>,
    publicKey: Option<Key>)

  datatype MemberInfo = MemberInfo(
    userId: UserId,
    displayName: string,
    state: MemberState,
    joinedAt: Time,
    lastHeartbeat: Time,
    version: nat,
    publicKey: Option<Key>)

  // ---- The snapshot ----

  datatype Snapshot = Snapshot(roomId: string, members: map<UserId, MemberInfo>, version: nat, asOf: nat)

  function EmptySnapshot(room: string): Snapshot { Snapshot(room, map[], 0, 0) }

  function StateOf(members: map<UserId, MemberInfo>, u: UserId): Option<MemberState> {
    if u in members then Some(members[u].state) else None
  }

  /** Which states each event may find its member in; `None` is an unknown user. */
  predicate TransitionValid(kind: EventType, s: Option<MemberState>) {
    match kind
    case JoinAccepted => s in {None, Some(Disconnected), Some(Left)}
    case Heartbeat => s != None
    case JoinRequested => true
    case JoinRejected => true
    case BackfillStarted => s == Some(Joining)
    case BackfillComplete => s == Some(Backfilling)
    case LeaveRequested => s == Some(Active)
    case LeaveConfirmed => s == Some(Leaving)
    case DisconnectSuspected => s == Some(Active)
    case DisconnectTimeout => s in {Some(Suspected), Some(Backfilling)}
    case Reconnected => s == Some(Suspected)
  }

  datatype DeltaType = DeltaJoined | DeltaActive | DeltaLeft | DeltaSuspected | DeltaDisconnected | DeltaReconnected

  /** What subscribers are told; half of the events tell them nothing. */
  function DeltaOf(kind: EventType): Option<DeltaType> {
    match kind
    case JoinAccepted => Some(DeltaJoined)
    case BackfillComplete => Some(DeltaActive)
    case LeaveConfirmed => Some(DeltaLeft)
    case DisconnectSuspected => Some(DeltaSuspected)
    case DisconnectTimeout => Some(DeltaDisconnected)
    case Reconnected => Some(DeltaReconnected)
    case _ => None
  }

  /** The state an event leads to, where it sets one. */
  function Target(kind: EventType): Option<MemberState> {
    match kind
    case JoinAccepted => Some(Joining)
    case BackfillStarted => Some(Backfilling)
    case BackfillComplete => Some(Active)
    case LeaveRequested => Some(Leaving)
    case LeaveConfirmed => Some(Left)
    case DisconnectSuspected => Some(Suspected)
    case DisconnectTimeout => Some(Disconnected)
    case Reconnected => Some(Active)
    case _ => None
  }

  function Dispatch(members: map<UserId, MemberInfo>, e: Event): map<UserId, MemberInfo>
    requires TransitionValid(e.kind, StateOf(members, e.userId))
  {
    var u := e.userId;
    match e.kind
    case JoinAccepted =>
      members[u := MemberInfo(u, e.displayName, Joining, e.timestamp, e.timestamp, e.version, e.publicKey)]
    case JoinRequested => members
    case JoinRejected => members
    case Heartbeat => members[u := members[u].(lastHeartbeat := e.timestamp)]
    case Reconnected => members[u := members[u].(state := Active, lastHeartbeat := e.timestamp, version := e.version)]
    case _ => members[u := members[u].(state := Target(e.kind).value, version := e.version)]
  }

  /** Apply one event; an old or invalid one changes nothing. */
  predicate Accepts(s: Snapshot, e: Event) {
    e.seqNo > s.asOf && TransitionValid(e.kind, StateOf(s.members, e.userId))
  }

  function ApplyEvent(s: Snapshot, e: Event): Snapshot {
    if Accepts(s, e) then Snapshot(s.roomId, Dispatch(s.members, e), e.version, e.seqNo) else s
  }

  function DeltaFor(s: Snapshot, e: Event): Option<DeltaType> {
    if Accepts(s, e) then DeltaOf(e.kind) else None
  }

  /** An event the snapshot already covers is ignored and told to nobody, so applying an event again changes nothing. */
  lemma OldEventsAreIgnored(s: Snapshot, e: Event)
    ensures e.seqNo <= s.asOf ==> ApplyEvent(s, e) == s && DeltaFor(s, e) == None
    ensures ApplyEvent(ApplyEvent(s, e), e) == ApplyEvent(s, e)
    ensures ApplyEvent(s, e) != s ==> ApplyEvent(s, e).asOf == e.seqNo && ApplyEvent(s, e).version == e.version
  {
  }

  /** The state a delta announces. */
  function Announced(d: DeltaType): MemberState {
    match d
    case DeltaJoined => Joining
    case DeltaActive => Active
    case DeltaLeft => Left
    case DeltaSuspected => Suspected
    case DeltaDisconnected => Disconnected
    case DeltaReconnected => Active
  }

  /** Subscribers are told the truth, and of every change of state but the start of a backfill and of a leave. */
  lemma DeltaTellsTheState(s: Snapshot, e: Event)
    ensures DeltaFor(s, e).Some? ==>
      StateOf(ApplyEvent(s, e).members, e.userId) == Some(Announced(DeltaFor(s, e).value))
    ensures StateOf(ApplyEvent(s, e).members, e.userId) != StateOf(s.members, e.userId) ==>
      DeltaFor(s, e).Some? || e.kind in {BackfillStarted, LeaveRequested}
  {
  }

  /**
    What one accepted event leaves of a member's record: a join writes it
    afresh; nothing else touches name, key or joining time; heartbeats and
    reconnections alone renew the last heartbeat; and nobody else's record moves.
   */
  lemma RecordAfter(s: Snapshot, e: Event)
    requires Accepts(s, e)
    ensures var ms, r := s.members, ApplyEvent(s, e).members;
            forall v | v != e.userId :: (v in r <==> v in ms) && (v in ms ==> r[v] == ms[v])
    ensures e.kind == JoinAccepted ==> HasRecord(ApplyEvent(s, e).members, e.userId, JoinRecord(e))
    ensures e.kind != JoinAccepted && e.userId in s.members ==>
      e.userId in ApplyEvent(s, e).members &&
      SameIdentity(s.members[e.userId], ApplyEvent(s, e).members[e.userId]) &&
      Renewed(s.members[e.userId], ApplyEvent(s, e).members[e.userId], e)
  {
  }

  function JoinRecord(e: Event): MemberInfo {
    MemberInfo(e.userId, e.displayName, Joining, e.timestamp, e.timestamp, e.version, e.publicKey)
  }

  predicate HasRecord(ms: map<UserId, MemberInfo>, u: UserId, info: MemberInfo) { u in ms && ms[u] == info }

  predicate SameIdentity(a: MemberInfo, b: MemberInfo) {
    a.userId == b.userId && a.displayName == b.displayName && a.publicKey == b.publicKey && a.joinedAt == b.joinedAt
  }

  /** Heartbeats and reconnections renew the last heartbeat, changes of state the version. */
  predicate Renewed(a: MemberInfo, b: MemberInfo, e: Event) {
    && b.lastHeartbeat == (if e.kind in {Heartbeat, Reconnected} then e.timestamp else a.lastHeartbeat)
    && b.version == (if e.kind in {JoinRequested, JoinRejected, Heartbeat} then a.version else e.version)
  }

  // ---- The event log ----

  datatype Log = Log(roomId: string, events: seq<Event>, nextSeq: nat, term: int)

  function EmptyLog(room: string): Log { Log(room, [], 1, 1) }

  /** What a local append is asked to record. */
  datatype Request = Request(
    kind: EventType,
    userId: UserId,
    source: string,
    term: int,
    displayName: string,
    traceId: Option<string>,
    publicKey: Option<Key>,
    timestamp: Time)

  function LocalEvent(log: Log, r: Request): Event {
    Event(log.nextSeq, log.roomId, r.userId, r.kind, r.timestamp, log.nextSeq, r.source,
          if r.term > log.term then r.term else log.term, r.traceId, r.displayName, None, r.publicKey)
  }

  /** A remote event under a fresh local number. */
  function RemoteEvent(log: Log, e: Event): Event {
    Event(log.nextSeq, log.roomId, e.userId, e.kind, e.timestamp, log.nextSeq, "remote",
          if e.term > log.term then e.term else log.term, e.traceId, e.displayName, e.originator, e.publicKey)
  }

  function Logged(log: Log, e: Event): Log {
    log.(events := log.events + [e], nextSeq := log.nextSeq + 1, term := e.term)
  }

  function Since(events: seq<Event>, seqNo: nat): seq<Event> {
    if events == [] then []
    else
      var last := events[|events| - 1];
      Since(events[..|events| - 1], seqNo) + (if last.seqNo > seqNo then [last] else [])
  }

  // ---- A room: one log, one snapshot, one writer ----

  datatype Room = Room(log: Log, snap: Snapshot)

  function EmptyRoom(room: string): Room { Room(EmptyLog(room), EmptySnapshot(room)) }

  /** A local append, or an event gossiped by a peer. */
  datatype Input = Local(request: Request) | Remote(event: Event)

  predicate Stale(room: Room, i: Input) {
    i.Local? && i.request.term < room.log.term
  }

  function Recorded(room: Room, i: Input): Event {
    match i
    case Local(r) => LocalEvent(room.log, r)
    case Remote(e) => RemoteEvent(room.log, e)
  }

  /** Append and apply; a stale term is refused before anything changes. */
  function Step(room: Room, i: Input): Room {
    if Stale(room, i) then room
    else
      var e := Recorded(room, i);
      Room(Logged(room.log, e), ApplyEvent(room.snap, e))
  }

  function Run(room: Room, inputs: seq<Input>): Room {
    if inputs == [] then room else Step(Run(room, inputs[..|inputs| - 1]), inputs[|inputs| - 1])
  }

  /** A logged event beyond `asOf` is one the current member table rejects. */
  ghost predicate TailRejected(events: seq<Event>, s: Snapshot) {
    forall i | 0 <= i < |events| && events[i].seqNo > s.asOf ::
      !TransitionValid(events[i].kind, StateOf(s.members, events[i].userId))
  }

  ghost predicate Increasing(events: seq<Event>) {
    forall i, j | 0 <= i < j < |events| :: events[i].seqNo < events[j].seqNo
  }

  ghost predicate Consistent(room: Room) {
    && Increasing(room.log.events)
    && (forall i | 0 <= i < |room.log.events| :: room.log.events[i].seqNo < room.log.nextSeq)
    && room.snap.asOf < room.log.nextSeq
    && TailRejected(room.log.events, room.snap)
  }

  lemma StepConsistent(room: Room, i: Input)
    requires Consistent(room)
    ensures Consistent(Step(room, i))
  {
    if !Stale(room, i) {
      var e := Recorded(room, i);
      assert e.seqNo == room.log.nextSeq;
      var events := room.log.events + [e];
      assert forall k | 0 <= k < |room.log.events| :: events[k] == room.log.events[k];
    }
  }

  /** In every sequential run the log tail beyond `asOf` holds only events rejected in the current state. */
  lemma {:induction false} RunConsistent(room: Room, inputs: seq<Input>)
    requires Consistent(room)
    ensures Consistent(Run(room, inputs))
  {
    if inputs != [] {
      RunConsistent(room, inputs[..|inputs| - 1]);
      StepConsistent(Run(room, inputs[..|inputs| - 1]), inputs[|inputs| - 1]);
    }
  }

  lemma {:induction false} SinceSnoc(events: seq<Event>, e: Event, n: nat)
    ensures Since(events + [e], n) == Since(events, n) + (if e.seqNo > n then [e] else [])
  {
    assert (events + [e])[..|events|] == events;
  }

  /** The filter keeps exactly the later events. */
  lemma {:induction false} SinceMembers(events: seq<Event>, n: nat, e: Event)
    ensures e in Since(events, n) <==> e in events && e.seqNo > n
  {
    if events != [] {
      SinceMembers(events[..|events| - 1], n, e);
      assert events == events[..|events| - 1] + [events[|events| - 1]];
    }
  }

  lemma {:induction false} SinceIncreasing(events: seq<Event>, n: nat)
    requires Increasing(events)
    ensures Increasing(Since(events, n))
  {
    if events != [] {
      var k := |events| - 1;
      SinceIncreasing(events[..k], n);
      forall i | 0 <= i < |Since(events[..k], n)| ensures Since(events[..k], n)[i].seqNo < events[k].seqNo {
        var x := Since(events[..k], n)[i];
        SinceMembers(events[..k], n, x);
      }
    }
  }

  // ---- A joiner that replays a complete log ----

  /** A public key as JSON carries it: an empty one is read back as absent. */
  function Carried(k: Option<Key>, overWire: bool): Option<Key> {
    if overWire && k == Some([]) then None else k
  }

  function CarriedEvent(e: Event, overWire: bool): Event { e.(publicKey := Carried(e.publicKey, overWire)) }

  function CarriedMembers(ms: map<UserId, MemberInfo>, overWire: bool): map<UserId, MemberInfo> {
    map u | u in ms :: ms[u].(publicKey := Carried(ms[u].publicKey, overWire))
  }

  /** Apply a batch of events from a peer, one by one. */
  function Replay(room: Room, events: seq<Event>, overWire: bool): Room {
    if events == [] then room
    else Step(Replay(room, events[..|events| - 1], overWire), Remote(CarriedEvent(events[|events| - 1], overWire)))
  }

  /** The joiner's table, version, `asOf` and next number are the seed's. */
  ghost predicate Matches(joiner: Room, seed: Room, overWire: bool) {
    && joiner.snap.members == CarriedMembers(seed.snap.members, overWire)
    && joiner.snap.version == seed.snap.version && joiner.snap.asOf == seed.snap.asOf
    && joiner.log.nextSeq == seed.log.nextSeq
  }

  lemma DispatchCarried(ms: map<UserId, MemberInfo>, e: Event, f: Event, overWire: bool)
    requires f.userId == e.userId && f.kind == e.kind && f.timestamp == e.timestamp && f.version == e.version
    requires f.displayName == e.displayName && f.publicKey == Carried(e.publicKey, overWire)
    requires TransitionValid(e.kind, StateOf(ms, e.userId))
    requires TransitionValid(f.kind, StateOf(CarriedMembers(ms, overWire), f.userId))
    ensures Dispatch(CarriedMembers(ms, overWire), f) == CarriedMembers(Dispatch(ms, e), overWire)
  {
    if e.kind != JoinRequested && e.kind != JoinRejected {
      CarriedUpdate(ms, e.userId, Dispatch(ms, e)[e.userId], overWire);
    }
  }

  lemma CarriedUpdate(ms: map<UserId, MemberInfo>, u: UserId, info: MemberInfo, overWire: bool)
    ensures CarriedMembers(ms[u := info], overWire) ==
            CarriedMembers(ms, overWire)[u := info.(publicKey := Carried(info.publicKey, overWire))]
  {
  }

  lemma StateCarried(ms: map<UserId, MemberInfo>, u: UserId, overWire: bool)
    ensures StateOf(CarriedMembers(ms, overWire), u) == StateOf(ms, u)
  {
  }

  lemma MatchStep(joiner: Room, seed: Room, i: Input, overWire: bool)
    requires Matches(joiner, seed, overWire) && !Stale(seed, i)
    ensures Matches(Step(joiner, Remote(CarriedEvent(Recorded(seed, i), overWire))), Step(seed, i), overWire)
  {
    var e := Recorded(seed, i);
    var f := RemoteEvent(joiner.log, CarriedEvent(e, overWire));
    StateCarried(seed.snap.members, e.userId, overWire);
    if TransitionValid(e.kind, StateOf(seed.snap.members, e.userId)) {
      DispatchCarried(seed.snap.members, e, f, overWire);
    }
  }

  /**
    Joiner replay: for every run of a seed room, replaying its complete log
    into an empty room gives the seed's member table, version and `asOf`, with
    the rejected events included and whatever the terms.
   */
  lemma {:induction false} JoinerReplayEqualsSeed(room: string, joiner: string, inputs: seq<Input>, overWire: bool)
    ensures var seed := Run(EmptyRoom(room), inputs);
            Matches(Replay(EmptyRoom(joiner), seed.log.events, overWire), seed, overWire)
  {
    if inputs != [] {
      var n := |inputs| - 1;
      JoinerReplayEqualsSeed(room, joiner, inputs[..n], overWire);
      var before := Run(EmptyRoom(room), inputs[..n]);
      if !Stale(before, inputs[n]) {
        var e := Recorded(before, inputs[n]);
        var events := before.log.events;
        assert (events + [e])[..|events|] == events;
        MatchStep(Replay(EmptyRoom(joiner), events, overWire), before, inputs[n], overWire);
      }
    }
  }

  ghost predicate NoEmptyKey(ms: map<UserId, MemberInfo>) {
    forall u | u in ms :: ms[u].publicKey != Some([])
  }

  /** Over the wire the tables are equal exactly when no member has an empty public key. */
  lemma ReplayIsExactIff(ms: map<UserId, MemberInfo>)
    ensures CarriedMembers(ms, false) == ms
    ensures CarriedMembers(ms, true) == ms <==> NoEmptyKey(ms)
  {
    if !NoEmptyKey(ms) {
      var u :| u in ms && ms[u].publicKey == Some([]);
      assert CarriedMembers(ms, true)[u].publicKey == None;
    }
  }
}
