/**
  The objects of a room: the event log, the snapshot and the coordinator, the
  only writer, with the presence manager it drives and the router subscribed
  to it.  Each method is proved to compute the corresponding step of the hub.
 */
module Coordinators {
  import opened Clocks
  import opened Membership
  import opened Presence
  import opened MembershipRouters
  import opened Coordination
  import opened Sequences

  datatype AppendResult = Appended(event: Event) | StaleTermError

  class MembershipEventLog {
    const roomId: string
    var events: seq<Event>
    var nextSeq: nat
    var term: int

    function State(): Log
      reads this
    {
      Log(roomId, events, nextSeq, term)
    }

    constructor (roomId: string)
      ensures State() == EmptyLog(roomId)
    {
      this.roomId, events, nextSeq, term := roomId, [], 1, 1;
    }

    method Append(r: Request) returns (res: AppendResult)
      modifies this
      ensures res.StaleTermError? <==> r.term < old(term)
      ensures res.StaleTermError? ==> State() == old(State())
      ensures res.Appended? ==> res.event == LocalEvent(old(State()), r) && State() == Logged(old(State()), res.event)
      ensures res.Appended? ==> var e := res.event;
        && e.kind == r.kind && e.userId == r.userId && e.displayName == r.displayName && e.source == r.source
        && e.timestamp == r.timestamp && e.publicKey == r.publicKey && e.traceId == r.traceId && e.originator == None
        && e.roomId == roomId && e.seqNo == e.version == old(nextSeq) && r.term == e.term == term
        && events == old(events) + [e] && nextSeq == old(nextSeq) + 1
    {
      if r.term < term {
        return StaleTermError;
      }
      if r.term > term {
        term := r.term;
      }
      var e := Event(nextSeq, roomId, r.userId, r.kind, r.timestamp, nextSeq, r.source, term,
                     r.traceId, r.displayName, None, r.publicKey);
      events := events + [e];
      nextSeq := nextSeq + 1;
      return Appended(e);
    }

    method AppendRemote(e: Event) returns (local: Event)
      modifies this
      ensures local == RemoteEvent(old(State()), e) && State() == Logged(old(State()), local)
      ensures
        && local.kind == e.kind && local.userId == e.userId && local.displayName == e.displayName
        && local.source == "remote" && local.timestamp == e.timestamp && local.publicKey == e.publicKey
        && local.traceId == e.traceId && local.originator == e.originator && local.roomId == roomId
        && local.seqNo == local.version == old(nextSeq) && local.term == term >= e.term && term >= old(term)
        && events == old(events) + [local] && nextSeq == old(nextSeq) + 1
    {
      if e.term > term {
        term := e.term;
      }
      local := Event(nextSeq, roomId, e.userId, e.kind, e.timestamp, nextSeq, "remote", term,
                     e.traceId, e.displayName, e.originator, e.publicKey);
      events := events + [local];
      nextSeq := nextSeq + 1;
    }

    method GetEventsSince(seqNo: nat) returns (later: seq<Event>)
      ensures later == Since(events, seqNo)
    {
      later := [];
      for i := 0 to |events|
        invariant later == Since(events[..i], seqNo)
      {
        assert events[..i + 1][..i] == events[..i];
        if events[i].seqNo > seqNo {
          later := later + [events[i]];
        }
      }
      assert events[..|events|] == events;
    }
  }

  class MembershipSnapshot {
    const roomId: string
    var members: map<UserId, MemberInfo>
    var version: nat
    var asOf: nat

    function State(): Snapshot
      reads this
    {
      Snapshot(roomId, members, version, asOf)
    }

    constructor (roomId: string)
      ensures State() == EmptySnapshot(roomId)
    {
      this.roomId, members, version, asOf := roomId, map[], 0, 0;
    }

    method Update(u: UserId, s: MemberState, v: nat)
      requires u in members
      modifies this`members
      ensures members == old(members)[u := old(members)[u].(state := s, version := v)]
    {
      members := members[u := members[u].(state := s, version := v)];
    }

    /** Apply one event; the delta is what subscribers are told. */
    method Apply(e: Event) returns (delta: Option<DeltaType>)
      modifies this
      ensures State() == ApplyEvent(old(State()), e)
      ensures delta == DeltaFor(old(State()), e)
    {
      if e.seqNo <= asOf || !TransitionValid(e.kind, StateOf(members, e.userId)) {
        return None;
      }
      var u := e.userId;
      match e.kind {
        case JoinRequested =>
        case JoinRejected =>
        case JoinAccepted =>
          var member := MemberInfo(u, e.displayName, Joining, e.timestamp, e.timestamp, e.version, e.publicKey);
          members := members[u := member];
        case BackfillStarted => Update(u, Backfilling, e.version);
        case BackfillComplete => Update(u, Active, e.version);
        case LeaveRequested => Update(u, Leaving, e.version);
        case LeaveConfirmed => Update(u, Left, e.version);
        case Heartbeat => members := members[u := members[u].(lastHeartbeat := e.timestamp)];
        case DisconnectSuspected => Update(u, Suspected, e.version);
        case DisconnectTimeout => Update(u, Disconnected, e.version);
        case Reconnected =>
          members := members[u := members[u].(state := Active, lastHeartbeat := e.timestamp, version := e.version)];
      }
      version, asOf := e.version, e.seqNo;
      return DeltaOf(e.kind);
    }
  }

  class MembershipCoordinator {
    const local: Option<UserId>
    const log: MembershipEventLog
    const snap: MembershipSnapshot
    const presence: PresenceManager
    const router: MembershipRouter
    var told: seq<Event>

    function State(): Hub
      reads this, log, snap, presence, router
    {
      Hub(Room(log.State(), snap.State()), presence.members, told, router.State())
    }

    function TheSetup(): Setup {
      Setup(presence.config, local, router.self, router.parse)
    }

    constructor (roomId: string, local: Option<UserId>, config: Config, self: UserId, parse: Parser)
      ensures State() == FreshHub(roomId) && this.local == local && presence.config == config
      ensures router.self == self && router.parse == parse
      ensures fresh(log) && fresh(snap) && fresh(presence) && fresh(router)
    {
      this.local := local;
      log := new MembershipEventLog(roomId);
      snap := new MembershipSnapshot(roomId);
      presence := new PresenceManager(config);
      router := new MembershipRouter(self, parse, map[]);
      told := [];
      new;
      assert router.State() == EmptyTable;
    }

    /** Subscribers are told of every event with a delta. */
    method Dispatch(e: Event, delta: Option<DeltaType>)
      modifies this`told, router
      ensures told == if delta != None then old(told) + [e] else old(told)
      ensures router.State() ==
        if delta != None then OnEvent(old(router.State()), router.self, router.parse, e.userId, e.kind)
        else old(router.State())
    {
      if delta != None {
        told := told + [e];
        router.OnMembershipEvent(e.userId, e.kind);
      }
    }

    /** Append, apply, notify. */
    method Commits(r: Request) returns (raised: bool)
      modifies this`told, log, snap, router
      ensures Result(State(), raised) == Commit(TheSetup(), old(State()), r)
    {
      var res := log.Append(r);
      if res.StaleTermError? {
        return true;
      }
      var delta := snap.Apply(res.event);
      Dispatch(res.event, delta);
      return false;
    }

    method HandleJoin(
        u: UserId, name: string, key: Option<Key>, trace: Option<string>, duplicate: bool, refused: bool, now: Time)
      returns (accepted: bool, raised: bool)
      modifies this, log, snap, presence, router
      ensures Result(State(), raised) ==
        Outcome(TheSetup(), old(State()), Join(u, name, key, trace, duplicate, refused, now))
      ensures accepted <==> !duplicate && !refused && !raised
    {
      if duplicate {
        return false, false;
      }
      if refused {
        var rejected := LocalEvent(log.State(), Ask(JoinRejected, u, name, now));
        raised := Commits(Ask(JoinRejected, u, name, now));
        if !raised {
          told := told + [rejected];
        }
        return false, raised;
      }
      raised := Commits(Request(JoinAccepted, u, "coordinator", COORDINATOR_TERM, name, trace, key, now));
      if raised {
        return false, true;
      }
      if Some(u) != local {
        presence.RegisterMember(u, now);
      }
      return true, false;
    }

    method HandleLeave(u: UserId, now: Time) returns (raised: bool)
      modifies this, log, snap, presence, router
      ensures Result(State(), raised) == LeaveOf(TheSetup(), old(State()), u, now)
    {
      if u !in snap.members || snap.members[u].state in {Left, Disconnected} {
        return false;
      }
      var current := snap.members[u];
      if current.state != Leaving {
        raised := Commits(Ask(LeaveRequested, u, current.displayName, now));
        if raised {
          return true;
        }
      }
      raised := Commits(Ask(LeaveConfirmed, u, current.displayName, now));
      if !raised {
        presence.UnregisterMember(u);
      }
    }

    method HandleBackfill(u: UserId, start: bool, now: Time) returns (raised: bool)
      modifies this`told, log, snap, router
      ensures Result(State(), raised) == Backfilled(TheSetup(), old(State()), u, start, now)
    {
      if u !in snap.members || snap.members[u].state != (if start then Joining else Backfilling) {
        return false;
      }
      raised := Commits(Ask(if start then BackfillStarted else BackfillComplete, u, snap.members[u].displayName, now));
    }

    method HandlePresenceChange(u: UserId, c: PresenceChange, now: Time) returns (raised: bool)
      modifies this, log, snap, presence, router
      ensures Result(State(), raised) == Changed(TheSetup(), old(State()), u, c, now)
    {
      if u !in snap.members {
        return false;
      }
      raised := Commits(Ask(ChangeEvent(c), u, snap.members[u].displayName, now).(source := "presence"));
      if c == TimedOut && !raised {
        presence.UnregisterMember(u);
      }
    }

    method HandleHeartbeat(u: UserId, now: Time) returns (raised: bool)
      modifies this, log, snap, presence, router
      ensures Result(State(), raised) == HeartbeatOf(TheSetup(), old(State()), u, now)
    {
      if u !in snap.members {
        return false;
      }
      raised := Commits(Ask(Heartbeat, u, snap.members[u].displayName, now));
      if !raised {
        var reconnected := presence.RecordHeartbeat(u, now);
        if reconnected {
          raised := HandlePresenceChange(u, CameBack, now);
        }
      }
    }

    /** One entry of the liveness check, with its callback. */
    method CheckEntry(u: UserId, now: Time) returns (raised: bool)
      modifies this, log, snap, presence, router
      ensures Result(State(), raised) == CheckOne(TheSetup(), old(State()), u, now)
    {
      raised := false;
      var change := presence.CheckMember(u, now);
      if change != None {
        raised := HandlePresenceChange(u, change.value, now);
      }
    }

    /** The liveness check over the entries in some order. */
    method CheckLiveness(now: Time) returns (raised: bool, ghost order: seq<UserId>)
      modifies this, log, snap, presence, router
      ensures Result(State(), raised) == Checks(TheSetup(), old(State()), order, now)
      ensures !raised ==> Enumerates(order, old(presence.members.Keys))
    {
      ghost var start, keys := State(), presence.members.Keys;
      order, raised := [], false;
      var todo := presence.members.Keys;
      while todo != {}
        invariant !raised && Result(State(), false) == Checks(TheSetup(), start, order, now)
        invariant Enumerates(order, keys - todo) && todo <= keys
        decreases |todo|
      {
        var u :| u in todo;
        EnumeratesMore(order, keys, todo, u);
        ChecksGoOn(TheSetup(), start, order, u, now);
        order := order + [u];
        raised := CheckEntry(u, now);
        if raised {
          return;
        }
        todo := todo - {u};
      }
    }

    /** One member of the sweep. */
    method SweepEntry(copy: map<UserId, MemberInfo>, u: UserId, now: Time) returns (raised: bool)
      modifies this, log, snap, presence, router
      ensures Result(State(), raised) == SweepOne(TheSetup(), old(State()), copy, u, now)
    {
      raised := false;
      if Stuck(copy, u, now) {
        raised := Commits(Ask(DisconnectTimeout, u, copy[u].displayName, now));
        if !raised {
          presence.UnregisterMember(u);
        }
      }
    }

    /** Disconnect everyone whose backfill has taken too long. */
    method SweepBackfillTimeouts(now: Time) returns (raised: bool, ghost order: seq<UserId>)
      modifies this, log, snap, presence, router
      ensures Result(State(), raised) == Sweeps(TheSetup(), old(State()), old(snap.members), order, now)
      ensures !raised ==> Enumerates(order, old(snap.members.Keys))
    {
      ghost var start := State();
      order, raised := [], false;
      var copy := snap.members;
      var todo := copy.Keys;
      while todo != {}
        invariant !raised && Result(State(), false) == Sweeps(TheSetup(), start, copy, order, now)
        invariant Enumerates(order, copy.Keys - todo) && todo <= copy.Keys
        decreases |todo|
      {
        var u :| u in todo;
        EnumeratesMore(order, copy.Keys, todo, u);
        SweepsGoOn(TheSetup(), start, copy, order, u, now);
        order := order + [u];
        raised := SweepEntry(copy, u, now);
        if raised {
          return;
        }
        todo := todo - {u};
      }
    }

    /** Periodic maintenance. */
    method DoTick(now: Time) returns (raised: bool, ghost order: seq<UserId>, ghost sweep: seq<UserId>)
      modifies this, log, snap, presence, router
      ensures Result(State(), raised) == Ticked(TheSetup(), old(State()), order, sweep, now)
      ensures !raised ==> Regular(old(State()), Tick(now, order, sweep))
    {
      sweep := [];
      raised, order := CheckLiveness(now);
      if !raised {
        raised, sweep := SweepBackfillTimeouts(now);
      }
    }

    method ApplyRemoteEvent(e: Event, now: Time)
      modifies this, log, snap, presence, router
      ensures State() == Gossiped(TheSetup(), old(State()), e, now)
    {
      var localEvent := log.AppendRemote(e);
      var delta := snap.Apply(localEvent);
      Dispatch(localEvent, delta);
      if e.kind in {JoinAccepted, Heartbeat} {
        presence.RegisterMember(e.userId, now);
        if e.kind == Heartbeat {
          var _ := presence.RecordHeartbeat(e.userId, now);
        }
      }
    }

    /** A joiner ingesting a seed's events one by one: the room is the replay, and presence and router follow. */
    method ApplyRemoteSnapshot(events: seq<Event>, now: Time)
      modifies this, log, snap, presence, router
      ensures State() == GossipedAll(TheSetup(), old(State()), events, now)
      ensures State().room == Replay(old(State()).room, events, false)
    {
      ghost var start := State();
      for i := 0 to |events|
        invariant State() == GossipedAll(TheSetup(), start, events[..i], now)
      {
        assert events[..i + 1][..i] == events[..i];
        ApplyRemoteEvent(events[i], now);
      }
      assert events[..|events|] == events;
      GossipReplays(TheSetup(), start, events, now);
    }
  }

  lemma EnumeratesMore(order: seq<UserId>, keys: set<UserId>, todo: set<UserId>, u: UserId)
    requires Enumerates(order, keys - todo) && u in todo && todo <= keys
    ensures Enumerates(order + [u], keys - (todo - {u}))
  {
    var more := order + [u];
    assert more[..|order|] == order;
    ElemsLast(more);
    assert keys - (todo - {u}) == keys - todo + {u};
    forall i | 0 <= i < |order| ensures order[i] != u {
      assert order[i] in Elems(order);
    }
  }
}
