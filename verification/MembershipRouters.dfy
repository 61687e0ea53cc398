/**
  The routing table derived from membership events: active peers receive
  broadcasts, held peers wait.
 */
module MembershipRouters {
  import opened Membership

  type Address = (string, int)

  /** Reading "host:port"; an id that cannot be read is never routed to. */
  type Parser = UserId -> Option<Address>

  datatype Table = Table(active: map<UserId, Address>, hold: set<UserId>)

  const EmptyTable := Table(map[], {})

  function Promoted(t: Table, u: UserId, parse: Parser): Table {
    if u !in t.hold then t
    else Table(if parse(u).Some? then t.active[u := parse(u).value] else t.active, t.hold - {u})
  }

  /** One membership event, as the router handles it. */
  function OnEvent(t: Table, self: UserId, parse: Parser, u: UserId, kind: EventType): Table {
    match kind
    case JoinAccepted => if u == self || parse(u).None? then t else Table(t.active - {u}, t.hold + {u})
    case BackfillComplete => Promoted(t, u, parse)
    case DisconnectSuspected => if u in t.active then Table(t.active - {u}, t.hold + {u}) else t
    case Reconnected => Promoted(t, u, parse)
    case LeaveConfirmed => Table(t.active - {u}, t.hold - {u})
    case DisconnectTimeout => Table(t.active - {u}, t.hold - {u})
    case _ => t
  }

  predicate Routed(s: Option<MemberState>) { s == Some(Active) || s == Some(Leaving) }

  predicate OnHold(s: Option<MemberState>) { s == Some(Joining) || s == Some(Backfilling) || s == Some(Suspected) }

  predicate IsPeer(u: UserId, self: UserId, parse: Parser) { u != self && parse(u).Some? }

  ghost predicate MirrorsUser(t: Table, ms: map<UserId, MemberInfo>, self: UserId, parse: Parser, u: UserId) {
    && (u in t.active <==> IsPeer(u, self, parse) && Routed(StateOf(ms, u)))
    && (u in t.hold <==> IsPeer(u, self, parse) && OnHold(StateOf(ms, u)))
    && (u in t.active ==> parse(u) == Some(t.active[u]))
  }

  /** Active and hold are exactly what the member states say, at the right addresses. */
  ghost predicate Mirrors(t: Table, ms: map<UserId, MemberInfo>, self: UserId, parse: Parser) {
    forall u :: MirrorsUser(t, ms, self, parse, u)
  }

  /** The notifier passes on only events that produced a delta. */
  function Notified(t: Table, self: UserId, parse: Parser, room: Room, i: Input): Table {
    if Stale(room, i) || DeltaFor(room.snap, Recorded(room, i)) == None then t
    else OnEvent(t, self, parse, Recorded(room, i).userId, Recorded(room, i).kind)
  }

  function RunTable(t: Table, self: UserId, parse: Parser, room: Room, inputs: seq<Input>): Table {
    if inputs == [] then t
    else
      var n := |inputs| - 1;
      Notified(RunTable(t, self, parse, room, inputs[..n]), self, parse, Run(room, inputs[..n]), inputs[n])
  }

  /** An accepted event moves its user between the sets exactly as the state machine moves it. */
  lemma AcceptedKeepsUser(t: Table, s: Snapshot, e: Event, self: UserId, parse: Parser)
    requires Mirrors(t, s.members, self, parse) && Accepts(s, e)
    ensures var r := if DeltaOf(e.kind) == None then t else OnEvent(t, self, parse, e.userId, e.kind);
            MirrorsUser(r, ApplyEvent(s, e).members, self, parse, e.userId)
  {
    assert MirrorsUser(t, s.members, self, parse, e.userId);
  }

  lemma OthersAreUntouched(t: Table, s: Snapshot, e: Event, self: UserId, parse: Parser, u: UserId)
    requires Mirrors(t, s.members, self, parse) && Accepts(s, e) && u != e.userId
    ensures var r := if DeltaOf(e.kind) == None then t else OnEvent(t, self, parse, e.userId, e.kind);
            MirrorsUser(r, ApplyEvent(s, e).members, self, parse, u)
  {
    assert MirrorsUser(t, s.members, self, parse, u);
    assert StateOf(ApplyEvent(s, e).members, u) == StateOf(s.members, u);
  }

  lemma StepMirrors(t: Table, room: Room, i: Input, self: UserId, parse: Parser)
    requires Mirrors(t, room.snap.members, self, parse)
    ensures Mirrors(Notified(t, self, parse, room, i), Step(room, i).snap.members, self, parse)
  {
    var e := Recorded(room, i);
    if !Stale(room, i) && Accepts(room.snap, e) {
      AcceptedKeepsUser(t, room.snap, e, self, parse);
      var r, ms := Notified(t, self, parse, room, i), Step(room, i).snap.members;
      forall u | u != e.userId ensures MirrorsUser(r, ms, self, parse, u) {
        OthersAreUntouched(t, room.snap, e, self, parse, u);
      }
    }
  }

  /** Over every sequential run, a router that mirrors the room keeps mirroring it. */
  lemma {:induction false} RouterMirrorsRoom(t: Table, room: Room, inputs: seq<Input>, self: UserId, parse: Parser)
    requires Mirrors(t, room.snap.members, self, parse)
    ensures var r := RunTable(t, self, parse, room, inputs);
            && Mirrors(r, Run(room, inputs).snap.members, self, parse)
            && r.active.Keys !! r.hold && self !in r.active && self !in r.hold
  {
    if inputs != [] {
      var n := |inputs| - 1;
      RouterMirrorsRoom(t, room, inputs[..n], self, parse);
      StepMirrors(RunTable(t, self, parse, room, inputs[..n]), Run(room, inputs[..n]), inputs[n], self, parse);
    }
    var r, ms := RunTable(t, self, parse, room, inputs), Run(room, inputs).snap.members;
    forall u ensures !(u in r.active && u in r.hold) && (u == self ==> u !in r.active && u !in r.hold) {
      assert MirrorsUser(r, ms, self, parse, u);
    }
  }

  /** A router attached to a fresh room. */
  lemma FreshRouterMirrors(room: string, inputs: seq<Input>, self: UserId, parse: Parser)
    ensures var r := RunTable(EmptyTable, self, parse, EmptyRoom(room), inputs);
            Mirrors(r, Run(EmptyRoom(room), inputs).snap.members, self, parse) && r.active.Keys !! r.hold
  {
    RouterMirrorsRoom(EmptyTable, EmptyRoom(room), inputs, self, parse);
  }

  // ---- Attaching to a room that already has members ----

  function Attached(ms: map<UserId, MemberInfo>, self: UserId, parse: Parser): Table {
    Table(map u | u in ms && IsPeer(u, self, parse) && ms[u].state == Active :: parse(u).value,
          set u | u in ms && IsPeer(u, self, parse) && OnHold(Some(ms[u].state)))
  }

  /** The initial table mirrors the room exactly when no peer is between its two leave events. */
  lemma AttachMirrorsIff(ms: map<UserId, MemberInfo>, self: UserId, parse: Parser)
    ensures Mirrors(Attached(ms, self, parse), ms, self, parse) <==>
            forall u | u in ms && IsPeer(u, self, parse) :: ms[u].state != Leaving
  {
    var t := Attached(ms, self, parse);
    if u :| u in ms && IsPeer(u, self, parse) && ms[u].state == Leaving {
      assert !MirrorsUser(t, ms, self, parse, u);
    } else {
      forall u ensures MirrorsUser(t, ms, self, parse, u) {
      }
    }
  }

  /** Catch-up from the log: what the subscription replays for logged events beyond the snapshot. */
  function CatchUp(t: Table, self: UserId, parse: Parser, events: seq<Event>): Table {
    if events == [] then t
    else
      var n := |events| - 1;
      var r := CatchUp(t, self, parse, events[..n]);
      if DeltaOf(events[n].kind) == None then r else OnEvent(r, self, parse, events[n].userId, events[n].kind)
  }

  /** Replaying a rejected event of this kind does nothing to a member in this state. */
  predicate Harmless(kind: EventType, s: Option<MemberState>) {
    match kind
    case JoinAccepted => OnHold(s)
    case BackfillComplete => !OnHold(s)
    case DisconnectSuspected => !Routed(s)
    case Reconnected => !OnHold(s)
    case LeaveConfirmed => !OnHold(s) && !Routed(s)
    case DisconnectTimeout => !OnHold(s) && !Routed(s)
    case _ => true
  }

  /** Catch-up looks at event types only: a rejected event leaves the table alone exactly when it is harmless. */
  lemma CatchUpIsHarmlessIff(
      t: Table, ms: map<UserId, MemberInfo>, self: UserId, parse: Parser, u: UserId, kind: EventType)
    requires Mirrors(t, ms, self, parse) && IsPeer(u, self, parse) && !TransitionValid(kind, StateOf(ms, u))
    ensures OnEvent(t, self, parse, u, kind) == t <==> Harmless(kind, StateOf(ms, u))
  {
    assert MirrorsUser(t, ms, self, parse, u);
    assert u !in t.active ==> t.active - {u} == t.active;
    assert u !in t.hold ==> t.hold - {u} == t.hold;
    assert u in t.hold ==> t.hold + {u} == t.hold;
    assert u in t.active ==> u !in (t.active - {u});
  }

  /** An active peer whose second join was rejected is taken out of routing by a subscription that replays the tail. */
  lemma RejectedJoinInTailDemotes(t: Table, ms: map<UserId, MemberInfo>, self: UserId, parse: Parser, e: Event)
    requires Mirrors(t, ms, self, parse) && IsPeer(e.userId, self, parse)
    requires StateOf(ms, e.userId) == Some(Active) && e.kind == JoinAccepted
    ensures e.userId in t.active && e.userId !in CatchUp(t, self, parse, [e]).active
  {
    assert MirrorsUser(t, ms, self, parse, e.userId);
    assert [e][..0] == [];
    assert CatchUp(t, self, parse, []) == t;
  }

  /** Events about this node itself or an unreadable id never change a mirroring table. */
  lemma StrangersChangeNothing(
      t: Table, ms: map<UserId, MemberInfo>, self: UserId, parse: Parser, u: UserId, kind: EventType)
    requires Mirrors(t, ms, self, parse) && !IsPeer(u, self, parse)
    ensures OnEvent(t, self, parse, u, kind) == t
  {
    assert MirrorsUser(t, ms, self, parse, u);
    assert t.active - {u} == t.active && t.hold - {u} == t.hold;
  }

  /** A logged event that replaying does no harm to the table. */
  predicate HarmlessEvent(ms: map<UserId, MemberInfo>, self: UserId, parse: Parser, e: Event) {
    IsPeer(e.userId, self, parse) ==>
      !TransitionValid(e.kind, StateOf(ms, e.userId)) && Harmless(e.kind, StateOf(ms, e.userId))
  }

  /** A tail of harmless events does no harm. */
  lemma {:induction false} HarmlessTailKeepsMirror(
      t: Table, ms: map<UserId, MemberInfo>, self: UserId, parse: Parser, events: seq<Event>)
    requires Mirrors(t, ms, self, parse)
    requires forall i | 0 <= i < |events| :: HarmlessEvent(ms, self, parse, events[i])
    ensures CatchUp(t, self, parse, events) == t
  {
    if events != [] {
      var n := |events| - 1;
      HarmlessTailKeepsMirror(t, ms, self, parse, events[..n]);
      if IsPeer(events[n].userId, self, parse) {
        CatchUpIsHarmlessIff(t, ms, self, parse, events[n].userId, events[n].kind);
      } else {
        StrangersChangeNothing(t, ms, self, parse, events[n].userId, events[n].kind);
      }
    }
  }

  /** The router object; `parse` reads addresses. */
  class MembershipRouter {
    const self: UserId
    const parse: Parser
    var active: map<UserId, Address>
    var hold: set<UserId>

    function State(): Table
      reads this
    {
      Table(active, hold)
    }

    constructor (self: UserId, parse: Parser, members: map<UserId, MemberInfo>)
      ensures this.self == self && this.parse == parse && State() == Attached(members, self, parse)
    {
      this.self, this.parse, this.active, this.hold := self, parse, map[], {};
      new;
      LoadMembers(members);
    }

    /** Populate both sets from the members' current states. */
    method LoadMembers(members: map<UserId, MemberInfo>)
      requires active == map[] && hold == {}
      modifies this`active, this`hold
      ensures State() == Attached(members, self, parse)
    {
      var todo := members.Keys;
      assert members - todo == map[];
      while todo != {}
        invariant todo <= members.Keys
        invariant State() == Attached(members - todo, self, parse)
        decreases |todo|
      {
        var u :| u in todo;
        ghost var before := members - todo;
        Place(u, members[u].state);
        todo := todo - {u};
        AttachGrows(before, members - todo, u, members[u], self, parse);
      }
      assert members - {} == members;
    }

    /** One member, by its current state. */
    method Place(u: UserId, s: MemberState)
      modifies this`active, this`hold
      ensures State() == Placed(old(State()), u, s, self, parse)
    {
      if parse(u).None? || u == self {
        return;
      }
      if s == Active {
        active := active[u := parse(u).value];
      } else if s in {Joining, Backfilling, Suspected} {
        hold := hold + {u};
      }
    }

    method HandleJoinAccepted(u: UserId)
      modifies this`active, this`hold
      ensures State() == OnEvent(old(State()), self, parse, u, JoinAccepted)
    {
      if u == self || parse(u).None? {
        return;
      }
      active := active - {u};
      hold := hold + {u};
    }

    /** Backfill done, or reconnected: from hold to active. */
    method Promote(u: UserId)
      modifies this`active, this`hold
      ensures State() == Promoted(old(State()), u, parse)
    {
      if u in hold {
        hold := hold - {u};
        if parse(u).Some? {
          active := active[u := parse(u).value];
        }
      }
    }

    method HandleDisconnectSuspected(u: UserId)
      modifies this`active, this`hold
      ensures State() == OnEvent(old(State()), self, parse, u, DisconnectSuspected)
    {
      if u in active {
        active := active - {u};
        hold := hold + {u};
      }
    }

    method Remove(u: UserId)
      modifies this`active, this`hold
      ensures State() == OnEvent(old(State()), self, parse, u, LeaveConfirmed)
    {
      active := active - {u};
      hold := hold - {u};
    }

    method OnMembershipEvent(u: UserId, kind: EventType)
      modifies this`active, this`hold
      ensures State() == OnEvent(old(State()), self, parse, u, kind)
    {
      match kind {
        case JoinAccepted => HandleJoinAccepted(u);
        case BackfillComplete => Promote(u);
        case DisconnectSuspected => HandleDisconnectSuspected(u);
        case Reconnected => Promote(u);
        case LeaveConfirmed => Remove(u);
        case DisconnectTimeout => Remove(u);
        case _ =>
      }
    }
  }

  lemma AttachGrows(
      before: map<UserId, MemberInfo>, after: map<UserId, MemberInfo>, u: UserId, m: MemberInfo,
      self: UserId, parse: Parser)
    requires u !in before && after == before[u := m]
    ensures Attached(after, self, parse) == Placed(Attached(before, self, parse), u, m.state, self, parse)
  {
    var a, b := Attached(after, self, parse), Placed(Attached(before, self, parse), u, m.state, self, parse);
    assert a.active == b.active;
    assert a.hold == b.hold;
  }

  function Placed(t: Table, u: UserId, s: MemberState, self: UserId, parse: Parser): Table {
    if !IsPeer(u, self, parse) then t
    else if s == Active then t.(active := t.active[u := parse(u).value])
    else if OnHold(Some(s)) then t.(hold := t.hold + {u})
    else t
  }
}
