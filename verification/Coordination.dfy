/**
  The coordinator of a room over whole runs: membership events, presence and
  the routing table together.

  A hub is the room's log and snapshot, the presence entries, the events
  subscribers were told, and the routing table of a subscribed router.  All
  local appends carry term 1; once a remote event has raised the log's term
  every local append raises an exception, which ends the handler it happens in.
 */
module Coordination {
  import opened Clocks
  import opened Membership
  import opened Presence
  import opened MembershipRouters
  import opened Sequences

  const BACKFILL_TIMEOUT: Time := 30.0
  const COORDINATOR_TERM: int := 1

  /** What does not change: presence timing, this node's own ids, and how addresses are read. */
  datatype Setup = Setup(config: Config, local: Option<UserId>, self: UserId, parse: Parser)

  datatype Hub = Hub(room: Room, tracked: Tracked, told: seq<Event>, table: Table)

  /** A handler's effect, and whether it ended in an exception. */
  datatype Result = Result(hub: Hub, raised: bool)

  function StateIn(h: Hub, u: UserId): Option<MemberState> { StateOf(h.room.snap.members, u) }

  function Ask(kind: EventType, u: UserId, name: string, now: Time): Request {
    Request(kind, u, "coordinator", COORDINATOR_TERM, name, None, None, now)
  }

  /** Append, apply, and tell subscribers if there is a delta. */
  function Told(x: Setup, h: Hub, i: Input): Hub {
    if Stale(h.room, i) then h
    else
      var e := Recorded(h.room, i);
      Hub(Step(h.room, i), h.tracked,
          if DeltaFor(h.room.snap, e) != None then h.told + [e] else h.told,
          Notified(h.table, x.self, x.parse, h.room, i))
  }

  function Commit(x: Setup, h: Hub, r: Request): Result {
    Result(Told(x, h, Local(r)), Stale(h.room, Local(r)))
  }

  function Untracked(r: Result, u: UserId): Result {
    if r.raised then r else r.(hub := r.hub.(tracked := r.hub.tracked - {u}))
  }

  // ---- The handlers ----

  /** A refused join is logged and subscribers are told, although it changes no member. */
  function Refused(x: Setup, h: Hub, u: UserId, name: string, now: Time): Result {
    var r := Commit(x, h, Ask(JoinRejected, u, name, now));
    if r.raised then r
    else r.(hub := r.hub.(told := h.told + [LocalEvent(h.room.log, Ask(JoinRejected, u, name, now))]))
  }

  function Joined(
      x: Setup, h: Hub, u: UserId, name: string, key: Option<Key>, trace: Option<string>, now: Time): Result
  {
    var r := Commit(x, h, Request(JoinAccepted, u, "coordinator", COORDINATOR_TERM, name, trace, key, now));
    if r.raised || x.local == Some(u) then r
    else r.(hub := r.hub.(tracked := Apply(x.config, r.hub.tracked, Register(u, now))))
  }

  /** Nothing for an absent, left or disconnected member; otherwise up to two events, and the member is untracked. */
  function LeaveOf(x: Setup, h: Hub, u: UserId, now: Time): Result {
    var s := StateIn(h, u);
    if s in {None, Some(Left), Some(Disconnected)} then Result(h, false)
    else
      var name := h.room.snap.members[u].displayName;
      if s == Some(Leaving) then Confirmed(x, h, u, name, now) else RequestedAndConfirmed(x, h, u, name, now)
  }

  function Confirmed(x: Setup, h: Hub, u: UserId, name: string, now: Time): Result {
    Untracked(Commit(x, h, Ask(LeaveConfirmed, u, name, now)), u)
  }

  function RequestedAndConfirmed(x: Setup, h: Hub, u: UserId, name: string, now: Time): Result {
    var mid := Commit(x, h, Ask(LeaveRequested, u, name, now));
    if mid.raised then mid else Confirmed(x, mid.hub, u, name, now)
  }

  function ChangeEvent(c: PresenceChange): EventType {
    match c
    case WentSuspect => DisconnectSuspected
    case TimedOut => DisconnectTimeout
    case CameBack => Reconnected
  }

  /** The presence callback; a timeout of a known member ends its tracking. */
  function Changed(x: Setup, h: Hub, u: UserId, c: PresenceChange, now: Time): Result {
    if u !in h.room.snap.members then Result(h, false)
    else
      var r := Commit(x, h, Ask(ChangeEvent(c), u, h.room.snap.members[u].displayName, now).(source := "presence"));
      if c == TimedOut then Untracked(r, u) else r
  }

  /** A heartbeat of a known member; if presence held it suspect, it is reported back. */
  function HeartbeatOf(x: Setup, h: Hub, u: UserId, now: Time): Result {
    if u !in h.room.snap.members then Result(h, false)
    else
      var r := Commit(x, h, Ask(Heartbeat, u, h.room.snap.members[u].displayName, now));
      if r.raised then r
      else
        var heard := r.hub.(tracked := Apply(x.config, h.tracked, Beat(u, now)));
        if u in h.tracked && h.tracked[u].suspected then Changed(x, heard, u, CameBack, now) else Result(heard, false)
  }

  /** Starting needs JOINING, completing needs BACKFILLING. */
  function Backfilled(x: Setup, h: Hub, u: UserId, start: bool, now: Time): Result {
    if StateIn(h, u) != Some(if start then Joining else Backfilling) then Result(h, false)
    else
      var name := h.room.snap.members[u].displayName;
      Commit(x, h, Ask(if start then BackfillStarted else BackfillComplete, u, name, now))
  }

  /** A gossiped event; joins and heartbeats give the user a fresh presence entry, whoever it is. */
  function Gossiped(x: Setup, h: Hub, e: Event, now: Time): Hub {
    var r := Told(x, h, Remote(e));
    if e.kind in {JoinAccepted, Heartbeat}
    then r.(tracked := Apply(x.config, h.tracked, Register(e.userId, now)))
    else r
  }

  /** A batch of gossiped events, one by one. */
  function GossipedAll(x: Setup, h: Hub, events: seq<Event>, now: Time): Hub {
    if events == [] then h
    else Gossiped(x, GossipedAll(x, h, events[..|events| - 1], now), events[|events| - 1], now)
  }

  /** Seen from the room alone, a batch is the replay of a joiner. */
  lemma {:induction false} GossipReplays(x: Setup, h: Hub, events: seq<Event>, now: Time)
    ensures GossipedAll(x, h, events, now).room == Replay(h.room, events, false)
  {
    if events != [] {
      GossipReplays(x, h, events[..|events| - 1], now);
      assert CarriedEvent(events[|events| - 1], false) == events[|events| - 1];
    }
  }

  // ---- The periodic tick ----

  /** One member of the liveness check: its entry, then the callback. */
  function CheckOne(x: Setup, h: Hub, u: UserId, now: Time): Result {
    if u !in h.tracked then Result(h, false)
    else
      var e := h.tracked[u];
      var marked := h.(tracked := h.tracked[u := Checked(x.config, e, now)]);
      match Reported(x.config, e, now)
      case None => Result(marked, false)
      case Some(c) => Changed(x, marked, u, c, now)
  }

  /** The check in the order the entries are listed; an exception ends it. */
  function Checks(x: Setup, h: Hub, order: seq<UserId>, now: Time): Result {
    if order == [] then Result(h, false)
    else
      var r := Checks(x, h, order[..|order| - 1], now);
      if r.raised then r else CheckOne(x, r.hub, order[|order| - 1], now)
  }

  lemma ChecksGoOn(x: Setup, h: Hub, order: seq<UserId>, u: UserId, now: Time)
    requires !Checks(x, h, order, now).raised
    ensures Checks(x, h, order + [u], now) == CheckOne(x, Checks(x, h, order, now).hub, u, now)
  {
    assert (order + [u])[..|order|] == order;
  }

  predicate Stuck(ms: map<UserId, MemberInfo>, u: UserId, now: Time) {
    u in ms && ms[u].state == Backfilling && now - ms[u].joinedAt > BACKFILL_TIMEOUT
  }

  /** One member of the sweep, looked up in the copy taken before it. */
  function SweepOne(x: Setup, h: Hub, copy: map<UserId, MemberInfo>, u: UserId, now: Time): Result {
    if Stuck(copy, u, now) then Untracked(Commit(x, h, Ask(DisconnectTimeout, u, copy[u].displayName, now)), u)
    else Result(h, false)
  }

  function Sweeps(x: Setup, h: Hub, copy: map<UserId, MemberInfo>, order: seq<UserId>, now: Time): Result {
    if order == [] then Result(h, false)
    else
      var r := Sweeps(x, h, copy, order[..|order| - 1], now);
      if r.raised then r else SweepOne(x, r.hub, copy, order[|order| - 1], now)
  }

  lemma SweepsGoOn(x: Setup, h: Hub, copy: map<UserId, MemberInfo>, order: seq<UserId>, u: UserId, now: Time)
    requires !Sweeps(x, h, copy, order, now).raised
    ensures Sweeps(x, h, copy, order + [u], now) == SweepOne(x, Sweeps(x, h, copy, order, now).hub, copy, u, now)
  {
    assert (order + [u])[..|order|] == order;
  }

  function Ticked(x: Setup, h: Hub, order: seq<UserId>, sweep: seq<UserId>, now: Time): Result {
    var r := Checks(x, h, order, now);
    if r.raised then r else Sweeps(x, r.hub, r.hub.room.snap.members, sweep, now)
  }

  // ---- Runs ----

  datatype Action =
    | Join(
        user: UserId, name: string, key: Option<Key>, trace: Option<string>, duplicate: bool, refused: bool, now: Time)
    | Leave(user: UserId, now: Time)
    | HeartbeatFrom(user: UserId, now: Time)
    | Backfill(user: UserId, start: bool, now: Time)
    | Gossip(event: Event, now: Time)
    | Tick(now: Time, order: seq<UserId>, sweep: seq<UserId>)

  function Outcome(x: Setup, h: Hub, a: Action): Result {
    match a
    case Join(u, name, key, trace, duplicate, refused, now) =>
      if duplicate then Result(h, false)
      else if refused then Refused(x, h, u, name, now)
      else Joined(x, h, u, name, key, trace, now)
    case Leave(u, now) => LeaveOf(x, h, u, now)
    case HeartbeatFrom(u, now) => HeartbeatOf(x, h, u, now)
    case Backfill(u, start, now) => Backfilled(x, h, u, start, now)
    case Gossip(e, now) => Result(Gossiped(x, h, e, now), false)
    case Tick(now, order, sweep) => Ticked(x, h, order, sweep, now)
  }

  function Acts(x: Setup, h: Hub, actions: seq<Action>): Hub {
    if actions == [] then h else Outcome(x, Acts(x, h, actions[..|actions| - 1]), actions[|actions| - 1]).hub
  }

  /** Every key once. */
  ghost predicate Enumerates(order: seq<UserId>, keys: set<UserId>) {
    Elems(order) == keys && forall i, j | 0 <= i < j < |order| :: order[i] != order[j]
  }

  // ---- What an action shows of one member ----

  /** A member as the room and presence see it, and the kinds of its events in the log. */
  datatype View = View(state: Option<MemberState>, entry: Option<Entry>, kinds: seq<EventType>)

  function KindsOf(events: seq<Event>, u: UserId): seq<EventType> {
    if events == [] then []
    else
      var last := events[|events| - 1];
      KindsOf(events[..|events| - 1], u) + (if last.userId == u then [last.kind] else [])
  }

  function Of(h: Hub, u: UserId): View {
    View(StateIn(h, u), if u in h.tracked then Some(h.tracked[u]) else None, KindsOf(h.room.log.events, u))
  }

  /** Term 1, numbers ahead of the snapshot, and a router that mirrors the room. */
  ghost predicate Fine(x: Setup, h: Hub) {
    && h.room.log.term <= COORDINATOR_TERM && h.room.snap.asOf < h.room.log.nextSeq
    && Mirrors(h.table, h.room.snap.members, x.self, x.parse)
  }

  /** The state an event of this kind leads to when the log accepts it, or else leaves. */
  function Led(s: Option<MemberState>, kind: EventType): Option<MemberState> {
    if TransitionValid(kind, s) && Target(kind) != None then Target(kind) else s
  }

  lemma KindsSnoc(events: seq<Event>, e: Event, u: UserId)
    ensures KindsOf(events + [e], u) == if e.userId == u then KindsOf(events, u) + [e.kind] else KindsOf(events, u)
  {
    assert (events + [e])[..|events|] == events;
    assert KindsOf(events, u) + [] == KindsOf(events, u);
  }

  lemma StepLeads(room: Room, i: Input, u: UserId)
    requires room.snap.asOf < room.log.nextSeq && !Stale(room, i)
    ensures var e := Recorded(room, i); var s := StateOf(room.snap.members, u);
            StateOf(Step(room, i).snap.members, u) == if e.userId == u then Led(s, e.kind) else s
  {
  }

  /** One appended event, seen from any member. */
  lemma ToldView(x: Setup, h: Hub, i: Input, u: UserId)
    requires Fine(x, h) && (i.Local? ==> i.request.term == COORDINATOR_TERM)
    requires i.Remote? ==> i.event.term <= COORDINATOR_TERM
    ensures !Stale(h.room, i) && Fine(x, Told(x, h, i)) && Told(x, h, i).tracked == h.tracked
    ensures var e := Recorded(h.room, i); var v := Of(h, u);
            Of(Told(x, h, i), u) ==
            if e.userId == u then v.(state := Led(v.state, e.kind), kinds := v.kinds + [e.kind]) else v
  {
    StepMirrors(h.table, h.room, i, x.self, x.parse);
    StepLeads(h.room, i, u);
    KindsSnoc(h.room.log.events, Recorded(h.room, i), u);
  }

  lemma CommitView(x: Setup, h: Hub, r: Request, u: UserId)
    requires Fine(x, h) && r.term == COORDINATOR_TERM
    ensures var c := Commit(x, h, r); var v := Of(h, u);
            && !c.raised && Fine(x, c.hub) && c.hub.tracked == h.tracked
            && Of(c.hub, u) ==
               if r.userId == u then v.(state := Led(v.state, r.kind), kinds := v.kinds + [r.kind]) else v
  {
    ToldView(x, h, Local(r), u);
  }

  /** Presence moves only the entry. */
  lemma EntryView(x: Setup, h: Hub, tracked: Tracked, u: UserId)
    requires Fine(x, h)
    ensures var r := h.(tracked := tracked);
            Fine(x, r) && Of(r, u) == Of(h, u).(entry := if u in tracked then Some(tracked[u]) else None)
  {
  }

  lemma ChangedView(x: Setup, h: Hub, u: UserId, c: PresenceChange, now: Time, w: UserId)
    requires Fine(x, h)
    ensures var r := Changed(x, h, u, c, now); var v := Of(h, w);
            && !r.raised && Fine(x, r.hub)
            && Of(r.hub, w) ==
               if w != u || v.state == None then v
               else View(Led(v.state, ChangeEvent(c)),
                         if c == TimedOut then None else v.entry,
                         v.kinds + [ChangeEvent(c)])
  {
    if u in h.room.snap.members {
      var r := Ask(ChangeEvent(c), u, h.room.snap.members[u].displayName, now).(source := "presence");
      CommitView(x, h, r, w);
      EntryView(x, Commit(x, h, r).hub, h.tracked - {u}, w);
    }
  }

  // ---- A tick, seen from one member ----

  /** What a liveness check does to a known member. */
  function CheckedView(c: Config, v: View, now: Time): View {
    match v.entry
    case None => v
    case Some(e) =>
      match Reported(c, e, now)
      case None => v
      case Some(WentSuspect) =>
        View(Led(v.state, DisconnectSuspected), Some(Checked(c, e, now)), v.kinds + [DisconnectSuspected])
      case Some(_) => View(Led(v.state, DisconnectTimeout), None, v.kinds + [DisconnectTimeout])
  }

  lemma CheckOneView(x: Setup, h: Hub, u: UserId, now: Time, w: UserId)
    requires Fine(x, h)
    ensures var r := CheckOne(x, h, u, now);
            && !r.raised && Fine(x, r.hub)
            && (w != u ==> Of(r.hub, w) == Of(h, w))
            && (w == u && w in h.room.snap.members ==> Of(r.hub, w) == CheckedView(x.config, Of(h, w), now))
  {
    if u in h.tracked {
      var e := h.tracked[u];
      var tracked := h.tracked[u := Checked(x.config, e, now)];
      EntryView(x, h, tracked, w);
      var c := Reported(x.config, e, now);
      if c.Some? {
        ChangedView(x, h.(tracked := tracked), u, c.value, now, w);
      }
    }
  }

  lemma {:induction false} ChecksView(x: Setup, h: Hub, order: seq<UserId>, now: Time, w: UserId)
    requires Fine(x, h) && w in h.room.snap.members && forall i, j | 0 <= i < j < |order| :: order[i] != order[j]
    ensures var r := Checks(x, h, order, now);
            && !r.raised && Fine(x, r.hub)
            && Of(r.hub, w) == if w in Elems(order) then CheckedView(x.config, Of(h, w), now) else Of(h, w)
  {
    if order != [] {
      var front, last := order[..|order| - 1], order[|order| - 1];
      ChecksView(x, h, front, now, w);
      var mid := Checks(x, h, front, now).hub;
      ElemsLast(order);
      assert last !in Elems(front);
      assert Of(mid, w).state != None;
      CheckOneView(x, mid, last, now, w);
    }
  }

  /** What the sweep does to a member that is stuck in its backfill. */
  function SweptView(v: View, stuck: bool): View {
    if stuck then View(Some(Disconnected), None, v.kinds + [DisconnectTimeout]) else v
  }

  lemma SweepOneView(x: Setup, h: Hub, copy: map<UserId, MemberInfo>, u: UserId, now: Time, w: UserId)
    requires Fine(x, h)
    ensures var r := SweepOne(x, h, copy, u, now);
            && !r.raised && Fine(x, r.hub)
            && (w != u ==> Of(r.hub, w) == Of(h, w))
            && (StateIn(h, w) == StateOf(copy, w) ==>
                  Of(r.hub, w) == SweptView(Of(h, w), w == u && Stuck(copy, w, now)))
  {
    if Stuck(copy, u, now) {
      var r := Ask(DisconnectTimeout, u, copy[u].displayName, now);
      CommitView(x, h, r, w);
      EntryView(x, Commit(x, h, r).hub, h.tracked - {u}, w);
    }
  }

  /** The sweep disconnects and untracks exactly the members stuck in their backfill, with one event each. */
  lemma {:induction false} SweepsView(
      x: Setup, h: Hub, copy: map<UserId, MemberInfo>, order: seq<UserId>, now: Time, w: UserId)
    requires Fine(x, h) && StateIn(h, w) == StateOf(copy, w)
    requires forall i, j | 0 <= i < j < |order| :: order[i] != order[j]
    ensures var r := Sweeps(x, h, copy, order, now);
            && !r.raised && Fine(x, r.hub)
            && Of(r.hub, w) == SweptView(Of(h, w), w in Elems(order) && Stuck(copy, w, now))
  {
    if order != [] {
      var front, last := order[..|order| - 1], order[|order| - 1];
      SweepsView(x, h, copy, front, now, w);
      ElemsLast(order);
      assert last !in Elems(front);
      SweepOneView(x, Sweeps(x, h, copy, front, now).hub, copy, last, now, w);
    }
  }

  /** The sweep over all members: exactly those backfilling for more than thirty seconds end up disconnected. */
  lemma SweepDisconnectsIff(x: Setup, h: Hub, order: seq<UserId>, now: Time, w: UserId)
    requires Fine(x, h) && Enumerates(order, h.room.snap.members.Keys)
    ensures var ms := h.room.snap.members; var r := Sweeps(x, h, ms, order, now).hub;
            var late := w in ms && ms[w].state == Backfilling && now - ms[w].joinedAt > 30.0;
            && StateIn(r, w) == (if late then Some(Disconnected) else StateIn(h, w))
            && (w in r.tracked <==> w in h.tracked && !late)
  {
    SweepsView(x, h, h.room.snap.members, order, now, w);
    assert Of(Sweeps(x, h, h.room.snap.members, order, now).hub, w).entry == None ||
           w in Sweeps(x, h, h.room.snap.members, order, now).hub.tracked;
  }

  ghost predicate MaybeSwept(v: View, after: View) {
    after == v || (v.state == Some(Backfilling) && after == SweptView(v, true))
  }

  lemma TickView(x: Setup, h: Hub, order: seq<UserId>, sweep: seq<UserId>, now: Time, w: UserId)
    requires Fine(x, h) && w in h.room.snap.members && Enumerates(order, h.tracked.Keys)
    requires forall i, j | 0 <= i < j < |sweep| :: sweep[i] != sweep[j]
    ensures var r := Ticked(x, h, order, sweep, now);
            !r.raised && Fine(x, r.hub) && MaybeSwept(CheckedView(x.config, Of(h, w), now), Of(r.hub, w))
  {
    ChecksView(x, h, order, now, w);
    var mid := Checks(x, h, order, now).hub;
    assert w !in Elems(order) ==> CheckedView(x.config, Of(h, w), now) == Of(h, w);
    SweepsView(x, mid, mid.room.snap.members, sweep, now, w);
  }

  // ---- Actions about somebody else ----

  predicate About(a: Action, u: UserId) {
    match a
    case Gossip(e, _) => e.userId == u
    case Tick(_, _, _) => false
    case _ => a.user == u
  }

  /** No event of a higher term is gossiped, and a tick lists every entry and no member twice. */
  ghost predicate Regular(h: Hub, a: Action) {
    match a
    case Gossip(e, _) => e.term <= COORDINATOR_TERM
    case Tick(_, order, sweep) =>
      Enumerates(order, h.tracked.Keys) && forall i, j | 0 <= i < j < |sweep| :: sweep[i] != sweep[j]
    case _ => true
  }

  lemma JoinView(x: Setup, h: Hub, a: Action, w: UserId)
    requires Fine(x, h) && a.Join? && a.user != w
    ensures Fine(x, Outcome(x, h, a).hub) && Of(Outcome(x, h, a).hub, w) == Of(h, w)
  {
    if !a.duplicate {
      if a.refused {
        CommitView(x, h, Ask(JoinRejected, a.user, a.name, a.now), w);
      } else {
        var r := Request(JoinAccepted, a.user, "coordinator", COORDINATOR_TERM, a.name, a.trace, a.key, a.now);
        CommitView(x, h, r, w);
        EntryView(x, Commit(x, h, r).hub, Apply(x.config, h.tracked, Register(a.user, a.now)), w);
      }
    }
  }

  /** The last step of leaving, seen from any member. */
  lemma ConfirmView(x: Setup, h: Hub, u: UserId, name: string, now: Time, w: UserId)
    requires Fine(x, h)
    ensures var r := Confirmed(x, h, u, name, now); var v := Of(h, w);
            && !r.raised && Fine(x, r.hub)
            && Of(r.hub, w) ==
               if w == u then View(Led(v.state, LeaveConfirmed), None, v.kinds + [LeaveConfirmed]) else v
  {
    var ask := Ask(LeaveConfirmed, u, name, now);
    CommitView(x, h, ask, w);
    EntryView(x, Commit(x, h, ask).hub, h.tracked - {u}, w);
  }

  lemma RequestView(x: Setup, h: Hub, u: UserId, name: string, now: Time, w: UserId)
    requires Fine(x, h)
    ensures var r := RequestedAndConfirmed(x, h, u, name, now); var v := Of(h, w);
            && !r.raised && Fine(x, r.hub)
            && Of(r.hub, w) ==
               if w == u
               then View(Led(Led(v.state, LeaveRequested), LeaveConfirmed), None,
                         v.kinds + [LeaveRequested, LeaveConfirmed])
               else v
  {
    var v, ask := Of(h, w), Ask(LeaveRequested, u, name, now);
    CommitView(x, h, ask, w);
    ConfirmView(x, Commit(x, h, ask).hub, u, name, now, w);
    assert v.kinds + [LeaveRequested] + [LeaveConfirmed] == v.kinds + [LeaveRequested, LeaveConfirmed];
  }

  lemma LeaveView(x: Setup, h: Hub, u: UserId, now: Time, w: UserId)
    requires Fine(x, h) && u != w
    ensures Fine(x, LeaveOf(x, h, u, now).hub) && Of(LeaveOf(x, h, u, now).hub, w) == Of(h, w)
  {
    if u in h.room.snap.members {
      var name := h.room.snap.members[u].displayName;
      ConfirmView(x, h, u, name, now, w);
      RequestView(x, h, u, name, now, w);
    }
  }

  lemma HeartbeatView(x: Setup, h: Hub, u: UserId, now: Time, w: UserId)
    requires Fine(x, h) && u != w
    ensures Fine(x, HeartbeatOf(x, h, u, now).hub) && Of(HeartbeatOf(x, h, u, now).hub, w) == Of(h, w)
  {
    if u in h.room.snap.members {
      var r := Ask(Heartbeat, u, h.room.snap.members[u].displayName, now);
      CommitView(x, h, r, w);
      var tracked := Apply(x.config, h.tracked, Beat(u, now));
      EntryView(x, Commit(x, h, r).hub, tracked, w);
      ChangedView(x, Commit(x, h, r).hub.(tracked := tracked), u, CameBack, now, w);
    }
  }

  lemma GossipView(x: Setup, h: Hub, e: Event, now: Time, w: UserId)
    requires Fine(x, h) && e.userId != w && e.term <= COORDINATOR_TERM
    ensures Fine(x, Gossiped(x, h, e, now)) && Of(Gossiped(x, h, e, now), w) == Of(h, w)
  {
    ToldView(x, h, Remote(e), w);
    EntryView(x, Told(x, h, Remote(e)), Apply(x.config, h.tracked, Register(e.userId, now)), w);
  }

  lemma OthersLeaveAlone(x: Setup, h: Hub, a: Action, w: UserId)
    requires Fine(x, h) && Regular(h, a) && !a.Tick? && !About(a, w)
    ensures Fine(x, Outcome(x, h, a).hub) && Of(Outcome(x, h, a).hub, w) == Of(h, w)
  {
    match a
    case Join(_, _, _, _, _, _, _) => JoinView(x, h, a, w);
    case Leave(u, now) => LeaveView(x, h, u, now, w);
    case HeartbeatFrom(u, now) => HeartbeatView(x, h, u, now, w);
    case Backfill(u, start, now) =>
      if StateIn(h, u) == Some(if start then Joining else Backfilling) {
        var kind := if start then BackfillStarted else BackfillComplete;
        CommitView(x, h, Ask(kind, u, h.room.snap.members[u].displayName, now), w);
      }
    case Gossip(e, now) => GossipView(x, h, e, now, w);
  }

  // ---- Every regular run from an empty room ----

  lemma {:induction false} ChecksAreFine(x: Setup, h: Hub, order: seq<UserId>, now: Time)
    requires Fine(x, h)
    ensures Fine(x, Checks(x, h, order, now).hub) && !Checks(x, h, order, now).raised
  {
    if order != [] {
      var front, last := order[..|order| - 1], order[|order| - 1];
      ChecksAreFine(x, h, front, now);
      CheckOneView(x, Checks(x, h, front, now).hub, last, now, last);
    }
  }

  lemma {:induction false} SweepsAreFine(
      x: Setup, h: Hub, copy: map<UserId, MemberInfo>, order: seq<UserId>, now: Time)
    requires Fine(x, h)
    ensures Fine(x, Sweeps(x, h, copy, order, now).hub) && !Sweeps(x, h, copy, order, now).raised
  {
    if order != [] {
      var front, last := order[..|order| - 1], order[|order| - 1];
      SweepsAreFine(x, h, copy, front, now);
      SweepOneView(x, Sweeps(x, h, copy, front, now).hub, copy, last, now, last);
    }
  }

  lemma ActionIsFine(x: Setup, h: Hub, a: Action)
    requires Fine(x, h) && (a.Gossip? ==> a.event.term <= COORDINATOR_TERM)
    ensures Fine(x, Outcome(x, h, a).hub)
  {
    if a.Tick? {
      ChecksAreFine(x, h, a.order, a.now);
      var mid := Checks(x, h, a.order, a.now).hub;
      SweepsAreFine(x, mid, mid.room.snap.members, a.sweep, a.now);
    } else {
      var u := if a.Gossip? then a.event.userId else a.user;
      OthersLeaveAlone(x, h, a, u + "x");
    }
  }

  function FreshHub(room: string): Hub { Hub(EmptyRoom(room), map[], [], EmptyTable) }

  /** Over every run at term 1, whatever is joined, left, heard, ticked or gossiped, the router mirrors the room. */
  lemma {:induction false} RunIsFine(x: Setup, room: string, actions: seq<Action>)
    requires forall i | 0 <= i < |actions| && actions[i].Gossip? :: actions[i].event.term <= COORDINATOR_TERM
    ensures Fine(x, Acts(x, FreshHub(room), actions))
  {
    if actions != [] {
      var n := |actions| - 1;
      RunIsFine(x, room, actions[..n]);
      ActionIsFine(x, Acts(x, FreshHub(room), actions[..n]), actions[n]);
    }
  }

  // ---- A silent member ----

  /** Where a member that falls silent in this state ends up: suspected and timed out, as far as the guards allow. */
  function SilentEnd(s: MemberState): Option<MemberState> {
    Led(Led(Some(s), DisconnectSuspected), DisconnectTimeout)
  }

  /** Still tracked: suspected if its silence was noticed, with the event to show for it. */
  ghost predicate Watched(c: Config, v: View, s: MemberState, kinds: seq<EventType>, since: Time, last: Time, d: Time) {
    && v.entry.Some? && Pending(c, v.entry.value, since, last, d)
    && v.state == (if v.entry.value.suspected then Led(Some(s), DisconnectSuspected) else Some(s))
    && v.kinds == (if v.entry.value.suspected then kinds + [DisconnectSuspected] else kinds)
  }

  /** No longer tracked, with the two events; the sweep can cut a backfill short before the first. */
  ghost predicate Ended(v: View, s: MemberState, kinds: seq<EventType>) {
    && v.entry == None && v.state == SilentEnd(s)
    && (v.kinds == kinds + [DisconnectSuspected, DisconnectTimeout] ||
        (s == Backfilling && v.kinds == kinds + [DisconnectTimeout]))
  }

  function Deadline(c: Config, since: Time, d: Time): Time { since + Threshold(c) + c.grace + 2.0 * d }

  lemma CheckedIsWatched(
      c: Config, v: View, s: MemberState, kinds: seq<EventType>, since: Time, last: Time, now: Time, d: Time)
    requires c.grace >= 0.0 && Watched(c, v, s, kinds, since, last, d) && last <= now <= last + d
    ensures now <= Deadline(c, since, d)
    ensures var r := CheckedView(c, v, now); Watched(c, r, s, kinds, since, now, d) || Ended(r, s, kinds)
  {
    PendingStep(c, v.entry.value, since, last, now, d);
    assert kinds + [DisconnectSuspected] + [DisconnectTimeout] == kinds + [DisconnectSuspected, DisconnectTimeout];
  }

  lemma SweptIsWatched(
      c: Config, v: View, after: View, s: MemberState, kinds: seq<EventType>, since: Time, last: Time, d: Time)
    requires Watched(c, v, s, kinds, since, last, d) || Ended(v, s, kinds)
    requires MaybeSwept(v, after)
    ensures Watched(c, after, s, kinds, since, last, d) || Ended(after, s, kinds)
  {
    assert kinds + [DisconnectSuspected] + [DisconnectTimeout] == kinds + [DisconnectSuspected, DisconnectTimeout];
  }

  /** The ticks of a run, as presence sees them. */
  function ChecksOf(actions: seq<Action>): seq<Presence.Action> {
    if actions == [] then []
    else
      var last := actions[|actions| - 1];
      ChecksOf(actions[..|actions| - 1]) + (if last.Tick? then [Check(last.now)] else [])
  }

  lemma ChecksSnoc(actions: seq<Action>, since: Time, d: Time)
    requires actions != [] && Spaced(ChecksOf(actions), since, d)
    ensures var front, last := actions[..|actions| - 1], actions[|actions| - 1];
            var before, after := LastCheck(ChecksOf(front), since), LastCheck(ChecksOf(actions), since);
            && Spaced(ChecksOf(front), since, d)
            && (last.Tick? ==> after == last.now && before <= last.now <= before + d)
            && (!last.Tick? ==> after == before)
  {
    var front, last := actions[..|actions| - 1], actions[|actions| - 1];
    var cs := ChecksOf(front);
    if last.Tick? {
      assert (cs + [Check(last.now)])[..|cs|] == cs;
    } else {
      assert cs + [] == cs;
    }
  }

  /** Nobody acts on `u`, and every action is regular when it is taken. */
  ghost predicate Unheard(x: Setup, h: Hub, actions: seq<Action>, u: UserId) {
    actions == [] ||
    (var front, last := actions[..|actions| - 1], actions[|actions| - 1];
     Unheard(x, h, front, u) && !About(last, u) && Regular(Acts(x, h, front), last))
  }

  /** The i-th action is a tick within the deadline, and after it the member's silence has had its effect. */
  ghost predicate EndedAt(x: Setup, h: Hub, actions: seq<Action>, i: nat, u: UserId, s: MemberState, deadline: Time)
    requires 1 <= i <= |actions|
  {
    && actions[i - 1].Tick? && actions[i - 1].now <= deadline
    && Ended(Of(Acts(x, h, actions[..i]), u), s, Of(h, u).kinds)
  }

  ghost predicate EndedBy(x: Setup, h: Hub, actions: seq<Action>, u: UserId, s: MemberState, deadline: Time) {
    exists i | 1 <= i <= |actions| :: EndedAt(x, h, actions, i, u, s, deadline)
  }

  lemma EndedByGrows(x: Setup, h: Hub, actions: seq<Action>, u: UserId, s: MemberState, deadline: Time)
    requires actions != [] && EndedBy(x, h, actions[..|actions| - 1], u, s, deadline)
    ensures EndedBy(x, h, actions, u, s, deadline)
  {
    var front := actions[..|actions| - 1];
    var i :| 1 <= i <= |front| && EndedAt(x, h, front, i, u, s, deadline);
    assert front[..i] == actions[..i];
    assert EndedAt(x, h, actions, i, u, s, deadline);
  }

  /** How the silence stands after some actions. */
  ghost predicate Standing(
      x: Setup, h: Hub, actions: seq<Action>, u: UserId, s: MemberState, since: Time, d: Time)
  {
    var v := Of(Acts(x, h, actions), u);
    || Watched(x.config, v, s, Of(h, u).kinds, since, LastCheck(ChecksOf(actions), since), d)
    || (Ended(v, s, Of(h, u).kinds) && EndedBy(x, h, actions, u, s, Deadline(x.config, since, d)))
  }

  lemma TickStands(x: Setup, h: Hub, actions: seq<Action>, u: UserId, s: MemberState, since: Time, d: Time)
    requires actions != [] && actions[|actions| - 1].Tick? && x.config.grace >= 0.0
    requires Spaced(ChecksOf(actions), since, d)
    requires var front := actions[..|actions| - 1]; var mid := Acts(x, h, front);
             Standing(x, h, front, u, s, since, d) && Fine(x, mid) && Regular(mid, actions[|actions| - 1])
    ensures Standing(x, h, actions, u, s, since, d) && Fine(x, Acts(x, h, actions))
  {
    var front, last := actions[..|actions| - 1], actions[|actions| - 1];
    var mid, kinds := Acts(x, h, front), Of(h, u).kinds;
    var v, before, after := Of(mid, u), LastCheck(ChecksOf(front), since), Of(Acts(x, h, actions), u);
    ChecksSnoc(actions, since, d);
    assert v.state != None;
    TickView(x, mid, last.order, last.sweep, last.now, u);
    if Watched(x.config, v, s, kinds, since, before, d) {
      WatchedTick(x.config, v, after, s, kinds, since, before, last.now, d);
      if Ended(after, s, kinds) {
        EndedNow(x, h, actions, u, s, Deadline(x.config, since, d));
      }
    } else {
      EndedTick(x.config, v, after, s, kinds, last.now);
      EndedByGrows(x, h, actions, u, s, Deadline(x.config, since, d));
    }
  }

  lemma EndedNow(x: Setup, h: Hub, actions: seq<Action>, u: UserId, s: MemberState, deadline: Time)
    requires actions != [] && actions[|actions| - 1].Tick? && actions[|actions| - 1].now <= deadline
    requires Ended(Of(Acts(x, h, actions), u), s, Of(h, u).kinds)
    ensures EndedBy(x, h, actions, u, s, deadline)
  {
    assert actions[..|actions|] == actions;
    assert EndedAt(x, h, actions, |actions|, u, s, deadline);
  }

  lemma WatchedTick(
      c: Config, v: View, after: View, s: MemberState, kinds: seq<EventType>,
      since: Time, last: Time, now: Time, d: Time)
    requires c.grace >= 0.0 && Watched(c, v, s, kinds, since, last, d) && last <= now <= last + d
    requires MaybeSwept(CheckedView(c, v, now), after)
    ensures now <= Deadline(c, since, d) && (Watched(c, after, s, kinds, since, now, d) || Ended(after, s, kinds))
  {
    CheckedIsWatched(c, v, s, kinds, since, last, now, d);
    SweptIsWatched(c, CheckedView(c, v, now), after, s, kinds, since, now, d);
  }

  lemma EndedTick(c: Config, v: View, after: View, s: MemberState, kinds: seq<EventType>, now: Time)
    requires Ended(v, s, kinds) && MaybeSwept(CheckedView(c, v, now), after)
    ensures after == v
  {
  }

  lemma {:induction false} SilenceStands(
      x: Setup, h: Hub, actions: seq<Action>, u: UserId, s: MemberState, since: Time, d: Time)
    requires Fine(x, h) && x.config.grace >= 0.0 && Threshold(x.config) >= 0.0
    requires StateIn(h, u) == Some(s) && u in h.tracked
    requires h.tracked[u].lastHeartbeat == since && !h.tracked[u].suspected
    requires Unheard(x, h, actions, u) && Spaced(ChecksOf(actions), since, d)
    ensures Standing(x, h, actions, u, s, since, d) && Fine(x, Acts(x, h, actions))
    decreases |actions|
  {
    if actions != [] {
      var front, last := actions[..|actions| - 1], actions[|actions| - 1];
      ChecksSnoc(actions, since, d);
      SilenceStands(x, h, front, u, s, since, d);
      if last.Tick? {
        TickStands(x, h, actions, u, s, since, d);
      } else {
        OthersLeaveAlone(x, Acts(x, h, front), last, u);
        var v, before := Of(Acts(x, h, front), u), LastCheck(ChecksOf(front), since);
        if !Watched(x.config, v, s, Of(h, u).kinds, since, before, d) {
          EndedByGrows(x, h, actions, u, s, Deadline(x.config, since, d));
        }
      }
    }
  }

  /**
    What becomes of a silent member.  At term 1, with ticks at most `d` apart,
    a tracked member heard of last at `since` is no longer tracked by
    since + interval * missed + grace + 2d, whatever happens to others in
    between.  Two events about it are in the log.  It is DISCONNECTED and in
    neither routing set if and only if it had been ACTIVE, SUSPECTED or
    BACKFILLING (or was disconnected before); otherwise both events were
    rejected and it keeps its state for good.
   */
  lemma SilentMemberEnds(x: Setup, h: Hub, actions: seq<Action>, u: UserId, s: MemberState, since: Time, d: Time)
    requires Fine(x, h) && x.config.grace >= 0.0 && x.config.interval >= 0.0 && d >= 0.0
    requires StateIn(h, u) == Some(s) && u in h.tracked
    requires h.tracked[u].lastHeartbeat == since && !h.tracked[u].suspected
    requires Unheard(x, h, actions, u) && Spaced(ChecksOf(actions), since, d)
    requires LastCheck(ChecksOf(actions), since) > since + Threshold(x.config) + x.config.grace + d
    ensures var r := Acts(x, h, actions); var kinds := Of(h, u).kinds;
            && EndedBy(x, h, actions, u, s, Deadline(x.config, since, d)) && Ended(Of(r, u), s, kinds)
            && (StateIn(r, u) == Some(Disconnected) <==> s in {Active, Suspected, Backfilling, Disconnected})
            && (StateIn(r, u) != Some(Disconnected) ==> StateIn(r, u) == Some(s))
            && (StateIn(r, u) == Some(Disconnected) ==> u !in r.table.active && u !in r.table.hold)
  {
    ThresholdIsNatural(x.config);
    SilenceStands(x, h, actions, u, s, since, d);
    var r := Acts(x, h, actions);
    WatchIsShort(x.config, Of(r, u), s, Of(h, u).kinds, since, LastCheck(ChecksOf(actions), since), d);
    EndOf(s);
    DisconnectedIsUnrouted(x, r, u);
  }

  /** Nobody is watched for longer than the two waits and one period. */
  lemma WatchIsShort(c: Config, v: View, s: MemberState, kinds: seq<EventType>, since: Time, last: Time, d: Time)
    requires c.grace >= 0.0 && d >= 0.0
    ensures Watched(c, v, s, kinds, since, last, d) ==> last <= since + Threshold(c) + c.grace + d
  {
  }

  lemma EndOf(s: MemberState)
    ensures SilentEnd(s) == Some(if s in {Active, Suspected, Backfilling} then Disconnected else s)
  {
  }

  lemma DisconnectedIsUnrouted(x: Setup, h: Hub, u: UserId)
    requires Fine(x, h)
    ensures StateIn(h, u) == Some(Disconnected) ==> u !in h.table.active && u !in h.table.hold
  {
    assert MirrorsUser(h.table, h.room.snap.members, x.self, x.parse, u);
  }

  /** The case the design is about: an active member. */
  lemma SilentActiveMemberIsDropped(x: Setup, h: Hub, actions: seq<Action>, u: UserId, since: Time, d: Time)
    requires Fine(x, h) && x.config.grace >= 0.0 && x.config.interval >= 0.0 && d >= 0.0
    requires StateIn(h, u) == Some(Active) && u in h.tracked
    requires h.tracked[u].lastHeartbeat == since && !h.tracked[u].suspected
    requires Unheard(x, h, actions, u) && Spaced(ChecksOf(actions), since, d)
    requires LastCheck(ChecksOf(actions), since) > since + Threshold(x.config) + x.config.grace + d
    ensures var r := Acts(x, h, actions);
            StateIn(r, u) == Some(Disconnected) && u !in r.tracked && u !in r.table.active && u !in r.table.hold
  {
    SilentMemberEnds(x, h, actions, u, Active, since, d);
  }

  /** A member silent while joining is suspected and timed out in vain: it stays JOINING, held and untracked. */
  lemma SilentJoinerIsForgotten(x: Setup, h: Hub, actions: seq<Action>, u: UserId, since: Time, d: Time)
    requires Fine(x, h) && x.config.grace >= 0.0 && x.config.interval >= 0.0 && d >= 0.0
    requires StateIn(h, u) == Some(Joining) && u in h.tracked && IsPeer(u, x.self, x.parse)
    requires h.tracked[u].lastHeartbeat == since && !h.tracked[u].suspected
    requires Unheard(x, h, actions, u) && Spaced(ChecksOf(actions), since, d)
    requires LastCheck(ChecksOf(actions), since) > since + Threshold(x.config) + x.config.grace + d
    ensures var r := Acts(x, h, actions);
            && StateIn(r, u) == Some(Joining) && u !in r.tracked && u in r.table.hold
            && Of(r, u).kinds == Of(h, u).kinds + [DisconnectSuspected, DisconnectTimeout]
  {
    SilentMemberEnds(x, h, actions, u, Joining, since, d);
    ThresholdIsNatural(x.config);
    SilenceStands(x, h, actions, u, Joining, since, d);
    var r := Acts(x, h, actions);
    assert MirrorsUser(r.table, r.room.snap.members, x.self, x.parse, u);
  }

  /** A timeout that fires takes effect exactly on suspected and backfilling members; tracking ends in any state. */
  lemma FiredTimeoutTakesEffectIff(x: Setup, h: Hub, u: UserId, now: Time)
    requires Fine(x, h) && u in h.room.snap.members && Fires(x.config, h.tracked, u, now)
    ensures var r := CheckOne(x, h, u, now).hub; var s := h.room.snap.members[u].state;
            && u !in r.tracked && Of(r, u).kinds == Of(h, u).kinds + [DisconnectTimeout]
            && StateIn(r, u) == Some(if s in {Suspected, Backfilling} then Disconnected else s)
  {
    CheckOneView(x, h, u, now, u);
  }

  // ---- Leaving and coming back ----

  /**
    Leaving takes a member out exactly when it was active or already leaving.
    In JOINING, BACKFILLING or SUSPECTED both events are rejected, its state
    stays, and yet it is no longer tracked.
   */
  lemma LeaveTakesEffectIff(x: Setup, h: Hub, u: UserId, now: Time)
    requires Fine(x, h)
    ensures var s := StateIn(h, u); var r := LeaveOf(x, h, u, now).hub;
            && (StateIn(r, u) == Some(Left) <==> s in {Some(Active), Some(Leaving), Some(Left)})
            && (s !in {Some(Active), Some(Leaving)} ==> StateIn(r, u) == s)
            && (s in {None, Some(Left), Some(Disconnected)} ==> r == h)
            && (s !in {None, Some(Left), Some(Disconnected)} ==> u !in r.tracked)
            && (s in {Some(Joining), Some(Backfilling), Some(Suspected)} ==>
                  Of(r, u).kinds == Of(h, u).kinds + [LeaveRequested, LeaveConfirmed])
  {
    if u in h.room.snap.members {
      var name := h.room.snap.members[u].displayName;
      ConfirmView(x, h, u, name, now, u);
      RequestView(x, h, u, name, now, u);
    }
  }

  /** A suspect's heartbeat makes it active again exactly if the room had it SUSPECTED; presence always forgives. */
  lemma HeartbeatRevives(x: Setup, h: Hub, u: UserId, now: Time)
    requires Fine(x, h) && u in h.room.snap.members && u in h.tracked && h.tracked[u].suspected
    ensures var r := HeartbeatOf(x, h, u, now).hub; var v := Of(h, u);
            Of(r, u) == View(if v.state == Some(Suspected) then Some(Active) else v.state,
                             Some(Entry(now, false, None)),
                             v.kinds + [Heartbeat, Reconnected])
  {
    var r := Ask(Heartbeat, u, h.room.snap.members[u].displayName, now);
    CommitView(x, h, r, u);
    var tracked := Apply(x.config, h.tracked, Beat(u, now));
    EntryView(x, Commit(x, h, r).hub, tracked, u);
    ChangedView(x, Commit(x, h, r).hub.(tracked := tracked), u, CameBack, now, u);
    assert Of(h, u).kinds + [Heartbeat] + [Reconnected] == Of(h, u).kinds + [Heartbeat, Reconnected];
  }

  // ---- Once the term has moved ----

  ghost predicate SameRoom(h: Hub, r: Hub) { r.room == h.room && r.told == h.told && r.table == h.table }

  lemma {:induction false} ChecksAreFrozen(x: Setup, h: Hub, order: seq<UserId>, now: Time)
    requires h.room.log.term > COORDINATOR_TERM
    ensures SameRoom(h, Checks(x, h, order, now).hub)
  {
    if order != [] {
      ChecksAreFrozen(x, h, order[..|order| - 1], now);
    }
  }

  lemma {:induction false} SweepsAreFrozen(
      x: Setup, h: Hub, copy: map<UserId, MemberInfo>, order: seq<UserId>, now: Time)
    requires h.room.log.term > COORDINATOR_TERM
    ensures SameRoom(h, Sweeps(x, h, copy, order, now).hub)
  {
    if order != [] {
      SweepsAreFrozen(x, h, copy, order[..|order| - 1], now);
    }
  }

  /** After one remote event of a higher term, only gossip ever changes the room or reaches a subscriber. */
  lemma RaisedTermFreezesTheRoom(x: Setup, h: Hub, a: Action)
    requires h.room.log.term > COORDINATOR_TERM && !a.Gossip?
    ensures SameRoom(h, Outcome(x, h, a).hub)
  {
    if a.Tick? {
      ChecksAreFrozen(x, h, a.order, a.now);
      var mid := Checks(x, h, a.order, a.now).hub;
      SweepsAreFrozen(x, mid, mid.room.snap.members, a.sweep, a.now);
    }
  }

  lemma {:induction false} ChecksKeepKeys(x: Setup, h: Hub, order: seq<UserId>, now: Time)
    requires h.room.log.term > COORDINATOR_TERM
    ensures Checks(x, h, order, now).hub.tracked.Keys == h.tracked.Keys
  {
    if order != [] {
      ChecksKeepKeys(x, h, order[..|order| - 1], now);
      ChecksAreFrozen(x, h, order[..|order| - 1], now);
    }
  }

  lemma {:induction false} SweepsKeepKeys(
      x: Setup, h: Hub, copy: map<UserId, MemberInfo>, order: seq<UserId>, now: Time)
    requires h.room.log.term > COORDINATOR_TERM
    ensures Sweeps(x, h, copy, order, now).hub.tracked == h.tracked
  {
    if order != [] {
      SweepsKeepKeys(x, h, copy, order[..|order| - 1], now);
      SweepsAreFrozen(x, h, copy, order[..|order| - 1], now);
    }
  }

  /** Nor does anything but gossip start or end the tracking of a member then: each handler ends where it appends. */
  lemma RaisedTermFreezesTracking(x: Setup, h: Hub, a: Action)
    requires h.room.log.term > COORDINATOR_TERM && !a.Gossip?
    ensures Outcome(x, h, a).hub.tracked.Keys == h.tracked.Keys
    ensures !a.Tick? ==> Outcome(x, h, a).hub == h
  {
    if a.Tick? {
      ChecksKeepKeys(x, h, a.order, a.now);
      ChecksAreFrozen(x, h, a.order, a.now);
      var mid := Checks(x, h, a.order, a.now).hub;
      SweepsKeepKeys(x, mid, mid.room.snap.members, a.sweep, a.now);
    }
  }

  /** The term never falls again, so over every later run only gossip changes the room. */
  lemma {:induction false} FreezeIsForGood(x: Setup, h: Hub, actions: seq<Action>, i: nat)
    requires h.room.log.term > COORDINATOR_TERM && i <= |actions|
    ensures var r := Acts(x, h, actions[..i]);
            && r.room.log.term > COORDINATOR_TERM
            && (i < |actions| && !actions[i].Gossip? ==> SameRoom(r, Outcome(x, r, actions[i]).hub))
  {
    if i > 0 {
      FreezeIsForGood(x, h, actions, i - 1);
      assert actions[..i][..i - 1] == actions[..i - 1];
    } else {
      assert actions[..0] == [];
    }
    if i < |actions| && !actions[i].Gossip? {
      RaisedTermFreezesTheRoom(x, Acts(x, h, actions[..i]), actions[i]);
    }
  }

  // ---- What each handler does to its own member ----

  /** A logged event says what was asked. */
  ghost predicate Logs(h: Hub, r: Hub, kind: EventType, u: UserId, source: string, name: string, now: Time) {
    && |r.room.log.events| == |h.room.log.events| + 1
    && r.room.log.events[..|h.room.log.events|] == h.room.log.events
    && var e := r.room.log.events[|h.room.log.events|];
       && e.kind == kind && e.userId == u && e.source == source && e.displayName == name && e.timestamp == now
       && e.seqNo == e.version == h.room.log.nextSeq && e.term == COORDINATOR_TERM && e.originator == None
  }

  /** The record and the router's view of a member that has just joined. */
  ghost predicate HasJoined(x: Setup, r: Hub, u: UserId, name: string, key: Option<Key>, now: Time) {
    && (IsPeer(u, x.self, x.parse) ==> u in r.table.hold && u !in r.table.active)
    && u in r.room.snap.members
    && var m := r.room.snap.members[u];
       && m.userId == u && m.displayName == name && m.state == Joining && m.publicKey == key
       && m.joinedAt == now && m.lastHeartbeat == now
  }

  /**
    An accepted join.  From an absent, left or disconnected state the user
    becomes a JOINING member with the given name and key, held by the router
    and told to subscribers; from any other state nobody's record moves and
    nobody is told.  Either way the event is logged, and the user gets a fresh
    presence entry exactly if it is not the local one.
   */
  lemma JoinTakesEffectIff(
      x: Setup, h: Hub, u: UserId, name: string, key: Option<Key>, trace: Option<string>, now: Time)
    requires Fine(x, h)
    ensures var s := StateIn(h, u); var o := Outcome(x, h, Join(u, name, key, trace, false, false, now));
            var r := o.hub;
            && !o.raised && Logs(h, r, JoinAccepted, u, "coordinator", name, now)
            && r.room.log.events[|h.room.log.events|].publicKey == key
            && r.room.log.events[|h.room.log.events|].traceId == trace
            && (if s in {None, Some(Left), Some(Disconnected)}
                then HasJoined(x, r, u, name, key, now) &&
                     r.told == h.told + [r.room.log.events[|h.room.log.events|]] &&
                     forall v | v != u :: StateIn(r, v) == StateIn(h, v)
                else r.room.snap == h.room.snap && r.told == h.told && r.table == h.table)
            && r.tracked == (if x.local == Some(u) then h.tracked else h.tracked[u := Entry(now, false, None)])
  {
    var ask := Request(JoinAccepted, u, "coordinator", COORDINATOR_TERM, name, trace, key, now);
    JoinIsCommitted(x, h, ask);
    var r := Commit(x, h, ask).hub;
    assert MirrorsUser(r.table, r.room.snap.members, x.self, x.parse, u);
    forall v | v != u ensures StateIn(r, v) == StateIn(h, v) {
      CommitView(x, h, ask, v);
    }
  }

  lemma JoinIsCommitted(x: Setup, h: Hub, ask: Request)
    requires Fine(x, h) && ask.kind == JoinAccepted && ask.term == COORDINATOR_TERM
    ensures var c := Commit(x, h, ask); var r := c.hub; var u := ask.userId;
            && !c.raised && Fine(x, r) && r.tracked == h.tracked
            && Logs(h, r, JoinAccepted, u, ask.source, ask.displayName, ask.timestamp)
            && r.room.log.events[|h.room.log.events|].publicKey == ask.publicKey
            && r.room.log.events[|h.room.log.events|].traceId == ask.traceId
            && (if StateIn(h, u) in {None, Some(Left), Some(Disconnected)}
                then u in r.room.snap.members &&
                     r.room.snap.members[u] == MemberInfo(u, ask.displayName, Joining, ask.timestamp, ask.timestamp,
                                                          h.room.log.nextSeq, ask.publicKey) &&
                     r.told == h.told + [r.room.log.events[|h.room.log.events|]]
                else r.room.snap == h.room.snap && r.told == h.told && r.table == h.table)
  {
    CommitView(x, h, ask, ask.userId);
    CommitIsLogged(x, h, ask);
    RecordAfterIf(h.room.snap, LocalEvent(h.room.log, ask));
  }

  lemma RecordAfterIf(s: Snapshot, e: Event)
    ensures Accepts(s, e) && e.kind == JoinAccepted ==>
      e.userId in ApplyEvent(s, e).members &&
      ApplyEvent(s, e).members[e.userId] ==
        MemberInfo(e.userId, e.displayName, Joining, e.timestamp, e.timestamp, e.version, e.publicKey)
  {
    if Accepts(s, e) {
      RecordAfter(s, e);
    }
  }

  lemma CommitIsLogged(x: Setup, h: Hub, ask: Request)
    requires Fine(x, h) && ask.term == COORDINATOR_TERM
    ensures Logs(h, Commit(x, h, ask).hub, ask.kind, ask.userId, ask.source, ask.displayName, ask.timestamp)
  {
  }

  /** A duplicate join does nothing at all; a refused one is logged and told, and changes no member, entry or route. */
  lemma RefusedJoinIsOnlyTold(
      x: Setup, h: Hub, u: UserId, name: string, key: Option<Key>, trace: Option<string>, refused: bool, now: Time)
    requires Fine(x, h)
    ensures Outcome(x, h, Join(u, name, key, trace, true, refused, now)) == Result(h, false)
    ensures var o := Outcome(x, h, Join(u, name, key, trace, false, true, now)); var r := o.hub;
            && !o.raised && Logs(h, r, JoinRejected, u, "coordinator", name, now)
            && r.room.snap.members == h.room.snap.members && r.tracked == h.tracked && r.table == h.table
            && r.told == h.told + [r.room.log.events[|h.room.log.events|]]
  {
    CommitIsLogged(x, h, Ask(JoinRejected, u, name, now));
  }

  /** A backfill starts only from JOINING and completes only from BACKFILLING; completing it makes a peer routable. */
  lemma BackfillTakesEffectIff(x: Setup, h: Hub, u: UserId, start: bool, now: Time)
    requires Fine(x, h)
    ensures var o := Backfilled(x, h, u, start, now); var s := StateIn(h, u);
            && !o.raised
            && (start && s == Some(Joining) ==>
                  StateIn(o.hub, u) == Some(Backfilling) &&
                  Logs(h, o.hub, BackfillStarted, u, "coordinator", h.room.snap.members[u].displayName, now))
            && (!start && s == Some(Backfilling) ==>
                  StateIn(o.hub, u) == Some(Active) && (IsPeer(u, x.self, x.parse) ==> u in o.hub.table.active) &&
                  Logs(h, o.hub, BackfillComplete, u, "coordinator", h.room.snap.members[u].displayName, now))
            && (s != Some(if start then Joining else Backfilling) ==> o.hub == h)
            && o.hub.tracked == h.tracked
  {
    if StateIn(h, u) == Some(if start then Joining else Backfilling) {
      var kind := if start then BackfillStarted else BackfillComplete;
      var ask := Ask(kind, u, h.room.snap.members[u].displayName, now);
      CommitView(x, h, ask, u);
      CommitIsLogged(x, h, ask);
      var r := Commit(x, h, ask).hub;
      assert MirrorsUser(r.table, r.room.snap.members, x.self, x.parse, u);
    }
  }

  /** An ordinary heartbeat renews the member's record and presence entry, moves no state and tells nobody. */
  lemma HeartbeatRenews(x: Setup, h: Hub, u: UserId, now: Time)
    requires Fine(x, h) && u in h.room.snap.members && (u in h.tracked ==> !h.tracked[u].suspected)
    ensures var o := HeartbeatOf(x, h, u, now); var r := o.hub;
            && !o.raised && Logs(h, r, Heartbeat, u, "coordinator", h.room.snap.members[u].displayName, now)
            && u in r.room.snap.members && r.room.snap.members[u].lastHeartbeat == now
            && StateIn(r, u) == StateIn(h, u) && r.told == h.told && r.table == h.table
            && (u in r.tracked <==> u in h.tracked) && (u in r.tracked ==> r.tracked[u].lastHeartbeat == now)
  {
    CommitIsLogged(x, h, Ask(Heartbeat, u, h.room.snap.members[u].displayName, now));
  }

  /** A gossiped event, seen from its own user: the state it leads to, and a fresh entry for a join or heartbeat. */
  lemma GossipTakesEffect(x: Setup, h: Hub, e: Event, now: Time)
    requires Fine(x, h) && e.term <= COORDINATOR_TERM
    ensures var r := Gossiped(x, h, e, now); var v := Of(h, e.userId);
            Of(r, e.userId) ==
            View(Led(v.state, e.kind),
                 if e.kind in {JoinAccepted, Heartbeat} then Some(Entry(now, false, None)) else v.entry,
                 v.kinds + [e.kind])
  {
    ToldView(x, h, Remote(e), e.userId);
    EntryView(x, Told(x, h, Remote(e)), Apply(x.config, h.tracked, Register(e.userId, now)), e.userId);
  }

  /** What presence reports of a known member is logged under its name, as coming from presence. */
  lemma PresenceChangeIsLogged(x: Setup, h: Hub, u: UserId, c: PresenceChange, now: Time)
    requires Fine(x, h) && u in h.room.snap.members
    ensures var kind := if c == WentSuspect then DisconnectSuspected
                        else if c == TimedOut then DisconnectTimeout else Reconnected;
            Logs(h, Changed(x, h, u, c, now).hub, kind, u, "presence", h.room.snap.members[u].displayName, now)
  {
    CommitIsLogged(x, h, Ask(ChangeEvent(c), u, h.room.snap.members[u].displayName, now).(source := "presence"));
  }

  /** A stuck member's timeout is logged under its name. */
  lemma SweptIsLogged(x: Setup, h: Hub, u: UserId, now: Time)
    requires Fine(x, h) && Stuck(h.room.snap.members, u, now)
    ensures Logs(h, SweepOne(x, h, h.room.snap.members, u, now).hub, DisconnectTimeout, u, "coordinator",
                 h.room.snap.members[u].displayName, now)
  {
    CommitIsLogged(x, h, Ask(DisconnectTimeout, u, h.room.snap.members[u].displayName, now));
  }

  /** A present member's leave is logged under its name: the request unless it was leaving, then the confirmation. */
  lemma LeaveIsLogged(x: Setup, h: Hub, u: UserId, now: Time) returns (mid: Hub)
    requires Fine(x, h) && StateIn(h, u) !in {None, Some(Left), Some(Disconnected)}
    ensures var r := LeaveOf(x, h, u, now).hub; var name := h.room.snap.members[u].displayName;
            && Logs(mid, r, LeaveConfirmed, u, "coordinator", name, now)
            && if StateIn(h, u) == Some(Leaving) then mid == h
               else Logs(h, mid, LeaveRequested, u, "coordinator", name, now)
  {
    var name := h.room.snap.members[u].displayName;
    var ask := Ask(LeaveRequested, u, name, now);
    CommitIsLogged(x, h, ask);
    CommitView(x, h, ask, u);
    mid := if StateIn(h, u) == Some(Leaving) then h else Commit(x, h, ask).hub;
    CommitIsLogged(x, mid, Ask(LeaveConfirmed, u, name, now));
    CommitView(x, mid, Ask(LeaveConfirmed, u, name, now), u);
  }

  // ---- The router and what subscribers are told ----

  /** The router's table is what the events told make of it. */
  ghost predicate Follows(x: Setup, h: Hub) {
    h.table == CatchUp(EmptyTable, x.self, x.parse, h.told)
  }

  lemma CatchUpSnoc(t: Table, self: UserId, parse: Parser, events: seq<Event>, e: Event)
    ensures CatchUp(t, self, parse, events + [e]) ==
            var r := CatchUp(t, self, parse, events);
            if DeltaOf(e.kind) == None then r else OnEvent(r, self, parse, e.userId, e.kind)
  {
    assert (events + [e])[..|events|] == events;
  }

  lemma ToldFollows(x: Setup, h: Hub, i: Input)
    requires Follows(x, h)
    ensures Follows(x, Told(x, h, i))
  {
    if !Stale(h.room, i) {
      CatchUpSnoc(EmptyTable, x.self, x.parse, h.told, Recorded(h.room, i));
    }
  }

  lemma CommitFollows(x: Setup, h: Hub, r: Request)
    requires Follows(x, h)
    ensures Follows(x, Commit(x, h, r).hub)
  {
    ToldFollows(x, h, Local(r));
  }

  lemma ChangedFollows(x: Setup, h: Hub, u: UserId, c: PresenceChange, now: Time)
    requires Follows(x, h)
    ensures Follows(x, Changed(x, h, u, c, now).hub)
  {
    if u in h.room.snap.members {
      CommitFollows(x, h, Ask(ChangeEvent(c), u, h.room.snap.members[u].displayName, now).(source := "presence"));
    }
  }

  lemma {:induction false} ChecksFollow(x: Setup, h: Hub, order: seq<UserId>, now: Time)
    requires Follows(x, h)
    ensures Follows(x, Checks(x, h, order, now).hub)
  {
    if order != [] {
      var front, u := order[..|order| - 1], order[|order| - 1];
      ChecksFollow(x, h, front, now);
      var mid := Checks(x, h, front, now).hub;
      if u in mid.tracked {
        var e := mid.tracked[u];
        var marked := mid.(tracked := mid.tracked[u := Checked(x.config, e, now)]);
        var c := Reported(x.config, e, now);
        if c.Some? {
          ChangedFollows(x, marked, u, c.value, now);
        }
      }
    }
  }

  lemma {:induction false} SweepsFollow(x: Setup, h: Hub, copy: map<UserId, MemberInfo>, order: seq<UserId>, now: Time)
    requires Follows(x, h)
    ensures Follows(x, Sweeps(x, h, copy, order, now).hub)
  {
    if order != [] {
      var front, u := order[..|order| - 1], order[|order| - 1];
      SweepsFollow(x, h, copy, front, now);
      if Stuck(copy, u, now) {
        CommitFollows(x, Sweeps(x, h, copy, front, now).hub, Ask(DisconnectTimeout, u, copy[u].displayName, now));
      }
    }
  }

  lemma JoinFollows(x: Setup, h: Hub, a: Action)
    requires Follows(x, h) && a.Join?
    ensures Follows(x, Outcome(x, h, a).hub)
  {
    var rejected := Ask(JoinRejected, a.user, a.name, a.now);
    CommitFollows(x, h, rejected);
    CatchUpSnoc(EmptyTable, x.self, x.parse, h.told, LocalEvent(h.room.log, rejected));
    CommitFollows(x, h, Request(JoinAccepted, a.user, "coordinator", COORDINATOR_TERM, a.name, a.trace, a.key, a.now));
  }

  lemma LeaveFollows(x: Setup, h: Hub, u: UserId, now: Time)
    requires Follows(x, h)
    ensures Follows(x, LeaveOf(x, h, u, now).hub)
  {
    if u in h.room.snap.members {
      var name := h.room.snap.members[u].displayName;
      CommitFollows(x, h, Ask(LeaveConfirmed, u, name, now));
      CommitFollows(x, h, Ask(LeaveRequested, u, name, now));
      CommitFollows(x, Commit(x, h, Ask(LeaveRequested, u, name, now)).hub, Ask(LeaveConfirmed, u, name, now));
    }
  }

  lemma HeartbeatFollows(x: Setup, h: Hub, u: UserId, now: Time)
    requires Follows(x, h)
    ensures Follows(x, HeartbeatOf(x, h, u, now).hub)
  {
    if u in h.room.snap.members {
      var ask := Ask(Heartbeat, u, h.room.snap.members[u].displayName, now);
      CommitFollows(x, h, ask);
      ChangedFollows(x, Commit(x, h, ask).hub.(tracked := Apply(x.config, h.tracked, Beat(u, now))), u, CameBack, now);
    }
  }

  lemma ActionFollows(x: Setup, h: Hub, a: Action)
    requires Follows(x, h)
    ensures Follows(x, Outcome(x, h, a).hub)
  {
    match a
    case Join(_, _, _, _, _, _, _) => JoinFollows(x, h, a);
    case Leave(u, now) => LeaveFollows(x, h, u, now);
    case HeartbeatFrom(u, now) => HeartbeatFollows(x, h, u, now);
    case Backfill(u, start, now) =>
      if u in h.room.snap.members {
        var kind := if start then BackfillStarted else BackfillComplete;
        CommitFollows(x, h, Ask(kind, u, h.room.snap.members[u].displayName, now));
      }
    case Gossip(e, now) => ToldFollows(x, h, Remote(e));
    case Tick(now, order, sweep) =>
      ChecksFollow(x, h, order, now);
      var mid := Checks(x, h, order, now).hub;
      SweepsFollow(x, mid, mid.room.snap.members, sweep, now);
  }

  /** Over every run, at any term, a subscriber that applies what it is told one by one has the router's table. */
  lemma {:induction false} TableFollowsTold(x: Setup, room: string, actions: seq<Action>)
    ensures Follows(x, Acts(x, FreshHub(room), actions))
  {
    if actions != [] {
      TableFollowsTold(x, room, actions[..|actions| - 1]);
      ActionFollows(x, Acts(x, FreshHub(room), actions[..|actions| - 1]), actions[|actions| - 1]);
    }
  }
}
