/**
  Heartbeat-driven failure detection: a silent member is first suspected, then
  timed out.  The time of each call is a parameter.
 */
module Presence {
  import opened Clocks
  import opened Membership

  datatype Entry = Entry(lastHeartbeat: Time, suspected: bool, suspectedAt: Option<Time>)

  datatype Config = Config(interval: Time, missed: nat, grace: Time)

  function Threshold(c: Config): Time { c.interval * (c.missed as real) }

  type Tracked = map<UserId, Entry>

  datatype Action =
    | Register(user: UserId, now: Time)
    | Unregister(user: UserId)
    | Beat(user: UserId, now: Time)
    | Check(now: Time)

  function Checked(c: Config, e: Entry, now: Time): Entry {
    if !e.suspected && now - e.lastHeartbeat > Threshold(c) then e.(suspected := true, suspectedAt := Some(now)) else e
  }

  predicate EntryFires(c: Config, e: Entry, now: Time) {
    e.suspected && e.suspectedAt.Some? && now - e.suspectedAt.value > c.grace
  }

  /** A check at this time reports a timeout of this member. */
  predicate Fires(c: Config, ms: Tracked, u: UserId, now: Time) {
    u in ms && EntryFires(c, ms[u], now)
  }

  datatype PresenceChange = WentSuspect | TimedOut | CameBack

  /** What a check at this time reports of one entry. */
  function Reported(c: Config, e: Entry, now: Time): Option<PresenceChange> {
    if !e.suspected then (if now - e.lastHeartbeat > Threshold(c) then Some(WentSuspect) else None)
    else if EntryFires(c, e, now) then Some(TimedOut)
    else None
  }

  function Heartbeaten(e: Entry, now: Time): Entry {
    if e.suspected then Entry(now, false, None) else e.(lastHeartbeat := now)
  }

  function Apply(c: Config, ms: Tracked, a: Action): Tracked {
    match a
    case Register(u, now) => ms[u := Entry(now, false, None)]
    case Unregister(u) => ms - {u}
    case Beat(u, now) => if u in ms then ms[u := Heartbeaten(ms[u], now)] else ms
    case Check(now) => map u | u in ms :: Checked(c, ms[u], now)
  }

  function Run(c: Config, actions: seq<Action>): Tracked {
    if actions == [] then map[] else Apply(c, Run(c, actions[..|actions| - 1]), actions[|actions| - 1])
  }

  // ---- Accuracy ----

  /** When a tracked member last registered or sent a heartbeat, from the history alone. */
  function Heard(actions: seq<Action>, u: UserId): Option<Time> {
    if actions == [] then None
    else
      var before := Heard(actions[..|actions| - 1], u);
      match actions[|actions| - 1]
      case Register(v, now) => if v == u then Some(now) else before
      case Unregister(v) => if v == u then None else before
      case Beat(v, now) => if v == u && before.Some? then Some(now) else before
      case Check(_) => before
  }

  ghost predicate Faithful(c: Config, e: Entry, h: Time) {
    e.lastHeartbeat == h && (e.suspected ==> e.suspectedAt.Some? && e.suspectedAt.value - h > Threshold(c))
  }

  lemma {:induction false} EntriesAreFaithful(c: Config, actions: seq<Action>, u: UserId)
    ensures u in Run(c, actions) <==> Heard(actions, u).Some?
    ensures u in Run(c, actions) ==> Faithful(c, Run(c, actions)[u], Heard(actions, u).value)
  {
    if actions != [] {
      EntriesAreFaithful(c, actions[..|actions| - 1], u);
    }
  }

  ghost predicate SignalOf(a: Action, u: UserId, t: Time) {
    (a.Register? || a.Beat?) && a.user == u && a.now == t
  }

  ghost predicate Timed(a: Action) { !a.Unregister? }

  /** The clock never goes back. */
  ghost predicate Monotone(actions: seq<Action>) {
    forall i, j | 0 <= i < j < |actions| && Timed(actions[i]) && Timed(actions[j]) :: actions[i].now <= actions[j].now
  }

  lemma {:induction false} HeardIsLatest(actions: seq<Action>, u: UserId, i: nat, t: Time)
    requires Monotone(actions) && Heard(actions, u).Some? && i < |actions| && SignalOf(actions[i], u, t)
    ensures t <= Heard(actions, u).value
  {
    var n := |actions| - 1;
    assert Timed(actions[i]);
    if i < n {
      if SignalOf(actions[n], u, Heard(actions, u).value) {
        assert Timed(actions[n]);
      } else {
        assert Monotone(actions[..n]);
        HeardIsLatest(actions[..n], u, i, t);
      }
    }
  }

  /** A timeout fires only if nothing was heard of the member for more than interval * missed + grace. */
  lemma TimeoutMeansSilence(c: Config, actions: seq<Action>, u: UserId, now: Time)
    requires Monotone(actions) && Fires(c, Run(c, actions), u, now)
    ensures Heard(actions, u).Some?
    ensures forall i, t | 0 <= i < |actions| && SignalOf(actions[i], u, t) ::
      now - t > c.interval * (c.missed as real) + c.grace
  {
    EntriesAreFaithful(c, actions, u);
    forall i, t | 0 <= i < |actions| && SignalOf(actions[i], u, t) ensures now - t > Threshold(c) + c.grace {
      HeardIsLatest(actions, u, i, t);
    }
  }

  // ---- Detection bound ----

  /** The last check of `post`, or `start` if there was none. */
  function LastCheck(post: seq<Action>, start: Time): Time {
    if post == [] then start
    else if post[|post| - 1].Check? then post[|post| - 1].now
    else LastCheck(post[..|post| - 1], start)
  }

  /** Checks follow one another, and the start, by at most `d`. */
  ghost predicate Spaced(post: seq<Action>, start: Time, d: Time) {
    post == [] ||
    (var front, last := post[..|post| - 1], post[|post| - 1];
     Spaced(front, start, d) &&
     (last.Check? ==> LastCheck(front, start) <= last.now <= LastCheck(front, start) + d))
  }

  /** Nothing in `post` is about `u` except the checks. */
  ghost predicate Silent(post: seq<Action>, u: UserId) {
    forall i | 0 <= i < |post| :: post[i].Check? || post[i].user != u
  }

  ghost predicate FiredBy(c: Config, pre: seq<Action>, post: seq<Action>, u: UserId, deadline: Time) {
    exists i | 0 <= i < |post| :: FiresAt(c, pre, post, i, u, deadline)
  }

  ghost predicate FiresAt(c: Config, pre: seq<Action>, post: seq<Action>, i: nat, u: UserId, deadline: Time)
    requires i < |post|
  {
    post[i].Check? && post[i].now <= deadline && Fires(c, Run(c, pre + post[..i]), u, post[i].now)
  }

  /** How far an undetected silence can have got. */
  ghost predicate Pending(c: Config, e: Entry, h: Time, last: Time, d: Time) {
    && e.lastHeartbeat == h
    && (!e.suspected ==> last <= h + Threshold(c))
    && (e.suspected ==>
          && e.suspectedAt.Some? && e.suspectedAt.value <= h + Threshold(c) + d
          && last <= e.suspectedAt.value + c.grace)
  }

  lemma PendingStep(c: Config, e: Entry, h: Time, last: Time, now: Time, d: Time)
    requires c.grace >= 0.0 && Pending(c, e, h, last, d) && last <= now <= last + d
    ensures EntryFires(c, e, now) ==> now <= h + Threshold(c) + c.grace + 2.0 * d
    ensures !EntryFires(c, e, now) ==> Pending(c, Checked(c, e, now), h, now, d)
  {
  }

  lemma RunSnoc(c: Config, pre: seq<Action>, post: seq<Action>)
    requires post != []
    ensures Run(c, pre + post) == Apply(c, Run(c, pre + post[..|post| - 1]), post[|post| - 1])
  {
    assert (pre + post)[..|pre + post| - 1] == pre + post[..|post| - 1];
  }

  lemma {:induction false} DetectedOrPending(
      c: Config, pre: seq<Action>, post: seq<Action>, u: UserId, h: Time, d: Time)
    requires c.grace >= 0.0 && Threshold(c) >= 0.0
    requires u in Run(c, pre) && Run(c, pre)[u].lastHeartbeat == h && !Run(c, pre)[u].suspected
    requires Spaced(post, h, d) && Silent(post, u)
    ensures FiredBy(c, pre, post, u, h + Threshold(c) + c.grace + 2.0 * d) ||
            (u in Run(c, pre + post) && Pending(c, Run(c, pre + post)[u], h, LastCheck(post, h), d))
    decreases |post|
  {
    var deadline := h + Threshold(c) + c.grace + 2.0 * d;
    if post == [] {
      assert pre + post == pre;
    } else {
      var n := |post| - 1;
      var front, last := post[..n], post[n];
      DetectedOrPending(c, pre, front, u, h, d);
      if FiredBy(c, pre, front, u, deadline) {
        var i :| 0 <= i < n && FiresAt(c, pre, front, i, u, deadline);
        assert front[..i] == post[..i];
        assert FiresAt(c, pre, post, i, u, deadline);
      } else {
        RunSnoc(c, pre, post);
        if last.Check? {
          var e := Run(c, pre + front)[u];
          PendingStep(c, e, h, LastCheck(front, h), last.now, d);
          if EntryFires(c, e, last.now) {
            assert FiresAt(c, pre, post, n, u, deadline);
          }
        }
      }
    }
  }

  lemma ThresholdIsNatural(c: Config)
    requires c.interval >= 0.0
    ensures Threshold(c) >= 0.0
  {
  }

  /**
    Detection bound: a member whose last sign of life was at `h` is timed out
    no later than h + interval * missed + grace + 2d, if checks are at most
    `d` apart and go on for more than interval * missed + grace + d.
   */
  lemma SilenceIsDetected(c: Config, pre: seq<Action>, signal: Action, post: seq<Action>, u: UserId, h: Time, d: Time)
    requires c.grace >= 0.0 && c.interval >= 0.0 && d >= 0.0
    requires SignalOf(signal, u, h) && (signal.Beat? ==> u in Run(c, pre))
    requires Spaced(post, h, d) && Silent(post, u)
    requires LastCheck(post, h) > h + Threshold(c) + c.grace + d
    ensures FiredBy(c, pre + [signal], post, u, h + Threshold(c) + c.grace + 2.0 * d)
  {
    var all := pre + [signal];
    assert all[..|pre|] == pre;
    ThresholdIsNatural(c);
    DetectedOrPending(c, all, post, u, h, d);
  }

  // ---- The manager ----

  class PresenceManager {
    const config: Config
    var members: Tracked

    constructor (config: Config)
      ensures this.config == config && members == map[]
    {
      this.config, members := config, map[];
    }

    method RegisterMember(u: UserId, now: Time)
      modifies this
      ensures members == Apply(config, old(members), Register(u, now))
    {
      members := members[u := Entry(now, false, None)];
    }

    method UnregisterMember(u: UserId)
      modifies this
      ensures members == Apply(config, old(members), Unregister(u))
    {
      members := members - {u};
    }

    /** A heartbeat; reports whether it ended a suspicion. */
    method RecordHeartbeat(u: UserId, now: Time) returns (reconnected: bool)
      modifies this
      ensures members == Apply(config, old(members), Beat(u, now))
      ensures reconnected <==> u in old(members) && old(members)[u].suspected
    {
      if u !in members {
        return false;
      }
      var e := members[u].(lastHeartbeat := now);
      reconnected := e.suspected;
      if e.suspected {
        e := e.(suspected := false, suspectedAt := None);
      }
      members := members[u := e];
    }

    /** One entry of the pass. */
    method CheckMember(u: UserId, now: Time) returns (change: Option<PresenceChange>)
      modifies this
      ensures members == if u in old(members)
                         then old(members)[u := Checked(config, old(members)[u], now)] else old(members)
      ensures change == if u in old(members) then Reported(config, old(members)[u], now) else None
    {
      if u !in members {
        return None;
      }
      var e := members[u];
      if !e.suspected {
        if now - e.lastHeartbeat > Threshold(config) {
          members := members[u := e.(suspected := true, suspectedAt := Some(now))];
          return Some(WentSuspect);
        }
      } else if e.suspectedAt.Some? && now - e.suspectedAt.value > config.grace {
        return Some(TimedOut);
      }
      return None;
    }

    /** One pass over all members, reporting new suspicions and timeouts. */
    method CheckLiveness(now: Time) returns (newSuspects: set<UserId>, timeouts: set<UserId>)
      modifies this
      ensures members == Apply(config, old(members), Check(now))
      ensures forall u :: u in timeouts <==> Fires(config, old(members), u, now)
      ensures forall u :: u in newSuspects <==>
        u in old(members) && !old(members)[u].suspected && Checked(config, old(members)[u], now).suspected
    {
      newSuspects, timeouts := {}, {};
      var todo := members.Keys;
      while todo != {}
        invariant todo <= members.Keys == old(members).Keys
        invariant forall u | u in members ::
          members[u] == if u in todo then old(members)[u] else Checked(config, old(members)[u], now)
        invariant forall u :: u in timeouts <==> u !in todo && Fires(config, old(members), u, now)
        invariant forall u :: u in newSuspects <==>
          (&& u in old(members) && u !in todo && !old(members)[u].suspected
           && Checked(config, old(members)[u], now).suspected)
        decreases |todo|
      {
        var u :| u in todo;
        var change := CheckMember(u, now);
        if change == Some(WentSuspect) {
          newSuspects := newSuspects + {u};
        } else if change == Some(TimedOut) {
          timeouts := timeouts + {u};
        }
        todo := todo - {u};
      }
    }
  }
}
