/**
  The numbers a peer gives its own messages, over all its lives: when none is
  ever used twice, and exactly when one comes back.
 */
module OwnNumbers {
  import opened Clocks
  import opened HoldBack
  import opened BroadcastNodes
  import opened Listing
  import opened Sequences
  import opened StoreModel
  import opened Recovery
  import opened HeadlessPeers

  /** Own numbers rise strictly, and each is at least 1. */
  ghost predicate Rising(mine: seq<Message>, self: NodeId) {
    && (forall i | 0 <= i < |mine| :: mine[i].sender == self && mine[i].Seq() >= 1)
    && (forall i, j | 0 <= i < j < |mine| :: mine[i].Seq() < mine[j].Seq())
  }

  /** The clock has reached every number the peer ever used. */
  ghost predicate Reached(p: Peer) {
    forall i | 0 <= i < |p.mine| :: p.mine[i].Seq() <= At(p.node.clock, p.node.self)
  }

  /** Everything of its own the peer has processed is stored under rising numbers, and only such messages leave. */
  ghost predicate Kept(p: Peer, w: set<Message>) {
    && DiscOk(p.disc, w) && WorldPool(HeldSet(p.node), w)
    && Elems(p.mine) <= Elems(Saved(p)) && Rising(p.mine, p.node.self)
    && Elems(p.outbox) <= Elems(p.mine) && Elems(p.left) <= Elems(p.mine)
  }

  /** Own broadcasts are chat; timeouts, arbitrary stamps and any arriving content are allowed. */
  ghost predicate CarefulWork(p: Peer, work: Work, w: set<Message>) {
    match work
    case Arrive(m, _) => InWorld(m, w)
    case Send(id, ts, content, _, _) => content.Chat? && InWorld(Draft(p.node, id, ts, content), w)
    case _ => true
  }

  /** A crash asks that the store it leaves, with the callbacks that completed, shows no sender gap. */
  ghost predicate Careful(p: Peer, e: Event, w: set<Message>) {
    match e
    case Does(work) => CarefulWork(p, work, w)
    case Forward(_) => true
    case Crash(during, done, how) =>
      CarefulWork(p, during, w) && !Gaps(Scan(Saved(Crashed(p, during, done, how))).seqs)
  }

  ghost predicate CarefulLife(p: Peer, events: seq<Event>, w: set<Message>) {
    events == [] ||
    (CarefulLife(p, events[..|events| - 1], w) && Careful(Live(p, events[..|events| - 1]), events[|events| - 1], w))
  }

  /** A broadcast has at most one callback, for the draft itself, one number above everything used. */
  lemma OwnCallbacks(p: Peer, work: Work)
    ensures Own(work, Callbacks(p, work)) == [] ||
            (work.Send? && work.id !in p.node.seen && work.signed &&
             Callbacks(p, work) == [Draft(p.node, work.id, work.timestamp, work.content)])
  {
    if work.Send? && work.id !in p.node.seen && work.signed {
      SendMoves(p.node, work.id, work.timestamp, work.content);
    }
  }

  lemma DraftNumber(st: NodeState, id: MsgId, ts: Time, content: Content)
    ensures var m := Draft(st, id, ts, content); m.sender == st.self && m.Seq() == At(st.clock, st.self) + 1
  {
  }

  /** With the first `n` callbacks run, the own messages among them are stored and rising. */
  lemma OwnIsStored(p: Peer, work: Work, n: nat, w: set<Message>)
    requires Kept(p, w) && Reached(p) && IdsIdentify(w) && CarefulWork(p, work, w) && n <= |Callbacks(p, work)|
    ensures var ms := Callbacks(p, work)[..n]; var d := OnMessages(Begun(p, work), ms);
            var mine := p.mine + Own(work, ms);
            && DiscOk(d, w) && Elems(mine) <= Elems(Contents(d.store.disk)) && Rising(mine, p.node.self)
            && Elems(p.mine) <= Elems(mine) && Elems(Own(work, ms)) <= Elems(mine)
            && (forall i | 0 <= i < |mine| :: mine[i].Seq() <= At(Moved(p, work).clock, p.node.self))
  {
    var all := Callbacks(p, work);
    CallbacksAreStored(p, work, n, w);
    OwnCallbacks(p, work);
    OwnIsNext(p, work, n);
    if Own(work, all[..n]) == [] {
      assert p.mine + [] == p.mine;
    } else {
      var m := Draft(p.node, work.id, work.timestamp, work.content);
      assert all[..n] == [m];
      ChatIsCarried([m], 0);
      ElemsSnoc(p.mine, m);
    }
  }

  lemma FinishedIsKept(p: Peer, work: Work, w: set<Message>)
    requires Kept(p, w) && Reached(p) && CarefulWork(p, work, w) && IdsIdentify(w)
    ensures Kept(Finished(p, work), w) && Reached(Finished(p, work))
  {
    var ms := Callbacks(p, work);
    OwnIsStored(p, work, |ms|, w);
    assert ms[..|ms|] == ms;
    WorkMoves(p, work);
    PoolInWorld(p, work, w);
    OutboxGrows(p.outbox, if work.Send? && work.ttl > 0 then Own(work, ms) else [], p.mine + Own(work, ms));
  }

  lemma OutboxGrows(outbox: seq<Message>, more: seq<Message>, mine: seq<Message>)
    requires Elems(outbox) <= Elems(mine) && Elems(more) <= Elems(mine)
    ensures Elems(outbox + more) <= Elems(mine)
  {
    forall m | m in Elems(outbox + more) ensures m in Elems(mine) {
      assert m in Elems(outbox) || m in Elems(more);
    }
  }

  lemma StoredIsBelowLatest(ms: seq<Message>, m: Message)
    requires m in Elems(ms)
    ensures m.Seq() <= At(Scan(ms).latest, m.sender)
  {
    ScanDescribes(ms);
    assert Numbered(Elems(ms), m.sender, m.Seq());
  }

  /**
    A restarted clock has reached every stored own number exactly when the
    store shows no sender gap, or there is no own number.
   */
  lemma RestartReachesIff(self: NodeId, store: Store, mine: seq<Message>, left: seq<Message>, how: Reopening)
    requires Rising(mine, self) && Elems(mine) <= Elems(Contents(store.disk))
    ensures Reached(Restarted(self, store, mine, left, how)) <==>
            !Gaps(Scan(Contents(store.disk)).seqs) || mine == []
  {
    var saved := Contents(store.disk);
    RestartedFrom(self, store, mine, left, how);
    if Gaps(Scan(saved).seqs) {
      assert mine != [] ==> mine[0].Seq() >= 1;
    } else {
      forall i | 0 <= i < |mine| ensures mine[i].Seq() <= At(Scan(saved).latest, self) {
        assert mine[i] in Elems(mine);
        StoredIsBelowLatest(saved, mine[i]);
      }
    }
  }

  lemma RestartIsKept(
      self: NodeId, store: Store, mine: seq<Message>, left: seq<Message>, how: Reopening, w: set<Message>)
    requires Elems(Contents(store.disk)) <= w && Rising(mine, self)
    requires Elems(left) <= Elems(mine) <= Elems(Contents(store.disk))
    ensures Kept(Restarted(self, store, mine, left, how), w)
  {
    RestartedFrom(self, store, mine, left, how);
  }

  lemma CrashedIsKept(p: Peer, work: Work, done: nat, how: Reopening, w: set<Message>)
    requires Kept(p, w) && Reached(p) && CarefulWork(p, work, w) && IdsIdentify(w)
    ensures Kept(Crashed(p, work, done, how), w)
    ensures !Gaps(Scan(Saved(Crashed(p, work, done, how))).seqs) ==> Reached(Crashed(p, work, done, how))
  {
    var n := CompletedIsPrefix(p, work, done);
    OwnIsStored(p, work, n, w);
    var ms := Callbacks(p, work)[..n];
    var store, mine := OnMessages(Begun(p, work), ms).store, p.mine + Own(work, ms);
    var r := Restarted(p.node.self, store, mine, p.left, how);
    assert Crashed(p, work, done, how) == r;
    RestartIsKept(p.node.self, store, mine, p.left, how, w);
    assert Saved(r) == Contents(store.disk) by {
      RestartedFrom(p.node.self, store, mine, p.left, how);
    }
    RestartReachesIff(p.node.self, store, mine, p.left, how);
  }

  lemma ForwardIsKept(p: Peer, i: nat, w: set<Message>)
    requires Kept(p, w)
    ensures Kept(Happen(p, Forward(i)), w)
  {
    if i < |p.outbox| {
      assert p.outbox[i] in Elems(p.outbox);
      IdsSnoc(p.left, p.outbox[i]);
    }
  }

  lemma CarefulKeeps(p: Peer, e: Event, w: set<Message>)
    requires Kept(p, w) && Reached(p) && Careful(p, e, w) && IdsIdentify(w)
    ensures Kept(Happen(p, e), w) && Reached(Happen(p, e))
  {
    match e
    case Does(work) => FinishedIsKept(p, work, w);
    case Forward(i) => ForwardIsKept(p, i, w);
    case Crash(during, done, how) => CrashedIsKept(p, during, done, how, w);
  }

  lemma {:induction false} CarefulLifeIsKept(self: NodeId, threshold: int, events: seq<Event>, w: set<Message>)
    requires IdsIdentify(w) && CarefulLife(Newborn(self, threshold), events, w)
    ensures var p := Live(Newborn(self, threshold), events); Kept(p, w) && Reached(p)
  {
    if events == [] {
      NewbornIsAccounted(self, threshold, w);
    } else {
      CarefulLifeIsKept(self, threshold, events[..|events| - 1], w);
      CarefulKeeps(Live(Newborn(self, threshold), events[..|events| - 1]), events[|events| - 1], w);
    }
  }

  lemma RisingIsInjective(mine: seq<Message>, self: NodeId, a: Message, b: Message)
    requires Rising(mine, self) && a in Elems(mine) && b in Elems(mine) && a.Seq() == b.Seq()
    ensures a == b
  {
    var i :| 0 <= i < |mine| && mine[i] == a;
    var j :| 0 <= j < |mine| && mine[j] == b;
    assert i == j;
  }

  /**
    A peer that broadcasts chat reuses no number: over every life of sends,
    arrivals with any stamps and contents, timeouts, syncs and crashes between
    any two callbacks, as long as each crash leaves a store without sender
    gaps, two messages that left the peer under the same number are the same
    message, and each is stored.
   */
  lemma NoChatNumberReused(self: NodeId, threshold: int, events: seq<Event>, w: set<Message>, a: Message, b: Message)
    requires IdsIdentify(w) && CarefulLife(Newborn(self, threshold), events, w)
    requires var p := Live(Newborn(self, threshold), events); a in p.left && b in p.left && a.Seq() == b.Seq()
    ensures a == b && a in Elems(Saved(Live(Newborn(self, threshold), events)))
  {
    CarefulLifeIsKept(self, threshold, events, w);
    var p := Live(Newborn(self, threshold), events);
    assert a in Elems(p.left) && b in Elems(p.left);
    RisingIsInjective(p.mine, p.node.self, a, b);
  }

  // ---- Any contents: what a crash has to leave behind ----

  /** Numbers in order, all reached by the clock, and only processed messages leave. */
  ghost predicate Orderly(p: Peer) {
    Rising(p.mine, p.node.self) && Reached(p) && Elems(p.outbox) <= Elems(p.mine) && Elems(p.left) <= Elems(p.mine)
  }

  /** The store shows no sender gap and reaches up to every number used, or none was used. */
  ghost predicate Safe(disk: seq<Message>, mine: seq<Message>, self: NodeId) {
    mine == [] ||
    (!Gaps(Scan(disk).seqs) && forall i | 0 <= i < |mine| :: mine[i].Seq() <= At(Scan(disk).latest, self))
  }

  /** With some callbacks run, the own message among them, whatever it says, is the next number. */
  lemma OwnIsNext(p: Peer, work: Work, n: nat)
    requires Rising(p.mine, p.node.self) && Reached(p) && n <= |Callbacks(p, work)|
    ensures var mine := p.mine + Own(work, Callbacks(p, work)[..n]);
            && Rising(mine, p.node.self) && Elems(p.mine) <= Elems(mine)
            && Elems(Own(work, Callbacks(p, work)[..n])) <= Elems(mine)
            && (forall i | 0 <= i < |mine| :: mine[i].Seq() <= At(Moved(p, work).clock, p.node.self))
  {
    var all := Callbacks(p, work);
    OwnCallbacks(p, work);
    WorkMoves(p, work);
    if Own(work, all[..n]) == [] {
      assert p.mine + [] == p.mine;
    } else {
      var m := Draft(p.node, work.id, work.timestamp, work.content);
      assert all[..n] == [m];
      assert At(Moved(p, work).clock, p.node.self) == m.Seq() by {
        SendMoves(p.node, work.id, work.timestamp, work.content);
      }
      DraftNumber(p.node, work.id, work.timestamp, work.content);
      NextRises(p.mine, m, p.node.self, At(p.node.clock, p.node.self));
    }
  }

  lemma NextRises(mine: seq<Message>, m: Message, self: NodeId, top: nat)
    requires Rising(mine, self) && m.sender == self && m.Seq() == top + 1
    requires forall i | 0 <= i < |mine| :: mine[i].Seq() <= top
    ensures Rising(mine + [m], self) && Elems(mine + [m]) == Elems(mine) + {m} && Elems([m]) == {m}
    ensures forall i | 0 <= i < |mine + [m]| :: (mine + [m])[i].Seq() <= top + 1
  {
    ElemsSnoc(mine, m);
  }

  lemma FinishedIsOrderly(p: Peer, work: Work)
    requires Orderly(p)
    ensures Orderly(Finished(p, work))
  {
    var ms := Callbacks(p, work);
    OwnIsNext(p, work, |ms|);
    assert ms[..|ms|] == ms;
    WorkMoves(p, work);
    OutboxGrows(p.outbox, if work.Send? && work.ttl > 0 then Own(work, ms) else [], p.mine + Own(work, ms));
  }

  lemma RestartIsSafeIff(self: NodeId, store: Store, mine: seq<Message>, left: seq<Message>, how: Reopening)
    requires Rising(mine, self)
    ensures Reached(Restarted(self, store, mine, left, how)) <==> Safe(Contents(store.disk), mine, self)
  {
    RestartedFrom(self, store, mine, left, how);
    assert mine != [] ==> mine[0].Seq() >= 1;
  }

  /** A crash, wherever it comes, keeps the numbers in order exactly if the store it leaves is safe. */
  lemma CrashIsOrderlyIff(p: Peer, work: Work, done: nat, how: Reopening)
    requires Orderly(p)
    ensures var r := Crashed(p, work, done, how); Orderly(r) <==> Safe(Saved(r), r.mine, r.node.self)
  {
    var n := CompletedIsPrefix(p, work, done);
    OwnIsNext(p, work, n);
    var ms := Callbacks(p, work)[..n];
    var store, mine := OnMessages(Begun(p, work), ms).store, p.mine + Own(work, ms);
    RestartedFrom(p.node.self, store, mine, p.left, how);
    RestartIsSafeIff(p.node.self, store, mine, p.left, how);
  }

  /** Anything may arrive, be sent, expire and sync; a crash has to leave a safe store. */
  ghost predicate SafeEvent(p: Peer, e: Event) {
    e.Crash? ==> var r := Happen(p, e); Safe(Saved(r), r.mine, r.node.self)
  }

  ghost predicate SafeLife(p: Peer, events: seq<Event>) {
    events == [] ||
    (SafeLife(p, events[..|events| - 1]) && SafeEvent(Live(p, events[..|events| - 1]), events[|events| - 1]))
  }

  lemma SafeEventIsOrderly(p: Peer, e: Event)
    requires Orderly(p) && SafeEvent(p, e)
    ensures Orderly(Happen(p, e))
  {
    match e
    case Does(work) => FinishedIsOrderly(p, work);
    case Forward(i) =>
      if i < |p.outbox| {
        assert p.outbox[i] in Elems(p.outbox);
        ElemsSnoc(p.left, p.outbox[i]);
      }
    case Crash(during, done, how) => CrashIsOrderlyIff(p, during, done, how);
  }

  lemma {:induction false} SafeLifeIsOrderly(p: Peer, events: seq<Event>)
    requires Orderly(p) && SafeLife(p, events)
    ensures Orderly(Live(p, events))
  {
    if events != [] {
      SafeLifeIsOrderly(p, events[..|events| - 1]);
      SafeEventIsOrderly(Live(p, events[..|events| - 1]), events[|events| - 1]);
    }
  }

  /**
    No number is ever reused, whatever is sent and received: over every life
    of sends and arrivals of any content, timeouts, syncs and crashes between
    any two callbacks, as long as each crash leaves a safe store, two messages
    that left the peer under the same number are the same message.
   */
  lemma NoNumberReused(self: NodeId, threshold: int, events: seq<Event>, a: Message, b: Message)
    requires SafeLife(Newborn(self, threshold), events)
    requires var p := Live(Newborn(self, threshold), events); a in p.left && b in p.left && a.Seq() == b.Seq()
    ensures a == b
  {
    SafeLifeIsOrderly(Newborn(self, threshold), events);
    var p := Live(Newborn(self, threshold), events);
    assert a in Elems(p.left) && b in Elems(p.left);
    RisingIsInjective(p.mine, p.node.self, a, b);
  }

  // ---- An unreached number does come back ----

  ghost predicate DistinctNumbers(mine: seq<Message>) {
    forall i, j | 0 <= i < j < |mine| :: mine[i].Seq() != mine[j].Seq()
  }

  ghost predicate NoCrash(events: seq<Event>) {
    forall i | 0 <= i < |events| :: !events[i].Crash?
  }

  lemma {:induction false} LiveCons(p: Peer, e: Event, rest: seq<Event>)
    ensures Live(p, [e] + rest) == Live(Happen(p, e), rest)
  {
    var all := [e] + rest;
    if rest == [] {
      assert all == [e] && [e][..0] == [] && Live(p, []) == p;
    } else {
      assert all[..|all| - 1] == [e] + rest[..|rest| - 1];
      LiveCons(p, e, rest[..|rest| - 1]);
    }
  }

  /** One more chat under a fresh id. */
  lemma SendsOneMore(p: Peer, id: MsgId)
    requires id !in p.node.seen
    ensures var q := Happen(p, Does(Send(id, 0.0, Chat(""), true, 0))); var m := Draft(p.node, id, 0.0, Chat(""));
            && q.mine == p.mine + [m] && q.node.self == p.node.self
            && m.Seq() == At(p.node.clock, p.node.self) + 1 == At(q.node.clock, p.node.self)
  {
    SendMoves(p.node, id, 0.0, Chat(""));
  }

  /** From a clock below a used number, enough sends reach it again. */
  lemma {:induction false} UnreachedComesBack(p: Peer, i: nat) returns (events: seq<Event>)
    requires i < |p.mine| && p.mine[i].Seq() > At(p.node.clock, p.node.self)
    ensures NoCrash(events) && !DistinctNumbers(Live(p, events).mine)
    decreases p.mine[i].Seq() - At(p.node.clock, p.node.self)
  {
    var id := UnseenId(p.node.seen);
    var e := Does(Send(id, 0.0, Chat(""), true, 0));
    SendsOneMore(p, id);
    var q := Happen(p, e);
    assert q.mine[i] == p.mine[i];
    if q.mine[i].Seq() == At(q.node.clock, q.node.self) {
      events := [e];
      LiveCons(p, e, []);
      assert [e] + [] == [e] && Live(q, []) == q;
      assert q.mine[|p.mine|].Seq() == q.mine[i].Seq();
    } else {
      var rest := UnreachedComesBack(q, i);
      events := [e] + rest;
      LiveCons(p, e, rest);
    }
  }

  lemma {:induction false} ReachedStaysDistinct(p: Peer, events: seq<Event>)
    requires Rising(p.mine, p.node.self) && Reached(p) && NoCrash(events)
    ensures Rising(Live(p, events).mine, p.node.self) && Reached(Live(p, events))
    ensures Live(p, events).node.self == p.node.self
  {
    if events != [] {
      var front, last := events[..|events| - 1], events[|events| - 1];
      ReachedStaysDistinct(p, front);
      if last.Does? {
        var q := Live(p, front);
        var ms := Callbacks(q, last.work);
        OwnIsNext(q, last.work, |ms|);
        assert ms[..|ms|] == ms;
        WorkMoves(q, last.work);
      }
    }
  }

  /**
    The condition is exact: from any state with its numbers in order, say right
    after a crash, every life up to the next crash keeps the peer's numbers
    distinct if and only if the clock has reached every number used.
   */
  lemma NumbersStayDistinctIff(p: Peer)
    requires Rising(p.mine, p.node.self)
    ensures (forall events | NoCrash(events) :: DistinctNumbers(Live(p, events).mine)) <==> Reached(p)
  {
    if Reached(p) {
      forall events | NoCrash(events) ensures DistinctNumbers(Live(p, events).mine) {
        ReachedStaysDistinct(p, events);
      }
    } else {
      var i :| 0 <= i < |p.mine| && p.mine[i].Seq() > At(p.node.clock, p.node.self);
      var events := UnreachedComesBack(p, i);
    }
  }

  // ---- When a number does come back ----

  lemma NoHoleBelow(ms: seq<Message>, s: NodeId, k: nat)
    requires !HasHole(Elems(ms)) && 1 <= k <= At(Scan(ms).latest, s)
    ensures Numbered(Elems(ms), s, k)
  {
    ScanDescribes(ms);
    assert Numbered(Elems(ms), s, At(Scan(ms).latest, s));
  }

  /** Storing one more number makes a hole exactly when it is not at most one above the highest. */
  lemma NextNumberMakesHoleIff(ms: seq<Message>, m: Message)
    requires !HasHole(Elems(ms)) && m.Seq() >= 1
    ensures HasHole(Elems(ms) + {m}) <==> m.Seq() > At(Scan(ms).latest, m.sender) + 1
  {
    var more, latest := Elems(ms) + {m}, At(Scan(ms).latest, m.sender);
    ScanDescribes(ms);
    if m.Seq() > latest + 1 {
      NumberedAdd(Elems(ms), m, m.sender, m.Seq());
      NumberedAdd(Elems(ms), m, m.sender, latest + 1);
    } else {
      forall s, q: nat, k: nat | Numbered(more, s, q) && 1 <= k <= q ensures Numbered(more, s, k) {
        NumberedAdd(Elems(ms), m, s, q);
        NumberedAdd(Elems(ms), m, s, k);
        if s == m.sender && q == m.Seq() && k < q {
          NoHoleBelow(ms, s, k);
        }
      }
    }
  }

  /** With one more own message, stored or not, the store must show no gap and reach up to its number. */
  lemma RestartReachesLastIff(
      self: NodeId, store: Store, mine: seq<Message>, m: Message, left: seq<Message>, how: Reopening)
    requires Rising(mine, self) && Elems(mine) <= Elems(Contents(store.disk)) && m.sender == self && m.Seq() >= 1
    ensures var ix := Scan(Contents(store.disk));
            Reached(Restarted(self, store, mine + [m], left, how)) <==>
            !Gaps(ix.seqs) && m.Seq() <= At(ix.latest, self)
  {
    var all, saved := mine + [m], Contents(store.disk);
    assert all[|mine|] == m;
    RestartedFrom(self, store, all, left, how);
    if !Gaps(Scan(saved).seqs) && m.Seq() <= At(Scan(saved).latest, self) {
      forall i | 0 <= i < |all| ensures all[i].Seq() <= At(Scan(saved).latest, self) {
        if i < |mine| {
          assert mine[i] in Elems(mine);
          StoredIsBelowLatest(saved, mine[i]);
        }
      }
    }
  }

  /** A broadcast's callback has run: what is stored now, and what the peer counts as its own. */
  lemma SentAndHandled(p: Peer, id: MsgId, ts: Time, content: Content, ttl: nat, w: set<Message>)
    requires Kept(p, w) && IdsIdentify(w) && id !in p.node.seen && InWorld(Draft(p.node, id, ts, content), w)
    ensures var m := Draft(p.node, id, ts, content); var q := Happen(p, Does(Send(id, ts, content, true, ttl)));
            && q.mine == p.mine + [m] && q.node.self == p.node.self && q.left == p.left
            && q.disc == OnMessage(p.disc, m) && Elems(Saved(q)) == Elems(Saved(p)) + Carried(m)
  {
    var m := Draft(p.node, id, ts, content);
    SendMoves(p.node, id, ts, content);
    OneCallback(p.disc, m);
    OnMessageAdds(p.disc, m, w);
  }

  lemma RestBeforeCrash(q: Peer, how: Reopening)
    ensures Happen(q, Crash(Rest, 0, how)) == Restarted(q.node.self, q.disc.store, q.mine, q.left, how)
  {
    assert Callbacks(q, Rest) == [];
    assert q.mine + [] == q.mine;
  }

  /**
    A broadcast and then a crash, for every content.  From a peer whose numbers
    are in order and whose store shows no gap, the restored clock has reached
    the number just used if and only if: for chat, the clock was not ahead of
    the stored numbers; for a text that reads as a recovery request, which is
    absorbed, it was behind them; for one that reads as a history chunk, the
    store with the chunk shows no gap and reaches past the clock.
   */
  lemma SendThenCrashReachesIff(
      p: Peer, id: MsgId, ts: Time, content: Content, ttl: nat, how: Reopening, w: set<Message>)
    requires Kept(p, w) && Reached(p) && IdsIdentify(w) && id !in p.node.seen
    requires InWorld(Draft(p.node, id, ts, content), w) && !Gaps(Scan(Saved(p)).seqs)
    ensures var top, latest := At(p.node.clock, p.node.self), At(Scan(Saved(p)).latest, p.node.self);
            var q := Happen(p, Does(Send(id, ts, content, true, ttl)));
            var reached := Reached(Happen(q, Crash(Rest, 0, how)));
            match content
            case Chat(_) => reached <==> top <= latest
            case RecoverRequest(_) => reached <==> top < latest
            case HistoryChunk(_, _) =>
              reached <==> !Gaps(Scan(Saved(q)).seqs) && top < At(Scan(Saved(q)).latest, p.node.self)
  {
    var m := Draft(p.node, id, ts, content);
    var q := Happen(p, Does(Send(id, ts, content, true, ttl)));
    SentAndHandled(p, id, ts, content, ttl, w);
    DraftNumber(p.node, id, ts, content);
    RestBeforeCrash(q, how);
    RestartReachesLastIff(p.node.self, q.disc.store, p.mine, m, p.left, how);
    if content.Chat? {
      StoredIsBelowLatest(Saved(q), m);
      GapsAreHoles(Saved(p));
      GapsAreHoles(Saved(q));
      NextNumberMakesHoleIff(Saved(p), m);
    }
  }

  /**
    Why the callback comes before the forwarding: a peer that dies after
    stamping a message and before its callback uses the same number again,
    so a copy sent earlier would have shared it.  Once the callback has run,
    the next life goes on with the next number.
   */
  lemma NumberAfterDyingInSend(
      p: Peer, id: MsgId, ts: Time, text: string, ttl: nat, done: nat, how: Reopening, w: set<Message>)
    requires Kept(p, w) && IdsIdentify(w) && id !in p.node.seen && InWorld(Draft(p.node, id, ts, Chat(text)), w)
    requires !Gaps(Scan(Saved(p)).seqs) && At(p.node.clock, p.node.self) == At(Scan(Saved(p)).latest, p.node.self)
    ensures var m := Draft(p.node, id, ts, Chat(text));
            var r := Happen(p, Crash(Send(id, ts, Chat(text), true, ttl), done, how));
            && r.left == p.left
            && At(Bump(r.node.clock, p.node.self), p.node.self) == m.Seq() + (if done == 0 then 0 else 1)
  {
    var m := Draft(p.node, id, ts, Chat(text));
    var store := if done == 0 then p.disc.store else OnMessage(p.disc, m).store;
    DraftNumber(p.node, id, ts, Chat(text));
    if done > 0 {
      StoredNextNumber(p.disc, m, w);
    }
    DyingInSend(p, id, ts, Chat(text), ttl, done, how);
    RestartedFrom(p.node.self, store, p.mine + (if done == 0 then [] else [m]), p.left, how);
  }

  lemma DyingInSend(p: Peer, id: MsgId, ts: Time, content: Content, ttl: nat, done: nat, how: Reopening)
    requires id !in p.node.seen
    ensures var m := Draft(p.node, id, ts, content);
            Happen(p, Crash(Send(id, ts, content, true, ttl), done, how)) ==
            Restarted(p.node.self, if done == 0 then p.disc.store else OnMessage(p.disc, m).store,
                      p.mine + (if done == 0 then [] else [m]), p.left, how)
  {
    var m, work := Draft(p.node, id, ts, content), Send(id, ts, content, true, ttl);
    SendMoves(p.node, id, ts, content);
    OneCallback(p.disc, m);
    assert Completed(p, work, done) == if done == 0 then [] else [m];
  }

  /** Storing the next number leaves no gap and makes it the latest. */
  lemma StoredNextNumber(d: Disc, m: Message, w: set<Message>)
    requires DiscOk(d, w) && IdsIdentify(w) && InWorld(m, w) && m.content.Chat?
    requires !Gaps(Scan(Contents(d.store.disk)).seqs)
    requires m.Seq() == At(Scan(Contents(d.store.disk)).latest, m.sender) + 1
    ensures var ix := Scan(Contents(OnMessage(d, m).store.disk)); !Gaps(ix.seqs) && At(ix.latest, m.sender) == m.Seq()
  {
    var before, after := Contents(d.store.disk), Contents(OnMessage(d, m).store.disk);
    OnMessageAdds(d, m, w);
    GapsAreHoles(before);
    GapsAreHoles(after);
    NextNumberMakesHoleIff(before, m);
    LatestAfterNext(before, after, m);
  }

  lemma LatestAfterNext(ms: seq<Message>, more: seq<Message>, m: Message)
    requires Elems(more) == Elems(ms) + {m} && m.Seq() == At(Scan(ms).latest, m.sender) + 1
    ensures At(Scan(more).latest, m.sender) == m.Seq()
  {
    ScanDescribes(ms);
    ScanDescribes(more);
    var top := At(Scan(more).latest, m.sender);
    assert m in Elems(more);
    assert Numbered(Elems(more), m.sender, m.Seq());
    NumberedAdd(Elems(ms), m, m.sender, top);
  }

  lemma EmptyClockSendsNumberOne(p: Peer, id: MsgId, ts: Time, content: Content, ttl: nat)
    requires id !in p.node.seen && p.node.clock == map[]
    ensures var m := Draft(p.node, id, ts, content); var q := Happen(p, Does(Send(id, ts, content, true, ttl)));
            m.Seq() == 1 && q.mine == p.mine + [m] && q.left == p.left &&
            q.outbox == p.outbox + (if ttl > 0 then [m] else [])
  {
    SendMoves(p.node, id, ts, content);
  }

  /** With a gap in the store, a peer that had used number 1 uses it again for the next message after a crash. */
  lemma GapRepeatsNumberOne(p: Peer, how: Reopening, id: MsgId, ts: Time, content: Content, ttl: nat)
    requires Gaps(Scan(Saved(p)).seqs) && id !in how.seeded
    requires p.mine != [] && p.mine[0].Seq() == 1
    ensures var r := Happen(Happen(p, Crash(Rest, 0, how)), Does(Send(id, ts, content, true, ttl)));
            |r.mine| == |p.mine| + 1 && r.mine[0].Seq() == r.mine[|p.mine|].Seq()
  {
    RestBeforeCrash(p, how);
    RestartedFrom(p.node.self, p.disc.store, p.mine, p.left, how);
    EmptyClockSendsNumberOne(Happen(p, Crash(Rest, 0, how)), id, ts, content, ttl);
  }

  // ---- A life that reaches the gap ----

  lemma HeldAlone(c: Clock, h: Held, now: Time)
    requires !Ready(c, h.msg) && !Expired(h, now, HOLDBACK_TIMEOUT)
    ensures Drained(c, [h], now, HOLDBACK_TIMEOUT) == Outcome(c, [], [h])
  {
    assert [h][..0] == [];
    assert Flush(c, [h], now, HOLDBACK_TIMEOUT) == Outcome(c, [], [h]);
    assert Sweep(c, [h]) == Outcome(c, [], [h]);
  }

  lemma ExpiredAlone(c: Clock, h: Held, now: Time)
    requires Expired(h, now, HOLDBACK_TIMEOUT)
    ensures Drained(c, [h], now, HOLDBACK_TIMEOUT) == Outcome(Join(c, h.msg.stamp), [h.msg], [])
  {
    assert [h][..0] == [];
    assert Flush(c, [h], now, HOLDBACK_TIMEOUT) == Outcome(Join(c, h.msg.stamp), [h.msg], []);
    assert Sweep(Join(c, h.msg.stamp), []) == Outcome(Join(c, h.msg.stamp), [], []);
  }

  /** A message that arrives too early, waits, and is released by the timeout. */
  lemma EarlyThenExpired(p: Peer, m: Message, now: Time, later: Time)
    requires p.node.held == [] && m.id !in p.node.seen && !Ready(p.node.clock, m) && later - now > HOLDBACK_TIMEOUT
    ensures var q := Happen(Happen(p, Does(Arrive(m, now))), Does(Wake(later)));
            && q.disc == OnMessage(p.disc, m) && q.mine == p.mine && q.left == p.left && q.outbox == p.outbox
            && q.node.self == p.node.self
  {
    var h := Held(now, m);
    HeldAlone(p.node.clock, h, now);
    assert p.node.held + [h] == [h];
    var mid := Happen(p, Does(Arrive(m, now)));
    assert Callbacks(p, Arrive(m, now)) == [];
    assert mid.disc == p.disc && mid.node.held == [h] && mid.node.clock == p.node.clock;
    ExpiredAlone(p.node.clock, h, later);
    assert Callbacks(mid, Wake(later)) == [m];
    OneCallback(p.disc, m);
  }

  lemma NewbornSends(self: NodeId, threshold: int, a: MsgId, ts: Time, text: string)
    ensures var o := Newborn(self, threshold); var m := Draft(o.node, a, ts, Chat(text));
            var p := Happen(Happen(o, Does(Send(a, ts, Chat(text), true, 1))), Forward(0));
            && p.mine == [m] && p.left == [m] && m.Seq() == 1 && p.disc == OnMessage(o.disc, m)
            && p.node.clock == m.stamp == map[self := 1] && p.node.held == [] && p.node.seen == {a}
            && p.node.self == self
  {
    var o := Newborn(self, threshold);
    var m := Draft(o.node, a, ts, Chat(text));
    EmptyClockSendsNumberOne(o, a, ts, Chat(text), 1);
    SendMoves(o.node, a, ts, Chat(text));
    OneCallback(o.disc, m);
    assert [] + [m] == [m];
  }

  /** Two stored chats, the second of them numbered 2 with its predecessor missing. */
  lemma StoredGap(d: Disc, a: Message, b: Message)
    requires Synced(d.store) && Contents(d.store.disk) == [] && d.pending == []
    requires a.content.Chat? && b.content.Chat? && a.id != b.id && a.sender != b.sender && b.Seq() == 2
    ensures Gaps(Scan(Contents(OnMessage(OnMessage(d, a), b).store.disk)).seqs)
  {
    var w := {a, b};
    OnMessageAdds(d, a, w);
    OnMessageAdds(OnMessage(d, a), b, w);
    var saved := Contents(OnMessage(OnMessage(d, a), b).store.disk);
    assert Elems(saved) == {a, b};
    HoleOfTwo(a, b);
    GapsAreHoles(saved);
  }

  lemma HoleOfTwo(a: Message, b: Message)
    requires a.sender != b.sender && b.Seq() == 2
    ensures HasHole({a, b})
  {
    assert b in {a, b};
    assert Numbered({a, b}, b.sender, 2) && !Numbered({a, b}, b.sender, 1);
  }

  /**
    The gap is reached: a newborn peer sends number 1, a message numbered 2
    from someone else is released by the timeout without its predecessor, and
    after a crash number 1 leaves the peer a second time, on another message.
   */
  lemma NumberOneLeavesTwice(
      self: NodeId, threshold: int, other: NodeId, ids: (MsgId, MsgId, MsgId), ts: Time, text: string, how: Reopening)
    requires other != self && ids.0 != ids.1 && ids.0 != ids.2 && ids.2 !in how.seeded
    ensures var m := Message(ids.1, other, map[other := 2], ts, Chat(text));
            var p := Happen(Happen(Newborn(self, threshold), Does(Send(ids.0, ts, Chat(text), true, 1))), Forward(0));
            var q := Happen(Happen(p, Does(Arrive(m, ts))), Does(Wake(ts + 6.0)));
            var r := Happen(q, Crash(Rest, 0, how));
            var left := Happen(Happen(r, Does(Send(ids.2, ts, Chat(text), true, 1))), Forward(0)).left;
            |left| == 2 && left[0] != left[1] && left[0].Seq() == left[1].Seq() == 1
  {
    var o := Newborn(self, threshold);
    var a, m := Draft(o.node, ids.0, ts, Chat(text)), Message(ids.1, other, map[other := 2], ts, Chat(text));
    NewbornSends(self, threshold, ids.0, ts, text);
    var p := Happen(Happen(o, Does(Send(ids.0, ts, Chat(text), true, 1))), Forward(0));
    assert At(p.node.clock, other) == 0 && m.Seq() == 2;
    EarlyThenExpired(p, m, ts, ts + 6.0);
    ScanDescribes([]);
    StoredGap(o.disc, a, m);
    var q := Happen(Happen(p, Does(Arrive(m, ts))), Does(Wake(ts + 6.0)));
    AfterTheGap(q, how, ids.2, ts, text);
  }

  lemma AfterTheGap(q: Peer, how: Reopening, id: MsgId, ts: Time, text: string)
    requires Gaps(Scan(Saved(q)).seqs) && id !in how.seeded
    ensures var r := Happen(q, Crash(Rest, 0, how));
            var left := Happen(Happen(r, Does(Send(id, ts, Chat(text), true, 1))), Forward(0)).left;
            |left| == |q.left| + 1 && left[..|q.left|] == q.left && left[|q.left|].Seq() == 1 && left[|q.left|].id == id
  {
    RestBeforeCrash(q, how);
    RestartedFrom(q.node.self, q.disc.store, q.mine, q.left, how);
    SendAndForward(Happen(q, Crash(Rest, 0, how)), id, ts, text);
  }

  lemma SendAndForward(r: Peer, id: MsgId, ts: Time, text: string)
    requires r.outbox == [] && id !in r.node.seen && r.node.clock == map[]
    ensures var m := Draft(r.node, id, ts, Chat(text));
            && m.Seq() == 1
            && Happen(Happen(r, Does(Send(id, ts, Chat(text), true, 1))), Forward(0)).left == r.left + [m]
  {
    EmptyClockSendsNumberOne(r, id, ts, Chat(text), 1);
  }
}
