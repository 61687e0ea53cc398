/**
  The headless peer: a broadcast node whose deliveries are persisted, whose
  clock is restored from the store after a crash, and whose recovery frames
  schedule clock syncs.

  One call of the node is a unit of work: it moves the clock and the queue,
  then runs the delivery callback on each delivered message.  A broadcast is
  handed to the transport only after its callback has run.  A crash can come
  after any number of callbacks.
 */
module HeadlessPeers {
  import opened Clocks
  import opened HoldBack
  import opened BroadcastNodes
  import opened Listing
  import opened Sequences
  import opened StoreModel
  import opened LocalMessageStores
  import opened Recovery

  /** The store, and the clock syncs scheduled but not yet run. */
  datatype Disc = Disc(store: Store, pending: seq<Clock>)

  /** The storage wiring: chat is saved, a history chunk is ingested, its last one schedules a sync. */
  function Handle(d: Disc, m: Message): Disc {
    match m.content
    case Chat(_) => d.(store := Save(d.store, m))
    case RecoverRequest(_) => d
    case HistoryChunk(items, isLast) => Ingest(d, items, isLast)
  }

  function Ingest(d: Disc, items: seq<Item>, isLast: bool): Disc {
    var s := SaveMany(d.store, items);
    if isLast then Disc(Cursor(s).1, d.pending + [Cursor(s).0]) else Disc(s, d.pending)
  }

  /** The delivery callback: the wiring, and after any chunk the cursor is read to account for it. */
  function OnMessage(d: Disc, m: Message): Disc {
    var r := Handle(d, m);
    if m.content.HistoryChunk? then r.(store := Cursor(r.store).1) else r
  }

  function OnMessages(d: Disc, ms: seq<Message>): Disc {
    if ms == [] then d else OnMessage(OnMessages(d, ms[..|ms| - 1]), ms[|ms| - 1])
  }

  /**
    A peer over all its lives.  Of its own messages, `mine` are those whose
    callback has run, oldest first, `outbox` those of this life handed over for
    sending, and `left` those of which a copy has reached the wire.
   */
  datatype Peer = Peer(node: NodeState, disc: Disc, mine: seq<Message>, outbox: seq<Message>, left: seq<Message>)

  datatype Work =
    | Rest
    | Arrive(msg: Message, now: Time)
    | Send(id: MsgId, timestamp: Time, content: Content, signed: bool, ttl: nat)
    | SyncNext(now: Time)
    | Wake(now: Time)

  /** What the index and flag files hold when the store is opened again, and the ids marked as seen. */
  datatype Reopening = Reopening(index: Index, force: bool, needs: bool, seeded: set<MsgId>)

  datatype Event =
    | Does(work: Work)
    | Forward(i: nat)
    | Crash(during: Work, done: nat, how: Reopening)

  function Saved(p: Peer): seq<Message> { Contents(p.disc.store.disk) }

  /** The node once its own part of the work is done, before any callback. */
  function Moved(p: Peer, work: Work): NodeState {
    match work
    case Rest => p.node
    case Arrive(m, now) => Receive(p.node, m, now)
    case Send(id, ts, content, signed, _) => Originate(p.node, id, ts, content, signed)
    case SyncNext(now) => if p.disc.pending == [] then p.node else Sync(p.node, p.disc.pending[0], now)
    case Wake(now) => Tick(p.node, now)
  }

  function Callbacks(p: Peer, work: Work): seq<Message> { NewDeliveries(p.node, Moved(p, work)) }

  /** A sync that runs is no longer scheduled. */
  function Begun(p: Peer, work: Work): Disc {
    if work.SyncNext? && p.disc.pending != [] then p.disc.(pending := p.disc.pending[1..]) else p.disc
  }

  function Own(work: Work, ms: seq<Message>): seq<Message> { if work.Send? then ms else [] }

  /** The whole work: every callback, then a broadcast is handed over for sending. */
  function Finished(p: Peer, work: Work): Peer {
    var ms := Callbacks(p, work);
    var own := Own(work, ms);
    Peer(Moved(p, work), OnMessages(Begun(p, work), ms), p.mine + own,
         p.outbox + (if work.Send? && work.ttl > 0 then own else []), p.left)
  }

  /** The first `done` callbacks. */
  function Completed(p: Peer, work: Work, done: nat): seq<Message> {
    var ms := Callbacks(p, work);
    if done < |ms| then ms[..done] else ms
  }

  /** Restart on the files as they are: reopen, restore the clock from the cursor, forget everything in memory. */
  function Restarted(self: NodeId, store: Store, mine: seq<Message>, left: seq<Message>, how: Reopening): Peer {
    var (cursor, reopened) := Cursor(Reopen(store, how.index, how.force, how.needs));
    var node := Fresh(self).(clock := Join(map[], cursor), seen := how.seeded, merged := [cursor]);
    Peer(node, Disc(reopened, []), mine, [], left)
  }

  function Crashed(p: Peer, work: Work, done: nat, how: Reopening): Peer {
    var ms := Completed(p, work, done);
    Restarted(p.node.self, OnMessages(Begun(p, work), ms).store, p.mine + Own(work, ms), p.left, how)
  }

  function Happen(p: Peer, e: Event): Peer {
    match e
    case Does(work) => Finished(p, work)
    case Forward(i) => if i < |p.outbox| then p.(left := p.left + [p.outbox[i]]) else p
    case Crash(during, done, how) => Crashed(p, during, done, how)
  }

  function Live(p: Peer, events: seq<Event>): Peer {
    if events == [] then p else Happen(Live(p, events[..|events| - 1]), events[|events| - 1])
  }

  /** A peer with an empty store. */
  function Newborn(self: NodeId, threshold: int): Peer {
    Peer(Fresh(self), Disc(Store(Disk([], []), EmptyIndex, false, false, threshold), []), [], [], [])
  }

  // ---- What the callback does to the store ----

  /** The message, and any messages a chunk carries, belong to the world. */
  ghost predicate InWorld(m: Message, w: set<Message>) {
    m in w && (m.content.HistoryChunk? ==> ItemMessages(m.content.items) <= w)
  }

  lemma SaveElems(st: Store, m: Message, w: set<Message>)
    requires Synced(st) && IdsIdentify(w) && Elems(Contents(st.disk)) <= w && m in w
    ensures Synced(Save(st, m)) && Elems(Contents(Save(st, m).disk)) == Elems(Contents(st.disk)) + {m}
  {
    var saved := Contents(st.disk);
    DedupeUnique(Readable(st.disk));
    SaveRefines(st, saved, m);
    PutElems(saved, m, w);
  }

  lemma SaveManyElems(st: Store, items: seq<Item>, w: set<Message>)
    requires Synced(st) && IdsIdentify(w) && Elems(Contents(st.disk)) <= w && ItemMessages(items) <= w
    ensures var r := SaveMany(st, items);
            Synced(r) && Elems(Contents(r.disk)) == Elems(Contents(st.disk)) + ItemMessages(items)
  {
    var saved := Contents(st.disk);
    DedupeUnique(Readable(st.disk));
    SaveManyRefines(st, saved, items);
    PutEachElems(saved, items, w);
  }

  function Carried(m: Message): set<Message> {
    match m.content
    case Chat(_) => {m}
    case RecoverRequest(_) => {}
    case HistoryChunk(items, _) => ItemMessages(items)
  }

  ghost predicate PendingOk(d: Disc) {
    forall i | 0 <= i < |d.pending| :: GapFree(d.pending[i], Contents(d.store.disk))
  }

  ghost predicate DiscOk(d: Disc, w: set<Message>) {
    Synced(d.store) && Elems(Contents(d.store.disk)) <= w && PendingOk(d)
  }

  lemma GapFreeGrows(c: Clock, a: seq<Message>, b: seq<Message>)
    requires GapFree(c, a) && Elems(a) <= Elems(b)
    ensures GapFree(c, b)
  {
    forall s, k: nat | 1 <= k <= At(c, s) ensures Numbered(Elems(b), s, k) {
      assert Numbered(Elems(a), s, k);
      var m :| m in Elems(a) && m.sender == s && m.Seq() == k;
      assert m in Elems(b);
    }
  }

  lemma PendingGrows(d: Disc, store: Store)
    requires PendingOk(d) && Elems(Contents(d.store.disk)) <= Elems(Contents(store.disk))
    ensures PendingOk(Disc(store, d.pending))
  {
    forall i | 0 <= i < |d.pending| ensures GapFree(d.pending[i], Contents(store.disk)) {
      GapFreeGrows(d.pending[i], Contents(d.store.disk), Contents(store.disk));
    }
  }

  /** Handing out the cursor leaves the files alone and the store synced. */
  lemma CursorKeeps(st: Store)
    ensures Cursor(st).1.disk == st.disk && Synced(Cursor(st).1)
    ensures GapFree(Cursor(st).0, Contents(st.disk))
  {
    RepairSyncs(st);
    CursorIsGapFree(st);
  }

  lemma SyncIsScheduled(d: Disc, w: set<Message>)
    requires DiscOk(d, w)
    ensures DiscOk(Disc(Cursor(d.store).1, d.pending + [Cursor(d.store).0]), w)
  {
    CursorKeeps(d.store);
  }

  lemma StoreGrows(d: Disc, store: Store, more: set<Message>, w: set<Message>)
    requires DiscOk(d, w) && Synced(store) && more <= w
    requires Elems(Contents(store.disk)) == Elems(Contents(d.store.disk)) + more
    ensures DiscOk(Disc(store, d.pending), w)
  {
    PendingGrows(d, store);
  }

  lemma ChunkAdds(d: Disc, items: seq<Item>, isLast: bool, w: set<Message>)
    requires DiscOk(d, w) && IdsIdentify(w) && ItemMessages(items) <= w
    ensures DiscOk(Ingest(d, items, isLast), w)
    ensures Elems(Contents(Ingest(d, items, isLast).store.disk)) == Elems(Contents(d.store.disk)) + ItemMessages(items)
  {
    var s := SaveMany(d.store, items);
    SaveManyElems(d.store, items, w);
    StoreGrows(d, s, ItemMessages(items), w);
    SyncIsScheduled(Disc(s, d.pending), w);
    CursorKeeps(s);
  }

  lemma HandleAdds(d: Disc, m: Message, w: set<Message>)
    requires DiscOk(d, w) && IdsIdentify(w) && InWorld(m, w)
    ensures DiscOk(Handle(d, m), w)
    ensures Elems(Contents(Handle(d, m).store.disk)) == Elems(Contents(d.store.disk)) + Carried(m)
  {
    match m.content
    case Chat(_) =>
      SaveElems(d.store, m, w);
      StoreGrows(d, Save(d.store, m), {m}, w);
    case RecoverRequest(_) =>
    case HistoryChunk(items, isLast) =>
      ChunkAdds(d, items, isLast, w);
  }

  /** The callback adds exactly what the message carries, and every scheduled sync stays covered. */
  lemma OnMessageAdds(d: Disc, m: Message, w: set<Message>)
    requires DiscOk(d, w) && IdsIdentify(w) && InWorld(m, w)
    ensures DiscOk(OnMessage(d, m), w)
    ensures Elems(Contents(OnMessage(d, m).store.disk)) == Elems(Contents(d.store.disk)) + Carried(m)
  {
    HandleAdds(d, m, w);
    CursorKeeps(Handle(d, m).store);
  }

  function AllCarried(ms: seq<Message>): set<Message> {
    if ms == [] then {} else AllCarried(ms[..|ms| - 1]) + Carried(ms[|ms| - 1])
  }

  lemma {:induction false} OnMessagesAdd(d: Disc, ms: seq<Message>, w: set<Message>)
    requires DiscOk(d, w) && IdsIdentify(w) && forall i | 0 <= i < |ms| :: InWorld(ms[i], w)
    ensures DiscOk(OnMessages(d, ms), w)
    ensures Elems(Contents(OnMessages(d, ms).store.disk)) == Elems(Contents(d.store.disk)) + AllCarried(ms)
  {
    if ms != [] {
      OnMessagesAdd(d, ms[..|ms| - 1], w);
      OnMessageAdds(OnMessages(d, ms[..|ms| - 1]), ms[|ms| - 1], w);
    }
  }

  lemma {:induction false} ChatIsCarried(ms: seq<Message>, i: nat)
    requires i < |ms| && ms[i].content.Chat?
    ensures ms[i] in AllCarried(ms)
  {
    if i < |ms| - 1 {
      ChatIsCarried(ms[..|ms| - 1], i);
    }
  }

  // ---- What a unit of work moves ----

  /** Whatever expired: deliveries and the queue come from `pool`, and the clock has not gone back. */
  ghost predicate Moves(st: NodeState, pool: set<Message>, after: NodeState, ms: seq<Message>) {
    && after.self == st.self && after.log == st.log + ms && Leq(st.clock, after.clock)
    && Elems(ms) <= pool && HeldSet(after) <= pool
  }

  lemma DrainMoves(st: NodeState, c: Clock, q: seq<Held>, now: Time) returns (ms: seq<Message>)
    requires Leq(st.clock, c)
    ensures Moves(st, Elems(Msgs(q)), AfterDrain(st, Drained(c, q, now, HOLDBACK_TIMEOUT)), ms)
  {
    var d := Drained(c, q, now, HOLDBACK_TIMEOUT);
    DrainConserves(c, q, now, HOLDBACK_TIMEOUT);
    OutcomeFromQueue(q, d);
    DeliveriesGrow(c, d.released);
    ms := d.released;
  }

  lemma ReadyReceiveMoves(st: NodeState, m: Message, now: Time) returns (ms: seq<Message>)
    requires m.id !in st.seen && Ready(st.clock, m)
    ensures Moves(st, HeldSet(st) + {m}, Receive(st, m, now), ms)
  {
    var c := Join(st.clock, m.stamp);
    JoinGrows(st.clock, m.stamp);
    var rest := DrainMoves(Marked(st, m).(log := st.log + [m]), c, st.held, now);
    ms := [m] + rest;
    assert st.log + [m] + rest == st.log + ms;
    forall x | x in Elems(ms) ensures x in HeldSet(st) + {m} {
      var i :| 0 <= i < |ms| && ms[i] == x;
      assert i > 0 ==> rest[i - 1] == x;
    }
  }

  lemma ReceiveMoves(st: NodeState, m: Message, now: Time) returns (ms: seq<Message>)
    ensures Moves(st, HeldSet(st) + {m}, Receive(st, m, now), ms)
  {
    ms := [];
    if m.id !in st.seen {
      if Ready(st.clock, m) {
        ms := ReadyReceiveMoves(st, m, now);
      } else {
        var q := st.held + [Held(now, m)];
        ms := DrainMoves(Marked(st, m), st.clock, q, now);
        MsgsSnoc(st.held, Held(now, m));
        assert Elems(Msgs(q)) == HeldSet(st) + {m};
      }
    }
  }

  lemma TickMoves(st: NodeState, now: Time) returns (ms: seq<Message>)
    ensures Moves(st, HeldSet(st), Tick(st, now), ms)
  {
    ms := [];
    if st.held != [] {
      ms := DrainMoves(st, st.clock, st.held, now);
    }
  }

  ghost predicate WorldPool(pool: set<Message>, w: set<Message>) {
    forall m | m in pool :: InWorld(m, w)
  }

  lemma SyncMoves(p: Peer, now: Time) returns (ms: seq<Message>)
    ensures Moves(p.node, HeldSet(p.node), Moved(p, SyncNext(now)), ms)
  {
    ms := [];
    if p.disc.pending != [] {
      var vc := p.disc.pending[0];
      JoinGrows(p.node.clock, vc);
      ms := DrainMoves(p.node.(merged := p.node.merged + [vc]), Join(p.node.clock, vc), p.node.held, now);
    }
  }

  lemma SendMoves(st: NodeState, id: MsgId, ts: Time, content: Content)
    requires id !in st.seen
    ensures var m := Draft(st, id, ts, content); var after := Originate(st, id, ts, content, true);
            && Moves(st, HeldSet(st) + {m}, after, [m]) && NewDeliveries(st, after) == [m]
            && m.Seq() == At(st.clock, st.self) + 1 == At(after.clock, st.self)
  {
  }

  /** What a unit of work delivers comes from the queue, the arrival or the draft. */
  function Pool(p: Peer, work: Work): set<Message> {
    match work
    case Arrive(m, _) => HeldSet(p.node) + {m}
    case Send(id, ts, content, _, _) => HeldSet(p.node) + {Draft(p.node, id, ts, content)}
    case _ => HeldSet(p.node)
  }

  lemma WorkMoves(p: Peer, work: Work)
    ensures Moves(p.node, Pool(p, work), Moved(p, work), Callbacks(p, work))
  {
    var ms := [];
    match work
    case Rest =>
    case Arrive(m, now) => ms := ReceiveMoves(p.node, m, now);
    case Send(id, ts, content, signed, _) =>
      if id !in p.node.seen && signed {
        SendMoves(p.node, id, ts, content);
        ms := [Draft(p.node, id, ts, content)];
      }
    case SyncNext(now) => ms := SyncMoves(p, now);
    case Wake(now) => ms := TickMoves(p.node, now);
    assert Moves(p.node, Pool(p, work), Moved(p, work), ms);
    assert Callbacks(p, work) == ms;
  }

  /** Every message a unit of work brings in belongs to the world. */
  ghost predicate WorldWork(p: Peer, work: Work, w: set<Message>) {
    match work
    case Arrive(m, _) => InWorld(m, w)
    case Send(id, ts, content, _, _) => InWorld(Draft(p.node, id, ts, content), w)
    case _ => true
  }

  lemma PoolInWorld(p: Peer, work: Work, w: set<Message>)
    requires WorldPool(HeldSet(p.node), w) && WorldWork(p, work, w)
    ensures WorldPool(Pool(p, work), w)
  {
  }

  lemma BegunIsOk(p: Peer, work: Work, w: set<Message>)
    requires DiscOk(p.disc, w)
    ensures DiscOk(Begun(p, work), w) && Begun(p, work).store == p.disc.store
  {
  }

  lemma SomeCallbacks(p: Peer, work: Work, ms: seq<Message>, n: nat, w: set<Message>)
    requires DiscOk(p.disc, w) && IdsIdentify(w) && n <= |ms|
    requires forall m | m in Elems(ms) :: InWorld(m, w)
    ensures var d := OnMessages(Begun(p, work), ms[..n]);
            DiscOk(d, w) && Elems(Contents(d.store.disk)) == Elems(Saved(p)) + AllCarried(ms[..n])
  {
    BegunIsOk(p, work, w);
    forall i | 0 <= i < n ensures InWorld(ms[..n][i], w) {
      assert ms[i] in Elems(ms);
    }
    OnMessagesAdd(Begun(p, work), ms[..n], w);
  }

  /** After the first `n` callbacks the store holds what they carried. */
  lemma CallbacksAreStored(p: Peer, work: Work, n: nat, w: set<Message>)
    requires DiscOk(p.disc, w) && IdsIdentify(w) && WorldPool(HeldSet(p.node), w) && WorldWork(p, work, w)
    requires n <= |Callbacks(p, work)|
    ensures var d := OnMessages(Begun(p, work), Callbacks(p, work)[..n]);
            DiscOk(d, w) && Elems(Contents(d.store.disk)) == Elems(Saved(p)) + AllCarried(Callbacks(p, work)[..n])
  {
    WorkMoves(p, work);
    PoolInWorld(p, work, w);
    SomeCallbacks(p, work, Callbacks(p, work), n, w);
  }

  lemma JoinEmpty(c: Clock)
    ensures Join(map[], c) == c
  {
  }

  /** What a restart leaves, whatever the files hold. */
  lemma RestartedFrom(self: NodeId, store: Store, mine: seq<Message>, left: seq<Message>, how: Reopening)
    ensures var r := Restarted(self, store, mine, left, how); var saved := Contents(store.disk);
            && r.node.self == self && r.node.held == [] && r.node.seen == how.seeded && r.node.log == []
            && r.mine == mine && r.outbox == [] && r.left == left && r.disc.pending == []
            && Saved(r) == saved && Synced(r.disc.store) && GapFree(r.node.clock, saved)
            && r.node.clock == if Gaps(Scan(saved).seqs) then map[] else Scan(saved).latest
  {
    var st := Reopen(store, how.index, how.force, how.needs);
    assert st.disk == store.disk;
    CursorKeeps(st);
    JoinEmpty(Cursor(st).0);
  }

  lemma CompletedIsPrefix(p: Peer, work: Work, done: nat) returns (n: nat)
    ensures n <= |Callbacks(p, work)| && Completed(p, work, done) == Callbacks(p, work)[..n]
  {
    n := if done < |Callbacks(p, work)| then done else |Callbacks(p, work)|;
  }

  // ---- Whether the clock runs ahead of the store ----

  /** A broadcast the callback does not store. */
  predicate Absorbed(m: Message) { m.Stamped() && !m.content.Chat? }

  ghost predicate AbsorbedIn(log: seq<Message>, s: NodeId, k: nat) {
    exists i | 0 <= i < |log| :: Absorbed(log[i]) && log[i].sender == s && log[i].Seq() == k
  }

  /** Every number the clock counts is stored or was absorbed. */
  ghost predicate Explains(c: Clock, disk: seq<Message>, log: seq<Message>) {
    forall s, k: nat | 1 <= k <= At(c, s) :: Numbered(Elems(disk), s, k) || AbsorbedIn(log, s, k)
  }

  /** The clock counts every stamped delivery. */
  ghost predicate Counts(c: Clock, log: seq<Message>) {
    forall i | 0 <= i < |log| && log[i].Stamped() :: 1 <= log[i].Seq() <= At(c, log[i].sender)
  }

  ghost predicate Accounted(p: Peer, w: set<Message>) {
    && DiscOk(p.disc, w) && WorldPool(HeldSet(p.node), w)
    && Explains(p.node.clock, Saved(p), p.node.log) && Counts(p.node.clock, p.node.log)
  }

  /** No timeout release. */
  ghost predicate Calm(p: Peer, work: Work) {
    match work
    case Arrive(_, now) => NoneExpired(p.node.held, now, HOLDBACK_TIMEOUT)
    case SyncNext(now) => p.disc.pending == [] || NoneExpired(p.node.held, now, HOLDBACK_TIMEOUT)
    case Wake(now) => NoneExpired(p.node.held, now, HOLDBACK_TIMEOUT)
    case _ => true
  }

  ghost predicate CalmEvent(p: Peer, e: Event, w: set<Message>) {
    match e
    case Does(work) => Calm(p, work) && WorldWork(p, work, w)
    case Forward(_) => true
    case Crash(during, _, _) => WorldWork(p, during, w)
  }

  /** A life without timeout releases before each crash, its messages from the world. */
  ghost predicate CalmLife(p: Peer, events: seq<Event>, w: set<Message>) {
    events == [] ||
    (CalmLife(p, events[..|events| - 1], w) && CalmEvent(Live(p, events[..|events| - 1]), events[|events| - 1], w))
  }

  lemma ExplainsMore(
      c: Clock, disk: seq<Message>, log: seq<Message>, s: NodeId, k: nat, more: seq<Message>, ms: seq<Message>)
    requires Explains(c, disk, log) && 1 <= k <= At(c, s) && Elems(disk) <= Elems(more)
    ensures Numbered(Elems(more), s, k) || AbsorbedIn(log + ms, s, k)
  {
    if Numbered(Elems(disk), s, k) {
      var m :| m in Elems(disk) && m.sender == s && m.Seq() == k;
      assert m in Elems(more);
    } else {
      var i :| 0 <= i < |log| && Absorbed(log[i]) && log[i].sender == s && log[i].Seq() == k;
      assert (log + ms)[i] == log[i];
    }
  }

  /** Legal deliveries are stored or absorbed, one by one. */
  lemma DeliveriesExplain(c: Clock, disk: seq<Message>, log: seq<Message>, ms: seq<Message>, more: seq<Message>)
    requires Explains(c, disk, log) && Legal(c, ms) && Elems(more) == Elems(disk) + AllCarried(ms)
    ensures Explains(After(c, ms), more, log + ms)
  {
    forall s, k: nat | 1 <= k <= At(After(c, ms), s) ensures Numbered(Elems(more), s, k) || AbsorbedIn(log + ms, s, k) {
      if k <= At(c, s) {
        ExplainsMore(c, disk, log, s, k, more, ms);
      } else {
        var i := LegalHitsEveryNumber(c, ms, s, k);
        if ms[i].content.Chat? {
          ChatIsCarried(ms, i);
          assert ms[i] in Elems(more);
        } else {
          assert (log + ms)[|log| + i] == ms[i];
        }
      }
    }
  }

  lemma DeliveriesAreCounted(before: Clock, c: Clock, log: seq<Message>, ms: seq<Message>)
    requires Counts(before, log) && Leq(before, c) && Legal(c, ms)
    ensures Counts(After(c, ms), log + ms)
  {
    var all, d := log + ms, After(c, ms);
    DeliveriesGrow(c, ms);
    forall i | 0 <= i < |all| && all[i].Stamped() ensures 1 <= all[i].Seq() <= At(d, all[i].sender) {
      if i < |log| {
        assert At(before, all[i].sender) <= At(c, all[i].sender) <= At(d, all[i].sender);
      } else {
        LegalSeqBounds(c, ms, i - |log|, |ms|);
        assert ms[..|ms|] == ms;
      }
    }
  }

  lemma JoinExplains(c: Clock, d: Clock, disk: seq<Message>, log: seq<Message>)
    requires Explains(c, disk, log) && GapFree(d, disk)
    ensures Explains(Join(c, d), disk, log)
  {
    forall s, k: nat | 1 <= k <= At(Join(c, d), s) ensures Numbered(Elems(disk), s, k) || AbsorbedIn(log, s, k) {
      AtJoin(c, d, s);
      assert k <= At(c, s) || k <= At(d, s);
    }
  }

  /** The clock a unit of work delivers from: a sync has merged its cursor. */
  function Base(p: Peer, work: Work): Clock {
    if work.SyncNext? && p.disc.pending != [] then Join(p.node.clock, p.disc.pending[0]) else p.node.clock
  }

  lemma CalmWorkIsLegal(p: Peer, work: Work)
    requires Calm(p, work)
    ensures Legal(Base(p, work), Callbacks(p, work))
    ensures Moved(p, work).clock == After(Base(p, work), Callbacks(p, work))
    ensures Moved(p, work).log == p.node.log + Callbacks(p, work)
  {
    var st := p.node;
    var ms := [];
    match work
    case Rest =>
    case Arrive(m, now) => ms := QuietReceive(st, m, now);
    case Send(id, ts, content, signed, _) => ms := QuietOriginate(st, id, ts, content, signed);
    case SyncNext(now) =>
      if p.disc.pending != [] {
        ms := QuietSync(st, p.disc.pending[0], now);
      }
    case Wake(now) => ms := QuietTick(st, now);
    assert Callbacks(p, work) == ms;
  }

  lemma BaseExplains(p: Peer, work: Work, w: set<Message>)
    requires Accounted(p, w)
    ensures Explains(Base(p, work), Saved(p), p.node.log) && Leq(p.node.clock, Base(p, work))
  {
    if work.SyncNext? && p.disc.pending != [] {
      JoinExplains(p.node.clock, p.disc.pending[0], Saved(p), p.node.log);
      JoinGrows(p.node.clock, p.disc.pending[0]);
    }
  }

  lemma FinishedIsAccounted(p: Peer, work: Work, w: set<Message>)
    requires Accounted(p, w) && Calm(p, work) && WorldWork(p, work, w) && IdsIdentify(w)
    ensures Accounted(Finished(p, work), w)
  {
    var ms, c := Callbacks(p, work), Base(p, work);
    CalmWorkIsLegal(p, work);
    BaseExplains(p, work, w);
    CallbacksAreStored(p, work, |ms|, w);
    assert ms[..|ms|] == ms;
    DeliveriesExplain(c, Saved(p), p.node.log, ms, Saved(Finished(p, work)));
    DeliveriesAreCounted(p.node.clock, c, p.node.log, ms);
    WorkMoves(p, work);
    PoolInWorld(p, work, w);
  }

  lemma RestartIsAccounted(
      self: NodeId, store: Store, mine: seq<Message>, left: seq<Message>, how: Reopening, w: set<Message>)
    requires Elems(Contents(store.disk)) <= w
    ensures Accounted(Restarted(self, store, mine, left, how), w)
  {
    RestartedFrom(self, store, mine, left, how);
  }

  lemma CrashedIsAccounted(p: Peer, work: Work, done: nat, how: Reopening, w: set<Message>)
    requires DiscOk(p.disc, w) && WorldPool(HeldSet(p.node), w) && WorldWork(p, work, w) && IdsIdentify(w)
    ensures Accounted(Crashed(p, work, done, how), w)
  {
    var n := CompletedIsPrefix(p, work, done);
    var ms := Callbacks(p, work)[..n];
    CallbacksAreStored(p, work, n, w);
    RestartIsAccounted(p.node.self, OnMessages(Begun(p, work), ms).store, p.mine + Own(work, ms), p.left, how, w);
  }

  lemma CalmKeepsAccounted(p: Peer, e: Event, w: set<Message>)
    requires Accounted(p, w) && CalmEvent(p, e, w) && IdsIdentify(w)
    ensures Accounted(Happen(p, e), w)
  {
    match e
    case Does(work) => FinishedIsAccounted(p, work, w);
    case Forward(_) =>
    case Crash(during, done, how) => CrashedIsAccounted(p, during, done, how, w);
  }

  lemma NewbornIsAccounted(self: NodeId, threshold: int, w: set<Message>)
    ensures Accounted(Newborn(self, threshold), w)
  {
    ScanDescribes([]);
  }

  lemma {:induction false} CalmLifeIsAccounted(self: NodeId, threshold: int, events: seq<Event>, w: set<Message>)
    requires IdsIdentify(w) && CalmLife(Newborn(self, threshold), events, w)
    ensures Accounted(Live(Newborn(self, threshold), events), w)
  {
    if events == [] {
      NewbornIsAccounted(self, threshold, w);
    } else {
      CalmLifeIsAccounted(self, threshold, events[..|events| - 1], w);
      CalmKeepsAccounted(Live(Newborn(self, threshold), events[..|events| - 1]), events[|events| - 1], w);
    }
  }

  /** Every broadcast absorbed since the last start has its number in the store all the same. */
  ghost predicate AbsorbedAreStored(p: Peer) {
    forall i | 0 <= i < |p.node.log| && Absorbed(p.node.log[i]) ::
      Numbered(Elems(Saved(p)), p.node.log[i].sender, p.node.log[i].Seq())
  }

  lemma AccountedIsCoveredIff(p: Peer, w: set<Message>)
    requires Accounted(p, w)
    ensures GapFree(p.node.clock, Saved(p)) <==> AbsorbedAreStored(p)
  {
    var log, c := p.node.log, p.node.clock;
    if GapFree(c, Saved(p)) {
      forall i | 0 <= i < |log| && Absorbed(log[i]) ensures Numbered(Elems(Saved(p)), log[i].sender, log[i].Seq()) {
        assert 1 <= log[i].Seq() <= At(c, log[i].sender);
      }
    }
    if AbsorbedAreStored(p) {
      forall s, k: nat | 1 <= k <= At(c, s) ensures Numbered(Elems(Saved(p)), s, k) {
        if AbsorbedIn(log, s, k) {
          var i :| 0 <= i < |log| && Absorbed(log[i]) && log[i].sender == s && log[i].Seq() == k;
        }
      }
    }
  }

  /**
    Over every run without timeout releases, with any contents, recovery,
    clock syncs and crashes after any number of callbacks: each (s, k) with
    1 <= k <= clock[s] is a stored message if and only if every stamped message
    delivered since the last start that is not chat has its number stored.
   */
  lemma ClockIsCoveredIff(self: NodeId, threshold: int, events: seq<Event>, w: set<Message>)
    requires IdsIdentify(w) && CalmLife(Newborn(self, threshold), events, w)
    ensures var p := Live(Newborn(self, threshold), events);
            GapFree(p.node.clock, Saved(p)) <==> AbsorbedAreStored(p)
  {
    CalmLifeIsAccounted(self, threshold, events, w);
    AccountedIsCoveredIff(Live(Newborn(self, threshold), events), w);
  }

  /** A broadcast text that reads as a recovery request is counted by the clock and stored nowhere. */
  lemma AbsorbedBroadcastRunsAhead(self: NodeId, threshold: int, id: MsgId, ts: Time, cursor: Clock, ttl: nat)
    ensures var p := Happen(Newborn(self, threshold), Does(Send(id, ts, RecoverRequest(cursor), true, ttl)));
            Saved(p) == [] && At(p.node.clock, self) == 1 && !GapFree(p.node.clock, Saved(p))
  {
    var o := Newborn(self, threshold);
    AbsorbedLeavesNoTrace(o, id, ts, cursor, ttl);
    assert !Numbered(Elems([]), self, 1);
  }

  /** An absorbed broadcast moves the clock by one and leaves the storage alone. */
  lemma AbsorbedLeavesNoTrace(p: Peer, id: MsgId, ts: Time, cursor: Clock, ttl: nat)
    requires id !in p.node.seen
    ensures var q := Happen(p, Does(Send(id, ts, RecoverRequest(cursor), true, ttl)));
            q.disc == p.disc && q.node.clock == Bump(p.node.clock, p.node.self)
  {
    var m := Draft(p.node, id, ts, RecoverRequest(cursor));
    SendMoves(p.node, id, ts, RecoverRequest(cursor));
    OneCallback(p.disc, m);
  }

  lemma OneCallback(d: Disc, m: Message)
    ensures OnMessages(d, [m]) == OnMessage(d, m) && OnMessages(d, []) == d
  {
    assert [m][..0] == [];
  }

  /** Broadcasts are chat; recovery frames come directly. */
  predicate Plain(work: Work) {
    match work
    case Arrive(m, _) => !Absorbed(m)
    case Send(_, _, content, _, _) => content.Chat?
    case _ => true
  }

  ghost predicate PlainLife(events: seq<Event>) {
    forall i | 0 <= i < |events| && events[i].Does? :: Plain(events[i].work)
  }

  ghost predicate AbsorbsNothing(st: NodeState) {
    && (forall i | 0 <= i < |st.log| :: !Absorbed(st.log[i]))
    && (forall m | m in HeldSet(st) :: !Absorbed(m))
  }

  lemma PlainWorkAbsorbsNothing(p: Peer, work: Work)
    requires AbsorbsNothing(p.node) && Plain(work)
    ensures AbsorbsNothing(Moved(p, work))
  {
    var ms := Callbacks(p, work);
    WorkMoves(p, work);
    forall i | 0 <= i < |ms| ensures !Absorbed(ms[i]) {
      assert ms[i] in Elems(ms);
    }
  }

  lemma {:induction false} PlainLifeAbsorbsNothing(self: NodeId, threshold: int, events: seq<Event>)
    requires PlainLife(events)
    ensures AbsorbsNothing(Live(Newborn(self, threshold), events).node)
  {
    if events != [] {
      var front, last := events[..|events| - 1], events[|events| - 1];
      PlainLifeAbsorbsNothing(self, threshold, front);
      var p := Live(Newborn(self, threshold), front);
      match last
      case Does(work) => PlainWorkAbsorbsNothing(p, work);
      case Forward(_) =>
      case Crash(during, done, how) =>
        var ms := Completed(p, during, done);
        RestartedFrom(p.node.self, OnMessages(Begun(p, during), ms).store, p.mine + Own(during, ms), p.left, how);
    }
  }

  /**
    So where all broadcasts are chat, the node clock never runs ahead of the
    store: over every such run without timeout releases, through deliveries,
    chunk ingestion, clock syncs and crashes after any number of callbacks.
   */
  lemma ClockNeverAheadOfStore(self: NodeId, threshold: int, events: seq<Event>, w: set<Message>)
    requires IdsIdentify(w) && CalmLife(Newborn(self, threshold), events, w) && PlainLife(events)
    ensures var p := Live(Newborn(self, threshold), events);
            Accounted(p, w) && AbsorbsNothing(p.node) && GapFree(p.node.clock, Saved(p))
  {
    CalmLifeIsAccounted(self, threshold, events, w);
    PlainLifeAbsorbsNothing(self, threshold, events);
    ClockIsCoveredIff(self, threshold, events, w);
  }

  // ---- Fresh ids ----

  /** Some id the node has not seen. */
  lemma UnseenId(seen: set<MsgId>) returns (id: MsgId)
    ensures id !in seen
  {
    id := Longer(seen);
  }

  lemma {:induction false} Longer(seen: set<MsgId>) returns (id: MsgId)
    ensures forall s | s in seen :: |s| < |id|
    decreases seen
  {
    if seen == {} {
      id := "x";
    } else {
      var s :| s in seen;
      var rest := Longer(seen - {s});
      id := if |s| < |rest| then rest else s + "x";
      forall t | t in seen ensures |t| < |id| {
        assert t == s || t in seen - {s};
      }
    }
  }

  // ---- A broadcast from the caller to the store ----

  /** What the caller asked to send is what the peer stores, counts as its own and hands over for forwarding. */
  lemma SentChatIsStored(p: Peer, id: MsgId, ts: Time, text: string, ttl: nat) returns (m: Message)
    requires Synced(p.disc.store) && PendingOk(p.disc) && id !in p.node.seen && id !in IdsOf(Saved(p))
    ensures var q := Finished(p, Send(id, ts, Chat(text), true, ttl));
            && Says(p.node, id, ts, Chat(text), m) && Elems(Saved(q)) == Elems(Saved(p)) + {m}
            && q.node.log == p.node.log + [m] && q.mine == p.mine + [m]
            && q.outbox == p.outbox + (if ttl > 0 then [m] else [])
  {
    m := OriginationSays(p.node, id, ts, Chat(text), true);
    var w := Elems(Saved(p)) + {m};
    StoredIdsIdentify(Saved(p), m, Readable(p.disc.store.disk));
    assert Callbacks(p, Send(id, ts, Chat(text), true, ttl)) == [m];
    OneCallback(p.disc, m);
    OnMessageAdds(p.disc, m, w);
  }

  lemma StoredIdsIdentify(saved: seq<Message>, m: Message, readable: seq<Message>)
    requires saved == Dedupe(readable) && m.id !in IdsOf(saved)
    ensures IdsIdentify(Elems(saved) + {m})
  {
    DedupeUnique(readable);
    forall x, y | x in Elems(saved) + {m} && y in Elems(saved) + {m} && x.id == y.id ensures x == y {
      if x in saved && y in saved {
        SameIdSame(saved, x, y);
      }
    }
  }

  // ---- The wiring object ----

  const HISTORY_CHUNK_SIZE: nat := 100

  /** What a provider streams back for a cursor. */
  function Reply(d: Disk, cursor: Clock): seq<Content> {
    ChunkFrames(Split(Missing(ReadAll(d), cursor), HISTORY_CHUNK_SIZE, 1))
  }

  function ChunkFrames(chunks: seq<Chunk>): (frames: seq<Content>)
    ensures |frames| == |chunks|
    ensures forall i | 0 <= i < |chunks| :: frames[i] == HistoryChunk(Batch(chunks[i].messages), chunks[i].isLast)
  {
    seq(|chunks|, i requires 0 <= i < |chunks| => HistoryChunk(Batch(chunks[i].messages), chunks[i].isLast))
  }

  /** Everything a sequence of frames carries. */
  function Payload(frames: seq<Content>): seq<Item> {
    if frames == [] then []
    else (if frames[0].HistoryChunk? then frames[0].items else []) + Payload(frames[1..])
  }

  lemma BatchConcat(a: seq<Message>, b: seq<Message>)
    ensures Batch(a + b) == Batch(a) + Batch(b)
  {
  }

  lemma {:induction false} PayloadOfChunks(chunks: seq<Chunk>)
    ensures Payload(ChunkFrames(chunks)) == Batch(Joined(chunks))
  {
    if chunks != [] {
      assert ChunkFrames(chunks)[1..] == ChunkFrames(chunks[1..]);
      PayloadOfChunks(chunks[1..]);
      BatchConcat(chunks[0].messages, Joined(chunks[1..]));
    }
  }

  /**
    What a provider answers: history chunks of at most a hundred messages, the
    last one and only it marked last, which put together are exactly the stored
    messages numbered above the cursor, in listing order.
   */
  lemma ReplyIsTheMissingHistory(d: Disk, cursor: Clock) returns (ms: seq<Message>)
    ensures Payload(Reply(d, cursor)) == Batch(ms) && Subsequence(ms, ReadAll(d))
    ensures forall m :: m in ms <==> m in ReadAll(d) && m.Seq() > At(cursor, m.sender)
    ensures forall i | 0 <= i < |Reply(d, cursor)| ::
      var frame := Reply(d, cursor)[i];
      frame.HistoryChunk? && 1 <= |frame.items| <= 100 && (frame.isLast <==> i == |Reply(d, cursor)| - 1)
  {
    ms := Missing(ReadAll(d), cursor);
    var chunks := Split(ms, HISTORY_CHUNK_SIZE, 1);
    PayloadOfChunks(chunks);
    SplitJoins(ms, HISTORY_CHUNK_SIZE, 1);
    MissingKeepsOrder(ReadAll(d), cursor);
    forall m ensures m in ms <==> m in ReadAll(d) && m.Seq() > At(cursor, m.sender) {
      MissingMembers(ReadAll(d), cursor, m);
    }
    forall i | 0 <= i < |chunks|
      ensures 1 <= |chunks[i].messages| <= 100 && (chunks[i].isLast <==> i == |chunks| - 1)
    {
      SplitShape(ms, HISTORY_CHUNK_SIZE, 1, i);
    }
  }

  /** Storage, streaming and the queue of scheduled clock syncs behind one delivery callback. */
  class NodeWiring {
    const store: LocalMessageStore
    var pending: seq<Clock>

    constructor (store: LocalMessageStore)
      ensures this.store == store && pending == []
    {
      this.store, this.pending := store, [];
    }

    function State(): Disc
      reads this, store
    {
      Disc(store.State(), pending)
    }

    /** Stream missing history to one peer, one chunk at a time. */
    method StreamMissingHistory(have: Clock) returns (sent: seq<Content>)
      ensures sent == Reply(store.State().disk, have)
    {
      var r := store.BuildHistoryChunks(have, HISTORY_CHUNK_SIZE);
      sent := [];
      for i := 0 to |r.chunks|
        invariant sent == ChunkFrames(r.chunks)[..i]
      {
        sent := sent + [HistoryChunk(Batch(r.chunks[i].messages), r.chunks[i].isLast)];
      }
    }

    method HandleHistoryChunk(items: seq<Item>, isLast: bool)
      modifies this, store
      ensures State() == Ingest(old(State()), items, isLast)
    {
      var _, _, _ := store.SaveMany(items);
      if isLast {
        var cursor := store.GetLatestVectorClock();
        pending := pending + [cursor];
      }
    }

    method HandleStorageMessage(m: Message) returns (sent: seq<Content>)
      modifies this, store
      ensures State() == Handle(old(State()), m)
      ensures sent == if m.content.RecoverRequest? then Reply(old(State()).store.disk, m.content.cursor) else []
    {
      sent := [];
      match m.content
      case Chat(_) =>
        var _ := store.Save(m);
      case RecoverRequest(cursor) =>
        sent := StreamMissingHistory(cursor);
      case HistoryChunk(items, isLast) =>
        HandleHistoryChunk(items, isLast);
    }

    /** A delivery as the headless peer handles it; `accounted` is the store's clock after a chunk. */
    method OnDelivered(m: Message) returns (sent: seq<Content>, accounted: Clock)
      modifies this, store
      ensures State() == OnMessage(old(State()), m)
      ensures m.content.HistoryChunk? ==> accounted == Cursor(Handle(old(State()), m).store).0
    {
      accounted := map[];
      sent := HandleStorageMessage(m);
      if m.content.HistoryChunk? {
        accounted := store.GetLatestVectorClock();
      }
    }
  }
}
