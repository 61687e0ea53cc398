/**
  Causal logs cut after recovery.  History chunks fold the store's cursor into
  the accounted-for clock at once and into the node's clock only when the
  scheduled sync runs; a reset in between anchors the log too high.
 */
module RecoveredLogs {
  import opened Clocks
  import opened HoldBack
  import opened BroadcastNodes
  import opened Sequences
  import opened StoreModel
  import opened Recovery
  import opened HeadlessPeers
  import opened CausalLogs

  // ---- What explains a clock, timeouts included ----

  /** New deliveries alone explain how far the clock has moved from `c`, and only stamped messages stay held. */
  ghost predicate Explained(c: Clock, log: seq<Message>, after: NodeState, ms: seq<Message>) {
    after.log == log + ms && after.clock == After(c, ms) && forall m | m in HeldSet(after) :: m.Stamped()
  }

  lemma DrainExplained(st: NodeState, c: Clock, q: seq<Held>, now: Time)
    ensures var d := Drained(c, q, now, HOLDBACK_TIMEOUT); Explained(c, st.log, AfterDrain(st, d), d.released)
  {
    var d := Drained(c, q, now, HOLDBACK_TIMEOUT);
    DrainConserves(c, q, now, HOLDBACK_TIMEOUT);
    forall m | m in HeldSet(AfterDrain(st, d)) ensures m.Stamped() {
      var i :| 0 <= i < |d.held| && Msgs(d.held)[i] == m;
      assert !Ready(d.clock, d.held[i].msg);
    }
  }

  /** An arrival that is ready comes first, then what the drain releases. */
  lemma ReadyArrivalExplained(st: NodeState, m: Message, now: Time) returns (rest: seq<Message>)
    requires m.id !in st.seen && Ready(st.clock, m)
    ensures Explained(st.clock, st.log, Receive(st, m, now), [m] + rest) && Elems(rest) <= HeldSet(st)
  {
    var c := Join(st.clock, m.stamp);
    var d := Drained(c, st.held, now, HOLDBACK_TIMEOUT);
    DrainExplained(Marked(st, m).(log := st.log + [m]), c, st.held, now);
    DrainConserves(c, st.held, now, HOLDBACK_TIMEOUT);
    OutcomeFromQueue(st.held, d);
    rest := d.released;
    OneIsLegal(st.clock, m);
    AfterConcat(st.clock, [m], rest);
    assert st.log + [m] + rest == st.log + ([m] + rest);
  }

  lemma ArrivalExplained(st: NodeState, m: Message, now: Time) returns (ms: seq<Message>)
    requires ChatHeld(st)
    ensures Explained(st.clock, st.log, Receive(st, m, now), ms)
  {
    ms := [];
    if m.id !in st.seen {
      if Ready(st.clock, m) {
        var rest := ReadyArrivalExplained(st, m, now);
        ms := [m] + rest;
      } else {
        DrainExplained(Marked(st, m), st.clock, st.held + [Held(now, m)], now);
        ms := Drained(st.clock, st.held + [Held(now, m)], now, HOLDBACK_TIMEOUT).released;
      }
    }
  }

  /** Held messages are unready, so stamped, so chat. */
  ghost predicate ChatHeld(st: NodeState) { forall m | m in HeldSet(st) :: m.Stamped() && m.content.Chat? }

  lemma WorkExplained(p: Peer, work: Work)
    requires ChatHeld(p.node)
    ensures Explained(Base(p, work), p.node.log, Moved(p, work), Callbacks(p, work))
  {
    var st := p.node;
    var ms := [];
    match work
    case Rest =>
    case Arrive(m, now) => ms := ArrivalExplained(st, m, now);
    case Send(id, ts, content, signed, _) => ms := QuietOriginate(st, id, ts, content, signed);
    case SyncNext(now) =>
      if p.disc.pending != [] {
        var vc := p.disc.pending[0];
        DrainExplained(st.(merged := st.merged + [vc]), Join(st.clock, vc), st.held, now);
        ms := Drained(Join(st.clock, vc), st.held, now, HOLDBACK_TIMEOUT).released;
      }
    case Wake(now) =>
      if st.held != [] {
        DrainExplained(st, st.clock, st.held, now);
        ms := Drained(st.clock, st.held, now, HOLDBACK_TIMEOUT).released;
      }
    assert Callbacks(p, work) == ms;
  }

  lemma PlainWorkDelivers(p: Peer, work: Work)
    requires ChatHeld(p.node) && Plain(work)
    ensures NothingAbsorbed(Callbacks(p, work)) && ChatHeld(Moved(p, work))
    ensures !(work.Arrive? && work.msg.content.HistoryChunk?) ==> NoChunks(Callbacks(p, work))
  {
    var ms := Callbacks(p, work);
    WorkMoves(p, work);
    WorkExplained(p, work);
    forall i | 0 <= i < |ms|
      ensures !Absorbed(ms[i])
      ensures ms[i].content.HistoryChunk? ==> work.Arrive? && work.msg == ms[i]
    {
      assert ms[i] in Elems(ms);
    }
  }

  // ---- The accounted clock is the node's clock with the folded cursors ----

  ghost predicate PendingBelow(pending: seq<Clock>, f: Clock) {
    forall i | 0 <= i < |pending| :: Leq(pending[i], f)
  }

  ghost predicate Tracking(r: Runtime) {
    && SameClock(r.book.accounted, Join(r.peer.node.clock, r.folded))
    && ChatHeld(r.peer.node) && PendingBelow(r.peer.disc.pending, r.folded)
  }

  lemma JoinsCommute(a: Clock, b: Clock, d: Clock, s: Clock)
    requires SameClock(a, Join(b, d))
    ensures SameClock(Join(a, s), Join(Join(b, s), d))
  {
    forall k ensures At(Join(a, s), k) == At(Join(Join(b, s), d), k) {
      AtJoin(a, s, k);
      AtJoin(b, d, k);
      AtJoin(b, s, k);
      AtJoin(Join(b, s), d, k);
      assert At(a, k) == At(Join(b, d), k);
    }
  }

  lemma JoinsRegroup(a: Clock, b: Clock, f: Clock, d: Clock)
    requires SameClock(a, Join(b, f))
    ensures SameClock(Join(a, d), Join(b, Join(f, d)))
  {
    forall k ensures At(Join(a, d), k) == At(Join(b, Join(f, d)), k) {
      AtJoin(a, d, k);
      AtJoin(b, f, k);
      AtJoin(f, d, k);
      AtJoin(b, Join(f, d), k);
      assert At(a, k) == At(Join(b, f), k);
    }
  }

  /** Callback by callback: chat moves both clocks, a chunk only the accounted one, a request neither. */
  lemma {:induction false} NotesAndFolds(c: Clock, b: Book, f: Clock, d: Disc, ms: seq<Message>)
    requires NothingAbsorbed(ms) && SameClock(b.accounted, Join(c, f))
    ensures SameClock(NoteAll(b, d, ms).accounted, Join(After(c, ms), FoldAll(f, d, ms)))
  {
    if ms != [] {
      var front, m := ms[..|ms| - 1], ms[|ms| - 1];
      NotesAndFolds(c, b, f, d, front);
      var a, g := NoteAll(b, d, front).accounted, FoldAll(f, d, front);
      if m.content.Chat? {
        JoinsCommute(a, After(c, front), g, m.stamp);
      } else {
        UnstampedMovesNothing(After(c, front), m);
        if m.content.HistoryChunk? {
          JoinsRegroup(a, After(c, front), g, ChunkCursor(OnMessages(d, front), m));
        }
      }
    }
  }

  /** Reading the cursor again gives the same cursor. */
  lemma CursorTwice(st: Store)
    ensures Cursor(Cursor(st).1).0 == Cursor(st).0
  {
  }

  lemma BelowJoin(a: Clock, f: Clock, g: Clock)
    requires Leq(a, f)
    ensures Leq(a, Join(f, g))
  {
    JoinGrows(f, g);
    LeqTransitive(a, f, Join(f, g));
  }

  /** A chunk schedules at most the cursor it folds in. */
  lemma ChunkSchedules(d: Disc, m: Message)
    requires m.content.HistoryChunk?
    ensures OnMessage(d, m).pending == d.pending + (if m.content.isLast then [ChunkCursor(d, m)] else [])
  {
    CursorTwice(SaveMany(d.store, m.content.items));
    assert d.pending + [] == d.pending;
  }

  lemma {:induction false} ScheduledIsFolded(d: Disc, f: Clock, ms: seq<Message>)
    requires PendingBelow(d.pending, f)
    ensures PendingBelow(OnMessages(d, ms).pending, FoldAll(f, d, ms))
  {
    if ms != [] {
      var front, m := ms[..|ms| - 1], ms[|ms| - 1];
      ScheduledIsFolded(d, f, front);
      var e, g := OnMessages(d, front), FoldAll(f, d, front);
      if m.content.HistoryChunk? {
        ChunkSchedules(e, m);
        OneMorePending(e.pending, g, ChunkCursor(e, m), m.content.isLast);
      }
    }
  }

  lemma OneMorePending(pending: seq<Clock>, f: Clock, cursor: Clock, isLast: bool)
    requires PendingBelow(pending, f)
    ensures PendingBelow(pending + (if isLast then [cursor] else []), Join(f, cursor))
  {
    forall i | 0 <= i < |pending| ensures Leq(pending[i], Join(f, cursor)) {
      BelowJoin(pending[i], f, cursor);
    }
    forall k ensures At(cursor, k) <= At(Join(f, cursor), k) {
      AtJoin(f, cursor, k);
    }
  }

  /** A sync of something already folded in leaves the accounted clock explained. */
  lemma SyncedBase(a: Clock, c: Clock, f: Clock, vc: Clock)
    requires SameClock(a, Join(c, f)) && Leq(vc, f)
    ensures SameClock(a, Join(Join(c, vc), f))
  {
    forall k ensures At(a, k) == At(Join(Join(c, vc), f), k) {
      AtJoin(c, f, k);
      AtJoin(c, vc, k);
      AtJoin(Join(c, vc), f, k);
      assert At(a, k) == At(Join(c, f), k) && At(vc, k) <= At(f, k);
    }
  }

  lemma WorkTracks(r: Runtime, work: Work)
    requires Tracking(r) && Plain(work)
    ensures Tracking(Next(r, Happens(Does(work))))
  {
    var p, d, ms := r.peer, Begun(r.peer, work), Callbacks(r.peer, work);
    WorkExplained(p, work);
    PlainWorkDelivers(p, work);
    if work.SyncNext? && p.disc.pending != [] {
      SyncedBase(r.book.accounted, p.node.clock, r.folded, p.disc.pending[0]);
    }
    NotesAndFolds(Base(p, work), r.book, r.folded, d, ms);
    ScheduledIsFolded(d, r.folded, ms);
  }

  /** A new process starts with nothing folded in, whenever and however the old one died. */
  lemma CrashTracks(r: Runtime, during: Work, done: nat, how: Reopening)
    ensures Tracking(Next(r, Happens(Crash(during, done, how))))
  {
    var ms := Completed(r.peer, during, done);
    RestartedFrom(r.peer.node.self, OnMessages(Begun(r.peer, during), ms).store,
                  r.peer.mine + Own(during, ms), r.peer.left, how);
    CoveredSync(Next(r, Happens(Crash(during, done, how))).peer.node.clock, map[]);
  }

  /** Broadcasts are chat; chunks, requests, syncs, timeouts, crashes and resets as they come. */
  predicate PlainAction(a: LogAction) { a.Happens? && a.event.Does? ==> Plain(a.event.work) }

  ghost predicate PlainActions(actions: seq<LogAction>) { forall i | 0 <= i < |actions| :: PlainAction(actions[i]) }

  lemma ActionTracks(r: Runtime, a: LogAction)
    requires Tracking(r) && PlainAction(a)
    ensures Tracking(Next(r, a))
  {
    match a
    case Happens(Does(work)) => WorkTracks(r, work);
    case Happens(Forward(_)) =>
    case Happens(Crash(during, done, how)) => CrashTracks(r, during, done, how);
    case Reset(_) =>
  }

  lemma {:induction false} LifeTracks(r: Runtime, actions: seq<LogAction>)
    requires Tracking(r) && PlainActions(actions)
    ensures Tracking(RunFrom(r, actions))
  {
    if actions != [] {
      LifeTracks(r, actions[..|actions| - 1]);
      assert PlainAction(actions[|actions| - 1]);
      ActionTracks(RunFrom(r, actions[..|actions| - 1]), actions[|actions| - 1]);
    }
  }

  function Started(self: NodeId, threshold: int): Runtime {
    Runtime(Newborn(self, threshold), Book([], map[], map[]), map[])
  }

  lemma TrackedAgreesIff(r: Runtime)
    requires Tracking(r)
    ensures SameClock(r.book.accounted, r.peer.node.clock) <==> Leq(r.folded, r.peer.node.clock)
  {
    var c, f := r.peer.node.clock, r.folded;
    forall k ensures At(r.book.accounted, k) == Max(At(c, k), At(f, k)) {
      AtJoin(c, f, k);
      assert At(r.book.accounted, k) == At(Join(c, f), k);
    }
    if SameClock(r.book.accounted, c) {
      forall k ensures At(f, k) <= At(c, k) {
        assert At(r.book.accounted, k) == At(c, k);
      }
    }
  }

  /**
    The cut, wherever it comes: after any life of chat, requests, history
    chunks in any number and order, syncs, timeouts, crashes and earlier
    resets, a reset leaves every later quiet stretch clean if and only if the
    node's clock has reached every cursor folded in since the process started.
   */
  lemma CutIsCleanIff(self: NodeId, threshold: int, before: seq<LogAction>, marked: set<MsgId>)
    requires PlainActions(before)
    ensures var r := RunFrom(Started(self, threshold), before);
            AlwaysClean(Next(r, Reset(marked))) <==> Leq(r.folded, r.peer.node.clock)
  {
    var r := RunFrom(Started(self, threshold), before);
    assert Tracking(Started(self, threshold)) by { CoveredSync(map[], map[]); }
    LifeTracks(Started(self, threshold), before);
    TrackedAgreesIff(r);
    ResetIsCleanIffClocksAgree(r, marked);
  }

  /** So with no cursor outstanding, the log cut there is clean over every quiet stretch, covered syncs included. */
  lemma CutAnywhereIsClean(
      self: NodeId, threshold: int, before: seq<LogAction>, marked: set<MsgId>, after: seq<Event>)
    requires PlainActions(before) && FitStretch(after)
    requires var r := RunFrom(Started(self, threshold), before);
             Leq(r.folded, r.peer.node.clock) && QuietStretch(Next(r, Reset(marked)), after)
    ensures CleanBook(Stretch(Next(RunFrom(Started(self, threshold), before), Reset(marked)), after).book)
  {
    CutIsCleanIff(self, threshold, before, marked);
  }

  // ---- Recovery settles ----

  /** The folded cursors are covered by the clock, or by the last sync scheduled. */
  ghost predicate Owed(r: Runtime) {
    var pending := r.peer.disc.pending;
    Leq(r.folded, r.peer.node.clock) || (pending != [] && Leq(r.folded, pending[|pending| - 1]))
  }

  /** No further chunk arrives. */
  predicate ChunkFree(a: LogAction) {
    a.Happens? && a.event.Does? && a.event.work.Arrive? ==> !a.event.work.msg.content.HistoryChunk?
  }

  lemma {:induction false} NothingFolded(f: Clock, d: Disc, ms: seq<Message>)
    requires NoChunks(ms)
    ensures FoldAll(f, d, ms) == f && OnMessages(d, ms).pending == d.pending
  {
    if ms != [] {
      NothingFolded(f, d, ms[..|ms| - 1]);
    }
  }

  /** A chunk-free work folds nothing and schedules nothing, and the clock moves on from its base. */
  lemma WorkMovesOn(r: Runtime, work: Work)
    requires Tracking(r) && Plain(work) && ChunkFree(Happens(Does(work)))
    ensures var s := Next(r, Happens(Does(work)));
            s.folded == r.folded && s.peer.disc.pending == Begun(r.peer, work).pending &&
            Leq(Base(r.peer, work), s.peer.node.clock)
  {
    var p, d, ms := r.peer, Begun(r.peer, work), Callbacks(r.peer, work);
    PlainWorkDelivers(p, work);
    WorkExplained(p, work);
    NothingFolded(r.folded, d, ms);
    DeliveriesGrow(Base(p, work), ms);
  }

  lemma BaseCovers(p: Peer, work: Work)
    ensures Leq(p.node.clock, Base(p, work))
    ensures work.SyncNext? && p.disc.pending != [] ==> Leq(p.disc.pending[0], Base(p, work))
  {
    if work.SyncNext? && p.disc.pending != [] {
      JoinGrows(p.node.clock, p.disc.pending[0]);
      forall k ensures At(p.disc.pending[0], k) <= At(Base(p, work), k) {
        AtJoin(p.node.clock, p.disc.pending[0], k);
      }
    }
  }

  lemma WorkStaysOwed(r: Runtime, work: Work)
    requires Tracking(r) && Owed(r) && Plain(work) && ChunkFree(Happens(Does(work)))
    ensures Owed(Next(r, Happens(Does(work))))
  {
    var p, c, after := r.peer, Base(r.peer, work), Next(r, Happens(Does(work))).peer.node.clock;
    WorkMovesOn(r, work);
    BaseCovers(p, work);
    if Leq(r.folded, p.node.clock) {
      LeqTransitive(r.folded, p.node.clock, c);
      LeqTransitive(r.folded, c, after);
    } else if work.SyncNext? && |p.disc.pending| == 1 {
      LeqTransitive(r.folded, p.disc.pending[0], c);
      LeqTransitive(r.folded, c, after);
    }
  }

  lemma {:induction false} LifeStaysOwed(r: Runtime, actions: seq<LogAction>)
    requires Tracking(r) && Owed(r) && PlainActions(actions)
    requires forall i | 0 <= i < |actions| :: ChunkFree(actions[i])
    ensures Tracking(RunFrom(r, actions)) && Owed(RunFrom(r, actions))
  {
    LifeTracks(r, actions);
    if actions != [] {
      var front, last := actions[..|actions| - 1], actions[|actions| - 1];
      LifeStaysOwed(r, front);
      assert PlainAction(last) && ChunkFree(last);
      match last
      case Happens(Does(work)) => WorkStaysOwed(RunFrom(r, front), work);
      case Happens(Forward(_)) =>
      case Happens(Crash(_, _, _)) =>
      case Reset(_) =>
    }
  }

  // ---- The last chunk owes everything folded so far ----

  /** Everything folded in is a number the store has reached. */
  ghost predicate Backed(r: Runtime, w: set<Message>) {
    && DiscOk(r.peer.disc, w) && WorldPool(HeldSet(r.peer.node), w)
    && Leq(r.folded, Scan(Saved(r.peer)).latest)
  }

  lemma LatestGrows(a: seq<Message>, b: seq<Message>)
    requires Elems(a) <= Elems(b)
    ensures Leq(Scan(a).latest, Scan(b).latest)
  {
    ScanDescribes(a);
    ScanDescribes(b);
    forall s ensures At(Scan(a).latest, s) <= At(Scan(b).latest, s) {
      var q := At(Scan(a).latest, s);
      if q > 0 {
        assert Numbered(Elems(a), s, q);
        var m :| m in Elems(a) && m.sender == s && m.Seq() == q;
        assert m in Elems(b);
        assert Numbered(Elems(b), s, q);
      }
    }
  }

  lemma CursorIsBelowLatest(st: Store)
    ensures Leq(Cursor(st).0, Scan(Contents(st.disk)).latest)
  {
    CursorIsGapFree(st);
  }

  /** The store after a chunk, before the cursor is read. */
  lemma ChunkCursorIsBelowLatest(d: Disc, m: Message)
    requires m.content.HistoryChunk?
    ensures Leq(ChunkCursor(d, m), Scan(Contents(OnMessage(d, m).store.disk)).latest)
  {
    CursorIsBelowLatest(Handle(d, m).store);
    CursorKeeps(Handle(d, m).store);
  }

  lemma JoinIsBelow(a: Clock, b: Clock, top: Clock)
    requires Leq(a, top) && Leq(b, top)
    ensures Leq(Join(a, b), top)
  {
    forall k ensures At(Join(a, b), k) <= At(top, k) {
      AtJoin(a, b, k);
      assert At(a, k) <= At(top, k) && At(b, k) <= At(top, k);
    }
  }

  lemma {:induction false} FoldsAreBacked(f: Clock, d: Disc, ms: seq<Message>, w: set<Message>)
    requires DiscOk(d, w) && IdsIdentify(w) && forall i | 0 <= i < |ms| :: InWorld(ms[i], w)
    requires Leq(f, Scan(Contents(d.store.disk)).latest)
    ensures Leq(FoldAll(f, d, ms), Scan(Contents(OnMessages(d, ms).store.disk)).latest)
  {
    if ms != [] {
      var front, m := ms[..|ms| - 1], ms[|ms| - 1];
      FoldsAreBacked(f, d, front, w);
      OnMessagesAdd(d, front, w);
      var e, g := OnMessages(d, front), FoldAll(f, d, front);
      OnMessageAdds(e, m, w);
      LatestGrows(Contents(e.store.disk), Contents(OnMessage(e, m).store.disk));
      LeqTransitive(g, Scan(Contents(e.store.disk)).latest, Scan(Contents(OnMessage(e, m).store.disk)).latest);
      if m.content.HistoryChunk? {
        ChunkCursorIsBelowLatest(e, m);
        JoinIsBelow(g, ChunkCursor(e, m), Scan(Contents(OnMessage(e, m).store.disk)).latest);
      }
    }
  }

  ghost predicate WorldAction(r: Runtime, a: LogAction, w: set<Message>) {
    match a
    case Happens(Does(work)) => WorldWork(r.peer, work, w)
    case Happens(Crash(during, _, _)) => WorldWork(r.peer, during, w)
    case _ => true
  }

  ghost predicate WorldLife(r: Runtime, actions: seq<LogAction>, w: set<Message>) {
    actions == [] ||
    (var front, last := actions[..|actions| - 1], actions[|actions| - 1];
     WorldLife(r, front, w) && WorldAction(RunFrom(r, front), last, w))
  }

  lemma WorkIsBacked(r: Runtime, work: Work, w: set<Message>)
    requires Backed(r, w) && WorldWork(r.peer, work, w) && IdsIdentify(w)
    ensures Backed(Next(r, Happens(Does(work))), w)
  {
    var p, d, ms := r.peer, Begun(r.peer, work), Callbacks(r.peer, work);
    WorkMoves(p, work);
    PoolInWorld(p, work, w);
    CallbacksAreStored(p, work, |ms|, w);
    assert ms[..|ms|] == ms;
    BegunIsOk(p, work, w);
    forall i | 0 <= i < |ms| ensures InWorld(ms[i], w) {
      assert ms[i] in Elems(ms);
    }
    FoldsAreBacked(r.folded, d, ms, w);
  }

  lemma CrashIsBacked(r: Runtime, during: Work, done: nat, how: Reopening, w: set<Message>)
    requires Backed(r, w) && WorldWork(r.peer, during, w) && IdsIdentify(w)
    ensures Backed(Next(r, Happens(Crash(during, done, how))), w)
  {
    CrashedIsAccounted(r.peer, during, done, how, w);
  }

  lemma {:induction false} LifeIsBacked(r: Runtime, actions: seq<LogAction>, w: set<Message>)
    requires Backed(r, w) && WorldLife(r, actions, w) && IdsIdentify(w)
    ensures Backed(RunFrom(r, actions), w)
  {
    if actions != [] {
      var front, last := actions[..|actions| - 1], actions[|actions| - 1];
      LifeIsBacked(r, front, w);
      match last
      case Happens(Does(work)) => WorkIsBacked(RunFrom(r, front), work, w);
      case Happens(Forward(_)) =>
      case Happens(Crash(during, done, how)) => CrashIsBacked(RunFrom(r, front), during, done, how, w);
      case Reset(_) =>
    }
  }

  predicate DirectChunk(m: Message) { m.content.HistoryChunk? && !m.Stamped() }

  lemma HeldRestIsChat(st: NodeState, rest: seq<Message>)
    requires ChatHeld(st) && Elems(rest) <= HeldSet(st)
    ensures NoChunks(rest) && NothingAbsorbed(rest)
  {
    forall i | 0 <= i < |rest| ensures rest[i].content.Chat? {
      assert rest[i] in Elems(rest);
    }
  }

  /** The chunk itself, then what the drain releases, which is chat. */
  lemma ChunkCallbacks(p: Peer, m: Message, now: Time) returns (rest: seq<Message>)
    requires ChatHeld(p.node) && DirectChunk(m) && m.id !in p.node.seen
    ensures Callbacks(p, Arrive(m, now)) == [m] + rest && NoChunks(rest)
  {
    rest := ReadyArrivalExplained(p.node, m, now);
    HeldRestIsChat(p.node, rest);
  }

  lemma {:induction false} FoldCons(f: Clock, d: Disc, m: Message, rest: seq<Message>)
    requires m.content.HistoryChunk? && NoChunks(rest)
    ensures FoldAll(f, d, [m] + rest) == Join(f, ChunkCursor(d, m))
    ensures OnMessages(d, [m] + rest).pending == OnMessage(d, m).pending
  {
    var all := [m] + rest;
    if rest == [] {
      assert all == [m] && [m][..0] == [];
      assert FoldAll(f, d, []) == f && OnMessages(d, []) == d;
    } else {
      assert all[..|all| - 1] == [m] + rest[..|rest| - 1];
      FoldCons(f, d, m, rest[..|rest| - 1]);
    }
  }

  /** The store as the last chunk leaves it, when its cursor is scheduled. */
  function Ingested(d: Disc, m: Message): seq<Message>
    requires m.content.HistoryChunk?
  {
    Contents(SaveMany(d.store, m.content.items).disk)
  }

  lemma LastCursorIsLatest(d: Disc, m: Message)
    requires m.content.HistoryChunk? && m.content.isLast && !Gaps(Scan(Ingested(d, m)).seqs)
    ensures ChunkCursor(d, m) == Scan(Ingested(d, m)).latest
  {
    CursorTwice(SaveMany(d.store, m.content.items));
  }

  /** A last chunk that leaves no sender gap schedules a sync with everything folded in so far. */
  lemma LastChunkOwesAll(r: Runtime, m: Message, now: Time, w: set<Message>)
    requires Tracking(r) && Backed(r, w) && IdsIdentify(w)
    requires DirectChunk(m) && m.content.isLast && m.id !in r.peer.node.seen && InWorld(m, w)
    requires !Gaps(Scan(Ingested(r.peer.disc, m)).seqs)
    ensures Owed(Next(r, Happens(Does(Arrive(m, now)))))
  {
    var d, cursor := r.peer.disc, ChunkCursor(r.peer.disc, m);
    var rest := ChunkCallbacks(r.peer, m, now);
    FoldCons(r.folded, d, m, rest);
    ChunkSchedules(d, m);
    LastCursorIsLatest(d, m);
    SaveManyElems(d.store, m.content.items, w);
    LatestGrows(Saved(r.peer), Ingested(d, m));
    LeqTransitive(r.folded, Scan(Saved(r.peer)).latest, cursor);
    JoinIsBelow(r.folded, cursor, cursor);
  }

  /** A chunk arrives, then life goes on. */
  function Recovered(r: Runtime, m: Message, now: Time, after: seq<LogAction>): Runtime {
    RunFrom(Next(r, Happens(Does(Arrive(m, now)))), after)
  }

  /**
    Recovery settles.  After any life, let the last chunk of a transfer arrive
    and leave a store without sender gaps; then let anything plain happen but
    another chunk.  Once no sync is pending the clocks agree, however many
    chunks came before and whatever was delivered, expired, synced or crashed
    in between, and a reset from then on anchors a clean log.
   */
  lemma RecoverySettles(
      self: NodeId, threshold: int, before: seq<LogAction>, m: Message, now: Time, after: seq<LogAction>,
      marked: set<MsgId>, w: set<Message>)
    requires IdsIdentify(w) && PlainActions(before) && WorldLife(Started(self, threshold), before, w)
    requires DirectChunk(m) && m.content.isLast && InWorld(m, w)
    requires var r := RunFrom(Started(self, threshold), before);
             m.id !in r.peer.node.seen && !Gaps(Scan(Ingested(r.peer.disc, m)).seqs)
    requires PlainActions(after) && forall i | 0 <= i < |after| :: ChunkFree(after[i])
    requires Recovered(RunFrom(Started(self, threshold), before), m, now, after).peer.disc.pending == []
    ensures var s := Recovered(RunFrom(Started(self, threshold), before), m, now, after);
            SameClock(s.book.accounted, s.peer.node.clock) && AlwaysClean(Next(s, Reset(marked)))
  {
    var o := Started(self, threshold);
    var r := RunFrom(o, before);
    StartedIsFine(self, threshold, w);
    LifeTracks(o, before);
    LifeIsBacked(o, before, w);
    LastChunkOwesAll(r, m, now, w);
    WorkTracks(r, Arrive(m, now));
    Settled(Next(r, Happens(Does(Arrive(m, now)))), after, marked);
  }

  lemma StartedIsFine(self: NodeId, threshold: int, w: set<Message>)
    ensures Tracking(Started(self, threshold)) && Backed(Started(self, threshold), w)
  {
    CoveredSync(map[], map[]);
    NewbornIsAccounted(self, threshold, w);
  }

  lemma Settled(r: Runtime, actions: seq<LogAction>, marked: set<MsgId>)
    requires Tracking(r) && Owed(r) && PlainActions(actions)
    requires forall i | 0 <= i < |actions| :: ChunkFree(actions[i])
    requires RunFrom(r, actions).peer.disc.pending == []
    ensures var s := RunFrom(r, actions);
            SameClock(s.book.accounted, s.peer.node.clock) && AlwaysClean(Next(s, Reset(marked)))
  {
    var s := RunFrom(r, actions);
    LifeStaysOwed(r, actions);
    TrackedAgreesIff(s);
    ResetIsCleanIffClocksAgree(s, marked);
  }
}
