/**
  The causal log a running peer keeps for the offline checker.

  The delivery callback logs chat and joins its stamp into the accounted-for
  clock; recovery requests pass by it, and a history chunk joins the store's
  cursor without entering the log.  A reset empties the log and takes the
  accounted-for clock as its baseline.
 */
module CausalLogs {
  import opened Clocks
  import opened HoldBack
  import opened BroadcastNodes
  import opened Listing
  import opened Sequences
  import opened StoreModel
  import opened HeadlessPeers
  import opened CausalCheck

  /** The log, the clock accounted for, and the clock the log starts from. */
  datatype Book = Book(deliveries: seq<Message>, accounted: Clock, baseline: Clock)

  /** What the callback writes down for one message, with the storage as it is before. */
  function Note(b: Book, d: Disc, m: Message): Book {
    match m.content
    case Chat(_) => Book(b.deliveries + [m], Join(b.accounted, m.stamp), b.baseline)
    case RecoverRequest(_) => b
    case HistoryChunk(_, _) => b.(accounted := Join(b.accounted, ChunkCursor(d, m)))
  }

  function NoteAll(b: Book, d: Disc, ms: seq<Message>): Book {
    if ms == [] then b
    else
      var front := ms[..|ms| - 1];
      Note(NoteAll(b, d, front), OnMessages(d, front), ms[|ms| - 1])
  }

  /** The store's clock as the callback reads it after a chunk. */
  function ChunkCursor(d: Disc, m: Message): Clock { Cursor(Handle(d, m).store).0 }

  /** The cursors the callback has folded in, joined. */
  function FoldAll(f: Clock, d: Disc, ms: seq<Message>): Clock {
    if ms == [] then f
    else
      var front, m := ms[..|ms| - 1], ms[|ms| - 1];
      var g := FoldAll(f, d, front);
      if m.content.HistoryChunk? then Join(g, ChunkCursor(OnMessages(d, front), m)) else g
  }

  /** A running peer with its book; `folded` joins the cursors folded in since the process started. */
  datatype Runtime = Runtime(peer: Peer, book: Book, folded: Clock)

  /** A reset of the log; the one after recovery also marks stored ids as seen. */
  datatype LogAction = Happens(event: Event) | Reset(marked: set<MsgId>)

  /** A new process starts on the restored clock, with an empty log and baseline. */
  function Next(r: Runtime, a: LogAction): Runtime {
    match a
    case Happens(Does(work)) =>
      var d, ms := Begun(r.peer, work), Callbacks(r.peer, work);
      Runtime(Finished(r.peer, work), NoteAll(r.book, d, ms), FoldAll(r.folded, d, ms))
    case Happens(Forward(i)) => r.(peer := Happen(r.peer, Forward(i)))
    case Happens(Crash(during, done, how)) =>
      var p := Happen(r.peer, Crash(during, done, how));
      Runtime(p, Book([], p.node.clock, map[]), map[])
    case Reset(marked) =>
      var node := r.peer.node.(seen := r.peer.node.seen + marked);
      r.(peer := r.peer.(node := node), book := Book([], r.book.accounted, r.book.accounted))
  }

  function RunFrom(r: Runtime, actions: seq<LogAction>): Runtime {
    if actions == [] then r else Next(RunFrom(r, actions[..|actions| - 1]), actions[|actions| - 1])
  }

  /** The events of one stretch between resets. */
  function Stretch(r: Runtime, events: seq<Event>): Runtime {
    if events == [] then r else Next(Stretch(r, events[..|events| - 1]), Happens(events[|events| - 1]))
  }

  /** What the checker says of the log and its baseline. */
  ghost predicate CleanBook(b: Book) {
    Clean(b.baseline, AsRecords(b.deliveries))
  }

  ghost predicate SameClock(c: Clock, d: Clock) {
    forall k :: At(c, k) == At(d, k)
  }

  // ---- The chat among the deliveries ----

  function Chats(ms: seq<Message>): seq<Message> {
    if ms == [] then []
    else Chats(ms[..|ms| - 1]) + (if ms[|ms| - 1].content.Chat? then [ms[|ms| - 1]] else [])
  }

  ghost predicate NoChunks(ms: seq<Message>) {
    forall i | 0 <= i < |ms| :: !ms[i].content.HistoryChunk?
  }

  lemma ChatsSnoc(ms: seq<Message>, i: nat)
    requires i < |ms|
    ensures Chats(ms[..i + 1]) == if ms[i].content.Chat? then Chats(ms[..i]) + [ms[i]] else Chats(ms[..i])
  {
    assert ms[..i + 1][..i] == ms[..i];
    assert Chats(ms[..i]) + [] == Chats(ms[..i]);
  }

  lemma {:induction false} ChatsConcat(a: seq<Message>, b: seq<Message>)
    ensures Chats(a + b) == Chats(a) + Chats(b)
  {
    if b == [] {
      assert a + b == a;
    } else {
      var n := |b| - 1;
      ChatsConcat(a, b[..n]);
      assert (a + b)[..|a + b| - 1] == a + b[..n];
    }
  }

  /** Without chunks the callbacks log and account exactly the chat. */
  lemma {:induction false} NotesTheChat(b: Book, d: Disc, ms: seq<Message>)
    requires NoChunks(ms)
    ensures NoteAll(b, d, ms) == Book(b.deliveries + Chats(ms), After(b.accounted, Chats(ms)), b.baseline)
  {
    if ms == [] {
      assert b.deliveries + [] == b.deliveries;
    } else {
      var n := |ms| - 1;
      NotesTheChat(b, d, ms[..n]);
      if ms[n].content.Chat? {
        AfterOne(b.accounted, Chats(ms[..n]), ms[n]);
        assert b.deliveries + Chats(ms[..n]) + [ms[n]] == b.deliveries + (Chats(ms[..n]) + [ms[n]]);
      } else {
        assert Chats(ms) == Chats(ms[..n]);
      }
    }
  }

  // ---- When the log of a legal delivery sequence is clean ----

  /** No logged message counts an absorbed one delivered before it. */
  ghost predicate Uncounted(ms: seq<Message>, n: nat)
    requires n <= |ms|
  {
    forall j | 0 <= j < n && ms[j].content.Chat? :: CountsNoneBefore(ms, j)
  }

  ghost predicate CountsNoneBefore(ms: seq<Message>, j: nat)
    requires j < |ms|
  {
    forall i | 0 <= i < j && Absorbed(ms[i]) :: At(ms[j].stamp, ms[i].sender) < ms[i].Seq()
  }

  ghost predicate ChatsStamped(ms: seq<Message>) {
    forall i | 0 <= i < |ms| && ms[i].content.Chat? :: ms[i].Stamped()
  }

  /** The clock the log accounts for just before the j-th delivery. */
  function AccountedAt(c: Clock, ms: seq<Message>, j: nat): Clock
    requires j <= |ms|
  {
    After(c, Chats(ms[..j]))
  }

  lemma AccountedStep(c: Clock, ms: seq<Message>, j: nat)
    requires j < |ms|
    ensures AccountedAt(c, ms, j + 1) ==
            if ms[j].content.Chat? then Join(AccountedAt(c, ms, j), ms[j].stamp) else AccountedAt(c, ms, j)
  {
    ChatsSnoc(ms, j);
    if ms[j].content.Chat? {
      AfterOne(c, Chats(ms[..j]), ms[j]);
    }
  }

  /** The log never accounts for more than was delivered. */
  lemma {:induction false} AccountedIsBelow(c: Clock, ms: seq<Message>, j: nat, k: NodeId)
    requires j <= |ms|
    ensures At(c, k) <= At(AccountedAt(c, ms, j), k) <= At(After(c, ms[..j]), k)
  {
    if j == 0 {
      assert ms[..0] == [];
    } else {
      AccountedIsBelow(c, ms, j - 1, k);
      AccountedStep(c, ms, j - 1);
      AfterSnoc(c, ms, j - 1);
      AtJoin(After(c, ms[..j - 1]), ms[j - 1].stamp, k);
      AtJoin(AccountedAt(c, ms, j - 1), ms[j - 1].stamp, k);
    }
  }

  /** While nothing absorbed is counted, the accounted clock stays below every absorbed number. */
  lemma {:induction false} AbsorbedIsAbove(c: Clock, ms: seq<Message>, i: nat, j: nat)
    requires Legal(c, ms) && i < j <= |ms| && Absorbed(ms[i]) && Uncounted(ms, j)
    ensures At(AccountedAt(c, ms, j), ms[i].sender) < ms[i].Seq()
  {
    AccountedStep(c, ms, j - 1);
    if i == j - 1 {
      AccountedIsBelow(c, ms, i, ms[i].sender);
      assert ReadyAt(c, ms, i);
    } else {
      AbsorbedIsAbove(c, ms, i, j - 1);
      AtJoin(AccountedAt(c, ms, j - 1), ms[j - 1].stamp, ms[i].sender);
      if ms[j - 1].content.Chat? {
        assert CountsNoneBefore(ms, j - 1);
      }
    }
  }

  /** Once accounted, always accounted. */
  lemma {:induction false} ChatIsAccounted(c: Clock, ms: seq<Message>, i: nat, j: nat, k: NodeId)
    requires i < j <= |ms| && ms[i].content.Chat?
    ensures At(ms[i].stamp, k) <= At(AccountedAt(c, ms, j), k)
  {
    if i < j - 1 {
      ChatIsAccounted(c, ms, i, j - 1, k);
    }
    AccountedGrows(c, ms, j - 1, k);
  }

  lemma AccountedGrows(c: Clock, ms: seq<Message>, j: nat, k: NodeId)
    requires j < |ms|
    ensures At(AccountedAt(c, ms, j), k) <= At(AccountedAt(c, ms, j + 1), k)
    ensures ms[j].content.Chat? ==> At(ms[j].stamp, k) <= At(AccountedAt(c, ms, j + 1), k)
  {
    AccountedStep(c, ms, j);
    AtJoin(AccountedAt(c, ms, j), ms[j].stamp, k);
  }

  /** A delivered number the log does not account for belongs to an absorbed message. */
  lemma MissingIsAbsorbed(c: Clock, ms: seq<Message>, j: nat, s: NodeId, v: nat) returns (i: nat)
    requires Legal(c, ms) && j <= |ms| && At(AccountedAt(c, ms, j), s) < v <= At(After(c, ms[..j]), s)
    ensures i < j && Absorbed(ms[i]) && ms[i].sender == s && ms[i].Seq() == v
  {
    AccountedIsBelow(c, ms, j, s);
    LegalPrefix(c, ms, j);
    i := LegalHitsEveryNumber(c, ms[..j], s, v);
    if ms[i].content.Chat? {
      ChatIsAccounted(c, ms, i, j, s);
    }
  }

  lemma ReadyCountsNone(c: Clock, ms: seq<Message>, j: nat, i: nat)
    requires Legal(c, ms) && j < |ms| && ms[j].Stamped() && Uncounted(ms, j)
    requires Ready(AccountedAt(c, ms, j), ms[j]) && i < j && Absorbed(ms[i])
    ensures At(ms[j].stamp, ms[i].sender) < ms[i].Seq()
  {
    AbsorbedIsAbove(c, ms, i, j);
    assert ReadyAt(c, ms, j);
    AfterCovers(c, ms, i, j);
    assert At(ms[i].stamp, ms[i].sender) <= At(After(c, ms[..j]), ms[i].sender);
  }

  lemma OwnIsAccounted(c: Clock, ms: seq<Message>, j: nat)
    requires Legal(c, ms) && j < |ms| && ms[j].Stamped() && CountsNoneBefore(ms, j)
    ensures At(AccountedAt(c, ms, j), ms[j].sender) == At(After(c, ms[..j]), ms[j].sender)
  {
    var s := ms[j].sender;
    AccountedIsBelow(c, ms, j, s);
    assert ReadyAt(c, ms, j);
    if At(AccountedAt(c, ms, j), s) < At(After(c, ms[..j]), s) {
      var i := MissingIsAbsorbed(c, ms, j, s, At(After(c, ms[..j]), s));
    }
  }

  lemma DependencyIsAccounted(c: Clock, ms: seq<Message>, j: nat, k: NodeId)
    requires Legal(c, ms) && j < |ms| && ms[j].Stamped() && CountsNoneBefore(ms, j)
    requires k in ms[j].stamp && k != ms[j].sender
    ensures ms[j].stamp[k] <= At(AccountedAt(c, ms, j), k)
  {
    assert ReadyAt(c, ms, j);
    if At(AccountedAt(c, ms, j), k) < ms[j].stamp[k] {
      var i := MissingIsAbsorbed(c, ms, j, k, ms[j].stamp[k]);
    }
  }

  /** While nothing absorbed is counted, the next message is in order exactly if it counts nothing absorbed either. */
  lemma ReadyIffCountsNone(c: Clock, ms: seq<Message>, j: nat)
    requires Legal(c, ms) && j < |ms| && ms[j].Stamped() && Uncounted(ms, j)
    ensures Ready(AccountedAt(c, ms, j), ms[j]) <==> CountsNoneBefore(ms, j)
  {
    if Ready(AccountedAt(c, ms, j), ms[j]) {
      forall i | 0 <= i < j && Absorbed(ms[i]) ensures At(ms[j].stamp, ms[i].sender) < ms[i].Seq() {
        ReadyCountsNone(c, ms, j, i);
      }
    }
    if CountsNoneBefore(ms, j) {
      OwnIsAccounted(c, ms, j);
      assert ReadyAt(c, ms, j);
      forall k | k in ms[j].stamp && k != ms[j].sender ensures ms[j].stamp[k] <= At(AccountedAt(c, ms, j), k) {
        DependencyIsAccounted(c, ms, j, k);
      }
    }
  }

  lemma SnocIsLegalIff(c: Clock, ms: seq<Message>, m: Message)
    ensures Legal(c, ms + [m]) <==> Legal(c, ms) && Ready(After(c, ms), m)
  {
    var all := ms + [m];
    assert all[..|ms|] == ms;
    if Legal(c, all) {
      LegalPrefix(c, all, |ms|);
      assert ReadyAt(c, all, |ms|);
    }
    if Legal(c, ms) && Ready(After(c, ms), m) {
      OneIsLegal(After(c, ms), m);
      LegalConcat(c, ms, [m]);
    }
  }

  lemma {:induction false} ChatIsLegalIff(c: Clock, ms: seq<Message>, n: nat)
    requires Legal(c, ms) && ChatsStamped(ms) && n <= |ms|
    ensures Legal(c, Chats(ms[..n])) <==> Uncounted(ms, n)
  {
    if n > 0 {
      var j := n - 1;
      ChatIsLegalIff(c, ms, j);
      ChatsSnoc(ms, j);
      if ms[j].content.Chat? {
        SnocIsLegalIff(c, Chats(ms[..j]), ms[j]);
        if Uncounted(ms, j) {
          ReadyIffCountsNone(c, ms, j);
        }
      }
    }
  }

  lemma {:induction false} ChatsAreStamped(ms: seq<Message>)
    ensures AllStamped(Chats(ms)) <==> ChatsStamped(ms)
  {
    if ms != [] {
      var n := |ms| - 1;
      ChatsAreStamped(ms[..n]);
      var front := Chats(ms[..n]);
      assert ChatsStamped(ms) <==> ChatsStamped(ms[..n]) && (ms[n].content.Chat? ==> ms[n].Stamped());
      if ms[n].content.Chat? {
        assert (front + [ms[n]])[|front|] == ms[n];
        assert forall i | 0 <= i < |front| :: (front + [ms[n]])[i] == front[i];
      } else {
        assert Chats(ms) == front;
      }
    }
  }

  /**
    The log of deliveries made in causal order from the baseline is clean if
    and only if all chat is stamped and no logged message counts an absorbed
    broadcast delivered before it.
   */
  lemma ChatLogIsCleanIff(c: Clock, ms: seq<Message>)
    requires Legal(c, ms)
    ensures Clean(c, AsRecords(Chats(ms))) <==> ChatsStamped(ms) && Uncounted(ms, |ms|)
  {
    CleanIffLegal(c, Chats(ms));
    ChatsAreStamped(ms);
    if ChatsStamped(ms) {
      ChatIsLegalIff(c, ms, |ms|);
      assert ms[..|ms|] == ms;
    }
  }

  // ---- When the accounted clock keeps step with the deliveries ----

  lemma {:induction false} SameAfter(c: Clock, d: Clock, ms: seq<Message>)
    requires SameClock(c, d)
    ensures SameClock(After(c, ms), After(d, ms))
  {
    if ms != [] {
      SameAfter(c, d, ms[..|ms| - 1]);
    }
  }

  lemma LegalSame(c: Clock, d: Clock, ms: seq<Message>)
    requires SameClock(c, d) && Legal(c, ms)
    ensures Legal(d, ms)
  {
    forall i | 0 <= i < |ms| ensures ReadyAt(d, ms, i) {
      assert ReadyAt(c, ms, i);
      SameAfter(c, d, ms[..i]);
    }
  }

  ghost predicate NothingAbsorbed(ms: seq<Message>) {
    forall i | 0 <= i < |ms| :: !Absorbed(ms[i])
  }

  /** With nothing absorbed the chat accounts for every delivery, whatever order it came in. */
  lemma {:induction false} ChatAccountsForAll(c: Clock, ms: seq<Message>)
    requires NothingAbsorbed(ms)
    ensures SameClock(After(c, Chats(ms)), After(c, ms))
  {
    if ms != [] {
      var n := |ms| - 1;
      ChatAccountsForAll(c, ms[..n]);
      if ms[n].content.Chat? {
        AfterOne(c, Chats(ms[..n]), ms[n]);
      } else {
        assert Chats(ms) == Chats(ms[..n]);
        UnstampedMovesNothing(After(c, ms[..n]), ms[n]);
      }
    }
  }

  lemma UnstampedMovesNothing(c: Clock, m: Message)
    requires !m.Stamped()
    ensures Join(c, m.stamp) == c
  {
  }

  ghost predicate KeepsStep(c: Clock, ms: seq<Message>) {
    forall n | 0 <= n <= |ms| :: InStep(c, ms, n)
  }

  ghost predicate InStep(c: Clock, ms: seq<Message>, n: nat)
    requires n <= |ms|
  {
    SameClock(AccountedAt(c, ms, n), After(c, ms[..n]))
  }

  lemma AbsorbedFallsBehind(c: Clock, ms: seq<Message>, i: nat)
    requires Legal(c, ms) && i < |ms| && Absorbed(ms[i])
    ensures !InStep(c, ms, i + 1)
  {
    var s := ms[i].sender;
    AccountedStep(c, ms, i);
    AccountedIsBelow(c, ms, i, s);
    AfterSnoc(c, ms, i);
    assert ReadyAt(c, ms, i);
    ReadyRaisesSenderByOne(After(c, ms[..i]), ms[i], s);
    assert At(AccountedAt(c, ms, i + 1), s) != At(After(c, ms[..i + 1]), s);
  }

  /** Delivery by delivery, the accounted clock keeps step if and only if every stamped message delivered is chat. */
  lemma KeepsStepIff(c: Clock, ms: seq<Message>)
    requires Legal(c, ms)
    ensures KeepsStep(c, ms) <==> NothingAbsorbed(ms)
  {
    if NothingAbsorbed(ms) {
      forall n | 0 <= n <= |ms| ensures InStep(c, ms, n) {
        ChatAccountsForAll(c, ms[..n]);
      }
    }
    if KeepsStep(c, ms) {
      forall i | 0 <= i < |ms| ensures !Absorbed(ms[i]) {
        if Absorbed(ms[i]) {
          assert InStep(c, ms, i + 1);
          AbsorbedFallsBehind(c, ms, i);
        }
      }
    }
  }

  // ---- Stretches without timeouts, chunks and syncs that move the clock ----

  ghost predicate QuietWork(p: Peer, work: Work) {
    match work
    case Rest => true
    case Arrive(m, now) => NoneExpired(p.node.held, now, HOLDBACK_TIMEOUT) && !m.content.HistoryChunk?
    case Send(_, _, content, _, _) => !content.HistoryChunk?
    case SyncNext(now) =>
      p.disc.pending == [] ||
      (NoneExpired(p.node.held, now, HOLDBACK_TIMEOUT) && Leq(p.disc.pending[0], p.node.clock))
    case Wake(now) => NoneExpired(p.node.held, now, HOLDBACK_TIMEOUT)
  }

  ghost predicate QuietEvent(p: Peer, e: Event) {
    e.Forward? || (e.Does? && QuietWork(p, e.work))
  }

  ghost predicate QuietStretch(r: Runtime, events: seq<Event>) {
    events == [] ||
    (var front, last := events[..|events| - 1], events[|events| - 1];
     QuietStretch(r, front) && QuietEvent(Stretch(r, front).peer, last))
  }

  ghost predicate NoChunkHeld(st: NodeState) {
    forall m | m in HeldSet(st) :: !m.content.HistoryChunk?
  }

  /** In between `ms` was delivered, legally. */
  ghost predicate NodeExtends(st: NodeState, after: NodeState, ms: seq<Message>) {
    && after.log == st.log + ms && NoChunks(ms) && NoChunkHeld(after)
    && Legal(st.clock, ms) && SameClock(after.clock, After(st.clock, ms))
  }

  /** The callbacks noted exactly the chat of `ms`. */
  ghost predicate BookExtends(b: Book, after: Book, ms: seq<Message>) {
    after == Book(b.deliveries + Chats(ms), After(b.accounted, Chats(ms)), b.baseline)
  }

  ghost predicate Extends(r: Runtime, s: Runtime, ms: seq<Message>) {
    NodeExtends(r.peer.node, s.peer.node, ms) && BookExtends(r.book, s.book, ms)
  }

  /** A sync the clock has already covered moves nothing. */
  lemma CoveredSync(c: Clock, vc: Clock)
    requires Leq(vc, c)
    ensures SameClock(Join(c, vc), c)
  {
    forall k ensures At(Join(c, vc), k) == At(c, k) {
      AtJoin(c, vc, k);
    }
  }

  lemma QuietWorkIsLegal(p: Peer, work: Work)
    requires QuietWork(p, work)
    ensures Legal(p.node.clock, Callbacks(p, work))
    ensures SameClock(Moved(p, work).clock, After(p.node.clock, Callbacks(p, work)))
  {
    var c, ms := Base(p, work), Callbacks(p, work);
    CalmWorkIsLegal(p, work);
    if work.SyncNext? && p.disc.pending != [] {
      CoveredSync(p.node.clock, p.disc.pending[0]);
    }
    LegalSame(c, p.node.clock, ms);
    SameAfter(c, p.node.clock, ms);
  }

  lemma QuietWorkExtends(r: Runtime, work: Work)
    requires QuietWork(r.peer, work) && NoChunkHeld(r.peer.node)
    ensures Extends(r, Next(r, Happens(Does(work))), Callbacks(r.peer, work))
  {
    var ms := Callbacks(r.peer, work);
    QuietWorkIsLegal(r.peer, work);
    WorkMoves(r.peer, work);
    forall i | 0 <= i < |ms| ensures !ms[i].content.HistoryChunk? {
      assert ms[i] in Elems(ms);
    }
    NotesTheChat(r.book, Begun(r.peer, work), ms);
  }

  lemma NodeExtendsTwice(st: NodeState, mid: NodeState, after: NodeState, a: seq<Message>, b: seq<Message>)
    requires NodeExtends(st, mid, a) && NodeExtends(mid, after, b)
    ensures NodeExtends(st, after, a + b)
  {
    var c := After(st.clock, a);
    LegalSame(mid.clock, c, b);
    SameAfter(mid.clock, c, b);
    LegalConcat(st.clock, a, b);
    Associative(st.log, a, b);
  }

  lemma BookExtendsTwice(b: Book, mid: Book, after: Book, x: seq<Message>, y: seq<Message>)
    requires BookExtends(b, mid, x) && BookExtends(mid, after, y)
    ensures BookExtends(b, after, x + y)
  {
    ChatsConcat(x, y);
    AfterConcat(b.accounted, Chats(x), Chats(y));
    Associative(b.deliveries, Chats(x), Chats(y));
  }

  lemma ExtendsTwice(r: Runtime, s: Runtime, t: Runtime, a: seq<Message>, b: seq<Message>)
    requires Extends(r, s, a) && Extends(s, t, b)
    ensures Extends(r, t, a + b)
  {
    NodeExtendsTwice(r.peer.node, s.peer.node, t.peer.node, a, b);
    BookExtendsTwice(r.book, s.book, t.book, a, b);
  }

  lemma ExtendsByNothing(r: Runtime, s: Runtime)
    requires NoChunkHeld(r.peer.node) && s.peer.node == r.peer.node && s.book == r.book
    ensures Extends(r, s, [])
  {
    assert r.book.deliveries + [] == r.book.deliveries;
  }

  lemma {:induction false} QuietStretchExtends(r: Runtime, events: seq<Event>) returns (ms: seq<Message>)
    requires QuietStretch(r, events) && NoChunkHeld(r.peer.node)
    ensures Extends(r, Stretch(r, events), ms) && ms == NewDeliveries(r.peer.node, Stretch(r, events).peer.node)
  {
    ms := [];
    if events == [] {
      ExtendsByNothing(r, r);
    } else {
      var front, last := events[..|events| - 1], events[|events| - 1];
      var before := QuietStretchExtends(r, front);
      var mid := Stretch(r, front);
      var more := [];
      if last.Does? {
        QuietWorkExtends(mid, last.work);
        more := Callbacks(mid.peer, last.work);
      } else {
        ExtendsByNothing(mid, Next(mid, Happens(last)));
      }
      ExtendsTwice(r, mid, Stretch(r, events), before, more);
      ms := before + more;
    }
  }

  /** What was delivered during the stretch. */
  function During(r: Runtime, events: seq<Event>): seq<Message> {
    NewDeliveries(r.peer.node, Stretch(r, events).peer.node)
  }

  /**
    A stretch begun by a reset at which the accounted-for clock agrees with the
    node's: the checker finds its log clean if and only if all chat delivered
    in it is stamped and no chat counts a broadcast absorbed before it.
   */
  lemma StretchIsCleanIff(r: Runtime, marked: set<MsgId>, events: seq<Event>)
    requires SameClock(r.book.accounted, r.peer.node.clock) && NoChunkHeld(r.peer.node)
    requires QuietStretch(Next(r, Reset(marked)), events)
    ensures var cut := Next(r, Reset(marked)); var ms := During(cut, events);
            CleanBook(Stretch(cut, events).book) <==> ChatsStamped(ms) && Uncounted(ms, |ms|)
  {
    var cut := Next(r, Reset(marked));
    var ms := QuietStretchExtends(cut, events);
    LegalSame(r.peer.node.clock, r.book.accounted, ms);
    assert [] + Chats(ms) == Chats(ms);
    ChatLogIsCleanIff(r.book.accounted, ms);
  }

  /**
    A stretch that begins in agreement stays in it, delivery by delivery, if
    and only if every stamped message it delivers is chat.
   */
  lemma StretchKeepsStepIff(r: Runtime, events: seq<Event>)
    requires SameClock(r.book.accounted, r.peer.node.clock) && NoChunkHeld(r.peer.node) && QuietStretch(r, events)
    ensures var s := Stretch(r, events); var ms := During(r, events);
            && (KeepsStep(r.book.accounted, ms) <==> NothingAbsorbed(ms))
            && s.book.accounted == AccountedAt(r.book.accounted, ms, |ms|)
            && SameClock(s.peer.node.clock, After(r.book.accounted, ms))
  {
    var ms := QuietStretchExtends(r, events);
    LegalSame(r.peer.node.clock, r.book.accounted, ms);
    KeepsStepIff(r.book.accounted, ms);
    SameAfter(r.peer.node.clock, r.book.accounted, ms);
    assert ms[..|ms|] == ms;
  }

  // ---- Peers that broadcast chat and send recovery requests directly ----

  /** Chat is broadcast, requests are not. */
  predicate Fit(m: Message) { !m.content.HistoryChunk? && (m.Stamped() <==> m.content.Chat?) }

  ghost predicate FitHeld(st: NodeState) { forall m | m in HeldSet(st) :: Fit(m) }

  predicate FitEvent(e: Event) {
    e.Does? ==> (e.work.Arrive? ==> Fit(e.work.msg)) && (e.work.Send? ==> e.work.content.Chat?)
  }

  ghost predicate FitStretch(events: seq<Event>) {
    forall i | 0 <= i < |events| :: FitEvent(events[i])
  }

  lemma FitWork(p: Peer, work: Work)
    requires FitHeld(p.node) && FitEvent(Does(work))
    ensures FitHeld(Moved(p, work)) && forall i | 0 <= i < |Callbacks(p, work)| :: Fit(Callbacks(p, work)[i])
  {
    WorkMoves(p, work);
    var ms := Callbacks(p, work);
    if work.Send? {
      QuietDraftIsStamped(p.node, work.id, work.timestamp, work.content);
    }
    forall i | 0 <= i < |ms| ensures Fit(ms[i]) {
      assert ms[i] in Elems(ms);
    }
  }

  lemma QuietDraftIsStamped(st: NodeState, id: MsgId, ts: Time, content: Content)
    ensures Draft(st, id, ts, content).Stamped()
  {
    assert st.self in Draft(st, id, ts, content).stamp;
  }

  ghost predicate AllFit(ms: seq<Message>) { forall i | 0 <= i < |ms| :: Fit(ms[i]) }

  lemma FitEventExtends(r: Runtime, e: Event) returns (ms: seq<Message>)
    requires QuietEvent(r.peer, e) && FitEvent(e) && FitHeld(r.peer.node)
    ensures Extends(r, Next(r, Happens(e)), ms) && AllFit(ms) && FitHeld(Next(r, Happens(e)).peer.node)
  {
    if e.Does? {
      ms := Callbacks(r.peer, e.work);
      QuietWorkExtends(r, e.work);
      FitWork(r.peer, e.work);
    } else {
      ms := [];
      ExtendsByNothing(r, Next(r, Happens(e)));
    }
  }

  lemma {:induction false} FitStretchDelivers(r: Runtime, events: seq<Event>) returns (ms: seq<Message>)
    requires QuietStretch(r, events) && FitStretch(events) && FitHeld(r.peer.node)
    ensures Extends(r, Stretch(r, events), ms) && AllFit(ms) && FitHeld(Stretch(r, events).peer.node)
  {
    ms := [];
    if events == [] {
      ExtendsByNothing(r, r);
    } else {
      var front, last := events[..|events| - 1], events[|events| - 1];
      assert FitEvent(last);
      var before := FitStretchDelivers(r, front);
      var more := FitEventExtends(Stretch(r, front), last);
      ExtendsTwice(r, Stretch(r, front), Stretch(r, events), before, more);
      ms := before + more;
    }
  }

  lemma FitIsUncounted(ms: seq<Message>)
    requires AllFit(ms)
    ensures ChatsStamped(ms) && NothingAbsorbed(ms) && Uncounted(ms, |ms|)
  {
  }

  /** Agreement at the cut is enough. */
  lemma ResetLogIsClean(r: Runtime, marked: set<MsgId>, events: seq<Event>)
    requires SameClock(r.book.accounted, r.peer.node.clock) && FitHeld(r.peer.node)
    requires QuietStretch(Next(r, Reset(marked)), events) && FitStretch(events)
    ensures CleanBook(Stretch(Next(r, Reset(marked)), events).book)
  {
    var cut := Next(r, Reset(marked));
    var ms := FitStretchDelivers(cut, events);
    assert During(cut, events) == ms;
    FitIsUncounted(ms);
    StretchIsCleanIff(r, marked, events);
  }

  /** The checker finds nothing in the log of any fit quiet stretch from `r`. */
  ghost predicate AlwaysClean(r: Runtime) {
    forall events | QuietStretch(r, events) && FitStretch(events) :: CleanBook(Stretch(r, events).book)
  }

  /** A message only the disagreeing clocks tell apart. */
  function Probe(c: Clock, k: NodeId, id: MsgId): Message {
    Message(id, k, map[k := At(c, k) + 1], 0.0, Chat(""))
  }

  lemma UnreadyFirstIsReported(b: Book)
    requires b.deliveries != [] && !Ready(b.baseline, b.deliveries[0])
    ensures !CleanBook(b)
  {
    CleanIffLegal(b.baseline, b.deliveries);
    assert b.deliveries[..0] == [];
    assert !ReadyAt(b.baseline, b.deliveries, 0);
  }

  lemma OneEvent(r: Runtime, e: Event)
    ensures Stretch(r, [e]) == Next(r, Happens(e)) && (QuietStretch(r, [e]) <==> QuietEvent(r.peer, e))
  {
    assert [e][..0] == [] && Stretch(r, []) == r && QuietStretch(r, []);
  }

  lemma {:induction false} FirstChat(ms: seq<Message>)
    requires ms != [] && ms[0].content.Chat?
    ensures Chats(ms) != [] && Chats(ms)[0] == ms[0]
  {
    if |ms| > 1 {
      FirstChat(ms[..|ms| - 1]);
    } else {
      assert ms[..0] == [];
    }
  }

  lemma DisagreementIsReported(r: Runtime, k: NodeId, id: MsgId, now: Time)
    requires r.book.deliveries == [] && r.book.baseline == r.book.accounted && FitHeld(r.peer.node)
    requires NoneExpired(r.peer.node.held, now, HOLDBACK_TIMEOUT)
    requires At(r.book.accounted, k) != At(r.peer.node.clock, k) && id !in r.peer.node.seen
    ensures var run := [Does(Arrive(Probe(r.peer.node.clock, k, id), now))];
            QuietStretch(r, run) && FitStretch(run) && !CleanBook(Stretch(r, run).book)
  {
    var m := Probe(r.peer.node.clock, k, id);
    assert k in m.stamp;
    var e := Does(Arrive(m, now));
    OneEvent(r, e);
    ProbeComesFirst(r, m, now);
    UnreadyFirstIsReported(Next(r, Happens(e)).book);
  }

  lemma ProbeComesFirst(r: Runtime, m: Message, now: Time)
    requires QuietWork(r.peer, Arrive(m, now)) && NoChunkHeld(r.peer.node) && r.book.deliveries == []
    requires m.id !in r.peer.node.seen && Ready(r.peer.node.clock, m) && m.content.Chat?
    ensures var b := Next(r, Happens(Does(Arrive(m, now)))).book;
            b.deliveries != [] && b.deliveries[0] == m && b.baseline == r.book.baseline
  {
    var ms := QuietReceive(r.peer.node, m, now);
    assert Callbacks(r.peer, Arrive(m, now)) == ms;
    QuietWorkExtends(r, Arrive(m, now));
    FirstChat(ms);
    assert [] + Chats(ms) == Chats(ms);
  }

  /** A moment at which nothing in the queue has expired. */
  lemma {:induction false} EarlyEnough(held: seq<Held>) returns (now: Time)
    ensures forall i | 0 <= i < |held| :: now <= held[i].at
  {
    if held == [] {
      now := 0.0;
    } else {
      var n := |held| - 1;
      var t := EarlyEnough(held[..n]);
      now := if t < held[n].at then t else held[n].at;
      forall i | 0 <= i < |held| ensures now <= held[i].at {
        assert i < n ==> held[..n][i] == held[i];
      }
    }
  }

  /**
    A reset anchors a log that stays clean over every later quiet stretch of
    chat and direct requests if and only if the accounted-for clock agrees with
    the node's clock at the cut.
   */
  lemma ResetIsCleanIffClocksAgree(r: Runtime, marked: set<MsgId>)
    requires FitHeld(r.peer.node)
    ensures AlwaysClean(Next(r, Reset(marked))) <==> SameClock(r.book.accounted, r.peer.node.clock)
  {
    var cut := Next(r, Reset(marked));
    if SameClock(r.book.accounted, r.peer.node.clock) {
      forall events | QuietStretch(cut, events) && FitStretch(events) ensures CleanBook(Stretch(cut, events).book) {
        ResetLogIsClean(r, marked, events);
      }
    } else {
      var k :| At(r.book.accounted, k) != At(r.peer.node.clock, k);
      var id := UnseenId(cut.peer.node.seen);
      var now := EarlyEnough(r.peer.node.held);
      DisagreementIsReported(cut, k, id, now);
    }
  }

  /** A retried copy of a message marked at the cut is dropped: neither node, nor store, nor log notices it. */
  lemma MarkedCopyIsDropped(r: Runtime, marked: set<MsgId>, m: Message, now: Time)
    requires m.id in marked
    ensures var cut := Next(r, Reset(marked)); Next(cut, Happens(Does(Arrive(m, now)))) == cut
  {
    var cut := Next(r, Reset(marked));
    assert Callbacks(cut.peer, Arrive(m, now)) == [];
    assert cut.peer.mine + [] == cut.peer.mine && cut.peer.outbox + [] == cut.peer.outbox;
  }

  /** And so is a copy of one marked when the process started again. */
  lemma SeededCopyIsDropped(r: Runtime, during: Work, done: nat, how: Reopening, m: Message, now: Time)
    requires m.id in how.seeded
    ensures var s := Next(r, Happens(Crash(during, done, how))); Next(s, Happens(Does(Arrive(m, now)))) == s
  {
    var s := Next(r, Happens(Crash(during, done, how)));
    var ms := Completed(r.peer, during, done);
    RestartedFrom(r.peer.node.self, OnMessages(Begun(r.peer, during), ms).store,
                  r.peer.mine + Own(during, ms), r.peer.left, how);
    assert Callbacks(s.peer, Arrive(m, now)) == [];
    assert s.peer.mine + [] == s.peer.mine && s.peer.outbox + [] == s.peer.outbox;
  }

  // ---- The runtime object ----

  /** The callback side of the peer runtime: persist first, then record. */
  class PeerRuntime {
    const wiring: NodeWiring
    var deliveries: seq<Message>
    var accounted: Clock
    var baseline: Clock

    function State(): Book
      reads this
    {
      Book(deliveries, accounted, baseline)
    }

    /** A restored clock covers messages delivered in an earlier life of the process. */
    constructor (wiring: NodeWiring, restored: Clock)
      ensures this.wiring == wiring && State() == Book([], restored, map[])
    {
      this.wiring := wiring;
      deliveries, accounted, baseline := [], restored, map[];
    }

    method OnMessage(m: Message) returns (sent: seq<Content>)
      modifies this, wiring, wiring.store
      ensures State() == Note(old(State()), old(wiring.State()), m)
      ensures wiring.State() == HeadlessPeers.OnMessage(old(wiring.State()), m)
    {
      var cursor;
      sent, cursor := wiring.OnDelivered(m);
      match m.content {
        case Chat(_) =>
          accounted := Advance(accounted, m.stamp);
          deliveries := deliveries + [m];
        case RecoverRequest(_) =>
        case HistoryChunk(_, _) =>
          accounted := Advance(accounted, cursor);
      }
    }

    method ResetLog()
      modifies this
      ensures State() == Book([], old(accounted), old(accounted))
    {
      deliveries := [];
      baseline := accounted;
    }

    /** Mark stored messages as seen, so that a retried copy of one is dropped. */
    method SeedSeenSet(node: BroadcastNode, stored: seq<Message>) returns (seeded: nat)
      modifies node`seen
      ensures node.seen == old(node.seen) + IdsOf(stored)
    {
      seeded := 0;
      assert stored[..0] == [];
      for i := 0 to |stored|
        invariant node.seen == old(node.seen) + IdsOf(stored[..i])
      {
        assert stored[..i + 1] == stored[..i] + [stored[i]];
        Listing.IdsSnoc(stored[..i], stored[i]);
        var isNew := node.Deduplicate(stored[i].id);
        if isNew {
          seeded := seeded + 1;
        }
      }
      assert stored[..|stored|] == stored;
    }

    /** Anchor the causal log at the clock recovery has reached. */
    method BeginCausalLog(node: BroadcastNode, stored: seq<Message>)
      modifies this, node`seen
      ensures State() == Book([], old(accounted), old(accounted))
      ensures node.seen == old(node.seen) + IdsOf(stored)
    {
      var _ := SeedSeenSet(node, stored);
      ResetLog();
    }
  }
}
