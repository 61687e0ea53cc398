/**
  History transfers between wired peers: what a provider streams for a request,
  ingested by the requester's callback, is everything the requester lacks.
 */
module HistoryTransfers {
  import opened Clocks
  import opened Listing
  import opened Sequences
  import opened StoreModel
  import opened LocalMessageStores
  import opened Recovery
  import opened HeadlessPeers

  /** Every frame of the provider's answer is among the delivered messages, at least once. */
  ghost predicate Answered(provider: Disk, cursor: Clock, ms: seq<Message>) {
    forall i | 0 <= i < |Reply(provider, cursor)| :: Carries(ms, Reply(provider, cursor)[i])
  }

  ghost predicate Carries(ms: seq<Message>, frame: Content) {
    exists j | 0 <= j < |ms| :: ms[j].content == frame
  }

  lemma {:induction false} IsCarried(ms: seq<Message>, j: nat)
    requires j < |ms|
    ensures Carried(ms[j]) <= AllCarried(ms)
  {
    if j < |ms| - 1 {
      IsCarried(ms[..|ms| - 1], j);
    }
  }

  /** Each message above the cursor travels in some frame. */
  lemma InSomeFrame(provider: Disk, cursor: Clock, m: Message) returns (i: nat)
    requires m in Contents(provider) && m.Seq() > At(cursor, m.sender)
    ensures i < |Reply(provider, cursor)| && Reply(provider, cursor)[i].HistoryChunk?
    ensures m in ItemMessages(Reply(provider, cursor)[i].items)
  {
    ListedIffContained(provider, m);
    i := InSomeChunk(ReadAll(provider), cursor, HISTORY_CHUNK_SIZE, m);
    var ms := Split(Missing(ReadAll(provider), cursor), HISTORY_CHUNK_SIZE, 1)[i].messages;
    var k :| 0 <= k < |ms| && ms[k] == m;
    assert Batch(ms)[k] == Valid(m);
  }

  lemma CarriedFrame(ms: seq<Message>, frame: Content, m: Message)
    requires Carries(ms, frame) && frame.HistoryChunk? && m in ItemMessages(frame.items)
    ensures m in AllCarried(ms)
  {
    var j :| 0 <= j < |ms| && ms[j].content == frame;
    IsCarried(ms, j);
  }

  lemma FrameIsIngested(provider: Disk, cursor: Clock, ms: seq<Message>, m: Message)
    requires Answered(provider, cursor, ms) && m in Contents(provider) && m.Seq() > At(cursor, m.sender)
    ensures m in AllCarried(ms)
  {
    var i := InSomeFrame(provider, cursor, m);
    CarriedFrame(ms, Reply(provider, cursor)[i], m);
  }

  /**
    A transfer, end to end: a requester asks with a cursor its store covers,
    each provider streams its answer, and the requester's callback gets every
    frame at least once, in any order, among whatever else is delivered.  Then
    its store holds what it held, what was delivered besides, and every stamped
    message of every provider.
   */
  lemma TransferIsComplete(d: Disc, cursor: Clock, providers: seq<Disk>, ms: seq<Message>, w: set<Message>)
    requires DiscOk(d, w) && Consistent(w) && forall i | 0 <= i < |ms| :: InWorld(ms[i], w)
    requires GapFree(cursor, Contents(d.store.disk))
    requires forall p | p in providers :: Elems(Contents(p)) <= w && Answered(p, cursor, ms)
    ensures var after := Contents(OnMessages(d, ms).store.disk);
            && Elems(after) == Elems(Contents(d.store.disk)) + AllCarried(ms)
            && forall p, m | p in providers && m in Contents(p) && m.Seq() >= 1 :: m in Elems(after)
  {
    OnMessagesAdd(d, ms, w);
    forall p, m | p in providers && m in Contents(p) && m.Seq() >= 1
      ensures m in Elems(Contents(OnMessages(d, ms).store.disk))
    {
      assert m in Elems(Contents(p));
      if m.Seq() > At(cursor, m.sender) {
        FrameIsIngested(p, cursor, ms, m);
      } else {
        CoveredIsHeld(Contents(d.store.disk), cursor, w, m);
      }
    }
  }

  lemma RepliesDeliver(provider: Disk, cursor: Clock, ops: seq<Op>)
    requires forall i | 0 <= i < |Reply(provider, cursor)| ::
      Reply(provider, cursor)[i].HistoryChunk? && SaveBatch(Reply(provider, cursor)[i].items) in ops
    ensures Delivered(provider, cursor, HISTORY_CHUNK_SIZE, ops)
  {
    var chunks := Split(Missing(ReadAll(provider), cursor), HISTORY_CHUNK_SIZE, 1);
    forall i | 0 <= i < |chunks| ensures SaveBatch(Batch(chunks[i].messages)) in ops {
      assert Reply(provider, cursor)[i] == HistoryChunk(Batch(chunks[i].messages), chunks[i].isLast);
    }
  }

  /** The same across restarts of the requester: ingesting every frame sent makes recovery complete. */
  lemma RepliesCompleteRecovery(requester: Store, providers: seq<Disk>, ops: seq<Op>, w: set<Message>)
    requires Consistent(w) && AllMessages(ops) <= w && Elems(Contents(requester.disk)) <= w
    requires forall p | p in providers :: Elems(Contents(p)) <= w
    requires forall p, i | p in providers && 0 <= i < |Reply(p, Cursor(requester).0)| ::
      Reply(p, Cursor(requester).0)[i].HistoryChunk? && SaveBatch(Reply(p, Cursor(requester).0)[i].items) in ops
    ensures var after := Contents(RunOps(Cursor(requester).1, ops).disk);
            && UniqueIds(after) && Elems(after) == Elems(Contents(requester.disk)) + AllMessages(ops)
            && forall p, m | p in providers && m in Contents(p) && m.Seq() >= 1 :: m in Elems(after)
  {
    forall p | p in providers ensures Delivered(p, Cursor(requester).0, HISTORY_CHUNK_SIZE, ops) {
      RepliesDeliver(p, Cursor(requester).0, ops);
    }
    RecoveryIsComplete(requester, providers, HISTORY_CHUNK_SIZE, ops, w);
  }
}
