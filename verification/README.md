# PeerChat: causal broadcast, message store, membership

A Dafny model of the parts of PeerChat that have to agree with each other over
whole runs, and proofs of what they promise together.

- **Causal broadcast.** Nodes stamp messages with vector clocks, drop repeats,
  hold back what is not ready, cascade releases, flood copies to their peers and
  retry what was not acknowledged, over a network that loses, duplicates and
  reorders.
- **Message store and recovery.** An active log, numbered snapshots, compaction,
  rebuild after damage, in-memory indexes and a recovery cursor behave like one
  list; providers cut what a requester lacks into chunks; the clock is restored
  from the store after a crash.
- **Event-sourced membership.** A log, a guarded state machine, checkpoints,
  a routing table and a failure detector.
- **The offline checker.** A second statement of the delivery rule.

The state of each component is a datatype, its operations are functions on it,
and a class beside them carries the loops and in-place updates of the program;
each method's `ensures` ties the object's new state to the function of its old
one. Theorems about runs are about the functions. Time is a parameter of every
operation that reads a clock, and what the transport, the signer or the address
parser answers is a parameter too.

| file | contents |
|---|---|
| `Sequences.dfy` | elements, filters and subsequences |
| `Clocks.dfy` | clocks, stamps, readiness, legal delivery sequences, `VectorClock` |
| `HoldBack.dfy` | timeout flush and cascading drain, confluence, `HoldBackQueue` |
| `BroadcastNodes.dfy` | one node, conservation in all runs, `BroadcastNode` |
| `Network.dfy` | any number of nodes, causal safety, arrival-order independence, convergence |
| `CausalCheck.dfy` | the offline checker |
| `Flood.dfy` | one message flooding over a fixed topology |
| `RetryQueues.dfy` | sends, acknowledgements and overlapping flushes |
| `Listing.dfy` | deduplication and the stable timestamp sort |
| `StoreModel.dfy` | the store as a value, refinement of one list, cursors |
| `LocalMessageStores.dfy` | the store object, history chunks |
| `Recovery.dfy` | recovery between stores, end to end |
| `HeadlessPeers.dfy` | node and store wired together, crashes between callbacks, when the clock is covered by the store |
| `HistoryTransfers.dfy` | a history transfer from request to store |
| `OwnNumbers.dfy` | the numbers a peer gives its own messages over all its lives |
| `CausalLogs.dfy` | the causal log a running peer keeps, and when a stretch of it is clean |
| `RecoveredLogs.dfy` | logs cut during and after recovery |
| `Membership.dfy` | event log, snapshot, guards, joiner replay |
| `Durability.dfy` | checkpoints and recovery |
| `MembershipRouters.dfy` | the routing table |
| `Presence.dfy` | the failure detector |
| `Coordination.dfy` | the coordinator over whole runs: room, presence and router together |
| `Coordinators.dfy` | the log, snapshot and coordinator objects |

Some promises hold only under a condition the code does not check. For these the
model keeps the code as it is and states when the promise holds:

- Without timeouts the clock is covered by the store exactly when every stamped
  message delivered since the last start that is not chat has its number stored
  (`ClockIsCoveredIff`); a broadcast text that reads as a recovery request is counted
  and stored nowhere (`AbsorbedBroadcastRunsAhead`).
- A peer's numbers stay distinct up to its next crash exactly when its clock has
  reached every number it used (`NumbersStayDistinctIff`), and a crash leaves it so
  exactly when the store shows no sender gap and reaches those numbers
  (`CrashIsOrderlyIff`). With a gap it starts again from 1, and there is a run in
  which number 1 leaves twice (`NumberOneLeavesTwice`). `SendThenCrashReachesIff` gives
  the condition for one broadcast of each kind of content.
- Begun in agreement, the causal log of a quiet stretch is clean exactly when all
  its chat is stamped and no chat counts a broadcast absorbed before it
  (`StretchIsCleanIff`), and the accounted-for clock keeps step exactly when every
  stamped delivery is chat (`StretchKeepsStepIff`). A reset anchors a clean log
  exactly when the accounted-for clock equals the node's (`ResetIsCleanIffClocksAgree`);
  where broadcasts are chat that is exactly when the node's clock has reached every
  store cursor folded in since the process started (`CutIsCleanIff`), which holds once
  the syncs of a complete transfer have run (`RecoverySettles`).
- A hop limit of `ttl` covers a line exactly up to `ttl + 2` nodes
  (`LineIsCoveredIff`).
- Flushes for one peer may overlap. The queueing order survives exactly if
  acknowledgements go to the oldest running flush and failures come from the newest
  (`StepKeepsOrderIff`, `OrderIsKeptIff`).
- A checkpoint restores a room exactly when no member and no tail event has an
  empty public key, which JSON turns into an absent one (`RecoverRestoresIff`).
- A member that falls silent ends up DISCONNECTED exactly if it was ACTIVE,
  SUSPECTED or BACKFILLING; one that was JOINING is forgotten by presence and stays
  JOINING (`SilentMemberEnds`, `SilentJoinerIsForgotten`).
- `handle_leave` takes effect exactly for active and leaving members
  (`LeaveTakesEffectIff`); for a joining, backfilling or suspected member it logs
  two rejected events and stops tracking the member. Once a remote event has
  raised the log's term above 1, only gossip changes the room
  (`RaisedTermFreezesTheRoom`).
- A router attached to a running room starts out right exactly when no peer is
  between its two leave events (`AttachMirrorsIff`), and its catch-up replay of a
  rejected event does no harm exactly in the cases of `CatchUpIsHarmlessIff`.

## Model

| member | source | states |
|---|---|---|
| `Clocks.VectorClock.Increment` | distribution/vector_clock.py:19-20 | one entry goes up by one, all others stay |
| `Clocks.VectorClock.Merge` | distribution/vector_clock.py:22-24 | the loop computes the component-wise maximum |
| `Clocks.VectorClock.IsReady` | distribution/vector_clock.py:29-40 | true exactly for unstamped messages and for the sender's next message with all other dependencies counted |
| `Clocks.ReadyRaisesSenderByOne` | distribution/vector_clock.py:22-40 | merging a ready stamp raises exactly the sender's entry, by exactly one |
| `Clocks.LegalNumbersUnique` | distribution/vector_clock.py:29-40 | in any sequence of ready deliveries, sender and number identify a message |
| `Clocks.LegalHitsEveryNumber` | distribution/vector_clock.py:29-40 | a sender's entry never skips: each number up to the clock was a delivery |
| `Clocks.ClockCounts` | distribution/vector_clock.py:22-40 | along ready deliveries each clock entry is the number of messages delivered from that sender |
| `HoldBack.HoldBackQueue.FlushExpired` | distribution/vector_clock.py:61-77 | the timeout loop releases exactly the expired entries in queue order and merges their stamps |
| `HoldBack.FlushIsExact` | distribution/vector_clock.py:64-77 | the flush releases exactly the entries older than the timeout and keeps exactly the others, both in queue order |
| `HoldBack.DrainLeavesNoneExpired` | distribution/vector_clock.py:51-91 | what a drain leaves was in the queue as it is, arrival times included, in that order, and is not older than the timeout |
| `HoldBack.SweepReleasesInOrder` | distribution/vector_clock.py:79-91 | one sweep delivers in queue order |
| `HoldBack.HoldBackQueue.SweepOnce` | distribution/vector_clock.py:82-90 | one pass releases what is ready at the clock reached so far and keeps the rest in order |
| `HoldBack.HoldBackQueue.Drain` | distribution/vector_clock.py:51-91 | flush and repeated passes reach the fixpoint that the drain lemmas are about, and terminate |
| `HoldBack.DrainConserves` | distribution/vector_clock.py:51-91 | released and kept messages together are the queue, the clock is the join of the released stamps, and nothing left is ready, whatever expired |
| `HoldBack.DrainLegal` | distribution/vector_clock.py:79-91 | with nothing expired each released message was ready at its turn |
| `HoldBack.DrainIsMaximal` | distribution/vector_clock.py:79-91 | no legal order of queued messages could release anything the drain does not |
| `HoldBack.DrainIsConfluent` | distribution/vector_clock.py:79-91 | any two orderings of the queue release the same messages, keep the same messages and reach the same clock |
| `BroadcastNodes.BroadcastNode.Deduplicate` | distribution/broadcast_node.py:170-188 | true once per id, which is then seen |
| `BroadcastNodes.BroadcastNode.PeersExcluding` | distribution/broadcast_node.py:451-457 | exactly the peers other than this node and the originator, in list order |
| `BroadcastNodes.BroadcastNode.HandleArrival` | distribution/broadcast_node.py:242-275 | an arrival moves the node as `Receive` does, reports the deliveries, and forwards with one hop less exactly on first sight of plaintext with a positive hop limit |
| `BroadcastNodes.BroadcastNode.Broadcast` | distribution/broadcast_node.py:277-290 | a new signed message, saying what the caller said, is stamped, delivered locally and sent in every frame; an unsigned one is marked seen and leaves the clock alone |
| `BroadcastNodes.OriginationSays` | distribution/broadcast_node.py:277-290 | what is delivered has the caller's id, time and content, this node as sender, and the old clock with one more for this node; a repeated or unsigned draft changes at most the seen set |
| `BroadcastNodes.BroadcastNode.SyncVectorClock` | distribution/broadcast_node.py:164-168 | merge then drain |
| `BroadcastNodes.BroadcastNode.BackgroundDrain` | distribution/broadcast_node.py:402-412 | drains a non-empty queue |
| `BroadcastNodes.RunConserves` | distribution/broadcast_node.py:164-290 | over every run, timeouts and syncs included: delivered and held together are the accepted messages with distinct ids, and the clock is the component-wise maximum of delivered stamps and merged clocks |
| `BroadcastNodes.ExactlyOnce` | distribution/broadcast_node.py:242-290 | each accepted message is delivered once or held once and never both, and no other message there has its id |
| `BroadcastNodes.FirstArrivalIsAccepted` | distribution/broadcast_node.py:242-265 | in every run, a first arrival is accepted and then delivered or held, and no ready message stays held |
| `BroadcastNodes.ActionLeavesNoneExpired` | distribution/broadcast_node.py:164-265 | right after a first arrival, a sync or a background drain nothing held has waited longer than five seconds |
| `BroadcastNodes.HeldSinceArrival` | distribution/vector_clock.py:48-49 | in every run a held entry is an arrival of its message at its recorded time |
| `Network.ReachableInv` | distribution/broadcast_node.py:242-290 | the global invariant of N nodes holds in every run over a losing, duplicating, reordering network |
| `Network.StampCountsDeliveries` | distribution/broadcast_node.py:284-285 | a stamp's k-entry counts exactly the messages of k its sender had delivered |
| `Network.StampIdentifies` | distribution/broadcast_node.py:284-285 | sender and number identify a sent message network-wide |
| `Network.CausalSafety` | distribution/broadcast_node.py:242-290 | if m1 happened before m2, every node that delivered m2 delivered m1 earlier |
| `Network.OwnIncrementUnblocksNothing` | distribution/broadcast_node.py:284-287 | a node's own increment, which does not drain, never makes a held message ready |
| `Network.HeldMeansMissing` | distribution/broadcast_node.py:248-265 | if anything is held, some message it depends on has not reached the node |
| `Network.ClosedSetIsDelivered` | distribution/broadcast_node.py:248-265 | a node that accepted a causally closed set has delivered all of it, holds nothing, and its clock is the per-sender counts |
| `Network.ArrivalsAreAccepted` | distribution/broadcast_node.py:242-249 | with fresh ids, everything that arrived at a node in a run was accepted by it |
| `Network.ArrivalOrderIsIrrelevant` | distribution/broadcast_node.py:248-265 | whatever the order, repeats and own broadcasts, a causally closed set of arrivals ends up delivered |
| `Network.NodesConverge` | distribution/broadcast_node.py:242-290 | two nodes that have received everything sent hold nothing, agree on every clock entry and have delivered the same stamped messages |
| `CausalCheck.CheckPeerLog` | harness/causal_check.py:29-106 | the loop reports exactly the sender gaps, regressions and missing dependencies of the log, each once and in order, with the counts and final clock |
| `CausalCheck.CleanIffInOrder` | harness/causal_check.py:51-98 | no violation is reported if and only if each record is in order at the join of the baseline and all earlier records |
| `CausalCheck.CleanIffLegal` | harness/causal_check.py:51-98 | on a delivery log, clean means exactly: stamped, and ready by the node's own test |
| `CausalLogs.NotesTheChat` | deploy/peer_node.py:141-189 | without chunks the callbacks log and account for exactly the chat; requests pass by |
| `CausalLogs.ChatLogIsCleanIff` | deploy/peer_node.py:141-189 | the log of deliveries in causal order is clean if and only if all chat is stamped and no chat counts an absorbed broadcast delivered before it |
| `CausalLogs.StretchIsCleanIff` | deploy/peer_node.py:492-502 | the same for every quiet stretch of a running peer after a reset in agreement |
| `CausalLogs.KeepsStepIff` | deploy/peer_node.py:176-179 | delivery by delivery the accounted-for clock keeps step if and only if every stamped message delivered is chat |
| `CausalLogs.StretchKeepsStepIff` | deploy/peer_node.py:141-189 | the same for every quiet stretch of a running peer |
| `CausalLogs.ResetIsCleanIffClocksAgree` | deploy/peer_node.py:492-502 | a reset leaves every later quiet stretch of chat and direct requests clean if and only if the accounted-for clock agrees with the node's |
| `RecoveredLogs.LifeTracks` | deploy/peer_node.py:141-189 | over every life in which broadcasts are chat, with chunks, syncs, timeouts, crashes and resets, the accounted-for clock is the node's clock joined with the cursors folded in, and every scheduled sync is among them |
| `RecoveredLogs.CutIsCleanIff` | deploy/peer_node.py:407-429 | after every such life a reset, marking any ids as seen, leaves every later quiet stretch clean if and only if the node's clock has reached every cursor folded in |
| `RecoveredLogs.CutAnywhereIsClean` | deploy/peer_node.py:492-502 | so a log cut there is clean over every quiet stretch, scheduled syncs the clock covers included |
| `RecoveredLogs.RecoverySettles` | deploy/peer_node.py:141-172 | after a last chunk that leaves no sender gap, once no sync is pending the clocks agree and a reset anchors a clean log, whatever happened before and in between short of another chunk |
| `CausalLogs.PeerRuntime.OnMessage` | deploy/peer_node.py:141-189 | persist first; chat is logged and accounted for, a request is neither, a chunk joins the store's cursor |
| `CausalLogs.PeerRuntime.ResetLog` | deploy/peer_node.py:492-498 | the log is emptied and the baseline is the accounted-for clock |
| `CausalLogs.PeerRuntime.SeedSeenSet` | deploy/peer_node.py:338-368 | the loop marks exactly the given stored ids as seen |
| `CausalLogs.PeerRuntime.BeginCausalLog` | deploy/peer_node.py:407-423 | stored ids are marked as seen, then the log is reset |
| `CausalLogs.MarkedCopyIsDropped` | deploy/peer_node.py:338-368 | a retried copy of a message marked at the cut is noticed by neither node, store nor log |
| `CausalLogs.SeededCopyIsDropped` | deploy/peer_node.py:338-368 | nor is a copy of one marked at a restart |
| `Flood.ForwardsAtMostOnce` | distribution/broadcast_node.py:184-188 | in every run, lossy and duplicating included, no node forwards a message twice, and the sends are the forwarders' degrees |
| `Flood.MeasureDecreases` | distribution/broadcast_node.py:267-271 | every delivery or loss lowers the pair (nodes that have not seen it, copies in flight) |
| `Flood.RunsAreBounded` | distribution/broadcast_node.py:267-300 | without retries a run takes at most one step per copy and sends at most N times the degree |
| `Flood.FloodCovers` | distribution/broadcast_node.py:267-300 | if nothing is lost and N <= ttl + 2, at quiescence everything reachable from the originator has seen the message, on any topology |
| `Flood.Horizon` | distribution/broadcast_node.py:267-271 | no node more than ttl + 1 hops away ever sees it |
| `Flood.LineIsCoveredIff` | distribution/broadcast_node.py:267-290 | on a line the hop limit suffices if and only if the line has at most ttl + 2 nodes |
| `Flood.MeshBound` | README.md:384-386 | a broadcast in a full mesh costs at most (N-1)^2 sends |
| `Flood.MeshCost` | README.md:384-386 | and exactly (N-1)^2 when nothing is lost and the hop limit is at least N-1 |
| `RetryQueues.RetryConserves` | distribution/broadcast_node.py:302-352 | under any interleaving of sends and flushes the acknowledged, queued and held messages are exactly the prepared ones |
| `RetryQueues.ExactlyOnePlace` | distribution/broadcast_node.py:424-447 | a message prepared once is in exactly one of those places |
| `RetryQueues.StepKeepsOrderIff` | distribution/broadcast_node.py:424-447 | however many flushes overlap, a step keeps the queueing order if and only if it acknowledges to the oldest flush or fails the newest |
| `RetryQueues.OrderIsKeptIff` | distribution/broadcast_node.py:414-447 | over a run of distinct messages the order is kept throughout if and only if every step is of that kind |
| `RetryQueues.OrderIsPreserved` | distribution/broadcast_node.py:424-447 | so with one flush at a time the queue is first in, first out through failures and requeues |
| `RetryQueues.OverlappingFlushesReorder` | distribution/broadcast_node.py:414-447 | with two at once the queue can be turned around |
| `RetryQueues.RetryQueue.SendWithRetry` | distribution/broadcast_node.py:302-352 | success exactly if a wire form exists and one of three attempts is acknowledged; otherwise queued, when asked and preparable, behind whatever other tasks made of the queue during the awaits |
| `RetryQueues.RetryQueue.FlushPeerRetryQueue` | distribution/broadcast_node.py:424-447 | sends up to the first failure; the rest goes back in front of whatever other sends and flushes made of the queue meanwhile |
| `Listing.SortIsStable` | message_history/storage/local_message_store.py:548-559 | the sort is ordered, a permutation, and keeps the order of equal timestamps |
| `Listing.StableSortIsUnique` | message_history/storage/local_message_store.py:548-559 | those three facts determine the result |
| `Listing.DedupeKeepsFirst` | message_history/storage/local_message_store.py:561-568 | exactly the first message of every id is kept, where it stands |
| `StoreModel.StoreIsOneList` | message_history/storage/local_message_store.py:176-244 | over every run of saves, batches, compactions, rebuilds, cursor requests and reopenings, reads are the stable sort of one list with distinct ids and the indexes are a full rescan |
| `StoreModel.ReorganisingIsInvisible` | message_history/storage/local_message_store.py:381-477 | compaction and rebuild change no read and no index |
| `StoreModel.RunKeepsNumbersAscending` | message_history/storage/local_message_store.py:651-666 | snapshot numbers stay strictly ascending, so none is overwritten |
| `StoreModel.DescribesUnique` | message_history/storage/local_message_store.py:683-693 | the meaning of the indexes determines them, whatever order files were read in |
| `StoreModel.CursorIsGapFree` | message_history/storage/local_message_store.py:704-733 | whatever is on disk, the cursor is empty or every number up to it is readable |
| `StoreModel.CursorIsEmptyIff` | message_history/storage/local_message_store.py:704-717 | it is empty exactly when nothing is numbered or some sender's numbers have a hole |
| `StoreModel.CursorLeavesForceIff` | message_history/storage/local_message_store.py:704-717 | handing out a cursor leaves the force flag up exactly while some sender has a hole |
| `StoreModel.RepairRaisesIff` | message_history/storage/local_message_store.py:100-157 | after a repair each flag is up if and only if it was, or a line is garbled, a listed snapshot yields fewer messages than it names, a number between two listed snapshots is missing, a sender has a hole, or a known id is no longer readable |
| `StoreModel.ReopenRaisesIff` | message_history/storage/local_message_store.py:40-98 | the same on opening, from the stored flags and ids |
| `StoreModel.NextSaveTidies` | message_history/storage/local_message_store.py:176-209 | the next new message saved while a rebuild is due, leaving no sender gap, rewrites all files whole, numbered from 1, with both flags down and nothing suspicious left |
| `StoreModel.NextSaveWaits` | message_history/storage/local_message_store.py:428-431 | with a sender gap it is appended, nothing is rewritten and the flags stay |
| `StoreModel.BatchTidies` | message_history/storage/local_message_store.py:240-244 | a batch ends with the rebuild if it is still due, even when it brought nothing new |
| `StoreModel.SaveCompactsIff` | message_history/storage/local_message_store.py:381-426 | otherwise the log is compacted exactly when it has reached the threshold, all of it becoming one new snapshot numbered above every other |
| `LocalMessageStores.LocalMessageStore.RepairIndexes` | message_history/storage/local_message_store.py:100-157 | the indexes become a rescan of what is readable, and each flag is raised exactly by the signs of damage `RepairRaisesIff` names |
| `LocalMessageStores.LocalMessageStore.Save` | message_history/storage/local_message_store.py:176-209 | a known id changes nothing; a new one is appended, indexed, and may trigger compaction or rebuild |
| `LocalMessageStores.LocalMessageStore.SaveMany` | message_history/storage/local_message_store.py:211-244 | the batch is saved element by element, malformed ones skipped; saved counts the new ids, invalid the malformed, duplicates the rest |
| `StoreModel.SavedIsGrowth` | message_history/storage/local_message_store.py:211-244 | the saved count is by how much the stored list grows |
| `LocalMessageStores.LocalMessageStore.CompactActiveLog` | message_history/storage/local_message_store.py:381-418 | the active log moves into the next snapshot |
| `LocalMessageStores.LocalMessageStore.MaybeRebuildSnapshots` | message_history/storage/local_message_store.py:428-477 | without sender gaps all files are rewritten from what is readable |
| `LocalMessageStores.LocalMessageStore.GetLatestVectorClock` | message_history/storage/local_message_store.py:704-717 | repair, then the empty cursor under a forced full recovery with gaps, else the latest numbers |
| `LocalMessageStores.LocalMessageStore.GetMissingSince` | message_history/storage/local_message_store.py:303-326 | the filter over the listing, in listing order |
| `LocalMessageStores.MissingMembers` | message_history/storage/local_message_store.py:303-326 | exactly the stored messages numbered above the given clock |
| `LocalMessageStores.LocalMessageStore.BuildHistoryChunks` | message_history/storage/local_message_store.py:328-360 | a non-positive size is refused; otherwise the missing messages cut into pieces |
| `LocalMessageStores.HasSenderSequenceGaps` | message_history/storage/local_message_store.py:719-733 | true exactly when some sender's numbers do not run from 1 without a hole |
| `LocalMessageStores.SplitJoins` | message_history/storage/local_message_store.py:328-360 | the chunks put together are the missing messages |
| `LocalMessageStores.SplitShape` | message_history/storage/local_message_store.py:328-360 | chunks are numbered consecutively, neither empty nor too big, and exactly the last is marked last |
| `Recovery.IngestExactly` | message_history/storage/recovery_stream.py:172-188 | after any run the store holds the old contents and everything ingested, each id once |
| `Recovery.RecoveryIsComplete` | message_history/storage/recovery_stream.py:47-188 | after ingesting each provider's chunks for its cursor, in any order, with repeats, live saves and restarts, the requester holds everything it had and every stamped message of every provider, each once |
| `HeadlessPeers.NodeWiring.StreamMissingHistory` | message_history/storage/recovery_stream.py:47-88 | one frame per chunk of what the requester lacks, in order |
| `HeadlessPeers.ReplyIsTheMissingHistory` | message_history/storage/recovery_stream.py:62-79 | the frames, of one to a hundred messages each and only the last marked last, put together are exactly the stored messages numbered above the cursor, in listing order |
| `HistoryTransfers.TransferIsComplete` | message_history/storage/recovery_stream.py:47-188 | a requester whose callback gets every frame the providers stream for its cursor, in any order and among other deliveries, holds every stamped message of every provider |
| `HistoryTransfers.RepliesCompleteRecovery` | message_history/storage/recovery_stream.py:47-188 | the same across restarts of the requester, each message once |
| `HeadlessPeers.NodeWiring.HandleHistoryChunk` | message_history/storage/node_setup.py:52-60 | a chunk, malformed elements included, is saved as a batch, and the last one schedules a sync with the new cursor |
| `HeadlessPeers.NodeWiring.HandleStorageMessage` | message_history/storage/node_setup.py:46-68 | chat is saved, a request is answered, a chunk is ingested |
| `HeadlessPeers.NodeWiring.OnDelivered` | deploy/peer_node.py:141-172 | the wiring handles the message, and after a chunk the store's clock is read back |
| `HeadlessPeers.OnMessageAdds` | deploy/peer_node.py:141-172 | the callback adds exactly what the message carries, and every scheduled sync stays covered by the store |
| `HeadlessPeers.SentChatIsStored` | distribution/broadcast_node.py:284-290 | what the caller asked to send is what the peer delivers, stores, counts as its own and hands over for forwarding |
| `HeadlessPeers.ClockIsCoveredIff` | message_history/storage/node_setup.py:39-68 | over every run without timeouts, with any contents, recovery, syncs and crashes after any number of callbacks, each (s, k) up to the clock is stored if and only if every stamped non-chat delivery since the last start has its number stored |
| `HeadlessPeers.ClockNeverAheadOfStore` | message_history/storage/node_setup.py:39-68 | so where all broadcasts are chat the clock never runs ahead of the store |
| `HeadlessPeers.AbsorbedBroadcastRunsAhead` | message_history/storage/node_setup.py:52-61 | a broadcast read as a recovery request puts the clock ahead of an empty store |
| `OwnNumbers.NoNumberReused` | distribution/broadcast_node.py:277-290 | over every life with any contents, timeouts and crashes between any two callbacks, if each crash leaves a store without sender gaps that reaches the numbers used, two messages that reached the wire under one number are the same |
| `OwnNumbers.NoChatNumberReused` | distribution/broadcast_node.py:277-290 | for a peer whose own broadcasts are chat a store without sender gaps is enough, and each message that left is stored |
| `OwnNumbers.CrashIsOrderlyIff` | deploy/peer_node.py:221-249 | a crash keeps the numbers in order if and only if the store it leaves shows no sender gap and reaches every number used, or none was used |
| `OwnNumbers.NumbersStayDistinctIff` | distribution/broadcast_node.py:284-285 | every life up to the next crash keeps the numbers distinct if and only if the clock has reached every number used |
| `OwnNumbers.NumberAfterDyingInSend` | distribution/broadcast_node.py:284-289 | dying before the callback brings the number back, dying after it does not: persisting before forwarding is what keeps numbers unique |
| `OwnNumbers.RestartReachesIff` | deploy/peer_node.py:221-249 | after a crash the restored clock has reached every number used if and only if there is no sender gap or nothing was sent |
| `OwnNumbers.GapRepeatsNumberOne` | message_history/storage/node_setup.py:39-43 | with a gap the next message reuses number 1 |
| `OwnNumbers.NumberOneLeavesTwice` | message_history/storage/node_setup.py:39-43 | a run from an empty store, with one timeout release, in which number 1 leaves on two messages |
| `OwnNumbers.SendThenCrashReachesIff` | message_history/storage/node_setup.py:46-68 | after a broadcast of any content and a crash, the exact condition under which the restored clock has reached its number |
| `Membership.RunConsistent` | peer_discovery/membership/snapshot.py:84-105 | in every sequential run the log tail beyond `asOf` holds only events rejected in the current state |
| `Membership.OldEventsAreIgnored` | peer_discovery/membership/snapshot.py:84-87 | an event already covered is ignored, so applying an event twice changes nothing |
| `Membership.DeltaTellsTheState` | peer_discovery/membership/snapshot.py:122-186 | a delta announces the state its member is in, and only the start of a backfill and of a leave change a state silently |
| `Membership.RecordAfter` | peer_discovery/membership/snapshot.py:122-186 | a join writes the record afresh, nothing else touches name, key or joining time, heartbeats and reconnections renew the last heartbeat, and nobody else's record moves |
| `Membership.JoinerReplayEqualsSeed` | peer_discovery/membership_integration/coordinator.py:379-414 | replaying a seed's complete log into an empty room gives its member table, version and `asOf`, rejected events included |
| `Membership.ReplayIsExactIff` | peer_discovery/membership/models.py:94-119 | sent as JSON, the tables are equal if and only if no member has an empty public key |
| `Durability.RecoveredRoom` | peer_discovery/membership/durability.py:116-134 | the replay in recovery changes nothing: the recovered room is the checkpointed snapshot and tail |
| `Durability.RecoverRestoresIff` | peer_discovery/membership/durability.py:48-72 | recovery restores the room if and only if no member and no tail event has an empty public key |
| `Durability.SortBySeqSorts` | peer_discovery/membership/durability.py:121-122 | whatever order a file lists its tail in, it is replayed by number, no event lost or added |
| `Durability.RecoveredReactsAlike` | peer_discovery/membership/durability.py:100-134 | original and recovered room give the same snapshots, numbers, terms and later events for every further input sequence |
| `Durability.AlikeStep` | peer_discovery/membership/snapshot.py:84-105 | alike rooms refuse, record and notify alike |
| `Durability.CheckpointIsTransparent` | peer_discovery/membership/durability.py:48-134 | run, checkpoint, crash, recover and run on: indistinguishable from not crashing |
| `Durability.CyclesAreTransparent` | peer_discovery/membership/durability.py:48-134 | the same for any number of checkpoints and crashes, as long as no caller hands over an empty public key |
| `Durability.DurabilityManager.ForceCheckpoint` | peer_discovery/membership/durability.py:43-72 | exactly the two newest files are kept, and the new checkpoint is among them exactly when fewer than two files have higher numbers |
| `Durability.PutFileMembers` | peer_discovery/membership/durability.py:62-70 | writing a checkpoint replaces the file of its number and keeps every other |
| `Durability.DurabilityManager.Recover` | peer_discovery/membership/durability.py:100-114 | the newest readable checkpoint is used; none only if all are corrupt |
| `Durability.DurabilityManager.ReconstructRoom` | peer_discovery/membership/durability.py:116-134 | the replay loop computes the reconstruction |
| `Coordinators.MembershipEventLog.Append` | peer_discovery/membership/event_log.py:46-79 | a stale term is refused with the log unchanged; otherwise an event with exactly the given fields, the next number and the term is added |
| `Coordinators.MembershipEventLog.AppendRemote` | peer_discovery/membership/event_log.py:81-104 | a remote event keeps its fields under a fresh local number, and can raise the term |
| `Coordinators.MembershipEventLog.GetEventsSince` | peer_discovery/membership/event_log.py:106-108 | exactly the later events, in order |
| `Coordinators.MembershipSnapshot.Apply` | peer_discovery/membership/snapshot.py:84-186 | old and invalid events change nothing; a valid one moves its member, the version and `asOf`, and yields its delta |
| `Coordinators.MembershipCoordinator.HandleJoin` | peer_discovery/membership_integration/coordinator.py:102-192 | duplicates change nothing; refused joins are logged and subscribers told; accepted ones are applied, told and tracked |
| `Coordinators.MembershipCoordinator.HandleLeave` | peer_discovery/membership_integration/coordinator.py:194-211 | the whole effect on room, presence, subscribers and router, refused appends included |
| `Coordination.LeaveTakesEffectIff` | peer_discovery/membership_integration/coordinator.py:194-211 | leaving ends in LEFT if and only if the member was active, leaving or already left; in the other present states it keeps its state, gets two rejected events and is untracked |
| `Coordination.RaisedTermFreezesTheRoom` | peer_discovery/membership/event_log.py:57-61 | above term 1 no join, leave, heartbeat, backfill or tick changes the room, reaches a subscriber or moves the router |
| `Coordination.FreezeIsForGood` | peer_discovery/membership/event_log.py:81-86 | gossip never lowers the term, so this holds after every later run |
| `Coordination.RaisedTermFreezesTracking` | peer_discovery/membership/event_log.py:57-61 | nor does anything but gossip start or end the tracking of a member then |
| `Coordination.JoinTakesEffectIff` | peer_discovery/membership_integration/coordinator.py:151-192 | an accepted join from an absent, left or disconnected state makes a JOINING member with the given name and key, on hold and told; from any other state only a rejected event is logged; the entry is fresh exactly if the user is not local |
| `Coordination.RefusedJoinIsOnlyTold` | peer_discovery/membership_integration/coordinator.py:114-149 | a duplicate does nothing; a refused join is logged and told, and changes no member, entry or route |
| `Coordination.BackfillTakesEffectIff` | peer_discovery/membership_integration/coordinator.py:225-251 | starting moves JOINING to BACKFILLING, completing moves BACKFILLING to ACTIVE and makes a peer routable, and neither does anything else |
| `Coordination.HeartbeatRenews` | peer_discovery/membership_integration/coordinator.py:213-223 | an ordinary heartbeat renews record and presence entry, moves no state and tells nobody |
| `Coordination.GossipTakesEffect` | peer_discovery/membership_integration/coordinator.py:379-403 | a gossiped event leads its user to the state the guards allow, with a fresh entry exactly for joins and heartbeats |
| `Coordination.PresenceChangeIsLogged` | peer_discovery/membership_integration/coordinator.py:313-344 | what presence reports of a known member is logged under its name with source presence |
| `Coordination.LeaveIsLogged` | peer_discovery/membership_integration/coordinator.py:194-211 | a leave is logged under the member's name: the request unless it was leaving already, then the confirmation |
| `Coordination.SweptIsLogged` | peer_discovery/membership_integration/coordinator.py:288-311 | a swept member's timeout is logged under its name |
| `Coordination.TableFollowsTold` | peer_discovery/membership_integration/notifier.py:44-52 | over every run the router's table is what the events subscribers were told make of it |
| `Coordination.SilentMemberEnds` | peer_discovery/membership_integration/coordinator.py:276-344 | at term 1, with ticks at most d apart, a silent tracked member is untracked within interval * missed + grace + 2d, and is DISCONNECTED and unrouted if and only if it was ACTIVE, SUSPECTED or BACKFILLING |
| `Coordination.SilentActiveMemberIsDropped` | peer_discovery/membership_integration/coordinator.py:313-344 | so a silent active member ends disconnected, untracked and in neither routing set |
| `Coordination.SilentJoinerIsForgotten` | peer_discovery/membership_integration/coordinator.py:313-344 | a silent joining member gets two rejected events, is untracked and stays JOINING and on hold |
| `Coordination.FiredTimeoutTakesEffectIff` | peer_discovery/membership/snapshot.py:40-52 | a fired timeout changes the state exactly in SUSPECTED and BACKFILLING and untracks in every state |
| `Coordination.HeartbeatRevives` | peer_discovery/membership_integration/coordinator.py:213-223 | a suspect's heartbeat makes it active exactly if the room had it SUSPECTED |
| `Coordination.SweepsView` | peer_discovery/membership_integration/coordinator.py:288-311 | exactly the members backfilling for more than 30 s become disconnected and untracked, with one event each |
| `Coordination.SweepDisconnectsIff` | peer_discovery/membership_integration/coordinator.py:288-311 | over all members, the sweep disconnects and untracks a member if and only if it is backfilling and joined more than thirty seconds ago |
| `Coordination.RunIsFine` | peer_discovery/membership_integration/coordinator.py:102-344 | over every run of all handlers at term 1 the subscribed router mirrors the room |
| `Coordinators.MembershipCoordinator.HandleHeartbeat` | peer_discovery/membership_integration/coordinator.py:213-223 | a known member's heartbeat, then its reconnection exactly if presence held it suspect |
| `Coordinators.MembershipCoordinator.HandleBackfill` | peer_discovery/membership_integration/coordinator.py:225-251 | start and completion act only in the state they need |
| `Coordinators.MembershipCoordinator.HandlePresenceChange` | peer_discovery/membership_integration/coordinator.py:313-344 | the matching event for a known member; a timeout ends tracking |
| `Coordinators.MembershipCoordinator.SweepBackfillTimeouts` | peer_discovery/membership_integration/coordinator.py:288-311 | the loop is the sweep over the members in some order, ended by an exception if the term has moved |
| `Coordinators.MembershipCoordinator.CheckLiveness` | peer_discovery/membership/presence.py:64-77 | the liveness loop with the coordinator's callbacks, over the entries in some order |
| `Coordinators.MembershipCoordinator.DoTick` | peer_discovery/membership_integration/coordinator.py:278-286 | check, then sweep, each listing every entry once |
| `Coordinators.MembershipCoordinator.ApplyRemoteEvent` | peer_discovery/membership_integration/coordinator.py:379-403 | append under a local number, apply, tell subscribers, and give joins and heartbeats a fresh presence entry |
| `Coordinators.MembershipCoordinator.ApplyRemoteSnapshot` | peer_discovery/membership_integration/coordinator.py:405-414 | the loop is the replay of the joiner theorem in the room, and the fold of single events for presence, subscribers and router |
| `MembershipRouters.MembershipRouter.OnMembershipEvent` | distribution/membership_router.py:115-218 | each handler moves the user between active and hold as the table function says |
| `MembershipRouters.MembershipRouter.LoadMembers` | distribution/membership_router.py:67-96 | both sets are filled from the members' states, self and unreadable ids left out |
| `MembershipRouters.RouterMirrorsRoom` | distribution/membership_router.py:115-218 | over every sequential run active is exactly the peers in ACTIVE or LEAVING, hold exactly those in JOINING, BACKFILLING or SUSPECTED, at the right addresses, disjoint and without self |
| `MembershipRouters.FreshRouterMirrors` | distribution/membership_router.py:67-103 | the same from a fresh room |
| `MembershipRouters.AttachMirrorsIff` | distribution/membership_router.py:67-96 | an attached router starts out right if and only if no peer is LEAVING |
| `MembershipRouters.CatchUpIsHarmlessIff` | peer_discovery/membership_integration/coordinator.py:256-273 | replaying a rejected event leaves the table alone exactly in the listed states |
| `MembershipRouters.HarmlessTailKeepsMirror` | peer_discovery/membership_integration/coordinator.py:256-273 | a catch-up over rejected events that are harmless or about strangers changes nothing |
| `MembershipRouters.RejectedJoinInTailDemotes` | peer_discovery/membership_integration/coordinator.py:256-273 | a rejected second join in the catch-up range takes an active peer out of routing |
| `Presence.TimeoutMeansSilence` | peer_discovery/membership/presence.py:64-77 | a timeout fires only if the member has been silent for more than interval * missed + grace |
| `Presence.SilenceIsDetected` | peer_discovery/membership/presence.py:64-77 | with checks at most d apart a silent member is timed out within interval * missed + grace + 2d |
| `Presence.PresenceManager.RecordHeartbeat` | peer_discovery/membership/presence.py:53-62 | a tracked member is heard of, and a suspicion ends exactly if there was one |
| `Presence.PresenceManager.CheckLiveness` | peer_discovery/membership/presence.py:64-77 | the loop suspects and times out exactly the members the rule names |

## Left out

- Transport, handshakes, DNS, Kubernetes, the web interface, drivers and chaos scripts: input and output without a hard property; a send is a copy that may be lost, repeated or acknowledged.
- Signing, encryption and key storage: whether a message can be signed or prepared for a peer, and whether its content is encrypted, are parameters.
- JSON, gzip, checksums, fsync, byte offsets and a crash in the middle of a rebuild: files are sequences of messages with a readable flag; a chat text that is JSON but not an object is outside the content model.
- Snapshot file names: kept in number order, which is file-name order for automatic names below 10000; caller-chosen names are not modelled.
- `get_recent` and its treatment of the limit: a slice of the listing.
- Clock values that are not natural numbers, and the rounding of times: stamps are naturals and times are reals.
- Shortened keys in the delivery log: taken to be injective, so the log uses the full node names.
- Causal order through the timeout release or after a sync that overtakes held messages: the code gives order up there, so only conservation and clock facts are stated.
- Unstamped direct messages in ordering claims: they are delivered at once and never move the clock.
- Hop limits inside stored messages: the limit belongs to the frame, not to the message.
- The clock is read once per handler: an event's timestamp and the presence time of the same call are equal.
- A crash in the middle of one save: a callback has either run or not.
- HandleJoin: duplicate detection, the join validator, tracing and the history handler are parameters or absent.
- ForceCheckpoint: the directory is one room's files, newest first, and removing a file succeeds; the rule of writing every hundredth event adds nothing to it.
- Convergence of member tables by gossip of single events: two event types are never gossiped, so it does not hold.
- Catch-up subscriptions over ranges with harmful rejected events: only the cases in which they do no harm, and one in which they do.
- Threads racing on one log and snapshot: the single-writer discipline is kept.
- Tracer, latency percentiles and demos.
