# go-graphsync: a verified model of its state-keeping cores

GraphSync moves graphs of content-addressed blocks between peers. This project models the
parts of go-graphsync that keep state across calls and threads, and proves what they keep.
`dafny verify dfyconfig.toml` checks all of it.

**Requestor.** A traversal record is a trie of the links loaded so far (`Trie`), and a
verifier replays it against the remote's metadata (`Verifier`). Both are also proved as the
mutable objects they are, with the verifier holding nodes of a record that still grows
(`TraversalRecords`). The remote's items wait in a linked list whose nodes are recycled
(`RemoteQueues`). The reconciled loader takes each load from the remote's items or the local
store (`Loaders`), and is proved to refine a plain walk of the tree (`LoaderRefinement`).
`LoaderObjects` puts the record, the live verifier and the linked queue together, and
`RequestLoaders` any number of them, with one pool of recycled nodes as the process has it;
they refine the value-level loaders over whole runs. A load that used the remote and is
retried can recycle a node in use, and so mix up the items of its own request and of others
(`RecycledNodeMixesItems`, `RecycledNodeReachesOthers`) and leave a list on which `clear` does
not end (`MixedQueue`). What is promised of the stores is therefore promised of runs in which
no request does that. The path tracker compares only path lengths, so the refinement holds
exactly when the walk fits those lengths (`Fits`): always when every edge adds the same number
of segments, and not on the tree of `UnevenEdgesDoNotFit`.

**Outgoing memory.** The allocator limits memory per peer and in all (`Allocator`); message
builders and queues batch transactions, send them and scrub them after errors
(`MessageBuilders`, `MessageQueues`). `OutgoingMemory` puts them together: queued, in-flight
and granted bytes are always covered by what is allocated. It is an inequality: extension
sizes are allocated and never released, and a scrub reports only the last builder's bytes.

**Responder.** The manager's messages and the executors' steps are one state machine over
requests that are queued, running, paused or completing (`ResponseLifecycle`). Blocks are
sent once per group of requests (`LinkTrackers`, `PeerLinkTrackers`), set up for each new
request by its preparation (`PreparedQueries`).

**Small protocols.** The traverser's mutex, locked by one thread and unlocked by another
(`Traversers`); the notification registry and its command loop (`Notifications`); and the
translation of version 2 messages to and from their wire structures (`MessageV2`).

How it is modelled:

- Code that changes state in place is a class whose methods are proved to change an abstract
  value as a function says; the properties are then proved of the functions, over whole runs.
- Threads, channels and mutexes are steps of a state machine. A step is what one thread does
  under one lock, on one channel or to an unshared variable. A run is any sequence of enabled
  steps.
- The ownership of the traverser's mutex is not stored: it is read off where each thread is,
  and proved to agree with the one bit that the mutex has.
- Lemmas with a proof carry `{:induction false}`: no proof rests on automatic induction.
- Maps are iterated in an arbitrary order, as Go does.
- CIDs, path segments, peers and request IDs are opaque and only compared; the round trip
  models request IDs as bytes and derives CIDs from a prefix and data by an arbitrary scheme,
  of which it asks only that a derived CID is derived again from its own prefix.
- The priority queue is a set of peers; Peek returns any peer with none before it.
- Sizes and totals are unbounded. The limit checks are modelled with the wrapping uint64
  addition, and are proved to be right exactly outside of the wrapping window.
- Hook results, the outcome of every send, the refusals of the local store and what the
  traversal does between two loads are arbitrary inputs.

Where the comments of the source and its code differ, the model follows the code. The main
cases: `retryLast` does not always keep the queue behind the item that it puts back
(`RetryLast`), and going online with a record refuses it (`RemoteRetryIsRefused`);
`BlockSize` counts a block again that is sent again (`SizeIsRightIff`);
`scrubResponses` reports the last builder's freed bytes only (`ReportIsExactIff`).

## Model

| member | source | states |
|---|---|---|
| `Trie.InsertKeepsShape` | requestmanager/reconciledloader/traversalrecord/traversalrecord.go:35-50 | recording any step in a well-shaped record keeps sibling segments distinct and every leaf linked |
| `Trie.BuildIsRecorded` | requestmanager/reconciledloader/traversalrecord/traversalrecord.go:27-50 | every record that a sequence of steps can build has that shape, so AllLinks meets no linkless leaf once something is recorded |
| `Trie.InsertLookup` | requestmanager/reconciledloader/traversalrecord/traversalrecord.go:35-50 | recording changes the lookup at its own path, to the new link and success, and at no other path |
| `Trie.AllLinksIsWalk` | requestmanager/reconciledloader/traversalrecord/traversalrecord.go:53-65 | AllLinks is the links of the pre-order walk |
| `Trie.GetLinksIsSlice` | requestmanager/reconciledloader/traversalrecord/traversalrecord.go:68-92 | for every non-empty path GetLinks is the contiguous slice of AllLinks holding exactly the visits at or below that path; empty when there are none |
| `Trie.RecordInOrder` | requestmanager/reconciledloader/traversalrecord/traversalrecord.go:35-65 | the walk of a record is the sequence of recorded steps if and only if they were recorded in pre-order |
| `Trie.AllLinksOfRecord` | requestmanager/reconciledloader/traversalrecord/traversalrecord.go:53-65 | recorded in pre-order, AllLinks is the recorded link sequence |
| `Trie.WalkPreOrder` | requestmanager/reconciledloader/traversalrecord/traversalrecord.go:53-65 | the paths of every walk are themselves in pre-order: no repeats, no path before its own prefix, shared prefixes contiguous |
| `Verifier.AcceptsExactlyCutWalks` | requestmanager/reconciledloader/traversalrecord/traversalrecord.go:97-182 | over every record and every stream of items, the accepted streams are exactly the prefixes of the pre-order walk with the subtrees of unfollowed items cut out, no followed item on an unsuccessful record |
| `Verifier.AfterPrefix` | requestmanager/reconciledloader/traversalrecord/traversalrecord.go:147-182 | after any matching prefix: Done iff the walk is exhausted; CurrentPath is where the next link was recorded; the next item is accepted, refused as incorrect or refused as additional data in exactly the stated cases |
| `Verifier.AcceptShrinks` | requestmanager/reconciledloader/traversalrecord/traversalrecord.go:122-145 | every accepted item strictly shortens the walk that is left |
| `Verifier.AllFollowedIsAllLinks` | requestmanager/reconciledloader/traversalrecord/traversalrecord.go:165-182 | on an all-successful record with all items followed, the runs that end in Done are exactly AllLinks |
| `Verifier.StepRemaining` | requestmanager/reconciledloader/traversalrecord/traversalrecord.go:116-145 | one accepted item moves the verifier one visit along the remaining walk |
| `Verifier.RereadLive` | requestmanager/reconciledloader/traversalrecord/traversalrecord.go:97-145 | a verifier points into a record that goes on growing: after a step is recorded its stack, with its nodes as they are now, is again a verifier's stack of the record at the same path |
| `Verifier.LiveVerifierIsNew` | requestmanager/reconciledloader/traversalrecord/traversalrecord.go:101-107 | a verifier made before a step is the one that would be made after it if and only if the step leaves the first link of the record where it is |
| `Verifier.LiveVerifierMissesStep` | requestmanager/reconciledloader/traversalrecord/traversalrecord.go:101-120 | otherwise it has the walk of the record without the step left to verify, or counts as done if the record was empty |
| `TraversalRecords.TraversalRecord.constructor` | requestmanager/reconciledloader/traversalrecord/traversalrecord.go:27-31 | a new node is the empty record |
| `TraversalRecords.TraversalRecord.RecordNextStep` | requestmanager/reconciledloader/traversalrecord/traversalrecord.go:35-50 | the recursive in-place update changes the represented record as the value-level insertion does, keeps the nodes a tree and leaves every node that was there where it was |
| `TraversalRecords.TraversalRecord.CollectLinks` | requestmanager/reconciledloader/traversalrecord/traversalrecord.go:53-65 | collecting over the nodes gives AllLinks of the represented record |
| `TraversalRecords.TraversalRecord.LinksAt` | requestmanager/reconciledloader/traversalrecord/traversalrecord.go:68-92 | the descent over the nodes gives GetLinks of the represented record |
| `TraversalRecords.ReplayVerifier.constructor` | requestmanager/reconciledloader/traversalrecord/traversalrecord.go:101-107 | a new verifier stands at the first link |
| `TraversalRecords.ReplayVerifier.AppendUntilLink` | requestmanager/reconciledloader/traversalrecord/traversalrecord.go:116-120 | pushes first children up to the first link, as the value-level descent does |
| `TraversalRecords.ReplayVerifier.NextLink` | requestmanager/reconciledloader/traversalrecord/traversalrecord.go:122-145 | moves the stack to the next link, into or past the children of the tip |
| `TraversalRecords.ReplayVerifier.CurrentPath` | requestmanager/reconciledloader/traversalrecord/traversalrecord.go:147-159 | the path of the represented stack |
| `TraversalRecords.ReplayVerifier.Done` | requestmanager/reconciledloader/traversalrecord/traversalrecord.go:161-163 | whether the represented stack is exhausted |
| `TraversalRecords.ReplayVerifier.VerifyNext` | requestmanager/reconciledloader/traversalrecord/traversalrecord.go:165-182 | accepts and moves on as the value-level verifier does; a refusal says the same and leaves the verifier where it was |
| `TraversalRecords.RecordUnder` | requestmanager/reconciledloader/traversalrecord/traversalrecord.go:35-50 | recording a step while a verifier holds nodes of the record leaves it a verifier of the record, at the same path, that sees the new step |
| `RemoteQueues.RemoteQueue.First` | requestmanager/reconciledloader/remotequeue.go:58-64 | the item of the head node, which is the first of the represented sequence, if there is one |
| `RemoteQueues.RemoteQueue.Consume` | requestmanager/reconciledloader/remotequeue.go:73-91 | in any state: the node, block, size and pool changes; on a proper list: the first item is taken off the sequence, its node stays linked to the rest, dataSize does not go below zero, and recycled nodes stay out of use exactly unless the item was one that had been put back |
| `RemoteQueues.RemoteQueue.Clear` | requestmanager/reconciledloader/remotequeue.go:93-102 | on every list that ends, also one that is not proper: the head ends nil and exactly the nodes of the list and the kept one are recycled; on a proper list dataSize is then what was cut off earlier and never taken off |
| `RemoteQueues.EndsUnlessRing` | requestmanager/reconciledloader/remotequeue.go:93-97 | among nodes that lead nowhere else a list ends, so that clear does, if and only if it does not lead back into itself |
| `RemoteQueues.RemoteQueue.ConsumeTimes` | requestmanager/reconciledloader/remotequeue.go:93-97 | a list that leads back into itself does so however often it is consumed, so the loop of clear does not end on it |
| `RemoteQueues.MixedQueue` | requestmanager/reconciledloader/remotequeue.go:30-122 | the retry run of RecycledNodeMixesItems leaves such a list: its head leads to itself |
| `RemoteQueues.RemoteQueue.Append` | requestmanager/reconciledloader/remotequeue.go:105-119 | one node is linked behind the tail; if it is not in use the sequence grows by its item, unless the tail is cut off from the head |
| `RemoteQueues.RemoteQueue.Queue` | requestmanager/reconciledloader/remotequeue.go:104-122 | nodes that are not in use extend the sequence by their items in order, unless the tail is cut off; recycled nodes stay out of use |
| `RemoteQueues.RemoteQueue.RetryLast` | requestmanager/reconciledloader/remotequeue.go:66-71 | the last consumed item is put back in front exactly when its node still leads to the head; otherwise the list is that node alone and what was queued is cut off, its bytes still counted |
| `RemoteQueues.RetryCutsOff` | requestmanager/reconciledloader/remotequeue.go:66-122 | queue one item, consume it, queue another, retry: the second one can no longer be reached from the head |
| `RemoteQueues.RemoteQueue.ConsumeRetried` | requestmanager/reconciledloader/remotequeue.go:67-91 | consuming a retried item again restores the sequence but recycles the node while it is still held for a retry |
| `RemoteQueues.RecycledNodeMixesItems` | requestmanager/reconciledloader/remotequeue.go:30-122 | a run in which such a node is handed out twice: the head then has the link of one response with the block of another |
| `RemoteQueues.RecycledNodeReachesOthers` | requestmanager/reconciledloader/remotequeue.go:12-122 | one request retries, and two others that retry nothing get the node from the shared pool: the head of the third has its own link with the block of the second |
| `RemoteQueues.RemoteQueue.NewRemote` | requestmanager/reconciledloader/remotequeue.go:30-36 | a recycled or new node without a successor and with the block it had; if the recycled nodes are out of use it has none and is not in use |
| `RemoteQueues.RemoteQueue.FreeList` | requestmanager/reconciledloader/remotequeue.go:38-43 | recycles exactly the given nodes, without their blocks; nodes that are not in use leave the recycled ones out of use |
| `RemoteQueues.RemoteQueue.NewItems` | requestmanager/reconciledloader/injest.go:15-29 | from the pool that all requests share: as many nodes as entries, recycled or new; if the recycled nodes are out of use: distinct, holding the entries in order, each block with the first entry that announces it |
| `RemoteQueues.RemoteQueue.Ingest` | requestmanager/reconciledloader/injest.go:11-45 | the response is queued, or its nodes recycled while offline; nodes recycled by whatever request that are out of use stay so |
| `Loaders.WaitKeeps` | requestmanager/reconciledloader/load.go:155-185 | waiting changes neither the record nor the store, and ends ready with an item and no verifier, offline with an empty queue, or blocked with an empty open queue |
| `Loaders.LoadIsRecorded` | requestmanager/reconciledloader/load.go:21-41 | every finished load is exactly what the record gets next, with its success |
| `Loaders.ReconnectedIsAtStart` | requestmanager/reconciledloader/reconciledloader.go:88-103 | after going online, the first load is verified from the first link of the record with the pending load in it if and only if that load leaves the first link in place |
| `Loaders.ReconnectedVerifies` | requestmanager/reconciledloader/load.go:21-33 | what that load has to be verified against, pending load or none: the record with the pending load if it leaves the first link in place, and without it otherwise |
| `Loaders.ReconnectSkipsRecord` | requestmanager/reconciledloader/load.go:21-68 | going online with a record, with or without a pending load and items left over: if the items, left over and new, start with the cut walk of what is to be verified, the next load takes exactly those off, the tracker holds the last unfollowed path, and it reads the item behind them |
| `Loaders.ReconnectRefuses` | requestmanager/reconciledloader/load.go:21-68 | the first item, left over or new, that differs from what is to be verified makes the next load fail, naming the expected link, the received link and the path, and only the items up to it are gone |
| `Loaders.RetryAfterReconnect` | requestmanager/reconciledloader/reconciledloader.go:112-125 | retrying any load after going online verifies the record without it, on the queue with the item that the load had used put back, and then reads the item behind |
| `Loaders.RemoteRetryIsRefused` | requestmanager/executor/executor.go:121-144 | retrying a load that had used the remote after going online with a record: the item that is put back is verified as the first of the record, and the load fails on it if and only if it has another link or was followed where the record has no data |
| `Loaders.StoreIsAddressed` | requestmanager/reconciledloader/load.go:86-153 | over every sequence of responses, state changes, loads and retries of any number of requests, sharing stores or not, of which none retries a load that used the remote, a block enters a store only under a link that names it, if every received block is so named |
| `LoaderRefinement.LoaderRefinesPlainWalk` | requestmanager/reconciledloader/load.go:21-113 | with the remote's cut pre-order stream all in, a traversal through the loader gives exactly the plain walk if and only if the walk fits the tracker's path lengths; then the queue ends empty and the store is the plain walk's |
| `LoaderRefinement.EveryScheduleRefinesPlainWalk` | requestmanager/reconciledloader/load.go:155-185 | however arrivals, the close and the loads interleave, each load waits or gives its own entry of the plain walk |
| `LoaderRefinement.UniformTraversal` | requestmanager/reconciledloader/pathtracker.go:19-42 | with the same positive number of segments on every edge: no load is refused as incorrect, the loads consume the whole stream each its own item, none is consumed beneath an unfollowed link, the queue ends empty |
| `LoaderRefinement.UnevenEdgesDoNotFit` | requestmanager/reconciledloader/pathtracker.go:19-32 | a two-edge tree on which the length comparison takes a link for one below an unfollowed sibling |
| `LoaderObjects.ReconciledLoader.SetRemoteOnline` | requestmanager/reconciledloader/reconciledloader.go:88-103 | opening gives the loader a verifier that points at the first link of the live record; the parts stay consistent |
| `LoaderObjects.ReconciledLoader.IngestResponse` | requestmanager/reconciledloader/injest.go:11-45 | if the recycled nodes are out of use they stay so and the parts stay consistent: the linked queue then holds what it held followed by the response, each block once; the same as before while offline |
| `LoaderObjects.ReconciledLoader.Cleanup` | requestmanager/reconciledloader/reconciledloader.go:105-110 | on every list that ends: the linked queue ends empty with nothing to retry; on a proper loader record, verifier, tracker and store stay as they are, and only nodes that were in use are recycled |
| `LoaderObjects.PathTracker.RecordRemoteLoadAttempt` | requestmanager/reconciledloader/pathtracker.go:34-42 | after an unfollowed link at a non-empty path, exactly the longer paths count as unfollowed; a followed link changes nothing |
| `LoaderObjects.PathTracker.StillOnUnfollowedRemotePath` | requestmanager/reconciledloader/pathtracker.go:15-32 | on a path that is no longer than the remembered one the answer is no and from then on no path counts as unfollowed |
| `LoaderObjects.ReconciledLoader.WaitRemote` | requestmanager/reconciledloader/load.go:155-185 | the loop moves the verifier over the nodes of the live record and takes nodes off the linked list, and ends where the value-level wait ends; terminates; recycled nodes stay out of use |
| `LoaderObjects.ReconciledLoader.Settle` | requestmanager/reconciledloader/load.go:92-152 | an item answers a load only if it is for its link, and its block is stored only under that link |
| `LoaderObjects.ReconciledLoader.BlockRead` | requestmanager/reconciledloader/load.go:43-68 | waiting, the choice between remote and local and the load, over record, verifier and linked queue, refine the value-level load; recycled nodes stay out of use |
| `LoaderObjects.ReconciledLoader.RecordStep` | requestmanager/reconciledloader/load.go:22-29 | the previous load is recorded under the live verifier, which stays a verifier of the record and sees it |
| `LoaderObjects.ReconciledLoader.BlockReadOpener` | requestmanager/reconciledloader/load.go:21-41 | the whole load refines the value-level one, so what is proved of loads holds of the composed objects; recycled nodes stay out of use |
| `LoaderObjects.ReconciledLoader.RetryLastLoad` | requestmanager/reconciledloader/reconciledloader.go:112-125 | refines the value-level retry, and keeps recycled nodes out of use if the retried load did not use the remote |
| `LoaderObjects.ReconciledLoader.Perform` | requestmanager/reconciledloader/reconciledloader.go:88-125 | every event but a remote-backed retry refines the value-level step, recycles no node in use, and takes into use only nodes that it had, that were recycled, or that are new |
| `LoaderObjects.ReconciledLoader.Undisturbed` | requestmanager/reconciledloader/load.go:43-68 | what happens to other objects leaves a loader proper and, but for its store, as it was |
| `RequestLoaders.NewRequest` | requestmanager/server.go:155-170 | a new loader joins any number of others on the shared pool, and perhaps a shared store, with nothing else in common |
| `RequestLoaders.TakeTurn` | requestmanager/reconciledloader/reconciledloader.go:88-125 | one loader makes a step, and every other one keeps its invariants and its value, but for what it finds in a common store; all of them stay apart and no node is recycled in use |
| `RequestLoaders.PerformAll` | requestmanager/reconciledloader/reconciledloader.go:88-125 | every run of any number of loaders with one pool, in which none retries a load that used the remote: records, verifiers and linked queues end where the values end |
| `RequestLoaders.StoreNamedBlocks` | requestmanager/reconciledloader/load.go:86-153 | over those runs, with the blocks in linked nodes recycled among all requests, a block is stored only under a link that names it |
| `LoaderObjects.RetryStoresWrongBlock` | requestmanager/reconciledloader/load.go:86-153 | the item that a remote-backed retry can leave behind makes a load store one link's block under another link |
| `LoaderObjects.OtherRequestStoresWrongBlock` | requestmanager/reconciledloader/load.go:86-153 | the same in a request that retried nothing, after the retry of another one |
| `Allocator.WrappedCheckExact` | allocator/allocator.go:48-76 | a limit check in uint64 arithmetic agrees with the unbounded one if and only if the sum is not in the wrapping window |
| `Allocator.LessIsByClass` | allocator/allocator.go:214-238 | the comparator orders by class - fitting heads, over-limit heads, idle peers - then by age and by usage |
| `Allocator.LessIsStrictWeakOrder` | allocator/allocator.go:214-238 | irreflexive, transitive, and incomparability is transitive |
| `Allocator.MinimalExists` | allocator/allocator.go:129-147 | any non-empty set of peers has one with none before it, which is what Peek returns |
| `Allocator.AllocateInv` | allocator/allocator.go:48-76 | a request keeps the accounts, the limits, the FIFO order and quiescence |
| `Allocator.ReleasedInv` | allocator/allocator.go:78-104 | a release takes back at most what the peer holds, and the global total never needs its clamp |
| `Allocator.ForgottenInv` | allocator/allocator.go:106-127 | forgetting a peer fails its waiting requests in order and gives back exactly its total |
| `Allocator.DrainInv` | allocator/allocator.go:129-163 | the drain keeps the accounts and the order, terminates, and leaves nothing servable waiting |
| `Allocator.DrainServes` | allocator/allocator.go:129-147 | the drain serves the one oldest fitting request |
| `Allocator.PeekPending` | allocator/allocator.go:129-147 | a minimal peer with a waiting request is the one to serve, or nobody is |
| `Allocator.PeekIdle` | allocator/allocator.go:129-147 | a minimal peer without waiting requests means that nobody waits |
| `Allocator.EveryRunIsSafe` | allocator/allocator.go:48-163 | over every run: total equals the sum of the peers' totals, both limits hold, each peer is answered in FIFO order, and the oldest head fitting its peer limit does not fit the global one |
| `Allocator.AnsweredOnce` | allocator/allocator.go:48-163 | no response channel gets two messages |
| `Allocator.Allocator.AllocateBlockMemory` | allocator/allocator.go:48-76 | grants at once or queues, as the value-level request does |
| `Allocator.Allocator.ReleaseBlockMemory` | allocator/allocator.go:78-104 | takes back and drains, as the value-level release does; an unknown peer is an error |
| `Allocator.Allocator.ReleasePeerMemory` | allocator/allocator.go:106-127 | forgets the peer and drains; an unknown peer is an error |
| `Allocator.Allocator.ProcessPendingAllocations` | allocator/allocator.go:129-147 | the loop over the priority queue is the value-level drain, with a real termination measure |
| `Allocator.Allocator.ProcessNextPendingAllocationForPeer` | allocator/allocator.go:149-163 | grants the head request if it fits both limits |
| `Allocator.Allocator.AllocatedForPeer` | allocator/allocator.go:37-46 | what the peer holds; nothing for an unknown peer |
| `MessageBuilders.AddBlockSized` | message/builder.go:41-44 | the size always covers the blocks that are in the message |
| `MessageQueues.SizeIsBlocksAndReplaced` | message/builder.go:40-59 | the counted size is the size of the blocks in the message plus that of every block that was replaced |
| `MessageQueues.SizeIsRightIff` | message/builder.go:40-59 | BlockSize is the size of the blocks in the message if and only if no link is sent again after a non-empty block for it |
| `MessageQueues.RepeatedBlockCountsTwice` | message/builder.go:40-59 | one byte sent twice for a link is counted twice |
| `MessageBuilders.ScrubKeeps` | message/builder.go:85-107 | no response data for the scrubbed requests, every other response unchanged, exactly the blocks that a surviving response marks present, and no more freed than was counted |
| `MessageBuilders.ScrubSize` | message/builder.go:85-107 | after a scrub the size is the sum of the kept blocks |
| `MessageBuilders.ScrubTwice` | message/builder.go:85-107 | scrubbing in two steps leaves the responses that one scrub of both leaves |
| `MessageBuilders.Builder.ScrubResponses` | message/builder.go:85-107 | the in-place scrub is the value-level one and returns old size minus new size |
| `MessageBuilders.SaveBlocks` | message/builder.go:92-105 | the nested loops keep exactly the blocks marked present, with their total size |
| `MessageQueues.BuildAllFacts` | responsemanager/responseassembler/responseBuilder.go:96-153 | the operations of a transaction add at most their size in block bytes, append its links per request in order, and leave other requests alone |
| `MessageQueues.ApplyOperations` | responsemanager/responseassembler/responseassembler.go:157-181 | executing the operations one after the other is the value-level transaction |
| `MessageQueues.EveryRunIsBatched` | messagequeue/messagequeue.go:113-137 | in every run without send errors: a request's metadata over the messages is the order of its transactions' links, topics strictly increase, a message above 512 KiB of blocks has them from one transaction |
| `MessageQueues.EmptyRunIsBatched` | messagequeue/messagequeue.go:84-96 | a new queue meets all of that |
| `MessageQueues.ScrubFreesReported` | messagequeue/messagequeue.go:276-289 | scrubbing frees at least the bytes it reports |
| `MessageQueues.ReportIsExactIff` | messagequeue/messagequeue.go:276-289 | for any builders: what a scrub frees and does not report is exactly what the builders before the last one freed, and the report is exact if and only if each of those keeps its size |
| `MessageQueues.ReportMissesAByte` | messagequeue/messagequeue.go:276-289 | a byte in the first of two builders is freed and not reported |
| `MessageQueues.AwakeStep` | messagequeue/messagequeue.go:100-127 | every step keeps: content in the queue has a token, a thread about to signal, or the loop on its way |
| `MessageQueues.NoWakeUpIsLost` | messagequeue/messagequeue.go:192-222 | so in every run no wake-up is lost |
| `MessageQueues.MessageQueue.AddTransaction` | messagequeue/messagequeue.go:113-127 | puts a transaction into the last builder or a new one and says whether there is something to send |
| `MessageQueues.MessageQueue.ExtractOutgoingMessage` | messagequeue/messagequeue.go:201-222 | one call takes one builder off the front, leaves a token if more remain, and gives nothing if that builder is empty |
| `MessageQueues.MessageQueue.ScrubResponses` | messagequeue/messagequeue.go:276-289 | scrubs every builder, drops those that become empty and reports what the last one freed |
| `MessageQueues.MessageQueue.PublishSent` | messagequeue/messagequeue.go:371-374 | reports the message sent and gives its bytes back |
| `MessageQueues.MessageQueue.PublishError` | messagequeue/messagequeue.go:376-380 | closes the message's streams, scrubs their responses, reports the error and gives the bytes back |
| `MessageQueues.MessageQueue.AttemptSendAndRecovery` | messagequeue/messagequeue.go:303-338 | one attempt ends the message one way or leaves it unfinished |
| `MessageQueues.MessageQueue.SendMessage` | messagequeue/messagequeue.go:224-257 | a message that is taken off the queue is announced and then reported sent or failed exactly once |
| `OutgoingMemory.NextKeeps` | messagequeue/messagequeue.go:224-289 | every step keeps the coverage invariant: asking, building, taking a message off, and after a failure the scrub under its lock, the release of what it reports, the error event and the release of the message, each on its own |
| `OutgoingMemory.PeerIsCovered` | allocator/allocator.go:48-104 | a peer's queued, in-flight and granted but unbuilt bytes are within its allocation and its limit |
| `OutgoingMemory.QueuedBytesAreCovered` | messagequeue/messagequeue.go:224-380 | in every reachable state, also between the steps of handling a failure: that coverage for every peer, the queued, in-flight and granted but unbuilt bytes of all peers together within the global limit, and each extracted message reported exactly once, in order |
| `ResponseLifecycle.NextKeeps` | responsemanager/server.go:79-181 | every manager message and executor step keeps the lifecycle invariant |
| `ResponseLifecycle.LifecycleIsSafe` | responsemanager/server.go:286-399 | over every interleaving: at most one terminal status per request and no link after it; at most one executor runs a request, and then it is open and in the Running phase |
| `ResponseLifecycle.UpdatesAreDelivered` | responsemanager/server.go:401-409 | over every interleaving: buffered updates are signalled or being fetched; what was accepted is what was handed out, once and in order, followed by what is buffered |
| `ResponseLifecycle.ExecutorKeeps` | responsemanager/queryexecutor/queryexecutor.go:117-182 | every step of an executor on its request keeps that request's invariant |
| `ResponseLifecycle.ResponseManager.ProcessNew` | responsemanager/server.go:184-284 | keeps the lifecycle invariant; the request is open unless it was refused, no worker has it, and it is queued exactly if it was accepted unpaused |
| `ResponseLifecycle.ResponseManager.OnUpdate` | responsemanager/server.go:79-136 | keeps the invariant; an update for a queued or running response counts as accepted, is signalled, and the request is queued or with a worker that will fetch it |
| `ResponseLifecycle.ResponseManager.Abort` | responsemanager/server.go:139-181 | keeps the invariant; afterwards no worker will pick the request up, and if it is still in progress a worker has it and has the error signal |
| `ResponseLifecycle.ResponseManager.Start` | responsemanager/server.go:286-355 | keeps the invariant; a worker that is given the request is the only one that has it, and the request is open |
| `ResponseLifecycle.ResponseManager.Terminate` | responsemanager/server.go:357-366 | keeps the invariant; a request that is forgotten once its terminal status is out is not queued and no worker runs it |
| `ResponseLifecycle.ResponseManager.Finish` | responsemanager/server.go:368-399 | keeps the invariant; no worker has the request any more, it is not queued, and if it is known it is paused or completing |
| `ResponseLifecycle.ResponseManager.FetchUpdates` | responsemanager/server.go:401-409 | keeps the invariant; the worker gets exactly the updates that were accepted and not handed out before, in order |
| `ResponseLifecycle.ResponseManager.Pause` | responsemanager/server.go:411-424 | keeps the invariant; succeeds exactly for a queued or running response, which then has the signal and is queued or with a worker |
| `ResponseLifecycle.ResponseManager.Unpause` | responsemanager/server.go:426-445 | keeps the invariant; succeeds exactly for a paused response, which then is queued, open and with no worker |
| `LinkTrackers.RecordInv` | linktracker/linktracker.go:47-59 | recording keeps every count equal to the link's occurrences over the unfinished requests |
| `LinkTrackers.FinishInv` | linktracker/linktracker.go:63-80 | finishing gives back exactly the request's own occurrences of every link |
| `LinkTrackers.ZeroMeansUnheld` | linktracker/linktracker.go:31-33 | a link counts zero if and only if no unfinished request holds it |
| `LinkTrackers.EmptyMeansNothingRecorded` | linktracker/linktracker.go:83-85 | empty if and only if no unfinished request has recorded anything |
| `LinkTrackers.LinkTracker.RecordLinkTraversal` | linktracker/linktracker.go:47-59 | the in-place update of the three maps is the value-level record |
| `LinkTrackers.LinkTracker.FinishRequest` | linktracker/linktracker.go:63-80 | the decrement loop is the value-level finish; the answer is whether no link was missing |
| `PeerLinkTrackers.KeyingKeepsExactly` | responsemanager/responseassembler/peerlinktracker.go:41-49 | giving a request a key keeps every group sound if and only if the request has recorded nothing and leaves no group without members, or has the key already |
| `PeerLinkTrackers.NextInv` | responsemanager/responseassembler/peerlinktracker.go:31-103 | every call keeps: only members of a group have anything recorded in its tracker, every key in use has a tracker, every tracker a member |
| `PeerLinkTrackers.SendsExactlyUnheld` | responsemanager/responseassembler/peerlinktracker.go:93-103 | a block is sent if and only if it is there, the request is past its skipped blocks and no unfinished member of its group holds the link |
| `PeerLinkTrackers.SentAgainOnlyAfterAllFinished` | responsemanager/responseassembler/peerlinktracker.go:68-103 | a link is sent twice in a group only if every request that held it after the first send has finished in between |
| `PeerLinkTrackers.SenderHolds` | responsemanager/responseassembler/peerlinktracker.go:93-103 | the sender is one of those |
| `PeerLinkTrackers.HeldMeansServed` | responsemanager/responseassembler/peerlinktracker.go:52-103 | deduplication loses nothing: a held link was sent in its group, or a member asked not to be sent it |
| `PeerLinkTrackers.DroppedGroupsAreEmpty` | responsemanager/responseassembler/peerlinktracker.go:68-90 | a group's tracker is dropped only with its last member and is empty by then |
| `PeerLinkTrackers.LateKeyLosesBlocks` | responsemanager/responseassembler/peerlinktracker.go:41-49 | a key given after recording leaves a count that no request releases, and the block is withheld from later requests |
| `PeerLinkTrackers.PeerLinkTracker.constructor` | responsemanager/responseassembler/peerlinktracker.go:21-29 | nothing tracked |
| `PeerLinkTrackers.PeerLinkTracker.DedupKey` | responsemanager/responseassembler/peerlinktracker.go:41-49 | as the value-level step, on separate tracker objects |
| `PeerLinkTrackers.PeerLinkTracker.IgnoreBlocks` | responsemanager/responseassembler/peerlinktracker.go:52-59 | the loop is the value-level step |
| `PeerLinkTrackers.PeerLinkTracker.SkipFirstBlocks` | responsemanager/responseassembler/peerlinktracker.go:61-65 | as the value-level step |
| `PeerLinkTrackers.PeerLinkTracker.FinishTracking` | responsemanager/responseassembler/peerlinktracker.go:68-90 | as the value-level step, with the search for other members of the group |
| `PeerLinkTrackers.PeerLinkTracker.RecordLinkTraversal` | responsemanager/responseassembler/peerlinktracker.go:93-103 | as the value-level step; says whether to send and the index of the link |
| `PreparedQueries.PreparingIsProper` | responsemanager/preparequery.go:28-62 | the calls of a new request key it before anything is recorded, so they keep every group sound, on every error exit too |
| `PreparedQueries.RefusalLeavesNoTrace` | responsemanager/preparequery.go:28-121 | a refused query leaves the peer's deduplication state exactly as it found it, wherever it was refused |
| `PreparedQueries.FinishUndoesRecording` | responsemanager/preparequery.go:81-104 | finishing takes back an ignore list down to equal maps |
| `PreparedQueries.SendHookResult` | responsemanager/preparequery.go:34-49 | all extensions are sent; one terminal status, last, exactly on an error |
| `PreparedQueries.ProcessDedupByKey` | responsemanager/preparequery.go:64-79 | absent, malformed or given key |
| `PreparedQueries.ProcessDoNotSendCids` | responsemanager/preparequery.go:81-104 | absent, malformed or given ignore list |
| `PreparedQueries.ProcessDoNotSendFirstBlocks` | responsemanager/preparequery.go:106-121 | absent, malformed or given skip count |
| `PreparedQueries.PrepareQuery` | responsemanager/preparequery.go:28-62 | the steps in their order with their early exits; fails exactly when refused, and then with one terminal status, which is last |
| `PreparedQueries.PreparedIsRun` | responsemanager/preparequery.go:28-62 | the preparation is a run of the tracker's steps, so what holds of runs holds of it |
| `Traversers.HandOffIsSafe` | ipldutil/traverser.go:168-313 | with any number of clients, cancellation and panics anywhere: no unlock finds the mutex unlocked, the held lock has exactly one owner, and what clients hand over is what the loader returns, in order, each once and for the link that was current |
| `Traversers.NextInv` | ipldutil/traverser.go:168-313 | every step keeps that |
| `Traversers.ResponseAnswersTheLinkRead` | ipldutil/traverser.go:266-295 | without cancellation, a response handed over after a read with none in between answers the link that was read, and is the result of that link's loader call |
| `Traversers.NoDeadlock` | ipldutil/traverser.go:257-313 | while a client is inside an operation some thread can go on |
| `Traversers.OwnersTimeRunsOut` | ipldutil/traverser.go:273-313 | a client's own steps use up its time with the lock and nobody else's step adds to it |
| `Traversers.CancelledLoaderReturns` | ipldutil/traverser.go:179-187 | with a cancelled context a waiting loader can always return, within five steps of itself and the lock's owner |
| `Notifications.MembersHaveStandingSubscriptions` | notifications/publisher.go:114-147 | after any commands the members are exactly those with a subscription that nothing later ended |
| `Notifications.EventReachesStandingSubscribers` | notifications/publisher.go:173-177 | an event reaches a subscriber if and only if its subscription stands at the event's place in the command order |
| `Notifications.ClosedOncePerPeriod` | notifications/publisher.go:191-212 | closes equal begun memberships less the one that still stands |
| `Notifications.SubscriberRegistry.Add` | notifications/publisher.go:161-171 | adds the one membership to both indexes, which stay inverses without empty sets |
| `Notifications.SubscriberRegistry.Remove` | notifications/publisher.go:191-212 | removes the one membership from both indexes and closes it if it was there |
| `Notifications.SubscriberRegistry.Send` | notifications/publisher.go:173-177 | every member of the topic hears the event once, in some order, and nobody else |
| `Notifications.SubscriberRegistry.RemoveTopic` | notifications/publisher.go:179-183 | ends and closes exactly the topic's memberships |
| `Notifications.SubscriberRegistry.RemoveSubscriber` | notifications/publisher.go:185-189 | ends and closes exactly the subscriber's memberships |
| `Notifications.SubscriberRegistry.RemoveAll` | notifications/publisher.go:149-153 | closes every membership and leaves both indexes empty |
| `Notifications.Start` | notifications/publisher.go:114-154 | the loop carries the commands out in order up to a shutdown; at each one exactly the notices it is to cause are heard; after a shutdown both indexes are empty |
| `Notifications.Publisher.Queue` | notifications/publisher.go:50-112 | commands are queued in order and refused after a shutdown, so nothing is queued behind one |
| `Notifications.Publisher.Dequeue` | notifications/publisher.go:223-235 | takes the first command off |
| `MessageV2.RoundTrip` | message/v2/message.go:54-248 | encoding in any order and decoding succeeds and gives the message back, up to nil against empty, if and only if it is well-formed: keyed by its own 16-byte IDs, requests as the constructors build them, blocks matching their CIDs |
| `MessageV2.DecodedIsWellFormed` | message/v2/message.go:153-248 | whatever is received, a message that decodes is well-formed |
| `MessageV2.ListRoundTrip` | message/v2/message.go:57-82 | a list with an item for every entry of a map, in whatever order, decodes to the map if every item decodes to its entry |
| `MessageV2.CollectIs` | message/v2/message.go:159-201 | decoding a list succeeds if and only if every item does; every entry comes from an item and every item's key has an entry |
| `MessageV2.DecodedBlocksAreNamed` | message/v2/message.go:224-245 | the CID of every decoded block is derived from its data |
| `MessageV2.ReceivedBlocksAreAddressed` | requestmanager/reconciledloader/injest.go:17-29 | end to end: whatever messages the remotes of any number of requests send, every block in a store is named by its link, if no request retries a load that used the remote |
| `MessageV2.NewGraphSyncExtensions` | message/ipldbind/message.go:29-46 | every extension once, in some order, with its data; nothing for none |
| `MessageV2.ToExtensionsList` | message/ipldbind/message.go:50-60 | a list with exactly the entries of the map |
| `MessageV2.ListedExtensionsCollect` | message/message.go:164-172 | the order of the list does not matter to the map made from it |
| `MessageV2.ToExtensionsMap` | message/message.go:164-172 | later entries replace earlier ones; nil for none |
| `MessageV2.RequestsToIPLD` | message/v2/message.go:57-82 | one item for every request, in some order; nothing for none |
| `MessageV2.ResponsesToIPLD` | message/v2/message.go:84-108 | one item for every response, in some order; nothing for none |
| `MessageV2.BlocksToIPLD` | message/v2/message.go:110-120 | one item for every block, in some order; nothing for none |
| `MessageV2.ToIPLD` | message/v2/message.go:54-124 | the encoding of a message |
| `MessageV2.RequestsFromIPLD` | message/v2/message.go:159-195 | decodes by request type, failing on an ID that is not a UUID |
| `MessageV2.ResponsesFromIPLD` | message/v2/message.go:198-218 | decodes every response, failing on an ID that is not a UUID |
| `MessageV2.BlocksFromIPLD` | message/v2/message.go:221-245 | derives every CID from prefix and data, failing where that fails |
| `MessageV2.FromIPLD` | message/v2/message.go:153-248 | the decoding of a message, or an error |
| `MessageV2.SendAndReceive` | message/v2/message.go:33-51 | a message that is encoded and decoded comes back the same if and only if it is well-formed |

## Left out

- Loaders.StoreIsAddressed: runs in which some request retries a load that used the remote are excluded, since the code fails on some of them; that it fails on every one is not claimed, since it depends on which nodes the pool hands out.
- MessageV2.ReceivedBlocksAreAddressed: the same, since it builds on that.
- RequestLoaders.PerformAll: an event of a request is one step; two requests that use the pool at the same time take different nodes from it, and the number of requests is that at the start of the run, with those that come later idle until then.
- LoaderObjects.ReconciledLoader.IngestResponse: promises nothing of the items once a node was recycled in use, because then they can be mixed and the list can lead back into itself.
- RemoteQueues.RemoteQueue.Recycle: a node that is recycled twice is in the pool once, and the pool is marked as spoiled instead; nothing is promised of a spoiled pool.
- Traversers.HandOffIsSafe: the traverser is a step relation and not a class, since its operations are not atomic; the block counter, which a client increments after it has given up the lock, is not in it.
- ResponseLifecycle.ExecutorKeeps: the executor is a step relation; its loop and its traversal are arbitrary sequences of its operations.
- Allocator.EveryRunIsSafe: asks that an amount plus a limit stays below 2^64, which `WrappedCheckExact` shows to be needed; the wrap-around of the running index is not modelled.
- OutgoingMemory.QueuedBytesAreCovered: before shutdown only, with one queue per peer; what a queue does with its builders when it shuts down is not in it.
- PeerLinkTrackers.PeerLinkTracker.RecordLinkTraversal: the count of sent links is unbounded and does not wrap at 2^63.
- PreparedQueries.ProcessDoNotSendCids: the CID set is given as its list of links; visiting it cannot fail.
- A builder knows its requests by their IDs only; building the final message, response codes of partial responses and codes of extensions are plain copies.
- Allocator statistics and logging, tracing, spans and timers: no effect on what is proved.
- libp2p streams, deadlines, connection protection and reconnection policy: a send succeeds or fails.
- Selectors, the traversal library, DAG-CBOR, bindnode and the task queue: unseen libraries, used by what they deliver.
- Reads of the local store that fail half-way: they count as a missing block, as in the source.
- The hooks, listeners and persistence options: thin wrappers over a subscriber list or a map.
- The request manager's own server loop, its cancellation and its liveness.
- Versions of the message format other than version 2.
