# Tintwire core: a Dafny model

Tintwire is a self-hosted notification server. Nodes replicate notifications among
each other without a leader, agents work through a durable command queue, and
clients read the result through paged, merged views. This project models that logic
and proves what it promises. `dafny verify dfyconfig.toml` checks everything.

**Replication.** `ReplicaState` gives one node's tables (notifications, retained
envelopes, cursor rows, quarantine) and its transactions as functions;
`ReplicaStore.Store` is the object that updates those tables in place, each method
proved against its function. `ReplicaLaws` and `DeliveryLaws` say in the columns of the
tables what these transactions do, among them that a card arrives at another node as it was
stored. `ReplicationCluster` lets all nodes of a cluster take
these transactions in any order over a network that delays, drops, repeats and
reorders batches and snapshots, with writes that bypass the operation log in between;
its theorems hold in every state of every run. `NotificationConvergence` says, card by
card, what equal marks mean for the notifications.
`HybridClock`, `ReplicaBatches` and `PeerSync` add the timestamps, the cutting of
ranges into batches, and the pull loop; `ClusterSync` joins that loop to convergence.
`NotificationRecord` is the join of two
versions of a card. `ReferenceModel` is the authors' small convergence model.

**Commands.** `AgentQueue` is the lease-based queue as a transition system,
`AgentQueueStore.Store` its tables, `QueueLaws` what its transactions do row by row.
`BridgeProtocol` adds any number of bridges that
crash, lose leases and deliver requests late; `BridgeLoop` is a bridge's select loop.

**Reads and small algorithms.** `KeysetQuery`, `Timeline` and `Digest` (paged reads),
`CursorCodec` and `Base64URL` (opaque cursors), `Placeholders` and `Decimal` (the SQL placeholder
rewriter), `RateLimiter`, `Schedules`.

A database transaction is one atomic step. Clock readings, random ids, authorisation
lookups and what peers or the runtime answer are inputs. SHA-256 is an injective
constructor. Strings are byte strings ordered byte by byte. `Basics` and `Ordering` hold
shared definitions.

## Findings

- *A command can be started twice.* "At most one `turn/start` per command" fails in
  two races, and holds for every command that neither race touches, whatever happens to
  others (`BridgeProtocol.AtMostOneTurn`). First: a claim in the very millisecond
  `lease_until` finds the command still running, because expiry is compared with `<`
  (internal/store/agent_queue.go:136) and availability with `>` (line 148). Second:
  a renewal updates and reads back in two statements (lines 185 and 196); if an
  operator reconciles an interrupted command in between, the bridge that took it over
  reads a closed command with no turn id and takes the start branch
  (internal/agentbridge/queue.go:87-115). Each race leads to one more start from every
  reachable state in which it can occur, and concrete runs of the model start a command twice. With no race
  of either kind on a command so far, its next read-back restarts it exactly if it is the
  second race (`BridgeProtocol.RestartsExactlyWhenReadClosed`).
- *Equal marks do not mean equal notifications.* Four transactions write a notification
  without appending an operation: acknowledging an incident (internal/store/incidents.go:118),
  publishing as an agent (internal/store/agents.go:539), a producer monitor
  (internal/store/monitors.go:156) and the playground (internal/store/playground.go:46); three
  more touch only the update time (internal/store/store.go:1997, 2103, 3297). Writes made while
  replication is not configured are unlogged too (internal/store/replication.go:182-184): runs
  start with empty tables, and cards from before configuration count as unlogged writes. One of the first
  four is enough to make nodes with equal marks differ (`NotificationConvergence.DivergentRun`),
  from every reachable state (`UnloggedWriteDiverges`). Convergence therefore holds card by card: on
  existence, creation time and identity of every card that no unlogged write created or
  redated, and on its state if neither node took in an update of it and no unlogged write set it
  (`NotificationConvergence.EqualMarksConverge`). An acknowledgement disturbs the state only.
  Moving a card that was published unlogged appends an operation that every node without the
  card quarantines (`MoveStallsNodesWithoutTheCard`); nothing of that origin gets past it
  (`MissingCardStallsItsOrigin`), and the pull loop does not fall back to a snapshot on a
  quarantine (`PeerSync.PullOrigin`).
- *Pulling from a peer.* Ascending answers are not enough for success to mean that the
  local marks are reached: an answer about another origin counts as progress
  (`PeerSync.StrayAnswerLooksLikeProgress`). Progress is real exactly if the answer is
  about the asked origin (`PeerSync.ProgressIsRealIffOfOrigin`). A visit to a peer that
  answers every request and whose snapshots cover its marks fails only because the local
  node refuses what it gets, or the peer is the wrong one. Every failure has its cause, and
  a visit whose ranges commit, or whose snapshot is accepted where a range was pruned,
  succeeds (`PeerSync.VisitMakesProgress`).
- *Rate limiter.* A minute sees at most 2 × limit − 1 granted calls, and for every limit some
  run reaches that.
- *Redelivery after a prune.* A batch of already applied operations commits exactly if
  every one of them is still retained unchanged; one pruned operation fails the whole
  batch (`ReplicaBatches.RedeliveryCommitsIffRetained`). So the cut into batches, which
  otherwise does not matter, matters there (`ReplicaBatches.CutMattersAfterPrune`).

## Model

| member | source | states |
|---|---|---|
| NotificationRecord.ContentKeyInjective | internal/store/replication_snapshot.go:170-173 | different contents have different content keys, so the tie-break is a total order |
| NotificationRecord.ContentKeyIsTheArray | internal/store/replication_snapshot.go:170-173 | the key is the JSON array of the seven fields in order, spelled out for fields without escapes |
| NotificationRecord.LifecycleOrder | internal/store/replication.go:434-446 | received, firing, acknowledged, resolved, in this order, and anything else below |
| Ordering.LessIsLexicographic | internal/store/replication_snapshot.go:143-147 | the byte comparison is lexicographic: first difference decides, a proper prefix comes first |
| NotificationRecord.JoinIsMerge | internal/store/replication_snapshot.go:136-157 | field by field: the later update time with its content, on equal times the content with the greater key, the earlier creation time, the higher state, the local identity |
| NotificationRecord.JoinAllIsLatest | internal/store/replication_snapshot.go:136-157 | of all versions merged, the latest update time and the content of a version with that time, the earliest creation time, the highest state |
| NotificationRecord.JoinIdempotent | internal/store/replication_snapshot.go:136-157 | merging a version into itself changes nothing |
| NotificationRecord.JoinCommutative | internal/store/replication_snapshot.go:136-157 | two versions of one card merge to the same record in both directions |
| NotificationRecord.JoinAssociative | internal/store/replication_snapshot.go:136-157 | grouping of merges does not matter |
| NotificationRecord.JoinAllIsLeast | internal/store/replication_snapshot.go:136-157 | the merge of versions is their least upper bound |
| NotificationRecord.DeliveryOrderIrrelevant | internal/store/replication.go:390-408 | the same versions in any order and with any repetition, by snapshot or concurrent create, give one record |
| ReplicaStore.Store.ReplicationCursor | internal/store/replication.go:155-165 | returns the advertised mark: the largest sequence over both tables |
| ReplicaStore.Store.ReplicationOperations | internal/store/replication.go:247-271 | retained operations of one origin above a position, ascending, none skipped, at most 500 |
| ReplicaStore.Store.AppendOperation | internal/store/replication.go:181-216 | possible exactly if the payload fits and a clock is positive; adds one envelope under the next own sequence, stamped with the wall clock if that is ahead, else with the last physical time and the next count |
| ReplicaStore.Store.CreateFromWebhook | internal/store/store.go:2133-2303 | card, event and operation are stored together or not at all; the content is the input's, a resolved card that fires again is firing and otherwise the higher state stays, identity and creation time stay, a new card has the input's fields, the operation documents exactly the stored card |
| ReplicaStore.Store.SetNotificationState | internal/store/store.go:2368-2423 | happens exactly for an authorised forward move or repeat; a later update time and the new state, one event and one operation that carries them, together or not at all |
| ReplicaStore.Store.AcknowledgeIncident | internal/store/incidents.go:109-148 | acknowledges exactly the open cards of the incident in the channel, one event each, and appends no operation |
| ReplicaStore.Store.CreateFromAgent | internal/store/agents.go:525-560 | inserts the card with its event and appends no operation |
| ReplicaStore.Store.PruneReplicationOperations | internal/store/replication.go:222-245 | exactly up to the retained maximum; drops the covered envelopes and no other, the cursor becomes the greater of itself and the end |
| ReplicaStore.Store.ApplyEffect | internal/store/replication.go:361-432 | when each kind of operation has an effect, and the card it leaves field by field; a failure keeps only channel and webhook rows already written |
| ReplicaStore.Store.MergeVersions | internal/store/replication.go:390-408 | the external-key branch of a create keeps the later version, the greater key on a tie, the earlier creation time and the higher state, as the snapshot path does |
| ReplicaStore.Store.ApplyReplicationOperations | internal/store/replication.go:275-343 | operation by operation: repeats are skipped, the next expected one takes effect and is retained with the cursor, a gap or an error takes everything back, a quarantine keeps what came before it |
| ReplicaStore.Store.BuildReplicationSnapshot | internal/store/replication_snapshot.go:47-90 | exports exactly the node's cards and advertised marks |
| ReplicaStore.Store.ApplyReplicationSnapshot | internal/store/replication_snapshot.go:95-168 | all rows merged field by field or taken over, every cursor the greater of both, other cards untouched; or nothing changed |
| ReplicaLaws.AppendLaw | internal/store/replication.go:181-216 | when an append is possible and the envelope it adds, with its hybrid timestamp |
| ReplicaLaws.DeliveryLaw | internal/store/store.go:2133-2303 | the stored card in the terms of the delivery and the prior card, and the operation that documents it |
| ReplicaLaws.DeliverySucceeds | internal/store/store.go:2133-2303 | a delivery is stored exactly if its webhook, channel and state are known, a new id is free and the operation can be appended |
| ReplicaLaws.MoveLaw | internal/store/store.go:2368-2423 | when a person may move a card, and the moved card |
| ReplicaLaws.PruneLaw | internal/store/replication.go:222-245 | when a range is pruned, and what stays |
| DeliveryLaws.EffectLaw | internal/store/replication.go:361-432 | for every kind, exactly when an operation has an effect, and every column of the card it leaves |
| DeliveryLaws.DeliveryIsReproduced | internal/store/replication.go:361-432 | a node without the card that takes in the create of a delivery holds exactly the stored record; after an update it has the stored content, state and update time |
| DeliveryLaws.StateChangeLaw | internal/store/replication.go:419-428 | a higher state is taken over with the later update time, and the content stays |
| DeliveryLaws.NextOperationLaw | internal/store/replication.go:308-331 | the next expected operation is retained with its effect, or set aside exactly if version, cluster, document or effect is unacceptable |
| DeliveryLaws.OtherOperationLaw | internal/store/replication.go:291-307 | any other operation is a repeat, a gap or an error |
| DeliveryLaws.WholeBatchLaw | internal/store/replication.go:275-343 | the outcome of a batch and the tables it leaves, operation by operation |
| DeliveryLaws.SnapshotLaw | internal/store/replication_snapshot.go:95-168 | an accepted snapshot was sound; each row is merged or taken over, every cursor is the greater of both |
| DeliveryLaws.SnapshotNeverAgesACard | internal/store/replication_snapshot.go:136-157 | no card's update time falls below either side's, no creation time rises |
| DeliveryLaws.FittingSnapshotIsAccepted | internal/store/replication_snapshot.go:95-168 | a sound snapshot with sound, distinct rows that fit the tables is accepted |
| ReplicationCluster.RunKeepsInv | internal/store/replication.go:275-343 | the cluster invariant holds in every state of every run |
| ReplicationCluster.ProcessedIsGapFree | internal/store/replication.go:137-153 | in every run a node has taken in exactly sequences 1 to its advertised mark of every origin, never more than were allocated |
| ReplicationCluster.EnvelopesAgree | internal/store/replication.go:181-216 | retained envelopes with one origin and sequence are the same operation on all nodes |
| ReplicationCluster.PruneKeepsHighWater | internal/store/replication.go:222-245 | pruning never changes an advertised mark |
| ReplicationCluster.MergeRowsResult | internal/store/replication_snapshot.go:119-157 | a successful row loop leaves exactly the join of both sides |
| NotificationConvergence.RunKeepsCard | internal/store/replication.go:361-446 | the accounts of a card hold on every node and in every snapshot of every run whose unlogged writes leave it alone |
| NotificationConvergence.LifecycleIsMaximum | internal/store/replication.go:361-446 | such a card exists iff processed, created at the earliest processed time, with the identity of every create; in the highest processed state if none of these operations is an update |
| NotificationConvergence.EqualMarksConverge | internal/store/replication_snapshot.go:119-163 | nodes with equal marks agree on existence, creation time and identity of such a card, and on its state if they took in no update of it, whatever came by batch or snapshot |
| NotificationConvergence.UnloggedWriteDiverges | internal/store/agents.go:538-548 | from every reachable state with equal marks an unlogged write keeps the marks, and the nodes then agree on the card iff the record written agreed with the other node's |
| NotificationConvergence.DivergentRun | internal/store/agents.go:538-548 | a reachable state with equal marks and, on one node only, a card its tables accept |
| NotificationConvergence.AgentPublicationIsUnlogged | internal/store/agents.go:525-560 | what publishing as an agent does to the tables is one unlogged write of the run |
| NotificationConvergence.AcknowledgementIsUnlogged | internal/store/incidents.go:118 | what acknowledging an incident does to the tables is one unlogged write for each card |
| NotificationConvergence.AcknowledgeDisturbsState | internal/store/incidents.go:118 | acknowledging an incident keeps a card's origin and disturbs its state |
| NotificationConvergence.MissingCardStallsItsOrigin | internal/store/replication.go:409-428 | every batch that begins with a change of a missing card is quarantined and moves nothing |
| NotificationConvergence.MoveStallsNodesWithoutTheCard | internal/store/store.go:2368-2423 | moving a card forward appends an operation that is quarantined by every up-to-date node without the card |
| HybridClock.LogOnlyGrows | internal/store/replication.go:181-216 | no sequence is reused or reassigned, in any run |
| HybridClock.SequencesAreConsecutive | internal/store/replication.go:192-216 | the n-th own operation carries sequence n |
| HybridClock.TimestampsIncrease | internal/store/replication.go:204-209 | hybrid timestamps strictly increase along the retained own operations under any clock readings and prunes, while the 32-bit counter has room |
| ReplicaBatches.BatchingIsIrrelevant | internal/store/replication.go:275-331 | any cut of a contiguous range into batches leaves the same tables, quarantined operations included |
| ReplicaBatches.RedeliveryChangesNothing | internal/store/replication.go:294-306 | already applied and still retained operations change nothing |
| ReplicaBatches.RedeliveryCommitsIffRetained | internal/store/replication.go:294-306 | a batch at or below the cursor never changes the tables; it commits iff all of it is still retained unchanged, else fails as a whole |
| ReplicaBatches.PrunedRangeFails | internal/store/replication.go:294-300 | a contiguous range with an operation at or below the cursor that is no longer retained fails as a whole |
| ReplicaBatches.CutMattersAfterPrune | internal/store/replication.go:275-331 | then one batch changes nothing while a cut after the pruned operation applies the rest |
| ReplicaBatches.PrunedCut | internal/store/replication.go:275-331 | a node and operations for which the cut matters |
| ReplicaBatches.ReachableHasNothingAhead | internal/store/replication.go:275-331 | in every run no foreign envelope lies above its cursor |
| PeerSync.PullOrigin | internal/replicationhttp/replication.go:144-202 | terminates by (snapshot unused, distance to the mark); loses no row; success means the mark is reached; every move was asked for and every failure has its cause; a quarantined first answer ends it without a snapshot |
| PeerSync.SyncPeer | internal/replicationhttp/replication.go:129-202 | identity and hostname errors come back exactly under their conditions; every other failure has its cause in the answers at the tables reached; success means every advertised mark is reached; ranges that commit, or an accepted snapshot in place of a pruned range, lead to success |
| PeerSync.VisitMakesProgress | internal/replicationhttp/replication.go:144-202 | if wherever ranges lead the next one commits, the visit succeeds without a snapshot; with a complete peer and nothing rejected it succeeds, with exactly one snapshot if a range was pruned |
| PeerSync.PrunedStaysBehind | internal/replicationhttp/replication.go:157-185 | without a snapshot the mark of a pruned origin stays where it is |
| PeerSync.ProgressIsRealIffOfOrigin | internal/replicationhttp/replication.go:186-201 | a committed answer raises the asked origin's mark to the new loop position iff it is about that origin |
| PeerSync.StrayAnswerLooksLikeProgress | internal/replicationhttp/replication.go:186-201 | an answer about another origin is taken as progress while the asked mark stays behind |
| ClusterSync.VisitTakesGreaterMark | internal/replicationhttp/replication.go:144-202 | a successful visit to a peer that answers from its tables leaves exactly the greater of both marks, per origin |
| ClusterSync.VisitIsAStretch | internal/replicationhttp/replication.go:144-202 | every visit is a continuation of the cluster run |
| ClusterSync.TwoVisitsConverge | internal/replicationhttp/replication.go:129-202 | from every reachable cluster state, two nodes that visit each other to the end have equal marks and agree on every card no unlogged write disturbed |
| ClusterSync.PullFromEachOther | internal/replicationhttp/replication.go:129-202 | the pull loop run once in each direction makes two nodes of a cluster agree on those cards; if the two visited peers always answer it fails only by a refusal |
| ClusterSync.PeerOfMirrors | internal/replicationhttp/replication.go:23-78 | the peer that answers with pages of its retained operations and with its snapshot meets the conditions on peers, and for a configured node answers every request |
| ClusterSync.RetainingPeerCommits | internal/replicationhttp/replication.go:144-202 | from such a peer that retains all above the local marks every request is answered by a range that commits, unless one is rejected, so the visit succeeds |
| ClusterSync.AnsweringViewExists | internal/replicationhttp/replication.go:23-78 | a view of such peers exists for all tables |
| ReferenceModel.KeyInjective | internal/replication/model.go:27 | "origin:sequence" identifies the pair even if origins contain colons |
| ReferenceModel.ApplyAccepts | internal/replication/model.go:38-53 | an operation is refused iff malformed or its slot holds another operation |
| ReferenceModel.MergeTakesFirst | internal/replication/model.go:82-89 | a merge accepts exactly the operations before the first refused one |
| ReferenceModel.StateIsGreatestAccepted | internal/replication/model.go:48-55 | in every run, also through stopped merges, the state is the maximum over accepted operations |
| ReferenceModel.RunsConverge | internal/replication/model.go:38-89 | runs that accepted the same operations end in equal nodes |
| ReferenceModel.SnapshotReproduces | internal/replication/model.go:68-89 | merging a snapshot into a new node gives the original node |
| ReferenceModel.ExchangeConverges | internal/replication/model.go:68-89 | nodes without a collision that merge each other's snapshots become equal |
| ReferenceModel.Node.Apply | internal/replication/model.go:38-53 | refuses exactly malformed operations and other operations in a taken slot, adds the operation otherwise, and keeps the node valid |
| ReferenceModel.Node.State | internal/replication/model.go:55 | the greatest accepted state of a notification, 0 if none |
| ReferenceModel.Node.Cursor | internal/replication/model.go:57-66 | the longest gap-free prefix of an origin, with a wrapping 64-bit counter |
| ReferenceModel.Node.Snapshot | internal/replication/model.go:68-80 | all accepted operations, strictly ascending by origin and sequence |
| ReferenceModel.Node.Merge | internal/replication/model.go:82-89 | takes the operations in order up to the first refused one, and succeeds iff it takes all |
| AgentQueue.CommandsEvolve | internal/store/agent_queue.go:104-316 | ended commands never change, a recorded turn id stays, running is entered only from queued |
| AgentQueue.OneHeldPerChannel | internal/store/agent_queue.go:132-156 | under any clock, at most one command of a channel is running, cancelling or interrupted |
| AgentQueue.OnlyHeadBecomesHeld | internal/store/agent_queue.go:139-156 | a command leaves the queue towards a bridge only as the oldest active one |
| AgentQueue.StartsInOrder | internal/store/agent_queue.go:132-156 | commands are started in the order in which they arrived |
| AgentQueue.CompletedAtMostOnce | internal/store/agent_queue.go:199-230 | a command is completed at most once in a run |
| AgentQueue.ReplyIffCompleted | internal/store/agent_queue.go:199-239 | a command has a reply iff it ended through completion |
| AgentQueue.ReplyIsTheResult | internal/store/agent_queue.go:231-239 | the reply carries that completion's result and never changes |
| QueueLaws.ClaimLaw | internal/store/agent_queue.go:132-156 | row by row: revoked, interrupted, handed out with a minute of lease, or as it was; what is handed out is the oldest unfinished row |
| QueueLaws.NoQueuedWithoutPermission | internal/store/agent_queue.go:133 | after a claim every queued command of the channel has an author who may command |
| QueueLaws.RunsOnlyWithPermission | internal/store/agent_queue.go:132-156 | in every run a command goes from queued to running only through a claim that finds its author permitted |
| QueueLaws.ReplySaysTheResult | internal/store/agent_queue.go:231-239 | in every run the reply of a completed command is its result, or the sentence that names the outcome |
| AgentQueueStore.Store.BindAgent | internal/store/agent_queue.go:46-89 | only an administrator binds, only an enabled agent that operates the channel; bindings are immutable; exactly a new binding is audited |
| AgentQueueStore.Store.EnqueueCommand | internal/store/agent_queue.go:92-102 | one queued command per top-level message, in a bound channel, of an enabled person who may operate it |
| AgentQueueStore.Store.AgentCommandPending | internal/store/agent_queue.go:26-44 | answers only the bound agent that operates the channel: true iff its oldest active command exists and its lease has ended |
| AgentQueueStore.OldestActive | internal/store/agent_queue.go:139-146 | finds the oldest active command, or there is none |
| AgentQueueStore.Store.ClaimAgentCommand | internal/store/agent_queue.go:104-162 | every row spelled out: queued rows of authors without permission are cancelled with the given text, expired ones interrupted, the oldest unfinished one handed out for a minute unless its lease lies in the future, rows of other channels untouched; every command left queued has a permitted author |
| AgentQueueStore.Store.RenewAgentCommand | internal/store/agent_queue.go:170-197 | another minute and the recorded turn iff the caller holds the live lease and no other turn is recorded |
| AgentQueueStore.Store.CompleteAgentCommand | internal/store/agent_queue.go:199-239 | closes and replies in one step iff the caller holds the live lease; the reply is the result, or the sentence that names the outcome |
| AgentQueueStore.Store.ControlAgentCommand | internal/store/agent_queue.go:280-316 | cancel and reconcile, succeeding and audited iff the state changes, with the new row spelled out |
| BridgeProtocol.ExecutionKeepsInv | internal/agentbridge/queue.go:33-115 | for a command no race has touched, in every run only the bridge that dequeued it can start it |
| BridgeProtocol.AtMostOneTurn | internal/agentbridge/queue.go:66-115 | at most one start request of every command that neither race touches, through crashes, late requests and lost leases |
| BridgeProtocol.RestartsExactlyWhenReadClosed | internal/agentbridge/queue.go:87-115 | in every run with no race of either kind on a command so far, the next step starts the started command again iff it is a read-back after a takeover that finds it closed without a recorded turn |
| BridgeProtocol.ClaimAtExpiryStartsAgain | internal/store/agent_queue.go:136-150 | from every reachable state, a claim in the expiry millisecond leads to one more start |
| BridgeProtocol.ReconcileBeforeReadBackStartsAgain | internal/store/agent_queue.go:185-196 | from every reachable state, a reconcile between renewal and read-back leads to one more start |
| BridgeProtocol.ExpiryRaceRun | internal/store/agent_queue.go:136-150 | a reachable state with two starts of one command |
| BridgeProtocol.ReconcileRaceRun | internal/agentbridge/queue.go:87-115 | a reachable state with two starts of one command |
| BridgeLoop.RunQueuedCommand | internal/agentbridge/queue.go:66-173 | one launch iff the row has no turn and is neither interrupted nor cancelling; the loop ends at the first event that ends it, with the exit that event calls for; at most one interrupt and of a known turn; nothing cancelled is called completed, unknown outcomes are not published |
| BridgeLoop.Publish | internal/agentbridge/queue.go:158-172 | publication is tried at most three times and stops at the first success |
| BridgeLoop.RecoverTurn | internal/agentbridge/queue.go:184-223 | polls while the recorded turn runs, reports on that turn only, a missing turn is unknown |
| KeysetQuery.QueryNotifications | internal/store/store.go:2429-2432 | first rows before the cursor, later times first and then greater ids, the limit bounded to 201 |
| KeysetQuery.Select | internal/store/timeline.go:394-399 | first rows before the cursor, later times first and then greater ids |
| Timeline.MergeTimeline | internal/store/timeline.go:541-562 | the rows of all sources, each as often as given, in page order |
| Timeline.MergeIsTop | internal/store/timeline.go:520-531 | merging the first limit + 1 of every source gives exactly the first limit of the union |
| Timeline.MoreIsExact | internal/store/timeline.go:525-530 | more rows are announced iff the union has more |
| Timeline.ListChannelTimelineFiltered | internal/store/timeline.go:476-531 | the page is the first rows before the cursor over all requested sources, 100 of them unless 1 to 200 are asked for; hasMore iff such a row is missing from the page |
| Timeline.NextBelow | internal/store/timeline.go:394-398 | the cursor made from a page's last row leaves exactly the rows after the page |
| Timeline.WalkVisitsEverythingOnce | internal/store/timeline.go:463-531 | following the cursors visits every row once, newest first |
| Timeline.WalkTimeline | internal/store/timeline.go:463-531 | such a walk ends, having seen exactly the rows before the cursor, each once and newest first |
| Digest.CreateDigest | internal/store/workflows.go:384-409 | the paging loop ends and counts exactly the rows updated in the last 24 hours |
| Base64URL.EncodeShape | internal/server/server.go:1522-1524 | unpadded base64url: alphabet characters only, six bits each |
| Base64URL.DecodeOfEncode | internal/server/server.go:1565-1566 | decoding an encoding gives the bytes back |
| Base64URL.AlphabetIsURLSafe | internal/server/server.go:1522-1524 | the 64 letters of section 5 of RFC 4648 in order, in both directions |
| Base64URL.EncodeSpellsTheBits | internal/server/server.go:1522-1524 | the letters spell the bits of the bytes in order, filled up with zeros |
| Base64URL.DecodeAccepts | internal/server/server.go:1565-1569 | exactly alphabet letters, in any number but one more than a multiple of four; the bytes have the bits of the letters |
| Base64URL.BreaksAreSkipped | internal/server/server.go:1565-1569 | line breaks are passed over wherever they stand |
| CursorCodec.ParseCursorAccepts | internal/server/server.go:1570-1576 | a text is a cursor exactly if a positive number stands before its first colon and 1 to 100 bytes after it |
| CursorCodec.CursorsAreEncodedText | internal/server/server.go:1522-1539 | a cursor decodes to the printed time, a colon and the id, after "u" for update times |
| CursorCodec.CursorRoundTrip | internal/server/server.go:1565-1576 | every positive time and id of 1 to 100 bytes comes back, colons included |
| CursorCodec.UpdatedCursorRoundTrip | internal/server/server.go:1537-1549 | the same for cursors by update time |
| CursorCodec.KindsExcludeEachOther | internal/server/server.go:1537-1549 | no text at all is accepted by both decoders |
| CursorCodec.OtherKindIsRejected | internal/server/server.go:1537-1549 | each decoder rejects everything the other encoder makes |
| CursorCodec.AcceptedIsValid | internal/server/server.go:1565-1576 | whatever is accepted is a valid cursor whose own encoding means the same |
| Decimal.NumeralReads | internal/store/postgres_driver.go:202-207 | the formatter prints digits that read back as the number, without leading zero |
| Decimal.NumeralIsDecimal | internal/store/postgres_driver.go:202-207 | digit by digit, most significant first |
| Placeholders.PostgresParameters | internal/store/postgres_driver.go:101-160 | the flag loop computes the token-level rewrite |
| Placeholders.SourceOfLex | internal/store/postgres_driver.go:106-158 | cutting into tokens loses nothing |
| Placeholders.TokensAreSQL | internal/store/postgres_driver.go:106-158 | comments end at the first line end or "*/", quotes at the first quote that is not doubled, or at the end of the text |
| Placeholders.QuestionMarks | internal/store/postgres_driver.go:151-156 | a question mark is a parameter or inside quotes or a comment |
| Placeholders.ParameterIsNumbered | internal/store/postgres_driver.go:151-156 | each parameter gets one more than the parameters before it |
| Placeholders.WithoutParametersNothingChanges | internal/store/postgres_driver.go:157-158 | all other text is kept |
| Placeholders.RewriteIsIdempotent | internal/store/postgres_driver.go:101-160 | rewriting twice is rewriting once |
| RateLimiter.RefusedExactlyWhen | internal/server/mcp.go:80-111 | a call is refused iff its window is full, or its key is new and the table full of live windows |
| RateLimiter.TableStaysWithinCapacity | internal/server/mcp.go:85-105 | the table never exceeds 4096 entries, in any run over all keys |
| RateLimiter.AtMostTwiceTheLimit | internal/server/mcp.go:80-111 | no minute sees 2 × limit granted calls of a key |
| RateLimiter.BoundIsReached | internal/server/mcp.go:80-111 | 2 × limit − 1 is reached, for every limit |
| RateLimiter.ToolLimiter.DropExpired | internal/server/mcp.go:87-91 | the deletion loop keeps exactly the live windows |
| RateLimiter.ToolLimiter.Allow | internal/server/mcp.go:80-111 | a call in a running minute is counted iff the limit allows it, any other begins a minute of its own unless the key is new and 4096 minutes are running; other running minutes stay |
| RateLimiter.ToolLimiter.Blocked | internal/server/mcp.go:113-122 | whether the key's own window is full; if so a call is refused |
| RateLimiter.ToolLimiter.RecordFailure | internal/server/mcp.go:124-137 | counts a failure in the running minute or begins one, except for a new key beside 4096 others |
| RateLimiter.FailuresBlock | internal/server/mcp.go:113-137 | as many failures as the limit within a minute of the first block the key for the rest of that minute and no longer |
| RateLimiter.ToolLimiter.Clear | internal/server/mcp.go:139-143 | forgets one key and no other |
| Schedules.LeasesDoNotOverlap | internal/store/workflows.go:238-277 | leases of successive claims are disjoint unless a finish, reschedule or cancel came between |
| Schedules.OnlyTheLatestClaimFinishes | internal/store/workflows.go:279-286 | a finish moves or deletes the row iff it belongs to the latest claim and nothing touched the row since |
| Schedules.RescheduleIsKept | internal/store/workflows.go:161-192 | a reschedule is never overwritten by an earlier execution |
| Schedules.TokensAreIssuedOnce | internal/store/workflows.go:259-263 | a lease token belongs to one claim of one schedule |
| Schedules.SelectDue | internal/store/workflows.go:239 | the up to fifty earliest due and unleased rows |
| Schedules.Store.LeaseOne | internal/store/workflows.go:264 | leases the row for five minutes iff it is still as selected and unleased, its time and configuration kept |
| Schedules.Store.ClaimSchedules | internal/store/workflows.go:238-277 | leases exactly the selected rows for five minutes, each under its own token |
| Schedules.Store.FinishSchedule | internal/store/workflows.go:279-286 | under its token the row gets its next time, no lease and its own configuration, or is deleted; else nothing |
| Schedules.ClaimThenFinish | internal/store/workflows.go:238-286 | a claimed row can be claimed again only when its lease has run out, and only its own token finishes it |
| Schedules.Store.Snooze | internal/store/workflows.go:161-192 | accepted iff within 30 days; sets the snooze and the schedule together and resets the lease; none removes both |
| Schedules.Store.SaveDigest | internal/store/workflows.go:316-338 | stores the configuration, reschedules and resets the lease, or cancels |

## Left out

- NotificationRecord.ContentKeyInjective: escapes only quotes and backslashes; JSON escapes for control characters and markup, and replacement of invalid UTF-8, are not modelled.
- ReplicaStore.Store.BuildReplicationSnapshot: does not fix the order of the rows (ORDER BY id), which the merge does not depend on.
- ReplicaStore.Store.ApplyReplicationSnapshot: whether the JSON columns of a row parse comes in with the row; the status table of applied snapshots is not modelled.
- ReplicaStore.Store.CreateFromWebhook: webhook token and channel lookups come in as their answers; producer monitors, incident keys and the reset of read state on reopening are not modelled.
- ReplicaBatches.BatchingIsIrrelevant: asks that envelopes at or below the cursor are still retained; for pruned ones the code fails the batch (RedeliveryCommitsIffRetained).
- NotificationConvergence.EqualMarksConverge: says nothing about content and update time, or the state of a card that was updated. `notification.updated` overwrites unconditionally and `notification.state` makes the update time depend on the order, so the code does not provide them.
- ReplicaStore.Store.CreateFromAgent: permission, run state and the internal webhook row come in as their outcome; agent and run columns, incident keys and monitors are not modelled.
- ClusterSync.PullFromEachOther: the visited node's tables stand still during a visit.
- PeerSync.SyncPeer: the control snapshot fetched at the end of a visit and the bookkeeping of peer results are not modelled.
- AgentQueueStore.Store.CompleteAgentCommand: takes the result text as already trimmed of white space.
- BridgeLoop.RunQueuedCommand: the text is taken before it is cut to 4000 bytes; presence updates are not modelled.
- RateLimiter.AtMostTwiceTheLimit: assumes clock readings in the order of the calls; the code reads the clock before it takes the lock.
- Schedules.Store.ClaimSchedules: does not model a failing random source, which would end a claim half-way; interleaved claims are covered by the run lemmas.
- Timeline.ListChannelTimelineFiltered: search, unread and visibility filters are inputs (the set of matching rows); identifiers are present and unique over the three sources, whose prefixes differ, and times are positive, since a cursor with an empty part is ignored.
- Digest.CreateDigest: the lookup of the saved view and the history row are not modelled.
- Several connections: PostgreSQL READ COMMITTED races and locale collations; every transaction is atomic.
- Control snapshots and the Raft control plane: consensus is a library, and acceptance depends on each node's clock.
- HTTP, MCP dispatch, OAuth, Web Push, image proxy, slash commands, Mattermost bridge, the Codex client and the web and desktop clients: input and output around the logic above.
- Textual query rewriting other than placeholders, schema migrations, backup, attention preferences and quiet hours.
