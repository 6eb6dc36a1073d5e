# TinyMQ verification

A Dafny model of TinyMQ's stateful core, with proofs about whole executions of it: leader election and quorum
replication, message dispatch at the granularity of locks, the write-ahead log with compaction, durability of
memory on disk, the rate limiter, and the WebSocket and MQTT wire formats. `dafny verify dfyconfig.toml` checks
everything.

The model is layered. A locked section of the original is a function on values (`Adopt`, `Extract`, `Decide`, ...)
and, where the original changes an object in place, also a method of a class that is proved equal to the function
(`ClusterNode.Node`, `TopicObject.Topic`, `Storage.DiskStorage`, `RateLimit.TokenBucket`, ...). Transition systems
then interleave those functions in every possible order: an execution is any sequence of steps, and a step that is
not possible in a state changes nothing. Theorems are stated about every state of every execution.

| file | content |
|---|---|
| `ClusterNode.dfy`, `Cluster.dfy`, `ClusterSafety.dfy`, `ClusterProgress.dfy` | one cluster node; the cluster as a transition system; what every execution guarantees; what some execution achieves |
| `Messages.dfy`, `Queueing.dfy`, `Topic.dfy` | messages; what each locked section does to a topic's queues; the topic object |
| `Dispatch.dfy`, `DispatchChannels.dfy`, `DispatchDelivery.dfy` | publishing and consuming lock by lock; parked channels; who gets what |
| `DispatchWakeups.dfy`, `WakeupConditions.dfy` | no lost wake-up; exactly when a step is safe |
| `Wal.dfy`, `Filenames.dfy`, `Storage.dfy`, `Durability.dfy` | log replay and compaction; the file name codec; the storage object; memory and disk together |
| `RateLimit.dfy`, `Idempotency.dfy`, `Registry.dfy` | token buckets and their eviction; idempotency keys; topics and the wildcard index |
| `Bytes.dfy`, `WebSocket.dfy`, `Mqtt.dfy` | big-endian numbers and masking; both WebSocket writers and readers; MQTT lengths and PUBLISH |

## Main results

- No term ever has two leaders, over any loss, delay, reordering and any heartbeat whatever (`ElectionSafety`).
- A leader still in its term still leads it, if and only if no heartbeat has deposed it; an elected one is deposed
  only by a heartbeat of that term that names it to itself (`LeaderForItsWholeTerm`).
- Once a node has led a term, a `Replicate` call that starts later for a lower term succeeds only if it finds no
  peer alive at all (`Fencing`). That exception is in the code (internal/cluster/node.go:408-410), although the
  documentation promises a strict majority for every acknowledged publish.
- A node that is not designated can come to lead exactly when another one like it exists and its quorum is within their
  number (`ElectableExactlyWhen`); a replication counts exactly the peers that accept its leader
  (`ReplicationCountsTheTrusting`).
- Whoever a push takes off a waiting list gets the very message of that push, whatever else happens (`HeldIsServed`). A
  broadcast reaches everybody parked where it looks (`BroadcastForgetsNobody`, `BroadcastReachesAll`), an ordinary push
  and a requeue whoever is first in line (`PublishReachesConsumers`, `RequeueHandsOver`).
- While a consumer is parked on a topic or on a pattern, every ready message it wants still has its push to come, in
  every execution whose steps are punctual (`NoWakeupIsLost`); for publishes, requeues, restarts and consumers of
  patterns the exact conditions are proved.
- Every message in memory that is not a broadcast would be recovered from disk with the same content, in every
  execution whose requeues and restarts are careful, exactly when no two topics share a log file
  (`DurableExactlyWhenNoFileIsShared`).
- Compaction is invisible to recovery, now and later (`CompactionIsTransparent`, `CompactionIsTransparentLater`), and
  leaves nothing but one record for each message recovered (`CompactedIsMinimal`). A corrupt line is as if it were not
  there, for both (`CorruptIsSkipped`).
- A request is let through exactly when there is a token, so that a new bucket allows a burst of its rate and no more
  (`AllowsExactlyWhenOneToken`, `BurstIsAllowed`), and evicting idle buckets cannot be observed
  (`EvictionIsUnobservable`).
- Frames and packets written by one side are read back by the other, exactly within the stated limits, and are laid out
  and masked bit by bit as the standards say (`FrameLayout`, `MaskedBits`, `PublishLayout`).

## Where the code falls short of a property

Where a property fails, its exact condition is proved in the lemma named, up to twins, for which there is an example.

- A publish reads the matching patterns before it enqueues, and its push looks at no others, however long the message
  is delayed. A consumer of a pattern that is first asked for after that parks and misses the message when it is due
  (`PublishIsSafeExactlyWhenKnown`, `DelayedPatternExample`). A consumer parked on the object of a deleted topic misses
  everything published after the topic is created again, for the same reason (`StrandedExample`, with the old object
  in the place of the pattern).
- A message requeued before its delivery time, or while a consumer is parked on a pattern its topic matches, gets no
  push and can be missed (`RequeueIsSafeExactlyWhenAttended`). Delayed messages are missed after a restart, as their
  timers are gone (`RecoveryIsSafeExactlyWhenNoneDelayed`).
- A consumer of a pattern misses a message published between its visit to the topic and its parking
  (`ParkingIsSafeExactlyWhenReadyAreComing`, `LateParkingExample`).
- Two queued messages with one id can hide each other from a push, as removal goes by id (`TwinExample`).
- A requeue of an id that is still queued breaks durability (`RequeueIsDurableExactlyWhenCareful`), and so does a
  restart with a live id that has been put twice, as any requeue does (`RestartIsDurableExactlyWhenOncePut`).
- The first record written to a topic hides its legacy log file from recovery (`LegacyIsShadowed`).
- Topics with names such as `a/c` and `a_b_c` share a log file, and purging one loses the messages of the other
  (`DurableExactlyWhenNoFileIsShared`).
- Names such as `a..b` pass the topic name pattern but are refused by the storage, so their messages live in memory
  only; `Durable` says so with an "if and only if".
- A topic name survives its log file name exactly when nothing in it looks like an encoded character
  (`RecoveryRoundTrip`); for the names clients may use this means none of `_b_`, `_b/`, `_a_` (`FaithfulOfValid`).
  Every other name shares its file with a further topic (`SharedFiles`).
- Recovery returns a message once per PUT of its id (`LoadOncePerPut`), so that compacting before or after an id is
  put again makes a difference (`CompactionIsTransparentLater`, `RevivalExample`).
- The server's WebSocket loop leaves the key of a masked ping unread and takes it for the next frame; the stream
  survives exactly when the key's bytes happen to be read over (`PingIsHarmlessExactlyWhen`).
- The designated leader grants no vote and an election is decided only by a grant, so that in a cluster of one, or of
  two with a designated leader, the other node can never be elected (`ElectableExactlyWhen`).
- A publish that a full topic refuses is recovered after a restart all the same (`RefusedIsRecovered`), and so is a
  message that was handed out and not acknowledged (`ConsumedStaysOnDisk`, `HandedOffStaysOnDisk`).
- A leader steps down within its term on a heartbeat that names it to itself (`LeaderForItsWholeTerm`).
- The dead letter suffix is added again at every failure after the third (`ThirdFailureReachesDlq`).

## Model

| member | source | states |
|---|---|---|
| `ClusterNode.QuorumIsMajority` | internal/cluster/node.go:100-117 | whatever the node list looks like, twice the quorum derived from it exceeds the node plus its peers |
| `ClusterNode.QuorumIsLeastMajority` | internal/cluster/node.go:312-332 | with as many peers as the list has entries the quorum is the least majority, which all nodes together reach |
| `ClusterNode.SplitThenJoin` | internal/cluster/node.go:100-117 | the entries of a list hold no comma and, with commas between them, make up the list |
| `ClusterNode.TrimSpaceTrims` | internal/cluster/node.go:100-117 | trimming cuts off white space at both ends, all of it and nothing else |
| `ClusterNode.PeersAreListed` | internal/cluster/node.go:100-117 | an address is a peer if and only if it is a trimmed entry, not blank, not the own address, and not on the own host, by name or with a domain |
| `ClusterNode.VoteIsGrantedExactlyWhen` | internal/cluster/node.go:669-690 | granted if and only if the node is not designated and the term is newer, or is its own with the vote free or the candidate's; the new term, role and vote |
| `ClusterNode.LeaderIsAcceptedExactlyWhen` | internal/cluster/node.go:561-577 | a newer term is accepted from anybody, the present one from the leader on record or while there is none, an older one never; what acceptance changes |
| `ClusterNode.AcksEndAtTimer` | internal/cluster/node.go:421-452 | what is counted are the acknowledgements before the first timer, all of them |
| `ClusterNode.Node.constructor` | internal/cluster/node.go:64-98 | a node starts in term 0 without a vote, leader only if designated, with its peers loaded |
| `ClusterNode.Node.LoadPeersFromEnv` | internal/cluster/node.go:100-117 | the peers are the trimmed entries of the list without blanks, the own address and the own host name |
| `ClusterNode.Node.CalculateQuorum` | internal/cluster/node.go:312-332 | cached or not, the answer is the quorum of the list and a strict majority of the cluster |
| `ClusterNode.Node.HandleHeartbeat` | internal/cluster/node.go:561-577 | when it is accepted, with the new state written out; it never lowers the term nor changes a vote within it |
| `ClusterNode.Node.HandleReplicate` | internal/cluster/node.go:222-240 | acknowledged exactly when trusted, with the condition and the new state written out; term and vote respected |
| `ClusterNode.Node.HandleRequestVote` | internal/cluster/node.go:669-690 | granted if and only if the term is newer or the vote is free or the candidate's already, with the new term, role and vote; term and vote respected |
| `ClusterNode.Node.BeginElection` | internal/cluster/node.go:719-736 | a candidate of the next term that voted for itself and asks every peer |
| `ClusterNode.Node.ReceiveGrant` | internal/cluster/node.go:738-766 | a grant counts only for a candidate still in that term, which leads once it has its quorum |
| `ClusterNode.Node.AwaitReplication` | internal/cluster/node.go:408-453 | past the check of the role, success exactly when no peer is alive or a quorum of acknowledgements arrives before the timer |
| `Cluster.TallyAddsOne` | internal/cluster/node.go:754-763 | every counted grant is a voter not counted before in that term |
| `Cluster.MoveKeepsVotes` | internal/cluster/node.go:222-228 | a move that respects term and vote keeps the vote record exact and write-once |
| `Cluster.RunKeepsInv` | internal/cluster/node.go:165-310 | the invariant holds in every state of every execution, and terms, votes and history only grow |
| `ClusterSafety.ElectionSafety` | internal/cluster/node.go:669-766 | no term ever has two leaders, at once or one after the other |
| `ClusterSafety.SingleReplicationSource` | internal/cluster/node.go:242-264 | all REPLICATE messages of one term, live or from a sync reply, name the same leader |
| `ClusterSafety.VotesAreWriteOnce` | internal/cluster/node.go:669-690 | between any two points of an execution terms do not fall, a vote stands for its term, and past term 0 there is one |
| `ClusterSafety.LeaderForItsWholeTerm` | internal/cluster/node.go:561-577 | a leader still in its term leads it if and only if no heartbeat deposed it; an elected one is deposed only by a heartbeat of that term naming itself |
| `ClusterSafety.SuccessIsMajority` | internal/cluster/node.go:421-452 | a call that succeeds with live peers has a strict majority behind it, all on record for its leader and term |
| `ClusterSafety.Fencing` | internal/cluster/node.go:394-453 | a call started after a later term was won succeeds exactly when it has no live peer |
| `ClusterProgress.CanBeElected` | internal/cluster/node.go:719-766 | with a quorum among those who grant votes, some execution from the start ends with the node leading term 1 |
| `ClusterProgress.ElectableExactlyWhen` | internal/cluster/node.go:669-766 | some execution makes the node leader if and only if there is another node that grants votes and the quorum is within their number |
| `ClusterProgress.ReplicationCountsTheTrusting` | internal/cluster/node.go:394-453 | a call that reaches everybody it found alive counts exactly those who accept it, and succeeds exactly when they and the leader are a quorum |
| `Messages.FateTimeline` | internal/broker/broker.go:461-475 | waiting up to the delivery time, ready from it to the expiry time inclusive, stale afterwards |
| `Queueing.ScanSpec` | internal/broker/broker.go:459-477 | one pass examines a prefix and splits it by fate, in order, leaving the rest untouched |
| `Queueing.ExtractTakesFirstReady` | internal/broker/broker.go:455-486 | the result is the first `limit` ready messages of High, Normal, Low |
| `Queueing.ExtractPartitions` | internal/broker/broker.go:455-486 | every queued message ends up in exactly one of results, queues and expired |
| `Queueing.ExtractSound` | internal/broker/broker.go:461-475 | what is handed out is due and unexpired, what is dropped has expired, nothing is invented |
| `Queueing.EmptyHandedLeavesWaiting` | internal/broker/broker.go:528-531 | a consumer that gets nothing leaves only messages not yet due |
| `Queueing.EnqueueConserves` | internal/broker/broker.go:292-316 | an accepted message is queued once; one victim goes exactly when a drop-oldest topic is full; a full rejecting topic refuses |
| `Queueing.EnqueuePlacesLast` | internal/broker/broker.go:283-316 | an accepted message is served after everything of its own or a higher priority and before the rest |
| `Queueing.VictimIsOldestOfLowest` | internal/broker/broker.go:294-305 | the victim is the head of the lowest-priority queue that is not empty, and only it is removed |
| `Queueing.RemoveTakesOne` | internal/broker/broker.go:989-1004 | removal takes exactly one of the messages with the id if there is any, and adds nothing |
| `Queueing.RemoveInServiceOrder` | internal/broker/broker.go:989-1004 | queue by queue, the first message with the id in service order goes and everything else stays in order |
| `Queueing.RemoveIsExact` | internal/broker/broker.go:604-617 | with unique ids, no message with the id is left |
| `Queueing.PurgePartitions` | internal/broker/broker.go:670-687 | a purge drops exactly the expired messages |
| `TopicObject.Topic.ExtractMessages` | internal/broker/broker.go:455-486 | the object's queues, results and expired ids are those of the specification |
| `TopicObject.Topic.ConsumeHere` | internal/broker/broker.go:527-532 | the consumer gets the first ready messages or is parked last in line |
| `TopicObject.Topic.EnqueueMessage` | internal/broker/broker.go:283-318 | enqueueing with eviction or rejection, as specified |
| `TopicObject.Topic.PublishHere` | internal/broker/broker.go:272-318 | a topic deleted meanwhile takes nothing; otherwise the message is enqueued as specified |
| `TopicObject.Topic.RemoveMessageByID` | internal/broker/broker.go:989-1004 | the first message with the id goes; it is found exactly when one is queued |
| `TopicObject.Topic.PurgeExpired` | internal/broker/broker.go:668-688 | exactly the unexpired messages stay, and the ids of the others are returned |
| `TopicObject.Topic.RequeueHere` | internal/broker/broker.go:639-655 | the first parked consumer gets the message if its channel takes it, otherwise it is queued |
| `TopicObject.Topic.RemoveWaitingConsumer` | internal/broker/broker.go:584-592 | the first occurrence of the channel leaves the waiting list |
| `DispatchChannels.SendGoesThrough` | internal/broker/broker.go:409-440 | a send to a parked or held channel never finds it full |
| `DispatchChannels.RunKeepsChannels` | internal/broker/broker.go:379-441 | live channels are in one place, distinct and never sent to, in every state of every execution |
| `DispatchChannels.HandOffsNeverMiss` | internal/broker/broker.go:379-441 | no hand-off takes its default branch, each channel gets at most one message, and channels parked or held are empty, pairwise distinct and in one place only |
| `DispatchDelivery.PlacesAreReal` | internal/broker/broker.go:379-441 | in every state of every execution a channel recorded as parked is on that list, and one recorded as held is with a push still under way |
| `DispatchDelivery.HeldIsServed` | internal/broker/broker.go:379-441 | over every execution, whoever a push has taken off a list is with it until the channel holds exactly its message |
| `DispatchDelivery.BroadcastForgetsNobody` | internal/broker/broker.go:379-400 | over every execution, once a broadcast is over everybody who was parked where it looked has received exactly its message |
| `DispatchDelivery.BroadcastReachesAll` | internal/broker/broker.go:379-400 | a broadcast left to itself ends, with its message in every inbox of its lists, those lists empty and the other topics as before |
| `DispatchDelivery.PushHandsOver` | internal/broker/broker.go:402-441 | an ordinary push left to itself ends, with its message received by whoever is first on the first list that is not empty, and off its queue; with nobody parked nothing changes |
| `DispatchDelivery.PublishReachesConsumers` | internal/broker/broker.go:272-442 | the same from the publish on, the known patterns before the topic |
| `DispatchDelivery.RequeueHandsOver` | internal/broker/broker.go:639-655 | the first parked consumer receives exactly the requeued message, or it is queued last of normal priority |
| `DispatchDelivery.VisitTakes` | internal/broker/broker.go:518-526 | a pattern's consumer takes the first ready messages of a topic and drops expired ones, nothing else |
| `DispatchDelivery.AcknowledgeTakes` | internal/broker/broker.go:602-617 | one message with the id goes, if there is any |
| `DispatchDelivery.CleaningTakes` | internal/broker/broker.go:668-688 | a purge takes exactly the expired messages, a clearing everything, a draining what has normal priority |
| `DispatchWakeups.PushKeepsWake` | internal/broker/broker.go:379-442 | every section of a push, broadcast or not, keeps the wake-up invariant |
| `DispatchWakeups.PublishKeeps` | internal/broker/broker.go:243-318 | enqueueing, also with eviction, keeps the wake-up invariant when the publish knows the patterns that matter |
| `DispatchWakeups.ConsumeKeepsWake` | internal/broker/broker.go:497-538 | a consumer of a topic, or of a pattern that misses nothing, keeps the wake-up invariant |
| `DispatchWakeups.NoWakeupIsLost` | internal/broker/broker.go:272-442 | over every interleaving of punctual steps, a ready message wanted by a consumer parked on its topic or on a matching pattern has its push to come |
| `WakeupConditions.EarlyIsMissed` | internal/broker/broker.go:444-450 | a message not yet due that no push will bring to a list on which it is wanted is missed there in some continuation |
| `WakeupConditions.PublishIsSafeExactlyWhenKnown` | internal/broker/broker.go:243-251 | a publish that goes through is safe for every continuation if and only if it has read every pattern that matters to its message |
| `WakeupConditions.DelayedPatternExample` | internal/broker/broker.go:444-447 | a delayed message is missed by a consumer of a pattern asked for after the publish |
| `WakeupConditions.StrandedExample` | internal/broker/broker.go:842-856 | a consumer parked on a deleted topic's object misses what is published on its successor |
| `WakeupConditions.RequeueIsSafeExactlyWhenAttended` | internal/broker/broker.go:620-656 | a requeue that is safe for every continuation is taken at once, never ready, or has the pushes it needs; without twins, or due with nobody parked on a pattern, the converse holds too |
| `WakeupConditions.TwinExample` | internal/broker/broker.go:430-439 | with a twin queued before it, a handed-over message stays behind and is missed |
| `WakeupConditions.RecoveryIsSafeExactlyWhenNoneDelayed` | internal/broker/broker.go:165-204 | a restart is safe for every continuation if and only if every recovered message is due or expires before it is, patterns included |
| `WakeupConditions.ParkingIsSafeExactlyWhenReadyAreComing` | internal/broker/broker.go:505-538 | a pattern's consumer parks safely for every continuation only if every ready message of the matching topics has its push to the pattern to come; without twins the converse holds too |
| `WakeupConditions.CleanScanMayPark` | internal/broker/broker.go:518-532 | a scan that leaves only messages not yet due may be followed by parking |
| `WakeupConditions.LateParkingExample` | internal/broker/broker.go:518-532 | a message published between the scan and the parking is missed |
| `Wal.SealedIsValid` | internal/storage/storage.go:40-54 | a record written with its checksum always validates, and writing it again changes nothing |
| `Wal.WrittenCarriesChecksum` | internal/storage/storage.go:40-47 | a written record carries the checksum of itself without one, and is otherwise unchanged |
| `Wal.CorruptIsSkipped` | internal/storage/storage.go:49-54 | anywhere in a log, a line that does not parse or whose checksum is there and wrong changes neither recovery nor compaction |
| `Wal.IntactPutCounts` | internal/storage/storage.go:196-214 | a PUT whose checksum is missing or right makes its message the recovered one of its id |
| `Wal.IntactAckCounts` | internal/storage/storage.go:196-214 | an ACK whose checksum is missing or right removes exactly the messages with its id |
| `Wal.PutIdsFollowLines` | internal/storage/storage.go:202-214 | the ids put are those of the PUT lines that count, in the order of the lines |
| `Wal.RecoveredInPutOrder` | internal/storage/storage.go:217-222 | messages come back in the order in which their ids were put, dead ones left out |
| `Wal.LoadMember` | internal/storage/storage.go:181-222 | recovery returns exactly the messages of the records still live after the replay |
| `Wal.LoadIsLastWord` | internal/storage/storage.go:181-222 | recovery returns a message exactly when a valid line puts it and no later valid line puts or acknowledges its id |
| `Wal.LoadOncePerPut` | internal/storage/storage.go:217-222 | a live message is recovered once for each PUT of its id, a dead one never |
| `Wal.CompactionIsTransparent` | internal/storage/storage.go:227-303 | recovery from a compacted log equals recovery from the log, corrupt lines and all |
| `Wal.CompactionIsIdempotent` | internal/storage/storage.go:248-303 | compacting twice writes the same records |
| `Wal.CompactedIsMinimal` | internal/storage/storage.go:248-303 | the compacted log is one PUT with its checksum for each message recovered, in that order, and nothing else |
| `Wal.CompactionIsTransparentLater` | internal/storage/storage.go:248-303 | with any continuation, compacting first is invisible if and only if no dead id comes back to life |
| `Wal.RevivalExample` | internal/storage/storage.go:202-222 | put, acknowledge, put again tells the two apart |
| `Wal.LoadAfterPut` | internal/storage/storage.go:140-146 | a PUT makes its message recoverable and replaces only what had its id |
| `Wal.LoadAfterAck` | internal/storage/storage.go:148-154 | an ACK removes exactly the messages with its id |
| `Filenames.FilenameRoundTrip` | internal/storage/storage.go:374-378 | for every string, decoding its file name gives it back if and only if it is faithful |
| `Filenames.RecoveryRoundTrip` | cmd/tinymq/main.go:44-56 | startup recovery of a topic's file yields that topic if and only if its name is faithful, and always a name for the same file |
| `Filenames.LegacyRoundTrip` | cmd/tinymq/main.go:44-56 | a topic with slashes is recovered from its legacy file name if and only if that name holds no mark of the new encoding |
| `Filenames.SafeMeansPlainFile` | internal/storage/storage.go:79-93 | a name is accepted if and only if it starts with neither separator and its file name is a plain one |
| `Filenames.NoSharedFiles` | internal/storage/storage.go:89-97 | faithful names never share a log file |
| `Filenames.SharedFiles` | internal/storage/storage.go:89-93 | a name that is not faithful has another name for the same file |
| `Filenames.FaithfulOfValid` | internal/broker/broker.go:69 | for valid names, faithful means free of three sequences |
| `Storage.DiskStorage.WriteRecord` | internal/storage/storage.go:99-123 | the record with its checksum is appended to the topic's file, unless the name is unsafe, and no other file changes |
| `Storage.DiskStorage.AppendPut` | internal/storage/storage.go:140-146 | what recovery would return afterwards, message by message |
| `Storage.DiskStorage.AppendAck` | internal/storage/storage.go:148-154 | what recovery would return afterwards, message by message |
| `Storage.DiskStorage.LoadMessages` | internal/storage/storage.go:156-225 | the replayed log of the topic's file, or of its legacy file; an error for an unsafe name |
| `Storage.LegacyIsShadowed` | internal/storage/storage.go:156-180 | once a record is written under the new name, recovery no longer sees the legacy log |
| `Storage.DiskStorage.CompactLog` | internal/storage/storage.go:227-318 | the file recovers the same messages and holds one record for each, nothing else |
| `Storage.DiskStorage.ClearLog` | internal/storage/storage.go:331-351 | the file is empty afterwards |
| `Storage.DiskStorage.DeleteLog` | internal/storage/storage.go:353-372 | the file is gone afterwards |
| `Durability.ThirdFailureReachesDlq` | internal/broker/broker.go:620-630 | two failures stay on the topic, the third reaches the dead letter queue, later ones add suffixes |
| `Durability.PublishKeepsInv` | internal/broker/broker.go:272-318 | a publish with its PUT, its eviction and the ACK of the victim keeps memory within disk |
| `Durability.DropKeepsInv` | internal/broker/broker.go:488-495 | dropping messages and acknowledging their ids keeps memory within disk |
| `Durability.DropDecidesRecovery` | internal/broker/broker.go:488-495 | after a step that drops and acknowledges, recovery returns what it returned before without the dropped ids |
| `Durability.DiscardedIsNotRecovered` | internal/broker/broker.go:658-740 | messages expired, purged, drained for a redrive, cleared or gone with their topic are not recovered afterwards |
| `Durability.EvictedIsNotRecovered` | internal/broker/broker.go:292-308 | the message that gives way to a publish is not recovered afterwards |
| `Durability.ConsumedStaysOnDisk` | internal/broker/broker.go:455-495 | a message handed to a consumer is still recovered |
| `Durability.HandedOffStaysOnDisk` | internal/broker/broker.go:430-439 | a message that a push takes out of memory is still recovered |
| `Durability.RefusedIsRecovered` | internal/broker/broker.go:278-313 | a publish refused by a full topic leaves memory alone but is recovered, if and only if the topic's name is safe |
| `Durability.StepKeepsInv` | internal/broker/broker.go:595-740 | every operation keeps memory within disk |
| `Durability.HandOffKeepsInv` | internal/broker/broker.go:409-413 | the removal a push makes after a hand-off, without an ACK, keeps memory within disk |
| `Durability.EveryRunIsDurable` | internal/broker/broker.go:206-740 | in every careful execution from an empty store, with no log file shared, each message in memory is recovered if and only if its topic's name is safe |
| `Durability.DurableExactlyWhenNoFileIsShared` | internal/storage/storage.go:89-97 | every careful execution over the names is durable if and only if no two safe names share a log file |
| `Durability.FaithfulNamesShareNoFile` | internal/storage/storage.go:89-97 | faithful names share no log file |
| `Durability.RequeueIsDurableExactlyWhenCareful` | internal/broker/broker.go:636-655 | a requeue, queued or handed over, keeps every continuation durable if and only if no message with its id is queued, other than itself when it is handed over |
| `Durability.RestartKeepsInv` | cmd/tinymq/main.go:41-59 | a restart that finds no id put twice keeps memory within disk |
| `Durability.RestartIsDurableExactlyWhenOncePut` | internal/storage/storage.go:202-222 | a restart keeps every continuation durable if and only if no live id of a recovered topic has more than one PUT in its log |
| `RateLimit.DecideKeepsValid` | internal/transport/rest/ratelimit.go:36-53 | tokens stay between none and the maximum |
| `RateLimit.AllowsExactlyWhenOneToken` | internal/transport/rest/ratelimit.go:36-53 | let through if and only if the bucket can hold a token and has one with what it gained; then exactly one is spent; after a refusal less than one is left |
| `RateLimit.BurstIsAllowed` | internal/transport/rest/ratelimit.go:27-53 | of any number of requests at one instant a new bucket lets through as many as its rate, rounded down |
| `RateLimit.SpacedAreAllowed` | internal/transport/rest/ratelimit.go:36-53 | requests each at least the time of one token after the last are all let through |
| `RateLimit.TokensAreConserved` | internal/transport/rest/ratelimit.go:36-53 | requests let through and tokens left never exceed the tokens there were and those gained |
| `RateLimit.RateBound` | internal/transport/rest/ratelimit.go:36-53 | in any window a bucket lets through at most its maximum plus what it gains meanwhile |
| `RateLimit.IdleIsNew` | internal/transport/rest/ratelimit.go:27-34 | a bucket idle for over a minute decides like a new one |
| `RateLimit.EvictionIsUnobservable` | internal/transport/rest/ratelimit.go:64-103 | on every trace, dropping idle buckets changes no decision |
| `RateLimit.TokenBucket.Allow` | internal/transport/rest/ratelimit.go:36-53 | let through if and only if there is a token with what was gained, and the new bucket |
| `RateLimit.IpRateLimiter.GetBucket` | internal/transport/rest/ratelimit.go:64-81 | the bucket there is or a new one of its own; the others are untouched |
| `RateLimit.IpRateLimiter.Allow` | internal/transport/rest/ratelimit.go:83-85 | one address is decided on and charged, the others are untouched |
| `RateLimit.IpRateLimiter.CleanUp` | internal/transport/rest/ratelimit.go:90-101 | exactly the buckets idle for over a minute go |
| `Idempotency.KeyTable.IsIdempotent` | internal/broker/broker.go:875-901 | the answer and the new table, as specified |
| `Idempotency.RecordedExactlyWhenRoom` | internal/broker/broker.go:881-900 | a new key is recorded, for 300 seconds, if and only if fewer than 20000 keys are still current |
| `Idempotency.TableIsBounded` | internal/broker/broker.go:894-898 | the table never holds more than 20000 keys |
| `Idempotency.DuplicatesAreCaught` | internal/broker/broker.go:881-900 | once recorded, a key is reported as a duplicate for 300 seconds, whatever else happens |
| `Idempotency.DuplicatesAreReal` | internal/broker/broker.go:882-886 | a duplicate is reported only of a key recorded by an earlier call within the window |
| `Registry.Broker.GetOrCreateTopic` | internal/broker/broker.go:143-163 | the topic there is, a new and empty one with the default policy, or none at the limit; the wildcard index stays exact |
| `Registry.Broker.CreateTopic` | internal/broker/broker.go:764-782 | created, empty and with its policy, exactly when there is room and no such topic; the wildcard index stays exact |
| `Registry.Broker.DeleteTopic` | internal/broker/broker.go:842-856 | the name leaves topics and index, and the object is marked as deleted with its queues untouched |
| `Registry.Broker.LoadExistingTopics` | internal/broker/broker.go:165-204 | each name gets a new topic with the messages of its last successful load; names that cannot be loaded are skipped |
| `Registry.Broker.MatchingWildcards` | internal/broker/broker.go:243-251 | publishing consults exactly the patterns that match, through the same topic objects |
| `Registry.Broker.MatchingTopics` | internal/broker/broker.go:505-517 | consuming a pattern scans exactly the topics whose publishes consult it |
| `Bytes.MaskedBits` | client/ws.go:173-176 | each bit of a masked payload is one exactly where the payload and the byte of the key at that position modulo four differ |
| `Bytes.BigEndianDigit` | client/ws.go:163-166 | byte by byte, the number with its high byte first |
| `WebSocket.LengthField` | client/ws.go:157-167 | no extended length up to 125, two bytes up to 65535 and eight beyond, holding the number with its high byte first |
| `WebSocket.FrameLayout` | client/ws.go:152-176 | a final text frame, the mask bit set exactly with a key, the shortest length that holds the number, the key, and the payload masked with it |
| `WebSocket.WriteFrame` | client/ws.go:152-176 | the client writes a masked text frame |
| `WebSocket.SendMessage` | internal/transport/ws/client.go:204-223 | the server writes a plain text frame |
| `WebSocket.UnmaskInPlace` | internal/transport/ws/client.go:106-110 | the buffer is combined with the key, byte by byte |
| `WebSocket.ReadFrame` | client/ws.go:342-388 | the client's reader takes the first frame off the stream, or fails |
| `WebSocket.ReadPayload` | internal/transport/ws/client.go:76-110 | the server's decoder reads the first frame of the stream, or fails with the bytes it leaves |
| `WebSocket.ReadPump` | internal/transport/ws/client.go:57-115 | the server's loop handles what the specification of the stream says |
| `WebSocket.FrameRoundTrip` | internal/transport/ws/client.go:59-111 | any written frame is read back with what follows untouched, if and only if it is within the limit |
| `WebSocket.ServerReadsWhatIsSent` | internal/transport/ws/client.go:57-115 | the server handles the payloads sent in order up to the first over 2 MiB; all of them, and all bytes, if and only if there is none |
| `WebSocket.ClientReadsWhatIsSent` | client/ws.go:342-388 | the client reads the payloads sent in order up to the first over 16 MiB; all of them if and only if there is none |
| `WebSocket.OtherKeysSpoil` | internal/transport/ws/client.go:69-72 | after a ping with any other key some text is lost, or one handled that nobody sent |
| `WebSocket.PingIsHarmlessExactlyWhen` | internal/transport/ws/client.go:57-115 | a masked ping leaves every following stream intact if and only if its key is one of the harmless ones, given byte by byte |
| `Mqtt.WriteRemainingLength` | internal/transport/mqtt/packets.go:44-58 | seven bits to a byte, least significant first |
| `Mqtt.LengthBytes` | internal/transport/mqtt/packets.go:44-58 | byte i carries the i-th group of seven bits, and its top bit is set exactly while there are more |
| `Mqtt.ReadRemainingLength` | internal/transport/mqtt/packets.go:24-42 | a length in at most four bytes, or an error |
| `Mqtt.RemainingLengthRoundTrip` | internal/transport/mqtt/packets.go:24-58 | read back with what follows untouched, in one to four bytes, if and only if at most 268435455 |
| `Mqtt.ReadString` | internal/transport/mqtt/packets.go:60-73 | the string at the offset and the offset after it, or an error |
| `Mqtt.BuildPublish` | internal/transport/mqtt/server.go:339-348 | the packet a subscription sends |
| `Mqtt.PublishLayout` | internal/transport/mqtt/server.go:339-348 | type and flags, remaining length, length of the topic with its high byte first, topic and payload, each in its place |
| `Mqtt.AnyPacketIsRead` | internal/transport/mqtt/server.go:98-131 | any packet is read with its type, flags and body, and what follows left alone, if and only if its body is within 2 MiB |
| `Mqtt.PacketRoundTrip` | internal/transport/mqtt/server.go:98-131 | the packet is the next one read, if and only if within 2 MiB |
| `Mqtt.PublishRoundTrip` | internal/transport/mqtt/server.go:237-260 | topic and payload are received unchanged if and only if the topic has at most 65535 bytes and the packet fits |
| `Mqtt.ClientPublishIsParsed` | internal/transport/mqtt/server.go:237-260 | topic, packet id and payload are taken from where they are, for quality of service 0 and 1; 2 is refused |

## Assumptions

- Cluster: addresses are unique and not empty, each node's list covers exactly the other nodes, at most one node is
  designated leader, and nodes do not restart (term and vote are kept in memory only). Heartbeats may carry any
  term and any leader that is not empty. The host part of an address is an arbitrary function of it.
- Dispatch: topics do not come and go, and which pattern matches which topic is given; every consumer brings a
  channel of its own and asks for at least one message, as the REST handlers do
  (internal/transport/rest/server.go:441, 773); published ids are new.
- Durability: operations are atomic, writes succeed, and published ids are not queued on their topic. The
  store starts empty. A redrive is its draining step followed by ordinary publishes.
- The checksum is an arbitrary function of the record; JSON keeps records intact; clocks do not run backwards. The
  rate of a limiter is positive, as limiting is switched off otherwise (internal/transport/rest/ratelimit.go:105-115).
- Bit operations on bytes and lengths are written as arithmetic: masks as remainders, shifts as divisions.

## Left out

- Sockets, deadlines, HMAC, base64 and JSON text: messages and records are values.
- Gossip, peer liveness, election timing and the content of follower synchronisation: they depend on timing or would add easy members only.
- BIND_GROUP replication: the sender writes four fields and the handler needs five, so it is never acknowledged.
- Deletion as a step of the dispatch model: the object of a deleted topic lives on there with those parked on it, and its successor is another topic; see StrandedExample.
- Consumer groups: the fan-out of a publish to bound topics is a series of further publishes.
- Exactly-once delivery and equality of memory and disk: neither holds; consuming writes no ACK, and a rejected publish has already written its PUT.
- A capacity bound across requeues and recovery: neither checks the limit.
- WebSocket control frames other than their skipping, reconnection, MQTT CONNECT and SUBSCRIBE, MQTT and NATS wildcard translation, NATS lines, webhooks and spies.
- REST handlers, dashboard, command line, backup and restore, environment loading.
- Scanner errors on lines over 4 MiB, and I/O errors in general.
- The regular expressions of wildcards: which names a pattern matches is a parameter.
- The lock that a wildcard push keeps in its default branch (internal/broker/broker.go:415-417): that branch is proved never taken.
- RequeueIsSafeExactlyWhenAttended: leaves open a requeue that is attended and has a twin of which one may be ready, unless it is due and nobody is parked on a pattern, because the outcome depends on which of the two lies first and on how many consumers are parked, as TwinExample shows.
- ParkingIsSafeExactlyWhenReadyAreComing: leaves open the converse for matching topics in which a message that may be ready shares its id, for the same reason.
