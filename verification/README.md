# Verification of socket.io_go

A Dafny model of the parts of socket.io_go that have to agree with each other for messages to arrive: the room index
and its targeting, connection state recovery end to end, the collection of acknowledgements, the Redis adapter and
clusters of servers that use it, the life of sockets, and the client's end of the protocol that is shipped with the
server (packet codec, retry queue, write buffer, id generator).

Code that changes objects in place is modelled by classes and methods; each method is proved to do what a function
on plain values says, and the results about runs are lemmas about those functions. Steps of concurrent parties are
atomic and taken in any order. `dafny verify dfyconfig.toml` checks everything.

| file | what it models |
|---|---|
| `Common.dfy` | shared definitions: options, distinct sequences, runs of steps |
| `RoomIndex.dfy`, `Adapter.dfy` | the two inverse maps of a namespace, their events, and the walk that visits the targets of an operation while the visits change the maps |
| `Yeast.dfy` | the id generator that supplies packet offsets |
| `SessionAwareAdapter.dfy` | the packet log, sessions, sweeping and restoring |
| `ClientSocket.dfy`, `Recovery.dfy` | the client's offset and buffer, and the whole system of server, connection and client over any number of reconnections |
| `AckCollector.dfy` | acknowledgements of a broadcast against a timer |
| `RedisBus.dfy` | the Redis adapter of one server |
| `Cluster.dfy`, `ClusterBroadcast.dfy`, `ClusterFetch.dfy` | bulk requests, broadcasts and fetching in a cluster |
| `Lifecycle.dfy` | sockets from middleware to disconnection |
| `Numbers.dfy` | JavaScript's conversion of text to numbers, with rounding |
| `Binary.dfy`, `PacketCodec.dfy`, `Decoder.dfy` | attachments, packet text, and streams of frames |
| `RetryQueue.dfy` | the client's retry queue |
| `Utf8.dfy`, `WriteBuffer.dfy` | payload sizes and the client's write buffer |

Where the code does not keep what one would expect of it, the model follows the code and the exact condition is proved:

- Recovery delivers each packet exactly once only under three conditions on the run. A reconnection must find a stored
  session whose rooms select what was addressed to the client since its offset: the code accepts a client that comes
  back before the server has noticed the loss, restores whatever session an earlier recovery left behind, and can
  lose a packet that way (`Recovery.StaleSessionLosesPacket`). An overtaken socket must not be closed under a
  newer one, because it takes the newer one's place in the namespace with it. And no connection may be lost while
  replayed packets wait in the client's buffer, because that buffer survives the loss
  (`Recovery.LossDuringReplayDuplicates`). The third condition is exact for every run that keeps the first two
  (`Recovery.ExactlyOnceIff`), and the first two are exact for every step of such a run
  (`Recovery.StaysExactIff`). In ordinary operation, where the server notices every loss before the client comes back
  and the client comes back to the rooms it had, only the third can fail (`Recovery.OrdinaryRecovery`), and the client
  is restored whenever it comes back in time (`Recovery.ComesBackIff`).
- One tick of the sweep timer drops at most one packet when the log is in order
  (`SessionAwareAdapter.SweepLeavesExpiredIff`), and at most one prefix up to the first expired packet otherwise.
- Acknowledgements are counted by the values they carry; they are collected as they should be in every interleaving
  if and only if every answer carries exactly one value (`AckCollector.CollectsExactlyIff`).
- A bulk request over Redis with neither rooms nor exceptions does nothing (`Cluster.RoomsNeededIff`), and a broadcast
  reaches exactly the servers that know the one room its channel is named after (`ClusterBroadcast.ReachesAllIff`),
  which is enough in every cluster only for the broadcasts of `ClusterBroadcast.AlwaysReachesAllIff`.
- A text frame silences the decoder for ever if and only if it is a binary packet that announces no attachments, a
  number of them that no count of buffers equals, or fewer than its placeholders need (`Decoder.SilentForeverIff`).
  The first kind is even emitted (`Decoder.ZeroAttachmentsWedge`); a fraction and infinity are of the second kind
  (`Decoder.FractionSilences`). This is about the decoder alone: the manager around it closes with "parse error" at
  the first text frame that is refused (`client-dist/socket.io.js:4466-4471`), and its cleanup destroys what the
  decoder waits for (4573), which ends the silence (`Decoder.DestroyEndsSilence`).
- A value with binary data comes back as it was if and only if none of its objects looks like a placeholder and none
  has a field named `__proto__`, which is assigned as the prototype of a copy and not as a field
  (`Binary.FillUndoesStripIff`, `Binary.ProtoFieldIsLost`).
- A restored session is not removed from the table, so it can be restored again while its socket is connected
  (`SessionAwareAdapter.RestoredAgain`); connecting a socket leaves all others in place if and only if its id is not in
  use (`Lifecycle.FreeIdNeededIff`).
- The payload limit of the server is kept by every batch that holds some data among packets of exactly known size if
  and only if the client's estimate for it does not fall short (`WriteBuffer.LimitKeptIff`). For binary data that is so
  only in the sizes of `WriteBuffer.BinaryExactIff`; a single octet can break the limit
  (`WriteBuffer.OneOctetBreaksLimit`), and an empty array buffer switches it off for all that follows.

## Model

| member | source | states |
|---|---|---|
| RoomIndex.InverseIsUnique | socket/adapter.go:64-108 | the room map is determined by the socket map, so an operation that leaves the socket map alone leaves the index alone |
| RoomIndex.BirthsAlternate | socket/adapter.go:64-99 | in any trace that replays, create and delete events of a room strictly alternate, and the room exists exactly after an odd number of them |
| Adapter.InMemoryAdapter.AddAll | socket/adapter.go:64-77 | the socket is in its old rooms and the new ones, the maps stay inverse without empty rooms, and the events, all of this socket and these rooms, replay to the room map |
| Adapter.InMemoryAdapter.AddToRoom | socket/adapter.go:67-76 | adding one member keeps the room map inverse to the socket map with that room added |
| Adapter.InMemoryAdapter.Del | socket/adapter.go:80-85 | only the given room is lost by only the given socket; the index and the trace stay consistent |
| Adapter.InMemoryAdapter.DelFromRoom | socket/adapter.go:87-98 | removing one member, and the room with the last one, keeps the room map inverse |
| Adapter.InMemoryAdapter.DelAll | socket/adapter.go:101-108 | the socket is forgotten, all others keep their rooms, and the leave and delete events replay |
| Adapter.InMemoryAdapter.ComputeExceptSids | socket/adapter.go:273-284 | exactly the sockets that are in one of the excepted rooms |
| Adapter.InMemoryAdapter.Perform | socket/adapter.go:220-240 | what a bulk callback does to one socket, through the same index that is being walked |
| Adapter.InMemoryAdapter.Apply | socket/adapter.go:242-271 | visits every socket targeted at the start exactly once and no other, for any iteration order, and the final index is the one-shot update, although the callbacks change the maps under the walk |
| Adapter.InMemoryAdapter.WalkRooms | socket/adapter.go:245-259 | the same for the walk over the given rooms, whose members are read when the walk gets there |
| Adapter.InMemoryAdapter.VisitMembers | socket/adapter.go:249-257 | members of one room that were visited before, or are excepted, are skipped; all other targets in it are visited |
| Adapter.InMemoryAdapter.WalkSids | socket/adapter.go:260-270 | the same for the walk over the live socket map |
| Adapter.InMemoryAdapter.Broadcast | socket/adapter.go:134-158 | one copy for each target, nothing else; maps and trace unchanged |
| Adapter.InMemoryAdapter.BroadcastWithAck | socket/adapter.go:161-189 | the reported client count is the number of targets, each of which gets one copy |
| Adapter.InMemoryAdapter.AddSockets | socket/adapter.go:220-224 | all targets of the initial state join all rooms, nobody else does |
| Adapter.InMemoryAdapter.DelSockets | socket/adapter.go:227-233 | all targets of the initial state leave all rooms, nobody else does |
| Adapter.InMemoryAdapter.DisconnectSockets | socket/adapter.go:236-240 | all targets of the initial state are gone, nobody else is |
| Adapter.ActedTwice | socket/adapter.go:242-271 | acting on two disjoint groups one after the other is acting on both at once |
| Yeast.Encode | client-dist/socket.io.js:912-921 | the printing loop yields the positional base-64 form |
| Yeast.PrintRoundTrip | client-dist/socket.io.js:912-921 | the printed form determines the number |
| Yeast.Generator.Next | client-dist/socket.io.js:929-933 | one call advances seed and previous value as the specification says |
| Yeast.IdsAreRendered | client-dist/socket.io.js:929-933 | each id is the clock reading, with the number of equal readings just before it behind a dot when there are any |
| Yeast.RenderInjective | client-dist/socket.io.js:929-933 | no two different pairs of reading and repetition are rendered alike |
| Yeast.DistinctIffContiguous | client-dist/socket.io.js:929-933 | the ids of a run are distinct if and only if no clock reading comes back after a different one |
| Yeast.MonotoneClockGivesDistinctIds | socket/session-aware-adapter.go:123 | under a clock that never goes back all offsets are distinct, which the first-match lookup relies on |
| Yeast.ClockStepBackRepeatsId | client-dist/socket.io.js:929-933 | a clock that steps back and forth repeats an id |
| SessionAwareAdapter.RecoveringAdapter.Sweep | socket/session-aware-adapter.go:34-52 | one tick drops the sessions and the part of the log that the specification of sweeping says |
| SessionAwareAdapter.RecoveringAdapter.SweepSessions | socket/session-aware-adapter.go:36-41 | exactly the sessions older than the threshold are deleted while the map is walked |
| SessionAwareAdapter.RecoveringAdapter.SweepPackets | socket/session-aware-adapter.go:45-51 | the log is cut behind the first expired packet |
| SessionAwareAdapter.RecoveringAdapter.PersistSession | socket/session-aware-adapter.go:58-61 | the session is stored with its time, others are untouched |
| SessionAwareAdapter.RecoveringAdapter.RestoreSession | socket/session-aware-adapter.go:63-110 | the session and, in log order, the packets behind the first one with the offset that its rooms include; nothing when session or offset is unknown or expired; only an expired session is removed |
| SessionAwareAdapter.RecoveringAdapter.Broadcast | socket/session-aware-adapter.go:116-139 | events without acknowledgement that are not volatile get an id as last argument and are logged; every packet goes once to each live target |
| SessionAwareAdapter.ShouldIncludePacket | socket/session-aware-adapter.go:141-156 | accepts a set of rooms exactly when a walk of the index would visit a socket in those rooms |
| SessionAwareAdapter.SweepDropsAtMostOne | socket/session-aware-adapter.go:45-51 | with timestamps in order a tick drops the oldest packet if it has expired and nothing else |
| SessionAwareAdapter.SweepKeepsUnexpiredIff | socket/session-aware-adapter.go:45-51 | a tick leaves a suffix, and loses no unexpired packet if and only if none precedes the first expired one |
| SessionAwareAdapter.SweepLeavesExpiredIff | socket/session-aware-adapter.go:45-51 | after a tick no expired packet is left if and only if at most the oldest one had expired |
| SessionAwareAdapter.SweepIsObservationallySafe | socket/session-aware-adapter.go:34-110 | an earlier tick can turn a later restore into nothing, exactly when it cut the offset packet, but never changes what a successful restore returns; swept and lazy expiry of sessions agree |
| SessionAwareAdapter.SweepsAreObservationallySafe | socket/session-aware-adapter.go:34-110 | the same after any number of ticks at any times before the restore |
| SessionAwareAdapter.SweptIff | socket/session-aware-adapter.go:36-41 | a stored session outlives any ticks if and only if none of them is more than the maximal duration later |
| SessionAwareAdapter.RestoredIff | socket/session-aware-adapter.go:58-110 | after any ticks a stored session is restored if and only if no more than the maximal duration has passed and the offset packet is in the log, with the stored rooms |
| SessionAwareAdapter.RestoredAgain | socket/session-aware-adapter.go:63-110 | until it expires a restored session can be restored again, with the same rooms, for exactly the offsets still in the log, whether or not the first restored socket is connected |
| ClientSocket.ClientSocket.EmitEvent | client-dist/socket.io.js:3682-3707 | the packet is processed and its last argument, if it is text and the session is recoverable, becomes the offset |
| ClientSocket.ClientSocket.OnEventPacket | client-dist/socket.io.js:3667-3680 | a packet is processed when connected and buffered otherwise |
| ClientSocket.ClientSocket.OnConnectPacket | client-dist/socket.io.js:3759-3792 | the buffer is processed in order and emptied |
| ClientSocket.ClientSocket.OnConnectionLost | client-dist/socket.io.js:3607-3612 | offset and buffer survive the loss of the connection |
| ClientSocket.EveryEventIsProcessed | client-dist/socket.io.js:3607-3792 | in every run of arrivals, connections and losses, what is processed and what waits in the buffer is what has arrived, in order, and nothing waits while connected |
| ClientSocket.OffsetIsLatestText | client-dist/socket.io.js:3682-3707 | in every run the offset of a recoverable client is the last argument of the latest processed event that ends in text, whatever other events came after it, and other clients have none |
| Recovery.ExactlyOnceIff | socket/session-aware-adapter.go:58-139 | over any run of broadcasts, packets that are not logged, ticks, room changes, losses noticed or not, closings and reconnections in which every restored session selects what was addressed since the offset and no overtaken socket is closed under a connected newer one: without a loss during a replay the client has always processed, of the logged packets, a prefix of what is addressed to it; once settled it has processed exactly that, in log order, if and only if no connection was lost during a replay |
| Recovery.StaysExactIff | socket/socket.go:595-620 | after a good run, a step leaves a system in which a settled client always has exactly its packets, in every further good run, if and only if the step is neither a reconnection with a session that does not select what was addressed nor the closing of an overtaken socket under a connected newer one |
| Recovery.StaleSessionLosesPacket | socket/session-aware-adapter.go:63-110 | a run in which the client comes back before the server has noticed the loss, the session of an earlier recovery is restored without a room joined since, and a packet is lost for good although no connection was lost during a replay and the rooms never changed after the offset |
| Recovery.OrdinaryRecovery | socket/session-aware-adapter.go:58-139 | over any run in which every closing stores a session and every reconnection finds the old socket closed and the client's rooms as they were for every packet since its offset, with anything broadcast meanwhile and any number of times: without a loss during a replay the client has processed a prefix of what is addressed to it, and once settled exactly that if and only if there was no such loss |
| Recovery.ComesBackIff | socket/session-aware-adapter.go:58-110 | a client whose socket was closed recoverably is restored, in the rooms it had then, if and only if it comes back within the maximal duration, whatever was broadcast and swept meanwhile, as long as the packet of its offset is not older than that |
| Recovery.ServerFollows | socket/session-aware-adapter.go:34-139 | in every run each step changes sessions, log and rooms exactly as it should: only recoverable closings store a session and only ticks remove one, when it has expired; only broadcasts add to the log and only ticks drop its oldest packet, when it has expired |
| Recovery.SignalArrives | socket/session-aware-adapter.go:116-138 | a packet that is not logged reaches a settled client exactly if it is for its rooms, and leaves the offset alone |
| Recovery.LossDuringReplayDuplicates | client-dist/socket.io.js:3607-3612 | a run in which a connection lost between replayed packets and the connect packet makes the client process a packet twice |
| Recovery.StepKeeps | socket/socket.go:187-200 | every step that does not disturb keeps the link between history, log, wire, buffer and offset |
| Recovery.ReplayIsTheRestIff | socket/session-aware-adapter.go:79-104 | what a successful restore returns is exactly what is addressed to the client and lies behind its offset if and only if the stored rooms select the same packets there |
| AckCollector.Collector.CheckCompleteness | socket/broadcast-operator.go:212-224 | calls back exactly when not timed out and both counts match |
| AckCollector.Collector.OnClientCount | socket/broadcast-operator.go:230-234 | a server's report adds to both counters and checks |
| AckCollector.Collector.OnResponse | socket/broadcast-operator.go:235-241 | an answer adds all its values and checks |
| AckCollector.Collector.OnServerCount | socket/broadcast-operator.go:242-243 | the number of servers is learnt and checked |
| AckCollector.Collector.OnTimer | socket/broadcast-operator.go:195-206 | a timer that was not cleared reports an error with the answers so far |
| AckCollector.CollectsExactly | socket/broadcast-operator.go:183-243 | for every interleaving of reports, single-valued answers, learning the server count and the timer: at most one call, a success exactly when every server reported and every client answered before the timer, with all answers, and always in that case |
| AckCollector.SpreadValuesMiscount | socket/broadcast-operator.go:235-241 | an answer with two values and one with none lead to an early and a second success |
| AckCollector.CollectsExactlyIff | socket/broadcast-operator.go:183-243 | with or without a single response expected, the calls are as they should be in every interleaving if and only if every client answers with exactly one value |
| RedisBus.OperationsMean | adapter/redis/redis.go:483-536 | joining, leaving and disconnecting change exactly the rooms, or the presence, of exactly the targets |
| RedisBus.RedisAdapter.Bulk | adapter/redis/redis.go:290-343 | a bulk operation is only published, or with the local flag performed on local targets, each of which is announced |
| RedisBus.RedisAdapter.Announce | adapter/redis/redis.go:90-124 | the messages about single sockets, in the order of the visits |
| RedisBus.RedisAdapter.OnRequest | adapter/redis/redis.go:462-543 | a request with options is performed on the local targets and announced; one without is ignored unless it names a socket of this server that another server, or a disconnection, is about |
| RedisBus.RedisAdapter.Broadcast | adapter/redis/redis.go:143-165 | publishes unless local, on the channel of one of the rooms, and writes to each local target once |
| RedisBus.RedisAdapter.OnMessage | adapter/redis/redis.go:421-459 | writes once to each local target unless the channel names no room, an unknown room, or the message is the server's own |
| RedisBus.AnnouncedIff | adapter/redis/redis.go:90-124 | exactly these messages are published for the visited sockets: one for each that joins or disconnects, and one for each that leaves and each room |
| RedisBus.SingleMessageMeans | adapter/redis/redis.go:494-544 | a message about one socket does nothing where the socket is not, or when it is the own one of the server and no disconnection; otherwise a join is for everybody in the room of the socket's name, a disconnection for the socket alone, and leaving for every socket of the server |
| RedisBus.RoomExistsIffListed | adapter/redis/redis.go:430-436 | the room map has a room exactly when some socket is in it |
| Cluster.ClusterActsAsOne | adapter/redis/redis.go:290-343 | any number of bulk requests by any servers: each server has always performed, in order, a beginning of the requests that name a room; when all messages are handled the sockets of all servers are where one adapter with all of them would have put them |
| Cluster.ReceptionDecreases | adapter/redis/redis.go:90-124 | handling a message lowers the number of bulk requests, or leaves it and lowers the number of all messages, so the cascade of messages about single sockets dies out in every order |
| Cluster.Ignored | adapter/redis/redis.go:497-531 | no server acts on a message about a single socket |
| Cluster.WaitingMessageIsTaken | adapter/redis/redis.go:405-418 | a waiting message can always be handled |
| Cluster.ClusterSettles | adapter/redis/redis.go:462-543 | from any reachable state the cluster comes to rest, with the index of one adapter |
| Cluster.RoomsNeededIff | adapter/redis/redis.go:727-738 | a bulk request does in every cluster what one adapter does if and only if it names a room to act on or to spare, or would change nothing anyway |
| Cluster.MergePerforms | socket/adapter.go:242-271 | an operation on two disjoint sets of sockets is the operation on each |
| ClusterBroadcast.DeliversWhatIsDue | adapter/redis/redis.go:143-165 | for any order of arrival no socket ever has more copies than due, and has all of them when nothing is under way |
| ClusterBroadcast.ReachesAllIff | adapter/redis/redis.go:421-459 | a broadcast reaches everybody it is addressed to if and only if every other server with a target has the room the channel is named after |
| ClusterBroadcast.AlwaysReachesAllIff | adapter/redis/redis.go:143-165 | a broadcast reaches everybody in every cluster if and only if it is local, or names a room and every room not excepted is the one its channel is named after (or that one is the empty name) |
| ClusterBroadcast.OneRoomReachesAll | adapter/redis/redis.go:421-459 | a broadcast to one room, or a local one, reaches everybody it is addressed to |
| ClusterBroadcast.OneRoomExactlyOnce | adapter/redis/redis.go:143-165 | broadcasts to one room each, arriving in any order: exactly one copy for each addressee on any server and none for anybody else |
| ClusterBroadcast.TwoRoomsCanMiss | adapter/redis/redis.go:156-161 | with two rooms a server that has only the other one is missed |
| ClusterFetch.FetchRequest.Send | adapter/redis/redis.go:661-663 | a socket goes into the channel, or panics when it is closed |
| ClusterFetch.FetchRequest.CountReply | adapter/redis/redis.go:664 | a reply is counted |
| ClusterFetch.FetchRequest.CloseIfLast | adapter/redis/redis.go:665-672 | the channel is closed when all servers are counted and nobody has closed it |
| ClusterFetch.FetchRequest.Receive | adapter/redis/redis.go:257-275 | the caller takes the next socket, or is done when the channel is closed and empty |
| ClusterFetch.FetchCollects | adapter/redis/redis.go:210-287 | for every interleaving of the handlers' steps, the caller and the timeout: nothing is sent to or closed after a close; the caller has the local sockets and then a prefix of what was sent, no socket more often than in the replies; when all handlers are through the channel is closed, and a caller that saw it has all sockets of all servers exactly once |
| ClusterFetch.FetchCompletes | adapter/redis/redis.go:244-287 | from every state in which the caller is collecting, steps other than the timeout lead to a caller that has the sockets of all servers |
| ClusterFetch.RunsAreBounded | adapter/redis/redis.go:244-287 | every step takes something from a number that the replies give, so no run goes on for ever |
| ClusterFetch.SomebodyCanStep | adapter/redis/redis.go:244-287 | as long as the caller is collecting, somebody can take a step other than the timeout |
| ClusterFetch.ClosedAndEmptyEnds | adapter/redis/redis.go:258-263 | in every run a caller that finds the channel closed and empty is done, with the sockets of all servers |
| ClusterFetch.CallerFinishes | adapter/redis/redis.go:255-283 | once all handlers are through, the caller completes by taking what is left and looking once more |
| ClusterFetch.LateRepliesAreDropped | adapter/redis/redis.go:244-248 | a reply is dropped if and only if it comes after the timeout |
| Lifecycle.Server.Add | socket/namespace.go:233-284 | a new socket, back in its rooms if restored, waits for the middleware or is connected at once |
| Lifecycle.Server.OnMiddleware | socket/namespace.go:241-266 | a socket is rejected when its client is gone or there is an error, and connected otherwise |
| Lifecycle.Server.DoConnect | socket/namespace.go:288-303 | the socket enters the namespace, its own room and both maps of its client |
| Lifecycle.Server.JoinRooms | socket/socket.go:441-451 | only a socket that may join gets the rooms |
| Lifecycle.Server.LeaveRoom | socket/socket.go:466-469 | the room is left |
| Lifecycle.Server.Cleanup | socket/socket.go:623-629 | all rooms are left and none can be joined any more |
| Lifecycle.Server.ClientRemove | socket/client.go:120-127 | the client forgets the socket it has under the id |
| Lifecycle.Server.OnClose | socket/socket.go:595-620 | a connected socket leaves rooms, namespace and client, and emits disconnect; any other stays as it is |
| Lifecycle.Server.CloseSockets | socket/client.go:214-223 | closing one socket after the other, while each leaves the map that is walked, closes exactly the connected sockets the map led to, also when other clients have sockets with the same ids |
| Lifecycle.Server.ClientOnClose | socket/client.go:214-225 | losing the connection closes all sockets of the client |
| Lifecycle.Server.ClientDisconnect | socket/client.go:110-117 | disconnecting the client has the same effect as losing its connection |
| Lifecycle.Server.Disconnect | socket/socket.go:652-665 | closes one socket or, with the flag, the whole client |
| Lifecycle.LifecycleIsSafe | socket/socket.go:595-665 | in every run a connected socket is in its namespace, in both maps of its client and in its own room unless it was told to leave it, its client is open, the maps lead to connected sockets only, only living sockets are in rooms, and disconnect was emitted once by sockets that were connected and are no longer, never by others |
| Lifecycle.RoomsIff | socket/socket.go:441-472 | in every orderly run a living socket is in a room if and only if it was put there, by being restored, by connecting for its own room, or by a join, and its id was not taken out since |
| Lifecycle.StatusIff | socket/socket.go:595-665 | in every orderly run each event creates, connects, rejects and closes exactly the sockets that it should, and opens and ends exactly the connections |
| Lifecycle.CloseIsShut | socket/client.go:120-127 | closing a socket that its client knows removes what its id and namespace lead to, in whatever state |
| Lifecycle.ShutRemovesOwn | socket/client.go:120-127 | when everything is in place, what closing removes by id is exactly what leads to the closed sockets |
| Lifecycle.EntriesAlwaysSound | socket/client.go:96-127 | in every run from the empty server, also with ids used twice or connecting twice at once, the map of a client leads to connected sockets of that client |
| Lifecycle.DeadIsNowhere | socket/socket.go:441-451 | a closed or rejected socket is in no map, in no room unless its id was taken over, and cannot join any |
| Lifecycle.DeadForever | socket/socket.go:595-629 | a closed or rejected socket never changes again in any continuation of a run |
| Lifecycle.MiddlewareDecides | socket/namespace.go:241-266 | after the middleware a socket is connected and in its own room, or rejected and in none |
| Lifecycle.GoneClosesExactly | socket/client.go:214-225 | losing a connection closes every connected socket of the client, with one disconnect each, and leaves all others as they are |
| Lifecycle.FreeIdNeededIff | socket/namespace.go:288-303 | connecting a socket leaves all connected sockets in place if and only if no connected one has its id in the namespace or with the client |
| Lifecycle.OverlapStripsNewSocket | socket/socket.go:595-629 | if a socket connects with the id of one that is still connected, closing the old socket leaves the new one connected but in no room and not in the namespace |
| Binary.HasBinary | client-dist/socket.io.js:2555-2585 | holds exactly when there is a binary leaf |
| Binary.AnyHasBinary | client-dist/socket.io.js:2560-2568 | the same for the items of a list, stopping at the first one |
| Binary.BufferList.Deconstruct | client-dist/socket.io.js:2608-2641 | appends the binary leaves in traversal order and replaces them by numbered placeholders, losing fields that cannot be assigned |
| Binary.BufferList.DeconstructAll | client-dist/socket.io.js:2619-2626 | the same for the items of a list |
| Binary.Reconstruct | client-dist/socket.io.js:2657-2681 | puts the buffers back, failing on a number outside the buffers and yielding undefined for a fraction inside |
| Binary.ReconstructAll | client-dist/socket.io.js:2669-2672 | the same for the items of a list |
| Binary.StripRemovesBinary | client-dist/socket.io.js:2608-2641 | no binary leaf is left after deconstruction |
| Binary.LeavesAreReached | client-dist/socket.io.js:2555-2585 | the leaves are exactly what is binary along some path into the value |
| Binary.NothingBinaryReached | client-dist/socket.io.js:2608-2641 | no path into a deconstructed value leads to anything binary |
| Binary.StrippedWhereItWas | client-dist/socket.io.js:2608-2641 | whatever a path leads to in a plain value, the same path leads to in the deconstructed one, itself deconstructed |
| Binary.PlaceholderFilledIff | client-dist/socket.io.js:2660-2668 | a placeholder is filled if and only if its number is in the range of the buffers, and a fraction is filled with undefined |
| Binary.FillUndoesStripIff | client-dist/socket.io.js:2608-2681 | reconstruction restores the value if and only if it holds no object that only looks like a placeholder and none with a field that cannot be assigned |
| Binary.ProtoFieldIsLost | client-dist/socket.io.js:2626-2635 | a text in a field named `__proto__` is gone from the packet that is sent |
| Binary.NumbersOfStripped | client-dist/socket.io.js:2608-2641 | placeholders are numbered consecutively in traversal order, one for each binary leaf |
| Numbers.NumberOfPrinted | client-dist/socket.io.js:2892-2902 | every safe integer that is printed converts back to itself, in spite of rounding |
| Numbers.AcceptedButNotWhole | client-dist/socket.io.js:2896-2900 | "1.5" and "Infinity" are equal to the numbers they convert to, so they are accepted as counts |
| PacketCodec.DecodeString | client-dist/socket.io.js:2876-2950 | the cursor code yields what parsing field by field yields, errors included |
| PacketCodec.ReadRest | client-dist/socket.io.js:2905-2949 | namespace, id and payload are read one after the other |
| PacketCodec.ReadParts | client-dist/socket.io.js:2905-2940 | one cursor splits the text into namespace, digits and payload |
| PacketCodec.ReadPacket | client-dist/socket.io.js:2935-2949 | the digits are converted, and the payload fits the type or there is none |
| PacketCodec.ReadAttachments | client-dist/socket.io.js:2890-2902 | reads the number before the dash, whether or not it can be reached by counting |
| PacketCodec.ReadNsp | client-dist/socket.io.js:2905-2917 | reads the namespace up to the comma |
| PacketCodec.ReadId | client-dist/socket.io.js:2920-2936 | reads the longest run of characters that are loosely equal to numbers |
| PacketCodec.HeaderRoundTripIff | client-dist/socket.io.js:2747-2950 | every packet of the protocol is read back unchanged if and only if its namespace starts with a slash and has no comma |
| PacketCodec.PayloadDecides | client-dist/socket.io.js:2938-2998 | a packet with a clean namespace is read back, or refused as invalid, according to whether its payload is of the kind its type allows |
| PacketCodec.FirstCharacterDecides | client-dist/socket.io.js:2879-2887 | the first character gives the type, and all but seven digits and white space are refused as unknown |
| PacketCodec.IdDecides | client-dist/socket.io.js:2920-2936 | digits and spaces before the payload are read as the number they are, if any |
| PacketCodec.EncodingInjective | client-dist/socket.io.js:2747-2772 | no two packets with clean namespaces have the same text |
| Decoder.Encode | client-dist/socket.io.js:2727-2791 | one text frame, or a text frame and the binary leaves in order |
| Decoder.BinaryReconstructor.TakeBinaryData | client-dist/socket.io.js:3027-3039 | completes the packet with the last announced buffer |
| Decoder.PacketDecoder.Add | client-dist/socket.io.js:2827-2867 | one frame changes the pending packet and the emitted packets as specified, or is refused |
| Decoder.PacketDecoder.Destroy | client-dist/socket.io.js:2961-2971 | the packet under reconstruction is given up, nothing is emitted |
| Decoder.FramesHaveTheirTurn | client-dist/socket.io.js:2827-2867 | an idle decoder refuses binary frames and is not changed by a refusal, a waiting one refuses text, keeps all binary frames but the last one announced, and refuses that one exactly if it does not emit |
| Decoder.PacketRoundTripIff | client-dist/socket.io.js:2727-2867 | the frames of a packet make the decoder emit exactly it and leave nothing pending if and only if, in case it has binary data, none of its objects only looks like a placeholder or has a field that cannot be assigned |
| Decoder.StreamRoundTrip | client-dist/socket.io.js:2826-2867 | the frames of any list of packets make the decoder emit exactly the list, in order, and leave nothing pending |
| Decoder.SilentForeverIff | client-dist/socket.io.js:2826-2867 | a text frame leaves an idle decoder silent for ever, whatever frames follow, if and only if it is a binary packet that announces no attachments, a number of them that no count of buffers equals, or too few for its placeholders |
| Decoder.DoomedIsSilent | client-dist/socket.io.js:2826-2867 | such a decoder emits nothing in any run of frames and refuses every text frame |
| Decoder.FractionSilences | client-dist/socket.io.js:2890-2902 | the texts 51.5- and 5Infinity-, followed by any list with elements, silence any idle decoder |
| Decoder.DestroyEndsSilence | client-dist/socket.io.js:2961-2971 | a doomed decoder that is destroyed after any frames is not silent any more |
| Decoder.ZeroAttachmentsWedge | client-dist/socket.io.js:2838-2842 | a binary packet without attachments is emitted, yet nothing that follows is, and every later text frame is refused |
| Decoder.ZeroAttachmentsText | client-dist/socket.io.js:2747-2772 | under every codec that prints some list with elements there is such a text |
| Decoder.ZeroAttachmentsExample | client-dist/socket.io.js:2838-2842 | a codec and a literal text that silence a decoder |
| RetryQueue.ClientQueue.AddToQueue | client-dist/socket.io.js:3452-3503 | the packet goes to the end of the queue, which is drained |
| RetryQueue.ClientQueue.DrainQueue | client-dist/socket.io.js:3515-3532 | the first packet is sent with a new acknowledgement id unless it is pending and not forced |
| RetryQueue.ClientQueue.Callback | client-dist/socket.io.js:3468-3498 | counts only for the first packet: finishes it, gives it up or lets it be sent again |
| RetryQueue.ClientQueue.OnAck | client-dist/socket.io.js:3744-3751 | an acknowledgement runs the callback of the attempt and forgets it |
| RetryQueue.ClientQueue.OnTimer | client-dist/socket.io.js:3376-3387 | a timeout forgets the attempt and runs its callback with an error |
| RetryQueue.ClientQueue.OnConnect | client-dist/socket.io.js:3760-3770 | a new connection resends the first packet |
| RetryQueue.QueueIsOrdered | client-dist/socket.io.js:3451-3532 | over any run of emissions, acknowledgements, timeouts and reconnections: callbacks run once each in the order of emission, a packet is sent only when all before it are finished, so sent ids never decrease, one is given up only after more attempts than retries, none is lost, and on a live connection the first packet is always under way |
| RetryQueue.EveryEventActs | client-dist/socket.io.js:3451-3532 | in every run the first unfinished packet is sent once more, under a fresh acknowledgement id, exactly at these events: a connection, an emission into an empty queue, and, while connected, an acknowledgement or timeout of it that does not leave the queue empty; it is finished exactly by an acknowledgement, or by a timeout after more attempts than retries |
| RetryQueue.EveryAttemptWaits | client-dist/socket.io.js:3376-3387 | an attempt is waited for until its own acknowledgement or timeout, and over any loss of the connection |
| RetryQueue.ConnectResends | client-dist/socket.io.js:3759-3770 | in every run a new connection sends the first packet of the queue once more, pending or not, under a fresh acknowledgement id |
| RetryQueue.SuccessWasAcknowledged | client-dist/socket.io.js:3468-3498 | a packet finishes without error only if the server acknowledged an attempt to send that very packet |
| RetryQueue.AckFinishes | client-dist/socket.io.js:3468-3498 | an acknowledged attempt for the first packet finishes it, and the next one is under way |
| RetryQueue.AttemptsAreBounded | client-dist/socket.io.js:3476-3484 | no packet is sent more often than the retries allow plus once for each connection |
| Utf8.Utf8Length | client-dist/socket.io.js:709-729 | the length of the UTF-8 form (section 3 of RFC 3629) for well-formed text |
| Utf8.MeasuresEncoding | client-dist/socket.io.js:709-729 | measuring unit by unit agrees with encoding character by character |
| Utf8.LoneSurrogatesMismeasured | client-dist/socket.io.js:720-723 | a surrogate without its partner can be measured too high, too low, or right by chance |
| WriteBuffer.Client.GetWritablePackets | client-dist/socket.io.js:2267-2291 | the loop takes the number of packets of the specification |
| WriteBuffer.Client.ByteLength | client-dist/socket.io.js:700-707 | text is measured, binary data estimated |
| WriteBuffer.Client.Flush | client-dist/socket.io.js:2248-2256 | hands a batch to a transport that is writable, unless closed, upgrading or empty |
| WriteBuffer.Client.SendPacket | client-dist/socket.io.js:2325-2351 | accepts the packet unless closing, and flushes |
| WriteBuffer.Client.OnDrain | client-dist/socket.io.js:2227-2239 | drops exactly the batch that was under way and goes on |
| WriteBuffer.Client.OnOpen | client-dist/socket.io.js:2121-2125 | the buffer is flushed when the transport opens |
| WriteBuffer.Client.OnUpgrade | client-dist/socket.io.js:2033-2049 | the new transport takes over, busy with its own packet |
| WriteBuffer.Client.OnClose | client-dist/socket.io.js:2423-2458 | the buffer is dropped |
| WriteBuffer.BufferConserves | client-dist/socket.io.js:2226-2351 | in every run what is accepted is what was sent before closing began; until the connection is closed none of it is lost, doubled or overtaken: accepted is drained followed by the buffer, the batches are drained followed by the one under way, and nothing waits while the transport could take it |
| WriteBuffer.TransportTakesTurns | client-dist/socket.io.js:2028-2048 | in every run the transport becomes free by opening and draining, and busy by a batch or an upgrade, never twice in a row, and nothing is handed over during an upgrade |
| WriteBuffer.BatchHandedOver | client-dist/socket.io.js:2248-2291 | in every run what is handed over is the whole buffer, or on polling with a limit, for data of exactly known size, its longest beginning within the limit or one packet |
| WriteBuffer.BatchIsLongest | client-dist/socket.io.js:2266-2291 | on polling with a limit the batch is the longest beginning of the buffer whose payload is within the limit, or one packet |
| WriteBuffer.LimitKeptIff | client-dist/socket.io.js:2266-2291 | every batch of packets that hold some data, or data of exactly known size, keeps the limit or is a single packet, if and only if the estimate for that data exists and is not below its size |
| WriteBuffer.OneOctetBreaksLimit | client-dist/socket.io.js:700-707 | two packets, one of them with one octet, are sent as a payload of seven octets under a limit of five |
| WriteBuffer.PayloadGrows | client-dist/socket.io.js:464-479 | a packet, well-formed or not, adds its type, its data and a separator to the encoded payload |
| WriteBuffer.BinaryExactIff | client-dist/socket.io.js:700-707 | the estimate for binary data is its base64 length, or at least as high, if and only if there are less than 300 octets in whole groups of three |
| WriteBuffer.EmptyBufferDefeatsLimit | client-dist/socket.io.js:2275-2288 | once an empty array buffer is in the batch, at whatever position, everything behind it is taken too |

## Left out

- Recovery.ExactlyOnceIff: assumes that only persisted broadcasts carry text as last argument; other events ending in text would overwrite the offset. A packet arrives and is processed or buffered in one step, while the client hands decoded packets on in a later tick (`client-dist/socket.io.js:4481-4488`); an event decoded just before a close gets into the receive buffer after it and is then replayed as well.
- Recovery.StepKeeps: adding a restored socket is one step, as with skipped middleware; a broadcast between the creation of a restored socket and its connection would be neither live nor replayed. A run ends when a restore fails, since the client then starts afresh under a new id.
- Adapter.InMemoryAdapter.Perform: the flag that also closes the underlying connection and the test whether a socket may still join are modelled in `Lifecycle`, not in the walk.
- Adapter.InMemoryAdapter.DisconnectSockets: the flag that also closes the underlying connection is modelled in `Lifecycle`.
- Lifecycle.Server.OnClose: the session that is stored for recoverable reasons is modelled in `Recovery`.
- PacketCodec.HeaderRoundTripIff: JSON text is an abstract faithful codec whose output starts with a bracket, brace or quote; ids and attachment counts are safe integers, as those of the client are.
- Decoder.PacketDecoder.Add: frames are text or binary; buffers wrapped in base64 objects and other values, which are refused, are not modelled.
- Binary.HasBinary: values with a `toJSON` method are not modelled, except for dates, which hold no binary data.
- AckCollector.CollectsExactly: the callbacks are atomic, and the adapter below is any that reports each server and each client at most once; the acknowledgements of the Redis adapter are not modelled, they are marked as unsupported.
- RedisBus.RedisAdapter.OnRequest: lists of rooms stand for the sets they are turned into, so their order and repetitions in messages about single sockets are not those of the code; the messages on the response channel after such a request are ignored by everybody and not modelled.
- RedisBus.RedisAdapter.Bulk: the flag that also closes the underlying connection is not part of a disconnection here; `Lifecycle` has it.
- Cluster.ClusterActsAsOne: sockets that connect, disconnect or change rooms by themselves during a run are not modelled; servers have different ids and no socket in common, and no socket has an empty id.
- ClusterBroadcast.DeliversWhatIsDue: sockets and rooms stay as they are during a run; one namespace.
- ClusterFetch.FetchCollects: each other server replies once and the number of servers stays the same; a handler that still sends after a timeout blocks, and the reuse of the pooled request is not modelled.
- Lifecycle.LifecycleIsSafe: a client does not connect twice at once to a namespace, a new socket's id is not in use, and listeners run outside the steps.
- RetryQueue.QueueIsOrdered: acknowledgement timeouts are configured, and callbacks do not emit while they run.
- WriteBuffer.BinaryExactIff: 1.33 is multiplied exactly.
- WriteBuffer.BufferConserves: a failed upgrade is not modelled.
- The iteration order of maps and sets is an arbitrary choice at every step.
- HTTP serving, option handling, the engine below the server, the Redis connection, object pools and goroutine scheduling are not modelled.
- Server-side emit, listeners, handshakes, logging, dynamic namespaces, and the client's transports and reconnection timers are not modelled.
