# A verified model of the Meshtastic proxy

The proxy multiplexes one Meshtastic radio over many TCP clients. It caches the
radio's config handshake, patches the client's nonce into it and replays it on
request, fans runtime frames out through bounded per-client queues, and keeps a
chat window, a node directory and a relay index. This project models that code in
Dafny and proves what it guarantees over every input and every run, including
where a natural guarantee fails and the exact condition under which it holds.

| file | what it models |
|---|---|
| `Framing.dfy` | the wire reader and writer (`internal/protocol/frame.go`) |
| `Radio.dfy` | decoded `FromRadio` / `ToRadio` frames and their classifiers |
| `ConfigCache.dfy` | live NodeInfo upserts into the cached handshake, as values |
| `SharedSlices.dfy` | the same cache on shared Go backing arrays |
| `ReplayFilter.dfy` | the config-only (69420), nodes-only (69421) and full selections |
| `NodeLoop.dfy` | the node's read loop: handshake, publication, directory, readiness |
| `Directories.dfy` | the node directory and the relay index |
| `ChatCache.dfy` | the bounded chat window with late ACKs |
| `Clients.dfy` | one client, one goroutine step at a time: queue, replay lock, replays, close |
| `ClientConn.dfy` | the client object and one uninterrupted replay call |
| `Hub.dfy` | the whole proxy: events, the next-state function, the invariant |
| `Guarantees.dfy` | what holds in every reachable state of the proxy |
| `Traces.dfy` | every queue, log and pass over the registry as a function of the run's events |
| `ClientTraces.dfy` | one client's messages, closing and replays as functions of the run's events |
| `Backoff.dfy` | reconnect waits with int64 wrap-around |
| `PubSub.dfy` | event fan-out to dashboard subscribers |
| `PubSubOrder.dfy` | when those events reach every subscriber in one order |

A protobuf payload is modelled as its decoded value, or as raw bytes that do not
decode; encoding and then decoding is taken to be the identity. The clock is a
parameter. Goroutines are modelled as interleaved steps: a run is any sequence of
events, and an event whose guard does not hold changes nothing.

Where a promise in the code's comments or tests, or a guarantee a reader might take
for granted, does not hold, the model follows the code:

- frame.go says any bytes before the magic sequence are discarded. A lone 0x94
  right before a frame loses the frame (`StrayMagicLosesFrame`); `FrameFoundIff`
  gives the exact condition.
- connection.go appends a `config_complete_id` to the collecting slice even when
  nothing is being collected, and the published cache shares that slice's array. A
  stray one can overwrite a cached node (`StrayCompletionDeletesNode`). For every
  slice growth policy `SharedSlices.Drive` gives the exact condition on whole runs,
  and no later step alters a snapshot on any run.
- A slow consumer is meant to be disconnected. When its buffer overflows inside a
  broadcast or an echo, its Close needs the registry lock that the broadcast holds,
  and the proxy never accepts or releases a client again (`OverflowWedges`,
  `TwoPacketsWedge`). A client's own disconnect can have the same effect: Close shuts
  the connection under a write in progress before it waits for the lock, and a full
  buffer is never drained again (`DisconnectWedges`). `BroadcastEndsIff` says exactly
  when a broadcast in progress can still end. The test of the overflow path uses a
  close callback that does not take the lock.
- ResolveRelay misses nodes whose entry was created by a reading rather than an
  identity (`OrphanStaysOrphan`); `Directories.Drive` and `RelayCompleteIff` give the
  exact condition.
- With a maximum reconnect interval of 2^62 ns or more the doubling wraps and a
  wait turns negative (`InRangeIff`).
- The event fan-out promises no order across publishers, and there is none in
  general (`OrdersCanDiffer`). `BeginOrderIff` and `CommonOrderIff` give, as a check
  made when a publication begins, exactly the runs on which every channel follows
  the order in which publications began, and those on which all channels agree on
  one order. One publisher's own events are always in order (`FanOut`).

## Model

| member | source | states |
|---|---|---|
| Framing.ReadTurn | internal/protocol/frame.go:28-73 | one turn of the reader's loop takes exactly the bytes its header calls for, delivers a payload only for a length in 1..512, and reports the stage at which the stream ran out |
| Framing.ReadFrame | internal/protocol/frame.go:24-75 | the loop terminates on every stream and returns the first deliverable frame and what follows it, or fails with the stream used up |
| Framing.WriteFrame | internal/protocol/frame.go:80-97 | payloads over 512 bytes are refused; any other is written as 0x94 0xC3, the length with its high byte first, and the payload |
| Framing.WireFormat | internal/protocol/frame.go:80-97 | the bytes of a written frame, one by one |
| Framing.ReadInverse | internal/protocol/frame.go:24-75 | whatever is delivered was preceded by transparent bytes only, was framed by a well-formed header, and the rest of the stream is untouched |
| Framing.FrameFoundIff | internal/protocol/frame.go:20-75 | the reader finds a written frame behind noise if and only if the noise is transparent, whatever follows the frame |
| Framing.StrayMagicLosesFrame | internal/protocol/frame.go:20-44 | a single 0x94 before a frame makes the reader lose it |
| Framing.CutFrameFails | internal/protocol/frame.go:28-73 | a stream that ends inside a frame fails at the part of the frame it ends in |
| Framing.CutOversizedFails | internal/protocol/frame.go:52-58 | a stream that ends inside the body of an oversized frame fails there |
| Framing.OversizedIsSkipped | internal/protocol/frame.go:50-58 | a complete frame that declares more than 512 bytes is skipped whole, whatever follows |
| Framing.PlainTextIsTransparent | internal/protocol/frame.go:22-34 | console output without the byte 0x94 never hides a frame |
| Framing.StreamRoundTrip | internal/protocol/frame.go:24-97 | for any list of payloads with transparent noise before each, repeated reads return exactly the non-empty payloads in order |
| ConfigCache.UpsertKeepsShape | internal/node/connection.go:160-217 | an upsert keeps the cache one MyInfo, a body, one closing ConfigComplete |
| ConfigCache.UpsertKeepsUnique | internal/node/connection.go:178-216 | an upsert keeps node numbers unique |
| ConfigCache.UpsertHistory | internal/node/connection.go:160-314 | after any upsert history a node has the user fields and time of its last upsert, the last stated is_unmessagable, and the position, metrics and SNR it was published with |
| ConfigCache.HistoryFrame | internal/node/connection.go:178-216 | frames of nodes not upserted, and all other frames, keep content and order; uniqueness survives the history |
| ConfigCache.HistoryOrder | internal/node/connection.go:190-216 | after any history published frames stand where they stood, and new nodes follow in the order they were first heard, before the ConfigComplete |
| ReplayFilter.FilterConfigCache | internal/proxy/config_replay.go:182-273 | the loop returns, in the cache's order and as often as there, everything but other nodes' NodeInfo for 69420, exactly the NodeInfo, ConfigComplete and unparseable frames for 69421, and all for any other nonce; its counts per type name are exact and add up |
| ReplayFilter.PhaseSelections | internal/proxy/config_replay.go:200-272 | the two iOS selections frame by frame, with the own number that of the first MyInfo |
| ReplayFilter.PatchedSelection | internal/proxy/config_replay.go:101-127 | a replay sends its selection with only the nonce of a ConfigComplete replaced, in its own envelope |
| Radio.TypeNamesAreKinds | internal/node/decode.go:380-413 | the type names are one per kind of frame, and those the read loop switches on name exactly MyInfo and ConfigComplete |
| ReplayFilter.CountFrameTypes | internal/node/decode.go:415-426 | per-type counts of a cache are exact and add up to its length |
| ReplayFilter.KeepFrame | internal/proxy/config_replay.go:223-270 | the type switch drops exactly other nodes' NodeInfo in the config-only phase, and all but NodeInfo, ConfigComplete and unparseable frames in the nodes-only phase |
| ReplayFilter.ReplayEndsOnce | internal/proxy/config_replay.go:101-127 | every uninterrupted replay of a published cache, in any mode, has one ConfigComplete, last, with the client's nonce |
| ReplayFilter.PhasesLoseNothing | internal/proxy/config_replay.go:210-272 | the two iOS phases are subsequences of the cache that together cover it and overlap exactly in unparseable, ConfigComplete and own-node frames |
| ReplayFilter.FilterIdempotent | internal/proxy/config_replay.go:182-273 | filtering twice is filtering once |
| ReplayFilter.NodesFilterCommutes | internal/proxy/config_replay.go:237-249 | nodes-only replay of an upserted cache equals the upserted nodes-only replay |
| ReplayFilter.ConfigFilterCommutes | internal/proxy/config_replay.go:237-244 | config-only replay follows upserts of the connected node and is unchanged by any other |
| NodeLoop.ExtractNodeDirectory | internal/node/extract.go:315-375 | the directory built from a cache has exactly the non-zero node numbers with a NodeInfo frame, each with the names, licence, time and favorite flag of its last one |
| NodeLoop.CacheInvariant | internal/node/connection.go:491-642 | on every run the cache is empty or well-formed, its nodes are directory keys, the frame metric never exceeds its length, and readiness implies a non-empty cache |
| NodeLoop.NeverEmptyAgain | internal/node/connection.go:605-637 | a published cache never becomes empty again |
| NodeLoop.CollectingMeansHandshake | internal/node/connection.go:496-642 | the loop collects only during a handshake |
| NodeLoop.HandshakeIsCollected | internal/node/connection.go:605-642 | during a handshake the loop holds exactly the frames received since its my_info |
| NodeLoop.PublishesHandshake | internal/node/connection.go:615-622 | a publication is exactly my_info, everything received after it and the closing config_complete_id |
| NodeLoop.FieldsFollowRun | internal/node/connection.go:491-642 | on every run the directory is that of exactly the readings, identities, publications and favorites received, in order; the own number is the last one received, the frame metric that of the last publication, and readiness is a live link with a publication |
| NodeLoop.UpsertsSincePublication | internal/node/connection.go:576-642 | on every run, until the next publication, the cache is the published one with the announced upserts applied in order; reconnects and unfinished handshakes change nothing |
| NodeLoop.LiveCache | internal/node/connection.go:160-314 | so in every reachable cache each node's entry is what the upserts since the publication leave of the published one, and the other frames and the uniqueness of numbers are kept |
| SharedSlices.Connection.Snapshot | internal/node/connection.go:138-149 | ConfigCache returns storage of its own holding the current cache |
| SharedSlices.Connection.UpsertCachedNodeInfo | internal/node/connection.go:171-216 | the in-place merge and splice compute the value-level upsert and move the cache only to new storage |
| SharedSlices.Connection.StrayComplete | internal/node/connection.go:615-617 | a config_complete_id outside a handshake leaves the cache alone exactly when the collecting slice does not cover a differing cell the cache has grown past, and keeps it well-formed exactly when that cell is not before its last |
| SharedSlices.Connection.Publish | internal/node/connection.go:615-622 | publication hands over the collecting slice itself, with the completing frame appended |
| SharedSlices.Connection.CollectFrame | internal/node/connection.go:605-642 | the config switch on shared arrays, with its effect on the published cache in every case |
| SharedSlices.Drive | internal/node/connection.go:138-217 | on every run and for every growth policy, the cache after each event is the value-level cache if and only if no stray completion was appended over a differing cell of the published cache, in particular whenever there was none; no later step alters a snapshot |
| SharedSlices.Connection.Iterate | internal/node/connection.go:576-642 | one event keeps slices and value-level cache together, unless it is a harmful stray completion, and then they differ |
| SharedSlices.StrayCompletionDeletesNode | internal/node/connection.go:615-619 | with Go's doubling, a stray completion after two discovered nodes deletes the second and leaves two ConfigComplete frames |
| Directories.NodeDirectory.SetNodeDirectory | internal/metrics/node_directory.go:7-34 | the directory is replaced, only the two runtime flags are carried over, and the relay index is rebuilt for exactly its numbers |
| Directories.NodeDirectory.UpdateNodeEntry | internal/metrics/node_directory.go:70-79 | a reading creates or updates the entry and never touches the index |
| Directories.NodeDirectory.UpsertNode | internal/metrics/node_directory.go:170-205 | an identity updates its non-empty fields and indexes the number exactly when it was unknown |
| Directories.NodeDirectory.SetFavorite | internal/metrics/node_directory.go:209-226 | only a known node's favorite flag changes |
| Directories.NodeDirectory.ResolveRelay | internal/metrics/node_directory.go:50-65 | returns one entry for each indexed number under the byte, without duplicates |
| Directories.IndexHolds | internal/metrics/node_directory.go:7-205 | after any history a number is indexed exactly when it is in the directory and no reading created it since the last replacement |
| Directories.RelayCompleteIff | internal/metrics/node_directory.go:50-65 | a relay lookup is sound, and equals a full directory scan exactly when no node under the byte is such an orphan |
| Directories.KnownReadingsKeepIndexComplete | internal/metrics/node_directory.go:70-79 | readings of known nodes only keep the index complete |
| Directories.Drive | internal/metrics/node_directory.go:7-226 | after any history run on the two maps, what ResolveRelay returns lists the indexed nodes under the byte, and is a scan of the whole directory if and only if no node under the byte was first seen by a reading |
| Directories.OrphanStaysOrphan | internal/metrics/node_directory.go:172-201 | a later identity does not index a node first seen by a reading |
| Directories.SeenIsSticky | internal/metrics/node_directory.go:15-28 | SeenRealtime stays true until a replacement drops the node |
| ChatCache.Chat.CacheTextMessage | internal/proxy/proxy.go:522-549 | appends the message and drops the oldest beyond the limit; does nothing when disabled |
| ChatCache.Chat.CacheAck | internal/proxy/proxy.go:635-653 | the backward search attaches the ACK to the latest unacknowledged entry with its id, and to nothing for id 0 |
| ChatCache.CacheIsWindow | internal/proxy/proxy.go:522-653 | after any history the cache is the last maxChatCache entries of the unbounded log |
| ChatCache.LogIsMessages | internal/proxy/proxy.go:522-549 | the log has one entry per text message, in order, under the message's own id |
| ChatCache.AckInLog | internal/proxy/proxy.go:635-653 | an ACK is filled into the last entry with its id that has none, and changes nothing else |
| ChatCache.LogGrowsOnly | internal/proxy/proxy.go:635-653 | messages stay, in order, and an attached ACK never changes |
| ChatCache.AcksMatch | internal/proxy/proxy.go:647-652 | every attached ACK was sent for the id of the entry holding it |
| Clients.ChatRule | internal/proxy/config_replay.go:280-296 | the phase bit decides chat replay exactly as the two-phase rule over the replay history says |
| ClientConn.Client.Send | internal/proxy/client.go:114-124 | a frame is queued exactly when there is room; otherwise the client is closed and its first reason stands |
| ClientConn.Client.SetDisconnectReason | internal/proxy/client.go:90-98 | the first reason is kept |
| ClientConn.Client.ReplayCachedConfig | internal/proxy/config_replay.go:52-172 | an uninterrupted replay queues the patched selection and then chat if due, or the prefix that fits and closes the client |
| ClientConn.Client.SendChat | internal/proxy/config_replay.go:303-344 | the queue gets each message in order, directly followed by its ACK if it has one, and nothing else, up to the first refusal |
| ClientConn.SoloReplayAgrees | internal/proxy/config_replay.go:52-172 | the interleaved steps of a replay, run without a break, do to the client what the uninterrupted call does: the whole script, or the prefix that fits and the close |
| ClientConn.SendManySends | internal/proxy/config_replay.go:100-153 | n replay steps queue the next n frames of the script, or as many as fit before the client is closed with its first reason kept |
| Hub.Reachable | internal/proxy/proxy.go:149-445 | the proxy's invariant holds in every state of every interleaving |
| Traces.LoopFollows | internal/node/connection.go:491-650 | on every interleaving the proxy's node state is the read loop run on exactly the node events it handled |
| Traces.PipelineHolds | internal/node/connection.go:441-452 | the bounded node channel with its blocked sender is one queue: nothing is lost or reordered but by a disconnect |
| Traces.PassagesHold | internal/proxy/proxy.go:176-191 | what is cached as chat is exactly the text packets that passed either way and the node's error-free ACKs, in order; what is queued for the node is exactly the clients' forwarded messages that found room |
| Traces.BroadcastsAll | internal/proxy/proxy.go:298-330 | the frames broadcast are, in order, exactly the frames from the node that are no config frames |
| Traces.ExactlyOnce | internal/proxy/proxy.go:368-445 | every broadcast is offered exactly once to every client registered when it began, every echo to all of them but the sender, as the sender's packet with sender and receive time filled in where zero |
| ClientTraces.ReaderFollows | internal/proxy/proxy.go:159-191 | a client's requests are the nonces it sent; its other messages but a disconnect are forwarded one by one in order, each packet echoed once before; after a disconnect its reader waits for the close |
| ClientTraces.ReasonFollows | internal/proxy/client.go:90-124 | a client is closing exactly if something closed it, and its reason is the first one given |
| ClientTraces.MembersFollow | internal/proxy/proxy.go:199-249 | the registry holds exactly the clients accepted whose close has not finished |
| ClientTraces.ReplayHoldsSnapshot | internal/proxy/config_replay.go:52-73 | whenever a replay takes the lock it serves the request it waited with and holds for good the cache the node's events have published and upserted by then |
| ClientTraces.ReplayHoldsChat | internal/proxy/config_replay.go:163-171 | a replay that has sent its config part includes chat exactly when due: each of the last maxChatCache messages that passed by then, in order, directly followed by its ACK if it has one |
| Guarantees.ReplaysAreSerial | internal/proxy/config_replay.go:52-171 | the replay frames a client's queue accepted are, in lock order, each replay's script up to where it got; each is whole unless a Send was refused and the client closed before the lock was released |
| Guarantees.EveryRequestOneReplay | internal/proxy/proxy.go:165-171 | every want_config_id is waiting for the lock or was given exactly one replay |
| Guarantees.FinishedReplayAnswers | internal/proxy/config_replay.go:100-171 | a finished replay's config part ends with its only ConfigComplete under the request's nonce, and chat follows exactly when enabled and due |
| Guarantees.ReplayedChat | internal/proxy/config_replay.go:303-344 | in every reachable state the chat cache is the window of the log of all chat handled, and the chat a replay includes is each message of that window at its decision, followed by the ACK it then had |
| Guarantees.OnlyOwnNonces | internal/proxy/proxy.go:289-356 | config frames reach a client by replay only, and every ConfigComplete queued for it carries a nonce it sent |
| Guarantees.InterceptedNeverForwarded | internal/proxy/proxy.go:159-192 | no client's want_config_id or disconnect is queued for the node |
| Guarantees.QueueHasNoGaps | internal/proxy/client.go:114-124 | written, in-flight and buffered frames are the accepted ones in order within capacity, and an open client was refused nothing |
| Guarantees.RegistryIsBounded | internal/proxy/proxy.go:199-214 | the registry never exceeds maxClients, holds exactly the clients not yet closed, and each close callback runs at most once |
| Guarantees.HistoryIsKept | internal/proxy/client.go:90-98 | a closed client is never registered again, the first reason is kept, phase bits only grow, a returned writer takes nothing more, nothing accepted or written is undone, and chat handled stays handled |
| Guarantees.OverflowWedges | internal/proxy/proxy.go:368-392 | a broadcast step passes a client exactly when its buffer has room; otherwise, on every continuation, no client is accepted or unregistered again and that broadcast never ends |
| Guarantees.BroadcastCanEnd | internal/proxy/proxy.go:368-378 | a broadcast that waits for no Close, and each of whose full targets has a writer that can still take a frame (it has not returned, and is not writing to a connection Close has shut), can complete and release its lock |
| Guarantees.BlockedForever | internal/proxy/proxy.go:368-392 | any other broadcast keeps its lock on every continuation, and the registry never changes again |
| Guarantees.BroadcastEndsIff | internal/proxy/proxy.go:368-392 | in every reachable state a broadcast can end on some continuation if and only if it is not blocked |
| Guarantees.TwoPacketsWedge | internal/proxy/proxy.go:244-249 | the deadlock is reachable with one client, a one-frame buffer and two packets |
| Guarantees.DisconnectWedges | internal/proxy/client.go:232-239 | a blocked broadcast is reachable without any refused Send and with the target's write loop still running: its own disconnect shuts the connection under a write in progress while its buffer is full |
| Backoff.Run | internal/node/connection.go:324-401 | the loop's waits are those of the closed form, for any outcome sequence |
| Backoff.ClosedForm | internal/node/connection.go:339-400 | every wait is min(base * 2^k, max), lies in [base, max], and no doubling overflows |
| Backoff.ExponentCounts | internal/node/connection.go:325-361 | k counts failed dials in a row: from zero at start-up, from one after a dropped connection |
| Backoff.InRangeIff | internal/node/connection.go:348-400 | the waits stay in [base, max] on every run exactly when max is below 2^62 ns |
| PubSub.FanOut | internal/metrics/pubsub.go:7-36 | no send hits a closed channel, at most 64 events are buffered, and what a reader gets is exactly the offers that found room, in each publisher's order without a gap |
| PubSub.DropsOnlyWhenFull | internal/metrics/pubsub.go:29-35 | on every run an event is dropped exactly by a channel that held 64 events its reader had not received |
| PubSubOrder.InBeginOrder | internal/metrics/pubsub.go:25-36 | when every publication begins with no channel left to offer, each channel is offered exactly the events published since its subscription in the order they began, and delivers a subsequence of them |
| PubSubOrder.Overtakes | internal/metrics/pubsub.go:25-36 | otherwise, in any reachable state, the new event can overtake the owed one in that channel |
| PubSubOrder.BeginOrderIff | internal/metrics/pubsub.go:25-36 | on every run, no beginning publication could overtake another anywhere if and only if each began with no channel left to offer |
| PubSubOrder.CommonOrder | internal/metrics/pubsub.go:25-36 | when every publication begins with no channel left to offer or at most one subscriber, there is one order without repetition of which each channel is offered a run from its subscription on, and delivers a subsequence |
| PubSubOrder.OrdersSplit | internal/metrics/pubsub.go:25-36 | otherwise, in any reachable state, the owed channel and another subscriber can be offered the two events in opposite orders |
| PubSubOrder.CommonOrderIff | internal/metrics/pubsub.go:25-36 | on every run, no beginning publication could split the order between two channels if and only if each began with no channel left to offer or at most one subscriber |
| PubSubOrder.OrdersCanDiffer | internal/metrics/pubsub.go:25-36 | two publishers can reach two subscribers in opposite orders |
| PubSubOrder.OneSubscriberIsOvertaken | internal/metrics/pubsub.go:25-36 | a single subscriber can be offered two events against the order in which their publications began |

## Left out

- NodeLoop.CacheInvariant: frame lists are values there and in Hub, so these results, and the replays built on them, hold for the code on runs in which config_complete_id arrives only during a handshake; SharedSlices says exactly what a stray one does and on which runs the two agree (`StrayFreeIsHarmless`: on all of these).
- NodeLoop.ExtractNodeDirectory: does not state the SNR, hop count, position fix and device metrics of an entry, which are copied field by field.
- Directories.NodeDirectory.UpdateNodeEntry: does not model which position, telemetry and signal fields a reading overwrites, only that the entry is created or kept, marked as seen and never indexed.
- PubSub.FanOut: states each publisher's own order; PubSubOrder states when there is one order for all.
- Guarantees.BroadcastEndsIff: says whether a broadcast can still end, not that the scheduler lets it.
- Two read loops alive at once around a reconnect (the old one may handle one more buffered frame) are not modelled.
- The atomic client counter metric and the termination of drainChannels under concurrency are not modelled: the code guarantees neither.
- Protobuf byte encoding, unknown fields and enum names outside the generated table.
- The size of echoed and synthesized frames: nothing is claimed about them staying within 512 bytes.
- TCP dialling, deadlines, tickers, the pause after the own NodeInfo, logging, HTTP, Telegram, mDNS and Prometheus code.
