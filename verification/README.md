# bevy_quinnet, verified

bevy_quinnet carries messages over QUIC connections on numbered channels. An application hands
payloads to a channel; a task per channel encodes them as frames and writes them to a stream; the
peer decodes the frames and sorts the payloads into one buffer per channel. A server shares one
set of channel ids among all its clients; a client keeps its own and may reconnect. This project
models these parts in Dafny and proves what they promise.

`dafny verify dfyconfig.toml` checks the whole project.

| file | what it models |
|---|---|
| `Base.dfy` | bytes, channel ids, messages; the subsequence relation |
| `Codec.dfy`, `StreamFrames.dfy` | frame encoder, incremental decoder, framed reader, a reference parser |
| `SendTask.dfy`, `OrderedTask.dfy` | send-channel tasks: as steps between await points, and the ordered one as the loop it is |
| `Shutdown.dfy`, `ShutdownCompletes.dfy`, `GracefulClose.dfy` | all channels of a connection, the task spawner, the keepalive; exactly when a shutdown can be carried through; what close and disconnect promise, and exactly when |
| `RecvChannels.dfy`, `ReceiveIsolation.dfy` | the receive demultiplexer; exactly when its channels do not affect each other |
| `EndToEnd.dfy`, `DeliveryOrder.dfy` | one ordered channel from `send_payload` to `receive_payload`; exactly when it delivers in order |
| `UnorderedDelivery.dfy`, `UnorderedExactly.dfy` | one unordered channel likewise; exactly when it delivers only what was accepted |
| `PeerConnection.dfy`, `Registry.dfy`, `Endpoint.dfy` | id pool, send-channel vector, what a client holds for the opened channels, the server's channel registry |
| `ServerEvents.dfy` | the server's update and its event log |
| `ClientConnection.dfy`, `ClientLifecycle.dfy`, `LiveConnection.dfy` | the client's connection, its configured channels, its update, disconnect and reconnect; its life as a step system, and the connection as one of its runs |
| `ConnectionMirror.dfy`, `RunningConnection.dfy` | the client's connection as the application's side of the channels, tasks and spawner of one epoch |
| `Base64.dfy`, `KnownHosts.dfy`, `TrustOnFirstUse.dfy` | fingerprints, the known-hosts file, the certificate verifier, runs of connections |
| `Chat.dfy` | the chat example's user table and its replicas |

## How the concurrent parts are modelled

A task is a sequence of steps between its await points, and any interleaving of the steps of all
tasks and of the application is a run. `select!` drops a loop only where the loop is suspended, so
a cancellation is a step that is enabled at await points alone. What the libraries do is assumed:

- an mpsc queue is a bounded FIFO that can still be read after its senders are dropped;
- a broadcast receiver, also one made by `resubscribe`, sees only what is sent later;
- a framed send waits until the writer has room, encodes into the writer's buffer, and flushes
  that buffer in partial writes; once a write has failed all later ones do;
- a QUIC stream is a sequence of bytes that arrives in order, in chunks of any size (section 2.2
  of RFC 9000).

Iteration over a hash map is in any order. An `expect` or `unwrap` that fails ends the run.
Lengths are written modulo 2^32 as the source does; channel ids are bytes.

## What the code does not promise

Some plausible claims are false of the code. In these places the model keeps the code's behaviour
and the theorem is the exact condition, or the contract says what happens instead.

- `max_frame_size` is documented as the maximum payload, but the decoder compares its maximum with
  payload plus channel id. With both set to 8 MiB, a payload of 8 MiB is encoded and then refused
  by the receiver, which stops reading the stream. 8 MiB is the default on both sides
  (`Codec.SameMaximumRefusesExactly`, `Codec.DefaultMaximumIsRefused`).
- A payload of 2^32 bytes or more would be mistaken for a shorter frame
  (`DeliveryOrder.InOrderExactly`, `UnorderedExactly.GenuineExactly`).
- Receive channels are isolated from each other only if buffers may hold at least one payload
  (`ReceiveIsolation.IsolationExactly`).
- `disconnect` drains the channels first, but on a client only if the `Connected` message of the epoch
  has been handled when it is called, that is, not while still connecting. A message handled after the
  call opens the connection again: payloads are then accepted by tasks that are past their drain, and
  neither `close_channel` nor another `disconnect` writes them any more
  (`GracefulClose.DisconnectKeepsPromiseExactly`, `GracefulClose.ReleasedChannelKeepsPromiseExactly`,
  `GracefulClose.ReopenedClientBreaksPromise`). Where no such message follows a `disconnect`, which on
  a server is always so, the promise is kept (`GracefulClose.RunsKeepPromises`).
- A client's spawner subscribes to close messages when it starts. A `disconnect` before that is never heard
  by it: its tasks do not close the connection until the connection value is dropped or reconnected
  (`ShutdownCompletes.DisconnectClosesExactly`).
- What a closed connection has "sent" is what its tasks handed to their streams before the spawner
  called `connection.close`; whether that still reaches the peer is the QUIC library's part.
- Client `open_channel` does not give an id back when it fails. Endpoint `close_channel` stops at
  the first client whose task is gone and does not release the id. In both cases the id is neither
  available nor open, so the pool and the open channels need not make up all 256 ids. That an open
  id is never available still holds.
- A failed endpoint `open_channel` restores the default channel unless the default named the very
  id it tried. Requests already queued at some of the clients stay there.
- Bytes count as sent before the channel has accepted them.
- A hosts file that cannot be read makes the connection task panic before it has connected. The client
  is sent no failure and stays connecting (`TrustOnFirstUse.Connect`).
- Connections that loaded the same hosts file overwrite each other's entries
  (`TrustOnFirstUse.ConcurrentStoresForget`).

## Model

| member | source | states |
|---|---|---|
| `Codec.GetPutUint` | src/shared/channels/reliable/codec.rs:67-70 | reading a length field gives back what was written, modulo 2^32 |
| `Codec.Encoder.Encode` | src/shared/channels/reliable/codec.rs:56-77 | refuses exactly the payloads over its maximum, and then writes nothing; otherwise appends one whole frame |
| `Codec.FrameBytes` | src/shared/channels/reliable/codec.rs:65-74 | a frame, byte by byte: the length of payload and channel id in four bytes, most significant first, then the channel id, then the payload |
| `Codec.Decoder.DecodeHead` | src/shared/channels/reliable/codec.rs:96-126 | needs the length field and one byte more; an oversized length consumes nothing, so it is refused again on every retry |
| `Codec.Decoder.DecodeData` | src/shared/channels/reliable/codec.rs:128-136 | takes exactly the announced bytes, or nothing |
| `Codec.Decoder.Decode` | src/shared/channels/reliable/codec.rs:143-167 | one call is one step of the reference parser; a remembered length is positive and not yet buffered, and every returned frame shortens the buffer, so the drain loop ends |
| `Codec.FramedRead.Feed` | src/shared/channels/reliable/recv.rs:51-58 | reading a chunk and draining yields what the reference parser makes of it, and nothing more after a refusal |
| `Codec.ParseAppend` | src/shared/channels/reliable/codec.rs:143-167 | parsing a stream in two parts is parsing it whole, from any decoder state |
| `Codec.ChunkIndependence` | src/shared/channels/reliable/codec.rs:96-167 | for every byte string and every split into chunks: same frames, same refusal, and without refusal the same state and residue as decoding it at once |
| `Codec.RoundTripExactly` | src/shared/channels/reliable/codec.rs:57-119 | the encodings of a list of messages decode back to exactly that list if and only if each payload and channel id fit the decoder's maximum and the length field |
| `Codec.OversizedIsRefused` | src/shared/channels/reliable/codec.rs:105-119 | a message the encoder let through that is too long for the decoder, by one byte or more, is refused, after all messages before it and with all behind it |
| `Codec.SameMaximumRefusesExactly` | src/shared/channels/reliable/codec.rs:57-119 | with the same maximum on both sides, below the range of the length field, a payload that is encoded is refused by the decoder if and only if it is exactly as long as the maximum |
| `Codec.DefaultMaximumIsRefused` | src/shared/channels/reliable/mod.rs:8 | so it is for a payload of 8 MiB with the default maxima |
| `Codec.PrefixDecodesToPrefix` | src/shared/channels/reliable/codec.rs:96-136 | a prefix of the stream yields exactly the messages whose last byte it contains |
| `Codec.DecodeIncoming` | src/shared/channels/reliable/recv.rs:63-68 | splits a frame into channel id and payload such that putting them together gives the frame; fails exactly on the empty frame |
| `StreamFrames.FramesOfPrefix` | src/shared/channels/reliable/recv.rs:43-61 | the frames a receiver can use of any prefix of a stream are the bodies of the first messages, for every decoder maximum, while no body exceeds 2^32 bytes |
| `SendTask.StepKeepsInv` | src/shared/channels/reliable/send.rs:34-84 | every step of every kind of channel task keeps the balance of accepted payloads: written, buffered, in hand and queued make up the accepted ones, each once and in order |
| `SendTask.AcceptKeepsInv` | src/shared/channels.rs:116-124 | accepting a payload at any point of the task keeps that balance |
| `SendTask.CancellationLosesNothing` | src/shared/channels/reliable/send.rs:34-61 | wherever `select!` cancels the send loop, also in the middle of a flush, no payload is in its hands: stream, writer buffer and encoded queue are the encoding of all accepted payloads |
| `SendTask.EndedHasWritten` | src/shared/channels/reliable/send.rs:63-84 | a task that ended on a local close without a write error has written exactly what was accepted before its drain ended; that is everything if and only if nothing encodable came later |
| `SendTask.UnorderedStepKeepsInv` | src/shared/channels/reliable/send.rs:87-152 | an unordered channel has one message task per payload it took off its queue, and each writes exactly its own frame |
| `SendTask.DatagramStepKeepsInv` | src/shared/channels/unreliable/send.rs:9-55 | an unreliable channel passes on every accepted payload once and in order, whatever the sends return |
| `SendTask.FailuresAreReported` | src/shared/channels/reliable/send.rs:48-72 | a send that fails in the loop is reported before the next payload is taken, unless the task is closed meanwhile; while draining it is not, and the drain goes on |
| `OrderedTask.FrameSender.Flush` | src/shared/channels/reliable/send.rs:71-71 | partial writes, a failed one and a cancellation between any two of them move bytes from the buffer to the stream and lose none |
| `OrderedTask.FrameSender.Send` | src/shared/channels/reliable/send.rs:50-51 | a send that may be cancelled loses no payload if it starts with an empty buffer |
| `OrderedTask.Task.SendLoop` | src/shared/channels/reliable/send.rs:48-61 | all that arrives before each round is accepted; each round that finds a payload takes the first one off the queue; uncancelled and without a write error, the stream is the frames of everything taken and each refused payload was reported once; cancelled at any await, the balance of bytes holds |
| `OrderedTask.Task.DrainAndFlush` | src/shared/channels/reliable/send.rs:63-77 | the drain empties the queue whatever fails, and without a write error leaves nothing in the buffer |
| `OrderedTask.Task.Run` | src/shared/channels/reliable/send.rs:27-84 | whatever arrives until the close is accepted; after a local close what is on the stream is the frames of all accepted payloads, or a prefix of them if a write failed; after a close by the peer what was not taken stays in the queue |
| `Shutdown.HoldersStep` | src/shared/channels/reliable/send.rs:104-121 | a step changes the number of keepalive senders by exactly the message tasks it starts and the tasks it ends |
| `Shutdown.NextKeepsInv` | src/shared/channels/tasks.rs:46-104 | in every interleaving the live keepalive senders are the spawner's own, one per live channel task and one per live message task; and a channel's task is told to close only when its channel was released, the application has disconnected, or the `Connected` message was handled |
| `Shutdown.RunTellsReasons` | src/shared/peer_connection.rs:234-242 | in every run the tasks are told of exactly the disconnects, with their reasons, in order |
| `Shutdown.ConnectionClosesLast` | src/shared/channels/tasks.rs:53-103 | in every run, when the spawner closes the connection every channel whose creation it dequeued has finished, message tasks included |
| `ShutdownCompletes.TasksFinishExactly` | src/shared/channels/reliable/send.rs:34-84 | at any reachable point: left to themselves, the tasks of a channel can come to their end if and only if the channel was closed, a close message is waiting, or the loop was left already, be writes broken, buffers full or payloads queued as they may |
| `ShutdownCompletes.ClosesExactly` | src/shared/channels/tasks.rs:56-103 | at any point: left to themselves, the tasks can close the connection if and only if the spawner and every task that is still to leave its loop has something to tell it so |
| `ShutdownCompletes.DisconnectClosesExactly` | src/client/connection.rs:698-703 | in every run: after a `disconnect` the tasks can drain, flush and close the connection by themselves, if and only if it is a server's or the spawner has started |
| `ShutdownCompletes.DroppedCloses` | src/shared/channels/tasks.rs:97-103 | in every run: once the connection value was dropped, the tasks can close the connection, at any later point |
| `GracefulClose.KeptExactly` | src/shared/channels/reliable/send.rs:63-84 | a task of any kind that ended on a local close without a write error has an empty queue and has written everything accepted, if and only if nothing was accepted after its drain |
| `GracefulClose.ReleasedChannelKeepsPromiseExactly` | src/shared/peer_connection.rs:172-184 | at any reachable point after `close_channel`, or after the connection value was dropped as a server's disconnect does: the channel keeps that promise in all continuations if and only if nothing was accepted after a drain, or its writes have failed |
| `GracefulClose.DisconnectKeepsPromiseExactly` | src/client/connection.rs:432-443 | at any reachable point, for any channel: `disconnect` keeps the promise in all continuations if and only if nothing was accepted after a drain before and the `Connected` message was handled before the call; or the channel is closed or has no task to hear of it, or its writes have failed |
| `GracefulClose.RunsKeepPromises` | src/client.rs:343-361 | in every run in which no `Connected` message is handled after the application has disconnected, losses that the update notices notwithstanding: every channel that ended on a local close keeps the promise |
| `GracefulClose.CallersAreKeptExactly` | src/client/connection.rs:408-443 | in such runs `close_channel` keeps the promise whatever comes later, and `disconnect` does if and only if the connection is not still connecting, where the channel has a task whose writes have not failed |
| `GracefulClose.PatientRunsKeepPromises` | src/client/connection.rs:505-507 | so it is in every run in which the application does not call `disconnect` while connecting |
| `GracefulClose.ClosesGracefully` | src/shared/channels/tasks.rs:97-103 | when the spawner closes the connection in such a run, every channel that ended on a local close without a write error has written everything accepted |
| `GracefulClose.ServerClosesGracefully` | src/server.rs:436-441 | in every run of a server: when the spawner closes the connection, every channel that ended on a local close without a write error has written everything accepted |
| `GracefulClose.ReopenedClientBreaksPromise` | src/client.rs:343-350 | a run of a client that disconnected while connecting and was reopened: neither closing the channel nor disconnecting again, now connected, keeps the promise |
| `GracefulClose.ClientsKeepPromisesExactly` | src/client/connection.rs:705-724 | clients keep the promise in all their runs if and only if those in which a `Connected` message is handled after a `disconnect` are excluded |
| `RecvChannels.Receiver.DequeueUndispatchedBytesFromPeer` | src/shared/peer_connection.rs:161-167 | takes the oldest received message and counts it, or changes nothing |
| `RecvChannels.Receiver.DispatchReceivedPayloads` | src/shared/peer_connection/recv_channels.rs:71-108 | empties the incoming queue and counts its messages and bytes; buffers and errors are those of the specification, and it fails exactly if there are errors |
| `RecvChannels.Receiver.InternalReceivePayload` | src/shared/peer_connection/recv_channels.rs:51-56 | pops the oldest payload of one channel and touches no other |
| `RecvChannels.Receiver.ClearReceivedPayloads` | src/shared/peer_connection/recv_channels.rs:65-69 | afterwards nothing is buffered on any channel, and as many channels are known as before |
| `RecvChannels.DispatchAppends` | src/shared/peer_connection/recv_channels.rs:78-103 | on every channel, what was buffered stays in front and the kept payloads follow in order of arrival |
| `RecvChannels.DispatchConserves` | src/shared/peer_connection/recv_channels.rs:78-103 | every dequeued message is buffered or reported, once |
| `RecvChannels.DropsAreReported` | src/shared/peer_connection/recv_channels.rs:80-101 | each drop is reported in order, with its channel and the limit it ran into |
| `RecvChannels.KeptOnChannel` | src/shared/peer_connection/recv_channels.rs:78-103 | per channel, what is kept is an ordered selection of what arrived, and all of it if nothing was dropped |
| `RecvChannels.DispatchStaysBounded` | src/shared/peer_connection/recv_channels.rs:80-101 | never more buffers than configured channels, nor more payloads in one than max(1, configured size) |
| `RecvChannels.DispatchIsFifo` | src/shared/peer_connection/recv_channels.rs:71-103 | with room for at least one payload, the growing vector refines a map of independent bounded FIFOs |
| `RecvChannels.RunConserves` | src/shared/peer_connection/recv_channels.rs:51-103 | over all arrivals, pops and clears: arrived is kept plus reported, and per channel popped then buffered payloads are the kept ones in order, all of them absent a clear |
| `RecvChannels.ClearForgets` | src/shared/peer_connection/recv_channels.rs:65-69 | in every run, what is popped and then buffered on a channel after the last clear is exactly what was kept after it, in order |
| `ReceiveIsolation.IsolationExactly` | src/shared/peer_connection/recv_channels.rs:51-103 | over all runs of arrivals, pops and clears, what was popped from a channel and can still be popped is as if only its own arrivals and pops, and the clears, had happened, if and only if buffers hold at least one payload or there is at most one channel |
| `EndToEnd.OrderedDelivery` | src/shared/channels/reliable/send.rs:27-85 | under every interleaving and chunking, failures and cancellations included, the payloads popped on an ordered channel are an order-preserving, duplicate-free subsequence of those accepted |
| `EndToEnd.DeliveryWithoutGaps` | src/shared/channels/reliable/recv.rs:43-68 | without an encoder refusal, a reported drop on the channel or a clear, popped and buffered payloads are a prefix of the accepted ones |
| `EndToEnd.DeliveryCompletes` | src/shared/channels/reliable/send.rs:63-84 | once the task has ended gracefully and the receiver has taken everything in, exactly the accepted payloads are there to pop, if each fits the decoder |
| `DeliveryOrder.InOrderExactly` | src/shared/channels/reliable/codec.rs:67-70 | delivery is in order in every run if and only if the encoder's maximum is below 2^32, or the decoder takes no frame, or the receiver has no room for the channel |
| `DeliveryOrder.LongPayloadIsMistaken` | src/shared/channels/reliable/codec.rs:67-70 | otherwise there is a run in which the application pops a payload nobody has sent |
| `UnorderedDelivery.DeliversNoDuplicates` | src/shared/channels/reliable/send.rs:87-152 | under every interleaving and chunking of the streams, failures and cancellations included: what was popped on an unordered channel, or can still be, was accepted, each payload at least as often |
| `UnorderedDelivery.DeliveryCompletes` | src/shared/channels/reliable/recv.rs:14-61 | once every message task is done without a write error and the receivers have taken everything in, exactly the accepted payloads are there to pop, in some order, if each fits the decoder |
| `UnorderedExactly.GenuineExactly` | src/shared/channels/reliable/codec.rs:67-70 | nothing else is ever delivered, in any run, if and only if the encoder's maximum is below 2^32, or the decoder takes no frame, or the receiver has no room for the channel |
| `PeerConnections.ChannelsIdsPool.TakeId` | src/shared/peer_connection.rs:58-68 | takes the least available id, which becomes the default if there was none; fails exactly if none is available |
| `PeerConnections.ChannelsIdsPool.ReleaseId` | src/shared/peer_connection.rs:71-76 | makes the id available, and clears the default only if it names it |
| `PeerConnections.Channel.SendPayload` | src/shared/channels.rs:116-124 | accepts exactly if the task is alive and the queue has room, and only then queues the payload |
| `PeerConnections.PeerConnection.InternalSendPayload` | src/shared/peer_connection.rs:140-154 | reaches only the channel in that slot; tells apart a full queue, a dead task, a closed channel and an id never used; counts bytes even when the channel refuses them |
| `PeerConnections.PeerConnection.InternalCloseChannel` | src/shared/peer_connection.rs:172-184 | succeeds exactly if the slot holds a channel with a live task, and empties the slot in any case |
| `PeerConnections.PeerConnection.CreateUnregisteredConnectionChannel` | src/shared/peer_connection.rs:196-220 | succeeds exactly if the request can be queued, and then with a new channel that nothing else refers to; registers nothing |
| `PeerConnections.PeerConnection.RegisterConnectionChannel` | src/shared/peer_connection.rs:222-231 | grows the vector only as far as needed and sets one slot |
| `PeerConnections.RegisteredSlots` | src/shared/peer_connection.rs:222-231 | registering a channel changes no other slot |
| `PeerConnections.RegistrationOrderIrrelevant` | src/server/endpoint.rs:445-450 | registering the same channels in any order on a new connection gives the very same vector, with a channel exactly at the registered ids |
| `Endpoints.Endpoint.CreateUnregisteredEndpointChannels` | src/server/endpoint.rs:386-399 | in any order of clients, succeeds exactly if every one of them can take the request, and then each was sent its own new channel; otherwise each client's requests are as before or end with one more, for a new channel; registers nothing |
| `Endpoints.Endpoint.CreateEndpointChannel` | src/server/endpoint.rs:362-384 | all or nothing: either every client gains exactly this channel and has requested it, or no client's channels change and opened channels, pool and default are as before the id was taken |
| `Endpoints.Endpoint.OpenChannel` | src/server/endpoint.rs:344-350 | the same from outside, with the exact case in which the default is not restored; no id that is open at any client, or was left open by a failed close, is used again |
| `Endpoints.Endpoint.OpenConfigured` | src/server.rs:289-291 | a starting endpoint opens all its configured channels under the ids 0, 1, 2, ... in order |
| `Endpoints.Endpoint.SetDefaultChannel` | src/server/endpoint.rs:423-425 | any id becomes the default, whether or not it is open; nothing else changes |
| `Endpoints.Endpoint.CloseChannel` | src/server/endpoint.rs:408-419 | in any order of clients; a success has told every client's task and released the id; when it fails part-way the id stays taken, and clients not reached keep the channel |
| `Endpoints.Endpoint.HandleNewConnection` | src/server/endpoint.rs:441-468 | a late client ends with exactly the opened channels, each requested exactly once with its configuration; it is refused, and told to close, only if its async side is gone; client ids strictly increase |
| `Endpoints.Endpoint.InternalDisconnectClient` | src/server/endpoint.rs:255-269 | removes and counts the client whether or not its tasks can still be told, and says which |
| `Endpoints.Endpoint.DisconnectAllClients` | src/server/endpoint.rs:301-305 | every client whose tasks are alive is told, once, and no other; none is counted |
| `Registry.LoseKeepsSlots` | src/shared/peer_connection.rs:172-184 | a closed channel's id may be released without ever being open and available at the same client |
| `Registry.RegisterKeepsSlots` | src/shared/peer_connection.rs:222-231 | a registered channel is open at the client and its id is not available |
| `ServerEvents.Server.HandleConnection` | src/server.rs:466-475 | a connection with a live async side is always admitted and reported; a refused one is not reported |
| `ServerEvents.Server.HandleClosed` | src/server.rs:476-481 | a client that is present is removed, its loss is written and its tasks are told that the peer has closed; for one that is gone already nothing is written |
| `ServerEvents.Server.ReportLosses` | src/server.rs:485-496 | exactly the clients with a lost channel are reported, each by an event, however many of its channels were lost, and its reports are used up |
| `ServerEvents.Server.RemoveLosses` | src/server.rs:498-500 | exactly the reported clients are removed, and their tasks are told to close |
| `ServerEvents.Server.HandleServerEvents` | src/server.rs:454-501 | one update is a run of the step system: one step per message, in order; then reports of exactly the clients present that had lost a channel, each written to the log; then the removal of exactly these; a client leaves only with a loss event, and one whose connection closed does leave |
| `ServerEvents.EventsAreInOrder` | src/server.rs:464-500 | in every run: connection events carry strictly increasing ids, no event is written twice, and a loss comes after the connection |
| `ServerEvents.LostExactly` | src/server.rs:476-500 | in every run: a client that was connected has a loss event if and only if it is being removed as lost, or is gone without the application having removed it |
| `ServerEvents.ExplicitIsNeverLost` | src/server/endpoint.rs:286-288 | a client that was disconnected explicitly is never reported lost, in any continuation of the run |
| `ServerEvents.ConnectionsAddUp` | src/server/endpoint.rs:255-305 | in every run: connects are disconnects plus current clients plus those removed all at once |
| `ClientConnections.SendChannelsConfiguration.FromConfigs` | src/shared/channels.rs:185-195 | a configuration has at most 256 channels |
| `ClientConnections.SendChannelsConfiguration.Add` | src/shared/channels.rs:200-207 | promises a channel the id that is its position, and refuses exactly the 257th |
| `ClientConnections.ClientSideConnection.OpenConfiguredChannels` | src/client/connection.rs:414-430 | channels get the ids they were promised, in order, and 0 is the default; never runs out of ids; on failure the id is given back and what was opened before stays |
| `ClientConnections.ClientSideConnection.OpenChannel` | src/client/connection.rs:392-399 | opens the least available id, or leaks it |
| `ClientConnections.ClientSideConnection.CloseChannel` | src/client/connection.rs:408-412 | releases the id exactly if the channel's task could be told; the slot is empty in any case |
| `ClientConnections.ClientSideConnection.SendPayloadOn` | src/client/connection.rs:346-356 | queues the payload exactly if the connection is not disconnected, the channel's task is alive and its queue has room; after a disconnect nothing is queued or counted any more |
| `ClientConnections.ClientSideConnection.InternalDisconnect` | src/client/connection.rs:432-443 | the tasks are told once, however often it is called |
| `ClientConnections.ClientSideConnection.Reconnect` | src/client/connection.rs:450-499 | never fails; a disconnected connection gets new queues in both directions, empty receive buffers, a new pool and exactly its configured channels; any other is left alone |
| `ClientConnections.ClientSideConnection.HandleClientEvents` | src/client.rs:340-405 | all queued messages are handled in order and then the loss reports, each with exactly the state change and event it calls for; the tasks are told that the peer has closed once per loss that is written; nothing is left over |
| `ClientConnections.ClientSideConnection.HandleMessage` | src/client.rs:340-388 | state, event and close that each kind of message calls for; a loss is written and told to the tasks unless the connection was disconnected |
| `ClientConnections.EveryLossIsTold` | src/client.rs:355-403 | whatever is handled in one update, the tasks are told of every loss that is written, and of nothing else |
| `ClientLifecycle.OneLossPerLife` | src/client.rs:355-403 | in every run, between two losses of a connection it was connected again or reconnected |
| `ClientLifecycle.EventsAreOfThisEpoch` | src/client/connection.rs:450-499 | in every run, tasks of earlier epochs notwithstanding: events and state since the last reconnect are accounted for by what the current epoch's tasks sent |
| `ClientLifecycle.PayloadsAreOfThisEpoch` | src/shared/peer_connection.rs:266-283 | in every run, the payloads popped or buffered since the last reconnect are, per channel and in order, among those received in the current epoch |
| `ClientLifecycle.UpdateIsSteps` | src/client.rs:340-405 | handling all queued messages and reports in one update is a run of the single steps these results are about |
| `LiveConnections.LiveConnection.HandleClientEvents` | src/client.rs:340-405 | on the connection itself: an update is one step of its life per queued message and per report, and writes what these steps write |
| `LiveConnections.LiveConnection.DispatchReceivedPayloads` | src/client.rs:416-428 | nothing is taken in once disconnected; otherwise all that is queued is dispatched, in one step |
| `LiveConnections.LiveConnection.ReceivePayload` | src/client/connection.rs:608-616 | fails exactly if disconnected; otherwise hands over the first payload buffered on the channel, if there is one, which is the one that the step pops |
| `LiveConnections.LiveConnection.Disconnect` | src/client/connection.rs:505-507 | leaves the connection disconnected and tells the tasks, if it was not and they are there; is the disconnect step |
| `LiveConnections.LiveConnection.Reconnect` | src/client/connection.rs:450-499 | is the reconnect step: the queue and the buffers that `internal_reset` replaces are those of a new epoch, on which tasks of earlier epochs have no effect |
| `LiveConnections.BuffersAreOfThisEpoch` | src/shared/peer_connection.rs:266-283 | whatever was done with a connection and whatever tasks of any epoch sent it: what was popped since the last reconnect and what its buffers hold now is, per channel and in order, among what the current epoch received |
| `RunningConnections.RunningConnection.OpenChannel` | src/client/connection.rs:392-399 | on the connection itself: a success is the event that opens a channel and queues its request, a failure is none |
| `RunningConnections.RunningConnection.SendPayloadOn` | src/client/connection.rs:346-356 | an accepted payload is a send on the channel that is open under the id, and a refused one is no event |
| `RunningConnections.RunningConnection.CloseChannel` | src/client/connection.rs:408-412 | releases the channel that was open under the id, even if its task cannot be told, and does nothing else |
| `RunningConnections.RunningConnection.Disconnect` | src/client/connection.rs:432-443 | leaves the connection disconnected, having told the tasks once; is the disconnect event, or none once disconnected |
| `RunningConnections.RunningConnection.HandleNextMessage` | src/client.rs:340-388 | handling the oldest message of the connection task is the event it stands for: connected, failed, lost, or none; what the tasks are told stays what the system says |
| `RunningConnections.RunningConnection.HandleNextReport` | src/client.rs:389-403 | a report that a channel was lost is a disconnect by the peer, of which the tasks are told, or none once disconnected |
| `RunningConnections.RunningConnection.TaskStep` | src/shared/channels/reliable/send.rs:27-85 | every step of a channel's task moves the application's queue of that channel and no other, and ends its receiver exactly when the task ends |
| `RunningConnections.RunningConnection.CloseConnection` | src/shared/channels/tasks.rs:97-103 | when the spawner ends, the requests it has not taken are dropped with the receivers of exactly their channels |
| `RunningConnections.ClosesAreDisconnects` | src/client/connection.rs:517-521 | whatever was done with a connection: the close messages its tasks were sent are the disconnects of a run that led here, with their reasons, in order |
| `RunningConnections.DisconnectByState` | src/client/connection.rs:432-443 | whatever was done with a connection: `disconnect` keeps the promise for a channel if and only if nothing came after a drain and the connection's own state is connected; or the channel is not in the vector, has no task, or its writes have failed |
| `Base64.RoundTrip` | src/shared/certificate.rs:15-17 | a text decodes to some bytes if and only if it is their encoding (RFC 4648, section 4) |
| `Base64.GroupIsNumber` | src/shared/certificate.rs:15-17 | three bytes and their four digits are the same 24-bit number (RFC 4648, section 4) |
| `KnownHosts.LineRoundTrip` | src/client/certificate.rs:453-468 | an entry is printed as name, space, Base64, and parsed back to the same name and fingerprint |
| `KnownHosts.LineExactly` | src/client/certificate.rs:453-468 | what any line is read as: refused if it is blank or a single name, if its first word is no name, or if its second is not the Base64 encoding of 32 bytes, each with its error; otherwise the name and these bytes, whatever follows |
| `KnownHosts.LinesExactly` | src/client/certificate.rs:474-477 | a line reaches up to its line end and loses one carriage return; what is left without a line end is a line as it is |
| `KnownHosts.FileRoundTrip` | src/client/certificate.rs:441-479 | whatever the order in which a store is written, loading the file gives the store back |
| `KnownHosts.HostsFile.StoreKnownHosts` | src/client/certificate.rs:441-451 | writes every entry exactly once, in some order, and replaces what the file held; a file that cannot be created stays as it was |
| `KnownHosts.HostsFile.LoadKnownHosts` | src/client/certificate.rs:470-498 | reads the file as the specification does; a missing file is an empty store |
| `KnownHosts.LoadExactly` | src/client/certificate.rs:453-479 | any text is refused if and only if one of its lines is, for what is wrong with the first such line; otherwise the names known are those of its lines, each with the fingerprint of its last line |
| `TrustOnFirstUse.TofuServerVerification.ApplyAction` | src/client/certificate.rs:320-368 | only trusting actions accept; an abort is reported; the file is written before the update is reported, and stays written if the report fails |
| `TrustOnFirstUse.TofuServerVerification.ActionFor` | src/client/certificate.rs:287-317 | the table's action for the status, or the client's answer if the table asks it, or an abort if the table has no entry; the client is asked exactly then |
| `TrustOnFirstUse.TofuServerVerification.VerifyServerCert` | src/client/certificate.rs:287-404 | the status is that of the stored fingerprint; accepts exactly if the table, or the client it asks, says to trust, and a store to be made could be made and reported; the client is sent exactly the request, the abort or the update that are due; the file changes only by storing this certificate for this name |
| `TrustOnFirstUse.Connect` | src/client/certificate.rs:481-498 | one connection loads the file, gives the verdict that its store, the behaviours and the answers call for, and writes it back if it is to; where the table has no entry or aborts, or the client it asks aborts or does not answer, it is not accepted and the file unchanged; with an unreadable file the task panics and changes nothing |
| `TrustOnFirstUse.UnreadableStays` | src/client/certificate.rs:481-498 | a file that cannot be read at first is never changed by any run of connections |
| `TrustOnFirstUse.TrustFollowsTheLastStore` | src/client/certificate.rs:383-403 | in every run of connections sharing a file, whatever readable file it starts from: until something is stored for a name it is judged by the first file, then it is trusted exactly if the fingerprint is the last one stored for it, whatever was stored for others |
| `TrustOnFirstUse.FirstUseIsKept` | src/client/certificate.rs:112-132 | in every run with the default behaviours, a known name keeps its fingerprint for as long as no connection to it is answered by trusting and storing another |
| `TrustOnFirstUse.DefaultVerdicts` | src/client/certificate.rs:112-132 | with the default behaviours: a trusted certificate is accepted unasked, an unknown one if it can be stored and reported, an untrusted one only if the client answers that it trusts it |
| `TrustOnFirstUse.ConcurrentStoresForget` | src/client/certificate.rs:342-353 | of two connections that loaded the same store, the later to store keeps only what it loaded and its own entry |
| `Chat.Client.HandleServerMessages` | examples/chat/src/bin/client.rs:47-82 | the replica is the replay of the server's messages; it warns once per message about a user unknown at that point, and prints what is due |
| `Chat.ChatServer.SendGroupMessage` | src/server/endpoint.rs:105-130 | tries every client, in any order, and fails exactly if one of them cannot be reached |
| `Chat.ChatServer.HandleClientMessage` | examples/chat/src/bin/server.rs:18-74 | keeps running exactly if every send it unwraps succeeds; a client that joins is sent the table and everyone in it is told; what is said goes to every user that can be reached; one that leaves is removed and the others are told; nobody else is sent anything |
| `Chat.ChatServer.HandleDisconnected` | examples/chat/src/bin/server.rs:88-106 | removes a user and tells exactly those who remain |
| `Chat.ReplicasConverge` | examples/chat/src/bin/server.rs:23-70 | in every run in which no send stops the server, replaying its pending messages turns any joined client's replica into exactly the server's table |
| `Chat.NoUnknownUsers` | examples/chat/src/bin/client.rs:57-73 | if clients join before they chat, no client ever handles a message about a user it does not know |
| `Chat.JoiningIsNeeded` | examples/chat/src/bin/server.rs:59-69 | a chat message is about a known user for all who are sent it if and only if its author has joined |
| `Chat.SaidIsPrinted` | examples/chat/src/bin/client.rs:65-73 | in every run: what a user says is printed, once and under the user's name, by exactly the other users who can be reached, and what one who has not joined says by nobody |
| `Chat.DepartureIsPrinted` | examples/chat/src/bin/client.rs:57-64 | in every run: a user who leaves or is lost is in no table any more, and every user who remains prints that once |
| `Chat.JoinIsQuiet` | examples/chat/src/bin/server.rs:23-52 | in every run: whoever joins is in the table from then on, under the name of the first join, and nothing is printed for it |

## Left out

- quinn, rustls, tokio and bevy: represented by the assumptions above; TLS, SHA-256, certificate generation and sockets are not part of this model.
- The async code of the spawner and of the unordered and unreliable tasks is a step relation, not a loop: Dafny has no tasks, and what is claimed is about all interleavings.
- Liveness: that a shutdown can always be carried through is proved, not that the scheduler, the peer's stream limits or the network let it finish.
- The queue of loss reports has room here: where the update never runs again, a message task whose write failed may wait with its report for ever.
- The race between a close and a channel request that is still queued: the spawner may drop the request or subscribe it after the close; nothing is claimed to be flushed across it.
- How many messages a lagging broadcast receiver skips: a lagging receiver may be cancelled as the code has it, and never skips silently.
- A connection that failed to connect drops the receiver of its control queue; here the queue can still take requests, which are never served.
- Delivery of datagrams, their size limit, and the dropping of empty ones on receipt: there is no guarantee to prove.
- Two uses of one channel id within an epoch: ordered delivery is about an id that is used once, as two streams may arrive interleaved.
- 64-bit and 32-bit counters (client ids, byte counts, connect and disconnect counts) do not wrap around here.
- The client-id handshake: one fixed 8-byte integer over a library codec.
- `messages.rs` on both sides, the `try_*` wrappers, default connections, address configuration, logging and run conditions: thin wrappers.
- The outer loop of the client's update over its connections: connections share nothing, so the model has one.
- The outer loops of the chat systems over clients and events: each iteration is a step of the chat model.
- A hosts file that can be created but not completely written: the source then leaves part of it.
- How rustls reads server names: a parameter, assumed to read back what it prints, without white space; also of the names in a hosts file that a run starts from.
- Character encodings of the hosts file: it is a sequence of characters.
- The breakout example: game logic and rendering.
- EndToEnd.OrderedDelivery: requires that a payload and its channel id do not exceed 2^32 bytes, because without that it is false; DeliveryOrder.InOrderExactly gives the condition on the configuration.
- UnorderedDelivery.DeliversNoDuplicates: requires that a payload and its channel id do not exceed 2^32 bytes, because without that it is false; UnorderedExactly.GenuineExactly gives the condition on the configuration.
