# RTMP live-streaming server core, modelled in Dafny

This project models the server side of an RTMP live-streaming server. A publisher pushes audio, video and script (metadata) tags. The server relays them to every player of the same stream. The model covers these parts of the server:

- **The session `RtmpConn`.** It runs the server half of the RTMP handshake: C0, C1 and C2 come in, and the S0+S1+S2 reply goes out once C1 is complete.
  - It counts received bytes for acknowledgements under the window size.
  - It buffers writes the socket did not take and flushes them on the next writable event.
  - It answers each AMF0 command (connect, createStream, deleteStream, getStreamLength, publish, play, pause, seek, receiveAudio, receiveVideo) with the control and status messages the library writes.
  - It caches the publisher's first tag of each kind and sends the cached configuration tags once to every player.
- **The stream registry.** It maps `app/stream` keys to live streams (`LiveSource` with its `LiveConsumer` players). The model covers publish, play, the refusal of a repeated join, media fan-out, and the cleanup when a session closes.
- **The global tables.** Sessions are found by connection handle and by uuid; both ids come from a 32-bit generator that skips 0. Responses queued by worker threads are later drained onto their sessions.
- **The command dispatcher `rtmp_invoke_handler`.** It decodes the command name and transaction id and ignores notifications (transaction -1). It looks the name up in a fixed table, and each entry's parser leaves missing arguments at that parser's defaults.
- **The reactor `CEventDispatch`.** It holds the timers keyed by (callback, user data), the loop callbacks, the `running` guard, and the select back end's fd sets.
- **The protocol constants of `rtmp_internal.h`.** These are the channel ids, the message-type-to-channel mapping, the largest chunk header, the parser state order and the zeroed packet tables.

### Modules

| file | module | holds |
|---|---|---|
| `wrappers.dfy` | `Wrappers` | `Option`, `Min`, `Max`, `Sum` |
| `rtmp_internal.dfy` | `RtmpInternal` | constants and enumerations, with their codes and inverses |
| `rtmp_conn_defs.dfy` | `RtmpConnDefs` | session constants, `TagBuffer`, the vocabulary of outgoing messages |
| `handshake_spec.dfy` | `HandshakeSpec` | handshake progress as a function of the bytes consumed |
| `ack_spec.dfy` | `AckSpec` | the acknowledgement window |
| `transport_spec.dfy` | `TransportSpec` | the buffered write path |
| `media_spec.dfy` | `MediaSpec` | tag cache and per-player fan-out |
| `rtmp_invoke.dfy` | `RtmpInvoke` | the dispatcher as a pure function of an AMF0 reader |
| `app_rtmp_conn.dfy` | `AppRtmpConn` | the classes `RtmpConn`, `LiveConsumer`, `LiveSource` and `RtmpServer` |
| `event_dispatch.dfy` | `EventDispatch` | the class `CEventDispatch` |

### Modelling choices

- **Imperative code is modelled as classes.**
  - Each session, stream and player is a class whose fields the methods update in place.
  - The file-scope globals (`s_lives`, `s_rtmp_conn_map`, `s_uuid_conn_map`, `s_response_pdu_list` and the two id generators) are fields of `RtmpServer`.
  - Each method is proved against a pure specification function in one of the `*_spec` modules. The properties the source promises are lemmas about those functions.
- **Messages are recorded rather than encoded.** The encoders are not part of this model: `rtmp_chunk_write`, the AMF0 writers, `rtmp_handshake_s0/s1/s2` and the control message writers. Each session's `outbox` lists the messages it produces, in order.
- **The byte-level write path is kept separately.** `Send` and `OnWrite` work on raw bytes in `transport`, and the response queue drain uses that path.
- **Every send succeeds.** `RtmpConn::Send` always returns 0, so every `n == r ? 0 : r` sender returns 0 as well. `rtmp_chunk_write` is taken to succeed as well.
- **The socket and the chunk reader are parameters.** A socket's return value is a parameter (`ret`, `rets`). The chunk reader's result is a parameter too (`chunkRet`), and the bytes handed to it are recorded in `chunkInput`.
- **The C asserts and the null dereferences are preconditions.**
  - The C asserts are the C0 version being at most 3, the connect encoding being AMF0 or AMF3, and `(int)transaction == 1` on connect. `rtmp_server_destroy`'s two asserts (app_rtmp_conn.cpp:904, 907), equal in- and out-packet array sizes and no out-packet payload, are the requires of `Destroy`.
  - The null dereferences are listed under "## Left out" and "## Findings".
- **The handshake block is 1536 bytes.** `RTMP_HANDSHAKE_SIZE` is defined in rtmp_handshake.h, which is not part of this model. The model gives it the 1536 bytes of section 5.2.3 of the RTMP specification: a 4-byte time, a 4-byte zero or time2 field and 1528 random bytes. This is the layout the comments at app_rtmp_conn.cpp:940 and 959 describe.
- **AMF numbers are reals.** The transaction id, `start`, `duration` and the connect encoding are C doubles, modelled as Dafny `real`. NaN and the infinities are not modelled. The code compares `start` with -1 (app_rtmp_conn.cpp:752), compares the encoding with the AMF0 and AMF3 codes and `(int)transaction` with 1 (app_rtmp_conn.cpp:619, 623), and otherwise copies these numbers into replies. Finite values therefore cover every branch it takes.

## Model

| member | source | states |
|---|---|---|
| `RtmpInternal.ChannelId` | src/protocol/rtmp_internal.h:25-34 | channel ids are 2..6, below the table size 8 and below RTMP_CHANNEL_MAX |
| `RtmpInternal.ChannelOfId` | src/protocol/rtmp_internal.h:25-34 | an id names a channel exactly when it is 2..6, and then maps back to that id |
| `RtmpInternal.ChannelIdsDistinct` | src/protocol/rtmp_internal.h:25-31 | distinct channels have distinct ids, and each id names its channel back |
| `RtmpInternal.ChannelMaxIsExtendedRange` | src/protocol/rtmp_internal.h:33 | the chunk stream id limit is 65535 + 64 |
| `RtmpInternal.ChannelOfType` | src/protocol/rtmp_internal.h:27-31 | message types 1-6 use PROTOCOL, 20/17 use INVOKE, 8 AUDIO, 9 VIDEO, 18/15 DATA, in both directions |
| `RtmpInternal.MaxChunkHeaderIsSumOfParts` | src/protocol/rtmp_internal.h:77-79 | the 18-byte header buffer is a 3-byte basic header + 11-byte message header + 4-byte extended timestamp |
| `RtmpInternal.ParserStateCode` | src/protocol/rtmp_internal.h:82-89 | parser state codes are 0..4, and code 0 is exactly INIT |
| `RtmpInternal.ParserStateOfCode` | src/protocol/rtmp_internal.h:82-89 | a code names a state exactly when it is at most 4; inverse of ParserStateCode |
| `RtmpInternal.ParserStatesAscend` | src/protocol/rtmp_internal.h:82-89 | the states are numbered in parse order |
| `RtmpInternal.ZeroPacket` | src/app/app_rtmp_conn.cpp:234 | a memset packet has no payload and zero counters |
| `RtmpInternal.InitialParser` | src/protocol/rtmp_internal.h:91-101 | the parser starts in INIT with an 18-byte header buffer |
| `RtmpConnDefs.HandshakeReplySize` | src/app/app_rtmp_conn.cpp:465-475 | S0+S1+S2 is 3073 bytes |
| `RtmpConnDefs.HandshakeBufferHoldsOneReply` | src/app/app_rtmp_conn.h:109 | the reply buffer is exactly one S0+S1+S2 |
| `RtmpConnDefs.ScratchCopyInBounds` | src/app/app_rtmp_conn.cpp:940-969 | a C1/C2 fragment copied at the block offset stays inside the 2048-byte scratch buffer |
| `RtmpConnDefs.Truncate` | src/app/app_rtmp_conn.cpp:711-712 | `snprintf(buf, size-1, ...)` keeps a prefix of at most size-2 characters, and the whole string if it fits |
| `RtmpConnDefs.FlvTagType` | src/app/app_rtmp_conn.cpp:31-34 | audio 8, video 9, script 18, in both directions |
| `RtmpConnDefs.EmptyConnectInfo` | src/protocol/rtmp_invoke_handler.cpp:19-20 | the connect record starts zeroed with encoding AMF0 |
| `RtmpConnDefs.CommandHeader` | src/app/app_rtmp_conn.cpp:445-455 | a command goes out with a type-0 header on the invoke channel at timestamp 0 |
| `RtmpConnDefs.StatusMessage` | src/app/app_rtmp_conn.cpp:457-462 | onStatus at level "status" with the success code when r is 0, otherwise at "error" with the failure code, on the session's stream |
| `HandshakeSpec.Consumed` | src/app/app_rtmp_conn.cpp:920-984 | bytes consumed are at most 3073, 0 exactly in UNINIT, 3073 exactly in HANDSHAKE_2 |
| `HandshakeSpec.StateOf` | src/app/app_rtmp_conn.cpp:920-984 | every consumed count 0..3073 corresponds to a valid (state, offset) pair |
| `HandshakeSpec.StateOfConsumed` | src/app/app_rtmp_conn.cpp:920-984 | Consumed and StateOf are inverse |
| `HandshakeSpec.Advance` | src/app/app_rtmp_conn.cpp:924-983 | an input never moves the handshake back or past its end |
| `HandshakeSpec.AfterInputs` | src/app/app_rtmp_conn.cpp:920-984 | the position after a sequence of inputs stays within the handshake |
| `HandshakeSpec.FragmentationIrrelevant` | src/app/app_rtmp_conn.cpp:920-984 | however the input is split into reads: the handshake consumes min(total, 3073) bytes, replies once exactly if C1 was completed during the reads, and forwards every byte past the handshake |
| `HandshakeSpec.FromFreshSession` | src/app/app_rtmp_conn.cpp:920-984 | from a fresh session: done iff 3073 bytes arrived; one reply iff at least 1537 arrived; never two |
| `HandshakeSpec.DoneIsFinal` | src/app/app_rtmp_conn.cpp:976-979 | HANDSHAKE_2 is never left, never replies again and forwards everything |
| `AckSpec.AckStep` | src/app/app_rtmp_conn.cpp:488-500 | received grows by n; acked catches up exactly when an acknowledgement is due |
| `AckSpec.BacklogBounded` | src/app/app_rtmp_conn.cpp:488-500 | received is the sum of the inputs, and the unacknowledged backlog never exceeds the window |
| `AckSpec.AcksSpacedByWindow` | src/app/app_rtmp_conn.cpp:488-500 | acknowledged counts lie within what was received and rise by more than the window each time |
| `AckSpec.NoAckUntilWindowExceeded` | src/app/app_rtmp_conn.cpp:488-500 | with counters at zero, no acknowledgement goes out before more than a window has arrived |
| `AckSpec.UninitialisedCountersAckEarly` | src/app/app_rtmp_conn.h:103 | with garbage counters, one byte triggers an acknowledgement (see Findings) |
| `TransportSpec.InitialTransport` | src/app/app_rtmp_conn.cpp:189 | a fresh session is not busy and has sent nothing |
| `TransportSpec.Accepted` | src/app/app_rtmp_conn.cpp:260-264 | a negative socket result counts as nothing sent |
| `TransportSpec.SendStep` | src/app/app_rtmp_conn.cpp:252-279 | Send loses and reorders nothing (wire + out buffer grows by exactly the data); busy queues without writing; a full write leaves nothing queued |
| `TransportSpec.WriteStep` | src/app/app_rtmp_conn.cpp:340-361 | OnWrite moves bytes from the out buffer to the wire without loss; not busy means nothing happens; a full write clears busy |
| `TransportSpec.ReplayKeepsOrder` | src/app/app_rtmp_conn.cpp:252-361 | over any run of sends and writable events, what reached the socket followed by what is queued is exactly what was sent, in order |
| `TransportSpec.IdleMeansDelivered` | src/app/app_rtmp_conn.cpp:340-361 | once a session is no longer busy, the socket has every byte ever sent, in order |
| `TransportSpec.ReplaySnocSend` | src/app/app_rtmp_conn.cpp:252-279 | one more Send is one more SendStep |
| `TransportSpec.SendDataSnoc` | src/app/app_rtmp_conn.cpp:252-279 | the data of a run of sends grows by the data of the last send |
| `TransportSpec.SentOfSends` | src/app/app_rtmp_conn.cpp:252-279 | over a run of sends a socket can answer, every send's data is passed on |
| `MediaSpec.TagMessage` | src/app/app_rtmp_conn.cpp:1056-1101 | a relayed tag goes out with a type-1 header on the kind's channel (script on INVOKE), with its type, timestamp, length and the player's stream |
| `MediaSpec.FreshPlayer` | src/app/app_rtmp_conn.h:56-61 | a new player takes every kind and has sent no cached tag yet |
| `MediaSpec.MarkSent` | src/app/app_rtmp_conn.cpp:1025-1054 | marking a kind sent changes only that kind's flag |
| `MediaSpec.SendTag` | src/app/app_rtmp_conn.cpp:1056-1101 | exactly one message when the player takes the kind, none otherwise |
| `MediaSpec.CacheTag` | src/app/app_rtmp_conn.cpp:560-612 | the cache keeps the first tag of a kind and leaves the other kinds alone |
| `MediaSpec.Deliver` | src/app/app_rtmp_conn.cpp:53-73 | a player gets the cached tag once before the live tag; sent flags only grow; receive flags and stream are kept |
| `MediaSpec.WantedCount` | src/app/app_rtmp_conn.cpp:1056-1088 | the number of tags a player takes is at most the run length |
| `MediaSpec.CacheKeepsFirst` | src/app/app_rtmp_conn.cpp:560-612 | after any run, a cached slot is unchanged and an empty one holds the first tag of its kind |
| `MediaSpec.DeliverAllBounds` | src/app/app_rtmp_conn.cpp:53-110 | over a run, the number of messages a player gets is at least the number of tags it takes, and at most that plus one per kind whose cached tag it had not yet been sent; every kind that occurred is then marked sent |
| `MediaSpec.DeliverAllContents` | src/app/app_rtmp_conn.cpp:53-110 | over any run, a player's messages are exactly the reference `Expected`: every tag it takes, in the publisher's order, each preceded only by the publisher's configuration tag of that kind at the first tag of a kind it had not been sent (the cached tag, or the tag itself when none was cached) |
| `MediaSpec.DeliverAllFrom` | src/app/app_rtmp_conn.cpp:53-110 | the same from any point inside a run, for a player and cache that have followed the kinds seen so far |
| `MediaSpec.WantedCountDependsOnFlags` | src/app/app_rtmp_conn.cpp:1056-1088 | only the receive flags decide which tags are taken |
| `MediaSpec.FirstTagDeliveredTwice` | src/app/app_rtmp_conn.cpp:560-577 | a player already listening receives the publisher's very first audio tag twice (cached, then live) |
| `RtmpInvoke.NumberAt` | src/protocol/rtmp_invoke_handler.cpp:55-75 | a number argument is the decoded value, or the parser's default |
| `RtmpInvoke.BooleanAt` | src/protocol/rtmp_invoke_handler.cpp:94-107 | a boolean argument stores 1/0, or keeps the parser's default |
| `RtmpInvoke.StringAt` | src/protocol/rtmp_invoke_handler.cpp:126-142 | a string argument is the decoded string, or "" |
| `RtmpInvoke.Status` | src/protocol/rtmp_invoke_handler.cpp:48-51 | a parser's flag is 0 exactly when decoding succeeded, and -1 otherwise |
| `RtmpInvoke.HeaderItems` | src/protocol/rtmp_invoke_handler.cpp:229-231 | the header is the command string, then the transaction number |
| `RtmpInvoke.ConnectItems` | src/protocol/rtmp_invoke_handler.cpp:22-32 | connect reads one object with eight properties |
| `RtmpInvoke.OneArgItems` | src/protocol/rtmp_invoke_handler.cpp:84-85 | a one-argument parser reads the command object, then one typed argument |
| `RtmpInvoke.FindFrom` | src/protocol/rtmp_invoke_handler.cpp:240-247 | the search finds an entry exactly when one has that name, and returns a matching entry |
| `RtmpInvoke.Lookup` | src/protocol/rtmp_invoke_handler.cpp:240-247 | a name selects a command exactly when the table has it |
| `RtmpInvoke.NameOf` | src/protocol/rtmp_invoke_handler.cpp:200-218 | every command has a table entry |
| `RtmpInvoke.TableNamesDistinct` | src/protocol/rtmp_invoke_handler.cpp:200-218 | the table names are distinct |
| `RtmpInvoke.LookupNameOf` | src/protocol/rtmp_invoke_handler.cpp:200-247 | every command is found under its own name |
| `RtmpInvoke.LookupExact` | src/protocol/rtmp_invoke_handler.cpp:242 | matching is exact and case-sensitive; FCPublish is not a command |
| `RtmpInvoke.KindOf` | src/protocol/rtmp_invoke_handler.cpp:207-217 | every invocation is that of a server command |
| `RtmpInvoke.ParseConnect` | src/protocol/rtmp_invoke_handler.cpp:12-38 | connect passes the flag, the transaction and the eight properties with their defaults |
| `RtmpInvoke.Parse` | src/protocol/rtmp_invoke_handler.cpp:41-191 | each parser answers its own command with the transaction passed through |
| `RtmpInvoke.ParseFlag` | src/protocol/rtmp_invoke_handler.cpp:41-191 | each parser's flag is 0 iff the reader succeeded on that parser's items, else -1 |
| `RtmpInvoke.Defaults` | src/protocol/rtmp_invoke_handler.cpp:55-191 | with nothing decoded: play start -2, duration -1, reset 0; receive flags 1; connect AMF0; stream id 0; seek and pause at 0 ms; empty strings |
| `RtmpInvoke.Dispatch` | src/protocol/rtmp_invoke_handler.cpp:221-251 | undecodable iff Invalid; notification iff transaction -1; otherwise the named parser on the rest of the message, called only if registered; an unknown name calls nothing |
| `RtmpInvoke.ReturnCode` | src/protocol/rtmp_invoke_handler.cpp:221-251 | -EINVAL when undecodable, 0 for notifications and unknown names, -1 for a missing callback, otherwise the handler's result |
| `RtmpInvoke.SessionCallsEveryServerCommand` | src/app/app_rtmp_conn.cpp:223-232 | with the session's callbacks, every decodable server command calls its callback with the parsed arguments |
| `AppRtmpConn.NextId` | src/app/app_rtmp_conn.cpp:194-202 | the next 32-bit id is nonzero: generator+1 without wrap, and 1 on wrap |
| `AppRtmpConn.IdsFrom` | src/app/app_rtmp_conn.cpp:194-202 | k sessions get k ids |
| `AppRtmpConn.IdsConsecutiveBeforeWrap` | src/app/app_rtmp_conn.cpp:194-202 | until the generator wraps, ids are consecutive (hence distinct) |
| `AppRtmpConn.StreamKey` | src/app/app_rtmp_conn.cpp:703-705 | the key is the app name, "/", then the stream name |
| `AppRtmpConn.StreamKeyInjective` | src/app/app_rtmp_conn.cpp:741-743 | for app names without "/", a key names exactly one (app, stream) pair |
| `AppRtmpConn.PlayStartSequence` | src/app/app_rtmp_conn.cpp:986-1006 | a successful play start: StreamBegin, Play.Reset only if asked, Play.Start "status", StreamIsRecorded, then RtmpSampleAccess |
| `AppRtmpConn.PlayStartFailure` | src/app/app_rtmp_conn.cpp:986-1006 | a failed play start is exactly three messages: Play.Failed at "error", then StreamIsRecorded and the RtmpSampleAccess data message on the session's stream |
| `AppRtmpConn.ConnectReplies` | src/app/app_rtmp_conn.cpp:616-639 | a successful connect is answered with four messages: window size, peer bandwidth, Set Chunk Size 4096, then the _result on stream 0 with the transaction and the client's encoding |
| `AppRtmpConn.ResumeReplies` | src/app/app_rtmp_conn.cpp:826-856 | turning a kind back on is answered with Seek.Notify then Play.Start, both "status", on the session's stream |
| `AppRtmpConn.CommandEffect` | src/app/app_rtmp_conn.cpp:616-856 | reference for what each server command callback leaves in the session: a failed parse changes nothing; a command only ever appends to what was sent; only connect changes the connect record and chunk size, only receiveAudio/receiveVideo their flags, only createStream/deleteStream the stream id, only play/publish the stream name |
| `AppRtmpConn.ChannelPacket` | src/app/app_rtmp_conn.cpp:236-240 | each out packet carries its channel id |
| `AppRtmpConn.RtmpConn.Player` | src/app/app_rtmp_conn.h:56-61 | a session's fan-out view keeps its stream id |
| `AppRtmpConn.RtmpConn.constructor` | src/app/app_rtmp_conn.cpp:186-242 | a fresh session: idle, invalid socket, UNINIT handshake, default window, peer bandwidth, buffer length and chunk sizes, INIT parser, zeroed in-packets, out-packets labelled by channel, stream 0, receiving everything, empty cache, no stream; counters zero (corrected, see Findings) |
| `AppRtmpConn.RtmpConn.Send` | src/app/app_rtmp_conn.cpp:252-279 | the transport takes one SendStep; the result is 0 |
| `AppRtmpConn.RtmpConn.OnWrite` | src/app/app_rtmp_conn.cpp:340-361 | the transport takes one WriteStep |
| `AppRtmpConn.RtmpConn.SendHandshake` | src/app/app_rtmp_conn.cpp:465-475 | appends S0+S1+S2 echoing the C1 held in the scratch buffer |
| `AppRtmpConn.RtmpConn.SendAcknowledgement` | src/app/app_rtmp_conn.cpp:488-500 | the counters take one AckStep, and an Acknowledgement with the new count goes out exactly when one is due |
| `AppRtmpConn.RtmpConn.SendServerBandwidth` | src/app/app_rtmp_conn.cpp:503-509 | appends Window Acknowledgement Size with the session's window |
| `AppRtmpConn.RtmpConn.SendClientBandwidth` | src/app/app_rtmp_conn.cpp:512-518 | appends Set Peer Bandwidth, limit type dynamic |
| `AppRtmpConn.RtmpConn.SendSetChunkSize` | src/app/app_rtmp_conn.cpp:478-485 | announces and adopts an output chunk size of 4096 |
| `AppRtmpConn.RtmpConn.SendStreamBegin` | src/app/app_rtmp_conn.cpp:528-534 | appends StreamBegin for the session's stream |
| `AppRtmpConn.RtmpConn.SendStreamIsRecord` | src/app/app_rtmp_conn.cpp:520-526 | appends StreamIsRecorded for the session's stream |
| `AppRtmpConn.RtmpConn.SendSampleAccess` | src/app/app_rtmp_conn.cpp:536-550 | appends a data message, RtmpSampleAccess, on the session's stream |
| `AppRtmpConn.RtmpConn.SendOnStatus` | src/app/app_rtmp_conn.cpp:457-462 | appends the StatusMessage for r |
| `AppRtmpConn.RtmpConn.ServerInput` | src/app/app_rtmp_conn.cpp:920-984 | the handshake advances as Advance says, and the reply goes out as RepliesOn says; any bytes after the handshake are counted by one AckStep and forwarded to the chunk reader (whose result is returned), else the result is 0; session invariants are kept |
| `AppRtmpConn.RtmpConn.RunHandshake` | src/app/app_rtmp_conn.cpp:924-975 | the loop consumes exactly Advance(c, n) - c bytes and sends the reply once iff it completes C1 |
| `AppRtmpConn.RtmpConn.SendAcknowledgementAndForward` | src/app/app_rtmp_conn.cpp:976-979 | the post-handshake bytes are counted for acknowledgement and handed to the chunk reader |
| `AppRtmpConn.RtmpConn.HandshakeStep` | src/app/app_rtmp_conn.cpp:929-975 | one loop pass consumes at least one byte and replies iff it completes C1 |
| `AppRtmpConn.RtmpConn.TakeC1` | src/app/app_rtmp_conn.cpp:940-957 | takes the missing part of C1 (or all the input); on completion moves to HANDSHAKE_1 and replies |
| `AppRtmpConn.RtmpConn.TakeC2` | src/app/app_rtmp_conn.cpp:959-974 | takes the missing part of C2 (or all the input); on completion moves to HANDSHAKE_2 |
| `AppRtmpConn.RtmpConn.CopyBlock` | src/app/app_rtmp_conn.cpp:945 | the fragment lands at the block offset, and bytes before it are kept |
| `AppRtmpConn.RtmpConn.Start` | src/app/app_rtmp_conn.cpp:986-1023 | sends the replies of the pending play or publish, clears the pending flag, and returns 0 if one was pending, else r |
| `AppRtmpConn.RtmpConn.BeginPlay` | src/app/app_rtmp_conn.cpp:746-758 | on success records name, "live"/"record", reset and transaction, then sends the play start replies; otherwise nothing changes |
| `AppRtmpConn.RtmpConn.BeginPublish` | src/app/app_rtmp_conn.cpp:707-719 | on success records name, type and transaction, then sends the publish start replies; otherwise nothing changes |
| `AppRtmpConn.RtmpConn.OnConnectCmd` | src/app/app_rtmp_conn.cpp:616-639 | on success stores the connect record, adopts chunk size 4096 and sends ConnectReplies; otherwise changes and sends nothing |
| `AppRtmpConn.RtmpConn.RunCommand` | src/protocol/rtmp_invoke_handler.cpp:41-191 | running the callback of any session command other than play and publish leaves the command fields as CommandEffect says, and returns the parser's flag |
| `AppRtmpConn.RtmpConn.OnCreateStream` | src/app/app_rtmp_conn.cpp:643-660 | on success stream 1 is created and announced on stream 0 |
| `AppRtmpConn.RtmpConn.OnDeleteStream` | src/app/app_rtmp_conn.cpp:664-675 | on success back to stream 0, with the DeleteStream status on it |
| `AppRtmpConn.RtmpConn.OnGetStreamLength` | src/app/app_rtmp_conn.cpp:677-695 | on success replies with duration -1 |
| `AppRtmpConn.RtmpConn.OnPause` | src/app/app_rtmp_conn.cpp:796-806 | on success Pause.Notify or Unpause.Notify, depending on the flag |
| `AppRtmpConn.RtmpConn.OnSeek` | src/app/app_rtmp_conn.cpp:811-821 | on success Seek.Notify |
| `AppRtmpConn.RtmpConn.OnReceiveAudio` | src/app/app_rtmp_conn.cpp:826-840 | on success records the audio flag; turning it on sends the resume pair |
| `AppRtmpConn.RtmpConn.OnReceiveVideo` | src/app/app_rtmp_conn.cpp:842-856 | on success records the video flag; turning it on sends the resume pair |
| `AppRtmpConn.RtmpConn.SendMedia` | src/app/app_rtmp_conn.cpp:1056-1101 | appends exactly SendTag for the session's flags |
| `AppRtmpConn.RtmpConn.CheckSendConfig` | src/app/app_rtmp_conn.cpp:1025-1054 | the publisher's cached tag of the kind goes out once, and the flag is then set; otherwise nothing changes |
| `AppRtmpConn.RtmpConn.Destroy` | src/app/app_rtmp_conn.cpp:901-911 | frees exactly the in-packets that hold a payload, in channel order |
| `AppRtmpConn.LiveConsumer.Handler` | src/app/app_rtmp_conn.cpp:53-73 | the player's session changes exactly as Deliver says |
| `AppRtmpConn.LiveSource.Sessions` | src/app/app_rtmp_conn.cpp:80 | every player's session is in the set |
| `AppRtmpConn.LiveSource.Handler` | src/app/app_rtmp_conn.cpp:97-110 | with a publisher, every player changes as Deliver says; without one, nothing changes |
| `AppRtmpConn.LiveSource.HasPlayer` | src/app/app_rtmp_conn.cpp:770-777 | true iff the session already plays the stream |
| `AppRtmpConn.LiveSource.RemovePlayer` | src/app/app_rtmp_conn.cpp:873-882 | the players become RemoveFirst of the consumer |
| `AppRtmpConn.RemoveFirst` | src/app/app_rtmp_conn.cpp:873-882 | removes one entry when present; otherwise the length is kept |
| `AppRtmpConn.RemoveFirstAt` | src/app/app_rtmp_conn.cpp:875-881 | removing at the first match is RemoveFirst |
| `AppRtmpConn.RemoveFirstAbsent` | src/app/app_rtmp_conn.cpp:875-881 | an absent consumer leaves the list unchanged |
| `AppRtmpConn.RemoveFirstKeepsOthers` | src/app/app_rtmp_conn.cpp:873-882 | the other players remain, each as often as before |
| `AppRtmpConn.Unregister` | src/app/app_rtmp_conn.cpp:889-896 | every key of the stream goes; every other key keeps its stream |
| `AppRtmpConn.SendsTo` | src/app/app_rtmp_conn.cpp:380-402 | the sends made on one session during the drain are plausible socket sends, at most one per response |
| `AppRtmpConn.SendsToCarriesQueued` | src/app/app_rtmp_conn.cpp:380-402 | those sends carry exactly the bytes queued for that session, in queue order |
| `AppRtmpConn.DrainDeliversInOrder` | src/app/app_rtmp_conn.cpp:380-402 | the drain loses, duplicates and reorders nothing per session, whatever the socket accepts |
| `AppRtmpConn.DrainStep` | src/app/app_rtmp_conn.cpp:385-398 | one response changes only its own session's transport, by one SendStep |
| `AppRtmpConn.RtmpServer.constructor` | src/app/app_rtmp_conn.cpp:113 | empty registry, tables and queue; generators at 0 |
| `AppRtmpConn.RtmpServer.NewConn` | src/app/app_rtmp_conn.cpp:186-204 | the next nonzero handle and uuid; the uuid is registered unless already taken; a fresh session |
| `AppRtmpConn.RtmpServer.OnConnect` | src/app/app_rtmp_conn.cpp:295-306 | the session owns the socket, is CONNECTED, and is reachable by handle unless the handle was taken |
| `AppRtmpConn.RtmpServer.OnPublish` | src/app/app_rtmp_conn.cpp:700-733 | whatever r: the session publishes its key's stream (new, or existing with its players kept), and other streams keep their publisher; on success the publish replies go out |
| `AppRtmpConn.RtmpServer.OnPlay` | src/app/app_rtmp_conn.cpp:737-791 | whatever r: the stream exists and the session joins as a new player (-1 and no change if it already plays it); other streams keep their players; stream validity is kept; on success the play replies go out |
| `AppRtmpConn.RtmpServer.JoinStream` | src/app/app_rtmp_conn.cpp:760-791 | joined iff the session did not already play the stream; the stream is created with this session as publisher if missing |
| `AppRtmpConn.RtmpServer.OnMedia` | src/app/app_rtmp_conn.cpp:560-612 | caches the first tag of the kind, then every player of the stream changes as Deliver says when it has a publisher, and none otherwise |
| `AppRtmpConn.RtmpServer.OnClose` | src/app/app_rtmp_conn.cpp:869-899 | as written (needs a stream): a player leaves; a publisher with players leaves the stream publisherless; a publisher without players unregisters it |
| `AppRtmpConn.RtmpServer.SourceOf` | src/app/app_rtmp_conn.h:100 | the session's stream as a set of at most one |
| `AppRtmpConn.RtmpServer.OnCloseChecked` | src/app/app_rtmp_conn.cpp:869-899 | corrected: a session without a stream leaves the registry alone; otherwise as OnClose |
| `AppRtmpConn.RtmpServer.UnregisterSource` | src/app/app_rtmp_conn.cpp:889-896 | the registry becomes Unregister of the stream |
| `AppRtmpConn.RtmpServer.Close` | src/app/app_rtmp_conn.cpp:281-292 | leaves the registry as OnCloseChecked does (no stream: registry unchanged; player: removed from its stream's players; publisher with players: stream left publisherless; publisher without players: stream unregistered), becomes CLOSED, and is erased from both tables |
| `AppRtmpConn.RtmpServer.AddResponseData` | src/app/app_rtmp_conn.cpp:368-378 | appends the response to the queue |
| `AppRtmpConn.RtmpServer.SendResponseDataList` | src/app/app_rtmp_conn.cpp:380-402 | the queue empties, and each registered session's transport replays exactly the sends of its own responses in queue order |
| `AppRtmpConn.RtmpServer.InvokeHandler` | src/protocol/rtmp_invoke_handler.cpp:221-251 | anything other than a call returns ReturnCode and changes nothing; every call leaves the session's command fields as CommandEffect says for the parsed invocation; a command other than play or publish returns the parser's flag and leaves the registry alone; play returns -1 for a repeated join, else the flag; it registers and joins the stream as Joined says, changes no stream's publisher and no other stream's players; publish returns the flag and makes the session its key's publisher, creating the stream if needed, and changes no player list, no other stream's publisher and not the session's player entry |
| `EventDispatch.IndexOf` | src/network/event_dispatch.cpp:72-82 | finds the first timer with the key, or reports that none has it |
| `EventDispatch.Without` | src/network/event_dispatch.cpp:72-82 | reference: the timers without the key |
| `EventDispatch.Advanced` | src/network/event_dispatch.cpp:85-97 | each due timer is next due one period later; the others are untouched |
| `EventDispatch.Fired` | src/network/event_dispatch.cpp:85-97 | exactly the due timers' callbacks fire |
| `EventDispatch.UpsertKeepsUnique` | src/network/event_dispatch.cpp:48-69 | AddTimer keeps one timer per key, gives the key the new period and grows the list only for a new key |
| `EventDispatch.RemoveIsWithout` | src/network/event_dispatch.cpp:72-82 | with unique keys, RemoveTimer leaves exactly the other timers, in order |
| `EventDispatch.WithoutAbsent` | src/network/event_dispatch.cpp:72-82 | removing an absent key changes nothing |
| `EventDispatch.WithoutKeepsUnique` | src/network/event_dispatch.cpp:72-82 | removal keeps keys unique |
| `EventDispatch.AdvancedKeepsKeys` | src/network/event_dispatch.cpp:85-97 | a timer pass keeps keys and order |
| `EventDispatch.CEventDispatch.constructor` | src/network/event_dispatch.cpp:12-32 | no timers, no loops, not running, empty fd sets |
| `EventDispatch.CEventDispatch.AddTimer` | src/network/event_dispatch.cpp:48-69 | the timer list becomes Upsert; one timer per key |
| `EventDispatch.CEventDispatch.RemoveTimer` | src/network/event_dispatch.cpp:72-82 | the timer list becomes Without the key |
| `EventDispatch.CEventDispatch.CheckTimer` | src/network/event_dispatch.cpp:85-97 | the list becomes Advanced, and the Fired callbacks are called in order |
| `EventDispatch.CEventDispatch.AddLoop` | src/network/event_dispatch.cpp:100-105 | appends the loop callback |
| `EventDispatch.CEventDispatch.CheckLoop` | src/network/event_dispatch.cpp:108-114 | calls every loop callback, in order |
| `EventDispatch.CEventDispatch.StartDispatch` | src/network/event_dispatch.cpp:340-348 | enters only if not already running |
| `EventDispatch.CEventDispatch.DispatchIteration` | src/network/event_dispatch.cpp:383-384 | each iteration ends with a timer pass, then a loop pass |
| `EventDispatch.CEventDispatch.StopDispatch` | src/network/event_dispatch.cpp:389 | the dispatcher stops running |
| `EventDispatch.CEventDispatch.AddEvent` | src/network/event_dispatch.cpp:128-142 | the fd joins exactly the sets whose bit is set |
| `EventDispatch.CEventDispatch.RemoveEvent` | src/network/event_dispatch.cpp:145-159 | the fd leaves exactly the sets whose bit is set |

## Left out

- `RtmpConn::OnRead`: the socket read loop and the input buffer's `Skip` are not modelled, because they are I/O. `ServerInput` takes the bytes read as a parameter.
- The chunk reader and writer are not modelled, because their bodies are not part of this model. This covers `rtmp_chunk_read`, `rtmp_chunk_write` and `rtmp_server_send` (which writes the header and then the payload through `Send`, and returns 0). The AMF0 encoders and `amf_read_items` are not modelled either.
  - The reader is a parameter of the dispatcher.
  - The chunk reader's result is a parameter of `ServerInput`.
  - Because the encoders are missing, the message-level `outbox` is not connected to the byte-level `transport`.
- Time is not modelled: `GetTickCount` and `time(NULL)` become the tick parameter `now`. The S1/S2 timestamps are not modelled, and neither are `last_send_tick_` and `last_recv_tick_`.
- Threads and locks are not modelled: the thread pool, `s_resp_mutex` and `CAutoLock`. The queue is drained by a single caller.
- `RtmpInitListen`, `rtmp_callback`, `rtmp_conn_callback`, `rtmp_loop_callback` and the netlib calls are not modelled, because they are socket and reactor wiring. `NewConn`, `OnConnect`, `OnWrite` and `Close` model what those callbacks call, and the handle and uuid lookups are map look-ups in `RtmpServer`.
- `RtmpConn::OnClose` only calls `Close`, so `Close` models it. `rtmp_server_onabort` is not modelled, because it only logs. `rtmp_server_getstate` is not modelled, because it only returns the handshake state field.
- The epoll and kqueue back ends of `CEventDispatch` are not modelled, because they are OS event loops. The socket-event part of `StartDispatch` is not modelled either. Only the select back end's fd sets are modelled.
- `EventDispatch.CEventDispatch.CheckTimer`: callbacks that add or remove timers during the pass are not modelled, because callbacks are opaque numbers here.
- `AppRtmpConn.RtmpServer.NewConn`, `AppRtmpConn.NextId`: `recv_bytes` and the other 32-bit counters are unbounded here. Id generation writes out the 32-bit wrap. The acknowledgement counters' wrap after 4 GiB is not modelled.
- `AppRtmpConn.RtmpServer.OnMedia`: it requires the session to have a stream. `LiveSource::handler` dereferences a null `rtmp_source_` when media arrives before publish or play.
- `AppRtmpConn.RtmpConn.CheckSendConfig`, `AppRtmpConn.LiveConsumer.Handler`: they require the player's stream to have a publisher session. The source dereferences `rtmp_source_->rtmp_conn_`, and `LiveSource::handler` only calls them when it has one.
- `AppRtmpConn.LiveSource.Handler`: it requires that each player's session currently plays this stream. A session that plays a second stream stays in the first stream's player list, and its cached tags would then come from the second stream's publisher. That case is not modelled.
- `AppRtmpConn.RtmpServer.OnPlay`: it proves that only the joined stream stays valid. It does not prove validity of the stream a session left by playing another one.
- `AppRtmpConn.RtmpConn.OnConnectCmd`: the C asserts on the object encoding and on `(int)transaction == 1` become preconditions.
- `AppRtmpConn.RtmpConn.ServerInput`: the C assert that C0 is at most version 3 becomes a precondition. The C1 timestamp fields are not interpreted.
- `RTMP_SERVER_ASYNC_START` deferral is not modelled: the user handler is stubbed to return 0 in the source, so `start.play` is never 0 at the check and the deferral branch never runs.
- Tag buffers own copies of the data (`new`/`memcpy`), which are never freed. Memory management is out of scope.
- AMF string capacities are not modelled; the reader reports the decoded string. The exceptions are `stream_name` and `stream_type`, which the session itself truncates (`Truncate`).
- `RtmpConnDefs.Truncate`: it counts characters, not bytes, and text encodings are not modelled. `snprintf` counts bytes, so a name with non-ASCII characters keeps 254 bytes in the source, possibly ending inside a cut UTF-8 sequence, but 254 characters in the model. For ASCII names the two agree.
- The constructor leaves several fields uninitialised, and the model gives each a fixed value:
  - `start` and `handshake_bytes`: set to 0. Every path writes them before reading them.
  - `info`, `stream_name` and `stream_type` (app_rtmp_conn.h:113-115): set to the empty connect record and "". `info.app` is only written by a successful connect (app_rtmp_conn.cpp:621-623), but publish and play read it to form the stream key (app_rtmp_conn.cpp:703, 741). A publish or play without a successful connect first therefore reads uninitialised memory in the source; in the model its key is `"/"` followed by the stream name.
  - every field of `out_packets` except `header.cid` (app_rtmp_conn.cpp:236-241): set to zero, as `ChannelPacket` says. The chunk writer that reads them is not part of this model.
- `AppRtmpConn.Unregister`, `AppRtmpConn.RtmpServer.UnregisterSource`: the source loop at app_rtmp_conn.cpp:889-895 calls `s_lives.erase(j)` and then `++j` on the erased iterator, which is undefined behaviour. The model removes every key that maps to the stream and continues; it does not capture what the erased iterator would do.
- `AppRtmpConn.RtmpServer.OnClose`, `AppRtmpConn.RtmpServer.OnCloseChecked`, `AppRtmpConn.RtmpServer.Close`: `int rtmp_server_onclose` (app_rtmp_conn.cpp:136, 869-899) ends without a `return` statement. `Close` calls it as a statement (app_rtmp_conn.cpp:283), so no value is read, but in C++ falling off the end of a non-void function is undefined behaviour in itself. The model assumes the function completes normally after its last statement, and returns nothing.
- `RtmpInvoke.Parse`: for getStreamLength, rtmp_invoke_handler.cpp:183-188 passes `amf_read_items` a count of 3 while `items[2]` is never initialised. The model hands the reader the two initialised items, and does not capture what the reader would make of the third.

## Findings

| source | as written | input that shows it | evidently intended | confidence | as-written member | corrected member |
|---|---|---|---|---|---|---|
| src/app/app_rtmp_conn.h:103, src/app/app_rtmp_conn.cpp:186-242 | `recv_bytes[2]` is never initialised by the constructor, so the first counter holds whatever the allocator left | counters (5000001, 0) under the default window: one byte of input sends an Acknowledgement for 5000002 bytes | both counters start at 0, so no acknowledgement goes out before 5000000 bytes have arrived | medium, not executed (fresh heap memory is often zero) | `AckSpec.UninitialisedCountersAckEarly` | `AppRtmpConn.RtmpConn.constructor` (counters zero), with `AckSpec.NoAckUntilWindowExceeded` |
| src/app/app_rtmp_conn.cpp:869-899 | `rtmp_server_onclose` dereferences `rtmp_source_` without checking it on the publisher branch | a session that connects and closes before sending publish or play. `NewConn` ensures `source == null`, so it fails `OnClose`'s precondition | a session without a stream leaves the registry alone | high, not executed | `AppRtmpConn.RtmpServer.OnClose` | `AppRtmpConn.RtmpServer.OnCloseChecked`, used by `AppRtmpConn.RtmpServer.Close` |
