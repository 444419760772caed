# Verification of the Godot bridge server

A Dafny model of the logic in this repository that is hardest to get right by reading it, with proofs.
To check it: `dafny verify dfyconfig.toml`.

## What is modelled

**The connection** (`ConnectionModel`, `ConnectionInvariants`, `ConnectionSafety`, `ConnectionHistory`, `ConnectionRequests`,
`GodotConnection`).
`GodotConnection` multiplexes requests over one WebSocket: a pending map, a timer per request, a handshake on
every `open`, pings, pongs and heartbeats, typed rejection on close, and reconnection with backoff.
`ConnectionModel` gives each event handler as a function on a value that holds the fields together with the
Node process around them: a discrete clock that never passes a live timer's deadline, the live timers, every
socket ever created and every promise ever made with all the settlements attempted on it. An event carries the
identity of its socket, but the handlers act on the shared fields, as in the source. What the `open` handler does
after its `await` is an event of its own. `GodotConnection` is the object form: a class with the source's fields
whose methods are proved to move its value exactly as the model says and to keep the invariant. The theorems of
`ConnectionSafety` are about every run of events from a new client; `ConnectionHistory` reads every field off the events of a
run, and `ConnectionRequests` says what each event does to each request and when each runs out.

**WebSocket frames** (`BigEndian`, `FrameCodec`, `FrameStream`), sections 5.1 to 5.3 of RFC 6455: the encoder both
probes share, both decoders, the decoder iterated over a stream that arrives in arbitrary chunks, and the readiness
probe's session with the bytes it carries from call to call.

**CRC-32 and PNG chunks** (`Crc32`, `Png`), sections 3.1 to 3.4 and 4.1.1 of RFC 2083: the table-driven form refines
the bit-at-a-time definition, and what the writer emits is read back by a reader that checks lengths and CRCs.

**Schema flattening** (`SchemaFlatten`, `SchemaSentinels`): a union of branches published as one object. The
markers "(required for: ..)" and "(for: ..)" are structured data here, and the theorem is that no branch's required or
optional fields are lost.

**Watch windows** (`WatchFields`, `Sorting`, `Timeline`): summaries of sampled fields, the merged timeline, its cap
and its truncation flag. The sort is specified as the stable order of a total preorder, which is proved unique.

**Numeric cores**: percentiles and spikes (`Arithmetic`, `Profiler`), the log rate limiter (`RateLimiter`), the timeout
ladder and the input budget (`Timeouts`, `InputBudget`), version ordering and the installer (`Installer`).

`Options` and `Sequences` hold the shared vocabulary.

## What the proofs found

- Requests are settled exactly once, and are pending exactly while unsettled, throughout a run if and only if no code that
  should settle one throws (`AllSettleOnceIffNothingThrows`). Three places can:
  - `performHandshake` sends on `this.ws`, which need not be the socket that opened. When `connect()` overlaps an earlier
    attempt, that socket is still connecting, `send` throws, the promise is rejected, and its request stays in the map under a
    live timer: it is settled twice (`OverlappingConnectsSettleTwice`). `CalmRunsSettleOnce` gives a calling discipline that
    rules this one out.
  - `sendCommand` serialises its parameters after it has armed the timer and filled the map. A BigInt or a cycle makes
    `JSON.stringify` throw there, and the command is settled twice (`CommandSettlesOnceIffSerialises`).
  - A handshake's resolver reads fields of its result, and the response schema (`z.unknown()`) lets a null result and a
    missing one through; both are None in the model. It then throws with the request already out of the map and its timer
    gone: the handshake is never settled, and the rest of the `open` handler never runs (`NullResultLosesHandshake`,
    `LostForGood`). Nothing in the server catches that exception; the model follows the
    client for as long as the process outlives it.
  Heartbeats are affected by none of these (`RequestsSettleOnce`).
- The state label can say `connected` over a socket that is not open (`ConnectedWithoutSocket`). It is right throughout a run
  if and only if every `open` handler that goes on after its `await` finds the current socket open, and no pong timeout runs
  out on a client labelled connected (`LabelIsHonestIffNothingMisleads`).
- The reported mean can lie outside the range of the samples (`MeanLeavesRange`): exactly when the true mean reaches the
  midpoint after the last whole hundredth within the maximum, or falls short of the midpoint before the first one within the
  minimum (`MeanInRangeIff`); never, if the extremes are whole hundredths.
- `WSSession.call` reads from the socket after every frame it skips, even with the reply already in hand, so a ping and a
  reply received together end in an error when nothing more arrives (`PingHidesBufferedReply`). `CallRepliesIff` gives the exact
  condition; the iterated decoder is independent of the chunking (`ChunkIndependence`).
- `recv_frame` gives up on a frame completed by its fiftieth read (`RecvReadsIffInTime`).
- A second discriminator would be published with the first one's constants (`DiscriminatorToldIff`).
- A bare key `k` and the key `k:k` read the same on the timeline (`KeysReadTheSameIff`).
- With a median under five microseconds, reported as zero, every frame can be a spike (`EveryFrameASpike`,
  `AtMostHalfSpikeIff`).
- A discriminator named by the empty string labels nothing, as the source's test takes it for none (`DiscriminatorToldIff`).
- The rate limiter's sliding bound is 19 in any closed 5000 ms, not 20, and 19 is reached (`SlidingBound`, `BoundIsMet`).

## Model

| member | source | states |
|---|---|---|
| ConnectionInvariants.StepOk | server/src/connection/websocket.ts:218-551 | Every event handler keeps the invariant: live timers are exactly those the handles and the pending map name, a request is pending iff its own timeout is armed, each has been settled as often as its place in the map and the throws that befell it say, at most one heartbeat is out, handles and indices are in range |
| ConnectionInvariants.RunOk | server/src/connection/websocket.ts:218-551 | The invariant holds in every state any run of events can reach |
| ConnectionInvariants.MessageIsAnswer | server/src/connection/websocket.ts:426-467 | A valid, failed or malformed reply to a request in flight answers that request, except that a success with a null result loses a handshake; any other message changes nothing |
| ConnectionInvariants.ClassifyFields | server/src/connection/websocket.ts:256-305 | What a close number changes before the clean-up: only a 4001 counts as a rejection, and it sets the next delay from the count of rejections |
| ConnectionInvariants.ClosedOutcome | server/src/connection/websocket.ts:256-312 | What a close leaves: the socket closed, no pending close code, and the one reconnect it arms if the client is to reconnect |
| ConnectionSafety.RequestsSettleOnce | server/src/connection/websocket.ts:349-467 | In every run every request has a live timer iff it is in the pending map, and is settled exactly once as it leaves the map; once more if its executor threw, not at all if its resolver threw; heartbeats know neither case |
| ConnectionSafety.AllSettleOnceIffNothingThrows | server/src/connection/websocket.ts:357-424 | Exactly-once settlement of all requests of every kind holds throughout a run iff every `open` found the current socket sendable, every command's parameters serialised and no handshake in flight was answered with a null or missing result |
| ConnectionSafety.CommandSettlesOnceIffSerialises | server/src/connection/websocket.ts:357-370 | Over every continuation a command is settled once iff its parameters serialise, and otherwise ends settled twice |
| ConnectionSafety.NullResultLosesHandshake | server/src/connection/websocket.ts:391-401 | A run in which a null (or missing) result takes a handshake out of the map with its timer and leaves it unsettled |
| ConnectionSafety.LostForGood | server/src/connection/websocket.ts:453-463 | A handshake lost so is never settled and what awaits it never continues, in any continuation |
| ConnectionSafety.CalmRunsSettleOnce | server/src/connection/websocket.ts:218-240 | If `connect()` is only called with every earlier socket closed and no reconnect armed, there is one live socket at most and every handshake's send lands, so all requests are settled once iff no unserialisable parameters and no null handshake result come in |
| ConnectionSafety.OverlappingConnects | server/src/connection/websocket.ts:228-234 | Two overlapping `connect()` calls: the handshake's send throws, its promise is rejected and its request stays pending under a live timer |
| ConnectionSafety.OverlappingConnectsSettleTwice | server/src/connection/websocket.ts:378-389 | That handshake is settled a second time when its timeout fires |
| ConnectionSafety.ReplyTouchesOnlyItsOwn | server/src/connection/websocket.ts:440-467 | A reply removes exactly the request it names, disarms its timer and settles it, or loses it if it is a handshake's null result; every other request, its entry and its timer are unchanged |
| ConnectionSafety.CloseRejectsAllInFlight | server/src/connection/websocket.ts:256-308 | A close rejects every request in flight with the typed code of its close number and leaves settled promises alone |
| ConnectionSafety.DisconnectRejectsAllInFlight | server/src/connection/websocket.ts:329-339 | `disconnect()` rejects every request in flight with the client's own code and leaves no timer at all |
| ConnectionSafety.DisconnectStaysDown | server/src/connection/websocket.ts:307-339 | After `disconnect()` and until the next `connect()`, in every continuation, late opens and closes of old sockets included: still closing, no socket created or current, no reconnect armed |
| ConnectionSafety.SettledForGood | server/src/connection/websocket.ts:357-371 | A promise that has left the pending map is never called again, over any continuation of the run |
| ConnectionSafety.EveryRequestSettlesInTime | server/src/connection/websocket.ts:357-389 | In every run a request of any kind whose deadline has passed has left the map and is settled, never after its deadline, unless its resolver threw |
| ConnectionSafety.DerivedRequestSettlesInTime | server/src/connection/websocket.ts:357-371 | A request sent with a derived timeout is settled by sending time plus serverMs, at most 60000 ms, and times out at that instant or not at all |
| ConnectionSafety.PromptReplyNeverTimesOut | server/src/connection/timeouts.ts:83-101 | If its reply is handled before relayMs plus the server margin have passed, a request never ends in a timeout, whatever happens later |
| ConnectionSafety.NeverLatchedDead | server/src/connection/websocket.ts:307-311 | With autoReconnect, after the first `connect()` and unless closing, some socket's close is still to come or a reconnect is armed within 30 seconds |
| ConnectionSafety.TimersNeverDouble | server/src/connection/websocket.ts:469-506 | Over all runs at most one ping interval, one pong timer, one reconnect timer, each the one its handle holds, and at most one outstanding heartbeat |
| ConnectionSafety.RunRejections | server/src/connection/websocket.ts:260-267 | The rejection counter of any reachable state is the number of 4001 closes in the run |
| ConnectionSafety.NthRejectionBacksOff | server/src/connection/websocket.ts:260-267 | The n-th 4001 close arms one reconnect, the only timer left, with delay RECONNECT_DELAYS[min(n-1, 5)], whatever happened before |
| ConnectionSafety.RejectionDelaysNeverDecrease | server/src/connection/websocket.ts:508-516 | Over a run the delays that answer rejections never decrease, although each `open` resets the attempt counter |
| ConnectionSafety.LabelIsHonestIffNothingMisleads | server/src/connection/websocket.ts:236-258 | Over every run the label says `connected` over an open socket only, throughout, iff no `open` handler went on after its `await` without the current socket open and no pong timeout (474-477) ran out on a client labelled connected |
| ConnectionSafety.ConnectedWithoutSocket | server/src/connection/websocket.ts:240-246 | A run that ends labelled `connected` with no open socket |
| ConnectionHistory.StepColumns | server/src/connection/websocket.ts:218-551 | Field by field, what each event writes: sockets and the current one, closing flag, label, reason, attempts counter, handshake result, and nothing else writes them |
| ConnectionHistory.ClosingIffTold | server/src/connection/websocket.ts:223-339 | In every run the client is closing iff a `disconnect()` came after its last dial; it made one socket per dial, and the current one is the last, or none after a `disconnect()` |
| ConnectionHistory.AttemptsAreCounted | server/src/connection/websocket.ts:229-267 | In every run the attempts counter is what the events say: zero after an `open`, the rejections up to five after a 4001, one more per close that reconnects |
| ConnectionHistory.CloseBacksOff | server/src/connection/websocket.ts:307-530 | Any close of a reconnecting client not told to close leaves one timer, a reconnect after 1, 2, 4, 8, 16 or 30 seconds by the attempts counted; any other close leaves none |
| ConnectionHistory.LabelAndReasonAre | server/src/connection/websocket.ts:224-338 | In every run the label and the disconnect reason are the ones the events give, the label whatever the socket did since |
| ConnectionHistory.SocketsAre | server/src/connection/websocket.ts:329-339 | In every run a socket's state is what its own events give; the client closes its current one on `disconnect()` and on an unanswered ping, and no other |
| ConnectionHistory.GreetingIs | server/src/connection/websocket.ts:380-412 | In every run the handshake result is that of the last handshake answered or timed out, and none after a close or a `disconnect()` |
| ConnectionRequests.EventsMoveRequests | server/src/connection/websocket.ts:218-551 | What every event does to every request there is: which it takes out of the map, with which outcome, whether its continuation is queued, and that all others stay as they are |
| ConnectionRequests.EventsIssueRequests | server/src/connection/websocket.ts:344-424 | Which event issues which request, with the caller's timeout or the quick default (5 seconds for a handshake), and when it is rejected on the spot |
| ConnectionRequests.RequestsRunOutWhenDue | server/src/connection/websocket.ts:354-389 | In every continuation a request is pending under a timer for exactly its own deadline, the quick default for a command without a timeout and for a heartbeat, and times out then or not at all |
| ConnectionRequests.CommandsNeedASocket | server/src/connection/websocket.ts:349-352 | A command without an open socket is refused and changes nothing |
| ConnectionRequests.EarlierReplyWins | server/src/connection/websocket.ts:453-463 | A reply to a command or a heartbeat handled before its deadline, default or explicit, settles it for good |
| ConnectionRequests.ContinuationsRunOnce | server/src/connection/websocket.ts:235-246 | In every run what awaits a request is queued from its first settlement until it runs, and runs once at most |
| ConnectionRequests.OpenStartsPings | server/src/connection/websocket.ts:228-230 | An `open` leaves one ping due in 30 seconds and no pong awaited |
| ConnectionRequests.TickPings | server/src/connection/websocket.ts:471-480 | A tick is followed by the next in 30 seconds; over an open socket its pong is awaited for 10 seconds, over none nothing happens |
| ConnectionRequests.PongDisarms | server/src/connection/websocket.ts:252-254 | A pong ends the wait and changes nothing else |
| ConnectionRequests.UnansweredPingTerminates | server/src/connection/websocket.ts:474-478 | A ping nobody answers terminates its socket 10 seconds after the tick and not before, in every continuation that nothing else ends |
| GodotConnectionClass.GodotConnection.constructor | server/src/connection/websocket.ts:78-104 | A new client is the initial state of the model |
| GodotConnectionClass.GodotConnection.Connect | server/src/connection/websocket.ts:218-227 | Moves the client exactly as the model's `connect` event, keeping the invariant |
| GodotConnectionClass.GodotConnection.OnSocketOpen | server/src/connection/websocket.ts:228-240 | The `open` handler up to its `await`, on whichever socket opened |
| GodotConnectionClass.GodotConnection.OnReactionJob | server/src/connection/websocket.ts:240-246 | The rest of the `open` handler, and the heartbeat's `finally`, as steps of their own |
| GodotConnectionClass.GodotConnection.OnSocketMessage | server/src/connection/websocket.ts:426-467 | The message handler in all its cases: not JSON, malformed with or without a matching request, success with any result or none, error, nobody waiting |
| GodotConnectionClass.GodotConnection.OnSocketPong | server/src/connection/websocket.ts:252-254 | A pong disarms the pong timer held |
| GodotConnectionClass.GodotConnection.OnSocketClose | server/src/connection/websocket.ts:256-312 | The close handler: classification, clean-up, reconnect |
| GodotConnectionClass.GodotConnection.OnSocketError | server/src/connection/websocket.ts:314-325 | The error handler changes the reason and nothing else |
| GodotConnectionClass.GodotConnection.Disconnect | server/src/connection/websocket.ts:329-339 | `disconnect()`, clean-up before closing the socket |
| GodotConnectionClass.GodotConnection.SendCommand | server/src/connection/websocket.ts:344-371 | `sendCommand`: refused without an open socket, otherwise a fresh pending request with its timer, rejected on the spot but still pending if its parameters do not serialise |
| GodotConnectionClass.GodotConnection.DoHandshake | server/src/connection/websocket.ts:373-424 | `performHandshake`, including the send that throws |
| GodotConnectionClass.GodotConnection.CleanUp | server/src/connection/websocket.ts:532-551 | Clean-up rejects all with one code and disarms ping, pong and reconnect |
| GodotConnectionClass.GodotConnection.ArmReconnect | server/src/connection/websocket.ts:508-530 | `scheduleReconnect`: nothing if one is armed, otherwise the delay of the attempt, clamped to the ladder |
| GodotConnectionClass.GodotConnection.StartPingInterval | server/src/connection/websocket.ts:469-471 | Restarting the pings clears the interval and pong timer held before |
| GodotConnectionClass.GodotConnection.OnTimer | server/src/connection/websocket.ts:469-530 | A timer's turn: request timeout, ping tick, pong timeout or reconnect, an interval re-arming itself |
| Timeouts.DeriveTimeouts | server/src/connection/timeouts.ts:92-101 | For any number the ladder clampedBudget < bridgeWall < relay < server <= 60000 holds, the margins being 5, 2 (12 with the ready wait) and 2 seconds; a budget survives the clamp exactly when it is at most the maximum, and one that is negative or no finite number counts as zero |
| Timeouts.PublishedCapsAreNeverClamped | server/src/connection/timeouts.ts:103-110 | A budget within its published cap is never clamped |
| BigEndian.BERoundTrip | launch/mcp_ready_probe.py:201-204 | A number written big-endian reads back |
| BigEndian.FirstByteWeighsMost | launch/mcp_ready_probe.py:223-234 | The first byte is the most significant |
| FrameCodec.SendTextFrame | launch/mcp_ready_probe.py:193-207 | The byte-by-byte encoder sends exactly the masked text frame of section 5.2 of RFC 6455 |
| FrameCodec.TextFrameLayout | launch/mcp_ready_probe.py:193-207 | The frame byte by byte: final and text, masked, the shortest length form big-endian, the mask, each payload byte under its mask byte |
| FrameCodec.LengthFieldReads | launch/mcp_ready_probe.py:223-234 | Each of the three length forms reads back to the length written |
| FrameCodec.TextRoundTrip | launch/tests/e2e/_see1009_addon_version_probe.py:72-101 | Decoding a masked text frame gives opcode 1, the payload and exactly the bytes after it, for every payload under 2^64 bytes, mask and continuation |
| FrameCodec.ServerRoundTrip | launch/mcp_ready_probe.py:210-242 | A server frame is decoded to its opcode, payload and close code, leaving exactly what follows |
| FrameCodec.CloseCodeRoundTrip | launch/mcp_ready_probe.py:239-241 | Whatever code below 65536 a server closes with, with any reason and anything after it, the decoder reads that code |
| FrameCodec.EncodingIsMinimal | launch/tests/e2e/_see1009_addon_version_probe.py:55-69 | No decodable masked frame with the same payload is shorter than the encoder's |
| FrameCodec.DecodersAgree | launch/mcp_ready_probe.py:210-242 | On every unmasked input, incomplete extended headers included, the two decoders give the same result; on a masked one the first refuses |
| FrameCodec.ParseExtends | launch/mcp_ready_probe.py:210-242 | More input extends only the remainder of a decoded frame, and an incomplete frame is returned unchanged |
| FrameCodec.ParseOwnBytes | launch/mcp_ready_probe.py:235-242 | A decoded frame and its remainder make up the input, and the frame's own bytes decode to it alone |
| FrameCodec.PrefixWaits | launch/mcp_ready_probe.py:217-236 | Every proper prefix of a frame gives (None, data) |
| FrameStream.ChunkIndependence | launch/mcp_ready_probe.py:210-242 | The iterated decoder gives the same frames, refusal and leftover for every split into chunks |
| FrameStream.DrainSplitsInput | launch/mcp_ready_probe.py:237-242 | The leftover is a suffix of the input and the bytes before it give the same frames with nothing over |
| FrameStream.StreamRoundTrip | launch/mcp_ready_probe.py:210-242 | Any sequence of server frames comes out as sent, in every chunking |
| FrameStream.CallIsSound | launch/mcp_ready_probe.py:156-184 | In every chunking a reply is the first reply of the stream and nothing after it is lost; an exception is one the stream calls for, or time or input ran out |
| FrameStream.CallRepliesIff | launch/mcp_ready_probe.py:156-184 | A call replies iff within its patience every skipped frame before the reply can have a read to itself |
| FrameStream.CallAnswersFirstFrame | launch/mcp_ready_probe.py:158-170 | A text frame at the front of the stream is the reply, a continuation and a close are failures, the close with its code, in every chunking there is time to read |
| FrameStream.CallReportsCloseCode | launch/mcp_ready_probe.py:163-166 | A server that closes with a code is reported with that code |
| FrameStream.CallSkipsOthers | launch/mcp_ready_probe.py:177-184 | Any other opcode is dropped and costs a read |
| FrameStream.CallGivesUpFor | launch/mcp_ready_probe.py:178-183 | A call that gives up names the right reason: its reads or its input used up |
| FrameStream.CallIsCompleteWithoutSkips | launch/mcp_ready_probe.py:156-184 | With no frame to skip the outcome is that of the whole stream, in every chunking |
| FrameStream.BufferedReplyNeedsFirstPlace | launch/mcp_ready_probe.py:158-181 | With nothing left to read, a call replies iff the first frame in hand is the reply |
| FrameStream.PingHidesBufferedReply | launch/mcp_ready_probe.py:178-183 | A ping and a reply received together end in an error |
| FrameStream.SeparatorStays | launch/mcp_ready_probe.py:122-131 | The first blank line found is the first blank line of the whole stream |
| FrameStream.FindSeparator | launch/mcp_ready_probe.py:123-131 | Finds the first blank line, or there is none |
| FrameStream.UpgradesIff | launch/mcp_ready_probe.py:122-135 | The upgrade succeeds iff some read completes an acceptable header, no read before it being empty or passing 16384 bytes |
| FrameStream.WSSession.Handshake | launch/mcp_ready_probe.py:109-141 | The upgrade succeeds iff the first blank line comes in time and the header is acceptable, and the bytes after it are carried over, none lost |
| FrameStream.WSSession.Receive | launch/mcp_ready_probe.py:156-184 | The receive loop is `Call`, and a failed call leaves the carried-over bytes as they were |
| FrameStream.WSSession.ReceiveAll | launch/mcp_ready_probe.py:143-184 | Pipelined replies come out one per call, in order, however their bytes were cut up |
| FrameStream.RecvFrame | launch/tests/e2e/_see1009_addon_version_probe.py:72-108 | The read loop of the second probe, with its limit of fifty reads |
| FrameStream.ReceivedExtends | launch/tests/e2e/_see1009_addon_version_probe.py:76-101 | Masked or not, a frame found is not changed by more input |
| FrameStream.RecvIsSound | launch/tests/e2e/_see1009_addon_version_probe.py:72-108 | The frame read is the first of the stream, with nothing lost |
| FrameStream.RecvReadsIffInTime | launch/tests/e2e/_see1009_addon_version_probe.py:102-108 | A frame is read iff it is complete after fewer than fifty reads |
| FrameStream.RecvGivesUpFor | launch/tests/e2e/_see1009_addon_version_probe.py:102-108 | The loop that gives up names the right reason: fifty reads used up, or the stream ended |
| Crc32.ShiftLinear | server/features/steps/support/proxy_driver.ts:339 | One step of the shift register is linear over GF(2) |
| Crc32.TableStep | server/features/steps/support/proxy_driver.ts:347 | One table look-up is eight bit-steps of the register, for every register and byte |
| Crc32.BuildCrcTable | server/features/steps/support/proxy_driver.ts:335-343 | The table's nested loops compute eight steps of every byte value |
| Crc32.Checksum.Crc32 | server/features/steps/support/proxy_driver.ts:344-349 | The table-driven checksum equals the bit-at-a-time CRC of section 3.4 of RFC 2083 on every byte string, building its table at most once |
| Crc32.OneByteChangeIsCaught | server/features/steps/support/proxy_driver.ts:344-349 | Changing any one byte of a message changes its CRC |
| Crc32.IendChecksum | server/features/steps/support/proxy_driver.ts:344-352 | The checksum of the letters IEND is the published one |
| Png.FillRaw | server/features/steps/support/proxy_driver.ts:368-374 | The pixel loops fill exactly the rows of the picture, filter byte first |
| Png.WriteChunk | server/features/steps/support/proxy_driver.ts:350-357 | Length, type, data and the CRC of type and data, or the exception when the length does not fit |
| Png.MakePng | server/features/steps/support/proxy_driver.ts:358-381 | Signature, IHDR, IDAT and IEND, or the exception of a size that does not fit 32 bits |
| Png.PngRoundTrip | server/features/steps/support/proxy_driver.ts:358-381 | A reader that checks lengths and CRCs gets exactly the three chunks back |
| Png.ChunkRoundTrip | server/features/steps/support/proxy_driver.ts:350-357 | A chunk followed by anything is read back, leaving exactly what follows |
| Png.SizeAtFixedOffsets | server/features/steps/support/proxy_driver.ts:359-367 | The signature, the IHDR chunk's length and type, width and height big-endian at offsets 16 and 20 for all 32-bit values, and the five format bytes |
| Png.CorruptedChunkIsRefused | server/features/steps/support/proxy_driver.ts:353-356 | A chunk with one byte of its data changed is refused |
| Png.DecoderSeesPicture | server/features/steps/support/proxy_driver.ts:358-384 | From the file's bytes alone: a decoder that undoes the deflation finds, with the depth and colour type it reads, exactly the rows they call for, unfiltered, each sample in place, and compression, filter and interlace zero |
| Png.EndsWithIend | server/features/steps/support/proxy_driver.ts:353-383 | Every file ends with the twelve bytes of the empty IEND chunk |
| SchemaFlatten.FlattenUnionToObject | server/src/core/schema.ts:17-133 | The loops over the appearance map publish, for each property of any branch, the merge of all its appearances, and the keys every branch requires |
| SchemaFlatten.GatherBranch | server/src/core/schema.ts:53-62 | One branch adds one appearance to each of its properties' lists and touches no other |
| SchemaFlatten.MarkersSpeakPerLabel | server/src/core/schema.ts:103-120 | For any union a label is told to require a field iff some branch with that label requires it, and to accept it iff none requires and some has it |
| SchemaFlatten.FlatteningIsLossless | server/src/core/schema.ts:103-120 | From `required` and the markers alone a branch's required and optional fields are recovered exactly iff no branch with the same label has more to say, so always with distinct labels; the keys are the union over branches |
| SchemaFlatten.MarkerTells | server/src/core/schema.ts:101-120 | What a property's marker says to a label is what the branches with that label say of the property |
| SchemaFlatten.WordingIsKept | server/src/core/schema.ts:86-99 | Every branch's description is the shared text or stands under its label |
| SchemaFlatten.DiscriminatorsArePublished | server/src/core/schema.ts:68-79 | In the published object each discriminator has one label and one text per branch: the branch's first constant and its own description of the discriminator |
| SchemaFlatten.WordingIsPublished | server/src/core/schema.ts:86-99 | The published text of an ordinary field: empty, the one wording all describing branches share, or every wording under its label in branch order |
| SchemaFlatten.MarkerKindIs | server/src/core/schema.ts:101-120 | Which marker a field gets, from which branches have and require it |
| SchemaFlatten.LastBranchWins | server/src/core/schema.ts:81-84 | An ordinary field is published with the structure of the last branch that has it |
| SchemaFlatten.UnlabelledBranchesAreNumbered | server/src/core/schema.ts:45-47 | Without a discriminator the markers tell each branch's required and optional fields under its number, from 1 |
| SchemaFlatten.DiscriminatorToldIff | server/src/core/schema.ts:42-79 | The constants published for a discriminator are its own iff the first discriminator's name is not empty and it agrees with the first in every branch |
| SchemaFlatten.SecondDiscriminatorIsMistold | server/src/core/schema.ts:76 | A branch with two discriminators where the second is published with the first one's constant |
| SchemaFlatten.ValidActionsAre | server/src/core/schema.ts:171-177 | For any union `validActions` lists the labels in order if `action` is a discriminator, the enumeration of its last appearance if it is an ordinary field, and nothing otherwise |
| SchemaFlatten.ValidActionsAreConstants | server/src/core/schema.ts:171-177 | If `action` discriminates first, the actions listed are the branches' own constants |
| SchemaFlatten.RequirementsMatchMarkers | server/src/core/schema.ts:181-204 | For any union `branchRequirements` answers iff the action is a string constant of a branch; it names the first such branch's fields but `action`, and these are what the published markers tell that branch's label iff no branch of that label has more to say; the label is the action if `action` discriminates first |
| SchemaSentinels.StripRemovesExactlySentinels | server/src/core/schema.ts:138-150 | At every path a safe-integer sentinel is gone and everything else is still there |
| WatchFields.SummarizeStringField | server/src/tools/runtime-state.ts:116-134 | The loop computes the list of differences between neighbours |
| WatchFields.ChangesRebuildSamples | server/src/tools/runtime-state.ts:116-134 | At every instant that has the differences up to a sample behind it and the later ones ahead, start and changes give back what that sample recorded; with a clock that never runs backwards, at every instant from a sample up to the next |
| WatchFields.ChangesAreChained | server/src/tools/runtime-state.ts:124-133 | First `from` is start, each `to` the next `from`, last `to` is end, and no change is idle |
| WatchFields.ChangesAreTheDifferences | server/src/tools/runtime-state.ts:125-131 | Whatever the times, the changes are, in sample order, exactly those of the samples that differ from the one before, each with its own time and both values |
| WatchFields.ChangesAreInOrder | server/src/tools/runtime-state.ts:125-131 | The changes are in time order if the samples are, equal times allowed |
| WatchFields.SummarizeNumericField | server/src/tools/runtime-state.ts:86-114 | The numeric summary, its events by the loop over neighbours |
| WatchFields.NumericSummaryIs | server/src/tools/runtime-state.ts:92-113 | From the samples alone: `start` and `end` are the first and last values, `min` and `max` are attained and bound all, `mean` and `slope` are within rounding of the true ones, `slope` with the sign of the change |
| Arithmetic.SumConcat | server/src/tools/runtime-state.ts:98 | The sum under the mean adds over parts |
| Arithmetic.SumOfOne | server/src/tools/runtime-state.ts:98 | The sum of one number is that number, of none zero |
| WatchFields.EventsAreTheCrossings | server/src/tools/runtime-state.ts:101-111 | The events are, in order, exactly the samples at which the value leaves zero or jumps across it, each with its time and both values, `ZeroCross` iff the earlier value is zero |
| WatchFields.NoEventsIffSettles | server/src/tools/runtime-state.ts:101-111 | No events iff the samples are a run of one nonzero sign followed by zeros |
| WatchFields.EventsRebuildSigns | server/src/tools/runtime-state.ts:101-111 | First sample and events give back the sign of every nonzero sample, at every instant that has the events up to it behind and the later ones ahead; with a clock that never runs backwards, at every instant from that sample up to the next |
| WatchFields.OddEventsIffSignFlips | server/src/tools/runtime-state.ts:101-111 | Without zero samples, start and end differ in sign iff the events are odd in number |
| WatchFields.MeanNearRange | server/src/tools/runtime-state.ts:98 | The rounded mean is within 0.005 of the range of the samples |
| WatchFields.MeanInRangeIff | server/src/tools/runtime-state.ts:96-98 | The reported mean is at most the maximum iff the true mean is below the last hundredth within the maximum plus 0.005, and at least the minimum iff the true mean is not below the first hundredth within the minimum less 0.005; so always when the extremes are whole hundredths |
| WatchFields.MeanLeavesRange | server/src/tools/runtime-state.ts:98 | One sample whose mean is reported above its maximum, by exactly that much |
| Sorting.OrderIsStable | server/src/tools/runtime-state.ts:203-210 | The sort used as specification orders indices stably, for any total preorder |
| Sorting.StableOrderIsUnique | server/src/tools/runtime-state.ts:203-210 | There is one stable order of a sequence |
| Sorting.SortedIffInLine | server/src/tools/runtime-state.ts:203-210 | The sort leaves a list alone iff it is in order already |
| Sorting.SortCommutesWithFilter | server/src/tools/runtime-state.ts:203-210 | A part of the sorted list is that part of the input, sorted |
| Sorting.SortKeepsOrderedPart | server/src/tools/runtime-state.ts:203-206 | Any part of the input already in order comes out as it was |
| Timeline.SummarizeWatchRaw | server/src/tools/runtime-state.ts:136-149 | One summary per field that was sampled at all, with its saturation mark |
| Timeline.FieldsAreThoseSampled | server/src/tools/runtime-state.ts:136-149 | The summaries are, in order, those of exactly the fields with samples, each with its own key, samples and mark |
| Timeline.KeysReadTheSameIff | server/src/tools/runtime-state.ts:188-192 | Two keys split to the same source and field iff they are equal or one is a bare word and the other that word twice |
| Timeline.ColonKeysAreApart | server/src/tools/runtime-state.ts:188-192 | Distinct keys with a colon in each, as the sender writes them, never read the same |
| Timeline.EntriesSayWhere | server/src/tools/runtime-state.ts:188-201 | An entry names what stands before and after the key's last colon, and a change of `anim` is an animation transition |
| Timeline.BuildTimeline | server/src/tools/runtime-state.ts:172-213 | The loops gather all signals and all changes, sorted |
| Timeline.TimelineIsTheOnlyMerge | server/src/tools/runtime-state.ts:207-210 | The timeline is a permutation of all signals and changes, ordered by time and kind, and any stable arrangement of them equals it |
| Timeline.SameMillisecondKeepsOrder | server/src/tools/runtime-state.ts:203-206 | Entries of one kind and millisecond keep their order; signals keep emission order |
| Timeline.CapKeepsTheEarliest | server/src/tools/runtime-state.ts:219-221 | The cap keeps a prefix whose keys are no greater than any dropped key, and is flagged |
| Timeline.SummarizeWatchResponse | server/src/tools/runtime-state.ts:215-241 | The response: field summaries, capped timeline, flag |
| Timeline.ResponseSummarizesFields | server/src/tools/runtime-state.ts:215-230 | The response carries the summary of every field that was sampled, in entry order |
| Timeline.FlaggedIff | server/src/tools/runtime-state.ts:222-236 | The flag is set iff signals were dropped upstream, or signals and changes exceed the cap, or a sampled string field saturated; a saturated numeric field does not matter |
| Timeline.UnflaggedResponseIsComplete | server/src/tools/runtime-state.ts:215-241 | Unflagged, the timeline is every signal and every change, and the signals read back as sent iff they were buffered in time order |
| Timeline.UnflaggedTimelineHoldsEveryChange | server/src/tools/runtime-state.ts:215-241 | Unflagged, the timeline's entries about a string field are that field's changes, in order, iff no field whose key reads the same has changes and the changes are in time order |
| Timeline.MergeKeepsSignals | server/src/tools/runtime-state.ts:178-186 | Signal events come back off the merge exactly as sent, arguments included, iff they were buffered in time order |
| Timeline.UnflaggedResponseRebuildsWindow | server/src/tools/runtime-state.ts:215-241 | Unflagged, start value and shared timeline tell what a string field's last sample had recorded, for every field whose part of the timeline is its own changes (the condition of `UnflaggedTimelineHoldsEveryChange`), at every instant that splits its differences |
| Profiler.PercentileIsMonotone | server/src/tools/profiler.ts:69-75 | Interpolated percentiles are monotone in p and stay in range |
| Profiler.PercentileInterpolates | server/src/tools/profiler.ts:69-75 | Between two neighbours a percentile is their mean weighted by its place |
| Profiler.PercentileOfOne | server/src/tools/profiler.ts:69-75 | Every percentile of a single time is that time |
| Profiler.StatsAreTheirNames | server/src/tools/profiler.ts:59-66 | Each statistic is, to the hundredth of a millisecond, the average or the percentile it is named for |
| Profiler.PercentileSplits | server/src/tools/profiler.ts:69-75 | No more than its share of the samples lies over a percentile, and no less over anything smaller |
| Profiler.StatsAreOrdered | server/src/tools/profiler.ts:51-67 | After rounding, min <= p50 <= p95 <= p99 <= max and min <= avg <= max; min and max belong to frames and bound all |
| Profiler.StatsIgnoreOrder | server/src/tools/profiler.ts:51-67 | The statistics do not depend on the order of the input |
| Profiler.DetectSpikes | server/src/tools/profiler.ts:83-101 | The spikes are the frames over twice the median, in order, each with its own time and monitors |
| Profiler.SpikesAreTheSlowFrames | server/src/tools/profiler.ts:87-98 | The spikes are, in order, exactly the frames over the threshold, each with its index, its time and its monitors |
| Profiler.HalfOverIff | server/src/tools/profiler.ts:83-90 | At most half of the samples exceed a threshold iff the lower median does not |
| Profiler.AtMostHalfSpikeIff | server/src/tools/profiler.ts:220-224 | At most half of the frames are spikes iff the true median is at least five microseconds, that is, the reported one is positive, or at most half of the frames took any time |
| Profiler.SpikesAreTheMinority | server/src/tools/profiler.ts:220-224 | With a median of at least five microseconds at most half of the frames are spikes |
| Profiler.EveryFrameASpike | server/src/tools/profiler.ts:47-49 | Frames whose reported median rounds to zero, all of them spikes |
| RateLimiter.Logger.ShouldRateLimit | server/src/utils/logger.ts:26-35 | One call updates one key's window and says whether the message is dropped |
| RateLimiter.KeysAreIndependent | server/src/utils/logger.ts:15-35 | What a key lets through depends on its own calls only |
| RateLimiter.EachWindowPassesTen | server/src/utils/logger.ts:26-35 | Each window passes at most ten, and exactly as many as were sent if fewer |
| RateLimiter.SlidingBound | server/src/utils/logger.ts:26-35 | No closed interval of 5000 ms passes more than 19 messages of one key, over any run with a nondecreasing clock |
| RateLimiter.BoundIsMet | server/src/utils/logger.ts:26-35 | A run that passes 19 |
| RateLimiter.DroppedOnlyWhenBusy | server/src/utils/logger.ts:26-35 | A message is dropped only if ten of its key passed within the last 5000 ms |
| InputBudget.CompileInputEntries | server/src/tools/input.ts:201-213 | The loop expands sticks and passes everything else through |
| InputBudget.EntriesKeepTheirPlace | server/src/tools/input.ts:201-213 | Each entry occupies exactly its own stretch of the wire, in input order |
| InputBudget.WireEntriesStemFromInputs | server/src/tools/input.ts:204-210 | No stick is left on the wire; each wire event is its entry unchanged, or the stick's x axis followed by its y axis, with the entry's timing and device |
| InputBudget.SequenceSendsEverything | server/src/tools/input.ts:404-450 | An accepted call sends every entry in its own stretch of the wire and the capture offsets as given; a refused one reports its span |
| InputBudget.AcceptedIff | server/src/tools/input.ts:410-419 | A sequence is accepted iff every end and every capture offset is within 40 seconds |
| InputBudget.AcceptedCallsFit | server/src/tools/input.ts:404-450 | Every wire event's end and capture offset is within the clamped budget, the clamp does not bite, and clampedBudget < bridgeWall < relay < server <= 60000 with the ready-wait included |
| InputBudget.BudgetIsReached | server/src/tools/input.ts:410-412 | The budget is some wire event's end, a capture offset, or zero |
| InputBudget.TextAcceptedIff | server/src/tools/input.ts:530-545 | A text is accepted iff typing it takes at most 40 seconds, 50 ms a keystroke by default, and is sent as given |
| InputBudget.AcceptedTextsFit | server/src/tools/input.ts:526-545 | Every keystroke of an accepted text, with its delay, ends before the relay deadline, which precedes the server's, at most 60000 |
| Installer.CompareVersions | server/src/installer/install.ts:17-27 | The loop with its early returns is the comparison from the first part on |
| Installer.EqualIff | server/src/installer/install.ts:20-26 | Versions compare equal iff no part differs, missing and non-numeric parts being zero |
| Installer.LargerPartWins | server/src/installer/install.ts:20-25 | The first parts that differ decide, the larger being the newer; a part that is no number stands for zero |
| Installer.NoNumberIsZero | server/src/installer/install.ts:18-22 | A part that is no number compares as zero |
| Installer.Antisymmetric | server/src/installer/install.ts:17-27 | Swapping the versions flips the sign |
| Installer.Transitive | server/src/installer/install.ts:17-27 | The order is transitive, strictly so if either step is strict |
| Installer.TrailingZerosDoNotMatter | server/src/installer/install.ts:20-22 | Trailing zero parts change no comparison |
| Installer.Project.InstallAddon | server/src/installer/install.ts:30-131 | The install steps in place: every refusal, skip, replacement and report |
| Installer.ReportsAreTrue | server/src/installer/install.ts:70-130 | The version reported is the one installed; a skip or failure changes no file; a replacement leaves the bundle and nothing else |
| Installer.ReportIs | server/src/installer/install.ts:70-130 | Which report comes, from the two versions and `force`: skipped, updated, downgraded, installed or the first failure |
| Installer.DiskIs | server/src/installer/install.ts:79-115 | File by file what is on disk afterwards |
| Installer.OnlyForceGoesDown | server/src/installer/install.ts:79-99 | Without force the installed version never goes down; with it the bundle's version ends up installed |
| Installer.SecondInstallIsSkipped | server/src/installer/install.ts:91-98 | Installing the same bundle again changes nothing, even with force |
| Installer.RunsKeepTheMaximum | server/src/installer/install.ts:70-124 | Any run of unforced installs over any addon leaves a version that was seen and that none seen exceeds |

## Left out

- UnflaggedResponseRebuildsWindow: for a field whose changes are in time order and have no twin mixed in, which is exactly when the timeline holds them (`UnflaggedTimelineHoldsEveryChange`); keys with a colon have no twins (`ColonKeysAreApart`).
- Events for listeners (`connected`, `error`, `version_mismatch`, ..), what a listener might do by calling back in, and a listener that throws; an `error` listener is taken to be attached, as `initializeConnection` does, since emitting without one throws.
- The promise `connect()` itself returns, `lastErrorMessage`, version getters, and the diagnostics text.
- A `new WebSocket` that throws on a malformed URL; request ids are fresh names instead of UUIDs.
- `this.ws.ping()` and `terminate()` have no outcome beyond a pong that may come and a close still to come.
- JSON parsing, the reply-id check of `WSSession.call`, SHA-1 and base64 in the upgrade: an abstract test of the header.
- The deadline of `WSSession.call` is a number of reads left, not a clock.
- The bodies of `send_text` and `_send_text_frame` are the same; `SendTextFrame` models both, with the mask as a parameter.
- The version probe's own upgrade loop, which has no size limit.
- `deflate` is an arbitrary function on the rows; buffer allocation limits are not modelled.
- Marker and summary texts are data, not strings, so labels that contain a comma stay apart; the order of published properties and integer-like keys first are not modelled.
- `stripSafeIntSentinels` deletes in place; it is modelled on values, so sharing between nodes is not captured.
- `toInputSchema`, its errors, and the text of `describeValidationError`.
- Fields whose samples mix numbers and strings; sample times and values as floats (integers and reals here).
- `sample_count`, `events_dropped` and the per-signal counts, which the watch response passes through.
- Floating-point rounding in all statistics: reals throughout.
- Monitor trends, frame budget, target frame rate and the cap of twenty reported spikes.
- Which log levels print: the rate limiter decides only whether a message gets that far.
- The schema limits of input values, `report`, captions, skew warnings and the result text of the input tool.
- The regular expression that finds a plugin's version and `Number` on each part are abstract; a file is its text and the version read from it.
- Exceptions of the file system during an install.
- Tool wrappers, gateway resolution, documentation generation and the launch control plane: no state or no hard property.
