# Verification of the ITG ingest and signalling services

A Dafny model of the parts of ITG that run concurrently or parse what strangers send, with proofs about every run.

ITG takes a live stream in and hands it to browsers. The *ingest* service (Rust) talks FTL with the streamer: it
decodes commands from the socket, answers them, and asks the WebRTC server for a UDP port when the streamer sends a
single dot. The *WebRTC* service (Go) creates a stream per port, relays RTP, and runs one *hub* per stream through
which the viewers' websocket connections get offers, candidates and the viewer count.

`dafny verify dfyconfig.toml` checks everything.

## What is modelled

| modules | what |
|---|---|
| `Text`, `Framing`, `StreamDecoder`, `FtlCodec`, `CommandSyntax`, `CodecPanics`, `CommandClasses` | the FTL codec: cutting the byte stream at `\r\n\r\n`, classifying a frame, arbitrary chunking, the lines it panics on, what every line is read as |
| `ConnectionStates`, `Interpreter`, `Numerals`, `Transcript`, `Negotiation` | one session read sequentially: state, replies, what the replies spell, what the state remembers, what is announced at the end |
| `TwoTasks`, `LockStep`, `ConnectionTheorems`, `Schedules` | the two tasks of a connection and their two channels, one step per scheduling point |
| `ConnectionTasks` | the same connection as classes with mutable state and the original's loops, one command after the other |
| `AtomicHub`, `HubMachine`, `HubInvariant`, `HubTheorems`, `HubMessages`, `HubRefinement`, `HubProgress`, `HubPaths`, `HubOvertaking`, `HubBlocking` | the hub with a program counter per lock operation, the read-write lock with writer preference, channels, senders, announcing goroutines, and what the messages say |
| `HubLoop` | the hub's event loop as a class that updates its clients in place |
| `ClientLoops` | a viewer's read loop and write loop |
| `RegistryMachine`, `RegistryInvariant`, `RegistrySockets`, `RegistryTheorems`, `RegistryRequests` | concurrent create and delete requests on the map of streams |
| `StreamServer` | the same server as classes, one request after the other, with the HTTP statuses |
| `PortOwnership`, `PortClaims`, `PortSharing` | any number of connections against one registry |

Reading guide. A state machine is a predicate `Step(s, s')`; `Reachable(s)` means that some run ends in `s`. The
inductive invariants are in `LockStep`, `HubInvariant`, `RegistryInvariant`, `RegistrySockets`, `PortOwnership` and
`PortClaims`; the statements worth reading first are in the `…Theorems` modules, `HubRefinement.RunRefines`,
`HubProgress.ReturnsToSelectExactly`, `HubOvertaking.UnregisterClosesExactly`, `StreamDecoder.ChunkIndependence`,
`CommandSyntax.PrintParse`, `CodecPanics.StreamPanicsExactly`, `CommandClasses.StreamFailsExactly`,
`HubMessages.MessagesAreGenuine`, `StreamServer.AnswersExactly`, `Schedules.SessionHappens` and the last section of
`PortClaims`.

What the outside decides is a parameter or a nondeterministic step: the chunks the socket delivers, the answers to
port requests and the random HMAC payload (`World`), when a write fails, when a goroutine gives up, which branch a
`select` takes. The UTF-8 reading of a frame (`from_utf8_lossy`) is a function parameter `Utf8`.

## Where the code differs from what one would expect

* The documentation says that the negotiated port is always 65535; the code allocates a port per stream
  (`ingest/src/connection/mod.rs:307-320`), and the model follows the code. The documentation also mentions
  `AUTH_WS_URL`, which the code does not read.
* A `CONNECT` line panics the decoder when it has fewer than two blanks, or when its second blank is its last
  character or is followed by another blank, unless HMAC or DISCONNECT occurs in it too. `CONNECT 1` does, and so does
  `CONNECT 1` with two blanks behind it; `CONNECT 1 $`, with an empty key, does not. The model has `Crash` for it:
  `CodecPanics.PanicsExactly`, `CodecPanics.StreamPanicsExactly`.
* A `Video` or `Audio` attribute that is neither `true` nor `false` is never answered, and both tasks wait for each
  other from then on: `ConnectionTheorems.StuckExactlyOnInvalidFlag`, `ConnectionTheorems.DeadlockExactly`; `Video: maybe`
  does it, `Schedules.VideoMaybeSticks`.
* A refused port ends the session without the end-of-stream notice: `ConnectionTheorems.EndAnnouncedOnce`, with the
  input `CONNECT 1 $k` and a dot in `Schedules.ConnectOneIsRefused`.
* One exit of the command task skips `free_port` (`ingest/src/connection/mod.rs:114-117`). It is unreachable, which is
  why every port is released: `ConnectionTheorems.PortReleasedExactlyOnce`.
* An `Unregister` closes its client exactly when the client's `Register` was taken before it:
  `HubOvertaking.UnregisterClosesExactly`. The other way round it is lost, and the client stays:
  `HubOvertaking.EarlyUnregisterIsLost`, with a run in `HubOvertaking.UnregisterCanBeLost`.
* A broadcast to a client whose write loop has exited blocks the hub for good: `HubProgress.BlockedForever`, with a run
  in `HubBlocking.FirstAnnouncementBlocks`.
* After `Run` has returned nothing is taken from its channels any more: `HubTheorems.NothingDrainsAfterReturn`.
* A reader that fails on an open socket leaves its stream registered on a port that is free again. An entry can be
  replaced exactly when its stream's reader has failed (`RegistryTheorems.EntryReplaceableExactly`), and two live
  connections can come to stream to one port (`PortSharing.FreePortIsShared`). A stream is *disturbed* when its reader
  failed, or when it got its socket while a connection still claimed the port through a disturbed stream; the statements
  about ownership are about streams that are not. Failures on streams that were given up before a stream got its socket
  do not count against it.

## Model

| member | source | states |
|---|---|---|
| `Framing.FirstDelimiter` | ingest/src/ftl_codec.rs:39-40 | the window search returns the leftmost delimiter, and nothing exactly when there is none |
| `Framing.FirstDelimiterOfFramed` | ingest/src/ftl_codec.rs:39-42 | a text followed by the delimiter is cut off whole exactly when it neither contains `\r\n\r\n` nor ends in `\r\n`, whatever follows |
| `Framing.FramingRoundTrip` | ingest/src/ftl_codec.rs:39-42 | delimited texts and a rest split back into themselves if and only if every text is clean in that sense and the rest has no delimiter |
| `Framing.SplitFramesLossless` | ingest/src/ftl_codec.rs:39-42 | texts, delimiters and rest concatenate to the input, and every frame takes at least 4 bytes |
| `Framing.FramesUnique` | ingest/src/ftl_codec.rs:39-42 | the split is the only one into clean texts and a delimiter-free rest |
| `StreamDecoder.DecodeStepStable` | ingest/src/ftl_codec.rs:36-76 | bytes that arrive later change neither a decoded frame nor what is left, but for being appended |
| `StreamDecoder.DrainAppend` | ingest/src/ftl_codec.rs:36-76 | draining, receiving more and draining again yields the commands, the first error and the leftover of draining once |
| `StreamDecoder.ChunkIndependence` | ingest/src/ftl_codec.rs:36-76 | the same for any division of the byte stream into chunks |
| `StreamDecoder.DrainReadsFrames` | ingest/src/ftl_codec.rs:36-76 | draining reads the frames of the whole input in order and stops at the first one that is not a command |
| `FtlCodec.FtlCodec.Decode` | ingest/src/ftl_codec.rs:36-76 | the in-place decoder returns and leaves behind exactly one step of the stream decoder, whose every outcome `CommandClasses` and `CodecPanics` state over the characters of the line; the command buffer is emptied unless there was no frame or a panic |
| `FtlCodec.FrameReader.Receive` | ingest/src/connection/mod.rs:33-69 | a chunk appended to the buffer and drained moves the reader's whole view as the specification says |
| `FtlCodec.DrainWellFormed` | ingest/src/ftl_codec.rs:43-62 | every decoded CONNECT and attribute carries exactly the keys the handlers look for |
| `CommandSyntax.PrintParse` | ingest/src/ftl_codec.rs:43-72 | printing a command and classifying the line gives the command back if and only if its fields avoid the reserved words and separators that win over it |
| `CommandSyntax.ConnectRoundTrip` | ingest/src/ftl_codec.rs:49-56 | the same for `CONNECT id $key` and all ids and keys |
| `CommandSyntax.AttributeRoundTrip` | ingest/src/ftl_codec.rs:57-62 | the same for `Key: value` and all keys and values |
| `CommandSyntax.DisconnectIsNotConnect` | ingest/src/ftl_codec.rs:43-49 | a line with DISCONNECT also contains CONNECT and is still never read as one |
| `CodecPanics.PanicsExactly` | ingest/src/ftl_codec.rs:43-52 | the decoder panics on a line if and only if it has CONNECT, neither HMAC nor DISCONNECT, and no text between its second blank and the next one or the end |
| `CodecPanics.StreamPanicsExactly` | ingest/src/ftl_codec.rs:36-76 | a byte stream in any chunks ends in a panic if and only if its first frame that is no command is such a line |
| `CodecPanics.ShortConnectPanics` | ingest/src/ftl_codec.rs:50-51 | `CONNECT 1` panics |
| `CodecPanics.BlankKeyPanics` | ingest/src/ftl_codec.rs:51-52 | `CONNECT 1` with two blanks behind it panics |
| `CodecPanics.EmptyKeyConnects` | ingest/src/ftl_codec.rs:51-54 | an empty key behind the dollar sign is a CONNECT like any other |
| `CommandClasses.UnsupportedExactly` | ingest/src/ftl_codec.rs:69-72 | the decoder rejects a line, and reports that very line, if and only if it has no HMAC, no CONNECT, no colon and no PING and is not a single dot |
| `CommandClasses.HmacExactly` | ingest/src/ftl_codec.rs:43-45 | a line is an HMAC request if and only if it contains HMAC |
| `CommandClasses.DisconnectExactly` | ingest/src/ftl_codec.rs:46-48 | a DISCONNECT if and only if it contains DISCONNECT and not HMAC |
| `CommandClasses.ConnectExactly` | ingest/src/ftl_codec.rs:49-56 | a CONNECT if and only if it contains CONNECT, neither HMAC nor DISCONNECT, and the key is not missing |
| `CommandClasses.ConnectTakes` | ingest/src/ftl_codec.rs:50-54 | on any such line the channel is what stands between the first two blanks, and the key what stands behind the second up to the next, but for its first character |
| `CommandClasses.AttributeExactly` | ingest/src/ftl_codec.rs:57-62 | an attribute if and only if it has a colon and contains neither HMAC nor CONNECT |
| `CommandClasses.AttributeTakes` | ingest/src/ftl_codec.rs:58-60 | its key is what stands before the first colon, its value what stands behind it up to the next, without the white space around it |
| `CommandClasses.DotExactly` | ingest/src/ftl_codec.rs:63-65 | a dot if and only if the line is a single dot |
| `CommandClasses.PingExactly` | ingest/src/ftl_codec.rs:66-68 | a PING if and only if it contains PING, and neither HMAC nor CONNECT nor a colon |
| `CommandClasses.StreamFailsExactly` | ingest/src/ftl_codec.rs:36-76 | a byte stream in any chunks ends with the error for a text if and only if its first frame that is no command is that text, and it is an unknown line |
| `CommandSyntax.WireRoundTrip` | ingest/src/ftl_codec.rs:36-76 | printable commands sent as bytes in any chunks are decoded to themselves, in order, with nothing left |
| `Interpreter.UnansweredExactly` | ingest/src/connection/mod.rs:171-284 | which commands get no reply from the handler, and that those leave the state alone |
| `Interpreter.OnlyInvalidFlagsSilence` | ingest/src/connection/mod.rs:221-244 | of the commands the decoder yields only an invalid Video or Audio flag is unanswered |
| `Interpreter.HandlerKeepsPort` | ingest/src/connection/mod.rs:171-284 | no handler touches the RTP port |
| `Interpreter.AllocatedPort` | ingest/src/connection/mod.rs:311-313 | a port is allocated exactly when the server answers a number; it has 16 bits, differs from the number by a multiple of 65536, and is the number when that is a port |
| `Numerals.DecimalRoundTrip` | ingest/src/connection/mod.rs:105 | the decimal port in a reply reads back as the port |
| `Numerals.Decimal` | ingest/src/connection/mod.rs:105 | the text is digits without a leading zero, and `0` for zero |
| `Numerals.DigitsSpellTheirNumber` | webrtc/server/server.go:90 | any text of digits is the number it reads as, written out behind some zeros |
| `Numerals.HexRoundTrip` | ingest/src/connection/mod.rs:331-339 | the payload in hexadecimal reads back as the bytes |
| `Transcript.OutputIsReplies` | ingest/src/connection/mod.rs:139-284 | a session writes the renderings of its replies, in order and nothing else |
| `Transcript.TranscriptParses` | ingest/src/connection/mod.rs:105-109 | any list of replies is recovered from its text by splitting at newlines, but for the empty ones |
| `Transcript.ClientReadsReplies` | ingest/src/connection/mod.rs:145-179 | a client that splits a session's output at newlines reads every non-empty reply: payload, port, acknowledgements, refusal |
| `Negotiation.RemembersLastValue` | ingest/src/connection/mod.rs:213-252 | in every session each text attribute of the state is the last value sent for its key up to the command that ended or silenced the session |
| `Negotiation.RemembersFlags` | ingest/src/connection/mod.rs:221-244 | likewise the video and audio flags are true exactly when the last value served was `true` |
| `Negotiation.RemembersSession` | ingest/src/connection/mod.rs:94-104 | likewise the state has the last stream key, the last HMAC payload and the first port that was granted |
| `Negotiation.ServedIsAll` | ingest/src/connection/mod.rs:75-133 | the commands up to the one that ended or silenced a session are its longest served prefix, and they alone make the state |
| `Negotiation.ServedStops` | ingest/src/connection/mod.rs:75-133 | they end right before the first command that ends or silences the session |
| `Negotiation.NoticeAtHangUp` | ingest/src/connection/mod.rs:118-131 | the notice due when the channel closes on a session that still serves is the stream key of its state |
| `Negotiation.NoticeAtEnd` | ingest/src/connection/mod.rs:78-104 | of the commands that end a session only a disconnect makes a notice due, and commands behind it change nothing |
| `LockStep.FrameStepKeepsInv` | ingest/src/connection/mod.rs:32-70 | every step of the frame task keeps the lock-step invariant that ties the state to the sequential interpreter |
| `LockStep.CommandStepKeepsInv` | ingest/src/connection/mod.rs:72-135 | so does every step of the command task |
| `LockStep.ReachableInv` | ingest/src/connection/mod.rs:27-136 | the invariant holds after every schedule |
| `LockStep.PopOrder` | ingest/src/connection/mod.rs:145-156 | popping the reversed parts writes them in list order |
| `ConnectionTheorems.TwoTaskRefinement` | ingest/src/connection/mod.rs:27-136 | for every schedule the commands consumed are a prefix of those decoded, the state is the interpreter's after them, and the bytes written lie between the interpreter's output before and after the command under way |
| `ConnectionTheorems.ClientReadsSocket` | ingest/src/connection/mod.rs:139-284 | whenever the frame task reads again, the bytes on the socket split into exactly the replies to all commands so far |
| `ConnectionTheorems.OneOutstanding` | ingest/src/connection/mod.rs:29-70 | the channels hold one item together at most, the reply on its way answers the last command, and no reply send ever fails |
| `ConnectionTheorems.PortReleasedExactlyOnce` | ingest/src/connection/mod.rs:78-132 | at most one port is allocated, it is freed exactly when the command task has returned, and the exit that skips the release is unreachable |
| `ConnectionTheorems.EndAnnouncedOnce` | ingest/src/connection/mod.rs:78-132 | the end of the stream is announced once, and not after a refused port |
| `ConnectionTheorems.StuckExactly` | ingest/src/connection/mod.rs:34-133 | the two tasks wait for each other with empty channels if and only if the last consumed command was one the handler does not answer |
| `ConnectionTheorems.StuckExactlyOnInvalidFlag` | ingest/src/connection/mod.rs:221-244 | with the real decoder: if and only if it was an invalid Video or Audio flag |
| `ConnectionTheorems.DeadlockExactly` | ingest/src/connection/mod.rs:34-133 | no step is possible if and only if they are stuck in that way or both have returned |
| `ConnectionTheorems.ReturnIsContagious` | ingest/src/connection/mod.rs:34-133 | once one task has returned, at most seven steps see the other return |
| `Schedules.SessionHappens` | ingest/src/connection/mod.rs:27-136 | the converse: for every byte stream and every served prefix of its commands some schedule serves exactly these, with the interpreter's output and state |
| `Schedules.SilenceSticks` | ingest/src/connection/mod.rs:221-244 | every session that falls silent has a schedule that leaves both tasks stuck |
| `Schedules.RefusalIsSilent` | ingest/src/connection/mod.rs:97-102 | every session whose port is refused has a schedule that ends it without the notice |
| `Schedules.InvalidFlagSticks` | ingest/src/connection/mod.rs:221-244 | any invalid Video or Audio value a client can send sticks the connection |
| `Schedules.VideoMaybeSticks` | ingest/src/connection/mod.rs:225-228 | `Video: maybe` does |
| `Schedules.RefusedAfterConnect` | ingest/src/connection/mod.rs:97-102 | a connect and a refused dot end a session that has a stream key without the notice |
| `Schedules.ConnectOneIsRefused` | ingest/src/connection/mod.rs:97-102 | `CONNECT 1 $k` and a dot do |
| `ConnectionTasks.HandleFrameCommand` | ingest/src/connection/mod.rs:139-169 | the reverse-and-pop loop writes the concatenated parts, or as much of them as the socket takes |
| `ConnectionTasks.GenerateHmac` | ingest/src/connection/mod.rs:331-339 | the push loop gives 256 hexadecimal digits that decode to the bytes drawn |
| `ConnectionTasks.DrawnPayloads` | ingest/src/connection/mod.rs:331-339 | so every payload of a connection is hexadecimal, as the transcript needs |
| `ConnectionTasks.RepliesRead` | ingest/src/connection/mod.rs:105-179 | what the command loop replies splits at newlines into its replies |
| `ConnectionTasks.CommandTask.SetAttribute` | ingest/src/connection/mod.rs:217-252 | the state after an attribute is the interpreter's, and unchanged when the value is refused |
| `ConnectionTasks.CommandTask.HandleCommand` | ingest/src/connection/mod.rs:171-284 | state and reply after a command are the interpreter's |
| `ConnectionTasks.CommandTask.Serve` | ingest/src/connection/mod.rs:77-131 | one turn of the command loop is one command of the interpreter; leaving frees what was leased; the end of the stream is announced, with the stream key, exactly when the command is a disconnect and there is a key |
| `ConnectionTasks.CommandTask.Loop` | ingest/src/connection/mod.rs:75-133 | the loop takes commands up to the first that ends or silences the session |
| `ConnectionTasks.CommandTask.Run` | ingest/src/connection/mod.rs:72-135 | the whole task is the interpreter on the inbox, and frees what it leased unless it falls silent; nothing is announced after a silence or a refused port, and otherwise exactly the last stream key served, if there was one |
| `AtomicHub.ClosedForGood` | webrtc/ws/hub.go:59-97 | in the atomic hub no client is both member and closed, and a closed client is never sent anything more |
| `HubInvariant.StepKeepsInv` | webrtc/ws/hub.go:59-129 | every step of Run, of a sender and of everyone else keeps the hub invariant |
| `HubInvariant.ReachableInv` | webrtc/ws/hub.go:59-129 | the invariant holds after every interleaving |
| `HubTheorems.NeverPanics` | webrtc/ws/hub.go:67-94 | nobody sends on a closed channel or closes one twice: whoever is at a send holds the read lock with its client registered and open |
| `HubTheorems.ClientsConserved` | webrtc/ws/hub.go:62-94 | every client taken from Register is in the map, closed, or the one being removed; when Run has returned all are closed |
| `HubTheorems.AnnouncementsAccounted` | webrtc/ws/hub.go:66-119 | the numbers under way and taken are, as a multiset, the client counts right after every admission and removal |
| `HubMessages.BroadcastsTheCountTaken` | webrtc/ws/hub.go:80-85 | in every reachable state inside the broadcast branch the message under way is the number that was taken last |
| `HubMessages.MessagesAreGenuine` | webrtc/ws/hub.go:66-119 | in every run each count in a client's log is the number of clients right after some admission or removal, and every other message was meant for that client by a goroutine of its own |
| `HubTheorems.NeverRequestsWhileHolding` | webrtc/ws/hub.go:52-97 | Run never asks for a lock while it holds one |
| `HubTheorems.MembershipChangesUnderLock` | webrtc/ws/hub.go:63-94 | the map changes only in Run's branches, under the write lock, with no reader inside |
| `HubTheorems.NothingDrainsAfterReturn` | webrtc/ws/hub.go:86-94 | after Run has returned nothing is received, admitted or delivered again |
| `HubRefinement.StepRefines` | webrtc/ws/hub.go:59-97 | every step corresponds to atomic actions that extend the history of the atomic hub |
| `HubRefinement.RunRefines` | webrtc/ws/hub.go:59-97 | every run has one history of admit, remove-and-close, broadcast, direct send and shutdown, and each of its states looks like the atomic hub after a prefix of it, the prefixes growing along the run; the broadcasts of each prefix are, in order, the counts taken so far, but for the one under way |
| `HubRefinement.RefinesAtomicHub` | webrtc/server/server.go:219-225 | at its select or after its return the hub's members, closed clients and message logs are exactly the atomic hub's, and the broadcasts of that hub are exactly the counts taken, in order |
| `HubProgress.HelpfulStep` | webrtc/ws/hub.go:80-85 | while the clients Run needs still receive, some step brings Run strictly closer to its select |
| `HubProgress.OthersDoNotHinder` | webrtc/server/server.go:187-193 | no step of anybody else makes Run's remaining work larger |
| `HubProgress.BlockedForever` | webrtc/ws/hub.go:80-85 | a Run that needs a client whose write loop has exited stays in its branch on every continuation |
| `HubProgress.ReturnsToSelectExactly` | webrtc/ws/hub.go:59-97 | Run can get back to its select if and only if every client it, or a reader it waits for, is bound to send to still receives |
| `HubOvertaking.FoundExactly` | webrtc/ws/hub.go:67-69 | Run finds a client exactly when its Register was taken and it has not been closed |
| `HubOvertaking.UnregisterClosesExactly` | webrtc/ws/hub.go:67-79 | from any reachable state, when Run rests after taking an Unregister its client is closed if and only if the client's Register had been taken before |
| `HubOvertaking.MemberStays` | webrtc/ws/hub.go:67-94 | a member stays one until an Unregister of it is taken or the hub shuts down |
| `HubOvertaking.EarlyUnregisterIsLost` | webrtc/ws/hub.go:62-79 | after an Unregister that came too early, and until another one or a shutdown, the client is never closed and is a member whenever its Register has been taken and Run rests |
| `HubOvertaking.UnregisterCanBeLost` | webrtc/ws/hub.go:62-79 | a run in which the Register is sent, then the Unregister, which is taken first; the client stays in the map with both channels empty |
| `HubBlocking.BroadcastCanBlock` | webrtc/ws/hub.go:80-85 | from any select with an announcement to send, a member's write loop can exit just before the send and block Run |
| `HubBlocking.FirstAnnouncementBlocks` | webrtc/ws/hub.go:80-85 | a run in which it does |
| `HubLoop.Hub.OnRegister` | webrtc/ws/hub.go:62-66 | the client joins the map and the new count is announced |
| `HubLoop.Hub.OnUnregister` | webrtc/ws/hub.go:67-79 | a registered client leaves, its connection and its channel are closed and the new count announced; for any other nothing happens |
| `HubLoop.Hub.OnBroadcast` | webrtc/ws/hub.go:80-85 | every registered client receives the message once, and nobody else, unless some write loop has exited: then the loop is stuck at such a client |
| `HubLoop.Hub.OnDone` | webrtc/ws/hub.go:86-94 | the connections and channels of all clients are closed and the map is empty |
| `HubLoop.Hub.Run` | webrtc/ws/hub.go:59-97 | over any events the loop stops exactly at the first broadcast that meets a member whose write loop has exited; every client hears exactly what was broadcast while it was registered, all end closed and disconnected if the loop does, and the announcements are the counts after the changes |
| `HubLoop.RegisteredSplit` | webrtc/ws/hub.go:62-79 | after any prefix of the events the clients that registered are those still members and those removed, disjointly |
| `ClientLoops.Client.ReadLoop` | webrtc/ws/client.go:40-94 | the peer connection is given exactly what the messages amount to by position, up to the one that ends the loop; then one Unregister unless the hub has closed, and the connection is shut, unless the channel is full: then it waits, the connection open |
| `ClientLoops.FillIsLast` | webrtc/ws/client.go:50-62 | reading every message into one record means that a missing field has the last value given for it |
| `ClientLoops.Client.WriteLoop` | webrtc/ws/client.go:101-139 | what is taken from the channel and the ticker is written in order, all but a last item whose write failed: pings stand exactly where the ticks were, a close frame is written exactly when the last item written was the closed channel, and it is the last frame |
| `ClientLoops.TextsOfFrames` | webrtc/ws/client.go:117-128 | the text frames written are the messages sent to the client, in order |
| `ClientLoops.FramesTell` | webrtc/ws/client.go:112-136 | a ping for every tick and only there, as many as there were, a close frame for the closed channel and only there, the text of a message for anything else |
| `RegistryInvariant.StepKeepsInv` | webrtc/server/server.go:235-296 | every step of concurrent creates, deletes and readers keeps the registry invariant |
| `RegistrySockets.SocketsAnsweredFor` | webrtc/server/server.go:235-296 | in every interleaving the stream of an open socket is being made, or registered, or about to be closed by a delete |
| `RegistryTheorems.EntryReplaceableExactly` | webrtc/server/server.go:255-257 | from any reachable state an entry can be replaced, with no further reader failing and no delete, if and only if its stream's reader has failed |
| `RegistryTheorems.InsertMeetsAbsentKey` | webrtc/server/server.go:255-257 | an insert finds its key absent unless the reader of the stream there had failed |
| `RegistryTheorems.EntriesHoldTheirPorts` | webrtc/server/server.go:235-257 | a registered stream is registered under its own port and holds that port's socket unless its reader failed |
| `RegistryTheorems.HubClosedOnce` | webrtc/server/server.go:285-296 | however many deletes run at once, one request closes a stream, and no done channel is closed twice |
| `RegistryTheorems.FailedReaderLosesEntry` | webrtc/server/server.go:260-267 | the condition on readers is needed: a run in which an entry is overwritten |
| `RegistryRequests.RequestKeepsItsPort` | webrtc/server/server.go:235-296 | in every interleaving a create that asked for a port other than 0 makes its stream on that port, and a delete takes down the stream of the port it named |
| `RegistryRequests.HubsStopExactly` | webrtc/server/server.go:285-296 | unless another stream took its entry, a stream's hub was told to stop if and only if the stream is out of the map and no delete is still at it |
| `StreamServer.Server.New` | webrtc/server/server.go:50-61 | a server starts with exactly one stream, or not at all, leaving no socket behind |
| `StreamServer.Network.Listen` | webrtc/server/server.go:236-239 | a free port in range gets a fresh socket, with 0 for the system's choice; otherwise nothing changes |
| `StreamServer.Server.CreateStream` | webrtc/server/server.go:235-282 | the new stream takes nobody's place, and a failure leaves no socket behind |
| `StreamServer.Server.DeleteStream` | webrtc/server/server.go:285-296 | the stream leaves the map, its socket is closed and its hub stopped, and no other stream changes |
| `StreamServer.Server.Handle` | webrtc/server/server.go:85-117 | by the number a POST's parameter spells: a port gets that port if it is free and the tracks can be made and an error if not, any other number but 0 an error, and 0 or no number the system's choice on the same condition; a DELETE fails exactly when its parameter spells no number; and the ports registered afterwards |
| `StreamServer.AtoiExactly` | webrtc/server/server.go:90 | a text is read as a number if and only if it is that number in decimal, with leading zeros or a sign allowed, and has 64 bits |
| `StreamServer.AnswersExactly` | webrtc/server/server.go:85-117 | what the handler computes is the one answer that law allows |
| `StreamServer.PlainPortAnswer` | webrtc/server/server.go:87-100 | a POST for a plain port number answers that port exactly when it is not bound and the tracks can be made, and an error otherwise |
| `StreamServer.GivenIsFree` | webrtc/server/server.go:236-239 | a port is given out only while nobody has it |
| `StreamServer.Server.Serve` | webrtc/server/server.go:85-117 | after any requests the registered ports are those of the history, and each request was answered as a single one is by the ports that streams and others had at the time |
| `StreamServer.LiveExactly` | webrtc/server/server.go:85-117 | a port is registered if and only if it was there or was created, with no delete of it since |
| `StreamServer.PortReadsBack` | ingest/src/connection/mod.rs:322-329 | the port a connection spells in its delete request is the one the server reads |
| `PortClaims.StepKeepsInv` | ingest/src/connection/mod.rs:94-131 | every step of any number of connections and of the registry keeps the invariant that links them |
| `PortClaims.ReachableInv` | ingest/src/connection/mod.rs:94-131 | the invariant holds after every run |
| `PortClaims.ReachableRegistry` | webrtc/server/server.go:235-296 | what the connections do to the registry is one of its own runs |
| `PortClaims.DisturbanceHasCause` | webrtc/server/server.go:260-267 | a disturbed stream has a port on which a reader failed |
| `PortClaims.PortServesItsConnection` | webrtc/server/server.go:235-257 | a streaming connection's port is registered to the stream made for it, which holds the port's socket, unless it is disturbed |
| `PortClaims.DistinctPorts` | ingest/src/connection/mod.rs:95-103 | two streaming connections never have the same port unless both streams are disturbed |
| `PortClaims.FreeRemovesOwnStream` | ingest/src/connection/mod.rs:128-130 | a connection's delete takes out the stream made for that connection and leaves every streaming connection's registered, disturbed ones apart |
| `PortClaims.PortGivenBack` | ingest/src/connection/mod.rs:84-87 | when a connection's command task is through, its port was freed once, its stream is no longer registered and its socket is closed, but for a disturbed stream that a delete is about to close |
| `PortSharing.DotIsDot` | ingest/src/ftl_codec.rs:63-65 | a dot and the delimiter are decoded to a dot |
| `PortSharing.ConnectionGetsPort` | ingest/src/connection/mod.rs:94-110 | from any reachable state a new connection can get any port that is not bound |
| `PortSharing.FreePortIsShared` | webrtc/server/server.go:260-267 | from any reachable state with a connection streaming to a port that is not bound, its stream is disturbed, and a new connection that sends a dot can come to stream to the same port with no further reader failing |
| `PortSharing.FailedReaderSharesPort` | webrtc/server/server.go:260-267 | a run in which two streaming connections have one port |

## Left out

- Pion, the websocket and HTTP libraries, tokio's scheduler: only what their channels, locks, sockets and calls do to the state is here; failures are nondeterministic steps.
- Offers, candidates, SDP and JSON: messages are client counts or opaque signals, and only signals are sent to a single client. Offers and candidates may be dropped when the registration has not been consumed, so nothing is claimed about their delivery.
- Deadlines, pings and back-off: a write loop may exit at any moment instead, and a write in progress takes no time.
- ClientLoops.Client.ReadLoop: takes the messages as a list and waits at a full channel for good; in HubMachine the viewers' goroutines receive, unregister any number of times, and exit at any moment.
- `Closed` before an Unregister: in HubMachine the unregistering goroutine may skip it or not, whatever the answer.
- The authentication service: the end-of-stream notice is recorded as an event; the start notice and the replies affect nothing.
- UTF-8: the text of a frame is any function of its bytes; the wire round trip asks only that ASCII reads as itself.
- RTP parsing and the payload-type switch, `webrtc/internal/signal`, the React client, flags, logging, TLS and Docker: they would add only easy members.
- The mutex of the stream map: each of its critical sections is one step.
- Query-string escapes: the port parameter is the text after decoding.
- HubLoop.Hub.Run: takes the events in the order they are received, and each write loop takes a number of messages fixed beforehand; interleaving is in HubMachine.
- ConnectionTasks.CommandTask.Run: handles the commands one after the other; the schedules are in TwoTasks.
- PortClaims.ReachableInv: every request is answered in the end, only connections delete streams, and other clients may only create them.
- PortClaims.DistinctPorts: does not cover disturbed streams; PortSharing.FreePortIsShared shows what happens to those whose port is free.
- RegistryTheorems.InsertMeetsAbsentKey: is about keys whose stream's reader has not failed; RegistryTheorems.EntryReplaceableExactly shows that no other condition would do.
