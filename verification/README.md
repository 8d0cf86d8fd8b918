# Models of the signaling room, the transfer session, the device cloud, and their codecs

The repository lets devices find each other in a signaling room, send files to each other over a
WebRTC data channel, and group themselves into cloud accounts. This project models the parts of it
that have to stay right under concurrency, retries, fragmentation and late clean-up, and proves what
they promise over every input and every run.

Check everything with `dafny verify dfyconfig.toml`.

**Signaling room** (`Signaling*`, `IpGroup`, `Text`). Every lock section of the WebSocket server is one
step; the counter section and the room section of a client message are two. The senders a section
captures become sends that are still owed, performed one at a time later, so any other step may come
in between; every channel is an ordered queue. The two shared maps are a class (`SignalingState.AppState`)
whose methods are the lock sections. The invariant says that what a connection has been told about
another, plus what is still owed to it, accounts for the room. From it follow convergence of the room
view and of the infos in it, when the application's list shows the room, the exact room and request
accounting, and that offers and answers stay within one network. `SignalingProvenance` traces every
offer, answer and update in any channel back to the client message that asked for it, word for word.
`SignalingBounded` gives the channels their capacity of four messages, and every run of it is one of the
unbounded server's.

**Transfer session** (`Pin`, `Handshake*`, `Framing`, `FileStream`, `TransferSession`, `Rebuffer`). The two
endpoints are concurrent state machines over two ordered queues. `HandshakeDialogue` is the
one sequential dialogue they are meant to hold, and the proof that in every interleaving they do
nothing else. From it follow phase agreement, agreement on nonce, file list and tokens, a bound on
the number of turns, absence of deadlock, that the entered PINs alone decide who connects, and that
nobody gets past a token that does not verify with the key it expects (`HandshakeTrust`).
`HandshakeFrames` is the same session frame by frame; its runs are exactly those of the session on
messages. The retry loops, the chunking, the string framing and both file loops are methods with loops, proved
against specification functions, whose round trips are proved separately; `FileStreamSafety` says what
the receiver makes of frames that no honest sender would send.

**Device cloud** (`Cloud*`). A Firestore transaction is one step; a `recursiveDelete`, a batch commit or
the write of a minted token is a step of its own that anything may precede; the clock never goes
back. `CloudFirestore.Firestore` updates the three collections in place, through a write buffer that is
committed as a whole or discarded, and is proved against the store functions the runs are made of.
`CloudAnswers` says field by field what those functions answer and write, and `CloudOrigins` that
whoever joins enters the account whose device invited it.

**Codecs** (`Base64`, `LittleEndian`, `Tokens`, `Sse*`). Token text, and the serialization between the
application and its core: codecs built from codecs, and cursors that advance over a buffer in place
(`SseCursor`), proved against them. `SseLayout` says which bytes stand where, and `SseReading` what is
made of bytes that nothing writes. Base64 is decoded canonically: no padding, and fill bits that are not
zero are an error (sections 3.2 and 3.5 of RFC 4648).

## Where the code does not do what one might expect

Each of these is proved together with the exact condition under which things go well; where it takes
an interleaving, there is a run that shows it.

- A device registered again before the sweep of its earlier removal runs loses its new document,
  while the account goes on counting it (`CloudWitness.LateSweepLosesCount`); a join onto a device id
  that the target already holds counts it twice (`CloudWitness.JoinOntoHeldIdLosesCount`). The counts
  of a run are exact if and only if neither happens (`CloudCounts.ExactRunIff`), and they never fall
  below the number of devices, whatever happens (`CloudCounts.CoveredAlways`).
- An account that the weekly job has picked is deleted even if it checks in before the sweep runs
  (`CloudWitness.ActiveAccountIsSwept`), and a late account sweep deletes an account that was created
  again (`CloudWitness.ReturningAccountIsSwept`). A device, or an account, that nobody removes or
  empties stays if and only if no pending sweep that covers it is run (`CloudSurvival.DeviceStaysIff`,
  `CloudSurvival.AccountStaysIff`).
- A client that applies its channel in order, as the application does
  (`app/lib/provider/network/webrtc/signaling_provider.dart:127-188`), can keep showing a peer that
  left, or an info that was replaced: the departure or the update may be queued before the client's
  own hello, which still has the peer as it was (`SignalingGhost.LateHelloKeepsGhost`,
  `SignalingStale.LateHelloKeepsOldInfo`). Moreover the application's list replaces an entry only under
  the same token, so an update that is signed anew leaves the old entry beside the new one
  (`SignalingList.NewTokenKeepsOldEntry`). The list shows the room if and only if none of the three
  happens (`SignalingList.ListShowsRoomIff`).
- A connection can wait for ever with its own hello: its channel holds four messages and is drained
  only afterwards (`SignalingStuck.FourOffersBlockHello`, `SignalingBounded.GreetingWaitsForeverIff`). It
  stays listed, and whoever sends to it next waits as well.
- A relayed offer or answer carries the info its sender connected with, not the updated one
  (`SignalingRelay.RelayCarriesOldInfo`, `SignalingRelay.RelayedInfoIsStoredIff`).
- A receiver that challenges with the empty PIN grants it unasked while the sender still prompts for
  a PIN, which it then sends in vain (`Pin.Lockstep`), and a sender whose challenge allows no try reports
  "too many attempts" where the receiver does not expect it. These are the only PIN setups that break
  the dialogue (`HandshakeOutcomes.Derails`, `HandshakeOutcomes.InPhaseIff`).
- When no file is accepted, the delimiter arrives while no file is open and is taken for a broken
  header (`FileStreamRoundTrip.EndsWellIff`).
- A token is accepted whatever follows a fifth part and a further dot (`Tokens.AcceptedNonceIff`).
- A list of 2^31 or more elements is written with a length that has wrapped around and never comes
  back as it was (`Sse.VecReadsBackIff`).
- The description of `joinNetwork` (`firebase/functions/src/pairing.ts:265-272`) says that a caller without
  an account gets a device document with placeholders; the code demands `newDevice` instead and
  rejects the join without it (`CloudTokens.JoinsIff`). The model follows the code.

## Model

| member | source | states |
|---|---|---|
| SignalingState.AppState.ConnectLocked | server/src/controller/ws_controller.rs:108-143 | Under the lock a client is refused when the room is full or the group is out of requests, otherwise it is inserted and gets everyone found there; the maps change exactly as in the protocol's connect section, and a refusal leaves an inner map behind |
| SignalingState.AppState.ProtectDdosRequestCount | server/src/controller/ws_controller.rs:358-369 | A request passes exactly while the counter is below the limit, and only then raises it |
| SignalingState.AppState.UpdateLocked | server/src/controller/ws_controller.rs:284-297 | The stored info is replaced only if the peer is still a member, and exactly the other members are to be notified |
| SignalingState.AppState.TargetLocked | server/src/controller/ws_controller.rs:325-332 | A relay target is found exactly if it is a member of the same group |
| SignalingState.AppState.CleanupLocked | server/src/controller/ws_controller.rs:251-265 | The peer disappears, a group left empty disappears with it, and exactly the remaining members are to be notified |
| SignalingState.AppState.Clear | server/src/config/scheduler.rs:11-17 | The hourly job forgets every counter |
| SignalingConnect.InvAlways | server/src/controller/ws_controller.rs:88-273 | In every interleaving of lock sections, also between the counter section and the room section of one client message, of sends, refusals and aborts, each presence change since a connection was inserted has been told to it or is owed to it, and nothing else has |
| SignalingConnect.NextInv | server/src/controller/ws_controller.rs:88-273 | Every single step keeps that invariant, from any state that has it |
| SignalingSends.SendMainInv | server/src/controller/ws_controller.rs:152-163 | Delivering one owed join, hello or departure keeps the account of told and owed messages |
| SignalingSends.SendRecvInv | server/src/controller/ws_controller.rs:299-305 | Delivering one owed update, relay or error keeps it |
| SignalingSections.ClientMessageInv | server/src/controller/ws_controller.rs:185-195 | Admitting a client message, or answering it with an error and closing, keeps it |
| SignalingSections.RequestInv | server/src/controller/ws_controller.rs:197-225 | The room section of an admitted message, whenever it comes, keeps it; what an offer or answer owes to whom is said by ForwardOwesOne |
| SignalingSections.CleanupInv | server/src/controller/ws_controller.rs:249-272 | Leaving the room and owing the departure to every remaining member keeps it |
| SignalingConnect.ConnectInv | server/src/controller/ws_controller.rs:97-164 | Entering the room with a snapshot and owing joins and the hello keeps it |
| SignalingViews.RoomViewConverges | server/src/controller/ws_controller.rs:108-163 | Once nothing is owed to a member, hello and joins minus departures in its channel are exactly the other members of its room |
| SignalingViews.ViewIsRoom | server/src/controller/ws_controller.rs:275-306 | When moreover no member is closing, the infos it derives are the stored ones too, even when an update was queued before the hello |
| SignalingViews.InfoConverges | server/src/controller/ws_controller.rs:125-163 | For a single pair: the last update, else the hello or the join, gives the info the room stores |
| SignalingViews.InOrderViewIff | app/lib/provider/network/webrtc/signaling_provider.dart:127-188 | The ids shown by a client that applies its channel in order are those of the room if and only if no departure in it is followed by a message that mentions the departed peer |
| SignalingInOrder.InOrderViewIsRoomIff | server/src/controller/ws_controller.rs:152-163 | A client that keeps one entry for each peer and applies its channel in order shows ids and infos of the room, none of whose members is closing, if and only if no departure is followed by a mention of the departed peer and no hello is the last to mention a peer and says something else than the newest update before it |
| SignalingList.ListShowsRoomIff | app/lib/provider/network/nearby_devices_provider.dart:211-260 | The application's list, which keeps one entry for each token and peer, shows the room, each member once with its stored info, if and only if these two conditions hold and no member was ever mentioned with two tokens |
| SignalingList.ListedIff | app/lib/provider/network/nearby_devices_provider.dart:225-260 | A place in the list is taken exactly if a message put the peer there under that token and no departure of the peer came after it |
| SignalingList.NewTokenKeepsOldEntry | app/lib/provider/network/nearby_devices_provider.dart:229-243 | A run in which everything is delivered, nobody left, and an update with a token signed anew leaves the replaced entry in the list |
| SignalingOrder.OrderedAlways | server/src/controller/ws_controller.rs:152-163 | In every channel of every run, the join of a connection comes before all of its updates |
| SignalingViews.FoldedIff | app/lib/provider/network/nearby_devices_provider.dart:211-260 | Applying messages in order holds a peer exactly if it was mentioned and did not leave for good |
| SignalingInOrder.LastMentionAgreesIff | server/src/controller/ws_controller.rs:152-163 | What the last message about a peer says is what the order-insensitive view has, unless it is a stale hello |
| SignalingGhost.LateHelloKeepsGhost | server/src/controller/ws_controller.rs:127-163 | A run in which everything is delivered and an in-order client keeps showing a peer that has left |
| SignalingStale.LateHelloKeepsOldInfo | server/src/controller/ws_controller.rs:127-163 | A run in which everything is delivered, nobody left, and an in-order client keeps showing an info that was replaced |
| SignalingAccounting.CounterIsExact | server/src/controller/ws_controller.rs:358-369 | A group's counter is the number of its admitted connects and messages since the last hourly clear, and never exceeds the limit |
| SignalingAccounting.RoomIsExact | server/src/controller/ws_controller.rs:252-264 | A room lists exactly the connections of its group between insertion and cleanup, never more than the limit |
| SignalingAccounting.LetInIff | server/src/controller/ws_controller.rs:111-123 | A client is let in if and only if neither limit is reached; a refusal changes no room |
| SignalingAccounting.RelayStaysInGroup | server/src/controller/ws_controller.rs:313-355 | Every offer or answer in a channel comes from a connection of the same group and carries its connect-time info |
| SignalingProvenance.RelayWasAskedFor | server/src/controller/ws_controller.rs:207-222 | In any run, every offer or answer in a channel goes back to a client message of its origin earlier in the run with this kind, this target, this session and this text, admitted and then taken up by its room section |
| SignalingProvenance.UpdateWasAskedFor | server/src/controller/ws_controller.rs:198-206 | Every update in a channel carries an info that its peer sent in exactly that form |
| SignalingProvenance.EverythingSourced | server/src/controller/ws_controller.rs:197-225 | The same for all that is still owed, and no error other than 429 is ever owed or delivered |
| SignalingProvenance.ForwardOwesOne | server/src/controller/ws_controller.rs:313-355 | The room section of an admitted offer or answer owes a target in the room exactly one message, of that kind and with that text, and any other target nothing |
| SignalingProvenance.MessageAdmittedIff | server/src/controller/ws_controller.rs:185-195 | A client message is admitted if and only if its group has requests left; otherwise it is answered with error 429 and the connection begins to close |
| SignalingProvenance.CleanupLeavesOthers | server/src/controller/ws_controller.rs:252-264 | A departure takes out one peer, and the group with it exactly if nobody else is in it; no other room changes |
| SignalingRelay.StoredInfoIs | server/src/controller/ws_controller.rs:286-288 | The room stores for a member the info of its last stored update, or else the one it connected with |
| SignalingRelay.RelayedInfoIsStoredIff | server/src/controller/ws_controller.rs:207-222 | A relayed offer or answer carries the info stored for its sender if and only if the sender's last stored update, if any, restored what it connected with |
| SignalingRelay.RelayCarriesOldInfo | server/src/controller/ws_controller.rs:207-222 | A run in which an offer sent after an update carries the info of before |
| SignalingInvariant.FacesKept | server/src/controller/ws_controller.rs:88-95 | No step changes the group or the connect-time info of a connection, brings back a removed one, or adds any but a connecting peer |
| SignalingBounded.BoundedRunsAreRuns | server/src/controller/ws_controller.rs:96-166 | Every run with channels of four messages, drained only after the greeting, is a run of the unbounded server, so all its invariants hold |
| SignalingBounded.AlwaysWithinCapacity | server/src/controller/ws_controller.rs:96 | No channel ever holds more than four messages while anyone can wait for it |
| SignalingBounded.GreetingWaitsForeverIff | server/src/controller/ws_controller.rs:158-168 | A connection with only its hello left to send waits for ever, whatever happens, if and only if four messages are in its own channel before it |
| SignalingBounded.StuckStaysListed | server/src/controller/ws_controller.rs:152-163 | A connection that waits for ever stays listed in its room, and whoever has to send it a message next waits for ever, too |
| SignalingStuck.FourOffersBlockHello | server/src/controller/ws_controller.rs:158-168 | A run in which four offers reach a channel before the hello, which then waits for ever |
| IpGroup.GroupIff | server/src/util/ip.rs:3-18 | Two addresses share a group if and only if they are the same IPv4 address or IPv6 addresses equal in their first 64 bits |
| IpGroup.JoinedNumeralsInjective | server/src/util/ip.rs:9-16 | Numbers joined by a separator in minimal notation are determined by the text |
| IpGroup.GroupText | server/src/util/ip.rs:3-18 | The group key is the four decimal numerals of an IPv4 address joined by dots, or the hexadecimal numerals of the first four segments of an IPv6 address joined by colons |
| IpGroup.RelayStaysInNetwork | server/src/controller/ws_controller.rs:313-355 | Whatever the interleaving, an offer or answer only reaches a connection on the sender's network |
| Pin.VerifyPin | core/src/webrtc/webrtc.rs:1174-1226 | The loop accepts exactly if the PIN is empty or one of the first allowed PINs matches, takes no PIN beyond the first match or the limit, asks before each PIN (the first only with an initial notice), reports exhaustion exactly once, and its eight-bit counter never overflows |
| Pin.HandlePin | core/src/webrtc/webrtc.rs:1110-1166 | The answering loop sends one entered PIN per request for one and ends with the first verdict that is not "again" |
| Pin.RepliesAreNotices | core/src/webrtc/webrtc.rs:1189-1208 | The replies to the entered PINs, one by one, are the notices after the first PIN, closed by a grant or a refusal |
| Pin.Challenge | core/src/webrtc/webrtc.rs:1110-1226 | Both loops run against each other, every reply being one the verifying loop sent: same verdict for any entered PIN, and with a PIN that is not empty and a try allowed exactly the PINs sent are taken |
| Pin.Lockstep | core/src/webrtc/webrtc.rs:1110-1226 | For any challenge and any entered PINs both loops end with the same verdict; they take and send the same number of PINs if and only if the PIN is not empty and a try is allowed, or nothing is entered |
| Pin.VerifiedIff | core/src/webrtc/webrtc.rs:1188-1206 | Accepted if and only if the PIN is empty or one of the first allowed PINs is the right one; never more than 255 PINs are taken |
| HandshakeDialogue.FollowsDialogue | core/src/webrtc/webrtc.rs:232-408 | In every interleaving and for every PIN setup, the two endpoints with their queues are at a point of one sequential dialogue, the one the turns taken so far lead to |
| HandshakeDialogue.SenderProceeds | core/src/webrtc/webrtc.rs:232-408 | Each turn of the sender moves the dialogue on exactly as scripted, or not at all when it is not its turn |
| HandshakeDialogue.ReceiverProceeds | core/src/webrtc/webrtc.rs:676-880 | The same for the receiver |
| HandshakeDialogue.SenderJudgesToken | core/src/webrtc/webrtc.rs:261-351 | What the sender does once the receiver's token is there: give up if it expects a key and the token does not verify with it over both nonces, else be challenged, challenge, or send its files |
| HandshakeTrust.OnlyVerifiedTokensPass | core/src/webrtc/webrtc.rs:704-718 | At every point of every run, a receiver past its token check that expects a key has a token of the sender that verifies with this key over the sender's nonce followed by its own; and the sender likewise |
| HandshakeTrust.TokenRejectedIff | core/src/webrtc/webrtc.rs:276-299 | A run in which somebody gives up because of a token exists if and only if a side expects a key with which the other side's token does not verify |
| HandshakeTrust.BadTokenNeverConnects | core/src/webrtc/webrtc.rs:276-299 | With a token that does not verify, no side is connected, streaming or declining at any point of any run, and a settled session has the sender stopped for that reason |
| HandshakeTrust.NonceTakenIff | core/src/crypto/nonce.rs:9-11 | A nonce is taken if and only if it has 16 to 128 bytes |
| HandshakeOutcomes.InPhaseIff | core/src/webrtc/webrtc.rs:232-408 | In every reachable state the next message is one the reader's phase expects, whatever PINs are entered, if and only if the PIN setup is not one of the broken ones |
| HandshakeOutcomes.Derails | core/src/webrtc/webrtc.rs:735-826 | For every broken PIN setup, a run that leads into the breakdown |
| HandshakeOutcomes.Agreement | core/src/webrtc/webrtc.rs:676-880 | The sides never disagree on the nonce (sender's first), the file list, the file tokens or a refusal, and nobody connects unless each expected key verifies the other side's token over both nonces |
| HandshakeOutcomes.SettledOutcomes | core/src/webrtc/webrtc.rs:232-488 | A session that nothing can change any more has begun the transfer agreed, or has ended for both sides in one of six ways, or the PIN setup is broken |
| HandshakeOutcomes.TurnsAreBounded | core/src/webrtc/webrtc.rs:1174-1226 | At most 12 plus three times the allowed tries of both sides turns change anything, however long the run |
| HandshakeOutcomes.CanSettle | core/src/webrtc/webrtc.rs:232-488 | From every reachable state a settled one can be reached within the bound: no deadlock |
| HandshakeOutcomes.ConnectedOnlyWithPins | core/src/webrtc/webrtc.rs:735-767 | Nobody connects unless each challenge posed was passed, with the last PIN entered and within the allowed tries |
| HandshakeOutcomes.PinsDecide | core/src/webrtc/webrtc.rs:232-488 | With good tokens, unbroken PINs and no withheld input, a settled session has both sides connected and agreed exactly if both challenges were passed, and both sides out of tries exactly if one was lost |
| TransferSession.SessionDelivers | core/src/webrtc/webrtc.rs:490-560 | Once the sender streams, tokens and PINs were good, the receiver streams, too, and with its own tokens and its own file list it takes in exactly the selected files and answers each with what the application said about it |
| TransferSession.FrameSessionDelivers | core/src/webrtc/webrtc.rs:490-560 | The same frame by frame over one queue, whatever is still on its way to the receiver when the sender starts to stream |
| HandshakeTokens.MatchingKeysPass | core/src/webrtc/webrtc.rs:251-299 | For peers that expect each other's keys, or none, no run ever rejects a token |
| HandshakeFrames.FrameRunsAreMessageRuns | core/src/webrtc/webrtc.rs:1301-1332 | With messages cut into frames that are handed over one at a time, in any interleaving with the turns of both endpoints and for every PIN setup, each run is at every moment the image of a run on whole messages |
| HandshakeFrames.MessageRunsAreFrameRuns | core/src/webrtc/webrtc.rs:1301-1332 | Every run on whole messages is the image of a run on frames |
| HandshakeFrames.FrameTurnsAreBounded | core/src/webrtc/webrtc.rs:1174-1226 | On frames, too, at most 12 plus three times the allowed tries of both sides turns change anything |
| HandshakeFrames.FramesCanSettle | core/src/webrtc/webrtc.rs:232-488 | No deadlock on frames: from every reachable state the session can be brought to one that nothing changes, all frames handed over, with the outcome of a settled session on messages |
| HandshakeFrames.FrameRunsAgree | core/src/webrtc/webrtc.rs:232-408 | On frames, too, the sides agree on files, tokens and refusals, nothing else is on its way when the files start, and with an unbroken PIN setup neither reads anything it does not expect |
| HandshakeFrames.ReadsHead | core/src/webrtc/webrtc.rs:1321-1332 | From the frames that have arrived exactly the next message is read, and the frames left are those of the messages left |
| HandshakeWire.WaitingSidesReadMessages | core/src/webrtc/webrtc.rs:232-408 | With an unbroken PIN setup, in every reachable state a waiting endpoint reads the next message from the frames the way it was written, in chunks or as one text, and gets exactly that message and leaves the rest |
| HandshakeWire.ReadsNext | core/src/webrtc/webrtc.rs:1301-1332 | The next message comes out whole when read the way it was written |
| HandshakeWire.WireAppends | core/src/webrtc/webrtc.rs:1301-1319 | Appending messages to a queue appends their frames to the wire |
| Framing.ProcessInChunks | core/src/webrtc/webrtc.rs:1271-1299 | The chunks depend only on the bytes, not on how they arrive |
| Framing.ChunksAreChunked | core/src/webrtc/webrtc.rs:1268-1299 | No chunk is empty, all but the last are exactly 16 KiB, and together they are the input |
| Framing.ChunkingIsUnique | core/src/webrtc/webrtc.rs:1268-1299 | Any output that keeps this promise is the one produced |
| Framing.ReceiveStringFromChunks | core/src/webrtc/webrtc.rs:1321-1332 | Binary messages up to the next text message, and what is left of the queue |
| Framing.StringRoundTrip | core/src/webrtc/webrtc.rs:1301-1332 | Receiving returns exactly the string that was sent and leaves exactly what follows |
| Framing.StringsRoundTrip | core/src/webrtc/webrtc.rs:353-381 | Strings sent one after the other come out one by one |
| FileStream.SendFiles | core/src/webrtc/webrtc.rs:500-556 | One header and the chunks for each file with a token, an error for each without, the delimiter at the end |
| FileStream.ReceiveFiles | core/src/webrtc/webrtc.rs:882-993 | The receiver loop, its variables updated in place, does what the stepwise specification does, errors included; what it reports is said by FilesRoundTrip and Transfer |
| FileStreamRoundTrip.FilesRoundTrip | core/src/webrtc/webrtc.rs:500-556 | With at least one accepted file the receiver ends at the delimiter without an error, with the accepted ids in order and identical bytes, and one response per file in order: success or the text the application gave, "Unknown error" for a failure without text, a failure when the application gave no verdict; files without a token leave no trace |
| FileStreamRoundTrip.EndsWellIff | core/src/webrtc/webrtc.rs:890-923 | The stream ends well if and only if at least one file was accepted; with none it fails |
| FileStreamRoundTrip.ReceiveChunks | core/src/webrtc/webrtc.rs:971-976 | The pieces of the open file are appended to it and to nothing else |
| FileStreamRoundTrip.Transfer | core/src/webrtc/webrtc.rs:500-556 | Both loops run one after the other: the received files are the accepted ones, byte for byte and in order, and each response says what the application said about its file |
| FileStreamRoundTrip.UnacceptedAreRefused | core/src/webrtc/webrtc.rs:504-516 | The sender reports an error for exactly the files without a token and sends all others |
| FileStreamRoundTrip.AcceptedInOrder | core/src/webrtc/webrtc.rs:500-516 | What is accepted of two lists one after the other is accepted in that order |
| FileStreamSafety.OnlyEntitledFiles | core/src/webrtc/webrtc.rs:923-970 | Whatever frames arrive, every file handed to the application was offered, has a token, and was announced with that token |
| FileStreamSafety.HeaderJudged | core/src/webrtc/webrtc.rs:923-970 | A text that is no header fails the session; a header with an unknown id, a wrong token or no known size is refused with that reason and opens nothing; any other opens its file |
| FileStreamSafety.ShortTextEnds | core/src/webrtc/webrtc.rs:910-921 | While a file is open, a text ends the session well if and only if it has at most one byte |
| Rebuffer.BufferReceiver | app/rust/src/util/bytes.rs:15-29 | Blocks whose concatenation is the input, none empty, all but the last at least one mebibyte |
| Rebuffer.BlocksConserve | app/rust/src/util/bytes.rs:15-29 | No byte is lost, repeated or reordered |
| CloudFirestore.Firestore.CreateAccount | firebase/functions/src/accounts.ts:24-40 | Creates the account document once; in-place effect and answer equal the store function |
| CloudFirestore.Firestore.RegisterDevice | firebase/functions/src/devices.ts:48-93 | Sets or refreshes the device and counts only new ones; effect and answer equal the store function |
| CloudFirestore.Firestore.PatchDevice | firebase/functions/src/devices.ts:104-116 | Changes one field of a device that is there |
| CloudFirestore.Firestore.RemoveDevice | firebase/functions/src/devices.ts:175-197 | Decrements, or deletes the account on the last-device branch |
| CloudFirestore.Firestore.JoinNetwork | firebase/functions/src/pairing.ts:289-376 | The body runs in the source's order, the token being marked in the write buffer before a caller without an account is asked for its new device; effect and answer equal the store function, and a rejection leaves every document as it was |
| CloudFirestore.Firestore.Commit | firebase/functions/src/pairing.ts:289-376 | The buffered writes take effect together, or not at all when an update finds no document |
| CloudTransaction.JoinTransaction | firebase/functions/src/pairing.ts:289-376 | The buffered writes of a join, applied in order, have the effect and the answer of the store function |
| CloudTransaction.RejectedJoinIsRolledBack | firebase/functions/src/pairing.ts:328-347 | A rejected join leaves the whole store as it was although its body may have marked the token already, which is so exactly when only the new device is missing |
| CloudFirestore.Firestore.NotifyTransfer | firebase/functions/src/transfer-notify.ts:116-131 | Charges the quota of the source and answers with the push target, if any |
| CloudFirestore.Firestore.CleanupExpiredJoinTokens | firebase/functions/src/scheduled.ts:34-49 | Deletes exactly the tokens expired by now and reports their number |
| CloudFirestore.Firestore.CleanupInactiveAccounts | firebase/functions/src/scheduled.ts:51-68 | Deletes exactly the accounts without a check-in for 90 days, each with all its devices, and reports their number |
| CloudFirestore.Firestore.RecursiveDeleteAccount | firebase/functions/src/accounts.ts:51-59 | Removes the account document and every device below it |
| CloudAnswers.RegisterAnswers | firebase/functions/src/devices.ts:48-93 | A new device document has name, icon, push token and platform as given, the given fingerprint or none, and no sends; the answer says whether it was new |
| CloudAnswers.PatchAnswers | firebase/functions/src/devices.ts:104-116 | Name or icon become what was given and nothing else about the device changes; refused without the device, and rolled back without the account |
| CloudAnswers.RemoveAnswers | firebase/functions/src/devices.ts:175-207 | The account goes if and only if it counted no more than one device, and one sweep is left pending: of the account if it went, of the device otherwise |
| CloudAnswers.NotifyAnswers | firebase/functions/src/transfer-notify.ts:116-133 | A notification goes to the push token of the target's document, or nowhere if that has none or an empty one; no document but the source's and the account's changes |
| CloudAnswers.NotifyRefusals | firebase/functions/src/transfer-notify.ts:116-127 | A refused notification changes nothing, and is refused for a missing device if and only if one of the two is missing |
| CloudAnswers.CreateJoinTokenAnswers | firebase/functions/src/pairing.ts:104-131 | A minted token names its account and its issuer and ends five minutes later, and the answer says so; without account or device none is minted |
| CloudAnswers.PreviewAnswers | firebase/functions/src/pairing.ts:183-204 | A preview answers with account, issuer and end of the token and with exactly the devices of that account, each with its name, icon and platform |
| CloudAnswers.JoinRefusals | firebase/functions/src/pairing.ts:289-347 | For which reason a join is refused, in the order of the checks |
| CloudAnswers.WelcomedAsGiven | firebase/functions/src/pairing.ts:348-353 | Joining without an account stores name, icon, push token and platform as the caller gave them, no fingerprint and no sends |
| CloudAnswers.JoinLeavesSweep | firebase/functions/src/pairing.ts:356-384 | A join from an account leaves one sweep pending, of that account if it was deleted and of the moved document otherwise; any other join leaves none |
| CloudAnswers.DeleteAccountAnswers | firebase/functions/src/accounts.ts:51-59 | Deleting an account that is there leaves a sweep of it pending; deleting one that is not changes nothing |
| CloudAnswers.AccountSweepLeavesNothing | firebase/functions/src/accounts.ts:51-59 | When that sweep is run, no document of the account remains, and every other document stays as it is |
| CloudAnswers.TokenJobDeletes | firebase/functions/src/scheduled.ts:34-49 | The token job has exactly the tokens that have ended to delete; whenever that is carried out, they are gone and nothing else is |
| CloudAnswers.JobsReport | firebase/functions/src/scheduled.ts:34-68 | The jobs report how many tokens have ended by now, and how many accounts have seen no activity for ninety days |
| CloudOrigins.JoinEntersInviter | firebase/functions/src/pairing.ts:289-375 | In any run, whoever joins with a token enters the account that minted it less than five minutes before, which had the issuing device then |
| CloudOrigins.AllTokensMinted | firebase/functions/src/pairing.ts:104-131 | Every token of every run, written or about to be, has the account, the issuer and the times of the event that minted it |
| CloudCounts.CoveredAlways | firebase/functions/src/devices.ts:48-93 | After any run whatsoever every account counts at least its devices, and no device document lacks its account |
| CloudCounts.CoveredStep | firebase/functions/src/devices.ts:175-207 | Every step of any kind keeps that |
| CloudCounts.DriftStep | firebase/functions/src/pairing.ts:356-382 | A step makes an account count one device too many exactly when it joins onto an id the target holds or is an overtaken device sweep, and never changes the difference otherwise |
| CloudCounts.RemovingLastDeviceLosesNothing | firebase/functions/src/devices.ts:186-196 | The last-device branch of a removal deletes an account whose only device is the removed one |
| CloudCounts.JoiningFromLastDeviceLosesNothing | firebase/functions/src/pairing.ts:366-375 | The same for the source account of a join |
| CloudCounts.ExactStepIff | firebase/functions/src/devices.ts:48-93 | From exact counts, a step keeps them exact if and only if it is neither of those two |
| CloudCounts.ExactRunIff | firebase/functions/src/pairing.ts:328-384 | The counts are exact throughout a run if and only if none of its steps is |
| CloudConservation.PromptStepExactIff | firebase/functions/src/devices.ts:199-207 | With every sweep run at once, a step keeps exact counts exact if and only if it is not a join onto an id the target holds |
| CloudConservation.PromptSweepAfterRemove | firebase/functions/src/devices.ts:199-207 | A sweep that runs right after its removal finds nothing to delete |
| CloudConservation.PromptSweepAfterJoin | firebase/functions/src/pairing.ts:378-384 | A sweep that runs right after its join finds nothing to delete |
| CloudConservation.JoinConservesCount | firebase/functions/src/pairing.ts:356-375 | A join from an account preserves the sum of all counts, the welcome route adds one |
| CloudConservation.JoinMovesOneDocument | firebase/functions/src/pairing.ts:328-375 | The device document is carried over unchanged and every other device, and every account but source and target, stays as it is |
| CloudConservation.JoinKeepsDocumentsIff | firebase/functions/src/pairing.ts:331-356 | The number of device documents is kept if and only if the moved id is new to the target |
| CloudWitness.LateSweepLosesCount | firebase/functions/src/devices.ts:203-207 | A run in which a late sweep deletes a device registered again, leaving the count one too high |
| CloudWitness.JoinOntoHeldIdLosesCount | firebase/functions/src/pairing.ts:348-360 | A run in which a join replaces the document of a device the target already holds and counts it twice |
| CloudTokens.OneTime | firebase/functions/src/pairing.ts:289-328 | In a whole run no token is used by two committed joins |
| CloudTokens.UsedInTime | firebase/functions/src/pairing.ts:121-131 | A committed join uses a written, unconsumed token less than five minutes old, for the group it was minted for, and marks exactly that one |
| CloudTokens.ConsumedForever | firebase/functions/src/pairing.ts:294-328 | A consumed token never becomes unconsumed again |
| CloudTokens.RejectedJoinChangesNothing | firebase/functions/src/pairing.ts:289-354 | At any point of a run, a rejected join leaves every document and everything pending unchanged, whatever its transaction had buffered |
| CloudTokens.JoinsIff | firebase/functions/src/pairing.ts:289-347 | A join commits if and only if each of its checks passes |
| CloudSweepInvisible.SweepInvisible | firebase/functions/src/scheduled.ts:34-49 | Token sweeps anywhere in a run change no answer, apart from the reason given for refusing a dead token, and no document |
| CloudSweepInvisible.StepMirrors | firebase/functions/src/pairing.ts:186-196 | The simulation step between the run with sweeps and the run without |
| CloudQuota.ConsumeRefinesHistory | firebase/functions/src/rate-limit.ts:24-34 | A check against the trimmed array passes exactly if fewer than 30 sends of the full history lie in the last hour, and the new array again stands for the extended history |
| CloudQuota.AfterIsSuffix | firebase/functions/src/rate-limit.ts:25-26 | Trimming keeps exactly the newest entries |
| CloudQuota.SendAcceptedIff | firebase/functions/src/transfer-notify.ts:116-127 | At every point of every run a send is accepted if and only if fewer than 30 of the sends the run accepted from that device, followed through its moves between accounts, lie in the last hour |
| CloudQuota.NoWindowOverflows | firebase/functions/src/rate-limit.ts:14-34 | No one-hour window of any device's history ever holds more than 30 sends |
| CloudQuota.StoredSendsAreRecent | firebase/functions/src/rate-limit.ts:24-34 | What an accepted send stores are at most thirty sends of the last hour, the new one last |
| CloudQuota.QuotaSurvivesMove | firebase/functions/src/pairing.ts:331-356 | After a device has joined another account, its sends are accepted if and only if fewer than 30 of those accepted before the move lie in the last hour |
| CloudQuota.QuotaSurvivesRegistration | firebase/functions/src/devices.ts:69-82 | After registering again, a device has the quota its sends before left it |
| CloudQuota.QuotaSurvivesPatch | firebase/functions/src/devices.ts:104-116 | So it has after being renamed or given another icon |
| CloudIsolation.IsolationRun | firebase/functions/src/pairing.ts:305-375 | Over whole runs, the documents of an account change only through events about it and joins into it |
| CloudIsolation.ReRegistrationKeepsEdits | firebase/functions/src/devices.ts:69-90 | Registering again keeps name, icon, sends and count, and the fingerprint unless a new one is given |
| CloudSurvival.RenameStays | firebase/functions/src/devices.ts:69-82 | Once committed, a rename stays through the rest of any run, until the device is renamed again, removed or moved on request, swept, or replaced by a join onto its id |
| CloudSurvival.DeviceStaysIff | firebase/functions/src/devices.ts:175-207 | A registered device stays through the rest of a run if and only if it is neither removed nor moved on request and no pending sweep that covers it is run |
| CloudSurvival.AccountStaysIff | firebase/functions/src/devices.ts:186-204 | An account stays through the rest of a run if and only if its last device is neither removed nor moved away on request and no pending sweep of it is run |
| CloudSurvival.AccountPickedIff | firebase/functions/src/scheduled.ts:51-56 | At any point of any run, the weekly job picks an account if and only if it has seen no activity for 90 days, activity being its creation, its committed callables and joins into it |
| CloudSurvival.DateIsLastCreation | firebase/functions/src/accounts.ts:24-40 | The creation date an account has at any point of a run is that of the last event that created it |
| CloudWitness.ActiveAccountIsSwept | firebase/functions/src/scheduled.ts:64-66 | A run in which an account picked by the weekly job is deleted with its device although it has just checked in |
| CloudWitness.ReturningAccountIsSwept | firebase/functions/src/devices.ts:203-204 | A run in which a late account sweep deletes an account that was created again, with the device in it |
| Base64.EncodeRoundTrip | core/src/util/base64.rs:7-13 | Decoding inverts encoding for all bytes |
| Base64.DecodeRoundTrip | core/src/util/base64.rs:11-13 | A text decodes to some bytes if and only if it is their encoding: each byte string has one spelling |
| Base64.NoDot | core/src/util/base64.rs:5-9 | The encoding never contains the separator of tokens |
| Base64.EncodesGroups | core/src/util/base64.rs:5-9 | Bytes are encoded three at a time, each group on its own; one or two left over give the first two or three symbols of a group filled up with zeros |
| Base64.GroupValue | core/src/util/base64.rs:5-9 | Four symbols stand for the same number as the three bytes, most significant part first |
| LittleEndian.NumberRoundTrip | core/src/crypto/token.rs:113 | A number that fits its width is read back unchanged |
| LittleEndian.BytesRoundTrip | core/src/crypto/token.rs:149-152 | Every byte string is the encoding of the number read from it |
| Tokens.SplitsIntoParts | core/src/crypto/token.rs:118-141 | A generated token splits into its five parts for every key and salt, and its signature identifier is "ed25519" |
| Tokens.TokenText | core/src/crypto/token.rs:118-137 | The text of a token, part by part |
| Tokens.IdentifierIsFourthPart | core/src/crypto/token.rs:138-141 | The signature identifier of any text is its fourth part, if it has that many |
| Tokens.GeneratedFaresAsSalt | core/src/crypto/token.rs:177-220 | Verified with the matching key, a generated token fares exactly as its salt does |
| Tokens.NonceTokenVerifiesIff | core/src/crypto/token.rs:166-175 | A nonce token verifies with the matching key if and only if the nonce is the one it was made for |
| Tokens.TimestampTokenVerifiesIff | core/src/crypto/token.rs:143-164 | A timestamp token verifies with the matching key if and only if the clock is between issue and issue plus 3600 seconds, both included |
| Tokens.AcceptedNonceIff | core/src/crypto/token.rs:177-220 | For any text and any key: accepted if and only if the first five parts are the methods, the spelled hash, the spelled nonce and a spelled signature that verifies |
| Tokens.AcceptedTimestampIff | core/src/crypto/token.rs:143-164 | For any text and any key: accepted if and only if it is accepted as a nonce token for the spelling of some time at most one hour ago |
| Tokens.AbortedIff | core/src/crypto/token.rs:143-198 | Verification breaks off if and only if a part is missing or, the two method names being right, the salt spells a time still to come |
| Tokens.TokenBindsNonce | core/src/crypto/token.rs:166-220 | No text is accepted for two nonces, or for keys of two kinds |
| Sse.PrefixFree | app/rust/src/frb_generated.rs:2344-2354 | No encoding is the beginning of another, for any codec that reads back what it writes |
| Sse.I32ReadsWrapped | app/rust/src/frb_generated.rs:2318-2323 | A number comes back reduced to the signed 32-bit range, unchanged if and only if it is in it |
| Sse.VecReadsBackIff | app/rust/src/frb_generated.rs:4076-4134 | A list of readable elements comes back if and only if it is shorter than 2^31 |
| Sse.OptionLawful | app/rust/src/frb_generated.rs:2430-2498 | Optional values come back |
| Sse.PairLawful | app/rust/src/frb_generated.rs:2589-2605 | Fields written one after the other come back |
| Sse.MapReadsBack | app/rust/src/frb_generated.rs:2039-2053 | A map written in any iteration order comes back as the same map |
| Sse.SomeIteration | app/rust/src/frb_generated.rs:3799-3813 | Every map has an iteration order, so the round trip applies to every map |
| Sse.SetReadsBack | app/rust/src/frb_generated.rs:2139-2145 | A set written in any iteration order comes back as the same set |
| SseTypes.EveryTypeLawful | app/rust/src/frb_generated.rs:2196-2855 | Values of every modelled wire type come back unchanged with exactly the following bytes left |
| SseTypes.ClientLawful | app/rust/src/frb_generated.rs:2219-2237 | So do client infos and lists of them |
| SseTypes.FileLawful | app/rust/src/frb_generated.rs:2284-2304 | So do file descriptions |
| SseTypes.StatusLawful | app/rust/src/frb_generated.rs:2725-2760 | So do session states |
| SseTypes.ServerMessageLawful | app/rust/src/frb_generated.rs:2795-2855 | So do the signaling server's messages |
| SseTypes.MapsReadBack | app/rust/src/frb_generated.rs:3799-3813 | Token maps, file maps and id sets survive any iteration order |
| SseLayout.SignedOnTheWire | app/rust/src/frb_generated.rs:4051-4056 | Four bytes, the least significant first, negative numbers counting down from 2^32 |
| SseLayout.LongsOnTheWire | app/rust/src/frb_generated.rs:4425-4430 | Eight bytes, the least significant first |
| SseLayout.SimpleValuesOnTheWire | app/rust/src/frb_generated.rs:4152-4160 | One byte for a flag, the value after it if there is one; the length before the bytes of a text; an id is sixteen bytes behind their number |
| SseLayout.ListsOnTheWire | app/rust/src/frb_generated.rs:4076-4134 | The number of elements, then the elements in order |
| SseLayout.ClientOnTheWire | app/rust/src/frb_generated.rs:3980-3990 | The order of the fields of a client |
| SseLayout.FileOnTheWire | app/rust/src/frb_generated.rs:4030-4041 | The order of the fields of a file description |
| SseLayout.DeviceTypesOnTheWire | app/rust/src/frb_generated.rs:4003-4028 | The number of each device type |
| SseLayout.StatusOnTheWire | app/rust/src/frb_generated.rs:4382-4416 | The number of each session state, and the text behind the last |
| SseLayout.ServerMessagesOnTheWire | app/rust/src/frb_generated.rs:4454-4492 | The number of each signaling message, and what follows it |
| SseReading.ReadAsTextIff | app/rust/src/frb_generated.rs:2196-2202 | Bytes are read as text, unchanged, if and only if they spell a sequence of Unicode scalar values |
| SseReading.TextRead | app/rust/src/frb_generated.rs:2196-2210 | Reading a text or an id fails if the list of bytes does, if the bytes are no text, or if they are not sixteen |
| SseReading.LastPairCounts | app/rust/src/frb_generated.rs:2039-2045 | Pairs collect into the map in which the last pair of a key counts |
| SseCursor.Serializer.WriteByteVec | app/rust/src/frb_generated.rs:4106-4114 | The writing loop appends exactly the encoding |
| SseCursor.Serializer.WriteClient | app/rust/src/frb_generated.rs:3980-3990 | The fields in order append exactly the encoding |
| SseCursor.Serializer.WriteServerMessage | app/rust/src/frb_generated.rs:4454-4492 | Tag and payload append exactly the encoding |
| SseCursor.Deserializer.ReadByteVec | app/rust/src/frb_generated.rs:2380-2390 | The reading loop agrees with the codec, failures included |
| SseCursor.Deserializer.ReadStr | app/rust/src/frb_generated.rs:2196-2202 | Text is read exactly if its bytes are well-formed UTF-8 |
| SseCursor.Deserializer.ReadClient | app/rust/src/frb_generated.rs:2219-2237 | The fields in order agree with the codec, failures included |
| SseCursor.Deserializer.ReadServerMessage | app/rust/src/frb_generated.rs:2795-2841 | Tag and payload agree with the codec, unknown tags included |
| SseCursor.ServerMessagesRoundTrip | app/rust/src/frb_generated.rs:2795-2841 | Messages written one after the other into a buffer are read back one by one |

## Left out

- Fairness: that a server which is not blocked for ever delivers what it owes is not claimed; convergence is stated for when nothing is owed.
- Handlers whose socket is dead: a closed channel swallows sends in the code, here they still land in a queue nobody reads.
- Freshness of connection ids and of join token ids is assumed: a connect with a used id, or minting a used token id, is an event without effect.
- The client's own filters by token and local identity in the nearby-devices list: only the order of application is modelled.
- The pairing branch of the sender: the receiver of this repository never asks for pairing.
- JSON: the file header codec is a parameter that round-trips and never yields a one-byte text; all other messages are values.
- Handshake messages inside the state machines are whole items of a queue; `HandshakeFrames` proves that runs on their frames are runs on these items.
- The status notifications both endpoints give their application.
- The one message the sender reads after its own delimiter: which response it is has no effect.
- The receiver working with a selection outside the offered ids: its application chooses among the offered ones.
- I/O errors of the data channel, WebRTC set-up, SDP compression, timeouts and waiting for buffers.
- Reading the group's devices for a preview or a joined client: the list is taken at the same instant as the token and without its locale-dependent order.
- The two documents `createJoinToken` reads are read at one instant; its write of the token is a later step.
- Retries of transactions, progress inside a `recursiveDelete`, batch size limits, push delivery and the minting of sign-in tokens.
- Inputs of the callables before the transaction: parsing, validation and authentication.
- Ed25519, RSA-PSS and SHA-256: parameters of the model; the only assumption, where stated, is that signatures verify.
- Tokens with fewer than five parts and salts in the future: the code aborts or wraps around, the model reports `Aborted` and never accepts.
- Byte order: numbers are little-endian in the serialization codec, which uses the machine's own.
- Serialization of opaque handles, streams and errors, whose two sides are not inverse, and of the plain HTTP and key types, which follow the same combinators.
- SseCursor.Serializer: the cursors cover the signaling messages and everything inside them; the other wire types are modelled as codecs only.
- HTTP clients and servers, discovery, user interface and platform glue.
