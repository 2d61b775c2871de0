# HousePanel, modelled and proved in Dafny

A Dafny 4.11 model of the hard parts of HousePanel, and proofs of what they promise.
`dafny verify dfyconfig.toml` checks all of it.

* **Firmware update over the LAN.** The host packs an image into a 141-byte authenticated header and an AES-CTR
  ciphertext (`OtaProtocol`). The panel decrypts it in place, chunk by chunk, with a byte-wise 128-bit counter
  (`CtrMode`), looks for its identity with a one-counter matcher (`IdentityMatcher`), checks vectors and digests
  (`OtaReceiver`) and stages the image (`FileSink`). `OtaTransfer` proves that chunking is irrelevant and that what
  the host packs is accepted. `OtaPass` says what one pass of the server may meet and do; `OtaLoop` is the
  non-blocking server, and proves that it does so, that the bootloader is armed only after the success reply of the
  very connection that completed the image, and that a header begun on this board vouches for every image it stages;
  `OtaUpload` drives it through a whole upload to the arming; `OtaMeaning` says in elapsed time and bytes what a pass
  does.
* **Panel sessions.** `PanelState` is the state that a reader, a writer, a getter task, HTTP producers and a
  replacing connection share, with its atomic steps; `PanelSessions` is the transition system of handlers and
  sessions, stepping between awaits; `PanelSafety` proves exclusive ownership and that no stale frame is ever sent;
  `PanelEffects` says what each event does and what that means for all later sends; `PanelAdapter` drives the panel
  object through such runs.
* **Dispatch.** `CircuitBreaker`, `DispatchQueue` and `DispatchSteps` say what the worker's operations do;
  `DispatchSafety` and `DispatchRuns` prove conservation, order within a priority, bounds on attempts and the
  breaker's rests, over every run with producers interleaved; `DispatchBounds` shows the bounds attained;
  `DispatchEffects` says what each operation does; `DispatchWorker` is the object, which keeps all of that from
  call to call.
* **Frames.** `Utf8` and `JsonFrames` encode, and `JsonReading` reads every frame back and measures it; `FrameFit`
  shortens a frame to the firmware's budget and proves what is shortened and that the promise determines the result;
  `FrameStreams` builds weather and calendar frames, and `FrameMeaning` says what is in them; `CommandParser` is the
  firmware's side; `FrameDelivery` takes whole payloads from stream to buffer and proves that their strings arrive
  whole.
* **Release tools.** `LeastSquares` and `MemoryGate` are the memory gate; `Release` is the rollout with rollback.

AES, HMAC and SHA-256 are arbitrary total functions. Sockets, clocks, entropy, the file system, HTTP answers,
kubectl and the bootloader are parameters of the operations that meet them, so every statement holds for all their
behaviours. Times of the worker are real numbers; milliseconds of the firmware wrap at 2^32. History kept only to
state a property (event traces, positions of puts, fates of commands) is marked as such where it is declared.

The model follows the code. Three properties that one might expect of it do not hold in general; the exact
condition under which each does is proved:

* The matcher's single fallback to 0 or 1 is not a substring search in general. It is one exactly for
  identities without a strong border, which both shipped identities are (`ExactIffNoStrongBorder`). For a host
  name `HoX` it would miss an image that contains the identity (`UnluckyIdentity`).
* A retry after a failed attempt loses a command that no counter records, exactly when the queue has filled up
  meanwhile (`OnlyRetryDrops`); for every size of queue some run does it (`RetryCanDrop`).
* A failed release can leave a service off its previous image without naming it. It does so exactly to the services
  that were set to another image and whose restore was never tried, or did not take, when some restore raised
  something other than a failed process, as a termination signal does (`StrandedIff`, `Deploy`). A concrete
  release does (`SignalledReleaseStrands`). Such an exception alone is not enough: it can also escape with every
  image restored (`HarmlessEscape`).

## Model

| member | source | states |
|---|---|---|
| CtrMode.CarryAddsOne | firmware/housepanel-giga/ota_protocol.cpp:94 | the byte-wise carry loop adds one to the big-endian value, for a counter of any width, and wraps to zero at the top |
| CtrMode.CarryIsIncrement | firmware/housepanel-giga/ota_protocol.cpp:94 | on 16 bytes the carry loop is the standard incrementing function of NIST SP 800-38A |
| CtrMode.CounterBlockValue | firmware/housepanel-giga/ota_protocol.cpp:91-98 | the j-th counter block is the initial counter plus j modulo 2^128, so the keystream depends only on the stream position |
| CtrMode.CtrIsNist | firmware/housepanel-giga/ota_protocol.cpp:89-98 | decryption indexed by byte position equals the block form of section 6.5 of NIST SP 800-38A, for every length and starting block |
| CtrMode.CtrSplit | firmware/housepanel-giga/ota_protocol.cpp:86-98 | counter mode over two pieces in turn is counter mode over their concatenation |
| CtrMode.CtrInvolution | tools/panel_firmware.py:64-65 | what the host encrypts, the same key and counter decrypt |
| Bytes.XorByteBits | firmware/housepanel-giga/ota_protocol.cpp:96 | each bit of the combined byte is one exactly if one of the two bits is |
| CtrMode.CtrBits | firmware/housepanel-giga/ota_protocol.cpp:89-98 | bit for bit, a byte of the stream is combined by exclusive or with its byte of the encryption of the initial counter plus the number of blocks before it, modulo 2^128 |
| CtrMode.DecipheredIsCtr | firmware/housepanel-giga/ota_protocol.cpp:89-98 | nothing but counter mode has these bits |
| Bytes.FourBytes | firmware/housepanel-giga/ota_protocol.cpp:60-103 | the size is read with its first byte most significant, the vectors with their last |
| CtrMode.IncrementCounter | firmware/housepanel-giga/ota_protocol.cpp:94 | the in-place loop with its early exit leaves the array as the carry function says |
| CtrMode.CtrStream.Start | firmware/housepanel-giga/ota_protocol.cpp:70-78 | cipher state is reset to stream position 0 under the given key and initial counter |
| CtrMode.CtrStream.Refill | firmware/housepanel-giga/ota_protocol.cpp:92-95 | the keystream block is the encryption of the current counter, which then moves on by one |
| CtrMode.CtrStream.NextByte | firmware/housepanel-giga/ota_protocol.cpp:92-97 | each byte taken is the keystream byte of its absolute position, across block ends |
| CtrMode.CtrStream.Apply | firmware/housepanel-giga/ota_protocol.cpp:89-98 | in-place decryption of a chunk at any position; only the chunk changes; it fails only if a block cannot be computed |
| IdentityMatcher.ResumeRun | firmware/housepanel-giga/ota_protocol.cpp:107-111 | the matcher carried across two chunks behaves as on their concatenation |
| IdentityMatcher.RunOneMore | firmware/housepanel-giga/ota_protocol.cpp:108-110 | one more byte of the stream is one iteration of the loop |
| IdentityMatcher.FoundStays | firmware/housepanel-giga/ota_protocol.cpp:107-110 | once found, further bytes change nothing, so the loop may stop early |
| IdentityMatcher.FoundIsReal | firmware/housepanel-giga/ota_protocol.cpp:107-111 | for any identity, a reported match is a contiguous occurrence and the counter is a live partial match |
| IdentityMatcher.NothingMissed | firmware/housepanel-giga/ota_protocol.cpp:107-111 | without a strong border no occurrence is missed: the counter is the longest live partial match |
| IdentityMatcher.StrongBorderIsMissed | firmware/housepanel-giga/ota_protocol.cpp:107-111 | for an identity with a strong border, a concrete text contains it and is not recognised |
| IdentityMatcher.ExactIffNoStrongBorder | firmware/housepanel-giga/ota_protocol.cpp:107-111 | the single-fallback matcher is exact on every text if and only if the identity has no strong border |
| IdentityMatcher.UniqueFirstByte | firmware/housepanel-giga/ota_update.cpp:40 | a first byte that occurs nowhere else excludes strong borders |
| IdentityMatcher.RepeatedStartIsMissed | firmware/housepanel-giga/ota_protocol.cpp:107-111 | an identity whose start recurs before it goes on differently is missed in the text that repeats it up to there |
| OtaProtocol.UnluckyIdentity | firmware/housepanel-giga/ota_update.cpp:40 | for a host name HoX, a concrete image contains the identity and is not recognised |
| OtaProtocol.ShippedIdentities | firmware/housepanel-giga/ota_update.cpp:40 | both shipped identities are non-empty, free of NUL and without strong border, so the matcher is exact for them |
| Bytes.HexRoundTrip | firmware/housepanel-giga/ota_update.cpp:66-73 | the challenge the board spells in hexadecimal, the host reads back as the same bytes |
| Bytes.HexValueIs | firmware/housepanel-giga/ota_protocol.cpp:14-18 | a digit is one of sixteen, the letters in lower case only, with its value |
| OtaProtocol.HeaderFields | tools/panel_firmware.py:66-68 | each field the host writes is read back at the offset the receiver uses, the size through its big-endian form |
| OtaProtocol.PackedFields | tools/panel_firmware.py:55-68 | every packed envelope authenticates for a receiver with that key, panel and identity, and its ciphertext decrypts to the image |
| OtaProtocol.VectorsAre | firmware/housepanel-giga/ota_protocol.cpp:101-105 | the eight bytes as two numbers, and exactly the stack pointers and reset handlers accepted |
| OtaProtocol.VerifiedIs | firmware/housepanel-giga/ota_protocol.cpp:57-121 | a verified image written out: every field by its place in the header, the tag, both digests, the bits of the image from those of the ciphertext, the vectors and the identity |
| OtaProtocol.PackRefuses | tools/panel_firmware.py:56-62 | what the host refuses, with which error, and that it refuses nothing else |
| OtaProtocol.PackedIsVerified | tools/panel_firmware.py:63-68 | what it packs is what the panel verifies, under the bytes the challenge spells |
| StagedFile.FileSink.Begin | firmware/housepanel-giga/ota_update.cpp:77-80 | opening truncates UPDATE.PART and leaves UPDATE.BIN alone |
| StagedFile.FileSink.Write | firmware/housepanel-giga/ota_update.cpp:81-83 | appends what the file system accepted; succeeds only if that is everything |
| StagedFile.FileSink.Finish | firmware/housepanel-giga/ota_update.cpp:84-94 | succeeds only if flush, close, remove and rename do; UPDATE.BIN is absent in between and is never a partial image |
| StagedFile.FileSink.Abort | firmware/housepanel-giga/ota_update.cpp:95-99 | closes and removes the partial file, never touching UPDATE.BIN |
| OtaReceiving.PlainExtend | firmware/housepanel-giga/ota_protocol.cpp:86-98 | the plaintext so far grows by the chunk's decryption at the current position |
| OtaReceiving.OtaReceiver.DecodeKey | firmware/housepanel-giga/ota_protocol.cpp:34-41 | accepts exactly 64 lower-case hexadecimal digits that are not all zero, and writes the bytes they spell over the old key |
| OtaReceiving.OtaReceiver.Configure | firmware/housepanel-giga/ota_protocol.cpp:31-46 | succeeds exactly for a usable key, panel 1 or 2 and a non-empty identity, and stores these; an outstanding challenge stays; a failure keeps panel and identity |
| OtaReceiving.OtaReceiver.Challenge | firmware/housepanel-giga/ota_protocol.cpp:47-50 | stores the nonce and marks it issued if configured |
| OtaReceiving.OtaReceiver.Sign | firmware/housepanel-giga/ota_protocol.cpp:51-56 | the tag under the derived authentication key, only when configured |
| OtaReceiving.OtaReceiver.Abort | firmware/housepanel-giga/ota_protocol.cpp:124-129 | an open transfer ends in one abort, a closed one in none; the staged image stays |
| OtaReceiving.OtaReceiver.ReadSize | firmware/housepanel-giga/ota_protocol.cpp:60-61 | the shift loop reads the big-endian image size |
| OtaReceiving.OtaReceiver.Check | firmware/housepanel-giga/ota_protocol.cpp:57-67 | accepts exactly a header that answers the outstanding challenge, is for this panel, has an admissible size and a valid tag, with no transfer open |
| OtaReceiving.OtaReceiver.Begin | firmware/housepanel-giga/ota_protocol.cpp:57-85 | an authenticated attempt consumes the challenge whatever happens next; success opens the transfer, storage failure begins and aborts |
| OtaReceiving.OtaReceiver.Latch | firmware/housepanel-giga/ota_protocol.cpp:100 | the latch holds the first eight plaintext bytes of the whole stream, however it is cut |
| OtaReceiving.OtaReceiver.ReadVectors | firmware/housepanel-giga/ota_protocol.cpp:102-103 | the downward loop reads both little-endian words |
| OtaReceiving.OtaReceiver.CheckVectors | firmware/housepanel-giga/ota_protocol.cpp:104-105 | accepts exactly stack pointers and reset handlers in the M7 ranges |
| OtaReceiving.OtaReceiver.Match | firmware/housepanel-giga/ota_protocol.cpp:107-111 | the loop with early exit computes the matcher's run over the whole plaintext so far |
| OtaReceiving.OtaReceiver.Absorb | firmware/housepanel-giga/ota_protocol.cpp:88-111 | a chunk is hashed, decrypted in place and inspected so that all running fields again describe the whole stream |
| OtaReceiving.OtaReceiver.Conclude | firmware/housepanel-giga/ota_protocol.cpp:114-121 | completes exactly when both digests, the identity and all file operations agree; otherwise one abort and no new image |
| OtaReceiving.OtaReceiver.Deliver | firmware/housepanel-giga/ota_protocol.cpp:112-122 | a chunk is written, counted down and, if last, concluded; any failure aborts |
| OtaReceiving.OtaReceiver.Feed | firmware/housepanel-giga/ota_protocol.cpp:86-123 | follows the chunk-free verdict; on completion UPDATE.BIN is exactly the verified plaintext of what was fed: size, decryption, both digests, vectors and identity; the record says which transfer finished, and the images UPDATE.BIN held stay those at boot and of the finished transfers |
| OtaReceiving.VerdictOf | firmware/housepanel-giga/ota_protocol.cpp:86-123 | the decision read off the running fields is the verdict on the whole stream |
| OtaReceiving.ConfirmedIsVerified | firmware/housepanel-giga/ota_protocol.cpp:113-120 | digests and matcher together give a verified image whose identity occurs contiguously |
| OtaTransfers.CompletesIff | firmware/housepanel-giga/ota_protocol.cpp:86-123 | any split of the rest of a body into non-empty chunks completes if and only if the whole body is acceptable, a condition that knows no chunks |
| OtaTransfers.ChunkingIrrelevant | firmware/housepanel-giga/ota_protocol.cpp:86-123 | two ways to cut one ciphertext have the same outcome |
| OtaTransfers.PackedIsAcceptable | tools/panel_firmware.py:55-68 | what the host packs meets the receiver's whole-body condition |
| OtaTransfers.RoundTrip | tools/panel_firmware.py:55-68 | for every image, panel, key and challenge the host accepts and every split into non-empty chunks, the receiver completes with exactly the image |
| OtaTransfers.FeedAll | firmware/housepanel-giga/ota_protocol.cpp:86-123 | a receiver object fed chunk by chunk completes exactly when the chunk run does, with the plaintext staged |
| OtaTransfers.Upload | firmware/housepanel-giga/ota_protocol.cpp:57-123 | a panel with the packager's key and an outstanding challenge ends with exactly the packed image staged |
| OtaTransfers.BeginsAndEnds | firmware/housepanel-giga/ota_protocol.cpp:47-85 | every begun transfer is finished once, aborted once or open, and there are no more begins than challenges |
| OtaTransfers.CountIs | firmware/housepanel-giga/ota_protocol.cpp:47-129 | the counts are numbers of events on record |
| OtaTransfers.FreshChallenge | firmware/housepanel-giga/ota_protocol.cpp:47-69 | between a begin and a later one lies a new challenge |
| OtaTransfers.EveryBeginAnswered | firmware/housepanel-giga/ota_protocol.cpp:47-69 | each begin on record is by an authentic header whose nonce is that of the latest challenge, on which nothing was begun before |
| OtaTransfers.EveryFinishVouched | firmware/housepanel-giga/ota_protocol.cpp:57-123 | each finish on record is of the header its own begin named, and sizes, decryption, both digests, vectors and identity of its image are those of that header and the ciphertext received |
| OtaServing.OtaServer.ClosePeer | firmware/housepanel-giga/ota_update.cpp:101-107 | aborts an open transfer once and forgets all connection state, so no transfer outlives its connection; the staged image stays |
| OtaServing.OtaServer.SetReply | firmware/housepanel-giga/ota_update.cpp:108-117 | queues the reply, or closes if one is pending or it does not fit |
| OtaPasses.TookKeeps | firmware/housepanel-giga/ota_update.cpp:118-124 | a partial send keeps the reply's offset and the bytes the socket took in step |
| OtaServing.OtaServer.FlushReply | firmware/housepanel-giga/ota_update.cpp:118-133 | one send waits, advances the reply by the bytes taken, ends the connection or, with the last byte, does what was agreed on; nothing else changes |
| OtaServing.OtaServer.Replied | firmware/housepanel-giga/ota_update.cpp:124-132 | after the last byte: keep the connection for a body, or close it and then arm if the reply was the success reply |
| OtaServing.OtaServer.Update | firmware/housepanel-giga/ota_update.cpp:132 | arming is the one new event, is counted and must be justified by the history |
| OtaServing.OtaServer.CompleteIsStaged | firmware/housepanel-giga/ota_update.cpp:237-245 | whenever the receiver says it is complete, the success reply is pending and the staged image is the one its transfer finished with, vouched for by a header begun on this board |
| OtaPasses.ArmingJustified | firmware/housepanel-giga/ota_update.cpp:125-132 | when arming, the image completed on this connection and the socket took exactly the success reply |
| OtaServing.OtaServer.Reissue | firmware/housepanel-giga/ota_update.cpp:134-140 | a status request replaces the challenge only if there is entropy; otherwise none is valid and the receiver's stays as it was |
| OtaServing.OtaServer.Status | firmware/housepanel-giga/ota_update.cpp:134-157 | a new challenge is made, if there is entropy, and the status answered under it |
| OtaServing.OtaServer.SendStatus | firmware/housepanel-giga/ota_update.cpp:150-157 | the status goes out with its tag under the derived key, or the connection is closed |
| OtaServing.OtaServer.TryBegin | firmware/housepanel-giga/ota_update.cpp:226 | the transfer begins exactly if the header comes within 60 s of a valid challenge, answers it, is authentic and every call succeeds; an authentic attempt spends the challenge |
| OtaServing.OtaServer.Authorize | firmware/housepanel-giga/ota_update.cpp:225-235 | a header is refused with a failure reply unless its challenge is valid, at most 60 s old and the receiver begins; then bytes beyond it close the connection, and otherwise a body is awaited |
| OtaServing.OtaServer.FeedBody | firmware/housepanel-giga/ota_update.cpp:237-245 | body bytes extend the transfer, complete it with exactly the plaintext staged and the success reply queued, or fail it with the failure reply; which of them follows from the verdict on the stream unless a call fails; the history of UPDATE.BIN only grows |
| OtaServing.OtaServer.QueueSuccess | firmware/housepanel-giga/ota_update.cpp:242-244 | the success reply is queued by the pass that completed the image, and that image is the staged one |
| OtaServing.OtaServer.TakeHeaderByte | firmware/housepanel-giga/ota_update.cpp:219-235 | a byte that leaves the request unfinished changes the header alone; the eighth byte of an unknown request closes the connection, the fortieth of a query is answered with the status, the last of an upload header by the authorization |
| OtaPasses.RequestEnds | firmware/housepanel-giga/ota_update.cpp:217-235 | what a piece asks for, and where in it the request ends, depends only on the header with the piece appended |
| OtaServing.OtaServer.TakeHeader | firmware/housepanel-giga/ota_update.cpp:217-235 | the byte loop does what the header with the whole piece appended asks for, at the end of the request; bytes behind a query are ignored, bytes behind an upload header end the connection |
| OtaServing.OtaServer.TakeBytes | firmware/housepanel-giga/ota_update.cpp:214-245 | a received piece restarts the idle timer and is taken as header or as body, with the outcome of either |
| OtaServing.OtaServer.Serve | firmware/housepanel-giga/ota_update.cpp:209-245 | a connection past 180 s, or idle for 5 s, on the wrapping clock is closed without further effect; a pending reply goes before reading; what is read has the outcome of its bytes |
| OtaServing.OtaServer.Listen | firmware/housepanel-giga/ota_update.cpp:188-197 | every attempt to listen records its time, and after a failed one there is none for 5 s |
| OtaServing.OtaServer.Admit | firmware/housepanel-giga/ota_update.cpp:198-208 | a connection starts only from the accepting socket, with both timers at the time of accepting; a failure to accept ends listening |
| OtaServing.OtaServer.Disconnect | firmware/housepanel-giga/ota_update.cpp:182-187 | without WiFi the connection and the listening socket are gone, and an open transfer with them |
| OtaServing.OtaServer.Step | firmware/housepanel-giga/ota_update.cpp:180-246 | one pass of the loop relates the whole state before and after: no WiFi closes everything, listening is retried, a connection is admitted, expired, sent to or read from, with every outcome of a query, a header or a piece of body; the invariant holds and the histories only grow |
| OtaServing.OtaServer.Run | firmware/housepanel-giga/ota_update.cpp:180-246 | in every run, for all network, clock and storage behaviour: each arming is of the image that the same connection completed and confirmed; the images UPDATE.BIN ever held are those at boot followed by those of the finished transfers; each of these is the complete image announced by an authentic header that answered an own challenge of this board; every transfer begun is finished once, aborted once or open |
| OtaServing.ArmedIsRightful | firmware/housepanel-giga/ota_update.cpp:118-133 | every arming goes back to a completed transfer on its connection, and that to a recorded finish, a begin by its header and the challenge this answered |
| OtaPasses.EveryArmingJustified | firmware/housepanel-giga/ota_update.cpp:118-133 | read forwards: at each arming, the same connection had completed the image and the socket had taken the success reply in order, each byte once |
| OtaUploads.SendRequest | firmware/housepanel-giga/ota_update.cpp:198-235 | a request cut into any pieces that come in time is taken whole: the first opens the connection, the last decides |
| OtaUploads.ReadReply | firmware/housepanel-giga/ota_update.cpp:118-133 | a reply taken by the socket in any portions, in time, is sent once, in order and in full |
| OtaUploads.SendBody | firmware/housepanel-giga/ota_update.cpp:237-245 | a body whose chunks the receiver accepts ends with its plaintext staged and the success reply queued |
| OtaUploads.UploadImage | firmware/housepanel-giga/ota_update.cpp:180-246 | a host that asks for the status, packs for the challenge and sends header and body through the loop, however messages and replies are cut and whenever the pieces come within the deadlines, has exactly its image staged and the bootloader armed with it exactly once, after exactly the three replies; no call fails |
| OtaUploads.SomeTraffic | firmware/housepanel-giga/ota_update.cpp:198-246 | for every envelope and status there is such traffic |
| OtaMeaning.SinceIsElapsed | firmware/housepanel-giga/ota_update.cpp:210 | the difference on the wrapping clock is the time that has passed |
| OtaMeaning.ExpiresWhen | firmware/housepanel-giga/ota_update.cpp:210 | a connection expires exactly when it is older than 180 s or idle for more than 5 s |
| OtaMeaning.TimesOut | firmware/housepanel-giga/ota_update.cpp:210 | then the pass ends it and does nothing else |
| OtaMeaning.Waits | firmware/housepanel-giga/ota_update.cpp:214-215 | until then a pass that receives nothing changes nothing, and the end of the stream closes the connection |
| OtaMeaning.Sends | firmware/housepanel-giga/ota_update.cpp:118-133 | a pending reply: given up after 2 s, on failure or a false count, left as it is when blocked, else moved on by the bytes taken, with what was agreed after the last |
| OtaMeaning.Accumulates | firmware/housepanel-giga/ota_update.cpp:218-223 | a header too short to decide is kept, with nothing else changed |
| OtaMeaning.HangsUp | firmware/housepanel-giga/ota_update.cpp:220-223 | eight bytes that name no request end the connection |
| OtaMeaning.AnswersStatus | firmware/housepanel-giga/ota_update.cpp:134-157 | forty bytes of a status request make or drop the challenge and are answered with the status, its tag and a line feed, if signed and no longer than the buffer |
| OtaMeaning.HexLineIs | firmware/housepanel-giga/ota_update.cpp:66-73 | two lower-case digits for each byte of the tag, and a line feed |
| OtaMeaning.AnswersUpload | firmware/housepanel-giga/ota_update.cpp:225-235 | 141 bytes of an upload are refused, cut off or accepted, with the exact condition of each, the age of the challenge in milliseconds, and what becomes of the challenge |
| OtaMeaning.TakesBody | firmware/housepanel-giga/ota_update.cpp:237-245 | a piece of body: the three outcomes with their replies and what is staged, and which it is when no call fails |
| OtaMeaning.NotReadyOrOffline | firmware/housepanel-giga/ota_update.cpp:180-187 | a server that is not ready does nothing; without WiFi nothing stays open |
| OtaMeaning.ListensAgain | firmware/housepanel-giga/ota_update.cpp:188-197 | listening is tried at once and then not for 5 s after an attempt |
| OtaMeaning.Accepts | firmware/housepanel-giga/ota_update.cpp:198-208 | who is waiting is taken, with both timers and the history |
| PanelState.PutAllAppends | services/transport-adapter/src/transport_adapter/routes.py:31-44 | putting a batch appends it in order, numbers it consecutively and changes nothing else |
| PanelState.Panel.DiscardStaleCommands | services/transport-adapter/src/transport_adapter/state_refresh.py:55-65 | the drain loop empties the queue, drops the pending frame, cancels a waiting get and moves the generation on |
| PanelState.Panel.PutNormal | services/transport-adapter/src/transport_adapter/state_refresh.py:101-101 | a put appends one frame |
| PanelState.Panel.PostCommand | services/transport-adapter/src/transport_adapter/routes.py:31-44 | a batch is queued whole or not at all; refusal counts and overloads only a connected, unpaused panel |
| PanelState.Panel.WriterPass | services/transport-adapter/src/transport_adapter/ws_write_loop.py:15-62 | one pass of the writer up to its next await: interrupts first, then the OTA and HELLO gates, then the pending frame or a new get |
| PanelState.Panel.ResumeWriter | services/transport-adapter/src/transport_adapter/ws_write_loop.py:37-55 | the frame a get took becomes pending only if no discard intervened |
| PanelState.Panel.TakeOver | services/transport-adapter/src/transport_adapter/ws_handler.py:81-91 | a replacement discards the backlog and becomes the owner |
| PanelState.Panel.CleanUp | services/transport-adapter/src/transport_adapter/ws_handler.py:132-139 | ownership is given up only by its owner |
| PanelSafety.OwnerStep | services/transport-adapter/src/transport_adapter/ws_handler.py:62-104 | every step of every handler and session keeps ownership exclusive |
| PanelSafety.OneLiveSession | services/transport-adapter/src/transport_adapter/ws_handler.py:68-104 | two running sessions are the same session, and the panel is then connected |
| PanelSafety.OnlyOwnerMovesPanel | services/transport-adapter/src/transport_adapter/ws_handler.py:93-104 | a session that was replaced or ends late changes nothing on the panel: only the owner, a takeover or a producer does |
| PanelSafety.DiscardKeeps | services/transport-adapter/src/transport_adapter/state_refresh.py:55-65 | after a discard, no frame on its way to the panel counts as fresh |
| PanelSafety.PutKeeps | services/transport-adapter/src/transport_adapter/state_refresh.py:101-101 | a put keeps queue order and freshness |
| PanelSafety.PutAllKeeps | services/transport-adapter/src/transport_adapter/routes.py:31-44 | so does a whole batch |
| PanelSafety.SendKeeps | services/transport-adapter/src/transport_adapter/ws_write_loop.py:56-58 | starting a send keeps the sent frames in order and free of duplicates |
| PanelSafety.PassKeeps | services/transport-adapter/src/transport_adapter/ws_write_loop.py:15-62 | a writer pass keeps the delivery invariant and starts only permitted sends |
| PanelSafety.TakeKeeps | services/transport-adapter/src/transport_adapter/ws_write_loop.py:38-41 | a get that takes a frame keeps the order of what is left |
| PanelSafety.ResumeKeeps | services/transport-adapter/src/transport_adapter/ws_write_loop.py:37-55 | resuming with a stale generation drops the frame, with the current one keeps it fresh |
| PanelSafety.PostKeeps | services/transport-adapter/src/transport_adapter/routes.py:31-44 | posting at any time, to any queue, keeps the delivery invariant |
| PanelSafety.DeliveryStep | services/transport-adapter/src/transport_adapter/ws_write_loop.py:14-62 | every event, including cancelled, timed-out and frame-losing gets, keeps the delivery invariant |
| PanelSafety.RunKeepsSafe | services/transport-adapter/src/transport_adapter/ws_handler.py:62-145 | both invariants hold along every possible run from a safe state |
| PanelSafety.EverySendFresh | services/transport-adapter/src/transport_adapter/ws_write_loop.py:15-58 | every normal send of every run starts with interrupts drained, OTA not paused and HELLO received, its frame put after the latest discard and so after the session's HELLO; sent frames are an ordered, duplicate-free subsequence of those put |
| PanelSafety.SendStarts | services/transport-adapter/src/transport_adapter/ws_write_loop.py:56-58 | in the state in which a send starts, the same holds, the sender owns the panel, and exactly the pending frame is sent |
| PanelSafety.EveryRunOwned | services/transport-adapter/src/transport_adapter/ws_handler.py:68-104 | in every run at most one session is live, connected holds exactly when a socket is active, and both queues keep their bound of 50 |
| PanelEffects.NothingOldIsLeft | services/transport-adapter/src/transport_adapter/state_refresh.py:55-91 | after HELLO, the end of an update and a replacement the queue is empty, no frame is in hand, a waiting get is cancelled and the generation has moved on |
| PanelEffects.SentAfterDiscard | services/transport-adapter/src/transport_adapter/state_refresh.py:55-91 | in every run, whatever is sent after one of these was put after it |
| PanelEffects.UpdateIsSilent | services/transport-adapter/src/transport_adapter/ws_handler.py:52-59 | in every run, no normal frame is sent from the start of an update until it ends or its session is cleaned up |
| PanelEffects.PostIs | services/transport-adapter/src/transport_adapter/routes.py:31-44 | a batch is queued whole or refused if more than 50 would wait; when a refusal overloads |
| PanelEffects.WriterPassIs | services/transport-adapter/src/transport_adapter/ws_write_loop.py:15-58 | what a writer at the top of its loop does, case by case |
| PanelEffects.GetIs | services/transport-adapter/src/transport_adapter/ws_write_loop.py:38-55 | what becomes of a get that takes, returns, is cancelled or times out |
| PanelEffects.OthersStay | services/transport-adapter/src/transport_adapter/ws_write_loop.py:15-62 | a writer back from a send or a pause starts over; no reader or writer moves handlers or the lock |
| PanelEffects.ReaderIs | services/transport-adapter/src/transport_adapter/ws_handler.py:21-59 | what each message of the panel changes |
| PanelEffects.SessionIs | services/transport-adapter/src/transport_adapter/ws_handler.py:110-145 | starting, stopping and cleaning up a session; only the owner gives the panel up |
| PanelEffects.HandlerIs | services/transport-adapter/src/transport_adapter/ws_handler.py:68-104 | the steps of a replacement, and who holds the lock |
| PanelEffects.Connects | services/transport-adapter/src/transport_adapter/ws_handler.py:62-104 | a panel whose last session has ended takes a new connection, which is soon ready |
| PanelEffects.Delivers | services/transport-adapter/src/transport_adapter/ws_write_loop.py:15-58 | a ready session with nothing more urgent to do sends the head of the queue |
| PanelDriving.Adapter.HandlerStep | services/transport-adapter/src/transport_adapter/ws_handler.py:62-145 | each step of a connection's handler does to the panel object and the other sessions what the transition system says |
| PanelDriving.Adapter.WriterStep | services/transport-adapter/src/transport_adapter/ws_write_loop.py:14-62 | so does each step of a writer and its getter |
| PanelDriving.Adapter.Run | services/transport-adapter/src/transport_adapter/ws_handler.py:62-145 | the panel object, driven by any possible run of handlers, readers, writers, getters and producers, ends where the transition system does, keeps its invariant, and has started fresh sends only, in order |
| CircuitBreaking.CircuitBreaker.AllowRequest | services/aggregator/src/aggregator/dispatch_worker.py:68-87 | admits while closed, one probe per reset timeout otherwise |
| CircuitBreaking.CircuitBreaker.RecordSuccess | services/aggregator/src/aggregator/dispatch_worker.py:89-91 | closes and forgets failures |
| CircuitBreaking.CircuitBreaker.RecordFailure | services/aggregator/src/aggregator/dispatch_worker.py:93-97 | opens from half-open or at the threshold |
| DispatchQueue.InsertHolds | services/aggregator/src/aggregator/dispatch_worker.py:131-133 | the queue after an insertion holds the old commands and the new one, nothing else |
| DispatchQueue.InsertSorted | services/aggregator/src/aggregator/dispatch_worker.py:32-42 | it stays ordered by priority, then sequence number |
| DispatchQueue.InsertHead | services/aggregator/src/aggregator/dispatch_worker.py:193-221 | a head put back is the head again |
| DispatchQueue.UnexpiredIsExact | services/aggregator/src/aggregator/dispatch_worker.py:148-165 | purging keeps exactly the commands that have not expired |
| DispatchQueue.UnexpiredSorted | services/aggregator/src/aggregator/dispatch_worker.py:148-165 | and their order |
| DispatchWorking.DispatchWorker.Drain | services/aggregator/src/aggregator/dispatch_worker.py:153-162 | the first loop empties the queue, splitting it by expiry and counting |
| DispatchWorking.DispatchWorker.Refill | services/aggregator/src/aggregator/dispatch_worker.py:163-164 | the second loop restores the kept commands |
| DispatchWorking.DispatchWorker.PurgeExpired | services/aggregator/src/aggregator/dispatch_worker.py:148-165 | the queue loses exactly its expired commands, which are counted |
| DispatchWorking.DispatchWorker.Enqueue | services/aggregator/src/aggregator/dispatch_worker.py:119-146 | rejected, and counted, exactly if the queue is full of commands that have not expired; otherwise queued, and with room nothing else changes |
| DispatchWorking.DispatchWorker.RunOnce | services/aggregator/src/aggregator/dispatch_worker.py:190-232 | one turn expires, postpones, refuses or starts the head command; neither reinsertion can find the queue full |
| DispatchWorking.DispatchWorker.Reinsert | services/aggregator/src/aggregator/dispatch_worker.py:236-240 | a full queue loses the command, uncounted |
| DispatchWorking.DispatchWorker.Succeeded | services/aggregator/src/aggregator/dispatch_worker.py:247-252 | a delivery is counted and closes the breaker |
| DispatchWorking.DispatchWorker.Failed | services/aggregator/src/aggregator/dispatch_worker.py:267-296 | any other outcome is counted, recorded with the breaker, backed off and put back |
| DispatchWorking.DispatchWorker.Run | services/aggregator/src/aggregator/dispatch_worker.py:179-232 | the object driven by any run of arrivals, turns and answers ends in the state the run has, and its invariant, which is all of the below, holds after every call |
| DispatchSafety.CountsStep | services/aggregator/src/aggregator/dispatch_worker.py:119-296 | every operation keeps the books: offered is queued plus in flight plus dispatched, expired, rejected and dropped; attempts are dispatched plus failed plus in flight |
| DispatchSafety.PartitionPurge | services/aggregator/src/aggregator/dispatch_worker.py:148-165 | purging settles exactly the expired, every other command keeps its one place |
| DispatchSafety.ArrivePlaces | services/aggregator/src/aggregator/dispatch_worker.py:119-146 | a new command gets exactly one place |
| DispatchSafety.TurnPlaces | services/aggregator/src/aggregator/dispatch_worker.py:190-232 | a turn moves one command from one place to another |
| DispatchSafety.FinishPlaces | services/aggregator/src/aggregator/dispatch_worker.py:242-296 | so does the end of an attempt |
| DispatchRuns.AttemptIsTheirTurn | services/aggregator/src/aggregator/dispatch_worker.py:190-232 | an attempt is for the queued command of highest priority that was offered first, within its lifetime and after its backoff, and only once every earlier command of its priority is settled |
| DispatchEffects.EnqueuedIs | services/aggregator/src/aggregator/dispatch_worker.py:119-146 | a command is rejected exactly if the queue is full of commands that have not expired; otherwise it is queued, and a full queue loses exactly its expired commands |
| DispatchEffects.TurnIs | services/aggregator/src/aggregator/dispatch_worker.py:190-232 | one turn, by the head's times and the breaker's state: expired, left in place or attempted |
| DispatchEffects.AllowIs | services/aggregator/src/aggregator/dispatch_worker.py:68-87 | when the breaker lets a request through, and what that changes |
| DispatchEffects.OutcomesAre | services/aggregator/src/aggregator/dispatch_worker.py:89-97 | a success closes the breaker, a failure opens it if half-open or from the fifth on |
| DispatchEffects.DeliveredIs | services/aggregator/src/aggregator/dispatch_worker.py:247-252 | what a delivery counts |
| DispatchEffects.FailedIs | services/aggregator/src/aggregator/dispatch_worker.py:267-296 | what a failure counts, how long the command then waits, and when it is lost |
| DispatchRuns.OrderStep | services/aggregator/src/aggregator/dispatch_worker.py:190-240 | successes stay in order within each priority |
| DispatchRuns.WaitedValue | services/aggregator/src/aggregator/dispatch_worker.py:291-296 | the least total backoff before attempt k + 1 is 61 + 30 (k - 6) seconds from the sixth failure on |
| DispatchRuns.BackoffFits | services/aggregator/src/aggregator/dispatch_worker.py:24-29 | the backoffs fit in a command's lifetime if and only if it failed fewer than 7, 8 or 14 times, by priority |
| DispatchRuns.TriesStep | services/aggregator/src/aggregator/dispatch_worker.py:203-215 | the number of attempts made is the command's counter, within its bound |
| DispatchRuns.BreakerStep | services/aggregator/src/aggregator/dispatch_worker.py:68-97 | the breaker is half-open only during an attempt, closed exactly below the threshold, and opened at the latest failure |
| DispatchRuns.RunKeepsSafe | services/aggregator/src/aggregator/dispatch_worker.py:190-296 | all of these hold along every run, whatever arrives while the worker awaits |
| DispatchRuns.EveryRunConserves | services/aggregator/src/aggregator/dispatch_worker.py:119-165 | conservation and the queue bound in every run |
| DispatchSafety.PurgedCounts | services/aggregator/src/aggregator/dispatch_worker.py:148-165 | the commands a purge counts are those that get the fate of being expired |
| DispatchRuns.EveryRunSettles | services/aggregator/src/aggregator/dispatch_worker.py:119-296 | in every run each counter is the number of commands that met its fate, and a command offered has met one, is queued or is in flight |
| DispatchRuns.OnlyRetryDrops | services/aggregator/src/aggregator/dispatch_worker.py:291-296 | a command leaves uncounted exactly when a failed attempt finds the queue full again |
| DispatchBounds.RetryCanDrop | services/aggregator/src/aggregator/dispatch_worker.py:291-296 | for every size of queue there is a run in which a command is lost and no counter tells |
| DispatchRuns.TurnPutsBack | services/aggregator/src/aggregator/dispatch_worker.py:211-230 | a turn that neither attempts nor expires leaves the queue as it was |
| DispatchRuns.EveryRunOrdered | services/aggregator/src/aggregator/dispatch_worker.py:32-42 | in every run successes at one priority come in strictly increasing number, none twice, each after all earlier ones are dispatched, expired, rejected or dropped |
| DispatchRuns.EveryRunBounded | services/aggregator/src/aggregator/dispatch_worker.py:203-215 | in every run, for all jitter and timing, no command is attempted more than 7, 8 or 14 times |
| DispatchBounds.RoundFails | services/aggregator/src/aggregator/dispatch_worker.py:203-232 | an attempt that is due fails and leaves the worker ready for the next, within the lifetime as long as the bound allows |
| DispatchBounds.BoundIsAttained | services/aggregator/src/aggregator/dispatch_worker.py:24-29 | for each priority a run reaches exactly 7, 8 or 14 attempts, so the bound is exact |
| DispatchRuns.EveryRunRests | services/aggregator/src/aggregator/dispatch_worker.py:68-97 | in every run, between turns no probe is outstanding, and after five failures in a row each attempt starts at least 30 s after the failure before it |
| Utf8.PointRoundTrip | services/transport-adapter/src/transport_adapter/stream_decompose.py:10-11 | one code point's UTF-8 form is recognised at the front of any bytes and decodes to it |
| Utf8.CutPoint | services/transport-adapter/src/transport_adapter/stream_decompose.py:10-11 | a code point's form cut short decodes to nothing |
| Utf8.RoundTrip | services/transport-adapter/src/transport_adapter/stream_decompose.py:10-11 | decoding what was encoded gives the text back |
| JsonReading.Utf8Samples | services/transport-adapter/src/transport_adapter/stream_decompose.py:10-11 | characters of one to four bytes |
| Utf8.PrefixIsLongest | services/transport-adapter/src/transport_adapter/stream_decompose.py:10-11 | cutting the bytes at n and ignoring the partial tail gives the longest prefix of whole code points within n bytes |
| JsonFrames.FrameSizeIs | services/transport-adapter/src/transport_adapter/stream_decompose.py:14-15 | the byte length of the compact JSON is the sum over its members |
| JsonFrames.SizeUpdate | services/transport-adapter/src/transport_adapter/stream_decompose.py:31-32 | replacing one string changes the frame by the difference of the escaped sizes |
| JsonFrames.EscapedPrefixSize | services/transport-adapter/src/transport_adapter/stream_decompose.py:29-35 | a longer prefix of a string takes strictly more of the frame |
| JsonReading.FrameReadsBack | services/transport-adapter/src/transport_adapter/stream_decompose.py:14-15 | a JSON reader gives every frame back from its encoding, whatever its strings hold |
| JsonReading.StringReadsBack | services/transport-adapter/src/transport_adapter/stream_decompose.py:14-15 | so it does with every string, up to its closing quotation mark |
| JsonReading.EscapedPointSize | services/transport-adapter/src/transport_adapter/stream_decompose.py:14-15 | what one character takes in a string: two bytes, six, or its form in UTF-8 |
| JsonReading.EscapedSizeAppend | services/transport-adapter/src/transport_adapter/stream_decompose.py:14-15 | and a string what its characters take |
| JsonReading.FrameSizeInFull | services/transport-adapter/src/transport_adapter/stream_decompose.py:14-15 | a frame takes its keys and values, a colon each, commas between them and two braces |
| FrameFit.CutString | services/transport-adapter/src/transport_adapter/stream_decompose.py:27-36 | the binary search leaves the longest prefix that fits: one code point more does not |
| FrameFit.PickLongest | services/transport-adapter/src/transport_adapter/stream_decompose.py:23-26 | the first of the longest non-empty strings is chosen |
| FrameFit.RoundKeeps | services/transport-adapter/src/transport_adapter/stream_decompose.py:22-36 | a round keeps the longest-first order, and the last string cut cannot be extended |
| FrameFit.FitFrame | services/transport-adapter/src/transport_adapter/stream_decompose.py:18-37 | raises if and only if the frame with every string but cmd emptied is still 200 bytes or more; otherwise the result is under 200 bytes, only strings shrink to prefixes, longest first, and the last one cut is maximal |
| FrameFit.AtMostOnePartial | services/transport-adapter/src/transport_adapter/stream_decompose.py:22-36 | of two shortened strings one is empty |
| FrameFit.FittedIsUnique | services/transport-adapter/src/transport_adapter/stream_decompose.py:18-37 | that promise leaves no choice: two frames that meet it are equal |
| FrameMeaning.FittedIs | services/transport-adapter/src/transport_adapter/stream_decompose.py:18-40 | a fitted frame takes fewer than 200 bytes, only strings outside cmd are shortened, to prefixes, and one only when all that take more bytes are empty |
| FrameMeaning.PreCutIs | services/transport-adapter/src/transport_adapter/stream_decompose.py:20-21 | a ticker's text, and nothing else, is cut to its longest prefix of at most 127 bytes beforehand |
| FrameMeaning.EmptiedIs | services/transport-adapter/src/transport_adapter/stream_decompose.py:23-25 | a frame that cannot fit is too large even with all these strings empty |
| FrameStreams.WeatherStream | services/transport-adapter/src/transport_adapter/stream_decompose.py:57-77 | one frame for the present and one for each of the first four days, in order; zero temperatures count as missing |
| FrameMeaning.WeatherFrameIs | services/transport-adapter/src/transport_adapter/stream_decompose.py:58-66 | which number stands under which key, a missing or zero high or low showing the temperature, and the conditions cut to 30 bytes |
| FrameMeaning.DayFrameIs | services/transport-adapter/src/transport_adapter/stream_decompose.py:68-76 | the day's place, high and low under their keys, its label cut to 3 and its conditions to 24 bytes |
| FrameStreams.AtMostFiveStay | services/transport-adapter/src/transport_adapter/stream_decompose.py:101-110 | of each summary exactly the first five events stay |
| FrameStreams.FilterEvents | services/transport-adapter/src/transport_adapter/stream_decompose.py:103-110 | the counting loop keeps exactly the events with fewer than five of their summary before them |
| FrameMeaning.KeptOneByOne | services/transport-adapter/src/transport_adapter/stream_decompose.py:106-110 | event by event, one stays exactly if fewer than five before it have its summary |
| FrameStreams.CalendarStream | services/transport-adapter/src/transport_adapter/stream_decompose.py:100-128 | the first eight kept events, in order, each with its index |
| FrameMeaning.TimeTextIs | services/transport-adapter/src/transport_adapter/stream_decompose.py:114-120 | a timed event shows the five characters behind the first T, an all-day event or one without a T the first ten |
| FrameMeaning.EventFrameIs | services/transport-adapter/src/transport_adapter/stream_decompose.py:121-127 | the event's place, summary, time and flag under their keys |
| FrameStreams.FitAll | services/transport-adapter/src/transport_adapter/stream_decompose.py:54-54 | every frame of the stream is fitted, or none is delivered |
| FrameStreams.WeatherFits | services/transport-adapter/src/transport_adapter/stream_decompose.py:57-67 | a weather frame never raises for floats that print in at most 24 characters |
| FrameStreams.DayFits | services/transport-adapter/src/transport_adapter/stream_decompose.py:68-76 | nor does a forecast frame |
| FrameStreams.EventFits | services/transport-adapter/src/transport_adapter/stream_decompose.py:113-127 | a calendar frame never raises |
| CommandParser.CopyString | firmware/housepanel-giga/command_parser.cpp:18-21 | the buffer ends up holding the C string, cut to its size less one and terminated |
| CommandParser.CommandFrame.Parse | firmware/housepanel-giga/command_parser.cpp:5-77 | kind by command word, and each string field as its buffer stores it |
| CommandParser.StoredWhole | firmware/housepanel-giga/command_parser.cpp:18-21 | a text shorter than its buffer and free of NUL is stored whole |
| CommandParser.Arrives | firmware/housepanel-giga/command_parser.cpp:18-56 | so is any string capped below its buffer, however its frame was fitted |
| CommandParser.WeatherArrives | firmware/housepanel-giga/command_parser.cpp:25-33 | current conditions arrive unshortened in 32 bytes |
| CommandParser.DayLabelArrives | firmware/housepanel-giga/command_parser.cpp:35-41 | day labels in 4 |
| CommandParser.DayConditionsArrive | firmware/housepanel-giga/command_parser.cpp:35-45 | day conditions in 26 |
| CommandParser.SummaryArrives | firmware/housepanel-giga/command_parser.cpp:47-52 | event summaries in 52 |
| CommandParser.TimeArrives | firmware/housepanel-giga/command_parser.cpp:47-55 | event times in 18 |
| CommandParser.TickerArrives | firmware/housepanel-giga/command_parser.cpp:18-23 | ticker texts in 128, whatever else their frame holds |
| FrameDelivery.Show | firmware/housepanel-giga/command_parser.cpp:5-77 | what a panel has stored after parsing a frame |
| FrameDelivery.OtherKinds | firmware/housepanel-giga/command_parser.cpp:12-73 | the commands without strings are told apart too |
| FrameDelivery.ShowAll | services/transport-adapter/src/transport_adapter/stream_decompose.py:54-54 | all frames are fitted, sent and stored as the panel stores them, or none is sent |
| FrameDelivery.ShowWeather | services/transport-adapter/src/transport_adapter/stream_decompose.py:57-77 | a weather payload whose floats print as usual is always sent, and every string that is sent is stored whole by the panel |
| FrameDelivery.ShowCalendar | services/transport-adapter/src/transport_adapter/stream_decompose.py:100-128 | a calendar payload is always sent, and every summary and time that is sent is stored whole |
| FrameDelivery.ShowTicker | services/transport-adapter/src/transport_adapter/stream_decompose.py:18-53 | a ticker frame is sent unless its other contents are too large, and its text is stored whole as sent |
| LeastSquares.SpreadPositive | tools/check_memory.py:24-24 | the slope's denominator is positive for increasing cycles |
| LeastSquares.MeanCancels | tools/check_memory.py:23-24 | deviations from the mean cancel, so the sizes may be measured from any origin |
| LeastSquares.SlopeAtMost | tools/check_memory.py:23-24 | the least-squares slope is at most any bound on the rates between neighbouring points |
| LeastSquares.SlopeAtLeast | tools/check_memory.py:23-24 | and at least any lower bound on them |
| LeastSquares.SlopeIsLeastSquares | tools/check_memory.py:23-24 | no line has a smaller squared error, and one of any other slope has a larger one |
| MemoryGate.JudgedIsUnique | tools/check_memory.py:13-17 | first sample per cycle, in the order of cycles, determines what is judged |
| MemoryGate.KeptInOrder | tools/check_memory.py:11-13 | exactly the running samples past the warmup are kept, in their order; a sample without a cycle counts as 0 |
| MemoryGate.EarlierWins | tools/check_memory.py:15-17 | of two samples of one cycle the earlier is judged |
| MemoryGate.FirstPerCycle | tools/check_memory.py:14-16 | the loop keeps exactly the first sample of each cycle |
| MemoryGate.Select | tools/check_memory.py:14-17 | yields that selection, or the error of sorting samples without a cycle |
| MemoryGate.PassesWhen | tools/check_memory.py:25-35 | the gate passes if and only if the trend and every sample's growth over the first stay within their limits |
| MemoryGate.ErrorsAre | tools/check_memory.py:25-33 | which errors are raised, by which growth, and in which order |
| MemoryGate.VerdictIs | tools/check_memory.py:18-37 | too few samples, the errors, or the growth to the largest size with trend and number |
| MemoryGate.TrendIsLeastSquares | tools/check_memory.py:21-24 | the trend is the slope of least squared error through the judged samples, and no other |
| MemoryGate.TrendAtMost | tools/check_memory.py:21-24 | the trend never exceeds the greatest rate between neighbouring samples |
| MemoryGate.TrendAtLeast | tools/check_memory.py:21-24 | nor falls below the least |
| MemoryGate.SlowNeverTrips | tools/check_memory.py:29-30 | if no rate exceeds 1.024 KiB per poll the slope gate cannot fire |
| MemoryGate.FastAlwaysTrips | tools/check_memory.py:29-30 | if every rate exceeds it the slope gate must fire |
| MemoryGate.Judge | tools/check_memory.py:18-37 | the errors are collected in order and fail the release |
| MemoryGate.Assess | tools/check_memory.py:9-37 | the verdict is that on the one selection of the kept samples, which exists exactly when none lacks its cycle; otherwise the error of sorting |
| Releasing.GoodPass | tools/release_agent.py:152-172 | a pass, checked in the source's order, succeeds exactly when every service is well with steady pods, the panel is connected and keeps up, and all three pollers delivered since the start, in that one pass |
| Releasing.AllGoodIs | tools/release_agent.py:154-172 | good, answer by answer: what each service, its pods, the panel and each poller must say |
| Releasing.PassEnds | tools/release_agent.py:152-175 | a pass ends the verification exactly when the first check that is not good met an exception of the fatal kind; otherwise it is good or tried again |
| Releasing.FailingIsExact | tools/release_agent.py:179-187 | the named services are exactly those whose restore or its rollout failed |
| Releasing.FailingBackwards | tools/release_agent.py:180-185 | they are named in the order they were restored, the last changed first |
| Releasing.StepsAre | tools/release_agent.py:142-145 | how a step ends, by its two commands |
| Releasing.ChangedIsPrefix | tools/release_agent.py:140-145 | the changed services are those up to the first that fails, and that one |
| Releasing.RolledOutImage | tools/release_agent.py:142-145 | after the rollout exactly the changed services whose command took are at their targets |
| Releasing.RestoredImage | tools/release_agent.py:179-185 | after the rollback exactly the services restored at or after the last exception, by a command that took, are at their previous images |
| Releasing.StrandedIff | tools/release_agent.py:178-188 | after a failed release a service is off its previous image and unnamed if and only if it was set to another image, some restore raised more than a failed process, and its own came before that one's turn or did not take |
| Releasing.HarmlessEscape | tools/release_agent.py:180-188 | an exception escapes a restore and every image is as before |
| Releasing.EscapeLeavesOthers | tools/release_agent.py:180-188 | an exception ends the restore of the second service and the first stays at its target, named by nobody |
| Releasing.SignalledReleaseStrands | tools/release_agent.py:180-188 | a concrete release of that kind |
| Releasing.Cluster.RollOut | tools/release_agent.py:142-145 | sets the targets in order up to the first failure and touches nothing else |
| Releasing.Cluster.RollBack | tools/release_agent.py:179-185 | restores in reverse past failed processes; only another exception stops it |
| Releasing.RunPass | tools/release_agent.py:154-172 | a pass ends at its first bad check: services, panel, pollers |
| Releasing.Verify | tools/release_agent.py:150-177 | passes are repeated until one is wholly good, one raises an uncaught error, or the deadline is over |
| Releasing.Advance | tools/release_agent.py:141-177 | success means all targets set, both polls made and one pass wholly good |
| Releasing.Deploy | tools/release_agent.py:139-188 | returns exactly on success; otherwise the images are those of rolling out and back, it raises with all restored if and only if every restore succeeded, names exactly the failing services if only processes failed, and leaves a service off its image and unnamed exactly if that is stranded |

## Left out

- Cryptographic strength, and the code of AES, HMAC, SHA-256, Mbed sockets, FAT and the bootloader: arbitrary functions or outcomes.
- The host's `upload`, `status`, `bootstrap` and `build`: socket and file handling around the envelope.
- `ota_init` beyond `configure`: a server that never becomes ready does nothing.
- OtaReceiver.Configure: does not model configuring during a transfer, because the matcher would go on from the middle of the old identity and could read past the end of the new one.
- The receiver has the board's one sink.
- UPDATE.PART after a failed flush keeps its modelled contents; the file is removed by the abort that follows.
- The status text is an arbitrary string given to the step; its JSON fields play no role.
- Readings of the millisecond clock that directly follow each other are one parameter; during `UploadImage` all readings of one pass are.
- OtaReceiver.Sign: does not model truncation of the status text by its buffer, because the text is arbitrary.
- Handlers and sessions are values, each with its place in its coroutine and its local variables, since what matters is their interleaving; only the state they share is an object of its own.
- An image found in UPDATE.BIN at boot: nothing is said of it, since the firmware does not check it; arming never concerns it.
- One panel is modelled: panels share no state but the route that posts to each of them.
- Interrupt frames are not numbered: they are never discarded, and nothing is promised about their freshness.
- Loss-freedom of the websocket writer: the code does not promise it, since frames are dropped on discard, overload and timeout.
- asyncio itself: steps between awaits are atomic; a get that times out or is cancelled may have taken a frame, which is then lost.
- Memory telemetry, hostnames and frame counters of a panel, and the poller refresh triggered by HELLO: they do not affect delivery.
- Command names, bodies and event ids of the dispatch worker, and the wall-clock time of the last success: opaque to it.
- Cancellation of the worker in the middle of an attempt: the breaker's re-granting of a probe is modelled, runs with it are not.
- Starvation and latency in the worker: a backing-off head command blocks lower priorities by design.
- Lone surrogates and NaN in a frame: encoding raises before anything is fitted.
- Frames of SYSMON-UPDATE: one frame of numbers without strings to fit.
- CommandFrame.Parse: does not model the numbers and flags of a frame, because only strings are copied into bounded buffers.
- JSON parsing on the panel: a frame is looked up as its sender built it.
- Assess: does not model floating-point rounding of the slope or of the report, because the trend is computed over the reals.
- Samples that lack a size or a resource count: the source raises KeyError for them.
- Before the rollout: reading the images, the baseline health check, loading and pushing; and after it, the report to the repository.
- The 300 s of verification are the passes begun before the deadline; the checks within a pass are a sequence of outcomes.
- Display, fonts, touch, WiFi, metrics, logging, pollers, adapters, receivers, manifests and the mutation tester.
