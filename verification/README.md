# ESP-Iris, verified

ESP-Iris joins firmware in C and a gateway in Python by a byte link that keeps order but may lose frames. This project
models the stateful parts of both sides in Dafny and proves what they promise each other.

- `ShiftRegister`, `Crc`, `CrcDivision`, `Cobs`, `CobsLoops`, `Frames`: the frame on the wire, from the bit step of
  the checksum to the loops that stuff bytes into a buffer and unstuff them in place.
- `Receiver`, `Serial`: reception by the gateway's parser and by the firmware's pump, and the check of sequence
  numbers.
- `LogQueue`, `LogRing`, `LogCredit`: the log ring with its two cursors, what it means, and the flow control of the
  log.
- `FileService`, `FileTask`, `FileUpload`, `UploadRuns`, `Parts`: the device's file service and an upload over a link
  that loses any request or answer: safe on every run, and successful where it should be.
- `Ota`, `OtaRuns`: a firmware update with a window of unacknowledged parts and resumption.
- `SystemUpdate`, `SystemUpdateRuns`: the update of several components through a backend that may fail at any call.
- `CrashRecovery`: the record that survives resets, over whole histories of boots.
- `Scheduler`: the gateway's operations as atomic steps of interleaved coroutines.
- `Screen`, `Transport`, `Paths`, `Identity`: screen tiles, link ownership, path agreement and request identity.
- `Bytes`, `Arithmetic`: shared helpers.

Where the source changes fields or buffers in place, a class does the same, and its methods are tied by their
contracts to a function of the old state; the main results are about runs of those functions. What the outside world
decides is an argument: the bytes read and the space for writing, the disk, the clock, random numbers, the backend,
and which frames are lost. SHA-256 is a function parameter, so content equality never rests on the absence of
collisions.

Some promises do not hold as one might read them. They are stated as the code has them, with the exact condition:

- The firmware builds media frames in the receive buffer without asking whether a frame is half received
  (`esp_iris_services.c:1939`). Reception is independent of how the stream is cut if media are built between frames,
  and the receive state is safe from every media frame exactly when no frame is half received
  (`Receiver.MediaHarmlessIff`); otherwise any frame can be lost, whatever the reads (`Receiver.MediaLosesFrame`).
- A frame that renews the session throws away whatever was read behind it (`Receiver.RenewalSkips`). No byte read is
  ever thrown away exactly when no frame renews the session (`Receiver.SkipsNothingIff`).
- Lost log bytes are never given back to the gateway's credit. A link at rest can be granted more exactly when less
  than the low water has been lost and the device has the credit of a record header left (`LogCredit.GrantsAgainIff`);
  once the low water has been lost the log is silent for the rest of the session (`LogCredit.Starved`).
- An OTA update that ends with a disconnection counts as finished although the device may not have been told to end.
  For every image, a returned update has selected it on all runs exactly when its evidence is not a disconnection
  (`OtaRuns.EvidenceProves`); the source leaves the proof to the next boot.
- A pending request for recovery does not mean a count at the record's limit. A boot may raise the limit above the
  count, or start a new streak that is shorter, and the exact condition is `CrashRecovery.PendingLosesCountIff`. An
  image can then be restarted into recovery after one crash of its own: a boot restarts below the limit exactly under
  the condition of `CrashRecovery.RestartsBelowLimitIff`, and `CrashRecovery.PendingOutlivesLimit` is a history.
- An aborted write receipt does not mean an unchanged target: the file is in its place exactly when the rename was
  done and only the stat after it failed (`FileService.AbortedReceipt`).
- Releasing a device from maintenance unlocks whoever holds its lock. It is safe exactly when no serialized operation
  is inside, and so whenever the device is reserved (`Scheduler.ReleaseSafeIff`, `Scheduler.ReleasedTooEarly`).
- Tiles have sixteen bits for their first row. The wire keeps all of them exactly when the bottom of the frame fits
  sixteen bits, which nothing checks (`Screen.WireFaithfulIff`).

## Model

| member | source | states |
|---|---|---|
| ShiftRegister.StepLinear | components/esp_iris/src/esp_iris_codec.c:7-18 | the register after a byte of data xored with another is the xor of the two registers: every bit step is linear |
| ShiftRegister.StepInjective | components/esp_iris/src/esp_iris_codec.c:7-18 | no two register states meet in one bit step, so no error is ever forgotten by later bytes |
| ShiftRegister.WindowDetected | components/esp_iris/src/esp_iris_codec.c:7-18 | two messages of equal length that differ only inside four consecutive bytes, and end in one register, agree in the word those bytes lay over the register |
| Crc.ComputeChecksum | components/esp_iris/src/esp_iris_codec.c:7-18 | the two nested loops compute the CRC-32 of section 8 of RFC 1952 as a fold of the bit step |
| Crc.TwoCallChecksum | components/esp_iris/src/esp_iris_codec.c:131-134 | the checksum of header then payload in two calls is the checksum of their concatenation |
| CrcDivision.ChecksumIsRemainder | components/esp_iris/src/esp_iris_codec.c:7-18 | the checksum of any string is the complement of the remainder of long division of its bits, lowest of each byte first, thirty-two zeros behind them and the first thirty-two complemented, by x^32 + x^26 + x^23 + x^22 + x^16 + x^12 + x^11 + x^10 + x^8 + x^7 + x^5 + x^4 + x^2 + x + 1 |
| Crc.WindowDecided | components/esp_iris/src/esp_iris_codec.c:7-18 | and so in the four bytes: no burst of up to thirty-two bits leaves the register unchanged |
| Crc.Residue | components/esp_iris/src/esp_iris_codec.c:199-203 | a body is intact before its four checksum bytes exactly when the register ends in one fixed residue |
| Crc.BurstDetected | components/esp_iris/src/esp_iris_codec.c:199-203 | no two distinct decoded frames of equal length that differ only inside four consecutive bytes, the checksum included, can both pass the check |
| Cobs.EncodeZeroFree | components/esp_iris/tools/iris_gateway/protocol.py:284-303 | the code contains no delimiter byte |
| Cobs.EncodeLength | components/esp_iris/src/esp_iris_codec.c:45-108 | n bytes take between n + 1 and n + 1 + n/254 bytes |
| Cobs.RoundTrip | components/esp_iris/tools/iris_gateway/protocol.py:284-323 | decoding what was encoded gives it back |
| Cobs.ReEncode | components/esp_iris/tools/iris_gateway/protocol.py:306-323 | decoding is not injective: encoding again what a zero-free wire string decodes to gives the string, or the string and one more byte exactly when its last block is full |
| CobsLoops.EncodeLoop | components/esp_iris/tools/iris_gateway/protocol.py:284-303 | the gateway's loop over a growing buffer computes the block-wise code |
| CobsLoops.AfterEncodes | components/esp_iris/src/esp_iris_codec.c:60-97 | working byte by byte settles exactly the beginning of the block-wise code, whatever comes after |
| CobsLoops.EncodeStream | components/esp_iris/src/esp_iris_codec.c:110-145 | the streaming writer over header, payload and checksum writes the code of their concatenation and a zero, and refuses exactly when that does not fit the capacity |
| CobsLoops.Writer.Put | components/esp_iris/src/esp_iris_codec.c:60-86 | one byte into the wire buffer is one byte into the code under construction, and succeeds exactly when the code still fits |
| CobsLoops.DecodeInPlace | components/esp_iris/src/esp_iris_codec.c:147-170 | the in-place decoder, whose writes stay behind its reads, equals the block-wise decoder on every input, and reports the same two errors |
| Frames.EncodeInto | components/esp_iris/src/esp_iris_codec.c:110-145 | writes the wire form of a frame, with the checks of size and capacity |
| Frames.DecodeFrom | components/esp_iris/src/esp_iris_codec.c:172-217 | gives what the gateway's decoder gives, with the firmware's error for each failed check |
| Frames.FrameRoundTrip | components/esp_iris/tools/iris_gateway/protocol.py:325-394 | every frame that can be encoded, payloads of 4000 bytes included, fits a wire frame, holds one zero byte, its last, and decodes to itself |
| Frames.AcceptedIsImage | components/esp_iris/src/esp_iris_codec.c:172-217 | whatever passes all checks is, byte for byte, the plain form of the frame it yields |
| Frames.DecodesExactly | components/esp_iris/tools/iris_gateway/protocol.py:354-394 | a wire string decodes to a frame exactly when it unstuffs to that frame's plain form and the frame can be encoded |
| Receiver.FrameDecoder.Feed | components/esp_iris/tools/iris_gateway/protocol.py:397-427 | one call yields the frames that a byte-by-byte reference parser yields, from any state |
| Receiver.ParseConcat | components/esp_iris/tools/iris_gateway/protocol.py:405-427 | parsing two reads one after the other is parsing them joined |
| Receiver.ParseSegment | components/esp_iris/tools/iris_gateway/protocol.py:405-427 | of the bytes between two delimiters the parser makes nothing if there are none, a frame exactly if they decode to one, and otherwise, too many included, one complaint |
| Receiver.Resynchronises | components/esp_iris/tools/iris_gateway/protocol.py:405-427 | one zero byte brings any parser state back to the start, and the frame after it arrives |
| Receiver.FeedPendingTracks | components/esp_iris/src/esp_iris.c:626-667 | feeding stays on the reference and stops early only for a queued reply, so every handler starts with an empty transmit slot |
| Receiver.RunTracks | components/esp_iris/src/esp_iris.c:761-827 | over every run of passes, reads, stalls, replies, disconnections and renewed sessions, the handlers get exactly the frames of the reference on the bytes fed, and the bytes read are those fed, pending or skipped by a renewal, provided media are built between frames |
| Receiver.ChunkingIndependent | components/esp_iris/src/esp_iris.c:761-827 | under that proviso two runs over the same stream that skip nothing deliver the same frames, however it was cut and stalled |
| Receiver.SlotFirst | components/esp_iris/src/esp_iris.c:761-772 | while the transmit slot is taken nothing is read, fed or queued, and a disconnection asked for comes as soon as it is empty, before anything more is read |
| Receiver.ReactionTaken | components/esp_iris/src/esp_iris.c:626-655 | what a handler answers is what waits to be sent, and a disconnection it asks for stays asked for until then or a renewal |
| Receiver.IdleQueues | components/esp_iris/src/esp_iris.c:794-820 | an idle pass queues one frame, into an empty slot only, and sends what it can of it |
| Receiver.ClosesAtOnce | components/esp_iris/src/esp_iris.c:814-824 | a disconnection asked for while feeding comes in the same pass exactly if the reply is sent in it |
| Receiver.MediaHarmlessIff | components/esp_iris/src/esp_iris_services.c:1926-1957 | building a media frame in the receive buffer is harmless whatever it says exactly when no frame is half received |
| Receiver.MediaLosesFrame | components/esp_iris/src/esp_iris_services.c:1926-1957 | the failing family: any frame is lost when a media frame whose timestamp begins with a zero byte is built anywhere inside it, whatever reads its bytes arrive in, although the reference yields it |
| Receiver.RenewalSkips | components/esp_iris/src/esp_iris.c:669-693 | a frame that renews the session, and is reached without a reply queued before it in the same read, is handed over, and exactly the bytes behind its delimiter are thrown away, whatever state the parser was in |
| Receiver.SkipsNothingIff | components/esp_iris/src/esp_iris.c:782-793 | no run throws a byte away exactly when no frame renews the session |
| Receiver.Device.FeedRx | components/esp_iris/src/esp_iris.c:626-667 | the firmware's loop over its receive buffer refines the feeding of the model, also when a handler clears that buffer under it |
| Receiver.Device.PumpLink | components/esp_iris/src/esp_iris.c:761-827 | one pass over the real buffers is one pass of the model: flush, disconnect if asked, read only when all was fed, feed and move on unless the session is another, queue, flush, disconnect if asked |
| Serial.AcceptsRecords | components/esp_iris/src/esp_iris.c:594-607 | through loss, duplication and reordering by less than half the circle, a receiver accepts exactly the frames that are newer than all before, across any number of wrap-arounds |
| Serial.AcceptedInOrder | components/esp_iris/tools/iris_gateway/session.py:596-606 | accepted frames have strictly increasing true indices |
| Serial.FreshAccepted | components/esp_iris/tools/iris_gateway/session.py:596-606 | a newer frame less than half the circle ahead is always accepted |
| Serial.TooFarRefused | components/esp_iris/src/esp_iris.c:594-607 | and half the circle is the limit |
| Serial.Counters.Check | components/esp_iris/src/esp_iris.c:594-607 | one check moves the counter of an accepted frame's channel and nothing else |
| LogQueue.Cut | components/esp_iris/src/esp_iris_log.c:129-193 | the cursor moves to the first record from which everything fits, and not further |
| LogQueue.OfferValid | components/esp_iris/src/esp_iris_log.c:178-193 | the live records stay a suffix of the history, and the history within the capacity |
| LogQueue.RunSound | components/esp_iris/src/esp_iris_log.c:211-251 | over every interleaving of writes and pops: records are taken in order, none twice, and the dropped counter is exactly the payload that is neither taken nor live |
| LogQueue.EveryOfferKept | components/esp_iris/src/esp_iris_log.c:211-251 | over every run the history is what was offered, all of it and in order |
| LogQueue.PollsDrain | components/esp_iris/src/esp_iris_log.c:332-362 | with a budget for the largest record, polls take every live record, one after the other |
| LogQueue.NewestLive | components/esp_iris/src/esp_iris_log.c:211-251 | the newest record is always live when it has been written |
| LogQueue.SmallBudgetWaits | components/esp_iris/src/esp_iris_log.c:332-362 | a record that does not fit the budget stays, with all behind it |
| LogQueue.GapsVisible | components/esp_iris/src/esp_iris_log.c:332-362 | between two records received one after the other the 32-bit reported total rises, modulo 2^32, by exactly the payload of the records lost between them |
| LogRing.CursorStep | components/esp_iris/src/esp_iris_log.c:129-176 | what a cursor points at is a whole record, which fits in what is left, so the defensive resets are never taken |
| LogRing.CursorPush | components/esp_iris/src/esp_iris_log.c:103-114 | copying a header and its data in, wrapped or not, puts a record behind every cursor that leaves the room and disturbs none |
| LogRing.RecordsWhole | components/esp_iris/src/esp_iris_log.c:219-246 | log_write splits its text into records of 1 to 240 bytes without losing a byte |
| LogRing.Ring.DropOldest | components/esp_iris/src/esp_iris_log.c:129-149 | forgets exactly the oldest live record and counts its data |
| LogRing.Ring.DropOldestHistory | components/esp_iris/src/esp_iris_log.c:151-176 | forgets exactly the oldest retained record, never a live one |
| LogRing.Ring.LogWrite | components/esp_iris/src/esp_iris_log.c:211-251 | offers its records to the queue one after the other and always takes everything |
| LogRing.Ring.Pop | components/esp_iris/src/esp_iris_log.c:332-362 | hands over the oldest live record whole, with the dropped total modulo 2^32, exactly when it fits the budget |
| LogCredit.RunConserved | components/esp_iris/tools/iris_gateway/session.py:413-457 | the gateway's credit is always the device's plus what is on its way plus what was lost, so neither the clamp at zero nor the saturation is reached and the device never spends more than was granted |
| LogCredit.ClosedConserved | components/esp_iris/tools/iris_gateway/session.py:413-457 | and so over every run of a link that has not been opened yet |
| LogCredit.StepConserved | components/esp_iris/src/esp_iris.c:738-759 | each grant, record, arrival and loss keeps that balance |
| LogCredit.AnythingLost | components/esp_iris/src/esp_iris.c:738-759 | any grant or record under way may be lost, and is then counted as lost |
| LogCredit.GrantsAgainIff | components/esp_iris/tools/iris_gateway/session.py:420-457 | a link with nothing under way can be brought to a further grant, by some run, exactly when it has not been opened yet, or less than the low water has been lost and at least a record header's credit is left |
| LogCredit.OpeningGrants | components/esp_iris/tools/iris_gateway/session.py:409-432 | opening grants once, and that grant is what the device can spend |
| LogCredit.Starved | components/esp_iris/tools/iris_gateway/session.py:434-457 | once the low water has been lost nothing is ever granted again: lost bytes are never given back |
| FileService.TreeGuarded | components/esp_iris/src/esp_iris_files.c:1019-1097 | while a write stream is open a request changes nothing but its temporary file, except a commit after the size, digest and etag checks, which puts that file in the target's place |
| FileService.StreamGuarded | components/esp_iris/src/esp_iris_files.c:963-1119 | the temporary file grows only by a write at its very end, and the stream closes only by its own requests |
| FileService.OpenStreamFreezes | components/esp_iris/src/esp_iris_files.c:1364-1420 | over all request sequences: while a stream stays open the rest of the tree is the one it was opened on, and its file is the concatenation of the accepted writes |
| FileService.AbortedReceipt | components/esp_iris/src/esp_iris_files.c:1071-1097 | a commit's receipt is aborted unless it installed and the last stat worked, and an aborted commit has changed the tree outside the temporary file exactly when it installed and that stat failed |
| FileService.OpensIff | components/esp_iris/src/esp_iris_files.c:849-961 | a write stream is opened exactly when no handle is open, the target is absent or a file to be overwritten, its etag is the one asked for, a name is free and nothing fails; it is then empty, and the rest of the tree as it was |
| FileService.SessionEndClears | components/esp_iris/src/esp_iris_files.c:1432-1442 | the end of a session leaves it neither handle, nor temporary file, nor receipt, and takes from other sessions none |
| FileService.FailedOpenLeaves | components/esp_iris/src/esp_iris_files.c:911-961 | an opening that fails leaves the tree as it was, or an empty temporary file if the hash engine fails and then the unlink |
| FileService.WrittenIff | components/esp_iris/src/esp_iris_files.c:963-1017 | exactly which writes are acknowledged; a refused one changes nothing, a failing one ends the stream with the receipt of what had been acknowledged |
| FileService.DiskTakesUntil | components/esp_iris/src/esp_iris_files.c:992-1001 | short writes add up to the first that fails, and to no more than there is |
| FileService.CommittedIff | components/esp_iris/src/esp_iris_files.c:1019-1097 | exactly which commits succeed; any other on the open stream ends it, with a receipt of the status answered |
| FileService.ChangedTargetKept | components/esp_iris/src/esp_iris_files.c:1055-1070 | a commit never replaces a target that has become another file, by its etag, or has appeared since the opening |
| FileService.AbortAndStatus | components/esp_iris/src/esp_iris_files.c:1099-1160 | an abort ends its own stream only, and a status question is answered truly and changes nothing |
| FileService.OneHandle | components/esp_iris/src/esp_iris_files.c:1364-1420 | while the one handle is open every opening and rearrangement is refused, and only its own session uses or closes it |
| FileTask.Task.CloseHandle | components/esp_iris/src/esp_iris_files.c:491-507 | whatever was open, leaves a blank record, and removes exactly the temporary file of a writing handle if the unlink works |
| FileTask.Task.WriteAll | components/esp_iris/src/esp_iris_files.c:992-1001 | the loop over short writes appends the data once and in order, up to the first failure |
| FileTask.Task.CreateTemp | components/esp_iris/src/esp_iris_files.c:911-932 | takes the first free of eight names, or fails without a trace |
| FileTask.Task.HandleWriteOpen | components/esp_iris/src/esp_iris_files.c:849-961 | refines the opening of a stream; a failure leaves no descriptor, and no temporary file unless its unlink fails too |
| FileTask.Task.HandleWrite | components/esp_iris/src/esp_iris_files.c:963-1017 | refines one accepted, refused or failing write |
| FileTask.Task.HandleCommit | components/esp_iris/src/esp_iris_files.c:1019-1097 | refines the commit, including the receipt that says aborted after a rename whose stat failed |
| FileTask.Task.ProcessWork | components/esp_iris/src/esp_iris_files.c:1364-1420 | every request keeps: directory open iff listing, descriptor open iff reading or writing, temporary file iff writing, and file, hash and count agree |
| FileTask.Task.EndSession | components/esp_iris/src/esp_iris_files.c:1432-1442 | the end of a session closes its handle and forgets its receipt |
| FileUpload.PlanExact | components/esp_iris/tools/iris_gateway/files.py:362-402 | the chunks are found to have the declared size exactly when they do, and the parts sent are then the body |
| FileUpload.StepSafe | components/esp_iris/tools/iris_gateway/files.py:362-447 | every step of either side or of the link keeps: the temporary file is the first parts, at the gateway's count or one ahead |
| FileUpload.UploadExactlyOnce | components/esp_iris/tools/iris_gateway/files.py:324-447 | whatever is lost, late, refused, failing or asked by others: when upload returns, the whole body, of the declared size, has been put in the target's place, and once |
| FileUpload.UnexpectedEnds | components/esp_iris/tools/iris_gateway/files.py:374-447 | whoever answers, an answer that is not one of those awaited makes upload abort, or raise if there is nothing to abort any more |
| FileUpload.TurnsTaken | components/esp_iris/tools/iris_gateway/files.py:374-447 | one request at a time on either side, only its own answer ends a wait, and others may ask at any moment the device is free |
| UploadRuns.UploadSucceeds | components/esp_iris/tools/iris_gateway/files.py:324-447 | a body of the declared size ends up in the target's place, and upload returns, whichever of the requests and answers of each part and of the commit are lost once, and however often, up to the limit, the device is too busy to say how far it is; it raises only if the commit is lost both ways |
| UploadRuns.UploadCanReturnIff | components/esp_iris/tools/iris_gateway/files.py:362-447 | an opened upload can return, on some run, exactly when the body has the declared size |
| UploadRuns.SendingRound | components/esp_iris/tools/iris_gateway/files.py:374-402 | each part that is acknowledged counts, each that times out is asked about, and each that is refused ends the upload |
| UploadRuns.CheckingRound | components/esp_iris/tools/iris_gateway/files.py:314-402 | the answer to the question moves on, sends again once, or gives up, and a busy device is asked again up to twelve times |
| UploadRuns.AbortClears | components/esp_iris/tools/iris_gateway/files.py:447-459 | an upload that fails before its commit takes its temporary file away and leaves the rest of the tree |
| FileUpload.InstallReplaces | components/esp_iris/src/esp_iris_files.c:1071-1088 | the step that installs leaves the target a file of exactly those bytes |
| FileUpload.CommitMeetsWhole | components/esp_iris/src/esp_iris_files.c:1037-1054 | a commit never meets an incomplete file or another digest |
| Parts.CutWhole | components/esp_iris/tools/iris_gateway/files.py:370-373 | the parts of a chunk joined are the chunk, each of 1 to chunk_max bytes |
| Ota.StepSafe | components/esp_iris/tools/iris_gateway/session.py:929-1045 | every step keeps: flash is the first parts of the image, the gateway counts on no more, and the device is at most one window ahead |
| Ota.OtaSafe | components/esp_iris/tools/iris_gateway/session.py:929-1045 | for every pattern of losses, timeouts, refusals and aborts: flash is image[0..received), the gateway's offset never exceeds it, no unexpected offset or invalid progress is ever met, and an update believed on the device's word has selected the whole image |
| OtaRuns.UpdateEnds | components/esp_iris/tools/iris_gateway/session.py:929-1045 | whichever requests and answers of the parts are lost, the device gets the whole image; it selects it exactly if it has the digest announced, and the gateway learns that from END, or from the job table if the answer to END is lost |
| OtaRuns.SelectedGenuine | components/esp_iris/src/esp_iris_services.c:1735-1812 | over every run nothing is selected unless the image has the digest announced |
| OtaRuns.UpdateCanReturnIff | components/esp_iris/tools/iris_gateway/session.py:1006-1045 | an update can return on the device's word, on some run, exactly when the image has the digest announced |
| OtaRuns.DisconnectProvesLess | components/esp_iris/tools/iris_gateway/session.py:1029-1035 | for every image there is a run in which the device has written all of it, part by part and window by window, and the update is believed because the link dropped, although nothing was selected |
| OtaRuns.EvidenceProves | components/esp_iris/tools/iris_gateway/session.py:1006-1045 | for every image, that a returned update has selected it holds on all runs exactly when its evidence is not a disconnection |
| Ota.DataWrittenIff | components/esp_iris/src/esp_iris_services.c:1701-1734 | exactly which data the device writes and acknowledges; a failure to write stops the transfer, anything else it refuses changes nothing |
| Ota.SelectedIff | components/esp_iris/src/esp_iris_services.c:1735-1812 | END selects, and answers so, exactly when the transfer is active and complete, the flash has the digest announced and every later check passes; then it selects what was written |
| Ota.CancelStops | components/esp_iris/src/esp_iris_services.c:1567-1700 | a cancellation stops what is active, and questions change nothing and are answered truly |
| Ota.WaitsItsTurn | components/esp_iris/tools/iris_gateway/session.py:929-1045 | one question at a time, and no more parts under way than the window holds |
| Ota.AbortStops | components/esp_iris/src/esp_iris_services.c:1701-1812 | a device that stops on its own ends its transfer, and an error of the gateway its update |
| Ota.ServeCounts | components/esp_iris/src/esp_iris_services.c:1701-1812 | whatever is asked of it, in any order, the device writes contiguously and never more than was announced |
| Ota.FailuresEnd | components/esp_iris/tools/iris_gateway/session.py:929-1045 | errors and timeouts bring the update to an end in two steps, and only a link that drops while END is under way counts as success |
| Ota.BusyAnswers | components/esp_iris/src/esp_iris_executor.inc:262-378 | while its service task is busy the device answers for it, truly or with an error, and drops no request |
| Ota.BadProgressCaught | components/esp_iris/tools/iris_gateway/session.py:978-992 | a complete window in which any answer says anything else than where its part ends is caught |
| Ota.BadOffsetCaught | components/esp_iris/tools/iris_gateway/session.py:956-975 | a resumption at an offset that is no end of a part in the window is caught |
| OtaRuns.CancelHeard | components/esp_iris/tools/iris_gateway/session.py:1036-1039 | a gateway that has given up stops the device, and raises |
| Ota.AcceptsNext | components/esp_iris/src/esp_iris_services.c:1701-1734 | a write the device accepts is the next part, so no byte is written twice |
| Ota.SliceIsPart | components/esp_iris/tools/iris_gateway/session.py:934-940 | the slice the gateway takes at a part's offset is that part |
| Ota.Transfer.HandleData | components/esp_iris/src/esp_iris_services.c:1701-1734 | refines one accepted, refused or failing write |
| Ota.Transfer.HandleEnd | components/esp_iris/src/esp_iris_services.c:1735-1812 | selects the flash contents exactly when size, digest and all later checks pass |
| SystemUpdate.StepSound | components/esp_iris/src/esp_iris_system_update.c:231-612 | every request, cancellation and session end, whatever the backend answers, leaves a record of calls that an independent ledger accepts |
| SystemUpdate.EveryPrepareClosesOnce | components/esp_iris/src/esp_iris_system_update.c:92-148 | over every run each prepare is closed by one successful commit or one abort, except the one in progress, and no other starts before that |
| SystemUpdate.ClosedOnce | components/esp_iris/src/esp_iris_system_update.c:92-112 | in any record the ledger accepts, prepares and closings balance |
| SystemUpdate.CommitMeans | components/esp_iris/src/esp_iris_system_update.c:543-588 | commit is called only when as many distinct non-zero components as announced have each received exactly their declared bytes, contiguously, with their digest, since the prepare |
| SystemUpdate.EveryCommitComplete | components/esp_iris/src/esp_iris_system_update.c:543-588 | over every run, before each call to commit on record, as many distinct components as the last prepare announced had been delivered since it |
| SystemUpdate.EveryCommitUncancelled | components/esp_iris/src/esp_iris_system_update.c:560-588 | over every run each call to commit was added by a commit request at which no cancellation was pending |
| SystemUpdate.CancelledCommitAborts | components/esp_iris/src/esp_iris_system_update.c:560-574 | a commit request that meets a pending cancellation adds one abort and fails the update |
| SystemUpdate.RefusedCommitAborts | components/esp_iris/src/esp_iris_system_update.c:543-588 | a commit that the backend refuses is answered by an abort, and fails the update |
| SystemUpdate.CancelEnds | components/esp_iris/src/esp_iris_system_update.c:92-112 | a cancelled job or an ended session leaves no update in progress and aborts the one there was, once |
| SystemUpdate.CancelAnswered | components/esp_iris/src/esp_iris_system_update.c:590-612 | only the operation in progress can be cancelled by request |
| SystemUpdate.FaultsEndUpdate | components/esp_iris/src/esp_iris_system_update.c:231-588 | a request that only a fault or a cancellation makes fail leaves no update in progress |
| SystemUpdate.AcceptedRequests | components/esp_iris/src/esp_iris_system_update.c:231-588 | an accepted begin had the manifest it announced, a repeated one was the very same, and nothing accepted met a fault or a cancellation |
| SystemUpdate.RecordTells | components/esp_iris/src/esp_iris_system_update.c:231-588 | the record tells of each call what the backend answered |
| SystemUpdateRuns.UpdateSucceeds | components/esp_iris/src/esp_iris_system_update.c:231-588 | from any state with none in progress, an update whose announcements are true is committed, for any components in any parts, with exactly the backend calls it takes |
| SystemUpdate.StepClimbs | components/esp_iris/src/esp_iris_system_update.c:134-148 | the reported progress never falls within an update and stays between 50 and 900 until the commit |
| SystemUpdate.ProgressNeverFalls | components/esp_iris/src/esp_iris_system_update.c:134-148 | over every run, from any point on, the progress does not fall before a new update starts, and stays in its range |
| SystemUpdate.ProgressClimbs | components/esp_iris/src/esp_iris_system_update.c:134-148 | more bytes never mean less progress, and the end of a component leaves it where it is |
| SystemUpdate.Updater.BackendAbort | components/esp_iris/src/esp_iris_system_update.c:92-112 | aborts once, and only an update in progress |
| SystemUpdate.Updater.HandleBegin | components/esp_iris/src/esp_iris_system_update.c:231-339 | refines the start of an update, its repetition and its failures |
| SystemUpdate.Updater.HandleComponentBegin | components/esp_iris/src/esp_iris_system_update.c:341-408 | refines the start of a component not yet completed |
| SystemUpdate.Updater.HandleData | components/esp_iris/src/esp_iris_system_update.c:410-469 | refines one accepted, refused or failing write |
| SystemUpdate.Updater.HandleComponentEnd | components/esp_iris/src/esp_iris_system_update.c:471-541 | refines the end of a component that is complete and has its digest |
| SystemUpdate.Updater.HandleCommit | components/esp_iris/src/esp_iris_system_update.c:543-588 | refines the commit and its last cancellation point |
| CrashRecovery.RunTells | components/esp_iris/src/esp_iris_crash_recovery.c:258-291 | over every history of boots and calls, the failed image is valid exactly when the count is positive, and the count is the saturating streak of counted crashes blamed on one image since the last clear |
| CrashRecovery.FreshTells | components/esp_iris/src/esp_iris_crash_recovery.c:220-291 | and so for every history that starts from an absent record |
| CrashRecovery.RequestedForReason | components/esp_iris/src/esp_iris_crash_recovery.c:293-302 | from a cleared record recovery is requested only once a streak has reached the limit |
| CrashRecovery.RequestedFromFresh | components/esp_iris/src/esp_iris_crash_recovery.c:293-302 | from an absent record recovery is never requested before a streak has reached the least limit of the builds booted |
| CrashRecovery.CrashLoopRequests | components/esp_iris/src/esp_iris_crash_recovery.c:258-302 | an image that keeps being started has recovery requested exactly when its crashes have reached the limit, however many ordinary resets lie between them |
| CrashRecovery.RequestsIff | components/esp_iris/src/esp_iris_crash_recovery.c:293-302 | a boot leaves recovery requested exactly when it was, or the build restarts and the crashes of the image that runs have reached its limit |
| CrashRecovery.CalmHistory | components/esp_iris/src/esp_iris_crash_recovery.c:143-161 | histories without a panic, watchdog or lock-up, or a power fault where those count, never raise the count nor request recovery |
| CrashRecovery.BlamedIffCrash | components/esp_iris/src/esp_iris_crash_recovery.c:143-161 | a reset is blamed on the image started before it exactly if it is one of those |
| CrashRecovery.LimitRemembered | components/esp_iris/src/esp_iris_crash_recovery.c:136-141 | recovery firmware goes by the limit of the last normal application that ran |
| CrashRecovery.LimitOfBuild | components/esp_iris/src/esp_iris_crash_recovery.c:136-141 | and by its own if none has run |
| CrashRecovery.RestartsAgainIff | components/esp_iris/src/esp_iris_crash_recovery.c:317-343 | after a restart into recovery the next boot restarts again exactly when it runs the image given up, so never when it runs the partition selected |
| CrashRecovery.PendingLosesCountIff | components/esp_iris/src/esp_iris_crash_recovery.c:258-302 | a boot leaves a pending request pending, and its count below the record's limit of that moment exactly when that limit is above the count if no crash is counted, above one if a crash is blamed on another image than the failed one, and above the count and one more otherwise |
| CrashRecovery.PendingOutlivesStreak | components/esp_iris/src/esp_iris_crash_recovery.c:274-282 | a history in which that happens: a crash of the recovery image starts a new streak |
| CrashRecovery.PendingOutlivesLimit | components/esp_iris/src/esp_iris_crash_recovery.c:288-302 | a history in which a new image raises the limit above the count of a pending request, and is restarted into recovery by its first crash |
| CrashRecovery.RestartsBelowLimitIff | components/esp_iris/src/esp_iris_crash_recovery.c:258-343 | exactly when a boot restarts into recovery with fewer crashes on record than its limit: a request is pending, there is somewhere to go, and the running image is the one blamed, for this crash or before |
| CrashRecovery.RequestLasts | components/esp_iris/src/esp_iris_crash_recovery.c:293-302 | a request lasts through any boots and calls until the history is reset or a normal application is healthy |
| CrashRecovery.Tracker.Probe | components/esp_iris/src/esp_iris_crash_recovery.c:220-352 | the probe edits the stored record as the model says and reports a planned restart exactly after one |
| CrashRecovery.Tracker.Poll | components/esp_iris/src/esp_iris_crash_recovery.c:468-478 | clears the record once, when the deadline has passed |
| Scheduler.SchedulerSafe | components/esp_iris/tools/iris_gateway/operations.py:285-411 | over all interleavings and restarts in which devices are released only while reserved or with nobody inside: no operation is called twice, no two serialized calls run on a device and none while it is reserved, and what was cancelled is never called |
| Scheduler.TerminalForever | components/esp_iris/tools/iris_gateway/state_machine.py:45-82 | a finished row never changes |
| Scheduler.RequestForever | components/esp_iris/tools/iris_gateway/store.py:245-270 | an operation id stays with the device and fingerprint it was first used for, through anything, so using it again never makes a second row |
| Scheduler.Served | components/esp_iris/tools/iris_gateway/operations.py:285-411 | an operation that nothing disturbs is called once, finished with the outcome of its call, and leaves everything else as it was |
| Scheduler.SubmitStarts | components/esp_iris/tools/iris_gateway/operations.py:285-326 | a new row waits if its call is serialized, and runs at once otherwise; nothing is called yet |
| Scheduler.OutOfTurn | components/esp_iris/tools/iris_gateway/operations.py:328-411 | a coroutine moves only from the stage whose await has come back |
| Scheduler.RestartFinishes | components/esp_iris/tools/iris_gateway/cli.py:90-118 | a restart finishes every unfinished row, as interrupted or of unknown outcome, and no other |
| Scheduler.CancelledInTime | components/esp_iris/tools/iris_gateway/operations.py:263-337 | an operation cancelled while it waits never starts, and gives the lock back |
| Scheduler.KilledWhere | components/esp_iris/tools/iris_gateway/operations.py:311-365 | what a killed operation leaves behind, stage by stage: a finished row if it had been called, and its pending record if its row was still being announced |
| Scheduler.MaintenanceCycle | components/esp_iris/tools/iris_gateway/operations.py:85-110 | maintenance closes the gate at once, waits for the lock, holds it, and gives both back |
| Scheduler.ReleaseSafeIff | components/esp_iris/tools/iris_gateway/operations.py:105-110 | releasing a device keeps the invariants exactly when no serialized operation is inside, and so whenever it is reserved |
| Scheduler.ReleasedTooEarly | components/esp_iris/tools/iris_gateway/operations.py:105-110 | released in the middle of any serialized call, the device can be given a second call at the same time |
| Scheduler.StepSafe | components/esp_iris/tools/iris_gateway/operations.py:85-130 | every step keeps the lock with the one operation inside, or with maintenance |
| Scheduler.OperationManager.Execute | components/esp_iris/tools/iris_gateway/operations.py:285-326 | in one step: refused for a gated device, a conflict for an id of another or unverifiable request, the stored row for the same request, and otherwise a new row, and only then any change |
| Scheduler.OperationManager.EnterLock | components/esp_iris/tools/iris_gateway/operations.py:328-337 | a cancelled operation stops at the lock |
| Scheduler.OperationManager.CancelOne | components/esp_iris/tools/iris_gateway/operations.py:263-276 | cancels a pending operation that does not run yet |
| Scheduler.OperationManager.ReleaseGate | components/esp_iris/tools/iris_gateway/operations.py:105-110 | lifts the gate and unlocks whoever holds the lock, which keeps a safe manager safe exactly when nobody is inside |
| Screen.Tiler.Prepare | components/esp_iris/src/esp_iris_services.c:1881-1922 | a tile is prepared exactly when none waits, the frame is due, the credit suffices and the backend gives whole rows; the tiles partition each frame exactly, and what waits is the tile cut to sixteen bits |
| Screen.Tiler.Send | components/esp_iris/src/esp_iris_services.c:1926-1957 | the tile that waits is sent, in order and once, for its size in credit, which is always there |
| Screen.WireFaithfulIff | components/esp_iris/src/esp_iris_services.c:275-287 | no tile is changed by its sixteen-bit fields exactly when the bottom of the frame fits sixteen bits |
| Screen.SentArrives | components/esp_iris/src/esp_iris_services.c:1881-1957 | when it fits, any tiles sent, picked in order by a link that loses the rest, are what the gateway's assembly expects |
| Screen.FramesComplete | components/esp_iris/tools/iris_gateway/hub.py:49-96 | of the tiles of one device, however many are lost, the gateway never complains; it returns a raw frame exactly when some frame has lost no tile, and then the first such frame, every row in order, once |
| Screen.FramesComposed | components/esp_iris/tools/iris_gateway/hub.py:64-94 | whatever arrives, a raw frame is composed of regular tiles of one number without gap or overlap, and only an irregular tile is complained of |
| Screen.EncodedFirst | components/esp_iris/tools/iris_gateway/hub.py:58-63 | of encoded pictures the first that is not empty is returned as it is |
| Screen.NextCompleteFrame | components/esp_iris/tools/iris_gateway/hub.py:49-96 | the loop over the queue computes that assembly |
| Screen.GatherNext | components/esp_iris/tools/iris_gateway/hub.py:64-88 | the tile that continues what has been gathered is the very next one the device emitted |
| Transport.TurnOwned | components/esp_iris/src/esp_iris.c:829-851 | at every turn of the worker there is a session exactly while a transport is claimed, authenticated exactly while the claim is committed |
| Transport.ReadyIffVouched | components/esp_iris/src/esp_iris.c:418-462 | over every run from an unclaimed link: the session is ready exactly when an authentic HELLO_ACK has been heard since the claim and no authentic request for a new session after it; then no other driver runs |
| Transport.UnclaimedEarned | components/esp_iris/src/esp_iris_transport.c:119-172 | an unclaimed link, as at the start, is one from which that holds |
| Transport.ClaimsIff | components/esp_iris/src/esp_iris_transport.c:146-172 | an unclaimed link claims exactly when some driver that runs or starts has a client and need not wait |
| Transport.ClaimExpires | components/esp_iris/src/esp_iris_transport.c:119-145 | a claim ends exactly when its client leaves or its deadline passes without authentication, and what that leaves of each driver |
| Transport.RenewalStartsAnew | components/esp_iris/src/esp_iris.c:425-438 | an authentic request for a new session takes the authentication and starts the claim's time anew |
| Transport.ReadyOutlivesDeadline | components/esp_iris/src/esp_iris_transport.c:119-145 | an authenticated session ends only when its client leaves, never by the claim timeout |
| Transport.EventsAlternate | components/esp_iris/src/esp_iris_transport.c:119-172 | link up and link down alternate over every run |
| Transport.ClaimedInTime | components/esp_iris/src/esp_iris_transport.c:146-172 | over every run of turns, through claims that fail, are committed, renewed or lost: a transport that is ready whenever the run scans is among any so many claims in a row as there are transports, and sooner the nearer it is to the scan's start |
| Transport.Manager.PollLinks | components/esp_iris/src/esp_iris_transport.c:119-172 | the poll refines the model, its round-robin loop included |
| Transport.Manager.Commit | components/esp_iris/src/esp_iris_transport.c:224-233 | commits the claim and stops every other driver |
| Paths.ScanIffEncoded | components/esp_iris/src/esp_iris_files.c:150-193 | the device takes exactly the UTF-8 encodings (sections 3 and 4 of RFC 3629) of texts without C0 controls or DEL |
| Paths.ValidUtf8 | components/esp_iris/src/esp_iris_files.c:150-193 | the loop with its continuation bytes is that scan |
| Paths.ScanComponents | components/esp_iris/src/esp_iris_files.c:226-242 | the single pass accepts exactly the paths without backslash whose split at every slash has no empty or dot component |
| Paths.ValidRelativePath | components/esp_iris/src/esp_iris_files.c:216-243 | decides what the device accepts |
| Paths.PathsAgree | components/esp_iris/tools/iris_gateway/files.py:69-81 | the gateway accepts a text exactly when the device accepts its encoding |
| Paths.PackedDecodes | components/esp_iris/src/esp_iris_files.c:349-383 | the device recovers the volume and the path the gateway packed |
| Paths.DecodedPacks | components/esp_iris/src/esp_iris_files.c:349-383 | and accepts no other bytes for them |
| Identity.AgreeIffSameForm | components/esp_iris/tools/iris_gateway/operation_identity.py:14-25 | canonical forms are equal exactly when the values agree up to entry order, list or tuple, and the length and digest of bytes |
| Identity.FingerprintsMatchIff | components/esp_iris/tools/iris_gateway/operation_identity.py:28-34 | with a hash that tells forms apart, fingerprints match exactly when the requests agree |

## Left out

- Sockets, USB, serial ports, mDNS, HTTP routes, the command line and the user interface: input and output.
- SQLite, JSON text, the file system and NVS: rows are a map that keeps what was inserted first, files a map from paths to contents, the crash record one value whose reads and writes succeed.
- Pairing, HMAC, ECDSA and the strength of SHA-256: authentication is a yes or no of the environment.
- Real time: every timeout may fire at any moment, and nothing is claimed about retry loops ending.
- FileUpload.UploadExactlyOnce: request ids are unbounded, so a wrap of the 32-bit id during one upload is not modelled, and no later stream is given the same random id.
- FileService.Process: the malformed payloads of each request beyond the fields used, path resolution and volume capabilities are one answer of the environment; reading and listing answer without their data.
- FileService.Etag: the etag is a function of size and time, and a directory never has the etag of a file.
- Ota.OtaSafe: one update per run; the job table's other entries and the running firmware's own updates are not modelled, and what a failed flash write leaves behind is not described.
- Ota.Arrive: the service task's snapshot is taken in the same step that ends a request.
- Receiver.RunTracks: one link; what a lost and regained link clears is not modelled, a renewed session draws another random id, and the pass after a disconnection finds what the environment gives it.
- Screen.NextCompleteFrame: frame numbers do not wrap, one stream is followed, and the tiles are those of a frame whose bottom fits sixteen bits.
- Scheduler.SchedulerSafe: a failing event sink between inserting a row and its announcement is a killed coroutine. The callers release once per successful acquisition or restored lease, so each release is of a reserved device; what an acquisition still waiting does after any other release is not followed.
- Scheduler.OperationManager.Execute: each method is one stretch between two awaits, and the order in which asyncio serves a lock's waiters is left open.
- CrashRecovery.RunTells: a boot whose record cannot be read or written is not modelled.
- LogRing.Ring.Reset: the stop of the service, which clears only the live cursor, is not modelled; the ring is reset before it is used again.
- Serial.AcceptsRecords: nothing is claimed once a frame is displaced by half the circle or more, beyond Serial.TooFarRefused.
- Identity.AgreeIffSameForm: floats are their JSON texts, so two spellings of one number are different; NaN is refused before.
- The job table, TLV records, the state transition tables alone, core-dump and byte-range reading, and image conversion: only easy members.
