# Verification models of naleystogramm's protocol engines

Dafny models of the stateful cores of the naleystogramm messenger, each proved against the properties its code and comments promise:

- **File transfer** (`TransferModel`, `Sender`, `Receiver`, `Pausing`, `Exchange`, `FileTransfer`, with `Nonce`, `Bytes`, `Int64`, `Chunks`, `FileNames`): offer, accept, 64 KiB chunks sealed under a nonce per sequence number, in-order acceptance, size and hash checks, pause, resume, cancel, and where the received file is stored.
- **Session layer** (`Framing`, `RateLimit`, `IpBan`, `SendQueue`, `Reconnect`): newline framing over arbitrary reads, the rate window, ban records, the offline queues and their draining, reconnecting with capped backoff.
- **Calls** (`CallModel`, `CallPair`, `CallSetup`, `CallManager`): the call state machine with its generation-stamped timers, two parties joined by a signalling link, and how a call comes up and ends on it.
- **UPnP mapper** (`UpnpModel`, `UpnpOutcome`, `UpnpMapper`, `Dechunk`): asynchronous discovery with retries and supersession, what a call is told and when, and the decoder of chunked bodies.
- **Remote shell** (`ShellModel`, `ShellPair`, `RemoteShellManager`): sessions opened by a one-time password, their processes and inactivity timers, and the two ends of a session.
- **Address strings** (`Identity`, `Text`, `Parsing`): a printer and two parsers, and what the number parsers accept.

Run `dafny verify dfyconfig.toml` (Dafny 4.11) in this directory.

## How the models are built

Each engine is a class whose fields are the source's fields and whose methods are the source's handlers. A handler is one atomic step: the source runs it under a mutex or on the single io thread. Every method is proved to do exactly what a specification function says (`Step`, or one function per handler), and the runs, invariants and theorems are about that function. Two such machines joined by a link (`Exchange`, `CallPair`, `CallSetup`, `ShellPair`) show what one end's frames do at the other. Time, random choices, the answers of sockets, of the encryption layer, of the media engine and of the file system, and the choice of which timer or completion handler runs next are inputs of a step. What leaves an engine (frames, notices to listeners, writes) is appended to a log field.

An asynchronous operation is an entry in a multiset or map from the moment it is started until its handler runs. Cancelling does not remove the entry: the handler of a pending timer still runs, told that it was aborted, and one that was queued before runs in full. The proofs show when that is harmless.

Cryptography is symbolic: a sealed box opens only under its own key and nonce, and SHA-256 is injective. JSON, base64, hex and the Double Ratchet are abstract: a frame is the value it decodes to, and whether a line parses to an object is a function parameter.

## What does not hold, and when it does

Where the code falls short of what one would expect, the model keeps the code, a lemma gives a concrete case or the exact condition:

- **A late FILE_ACCEPT** reopens the file at its start without resetting the counters. Stream and frame stay right exactly when the accept sends nothing or nothing had been counted (`Sender.AcceptAlignedIff`; for the stream alone a file of less than one chunk is harmless too, `Sender.AcceptKeepsInvIff`). Otherwise the file goes out again from its start under the numbers that were due, which is right exactly when every chunk equals the one that many chunks further (`Sender.LateAcceptRightIff`). A late accept followed by a resume seals two plaintexts under one key and nonce exactly when two chunks differ (`Sender.AcceptThenResumeReusesNonce`, from the offer on `Sender.SecondAcceptThenResumeReusesNonce`). Under the guard no run does (`Sender.NonceNeverReused`).
- **Resuming** skips one chunk: the receiver asks with the number of chunks it has and the sender, from memory or from its saved state, adds one (`Receiver.ResumeSkipsAChunk`). Such a transfer is never reported, however many chunks were there and however many resumes follow, unless an acknowledgement sets the counter back (`Receiver.ResumeNeverCompletes`); right after the resume that repairs it exactly when it names the number of chunks there were (`Receiver.AckBackRepairsIff`). In general an acknowledgement keeps the temporary file a prefix of the sent file exactly when it names the number of chunks already there (`Receiver.AckKeepsPrefixIff`).
- **The end of a resumed stream** is found by a count of bytes that a resume in memory leaves alone: the last mark and the completion come where they belong exactly when the stream goes on after the chunks that were counted (`Sender.ResumeEndsRightIff`). A resume from the saved state counts one chunk less than it skips, so that no frame is marked last and nothing completes (`Sender.SavedResumeNeverEnds`).
- **A resume far beyond the file** computes a position that 64 bits cannot hold (`TransferModel.ResumePositionIff`): after chunk 2^48 - 1 the program starts again at position 0 under number 2^48 (`Sender.FarResumeRereads`). That, the late accept and a second use of the id are all that can go wrong with the stream: `Sender.StepAlignedIff` for a step, `Sender.RunAlignedIff` for a run.
- **An empty file** is announced as complete but never delivered (`Receiver.DeliveredIffNonEmpty`).
- **A short base nonce**, which an offer with a plain key can carry, lets two sequence numbers share a nonce; in the model eight bytes are exactly enough (`Nonce.DistinctNoncesIff`, see its line under "Left out").
- **Chunk sizes near 2^64** wrap the decoder's 64-bit position. A turn of the loop is the mathematical one exactly when its size line does not wrap (`Dechunk.TurnsAgreeIff`). A body in which no size line that is reached wraps is decoded in finitely many turns (`Dechunk.LoopDecodes`). At the first line that does wrap, the loop appends the rest of the body where decoding is over (`Dechunk.FirstWrapGoesOn`): with data after that line it never ends with the decoding (`Dechunk.WrapSpoils`, `Dechunk.DecodesIffNoWrap`), with nothing after it, it depends on where the position lands (`Dechunk.WrapAtEnd`). `Dechunk.EndsRight` follows the positions through the body, at most one for each character before the wrap and after it, and `Dechunk.LoopDecodesIff` shows that it decides for every body whether the loop ends with the decoding. `Dechunk.NegativeSizeStalls` runs a body from its start on which the loop never ends, `Dechunk.NegativeSizeMisdecodes` one on which it ends with something else.
- **A cancelled reconnect timer's handler** removes the table entry of a newer timer, which a later success then cannot cancel (`Reconnect.OrphanSurvivesSuccess`). Over a run no timer is lost track of exactly when every handler finds its own entry or none (`Reconnect.AlwaysTrackedIff`), and then a success stops them all (`Reconnect.SuccessStopsTimers`).
- **A reused shell session id** lets what an earlier session left behind reach a later one: a timer handler that was queued before the timer was cancelled (`ShellModel.StaleTimerEndsIff`, `ShellModel.QueuedTimerEndsReopened`) and the callbacks of a killed process (`ShellModel.ExitHits`, `ShellModel.OutputHits`, `ShellModel.LateExitEndsReopened`). Over a run that is impossible exactly when every session is opened under an id for which no such handler can still run (`ShellModel.AlwaysHomeIff`).
- **A caller's timeout** tells nobody: the other side rings on, and if it accepts afterwards it is in the call alone (`CallSetup.TimeoutLeavesTheOtherAlone`).
- **Frames can overtake a queue** when they are sent after the peer came back and before the drain (`SendQueue.LateSendOvertakes`); `SendQueue.KeepsTurn` is what a caller can see beforehand, exact for a step (`SendQueue.OrderKeptIff`) and over runs (`SendQueue.AlwaysInOrderIff`).

## Model

| member | source | states |
|---|---|---|
| `Nonce.DeriveNonce` | src/transfer/filetransfer.cpp:360-366 | the in-place XOR of the last eight nonce bytes yields the base nonce mixed with the big-endian sequence number, for any nonce length |
| `Nonce.NonceInjective` | src/transfer/filetransfer.cpp:360-366 | with eight or more nonce bytes, two 64-bit sequence numbers give the same nonce if and only if they are equal |
| `Nonce.DistinctNoncesIff` | src/transfer/filetransfer.cpp:504-521 | as derived in the model, all sequence numbers have different nonces if and only if the offered base nonce has at least eight bytes |
| `Nonce.NonceSpellsNumber` | src/transfer/filetransfer.cpp:360-366 | the last eight bytes XORed with those of the base nonce are the sequence number modulo 2^64 to base 256, most significant byte first; the bytes before them are the base nonce's |
| `Chunks.ChunkExistsIff` | src/transfer/filetransfer.cpp:306-316 | chunk s is non-empty exactly for 0 <= s < ceil(size/65536) |
| `Chunks.PrefixGrows` | src/transfer/filetransfer.cpp:306-316 | the first n chunks followed by chunk n are the first n+1 chunks |
| `Chunks.PrefixFull` | src/transfer/filetransfer.cpp:328-330 | the first n chunks are the whole file exactly when n reaches the chunk count |
| `FileTransferEngine.IsValidTransferId` | src/transfer/filetransfer.cpp:1100-1113 | accepts exactly the ids of 1 to 64 hexadecimal digits and hyphens |
| `FileTransferEngine.EncryptChunk` | src/transfer/filetransfer.cpp:360-410 | seals a chunk under the nonce of its sequence number |
| `FileTransferEngine.DecryptChunk` | src/transfer/filetransfer.cpp:412-462 | opens a box only under the key and the nonce of the sequence number, and is empty otherwise |
| `FileTransferEngine.FileTransfer.constructor` | src/transfer/filetransfer.cpp:1145-1163 | starts with no transfer, and stores received files where safeDownloadPath says for the given downloads directory |
| `FileTransferEngine.FileTransfer.SendFile` | src/transfer/filetransfer.cpp:98-130 | enters a pending transfer with zero counters under its own key, touching no other transfer |
| `FileTransferEngine.FileTransfer.HashComputed` | src/transfer/filetransfer.cpp:135-156 | a computed digest leads to the offer; a failed one ends the transfer; a transfer cancelled meanwhile is left alone |
| `FileTransferEngine.FileTransfer.SendFileOffer` | src/transfer/filetransfer.cpp:194-228 | the offer carries name, size, digest and key followed by base nonce, only inside an encrypted session; without one the transfer fails; an unknown id is ignored |
| `FileTransferEngine.FileTransfer.StartStreaming` | src/transfer/filetransfer.cpp:232-271 | opens the file at its start, keeps the counters, reports the start and sends the next chunk |
| `FileTransferEngine.FileTransfer.SendNextChunk` | src/transfer/filetransfer.cpp:273-356 | one step of the stream: nothing when paused, completion when all bytes went out, else one sealed chunk, updated counters and one posted continuation |
| `FileTransferEngine.FileTransfer.RunPosted` | src/transfer/filetransfer.cpp:349-355 | the io thread runs the oldest posted continuation |
| `FileTransferEngine.FileTransfer.HandleMessage` | src/transfer/filetransfer.cpp:466-599 | every frame type does to its own transfer what the specification says, nothing to others, and nothing at all for an invalid id |
| `FileTransferEngine.FileTransfer.HandleOffer` | src/transfer/filetransfer.cpp:479-536 | an offer is entered with a sanitized name and safe path unless its size is negative or its key cannot be read |
| `FileTransferEngine.FileTransfer.HandleFileChunk` | src/transfer/filetransfer.cpp:605-662 | a chunk is taken only when the transfer is not paused and its number is the next one; the first opens the temporary file |
| `FileTransferEngine.FileTransfer.StoreChunk` | src/transfer/filetransfer.cpp:664-709 | an unreadable or oversize chunk ends the transfer; any other is written, hashed and counted once, and the last one finishes |
| `FileTransferEngine.FileTransfer.FinishReceiving` | src/transfer/filetransfer.cpp:714-795 | the file is reported, under the first free name, exactly when the digest matches and the move succeeds; an unknown id is ignored |
| `FileTransferEngine.FileTransfer.HandleCancel` | src/transfer/filetransfer.cpp:560-579 | a cancel from the peer ends both directions and forgets the saved state |
| `FileTransferEngine.FileTransfer.CancelTransfer` | src/transfer/filetransfer.cpp:828-862 | a local cancel also tells the peer, once per direction |
| `FileTransferEngine.FileTransfer.AcceptOffer` | src/transfer/filetransfer.cpp:799-812 | an accept is sent only for a known offer |
| `FileTransferEngine.FileTransfer.RejectOffer` | src/transfer/filetransfer.cpp:814-824 | a rejected offer is answered and forgotten |
| `FileTransferEngine.FileTransfer.PauseTransfer` | src/transfer/filetransfer.cpp:866-915 | pausing keeps counters and stream, saves the state and tells the peer |
| `FileTransferEngine.FileTransfer.ResumeTransfer` | src/transfer/filetransfer.cpp:917-929 | asks with the number of chunks received |
| `FileTransferEngine.FileTransfer.HandleResumeRequest` | src/transfer/filetransfer.cpp:931-988 | rewinds the transfer in memory, or rebuilds it from its saved state, with numbers and positions computed in 64 bits, acknowledges and goes on sending |
| `TransferModel.ResumePositionIff` | src/transfer/filetransfer.cpp:955-976 | chunk number and file position of a resume are those it asks for if and only if the position fits 64 bits |
| `Sender.StepAligned` | src/transfer/filetransfer.cpp:232-356 | every event keeps the stream at the chunk the counter names and seals only right chunks, unless it reuses the id, is an accept that sends at a count other than 0, or a resume that sends from a position 64 bits cannot hold |
| `Sender.StreamOutcome` | src/transfer/filetransfer.cpp:273-356 | an accept, a resume or a continuation from which the transfer streams leads to a completion, a chunk or a failure, each exactly when stream and counters say so |
| `Sender.UnreadableFails` | src/transfer/filetransfer.cpp:232-252 | an accept of a file that cannot be opened fails the transfer and sends nothing |
| `Sender.UnhashableFails` | src/transfer/filetransfer.cpp:135-156 | a digest that could not be computed fails the transfer and sends nothing |
| `Sender.RefusedResume` | src/transfer/filetransfer.cpp:931-970 | a resume request changes nothing if and only if the transfer is not there and no saved state loads and reopens |
| `Sender.RunAligned` | src/transfer/filetransfer.cpp:273-356 | over every run of such events, with pauses, resumes, stray continuations and cancels, chunk frame s carries exactly file bytes [s*65536, min((s+1)*65536, size)) under nonce s |
| `Sender.StepAlignedIff` | src/transfer/filetransfer.cpp:232-356 | that guard is exact: stream and frames are right after a step if and only if the event meets it |
| `Sender.RunAlignedIff` | src/transfer/filetransfer.cpp:232-356 | over every run, stream and frames stay right throughout if and only if every event meets it |
| `Sender.FarResumeRereads` | src/transfer/filetransfer.cpp:973-976 | a resume after chunk 2^48 - 1 seals chunk 0 under number 2^48 |
| `Sender.FreshAligned` | src/transfer/filetransfer.cpp:98-130 | the transfer sendFile creates satisfies that invariant |
| `Sender.NonceNeverReused` | src/transfer/filetransfer.cpp:360-366 | no run of such events seals two different plaintexts under one key and nonce, as section 8 of NIST SP 800-38D requires |
| `Sender.AcceptSealsChunkZero` | src/transfer/filetransfer.cpp:232-271 | an accept that sends seals chunk 0 under the current count; that one frame is right exactly when those chunks are equal |
| `Sender.AcceptKeepsInvIff` | src/transfer/filetransfer.cpp:232-271 | after an accept the stream stands where the counter says if and only if nothing was sent, the count was 0, or the file is shorter than a chunk |
| `Sender.AcceptAlignedIff` | src/transfer/filetransfer.cpp:232-271 | stream and frame are both right after an accept if and only if it sent nothing or the count was 0 |
| `Sender.LateAcceptRightIff` | src/transfer/filetransfer.cpp:232-356 | a late accept after c chunks and its continuations send the file from its start under numbers c on; all frames are right if and only if every chunk equals the one c chunks further |
| `Sender.AcceptThenResumeReusesNonce` | src/transfer/filetransfer.cpp:931-988 | a late accept and a resume seal chunk 0 and chunk c under the one nonce of c, two plaintexts exactly when those chunks differ |
| `Sender.SecondAcceptThenResumeReusesNonce` | src/transfer/filetransfer.cpp:931-988 | the same from the offer on, with a key and nonce as sendFile makes them: accept, accept, resume |
| `Sender.SecondAcceptMisaligns` | src/transfer/filetransfer.cpp:232-252 | for every offered file of more than one chunk a second accept misaligns the stream, and its frame is right exactly when the first two chunks are alike |
| `Sender.UninterruptedSend` | src/transfer/filetransfer.cpp:273-356 | an accepted offer sends exactly its transmission and then nothing, however many extra continuations run, posting one continuation per chunk |
| `Sender.TransmissionFrames` | src/transfer/filetransfer.cpp:280-343 | a transmission is ceil(n/65536) chunk frames numbered from 0, the last one alone marked, and one completion frame |
| `Sender.TransmissionCarriesFile` | src/transfer/filetransfer.cpp:306-343 | the plaintexts of a transmission concatenate to the file |
| `Sender.ResumedStream` | src/transfer/filetransfer.cpp:931-988 | what a resume and the continuations after it send, from memory or from the saved state: an acknowledgement, then chunks until the count of bytes reaches the size or the file ends |
| `Sender.ResumptionRightIff` | src/transfer/filetransfer.cpp:273-343 | such a stream from chunk k with b bytes counted is the rest of the transmission, last mark and completion included, if and only if b is at least the bytes before chunk k and less than a last chunk more |
| `Sender.ResumeEndsRightIff` | src/transfer/filetransfer.cpp:971-976 | a resume in memory at chunk k sends the rest of the transmission if and only if k chunks had been counted |
| `Sender.SavedResumeNeverEnds` | src/transfer/filetransfer.cpp:940-970 | a resume from the saved state sends no last mark and no completion, for every chunk of the file |
| `Receiver.StepInStep` | src/transfer/filetransfer.cpp:605-709 | no event, including pauses, any resume acknowledgement and failures, separates bytes written, hashed and counted, or exceeds the announced size |
| `Receiver.ReportsIff` | src/transfer/filetransfer.cpp:605-795 | a step reports a file if and only if it takes the expected chunk, marked last, that opens, fits, completes the digest and can be moved |
| `Receiver.ChunkOutcome` | src/transfer/filetransfer.cpp:605-709 | what a chunk leads to: nothing when it is not expected, failure when it cannot be stored or does not complete the digest, else exactly its plaintext appended or the file reported |
| `Receiver.RunInStep` | src/transfer/filetransfer.cpp:605-795 | over every run a file is reported only when its content has a digest that was offered |
| `Receiver.OpensOnlyItsChunk` | src/transfer/filetransfer.cpp:412-425 | a box of the sender opens under number n only when it is chunk n |
| `Receiver.StepKeepsPrefix` | src/transfer/filetransfer.cpp:605-709 | under loss, repetition, reordering and recombination of chunk frames the temporary file stays the first min(chunksReceived*65536, size) bytes, and only the whole file is reported |
| `Receiver.AckKeepsPrefixIff` | src/transfer/filetransfer.cpp:591-598 | a resume acknowledgement keeps that exactly when it names the number of chunks already there |
| `Receiver.LastChunkCompletes` | src/transfer/filetransfer.cpp:706-795 | when the chunk the sender marked last is taken, the whole file is there: no hash mismatch is possible |
| `Receiver.AnswersIffResumed` | src/transfer/filetransfer.cpp:931-988 | a sender acknowledges a resume exactly when it has the transfer in memory or can load and reopen its saved state |
| `Receiver.ResumeSkipsAChunk` | src/transfer/filetransfer.cpp:917-988 | the handshake of a resume, with a sender in memory or rebuilt from its saved state, leaves the receiver one past a chunk it never got |
| `Receiver.PastEndNeverCompletes` | src/transfer/filetransfer.cpp:605-709 | once the counter is at or past the number of chunks without a finished file, no later chunk finishes it, without a new start |
| `Receiver.ResumeNeverCompletes` | src/transfer/filetransfer.cpp:917-988 | whatever follows a resume, further resumes included and whether or not chunks were missing, no file is reported unless an acknowledgement sets the counter back |
| `Receiver.AckBackRepairsIff` | src/transfer/filetransfer.cpp:591-598 | right after a resume an acknowledgement restores the prefix if and only if it names the number of chunks there were |
| `Receiver.SystemSafe` | src/transfer/filetransfer.cpp:605-709 | sender, link and receiver together: in every reachable state the receiver holds a prefix of the sent file and has reported nothing else than the whole file |
| `Receiver.DeliveredIffNonEmpty` | src/transfer/filetransfer.cpp:556-558 | an uninterrupted transmission delivered in order makes the receiver report exactly the file, under the first free name, and forget the transfer, if it is not empty; if it is, nothing at all happens |
| `Pausing.HeldStep` | src/transfer/filetransfer.cpp:279-281 | while paused a sender sends no chunk and no completion and keeps counters and stream, whatever the event but an accept, a resume request or a new sendFile; only a cancel, a reject or a failed offer ends it |
| `Pausing.HeldRun` | src/transfer/filetransfer.cpp:279-281 | the same over every run without such an event, posted continuations included |
| `Pausing.PauseStopsTheStream` | src/transfer/filetransfer.cpp:580-586 | after a pause by the user or by the peer no run without such an event sends a chunk or a completion |
| `Pausing.ContinueSendsIff` | src/transfer/filetransfer.cpp:273-356 | a continuation does nothing if and only if the transfer is gone, paused or cancelled |
| `Pausing.PauseSavesTheTransfer` | src/transfer/filetransfer.cpp:866-988 | a pause tells the peer once, and what it saves rebuilds the same peer, file, size, key and nonce |
| `Pausing.SavedUntilDone` | src/transfer/filetransfer.cpp:866-915 | the saved state stands until the next pause, a cancel, or the completion of a transfer, and no other event touches it |
| `Pausing.HeldReceiverRun` | src/transfer/filetransfer.cpp:617-617 | over every run without a resume acknowledgement or a new offer a paused receiver takes no chunk, whatever arrives, and reports no file |
| `Pausing.PauseHoldsReceiver` | src/transfer/filetransfer.cpp:866-915 | the user's pause holds the receiver with all it has, saves it and tells the peer once |
| `Exchange.OfferGoesOut` | src/transfer/filetransfer.cpp:98-228 | from sendFile and the digest exactly one frame leaves, the offer, to the peer and under the transfer's id |
| `Exchange.NoOfferWithoutSession` | src/transfer/filetransfer.cpp:194-219 | without an encrypted session no offer leaves: the transfer fails and the key goes with it |
| `Exchange.OfferArrives` | src/transfer/filetransfer.cpp:194-536 | that offer, delivered, makes an entry that awaits the very file, under its key and base nonce, the sanitized name and its path, and the user is asked with name, size and duration |
| `Exchange.OfferEnteredIff` | src/transfer/filetransfer.cpp:479-536 | any offer is entered if and only if its size is not negative and its envelope holds a key, in clear or as the first 32 and the next 12 bytes of what the session decrypts, and then under that key and nonce |
| `Exchange.OfferPath` | src/transfer/filetransfer.cpp:523-531 | the final path of an entry is the base directory, a slash and the sanitized, safe name |
| `Exchange.FileArrives` | src/transfer/filetransfer.cpp:98-795 | sendFile, digest, offer delivered, accepted, answer delivered, continuations, chunks delivered in order: the sender reports completion, the receiver exactly the sender's bytes under the first free name, and both forget the transfer; an empty file alone is never reported |
| `Exchange.RejectEndsBoth` | src/transfer/filetransfer.cpp:543-824 | a rejected offer, delivered, ends both ends and no chunk ever leaves |
| `Exchange.CancelEndsBoth` | src/transfer/filetransfer.cpp:560-862 | a cancel on either side, delivered, ends both, saved state included, and each side's listeners hear of it once |
| `Exchange.PauseReachesSender` | src/transfer/filetransfer.cpp:580-915 | the receiver's pause, delivered, keeps the sender from sending until it is woken |
| `Exchange.ResumeReachesSender` | src/transfer/filetransfer.cpp:917-988 | a resume asks the offering peer with the number of chunks received, and the answer of a sender that has the transfer wakes the receiver at that number plus one |
| `FileNames.SanitizeFileName` | src/transfer/filetransfer.cpp:1115-1143 | the loops terminate with a non-empty name of at most 200 characters without separators, NUL or "..", not made of dots |
| `FileNames.SanitizeFixedIffSafe` | src/transfer/filetransfer.cpp:1115-1143 | a name is left alone exactly when it is safe already; sanitizing is idempotent |
| `FileNames.SafeComponentSurvives` | src/transfer/filetransfer.cpp:1115-1143 | whatever directories stand before it, a last component without separators and ".." survives, cut to its first 200 characters |
| `FileNames.DownloadStaysInBase` | src/transfer/filetransfer.cpp:1145-1163 | the download path is always the base directory, a slash and the sanitized name |
| `FileNames.ProbesDistinct` | src/transfer/filetransfer.cpp:744-753 | the numbered names tried for a file never repeat |
| `FileNames.NumberedKeeps` | src/transfer/filetransfer.cpp:744-753 | a numbered name keeps directory and extension and adds the number in parentheses to the stem |
| `FileNames.PickFreeName` | src/transfer/filetransfer.cpp:744-753 | the collision loop ends at the first name not in use, after at most as many steps as there are files |
| `Framing.FramesOfStream` | src/net/network.cpp:387-423 | for any split of a stream into reads, the frames handed on are those of the stream split at newlines without oversize or non-object lines, the buffer is its newline-free tail and never above 16 MiB; an overflow only cuts the stream short |
| `Framing.HandledIff` | src/net/network.cpp:403-423 | a frame is handed on if and only if it is a line of that stream, of at most 1 MiB, and an object |
| `Framing.LinesSplit` | src/net/network.cpp:406-411 | splitting a stream in two takes the tail of the first part up again |
| `Framing.NothingCut` | src/net/network.cpp:387-396 | with reads of at most 8192 bytes and lines short of the buffer limit by that much, no read is cut |
| `Framing.RoundTrip` | src/net/network.cpp:71-75 | frames written one after another, of at most 1 MiB each, arrive as the same list however the bytes are split into reads |
| `Framing.PeerConnection.constructor` | src/net/network.cpp:331-346 | a connection starts open with an empty buffer |
| `Framing.PeerConnection.ReadDone` | src/net/network.cpp:367-399 | a read that would overflow closes the connection; any other is appended and parsed |
| `Framing.PeerConnection.TryParseFrames` | src/net/network.cpp:403-423 | the loop hands on exactly the accepted complete lines, in order, and keeps the tail |
| `RateLimit.PassedOverTime` | src/net/network.cpp:974-990 | for any arrival times, at most 200*(floor(T/1000)+1) frames pass over T ms from the first |
| `RateLimit.PassedInAnySecond` | src/net/network.cpp:974-990 | any interval of 1000 ms passes at most 400 frames |
| `RateLimit.PassedInBudget` | src/net/network.cpp:974-990 | the same from any window: what can still pass in an interval is bounded by the room in the present window and the windows that can start |
| `RateLimit.SlowSenderPasses` | src/net/network.cpp:974-990 | a sender that never puts 201 frames into one second is never cut off |
| `RateLimit.BurstIsCut` | src/net/network.cpp:974-990 | of 201 frames within less than a second exactly the last does not pass |
| `RateLimit.RateGate.CountFrame` | src/net/network.cpp:974-990 | the fields after a frame, and whether it passes, are those of the window function |
| `IpBan.CounterStaysInRange` | src/net/network.cpp:1355-1375 | the failure counter never passes five, and is five exactly while a ban is on record |
| `IpBan.FifthFailureBans` | src/net/network.cpp:1355-1375 | the fifth failure in a row bans for thirty minutes, fewer never do, and the first after an expired ban counts as one |
| `IpBan.NothingHandledWhileBanned` | src/net/network.cpp:993-1001 | while a ban runs no frame of the address is handled and its record stands, whatever other addresses do |
| `IpBan.BannedIff` | src/net/network.cpp:993-1375 | over every run an address is banned if and only if its recorded failures are a positive multiple of five and the last is less than thirty minutes old |
| `IpBan.FewFailuresNeverBan` | src/net/network.cpp:993-1375 | with fewer than five recorded failures every frame of an address is handled |
| `IpBan.FailuresOverTime` | src/net/network.cpp:1355-1375 | over T ms from its first failure an address records at most 5*(floor(T/1800000)+1) failures |
| `IpBan.IpBans.HandleFrame` | src/net/network.cpp:993-1001 | a frame is handled exactly when its address is not banned, and only then can a failure be recorded |
| `IpBan.IpBans.RecordUuidFailure` | src/net/network.cpp:1355-1375 | only the record of that address changes, as the failure function says |
| `SendQueue.StepWhere` | src/net/network.cpp:1379-1431 | a step moves frames between posted, written, queued and dropped; only a send adds one |
| `SendQueue.EveryFrameInOnePlace` | src/net/network.cpp:1379-1431 | over every run each frame given to sendFrame is in exactly one place or was dropped for a named reason, and no queue exceeds a hundred |
| `SendQueue.DroppedFor` | src/net/network.cpp:1379-1551 | a frame is dropped for a full queue only with at least a hundred waiting and the peer away, for the relay only when that is down, and on giving up only from that peer's queue |
| `SendQueue.QueuedFramesArrive` | src/net/network.cpp:1379-1431 | up to a hundred frames sent to a peer that is away are all written, in the order of sending, once it is back and its queue drained |
| `SendQueue.OrderKept` | src/net/network.cpp:1379-1416 | a step that lets nothing overtake a queue keeps written, queued and posted frames of a peer in one order |
| `SendQueue.OrderKeptIff` | src/net/network.cpp:1379-1431 | as long as a peer's frames all differ, that condition is exact: any other step breaks their order |
| `SendQueue.AlwaysInOrderIff` | src/net/network.cpp:1379-1431 | over every run in which a peer's frames all differ, they stand in the order of sending in every state if and only if every step meets that condition |
| `SendQueue.WrittenInOrder` | src/net/network.cpp:1379-1431 | along a run of such steps a peer is written its frames in the order of sending, without gaps |
| `SendQueue.LateSendOvertakes` | src/net/network.cpp:1418-1431 | a run in which a later frame is written before a queued one |
| `SendQueue.DrainKeepsOrder` | src/net/network.cpp:1418-1431 | frames of one peer handled one after another, whatever each meets, are written, queued again and dropped in their order |
| `SendQueue.DrainRuns` | src/net/network.cpp:1379-1431 | a run of a drain, the tasks posted before it and then its own tasks does exactly that to the frames of the queue |
| `SendQueue.Outbox.SendFrame` | src/net/network.cpp:1379-1380 | posts the frame behind those already posted |
| `SendQueue.Outbox.RunPosted` | src/net/network.cpp:1381-1415 | a task relays, writes, queues or drops its frame |
| `SendQueue.Outbox.Push` | src/net/network.cpp:1406-1409 | a frame joins its peer's queue unless a hundred are waiting |
| `SendQueue.Outbox.DrainMessageQueue` | src/net/network.cpp:1418-1431 | the loop posts the whole queue in order and removes it |
| `SendQueue.Outbox.GiveUpOn` | src/net/network.cpp:1541-1551 | giving up on a peer drops its queue and no other |
| `Reconnect.BackoffValues` | src/net/network.cpp:1528-1532 | the delays are 1, 2, 4, 8, 16 and then 30 seconds |
| `Reconnect.ChainAfter` | src/net/network.cpp:1534-1588 | after k failed attempts one timer is armed, for the k-th delay, and it is the table's entry, whatever the peer's history |
| `Reconnect.ChainEnds` | src/net/network.cpp:1541-1551 | after fifty attempts, and ever after, no info, counter, queue, entry or timer is left for the peer |
| `Reconnect.ChainOfFailures` | src/net/network.cpp:1528-1588 | from any state without a timer under way the chain adds exactly fifty attempts after non-decreasing delays within [1000, 30000] ms that add up to 1381000 ms |
| `Reconnect.SuccessStartsOver` | src/net/network.cpp:1590-1600 | a success at any point clears the counter and cancels the timer, so that the next failure waits one second |
| `Reconnect.HandlerTracksIff` | src/net/network.cpp:1567-1571 | a timer's handler keeps every live timer in the table exactly when the entry it removes is its own or nobody's |
| `Reconnect.OrphanSurvivesSuccess` | src/net/network.cpp:1562-1571 | two failures in a row and the first timer's handler leave a timer that a success does not cancel |
| `Reconnect.AlwaysTrackedIff` | src/net/network.cpp:1534-1600 | over every run no live timer is ever missing from the table if and only if every handler finds its own entry or none |
| `Reconnect.SuccessStopsTimers` | src/net/network.cpp:1590-1600 | after such a run a success leaves no timer that is not cancelled |
| `Reconnect.StepReasons` | src/net/network.cpp:1534-1600 | a try is the handler of a timer that was not told of an abort, for a known address; giving up is a failure after fifty tries and clears address, counter and queue; a delay is waited for after any earlier failure |
| `Reconnect.TriesNeedTimers` | src/net/network.cpp:1534-1588 | over every run the tries and the timers still under way are no more than the timers ever armed |
| `Reconnect.Reconnector.ScheduleReconnect` | src/net/network.cpp:1534-1572 | gives the peer up at fifty attempts, else cancels its timer and arms one for the next delay; no other peer changes |
| `Reconnect.Reconnector.TimerFired` | src/net/network.cpp:1567-1570 | removes the peer's entry and, unless aborted, attempts to reconnect |
| `Reconnect.Reconnector.AttemptReconnect` | src/net/network.cpp:1574-1588 | counts an attempt for a peer with reconnect info, and does nothing for another |
| `Reconnect.Reconnector.ResetReconnectState` | src/net/network.cpp:1590-1600 | clears counter and entry and cancels the entry's timer |
| `UpnpModel.RunOpInv` | src/net/upnp.cpp:128-195 | every receive, timer, retry and HTTP handler keeps the balance: results delivered for the newest mapPort plus operations that owe it one are exactly 1 |
| `UpnpModel.MapPortInv` | src/net/upnp.cpp:50-58 | mapPort supersedes what was under way and starts owing anew |
| `UpnpModel.ExactlyOneResult` | include/naleystogramm-core/net/upnp.h:18-20 | over every run of calls, races and retries no mapPort is answered twice, and when nothing is pending the newest was answered once, after at most three attempts |
| `UpnpModel.SupersededStaySilent` | src/net/upnp.cpp:45-48 | a step adds at most one result, always for the newest mapPort through the newest callback |
| `UpnpModel.SupersededNeverReports` | src/net/upnp.cpp:45-58 | over every run a superseded mapPort never reports again |
| `UpnpModel.QuiescenceReached` | src/net/upnp.cpp:157-195 | without a further mapPort no more handlers run than the pending operations weigh: retries end |
| `UpnpModel.LoneMapPortSettles` | src/net/upnp.cpp:62-195 | after a mapPort from any state at rest at most 38 handlers run, in any order |
| `UpnpOutcome.ReportsIff` | src/net/upnp.cpp:45-323 | a handler reports success if and only if it reads, with a status of success, the answer to the newest mapPort's mapping request, and failure if and only if something failed or the third search ran out |
| `UpnpOutcome.MapReportsIff` | src/net/upnp.cpp:50-95 | a call itself reports nothing but the failure to bind its socket |
| `UpnpOutcome.SuccessIff` | src/net/upnp.cpp:45-323 | over every run mapPort number g is told of success if and only if the router confirmed its mapping while it was the newest; before that lie a description with a control URL and a location; a mapping request exists only after such a description |
| `UpnpOutcome.ResultsReachTheirCallers` | src/net/upnp.cpp:45-58 | over every run each result goes to the callback of the very call it answers |
| `UpnpOutcome.AnsweringRouterMaps` | src/net/upnp.cpp:50-323 | with a router that answers and confirms, the call succeeds, whatever else was under way before |
| `UpnpOutcome.SilentRouterFails` | src/net/upnp.cpp:162-195 | with a router that never answers there are exactly three searches, and then the call fails |
| `UpnpEngine.UpnpMapper.MapPort` | src/net/upnp.cpp:50-58 | a new generation with no retries and the new callback starts discovering |
| `UpnpEngine.UpnpMapper.Discover` | src/net/upnp.cpp:62-195 | a superseded call does nothing, an unbindable socket reports failure, else one receive and one timer are started |
| `UpnpEngine.UpnpMapper.Received` | src/net/upnp.cpp:128-160 | the first of receive and timer decides the attempt; a location leads to the description, anything else to failure |
| `UpnpEngine.UpnpMapper.SsdpTimedOut` | src/net/upnp.cpp:162-195 | a timeout starts the pause before the next attempt, or reports failure after the third |
| `UpnpEngine.UpnpMapper.RetryDue` | src/net/upnp.cpp:180-184 | the pause ends in a new discovery of the same generation |
| `UpnpEngine.UpnpMapper.HttpRequest` | src/net/upnp.cpp:367-395 | a request starts its resolve and its timer under a done flag of its own |
| `UpnpEngine.UpnpMapper.HttpProceeded` | src/net/upnp.cpp:403-470 | each phase leads to the next or finishes the request once |
| `UpnpEngine.UpnpMapper.Respond` | src/net/upnp.cpp:204-323 | the description leads to the mapping request, whose outcome is reported; failures of either report failure |
| `UpnpEngine.UpnpMapper.Finish` | src/net/upnp.cpp:45-48 | only the newest generation is answered |
| `Dechunk.DechunkBody` | src/net/upnp.cpp:17-32 | over mathematical integers the loop terminates on every input, computes the decoding, and its output is no longer than its input |
| `Dechunk.DechunkTurns` | src/net/upnp.cpp:17-32 | the loop on 64-bit positions, for any number of turns |
| `Dechunk.TurnsAgreeIff` | src/net/upnp.cpp:20-30 | a 64-bit turn is the mathematical one if and only if the end of the announced data does not wrap into the body |
| `Dechunk.LoopDecodes` | src/net/upnp.cpp:17-32 | for every body in which no size line that is reached wraps, the 64-bit loop stops with the decoding |
| `Dechunk.FirstWrapGoesOn` | src/net/upnp.cpp:28-30 | at the first line that wraps the decoding is complete, but the loop appends the rest of the body and goes on |
| `Dechunk.WrapSpoils` | src/net/upnp.cpp:28-30 | if data follows that line the loop never stops with the decoding |
| `Dechunk.LoopDecodesIff` | src/net/upnp.cpp:17-32 | for every body the loop stops with the decoding if and only if the positions its size lines lead through end right, which the body alone decides, and then within two turns for each character and two |
| `Dechunk.DecodesIffNoWrap` | src/net/upnp.cpp:17-32 | for every body in which data follows the first line that wraps, the loop stops with the decoding if and only if no line it reaches wraps |
| `Dechunk.LandsSoon` | src/net/upnp.cpp:20-30 | if lines that wrap with nothing after them lead out of the body at all, they do so in at most as many turns as it has characters |
| `Dechunk.WrapAtEnd` | src/net/upnp.cpp:28-30 | if nothing follows it, the loop stops with the decoding when sent past the end and never stops when sent back to the line |
| `Dechunk.DecodeInvertsEncode` | src/net/upnp.cpp:17-32 | for every list of non-empty chunks encoded per section 7.1 of RFC 9112, with extensions, data holding line ends and any trailer, decoding gives their concatenation |
| `Dechunk.CutDecodesToWholeChunks` | src/net/upnp.cpp:22-28 | a body cut anywhere decodes to exactly the chunks whose data ends at or before the cut |
| `Dechunk.HexSizeLine` | src/net/upnp.cpp:23-25 | a plain hexadecimal size is a valid size line |
| `Parsing.SizeReadsIff` | src/net/upnp.cpp:23-25 | a size line is read as a size if and only if it spells, after blanks, sign and prefix, a hexadecimal number below 2^64; a minus sign gives what is left of it modulo 2^64 |
| `Dechunk.NegativeSizeStalls` | src/net/upnp.cpp:17-32 | a body whose first line that wraps has nothing after it, on which the loop, run from its start, is at the same place after every number of turns |
| `Dechunk.NegativeSizeMisdecodes` | src/net/upnp.cpp:17-32 | a body whose first size line wraps, on which the loop ends with data although there was nothing to decode |
| `CallModel.StepKeepsInv` | src/calls/callmanager.cpp:82-102 | every handler keeps: Idle, Ringing and InCall have no live timer, Calling exactly one, Ended at least one, and media runs exactly in InCall for the present call, peer and salt |
| `CallModel.ReachableInv` | src/calls/callmanager.cpp:106-465 | that holds in every reachable state |
| `CallModel.TimerChangesOnlyItsCall` | src/calls/callmanager.cpp:171-182 | a timer, cancelled or not, changes only the very call it was armed for, and only in Calling or Ended |
| `CallModel.CanAlwaysReturn` | src/calls/callmanager.cpp:288-302 | in Calling and Ended a timer is armed whose firing leads back to Idle |
| `CallSetup.FramesHaveReasons` | src/calls/callmanager.cpp:106-422 | in every step a frame leaves only for its own reason, to the party concerned, with id, port and salt of the call: an accept only from a party that takes up its ringing call with media running |
| `CallSetup.EntersIff` | src/calls/callmanager.cpp:106-465 | into each state there is exactly one kind of way: a call by taking it up with session, key and media, Calling and Ringing from Idle alone, Ended by hanging up, Idle by a refusal, failing media or a live timer |
| `CallSetup.UserIsTold` | src/calls/callmanager.cpp:106-341 | the user hears of an incoming call and of one that cannot be made |
| `CallSetup.BusyAnswers` | src/calls/callmanager.cpp:311-320 | an invite to somebody who is not idle is answered busy and changes nothing |
| `CallEngine.CallManager.InitiateCall` | src/calls/callmanager.cpp:106-196 | a call starts only from Idle with a session, media and a free port; it arms the timeout and sends the invite |
| `CallEngine.CallManager.AcceptCall` | src/calls/callmanager.cpp:200-237 | only the ringing call can be accepted; the accept goes out only once media runs |
| `CallEngine.CallManager.RejectCall` | src/calls/callmanager.cpp:241-257 | only the ringing call can be rejected |
| `CallEngine.CallManager.EndCall` | src/calls/callmanager.cpp:261-303 | an active call tells the peer, stops media and enters Ended with a timer |
| `CallEngine.CallManager.HandleSignaling` | src/calls/callmanager.cpp:307-422 | each signalling frame acts only in the states and for the call id the protocol allows |
| `CallEngine.CallManager.HandleInvite` | src/calls/callmanager.cpp:311-341 | an invite rings an idle party and is answered busy otherwise |
| `CallEngine.CallManager.HandleAccept` | src/calls/callmanager.cpp:342-367 | an accept of the present call cancels its timers and starts media, or resets everything |
| `CallEngine.CallManager.StartMedia` | src/calls/callmanager.cpp:426-465 | either media runs for the call or the state is reset |
| `CallEngine.CallManager.ResetState` | src/calls/callmanager.cpp:90-102 | back to Idle with a new generation and no call data |
| `CallEngine.CallManager.TimerFired` | src/calls/callmanager.cpp:171-182 | a timer of an older generation does nothing |
| `CallPair.ActKeepsInv` | src/calls/callmanager.cpp:106-465 | every action of two parties on a link that loses, repeats and reorders keeps each call rooted in who issued its id and who accepted it |
| `CallPair.CallerInCallOnlyIfAccepted` | src/calls/callmanager.cpp:342-367 | over every run a caller is InCall on an id only if the callee accepted it, and both started media with that id and salt |
| `CallPair.SameCallSameSalt` | src/calls/callmanager.cpp:439-444 | two parties InCall on one id run media with one salt |
| `CallPair.CrossedInvitesCancel` | src/calls/callmanager.cpp:311-384 | on a reliable ordered link crossed invites bring both sides back to Idle, in every delivery order, with neither ever InCall |
| `CallSetup.CallComesUp` | src/calls/callmanager.cpp:106-465 | from two idle parties: call, deliver, accept, deliver leaves both InCall on one id, each with media of the invite's salt towards the port the other announced, and the link empty |
| `CallSetup.AcceptConnects` | src/calls/callmanager.cpp:200-367 | from any ringing call an acceptance and its delivery connect both |
| `CallSetup.ConnectedIsJoint` | src/calls/callmanager.cpp:106-465 | a connected call is one that either side can end so |
| `CallSetup.RingingIsJoint` | src/calls/callmanager.cpp:106-341 | and so is one that still rings |
| `CallSetup.HangUpEndsBoth` | src/calls/callmanager.cpp:261-422 | whoever ends the call, connected or still ringing, once that is delivered both are in Ended without media |
| `CallSetup.HangUpIsTold` | src/calls/callmanager.cpp:261-422 | both listeners hear that the call ended |
| `CallSetup.EndedReturns` | src/calls/callmanager.cpp:288-302 | after that a timer of each side leads back to Idle |
| `CallSetup.RejectReturnsBoth` | src/calls/callmanager.cpp:241-384 | a rejected call, once that is delivered, leaves both Idle and tells the caller the reason |
| `CallSetup.TimeoutLeavesTheOtherAlone` | src/calls/callmanager.cpp:171-182 | a caller's timeout sends nothing: the other side rings on, and when it accepts it is InCall alone |
| `ShellModel.StepKeepsInv` | src/shell/remoteshellmanager.cpp:167-306 | at most one session; a process implies the receiver's role, a cleared password and a timer; the processes alive are exactly those sessions own; each belongs to one session; every wait that still waits is a running session's current one. All of it also when ids are reused |
| `ShellModel.ReachableInv` | src/shell/remoteshellmanager.cpp:446-557 | the rules of sessions, processes and waits over every run, whatever ids are used |
| `ShellModel.OneLiveTimer` | src/shell/remoteshellmanager.cpp:515-542 | in every such state a running session has exactly one uncancelled wait of its own timer and generation, and nothing else waits |
| `ShellModel.OneProcessPerSession` | src/shell/remoteshellmanager.cpp:446-511 | each session, reused ids told apart, starts at most one process |
| `ShellModel.SpawnsIffPasswordMatches` | src/shell/remoteshellmanager.cpp:225-263 | a process starts exactly when a receiver hears the pending one-time password of a session without process |
| `ShellModel.WrongGuessDestroys` | src/shell/remoteshellmanager.cpp:240-252 | any other response to a receiver's session destroys it with its process |
| `ShellModel.WritesAreScreened` | src/shell/remoteshellmanager.cpp:326-357 | only unforbidden commands, ended by a newline, reach a process, and only one whose password was verified |
| `ShellPair.FramesHaveReasons` | src/shell/remoteshellmanager.cpp:49-541 | in every step a frame leaves only for its own reason: input and output only inside an encrypted session, input only from an initiator, unforbidden and as typed, an accept only after the right password, a kill only with its cause |
| `ShellPair.NoticesHaveReasons` | src/shell/remoteshellmanager.cpp:49-541 | in every step a listener is told only what happened, of the session concerned and in its role |
| `ShellPair.ActivityRenews` | src/shell/remoteshellmanager.cpp:326-542 | a running session that survives a step has its inactivity time renewed if and only if there was input for it, output of it or data under its id |
| `ShellPair.InputIsSent` | src/shell/remoteshellmanager.cpp:118-145 | what an initiator types is sent, as it is, exactly when the session is encrypted; what is forbidden ends the session and sends the kill alone |
| `ShellPair.SessionComesUp` | src/shell/remoteshellmanager.cpp:49-267 | request, challenge, response with the password, acceptance, each delivered: a session with its process, linked at both ends |
| `ShellPair.InputReachesProcess` | src/shell/remoteshellmanager.cpp:118-357 | a command typed at one end is written, with its newline, to that session's process at the other end, and nothing else is |
| `ShellPair.OutputReachesInitiator` | src/shell/remoteshellmanager.cpp:310-469 | what the process puts out is shown at the other end, byte for byte |
| `ShellPair.WrongPasswordEndsBoth` | src/shell/remoteshellmanager.cpp:100-267 | a wrong password ends both ends and starts no process |
| `ShellPair.RejectEndsBoth` | src/shell/remoteshellmanager.cpp:80-289 | turning a session down ends it at both ends |
| `ShellPair.KillEndsBoth` | src/shell/remoteshellmanager.cpp:149-306 | a session ended by either user is ended at the other end with its process and timer, and both are told why |
| `ShellPair.ExitEndsBoth` | src/shell/remoteshellmanager.cpp:149-487 | the end of the process ends both ends |
| `ShellPair.OneAtATime` | src/shell/remoteshellmanager.cpp:49-76 | while a session is open the user is refused another, with nothing sent or changed |
| `ShellPair.BusyAnswers` | src/shell/remoteshellmanager.cpp:173-190 | while a session is open another request is answered busy and changes nothing |
| `ShellModel.OwnTimerEndsIff` | src/shell/remoteshellmanager.cpp:523-541 | a session's own timer ends it if and only if nothing touched it since; the process dies and the peer is told |
| `ShellModel.StaleTimerEndsIff` | src/shell/remoteshellmanager.cpp:523-541 | a wait of an earlier session of the id ends the present one if and only if its handler was queued before the cancel and the generations agree |
| `ShellModel.ExitHits` | src/shell/remoteshellmanager.cpp:471-487 | an exit callback ends whatever session its id names, another than its own exactly when its process is not that session's |
| `ShellModel.OutputHits` | src/shell/remoteshellmanager.cpp:456-469 | output is sent under the id and keeps its present session alive, another than its own exactly in the same case |
| `ShellModel.StepHomeIff` | src/shell/remoteshellmanager.cpp:173-212 | a step lets something left behind reach a session if and only if it opens one under an id for which a handler can still run |
| `ShellModel.AlwaysHomeIff` | src/shell/remoteshellmanager.cpp:167-306 | over every run nothing an earlier session left behind can reach a later one if and only if every session is opened under an id free of that |
| `ShellModel.QueuedTimerEndsReopened` | src/shell/remoteshellmanager.cpp:515-557 | a run in which a timer handler, queued before its session ended, ends the session reopened under its id |
| `ShellModel.LateExitEndsReopened` | src/shell/remoteshellmanager.cpp:471-487 | a run in which the exit of a killed process ends the session reopened under its id |
| `ShellEngine.OtpMatches` | src/shell/remoteshellmanager.cpp:231-238 | the constant-time comparison accepts exactly the non-empty password itself |
| `ShellEngine.RemoteShellManager.RequestShell` | src/shell/remoteshellmanager.cpp:49-76 | opens the one allowed session as initiator, or reports that there is one |
| `ShellEngine.RemoteShellManager.RejectRequest` | src/shell/remoteshellmanager.cpp:80-96 | tells the peer and destroys the session |
| `ShellEngine.RemoteShellManager.RespondToChallenge` | src/shell/remoteshellmanager.cpp:100-114 | only an initiator sends a password |
| `ShellEngine.RemoteShellManager.SendInput` | src/shell/remoteshellmanager.cpp:118-145 | a forbidden command kills the session; another is sent encrypted |
| `ShellEngine.RemoteShellManager.KillSession` | src/shell/remoteshellmanager.cpp:149-163 | the peer is told, the session destroyed with its process, listeners informed |
| `ShellEngine.RemoteShellManager.HandleSignaling` | src/shell/remoteshellmanager.cpp:167-306 | each signalling frame acts only for a session in the role the protocol allows |
| `ShellEngine.RemoteShellManager.HandleResponse` | src/shell/remoteshellmanager.cpp:225-267 | a match clears the password, accepts and spawns; anything else rejects and destroys |
| `ShellEngine.RemoteShellManager.HandleDecryptedData` | src/shell/remoteshellmanager.cpp:310-357 | output is passed on; input reaches the process of a receiver's session after the second screening |
| `ShellEngine.RemoteShellManager.SpawnProcess` | src/shell/remoteshellmanager.cpp:446-511 | a started process belongs to the session and arms its timer; a failed start ends the session; an unknown session is ignored |
| `ShellEngine.RemoteShellManager.ProcessOutput` | src/shell/remoteshellmanager.cpp:456-469 | output of a process of an ended session is discarded; other output resets the timer and is sent encrypted |
| `ShellEngine.RemoteShellManager.ProcessExit` | src/shell/remoteshellmanager.cpp:471-487 | the end of a process ends the session its id names |
| `ShellEngine.RemoteShellManager.ResetInactivityTimer` | src/shell/remoteshellmanager.cpp:515-542 | a session with a timer gets a new generation and one new wait, its pending one is aborted; a session without keeps none |
| `ShellEngine.RemoteShellManager.CleanupSession` | src/shell/remoteshellmanager.cpp:546-557 | the session and its process go together, its pending wait is aborted, a queued handler is not recalled |
| `ShellEngine.RemoteShellManager.TimerFired` | src/shell/remoteshellmanager.cpp:523-541 | an aborted wait, a wait of an older generation or of an ended session does nothing |
| `Identity.ConnectionStringParsesIff` | src/identity/identity.cpp:55-84 | a string is accepted as a value if and only if it is a valid uuid, "@", a non-empty ip, ":" and a colon-free text that reads as the port |
| `Parsing.PortReadsIff` | src/identity/identity.cpp:73-81 | a port is read if and only if the text spells a number from 1 to 65535 without a minus sign, whatever follows the digits |
| `Parsing.DiscoveryParsesIff` | src/identity/identity.cpp:86-124 | a username address is accepted as a value if and only if its user is a valid name and no uuid and the rest is the host, with the default port, or host, colon and a text that reads as the port |
| `Identity.RoundTrip` | src/identity/identity.cpp:38-84 | for every valid uuid, non-empty ip (colons allowed) and port 1 to 65535, parsing the printed string returns the three values |
| `Identity.PrintingIsStable` | src/identity/identity.cpp:38-84 | whatever was accepted prints to a string accepted with the same meaning |
| `Identity.ParsersDisjoint` | src/identity/identity.cpp:86-94 | no string is accepted by both parsers |
| `Identity.DiscoveryRoundTrip` | src/identity/identity.cpp:86-124 | a username address is read back from its parts, with the default port when none is given |

## Left out

- Sockets, asio internals, threads below the level of a handler, and interleavings inside one handler.
- Re-entrant listeners, and a media engine exchanged during a call: `hasMedia` is fixed for a manager.
- OpenSSL, the Double Ratchet, JSON, base64 and hex: symbolic or abstract, as described above; an undecodable field is the value the decoder yields for it.
- FileTransferEngine.FileTransfer.SendFile: the existence check before it and the choice of a fresh id and key are inputs.
- FileTransferEngine.FileTransfer.HandleFileChunk: a failing write or a full disk is not modelled; the source does not look at it either.
- Sender.RunAligned: one file per transfer id that does not change while it is sent. A number or position of a resume that overflows 64 bits wraps around in two's complement in the model; the C++ standard leaves it undefined.
- Nonce.DistinctNoncesIff: about the derivation in the model; for a base nonce under twelve bytes the program hands the cipher a shorter vector than the twelve bytes it is told to read, and what follows the vector is not part of this model.
- FileTransferEngine.FileTransfer.constructor: which directory is the downloads directory is a parameter.
- Receiver.ResumeNeverCompletes: acknowledgements that set the counter back are left to `Receiver.AckBackRepairsIff`.
- Receiver.StepKeepsPrefix: acknowledgements are those that keep the count, because any other breaks the property (`Receiver.AckKeepsPrefixIff`).
- A sender that resumes from a state its own receiving side saved under the same id.
- FileNames.SanitizeFileName: path components as on POSIX, with "/" the only separator of `std::filesystem::path`.
- The copy fallback of a rename across devices: its outcome is the input that says whether the move succeeded.
- Progress, speed and remaining-time estimates.
- The hand-off of a connection in `acceptIncoming`, where a pending read of the old entry drops what it reads: `Framing.FramesOfStream` is about one reader.
- RateLimit.PassedOverTime: fewer than 2^32 frames on one connection, so that the 32-bit counter does not wrap.
- IpBan.FailuresOverTime: a clock that does not go back.
- Relay registration, device pairing and the entries whose table key differs from the peer's uuid: of the relay, only the outcome of a relayed frame is kept.
- Keepalive, handshake contents, version comparison, tie-breaking of mutual connects.
- Reconnect.ChainOfFailures: one chain of failures without another connection attempt from outside in between; interleavings are covered by `Reconnect.AlwaysTrackedIff`.
- Port, local address, SOAP text, URL parsing and the regular expressions of the UPnP mapper: whether they find something is an input.
- Dechunk.DechunkBody: mathematical integers; the loop on 64-bit positions is `Dechunk.DechunkTurns` with the lemmas about it, for bodies shorter than 2^63.
- Random generation of call ids, session ids and one-time passwords; `CallPair` assumes unused call ids.
- CallSetup.HangUpEndsBoth: both ends of a call ending together is claimed for a hang-up that is delivered; a caller's timeout tells nobody (`CallSetup.TimeoutLeavesTheOtherAlone`).
- The regular expressions of forbidden shell commands: a function parameter.
- Process start, output reading and termination: only which processes exist, and for which session.
- SQLite storage, session settings, logging, demo mode, audio capture, update checks: thin wrappers or other programs' code.
