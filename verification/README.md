# A verified model of the chat backend

The backend stores end-to-end encrypted envelopes between devices and lets each device
fetch them by cursor; it logs devices in and revokes them; it keeps WebSocket sessions on
several worker threads; and it rests on a connection pool, an incremental HTTP parser and a
business thread pool. This project models those parts in Dafny and proves what they are
relied on for.

| file | part of the server |
|---|---|
| `bytes.dfy` | bytes, exclusive-or, optional values |
| `packet_codec.dfy`, `codec_vectors.dfy` | stored-packet hex and wire Base64; both at literal characters |
| `envelope_store.dfy` | concurrent saves: pair lock, lookup, MAX+1 insert, retries |
| `chat_service.dfy`, `save_permission.dfy` | the service's retry loop and its replies; who may store what |
| `envelope_sync.dfy`, `envelope_wire.dfy` | cursor synchronisation, paging, draining, the client's watermark; query and page in literal terms |
| `frames.dfy`, `frame_vectors.dfy` | WebSocket frames (sections 5.2, 5.3 and 5.5 of RFC 6455), in general and at literal bytes |
| `frame_stream.dfy`, `frame_handling.dfy` | the read loop; what handling frames means |
| `ws_worker.dfy`, `ws_worker_object.dfy`, `ws_fates.dfy` | one WebSocket worker, as operations on values and as objects; what each operation does to every session |
| `ws_system.dfy`, `ws_closing.dfy`, `ws_after_close.dfy` | all workers with handshakes, revocations, pushes and replies; that closing succeeds; data after a Close |
| `device_db.dfy`, `device_answers.dfy` | revocation, login tickets, refresh tokens, prekeys and saves as interleaved transactions; what they answer and that they succeed |
| `transactions.dfy` | one connection's transaction status and the commit/rollback wrapper |
| `database_pool.dfy`, `pool_service.dfy`, `pool_reclaim.dfy` | the connection pool; what borrowers get; how much a maintenance pass reclaims |
| `http_parse.dfy` | the resumable HTTP parser (sections 3, 5 and 6.2 of RFC 9112) |
| `service_pool.dfy` | the business thread pool and the shutdown order |

Concurrency is modelled by steps: a state, a set of steps that are enabled in it, and `Run`,
which plays an arbitrary schedule (a step that is not enabled leaves the state alone). The
main results hold for every schedule. Loops and methods that change fields in place are
methods proved equal to the functions the results are about.

PostgreSQL is a small trusted semantics: a statement reads committed rows, row and advisory
locks are held to the end of the transaction, primary keys are enforced, and a transaction
may abort, or commit with the acknowledgement lost, at any point. The unique indexes on the
retry key and on the pair number are not assumed; they are shown never to be needed. Clocks,
expiry, socket results, random identifiers and friendship are inputs; session, envelope and
token identifiers are assumed distinct where the source draws them from a counter or at
random.

Six promises are false of the code as it is. Each has a counterexample, a run or input of the
model, and the exact condition under which it holds:

- HTTP parsing resumes (`ResumeLaw`, `ChunkLaw`, `ResumeCounterexample`): the parser looks for
  the two spaces of the request line in the whole buffer, so the result can depend on how the
  bytes were split.
- Within one readable event, WebSocket frames do not depend on how the bytes were split
  (`SplitAgrees`, `TwoReadsAgree`, `DroppedFrame`): a malformed frame drops the good frames
  parsed before it from the same buffer.
- Across readable events they do not depend on it either (`EventsCompose`, `CloseThenPing`):
  one event drops the frames behind a client's Close, but the session is still read, so a later
  event delivers what arrives then, in a stream free of malformed frames too. What one event
  delivers and leaves in the buffer is stated exactly for every stream (`HandleReadable`).
- Nothing is written after a Close (`QuietIffCondemned`, `OutputAfterClose`): true exactly of
  sessions under a revoke deadline. A session that answered a client's Close is still read and
  pinged.
- No push or reply is written after a Close reply (`DataCanFollow`, `DataAfterCloseReply`): an
  exception in the dispatch of an earlier frame leaves the socket unmarked. Data can follow
  exactly while the socket is not closing and no revocation is queued ahead of it; for closing
  sockets only control frames follow (`NoDataAfterClose`).
- A commit whose acknowledgement is lost is answered "database unavailable"
  (`LostAcknowledgement`, `LostAcknowledgementRun`): true exactly of failures recognised as
  connection failures; the connection library also reports such a loss as a failed query.

Where code and documents differ, the code is followed. `docs/device-revocation.md` leaves
refresh tokens out of a revocation; the code revokes them in the same transaction.
One maintenance pass of the connection pool closes at most half of the idle connections,
because its loop bound shrinks as it removes them (`ReclaimExamines`, `ReclaimHalves`).

## Model

| member | source | states |
|---|---|---|
| PacketCodec.UnhexInvertsHex | src/repository/EnvelopeRepository.cpp:24-49 | decoding the hex of any byte string gives the byte string back |
| PacketCodec.HexInjective | src/repository/EnvelopeRepository.cpp:121-122 | comparing the hex of two packets is comparing the packets |
| PacketCodec.StoredPacketRoundTrip | src/repository/EnvelopeRepository.cpp:24-39 | a stored packet is read back exactly when it has 1 to 65536 bytes, and is refused otherwise |
| PacketCodec.EncodeHex | src/repository/EnvelopeRepository.cpp:40-49 | the encoding loop computes the hex function the round trips are about |
| PacketCodec.DecodePacketHex | src/repository/EnvelopeRepository.cpp:24-39 | the decoding loop, with its length and digit errors, computes the stored-packet function |
| PacketCodec.Base64Length | src/repository/EnvelopeRepository.cpp:229-229 | encoded length is exactly the page estimate, and a packet of at most 65536 bytes fits the request cap |
| PacketCodec.Unbase64InvertsBase64 | src/websocket/WebSocketDispatcher.cpp:19-34 | a strict decoder for section 4 of RFC 4648 inverts the encoder on every byte string |
| PacketCodec.Base64InvertsUnbase64 | src/websocket/WebSocketDispatcher.cpp:19-34 | every text the strict decoder accepts is what the encoder prints for the decoded bytes |
| PacketCodec.EncodePacketBase64 | src/websocket/WebSocketDispatcher.cpp:19-34 | the encoding loop computes the Base64 function the round trips are about |
| CodecVectors.HexAlphabet | src/repository/EnvelopeRepository.cpp:41-41 | the hex digits are 0123456789abcdef |
| CodecVectors.HexOfByte | src/repository/EnvelopeRepository.cpp:44-47 | a byte is printed high half first |
| CodecVectors.Base64Alphabet | src/websocket/WebSocketDispatcher.cpp:20-20 | the alphabet is capitals, small letters, digits, plus and slash, padded with = |
| CodecVectors.FooVectors | src/websocket/WebSocketDispatcher.cpp:19-34 | the vectors for one, two and three bytes of section 10 of RFC 4648 |
| EnvelopeStore.Find | src/repository/EnvelopeRepository.cpp:113-120 | the idempotency lookup returns a stored row of the key, or none exactly when the key is absent |
| EnvelopeStore.MaxIsCount | src/repository/EnvelopeRepository.cpp:138-149 | under gap-free numbering MAX(seq) of a pair is the number of its envelopes |
| EnvelopeStore.RunKeeps | src/repository/EnvelopeRepository.cpp:62-163 | every schedule of saves, aborts and lost acknowledgements keeps numbering, key uniqueness, lock exclusion and each call's knowledge |
| EnvelopeStore.GapFreeNumbering | src/repository/EnvelopeRepository.cpp:65-72 | in every reachable state the committed numbers of each unordered device pair are 1..n in commit order, whatever the lock hash |
| EnvelopeStore.AtMostOneRow | src/repository/EnvelopeRepository.cpp:113-161 | each (sender, recipient, message id) has at most one committed row |
| EnvelopeStore.RepliesAreTheStoredRow | src/repository/EnvelopeRepository.cpp:120-161 | every Success or Duplicate reply is the one committed row of its key and carries the request's own content |
| EnvelopeStore.ConflictMeansOtherContent | src/repository/EnvelopeRepository.cpp:120-124 | Conflict is answered only when the key is stored with another version or packet |
| EnvelopeStore.AtMostOneSuccess | src/service/ChatService.cpp:22-60 | over duplicates, internal retries, aborts and lost acknowledgements, at most one call per key answers Success |
| EnvelopeStore.IndexesNeverFire | src/repository/EnvelopeRepository.cpp:65-72 | an inserted row never collides with a committed one on retry key or pair number, so the lock protocol suffices |
| EnvelopeStore.LogStep | src/repository/EnvelopeRepository.cpp:138-162 | a step leaves the committed rows alone or appends one envelope numbered next in its pair |
| SavePermission.PairIsUnordered | src/repository/EnvelopeRepository.cpp:65-72 | two device pairs share a numbering and a lock exactly if they are the same two devices |
| SavePermission.WithoutPermission | src/repository/EnvelopeRepository.cpp:85-112 | a call never permitted in a run finds and inserts nothing and never answers Success, Duplicate or Conflict |
| SavePermission.RowsNeedPermission | src/repository/EnvelopeRepository.cpp:85-161 | every stored envelope was asked for by a valid request whose permission check succeeded in the run |
| SavePermission.DeniedAnswers | src/repository/EnvelopeRepository.cpp:85-111 | whatever other calls do meanwhile, a refused attempt that commits stores nothing and answers PermissionDenied |
| SavePermission.ValidMeans | src/service/ChatService.cpp:15-21 | which requests are valid, with every limit as a number |
| SavePermission.StoredLimits | src/service/ChatService.cpp:15-21 | every envelope ever stored has two different devices, an id, 1 to 65536 bytes and a version of at most 128 characters that is not blank |
| ChatService.NewTextMessage | src/service/ChatService.cpp:12-61 | at most three attempts, retried only on serialisation failure, deadlock or id collision; the reply is that of the retry loop replayed on the attempts' outcomes, and an invalid request makes no attempt |
| ChatService.CallsFollowTheLoop | src/service/ChatService.cpp:22-60 | in every run a call's state and reply are those of the same retry loop replayed on the outcomes its attempts had in the run, so the results about rows are about this loop |
| SavePermission.RetryMeans | src/service/ChatService.cpp:43-46 | retried are exactly 40001, 40P01, and 23505 on the primary key |
| SavePermission.UnavailableMeans | src/service/ChatService.cpp:50-53 | unavailable are exactly connection errors and codes of class 08 |
| SavePermission.FailureReplies | src/service/ChatService.cpp:39-54 | what each kind of failure does to a call in each attempt |
| ChatService.LostAcknowledgement | src/service/ChatService.cpp:39-54 | a commit with lost acknowledgement stores the row, and is answered "database unavailable" exactly for a non-retried failure recognised as one of the connection |
| ChatService.LostCommitIsFoundAgain | src/service/ChatService.cpp:39-54 | in every run, after a call's own commit was lost it never answers Success or Conflict and writes no second row, and a completed lookup answers Duplicate with the row it stored |
| ChatService.LostAcknowledgementRun | src/databases/DatabaseConnection.cpp:142-156 | for every valid request there is a run whose row is stored while the reply, on a loss reported as QUERY_FAILED, is an internal error |
| EnvelopeSync.QueryMembers | src/repository/EnvelopeRepository.cpp:201-219 | the query returns exactly the committed envelopes for the device above the sender's cursor (0 without one) |
| EnvelopeSync.QuerySorted | src/repository/EnvelopeRepository.cpp:217-217 | the result is strictly ordered by sender, number and id |
| EnvelopeWire.QueryContents | src/repository/EnvelopeRepository.cpp:215-216 | a committed row is returned exactly if it is for the device and above the sender's cursor, if there is one |
| EnvelopeWire.QueryOrder | src/repository/EnvelopeRepository.cpp:217-217 | rows come by sender, each sender's by rising number |
| EnvelopeSync.CheckCursors | src/repository/EnvelopeRepository.cpp:168-180 | a request is accepted exactly when it has at most 1000 distinct, non-nil, non-own, non-negative cursors, and the map built holds each of them |
| EnvelopeWire.CursorsMean | src/repository/EnvelopeRepository.cpp:168-178 | which cursor lists are valid, with the limit as a number |
| EnvelopeSync.PageUnique | src/repository/EnvelopeRepository.cpp:196-245 | the longest prefix within 100 records and 512 KiB is unique |
| EnvelopeWire.RecordCostIs | src/repository/EnvelopeRepository.cpp:229-229 | the estimate of a record is the length of its Base64 text and 2048 |
| EnvelopeWire.PageMeans | src/repository/EnvelopeRepository.cpp:197-244 | a page is the longest prefix of at most 100 records and 524288 bytes on the wire |
| EnvelopeSync.ShortPageProgress | src/repository/EnvelopeRepository.cpp:223-244 | a page that leaves rows behind carries at least five envelopes |
| EnvelopeSync.BuildPage | src/repository/EnvelopeRepository.cpp:220-245 | the page loop returns exactly that longest prefix, has_more exactly when matches remain, the budget subtraction never underflows, and it fails only on an unreadable packet |
| EnvelopeSync.AdvanceValue | src/repository/EnvelopeRepository.cpp:196-217 | after a page each sender in it has its cursor at its largest number in the page and no other cursor moves |
| EnvelopeSync.QueryAfterPage | src/repository/EnvelopeRepository.cpp:201-245 | with the cursors moved, the next query returns exactly the rows the page left |
| EnvelopeSync.SyncPage | src/repository/EnvelopeRepository.cpp:165-247 | one synchronisation is refused exactly when the user or device is nil or its cursor list is invalid (over 1000, nil, own device, negative, repeated) and otherwise returns the exact page, with progress |
| EnvelopeSync.StillAskable | src/repository/EnvelopeRepository.cpp:168-177 | after any page of a drain the next request can be refused only for having more than 1000 cursors, because no envelope is from nil or from the device itself |
| EnvelopeSync.Drain | src/repository/EnvelopeRepository.cpp:165-247 | without new saves the paging loop ends and delivers every match once, in order, if and only if the first request is acceptable and the last one names at most 1000 peers; 1000 distinct cursors and senders suffice |
| EnvelopeSync.PlayKeeps | src/repository/EnvelopeRepository.cpp:63-245 | any interleaving of saves, overlapping or lost synchronisations and pushes keeps every client's and every pending page's coverage |
| EnvelopeSync.WatermarkNeverSkips | src/repository/EnvelopeRepository.cpp:63-245 | a client has received every envelope committed to it by a sender at or below that sender's cursor |
| Frames.MaskedOfParseHead | src/websocket/WebSocketSession.cpp:41-133 | an accepted frame header is legal and is the shortest header for its length |
| Frames.PrintIsMaskedEncode | src/websocket/WebSocketSession.cpp:179-213 | a client frame is the encoder's bytes with MASK bit, key and exclusive-or added |
| Frames.ParseOneOfPrint | src/websocket/WebSocketSession.cpp:41-170 | parsing a printed legal frame followed by anything gives that frame, key and size |
| Frames.PrintOfParseOne | src/websocket/WebSocketSession.cpp:41-170 | printing what was parsed gives exactly the bytes read |
| Frames.ScanOfPrintAll | src/websocket/WebSocketSession.cpp:35-177 | parsing any list of printed legal frames gives back the list and consumes everything |
| Frames.PrintAllOfScan | src/websocket/WebSocketSession.cpp:35-177 | re-printing any accepted frames gives exactly the consumed bytes, so non-minimal lengths never pass |
| Frames.PrintAllInjective | src/websocket/WebSocketSession.cpp:35-213 | equal bytes mean equal frame lists and keys |
| Frames.ScanResumes | src/websocket/WebSocketSession.cpp:41-176 | after an error-free buffer, parsing the leftover with more bytes completes the parse of the whole |
| Frames.ErrorIsFinal | src/websocket/WebSocketSession.cpp:41-176 | an error in a prefix stays, at the same offset, in every extension |
| Frames.LeftoverIsShort | src/websocket/WebSocketSession.cpp:135-176 | at most 1048589 bytes stay unconsumed |
| Frames.TwoReadsAgree | src/websocket/WebSocketSession.cpp:64-133 | two reads give the frames of one exactly unless a malformed frame follows complete frames of the first read |
| Frames.DroppedFrame | src/websocket/WebSocketSession.cpp:64-66 | a good frame followed by a malformed one is lost in one read and delivered in two |
| Frames.Unmask | src/websocket/WebSocketSession.cpp:161-169 | the unmasking loop applies the key byte of each position modulo 4 |
| Frames.FrameParse | src/websocket/WebSocketSession.cpp:35-177 | the parser loop returns status, consumption and frames of the scan, and no frames on an error |
| Frames.FrameEncoder | src/websocket/WebSocketSession.cpp:179-213 | the encoder writes first byte, shortest length form and payload |
| Frames.EightBytes | src/websocket/WebSocketSession.cpp:202-209 | the shift loop writes the eight-byte big-endian length |
| Bytes.XorBit | src/websocket/WebSocketSession.cpp:161-169 | each bit of the unmasked byte is set exactly if the bits of byte and key differ |
| FrameVectors.FirstBytes | src/websocket/WebSocketSession.cpp:191-194 | the first byte of every kind of frame, as a number |
| FrameVectors.LengthForms | src/websocket/WebSocketSession.cpp:196-209 | the bytes of the three length forms, high byte first |
| FrameVectors.ServerFrames | src/websocket/WebSocketSession.cpp:179-213 | the unmasked examples of section 5.7 of RFC 6455 |
| FrameVectors.ClientFrames | src/websocket/WebSocketSession.cpp:52-170 | the masked examples of section 5.7 of RFC 6455, and the head of each length form |
| FrameVectors.HelloIsRead | src/websocket/WebSocketSession.cpp:35-177 | the parser reads the text Hello from exactly those bytes |
| FrameVectors.LegalMeans | src/websocket/WebSocketSession.cpp:128-133 | which frames are legal, with every limit as a number |
| FrameStream.Connection.ConsumeInput | src/server/Connection.cpp:106-112 | drops the first n input bytes, or all when there are fewer |
| FrameStream.HandleAllConcat | src/websocket/WebSocketHandler.cpp:36-40 | handling two batches one after another is handling their concatenation, stopping at the first stop |
| FrameStream.StoppedStream | src/websocket/WebSocketHandler.cpp:36-40 | once a clean stream has stopped the session, later bytes change nothing of its outcome |
| FrameStream.HandleFrame | src/websocket/WebSocketHandler.cpp:62-126 | each opcode's business frame, reply bytes and stop reason |
| FrameStream.HandleFrames | src/websocket/WebSocketHandler.cpp:36-40 | the loop over one buffer's frames does what handling the list says |
| FrameHandling.Handled | src/websocket/WebSocketHandler.cpp:62-126 | for every list of frames: it stops at the first Close, continuation or unfinished message with that frame's status, delivers exactly the messages before it, answers each ping before it with its payload and echoes the Close |
| FrameHandling.TextIsDelivered | src/websocket/WebSocketHandler.cpp:68-77 | a finished text message is delivered unchanged and nothing stops |
| FrameHandling.EventEnds | src/websocket/WebSocketHandler.cpp:44-58 | the status of an event that no frame ended |
| FrameStream.ReadChunk | src/websocket/WebSocketHandler.cpp:25-42 | after a read, ended or not, the buffer holds what a parse of all bytes so far leaves, and the session has done exactly what that parse says, or has ended |
| FrameStream.HandleReadable | src/websocket/WebSocketHandler.cpp:10-60 | for every stream, malformed or not, and every split into reads: how many reads are performed, what the buffer then holds, and that frames, reply bytes and status are those of one parse of the reads before the one that completes a malformed frame |
| FrameStream.SplitAgrees | src/websocket/WebSocketHandler.cpp:21-42 | a split delivers what one read of all bytes delivers if and only if the stream is free of malformed frames or only pongs are complete before the malformed read; for error-free streams it is the outcome of one parse |
| FrameStream.EventsCompose | src/websocket/WebSocketHandler.cpp:10-60 | for every stream: two events, the second from the buffer the first left, deliver what one event over all reads delivers if and only if the first did not stop at a frame or the second has nothing to deliver |
| FrameStream.CloseThenPing | src/websocket/WebsocketWorker.cpp:583-592 | for the stream Close, Ping one event sends the Close reply only and two events a pong as well |
| WsWorker.TellAllEffect | src/websocket/WebsocketWorker.cpp:262-269 | the completion callbacks decrement each named call once and fulfil a promise exactly at zero |
| WsWorker.RemoveKeeps | src/websocket/WebsocketWorker.cpp:246-269 | removing a session keeps the worker invariant: closing state only for live sessions, counters equal to sockets waited for |
| WsWorker.RevokeGood | src/websocket/WebsocketWorker.cpp:764-824 | a revocation task keeps the worker invariant and never revives a session or changes a session under a deadline |
| WsWorker.RevokeCaptures | src/websocket/WebsocketWorker.cpp:770-786 | after the task every remaining session of that user and device reports to the call |
| WsWorker.CondemnAllOutput | src/websocket/WebsocketWorker.cpp:787-817 | a revocation adds at most the single Close frame and never changes a deadline already set |
| WsWorker.TimerGood | src/websocket/WebsocketWorker.cpp:659-710 | a timer tick keeps the invariant and leaves no session past its deadline or pong timeout |
| WsWorker.TimerCompletes | src/websocket/WebsocketWorker.cpp:678-706 | a tick at or past every deadline completes every revocation whose task has run on the worker |
| WsFates.RemoveFate | src/websocket/WebsocketWorker.cpp:246-269 | removing a session forgets that socket and touches no other |
| WsFates.RemoveIndexFate | src/websocket/WebSocketPool.cpp:82-92 | the directory loses exactly the removed session's entry; a newer session of the same device keeps its own |
| WsFates.InsertFate | src/websocket/WebsocketWorker.cpp:490-506 | a handshake adds exactly its session and its directory entry |
| WsFates.RevokeFate | src/websocket/WebsocketWorker.cpp:764-824 | for each session: of that user and device and new to revocation, it is removed exactly if flushed or failed at once and otherwise closing until the deadline; every other session is left exactly as it was |
| WsFates.RevokeCompletes | src/websocket/WebsocketWorker.cpp:776-816 | the call is complete at once exactly if every session it was for was new to revocation and flushed or failed at once |
| WsFates.ReadableFate | src/websocket/WebsocketWorker.cpp:509-603 | which session a read removes or marks as closing, all others untouched |
| WsFates.WritableFate | src/websocket/WebsocketWorker.cpp:605-644 | after a flush a session is gone exactly if the socket broke, or all was sent and it was closing |
| WsFates.DeliverFate | src/websocket/WebsocketWorker.cpp:711-745 | a push or reply is written exactly to the addressed session if it is not closing |
| WsFates.TimerFate | src/websocket/WebsocketWorker.cpp:675-710 | for each session: gone exactly at its deadline, on a late pong or a failed registration; pinged exactly if due |
| WsFates.FateMeans | src/websocket/WebsocketWorker.cpp:518-601 | which endings of a read drop a session, which mark it, and that all others keep it |
| WsWorkerObject.WebSocketPool.AddIndex | src/websocket/WebSocketPool.cpp:76-81 | the device's entry is replaced unless the pool is stopping |
| WsWorkerObject.WebSocketPool.RemoveIndex | src/websocket/WebSocketPool.cpp:82-92 | the entry goes only if worker, socket and session id all match |
| WsWorkerObject.WebSocketPool.Close | src/websocket/WebSocketPool.cpp:60-75 | the directory is emptied and no longer filled |
| WsWorkerObject.WebsocketWorker.RunCallbacks | src/websocket/WebsocketWorker.cpp:264-268 | the callback loop does what telling the list says |
| WsWorkerObject.WebsocketWorker.RemoveSession | src/websocket/WebsocketWorker.cpp:246-269 | the object changes as the removal function says, also for an unknown socket |
| WsWorkerObject.WebsocketWorker.CondemnSocket | src/websocket/WebsocketWorker.cpp:787-816 | one captured socket gets deadline, Close frame and, if flushed or failed, removal |
| WsWorkerObject.WebsocketWorker.CollectTargets | src/websocket/WebsocketWorker.cpp:771-775 | the scan finds the sessions of that user and device in iteration order |
| WsWorkerObject.WebsocketWorker.AddCallbacks | src/websocket/WebsocketWorker.cpp:781-786 | the call's callback is hung on every captured socket |
| WsWorkerObject.WebsocketWorker.CondemnTargets | src/websocket/WebsocketWorker.cpp:787-817 | the loop over captured sockets does what condemning the list says |
| WsWorkerObject.WebsocketWorker.RevokeDevice | src/websocket/WebsocketWorker.cpp:769-822 | the posted task changes the object as the revocation function says |
| WsWorkerObject.WebsocketWorker.DeliverMessage | src/websocket/WebsocketWorker.cpp:711-745 | a push or reply is written only to a session with that id (and device) that is not closing |
| WsWorkerObject.RepliesShape | src/websocket/WebSocketHandler.cpp:79-118 | the replies to any frames are pongs with at most one Close, last, exactly when the peer's Close stopped the session |
| WsWorkerObject.ReadableWrites | src/websocket/WebsocketWorker.cpp:509-521 | a readable session's output grows by exactly the replies to the frames handled, one entry each, in order |
| WsWorkerObject.WebsocketWorker.HandleReadable | src/websocket/WebsocketWorker.cpp:509-603 | a revoked or unknown socket is not read; otherwise the read loop's replies, frames and status decide output, dispatched messages, closing and removal, also when registration fails or a dispatch throws, and the buffer holds what the reads performed leave |
| WsWorkerObject.WebsocketWorker.HandleWritable | src/websocket/WebsocketWorker.cpp:605-644 | a closing session is removed when everything is sent, any session when the socket broke |
| WsWorkerObject.WebsocketWorker.AcceptSession | src/websocket/WebsocketWorker.cpp:490-506 | the session is inserted and indexed exactly when the socket is new and its event registration succeeds; otherwise nothing changes |
| WsWorkerObject.WebsocketWorker.ScanSessions | src/websocket/WebsocketWorker.cpp:678-702 | the timer scan lists expired sessions and pings the due ones |
| WsWorkerObject.WebsocketWorker.HandleTimer | src/websocket/WebsocketWorker.cpp:675-710 | the tick changes the object as the timer function says |
| WsSystem.RunKeeps | src/websocket/WebsocketWorker.cpp:362-508 | every schedule of handshakes, revocations, tasks, reads, writes and timers keeps the system invariant |
| WsSystem.CompletedMeansGone | src/websocket/WebsocketWorker.cpp:764-824 | a worker that fulfilled a call holds none of its sessions and has no handshake about to add one |
| WsSystem.ClosedForGood | src/websocket/WebSocketPool.cpp:124-146 | once closeSession answered true for a device whose revocation committed, no worker holds a session for that user and device then or later, even if a handshake read "active" before the commit |
| WsClosing.ClosesAtOnce | src/websocket/WebSocketPool.cpp:124-146 | for every user, device, socket and call there is a run in which closeSession answers true right after a flushed Close |
| WsClosing.ClosesByDeadline | src/websocket/WebsocketWorker.cpp:678-706 | and one in which a slow peer's session stays closing until its deadline and closeSession then answers true |
| WsClosing.StoppedDirectory | src/websocket/WebSocketPool.cpp:60-81 | once the pool is stopping the directory is empty and stays so |
| WsClosing.SessionEnds | src/websocket/WebsocketWorker.cpp:605-644 | a client's Close ends with the flush of its answer and a hang-up at once: session and directory entry are gone |
| WsSystem.DirectoryNamesLiveSessions | src/websocket/WebSocketPool.cpp:76-123 | every directory entry names a live session with that worker, socket, session id, device and user |
| WsSystem.SocketReuseIsSafe | src/websocket/WebsocketWorker.cpp:541-574 | per-socket closing state exists only for live sessions and no message reaches a session it was not addressed to |
| WsSystem.CompletesOnce | src/websocket/WebsocketWorker.cpp:780-786 | a call is fulfilled at most once per worker, after its task ran, when no captured socket is left |
| WsSystem.CompletedIffNoneLeft | src/websocket/WebsocketWorker.cpp:776-786 | a call whose task ran is fulfilled exactly when none of its captured sockets is left |
| WsSystem.CondemnedIsFrozen | src/websocket/WebsocketWorker.cpp:787-797 | once a session has a revoke deadline its output and its deadline never change again and, once gone, it never returns |
| WsSystem.TickCompletes | src/websocket/WebsocketWorker.cpp:659-710 | in every run a tick at or past a worker's deadlines fulfils every call whose task has run there |
| WsSystem.OutputAfterClose | src/websocket/WebsocketWorker.cpp:583-592 | for every user, device and socket there is a run in which the answer to a client's Close is followed by a pong, a ping, or both |
| WsSystem.QuietIffCondemned | src/websocket/WebsocketWorker.cpp:509-510 | in every reachable state a live session's output can never grow again if and only if the session is under a revoke deadline |
| WsSystem.NoDataAfterClose | src/websocket/WebsocketWorker.cpp:711-745 | from the moment a session is closing only control frames are added to its output, in every continuation |
| WsAfterClose.DataCanFollow | src/websocket/WebsocketWorker.cpp:541-574 | in every reachable state a live session can still be sent a push or reply by some continuation if and only if its socket is not closing and no revocation of it is queued ahead of all data for it |
| WsAfterClose.DataAfterCloseReply | src/websocket/WebsocketWorker.cpp:523-592 | for every user, device, socket and message there is a run in which a push is written after the reply to a client's Close, because a dispatch threw before the socket was marked as closing |
| WsAfterClose.LocalControl | src/websocket/WebsocketWorker.cpp:509-710 | a worker step that does not run a task addressed to the session adds control frames to it at most |
| DeviceDb.RunKeeps | include/databases/DatabaseConnection.h:68-94 | every interleaving of the transactions keeps locks compatible and what each transaction knows of its locked rows |
| DeviceDb.RevokedDeviceHasNoLiveToken | src/repository/UserRepository.cpp:186-215 | a revoked device has only revoked refresh tokens |
| DeviceDb.NothingAfterRevocation | database/migrations/002_login_tickets.sql:32-47 | no token, prekey, claim, envelope or registration naming a device commits after its revocation |
| DeviceDb.RevocationWrites | src/repository/UserRepository.cpp:186-215 | a committed revocation revokes exactly the actor's active device and ends exactly that device's live tokens |
| DeviceAnswers.RevocationAnswers | src/repository/UserRepository.cpp:189-199 | a revocation goes on exactly for the actor's own active device, and otherwise answers the reason its row gives |
| DeviceAnswers.RevocationSucceeds | src/repository/UserRepository.cpp:186-216 | from every reachable state with no open transaction an owner can revoke an active device |
| DeviceAnswers.RevocationHappens | src/repository/UserRepository.cpp:186-216 | for every user and device there is a run that ends with its revocation |
| DeviceDb.TicketIsOneShot | src/repository/LoginTicketRepository.cpp:36-69 | a ticket is consumed by at most one commit |
| DeviceDb.CompletionWrites | src/repository/LoginTicketRepository.cpp:27-81 | a committed completion writes exactly the consumption, one live token for an active device of the ticket's user, and a device with bundle when registering |
| DeviceAnswers.LoginAnswers | src/repository/LoginTicketRepository.cpp:36-69 | what each check of a login answers, in terms of the ticket and device rows |
| DeviceAnswers.LoginSucceeds | src/repository/LoginTicketRepository.cpp:27-81 | from every reachable state with no open transaction an unconsumed ticket logs in the user's active device, or registers a new one |
| DeviceAnswers.LoginHappens | src/repository/LoginTicketRepository.cpp:8-25 | for every user, device, ticket and token there is a run in which an issued ticket logs the device in |
| DeviceDb.RotationConserves | src/repository/RefreshTokenRepository.cpp:93-131 | a rotation spends one live token and issues one for the same user and active device, so the number of live tokens stays |
| DeviceAnswers.RotationAnswers | src/repository/RefreshTokenRepository.cpp:98-112 | a rotation goes on exactly for a live unexpired token |
| DeviceAnswers.RotationSucceeds | src/repository/RefreshTokenRepository.cpp:93-131 | and then succeeds for an active device |
| DeviceDb.OnlyCommitsWrite | include/databases/DatabaseConnection.h:76-93 | refusals, statements and aborts leave the committed rows alone |
| DeviceDb.PrekeyIsClaimedOnce | src/repository/KeyRepository.cpp:292-317 | no two committed claims return the same device and prekey id |
| DeviceDb.PrekeysOnlyGetClaimed | src/repository/KeyRepository.cpp:264-317 | a prekey goes only from available to claimed and is never withdrawn |
| DeviceDb.UploadIsWhole | src/repository/KeyRepository.cpp:208-251 | a committed upload adds exactly its batch, all available, over no existing key |
| DeviceAnswers.DeviceAnswersOf | src/repository/KeyRepository.cpp:213-224 | uploads, claims and saves go on exactly for active devices of the right owner |
| DeviceAnswers.UploadSucceeds | src/repository/KeyRepository.cpp:208-251 | new keys for the user's active device are stored |
| DeviceAnswers.ClaimSucceeds | src/repository/KeyRepository.cpp:292-317 | a claim takes the smallest available prekey |
| DeviceAnswers.ClaimPassesOver | src/repository/KeyRepository.cpp:292-311 | a smaller available prekey is passed over only while another transaction holds it, and NoPrekey means that all are held so |
| DeviceAnswers.ClaimWrites | src/repository/KeyRepository.cpp:301-307 | a committed claim changes exactly that key, from available to claimed |
| DeviceAnswers.SaveSucceeds | src/repository/EnvelopeRepository.cpp:73-112 | a save between active devices is stored |
| Transactions.DatabaseConnection.Begin | src/databases/DatabaseConnection.cpp:161-184 | begins exactly on a clean connection the server accepts; a failed BEGIN gives the connection up |
| Transactions.DatabaseConnection.Commit | src/databases/DatabaseConnection.cpp:186-200 | makes the transaction durable exactly when the server does, which a broken connection may hide |
| Transactions.DatabaseConnection.Rollback | src/databases/DatabaseConnection.cpp:202-225 | leaves the connection clean or closed and commits nothing |
| Transactions.DatabaseConnection.WithTransaction | include/databases/DatabaseConnection.h:68-94 | returns exactly when everything up to the commit succeeded and then it is durable; a throw means nothing is durable except after a lost acknowledgement; the connection is left clean or closed |
| Transactions.DatabaseConnection.Reset | src/databases/DatabaseConnection.cpp:53-80 | true means clean, false means closed, for every transaction status and server reaction |
| DatabasePools.Conservation | src/databases/DatabasePool.cpp:7-199 | in every reachable state the counter is idle plus lent plus being opened and at most the maximum, no connection is in two places, and every connection ever opened is idle, lent or closed exactly once |
| DatabasePools.LendsExclusively | src/databases/DatabasePool.cpp:100-142 | a borrower gets a connection nobody holds, and the pool gives it up in the same step |
| DatabasePools.CloseIsFinal | src/databases/DatabasePool.cpp:179-199 | once a close of an initialised pool returned, for ever nothing is idle, lent or being opened, every connection is closed, maintenance has ended and no getConnection succeeds |
| DatabasePools.CloseWaitsForLeases | src/databases/DatabasePool.cpp:192-194 | a stopped pool lends nothing and close's wait ends exactly when no lease and no opening is outstanding |
| DatabasePools.ReclaimKeeps | src/databases/DatabasePool.cpp:45-62 | reclaiming never takes a lent connection and never goes below the minimum |
| PoolReclaim.ReclaimExamines | src/databases/DatabasePool.cpp:45-62 | for any overdue set one pass looks at the first e idle connections, closes the overdue among them up to the surplus and requeues the others, where e is the one first index that meets the shrinking queue; at most half of the queue, rounded up, is closed |
| PoolReclaim.ReclaimHalves | src/databases/DatabasePool.cpp:46-62 | if all n idle connections are overdue and surplus, one pass closes exactly the first half, rounded up |
| DatabasePools.MaintainedAreAlive | src/databases/DatabasePool.cpp:63-94 | after a maintenance pass every idle connection was found alive, and the pool grew by at most one and only from below its minimum |
| PoolService.ServedUnlessFull | src/databases/DatabasePool.cpp:102-118 | in every reachable state a running pool refuses exactly when the maximum is lent or being opened, and otherwise lends the front of the queue or lets the borrower open one |
| PoolService.ReleaseFate | src/databases/DatabasePool.cpp:148-163 | a returned connection is queued exactly if the pool runs and its reset succeeded |
| PoolService.BadReturnIsFinal | src/databases/DatabasePool.cpp:148-160 | a connection returned with a failed reset is closed and never idle or lent again |
| PoolService.InitMeans | src/databases/DatabasePool.cpp:7-37 | when starting succeeds, when it is refused, and what it leaves |
| PoolService.AliveStays | src/databases/DatabasePool.cpp:63-83 | a connection found alive stays idle |
| PoolService.ReplacementKeepsSize | src/databases/DatabasePool.cpp:68-78 | dead connections are replaced one for one while new ones come up alive |
| PoolService.HealthyPass | src/databases/DatabasePool.cpp:45-94 | with every connection alive a pass only reclaims, and opens exactly one when below the minimum |
| PoolService.LastPass | src/databases/DatabasePool.cpp:43-93 | when the maintenance thread ends |
| DatabasePools.DatabasePool.Initialize | src/databases/DatabasePool.cpp:7-37 | reply and new state for a second call, a bad configuration, a failing constructor and a failing thread start |
| DatabasePools.DatabasePool.GetConnection | src/databases/DatabasePool.cpp:100-118 | front of the queue, permission to open one, closed or timed out, with the matching state |
| DatabasePools.DatabasePool.FinishConnection | src/databases/DatabasePool.cpp:119-141 | the opened connection is lent only if the pool still runs; otherwise the count is given back |
| DatabasePools.DatabasePool.ReleaseReturned | src/databases/DatabasePool.cpp:144-177 | back to the queue only if running and reset succeeded; otherwise closed and uncounted |
| DatabasePools.DatabasePool.ReclaimIdle | src/databases/DatabasePool.cpp:45-62 | the reclaim loop computes the function the results are about |
| DatabasePools.DatabasePool.CheckAlive | src/databases/DatabasePool.cpp:63-83 | the liveness loop computes the function the results are about |
| DatabasePools.DatabasePool.MaintenancePass | src/databases/DatabasePool.cpp:40-96 | one pass of the maintenance thread, and when it is the last |
| DatabasePools.DatabasePool.Close | src/databases/DatabasePool.cpp:179-191 | stops the pool and closes every idle connection |
| HttpParsing.ResumeLaw | src/http/HttpParse.cpp:9-86 | parsing a buffer and then its leftover with more bytes is parsing the whole, if and only if the request line is complete with two spaces before its CRLF, or no CRLF has come, or no byte or no second space follows |
| HttpParsing.ResumeCounterexample | src/http/HttpParse.cpp:98-111 | a request line without version is refused alone and accepted when a later space is in the buffer |
| HttpParsing.ChunkIndependence | src/http/HttpSession.cpp:16-33 | with two spaces before the first CRLF of the stream, any number of reads ends in the state, request, status and consumption of one parse |
| HttpParsing.ChunkLaw | src/http/HttpSession.cpp:16-33 | any number of reads ends as one parse does if and only if the request line is steady at the first read boundary by which its CRLF has come |
| HttpParsing.PrintedParses | src/http/HttpParse.cpp:98-198 | every well-formed message parses back to its request and the following bytes are left |
| HttpParsing.AcceptedIsPrinted | src/http/HttpParse.cpp:98-193 | every accepted request is a printed well-formed message |
| HttpParsing.AcceptsExactlyPrinted | src/http/HttpParse.cpp:9-193 | a fresh parser completes after exactly n bytes, with a sound request line, if and only if those n bytes are a printed well-formed message |
| HttpParsing.FieldMoves | src/http/HttpParse.cpp:133-177 | what a header line does: name, value without leading spaces, last Content-Length kept |
| HttpParsing.MethodNames | src/http/HttpParse.cpp:200-211 | a method is recognised by exactly its own name, and every other token is unknown |
| HttpParsing.LastFieldWins | src/http/HttpParse.cpp:160-162 | the request's header of a name is the value of the last field with that name |
| HttpParsing.DecimalReadsBack | src/http/HttpParse.cpp:212-227 | reading a printed decimal gives the number |
| HttpParsing.LengthFieldIsGood | src/http/HttpParse.cpp:212-241 | a printed Content-Length is accepted exactly up to 1 MiB |
| HttpParsing.LengthHeader | src/http/HttpParse.cpp:160-171 | a Content-Length header sets the length exactly up to 1048576 and is refused above; no other header touches it |
| HttpParsing.BodyRoundTrip | src/http/HttpParse.cpp:179-193 | a message with any body can be sent and parses back exactly when the body is at most 1 MiB |
| HttpParsing.HttpParse.ParseRequestLine | src/http/HttpParse.cpp:98-113 | the request-line step, its error and its wrap-around |
| HttpParsing.HttpParse.SkipSpaces | src/http/HttpParse.cpp:155-158 | the trimming loop removes exactly the leading spaces |
| HttpParsing.HttpParse.ParseHeader | src/http/HttpParse.cpp:114-178 | the header step, the blank line, and the errors |
| HttpParsing.HttpParse.ParseContentLength | src/http/HttpParse.cpp:212-241 | the length is stored only if the text is a complete decimal within the limit |
| HttpParsing.HttpParse.ParseBody | src/http/HttpParse.cpp:179-193 | exactly the announced bytes become the body |
| HttpParsing.HttpParse.ParseBuffer | src/http/HttpParse.cpp:9-86 | the loop computes state, request, status and consumption of the parser function |
| HttpParsing.HttpParse.TakeRequest | src/http/HttpParse.cpp:88-97 | hands out a complete request and starts afresh; otherwise fails and changes nothing |
| ServicePool.TakenInOrder | src/service/ServiceThreadPool.cpp:30-38 | tasks are taken in the order of acceptance, none lost and none twice |
| ServicePool.RunsAtMostOnce | src/service/ServiceThreadPool.cpp:30-48 | at any time a task has been run, or is being run, at most once, and only if accepted |
| ServicePool.AcceptedUntilClose | src/service/ServiceThreadPool.cpp:54-66 | a task is accepted exactly until the owner begins to close the pool |
| ServicePool.DrainedOnClose | src/service/ServiceThreadPool.cpp:68-84 | when close has returned every accepted task has run exactly once, thrown or not, and nothing happens to any task afterwards |
| ServicePool.RepliesFindTheirWorker | src/main.cpp:305-307 | in the shutdown order every business reply finds its WebSocket worker alive |
| ServicePool.CloseNeverStuck | src/service/ServiceThreadPool.cpp:77-81 | while close waits for a thread, that thread can take a task, finish one or leave |
| ServicePool.ServiceThreadPool.ReceiveTask | src/service/ServiceThreadPool.cpp:54-66 | a task is queued last, or refused when the pool is stopping |
| ServicePool.ServiceThreadPool.NextTask | src/service/ServiceThreadPool.cpp:30-38 | a thread takes the first task, and leaves only when stopping with nothing queued |

## Left out

- Sockets, epoll, event and timer descriptors, signals and the TCP listener: only their results appear, as inputs.
- The HTTP worker pool (`src/server/ThreadPool.cpp`), router, handlers, JSON parsing and error-code mapping: flat branching.
- Tokens' cryptography, password hashing, key formats, TLS and random generation: opaque; fresh identifiers are assumed distinct.
- Account activity, friendship and expiry are inputs of the transactions that check them; friend requests are not modelled.
- Acknowledging envelopes (`ackEnvelopes`), the received-at time and the device check of a synchronisation: single-row updates and checks.
- The repositories' transactions are modelled on values, as steps between which others run, because their interleaving is the subject; SQL text is not modelled.
- A statement that locks two rows takes both locks in one step.
- Deadlock detection, statement failures and constraint violations all appear as an abort, which is always possible.
- Condition-variable wake-ups: a wait is a step enabled when its condition holds, so lost or delayed notifications are not modelled.
- Allocation failure, 64-bit wrap-around of counters and stale events within one epoll batch.
- A connection constructor that throws in the pool's maintenance thread ends the process, so it ends the modelled run.
- Re-initialising the WebSocket pool or the business thread pool after a close.
- The output buffer's flushing by byte counts: a flush is all sent, some sent, would block, or broken.
- The hop by which an online push triggered by a reply reaches another worker: pushes to devices are steps of their own.
- Closing a session by worker, socket and id (`enqueuecloseSession`), which nothing calls.
- JSON message parsing of a WebSocket session (`ApplicationParse`).
- DeviceDb.OnlyCommitsWrite: that the server undoes the uncommitted writes of an aborted transaction is part of the trusted PostgreSQL semantics, so uncommitted writes are not in the database value; what the wrapper sends is `Transactions.DatabaseConnection.WithTransaction`.
