# TDLib in Dafny

This project models the hard cores of TDLib and proves what they are for.

* **The MTProto session sender.** `Session` gives `SessionConnection`, `AuthData` and `CryptoImpl` as functions on
  values; `SessionConnection` and `AuthData` have the objects that update their fields in place, each method proved to
  do what the functions say. `SessionScheduling` proves that the write loop terminates and leaves nothing overdue,
  `SessionConservation` that no request is lost or doubled, and `SessionRuns` both over every run. `CryptoStorer` and
  `ContainerCodec` build packets and take them apart again.
* **The replay window.** `ReplayWindow` proves that a sorted array of 2N identifiers stands for the set of the newest N.
* **Concurrent structures**, as state machines over single accesses: `BufferQueue` (a ring with wrapping, cached
  indices), `BufferedFdQueue` (sleep and wake-up), `Memprof` (a compare-and-swap hash table and its accounts).
* **Wire codecs.** `Envelope` (encryption and padding), `Framing` and `ObfuscatedTransport` (TCP frames, stream cipher,
  emulated TLS records), `TlsHello`, `DefaultHello`, `HelloExtensions` and `HelloGrease` (the two-pass ClientHello
  writer, and what a server reads), `TlSchema`, `TlCode`, `TlRoundTrip`, `TlSeparation`, `TlContents` and `TlGuard`
  (the TL compiler), `TlLimits` (schemas and values it does not serve), `ProxySecret` (the link form of proxy secrets).
  `Bytes` and `TlPrimitives` hold what they share.
* **The source splitter.** `Splitter`: union-find with path compression, and greedy packing.

Where a property holds only under a condition, the condition is part of the statement, in both directions: an abridged
frame is read back if and only if the message is a whole number of words (the writer's CHECK tests the number of words
instead); scope lengths of a hello survive the hash if and only if none lies under it; a TL value is read back if and
only if its vectors announce no more elements than bytes follow, its flags are not negative, and no field of it is
stored under a test of a # that is not there; generated fetch and store code agree unless a boxed Bool or # has a single
constructor or a conditional True is boxed; containers and envelopes need bodies divisible by four.

The third condition on TL values comes from the variables of the generated store functions: they are uninitialised
locals, and unlike the fetch code the store code does not clear the variable of a conditional # that is not there. The
model answers every test of an unassigned variable by an arbitrary function. It tells a value, whose absent fields are
just absent, from the C++ objects that fill it, whose absent fields hold anything their types allow; the round trip is
for all of them. No shipped schema has a conditional #, so all meet the guard of `TlGuard.GuardedRoundTrip`.

The comment on `check_message_id_duplicates` describes a set of the last N identifiers; the code keeps up to 2N, and so
accepts, or calls duplicates, some identifiers that the set would call too old. `ReplayWindow.StepSimulates` says exactly
which. The model follows the code.

Cryptographic primitives, clocks, random numbers and the order in which bytes or threads arrive are parameters:
statements hold for all of them.

`dafny verify dfyconfig.toml` checks everything.

## Model

| member | source | states |
|---|---|---|
| SessionScheduling.StepDescends | td/mtproto/SessionConnection.cpp:664-670 | every guarded round of the write loop goes down in the measure (transport turn, pending items, armed deadline, due ping, salt request and key destruction), in all three modes; this is why `before_write` terminates |
| SessionScheduling.LoopEndsOnTime | td/mtproto/SessionConnection.cpp:606-670 | when the loop ends nothing is due; over TCP with a key and pending work the wake-up is set, with a salt `force_send_at_ >= now` and the wake-up is no later than it, without one the wake-up is the next salt request |
| SessionScheduling.EarlyReturnLeavesNothing | td/mtproto/SessionConnection.cpp:918-922 | guarded by `must_flush_packet`, the early return of `flush_packet` is taken only over TCP, with a salt and with nothing pending |
| SessionScheduling.BeforeWriteKeepsArmed | td/mtproto/SessionConnection.cpp:664-670 | a whole write loop keeps "pending work has a deadline" |
| SessionScheduling.StepKeepsArmed | td/mtproto/SessionConnection.cpp:998-1002 | one guarded flush keeps "pending work has a deadline" |
| SessionScheduling.StepFields | td/mtproto/SessionConnection.cpp:861-1002 | what one guarded flush does to every field the schedule depends on: timers, turn and deadline |
| SessionScheduling.QueriesFit | td/mtproto/SessionConnection.cpp:897-906 | a packet takes as many queries as there are, at most 1020, and none after the first 2^15 bytes |
| SessionScheduling.DrainShrinks | td/mtproto/SessionConnection.cpp:888-951 | a packet never adds pending work, and with a salt it takes something whenever anything is pending |
| SessionScheduling.DueAfter | td/mtproto/SessionConnection.cpp:853-895 | after a guarded flush a ping still due was due before and lacked a salt, a salt request still due was not made, and key destruction is no longer due |
| SessionScheduling.NoSaltAsks | td/mtproto/SessionConnection.cpp:645-655 | without a salt a guarded flush asks for salts |
| SessionScheduling.SameParts | td/mtproto/SessionConnection.cpp:606-662 | `must_flush_packet` changes nothing that the packet is made from |
| SessionScheduling.RefreshIdempotent | td/mtproto/AuthData.h:222-230 | asking about salts twice at one time is asking once |
| SessionScheduling.TakenAndLeft | td/mtproto/SessionConnection.cpp:932-943 | `cut_tail` splits a queue without losing or repeating anything |
| SessionRuns.EveryRun | td/mtproto/SessionConnection.cpp:767-850 | over every run from a fresh connection: pending work has a deadline; the queries sent followed by those waiting are exactly the queries asked for, in the order of asking and each once, without the cleared ones, and a cleared query is never sent; the identifier rules and the accounts of all other requests hold |
| SessionRuns.RunKeepsOrder | td/mtproto/SessionConnection.cpp:767-782 | over every run the queries asked for have growing identifiers, none above the last one drawn |
| SessionRuns.LiveAreKept | td/mtproto/SessionConnection.cpp:330-336 | when ascending queries are accounted for as live or cleared, the live ones are the rest in their order and share none with the cleared ones |
| SessionRuns.RunKeeps | td/mtproto/SessionConnection.cpp:562-604 | every run of queries, requests, answers, failures, salts, reads and writes keeps soundness (identifier rules, container dominance, deadline, fresh keys) and balance (each request pending, sent, in flight or answered) |
| SessionRuns.EventKeeps | td/mtproto/SessionConnection.cpp:435-447 | every single event keeps soundness and balance |
| SessionRuns.WriteKeeps | td/mtproto/SessionConnection.cpp:664-670 | a write loop keeps soundness and balance |
| SessionRuns.TooHighKeeps | td/mtproto/SessionConnection.cpp:330-336 | clearing the waiting queries on MsgIdTooHigh keeps the accounts: exactly the waiting queries are given up |
| SessionRuns.AnswerKeeps | td/mtproto/SessionConnection.cpp:435-447 | an answer removes exactly the requests of its service query from the accounts |
| SessionRuns.FailureKeeps | td/mtproto/SessionConnection.cpp:562-604 | a failure report keeps soundness and balance |
| SessionRuns.QueryKeeps | td/mtproto/SessionConnection.cpp:767-782 | a new query keeps soundness and balance and is last in the order |
| SessionRuns.AckKeeps | td/mtproto/SessionConnection.cpp:835-850 | an acknowledgement keeps soundness and balance |
| SessionRuns.GoneForGood | td/mtproto/SessionConnection.cpp:584-604 | a service query that was answered or requeued never appears again under its identifier in any continuation of the run |
| SessionRuns.WriteBringsNoneBack | td/mtproto/SessionConnection.cpp:968-975 | a write loop brings no gone service query back |
| SessionRuns.NewPacketOk | td/mtproto/SessionConnection.cpp:955-966 | every message of a new packet was created by this session and its container dominates it |
| SessionConservation.FlushConservesSent | td/mtproto/SessionConnection.cpp:888-951 | one flush: queries leave from the front in order, acknowledgements and cancellations move from pending to sent, nothing is lost or repeated |
| SessionConservation.FlushConservesService | td/mtproto/SessionConnection.cpp:944-975 | one flush: state and resend requests move from pending to exactly one new in-flight service query |
| SessionConservation.FreshIds | td/mtproto/SessionConnection.cpp:968-975 | the identifiers of new service queries are in use nowhere, so the map insertions take effect |
| SessionConservation.FlushKeepsKeys | td/mtproto/SessionConnection.cpp:968-996 | a flush adds only fresh keys |
| SessionConservation.RequeueConserves | td/mtproto/SessionConnection.cpp:584-604 | requeueing moves the requests of one service query back to their queue and forgets the query; for an unknown identifier it changes nothing |
| SessionConservation.RequeueAllConserves | td/mtproto/SessionConnection.cpp:562-582 | the same for all service queries of a container |
| SessionConservation.FailureRequeuesOnce | td/mtproto/SessionConnection.cpp:562-604 | a failure report requeues each in-flight request of its targets; a repeated report for the message or its container requeues nothing |
| SessionConservation.FlushKeepsAuthOk | td/mtproto/SessionConnection.cpp:955-966 | a flush keeps the identifier and sequence rules |
| SessionConnection.Connection.SendBefore | td/mtproto/SessionConnection.cpp:1004-1008 | keeps the earlier of two deadlines |
| SessionConnection.Connection.SendQuery | td/mtproto/SessionConnection.cpp:767-782 | draws an identifier and a sequence number and appends the query; the state is that of the value model and the identifier is returned |
| SessionConnection.Connection.GetStateInfo | td/mtproto/SessionConnection.cpp:784-789 | appends a state request, armed at once |
| SessionConnection.Connection.ResendAnswer | td/mtproto/SessionConnection.cpp:791-796 | appends a resend request, armed after its delay |
| SessionConnection.Connection.CancelAnswer | td/mtproto/SessionConnection.cpp:797-802 | appends a cancellation, armed after its delay |
| SessionConnection.Connection.SendAck | td/mtproto/SessionConnection.cpp:835-850 | appends an acknowledgement unless it repeats the last one; many pending ones are sent at once |
| SessionConnection.Connection.OnMessageFailed | td/mtproto/SessionConnection.cpp:562-582 | restarts ping and key destruction and requeues the targets of the failed message |
| SessionConnection.Connection.OnMessageFailedInner | td/mtproto/SessionConnection.cpp:584-604 | puts the requests of one service query back, in order, and forgets it |
| SessionConnection.Connection.OnMsgsStateInfo | td/mtproto/SessionConnection.cpp:423-447 | forgets the query and reports whether it was a state request of the right size |
| SessionConnection.Connection.MustFlushPacket | td/mtproto/SessionConnection.cpp:606-662 | decides whether to flush and computes the wake-up, both as the value model says |
| SessionConnection.Connection.CutTail | td/mtproto/SessionConnection.cpp:932-943 | the last elements leave, and what is left followed by them is the old queue |
| SessionConnection.Connection.TakeQueries | td/mtproto/SessionConnection.cpp:897-910 | takes the longest prefix of queries that starts below the size and number limits |
| SessionConnection.Connection.Gather | td/mtproto/SessionConnection.cpp:861-951 | all parts of the packet, and the drained queues and timers, are those of the value model |
| SessionConnection.Connection.Send | td/mtproto/SessionConnection.cpp:953-1002 | builds and sends the packet and records service queries, ping and container; the whole new state is that of the value model |
| SessionConnection.Connection.FlushPacket | td/mtproto/SessionConnection.cpp:861-1002 | the whole new state is the value model's flush of the old one; the early return is taken on the test of the queues before `cut_tail` |
| Session.NothingToFlush | td/mtproto/SessionConnection.cpp:918-922 | the test for the early return, made on the queues, holds exactly when the packet would be empty; so the CHECK on `cnt_` of the builder follows from it |
| SessionConnection.Connection.BeforeWrite | td/mtproto/SessionConnection.cpp:664-670 | the loop terminates and its whole effect is the value model's write loop |
| AuthData.LookupsPickLatestDue | td/mtproto/AuthData.cpp:162-168 | after any lookups the current salt has the greatest `valid_since` below the largest server time seen, or is the original one if none is due; what remains is sorted and not yet due |
| AuthData.UpdateSaltIdempotent | td/mtproto/AuthData.cpp:162-168 | `update_salt` at a fixed time is idempotent |
| AuthData.UpdateSaltSplits | td/mtproto/AuthData.cpp:162-168 | `update_salt` cuts a sorted list exactly between the due and the not yet due salts |
| AuthData.InstallPicksLatestDue | td/mtproto/AuthData.cpp:85-93 | an installed list in any order leaves its latest due salt current and keeps exactly the later ones |
| AuthData.InstalledThenLookedUp | td/mtproto/AuthData.cpp:85-93 | after installing a list in any order and then any lookups, the current salt is the latest of the list that is due at the largest server time seen |
| AuthData.PickIdIsNearClock | td/mtproto/AuthData.cpp:101-118 | an identifier is larger than the last and a multiple of 4; a clock-derived one is within 2^22 of the clock, a fallback one 8 to 8192 above the last |
| AuthData.MintKeepsAuthOk | td/mtproto/AuthData.h:252-259 | every new message keeps the rules over the whole history: strictly increasing multiples of 4, and sequence number twice the earlier content messages plus one for content |
| AuthData.AuthDataObject.RefreshSalt | td/mtproto/AuthData.cpp:162-168 | pops due salts one by one until the value model's result is reached |
| AuthData.AuthDataObject.HasSalt | td/mtproto/AuthData.h:222-225 | refreshes and tells whether the current salt is valid for another minute |
| AuthData.AuthDataObject.NeedFutureSalts | td/mtproto/AuthData.h:227-230 | refreshes and tells whether salts should be requested |
| AuthData.AuthDataObject.SetServerSalt | td/mtproto/AuthData.h:210-216 | replaces the current salt and forgets the future ones |
| AuthData.AuthDataObject.SetFutureSalts | td/mtproto/AuthData.cpp:85-93 | sorts the list and refreshes |
| AuthData.AuthDataObject.NextMessageId | td/mtproto/AuthData.cpp:101-118 | draws the next identifier |
| AuthData.AuthDataObject.NextSeqNo | td/mtproto/AuthData.h:252-259 | takes the next sequence number |
| CryptoStorer.BuildCarries | td/mtproto/CryptoStorer.h:197-241 | the packet carries exactly the queries, acknowledgements and cancellations it was given, and `cnt_` is the number of its messages |
| CryptoStorer.BuildIds | td/mtproto/CryptoStorer.h:197-241 | the reported identifiers are set exactly for what was asked, fresh, distinct and below the container's |
| CryptoStorer.BuildExtends | td/mtproto/CryptoStorer.h:34-41 | the history grows by exactly the service messages and the container, all within the identifier rules |
| CryptoStorer.ContainerDominates | td/mtproto/CryptoStorer.h:197-311 | a container's identifier exceeds those of all its messages and its sequence number is at least theirs |
| CryptoStorer.CountIsNumber | td/mtproto/CryptoStorer.h:219-221 | `cnt_` counts queries and service messages |
| CryptoStorer.ObjectImpl | td/mtproto/CryptoStorer.h:34-41 | a service message takes an identifier and a sequence number only when present |
| CryptoStorer.CancelVectorImpl | td/mtproto/CryptoStorer.h:79-93 | one message per cancellation, in order |
| CryptoStorer.CryptoImpl | td/mtproto/CryptoStorer.h:190-311 | creates all service messages, chooses between a container and a single message; no CHECK or UNREACHABLE is reached for a non-empty packet |
| CryptoStorer.OnlyMessage | td/mtproto/CryptoStorer.h:242-272 | without a container, the first kind that is present holds the only message; the last branch is never reached |
| ContainerCodec.BodyAligned | td/mtproto/CryptoStorer.h:106-151 | a body is a whole number of words exactly when its unpacked query data and header are |
| ContainerCodec.FrameRoundTrip | td/mtproto/SessionConnection.cpp:184-209 | `parse_message` undoes the storer exactly when the body is a whole number of words |
| ContainerCodec.ParsedIsStored | td/mtproto/SessionConnection.cpp:184-209 | what `parse_message` accepts is exactly a stored message and what follows it |
| ContainerCodec.ParsedAreStored | td/mtproto/SessionConnection.cpp:211-227 | a list of parsed messages is exactly the stored bytes at the front |
| ContainerCodec.FramesRoundTrip | td/mtproto/SessionConnection.cpp:211-227 | a list of such frames parses back, leaving what follows |
| ContainerCodec.ContainerRoundTrip | td/mtproto/CryptoStorer.h:173-188 | `on_packet_container` recovers identifiers, sequence numbers and bodies exactly when every body is a whole number of words |
| ContainerCodec.PacketRoundTrip | td/mtproto/SessionConnection.cpp:953-966 | the container that `flush_packet` builds parses back into its messages exactly when its queries are whole numbers of words |
| ContainerCodec.TlParser.ParseNext | td/mtproto/SessionConnection.cpp:184-209 | reads one message or fails, consuming what the value parser consumes |
| ContainerCodec.OnPacketContainer | td/mtproto/SessionConnection.cpp:211-227 | reads as many messages as announced, or fails at the first bad one |
| TlPrimitives.StringRoundTrip | tdutils/td/utils/tl_parsers.h:136-172 | a stored string is fetched back, in all three length formats, leaving what follows |
| ReplayWindow.NeverAcceptedTwice | td/mtproto/AuthData.cpp:20-46 | for every window size and every input sequence, no identifier is accepted twice, even after compaction has forgotten it |
| ReplayWindow.RunSimulates | td/mtproto/AuthData.cpp:20-46 | over every input sequence the newest min(N, end) entries equal the N-element set, every identifier the set accepts is accepted, "very old" implies the set's, and the set's "duplicate" implies the array's |
| ReplayWindow.StepSimulates | td/mtproto/AuthData.cpp:20-46 | one check does the same, and the answers differ exactly for identifiers below the set but not below the array's bottom |
| ReplayWindow.CheckKeepsOrder | td/mtproto/AuthData.cpp:20-46 | the array stays strictly ascending and within 2N |
| ReplayWindow.StepRemembers | td/mtproto/AuthData.cpp:24-27 | an accepted identifier stays in the array or below its bottom, and is refused from then on |
| ReplayWindow.AcceptedStaysRemembered | td/mtproto/AuthData.cpp:20-46 | the same over runs |
| ReplayWindow.IdDuplicateCheckerOld.Check | benchmark/bench_misc.cpp:427-455 | the set checker that looks first implements the protocol's rule |
| ReplayWindow.IdDuplicateCheckerNew.Check | benchmark/bench_misc.cpp:457-483 | the set checker that inserts first gives the same answers and the same set |
| ReplayWindow.MessageIdDuplicateChecker.Check | td/mtproto/AuthData.cpp:20-46 | compaction, fast path, binary search and shifting in place do what the value model says |
| ReplayWindow.MessageIdDuplicateChecker.Compact | td/mtproto/AuthData.cpp:25-28 | a full array keeps exactly its upper half |
| ReplayWindow.MessageIdDuplicateChecker.Search | td/mtproto/AuthData.cpp:38-38 | binary search finds the lower bound |
| ReplayWindow.MessageIdDuplicateChecker.InsertAt | td/mtproto/AuthData.cpp:42-44 | shifting makes room and changes no other element |
| BufferQueue.FirstInFirstOut | benchmark/bench_queue.cpp:210-331 | for every interleaving, stale loads and wrap-around included, what the reader has got is the beginning of what the writer has put, never ahead of what was published |
| BufferQueue.RunKeeps | benchmark/bench_queue.cpp:210-331 | every interleaving keeps the ring a representation of the unbounded queue |
| BufferQueue.StepKeeps | benchmark/bench_queue.cpp:257-281 | every single access keeps it |
| BufferQueue.PutKeeps | benchmark/bench_queue.cpp:270-272 | a put overwrites no unread slot |
| BufferQueue.GetKeeps | benchmark/bench_queue.cpp:257-259 | a get returns the oldest unread value |
| BufferQueue.ReadyMeans | benchmark/bench_queue.cpp:241-255 | the tests on wrapped, cached indices give exactly the number of values that can be read, or put, without another look |
| BufferQueue.Queue.PutUnsafe | benchmark/bench_queue.cpp:270-272 | writes the slot and moves the index modulo 2^32 |
| BufferQueue.Queue.GetUnsafe | benchmark/bench_queue.cpp:257-259 | reads the slot and moves the index |
| BufferQueue.Queue.UpdateWriter | benchmark/bench_queue.cpp:278-281 | takes over the reader's published index |
| BufferQueue.Queue.UpdateReader | benchmark/bench_queue.cpp:265-268 | takes over the writer's published index |
| BufferQueue.Queue.FlushWriter | benchmark/bench_queue.cpp:274-276 | publishes the writer's index |
| BufferQueue.Queue.FlushReader | benchmark/bench_queue.cpp:261-263 | publishes the reader's index |
| BufferQueue.Queue.PutNoflush | benchmark/bench_queue.cpp:313-322 | writes exactly when there is room, looking again once if the cached index says full |
| BufferedFdQueue.NoLostWakeup | benchmark/bench_queue.cpp:346-425 | in every interleaving, a reader at its blocking read with a published value unread has a positive counter or a writer still between its publish and its write |
| BufferedFdQueue.ActKeeps | benchmark/bench_queue.cpp:346-425 | every act keeps the wake-up invariant: flag, emptiness at the blocking read, counter |
| BufferedFdQueue.RunSafe | benchmark/bench_queue.cpp:346-425 | every run keeps it |
| BufferedFdQueue.WokenWithinTwo | benchmark/bench_queue.cpp:346-366 | while such a reader waits on an empty counter only the writer can act, and after at most two of its acts the counter is positive |
| BufferedFdQueue.WokenReaderProceeds | benchmark/bench_queue.cpp:391-399 | a woken reader leaves its loop with all published values ready |
| Envelope.EndToEndRoundTrip | td/mtproto/Transport.cpp:321-331 | what one end-to-end side writes the other reads back, in both versions and roles, exactly when the length check permits it and version 1 has no trailing bytes; up to 15 trailing bytes do not disturb version 2; the encrypted part is whole blocks |
| Envelope.RoundTrip | td/mtproto/Transport.cpp:219-305 | the same for both header kinds and any key offset |
| Envelope.AcceptedIsWritten | td/mtproto/Transport.cpp:219-305 | a message of whole blocks is accepted only if it is what a writer makes of the returned data, with an allowed padding and length |
| Envelope.PaddingBounds | td/mtproto/Transport.cpp:167-185 | for every data size and random draw the padding lies in the reader's range with room for 15 more bytes, and the encrypted size is a multiple of 16 |
| Envelope.BucketBounds | td/mtproto/Transport.cpp:167-179 | a bucket holds its size, is a multiple of 16 and less than 448 larger |
| Envelope.CalcBasic | td/mtproto/Transport.cpp:167-179 | the table search and the 448-byte steps give the smallest bucket |
| Envelope.PacketInfo.CalcSize | td/mtproto/Transport.cpp:188-202 | the first call draws the size, every later call returns the same one whatever is drawn then |
| Envelope.WriteCrypto | td/mtproto/Transport.cpp:384-426 | a short buffer is left alone and the size returned; a long enough one receives exactly the envelope |
| Envelope.WritePacket | td/telegram/SecretChatActor.cpp:228-229 | the size call and the write call agree although the second may draw another size: the buffer holds exactly the envelope |
| Envelope.WriteAt | td/mtproto/Transport.cpp:345-382 | storing, padding, keying and encrypting in place yields the envelope and touches nothing behind it |
| Envelope.ReadCrypto | td/mtproto/Transport.cpp:219-305 | decrypting in place and all checks give the value reader's answer; the data is a range of the buffer |
| Envelope.Verify | td/mtproto/Transport.cpp:247-304 | the checks on the decrypted part, each with its own error |
| Envelope.VerifyLength | td/mtproto/Transport.cpp:278-302 | the checks of either version behind the comparison of the keys, in the order of the source and each with its own error |
| Envelope.SameKey | td/mtproto/Transport.cpp:269-277 | the comparison without early exit is equality |
| Framing.EverySplitDelivers | td/mtproto/TcpTransport.cpp:20-132 | for every list of writable messages and every split of the stream the same messages are delivered and nothing is left |
| Framing.SplitDoesNotMatter | td/mtproto/TcpTransport.cpp:20-48 | for any bytes at all, items delivered and bytes left do not depend on the split |
| Framing.StepStable | td/mtproto/TcpTransport.cpp:20-109 | what is decided stays decided when more bytes arrive, and nothing is decided before the size asked for |
| Framing.StepProgress | td/mtproto/TcpTransport.cpp:20-109 | an incomplete frame asks for more than is there; an item is cut off the front |
| Framing.DrainSplit | td/mtproto/TcpTransport.cpp:20-109 | reading on after more bytes continues exactly where reading stopped |
| Framing.FrameReadBack | td/mtproto/TcpTransport.cpp:50-73 | a frame is read back with its padding, exactly when an abridged message is a whole number of words |
| Framing.AbridgedReadBack | td/mtproto/TcpTransport.cpp:111-132 | an abridged frame is read back if and only if the size is divisible by 4 |
| Framing.AbridgedLosesBytes | td/mtproto/TcpTransport.cpp:111-116 | a one-byte message passes the writer's checks and loses its byte to the next frame |
| Framing.StreamReadBack | td/mtproto/TcpTransport.cpp:20-132 | a stream of frames is read back completely |
| ObfuscatedTransport.SentIsReceived | td/mtproto/TcpTransport.cpp:233-273 | after one ChangeCipherSpec the records open to the header and the encrypted frames, which decrypt and cut back into the messages |
| ObfuscatedTransport.EverySplitIsReceived | td/mtproto/TcpTransport.cpp:205-212 | through records, cipher and framing, every split of a peer's stream delivers its messages |
| ObfuscatedTransport.ReceiveSplit | td/mtproto/TcpTransport.cpp:205-212 | the whole receiving side ends in the same state for every split of any bytes |
| ObfuscatedTransport.SendAllCarries | td/mtproto/TcpTransport.cpp:233-273 | the output is one ChangeCipherSpec and records of at most 2878 bytes whose payloads are the header and the encrypted frames |
| ObfuscatedTransport.RecordsReadBack | td/mtproto/TlsReaderByteFlow.cpp:15-37 | records de-frame to their payloads |
| ObfuscatedTransport.CipherTwice | td/mtproto/TcpTransport.cpp:214-222 | the stream cipher undoes itself at the same position |
| ObfuscatedTransport.Transport.DoWriteRecord | td/mtproto/TcpTransport.cpp:252-273 | one record: header in front of the first payload, ChangeCipherSpec in front of the first record |
| ObfuscatedTransport.Transport.DoWriteTls | td/mtproto/TcpTransport.cpp:233-250 | the split loop terminates and emits the value model's records |
| ObfuscatedTransport.Transport.Write | td/mtproto/TcpTransport.cpp:214-222 | frames, encrypts and sends |
| ObfuscatedTransport.ReadIntermediate | td/mtproto/TcpTransport.cpp:20-48 | consumes a frame or an acknowledgement, or nothing and asks for a size |
| ObfuscatedTransport.ReadAbridged | td/mtproto/TcpTransport.cpp:80-109 | the same for the abridged format |
| ObfuscatedTransport.TlsLoop | td/mtproto/TlsReaderByteFlow.cpp:15-37 | moves one record's payload to the output, or changes nothing |
| ObfuscatedTransport.TlsWakeup | td/mtproto/TlsReaderByteFlow.cpp:15-37 | repeats that until nothing more can be taken |
| TlsHello.HelloIsRendered | td/mtproto/TlsInit.cpp:206-282 | what the length pass accepts is exactly 517 bytes long and the store pass writes its rendering, every scope preceded by its two-byte length |
| TlsHello.HelloScopesRight | td/mtproto/TlsInit.cpp:355-365 | before the hash every scope's length field equals its content |
| TlsHello.HashSparesScopes | td/mtproto/TlsInit.cpp:378-381 | all length fields survive every hash if and only if none of them touches bytes 11 to 42 |
| TlsHello.AllAgree | td/mtproto/TlsInit.cpp:206-369 | for any operations the two passes agree on offset and scopes, no CHECK of the store pass fails, and the bytes are the rendering |
| TlsHello.AllRight | td/mtproto/TlsInit.cpp:355-365 | a length field once written is never disturbed |
| TlsHello.TlsHelloCalcLength.DoOp | td/mtproto/TlsInit.cpp:208-263 | one operation of the length pass, with its errors |
| TlsHello.TlsHelloCalcLength.FinishLength | td/mtproto/TlsInit.cpp:265-282 | the padding scope and the final checks |
| TlsHello.TlsHelloStore.DoOp | td/mtproto/TlsInit.cpp:300-369 | one operation of the store pass, back-patching in place |
| TlsHello.TlsHelloStore.FinishStore | td/mtproto/TlsInit.cpp:371-383 | padding, then the stamped hash over bytes 11 to 42 |
| TlsHello.GenerateHeader | td/mtproto/TlsInit.cpp:439-457 | both passes together: a result exactly for accepted operations, of 517 bytes, with the stamped hash of everything else |
| DefaultHello.DefaultAccepted | td/mtproto/TlsInit.cpp:93-169 | the default hello of either platform is accepted for every domain |
| DefaultHello.DefaultHelloLengths | td/mtproto/TlsInit.cpp:93-169 | for every domain, grease, random bytes and hash, every scope length and the written-out record, handshake and extensions lengths equal the bytes that follow |
| HelloExtensions.DefaultHelloReads | td/mtproto/TlsInit.cpp:93-169 | for every domain, grease, random bytes and hash, a reader of (type, length, data) finds exactly the intended extensions - server name, groups, key share, versions, padding and the others - and ends at the end of the hello; the session identifier and the cipher suites have their announced lengths |
| HelloGrease.SentExtensionsDiffer | td/mtproto/TlsInit.cpp:26-36 | with grease from `Grease::init`, the extensions that a reader finds in the hello have pairwise different types, for every domain and all random bytes |
| HelloGrease.GreaseIs | td/mtproto/TlsInit.cpp:26-36 | every grease byte ends in 0x0a and the two bytes of a pair differ |
| HelloGrease.InitGrease | td/mtproto/TlsInit.cpp:26-36 | the two loops over the buffer give the bytes of the value model |
| HelloExtensions.BlockWritten | td/mtproto/TlsInit.cpp:93-169 | what the operations render after the length of the extensions is that list, written out |
| HelloExtensions.ReadsWritten | td/mtproto/TlsInit.cpp:93-169 | reading a written list of extensions gives the list back |
| HelloExtensions.NameRender | td/mtproto/TlsInit.cpp:355-365 | the three nested scopes of the server name render as its extension data, each with its length |
| DefaultHello.DefaultMeasure | td/mtproto/TlsInit.cpp:93-169 | its length before padding is fixed but for the domain |
| DefaultHello.FixedParts | td/mtproto/TlsInit.cpp:93-169 | its rendering starts with the record header and has the suites right before the extensions |
| TlSchema.GeneratorsAgree | td/generate/tl_writer_cpp.cpp:137-200 | for every type tree that meets the asserts of both generators, fetch and store combinators agree on nesting, boxing and constructor identifier, except exactly for a boxed Bool or # with a single supported constructor |
| TlSchema.SameId | td/generate/tl_writer_cpp.cpp:182-195 | where the fetch generator finds one constructor the store generator finds the same |
| TlSchema.OnlyOne | td/generate/tl_writer_cpp.cpp:182-195 | a boxed vector has one constructor, and both sides use it |
| TlCode.FieldCodesAgree | td/generate/tl_writer_cpp.cpp:207-279 | the code for a field agrees on condition, variable and combinator exactly when its tree agrees and a conditional True is bare |
| TlCode.Writer.GenFieldFetch | td/generate/tl_writer_cpp.cpp:207-279 | generates the fetch code of a field and marks its variable as stored |
| TlCode.Writer.GenFieldStore | td/generate/tl_writer_cpp.cpp:415-489 | generates the store code of a field; a conditional True stores nothing |
| TlCode.Writer.GenConstructorFetch | tdtl/td/tl/tl_generate.cpp:166-192 | all fields of a constructor, with the final check that every variable is stored |
| TlContents.CompiledRoundTrip | td/generate/tl_writer_cpp.cpp:322-384 | for every accepted type tree and every well-typed value: fetch after store returns the value and leaves the suffix, whatever the uninitialised variables of the store code hold and whatever the fields hold that are not there, if and only if the value is determined and fits |
| TlGuard.GuardedRoundTrip | td/generate/tl_writer_cpp.cpp:81-90 | in a schema where no stored field tests a variable of a conditional #, that is so if and only if the value fits |
| TlGuard.GuardIsExact | td/generate/tl_writer_cpp.cpp:415-489 | a schema whose types are inhabited meets that guard if and only if every object of it is determined |
| TlGuard.BrokenGuard | td/generate/tl_writer_cpp.cpp:415-489 | a constructor that breaks the guard has a well-typed object that is not determined: the one with all flags off |
| TlGuard.GuardedDetermines | td/generate/tl_writer_cpp.cpp:415-489 | in such a schema every value is determined |
| TlRoundTrip.SameBytes | td/generate/tl_writer_cpp.cpp:81-90 | a determined value is stored as the same bytes from any two starts of the variables |
| TlContents.SameContents | td/generate/tl_writer_cpp.cpp:415-489 | a determined value is stored as the same bytes whatever the fields hold that are not there |
| TlContents.UndeterminedDiverges | td/generate/tl_writer_cpp.cpp:415-489 | a value that is not determined has, with all bits of the unassigned variables set, two contents of its absent fields that are stored with a first difference at the start of a word, or one (a null pointer) that cannot be stored |
| TlSeparation.GetSeparates | td/tl/tl_object_parse.h:20-145 | two inputs that differ first at the start of a word, in bytes that start no long string, are read as the same value only by a reader that stops before that word in both |
| TlSeparation.StringSeparates | tdutils/td/utils/tl_parsers.h:136-172 | the same for strings, in all three length formats |
| TlRoundTrip.FetchStartsAlike | td/generate/tl_writer_cpp.cpp:207-279 | the fetch code assigns every variable before it tests it, so their start does not matter |
| TlRoundTrip.RoundTrip | td/tl/tl_object_parse.h:20-145 | the same for agreeing combinators and determined values, from any start; a value that does not fit is a parser error |
| TlRoundTrip.RoundTripFields | td/generate/tl_writer_cpp.cpp:415-489 | the fields of a constructor come back, from any start of the store code's variables |
| TlRoundTrip.RoundTripMany | td/tl/tl_object_parse.h:119-136 | the elements of a vector come back |
| TlLimits.NestedFlagsAreLost | td/generate/tl_writer_cpp.cpp:415-489 | `flags:# flags2:flags.0?# x:flags2.0?int` is accepted; with `flags.0` off, x is stored or not as an uninitialised variable has it, and what was stored is left behind by the fetch |
| TlLimits.EmptyElementsDoNotFit | td/tl/tl_object_parse.h:119-136 | a vector of one element without content is stored, refused by the fetch at the end of the data, and accepted with a byte behind it |
| TlLimits.BoxedTrueIsLost | td/generate/tl_writer_cpp.cpp:449-454 | in `flags:# on:flags.0?True` the True is fetched with an identifier that was never stored, and the fetch fails |
| TlLimits.LoneBoolIsLost | td/generate/tl_writer_cpp.cpp:137-200 | for a boxed Bool with one constructor the generators disagree, and what was stored is refused |
| Memprof.EveryInterleaving | memprof/memprof.cpp:154-211 | in every interleaving of any threads a non-zero hash owns at most one slot, all look-ups of it that did not fall back got that slot, and each slot's size is the sum of its live blocks |
| Memprof.StepKeeps | memprof/memprof.cpp:154-267 | every step keeps the table sound and the accounts balanced, and no slot changes its key |
| Memprof.RunKeeps | memprof/memprof.cpp:154-267 | the same over runs |
| Memprof.InsertKeeps | memprof/memprof.cpp:171-176 | taking the first free slot on a key's way duplicates no key and breaks no other key's way |
| Memprof.ClaimKeeps | memprof/memprof.cpp:171-176 | compare-and-swap, won or lost, keeps the table sound |
| Memprof.FreeKeeps | memprof/memprof.cpp:203-211 | freeing a live block never underflows and keeps the sums |
| Memprof.AddKeeps | memprof/memprof.cpp:203-206 | accounting for a new block keeps the sums |
| Memprof.UnknownIsNotZero | memprof/memprof.cpp:132-138 | the hash of the unknown call site is not zero |
| Memprof.Table.GetHtPos | memprof/memprof.cpp:154-191 | run alone it terminates, its assertion holds, at most HT_MAX_SIZE/2 + 2 slots are ever taken, and the slot returned holds the hash or, past half, the unknown one |
| Memprof.Table.Insert | memprof/memprof.cpp:171-176 | the winning compare-and-swap and the count keep those bounds |
| Splitter.Split | SplitSource.php:160-216 | every function is in exactly one file, with everything it is linked to; file weights differ by at most the weight of the heaviest group; a file with more than one group is at most twice as heavy as any other; too small sources are refused |
| Splitter.RootsAreGroups | SplitSource.php:192-196 | two functions have one root if and only if they are linked by a chain of shared names |
| Splitter.DisjointSet.Find | SplitSource.php:3-8 | terminates, returns the root and, compressing the path, changes nobody's root |
| Splitter.DisjointSet.Union | SplitSource.php:10-21 | merges exactly the two trees, either way round |
| Splitter.CompressKeeps | SplitSource.php:3-8 | pointing a node at its root changes nobody's root |
| Splitter.LinkMerges | SplitSource.php:14-20 | linking two roots keeps the forest and merges exactly their trees |
| Splitter.Group | SplitSource.php:192-196 | the loop over names leaves each name's functions with one root, and links nobody without a chain |
| Splitter.Collect | SplitSource.php:197-207 | collects each root's functions and their weight |
| Splitter.CollectedIs | SplitSource.php:197-207 | a group is exactly the functions with that root, in order |
| Splitter.SortDescending | SplitSource.php:208-208 | rearranges the groups, heaviest first |
| Splitter.Smallest | SplitSource.php:213-213 | the first of the lightest files |
| Splitter.Pack | SplitSource.php:210-216 | greedy packing puts each group whole into one file and keeps the difference within the bound, in any order, and the ratio within two, heaviest first |
| Splitter.PlaceHalved | SplitSource.php:208-216 | adding a group no heavier than the earlier ones to the lightest file keeps files of several groups within twice any other |
| Splitter.PlaceEven | SplitSource.php:210-216 | adding to the lightest file keeps all differences within the bound |
| Splitter.PlaceKeeps | SplitSource.php:210-216 | placing a new group keeps every group whole and single |
| ProxySecret.LinkRoundTrip | td/mtproto/ProxySecret.cpp:15-50 | every secret accepted by `from_binary`, with either truncation flag, is read back from its link with either flag |
| ProxySecret.TlsIsNotHex | td/mtproto/ProxySecret.cpp:45-50 | the link of a TLS secret is never taken for hexadecimal |
| ProxySecret.Base64RoundTrip | tdutils/td/utils/base64.cpp:38-148 | base64url decoding undoes encoding, padding rules included |
| ProxySecret.HexRoundTrip | tdutils/td/utils/misc.cpp:96-121 | hexadecimal decoding undoes encoding |

## Left out

- Sockets, polling, actors, promises and statistics callbacks: input and output plumbing; times, random draws and arrival of bytes are parameters of the model.
- AES, SHA, RSA, key derivation and big-number code: abstract functions with the laws they promise (a length-preserving bijection per key, a key stream).
- Key exchange (`DhHandshake`, `AuthKeyHandshake`) and the generation of the curve point in the hello (`Op::key` is 32 arbitrary bytes).
- Gzip decoding and the dispatch of decoded server messages to callbacks; only their effect on the connection's queues, timers and maps is modelled.
- `send_query` with a caller-supplied message identifier, and functions whose argument is another function (`NODE_TYPE_VAR_TYPE`): they bypass the identifier generator and the constructor code.
- Quick acknowledgements: the outgoing flag bit and `message_ack` are not modelled; incoming quick-ack tokens are.
- Overflow of 64-bit identifiers, 32-bit sequence numbers, size_t sums, packet sizes narrowed to 32 bits and the eventfd counter: these are unbounded integers in the model. Ring indices, wire fields and hashes wrap as in the source.
- Floating-point rounding of times and identifiers: times are reals.
- The choice that `std::sort` and `arsort` make between equal keys: the model fixes one order, and no property depends on it.
- Memory orders weaker than sequential consistency for the wait flag and the memory profiler; the ring allows stale loads of the other side's index.
- Spin loops that only repeat a load (`wait_reader`, `get_noflush`): each repetition is one step of the state machine.
- The limit of `RawConnection` on the size of an incoming packet, and the unencrypted handshake messages.
- The regular expressions, include pruning and file writing of SplitSource.php: function texts enter as weights and lists of shared names.
- The string-producing TL writers for other languages and the JSON converter: string templates.
- The rest of `check_packet`: equality of the session identifier, odd parity of the message identifier, the update of the server time difference, and the inbound window of 300 seconds back and 30 ahead that applies once the difference is known. The duplicate check between them is modelled.
- TlRoundTrip.RoundTrip: the nesting of objects that the parser follows is bounded by `fuel`; every bound above the depth of the value works.
- Memprof.Table.GetHtPos: a table of more than five slots and a non-zero unknown hash are required; the source's table has a million slots, and its unknown hash is proved non-zero.
