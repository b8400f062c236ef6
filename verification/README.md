# A verified model of RPMA

This project models the hardest parts of the RPMA repository, a library for remote access to
persistent memory over RDMA, and of the example programs that come with it, and proves what
they are for:

* the hopscotch hash table of the hash example, its image in persistent memory and the client
  that answers queries from one remote read (`Bits`, `HopscotchSpec`,
  `HopscotchReplay`, `Hopscotch`, `HopscotchRuns`, `HashImage`, `HashExamples`);
* the remote append log of example 07: a client, a queue pair whose requests take effect piecemeal,
  and memory that may lose whatever was not forced out (`AppendLog`, `AppendLogProof`,
  `AppendLogNeeds`);
* the life of connection requests, connections and endpoints when any provider call or allocation
  may fail (`Providers`, `Resources`, `Connections`, `Lifecycle`, `Endpoints`, `ConnEvents`,
  `Sessions`);
* completion notification on the connections so built, and the ping-pong of example 08, in every
  interleaving (`Completions`, `PingPong`, `PingPongProof`, `PingPongFailure`);
* the figure flattener (`Flatten`, `FlattenPaths`, `FlattenLoop`) and the descriptor codec (`ByteStrings`,
  `Descriptors`).

`Wrappers` and `Errors` hold the shared option and result types and the error codes.

`dafny verify dfyconfig.toml` checks all of it.

## How the parts are modelled

**Hash table.** A table is a class with the fields of the C struct; its bucket array is updated in
place. Neighbourhood bitmaps are 32-bit numbers with the word operations written arithmetically. Keys
are buffers of at least `keylen` bytes of which the first `keylen` count; the hash function is an
arbitrary deterministic function of those bytes, reduced to the table size. Key and data are never
null: lookup reports absence as a null datum. Whether memory for a resize is granted is a parameter.
The error label of an insertion and the scan shared by lookup and removal are methods of their own.

**Append log.** One state machine holds the client, statement by statement, the queue pair and the
memory. Environment assumptions, after the ordering rules for work requests in section 10.8 of the
InfiniBand Architecture Specification, Volume 1: a posted write may place its bytes one at a time, in
any order and more than once, taking them from the local buffer as it then stands; a read completes
only after everything posted before it, and forces that out to persistence; an unfenced write may
overtake a read, a fenced one may not; an aligned 8-byte write is placed and evicted whole; any other
byte may be evicted at any moment; a crash leaves what is persistent; after a failure any
of the requests may still take effect, or none; nothing out of bounds is ever placed. Sessions follow each other without limit, and any of
them may fail or be cut by a crash.

**Connections.** The provider and the allocator are one object with a ledger of live resources, each
knowing which others it was created on, a record of which event channel each CM ID is attached to, and a
schedule that decides which calls fail. A destructor may only be called on a live resource that nothing
live still needs, so that a double release or a wrong order is a violated precondition; a destructor that
fails has still been called. An event channel may be destroyed under an attached CM ID, as the code does,
and the CM ID is then recorded as orphaned. Error labels are methods that fall through to the next label.
Requests and connections are values passed from call to call. The outcome of every operation is stated as
the exact set of live resources afterwards, and for the CM IDs as a function of the schedule: which of the
calls, counted from the start of the operation, fail.

**Notification.** A completion channel delivers the handle of the queue that raised the event, and any
live queue created on that channel may raise one. The waits decide by comparing handles, or not at all, as
the code does. The connection is any that the operations above can have built.

**Ping-pong.** Both programs, statement by statement, both queue pairs, both completion queues and both
completion channels move independently. The client goes on to its final message after a failed wait.

## What the proofs found

* A stored key is found by the one-read client exactly when its home bucket is itself full
  (`QueryReachesIff`). Inserts that succeed keep that so; removing the entry in another key's home
  bucket hides that key (`RemovalHides`, and `HiddenKey` for a run). A removal leaves a table without gaps
  exactly if no other entry spans the slot (`EraseNoGapsIff`); an insertion that gives up with -3 does so
  exactly if it was stuck at the first vacancy, and otherwise leaves a gap (`Insert`, and `GivesUpHalfWay`
  for a run).
* The client's shortcut for a bitmap of 1 is right exactly for keys that are stored
  (`DirectIsRightIff`): for an absent key it returns another key's bucket (`WrongKey` for a run). Its scan compares 20 of 24
  key bytes; all hits are right exactly if no other key of the same home agrees in those (`HitsRightIff`,
  and `WrongHit` for a run).
* A resize succeeds exactly if memory is granted and every re-insertion, slot by slot from an empty table,
  is answered by 0. Since -4 counts as a failure, it can never succeed if more than five keys share a home in
  the new table (`Resize`, and `CannotResize` for a run). A failed allocation of the table itself leaks the
  buckets (`Init`).
* Both orderings of the append protocol are needed: it is crash consistent in all runs if and only if
  it flushes between the two writes and fences the second (`SafeIff`).
* An event channel is destroyed under an attached CM ID in two ways, and no other (`ServerSession`): by
  `rpma_conn_new`, if the CM ID was moved, a later call failed and the provider refused to move it back
  (`ConnNew`, and `RefusedDetach` for a schedule); and by `rpma_ep_shutdown`, for every request that was
  refused, or could not be made, acknowledged or accepted, since its CM ID is left attached to the
  endpoint's channel (`Shutdown`, and `RefusedClient` for a run without any failure).
* When only the copy of an incoming request's private data fails, and only then, the CM ID is destroyed
  with the request, before the event about it is acknowledged (`FromCmEvent`, and `FailedCopy` for a schedule).
* If acknowledging an event fails, a connection's private data is discarded even if it came with the
  request (`TakeEvent`, and `LostData` for a schedule).
* `wait_and_process_completions` can fail with nothing wrong anywhere (`SpuriousFailure`): a completion that
  arrives between re-arming and polling leaves an event behind. Such an arrival makes a failure possible
  exactly if the party waits again (`LateIffCanFail`).
* After such a failure the ping-pong client overwrites its send buffer and sends once more. Misuse of a
  buffer, or a message without a posted receive, can follow exactly if its last send is still outstanding or
  the server has no receive posted (`MisuseIff`); in one run the server is sent the final message in place
  of the counter (`CounterOverwritten`).
* The ping-pong client does one round less than it is asked for (`RoundsDone`).

## Model

| member | source | states |
|---|---|---|
| Bits.SetBitMeaning | examples/hash/hopscotch.h:217-220 | setting a bitmap bit adds its weight exactly when it was clear and changes no other bit |
| Bits.ClearBitMeaning | examples/hash/hopscotch.h:217-220 | clearing a bit removes its weight exactly when it was set and changes no other bit |
| Bits.CtzMeaning | examples/hash/hopscotch.h:210-213 | count-trailing-zeros gives a set bit below which none is set |
| HopscotchSpec.FoundThroughHome | examples/hash/hopscotch.h:139-174 | a key is stored if and only if a set bit of its home bucket's bitmap leads to a slot that holds it |
| HopscotchSpec.MoveKeeps | examples/hash/hopscotch.h:215-221 | one displacement keeps bitmaps exact, keys distinct and in their neighbourhood, and the stored map; the vacancy moves from one slot to the other |
| HopscotchSpec.OfferIsMove | examples/hash/hopscotch.h:210-214 | the entry named by the lowest set bit of a bucket that passes the test belongs to that bucket and may move |
| HopscotchSpec.NoOfferMeansStuck | examples/hash/hopscotch.h:208-228 | no bucket passes the lowest-bit test if and only if no entry whatsoever may legally move into the hole |
| HopscotchSpec.ShiftOnce | examples/hash/hopscotch.h:208-229 | each displacement moves the hole strictly left and never past the new key's home, and keeps everything the insertion may not lose |
| HopscotchSpec.NoOfferStuck | examples/hash/hopscotch.h:208-228 | giving up means that all 31 slots before the hole are full of keys whose home is at least 32 slots before it |
| HopscotchSpec.PlaceKeeps | examples/hash/hopscotch.h:231-234 | storing an absent key in a vacant slot of its neighbourhood keeps the invariant and adds exactly that pair |
| HopscotchSpec.EraseKeeps | examples/hash/hopscotch.h:271-276 | erasing a slot keeps the invariant and removes exactly its key |
| HopscotchSpec.InsertKeepsNoGaps | examples/hash/hopscotch.h:204-242 | a completed insertion fills exactly the first vacancy at or after the home and leaves no gap between any entry and its home |
| HopscotchSpec.NoGapsHomeFull | examples/hash/hopscotch.h:204-242 | without gaps a bucket with a non-zero bitmap is never empty |
| HopscotchSpec.MoveLeavesGap | examples/hash/hopscotch.h:215-221 | a displacement that is not followed by a placement leaves a gap |
| HopscotchSpec.EraseNoGapsIff | examples/hash/hopscotch.h:271-276 | a removal keeps a table without gaps if and only if no other entry spans the slot |
| HopscotchSpec.FewSharers | examples/hash/hopscotch.h:236-240 | a bitmap whose value is at most 32 names at most five keys |
| HopscotchReplay.DisplacedMoves | examples/hash/hopscotch.h:215-221 | the four assignments move one entry and one bit, and nothing else |
| HopscotchReplay.RebuiltFails | examples/hash/hopscotch.h:312-322 | one negative answer settles a rebuild |
| HopscotchReplay.FreeHome | examples/hash/hopscotch.h:204-242 | an absent key whose home bucket is vacant with an empty bitmap is stored there, and nothing else changes |
| HopscotchReplay.ApartRebuilt | examples/hash/hopscotch.h:312-322 | a rebuild of keys with different homes succeeds and puts each into its home bucket |
| Hopscotch.MissesMeansAbsent | examples/hash/hopscotch.h:155-173 | a scan of the home bitmap misses everywhere if and only if the key is absent |
| Hopscotch.Scan | examples/hash/hopscotch.h:155-173 | the scan finds the first set bit whose slot holds the key, or none |
| Hopscotch.FindMove | examples/hash/hopscotch.h:209-224 | the inner search returns the nearest bucket that passes the test, or none |
| Hopscotch.Displace | examples/hash/hopscotch.h:211-221 | the in-place move of one entry and of its bitmap bit |
| Hopscotch.PullHole | examples/hash/hopscotch.h:208-229 | the displacement loop ends where the replay says, with the hole within reach of the home, or stuck, having lost and gained nothing; if anything was moved, the start was not stuck and there is a gap |
| Hopscotch.Probe | examples/hash/hopscotch.h:204-207 | linear probing without wrap-around finds the first vacancy or proves there is none |
| Hopscotch.InsertAbsent | examples/hash/hopscotch.h:196-246 | buckets and result code are those of the replay; and what each code leaves behind, with the stuck vacancy of -3 the one that was pulled from the first |
| Hopscotch.HashTable.constructor | examples/hash/hopscotch.h:93-121 | a new table of 2^21 buckets is valid, empty and without gaps |
| Hopscotch.Init | examples/hash/hopscotch.h:93-121 | a new table, or nothing exactly if the memory for the buckets, or for a table the caller did not bring, is refused; in the latter case the buckets are leaked |
| Hopscotch.HashTable.HomeIndex | examples/hash/hopscotch.h:200 | the home bucket is the hash of the key's first bytes modulo the table size |
| Hopscotch.HashTable.Lookup | examples/hash/hopscotch.h:139-174 | lookup returns what the plain map holds for the key, or nothing |
| Hopscotch.HashTable.Insert | examples/hash/hopscotch.h:179-247 | the home is the hash of the key's first bytes modulo the table size; -2 exactly for a stored key, -1 exactly when no slot from the home on is vacant, -3 exactly when the first vacancy cannot be pulled into reach, -4 exactly when the bitmap's value then exceeds 32; 0 and -4 add exactly the pair; -3 leaves the map alone and the vacancy stuck where it was pulled to, and the buckets untouched exactly if it was stuck at first, else with a gap; a key whose home bucket is free goes there, with bitmap 1 and answer 0 |
| Hopscotch.HashTable.Remove | examples/hash/hopscotch.h:252-282 | removal returns the stored datum, or nothing, and deletes exactly its key; gaps arise exactly if another entry spans the slot |
| Hopscotch.HashTable.Resize | examples/hash/hopscotch.h:287-326 | 0 exactly if memory is granted and every re-insertion from an empty table is answered by 0, and then the table so rebuilt, the same map, no gaps, and at most five keys to a home; -1 means the old buckets and exponent, untouched; if memory is granted and the keys' hashes differ modulo the new size, the answer is 0 |
| Hopscotch.PrefixGrows | examples/hash/hopscotch.h:312-322 | re-inserting slot by slot meets each key once |
| HopscotchRuns.Run | examples/hash/hopscotch.h:93-326 | every run of lookup, insert, remove and resize calls answers as a plain map replaying them allows, ends standing for that map, and leaves no gaps if there was no removal and no -3 |
| HopscotchRuns.ExplainsGrows | examples/hash/hopscotch.h:93-326 | one more answered call extends the explanation of a run by the plain map |
| HopscotchRuns.PublishAndQuery | examples/hash/singlehashclient.c:199-307 | a published table answers the query for a stored key exactly when the key's home bucket is full, and so always without gaps |
| HashImage.DigitsMeaning | examples/hash/writehash.c:213 | the decimal form of a bitmap has its value, and fits three characters below 1000 |
| HashImage.DigitAt | examples/hash/writehash.c:213 | the digits come from the highest to the lowest |
| HashImage.AtoiOfDigits | examples/hash/singlehashclient.c:262-263 | reading a printed bitmap back gives the number, whatever follows |
| HashImage.WriteRecord | examples/hash/writehash.c:208-227 | the strings of a bucket are written one after the other, each over what was there, for all strings that stay inside the mapping |
| HashImage.RecordedDescribes | examples/hash/writehash.c:208-227 | a record whose fields fit describes its bucket, and nothing outside its 64 bytes changes |
| HashImage.WriteImage | examples/hash/writehash.c:202-228 | the memory is that of all records written in order; if all fields fit, the image describes every bucket at 64 times its index |
| HashImage.Query | examples/hash/singlehashclient.c:199-307 | the client's answer from one window: unreadable, not found, the home record's key, or the offsets that compared equal |
| HashImage.WindowShowsHome | examples/hash/singlehashclient.c:253-263 | the window's first record shows whether the home bucket is full, and its bitmap |
| HashImage.WindowShowsSlot | examples/hash/singlehashclient.c:286-290 | record i of the window carries the key of the i-th slot after the home |
| HashImage.LoneKeyIsAtHome | examples/hash/singlehashclient.c:265-276 | a bitmap of 1 means that the bucket's only key is in the home slot itself |
| HashImage.QueryReachesIff | examples/hash/singlehashclient.c:199-307 | a stored key is reached if and only if its home bucket is full; otherwise the client says not found |
| HashImage.QueryReachesAll | examples/hash/singlehashclient.c:199-307 | in a table without gaps every stored key is reached by one read |
| HashImage.RemovalHides | examples/hash/singlehashclient.c:302-306 | erasing the entry in a key's home bucket hides the key although the table holds it |
| HashImage.NotFoundIff | examples/hash/singlehashclient.c:302-306 | for every key, stored or not, the client says not found if and only if the home bucket is empty |
| HashImage.HitIff | examples/hash/singlehashclient.c:283-299 | a slot is hit if and only if it holds a stored key of the same home with the same first 20 bytes |
| HashImage.HitsRightIff | examples/hash/singlehashclient.c:283-299 | every hit is the key asked for if and only if no other stored key of the same home agrees in the bytes compared |
| HashImage.DirectIsRightIff | examples/hash/singlehashclient.c:269-281 | the answer taken without comparison is right if and only if the key is stored |
| HashExamples.HomeCapacity | examples/hash/hopscotch.h:205-242 | no bucket is home to more than 32 keys |
| HashExamples.GivesUpHalfWay | examples/hash/hopscotch.h:208-228 | an insertion that answers -3 and leaves a gap where there was none |
| HashExamples.HiddenKey | examples/hash/singlehashclient.c:302-306 | two keys of one home, the first removed: the client does not find the second, which is stored |
| HashExamples.WrongHit | examples/hash/singlehashclient.c:283-299 | asked for one of two keys that agree in 20 bytes, the client hits both |
| HashExamples.WrongKey | examples/hash/singlehashclient.c:269-281 | one key stored: asked for another of the same home, the client answers with the one that is |
| HashExamples.CannotResize | examples/hash/hopscotch.h:287-326 | six keys of one home and memory granted: the resize answers -1 and the map is untouched |
| AppendLogProof.KeepPlaceByte | src/mr.c:126-198 | placing a byte of a posted write, at any time and again, keeps the log |
| AppendLogProof.KeepFinishRead | src/flush.c:136-151 | a finished flush makes the word, and the second one the used field, persistent |
| AppendLogProof.AtomicNeedsWord | src/mr.c:227-234 | by the fence, the word is persistent when the atomic write can be placed |
| AppendLogProof.KeepPlaceAtomic | src/mr.c:203-250 | placing the used field appends exactly the word in flight to the log |
| AppendLogProof.KeepCrash | examples/07-atomic-write/client.c:159-209 | a crash leaves a log that the next session can go on from |
| AppendLogProof.KeepStep | examples/07-atomic-write/client.c:112-209 | every step of client, queue pair and memory keeps the invariant |
| AppendLogProof.AppendSafe | examples/07-atomic-write/client.c:159-209 | in every state of every run the surviving memory holds, on a word boundary, a prefix of the committed words that includes all acknowledged ones; at most four requests are outstanding |
| AppendLogProof.BufferNeverInUse | examples/07-atomic-write/client.c:159-209 | in every run the word buffer changes only when no posted request can still read it |
| AppendLogProof.SessionAppends | examples/07-atomic-write/client.c:159-209 | a session at the end of its loop has appended, durably, one word for each argument it was given, in order: the argument's bytes, or its first 1023, and one NUL |
| AppendLogProof.AcknowledgedForever | examples/07-atomic-write/client.c:187-208 | no later crash, failure or session loses an acknowledged word |
| AppendLogProof.Recovery | examples/07-atomic-write/server.c:208-217 | splitting the surviving data at its NULs gives exactly the words, up to one that covers every acknowledged one |
| AppendLogProof.PrintLog | examples/07-atomic-write/server.c:208-217 | the final loop prints the log's bytes with newlines for NULs |
| AppendLogProof.PrintedLines | examples/07-atomic-write/server.c:208-217 | the printed log is one line for each word |
| AppendLogProof.RecoveredLines | examples/07-atomic-write/server.c:208-217 | in every crash state of every run the server prints one line for each word of a prefix of the log that covers every acknowledged one |
| AppendLogNeeds.WeakerBreaks | src/mr.c:227-232 | without the flush or without the fence there is a run, with all bytes placed in order, whose crash leaves a used field over bytes that never became persistent |
| AppendLogNeeds.SafeIff | examples/07-atomic-write/client.c:166-185 | a posting order is crash consistent in all runs if and only if it flushes between the two writes and fences the second |
| AppendLogNeeds.CanAppend | examples/07-atomic-write/client.c:159-209 | from every state of an iteration that has not failed, with room for the word and the flush, the word can be appended and acknowledged |
| Resources.CqNew | src/cq.c:50-114 | succeeds exactly when none of its three or four calls failed; a failure leaves the ledger as it was; which code follows which call |
| Resources.CqDelete | src/cq.c:123-155 | queue before its own channel, each once, whichever fail; an error exactly when one did; the result as a function of the schedule |
| Resources.MrReg | src/mr.c:357-388 | a registration or nothing |
| Resources.ApmNew | src/flush.c:54-104 | page, registration and context, or nothing; and when the ladder is undone, for every failing call; which code follows which call |
| Resources.FlushNew | src/flush.c:158-177 | a flush object or nothing; which code follows which call |
| Resources.FlushDelete | src/flush.c:109-131 | everything released; a failed deregistration is reported before a failed unmap |
| Connections.FromId | src/conn_req.c:77-181 | a request with queues as configured, or nothing; success exactly when none of its calls, whose number is given by the configuration, fails; which code follows which call |
| Connections.RequestDelete | src/conn_req.c:485-529 | queue pair, queues, CM ID, channel, data, memory: each once and in order, whichever fail; the first failure is reported; the caller's pointer is cleared, a clear one is left alone, and none given is an error; the rejection or disposal of the CM ID and every destructor are calls that the result accounts for, as a function of the schedule |
| Connections.ConnDelete | src/conn.c:351-423 | each destructor once and in dependency order whichever fail; the first failure is reported, and only a failed unmap is not a provider error; the caller's pointer is cleared, a clear one is left alone, and none given is an error |
| Lifecycle.ConnNew | src/conn.c:46-107 | a connection or nothing; as a function of the schedule, whether the CM ID ends up connected, attached as before, detached, or attached to a channel that has been destroyed; which code follows which call |
| Lifecycle.Accept | src/conn_req.c:192-230 | a connection that takes over everything, private data included, or everything but the CM ID released; and what that is then attached to; which code follows which call |
| Lifecycle.ConnectActive | src/conn_req.c:241-279 | a connection, or everything released, the CM ID included; which code follows which call |
| Lifecycle.TakesOver | src/conn.c:109-124 | the connection owns what the request held, its CM ID and what was acquired for it |
| Lifecycle.Connect | src/conn_req.c:440-478 | the request is consumed and its pointer cleared; success exactly when none of ten calls fails; failure leaves nothing of it and no connection, success exactly what the connection owns; and what the CM ID is then attached to; which code follows which call |
| Lifecycle.ConnectedIffQuiet | src/conn.c:46-107 | a connection is made if and only if none of its calls fails |
| Lifecycle.FateSettled | src/conn_req.c:192-230 | no call after the last one made for the connection has a say in what becomes of the CM ID |
| Endpoints.RequestNew | src/conn_req.c:371-433 | an outgoing request with channel and receive queue exactly as configured, or nothing; success exactly when none of its calls fails, and otherwise which code follows which call |
| Endpoints.StorePrivateData | src/private_data.c:22-47 | a copy of exactly the bytes, made while the event is still unacknowledged, exactly if there are any |
| Endpoints.FromCmEvent | src/conn_req.c:332-362 | a passive request with a copy of the event's bytes, or nothing of its own; the event's CM ID is destroyed, with the event still unacknowledged, if and only if making the request succeeded and the copy failed; channel and receive queue as configured; which code follows which call |
| Endpoints.Listen | src/ep.c:39-112 | an endpoint with only its own CM ID on its event channel, or nothing; success exactly when none of its seven calls fails, and otherwise which code follows which call |
| Endpoints.Shutdown | src/ep.c:118-144 | CM ID before event channel before memory; an error exactly when destroying the CM ID failed or no pointer is given; every other CM ID still on the event channel, and no more, loses it |
| Endpoints.NextConnReq | src/ep.c:170-231 | the event is acknowledged exactly once on every path; success exactly when none of its calls fails; otherwise nothing of the request stays, and the CM ID stays, attached to the endpoint, exactly if an event came and its copy did not fail; channel and receive queue as configured; which code follows which call |
| ConnEvents.TakeEvent | src/conn.c:149-223 | the event is acknowledged exactly once, after its data were copied; which connection event is reported for which kind, and the unknown-event error exactly for all others; which code follows which failing call; the data that result; present data are lost exactly when the acknowledgement fails |
| ConnEvents.Pump | src/conn.c:149-223 | over any events at most one copy of private data is live; present data stay unchanged while acknowledgements succeed, whatever else fails; while no call fails, absent data become the bytes that the first establishment with some brings |
| ConnEvents.StillHolds | src/conn.c:173-187 | exchanging the private data keeps the connection sound |
| Sessions.ActiveSession | src/conn_req.c:371-478 | a whole client session returns the ledger to where it began, for every failure schedule; and when its CM ID is orphaned |
| Sessions.PassiveSession | src/ep.c:170-231 | a whole server session leaves at most the CM ID that came with the request; exactly when, and attached to what, as a function of the schedule |
| Sessions.ServerSession | src/ep.c:39-231 | listen, any number of requests, shut down: only CM IDs can stay, and an event channel is destroyed under one if and only if some request left its CM ID on the endpoint, or orphaned by a refused move back; each request begins after the fates of the earlier ones are settled |
| Sessions.VisitSettled | src/ep.c:170-231 | no later call has a say in what is left of a request |
| Sessions.TallyGrows | src/ep.c:118-144 | one more request adds to what remains exactly what its fate says |
| Sessions.RefusedClient | src/ep.c:118-144 | without any failure, a refused client has its CM ID orphaned by the shutdown |
| Sessions.RefusedDetach | src/conn.c:95-104 | a schedule in which making a connection destroys the event channel under the CM ID |
| Sessions.FailedCopy | src/conn_req.c:349-361 | a schedule in which a failed copy of private data destroys the CM ID |
| Sessions.LostData | src/conn.c:180-223 | a schedule in which a failed acknowledgement discards the private data that came with the request |
| Completions.OnlyOwnQueues | src/conn_req.c:95-121 | on a connection that has been built, nothing but its own queues raises events in its channels |
| Completions.ChoiceIsRight | src/conn.c:244-257 | the comparison of handles finds the queue that raised the event, and calls it the receive queue exactly if receives complete there and sends do not |
| Completions.ConnWait | src/conn.c:232-284 | the result for every outcome; never the unknown queue; the event is acknowledged on the queue that raised it |
| Completions.CqWait | src/cq.c:181-217 | the result for every outcome; the event is acknowledged on the queue that raised it, without a look at it |
| Completions.WaitIsRight | src/conn.c:244-267 | in every reachable state a wait that has an event reports its queue under the right name and acknowledges it there |
| Completions.KeepSignals | src/cq.c:181-217 | every step keeps each queue exactly one of armed, pending and taken, events acknowledged once where they were raised, and completions on the queue they belong to |
| Completions.SharedChannelSound | src/conn.c:232-284 | for every built connection, whatever other queues do and whatever resources come and go beside it, while re-arming succeeds: no unknown queue, the right name, every event acknowledged once on its queue, and no receive completion on a main queue beside a receive queue |
| Completions.NoLostWakeupIff | src/include/librpma.h:2850-2853 | on every built connection a caller never waits on a channel without events while a queue on it holds a completion, in all runs, if and only if it drains after each wait |
| Completions.ConnectAndWatch | src/conn_req.c:440-478 | connecting a request gives a connection for which all of this holds |
| PingPong.KeepStep | examples/08-messages-ping-pong/client.c:101-138 | every step of either program, queue pair or channel keeps the invariant, but for a failure of the client's wait |
| PingPongProof.KeepReach | examples/08-messages-ping-pong/client.c:118-138 | every step, including those after a failure, keeps what holds of reachable states |
| PingPongProof.PingPongSafe | examples/08-messages-ping-pong/server.c:112-149 | in every interleaving, unless the client's wait failed at an unsafe moment, no message meets an unposted receive and no buffer is touched while in use; before a failure no wakeup is lost, and after k replies the client holds seed + k |
| PingPongFailure.MisuseIff | examples/08-messages-ping-pong/client.c:116-138 | when the client's wait fails, misuse can follow if and only if its send is outstanding or the server has no receive posted |
| PingPongProof.RoundsDone | examples/08-messages-ping-pong/client.c:101-138 | a client that finishes holds the seed plus its completed rounds: one less than asked for, and less those left if its wait failed |
| PingPongProof.NeverStuck | examples/08-messages-ping-pong/messages-ping-pong-common.c:45-71 | an exchange that has not failed can always go on, until both are finished or the counter has reached the end value |
| PingPongProof.RunsEnd | examples/08-messages-ping-pong/client.c:101-138 | while the client's wait has not failed, a run is bounded by the rounds asked for; and where a run cannot go on the exchange has ended or a wait has failed |
| PingPongFailure.PunctualNeverFails | examples/08-messages-ping-pong/messages-ping-pong-common.c:53-68 | a party whose completions never arrive between re-arming and polling never fails in its wait loop |
| PingPongFailure.StaleIffLate | examples/08-messages-ping-pong/messages-ping-pong-common.c:53-68 | an event becomes stale exactly by such an arrival |
| PingPongFailure.FailsIff | src/cq.c:237-243 | a wait can still fail without further such arrivals if and only if the party has a stale event and will wait again |
| PingPongFailure.LateIffCanFail | examples/08-messages-ping-pong/messages-ping-pong-common.c:53-68 | a step makes such a failure possible if and only if it is such an arrival and the party waits again |
| PingPongFailure.SpuriousFailure | examples/08-messages-ping-pong/messages-ping-pong-common.c:53-68 | a run in which the client fails although no operation has |
| PingPongFailure.CounterOverwritten | examples/08-messages-ping-pong/client.c:135-138 | a run in which the send buffer is then overwritten in use, and the final message is sent in place of the counter |
| Flatten.FullIsVariants | tools/perf/lib/figure/flat.py:48-79 | the expansion holds exactly the flat variants: the same keys, and one leaf for every list |
| Flatten.VariantIsFlat | tools/perf/lib/figure/flat.py:48-79 | no list is left, except under fstrings |
| FlattenPaths.PathsSound | tools/perf/lib/figure/flat.py:62-70 | each variant of an expansion is what the positions at the same place lead to |
| FlattenPaths.PathsSorted | tools/perf/lib/figure/flat.py:58-70 | the positions come in lexicographic order, the first key's first, so none comes twice |
| FlattenPaths.PathsComplete | tools/perf/lib/figure/flat.py:58-70 | every way of taking positions in the nested lists is listed |
| FlattenPaths.FullLength | tools/perf/lib/figure/flat.py:48-79 | an expansion has as many variants as the numbers of leaves of its choices multiply to |
| FlattenLoop.MakeFlat | tools/perf/lib/figure/flat.py:48-79 | the round-by-round loop terminates with every way of taking positions in the lists of an element listed exactly once, element by element and in lexicographic order, all flat; as many as the leaf counts multiply to |
| FlattenLoop.Round | tools/perf/lib/figure/flat.py:54-78 | a round keeps the full expansion and, if anything was expanded, makes the tallest element smaller |
| FlattenLoop.MergeMeaning | tools/perf/lib/figure/flat.py:50-51 | a merged description has the element's own value for a key if there is one, else the common one |
| FlattenLoop.MergeOrder | tools/perf/lib/figure/flat.py:50-51 | the common keys come first and the element's own new ones after them, each in its order |
| ByteStrings.DecodeEncode | src/mr.c:433-443 | reading little-endian bytes back gives the number |
| ByteStrings.EncodeDigit | src/mr.c:433-443 | byte i of a number is its i-th digit to the base 256, the lowest first |
| ByteStrings.EncodeDecode | src/mr.c:477-499 | writing a number read from bytes gives the bytes |
| Descriptors.GetDescriptor | src/mr.c:422-448 | exactly the 21 bytes of the descriptor are written |
| Descriptors.DescriptorFields | src/mr.c:422-448 | address, size, key and usage are at bytes 0, 8, 16 and 20 |
| Descriptors.RemoteFromDescriptor | src/mr.c:454-508 | the errors of a short or unused descriptor, and otherwise the region with exactly that descriptor |
| Descriptors.DescriptorInjective | src/mr.c:422-508 | a region is determined by its descriptor |
| Descriptors.PackAndUnpack | examples/05-flush-to-persistent/server.c:147-165 | region and peer configuration packed one after the other are unpacked intact |

## Left out

- Hash functions: Jenkins, Murmur and djb2 are not computed; the table is proved for every deterministic hash.
- Null data and null keys in the hash table: the code tells absence by a null datum, so callers may not store one.
- WriteRecord: bitmaps of 1000 or more are excluded, because the code prints them into a buffer of four bytes; and strings that would be written past the mapping.
- WriteImage: the same.
- What the client answers for fields that do not fit their place in a 64-byte record, such as keys shorter than 24 bytes, behind whose NUL the record keeps what was there before.
- The skipping of blanks and of a sign in `atoi`: a hop field that is read starts with a digit.
- On-demand-paging retries inside memory registration count as one attempt; fault-injection macros, logging and debug tracing are not modelled.
- Requests and connections are values, not heap objects: aliasing of pointers to them is not captured. The ledger they act on is updated in place.
- A CM ID whose destruction the provider refuses counts as destroyed, and with it its attachment.
- The initial read of the used field in the append client is one step, and visibility-only flushes (logs in volatile memory) are not distinguished, since no crash can be survived there.
- Order of events in a completion channel: the model lets a wait take any pending event.
- The disconnection at the end of the ping-pong, and what a message that met no receive does after that.
- `rpma_peer_usage_to_access`, configuration getters and setters, error strings: single fields or finite tables.
- `__process_fstrings`, `__validate_series` and the building of figures from flattened descriptions: string formatting and presentation.
- examples/hash/multihashclient.c, readhash.c and multiclient.c, the epoll servers of examples 06 and 06s, the GPSPM examples, tests and the rest of tools/perf.
