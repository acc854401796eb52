# A verified model of the NACK retransmission endpoint

A retry endpoint caches the stamped multicast frames it receives under their 16-byte
(HashKey, SeqNum) key. A listener that misses a frame sends a 64-byte NACK (BRC-126). The endpoint
takes the NACK through four rate-limit tiers and a cache lookup, retransmits the frame to multicast
unless another endpoint did so lately, and answers with a 16-byte ACK or MISS.

Time is an explicit integer. Whatever happens under one lock is one step, and steps of different
goroutines and endpoints interleave in any order. Objects that the program updates in place are
classes, and each of their methods is proved against a function of the old state. The lemmas are
about those functions and about every run of the step systems.

| file | part |
|---|---|
| `Bytes`, `Numerals`, `Options` | big-endian fields, the cache key, decimal and hexadecimal text |
| `SlidingWindow`, `WindowLimiter` | the compacted timestamp lists, as functions and as objects |
| `Keys`, `RateLimit` | the formatted limiter keys and the four tiers |
| `MemoryCache` | the bounded map with expiry, arbitrary victims and sweeps |
| `Ingress` | classification and the reused receive buffer, with an owning and a retaining store |
| `WorkerPool` | reader, channel, workers and shutdown |
| `Dedup`, `Retransmit` | any number of endpoints sharing one claim store; one call of the retransmitter |
| `Nack` | NACK and response bytes |
| `Endpoint`, `EndpointInvariants` | one endpoint as a step system, and what each step keeps |
| `Justification`, `LookupBounds`, `EndpointTheorems` | what follows for every run: answers come from frames received, lookups are bounded, counters and grants add up |
| `EndpointRuns` | runs put together step by step, for the theorems that say a run exists |
| `Fleet`, `FleetTheorems` | any number of such endpoints, with caches of their own or sharing one, retransmitting through one claim store |
| `FleetRuns` | runs of the fleet in which a frame is acknowledged and sent by nobody |
| `FleetProgress` | exactly which cleared NACKs can still be sent |
| `Server` | NACK processing as an object that owns limiter, cache and retransmitter and whose states are those of runs of the step system |
| `GroupId` | the group-id parser |

`dafny verify dfyconfig.toml` checks the whole project.

## Where the code differs from what is said of it

The model follows the code.

- `docs/architecture.md` gives the dedup key as HashKey and SeqNum; the code uses the SeqNum alone. A
  frame of one flow is therefore acknowledged and sent by nobody when another flow's equal SeqNum was
  claimed (`OtherFlowAckedNotSent`).
- A redis-backed endpoint claims under `bre:frame:`, a memory-backed one under `bre:dedup:`, so the
  two kinds do not deduplicate against each other (`AskedAtOnce`, `PrefixesInUse`).
- A claim error suppresses, and a failed write keeps the claim: the frame may be acknowledged and sent
  by nobody (`LostReplyAckedNotSent`, `FailedWriteAckedNotSent`). Exactly which NACKs send is
  `HitEntersExactly`, and by what at the moment of the claim is `HitDecidedAtClaim`.
- The server checks the tiers, then makes the lookup, with nothing to bound the time between. Counted by
  the times of the lookups, the tiers bound intervals of the window less the longest time a lookup
  follows its reading, and none longer (`ExactSequenceLookupBound`, `ExactChainLookupBound`).
- The limiters read the clock before taking their lock. With readings up to d late the bound holds in
  intervals of window − d and, for a maximum of two or more, in none longer unless it is empty
  (`ExactSkewBound`). With a
  maximum of zero or one lateness does not matter (`SmallLimiterIgnoresSkew`).
- The memory store keeps the slice it is given and ingress reuses one receive buffer, so all cached
  frames show one SeqNum (`KeptFramesShareSeqNum`) and at most one of them decodes to its key
  (`AtMostOneKeptFrameRight`): after a stamped frame that very frame and no other
  (`OnlyLatestFrameRight`), after an unstamped one none (`UnstampedSpoilsAll`), after one that does not
  decode the one whose remaining bytes still decode and spell its key, if any (`UndecodableOverwrites`).
- The evicted entry is called the oldest; it is an arbitrary one.
- The group-id comment promises bare hexadecimal `000B`. Bare hexadecimal without a letter is read as
  decimal (`BareHexMisread`).
- NACKs longer than 64 bytes are cut to 64 by the read and accepted; ProtoVer and Flags are not looked
  at (`ParseExact`).
- The sequence maximum has no default, and a negative one cannot be used as a slice capacity; the
  model's limiter demands that it is not negative.
- The group tier charges the bucket of the TxID's shard also for frames that go to the control or the
  subtree-announce group, so no bucket bounds what a source can have sent to either
  (`ControlFramesSpreadOverBuckets`).

## Model

| member | source | states |
|---|---|---|
| `SlidingWindow.SkewBound` | ratelimit/ratelimit.go:171-197 | if no reading lags the greatest one before it by more than d, no half-open interval of length window − d holds more than max admissions |
| `SlidingWindow.ExactSkewBound` | ratelimit/ratelimit.go:172-173 | for max of at least two and any lag d, also beyond the window, a length is safe for every run of lag d if and only if it is not positive or at most window − d |
| `SlidingWindow.LateRunExceeds` | ratelimit/ratelimit.go:172-173 | a run of lag d with more than max admissions in any interval from its start that is longer than window − d |
| `SlidingWindow.SmallLimiterIgnoresSkew` | ratelimit/ratelimit.go:171-197 | with max of at most one the full window is safe whatever the lag |
| `SlidingWindow.RefinesHistory` | ratelimit/ratelimit.go:181-196 | with readings that do not decrease, a call is admitted exactly when fewer than max of all admissions ever made lie after now − window, and the stored list is that surviving history in order, at most max long |
| `SlidingWindow.KeepsRecent` | ratelimit/ratelimit.go:181-190 | beyond any cut that no call's own window start has passed, the compacted list and the full history of admissions agree, element for element |
| `SlidingWindow.DeniedKeepsList` | ratelimit/ratelimit.go:192-194 | a denied call leaves the stored list exactly as it was |
| `SlidingWindow.DeniedLeavesNoTrace` | ratelimit/ratelimit.go:224-250 | a denied call put into or taken out of a run at any place, with any clock, changes neither the list nor any later decision |
| `SlidingWindow.AdmissionsReplay` | ratelimit/ratelimit.go:224-250 | replaying only the admitted calls admits all of them and reaches the same list |
| `SlidingWindow.QuietWindowRestoresCapacity` | ratelimit/ratelimit.go:224-250 | after a quiet window the next max calls are all admitted |
| `SlidingWindow.KeysAreIndependent` | ratelimit/ratelimit.go:175-180 | what is stored for a key is that of a run of its own calls alone |
| `SlidingWindow.CountAdmitted` | ratelimit/ratelimit.go:171-197 | the calls admitted for a key in an interval are as many as the key's own list of admissions has there |
| `SlidingWindow.KeyedSkewBound` | ratelimit/ratelimit.go:171-197 | the lag bound holds per key over an interleaved log of all keys |
| `SlidingWindow.KeyedRecentBound` | ratelimit/ratelimit.go:171-197 | in a log that has not read past an interval's end, an interval of the full window holds at most max admissions of a key, whatever the lag |
| `WindowLimiter.WindowEntry.Compact` | ratelimit/ratelimit.go:182-190 | the in-place loop leaves the survivors, in order, at the front of the array |
| `WindowLimiter.WindowEntry.Admit` | ratelimit/ratelimit.go:192-196 | refuses a full list unchanged, else appends the reading |
| `WindowLimiter.Limiter.EntryFor` | ratelimit/ratelimit.go:176-180 | an entry is made on first use and kept; the visible lists do not change |
| `WindowLimiter.Limiter.Allow` | ratelimit/ratelimit.go:171-197 | the object's lists and its decision are those of the function for the log of all its calls; while a key's readings do not decrease the decision is that of the key's full history |
| `Keys.ChainKeyInjective` | ratelimit/ratelimit.go:106-112 | formatted chain keys are equal only for equal (source text, HashKey), colons in the source notwithstanding |
| `Keys.GroupKeyInjective` | ratelimit/ratelimit.go:117-120 | the same for (source text, group index) |
| `RateLimit.Normalise` | ratelimit/ratelimit.go:54-86 | every window and limit that is given is kept, the Sender aliases included; one that is not positive becomes a minute, 500 per chain, 200 per second and group, or a burst of 50; the sequence maximum is passed on as it is |
| `RateLimit.ChainTierIsPerPair` | ratelimit/ratelimit.go:106-112 | over any mix of sources and flows a pair's stored list and next decision are those of its own calls |
| `RateLimit.TokenBuckets.Allow` | ratelimit/ratelimit.go:139-148 | a key gets one bucket and keeps it for good; that key's count of asked and granted goes up by this call and no other key's changes |
| `RateLimit.Limiter.Allow` | ratelimit/ratelimit.go:91-99 | the source's own bucket is asked, counted, and no other; over its rate it is dropped before the sequence window is touched; otherwise the window decides |
| `RateLimit.Limiter.AllowChain` | ratelimit/ratelimit.go:106-112 | a HashKey of zero passes and leaves no trace; otherwise the pair's window decides |
| `RateLimit.Limiter.AllowGroup` | ratelimit/ratelimit.go:117-120 | the pair's own bucket is asked and counted, and decides; no other bucket is touched |
| `Bytes.CacheKeyInjective` | ingress/ingress.go:178-181 | 16-byte keys are equal only for equal (HashKey, SeqNum) |
| `Bytes.CacheKeyByBytes` | ingress/ingress.go:178-181 | byte for byte: HashKey then SeqNum, each most significant byte first |
| `MemoryCache.UnboundedRefinesHistory` | cache/memory/memory.go:38-75 | without a limit a lookup returns exactly the last store not deleted since and not expired |
| `MemoryCache.BoundedNeverWrong` | cache/memory/memory.go:38-75 | with a limit, for any victims, it returns that value or nothing |
| `MemoryCache.SweepsInvisible` | cache/memory/memory.go:117-127 | without a limit, a sweep put anywhere into a run changes no lookup at that time or later |
| `MemoryCache.NeverOverLimit` | cache/memory/memory.go:43-54 | no run holds more than the limit, for any victims, and the key just stored is present |
| `MemoryCache.StoresLoseAtMostOneEach` | cache/memory/memory.go:43-54 | n stores lose at most n entries, for any victims, overwrites at capacity included |
| `MemoryCache.StoresThatFitLoseNothing` | cache/memory/memory.go:43-54 | stores that fit within the limit lose nothing |
| `MemoryCache.SweptIsGone` | cache/memory/memory.go:117-127 | in every run, after a sweep at t and whatever follows, every entry present is the last store of its key and expires at t or later |
| `MemoryCache.Cache.Store` | cache/memory/memory.go:38-56 | evicts one arbitrary entry exactly when there is a limit and it is reached, then sets the key; every other entry stays as it was |
| `MemoryCache.Cache.Retrieve` | cache/memory/memory.go:60-75 | what it returns is the last store not deleted or expired in the run of all operations so far; without a limit it returns nothing only if there is none |
| `MemoryCache.Cache.Delete` | cache/memory/memory.go:78-84 | removes the key and no other |
| `MemoryCache.Cache.SweepExpired` | cache/memory/memory.go:117-127 | the loop leaves exactly the entries that expire now or later, each as it was |
| `MemoryCache.Cache.Len` | cache/memory/memory.go:88-92 | counts entries, within the limit if there is one |
| `Ingress.OwnedFramesStayRight` | ingress/ingress.go:109-201 | if the store owns its bytes, every cached frame in every run is a datagram received, and the decoder of its own kind still gives the pair in its key, with a number that is not zero |
| `Ingress.LatestOwnedFrameIsKept` | ingress/ingress.go:137-201 | in every run the latest datagram received for whose kind the decoder gives a pair with a number is found under that pair until the entry is dropped |
| `Ingress.KeptFrameSurvives` | cache/memory/memory.go:51-54 | a retained slice is unchanged by the next receive if and only if the datagram repeats their common prefix |
| `Ingress.KeptFramesShareSeqNum` | ingress/ingress.go:109-132 | with the retaining store all cached frames carry one SeqNum in every run |
| `Ingress.KeptFrameRightExactly` | ingress/ingress.go:109-132 | in every state of every run a retained frame decodes to its key if and only if its bytes decode and the fields of the shared buffer spell that key |
| `Ingress.AtMostOneKeptFrameRight` | ingress/ingress.go:109-132 | however many frames are cached, at most one of them decodes to its key |
| `Ingress.OnlyLatestFrameRight` | ingress/ingress.go:137-201 | after a stamped frame a cached frame decodes to its key if and only if it is that frame's key, equal SeqNums of other flows included |
| `Ingress.UnstampedSpoilsAll` | ingress/ingress.go:174-176 | after a frame with SeqNum zero, which is not stored, no cached frame decodes to its key |
| `Ingress.UndecodableOverwrites` | ingress/ingress.go:159-168 | after a datagram that does not decode a cached frame is right if and only if what is left of its bytes decodes and spells its key |
| `Ingress.SecondFrameSpoilsFirst` | ingress/ingress.go:109-132 | two stamped frames of different SeqNum are enough to make the first decode to another key |
| `Ingress.Worker.Recvfrom` | ingress/ingress.go:113-132 | as much of the datagram as fits replaces the front of the one shared buffer, and the rest of the buffer stays |
| `Ingress.Worker.ReceiveFrame` | ingress/ingress.go:109-201 | a frame whose decoder, that of the first of the block, subtree and anchor tests it passes or else the ordinary one, gives a pair with a number is found under the pair, byte for byte; any other leaves the cached slices as they were; on the heap, what the cache shows is the owning or the retaining step function's result |
| `WorkerPool.PoolSafety` | server/server.go:117-186 | in every run: no send on or second close of the closed channel, at most 100 queued, what was accepted is every datagram read of 64 bytes or more in order, each processed at most once with exactly its first 64 bytes although the read buffer is reused, requests leave in arrival order, accepted = queued + held + in progress + processed + abandoned, nothing abandoned before cancellation |
| `WorkerPool.ReadIsHeld` | server/server.go:147-178 | after a read of 64 bytes or more the reader holds the next request, whose own buffer has the first 64 bytes; a shorter one changes only the read buffer |
| `WorkerPool.AcceptedExactly` | server/server.go:147-178 | in every run what is accepted is exactly the full-size datagrams read, in order |
| `WorkerPool.AcceptedCanBeServed` | server/server.go:121-178 | from every reachable state before cancellation, with a worker, some run of sends, takes and finishes alone processes everything accepted, each with its first 64 bytes |
| `WorkerPool.NextCanBeServed` | server/server.go:139-178 | and some run reads one more datagram of 64 bytes or more and processes it |
| `WorkerPool.NoWorkersServeNothing` | server/server.go:121-137 | without workers nothing is ever processed |
| `WorkerPool.QueueCanFill` | server/server.go:118 | some run queues any number of requests up to 100 |
| `WorkerPool.AtMostOnce` | server/server.go:117-186 | no datagram is in progress or processed more than once in all |
| `WorkerPool.Conservation` | server/server.go:117-186 | everything accepted is accounted for |
| `WorkerPool.KeepsInv` | server/server.go:117-186 | every step of reader, workers and cancellation keeps channel, order, buffers and accounts as they should be |
| `WorkerPool.StepDecreases` | server/server.go:121-185 | after cancellation every step lowers the measure |
| `WorkerPool.CancelledMakesProgress` | server/server.go:121-185 | after cancellation some goroutine can move until Run has returned |
| `WorkerPool.ShutdownTerminates` | server/server.go:121-185 | after cancellation every schedule ends within the measure, accepts at most one more datagram, and stops only with Run returned and all workers gone |
| `Dedup.ClaimsKeepDistance` | retransmit/retransmit.go:90-107 | over every interleaving of any number of endpoints two successful claims of one key are at least the first claimer's window apart |
| `Dedup.WritesAreClaimed` | retransmit/retransmit.go:90-149 | every datagram written has its call's bytes, goes by version byte to the control group (4, 6), the subtree-announce group (5) or the shard of its call's TxID (any other, or none), to an interface once per call, and, when it can be claimed, belongs to the one successful claim of that same call, made before |
| `Dedup.WritesKeepDistance` | retransmit/retransmit.go:90-149 | datagrams of one SeqNum from different calls are the window apart, less the time from a claim to its last write |
| `Dedup.ReturnedCalls` | retransmit/retransmit.go:90-159 | a suppressed call holds no claim it knows of and wrote nothing; a completed call wrote to every socket; a failed one keeps its claim |
| `Dedup.SameClaimExact` | retransmit/retransmit.go:190-199 | two calls claim one key if and only if prefix and SeqNum bytes are equal |
| `Dedup.FrameKeysApart` | cache/redis/redis.go:75-79 | a 16-byte frame key never equals an 8-byte claim key under prefixes of one length |
| `Dedup.ClaimSucceedsExactly` | retransmit/retransmit.go:91-107 | an answered claim succeeds if and only if no claim of the key that took effect is still within its window |
| `Dedup.SuppressedIsFinal` | retransmit/retransmit.go:101-107 | whatever follows, a suppressed call has written nothing |
| `Dedup.AskedAtOnce` | main.go:120-148 | asked at one time for equal SeqNums, of one flow or of two, the second endpoint's call goes on to write if and only if the prefixes differ |
| `Dedup.LostReplyConsumesWindow` | retransmit/retransmit.go:95-107 | a claim whose reply is lost suppresses its own call and the next endpoint's |
| `Dedup.FailedWriteConsumesWindow` | retransmit/retransmit.go:141-148 | after a failed write the other endpoint's call is suppressed and nothing has been written |
| `Dedup.PrefixesInUse` | main.go:124-141 | the two prefixes in use are the texts bre:frame: and bre:dedup:, of one length and different |
| `Dedup.KeepsInv` | retransmit/retransmit.go:90-159 | every step of every endpoint keeps tickets, spacing, backing of live keys, writes and the write loops consistent; a lock is held by a call of its endpoint inside its write loop, and by no other |
| `Dedup.ReadyCanBeSent` | retransmit/retransmit.go:137-159 | from every reachable state every call past its claim and not yet writing can be sent: some run of write-loop steps alone, whoever holds the lock, ends it as sent on every socket |
| `Retransmit.Retransmitter.Open` | retransmit/retransmit.go:59-72 | succeeds exactly when every interface opens, and then each has a socket |
| `Retransmit.Retransmitter.WriteAll` | retransmit/retransmit.go:140-149 | sends once per interface in any order and stops at the first failure; success means every socket has sent |
| `Retransmit.Retransmitter.Retransmit` | retransmit/retransmit.go:90-159 | writes exactly when there is no store to claim in, the frame is under 56 bytes or the claim was set; versions 4 and 6 go to the control group, 5 to the subtree-announce group, anything else to the TxID's shard; a suppressed frame is success without a write |
| `Nack.ParseBuilt` | docs/architecture.md:85-96 | a NACK built by the wire table is read back to its HashKey and SeqNum, or recognised as a range |
| `Nack.ParseExact` | server/server.go:340-351 | exactly which byte strings are read as a NACK for a given pair |
| `Nack.ParseByBytes` | server/server.go:340-351 | the same in literal bytes, and exactly which strings are ranges |
| `Nack.AckReadsBack` | docs/architecture.md:98-106 | an ACK gives back its SeqNum, ACKs of different numbers differ, and none is a MISS |
| `Nack.ResponsesByBytes` | server/server.go:314-321 | the ACK and the MISS in literal bytes |
| `Nack.FillResponse` | server/server.go:314-325 | the buffer filled in place is the response |
| `EndpointInvariants.KeepsInv` | server/server.go:188-311 | every step keeps limiter logs, cache history, NACK stages, responses, egress and counters consistent |
| `EndpointInvariants.RunInv` | server/server.go:188-311 | so they are in every reachable state |
| `Endpoint.TxIDByPosition` | server/server.go:270-274 | byte i of the TxID is byte 8 + i of the frame, or zero for a frame under 40 bytes |
| `Endpoint.RoutedExactly` | retransmit/retransmit.go:109-135 | the destination computed is the one that the version byte and the TxID by position call for |
| `Justification.FrameIsStore` | ingress/ingress.go:137-201 | every frame received for which the decoder of its kind gives a pair with a number is a store of the cache's history under that pair, with its bytes, at that time |
| `Justification.StoreIsFrame` | ingress/ingress.go:137-201 | and every store is a frame received |
| `Justification.LookedUpAtStep` | server/server.go:240-246 | every NACK that hit or missed has its lookup as a step of the run, made with what had happened by then |
| `Justification.HitsAreJustified` | server/server.go:240-268 | in every run what a NACK found is the latest frame filed, at a step before its lookup, under exactly its pair, no older than the time to live it was filed with, which for a cache of its own is the endpoint's; the pair's SeqNum is not zero |
| `Justification.FramesSentAreJustified` | server/server.go:270-302 | every datagram that left a socket, of a loop that failed later included, is what its NACK found, goes to the group its version byte and the TxID at bytes 8 to 39 call for, and is the only one of its NACK on that socket |
| `Justification.SentOnEverySocket` | retransmit/retransmit.go:140-149 | a NACK that ended as sent has its frame on every socket, one whose send failed not on every socket, any other on none |
| `Justification.ResponsesAreJustified` | server/server.go:258-307 | every response is the only one of its NACK; an ACK, for a NACK throttled, sent or suppressed, carries the number asked for, never zero, and such a frame was received in time; a MISS is for a NACK that found nothing |
| `Justification.AnsweredExactly` | server/server.go:258-307 | a NACK has a response if and only if it has a source and either was throttled, sent or suppressed and ACKs are on, or missed and MISSes are on |
| `Justification.MissExactly` | server/server.go:240-262 | without a cache limit a lookup misses if and only if the latest frame of that pair filed at a step before it, if any, has outlived the time to live it was filed with; for a cache of its own, if and only if no frame of that pair was received within the time to live |
| `Justification.StampedFrameIsFound` | ingress/ingress.go:137-201 | in every run without a cache limit: a frame of any of the four kinds whose own decoder gives a pair with a number is what a NACK for that pair finds, for the frame's time to live, unless a later frame of the pair has come |
| `Justification.IgnoredFrameChangesNothing` | ingress/ingress.go:159-176 | a datagram that its decoder rejects, or with number zero, changes nothing |
| `LookupBounds.SequenceTierBound` | server/server.go:211-229 | of the NACKs for a SeqNum admitted by readings in an interval of the sequence window less the lag at most SequenceMax go on to a lookup, over all sources and flows |
| `LookupBounds.SequenceLookupBound` | server/server.go:211-246 | if no lookup follows its reading by more than a delay, any interval of lookup times of the window less the delay holds at most SequenceMax lookups for a SeqNum, over all sources, flows and interleavings, whatever the lag |
| `LookupBounds.ExactSequenceLookupBound` | server/server.go:211-246 | an interval length is safe for every such run if and only if it is not positive or at most the window less the delay, or the maximum is zero |
| `LookupBounds.SeqLateRun` | server/server.go:211-246 | the run with SequenceMax + 1 lookups of one SeqNum from the delay to the window, all prompt |
| `LookupBounds.ChainTierBound` | server/server.go:231-240 | by readings, the same for a (source, non-zero HashKey) and the chain maximum |
| `LookupBounds.ChainLookupBound` | server/server.go:231-246 | by lookup times, the same |
| `LookupBounds.ExactChainLookupBound` | server/server.go:231-246 | and that bound is exact as well: the length, or a chain or sequence maximum of zero |
| `LookupBounds.ChainLateRun` | server/server.go:231-246 | the run that shows it, with successive SeqNums of one flow |
| `EndpointTheorems.DropAtSequence` | server/server.go:211-229 | a drop at the sequence tier leaves what every key has stored there, the chain tier, the cache, the grants and all that left as they were |
| `EndpointTheorems.DropAtChain` | server/server.go:231-240 | a drop at the chain tier leaves every stored chain list, the cache, the grants and all that left as they were, while its admission at the sequence tier stays spent |
| `EndpointTheorems.ShardRetransmitsAreGranted` | server/server.go:271-302 | NACKs of a source whose frame's version byte and TxID bytes call for a shard group, and so those for which any socket wrote there, are at most the grants of that source and group's bucket |
| `EndpointTheorems.ControlFramesSpreadOverBuckets` | retransmit/retransmit.go:109-138 | for any list of frames of version 4 or 6, sent to the control group, or of version 5, sent to the subtree-announce group, whose TxIDs fall into different shards there is a run that sends all of them there for one source while no bucket of that source grants more than once |
| `EndpointTheorems.CountersAddUp` | server/server.go:188-311 | in every reachable state each counter is the number of NACKs that ended that way; requests = unserved + drops + misses + hits + on their way; hits = retransmits + group drops + failures + on their way; retransmits = completed write loops + suppressed |
| `Fleet.SeenPlausible` | retransmit/retransmit.go:90-159 | what a call that ran through the claim protocol did is something its endpoint's own model allows, and ends the NACK as the call ended |
| `Fleet.KeepsInv` | server/server.go:295-307 | every step of any endpoint, of any call, of any frame received and of time keeps each call tied to its own NACK, to the frame that found and to how both end |
| `Fleet.RunInv` | server/server.go:295-307 | so it is in every run of any number of endpoints over one claim store |
| `FleetTheorems.SharedCacheIsOne` | docs/architecture.md:60 | in every run all clocks agree and redis-backed endpoints of one prefix see one and the same cache, whoever received the frames |
| `FleetTheorems.FramesHaveOrigins` | cache/redis/redis.go:39-43 | every frame filed in an endpoint's cache was received at that very time, with the receiver's time to live, by that endpoint or by one that shares the cache |
| `FleetTheorems.HitEntersExactly` | retransmit/retransmit.go:91-148 | a cleared NACK whose frame must be claimed enters the write loop if and only if its own claim took effect and it was told so; otherwise it ends suppressed and no socket ever wrote for it |
| `FleetTheorems.CallsAreDecided` | retransmit/retransmit.go:91-107 | every call that must claim and has left its start was decided by one step of the run, its claim |
| `FleetTheorems.HitDecidedAtClaim` | retransmit/retransmit.go:91-107 | a NACK that must claim ends sent or failed, not suppressed, if and only if at the step of its own claim the store answered and no claim of the key that had taken effect, told to its caller or not, was within its window |
| `FleetTheorems.WritesAreHits` | server/server.go:270-302 | every datagram that left any socket of any endpoint, of calls in progress or failed included, is what its NACK found, the latest filed under its pair; a step of the run shows it received, by that endpoint or by one that shares its cache, no more than the receiver's time to live before the lookup; it was granted by its bucket and sent to the group its version byte and TxID bytes call for |
| `FleetTheorems.ShardWritesAreGranted` | server/server.go:271-302 | at every moment the NACKs of a source at an endpoint for which any socket has written to a shard group are at most the grants of that bucket |
| `FleetProgress.ClearedSendsExactly` | retransmit/retransmit.go:90-159 | in every reachable state of the fleet some continuation ends a cleared NACK as sent if and only if its call, if it has made one, was neither suppressed nor failed |
| `FleetProgress.ClearedCanBeSent` | retransmit/retransmit.go:90-159 | that continuation: make the call, wait for any claim of the key to run out, claim, let whoever writes finish, lock, write every socket, return |
| `FleetProgress.LostIsFinal` | retransmit/retransmit.go:101-148 | a NACK whose call was suppressed or failed is not sent, whatever follows |
| `FleetRuns.OtherFlowAckedNotSent` | retransmit/retransmit.go:190-199 | a run where a frame is acknowledged and leaves no socket while another flow's frame of equal SeqNum goes out everywhere |
| `FleetRuns.FailedWriteAckedNotSent` | retransmit/retransmit.go:141-148 | a run where one endpoint's first write fails and another endpoint acknowledges the frame, which nobody sends |
| `FleetRuns.LostReplyAckedNotSent` | retransmit/retransmit.go:95-107 | a run where the claim store's reply is lost and the frame is acknowledged and sent by nobody |
| `Server.Server.ProcessNACK` | server/server.go:188-311 | serving one NACK with the limiter, cache and retransmitter it owns takes the server to a state the step system reaches, and ends the NACK in exactly the outcome that the limiter's windows, the cache and the answers from outside call for beforehand; drops touch no later tier; what left is exactly the response the outcome calls for and the cached frame on the sockets written, all of them if and only if it ended as sent |
| `Server.Server.PassTiers` | server/server.go:194-240 | invalid, range, dropped at the IP, sequence or chain tier, or passed: which one is decided by the NACK, the bucket's verdict and what the windows held; invalid and range NACKs and IP drops touch neither window, sequence drops not the chain window; nothing leaves |
| `Server.Server.Answer` | server/server.go:242-307 | from the lookup on: failed lookup, miss, throttled, suppressed, sent or failed, exactly as the cache, the bucket, the claim and the writes decide; and so does what leaves |
| `Server.Server.Deliver` | server/server.go:270-307 | after a hit: throttled exactly with a shard engine and a refusing bucket, suppressed exactly without a claim, sent exactly if every socket writes |
| `Server.Server.TierIPAndSequence` | server/server.go:211-229 | exactly the bucket of the source, or of :: without one, is asked; a drop at the IP tier if and only if it refuses, and then the sequence window's log is as it was; passed if and only if it grants and the SeqNum's window has room |
| `Server.Server.TierChain` | server/server.go:231-240 | passed if and only if the HashKey is zero or the pair's window has room |
| `Server.Server.Retrieve` | server/server.go:242-268 | hit, miss or error as the cache object has it, and a MISS only for a miss |
| `Server.Server.TierGroup` | server/server.go:277-293 | with a shard engine the bucket of the source and the shard of the frame's bytes 8 to 39 is asked and its verdict decides; without one no bucket is made or asked; a throttled NACK is acknowledged without a retransmit |
| `Server.Server.BucketCounts` | ratelimit/ratelimit.go:117-120 | in every state of the server the grants counted by a pair's bucket are the grants of the step system for that pair |
| `Server.Server.BucketBoundsShard` | server/server.go:271-302 | so the NACKs of a source for which any socket wrote to a shard group are at most what that source and group's bucket object granted |
| `Server.Server.AskRetransmitter` | retransmit/retransmit.go:90-159 | suppressed exactly if a claim is needed and was not set, otherwise sent exactly if every socket writes; what it did is an attempt the step system allows |
| `Server.Server.Serve` | server/server.go:295-307 | sent and suppressed are both acknowledged, a failure is not; which of them is decided by the claim and the writes; the sockets written are recorded in each case |
| `Server.Server.Respond` | server/server.go:314-338 | one response unless suppressed or without a return address |
| `Server.Server.ReceiveFrame` | ingress/ingress.go:137-201 | a frame whose own decoder gives a pair with a number is found under the pair for the time to live; any other changes nothing |
| `Server.Server.SweepExpired` | cache/memory/memory.go:117-127 | exactly the entries that had expired are gone, and no lookup at that time changes |
| `Server.Server.Reconciles` | server/server.go:188-311 | between NACKs the counters add up with nothing on its way |
| `GroupId.ParseUint16Exact` | config/config.go:342-348 | the digit loop succeeds exactly on non-empty digit text of value at most 65535, with that value |
| `GroupId.ParseGroupIdExact` | config/config.go:333-351 | exactly which text parses, and to what |
| `GroupId.SpacesAre` | config/config.go:334 | which characters are trimmed, one by one |
| `GroupId.HexAtLeastDecimal` | config/config.go:342-344 | digit text read as hexadecimal is at least its decimal value |
| `GroupId.LargeDecimalRejected` | config/config.go:342-348 | digit text above 65535 is rejected, not read again as hexadecimal |
| `GroupId.FallbackNeedsLetter` | config/config.go:342-348 | the hexadecimal fallback succeeds only on text with a letter |
| `GroupId.DecimalRoundTrip` | config/config.go:333-351 | every id parses back from its decimal form, padded with spaces or not |
| `GroupId.PrefixedHexRoundTrip` | config/config.go:333-351 | and from its 0x form |
| `GroupId.BareHexRoundTrip` | config/config.go:331-332 | and from its bare hexadecimal form if and only if that has a letter or is below ten |
| `GroupId.SpelledHexRoundTrip` | config/config.go:331-351 | prefixed hexadecimal reads back with each letter in either case, any leading zeros and any white space around it |
| `GroupId.SpelledBareHex` | config/config.go:331-351 | bare hexadecimal in either case reads back if and only if a digit is a letter or the number is below ten |
| `GroupId.DocumentedForms` | config/config.go:331-332 | 0x000B and 000B, in either case, parse as eleven |
| `GroupId.BareHexMisread` | config/config.go:331-332 | the bare hexadecimal form of sixteen parses as ten |

## Left out

- Sockets, multicast joins, deadlines and other system calls: a receive or a write is a step that may fail.
- The inside of a token bucket (`golang.org/x/time/rate`): its verdicts are inputs, recorded.
- The redis client: the claim is an atomic set-if-absent with positive expiry on one clock, whose reply may be lost; a dedup window of zero, which would never expire, is not modelled.
- A redis frame cache is one map per prefix with the memory cache's expiry, a positive time to live and no eviction by redis itself; endpoints that share it decode alike; a frame whose store fails is as if it had not come.
- The frame and shard packages: decoding and the group index are functions given from outside; only SeqNum at bytes 48 to 55 and TxID at bytes 8 to 39 are relied on, and for the exact results on the shared buffer that every decoder reads the HashKey from one field before the SeqNum.
- Aliasing of the receive buffer is in `Ingress`; `Endpoint`, `Fleet` and `Server` use a store that owns its bytes.
- In `Endpoint` a retransmit is one step, taken when the call returns; its claim and its single writes interleave with everything else in `Dedup` and `Fleet`.
- Server.Server.ProcessNACK: serves one NACK at a time, from a memory cache of its own; the interleaving of several is in `Endpoint`, the shared cache in `Fleet`.
- Server.Server.Respond: a response is taken to be sent; that sending it may fail, which the code only counts and logs, is not modelled.
- RateLimit.Normalise: rates are reals, so rounding of floats and overflow of their conversion are not modelled.
- GroupId.ParseGroupIdExact: lower-casing is ASCII only.
- LookupBounds.ExactChainLookupBound: for chain maxima below 2^63, the range of the code's integers.
- Ingress counters, and the counters of responses sent and failed.
- Unicast retransmit: described, but there is no code for it.
- Beacon messages: fixed fields written in a row, with no reader in the repository to state a round trip against.
- Metrics and HTTP handlers, flags and environment, wiring, logging and closing of objects: they hand values on and decide nothing that a property here depends on.
