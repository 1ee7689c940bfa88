# A verified model of the CHI home node

The home node (HN-F) is a message-driven protocol engine on top of a set-associative cache. Nodes send it requests;
it answers from the cache, snoops the nodes that share a line, or reads memory. The same code serves as L2 and L3, so
the number of sets (a power of two up to 2^24) and of ways (at least one) are parameters here.

The project has three layers.

* **Storage.** `AddressMap` works on 64-bit words bit by bit; `CacheSet`, `L2Cache` are classes over arrays in the
  source's form; `CacheStore` is the value they represent and proves that it behaves as a bounded map from line numbers
  to (state, data, sharers). `LruRecency` proves that the ranks are a recency order, `StoreRecency`
  that the whole array therefore replaces in true LRU order.
* **Engine.** `ProtocolEngine` is the class with the source's handlers, loops and tables; each handler is proved to
  carry out the step that `EngineSpec` defines on values. A step touches one line: it maps the tables and the view of
  that line to new tables, operations on that line and actions. `Outcomes` says, per opcode and without the handlers,
  what is left in the line and whom the messages address. `Reactions` goes through every message and every case with the
  states, sets and numbers written out, so that no definition of the engine stands only for itself.
* **Runs.** The remaining modules prove what holds over whole runs: `EngineTables` (linked tables, separated ids, exact
  routing), `IdRanges` (which ids are handed out, in numbers), `EngineRecency` (true LRU under engine traffic), `Conservation` (every request answered once, to the right node), `SnoopBarrier` (exact countdowns), `Drain`
  (outstanding work always drains), `Directory` (only shared clean lines have several sharers), `WorkingSet` (nothing
  is lost while the lines fit), `Diamond` and `AnyOrder` (answers to distinct transactions commute, two at a time and in
  any number), `LateBeats` and `ExtraBeats` (data beats beyond the first are invisible), `RepeatedSnoops` (when a beat can
  come again while its transaction waits), `LostRequests` (what becomes of an overwritten request), `RequesterWorld` and
  `Coherence` (single writer, latest value), `Progress` (every line settles, except in one state), `Starvation` (how that
  state arises and that it is for ever), `StarvingRun` (a run that gets there) and `SharingRun` (a run in which one node
  reads what another wrote).

Line states and their transitions follow AMBA 5 CHI (Arm IHI 0050), sections 4.1 and 4.7, in the code's simplified form.

## Assumptions

The code relies on its surroundings for the following; each theorem names the ones it uses.

* Requests carry ids below 10000, and an id the engine keys a write or a snooping transaction on is not live
  (`RequestOk`). Snoop ids stay below 20000 and memory ids do not wrap (`RequestOk`); this is no extra assumption
  as long as at most 10000 snoops are sent (`IdRanges.RoomIsThere`), and fails beyond that (`IdRanges.RangesHoldIff`).
* A snoop that demands data is answered by one or more data beats, any other by one response (`AnsweredAsAsked`). Used by
  `SnoopBarrier`, `Drain`, `ExtraBeats` and `RepeatedSnoops`; `Coherence` does without it.
* One transaction per line at a time, and a write comes from the sole sharer if there is one (`Orderly`). `ExtraBeats`
  needs the first half only (`Steady`). In `Coherence` a line takes a new request once the last one and its messages are
  done (`Idle`); further beats of data that has arrived may still be on their way when a read is asked, but not when a
  write-back is. A writer sends its data once the engine has told it to. The rest is derived.
* The lines ever requested fit their sets, and no line in flight is evicted (`Fits`, `Within`). Used by `WorkingSet`,
  `Diamond`, `AnyOrder`, `ExtraBeats`, `Coherence`, `Progress`, `Starvation`. Without it `Next` describes a build whose assertions are off;
  `Aborts` says when the assertion against dirty victims fails.
* Write data and its further beats carry the write's id while it waits, or an id that is not live (`WriteIdOk`).

## Findings

* A data beat that arrives after its transaction finished is ignored exactly when no write of the same address waits for
  data (`LateBeats.LateBeatIgnoredIff`). Otherwise the stale beat is taken for the write data and the real write data is
  then dropped (`LateBeats.LateBeatOverwrites`). This is why `Coherence` lets reads, but not write-backs, start while
  such beats are on their way.
* After a write-back the engine keeps the writer as a sharer. A read by any other node then snoops the writer for data it
  no longer has, and is never answered (`Starvation.ReadAfterWriteBackStarves`). `StarvingRun.ARunThatStarves` is such a
  run from an empty cache: node 0 reads and writes back, node 1 reads.
* A beat can repeat while its transaction still waits only if several nodes were asked for data. Orderly runs and coherent
  worlds never get there (`RepeatedSnoops.OrderlyRunsNeverRepeat`, `RepeatedSnoops.CoherentWaitersAreUnmarked`), because
  a dirty line has one sharer; after a write from a node that is not the sole sharer it has two
  (`RepeatedSnoops.ARunThatRepeats`). A repeated beat fills the line again, so one that differs from what the line then
  holds shows in the line until the transaction completes; nothing else does (`ExtraBeats.RepeatChangesLittle`).
* Write data that carries the id of another live transaction is lost or lands on that transaction's line
  (`EngineTables.WriteDataRouting`, `EngineTables.MisroutedWriteData`).
* A request whose id is still live as a key overwrites the pending entry. The books balance exactly when that entry owed
  no answer (`Conservation.RequestBalancedIff`); a request of another node or id whose one entry is overwritten is not
  answered by any later step of any run, unless it is asked anew (`LostRequests.OverwrittenIsNeverAnswered`;
  `LostRequests.AnOverwrite` is an input).
* `docs/design/chi-transaction-support.md:9` says a ReadShared hit returns SC. The code returns SD when the line was
  dirty and nobody else shared it; the model follows the code (`Outcomes.ServedLineOf`).
* The documentation (`docs/design/chi-transaction-support.md:39-45`) lets a snooped node return data only if its copy is
  dirty, while the engine waits for data from every node it asks. `Coherence` allows a clean node to answer either way.

## Model

| member | source | states |
|---|---|---|
| AddressMap.LowMaskValue | cache_model/src/l2_cache.cc:17-19 | the set mask is a power of two less one |
| AddressMap.ShrIsDiv | cache_model/src/l2_cache.cc:28-30 | a right shift of a 64-bit word divides by a power of two |
| AddressMap.MaskIsMod | cache_model/src/l2_cache.cc:32-34 | masking the low bits is the remainder by a power of two |
| AddressMap.GetTag | cache_model/src/l2_cache.cc:28-30 | the shifted address is the line number divided by the number of sets |
| AddressMap.GetSetIndex | cache_model/src/l2_cache.cc:32-34 | the shifted and masked address is the line number modulo the number of sets |
| AddressMap.MakeAddr | cache_model/src/l2_cache.cc:36-38 | shifting and or-ing adds up to the first byte of the line with this tag and index |
| AddressMap.MakeAddrRoundTrip | cache_model/src/l2_cache.cc:28-38 | taking an address apart and putting it together clears its six offset bits, for every address and size |
| AddressMap.SameTagAndSetIffSameLine | cache_model/src/l2_cache.cc:28-34 | two addresses share tag and set exactly when they are on the same 64-byte line |
| AddressMap.Log2OfPow2 | cache_model/src/l2_cache.cc:17 | the set bits are the exponent of the number of sets |
| CacheSets.FindTag | cache_model/include/cache_line.hh:63-70 | the first valid way with the tag, or none has it |
| CacheSets.FindFree | cache_model/include/cache_line.hh:96-103 | the first invalid way, or all are valid |
| CacheSets.Victim | cache_model/include/cache_line.hh:85-93 | the last of the ways with the lowest rank |
| CacheSets.CacheSet.constructor | cache_model/include/cache_line.hh:57-60 | all ways blank (tag 0, state I, zero data, no sharers), ranks 0 to n-1 in order |
| CacheSets.CacheSet.Lookup | cache_model/include/cache_line.hh:63-70 | the search loop finds what FindTag specifies |
| CacheSets.CacheSet.Touch | cache_model/include/cache_line.hh:74-82 | the in-place update moves the way to the top rank and closes its gap |
| CacheSets.CacheSet.VictimWay | cache_model/include/cache_line.hh:85-93 | the loop finds the way of lowest rank |
| CacheSets.CacheSet.FindInvalid | cache_model/include/cache_line.hh:96-103 | the search loop finds what FindFree specifies |
| LruRecency.TouchKeepsRanks | cache_model/include/cache_line.hh:74-82 | touching keeps the ranks a permutation and the order of all other ways |
| LruRecency.RankIsRecency | cache_model/include/cache_line.hh:57-82 | for every history, a way's rank is n-1 less the number of distinct ways touched since its own last touch, and those are the ways above it |
| LruRecency.VictimIffAllOthersTouchedSince | cache_model/include/cache_line.hh:74-93 | a way is the victim exactly when all others have been touched since |
| LruRecency.TouchedWaySurvives | cache_model/include/cache_line.hh:74-93 | a touched way is not the victim until every other way has been touched |
| CacheStore.ApplySetKeepsValid | cache_model/src/l2_cache.cc:90-119 | every operation keeps tags unique among valid ways and ranks a permutation |
| CacheStore.ApplyRefinesMap | cache_model/src/l2_cache.cc:40-239 | every operation acts on its own line as on a map entry and leaves every other line alone, except the one a fill drops |
| CacheStore.StoreRefinesMap | cache_model/src/l2_cache.cc:40-239 | the whole array is a finite map and every operation the matching map operation, less the dropped line |
| CacheStore.ApplyOpsRefineMap | cache_model/src/l2_cache.cc:90-239 | so does a list of operations on one line with at most a leading fill |
| CacheStore.LookupPredictsFill | cache_model/src/l2_cache.cc:40-119 | a miss changes nothing; the next fill drops a dirty line exactly when an eviction was reported, and then exactly the reported line, data and sharer |
| CacheStore.SharerEdits | cache_model/src/l2_cache.cc:121-154 | adding, removing and clearing sharers leaves exactly these sharers, the state and data of the line, every other line and all recency; an absent line stays absent |
| CacheStore.StateEdits | cache_model/src/l2_cache.cc:169-239 | setting the state keeps data and sharers, setting it to I or invalidating removes the line, and nothing else changes |
| CacheStore.InvalidateBlanks | cache_model/include/cache_line.hh:44-49 | invalidating blanks the tag, state, data and sharers of the way that held the line |
| CacheStore.DataEdit | cache_model/src/l2_cache.cc:218-227 | writing data keeps state and sharers, and nothing else changes |
| CacheStore.TouchAndFillLaws | cache_model/src/l2_cache.cc:49-119 | a lookup moves no line; a fill installs state and data, keeps the sharers of a resident line and starts with none otherwise, and makes at most one other line vanish |
| CacheStore.ResidentIffViewed | cache_model/src/l2_cache.cc:49-58 | a line is found exactly when some way holds it |
| StoreRecency.RanksReplayHistory | cache_model/src/l2_cache.cc:49-116 | for any operations on a fresh array each set's ranks replay the ways its hits and fills touched |
| StoreRecency.DroppedOnlyAfterAllOthers | cache_model/src/l2_cache.cc:107-116 | a line looked up or filled, and removed by no operation of its own, is gone only after every other way of its set has been touched |
| L2Caches.L2Cache.constructor | cache_model/src/l2_cache.cc:10-26 | a well-formed cache that holds no line |
| L2Caches.L2Cache.Lookup | cache_model/src/l2_cache.cc:40-88 | reports hit, miss or dirty eviction as specified and touches a hit line |
| L2Caches.L2Cache.LookupIn | cache_model/src/l2_cache.cc:49-87 | the same within one set |
| L2Caches.L2Cache.Fill | cache_model/src/l2_cache.cc:90-119 | the fill of the represented store: sharers kept on update, empty on allocation |
| L2Caches.L2Cache.FillIn | cache_model/src/l2_cache.cc:95-117 | the same within one set |
| L2Caches.L2Cache.AddSharer | cache_model/src/l2_cache.cc:121-132 | adds the sharer of a resident line, in the represented store |
| L2Caches.L2Cache.RemoveSharer | cache_model/src/l2_cache.cc:134-143 | a node is a sharer exactly if it was one and is not the removed one; nothing else changes |
| L2Caches.L2Cache.ClearSharers | cache_model/src/l2_cache.cc:145-154 | clears the sharers of a resident line |
| L2Caches.L2Cache.GetSharers | cache_model/src/l2_cache.cc:156-167 | the sharers of the resident line, else the empty set |
| L2Caches.L2Cache.SetState | cache_model/src/l2_cache.cc:169-180 | sets the state of a resident line |
| L2Caches.L2Cache.GetState | cache_model/src/l2_cache.cc:182-192 | the state of the resident line, else I |
| L2Caches.L2Cache.NeedsWriteback | cache_model/src/l2_cache.cc:194-204 | true exactly for a resident line in UD or SD |
| L2Caches.L2Cache.GetData | cache_model/src/l2_cache.cc:206-216 | the data of the resident line, else none (the null pointer) |
| L2Caches.L2Cache.WriteData | cache_model/src/l2_cache.cc:218-227 | a resident line has the new data and its old state and sharers; nothing else changes |
| L2Caches.L2Cache.Invalidate | cache_model/src/l2_cache.cc:229-239 | removes the line |
| ProtocolEngines.ChiProtocolEngine.constructor | cache_model/src/chi_protocol_engine.cc:9-10 | empty tables, counters at 10000 and 20000 |
| ProtocolEngines.ChiProtocolEngine.CountOthers | cache_model/src/chi_protocol_engine.cc:75-76 | the counting loop counts the sharers other than the requester |
| ProtocolEngines.ChiProtocolEngine.SendSnoops | cache_model/src/chi_protocol_engine.cc:86-96 | the sending loop issues the specified snoops in order |
| ProtocolEngines.ChiProtocolEngine.HandleReadShared | cache_model/src/chi_protocol_engine.cc:61-136 | carries out the specified step unless the assertion fails |
| ProtocolEngines.ChiProtocolEngine.HandleReadUnique | cache_model/src/chi_protocol_engine.cc:142-273 | carries out the specified step of ReadUnique and ReadNotSharedDirty |
| ProtocolEngines.ChiProtocolEngine.HandleReadOnce | cache_model/src/chi_protocol_engine.cc:278-339 | carries out the specified step |
| ProtocolEngines.ChiProtocolEngine.HandleCleanUnique | cache_model/src/chi_protocol_engine.cc:345-439 | carries out the specified step |
| ProtocolEngines.ChiProtocolEngine.HandleWrite | cache_model/src/chi_protocol_engine.cc:445-506 | parks the write and acknowledges it unless it is WriteNoSnp |
| ProtocolEngines.ChiProtocolEngine.RecvRequest | cache_model/src/chi_protocol_engine.cc:26-56 | succeeds exactly when the step does not abort, and is then the specified step of the whole engine |
| ProtocolEngines.ChiProtocolEngine.EraseSnoopsOf | cache_model/src/chi_protocol_engine.cc:667-672 | erasing while iterating removes exactly the transaction's snoops and their marks |
| ProtocolEngines.ChiProtocolEngine.EraseMemEntriesOf | cache_model/src/chi_protocol_engine.cc:598-604 | erasing while iterating removes exactly the matching memory entries |
| ProtocolEngines.ChiProtocolEngine.CompletePending | cache_model/src/chi_protocol_engine.cc:660-701 | carries out the specified completion on tables and line |
| ProtocolEngines.ChiProtocolEngine.FindWriteByAddress | cache_model/src/chi_protocol_engine.cc:548-555 | finds some entry of any write opcode that waits for data at this address, in any iteration order, or there is none |
| ProtocolEngines.ChiProtocolEngine.TakeSnoopData | cache_model/src/chi_protocol_engine.cc:520-538 | fills, counts a snoop once, completes when both countdowns are done |
| ProtocolEngines.ChiProtocolEngine.TakeWriteData | cache_model/src/chi_protocol_engine.cc:557-566 | installs write data as UD with its sender as sharer |
| ProtocolEngines.ChiProtocolEngine.TakeMemData | cache_model/src/chi_protocol_engine.cc:574-605 | installs memory data and answers the requester |
| ProtocolEngines.ChiProtocolEngine.RecvData | cache_model/src/chi_protocol_engine.cc:512-607 | the three-stage dispatch is the specified step for some fallback choice the engine could make |
| ProtocolEngines.ChiProtocolEngine.RecvResponse | cache_model/src/chi_protocol_engine.cc:613-654 | the specified step for every id, live or not |
| ProtocolEngines.ChiProtocolEngine.Invalidate | cache_model/include/chi_protocol_engine.hh:67 | the direct invalidation is the specified eviction |
| EngineTables.OneSnoopPerOtherSharer | cache_model/src/chi_protocol_engine.cc:84-97 | a request sends exactly one snoop to each node it has to ask and none to others, under consecutive new ids, of the kind of its opcode, demanding data exactly if the line is dirty |
| EngineTables.StepKeepsConsistent | cache_model/src/chi_protocol_engine.cc:26-701 | every message, expected or not, keeps the tables linked and the ids in their ranges |
| EngineTables.RunConsistent | cache_model/include/chi_protocol_engine.hh:76-90 | in every reachable state each snoop belongs to a snooping entry, each memory key to a live memory entry, and marks to live snoops |
| EngineTables.RoutingIsExact | cache_model/src/chi_protocol_engine.cc:512-575 | live ids of different kinds never meet and every data message reaches the transaction it is for |
| EngineTables.WriteDataRouting | cache_model/src/chi_protocol_engine.cc:543-567 | write data reaches its write exactly when its id is the write's own or not live |
| EngineTables.MisroutedWriteData | cache_model/src/chi_protocol_engine.cc:545-567 | an input for which write data lands on another line |
| EngineTables.SnoopIdsStayBelowIff | cache_model/include/chi_protocol_engine.hh:88-90 | one request keeps all snoop ids below 20000 exactly if the counter does not pass 20000 |
| IdRanges.IdsCountUp | cache_model/include/chi_protocol_engine.hh:88-90 | in any run at all, snoops get the ids 10000, 10001 and so on and memory commands 20000, 20001 and so on, as 32-bit numbers |
| IdRanges.RangesHoldIff | cache_model/include/chi_protocol_engine.hh:88-90 | so snoop ids stay in [10000, 20000) exactly if at most 10000 snoops are sent, and memory ids stay at 20000 and above exactly until they wrap |
| IdRanges.RoomIsThere | cache_model/include/chi_protocol_engine.hh:88-90 | with at most 10000 snoops, request ids below 10000 and no live id reused, every request finds room: the run is one of those the other theorems speak of |
| IdRanges.LiveIdsAreApart | cache_model/include/chi_protocol_engine.hh:88-90 | in such runs live snoops have ids in [10000, 20000), memory transactions 20000 and above, all others their request's id below 10000 |
| EngineTables.StepChangesOneEntry | cache_model/src/chi_protocol_engine.cc:26-701 | a message changes at most one pending entry, which keeps its request |
| EngineTables.StepViews | cache_model/src/chi_protocol_engine.cc:26-701 | a message changes the view of its own line only, apart from a dropped line |
| Reactions.ReadSharedReacts | cache_model/src/chi_protocol_engine.cc:61-136 | ReadShared and ReadNoSnp: UC and SC are served whoever shares the line, UD and SD if no other node does, else one SnpCleanInvalid with data goes to each other sharer; a miss is fetched; line, answer, entry and snoops written out |
| Reactions.ReadOnceReacts | cache_model/src/chi_protocol_engine.cc:278-339 | ReadOnce is served or asks in the same cases, with SnpOnce, and leaves line and sharers as they are |
| Reactions.ReadUniqueReacts | cache_model/src/chi_protocol_engine.cc:142-273 | ReadUnique and ReadNotSharedDirty: served as UD if no other node shares the line, else SnpUnique to each, with data exactly for UD and SD |
| Reactions.CleanUniqueReacts | cache_model/src/chi_protocol_engine.cc:345-439 | CleanUnique on UC, on UD with its write to memory, and on SC and SD with and without other sharers |
| Reactions.WriteReacts | cache_model/src/chi_protocol_engine.cc:445-506 | WriteBackFull, WriteUniqueFull and WriteEvictFull are acknowledged by one CompDBIDResp to the sender, WriteNoSnp by nothing; all wait for data |
| Reactions.OtherReacts | cache_model/src/chi_protocol_engine.cc:40-54 | any other opcode is read from memory without a look at the cache |
| Reactions.AbortsIff | cache_model/src/chi_protocol_engine.cc:123-124 | the assertion fails exactly for a lookup of an absent line whose fill would drop a UD or SD line |
| Reactions.SnoopResponseReacts | cache_model/src/chi_protocol_engine.cc:616-632 | a snoop response lowers the countdown and with both done ends the transaction: line, answer, and what is erased |
| Reactions.SnoopBeatReacts | cache_model/src/chi_protocol_engine.cc:517-541 | a snoop data beat fills the line, counts once as the response, and with both countdowns done ends the transaction |
| Reactions.MemBeatReacts | cache_model/src/chi_protocol_engine.cc:571-606 | memory data fills the line, adds the requester unless ReadOnce, answers and erases what belongs to it |
| Reactions.WriteAckReacts | cache_model/src/chi_protocol_engine.cc:640-648 | the acknowledgement of a write to memory erases its entry and memory ids, nothing else |
| Reactions.WriteDataReacts | cache_model/src/chi_protocol_engine.cc:545-567 | data under a waiting write's own id makes the line UD with the data and the sender among its sharers, for every write opcode |
| Reactions.FallbackReacts | cache_model/src/chi_protocol_engine.cc:545-567 | data under an id that is not live goes to some write waiting for the address, of whatever opcode, and any of them may be met; without one nothing changes |
| Reactions.OthersAreIgnored | cache_model/src/chi_protocol_engine.cc:526-654 | data and responses nobody waits for change nothing |
| Reactions.EvictReacts | cache_model/include/chi_protocol_engine.hh:67 | a direct invalidation removes its line, no other, and leaves the tables alone |
| EngineRecency.RanksReplayUses | cache_model/src/chi_protocol_engine.cc:26-701 | in every run each set's ranks replay the ways used by requests that hit and by data beats |
| EngineRecency.GoneOnlyAfterAllOthers | cache_model/src/chi_protocol_engine.cc:26-701 | in every run, a line that a read or CleanUnique found, or that a beat filled, is gone only after an eviction of it or after every other way of its set has been used since |
| Outcomes.ServedLeaves | cache_model/src/chi_protocol_engine.cc:102-112 | a hit served at once: the line, sharers and answer per opcode |
| Outcomes.CleaningLeaves | cache_model/src/chi_protocol_engine.cc:361-379 | CleanUnique on UD sends the data to memory, leaves UC and answers |
| Outcomes.CompletionLeaves | cache_model/src/chi_protocol_engine.cc:674-701 | after the last snoop the line is in its target state with the requester as sole sharer (none for ReadOnce) |
| Outcomes.MemDataLeaves | cache_model/src/chi_protocol_engine.cc:571-605 | memory data lands in the target state, adds the requester (not for ReadOnce) and answers |
| Outcomes.WriteDataLeaves | cache_model/src/chi_protocol_engine.cc:557-566 | write data lands as UD and adds its sender |
| Outcomes.ActionsAreAddressed | cache_model/src/chi_protocol_engine.cc:12-701 | every message is about the transaction's address and goes to its requester, to another node under a snoop id, or to memory under a memory id |
| Conservation.RequestBalancedIff | cache_model/src/chi_protocol_engine.cc:26-506 | a request is booked as owed or answered exactly when it overwrites no entry that still owes an answer |
| Conservation.StepBalanced | cache_model/src/chi_protocol_engine.cc:26-701 | in one step what was owed and asked is what is answered and still owed |
| Conservation.RunConserves | cache_model/src/chi_protocol_engine.cc:26-701 | over any run the accepted requests are, as a multiset of node and id, the answers sent plus those pending |
| LostRequests.LostStaysLost | cache_model/src/chi_protocol_engine.cc:26-701 | a request without an entry is answered by no step but one that asks it, whatever the tables |
| LostRequests.OverwrittenIsNeverAnswered | cache_model/src/chi_protocol_engine.cc:26-701 | over any run, a request whose entry another one overwrote is never answered unless asked anew |
| LostRequests.AnOverwrite | cache_model/src/chi_protocol_engine.cc:451 | an input for which this happens and the books do not balance |
| SnoopBarrier.CountdownIsExact | cache_model/src/chi_protocol_engine.cc:518-540 | the countdown is the snoops sent less the distinct ones answered, and the beat countdown never exceeds it |
| SnoopBarrier.NetNextKeepsSound | cache_model/src/chi_protocol_engine.cc:512-701 | every message keeps all countdowns exact |
| SnoopBarrier.CompletesIffLastSilentNode | cache_model/src/chi_protocol_engine.cc:534-538 | an answer completes its transaction exactly when it is the first of the last silent node |
| SnoopBarrier.RunSound | cache_model/src/chi_protocol_engine.cc:518-630 | countdowns are exact in every reachable state |
| Drain.DeliveryLowersOutstanding | cache_model/src/chi_protocol_engine.cc:512-701 | an awaited delivery lowers the outstanding work by one, any other leaves it |
| Drain.DrainedIsEmpty | cache_model/src/chi_protocol_engine.cc:598-672 | with nothing outstanding all four tables are empty |
| Drain.SomethingIsAwaited | cache_model/src/chi_protocol_engine.cc:512-654 | while work is outstanding some awaited delivery is possible |
| Drain.DrainsInExactlyOutstandingSteps | cache_model/src/chi_protocol_engine.cc:512-701 | after exactly that many awaited deliveries, in any order, every table is empty |
| Drain.OnlyDataReleases | cache_model/src/chi_protocol_engine.cc:624-628 | a transaction that still needs a data beat is completed by nothing but data for its own snoops |
| Drain.StarvesWithoutData | cache_model/src/chi_protocol_engine.cc:624-628 | so without such data it waits through any run |
| Directory.NextKeepsDirectory | cache_model/src/chi_protocol_engine.cc:103-701 | one orderly step keeps the directory invariant, evictions and victims included |
| Directory.RunKeepsDirectory | cache_model/src/chi_protocol_engine.cc:103-701 | in every run a line with no transaction in flight has at most one sharer unless it is SC |
| Directory.EmptyDirectoryOk | cache_model/include/chi_protocol_engine.hh:76-90 | an empty cache with empty tables satisfies the directory invariant |
| Directory.WriteDataInOrderIff | cache_model/src/chi_protocol_engine.cc:562-563 | absorbed write data keeps the line in order exactly when nobody else shared it |
| WorkingSet.FreeWayForAbsentLine | cache_model/src/l2_cache.cc:107-110 | by pigeonhole, an absent line of a fitting working set finds a free way |
| WorkingSet.StepLosesNothing | cache_model/src/chi_protocol_engine.cc:26-701 | no assertion fires, no other line changes, answers and memory writes carry the resident line's data and state |
| WorkingSet.RunLosesNothing | cache_model/src/chi_protocol_engine.cc:123-124 | the same for every step of every run that fits, and lines under snoop stay resident |
| LineFrames.StepKeepsSlice | cache_model/src/chi_protocol_engine.cc:26-701 | a step on one line leaves entries, snoops and marks of every other line alone and revives no id |
| Diamond.AnswerIsEdit | cache_model/src/chi_protocol_engine.cc:512-701 | a delivery edits only what belongs to its own transaction |
| Diamond.AnswersCommute | cache_model/src/chi_protocol_engine.cc:512-701 | answers for two transactions in either order give equal tables, equal lines and the same actions |
| AnyOrder.AnswersInAnyOrder | cache_model/src/chi_protocol_engine.cc:512-701 | any number of answers to distinct transactions, delivered in any order, leaves the same tables and lines |
| AnyOrder.EachActsAsAlone | cache_model/src/chi_protocol_engine.cc:512-701 | and each of them sends what it would have sent as the first |
| LateBeats.LateBeatIgnoredIff | cache_model/src/chi_protocol_engine.cc:545-575 | a beat after completion is ignored exactly when no write of its address waits |
| LateBeats.AnsweredIdsAreDead | cache_model/src/chi_protocol_engine.cc:667-701 | once a transaction is answered all ids it asked under are dead |
| LateBeats.LateBeatsInRuns | cache_model/src/chi_protocol_engine.cc:512-575 | dead ids stay dead in every run, so late beats are ignored under the same condition for ever |
| LateBeats.LateBeatOverwrites | cache_model/src/chi_protocol_engine.cc:545-567 | an input for which a late beat replaces write data |
| ExtraBeats.NextAlike | cache_model/src/chi_protocol_engine.cc:512-701 | under every message, states that differ in the beat countdowns and line contents of waiting transactions act alike, and each difference ends with its transaction |
| ExtraBeats.RepeatChangesLittle | cache_model/src/chi_protocol_engine.cc:520-538 | a repeated beat, whatever its data, sends nothing, lowers one countdown and fills its line; it leaves the lines alone exactly when the line held that data |
| ExtraBeats.ExtraBeatsAreInvisible | cache_model/src/chi_protocol_engine.cc:512-701 | with any number of repeated and late beats anywhere, a run sends the same actions; tables differ only in the countdowns of transactions in flight that saw a repeat and are equal once these are answered; lines differ only where a repeat brought other data |
| ExtraBeats.IdenticalBeats | cache_model/src/chi_protocol_engine.cc:520-605 | of any number of identical beats, for a snoop or from memory, the first does the work and the others do nothing but lower the countdown of a transaction that still waits |
| RepeatedSnoops.OrderlyRunsNeverRepeat | cache_model/src/chi_protocol_engine.cc:518-540 | in orderly runs no beat ever repeats an answered snoop of a waiting transaction |
| RepeatedSnoops.CoherentWaitersAreUnmarked | cache_model/src/chi_protocol_engine.cc:518-540 | nor does one in a coherent world: who still owes data has no answered snoop |
| RepeatedSnoops.ARunThatRepeats | cache_model/src/chi_protocol_engine.cc:562-563 | a run from an empty cache in which, after a write by a second sharer, a beat can repeat |
| Coherence.AskStaysCoherent | cache_model/src/chi_protocol_engine.cc:26-456 | a read or write-back request keeps its line coherent |
| Coherence.DeliveryStaysCoherent | cache_model/src/chi_protocol_engine.cc:512-701 | every beat or response, late ones included, keeps its line coherent |
| Coherence.StaysSafe | cache_model/src/chi_protocol_engine.cc:26-701 | every event of nodes, memory and engine keeps every line coherent |
| Coherence.AnswersAreLatest | cache_model/src/chi_protocol_engine.cc:107-112 | every CompData carries the value last written to its line |
| Coherence.RunIsCoherent | cache_model/src/chi_protocol_engine.cc:26-701 | in every run each line has one writer and no other holder or only readers, and every copy and every CompData is the value last written |
| Progress.SettlesIffWork | cache_model/src/chi_protocol_engine.cc:512-654 | in every coherent world a settling event on a line is possible exactly while something about it is on its way or owed |
| Progress.SettlingLowersWork | cache_model/src/chi_protocol_engine.cc:512-654 | every settling event leaves less of that |
| Progress.NoWorkIsIdleOrStuck | cache_model/src/chi_protocol_engine.cc:624-628 | with nothing left the line is idle, or its data snoop was answered without data, never both |
| Progress.LineSettles | cache_model/src/chi_protocol_engine.cc:512-654 | in any run in which nothing new starts on a line, at most as many settling events concern it as there was work at first, and when no more is possible it is idle or stuck in that way |
| Progress.IdleLineTakesRequests | cache_model/src/chi_protocol_engine.cc:26-40 | an idle line accepts the next request, a read even while further beats are on their way |
| Progress.FreshWorldExists | cache_model/include/chi_protocol_engine.hh:76-90 | for every size of the cache and every memory whose lines fit, the empty cache is a start of the coherence theorem |
| Starvation.StuckIsStarving | cache_model/src/chi_protocol_engine.cc:624-628 | a line that is stuck in this way is starving |
| Starvation.WriteBackLeaves | cache_model/src/chi_protocol_engine.cc:562-565 | a write-back leaves a dirty line whose one sharer holds nothing |
| Starvation.ReadAfterWriteBackStarves | cache_model/src/chi_protocol_engine.cc:72-97 | the next read is never answered, in any continuation, exactly when it comes from another node than the writer |
| StarvingRun.ARunThatStarves | cache_model/src/chi_protocol_engine.cc:562-565 | a run from an empty cache that ends in a read nobody will answer |
| SharingRun.ARunThatShares | cache_model/src/chi_protocol_engine.cc:71-97 | a run from an empty cache in which node 1 reads what node 0 wrote, while memory holds the old value |

## Left out

- The gem5 adapter (message classes, beats, destinations, retry queue): an action list becomes messages on their way.
- Logging, statistics counters and the string forms of states and opcodes.
- Request fields the engine never reads (size, data, return id, response status) and the status argument of responses.
- The contents of dirty victims when the working set does not fit: the code overwrites them; `LookupPredictsFill` says when.
- CleanUnique, Evict and the other write opcodes in `Coherence`: CleanUnique leaves a UC line that later reads are served from without a snoop, Evict drops a line with all its sharers, WriteUniqueFull sends no snoop. They are covered by every other module.
- SnpShared, which the code declares and never sends.
- Requests in transit: a request is taken up when it reaches the engine, so `Coherence` evaluates the node's copy at that moment.
- AddressMap.MakeAddr: takes tags of 64-bit addresses only; a larger tag would lose its high bits in the shift, and no caller has one.
- L2Caches.L2Cache.constructor: takes up to 2^24 sets, so that the set index shifted by six stays a positive 32-bit int as in the code.
- Drain.StarvesWithoutData: states that the transaction stays pending, not how long a node may take to answer.
- Retry and credit flow control, DMT, DCT, atomics, DVM and timing, none of which are in the code.
