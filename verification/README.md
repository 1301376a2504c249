# A verified model of the snooping cache simulator

The simulator replays a trace of reads and writes on N private caches that share one atomic bus, under
MSI, MESI, Dragon or MOESI. This project models it twice. As values: a cache, the bus and the whole
simulator are datatypes, and every method of the program is a function on them (`CacheModel.dfy`,
`SystemModel.dfy`; one `Step` is one iteration of the main loop). As objects: the classes of the program
with their fields, loops and updates in place (`CacheSet.dfy`, `BusRequest.dfy`, `Cache.dfy`,
`AtomicBusManager.dfy`, `CacheController.dfy`), each method proved to do to its object what the function
does to the value. The theorems are about the values; `MainLoop.Controller.Run` carries them to the objects.

The theorems rest on one refinement. Seen from one block of memory, the simulator is a small state machine:
a column of states, one per cache, and the bus transaction about the block, if one is pending
(`Coherence.dfy`). `Refinement.StepRefines` proves that every iteration of the main loop, with its queues,
clocks, sets and replacement, is one enabled event of that machine, for every block at once. Coherence is
then proved about columns and holds of every run. What the simulator does not keep, the contents of a block,
is added to that machine in `Freshness.dfy`: the writes to a block are numbered, and every copy, main memory
and what is on its way over the bus remember which writes they reflect. Contents move where the program
counts a flush or a reply; a fill gets what the answering cache or memory has; an evicted line is dropped.

The other view is that of whole jobs. Between two jobs the simulator rests, and however many iterations a job
takes, it is one step (`Serving.ServeJob`). What that step does to every cache is written down as a table over
the states before it, without the operations of the program, and proved for every job of every run, in all
protocols: the states (`JobResults.JobIsSatisfied`), all counters (`Counts.CountsOverJob`), the lines of every
set with their last uses (`LastUse.LinesOverJob`) and the rest of a cache (`LastUse.ServiceOverJob`).
`Transactions.dfy` follows the caches through a job to get there. From the table it follows what the printed
numbers are for a whole trace (`Counts.CountsOfTrace`) and that replacement is least recently used
(`Recency.LeastRecentlyUsed`).

What the proofs found about the code as it is:

* A request carries its block number in an `int`. For a block number that this cuts down, nobody hears the
  request, or it is taken for one about another block. Coherence in all runs holds for a block exactly when
  its number survives (`Limits.SupplierUniqueExactly`, `Limits.SingleWriterExactly`).
* Writes get lost. `Freshness.IntactKept` and `Runs.IntactExactly` say by exactly which events, in every
  protocol, `Runs.IntactByStates` says so in terms of the simulator's own states, and
  `Runs.IntactByHistory`, for Dragon too, in terms of the states and of the writes and flushes so far. Each
  has a run that ends with a stale copy: no set is ever full for `isFull`, because its test joins two
  disequalities by "or", so dirty lines are overwritten without a write back, in sets of any number of ways
  (`Overwriting.StaysWhileRoom`, `Overwriting.OverwrittenIsStale`); a MESI write miss that no cache answers
  leaves the new line invalid (`Staleness.MesiForgets`: two jobs, even of one processor); MOESI writes
  silently past other copies (`Limits.MoesiGoesStale`, and, without a mistaken request,
  `Limits.MoesiGoesStaleByRereading`); and requests mistaken for requests about another block drop or
  corrupt its copies (`Staleness.MistakenIsStale`, `Staleness.MistakenUpdateIsStale`).
* MOESI grants an exclusive copy while the other copies are merely shared. Single writer holds there in all
  runs only with fewer than two processors (`Limits.MoesiSingleWriterExactly`), and exactly one kind of event
  breaks it (`Limits.SingleWriterInMoesi`).
* The number of memory transactions printed for MESI subtracts transfers that it never added.
  `PrintedFigure.MesiFigure` gives it as a count of the trace's jobs and says exactly when it is below zero,
  in a variable that is unsigned; `PrintedFigure.FigureBelowZero` is a trace of three jobs on which it is -1.
* In MOESI the cost of a write is an uninitialised variable. When it is negative and exceeds the clock, the
  unsigned end of the transaction wraps and the bus is not freed for some 2^64 cycles. `Timing.MainLoopStops`
  proves that the loop stops, and within which time, exactly when no end wraps;
  `Timing.NeverWrapsExactly` says when that is, and `Timing.WriteHangs` is a trace that hangs.

Where comments and code disagree the model follows the code: the bus comment that a requesting cache
"should set the line to modified" after a MESI write is not what happens to an unanswered miss.

Two files stand apart from the simulator's runs: `Bits.dfy` has the arithmetic of masks and shifts, and
`Graph.dfy` models the second core, the construction of incoming edges in the breadth-first-search workload.

## Model

The rows that begin with "Main" are the results; the others are what they are built from.

| member | source | states |
|---|---|---|
| Constants.BuildMask | CacheConstants.cpp:98-105 | the mask loop yields 2^k - 1 for k index bits |
| Constants.CacheConstants.constructor | CacheConstants.cpp:52-108 | for every size, associativity and line size: bit counts are floor logarithms, the set count is the integer quotient, the mask fits the index bits |
| Constants.CacheConstants.DecodeAddress | Cache.cpp:127-143 | shifting and masking give the block number and its set, always a valid index |
| Constants.DecodeIsDivision | Cache.cpp:133-134 | the tag is the address divided by 2^floor(log2 lineSize), the set the block number modulo 2^k |
| Constants.DecodeIsBlockwise | Cache.cpp:127-143 | two addresses decode alike if and only if they lie in the same aligned chunk of 2^floor(log2 lineSize) bytes, which is a line only when the line size is a power of two |
| Constants.SetInRange | Cache.cpp:134 | the decoded set is an index of the set vector, also when the number of sets is no power of two |
| Requests.FitsExactly | BusRequest.cpp:15-23 | which block numbers survive being stored in an int and read as unsigned long: below 2^31, and the top 2^31 of 64 bits |
| Requests.SnoopedTagStaysInSet | Cache.cpp:1485-1498 | a cut-down block number still maps to the set that the request names |
| Requests.BusRequest.constructor | BusRequest.cpp:15-23 | the record holds its arguments, the tag and the cost narrowed to an int, the flag down |
| Sets.CacheSet.constructor | CacheSet.cpp:19-33 | every way starts invalid with tag 0 |
| Sets.CacheSet.IsFull | CacheSet.cpp:46-60 | true only of a set without ways |
| Sets.CacheSet.HasLine | CacheSet.cpp:190-200 | true if and only if some valid way bears the tag |
| Sets.CacheSet.GetLine | CacheSet.cpp:217-244 | the first way bearing the tag, valid or not, is stamped and returned |
| Sets.CacheSet.SetStateOf | CacheLine.cpp:75-78 | one way changes its state, nothing else changes |
| Sets.CacheSet.GetLRULine | CacheSet.cpp:517-542 | the first invalid way, else the first way with the least stamp; no result exactly when all ways are valid and stamped with the maximum |
| Sets.CacheSet.ReplaceLine | CacheSet.cpp:107-130 | exactly the victim is overwritten, by an invalid line with the new tag, last used now |
| Sets.HasIsState | CacheSet.cpp:190-244 | `hasLine` and `getLine` agree despite stale tags in invalid ways |
| Sets.SetStateChangesOne | Cache.cpp:292-306 | setting a state through `getLine` changes the named block and no other |
| Sets.ReplaceChangesOne | CacheSet.cpp:107-130 | a fill changes the named block, drops at most the victim's, and keeps every other block and its state |
| Sets.FillIsBoundedInsert | Cache.cpp:1630-1647 | Main: a fill is an insertion into a bounded map: with a free way just insert, else first drop a key of least stamp |
| Sets.SetStateIsMapUpdate | Cache.cpp:292-306 | a state change is a map update, or a removal when the state is invalid; a look-up only renews the stamp |
| Sets.OneBlockPerValidWay | CacheSet.cpp:19-33 | a set holds at most as many blocks as ways, and as many only if all ways are valid |
| Caches.Cache.constructor | Cache.cpp:23-43 | own sets, all empty, and a cache at rest |
| Caches.Cache.DecodeJob | Cache.cpp:127-143 | set and block of the current job |
| Caches.Cache.GetTotalMemoryCost | Cache.cpp:157-183 | the cost by protocol; the surcharge for a full set is never added |
| Caches.Cache.IsLineValid | Cache.cpp:232-246 | whether the current job's block is held |
| Caches.Cache.LineInState | Cache.cpp:260-277 | whether the block is held in the state; the look-up stamps the line and changes no state |
| Caches.Cache.SetLineState | Cache.cpp:292-306 | the held line goes to the state; an absent line stays absent |
| Caches.Cache.HandleWriteModified | Cache.cpp:319-337 | done exactly on a modified line: a hit |
| Caches.Cache.HandleWriteExclusive | Cache.cpp:353-375 | done exactly on an exclusive line: a hit, and the line becomes modified |
| Caches.Cache.HandleWriteSharedInvalid | Cache.cpp:391-418 | an ownership request at the protocol's cost; a shared line is counted, an own copy is modified at once |
| Caches.Cache.HandleWriteRequestMSI | Cache.cpp:468-481 | does to the cache what the write function does, in MSI |
| Caches.Cache.HandleWriteRequestMESI | Cache.cpp:435-451 | the same in MESI |
| Caches.Cache.HandleWriteRequestDRAGON | Cache.cpp:671-738 | the same in Dragon: updates on shared lines, a read request on a miss |
| Caches.Cache.HandleWriteRequestMOESI | Cache.cpp:739-779 | the same in MOESI: an owned line is upgraded at the cost of a hit |
| Caches.Cache.HandleReadHit | Cache.cpp:499-515 | done exactly on modified, shared, exclusive or owned lines: a hit |
| Caches.Cache.HandleReadMiss | Cache.cpp:534-555 | a read request at memory cost |
| Caches.Cache.HandleReadRequest | Cache.cpp:574-622 | does to the cache what the read function does, in MSI and MESI |
| Caches.Cache.HandleReadRequestDRAGON | Cache.cpp:793-825 | the same in Dragon |
| Caches.Cache.HandleReadRequestMOESI | Cache.cpp:826-836 | the same in MOESI |
| Caches.Cache.HandleRequest | Cache.cpp:645-840 | a free cache takes its next job; a busy one, or an empty queue, changes nothing; a job of no kind is dropped |
| Caches.Cache.UpdateCurrentJobLineCycle | Cache.cpp:1815-1835 | the cache is freed and its line stamped |
| Caches.Cache.Tick | Cache.cpp:1852-1874 | waits for the bus, or finishes a hit, and takes the next job |
| Caches.Cache.GetBusRequest | Cache.cpp:880-890 | hands out the request and starts waiting for the bus |
| Caches.Cache.HandleSnoopMSI | Cache.cpp:1158-1229 | new state, reply and counters for every snooped state and command |
| Caches.Cache.HandleSnoopMESI | Cache.cpp:1059-1142 | the same in MESI |
| Caches.Cache.HandleSnoopDRAGON | Cache.cpp:1245-1362 | the same in Dragon, and exactly holders of a block that is read raise the shared flag |
| Caches.Cache.HandleSnoopMOESI | Cache.cpp:1381-1461 | the same in MOESI |
| Caches.Cache.SnoopBusRequest | Cache.cpp:1485-1517 | only a held line is touched, the one whose tag is the request's number as read back |
| Caches.Cache.BringIn | Cache.cpp:1619-1643 | the job's line is made findable; nothing is ever evicted on purpose |
| Caches.Cache.CompleteWriteJob | Cache.cpp:1649-1707 | what a completed write does to line, counters and, in a shared Dragon write, to a second request |
| Caches.Cache.CompleteReadJob | Cache.cpp:1709-1772 | what a completed read does to line and counters |
| Caches.Cache.BusJobDone | Cache.cpp:1576-1772 | the cache is freed, its line in place and in its final state |
| BusManager.AtomicBusManager.HandleReply | AtomicBusManager.cpp:118-217 | end time (an unsigned sum), flag, costs and counters for every reply in every protocol |
| BusManager.AtomicBusManager.BroadcastOne | AtomicBusManager.cpp:112-220 | one iteration of the broadcast; the other caches are untouched, the raised flag shows in the requester |
| BusManager.AtomicBusManager.BroadcastRequest | AtomicBusManager.cpp:109-220 | all caches but the requester snoop, in order |
| BusManager.AtomicBusManager.FindRequest | AtomicBusManager.cpp:75-96 | the first cache with a request, or none |
| BusManager.AtomicBusManager.Grant | AtomicBusManager.cpp:75-226 | that cache is served and its request broadcast, the end time being the unsigned sum of clock and cost; with no request the bus rests |
| BusManager.AtomicBusManager.FinishCache | AtomicBusManager.cpp:52-68 | the served cache is told, with the flag, that its job is done |
| BusManager.AtomicBusManager.Tick | AtomicBusManager.cpp:46-227 | one tick of the bus on objects is one tick of the bus on values; a wrapped end is not due |
| MainLoop.Controller.constructor | CacheController.cpp:204-213 | the objects start in the initial state of the model and share nothing but the clock |
| MainLoop.Controller.AllFree | CacheController.cpp:85-97 | whether no cache is busy |
| MainLoop.Controller.HandOut | CacheController.cpp:228-231 | the next job of the trace goes to the processor it names, and only there |
| MainLoop.Controller.TickCaches | CacheController.cpp:237-244 | every cache ticks once |
| MainLoop.Controller.Iterate | CacheController.cpp:217-247 | an iteration on objects is a step of the model |
| MainLoop.Controller.Run | CacheController.cpp:217-247 | Main: if no transaction's end wraps, the loop terminates in the model's final state, the trace empty and nobody busy |
| MainLoop.Simulate | CacheController.cpp:109-258 | Main: from command line to statistics, for every geometry and every trace on which no transaction's end wraps: each processor has counted exactly its reads and writes, and MSI's printed memory transactions add up to the memory uses |
| Coherence.CoherenceKept | Cache.cpp:1059-1461 | Main: every event of a block keeps: one supplier, single writer outside MOESI, and what the pending transaction needs of the other caches |
| CacheLemmas.HandleWriteEffect | Cache.cpp:657-779 | a write that starts touches the state of its own block only, and either hits or asks with the command and cost of its state |
| CacheLemmas.HandleReadEffect | Cache.cpp:780-837 | a read that starts changes no state at all, and either hits or asks |
| CacheLemmas.SnoopEffect | Cache.cpp:1485-1517 | a snoop changes the state of the block heard and no other |
| CacheLemmas.BusJobDoneEffect | Cache.cpp:1576-1772 | a completion sets the job's block, drops at most the block pushed out, and asks again only after the read half of a shared Dragon write |
| BusLemmas.BroadcastHeard | AtomicBusManager.cpp:109-220 | after n replies: who has snooped, the flag, the discount and the end time, as functions of the states before |
| Refinement.StepKeepsOrder | CacheController.cpp:217-247 | the loop invariant: empty queues, at most one cache working, a bus in use for exactly that cache, sets in order |
| Refinement.StepRefines | CacheController.cpp:217-247 | Main: every iteration is, for every block, one enabled event of the block's state machine, with the same outcome |
| Runs.RunsAreOrderly | CacheController.cpp:85-97 | serialisation in every run: the exit test, which ignores the queues, loses nothing because they are empty |
| Runs.RunsAreCoherent | CacheController.cpp:217-247 | Main: after every iteration of every run every block whose number fits is coherent |
| Runs.SingleWriterInRuns | Cache.cpp:391-418 | MSI, MESI, Dragon: a modified or exclusive copy is the only valid copy |
| Runs.UniqueSupplierInRuns | Cache.cpp:1381-1461 | all protocols, any unset cost: at most one cache is modified, exclusive, owned or sharedDirty |
| Runs.SharedFlagInRuns | AtomicBusManager.cpp:186-196 | Main: MESI, Dragon: throughout a bus read the bus says "shared" if and only if another cache holds a valid copy |
| Runs.UpdatesMeetNoOwner | Cache.cpp:1324-1343 | no cache that snoops a Dragon update holds the block modified or exclusive: the two branches marked "can never happen" |
| Runs.SetsInRuns | CacheSet.cpp:166-244 | in every run: valid lines are found first, sit in the set of their block, and `getLRULine` has a result |
| Freshness.FlushesAreCounted | Cache.cpp:928-1016 | the copies that the model writes to memory on a snoop are exactly those for which the program counts a flush |
| Freshness.IntactKept | Cache.cpp:1059-1461 | Main: all protocols: as long as no write has been lost, an event leaves every valid copy, and what the next reader gets, at the last write if and only if it is not the eviction of the one dirty copy newer than memory, a mistaken ownership request that meets one (MOESI) or a mistaken update that meets a shared copy (Dragon), a silent write past other copies, or the completion of an unanswered MESI write miss |
| Freshness.UnsavedKept | Cache.cpp:1001-1016 | all protocols, even after losses: a modified or owned copy is newer than memory |
| Freshness.EvictionLoses | CacheSet.cpp:107-130 | evicting a modified or owned copy always loses a write, and outside Dragon no other eviction does |
| Freshness.LossIsDrop | Cache.cpp:1619-1643 | MSI, MESI, MOESI: which events lose a write is decided by the states alone |
| Freshness.ExclusiveBesideShared | Cache.cpp:1711-1726 | MOESI: a read miss keeps single writer if and only if nobody has the block or somebody is modified, exclusive or owned |
| Runs.IntactExactly | CacheController.cpp:217-247 | Main: all protocols, every run, up to every iteration: every valid copy has always been at the last write, and so would have been what the next reader got, if and only if no iteration has lost a write |
| Runs.IntactByStates | CacheController.cpp:217-247 | Main: MSI, MESI, MOESI: the same in terms of the states of the simulator only |
| Freshness.HistoryIsRight | Cache.cpp:928-1016 | all protocols: as long as no write is lost, memory is behind after an event if and only if the event writes the block, or memory was behind and the event flushes no copy |
| Runs.IntactByHistory | CacheController.cpp:217-247 | Main: all protocols, Dragon among them: the same in terms of the states and of the history of writes and flushes |
| Runs.RunsAreFresh | Cache.cpp:319-418 | in every run of every protocol, no copy is stale as long as no write has been lost |
| Staleness.MesiForgets | Cache.cpp:1684-1691 | Main: MESI: a write by any processor and a read by any processor, of any block, end with a stale copy |
| Staleness.MistakenIsStale | Cache.cpp:1434-1443 | Main: MOESI, any geometry: a write to a block whose requests are taken for requests about a written one invalidates the only copy; any reader then gets a stale one |
| Staleness.MistakenUpdateIsStale | Cache.cpp:1345-1352 | Main: Dragon, any geometry: a copy takes over the update of a block whose requests are taken for requests about it |
| Overwriting.RivalsExist | CacheConstants.cpp:52-108 | as many other blocks of any set as it has ways exist, and their numbers survive a request, unless sets of one more way make over 2^31 lines |
| Overwriting.StaysWhileRoom | CacheSet.cpp:107-130 | all protocols, any number of ways: a block read and written by a cache that then reads other blocks of the set one by one is held until as many have been read as there are ways, and no longer |
| Overwriting.OverwrittenIsStale | CacheSet.cpp:107-130 | Main: all protocols, any number of ways: after a write, and reads of as many other blocks of its set as there are ways, any reader of the written block gets a stale copy |
| Timing.SurchargeIsPenalty | AtomicBusManager.cpp:112-220 | the charges added reply by reply, as unsigned sums, come to at most one flush or one discount, never both |
| Timing.DispatchLength | AtomicBusManager.cpp:105-185 | Main: the exact end of the transaction a job starts with, from the states before it |
| Timing.OccupancyInRuns | AtomicBusManager.cpp:105-220 | bus lengths in every run: 90 or 180 (MSI), 60, 90, 150 and 30, 60, 120 (MESI), 2 or 60 (Dragon); the end lies after the start and in the future |
| Timing.CyclesArePaid | CacheController.cpp:217-247 | every iteration of a running loop is one cycle and, as long as no end has wrapped, uses up budget |
| Timing.MainLoopStops | CacheController.cpp:217-247 | Main: the loop stops within 181n cycles for n jobs (MSI), 151n (MESI), 63n (Dragon), 2^31 n (MOESI) if and only if no transaction's end wraps; otherwise not in 2^63 iterations |
| Timing.NeverWrapsExactly | AtomicBusManager.cpp:105-106 | Main: no end wraps if and only if no job is handed out whose cost, less a discount, is negative and exceeds the clock |
| Timing.SomeCostsNeverWrap | Cache.cpp:157-183 | none does in MSI, MESI and Dragon, nor in MOESI with costs of at least 30 |
| Timing.WrappedHangs | AtomicBusManager.cpp:49-73 | a wrapped transaction keeps the bus unchanged, and the loop running, for 2^63 iterations |
| Timing.WriteHangs | Cache.cpp:157-183 | MOESI: one write suffices, when the unset cost is below -1 |
| Serving.ServeJob | CacheController.cpp:217-247 | Main: a job is atomic: its block goes from the column before to the column a function of it gives, in a number of cycles known beforehand, in all protocols |
| JobResults.ReadOutcome | Cache.cpp:1709-1772 | a read hit changes nothing; a read miss leaves the reader with a valid copy, exclusive if and only if nobody else has one (MESI, Dragon) or nobody supplies one (MOESI), turns a modified copy into a shared (MSI, MESI), sharedDirty (Dragon) or owned one (MOESI) and an exclusive one into a shared or sharedClean one, and leaves all others as they are |
| JobResults.WriteOutcome | Cache.cpp:1649-1707 | a silent write changes the writer's state only; one over the bus leaves the writer modified and nobody else a copy, except that MESI forgets an unanswered miss and Dragon leaves a shared line sharedDirty and every other copy clean |
| JobResults.JobIsSatisfied | CacheController.cpp:217-247 | Main: exactly so in every run, in all caches, for the next job of any resting state |
| JobResults.TraceIsServed | CacheController.cpp:217-247 | Main: the jobs are served one at a time in the order of the trace, each by the processor it names and in its own cycles; the loop stops at the last |
| Transactions.OnceIs | AtomicBusManager.cpp:43-99 | all protocols: what every cache is when a job that takes one transaction has been served, as an equation |
| Transactions.TwiceIs | Cache.cpp:1663-1676 | the same for the Dragon write miss that is followed by an update |
| Transactions.HitIs | Cache.cpp:1852-1876 | the same for a hit |
| Counts.SnoopsAreCounted | Cache.cpp:928-1461 | a snoop counts an invalidation if and only if it takes a copy away (MSI, MESI), an intervention if and only if it makes a writable copy a shared one (MSI, MESI, Dragon), a transfer if and only if it meets a supplier (MOESI) |
| Counts.JobAdds | Cache.cpp:319-1796 | all protocols: over the next job of any resting state, all eighteen counters of every cache move exactly as a table says, by the states before the job: the reader or writer by how it and the others hold the block, each other cache by how it holds the block the bus names |
| Counts.CountsOverJob | CacheController.cpp:217-247 | Main: so it is for every job of every trace |
| Counts.CountsOfTrace | Cache.cpp:1890-1920 | Main: all protocols: when the loop stops, every counter of every cache is the sum of what the jobs of the trace, one by one, count for that cache |
| Counts.OwnershipIsWrittenBack | AtomicBusManager.cpp:143-168 | MESI: over any job the BusRdX counted by all caches grow by as much as their write backs |
| Counts.PrintedOwnership | Cache.cpp:1912-1918 | Main: MESI, any trace: the BusRdX printed for all caches are as many as the write backs |
| Counts.DragonRequests | Cache.cpp:796-835 | Dragon: up to every job, the bus requests of every cache are its read misses, its write misses and its updates |
| LastUse.LinesOverJob | CacheSet.cpp:107-238 | Main: all protocols: over the next job of any resting state, the lines of every set of every cache, with states and last uses: the block of the job is last used when the job ends, and if it was absent comes in for a least recently used one if the set was full; a block snooped is used when it is heard of, the block of a cache's last job as long as the cache rests, and nothing else is touched |
| LastUse.ServiceOverJob | Cache.cpp:1852-1876 | all protocols: and the job, start and cost that every cache is left with, which decide from when on it uses its last block again |
| Recency.NewestAfterJob | Cache.cpp:1815-1838 | all protocols, every run: after a read or a write the block, if it is there, was last used in the cycle in which the job ended, and the others of its set before |
| Recency.OthersUnmoved | Cache.cpp:1490-1520 | all protocols, every run: in the other caches a job changes no block but the one its request names |
| Recency.LeastRecentlyUsed | CacheSet.cpp:107-238 | Main: all protocols, any number of ways, any trace in which nobody disputes a processor's blocks: after every job its cache holds a block if and only if it has used it and since then fewer other blocks of the set than there are ways |
| Recency.ReadMissesOfTrace | Cache.cpp:1908-1909 | Main: MSI, MESI, Dragon: so the read misses printed for it are the reads in the trace of blocks not used before, or not within as many others of their set as there are ways |
| Limits.SupplierUniqueExactly | BusRequest.cpp:15-23 | Main: all protocols: one supplier in all runs if and only if the block's number survives the request |
| Limits.SingleWriterExactly | BusRequest.cpp:15-23 | Main: MSI, MESI, Dragon: single writer in all runs if and only if it does |
| Limits.MoesiSingleWriterExactly | Cache.cpp:1711-1726 | Main: MOESI: single writer in all runs if and only if there are fewer than two processors |
| Limits.SingleWriterInMoesi | Cache.cpp:1711-1726 | MOESI: an event breaks single writer if and only if it completes a read that nobody supplied while others hold the block |
| Limits.MoesiGoesStale | Cache.cpp:1403-1409 | Main: MOESI, two caches, any block: three reads and a silent write leave a stale copy |
| Limits.MoesiGoesStaleByRereading | Cache.cpp:1403-1409 | Main: MOESI, two caches, only blocks whose numbers survive: a cache that has lost its shared line to other reads and reads it again is granted it exclusively beside the other's copy, and its silent write leaves that copy stale |
| Accounting.HitsAndMissesAddUp | Cache.cpp:1890-1901 | Main: MSI, MESI, every reachable state: jobs are hits plus misses, hits add up, bus requests are misses plus upgrades, transfers are at most the requests |
| Accounting.FlushesAndUpgradesAddUp | Cache.cpp:1001-1016 | MSI: write backs equal flushes, ownership requests equal write misses plus shared writes |
| Accounting.MemoryTrafficConserved | Cache.cpp:1897-1898 | Main: MSI: with the bus free, the printed memory transactions of all caches add up to the memory uses counted one by one |
| Accounting.PrintedTrafficIsCounted | Cache.cpp:1897-1898 | in particular when the loop has stopped |
| PrintedFigure.FigureOverJob | AtomicBusManager.cpp:143-184 | MESI: over one job the figure of every cache moves by +1 for its unanswered miss, -1 for its answered write to a shared line, +1 for its copy written back for another cache's write, and not otherwise |
| PrintedFigure.MesiFigure | Cache.cpp:1899-1901 | Main: MESI, every trace: the printed figure is the number of those misses and write backs less the number of those writes, and below zero if and only if the latter outnumber the former |
| PrintedFigure.AnsweredIfHeld | AtomicBusManager.cpp:169-179 | MESI: the bus tells the requester that it was answered if and only if another cache holds the block |
| PrintedFigure.FigureBelowZero | Cache.cpp:1899-1901 | Main: MESI: two caches read a block and the second writes it; its figure is -1 |
| Accounting.EveryJobIsCounted | CacheController.cpp:228-231 | Main: all protocols: at the end each processor has counted exactly the reads and writes the trace has for it |
| Graphs.Graph.constructor | programs/bfs/graph.cpp:12-30 | starts and edges are the two parts of the file's numbers |
| Graphs.Graph.CountIncoming | programs/bfs/graph.cpp:46-57 | the counts are the numbers of edges into each node, and add up to all edges |
| Graphs.Graph.StartIncoming | programs/bfs/graph.cpp:61-66 | the starts are the prefix sums of the counts |
| Graphs.Graph.ScatterIncoming | programs/bfs/graph.cpp:72-82 | every segment is filled with the sources of its node's edges, in order; all indices stay in bounds |
| Graphs.NextSlot | programs/bfs/graph.cpp:76-80 | the slot written next is none that has been written |
| Graphs.Graph.BuildIncomingEdges | programs/bfs/graph.cpp:34-117 | Main: the incoming arrays are a well-formed graph, the transpose of the outgoing one |
| Graphs.IncomingCounts | programs/bfs/graph.cpp:84-113 | each node occurs among the sources of t as often as t among its targets |
| Graphs.IncomingIsSorted | programs/bfs/graph.cpp:72-82 | each incoming row is nondecreasing: the scatter is stable |
| Graphs.TransposeTwice | programs/bfs/graph.cpp:34-117 | applied twice the construction gives back every row, sorted |
| Graphs.TransposeInvolution | programs/bfs/graph.cpp:34-117 | Main: and the graph itself if and only if its rows were sorted |

## Left out

- Timing.MainLoopStops: the clock is an unbounded number, so sums that pass 2^64 are not reduced; the bounds are stated for traces within 2^63 cycles, and sums that fall below zero are exact.
- Recency.LeastRecentlyUsed: other processors may ask for blocks the processor does not use, and read the one it used last in a set; what their requests for its other blocks do to the order is in LastUse.LinesOverJob only.
- Freshness.IntactKept: contents are as fine as a block, an update that reaches a stale copy leaves it stale, and where several clean copies answer it does not matter which one is taken; Dragon's flushes reach memory, as the comment on the counter of flushes says (CacheStats.h:25). It is about blocks whose number survives a request.
- MainLoop.Simulate: the clock is an unbounded number, so traces must be short enough for 64 bits; thread ids must name existing processors, because the program indexes its vector with them unchecked.
- SystemModel.Dispatch: on values, a job for a processor that does not exist is dropped, where the program's behaviour is undefined.
- Constants.CacheConstants.constructor: the floating-point logarithm is the integer floor logarithm; the setters, which the simulator never calls, are not modelled.
- Sets.CacheSet.IsFull: sets are built with all their ways and never shrink, so the test for a missing way is not modelled; the eviction code it guards (`evictLRULine`, `evictLineModified`, `evictLineShared`, the doubled cost, `numEvict`) is never reached.
- Graphs.Graph.BuildIncomingEdges: one function of the program, three methods here; a graph without nodes, for which the program writes out of bounds, is excluded.
- Lines are values in their set, not objects of their own; raw address, set index and the unused shared flag of a line, and `addLine`, `evictLine` and the other unused operations of a set, are not modelled.
- The statistics record is a value held by its cache; the miss rate, a float, and the text of the statistics are not modelled.
- Accounting.HitsAndMissesAddUp: the program counts no read hits in Dragon and no read misses in MOESI, so that hits and misses do not add up there; what it does count in these protocols is in Counts.JobAdds.
- Reading the trace and the graph files, the arguments of the command line as text, printing, memory management.
- `programs/bfs/bfs.cpp`, `programs/quicksort.cpp` and the other workloads, `CacheManager.*` and everything under `pin/`.
