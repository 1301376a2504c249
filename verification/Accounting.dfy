/** The statistics: the counters the program keeps agree with each other, with the traffic on the bus
    and with the trace. */
module Accounting {
  import opened Wrappers
  import opened Constants
  import opened Requests
  import opened Sets
  import opened CacheModel
  import opened Coherence
  import opened CacheLemmas
  import opened SystemModel
  import opened BusLemmas
  import opened Refinement
  import opened Runs

  /** The counters the equations are about; those that mean nothing in a protocol read 0. */
  datatype Ledger = Ledger(jobsRead: int, jobsWritten: int, readHits: int, readMisses: int, writeHits: int,
                           writeMisses: int, writeShared: int, hits: int, busRequests: int, cacheShare: int,
                           busReadX: int, unflushed: int)

  predicate Invalidating(protocol: Protocol) {
    protocol == MSI || protocol == MESI
  }

  /** `unflushed` is what write backs and flushes differ by. */
  function LedgerOf(protocol: Protocol, s: Stats): Ledger {
    if Invalidating(protocol) then
      Ledger(s.numReads, s.numWrites, s.numReadHits, s.numReadMisses, s.numWriteHits, s.numWriteMisses,
             s.numWriteShared, s.numHit, s.numBusRequests, s.numCacheShare,
             if protocol == MSI then s.numBusReadX else 0, if protocol == MSI then s.numWriteBacks - s.numFlush else 0)
    else
      Ledger(s.numReads, s.numWrites, 0, 0, 0, 0, 0, 0, 0, 0, 0, 0)
  }

  /** What a cache books for a write, or a read, of a block it holds as `own`. */
  function BookWrite(protocol: Protocol, own: State, l: Ledger): Ledger {
    if !Invalidating(protocol) then l
    else if WritesSilently(own) then l.(writeHits := l.writeHits + 1, hits := l.hits + 1)
    else if own == Shared then l.(writeHits := l.writeHits + 1, writeShared := l.writeShared + 1)
    else l
  }

  function BookRead(protocol: Protocol, own: State, l: Ledger): Ledger {
    if !Invalidating(protocol) then l
    else if own != Invalid then l.(readHits := l.readHits + 1, hits := l.hits + 1)
    else l.(readMisses := l.readMisses + 1)
  }

  function Took(protocol: Protocol, job: Job, own: State, l: Ledger): Ledger {
    if IsWrite(job) then BookWrite(protocol, own, l.(jobsWritten := l.jobsWritten + 1))
    else if IsRead(job) then BookRead(protocol, own, l.(jobsRead := l.jobsRead + 1))
    else l
  }

  /** When it is granted the bus. */
  function Asked(protocol: Protocol, l: Ledger): Ledger {
    if Invalidating(protocol) then l.(busRequests := l.busRequests + 1) else l
  }

  /** When its transaction is over. */
  function Finished(protocol: Protocol, job: Job, absent: bool, isShared: bool, command: Command, l: Ledger): Ledger {
    if !Invalidating(protocol) then l
    else
      l.(writeMisses := l.writeMisses + if IsWrite(job) && absent then 1 else 0,
         cacheShare := l.cacheShare + if protocol == MESI && isShared then 1 else 0,
         busReadX := l.busReadX + if protocol == MSI && command == BusRdX then 1 else 0)
  }

  /** Memory uses that neither a request nor a write back accounts for. */
  function Traffic(s: Stats): int {
    s.numMainMemoryUses - s.numWriteBacks - s.numBusRequests
  }

  function Total(caches: seq<CacheState>, counter: Stats -> int): int {
    if |caches| == 0 then 0 else Total(caches[..|caches| - 1], counter) + counter(caches[|caches| - 1].stats)
  }

  lemma {:induction false} TotalUpdate(caches: seq<CacheState>, counter: Stats -> int, i: nat, c: CacheState)
    requires i < |caches|
    ensures Total(caches[i := c], counter) == Total(caches, counter) - counter(caches[i].stats) + counter(c.stats)
  {
    var n := |caches| - 1;
    if i == n {
      assert caches[i := c][..n] == caches[..n];
    } else {
      TotalUpdate(caches[..n], counter, i, c);
      assert caches[i := c][..n] == caches[..n][i := c];
    }
  }

  lemma {:induction false} TotalSame(caches: seq<CacheState>, caches': seq<CacheState>, counter: Stats -> int)
    requires |caches'| == |caches|
             && forall i | 0 <= i < |caches| :: counter(caches'[i].stats) == counter(caches[i].stats)
    ensures Total(caches', counter) == Total(caches, counter)
  {
    if |caches| > 0 {
      TotalSame(caches[..|caches| - 1], caches'[..|caches| - 1], counter);
    }
  }

  // ---------------------------------------------------------------------------------------------
  // Taking a job.

  lemma WriteBooks(cfg: Config, cycle: nat, c: CacheState, address: nat)
    requires ValidConfig(cfg) && GoodSets(cfg, cycle, c.localCache)
    ensures var own := StateIn(cfg, c, BlockOf(cfg, address));
            var s' := HandleWrite(cfg, cycle, c, address).stats;
            && LedgerOf(cfg.protocol, s') == BookWrite(cfg.protocol, own, LedgerOf(cfg.protocol, c.stats))
            && Traffic(s') == Traffic(c.stats)
  {
    hide GoodSets, HasLine, SeenState, StateIn, ProbeLine, BlockOf, SetOf, ToInt, SetLineState, WriteSharedInvalid,
         WriteUpgrade, WriteExclusive, HandleWrite, HoldsSame;
    var block := BlockOf(cfg, address);
    var c1 := ProbeLine(cfg, cycle, c, block);
    HasLineIsState(cfg, cycle, c, block);
    ProbeHolds(cfg, cycle, c, block);
    HasLineIsState(cfg, cycle, c1, block);
    assert c1.stats == c.stats && StateIn(cfg, c1, block) == StateIn(cfg, c, block);
    HandleWriteIs(cfg, cycle, c, address);
    WriteSharedInvalidStats(cfg, cycle, c1, address);
    WriteUpgradeStats(cfg, cycle, c1, address);
    WriteExclusiveStats(cfg, cycle, c1, address);
  }

  lemma WriteSharedInvalidStats(cfg: Config, cycle: nat, c: CacheState, address: nat)
    ensures WriteSharedInvalid(cfg, cycle, c, address).stats
            == if SeenState(cfg, c, BlockOf(cfg, address)) == Shared
               then c.stats.(numWriteShared := c.stats.numWriteShared + 1, numWriteHits := c.stats.numWriteHits + 1)
                   else c.stats
  {
    SetStateBooks(cfg, cycle, BlockOf(cfg, address));
    hide SetLineState, SeenState, BlockOf, SetOf, ToInt;
  }

  lemma WriteExclusiveStats(cfg: Config, cycle: nat, c: CacheState, address: nat)
    ensures WriteExclusive(cfg, cycle, c, address).stats
            == CountWriteHit(c).stats.(numExclusiveToModifiedTransitions :=
                                       c.stats.numExclusiveToModifiedTransitions + 1)
  {
    SetStateBooks(cfg, cycle, BlockOf(cfg, address));
    hide SetLineState, BlockOf;
  }

  lemma WriteUpgradeStats(cfg: Config, cycle: nat, c: CacheState, address: nat)
    ensures forall state :: WriteUpgrade(cfg, cycle, c, address, state).stats == c.stats.(numHit := c.stats.numHit + 1)
  {
    SetStateBooks(cfg, cycle, BlockOf(cfg, address));
    hide SetLineState, BlockOf, SetOf, ToInt;
  }

  lemma SetStateBooks(cfg: Config, cycle: nat, block: nat)
    ensures forall c: CacheState, state: State :: SetLineState(cfg, cycle, c, block, state).stats == c.stats
  {
    hide HasLine, SetOf;
  }

  lemma ReadBooks(cfg: Config, cycle: nat, c: CacheState, address: nat)
    requires ValidConfig(cfg) && GoodSets(cfg, cycle, c.localCache)
    ensures var own := StateIn(cfg, c, BlockOf(cfg, address));
            var s' := HandleRead(cfg, cycle, c, address).stats;
            && LedgerOf(cfg.protocol, s') == BookRead(cfg.protocol, own, LedgerOf(cfg.protocol, c.stats))
            && Traffic(s') == Traffic(c.stats)
  {
    var block := BlockOf(cfg, address);
    HasLineIsState(cfg, cycle, c, block);
    ProbeHolds(cfg, cycle, c, block);
    hide GoodSets, HasLine, SeenState, StateIn, ProbeLine, BlockOf, SetOf, ToInt;
  }

  lemma JobBooks(cfg: Config, cycle: nat, c: CacheState, job: Job)
    requires ValidConfig(cfg) && GoodSets(cfg, cycle, c.localCache)
    ensures var own := StateIn(cfg, c, BlockOf(cfg, job.address));
            var s' := HandleJob(cfg, cycle, c, job).stats;
            && LedgerOf(cfg.protocol, s') == Took(cfg.protocol, job, own, LedgerOf(cfg.protocol, c.stats))
            && Traffic(s') == Traffic(c.stats)
  {
    hide GoodSets, StateIn, HandleWrite, HandleRead, BlockOf, BookWrite, BookRead;
    if IsWrite(job) {
      SameIsHolds(cfg, c, 0, CountWrite(c));
      WriteBooks(cfg, cycle, CountWrite(c), job.address);
    } else if IsRead(job) {
      SameIsHolds(cfg, c, 0, CountRead(c));
      ReadBooks(cfg, cycle, CountRead(c), job.address);
    }
  }

  lemma TickBooks(cfg: Config, cycle: nat, c: CacheState, job: Job, c': CacheState)
    requires ValidConfig(cfg) && GoodSets(cfg, cycle, c.localCache) && Quiet(c) && |c.pendingJobs| == 0
    requires c' == CacheTick(cfg, cycle + 1, c.(pendingJobs := [job]))
    ensures var own := StateIn(cfg, c, BlockOf(cfg, job.address));
            && LedgerOf(cfg.protocol, c'.stats) == Took(cfg.protocol, job, own, LedgerOf(cfg.protocol, c.stats))
            && Traffic(c'.stats) == Traffic(c.stats)
  {
    hide GoodSets, StateIn, CacheTick, Taking, HandleJob, BlockOf, Took, LedgerOf;
    var taken := Taking(cfg, cycle + 1, c, job);
    TakingRestamps(cfg, cycle, c, job);
    TakingTicks(cfg, cycle + 1, c, job);
    SameState(cfg, c, taken, BlockOf(cfg, job.address));
    JobBooks(cfg, cycle + 1, taken, job);
  }

  // ---------------------------------------------------------------------------------------------
  // The broadcast.

  ghost predicate SameBooks(protocol: Protocol, snooper: Stats, requester: Stats, e: Effect) {
    && LedgerOf(protocol, e.snooper.stats) == LedgerOf(protocol, snooper)
    && LedgerOf(protocol, e.requester.stats) == LedgerOf(protocol, requester)
    && (protocol == MSI ==>
          Traffic(e.snooper.stats) + Traffic(e.requester.stats) == Traffic(snooper) + Traffic(requester))
  }

  /** A flush is booked by the snooper, its write back by the bus at the snooper, the memory use by the
      bus at the requester. */
  lemma AnswerBooks(cfg: Config, request: Request, state: State, e: Effect, snooper: Stats)
    requires e.snooper.stats == SnoopStats(cfg.protocol, request.command, state, snooper)
    ensures SameBooks(cfg.protocol, snooper, e.requester.stats,
                      TakeReply(cfg, SnoopReply(cfg.protocol, request.command, state), request, e))
  {
    hide SnoopStats, SnoopReply, TakeReply, SameBooks;
    match cfg.protocol
    case MSI => AnswerBooksMsi(cfg, request, state, e, snooper);
    case MESI => AnswerBooksMesi(cfg, request, state, e, snooper);
    case DRAGON => AnswerBooksOther(cfg, request, SnoopReply(cfg.protocol, request.command, state), state, e, snooper);
    case MOESI => AnswerBooksOther(cfg, request, SnoopReply(cfg.protocol, request.command, state), state, e, snooper);
  }

  lemma AnswerBooksMsi(cfg: Config, request: Request, state: State, e: Effect, snooper: Stats)
    requires cfg.protocol == MSI && e.snooper.stats == SnoopStats(MSI, request.command, state, snooper)
    ensures SameBooks(MSI, snooper, e.requester.stats,
                      TakeReply(cfg, SnoopReply(MSI, request.command, state), request, e))
  {
    assert request.command == BusRd || request.command == BusRdX;
  }

  lemma AnswerBooksMesi(cfg: Config, request: Request, state: State, e: Effect, snooper: Stats)
    requires cfg.protocol == MESI && e.snooper.stats == SnoopStats(MESI, request.command, state, snooper)
    ensures SameBooks(MESI, snooper, e.requester.stats,
                      TakeReply(cfg, SnoopReply(MESI, request.command, state), request, e))
  {
    assert LedgerOf(MESI, e.snooper.stats) == LedgerOf(MESI, snooper);
    hide SnoopStats, SnoopReply;
  }

  lemma AnswerBooksOther(cfg: Config, request: Request, reply: SnoopResult, state: State, e: Effect, snooper: Stats)
    requires !Invalidating(cfg.protocol) && e.snooper.stats == SnoopStats(cfg.protocol, request.command, state, snooper)
    ensures SameBooks(cfg.protocol, snooper, e.requester.stats, TakeReply(cfg, reply, request, e))
  {
    assert LedgerOf(cfg.protocol, e.snooper.stats) == LedgerOf(cfg.protocol, snooper);
    hide SnoopStats;
  }

  lemma NoAnswerBooks(cfg: Config, request: Request, e: Effect)
    ensures SameBooks(cfg.protocol, e.snooper.stats, e.requester.stats, TakeReply(cfg, NONE, request, e))
  {
  }

  lemma ReplyBooks(cfg: Config, cycle: nat, c: CacheState, request: Request, e: Effect)
    requires e.snooper == Snoop(cfg, cycle, c, request).cache
    ensures var snooped := Snoop(cfg, cycle, c, request);
            SameBooks(cfg.protocol, c.stats, e.requester.stats, TakeReply(cfg, snooped.reply, snooped.request, e))
  {
    hide SnoopState, SnoopedWays, ToUnsignedLong, Has, StateOf, SetState, SnoopStats, SnoopReply, TakeReply, SameBooks,
         RaisesShared;
    var snooped := Snoop(cfg, cycle, c, request);
    var ways := SnoopedWays(c, request);
    if Has(ways, ToUnsignedLong(request.lineTag)) && request.lineSet < |c.localCache| {
      AnswerBooks(cfg, snooped.request, StateOf(ways, ToUnsignedLong(request.lineTag)), e, c.stats);
    } else {
      NoAnswerBooks(cfg, snooped.request, e);
    }
  }

  /** The caches' books agree, one by one and, for the memory traffic of MSI, in total. */
  ghost predicate SameLedgers(protocol: Protocol, caches: seq<CacheState>, caches': seq<CacheState>) {
    && |caches'| == |caches|
    && (forall i | 0 <= i < |caches| :: LedgerOf(protocol, caches'[i].stats) == LedgerOf(protocol, caches[i].stats))
    && (protocol == MSI ==> Total(caches', Traffic) == Total(caches, Traffic))
  }

  lemma BroadcastToBooks(cfg: Config, cycle: nat, k: nat, i: nat, b: Broadcast)
    requires k < |b.caches| && i < |b.caches|
    ensures SameLedgers(cfg.protocol, b.caches, BroadcastTo(cfg, cycle, k, i, b).caches)
  {
    hide Snoop, TakeReply, LedgerOf, Traffic;
    if i != k && b.caches[k].busRequest.Some? {
      var snooped := Snoop(cfg, cycle, b.caches[i], b.caches[k].busRequest.value);
      var requester := b.caches[k].(busRequest := Some(snooped.request));
      var e := Effect(snooped.cache, requester, b.endCycle, b.isShared, b.foundShared);
      var e' := TakeReply(cfg, snooped.reply, snooped.request, e);
      ReplyBooks(cfg, cycle, b.caches[i], b.caches[k].busRequest.value, e);
      TotalUpdate(b.caches, Traffic, i, e'.snooper);
      TotalUpdate(b.caches[i := e'.snooper], Traffic, k, e'.requester);
    }
  }

  lemma {:induction false} BroadcastBooks(cfg: Config, cycle: nat, k: nat, n: nat, b: Broadcast)
    requires k < |b.caches| && n <= |b.caches|
    ensures SameLedgers(cfg.protocol, b.caches, BroadcastUpTo(cfg, cycle, k, n, b).caches)
  {
    hide BroadcastTo, SameLedgers;
    if n == 0 {
      OwnLedgers(cfg.protocol, b.caches);
    } else {
      var b1 := BroadcastUpTo(cfg, cycle, k, n - 1, b);
      BroadcastBooks(cfg, cycle, k, n - 1, b);
      BroadcastToBooks(cfg, cycle, k, n - 1, b1);
      SameLedgersThen(cfg.protocol, b.caches, b1.caches, BroadcastTo(cfg, cycle, k, n - 1, b1).caches);
    }
  }

  lemma OwnLedgers(protocol: Protocol, caches: seq<CacheState>)
    ensures SameLedgers(protocol, caches, caches)
  {
    hide LedgerOf, Total;
  }

  lemma SameLedgersThen(protocol: Protocol, caches: seq<CacheState>, caches1: seq<CacheState>, caches2: seq<CacheState>)
    requires SameLedgers(protocol, caches, caches1) && SameLedgers(protocol, caches1, caches2)
    ensures SameLedgers(protocol, caches, caches2)
  {
    hide LedgerOf, Total;
  }

  /** Only cache k books something; MSI's total moves by `flow`. */
  ghost predicate BooksOnly(protocol: Protocol, k: int, l: Ledger, flow: int, caches: seq<CacheState>,
                            caches': seq<CacheState>) {
    && |caches'| == |caches|
    && (forall i | 0 <= i < |caches| ::
          LedgerOf(protocol, caches'[i].stats) == if i == k then l else LedgerOf(protocol, caches[i].stats))
    && (protocol == MSI ==> Total(caches', Traffic) == Total(caches, Traffic) + flow)
  }

  lemma AskedBooks(cfg: Config, cycle: nat, c: CacheState)
    ensures var s' := CountBusRequest(StartService(cycle, c)).stats;
            LedgerOf(cfg.protocol, s') == Asked(cfg.protocol, LedgerOf(cfg.protocol, c.stats))
                && Traffic(s') == Traffic(c.stats) - 1
    ensures LedgerOf(cfg.protocol, CountMemoryUse(c).stats) == LedgerOf(cfg.protocol, c.stats)
  {
  }

  lemma GrantBooks(cfg: Config, s: SystemState, k: nat)
    requires k < |s.caches| && s.caches[k].haveBusRequest
    requires forall i | 0 <= i < |s.caches| && i != k :: !s.caches[i].haveBusRequest
    ensures BooksOnly(cfg.protocol, k, Asked(cfg.protocol, LedgerOf(cfg.protocol, s.caches[k].stats)), -1, s.caches,
                      Grant(cfg, s).caches)
  {
    hide Grant, BroadcastUpTo, Total, LedgerOf, Traffic, Asked, CountBusRequest, StartService, CountMemoryUse;
    var b := GrantStart(s, k);
    var b' := BroadcastUpTo(cfg, s.cycle, k, |s.caches|, b);
    GrantIsGranted(cfg, s, k);
    BroadcastBooks(cfg, s.cycle, k, |s.caches|, b);
    AskedBooks(cfg, s.cycle, s.caches[k]);
    AskedBooks(cfg, s.cycle, b'.caches[k]);
    TotalUpdate(s.caches, Traffic, k, CountBusRequest(StartService(s.cycle, s.caches[k])));
  }

  // ---------------------------------------------------------------------------------------------
  // Completion.

  lemma DoneBooks(cfg: Config, cycle: nat, c: CacheState, job: Job, isShared: bool)
    requires c.currentJob == Some(job)
    ensures var s' := BusJobDone(cfg, cycle, c, isShared).stats;
            && LedgerOf(cfg.protocol, s')
               == Finished(cfg.protocol, job, !HasLine(cfg, c, BlockOf(cfg, job.address)),
                           isShared && (IsRead(job) || IsWrite(job)), BusRd, LedgerOf(cfg.protocol, c.stats))
            && (cfg.protocol == MSI && (IsRead(job) || IsWrite(job)) ==> Traffic(s') == Traffic(c.stats) + 1)
  {
    hide PlaceLine, HasLine, PutLine, BlockOf, SetOf, ToInt, StateIn;
    var freed := c.(haveBusRequest := false, busy := false, busRequestBeingServiced := false);
    var c1 := PlaceLine(cfg, cycle, freed, job);
    PlaceBooks(cfg, cycle, freed, job);
    SameLinesFound(cfg, c, freed, BlockOf(cfg, job.address));
    PutStats(cfg, cycle, BlockOf(cfg, job.address));
  }

  lemma PutStats(cfg: Config, cycle: nat, block: nat)
    ensures forall c: CacheState, state: State :: PutLine(cfg, cycle, c, block, state).stats == c.stats
  {
    hide SetOf, SetState;
  }

  lemma PlaceBooks(cfg: Config, cycle: nat, c: CacheState, job: Job)
    ensures var miss := !HasLine(cfg, c, BlockOf(cfg, job.address)) && IsWrite(job) && cfg.protocol != DRAGON;
            PlaceLine(cfg, cycle, c, job).stats
                == c.stats.(numWriteMisses := c.stats.numWriteMisses + if miss then 1 else 0)
  {
    hide SetOf, Replace, Touch, HasLine, BlockOf;
  }

  // ---------------------------------------------------------------------------------------------
  // One iteration.

  lemma NobodyBooks(protocol: Protocol, l: Ledger, caches: seq<CacheState>, caches': seq<CacheState>)
    requires |caches'| == |caches| && forall i | 0 <= i < |caches| :: caches'[i].stats == caches[i].stats
    ensures BooksOnly(protocol, -1, l, 0, caches, caches')
  {
    TotalSame(caches, caches', Traffic);
  }

  /** The ledger of the processor a job names; of nobody, if it does not exist. */
  ghost function LedgerAt(protocol: Protocol, caches: seq<CacheState>, k: int): Ledger {
    if 0 <= k < |caches| then LedgerOf(protocol, caches[k].stats) else Ledger(0, 0, 0, 0, 0, 0, 0, 0, 0, 0, 0, 0)
  }

  ghost function TookAt(cfg: Config, caches: seq<CacheState>, job: Job): Ledger {
    if job.threadId < |caches|
    then Took(cfg.protocol, job, StateIn(cfg, caches[job.threadId], BlockOf(cfg, job.address)),
              LedgerAt(cfg.protocol, caches, job.threadId))
    else LedgerAt(cfg.protocol, caches, job.threadId)
  }

  lemma TakerBooks(cfg: Config, s: SystemState)
    requires ValidConfig(cfg) && Orderly(cfg, s) && NoJobs(s.caches) && 0 < |s.outstanding|
    requires s.outstanding[0].threadId < |s.caches|
    ensures var job := s.outstanding[0];
            var s1 := BeforeBus(cfg, s);
            && |s1.caches| == |s.caches|
            && LedgerOf(cfg.protocol, s1.caches[job.threadId].stats) == TookAt(cfg, s.caches, job)
            && Traffic(s1.caches[job.threadId].stats) == Traffic(s.caches[job.threadId].stats)
  {
    hide Orderly, BeforeBus, CacheTick, Took, LedgerOf, Traffic, StateIn, BlockOf, GoodSets, NoJobs;
    var k := s.outstanding[0].threadId;
    TakerTicks(cfg, s);
    AtRest(cfg, s, k);
    TickBooks(cfg, s.cycle, s.caches[k], s.outstanding[0], BeforeBus(cfg, s).caches[k]);
  }

  lemma HandOutBooks(cfg: Config, s: SystemState)
    requires ValidConfig(cfg) && Orderly(cfg, s) && NoJobs(s.caches) && 0 < |s.outstanding|
    ensures var job := s.outstanding[0];
            BooksOnly(cfg.protocol, job.threadId, TookAt(cfg, s.caches, job), 0, s.caches, BeforeBus(cfg, s).caches)
  {
    hide Orderly, BeforeBus, TookAt, LedgerOf, Traffic, GoodSets, TakesJob, HoldsSame;
    var k := s.outstanding[0].threadId;
    var s1 := BeforeBus(cfg, s);
    DispatchBeforeBus(cfg, s);
    if k < |s.caches| {
      TakerBooks(cfg, s);
    }
    forall i | 0 <= i < |s.caches| && i != k
      ensures s1.caches[i].stats == s.caches[i].stats
    {
      assert QuietlyTicked(cfg, s.cycle + 1, s.caches[i], s1.caches[i]);
    }
    hide HandedOut;
    TotalSame(s.caches, s1.caches, Traffic);
  }

  lemma ServingBooks(cfg: Config, s: SystemState)
    requires ValidConfig(cfg) && Orderly(cfg, s) && !NoJobs(s.caches)
    ensures BooksOnly(cfg.protocol, -1, LedgerAt(cfg.protocol, [], 0), 0, s.caches, BeforeBus(cfg, s).caches)
  {
    ServedBeforeBus(cfg, s);
    var s1 := BeforeBus(cfg, s);
    forall i | 0 <= i < |s.caches|
      ensures s1.caches[i].stats == s.caches[i].stats
    {
      assert ServedCache(cfg, s1.cycle, s.caches[i], s1.caches[i]);
    }
    hide Orderly, BeforeBus, Served;
    NobodyBooks(cfg.protocol, LedgerAt(cfg.protocol, [], 0), s.caches, s1.caches);
  }

  ghost function FinishedAt(cfg: Config, s: SystemState): Ledger
    requires 0 <= s.bus.currentCache < |s.caches|
    requires s.caches[s.bus.currentCache].currentJob.Some? && s.caches[s.bus.currentCache].busRequest.Some?
  {
    var c := s.caches[s.bus.currentCache];
    var job := c.currentJob.value;
    Finished(cfg.protocol, job, StateIn(cfg, c, BlockOf(cfg, job.address)) == Invalid, s.bus.isShared,
             c.busRequest.value.command, LedgerOf(cfg.protocol, c.stats))
  }

  /** The cache on the bus as the completing iteration finds it. */
  lemma Finisher(cfg: Config, s: SystemState)
    requires ValidConfig(cfg) && Orderly(cfg, s) && s.bus.inUse
    ensures var k := s.bus.currentCache;
            var s1 := BeforeBus(cfg, s);
            && 0 <= k < |s.caches| && |s1.caches| == |s.caches| && s1.bus == s.bus && s1.caches[k] == s.caches[k]
            && s.caches[k].currentJob.Some? && s.caches[k].busRequest.Some?
            && GoodSets(cfg, s.cycle, s.caches[k].localCache)
            && (IsRead(s.caches[k].currentJob.value) || IsWrite(s.caches[k].currentJob.value))
  {
    CurrentHasJob(cfg, s);
    ServedBeforeBus(cfg, s);
    var k := s.bus.currentCache;
    assert s.caches[k].busRequestBeingServiced;
    assert ServedCache(cfg, BeforeBus(cfg, s).cycle, s.caches[k], BeforeBus(cfg, s).caches[k]);
    hide BeforeBus, GoodSets;
  }

  lemma FinisherBooks(cfg: Config, cycle: nat, now: nat, c: CacheState, job: Job, isShared: bool, c': CacheState)
    requires ValidConfig(cfg) && GoodSets(cfg, cycle, c.localCache)
    requires c.currentJob == Some(job) && (IsRead(job) || IsWrite(job)) && c.busRequest.Some?
    requires var started := StartService(now, c);
             c' == BusJobDone(cfg, now, if cfg.protocol == MSI && c.busRequest.value.command == BusRdX
                   then CountBusReadX(started) else started, isShared)
    ensures LedgerOf(cfg.protocol, c'.stats)
            == Finished(cfg.protocol, job, StateIn(cfg, c, BlockOf(cfg, job.address)) == Invalid, isShared,
                        c.busRequest.value.command, LedgerOf(cfg.protocol, c.stats))
    ensures cfg.protocol == MSI ==> Traffic(c'.stats) == Traffic(c.stats) + 1
  {
    hide BusJobDone, GoodSets, StateIn, HasLine, BlockOf;
    HasLineIsState(cfg, cycle, c, BlockOf(cfg, job.address));
    var started := StartService(now, c);
    var c1 := if cfg.protocol == MSI && c.busRequest.value.command == BusRdX then CountBusReadX(started) else started;
    DoneBooks(cfg, now, c1, job, isShared);
    SameLinesFound(cfg, c, c1, BlockOf(cfg, job.address));
  }

  lemma FinishBooks(cfg: Config, s: SystemState)
    requires ValidConfig(cfg) && Orderly(cfg, s) && s.bus.inUse
    requires 0 <= s.bus.currentCache < |s.caches|
    requires s.caches[s.bus.currentCache].currentJob.Some? && s.caches[s.bus.currentCache].busRequest.Some?
    ensures BooksOnly(cfg.protocol, s.bus.currentCache, FinishedAt(cfg, s), 1, s.caches,
                      FinishTransaction(cfg, BeforeBus(cfg, s)).caches)
  {
    hide Orderly, BeforeBus, BusJobDone, GoodSets, StateIn, BlockOf, LedgerOf, Finished, Traffic, Total;
    CurrentHasJob(cfg, s);
    Finisher(cfg, s);
    ServingBooks(cfg, s);
    var k := s.bus.currentCache;
    var s1 := BeforeBus(cfg, s);
    var done := FinishTransaction(cfg, s1).caches[k];
    FinisherBooks(cfg, s.cycle, s1.cycle, s.caches[k], s.caches[k].currentJob.value, s.bus.isShared, done);
    assert FinishTransaction(cfg, s1).caches == s1.caches[k := done];
    hide FinishTransaction;
    TotalUpdate(s1.caches, Traffic, k, done);
  }

  lemma SameLinesFound(cfg: Config, c: CacheState, c': CacheState, block: nat)
    requires c'.localCache == c.localCache
    ensures HasLine(cfg, c', block) == HasLine(cfg, c, block)
  {
    assert WaysOf(cfg, c', block) == WaysOf(cfg, c, block);
    hide Has, WaysOf;
  }

  // ---------------------------------------------------------------------------------------------
  // The invariant of the statistics.

  function One(b: bool): nat {
    if b then 1 else 0
  }

  /** The equations for one cache. While it waits for the bus a write has not been booked as a miss, nor,
      in MSI, its ownership request. */
  ghost predicate Balanced(protocol: Protocol, l: Ledger, waits: bool, writes: bool, misses: bool) {
    Invalidating(protocol) ==>
      && l.jobsRead == l.readHits + l.readMisses
      && l.jobsWritten == l.writeHits + l.writeMisses + One(misses)
      && l.hits + l.writeShared == l.readHits + l.writeHits
      && l.busRequests == l.readMisses + l.writeMisses + l.writeShared + One(misses)
      && l.cacheShare + One(waits) <= l.busRequests
      && (protocol == MSI ==>
            && l.busReadX + One(writes) == l.writeMisses + l.writeShared + One(misses)
            && l.unflushed == 0)
  }

  ghost predicate Waits(s: SystemState, i: nat) {
    s.bus.inUse && s.bus.currentCache == i
  }

  ghost predicate WaitsToWrite(s: SystemState, i: nat) {
    Waits(s, i) && i < |s.caches| && s.caches[i].currentJob.Some? && IsWrite(s.caches[i].currentJob.value)
  }

  ghost predicate WaitsForMiss(cfg: Config, s: SystemState, i: nat) {
    WaitsToWrite(s, i) && StateIn(cfg, s.caches[i], BlockOf(cfg, s.caches[i].currentJob.value.address)) == Invalid
  }

  ghost predicate Balances(cfg: Config, s: SystemState, i: nat)
    requires i < |s.caches|
  {
    Balanced(cfg.protocol, LedgerOf(cfg.protocol, s.caches[i].stats), Waits(s, i), WaitsToWrite(s, i),
             WaitsForMiss(cfg, s, i))
  }

  /** MSI's writes, and only they, ask for ownership. */
  ghost predicate AsksInKind(protocol: Protocol, c: CacheState) {
    protocol == MSI && c.currentJob.Some? && c.busRequest.Some? ==>
      (c.busRequest.value.command == BusRdX <==> IsWrite(c.currentJob.value))
  }

  ghost predicate Booked(cfg: Config, s: SystemState) {
    && (forall i | 0 <= i < |s.caches| :: Balances(cfg, s, i))
    && (s.bus.inUse && 0 <= s.bus.currentCache < |s.caches| ==> AsksInKind(cfg.protocol, s.caches[s.bus.currentCache]))
    && (cfg.protocol == MSI ==> Total(s.caches, Traffic) + One(s.bus.inUse) == 0)
  }

  lemma FreeJobBalances(protocol: Protocol, job: Job, own: State, l: Ledger)
    requires Balanced(protocol, l, false, false, false) && !NeedsBus(job, own) && InProtocol(protocol, own)
    ensures Balanced(protocol, Took(protocol, job, own, l), false, false, false)
  {
  }

  lemma BusJobBalances(protocol: Protocol, job: Job, own: State, l: Ledger)
    requires Balanced(protocol, l, false, false, false) && NeedsBus(job, own) && InProtocol(protocol, own)
    ensures Balanced(protocol, Asked(protocol, Took(protocol, job, own, l)), true, IsWrite(job),
                     IsWrite(job) && own == Invalid)
  {
  }

  lemma FinishBalances(protocol: Protocol, job: Job, absent: bool, isShared: bool, command: Command, l: Ledger)
    requires Balanced(protocol, l, true, IsWrite(job), IsWrite(job) && absent)
    requires protocol == MSI ==> (command == BusRdX <==> IsWrite(job))
    ensures Balanced(protocol, Finished(protocol, job, absent, isShared, command, l), false, false, false)
  {
  }

  /** s' is s after an iteration that leaves the bus to nobody. */
  lemma RestingBalances(cfg: Config, s: SystemState, s': SystemState, k: int, l: Ledger)
    requires BooksOnly(cfg.protocol, k, l, if s.bus.inUse then 1 else 0, s.caches, s'.caches)
    requires forall i | 0 <= i < |s.caches| && i != k :: Balances(cfg, s, i) && !Waits(s, i)
    requires 0 <= k < |s.caches| ==> Balanced(cfg.protocol, l, false, false, false)
    requires !s'.bus.inUse && (cfg.protocol == MSI ==> Total(s.caches, Traffic) + One(s.bus.inUse) == 0)
    ensures Booked(cfg, s')
  {
    hide Balanced, LedgerOf, StateIn, BlockOf, Total;
    forall i | 0 <= i < |s.caches|
      ensures Balances(cfg, s', i)
    {
      if i != k { assert Balances(cfg, s, i); }
    }
  }

  lemma FreeJobBooked(cfg: Config, s: SystemState)
    requires ValidConfig(cfg) && Orderly(cfg, s) && Booked(cfg, s) && NoJobs(s.caches) && 0 < |s.outstanding|
    requires !BusJob(cfg, s)
    ensures Booked(cfg, Step(cfg, s))
  {
    var job := s.outstanding[0];
    var k := job.threadId;
    var s1 := BeforeBus(cfg, s);
    hide Orderly, BeforeBus, Grant, Step, Balanced, LedgerOf, StateIn, BlockOf, Took, InProtocol, GoodSets, Total,
         HandedOut, AsksInKind;
    RestingIsQuiet(cfg, s);
    DispatchStep(cfg, s);
    HandedOutFreeJob(cfg, s, s1);
    HandOutBooks(cfg, s);
    assert s1.bus == s.bus by { HandedOutBus(cfg, s, s1); }
    if k < |s.caches| {
      AtRest(cfg, s, k);
      HasLineIsState(cfg, s.cycle, s.caches[k], BlockOf(cfg, job.address));
      assert Balances(cfg, s, k);
      FreeJobBalances(cfg.protocol, job, StateIn(cfg, s.caches[k], BlockOf(cfg, job.address)),
                      LedgerOf(cfg.protocol, s.caches[k].stats));
    }
    RestingBalances(cfg, s, s1, k, TookAt(cfg, s.caches, job));
  }

  /** The cache that has just been granted the bus for its job. */
  lemma BusJobTaken(cfg: Config, s: SystemState)
    requires ValidConfig(cfg) && Orderly(cfg, s) && NoJobs(s.caches) && 0 < |s.outstanding| && BusJob(cfg, s)
    ensures var job := s.outstanding[0];
            var k := job.threadId;
            var own := StateIn(cfg, s.caches[k], BlockOf(cfg, job.address));
            var s' := Step(cfg, s);
            && s' == Grant(cfg, BeforeBus(cfg, s)) && |s'.caches| == |s.caches| == |BeforeBus(cfg, s).caches|
               && k < |s.caches|
            && s'.bus.inUse && s'.bus.currentCache == k
            && s'.caches[k].currentJob == Some(job)
            && s'.caches[k].busRequest.Some?
               && s'.caches[k].busRequest.value.command == CommandFor(cfg.protocol, IsWrite(job), own)
            && (Invalidating(cfg.protocol) ==>
                  (StateIn(cfg, s'.caches[k], BlockOf(cfg, job.address)) == Invalid <==> own == Invalid))
            && BeforeBus(cfg, s).caches[k].haveBusRequest
            && forall i | 0 <= i < |s.caches| && i != k :: !BeforeBus(cfg, s).caches[i].haveBusRequest
  {
    hide Orderly, BeforeBus, Grant, Step, StateIn, BlockOf, GoodSets, HandedOut, AllGood, ColumnOf, EndAfter, AnyShares,
         SnoopedTag, SnoopedAs, CommandFor, SetOf, ToInt, IssueCost;
    var job := s.outstanding[0];
    var k := job.threadId;
    var t := BlockOf(cfg, job.address);
    var s1 := BeforeBus(cfg, s);
    DispatchStep(cfg, s);
    HandedOutBusJob(cfg, s, s1);
    HandedOutBus(cfg, s, s1);
    GrantEffect(cfg, s1, k);
    SameIsHolds(cfg, s1.caches[k], t, Grant(cfg, s1).caches[k]);
    DispatchedCache(cfg, s, s1, k, t);
  }

  lemma BusJobBooked(cfg: Config, s: SystemState)
    requires ValidConfig(cfg) && Orderly(cfg, s) && Booked(cfg, s) && NoJobs(s.caches) && 0 < |s.outstanding|
    requires BusJob(cfg, s)
    ensures Booked(cfg, Step(cfg, s))
  {
    var job := s.outstanding[0];
    var k := job.threadId;
    var own := StateIn(cfg, s.caches[k], BlockOf(cfg, job.address));
    var s1 := BeforeBus(cfg, s);
    assert NeedsBus(job, own);
    hide Orderly, Booked, BeforeBus, Grant, Step, Balanced, LedgerOf, StateIn, BlockOf, Took, Asked, InProtocol,
         GoodSets, Total, CommandFor, NeedsBus, BusJob;
    RestingIsQuiet(cfg, s);
    BusJobTaken(cfg, s);
    HandOutBooks(cfg, s);
    GrantBooks(cfg, s1, k);
    AtRest(cfg, s, k);
    HasLineIsState(cfg, s.cycle, s.caches[k], BlockOf(cfg, job.address));
    RestBalances(cfg, s, k);
    BusJobBalances(cfg.protocol, job, own, LedgerOf(cfg.protocol, s.caches[k].stats));
    AsksAsWriter(cfg.protocol, job, own);
    BooksTwice(cfg.protocol, k, TookAt(cfg, s.caches, job), Asked(cfg.protocol, TookAt(cfg, s.caches, job)), s.caches,
          s1.caches, Step(cfg, s).caches);
    BusyBalances(cfg, s, Step(cfg, s), k, Asked(cfg.protocol, TookAt(cfg, s.caches, job)), IsWrite(job),
                 IsWrite(job) && own == Invalid);
  }

  lemma RestBalances(cfg: Config, s: SystemState, k: nat)
    requires Booked(cfg, s) && !s.bus.inUse && k < |s.caches|
    ensures Balanced(cfg.protocol, LedgerOf(cfg.protocol, s.caches[k].stats), false, false, false)
  {
    hide Balanced, LedgerOf, StateIn, BlockOf, Total, AsksInKind;
    assert Balances(cfg, s, k);
  }

  lemma BooksTwice(protocol: Protocol, k: nat, l: Ledger, l': Ledger, caches: seq<CacheState>, caches1: seq<CacheState>,
                   caches2: seq<CacheState>)
    requires k < |caches| && BooksOnly(protocol, k, l, 0, caches, caches1)
    requires BooksOnly(protocol, k, l', -1, caches1, caches2)
    ensures BooksOnly(protocol, k, l', -1, caches, caches2)
  {
    hide LedgerOf, Total;
  }

  /** s' is s after an iteration that gives the bus to cache k. */
  lemma BusyBalances(cfg: Config, s: SystemState, s': SystemState, k: nat, l: Ledger, writes: bool, misses: bool)
    requires Booked(cfg, s) && !s.bus.inUse && k < |s.caches|
    requires BooksOnly(cfg.protocol, k, l, -1, s.caches, s'.caches)
    requires s'.bus.inUse && s'.bus.currentCache == k && Balanced(cfg.protocol, l, true, writes, misses)
    requires Invalidating(cfg.protocol) ==> WaitsToWrite(s', k) == writes && WaitsForMiss(cfg, s', k) == misses
    requires AsksInKind(cfg.protocol, s'.caches[k])
    ensures Booked(cfg, s')
  {
    hide LedgerOf, StateIn, BlockOf, Total, AsksInKind;
    forall i | 0 <= i < |s.caches|
      ensures Balances(cfg, s', i)
    {
      assert Balances(cfg, s, i);
    }
  }

  lemma AsksAsWriter(protocol: Protocol, job: Job, own: State)
    ensures protocol == MSI ==> (CommandFor(protocol, IsWrite(job), own) == BusRdX <==> IsWrite(job))
  {
  }

  lemma CompletionBooked(cfg: Config, s: SystemState)
    requires ValidConfig(cfg) && Orderly(cfg, s) && Booked(cfg, s) && s.bus.inUse && s.bus.endCycle <= s.cycle + 1
    requires Invalidating(cfg.protocol)
    ensures Booked(cfg, Step(cfg, s))
  {
    var k := s.bus.currentCache;
    var s2 := FinishTransaction(cfg, BeforeBus(cfg, s));
    hide Orderly, BeforeBus, Grant, Step, Balanced, LedgerOf, StateIn, BlockOf, Finished, GoodSets, Total,
         FinishTransaction, Over;
    CurrentHasJob(cfg, s);
    CompletionStep(cfg, s);
    OverRests(cfg, s, s2);
    FinishBooks(cfg, s);
    OverIsFree(cfg, s, s2);
    assert Balances(cfg, s, k);
    var c := s.caches[k];
    var job := c.currentJob.value;
    FinishBalances(cfg.protocol, job, StateIn(cfg, c, BlockOf(cfg, job.address)) == Invalid, s.bus.isShared,
                   c.busRequest.value.command, LedgerOf(cfg.protocol, c.stats));
    RestingBalances(cfg, s, s2, k, FinishedAt(cfg, s));
  }

  /** While a job is being served, no counter moves, and the cache on the bus does not change. */
  lemma ServedStats(cfg: Config, s: SystemState, s': SystemState)
    requires Orderly(cfg, s) && Served(cfg, s, s')
    ensures s'.bus == s.bus && s'.outstanding == s.outstanding && |s'.caches| == |s.caches|
    ensures forall i | 0 <= i < |s.caches| :: s'.caches[i].stats == s.caches[i].stats
    ensures forall i | 0 <= i < |s.caches| && Waits(s, i) :: s'.caches[i] == s.caches[i]
  {
    hide GoodSets, HoldsSame, AllGood, Requesting;
    assert forall i | 0 <= i < |s.caches| :: ServedCache(cfg, s'.cycle, s.caches[i], s'.caches[i]);
  }

  lemma WaitingBooked(cfg: Config, s: SystemState)
    requires ValidConfig(cfg) && Orderly(cfg, s) && Booked(cfg, s) && !NoJobs(s.caches)
    requires s.bus.inUse ==> s.cycle + 1 < s.bus.endCycle
    ensures Booked(cfg, Step(cfg, s))
  {
    hide Orderly, Step, Served, Balanced, LedgerOf, StateIn, BlockOf, Total, AsksInKind;
    var s' := Step(cfg, s);
    ServingStep(cfg, s);
    ServedStats(cfg, s, s');
    TotalSame(s.caches, s'.caches, Traffic);
    if s.bus.inUse { CurrentHasJob(cfg, s); }
    forall i | 0 <= i < |s.caches|
      ensures Balances(cfg, s', i)
    {
      assert Balances(cfg, s, i);
    }
  }

  lemma StepBooked(cfg: Config, s: SystemState)
    requires ValidConfig(cfg) && Orderly(cfg, s) && Booked(cfg, s) && Invalidating(cfg.protocol)
    ensures Booked(cfg, Step(cfg, s))
  {
    hide Orderly, Booked, Step, BusJob;
    if Done(s) {
      DoneStays(cfg, s);
    } else if NoJobs(s.caches) {
      if BusJob(cfg, s) {
        BusJobBooked(cfg, s);
      } else {
        FreeJobBooked(cfg, s);
      }
    } else if s.bus.inUse && s.bus.endCycle <= s.cycle + 1 {
      CompletionBooked(cfg, s);
    } else {
      WaitingBooked(cfg, s);
    }
  }

  lemma {:induction false} NothingYet(caches: seq<CacheState>)
    requires forall i | 0 <= i < |caches| :: caches[i].stats == NO_STATS
    ensures Total(caches, Traffic) == 0
  {
    if |caches| > 0 {
      NothingYet(caches[..|caches| - 1]);
    }
  }

  lemma InitiallyBooked(cfg: Config, jobs: seq<Job>)
    ensures Booked(cfg, InitialSystem(cfg, jobs))
  {
    hide EmptyWays, Total, StateIn, BlockOf;
    var s := InitialSystem(cfg, jobs);
    assert !s.bus.inUse && forall i | 0 <= i < |s.caches| :: s.caches[i].stats == NO_STATS;
    hide InitialSystem, InitialCache;
    NothingYet(s.caches);
    forall i | 0 <= i < |s.caches|
      ensures Balances(cfg, s, i)
    {
    }
  }

  lemma {:induction false} RunsAreBooked(cfg: Config, jobs: seq<Job>, n: nat)
    requires ValidConfig(cfg) && Invalidating(cfg.protocol)
    ensures Booked(cfg, After(cfg, jobs, n))
  {
    hide Orderly, Step, Booked, InitialSystem;
    if n == 0 {
      InitiallyBooked(cfg, jobs);
    } else {
      RunsAreBooked(cfg, jobs, n - 1);
      RunsAreOrderly(cfg, jobs, n - 1);
      StepBooked(cfg, After(cfg, jobs, n - 1));
    }
  }

  // ---------------------------------------------------------------------------------------------
  // What the printed statistics satisfy.

  /** A write is waiting for the bus that will turn out a miss. */
  ghost function MissInFlight(cfg: Config, s: SystemState, i: nat): nat {
    One(WaitsForMiss(cfg, s, i))
  }

  /** In every reachable state of MSI and MESI: each job of a cache is a hit or a miss, a write miss being
      counted only when it completes; hits add up; every bus request is a miss or an upgrade; the replies
      taken from other caches are at most the requests made. */
  lemma HitsAndMissesAddUp(cfg: Config, jobs: seq<Job>, n: nat, i: nat)
    requires ValidConfig(cfg) && Invalidating(cfg.protocol) && i < |After(cfg, jobs, n).caches|
    ensures var s := After(cfg, jobs, n);
            var x := s.caches[i].stats;
            && x.numReads == x.numReadHits + x.numReadMisses
            && x.numWrites == x.numWriteHits + x.numWriteMisses + MissInFlight(cfg, s, i)
            && x.numHit + x.numWriteShared == x.numReadHits + x.numWriteHits
            && x.numBusRequests == x.numReadMisses + x.numWriteMisses + x.numWriteShared + MissInFlight(cfg, s, i)
            && x.numCacheShare <= x.numReadMisses + x.numWriteMisses + x.numWriteShared
  {
    RunsAreBooked(cfg, jobs, n);
    var s := After(cfg, jobs, n);
    hide After, StateIn, BlockOf, Total;
    assert Balances(cfg, s, i);
  }

  /** In every reachable state of MSI: what is flushed is written back, and ownership is asked for exactly
      by write misses and by writes to shared lines. */
  lemma FlushesAndUpgradesAddUp(cfg: Config, jobs: seq<Job>, n: nat, i: nat)
    requires ValidConfig(cfg) && cfg.protocol == MSI && i < |After(cfg, jobs, n).caches|
    ensures var s := After(cfg, jobs, n);
            var x := s.caches[i].stats;
            && x.numWriteBacks == x.numFlush
            && x.numBusReadX + One(WaitsToWrite(s, i)) == x.numWriteMisses + x.numWriteShared + MissInFlight(cfg, s, i)
  {
    RunsAreBooked(cfg, jobs, n);
    var s := After(cfg, jobs, n);
    hide After, StateIn, BlockOf, Total;
    assert Balances(cfg, s, i);
  }

  /** The number of memory transactions that is printed for a cache in MSI. */
  function MemoryTransactions(x: Stats): int {
    x.numWriteMisses + x.numReadMisses + x.numWriteBacks + x.numWriteShared
  }

  function MemoryUses(x: Stats): int {
    x.numMainMemoryUses
  }

  lemma {:induction false} TransactionsAreRequests(caches: seq<CacheState>)
    requires forall i | 0 <= i < |caches| ::
               caches[i].stats.numBusRequests
                   == caches[i].stats.numReadMisses + caches[i].stats.numWriteMisses + caches[i].stats.numWriteShared
    ensures Total(caches, MemoryUses) - Total(caches, MemoryTransactions) == Total(caches, Traffic)
  {
    if |caches| > 0 {
      TransactionsAreRequests(caches[..|caches| - 1]);
    }
  }

  /** MSI: whenever the bus is free, in particular when the main loop stops, the memory transactions
      printed for the caches add up to the uses of main memory counted one by one on the way. */
  lemma MemoryTrafficConserved(cfg: Config, jobs: seq<Job>, n: nat)
    requires ValidConfig(cfg) && cfg.protocol == MSI && !After(cfg, jobs, n).bus.inUse
    ensures Total(After(cfg, jobs, n).caches, MemoryTransactions) == Total(After(cfg, jobs, n).caches, MemoryUses)
  {
    var s := After(cfg, jobs, n);
    RunsAreBooked(cfg, jobs, n);
    hide After, StateIn, BlockOf, Total;
    forall i | 0 <= i < |s.caches|
      ensures s.caches[i].stats.numBusRequests
              == s.caches[i].stats.numReadMisses + s.caches[i].stats.numWriteMisses + s.caches[i].stats.numWriteShared
    {
      assert Balances(cfg, s, i);
    }
    TransactionsAreRequests(s.caches);
  }

  /** In particular when the main loop has stopped and the statistics are printed. */
  lemma PrintedTrafficIsCounted(cfg: Config, jobs: seq<Job>, n: nat)
    requires ValidConfig(cfg) && cfg.protocol == MSI && Done(After(cfg, jobs, n))
    ensures Total(After(cfg, jobs, n).caches, MemoryTransactions) == Total(After(cfg, jobs, n).caches, MemoryUses)
  {
    RunsAreOrderly(cfg, jobs, n);
    hide Orderly, After;
    RestingIsQuiet(cfg, After(cfg, jobs, n));
    MemoryTrafficConserved(cfg, jobs, n);
  }

  // ---------------------------------------------------------------------------------------------
  // The statistics and the trace.

  /** How many reads, or writes, of a trace name processor i. */
  function JobsFor(jobs: seq<Job>, i: nat, rW: char): nat {
    if |jobs| == 0 then 0 else (if jobs[0].threadId == i && jobs[0].rW == rW then 1 else 0) + JobsFor(jobs[1..], i, rW)
  }

  /** Each cache has counted the reads and writes of the trace that name it and have been handed out. */
  ghost predicate Tallied(cfg: Config, jobs: seq<Job>, s: SystemState) {
    forall i | 0 <= i < |s.caches| ::
      && LedgerOf(cfg.protocol, s.caches[i].stats).jobsRead + JobsFor(s.outstanding, i, 'R') == JobsFor(jobs, i, 'R')
      && LedgerOf(cfg.protocol, s.caches[i].stats).jobsWritten + JobsFor(s.outstanding, i, 'W') == JobsFor(jobs, i, 'W')
  }

  ghost predicate SameJobs(l: Ledger, l': Ledger) {
    l'.jobsRead == l.jobsRead && l'.jobsWritten == l.jobsWritten
  }

  /** No iteration but the one that hands out a job touches the job counts. */
  lemma QuietTallied(cfg: Config, jobs: seq<Job>, s: SystemState, s': SystemState)
    requires Tallied(cfg, jobs, s) && s'.outstanding == s.outstanding && |s'.caches| == |s.caches|
    requires forall i | 0 <= i < |s.caches| ::
               SameJobs(LedgerOf(cfg.protocol, s.caches[i].stats), LedgerOf(cfg.protocol, s'.caches[i].stats))
    ensures Tallied(cfg, jobs, s')
  {
    hide LedgerOf;
  }

  lemma HandOutTallied(cfg: Config, jobs: seq<Job>, s: SystemState, s1: SystemState, s': SystemState)
    requires Tallied(cfg, jobs, s) && 0 < |s.outstanding| && s1.outstanding == s.outstanding[1..] == s'.outstanding
    requires |s.caches| == |s'.caches|
    requires BooksOnly(cfg.protocol, s.outstanding[0].threadId, TookAt(cfg, s.caches, s.outstanding[0]), 0, s.caches,
                       s1.caches)
    requires |s1.caches| == |s'.caches|
             && forall i | 0 <= i < |s1.caches| :: SameJobs(LedgerOf(cfg.protocol, s1.caches[i].stats),
                   LedgerOf(cfg.protocol, s'.caches[i].stats))
    ensures Tallied(cfg, jobs, s')
  {
    hide LedgerOf, Total, StateIn, BlockOf;
    var job := s.outstanding[0];
    forall i: nat | i < |s.caches|
      ensures LedgerOf(cfg.protocol, s'.caches[i].stats).jobsRead + JobsFor(s'.outstanding, i, 'R')
              == JobsFor(jobs, i, 'R')
      ensures LedgerOf(cfg.protocol, s'.caches[i].stats).jobsWritten + JobsFor(s'.outstanding, i, 'W')
              == JobsFor(jobs, i, 'W')
    {
      assert SameJobs(LedgerOf(cfg.protocol, s1.caches[i].stats), LedgerOf(cfg.protocol, s'.caches[i].stats));
    }
  }

  lemma DispatchTallied(cfg: Config, jobs: seq<Job>, s: SystemState)
    requires ValidConfig(cfg) && Orderly(cfg, s) && Tallied(cfg, jobs, s) && NoJobs(s.caches) && 0 < |s.outstanding|
    ensures Tallied(cfg, jobs, Step(cfg, s))
  {
    var s1 := BeforeBus(cfg, s);
    hide Orderly, Tallied, BeforeBus, Grant, Step, LedgerOf, Total, StateIn, BlockOf, TookAt, HandedOut, BusJob;
    DispatchStep(cfg, s);
    HandedOutBus(cfg, s, s1);
    HandOutBooks(cfg, s);
    if BusJob(cfg, s) {
      BusJobTaken(cfg, s);
      GrantBooks(cfg, s1, s.outstanding[0].threadId);
      GrantKeepsTrace(cfg, s1);
    } else {
      HandedOutFreeJob(cfg, s, s1);
    }
    HandOutTallied(cfg, jobs, s, s1, Step(cfg, s));
  }

  lemma GrantKeepsTrace(cfg: Config, s: SystemState)
    ensures Grant(cfg, s).outstanding == s.outstanding
  {
    hide BroadcastUpTo;
  }

  lemma CompletionTallied(cfg: Config, jobs: seq<Job>, s: SystemState)
    requires ValidConfig(cfg) && Orderly(cfg, s) && Tallied(cfg, jobs, s) && s.bus.inUse
    requires s.bus.endCycle <= s.cycle + 1
    ensures Tallied(cfg, jobs, Step(cfg, s))
  {
    var k := s.bus.currentCache;
    var s2 := FinishTransaction(cfg, BeforeBus(cfg, s));
    hide Orderly, Tallied, BeforeBus, Grant, Step, LedgerOf, Total, StateIn, BlockOf, FinishTransaction, Over;
    CurrentHasJob(cfg, s);
    CompletionStep(cfg, s);
    FinishBooks(cfg, s);
    OverKeepsTrace(cfg, s, s2);
    GrantKeepsTrace(cfg, s2);
    if AsksAgain(cfg, s.caches[k].currentJob.value, s.bus.isShared) {
      OverAsksAgain(cfg, s, s2);
      GrantableAsks(cfg, s2, k);
      GrantBooks(cfg, s2, k);
    } else {
      OverRests(cfg, s, s2);
    }
    QuietTallied(cfg, jobs, s, Step(cfg, s));
  }

  lemma GrantableAsks(cfg: Config, s: SystemState, k: nat)
    requires Grantable(cfg, s, k)
    ensures k < |s.caches| && s.caches[k].haveBusRequest
    ensures forall i | 0 <= i < |s.caches| && i != k :: !s.caches[i].haveBusRequest
  {
    hide AllGood;
  }

  lemma OverKeepsTrace(cfg: Config, s: SystemState, s2: SystemState)
    requires 0 <= s.bus.currentCache < |s.caches| && s.caches[s.bus.currentCache].currentJob.Some? && Over(cfg, s, s2)
    ensures s2.outstanding == s.outstanding
  {
    hide CompletedAs, GoodSets, ServedCache;
  }

  lemma WaitingTallied(cfg: Config, jobs: seq<Job>, s: SystemState)
    requires ValidConfig(cfg) && Orderly(cfg, s) && Tallied(cfg, jobs, s) && !NoJobs(s.caches)
    requires s.bus.inUse ==> s.cycle + 1 < s.bus.endCycle
    ensures Tallied(cfg, jobs, Step(cfg, s))
  {
    hide Orderly, Step, Served, LedgerOf, Tallied;
    var s' := Step(cfg, s);
    ServingStep(cfg, s);
    ServedStats(cfg, s, s');
    QuietTallied(cfg, jobs, s, s');
  }

  lemma InitiallyTallied(cfg: Config, jobs: seq<Job>)
    ensures Tallied(cfg, jobs, InitialSystem(cfg, jobs))
  {
    hide JobsFor, EmptyWays;
  }

  lemma StepTallied(cfg: Config, jobs: seq<Job>, s: SystemState)
    requires ValidConfig(cfg) && Orderly(cfg, s) && Tallied(cfg, jobs, s)
    ensures Tallied(cfg, jobs, Step(cfg, s))
  {
    hide Orderly, Step, Tallied;
    if Done(s) {
      DoneStays(cfg, s);
    } else if NoJobs(s.caches) {
      DispatchTallied(cfg, jobs, s);
    } else if s.bus.inUse && s.bus.endCycle <= s.cycle + 1 {
      CompletionTallied(cfg, jobs, s);
    } else {
      WaitingTallied(cfg, jobs, s);
    }
  }

  lemma {:induction false} RunsAreTallied(cfg: Config, jobs: seq<Job>, n: nat)
    requires ValidConfig(cfg)
    ensures Tallied(cfg, jobs, After(cfg, jobs, n))
  {
    hide Orderly, Step, Tallied, InitialSystem;
    if n == 0 {
      InitiallyTallied(cfg, jobs);
    } else {
      RunsAreTallied(cfg, jobs, n - 1);
      RunsAreOrderly(cfg, jobs, n - 1);
      StepTallied(cfg, jobs, After(cfg, jobs, n - 1));
    }
  }

  /** Nothing is lost and nothing is done twice: when the loop has stopped, each processor has counted
      exactly the reads and the writes that the trace has for it. */
  lemma EveryJobIsCounted(cfg: Config, jobs: seq<Job>, n: nat, i: nat)
    requires ValidConfig(cfg) && Done(After(cfg, jobs, n)) && i < |After(cfg, jobs, n).caches|
    ensures After(cfg, jobs, n).caches[i].stats.numReads == JobsFor(jobs, i, 'R')
    ensures After(cfg, jobs, n).caches[i].stats.numWrites == JobsFor(jobs, i, 'W')
  {
    RunsAreTallied(cfg, jobs, n);
    hide After;
  }
}
