/** What a job adds to the statistics of every cache, from the states before it: all counters, in all
    protocols. */
module Counts {
  import opened Wrappers
  import opened Constants
  import opened Requests
  import opened Sets
  import opened CacheModel
  import opened Coherence
  import opened CacheLemmas
  import opened SystemModel
  import opened BusLemmas
  import opened Refinement
  import opened Runs
  import opened Timing
  import opened Serving
  import opened JobResults
  import opened Accounting
  import opened Transactions

  // ---------------------------------------------------------------------------------------------
  // The table.

  /** A copy in that state is handed to a cache that asks for the block. */
  predicate Helps(protocol: Protocol, state: State) {
    match protocol
    case MSI => false
    case MESI => state != Invalid
    case DRAGON => state != Invalid
    case MOESI => state == Modified || state == Exclusive || state == Owned
  }

  ghost predicate Helped(protocol: Protocol, column: Column, k: nat) {
    exists j | 0 <= j < |column| :: j != k && Helps(protocol, column[j])
  }

  /** Some other cache holds the block modified. */
  ghost predicate DirtyElsewhere(column: Column, k: nat) {
    exists j | 0 <= j < |column| :: j != k && column[j] == Modified
  }

  /** The job goes over the bus. */
  predicate GoesOnBus(write: bool, own: State) {
    own != Modified && own != Exclusive && (write || own == Invalid)
  }

  /** The accesses to main memory that are counted for the cache that asks. */
  function MemoryUsesOf(protocol: Protocol, write: bool, helped: bool, dirty: bool): nat {
    match protocol
    case MSI => if dirty then 2 else 1
    case MESI => if dirty then 2 else if helped then 0 else if write then 1 else 2
    case DRAGON => if write || !helped then 1 else 0
    case MOESI => if write || !helped then 1 else 0
  }

  /** What a read or a write is for the cache that does it and holds the block as `own`. */
  function OwnCounts(protocol: Protocol, write: bool, own: State, helped: bool, dirty: bool): Stats {
    var hit, asks := own != Invalid, GoesOnBus(write, own);
    NO_STATS.(
    numReads := One(!write), numWrites := One(write),
    numReadHits := One(!write && hit && protocol != DRAGON),
    numReadMisses := One(!write && !hit && protocol != MOESI),
    numMiss := One(!write && !hit && protocol != DRAGON),
    numWriteHits := One(write && (own == Modified || own == Exclusive || own == Shared)),
    numWriteMisses := One(write && !hit),
    numWriteShared := One(write && own == Shared),
    numHit := One(if write then hit && own != Shared else hit && protocol != DRAGON),
    numExclusiveToModifiedTransitions := One(write && own == Exclusive),
    numBusRequests := One(asks) + One(protocol == DRAGON && write && !hit && helped),
    numBusReadX := One(asks && write && (protocol == MSI || (protocol == MESI && dirty))),
    numCacheShare := One(asks && protocol == MESI && helped),
    numMainMemoryUses := if asks then MemoryUsesOf(protocol, write, helped, dirty) else 0)
  }

  /** What it is for another cache, which holds the block, as the bus names it, as `state`. */
  function PeerCounts(protocol: Protocol, write: bool, own: State, state: State): Stats {
    if !GoesOnBus(write, own) then NO_STATS
    else
      match protocol
      case MSI =>
        NO_STATS.(numFlush := One(state == Modified), numWriteBacks := One(state == Modified),
                  numInvalidations := One(write && state != Invalid),
                  numInterventions := One(!write && state == Modified))
      case MESI =>
        NO_STATS.(numFlush := One(state == Modified), numWriteBacks := One(write && state == Modified),
                  numInvalidations := One(write && state != Invalid),
                  numInterventions := One(!write && (state == Modified || state == Exclusive)))
      case DRAGON =>
        if own != Invalid then NO_STATS
        else
          NO_STATS.(numFlush := One(state == Modified || state == SharedDirty),
                    numInterventions := One(state == Modified || state == Exclusive))
      case MOESI => NO_STATS.(numCacheShare := One(Helps(MOESI, state)))
  }

  function Plus(a: Stats, b: Stats): Stats {
    Stats(a.numHit + b.numHit, a.numMiss + b.numMiss,
          a.numExclusiveToModifiedTransitions + b.numExclusiveToModifiedTransitions,
          a.numReads + b.numReads, a.numReadMisses + b.numReadMisses, a.numReadHits + b.numReadHits,
          a.numWrites + b.numWrites, a.numWriteMisses + b.numWriteMisses, a.numWriteHits + b.numWriteHits,
          a.numWriteShared + b.numWriteShared, a.numWriteBacks + b.numWriteBacks, a.numCacheShare + b.numCacheShare,
          a.numInterventions + b.numInterventions, a.numInvalidations + b.numInvalidations,
          a.numFlush + b.numFlush, a.numMainMemoryUses + b.numMainMemoryUses, a.numBusRequests + b.numBusRequests,
          a.numBusReadX + b.numBusReadX)
  }

  /** What a job is for cache i, from the states of the caches before it. */
  ghost function JobCounts(cfg: Config, caches: seq<CacheState>, job: Job, i: nat): Stats
    requires job.threadId < |caches| && i < |caches|
  {
    var k, t := job.threadId, BlockOf(cfg, job.address);
    var own := StateIn(cfg, caches[k], t);
    var heard := ColumnOf(cfg, caches, SnoopedTag(t));
    if !IsRead(job) && !IsWrite(job) then NO_STATS
    else if i == k
    then OwnCounts(cfg.protocol, IsWrite(job), own, Helped(cfg.protocol, heard, k), DirtyElsewhere(heard, k))
    else PeerCounts(cfg.protocol, IsWrite(job), own, StateIn(cfg, caches[i], SnoopedTag(t)))
  }

  // ---------------------------------------------------------------------------------------------
  // The caches that snoop.

  lemma ReplyCounts(cfg: Config, state: State, request: Request, e: Effect)
    ensures var reply := SnoopReply(cfg.protocol, request.command, state);
            TakeReply(cfg, reply, request, e).snooper.stats
            == if (cfg.protocol == MSI && state == Modified)
                  || (cfg.protocol == MESI && state == Modified && request.command == BusRdX)
               then CountWriteBack(e.snooper).stats else e.snooper.stats
  {
    hide AddCost, CountMemoryUse, CountBusReadX, UnsignedSum;
    assert request.command == BusRd || request.command == BusRdX;
  }

  /** What one snoop is for the cache that snoops. */
  function SnoopCounts(protocol: Protocol, command: Command, state: State): Stats {
    PeerCounts(protocol, command == BusRdX, if protocol == DRAGON && command == BusRdX then SharedClean else Invalid,
               state)
  }

  lemma SnoopAdds(cfg: Config, command: Command, state: State, s: Stats)
    requires InProtocol(cfg.protocol, state)
    ensures var s1 := SnoopStats(cfg.protocol, command, state, s);
            var s2 := if (cfg.protocol == MSI && state == Modified)
                         || (cfg.protocol == MESI && state == Modified && command == BusRdX)
                      then s1.(numWriteBacks := s1.numWriteBacks + 1) else s1;
            s2 == Plus(s, SnoopCounts(cfg.protocol, command, state))
  {
    assert command == BusRd || command == BusRdX;
  }

  lemma AnswerAdds(cfg: Config, cycle: nat, c: CacheState, request: Request, block: nat)
    requires ValidConfig(cfg) && GoodSets(cfg, cycle, c.localCache)
    requires request.lineSet == SetOf(cfg, block) && request.lineTag == ToInt(block)
    ensures Answered(cfg, cycle, c, request).stats
            == Plus(c.stats, SnoopCounts(cfg.protocol, request.command, StateIn(cfg, c, SnoopedTag(block))))
  {
    hide Snoop, TakeReply, GoodSets, HoldsAs, StateIn, SnoopStats, SnoopReply, SnoopState, SnoopedTag, SetOf, ToInt,
         SnoopCounts, Plus;
    var state := StateIn(cfg, c, SnoopedTag(block));
    SnoopEffect(cfg, cycle, c, request, block);
    HasLineIsState(cfg, cycle, c, SnoopedTag(block));
    var snooped := Snoop(cfg, cycle, c, request);
    ReplyCounts(cfg, state, snooped.request, Effect(snooped.cache, snooped.cache, 0, false, false));
    SnoopAdds(cfg, request.command, state, c.stats);
  }

  // ---------------------------------------------------------------------------------------------
  // The cache that takes the job.

  function TakingCounts(protocol: Protocol, write: bool, own: State): Stats {
    var all := OwnCounts(protocol, write, own, false, false);
    all.(numBusRequests := 0, numBusReadX := 0, numCacheShare := 0, numMainMemoryUses := 0,
         numWriteMisses := if protocol == DRAGON then all.numWriteMisses else 0)
  }

  lemma WriteAdds(cfg: Config, cycle: nat, c: CacheState, address: nat)
    requires ValidConfig(cfg) && GoodSets(cfg, cycle, c.localCache)
    ensures HandleWrite(cfg, cycle, CountWrite(c), address).stats
            == Plus(c.stats, TakingCounts(cfg.protocol, true, StateIn(cfg, c, BlockOf(cfg, address))))
  {
    hide GoodSets, HasLine, SeenState, StateIn, ProbeLine, BlockOf, SetOf, ToInt, SetLineState, WriteSharedInvalid,
         WriteUpgrade, WriteExclusive, HandleWrite, HoldsSame;
    var block := BlockOf(cfg, address);
    var counted := CountWrite(c);
    var c1 := ProbeLine(cfg, cycle, counted, block);
    SameIsHolds(cfg, c, block, counted);
    SameState(cfg, c, counted, block);
    HasLineIsState(cfg, cycle, counted, block);
    ProbeHolds(cfg, cycle, counted, block);
    HasLineIsState(cfg, cycle, c1, block);
    SameState(cfg, counted, c1, block);
    assert c1.stats == counted.stats;
    HandleWriteIs(cfg, cycle, counted, address);
    WriteSharedInvalidStats(cfg, cycle, c1, address);
    WriteUpgradeStats(cfg, cycle, c1, address);
    WriteExclusiveStats(cfg, cycle, c1, address);
  }

  lemma ReadAdds(cfg: Config, cycle: nat, c: CacheState, address: nat)
    requires ValidConfig(cfg) && GoodSets(cfg, cycle, c.localCache)
    ensures HandleRead(cfg, cycle, CountRead(c), address).stats
            == Plus(c.stats, TakingCounts(cfg.protocol, false, StateIn(cfg, c, BlockOf(cfg, address))))
  {
    hide GoodSets, HasLine, SeenState, StateIn, ProbeLine, BlockOf, SetOf, ToInt, HoldsSame;
    var block := BlockOf(cfg, address);
    var counted := CountRead(c);
    SameIsHolds(cfg, c, block, counted);
    SameState(cfg, c, counted, block);
    HasLineIsState(cfg, cycle, counted, block);
    ProbeHolds(cfg, cycle, counted, block);
  }

  lemma TakerAdds(cfg: Config, s: SystemState)
    requires Ready(cfg, s)
    ensures var job := s.outstanding[0];
            var c := s.caches[job.threadId];
            Taker(cfg, s).stats
            == Plus(c.stats, TakingCounts(cfg.protocol, IsWrite(job), StateIn(cfg, c, BlockOf(cfg, job.address))))
  {
    hide Sound, GoodSets, StateIn, Taking, HandleWrite, HandleRead, HoldsSame, Plus, TakingCounts, BlockOf, CountWrite,
         CountRead;
    var job := s.outstanding[0];
    var c := s.caches[job.threadId];
    ReadyIsOrderly(cfg, s);
    AtRest(cfg, s, job.threadId);
    TakingRestamps(cfg, s.cycle, c, job);
    var taken := Taking(cfg, s.cycle + 1, c, job);
    SameState(cfg, c, taken, BlockOf(cfg, job.address));
    WriteAdds(cfg, s.cycle + 1, taken, job.address);
    ReadAdds(cfg, s.cycle + 1, taken, job.address);
  }

  /** What the grant of a request is for the cache that asked. */
  function GrantCounts(protocol: Protocol, command: Command, dirty: bool, found: bool): Stats {
    NO_STATS.(
    numBusRequests := 1, numBusReadX := One(protocol == MESI && command == BusRdX && dirty),
    numMainMemoryUses := One((protocol == MSI || protocol == MESI) && dirty) + One(protocol == MESI && !found))
  }

  lemma GranteeAdds(cfg: Config, cycle: nat, c: CacheState, request: Request, k: nat, column: Column)
    ensures Grantee(cfg, cycle, c, request, k, column).stats
            == Plus(c.stats,
                    GrantCounts(cfg.protocol, request.command, DirtyElsewhere(column, k),
                                FoundUpTo(cfg.protocol, request.command, k, column, |column|)))
  {
    hide FoundUpTo, PeerIs, DirtyElsewhere, ChargedUpTo;
    DirtyIsPeer(column, k);
    ChargesCount(cfg.protocol, request.command, request.cycleCost, k, column, CountBusRequest(StartService(cycle, c)));
  }

  lemma ChargesCount(protocol: Protocol, command: Command, cost: int, k: nat, column: Column, c: CacheState)
    ensures var dirty := PeerIs(column, k, |column|, Modified);
            ChargedUpTo(protocol, command, cost, k, column, |column|, c).stats
            == Plus(c.stats,
                    NO_STATS.(numBusReadX := One(protocol == MESI && command == BusRdX && dirty),
                              numMainMemoryUses := One((protocol == MSI || protocol == MESI) && dirty)))
  {
    hide PeerIs;
  }

  lemma DirtyIsPeer(column: Column, k: nat)
    ensures DirtyElsewhere(column, k) == PeerIs(column, k, |column|, Modified)
  {
  }

  /** What the end of a transaction is for the cache on the bus. */
  function EndCounts(protocol: Protocol, command: Command, write: bool, absent: bool, shared: bool): Stats {
    NO_STATS.(
    numBusReadX := One(protocol == MSI && command == BusRdX),
    numWriteMisses := One(protocol != DRAGON && write && absent),
    numCacheShare := One(protocol == MESI && shared),
    numMainMemoryUses := match protocol
                         case MSI => 1
                         case MESI => One(!write && !shared)
                         case DRAGON => One(!shared)
                         case MOESI => One(write || !shared))
  }

  lemma ReleasedAdds(cfg: Config, cycle: nat, now: nat, c: CacheState, job: Job, shared: bool)
    requires ValidConfig(cfg) && GoodSets(cfg, cycle, c.localCache) && cycle <= now
    requires c.currentJob == Some(job) && (IsRead(job) || IsWrite(job)) && c.busRequest.Some?
    requires cfg.protocol == MOESI ==> StateIn(cfg, c, BlockOf(cfg, job.address)) != Owned
    ensures Released(cfg, now, c, shared).stats
            == Plus(c.stats,
                    EndCounts(cfg.protocol, c.busRequest.value.command, IsWrite(job),
                              StateIn(cfg, c, BlockOf(cfg, job.address)) == Invalid, shared))
  {
    hide PlaceLine, HasLine, PutLine, BlockOf, SetOf, ToInt, StateIn, GoodSets, PlacedAs;
    var t := BlockOf(cfg, job.address);
    var c1 := Completing(cfg, now, c);
    var freed := c1.(haveBusRequest := false, busy := false, busRequestBeingServiced := false);
    HasLineIsState(cfg, cycle, c, t);
    LaterIsGood(cfg, cycle, now, c.localCache);
    SameLinesFound(cfg, c, freed, t);
    SameIsHolds(cfg, c, t, freed);
    PlaceBooks(cfg, now, freed, job);
    PlaceHolds(cfg, now, freed, job);
    PutStats(cfg, now, t);
    var placed := PlaceLine(cfg, now, freed, job);
    assert StateIn(cfg, placed, t) == StateIn(cfg, c, t) by {
      PlacedKeeps(cfg, freed, t, placed);
      SameState(cfg, c, freed, t);
    }
    PutModified(cfg, now, freed, placed, t);
  }

  lemma PlacedKeeps(cfg: Config, c: CacheState, block: nat, c': CacheState)
    requires PlacedAs(cfg, c, block, c')
    ensures StateIn(cfg, c', block) == StateIn(cfg, c, block)
  {
    hide StateIn, Evicts;
  }

  lemma PutModified(cfg: Config, cycle: nat, freed: CacheState, placed: CacheState, t: nat)
    requires ValidConfig(cfg) && GoodSets(cfg, cycle, placed.localCache) && InProtocol(cfg.protocol, Modified)
    requires Find(WaysOf(cfg, placed, t), t) < |WaysOf(cfg, placed, t)|
    ensures StateIn(cfg, PutLine(cfg, cycle, placed, t, Modified), t) == Modified
  {
    hide GoodSets, StateIn, WaysOf, PutLine;
    PutHolds(cfg, cycle, placed, t, Modified);
    SameAtBlock(cfg, placed, t, Modified, PutLine(cfg, cycle, placed, t, Modified));
  }

  // ---------------------------------------------------------------------------------------------
  // Whole jobs.

  /** What a coherent column means for the one who asks. */
  lemma HeardFacts(protocol: Protocol, command: Command, k: nat, column: Column)
    requires Coherent(protocol, BlockState(column, None))
    ensures AnyShares(protocol, command, k, column)
            == (Helped(protocol, column, k) && !(protocol == DRAGON && command == BusRdX))
    ensures protocol == MESI ==>
              FoundUpTo(protocol, command, k, column, |column|)
                  == (Helped(protocol, column, k) && !DirtyElsewhere(column, k))
    ensures protocol == MESI && DirtyElsewhere(column, k) ==> Helped(protocol, column, k)
    ensures protocol == MSI ==> !Helped(protocol, column, k)
  {
    assert command == BusRd || command == BusRdX;
    assert forall i | 0 <= i < |column| :: InProtocol(protocol, column[i]);
    if protocol == MESI {
      FoundIsPeer(command, k, column, |column|);
      MesiPeers(k, column);
    } else {
      hide Coherent;
    }
  }

  lemma MesiPeers(k: nat, column: Column)
    requires Coherent(MESI, BlockState(column, None))
    ensures Helped(MESI, column, k) && !DirtyElsewhere(column, k)
            <==> PeerIs(column, k, |column|, Shared) || PeerIs(column, k, |column|, Exclusive)
  {
    assert forall i | 0 <= i < |column| :: InProtocol(MESI, column[i]);
    if i :| 0 <= i < |column| && i != k && column[i] == Modified {
      assert Alone(column, i);
    }
  }

  lemma OnceAdds(protocol: Protocol, write: bool, own: State, helped: bool, dirty: bool, found: bool, x: Stats)
    requires InProtocol(protocol, own) && GoesOnBus(write, own) && (protocol == MSI ==> !helped)
    requires protocol == MESI ==> found == (helped && !dirty) && (dirty ==> helped)
    requires var command := CommandFor(protocol, write, own);
             !(protocol == DRAGON && write && helped && command == BusRd)
    ensures var command := CommandFor(protocol, write, own);
            var told := helped && !(protocol == DRAGON && command == BusRdX);
            Plus(Plus(Plus(x, TakingCounts(protocol, write, own)), GrantCounts(protocol, command, dirty, found)),
                 EndCounts(protocol, command, write, own == Invalid, told))
            == Plus(x, OwnCounts(protocol, write, own, helped, dirty))
  {
  }

  lemma TwiceAdds(command: Command, dirty: bool, dirty': bool, found: bool, found': bool, x: Stats)
    ensures Plus(Plus(Plus(Plus(Plus(x, TakingCounts(DRAGON, true, Invalid)), GrantCounts(DRAGON, BusRd, dirty, found)),
                           EndCounts(DRAGON, BusRd, true, true, true)), GrantCounts(DRAGON, BusRdX, dirty', found')),
                 EndCounts(DRAGON, command, true, false, false))
            == Plus(x, OwnCounts(DRAGON, true, Invalid, true, dirty))
  {
  }

  lemma PeerOnce(protocol: Protocol, write: bool, own: State, state: State)
    requires InProtocol(protocol, own) && GoesOnBus(write, own)
    ensures SnoopCounts(protocol, CommandFor(protocol, write, own), state) == PeerCounts(protocol, write, own, state)
    ensures SnoopCounts(DRAGON, BusRdX, state) == NO_STATS
  {
  }

  lemma PlusNothing(x: Stats)
    ensures Plus(x, NO_STATS) == x
  {
  }

  lemma IdleCounts(cfg: Config, cycle: nat, c: CacheState)
    requires Quiet(c) && |c.pendingJobs| == 0
    ensures Idle(cfg, cycle, c).stats == c.stats
  {
    hide Idle;
    IdleTicks(cfg, cycle, c);
  }

  /** The own block in the cache that has asked, and who it is. */
  lemma AskerIs(cfg: Config, s: SystemState)
    requires Ready(cfg, s) && BusJob(cfg, s)
    ensures var job := s.outstanding[0];
            var k, t := job.threadId, BlockOf(cfg, job.address);
            var own := StateIn(cfg, s.caches[k], t);
            var c := Step(cfg, s).caches[k];
            && k < |Step(cfg, s).caches| == |s.caches| && InProtocol(cfg.protocol, own) && GoesOnBus(IsWrite(job), own)
            && (StateIn(cfg, c, t) == Invalid <==> own == Invalid)
            && (cfg.protocol == MOESI ==> StateIn(cfg, c, t) != Owned)
            && FirstRequestOf(cfg, s).command == CommandFor(cfg.protocol, IsWrite(job), own)
            && FirstRequestOf(cfg, s).lineSet == SetOf(cfg, t) && FirstRequestOf(cfg, s).lineTag == ToInt(t)
  {
    hide Sound, Step, Grantee, Answered, Idle, Taker, StateIn, BlockOf, ToldShared, GoodSets, CommandFor, IssueCost,
         SetOf, ToInt;
    var job := s.outstanding[0];
    AskedIs(cfg, s);
    AskedOwn(cfg, s);
    OwnInProtocol(cfg, s, job.threadId, BlockOf(cfg, job.address));
    BusJobNeeds(cfg, s);
  }

  lemma OwnInProtocol(cfg: Config, s: SystemState, k: nat, t: nat)
    requires Ready(cfg, s) && k < |s.caches|
    ensures InProtocol(cfg.protocol, StateIn(cfg, s.caches[k], t))
  {
    hide Sound, Orderly, StateIn, GoodSets, InProtocol;
    ReadyIsOrderly(cfg, s);
    AtRest(cfg, s, k);
    HasLineIsState(cfg, s.cycle, s.caches[k], t);
  }

  lemma ToldIs(cfg: Config, s: SystemState)
    requires Ready(cfg, s) && BusJob(cfg, s)
    ensures var job := s.outstanding[0];
            var command := FirstRequestOf(cfg, s).command;
            ToldShared(cfg, s.caches, job) == AnyShares(cfg.protocol, command, job.threadId, HeardColumn(cfg, s))
  {
    hide Sound, StateIn, BlockOf, ColumnOf, SnoopedTag, AnyShares, CommandFor, IssueCost, SetOf, ToInt;
  }

  /** The cache on the bus, once its request is granted. */
  lemma AskerAdds(cfg: Config, s: SystemState)
    requires Ready(cfg, s) && BusJob(cfg, s)
    ensures var job := s.outstanding[0];
            var k := job.threadId;
            var heard := HeardColumn(cfg, s);
            var command := FirstRequestOf(cfg, s).command;
            && k < |Step(cfg, s).caches|
            && Step(cfg, s).caches[k].stats
               == Plus(Plus(s.caches[k].stats,
                            TakingCounts(cfg.protocol, IsWrite(job),
                                         StateIn(cfg, s.caches[k], BlockOf(cfg, job.address)))),
                       GrantCounts(cfg.protocol, command, DirtyElsewhere(heard, k),
                                   FoundUpTo(cfg.protocol, command, k, heard, |heard|)))
  {
    hide Sound, Step, Answered, Idle, Taker, StateIn, BlockOf, ToldShared, Plus, TakingCounts, GrantCounts, BusJob,
         FirstRequestOf, Grantee, FoundUpTo, HeardColumn;
    AskedIs(cfg, s);
    TakerAdds(cfg, s);
    GranteeAdds(cfg, s.cycle + 1, Taker(cfg, s), FirstRequestOf(cfg, s), s.outstanding[0].threadId,
                HeardColumn(cfg, s));
  }

  /** A job that takes one transaction: the cache that does it. */
  lemma OnceOwn(cfg: Config, s: SystemState)
    requires TakesOne(cfg, s)
    ensures var k := s.outstanding[0].threadId;
            var s' := Run(cfg, s, JobCycles(cfg, s));
            && |s'.caches| == |s.caches|
            && s'.caches[k].stats == Plus(s.caches[k].stats, JobCounts(cfg, s.caches, s.outstanding[0], k))
  {
    hide Sound, Step, Run, Answered, Idle, Taker, StateIn, BlockOf, ToldShared, Plus, TakingCounts, GrantCounts,
         EndCounts, OwnCounts, BusJob, FirstRequestOf, Grantee, FoundUpTo, Released, JobCycles, GoodSets, Helped,
         DirtyElsewhere, CommandFor, AnyShares, ColumnOf, SnoopedTag, TakenAs, InProtocol, Coherent, Orderly;
    var job := s.outstanding[0];
    var k, t := job.threadId, BlockOf(cfg, job.address);
    var own := StateIn(cfg, s.caches[k], t);
    var heard := HeardColumn(cfg, s);
    var command := FirstRequestOf(cfg, s).command;
    var s' := Run(cfg, s, JobCycles(cfg, s));
    var asked := Step(cfg, s);
    ReadyIsOrderly(cfg, s);
    JobLasts(cfg, s);
    AskedIs(cfg, s);
    AskedOwn(cfg, s);
    AskerIs(cfg, s);
    AskerAdds(cfg, s);
    OnceIs(cfg, s);
    HeardIsCoherent(cfg, s);
    HeardFacts(cfg.protocol, command, k, heard);
    ToldIs(cfg, s);
    ReleasedAdds(cfg, asked.cycle, s'.cycle, asked.caches[k], job, asked.bus.isShared);
    OnceAdds(cfg.protocol, IsWrite(job), own, Helped(cfg.protocol, heard, k), DirtyElsewhere(heard, k),
             FoundUpTo(cfg.protocol, command, k, heard, |heard|), s.caches[k].stats);
  }

  lemma JobLasts(cfg: Config, s: SystemState)
    requires 0 < |s.outstanding| && s.outstanding[0].threadId < |s.caches|
    ensures 2 <= JobCycles(cfg, s)
  {
    hide StateIn, BlockOf, FirstLength, ToldShared;
  }

  /** And the others. */
  lemma AskedPeer(cfg: Config, s: SystemState, i: nat)
    requires Ready(cfg, s) && BusJob(cfg, s) && i < |s.caches| && i != s.outstanding[0].threadId
    ensures var job := s.outstanding[0];
            var k, t := job.threadId, BlockOf(cfg, job.address);
            var c := s.caches[i];
            var asked := Step(cfg, s);
            && |asked.caches| == |s.caches| && Quiet(asked.caches[i]) && |asked.caches[i].pendingJobs| == 0
            && asked.caches[i].stats
               == Plus(c.stats,
                       PeerCounts(cfg.protocol, IsWrite(job), StateIn(cfg, s.caches[k], t),
                                  StateIn(cfg, c, SnoopedTag(t))))
  {
    hide Sound, Step, Answered, Idle, Taker, StateIn, BlockOf, ToldShared, Plus, PeerCounts, BusJob, FirstRequestOf,
         Grantee, GoodSets, CommandFor, SnoopedTag, InProtocol, Orderly, SnoopCounts, GoesOnBus, HoldsSame;
    var job := s.outstanding[0];
    var t := BlockOf(cfg, job.address);
    var request := FirstRequestOf(cfg, s);
    var c := s.caches[i];
    var a := s.cycle + 1;
    ReadyIsOrderly(cfg, s);
    AtRest(cfg, s, i);
    AskedIs(cfg, s);
    AskerIs(cfg, s);
    IdleHolds(cfg, s.cycle, a, c);
    IdleCounts(cfg, a, c);
    SameState(cfg, c, Idle(cfg, a, c), SnoopedTag(t));
    AnswerAdds(cfg, a, Idle(cfg, a, c), request, t);
    PeerOnce(cfg.protocol, IsWrite(job), StateIn(cfg, s.caches[job.threadId], t), StateIn(cfg, c, SnoopedTag(t)));
    AnsweredRests(cfg, a, Idle(cfg, a, c), request);
  }

  lemma AnsweredRests(cfg: Config, cycle: nat, c: CacheState, request: Request)
    ensures var c' := Answered(cfg, cycle, c, request);
            c' == c.(localCache := c'.localCache, stats := c'.stats)
  {
    hide Has, StateOf, SetState, SnoopState, SnoopStats, SnoopReply, RaisesShared, ToUnsignedLong, AddCost, UnsignedSum;
  }

  lemma OncePeer(cfg: Config, s: SystemState, i: nat)
    requires TakesOne(cfg, s)
    requires i < |s.caches| && i != s.outstanding[0].threadId
    ensures var s' := Run(cfg, s, JobCycles(cfg, s));
            && |s'.caches| == |s.caches|
            && s'.caches[i].stats == Plus(s.caches[i].stats, JobCounts(cfg, s.caches, s.outstanding[0], i))
  {
    hide Sound, Step, Run, Idle, StateIn, BlockOf, ToldShared, Plus, PeerCounts, BusJob, Released, JobCycles,
         SnoopedTag, AsksAgain, Helped, DirtyElsewhere, OwnCounts, ColumnOf;
    AskedPeer(cfg, s, i);
    BusJobTold(cfg, s);
    OnceIs(cfg, s);
    IdleCounts(cfg, Run(cfg, s, JobCycles(cfg, s)).cycle, Step(cfg, s).caches[i]);
    BusJobKind(cfg, s);
  }

  lemma BusJobKind(cfg: Config, s: SystemState)
    requires 0 < |s.outstanding| && s.outstanding[0].threadId < |s.caches| && BusJob(cfg, s)
    ensures IsRead(s.outstanding[0]) || IsWrite(s.outstanding[0])
  {
    hide StateIn, BlockOf;
  }

  // ---------------------------------------------------------------------------------------------
  // A job that takes two transactions, which only a Dragon write miss does.

  /** The first of them, from the grant. */
  lemma MidOwn(cfg: Config, s: SystemState, mid: SystemState)
    requires TakesTwo(cfg, s)
    requires Concluded(cfg, Step(cfg, s), mid) && s.cycle + 1 <= mid.cycle
    ensures var job := s.outstanding[0];
            var k, t := job.threadId, BlockOf(cfg, job.address);
            var own := StateIn(cfg, s.caches[k], t);
            var heard := HeardColumn(cfg, s);
            && cfg.protocol == DRAGON && IsWrite(job) && own == Invalid && Helped(DRAGON, heard, k)
            && FirstRequestOf(cfg, s).command == BusRd
            && k < |mid.caches| == |s.caches| && StateIn(cfg, mid.caches[k], t) == SharedDirty
            && mid.caches[k].stats
               == Plus(Plus(Plus(s.caches[k].stats, TakingCounts(DRAGON, true, Invalid)),
                            GrantCounts(DRAGON, BusRd, DirtyElsewhere(heard, k),
                                        FoundUpTo(DRAGON, BusRd, k, heard, |heard|))),
                       EndCounts(DRAGON, BusRd, true, true, true))
  {
    hide Sound, Step, Run, Answered, Idle, Taker, StateIn, BlockOf, ToldShared, Plus, TakingCounts, GrantCounts,
         EndCounts, BusJob, FirstRequestOf, Grantee, FoundUpTo, Released, GoodSets, Helped, Orderly, CompletedAs,
         DirtyElsewhere, AnyShares, ColumnOf, SnoopedTag, TakenAs, InProtocol, Coherent;
    var job := s.outstanding[0];
    var k, t := job.threadId, BlockOf(cfg, job.address);
    var asked := Step(cfg, s);
    ReadyIsOrderly(cfg, s);
    AskedIs(cfg, s);
    AskedOwn(cfg, s);
    AskerIs(cfg, s);
    AskerAdds(cfg, s);
    HeardIsCoherent(cfg, s);
    HeardFacts(cfg.protocol, FirstRequestOf(cfg, s).command, k, HeardColumn(cfg, s));
    ToldIs(cfg, s);
    ReleasedAdds(cfg, asked.cycle, mid.cycle, asked.caches[k], job, true);
    ReleasedHolds(cfg, asked.cycle, mid.cycle, asked.caches[k], job);
  }

  lemma ReleasedHolds(cfg: Config, cycle: nat, now: nat, c: CacheState, job: Job)
    requires ValidConfig(cfg) && GoodSets(cfg, cycle, c.localCache) && cycle <= now && cfg.protocol == DRAGON
    requires c.currentJob == Some(job) && IsWrite(job)
    ensures StateIn(cfg, Released(cfg, now, c, true), BlockOf(cfg, job.address)) == SharedDirty
  {
    hide GoodSets, StateIn, BlockOf, Released, BusJobDone, Completing, PushesOut;
    LaterIsGood(cfg, cycle, now, c.localCache);
    CompletedCache(cfg, now, c, job, true);
    ReleasedIs(cfg, now, c, true);
  }

  /** The second, up to its grant. */
  lemma AgainIs(cfg: Config, mid: SystemState, k: nat, job: Job)
    requires ValidConfig(cfg) && cfg.protocol == DRAGON && Grantable(cfg, mid, k)
    requires k < |mid.caches| && mid.caches[k].currentJob == Some(job)
    ensures var again := Grant(cfg, mid);
            && |again.caches| == |mid.caches| && again.cycle == mid.cycle
            && GoodSets(cfg, again.cycle, again.caches[k].localCache)
            && again.caches[k].localCache == mid.caches[k].localCache
            && again.caches[k].currentJob == Some(job) && again.caches[k].busRequest.Some?
            && exists dirty, found ::
                 again.caches[k].stats == Plus(mid.caches[k].stats, GrantCounts(DRAGON, BusRdX, dirty, found))
  {
    hide Grant, Grantee, GoodSets, StateIn, FoundUpTo, ColumnOf, SnoopedTag, Plus, GrantCounts, DirtyElsewhere,
         SnoopedAs, EndAfter, BlockOf, UnsignedSum, AnyShares;
    var column := ColumnOf(cfg, mid.caches, SnoopedTag(JobBlock(cfg, mid.caches[k])));
    GrantCharges(cfg, mid, k, column);
    GrantEffect(cfg, mid, k);
    var request := mid.caches[k].busRequest.value;
    GranteeLines(cfg, mid.cycle, mid.caches[k], request, k, column);
    GranteeAdds(cfg, mid.cycle, mid.caches[k], request, k, column);
    DragonGrants(request.command, DirtyElsewhere(column, k),
                 FoundUpTo(cfg.protocol, request.command, k, column, |column|));
  }

  lemma DragonGrants(command: Command, dirty: bool, found: bool)
    ensures GrantCounts(DRAGON, command, dirty, found) == GrantCounts(DRAGON, BusRdX, dirty, found)
  {
  }

  lemma TwiceOwn(cfg: Config, s: SystemState)
    requires TakesTwo(cfg, s)
    ensures var k := s.outstanding[0].threadId;
            var s' := Run(cfg, s, JobCycles(cfg, s));
            && |s'.caches| == |s.caches|
            && s'.caches[k].stats == Plus(s.caches[k].stats, JobCounts(cfg, s.caches, s.outstanding[0], k))
  {
    hide Sound, Step, Run, Answered, Idle, Taker, StateIn, BlockOf, ToldShared, Plus, TakingCounts, GrantCounts, Grant,
         EndCounts, OwnCounts, BusJob, FirstRequestOf, Grantee, FoundUpTo, Released, JobCycles, GoodSets, Helped,
         DirtyElsewhere, ColumnOf, SnoopedTag, Orderly, Grantable;
    var job := s.outstanding[0];
    var k, t := job.threadId, BlockOf(cfg, job.address);
    var s' := Run(cfg, s, JobCycles(cfg, s));
    var mid := TwiceIs(cfg, s);
    var again := Grant(cfg, mid);
    ReadyIsOrderly(cfg, s);
    JobsLastLonger(cfg, s);
    MidOwn(cfg, s, mid);
    AgainIs(cfg, mid, k, job);
    SameIsHolds(cfg, mid.caches[k], t, again.caches[k]);
    SameState(cfg, mid.caches[k], again.caches[k], t);
    ReleasedAdds(cfg, again.cycle, s'.cycle, again.caches[k], job, false);
    var heard := HeardColumn(cfg, s);
    var dirty, found :| again.caches[k].stats == Plus(mid.caches[k].stats, GrantCounts(DRAGON, BusRdX, dirty, found));
    TwiceAdds(again.caches[k].busRequest.value.command, DirtyElsewhere(heard, k), dirty,
              FoundUpTo(DRAGON, BusRd, k, heard, |heard|), found, s.caches[k].stats);
  }

  lemma JobsLastLonger(cfg: Config, s: SystemState)
    requires TakesTwo(cfg, s)
    ensures PEER_COST + 2 <= JobCycles(cfg, s)
  {
    hide StateIn, BlockOf, FirstLength, ToldShared, Sound;
    BusJobCycles(cfg, s);
  }

  lemma TwicePeer(cfg: Config, s: SystemState, i: nat)
    requires TakesTwo(cfg, s)
    requires i < |s.caches| && i != s.outstanding[0].threadId
    ensures var s' := Run(cfg, s, JobCycles(cfg, s));
            && |s'.caches| == |s.caches|
            && s'.caches[i].stats == Plus(s.caches[i].stats, JobCounts(cfg, s.caches, s.outstanding[0], i))
  {
    hide Sound, Step, Run, Idle, StateIn, BlockOf, ToldShared, Plus, PeerCounts, BusJob, Released, JobCycles, Grant,
         SnoopedTag, Helped, DirtyElsewhere, OwnCounts, ColumnOf, Grantable, Answered, GoodSets, SnoopCounts, SetOf,
         ToInt, Orderly;
    var job := s.outstanding[0];
    var k := job.threadId;
    var s' := Run(cfg, s, JobCycles(cfg, s));
    ReadyIsOrderly(cfg, s);
    AskedPeer(cfg, s, i);
    BusJobTold(cfg, s);
    var mid := TwiceIs(cfg, s);
    IdleCounts(cfg, mid.cycle, Step(cfg, s).caches[i]);
    GrantAnswers(cfg, mid, k);
    GrantableRests(cfg, mid, k, i);
    AnswerAdds(cfg, mid.cycle, mid.caches[i], mid.caches[k].busRequest.value, BlockOf(cfg, job.address));
    PeerOnce(DRAGON, true, SharedClean, StateIn(cfg, mid.caches[i], SnoopedTag(BlockOf(cfg, job.address))));
    PlusNothing(mid.caches[i].stats);
    AnsweredRests(cfg, mid.cycle, mid.caches[i], mid.caches[k].busRequest.value);
    IdleCounts(cfg, s'.cycle, Grant(cfg, mid).caches[i]);
  }

  lemma GrantableRests(cfg: Config, s: SystemState, k: nat, i: nat)
    requires Grantable(cfg, s, k) && i < |s.caches| && i != k
    ensures GoodSets(cfg, s.cycle, s.caches[i].localCache) && Quiet(s.caches[i]) && |s.caches[i].pendingJobs| == 0
  {
    hide GoodSets, Requesting;
  }

  // ---------------------------------------------------------------------------------------------
  // Every job.

  lemma HitAdds(protocol: Protocol, write: bool, own: State, x: Stats)
    requires !GoesOnBus(write, own) && InProtocol(protocol, own)
    ensures forall helped, dirty ::
              Plus(x, TakingCounts(protocol, write, own)) == Plus(x, OwnCounts(protocol, write, own, helped, dirty))
    ensures forall state :: PeerCounts(protocol, write, own, state) == NO_STATS
  {
  }

  lemma HitCounts(cfg: Config, s: SystemState, i: nat)
    requires Ready(cfg, s) && !BusJob(cfg, s) && i < |s.caches|
    ensures var s' := Run(cfg, s, JobCycles(cfg, s));
            && |s'.caches| == |s.caches|
            && s'.caches[i].stats == Plus(s.caches[i].stats, JobCounts(cfg, s.caches, s.outstanding[0], i))
  {
    hide Sound, Run, Idle, StateIn, BlockOf, Plus, PeerCounts, JobCycles, SnoopedTag, Helped, Orderly, Taker, BusJob,
         DirtyElsewhere, OwnCounts, ColumnOf, TakingCounts, FinishJob, GoodSets;
    var job := s.outstanding[0];
    var k, t := job.threadId, BlockOf(cfg, job.address);
    var s' := Run(cfg, s, JobCycles(cfg, s));
    HitIs(cfg, s);
    HitNeedsNoBus(cfg, s);
    OwnInProtocol(cfg, s, k, t);
    HitAdds(cfg.protocol, IsWrite(job), StateIn(cfg, s.caches[k], t), s.caches[k].stats);
    if i == k {
      TakerAdds(cfg, s);
      FinishCounts(cfg, s'.cycle, Taker(cfg, s));
    } else {
      ReadyIsOrderly(cfg, s);
      AtRest(cfg, s, i);
      IdleCounts(cfg, s'.cycle, s.caches[i]);
      PlusNothing(s.caches[i].stats);
    }
  }

  lemma HitNeedsNoBus(cfg: Config, s: SystemState)
    requires Ready(cfg, s) && !BusJob(cfg, s)
    ensures var job := s.outstanding[0];
            !GoesOnBus(IsWrite(job), StateIn(cfg, s.caches[job.threadId], BlockOf(cfg, job.address)))
  {
    hide Sound, StateIn, BlockOf;
  }

  lemma FinishCounts(cfg: Config, cycle: nat, c: CacheState)
    ensures FinishJob(cfg, cycle, c).stats == c.stats
  {
    hide HasLine, SetOf, Touch;
  }

  /** All counters of all caches, over the next job of a resting system, in all protocols. */
  lemma JobAdds(cfg: Config, s: SystemState, i: nat)
    requires Ready(cfg, s) && i < |s.caches|
    ensures var s' := Run(cfg, s, JobCycles(cfg, s));
            && |s'.caches| == |s.caches|
            && s'.caches[i].stats == Plus(s.caches[i].stats, JobCounts(cfg, s.caches, s.outstanding[0], i))
  {
    hide Sound, Run, JobCycles, BusJob, JobCounts, Plus, ToldShared;
    if !BusJob(cfg, s) {
      HitCounts(cfg, s, i);
    } else if AsksAgain(cfg, s.outstanding[0], ToldShared(cfg, s.caches, s.outstanding[0])) {
      if i == s.outstanding[0].threadId { TwiceOwn(cfg, s); } else { TwicePeer(cfg, s, i); }
    } else {
      if i == s.outstanding[0].threadId { OnceOwn(cfg, s); } else { OncePeer(cfg, s, i); }
    }
  }

  /** A job of no kind adds nothing. */
  lemma NoKindAdds(cfg: Config, s: SystemState, i: nat)
    requires Sound(cfg, s) && NoJobs(s.caches) && 0 < |s.outstanding| && s.outstanding[0].threadId < |s.caches|
    requires !IsRead(s.outstanding[0]) && !IsWrite(s.outstanding[0]) && i < |s.caches|
    ensures |Step(cfg, s).caches| == |s.caches| && Step(cfg, s).caches[i].stats == s.caches[i].stats
  {
    hide Sound, Orderly, Step, Idle, BeforeBus, Grant, HandedOut, GoodSets, HoldsSame, Taking, FinishJob;
    var k := s.outstanding[0].threadId;
    assert !BusJob(cfg, s) by { hide StateIn, BlockOf; }
    hide BusJob;
    SoundIsOrderly(cfg, s);
    HandOutIs(cfg, s);
    DispatchStep(cfg, s);
    HandedOutFreeJob(cfg, s, BeforeBus(cfg, s));
    AtRest(cfg, s, i);
    IdleCounts(cfg, s.cycle + 1, s.caches[i]);
    AtRest(cfg, s, k);
    TakingRestamps(cfg, s.cycle, s.caches[k], s.outstanding[0]);
  }

  /** So it is for every job of every trace. */
  lemma CountsOverJob(cfg: Config, jobs: seq<Job>, j: nat, n: nat, n': nat, i: nat)
    requires ValidConfig(cfg) && j < |jobs| && ServedBetween(cfg, jobs, j, n, n') && i < cfg.numProcessors
    ensures var s, s' := After(cfg, jobs, n), After(cfg, jobs, n');
            && |s.caches| == |s'.caches| == cfg.numProcessors && jobs[j].threadId < cfg.numProcessors
            && s'.caches[i].stats == Plus(s.caches[i].stats, JobCounts(cfg, s.caches, jobs[j], i))
  {
    hide Sound, Run, InitialSystem, JobCycles, Satisfied, ColumnOf, Step, JobCounts, Plus, Fits, BlockOf;
    var s := After(cfg, jobs, n);
    RunsAreSound(cfg, jobs, n);
    SoundWidth(cfg, s, 0);
    assert jobs[j..][0] == jobs[j];
    RunAdds(cfg, InitialSystem(cfg, jobs), n, n' - n);
    if IsRead(jobs[j]) || IsWrite(jobs[j]) {
      JobAdds(cfg, s, i);
    } else {
      NoKindAdds(cfg, s, i);
      RunOne(cfg, s);
      NoKindCounts(cfg, s.caches, jobs[j], i);
      PlusNothing(s.caches[i].stats);
    }
  }

  lemma NoKindCounts(cfg: Config, caches: seq<CacheState>, job: Job, i: nat)
    requires job.threadId < |caches| && i < |caches| && !IsRead(job) && !IsWrite(job)
    ensures JobCounts(cfg, caches, job, i) == NO_STATS
  {
    hide StateIn, ColumnOf, SnoopedTag, BlockOf;
  }

  // ---------------------------------------------------------------------------------------------
  // Whole traces.

  /** What the first `count` jobs are for cache i, in the states in which they are handed out. */
  ghost function CountsUpTo(cfg: Config, jobs: seq<Job>, times: seq<nat>, i: nat, count: nat): Stats
    requires count <= |jobs| && count < |times|
    requires forall j | 0 <= j < count :: var caches := After(cfg, jobs, times[j]).caches;
                                          jobs[j].threadId < |caches| && i < |caches|
  {
    if count == 0 then NO_STATS
    else Plus(CountsUpTo(cfg, jobs, times, i, count - 1),
              JobCounts(cfg, After(cfg, jobs, times[count - 1]).caches, jobs[count - 1], i))
  }

  lemma {:induction false} CountsAddUp(cfg: Config, jobs: seq<Job>, times: seq<nat>, i: nat, count: nat)
    requires ValidConfig(cfg) && count <= |jobs| && |times| == |jobs| + 1 && times[0] == 0 && i < cfg.numProcessors
    requires forall j | 0 <= j < |jobs| :: ServedBetween(cfg, jobs, j, times[j], times[j + 1])
    ensures forall j | 0 <= j <= count :: |After(cfg, jobs, times[j]).caches| == cfg.numProcessors
    ensures forall j | 0 <= j < count :: jobs[j].threadId < cfg.numProcessors
    ensures After(cfg, jobs, times[count]).caches[i].stats == CountsUpTo(cfg, jobs, times, i, count)
  {
    hide After, ServedBetween, JobCounts, Plus;
    if count == 0 {
      StartsWithNothing(cfg, jobs, i);
    } else {
      CountsAddUp(cfg, jobs, times, i, count - 1);
      CountsOverJob(cfg, jobs, count - 1, times[count - 1], times[count], i);
    }
  }

  lemma StartsWithNothing(cfg: Config, jobs: seq<Job>, i: nat)
    requires i < cfg.numProcessors
    ensures |After(cfg, jobs, 0).caches| == cfg.numProcessors && After(cfg, jobs, 0).caches[i].stats == NO_STATS
  {
    hide EmptyWays;
  }

  /** When the loop stops, every counter of every cache is what the jobs of the trace, one by one, are for
      that cache. */
  lemma CountsOfTrace(cfg: Config, jobs: seq<Job>) returns (times: seq<nat>)
    requires ValidConfig(cfg) && forall j | 0 <= j < |jobs| :: jobs[j].threadId < cfg.numProcessors
    ensures |times| == |jobs| + 1 && times[0] == 0 && Done(After(cfg, jobs, times[|jobs|]))
    ensures forall j | 0 <= j < |jobs| :: ServedBetween(cfg, jobs, j, times[j], times[j + 1])
    ensures forall j | 0 <= j <= |jobs| :: |After(cfg, jobs, times[j]).caches| == cfg.numProcessors
    ensures forall i: nat | i < cfg.numProcessors ::
              After(cfg, jobs, times[|jobs|]).caches[i].stats == CountsUpTo(cfg, jobs, times, i, |jobs|)
  {
    hide After, ServedBetween, CountsUpTo, Done;
    times := TraceIsServed(cfg, jobs, |jobs|);
    WidthsAre(cfg, jobs, times);
    forall i: nat | i < cfg.numProcessors
      ensures After(cfg, jobs, times[|jobs|]).caches[i].stats == CountsUpTo(cfg, jobs, times, i, |jobs|)
    {
      CountsAddUp(cfg, jobs, times, i, |jobs|);
    }
  }

  lemma WidthsAre(cfg: Config, jobs: seq<Job>, times: seq<nat>)
    requires ValidConfig(cfg)
    ensures forall j | 0 <= j < |times| :: |After(cfg, jobs, times[j]).caches| == cfg.numProcessors
  {
    hide After;
    forall j | 0 <= j < |times|
      ensures |After(cfg, jobs, times[j]).caches| == cfg.numProcessors
    {
      RunsAreSound(cfg, jobs, times[j]);
      SoundWidth(cfg, After(cfg, jobs, times[j]), 0);
    }
  }

  // ---------------------------------------------------------------------------------------------
  // What follows for the printed numbers.

  /** What a snoop counts, by what it does to the copy: in MSI and MESI an invalidation for every copy that is
      lost, in MSI, MESI and Dragon an intervention for every writable copy that has to be shared, and in
      MOESI a transfer for every supplier. */
  lemma SnoopsAreCounted(protocol: Protocol, command: Command, state: State, s: Stats)
    requires InProtocol(protocol, state)
    ensures var after := SnoopState(protocol, command, state);
            var s' := SnoopStats(protocol, command, state, s);
            && (Invalidating(protocol) ==>
                  s'.numInvalidations == s.numInvalidations + One(state != Invalid && after == Invalid))
            && (protocol != MOESI ==>
                  s'.numInterventions
                  == s.numInterventions + One(WritesSilently(state) && after != Invalid && !WritesSilently(after)))
            && (protocol == MOESI ==> s'.numCacheShare == s.numCacheShare + One(Supplies(state)))
  {
    assert command == BusRd || command == BusRdX;
  }

  function BusReadXs(x: Stats): int {
    x.numBusReadX
  }

  function WriteBacks(x: Stats): int {
    x.numWriteBacks
  }

  /** If one cache counts one more, so does the sum. */
  lemma TotalOneMore(caches: seq<CacheState>, caches': seq<CacheState>, counter: Stats -> int, x: nat)
    requires |caches'| == |caches| && x < |caches|
    requires forall i | 0 <= i < |caches| ::
               counter(caches'[i].stats) == counter(caches[i].stats) + if i == x then 1 else 0
    ensures Total(caches', counter) == Total(caches, counter) + 1
  {
    hide Total;
    TotalUpdate(caches, counter, x, caches'[x]);
    TotalSame(caches[x := caches'[x]], caches', counter);
  }

  /** The job asks for ownership of a block that, as heard, another cache holds modified. */
  ghost predicate TakesDirty(cfg: Config, caches: seq<CacheState>, job: Job)
    requires job.threadId < |caches|
  {
    && IsWrite(job) && GoesOnBus(true, StateIn(cfg, caches[job.threadId], BlockOf(cfg, job.address)))
    && DirtyElsewhere(ColumnOf(cfg, caches, SnoopedTag(BlockOf(cfg, job.address))), job.threadId)
  }

  /** In MESI a write that takes over a modified block counts a BusRdX for the cache that writes and a write
      back for the one that has had it; no other job counts either. */
  lemma OwnershipCounts(cfg: Config, caches: seq<CacheState>, job: Job) returns (owner: nat)
    requires cfg.protocol == MESI && job.threadId < |caches|
    requires Coherent(MESI, BlockState(ColumnOf(cfg, caches, SnoopedTag(BlockOf(cfg, job.address))), None))
    ensures TakesDirty(cfg, caches, job) ==> owner < |caches| && owner != job.threadId
    ensures forall i: nat | i < |caches| ::
              var x := JobCounts(cfg, caches, job, i);
              && x.numBusReadX == One(TakesDirty(cfg, caches, job) && i == job.threadId)
              && x.numWriteBacks == One(TakesDirty(cfg, caches, job) && i == owner)
  {
    hide StateIn, BlockOf, SnoopedTag, Helped, ColumnOf;
    var k, t := job.threadId, BlockOf(cfg, job.address);
    var heard := ColumnOf(cfg, caches, SnoopedTag(t));
    ColumnHolds(cfg, caches, SnoopedTag(t));
    owner := |caches|;
    if DirtyElsewhere(heard, k) {
      owner :| owner < |heard| && owner != k && heard[owner] == Modified;
      assert Alone(heard, owner);
    }
    hide Coherent;
  }

  /** So over any job the sums of the two counters move together. */
  lemma OwnershipIsWrittenBack(cfg: Config, jobs: seq<Job>, j: nat, n: nat, n': nat)
    requires ValidConfig(cfg) && cfg.protocol == MESI && j < |jobs| && ServedBetween(cfg, jobs, j, n, n')
    ensures var caches, caches' := After(cfg, jobs, n).caches, After(cfg, jobs, n').caches;
            Total(caches', BusReadXs) - Total(caches, BusReadXs)
                == Total(caches', WriteBacks) - Total(caches, WriteBacks)
  {
    hide After, Coherent, JobCounts, TakesDirty, ColumnOf, BlockOf, SnoopedTag, ServedBetween, Total;
    var caches, caches' := After(cfg, jobs, n).caches, After(cfg, jobs, n').caches;
    BetweenWidths(cfg, jobs, j, n, n');
    HeardByJob(cfg, jobs, j, n, n');
    var owner := OwnershipCounts(cfg, caches, jobs[j]);
    forall i: nat | i < |caches|
      ensures caches'[i].stats == Plus(caches[i].stats, JobCounts(cfg, caches, jobs[j], i))
    {
      CountsOverJob(cfg, jobs, j, n, n', i);
    }
    if TakesDirty(cfg, caches, jobs[j]) {
      TotalOneMore(caches, caches', BusReadXs, jobs[j].threadId);
      TotalOneMore(caches, caches', WriteBacks, owner);
    } else {
      TotalSame(caches, caches', BusReadXs);
      TotalSame(caches, caches', WriteBacks);
    }
  }

  lemma BetweenWidths(cfg: Config, jobs: seq<Job>, j: nat, n: nat, n': nat)
    requires ValidConfig(cfg) && j < |jobs| && ServedBetween(cfg, jobs, j, n, n')
    ensures |After(cfg, jobs, n).caches| == |After(cfg, jobs, n').caches| == cfg.numProcessors
    ensures jobs[j].threadId < cfg.numProcessors
  {
    hide Run, InitialSystem, Satisfied, JobCycles, ColumnOf, BlockOf, Sound, Fits;
    RunsAreSound(cfg, jobs, n);
    SoundWidth(cfg, After(cfg, jobs, n), 0);
    RunsAreSound(cfg, jobs, n');
    SoundWidth(cfg, After(cfg, jobs, n'), 0);
  }

  lemma HeardByJob(cfg: Config, jobs: seq<Job>, j: nat, n: nat, n': nat)
    requires ValidConfig(cfg) && j < |jobs| && ServedBetween(cfg, jobs, j, n, n')
    ensures Coherent(cfg.protocol,
                     BlockState(ColumnOf(cfg, After(cfg, jobs, n).caches, SnoopedTag(BlockOf(cfg, jobs[j].address))),
                                None))
  {
    hide Run, InitialSystem, Satisfied, JobCycles, ColumnOf, BlockOf, Sound, Fits, SnoopedTag, Coherent;
    RunsAreSound(cfg, jobs, n);
    SnoopedTagFits(BlockOf(cfg, jobs[j].address));
    RestingColumn(cfg, After(cfg, jobs, n), SnoopedTag(BlockOf(cfg, jobs[j].address)));
  }

  /** MESI, any trace: all BusRdX that the caches count are as many as all their write backs. */
  lemma {:induction false} OwnershipAddsUp(cfg: Config, jobs: seq<Job>, times: seq<nat>, count: nat)
    requires ValidConfig(cfg) && cfg.protocol == MESI && count <= |jobs| && |times| == |jobs| + 1 && times[0] == 0
    requires forall j | 0 <= j < |jobs| :: ServedBetween(cfg, jobs, j, times[j], times[j + 1])
    ensures Total(After(cfg, jobs, times[count]).caches, BusReadXs)
            == Total(After(cfg, jobs, times[count]).caches, WriteBacks)
  {
    hide After, ServedBetween, Total;
    if count == 0 {
      NothingOwned(cfg, jobs);
    } else {
      OwnershipAddsUp(cfg, jobs, times, count - 1);
      OwnershipIsWrittenBack(cfg, jobs, count - 1, times[count - 1], times[count]);
    }
  }

  lemma NothingOwned(cfg: Config, jobs: seq<Job>)
    ensures Total(After(cfg, jobs, 0).caches, BusReadXs) == Total(After(cfg, jobs, 0).caches, WriteBacks)
  {
    hide EmptyWays, Total;
    NothingSummed(After(cfg, jobs, 0).caches);
  }

  lemma {:induction false} NothingSummed(caches: seq<CacheState>)
    requires forall i | 0 <= i < |caches| :: caches[i].stats == NO_STATS
    ensures Total(caches, BusReadXs) == 0 && Total(caches, WriteBacks) == 0
  {
    if |caches| > 0 {
      NothingSummed(caches[..|caches| - 1]);
    }
  }

  /** MESI, any trace: when the loop stops, all BusRdX that the caches print are as many as all their write
      backs. */
  lemma PrintedOwnership(cfg: Config, jobs: seq<Job>) returns (n: nat)
    requires ValidConfig(cfg) && cfg.protocol == MESI
             && forall j | 0 <= j < |jobs| :: jobs[j].threadId < cfg.numProcessors
    ensures Done(After(cfg, jobs, n))
    ensures Total(After(cfg, jobs, n).caches, BusReadXs) == Total(After(cfg, jobs, n).caches, WriteBacks)
  {
    hide After, ServedBetween, Total, Done;
    var times := TraceIsServed(cfg, jobs, |jobs|);
    n := times[|jobs|];
    OwnershipAddsUp(cfg, jobs, times, |jobs|);
  }

  /** In Dragon: cache i writes a block that another cache has, and tells it so. */
  ghost predicate UpdatesBy(cfg: Config, caches: seq<CacheState>, job: Job, i: nat)
    requires job.threadId < |caches|
  {
    var own := StateIn(cfg, caches[job.threadId], BlockOf(cfg, job.address));
    && job.threadId == i && IsWrite(job)
    && (own == SharedClean || own == SharedDirty
        || (own == Invalid
            && Helped(DRAGON, ColumnOf(cfg, caches, SnoopedTag(BlockOf(cfg, job.address))), job.threadId)))
  }

  lemma DragonJob(cfg: Config, caches: seq<CacheState>, job: Job, i: nat)
    requires cfg.protocol == DRAGON && job.threadId < |caches| && i < |caches|
    requires InProtocol(DRAGON, StateIn(cfg, caches[job.threadId], BlockOf(cfg, job.address)))
    ensures var x := JobCounts(cfg, caches, job, i);
            x.numBusRequests == x.numReadMisses + x.numWriteMisses + One(UpdatesBy(cfg, caches, job, i))
  {
    hide StateIn, BlockOf, SnoopedTag, Helped, DirtyElsewhere, ColumnOf;
  }

  /** How many of the first `count` jobs are updates by cache i. */
  ghost function UpdatesUpTo(cfg: Config, jobs: seq<Job>, times: seq<nat>, i: nat, count: nat): nat
    requires count <= |jobs| && count < |times|
    requires forall j | 0 <= j < count :: jobs[j].threadId < |After(cfg, jobs, times[j]).caches|
  {
    if count == 0 then 0
    else UpdatesUpTo(cfg, jobs, times, i, count - 1)
         + One(UpdatesBy(cfg, After(cfg, jobs, times[count - 1]).caches, jobs[count - 1], i))
  }

  lemma HeldInProtocol(cfg: Config, jobs: seq<Job>, n: nat, k: nat, t: nat)
    requires ValidConfig(cfg) && k < |After(cfg, jobs, n).caches|
    ensures InProtocol(cfg.protocol, StateIn(cfg, After(cfg, jobs, n).caches[k], t))
  {
    hide After, StateIn, InProtocol, GoodSets;
    RunsAreOrderly(cfg, jobs, n);
    var s := After(cfg, jobs, n);
    assert GoodSets(cfg, s.cycle, s.caches[k].localCache);
    HasLineIsState(cfg, s.cycle, s.caches[k], t);
  }

  /** In Dragon every bus request is a miss or an update, in every cache and up to every job of a trace. */
  lemma {:induction false} DragonRequests(cfg: Config, jobs: seq<Job>, times: seq<nat>, i: nat, count: nat)
    requires ValidConfig(cfg) && cfg.protocol == DRAGON && count <= |jobs| && |times| == |jobs| + 1 && times[0] == 0
    requires forall j | 0 <= j < |jobs| :: ServedBetween(cfg, jobs, j, times[j], times[j + 1])
    requires i < cfg.numProcessors
    ensures forall j | 0 <= j <= count :: |After(cfg, jobs, times[j]).caches| == cfg.numProcessors
    ensures forall j | 0 <= j < count :: jobs[j].threadId < cfg.numProcessors
    ensures var x := After(cfg, jobs, times[count]).caches[i].stats;
            x.numBusRequests == x.numReadMisses + x.numWriteMisses + UpdatesUpTo(cfg, jobs, times, i, count)
  {
    hide After, ServedBetween, JobCounts, UpdatesBy, StateIn, BlockOf, InProtocol;
    if count == 0 {
      StartsWithNothing(cfg, jobs, i);
    } else {
      DragonRequests(cfg, jobs, times, i, count - 1);
      CountsOverJob(cfg, jobs, count - 1, times[count - 1], times[count], i);
      var job := jobs[count - 1];
      HeldInProtocol(cfg, jobs, times[count - 1], job.threadId, BlockOf(cfg, job.address));
      DragonJob(cfg, After(cfg, jobs, times[count - 1]).caches, job, i);
    }
  }
}
