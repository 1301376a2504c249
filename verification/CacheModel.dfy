/** A private cache as a value, and what each of its methods (Cache.cpp) does to it. The methods of
    class Cache are proved to compute these functions; the properties are proved about them. */
module CacheModel {
  import opened Wrappers
  import opened Constants
  import opened Requests
  import opened Sets

  datatype Stats = Stats(
    numHit: nat, numMiss: nat, numExclusiveToModifiedTransitions: nat,
    numReads: nat, numReadMisses: nat, numReadHits: nat,
    numWrites: nat, numWriteMisses: nat, numWriteHits: nat, numWriteShared: nat,
    numWriteBacks: nat, numCacheShare: nat, numInterventions: nat, numInvalidations: nat,
    numFlush: nat, numMainMemoryUses: nat, numBusRequests: nat, numBusReadX: nat)

  const NO_STATS := Stats(0, 0, 0, 0, 0, 0, 0, 0, 0, 0, 0, 0, 0, 0, 0, 0, 0, 0)

  datatype CacheState = CacheState(
    localCache: seq<Ways>, pendingJobs: seq<Job>, currentJob: Option<Job>, busRequest: Option<Request>,
    haveBusRequest: bool, busy: bool, busRequestBeingServiced: bool,
    startServiceCycle: nat, jobCycleCost: int, stats: Stats)

  function EmptyWays(cfg: Config): Ways {
    seq(cfg.numLinesInSet, _ => Line(0, Invalid, 0))
  }

  function InitialCache(cfg: Config): CacheState {
    CacheState(seq(cfg.numSets, _ => EmptyWays(cfg)), [], None, None, false, false, false, 0, 0, NO_STATS)
  }

  // ---------------------------------------------------------------------------------------------
  // Lines.

  /** The set a block maps to. */
  function WaysOf(cfg: Config, c: CacheState, block: nat): Ways {
    if SetOf(cfg, block) < |c.localCache| then c.localCache[SetOf(cfg, block)] else []
  }

  function WithWays(cfg: Config, c: CacheState, block: nat, ways: Ways): CacheState {
    if SetOf(cfg, block) < |c.localCache| then c.(localCache := c.localCache[SetOf(cfg, block) := ways]) else c
  }

  /** The state in which a cache holds a block. */
  function StateIn(cfg: Config, c: CacheState, block: nat): State {
    StateOf(WaysOf(cfg, c, block), block)
  }

  predicate HasLine(cfg: Config, c: CacheState, block: nat) {
    Has(WaysOf(cfg, c, block), block)
  }

  /** `lineInState(state)` answers `SeenState == state`; it fetches the line, if it is there. */
  function SeenState(cfg: Config, c: CacheState, block: nat): State {
    if HasLine(cfg, c, block) then StateIn(cfg, c, block) else Invalid
  }

  function TouchLine(cfg: Config, cycle: nat, c: CacheState, block: nat): CacheState {
    WithWays(cfg, c, block, Touch(WaysOf(cfg, c, block), block, cycle))
  }

  /** Fetch the line if it is there: what `lineInState` and `updateCurrentJobLineCycle` do to it. */
  function ProbeLine(cfg: Config, cycle: nat, c: CacheState, block: nat): CacheState {
    if HasLine(cfg, c, block) then TouchLine(cfg, cycle, c, block) else c
  }

  function PutLine(cfg: Config, cycle: nat, c: CacheState, block: nat, state: State): CacheState {
    WithWays(cfg, c, block, SetState(WaysOf(cfg, c, block), block, state, cycle))
  }

  /** `setLineState`. */
  function SetLineState(cfg: Config, cycle: nat, c: CacheState, block: nat, state: State): CacheState {
    if HasLine(cfg, c, block) then PutLine(cfg, cycle, c, block, state) else c
  }

  // ---------------------------------------------------------------------------------------------
  // Serving a job.

  /** A hit: the job needs no bus. */
  function StartHit(cycle: nat, c: CacheState): CacheState {
    c.(startServiceCycle := cycle, jobCycleCost := CACHE_HIT_COST, busy := true, haveBusRequest := false)
  }

  function AskBus(cfg: Config, c: CacheState, command: Command, address: nat, cost: int): CacheState {
    var block := BlockOf(cfg, address);
    c.(haveBusRequest := true, busy := true,
       busRequest := Some(Request(command, SetOf(cfg, block), ToInt(block), ToInt(cost), address, false)))
  }

  /** `getTotalMemoryCost`; the surcharge for evicting a dirty line needs a full set, and no set is. */
  function TotalMemoryCost(cfg: Config, cycle: nat): int {
    match cfg.protocol
    case MSI => MEMORY_COST
    case MESI => PEER_COST
    case DRAGON => PEER_COST
    case MOESI => cfg.unset(cycle)
  }

  function CountWriteHit(c: CacheState): CacheState {
    c.(stats := c.stats.(numHit := c.stats.numHit + 1, numWriteHits := c.stats.numWriteHits + 1))
  }

  /** `handleWriteModified` on a modified line. */
  function WriteModified(cycle: nat, c: CacheState): CacheState {
    CountWriteHit(StartHit(cycle, c))
  }

  /** `handleWriteExclusive` on an exclusive line. */
  function WriteExclusive(cfg: Config, cycle: nat, c: CacheState, address: nat): CacheState {
    var c1 := CountWriteHit(StartHit(cycle, c));
    SetLineState(cfg, cycle,
                 c1.(stats :=
                     c1.stats.(numExclusiveToModifiedTransitions := c1.stats.numExclusiveToModifiedTransitions + 1)),
                 BlockOf(cfg, address), Modified)
  }

  /** `handleWriteSharedInvalid`: ask for ownership, and already mark an own copy modified. */
  function WriteSharedInvalid(cfg: Config, cycle: nat, c: CacheState, address: nat): CacheState {
    var block := BlockOf(cfg, address);
    var c1 := if SeenState(cfg, c, block) == Shared
              then c.(stats :=
                      c.stats.(numWriteShared := c.stats.numWriteShared + 1, numWriteHits := c.stats.numWriteHits + 1))
              else c;
    var cost := TotalMemoryCost(cfg, cycle);
    SetLineState(cfg, cycle, AskBus(cfg, c1, BusRdX, address, cost).(jobCycleCost := cost), block, Modified)
  }

  /** Ask the bus at the cost of a hit, counting one, for a line that becomes `state` at once: a Dragon
      update, or an upgrade of an owned line in MOESI. */
  function WriteUpgrade(cfg: Config, cycle: nat, c: CacheState, address: nat, state: State): CacheState {
    var c1 := AskBus(cfg, c, BusRdX, address, CACHE_HIT_COST);
    SetLineState(cfg, cycle, c1.(stats := c1.stats.(numHit := c1.stats.numHit + 1), jobCycleCost := CACHE_HIT_COST),
                 BlockOf(cfg, address), state)
  }

  /** A Dragon write miss first reads the block. */
  function WriteMissDragon(cfg: Config, c: CacheState, address: nat): CacheState {
    var c1 := AskBus(cfg, c, BusRd, address, CACHE_HIT_COST);
    c1.(stats := c1.stats.(numWriteMisses := c1.stats.numWriteMisses + 1), jobCycleCost := CACHE_HIT_COST)
  }

  function HandleWrite(cfg: Config, cycle: nat, c: CacheState, address: nat): CacheState {
    var seen := SeenState(cfg, c, BlockOf(cfg, address));
    var c1 := ProbeLine(cfg, cycle, c, BlockOf(cfg, address));
    match cfg.protocol
    case MSI =>
      if seen == Modified then WriteModified(cycle, c1)
      else WriteSharedInvalid(cfg, cycle, c1, address)
    case MESI =>
      if seen == Modified then WriteModified(cycle, c1)
      else if seen == Exclusive then WriteExclusive(cfg, cycle, c1, address)
      else WriteSharedInvalid(cfg, cycle, c1, address)
    case DRAGON =>
      if seen == SharedClean then WriteUpgrade(cfg, cycle, c1, address, SharedDirty)
      else if seen == Exclusive then WriteExclusive(cfg, cycle, c1, address)
      else if seen == Modified then WriteModified(cycle, c1)
      else if seen == SharedDirty then WriteUpgrade(cfg, cycle, c1, address, SharedDirty)
      else WriteMissDragon(cfg, c1, address)
    case MOESI =>
      if seen == Shared then WriteSharedInvalid(cfg, cycle, c1, address)
      else if seen == Exclusive then WriteExclusive(cfg, cycle, c1, address)
      else if seen == Modified then WriteModified(cycle, c1)
      else if seen == Owned then WriteUpgrade(cfg, cycle, c1, address, Modified)
      else WriteSharedInvalid(cfg, cycle, c1, address)
  }

  /** The states `handleReadHit` accepts. */
  predicate Readable(state: State) {
    state == Modified || state == Shared || state == Exclusive || state == Owned
  }

  /** `handleReadHit` on a readable line. */
  function ReadHit(cycle: nat, c: CacheState): CacheState {
    var c1 := StartHit(cycle, c);
    c1.(stats := c1.stats.(numReadHits := c1.stats.numReadHits + 1, numHit := c1.stats.numHit + 1))
  }

  /** `handleReadMiss`; note that it leaves `jobCycleCost` as the last job left it. */
  function ReadMiss(cfg: Config, c: CacheState, address: nat): CacheState {
    var c1 := AskBus(cfg, c, BusRd, address, MEMORY_COST);
    c1.(stats := c1.stats.(numMiss := c1.stats.numMiss + 1))
  }

  function CountReadMiss(c: CacheState): CacheState {
    c.(stats := c.stats.(numReadMisses := c.stats.numReadMisses + 1))
  }

  function ReadMissDragon(cfg: Config, cycle: nat, c: CacheState, address: nat): CacheState {
    var cost := TotalMemoryCost(cfg, cycle);
    CountReadMiss(AskBus(cfg, c, BusRd, address, cost).(jobCycleCost := cost))
  }

  function HandleRead(cfg: Config, cycle: nat, c: CacheState, address: nat): CacheState {
    var seen := SeenState(cfg, c, BlockOf(cfg, address));
    var c1 := ProbeLine(cfg, cycle, c, BlockOf(cfg, address));
    match cfg.protocol
    case MSI =>
      if HasLine(cfg, c, BlockOf(cfg, address)) then if Readable(seen) then ReadHit(cycle, c1) else c1
      else CountReadMiss(ReadMiss(cfg, c, address))
    case MESI =>
      if HasLine(cfg, c, BlockOf(cfg, address)) then if Readable(seen) then ReadHit(cycle, c1) else c1
      else CountReadMiss(ReadMiss(cfg, c, address))
    case DRAGON =>
      if seen == Modified || seen == Exclusive || seen == SharedClean || seen == SharedDirty then StartHit(cycle, c1)
      else ReadMissDragon(cfg, cycle, c1, address)
    case MOESI =>
      if Readable(seen) then ReadHit(cycle, c1) else ReadMiss(cfg, c1, address)
  }

  function CountWrite(c: CacheState): CacheState {
    c.(stats := c.stats.(numWrites := c.stats.numWrites + 1))
  }

  function CountRead(c: CacheState): CacheState {
    c.(stats := c.stats.(numReads := c.stats.numReads + 1))
  }

  /** `handleRequest` once the job is taken off the queue; a job that is neither a read nor a write
      is dropped. */
  function HandleJob(cfg: Config, cycle: nat, c: CacheState, job: Job): CacheState {
    if IsWrite(job) then HandleWrite(cfg, cycle, CountWrite(c), job.address)
    else if IsRead(job) then HandleRead(cfg, cycle, CountRead(c), job.address)
    else c
  }

  function HandleRequest(cfg: Config, cycle: nat, c: CacheState): CacheState {
    if c.busy || |c.pendingJobs| == 0 then c
    else HandleJob(cfg, cycle, c.(currentJob := Some(c.pendingJobs[0]), pendingJobs := c.pendingJobs[1..]),
                   c.pendingJobs[0])
  }

  /** `updateCurrentJobLineCycle`, which also frees the cache. */
  function FinishJob(cfg: Config, cycle: nat, c: CacheState): CacheState {
    match c.currentJob
    case None => c.(busy := false)
    case Some(job) => ProbeLine(cfg, cycle, c.(busy := false), BlockOf(cfg, job.address))
  }

  function CacheTick(cfg: Config, cycle: nat, c: CacheState): CacheState {
    if c.busRequestBeingServiced then c
    else
      var c1 := if UnsignedSum(c.startServiceCycle, c.jobCycleCost) <= cycle then FinishJob(cfg, cycle, c) else c;
      if !c1.busy && |c1.pendingJobs| != 0 then HandleRequest(cfg, cycle, c1) else c1
  }

  /** `getBusRequest`, apart from its result. */
  function StartService(cycle: nat, c: CacheState): CacheState {
    c.(startServiceCycle := cycle, busRequestBeingServiced := true)
  }

  // ---------------------------------------------------------------------------------------------
  // Snooping.

  datatype SnoopResult =
    | SHARED | FLUSH_MODIFIED_TO_SHARED | FLUSH_MODIFIED_TO_INVALID | EXCLUSIVE | OWNED | MODIFIED | NONE
    | SHAREDCLEAN | SHAREDDIRTY | EXCLUSIVETOSHARED | MODIFIEDTOSHARED

  /** The state a snooped line goes to. */
  function SnoopState(protocol: Protocol, command: Command, state: State): State {
    match (protocol, command, state)
    case (MSI, BusRd, Modified) => Shared
    case (MSI, BusRdX, Modified) => Invalid
    case (MSI, BusRdX, Shared) => Invalid
    case (MESI, BusRd, Modified) => Shared
    case (MESI, BusRd, Exclusive) => Shared
    case (MESI, BusRdX, Modified) => Invalid
    case (MESI, BusRdX, Exclusive) => Invalid
    case (MESI, BusRdX, Shared) => Invalid
    case (DRAGON, BusRd, Modified) => SharedDirty
    case (DRAGON, BusRd, Exclusive) => SharedClean
    case (DRAGON, BusRdX, SharedDirty) => SharedClean
    case (MOESI, BusRd, Modified) => Owned
    case (MOESI, BusRd, Exclusive) => Shared
    case (MOESI, BusRdX, Owned) => Invalid
    case (MOESI, BusRdX, Modified) => Invalid
    case (MOESI, BusRdX, Exclusive) => Invalid
    case (MOESI, BusRdX, Shared) => Invalid
    case _ => state
  }

  function SnoopReply(protocol: Protocol, command: Command, state: State): SnoopResult {
    match (protocol, command, state)
    case (MSI, BusRd, Shared) => SHARED
    case (MSI, BusRd, Modified) => FLUSH_MODIFIED_TO_SHARED
    case (MSI, BusRdX, Shared) => SHARED
    case (MSI, BusRdX, Modified) => FLUSH_MODIFIED_TO_INVALID
    case (MESI, BusRd, Shared) => SHARED
    case (MESI, BusRd, Modified) => FLUSH_MODIFIED_TO_SHARED
    case (MESI, BusRd, Exclusive) => SHARED
    case (MESI, BusRdX, Shared) => SHARED
    case (MESI, BusRdX, Exclusive) => SHARED
    case (MESI, BusRdX, Modified) => FLUSH_MODIFIED_TO_INVALID
    case (DRAGON, BusRd, SharedDirty) => SHAREDDIRTY
    case (DRAGON, BusRd, Modified) => MODIFIEDTOSHARED
    case (DRAGON, BusRd, SharedClean) => SHAREDCLEAN
    case (DRAGON, BusRd, Exclusive) => EXCLUSIVETOSHARED
    case (DRAGON, BusRdX, SharedDirty) => SHAREDCLEAN
    case (MOESI, BusRd, Owned) => OWNED
    case (MOESI, BusRd, Modified) => MODIFIED
    case (MOESI, BusRd, Shared) => SHARED
    case (MOESI, BusRd, Exclusive) => EXCLUSIVE
    case (MOESI, BusRdX, Owned) => OWNED
    case (MOESI, BusRdX, Modified) => MODIFIED
    case (MOESI, BusRdX, Exclusive) => EXCLUSIVE
    case _ => NONE
  }

  /** The counters a snoop moves. */
  function SnoopStats(protocol: Protocol, command: Command, state: State, s: Stats): Stats {
    match (protocol, command, state)
    case (MSI, BusRd, Modified) => s.(numFlush := s.numFlush + 1, numInterventions := s.numInterventions + 1)
    case (MSI, BusRdX, Modified) => s.(numFlush := s.numFlush + 1, numInvalidations := s.numInvalidations + 1)
    case (MSI, BusRdX, Shared) => s.(numInvalidations := s.numInvalidations + 1)
    case (MESI, BusRd, Modified) => s.(numFlush := s.numFlush + 1, numInterventions := s.numInterventions + 1)
    case (MESI, BusRd, Exclusive) => s.(numInterventions := s.numInterventions + 1)
    case (MESI, BusRdX, Modified) => s.(numFlush := s.numFlush + 1, numInvalidations := s.numInvalidations + 1)
    case (MESI, BusRdX, Exclusive) => s.(numInvalidations := s.numInvalidations + 1)
    case (MESI, BusRdX, Shared) => s.(numInvalidations := s.numInvalidations + 1)
    case (DRAGON, BusRd, SharedDirty) => s.(numFlush := s.numFlush + 1)
    case (DRAGON, BusRd, Modified) => s.(numFlush := s.numFlush + 1, numInterventions := s.numInterventions + 1)
    case (DRAGON, BusRd, Exclusive) => s.(numInterventions := s.numInterventions + 1)
    case (MOESI, BusRd, Owned) => s.(numCacheShare := s.numCacheShare + 1)
    case (MOESI, BusRd, Modified) => s.(numCacheShare := s.numCacheShare + 1)
    case (MOESI, BusRd, Exclusive) => s.(numCacheShare := s.numCacheShare + 1)
    case (MOESI, BusRdX, Owned) => s.(numCacheShare := s.numCacheShare + 1)
    case (MOESI, BusRdX, Modified) => s.(numCacheShare := s.numCacheShare + 1)
    case (MOESI, BusRdX, Exclusive) => s.(numCacheShare := s.numCacheShare + 1)
    case _ => s
  }

  /** Only a Dragon read makes a holder raise the request's shared flag. */
  predicate RaisesShared(protocol: Protocol, command: Command, state: State) {
    protocol == DRAGON && command == BusRd
    && (state == SharedDirty || state == Modified || state == SharedClean || state == Exclusive)
  }

  datatype Snooped = Snooped(cache: CacheState, reply: SnoopResult, request: Request)

  /** The ways the snooper searches: those of the request's set. */
  function SnoopedWays(c: CacheState, request: Request): Ways {
    if request.lineSet < |c.localCache| then c.localCache[request.lineSet] else []
  }

  function Snoop(cfg: Config, cycle: nat, c: CacheState, request: Request): Snooped {
    var tag := ToUnsignedLong(request.lineTag);
    var ways := SnoopedWays(c, request);
    if Has(ways, tag) && request.lineSet < |c.localCache| then
      var state := StateOf(ways, tag);
      var ways' := SetState(ways, tag, SnoopState(cfg.protocol, request.command, state), cycle);
      Snooped(c.(localCache := c.localCache[request.lineSet := ways'],
                 stats := SnoopStats(cfg.protocol, request.command, state, c.stats)),
                     SnoopReply(cfg.protocol, request.command, state),
                         if RaisesShared(cfg.protocol, request.command, state) then request.(sharedLine := true)
                             else request)
    else
      Snooped(c, NONE, request)
  }

  // ---------------------------------------------------------------------------------------------
  // Completion.

  function CountMemoryUse(c: CacheState): CacheState {
    c.(stats := c.stats.(numMainMemoryUses := c.stats.numMainMemoryUses + 1))
  }

  function CountShare(c: CacheState): CacheState {
    c.(stats := c.stats.(numCacheShare := c.stats.numCacheShare + 1))
  }

  /** The write part of `busJobDone`, once the line is in place. */
  function CompleteWrite(cfg: Config, cycle: nat, c: CacheState, address: nat, isShared: bool): CacheState {
    var block := BlockOf(cfg, address);
    match cfg.protocol
    case MSI => PutLine(cfg, cycle, CountMemoryUse(c), block, Modified)
    case MESI => if isShared then PutLine(cfg, cycle, CountShare(c), block, Modified) else c
    case DRAGON =>
      if isShared then
        PutLine(cfg, cycle, AskBus(cfg, c.(jobCycleCost := PEER_COST), BusRdX, address, PEER_COST), block, SharedDirty)
      else if StateIn(cfg, c, block) == Invalid then CountMemoryUse(PutLine(cfg, cycle, c, block, Modified))
      else CountMemoryUse(c)
    case MOESI =>
      var c1 := if isShared then PutLine(cfg, cycle, c, block, Modified) else c;
      if StateIn(cfg, c1, block) != Owned then PutLine(cfg, cycle, CountMemoryUse(c1), block, Modified) else c1
  }

  /** The read part of `busJobDone`. */
  function CompleteRead(cfg: Config, cycle: nat, c: CacheState, address: nat, isShared: bool): CacheState {
    var block := BlockOf(cfg, address);
    match cfg.protocol
    case MSI => PutLine(cfg, cycle, CountMemoryUse(c), block, Shared)
    case MESI =>
      if isShared then PutLine(cfg, cycle, CountShare(c), block, Shared)
      else PutLine(cfg, cycle, CountMemoryUse(c), block, Exclusive)
    case DRAGON =>
      if isShared then PutLine(cfg, cycle, c, block, SharedClean)
      else PutLine(cfg, cycle, CountMemoryUse(c), block, Exclusive)
    case MOESI =>
      if isShared then PutLine(cfg, cycle, c, block, Shared)
      else PutLine(cfg, cycle, CountMemoryUse(c), block, Exclusive)
  }

  /** Bring the line in if it is absent (`replaceLine`; Dragon has counted its write miss already). */
  function BroughtIn(cfg: Config, cycle: nat, c: CacheState, job: Job): CacheState {
    var block := BlockOf(cfg, job.address);
    if HasLine(cfg, c, block) then c
    else
      var filled := WithWays(cfg, c, block, Replace(WaysOf(cfg, c, block), block, cycle));
      if cfg.protocol != DRAGON && IsWrite(job)
      then filled.(stats := filled.stats.(numWriteMisses := filled.stats.numWriteMisses + 1)) else filled
  }

  /** And fetch it. */
  function PlaceLine(cfg: Config, cycle: nat, c: CacheState, job: Job): CacheState {
    TouchLine(cfg, cycle, BroughtIn(cfg, cycle, c, job), BlockOf(cfg, job.address))
  }

  function BusJobDone(cfg: Config, cycle: nat, c: CacheState, isShared: bool): CacheState {
    match c.currentJob
    case None => c
    case Some(job) =>
      var c1 := PlaceLine(cfg, cycle, c.(haveBusRequest := false, busy := false, busRequestBeingServiced := false),
                          job);
      if IsWrite(job) then CompleteWrite(cfg, cycle, c1, job.address, isShared)
      else if IsRead(job) then CompleteRead(cfg, cycle, c1, job.address, isShared)
      else c1
  }
}
