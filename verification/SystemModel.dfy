/** The bus (AtomicBusManager.cpp) and the main loop (CacheController.cpp) as functions on the value
    of the whole simulator. One `Step` is one iteration of the loop. */
module SystemModel {
  import opened Wrappers
  import opened Constants
  import opened Requests
  import opened CacheModel

  datatype BusState = BusState(currentCache: int, inUse: bool, startCycle: nat, endCycle: nat, isShared: bool)

  datatype SystemState = SystemState(cycle: nat, outstanding: seq<Job>, caches: seq<CacheState>, bus: BusState)

  // ---------------------------------------------------------------------------------------------
  // The bus.

  /** What the broadcast loop works on. `foundShared` is its local variable. */
  datatype Broadcast = Broadcast(caches: seq<CacheState>, endCycle: nat, isShared: bool, foundShared: bool)

  function AddCost(c: CacheState, extra: int): CacheState {
    c.(jobCycleCost := c.jobCycleCost + extra)
  }

  function CountWriteBack(c: CacheState): CacheState {
    c.(stats := c.stats.(numWriteBacks := c.stats.numWriteBacks + 1))
  }

  function CountBusReadX(c: CacheState): CacheState {
    c.(stats := c.stats.(numBusReadX := c.stats.numBusReadX + 1))
  }

  /** What the bus makes of one reply: `snooper` and `requester` are the two caches involved. */
  datatype Effect = Effect(snooper: CacheState, requester: CacheState, endCycle: nat, isShared: bool, foundShared: bool)

  function TakeReply(cfg: Config, reply: SnoopResult, request: Request, e: Effect): Effect {
    match cfg.protocol
    case MSI =>
      if reply == FLUSH_MODIFIED_TO_SHARED || reply == FLUSH_MODIFIED_TO_INVALID then
        e.(snooper := CountWriteBack(e.snooper),
           requester := CountMemoryUse(AddCost(e.requester, MEMORY_COST)),
           endCycle := e.endCycle + MEMORY_COST)
      else e
    case MESI =>
      if reply == FLUSH_MODIFIED_TO_INVALID then
        e.(snooper := CountWriteBack(e.snooper),
           requester := CountMemoryUse(CountBusReadX(AddCost(e.requester, PEER_COST))),
           endCycle := e.endCycle + PEER_COST, isShared := true)
      else if reply == FLUSH_MODIFIED_TO_SHARED then
        e.(requester := CountMemoryUse(AddCost(e.requester, PEER_COST)),
           endCycle := e.endCycle + PEER_COST, isShared := true)
      else if reply == SHARED then
        if e.foundShared then e.(isShared := true)
        else e.(requester := e.requester.(jobCycleCost := PEER_COST),
                endCycle := UnsignedSum(e.endCycle, -(MEMORY_COST - PEER_COST)), isShared := true, foundShared := true)
      else e
    case DRAGON => e.(isShared := request.sharedLine)
    case MOESI =>
      if reply == MODIFIED || reply == EXCLUSIVE || reply == OWNED then
        if request.cycleCost == CACHE_HIT_COST then e.(isShared := true)
        else e.(requester := e.requester.(jobCycleCost := PEER_COST),
                endCycle := UnsignedSum(e.endCycle, -(MEMORY_COST - PEER_COST)), isShared := true)
      else e
  }

  /** One iteration of the broadcast loop: cache `i` snoops the request of cache `k`. The request is
      one object, so a raised flag shows in the requester too. */
  function BroadcastTo(cfg: Config, cycle: nat, k: nat, i: nat, b: Broadcast): Broadcast
    requires k < |b.caches| && i < |b.caches|
    ensures |BroadcastTo(cfg, cycle, k, i, b).caches| == |b.caches|
  {
    if i == k || b.caches[k].busRequest.None? then b
    else
      var snooped := Snoop(cfg, cycle, b.caches[i], b.caches[k].busRequest.value);
      var requester := b.caches[k].(busRequest := Some(snooped.request));
      var e := TakeReply(cfg, snooped.reply, snooped.request,
                         Effect(snooped.cache, requester, b.endCycle, b.isShared, b.foundShared));
      Broadcast(b.caches[i := e.snooper][k := e.requester], e.endCycle, e.isShared, e.foundShared)
  }

  /** The first n iterations. */
  function BroadcastUpTo(cfg: Config, cycle: nat, k: nat, n: nat, b: Broadcast): Broadcast
    requires k < |b.caches| && n <= |b.caches|
    ensures |BroadcastUpTo(cfg, cycle, k, n, b).caches| == |b.caches|
  {
    if n == 0 then b else BroadcastTo(cfg, cycle, k, n - 1, BroadcastUpTo(cfg, cycle, k, n - 1, b))
  }

  /** The first cache with a request pending, |caches| if there is none. */
  function FirstRequest(caches: seq<CacheState>): (k: nat)
    ensures k <= |caches|
    ensures k < |caches| ==> caches[k].haveBusRequest
    ensures forall j | 0 <= j < k :: !caches[j].haveBusRequest
  {
    if |caches| == 0 || caches[0].haveBusRequest then 0 else 1 + FirstRequest(caches[1..])
  }

  function CountBusRequest(c: CacheState): CacheState {
    c.(stats := c.stats.(numBusRequests := c.stats.numBusRequests + 1))
  }

  function RequestCost(c: CacheState): int {
    match c.busRequest
    case None => 0
    case Some(request) => request.cycleCost
  }

  /** The broadcast starts with the requester marked as being served. */
  function GrantStart(s: SystemState, k: nat): Broadcast
    requires k < |s.caches|
  {
    var requester := CountBusRequest(StartService(s.cycle, s.caches[k]));
    Broadcast(s.caches[k := requester], UnsignedSum(s.cycle, RequestCost(requester)), s.bus.isShared, false)
  }

  /** After the broadcast; in MESI a block nobody answered for with SHARED counts as read from memory. */
  function Granted(cfg: Config, s: SystemState, k: nat, b: Broadcast): SystemState
    requires k < |b.caches|
  {
    s.(caches := if !b.foundShared && cfg.protocol == MESI then b.caches[k := CountMemoryUse(b.caches[k])]
       else b.caches, bus := BusState(k, true, s.cycle, b.endCycle, b.isShared))
  }

  /** Give the bus to cache k and broadcast its request. */
  function GrantTo(cfg: Config, s: SystemState, k: nat): SystemState
    requires k < |s.caches|
  {
    Granted(cfg, s, k, BroadcastUpTo(cfg, s.cycle, k, |s.caches|, GrantStart(s, k)))
  }

  function Grant(cfg: Config, s: SystemState): SystemState {
    var k := FirstRequest(s.caches);
    if k == |s.caches| then s.(bus := s.bus.(inUse := false, isShared := false))
    else GrantTo(cfg, s, k)
  }

  /** The current transaction is over. */
  function FinishTransaction(cfg: Config, s: SystemState): SystemState {
    if 0 <= s.bus.currentCache < |s.caches| then
      var k := s.bus.currentCache;
      var c := StartService(s.cycle, s.caches[k]);
      var c1 := if cfg.protocol == MSI && c.busRequest.Some?
          && c.busRequest.value.command == BusRdX then CountBusReadX(c) else c;
      s.(caches := s.caches[k := BusJobDone(cfg, s.cycle, c1, s.bus.isShared)],
         bus := s.bus.(currentCache := -1, inUse := false, isShared := false))
    else s
  }

  function BusTick(cfg: Config, s: SystemState): SystemState {
    if s.bus.inUse && s.cycle < s.bus.endCycle then s
    else Grant(cfg, if s.bus.inUse then FinishTransaction(cfg, s) else s)
  }

  // ---------------------------------------------------------------------------------------------
  // The main loop.

  function InitialSystem(cfg: Config, jobs: seq<Job>): SystemState {
    SystemState(0, jobs, seq(cfg.numProcessors, _ => InitialCache(cfg)), BusState(0, false, 0, 0, false))
  }

  predicate NoJobs(caches: seq<CacheState>) {
    forall i | 0 <= i < |caches| :: !caches[i].busy
  }

  /** The loop stops. */
  predicate Done(s: SystemState) {
    NoJobs(s.caches) && |s.outstanding| == 0
  }

  function GiveJob(c: CacheState, job: Job): CacheState {
    c.(pendingJobs := c.pendingJobs + [job])
  }

  /** Hand the next job of the trace to the processor it names. */
  function Dispatch(s: SystemState): SystemState {
    if |s.outstanding| == 0 then s
    else
      var job := s.outstanding[0];
      var rest := s.(outstanding := s.outstanding[1..]);
      if job.threadId < |s.caches|
      then rest.(caches := s.caches[job.threadId := GiveJob(s.caches[job.threadId], job)])
      else rest
  }

  function TickCaches(cfg: Config, cycle: nat, caches: seq<CacheState>): seq<CacheState> {
    seq(|caches|, i requires 0 <= i < |caches| => CacheTick(cfg, cycle, caches[i]))
  }

  function BeforeBus(cfg: Config, s: SystemState): SystemState {
    var s1 := s.(cycle := s.cycle + 1);
    var s2 := if NoJobs(s1.caches) then Dispatch(s1) else s1;
    s2.(caches := TickCaches(cfg, s2.cycle, s2.caches))
  }

  /** One iteration of the loop; a stopped loop stays as it is. */
  function Step(cfg: Config, s: SystemState): SystemState {
    if Done(s) then s else BusTick(cfg, BeforeBus(cfg, s))
  }

  function Run(cfg: Config, s: SystemState, n: nat): SystemState {
    if n == 0 then s else Step(cfg, Run(cfg, s, n - 1))
  }

  lemma {:induction false} RunAdds(cfg: Config, s: SystemState, m: nat, n: nat)
    ensures Run(cfg, s, m + n) == Run(cfg, Run(cfg, s, m), n)
  {
    hide Step;
    if n > 0 {
      RunAdds(cfg, s, m, n - 1);
    }
  }
}
