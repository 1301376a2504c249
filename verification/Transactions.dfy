/** What every cache goes through while a job is served, as equations between the caches before and after. */
module Transactions {
  import opened Wrappers
  import opened Constants
  import opened Requests
  import opened Sets
  import opened CacheModel
  import opened Coherence
  import opened CacheLemmas
  import opened SystemModel
  import opened BusLemmas
  import opened Refinement
  import opened Runs
  import opened Timing
  import opened Serving
  import opened JobResults

  // ---------------------------------------------------------------------------------------------
  // A cache at rest.

  /** The service time of the cache's last job is over. */
  predicate Lapsed(c: CacheState, cycle: nat) {
    UnsignedSum(c.startServiceCycle, c.jobCycleCost) <= cycle
  }

  /** The tick of a cache at rest. */
  function Idle(cfg: Config, cycle: nat, c: CacheState): CacheState {
    if Lapsed(c, cycle) then FinishJob(cfg, cycle, c) else c
  }

  lemma IdleTicks(cfg: Config, cycle: nat, c: CacheState)
    requires Quiet(c) && |c.pendingJobs| == 0
    ensures CacheTick(cfg, cycle, c) == Idle(cfg, cycle, c)
    ensures OnlyLines(c, Idle(cfg, cycle, c))
  {
    hide Has, Touch, SetOf, BlockOf, UnsignedSum;
    assert c.(busy := false) == c;
  }

  lemma TouchAgain(ways: Ways, tag: nat, earlier: nat, later: nat)
    ensures Touch(Touch(ways, tag, earlier), tag, later) == Touch(ways, tag, later)
    ensures Has(Touch(ways, tag, earlier), tag) == Has(ways, tag)
  {
    if Find(ways, tag) < |ways| {
      FindIs(Touch(ways, tag, earlier), tag, Find(ways, tag));
    }
    var ways' := Touch(ways, tag, earlier);
    if i :| 0 <= i < |ways| && ways[i].tag == tag && ways[i].state != Invalid {
      assert ways'[i].tag == tag && ways'[i].state != Invalid;
    }
    if i :| 0 <= i < |ways'| && ways'[i].tag == tag && ways'[i].state != Invalid {
      assert ways[i].tag == tag && ways[i].state != Invalid;
    }
  }

  lemma ProbeAgain(cfg: Config, earlier: nat, later: nat, c: CacheState, block: nat)
    ensures ProbeLine(cfg, later, ProbeLine(cfg, earlier, c, block), block) == ProbeLine(cfg, later, c, block)
  {
    hide Has, Touch, SetOf;
    var ways := WaysOf(cfg, c, block);
    TouchAgain(ways, block, earlier, later);
    if SetOf(cfg, block) < |c.localCache| {
      assert WaysOf(cfg, ProbeLine(cfg, earlier, c, block), block)
             == if Has(ways, block) then Touch(ways, block, earlier) else ways;
      var touched := c.localCache[SetOf(cfg, block) := Touch(ways, block, earlier)];
      assert touched[SetOf(cfg, block) := Touch(ways, block, later)]
             == c.localCache[SetOf(cfg, block) := Touch(ways, block, later)];
    }
  }

  lemma IdleTwice(cfg: Config, earlier: nat, later: nat, c: CacheState)
    requires Quiet(c) && |c.pendingJobs| == 0 && earlier <= later
    ensures Idle(cfg, later, Idle(cfg, earlier, c)) == Idle(cfg, later, c)
  {
    hide ProbeLine, BlockOf, UnsignedSum, OnlyLines;
    IdleTicks(cfg, earlier, c);
    if Lapsed(c, earlier) && c.currentJob.Some? {
      assert c.(busy := false) == c;
      ProbeAgain(cfg, earlier, later, c, BlockOf(cfg, c.currentJob.value.address));
      IdleOnlyLines(cfg, earlier, c);
    }
  }

  lemma IdleOnlyLines(cfg: Config, cycle: nat, c: CacheState)
    requires Quiet(c) && |c.pendingJobs| == 0
    ensures Idle(cfg, cycle, c) == c.(localCache := Idle(cfg, cycle, c).localCache)
  {
    hide Idle;
    IdleTicks(cfg, cycle, c);
  }

  /** All caches but k rest, with empty queues. */
  ghost predicate OthersRest(s: SystemState, k: int) {
    forall i | 0 <= i < |s.caches| && i != k :: Quiet(s.caches[i]) && |s.caches[i].pendingJobs| == 0
  }

  lemma OthersRestOnBus(cfg: Config, s: SystemState)
    requires Sound(cfg, s) && s.bus.inUse
    ensures 0 <= s.bus.currentCache < |s.caches| && OthersRest(s, s.bus.currentCache) && !NoJobs(s.caches)
    ensures s.caches[s.bus.currentCache].busRequestBeingServiced && s.caches[s.bus.currentCache].busy
  {
    hide AllCoherent, Timely, AllGood;
  }

  /** The caches' half of an iteration in which cache k is served on the bus. */
  lemma TickOnBus(cfg: Config, s: SystemState)
    requires Sound(cfg, s) && s.bus.inUse
    ensures var k := s.bus.currentCache;
            var s1 := BeforeBus(cfg, s);
            && s1.cycle == s.cycle + 1 && s1.outstanding == s.outstanding && s1.bus == s.bus
               && |s1.caches| == |s.caches|
            && 0 <= k < |s.caches| && s1.caches[k] == s.caches[k]
            && forall i | 0 <= i < |s.caches| && i != k :: s1.caches[i] == Idle(cfg, s.cycle + 1, s.caches[i])
  {
    hide Sound, Idle, CacheTick, NoJobs;
    OthersRestOnBus(cfg, s);
    var k := s.bus.currentCache;
    BusyTick(cfg, s.cycle + 1, s.caches[k]);
    forall i | 0 <= i < |s.caches| && i != k
      ensures CacheTick(cfg, s.cycle + 1, s.caches[i]) == Idle(cfg, s.cycle + 1, s.caches[i])
    {
      IdleTicks(cfg, s.cycle + 1, s.caches[i]);
    }
  }

  lemma BusyTick(cfg: Config, cycle: nat, c: CacheState)
    requires c.busRequestBeingServiced
    ensures CacheTick(cfg, cycle, c) == c
  {
    hide FinishJob, HandleRequest;
  }

  /** An iteration that only lets time pass. */
  lemma WaitTick(cfg: Config, s: SystemState)
    requires Sound(cfg, s) && Waiting(s)
    ensures Step(cfg, s) == BeforeBus(cfg, s)
  {
    hide Sound, BeforeBus, NoJobs, Grant;
    OthersRestOnBus(cfg, s);
    TickOnBus(cfg, s);
  }

  /** While the bus works for cache k, the others rest until the caches' half of the last iteration. */
  lemma {:induction false} RestThrough(cfg: Config, s: SystemState, m: nat)
    requires Sound(cfg, s) && s.bus.inUse && Sound(cfg, Run(cfg, s, m)) && Run(cfg, s, m).bus.inUse
    requires forall j | 0 <= j < m :: Sound(cfg, Run(cfg, s, j)) && Waiting(Run(cfg, s, j))
    ensures var k := s.bus.currentCache;
            var s1 := BeforeBus(cfg, Run(cfg, s, m));
            && s1.cycle == s.cycle + m + 1 && s1.bus == s.bus && s1.outstanding == s.outstanding
            && |s1.caches| == |s.caches| && 0 <= k < |s.caches| && s1.caches[k] == s.caches[k]
            && forall i | 0 <= i < |s.caches| && i != k :: s1.caches[i] == Idle(cfg, s1.cycle, s.caches[i])
  {
    hide Sound, BeforeBus, Idle, Step, OthersRest;
    TickOnBus(cfg, Run(cfg, s, m));
    if m == 0 {
      NoRun(cfg, s);
    } else {
      RestThrough(cfg, s, m - 1);
      WaitTick(cfg, Run(cfg, s, m - 1));
      RestOnce(cfg, s, m);
    }
  }

  lemma RestOnce(cfg: Config, s: SystemState, m: nat)
    requires Sound(cfg, s) && s.bus.inUse
    ensures var k := s.bus.currentCache;
            0 <= k < |s.caches|
            && forall i | 0 <= i < |s.caches| && i != k ::
                 Idle(cfg, s.cycle + m + 1, Idle(cfg, s.cycle + m, s.caches[i]))
                     == Idle(cfg, s.cycle + m + 1, s.caches[i])
  {
    hide Sound, Idle;
    OthersRestOnBus(cfg, s);
    forall i | 0 <= i < |s.caches| && i != s.bus.currentCache
      ensures Idle(cfg, s.cycle + m + 1, Idle(cfg, s.cycle + m, s.caches[i])) == Idle(cfg, s.cycle + m + 1, s.caches[i])
    {
      IdleTwice(cfg, s.cycle + m, s.cycle + m + 1, s.caches[i]);
    }
  }

  // ---------------------------------------------------------------------------------------------
  // The caches that snoop.

  /** A cache that has snooped a request and whose reply the bus has taken. */
  function Answered(cfg: Config, cycle: nat, c: CacheState, request: Request): CacheState {
    var snooped := Snoop(cfg, cycle, c, request);
    TakeReply(cfg, snooped.reply, snooped.request, Effect(snooped.cache, snooped.cache, 0, false, false)).snooper
  }

  /** Who asks, and how far the bus has come, does not matter to the one who answers. */
  lemma SnooperIs(cfg: Config, reply: SnoopResult, request: Request, request': Request, e: Effect, e': Effect)
    requires e.snooper == e'.snooper
    ensures TakeReply(cfg, reply, request, e).snooper == TakeReply(cfg, reply, request', e').snooper
  {
    hide AddCost, UnsignedSum;
  }

  lemma FlagIsIgnored(cfg: Config, cycle: nat, c: CacheState, request: Request, shared: bool)
    ensures var r, r' := Snoop(cfg, cycle, c, request), Snoop(cfg, cycle, c, request.(sharedLine := shared));
            r'.cache == r.cache && r'.reply == r.reply
  {
    hide Has, StateOf, SetState, SnoopState, SnoopStats, SnoopReply, RaisesShared, ToUnsignedLong;
  }

  lemma AnsweredIs(cfg: Config, cycle: nat, c: CacheState, request: Request, shared: bool, e: Effect)
    requires e.snooper == Snoop(cfg, cycle, c, request.(sharedLine := shared)).cache
    ensures var snooped := Snoop(cfg, cycle, c, request.(sharedLine := shared));
            TakeReply(cfg, snooped.reply, snooped.request, e).snooper == Answered(cfg, cycle, c, request)
  {
    hide Snoop, TakeReply;
    FlagIsIgnored(cfg, cycle, c, request, shared);
    var snooped := Snoop(cfg, cycle, c, request);
    SnooperIs(cfg, snooped.reply, Snoop(cfg, cycle, c, request.(sharedLine := shared)).request, snooped.request, e,
              Effect(snooped.cache, snooped.cache, 0, false, false));
  }

  /** After the first n caches. */
  ghost predicate AnsweredUpTo(cfg: Config, cycle: nat, k: nat, request: Request, n: nat, b: Broadcast, b': Broadcast)
    requires k < |b.caches|
  {
    && |b'.caches| == |b.caches|
    && (exists shared :: b'.caches[k].busRequest == Some(request.(sharedLine := shared)))
    && forall i | 0 <= i < |b.caches| && i != k ::
         b'.caches[i] == if i < n then Answered(cfg, cycle, b.caches[i], request) else b.caches[i]
  }

  lemma AnswerOne(cfg: Config, cycle: nat, k: nat, request: Request, n: nat, b: Broadcast, b1: Broadcast)
    requires k < |b.caches| && n < |b.caches| && AnsweredUpTo(cfg, cycle, k, request, n, b, b1)
    ensures AnsweredUpTo(cfg, cycle, k, request, n + 1, b, BroadcastTo(cfg, cycle, k, n, b1))
  {
    hide Snoop, TakeReply, Answered, RequesterAs;
    if n == k {
      BroadcastSkips(cfg, cycle, k, b1);
    } else {
      var shared :| b1.caches[k].busRequest == Some(request.(sharedLine := shared));
      var snooped := Snoop(cfg, cycle, b1.caches[n], request.(sharedLine := shared));
      var requester := b1.caches[k].(busRequest := Some(snooped.request));
      var e := Effect(snooped.cache, requester, b1.endCycle, b1.isShared, b1.foundShared);
      AnsweredIs(cfg, cycle, b1.caches[n], request, shared, e);
      RequestStays(cfg, cycle, b1.caches[n], request.(sharedLine := shared));
      ReplyKeepsRequest(cfg, snooped.reply, snooped.request, e);
      assert snooped.request == request.(sharedLine := snooped.request.sharedLine);
    }
  }

  lemma RequestStays(cfg: Config, cycle: nat, c: CacheState, request: Request)
    ensures var request' := Snoop(cfg, cycle, c, request).request;
            request' == request.(sharedLine := request'.sharedLine)
  {
    hide Has, StateOf, SetState, SnoopState, SnoopStats, SnoopReply, RaisesShared, ToUnsignedLong;
  }

  lemma ReplyKeepsRequest(cfg: Config, reply: SnoopResult, request: Request, e: Effect)
    ensures TakeReply(cfg, reply, request, e).requester.busRequest == e.requester.busRequest
  {
    hide UnsignedSum;
  }

  lemma {:induction false} BroadcastAnswers(cfg: Config, cycle: nat, k: nat, request: Request, n: nat, b: Broadcast)
    requires k < |b.caches| && n <= |b.caches| && b.caches[k].busRequest == Some(request)
    ensures AnsweredUpTo(cfg, cycle, k, request, n, b, BroadcastUpTo(cfg, cycle, k, n, b))
  {
    hide BroadcastTo, Answered;
    if n == 0 {
      assert request.(sharedLine := request.sharedLine) == request;
    } else {
      BroadcastAnswers(cfg, cycle, k, request, n - 1, b);
      AnswerOne(cfg, cycle, k, request, n - 1, b, BroadcastUpTo(cfg, cycle, k, n - 1, b));
    }
  }

  /** Granting the bus to cache k, seen from the others. */
  lemma GrantAnswers(cfg: Config, s: SystemState, k: nat)
    requires Grantable(cfg, s, k)
    ensures |Grant(cfg, s).caches| == |s.caches| && k < |s.caches| && s.caches[k].busRequest.Some?
    ensures forall i | 0 <= i < |s.caches| && i != k ::
              Grant(cfg, s).caches[i] == Answered(cfg, s.cycle, s.caches[i], s.caches[k].busRequest.value)
  {
    hide AllGood, Requesting, Answered, BroadcastUpTo, UnsignedSum, Grant;
    assert s.caches[k].haveBusRequest && s.caches[k].busRequest.Some? by {
      GrantableHasRequest(cfg, s, k);
      GrantableAsked(cfg, s, k);
    }
    GrantIsGranted(cfg, s, k);
    BroadcastAnswers(cfg, s.cycle, k, s.caches[k].busRequest.value, |s.caches|, GrantStart(s, k));
  }

  lemma GrantableAsked(cfg: Config, s: SystemState, k: nat)
    requires Grantable(cfg, s, k)
    ensures k < |s.caches| && s.caches[k].haveBusRequest
  {
    hide AllGood, SetOf, ToInt, BlockOf;
  }

  // ---------------------------------------------------------------------------------------------
  // The cache that asks.

  /** What one snooped state means for the cache that asked. */
  function ChargedFor(protocol: Protocol, command: Command, cost: int, state: State, found: bool,
                      c: CacheState): CacheState {
    match protocol
    case MSI => if state == Modified then CountMemoryUse(AddCost(c, MEMORY_COST)) else c
    case MESI =>
      if state == Modified
      then CountMemoryUse(if command == BusRdX then CountBusReadX(AddCost(c, PEER_COST)) else AddCost(c, PEER_COST))
      else if !found && (state == Shared || state == Exclusive) then c.(jobCycleCost := PEER_COST) else c
    case DRAGON => c
    case MOESI =>
      if Supplies(state) && cost != CACHE_HIT_COST then c.(jobCycleCost := PEER_COST) else c
  }

  /** And what all the states mean that it has met among the first n caches. */
  ghost function ChargedUpTo(protocol: Protocol, command: Command, cost: int, k: nat, column: Column, n: nat,
                             c: CacheState): CacheState {
    match protocol
    case MSI => if PeerIs(column, k, n, Modified) then CountMemoryUse(AddCost(c, MEMORY_COST)) else c
    case MESI =>
      if PeerIs(column, k, n, Modified)
      then CountMemoryUse(if command == BusRdX then CountBusReadX(AddCost(c, PEER_COST)) else AddCost(c, PEER_COST))
      else if PeerIs(column, k, n, Shared) || PeerIs(column, k, n, Exclusive) then c.(jobCycleCost := PEER_COST) else c
    case DRAGON => c
    case MOESI =>
      if cost != CACHE_HIT_COST
          && (PeerIs(column, k, n, Modified) || PeerIs(column, k, n, Exclusive) || PeerIs(column, k, n, Owned))
      then c.(jobCycleCost := PEER_COST) else c
  }

  lemma ReplyCharges(cfg: Config, state: State, request: Request, e: Effect)
    requires InProtocol(cfg.protocol, state)
    ensures TakeReply(cfg, SnoopReply(cfg.protocol, request.command, state), request, e).requester
            == ChargedFor(cfg.protocol, request.command, request.cycleCost, state, e.foundShared, e.requester)
  {
    hide AddCost, CountMemoryUse, CountBusReadX, CountWriteBack, UnsignedSum;
    assert request.command == BusRd || request.command == BusRdX;
  }

  /** In Dragon nobody is charged anything. */
  ghost predicate Chargeable(protocol: Protocol, column: Column) {
    protocol == DRAGON || Coherent(protocol, BlockState(column, None))
  }

  /** The two columns agree but for cache k. */
  ghost predicate SamePeers(k: nat, column: Column, column': Column) {
    |column'| == |column| && forall i | 0 <= i < |column| && i != k :: column'[i] == column[i]
  }

  lemma FoundAmongPeers(protocol: Protocol, command: Command, k: nat, column: Column, column': Column, n: nat)
    requires SamePeers(k, column, column') && n <= |column|
    ensures FoundUpTo(protocol, command, k, column, n) == FoundUpTo(protocol, command, k, column', n)
  {
    hide SnoopReply;
    if FoundUpTo(protocol, command, k, column, n) {
      var i :| 0 <= i < n && i != k && SnoopReply(protocol, command, column[i]) == SHARED;
      assert column'[i] == column[i];
    }
    if FoundUpTo(protocol, command, k, column', n) {
      var i :| 0 <= i < n && i != k && SnoopReply(protocol, command, column'[i]) == SHARED;
      assert column'[i] == column[i];
    }
  }

  lemma ChargesAdd(protocol: Protocol, command: Command, cost: int, k: nat, column: Column, n: nat, c: CacheState)
    requires Chargeable(protocol, column) && n < |column|
    ensures ChargedUpTo(protocol, command, cost, k, column, n + 1, c)
            == if n == k then ChargedUpTo(protocol, command, cost, k, column, n, c)
               else ChargedFor(protocol, command, cost, column[n], FoundUpTo(protocol, command, k, column, n),
                               ChargedUpTo(protocol, command, cost, k, column, n, c))
  {
    hide AddCost, CountMemoryUse, CountBusReadX, PeerIs, FoundUpTo;
    PeerIsNext(column, k, n, Modified);
    PeerIsNext(column, k, n, Exclusive);
    PeerIsNext(column, k, n, Shared);
    PeerIsNext(column, k, n, Owned);
    if protocol != DRAGON {
      assert InProtocol(protocol, column[n]);
      if protocol == MESI {
        FoundIsPeer(command, k, column, n);
      }
      NoTwoOwners(protocol, column, k, n);
    }
    hide Coherent;
  }

  /** After the first n caches. */
  ghost predicate AskerUpTo(cfg: Config, k: nat, request: Request, column: Column, n: nat, c: CacheState,
                            c': CacheState) {
    c' == ChargedUpTo(cfg.protocol, request.command, request.cycleCost, k, column, n, c).(busRequest := c'.busRequest)
  }

  lemma ChargeOne(cfg: Config, cycle: nat, k: nat, request: Request, block: nat, n: nat, b: Broadcast, b1: Broadcast,
                  column: Column)
    requires ValidConfig(cfg) && k < |b.caches| && n < |b.caches| && n != k && AllGood(cfg, cycle, b.caches)
    requires AsksFor(cfg, b.caches[k], request, block)
    requires HeardBy(cfg, cycle, k, request, SnoopedTag(block), n, b, b1)
    requires SamePeers(k, ColumnOf(cfg, b.caches, SnoopedTag(block)), column) && Chargeable(cfg.protocol, column)
    requires AskerUpTo(cfg, k, request, column, n, b.caches[k], b1.caches[k])
    ensures AskerUpTo(cfg, k, request, column, n + 1, b.caches[k], BroadcastTo(cfg, cycle, k, n, b1).caches[k])
  {
    hide Snoop, TakeReply, GoodSets, HoldsAs, StateIn, SnoopedTag, SetOf, ToInt, ColumnOf, SnoopStats, SnoopReply,
         ChargedFor, ChargedUpTo, Chargeable, SnoopedAs, EndAfter, RaisesShared, SnoopState, RaisedUpTo, SharesUpTo,
         FoundUpTo;
    var tag := SnoopedTag(block);
    ColumnHolds(cfg, b.caches, tag);
    FoundAmongPeers(cfg.protocol, request.command, k, ColumnOf(cfg, b.caches, tag), column, n);
    var c := b.caches[n];
    var request1 := b1.caches[k].busRequest.value;
    HasLineIsState(cfg, cycle, c, tag);
    SnoopEffect(cfg, cycle, c, request1, block);
    var snooped := Snoop(cfg, cycle, c, request1);
    var requester := b1.caches[k].(busRequest := Some(snooped.request));
    var e := Effect(snooped.cache, requester, b1.endCycle, b1.isShared, b1.foundShared);
    ReplyCharges(cfg, column[n], snooped.request, e);
    ChargesAdd(cfg.protocol, request.command, request.cycleCost, k, column, n, b.caches[k]);
    ChargedKeepsRequest(cfg.protocol, request.command, request.cycleCost, column[n], b1.foundShared,
                        ChargedUpTo(cfg.protocol, request.command, request.cycleCost, k, column, n, b.caches[k]),
                        Some(snooped.request));
  }

  lemma ChargedKeepsRequest(protocol: Protocol, command: Command, cost: int, state: State, found: bool, c: CacheState,
                            request: Option<Request>)
    ensures ChargedFor(protocol, command, cost, state, found, c.(busRequest := request))
            == ChargedFor(protocol, command, cost, state, found, c).(busRequest := request)
  {
  }

  lemma {:induction false} BroadcastCharges(cfg: Config, cycle: nat, k: nat, request: Request, block: nat, n: nat,
                                            b: Broadcast, column: Column)
    requires ValidConfig(cfg) && k < |b.caches| && n <= |b.caches| && AllGood(cfg, cycle, b.caches)
    requires AsksFor(cfg, b.caches[k], request, block) && !b.isShared && !b.foundShared
    requires SamePeers(k, ColumnOf(cfg, b.caches, SnoopedTag(block)), column) && Chargeable(cfg.protocol, column)
    ensures AskerUpTo(cfg, k, request, column, n, b.caches[k], BroadcastUpTo(cfg, cycle, k, n, b).caches[k])
  {
    hide HeardBy, AllGood, AsksFor, BroadcastTo, SnoopedTag, StateIn, Chargeable, ColumnOf, AskerUpTo;
    if n == 0 {
      ChargedByNobody(cfg, k, request, column, b.caches[k]);
    } else {
      BroadcastCharges(cfg, cycle, k, request, block, n - 1, b, column);
      BroadcastHeard(cfg, cycle, k, request, block, n - 1, b);
      var b1 := BroadcastUpTo(cfg, cycle, k, n - 1, b);
      if n - 1 == k {
        BroadcastSkips(cfg, cycle, k, b1);
        ColumnHolds(cfg, b.caches, SnoopedTag(block));
        ChargesAddNothing(cfg, k, request, column, b.caches[k], b1.caches[k]);
      } else {
        ChargeOne(cfg, cycle, k, request, block, n - 1, b, b1, column);
      }
    }
  }

  lemma ChargedByNobody(cfg: Config, k: nat, request: Request, column: Column, c: CacheState)
    ensures AskerUpTo(cfg, k, request, column, 0, c, c)
  {
  }

  lemma ChargesAddNothing(cfg: Config, k: nat, request: Request, column: Column, c: CacheState, c': CacheState)
    requires Chargeable(cfg.protocol, column) && k < |column| && AskerUpTo(cfg, k, request, column, k, c, c')
    ensures AskerUpTo(cfg, k, request, column, k + 1, c, c')
  {
    hide ChargedUpTo, Chargeable;
    ChargesAdd(cfg.protocol, request.command, request.cycleCost, k, column, k, c);
  }

  /** The cache that asked, once all the others have answered. */
  ghost function Grantee(cfg: Config, cycle: nat, c: CacheState, request: Request, k: nat, column: Column): CacheState {
    var started := CountBusRequest(StartService(cycle, c));
    var charged := ChargedUpTo(cfg.protocol, request.command, request.cycleCost, k, column, |column|, started);
    if cfg.protocol == MESI && !FoundUpTo(MESI, request.command, k, column, |column|) then CountMemoryUse(charged)
    else charged
  }

  /** Granting the bus to cache k, seen from there. */
  lemma GrantCharges(cfg: Config, s: SystemState, k: nat, column: Column)
    requires ValidConfig(cfg) && Grantable(cfg, s, k) && Chargeable(cfg.protocol, column)
    requires SamePeers(k, ColumnOf(cfg, s.caches, SnoopedTag(JobBlock(cfg, s.caches[k]))), column)
    ensures |Grant(cfg, s).caches| == |s.caches|
    ensures var c' := Grant(cfg, s).caches[k];
            c' == Grantee(cfg, s.cycle, s.caches[k], s.caches[k].busRequest.value, k,
                          column).(busRequest := c'.busRequest)
  {
    hide GoodSets, Grant, HeardBy, AskerUpTo, BroadcastUpTo, StateIn, SnoopedTag, Chargeable, ColumnOf, UnsignedSum,
         BlockOf, SetOf, ToInt, ChargedUpTo, FoundUpTo, Granted, Grantee;
    var request := s.caches[k].busRequest.value;
    var block := JobBlock(cfg, s.caches[k]);
    var tag := SnoopedTag(block);
    var b := GrantStart(s, k);
    var b' := BroadcastUpTo(cfg, s.cycle, k, |s.caches|, b);
    GrantIsHeard(cfg, s, k);
    GrantIsGranted(cfg, s, k);
    ColumnHolds(cfg, s.caches, tag);
    BroadcastCharges(cfg, s.cycle, k, request, block, |s.caches|, b, column);
    HeardFound(cfg, s.cycle, k, request, tag, b, b');
    FoundAmongPeers(cfg.protocol, request.command, k, ColumnOf(cfg, s.caches, tag), column, |s.caches|);
    GranteeIs(cfg, s, k, request, column, b, b');
  }

  lemma HeardFound(cfg: Config, cycle: nat, k: nat, request: Request, tag: nat, b: Broadcast, b': Broadcast)
    requires k < |b.caches| && HeardBy(cfg, cycle, k, request, tag, |b.caches|, b, b')
    ensures |b'.caches| == |b.caches|
    ensures b'.foundShared
            == FoundUpTo(cfg.protocol, request.command, k, ColumnOf(cfg, b.caches, tag), |ColumnOf(cfg, b.caches, tag)|)
  {
    hide SnoopedAs, RequesterAs, EndAfter, FoundUpTo, StateIn;
  }

  lemma GranteeIs(cfg: Config, s: SystemState, k: nat, request: Request, column: Column, b: Broadcast, b': Broadcast)
    requires k < |s.caches| == |b'.caches| && b == GrantStart(s, k)
    requires AskerUpTo(cfg, k, request, column, |column|, b.caches[k], b'.caches[k])
    requires b'.foundShared == FoundUpTo(cfg.protocol, request.command, k, column, |column|)
    ensures |Granted(cfg, s, k, b').caches| == |s.caches|
    ensures var c' := Granted(cfg, s, k, b').caches[k];
            c' == Grantee(cfg, s.cycle, s.caches[k], request, k, column).(busRequest := c'.busRequest)
  {
    hide ChargedUpTo, FoundUpTo, UnsignedSum;
  }

  // ---------------------------------------------------------------------------------------------
  // Whole jobs.

  /** The cache that takes the job at the head of s, before the bus has its turn. */
  function Taker(cfg: Config, s: SystemState): CacheState
    requires 0 < |s.outstanding| && s.outstanding[0].threadId < |s.caches|
  {
    var job := s.outstanding[0];
    HandleJob(cfg, s.cycle + 1, Taking(cfg, s.cycle + 1, s.caches[job.threadId], job), job)
  }

  lemma HandOutIs(cfg: Config, s: SystemState)
    requires Sound(cfg, s) && NoJobs(s.caches) && 0 < |s.outstanding| && s.outstanding[0].threadId < |s.caches|
    ensures var k := s.outstanding[0].threadId;
            var s1 := BeforeBus(cfg, s);
            && s1.cycle == s.cycle + 1 && |s1.caches| == |s.caches| && s1.caches[k] == Taker(cfg, s)
            && forall i | 0 <= i < |s.caches| && i != k :: s1.caches[i] == Idle(cfg, s.cycle + 1, s.caches[i])
  {
    hide Sound, Orderly, BeforeBus, CacheTick, HandleJob, Idle, Taking, GoodSets, HoldsSame, NoJobs, Quiet;
    var job := s.outstanding[0];
    var k := job.threadId;
    SoundIsOrderly(cfg, s);
    AtRest(cfg, s, k);
    TakerTicks(cfg, s);
    TakingRestamps(cfg, s.cycle, s.caches[k], job);
    TakingTicks(cfg, s.cycle + 1, s.caches[k], job);
    QueuesAreEmpty(cfg, s);
    BeforeBusCaches(cfg, s);
    forall i: nat | i < |s.caches| && i != k
      ensures CacheTick(cfg, s.cycle + 1, s.caches[i]) == Idle(cfg, s.cycle + 1, s.caches[i])
    {
      AtRest(cfg, s, i);
      IdleTicks(cfg, s.cycle + 1, s.caches[i]);
    }
  }

  /** The request with which the job at the head of s starts. */
  function FirstRequestOf(cfg: Config, s: SystemState): Request
    requires 0 < |s.outstanding| && s.outstanding[0].threadId < |s.caches|
  {
    var job := s.outstanding[0];
    var own := StateIn(cfg, s.caches[job.threadId], BlockOf(cfg, job.address));
    RequestFor(cfg, CommandFor(cfg.protocol, IsWrite(job), own), job.address,
               IssueCost(cfg, s.cycle + 1, IsWrite(job), own))
  }

  /** The column the job's requests meet. */
  function HeardColumn(cfg: Config, s: SystemState): Column
    requires 0 < |s.outstanding|
  {
    ColumnOf(cfg, s.caches, SnoopedTag(BlockOf(cfg, s.outstanding[0].address)))
  }

  lemma HeardIsCoherent(cfg: Config, s: SystemState)
    requires Ready(cfg, s)
    ensures Coherent(cfg.protocol, BlockState(HeardColumn(cfg, s), None)) && |HeardColumn(cfg, s)| == |s.caches|
  {
    hide Sound, ColumnOf, SnoopedTag, BlockOf;
    SnoopedTagFits(BlockOf(cfg, s.outstanding[0].address));
    RestingColumn(cfg, s, SnoopedTag(BlockOf(cfg, s.outstanding[0].address)));
    ColumnHolds(cfg, s.caches, SnoopedTag(BlockOf(cfg, s.outstanding[0].address)));
  }

  /** The iteration that hands the job out and grants its request. */
  lemma AskedIs(cfg: Config, s: SystemState)
    requires Ready(cfg, s) && BusJob(cfg, s)
    ensures var k := s.outstanding[0].threadId;
            var s' := Step(cfg, s);
            && s'.cycle == s.cycle + 1 && s'.bus.currentCache == k && |s'.caches| == |s.caches|
            && s'.bus.isShared == ToldShared(cfg, s.caches, s.outstanding[0])
            && s'.caches[k]
               == Grantee(cfg, s.cycle + 1, Taker(cfg, s), FirstRequestOf(cfg, s), k,
                          HeardColumn(cfg, s)).(busRequest := s'.caches[k].busRequest)
            && s'.caches[k].busRequest.Some?
            && s'.caches[k].busRequest.value.command == FirstRequestOf(cfg, s).command
            && s'.caches[k].currentJob == Some(s.outstanding[0])
            && forall i | 0 <= i < |s.caches| && i != k ::
                 s'.caches[i] == Answered(cfg, s.cycle + 1, Idle(cfg, s.cycle + 1, s.caches[i]), FirstRequestOf(cfg, s))
  {
    hide Sound, Orderly, BeforeBus, Idle, NoJobs, Grant, Grantable, Step, BusJob, HandedOut, Grantee, Answered, Taker,
         Coherent, StateIn, BlockOf, SnoopedTag, ColumnOf, RequestFor, CommandFor, IssueCost, AnyShares, TakenAs,
         EndAfter, FirstLength, UnsignedSum;
    var job := s.outstanding[0];
    var k, t := job.threadId, BlockOf(cfg, job.address);
    var s1 := BeforeBus(cfg, s);
    ReadyIsOrderly(cfg, s);
    DispatchStep(cfg, s);
    HandedOutBusJob(cfg, s, s1);
    HandOutIs(cfg, s);
    GrantAnswers(cfg, s1, k);
    HeardIsCoherent(cfg, s);
    DispatchColumn(cfg, s, s1, SnoopedTag(t));
    GrantCharges(cfg, s1, k, HeardColumn(cfg, s));
    BusJobTold(cfg, s);
  }

  lemma BusJobTold(cfg: Config, s: SystemState)
    requires Ready(cfg, s) && BusJob(cfg, s)
    ensures var s' := Step(cfg, s);
            var job := s.outstanding[0];
            && s'.cycle == s.cycle + 1 && s'.bus.currentCache == job.threadId < |s'.caches|
            && s'.bus.isShared == ToldShared(cfg, s.caches, job)
            && s'.caches[job.threadId].currentJob == Some(job) && s'.caches[job.threadId].busRequest.Some?
            && s'.caches[job.threadId].busRequest.value.command == FirstRequestOf(cfg, s).command
  {
    hide Orderly, AllCoherent, Timely, Step, BusJob, StateIn, BlockOf, SnoopedTag, ColumnOf, SetOf, ToInt, CommandFor,
         IssueCost, AnyShares, FirstLength, UnsignedSum, BlockNext, EventOf, Coherent;
    var job := s.outstanding[0];
    var k, t := job.threadId, BlockOf(cfg, job.address);
    SnoopedTagFits(t);
    CoherentHere(cfg, s, SnoopedTag(t));
    ReadyIsOrderly(cfg, s);
    DispatchLength(cfg, s);
    BusJobEvents(cfg, s, t);
    IssueIsPending(cfg.protocol, Fits(t), ColumnOf(cfg, s.caches, t), k, IsWrite(job), ToldShared(cfg, s.caches, job));
    ViewPending(cfg, Step(cfg, s), t);
    assert Step(cfg, s).bus.isShared == PendingFor(cfg, Step(cfg, s), t).value.shared;
  }

  /** The cache on the bus when its transaction is over. */
  function Released(cfg: Config, cycle: nat, c: CacheState, shared: bool): CacheState {
    BusJobDone(cfg, cycle, Completing(cfg, cycle, c), shared)
  }

  /** s' is s, in which the bus works for a cache, once the transaction is over and before any other starts. */
  ghost predicate Concluded(cfg: Config, s: SystemState, s': SystemState) {
    var k := s.bus.currentCache;
    && 0 <= k < |s.caches| == |s'.caches|
    && s'.caches[k] == Released(cfg, s'.cycle, s.caches[k], s.bus.isShared)
    && forall i | 0 <= i < |s.caches| && i != k :: s'.caches[i] == Idle(cfg, s'.cycle, s.caches[i])
  }

  /** From the grant to the end of the transaction. */
  lemma Concludes(cfg: Config, asked: SystemState, wait: nat, last: SystemState, t: nat, u: nat)
    requires Transaction(cfg, asked, wait, last, t, u)
    ensures var s2 := FinishTransaction(cfg, BeforeBus(cfg, last));
            && Concluded(cfg, asked, s2) && s2.cycle == last.cycle + 1
            && 0 <= last.bus.currentCache < |last.caches| && last.caches[last.bus.currentCache].currentJob.Some?
            && last.bus == asked.bus
            && last.caches[last.bus.currentCache].currentJob == asked.caches[last.bus.currentCache].currentJob
            && Over(cfg, last, s2) && Step(cfg, last) == Grant(cfg, s2)
  {
    hide Sound, BeforeBus, Idle, Run, Step, Grant, FinishTransaction, Released, PendingFor, Over, Waiting, BlockView;
    RestThrough(cfg, asked, wait);
    FinishedCaches(cfg, BeforeBus(cfg, last));
    ReleasedIs(cfg, BeforeBus(cfg, last).cycle, asked.caches[asked.bus.currentCache], asked.bus.isShared);
    SoundIsOrderly(cfg, last);
    CompletionStep(cfg, last);
    CurrentHasJob(cfg, last);
  }

  lemma ReleasedIs(cfg: Config, cycle: nat, c: CacheState, shared: bool)
    ensures Released(cfg, cycle, c, shared) == BusJobDone(cfg, cycle, Completing(cfg, cycle, c), shared)
  {
    hide BusJobDone, Completing;
  }

  /** The next job of the resting system takes one transaction. */
  ghost predicate TakesOne(cfg: Config, s: SystemState) {
    Ready(cfg, s) && BusJob(cfg, s) && !AsksAgain(cfg, s.outstanding[0], ToldShared(cfg, s.caches, s.outstanding[0]))
  }

  /** It takes two. */
  ghost predicate TakesTwo(cfg: Config, s: SystemState) {
    Ready(cfg, s) && BusJob(cfg, s) && AsksAgain(cfg, s.outstanding[0], ToldShared(cfg, s.caches, s.outstanding[0]))
  }

  /** A job that takes one transaction, from the grant on. */
  lemma OnceIs(cfg: Config, s: SystemState)
    requires TakesOne(cfg, s)
    ensures var s' := Run(cfg, s, JobCycles(cfg, s));
            s'.cycle == s.cycle + JobCycles(cfg, s) && Concluded(cfg, Step(cfg, s), s')
  {
    hide Sound, BeforeBus, Run, Step, Grant, FinishTransaction, Over, AsksAgain, ToldShared, JobCycles, BusJob, BlockOf,
         Concluded, Transaction, Orderly;
    var t := BlockOf(cfg, s.outstanding[0].address);
    var asked := Step(cfg, s);
    var wait := BusJobRuns(cfg, s, t + 1);
    var last := Run(cfg, asked, wait);
    Concludes(cfg, asked, wait, last, t, t + 1);
    BusJobTold(cfg, s);
    TransactionEnds(cfg, asked, wait, last, t, t + 1);
    OverRests(cfg, last, FinishTransaction(cfg, BeforeBus(cfg, last)));
  }

  lemma TransactionEnds(cfg: Config, asked: SystemState, wait: nat, last: SystemState, t: nat, u: nat)
    requires Transaction(cfg, asked, wait, last, t, u)
    ensures last.cycle == asked.cycle + wait && last.bus.inUse && Orderly(cfg, last) && ValidConfig(cfg)
    ensures Sound(cfg, last) && last.bus.endCycle <= last.cycle + 1 && PendingFor(cfg, last, t).Some?
  {
    hide Orderly, AllCoherent, Timely, Run, Waiting, PendingFor, Waited;
  }

  /** The first transaction of a job that takes two, and the grant of the second. */
  lemma FirstOfTwo(cfg: Config, s: SystemState) returns (wait: nat)
    requires TakesTwo(cfg, s)
    ensures var job := s.outstanding[0];
            var last := Run(cfg, Step(cfg, s), wait);
            var again := Step(cfg, last);
            && Transaction(cfg, Step(cfg, s), wait, last, BlockOf(cfg, job.address), BlockOf(cfg, job.address) + 1)
            && wait + 2 + PEER_COST == JobCycles(cfg, s)
            && Sound(cfg, again) && again.bus.inUse && again.cycle == s.cycle + wait + 2
            && again.bus.endCycle == again.cycle + PEER_COST && !again.bus.isShared
            && PendingFor(cfg, again, BlockOf(cfg, job.address)).Some?
  {
    hide Sound, BeforeBus, Run, Step, Grant, Over, ToldShared, JobCycles, BusJob, BlockOf, Transaction, BlockNext,
         BlockView, ColumnOf, PendingFor, BusCycles, NoCopies, Fits;
    var job := s.outstanding[0];
    var t := BlockOf(cfg, job.address);
    var asked := Step(cfg, s);
    BusJobStarts(cfg, s, t + 1);
    BusJobLasts(cfg, s);
    IssuePends(cfg.protocol, Fits(t), ColumnOf(cfg, s.caches, t), job.threadId, IsWrite(job), true);
    ViewPending(cfg, asked, t);
    wait := WaitsThrough(cfg, asked, t, t + 1);
    var last := Run(cfg, asked, wait);
    TransactionEnds(cfg, asked, wait, last, t, t + 1);
    TransactionView(cfg, asked, wait, last, t, t + 1);
    CompleteOne(cfg, last, t, t + 1);
    ViewPending(cfg, Step(cfg, last), t);
    IssueThenUpdate(Fits(t), ColumnOf(cfg, s.caches, t), job.threadId);
    PendingShared(cfg, Step(cfg, last), t);
  }

  lemma TransactionView(cfg: Config, asked: SystemState, wait: nat, last: SystemState, t: nat, u: nat)
    requires Transaction(cfg, asked, wait, last, t, u)
    ensures BlockView(cfg, last, t) == BlockView(cfg, asked, t)
  {
    hide Sound, Run, Waiting, PendingFor, BlockView;
  }

  lemma IssueThenUpdate(heard: bool, column: Column, k: nat)
    ensures BlockNext(DRAGON, heard, BlockNext(DRAGON, heard, BlockState(column, None), Issue(k, true, true)),
                      Complete).pending
            == Some(Pending(k, BusRdX, true, false))
  {
    hide SnoopAll, SetAt, OwnAtCompletion, OwnAtIssue, CommandFor;
  }

  lemma PendingShared(cfg: Config, s: SystemState, t: nat)
    requires PendingFor(cfg, s, t).Some?
    ensures PendingFor(cfg, s, t).value.shared == s.bus.isShared
  {
    hide BlockOf;
  }

  /** A job that takes two: the transaction that reads the block up to `mid`, then the update. */
  lemma TwiceIs(cfg: Config, s: SystemState) returns (mid: SystemState)
    requires TakesTwo(cfg, s)
    ensures var job := s.outstanding[0];
            var s' := Run(cfg, s, JobCycles(cfg, s));
            && Concluded(cfg, Step(cfg, s), mid) && Grantable(cfg, mid, job.threadId)
            && mid.cycle + PEER_COST == s'.cycle == s.cycle + JobCycles(cfg, s)
            && mid.caches[job.threadId].currentJob == Some(job)
            && mid.caches[job.threadId].busRequest == Some(RequestFor(cfg, BusRdX, job.address, PEER_COST))
            && Concluded(cfg, Grant(cfg, mid), s') && !Grant(cfg, mid).bus.isShared
            && Grant(cfg, mid).bus.currentCache == job.threadId
  {
    hide Sound, BeforeBus, Run, Step, Grant, FinishTransaction, Over, AsksAgain, ToldShared, JobCycles, BusJob, BlockOf,
         Concluded, Transaction, Orderly, Grantable, PendingFor, RequestFor;
    var job := s.outstanding[0];
    var t := BlockOf(cfg, job.address);
    var asked := Step(cfg, s);
    var wait := FirstOfTwo(cfg, s);
    var last := Run(cfg, asked, wait);
    mid := FinishTransaction(cfg, BeforeBus(cfg, last));
    Concludes(cfg, asked, wait, last, t, t + 1);
    TransactionEnds(cfg, asked, wait, last, t, t + 1);
    BusJobTold(cfg, s);
    OverAsksAgain(cfg, last, mid);
    OverLeaves(cfg, last, mid);
    var again := Step(cfg, last);
    var wait' := WaitsThrough(cfg, again, t, t + 1);
    SecondEnds(cfg, again, wait', t);
    GrantedTo(cfg, mid, job.threadId);
    UpdateRuns(cfg, s, wait, wait');
  }

  lemma GrantedTo(cfg: Config, s: SystemState, k: nat)
    requires Grantable(cfg, s, k)
    ensures Grant(cfg, s).bus.currentCache == k
  {
    hide AllGood, Requesting, BroadcastUpTo, UnsignedSum, Grant;
    GrantableAsked(cfg, s, k);
    GrantIsGranted(cfg, s, k);
  }

  lemma SecondEnds(cfg: Config, again: SystemState, wait: nat, t: nat)
    requires Transaction(cfg, again, wait, Run(cfg, again, wait), t, t + 1) && !again.bus.isShared
    ensures var s' := Step(cfg, Run(cfg, again, wait));
            Concluded(cfg, again, s') && s'.cycle == again.cycle + wait + 1
  {
    hide Sound, BeforeBus, Run, Step, Grant, FinishTransaction, Over, Concluded, Transaction, Orderly, PendingFor;
    var last := Run(cfg, again, wait);
    Concludes(cfg, again, wait, last, t, t + 1);
    TransactionEnds(cfg, again, wait, last, t, t + 1);
    OverRests(cfg, last, FinishTransaction(cfg, BeforeBus(cfg, last)));
  }

  lemma UpdateRuns(cfg: Config, s: SystemState, m: nat, n: nat)
    ensures Run(cfg, s, m + 2 + n + 1) == Step(cfg, Run(cfg, Step(cfg, Run(cfg, Step(cfg, s), m)), n))
  {
    hide Step, Run;
    RunFirst(cfg, s, m);
    RunThen(cfg, s, m + 1);
    RunAdds(cfg, s, m + 2, n);
    RunThen(cfg, s, m + 2 + n);
  }

  /** An iteration in which cache k serves a hit. */
  lemma HitTickIs(cfg: Config, s: SystemState, k: nat)
    requires Sound(cfg, s) && !s.bus.inUse && k < |s.caches| && s.caches[k].busy
    ensures var s' := Step(cfg, s);
            && s'.cycle == s.cycle + 1 && |s'.caches| == |s.caches|
            && s'.caches[k] == CacheTick(cfg, s.cycle + 1, s.caches[k])
            && forall i | 0 <= i < |s.caches| && i != k :: s'.caches[i] == Idle(cfg, s.cycle + 1, s.caches[i])
  {
    hide Orderly, AllCoherent, Timely, BeforeBus, Grant, ServedCache, CacheTick, Idle;
    var s1 := BeforeBus(cfg, s);
    assert !NoJobs(s.caches);
    ServedBeforeBus(cfg, s);
    ServedGrantsNothing(cfg, s, s1);
    assert Step(cfg, s) == s1;
    ServingCaches(cfg, s);
    OneHit(cfg, s, k);
    forall i | 0 <= i < |s.caches| && i != k
      ensures CacheTick(cfg, s.cycle + 1, s.caches[i]) == Idle(cfg, s.cycle + 1, s.caches[i])
    {
      IdleTicks(cfg, s.cycle + 1, s.caches[i]);
    }
  }

  lemma ServingCaches(cfg: Config, s: SystemState)
    requires !NoJobs(s.caches)
    ensures var s1 := BeforeBus(cfg, s);
            && s1.cycle == s.cycle + 1 && |s1.caches| == |s.caches|
            && forall i | 0 <= i < |s.caches| :: s1.caches[i] == CacheTick(cfg, s.cycle + 1, s.caches[i])
  {
    hide CacheTick;
  }

  lemma OneHit(cfg: Config, s: SystemState, k: nat)
    requires Orderly(cfg, s) && !s.bus.inUse && k < |s.caches| && s.caches[k].busy
    ensures OthersRest(s, k) && ServingHit(s.cycle, s.caches[k]) && |s.caches[k].pendingJobs| == 0
  {
    hide AllGood;
  }

  /** The two ticks of a hit that was taken in the iteration before. */
  lemma HitGoesOn(cfg: Config, cycle: nat, c: CacheState)
    requires ServingHit(cycle, c) && |c.pendingJobs| == 0 && c.startServiceCycle == cycle
    ensures CacheTick(cfg, cycle + 1, c) == c && CacheTick(cfg, cycle + 2, c) == FinishJob(cfg, cycle + 2, c)
  {
    hide ProbeLine, BlockOf, HandleRequest;
    FinishKeepsQueue(cfg, cycle + 2, c);
  }

  lemma FinishKeepsQueue(cfg: Config, cycle: nat, c: CacheState)
    ensures FinishJob(cfg, cycle, c).pendingJobs == c.pendingJobs
  {
    hide HasLine, SetOf, Touch;
  }

  /** A hit. */
  lemma HitIs(cfg: Config, s: SystemState)
    requires Ready(cfg, s) && !BusJob(cfg, s)
    ensures var k := s.outstanding[0].threadId;
            var s' := Run(cfg, s, JobCycles(cfg, s));
            && JobCycles(cfg, s) == 3 && s'.cycle == s.cycle + 3 && |s'.caches| == |s.caches|
            && s'.caches[k] == FinishJob(cfg, s'.cycle, Taker(cfg, s))
            && forall i | 0 <= i < |s.caches| && i != k :: s'.caches[i] == Idle(cfg, s'.cycle, s.caches[i])
  {
    hide Orderly, AllCoherent, Timely, Step, Run, BusJob, Idle, Taker, CacheTick, FinishJob, BeforeBus, JobCycles,
         HandedOut, ColumnOf, AfterJob, ToldShared, BlockOf, StateIn, ServingHit, OthersRest;
    var k := s.outstanding[0].threadId;
    var one := Step(cfg, s);
    HitStarts(cfg, s, 0);
    HandOutIs(cfg, s);
    HitIsHandedOut(cfg, s);
    OneHit(cfg, one, k);
    HitTickIs(cfg, one, k);
    var two := Step(cfg, one);
    HitGoesOn(cfg, one.cycle, one.caches[k]);
    HitOne(cfg, one, 0, 0);
    HitTickIs(cfg, two, k);
    RunFirst(cfg, s, 2);
    RunFirst(cfg, one, 1);
    RunOne(cfg, two);
    forall i | 0 <= i < |s.caches| && i != k
      ensures Idle(cfg, s.cycle + 3, Idle(cfg, s.cycle + 2, Idle(cfg, s.cycle + 1, s.caches[i])))
              == Idle(cfg, s.cycle + 3, s.caches[i])
    {
      ThreeIdle(cfg, s, i);
    }
  }

  lemma ThreeIdle(cfg: Config, s: SystemState, i: nat)
    requires Ready(cfg, s) && i < |s.caches|
    ensures Idle(cfg, s.cycle + 3, Idle(cfg, s.cycle + 2, Idle(cfg, s.cycle + 1, s.caches[i])))
            == Idle(cfg, s.cycle + 3, s.caches[i])
  {
    hide Sound, Orderly, Idle;
    ReadyIsOrderly(cfg, s);
    AtRest(cfg, s, i);
    IdleTwice(cfg, s.cycle + 1, s.cycle + 2, s.caches[i]);
    IdleTwice(cfg, s.cycle + 2, s.cycle + 3, s.caches[i]);
  }

  lemma HitIsHandedOut(cfg: Config, s: SystemState)
    requires Ready(cfg, s) && !BusJob(cfg, s)
    ensures var k := s.outstanding[0].threadId;
            Step(cfg, s) == BeforeBus(cfg, s) && k < |Step(cfg, s).caches| && Step(cfg, s).caches[k].busy
            && Step(cfg, s).caches[k].startServiceCycle == s.cycle + 1
  {
    hide Sound, Orderly, BeforeBus, Grant, HandedOut, BusJob, Step;
    ReadyIsOrderly(cfg, s);
    DispatchStep(cfg, s);
    HandedOutFreeJob(cfg, s, BeforeBus(cfg, s));
    HandedOutBus(cfg, s, BeforeBus(cfg, s));
    NextCycle(cfg, s);
  }

  lemma NextCycle(cfg: Config, s: SystemState)
    ensures BeforeBus(cfg, s).cycle == s.cycle + 1
  {
    hide CacheTick;
  }

  // ---------------------------------------------------------------------------------------------
  // Lines, in passing.

  lemma IdleHolds(cfg: Config, earlier: nat, later: nat, c: CacheState)
    requires ValidConfig(cfg) && GoodSets(cfg, earlier, c.localCache) && earlier <= later && Quiet(c)
    requires |c.pendingJobs| == 0
    ensures GoodSets(cfg, later, Idle(cfg, later, c).localCache) && HoldsSame(cfg, c, Idle(cfg, later, c))
    ensures OnlyLines(c, Idle(cfg, later, c))
  {
    hide GoodSets, StateIn, FinishJob, UnsignedSum;
    LaterIsGood(cfg, earlier, later, c.localCache);
    FinishJobRestamps(cfg, later, c);
    IdleTicks(cfg, later, c);
    assert c.(busy := false) == c;
    SameIsHolds(cfg, c, 0, c);
  }

  /** Whether it asks or serves a hit, the cache that has taken the job holds its block as it should. */
  lemma TakerHolds(cfg: Config, s: SystemState)
    requires Ready(cfg, s)
    ensures var job := s.outstanding[0];
            TakesJob(cfg, s.cycle + 1, s.caches[job.threadId], job, Taker(cfg, s))
  {
    hide Sound, Orderly, BeforeBus, TakesJob, Taker, Idle;
    ReadyIsOrderly(cfg, s);
    HandOutIs(cfg, s);
    DispatchBeforeBus(cfg, s);
    TakerOf(cfg, s, BeforeBus(cfg, s));
  }

  lemma TakerOf(cfg: Config, s: SystemState, s1: SystemState)
    requires 0 < |s.outstanding| && HandedOut(cfg, s, s1) && s.outstanding[0].threadId < |s.caches|
    ensures |s1.caches| == |s.caches|
    ensures TakesJob(cfg, s.cycle + 1, s.caches[s.outstanding[0].threadId], s.outstanding[0],
                     s1.caches[s.outstanding[0].threadId])
  {
    hide TakesJob, QuietlyTicked;
  }

  lemma AskedOwn(cfg: Config, s: SystemState)
    requires Ready(cfg, s) && BusJob(cfg, s)
    ensures var job := s.outstanding[0];
            var k, t := job.threadId, BlockOf(cfg, job.address);
            var asked := Step(cfg, s);
            && k < |asked.caches| && GoodSets(cfg, asked.cycle, asked.caches[k].localCache)
            && asked.caches[k].localCache == Taker(cfg, s).localCache
            && StateIn(cfg, asked.caches[k], t) == TakenAs(cfg.protocol, job, StateIn(cfg, s.caches[k], t))
  {
    hide Sound, Step, BusJob, Grantee, Answered, Idle, Taker, TakesJob, StateIn, BlockOf, ToldShared, TakenAs, GoodSets,
         FirstRequestOf;
    var job := s.outstanding[0];
    AskedIs(cfg, s);
    TakerHolds(cfg, s);
    GranteeLines(cfg, s.cycle + 1, Taker(cfg, s), FirstRequestOf(cfg, s), job.threadId, HeardColumn(cfg, s));
    TakerLines(cfg, s.cycle + 1, s.caches[job.threadId], job, Taker(cfg, s));
    SameIsHolds(cfg, Taker(cfg, s), BlockOf(cfg, job.address), Step(cfg, s).caches[job.threadId]);
    SameState(cfg, Taker(cfg, s), Step(cfg, s).caches[job.threadId], BlockOf(cfg, job.address));
  }

  lemma GranteeLines(cfg: Config, cycle: nat, c: CacheState, request: Request, k: nat, column: Column)
    ensures var c' := Grantee(cfg, cycle, c, request, k, column);
            c'.localCache == c.localCache && c'.currentJob == c.currentJob
  {
    hide PeerIs, FoundUpTo;
  }

  lemma TakerLines(cfg: Config, cycle: nat, c: CacheState, job: Job, c': CacheState)
    requires TakesJob(cfg, cycle, c, job, c')
    ensures GoodSets(cfg, cycle, c'.localCache)
    ensures StateIn(cfg, c', BlockOf(cfg, job.address))
            == TakenAs(cfg.protocol, job, StateIn(cfg, c, BlockOf(cfg, job.address)))
  {
    hide GoodSets, StateIn, BlockOf, TakenAs, RequestFor, CommandFor;
  }
}
