/** The bus as the program runs it (AtomicBusManager.cpp), on cache objects that share nothing but the
    clock; its methods are proved to run the functions of SystemModel. */
module BusManager {
  import opened Wrappers
  import opened Constants
  import opened Requests
  import opened Sets
  import opened CacheModel
  import opened SystemModel
  import opened BusLemmas
  import opened Caches

  // ---------------------------------------------------------------------------------------------
  // Many caches.

  /** The caches as values. */
  ghost function ViewsOf(caches: seq<Cache>): (views: seq<CacheState>)
    reads caches, set c, i | c in caches && 0 <= i < |c.localCache| :: c.localCache[i],
          set c | c in caches :: c.busRequest
    ensures |views| == |caches|
    ensures forall i | 0 <= i < |caches| :: views[i] == caches[i].View()
  {
    if |caches| == 0 then []
    else
      assert caches[|caches| - 1] in caches;
      ViewsOf(caches[..|caches| - 1]) + [caches[|caches| - 1].View()]
  }

  /** Two caches have no object in common. */
  ghost predicate Apart(c: Cache, d: Cache)
    reads c, d
  {
    && c != d
    && (c.busRequest == null || c.busRequest != d.busRequest)
    && forall i, j | 0 <= i < |c.localCache| && 0 <= j < |d.localCache| :: c.localCache[i] != d.localCache[j]
  }

  /** The caches share the clock and nothing else. */
  ghost predicate Separate(constants: CacheConstants, caches: seq<Cache>)
    reads constants, caches, set c, i | c in caches && 0 <= i < |c.localCache| :: c.localCache[i]
  {
    && (forall i | 0 <= i < |caches| :: caches[i] in caches && caches[i].constants == constants && caches[i].Valid())
    && (forall i, j | 0 <= i < |caches| && 0 <= j < |caches| && i != j :: Apart(caches[i], caches[j]))
  }

  /** Nothing of cache c has changed. */
  twostate predicate Untouched(c: Cache)
    reads c, set i | 0 <= i < |c.localCache| :: c.localCache[i], c.busRequest
  {
    unchanged(c) && (c.busRequest != null ==> unchanged(c.busRequest))
        && forall i | 0 <= i < |c.localCache| :: unchanged(c.localCache[i])
  }

  /** A cache that asks for the bus has something to ask. */
  ghost predicate RequestSet(cfg: Config, c: CacheState) {
    c.haveBusRequest ==> c.busRequest.Some? && c.busRequest.value.lineSet < cfg.numSets
  }

  ghost predicate RequestsSet(cfg: Config, caches: seq<CacheState>) {
    forall i | 0 <= i < |caches| :: RequestSet(cfg, caches[i])
  }

  /** What the bus relies on when its turn comes. */
  ghost predicate BusReady(cfg: Config, s: SystemState) {
    && RequestsSet(cfg, s.caches) && s.cycle < ULLONG_MAX
    && (s.bus.inUse ==> 0 <= s.bus.currentCache < |s.caches| && s.caches[s.bus.currentCache].currentJob.Some?
                        && s.caches[s.bus.currentCache].busRequest.Some?)
  }

  /** What the completion of a transaction makes of its cache. */
  ghost function FinishedCache(cfg: Config, cycle: nat, c: CacheState, isShared: bool): CacheState {
    var started := StartService(cycle, c);
    var counted := if cfg.protocol == MSI && started.busRequest.Some? && started.busRequest.value.command == BusRdX
          then CountBusReadX(started) else started;
    CacheModel.BusJobDone(cfg, cycle, counted, isShared)
  }

  lemma DoneRequestSet(cfg: Config, cycle: nat, c: CacheState, isShared: bool)
    requires ValidConfig(cfg) && c.currentJob.Some?
    ensures RequestSet(cfg, FinishedCache(cfg, cycle, c, isShared))
  {
    hide BlockOf, SetOf, PlaceLine, CompleteWrite, CompleteRead, RequestSet;
    var job := c.currentJob.value;
    var freed := if cfg.protocol == MSI && c.busRequest.Some? && c.busRequest.value.command == BusRdX
                 then CountBusReadX(StartService(cycle, c)).(haveBusRequest := false, busy := false,
                                                             busRequestBeingServiced := false)
                 else StartService(cycle, c).(haveBusRequest := false, busy := false, busRequestBeingServiced := false);
    PlaceKeepsRequest(cfg, cycle, freed, job);
    CompleteSetsRequest(cfg, cycle, PlaceLine(cfg, cycle, freed, job), job.address, isShared);
  }

  lemma PlaceKeepsRequest(cfg: Config, cycle: nat, c: CacheState, job: Job)
    ensures PlaceLine(cfg, cycle, c, job).haveBusRequest == c.haveBusRequest
  {
    hide BlockOf, SetOf, Replace, Touch, HasLine;
  }

  lemma PutKeepsRequest(cfg: Config, cycle: nat, block: nat)
    ensures forall c: CacheState, state: State ::
              PutLine(cfg, cycle, c, block, state) == c.(localCache := PutLine(cfg, cycle, c, block, state).localCache)
  {
    hide SetOf, SetState;
  }

  lemma CompleteSetsRequest(cfg: Config, cycle: nat, c: CacheState, address: nat, isShared: bool)
    requires ValidConfig(cfg) && !c.haveBusRequest
    ensures RequestSet(cfg, c)
    ensures RequestSet(cfg, CompleteWrite(cfg, cycle, c, address, isShared))
    ensures RequestSet(cfg, CompleteRead(cfg, cycle, c, address, isShared))
  {
    SetInRange(cfg, BlockOf(cfg, address));
    PutKeepsRequest(cfg, cycle, BlockOf(cfg, address));
    hide BlockOf, SetOf, PutLine, StateIn, ToInt;
  }

  // ---------------------------------------------------------------------------------------------
  // The bus.

  class AtomicBusManager {
    const constants: CacheConstants
    const caches: seq<Cache>
    var currentCache: int
    var startCycle: nat
    var endCycle: nat
    var inUse: bool
    var isShared: bool

    ghost function View(): BusState
      reads this
    {
      BusState(currentCache, inUse, startCycle, endCycle, isShared)
    }

    constructor (constants: CacheConstants, caches: seq<Cache>)
      ensures this.constants == constants && this.caches == caches && View() == BusState(0, false, 0, 0, false)
    {
      this.constants, this.caches := constants, caches;
      currentCache, startCycle, endCycle, inUse, isShared := 0, 0, 0, false, false;
    }

    /** Work on the caches `at.0` and `at.1` leaves the others alone. */
    twostate lemma OthersAreSame(at: (nat, nat))
      requires old(Separate(constants, caches)) && unchanged(constants)
      requires forall j | 0 <= j < |caches| && j != at.0 && j != at.1 :: Untouched(caches[j])
      ensures forall j | 0 <= j < |caches| && j != at.0 && j != at.1 ::
                caches[j].View() == old(caches[j].View()) && caches[j].Valid()
                    && caches[j].busRequest == old(caches[j].busRequest)
    {
      forall j | 0 <= j < |caches| && j != at.0 && j != at.1
        ensures caches[j].View() == old(caches[j].View())
        ensures caches[j].Valid()
      {
        assert Untouched(caches[j]);
        assert old(caches[j].Valid());
        assert WaysIn(caches[j].localCache) == old(WaysIn(caches[j].localCache));
      }
    }

    /** At most one of the two has got a new request. */
    twostate lemma TwoCaches(at: (nat, nat))
      requires old(Separate(constants, caches)) && at.0 < |caches| && at.1 < |caches| && unchanged(constants)
      requires forall j | 0 <= j < |caches| && j != at.0 && j != at.1 :: Untouched(caches[j])
      requires caches[at.0].busRequest == old(caches[at.0].busRequest) || fresh(caches[at.0].busRequest)
      requires at.0 == at.1 || caches[at.1].busRequest == old(caches[at.1].busRequest)
      requires caches[at.0].Valid() && caches[at.1].Valid()
      ensures Separate(constants, caches)
      ensures ViewsOf(caches) == old(ViewsOf(caches))[at.0 := caches[at.0].View()][at.1 := caches[at.1].View()]
    {
      hide ViewsOf, Cache.View, Cache.Valid, Untouched;
      OthersAreSame(at);
      forall i, j | 0 <= i < |caches| && 0 <= j < |caches| && i != j
        ensures Apart(caches[i], caches[j])
      {
        assert old(Apart(caches[i], caches[j]));
      }
    }

    /** Work on cache k alone. */
    twostate lemma OneCache(k: nat)
      requires old(Separate(constants, caches)) && k < |caches| && unchanged(constants)
      requires forall j | 0 <= j < |caches| && j != k :: Untouched(caches[j])
      requires caches[k].busRequest == old(caches[k].busRequest) || fresh(caches[k].busRequest)
      requires caches[k].Valid()
      ensures Separate(constants, caches)
      ensures ViewsOf(caches) == old(ViewsOf(caches))[k := caches[k].View()]
      ensures old(ViewsOf(caches))[k] == old(caches[k].View())
    {
      hide ViewsOf, Separate, Cache.View, Cache.Valid, Untouched;
      TwoCaches((k, k));
    }

    /** What the broadcast loop does with one reply, protocol by protocol. */
    method HandleReplyMSI(result: SnoopResult, request: BusRequest, snooper: Cache, requester: Cache, foundShared: bool)
      requires constants.cfg.protocol == MSI && snooper != requester && snooper.Valid() && requester.Valid()
      modifies this`endCycle, snooper`stats, requester`stats, requester`jobCycleCost
      ensures TakeReply(constants.cfg, result, request.View(),
                        Effect(old(snooper.View()), old(requester.View()), old(endCycle), isShared, foundShared))
              == Effect(snooper.View(), requester.View(), endCycle, isShared, foundShared)
    {
      hide ViewsOf, Cache.View, Cache.Valid;
      if result == FLUSH_MODIFIED_TO_SHARED || result == FLUSH_MODIFIED_TO_INVALID {
        snooper.NoteWriteBack();
        endCycle := endCycle + MEMORY_COST;
        requester.UpdateEndCycleTime(MEMORY_COST);
        requester.NoteMemoryUse();
      }
    }

    method HandleFlushMESI(snooper: Cache, requester: Cache)
      requires snooper != requester && snooper.Valid() && requester.Valid()
      modifies this`endCycle, this`isShared, snooper`stats, requester`stats, requester`jobCycleCost
      ensures snooper.Valid() && requester.Valid()
      ensures snooper.View() == CountWriteBack(old(snooper.View()))
      ensures requester.View() == CountMemoryUse(CountBusReadX(AddCost(old(requester.View()), PEER_COST)))
      ensures endCycle == old(endCycle) + PEER_COST && isShared
    {
      hide Cache.View, Cache.Valid;
      snooper.NoteWriteBack();
      endCycle := endCycle + PEER_COST;
      requester.UpdateEndCycleTime(PEER_COST);
      isShared := true;
      requester.NoteBusReadX();
      requester.NoteMemoryUse();
    }

    method HandleReplyMESI(result: SnoopResult, request: BusRequest, snooper: Cache, requester: Cache,
                           foundShared: bool) returns (found: bool)
      requires constants.cfg.protocol == MESI && snooper != requester && snooper.Valid() && requester.Valid()
      modifies this`endCycle, this`isShared, snooper`stats, requester`stats, requester`jobCycleCost
      ensures TakeReply(constants.cfg, result, request.View(),
                        Effect(old(snooper.View()), old(requester.View()), old(endCycle), old(isShared), foundShared))
              == Effect(snooper.View(), requester.View(), endCycle, isShared, found)
    {
      hide ViewsOf, Cache.View, Cache.Valid;
      found := foundShared;
      if result == FLUSH_MODIFIED_TO_INVALID {
        HandleFlushMESI(snooper, requester);
      } else if result == FLUSH_MODIFIED_TO_SHARED {
        endCycle := endCycle + PEER_COST;
        requester.UpdateEndCycleTime(PEER_COST);
        isShared := true;
        requester.NoteMemoryUse();
      } else if result == SHARED {
        if !foundShared {
          endCycle := UnsignedSum(endCycle, -(MEMORY_COST - PEER_COST));
          requester.NewEndCycleTime(PEER_COST);
          found := true;
        }
        isShared := true;
      }
    }

    method HandleReplyMOESI(result: SnoopResult, request: BusRequest, snooper: Cache, requester: Cache,
                            foundShared: bool)
      requires constants.cfg.protocol == MOESI && snooper != requester && snooper.Valid() && requester.Valid()
      modifies this`endCycle, this`isShared, requester`jobCycleCost
      ensures TakeReply(constants.cfg, result, request.View(),
                        Effect(old(snooper.View()), old(requester.View()), old(endCycle), old(isShared), foundShared))
              == Effect(snooper.View(), requester.View(), endCycle, isShared, foundShared)
    {
      hide ViewsOf, Cache.View, Cache.Valid;
      if result == MODIFIED || result == EXCLUSIVE || result == OWNED {
        if request.cycleCost != CACHE_HIT_COST {
          endCycle := UnsignedSum(endCycle, -(MEMORY_COST - PEER_COST));
          requester.NewEndCycleTime(PEER_COST);
        }
        isShared := true;
      }
    }

    method HandleReply(result: SnoopResult, request: BusRequest, snooper: Cache, requester: Cache, foundShared: bool)
      returns (found: bool)
      requires snooper != requester && snooper.Valid() && requester.Valid()
      modifies this`endCycle, this`isShared, snooper`stats, requester`stats, requester`jobCycleCost
      ensures TakeReply(constants.cfg, result, request.View(),
                        Effect(old(snooper.View()), old(requester.View()), old(endCycle), old(isShared), foundShared))
              == Effect(snooper.View(), requester.View(), endCycle, isShared, found)
    {
      hide ViewsOf, Cache.View, Cache.Valid;
      found := foundShared;
      match constants.cfg.protocol
      case MSI => hide TakeReply; HandleReplyMSI(result, request, snooper, requester, foundShared);
      case MESI => hide TakeReply; found := HandleReplyMESI(result, request, snooper, requester, foundShared);
      case DRAGON => isShared := request.sharedLine;
      case MOESI => hide TakeReply; HandleReplyMOESI(result, request, snooper, requester, foundShared);
    }

    /** One cache snoops, and the bus acts on its reply. */
    method AskOne(snooper: Cache, requester: Cache, request: BusRequest, foundShared: bool) returns (found: bool)
      requires snooper.constants == constants == requester.constants && snooper.Valid() && requester.Valid()
            && Apart(requester, snooper) && Apart(snooper, requester)
      requires requester.busRequest == request && request.lineSet < constants.cfg.numSets
      modifies this`endCycle, this`isShared, snooper, snooper.localCache, request, requester
      ensures snooper.Valid() && requester.Valid()
      ensures snooper.busRequest == old(snooper.busRequest) && requester.busRequest == request
      ensures var snooped := Snoop(constants.cfg, constants.cycles, old(snooper.View()), old(request.View()));
              TakeReply(constants.cfg, snooped.reply, snooped.request,
                        Effect(snooped.cache, old(requester.View()).(busRequest := Some(snooped.request)),
                               old(endCycle), old(isShared), foundShared))
              == Effect(snooper.View(), requester.View(), endCycle, isShared, found)
    {
      hide ViewsOf, Cache.View, Cache.Valid, Snoop, TakeReply;
      snooper.Sizes();
      var result := snooper.SnoopBusRequest(request);
      RequestSeen(requester);
      found := HandleReply(result, request, snooper, requester, foundShared);
    }

    /** One iteration of the broadcast loop. */
    method BroadcastOne(i: nat, k: nat, request: BusRequest, foundShared: bool, ghost b: Broadcast)
      returns (found: bool)
      requires Separate(constants, caches) && i < |caches| && k < |caches| && i != k
      requires caches[k].busRequest == request && request.lineSet < constants.cfg.numSets
      requires b == Broadcast(ViewsOf(caches), endCycle, isShared, foundShared)
      modifies this`endCycle, this`isShared, caches[i], caches[i].localCache, request, caches[k]
      ensures Separate(constants, caches)
      ensures forall j | 0 <= j < |caches| :: caches[j].busRequest == old(caches[j].busRequest)
      ensures Broadcast(ViewsOf(caches), endCycle, isShared, found)
              == BroadcastTo(constants.cfg, constants.cycles, k, i, b)
    {
      hide ViewsOf, Cache.View, Cache.Valid, Snoop, TakeReply, BroadcastTo;
      assert Apart(caches[i], caches[k]) && Apart(caches[k], caches[i]);
      RequestIn(k);
      BroadcastToIs(constants.cfg, constants.cycles, k, i, b, request.View());
      found := AskOne(caches[i], caches[k], request, foundShared);
      forall j | 0 <= j < |caches| && j != i && j != k
        ensures Untouched(caches[j])
      {
        assert old(Apart(caches[j], caches[i])) && old(Apart(caches[j], caches[k]));
      }
      TwoCaches((i, k));
    }

    lemma GrantStartIs(s: SystemState, k: nat, request: Request)
      requires k < |s.caches| && s.caches[k].busRequest == Some(request)
      ensures GrantStart(s, k) == Broadcast(s.caches[k := CountBusRequest(StartService(s.cycle, s.caches[k]))],
                                            UnsignedSum(s.cycle, request.cycleCost), s.bus.isShared, false)
    {
    }

    lemma BroadcastToIs(cfg: Config, cycle: nat, k: nat, i: nat, b: Broadcast, request: Request)
      requires k < |b.caches| && i < |b.caches| && i != k && b.caches[k].busRequest == Some(request)
      ensures var snooped := Snoop(cfg, cycle, b.caches[i], request);
              var e := TakeReply(cfg, snooped.reply, snooped.request,
                                 Effect(snooped.cache, b.caches[k].(busRequest := Some(snooped.request)),
                                       b.endCycle, b.isShared, b.foundShared));
              BroadcastTo(cfg, cycle, k, i, b) == Broadcast(b.caches[i := e.snooper][k := e.requester],
                    e.endCycle, e.isShared, e.foundShared)
    {
      hide Snoop, TakeReply;
    }

    lemma RequestIn(k: nat)
      requires k < |caches| && caches[k].busRequest != null
      ensures caches[k].View().busRequest == Some(caches[k].busRequest.View())
    {
    }

    /** A raised flag shows in the requester. */
    twostate lemma RequestSeen(requester: Cache)
      requires requester.busRequest != null && unchanged(requester)
      requires forall i | 0 <= i < |requester.localCache| :: unchanged(requester.localCache[i])
      ensures requester.View() == old(requester.View()).(busRequest := Some(requester.busRequest.View()))
    {
      assert WaysIn(requester.localCache) == old(WaysIn(requester.localCache));
    }

    /** The bus and the caches are in state s (but for the trace, of which they know nothing). */
    ghost predicate InState(s: SystemState)
      reads this, constants, caches, set c, i | c in caches && 0 <= i < |c.localCache| :: c.localCache[i],
            set c | c in caches :: c.busRequest
    {
      Separate(constants, caches) && s.caches == ViewsOf(caches) && s.bus == View() && s.cycle == constants.cycles
    }

    /** The first cache with a request, -1 if there is none. */
    method FindRequest() returns (k: int)
      ensures k == -1 <==> FirstRequest(ViewsOf(caches)) == |caches|
      ensures k != -1 ==> 0 <= k < |caches| && k == FirstRequest(ViewsOf(caches)) && caches[k].haveBusRequest
    {
      k := -1;
      for i := 0 to |caches|
        invariant forall j | 0 <= j < i :: !ViewsOf(caches)[j].haveBusRequest
        invariant k == -1
      {
        if caches[i].haveBusRequest {
          return i;
        }
      }
    }

    /** Broadcast the request of cache k. */
    method BroadcastRequest(k: nat, request: BusRequest, ghost b: Broadcast) returns (foundShared: bool)
      requires Separate(constants, caches) && k < |caches|
      requires caches[k].busRequest == request && request.lineSet < constants.cfg.numSets
      requires b == Broadcast(ViewsOf(caches), endCycle, isShared, false)
      modifies this`endCycle, this`isShared, caches
      modifies set c, i | c in caches && 0 <= i < |c.localCache| :: c.localCache[i]
      modifies set c | c in caches :: c.busRequest
      ensures Separate(constants, caches)
      ensures forall j | 0 <= j < |caches| :: caches[j].busRequest == old(caches[j].busRequest)
      ensures Broadcast(ViewsOf(caches), endCycle, isShared, foundShared)
              == BroadcastUpTo(constants.cfg, constants.cycles, k, |caches|, b)
    {
      hide ViewsOf, Separate, Cache.View, BroadcastTo, BroadcastUpTo;
      foundShared := false;
      BroadcastUnrolls(constants.cfg, constants.cycles, k, 0, b);
      for i := 0 to |caches|
        invariant Separate(constants, caches)
        invariant forall j | 0 <= j < |caches| :: caches[j].busRequest == old(caches[j].busRequest)
        invariant Broadcast(ViewsOf(caches), endCycle, isShared, foundShared)
                  == BroadcastUpTo(constants.cfg, constants.cycles, k, i, b)
      {
        BroadcastUnrolls(constants.cfg, constants.cycles, k, i, b);
        if i != k {
          foundShared := BroadcastOne(i, k, request, foundShared,
                                      BroadcastUpTo(constants.cfg, constants.cycles, k, i, b));
        }
      }
    }

    lemma BroadcastUnrolls(cfg: Config, cycle: nat, k: nat, i: nat, b: Broadcast)
      requires k < |b.caches| && i <= |b.caches|
      ensures BroadcastUpTo(cfg, cycle, k, 0, b) == b
      ensures i < |b.caches| && i != k ==> BroadcastUpTo(cfg, cycle, k, i + 1, b) == BroadcastTo(cfg, cycle, k, i,
            BroadcastUpTo(cfg, cycle, k, i, b))
      ensures i < |b.caches| && i == k ==> BroadcastUpTo(cfg, cycle, k, i + 1, b) == BroadcastUpTo(cfg, cycle, k, i, b)
    {
      hide BroadcastTo;
      if i == k {
        BroadcastSkips(cfg, cycle, k, BroadcastUpTo(cfg, cycle, k, k, b));
      }
    }

    lemma Distinct(k: nat)
      requires Separate(constants, caches) && k < |caches|
      ensures caches[k].Valid() && caches[k].constants == constants
      ensures forall j | 0 <= j < |caches| && j != k :: caches[j] != caches[k]
    {
      hide Cache.Valid;
      assert forall j | 0 <= j < |caches| && j != k :: Apart(caches[j], caches[k]);
    }

    method StartOne(c: Cache) returns (request: BusRequest?)
      requires c.constants == constants && c.Valid()
      modifies c`startServiceCycle, c`busRequestBeingServiced, c`stats
      ensures c.Valid() && request == c.busRequest
      ensures c.View() == CountBusRequest(StartService(constants.cycles, old(c.View())))
    {
      hide Cache.View, Cache.Valid, CountBusRequest, StartService;
      request := c.GetBusRequest();
      c.NoteBusRequest();
    }

    /** Cache k is told that its request is being served. */
    method ServeRequest(k: nat) returns (request: BusRequest?)
      requires Separate(constants, caches) && k < |caches|
      modifies caches[k]
      ensures Separate(constants, caches) && request == caches[k].busRequest
      ensures forall j | 0 <= j < |caches| :: caches[j].busRequest == old(caches[j].busRequest)
      ensures ViewsOf(caches)
              == old(ViewsOf(caches))[k := CountBusRequest(StartService(constants.cycles, old(ViewsOf(caches))[k]))]
    {
      Distinct(k);
      hide Separate, Apart, ViewsOf, Cache.View, Cache.Valid, CountBusRequest, StartService;
      request := StartOne(caches[k]);
      assert forall j | 0 <= j < |caches| && j != k :: Untouched(caches[j]);
      hide Untouched;
      OneCache(k);
    }

    method NoteReadFromMemory(k: nat)
      requires Separate(constants, caches) && k < |caches|
      modifies caches[k]
      ensures Separate(constants, caches)
      ensures forall j | 0 <= j < |caches| :: caches[j].busRequest == old(caches[j].busRequest)
      ensures ViewsOf(caches) == old(ViewsOf(caches))[k := CountMemoryUse(old(ViewsOf(caches))[k])]
    {
      Distinct(k);
      hide Separate, Apart, ViewsOf, Cache.View, Cache.Valid;
      caches[k].NoteMemoryUse();
      assert forall j | 0 <= j < |caches| && j != k :: Untouched(caches[j]);
      hide Untouched;
      OneCache(k);
    }

    /** A transaction of cache k begins. */
    method Occupy(k: int, cost: int)
      requires Separate(constants, caches)
      modifies this
      ensures Separate(constants, caches) && ViewsOf(caches) == old(ViewsOf(caches))
      ensures View() == BusState(k, true, constants.cycles, UnsignedSum(constants.cycles, cost), old(isShared))
    {
      hide ViewsOf, Separate, Cache.View;
      currentCache := k;
      startCycle := constants.cycles;
      endCycle := UnsignedSum(startCycle, cost);
      inUse := true;
    }

    /** The bus is free. */
    method Release(k: int)
      requires Separate(constants, caches)
      modifies this
      ensures Separate(constants, caches) && ViewsOf(caches) == old(ViewsOf(caches))
      ensures View() == BusState(k, false, old(startCycle), old(endCycle), false)
    {
      hide ViewsOf, Separate, Cache.View;
      currentCache := k;
      inUse := false;
      isShared := false;
    }

    /** The transaction of cache k begins. */
    method Begin(k: nat, ghost s: SystemState) returns (request: BusRequest)
      requires InState(s) && k < |caches| && caches[k].busRequest != null
      modifies this, caches[k]
      ensures Separate(constants, caches) && request == caches[k].busRequest
      ensures forall j | 0 <= j < |caches| :: caches[j].busRequest == old(caches[j].busRequest)
      ensures View() == BusState(k, true, s.cycle, endCycle, isShared)
      ensures Broadcast(ViewsOf(caches), endCycle, isShared, false) == GrantStart(s, k)
    {
      hide ViewsOf, Separate, Cache.View, GrantStart, CountBusRequest, StartService;
      RequestIn(k);
      GrantStartIs(s, k, caches[k].busRequest.View());
      request := ServeRequest(k);
      Occupy(k, request.cycleCost);
    }

    /** Serve cache k: its transaction begins, and everybody hears of it. */
    method GrantCache(k: nat, ghost s: SystemState)
      requires InState(s) && k < |caches|
      requires caches[k].busRequest != null && caches[k].busRequest.lineSet < constants.cfg.numSets
      modifies this, caches
      modifies set c, i | c in caches && 0 <= i < |c.localCache| :: c.localCache[i]
      modifies set c | c in caches :: c.busRequest
      ensures InState(GrantTo(constants.cfg, s, k))
      ensures forall j | 0 <= j < |caches| :: caches[j].busRequest == old(caches[j].busRequest)
    {
      hide ViewsOf, Separate, Cache.View, Cache.Valid, BroadcastUpTo, GrantStart, CountMemoryUse;
      var request := Begin(k, s);
      var foundShared := BroadcastRequest(k, request, GrantStart(s, k));
      if !foundShared && constants.cfg.protocol == MESI {
        NoteReadFromMemory(k);
      }
    }

    method Grant(ghost s: SystemState)
      requires InState(s) && RequestsSet(constants.cfg, s.caches)
      modifies this, caches
      modifies set c, i | c in caches && 0 <= i < |c.localCache| :: c.localCache[i]
      modifies set c | c in caches :: c.busRequest
      ensures InState(SystemModel.Grant(constants.cfg, s))
      ensures forall j | 0 <= j < |caches| :: caches[j].busRequest == old(caches[j].busRequest)
    {
      hide ViewsOf, Separate, Cache.View, GrantTo;
      var k := FindRequest();
      if k == -1 {
        Release(currentCache);
      } else {
        assert RequestSet(constants.cfg, s.caches[k]);
        RequestOf(k);
        GrantCache(k, s);
      }
    }

    lemma RequestOf(k: nat)
      requires k < |caches|
      ensures ViewsOf(caches)[k].currentJob == caches[k].currentJob
      ensures ViewsOf(caches)[k].busRequest.Some? <==> caches[k].busRequest != null
      ensures caches[k].busRequest != null ==> ViewsOf(caches)[k].busRequest == Some(caches[k].busRequest.View())
    {
    }

    /** The completion of the current transaction, as its cache sees it. */
    method FinishOne(c: Cache)
      requires c.constants == constants && c.Valid() && constants.cycles < ULLONG_MAX
      requires c.currentJob.Some? && c.busRequest != null
      modifies c, c.localCache
      ensures c.Valid() && (c.busRequest == old(c.busRequest) || fresh(c.busRequest))
      ensures c.View() == FinishedCache(constants.cfg, constants.cycles, old(c.View()), isShared)
    {
      RequestFound(c);
      hide Cache.View, Cache.Valid, CacheModel.BusJobDone;
      var currentRequest := c.GetBusRequest();
      if constants.cfg.protocol == MSI && currentRequest.command == BusRdX {
        c.NoteBusReadX();
      }
      c.BusJobDone(isShared);
    }

    lemma RequestFound(c: Cache)
      requires c.busRequest != null
      ensures c.View().busRequest.Some? && c.View().busRequest.value.command == c.busRequest.command
    {
    }

    /** The request of cache k has been served. */
    method FinishCache(k: nat)
      requires Separate(constants, caches) && k < |caches| && constants.cycles < ULLONG_MAX
      requires caches[k].currentJob.Some? && caches[k].busRequest != null
      modifies caches[k], caches[k].localCache
      ensures Separate(constants, caches)
      ensures forall j | 0 <= j < |caches| ::
                caches[j].busRequest == old(caches[j].busRequest) || fresh(caches[j].busRequest)
      ensures ViewsOf(caches)
              == old(ViewsOf(caches))[k :=
                                      FinishedCache(constants.cfg, constants.cycles, old(ViewsOf(caches))[k], isShared)]
    {
      hide ViewsOf, Cache.View, Cache.Valid, FinishedCache;
      assert caches[k].Valid();
      FinishOne(caches[k]);
      forall j | 0 <= j < |caches| && j != k
        ensures Untouched(caches[j])
      {
        assert old(Apart(caches[j], caches[k]));
      }
      OneCache(k);
    }

    /** One tick of the bus. */
    method Tick(ghost s: SystemState)
      requires InState(s) && constants.Valid() && BusReady(constants.cfg, s)
      modifies this, caches
      modifies set c, i | c in caches && 0 <= i < |c.localCache| :: c.localCache[i]
      modifies set c | c in caches :: c.busRequest
      ensures InState(BusTick(constants.cfg, s))
      ensures forall j | 0 <= j < |caches| ::
                caches[j].busRequest == old(caches[j].busRequest) || fresh(caches[j].busRequest)
    {
      hide ViewsOf, Separate, Cache.View, SystemModel.Grant, FinishedCache;
      ghost var s1 := s;
      if inUse {
        if constants.cycles < endCycle {
          return;
        }
        RequestOf(currentCache);
        FinishCache(currentCache);
        Release(-1);
        s1 := FinishTransaction(constants.cfg, s);
        FinishIs(constants.cfg, s);
        DoneRequestSet(constants.cfg, s.cycle, s.caches[s.bus.currentCache], s.bus.isShared);
        hide FinishTransaction, RequestSet;
        assert RequestsSet(constants.cfg, s1.caches);
      }
      Grant(s1);
    }

    lemma FinishIs(cfg: Config, s: SystemState)
      requires 0 <= s.bus.currentCache < |s.caches|
      ensures FinishTransaction(cfg, s)
              == s.(caches :=
                    s.caches[s.bus.currentCache :=
                             FinishedCache(cfg, s.cycle, s.caches[s.bus.currentCache], s.bus.isShared)], bus :=
                                 s.bus.(currentCache := -1, inUse := false, isShared := false))
    {
      hide CacheModel.BusJobDone;
    }
  }
}
