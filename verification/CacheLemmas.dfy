/** What the cache operations do to the state of every block, and that they keep the sets in order. */
module CacheLemmas {
  import opened Wrappers
  import opened Constants
  import opened Requests
  import opened Sets
  import opened CacheModel
  import opened Coherence

  ghost predicate GoodSet(cfg: Config, cycle: nat, index: nat, ways: Ways) {
    && |ways| == cfg.numLinesInSet
    && WellFormed(ways)
    && StampedBy(ways, cycle)
    && (forall i | 0 <= i < |ways| :: InProtocol(cfg.protocol, ways[i].state))
    && (forall i | 0 <= i < |ways| && ways[i].state != Invalid :: SetOf(cfg, ways[i].tag) == index)
  }

  /** Every set of the cache is in order: right size, valid lines findable and in the set their block
      maps to, no stamp from the future. */
  ghost predicate GoodSets(cfg: Config, cycle: nat, sets: seq<Ways>) {
    && |sets| == cfg.numSets
    && forall i | 0 <= i < |sets| :: GoodSet(cfg, cycle, i, sets[i])
  }

  /** c' holds every block as c does, except `block`, which it holds as `state`. */
  ghost predicate HoldsAs(cfg: Config, c: CacheState, block: nat, state: State, c': CacheState) {
    forall u {:trigger StateIn(cfg, c', u)} :: StateIn(cfg, c', u) == if u == block then state else StateIn(cfg, c, u)
  }

  ghost predicate HoldsSame(cfg: Config, c: CacheState, c': CacheState) {
    forall u {:trigger StateIn(cfg, c', u)} :: StateIn(cfg, c', u) == StateIn(cfg, c, u)
  }

  ghost predicate OnlyLines(c: CacheState, c': CacheState) {
    c' == c.(localCache := c'.localCache)
  }

  lemma LaterIsGood(cfg: Config, cycle: nat, later: nat, sets: seq<Ways>)
    requires GoodSets(cfg, cycle, sets) && cycle <= later
    ensures GoodSets(cfg, later, sets)
  {
    forall i | 0 <= i < |sets|
      ensures GoodSet(cfg, later, i, sets[i])
    {
      assert GoodSet(cfg, cycle, i, sets[i]);
    }
  }

  lemma HasLineIsState(cfg: Config, cycle: nat, c: CacheState, block: nat)
    requires ValidConfig(cfg) && GoodSets(cfg, cycle, c.localCache)
    ensures HasLine(cfg, c, block) <==> StateIn(cfg, c, block) != Invalid
    ensures SeenState(cfg, c, block) == StateIn(cfg, c, block)
    ensures InProtocol(cfg.protocol, StateIn(cfg, c, block))
  {
    SetInRange(cfg, block);
    assert GoodSet(cfg, cycle, SetOf(cfg, block), WaysOf(cfg, c, block));
    HasIsState(WaysOf(cfg, c, block), block);
  }

  /** Replacing the contents of one set by contents that agree with it on every block but one. */
  lemma WithWaysHolds(cfg: Config, cycle: nat, c: CacheState, block: nat, ways: Ways, state: State)
    requires ValidConfig(cfg) && GoodSets(cfg, cycle, c.localCache)
    requires GoodSet(cfg, cycle, SetOf(cfg, block), ways)
    requires forall u :: StateOf(ways, u) == if u == block then state else StateOf(WaysOf(cfg, c, block), u)
    ensures GoodSets(cfg, cycle, WithWays(cfg, c, block, ways).localCache)
    ensures HoldsAs(cfg, c, block, state, WithWays(cfg, c, block, ways))
  {
    hide GoodSet, StateOf, SetOf;
    SetInRange(cfg, block);
  }

  lemma TouchHolds(cfg: Config, cycle: nat, c: CacheState, block: nat)
    requires ValidConfig(cfg) && GoodSets(cfg, cycle, c.localCache)
    ensures GoodSets(cfg, cycle, TouchLine(cfg, cycle, c, block).localCache)
    ensures HoldsSame(cfg, c, TouchLine(cfg, cycle, c, block))
    ensures OnlyLines(c, TouchLine(cfg, cycle, c, block))
  {
    SetInRange(cfg, block);
    var ways := WaysOf(cfg, c, block);
    assert GoodSet(cfg, cycle, SetOf(cfg, block), ways);
    TouchKeepsStates(ways, block, cycle);
    WithWaysHolds(cfg, cycle, c, block, Touch(ways, block, cycle), StateIn(cfg, c, block));
  }

  lemma ProbeHolds(cfg: Config, cycle: nat, c: CacheState, block: nat)
    requires ValidConfig(cfg) && GoodSets(cfg, cycle, c.localCache)
    ensures GoodSets(cfg, cycle, ProbeLine(cfg, cycle, c, block).localCache)
    ensures HoldsSame(cfg, c, ProbeLine(cfg, cycle, c, block))
    ensures OnlyLines(c, ProbeLine(cfg, cycle, c, block))
  {
    TouchHolds(cfg, cycle, c, block);
  }

  /** Setting the state of a line the set can find. */
  lemma PutHolds(cfg: Config, cycle: nat, c: CacheState, block: nat, state: State)
    requires ValidConfig(cfg) && GoodSets(cfg, cycle, c.localCache)
    requires Find(WaysOf(cfg, c, block), block) < |WaysOf(cfg, c, block)|
    requires InProtocol(cfg.protocol, state)
    ensures GoodSets(cfg, cycle, PutLine(cfg, cycle, c, block, state).localCache)
    ensures HoldsAs(cfg, c, block, state, PutLine(cfg, cycle, c, block, state))
    ensures OnlyLines(c, PutLine(cfg, cycle, c, block, state))
  {
    SetInRange(cfg, block);
    var ways := WaysOf(cfg, c, block);
    assert GoodSet(cfg, cycle, SetOf(cfg, block), ways);
    SetStateChangesOne(ways, block, state, cycle);
    WithWaysHolds(cfg, cycle, c, block, SetState(ways, block, state, cycle), state);
  }

  lemma SetLineStateHolds(cfg: Config, cycle: nat, c: CacheState, block: nat, state: State)
    requires ValidConfig(cfg) && GoodSets(cfg, cycle, c.localCache)
    requires InProtocol(cfg.protocol, state)
    ensures GoodSets(cfg, cycle, SetLineState(cfg, cycle, c, block, state).localCache)
    ensures HoldsAs(cfg, c, block, if StateIn(cfg, c, block) != Invalid then state else Invalid,
                    SetLineState(cfg, cycle, c, block, state))
    ensures OnlyLines(c, SetLineState(cfg, cycle, c, block, state))
  {
    HasLineIsState(cfg, cycle, c, block);
    if HasLine(cfg, c, block) {
      PutHolds(cfg, cycle, c, block, state);
    }
  }

  // ---------------------------------------------------------------------------------------------
  // Serving a job.

  predicate NeedsBus(job: Job, own: State) {
    (IsWrite(job) && !WritesSilently(own)) || (IsRead(job) && own == Invalid)
  }

  /** The cost a request is issued with. */
  function IssueCost(cfg: Config, cycle: nat, write: bool, own: State): int {
    match cfg.protocol
    case MSI => MEMORY_COST
    case MESI => if write then PEER_COST else MEMORY_COST
    case DRAGON => if write then CACHE_HIT_COST else PEER_COST
    case MOESI => if !write then MEMORY_COST else if own == Owned then CACHE_HIT_COST else ToInt(cfg.unset(cycle))
  }

  function RequestFor(cfg: Config, command: Command, address: nat, cost: int): Request {
    var block := BlockOf(cfg, address);
    Request(command, SetOf(cfg, block), ToInt(block), cost, address, false)
  }

  /** The parts of a cache that serving a job does not touch. */
  ghost predicate SameJob(c: CacheState, c': CacheState) {
    c'.currentJob == c.currentJob && c'.pendingJobs == c.pendingJobs
        && c'.busRequestBeingServiced == c.busRequestBeingServiced
  }

  ghost predicate Hitting(cycle: nat, c: CacheState, c': CacheState) {
    && SameJob(c, c') && c'.busy && !c'.haveBusRequest
    && c'.startServiceCycle == cycle && c'.jobCycleCost == CACHE_HIT_COST
  }

  ghost predicate Asking(c: CacheState, request: Request, c': CacheState) {
    SameJob(c, c') && c'.busy && c'.haveBusRequest && c'.busRequest == Some(request)
  }

  lemma HoldsCompose(cfg: Config, c: CacheState, c1: CacheState, block: nat, state: State, c': CacheState)
    requires HoldsSame(cfg, c, c1) && HoldsAs(cfg, c1, block, state, c')
    ensures HoldsAs(cfg, c, block, state, c')
  {
    hide StateIn;
  }

  /** An own copy becomes `state`; an absent line stays absent. */
  function RaisedTo(cfg: Config, c: CacheState, block: nat, state: State): State {
    if StateIn(cfg, c, block) != Invalid then state else Invalid
  }

  lemma SetAfter(cfg: Config, cycle: nat, c: CacheState, asked: CacheState, block: nat, state: State)
    requires ValidConfig(cfg) && GoodSets(cfg, cycle, c.localCache)
    requires InProtocol(cfg.protocol, state)
    requires asked.localCache == c.localCache
    ensures var c' := SetLineState(cfg, cycle, asked, block, state);
            && GoodSets(cfg, cycle, c'.localCache)
            && HoldsAs(cfg, c, block, RaisedTo(cfg, c, block, state), c')
            && OnlyLines(asked, c')
  {
    SetLineStateHolds(cfg, cycle, asked, block, state);
    SameIsHolds(cfg, c, block, asked);
    hide GoodSets;
    HoldsCompose(cfg, c, asked, block, RaisedTo(cfg, c, block, state), SetLineState(cfg, cycle, asked, block, state));
  }

  lemma WriteExclusiveEffect(cfg: Config, cycle: nat, c: CacheState, address: nat)
    requires ValidConfig(cfg) && GoodSets(cfg, cycle, c.localCache)
    requires InProtocol(cfg.protocol, Modified)
    ensures var c' := WriteExclusive(cfg, cycle, c, address);
            && GoodSets(cfg, cycle, c'.localCache)
            && HoldsAs(cfg, c, BlockOf(cfg, address), RaisedTo(cfg, c, BlockOf(cfg, address), Modified), c')
            && Hitting(cycle, c, c')
  {
    hide GoodSets, HoldsAs, SetLineState, StateIn;
    var c1 := CountWriteHit(StartHit(cycle, c));
    var asked := c1.(stats :=
                     c1.stats.(numExclusiveToModifiedTransitions := c1.stats.numExclusiveToModifiedTransitions + 1));
    SetAfter(cfg, cycle, c, asked, BlockOf(cfg, address), Modified);
  }

  lemma WriteSharedInvalidEffect(cfg: Config, cycle: nat, c: CacheState, address: nat)
    requires ValidConfig(cfg) && GoodSets(cfg, cycle, c.localCache)
    requires InProtocol(cfg.protocol, Modified)
    ensures var c' := WriteSharedInvalid(cfg, cycle, c, address);
            && GoodSets(cfg, cycle, c'.localCache)
            && HoldsAs(cfg, c, BlockOf(cfg, address), RaisedTo(cfg, c, BlockOf(cfg, address), Modified), c')
            && Asking(c, RequestFor(cfg, BusRdX, address, ToInt(TotalMemoryCost(cfg, cycle))), c')
  {
    hide GoodSets, HoldsAs, SetLineState, StateIn;
    var c1 := if SeenState(cfg, c, BlockOf(cfg, address)) == Shared
              then c.(stats :=
                      c.stats.(numWriteShared := c.stats.numWriteShared + 1, numWriteHits := c.stats.numWriteHits + 1))
              else c;
    var cost := TotalMemoryCost(cfg, cycle);
    var asked := AskBus(cfg, c1, BusRdX, address, cost).(jobCycleCost := cost);
    SetAfter(cfg, cycle, c, asked, BlockOf(cfg, address), Modified);
  }

  lemma WriteUpgradeEffect(cfg: Config, cycle: nat, c: CacheState, address: nat, state: State)
    requires ValidConfig(cfg) && GoodSets(cfg, cycle, c.localCache)
    requires InProtocol(cfg.protocol, state)
    ensures var c' := WriteUpgrade(cfg, cycle, c, address, state);
            && GoodSets(cfg, cycle, c'.localCache)
            && HoldsAs(cfg, c, BlockOf(cfg, address), RaisedTo(cfg, c, BlockOf(cfg, address), state), c')
            && Asking(c, RequestFor(cfg, BusRdX, address, CACHE_HIT_COST), c')
  {
    hide GoodSets, HoldsAs, SetLineState, StateIn;
    var c1 := AskBus(cfg, c, BusRdX, address, CACHE_HIT_COST);
    var asked := c1.(stats := c1.stats.(numHit := c1.stats.numHit + 1), jobCycleCost := CACHE_HIT_COST);
    SetAfter(cfg, cycle, c, asked, BlockOf(cfg, address), state);
  }

  /** Which part of `handleWrite` runs, by the state of the own copy. */
  lemma HandleWriteIs(cfg: Config, cycle: nat, c: CacheState, address: nat)
    requires SeenState(cfg, c, BlockOf(cfg, address)) == StateIn(cfg, c, BlockOf(cfg, address))
    requires InProtocol(cfg.protocol, StateIn(cfg, c, BlockOf(cfg, address)))
    ensures var own := StateIn(cfg, c, BlockOf(cfg, address));
            var c1 := ProbeLine(cfg, cycle, c, BlockOf(cfg, address));
            HandleWrite(cfg, cycle, c, address)
            == if own == Exclusive then WriteExclusive(cfg, cycle, c1, address)
               else if own == Modified then WriteModified(cycle, c1)
               else if cfg.protocol == DRAGON && own == Invalid then WriteMissDragon(cfg, c1, address)
               else if cfg.protocol == DRAGON then WriteUpgrade(cfg, cycle, c1, address, SharedDirty)
               else if own == Owned then WriteUpgrade(cfg, cycle, c1, address, Modified)
               else WriteSharedInvalid(cfg, cycle, c1, address)
  {
    hide SeenState, StateIn, ProbeLine, WriteExclusive, WriteModified, WriteMissDragon, WriteUpgrade,
         WriteSharedInvalid, BlockOf;
  }

  lemma WriteModifiedEffect(cfg: Config, cycle: nat, c: CacheState, block: nat)
    requires GoodSets(cfg, cycle, c.localCache) && StateIn(cfg, c, block) == Modified
    ensures var c' := WriteModified(cycle, c);
            GoodSets(cfg, cycle, c'.localCache) && HoldsAs(cfg, c, block, Modified, c') && Hitting(cycle, c, c')
  {
    SameIsHolds(cfg, c, block, WriteModified(cycle, c));
    hide GoodSets, HoldsAs, StateIn;
  }

  lemma WriteMissDragonEffect(cfg: Config, cycle: nat, c: CacheState, address: nat)
    requires GoodSets(cfg, cycle, c.localCache) && StateIn(cfg, c, BlockOf(cfg, address)) == Invalid
    ensures var c' := WriteMissDragon(cfg, c, address);
            && GoodSets(cfg, cycle, c'.localCache)
            && HoldsAs(cfg, c, BlockOf(cfg, address), Invalid, c')
            && Asking(c, RequestFor(cfg, BusRd, address, CACHE_HIT_COST), c')
  {
    SameIsHolds(cfg, c, BlockOf(cfg, address), WriteMissDragon(cfg, c, address));
    hide GoodSets, HoldsAs, StateIn, BlockOf, SetOf;
  }

  /** What a write costs on the bus. */
  lemma WriteCost(cfg: Config, cycle: nat, own: State)
    requires InProtocol(cfg.protocol, own) && cfg.protocol != DRAGON && own != Owned
    ensures ToInt(TotalMemoryCost(cfg, cycle)) == IssueCost(cfg, cycle, true, own)
  {
  }

  lemma HandleWriteEffect(cfg: Config, cycle: nat, c: CacheState, address: nat)
    requires ValidConfig(cfg) && GoodSets(cfg, cycle, c.localCache)
    ensures var block := BlockOf(cfg, address);
            var own := StateIn(cfg, c, block);
            var c' := HandleWrite(cfg, cycle, c, address);
            && GoodSets(cfg, cycle, c'.localCache)
            && HoldsAs(cfg, c, block, if WritesSilently(own) then Modified else OwnAtIssue(cfg.protocol, true, own), c')
            && (if WritesSilently(own) then Hitting(cycle, c, c')
                else Asking(c,
                            RequestFor(cfg, CommandFor(cfg.protocol, true, own), address,
                                       IssueCost(cfg, cycle, true, own)), c'))
  {
    var block := BlockOf(cfg, address);
    HasLineIsState(cfg, cycle, c, block);
    ProbeHolds(cfg, cycle, c, block);
    var c1 := ProbeLine(cfg, cycle, c, block);
    var own := StateIn(cfg, c, block);
    var c' := HandleWrite(cfg, cycle, c, address);
    assert SameJob(c, c1);
    assert StateIn(cfg, c1, block) == own;
    hide GoodSets, HasLine, SeenState, StateIn, ProbeLine, HandleWrite, WriteExclusive, WriteModified, WriteMissDragon,
         WriteSharedInvalid, WriteUpgrade, HoldsAs, ToInt, RequestFor, HoldsSame;
    HandleWriteIs(cfg, cycle, c, address);
    if own == Exclusive {
      WriteExclusiveEffect(cfg, cycle, c1, address);
      HoldsCompose(cfg, c, c1, block, Modified, c');
    } else if own == Modified {
      WriteModifiedEffect(cfg, cycle, c1, block);
      HoldsCompose(cfg, c, c1, block, Modified, c');
    } else if cfg.protocol == DRAGON && own == Invalid {
      WriteMissDragonEffect(cfg, cycle, c1, address);
      HoldsCompose(cfg, c, c1, block, Invalid, c');
    } else if cfg.protocol == DRAGON {
      WriteUpgradeEffect(cfg, cycle, c1, address, SharedDirty);
      HoldsCompose(cfg, c, c1, block, SharedDirty, c');
    } else if own == Owned {
      WriteUpgradeEffect(cfg, cycle, c1, address, Modified);
      HoldsCompose(cfg, c, c1, block, Modified, c');
    } else {
      WriteSharedInvalidEffect(cfg, cycle, c1, address);
      WriteCost(cfg, cycle, own);
      HoldsCompose(cfg, c, c1, block, OwnAtIssue(cfg.protocol, true, own), c');
    }
  }

  /** Only the lines matter for what is held. */
  lemma SameIsHolds(cfg: Config, c: CacheState, block: nat, c': CacheState)
    requires c'.localCache == c.localCache
    ensures HoldsAs(cfg, c, block, StateIn(cfg, c, block), c') && HoldsSame(cfg, c, c')
  {
    assert forall u :: WaysOf(cfg, c', u) == WaysOf(cfg, c, u);
    hide StateOf;
  }

  lemma HandleReadEffect(cfg: Config, cycle: nat, c: CacheState, address: nat)
    requires ValidConfig(cfg) && GoodSets(cfg, cycle, c.localCache)
    ensures var block := BlockOf(cfg, address);
            var own := StateIn(cfg, c, block);
            var c' := HandleRead(cfg, cycle, c, address);
            && GoodSets(cfg, cycle, c'.localCache)
            && HoldsSame(cfg, c, c')
            && (if own != Invalid then Hitting(cycle, c, c')
                else Asking(c, RequestFor(cfg, BusRd, address, IssueCost(cfg, cycle, false, own)), c'))
  {
    var block := BlockOf(cfg, address);
    HasLineIsState(cfg, cycle, c, block);
    ProbeHolds(cfg, cycle, c, block);
    var c1 := ProbeLine(cfg, cycle, c, block);
    var c' := HandleRead(cfg, cycle, c, address);
    assert SameJob(c, c1);
    assert !HasLine(cfg, c, block) ==> c1 == c;
    SameIsHolds(cfg, c1, block, c1);
    hide GoodSets, HasLine, SeenState, ProbeLine, Has, StateOf, WaysOf;
    assert c'.localCache == c1.localCache;
    SameIsHolds(cfg, c1, block, c');
  }

  // ---------------------------------------------------------------------------------------------
  // Idle ticks.

  /** c' is c after a tick in which it had nothing to do: some stamps may be newer. */
  ghost predicate Restamped(cfg: Config, cycle: nat, c: CacheState, c': CacheState) {
    && c' == c.(localCache := c'.localCache)
    && GoodSets(cfg, cycle, c'.localCache)
    && HoldsSame(cfg, c, c')
  }

  lemma FinishJobRestamps(cfg: Config, cycle: nat, c: CacheState)
    requires ValidConfig(cfg) && GoodSets(cfg, cycle, c.localCache)
    ensures Restamped(cfg, cycle, c.(busy := false), FinishJob(cfg, cycle, c))
  {
    if c.currentJob.Some? {
      ProbeHolds(cfg, cycle, c.(busy := false), BlockOf(cfg, c.currentJob.value.address));
    }
  }

  lemma IdleTick(cfg: Config, cycle: nat, c: CacheState)
    requires ValidConfig(cfg) && GoodSets(cfg, cycle, c.localCache)
    requires |c.pendingJobs| == 0 && !c.busRequestBeingServiced
    ensures Restamped(cfg, cycle,
                      if UnsignedSum(c.startServiceCycle, c.jobCycleCost) <= cycle then c.(busy := false)
                          else c, CacheTick(cfg, cycle, c))
  {
    FinishJobRestamps(cfg, cycle, c);
  }

  // ---------------------------------------------------------------------------------------------
  // Snooping.

  lemma HoldsByLines(cfg: Config, c: CacheState, block: nat, state: State, c1: CacheState, c2: CacheState)
    requires HoldsAs(cfg, c, block, state, c1) && c2.localCache == c1.localCache
    ensures HoldsAs(cfg, c, block, state, c2)
  {
    SameIsHolds(cfg, c1, block, c2);
    hide StateIn;
  }

  lemma SnoopEffect(cfg: Config, cycle: nat, c: CacheState, request: Request, block: nat)
    requires ValidConfig(cfg) && GoodSets(cfg, cycle, c.localCache)
    requires request.lineSet == SetOf(cfg, block) && request.lineTag == ToInt(block)
    ensures var tag := SnoopedTag(block);
            var state := StateIn(cfg, c, tag);
            var r := Snoop(cfg, cycle, c, request);
            && GoodSets(cfg, cycle, r.cache.localCache)
            && HoldsAs(cfg, c, tag, SnoopState(cfg.protocol, request.command, state), r.cache)
            && r.reply == SnoopReply(cfg.protocol, request.command, state)
            && r.request
               == request.(sharedLine := request.sharedLine || RaisesShared(cfg.protocol, request.command, state))
            && r.cache
               == c.(localCache := r.cache.localCache,
                     stats := SnoopStats(cfg.protocol, request.command, state, c.stats))
  {
    var tag := SnoopedTag(block);
    var state := StateIn(cfg, c, tag);
    SnoopedTagStaysInSet(cfg, block);
    SetInRange(cfg, block);
    HasLineIsState(cfg, cycle, c, tag);
    assert GoodSet(cfg, cycle, SetOf(cfg, tag), WaysOf(cfg, c, tag));
    assert SnoopedWays(c, request) == WaysOf(cfg, c, tag);
    var r := Snoop(cfg, cycle, c, request);
    if HasLine(cfg, c, tag) {
      var state' := SnoopState(cfg.protocol, request.command, state);
      var put := PutLine(cfg, cycle, c, tag, state');
      PutHolds(cfg, cycle, c, tag, state');
      hide GoodSets, GoodSet, HoldsAs, Has, StateOf, SetState;
      assert r.cache.localCache == put.localCache;
      HoldsByLines(cfg, c, tag, state', put, r.cache);
    } else {
      hide GoodSets, GoodSet, HoldsAs, StateOf, SetState;
      assert r == Snooped(c, NONE, request);
      SameIsHolds(cfg, c, tag, c);
    }
  }

  // ---------------------------------------------------------------------------------------------
  // Completion.

  /** The block that bringing `block` in pushes out. */
  ghost predicate PushesOut(cfg: Config, c: CacheState, block: nat, u: nat) {
    u != block && StateIn(cfg, c, block) == Invalid && Evicts(WaysOf(cfg, c, block), u)
  }

  ghost predicate PlacedAs(cfg: Config, c: CacheState, block: nat, c': CacheState) {
    forall u {:trigger StateIn(cfg, c', u)} ::
      StateIn(cfg, c', u) == if PushesOut(cfg, c, block, u) then Invalid else StateIn(cfg, c, u)
  }

  lemma FillHolds(cfg: Config, cycle: nat, c: CacheState, block: nat)
    requires ValidConfig(cfg) && GoodSets(cfg, cycle, c.localCache) && !HasLine(cfg, c, block)
    ensures var c' := WithWays(cfg, c, block, Replace(WaysOf(cfg, c, block), block, cycle));
            && GoodSets(cfg, cycle, c'.localCache)
            && Find(WaysOf(cfg, c', block), block) < |WaysOf(cfg, c', block)|
            && PlacedAs(cfg, c, block, c')
  {
    SetInRange(cfg, block);
    HasLineIsState(cfg, cycle, c, block);
    var ways := WaysOf(cfg, c, block);
    var ways' := Replace(ways, block, cycle);
    var c' := WithWays(cfg, c, block, ways');
    assert GoodSet(cfg, cycle, SetOf(cfg, block), ways);
    ReplaceChangesOne(ways, block, cycle);
    assert GoodSet(cfg, cycle, SetOf(cfg, block), ways');
    assert GoodSets(cfg, cycle, c'.localCache);
    hide GoodSets, WellFormed, Replace;
    forall u
      ensures StateIn(cfg, c', u) == if PushesOut(cfg, c, block, u) then Invalid else StateIn(cfg, c, u)
    {
      SetInRange(cfg, u);
      if Evicts(ways, u) {
        assert SetOf(cfg, u) == SetOf(cfg, block);
      }
    }
  }

  lemma PlaceHolds(cfg: Config, cycle: nat, c: CacheState, job: Job)
    requires ValidConfig(cfg) && GoodSets(cfg, cycle, c.localCache)
    ensures var block := BlockOf(cfg, job.address);
            var c' := PlaceLine(cfg, cycle, c, job);
            && GoodSets(cfg, cycle, c'.localCache)
            && Find(WaysOf(cfg, c', block), block) < |WaysOf(cfg, c', block)|
            && PlacedAs(cfg, c, block, c')
            && c' == c.(localCache := c'.localCache, stats := c'.stats)
  {
    var block := BlockOf(cfg, job.address);
    HasLineIsState(cfg, cycle, c, block);
    var c' := PlaceLine(cfg, cycle, c, job);
    if HasLine(cfg, c, block) {
      TouchHolds(cfg, cycle, c, block);
      TouchFinds(cfg, cycle, c, block);
      hide GoodSets, Has, StateIn, TouchLine, WaysOf;
    } else {
      var filled := WithWays(cfg, c, block, Replace(WaysOf(cfg, c, block), block, cycle));
      var counted := if cfg.protocol != DRAGON && IsWrite(job)
                     then filled.(stats := filled.stats.(numWriteMisses := filled.stats.numWriteMisses + 1))
                         else filled;
      FillHolds(cfg, cycle, c, block);
      SameIsHolds(cfg, filled, block, counted);
      TouchHolds(cfg, cycle, counted, block);
      TouchFinds(cfg, cycle, counted, block);
      hide GoodSets, Has, StateIn, TouchLine, PushesOut;
      assert c' == TouchLine(cfg, cycle, counted, block);
    }
  }

  lemma TouchFinds(cfg: Config, cycle: nat, c: CacheState, block: nat)
    requires Find(WaysOf(cfg, c, block), block) < |WaysOf(cfg, c, block)|
    ensures Find(WaysOf(cfg, TouchLine(cfg, cycle, c, block), block), block)
            < |WaysOf(cfg, TouchLine(cfg, cycle, c, block), block)|
  {
    var ways := WaysOf(cfg, c, block);
    FindIs(Touch(ways, block, cycle), block, Find(ways, block));
  }

  /** A completed transaction leaves the cache free, or, after the read half of a Dragon write to a
      shared block, asking for the bus again. */
  ghost predicate AsksAgain(cfg: Config, job: Job, isShared: bool) {
    cfg.protocol == DRAGON && IsWrite(job) && isShared
  }

  ghost predicate CompletedAs(cfg: Config, c: CacheState, block: nat, state: State, c': CacheState) {
    forall u {:trigger StateIn(cfg, c', u)} ::
      StateIn(cfg, c', u) == if u == block then state else if PushesOut(cfg, c, block, u) then Invalid
          else StateIn(cfg, c, u)
  }

  lemma PutAfter(cfg: Config, cycle: nat, c: CacheState, placed: CacheState, asked: CacheState, block: nat,
                 state: State)
    requires ValidConfig(cfg) && GoodSets(cfg, cycle, placed.localCache) && PlacedAs(cfg, c, block, placed)
    requires Find(WaysOf(cfg, placed, block), block) < |WaysOf(cfg, placed, block)|
    requires InProtocol(cfg.protocol, state) && asked.localCache == placed.localCache
    ensures var c' := PutLine(cfg, cycle, asked, block, state);
            && GoodSets(cfg, cycle, c'.localCache)
            && CompletedAs(cfg, c, block, state, c')
            && OnlyLines(asked, c')
  {
    PutHolds(cfg, cycle, asked, block, state);
    SameIsHolds(cfg, placed, block, asked);
    hide GoodSets, StateIn, PushesOut, PutLine;
  }

  lemma NothingPut(cfg: Config, c: CacheState, placed: CacheState, c': CacheState, block: nat)
    requires PlacedAs(cfg, c, block, placed) && c'.localCache == placed.localCache
    ensures CompletedAs(cfg, c, block, StateIn(cfg, c, block), c')
  {
    SameIsHolds(cfg, placed, block, c');
    assert !PushesOut(cfg, c, block, block);
    hide StateIn, PushesOut;
  }

  lemma CompleteWriteEffect(cfg: Config, cycle: nat, c: CacheState, placed: CacheState, address: nat, isShared: bool)
    requires ValidConfig(cfg) && GoodSets(cfg, cycle, placed.localCache)
    requires PlacedAs(cfg, c, BlockOf(cfg, address), placed)
    requires Find(WaysOf(cfg, placed, BlockOf(cfg, address)), BlockOf(cfg, address))
             < |WaysOf(cfg, placed, BlockOf(cfg, address))|
    requires !placed.busy && !placed.haveBusRequest
    ensures var block := BlockOf(cfg, address);
            var c' := CompleteWrite(cfg, cycle, placed, address, isShared);
            && GoodSets(cfg, cycle, c'.localCache)
            && CompletedAs(cfg, c, block, OwnAtCompletion(cfg.protocol, true, isShared, StateIn(cfg, c, block)), c')
            && SameJob(placed, c') && c'.startServiceCycle == placed.startServiceCycle
            && c'.busy == c'.haveBusRequest == (cfg.protocol == DRAGON && isShared)
            && (cfg.protocol == DRAGON && isShared ==>
                  c'.busRequest == Some(RequestFor(cfg, BusRdX, address, PEER_COST)))
  {
    var block := BlockOf(cfg, address);
    var c' := CompleteWrite(cfg, cycle, placed, address, isShared);
    assert StateIn(cfg, placed, block) == StateIn(cfg, c, block);
    hide GoodSets, StateIn, PlacedAs, CompletedAs, PutLine, WaysOf;
    match cfg.protocol
    case MSI =>
      PutAfter(cfg, cycle, c, placed, CountMemoryUse(placed), block, Modified);
    case MESI =>
      if isShared {
        PutAfter(cfg, cycle, c, placed, CountShare(placed), block, Modified);
      } else {
        NothingPut(cfg, c, placed, c', block);
      }
    case DRAGON =>
      if isShared {
        PutAfter(cfg, cycle, c, placed, AskBus(cfg, placed.(jobCycleCost := PEER_COST), BusRdX, address, PEER_COST),
                 block, SharedDirty);
      } else if StateIn(cfg, placed, block) == Invalid {
        PutAfter(cfg, cycle, c, placed, placed, block, Modified);
        CompletedByLines(cfg, c, block, Modified, PutLine(cfg, cycle, placed, block, Modified), c');
      } else {
        NothingPut(cfg, c, placed, c', block);
      }
    case MOESI =>
      CompleteWriteMoesi(cfg, cycle, c, placed, address, isShared);
  }

  lemma CompletedByLines(cfg: Config, c: CacheState, block: nat, state: State, c1: CacheState, c2: CacheState)
    requires CompletedAs(cfg, c, block, state, c1) && c2.localCache == c1.localCache
    ensures CompletedAs(cfg, c, block, state, c2)
  {
    SameIsHolds(cfg, c1, block, c2);
    hide StateIn, PushesOut;
  }

  lemma CompleteWriteMoesi(cfg: Config, cycle: nat, c: CacheState, placed: CacheState, address: nat, isShared: bool)
    requires cfg.protocol == MOESI
    requires ValidConfig(cfg) && GoodSets(cfg, cycle, placed.localCache)
    requires PlacedAs(cfg, c, BlockOf(cfg, address), placed)
    requires Find(WaysOf(cfg, placed, BlockOf(cfg, address)), BlockOf(cfg, address))
             < |WaysOf(cfg, placed, BlockOf(cfg, address))|
    ensures var block := BlockOf(cfg, address);
            var c' := CompleteWrite(cfg, cycle, placed, address, isShared);
            && GoodSets(cfg, cycle, c'.localCache)
            && CompletedAs(cfg, c, block, OwnAtCompletion(cfg.protocol, true, isShared, StateIn(cfg, c, block)), c')
            && c' == placed.(localCache := c'.localCache, stats := c'.stats)
  {
    var block := BlockOf(cfg, address);
    assert StateIn(cfg, placed, block) == StateIn(cfg, c, block);
    hide GoodSets, StateIn, PlacedAs, CompletedAs, PutLine, WaysOf, Find;
    if isShared {
      var c1 := PutLine(cfg, cycle, placed, block, Modified);
      PutAfter(cfg, cycle, c, placed, placed, block, Modified);
      PutFinds(cfg, cycle, placed, block, Modified);
      PutAgain(cfg, cycle, c, c1, CountMemoryUse(c1), block, Modified);
    } else if StateIn(cfg, placed, block) != Owned {
      PutAfter(cfg, cycle, c, placed, CountMemoryUse(placed), block, Modified);
    } else {
      NothingPut(cfg, c, placed, placed, block);
    }
  }

  lemma PutAgain(cfg: Config, cycle: nat, c: CacheState, c1: CacheState, asked: CacheState, block: nat, state: State)
    requires ValidConfig(cfg) && GoodSets(cfg, cycle, c1.localCache) && CompletedAs(cfg, c, block, state, c1)
    requires Find(WaysOf(cfg, c1, block), block) < |WaysOf(cfg, c1, block)|
    requires InProtocol(cfg.protocol, state) && asked.localCache == c1.localCache
    ensures StateIn(cfg, c1, block) == state
    ensures var c' := PutLine(cfg, cycle, asked, block, state);
            && GoodSets(cfg, cycle, c'.localCache)
            && CompletedAs(cfg, c, block, state, c')
            && OnlyLines(asked, c')
  {
    PutHolds(cfg, cycle, asked, block, state);
    SameIsHolds(cfg, c1, block, asked);
    hide GoodSets, StateIn, PushesOut, PutLine;
  }

  lemma PutFinds(cfg: Config, cycle: nat, c: CacheState, block: nat, state: State)
    requires Find(WaysOf(cfg, c, block), block) < |WaysOf(cfg, c, block)|
    ensures Find(WaysOf(cfg, PutLine(cfg, cycle, c, block, state), block), block)
            < |WaysOf(cfg, PutLine(cfg, cycle, c, block, state), block)|
  {
    var ways := WaysOf(cfg, c, block);
    FindIs(SetState(ways, block, state, cycle), block, Find(ways, block));
  }

  lemma CompleteReadEffect(cfg: Config, cycle: nat, c: CacheState, placed: CacheState, address: nat, isShared: bool)
    requires ValidConfig(cfg) && GoodSets(cfg, cycle, placed.localCache)
    requires PlacedAs(cfg, c, BlockOf(cfg, address), placed)
    requires Find(WaysOf(cfg, placed, BlockOf(cfg, address)), BlockOf(cfg, address))
             < |WaysOf(cfg, placed, BlockOf(cfg, address))|
    ensures var block := BlockOf(cfg, address);
            var c' := CompleteRead(cfg, cycle, placed, address, isShared);
            && GoodSets(cfg, cycle, c'.localCache)
            && CompletedAs(cfg, c, block, OwnAtCompletion(cfg.protocol, false, isShared, StateIn(cfg, c, block)), c')
            && c' == placed.(localCache := c'.localCache, stats := c'.stats)
  {
    var block := BlockOf(cfg, address);
    var state := OwnAtCompletion(cfg.protocol, false, isShared, StateIn(cfg, c, block));
    hide GoodSets, StateIn, PlacedAs, CompletedAs, PutLine, WaysOf;
    PutAfter(cfg, cycle, c, placed, placed, block, state);
    PutAfter(cfg, cycle, c, placed, CountMemoryUse(placed), block, state);
    PutAfter(cfg, cycle, c, placed, CountShare(placed), block, state);
  }

  lemma BusJobDoneEffect(cfg: Config, cycle: nat, c: CacheState, job: Job, isShared: bool)
    requires ValidConfig(cfg) && GoodSets(cfg, cycle, c.localCache)
    requires c.currentJob == Some(job) && (IsRead(job) || IsWrite(job))
    ensures var block := BlockOf(cfg, job.address);
            var c' := BusJobDone(cfg, cycle, c, isShared);
            && GoodSets(cfg, cycle, c'.localCache)
            && CompletedAs(cfg, c, block, OwnAtCompletion(cfg.protocol, IsWrite(job), isShared, StateIn(cfg, c, block)),
                           c')
            && c'.currentJob == c.currentJob && c'.pendingJobs == c.pendingJobs && !c'.busRequestBeingServiced
            && c'.startServiceCycle == c.startServiceCycle
            && c'.busy == c'.haveBusRequest == AsksAgain(cfg, job, isShared)
            && (AsksAgain(cfg, job, isShared) ==>
                  c'.busRequest == Some(RequestFor(cfg, BusRdX, job.address, PEER_COST)))
  {
    var freed := c.(haveBusRequest := false, busy := false, busRequestBeingServiced := false);
    PlaceHolds(cfg, cycle, freed, job);
    FreedPlaces(cfg, c, freed, BlockOf(cfg, job.address), PlaceLine(cfg, cycle, freed, job));
    hide GoodSets, StateIn, PlacedAs, CompletedAs, PlaceLine, CompleteWrite, CompleteRead, WaysOf;
    if IsWrite(job) {
      CompleteWriteEffect(cfg, cycle, c, PlaceLine(cfg, cycle, freed, job), job.address, isShared);
    } else {
      CompleteReadEffect(cfg, cycle, c, PlaceLine(cfg, cycle, freed, job), job.address, isShared);
    }
  }

  lemma FreedPlaces(cfg: Config, c: CacheState, freed: CacheState, block: nat, placed: CacheState)
    requires freed.localCache == c.localCache && PlacedAs(cfg, freed, block, placed)
    ensures PlacedAs(cfg, c, block, placed)
  {
    assert forall u :: WaysOf(cfg, freed, u) == WaysOf(cfg, c, u);
    assert forall u :: StateIn(cfg, freed, u) == StateIn(cfg, c, u);
    assert forall u :: PushesOut(cfg, freed, block, u) == PushesOut(cfg, c, block, u);
    hide StateIn, PushesOut;
  }
}
