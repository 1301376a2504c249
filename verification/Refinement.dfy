/** The simulator moves every block by the rules of the protocol: an iteration of the main loop, with
    its queues, clocks, sets and replacement, is one event of the block's own small state machine. */
module Refinement {
  import opened Wrappers
  import opened Constants
  import opened Requests
  import opened Sets
  import opened CacheModel
  import opened Coherence
  import opened CacheLemmas
  import opened SystemModel
  import opened BusLemmas

  // ---------------------------------------------------------------------------------------------
  // The scheduling invariant.

  ghost predicate Quiet(c: CacheState) {
    !c.busy && !c.haveBusRequest && !c.busRequestBeingServiced
  }

  /** Serving a hit. */
  ghost predicate ServingHit(cycle: nat, c: CacheState) {
    && c.busy && !c.haveBusRequest && !c.busRequestBeingServiced
    && c.startServiceCycle <= cycle < c.startServiceCycle + CACHE_HIT_COST && c.jobCycleCost == CACHE_HIT_COST
  }

  /** Has a request out for its current job. */
  ghost predicate Requesting(cfg: Config, c: CacheState) {
    && c.busy && c.haveBusRequest
    && c.currentJob.Some? && c.busRequest.Some?
    && var job, request := c.currentJob.value, c.busRequest.value;
       && request.lineSet == SetOf(cfg, BlockOf(cfg, job.address))
          && request.lineTag == ToInt(BlockOf(cfg, job.address))
       && (IsWrite(job) || (IsRead(job) && request.command == BusRd))
  }

  /** The states between two iterations: every queue is empty; either the bus is in use for one cache,
      which waits for it while all others rest, or it is free and at most one cache serves a hit. */
  ghost predicate Orderly(cfg: Config, s: SystemState) {
    && |s.caches| == cfg.numProcessors
    && AllGood(cfg, s.cycle, s.caches)
    && (forall i | 0 <= i < |s.caches| :: |s.caches[i].pendingJobs| == 0)
    && (s.bus.inUse ==>
          && 0 <= s.bus.currentCache < |s.caches|
          && Requesting(cfg, s.caches[s.bus.currentCache]) && s.caches[s.bus.currentCache].busRequestBeingServiced
          && forall i | 0 <= i < |s.caches| && i != s.bus.currentCache :: Quiet(s.caches[i]))
    && (!s.bus.inUse ==>
          && !s.bus.isShared
          && (forall i | 0 <= i < |s.caches| :: Quiet(s.caches[i]) || ServingHit(s.cycle, s.caches[i]))
          && (forall i, j | 0 <= i < |s.caches| && 0 <= j < |s.caches| && s.caches[i].busy && s.caches[j].busy ::
                i == j))
  }

  lemma InitiallyOrderly(cfg: Config, jobs: seq<Job>)
    requires ValidConfig(cfg)
    ensures Orderly(cfg, InitialSystem(cfg, jobs))
    ensures forall i, t | 0 <= i < cfg.numProcessors :: StateIn(cfg, InitialSystem(cfg, jobs).caches[i], t) == Invalid
  {
    var c := InitialCache(cfg);
    EmptySet(EmptyWays(cfg));
    assert GoodSets(cfg, 0, c.localCache);
    forall t
      ensures StateIn(cfg, c, t) == Invalid
    {
      SetInRange(cfg, t);
    }
  }

  // ---------------------------------------------------------------------------------------------
  // A block of the simulator, and the event an iteration is for it.

  function PendingFor(cfg: Config, s: SystemState, block: nat): Option<Pending> {
    if s.bus.inUse && 0 <= s.bus.currentCache < |s.caches| then
      var c := s.caches[s.bus.currentCache];
      if c.currentJob.Some? && c.busRequest.Some? && BlockOf(cfg, c.currentJob.value.address) == block
      then Some(Pending(s.bus.currentCache, c.busRequest.value.command, IsWrite(c.currentJob.value), s.bus.isShared))
      else None
    else None
  }

  function BlockView(cfg: Config, s: SystemState, block: nat): BlockState {
    BlockState(ColumnOf(cfg, s.caches, block), PendingFor(cfg, s, block))
  }

  const NO_EVENT := Foreign(0, false, None)

  function OnlyIf(condition: bool, command: Command): Option<Command> {
    if condition then Some(command) else None
  }

  /** What the next iteration does to a block. */
  ghost function EventOf(cfg: Config, s: SystemState, block: nat): Event {
    if Done(s) then NO_EVENT
    else if NoJobs(s.caches) then DispatchEvent(cfg, s.caches, s.outstanding[0], block)
    else if s.bus.inUse && 0 <= s.bus.currentCache < |s.caches| && s.bus.endCycle <= s.cycle + 1
    then CompletionEvent(cfg, s.caches[s.bus.currentCache], s.bus.currentCache, s.bus.isShared, block)
    else NO_EVENT
  }

  ghost function DispatchEvent(cfg: Config, caches: seq<CacheState>, job: Job, block: nat): Event {
    var k, about := job.threadId, BlockOf(cfg, job.address);
    if k >= |caches| then NO_EVENT
    else
      var own := StateIn(cfg, caches[k], about);
      var command := CommandFor(cfg.protocol, IsWrite(job), own);
      if NeedsBus(job, own) then
        if about == block
        then Issue(k, IsWrite(job), AnyShares(cfg.protocol, command, k, ColumnOf(cfg, caches, SnoopedTag(block))))
        else Foreign(k, false, OnlyIf(SnoopedTag(about) == block, command))
      else if about == block && IsWrite(job) then SilentWrite(k)
      else NO_EVENT
  }

  ghost function CompletionEvent(cfg: Config, c: CacheState, k: nat, isShared: bool, block: nat): Event {
    if c.currentJob.None? then NO_EVENT
    else
      var job := c.currentJob.value;
      var about := BlockOf(cfg, job.address);
      if about == block then Event.Complete
      else Foreign(k, PushesOut(cfg, c, about, block),
                   OnlyIf(AsksAgain(cfg, job, isShared) && SnoopedTag(about) == block, BusRdX))
  }

  // ---------------------------------------------------------------------------------------------
  // Ticks of the caches.

  lemma QuietTick(cfg: Config, cycle: nat, c: CacheState)
    requires ValidConfig(cfg) && GoodSets(cfg, cycle, c.localCache) && Quiet(c) && |c.pendingJobs| == 0
    ensures var c' := CacheTick(cfg, cycle + 1, c);
            && GoodSets(cfg, cycle + 1, c'.localCache) && HoldsSame(cfg, c, c') && OnlyLines(c, c')
  {
    LaterIsGood(cfg, cycle, cycle + 1, c.localCache);
    IdleTick(cfg, cycle + 1, c);
    hide GoodSets, HoldsSame, CacheTick;
    assert c.(busy := false) == c;
  }

  lemma SameTrans(cfg: Config, c: CacheState, c1: CacheState, c2: CacheState)
    requires HoldsSame(cfg, c, c1) && HoldsSame(cfg, c1, c2)
    ensures HoldsSame(cfg, c, c2)
  {
    hide StateIn;
  }

  lemma HitTick(cfg: Config, cycle: nat, c: CacheState)
    requires ValidConfig(cfg) && GoodSets(cfg, cycle, c.localCache) && ServingHit(cycle, c) && |c.pendingJobs| == 0
    ensures var c' := CacheTick(cfg, cycle + 1, c);
            && GoodSets(cfg, cycle + 1, c'.localCache) && HoldsSame(cfg, c, c')
            && c' == c.(localCache := c'.localCache, busy := cycle + 1 < c.startServiceCycle + CACHE_HIT_COST)
  {
    hide GoodSets, CacheTick, StateIn, HoldsSame;
    LaterIsGood(cfg, cycle, cycle + 1, c.localCache);
    IdleTick(cfg, cycle + 1, c);
    SameIsHolds(cfg, c, 0, c.(busy := false));
    SameIsHolds(cfg, c, 0, c);
    SameTrans(cfg, c, if UnsignedSum(c.startServiceCycle, c.jobCycleCost) <= cycle + 1 then c.(busy := false) else c,
              CacheTick(cfg, cycle + 1, c));
  }

  /** What taking a job makes of the own copy of its block. */
  function TakenAs(protocol: Protocol, job: Job, own: State): State {
    if !IsWrite(job) then own else if WritesSilently(own) then Modified else OwnAtIssue(protocol, true, own)
  }

  /** c' is c having taken the job at that cycle: asking for the bus, serving a hit, or, for a job of
      no kind, at rest again. */
  ghost predicate TakesJob(cfg: Config, cycle: nat, c: CacheState, job: Job, c': CacheState) {
    var about := BlockOf(cfg, job.address);
    var own := StateIn(cfg, c, about);
    && GoodSets(cfg, cycle, c'.localCache)
    && |c'.pendingJobs| == 0 && !c'.busRequestBeingServiced && c'.currentJob == Some(job)
    && HoldsAs(cfg, c, about, TakenAs(cfg.protocol, job, own), c')
    && c'.haveBusRequest == NeedsBus(job, own)
    && c'.busy == (IsRead(job) || IsWrite(job))
    && (NeedsBus(job, own) ==>
          c'.busRequest == Some(RequestFor(cfg, CommandFor(cfg.protocol, IsWrite(job), own), job.address,
                                           IssueCost(cfg, cycle, IsWrite(job), own))))
    && (!NeedsBus(job, own) && c'.busy ==> c'.startServiceCycle == cycle && c'.jobCycleCost == CACHE_HIT_COST)
  }

  /** A resting cache as it takes a job at that cycle: the job before may have been stamped once more. */
  function Taking(cfg: Config, cycle: nat, c: CacheState, job: Job): CacheState {
    var given := c.(pendingJobs := [job]);
    var c1 := if UnsignedSum(given.startServiceCycle, given.jobCycleCost) <= cycle then FinishJob(cfg, cycle, given)
        else given;
    c1.(currentJob := Some(job), pendingJobs := [])
  }

  lemma TakingRestamps(cfg: Config, cycle: nat, c: CacheState, job: Job)
    requires ValidConfig(cfg) && GoodSets(cfg, cycle, c.localCache) && Quiet(c) && |c.pendingJobs| == 0
    ensures var taken := Taking(cfg, cycle + 1, c, job);
            && GoodSets(cfg, cycle + 1, taken.localCache) && HoldsSame(cfg, c, taken)
            && taken == c.(localCache := taken.localCache, currentJob := Some(job))
  {
    hide GoodSets, StateIn, FinishJob, UnsignedSum;
    var given := c.(pendingJobs := [job]);
    var taken := Taking(cfg, cycle + 1, c, job);
    LaterIsGood(cfg, cycle, cycle + 1, c.localCache);
    FinishJobRestamps(cfg, cycle + 1, given);
    assert given.(busy := false) == given;
    SameIsHolds(cfg, c, 0, given);
    if UnsignedSum(given.startServiceCycle, given.jobCycleCost) <= cycle + 1 {
      SameIsHolds(cfg, FinishJob(cfg, cycle + 1, given), 0, taken);
    } else {
      SameIsHolds(cfg, given, 0, taken);
    }
  }

  lemma TakingTicks(cfg: Config, cycle: nat, c: CacheState, job: Job)
    requires Quiet(c) && |c.pendingJobs| == 0
    requires Taking(cfg, cycle, c, job)
             == c.(localCache := Taking(cfg, cycle, c, job).localCache, currentJob := Some(job))
    ensures CacheTick(cfg, cycle, c.(pendingJobs := [job])) == HandleJob(cfg, cycle, Taking(cfg, cycle, c, job), job)
  {
    hide HandleJob, UnsignedSum, HasLine, Touch, WaysOf, SetOf, BlockOf;
    assert [job][1..] == [];
  }

  /** The tick in which a cache is given a job. */
  lemma DispatchTick(cfg: Config, cycle: nat, c: CacheState, job: Job)
    requires ValidConfig(cfg) && GoodSets(cfg, cycle, c.localCache) && Quiet(c) && |c.pendingJobs| == 0
    ensures TakesJob(cfg, cycle + 1, c, job, CacheTick(cfg, cycle + 1, c.(pendingJobs := [job])))
  {
    var about := BlockOf(cfg, job.address);
    var own := StateIn(cfg, c, about);
    var taken := Taking(cfg, cycle + 1, c, job);
    var c' := CacheTick(cfg, cycle + 1, c.(pendingJobs := [job]));
    hide GoodSets, StateIn, Taking, CacheTick, HandleWrite, HandleRead, HoldsAs, ToInt, BlockOf, SetOf;
    TakingRestamps(cfg, cycle, c, job);
    TakingTicks(cfg, cycle + 1, c, job);
    var counted := if IsWrite(job) then CountWrite(taken) else if IsRead(job) then CountRead(taken) else taken;
    SameIsHolds(cfg, taken, about, counted);
    hide HoldsSame;
    SameTrans(cfg, c, taken, counted);
    SameHoldsAs(cfg, c, about, counted);
    HandleWriteEffect(cfg, cycle + 1, counted, job.address);
    HandleReadEffect(cfg, cycle + 1, counted, job.address);
    assert StateIn(cfg, counted, about) == own by { SameState(cfg, c, counted, about); }
    if IsWrite(job) {
      HoldsCompose(cfg, c, counted, about,
                   if WritesSilently(own) then Modified else OwnAtIssue(cfg.protocol, true, own), c');
    } else if IsRead(job) {
      SameHoldsAs(cfg, counted, about, c');
      HoldsCompose(cfg, c, counted, about, own, c');
    } else {
      SameHoldsAs(cfg, c, about, c');
    }
  }

  lemma SameState(cfg: Config, c: CacheState, c': CacheState, block: nat)
    requires HoldsSame(cfg, c, c')
    ensures StateIn(cfg, c', block) == StateIn(cfg, c, block)
  {
    hide StateIn;
  }

  lemma SameHoldsAs(cfg: Config, c: CacheState, block: nat, c': CacheState)
    requires HoldsSame(cfg, c, c')
    ensures HoldsAs(cfg, c, block, StateIn(cfg, c, block), c')
  {
    hide StateIn;
  }

  // ---------------------------------------------------------------------------------------------
  // Granting the bus.

  /** Cache k, and no other, wants the bus, which is free. */
  ghost predicate Grantable(cfg: Config, s: SystemState, k: nat) {
    && |s.caches| == cfg.numProcessors
    && AllGood(cfg, s.cycle, s.caches)
    && (forall i | 0 <= i < |s.caches| :: |s.caches[i].pendingJobs| == 0)
    && k < |s.caches| && Requesting(cfg, s.caches[k]) && !s.caches[k].busRequest.value.sharedLine
    && (forall i | 0 <= i < |s.caches| && i != k :: Quiet(s.caches[i]))
    && !s.bus.inUse && !s.bus.isShared
  }

  ghost function JobBlock(cfg: Config, c: CacheState): nat
    requires c.currentJob.Some?
  {
    BlockOf(cfg, c.currentJob.value.address)
  }

  /** The requester from grant to completion. */
  ghost predicate GrantedAs(cycle: nat, c: CacheState, c': CacheState)
    requires c.busRequest.Some?
  {
    && c'.busRequest.Some?
    && c'
       == c.(startServiceCycle := cycle, busRequestBeingServiced := true, jobCycleCost := c'.jobCycleCost,
             stats := c'.stats, busRequest := Some(c.busRequest.value.(sharedLine := c'.busRequest.value.sharedLine)))
  }

  lemma GrantEffect(cfg: Config, s: SystemState, k: nat)
    requires ValidConfig(cfg) && Grantable(cfg, s, k)
    ensures var request := s.caches[k].busRequest.value;
            var tag := SnoopedTag(JobBlock(cfg, s.caches[k]));
            var column := ColumnOf(cfg, s.caches, tag);
            var s' := Grant(cfg, s);
            && s'.cycle == s.cycle && s'.outstanding == s.outstanding && |s'.caches| == |s.caches|
            && s'.bus == BusState(k, true, s.cycle,
                                  EndAfter(cfg.protocol, request.command, request.cycleCost, k, column, |column|,
                                           UnsignedSum(s.cycle, request.cycleCost)),
                                  AnyShares(cfg.protocol, request.command, k, column))
            && GrantedAs(s.cycle, s.caches[k], s'.caches[k])
            && (forall i | 0 <= i < |s.caches| && i != k ::
                  SnoopedAs(cfg, s.cycle, request.command, tag, s.caches[i], s'.caches[i]))
  {
    var tag := SnoopedTag(JobBlock(cfg, s.caches[k]));
    hide StateIn, GoodSets, AllGood, SnoopedAs, ColumnOf, BroadcastUpTo, HeardBy, Grant, Granted, EndAfter, UnsignedSum,
         AnyShares, SnoopedTag, BlockOf, SetOf, ToInt, GrantedAs;
    GrantIsHeard(cfg, s, k);
    GrantIsGranted(cfg, s, k);
    HeardGrants(cfg, s, k, tag, GrantStart(s, k), BroadcastUpTo(cfg, s.cycle, k, |s.caches|, GrantStart(s, k)));
  }

  lemma GrantIsHeard(cfg: Config, s: SystemState, k: nat)
    requires ValidConfig(cfg) && Grantable(cfg, s, k)
    ensures var tag := SnoopedTag(JobBlock(cfg, s.caches[k]));
            var b := GrantStart(s, k);
            && ColumnOf(cfg, b.caches, tag) == ColumnOf(cfg, s.caches, tag)
            && HeardBy(cfg, s.cycle, k, s.caches[k].busRequest.value, tag, |s.caches|, b,
                       BroadcastUpTo(cfg, s.cycle, k, |s.caches|, b))
  {
    var request := s.caches[k].busRequest.value;
    var block := JobBlock(cfg, s.caches[k]);
    var tag := SnoopedTag(block);
    var b := GrantStart(s, k);
    SameIsHolds(cfg, s.caches[k], tag, b.caches[k]);
    assert ColumnOf(cfg, b.caches, tag) == ColumnOf(cfg, s.caches, tag) by { hide StateIn; }
    assert AllGood(cfg, s.cycle, b.caches) by { hide GoodSets; }
    hide StateIn, GoodSets, AllGood, SnoopedTag, BlockOf, SetOf, ToInt, ColumnOf, BroadcastUpTo, HeardBy, UnsignedSum;
    BroadcastHeard(cfg, s.cycle, k, request, block, |s.caches|, b);
  }

  lemma GrantIsGranted(cfg: Config, s: SystemState, k: nat)
    requires k < |s.caches| && s.caches[k].haveBusRequest
    requires forall i | 0 <= i < |s.caches| && i != k :: !s.caches[i].haveBusRequest
    ensures Grant(cfg, s) == Granted(cfg, s, k, BroadcastUpTo(cfg, s.cycle, k, |s.caches|, GrantStart(s, k)))
  {
    hide BroadcastUpTo;
    assert FirstRequest(s.caches) == k;
  }

  lemma HeardGrants(cfg: Config, s: SystemState, k: nat, tag: nat, b: Broadcast, b': Broadcast)
    requires k < |s.caches| && s.caches[k].busRequest.Some?
    requires b.caches == s.caches[k := CountBusRequest(StartService(s.cycle, s.caches[k]))]
    requires b.endCycle == UnsignedSum(s.cycle, s.caches[k].busRequest.value.cycleCost)
    requires HeardBy(cfg, s.cycle, k, s.caches[k].busRequest.value, tag, |s.caches|, b, b')
    ensures var request := s.caches[k].busRequest.value;
            var column := ColumnOf(cfg, b.caches, tag);
            var s' := Granted(cfg, s, k, b');
            && |s'.caches| == |s.caches|
            && s'.bus == BusState(k, true, s.cycle,
                                  EndAfter(cfg.protocol, request.command, request.cycleCost, k, column, |column|,
                                           UnsignedSum(s.cycle, request.cycleCost)),
                                  AnyShares(cfg.protocol, request.command, k, column))
            && GrantedAs(s.cycle, s.caches[k], s'.caches[k])
            && (forall i | 0 <= i < |s.caches| && i != k ::
                  SnoopedAs(cfg, s.cycle, request.command, tag, s.caches[i], s'.caches[i]))
  {
    hide SnoopedAs, EndAfter, UnsignedSum, RaisedUpTo, Shares, StateIn;
  }

  lemma GrantableHasRequest(cfg: Config, s: SystemState, k: nat)
    requires Grantable(cfg, s, k)
    ensures k < |s.caches| && s.caches[k].busRequest.Some? && s.caches[k].currentJob.Some?
  {
    hide AllGood;
  }

  /** In terms of columns: the block the request names on the bus is snooped, no other changes. */
  lemma GrantColumns(cfg: Config, s: SystemState, k: nat, t: nat)
    requires ValidConfig(cfg) && Grantable(cfg, s, k)
    ensures var tag := SnoopedTag(JobBlock(cfg, s.caches[k]));
            var column := ColumnOf(cfg, s.caches, t);
            ColumnOf(cfg, Grant(cfg, s).caches, t)
            == if t == tag then SnoopAll(cfg.protocol, s.caches[k].busRequest.value.command, k, column) else column
  {
    hide StateIn, Grant, GoodSets, Grantable, BlockOf, SnoopedTag, EndAfter, AnyShares;
    assert k < |s.caches| && s.caches[k].busRequest.Some?
           && s.caches[k].currentJob.Some? by { GrantableHasRequest(cfg, s, k); }
    GrantEffect(cfg, s, k);
    var s' := Grant(cfg, s);
    SameIsHolds(cfg, s.caches[k], t, s'.caches[k]);
    var tag := SnoopedTag(JobBlock(cfg, s.caches[k]));
    var command := s.caches[k].busRequest.value.command;
    forall i | 0 <= i < |s.caches| && i != k
      ensures StateIn(cfg, s'.caches[i], t)
              == if t == tag then SnoopState(cfg.protocol, command, StateIn(cfg, s.caches[i], t))
                  else StateIn(cfg, s.caches[i], t)
    {
      assert SnoopedAs(cfg, s.cycle, command, tag, s.caches[i], s'.caches[i]);
    }
    hide SnoopedAs, GrantedAs;
  }

  lemma GrantIsOrderly(cfg: Config, s: SystemState, k: nat)
    requires ValidConfig(cfg) && Grantable(cfg, s, k)
    ensures Orderly(cfg, Grant(cfg, s)) && Grant(cfg, s).bus.inUse
  {
    hide GoodSets, Grant, SnoopedAs, BlockOf, SetOf, ToInt, EndAfter, UnsignedSum, AnyShares, SnoopedTag, ColumnOf;
    GrantEffect(cfg, s, k);
    var s' := Grant(cfg, s);
    forall i | 0 <= i < |s.caches| && i != k
      ensures GoodSets(cfg, s.cycle, s'.caches[i].localCache) && Quiet(s'.caches[i]) && |s'.caches[i].pendingJobs| == 0
    {
      SnoopedStaysQuiet(cfg, s.cycle, s.caches[k].busRequest.value.command, SnoopedTag(JobBlock(cfg, s.caches[k])),
                        s.caches[i], s'.caches[i]);
    }
  }

  lemma SnoopedStaysQuiet(cfg: Config, cycle: nat, command: Command, tag: nat, c: CacheState, c': CacheState)
    requires SnoopedAs(cfg, cycle, command, tag, c, c') && Quiet(c) && |c.pendingJobs| == 0
    ensures GoodSets(cfg, cycle, c'.localCache) && Quiet(c') && |c'.pendingJobs| == 0
  {
    hide GoodSets, HoldsAs;
  }

  /** With no request pending, the bus rests. */
  lemma NoGrant(cfg: Config, s: SystemState)
    requires forall i | 0 <= i < |s.caches| :: !s.caches[i].haveBusRequest
    ensures Grant(cfg, s) == s.(bus := s.bus.(inUse := false, isShared := false))
  {
    hide GrantTo;
  }

  // ---------------------------------------------------------------------------------------------
  // One iteration: a job is handed out.

  ghost predicate QuietlyTicked(cfg: Config, cycle: nat, c: CacheState, c': CacheState) {
    GoodSets(cfg, cycle, c'.localCache) && HoldsSame(cfg, c, c') && OnlyLines(c, c')
  }

  /** The state in which the caches leave the bus after handing out a job. */
  ghost predicate HandedOut(cfg: Config, s: SystemState, s1: SystemState)
    requires 0 < |s.outstanding|
  {
    var k := s.outstanding[0].threadId;
    && s1.cycle == s.cycle + 1 && s1.outstanding == s.outstanding[1..] && s1.bus == s.bus && |s1.caches| == |s.caches|
    && (forall i | 0 <= i < |s.caches| && i != k :: QuietlyTicked(cfg, s.cycle + 1, s.caches[i], s1.caches[i]))
    && (k < |s.caches| ==> TakesJob(cfg, s.cycle + 1, s.caches[k], s.outstanding[0], s1.caches[k]))
  }

  lemma QuietTickKept(cfg: Config, cycle: nat, c: CacheState)
    requires ValidConfig(cfg) && GoodSets(cfg, cycle, c.localCache) && Quiet(c) && |c.pendingJobs| == 0
    ensures QuietlyTicked(cfg, cycle + 1, c, CacheTick(cfg, cycle + 1, c))
  {
    QuietTick(cfg, cycle, c);
  }

  lemma RestingIsQuiet(cfg: Config, s: SystemState)
    requires Orderly(cfg, s) && NoJobs(s.caches)
    ensures !s.bus.inUse
    ensures forall i | 0 <= i < |s.caches| :: Quiet(s.caches[i])
  {
    hide AllGood, GoodSets;
  }

  lemma BeforeBusCaches(cfg: Config, s: SystemState)
    requires NoJobs(s.caches) && 0 < |s.outstanding|
    requires forall i | 0 <= i < |s.caches| :: |s.caches[i].pendingJobs| == 0
    ensures var job := s.outstanding[0];
            var s1 := BeforeBus(cfg, s);
            && s1.cycle == s.cycle + 1 && s1.outstanding == s.outstanding[1..] && s1.bus == s.bus
               && |s1.caches| == |s.caches|
            && forall i | 0 <= i < |s.caches| ::
                 s1.caches[i] == CacheTick(cfg, s.cycle + 1,
                                           if i == job.threadId then s.caches[i].(pendingJobs := [job])
                                               else s.caches[i])
  {
    hide CacheTick;
    var job := s.outstanding[0];
    if job.threadId < |s.caches| {
      assert s.caches[job.threadId].pendingJobs + [job] == [job];
    }
  }

  lemma QueuesAreEmpty(cfg: Config, s: SystemState)
    requires Orderly(cfg, s)
    ensures forall i | 0 <= i < |s.caches| :: |s.caches[i].pendingJobs| == 0
  {
    hide AllGood;
  }

  /** The cache that is given the job, in that iteration. */
  lemma TakerTicks(cfg: Config, s: SystemState)
    requires ValidConfig(cfg) && Orderly(cfg, s) && NoJobs(s.caches) && 0 < |s.outstanding|
    requires s.outstanding[0].threadId < |s.caches|
    ensures var job := s.outstanding[0];
            && |BeforeBus(cfg, s).caches| == |s.caches|
            && BeforeBus(cfg, s).caches[job.threadId]
               == CacheTick(cfg, s.cycle + 1, s.caches[job.threadId].(pendingJobs := [job]))
  {
    hide Orderly, BeforeBus, CacheTick;
    QueuesAreEmpty(cfg, s);
    BeforeBusCaches(cfg, s);
  }

  lemma TickAtDispatch(cfg: Config, cycle: nat, c: CacheState, job: Job)
    requires ValidConfig(cfg) && GoodSets(cfg, cycle, c.localCache) && Quiet(c) && |c.pendingJobs| == 0
    ensures TakesJob(cfg, cycle + 1, c, job, CacheTick(cfg, cycle + 1, c.(pendingJobs := [job])))
    ensures QuietlyTicked(cfg, cycle + 1, c, CacheTick(cfg, cycle + 1, c))
  {
    hide CacheTick, GoodSets, TakesJob, QuietlyTicked;
    DispatchTick(cfg, cycle, c, job);
    QuietTickKept(cfg, cycle, c);
  }

  lemma AtRest(cfg: Config, s: SystemState, i: nat)
    requires Orderly(cfg, s) && NoJobs(s.caches) && i < |s.caches|
    ensures GoodSets(cfg, s.cycle, s.caches[i].localCache) && Quiet(s.caches[i]) && |s.caches[i].pendingJobs| == 0
  {
    RestingIsQuiet(cfg, s);
    hide GoodSets;
  }

  lemma DispatchBeforeBus(cfg: Config, s: SystemState)
    requires ValidConfig(cfg) && Orderly(cfg, s) && NoJobs(s.caches) && 0 < |s.outstanding|
    ensures HandedOut(cfg, s, BeforeBus(cfg, s))
  {
    hide CacheTick, BeforeBus, TakesJob, QuietlyTicked, GoodSets, Orderly;
    forall i: nat | i < |s.caches|
      ensures GoodSets(cfg, s.cycle, s.caches[i].localCache) && Quiet(s.caches[i]) && |s.caches[i].pendingJobs| == 0
    {
      AtRest(cfg, s, i);
    }
    BeforeBusCaches(cfg, s);
    forall i: nat | i < |s.caches|
      ensures TakesJob(cfg, s.cycle + 1, s.caches[i], s.outstanding[0],
                       CacheTick(cfg, s.cycle + 1, s.caches[i].(pendingJobs := [s.outstanding[0]])))
      ensures QuietlyTicked(cfg, s.cycle + 1, s.caches[i], CacheTick(cfg, s.cycle + 1, s.caches[i]))
    {
      TickAtDispatch(cfg, s.cycle, s.caches[i], s.outstanding[0]);
    }
  }

  lemma DispatchedCache(cfg: Config, s: SystemState, s1: SystemState, i: nat, t: nat)
    requires ValidConfig(cfg) && Orderly(cfg, s) && NoJobs(s.caches) && 0 < |s.outstanding|
    requires HandedOut(cfg, s, s1) && i < |s.caches|
    ensures var job := s.outstanding[0];
            var own := StateIn(cfg, s.caches[i], t);
            StateIn(cfg, s1.caches[i], t)
            == if i == job.threadId && t == BlockOf(cfg, job.address) then TakenAs(cfg.protocol, job, own) else own
  {
    hide StateIn, BlockOf, GoodSets, Orderly, TakenAs;
    if i == s.outstanding[0].threadId {
    } else {
      assert QuietlyTicked(cfg, s.cycle + 1, s.caches[i], s1.caches[i]);
    }
  }

  /** The column after the caches' half of the iteration. */
  lemma DispatchColumn(cfg: Config, s: SystemState, s1: SystemState, t: nat)
    requires ValidConfig(cfg) && Orderly(cfg, s) && NoJobs(s.caches) && 0 < |s.outstanding|
    requires HandedOut(cfg, s, s1)
    ensures var job := s.outstanding[0];
            var column := ColumnOf(cfg, s.caches, t);
            ColumnOf(cfg, s1.caches, t)
            == if t == BlockOf(cfg, job.address)
               then SetAt(column, job.threadId, TakenAs(cfg.protocol, job, StateAt(column, job.threadId)))
               else column
  {
    forall i | 0 <= i < |s.caches|
      ensures StateIn(cfg, s1.caches[i], t)
              == if i == s.outstanding[0].threadId && t == BlockOf(cfg, s.outstanding[0].address)
                 then TakenAs(cfg.protocol, s.outstanding[0], StateIn(cfg, s.caches[i], t))
                     else StateIn(cfg, s.caches[i], t)
    {
      DispatchedCache(cfg, s, s1, i, t);
    }
    hide StateIn, Orderly, TakenAs, QuietlyTicked, CacheTick;
  }

  lemma DispatchStep(cfg: Config, s: SystemState)
    requires ValidConfig(cfg) && Orderly(cfg, s) && NoJobs(s.caches) && 0 < |s.outstanding|
    ensures Step(cfg, s) == Grant(cfg, BeforeBus(cfg, s)) && HandedOut(cfg, s, BeforeBus(cfg, s))
  {
    RestingIsQuiet(cfg, s);
    DispatchBeforeBus(cfg, s);
    hide CacheTick, Orderly, Grant, BeforeBus, QuietlyTicked;
  }

  /** The job needs the bus. */
  ghost predicate BusJob(cfg: Config, s: SystemState)
    requires 0 < |s.outstanding|
  {
    var job := s.outstanding[0];
    job.threadId < |s.caches| && NeedsBus(job, StateIn(cfg, s.caches[job.threadId], BlockOf(cfg, job.address)))
  }

  lemma HandedOutBus(cfg: Config, s: SystemState, s1: SystemState)
    requires 0 < |s.outstanding| && HandedOut(cfg, s, s1)
    ensures s1.bus == s.bus && s1.outstanding == s.outstanding[1..] && |s1.caches| == |s.caches|
  {
    hide QuietlyTicked, TakesJob;
  }

  lemma HandedOutBusJob(cfg: Config, s: SystemState, s1: SystemState)
    requires ValidConfig(cfg) && Orderly(cfg, s) && NoJobs(s.caches) && 0 < |s.outstanding|
    requires HandedOut(cfg, s, s1) && BusJob(cfg, s)
    ensures var job := s.outstanding[0];
            var own := StateIn(cfg, s.caches[job.threadId], BlockOf(cfg, job.address));
            && Grantable(cfg, s1, job.threadId)
            && s1.caches[job.threadId].currentJob == Some(job)
            && s1.caches[job.threadId].busRequest
               == Some(RequestFor(cfg, CommandFor(cfg.protocol, IsWrite(job), own), job.address,
                                  IssueCost(cfg, s1.cycle, IsWrite(job), own)))
  {
    RestingIsQuiet(cfg, s);
    hide StateIn, GoodSets, HoldsAs, HoldsSame, BlockOf, SetOf, ToInt, IssueCost;
  }

  /** A hit, a job of no kind, or a job for a processor that does not exist. */
  lemma HandedOutFreeJob(cfg: Config, s: SystemState, s1: SystemState)
    requires ValidConfig(cfg) && Orderly(cfg, s) && NoJobs(s.caches) && 0 < |s.outstanding|
    requires HandedOut(cfg, s, s1) && !BusJob(cfg, s)
    ensures Orderly(cfg, s1) && Grant(cfg, s1) == s1
    ensures forall i | 0 <= i < |s1.caches| ::
              s1.caches[i].busy <==>
                  (i == s.outstanding[0].threadId && (IsRead(s.outstanding[0]) || IsWrite(s.outstanding[0])))
    ensures forall i | 0 <= i < |s1.caches| && s1.caches[i].busy :: s1.caches[i].startServiceCycle == s1.cycle
  {
    hide StateIn, GoodSets, HoldsAs, HoldsSame, Grant, BlockOf, SetOf, ToInt, IssueCost;
    RestingIsQuiet(cfg, s);
    var k := s.outstanding[0].threadId;
    assert forall i | 0 <= i < |s.caches| && i != k ::
             QuietlyTicked(cfg, s.cycle + 1, s.caches[i], s1.caches[i]) && Quiet(s1.caches[i]);
    NoGrant(cfg, s1);
    assert s1.(bus := s1.bus.(inUse := false, isShared := false)) == s1;
  }

  // ---------------------------------------------------------------------------------------------
  // One iteration: a job is being served.

  /** The caches' half of an iteration in which no job is handed out. */
  ghost predicate Served(cfg: Config, s: SystemState, s1: SystemState) {
    && s1.cycle == s.cycle + 1 && s1.outstanding == s.outstanding && s1.bus == s.bus && |s1.caches| == |s.caches|
    && forall i | 0 <= i < |s.caches| :: ServedCache(cfg, s1.cycle, s.caches[i], s1.caches[i])
  }

  ghost predicate ServedCache(cfg: Config, cycle: nat, c: CacheState, c': CacheState) {
    && GoodSets(cfg, cycle, c'.localCache) && HoldsSame(cfg, c, c')
    && (c.busRequestBeingServiced ==> c' == c)
    && (!c.busRequestBeingServiced ==>
          c' == c.(localCache := c'.localCache, busy := c.busy && cycle < c.startServiceCycle + CACHE_HIT_COST))
  }

  lemma ServedTick(cfg: Config, cycle: nat, c: CacheState)
    requires ValidConfig(cfg) && GoodSets(cfg, cycle, c.localCache) && |c.pendingJobs| == 0
    requires Quiet(c) || ServingHit(cycle, c) || c.busRequestBeingServiced
    ensures ServedCache(cfg, cycle + 1, c, CacheTick(cfg, cycle + 1, c))
  {
    if c.busRequestBeingServiced {
      LaterIsGood(cfg, cycle, cycle + 1, c.localCache);
      SameIsHolds(cfg, c, 0, c);
      hide GoodSets, HoldsSame, HandleRequest, FinishJob;
    } else if c.busy {
      hide CacheTick, GoodSets, HoldsSame;
      HitTick(cfg, cycle, c);
    } else {
      hide CacheTick, GoodSets, HoldsSame;
      QuietTick(cfg, cycle, c);
    }
  }

  lemma ServedBeforeBus(cfg: Config, s: SystemState)
    requires ValidConfig(cfg) && Orderly(cfg, s) && !NoJobs(s.caches)
    ensures Served(cfg, s, BeforeBus(cfg, s))
  {
    var s1 := BeforeBus(cfg, s);
    hide CacheTick, ServedCache, GoodSets, Requesting;
    forall i: nat | i < |s.caches|
      ensures ServedCache(cfg, s.cycle + 1, s.caches[i], s1.caches[i])
    {
      assert GoodSets(cfg, s.cycle, s.caches[i].localCache);
      ServedTick(cfg, s.cycle, s.caches[i]);
    }
  }

  lemma ServedColumn(cfg: Config, s: SystemState, s1: SystemState, t: nat)
    requires Served(cfg, s, s1)
    ensures ColumnOf(cfg, s1.caches, t) == ColumnOf(cfg, s.caches, t)
  {
    hide StateIn, GoodSets;
    assert forall i | 0 <= i < |s.caches| :: ServedCache(cfg, s1.cycle, s.caches[i], s1.caches[i]);
  }

  lemma ServedIsOrderly(cfg: Config, s: SystemState, s1: SystemState)
    requires ValidConfig(cfg) && Orderly(cfg, s) && Served(cfg, s, s1)
    ensures Orderly(cfg, s1)
  {
    hide GoodSets, HoldsSame, BlockOf, SetOf, ToInt;
    assert forall i | 0 <= i < |s.caches| :: ServedCache(cfg, s1.cycle, s.caches[i], s1.caches[i]);
  }

  /** Without a bus in use, nobody asks for it. */
  lemma ServedGrantsNothing(cfg: Config, s: SystemState, s1: SystemState)
    requires Orderly(cfg, s) && Served(cfg, s, s1) && !s.bus.inUse
    ensures Grant(cfg, s1) == s1
  {
    hide GoodSets, HoldsSame, Requesting, Grant;
    assert forall i | 0 <= i < |s.caches| :: ServedCache(cfg, s1.cycle, s.caches[i], s1.caches[i]);
    NoGrant(cfg, s1);
    assert s1.(bus := s1.bus.(inUse := false, isShared := false)) == s1;
  }

  /** Serving goes on, on the bus or off it. */
  lemma ServingStep(cfg: Config, s: SystemState)
    requires ValidConfig(cfg) && Orderly(cfg, s) && !NoJobs(s.caches)
    requires s.bus.inUse ==> s.cycle + 1 < s.bus.endCycle
    ensures Served(cfg, s, Step(cfg, s)) && Orderly(cfg, Step(cfg, s))
  {
    hide BeforeBus, Grant, Orderly, ServedCache;
    var s1 := BeforeBus(cfg, s);
    ServedBeforeBus(cfg, s);
    ServedIsOrderly(cfg, s, s1);
    if !s.bus.inUse {
      ServedGrantsNothing(cfg, s, s1);
    }
    assert Step(cfg, s) == s1;
  }

  /** The transaction of cache k is over: its line is in place, and it rests or asks again. */
  ghost predicate Over(cfg: Config, s: SystemState, s2: SystemState)
    requires 0 <= s.bus.currentCache < |s.caches| && s.caches[s.bus.currentCache].currentJob.Some?
  {
    var k := s.bus.currentCache;
    var c := s.caches[k];
    var job := c.currentJob.value;
    var about := BlockOf(cfg, job.address);
    && s2.cycle == s.cycle + 1 && s2.outstanding == s.outstanding && |s2.caches| == |s.caches|
    && !s2.bus.inUse && !s2.bus.isShared
    && (forall i | 0 <= i < |s.caches| && i != k :: ServedCache(cfg, s2.cycle, s.caches[i], s2.caches[i]))
    && GoodSets(cfg, s2.cycle, s2.caches[k].localCache)
    && CompletedAs(cfg, c, about, OwnAtCompletion(cfg.protocol, IsWrite(job), s.bus.isShared, StateIn(cfg, c, about)),
                   s2.caches[k])
    && s2.caches[k].currentJob == c.currentJob && |s2.caches[k].pendingJobs| == 0
       && !s2.caches[k].busRequestBeingServiced
    && s2.caches[k].busy == s2.caches[k].haveBusRequest == AsksAgain(cfg, job, s.bus.isShared)
    && (AsksAgain(cfg, job, s.bus.isShared) ==>
          s2.caches[k].busRequest == Some(RequestFor(cfg, BusRdX, job.address, PEER_COST)))
  }

  lemma CompletedByFrom(cfg: Config, c: CacheState, c1: CacheState, block: nat, state: State, c': CacheState)
    requires c1.localCache == c.localCache && CompletedAs(cfg, c1, block, state, c')
    ensures CompletedAs(cfg, c, block, state, c')
  {
    assert forall u :: WaysOf(cfg, c1, u) == WaysOf(cfg, c, u);
    assert forall u :: StateIn(cfg, c1, u) == StateIn(cfg, c, u);
    assert forall u :: PushesOut(cfg, c1, block, u) == PushesOut(cfg, c, block, u);
    hide StateIn, PushesOut;
  }

  /** The cache that completes, as the bus hands it to `busJobDone`. */
  function Completing(cfg: Config, cycle: nat, c: CacheState): CacheState {
    var started := StartService(cycle, c);
    if cfg.protocol == MSI && started.busRequest.Some?
        && started.busRequest.value.command == BusRdX then CountBusReadX(started) else started
  }

  lemma FinishedCaches(cfg: Config, s: SystemState)
    requires 0 <= s.bus.currentCache < |s.caches|
    ensures var k := s.bus.currentCache;
            var s' := FinishTransaction(cfg, s);
            && s'.caches
               == s.caches[k := BusJobDone(cfg, s.cycle, Completing(cfg, s.cycle, s.caches[k]), s.bus.isShared)]
            && s'.cycle == s.cycle && s'.outstanding == s.outstanding && !s'.bus.inUse && !s'.bus.isShared
  {
    hide BusJobDone;
  }

  /** What completion makes of the cache. */
  lemma CompletedCache(cfg: Config, cycle: nat, c: CacheState, job: Job, isShared: bool)
    requires ValidConfig(cfg) && GoodSets(cfg, cycle, c.localCache)
    requires c.currentJob == Some(job) && (IsRead(job) || IsWrite(job))
    ensures var about := BlockOf(cfg, job.address);
            var c' := BusJobDone(cfg, cycle, Completing(cfg, cycle, c), isShared);
            && GoodSets(cfg, cycle, c'.localCache)
            && CompletedAs(cfg, c, about, OwnAtCompletion(cfg.protocol, IsWrite(job), isShared, StateIn(cfg, c, about)),
                           c')
            && c'.currentJob == c.currentJob && c'.pendingJobs == c.pendingJobs && !c'.busRequestBeingServiced
            && c'.busy == c'.haveBusRequest == AsksAgain(cfg, job, isShared)
            && (AsksAgain(cfg, job, isShared) ==>
                  c'.busRequest == Some(RequestFor(cfg, BusRdX, job.address, PEER_COST)))
  {
    hide BusJobDone, GoodSets, BlockOf, StateIn, CompletedAs, RequestFor, OwnAtCompletion;
    var about := BlockOf(cfg, job.address);
    var c1 := Completing(cfg, cycle, c);
    BusJobDoneEffect(cfg, cycle, c1, job, isShared);
    SameIsHolds(cfg, c, about, c1);
    SameAtBlock(cfg, c, about, StateIn(cfg, c, about), c1);
    CompletedByFrom(cfg, c, c1, about, OwnAtCompletion(cfg.protocol, IsWrite(job), isShared, StateIn(cfg, c, about)),
                    BusJobDone(cfg, cycle, c1, isShared));
  }

  lemma SameAtBlock(cfg: Config, c: CacheState, block: nat, state: State, c': CacheState)
    requires HoldsAs(cfg, c, block, state, c')
    ensures StateIn(cfg, c', block) == state
  {
    hide StateIn;
  }

  /** The cache on the bus has not changed while it waited. */
  lemma CompletingCache(cfg: Config, s: SystemState, s1: SystemState)
    requires Orderly(cfg, s) && s.bus.inUse && Served(cfg, s, s1)
    ensures var k := s.bus.currentCache;
            && 0 <= k < |s.caches| == |s1.caches| && s1.caches[k] == s.caches[k]
            && s.caches[k].currentJob.Some? && |s.caches[k].pendingJobs| == 0
            && (IsRead(s.caches[k].currentJob.value) || IsWrite(s.caches[k].currentJob.value))
            && GoodSets(cfg, s1.cycle, s.caches[k].localCache)
  {
    CurrentHasJob(cfg, s);
    hide AllGood, GoodSets, HoldsSame, SetOf, ToInt, BlockOf;
    assert ServedCache(cfg, s1.cycle, s.caches[s.bus.currentCache], s1.caches[s.bus.currentCache]);
  }

  lemma CompleteIsOver(cfg: Config, s: SystemState, s1: SystemState)
    requires ValidConfig(cfg) && Orderly(cfg, s) && s.bus.inUse && Served(cfg, s, s1)
    ensures 0 <= s.bus.currentCache < |s.caches| && s.caches[s.bus.currentCache].currentJob.Some?
    ensures Over(cfg, s, FinishTransaction(cfg, s1))
  {
    var k := s.bus.currentCache;
    hide Orderly, BusJobDone, GoodSets, BlockOf, StateIn, CompletedAs, OwnAtCompletion, FinishTransaction, ServedCache,
         Completing, RequestFor;
    CompletingCache(cfg, s, s1);
    FinishedCaches(cfg, s1);
    CompletedCache(cfg, s1.cycle, s.caches[k], s.caches[k].currentJob.value, s.bus.isShared);
  }

  lemma CompletionStep(cfg: Config, s: SystemState)
    requires ValidConfig(cfg) && Orderly(cfg, s) && s.bus.inUse && s.bus.endCycle <= s.cycle + 1
    ensures var s2 := FinishTransaction(cfg, BeforeBus(cfg, s));
            && Over(cfg, s, s2)
            && Step(cfg, s) == Grant(cfg, s2)
  {
    assert s.caches[s.bus.currentCache].busy;
    ServedBeforeBus(cfg, s);
    hide BeforeBus, Grant, FinishTransaction, Over, AllGood, Requesting;
    CompleteIsOver(cfg, s, BeforeBus(cfg, s));
  }

  /** The column once the transaction is over, before a second one is granted. */
  lemma OverColumn(cfg: Config, s: SystemState, s2: SystemState, t: nat)
    requires Orderly(cfg, s) && s.bus.inUse && Over(cfg, s, s2)
    ensures var k := s.bus.currentCache;
            var c := s.caches[k];
            var job := c.currentJob.value;
            var column := ColumnOf(cfg, s.caches, t);
            ColumnOf(cfg, s2.caches, t)
            == if t == BlockOf(cfg, job.address)
               then SetAt(column, k, OwnAtCompletion(cfg.protocol, IsWrite(job), s.bus.isShared, StateAt(column, k)))
               else if PushesOut(cfg, c, BlockOf(cfg, job.address), t) then SetAt(column, k, Invalid) else column
  {
    hide StateIn, GoodSets, BlockOf, PushesOut, OwnAtCompletion, AllGood, Requesting;
    assert forall i | 0 <= i < |s.caches| && i != s.bus.currentCache ::
             ServedCache(cfg, s2.cycle, s.caches[i], s2.caches[i]);
  }

  lemma OverAsksAgain(cfg: Config, s: SystemState, s2: SystemState)
    requires Orderly(cfg, s) && s.bus.inUse && Over(cfg, s, s2)
    requires AsksAgain(cfg, s.caches[s.bus.currentCache].currentJob.value, s.bus.isShared)
    ensures Grantable(cfg, s2, s.bus.currentCache)
  {
    hide StateIn, GoodSets, BlockOf, SetOf, ToInt, CompletedAs, HoldsSame;
    assert forall i | 0 <= i < |s.caches| && i != s.bus.currentCache ::
             ServedCache(cfg, s2.cycle, s.caches[i], s2.caches[i]);
  }

  lemma OverRests(cfg: Config, s: SystemState, s2: SystemState)
    requires Orderly(cfg, s) && s.bus.inUse && Over(cfg, s, s2)
    requires !AsksAgain(cfg, s.caches[s.bus.currentCache].currentJob.value, s.bus.isShared)
    ensures Orderly(cfg, s2) && Grant(cfg, s2) == s2 && NoJobs(s2.caches)
  {
    hide StateIn, GoodSets, BlockOf, SetOf, ToInt, CompletedAs, HoldsSame, Grant;
    assert forall i | 0 <= i < |s.caches| && i != s.bus.currentCache ::
             ServedCache(cfg, s2.cycle, s.caches[i], s2.caches[i]);
    NoGrant(cfg, s2);
    assert s2.(bus := s2.bus.(inUse := false, isShared := false)) == s2;
  }

  // ---------------------------------------------------------------------------------------------
  // The refinement.

  /** The invariant of the main loop. */
  lemma StepKeepsOrder(cfg: Config, s: SystemState)
    requires ValidConfig(cfg) && Orderly(cfg, s)
    ensures Orderly(cfg, Step(cfg, s))
  {
    hide Orderly, Step, Grant, BeforeBus, HandedOut, Over, BusJob, Grantable, FinishTransaction;
    if Done(s) {
      DoneStays(cfg, s);
    } else if NoJobs(s.caches) {
      DispatchStep(cfg, s);
      if BusJob(cfg, s) {
        HandedOutBusJob(cfg, s, BeforeBus(cfg, s));
        GrantIsOrderly(cfg, BeforeBus(cfg, s), s.outstanding[0].threadId);
      } else {
        HandedOutFreeJob(cfg, s, BeforeBus(cfg, s));
      }
    } else if s.bus.inUse && s.bus.endCycle <= s.cycle + 1 {
      CurrentHasJob(cfg, s);
      CompletionStep(cfg, s);
      var s2 := FinishTransaction(cfg, BeforeBus(cfg, s));
      if AsksAgain(cfg, s.caches[s.bus.currentCache].currentJob.value, s.bus.isShared) {
        OverAsksAgain(cfg, s, s2);
        GrantIsOrderly(cfg, s2, s.bus.currentCache);
      } else {
        OverRests(cfg, s, s2);
      }
    } else {
      ServingStep(cfg, s);
    }
  }

  lemma DoneStays(cfg: Config, s: SystemState)
    requires Done(s)
    ensures Step(cfg, s) == s
  {
    hide BusTick, BeforeBus;
  }

  lemma CurrentHasJob(cfg: Config, s: SystemState)
    requires Orderly(cfg, s) && s.bus.inUse
    ensures 0 <= s.bus.currentCache < |s.caches|
    ensures s.caches[s.bus.currentCache].currentJob.Some? && s.caches[s.bus.currentCache].busRequest.Some?
    ensures !NoJobs(s.caches)
  {
    hide AllGood;
  }

  ghost predicate Refines(cfg: Config, s: SystemState, t: nat) {
    && Enabled(cfg.protocol, Fits(t), BlockView(cfg, s, t), EventOf(cfg, s, t))
    && BlockView(cfg, Step(cfg, s), t) == BlockNext(cfg.protocol, Fits(t), BlockView(cfg, s, t), EventOf(cfg, s, t))
  }

  /** Every iteration of the main loop is, for every block, one enabled event of the block's state
      machine, with the same outcome. */
  lemma StepRefines(cfg: Config, s: SystemState, t: nat)
    requires ValidConfig(cfg) && Orderly(cfg, s)
    ensures Refines(cfg, s, t)
  {
    hide Orderly, Refines;
    if Done(s) {
      DoneStays(cfg, s);
      NothingRefines(cfg, s, t);
    } else if NoJobs(s.caches) {
      DispatchStep(cfg, s);
      if BusJob(cfg, s) {
        BusJobRefines(cfg, s, t);
      } else {
        FreeJobRefines(cfg, s, t);
      }
    } else if s.bus.inUse && s.bus.endCycle <= s.cycle + 1 {
      CompletionRefines(cfg, s, t);
    } else {
      ServingStep(cfg, s);
      ServingRefines(cfg, s, t);
    }
  }

  lemma NothingRefines(cfg: Config, s: SystemState, t: nat)
    requires Step(cfg, s) == s && Done(s)
    ensures Refines(cfg, s, t)
  {
    hide Step, ColumnOf, PendingFor;
  }

  lemma ServingRefines(cfg: Config, s: SystemState, t: nat)
    requires ValidConfig(cfg) && Orderly(cfg, s) && !NoJobs(s.caches)
    requires s.bus.inUse ==> s.cycle + 1 < s.bus.endCycle
    requires Served(cfg, s, Step(cfg, s))
    ensures Refines(cfg, s, t)
  {
    ServedColumn(cfg, s, Step(cfg, s), t);
    if s.bus.inUse {
      CurrentHasJob(cfg, s);
      assert ServedCache(cfg, s.cycle + 1, s.caches[s.bus.currentCache], Step(cfg, s).caches[s.bus.currentCache]);
    }
    hide Step, ColumnOf, AllGood, HoldsSame, GoodSets, BlockOf, SetOf;
  }

  lemma SnoopingIgnoresOwn(protocol: Protocol, command: Command, k: nat, column: Column, own: State)
    ensures AnyShares(protocol, command, k, SetAt(column, k, own)) == AnyShares(protocol, command, k, column)
  {
    var column' := SetAt(column, k, own);
    assert forall i | 0 <= i < |column| && i != k :: column'[i] == column[i];
    hide Shares;
  }

  lemma IssueStep(protocol: Protocol, heard: bool, column: Column, k: nat, job: Job, shared: bool)
    requires k < |column| && NeedsBus(job, column[k])
    requires heard ==> shared == AnyShares(protocol, CommandFor(protocol, IsWrite(job), column[k]), k, column)
    ensures var event := Issue(k, IsWrite(job), shared);
            var command := CommandFor(protocol, IsWrite(job), column[k]);
            var taken := SetAt(column, k, TakenAs(protocol, job, column[k]));
            && Enabled(protocol, heard, BlockState(column, None), event)
            && BlockNext(protocol, heard, BlockState(column, None), event)
               == BlockState(if heard then SnoopAll(protocol, command, k, taken) else taken,
                             Some(Pending(k, command, IsWrite(job), shared)))
  {
    hide SnoopAll, AnyShares, SetAt;
  }

  lemma ForeignStep(protocol: Protocol, heard: bool, column: Column, k: nat, evicted: bool, mistaken: Option<Command>)
    requires evicted || mistaken.Some? ==> k < |column|
    ensures var event := Foreign(k, evicted, mistaken);
            var left := if evicted then SetAt(column, k, Invalid) else column;
            && Enabled(protocol, heard, BlockState(column, None), event)
            && BlockNext(protocol, heard, BlockState(column, None), event)
               == BlockState(if mistaken.Some? then SnoopAll(protocol, mistaken.value, k, left) else left, None)
  {
    hide SnoopAll, SetAt;
  }

  lemma SilentStep(protocol: Protocol, heard: bool, column: Column, k: nat)
    requires k < |column| && WritesSilently(column[k])
    ensures Enabled(protocol, heard, BlockState(column, None), SilentWrite(k))
    ensures BlockNext(protocol, heard, BlockState(column, None), SilentWrite(k))
            == BlockState(SetAt(column, k, Modified), None)
  {
    hide SetAt;
  }

  lemma CompleteStep(protocol: Protocol, heard: bool, column: Column, p: Pending)
    ensures var over := SetAt(column, p.k, OwnAtCompletion(protocol, p.write, p.shared, StateAt(column, p.k)));
            && Enabled(protocol, heard, BlockState(column, Some(p)), Event.Complete)
            && BlockNext(protocol, heard, BlockState(column, Some(p)), Event.Complete)
               == if protocol == DRAGON && p.write && p.shared
                  then BlockState(if heard then SnoopAll(protocol, BusRdX, p.k, over) else over,
                                  Some(Pending(p.k, BusRdX, true, false)))
                  else BlockState(over, None)
  {
    hide SnoopAll, SetAt, OwnAtCompletion;
  }

  lemma SetSame(column: Column, k: nat)
    ensures SetAt(column, k, StateAt(column, k)) == column
    ensures k >= |column| ==> forall state :: SetAt(column, k, state) == column
  {
  }

  lemma FreeJobRefines(cfg: Config, s: SystemState, t: nat)
    requires ValidConfig(cfg) && Orderly(cfg, s) && NoJobs(s.caches) && 0 < |s.outstanding| && !BusJob(cfg, s)
    requires Step(cfg, s) == Grant(cfg, BeforeBus(cfg, s)) && HandedOut(cfg, s, BeforeBus(cfg, s))
    ensures Refines(cfg, s, t)
  {
    var s1 := BeforeBus(cfg, s);
    var job := s.outstanding[0];
    var k, about := job.threadId, BlockOf(cfg, job.address);
    var column := ColumnOf(cfg, s.caches, t);
    RestingIsQuiet(cfg, s);
    HandedOutFreeJob(cfg, s, s1);
    DispatchColumn(cfg, s, s1, t);
    assert |column| == |s.caches| && (k < |s.caches| && t == about ==> column[k] == StateIn(cfg, s.caches[k], about));
    assert !s1.bus.inUse by { hide AllGood; }
    hide Step, Grant, BeforeBus, Orderly, HandedOut, StateIn, BlockOf, ColumnOf, Enabled, BlockNext, SnoopAll, SetAt;
    assert PendingFor(cfg, s, t) == None && PendingFor(cfg, s1, t) == None;
    assert !Done(s) && EventOf(cfg, s, t) == DispatchEvent(cfg, s.caches, job, t);
    if k < |s.caches| && t == about && IsWrite(job) {
      SilentStep(cfg.protocol, Fits(t), column, k);
    } else {
      ForeignStep(cfg.protocol, Fits(t), column, 0, false, None);
      SetSame(column, k);
    }
  }

  lemma BusJobOutcome(cfg: Config, s: SystemState, t: nat)
    requires ValidConfig(cfg) && Orderly(cfg, s) && NoJobs(s.caches) && 0 < |s.outstanding| && BusJob(cfg, s)
    requires HandedOut(cfg, s, BeforeBus(cfg, s))
    ensures var s' := Grant(cfg, BeforeBus(cfg, s));
            var job := s.outstanding[0];
            var k, about := job.threadId, BlockOf(cfg, job.address);
            var own := StateIn(cfg, s.caches[k], about);
            var command := CommandFor(cfg.protocol, IsWrite(job), own);
            var column := ColumnOf(cfg, s.caches, t);
            var taken := if t == about then SetAt(column, k, TakenAs(cfg.protocol, job, own)) else column;
            && ColumnOf(cfg, s'.caches, t)
               == (if t == SnoopedTag(about) then SnoopAll(cfg.protocol, command, k, taken) else taken)
            && PendingFor(cfg, s', t)
               == if t == about
                  then Some(Pending(k, command, IsWrite(job),
                                    AnyShares(cfg.protocol, command, k, ColumnOf(cfg, s.caches, SnoopedTag(about)))))
                  else None
  {
    var s1 := BeforeBus(cfg, s);
    var s' := Grant(cfg, s1);
    var job := s.outstanding[0];
    var k, about := job.threadId, BlockOf(cfg, job.address);
    var own := StateIn(cfg, s.caches[k], about);
    var column := ColumnOf(cfg, s.caches, SnoopedTag(about));
    HandedOutBusJob(cfg, s, s1);
    DispatchColumn(cfg, s, s1, t);
    DispatchColumn(cfg, s, s1, SnoopedTag(about));
    GrantColumns(cfg, s1, k, t);
    GrantPending(cfg, s1, k, t);
    SnoopingIgnoresOwn(cfg.protocol, CommandFor(cfg.protocol, IsWrite(job), own), k, column,
                       TakenAs(cfg.protocol, job, StateAt(column, k)));
    assert t == about ==> StateAt(ColumnOf(cfg, s.caches, t), k) == own;
    hide Grant, BeforeBus, Orderly, HandedOut, StateIn, BlockOf, Grantable, SetOf, ToInt, SnoopedTag, AnyShares,
         ColumnOf, SnoopAll, IssueCost, TakenAs, CommandFor;
  }

  /** The transaction that a grant starts, seen from a block. */
  lemma GrantPending(cfg: Config, s: SystemState, k: nat, t: nat)
    requires ValidConfig(cfg) && Grantable(cfg, s, k)
    ensures var job := s.caches[k].currentJob.value;
            var command := s.caches[k].busRequest.value.command;
            PendingFor(cfg, Grant(cfg, s), t)
            == if t == BlockOf(cfg, job.address)
               then Some(Pending(k, command, IsWrite(job),
                                 AnyShares(cfg.protocol, command, k,
                                           ColumnOf(cfg, s.caches, SnoopedTag(BlockOf(cfg, job.address))))))
               else None
  {
    GrantEffect(cfg, s, k);
    hide Grant, BlockOf, AnyShares, ColumnOf, SnoopedTag, SnoopedAs, EndAfter, AllGood;
  }

  lemma BusJobRefines(cfg: Config, s: SystemState, t: nat)
    requires ValidConfig(cfg) && Orderly(cfg, s) && NoJobs(s.caches) && 0 < |s.outstanding| && BusJob(cfg, s)
    requires Step(cfg, s) == Grant(cfg, BeforeBus(cfg, s)) && HandedOut(cfg, s, BeforeBus(cfg, s))
    ensures Refines(cfg, s, t)
  {
    RestingIsQuiet(cfg, s);
    BusJobOutcome(cfg, s, t);
    var job := s.outstanding[0];
    var k, about := job.threadId, BlockOf(cfg, job.address);
    var column := ColumnOf(cfg, s.caches, t);
    assert |column| == |s.caches| && (t == about ==> column[k] == StateIn(cfg, s.caches[k], about));
    hide Step, Grant, BeforeBus, Orderly, HandedOut, StateIn, BlockOf, SnoopedTag, AnyShares, ColumnOf, SnoopAll, SetAt,
         Enabled, BlockNext, TakenAs, CommandFor;
    assert PendingFor(cfg, s, t) == None;
    assert !Done(s) && EventOf(cfg, s, t) == DispatchEvent(cfg, s.caches, job, t);
    var command := CommandFor(cfg.protocol, IsWrite(job), StateIn(cfg, s.caches[k], about));
    if about == t {
      IssueStep(cfg.protocol, Fits(t), column, k, job,
                AnyShares(cfg.protocol, command, k, ColumnOf(cfg, s.caches, SnoopedTag(t))));
    } else {
      ForeignStep(cfg.protocol, Fits(t), column, k, false, OnlyIf(SnoopedTag(about) == t, command));
    }
  }

  lemma CompletionRefines(cfg: Config, s: SystemState, t: nat)
    requires ValidConfig(cfg) && Orderly(cfg, s) && s.bus.inUse && s.bus.endCycle <= s.cycle + 1
    ensures Refines(cfg, s, t)
  {
    var s2 := FinishTransaction(cfg, BeforeBus(cfg, s));
    CurrentHasJob(cfg, s);
    CompletionStep(cfg, s);
    CompletionEventIs(cfg, s, t);
    var job := s.caches[s.bus.currentCache].currentJob.value;
    if AsksAgain(cfg, job, s.bus.isShared) {
      OverAsksAgain(cfg, s, s2);
      RegrantRefines(cfg, s, s2, t);
    } else {
      RestRefines(cfg, s, s2, t);
    }
  }

  lemma CompletionEventIs(cfg: Config, s: SystemState, t: nat)
    requires Orderly(cfg, s) && s.bus.inUse && s.bus.endCycle <= s.cycle + 1
    ensures 0 <= s.bus.currentCache < |s.caches|
    ensures EventOf(cfg, s, t)
            == CompletionEvent(cfg, s.caches[s.bus.currentCache], s.bus.currentCache, s.bus.isShared, t)
  {
    CurrentHasJob(cfg, s);
    hide Orderly, CompletionEvent, DispatchEvent;
  }

  lemma RestRefines(cfg: Config, s: SystemState, s2: SystemState, t: nat)
    requires ValidConfig(cfg) && Orderly(cfg, s) && s.bus.inUse
    requires Over(cfg, s, s2) && Step(cfg, s) == Grant(cfg, s2)
    requires 0 <= s.bus.currentCache < |s.caches| && s.caches[s.bus.currentCache].currentJob.Some?
          && s.caches[s.bus.currentCache].busRequest.Some?
    requires !AsksAgain(cfg, s.caches[s.bus.currentCache].currentJob.value, s.bus.isShared)
    requires EventOf(cfg, s, t)
             == CompletionEvent(cfg, s.caches[s.bus.currentCache], s.bus.currentCache, s.bus.isShared, t)
    ensures Refines(cfg, s, t)
  {
    OverColumn(cfg, s, s2, t);
    OverRests(cfg, s, s2);
    OverIsFree(cfg, s, s2);
    var k := s.bus.currentCache;
    var c := s.caches[k];
    var about := BlockOf(cfg, c.currentJob.value.address);
    var column := ColumnOf(cfg, s.caches, t);
    assert |column| == |s.caches|;
    hide Step, Grant, Orderly, Over, StateIn, BlockOf, PushesOut, ColumnOf, SetAt, EventOf, OwnAtCompletion, Enabled,
         BlockNext;
    if about == t {
      CompleteStep(cfg.protocol, Fits(t), column, PendingFor(cfg, s, t).value);
    } else {
      ForeignStep(cfg.protocol, Fits(t), column, k, PushesOut(cfg, c, about, t), None);
    }
  }

  lemma OverIsFree(cfg: Config, s: SystemState, s2: SystemState)
    requires 0 <= s.bus.currentCache < |s.caches| && s.caches[s.bus.currentCache].currentJob.Some?
    requires Over(cfg, s, s2)
    ensures !s2.bus.inUse && s2.caches[s.bus.currentCache].currentJob == s.caches[s.bus.currentCache].currentJob
  {
  }

  lemma RegrantOutcome(cfg: Config, s: SystemState, s2: SystemState, t: nat)
    requires ValidConfig(cfg) && Orderly(cfg, s) && s.bus.inUse && Over(cfg, s, s2)
    requires s.caches[s.bus.currentCache].currentJob.Some?
    requires AsksAgain(cfg, s.caches[s.bus.currentCache].currentJob.value, s.bus.isShared)
    requires Grantable(cfg, s2, s.bus.currentCache)
    ensures var k := s.bus.currentCache;
            var c := s.caches[k];
            var about := BlockOf(cfg, c.currentJob.value.address);
            var column := ColumnOf(cfg, s.caches, t);
            var over := if t == about then SetAt(column, k, SharedDirty)
                        else if PushesOut(cfg, c, about, t) then SetAt(column, k, Invalid) else column;
            && ColumnOf(cfg, Grant(cfg, s2).caches, t)
               == (if t == SnoopedTag(about) then SnoopAll(DRAGON, BusRdX, k, over) else over)
            && PendingFor(cfg, Grant(cfg, s2), t) == if t == about then Some(Pending(k, BusRdX, true, false)) else None
  {
    var k := s.bus.currentCache;
    var about := BlockOf(cfg, s.caches[k].currentJob.value.address);
    OverColumn(cfg, s, s2, t);
    GrantColumns(cfg, s2, k, t);
    GrantPending(cfg, s2, k, t);
    UpdatesAreNotShared(k, ColumnOf(cfg, s2.caches, SnoopedTag(about)));
    OverIsFree(cfg, s, s2);
    assert s2.caches[k].busRequest == Some(RequestFor(cfg, BusRdX, s.caches[k].currentJob.value.address, PEER_COST));
    hide Grant, Orderly, Over, StateIn, BlockOf, PushesOut, ColumnOf, SetAt, Grantable, SetOf, ToInt, SnoopedTag,
         AnyShares, SnoopAll;
  }

  lemma RegrantRefines(cfg: Config, s: SystemState, s2: SystemState, t: nat)
    requires ValidConfig(cfg) && Orderly(cfg, s) && s.bus.inUse
    requires Over(cfg, s, s2) && Step(cfg, s) == Grant(cfg, s2)
    requires 0 <= s.bus.currentCache < |s.caches| && s.caches[s.bus.currentCache].currentJob.Some?
          && s.caches[s.bus.currentCache].busRequest.Some?
    requires AsksAgain(cfg, s.caches[s.bus.currentCache].currentJob.value, s.bus.isShared)
    requires Grantable(cfg, s2, s.bus.currentCache)
    requires EventOf(cfg, s, t)
             == CompletionEvent(cfg, s.caches[s.bus.currentCache], s.bus.currentCache, s.bus.isShared, t)
    ensures Refines(cfg, s, t)
  {
    RegrantOutcome(cfg, s, s2, t);
    var k := s.bus.currentCache;
    var c := s.caches[k];
    var about := BlockOf(cfg, c.currentJob.value.address);
    var column := ColumnOf(cfg, s.caches, t);
    assert |column| == |s.caches|;
    hide Step, Grant, Orderly, Over, Grantable, StateIn, BlockOf, PushesOut, ColumnOf, SetAt, EventOf, SnoopedTag,
         SnoopAll, Enabled, BlockNext;
    if about == t {
      CompleteStep(cfg.protocol, Fits(t), column, PendingFor(cfg, s, t).value);
    } else {
      ForeignStep(cfg.protocol, Fits(t), column, k, PushesOut(cfg, c, about, t),
                  OnlyIf(SnoopedTag(about) == t, BusRdX));
    }
  }
}
