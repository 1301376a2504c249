/** The cache as the program runs it (Cache.cpp): an object over its sets, whose methods are proved to
    do to its fields what the functions of CacheModel do to the value of the cache. */
module Caches {
  import opened Wrappers
  import opened Constants
  import opened Requests
  import opened Sets
  import opened CacheModel
  import opened SystemModel

  // ---------------------------------------------------------------------------------------------
  // What repeated look-ups amount to.

  lemma TouchTwice(ways: Ways, tag: nat, cycle: nat)
    ensures Touch(Touch(ways, tag, cycle), tag, cycle) == Touch(ways, tag, cycle)
    ensures Find(Touch(ways, tag, cycle), tag) == Find(ways, tag)
    ensures Has(Touch(ways, tag, cycle), tag) == Has(ways, tag)
    ensures StateOf(Touch(ways, tag, cycle), tag) == StateOf(ways, tag)
    ensures forall state :: SetState(Touch(ways, tag, cycle), tag, state, cycle) == SetState(ways, tag, state, cycle)
  {
    var ways' := Touch(ways, tag, cycle);
    FindIs(ways', tag, Find(ways, tag));
    if Has(ways, tag) {
      var i :| 0 <= i < |ways| && ways[i].tag == tag && ways[i].state != Invalid;
      assert ways'[i].tag == tag && ways'[i].state != Invalid;
    }
    if Has(ways', tag) {
      var i :| 0 <= i < |ways'| && ways'[i].tag == tag && ways'[i].state != Invalid;
      assert ways[i].tag == tag && ways[i].state != Invalid;
    }
  }

  /** `getLine`, then `setState` on its result. */
  lemma PutStep(ways: Ways, tag: nat, state: State, cycle: nat)
    ensures |Touch(ways, tag, cycle)| == |ways|
    ensures StampedBy(ways, cycle) ==>
              StampedBy(Touch(ways, tag, cycle), cycle) && StampedBy(SetState(ways, tag, state, cycle), cycle)
    ensures Has(ways, tag) ==> Find(ways, tag) < |ways|
    ensures Find(ways, tag) < |ways| ==>
              Touch(ways, tag, cycle)[Find(ways, tag) := Touch(ways, tag, cycle)[Find(ways, tag)].(state := state)]
              == SetState(ways, tag, state, cycle)
    ensures |SetState(ways, tag, state, cycle)| == |ways|
    ensures Find(ways, tag) < |ways| ==> Touch(ways, tag, cycle)[Find(ways, tag)].state == StateOf(ways, tag)
  {
  }

  /** The three ways of bringing a line in. */
  lemma BroughtInIs(cfg: Config, cycle: nat, c: CacheState, job: Job)
    ensures var block := BlockOf(cfg, job.address);
            var filled := WithWays(cfg, c, block, Replace(WaysOf(cfg, c, block), block, cycle));
            BroughtIn(cfg, cycle, c, job)
            == if Has(WaysOf(cfg, c, block), block) then c
               else if cfg.protocol != DRAGON && IsWrite(job)
               then filled.(stats := filled.stats.(numWriteMisses := filled.stats.numWriteMisses + 1)) else filled
  {
    hide BlockOf, WithWays, Replace, WaysOf, Has;
  }

  /** Looking at a line again in the same cycle changes nothing, and shows the same. */
  lemma ProbeTwice(cfg: Config, cycle: nat, c: CacheState, block: nat)
    ensures var c1 := ProbeLine(cfg, cycle, c, block);
            && ProbeLine(cfg, cycle, c1, block) == c1
            && HasLine(cfg, c1, block) == HasLine(cfg, c, block)
            && SeenState(cfg, c1, block) == SeenState(cfg, c, block)
            && c1.stats == c.stats
            && (!HasLine(cfg, c, block) ==> c1 == c && SeenState(cfg, c, block) == Invalid)
  {
    var ways := WaysOf(cfg, c, block);
    TouchTwice(ways, block, cycle);
    var c1 := ProbeLine(cfg, cycle, c, block);
    if SetOf(cfg, block) < |c.localCache| && Has(ways, block) {
      assert WaysOf(cfg, c1, block) == Touch(ways, block, cycle);
      assert c1.localCache[SetOf(cfg, block) := Touch(ways, block, cycle)] == c1.localCache;
    }
  }

  /** `line` is the way that `getLine(tag)` has returned in this cycle. */
  ghost predicate AtLine(ways: Ways, tag: nat, line: nat, cycle: nat) {
    line < |ways| && line == Find(ways, tag) && ways[line].lastUsed == cycle
  }

  lemma PutAt(ways: Ways, tag: nat, line: nat, state: State, cycle: nat)
    requires AtLine(ways, tag, line, cycle) && StampedBy(ways, cycle)
    ensures ways[line := ways[line].(state := state)] == SetState(ways, tag, state, cycle)
    ensures AtLine(SetState(ways, tag, state, cycle), tag, line, cycle)
    ensures StampedBy(SetState(ways, tag, state, cycle), cycle) && |SetState(ways, tag, state, cycle)| == |ways|
    ensures StateOf(ways, tag) == ways[line].state
  {
    FindIs(SetState(ways, tag, state, cycle), tag, line);
  }

  lemma ReplacedIsFound(ways: Ways, tag: nat, cycle: nat)
    requires 0 < |ways| && StampedBy(ways, cycle)
    ensures Find(Replace(ways, tag, cycle), tag) < |ways|
    ensures |Replace(ways, tag, cycle)| == |ways| && StampedBy(Replace(ways, tag, cycle), cycle)
  {
    assert Replace(ways, tag, cycle)[Victim(ways)].tag == tag;
  }

  lemma TouchedIsAt(ways: Ways, tag: nat, cycle: nat)
    requires Find(ways, tag) < |ways| && StampedBy(ways, cycle)
    ensures AtLine(Touch(ways, tag, cycle), tag, Find(ways, tag), cycle)
    ensures StampedBy(Touch(ways, tag, cycle), cycle) && |Touch(ways, tag, cycle)| == |ways|
  {
    FindIs(Touch(ways, tag, cycle), tag, Find(ways, tag));
  }

  /** The snooped line, and no other, has gone to its new state. */
  ghost predicate SnoopedLine(protocol: Protocol, command: Command, ways: Ways, line: nat, ways': Ways) {
    line < |ways| && ways' == ways[line := ways[line].(state := SnoopState(protocol, command, ways[line].state))]
  }

  // ---------------------------------------------------------------------------------------------
  // The object.

  function WaysIn(sets: seq<CacheSet>): (ways: seq<Ways>)
    reads sets
    ensures |ways| == |sets|
    ensures forall i | 0 <= i < |sets| :: ways[i] == sets[i].allLines
  {
    if |sets| == 0 then [] else WaysIn(sets[..|sets| - 1]) + [sets[|sets| - 1].allLines]
  }

  class Cache {
    const constants: CacheConstants
    const localCache: seq<CacheSet>
    var pendingJobs: seq<Job>
    var currentJob: Option<Job>
    var busRequest: BusRequest?
    var haveBusRequest: bool
    var busy: bool
    var busRequestBeingServiced: bool
    var startServiceCycle: nat
    var jobCycleCost: int
    var stats: Stats

    ghost function View(): CacheState
      reads this, localCache, busRequest
    {
      CacheState(WaysIn(localCache), pendingJobs, currentJob,
                 if busRequest == null then None
                     else Some(busRequest.View()), haveBusRequest, busy, busRequestBeingServiced, startServiceCycle,
                         jobCycleCost, stats)
    }

    /** Own sets of the right size, and no line stamped in the future. */
    ghost predicate Valid()
      reads localCache, constants
    {
      && constants.Valid()
      && |localCache| == constants.cfg.numSets
      && (forall i, j | 0 <= i < j < |localCache| :: localCache[i] != localCache[j])
      && (forall i | 0 <= i < |localCache| :: |localCache[i].allLines| == constants.cfg.numLinesInSet
            && StampedBy(localCache[i].allLines, constants.cycles))
    }

    lemma Sizes()
      requires Valid()
      ensures |localCache| == constants.cfg.numSets && ValidConfig(constants.cfg)
    {
    }

    constructor (constants: CacheConstants)
      requires constants.Valid()
      ensures this.constants == constants && Valid() && View() == InitialCache(constants.cfg)
      ensures busRequest == null && forall i | 0 <= i < |localCache| :: fresh(localCache[i])
    {
      var sets: seq<CacheSet> := [];
      for i := 0 to constants.cfg.numSets
        invariant |sets| == i && constants.Valid() && fresh(sets)
        invariant forall j, k | 0 <= j < k < i :: sets[j] != sets[k]
        invariant forall j | 0 <= j < i :: sets[j].allLines == EmptyWays(constants.cfg)
      {
        var one := new CacheSet(constants.cfg.numLinesInSet);
        assert one.allLines == EmptyWays(constants.cfg);
        sets := sets + [one];
      }
      this.constants := constants;
      localCache := sets;
      pendingJobs, currentJob, busRequest := [], None, null;
      haveBusRequest, busy, busRequestBeingServiced := false, false, false;
      startServiceCycle, jobCycleCost, stats := 0, 0, NO_STATS;
      new;
      assert WaysIn(localCache) == seq(constants.cfg.numSets, _ => EmptyWays(constants.cfg));
    }

    /** The set of the current job's block, and the block. */
    method DecodeJob() returns (whichSet: nat, tag: nat)
      requires Valid() && currentJob.Some?
      ensures tag == BlockOf(constants.cfg, currentJob.value.address)
      ensures whichSet == SetOf(constants.cfg, tag) && whichSet < |localCache|
      ensures WaysOf(constants.cfg, View(), tag) == localCache[whichSet].allLines
    {
      whichSet, tag := constants.DecodeAddress(currentJob.value.address);
    }

    /** The job's block. */
    ghost function Block(): nat
      reads this
      requires currentJob.Some?
    {
      BlockOf(constants.cfg, currentJob.value.address)
    }

    /** Work on one set changes nothing but that set. */
    twostate lemma OneSetWays(whichSet: nat)
      requires old(Valid()) && constants.cycles == old(constants.cycles)
      requires whichSet < |localCache|
      requires forall i | 0 <= i < |localCache| && i != whichSet :: unchanged(localCache[i])
      requires |localCache[whichSet].allLines| == constants.cfg.numLinesInSet
      requires StampedBy(localCache[whichSet].allLines, constants.cycles)
      ensures Valid()
      ensures WaysIn(localCache) == old(WaysIn(localCache))[whichSet := localCache[whichSet].allLines]
    {
      hide StampedBy;
    }

    twostate lemma OneSet(block: nat)
      requires old(Valid()) && constants.cycles == old(constants.cycles)
      requires unchanged(this) && (busRequest != null ==> unchanged(busRequest))
      requires SetOf(constants.cfg, block) < |localCache|
      requires forall i | 0 <= i < |localCache| && i != SetOf(constants.cfg, block) :: unchanged(localCache[i])
      requires |localCache[SetOf(constants.cfg, block)].allLines| == constants.cfg.numLinesInSet
      requires StampedBy(localCache[SetOf(constants.cfg, block)].allLines, constants.cycles)
      ensures Valid()
      ensures View() == WithWays(constants.cfg, old(View()), block, localCache[SetOf(constants.cfg, block)].allLines)
    {
      hide StampedBy, SetOf;
      OneSetWays(SetOf(constants.cfg, block));
      hide Valid, WaysIn;
    }

    /** `isLineValid`. */
    method IsLineValid() returns (found: bool)
      requires Valid() && currentJob.Some?
      ensures found == HasLine(constants.cfg, View(), Block())
    {
      var whichSet, tag := DecodeJob();
      found := localCache[whichSet].HasLine(tag);
    }

    method LineInState(state: State) returns (inState: bool)
      requires Valid() && currentJob.Some?
      modifies localCache
      ensures Valid() && View() == ProbeLine(constants.cfg, constants.cycles, old(View()), Block())
      ensures inState == (HasLine(constants.cfg, old(View()), Block())
                          && SeenState(constants.cfg, old(View()), Block()) == state)
    {
      hide Touch, SetState, StampedBy, Has, Find, StateOf, SetOf, BlockOf;
      var whichSet, tag := DecodeJob();
      inState := false;
      var found := localCache[whichSet].HasLine(tag);
      if found {
        PutStep(localCache[whichSet].allLines, tag, state, constants.cycles);
        var theLine := localCache[whichSet].GetLine(tag, constants.cycles);
        OneSet(tag);
        if localCache[whichSet].allLines[theLine].state == state {
          inState := true;
        }
      }
    }

    method SetLineState(state: State)
      requires Valid() && currentJob.Some?
      modifies localCache
      ensures Valid() && View() == CacheModel.SetLineState(constants.cfg, constants.cycles, old(View()), Block(), state)
    {
      hide Touch, SetState, StampedBy, Has, Find, StateOf, SetOf, BlockOf;
      var whichSet, tag := DecodeJob();
      var found := localCache[whichSet].HasLine(tag);
      if found {
        PutStep(localCache[whichSet].allLines, tag, state, constants.cycles);
        var theLine := localCache[whichSet].GetLine(tag, constants.cycles);
        localCache[whichSet].SetStateOf(theLine, state);
        OneSet(tag);
      }
    }

    /** `getTotalMemoryCost`. The test for a full set guards a surcharge that is never paid. */
    method GetTotalMemoryCost() returns (result: int)
      requires Valid() && currentJob.Some?
      ensures result == TotalMemoryCost(constants.cfg, constants.cycles)
    {
      hide SetOf, BlockOf, StampedBy;
      var whichSet, tag := DecodeJob();
      result := match constants.cfg.protocol
                case MSI => MEMORY_COST
                case MESI => PEER_COST
                case DRAGON => PEER_COST
                case MOESI => constants.cfg.unset(constants.cycles);
      var found := localCache[whichSet].HasLine(tag);
      if !found {
        var full := localCache[whichSet].IsFull();
        assert !full;
      }
    }

    /** A new request for the current job. */
    method NewRequest(command: Command, cost: int)
      requires Valid() && currentJob.Some?
      modifies this`busRequest, this`haveBusRequest, this`busy
      ensures Valid() && View() == AskBus(constants.cfg, old(View()), command, currentJob.value.address, cost)
      ensures fresh(busRequest)
    {
      hide SetOf, BlockOf, StampedBy, ToInt;
      var whichSet, tag := DecodeJob();
      var request := new BusRequest(command, whichSet, tag, cost, currentJob.value.address);
      haveBusRequest, busy, busRequest := true, true, request;
    }

    method BeginHit()
      requires Valid()
      modifies this`startServiceCycle, this`jobCycleCost, this`busy, this`haveBusRequest
      ensures Valid() && View() == StartHit(constants.cycles, old(View()))
    {
      startServiceCycle := constants.cycles;
      jobCycleCost := CACHE_HIT_COST;
      busy := true;
      haveBusRequest := false;
    }

    method HandleWriteModified() returns (done: bool)
      requires Valid() && currentJob.Some?
      modifies this`startServiceCycle, this`jobCycleCost, this`busy, this`haveBusRequest, this`stats, localCache
      ensures Valid() && done == (SeenState(constants.cfg, old(View()), Block()) == Modified)
      ensures var c1 := ProbeLine(constants.cfg, constants.cycles, old(View()), Block());
              View() == if done then WriteModified(constants.cycles, c1) else c1
    {
      hide Valid, WaysIn, WithWays, WaysOf, SetOf, BlockOf, StampedBy, ProbeLine, HasLine;
      done := LineInState(Modified);
      if done {
        BeginHit();
        stats := stats.(numHit := stats.numHit + 1, numWriteHits := stats.numWriteHits + 1);
      }
    }

    method NoteExclusiveHit()
      requires Valid()
      modifies this`stats
      ensures Valid()
      ensures var x := old(View()).stats;
              View() == CountWriteHit(old(View())).(stats := CountWriteHit(old(View())).stats.(
                          numExclusiveToModifiedTransitions := x.numExclusiveToModifiedTransitions + 1))
    {
      stats := stats.(numHit := stats.numHit + 1, numWriteHits := stats.numWriteHits + 1,
                      numExclusiveToModifiedTransitions := stats.numExclusiveToModifiedTransitions + 1);
    }

    method HandleWriteExclusive() returns (done: bool)
      requires Valid() && currentJob.Some?
      modifies this`startServiceCycle, this`jobCycleCost, this`busy, this`haveBusRequest, this`stats, localCache
      ensures Valid() && done == (SeenState(constants.cfg, old(View()), Block()) == Exclusive)
      ensures var c1 := ProbeLine(constants.cfg, constants.cycles, old(View()), Block());
              View() == if done then WriteExclusive(constants.cfg, constants.cycles, c1, currentJob.value.address)
                  else c1
    {
      hide View, Valid, WaysIn, WithWays, WaysOf, SetOf, BlockOf, StampedBy, ProbeLine, HasLine,
           CacheModel.SetLineState;
      done := LineInState(Exclusive);
      ghost var probed := View();
      if done {
        BeginHit();
        assert View() == StartHit(constants.cycles, probed);
        NoteExclusiveHit();
        SetLineState(Modified);
      }
    }

    /** The part of `handleWriteSharedInvalid` that counts a write to a shared line. */
    method CountWriteShared()
      requires Valid() && currentJob.Some?
      modifies this`stats, localCache
      ensures Valid()
      ensures var c1 := ProbeLine(constants.cfg, constants.cycles, old(View()), Block());
              View() == if SeenState(constants.cfg, c1, Block()) == Shared
                        then c1.(stats :=
                                 c1.stats.(numWriteShared := c1.stats.numWriteShared + 1,
                                           numWriteHits := c1.stats.numWriteHits + 1))
                        else c1
    {
      hide Valid, WaysIn, WithWays, WaysOf, SetOf, BlockOf, StampedBy, HasLine, ProbeLine, SeenState;
      ProbeTwice(constants.cfg, constants.cycles, View(), Block());
      var found := IsLineValid();
      if found {
        var isShared := LineInState(Shared);
        if isShared {
          stats := stats.(numWriteShared := stats.numWriteShared + 1, numWriteHits := stats.numWriteHits + 1);
        }
      }
    }

    method HandleWriteSharedInvalid()
      requires Valid() && currentJob.Some?
      modifies this`busRequest, this`haveBusRequest, this`busy, this`jobCycleCost, this`stats, localCache
      ensures Valid() && fresh(busRequest)
      ensures var c1 := ProbeLine(constants.cfg, constants.cycles, old(View()), Block());
              View() == WriteSharedInvalid(constants.cfg, constants.cycles, c1, currentJob.value.address)
    {
      hide Valid, WaysIn, WithWays, WaysOf, SetOf, BlockOf, StampedBy, HasLine, ProbeLine, SeenState,
           CacheModel.SetLineState, ToInt, TotalMemoryCost;
      CountWriteShared();
      jobCycleCost := GetTotalMemoryCost();
      NewRequest(BusRdX, jobCycleCost);
      SetLineState(Modified);
    }

    /** Asking the bus to announce a write to a line that others may share. */
    method RequestUpgrade(state: State)
      requires Valid() && currentJob.Some?
      modifies this`busRequest, this`haveBusRequest, this`busy, this`jobCycleCost, this`stats, localCache
      ensures Valid() && fresh(busRequest)
      ensures View() == WriteUpgrade(constants.cfg, constants.cycles, old(View()), currentJob.value.address, state)
    {
      hide Valid, WaysIn, WithWays, WaysOf, SetOf, BlockOf, StampedBy, HasLine, ProbeLine, SeenState,
           CacheModel.SetLineState, ToInt, TotalMemoryCost;
      stats := stats.(numHit := stats.numHit + 1);
      NewRequest(BusRdX, CACHE_HIT_COST);
      jobCycleCost := CACHE_HIT_COST;
      SetLineState(state);
    }

    method RequestBlockToWrite()
      requires Valid() && currentJob.Some?
      modifies this`busRequest, this`haveBusRequest, this`busy, this`jobCycleCost, this`stats
      ensures Valid() && fresh(busRequest)
      ensures View() == WriteMissDragon(constants.cfg, old(View()), currentJob.value.address)
    {
      hide Valid, WaysIn, WithWays, WaysOf, SetOf, BlockOf, StampedBy, HasLine, ProbeLine, SeenState,
           CacheModel.SetLineState, ToInt, TotalMemoryCost;
      stats := stats.(numWriteMisses := stats.numWriteMisses + 1);
      NewRequest(BusRd, CACHE_HIT_COST);
      jobCycleCost := CACHE_HIT_COST;
    }

    method HandleWriteRequestMSI()
      requires Valid() && currentJob.Some? && constants.cfg.protocol == MSI
      modifies this`busRequest, this`haveBusRequest, this`busy, this`jobCycleCost, this`startServiceCycle, this`stats,
               localCache
      ensures Valid() && (busRequest == old(busRequest) || fresh(busRequest))
      ensures View() == HandleWrite(constants.cfg, constants.cycles, old(View()), currentJob.value.address)
    {
      hide Valid, WaysIn, WithWays, WaysOf, SetOf, BlockOf, StampedBy, HasLine, ProbeLine, SeenState,
           CacheModel.SetLineState, ToInt, TotalMemoryCost, WriteModified, WriteSharedInvalid;
      ProbeTwice(constants.cfg, constants.cycles, View(), Block());
      var done := HandleWriteModified();
      if !done {
        HandleWriteSharedInvalid();
      }
    }

    method HandleWriteRequestMESI()
      requires Valid() && currentJob.Some? && constants.cfg.protocol == MESI
      modifies this`busRequest, this`haveBusRequest, this`busy, this`jobCycleCost, this`startServiceCycle, this`stats,
               localCache
      ensures Valid() && (busRequest == old(busRequest) || fresh(busRequest))
      ensures View() == HandleWrite(constants.cfg, constants.cycles, old(View()), currentJob.value.address)
    {
      hide Valid, WaysIn, WithWays, WaysOf, SetOf, BlockOf, StampedBy, HasLine, ProbeLine, SeenState,
           CacheModel.SetLineState, ToInt, TotalMemoryCost, WriteModified, WriteExclusive, WriteSharedInvalid;
      ProbeTwice(constants.cfg, constants.cycles, View(), Block());
      var done := HandleWriteModified();
      if !done {
        done := HandleWriteExclusive();
        if !done {
          HandleWriteSharedInvalid();
        }
      }
    }

    method HandleWriteRequestDRAGON()
      requires Valid() && currentJob.Some? && constants.cfg.protocol == DRAGON
      modifies this`busRequest, this`haveBusRequest, this`busy, this`jobCycleCost, this`startServiceCycle, this`stats,
               localCache
      ensures Valid() && (busRequest == old(busRequest) || fresh(busRequest))
      ensures View() == HandleWrite(constants.cfg, constants.cycles, old(View()), currentJob.value.address)
    {
      hide Valid, WaysIn, WithWays, WaysOf, SetOf, BlockOf, StampedBy, HasLine, ProbeLine, SeenState,
           CacheModel.SetLineState, ToInt, TotalMemoryCost, WriteModified, WriteExclusive, WriteUpgrade,
               WriteMissDragon;
      ProbeTwice(constants.cfg, constants.cycles, View(), Block());
      var inState := LineInState(SharedClean);
      if inState {
        RequestUpgrade(SharedDirty);
        return;
      }
      inState := LineInState(Exclusive);
      if inState {
        inState := HandleWriteExclusive();
        return;
      }
      inState := LineInState(Modified);
      if inState {
        inState := HandleWriteModified();
        return;
      }
      inState := LineInState(SharedDirty);
      if inState {
        RequestUpgrade(SharedDirty);
      } else {
        RequestBlockToWrite();
      }
    }

    method HandleWriteRequestMOESI()
      requires Valid() && currentJob.Some? && constants.cfg.protocol == MOESI
      modifies this`busRequest, this`haveBusRequest, this`busy, this`jobCycleCost, this`startServiceCycle, this`stats,
               localCache
      ensures Valid() && (busRequest == old(busRequest) || fresh(busRequest))
      ensures View() == HandleWrite(constants.cfg, constants.cycles, old(View()), currentJob.value.address)
    {
      hide Valid, WaysIn, WithWays, WaysOf, SetOf, BlockOf, StampedBy, HasLine, ProbeLine, SeenState,
           CacheModel.SetLineState, ToInt, TotalMemoryCost, WriteModified, WriteExclusive, WriteUpgrade,
               WriteSharedInvalid;
      ProbeTwice(constants.cfg, constants.cycles, View(), Block());
      var inState := LineInEither(Invalid, Shared);
      if inState {
        HandleWriteSharedInvalid();
        return;
      }
      inState := LineInState(Exclusive);
      if inState {
        inState := HandleWriteExclusive();
        return;
      }
      inState := LineInState(Modified);
      if inState {
        inState := HandleWriteModified();
        return;
      }
      inState := LineInState(Owned);
      if inState {
        RequestUpgrade(Modified);
      } else {
        HandleWriteSharedInvalid();
      }
    }

    /** One of two states; the second is asked for only if the line is not in the first. */
    method LineInEither(state: State, other: State) returns (inState: bool)
      requires Valid() && currentJob.Some?
      modifies localCache
      ensures Valid() && View() == ProbeLine(constants.cfg, constants.cycles, old(View()), Block())
      ensures inState == (HasLine(constants.cfg, old(View()), Block())
                          && (SeenState(constants.cfg, old(View()), Block()) == state
                              || SeenState(constants.cfg, old(View()), Block()) == other))
    {
      hide Valid, WaysIn, WithWays, WaysOf, SetOf, BlockOf, StampedBy, HasLine, ProbeLine, SeenState,
           CacheModel.SetLineState, ToInt, TotalMemoryCost;
      ProbeTwice(constants.cfg, constants.cycles, View(), Block());
      inState := LineInState(state);
      if !inState {
        inState := LineInState(other);
      }
    }

    /** The test of `handleReadHit`. */
    method LineReadable() returns (readable: bool)
      requires Valid() && currentJob.Some?
      modifies localCache
      ensures Valid() && View() == ProbeLine(constants.cfg, constants.cycles, old(View()), Block())
      ensures readable == Readable(SeenState(constants.cfg, old(View()), Block()))
    {
      hide Valid, WaysIn, WithWays, WaysOf, SetOf, BlockOf, StampedBy, HasLine, ProbeLine, SeenState,
           CacheModel.SetLineState, ToInt, TotalMemoryCost;
      ProbeTwice(constants.cfg, constants.cycles, View(), Block());
      readable := LineInEither(Modified, Shared);
      if !readable {
        readable := LineInEither(Exclusive, Owned);
      }
    }

    method HandleReadHit() returns (done: bool)
      requires Valid() && currentJob.Some?
      modifies this`startServiceCycle, this`jobCycleCost, this`busy, this`haveBusRequest, this`stats, localCache
      ensures Valid() && done == Readable(SeenState(constants.cfg, old(View()), Block()))
      ensures var c1 := ProbeLine(constants.cfg, constants.cycles, old(View()), Block());
              View() == if done then ReadHit(constants.cycles, c1) else c1
    {
      hide Valid, WaysIn, WithWays, WaysOf, SetOf, BlockOf, StampedBy, HasLine, ProbeLine, SeenState,
           CacheModel.SetLineState, ToInt, TotalMemoryCost, Readable;
      done := LineReadable();
      if done {
        BeginHit();
        stats := stats.(numReadHits := stats.numReadHits + 1, numHit := stats.numHit + 1);
      }
    }

    method HandleReadMiss()
      requires Valid() && currentJob.Some?
      modifies this`busRequest, this`haveBusRequest, this`busy, this`stats
      ensures Valid() && fresh(busRequest)
      ensures View() == ReadMiss(constants.cfg, old(View()), currentJob.value.address)
    {
      hide Valid, WaysIn, WithWays, WaysOf, SetOf, BlockOf, StampedBy, HasLine, ProbeLine, SeenState,
           CacheModel.SetLineState, ToInt, TotalMemoryCost;
      NewRequest(BusRd, MEMORY_COST);
      stats := stats.(numMiss := stats.numMiss + 1);
    }

    /** `handleReadRequestMSI` and `handleReadRequestMESI`; the latter's self-check looks at the line once more. */
    method HandleReadRequest()
      requires Valid() && currentJob.Some? && (constants.cfg.protocol == MSI || constants.cfg.protocol == MESI)
      modifies this`busRequest, this`haveBusRequest, this`busy, this`jobCycleCost, this`startServiceCycle, this`stats,
               localCache
      ensures Valid() && (busRequest == old(busRequest) || fresh(busRequest))
      ensures View() == HandleRead(constants.cfg, constants.cycles, old(View()), currentJob.value.address)
    {
      hide Valid, WaysIn, WithWays, WaysOf, SetOf, BlockOf, StampedBy, HasLine, ProbeLine, SeenState,
           CacheModel.SetLineState, ToInt, TotalMemoryCost, ReadHit, ReadMiss, Readable;
      ProbeTwice(constants.cfg, constants.cycles, View(), Block());
      if constants.cfg.protocol == MESI {
        var inState := LineInState(Invalid);
      }
      var found := IsLineValid();
      if found {
        var done := HandleReadHit();
      } else {
        HandleReadMiss();
        stats := stats.(numReadMisses := stats.numReadMisses + 1);
      }
    }

    method RequestBlockToRead()
      requires Valid() && currentJob.Some?
      modifies this`busRequest, this`haveBusRequest, this`busy, this`jobCycleCost, this`stats
      ensures Valid() && fresh(busRequest)
      ensures View() == ReadMissDragon(constants.cfg, constants.cycles, old(View()), currentJob.value.address)
    {
      hide Valid, WaysIn, WithWays, WaysOf, SetOf, BlockOf, StampedBy, HasLine, ProbeLine, SeenState,
           CacheModel.SetLineState, ToInt, TotalMemoryCost;
      jobCycleCost := GetTotalMemoryCost();
      NewRequest(BusRd, jobCycleCost);
      stats := stats.(numReadMisses := stats.numReadMisses + 1);
    }

    method HandleReadRequestDRAGON()
      requires Valid() && currentJob.Some? && constants.cfg.protocol == DRAGON
      modifies this`busRequest, this`haveBusRequest, this`busy, this`jobCycleCost, this`startServiceCycle, this`stats,
               localCache
      ensures Valid() && (busRequest == old(busRequest) || fresh(busRequest))
      ensures View() == HandleRead(constants.cfg, constants.cycles, old(View()), currentJob.value.address)
    {
      hide Valid, WaysIn, WithWays, WaysOf, SetOf, BlockOf, StampedBy, HasLine, ProbeLine, SeenState,
           CacheModel.SetLineState, ToInt, TotalMemoryCost, ReadMissDragon;
      ProbeTwice(constants.cfg, constants.cycles, View(), Block());
      var inState := LineInEither(Modified, Exclusive);
      if !inState {
        inState := LineInEither(SharedClean, SharedDirty);
      }
      if inState {
        BeginHit();
      } else {
        RequestBlockToRead();
      }
    }

    method HandleReadRequestMOESI()
      requires Valid() && currentJob.Some? && constants.cfg.protocol == MOESI
      modifies this`busRequest, this`haveBusRequest, this`busy, this`jobCycleCost, this`startServiceCycle, this`stats,
               localCache
      ensures Valid() && (busRequest == old(busRequest) || fresh(busRequest))
      ensures View() == HandleRead(constants.cfg, constants.cycles, old(View()), currentJob.value.address)
    {
      hide Valid, WaysIn, WithWays, WaysOf, SetOf, BlockOf, StampedBy, HasLine, ProbeLine, SeenState,
           CacheModel.SetLineState, ToInt, TotalMemoryCost, ReadHit, ReadMiss, Readable;
      var done := HandleReadHit();
      if !done {
        HandleReadMiss();
      }
    }

    method HandleWriteRequest()
      requires Valid() && currentJob.Some?
      modifies this`busRequest, this`haveBusRequest, this`busy, this`jobCycleCost, this`startServiceCycle, this`stats,
               localCache
      ensures Valid() && (busRequest == old(busRequest) || fresh(busRequest))
      ensures View() == HandleWrite(constants.cfg, constants.cycles, old(View()), currentJob.value.address)
    {
      hide Valid, WaysIn, HandleWrite;
      match constants.cfg.protocol
      case MSI => HandleWriteRequestMSI();
      case MESI => HandleWriteRequestMESI();
      case DRAGON => HandleWriteRequestDRAGON();
      case MOESI => HandleWriteRequestMOESI();
    }

    method HandleReadRequestAny()
      requires Valid() && currentJob.Some?
      modifies this`busRequest, this`haveBusRequest, this`busy, this`jobCycleCost, this`startServiceCycle, this`stats,
               localCache
      ensures Valid() && (busRequest == old(busRequest) || fresh(busRequest))
      ensures View() == HandleRead(constants.cfg, constants.cycles, old(View()), currentJob.value.address)
    {
      hide Valid, WaysIn, HandleRead;
      match constants.cfg.protocol
      case MSI => HandleReadRequest();
      case MESI => HandleReadRequest();
      case DRAGON => HandleReadRequestDRAGON();
      case MOESI => HandleReadRequestMOESI();
    }

    /** Takes the next job off the queue and starts on it. */
    method HandleRequest()
      requires Valid()
      modifies this, localCache
      ensures Valid() && (busRequest == old(busRequest) || fresh(busRequest))
      ensures View() == CacheModel.HandleRequest(constants.cfg, constants.cycles, old(View()))
    {
      hide Valid, WaysIn, HandleRead, HandleWrite;
      if !busy && |pendingJobs| != 0 {
        var job := pendingJobs[0];
        currentJob := Some(job);
        pendingJobs := pendingJobs[1..];
        if IsWrite(job) {
          stats := stats.(numWrites := stats.numWrites + 1);
          HandleWriteRequest();
        } else if IsRead(job) {
          stats := stats.(numReads := stats.numReads + 1);
          HandleReadRequestAny();
        }
      }
    }

    method FetchIfThere()
      requires Valid() && currentJob.Some?
      modifies localCache
      ensures Valid() && View() == ProbeLine(constants.cfg, constants.cycles, old(View()), Block())
    {
      hide Touch, SetState, StampedBy, Has, Find, StateOf, SetOf, BlockOf;
      var whichSet, tag := DecodeJob();
      var found := localCache[whichSet].HasLine(tag);
      if found {
        PutStep(localCache[whichSet].allLines, tag, Invalid, constants.cycles);
        var theLine := localCache[whichSet].GetLine(tag, constants.cycles);
        OneSet(tag);
      }
    }

    method UpdateCurrentJobLineCycle()
      requires Valid()
      modifies this`busy, localCache
      ensures Valid()
      ensures View() == if currentJob.None? then old(View())
              else FinishJob(constants.cfg, constants.cycles, old(View()))
      ensures currentJob.Some? ==> !busy
    {
      hide WaysIn, Touch, StampedBy, Has, Find, BlockOf, SetOf;
      if currentJob.Some? {
        busy := false;
        FetchIfThere();
      }
    }

    method Tick()
      requires Valid()
      modifies this, localCache
      ensures Valid() && (busRequest == old(busRequest) || fresh(busRequest))
      ensures View() == CacheTick(constants.cfg, constants.cycles, old(View()))
    {
      hide Valid, WaysIn, ProbeLine, BlockOf, CacheModel.HandleRequest;
      if !busRequestBeingServiced {
        if UnsignedSum(startServiceCycle, jobCycleCost) <= constants.cycles {
          UpdateCurrentJobLineCycle();
          busy := false;
        }
        if !busy && |pendingJobs| != 0 {
          HandleRequest();
        }
      }
    }

    // -------------------------------------------------------------------------------------------
    // What the bus asks of a cache.

    /** The request is handed out; from now on the cache waits for the bus. */
    method GetBusRequest() returns (request: BusRequest?)
      requires Valid()
      modifies this`startServiceCycle, this`busRequestBeingServiced
      ensures Valid() && View() == StartService(constants.cycles, old(View())) && request == busRequest
    {
      startServiceCycle := constants.cycles;
      busRequestBeingServiced := true;
      request := busRequest;
    }

    method UpdateEndCycleTime(extraCycleCost: int)
      requires Valid()
      modifies this`jobCycleCost
      ensures Valid() && View() == AddCost(old(View()), extraCycleCost)
    {
      jobCycleCost := jobCycleCost + extraCycleCost;
    }

    method NewEndCycleTime(cost: int)
      requires Valid()
      modifies this`jobCycleCost
      ensures Valid() && View() == old(View()).(jobCycleCost := cost)
    {
      jobCycleCost := cost;
    }

    /** The processor gets a job. */
    method PushJob(job: Job)
      requires Valid()
      modifies this`pendingJobs
      ensures Valid() && View() == GiveJob(old(View()), job)
    {
      pendingJobs := pendingJobs + [job];
    }

    // The counters of a cache that the bus moves.

    method NoteWriteBack()
      requires Valid()
      modifies this`stats
      ensures Valid() && View() == CountWriteBack(old(View()))
    {
      stats := stats.(numWriteBacks := stats.numWriteBacks + 1);
    }

    method NoteMemoryUse()
      requires Valid()
      modifies this`stats
      ensures Valid() && View() == CountMemoryUse(old(View()))
    {
      stats := stats.(numMainMemoryUses := stats.numMainMemoryUses + 1);
    }

    method NoteBusReadX()
      requires Valid()
      modifies this`stats
      ensures Valid() && View() == CountBusReadX(old(View()))
    {
      stats := stats.(numBusReadX := stats.numBusReadX + 1);
    }

    method NoteBusRequest()
      requires Valid()
      modifies this`stats
      ensures Valid() && View() == CountBusRequest(old(View()))
    {
      stats := stats.(numBusRequests := stats.numBusRequests + 1);
    }

    // The snoop handlers work on the line that has been found and stamped.

    method HandleBusRdModified(tempSet: CacheSet, tempLine: nat) returns (result: SnoopResult)
      requires tempLine < |tempSet.allLines|
      modifies this`stats, tempSet
      ensures tempSet.allLines == old(tempSet.allLines)[tempLine := old(tempSet.allLines)[tempLine].(state := Shared)]
      ensures stats == old(stats).(numFlush := old(stats).numFlush + 1,
                                   numInterventions := old(stats).numInterventions + 1)
      ensures result == FLUSH_MODIFIED_TO_SHARED
    {
      stats := stats.(numFlush := stats.numFlush + 1);
      tempSet.SetStateOf(tempLine, Shared);
      stats := stats.(numInterventions := stats.numInterventions + 1);
      result := FLUSH_MODIFIED_TO_SHARED;
    }

    method HandleBusRdXModified(tempSet: CacheSet, tempLine: nat) returns (result: SnoopResult)
      requires tempLine < |tempSet.allLines|
      modifies this`stats, tempSet
      ensures tempSet.allLines == old(tempSet.allLines)[tempLine := old(tempSet.allLines)[tempLine].(state := Invalid)]
      ensures stats == old(stats).(numFlush := old(stats).numFlush + 1,
                                   numInvalidations := old(stats).numInvalidations + 1)
      ensures result == FLUSH_MODIFIED_TO_INVALID
    {
      stats := stats.(numFlush := stats.numFlush + 1);
      tempSet.SetStateOf(tempLine, Invalid);
      stats := stats.(numInvalidations := stats.numInvalidations + 1);
      result := FLUSH_MODIFIED_TO_INVALID;
    }

    method HandleBusRdXSharedExclusive(tempSet: CacheSet, tempLine: nat) returns (result: SnoopResult)
      requires tempLine < |tempSet.allLines|
      modifies this`stats, tempSet
      ensures tempSet.allLines == old(tempSet.allLines)[tempLine := old(tempSet.allLines)[tempLine].(state := Invalid)]
      ensures stats == old(stats).(numInvalidations := old(stats).numInvalidations + 1)
      ensures result == SHARED
    {
      tempSet.SetStateOf(tempLine, Invalid);
      stats := stats.(numInvalidations := stats.numInvalidations + 1);
      result := SHARED;
    }

    method HandleSnoopMSI(command: Command, tempSet: CacheSet, tempLine: nat) returns (result: SnoopResult)
      requires tempLine < |tempSet.allLines|
      modifies this`stats, tempSet
      ensures SnoopedLine(MSI, command, old(tempSet.allLines), tempLine, tempSet.allLines)
      ensures stats == SnoopStats(MSI, command, old(tempSet.allLines)[tempLine].state, old(stats))
      ensures result == SnoopReply(MSI, command, old(tempSet.allLines)[tempLine].state)
    {
      var state := tempSet.allLines[tempLine].state;
      result := NONE;
      if command == BusRd {
        if state == Shared {
          result := SHARED;
        } else if state == Modified {
          result := HandleBusRdModified(tempSet, tempLine);
        }
      } else {
        if state == Shared {
          result := HandleBusRdXSharedExclusive(tempSet, tempLine);
        } else if state == Modified {
          result := HandleBusRdXModified(tempSet, tempLine);
        }
      }
    }

    method HandleSnoopMESI(command: Command, tempSet: CacheSet, tempLine: nat) returns (result: SnoopResult)
      requires tempLine < |tempSet.allLines|
      modifies this`stats, tempSet
      ensures SnoopedLine(MESI, command, old(tempSet.allLines), tempLine, tempSet.allLines)
      ensures stats == SnoopStats(MESI, command, old(tempSet.allLines)[tempLine].state, old(stats))
      ensures result == SnoopReply(MESI, command, old(tempSet.allLines)[tempLine].state)
    {
      var state := tempSet.allLines[tempLine].state;
      result := NONE;
      if command == BusRd {
        if state == Shared {
          result := SHARED;
        } else if state == Modified {
          result := HandleBusRdModified(tempSet, tempLine);
        } else if state == Exclusive {
          tempSet.SetStateOf(tempLine, Shared);
          stats := stats.(numInterventions := stats.numInterventions + 1);
          result := SHARED;
        }
      } else {
        if state == Shared || state == Exclusive {
          result := HandleBusRdXSharedExclusive(tempSet, tempLine);
        } else if state == Modified {
          result := HandleBusRdXModified(tempSet, tempLine);
        }
      }
    }

    method HandleSnoopDRAGON(request: BusRequest, tempSet: CacheSet, tempLine: nat) returns (result: SnoopResult)
      requires tempLine < |tempSet.allLines|
      modifies this`stats, tempSet, request
      ensures SnoopedLine(DRAGON, request.command, old(tempSet.allLines), tempLine, tempSet.allLines)
      ensures stats == SnoopStats(DRAGON, request.command, old(tempSet.allLines)[tempLine].state, old(stats))
      ensures result == SnoopReply(DRAGON, request.command, old(tempSet.allLines)[tempLine].state)
      ensures request.View() == if RaisesShared(DRAGON, request.command, old(tempSet.allLines)[tempLine].state)
                                then old(request.View()).(sharedLine := true) else old(request.View())
    {
      var state := tempSet.allLines[tempLine].state;
      result := NONE;
      if request.command == BusRd {
        if state == SharedDirty {
          stats := stats.(numFlush := stats.numFlush + 1);
          request.SetSharedLine();
          result := SHAREDDIRTY;
        } else if state == Modified {
          request.SetSharedLine();
          stats := stats.(numFlush := stats.numFlush + 1);
          tempSet.SetStateOf(tempLine, SharedDirty);
          stats := stats.(numInterventions := stats.numInterventions + 1);
          result := MODIFIEDTOSHARED;
        } else if state == SharedClean {
          request.SetSharedLine();
          result := SHAREDCLEAN;
        } else if state == Exclusive {
          request.SetSharedLine();
          result := EXCLUSIVETOSHARED;
          tempSet.SetStateOf(tempLine, SharedClean);
          stats := stats.(numInterventions := stats.numInterventions + 1);
        }
      } else if state == SharedDirty {
        result := SHAREDCLEAN;
        tempSet.SetStateOf(tempLine, SharedClean);
      }
    }

    method HandleSnoopMOESI(command: Command, tempSet: CacheSet, tempLine: nat) returns (result: SnoopResult)
      requires tempLine < |tempSet.allLines|
      modifies this`stats, tempSet
      ensures SnoopedLine(MOESI, command, old(tempSet.allLines), tempLine, tempSet.allLines)
      ensures stats == SnoopStats(MOESI, command, old(tempSet.allLines)[tempLine].state, old(stats))
      ensures result == SnoopReply(MOESI, command, old(tempSet.allLines)[tempLine].state)
    {
      var state := tempSet.allLines[tempLine].state;
      result := NONE;
      if command == BusRd {
        if state == Owned {
          result := OWNED;
          stats := stats.(numCacheShare := stats.numCacheShare + 1);
        } else if state == Modified {
          tempSet.SetStateOf(tempLine, Owned);
          stats := stats.(numCacheShare := stats.numCacheShare + 1);
          result := MODIFIED;
        } else if state == Shared {
          result := SHARED;
        } else if state == Exclusive {
          result := EXCLUSIVE;
          tempSet.SetStateOf(tempLine, Shared);
          stats := stats.(numCacheShare := stats.numCacheShare + 1);
        }
      } else {
        if state == Owned {
          result := OWNED;
          stats := stats.(numCacheShare := stats.numCacheShare + 1);
          tempSet.SetStateOf(tempLine, Invalid);
        } else if state == Modified {
          result := MODIFIED;
          stats := stats.(numCacheShare := stats.numCacheShare + 1);
          tempSet.SetStateOf(tempLine, Invalid);
        } else if state == Exclusive {
          result := EXCLUSIVE;
          stats := stats.(numCacheShare := stats.numCacheShare + 1);
          tempSet.SetStateOf(tempLine, Invalid);
        } else if state == Shared {
          tempSet.SetStateOf(tempLine, Invalid);
        }
      }
    }

    method HandleSnoop(request: BusRequest, tempSet: CacheSet, tempLine: nat) returns (result: SnoopResult)
      requires tempLine < |tempSet.allLines|
      modifies this`stats, tempSet, request
      ensures SnoopedLine(constants.cfg.protocol, request.command, old(tempSet.allLines), tempLine, tempSet.allLines)
      ensures stats == SnoopStats(constants.cfg.protocol, request.command, old(tempSet.allLines)[tempLine].state,
                                  old(stats))
      ensures result == SnoopReply(constants.cfg.protocol, request.command, old(tempSet.allLines)[tempLine].state)
      ensures request.View()
              == if RaisesShared(constants.cfg.protocol, request.command, old(tempSet.allLines)[tempLine].state)
                                then old(request.View()).(sharedLine := true) else old(request.View())
    {
      hide SnoopStats, SnoopReply, SnoopState;
      match constants.cfg.protocol
      case MSI => result := HandleSnoopMSI(request.command, tempSet, tempLine);
      case MESI => result := HandleSnoopMESI(request.command, tempSet, tempLine);
      case DRAGON => result := HandleSnoopDRAGON(request, tempSet, tempLine);
      case MOESI => result := HandleSnoopMOESI(request.command, tempSet, tempLine);
    }

    /** Another cache's request: look for the line under the number the request has for it. */
    method SnoopBusRequest(request: BusRequest) returns (result: SnoopResult)
      requires Valid() && request.lineSet < |localCache| && request != busRequest
      modifies this`stats, localCache, request
      ensures Valid()
      ensures var snooped := Snoop(constants.cfg, constants.cycles, old(View()), old(request.View()));
              View() == snooped.cache && result == snooped.reply && request.View() == snooped.request
    {
      hide Touch, SetState, StampedBy, Has, Find, StateOf, SnoopStats, SnoopReply, SnoopState, RaisesShared,
           ToUnsignedLong;
      result := NONE;
      var tempSet := localCache[request.lineSet];
      var tag := ToUnsignedLong(request.lineTag);
      ghost var ways := tempSet.allLines;
      ghost var state := StateOf(ways, tag);
      PutStep(ways, tag, SnoopState(constants.cfg.protocol, request.command, state), constants.cycles);
      var found := tempSet.HasLine(tag);
      if found {
        var tempLine := tempSet.GetLine(tag, constants.cycles);
        result := HandleSnoop(request, tempSet, tempLine);
        assert tempSet.allLines
               == SetState(ways, tag, SnoopState(constants.cfg.protocol, request.command, state), constants.cycles);
        OneSetWays(request.lineSet);
      }
    }

    // -------------------------------------------------------------------------------------------
    // Completion.

    /** `currLine` is line `line` of the job's set, fetched in this cycle. */
    ghost predicate AtCurrentLine(whichSet: nat, line: nat)
      reads this, localCache, constants
      requires currentJob.Some?
    {
      && whichSet == SetOf(constants.cfg, Block()) && whichSet < |localCache|
      && AtLine(localCache[whichSet].allLines, Block(), line, constants.cycles)
    }

    method SetCurrLine(whichSet: nat, line: nat, state: State)
      requires Valid() && currentJob.Some? && AtCurrentLine(whichSet, line)
      modifies localCache
      ensures Valid() && AtCurrentLine(whichSet, line)
      ensures View() == PutLine(constants.cfg, constants.cycles, old(View()), Block(), state)
    {
      hide SetOf, BlockOf, AtLine, StampedBy, SetState, Find, StateOf;
      PutAt(localCache[whichSet].allLines, Block(), line, state, constants.cycles);
      assert line < |localCache[whichSet].allLines| by {
        AtIsLine(localCache[whichSet].allLines, Block(), line, constants.cycles);
      }
      localCache[whichSet].SetStateOf(line, state);
      OneSet(Block());
    }

    lemma AtIsLine(ways: Ways, tag: nat, line: nat, cycle: nat)
      requires AtLine(ways, tag, line, cycle)
      ensures line < |ways| && StateOf(ways, tag) == ways[line].state
    {
    }

    /** The state of `currLine`. */
    method CurrState(whichSet: nat, line: nat) returns (state: State)
      requires Valid() && currentJob.Some? && AtCurrentLine(whichSet, line)
      ensures state == StateIn(constants.cfg, View(), Block())
    {
      AtIsLine(localCache[whichSet].allLines, Block(), line, constants.cycles);
      state := localCache[whichSet].allLines[line].state;
    }

    method CompleteWriteMOESI(whichSet: nat, line: nat, isShared: bool)
      requires Valid() && currentJob.Some? && AtCurrentLine(whichSet, line) && constants.cfg.protocol == MOESI
      modifies this`stats, localCache
      ensures Valid()
      ensures View() == CompleteWrite(constants.cfg, constants.cycles, old(View()), currentJob.value.address, isShared)
    {
      hide View, Valid, SetOf, BlockOf, AtLine, PutLine, WaysIn, StateIn, CountMemoryUse;
      if isShared {
        SetCurrLine(whichSet, line, Modified);
      }
      var state := CurrState(whichSet, line);
      if state != Owned {
        NoteMemoryUse();
        SetCurrLine(whichSet, line, Modified);
      }
    }

    method CompleteWriteDRAGON(whichSet: nat, line: nat, isShared: bool)
      requires Valid() && currentJob.Some? && AtCurrentLine(whichSet, line) && constants.cfg.protocol == DRAGON
      modifies this`busRequest, this`haveBusRequest, this`busy, this`jobCycleCost, this`stats, localCache
      ensures Valid() && (busRequest == old(busRequest) || fresh(busRequest))
      ensures View() == CompleteWrite(constants.cfg, constants.cycles, old(View()), currentJob.value.address, isShared)
    {
      hide Valid, SetOf, BlockOf, AtLine, PutLine, WaysIn, ToInt, StateIn, AskBus;
      if isShared {
        jobCycleCost := PEER_COST;
        NewRequest(BusRdX, jobCycleCost);
        SetCurrLine(whichSet, line, SharedDirty);
      } else {
        var state := CurrState(whichSet, line);
        if state == Invalid {
          SetCurrLine(whichSet, line, Modified);
        }
        stats := stats.(numMainMemoryUses := stats.numMainMemoryUses + 1);
      }
    }

    method CompleteWriteJob(whichSet: nat, line: nat, isShared: bool)
      requires Valid() && currentJob.Some? && AtCurrentLine(whichSet, line)
      modifies this`busRequest, this`haveBusRequest, this`busy, this`jobCycleCost, this`stats, localCache
      ensures Valid() && (busRequest == old(busRequest) || fresh(busRequest))
      ensures View() == CompleteWrite(constants.cfg, constants.cycles, old(View()), currentJob.value.address, isShared)
    {
      hide Valid, SetOf, BlockOf, AtLine, PutLine, WaysIn, StateIn, AskBus;
      if constants.cfg.protocol == MOESI {
        CompleteWriteMOESI(whichSet, line, isShared);
      } else if constants.cfg.protocol == DRAGON {
        CompleteWriteDRAGON(whichSet, line, isShared);
      } else if constants.cfg.protocol == MSI {
        stats := stats.(numMainMemoryUses := stats.numMainMemoryUses + 1);
        SetCurrLine(whichSet, line, Modified);
      } else if isShared {
        stats := stats.(numCacheShare := stats.numCacheShare + 1);
        SetCurrLine(whichSet, line, Modified);
      }
    }

    method CompleteReadJob(whichSet: nat, line: nat, isShared: bool)
      requires Valid() && currentJob.Some? && AtCurrentLine(whichSet, line)
      modifies this`stats, localCache
      ensures Valid()
      ensures View() == CompleteRead(constants.cfg, constants.cycles, old(View()), currentJob.value.address, isShared)
    {
      hide Valid, SetOf, BlockOf, AtLine, PutLine, WaysIn;
      if constants.cfg.protocol == MSI {
        stats := stats.(numMainMemoryUses := stats.numMainMemoryUses + 1);
        SetCurrLine(whichSet, line, Shared);
      } else if !isShared {
        stats := stats.(numMainMemoryUses := stats.numMainMemoryUses + 1);
        SetCurrLine(whichSet, line, Exclusive);
      } else if constants.cfg.protocol == MESI {
        stats := stats.(numCacheShare := stats.numCacheShare + 1);
        SetCurrLine(whichSet, line, Shared);
      } else {
        SetCurrLine(whichSet, line, if constants.cfg.protocol == DRAGON then SharedClean else Shared);
      }
    }

    /** The victim makes room for a line with the job's tag. */
    method FillLine(whichSet: nat, tag: nat)
      requires Valid() && currentJob.Some? && constants.cycles < ULLONG_MAX
      requires tag == Block() && whichSet == SetOf(constants.cfg, tag) && whichSet < |localCache|
      requires WaysOf(constants.cfg, View(), tag) == localCache[whichSet].allLines
      modifies localCache
      ensures Valid() && Find(localCache[whichSet].allLines, tag) < |localCache[whichSet].allLines|
      ensures View() == WithWays(constants.cfg, old(View()), tag,
                                 Replace(WaysOf(constants.cfg, old(View()), tag), tag, constants.cycles))
    {
      hide SetOf, BlockOf, StampedBy, Find, Has, Replace;
      ReplacedIsFound(localCache[whichSet].allLines, tag, constants.cycles);
      localCache[whichSet].ReplaceLine(tag, constants.cycles);
      OneSet(tag);
    }

    method NoteWriteMiss()
      requires Valid()
      modifies this`stats
      ensures Valid()
      ensures View() == old(View()).(stats :=
                                     old(View()).stats.(numWriteMisses := old(View()).stats.numWriteMisses + 1))
    {
      stats := stats.(numWriteMisses := stats.numWriteMisses + 1);
    }

    /** Make sure that the set has a line with the job's tag. */
    lemma HasWays(whichSet: nat)
      requires Valid() && whichSet < |localCache|
      ensures 0 < |localCache[whichSet].allLines|
    {
    }

    method BringIn(whichSet: nat, tag: nat)
      requires Valid() && currentJob.Some? && constants.cycles < ULLONG_MAX
      requires tag == Block() && whichSet == SetOf(constants.cfg, tag) && whichSet < |localCache|
      requires WaysOf(constants.cfg, View(), tag) == localCache[whichSet].allLines
      modifies this`stats, localCache
      ensures Valid() && Find(localCache[whichSet].allLines, tag) < |localCache[whichSet].allLines|
      ensures View() == BroughtIn(constants.cfg, constants.cycles, old(View()), currentJob.value)
    {
      hide View, Valid, SetOf, BlockOf, StampedBy, Find, Has, Replace, WithWays, WaysOf, BroughtIn;
      HasWays(whichSet);
      BroughtInIs(constants.cfg, constants.cycles, View(), currentJob.value);
      var full := localCache[whichSet].IsFull();
      assert !full;   // so nothing is ever evicted on purpose
      var found := localCache[whichSet].HasLine(tag);
      if !found {
        FillLine(whichSet, tag);
        if constants.cfg.protocol != DRAGON && IsWrite(currentJob.value) {
          NoteWriteMiss();
        }
      } else {
        PutStep(localCache[whichSet].allLines, tag, Invalid, constants.cycles);
      }
    }

    method FetchLine(whichSet: nat, tag: nat) returns (line: nat)
      requires Valid() && currentJob.Some? && tag == Block() && whichSet == SetOf(constants.cfg, tag)
      requires whichSet < |localCache|
      requires Find(localCache[whichSet].allLines, tag) < |localCache[whichSet].allLines|
      modifies localCache
      ensures Valid() && AtCurrentLine(whichSet, line)
      ensures View() == TouchLine(constants.cfg, constants.cycles, old(View()), tag)
    {
      hide SetOf, BlockOf, AtLine, StampedBy, Touch, Find, Has;
      TouchedIsAt(localCache[whichSet].allLines, tag, constants.cycles);
      line := localCache[whichSet].GetLine(tag, constants.cycles);
      OneSet(tag);
    }

    method PlaceCurrLine() returns (whichSet: nat, line: nat)
      requires Valid() && currentJob.Some? && constants.cycles < ULLONG_MAX
      modifies this`stats, localCache
      ensures Valid() && AtCurrentLine(whichSet, line)
      ensures View() == PlaceLine(constants.cfg, constants.cycles, old(View()), currentJob.value)
    {
      hide Valid, SetOf, BlockOf, AtLine, WaysIn, BroughtIn, TouchLine, Find;
      var tag: nat;
      whichSet, tag := DecodeJob();
      BringIn(whichSet, tag);
      line := FetchLine(whichSet, tag);
    }

    method FreeFromBus()
      requires Valid()
      modifies this`haveBusRequest, this`busy, this`busRequestBeingServiced
      ensures Valid()
      ensures View() == old(View()).(haveBusRequest := false, busy := false, busRequestBeingServiced := false)
      ensures View().currentJob == currentJob
    {
      haveBusRequest := false;
      busy := false;
      busRequestBeingServiced := false;
    }

    /** The bus is done with this cache's request. */
    method BusJobDone(isShared: bool)
      requires Valid() && currentJob.Some? && constants.cycles < ULLONG_MAX
      modifies this, localCache
      ensures Valid() && (busRequest == old(busRequest) || fresh(busRequest))
      ensures View() == CacheModel.BusJobDone(constants.cfg, constants.cycles, old(View()), isShared)
    {
      hide View, Valid, SetOf, BlockOf, AtLine, PlaceLine, WaysIn, CompleteWrite, CompleteRead;
      FreeFromBus();
      var whichSet, line := PlaceCurrLine();
      if IsWrite(currentJob.value) {
        CompleteWriteJob(whichSet, line, isShared);
      } else if IsRead(currentJob.value) {
        CompleteReadJob(whichSet, line, isShared);
      }
    }
  }
}
