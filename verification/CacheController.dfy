/** The main loop as the program runs it (CacheController.cpp): proved to end as the model ends. */
module MainLoop {
  import opened Constants
  import opened Requests
  import opened Sets
  import opened CacheModel
  import opened SystemModel
  import opened BusLemmas
  import opened Refinement
  import opened Runs
  import opened Timing
  import opened Accounting
  import opened Caches
  import opened BusManager

  /** In the orderly states of a run, the bus finds what it relies on. */
  lemma MidStepReady(cfg: Config, s: SystemState)
    requires ValidConfig(cfg) && Orderly(cfg, s) && !Done(s) && s.cycle + 1 < ULLONG_MAX
    ensures BusReady(cfg, BeforeBus(cfg, s))
  {
    var s1 := BeforeBus(cfg, s);
    hide Orderly, BeforeBus, BusJob, RequestsSet;
    if NoJobs(s.caches) {
      RestingIsQuiet(cfg, s);
      DispatchBeforeBus(cfg, s);
      HandedOutKeepsBus(cfg, s, s1);
      if BusJob(cfg, s) {
        HandedOutBusJob(cfg, s, s1);
        GrantableIsSet(cfg, s1, s.outstanding[0].threadId);
      } else {
        HandedOutFreeJob(cfg, s, s1);
        FreeIsSet(cfg, s1);
      }
    } else {
      ServedBeforeBus(cfg, s);
      ServedIsSet(cfg, s, s1);
    }
  }

  lemma HandedOutKeepsBus(cfg: Config, s: SystemState, s1: SystemState)
    requires 0 < |s.outstanding| && HandedOut(cfg, s, s1)
    ensures s1.bus == s.bus && s1.cycle == s.cycle + 1
  {
    hide QuietlyTicked, TakesJob;
  }

  lemma GrantableIsSet(cfg: Config, s: SystemState, k: nat)
    requires ValidConfig(cfg) && Grantable(cfg, s, k)
    ensures RequestsSet(cfg, s.caches)
  {
    SetInRange(cfg, BlockOf(cfg, s.caches[k].currentJob.value.address));
    hide AllGood, BlockOf, SetOf, ToInt;
  }

  lemma FreeIsSet(cfg: Config, s: SystemState)
    requires Orderly(cfg, s) && !s.bus.inUse
    ensures RequestsSet(cfg, s.caches)
  {
    hide AllGood;
  }

  lemma ServedIsSet(cfg: Config, s: SystemState, s1: SystemState)
    requires ValidConfig(cfg) && Orderly(cfg, s) && Served(cfg, s, s1) && s.cycle + 1 < ULLONG_MAX
    ensures BusReady(cfg, s1)
  {
    forall i | 0 <= i < |s.caches|
      ensures s1.caches[i] == s.caches[i].(localCache := s1.caches[i].localCache, busy := s1.caches[i].busy)
    {
      assert ServedCache(cfg, s1.cycle, s.caches[i], s1.caches[i]);
    }
    if s.bus.inUse {
      CurrentHasJob(cfg, s);
      SetInRange(cfg, BlockOf(cfg, s.caches[s.bus.currentCache].currentJob.value.address));
    }
    hide AllGood, BlockOf, SetOf, ToInt, ServedCache;
  }

  class Controller {
    const constants: CacheConstants
    const caches: seq<Cache>
    const bus: AtomicBusManager
    var outstandingRequests: seq<Job>

    /** The whole program is in state s. */
    ghost predicate InState(s: SystemState)
      reads this, bus, constants, caches, set c, i | c in caches && 0 <= i < |c.localCache| :: c.localCache[i],
            set c | c in caches :: c.busRequest
    {
      && bus.constants == constants && bus.caches == caches && constants.Valid()
      && bus.InState(s) && s.outstanding == outstandingRequests
    }

    constructor (constants: CacheConstants, jobs: seq<Job>)
      requires constants.Valid() && constants.cycles == 0
      ensures this.constants == constants && InState(InitialSystem(constants.cfg, jobs))
      ensures fresh(bus) && fresh(caches) && forall c | c in caches :: c.busRequest == null
      ensures forall c, i | c in caches && 0 <= i < |c.localCache| :: fresh(c.localCache[i])
    {
      hide Cache.View, Cache.Valid, Apart, ViewsOf, InitialCache, Separate;
      var all := NewCaches(constants);
      this.constants := constants;
      caches := all;
      bus := new AtomicBusManager(constants, all);
      outstandingRequests := jobs;
      new;
      assert ViewsOf(caches) == InitialSystem(constants.cfg, jobs).caches;
    }

    static lemma OneMore(constants: CacheConstants, all: seq<Cache>, c: Cache)
      requires Separate(constants, all) && c.constants == constants && c.Valid()
      requires forall j | 0 <= j < |all| :: Apart(c, all[j]) && Apart(all[j], c)
      ensures Separate(constants, all + [c])
    {
      hide Apart, Cache.Valid;
    }

    static method NewCaches(constants: CacheConstants) returns (all: seq<Cache>)
      requires constants.Valid()
      ensures fresh(all) && forall c | c in all :: c.busRequest == null
      ensures forall c, i | c in all && 0 <= i < |c.localCache| :: fresh(c.localCache[i])
      ensures |all| == constants.cfg.numProcessors && Separate(constants, all)
      ensures forall j | 0 <= j < |all| :: all[j].View() == InitialCache(constants.cfg)
    {
      hide Cache.View, Cache.Valid, InitialCache;
      all := [];
      for i := 0 to constants.cfg.numProcessors
        invariant |all| == i && constants.Valid() && Separate(constants, all)
        invariant fresh(all) && forall c | c in all :: c.busRequest == null
        invariant forall c, w | c in all && 0 <= w < |c.localCache| :: fresh(c.localCache[w])
        invariant forall j | 0 <= j < |all| :: all[j].View() == InitialCache(constants.cfg)
      {
        var c := new Cache(constants);
        forall j | 0 <= j < i
          ensures Apart(c, all[j]) && Apart(all[j], c)
        {
          assert all[j] in all;
        }
        OneMore(constants, all, c);
        hide Apart, Separate;
        all := all + [c];
      }
    }

    lemma StateIs(s: SystemState)
      requires InState(s)
      ensures bus.constants == constants && bus.caches == caches && constants.Valid() && Separate(constants, caches)
      ensures s.caches == ViewsOf(caches) && s.outstanding == outstandingRequests && s.cycle == constants.cycles
      ensures s.bus == bus.View()
    {
    }

    /** `noJobs`. */
    method AllFree(ghost s: SystemState) returns (allEmpty: bool)
      requires InState(s)
      ensures allEmpty == NoJobs(s.caches)
    {
      hide Separate;
      assert s.caches == ViewsOf(caches);
      allEmpty := true;
      for i := 0 to |caches|
        invariant allEmpty <==> forall j | 0 <= j < i :: !s.caches[j].busy
      {
        assert s.caches[i].busy == caches[i].busy;
        if caches[i].busy {
          allEmpty := false;
        }
      }
    }

    /** Time passes. */
    twostate lemma LaterIsSeparate()
      requires old(Separate(constants, caches)) && constants.cycles == old(constants.cycles) + 1
      requires forall c | c in caches :: Untouched(c)
      ensures Separate(constants, caches) && ViewsOf(caches) == old(ViewsOf(caches))
    {
      forall i | 0 <= i < |caches|
        ensures caches[i].View() == old(caches[i].View())
        ensures caches[i].Valid()
      {
        assert caches[i] in caches && Untouched(caches[i]);
        assert old(caches[i].Valid());
        assert WaysIn(caches[i].localCache) == old(WaysIn(caches[i].localCache));
      }
    }

    method AdvanceClock(ghost s: SystemState)
      requires InState(s)
      modifies constants`cycles
      ensures InState(s.(cycle := s.cycle + 1))
    {
      hide ViewsOf, Separate, Cache.View;
      constants.Tick();
      LaterIsSeparate();
    }

    method PushTo(k: nat, job: Job)
      requires bus.constants == constants && bus.caches == caches && Separate(constants, caches) && k < |caches|
      modifies caches[k]
      ensures Separate(constants, caches)
      ensures forall j | 0 <= j < |caches| :: caches[j].busRequest == old(caches[j].busRequest)
      ensures ViewsOf(caches) == old(ViewsOf(caches))[k := GiveJob(old(ViewsOf(caches))[k], job)]
    {
      bus.Distinct(k);
      hide Separate, Apart, ViewsOf, Cache.View, Cache.Valid, GiveJob;
      caches[k].PushJob(job);
      assert forall j | 0 <= j < |caches| && j != k :: Untouched(caches[j]);
      hide Untouched;
      bus.OneCache(k);
    }

    /** The next job goes to the processor it names. */
    method HandOut()
      requires bus.constants == constants && bus.caches == caches && Separate(constants, caches)
      requires 0 < |outstandingRequests| && outstandingRequests[0].threadId < |caches|
      modifies this`outstandingRequests, caches
      ensures Separate(constants, caches) && outstandingRequests == old(outstandingRequests)[1..]
      ensures forall j | 0 <= j < |caches| :: caches[j].busRequest == old(caches[j].busRequest)
      ensures var job := old(outstandingRequests)[0];
              ViewsOf(caches) == old(ViewsOf(caches))[job.threadId := GiveJob(old(ViewsOf(caches))[job.threadId], job)]
    {
      hide ViewsOf, Separate, Cache.View, GiveJob;
      var currJob := outstandingRequests[0];
      outstandingRequests := outstandingRequests[1..];
      PushTo(currJob.threadId, currJob);
    }

    method TickOne(k: nat)
      requires bus.constants == constants && bus.caches == caches && Separate(constants, caches) && k < |caches|
      modifies caches[k], caches[k].localCache
      ensures Separate(constants, caches)
      ensures forall j | 0 <= j < |caches| ::
                caches[j].busRequest == old(caches[j].busRequest) || fresh(caches[j].busRequest)
      ensures ViewsOf(caches)
              == old(ViewsOf(caches))[k := CacheTick(constants.cfg, constants.cycles, old(ViewsOf(caches))[k])]
    {
      hide ViewsOf, Cache.View, Cache.Valid, CacheTick;
      assert caches[k].Valid();
      caches[k].Tick();
      forall j | 0 <= j < |caches| && j != k
        ensures Untouched(caches[j])
      {
        assert old(Apart(caches[j], caches[k]));
      }
      bus.OneCache(k);
    }

    method TickCaches()
      requires bus.constants == constants && bus.caches == caches && Separate(constants, caches)
      modifies caches
      modifies set c, i | c in caches && 0 <= i < |c.localCache| :: c.localCache[i]
      ensures Separate(constants, caches)
      ensures forall j | 0 <= j < |caches| ::
                caches[j].busRequest == old(caches[j].busRequest) || fresh(caches[j].busRequest)
      ensures ViewsOf(caches) == SystemModel.TickCaches(constants.cfg, constants.cycles, old(ViewsOf(caches)))
    {
      hide ViewsOf, Separate, Cache.View, Cache.Valid, CacheTick, TickedUpTo;
      ghost var views := ViewsOf(caches);
      TickedEnds(constants.cfg, constants.cycles, views);
      for k := 0 to |caches|
        invariant Separate(constants, caches)
        invariant forall j | 0 <= j < |caches| ::
                    caches[j].busRequest == old(caches[j].busRequest) || fresh(caches[j].busRequest)
        invariant ViewsOf(caches) == TickedUpTo(constants.cfg, constants.cycles, views, k)
      {
        TickedNext(constants.cfg, constants.cycles, views, k);
        TickOne(k);
      }
    }

    /** The first k caches have ticked. */
    ghost function TickedUpTo(cfg: Config, cycle: nat, views: seq<CacheState>, k: nat): seq<CacheState> {
      seq(|views|, i requires 0 <= i < |views| => if i < k then CacheTick(cfg, cycle, views[i]) else views[i])
    }

    lemma TickedNext(cfg: Config, cycle: nat, views: seq<CacheState>, k: nat)
      requires k < |views|
      ensures |TickedUpTo(cfg, cycle, views, k)| == |views|
      ensures TickedUpTo(cfg, cycle, views, k + 1)
              == TickedUpTo(cfg, cycle, views, k)[k := CacheTick(cfg, cycle, TickedUpTo(cfg, cycle, views, k)[k])]
    {
      hide CacheTick;
    }

    lemma TickedEnds(cfg: Config, cycle: nat, views: seq<CacheState>)
      ensures TickedUpTo(cfg, cycle, views, 0) == views
      ensures TickedUpTo(cfg, cycle, views, |views|) == SystemModel.TickCaches(cfg, cycle, views)
    {
      hide CacheTick;
    }

    /** Hand out the next job if nobody works. */
    method HandOutIfIdle(ghost s: SystemState)
      requires InState(s) && (NoJobs(s.caches) ==> 0 < |s.outstanding| && s.outstanding[0].threadId < |caches|)
      modifies this`outstandingRequests, caches
      ensures InState(if NoJobs(s.caches) then Dispatch(s) else s)
      ensures forall j | 0 <= j < |caches| :: caches[j].busRequest == old(caches[j].busRequest)
    {
      hide ViewsOf, Separate, Cache.View;
      var idle := AllFree(s);
      if idle {
        HandOut();
      }
    }

    method TickAll(ghost s: SystemState)
      requires InState(s)
      modifies caches
      modifies set c, i | c in caches && 0 <= i < |c.localCache| :: c.localCache[i]
      ensures InState(s.(caches := SystemModel.TickCaches(constants.cfg, s.cycle, s.caches)))
      ensures forall j | 0 <= j < |caches| ::
                caches[j].busRequest == old(caches[j].busRequest) || fresh(caches[j].busRequest)
    {
      hide ViewsOf, Separate, Cache.View, SystemModel.TickCaches;
      TickCaches();
    }

    /** The first half of an iteration: the clock and the caches. */
    method Prepare(ghost s: SystemState)
      requires InState(s) && !Done(s)
      requires 0 < |s.outstanding| ==> s.outstanding[0].threadId < |caches|
      modifies this`outstandingRequests, constants`cycles, caches
      modifies set c, i | c in caches && 0 <= i < |c.localCache| :: c.localCache[i]
      ensures InState(BeforeBus(constants.cfg, s))
      ensures forall j | 0 <= j < |caches| ::
                caches[j].busRequest == old(caches[j].busRequest) || fresh(caches[j].busRequest)
    {
      hide InState, SystemModel.TickCaches, Dispatch;
      AdvanceClock(s);
      var s1 := s.(cycle := s.cycle + 1);
      HandOutIfIdle(s1);
      TickAll(if NoJobs(s1.caches) then Dispatch(s1) else s1);
    }

    /** One iteration of the main loop. */
    method Iterate(ghost s: SystemState)
      requires InState(s) && !Done(s) && Orderly(constants.cfg, s) && s.cycle + 1 < ULLONG_MAX
      requires 0 < |s.outstanding| ==> s.outstanding[0].threadId < |caches|
      modifies this`outstandingRequests, constants`cycles, bus, caches
      modifies set c, i | c in caches && 0 <= i < |c.localCache| :: c.localCache[i]
      modifies set c | c in caches :: c.busRequest
      ensures InState(Step(constants.cfg, s))
      ensures forall c | c in caches :: c.busRequest == old(c.busRequest) || fresh(c.busRequest)
    {
      hide ViewsOf, Separate, Cache.View, Orderly, BusTick, BusReady, BeforeBus;
      MidStepReady(constants.cfg, s);
      Prepare(s);
      bus.Tick(BeforeBus(constants.cfg, s));
      TickKeepsTrace(constants.cfg, BeforeBus(constants.cfg, s));
      forall c | c in caches
        ensures c.busRequest == old(c.busRequest) || fresh(c.busRequest)
      {
        var j :| 0 <= j < |caches| && caches[j] == c;
      }
    }

    lemma TickKeepsTrace(cfg: Config, s: SystemState)
      ensures BusTick(cfg, s).outstanding == s.outstanding
    {
      hide CacheModel.BusJobDone, BroadcastUpTo;
    }

    /** The body of the main loop and the next look at its condition. */
    method IterateOnce(ghost jobs: seq<Job>, ghost n: nat) returns (idle: bool)
      requires InState(After(constants.cfg, jobs, n)) && ValidConfig(constants.cfg)
      requires !Done(After(constants.cfg, jobs, n))
      requires forall job | job in After(constants.cfg, jobs, n).outstanding :: job.threadId < |caches|
      requires CycleBound(constants.cfg, jobs) < 0x8000_0000_0000_0000 && NeverWraps(constants.cfg, jobs)
      modifies this`outstandingRequests, constants`cycles, bus, caches
      modifies set c, i | c in caches && 0 <= i < |c.localCache| :: c.localCache[i]
      modifies set c | c in caches :: c.busRequest
      ensures InState(After(constants.cfg, jobs, n + 1)) && n < CycleBound(constants.cfg, jobs)
      ensures idle == NoJobs(After(constants.cfg, jobs, n + 1).caches)
      ensures After(constants.cfg, jobs, n + 1).outstanding == outstandingRequests
      ensures forall job | job in outstandingRequests :: job.threadId < |caches|
      ensures forall c | c in caches :: c.busRequest == old(c.busRequest) || fresh(c.busRequest)
    {
      hide ViewsOf, Orderly, After, CycleBound, InState, Step, NoJobs, Done, ValidConfig, NeverWraps;
      StillPaid(constants.cfg, jobs, n);
      NextAfter(constants.cfg, jobs, n);
      Iterate(After(constants.cfg, jobs, n));
      StateIs(After(constants.cfg, jobs, n + 1));
      idle := AllFree(After(constants.cfg, jobs, n + 1));
    }

    /** The program: unless a transaction's end wraps, it ends as the model ends, with every job served. */
    method Run(ghost jobs: seq<Job>)
      requires InState(InitialSystem(constants.cfg, jobs))
      requires forall job | job in jobs :: job.threadId < |caches|
      requires CycleBound(constants.cfg, jobs) < 0x8000_0000_0000_0000 && NeverWraps(constants.cfg, jobs)
      modifies this`outstandingRequests, constants`cycles, bus, caches
      modifies set c, i | c in caches && 0 <= i < |c.localCache| :: c.localCache[i]
      modifies set c | c in caches :: c.busRequest
      ensures InState(After(constants.cfg, jobs, CycleBound(constants.cfg, jobs)))
      ensures outstandingRequests == [] && NoJobs(ViewsOf(caches))
    {
      hide ViewsOf, Orderly, After, InitialSystem, CycleBound, InState, ValidConfig, Separate, NeverWraps;
      ghost var cfg := constants.cfg;
      ghost var bound := CycleBound(cfg, jobs);
      ghost var n := 0;
      StartsInitially(cfg, jobs);
      StateIs(After(cfg, jobs, 0));
      var idle := AllFree(After(cfg, jobs, 0));
      while !idle || |outstandingRequests| != 0
        invariant InState(After(cfg, jobs, n)) && After(cfg, jobs, n).outstanding == outstandingRequests
        invariant idle == NoJobs(After(cfg, jobs, n).caches)
        invariant forall c | c in caches :: c.busRequest == old(c.busRequest) || fresh(c.busRequest)
        invariant forall job | job in outstandingRequests :: job.threadId < |caches|
        invariant n <= bound
        decreases bound - n
      {
        idle := IterateOnce(jobs, n);
        n := n + 1;
      }
      StateIs(After(cfg, jobs, n));
      DoneForGood(cfg, jobs, n, bound);
    }

    lemma StartsWith(jobs: seq<Job>)
      requires InState(InitialSystem(constants.cfg, jobs))
      ensures |caches| == constants.cfg.numProcessors
    {
    }

    /** What the final state has to show. */
    lemma Results(jobs: seq<Job>)
      requires InState(After(constants.cfg, jobs, CycleBound(constants.cfg, jobs))) && ValidConfig(constants.cfg)
      requires CycleBound(constants.cfg, jobs) < 0x8000_0000_0000_0000 && NeverWraps(constants.cfg, jobs)
      ensures |caches| == constants.cfg.numProcessors
      ensures forall i | 0 <= i < |caches| ::
                && !caches[i].busy
                && caches[i].stats.numReads == JobsFor(jobs, i, 'R')
                && caches[i].stats.numWrites == JobsFor(jobs, i, 'W')
      ensures constants.cfg.protocol == MSI ==>
                Total(ViewsOf(caches), MemoryTransactions) == Total(ViewsOf(caches), MemoryUses)
    {
      hide After, CycleBound, JobsFor, Total, InState, Done, NeverWraps;
      var s := After(constants.cfg, jobs, CycleBound(constants.cfg, jobs));
      MainLoopStops(constants.cfg, jobs);
      StateIs(s);
      Summary(constants.cfg, jobs, CycleBound(constants.cfg, jobs), s.caches);
      forall i | 0 <= i < |caches|
        ensures !caches[i].busy && caches[i].stats == s.caches[i].stats
      {
        assert ViewsOf(caches)[i] == caches[i].View();
        assert !s.caches[i].busy by { NobodyWorks(s, i); }
      }
    }

    lemma NobodyWorks(s: SystemState, i: nat)
      requires Done(s) && i < |s.caches|
      ensures !s.caches[i].busy
    {
    }

    lemma StartsInitially(cfg: Config, jobs: seq<Job>)
      ensures After(cfg, jobs, 0) == InitialSystem(cfg, jobs) && InitialSystem(cfg, jobs).outstanding == jobs
    {
    }

    lemma NextAfter(cfg: Config, jobs: seq<Job>, n: nat)
      ensures After(cfg, jobs, n + 1) == Step(cfg, After(cfg, jobs, n))
      ensures forall job | job in After(cfg, jobs, n + 1).outstanding :: job in After(cfg, jobs, n).outstanding
    {
      hide BusTick, SystemModel.TickCaches;
      TickKeepsTrace(cfg, BeforeBus(cfg, After(cfg, jobs, n)));
    }

    lemma StillPaid(cfg: Config, jobs: seq<Job>, n: nat)
      requires ValidConfig(cfg) && !Done(After(cfg, jobs, n)) && NeverWraps(cfg, jobs)
      ensures Orderly(cfg, After(cfg, jobs, n)) && After(cfg, jobs, n).cycle == n < CycleBound(cfg, jobs)
    {
      hide Orderly, After, AllCoherent, Timely, Budget, CycleBound, Remaining, Wrapped;
      RunsAreOrderly(cfg, jobs, n);
      RunsAreTimely(cfg, jobs, n);
      CyclesArePaid(cfg, jobs, n);
      RunningHasBudget(cfg, After(cfg, jobs, n));
    }
  }

  /** The program from its command line and its trace to its statistics, for every cache and every trace short
      enough for the clock on which it ends (in MOESI: whose transactions' ends do not wrap): when it is over
      nobody works, each processor has counted the reads and writes that the trace has for it, and in MSI the
      memory transactions it prints add up to the uses of main memory counted on the way. */
  method Simulate(size: nat, assoc: nat, lineSize: nat, processors: nat, pro: int, unset: nat -> int, jobs: seq<Job>)
    returns (controller: Controller)
    requires 0 < assoc && 0 < lineSize && assoc * lineSize <= size < 0x8000_0000
    requires forall cycle: nat :: Fits64(unset(cycle))
    requires forall job | job in jobs :: job.threadId < processors
    requires 0x8000_0000 * |jobs| < 0x8000_0000_0000_0000
    requires NeverWraps(ConfigOf(size, assoc, lineSize, processors, pro, unset), jobs)
    ensures |controller.caches| == processors
    ensures forall i | 0 <= i < processors ::
              && !controller.caches[i].busy
              && controller.caches[i].stats.numReads == JobsFor(jobs, i, 'R')
              && controller.caches[i].stats.numWrites == JobsFor(jobs, i, 'W')
    ensures pro == 0 ==>
              Total(ViewsOf(controller.caches), MemoryTransactions) == Total(ViewsOf(controller.caches), MemoryUses)
  {
    hide ViewsOf, After, InitialSystem, CycleBound, JobsFor, Total, Cache.View, Controller.InState, NeverWraps,
         ConfigOf;
    var constants := new CacheConstants(size, assoc, lineSize, processors, pro, unset);
    controller := new Controller(constants, jobs);
    BoundFits(constants.cfg, jobs);
    controller.StartsWith(jobs);
    controller.Run(jobs);
    controller.Results(jobs);
  }

  lemma BoundFits(cfg: Config, jobs: seq<Job>)
    ensures CycleBound(cfg, jobs) <= 0x8000_0000 * |jobs|
  {
  }

  lemma Summary(cfg: Config, jobs: seq<Job>, n: nat, views: seq<CacheState>)
    requires ValidConfig(cfg) && Done(After(cfg, jobs, n)) && views == After(cfg, jobs, n).caches
    ensures |views| == cfg.numProcessors
    ensures forall i | 0 <= i < |views| ::
              && views[i].stats.numReads == JobsFor(jobs, i, 'R') && views[i].stats.numWrites == JobsFor(jobs, i, 'W')
    ensures cfg.protocol == MSI ==> Total(views, MemoryTransactions) == Total(views, MemoryUses)
  {
    RunsAreOrderly(cfg, jobs, n);
    assert |views| == cfg.numProcessors by { hide AllGood, After; }
    hide After, JobsFor, Total, Orderly;
    forall i: nat | i < |views|
      ensures views[i].stats.numReads == JobsFor(jobs, i, 'R') && views[i].stats.numWrites == JobsFor(jobs, i, 'W')
    {
      EveryJobIsCounted(cfg, jobs, n, i);
    }
    if cfg.protocol == MSI {
      PrintedTrafficIsCounted(cfg, jobs, n);
    }
  }
}
