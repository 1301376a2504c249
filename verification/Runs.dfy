/** Coherence of every run of the simulator: any trace, any number of processors, any cache geometry. */
module Runs {
  import opened Wrappers
  import opened Constants
  import opened Requests
  import opened Sets
  import opened CacheModel
  import opened Coherence
  import opened Freshness
  import opened CacheLemmas
  import opened SystemModel
  import opened BusLemmas
  import opened Refinement

  /** The simulator after n iterations of its main loop on a trace. */
  function After(cfg: Config, jobs: seq<Job>, n: nat): SystemState {
    Run(cfg, InitialSystem(cfg, jobs), n)
  }

  /** Serialisation, in every run: the queues are empty, at most one cache works, and a bus in use
      works for exactly that cache. */
  lemma {:induction false} RunsAreOrderly(cfg: Config, jobs: seq<Job>, n: nat)
    requires ValidConfig(cfg)
    ensures Orderly(cfg, After(cfg, jobs, n))
  {
    hide Orderly, Step;
    if n == 0 {
      InitiallyOrderly(cfg, jobs);
    } else {
      RunsAreOrderly(cfg, jobs, n - 1);
      StepKeepsOrder(cfg, After(cfg, jobs, n - 1));
    }
  }

  lemma InitialBlock(cfg: Config, jobs: seq<Job>, t: nat)
    requires ValidConfig(cfg)
    ensures var b := BlockView(cfg, InitialSystem(cfg, jobs), t);
            b.pending == None && |b.column| == cfg.numProcessors
                && forall i | 0 <= i < |b.column| :: b.column[i] == Invalid
  {
    InitiallyOrderly(cfg, jobs);
    hide StateIn, Orderly;
  }

  /** In every run, every block whose number fits the bus request is coherent after every iteration. */
  lemma {:induction false} RunsAreCoherent(cfg: Config, jobs: seq<Job>, n: nat, t: nat)
    requires ValidConfig(cfg) && Fits(t)
    ensures Coherent(cfg.protocol, BlockView(cfg, After(cfg, jobs, n), t))
    ensures |BlockView(cfg, After(cfg, jobs, n), t).column| == cfg.numProcessors
  {
    hide Coherent, Step, Enabled, BlockNext, EventOf, BlockView, Orderly;
    if n == 0 {
      InitialBlock(cfg, jobs, t);
      EmptyColumnCoherent(cfg.protocol, BlockView(cfg, InitialSystem(cfg, jobs), t));
    } else {
      var s := After(cfg, jobs, n - 1);
      RunsAreCoherent(cfg, jobs, n - 1, t);
      RunsAreOrderly(cfg, jobs, n - 1);
      StepRefines(cfg, s, t);
      CoherenceKept(cfg.protocol, BlockView(cfg, s, t), EventOf(cfg, s, t));
      SameWidth(cfg.protocol, true, BlockView(cfg, s, t), EventOf(cfg, s, t));
    }
  }

  lemma SameWidth(protocol: Protocol, heard: bool, b: BlockState, event: Event)
    ensures |BlockNext(protocol, heard, b, event).column| == |b.column|
  {
  }

  // ---------------------------------------------------------------------------------------------
  // What coherence means for the caches.

  /** How cache i holds block t after n iterations. */
  function HeldAfter(cfg: Config, jobs: seq<Job>, n: nat, i: nat, t: nat): State {
    StateAt(ColumnOf(cfg, After(cfg, jobs, n).caches, t), i)
  }

  /** Single writer (MSI, MESI, Dragon): a cache that may write silently is the only one with a copy. */
  lemma SingleWriterInRuns(cfg: Config, jobs: seq<Job>, n: nat, t: nat, i: nat, j: nat)
    requires ValidConfig(cfg) && Fits(t) && cfg.protocol != MOESI && i != j
    requires WritesSilently(HeldAfter(cfg, jobs, n, i, t))
    ensures HeldAfter(cfg, jobs, n, j, t) == Invalid
  {
    RunsAreCoherent(cfg, jobs, n, t);
    hide After, StateIn, ColumnOf;
  }

  /** Unique supplier (all protocols): at most one cache is modified, exclusive, owned or sharedDirty. */
  lemma UniqueSupplierInRuns(cfg: Config, jobs: seq<Job>, n: nat, t: nat, i: nat, j: nat)
    requires ValidConfig(cfg) && Fits(t)
    requires Supplies(HeldAfter(cfg, jobs, n, i, t)) && Supplies(HeldAfter(cfg, jobs, n, j, t))
    ensures i == j
  {
    RunsAreCoherent(cfg, jobs, n, t);
    hide After, StateIn, ColumnOf;
  }

  /** The block the bus is in use for. */
  ghost function BusBlock(cfg: Config, s: SystemState): nat
    requires 0 <= s.bus.currentCache < |s.caches| && s.caches[s.bus.currentCache].currentJob.Some?
  {
    BlockOf(cfg, s.caches[s.bus.currentCache].currentJob.value.address)
  }

  lemma CoherentFlag(protocol: Protocol, column: Column, p: Pending)
    requires Coherent(protocol, BlockState(column, Some(p))) && (protocol == MESI || protocol == DRAGON)
    requires p.command == BusRd
    ensures p.shared <==> exists j | 0 <= j < |column| :: j != p.k && column[j] != Invalid
  {
  }

  /** The shared flag is truthful (MESI, Dragon): throughout a bus read the bus holds "shared" exactly
      when some other cache has a valid copy. */
  lemma SharedFlagInRuns(cfg: Config, jobs: seq<Job>, n: nat)
    requires ValidConfig(cfg) && (cfg.protocol == MESI || cfg.protocol == DRAGON)
    requires After(cfg, jobs, n).bus.inUse
    ensures var s := After(cfg, jobs, n);
            var k := s.bus.currentCache;
            && 0 <= k < |s.caches| && s.caches[k].currentJob.Some? && s.caches[k].busRequest.Some?
            && (Fits(BusBlock(cfg, s)) && s.caches[k].busRequest.value.command == BusRd ==>
                  (s.bus.isShared <==>
                   exists j | 0 <= j < |s.caches| :: j != k && StateIn(cfg, s.caches[j], BusBlock(cfg, s)) != Invalid))
  {
    hide After, Run, StateIn, BlockOf, Fits, Orderly, Coherent, BlockView, ColumnOf;
    var s := After(cfg, jobs, n);
    RunsAreOrderly(cfg, jobs, n);
    CurrentHasJob(cfg, s);
    var t := BusBlock(cfg, s);
    if Fits(t) && s.caches[s.bus.currentCache].busRequest.value.command == BusRd {
      RunsAreCoherent(cfg, jobs, n, t);
      ViewOnBus(cfg, s);
      var column := ColumnOf(cfg, s.caches, t);
      CoherentFlag(cfg.protocol, column, PendingFor(cfg, s, t).value);
      ColumnHolds(cfg, s.caches, t);
    }
  }

  lemma ViewOnBus(cfg: Config, s: SystemState)
    requires s.bus.inUse && 0 <= s.bus.currentCache < |s.caches|
    requires s.caches[s.bus.currentCache].currentJob.Some? && s.caches[s.bus.currentCache].busRequest.Some?
    ensures var t := BusBlock(cfg, s);
            BlockView(cfg, s, t) == BlockState(ColumnOf(cfg, s.caches, t), PendingFor(cfg, s, t))
                && PendingFor(cfg, s, t).Some?
  {
    hide BlockOf, ColumnOf;
  }

  lemma ColumnHolds(cfg: Config, caches: seq<CacheState>, t: nat)
    ensures |ColumnOf(cfg, caches, t)| == |caches|
    ensures forall j | 0 <= j < |caches| :: ColumnOf(cfg, caches, t)[j] == StateIn(cfg, caches[j], t)
  {
    hide StateIn;
  }

  /** The event of an iteration broadcasts a Dragon update for the block. */
  ghost predicate SendsUpdate(b: BlockState, event: Event) {
    || (event.Issue? && CommandFor(DRAGON, event.write, StateAt(b.column, event.k)) == BusRdX)
    || (event.Complete? && b.pending.Some? && b.pending.value.write && b.pending.value.shared)
  }

  ghost function Sender(b: BlockState, event: Event): nat
    requires SendsUpdate(b, event)
  {
    if event.Issue? then event.k else b.pending.value.k
  }

  lemma UpdateMeetsNoOwner(b: BlockState, event: Event, j: nat)
    requires Coherent(DRAGON, b) && Enabled(DRAGON, true, b, event)
    requires SendsUpdate(b, event) && j != Sender(b, event)
    ensures !WritesSilently(StateAt(b.column, j))
  {
  }

  /** The two branches of the Dragon snoop that the source marks "can never happen": no cache that
      snoops an update holds the block modified or exclusive. */
  lemma UpdatesMeetNoOwner(cfg: Config, jobs: seq<Job>, n: nat, t: nat, j: nat)
    requires ValidConfig(cfg) && Fits(t) && cfg.protocol == DRAGON
    requires var s := After(cfg, jobs, n);
             SendsUpdate(BlockView(cfg, s, t), EventOf(cfg, s, t))
                 && j != Sender(BlockView(cfg, s, t), EventOf(cfg, s, t))
    ensures !WritesSilently(HeldAfter(cfg, jobs, n, j, t))
  {
    hide EventOf, BlockNext, Orderly, Step, ColumnOf, PendingFor, Coherent, Enabled, SendsUpdate, Sender, Run;
    var s := After(cfg, jobs, n);
    RunsAreOrderly(cfg, jobs, n);
    RunsAreCoherent(cfg, jobs, n, t);
    StepRefines(cfg, s, t);
    UpdateMeetsNoOwner(BlockView(cfg, s, t), EventOf(cfg, s, t), j);
  }

  /** The storage in every run: each set has its number of ways, a valid way is the first way bearing its
      tag, so that the line `getLine` returns is the valid one whenever `hasLine` finds any, every valid tag
      belongs to the set it sits in, and no stamp lies in the future, so that `getLRULine` has a result. */
  lemma SetsInRuns(cfg: Config, jobs: seq<Job>, n: nat, i: nat, index: nat)
    requires ValidConfig(cfg) && i < cfg.numProcessors && index < cfg.numSets
    ensures var s := After(cfg, jobs, n);
            && |s.caches| == cfg.numProcessors && |s.caches[i].localCache| == cfg.numSets
            && var ways := s.caches[i].localCache[index];
               && |ways| == cfg.numLinesInSet
               && (forall t :: Has(ways, t) <==> StateOf(ways, t) != Invalid)
               && (forall w | 0 <= w < |ways| && ways[w].state != Invalid ::
                     Find(ways, ways[w].tag) == w && SetOf(cfg, ways[w].tag) == index)
               && (s.cycle < ULLONG_MAX ==> exists w :: 0 <= w < |ways| && ways[w].lastUsed < ULLONG_MAX)
  {
    RunsAreOrderly(cfg, jobs, n);
    var s := After(cfg, jobs, n);
    assert GoodSets(cfg, s.cycle, s.caches[i].localCache) by { hide GoodSets, After, Requesting; }
    hide Orderly, After;
    var ways := s.caches[i].localCache[index];
    assert GoodSet(cfg, s.cycle, index, ways);
    forall t
      ensures Has(ways, t) <==> StateOf(ways, t) != Invalid
    {
      HasIsState(ways, t);
    }
    forall w | 0 <= w < |ways| && ways[w].state != Invalid
      ensures Find(ways, ways[w].tag) == w
    {
      FindIs(ways, ways[w].tag, w);
    }
    assert ways[0].lastUsed <= s.cycle;
  }

  // ---------------------------------------------------------------------------------------------
  // Staleness.

  /** The versions of block t after n iterations from s, where they were v. */
  ghost function VersionsRun(cfg: Config, s: SystemState, t: nat, v: Versions, n: nat): Versions {
    if n == 0 then v
    else
      var s' := Run(cfg, s, n - 1);
      VersionsNext(cfg.protocol, BlockView(cfg, s', t), EventOf(cfg, s', t), VersionsRun(cfg, s, t, v, n - 1))
  }

  /** Before anything is written. */
  function NoWrites(cfg: Config): Versions {
    Versions(0, 0, 0, seq(cfg.numProcessors, _ => 0))
  }

  /** The versions of a block after n iterations of a run. */
  ghost function VersionsAfter(cfg: Config, jobs: seq<Job>, t: nat, n: nat): Versions {
    VersionsRun(cfg, InitialSystem(cfg, jobs), t, NoWrites(cfg), n)
  }

  lemma {:induction false} VersionsAdd(cfg: Config, s: SystemState, t: nat, v: Versions, m: nat, n: nat)
    ensures VersionsRun(cfg, s, t, v, m + n) == VersionsRun(cfg, Run(cfg, s, m), t, VersionsRun(cfg, s, t, v, m), n)
  {
    hide Step, VersionsNext, EventOf, BlockView;
    if n > 0 {
      VersionsAdd(cfg, s, t, v, m, n - 1);
      RunAdds(cfg, s, m, n - 1);
    }
  }

  /** What the block is and what happens to it at one moment of a run. */
  ghost predicate IntactAfter(cfg: Config, jobs: seq<Job>, t: nat, n: nat) {
    Intact(cfg.protocol, BlockView(cfg, After(cfg, jobs, n), t), VersionsAfter(cfg, jobs, t, n))
  }

  ghost predicate LosesAfter(cfg: Config, jobs: seq<Job>, t: nat, n: nat) {
    var s := After(cfg, jobs, n);
    Loses(cfg.protocol, BlockView(cfg, s, t), EventOf(cfg, s, t), Behind(VersionsAfter(cfg, jobs, t, n)))
  }

  ghost predicate DropsAfter(cfg: Config, jobs: seq<Job>, t: nat, n: nat) {
    var s := After(cfg, jobs, n);
    Drops(cfg.protocol, BlockView(cfg, s, t), EventOf(cfg, s, t))
  }

  lemma {:induction false} RunsAreUnsaved(cfg: Config, jobs: seq<Job>, t: nat, n: nat)
    requires ValidConfig(cfg) && Fits(t)
    ensures |VersionsAfter(cfg, jobs, t, n).held| == cfg.numProcessors
    ensures Unsaved(BlockView(cfg, After(cfg, jobs, n), t), VersionsAfter(cfg, jobs, t, n))
  {
    hide Coherent, Step, Enabled, BlockNext, VersionsNext, EventOf, Orderly, ColumnOf, PendingFor;
    if n == 0 {
      InitialBlock(cfg, jobs, t);
    } else {
      var s := After(cfg, jobs, n - 1);
      RunsAreUnsaved(cfg, jobs, t, n - 1);
      RunsAreOrderly(cfg, jobs, n - 1);
      RunsAreCoherent(cfg, jobs, n - 1, t);
      StepRefines(cfg, s, t);
      hide Unsaved;
      UnsavedKept(cfg.protocol, BlockView(cfg, s, t), EventOf(cfg, s, t), VersionsAfter(cfg, jobs, t, n - 1));
    }
  }

  /** One iteration: as long as no write has been lost, it loses one exactly if its event does. */
  lemma IntactNext(cfg: Config, jobs: seq<Job>, t: nat, n: nat)
    requires ValidConfig(cfg) && Fits(t) && IntactAfter(cfg, jobs, t, n)
    ensures IntactAfter(cfg, jobs, t, n + 1) <==> !LosesAfter(cfg, jobs, t, n)
  {
    hide Coherent, Step, Enabled, BlockNext, VersionsNext, EventOf, Orderly, BlockView, Intact, Loses;
    var s := After(cfg, jobs, n);
    RunsAreOrderly(cfg, jobs, n);
    RunsAreCoherent(cfg, jobs, n, t);
    StepRefines(cfg, s, t);
    IntactKept(cfg.protocol, BlockView(cfg, s, t), EventOf(cfg, s, t), VersionsAfter(cfg, jobs, t, n));
  }

  lemma IntactFirst(cfg: Config, jobs: seq<Job>, t: nat)
    requires ValidConfig(cfg)
    ensures IntactAfter(cfg, jobs, t, 0)
  {
    InitialBlock(cfg, jobs, t);
    hide ColumnOf, PendingFor;
  }

  /** In all protocols, up to any moment of any run: every valid copy has always reflected the last write,
      and so would have what the next reader got, if and only if no iteration has lost a write. */
  lemma {:induction false} IntactExactly(cfg: Config, jobs: seq<Job>, t: nat, n: nat)
    requires ValidConfig(cfg) && Fits(t)
    ensures (forall i: nat | i <= n :: IntactAfter(cfg, jobs, t, i)) <==>
            (forall i: nat | i < n :: !LosesAfter(cfg, jobs, t, i))
  {
    hide IntactAfter, LosesAfter;
    if n == 0 {
      IntactFirst(cfg, jobs, t);
    } else {
      IntactExactly(cfg, jobs, t, n - 1);
      if forall i: nat | i <= n - 1 :: IntactAfter(cfg, jobs, t, i) {
        IntactNext(cfg, jobs, t, n - 1);
      }
    }
  }

  /** In MSI, MESI and MOESI the simulator's own states say whether that is so. */
  lemma {:induction false} IntactByStates(cfg: Config, jobs: seq<Job>, t: nat, n: nat)
    requires ValidConfig(cfg) && Fits(t) && cfg.protocol != DRAGON
    ensures (forall i: nat | i <= n :: IntactAfter(cfg, jobs, t, i)) <==>
            (forall i: nat | i < n :: !DropsAfter(cfg, jobs, t, i))
  {
    IntactExactly(cfg, jobs, t, n);
    hide IntactAfter, LosesAfter, DropsAfter;
    forall i: nat
      ensures LosesAfter(cfg, jobs, t, i) <==> DropsAfter(cfg, jobs, t, i)
    {
      LosesIsDrops(cfg, jobs, t, i);
    }
  }

  /** Whether main memory is behind after n iterations, told from the writes and flushes of the run. */
  ghost predicate BehindAfter(cfg: Config, jobs: seq<Job>, t: nat, n: nat) {
    n > 0
    && var s := After(cfg, jobs, n - 1);
       BehindNext(cfg.protocol, BlockView(cfg, s, t), EventOf(cfg, s, t), BehindAfter(cfg, jobs, t, n - 1))
  }

  ghost predicate LosesByHistory(cfg: Config, jobs: seq<Job>, t: nat, n: nat) {
    var s := After(cfg, jobs, n);
    Loses(cfg.protocol, BlockView(cfg, s, t), EventOf(cfg, s, t), BehindAfter(cfg, jobs, t, n))
  }

  lemma {:induction false} BehindIsTold(cfg: Config, jobs: seq<Job>, t: nat, n: nat)
    requires ValidConfig(cfg) && Fits(t) && forall i: nat | i <= n :: IntactAfter(cfg, jobs, t, i)
    ensures Behind(VersionsAfter(cfg, jobs, t, n)) == BehindAfter(cfg, jobs, t, n)
  {
    hide Step, VersionsNext, EventOf, Orderly, BlockView, Intact, BehindNext, Enabled, BlockNext;
    if n > 0 {
      var s := After(cfg, jobs, n - 1);
      assert IntactAfter(cfg, jobs, t, n - 1);
      BehindIsTold(cfg, jobs, t, n - 1);
      RunsAreOrderly(cfg, jobs, n - 1);
      StepRefines(cfg, s, t);
      HistoryIsRight(cfg.protocol, BlockView(cfg, s, t), EventOf(cfg, s, t), VersionsAfter(cfg, jobs, t, n - 1));
    }
  }

  /** In all protocols the states of the simulator and the history of writes and flushes say whether that
      is so. */
  lemma {:induction false} IntactByHistory(cfg: Config, jobs: seq<Job>, t: nat, n: nat)
    requires ValidConfig(cfg) && Fits(t)
    ensures (forall i: nat | i <= n :: IntactAfter(cfg, jobs, t, i)) <==>
              (forall i: nat | i < n :: !LosesByHistory(cfg, jobs, t, i))
  {
    hide IntactAfter, LosesByHistory;
    if n == 0 {
      IntactFirst(cfg, jobs, t);
    } else {
      IntactByHistory(cfg, jobs, t, n - 1);
      if forall i: nat | i <= n - 1 :: IntactAfter(cfg, jobs, t, i) {
        IntactNextByHistory(cfg, jobs, t, n - 1);
      }
    }
  }

  lemma IntactNextByHistory(cfg: Config, jobs: seq<Job>, t: nat, n: nat)
    requires ValidConfig(cfg) && Fits(t) && forall i: nat | i <= n :: IntactAfter(cfg, jobs, t, i)
    ensures IntactAfter(cfg, jobs, t, n + 1) <==> !LosesByHistory(cfg, jobs, t, n)
  {
    hide IntactAfter, Loses, After, VersionsAfter, BehindAfter, Behind, EventOf, BlockView;
    BehindIsTold(cfg, jobs, t, n);
    IntactNext(cfg, jobs, t, n);
  }

  lemma LosesIsDrops(cfg: Config, jobs: seq<Job>, t: nat, n: nat)
    requires ValidConfig(cfg) && Fits(t) && cfg.protocol != DRAGON
    ensures LosesAfter(cfg, jobs, t, n) <==> DropsAfter(cfg, jobs, t, n)
  {
    hide Coherent, Run, Enabled, BlockNext, EventOf, Orderly, BlockView, Loses, Drops, VersionsRun, Unsaved;
    var s := After(cfg, jobs, n);
    RunsAreOrderly(cfg, jobs, n);
    RunsAreCoherent(cfg, jobs, n, t);
    RunsAreUnsaved(cfg, jobs, t, n);
    StepRefines(cfg, s, t);
    LossIsDrop(cfg.protocol, BlockView(cfg, s, t), EventOf(cfg, s, t), VersionsAfter(cfg, jobs, t, n));
  }

  /** No copy is stale as long as no write has been lost. */
  lemma RunsAreFresh(cfg: Config, jobs: seq<Job>, t: nat, n: nat)
    requires ValidConfig(cfg) && Fits(t) && forall i: nat | i < n :: !LosesAfter(cfg, jobs, t, i)
    ensures Fresh(ColumnOf(cfg, After(cfg, jobs, n).caches, t), VersionsAfter(cfg, jobs, t, n))
  {
    IntactExactly(cfg, jobs, t, n);
    assert IntactAfter(cfg, jobs, t, n);
    hide LosesAfter, Fresh, After, ColumnOf, VersionsAfter;
  }
}
