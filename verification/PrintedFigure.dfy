/** The number of memory transactions that is printed in MESI, told from the jobs. */
module PrintedFigure {
  import opened Constants
  import opened Requests
  import opened Sets
  import opened CacheModel
  import opened Coherence
  import opened SystemModel
  import opened BusLemmas
  import opened Refinement
  import opened Runs
  import opened Serving
  import opened JobResults
  import opened Accounting
  import opened Transactions
  import opened Counts

  /** What is printed for a cache; the program keeps it in an unsigned variable. */
  function MesiTransactions(x: Stats): int {
    x.numWriteMisses + x.numReadMisses + x.numWriteBacks - x.numCacheShare
  }

  // ---------------------------------------------------------------------------------------------
  // What a job means for the figure of cache i, from the states before it.

  /** Another cache answers the job's request: it holds the block, as the bus names it. */
  ghost predicate IsAnswered(cfg: Config, caches: seq<CacheState>, job: Job) {
    Helped(MESI, ColumnOf(cfg, caches, SnoopedTag(BlockOf(cfg, job.address))), job.threadId)
  }

  /** A miss of cache i that no cache answers. */
  ghost predicate LoneMissBy(cfg: Config, caches: seq<CacheState>, job: Job, i: nat) {
    && job.threadId == i < |caches| && (IsRead(job) || IsWrite(job))
    && StateIn(cfg, caches[i], BlockOf(cfg, job.address)) == Invalid && !IsAnswered(cfg, caches, job)
  }

  /** A write by cache i to a line it shares, answered by another cache. */
  ghost predicate AnsweredUpgradeBy(cfg: Config, caches: seq<CacheState>, job: Job, i: nat) {
    && job.threadId == i < |caches| && IsWrite(job)
    && StateIn(cfg, caches[i], BlockOf(cfg, job.address)) == Shared && IsAnswered(cfg, caches, job)
  }

  /** A write by another cache whose request finds the block, as heard, modified in cache i. */
  ghost predicate WriteBackBy(cfg: Config, caches: seq<CacheState>, job: Job, i: nat) {
    && job.threadId < |caches| && job.threadId != i < |caches| && IsWrite(job)
    && !WritesSilently(StateIn(cfg, caches[job.threadId], BlockOf(cfg, job.address)))
    && StateIn(cfg, caches[i], SnoopedTag(BlockOf(cfg, job.address))) == Modified
  }

  ghost function Contribution(cfg: Config, caches: seq<CacheState>, job: Job, i: nat): int {
    One(LoneMissBy(cfg, caches, job, i))
        + One(WriteBackBy(cfg, caches, job, i)) - One(AnsweredUpgradeBy(cfg, caches, job, i))
  }

  function Figure(c: CacheState): int {
    MesiTransactions(c.stats)
  }

  /** The figure of what a job counts. */
  lemma ContributionIs(cfg: Config, caches: seq<CacheState>, job: Job, i: nat)
    requires cfg.protocol == MESI && job.threadId < |caches| && i < |caches|
    requires InProtocol(MESI, StateIn(cfg, caches[job.threadId], BlockOf(cfg, job.address)))
    ensures MesiTransactions(JobCounts(cfg, caches, job, i)) == Contribution(cfg, caches, job, i)
  {
    hide StateIn, BlockOf, SnoopedTag, Helped, DirtyElsewhere, ColumnOf;
  }

  lemma FiguresAdd(a: Stats, b: Stats)
    ensures MesiTransactions(Plus(a, b)) == MesiTransactions(a) + MesiTransactions(b)
  {
  }

  // ---------------------------------------------------------------------------------------------
  // The figure at the end of a trace.

  lemma FigureOverJob(cfg: Config, jobs: seq<Job>, j: nat, n: nat, n': nat)
    requires ValidConfig(cfg) && cfg.protocol == MESI && j < |jobs| && ServedBetween(cfg, jobs, j, n, n')
    ensures |After(cfg, jobs, n).caches| == |After(cfg, jobs, n').caches| == cfg.numProcessors
    ensures forall i | 0 <= i < cfg.numProcessors ::
              Figure(After(cfg, jobs, n').caches[i])
              == Figure(After(cfg, jobs, n).caches[i]) + Contribution(cfg, After(cfg, jobs, n).caches, jobs[j], i)
  {
    hide After, ServedBetween, JobCounts, Plus, MesiTransactions, Contribution, StateIn, BlockOf, InProtocol;
    var caches := After(cfg, jobs, n).caches;
    BetweenWidths(cfg, jobs, j, n, n');
    HeldInProtocol(cfg, jobs, n, jobs[j].threadId, BlockOf(cfg, jobs[j].address));
    forall i: nat | i < cfg.numProcessors
      ensures Figure(After(cfg, jobs, n').caches[i]) == Figure(caches[i]) + Contribution(cfg, caches, jobs[j], i)
    {
      CountsOverJob(cfg, jobs, j, n, n', i);
      FiguresAdd(caches[i].stats, JobCounts(cfg, caches, jobs[j], i));
      ContributionIs(cfg, caches, jobs[j], i);
    }
  }

  datatype Kind = LoneMissKind | WriteBackKind | AnsweredUpgradeKind

  ghost predicate IsKind(cfg: Config, kind: Kind, caches: seq<CacheState>, job: Job, i: nat) {
    match kind
    case LoneMissKind => LoneMissBy(cfg, caches, job, i)
    case WriteBackKind => WriteBackBy(cfg, caches, job, i)
    case AnsweredUpgradeKind => AnsweredUpgradeBy(cfg, caches, job, i)
  }

  /** How many of the first `count` jobs are of that kind for cache i, in the states in which they are handed out. */
  ghost function HowMany(cfg: Config, jobs: seq<Job>, times: seq<nat>, kind: Kind, i: nat, count: nat): nat
    requires count <= |jobs| && count < |times|
  {
    if count == 0 then 0
    else HowMany(cfg, jobs, times, kind, i, count - 1)
         + One(IsKind(cfg, kind, After(cfg, jobs, times[count - 1]).caches, jobs[count - 1], i))
  }

  lemma {:induction false} FigureIsCounted(cfg: Config, jobs: seq<Job>, times: seq<nat>, i: nat, count: nat)
    requires ValidConfig(cfg) && cfg.protocol == MESI && count <= |jobs| && |times| == |jobs| + 1 && times[0] == 0
    requires forall j | 0 <= j < |jobs| :: ServedBetween(cfg, jobs, j, times[j], times[j + 1])
    requires i < cfg.numProcessors
    ensures |After(cfg, jobs, times[count]).caches| == cfg.numProcessors
    ensures Figure(After(cfg, jobs, times[count]).caches[i])
            == HowMany(cfg, jobs, times, LoneMissKind, i, count) + HowMany(cfg, jobs, times, WriteBackKind, i, count)
               - HowMany(cfg, jobs, times, AnsweredUpgradeKind, i, count)
  {
    hide After, ServedBetween, LoneMissBy, WriteBackBy, AnsweredUpgradeBy, Figure;
    if count == 0 {
      StartsAtZero(cfg, jobs, i);
    } else {
      FigureIsCounted(cfg, jobs, times, i, count - 1);
      FigureOverJob(cfg, jobs, count - 1, times[count - 1], times[count]);
    }
  }

  lemma StartsAtZero(cfg: Config, jobs: seq<Job>, i: nat)
    requires i < cfg.numProcessors
    ensures |After(cfg, jobs, 0).caches| == cfg.numProcessors && Figure(After(cfg, jobs, 0).caches[i]) == 0
  {
  }

  /** The printed figure of a cache is the number of its misses that no cache answered and of its copies
      that others' writes had written back, less the number of its own writes to shared lines that another
      cache answered, which are subtracted without ever having been added. It is below zero, in a variable
      that is unsigned, exactly when those outnumber the others. */
  lemma MesiFigure(cfg: Config, jobs: seq<Job>) returns (times: seq<nat>)
    requires ValidConfig(cfg) && cfg.protocol == MESI
    requires forall j | 0 <= j < |jobs| :: jobs[j].threadId < cfg.numProcessors
    ensures |times| == |jobs| + 1 && times[0] == 0 && Done(After(cfg, jobs, times[|jobs|]))
    ensures forall j | 0 <= j < |jobs| :: ServedBetween(cfg, jobs, j, times[j], times[j + 1])
    ensures |After(cfg, jobs, times[|jobs|]).caches| == cfg.numProcessors
    ensures forall i: nat | i < cfg.numProcessors ::
              var printed := MesiTransactions(After(cfg, jobs, times[|jobs|]).caches[i].stats);
              var added := HowMany(cfg, jobs, times, LoneMissKind, i, |jobs|)
                  + HowMany(cfg, jobs, times, WriteBackKind, i, |jobs|);
              var subtracted := HowMany(cfg, jobs, times, AnsweredUpgradeKind, i, |jobs|);
              printed == added - subtracted && (printed < 0 <==> added < subtracted)
  {
    hide After, ServedBetween, HowMany;
    times := TraceIsServed(cfg, jobs, |jobs|);
    RunsAreSound(cfg, jobs, times[|jobs|]);
    SoundWidth(cfg, After(cfg, jobs, times[|jobs|]), 0);
    forall i: nat | i < cfg.numProcessors
      ensures Figure(After(cfg, jobs, times[|jobs|]).caches[i])
              == HowMany(cfg, jobs, times, LoneMissKind, i, |jobs|)
                  + HowMany(cfg, jobs, times, WriteBackKind, i, |jobs|)
                 - HowMany(cfg, jobs, times, AnsweredUpgradeKind, i, |jobs|)
    {
      FigureIsCounted(cfg, jobs, times, i, |jobs|);
    }
  }

  /** The bus tells the requester so exactly if some other cache holds the block (whose number the request
      can carry). */
  lemma AnsweredIfHeld(cfg: Config, s: SystemState)
    requires Ready(cfg, s) && BusJob(cfg, s) && cfg.protocol == MESI && Fits(BlockOf(cfg, s.outstanding[0].address))
    ensures var job := s.outstanding[0];
            && (Step(cfg, s).bus.isShared <==>
                !Alone(ColumnOf(cfg, s.caches, BlockOf(cfg, job.address)), job.threadId))
            && (Step(cfg, s).bus.isShared <==> IsAnswered(cfg, s.caches, job))
  {
    hide Sound, StateIn, BlockOf, ColumnOf, SnoopedTag, Step, BusJob, AnyShares, FirstRequestOf, FoundUpTo, Grantee,
         Taker, Answered, Idle, Coherent, ToldShared;
    var job := s.outstanding[0];
    assert SnoopedTag(BlockOf(cfg, job.address)) == BlockOf(cfg, job.address) by { FitsIs(BlockOf(cfg, job.address)); }
    AskedIs(cfg, s);
    ToldIs(cfg, s);
    HeardIsCoherent(cfg, s);
    HeardFacts(MESI, FirstRequestOf(cfg, s).command, job.threadId, HeardColumn(cfg, s));
  }

  lemma FitsIs(block: nat)
    requires Fits(block)
    ensures SnoopedTag(block) == block
  {
  }

  // ---------------------------------------------------------------------------------------------
  // A trace on which it is below zero.

  lemma TwoReadsOneWrite(column: Column, one: Column, two: Column)
    requires 2 <= |column| && NoCopies(column) && WasRead(MESI, column, 0, one) && WasRead(MESI, one, 1, two)
    ensures |one| == |two| == |column| && one[0] == Exclusive && one[1] == Invalid && two[1] == Shared
    ensures Helped(MESI, one, 1) && Helped(MESI, two, 1)
  {
    assert Alone(column, 0) && one[0] == Exclusive && one[1] == Invalid;
    assert Helps(MESI, one[0]) && Helps(MESI, two[0]);
  }

  lemma SumIsMinusOne(cfg: Config, jobs: seq<Job>, times: seq<nat>, address: nat)
    requires cfg.protocol == MESI && |times| == 4 && SnoopedTag(BlockOf(cfg, address)) == BlockOf(cfg, address)
    requires jobs == [Job('R', address, 0), Job('R', address, 1), Job('W', address, 1)]
    requires forall j | 0 <= j < 4 :: 2 <= |After(cfg, jobs, times[j]).caches|
    requires var t := BlockOf(cfg, address);
             var one, two := ColumnOf(cfg, After(cfg, jobs, times[1]).caches, t),
                 ColumnOf(cfg, After(cfg, jobs, times[2]).caches, t);
             && 1 < |one| == |two| && one[1] == Invalid && two[1] == Shared
             && Helped(MESI, one, 1) && Helped(MESI, two, 1)
    ensures HowMany(cfg, jobs, times, LoneMissKind, 1, 3) + HowMany(cfg, jobs, times, WriteBackKind, 1, 3)
            - HowMany(cfg, jobs, times, AnsweredUpgradeKind, 1, 3) == -1
  {
    hide After, BlockOf, SnoopedTag, StateIn, Helped, ColumnOf;
    var t := BlockOf(cfg, address);
    ColumnHolds(cfg, After(cfg, jobs, times[1]).caches, t);
    ColumnHolds(cfg, After(cfg, jobs, times[2]).caches, t);
    forall kind
      ensures HowMany(cfg, jobs, times, kind, 1, 3)
              == One(IsKind(cfg, kind, After(cfg, jobs, times[0]).caches, jobs[0], 1))
                 + One(IsKind(cfg, kind, After(cfg, jobs, times[1]).caches, jobs[1], 1))
                 + One(IsKind(cfg, kind, After(cfg, jobs, times[2]).caches, jobs[2], 1))
    {
      ThreeJobs(cfg, jobs, times, kind, 1);
    }
  }

  lemma ThreeJobs(cfg: Config, jobs: seq<Job>, times: seq<nat>, kind: Kind, i: nat)
    requires |jobs| == 3 && |times| == 4
    ensures HowMany(cfg, jobs, times, kind, i, 3)
            == One(IsKind(cfg, kind, After(cfg, jobs, times[0]).caches, jobs[0], i))
               + One(IsKind(cfg, kind, After(cfg, jobs, times[1]).caches, jobs[1], i))
               + One(IsKind(cfg, kind, After(cfg, jobs, times[2]).caches, jobs[2], i))
  {
    hide After, IsKind;
    assert HowMany(cfg, jobs, times, kind, i, 0) == 0;
    assert HowMany(cfg, jobs, times, kind, i, 1)
           == One(IsKind(cfg, kind, After(cfg, jobs, times[0]).caches, jobs[0], i));
  }

  lemma BetweenIsServed(cfg: Config, jobs: seq<Job>, j: nat, n: nat, n': nat, t: nat)
    requires ValidConfig(cfg) && j < |jobs| && ServedBetween(cfg, jobs, j, n, n') && BlockOf(cfg, jobs[j].address) == t
    requires Fits(t)
    requires IsRead(jobs[j])
    ensures WasRead(cfg.protocol, ColumnOf(cfg, After(cfg, jobs, n).caches, t), jobs[j].threadId,
                    ColumnOf(cfg, After(cfg, jobs, n').caches, t))
  {
    hide Run, JobCycles, BlockOf, ColumnOf, Fits, WasRead, Written, InitialSystem;
    assert jobs[j..][0] == jobs[j];
  }

  /** Two caches read a block and the second writes it: the figure of the second cache is -1, in a variable
      that is unsigned. */
  lemma FigureBelowZero(cfg: Config, address: nat) returns (n: nat)
    requires ValidConfig(cfg) && cfg.protocol == MESI && 2 <= cfg.numProcessors && Fits(BlockOf(cfg, address))
    ensures var s := After(cfg, [Job('R', address, 0), Job('R', address, 1), Job('W', address, 1)], n);
            Done(s) && 1 < |s.caches| && MesiTransactions(s.caches[1].stats) == -1
  {
    hide After, ServedBetween, HowMany, BlockOf, SnoopedTag, ColumnOf, WasRead, Helped, NoCopies, Done;
    var jobs := [Job('R', address, 0), Job('R', address, 1), Job('W', address, 1)];
    var t := BlockOf(cfg, address);
    var times := MesiFigure(cfg, jobs);
    n := times[3];
    forall j | 0 <= j < 4
      ensures |After(cfg, jobs, times[j]).caches| == cfg.numProcessors
    {
      RunsAreSound(cfg, jobs, times[j]);
      SoundWidth(cfg, After(cfg, jobs, times[j]), t);
    }
    StartIsReady(cfg, jobs, t);
    BetweenIsServed(cfg, jobs, 0, times[0], times[1], t);
    BetweenIsServed(cfg, jobs, 1, times[1], times[2], t);
    TwoReadsOneWrite(ColumnOf(cfg, After(cfg, jobs, 0).caches, t), ColumnOf(cfg, After(cfg, jobs, times[1]).caches, t),
                     ColumnOf(cfg, After(cfg, jobs, times[2]).caches, t));
    SumIsMinusOne(cfg, jobs, times, address);
  }
}
