/** A job as one step: from the iteration that hands it out to the one after which the system rests
    again. What the job has done to its block is a function of the states before it, and so is the time
    it has taken. */
module Serving {
  import opened Wrappers
  import opened Constants
  import opened Requests
  import opened Sets
  import opened CacheModel
  import opened Coherence
  import opened CacheLemmas
  import opened SystemModel
  import opened BusLemmas
  import opened Refinement
  import opened Runs
  import opened Timing

  /** The invariants of the main loop together. */
  ghost predicate Sound(cfg: Config, s: SystemState) {
    ValidConfig(cfg) && Orderly(cfg, s) && AllCoherent(cfg, s) && Timely(cfg, s)
  }

  lemma StepKeepsSound(cfg: Config, s: SystemState)
    requires Sound(cfg, s)
    ensures Sound(cfg, Step(cfg, s))
  {
    hide Orderly, Timely, Step, Enabled, BlockNext, BlockView, EventOf, Coherent;
    StepKeepsOrder(cfg, s);
    forall t | Fits(t)
      ensures Coherent(cfg.protocol, BlockView(cfg, Step(cfg, s), t))
    {
      StepRefines(cfg, s, t);
      CoherenceKept(cfg.protocol, BlockView(cfg, s, t), EventOf(cfg, s, t));
    }
    if Done(s) {
      DoneStays(cfg, s);
    } else {
      StepSpends(cfg, s);
    }
  }

  lemma RunsAreSound(cfg: Config, jobs: seq<Job>, n: nat)
    requires ValidConfig(cfg)
    ensures Sound(cfg, After(cfg, jobs, n))
  {
    RunsAreOrderly(cfg, jobs, n);
    RunsAreTimely(cfg, jobs, n);
    hide After, Orderly, AllCoherent, Timely;
  }

  lemma RunOne(cfg: Config, s: SystemState)
    ensures Run(cfg, s, 1) == Step(cfg, s)
  {
    hide Step;
    assert Run(cfg, s, 0) == s;
  }

  lemma RunThen(cfg: Config, s: SystemState, n: nat)
    ensures Run(cfg, s, n + 1) == Step(cfg, Run(cfg, s, n))
  {
    hide Step;
  }

  lemma RunFirst(cfg: Config, s: SystemState, n: nat)
    ensures Run(cfg, s, n + 1) == Run(cfg, Step(cfg, s), n)
  {
    RunOne(cfg, s);
    RunAdds(cfg, s, 1, n);
    hide Step, Run;
  }

  lemma RunParts(cfg: Config, s: SystemState, m: nat, n: nat, all: nat)
    requires all == 1 + m + n
    ensures Run(cfg, s, all) == Run(cfg, Run(cfg, Step(cfg, s), m), n)
  {
    hide Step, Run;
    RunFirst(cfg, s, m);
    RunAdds(cfg, s, m + 1, n);
  }

  // ---------------------------------------------------------------------------------------------
  // Jobs on the bus.

  /** The next iteration only lets time pass on the bus. */
  ghost predicate Waiting(s: SystemState) {
    s.bus.inUse && s.cycle + 1 < s.bus.endCycle
  }

  /** s' differs from s only in that time has passed on the bus. */
  ghost predicate Waited(cfg: Config, s: SystemState, s': SystemState, t: nat, u: nat) {
    && s'.bus == s.bus && s'.outstanding == s.outstanding && |s'.caches| == |s.caches|
    && BlockView(cfg, s', t) == BlockView(cfg, s, t) && BlockView(cfg, s', u) == BlockView(cfg, s, u)
    && (0 <= s.bus.currentCache < |s.caches| ==> s'.caches[s.bus.currentCache] == s.caches[s.bus.currentCache])
    && (forall i | 0 <= i < |s.caches| :: s'.caches[i].stats == s.caches[i].stats)
  }

  lemma WaitOne(cfg: Config, s: SystemState, t: nat, u: nat)
    requires Sound(cfg, s) && s.bus.inUse && s.cycle + 1 < s.bus.endCycle
    ensures Waited(cfg, s, Step(cfg, s), t, u) && Step(cfg, s).cycle == s.cycle + 1
  {
    CurrentHasJob(cfg, s);
    ServingStep(cfg, s);
    var s' := Step(cfg, s);
    var k := s.bus.currentCache;
    assert forall i | 0 <= i < |s.caches| :: ServedCache(cfg, s'.cycle, s.caches[i], s'.caches[i]);
    assert s.caches[k].busRequestBeingServiced by { hide AllGood; }
    ServedColumn(cfg, s, s', t);
    ServedColumn(cfg, s, s', u);
    hide Step, Orderly, AllCoherent, Timely, GoodSets, HoldsSame, ColumnOf, BlockOf;
  }

  /** Wait until the next iteration completes the transaction. */
  lemma {:induction false} WaitForBus(cfg: Config, s: SystemState, t: nat, u: nat) returns (m: nat)
    requires Sound(cfg, s) && s.bus.inUse
    ensures Sound(cfg, Run(cfg, s, m)) && Waited(cfg, s, Run(cfg, s, m), t, u)
    ensures Run(cfg, s, m).bus.endCycle <= Run(cfg, s, m).cycle + 1 && Run(cfg, s, m).cycle == s.cycle + m
    ensures m + 1 == BusCycles(s.cycle, s.bus.endCycle)
    ensures forall i | 0 <= i < m :: Sound(cfg, Run(cfg, s, i)) && Waiting(Run(cfg, s, i))
    decreases s.bus.endCycle - s.cycle
  {
    hide Step, Run, Sound, BlockView;
    NoRun(cfg, s);
    if s.cycle + 1 < s.bus.endCycle {
      StepKeepsSound(cfg, s);
      WaitOne(cfg, s, t, u);
      var m' := WaitForBus(cfg, Step(cfg, s), t, u);
      m := m' + 1;
      RunFirst(cfg, s, m');
      forall i | 0 <= i < m
        ensures Sound(cfg, Run(cfg, s, i)) && Waiting(Run(cfg, s, i))
      {
        if i > 0 {
          RunFirst(cfg, s, i - 1);
        }
      }
    } else {
      m := 0;
    }
  }

  /** The iterations a transaction takes from a cycle to its end: one even if the end is past. */
  function BusCycles(cycle: nat, end: nat): nat {
    if end <= cycle + 1 then 1 else end - cycle
  }

  lemma NoRun(cfg: Config, s: SystemState)
    ensures Run(cfg, s, 0) == s
  {
  }

  /** A column without copies. */
  ghost predicate NoCopies(column: Column) {
    forall i | 0 <= i < |column| :: column[i] == Invalid
  }

  lemma NoCopiesStay(protocol: Protocol, heard: bool, b: BlockState, event: Event)
    requires event.Foreign? && NoCopies(b.column)
    ensures NoCopies(BlockNext(protocol, heard, b, event).column)
  {
  }

  /** The completing iteration of a transaction about block t: block t takes its Complete event, block u
      at most a foreign one. */
  lemma CompleteOne(cfg: Config, s: SystemState, t: nat, u: nat)
    requires Sound(cfg, s) && s.bus.inUse && s.bus.endCycle <= s.cycle + 1 && u != t
    requires PendingFor(cfg, s, t).Some?
    ensures Sound(cfg, Step(cfg, s))
    ensures BlockView(cfg, Step(cfg, s), t) == BlockNext(cfg.protocol, Fits(t), BlockView(cfg, s, t), Event.Complete)
    ensures NoCopies(ColumnOf(cfg, s.caches, u)) ==> NoCopies(ColumnOf(cfg, Step(cfg, s).caches, u))
    ensures Step(cfg, s).outstanding == s.outstanding && Step(cfg, s).cycle == s.cycle + 1
    ensures Step(cfg, s).bus.inUse <==> PendingFor(cfg, Step(cfg, s), t).Some?
    ensures !Step(cfg, s).bus.inUse ==> NoJobs(Step(cfg, s).caches)
    ensures Step(cfg, s).bus.inUse ==> Step(cfg, s).bus.endCycle == Step(cfg, s).cycle + PEER_COST
  {
    StepKeepsSound(cfg, s);
    StepRefines(cfg, s, t);
    StepRefines(cfg, s, u);
    CompletionEventIs(cfg, s, t);
    CompletionEventIs(cfg, s, u);
    assert BlockOf(cfg, s.caches[s.bus.currentCache].currentJob.value.address) == t;
    if NoCopies(ColumnOf(cfg, s.caches, u)) {
      NoCopiesStay(cfg.protocol, Fits(u), BlockView(cfg, s, u), EventOf(cfg, s, u));
    }
    AfterCompletion(cfg, s, t);
    hide Sound, Step, ColumnOf, PendingFor, BlockNext, Enabled, BlockOf, PushesOut, NoCopies;
  }

  lemma AfterCompletion(cfg: Config, s: SystemState, t: nat)
    requires Sound(cfg, s) && s.bus.inUse && s.bus.endCycle <= s.cycle + 1 && PendingFor(cfg, s, t).Some?
    ensures Step(cfg, s).outstanding == s.outstanding && Step(cfg, s).cycle == s.cycle + 1
    ensures Step(cfg, s).bus.inUse <==> PendingFor(cfg, Step(cfg, s), t).Some?
    ensures !Step(cfg, s).bus.inUse ==> NoJobs(Step(cfg, s).caches)
    ensures Step(cfg, s).bus.inUse ==> Step(cfg, s).bus.endCycle == Step(cfg, s).cycle + PEER_COST
  {
    var s2 := FinishTransaction(cfg, BeforeBus(cfg, s));
    var k := s.bus.currentCache;
    hide Orderly, AllCoherent, Timely, BeforeBus, FinishTransaction, Grant, Step, BlockOf, Over, Grantable, RequestFor;
    CurrentHasJob(cfg, s);
    CompletionStep(cfg, s);
    OverLeaves(cfg, s, s2);
    if AsksAgain(cfg, s.caches[k].currentJob.value, s.bus.isShared) {
      OverAsksAgain(cfg, s, s2);
      UpdateGranted(cfg, s2, k, s.caches[k].currentJob.value);
    } else {
      OverRests(cfg, s, s2);
    }
  }

  lemma OverLeaves(cfg: Config, s: SystemState, s2: SystemState)
    requires 0 <= s.bus.currentCache < |s.caches| && s.caches[s.bus.currentCache].currentJob.Some? && Over(cfg, s, s2)
    ensures s2.outstanding == s.outstanding && s2.cycle == s.cycle + 1 && |s2.caches| == |s.caches| && !s2.bus.inUse
    ensures s2.caches[s.bus.currentCache].currentJob == s.caches[s.bus.currentCache].currentJob
    ensures var job := s.caches[s.bus.currentCache].currentJob.value;
            AsksAgain(cfg, job, s.bus.isShared) ==>
              s2.caches[s.bus.currentCache].busRequest == Some(RequestFor(cfg, BusRdX, job.address, PEER_COST))
  {
    hide CompletedAs, StateIn, GoodSets, ServedCache, RequestFor;
  }

  /** A Dragon update is granted. */
  lemma UpdateGranted(cfg: Config, s: SystemState, k: nat, job: Job)
    requires ValidConfig(cfg) && cfg.protocol == DRAGON && Grantable(cfg, s, k)
    requires k < |s.caches| && s.caches[k].currentJob == Some(job)
    requires s.caches[k].busRequest == Some(RequestFor(cfg, BusRdX, job.address, PEER_COST))
    ensures var s' := Grant(cfg, s);
            && s'.outstanding == s.outstanding && s'.cycle == s.cycle && s'.bus.inUse
            && s'.bus.endCycle == s'.cycle + PEER_COST && PendingFor(cfg, s', BlockOf(cfg, job.address)).Some?
  {
    hide Grantable, Grant, BlockOf, SetOf, ToInt, ColumnOf, SnoopedTag, SnoopedAs, EndAfter, AnyShares;
    GrantPending(cfg, s, k, BlockOf(cfg, job.address));
    GrantEffect(cfg, s, k);
    var column := ColumnOf(cfg, s.caches, SnoopedTag(JobBlock(cfg, s.caches[k])));
    DragonAddsNothing(BusRdX, PEER_COST, k, column, |column|, s.cycle + PEER_COST);
  }

  // ---------------------------------------------------------------------------------------------
  // Jobs as a whole.

  /** What a job that needs the bus makes of its block. */
  function Transacted(protocol: Protocol, heard: bool, column: Column, k: nat, write: bool, shared: bool): Column {
    var once := BlockNext(protocol, heard,
                          BlockNext(protocol, heard, BlockState(column, None), Issue(k, write, shared)), Complete);
    if once.pending.None? then once.column else BlockNext(protocol, heard, once, Complete).column
  }

  /** What a read or write by cache k makes of its block. */
  function AfterJob(protocol: Protocol, heard: bool, column: Column, k: nat, write: bool, shared: bool): Column {
    var own := StateAt(column, k);
    if write && WritesSilently(own) then SetAt(column, k, Modified)
    else if !write && own != Invalid then column
    else Transacted(protocol, heard, column, k, write, shared)
  }

  /** The flag the job's first transaction is told: what its request, as heard, meets. */
  function ToldShared(cfg: Config, caches: seq<CacheState>, job: Job): bool
    requires job.threadId < |caches|
  {
    var about := BlockOf(cfg, job.address);
    var command := CommandFor(cfg.protocol, IsWrite(job), StateIn(cfg, caches[job.threadId], about));
    AnyShares(cfg.protocol, command, job.threadId, ColumnOf(cfg, caches, SnoopedTag(about)))
  }

  /** How many cycles the next job takes: three for a hit; one more than its transactions for the others. */
  ghost function JobCycles(cfg: Config, s: SystemState): nat
    requires 0 < |s.outstanding| && s.outstanding[0].threadId < |s.caches|
  {
    var job := s.outstanding[0];
    var k, about := job.threadId, BlockOf(cfg, job.address);
    var own := StateIn(cfg, s.caches[k], about);
    if !NeedsBus(job, own) then CACHE_HIT_COST + 1
    else
      1 + BusCycles(s.cycle + 1, UnsignedSum(s.cycle + 1, FirstLength(cfg, s)))
      + if AsksAgain(cfg, job, ToldShared(cfg, s.caches, job)) then PEER_COST else 0
  }

  /** The next job of a resting system is a read or a write for an existing processor. */
  ghost predicate Ready(cfg: Config, s: SystemState) {
    && Sound(cfg, s) && NoJobs(s.caches) && 0 < |s.outstanding|
    && s.outstanding[0].threadId < |s.caches| && (IsRead(s.outstanding[0]) || IsWrite(s.outstanding[0]))
  }

  /** s' is the resting system once the job at the head of s is served. */
  ghost predicate ServedJob(cfg: Config, s: SystemState, s': SystemState, u: nat)
    requires 0 < |s.outstanding| && s.outstanding[0].threadId < |s.caches|
  {
    var job := s.outstanding[0];
    var about := BlockOf(cfg, job.address);
    && Sound(cfg, s') && NoJobs(s'.caches) && s'.outstanding == s.outstanding[1..]
    && ColumnOf(cfg, s'.caches, about)
       == AfterJob(cfg.protocol, Fits(about), ColumnOf(cfg, s.caches, about), job.threadId, IsWrite(job),
                   ToldShared(cfg, s.caches, job))
    && (u != about && NoCopies(ColumnOf(cfg, s.caches, u)) ==> NoCopies(ColumnOf(cfg, s'.caches, u)))
  }

  lemma ViewColumn(cfg: Config, s: SystemState, t: nat)
    ensures BlockView(cfg, s, t).column == ColumnOf(cfg, s.caches, t)
  {
  }

  lemma BusJobEvents(cfg: Config, s: SystemState, t: nat)
    requires Ready(cfg, s) && BusJob(cfg, s)
    ensures var job := s.outstanding[0];
            && BlockView(cfg, Step(cfg, s), t)
               == BlockNext(cfg.protocol, Fits(t), BlockState(ColumnOf(cfg, s.caches, t), None), EventOf(cfg, s, t))
            && (if t == BlockOf(cfg, job.address)
                then EventOf(cfg, s, t) == Issue(job.threadId, IsWrite(job), ToldShared(cfg, s.caches, job))
                else EventOf(cfg, s, t).Foreign?)
  {
    RestingIsQuiet(cfg, s);
    StepRefines(cfg, s, t);
    hide Sound, Orderly, AllCoherent, Timely, Step, BlockNext, Enabled, ColumnOf, StateIn, BlockOf, SnoopedTag,
         AnyShares, CommandFor, BusJob;
    assert PendingFor(cfg, s, t) == None;
    assert !Done(s) && EventOf(cfg, s, t) == DispatchEvent(cfg, s.caches, s.outstanding[0], t);
    assert NeedsBus(s.outstanding[0],
                    StateIn(cfg, s.caches[s.outstanding[0].threadId],
                            BlockOf(cfg, s.outstanding[0].address))) by { BusJobNeeds(cfg, s); }
  }

  lemma BusJobNeeds(cfg: Config, s: SystemState)
    requires 0 < |s.outstanding| && s.outstanding[0].threadId < |s.caches| && BusJob(cfg, s)
    ensures NeedsBus(s.outstanding[0],
                     StateIn(cfg, s.caches[s.outstanding[0].threadId], BlockOf(cfg, s.outstanding[0].address)))
  {
    hide StateIn, BlockOf;
  }

  lemma BusJobLasts(cfg: Config, s: SystemState)
    requires Ready(cfg, s) && BusJob(cfg, s)
    ensures var job := s.outstanding[0];
            var s1 := Step(cfg, s);
            && s1.bus.inUse && s1.outstanding == s.outstanding[1..] && s1.cycle == s.cycle + 1
            && 1 + BusCycles(s1.cycle, s1.bus.endCycle)
               + (if AsksAgain(cfg, job, ToldShared(cfg, s.caches, job)) then PEER_COST else 0)
               == JobCycles(cfg, s)
  {
    hide Orderly, Timely, Step, ColumnOf, StateIn, BlockOf, SnoopedTag, Coherent, FirstLength, CommandFor, BlockView,
         BusJob, ToldShared, JobCycles, UnsignedSum, BusCycles;
    var t := BlockOf(cfg, s.outstanding[0].address);
    SnoopedTagFits(t);
    assert Coherent(cfg.protocol, BlockView(cfg, s, SnoopedTag(t)));
    hide AllCoherent;
    BusJobCycles(cfg, s);
    DispatchLength(cfg, s);
  }

  lemma BusJobCycles(cfg: Config, s: SystemState)
    requires 0 < |s.outstanding| && s.outstanding[0].threadId < |s.caches| && BusJob(cfg, s)
    ensures var job := s.outstanding[0];
            JobCycles(cfg, s)
            == 1 + BusCycles(s.cycle + 1, UnsignedSum(s.cycle + 1, FirstLength(cfg, s)))
               + if AsksAgain(cfg, job, ToldShared(cfg, s.caches, job)) then PEER_COST else 0
  {
    BusJobNeeds(cfg, s);
    hide StateIn, BlockOf, FirstLength, UnsignedSum, BusCycles, ToldShared, NeedsBus;
  }

  /** Handing out a job that needs the bus. */
  lemma BusJobStarts(cfg: Config, s: SystemState, u: nat)
    requires Ready(cfg, s) && BusJob(cfg, s)
    ensures var job := s.outstanding[0];
            var t := BlockOf(cfg, job.address);
            var s1 := Step(cfg, s);
            && Sound(cfg, s1)
            && BlockView(cfg, s1, t) == BlockNext(cfg.protocol, Fits(t), BlockState(ColumnOf(cfg, s.caches, t), None),
                                                  Issue(job.threadId, IsWrite(job), ToldShared(cfg, s.caches, job)))
            && (u != t && NoCopies(ColumnOf(cfg, s.caches, u)) ==> NoCopies(ColumnOf(cfg, s1.caches, u)))
  {
    var t := BlockOf(cfg, s.outstanding[0].address);
    StepKeepsSound(cfg, s);
    hide Sound, Step, BlockNext, ColumnOf, BlockOf, NoCopies, BlockView, EventOf, BusJob, ToldShared;
    BusJobEvents(cfg, s, t);
    BusJobEvents(cfg, s, u);
    if u != t && NoCopies(ColumnOf(cfg, s.caches, u)) {
      NoCopiesStay(cfg.protocol, Fits(u), BlockState(ColumnOf(cfg, s.caches, u), None), EventOf(cfg, s, u));
      ViewColumn(cfg, Step(cfg, s), u);
    }
  }

  lemma WaitedViews(cfg: Config, s: SystemState, s': SystemState, t: nat, u: nat)
    requires Waited(cfg, s, s', t, u)
    ensures s'.bus == s.bus && s'.outstanding == s.outstanding
    ensures BlockView(cfg, s', t) == BlockView(cfg, s, t) && PendingFor(cfg, s', t) == PendingFor(cfg, s, t)
    ensures ColumnOf(cfg, s'.caches, u) == ColumnOf(cfg, s.caches, u)
  {
    hide ColumnOf, PendingFor;
  }

  /** One transaction, from any moment at which it holds the bus to the iteration that completes it. */
  lemma RunTransaction(cfg: Config, s: SystemState, t: nat, u: nat) returns (m: nat)
    requires Sound(cfg, s) && s.bus.inUse && u != t && BlockView(cfg, s, t).pending.Some?
    ensures var s' := Run(cfg, s, m);
            && Sound(cfg, s') && s'.outstanding == s.outstanding && s'.cycle == s.cycle + m
            && BlockView(cfg, s', t) == BlockNext(cfg.protocol, Fits(t), BlockView(cfg, s, t), Event.Complete)
            && (NoCopies(ColumnOf(cfg, s.caches, u)) ==> NoCopies(ColumnOf(cfg, s'.caches, u)))
            && (s'.bus.inUse <==> BlockView(cfg, s', t).pending.Some?)
            && (!s'.bus.inUse ==> NoJobs(s'.caches))
            && (s'.bus.inUse ==> s'.bus.endCycle == s'.cycle + PEER_COST)
    ensures m == BusCycles(s.cycle, s.bus.endCycle)
  {
    hide Sound, Step, Run, ColumnOf, PendingFor, BlockNext, NoCopies, Fits;
    var waited := WaitForBus(cfg, s, t, u);
    var last := Run(cfg, s, waited);
    WaitedViews(cfg, s, last, t, u);
    CompleteOne(cfg, last, t, u);
    m := waited + 1;
    RunThen(cfg, s, waited);
  }

  /** The update that may follow. */
  lemma RunUpdate(cfg: Config, s: SystemState, t: nat, u: nat) returns (m: nat)
    requires Sound(cfg, s) && u != t
    requires s.bus.inUse <==> BlockView(cfg, s, t).pending.Some?
    requires s.bus.inUse ==> s.bus.endCycle == s.cycle + PEER_COST
    requires s.bus.inUse ==> BlockNext(cfg.protocol, Fits(t), BlockView(cfg, s, t), Event.Complete).pending.None?
    requires !s.bus.inUse ==> NoJobs(s.caches)
    ensures var s' := Run(cfg, s, m);
            && Sound(cfg, s') && NoJobs(s'.caches) && s'.outstanding == s.outstanding
            && ColumnOf(cfg, s'.caches, t)
               == (if s.bus.inUse then BlockNext(cfg.protocol, Fits(t), BlockView(cfg, s, t), Event.Complete)
                     else BlockView(cfg, s, t)).column
            && (NoCopies(ColumnOf(cfg, s.caches, u)) ==> NoCopies(ColumnOf(cfg, s'.caches, u)))
    ensures m == if s.bus.inUse then PEER_COST else 0
  {
    hide Sound, Step, Run, ColumnOf, NoCopies, BlockView, BlockNext, Fits;
    if s.bus.inUse {
      m := RunTransaction(cfg, s, t, u);
      ViewColumn(cfg, Run(cfg, s, m), t);
    } else {
      m := 0;
      NoRun(cfg, s);
      ViewColumn(cfg, s, t);
    }
  }

  lemma BusJobTransacts(cfg: Config, s: SystemState)
    requires Ready(cfg, s) && BusJob(cfg, s)
    ensures var job := s.outstanding[0];
            var t := BlockOf(cfg, job.address);
            AfterJob(cfg.protocol, Fits(t), ColumnOf(cfg, s.caches, t), job.threadId, IsWrite(job),
                     ToldShared(cfg, s.caches, job))
            == Transacted(cfg.protocol, Fits(t), ColumnOf(cfg, s.caches, t), job.threadId, IsWrite(job),
                          ToldShared(cfg, s.caches, job))
  {
    hide Sound, Transacted, ToldShared, BlockOf, StateIn, Fits;
  }

  /** A transaction is pending after its issue, and after its completion only when Dragon follows a
      shared write with an update; the update leaves nothing pending. */
  lemma IssuePends(protocol: Protocol, heard: bool, column: Column, k: nat, write: bool, shared: bool)
    ensures var asked := BlockNext(protocol, heard, BlockState(column, None), Issue(k, write, shared));
            var once := BlockNext(protocol, heard, asked, Complete);
            && asked.pending.Some?
            && (once.pending.Some? <==> protocol == DRAGON && write && shared)
            && (once.pending.Some? ==> BlockNext(protocol, heard, once, Complete).pending.None?)
  {
    hide SnoopAll, SetAt, OwnAtCompletion, OwnAtIssue, CommandFor;
  }

  lemma IssueIsPending(protocol: Protocol, heard: bool, column: Column, k: nat, write: bool, shared: bool)
    ensures var pending := BlockNext(protocol, heard, BlockState(column, None), Issue(k, write, shared)).pending;
            pending.Some? && pending.value.k == k && pending.value.write == write && pending.value.shared == shared
  {
    hide SnoopAll, SetAt, OwnAtIssue, CommandFor;
  }

  lemma ServeBusJob(cfg: Config, s: SystemState, u: nat) returns (m: nat)
    requires Ready(cfg, s) && BusJob(cfg, s) && u != BlockOf(cfg, s.outstanding[0].address)
    ensures ServedJob(cfg, s, Run(cfg, s, m), u)
    ensures m == JobCycles(cfg, s)
  {
    hide Sound, Step, Run, ColumnOf, NoCopies, StateIn, JobCycles, BlockOf, ToldShared, BusJob, AfterJob, BlockView,
         BlockNext, Fits;
    var job := s.outstanding[0];
    var t := BlockOf(cfg, job.address);
    var shared := ToldShared(cfg, s.caches, job);
    var column := ColumnOf(cfg, s.caches, t);
    var s1 := Step(cfg, s);
    BusJobStarts(cfg, s, u);
    BusJobLasts(cfg, s);
    BusJobTransacts(cfg, s);
    IssuePends(cfg.protocol, Fits(t), column, job.threadId, IsWrite(job), shared);
    var m1 := RunTransaction(cfg, s1, t, u);
    var m2 := RunUpdate(cfg, Run(cfg, s1, m1), t, u);
    m := m1 + 1 + m2;
    RunParts(cfg, s, m1, m2, m);
  }

  /** From asking to completion: the iterations that wait, and the last. */
  ghost predicate Transaction(cfg: Config, asked: SystemState, wait: nat, last: SystemState, t: nat, u: nat) {
    && last == Run(cfg, asked, wait) && last.cycle == asked.cycle + wait
    && Sound(cfg, asked) && asked.bus.inUse && Waited(cfg, asked, last, t, u)
    && Sound(cfg, last) && last.bus.inUse && last.bus.endCycle <= last.cycle + 1 && PendingFor(cfg, last, t).Some?
    && forall i | 0 <= i < wait :: Sound(cfg, Run(cfg, asked, i)) && Waiting(Run(cfg, asked, i))
  }

  lemma WaitsThrough(cfg: Config, asked: SystemState, t: nat, u: nat) returns (wait: nat)
    requires Sound(cfg, asked) && asked.bus.inUse && PendingFor(cfg, asked, t).Some?
    ensures Transaction(cfg, asked, wait, Run(cfg, asked, wait), t, u)
    ensures wait + 1 == BusCycles(asked.cycle, asked.bus.endCycle)
  {
    hide Sound, Run, PendingFor, Waiting, Waited, BusCycles;
    wait := WaitForBus(cfg, asked, t, u);
    WaitedViews(cfg, asked, Run(cfg, asked, wait), t, u);
  }

  /** The course of a job that takes one transaction: the iteration that asks, the ones that wait, and the
      one that completes. */
  lemma BusJobRuns(cfg: Config, s: SystemState, u: nat) returns (wait: nat)
    requires Ready(cfg, s) && BusJob(cfg, s) && u != BlockOf(cfg, s.outstanding[0].address)
    requires !AsksAgain(cfg, s.outstanding[0], ToldShared(cfg, s.caches, s.outstanding[0]))
    ensures Transaction(cfg, Step(cfg, s), wait, Run(cfg, Step(cfg, s), wait), BlockOf(cfg, s.outstanding[0].address),
                        u)
    ensures Step(cfg, s).outstanding == s.outstanding[1..]
    ensures JobCycles(cfg, s) == wait + 2 && Run(cfg, s, wait + 2) == Step(cfg, Run(cfg, Step(cfg, s), wait))
  {
    hide Sound, Step, Run, JobCycles, BlockOf, ToldShared, BusJob, PendingFor, AsksAgain, BusCycles, Transaction;
    BusJobAsks(cfg, s);
    wait := WaitsThrough(cfg, Step(cfg, s), BlockOf(cfg, s.outstanding[0].address), u);
    RunOne(cfg, Run(cfg, Step(cfg, s), wait));
    RunParts(cfg, s, wait, 1, wait + 2);
  }

  lemma BusJobAsks(cfg: Config, s: SystemState)
    requires Ready(cfg, s) && BusJob(cfg, s)
    requires !AsksAgain(cfg, s.outstanding[0], ToldShared(cfg, s.caches, s.outstanding[0]))
    ensures var t := BlockOf(cfg, s.outstanding[0].address);
            var asked := Step(cfg, s);
            && Sound(cfg, asked) && asked.bus.inUse && asked.outstanding == s.outstanding[1..]
               && PendingFor(cfg, asked, t).Some?
            && 1 + BusCycles(asked.cycle, asked.bus.endCycle) == JobCycles(cfg, s)
  {
    var job := s.outstanding[0];
    var t := BlockOf(cfg, job.address);
    hide Sound, Step, ColumnOf, NoCopies, StateIn, JobCycles, BlockOf, ToldShared, BusJob, BlockView, BlockNext,
         PendingFor, AsksAgain, BusCycles, Fits;
    BusJobStarts(cfg, s, t + 1);
    BusJobLasts(cfg, s);
    IssuePends(cfg.protocol, Fits(t), ColumnOf(cfg, s.caches, t), job.threadId, IsWrite(job),
               ToldShared(cfg, s.caches, job));
    ViewPending(cfg, Step(cfg, s), t);
  }

  lemma ViewPending(cfg: Config, s: SystemState, t: nat)
    ensures BlockView(cfg, s, t).pending == PendingFor(cfg, s, t)
  {
  }

  /** One iteration in which a hit goes on. */
  lemma HitOne(cfg: Config, s: SystemState, t: nat, u: nat)
    requires Sound(cfg, s) && !s.bus.inUse && !NoJobs(s.caches)
    ensures Sound(cfg, Step(cfg, s))
    ensures ColumnOf(cfg, Step(cfg, s).caches, t) == ColumnOf(cfg, s.caches, t)
    ensures ColumnOf(cfg, Step(cfg, s).caches, u) == ColumnOf(cfg, s.caches, u)
    ensures Step(cfg, s).outstanding == s.outstanding && !Step(cfg, s).bus.inUse
    ensures (forall i | 0 <= i < |s.caches| && s.caches[i].busy :: s.caches[i].startServiceCycle == s.cycle) ==>
              !NoJobs(Step(cfg, s).caches)
              && forall i | 0 <= i < |Step(cfg, s).caches| && Step(cfg, s).caches[i].busy ::
                   Step(cfg, s).caches[i].startServiceCycle + 1 == Step(cfg, s).cycle
    ensures (forall i | 0 <= i < |s.caches| && s.caches[i].busy :: s.caches[i].startServiceCycle + 1 == s.cycle) ==>
              NoJobs(Step(cfg, s).caches)
  {
    StepKeepsSound(cfg, s);
    ServingStep(cfg, s);
    var s' := Step(cfg, s);
    ServedColumn(cfg, s, s', t);
    ServedColumn(cfg, s, s', u);
    assert forall i | 0 <= i < |s.caches| :: ServedCache(cfg, s'.cycle, s.caches[i], s'.caches[i]);
    hide Sound, Step, GoodSets, HoldsSame, ColumnOf, Orderly;
    if k :| 0 <= k < |s.caches| && s.caches[k].busy && s.caches[k].startServiceCycle == s.cycle {
      assert !s.caches[k].busRequestBeingServiced by { HitIsNotServiced(cfg, s, k); }
      assert s'.caches[k].busy;
    }
    if forall i | 0 <= i < |s.caches| && s.caches[i].busy :: s.caches[i].startServiceCycle + 1 == s.cycle {
      forall i: nat | i < |s.caches|
        ensures !s'.caches[i].busy
      {
        HitIsNotServiced(cfg, s, i);
      }
    }
  }

  lemma HitIsNotServiced(cfg: Config, s: SystemState, i: nat)
    requires Sound(cfg, s) && !s.bus.inUse && i < |s.caches|
    ensures !s.caches[i].busRequestBeingServiced
  {
    hide AllCoherent, Timely, AllGood;
  }

  /** The cache of this system has just begun to serve a hit. */
  ghost predicate HitBegun(cfg: Config, s: SystemState) {
    && Sound(cfg, s) && !s.bus.inUse && !NoJobs(s.caches)
    && forall i | 0 <= i < |s.caches| && s.caches[i].busy :: s.caches[i].startServiceCycle == s.cycle
  }

  lemma HitTwo(cfg: Config, s: SystemState, t: nat, u: nat)
    requires HitBegun(cfg, s)
    ensures var s' := Run(cfg, s, 2);
            && Sound(cfg, s') && NoJobs(s'.caches) && s'.outstanding == s.outstanding
            && ColumnOf(cfg, s'.caches, t) == ColumnOf(cfg, s.caches, t)
            && ColumnOf(cfg, s'.caches, u) == ColumnOf(cfg, s.caches, u)
  {
    hide Sound, Step, Run, ColumnOf;
    HitOne(cfg, s, t, u);
    HitOne(cfg, Step(cfg, s), t, u);
    RunFirst(cfg, s, 1);
    RunOne(cfg, Step(cfg, s));
  }

  lemma ServeHit(cfg: Config, s: SystemState, u: nat)
    requires Ready(cfg, s) && !BusJob(cfg, s)
    ensures ServedJob(cfg, s, Run(cfg, s, 3), u) && JobCycles(cfg, s) == 3
  {
    var t := BlockOf(cfg, s.outstanding[0].address);
    HitStarts(cfg, s, u);
    hide Sound, Step, Run, ColumnOf, NoCopies, StateIn, JobCycles, BlockOf, ToldShared, BusJob, AfterJob, Fits,
         HitBegun;
    HitTwo(cfg, Step(cfg, s), t, u);
    RunFirst(cfg, s, 2);
  }

  lemma HitStarts(cfg: Config, s: SystemState, u: nat)
    requires Ready(cfg, s) && !BusJob(cfg, s)
    ensures var job := s.outstanding[0];
            var t := BlockOf(cfg, job.address);
            var s1 := Step(cfg, s);
            && HitBegun(cfg, s1) && s1.outstanding == s.outstanding[1..]
            && ColumnOf(cfg, s1.caches, t)
               == AfterJob(cfg.protocol, Fits(t), ColumnOf(cfg, s.caches, t), job.threadId, IsWrite(job),
                           ToldShared(cfg, s.caches, job))
            && (u != t ==> ColumnOf(cfg, s1.caches, u) == ColumnOf(cfg, s.caches, u))
            && JobCycles(cfg, s) == 3
  {
    var job := s.outstanding[0];
    var k, t := job.threadId, BlockOf(cfg, job.address);
    var column := ColumnOf(cfg, s.caches, t);
    assert StateAt(column, k) == StateIn(cfg, s.caches[k], t);
    assert !NeedsBus(job, StateIn(cfg, s.caches[k], t)) by { hide StateIn, BlockOf; }
    StepKeepsSound(cfg, s);
    hide Sound, Step, Grant, BeforeBus, ColumnOf, StateIn, BlockOf, ToldShared, BusJob, Transacted, SetAt, IssueCost,
         Penalty;
    ReadyIsOrderly(cfg, s);
    DispatchStep(cfg, s);
    var s1 := BeforeBus(cfg, s);
    HandedOutFreeJob(cfg, s, s1);
    DispatchColumn(cfg, s, s1, t);
    DispatchColumn(cfg, s, s1, u);
    SetSame(column, k);
    assert s1.caches[k].busy && s1.bus == s.bus && s1.outstanding == s.outstanding[1..]
           && |s1.caches| == |s.caches| by {
      hide TakesJob, QuietlyTicked;
    }
    hide HandedOut, Orderly;
  }

  lemma ReadyIsOrderly(cfg: Config, s: SystemState)
    requires Ready(cfg, s)
    ensures ValidConfig(cfg) && Orderly(cfg, s) && !s.bus.inUse
  {
    RestingIsQuiet(cfg, s);
    hide Orderly, AllCoherent, Timely;
  }

  /** Jobs are atomic: however many iterations a job takes, in the end its block has gone from the column
      it had to the one the job makes of it, the queue has lost exactly this job, and the system rests;
      and the number of iterations is known beforehand. (Block u: a block nobody holds is
      not brought in by jobs about other blocks.) */
  lemma ServeJob(cfg: Config, s: SystemState, u: nat) returns (m: nat)
    requires Ready(cfg, s) && u != BlockOf(cfg, s.outstanding[0].address)
    ensures ServedJob(cfg, s, Run(cfg, s, m), u)
    ensures m == JobCycles(cfg, s)
  {
    hide Run, ServedJob, JobCycles, Sound;
    if BusJob(cfg, s) {
      m := ServeBusJob(cfg, s, u);
    } else {
      m := 3;
      ServeHit(cfg, s, u);
    }
  }
}
