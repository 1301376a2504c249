/** Runs that lose a write: the next reader gets what memory has, and that is not the last write. */
module Staleness {
  import opened Wrappers
  import opened Constants
  import opened Requests
  import opened Sets
  import opened CacheModel
  import opened Coherence
  import opened CacheLemmas
  import opened Freshness
  import opened SystemModel
  import opened BusLemmas
  import opened Refinement
  import opened Runs
  import opened Timing
  import opened Serving
  import opened JobResults

  // ---------------------------------------------------------------------------------------------
  // What a job that takes one transaction does to the contents.

  lemma WaitingIsNoEvent(cfg: Config, s: SystemState, t: nat, v: Versions)
    requires Sound(cfg, s) && Waiting(s)
    ensures VersionsNext(cfg.protocol, BlockView(cfg, s, t), EventOf(cfg, s, t), v) == v
  {
    CurrentHasJob(cfg, s);
    hide Orderly, AllCoherent, Timely, BlockView, DispatchEvent, CompletionEvent;
  }

  lemma {:induction false} WaitKeepsVersions(cfg: Config, s: SystemState, t: nat, v: Versions, m: nat)
    requires forall i | 0 <= i < m :: Sound(cfg, Run(cfg, s, i)) && Waiting(Run(cfg, s, i))
    ensures VersionsRun(cfg, s, t, v, m) == v
  {
    hide Sound, Waiting, VersionsNext, EventOf, BlockView, Run;
    if m > 0 {
      WaitKeepsVersions(cfg, s, t, v, m - 1);
      WaitingIsNoEvent(cfg, Run(cfg, s, m - 1), t, v);
    }
  }

  lemma OneVersion(cfg: Config, s: SystemState, t: nat, v: Versions)
    ensures VersionsRun(cfg, s, t, v, 1) == VersionsNext(cfg.protocol, BlockView(cfg, s, t), EventOf(cfg, s, t), v)
  {
    hide VersionsNext, EventOf, BlockView, Step;
    assert Run(cfg, s, 0) == s;
    assert VersionsRun(cfg, s, t, v, 0) == v;
  }

  /** The first iteration, the waiting, and the last iteration. */
  lemma TransactionVersions(cfg: Config, s: SystemState, t: nat, v: Versions, wait: nat)
    requires forall i | 0 <= i < wait :: Sound(cfg, Run(cfg, Step(cfg, s), i)) && Waiting(Run(cfg, Step(cfg, s), i))
    ensures var last := Run(cfg, Step(cfg, s), wait);
            var v1 := VersionsNext(cfg.protocol, BlockView(cfg, s, t), EventOf(cfg, s, t), v);
            VersionsRun(cfg, s, t, v, wait + 2)
                == VersionsNext(cfg.protocol, BlockView(cfg, last, t), EventOf(cfg, last, t), v1)
  {
    hide Sound, Waiting, VersionsNext, EventOf, BlockView, Run, Step, VersionsRun;
    var v1 := VersionsNext(cfg.protocol, BlockView(cfg, s, t), EventOf(cfg, s, t), v);
    var last := Run(cfg, Step(cfg, s), wait);
    OneVersion(cfg, s, t, v);
    RunOne(cfg, s);
    WaitKeepsVersions(cfg, Step(cfg, s), t, v1, wait);
    VersionsAdd(cfg, s, t, v, 1, wait);
    RunFirst(cfg, s, wait);
    VersionsAdd(cfg, s, t, v, wait + 1, 1);
    OneVersion(cfg, last, t, v1);
  }

  /** The next job is one of cache k about block t and needs the bus. */
  ghost predicate BusJobOf(cfg: Config, s: SystemState, k: nat, t: nat) {
    Ready(cfg, s) && BusJob(cfg, s) && s.outstanding[0].threadId == k && BlockOf(cfg, s.outstanding[0].address) == t
  }

  /** And takes one transaction. */
  ghost predicate OneTransaction(cfg: Config, s: SystemState, k: nat, t: nat) {
    && BusJobOf(cfg, s, k, t)
    && !AsksAgain(cfg, s.outstanding[0], ToldShared(cfg, s.caches, s.outstanding[0]))
  }

  /** What the job does to the contents of its own block. */
  function JobVersions(protocol: Protocol, heard: bool, column: Column, k: nat, write: bool, shared: bool,
                       v: Versions): Versions {
    var b := BlockState(column, None);
    var asked := BlockNext(protocol, heard, b, Issue(k, write, shared));
    VersionsNext(protocol, asked, Event.Complete, VersionsNext(protocol, b, Issue(k, write, shared), v))
  }

  lemma OwnJobVersions(cfg: Config, s: SystemState, k: nat, t: nat, v: Versions)
    requires OneTransaction(cfg, s, k, t)
    ensures var job := s.outstanding[0];
            VersionsRun(cfg, s, t, v, JobCycles(cfg, s))
            == JobVersions(cfg.protocol, Fits(t), ColumnOf(cfg, s.caches, t), k, IsWrite(job),
                           ToldShared(cfg, s.caches, job), v)
  {
    hide Sound, Step, Run, ColumnOf, JobCycles, BlockOf, ToldShared, BusJob, BlockView, BlockNext, VersionsNext,
         EventOf, PendingFor, Waiting, AsksAgain, Fits;
    var wait := BusJobRuns(cfg, s, t + 1);
    var last := Run(cfg, Step(cfg, s), wait);
    BusJobEvents(cfg, s, t);
    TransactionVersions(cfg, s, t, v, wait);
    RestingView(cfg, s, t);
    WaitedViews(cfg, Step(cfg, s), last, t, t + 1);
    CompletesOwn(cfg, last, t);
  }

  lemma RestingView(cfg: Config, s: SystemState, t: nat)
    requires Sound(cfg, s) && NoJobs(s.caches)
    ensures BlockView(cfg, s, t) == BlockState(ColumnOf(cfg, s.caches, t), None)
  {
    RestingIsQuiet(cfg, s);
    hide Orderly, AllCoherent, Timely, ColumnOf;
  }

  lemma CompletesOwn(cfg: Config, s: SystemState, t: nat)
    requires Sound(cfg, s) && s.bus.inUse && s.bus.endCycle <= s.cycle + 1 && PendingFor(cfg, s, t).Some?
    ensures EventOf(cfg, s, t) == Event.Complete
  {
    CompletionEventIs(cfg, s, t);
    hide Orderly, AllCoherent, Timely, EventOf, PushesOut, AsksAgain, SnoopedTag;
  }

  /** What it does to another block, of which cache k has no copy: nothing, unless its request is mistaken
      for one about that block. */
  lemma ForeignJob(cfg: Config, s: SystemState, k: nat, t: nat, u: nat)
    requires OneTransaction(cfg, s, k, t) && u != t && cfg.protocol != DRAGON && StateIn(cfg, s.caches[k], u) == Invalid
    ensures var column := ColumnOf(cfg, s.caches, u);
            var command := CommandFor(cfg.protocol, IsWrite(s.outstanding[0]), StateIn(cfg, s.caches[k], t));
            ColumnOf(cfg, Run(cfg, s, JobCycles(cfg, s)).caches, u)
            == if SnoopedTag(t) == u then SnoopAll(cfg.protocol, command, k, column) else column
  {
    hide Sound, Step, Run, ColumnOf, JobCycles, BlockOf, ToldShared, BusJob, BlockView, BlockNext, EventOf, SnoopAll,
         PendingFor, Waiting, AsksAgain, SnoopedTag, StateIn, CommandFor;
    var wait := BusJobRuns(cfg, s, u);
    var asked := Step(cfg, s);
    var last := Run(cfg, asked, wait);
    var command := CommandFor(cfg.protocol, IsWrite(s.outstanding[0]), StateIn(cfg, s.caches[k], t));
    ForeignEvent(cfg, s, k, t, u);
    BusJobEvents(cfg, s, u);
    ForeignMove(cfg.protocol, Fits(u), ColumnOf(cfg, s.caches, u), k, false, OnlyIf(SnoopedTag(t) == u, command));
    ColumnHolds(cfg, s.caches, u);
    WaitedAll(cfg, asked, last, t, u);
    ForeignCompletion(cfg, last, k, t, u);
    ViewColumn(cfg, last, u);
    ViewColumn(cfg, Step(cfg, last), u);
  }

  /** The event of a dispatch for another block. */
  lemma ForeignEvent(cfg: Config, s: SystemState, k: nat, t: nat, u: nat)
    requires BusJobOf(cfg, s, k, t) && u != t
    ensures var command := CommandFor(cfg.protocol, IsWrite(s.outstanding[0]), StateIn(cfg, s.caches[k], t));
            EventOf(cfg, s, u) == Foreign(k, false, OnlyIf(SnoopedTag(t) == u, command))
    ensures Step(cfg, s).bus.currentCache == k < |Step(cfg, s).caches|
    ensures Step(cfg, s).caches[k].currentJob == Some(s.outstanding[0])
  {
    hide Orderly, AllCoherent, Timely, Step, ColumnOf, ToldShared, SnoopedTag, StateIn, AnyShares, Coherent, BlockOf,
         CommandFor, AsksAgain, BusJob;
    ReadyIsOrderly(cfg, s);
    BusJobNeeds(cfg, s);
    SnoopedTagFits(t);
    CoherentHere(cfg, s, SnoopedTag(t));
    DispatchLength(cfg, s);
    assert !Done(s) && EventOf(cfg, s, u)
           == DispatchEvent(cfg, s.caches, s.outstanding[0], u) by { hide DispatchEvent; }
  }

  lemma ForeignMove(protocol: Protocol, heard: bool, column: Column, k: nat, evicted: bool, mistaken: Option<Command>)
    ensures var left := if evicted then SetAt(column, k, Invalid) else column;
            BlockNext(protocol, heard, BlockState(column, None), Foreign(k, evicted, mistaken))
            == BlockState(if mistaken.Some? then SnoopAll(protocol, mistaken.value, k, left) else left, None)
    ensures mistaken.Some? && k < |column| ==>
              StateAt(SnoopAll(protocol, mistaken.value, k, column), k) == StateAt(column, k)
  {
    hide SnoopState;
  }

  lemma ForeignCompletion(cfg: Config, s: SystemState, k: nat, t: nat, u: nat)
    requires Sound(cfg, s) && s.bus.inUse && s.bus.endCycle <= s.cycle + 1 && cfg.protocol != DRAGON
    requires PendingFor(cfg, s, t).Some? && s.bus.currentCache == k && u != t
    requires BlockView(cfg, s, u).pending.None? && StateAt(BlockView(cfg, s, u).column, k) == Invalid
    ensures BlockView(cfg, Step(cfg, s), u).column == BlockView(cfg, s, u).column
  {
    hide Orderly, AllCoherent, Timely, Step, ColumnOf, EventOf, SnoopedTag, PushesOut, BlockOf, SnoopAll;
    CompletionEventIs(cfg, s, u);
    StepRefines(cfg, s, u);
    var b := BlockView(cfg, s, u);
    assert b == BlockState(b.column, None);
    SetSame(b.column, k);
  }

  // ---------------------------------------------------------------------------------------------
  // A read that nobody but memory can serve.

  lemma {:induction false} NothingToFlush(protocol: Protocol, command: Command, k: nat, column: Column, v: Versions,
                                          n: nat)
    requires n <= |column| && NoCopies(column)
    ensures MemoryAfter(protocol, command, k, column, v, n) == v.memory
    ensures Received(protocol, command, k, column, v, v.memory, n) == v.memory
  {
    if n > 0 {
      NothingToFlush(protocol, command, k, column, v, n - 1);
    }
  }

  /** A job that meets no copies works on what memory has. */
  lemma LoneJobVersions(protocol: Protocol, heard: bool, column: Column, k: nat, write: bool, v: Versions)
    requires NoCopies(column) && k < |column| == |v.held|
    ensures var v' := JobVersions(protocol, heard, column, k, write, false, v);
            && v'.memory == v.memory && v'.latest == v.latest + (if write then 1 else 0) && |v'.held| == |v.held|
            && v'.held[k] == if write then Overwritten(v, v.memory) else v.memory
  {
    hide SnoopAll, Received, MemoryAfter;
    var command := CommandFor(protocol, write, Invalid);
    NothingToFlush(protocol, command, k, column, v, |column|);
    assert StateAt(column, k) == Invalid;
  }

  lemma LoneIsTold(cfg: Config, s: SystemState, k: nat, t: nat)
    requires Ready(cfg, s) && s.outstanding[0].threadId == k && BlockOf(cfg, s.outstanding[0].address) == t && Fits(t)
    requires NoCopies(ColumnOf(cfg, s.caches, t))
    ensures !ToldShared(cfg, s.caches, s.outstanding[0]) && OneTransaction(cfg, s, k, t)
  {
    hide Sound, StateIn, BlockOf, CommandFor;
    assert ColumnOf(cfg, s.caches, t)[k] == StateIn(cfg, s.caches[k], t);
    assert SnoopedTag(t) == t;
    assert BusJob(cfg, s);
    hide AnyShares, ColumnOf, NoCopies;
    NobodyAnswers(cfg.protocol, CommandFor(cfg.protocol, IsWrite(s.outstanding[0]), StateIn(cfg, s.caches[k], t)), k,
                  ColumnOf(cfg, s.caches, t));
  }

  lemma NobodyAnswers(protocol: Protocol, command: Command, k: nat, column: Column)
    requires NoCopies(column)
    ensures !AnyShares(protocol, command, k, column)
  {
  }

  /** A job about a block that no cache holds: it works on what memory has. */
  lemma ServeLone(cfg: Config, s: SystemState, k: nat, t: nat, v: Versions) returns (m: nat)
    requires Ready(cfg, s) && s.outstanding[0].threadId == k && BlockOf(cfg, s.outstanding[0].address) == t && Fits(t)
    requires NoCopies(ColumnOf(cfg, s.caches, t)) && |v.held| == cfg.numProcessors
    ensures var s' := Run(cfg, s, m);
            var v' := VersionsRun(cfg, s, t, v, m);
            var write := IsWrite(s.outstanding[0]);
            && Sound(cfg, s') && NoJobs(s'.caches) && s'.outstanding == s.outstanding[1..]
            && Satisfied(cfg, s, s')
            && v'.memory == v.memory && v'.latest == v.latest + (if write then 1 else 0) && k < |v'.held| == |v.held|
            && v'.held[k] == if write then Overwritten(v, v.memory) else v.memory
  {
    hide Sound, Run, VersionsRun, JobCycles, ColumnOf, BlockOf, NoCopies, ToldShared, OneTransaction, JobVersions,
         Satisfied;
    m := ServeJob(cfg, s, t + 1);
    ServedIsSatisfied(cfg, s, Run(cfg, s, m), t + 1);
    ServedIsSound(cfg, s, Run(cfg, s, m), t + 1);
    SoundWidth(cfg, s, t);
    LoneIsTold(cfg, s, k, t);
    OwnJobVersions(cfg, s, k, t, v);
    LoneJobVersions(cfg.protocol, Fits(t), ColumnOf(cfg, s.caches, t), k, IsWrite(s.outstanding[0]), v);
  }

  lemma ServedIsSound(cfg: Config, s: SystemState, s': SystemState, u: nat)
    requires Ready(cfg, s) && ServedJob(cfg, s, s', u)
    ensures Sound(cfg, s')
  {
    hide Sound, AfterJob, ToldShared, ColumnOf, BlockOf, NoCopies;
  }

  /** If memory is behind, a read of a block that no cache holds ends with a stale copy. */
  lemma LoneReadIsStale(cfg: Config, s: SystemState, k: nat, t: nat, v: Versions) returns (m: nat)
    requires Ready(cfg, s) && IsRead(s.outstanding[0]) && s.outstanding[0].threadId == k
    requires BlockOf(cfg, s.outstanding[0].address) == t && Fits(t)
    requires NoCopies(ColumnOf(cfg, s.caches, t)) && |v.held| == cfg.numProcessors && v.memory != v.latest
    ensures !Fresh(ColumnOf(cfg, Run(cfg, s, m).caches, t), VersionsRun(cfg, s, t, v, m))
  {
    hide Sound, Run, VersionsRun, ColumnOf, BlockOf, NoCopies, Satisfied;
    m := ServeLone(cfg, s, k, t, v);
    SoundWidth(cfg, s, t);
    SoundWidth(cfg, Run(cfg, s, m), t);
    LoneReadFills(cfg, s, Run(cfg, s, m), k, t);
  }

  lemma LoneReadFills(cfg: Config, s: SystemState, s': SystemState, k: nat, t: nat)
    requires 0 < |s.outstanding| && k < |s.caches| && IsRead(s.outstanding[0]) && s.outstanding[0].threadId == k
    requires BlockOf(cfg, s.outstanding[0].address) == t && NoCopies(ColumnOf(cfg, s.caches, t))
    requires Satisfied(cfg, s, s')
    ensures k < |ColumnOf(cfg, s'.caches, t)| && ColumnOf(cfg, s'.caches, t)[k] != Invalid
  {
    assert |ColumnOf(cfg, s.caches, t)| == |s.caches|;
    hide ColumnOf, BlockOf;
  }

  // ---------------------------------------------------------------------------------------------
  // MESI forgets a write miss that nobody answers.

  lemma LoneWriteLeavesNothing(cfg: Config, s: SystemState, s': SystemState, k: nat, t: nat)
    requires cfg.protocol == MESI && 0 < |s.outstanding| && k < |s.caches| && IsWrite(s.outstanding[0])
    requires s.outstanding[0].threadId == k && BlockOf(cfg, s.outstanding[0].address) == t
    requires NoCopies(ColumnOf(cfg, s.caches, t)) && Satisfied(cfg, s, s')
    ensures NoCopies(ColumnOf(cfg, s'.caches, t))
  {
    assert |ColumnOf(cfg, s.caches, t)| == |s.caches|;
    hide ColumnOf, BlockOf;
  }

  /** One processor writes a block, one, perhaps the same, reads it: the reader does not see the write. */
  lemma MesiForgets(cfg: Config, address: nat, writer: nat, reader: nat) returns (n: nat)
    requires ValidConfig(cfg) && cfg.protocol == MESI && Fits(BlockOf(cfg, address))
    requires writer < cfg.numProcessors && reader < cfg.numProcessors
    ensures var jobs := [Job('W', address, writer), Job('R', address, reader)];
            var t := BlockOf(cfg, address);
            !Fresh(ColumnOf(cfg, After(cfg, jobs, n).caches, t), VersionsAfter(cfg, jobs, t, n))
  {
    hide Sound, Run, VersionsRun, ColumnOf, BlockOf, NoCopies, Satisfied, InitialSystem;
    var jobs := [Job('W', address, writer), Job('R', address, reader)];
    var t := BlockOf(cfg, address);
    var s := After(cfg, jobs, 0);
    StartIsReady(cfg, jobs, t);
    RunZero(cfg, jobs, t);
    var m := ServeLone(cfg, s, writer, t, NoWrites(cfg));
    var s1 := Run(cfg, s, m);
    LoneWriteLeavesNothing(cfg, s, s1, writer, t);
    SoundWidth(cfg, s1, t);
    var m1 := LoneReadIsStale(cfg, s1, reader, t, VersionsRun(cfg, s, t, NoWrites(cfg), m));
    n := m + m1;
    RunAdds(cfg, s, m, m1);
    VersionsAdd(cfg, s, t, NoWrites(cfg), m, m1);
  }

  lemma RunZero(cfg: Config, jobs: seq<Job>, t: nat)
    ensures After(cfg, jobs, 0) == InitialSystem(cfg, jobs)
    ensures VersionsRun(cfg, InitialSystem(cfg, jobs), t, NoWrites(cfg), 0) == NoWrites(cfg)
  {
    hide InitialSystem, NoWrites;
  }

  // ---------------------------------------------------------------------------------------------
  // What the jobs of a trace leave of a block.

  lemma WaitedAll(cfg: Config, s: SystemState, s': SystemState, t: nat, u: nat)
    requires Waited(cfg, s, s', t, u)
    ensures s'.bus == s.bus && |s'.caches| == |s.caches| && BlockView(cfg, s', u) == BlockView(cfg, s, u)
    ensures 0 <= s.bus.currentCache < |s.caches| ==> s'.caches[s.bus.currentCache] == s.caches[s.bus.currentCache]
  {
    hide BlockView;
  }

  /** The columns a read and then a write by cache k leave of a block nobody held: one modified copy. */
  lemma ReadThenWrite(protocol: Protocol, column: Column, one: Column, two: Column, k: nat)
    requires k < |column| && NoCopies(column)
    requires WasRead(protocol, column, k, one) && Written(protocol, one, k, two)
    ensures |two| == |column| && two[k] == Modified && Alone(two, k)
  {
    assert one[k] != Invalid && Alone(one, k);
  }

  lemma ReadServed(cfg: Config, s: SystemState, s': SystemState, k: nat, t: nat)
    requires 0 < |s.outstanding| && s.outstanding[0].threadId == k < |s.caches|
    requires BlockOf(cfg, s.outstanding[0].address) == t
    requires Satisfied(cfg, s, s')
    ensures IsRead(s.outstanding[0]) ==>
              WasRead(cfg.protocol, ColumnOf(cfg, s.caches, t), k, ColumnOf(cfg, s'.caches, t))
    ensures IsWrite(s.outstanding[0]) ==>
              Written(cfg.protocol, ColumnOf(cfg, s.caches, t), k, ColumnOf(cfg, s'.caches, t))
  {
    hide WasRead, Written, ColumnOf, BlockOf;
  }

  // ---------------------------------------------------------------------------------------------
  // Requests that are mistaken for requests about another block.

  /** What a job about another block does to the contents in MOESI: nothing is flushed. */
  lemma ForeignJobVersions(cfg: Config, s: SystemState, k: nat, t: nat, u: nat, v: Versions)
    requires OneTransaction(cfg, s, k, t) && u != t && cfg.protocol == MOESI
    ensures var v' := VersionsRun(cfg, s, u, v, JobCycles(cfg, s));
            v'.latest == v.latest && v'.memory == v.memory && |v'.held| == |v.held|
  {
    hide Sound, Step, Run, ColumnOf, JobCycles, BlockOf, ToldShared, BusJob, BlockView, EventOf, PendingFor, Waiting,
         AsksAgain, SnoopedTag, StateIn, CommandFor, VersionsNext;
    var wait := BusJobRuns(cfg, s, u);
    var last := Run(cfg, Step(cfg, s), wait);
    ForeignEvent(cfg, s, k, t, u);
    TransactionVersions(cfg, s, u, v, wait);
    NothingFlushed(BlockView(cfg, s, u), EventOf(cfg, s, u), v);
    CompletionIsForeign(cfg, last, t, u);
    NothingFlushed(BlockView(cfg, last, u), EventOf(cfg, last, u),
                   VersionsNext(MOESI, BlockView(cfg, s, u), EventOf(cfg, s, u), v));
  }

  lemma CompletionIsForeign(cfg: Config, s: SystemState, t: nat, u: nat)
    requires Sound(cfg, s) && s.bus.inUse && s.bus.endCycle <= s.cycle + 1 && PendingFor(cfg, s, t).Some? && u != t
    ensures EventOf(cfg, s, u).Foreign?
  {
    CompletionEventIs(cfg, s, u);
    hide Orderly, AllCoherent, Timely, EventOf, PushesOut, SnoopedTag;
  }

  lemma {:induction false} MoesiFlushesNothing(command: Command, k: nat, column: Column, v: Versions, n: nat)
    requires n <= |column|
    ensures MemoryAfter(MOESI, command, k, column, v, n) == v.memory
  {
    if n > 0 {
      MoesiFlushesNothing(command, k, column, v, n - 1);
    }
  }

  lemma NothingFlushed(b: BlockState, event: Event, v: Versions)
    requires event.Foreign?
    ensures var v' := VersionsNext(MOESI, b, event, v);
            v'.latest == v.latest && v'.memory == v.memory && |v'.held| == |v.held|
  {
    if event.mistaken.Some? {
      var column := if event.evicted then SetAt(b.column, event.k, Invalid) else b.column;
      MoesiFlushesNothing(event.mistaken.value, event.k, column, v, |column|);
      hide MemoryAfter;
    }
  }

  /** MOESI, two caches: the first has written a block; the second writes one whose requests are taken for
      requests about it. The only up-to-date copy is invalidated and handed to nobody. */
  lemma MistakenIsStale(cfg: Config, a: nat, reader: nat) returns (n: nat)
    requires ValidConfig(cfg) && cfg.protocol == MOESI && 2 <= cfg.numProcessors && reader < cfg.numProcessors
    requires Fits(BlockOf(cfg, a))
    ensures var t := BlockOf(cfg, a);
            var jobs := [Job('R', a, 0), Job('W', a, 0), Job('W', AddressOf(cfg, AliasOf(t)), 1), Job('R', a, reader)];
            !Fresh(ColumnOf(cfg, After(cfg, jobs, n).caches, t), VersionsAfter(cfg, jobs, t, n))
  {
    hide Sound, Run, VersionsRun, ColumnOf, BlockOf, NoCopies, Satisfied, InitialSystem, JobCycles, SnoopedTag, AliasOf,
         AddressOf;
    var u := BlockOf(cfg, a);
    var alias := AddressOf(cfg, AliasOf(u));
    var jobs := [Job('R', a, 0), Job('W', a, 0), Job('W', alias, 1), Job('R', a, reader)];
    var m := WrittenTwice(cfg, a, 0, jobs);
    var two := After(cfg, jobs, m);
    var v := VersionsAfter(cfg, jobs, u, m);
    var m1 := ServeMistaken(cfg, two, AliasOf(u), u, v);
    RunAdds(cfg, InitialSystem(cfg, jobs), m, m1);
    VersionsAdd(cfg, InitialSystem(cfg, jobs), u, NoWrites(cfg), m, m1);
    SoundWidth(cfg, Run(cfg, two, m1), u);
    assert jobs[2..][1..] == [Job('R', a, reader)];
    var m2 := LoneReadIsStale(cfg, Run(cfg, two, m1), reader, u, VersionsRun(cfg, two, u, v, m1));
    n := m + m1 + m2;
    RunAdds(cfg, InitialSystem(cfg, jobs), m + m1, m2);
    VersionsAdd(cfg, InitialSystem(cfg, jobs), u, NoWrites(cfg), m + m1, m2);
  }

  /** A job does not bring in blocks it is not about. */
  lemma JobKeepsAway(cfg: Config, s: SystemState, w: nat)
    requires Ready(cfg, s) && w != BlockOf(cfg, s.outstanding[0].address) && NoCopies(ColumnOf(cfg, s.caches, w))
    ensures NoCopies(ColumnOf(cfg, Run(cfg, s, JobCycles(cfg, s)).caches, w))
  {
    hide Sound, Run, ColumnOf, BlockOf, NoCopies, JobCycles, ToldShared, AfterJob;
    var m := ServeJob(cfg, s, w);
  }

  /** After a read and a write of a block by cache k: one modified copy, memory behind; the other blocks are
      nowhere. */
  lemma WrittenTwice(cfg: Config, a: nat, k: nat, jobs: seq<Job>) returns (n: nat)
    requires ValidConfig(cfg) && k < cfg.numProcessors && Fits(BlockOf(cfg, a))
    requires 2 <= |jobs| && jobs[0] == Job('R', a, k) && jobs[1] == Job('W', a, k)
    ensures var s, v := After(cfg, jobs, n), VersionsAfter(cfg, jobs, BlockOf(cfg, a), n);
            var column := ColumnOf(cfg, s.caches, BlockOf(cfg, a));
            && Sound(cfg, s) && NoJobs(s.caches) && s.outstanding == jobs[2..] && |s.caches| == cfg.numProcessors
            && |column| == cfg.numProcessors && column[k] == Modified && Alone(column, k)
            && (forall w: nat | w != BlockOf(cfg, a) :: NoCopies(ColumnOf(cfg, s.caches, w)))
            && |v.held| == cfg.numProcessors && v.memory < v.latest
  {
    hide Sound, Run, VersionsRun, ColumnOf, BlockOf, NoCopies, Satisfied, InitialSystem, JobCycles, Fits, ServedJob;
    var u := BlockOf(cfg, a);
    var start := InitialSystem(cfg, jobs);
    StartIsReady(cfg, jobs, u);
    RunZero(cfg, jobs, u);
    var m := ServeJob(cfg, start, u + 1);
    var one := Run(cfg, start, m);
    ServedFacts(cfg, start, one, u + 1);
    SoundWidth(cfg, one, u);
    var m1 := ServeJob(cfg, one, u + 1);
    n := m + m1;
    RunAdds(cfg, start, m, m1);
    var two := After(cfg, jobs, n);
    ServedFacts(cfg, one, two, u + 1);
    SoundWidth(cfg, two, u);
    ReadServed(cfg, start, one, k, u);
    ReadServed(cfg, one, two, k, u);
    ReadThenWrite(cfg.protocol, ColumnOf(cfg, start.caches, u), ColumnOf(cfg, one.caches, u),
                  ColumnOf(cfg, two.caches, u), k);
    forall w: nat | w != u
      ensures NoCopies(ColumnOf(cfg, two.caches, w))
    {
      StartIsReady(cfg, jobs, w);
      JobKeepsAway(cfg, start, w);
      JobKeepsAway(cfg, one, w);
    }
    RunsAreUnsaved(cfg, jobs, u, n);
    RestingView(cfg, two, u);
  }

  lemma ServedFacts(cfg: Config, s: SystemState, s': SystemState, u: nat)
    requires Ready(cfg, s) && ServedJob(cfg, s, s', u) && Fits(BlockOf(cfg, s.outstanding[0].address))
    requires u != BlockOf(cfg, s.outstanding[0].address)
    ensures Sound(cfg, s') && Satisfied(cfg, s, s') && NoJobs(s'.caches) && s'.outstanding == s.outstanding[1..]
    ensures NoCopies(ColumnOf(cfg, s.caches, u)) ==> NoCopies(ColumnOf(cfg, s'.caches, u))
  {
    ServedIsSatisfied(cfg, s, s', u);
    hide Sound, AfterJob, ToldShared, ColumnOf, BlockOf, NoCopies, Satisfied, Fits;
  }

  lemma ServeMistaken(cfg: Config, s: SystemState, t: nat, u: nat, v: Versions) returns (m: nat)
    requires cfg.protocol == MOESI && Ready(cfg, s) && IsWrite(s.outstanding[0]) && s.outstanding[0].threadId == 1
    requires BlockOf(cfg, s.outstanding[0].address) == t && SnoopedTag(t) == u && t != u
    requires NoCopies(ColumnOf(cfg, s.caches, t)) && Alone(ColumnOf(cfg, s.caches, u), 0)
    ensures var s' := Run(cfg, s, m);
            var v' := VersionsRun(cfg, s, u, v, m);
            && Sound(cfg, s') && NoJobs(s'.caches) && s'.outstanding == s.outstanding[1..]
            && NoCopies(ColumnOf(cfg, s'.caches, u))
            && v'.latest == v.latest && v'.memory == v.memory && |v'.held| == |v.held|
  {
    hide Sound, Run, ColumnOf, BlockOf, NoCopies, JobCycles, SnoopedTag, StateIn, OneTransaction, SnoopAll, VersionsRun;
    m := ServeJob(cfg, s, u);
    ServedIsSound(cfg, s, Run(cfg, s, m), u);
    ServedIsNext(cfg, s, Run(cfg, s, m), u);
    SoundWidth(cfg, s, u);
    ColumnHolds(cfg, s.caches, t);
    ColumnHolds(cfg, s.caches, u);
    EmptyAt(ColumnOf(cfg, s.caches, t));
    AbsentTakesBus(cfg, s, 1, t);
    ForeignJob(cfg, s, 1, t, u);
    ForeignJobVersions(cfg, s, 1, t, u, v);
    SnoopedTagFits(t);
    RestingColumn(cfg, s, u);
    InvalidatesAll(ColumnOf(cfg, s.caches, u));
  }

  lemma EmptyAt(column: Column)
    requires NoCopies(column)
    ensures forall i | 0 <= i < |column| :: column[i] == Invalid
  {
  }

  lemma AbsentTakesBus(cfg: Config, s: SystemState, k: nat, t: nat)
    requires Ready(cfg, s) && (IsRead(s.outstanding[0]) || cfg.protocol == MOESI) && s.outstanding[0].threadId == k
    requires BlockOf(cfg, s.outstanding[0].address) == t && StateIn(cfg, s.caches[k], t) == Invalid
    ensures OneTransaction(cfg, s, k, t)
  {
    hide Sound, StateIn, BlockOf, ToldShared;
  }

  lemma InvalidatesAll(column: Column)
    requires 1 < |column| && Alone(column, 0) && Coherent(MOESI, BlockState(column, None))
    ensures NoCopies(SnoopAll(MOESI, BusRdX, 1, column))
  {
    assert InProtocol(MOESI, column[0]);
  }

  /** After reads by caches 0 and 1 of a block in Dragon: cache 1 holds a clean shared copy. */
  lemma ReadTwice(cfg: Config, a: nat, w: nat, jobs: seq<Job>) returns (n: nat)
    requires ValidConfig(cfg) && cfg.protocol == DRAGON && 2 <= cfg.numProcessors && Fits(BlockOf(cfg, a))
    requires w != BlockOf(cfg, a)
    requires 2 <= |jobs| && jobs[0] == Job('R', a, 0) && jobs[1] == Job('R', a, 1)
    ensures var s := After(cfg, jobs, n);
            var column := ColumnOf(cfg, s.caches, BlockOf(cfg, a));
            && Sound(cfg, s) && NoJobs(s.caches) && s.outstanding == jobs[2..] && |s.caches| == cfg.numProcessors
            && |column| == cfg.numProcessors && column[1] == SharedClean
            && NoCopies(ColumnOf(cfg, s.caches, w))
  {
    hide Sound, Run, ColumnOf, BlockOf, NoCopies, Satisfied, InitialSystem, JobCycles, Fits, ServedJob;
    var u := BlockOf(cfg, a);
    var start := InitialSystem(cfg, jobs);
    StartIsReady(cfg, jobs, u);
    StartIsReady(cfg, jobs, w);
    RunZero(cfg, jobs, u);
    var m := ServeJob(cfg, start, w);
    var one := Run(cfg, start, m);
    ServedFacts(cfg, start, one, w);
    SoundWidth(cfg, one, u);
    var m1 := ServeJob(cfg, one, w);
    n := m + m1;
    RunAdds(cfg, start, m, m1);
    var two := After(cfg, jobs, n);
    ServedFacts(cfg, one, two, w);
    SoundWidth(cfg, two, u);
    ReadServed(cfg, start, one, 0, u);
    ReadServed(cfg, one, two, 1, u);
    SecondReader(ColumnOf(cfg, start.caches, u), ColumnOf(cfg, one.caches, u), ColumnOf(cfg, two.caches, u));
  }

  lemma SecondReader(column: Column, one: Column, two: Column)
    requires 2 <= |column| && NoCopies(column) && WasRead(DRAGON, column, 0, one) && WasRead(DRAGON, one, 1, two)
    ensures two[1] == SharedClean
  {
    assert one[0] != Invalid && one[1] == Invalid && !Alone(one, 1);
  }

  /** The bus knows that the write is shared and that an update will follow. */
  lemma MistakenUpdate(cfg: Config, s: SystemState, t: nat, u: nat, v: Versions)
    requires Sound(cfg, s) && cfg.protocol == DRAGON && s.bus.inUse && s.bus.endCycle <= s.cycle + 1
    requires u != t && SnoopedTag(t) == u && PendingFor(cfg, s, t).Some?
    requires PendingFor(cfg, s, t).value.k == 0 && PendingFor(cfg, s, t).value.write
    requires PendingFor(cfg, s, t).value.shared
    requires 1 < |ColumnOf(cfg, s.caches, u)| == |v.held| && ColumnOf(cfg, s.caches, u)[1] == SharedClean
    ensures !Fresh(ColumnOf(cfg, Step(cfg, s).caches, u),
                   VersionsNext(cfg.protocol, BlockView(cfg, s, u), EventOf(cfg, s, u), v))
  {
    hide Orderly, AllCoherent, Timely, Step, ColumnOf, EventOf, PushesOut, SnoopedTag, BlockOf;
    CompletionEventIs(cfg, s, u);
    StepRefines(cfg, s, u);
    ViewColumn(cfg, s, u);
    ViewColumn(cfg, Step(cfg, s), u);
    var event := EventOf(cfg, s, u);
    assert event.Foreign? && event.k == 0 && event.mistaken == Some(BusRdX);
    var b := BlockView(cfg, s, u);
    var v' := VersionsNext(DRAGON, b, event, v);
    var after := BlockNext(DRAGON, Fits(u), b, event).column;
    assert after[1] == SharedClean && v'.held[1] == -1;
  }

  /** Dragon, two caches share a block; one writes a block whose requests are taken for requests about it.
      The other takes the update over into the wrong block. */
  lemma MistakenUpdateIsStale(cfg: Config, a: nat) returns (n: nat)
    requires ValidConfig(cfg) && cfg.protocol == DRAGON && 2 <= cfg.numProcessors && Fits(BlockOf(cfg, a))
    ensures var t := BlockOf(cfg, a);
            var jobs := [Job('R', a, 0), Job('R', a, 1), Job('W', AddressOf(cfg, AliasOf(t)), 0)];
            !Fresh(ColumnOf(cfg, After(cfg, jobs, n).caches, t), VersionsAfter(cfg, jobs, t, n))
  {
    hide Sound, Run, VersionsRun, ColumnOf, BlockOf, NoCopies, InitialSystem, SnoopedTag, AliasOf, AddressOf, Fresh,
         Step, EventOf, BlockView, VersionsNext, Waiting, PendingFor;
    var u := BlockOf(cfg, a);
    var t := AliasOf(u);
    var jobs := [Job('R', a, 0), Job('R', a, 1), Job('W', AddressOf(cfg, t), 0)];
    var m := ReadTwice(cfg, a, t, jobs);
    var s := After(cfg, jobs, m);
    var wait := UpdateApproaches(cfg, s, t, u);
    var last := Run(cfg, Step(cfg, s), wait);
    n := m + 1 + wait + 1;
    RunAdds(cfg, InitialSystem(cfg, jobs), m, 1 + wait);
    RunFirst(cfg, s, wait);
    RunThen(cfg, InitialSystem(cfg, jobs), m + 1 + wait);
    RunsAreUnsaved(cfg, jobs, u, m + 1 + wait);
    SoundWidth(cfg, last, u);
    LastVersion(cfg, jobs, u, m + 1 + wait);
    MistakenUpdate(cfg, last, t, u, VersionsAfter(cfg, jobs, u, m + 1 + wait));
  }

  lemma LastVersion(cfg: Config, jobs: seq<Job>, t: nat, n: nat)
    ensures var s := After(cfg, jobs, n);
            VersionsAfter(cfg, jobs, t, n + 1)
            == VersionsNext(cfg.protocol, BlockView(cfg, s, t), EventOf(cfg, s, t), VersionsAfter(cfg, jobs, t, n))
  {
    hide InitialSystem, NoWrites, Step, VersionsNext, BlockView, EventOf;
  }

  /** The read half of the write, up to the iteration that completes it. */
  lemma UpdateApproaches(cfg: Config, s: SystemState, t: nat, u: nat) returns (wait: nat)
    requires Ready(cfg, s) && cfg.protocol == DRAGON && IsWrite(s.outstanding[0]) && s.outstanding[0].threadId == 0
    requires BlockOf(cfg, s.outstanding[0].address) == t && SnoopedTag(t) == u && u != t
    requires NoCopies(ColumnOf(cfg, s.caches, t)) && 1 < |ColumnOf(cfg, s.caches, u)|
    requires ColumnOf(cfg, s.caches, u)[1] == SharedClean
    ensures var last := Run(cfg, Step(cfg, s), wait);
            && Sound(cfg, last) && last.bus.inUse && last.bus.endCycle <= last.cycle + 1
               && PendingFor(cfg, last, t).Some?
            && PendingFor(cfg, last, t).value.k == 0 && PendingFor(cfg, last, t).value.write
               && PendingFor(cfg, last, t).value.shared
            && 1 < |ColumnOf(cfg, last.caches, u)| && ColumnOf(cfg, last.caches, u)[1] == SharedClean
  {
    var asked := Step(cfg, s);
    hide Sound, Run, ColumnOf, BlockOf, NoCopies, SnoopedTag, Step, EventOf, BlockView, Waiting, PendingFor, BlockNext,
         ToldShared, StateIn, CommandFor, SnoopAll, BusJob, JobCycles;
    AbsentWriteIsShared(cfg, s, t, u);
    ForeignEvent(cfg, s, 0, t, u);
    BusJobEvents(cfg, s, u);
    BusJobEvents(cfg, s, t);
    BusJobLasts(cfg, s);
    StepKeepsSound(cfg, s);
    IssueIsPending(cfg.protocol, Fits(t), ColumnOf(cfg, s.caches, t), 0, true, true);
    ForeignMove(cfg.protocol, Fits(u), ColumnOf(cfg, s.caches, u), 0, false, Some(BusRd));
    SharerStays(ColumnOf(cfg, s.caches, u));
    wait := WaitForBus(cfg, asked, t, u);
    ViewPending(cfg, asked, t);
    ViewPending(cfg, Run(cfg, asked, wait), t);
    WaitedViews(cfg, asked, Run(cfg, asked, wait), t, u);
    ViewColumn(cfg, asked, u);
  }

  lemma SharerStays(column: Column)
    requires 1 < |column| && column[1] == SharedClean
    ensures |SnoopAll(DRAGON, BusRd, 0, column)| == |column| && SnoopAll(DRAGON, BusRd, 0, column)[1] == SharedClean
  {
  }

  lemma AbsentWriteIsShared(cfg: Config, s: SystemState, t: nat, u: nat)
    requires Ready(cfg, s) && cfg.protocol == DRAGON && IsWrite(s.outstanding[0]) && s.outstanding[0].threadId == 0
    requires BlockOf(cfg, s.outstanding[0].address) == t && SnoopedTag(t) == u
    requires NoCopies(ColumnOf(cfg, s.caches, t)) && 1 < |ColumnOf(cfg, s.caches, u)|
    requires ColumnOf(cfg, s.caches, u)[1] == SharedClean
    ensures BusJobOf(cfg, s, 0, t) && ToldShared(cfg, s.caches, s.outstanding[0])
    ensures CommandFor(cfg.protocol, true, StateIn(cfg, s.caches[0], t)) == BusRd
  {
    ColumnHolds(cfg, s.caches, t);
    hide Sound, StateIn, BlockOf, SnoopedTag, ColumnOf;
    assert StateIn(cfg, s.caches[0], t) == Invalid;
    assert Shares(DRAGON, BusRd, ColumnOf(cfg, s.caches, u)[1]);
  }
}
