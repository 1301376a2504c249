/** Where coherence ends: blocks whose number a request cannot carry, and MOESI's exclusive grants. */
module Limits {
  import opened Constants
  import opened Requests
  import opened Sets
  import opened CacheModel
  import opened Coherence
  import opened Freshness
  import opened SystemModel
  import opened BusLemmas
  import opened Refinement
  import opened Runs
  import opened Serving
  import opened JobResults
  import opened Staleness
  import opened Recency
  import opened Overwriting

  // ---------------------------------------------------------------------------------------------
  // Where coherence ends: blocks whose number a request cannot carry.

  /** The job with which a cache that hears nobody becomes a supplier. */
  function FillingJob(protocol: Protocol, address: nat, k: nat): Job {
    Job(if protocol == MSI then 'W' else 'R', address, k)
  }

  function FilledAs(protocol: Protocol): State {
    if protocol == MSI then Modified else Exclusive
  }

  lemma UnheardFill(protocol: Protocol, column: Column, k: nat)
    requires k < |column| && column[k] == Invalid
    ensures AfterJob(protocol, false, column, k, protocol == MSI, false) == column[k := FilledAs(protocol)]
  {
  }

  lemma ServeUnheard(cfg: Config, s: SystemState, address: nat, k: nat) returns (m: nat)
    requires Ready(cfg, s) && s.outstanding[0] == FillingJob(cfg.protocol, address, k)
    requires !Fits(BlockOf(cfg, address)) && StateAt(ColumnOf(cfg, s.caches, BlockOf(cfg, address)), k) == Invalid
    requires NoCopies(ColumnOf(cfg, s.caches, SnoopedTag(BlockOf(cfg, address))))
    ensures var t := BlockOf(cfg, address);
            var s' := Run(cfg, s, m);
            && Sound(cfg, s') && NoJobs(s'.caches) && s'.outstanding == s.outstanding[1..]
            && ColumnOf(cfg, s'.caches, t) == SetAt(ColumnOf(cfg, s.caches, t), k, FilledAs(cfg.protocol))
            && NoCopies(ColumnOf(cfg, s'.caches, SnoopedTag(t)))
  {
    var t := BlockOf(cfg, address);
    hide Sound, Run, JobCycles, AfterJob, AnyShares, NoCopies, ColumnOf, StateIn, BlockOf, SnoopedTag, CommandFor;
    m := ServeJob(cfg, s, SnoopedTag(t));
    NobodyAnswers(cfg.protocol, CommandFor(cfg.protocol, IsWrite(s.outstanding[0]), StateIn(cfg, s.caches[k], t)), k,
                  ColumnOf(cfg, s.caches, SnoopedTag(t)));
    ColumnHolds(cfg, s.caches, t);
    UnheardFill(cfg.protocol, ColumnOf(cfg, s.caches, t), k);
  }

  /** Two caches ask for the same block; neither hears of the other. */
  lemma UnheardPair(cfg: Config, address: nat) returns (jobs: seq<Job>, n: nat)
    requires ValidConfig(cfg) && 2 <= cfg.numProcessors && !Fits(BlockOf(cfg, address))
    ensures HeldAfter(cfg, jobs, n, 0, BlockOf(cfg, address)) == FilledAs(cfg.protocol)
    ensures HeldAfter(cfg, jobs, n, 1, BlockOf(cfg, address)) == FilledAs(cfg.protocol)
  {
    var t := BlockOf(cfg, address);
    hide Sound, Run, NoCopies, ColumnOf, StateIn, BlockOf, SnoopedTag, InitialSystem;
    jobs := [FillingJob(cfg.protocol, address, 0), FillingJob(cfg.protocol, address, 1)];
    StartIsReady(cfg, jobs, t);
    StartIsReady(cfg, jobs, SnoopedTag(t));
    var s := After(cfg, jobs, 0);
    NoCopiesAt(ColumnOf(cfg, s.caches, t));
    var m := ServeUnheard(cfg, s, address, 0);
    RunAdds(cfg, InitialSystem(cfg, jobs), 0, m);
    var s1 := After(cfg, jobs, m);
    SoundWidth(cfg, s1, t);
    assert StateAt(ColumnOf(cfg, s1.caches, t), 1) == StateAt(ColumnOf(cfg, s.caches, t), 1);
    var m1 := ServeUnheard(cfg, s1, address, 1);
    RunAdds(cfg, InitialSystem(cfg, jobs), m, m1);
    n := m + m1;
  }

  lemma NoCopiesAt(column: Column)
    requires NoCopies(column)
    ensures forall i :: StateAt(column, i) == Invalid
  {
  }

  /** In every run at most one cache supplies a block, exactly when the block's number survives its way
      through the bus request. */
  lemma SupplierUniqueExactly(cfg: Config, address: nat)
    requires ValidConfig(cfg) && 2 <= cfg.numProcessors
    ensures (forall jobs, n: nat :: UniqueSupplier(ColumnOf(cfg, After(cfg, jobs, n).caches, BlockOf(cfg, address))))
            <==> Fits(BlockOf(cfg, address))
  {
    var t := BlockOf(cfg, address);
    hide After, Coherent, StateIn, BlockOf, SnoopedTag, InitialSystem;
    if Fits(t) {
      forall jobs, n: nat
        ensures UniqueSupplier(ColumnOf(cfg, After(cfg, jobs, n).caches, t))
      {
        RunsAreCoherent(cfg, jobs, n, t);
        CoherentSupplier(cfg.protocol, BlockView(cfg, After(cfg, jobs, n), t));
      }
    } else {
      var jobs, n := UnheardPair(cfg, address);
      assert !UniqueSupplier(ColumnOf(cfg, After(cfg, jobs, n).caches, t));
    }
  }

  lemma CoherentSupplier(protocol: Protocol, b: BlockState)
    requires Coherent(protocol, b)
    ensures UniqueSupplier(b.column) && (protocol != MOESI ==> SingleWriter(b.column))
  {
  }

  /** And so it is with single writer in MSI, MESI and Dragon. */
  lemma SingleWriterExactly(cfg: Config, address: nat)
    requires ValidConfig(cfg) && 2 <= cfg.numProcessors && cfg.protocol != MOESI
    ensures (forall jobs, n: nat :: SingleWriter(ColumnOf(cfg, After(cfg, jobs, n).caches, BlockOf(cfg, address))))
            <==> Fits(BlockOf(cfg, address))
  {
    var t := BlockOf(cfg, address);
    hide After, Coherent, StateIn, BlockOf, SnoopedTag, InitialSystem;
    if Fits(t) {
      forall jobs, n: nat
        ensures SingleWriter(ColumnOf(cfg, After(cfg, jobs, n).caches, t))
      {
        RunsAreCoherent(cfg, jobs, n, t);
        CoherentSupplier(cfg.protocol, BlockView(cfg, After(cfg, jobs, n), t));
      }
    } else {
      var jobs, n := UnheardPair(cfg, address);
      assert !SingleWriter(ColumnOf(cfg, After(cfg, jobs, n).caches, t));
    }
  }

  // ---------------------------------------------------------------------------------------------
  // Where MOESI breaks single writer.

  /** The column after a heard MOESI read. */
  function ReadOnce(column: Column, k: nat): Column {
    AfterJob(MOESI, true, column, k, false, AnyShares(MOESI, BusRd, k, column))
  }

  lemma ServeRead(cfg: Config, s: SystemState, address: nat, k: nat, u: nat) returns (m: nat)
    requires cfg.protocol == MOESI && Ready(cfg, s) && s.outstanding[0] == Job('R', address, k)
    requires Fits(BlockOf(cfg, address))
    requires u != BlockOf(cfg, address)
    ensures var t := BlockOf(cfg, address);
            var s' := Run(cfg, s, m);
            && Sound(cfg, s') && NoJobs(s'.caches) && s'.outstanding == s.outstanding[1..]
            && ColumnOf(cfg, s'.caches, t) == ReadOnce(ColumnOf(cfg, s.caches, t), k)
            && (NoCopies(ColumnOf(cfg, s.caches, u)) ==> NoCopies(ColumnOf(cfg, s'.caches, u)))
    ensures m == JobCycles(cfg, s)
  {
    assert SnoopedTag(BlockOf(cfg, address)) == BlockOf(cfg, address);
    hide Sound, Run, JobCycles, AfterJob, AnyShares, NoCopies, ColumnOf, StateIn, BlockOf, SnoopedTag;
    m := ServeJob(cfg, s, u);
  }

  lemma ReadAlone(column: Column, k: nat)
    requires k < |column| && column[k] == Invalid
             && forall j | 0 <= j < |column| :: column[j] == Invalid || column[j] == Shared
    ensures ReadOnce(column, k) == column[k := Exclusive]
  {
    SnoopedColumn(MOESI, BusRd, k, column);
    assert SetAt(column, k, Invalid) == column;
    assert SnoopAll(MOESI, BusRd, k, column) == column;
    assert !AnyShares(MOESI, BusRd, k, column);
  }

  lemma ExclusiveIsShared(column: Column)
    requires 2 <= |column| && NoCopies(column)
    ensures SnoopAll(MOESI, BusRd, 1, column[0 := Exclusive]) == column[0 := Shared]
  {
    SnoopedColumn(MOESI, BusRd, 1, column[0 := Exclusive]);
  }

  /** Cache k reads a block that nobody holds and whose requests are taken for requests about block u. */
  lemma ServeAlias(cfg: Config, s: SystemState, address: nat, k: nat, u: nat) returns (m: nat)
    requires cfg.protocol == MOESI && Ready(cfg, s) && s.outstanding[0] == Job('R', address, k)
    requires SnoopedTag(BlockOf(cfg, address)) == u && u != BlockOf(cfg, address)
    requires NoCopies(ColumnOf(cfg, s.caches, BlockOf(cfg, address)))
    requires StateAt(ColumnOf(cfg, s.caches, u), k) == Invalid
    ensures var s' := Run(cfg, s, m);
            && Sound(cfg, s') && NoJobs(s'.caches) && s'.outstanding == s.outstanding[1..]
            && ColumnOf(cfg, s'.caches, u) == SnoopAll(MOESI, BusRd, k, ColumnOf(cfg, s.caches, u))
  {
    var t := BlockOf(cfg, address);
    hide Sound, Run, JobCycles, ColumnOf, StateIn, BlockOf, SnoopedTag, SnoopAll, OneTransaction;
    m := ServeJob(cfg, s, u);
    ServedIsSound(cfg, s, Run(cfg, s, m), u);
    ServedIsNext(cfg, s, Run(cfg, s, m), u);
    SoundWidth(cfg, s, u);
    ColumnHolds(cfg, s.caches, t);
    ColumnHolds(cfg, s.caches, u);
    AbsentTakesBus(cfg, s, k, t);
    ReadsAsk(cfg.protocol, StateIn(cfg, s.caches[k], t));
    ForeignJob(cfg, s, k, t, u);
  }

  /** Two caches: the first reads a block; the second reads one whose requests are taken for requests about
      it, which makes the first copy a shared one, and then the block itself, which it is granted
      exclusively. */
  lemma TwoReaders(cfg: Config, address: nat, rest: seq<Job>) returns (n: nat)
    requires ValidConfig(cfg) && cfg.protocol == MOESI && 2 <= cfg.numProcessors && Fits(BlockOf(cfg, address))
    ensures var t := BlockOf(cfg, address);
            var jobs := [Job('R', address, 0), Job('R', AddressOf(cfg, AliasOf(t)), 1), Job('R', address, 1)] + rest;
            && HeldAfter(cfg, jobs, n, 0, t) == Shared && HeldAfter(cfg, jobs, n, 1, t) == Exclusive
            && NoJobs(After(cfg, jobs, n).caches) && After(cfg, jobs, n).outstanding == rest
  {
    hide Sound, Run, NoCopies, ColumnOf, StateIn, BlockOf, SnoopedTag, InitialSystem, ReadOnce, SnoopAll, AliasOf,
         AddressOf;
    var t := BlockOf(cfg, address);
    var alias := AddressOf(cfg, AliasOf(t));
    var jobs := [Job('R', address, 0), Job('R', alias, 1), Job('R', address, 1)] + rest;
    var start := InitialSystem(cfg, jobs);
    StartIsReady(cfg, jobs, t);
    StartIsReady(cfg, jobs, AliasOf(t));
    RunZero(cfg, jobs, t);
    var column := ColumnOf(cfg, start.caches, t);
    EmptyAt(column);
    var m0 := ServeRead(cfg, start, address, 0, AliasOf(t));
    var one := After(cfg, jobs, m0);
    SoundWidth(cfg, one, t);
    ReadAlone(column, 0);
    var m1 := ServeAlias(cfg, one, alias, 1, t);
    RunAdds(cfg, start, m0, m1);
    ExclusiveIsShared(column);
    var two := After(cfg, jobs, m0 + m1);
    SoundWidth(cfg, two, t);
    var m2 := ServeRead(cfg, two, address, 1, t + 1);
    RunAdds(cfg, start, m0 + m1, m2);
    ReadAlone(column[0 := Shared], 1);
    n := m0 + m1 + m2;
  }

  /** In MOESI single writer holds in all runs exactly when there are fewer than two processors. */
  lemma MoesiSingleWriterExactly(cfg: Config, address: nat)
    requires ValidConfig(cfg) && cfg.protocol == MOESI && Fits(BlockOf(cfg, address))
    ensures (forall jobs, n: nat :: SingleWriter(ColumnOf(cfg, After(cfg, jobs, n).caches, BlockOf(cfg, address))))
            <==> cfg.numProcessors < 2
  {
    var t := BlockOf(cfg, address);
    hide After, StateIn, BlockOf, SnoopedTag, InitialSystem, AliasOf, AddressOf;
    if cfg.numProcessors < 2 {
      forall jobs, n: nat
        ensures SingleWriter(ColumnOf(cfg, After(cfg, jobs, n).caches, t))
      {
        RunsAreSound(cfg, jobs, n);
        SoundWidth(cfg, After(cfg, jobs, n), t);
      }
    } else {
      var jobs := [Job('R', address, 0), Job('R', AddressOf(cfg, AliasOf(t)), 1), Job('R', address, 1)] + [];
      var n := TwoReaders(cfg, address, []);
      assert !SingleWriter(ColumnOf(cfg, After(cfg, jobs, n).caches, t));
    }
  }

  /** And only one kind of event breaks it: the completion of a read that was told nobody supplies the block
      while others hold it. */
  lemma SingleWriterInMoesi(b: BlockState, event: Event)
    requires Coherent(MOESI, b) && Enabled(MOESI, true, b, event) && SingleWriter(b.column)
    ensures SingleWriter(BlockNext(MOESI, true, b, event).column)
            <==> !(event.Complete? && !b.pending.value.write && !b.pending.value.shared
                   && !Alone(b.column, b.pending.value.k))
  {
    hide Coherent, BlockNext, SingleWriter, AnyShares;
    match event
    case Foreign(k, evicted, mistaken) => ForeignKeepsSingle(b, event);
    case SilentWrite(k) => SilentKeepsSingle(b, event);
    case Issue(k, write, shared) => IssueKeepsSingle(b, event);
    case Complete => CompletionKeepsSingle(b);
  }

  lemma ForeignKeepsSingle(b: BlockState, event: Event)
    requires Enabled(MOESI, true, b, event) && SingleWriter(b.column) && event.Foreign?
    ensures SingleWriter(BlockNext(MOESI, true, b, event).column)
  {
    var after := BlockNext(MOESI, true, b, event).column;
    if event.evicted || event.mistaken.Some? {
      var column := if event.evicted then SetAt(b.column, event.k, Invalid) else b.column;
      assert SingleWriter(column);
      assert forall i | 0 <= i < |after| :: WritesSilently(after[i]) ==> WritesSilently(column[i]);
      assert forall i | 0 <= i < |after| :: column[i] == Invalid ==> after[i] == Invalid;
    }
  }

  lemma SilentKeepsSingle(b: BlockState, event: Event)
    requires Enabled(MOESI, true, b, event) && SingleWriter(b.column) && event.SilentWrite?
    ensures SingleWriter(BlockNext(MOESI, true, b, event).column)
  {
  }

  lemma IssueKeepsSingle(b: BlockState, event: Event)
    requires Coherent(MOESI, b) && Enabled(MOESI, true, b, event) && SingleWriter(b.column) && event.Issue?
    ensures SingleWriter(BlockNext(MOESI, true, b, event).column)
  {
    var after := BlockNext(MOESI, true, b, event).column;
    var command := CommandFor(MOESI, event.write, b.column[event.k]);
    forall i | 0 <= i < |b.column|
      ensures InProtocol(MOESI, b.column[i])
    {
    }
    assert forall i | 0 <= i < |after| && i != event.k :: after[i] == SnoopState(MOESI, command, b.column[i]);
    hide Coherent, AnyShares;
  }

  lemma CompletionKeepsSingle(b: BlockState)
    requires Coherent(MOESI, b) && b.pending.Some? && SingleWriter(b.column)
    ensures SingleWriter(BlockNext(MOESI, true, b, Complete).column)
            <==> !(!b.pending.value.write && !b.pending.value.shared && !Alone(b.column, b.pending.value.k))
  {
    var p := b.pending.value;
    var after := BlockNext(MOESI, true, b, Complete).column;
    assert forall i | 0 <= i < |after| && i != p.k :: after[i] == b.column[i];
    if !p.write && !p.shared {
      assert after[p.k] == Exclusive;
      if j :| 0 <= j < |b.column| && j != p.k && b.column[j] != Invalid {
        assert !Alone(after, p.k);
      }
    }
  }

  lemma SilentWriteStales(protocol: Protocol, b: BlockState, k: nat, j: nat, v: Versions)
    requires Fresh(b.column, v) && j < |b.column| && j != k && b.column[j] != Invalid
    ensures !Fresh(BlockNext(protocol, true, b, SilentWrite(k)).column, VersionsNext(protocol, b, SilentWrite(k), v))
  {
    assert BlockNext(protocol, true, b, SilentWrite(k)).column[j] == b.column[j];
  }

  /** A silent write beside another copy leaves that copy stale, unless it was so already. */
  lemma WritesBeside(cfg: Config, jobs: seq<Job>, n: nat, address: nat, k: nat, j: nat) returns (n': nat)
    requires ValidConfig(cfg) && Fits(BlockOf(cfg, address)) && j != k
    requires NoJobs(After(cfg, jobs, n).caches) && After(cfg, jobs, n).outstanding == [Job('W', address, k)]
    requires WritesSilently(HeldAfter(cfg, jobs, n, k, BlockOf(cfg, address)))
    requires HeldAfter(cfg, jobs, n, j, BlockOf(cfg, address)) != Invalid
    ensures !Fresh(ColumnOf(cfg, After(cfg, jobs, n').caches, BlockOf(cfg, address)),
                   VersionsAfter(cfg, jobs, BlockOf(cfg, address), n'))
  {
    hide Orderly, Step, ColumnOf, StateIn, BlockOf, SnoopedTag, Fresh, VersionsNext, Coherent, BlockNext, Enabled,
         BlockView, PendingFor;
    var t := BlockOf(cfg, address);
    var s := After(cfg, jobs, n);
    var v := VersionsAfter(cfg, jobs, t, n);
    n' := n;
    if Fresh(ColumnOf(cfg, s.caches, t), v) {
      RunsAreOrderly(cfg, jobs, n);
      StepRefines(cfg, s, t);
      ViewColumn(cfg, s, t);
      ViewColumn(cfg, Step(cfg, s), t);
      SilentEvent(cfg, s, t, Job('W', address, k));
      SilentWriteStales(cfg.protocol, BlockView(cfg, s, t), k, j, v);
      n' := n + 1;
    }
  }

  /** Then a silent write by the second cache leaves the first with a stale copy. */
  lemma MoesiGoesStale(cfg: Config, address: nat) returns (jobs: seq<Job>, n: nat)
    requires ValidConfig(cfg) && cfg.protocol == MOESI && 2 <= cfg.numProcessors && Fits(BlockOf(cfg, address))
    ensures !Fresh(ColumnOf(cfg, After(cfg, jobs, n).caches, BlockOf(cfg, address)),
                   VersionsAfter(cfg, jobs, BlockOf(cfg, address), n))
  {
    hide After, ColumnOf, BlockOf, Fresh, VersionsAfter, AliasOf, AddressOf;
    var t := BlockOf(cfg, address);
    var write := Job('W', address, 1);
    jobs := [Job('R', address, 0), Job('R', AddressOf(cfg, AliasOf(t)), 1), Job('R', address, 1)] + [write];
    n := TwoReaders(cfg, address, [write]);
    n := WritesBeside(cfg, jobs, n, address, 1, 0);
  }

  lemma SilentEvent(cfg: Config, s: SystemState, t: nat, job: Job)
    requires NoJobs(s.caches) && s.outstanding == [job] && IsWrite(job) && BlockOf(cfg, job.address) == t
    requires WritesSilently(StateAt(ColumnOf(cfg, s.caches, t), job.threadId))
    ensures EventOf(cfg, s, t) == SilentWrite(job.threadId)
  {
    ColumnHolds(cfg, s.caches, t);
    hide ColumnOf, StateIn, BlockOf;
  }

  // ---------------------------------------------------------------------------------------------
  // Nor is it only for requests about the wrong block: the same with blocks whose numbers fit.

  lemma TwoReads(column: Column, one: Column, two: Column)
    requires 2 <= |column| && NoCopies(column) && WasRead(MOESI, column, 0, one) && WasRead(MOESI, one, 1, two)
    ensures |two| == |column| && two[1] == Shared && forall i | 2 <= i < |column| :: two[i] == Invalid
  {
    assert one[0] == Exclusive && one[1] == Invalid && Supplies(one[0]);
  }

  lemma ThirdRead(column: Column, after: Column)
    requires 2 <= |column| && WasRead(MOESI, column, 0, after)
    requires column[0] == Invalid && column[1] == Shared && forall i | 2 <= i < |column| :: column[i] == Invalid
    ensures |after| == |column| && after[0] == Exclusive && after[1] == Shared
  {
  }

  /** Two caches read a block, the first reads others of the same set until it has lost it, and reads and writes
      it again. */
  function Rereading(address: nat, others: seq<nat>): seq<Job> {
    [Job('R', address, 0), Job('R', address, 1)] + Reads(0, others) + [Job('R', address, 0), Job('W', address, 0)]
  }

  lemma RereadingCrowds(cfg: Config, address: nat, others: seq<nat>)
    requires ValidConfig(cfg) && 2 <= cfg.numProcessors && Fits(BlockOf(cfg, address))
    requires Rivals(cfg, BlockOf(cfg, address), others)
    ensures CrowdsOut(cfg, Rereading(address, others), 2, 0, BlockOf(cfg, address), others)
  {
    hide BlockOf, SetOf;
    var jobs := Rereading(address, others);
    var t := BlockOf(cfg, address);
    assert SnoopedTag(t) == t;
    hide Fits, SnoopedTag;
    assert jobs[2..2 + |others|] == Reads(0, others);
    assert jobs[..2] == [Job('R', address, 0), Job('R', address, 1)];
    NothingSince(cfg, jobs[..2][..1], 0, t);
    assert Uses(cfg, jobs[..2][0], 0, t);
  }

  /** How the first two reads and the reads of the others leave the block: shared in cache 1, gone from cache 0. */
  lemma RereadingLoses(cfg: Config, address: nat, others: seq<nat>, times: seq<nat>)
    requires ValidConfig(cfg) && cfg.protocol == MOESI && 2 <= cfg.numProcessors && Fits(BlockOf(cfg, address))
    requires Rivals(cfg, BlockOf(cfg, address), others)
    requires var jobs := Rereading(address, others);
             && |times| == |jobs| + 1 && times[0] == 0
             && forall j | 0 <= j < |jobs| :: ServedBetween(cfg, jobs, j, times[j], times[j + 1])
    ensures var jobs := Rereading(address, others);
            var column := ColumnOf(cfg, After(cfg, jobs, times[2 + |others|]).caches, BlockOf(cfg, address));
            && |column| == cfg.numProcessors && column[0] == Invalid && column[1] == Shared
            && forall i | 2 <= i < |column| :: column[i] == Invalid
  {
    hide After, ServedBetween, BlockOf, ColumnOf, Fits, Satisfied, Sound, NoCopies, WasRead, CrowdsOut, Rivals,
         HeldAfter;
    var jobs := Rereading(address, others);
    var t := BlockOf(cfg, address);
    var count := 2 + |others|;
    StartIsReady(cfg, jobs, t);
    BetweenSatisfied(cfg, jobs, 0, times[0], times[1]);
    BetweenSatisfied(cfg, jobs, 1, times[1], times[2]);
    ReadServed(cfg, After(cfg, jobs, times[0]), After(cfg, jobs, times[1]), 0, t);
    ReadServed(cfg, After(cfg, jobs, times[1]), After(cfg, jobs, times[2]), 1, t);
    TwoReads(ColumnOf(cfg, After(cfg, jobs, times[0]).caches, t), ColumnOf(cfg, After(cfg, jobs, times[1]).caches, t),
             ColumnOf(cfg, After(cfg, jobs, times[2]).caches, t));
    RereadingCrowds(cfg, address, others);
    RivalCount(cfg, t, others);
    CrowdHolds(cfg, jobs, times, 2, 0, t, others, |others|);
    ColumnAfter(cfg, jobs, times[2], t);
    ColumnAfter(cfg, jobs, times[count], t);
    forall i | 1 <= i < cfg.numProcessors
      ensures HeldAfter(cfg, jobs, times[count], i, t) == HeldAfter(cfg, jobs, times[2], i, t)
    {
      PeersStay(cfg, jobs, times, 2, 0, t, others, |others|, i);
    }
  }

  lemma RivalCount(cfg: Config, u: nat, others: seq<nat>)
    requires Rivals(cfg, u, others)
    ensures |others| == cfg.numLinesInSet
  {
    hide BlockOf, SetOf, Fits;
  }

  /** It is granted exclusively what the second cache still shares, and then it writes silently. */
  lemma MoesiGoesStaleByRereading(cfg: Config, address: nat, others: seq<nat>) returns (n: nat, n': nat)
    requires ValidConfig(cfg) && cfg.protocol == MOESI && 2 <= cfg.numProcessors && Fits(BlockOf(cfg, address))
    requires Rivals(cfg, BlockOf(cfg, address), others)
    ensures var t := BlockOf(cfg, address);
            var jobs := Rereading(address, others);
            && !SingleWriter(ColumnOf(cfg, After(cfg, jobs, n).caches, t))
            && !Fresh(ColumnOf(cfg, After(cfg, jobs, n').caches, t), VersionsAfter(cfg, jobs, t, n'))
  {
    hide After, ServedBetween, BlockOf, ColumnOf, Fits, Satisfied, WasRead, Rivals, Fresh, VersionsAfter;
    var jobs := Rereading(address, others);
    var t := BlockOf(cfg, address);
    var count := 2 + |others|;
    var times := TraceIsServed(cfg, jobs, |jobs|);
    RereadingLoses(cfg, address, others, times);
    BetweenSatisfied(cfg, jobs, count, times[count], times[count + 1]);
    ReadServed(cfg, After(cfg, jobs, times[count]), After(cfg, jobs, times[count + 1]), 0, t);
    n := times[count + 1];
    ThirdRead(ColumnOf(cfg, After(cfg, jobs, times[count]).caches, t), ColumnOf(cfg, After(cfg, jobs, n).caches, t));
    BetweenEnds(cfg, jobs, count, times[count], n);
    assert jobs[count + 1..] == [Job('W', address, 0)];
    n' := WritesBeside(cfg, jobs, n, address, 0, 1);
  }
}
