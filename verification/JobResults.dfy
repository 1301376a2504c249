/** What jobs do: the states a read or a write leaves in all caches, and the order in which a trace is
    served. */
module JobResults {
  import opened Wrappers
  import opened Constants
  import opened Requests
  import opened Sets
  import opened CacheModel
  import opened Coherence
  import opened SystemModel
  import opened BusLemmas
  import opened Refinement
  import opened Runs
  import opened Timing
  import opened Serving

  // ---------------------------------------------------------------------------------------------
  // One job.

  /** The other caches after a write that went over the bus. */
  ghost predicate PeersAfterWrite(protocol: Protocol, column: Column, k: nat, after: Column) {
    if protocol == DRAGON
    then |after| == |column|
         && forall j | 0 <= j < |column| && j != k :: after[j] == if column[j] == Invalid then Invalid else SharedClean
    else Alone(after, k)
  }

  /** A write miss that nobody answers. */
  ghost predicate LoneMiss(column: Column, k: nat) {
    StateAt(column, k) == Invalid && Alone(column, k)
  }

  /** What a write by cache k owes to the block: the writer ends modified, except that MESI forgets to
      raise a line nobody else had, and that Dragon keeps sharing a shared one. */
  ghost predicate Written(protocol: Protocol, column: Column, k: nat, after: Column)
    requires k < |column|
  {
    if WritesSilently(column[k]) then after == column[k := Modified]
    else
      && |after| == |column|
      && PeersAfterWrite(protocol, column, k, after)
      && after[k] == match protocol
                     case MSI => Modified
                     case MESI => if LoneMiss(column, k) then Invalid else Modified
                     case DRAGON => if LoneMiss(column, k) then Modified else SharedDirty
                     case MOESI => Modified
  }

  ghost predicate HasSupplier(column: Column) {
    exists j | 0 <= j < |column| :: Supplies(column[j])
  }

  /** What a copy becomes when another cache reads the block: a writable one is shared from then on, and one
      that memory may be behind stays answerable for it where the protocol has a state for that. */
  function LentAs(protocol: Protocol, state: State): State {
    if state == Modified then if protocol == DRAGON then SharedDirty else if protocol == MOESI then Owned else Shared
    else if state == Exclusive then if protocol == DRAGON then SharedClean else Shared
    else state
  }

  /** What a read by cache k owes to the block: a hit changes nothing; a miss ends with a valid copy,
      exclusive when the protocol thinks nobody else has one, and leaves every other copy as one that has
      been lent. */
  ghost predicate WasRead(protocol: Protocol, column: Column, k: nat, after: Column)
    requires k < |column|
  {
    if column[k] != Invalid then after == column
    else
      && |after| == |column|
      && (forall j | 0 <= j < |column| && j != k :: after[j] == LentAs(protocol, column[j]))
      && after[k] == match protocol
                     case MSI => Shared
                     case MESI => if Alone(column, k) then Exclusive else Shared
                     case DRAGON => if Alone(column, k) then Exclusive else SharedClean
                     case MOESI => if HasSupplier(column) then Shared else Exclusive
  }

  lemma WriteOutcome(protocol: Protocol, column: Column, k: nat)
    requires Coherent(protocol, BlockState(column, None)) && k < |column|
    ensures var shared := AnyShares(protocol, CommandFor(protocol, true, column[k]), k, column);
            Written(protocol, column, k, AfterJob(protocol, true, column, k, true, shared))
  {
    var shared := AnyShares(protocol, CommandFor(protocol, true, column[k]), k, column);
    if !WritesSilently(column[k]) {
      if protocol == DRAGON {
        if column[k] == Invalid { DragonWriteMiss(column, k); } else { DragonUpdate(column, k); }
      } else {
        InvalidatingWrite(protocol, column, k);
      }
    }
  }

  lemma SnoopedColumn(protocol: Protocol, command: Command, k: nat, column: Column)
    ensures var after := SnoopAll(protocol, command, k, column);
            && |after| == |column|
            && forall j | 0 <= j < |column| :: after[j] == if j == k then column[j]
               else SnoopState(protocol, command, column[j])
  {
    hide SnoopState;
  }

  lemma InvalidatingWrite(protocol: Protocol, column: Column, k: nat)
    requires Coherent(protocol, BlockState(column, None)) && k < |column| && !WritesSilently(column[k])
    requires protocol != DRAGON
    ensures Written(protocol, column, k,
                    Transacted(protocol, true, column, k, true, AnyShares(protocol, BusRdX, k, column)))
  {
    var raised := SetAt(column, k, OwnAtIssue(protocol, true, column[k]));
    SnoopedColumn(protocol, BusRdX, k, raised);
    assert InProtocol(protocol, column[k]) && forall j | 0 <= j < |column| :: InProtocol(protocol, column[j]);
    assert protocol == MESI && AnyShares(MESI, BusRdX, k, column) ==> !Alone(column, k);
    assert protocol == MESI && !Alone(column, k) ==> AnyShares(MESI, BusRdX, k, column);
    hide SnoopAll, AnyShares, Coherent;
  }

  lemma DragonWriteMiss(column: Column, k: nat)
    requires Coherent(DRAGON, BlockState(column, None)) && k < |column| && column[k] == Invalid
    ensures Written(DRAGON, column, k, Transacted(DRAGON, true, column, k, true, AnyShares(DRAGON, BusRd, k, column)))
  {
    assert forall j | 0 <= j < |column| :: InProtocol(DRAGON, column[j]);
    assert SetAt(column, k, Invalid) == column;
    hide Coherent, Written, Transacted;
    if AnyShares(DRAGON, BusRd, k, column) {
      DragonSharedMiss(column, k);
    } else {
      DragonLoneMiss(column, k);
    }
  }

  lemma DragonSharedMiss(column: Column, k: nat)
    requires k < |column| && column[k] == Invalid && SetAt(column, k, Invalid) == column
    requires AnyShares(DRAGON, BusRd, k, column) && forall j | 0 <= j < |column| :: InProtocol(DRAGON, column[j])
    ensures Written(DRAGON, column, k, Transacted(DRAGON, true, column, k, true, true))
  {
    SnoopedColumn(DRAGON, BusRd, k, column);
    var asked := SnoopAll(DRAGON, BusRd, k, column);
    SnoopedColumn(DRAGON, BusRdX, k, asked[k := SharedDirty]);
    assert !Alone(column, k);
    hide SnoopAll, AnyShares;
  }

  lemma DragonLoneMiss(column: Column, k: nat)
    requires k < |column| && column[k] == Invalid && SetAt(column, k, Invalid) == column
    requires !AnyShares(DRAGON, BusRd, k, column) && forall j | 0 <= j < |column| :: InProtocol(DRAGON, column[j])
    ensures Written(DRAGON, column, k, Transacted(DRAGON, true, column, k, true, false))
  {
    SnoopedColumn(DRAGON, BusRd, k, column);
    assert Alone(column, k);
    hide SnoopAll, AnyShares;
  }

  lemma DragonUpdate(column: Column, k: nat)
    requires Coherent(DRAGON, BlockState(column, None)) && k < |column| && !WritesSilently(column[k])
    requires column[k] != Invalid
    ensures Written(DRAGON, column, k, Transacted(DRAGON, true, column, k, true, AnyShares(DRAGON, BusRdX, k, column)))
  {
    assert forall j | 0 <= j < |column| && j != k ::
             column[j] == Invalid || column[j] == SharedClean || column[j] == SharedDirty by {
      assert forall j | 0 <= j < |column| :: InProtocol(DRAGON, column[j]);
    }
    UpdatesAreNotShared(k, column);
    SnoopedColumn(DRAGON, BusRdX, k, column[k := SharedDirty]);
    hide SnoopAll, AnyShares, Coherent;
  }

  lemma ReadOutcome(protocol: Protocol, column: Column, k: nat)
    requires Coherent(protocol, BlockState(column, None)) && k < |column|
    ensures var shared := AnyShares(protocol, BusRd, k, column);
            WasRead(protocol, column, k, AfterJob(protocol, true, column, k, false, shared))
  {
    if column[k] == Invalid {
      var shared := AnyShares(protocol, BusRd, k, column);
      MissSnoops(protocol, column, k);
      assert SetAt(column, k, Invalid) == column;
      hide SnoopAll, AnyShares, Coherent, HasSupplier, SnoopState, LentAs;
    }
  }

  /** What a read miss meets and leaves behind in the other caches. */
  lemma MissSnoops(protocol: Protocol, column: Column, k: nat)
    requires Coherent(protocol, BlockState(column, None)) && k < |column| && column[k] == Invalid
    ensures protocol == MOESI ==> (AnyShares(protocol, BusRd, k, column) <==> HasSupplier(column))
    ensures protocol == MESI || protocol == DRAGON ==> (AnyShares(protocol, BusRd, k, column) <==> !Alone(column, k))
    ensures var after := SnoopAll(protocol, BusRd, k, column);
            && |after| == |column| && after[k] == Invalid
            && forall j | 0 <= j < |column| && j != k :: after[j] == LentAs(protocol, column[j])
  {
    assert forall j | 0 <= j < |column| :: InProtocol(protocol, column[j]);
    SnoopedColumn(protocol, BusRd, k, column);
    hide Coherent;
  }

  /** The job at the head of the trace has done to its block what a read or a write owes to it. */
  ghost predicate Satisfied(cfg: Config, s: SystemState, s': SystemState)
    requires 0 < |s.outstanding| && s.outstanding[0].threadId < |s.caches|
  {
    var job := s.outstanding[0];
    var t := BlockOf(cfg, job.address);
    if IsWrite(job) then Written(cfg.protocol, ColumnOf(cfg, s.caches, t), job.threadId, ColumnOf(cfg, s'.caches, t))
    else WasRead(cfg.protocol, ColumnOf(cfg, s.caches, t), job.threadId, ColumnOf(cfg, s'.caches, t))
  }

  /** Whenever the system rests, serving the next job leaves its block, in all caches, as a read or a
      write has to. */
  lemma JobIsSatisfied(cfg: Config, jobs: seq<Job>, n: nat) returns (m: nat)
    requires Ready(cfg, After(cfg, jobs, n)) && Fits(BlockOf(cfg, After(cfg, jobs, n).outstanding[0].address))
    ensures Satisfied(cfg, After(cfg, jobs, n), After(cfg, jobs, n + m))
    ensures NoJobs(After(cfg, jobs, n + m).caches)
    ensures After(cfg, jobs, n + m).outstanding == After(cfg, jobs, n).outstanding[1..]
    ensures m == JobCycles(cfg, After(cfg, jobs, n))
  {
    hide Sound, Run, JobCycles, Satisfied, BlockOf, Fits, InitialSystem;
    m := ServeReady(cfg, After(cfg, jobs, n));
    RunAdds(cfg, InitialSystem(cfg, jobs), n, m);
  }

  lemma ServedIsSatisfied(cfg: Config, s: SystemState, s': SystemState, u: nat)
    requires Ready(cfg, s) && ServedJob(cfg, s, s', u) && Fits(BlockOf(cfg, s.outstanding[0].address))
    ensures Satisfied(cfg, s, s') && NoJobs(s'.caches) && s'.outstanding == s.outstanding[1..]
  {
    var job := s.outstanding[0];
    var t := BlockOf(cfg, job.address);
    var column := ColumnOf(cfg, s.caches, t);
    assert Coherent(cfg.protocol, BlockState(column, None)) by { RestingColumn(cfg, s, t); }
    assert column[job.threadId] == StateIn(cfg, s.caches[job.threadId], t);
    assert |column| == |s.caches|;
    assert SnoopedTag(t) == t;
    hide Sound, AfterJob, Written, WasRead, StateIn, BlockOf, Coherent, ColumnOf, AnyShares, CommandFor, SnoopedTag;
    if IsWrite(job) {
      WriteOutcome(cfg.protocol, column, job.threadId);
    } else {
      assert CommandFor(cfg.protocol, false, column[job.threadId])
             == BusRd by { ReadsAsk(cfg.protocol, column[job.threadId]); }
      ReadOutcome(cfg.protocol, column, job.threadId);
    }
  }

  lemma ReadsAsk(protocol: Protocol, own: State)
    ensures CommandFor(protocol, false, own) == BusRd
  {
  }

  lemma RestingColumn(cfg: Config, s: SystemState, t: nat)
    requires Sound(cfg, s) && NoJobs(s.caches) && Fits(t)
    ensures Coherent(cfg.protocol, BlockState(ColumnOf(cfg, s.caches, t), None))
  {
    assert Coherent(cfg.protocol, BlockView(cfg, s, t));
    hide Sound, Orderly, AllCoherent, Timely, Coherent;
    SameColumnCoherent(cfg.protocol, BlockView(cfg, s, t));
  }

  // ---------------------------------------------------------------------------------------------
  // The whole trace.

  lemma StartIsReady(cfg: Config, jobs: seq<Job>, t: nat)
    requires ValidConfig(cfg)
    ensures var s := After(cfg, jobs, 0);
            && s.outstanding == jobs && |s.caches| == cfg.numProcessors && Sound(cfg, s) && NoJobs(s.caches)
            && |ColumnOf(cfg, s.caches, t)| == cfg.numProcessors && NoCopies(ColumnOf(cfg, s.caches, t))
  {
    RunsAreSound(cfg, jobs, 0);
    InitialBlock(cfg, jobs, t);
    hide Sound, StateIn, PendingFor;
    ViewColumn(cfg, InitialSystem(cfg, jobs), t);
  }

  lemma SoundWidth(cfg: Config, s: SystemState, t: nat)
    requires Sound(cfg, s)
    ensures |s.caches| == cfg.numProcessors && |ColumnOf(cfg, s.caches, t)| == cfg.numProcessors
  {
    hide StateIn, AllGood, AllCoherent, Timely;
  }

  /** A job that is neither a read nor a write is taken from the trace and forgotten. */
  lemma SkipJob(cfg: Config, s: SystemState, t: nat)
    requires Sound(cfg, s) && NoJobs(s.caches) && 0 < |s.outstanding| && !IsRead(s.outstanding[0])
    requires !IsWrite(s.outstanding[0])
    ensures var s' := Step(cfg, s);
            && Sound(cfg, s') && NoJobs(s'.caches) && s'.outstanding == s.outstanding[1..]
            && ColumnOf(cfg, s'.caches, t) == ColumnOf(cfg, s.caches, t)
  {
    StepKeepsSound(cfg, s);
    assert !BusJob(cfg, s) by { hide StateIn, BlockOf; }
    hide Sound, Orderly, Step, Grant, BeforeBus, BusJob, ColumnOf, BlockOf, StateIn;
    SoundIsOrderly(cfg, s);
    DispatchStep(cfg, s);
    var s1 := BeforeBus(cfg, s);
    HandedOutFreeJob(cfg, s, s1);
    DispatchColumn(cfg, s, s1, t);
    SetSame(ColumnOf(cfg, s.caches, t), s.outstanding[0].threadId);
    assert s1.outstanding == s.outstanding[1..] && NoJobs(s1.caches) by { hide QuietlyTicked, TakesJob; }
    hide HandedOut;
  }

  lemma SoundIsOrderly(cfg: Config, s: SystemState)
    requires Sound(cfg, s)
    ensures ValidConfig(cfg) && Orderly(cfg, s)
  {
    hide Orderly, AllCoherent, Timely;
  }

  /** Between n and n' exactly the job i of the trace has been served, by the processor it names. */
  ghost predicate ServedBetween(cfg: Config, jobs: seq<Job>, i: nat, n: nat, n': nat)
    requires i < |jobs|
  {
    var s, s' := After(cfg, jobs, n), After(cfg, jobs, n');
    var k := jobs[i].threadId;
    var t := BlockOf(cfg, jobs[i].address);
    && n < n' && k < |s.caches|
    && NoJobs(s.caches) && s.outstanding == jobs[i..]
    && NoJobs(s'.caches) && s'.outstanding == jobs[i + 1..]
    && (if IsRead(jobs[i]) || IsWrite(jobs[i])
        then
          && (Fits(t) ==> Satisfied(cfg, s, s'))
          && n' - n == JobCycles(cfg, s)
        else n' == n + 1 && ColumnOf(cfg, s'.caches, t) == ColumnOf(cfg, s.caches, t))
  }

  lemma ServeNext(cfg: Config, jobs: seq<Job>, i: nat, n: nat) returns (n': nat)
    requires ValidConfig(cfg) && i < |jobs| && jobs[i].threadId < cfg.numProcessors
    requires NoJobs(After(cfg, jobs, n).caches) && After(cfg, jobs, n).outstanding == jobs[i..]
    ensures ServedBetween(cfg, jobs, i, n, n')
  {
    var s := After(cfg, jobs, n);
    hide Sound, Run, JobCycles, Satisfied, BlockOf, Fits, InitialSystem, Step, ColumnOf;
    RunsAreSound(cfg, jobs, n);
    SoundWidth(cfg, s, 0);
    assert jobs[i..][0] == jobs[i] && jobs[i..][1..] == jobs[i + 1..] && |jobs[i..]| != |jobs[i + 1..]|;
    if IsRead(jobs[i]) || IsWrite(jobs[i]) {
      var m := ServeReady(cfg, s);
      n' := n + m;
      RunAdds(cfg, InitialSystem(cfg, jobs), n, m);
    } else {
      n' := n + 1;
      SkipJob(cfg, s, BlockOf(cfg, jobs[i].address));
      RunThen(cfg, InitialSystem(cfg, jobs), n);
    }
  }

  lemma ServeReady(cfg: Config, s: SystemState) returns (m: nat)
    requires Ready(cfg, s)
    ensures var s' := Run(cfg, s, m);
            && NoJobs(s'.caches) && s'.outstanding == s.outstanding[1..]
            && (Fits(BlockOf(cfg, s.outstanding[0].address)) ==> Satisfied(cfg, s, s'))
    ensures m == JobCycles(cfg, s)
  {
    hide Sound, Run, JobCycles, Satisfied, ServedJob, BlockOf, Fits;
    var t := BlockOf(cfg, s.outstanding[0].address);
    m := ServeJob(cfg, s, t + 1);
    ServedIsNext(cfg, s, Run(cfg, s, m), t + 1);
    if Fits(t) {
      ServedIsSatisfied(cfg, s, Run(cfg, s, m), t + 1);
    }
  }

  lemma ServedIsNext(cfg: Config, s: SystemState, s': SystemState, u: nat)
    requires Ready(cfg, s) && ServedJob(cfg, s, s', u)
    ensures NoJobs(s'.caches) && s'.outstanding == s.outstanding[1..]
  {
    hide Sound, AfterJob, ToldShared, ColumnOf, BlockOf, NoCopies;
  }

  /** Serialisation without loss: there are moments times[0] < times[1] < ... between which the jobs of
      the trace are served one at a time, in the order of the trace, each by the processor it names and
      in the cycles it needs; the loop stops at the last of them, when all have been served. */
  lemma {:induction false} TraceIsServed(cfg: Config, jobs: seq<Job>, count: nat) returns (times: seq<nat>)
    requires ValidConfig(cfg) && count <= |jobs|
    requires forall i | 0 <= i < |jobs| :: jobs[i].threadId < cfg.numProcessors
    ensures |times| == count + 1 && times[0] == 0
    ensures forall i | 0 <= i < count :: ServedBetween(cfg, jobs, i, times[i], times[i + 1])
    ensures NoJobs(After(cfg, jobs, times[count]).caches) && After(cfg, jobs, times[count]).outstanding == jobs[count..]
    ensures Done(After(cfg, jobs, times[count])) <==> count == |jobs|
  {
    hide After, ServedBetween;
    if count == 0 {
      times := [0];
      StartIsReady(cfg, jobs, 0);
    } else {
      times := TraceIsServed(cfg, jobs, count - 1);
      var next := ServeNext(cfg, jobs, count - 1, times[count - 1]);
      BetweenEnds(cfg, jobs, count - 1, times[count - 1], next);
      times := times + [next];
    }
  }

  lemma BetweenEnds(cfg: Config, jobs: seq<Job>, i: nat, n: nat, n': nat)
    requires i < |jobs| && ServedBetween(cfg, jobs, i, n, n')
    ensures NoJobs(After(cfg, jobs, n').caches) && After(cfg, jobs, n').outstanding == jobs[i + 1..]
  {
    hide After, Satisfied, Fits, JobCycles, ColumnOf, BlockOf;
  }
}
