/** How long things take: the length of every bus transaction is fixed by what the other caches hold,
    and the main loop stops. */
module Timing {
  import opened Bits
  import opened Wrappers
  import opened Constants
  import opened Requests
  import opened Sets
  import opened CacheModel
  import opened Coherence
  import opened CacheLemmas
  import opened SystemModel
  import opened BusLemmas
  import opened Refinement
  import opened Runs

  // ---------------------------------------------------------------------------------------------
  // The length of a transaction.

  ghost predicate PeerIs(column: Column, k: nat, n: nat, state: State) {
    exists i | 0 <= i < |column| && i < n :: i != k && column[i] == state
  }

  /** What a transaction costs beyond its request, from what cache k's peers hold: in MSI and MESI a
      modified copy has to be flushed first; in MESI (and MOESI, but for upgrades) a peer can supply
      the block faster than memory. */
  ghost function PenaltyUpTo(protocol: Protocol, command: Command, cost: int, k: nat, column: Column, n: nat): int {
    match protocol
    case MSI => if PeerIs(column, k, n, Modified) then MEMORY_COST else 0
    case MESI =>
      if PeerIs(column, k, n, Modified) then PEER_COST
      else if PeerIs(column, k, n, Shared) || PeerIs(column, k, n, Exclusive) then PEER_COST - MEMORY_COST else 0
    case DRAGON => 0
    case MOESI =>
      if cost != CACHE_HIT_COST
          && (PeerIs(column, k, n, Modified) || PeerIs(column, k, n, Exclusive) || PeerIs(column, k, n, Owned))
      then PEER_COST - MEMORY_COST else 0
  }

  ghost function Penalty(protocol: Protocol, command: Command, cost: int, k: nat, column: Column): int {
    PenaltyUpTo(protocol, command, cost, k, column, |column|)
  }

  lemma PeerIsNext(column: Column, k: nat, n: nat, state: State)
    requires n < |column|
    ensures PeerIs(column, k, n + 1, state) <==> PeerIs(column, k, n, state) || (n != k && column[n] == state)
  {
  }

  lemma FoundIsPeer(command: Command, k: nat, column: Column, n: nat)
    requires n <= |column| && forall i | 0 <= i < |column| :: InProtocol(MESI, column[i])
    ensures FoundUpTo(MESI, command, k, column, n) <==> PeerIs(column, k, n, Shared) || PeerIs(column, k, n, Exclusive)
  {
    if FoundUpTo(MESI, command, k, column, n) {
      var i :| 0 <= i < n && i != k && SnoopReply(MESI, command, column[i]) == SHARED;
      assert column[i] == Shared || column[i] == Exclusive;
    }
  }

  /** The broadcast adds its charges one reply at a time, each sum an unsigned number; in a coherent column
      they come to the penalty: at most one cache flushes, and then nobody else has a copy to discount. */
  lemma {:induction false} SurchargeIsPenalty(protocol: Protocol, command: Command, cost: int, k: nat, column: Column,
                                              n: nat, end: nat)
    requires Coherent(protocol, BlockState(column, None)) && n <= |column|
    ensures EndAfter(protocol, command, cost, k, column, n, end)
            == UnsignedSum(end, PenaltyUpTo(protocol, command, cost, k, column, n))
  {
    if n == 0 {
    } else {
      SurchargeIsPenalty(protocol, command, cost, k, column, n - 1, end);
      PenaltyNext(protocol, command, cost, k, column, n - 1);
      hide PenaltyUpTo, Coherent, Extra, FoundUpTo;
    }
  }

  lemma PenaltyNext(protocol: Protocol, command: Command, cost: int, k: nat, column: Column, n: nat)
    requires Coherent(protocol, BlockState(column, None)) && n < |column|
    ensures var extra := if n == k then 0
            else Extra(protocol, command, cost, column[n], FoundUpTo(protocol, command, k, column, n));
            && PenaltyUpTo(protocol, command, cost, k, column, n + 1)
               == PenaltyUpTo(protocol, command, cost, k, column, n) + extra
            && (PenaltyUpTo(protocol, command, cost, k, column, n) == 0 || extra == 0)
  {
    PeerIsNext(column, k, n, Modified);
    PeerIsNext(column, k, n, Exclusive);
    PeerIsNext(column, k, n, Shared);
    PeerIsNext(column, k, n, Owned);
    assert InProtocol(protocol, column[n]);
    if protocol == MESI {
      FoundIsPeer(command, k, column, n);
    }
    NoTwoOwners(protocol, column, k, n);
    hide Coherent, PeerIs, FoundUpTo;
  }

  /** What coherence says about a copy in the presence of an owner. */
  lemma NoTwoOwners(protocol: Protocol, column: Column, k: nat, n: nat)
    requires Coherent(protocol, BlockState(column, None)) && n < |column|
    ensures protocol != MOESI && WritesSilently(column[n]) ==>
            !PeerIs(column, k, n, Modified) && !PeerIs(column, k, n, Exclusive) && !PeerIs(column, k, n, Shared)
    ensures protocol != MOESI && (PeerIs(column, k, n, Modified) || PeerIs(column, k, n, Exclusive)) ==>
              column[n] == Invalid
    ensures protocol == MOESI && Supplies(column[n]) ==>
            !PeerIs(column, k, n, Modified) && !PeerIs(column, k, n, Exclusive) && !PeerIs(column, k, n, Owned)
  {
  }

  lemma {:induction false} EndIgnoresOwn(protocol: Protocol, command: Command, cost: int, k: nat, column: Column,
                                         own: State, n: nat, end: nat)
    requires n <= |column|
    ensures EndAfter(protocol, command, cost, k, SetAt(column, k, own), n, end)
            == EndAfter(protocol, command, cost, k, column, n, end)
  {
    if n > 0 {
      EndIgnoresOwn(protocol, command, cost, k, column, own, n - 1, end);
      var column' := SetAt(column, k, own);
      assert forall i | 0 <= i < |column| && i != k :: column'[i] == column[i];
      hide Extra, SnoopReply, UnsignedSum;
    }
  }

  /** The lengths a transaction can have. */
  predicate PossibleLength(protocol: Protocol, command: Command, write: bool, length: int) {
    match protocol
    case MSI => length == 90 || length == 180
    case MESI =>
      if command == BusRd then length == 60 || length == 90 || length == 150
      else length == 30 || length == 60 || length == 120
    case DRAGON =>
      if command == BusRd then length == if write then 2 else 60
      else length == 2 || length == 60
    case MOESI =>
      if command == BusRd then length == 60 || length == 90
      else -0x8000_0000 - 30 <= length < 0x8000_0000
  }

  /** The end of the transaction lies further ahead than any cost reaches: the sum has fallen below zero. */
  predicate Wrapped(s: SystemState) {
    s.bus.inUse && s.bus.startCycle + 0x8000_0000 <= s.bus.endCycle
  }

  /** A bus in use started in the past, ends in the future, and takes one of the possible lengths; in
      Dragon only a read can be told "shared". In MOESI, where the cost of a write is unset, the end may
      already be past, or, wrapped, be some 2^64 cycles away. */
  ghost predicate Timely(cfg: Config, s: SystemState) {
    s.bus.inUse && 0 <= s.bus.currentCache < |s.caches| ==>
      var c := s.caches[s.bus.currentCache];
      && s.bus.startCycle <= s.cycle
      && (cfg.protocol != MOESI ==> s.cycle < s.bus.endCycle)
      && (Wrapped(s) ==> cfg.protocol == MOESI && 0x8000_0000_0000_0000 <= s.bus.endCycle)
      && (c.busRequest.Some? && c.currentJob.Some? ==>
            && (!Wrapped(s) ==>
                  PossibleLength(cfg.protocol, c.busRequest.value.command, IsWrite(c.currentJob.value),
                                 s.bus.endCycle - s.bus.startCycle))
            && (cfg.protocol == DRAGON && s.bus.isShared ==> c.busRequest.value.command == BusRd))
  }

  /** The two sums, the cost and the penalty, as one. */
  lemma PenaltyAfterCost(cfg: Config, cycle: nat, write: bool, own: State, k: nat, column: Column)
    ensures var command := CommandFor(cfg.protocol, write, own);
            var cost := IssueCost(cfg, cycle, write, own);
            var penalty := Penalty(cfg.protocol, command, cost, k, column);
            UnsignedSum(UnsignedSum(cycle, cost), penalty) == UnsignedSum(cycle, cost + penalty)
  {
    hide PeerIs;
  }

  /** The length of a transaction asked for at that cycle by cache k, which holds the block as `own`. */
  ghost function Length(cfg: Config, cycle: nat, write: bool, own: State, k: nat, column: Column): int {
    var cost := IssueCost(cfg, cycle, write, own);
    cost + Penalty(cfg.protocol, CommandFor(cfg.protocol, write, own), cost, k, column)
  }

  lemma EndIsCharged(cfg: Config, cycle: nat, write: bool, own: State, k: nat, column: Column, taken: State)
    requires Coherent(cfg.protocol, BlockState(column, None))
    ensures var command := CommandFor(cfg.protocol, write, own);
            var cost := IssueCost(cfg, cycle, write, own);
            EndAfter(cfg.protocol, command, cost, k, SetAt(column, k, taken), |SetAt(column, k, taken)|,
                     UnsignedSum(cycle, cost))
            == UnsignedSum(cycle, Length(cfg, cycle, write, own, k, column))
  {
    hide Coherent, EndAfter, PenaltyUpTo, IssueCost, CommandFor, UnsignedSum;
    var command := CommandFor(cfg.protocol, write, own);
    var cost := IssueCost(cfg, cycle, write, own);
    var end := UnsignedSum(cycle, cost);
    SurchargeIsPenalty(cfg.protocol, command, cost, k, column, |column|, end);
    EndIgnoresOwn(cfg.protocol, command, cost, k, column, taken, |column|, end);
    PenaltyAfterCost(cfg, cycle, write, own, k, column);
  }

  /** The length of the transaction with which the next job starts. */
  ghost function FirstLength(cfg: Config, s: SystemState): int
    requires 0 < |s.outstanding| && s.outstanding[0].threadId < |s.caches|
  {
    var job := s.outstanding[0];
    var k, about := job.threadId, BlockOf(cfg, job.address);
    Length(cfg, s.cycle + 1, IsWrite(job), StateIn(cfg, s.caches[k], about), k,
           ColumnOf(cfg, s.caches, SnoopedTag(about)))
  }

  /** The bus as it is after the job is handed out and its request granted. */
  lemma DispatchGrant(cfg: Config, s: SystemState)
    requires ValidConfig(cfg) && Orderly(cfg, s) && NoJobs(s.caches) && 0 < |s.outstanding| && BusJob(cfg, s)
    requires HandedOut(cfg, s, BeforeBus(cfg, s))
    ensures var job := s.outstanding[0];
            var k := job.threadId;
            var tag := SnoopedTag(BlockOf(cfg, job.address));
            var own := StateIn(cfg, s.caches[k], BlockOf(cfg, job.address));
            var command := CommandFor(cfg.protocol, IsWrite(job), own);
            var cost := IssueCost(cfg, s.cycle + 1, IsWrite(job), own);
            var column := ColumnOf(cfg, BeforeBus(cfg, s).caches, tag);
            var s' := Grant(cfg, BeforeBus(cfg, s));
            && s'.cycle == s.cycle + 1 && s'.outstanding == s.outstanding[1..] && k < |s'.caches|
            && s'.bus == BusState(k, true, s'.cycle,
                                  EndAfter(cfg.protocol, command, cost, k, column, |column|,
                                           UnsignedSum(s'.cycle, cost)),
                                  AnyShares(cfg.protocol, command, k, column))
            && s'.caches[k].currentJob == Some(job)
            && s'.caches[k].busRequest.Some? && s'.caches[k].busRequest.value.command == command
  {
    hide Orderly, Grantable, Step, Grant, BeforeBus, StateIn, BlockOf, SnoopedTag, EndAfter, TakenAs, CommandFor,
         IssueCost, ColumnOf, SetOf, ToInt, UnsignedSum, SnoopedAs, AnyShares, SetAt;
    var s1 := BeforeBus(cfg, s);
    HandedOutBusJob(cfg, s, s1);
    GrantableHasRequest(cfg, s1, s.outstanding[0].threadId);
    GrantEffect(cfg, s1, s.outstanding[0].threadId);
  }

  lemma FirstLengthIs(cfg: Config, s: SystemState)
    requires 0 < |s.outstanding| && s.outstanding[0].threadId < |s.caches|
    ensures var job := s.outstanding[0];
            var about := BlockOf(cfg, job.address);
            FirstLength(cfg, s)
            == Length(cfg, s.cycle + 1, IsWrite(job), StateIn(cfg, s.caches[job.threadId], about), job.threadId,
                      ColumnOf(cfg, s.caches, SnoopedTag(about)))
  {
    hide Length, StateIn, ColumnOf, BlockOf, SnoopedTag;
  }

  /** The length is fixed by the states before the job. */
  lemma ChargedIsLength(cfg: Config, s: SystemState)
    requires ValidConfig(cfg) && Orderly(cfg, s) && NoJobs(s.caches) && 0 < |s.outstanding|
    requires s.outstanding[0].threadId < |s.caches|
    requires HandedOut(cfg, s, BeforeBus(cfg, s))
    requires Coherent(cfg.protocol, BlockView(cfg, s, SnoopedTag(BlockOf(cfg, s.outstanding[0].address))))
    ensures var job := s.outstanding[0];
            var k := job.threadId;
            var own := StateIn(cfg, s.caches[k], BlockOf(cfg, job.address));
            var command := CommandFor(cfg.protocol, IsWrite(job), own);
            var cost := IssueCost(cfg, s.cycle + 1, IsWrite(job), own);
            var column := ColumnOf(cfg, BeforeBus(cfg, s).caches, SnoopedTag(BlockOf(cfg, job.address)));
            EndAfter(cfg.protocol, command, cost, k, column, |column|, UnsignedSum(s.cycle + 1, cost))
            == UnsignedSum(s.cycle + 1, FirstLength(cfg, s))
  {
    hide Orderly, BeforeBus, StateIn, BlockOf, SnoopedTag, EndAfter, Penalty, Coherent, HandedOut, TakenAs, CommandFor,
         IssueCost, ColumnOf, UnsignedSum, SetAt, PendingFor, Length, FirstLength;
    var job := s.outstanding[0];
    var k := job.threadId;
    var about := BlockOf(cfg, job.address);
    var tag := SnoopedTag(about);
    var own := StateIn(cfg, s.caches[k], about);
    var column := ColumnOf(cfg, s.caches, tag);
    FirstLengthIs(cfg, s);
    SameColumnCoherent(cfg.protocol, BlockView(cfg, s, tag));
    DispatchColumn(cfg, s, BeforeBus(cfg, s), tag);
    SetSame(column, k);
    var taken := if tag == about then TakenAs(cfg.protocol, job, StateAt(column, k)) else StateAt(column, k);
    EndIsCharged(cfg, s.cycle + 1, IsWrite(job), own, k, column, taken);
  }

  /** The exact length of the transaction with which a job starts, from the states before it. */
  lemma DispatchLength(cfg: Config, s: SystemState)
    requires ValidConfig(cfg) && Orderly(cfg, s) && NoJobs(s.caches) && 0 < |s.outstanding| && BusJob(cfg, s)
    requires Coherent(cfg.protocol, BlockView(cfg, s, SnoopedTag(BlockOf(cfg, s.outstanding[0].address))))
    ensures var job := s.outstanding[0];
            var k := job.threadId;
            var command := CommandFor(cfg.protocol, IsWrite(job), StateIn(cfg, s.caches[k], BlockOf(cfg, job.address)));
            var s' := Step(cfg, s);
            && s'.cycle == s.cycle + 1 && s'.outstanding == s.outstanding[1..]
            && s'.bus.inUse && s'.bus.currentCache == k < |s'.caches| && s'.bus.startCycle == s'.cycle
            && s'.bus.endCycle == UnsignedSum(s'.cycle, FirstLength(cfg, s))
            && s'.caches[k].currentJob == Some(job)
            && s'.caches[k].busRequest.Some? && s'.caches[k].busRequest.value.command == command
            && (cfg.protocol == DRAGON && s'.bus.isShared ==> command == BusRd)
  {
    hide Orderly, Step, Grant, BeforeBus, StateIn, BlockOf, SnoopedTag, EndAfter, FirstLength, Coherent, HandedOut,
         BusJob, CommandFor, IssueCost, ColumnOf, UnsignedSum, AnyShares, BlockView;
    DispatchStep(cfg, s);
    BusJobIsThere(cfg, s);
    DispatchGrant(cfg, s);
    ChargedIsLength(cfg, s);
    UpdatesAreNotShared(s.outstanding[0].threadId,
                        ColumnOf(cfg, BeforeBus(cfg, s).caches, SnoopedTag(BlockOf(cfg, s.outstanding[0].address))));
  }

  lemma SameColumnCoherent(protocol: Protocol, b: BlockState)
    requires Coherent(protocol, b)
    ensures Coherent(protocol, BlockState(b.column, None))
  {
    hide PendingCoherent;
  }

  // ---------------------------------------------------------------------------------------------
  // Every iteration is paid for.

  /** The longest a job can keep the bus. */
  function BusBound(protocol: Protocol): nat {
    match protocol
    case MSI => 180
    case MESI => 150
    case DRAGON => 62
    case MOESI => 0x7FFF_FFFF
  }

  /** The cycles within which a trace is over: for each job the bus and the iteration that hands it out. */
  function CycleBound(cfg: Config, jobs: seq<Job>): nat {
    (BusBound(cfg.protocol) + 1) * |jobs|
  }

  function FirstBusy(caches: seq<CacheState>): (k: nat)
    ensures k <= |caches|
    ensures k < |caches| ==> caches[k].busy
    ensures k == |caches| <==> NoJobs(caches)
  {
    if |caches| == 0 || caches[0].busy then 0 else 1 + FirstBusy(caches[1..])
  }

  /** The read half of a Dragon write, which an update may follow. */
  predicate MayUpdate(cfg: Config, c: CacheState) {
    cfg.protocol == DRAGON && c.busRequest.Some? && c.currentJob.Some? && IsWrite(c.currentJob.value)
        && c.busRequest.value.command == BusRd
  }

  /** An upper bound on the iterations until the job in flight is served. */
  function Remaining(cfg: Config, s: SystemState): int {
    if s.bus.inUse && 0 <= s.bus.currentCache < |s.caches| then
      (if s.cycle + 1 < s.bus.endCycle then s.bus.endCycle - s.cycle else 1)
      + (if MayUpdate(cfg, s.caches[s.bus.currentCache]) then PEER_COST else 0)
    else
      var k := FirstBusy(s.caches);
      if k < |s.caches| then s.caches[k].startServiceCycle + CACHE_HIT_COST - s.cycle else 0
  }

  function Budget(cfg: Config, s: SystemState): int {
    (BusBound(cfg.protocol) + 1) * |s.outstanding| + Remaining(cfg, s)
  }

  ghost predicate AllCoherent(cfg: Config, s: SystemState) {
    forall t | Fits(t) :: Coherent(cfg.protocol, BlockView(cfg, s, t))
  }

  /** The next iteration hands out a job whose end falls below zero: its cost, less a discount if a peer
      answers, is negative and exceeds the clock. */
  ghost predicate WrapsNext(cfg: Config, s: SystemState) {
    NoJobs(s.caches) && 0 < |s.outstanding| && BusJob(cfg, s) && s.cycle + 1 + FirstLength(cfg, s) < 0
  }

  /** An iteration of a loop that has not stopped takes one cycle, keeps time, and uses up some budget,
      unless it leaves a wrapped transaction behind: which it does when it starts one, and as long as it
      waits for one. */
  ghost predicate Spends(cfg: Config, s: SystemState) {
    && Timely(cfg, Step(cfg, s))
    && Step(cfg, s).cycle == s.cycle + 1
    && 0 <= Remaining(cfg, Step(cfg, s))
    && (Wrapped(Step(cfg, s)) <==> WrapsNext(cfg, s) || (Wrapped(s) && s.cycle + 1 < s.bus.endCycle))
    && (!Wrapped(Step(cfg, s)) ==> Budget(cfg, Step(cfg, s)) < Budget(cfg, s))
  }

  lemma OneJobLess(cfg: Config, s: SystemState, s': SystemState)
    requires 0 < |s.outstanding| && s'.outstanding == s.outstanding[1..]
    requires Remaining(cfg, s) == 0 && 0 <= Remaining(cfg, s') <= BusBound(cfg.protocol)
    ensures Budget(cfg, s') < Budget(cfg, s)
  {
    var bound := BusBound(cfg.protocol);
    assert (bound + 1) * |s.outstanding| == (bound + 1) * |s'.outstanding| + bound + 1;
    hide Remaining, BusBound;
  }

  lemma RestingHasNoRemainder(cfg: Config, s: SystemState)
    requires Orderly(cfg, s) && NoJobs(s.caches)
    ensures Remaining(cfg, s) == 0
  {
    RestingIsQuiet(cfg, s);
    hide Orderly;
  }

  lemma LengthIsPossible(cfg: Config, cycle: nat, write: bool, own: State, k: nat, column: Column)
    requires ValidConfig(cfg)
    ensures var command := CommandFor(cfg.protocol, write, own);
            var length := Length(cfg, cycle, write, own, k, column);
            && PossibleLength(cfg.protocol, command, write, length)
            && (cfg.protocol == DRAGON && write ==> length == 2)
            && (cfg.protocol != MOESI ==> 0 < length)
  {
    hide PeerIs;
  }

  /** Where a sum of clock and length ends up. */
  lemma EndOfLength(cycle: nat, length: int)
    requires -0x8000_0000 - 30 <= length < 0x8000_0000
    ensures cycle + length < 0 <==> cycle + 0x8000_0000 <= UnsignedSum(cycle, length)
    ensures cycle + length < 0 ==> 0x8000_0000_0000_0000 <= UnsignedSum(cycle, length)
    ensures 0 <= cycle + length ==> UnsignedSum(cycle, length) == cycle + length
  {
  }

  lemma PossibleLengthsAreBounded(protocol: Protocol, command: Command, write: bool, length: int)
    requires PossibleLength(protocol, command, write, length)
    ensures length <= BusBound(protocol)
    ensures -0x8000_0000 - 30 <= length < 0x8000_0000
    ensures protocol == DRAGON && length <= 2 ==> length + PEER_COST <= BusBound(protocol)
    ensures protocol != MOESI ==> 2 <= length
  {
  }

  lemma BusJobSpends(cfg: Config, s: SystemState)
    requires ValidConfig(cfg) && Orderly(cfg, s) && NoJobs(s.caches) && 0 < |s.outstanding| && BusJob(cfg, s)
    requires AllCoherent(cfg, s)
    ensures Spends(cfg, s)
  {
    hide Orderly, Step, Coherent, BlockOf, SnoopedTag, StateIn, ColumnOf, Penalty, BlockView, AllCoherent, Timely,
         Remaining, IssueCost, CommandFor, UnsignedSum, BusBound, BusJob, NeedsBus;
    var job := s.outstanding[0];
    var k := job.threadId;
    var tag := SnoopedTag(BlockOf(cfg, job.address));
    SnoopedTagFits(BlockOf(cfg, job.address));
    assert Coherent(cfg.protocol, BlockView(cfg, s, tag)) by { CoherentHere(cfg, s, tag); }
    BusJobIsThere(cfg, s);
    DispatchLength(cfg, s);
    LengthIsPossible(cfg, s.cycle + 1, IsWrite(job), StateIn(cfg, s.caches[k], BlockOf(cfg, job.address)), k,
                     ColumnOf(cfg, s.caches, tag));
    BegunSpends(cfg, s, FirstLength(cfg, s));
  }

  lemma CoherentHere(cfg: Config, s: SystemState, t: nat)
    requires AllCoherent(cfg, s) && Fits(t)
    ensures Coherent(cfg.protocol, BlockView(cfg, s, t))
  {
    hide Coherent, BlockView;
  }

  lemma BusJobIsThere(cfg: Config, s: SystemState)
    requires 0 < |s.outstanding| && BusJob(cfg, s)
    ensures s.outstanding[0].threadId < |s.caches|
  {
  }

  /** The iteration has begun a transaction of that length. */
  lemma BegunSpends(cfg: Config, s: SystemState, length: int)
    requires Orderly(cfg, s) && NoJobs(s.caches) && 0 < |s.outstanding| && BusJob(cfg, s)
    requires s.outstanding[0].threadId < |s.caches| && length == FirstLength(cfg, s)
    requires var job := s.outstanding[0];
             var s' := Step(cfg, s);
             && s'.cycle == s.cycle + 1 && s'.outstanding == s.outstanding[1..]
             && s'.bus.inUse && s'.bus.currentCache == job.threadId < |s'.caches| && s'.bus.startCycle == s'.cycle
             && s'.bus.endCycle == UnsignedSum(s'.cycle, length)
             && s'.caches[job.threadId].currentJob == Some(job) && s'.caches[job.threadId].busRequest.Some?
             && PossibleLength(cfg.protocol, s'.caches[job.threadId].busRequest.value.command, IsWrite(job), length)
             && (cfg.protocol == DRAGON && IsWrite(job) ==> length == 2)
             && (cfg.protocol != MOESI ==> 0 < length)
             && (cfg.protocol == DRAGON && s'.bus.isShared ==>
                   s'.caches[job.threadId].busRequest.value.command == BusRd)
    ensures Spends(cfg, s)
  {
    hide Orderly, Step, FirstLength, UnsignedSum, PossibleLength, BusJob;
    var s' := Step(cfg, s);
    var k := s.outstanding[0].threadId;
    PossibleLengthsAreBounded(cfg.protocol, s'.caches[k].busRequest.value.command, IsWrite(s.outstanding[0]), length);
    EndOfLength(s'.cycle, length);
    RestingHasNoRemainder(cfg, s);
    RestingBusIsFree(cfg, s);
    if !Wrapped(s') {
      OneJobLess(cfg, s, s');
    }
  }

  lemma RestingBusIsFree(cfg: Config, s: SystemState)
    requires Orderly(cfg, s) && NoJobs(s.caches)
    ensures !s.bus.inUse
  {
    RestingIsQuiet(cfg, s);
    hide Orderly;
  }

  lemma FreeJobSpends(cfg: Config, s: SystemState)
    requires ValidConfig(cfg) && Orderly(cfg, s) && NoJobs(s.caches) && 0 < |s.outstanding| && !BusJob(cfg, s)
    ensures Spends(cfg, s)
  {
    hide Orderly, Step, Grant, BeforeBus, BusJob;
    DispatchStep(cfg, s);
    var s1 := BeforeBus(cfg, s);
    HandedOutFreeJob(cfg, s, s1);
    RestingHasNoRemainder(cfg, s);
    RestingIsQuiet(cfg, s);
    assert s1.bus == s.bus && s1.cycle == s.cycle + 1 && s1.outstanding == s.outstanding[1..];
    hide HandedOut;
    OneJobLess(cfg, s, s1);
  }

  /** While a hit is being served. */
  lemma HitSpends(cfg: Config, s: SystemState)
    requires ValidConfig(cfg) && Orderly(cfg, s) && !NoJobs(s.caches) && !s.bus.inUse
    ensures Spends(cfg, s)
  {
    hide Step, GoodSets, HoldsSame, AllGood;
    ServingStep(cfg, s);
    var s' := Step(cfg, s);
    var k := FirstBusy(s.caches);
    assert ServedCache(cfg, s'.cycle, s.caches[k], s'.caches[k]);
    var k' := FirstBusy(s'.caches);
    if k' < |s'.caches| {
      assert ServedCache(cfg, s'.cycle, s.caches[k'], s'.caches[k']);
    }
  }

  lemma WaitSpends(cfg: Config, s: SystemState)
    requires ValidConfig(cfg) && Orderly(cfg, s) && s.bus.inUse && s.cycle + 1 < s.bus.endCycle && Timely(cfg, s)
    ensures Spends(cfg, s)
  {
    CurrentHasJob(cfg, s);
    ServingStep(cfg, s);
    var s' := Step(cfg, s);
    var k := s.bus.currentCache;
    assert ServedCache(cfg, s'.cycle, s.caches[k], s'.caches[k]);
    assert s.caches[k].busRequestBeingServiced by { hide AllGood; }
    hide Step, GoodSets, HoldsSame, AllGood, Orderly, PossibleLength;
  }

  lemma {:induction false} DragonAddsNothing(command: Command, cost: int, k: nat, column: Column, n: nat, end: nat)
    requires n <= |column|
    ensures EndAfter(DRAGON, command, cost, k, column, n, end) == end
  {
    if n > 0 {
      DragonAddsNothing(command, cost, k, column, n - 1, end);
    }
  }

  lemma CompletionSpends(cfg: Config, s: SystemState)
    requires ValidConfig(cfg) && Orderly(cfg, s) && s.bus.inUse && s.bus.endCycle <= s.cycle + 1
    requires Timely(cfg, s)
    ensures Spends(cfg, s)
  {
    hide Orderly, Timely, BeforeBus, FinishTransaction, Step, Grant, Over, Spends;
    CurrentHasJob(cfg, s);
    CompletionStep(cfg, s);
    var s2 := FinishTransaction(cfg, BeforeBus(cfg, s));
    if AsksAgain(cfg, s.caches[s.bus.currentCache].currentJob.value, s.bus.isShared) {
      UpdateSpends(cfg, s, s2);
    } else {
      RestSpends(cfg, s, s2);
    }
  }

  lemma ServingStartsNothing(cfg: Config, s: SystemState)
    requires Orderly(cfg, s) && s.bus.inUse
    ensures !WrapsNext(cfg, s)
  {
    CurrentHasJob(cfg, s);
    hide Orderly, BusJob;
  }

  lemma RestSpends(cfg: Config, s: SystemState, s2: SystemState)
    requires Orderly(cfg, s) && s.bus.inUse && s.bus.endCycle <= s.cycle + 1
    requires 0 <= s.bus.currentCache < |s.caches| && s.caches[s.bus.currentCache].currentJob.Some?
    requires Over(cfg, s, s2) && Step(cfg, s) == Grant(cfg, s2)
    requires !AsksAgain(cfg, s.caches[s.bus.currentCache].currentJob.value, s.bus.isShared)
    ensures Spends(cfg, s)
  {
    hide Orderly, Step, Grant, CompletedAs, GoodSets, ServedCache, WrapsNext, BusBound;
    OverRests(cfg, s, s2);
    ServingStartsNothing(cfg, s);
    RestingIsQuiet(cfg, s2);
    assert s2.cycle == s.cycle + 1 && s2.outstanding == s.outstanding;
    hide Over;
    RestingHasNoRemainder(cfg, s2);
  }

  /** The read half of a shared write is over; the update follows. */
  lemma UpdateSpends(cfg: Config, s: SystemState, s2: SystemState)
    requires ValidConfig(cfg) && Orderly(cfg, s) && s.bus.inUse && s.bus.endCycle <= s.cycle + 1 && Timely(cfg, s)
    requires 0 <= s.bus.currentCache < |s.caches| && s.caches[s.bus.currentCache].currentJob.Some?
          && s.caches[s.bus.currentCache].busRequest.Some?
    requires Over(cfg, s, s2) && Step(cfg, s) == Grant(cfg, s2)
    requires AsksAgain(cfg, s.caches[s.bus.currentCache].currentJob.value, s.bus.isShared)
    ensures Spends(cfg, s)
  {
    var k := s.bus.currentCache;
    hide Orderly, Step, Grant, CompletedAs, GoodSets, ServedCache, StateIn, BlockOf, ToInt, SetOf;
    OverAsksAgain(cfg, s, s2);
    GrantableHasRequest(cfg, s2, k);
    ServingStartsNothing(cfg, s);
    hide WrapsNext;
    assert s2.cycle == s.cycle + 1 && s2.outstanding == s.outstanding
           && s2.caches[k].currentJob == s.caches[k].currentJob;
    assert s2.caches[k].busRequest.value.command == BusRdX && s2.caches[k].busRequest.value.cycleCost == PEER_COST;
    hide Over, Grantable, EndAfter, SnoopedAs, AnyShares, ColumnOf, SnoopedTag, JobBlock;
    GrantEffect(cfg, s2, k);
    var column := ColumnOf(cfg, s2.caches, SnoopedTag(JobBlock(cfg, s2.caches[k])));
    DragonAddsNothing(BusRdX, PEER_COST, k, column, |column|, s2.cycle + PEER_COST);
    UpdatesAreNotShared(k, column);
  }

  lemma StepSpends(cfg: Config, s: SystemState)
    requires ValidConfig(cfg) && Orderly(cfg, s) && AllCoherent(cfg, s) && Timely(cfg, s) && !Done(s)
    ensures Spends(cfg, s)
  {
    hide Orderly, AllCoherent, Timely, Spends, BusJob;
    if NoJobs(s.caches) {
      if BusJob(cfg, s) {
        BusJobSpends(cfg, s);
      } else {
        FreeJobSpends(cfg, s);
      }
    } else if !s.bus.inUse {
      HitSpends(cfg, s);
    } else if s.bus.endCycle <= s.cycle + 1 {
      CompletionSpends(cfg, s);
    } else {
      WaitSpends(cfg, s);
    }
  }

  // ---------------------------------------------------------------------------------------------
  // Whole runs.

  lemma {:induction false} RunsAreTimely(cfg: Config, jobs: seq<Job>, n: nat)
    requires ValidConfig(cfg)
    ensures AllCoherent(cfg, After(cfg, jobs, n)) && Timely(cfg, After(cfg, jobs, n))
    ensures 0 <= Remaining(cfg, After(cfg, jobs, n))
  {
    hide Orderly, Coherent, Step, BlockView, Timely, Remaining;
    forall t | Fits(t)
      ensures Coherent(cfg.protocol, BlockView(cfg, After(cfg, jobs, n), t))
    {
      RunsAreCoherent(cfg, jobs, n, t);
    }
    if n == 0 {
      InitiallyTimely(cfg, jobs);
    } else {
      var s := After(cfg, jobs, n - 1);
      RunsAreTimely(cfg, jobs, n - 1);
      RunsAreOrderly(cfg, jobs, n - 1);
      if Done(s) {
        DoneStays(cfg, s);
      } else {
        hide AllCoherent;
        StepSpends(cfg, s);
      }
    }
  }

  /** The bus is occupied for one of the protocol's lengths, whatever the number of caches that answer; a
      transaction outside MOESI ends after it has begun, and in the future. */
  lemma OccupancyInRuns(cfg: Config, jobs: seq<Job>, n: nat)
    requires ValidConfig(cfg) && cfg.protocol != MOESI && After(cfg, jobs, n).bus.inUse
    ensures var s := After(cfg, jobs, n);
            && 0 <= s.bus.currentCache < |s.caches|
            && s.caches[s.bus.currentCache].busRequest.Some? && s.caches[s.bus.currentCache].currentJob.Some?
            && s.bus.startCycle <= s.cycle < s.bus.endCycle
            && PossibleLength(cfg.protocol, s.caches[s.bus.currentCache].busRequest.value.command,
                              IsWrite(s.caches[s.bus.currentCache].currentJob.value), s.bus.endCycle - s.bus.startCycle)
  {
    RunsAreOrderly(cfg, jobs, n);
    RunsAreTimely(cfg, jobs, n);
    hide Orderly, After, AllCoherent, PossibleLength;
    CurrentHasJob(cfg, After(cfg, jobs, n));
  }

  lemma InitiallyTimely(cfg: Config, jobs: seq<Job>)
    ensures Timely(cfg, InitialSystem(cfg, jobs))
    ensures Remaining(cfg, InitialSystem(cfg, jobs)) == 0
    ensures InitialSystem(cfg, jobs).cycle == 0
  {
  }

  ghost predicate NeverWraps(cfg: Config, jobs: seq<Job>) {
    forall n: nat :: !Wrapped(After(cfg, jobs, n))
  }

  /** Every iteration of a running loop is one cycle, paid from the budget as long as no end has wrapped. */
  lemma {:induction false} CyclesArePaid(cfg: Config, jobs: seq<Job>, n: nat)
    requires ValidConfig(cfg)
    ensures var s := After(cfg, jobs, n);
            && s.cycle <= n
            && (!Done(s) ==> s.cycle == n)
            && ((forall i: nat | i <= n :: !Wrapped(After(cfg, jobs, i))) ==>
                  s.cycle + Budget(cfg, s) <= CycleBound(cfg, jobs))
  {
    hide Orderly, Step, AllCoherent, Timely, Remaining, BusBound, Wrapped, WrapsNext;
    if n == 0 {
      InitiallyTimely(cfg, jobs);
    } else {
      var s := After(cfg, jobs, n - 1);
      CyclesArePaid(cfg, jobs, n - 1);
      RunsAreTimely(cfg, jobs, n - 1);
      RunsAreOrderly(cfg, jobs, n - 1);
      if Done(s) {
        DoneStays(cfg, s);
      } else {
        StepSpends(cfg, s);
        hide Done;
      }
    }
  }

  /** A wrapped transaction keeps the bus for longer than anybody waits. */
  lemma {:induction false} WrappedHangs(cfg: Config, jobs: seq<Job>, n: nat, m: nat)
    requires ValidConfig(cfg) && Wrapped(After(cfg, jobs, n)) && n <= m < 0x8000_0000_0000_0000
    ensures After(cfg, jobs, m).bus == After(cfg, jobs, n).bus && !Done(After(cfg, jobs, m))
    decreases m
  {
    hide Orderly, Step, AllCoherent, Served;
    RunsAreOrderly(cfg, jobs, m);
    if n < m {
      var s := After(cfg, jobs, m - 1);
      WrappedHangs(cfg, jobs, n, m - 1);
      RunsAreOrderly(cfg, jobs, m - 1);
      RunsAreTimely(cfg, jobs, m - 1);
      CyclesArePaid(cfg, jobs, m - 1);
      CurrentHasJob(cfg, s);
      WaitKeepsBus(cfg, s);
    }
    CurrentHasJob(cfg, After(cfg, jobs, m));
  }

  lemma WaitKeepsBus(cfg: Config, s: SystemState)
    requires ValidConfig(cfg) && Orderly(cfg, s) && s.bus.inUse && s.cycle + 1 < s.bus.endCycle
    ensures Step(cfg, s).bus == s.bus
  {
    CurrentHasJob(cfg, s);
    ServingStep(cfg, s);
    hide Step, Orderly, ServedCache;
  }

  /** The main loop stops, and within 181n cycles for n jobs in MSI, 151n in MESI, 63n in Dragon, 2^31 n in
      MOESI, if and only if no transaction's end wraps; otherwise not in 2^63 iterations. */
  lemma MainLoopStops(cfg: Config, jobs: seq<Job>)
    requires ValidConfig(cfg) && CycleBound(cfg, jobs) < 0x8000_0000_0000_0000
    ensures Done(After(cfg, jobs, CycleBound(cfg, jobs))) <==> NeverWraps(cfg, jobs)
    ensures After(cfg, jobs, CycleBound(cfg, jobs)).cycle <= CycleBound(cfg, jobs)
    ensures !NeverWraps(cfg, jobs) ==> forall m: nat | m < 0x8000_0000_0000_0000 :: !Done(After(cfg, jobs, m))
  {
    hide CycleBound, After, Orderly, AllCoherent, Timely, Budget, Remaining, Done, Wrapped;
    var bound := CycleBound(cfg, jobs);
    CyclesArePaid(cfg, jobs, bound);
    if NeverWraps(cfg, jobs) {
      RunsAreTimely(cfg, jobs, bound);
      RunsAreOrderly(cfg, jobs, bound);
      if !Done(After(cfg, jobs, bound)) {
        RunningHasBudget(cfg, After(cfg, jobs, bound));
      }
    } else {
      var n: nat :| Wrapped(After(cfg, jobs, n));
      forall m: nat | m < 0x8000_0000_0000_0000
        ensures !Done(After(cfg, jobs, m))
      {
        WrappedIsNotDone(cfg, jobs, n, m);
      }
    }
  }

  lemma {:induction false} DoneForGood(cfg: Config, jobs: seq<Job>, n: nat, later: nat)
    requires n <= later && Done(After(cfg, jobs, n))
    ensures After(cfg, jobs, later) == After(cfg, jobs, n)
    decreases later
  {
    hide Step, Done;
    if n < later {
      DoneForGood(cfg, jobs, n, later - 1);
      DoneStays(cfg, After(cfg, jobs, n));
    }
  }

  lemma WrappedIsNotDone(cfg: Config, jobs: seq<Job>, n: nat, m: nat)
    requires ValidConfig(cfg) && Wrapped(After(cfg, jobs, n)) && m < 0x8000_0000_0000_0000
    ensures !Done(After(cfg, jobs, m))
  {
    hide After, Orderly;
    if n <= m {
      WrappedHangs(cfg, jobs, n, m);
    } else if Done(After(cfg, jobs, m)) {
      DoneForGood(cfg, jobs, m, n);
      RunsAreOrderly(cfg, jobs, n);
      RestingBusIsFree(cfg, After(cfg, jobs, n));
    }
  }

  /** When an end wraps: exactly when some job is handed out whose cost, less a discount, is negative and
      exceeds the clock. */
  lemma NeverWrapsExactly(cfg: Config, jobs: seq<Job>)
    requires ValidConfig(cfg)
    ensures NeverWraps(cfg, jobs) <==> forall n: nat :: !WrapsNext(cfg, After(cfg, jobs, n))
  {
    hide Orderly, After, Step, AllCoherent, Timely, Wrapped, WrapsNext, Budget, Remaining;
    if NeverWraps(cfg, jobs) {
      forall n: nat
        ensures !WrapsNext(cfg, After(cfg, jobs, n))
      {
        WrapIsOne(cfg, jobs, n);
      }
    } else if forall n: nat :: !WrapsNext(cfg, After(cfg, jobs, n)) {
      var n: nat :| Wrapped(After(cfg, jobs, n));
      NothingWraps(cfg, jobs, n);
    }
  }

  /** One iteration of a run. */
  lemma WrapIsOne(cfg: Config, jobs: seq<Job>, n: nat)
    requires ValidConfig(cfg)
    ensures var s := After(cfg, jobs, n);
            Wrapped(After(cfg, jobs, n + 1)) <==> WrapsNext(cfg, s) || (Wrapped(s) && s.cycle + 1 < s.bus.endCycle)
  {
    hide Orderly, Step, AllCoherent, Timely, Budget, Remaining, Wrapped, WrapsNext;
    var s := After(cfg, jobs, n);
    RunsAreTimely(cfg, jobs, n);
    RunsAreOrderly(cfg, jobs, n);
    if Done(s) {
      DoneStays(cfg, s);
      DoneStartsNothing(cfg, s);
    } else {
      StepSpends(cfg, s);
    }
  }

  lemma DoneStartsNothing(cfg: Config, s: SystemState)
    requires Orderly(cfg, s) && Done(s)
    ensures !WrapsNext(cfg, s) && !Wrapped(s)
  {
    RestingBusIsFree(cfg, s);
    hide Orderly;
  }

  lemma {:induction false} NothingWraps(cfg: Config, jobs: seq<Job>, n: nat)
    requires ValidConfig(cfg) && forall i: nat :: !WrapsNext(cfg, After(cfg, jobs, i))
    ensures !Wrapped(After(cfg, jobs, n))
  {
    hide Step, WrapsNext;
    if n > 0 {
      NothingWraps(cfg, jobs, n - 1);
      hide After;
      WrapIsOne(cfg, jobs, n - 1);
    }
  }

  /** It never happens in MSI, MESI and Dragon, nor in MOESI with costs that, kept in an int, are at least
      the discount. */
  lemma SomeCostsNeverWrap(cfg: Config, jobs: seq<Job>)
    requires ValidConfig(cfg)
    requires cfg.protocol != MOESI || forall cycle: nat :: MEMORY_COST - PEER_COST <= ToInt(cfg.unset(cycle))
    ensures NeverWraps(cfg, jobs)
  {
    hide After, WrapsNext, NeverWraps;
    forall n: nat
      ensures !WrapsNext(cfg, After(cfg, jobs, n))
    {
      LongCostsDoNotWrap(cfg, After(cfg, jobs, n));
    }
    NeverWrapsExactly(cfg, jobs);
  }

  lemma LongCostsDoNotWrap(cfg: Config, s: SystemState)
    requires ValidConfig(cfg)
    requires cfg.protocol != MOESI || forall cycle: nat :: MEMORY_COST - PEER_COST <= ToInt(cfg.unset(cycle))
    ensures !WrapsNext(cfg, s)
  {
    hide PeerIs, ColumnOf, StateIn, ToInt, BlockOf, NoJobs;
  }

  /** And it does happen: a first write, with a cost of, say, -5. */
  lemma WriteHangs(cfg: Config, address: nat, rest: seq<Job>, m: nat)
    requires ValidConfig(cfg) && cfg.protocol == MOESI && 0 < cfg.numProcessors && ToInt(cfg.unset(1)) < -1
    requires m < 0x8000_0000_0000_0000
    ensures !Done(After(cfg, [Job('W', address, 0)] + rest, m))
  {
    hide StateIn, ToInt, BlockOf, Orderly, InitialCache, Step, SnoopedTag;
    var jobs := [Job('W', address, 0)] + rest;
    var s := After(cfg, jobs, 0);
    InitiallyOrderly(cfg, jobs);
    assert forall i | 0 <= i < |s.caches| :: !s.caches[i].busy by { InitiallyFree(cfg, jobs); }
    assert forall i | 0 <= i < |s.caches| :: ColumnOf(cfg, s.caches, SnoopedTag(BlockOf(cfg, address)))[i] == Invalid;
    assert StateIn(cfg, s.caches[0], BlockOf(cfg, address)) == Invalid;
    assert FirstLength(cfg, s) == ToInt(cfg.unset(1));
    assert WrapsNext(cfg, s);
    hide After, Wrapped, WrapsNext;
    WrapIsOne(cfg, jobs, 0);
    WrappedIsNotDone(cfg, jobs, 1, m);
  }

  lemma InitiallyFree(cfg: Config, jobs: seq<Job>)
    ensures NoJobs(InitialSystem(cfg, jobs).caches)
  {
  }

  lemma RunningHasBudget(cfg: Config, s: SystemState)
    requires Orderly(cfg, s) && 0 <= Remaining(cfg, s) && !Done(s)
    ensures 0 < Budget(cfg, s)
  {
    hide BusBound, Orderly, Remaining;
    if |s.outstanding| > 0 {
      MulAtLeast(|s.outstanding|, BusBound(cfg.protocol) + 1);
    } else {
      BusyHasRemainder(cfg, s);
    }
  }

  lemma BusyHasRemainder(cfg: Config, s: SystemState)
    requires Orderly(cfg, s) && !NoJobs(s.caches)
    ensures 0 < Remaining(cfg, s)
  {
    hide AllGood;
  }
}
