/** Lines pushed out by later reads: a cache that reads as many other blocks of a set as the set has ways
    has overwritten the block it used before, without a write back. */
module Overwriting {
  import opened Wrappers
  import opened Bits
  import opened Constants
  import opened Requests
  import opened Sets
  import opened CacheModel
  import opened Coherence
  import opened CacheLemmas
  import opened Freshness
  import opened SystemModel
  import opened BusLemmas
  import opened Refinement
  import opened Runs
  import opened Timing
  import opened Serving
  import opened JobResults
  import opened Staleness
  import opened Recency

  // ---------------------------------------------------------------------------------------------
  // Other blocks of a set.

  /** The `others` are addresses in other blocks of u's set, as many as a set has ways, no two in the same. */
  ghost predicate Rivals(cfg: Config, u: nat, others: seq<nat>) {
    && |others| == cfg.numLinesInSet
    && (forall j | 0 <= j < |others| ::
          && BlockOf(cfg, others[j]) != u && Fits(BlockOf(cfg, others[j]))
          && SetOf(cfg, BlockOf(cfg, others[j])) == SetOf(cfg, u))
    && (forall i, j | 0 <= i < j < |others| :: BlockOf(cfg, others[i]) != BlockOf(cfg, others[j]))
  }

  /** Such addresses there are whenever sets of one more way would make no more than 2^31 lines. */
  lemma RivalsExist(cfg: Config, u: nat) returns (others: seq<nat>)
    requires ValidConfig(cfg) && (cfg.numLinesInSet + 1) * Pow2(cfg.numSetBits) <= 0x8000_0000
    ensures Rivals(cfg, u, others)
  {
    hide BlockOf, SetOf, Fits;
    others := seq(cfg.numLinesInSet, (j: nat) => AddressOf(cfg, Rival(cfg, u, j)));
    forall j: nat | j < |others|
      ensures BlockOf(cfg, others[j]) == Rival(cfg, u, j)
      ensures Rival(cfg, u, j) != u && Fits(Rival(cfg, u, j)) && SetOf(cfg, Rival(cfg, u, j)) == SetOf(cfg, u)
    {
      RivalFits(cfg, u, j);
    }
    forall i, j | 0 <= i < j < |others|
      ensures Rival(cfg, u, i) != Rival(cfg, u, j)
    {
      RivalsDiffer(cfg, u, i, j);
    }
  }

  /** The blocks of u's set in ascending order, without u. */
  function Rival(cfg: Config, u: nat, j: nat): nat {
    var p := Pow2(cfg.numSetBits);
    (if j < u / p then j else j + 1) * p + u % p
  }

  lemma RivalFits(cfg: Config, u: nat, j: nat)
    requires j < cfg.numLinesInSet && (cfg.numLinesInSet + 1) * Pow2(cfg.numSetBits) <= 0x8000_0000
    ensures Rival(cfg, u, j) != u && Fits(Rival(cfg, u, j)) && SetOf(cfg, Rival(cfg, u, j)) == SetOf(cfg, u)
  {
    hide Pow2, SetOf, BlockOf, Fits;
    var p := Pow2(cfg.numSetBits);
    var t := Rival(cfg, u, j);
    InRange(u, p);
    RivalDecoded(u % p, p, cfg.numLinesInSet, if j < u / p then j else j + 1);
    DecodeIsDivision(cfg, AddressOf(cfg, u));
    DecodeIsDivision(cfg, AddressOf(cfg, t));
    FitsExactly(t);
  }

  lemma RivalDecoded(r: nat, p: nat, n: nat, q: nat)
    requires r < p && q <= n
    ensures q * p + r < (n + 1) * p && (q * p + r) / p == q && (q * p + r) % p == r
  {
    DivisionIsUnique(q * p + r, p, q, r);
    assert q * p <= n * p;
  }

  lemma InRange(u: nat, p: nat)
    requires 0 < p
    ensures 0 <= u % p < p && 0 <= u / p
  {
  }

  lemma RivalsDiffer(cfg: Config, u: nat, i: nat, j: nat)
    requires i < j
    ensures Rival(cfg, u, i) != Rival(cfg, u, j)
  {
    hide Pow2;
    var p := Pow2(cfg.numSetBits);
    var r := if i < u / p then i else i + 1;
    var q := if j < u / p then j else j + 1;
    InRange(u, p);
    RivalDecoded(u % p, p, r, r);
    RivalDecoded(u % p, p, q, q);
  }

  // ---------------------------------------------------------------------------------------------
  // What reads of other blocks do to the contents of a block.

  /** The dispatch leaves the other block alone. */
  lemma ForeignAtDispatch(cfg: Config, s: SystemState, k: nat, t: nat, u: nat, v: Versions)
    requires OneTransaction(cfg, s, k, t) && u != t && Fits(t) && IsRead(s.outstanding[0])
    ensures BlockView(cfg, Step(cfg, s), u) == BlockState(ColumnOf(cfg, s.caches, u), None)
    ensures VersionsNext(cfg.protocol, BlockView(cfg, s, u), EventOf(cfg, s, u), v) == v
    ensures Step(cfg, s).bus.currentCache == k < |Step(cfg, s).caches|
    ensures Step(cfg, s).caches[k].currentJob == Some(s.outstanding[0])
  {
    hide Sound, Step, ColumnOf, ToldShared, SnoopedTag, StateIn, BlockOf, EventOf, CommandFor, AsksAgain, BusJob,
         BlockView;
    ForeignEvent(cfg, s, k, t, u);
    BusJobEvents(cfg, s, u);
    assert SnoopedTag(t) == t;
  }

  /** The completion changes no contents either, whether or not it pushes the other block out. */
  lemma ForeignAtCompletion(cfg: Config, s: SystemState, k: nat, t: nat, u: nat, v: Versions)
    requires Sound(cfg, s) && s.bus.inUse && s.bus.endCycle <= s.cycle + 1
    requires s.bus.currentCache == k < |s.caches| && u != t
    requires s.caches[k].currentJob.Some? && IsRead(s.caches[k].currentJob.value) && PendingFor(cfg, s, t).Some?
    ensures VersionsNext(cfg.protocol, BlockView(cfg, s, u), EventOf(cfg, s, u), v) == v
  {
    hide Orderly, AllCoherent, Timely, Step, ColumnOf, StateIn, EventOf, SnoopedTag, SetOf, PushesOut, SetAt, BlockOf;
    CompletionEventIs(cfg, s, u);
    assert !IsWrite(s.caches[k].currentJob.value);
    var event := EventOf(cfg, s, u);
    assert event.Foreign? && event.k == k && event.mistaken.None?;
  }

  lemma ForeignRead(cfg: Config, s: SystemState, k: nat, t: nat, u: nat, v: Versions)
    requires OneTransaction(cfg, s, k, t) && u != t && Fits(t) && IsRead(s.outstanding[0])
    ensures VersionsRun(cfg, s, u, v, JobCycles(cfg, s)) == v
  {
    hide Sound, Step, Run, ColumnOf, JobCycles, BlockOf, ToldShared, BusJob, BlockView, BlockNext, VersionsNext, Waited,
         EventOf, PendingFor, Waiting, AsksAgain, Fits, VersionsRun;
    var wait := BusJobRuns(cfg, s, u);
    var last := Run(cfg, Step(cfg, s), wait);
    ForeignAtDispatch(cfg, s, k, t, u, v);
    WaitedAll(cfg, Step(cfg, s), last, t, u);
    ForeignAtCompletion(cfg, last, k, t, u, v);
    TransactionVersions(cfg, s, u, v, wait);
  }

  // ---------------------------------------------------------------------------------------------
  // The trace.

  /** Cache k reads all of the others. */
  function Reads(k: nat, others: seq<nat>): seq<Job> {
    seq(|others|, j requires 0 <= j < |others| => Job('R', others[j], k))
  }

  /** The first jobs of a trace, about block u, and then reads of all its rivals by cache k. */
  ghost predicate CrowdsOut(cfg: Config, jobs: seq<Job>, start: nat, k: nat, u: nat, others: seq<nat>) {
    && ValidConfig(cfg) && k < cfg.numProcessors && Fits(u) && Rivals(cfg, u, others)
    && start + |others| <= |jobs| && jobs[start..start + |others|] == Reads(k, others)
    && (forall i | 0 <= i < start :: BlockOf(cfg, jobs[i].address) == u)
    && UsedBy(cfg, jobs[..start], k, u) && Undisputed(cfg, jobs[..start], k)
  }

  /** The first j of the rivals. */
  function RivalBlocks(cfg: Config, others: seq<nat>, j: nat): set<nat>
    requires j <= |others|
  {
    set i | 0 <= i < j :: BlockOf(cfg, others[i])
  }

  lemma {:induction false} ManyRivals(cfg: Config, u: nat, others: seq<nat>, j: nat)
    requires Rivals(cfg, u, others) && j <= |others|
    ensures |RivalBlocks(cfg, others, j)| == j
  {
    hide BlockOf, SetOf, Fits;
    if j > 0 {
      ManyRivals(cfg, u, others, j - 1);
      assert RivalBlocks(cfg, others, j) == RivalBlocks(cfg, others, j - 1) + {BlockOf(cfg, others[j - 1])};
    } else {
      assert RivalBlocks(cfg, others, 0) == {};
    }
  }

  lemma {:induction false} NothingSince(cfg: Config, jobs: seq<Job>, k: nat, u: nat)
    requires forall i | 0 <= i < |jobs| :: BlockOf(cfg, jobs[i].address) == u
    ensures UsedSince(cfg, jobs, k, u) == {}
  {
    hide BlockOf, SetOf;
    if |jobs| > 0 {
      NothingSince(cfg, jobs[..|jobs| - 1], k, u);
    }
  }

  /** What cache k has used when the first j rivals have been read. */
  lemma {:induction false} Crowd(cfg: Config, jobs: seq<Job>, start: nat, k: nat, u: nat, others: seq<nat>, j: nat)
    requires CrowdsOut(cfg, jobs, start, k, u, others) && j <= |others|
    ensures UsedBy(cfg, jobs[..start + j], k, u)
    ensures UsedSince(cfg, jobs[..start + j], k, u) == RivalBlocks(cfg, others, j)
    ensures forall i | j <= i < |others| :: !UsedBy(cfg, jobs[..start + j], k, BlockOf(cfg, others[i]))
  {
    hide BlockOf, SetOf, Fits, Undisputed, UsedSince;
    if j == 0 {
      NothingSince(cfg, jobs[..start], k, u);
    } else {
      Crowd(cfg, jobs, start, k, u, others, j - 1);
      var job := jobs[start + j - 1];
      assert job == jobs[start..start + |others|][j - 1];
      assert jobs[..start + j] == jobs[..start + j - 1] + [job];
      hide UsedBy;
      UsedNext(cfg, jobs[..start + j - 1], job, k, u);
      forall i | j <= i < |others|
        ensures !UsedBy(cfg, jobs[..start + j], k, BlockOf(cfg, others[i]))
      {
        UsedNext(cfg, jobs[..start + j - 1], job, k, BlockOf(cfg, others[i]));
      }
    }
  }

  /** Nobody disputes those blocks. */
  lemma CrowdUndisputed(cfg: Config, jobs: seq<Job>, start: nat, k: nat, u: nat, others: seq<nat>, j: nat)
    requires CrowdsOut(cfg, jobs, start, k, u, others) && j <= |others|
    ensures Undisputed(cfg, jobs[..start + j], k)
  {
    hide BlockOf, SetOf, Fits, UsedBy, UsedSince;
    var all := jobs[..start + j];
    forall i | 0 <= i < |all|
      ensures all[i].threadId < cfg.numProcessors && (IsRead(all[i]) || IsWrite(all[i]))
      ensures Undisturbed(cfg, all[..i], all[i], k) && Lasting(cfg, all[..i], all[i], k)
    {
      if i < start {
        assert all[..i] == jobs[..start][..i] && all[i] == jobs[..start][i];
      } else {
        assert all[i] == jobs[start..start + |others|][i - start];
      }
    }
  }

  /** Cache k holds u exactly as long as not all rivals have been read. */
  lemma CrowdHolds(cfg: Config, jobs: seq<Job>, times: seq<nat>, start: nat, k: nat, u: nat, others: seq<nat>, j: nat)
    requires CrowdsOut(cfg, jobs, start, k, u, others) && j <= |others|
    requires |times| == |jobs| + 1 && times[0] == 0
    requires forall i | 0 <= i < |jobs| :: ServedBetween(cfg, jobs, i, times[i], times[i + 1])
    ensures HeldAfter(cfg, jobs, times[start + j], k, u) != Invalid <==> j < cfg.numLinesInSet
    ensures forall i | j <= i < |others| ::
              HeldAfter(cfg, jobs, times[start + j], k, BlockOf(cfg, others[i])) == Invalid
  {
    hide After, ServedBetween, RecentlyUsed, Undisputed, UsedSince, BlockOf, HeldAfter, UsedBy, RivalBlocks, Fits;
    CrowdUndisputed(cfg, jobs, start, k, u, others, j);
    RunsKeepRecent(cfg, jobs, times, k, start + j);
    Crowd(cfg, jobs, start, k, u, others, j);
    ManyRivals(cfg, u, others, j);
    HeldIsReachable(cfg, jobs, times[start + j], jobs[..start + j], k, u);
    forall i | j <= i < |others|
      ensures HeldAfter(cfg, jobs, times[start + j], k, BlockOf(cfg, others[i])) == Invalid
    {
      HeldIsReachable(cfg, jobs, times[start + j], jobs[..start + j], k, BlockOf(cfg, others[i]));
    }
  }

  /** The reads change nothing in what has been written and saved of block u. */
  lemma {:induction false} CrowdVersions(cfg: Config, jobs: seq<Job>, times: seq<nat>, start: nat, k: nat, u: nat,
                                         others: seq<nat>, j: nat)
    requires CrowdsOut(cfg, jobs, start, k, u, others) && j <= |others|
    requires |times| == |jobs| + 1 && times[0] == 0
    requires forall i | 0 <= i < |jobs| :: ServedBetween(cfg, jobs, i, times[i], times[i + 1])
    ensures VersionsAfter(cfg, jobs, u, times[start + j]) == VersionsAfter(cfg, jobs, u, times[start])
  {
    hide Run, ServedBetween, VersionsRun, InitialSystem, BlockOf, StateIn, ColumnOf, Undisputed, Fits, OneTransaction,
         JobCycles, UsedBy;
    if j > 0 {
      var n := start + j - 1;
      var s := After(cfg, jobs, times[n]);
      var t := BlockOf(cfg, others[j - 1]);
      var v := VersionsAfter(cfg, jobs, u, times[start]);
      CrowdVersions(cfg, jobs, times, start, k, u, others, j - 1);
      CrowdHolds(cfg, jobs, times, start, k, u, others, j - 1);
      assert jobs[n] == jobs[start..start + |others|][j - 1];
      BetweenIsReady(cfg, jobs, n, times[n], times[n + 1]);
      ColumnHolds(cfg, s.caches, t);
      AbsentTakesBus(cfg, s, k, t);
      ForeignRead(cfg, s, k, t, u, v);
      BetweenCycles(cfg, jobs, n, times[n], times[n + 1]);
      VersionsAdd(cfg, InitialSystem(cfg, jobs), u, NoWrites(cfg), times[n], JobCycles(cfg, s));
    }
  }

  lemma BetweenCycles(cfg: Config, jobs: seq<Job>, j: nat, n: nat, n': nat)
    requires j < |jobs| && ServedBetween(cfg, jobs, j, n, n') && (IsRead(jobs[j]) || IsWrite(jobs[j]))
    requires 0 < |After(cfg, jobs, n).outstanding| && After(cfg, jobs, n).outstanding[0] == jobs[j]
    requires jobs[j].threadId < |After(cfg, jobs, n).caches|
    ensures n' == n + JobCycles(cfg, After(cfg, jobs, n))
  {
    hide After, JobCycles, Satisfied, ColumnOf, BlockOf, Fits;
  }

  lemma BetweenSatisfied(cfg: Config, jobs: seq<Job>, j: nat, n: nat, n': nat)
    requires ValidConfig(cfg) && j < |jobs| && ServedBetween(cfg, jobs, j, n, n')
    requires IsRead(jobs[j]) || IsWrite(jobs[j])
    requires Fits(BlockOf(cfg, jobs[j].address))
    ensures 0 < |After(cfg, jobs, n).outstanding| && After(cfg, jobs, n).outstanding[0] == jobs[j]
    ensures jobs[j].threadId < |After(cfg, jobs, n).caches|
    ensures Satisfied(cfg, After(cfg, jobs, n), After(cfg, jobs, n'))
  {
    hide After, JobCycles, Satisfied, ColumnOf, BlockOf, Fits;
    assert jobs[j..][0] == jobs[j];
  }

  /** A read and a write of a block, first of all: memory is behind. */
  lemma WrittenFirst(cfg: Config, jobs: seq<Job>, times: seq<nat>, a: nat, k: nat)
    requires ValidConfig(cfg) && k < cfg.numProcessors && Fits(BlockOf(cfg, a))
    requires 2 <= |jobs| && jobs[0] == Job('R', a, k) && jobs[1] == Job('W', a, k)
    requires |times| == |jobs| + 1 && times[0] == 0
    requires forall i | 0 <= i < |jobs| :: ServedBetween(cfg, jobs, i, times[i], times[i + 1])
    ensures var v := VersionsAfter(cfg, jobs, BlockOf(cfg, a), times[2]);
            |v.held| == cfg.numProcessors && v.memory < v.latest
    ensures forall i | 0 <= i < cfg.numProcessors && i != k ::
              HeldAfter(cfg, jobs, times[2], i, BlockOf(cfg, a)) == Invalid
  {
    hide After, ServedBetween, VersionsRun, InitialSystem, BlockOf, ColumnOf, Fits, Satisfied, Sound, NoCopies, WasRead,
         Written;
    var u := BlockOf(cfg, a);
    StartIsReady(cfg, jobs, u);
    BetweenSatisfied(cfg, jobs, 0, times[0], times[1]);
    BetweenSatisfied(cfg, jobs, 1, times[1], times[2]);
    ReadServed(cfg, After(cfg, jobs, times[0]), After(cfg, jobs, times[1]), k, u);
    ReadServed(cfg, After(cfg, jobs, times[1]), After(cfg, jobs, times[2]), k, u);
    ReadThenWrite(cfg.protocol, ColumnOf(cfg, After(cfg, jobs, times[0]).caches, u),
                  ColumnOf(cfg, After(cfg, jobs, times[1]).caches, u),
                  ColumnOf(cfg, After(cfg, jobs, times[2]).caches, u), k);
    RunsAreUnsaved(cfg, jobs, u, times[2]);
    RunsAreSound(cfg, jobs, times[2]);
    BetweenEnds(cfg, jobs, 1, times[1], times[2]);
    RestingView(cfg, After(cfg, jobs, times[2]), u);
  }

  /** Nor do they change how the other caches hold u. */
  lemma {:induction false} PeersStay(cfg: Config, jobs: seq<Job>, times: seq<nat>, start: nat, k: nat, u: nat,
                                     others: seq<nat>, j: nat, i: nat)
    requires CrowdsOut(cfg, jobs, start, k, u, others) && j <= |others| && i < cfg.numProcessors && i != k
    requires |times| == |jobs| + 1 && times[0] == 0
    requires forall i | 0 <= i < |jobs| :: ServedBetween(cfg, jobs, i, times[i], times[i + 1])
    ensures HeldAfter(cfg, jobs, times[start + j], i, u) == HeldAfter(cfg, jobs, times[start], i, u)
  {
    hide After, ServedBetween, BlockOf, SetOf, Undisputed, UsedBy, HeldAfter;
    if j > 0 {
      PeersStay(cfg, jobs, times, start, k, u, others, j - 1, i);
      var n := start + j - 1;
      assert jobs[n] == jobs[start..start + |others|][j - 1];
      OthersUnmoved(cfg, jobs, n, times[n], times[n + 1], i, u);
    }
  }

  lemma ColumnAfter(cfg: Config, jobs: seq<Job>, n: nat, u: nat)
    requires ValidConfig(cfg)
    ensures var column := ColumnOf(cfg, After(cfg, jobs, n).caches, u);
            |column| == cfg.numProcessors && forall i | 0 <= i < |column| :: column[i] == HeldAfter(cfg, jobs, n, i, u)
  {
    hide After, ColumnOf, Sound;
    RunsAreSound(cfg, jobs, n);
    SoundWidth(cfg, After(cfg, jobs, n), u);
  }

  /** A processor reads and writes a block and then reads as many others of its set as there are ways. */
  function Crowding(a: nat, k: nat, others: seq<nat>): seq<Job> {
    [Job('R', a, k), Job('W', a, k)] + Reads(k, others)
  }

  lemma CrowdingCrowds(cfg: Config, a: nat, k: nat, others: seq<nat>, rest: seq<Job>)
    requires ValidConfig(cfg) && k < cfg.numProcessors && Fits(BlockOf(cfg, a)) && Rivals(cfg, BlockOf(cfg, a), others)
    ensures CrowdsOut(cfg, Crowding(a, k, others) + rest, 2, k, BlockOf(cfg, a), others)
  {
    hide BlockOf, SetOf, Fits, SnoopedTag;
    var jobs := Crowding(a, k, others) + rest;
    var u := BlockOf(cfg, a);
    assert jobs[2..2 + |others|] == Reads(k, others);
    assert jobs[..2] == [Job('R', a, k), Job('W', a, k)];
    NothingSince(cfg, jobs[..2][..1], k, u);
    assert Uses(cfg, jobs[..2][0], k, u) && Uses(cfg, jobs[..2][..1][0], k, u);
  }

  /** The written block stays until as many other blocks of its set have been read as the set has ways, and no
      longer. */
  lemma StaysWhileRoom(cfg: Config, a: nat, k: nat, others: seq<nat>) returns (times: seq<nat>)
    requires ValidConfig(cfg) && k < cfg.numProcessors && Fits(BlockOf(cfg, a)) && Rivals(cfg, BlockOf(cfg, a), others)
    ensures var jobs := Crowding(a, k, others);
            && |times| == |jobs| + 1 && times[0] == 0
            && (forall j | 0 <= j < |jobs| :: ServedBetween(cfg, jobs, j, times[j], times[j + 1]))
            && forall n | 2 <= n <= |jobs| ::
                 HeldAfter(cfg, jobs, times[n], k, BlockOf(cfg, a)) != Invalid <==> n < 2 + cfg.numLinesInSet
  {
    hide After, ServedBetween, BlockOf, HeldAfter, Fits, Rivals, CrowdsOut;
    var jobs := Crowding(a, k, others);
    times := TraceIsServed(cfg, jobs, |jobs|);
    assert jobs + [] == jobs;
    CrowdingCrowds(cfg, a, k, others, []);
    forall n | 2 <= n <= |jobs|
      ensures HeldAfter(cfg, jobs, times[n], k, BlockOf(cfg, a)) != Invalid <==> n < 2 + cfg.numLinesInSet
    {
      CrowdHolds(cfg, jobs, times, 2, k, BlockOf(cfg, a), others, n - 2);
    }
  }

  /** Once it is gone, whoever reads it next does not see the write. */
  lemma OverwrittenIsStale(cfg: Config, a: nat, k: nat, others: seq<nat>, reader: nat) returns (n: nat)
    requires ValidConfig(cfg) && k < cfg.numProcessors && reader < cfg.numProcessors
    requires Fits(BlockOf(cfg, a)) && Rivals(cfg, BlockOf(cfg, a), others)
    ensures var jobs := Crowding(a, k, others) + [Job('R', a, reader)];
            var t := BlockOf(cfg, a);
            !Fresh(ColumnOf(cfg, After(cfg, jobs, n).caches, t), VersionsAfter(cfg, jobs, t, n))
  {
    hide Run, ServedBetween, VersionsRun, InitialSystem, BlockOf, ColumnOf, Fits, Sound, CrowdsOut, HeldAfter,
         JobCycles;
    var u := BlockOf(cfg, a);
    var jobs := Crowding(a, k, others) + [Job('R', a, reader)];
    var count := 2 + |others|;
    var times := TraceIsServed(cfg, jobs, |jobs|);
    CrowdingCrowds(cfg, a, k, others, [Job('R', a, reader)]);
    WrittenFirst(cfg, jobs, times, a, k);
    CrowdVersions(cfg, jobs, times, 2, k, u, others, |others|);
    CrowdHolds(cfg, jobs, times, 2, k, u, others, |others|);
    forall i | 0 <= i < cfg.numProcessors && i != k
      ensures HeldAfter(cfg, jobs, times[count], i, u) == Invalid
    {
      PeersStay(cfg, jobs, times, 2, k, u, others, |others|, i);
    }
    ColumnAfter(cfg, jobs, times[count], u);
    BetweenIsReady(cfg, jobs, count, times[count], times[count + 1]);
    var s := After(cfg, jobs, times[count]);
    var m := LoneReadIsStale(cfg, s, reader, u, VersionsAfter(cfg, jobs, u, times[count]));
    n := times[count] + m;
    RunAdds(cfg, InitialSystem(cfg, jobs), times[count], m);
    VersionsAdd(cfg, InitialSystem(cfg, jobs), u, NoWrites(cfg), times[count], m);
  }
}
