/** Replacement over whole traces: what a processor uses last is what its cache keeps. */
module Recency {
  import opened Constants
  import opened Requests
  import opened Sets
  import opened CacheModel
  import opened CacheLemmas
  import opened SystemModel
  import opened BusLemmas
  import opened Refinement
  import opened Runs
  import opened Timing
  import opened Serving
  import opened JobResults
  import opened Accounting
  import opened Transactions
  import opened Counts
  import opened LastUse

  // ---------------------------------------------------------------------------------------------
  // One job of a trace.

  /** The job that is served between two moments of a run, from the first of them. */
  lemma BetweenIsReady(cfg: Config, jobs: seq<Job>, j: nat, n: nat, n': nat)
    requires ValidConfig(cfg) && j < |jobs| && ServedBetween(cfg, jobs, j, n, n')
    requires IsRead(jobs[j]) || IsWrite(jobs[j])
    ensures var s := After(cfg, jobs, n);
            && Ready(cfg, s) && s.outstanding[0] == jobs[j] && After(cfg, jobs, n') == Run(cfg, s, JobCycles(cfg, s))
            && |s.caches| == cfg.numProcessors && jobs[j].threadId < cfg.numProcessors
            && After(cfg, jobs, n').cycle == s.cycle + JobCycles(cfg, s) && 2 <= JobCycles(cfg, s)
  {
    hide Sound, Run, InitialSystem, JobCycles, Satisfied, ColumnOf, Fits, BlockOf;
    var s := After(cfg, jobs, n);
    RunsAreSound(cfg, jobs, n);
    SoundWidth(cfg, s, 0);
    assert jobs[j..][0] == jobs[j];
    RunAdds(cfg, InitialSystem(cfg, jobs), n, n' - n);
    JobTakes(cfg, s);
  }

  lemma JobTakes(cfg: Config, s: SystemState)
    requires Ready(cfg, s)
    ensures Run(cfg, s, JobCycles(cfg, s)).cycle == s.cycle + JobCycles(cfg, s) && 2 <= JobCycles(cfg, s)
  {
    hide Sound, Run, JobCycles, BusJob, ToldShared, Taker, FinishJob, Idle, Concluded;
    JobLasts(cfg, s);
    if !BusJob(cfg, s) {
      HitIs(cfg, s);
    } else if AsksAgain(cfg, s.outstanding[0], ToldShared(cfg, s.caches, s.outstanding[0])) {
      var mid := TwiceIs(cfg, s);
    } else {
      OnceIs(cfg, s);
    }
  }

  lemma StampsAre(cfg: Config, cycle: nat, c: CacheState, x: nat)
    requires ValidConfig(cfg) && GoodSets(cfg, cycle, c.localCache)
    ensures forall u | u in LinesOf(cfg, c, x) :: LinesOf(cfg, c, x)[u].1 <= cycle
  {
    hide Contents, GoodSets;
    GoodWaysOf(cfg, cycle, c, x);
    var ways := WaysOf(cfg, c, x);
    forall u | u in Contents(ways)
      ensures Contents(ways)[u].1 <= cycle
    {
      ContentsAt(ways, u);
    }
  }

  lemma RestedStamps(cfg: Config, cycle: nat, c: CacheState, m: Lines)
    requires forall u | u in m :: m[u].1 <= cycle
    ensures forall u | u in Rested(cfg, cycle, c, m) :: Rested(cfg, cycle, c, m)[u].1 <= cycle
  {
  }

  lemma SettledNewest(m: Lines, capacity: nat, t: nat, state: State, now: nat, m': Lines)
    requires Settled(m, capacity, t, state, now, m') && forall u | u in m :: m[u].1 < now
    ensures t in m' <==> state != Invalid
    ensures t in m' ==> m'[t] == (state, now)
    ensures forall u | u in m' && u != t :: u in m && m'[u] == m[u] && m'[u].1 < now
  {
  }

  /** After a read or a write by cache k, in every run of every protocol: the block, if k has it, was last
      used in the cycle in which the job ended, and every other block of its set before. */
  lemma NewestAfterJob(cfg: Config, jobs: seq<Job>, j: nat, n: nat, n': nat)
    requires ValidConfig(cfg) && j < |jobs| && ServedBetween(cfg, jobs, j, n, n')
    requires IsRead(jobs[j]) || IsWrite(jobs[j])
    ensures var s' := After(cfg, jobs, n');
            var k, t := jobs[j].threadId, BlockOf(cfg, jobs[j].address);
            k < |s'.caches|
            && var m := LinesOf(cfg, s'.caches[k], t);
               && (t in m ==> m[t].1 == s'.cycle)
               && forall u | u in m && u != t :: m[u].1 < s'.cycle
  {
    hide After, ServedBetween, BlockOf, JobCycles, Run, LinesOf, GoodSets, Rested, StateIn, Settled, OwnAfter, Helped,
         HeardColumn, Sound, HelpedBefore;
    var s := After(cfg, jobs, n);
    var k, t := jobs[j].threadId, BlockOf(cfg, jobs[j].address);
    BetweenIsReady(cfg, jobs, j, n, n');
    LinesOverJob(cfg, s, k, t);
    ReadyIsGood(cfg, s, k);
    LaterIsGood(cfg, s.cycle, s.cycle + 1, s.caches[k].localCache);
    StampsAre(cfg, s.cycle + 1, s.caches[k], t);
    RestedStamps(cfg, s.cycle + 1, s.caches[k], LinesOf(cfg, s.caches[k], t));
    SettledNewest(Rested(cfg, s.cycle + 1, s.caches[k], LinesOf(cfg, s.caches[k], t)), cfg.numLinesInSet, t,
                  OwnAfter(cfg.protocol, IsWrite(jobs[j]), OwnBefore(cfg, s), HelpedBefore(cfg, s)),
                  After(cfg, jobs, n').cycle, LinesOf(cfg, After(cfg, jobs, n').caches[k], t));
  }

  lemma ReadyIsGood(cfg: Config, s: SystemState, i: nat)
    requires Ready(cfg, s) && i < |s.caches|
    ensures ValidConfig(cfg) && GoodSets(cfg, s.cycle, s.caches[i].localCache)
  {
    hide Sound, Orderly, GoodSets;
    ReadyIsOrderly(cfg, s);
    AtRest(cfg, s, i);
  }

  /** In the other caches a job touches no block but the one its request names. */
  lemma OthersUnmoved(cfg: Config, jobs: seq<Job>, j: nat, n: nat, n': nat, i: nat, x: nat)
    requires ValidConfig(cfg) && j < |jobs| && ServedBetween(cfg, jobs, j, n, n')
    requires IsRead(jobs[j]) || IsWrite(jobs[j])
    requires i < cfg.numProcessors && i != jobs[j].threadId && x != SnoopedTag(BlockOf(cfg, jobs[j].address))
    ensures HeldAfter(cfg, jobs, n', i, x) == HeldAfter(cfg, jobs, n, i, x)
  {
    hide After, ServedBetween, BlockOf, SnoopedTag, JobCycles, Run, LinesOf, GoodSets, Rested, StateIn, Put, Sound,
         HeardAt, HelpedBefore, PeerAfter, ColumnOf, HasLine;
    var s, s' := After(cfg, jobs, n), After(cfg, jobs, n');
    BetweenIsReady(cfg, jobs, j, n, n');
    LinesOverJob(cfg, s, i, x);
    BetweenWidths(cfg, jobs, j, n, n');
    ReadyIsGood(cfg, s, i);
    RunsAreSound(cfg, jobs, n');
    SoundIsGood(cfg, s', i);
    HeldInLines(cfg, s.cycle, s.caches[i], x);
    HeldInLines(cfg, s'.cycle, s'.caches[i], x);
    ColumnHolds(cfg, s.caches, x);
    ColumnHolds(cfg, s'.caches, x);
    var u := SnoopedTag(BlockOf(cfg, jobs[j].address));
    var state := PeerAfter(cfg.protocol, IsWrite(jobs[j]), OwnBefore(cfg, s), StateIn(cfg, s.caches[i], u));
    StatesStay(cfg, s'.cycle, s.caches[i], LinesOf(cfg, s.caches[i], x), u, state, HeardAt(cfg, s, s'.cycle), x);
  }

  lemma SoundIsGood(cfg: Config, s: SystemState, i: nat)
    requires Sound(cfg, s) && i < |s.caches|
    ensures ValidConfig(cfg) && GoodSets(cfg, s.cycle, s.caches[i].localCache)
  {
    hide AllCoherent, Timely, GoodSets;
  }

  lemma HeldInLines(cfg: Config, cycle: nat, c: CacheState, x: nat)
    requires ValidConfig(cfg) && GoodSets(cfg, cycle, c.localCache)
    ensures var m := LinesOf(cfg, c, x);
            StateIn(cfg, c, x) == if x in m then m[x].0 else Invalid
  {
    hide GoodSets, StateIn, Contents, HasLine, WaysOf;
    GoodWaysOf(cfg, cycle, c, x);
  }

  lemma StatesStay(cfg: Config, cycle: nat, c: CacheState, m: Lines, u: nat, state: State, at: int, x: nat)
    requires x != u
    ensures var m' := Rested(cfg, cycle, c, m);
            (x in m' <==> x in m) && (x in m ==> m'[x].0 == m[x].0)
    ensures 0 <= at ==>
              var m' := Rested(cfg, cycle, c, Put(m, u, state, at));
              (x in m' <==> x in m) && (x in m ==> m'[x].0 == m[x].0)
  {
  }

  // ---------------------------------------------------------------------------------------------
  // Use, told from the trace.

  /** The job is one of processor k, about that block. */
  predicate Uses(cfg: Config, job: Job, k: nat, x: nat) {
    job.threadId == k && BlockOf(cfg, job.address) == x
  }

  /** Processor k has used block x. */
  ghost predicate UsedBy(cfg: Config, jobs: seq<Job>, k: nat, x: nat) {
    exists j | 0 <= j < |jobs| :: Uses(cfg, jobs[j], k, x)
  }

  /** The other blocks of x's set that processor k has used since it used x last. */
  function UsedSince(cfg: Config, jobs: seq<Job>, k: nat, x: nat): set<nat> {
    if |jobs| == 0 then {}
    else
      var earlier, job := jobs[..|jobs| - 1], jobs[|jobs| - 1];
      var t := BlockOf(cfg, job.address);
      if job.threadId != k || SetOf(cfg, t) != SetOf(cfg, x) then UsedSince(cfg, earlier, k, x)
      else if t == x then {}
      else UsedSince(cfg, earlier, k, x) + {t}
  }

  lemma UsedNext(cfg: Config, jobs: seq<Job>, job: Job, k: nat, x: nat)
    ensures UsedBy(cfg, jobs + [job], k, x) <==> UsedBy(cfg, jobs, k, x) || Uses(cfg, job, k, x)
    ensures var t := BlockOf(cfg, job.address);
            UsedSince(cfg, jobs + [job], k, x)
            == if job.threadId != k || SetOf(cfg, t) != SetOf(cfg, x) then UsedSince(cfg, jobs, k, x)
               else if t == x then {} else UsedSince(cfg, jobs, k, x) + {t}
  {
    hide BlockOf, SetOf;
    var all := jobs + [job];
    assert all[..|all| - 1] == jobs;
    if UsedBy(cfg, jobs, k, x) {
      var j :| 0 <= j < |jobs| && Uses(cfg, jobs[j], k, x);
      assert Uses(cfg, all[j], k, x);
    }
    if Uses(cfg, job, k, x) { assert Uses(cfg, all[|jobs|], k, x); }
    if UsedBy(cfg, all, k, x) {
      var j :| 0 <= j < |all| && Uses(cfg, all[j], k, x);
      assert j < |jobs| ==> Uses(cfg, jobs[j], k, x);
    }
  }

  /** The blocks used since are used, in the same set, and others; and use is a linear order. */
  lemma {:induction false} SinceFacts(cfg: Config, jobs: seq<Job>, k: nat, b: nat, d: nat)
    ensures b !in UsedSince(cfg, jobs, k, b)
    ensures d in UsedSince(cfg, jobs, k, b) ==> UsedBy(cfg, jobs, k, d) && SetOf(cfg, d) == SetOf(cfg, b)
    ensures d in UsedSince(cfg, jobs, k, b) ==> UsedSince(cfg, jobs, k, d) <= UsedSince(cfg, jobs, k, b)
    ensures b != d && SetOf(cfg, b) == SetOf(cfg, d) && UsedBy(cfg, jobs, k, b) && UsedBy(cfg, jobs, k, d) ==>
              d in UsedSince(cfg, jobs, k, b) || b in UsedSince(cfg, jobs, k, d)
  {
    hide BlockOf, SetOf;
    if |jobs| > 0 {
      var earlier, job := jobs[..|jobs| - 1], jobs[|jobs| - 1];
      assert jobs == earlier + [job];
      SinceFacts(cfg, earlier, k, b, d);
      SinceFacts(cfg, earlier, k, d, b);
      UsedNext(cfg, earlier, job, k, b);
      UsedNext(cfg, earlier, job, k, d);
      hide UsedBy, UsedSince;
    }
  }

  // ---------------------------------------------------------------------------------------------
  // Least recently used.

  /** The set of block x holds exactly the blocks of the set that k has used most recently, as many as there are
      ways, and their stamps are in the order of their last uses. */
  ghost predicate KeepsRecent(cfg: Config, jobs: seq<Job>, k: nat, x: nat, m: Lines) {
    && (forall b :: b in m <==>
          SetOf(cfg, b) == SetOf(cfg, x) && UsedBy(cfg, jobs, k, b) && |UsedSince(cfg, jobs, k, b)| < cfg.numLinesInSet)
    && forall b, d | b in m && d in m && d in UsedSince(cfg, jobs, k, b) :: m[b].1 < m[d].1
  }

  /** What is used since a block that is kept is kept. */
  lemma KeptSince(cfg: Config, jobs: seq<Job>, k: nat, x: nat, m: Lines, b: nat)
    requires KeepsRecent(cfg, jobs, k, x, m) && b in m
    ensures UsedSince(cfg, jobs, k, b) <= m.Keys - {b}
  {
    hide SetOf, UsedBy, UsedSince;
    forall d | d in UsedSince(cfg, jobs, k, b)
      ensures d in m && d != b
    {
      SinceFacts(cfg, jobs, k, b, d);
      SinceFacts(cfg, jobs, k, d, b);
      SmallerSet(UsedSince(cfg, jobs, k, d), UsedSince(cfg, jobs, k, b));
    }
  }

  lemma SmallerSet(a: set<nat>, b: set<nat>)
    requires a <= b
    ensures |a| <= |b|
  {
    assert b == a + (b - a);
    assert |b| == |a| + |b - a|;
  }

  /** A use of a block of another set, or by another processor. */
  lemma KeepsOthers(cfg: Config, jobs: seq<Job>, job: Job, k: nat, x: nat, m: Lines)
    requires KeepsRecent(cfg, jobs, k, x, m)
    requires job.threadId != k || SetOf(cfg, BlockOf(cfg, job.address)) != SetOf(cfg, x)
    ensures KeepsRecent(cfg, jobs + [job], k, x, m)
  {
    hide SetOf, UsedBy, UsedSince, BlockOf;
    forall b | SetOf(cfg, b) == SetOf(cfg, x)
      ensures UsedBy(cfg, jobs + [job], k, b) <==> UsedBy(cfg, jobs, k, b)
      ensures UsedSince(cfg, jobs + [job], k, b) == UsedSince(cfg, jobs, k, b)
    {
      UsedNext(cfg, jobs, job, k, b);
    }
  }

  /** A use of a block of the set. */
  lemma KeepsUsed(cfg: Config, jobs: seq<Job>, job: Job, k: nat, t: nat, m: Lines, state: State, now: nat, m': Lines)
    requires 0 < cfg.numLinesInSet && KeepsRecent(cfg, jobs, k, t, m) && Uses(cfg, job, k, t)
    requires state != Invalid && Settled(m, cfg.numLinesInSet, t, state, now, m') && forall u | u in m :: m[u].1 < now
    ensures KeepsRecent(cfg, jobs + [job], k, t, m')
  {
    hide SetOf, UsedBy, UsedSince, BlockOf, Settled;
    SettledNewest(m, cfg.numLinesInSet, t, state, now, m');
    forall b
      ensures b in m' <==> SetOf(cfg, b) == SetOf(cfg, t) && UsedBy(cfg, jobs + [job], k, b)
                           && |UsedSince(cfg, jobs + [job], k, b)| < cfg.numLinesInSet
    {
      UsedNext(cfg, jobs, job, k, b);
      if b != t && SetOf(cfg, b) == SetOf(cfg, t) {
        KeepsOne(cfg, jobs, k, t, m, state, now, m', b);
      }
    }
    forall b, d | b in m' && d in m' && d in UsedSince(cfg, jobs + [job], k, b)
      ensures m'[b].1 < m'[d].1
    {
      UsedNext(cfg, jobs, job, k, b);
    }
  }

  /** Another block of the set stays exactly if there is room for it behind t and what was used since. */
  lemma KeepsOne(cfg: Config, jobs: seq<Job>, k: nat, t: nat, m: Lines, state: State, now: nat, m': Lines, b: nat)
    requires 0 < cfg.numLinesInSet && KeepsRecent(cfg, jobs, k, t, m) && b != t && SetOf(cfg, b) == SetOf(cfg, t)
    requires state != Invalid && Settled(m, cfg.numLinesInSet, t, state, now, m')
    ensures b in m' <==> UsedBy(cfg, jobs, k, b) && |UsedSince(cfg, jobs, k, b) + {t}| < cfg.numLinesInSet
  {
    hide SetOf, UsedBy, UsedSince;
    var since := UsedSince(cfg, jobs, k, b);
    SmallerSet(since, since + {t});
    if b in m {
      KeptSince(cfg, jobs, k, t, m, b);
      KeptAreFew(cfg, jobs, k, t, m);
      assert |m.Keys| == |m|;
      if t in m {
        SmallerSet(since + {t}, m.Keys - {b});
      } else if |m| < cfg.numLinesInSet {
        SmallerSet(since, m.Keys - {b});
      } else {
        var oldest :| oldest in m && (forall u | u in m :: m[oldest].1 <= m[u].1)
            && m' == (m - {oldest})[t := (state, now)];
        RoomBehind(cfg, jobs, k, t, m, oldest, b);
      }
    }
  }

  /** There is room behind every block of a full set but the oldest. */
  lemma RoomBehind(cfg: Config, jobs: seq<Job>, k: nat, t: nat, m: Lines, oldest: nat, b: nat)
    requires KeepsRecent(cfg, jobs, k, t, m) && t !in m && b in m && |m| == cfg.numLinesInSet
    requires oldest in m && forall u | u in m :: m[oldest].1 <= m[u].1
    ensures b != oldest <==> |UsedSince(cfg, jobs, k, b) + {t}| < cfg.numLinesInSet
  {
    hide SetOf, UsedBy;
    var since := UsedSince(cfg, jobs, k, b);
    hide UsedSince;
    KeptSince(cfg, jobs, k, t, m, b);
    assert |m.Keys| == |m|;
    if b == oldest {
      AllSince(cfg, jobs, k, t, m, b);
      assert since + {t} == m.Keys - {b} + {t};
    } else {
      assert oldest !in since;
      hide KeepsRecent;
      SmallerSet(since, m.Keys - {b} - {oldest});
    }
  }

  /** All the others have been used since the oldest. */
  lemma AllSince(cfg: Config, jobs: seq<Job>, k: nat, x: nat, m: Lines, oldest: nat)
    requires KeepsRecent(cfg, jobs, k, x, m) && oldest in m && forall u | u in m :: m[oldest].1 <= m[u].1
    ensures UsedSince(cfg, jobs, k, oldest) == m.Keys - {oldest}
  {
    hide SetOf, UsedBy, UsedSince;
    KeptSince(cfg, jobs, k, x, m, oldest);
    forall d | d in m && d != oldest
      ensures d in UsedSince(cfg, jobs, k, oldest)
    {
      SinceFacts(cfg, jobs, k, oldest, d);
    }
  }

  lemma {:induction false} SomeOldest(m: Lines) returns (oldest: nat)
    requires |m| > 0
    ensures oldest in m && forall u | u in m :: m[oldest].1 <= m[u].1
    decreases |m|
  {
    assert |m.Keys| == |m|;
    var b :| b in m.Keys;
    var rest := m - {b};
    assert rest.Keys == m.Keys - {b} && |rest.Keys| == |rest|;
    if |rest| == 0 {
      oldest := b;
    } else {
      var o := SomeOldest(rest);
      assert forall u | u in m && u != b :: u in rest && rest[u] == m[u];
      oldest := if m[b].1 <= m[o].1 then b else o;
    }
  }

  /** A set keeps no more blocks than it has ways. */
  lemma KeptAreFew(cfg: Config, jobs: seq<Job>, k: nat, x: nat, m: Lines)
    requires KeepsRecent(cfg, jobs, k, x, m)
    ensures |m| <= cfg.numLinesInSet
  {
    hide SetOf, UsedBy, UsedSince;
    if |m| > 0 {
      var oldest := SomeOldest(m);
      AllSince(cfg, jobs, k, x, m, oldest);
      assert |m.Keys| == |m| && |m.Keys - {oldest}| == |m| - 1;
    }
  }

  // ---------------------------------------------------------------------------------------------
  // Runs.

  /** A job of another processor leaves the order of k's blocks alone: it is heard as one about a block that k
      has not used, or as one that does not take away the one that k has used last in its set. */
  ghost predicate Undisturbed(cfg: Config, earlier: seq<Job>, job: Job, k: nat) {
    var u := SnoopedTag(BlockOf(cfg, job.address));
    job.threadId != k ==>
      !UsedBy(cfg, earlier, k, u) || ((IsRead(job) || cfg.protocol == DRAGON) && UsedSince(cfg, earlier, k, u) == {})
  }

  /** And a job of k itself leaves its block in the cache, as all do but write misses in MESI. */
  ghost predicate Lasting(cfg: Config, earlier: seq<Job>, job: Job, k: nat) {
    cfg.protocol == MESI && job.threadId == k && IsWrite(job) ==> Reachable(cfg, earlier, k, BlockOf(cfg, job.address))
  }

  /** The jobs are reads and writes, nobody disturbs k, and k's blocks stay when it has used them. */
  ghost predicate Undisputed(cfg: Config, jobs: seq<Job>, k: nat) {
    forall j | 0 <= j < |jobs| ::
      && jobs[j].threadId < cfg.numProcessors && (IsRead(jobs[j]) || IsWrite(jobs[j]))
      && Undisturbed(cfg, jobs[..j], jobs[j], k) && Lasting(cfg, jobs[..j], jobs[j], k)
  }

  /** Processor k has used the block, and since then fewer others of the set than there are ways. */
  ghost predicate Reachable(cfg: Config, jobs: seq<Job>, k: nat, x: nat) {
    UsedBy(cfg, jobs, k, x) && |UsedSince(cfg, jobs, k, x)| < cfg.numLinesInSet
  }

  /** What cache k is like when the jobs have been served. */
  ghost predicate RecentlyUsed(cfg: Config, jobs: seq<Job>, k: nat, c: CacheState) {
    && (forall x :: KeepsRecent(cfg, jobs, k, x, LinesOf(cfg, c, x)))
    && (c.currentJob.Some? ==>
          var q := BlockOf(cfg, c.currentJob.value.address);
          UsedBy(cfg, jobs, k, q) && UsedSince(cfg, jobs, k, q) == {})
  }

  /** The block of the last job is the newest of its set already, so that using it once more changes nothing. */
  lemma KeepsRested(cfg: Config, jobs: seq<Job>, k: nat, c: CacheState, x: nat, m: Lines, now: nat)
    requires RecentlyUsed(cfg, jobs, k, c) && KeepsRecent(cfg, jobs, k, x, m) && forall u | u in m :: m[u].1 < now
    ensures KeepsRecent(cfg, jobs, k, x, Rested(cfg, now, c, m))
  {
    hide SetOf, UsedBy, UsedSince, BlockOf, LinesOf, Lapsed;
    var m' := Rested(cfg, now, c, m);
    RestedKeys(cfg, now, c, m);
    forall b, d | b in m' && d in m' && d in UsedSince(cfg, jobs, k, b)
      ensures m'[b].1 < m'[d].1
    {
      SinceFacts(cfg, jobs, k, b, d);
    }
  }

  /** So does another processor's request for the newest block of a set. */
  lemma KeepsHeard(cfg: Config, jobs: seq<Job>, k: nat, x: nat, m: Lines, u: nat, state: State, at: nat)
    requires KeepsRecent(cfg, jobs, k, x, m) && (forall b | b in m :: m[b].1 < at)
    requires !UsedBy(cfg, jobs, k, u) || (state != Invalid && UsedSince(cfg, jobs, k, u) == {})
    ensures KeepsRecent(cfg, jobs, k, x, Put(m, u, state, at))
    ensures forall b | b in Put(m, u, state, at) :: Put(m, u, state, at)[b].1 <= at
  {
    hide SetOf, UsedBy, UsedSince;
    if u in m {
      assert UsedBy(cfg, jobs, k, u);
      hide KeepsRecent;
      KeepsNewest(cfg, jobs, k, x, m, u, state, at);
    }
  }

  lemma KeepsNewest(cfg: Config, jobs: seq<Job>, k: nat, x: nat, m: Lines, u: nat, state: State, at: nat)
    requires KeepsRecent(cfg, jobs, k, x, m) && (forall b | b in m :: m[b].1 < at)
    requires u in m && UsedSince(cfg, jobs, k, u) == {}
    ensures KeepsRecent(cfg, jobs, k, x, m[u := (state, at)])
  {
    hide SetOf, UsedBy, UsedSince;
    assert m[u := (state, at)].Keys == m.Keys;
  }

  lemma OwnIsValid(protocol: Protocol, write: bool, own: State, helped: bool)
    requires protocol == MESI && write ==> own != Invalid
    ensures OwnAfter(protocol, write, own, helped) != Invalid
  {
  }

  /** A job of processor k. */
  lemma OwnJobRecent(cfg: Config, s: SystemState, jobs: seq<Job>, k: nat, x: nat)
    requires Ready(cfg, s) && s.outstanding[0].threadId == k && RecentlyUsed(cfg, jobs, k, s.caches[k])
    requires cfg.protocol == MESI && IsWrite(s.outstanding[0]) ==>
               Reachable(cfg, jobs, k, BlockOf(cfg, s.outstanding[0].address))
    ensures var s' := Run(cfg, s, JobCycles(cfg, s));
            k < |s'.caches| && KeepsRecent(cfg, jobs + [s.outstanding[0]], k, x, LinesOf(cfg, s'.caches[k], x))
  {
    hide Sound, Run, JobCycles, LinesOf, GoodSets, Rested, StateIn, BlockOf, SetOf, Settled, OwnAfter, HelpedBefore,
         UsedBy, UsedSince, KeepsRecent, HasLine;
    var job := s.outstanding[0];
    var c, t := s.caches[k], BlockOf(cfg, job.address);
    var s' := Run(cfg, s, JobCycles(cfg, s));
    ReadyIsGood(cfg, s, k);
    JobTakes(cfg, s);
    LinesOverJob(cfg, s, k, x);
    if SetOf(cfg, x) != SetOf(cfg, t) {
      StampsAre(cfg, s.cycle, c, x);
      KeepsRested(cfg, jobs, k, c, x, LinesOf(cfg, c, x), s.cycle + 1);
      KeepsOthers(cfg, jobs, job, k, x, Rested(cfg, s.cycle + 1, c, LinesOf(cfg, c, x)));
    } else {
      StampsAre(cfg, s.cycle, c, t);
      KeepsRested(cfg, jobs, k, c, t, LinesOf(cfg, c, t), s.cycle + 1);
      LaterStamps(LinesOf(cfg, c, t), s.cycle);
      RestedStamps(cfg, s.cycle + 1, c, LinesOf(cfg, c, t));
      HeldIfReachable(cfg, s.cycle, c, jobs, k, t);
      OwnIsValid(cfg.protocol, IsWrite(job), OwnBefore(cfg, s), HelpedBefore(cfg, s));
      KeepsUsed(cfg, jobs, job, k, t, Rested(cfg, s.cycle + 1, c, LinesOf(cfg, c, t)),
                OwnAfter(cfg.protocol, IsWrite(job), OwnBefore(cfg, s), HelpedBefore(cfg, s)), s'.cycle,
                LinesOf(cfg, s'.caches[k], t));
      SameSet(cfg, s'.caches[k], x, t);
      KeepsInSet(cfg, jobs + [job], k, t, x, LinesOf(cfg, s'.caches[k], t));
    }
  }

  lemma LaterStamps(m: Lines, cycle: nat)
    requires forall u | u in m :: m[u].1 <= cycle
    ensures forall u | u in m :: m[u].1 <= cycle + 1
  {
  }

  lemma KeepsInSet(cfg: Config, jobs: seq<Job>, k: nat, t: nat, x: nat, m: Lines)
    requires KeepsRecent(cfg, jobs, k, t, m) && SetOf(cfg, x) == SetOf(cfg, t)
    ensures KeepsRecent(cfg, jobs, k, x, m)
  {
    hide SetOf, UsedBy, UsedSince;
  }

  lemma HeldIfReachable(cfg: Config, cycle: nat, c: CacheState, jobs: seq<Job>, k: nat, x: nat)
    requires ValidConfig(cfg) && GoodSets(cfg, cycle, c.localCache) && RecentlyUsed(cfg, jobs, k, c)
    ensures StateIn(cfg, c, x) != Invalid <==> Reachable(cfg, jobs, k, x)
    ensures 0 < cfg.numLinesInSet
  {
    hide GoodSets, StateIn, UsedBy, UsedSince, SetOf, HasLine, BlockOf, Contents, WaysOf;
    GoodWaysOf(cfg, cycle, c, x);
    assert KeepsRecent(cfg, jobs, k, x, LinesOf(cfg, c, x));
  }

  lemma PeerIsValid(protocol: Protocol, write: bool, own: State, state: State)
    requires (!write || protocol == DRAGON) && state != Invalid
    ensures PeerAfter(protocol, write, own, state) != Invalid
  {
  }

  lemma HeardBetween(cfg: Config, s: SystemState)
    requires Ready(cfg, s)
    ensures var end := Run(cfg, s, JobCycles(cfg, s)).cycle;
            GoesOnBus(IsWrite(s.outstanding[0]), OwnBefore(cfg, s)) ==> s.cycle < HeardAt(cfg, s, end) < end
  {
    hide Sound, Run, StateIn, BlockOf, Helped, ToldShared, FirstLength;
    hide HeardColumn;
    JobTakes(cfg, s);
    if GoesOnBus(IsWrite(s.outstanding[0]), OwnBefore(cfg, s)) {
      NeedsIt(cfg, s);
      AgainIfHelped(cfg, s);
      BusJobCycles(cfg, s);
    }
  }

  lemma NeedsIt(cfg: Config, s: SystemState)
    requires Ready(cfg, s) && GoesOnBus(IsWrite(s.outstanding[0]), OwnBefore(cfg, s))
    ensures BusJob(cfg, s)
  {
    hide Sound, StateIn, BlockOf;
  }

  /** A job of another processor. */
  lemma PeerJobRecent(cfg: Config, s: SystemState, jobs: seq<Job>, k: nat, x: nat)
    requires Ready(cfg, s) && s.outstanding[0].threadId != k < |s.caches| && RecentlyUsed(cfg, jobs, k, s.caches[k])
    requires Undisturbed(cfg, jobs, s.outstanding[0], k)
    ensures var s' := Run(cfg, s, JobCycles(cfg, s));
            k < |s'.caches| && KeepsRecent(cfg, jobs + [s.outstanding[0]], k, x, LinesOf(cfg, s'.caches[k], x))
  {
    hide Sound, Run, JobCycles, LinesOf, GoodSets, Rested, StateIn, BlockOf, SetOf, HelpedBefore, PeerAfter, SnoopedTag,
         UsedBy, UsedSince, HeardAt, Put, HasLine, KeepsRecent;
    var job := s.outstanding[0];
    var c := s.caches[k];
    var s' := Run(cfg, s, JobCycles(cfg, s));
    var u := SnoopedTag(BlockOf(cfg, job.address));
    var own := OwnBefore(cfg, s);
    var m := LinesOf(cfg, c, x);
    ReadyIsGood(cfg, s, k);
    JobTakes(cfg, s);
    LinesOverJob(cfg, s, k, x);
    StampsAre(cfg, s.cycle, c, x);
    assert KeepsRecent(cfg, jobs, k, x, m);
    if GoesOnBus(IsWrite(job), own) {
      var state := PeerAfter(cfg.protocol, IsWrite(job), own, StateIn(cfg, c, u));
      HeardBetween(cfg, s);
      HeldIfReachable(cfg, s.cycle, c, jobs, k, u);
      if UsedBy(cfg, jobs, k, u) {
        PeerIsValid(cfg.protocol, IsWrite(job), own, StateIn(cfg, c, u));
      }
      KeepsHeard(cfg, jobs, k, x, m, u, state, HeardAt(cfg, s, s'.cycle));
      m := Put(m, u, state, HeardAt(cfg, s, s'.cycle));
    }
    KeepsRested(cfg, jobs, k, c, x, m, s'.cycle);
    KeepsOthers(cfg, jobs, job, k, x, Rested(cfg, s'.cycle, c, m));
  }

  /** Least recently used is kept up by every job. */
  lemma JobKeepsRecent(cfg: Config, s: SystemState, jobs: seq<Job>, k: nat)
    requires Ready(cfg, s) && k < |s.caches| && RecentlyUsed(cfg, jobs, k, s.caches[k])
    requires Undisturbed(cfg, jobs, s.outstanding[0], k) && Lasting(cfg, jobs, s.outstanding[0], k)
    ensures var s' := Run(cfg, s, JobCycles(cfg, s));
            k < |s'.caches| && RecentlyUsed(cfg, jobs + [s.outstanding[0]], k, s'.caches[k])
  {
    hide Sound, Run, JobCycles, LinesOf, KeepsRecent, BlockOf, SetOf, UsedBy, UsedSince, Reachable, SnoopedTag,
         CostAfter, StateIn, Undisturbed;
    var job := s.outstanding[0];
    var s' := Run(cfg, s, JobCycles(cfg, s));
    ServiceOverJob(cfg, s, k);
    forall x
      ensures KeepsRecent(cfg, jobs + [job], k, x, LinesOf(cfg, s'.caches[k], x))
    {
      if job.threadId == k { OwnJobRecent(cfg, s, jobs, k, x); } else { PeerJobRecent(cfg, s, jobs, k, x); }
    }
    var q := BlockOf(cfg, if job.threadId == k then job.address
                          else if s.caches[k].currentJob.Some? then s.caches[k].currentJob.value.address else 0);
    UsedNext(cfg, jobs, job, k, q);
    assert job.threadId == k ==> Uses(cfg, job, k, q);
  }

  lemma StartsRecent(cfg: Config, jobs: seq<Job>, k: nat)
    requires ValidConfig(cfg) && k < cfg.numProcessors
    ensures |After(cfg, jobs, 0).caches| == cfg.numProcessors && RecentlyUsed(cfg, [], k, After(cfg, jobs, 0).caches[k])
  {
    hide StateIn, Orderly, Contents, SetOf, BlockOf, GoodSets, UsedSince;
    InitiallyOrderly(cfg, jobs);
    var s := After(cfg, jobs, 0);
    var c := s.caches[k];
    assert GoodSets(cfg, 0, c.localCache) by { OrderlyIsGood(cfg, s, k); }
    forall x, b
      ensures b !in LinesOf(cfg, c, x)
    {
      NothingHeld(cfg, c, x, b);
    }
  }

  lemma OrderlyIsGood(cfg: Config, s: SystemState, k: nat)
    requires Orderly(cfg, s) && k < |s.caches|
    ensures GoodSets(cfg, s.cycle, s.caches[k].localCache)
  {
    hide GoodSets;
  }

  lemma NothingHeld(cfg: Config, c: CacheState, x: nat, b: nat)
    requires ValidConfig(cfg) && GoodSets(cfg, 0, c.localCache) && StateIn(cfg, c, b) == Invalid
    ensures b !in LinesOf(cfg, c, x)
  {
    hide LinesOf, GoodSets, StateIn, HasLine;
    HasLineIsState(cfg, 0, c, b);
    NotThere(cfg, 0, c, b, x);
  }

  lemma {:induction false} RunsKeepRecent(cfg: Config, jobs: seq<Job>, times: seq<nat>, k: nat, count: nat)
    requires ValidConfig(cfg) && k < cfg.numProcessors && count <= |jobs| && Undisputed(cfg, jobs[..count], k)
    requires |times| == |jobs| + 1 && times[0] == 0
    requires forall j | 0 <= j < |jobs| :: ServedBetween(cfg, jobs, j, times[j], times[j + 1])
    ensures |After(cfg, jobs, times[count]).caches| == cfg.numProcessors
    ensures RecentlyUsed(cfg, jobs[..count], k, After(cfg, jobs, times[count]).caches[k])
  {
    hide After, ServedBetween, RecentlyUsed, Undisturbed, Lasting, JobCycles, Run;
    WidthsAre(cfg, jobs, times);
    if count == 0 {
      StartsRecent(cfg, jobs, k);
      assert jobs[..0] == [];
    } else {
      var j := count - 1;
      assert jobs[..count][..j] == jobs[..j];
      assert forall i | 0 <= i < j :: jobs[..count][..i] == jobs[..j][..i];
      RunsKeepRecent(cfg, jobs, times, k, j);
      BetweenIsReady(cfg, jobs, j, times[j], times[count]);
      JobKeepsRecent(cfg, After(cfg, jobs, times[j]), jobs[..j], k);
      assert jobs[..j] + [jobs[j]] == jobs[..count];
    }
  }

  lemma HeldIsReachable(cfg: Config, jobs: seq<Job>, n: nat, used: seq<Job>, k: nat, x: nat)
    requires ValidConfig(cfg) && k < |After(cfg, jobs, n).caches|
    requires RecentlyUsed(cfg, used, k, After(cfg, jobs, n).caches[k])
    ensures HeldAfter(cfg, jobs, n, k, x) != Invalid <==> Reachable(cfg, used, k, x)
  {
    hide After, RecentlyUsed, Reachable, StateIn, Orderly, GoodSets, ColumnOf;
    RunsAreOrderly(cfg, jobs, n);
    OrderlyIsGood(cfg, After(cfg, jobs, n), k);
    HeldIfReachable(cfg, After(cfg, jobs, n).cycle, After(cfg, jobs, n).caches[k], used, k, x);
    ColumnHolds(cfg, After(cfg, jobs, n).caches, x);
  }

  lemma UndisputedNames(cfg: Config, jobs: seq<Job>, k: nat)
    requires Undisputed(cfg, jobs, k)
    ensures forall i | 0 <= i < |jobs| :: jobs[i].threadId < cfg.numProcessors && (IsRead(jobs[i]) || IsWrite(jobs[i]))
  {
    hide Undisturbed, Lasting;
  }

  lemma UndisputedSoFar(cfg: Config, jobs: seq<Job>, k: nat, count: nat)
    requires Undisputed(cfg, jobs, k) && count <= |jobs|
    ensures Undisputed(cfg, jobs[..count], k)
  {
    hide Undisturbed, Lasting;
    assert forall j | 0 <= j < count :: jobs[..count][..j] == jobs[..j];
  }

  /** Replacement is least recently used, in all protocols, for every processor whose blocks are undisputed:
      whenever a job has been served, its cache holds a block exactly if it has used it and, since it last did,
      fewer other blocks of the set than the set has ways. */
  lemma LeastRecentlyUsed(cfg: Config, jobs: seq<Job>, k: nat) returns (times: seq<nat>)
    requires ValidConfig(cfg) && k < cfg.numProcessors && Undisputed(cfg, jobs, k)
    ensures |times| == |jobs| + 1 && times[0] == 0 && Done(After(cfg, jobs, times[|jobs|]))
    ensures forall j | 0 <= j < |jobs| :: ServedBetween(cfg, jobs, j, times[j], times[j + 1])
    ensures forall count, x: nat | 0 <= count <= |jobs| ::
              HeldAfter(cfg, jobs, times[count], k, x) != Invalid <==> Reachable(cfg, jobs[..count], k, x)
  {
    hide After, ServedBetween, RecentlyUsed, Undisputed, Reachable, HeldAfter, Done, BlockOf;
    UndisputedNames(cfg, jobs, k);
    times := TraceIsServed(cfg, jobs, |jobs|);
    forall count, x: nat | 0 <= count <= |jobs|
      ensures HeldAfter(cfg, jobs, times[count], k, x) != Invalid <==> Reachable(cfg, jobs[..count], k, x)
    {
      UndisputedSoFar(cfg, jobs, k, count);
      RunsKeepRecent(cfg, jobs, times, k, count);
      HeldIsReachable(cfg, jobs, times[count], jobs[..count], k, x);
    }
  }

  /** The reads of processor k among the first `count` jobs that come too late, or first. */
  ghost function FarReads(cfg: Config, jobs: seq<Job>, k: nat, count: nat): nat
    requires count <= |jobs|
  {
    if count == 0 then 0
    else
      var job := jobs[count - 1];
      FarReads(cfg, jobs, k, count - 1)
      + One(job.threadId == k && IsRead(job) && !Reachable(cfg, jobs[..count - 1], k, BlockOf(cfg, job.address)))
  }

  lemma ReadMissCounts(cfg: Config, caches: seq<CacheState>, job: Job, i: nat)
    requires cfg.protocol != MOESI && job.threadId < |caches| && i < |caches|
    ensures JobCounts(cfg, caches, job, i).numReadMisses
            == One(job.threadId == i && IsRead(job) && StateIn(cfg, caches[i], BlockOf(cfg, job.address)) == Invalid)
  {
    hide StateIn, BlockOf, SnoopedTag, Helped, DirtyElsewhere, ColumnOf;
  }

  lemma {:induction false} MissesAreFar(cfg: Config, jobs: seq<Job>, times: seq<nat>, k: nat, count: nat)
    requires ValidConfig(cfg) && k < cfg.numProcessors && Undisputed(cfg, jobs, k)
    requires cfg.protocol != MOESI && count <= |jobs| && |times| == |jobs| + 1 && times[0] == 0
    requires forall j | 0 <= j < |jobs| :: ServedBetween(cfg, jobs, j, times[j], times[j + 1])
    ensures |After(cfg, jobs, times[count]).caches| == cfg.numProcessors
    ensures After(cfg, jobs, times[count]).caches[k].stats.numReadMisses == FarReads(cfg, jobs, k, count)
  {
    hide After, ServedBetween, RecentlyUsed, Undisputed, Reachable, JobCounts, BlockOf, StateIn;
    WidthsAre(cfg, jobs, times);
    if count == 0 {
      StartsWithNothing(cfg, jobs, k);
    } else {
      var j := count - 1;
      var caches := After(cfg, jobs, times[j]).caches;
      var t := BlockOf(cfg, jobs[j].address);
      MissesAreFar(cfg, jobs, times, k, j);
      CountsOverJob(cfg, jobs, j, times[j], times[count], k);
      ReadMissCounts(cfg, caches, jobs[j], k);
      UndisputedSoFar(cfg, jobs, k, j);
      RunsKeepRecent(cfg, jobs, times, k, j);
      HeldIsReachable(cfg, jobs, times[j], jobs[..j], k, t);
      ColumnHolds(cfg, caches, t);
    }
  }

  /** So the read misses that such a processor prints are told from the trace alone: the reads of blocks it has
      not used, or not within as many others of the set as there are ways. */
  lemma ReadMissesOfTrace(cfg: Config, jobs: seq<Job>, k: nat) returns (n: nat)
    requires ValidConfig(cfg) && k < cfg.numProcessors && Undisputed(cfg, jobs, k)
    requires cfg.protocol != MOESI
    ensures Done(After(cfg, jobs, n)) && |After(cfg, jobs, n).caches| == cfg.numProcessors
    ensures After(cfg, jobs, n).caches[k].stats.numReadMisses == FarReads(cfg, jobs, k, |jobs|)
  {
    hide After, ServedBetween, Undisputed, Done, FarReads, Reachable, BlockOf;
    UndisputedNames(cfg, jobs, k);
    var times := TraceIsServed(cfg, jobs, |jobs|);
    n := times[|jobs|];
    MissesAreFar(cfg, jobs, times, k, |jobs|);
  }
}
