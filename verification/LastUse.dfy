/** The lines of every cache over a job: which blocks a set holds, in which states, and when each was last
    used. */
module LastUse {
  import opened Wrappers
  import opened Constants
  import opened Requests
  import opened Sets
  import opened CacheModel
  import opened Coherence
  import opened CacheLemmas
  import opened SystemModel
  import opened BusLemmas
  import opened Refinement
  import opened Runs
  import opened Timing
  import opened Serving
  import opened JobResults
  import opened Transactions
  import opened Counts

  /** The blocks of a set: state and last use. */
  type Lines = map<nat, (State, nat)>

  /** The lines of the set that block x maps to. */
  function LinesOf(cfg: Config, c: CacheState, x: nat): Lines {
    Contents(WaysOf(cfg, c, x))
  }

  /** Block u, if it is there, is used and put into that state. */
  function Put(m: Lines, u: nat, state: State, now: nat): Lines {
    if u !in m then m else if state == Invalid then m - {u} else m[u := (state, now)]
  }

  /** Block u, if there is one and it is there, is used. */
  function Use(m: Lines, u: Option<nat>, now: nat): Lines {
    if u.Some? && u.value in m then m[u.value := (m[u.value].0, now)] else m
  }

  /** The block of the cache's last job. */
  function LastBlock(cfg: Config, c: CacheState): Option<nat> {
    match c.currentJob
    case None => None
    case Some(job) => Some(BlockOf(cfg, job.address))
  }

  /** A cache at rest uses the block of its last job in every cycle, once its service time is over. */
  function Rested(cfg: Config, cycle: nat, c: CacheState, m: Lines): Lines {
    if Lapsed(c, cycle) then Use(m, LastBlock(cfg, c), cycle) else m
  }

  // ---------------------------------------------------------------------------------------------
  // The operations on lines.

  lemma GoodWaysOf(cfg: Config, cycle: nat, c: CacheState, x: nat)
    requires ValidConfig(cfg) && GoodSets(cfg, cycle, c.localCache)
    ensures SetOf(cfg, x) < |c.localCache|
    ensures var ways := WaysOf(cfg, c, x);
            && |ways| == cfg.numLinesInSet && 0 < |ways| && WellFormed(ways) && StampedBy(ways, cycle)
            && (x in Contents(ways) <==> StateIn(cfg, c, x) != Invalid)
            && (x in Contents(ways) ==> Contents(ways)[x].0 == StateIn(cfg, c, x))
            && (HasLine(cfg, c, x) <==> x in Contents(ways))
  {
    hide Contents;
    SetInRange(cfg, x);
    var ways := WaysOf(cfg, c, x);
    assert GoodSet(cfg, cycle, SetOf(cfg, x), ways);
    ContentsAt(ways, x);
    HasIsState(ways, x);
  }

  /** A set holds only blocks that map to it. */
  lemma InItsSet(cfg: Config, cycle: nat, c: CacheState, x: nat, u: nat)
    requires ValidConfig(cfg) && GoodSets(cfg, cycle, c.localCache) && u in LinesOf(cfg, c, x)
    ensures SetOf(cfg, u) == SetOf(cfg, x)
  {
    hide Contents, SetOf;
    SetInRange(cfg, x);
    var ways := WaysOf(cfg, c, x);
    assert GoodSet(cfg, cycle, SetOf(cfg, x), ways);
    ContentsAt(ways, u);
    HasIsState(ways, u);
    assert ways[Find(ways, u)].state != Invalid;
  }

  /** What happens to the set of block u happens to no other, and what it does to u it does to the set. */
  lemma OneSet(cfg: Config, cycle: nat, c: CacheState, u: nat, ways: Ways, m': Lines, x: nat, outside: Lines)
    requires ValidConfig(cfg) && GoodSets(cfg, cycle, c.localCache) && Contents(ways) == m'
    requires SetOf(cfg, x) != SetOf(cfg, u) ==> outside == LinesOf(cfg, c, x)
    requires SetOf(cfg, x) == SetOf(cfg, u) ==> outside == m'
    ensures LinesOf(cfg, WithWays(cfg, c, u, ways), x) == outside
  {
    hide Contents, SetOf;
    SetInRange(cfg, u);
    SetInRange(cfg, x);
  }

  lemma UsedLines(cfg: Config, cycle: nat, now: nat, c: CacheState, u: nat, x: nat)
    requires ValidConfig(cfg) && GoodSets(cfg, cycle, c.localCache)
    ensures LinesOf(cfg, ProbeLine(cfg, now, c, u), x) == Use(LinesOf(cfg, c, x), Some(u), now)
  {
    hide Contents, SetOf, Touch, HasLine, WithWays, GoodSets, StateIn;
    GoodWaysOf(cfg, cycle, c, u);
    var ways := WaysOf(cfg, c, u);
    var m := LinesOf(cfg, c, x);
    if HasLine(cfg, c, u) {
      HasLineHas(cfg, c, u);
      SetStateIsMapUpdate(ways, u, Modified, now);
      if SetOf(cfg, x) == SetOf(cfg, u) {
        SameSet(cfg, c, x, u);
      } else if u in m {
        InItsSet(cfg, cycle, c, x, u);
      }
      OneSet(cfg, cycle, c, u, Touch(ways, u, now), Contents(ways)[u := (Contents(ways)[u].0, now)], x,
             Use(m, Some(u), now));
    } else if u in m {
      InItsSet(cfg, cycle, c, x, u);
      SameSet(cfg, c, x, u);
    }
  }

  lemma HasLineHas(cfg: Config, c: CacheState, u: nat)
    ensures HasLine(cfg, c, u) == Has(WaysOf(cfg, c, u), u)
  {
  }

  lemma SameSet(cfg: Config, c: CacheState, x: nat, u: nat)
    requires SetOf(cfg, x) == SetOf(cfg, u)
    ensures LinesOf(cfg, c, x) == LinesOf(cfg, c, u) && WaysOf(cfg, c, x) == WaysOf(cfg, c, u)
  {
  }

  lemma PutLines(cfg: Config, cycle: nat, now: nat, c: CacheState, u: nat, state: State, x: nat)
    requires ValidConfig(cfg) && GoodSets(cfg, cycle, c.localCache) && HasLine(cfg, c, u)
    ensures LinesOf(cfg, PutLine(cfg, now, c, u, state), x) == Put(LinesOf(cfg, c, x), u, state, now)
  {
    hide Contents, SetOf, SetState, HasLine, WithWays, GoodSets, StateIn;
    GoodWaysOf(cfg, cycle, c, u);
    var ways := WaysOf(cfg, c, u);
    var m := LinesOf(cfg, c, x);
    HasLineHas(cfg, c, u);
    SetStateIsMapUpdate(ways, u, state, now);
    if SetOf(cfg, x) == SetOf(cfg, u) {
      SameSet(cfg, c, x, u);
    } else if u in m {
      InItsSet(cfg, cycle, c, x, u);
    }
    OneSet(cfg, cycle, c, u, SetState(ways, u, state, now), Put(Contents(ways), u, state, now), x,
           Put(m, u, state, now));
  }

  /** The same lines in another guise. */
  lemma LinesStay(cfg: Config, c: CacheState, c': CacheState, x: nat)
    requires c'.localCache == c.localCache
    ensures LinesOf(cfg, c', x) == LinesOf(cfg, c, x)
  {
  }

  lemma FinishLines(cfg: Config, cycle: nat, now: nat, c: CacheState, x: nat)
    requires ValidConfig(cfg) && GoodSets(cfg, cycle, c.localCache)
    ensures LinesOf(cfg, FinishJob(cfg, now, c), x) == Use(LinesOf(cfg, c, x), LastBlock(cfg, c), now)
  {
    hide LinesOf, ProbeLine, GoodSets, BlockOf;
    LinesStay(cfg, c, c.(busy := false), x);
    if c.currentJob.Some? {
      UsedLines(cfg, cycle, now, c.(busy := false), BlockOf(cfg, c.currentJob.value.address), x);
    }
  }

  lemma IdleLines(cfg: Config, cycle: nat, now: nat, c: CacheState, x: nat)
    requires ValidConfig(cfg) && GoodSets(cfg, cycle, c.localCache)
    ensures LinesOf(cfg, Idle(cfg, now, c), x) == Rested(cfg, now, c, LinesOf(cfg, c, x))
  {
    hide LinesOf, FinishJob, GoodSets, Use, LastBlock;
    FinishLines(cfg, cycle, now, c, x);
  }

  // ---------------------------------------------------------------------------------------------
  // The caches that snoop.

  lemma AnsweredLines(cfg: Config, cycle: nat, c: CacheState, request: Request, block: nat, x: nat)
    requires ValidConfig(cfg) && GoodSets(cfg, cycle, c.localCache)
    requires request.lineSet == SetOf(cfg, block) && request.lineTag == ToInt(block)
    ensures var u := SnoopedTag(block);
            LinesOf(cfg, Answered(cfg, cycle, c, request), x)
            == Put(LinesOf(cfg, c, x), u, SnoopState(cfg.protocol, request.command, StateIn(cfg, c, u)), cycle)
  {
    hide GoodSets, Contents, SnoopState, SnoopStats, SnoopReply, RaisesShared, TakeReply, HasLine, SetState, WithWays;
    var u := SnoopedTag(block);
    SnoopedTagStaysInSet(cfg, block);
    GoodWaysOf(cfg, cycle, c, u);
    HasLineHas(cfg, c, u);
    var state := SnoopState(cfg.protocol, request.command, StateIn(cfg, c, u));
    var snooped := Snoop(cfg, cycle, c, request);
    ReplyKeepsLines(cfg, snooped.reply, snooped.request, Effect(snooped.cache, snooped.cache, 0, false, false));
    if HasLine(cfg, c, u) {
      PutLines(cfg, cycle, cycle, c, u, state, x);
      SnoopPuts(cfg, cycle, c, request, u);
      LinesStay(cfg, PutLine(cfg, cycle, c, u, state), Answered(cfg, cycle, c, request), x);
    } else {
      NotThere(cfg, cycle, c, u, x);
      LinesStay(cfg, c, Answered(cfg, cycle, c, request), x);
    }
  }

  lemma SnoopPuts(cfg: Config, cycle: nat, c: CacheState, request: Request, u: nat)
    requires u == ToUnsignedLong(request.lineTag) && request.lineSet == SetOf(cfg, u) < |c.localCache|
    requires HasLine(cfg, c, u)
    ensures Snoop(cfg, cycle, c, request).cache.localCache
            == PutLine(cfg, cycle, c, u, SnoopState(cfg.protocol, request.command, StateIn(cfg, c, u))).localCache
  {
    hide SnoopState, SnoopStats, SnoopReply, RaisesShared, SetState, StateOf, Has, SetOf, ToUnsignedLong;
  }

  lemma NotThere(cfg: Config, cycle: nat, c: CacheState, u: nat, x: nat)
    requires ValidConfig(cfg) && GoodSets(cfg, cycle, c.localCache) && !HasLine(cfg, c, u)
    ensures u !in LinesOf(cfg, c, x)
  {
    hide Contents, SetOf, GoodSets, HasLine, WaysOf;
    GoodWaysOf(cfg, cycle, c, u);
    if u in LinesOf(cfg, c, x) {
      InItsSet(cfg, cycle, c, x, u);
      SameSet(cfg, c, x, u);
    }
  }

  lemma ReplyKeepsLines(cfg: Config, reply: SnoopResult, request: Request, e: Effect)
    ensures TakeReply(cfg, reply, request, e).snooper.localCache == e.snooper.localCache
  {
    hide AddCost, UnsignedSum;
  }

  // ---------------------------------------------------------------------------------------------
  // The cache that takes the job.

  lemma SetLines(cfg: Config, cycle: nat, now: nat, c: CacheState, u: nat, state: State, x: nat)
    requires ValidConfig(cfg) && GoodSets(cfg, cycle, c.localCache)
    ensures LinesOf(cfg, SetLineState(cfg, now, c, u, state), x) == Put(LinesOf(cfg, c, x), u, state, now)
  {
    hide LinesOf, HasLine, PutLine, GoodSets;
    if HasLine(cfg, c, u) {
      PutLines(cfg, cycle, now, c, u, state, x);
    } else {
      NotThere(cfg, cycle, c, u, x);
    }
  }

  /** A line that is looked at, and then set. */
  lemma ProbeThenSet(cfg: Config, cycle: nat, c: CacheState, asked: CacheState, u: nat, state: State, x: nat)
    requires ValidConfig(cfg) && GoodSets(cfg, cycle, c.localCache)
    requires asked.localCache == ProbeLine(cfg, cycle, c, u).localCache
    ensures LinesOf(cfg, SetLineState(cfg, cycle, asked, u, state), x) == Put(LinesOf(cfg, c, x), u, state, cycle)
    ensures LinesOf(cfg, asked, x) == Use(LinesOf(cfg, c, x), Some(u), cycle)
  {
    hide LinesOf, ProbeLine, SetLineState, GoodSets, HoldsSame;
    ProbeHolds(cfg, cycle, c, u);
    UsedLines(cfg, cycle, cycle, c, u, x);
    LinesStay(cfg, ProbeLine(cfg, cycle, c, u), asked, x);
    SetLines(cfg, cycle, cycle, asked, u, state, x);
  }

  /** Using a block leaves it in its state. */
  lemma UseIsPut(cfg: Config, cycle: nat, c: CacheState, u: nat, x: nat, now: nat)
    requires ValidConfig(cfg) && GoodSets(cfg, cycle, c.localCache)
    ensures Use(LinesOf(cfg, c, x), Some(u), now) == Put(LinesOf(cfg, c, x), u, StateIn(cfg, c, u), now)
  {
    hide Contents, GoodSets, StateIn, SetOf, WaysOf;
    if u in LinesOf(cfg, c, x) {
      InItsSet(cfg, cycle, c, x, u);
      SameSet(cfg, c, x, u);
      GoodWaysOf(cfg, cycle, c, u);
    }
  }

  lemma PutAbsent(cfg: Config, cycle: nat, c: CacheState, u: nat, x: nat, state: State, now: nat)
    requires ValidConfig(cfg) && GoodSets(cfg, cycle, c.localCache) && StateIn(cfg, c, u) == Invalid
    ensures Put(LinesOf(cfg, c, x), u, state, now) == LinesOf(cfg, c, x)
  {
    hide LinesOf, GoodSets, StateIn, HasLine;
    HasLineIsState(cfg, cycle, c, u);
    NotThere(cfg, cycle, c, u, x);
  }

  lemma WriteLines(cfg: Config, cycle: nat, c: CacheState, address: nat, x: nat)
    requires ValidConfig(cfg) && GoodSets(cfg, cycle, c.localCache)
    ensures var t := BlockOf(cfg, address);
            var own := StateIn(cfg, c, t);
            LinesOf(cfg, HandleWrite(cfg, cycle, c, address), x)
            == Put(LinesOf(cfg, c, x), t,
                   if WritesSilently(own) then Modified else OwnAtIssue(cfg.protocol, true, own), cycle)
  {
    hide GoodSets, LinesOf, StateIn, ProbeLine, HasLine, SeenState, BlockOf, SetOf, ToInt, SetLineState, HandleWrite,
         Put, Use, HoldsSame, TotalMemoryCost;
    var t := BlockOf(cfg, address);
    var own := StateIn(cfg, c, t);
    HasLineIsState(cfg, cycle, c, t);
    HandleWriteIs(cfg, cycle, c, address);
    UseIsPut(cfg, cycle, c, t, x, cycle);
    var c1 := ProbeLine(cfg, cycle, c, t);
    if own == Invalid {
      PutAbsent(cfg, cycle, c, t, x, Modified, cycle);
      PutAbsent(cfg, cycle, c, t, x, Invalid, cycle);
    }
    if own == Exclusive {
      ProbeThenSet(cfg, cycle, c, ExclusiveCounted(cycle, c1), t, Modified, x);
    } else if own == Modified {
      ProbeThenSet(cfg, cycle, c, WriteModified(cycle, c1), t, Modified, x);
    } else if cfg.protocol == DRAGON && own == Invalid {
      ProbeThenSet(cfg, cycle, c, WriteMissDragon(cfg, c1, address), t, Modified, x);
    } else if cfg.protocol == DRAGON || own == Owned {
      var asked := AskBus(cfg, c1, BusRdX, address, CACHE_HIT_COST);
      ProbeThenSet(cfg, cycle, c,
                   asked.(stats := asked.stats.(numHit := asked.stats.numHit + 1), jobCycleCost := CACHE_HIT_COST), t,
                   if cfg.protocol == DRAGON then SharedDirty else Modified, x);
    } else {
      var counted := if SeenState(cfg, c1, t) == Shared
                     then c1.(stats :=
                          c1.stats.(numWriteShared := c1.stats.numWriteShared + 1,
                                    numWriteHits := c1.stats.numWriteHits + 1))
                     else c1;
      var cost := TotalMemoryCost(cfg, cycle);
      ProbeThenSet(cfg, cycle, c, AskBus(cfg, counted, BusRdX, address, cost).(jobCycleCost := cost), t, Modified, x);
    }
  }

  function ExclusiveCounted(cycle: nat, c: CacheState): CacheState {
    var c1 := CountWriteHit(StartHit(cycle, c));
    c1.(stats := c1.stats.(numExclusiveToModifiedTransitions := c1.stats.numExclusiveToModifiedTransitions + 1))
  }

  lemma ReadLines(cfg: Config, cycle: nat, c: CacheState, address: nat, x: nat)
    requires ValidConfig(cfg) && GoodSets(cfg, cycle, c.localCache)
    ensures var t := BlockOf(cfg, address);
            LinesOf(cfg, HandleRead(cfg, cycle, c, address), x) == Put(LinesOf(cfg, c, x), t, StateIn(cfg, c, t), cycle)
  {
    hide GoodSets, LinesOf, StateIn, ProbeLine, HasLine, SeenState, BlockOf, SetOf, ToInt, Put, Use;
    var t := BlockOf(cfg, address);
    HasLineIsState(cfg, cycle, c, t);
    UseIsPut(cfg, cycle, c, t, x, cycle);
    var c1 := ProbeLine(cfg, cycle, c, t);
    ProbeThenSet(cfg, cycle, c, c1, t, Modified, x);
    if StateIn(cfg, c, t) == Invalid {
      PutAbsent(cfg, cycle, c, t, x, Invalid, cycle);
    }
    var c' := HandleRead(cfg, cycle, c, address);
    ReadKeepsLines(cfg, cycle, c, address);
    if c'.localCache == c1.localCache { LinesStay(cfg, c1, c', x); } else { LinesStay(cfg, c, c', x); }
  }

  lemma ReadKeepsLines(cfg: Config, cycle: nat, c: CacheState, address: nat)
    ensures var c' := HandleRead(cfg, cycle, c, address);
            || c'.localCache == ProbeLine(cfg, cycle, c, BlockOf(cfg, address)).localCache
            || (c'.localCache == c.localCache && !HasLine(cfg, c, BlockOf(cfg, address)))
  {
    hide ProbeLine, HasLine, SeenState, BlockOf, SetOf, ToInt;
  }

  lemma TakerLinesAre(cfg: Config, s: SystemState, x: nat)
    requires Ready(cfg, s)
    ensures var job := s.outstanding[0];
            var c, t := s.caches[job.threadId], BlockOf(cfg, job.address);
            LinesOf(cfg, Taker(cfg, s), x)
            == Put(Rested(cfg, s.cycle + 1, c, LinesOf(cfg, c, x)), t,
                   TakenAs(cfg.protocol, job, StateIn(cfg, c, t)), s.cycle + 1)
  {
    hide Sound, GoodSets, StateIn, HandleWrite, HandleRead, HoldsSame, LinesOf, Rested, Put, BlockOf, OwnAtIssue;
    var job := s.outstanding[0];
    var c, t := s.caches[job.threadId], BlockOf(cfg, job.address);
    ReadyIsOrderly(cfg, s);
    AtRest(cfg, s, job.threadId);
    var taken := Taking(cfg, s.cycle + 1, c, job);
    TakingRestamps(cfg, s.cycle, c, job);
    TakingLinesAre(cfg, s.cycle, c, job, x);
    SameState(cfg, c, taken, t);
    hide Taking;
    var counted := if IsWrite(job) then CountWrite(taken) else CountRead(taken);
    LinesStay(cfg, taken, counted, x);
    SameIsHolds(cfg, taken, t, counted);
    SameState(cfg, taken, counted, t);
    WriteLines(cfg, s.cycle + 1, counted, job.address, x);
    ReadLines(cfg, s.cycle + 1, counted, job.address, x);
  }

  lemma TakingLinesAre(cfg: Config, cycle: nat, c: CacheState, job: Job, x: nat)
    requires ValidConfig(cfg) && GoodSets(cfg, cycle, c.localCache)
    ensures LinesOf(cfg, Taking(cfg, cycle + 1, c, job), x) == Rested(cfg, cycle + 1, c, LinesOf(cfg, c, x))
  {
    hide LinesOf, GoodSets, FinishJob, UnsignedSum;
    var given := c.(pendingJobs := [job]);
    FinishLines(cfg, cycle, cycle + 1, given, x);
    LinesStay(cfg, c, given, x);
    if Lapsed(c, cycle + 1) {
      LinesStay(cfg, FinishJob(cfg, cycle + 1, given), Taking(cfg, cycle + 1, c, job), x);
    } else {
      LinesStay(cfg, given, Taking(cfg, cycle + 1, c, job), x);
    }
  }

  // ---------------------------------------------------------------------------------------------
  // The end of a transaction.

  /** Block t comes into a set, which drops a least recently used block if it is full; a block that stays
      invalid has taken the room, but is not there. */
  ghost predicate Filled(m: Lines, capacity: nat, t: nat, state: State, now: nat, m': Lines) {
    if state != Invalid then BoundedInsert(m, capacity, t, (state, now), m')
    else exists m1 :: BoundedInsert(m, capacity, t, (Shared, now), m1) && m' == m1 - {t}
  }

  /** What the end of a transaction makes of a set. */
  ghost predicate Settled(m: Lines, capacity: nat, t: nat, state: State, now: nat, m': Lines) {
    if t in m then m' == Put(m, t, state, now) else Filled(m, capacity, t, state, now, m')
  }

  lemma PlacedLines(cfg: Config, cycle: nat, now: nat, c: CacheState, job: Job, x: nat)
    requires ValidConfig(cfg) && GoodSets(cfg, cycle, c.localCache)
    ensures var t := BlockOf(cfg, job.address);
            && (SetOf(cfg, x) != SetOf(cfg, t) ==> LinesOf(cfg, PlaceLine(cfg, now, c, job), x) == LinesOf(cfg, c, x))
            && (HasLine(cfg, c, t) ==>
                  LinesOf(cfg, PlaceLine(cfg, now, c, job), x) == Use(LinesOf(cfg, c, x), Some(t), now))
  {
    hide Contents, SetOf, Touch, HasLine, GoodSets, BlockOf, Replace;
    var t := BlockOf(cfg, job.address);
    UsedLines(cfg, cycle, now, c, t, x);
    SetInRange(cfg, t);
    SetInRange(cfg, x);
  }

  /** A block that is brought in, and put into its state or left invalid. */
  lemma FilledWays(ways: Ways, t: nat, state: State, now: nat)
    requires WellFormed(ways) && 0 < |ways| && !Has(ways, t)
    ensures state != Invalid ==>
              Filled(Contents(ways), |ways|, t, state, now,
                     Contents(SetState(Touch(Replace(ways, t, now), t, now), t, state, now)))
    ensures Filled(Contents(ways), |ways|, t, Invalid, now, Contents(Touch(Replace(ways, t, now), t, now)))
  {
    hide WellFormed, Contents, BoundedInsert, Has, Replace;
    var placed := Replace(ways, t, now);
    TouchThenSet(placed, t, state, now);
    if state != Invalid {
      FillIsBoundedInsert(ways, t, state, now);
    }
    FillIsBoundedInsert(ways, t, Shared, now);
    LeftInvalid(ways, t, now);
  }

  /** The line brought in, while it is invalid, against the same line put into a valid state. */
  lemma LeftInvalid(ways: Ways, t: nat, now: nat)
    requires WellFormed(ways) && 0 < |ways| && !Has(ways, t)
    ensures Contents(Touch(Replace(ways, t, now), t, now))
            == Contents(SetState(Replace(ways, t, now), t, Shared, now)) - {t}
  {
    var placed := Replace(ways, t, now);
    ReplaceChangesOne(ways, t, now);
    hide Contents, Replace, WellFormed;
    var valid := SetState(placed, t, Shared, now);
    SetStateChangesOne(placed, t, Shared, now);
    TouchFindsState(placed, t, now);
    HasIsState(valid, t);
    SetStateContents(valid, t, Invalid, now);
    SetTwice(placed, t, now);
  }

  lemma TouchFindsState(placed: Ways, t: nat, now: nat)
    requires StateOf(placed, t) == Invalid
    ensures Touch(placed, t, now) == SetState(placed, t, Invalid, now)
  {
  }

  lemma SetTwice(placed: Ways, t: nat, now: nat)
    ensures SetState(SetState(placed, t, Shared, now), t, Invalid, now) == SetState(placed, t, Invalid, now)
  {
    if Find(placed, t) < |placed| {
      FindIs(SetState(placed, t, Shared, now), t, Find(placed, t));
    }
  }

  lemma TouchThenSet(ways: Ways, tag: nat, state: State, cycle: nat)
    ensures SetState(Touch(ways, tag, cycle), tag, state, cycle) == SetState(ways, tag, state, cycle)
  {
    if Find(ways, tag) < |ways| {
      FindIs(Touch(ways, tag, cycle), tag, Find(ways, tag));
    }
  }

  /** What the end of a transaction about block t makes of the set of block x. */
  ghost predicate LinesSettle(cfg: Config, c: CacheState, t: nat, state: State, now: nat, c': CacheState, x: nat) {
    if SetOf(cfg, x) != SetOf(cfg, t) then LinesOf(cfg, c', x) == LinesOf(cfg, c, x)
    else Settled(LinesOf(cfg, c, t), cfg.numLinesInSet, t, state, now, LinesOf(cfg, c', t))
  }

  lemma PlacedAt(cfg: Config, now: nat, c: CacheState, job: Job)
    requires SetOf(cfg, BlockOf(cfg, job.address)) < |c.localCache|
    ensures var t := BlockOf(cfg, job.address);
            var ways := WaysOf(cfg, c, t);
            && WaysOf(cfg, PlaceLine(cfg, now, c, job), t)
               == Touch(if Has(ways, t) then ways else Replace(ways, t, now), t, now)
            && |PlaceLine(cfg, now, c, job).localCache| == |c.localCache|
  {
    hide SetOf, Touch, Has, BlockOf, Replace;
  }

  /** The line is placed and put into a state. */
  lemma PutSettles(cfg: Config, cycle: nat, now: nat, c: CacheState, job: Job, asked: CacheState, state: State, x: nat)
    requires ValidConfig(cfg) && GoodSets(cfg, cycle, c.localCache)
    requires asked.localCache == PlaceLine(cfg, now, c, job).localCache
    requires StateIn(cfg, c, BlockOf(cfg, job.address)) == Invalid ==> state != Invalid
    ensures LinesSettle(cfg, c, BlockOf(cfg, job.address), state, now,
                        PutLine(cfg, now, asked, BlockOf(cfg, job.address), state), x)
  {
    hide Contents, SetOf, Touch, Has, GoodSets, BlockOf, Replace, SetState, HasLine, StateIn, BoundedInsert, PlaceLine,
         Put;
    var t := BlockOf(cfg, job.address);
    var ways := WaysOf(cfg, c, t);
    GoodWaysOf(cfg, cycle, c, t);
    HasLineHas(cfg, c, t);
    PlacedAt(cfg, now, c, job);
    PlacedLines(cfg, cycle, now, c, job, x);
    SetInRange(cfg, t);
    SetInRange(cfg, x);
    if Has(ways, t) {
      TouchThenSet(ways, t, state, now);
      SetStateIsMapUpdate(ways, t, state, now);
      PutIs(Contents(ways), t, state, now);
    } else {
      FilledWays(ways, t, state, now);
    }
    PutElsewhere(cfg, now, asked, t, state, x);
  }

  lemma PutIs(m: Lines, t: nat, state: State, now: nat)
    requires t in m
    ensures Put(m, t, state, now) == if state == Invalid then m - {t} else m[t := (state, now)]
  {
  }

  lemma PutElsewhere(cfg: Config, now: nat, c: CacheState, t: nat, state: State, x: nat)
    requires SetOf(cfg, t) < |c.localCache|
    ensures var c' := PutLine(cfg, now, c, t, state);
            && WaysOf(cfg, c', t) == SetState(WaysOf(cfg, c, t), t, state, now)
            && (SetOf(cfg, x) != SetOf(cfg, t) ==> WaysOf(cfg, c', x) == WaysOf(cfg, c, x))
  {
    hide SetOf, SetState;
  }

  /** The line is placed and left in its state. */
  lemma PlaceSettles(cfg: Config, cycle: nat, now: nat, c: CacheState, job: Job, c': CacheState, x: nat)
    requires ValidConfig(cfg) && GoodSets(cfg, cycle, c.localCache)
    requires c'.localCache == PlaceLine(cfg, now, c, job).localCache
    ensures var t := BlockOf(cfg, job.address);
            LinesSettle(cfg, c, t, StateIn(cfg, c, t), now, c', x)
  {
    hide Contents, SetOf, Touch, Has, GoodSets, BlockOf, Replace, HasLine, StateIn, BoundedInsert, PlaceLine, Put, Use;
    var t := BlockOf(cfg, job.address);
    var ways := WaysOf(cfg, c, t);
    GoodWaysOf(cfg, cycle, c, t);
    HasLineHas(cfg, c, t);
    PlacedAt(cfg, now, c, job);
    PlacedLines(cfg, cycle, now, c, job, x);
    LinesStay(cfg, PlaceLine(cfg, now, c, job), c', x);
    LinesStay(cfg, PlaceLine(cfg, now, c, job), c', t);
    SetInRange(cfg, t);
    if Has(ways, t) {
      PlacedLines(cfg, cycle, now, c, job, t);
      UseIsPut(cfg, cycle, c, t, t, now);
    } else {
      FilledWays(ways, t, Invalid, now);
    }
  }

  lemma SettleFrom(cfg: Config, c: CacheState, c1: CacheState, t: nat, state: State, now: nat, c': CacheState,
                   c2: CacheState, x: nat)
    requires LinesSettle(cfg, c1, t, state, now, c', x) && c1.localCache == c.localCache
    requires c2.localCache == c'.localCache
    ensures LinesSettle(cfg, c, t, state, now, c2, x)
  {
    hide LinesOf, SetOf, Settled;
    LinesStay(cfg, c, c1, x);
    LinesStay(cfg, c, c1, t);
    LinesStay(cfg, c', c2, x);
    LinesStay(cfg, c', c2, t);
  }

  lemma PutByLines(cfg: Config, now: nat, c: CacheState, c': CacheState, t: nat, state: State)
    requires c'.localCache == c.localCache
    ensures PutLine(cfg, now, c', t, state).localCache == PutLine(cfg, now, c, t, state).localCache
  {
    hide SetOf, SetState;
  }

  lemma PutTwice(cfg: Config, now: nat, c: CacheState, t: nat, state: State)
    ensures PutLine(cfg, now, PutLine(cfg, now, c, t, state), t, state).localCache
            == PutLine(cfg, now, c, t, state).localCache
  {
    hide SetOf, SetState;
    SetStateTwice(WaysOf(cfg, c, t), t, state, now);
  }

  lemma SetStateTwice(ways: Ways, t: nat, state: State, now: nat)
    ensures SetState(SetState(ways, t, state, now), t, state, now) == SetState(ways, t, state, now)
  {
    if Find(ways, t) < |ways| {
      FindIs(SetState(ways, t, state, now), t, Find(ways, t));
    }
  }

  /** The line, once it is in place, is put into the state it has after the transaction, or has it already. */
  lemma CompletedWriteLines(cfg: Config, now: nat, placed: CacheState, address: nat, shared: bool)
    requires cfg.protocol == MOESI ==>
               StateIn(cfg, PutLine(cfg, now, placed, BlockOf(cfg, address), Modified), BlockOf(cfg, address))
                   == Modified
    ensures var t := BlockOf(cfg, address);
            var own := StateIn(cfg, placed, t);
            var state := OwnAtCompletion(cfg.protocol, true, shared, own);
            var c' := CompleteWrite(cfg, now, placed, address, shared);
            || (c'.localCache == PutLine(cfg, now, placed, t, state).localCache && state != Invalid)
            || (c'.localCache == placed.localCache && state == own)
  {
    hide PutLine, StateIn, BlockOf, SetOf, ToInt;
    var t := BlockOf(cfg, address);
    PutByLines(cfg, now, placed, CountMemoryUse(placed), t, Modified);
    PutByLines(cfg, now, placed, CountShare(placed), t, Modified);
    PutByLines(cfg, now, placed, AskBus(cfg, placed.(jobCycleCost := PEER_COST), BusRdX, address, PEER_COST), t,
               SharedDirty);
    var c1 := PutLine(cfg, now, placed, t, Modified);
    PutByLines(cfg, now, c1, CountMemoryUse(c1), t, Modified);
    PutTwice(cfg, now, placed, t, Modified);
  }

  lemma CompletedReadLines(cfg: Config, now: nat, placed: CacheState, address: nat, shared: bool)
    ensures var t := BlockOf(cfg, address);
            var state := OwnAtCompletion(cfg.protocol, false, shared, StateIn(cfg, placed, t));
            var c' := CompleteRead(cfg, now, placed, address, shared);
            c'.localCache == PutLine(cfg, now, placed, t, state).localCache && state != Invalid
  {
    hide PutLine, StateIn, BlockOf;
    var t := BlockOf(cfg, address);
    var state := OwnAtCompletion(cfg.protocol, false, shared, StateIn(cfg, placed, t));
    PutByLines(cfg, now, placed, CountMemoryUse(placed), t, state);
    PutByLines(cfg, now, placed, CountShare(placed), t, state);
  }

  /** `busJobDone`. */
  lemma ReleasedLines(cfg: Config, cycle: nat, now: nat, c: CacheState, job: Job, shared: bool, x: nat)
    requires ValidConfig(cfg) && GoodSets(cfg, cycle, c.localCache) && cycle <= now
    requires c.currentJob == Some(job) && (IsRead(job) || IsWrite(job))
    ensures var t := BlockOf(cfg, job.address);
            LinesSettle(cfg, c, t, OwnAtCompletion(cfg.protocol, IsWrite(job), shared, StateIn(cfg, c, t)), now,
                        Released(cfg, now, c, shared), x)
  {
    hide GoodSets, BlockOf, SetOf, ToInt, StateIn, LinesSettle, PlaceLine, PutLine, HasLine, PlacedAs, CompleteWrite,
         CompleteRead, WaysOf, Find, OwnAtCompletion;
    var t := BlockOf(cfg, job.address);
    var c1 := Completing(cfg, now, c);
    var freed := c1.(haveBusRequest := false, busy := false, busRequestBeingServiced := false);
    var placed := PlaceLine(cfg, now, freed, job);
    var state := OwnAtCompletion(cfg.protocol, IsWrite(job), shared, StateIn(cfg, c, t));
    var c' := Released(cfg, now, c, shared);
    SameIsHolds(cfg, c, t, freed);
    SameState(cfg, c, freed, t);
    LaterIsGood(cfg, cycle, now, c.localCache);
    PlaceHolds(cfg, now, freed, job);
    PlacedKeeps(cfg, freed, t, placed);
    if IsWrite(job) {
      if cfg.protocol == MOESI { PutModified(cfg, now, freed, placed, t); }
      CompletedWriteLines(cfg, now, placed, job.address, shared);
    } else {
      CompletedReadLines(cfg, now, placed, job.address, shared);
    }
    if c'.localCache == placed.localCache && state == StateIn(cfg, c, t) {
      PlaceSettles(cfg, now, now, freed, job, c', x);
      SettleFrom(cfg, c, freed, t, state, now, c', c', x);
    } else {
      PutSettles(cfg, now, now, freed, job, placed, state, x);
      SettleFrom(cfg, c, freed, t, state, now, PutLine(cfg, now, placed, t, state), c', x);
    }
  }

  // ---------------------------------------------------------------------------------------------
  // Whole jobs: the table.

  /** How the cache that does the job holds the block afterwards. */
  function OwnAfter(protocol: Protocol, write: bool, own: State, helped: bool): State {
    if !GoesOnBus(write, own) then if write then Modified else own
    else
      match protocol
      case MSI => if write then Modified else Shared
      case MESI =>
        if !write then if helped then Shared else Exclusive
        else if own == Invalid && !helped then Invalid else Modified
      case DRAGON =>
        if !write then if helped then SharedClean else Exclusive
        else if own == Invalid && !helped then Modified else SharedDirty
      case MOESI => if write then Modified else if helped then Shared else Exclusive
  }

  /** How another cache holds the block, as the bus names it, that it has held as `state`. */
  function PeerAfter(protocol: Protocol, write: bool, own: State, state: State): State {
    if !write then LentAs(protocol, state)
    else if protocol != DRAGON then Invalid
    else if own == Invalid then if state == Invalid then Invalid else SharedClean
    else if state == SharedDirty then SharedClean else state
  }

  /** The state of the block in the cache that does the job at the head of s, before it. */
  function OwnBefore(cfg: Config, s: SystemState): State
    requires 0 < |s.outstanding| && s.outstanding[0].threadId < |s.caches|
  {
    StateIn(cfg, s.caches[s.outstanding[0].threadId], BlockOf(cfg, s.outstanding[0].address))
  }

  ghost predicate HelpedBefore(cfg: Config, s: SystemState)
    requires 0 < |s.outstanding|
  {
    Helped(cfg.protocol, HeardColumn(cfg, s), s.outstanding[0].threadId)
  }

  /** The cycle in which the other caches hear of the job for the last time: at once, but for the update that
      follows a Dragon write miss which another cache has helped with. */
  ghost function HeardAt(cfg: Config, s: SystemState, end: nat): int
    requires 0 < |s.outstanding| && s.outstanding[0].threadId < |s.caches|
  {
    if cfg.protocol == DRAGON && IsWrite(s.outstanding[0]) && OwnBefore(cfg, s) == Invalid && HelpedBefore(cfg, s)
    then end - PEER_COST else s.cycle + 1
  }

  /** The lines of another cache, in the set of block x. */
  ghost predicate PeerLines(cfg: Config, s: SystemState, s': SystemState, i: nat, x: nat)
    requires 0 < |s.outstanding| && s.outstanding[0].threadId < |s.caches| && i < |s.caches| == |s'.caches|
  {
    var job, c := s.outstanding[0], s.caches[i];
    var u := SnoopedTag(BlockOf(cfg, job.address));
    var own := OwnBefore(cfg, s);
    var m := LinesOf(cfg, c, x);
    && 0 <= HeardAt(cfg, s, s'.cycle)
    && LinesOf(cfg, s'.caches[i], x)
       == Rested(cfg, s'.cycle, c,
                 if GoesOnBus(IsWrite(job), own)
                 then Put(m, u, PeerAfter(cfg.protocol, IsWrite(job), own, StateIn(cfg, c, u)),
                          HeardAt(cfg, s, s'.cycle))
                 else m)
  }

  /** The lines of the cache that does the job. */
  ghost predicate OwnLines(cfg: Config, s: SystemState, s': SystemState, x: nat)
    requires 0 < |s.outstanding| && s.outstanding[0].threadId < |s.caches| == |s'.caches|
  {
    var job := s.outstanding[0];
    var k, t := job.threadId, BlockOf(cfg, job.address);
    var c, c' := s.caches[k], s'.caches[k];
    if SetOf(cfg, x) != SetOf(cfg, t) then LinesOf(cfg, c', x) == Rested(cfg, s.cycle + 1, c, LinesOf(cfg, c, x))
    else Settled(Rested(cfg, s.cycle + 1, c, LinesOf(cfg, c, t)), cfg.numLinesInSet, t,
                 OwnAfter(cfg.protocol, IsWrite(job), OwnBefore(cfg, s), HelpedBefore(cfg, s)), s'.cycle,
                 LinesOf(cfg, c', t))
  }

  // ---------------------------------------------------------------------------------------------
  // The other caches.

  lemma LapsesForGood(c: CacheState, earlier: nat, later: nat)
    requires earlier <= later && Lapsed(c, earlier)
    ensures Lapsed(c, later)
  {
    hide UnsignedSum;
  }

  lemma RestHearRest(m: Lines, q: Option<nat>, over: bool, a: nat, u: nat, state: State, at: nat, end: nat)
    ensures Use(Put(if over then Use(m, q, a) else m, u, state, at), q, end) == Use(Put(m, u, state, at), q, end)
  {
  }

  /** One transaction, heard by a cache at rest. */
  lemma HeardOnce(cfg: Config, cycle: nat, c: CacheState, request: Request, block: nat, end: nat, x: nat)
    requires ValidConfig(cfg) && GoodSets(cfg, cycle, c.localCache) && Quiet(c) && |c.pendingJobs| == 0
    requires request.lineSet == SetOf(cfg, block) && request.lineTag == ToInt(block) && cycle < end
    ensures var u := SnoopedTag(block);
            LinesOf(cfg, Idle(cfg, end, Answered(cfg, cycle + 1, Idle(cfg, cycle + 1, c), request)), x)
            == Rested(cfg, end, c,
                      Put(LinesOf(cfg, c, x), u, SnoopState(cfg.protocol, request.command, StateIn(cfg, c, u)),
                          cycle + 1))
  {
    hide GoodSets, LinesOf, Put, Use, Idle, Answered, StateIn, SnoopState, SnoopedTag, SetOf, ToInt, HoldsSame,
         LastBlock, Lapsed;
    var u := SnoopedTag(block);
    var c1 := Idle(cfg, cycle + 1, c);
    var c2 := Answered(cfg, cycle + 1, c1, request);
    IdleHolds(cfg, cycle, cycle + 1, c);
    IdleLines(cfg, cycle, cycle + 1, c, x);
    SameState(cfg, c, c1, u);
    AnsweredLines(cfg, cycle + 1, c1, request, block, x);
    AnsweredIsGood(cfg, cycle + 1, c1, request, block);
    AnsweredRests(cfg, cycle + 1, c1, request);
    IdleLines(cfg, cycle + 1, end, c2, x);
    SameService(cfg, c, c1, c2);
    var state := SnoopState(cfg.protocol, request.command, StateIn(cfg, c, u));
    RestHearRest(LinesOf(cfg, c, x), LastBlock(cfg, c), Lapsed(c, cycle + 1), cycle + 1, u, state, cycle + 1, end);
    if Lapsed(c, cycle + 1) { LapsesForGood(c, cycle + 1, end); }
  }

  lemma SameService(cfg: Config, c: CacheState, c1: CacheState, c2: CacheState)
    requires OnlyLines(c, c1) && c2 == c1.(localCache := c2.localCache, stats := c2.stats)
    ensures LastBlock(cfg, c2) == LastBlock(cfg, c) && forall cycle :: Lapsed(c2, cycle) == Lapsed(c, cycle)
  {
    hide BlockOf, UnsignedSum;
  }

  lemma AnsweredIsGood(cfg: Config, cycle: nat, c: CacheState, request: Request, block: nat)
    requires ValidConfig(cfg) && GoodSets(cfg, cycle, c.localCache)
    requires request.lineSet == SetOf(cfg, block) && request.lineTag == ToInt(block)
    ensures GoodSets(cfg, cycle, Answered(cfg, cycle, c, request).localCache)
    ensures var u := SnoopedTag(block);
            StateIn(cfg, Answered(cfg, cycle, c, request), u)
            == SnoopState(cfg.protocol, request.command, StateIn(cfg, c, u))
  {
    hide GoodSets, Snoop, StateIn, SnoopState, SnoopStats, SnoopReply, RaisesShared, TakeReply, SetOf, ToInt,
         SnoopedTag;
    SnoopEffect(cfg, cycle, c, request, block);
    var snooped := Snoop(cfg, cycle, c, request);
    ReplyKeepsLines(cfg, snooped.reply, snooped.request, Effect(snooped.cache, snooped.cache, 0, false, false));
    HoldsByLines(cfg, c, SnoopedTag(block),
                 SnoopState(cfg.protocol, request.command, StateIn(cfg, c, SnoopedTag(block))), snooped.cache,
                 Answered(cfg, cycle, c, request));
  }

  lemma SnoopedIsPeerAfter(protocol: Protocol, write: bool, own: State, state: State)
    requires InProtocol(protocol, own) && InProtocol(protocol, state) && GoesOnBus(write, own)
    ensures var first := SnoopState(protocol, CommandFor(protocol, write, own), state);
            && (!(protocol == DRAGON && write && own == Invalid && state != Invalid) ==>
                  PeerAfter(protocol, write, own, state) == first)
            && (protocol == DRAGON && write && own == Invalid ==>
                  PeerAfter(protocol, write, own, state) == SnoopState(DRAGON, BusRdX, first)
                  && (first == Invalid <==> state == Invalid))
  {
  }

  /** Whether there is a second transaction. */
  lemma AgainIfHelped(cfg: Config, s: SystemState)
    requires Ready(cfg, s) && BusJob(cfg, s)
    ensures var job := s.outstanding[0];
            AsksAgain(cfg, job, ToldShared(cfg, s.caches, job))
            == (cfg.protocol == DRAGON && IsWrite(job) && OwnBefore(cfg, s) == Invalid && HelpedBefore(cfg, s))
    ensures var job := s.outstanding[0];
            ToldShared(cfg, s.caches, job)
            == (HelpedBefore(cfg, s) && !(cfg.protocol == DRAGON && IsWrite(job) && OwnBefore(cfg, s) != Invalid))
  {
    hide Sound, StateIn, BlockOf, ToldShared, BusJob, Helped, Coherent, AnyShares, HeardColumn, FoundUpTo,
         DirtyElsewhere, SetOf, ToInt, IssueCost;
    var job := s.outstanding[0];
    ToldIs(cfg, s);
    HeardIsCoherent(cfg, s);
    HeardFacts(cfg.protocol, FirstRequestOf(cfg, s).command, job.threadId, HeardColumn(cfg, s));
    AskerIs(cfg, s);
  }

  lemma PeerInProtocol(cfg: Config, s: SystemState, i: nat)
    requires Ready(cfg, s) && i < |s.caches|
    ensures InProtocol(cfg.protocol, StateIn(cfg, s.caches[i], SnoopedTag(BlockOf(cfg, s.outstanding[0].address))))
    ensures InProtocol(cfg.protocol, OwnBefore(cfg, s))
  {
    hide Sound, StateIn, InProtocol, SnoopedTag, BlockOf;
    OwnInProtocol(cfg, s, i, SnoopedTag(BlockOf(cfg, s.outstanding[0].address)));
    OwnInProtocol(cfg, s, s.outstanding[0].threadId, BlockOf(cfg, s.outstanding[0].address));
  }

  lemma HelpedByHolder(cfg: Config, s: SystemState, i: nat)
    requires 0 < |s.outstanding| && i < |s.caches| && i != s.outstanding[0].threadId && cfg.protocol == DRAGON
    requires StateIn(cfg, s.caches[i], SnoopedTag(BlockOf(cfg, s.outstanding[0].address))) != Invalid
    ensures HelpedBefore(cfg, s)
  {
    hide StateIn, BlockOf, SnoopedTag;
    var heard := HeardColumn(cfg, s);
    ColumnHolds(cfg, s.caches, SnoopedTag(BlockOf(cfg, s.outstanding[0].address)));
    assert i < |heard| && Helps(DRAGON, heard[i]);
  }

  lemma OncePeerLines(cfg: Config, s: SystemState, i: nat, x: nat)
    requires TakesOne(cfg, s)
    requires i < |s.caches| && i != s.outstanding[0].threadId
    ensures |Run(cfg, s, JobCycles(cfg, s)).caches| == |s.caches|
    ensures PeerLines(cfg, s, Run(cfg, s, JobCycles(cfg, s)), i, x)
  {
    hide Sound, Step, Run, Idle, Answered, StateIn, BlockOf, BusJob, Released, JobCycles, SnoopedTag, AsksAgain, Rested,
         Put, LinesOf, HelpedBefore, ToldShared, Orderly, Grantee, Taker, HeardColumn, PeerAfter, SnoopState,
         CommandFor, GoodSets, SetOf, ToInt, InProtocol;
    var job := s.outstanding[0];
    var t := BlockOf(cfg, job.address);
    var s' := Run(cfg, s, JobCycles(cfg, s));
    ReadyIsOrderly(cfg, s);
    AtRest(cfg, s, i);
    AskedIs(cfg, s);
    AskerIs(cfg, s);
    OnceIs(cfg, s);
    JobLasts(cfg, s);
    AgainIfHelped(cfg, s);
    PeerInProtocol(cfg, s, i);
    SnoopedIsPeerAfter(cfg.protocol, IsWrite(job), OwnBefore(cfg, s), StateIn(cfg, s.caches[i], SnoopedTag(t)));
    if cfg.protocol == DRAGON && StateIn(cfg, s.caches[i], SnoopedTag(t)) != Invalid { HelpedByHolder(cfg, s, i); }
    HeardOnce(cfg, s.cycle, s.caches[i], FirstRequestOf(cfg, s), t, s'.cycle, x);
  }

  lemma HitPeerLines(cfg: Config, s: SystemState, i: nat, x: nat)
    requires Ready(cfg, s) && !BusJob(cfg, s) && i < |s.caches| && i != s.outstanding[0].threadId
    ensures |Run(cfg, s, JobCycles(cfg, s)).caches| == |s.caches|
    ensures PeerLines(cfg, s, Run(cfg, s, JobCycles(cfg, s)), i, x)
  {
    hide Sound, Run, Idle, StateIn, BlockOf, BusJob, JobCycles, SnoopedTag, Rested, Put, LinesOf, HelpedBefore, Orderly,
         Taker, FinishJob, PeerAfter, GoodSets;
    ReadyIsOrderly(cfg, s);
    AtRest(cfg, s, i);
    HitIs(cfg, s);
    HitNeedsNoBus(cfg, s);
    IdleLines(cfg, s.cycle, s.cycle + 3, s.caches[i], x);
  }

  /** A Dragon write miss that is helped with: heard twice. */
  lemma RestHearTwice(m: Lines, q: Option<nat>, over: bool, a: nat, u: nat, first: State, at: nat, mid: nat,
                      second: State, end: nat)
    requires first == Invalid ==> u !in m
    ensures Put(if over then Use(Put(m, u, first, at), q, mid) else Put(m, u, first, at), u, second, mid)
            == Put(if over then Use(m, q, mid) else m, u, second, mid)
  {
  }

  lemma HeardTwice(cfg: Config, cycle: nat, c: CacheState, request: Request, request': Request, block: nat, mid: nat,
                   end: nat, x: nat)
    requires ValidConfig(cfg) && GoodSets(cfg, cycle, c.localCache) && Quiet(c) && |c.pendingJobs| == 0
    requires request.lineSet == SetOf(cfg, block) && request.lineTag == ToInt(block) && cycle + 1 < mid < end
    requires request'.lineSet == SetOf(cfg, block) && request'.lineTag == ToInt(block)
    requires var u := SnoopedTag(block);
             SnoopState(cfg.protocol, request.command, StateIn(cfg, c, u)) == Invalid ==> StateIn(cfg, c, u) == Invalid
    ensures var u := SnoopedTag(block);
            var first := SnoopState(cfg.protocol, request.command, StateIn(cfg, c, u));
            var c1 := Idle(cfg, mid, Answered(cfg, cycle + 1, Idle(cfg, cycle + 1, c), request));
            LinesOf(cfg, Idle(cfg, end, Answered(cfg, mid, c1, request')), x)
            == Rested(cfg, end, c, Put(LinesOf(cfg, c, x), u, SnoopState(cfg.protocol, request'.command, first), mid))
  {
    hide GoodSets, LinesOf, Put, Use, Idle, Answered, StateIn, SnoopState, SnoopedTag, SetOf, ToInt, HoldsSame,
         LastBlock, Lapsed, HasLine;
    var u := SnoopedTag(block);
    var c0 := Idle(cfg, cycle + 1, c);
    var b := Answered(cfg, cycle + 1, c0, request);
    var c1 := Idle(cfg, mid, b);
    var c2 := Answered(cfg, mid, c1, request');
    IdleHolds(cfg, cycle, cycle + 1, c);
    SameState(cfg, c, c0, u);
    HeardOnce(cfg, cycle, c, request, block, mid, x);
    AnsweredIsGood(cfg, cycle + 1, c0, request, block);
    AnsweredRests(cfg, cycle + 1, c0, request);
    SameService(cfg, c, c0, b);
    IdleHolds(cfg, cycle + 1, mid, b);
    SameState(cfg, b, c1, u);
    AnsweredLines(cfg, mid, c1, request', block, x);
    AnsweredIsGood(cfg, mid, c1, request', block);
    AnsweredRests(cfg, mid, c1, request');
    SameService(cfg, b, c1, c2);
    IdleLines(cfg, mid, end, c2, x);
    var m, q := LinesOf(cfg, c, x), LastBlock(cfg, c);
    var first := SnoopState(cfg.protocol, request.command, StateIn(cfg, c, u));
    var second := SnoopState(cfg.protocol, request'.command, first);
    if StateIn(cfg, c, u) == Invalid {
      HasLineIsState(cfg, cycle, c, u);
      NotThere(cfg, cycle, c, u, x);
    }
    RestHearTwice(m, q, Lapsed(c, mid), cycle + 1, u, first, cycle + 1, mid, second, end);
    RestHearRest(m, q, Lapsed(c, mid), mid, u, second, mid, end);
    if Lapsed(c, mid) { LapsesForGood(c, mid, end); }
  }

  lemma TwicePeerLines(cfg: Config, s: SystemState, i: nat, x: nat)
    requires TakesTwo(cfg, s)
    requires i < |s.caches| && i != s.outstanding[0].threadId
    ensures |Run(cfg, s, JobCycles(cfg, s)).caches| == |s.caches|
    ensures PeerLines(cfg, s, Run(cfg, s, JobCycles(cfg, s)), i, x)
  {
    hide Sound, Step, Run, Idle, Answered, StateIn, BlockOf, BusJob, Released, JobCycles, SnoopedTag, AsksAgain, Rested,
         Put, LinesOf, HelpedBefore, ToldShared, Orderly, Grantee, Taker, HeardColumn, PeerAfter, SnoopState,
         CommandFor, GoodSets, SetOf, ToInt, InProtocol, Grant, Grantable;
    var job := s.outstanding[0];
    var t := BlockOf(cfg, job.address);
    var s' := Run(cfg, s, JobCycles(cfg, s));
    var mid := TwiceIs(cfg, s);
    ReadyIsOrderly(cfg, s);
    AtRest(cfg, s, i);
    AskedIs(cfg, s);
    AskerIs(cfg, s);
    JobsLastLonger(cfg, s);
    AgainIfHelped(cfg, s);
    PeerInProtocol(cfg, s, i);
    SnoopedIsPeerAfter(cfg.protocol, IsWrite(job), OwnBefore(cfg, s), StateIn(cfg, s.caches[i], SnoopedTag(t)));
    GrantAnswers(cfg, mid, job.threadId);
    HeardTwice(cfg, s.cycle, s.caches[i], FirstRequestOf(cfg, s), RequestFor(cfg, BusRdX, job.address, PEER_COST), t,
               mid.cycle, s'.cycle, x);
  }

  // ---------------------------------------------------------------------------------------------
  // The cache that does the job.

  lemma PutThenSettled(m: Lines, capacity: nat, t: nat, first: State, at: nat, second: State, end: nat, m': Lines)
    requires first == Invalid ==> t !in m
    requires Settled(Put(m, t, first, at), capacity, t, second, end, m')
    ensures Settled(m, capacity, t, second, end, m')
  {
    if t in m {
      assert Put(Put(m, t, first, at), t, second, end) == Put(m, t, second, end);
    }
  }

  /** The own block's state in three steps: before, asked, and after the transaction. */
  lemma OwnSteps(protocol: Protocol, write: bool, own: State, helped: bool)
    requires InProtocol(protocol, own) && GoesOnBus(write, own) && (protocol == MSI ==> !helped)
    ensures var asked := if write then OwnAtIssue(protocol, true, own) else own;
            var told := helped && !(protocol == DRAGON && write && own != Invalid);
            && (asked == Invalid <==> own == Invalid)
            && OwnAtCompletion(protocol, write, told, asked) == OwnAfter(protocol, write, own, helped)
    ensures OwnAtCompletion(DRAGON, true, false, SharedDirty) == SharedDirty
  {
  }

  lemma AskedLines(cfg: Config, s: SystemState, x: nat)
    requires Ready(cfg, s) && BusJob(cfg, s)
    ensures var job := s.outstanding[0];
            var k, t := job.threadId, BlockOf(cfg, job.address);
            var own := OwnBefore(cfg, s);
            var c := s.caches[k];
            var asked := if IsWrite(job) then OwnAtIssue(cfg.protocol, true, own) else own;
            && k < |Step(cfg, s).caches| && StateIn(cfg, Step(cfg, s).caches[k], t) == asked
            && LinesOf(cfg, Step(cfg, s).caches[k], x)
               == Put(Rested(cfg, s.cycle + 1, c, LinesOf(cfg, c, x)), t, asked, s.cycle + 1)
            && (own == Invalid ==> t !in Rested(cfg, s.cycle + 1, c, LinesOf(cfg, c, t)))
  {
    hide Sound, Step, BusJob, Taker, StateIn, BlockOf, GoodSets, LinesOf, Rested, Put, Orderly, OwnAtIssue, HasLine;
    var job := s.outstanding[0];
    var k, t := job.threadId, BlockOf(cfg, job.address);
    ReadyIsOrderly(cfg, s);
    AtRest(cfg, s, k);
    AskedOwn(cfg, s);
    AskerIs(cfg, s);
    TakerLinesAre(cfg, s, x);
    LinesStay(cfg, Taker(cfg, s), Step(cfg, s).caches[k], x);
    if OwnBefore(cfg, s) == Invalid {
      HasLineIsState(cfg, s.cycle, s.caches[k], t);
      NotThere(cfg, s.cycle, s.caches[k], t, t);
      RestedKeys(cfg, s.cycle + 1, s.caches[k], LinesOf(cfg, s.caches[k], t));
    }
  }

  lemma RestedKeys(cfg: Config, cycle: nat, c: CacheState, m: Lines)
    ensures Rested(cfg, cycle, c, m).Keys == m.Keys
  {
  }

  lemma PutOutside(cfg: Config, cycle: nat, c: CacheState, t: nat, x: nat, state: State, now: nat, end: nat)
    requires ValidConfig(cfg) && GoodSets(cfg, cycle, c.localCache) && SetOf(cfg, x) != SetOf(cfg, t)
    ensures Put(Rested(cfg, now, c, LinesOf(cfg, c, x)), t, state, end) == Rested(cfg, now, c, LinesOf(cfg, c, x))
  {
    hide LinesOf, SetOf, GoodSets, Rested;
    RestedKeys(cfg, now, c, LinesOf(cfg, c, x));
    if t in LinesOf(cfg, c, x) {
      InItsSet(cfg, cycle, c, x, t);
    }
  }

  lemma OnceOwnLines(cfg: Config, s: SystemState, x: nat)
    requires TakesOne(cfg, s)
    ensures |Run(cfg, s, JobCycles(cfg, s)).caches| == |s.caches|
    ensures OwnLines(cfg, s, Run(cfg, s, JobCycles(cfg, s)), x)
  {
    hide Sound, Step, Run, Idle, Answered, StateIn, BlockOf, BusJob, Released, JobCycles, SnoopedTag, AsksAgain, Rested,
         Put, LinesOf, ToldShared, Orderly, Grantee, Taker, HeardColumn, GoodSets, SetOf, InProtocol, Settled, OwnAfter,
         OwnAtCompletion, OwnAtIssue, FirstRequestOf, Helped;
    var job := s.outstanding[0];
    var k, t := job.threadId, BlockOf(cfg, job.address);
    var s' := Run(cfg, s, JobCycles(cfg, s));
    var asked := Step(cfg, s);
    var own := OwnBefore(cfg, s);
    var c := s.caches[k];
    ReadyIsOrderly(cfg, s);
    AtRest(cfg, s, k);
    AskedIs(cfg, s);
    AskerIs(cfg, s);
    AskedOwn(cfg, s);
    AskedLines(cfg, s, x);
    AskedLines(cfg, s, t);
    OnceIs(cfg, s);
    JobLasts(cfg, s);
    AgainIfHelped(cfg, s);
    NotHelpedInMsi(cfg, s);
    BusJobKind(cfg, s);
    OwnSteps(cfg.protocol, IsWrite(job), own, HelpedBefore(cfg, s));
    ReleasedLines(cfg, asked.cycle, s'.cycle, asked.caches[k], job, asked.bus.isShared, x);
    var state := if IsWrite(job) then OwnAtIssue(cfg.protocol, true, own) else own;
    if SetOf(cfg, x) != SetOf(cfg, t) {
      PutOutside(cfg, s.cycle, c, t, x, state, s.cycle + 1, s.cycle + 1);
    } else {
      PutThenSettled(Rested(cfg, s.cycle + 1, c, LinesOf(cfg, c, t)), cfg.numLinesInSet, t, state, s.cycle + 1,
                     OwnAfter(cfg.protocol, IsWrite(job), own, HelpedBefore(cfg, s)), s'.cycle,
                     LinesOf(cfg, s'.caches[k], t));
    }
  }

  lemma NotHelpedInMsi(cfg: Config, s: SystemState)
    requires 0 < |s.outstanding|
    ensures cfg.protocol == MSI ==> !HelpedBefore(cfg, s)
  {
    hide HeardColumn;
  }

  lemma UseAfterPut(m: Lines, t: nat, state: State, at: nat, end: nat)
    requires state != Invalid
    ensures Use(Put(m, t, state, at), Some(t), end) == Put(m, t, state, end)
  {
  }

  lemma HitOwnLines(cfg: Config, s: SystemState, x: nat)
    requires Ready(cfg, s) && !BusJob(cfg, s)
    ensures |Run(cfg, s, JobCycles(cfg, s)).caches| == |s.caches|
    ensures OwnLines(cfg, s, Run(cfg, s, JobCycles(cfg, s)), x)
  {
    hide Sound, Run, Idle, StateIn, BlockOf, BusJob, JobCycles, Rested, Put, LinesOf, HelpedBefore, Orderly, Use, Taker,
         FinishJob, GoodSets, SetOf, HasLine, TakesJob, InProtocol;
    var job := s.outstanding[0];
    var k, t := job.threadId, BlockOf(cfg, job.address);
    var c := s.caches[k];
    var s' := Run(cfg, s, JobCycles(cfg, s));
    ReadyIsOrderly(cfg, s);
    AtRest(cfg, s, k);
    HitIs(cfg, s);
    HitNeedsNoBus(cfg, s);
    OwnInProtocol(cfg, s, k, t);
    TakerHolds(cfg, s);
    TakerLines(cfg, s.cycle + 1, c, job, Taker(cfg, s));
    TakerHasJob(cfg, s.cycle + 1, c, job, Taker(cfg, s));
    HasLineIsState(cfg, s.cycle, c, t);
    GoodWaysOf(cfg, s.cycle, c, t);
    RestedKeys(cfg, s.cycle + 1, c, LinesOf(cfg, c, t));
    TakerLinesAre(cfg, s, x);
    TakerLinesAre(cfg, s, t);
    FinishLines(cfg, s.cycle + 1, s'.cycle, Taker(cfg, s), x);
    FinishLines(cfg, s.cycle + 1, s'.cycle, Taker(cfg, s), t);
    var state := TakenAs(cfg.protocol, job, StateIn(cfg, c, t));
    UseAfterPut(Rested(cfg, s.cycle + 1, c, LinesOf(cfg, c, x)), t, state, s.cycle + 1, s'.cycle);
    UseAfterPut(Rested(cfg, s.cycle + 1, c, LinesOf(cfg, c, t)), t, state, s.cycle + 1, s'.cycle);
    if SetOf(cfg, x) != SetOf(cfg, t) {
      PutOutside(cfg, s.cycle, c, t, x, state, s.cycle + 1, s'.cycle);
    } else {
      LinesHold(cfg, c, t);
    }
  }

  lemma LinesHold(cfg: Config, c: CacheState, t: nat)
    ensures LinesOf(cfg, c, t) == Contents(WaysOf(cfg, c, t))
  {
  }

  lemma TakerHasJob(cfg: Config, cycle: nat, c: CacheState, job: Job, c': CacheState)
    requires TakesJob(cfg, cycle, c, job, c')
    ensures LastBlock(cfg, c') == Some(BlockOf(cfg, job.address))
  {
    hide GoodSets, StateIn, BlockOf, TakenAs, RequestFor, CommandFor, HoldsAs;
  }

  /** Two transactions settle the block twice. */
  lemma SettledTwice(m: Lines, capacity: nat, t: nat, state: State, mid: nat, m1: Lines, end: nat, m': Lines)
    requires state != Invalid && Settled(m, capacity, t, state, mid, m1) && Settled(m1, capacity, t, state, end, m')
    ensures Settled(m, capacity, t, state, end, m')
  {
    if t !in m {
      if |m| >= capacity {
        var oldest :| oldest in m && (forall u | u in m :: m[oldest].1 <= m[u].1)
            && m1 == (m - {oldest})[t := (state, mid)];
        assert m' == (m - {oldest})[t := (state, end)];
      } else {
        assert m' == m[t := (state, end)];
      }
    }
  }

  lemma TwiceOwnLines(cfg: Config, s: SystemState, x: nat)
    requires TakesTwo(cfg, s)
    ensures |Run(cfg, s, JobCycles(cfg, s)).caches| == |s.caches|
    ensures OwnLines(cfg, s, Run(cfg, s, JobCycles(cfg, s)), x)
  {
    hide Sound, Step, Run, Idle, Answered, StateIn, BlockOf, BusJob, Released, JobCycles, SnoopedTag, AsksAgain, Rested,
         Put, LinesOf, ToldShared, Orderly, Grantee, Taker, HeardColumn, GoodSets, SetOf, InProtocol, Settled,
         FirstRequestOf, Helped, Grant, Grantable, FoundUpTo, TakingCounts, GrantCounts, EndCounts, Plus,
         OwnAtIssue;
    var job := s.outstanding[0];
    var k, t := job.threadId, BlockOf(cfg, job.address);
    var s' := Run(cfg, s, JobCycles(cfg, s));
    var asked := Step(cfg, s);
    var c := s.caches[k];
    var mid := TwiceIs(cfg, s);
    var again := Grant(cfg, mid);
    ReadyIsOrderly(cfg, s);
    AtRest(cfg, s, k);
    AskedIs(cfg, s);
    AskedOwn(cfg, s);
    AskerIs(cfg, s);
    AskedLines(cfg, s, x);
    AskedLines(cfg, s, t);
    JobsLastLonger(cfg, s);
    AgainIfHelped(cfg, s);
    MidOwn(cfg, s, mid);
    AgainIs(cfg, mid, k, job);
    SameIsHolds(cfg, mid.caches[k], t, again.caches[k]);
    SameState(cfg, mid.caches[k], again.caches[k], t);
    ReleasedLines(cfg, asked.cycle, mid.cycle, asked.caches[k], job, true, x);
    ReleasedLines(cfg, again.cycle, s'.cycle, again.caches[k], job, false, x);
    LinesStay(cfg, mid.caches[k], again.caches[k], x);
    LinesStay(cfg, mid.caches[k], again.caches[k], t);
    var state := OwnAtIssue(DRAGON, true, Invalid);
    IssuedInvalid();
    if SetOf(cfg, x) != SetOf(cfg, t) {
      PutOutside(cfg, s.cycle, c, t, x, Invalid, s.cycle + 1, s.cycle + 1);
    } else {
      var m := Rested(cfg, s.cycle + 1, c, LinesOf(cfg, c, t));
      PutThenSettled(m, cfg.numLinesInSet, t, Invalid, s.cycle + 1, SharedDirty, mid.cycle,
                     LinesOf(cfg, mid.caches[k], t));
      SettledTwice(m, cfg.numLinesInSet, t, SharedDirty, mid.cycle, LinesOf(cfg, mid.caches[k], t), s'.cycle,
                   LinesOf(cfg, s'.caches[k], t));
    }
  }

  lemma IssuedInvalid()
    ensures OwnAtIssue(DRAGON, true, Invalid) == Invalid
  {
  }

  // ---------------------------------------------------------------------------------------------
  // Every job.

  /** The lines of all caches, in all sets, over the next job of a resting system, in all protocols. */
  lemma LinesOverJob(cfg: Config, s: SystemState, i: nat, x: nat)
    requires Ready(cfg, s) && i < |s.caches|
    ensures |Run(cfg, s, JobCycles(cfg, s)).caches| == |s.caches|
    ensures if i == s.outstanding[0].threadId then OwnLines(cfg, s, Run(cfg, s, JobCycles(cfg, s)), x)
            else PeerLines(cfg, s, Run(cfg, s, JobCycles(cfg, s)), i, x)
  {
    hide Sound, Run, JobCycles, BusJob, ToldShared, PeerLines, OwnLines;
    if !BusJob(cfg, s) {
      if i == s.outstanding[0].threadId { HitOwnLines(cfg, s, x); } else { HitPeerLines(cfg, s, i, x); }
    } else if AsksAgain(cfg, s.outstanding[0], ToldShared(cfg, s.caches, s.outstanding[0])) {
      if i == s.outstanding[0].threadId { TwiceOwnLines(cfg, s, x); } else { TwicePeerLines(cfg, s, i, x); }
    } else {
      if i == s.outstanding[0].threadId { OnceOwnLines(cfg, s, x); } else { OncePeerLines(cfg, s, i, x); }
    }
  }

  /** When the cache's service time is over after the job, which decides whether it goes on using the block. */
  ghost function CostAfter(cfg: Config, s: SystemState): int
    requires 0 < |s.outstanding| && s.outstanding[0].threadId < |s.caches|
  {
    var job := s.outstanding[0];
    var k := job.threadId;
    var before := s.caches[k].jobCycleCost;
    var write, own := IsWrite(job), OwnBefore(cfg, s);
    var helped, dirty := HelpedBefore(cfg, s), DirtyElsewhere(HeardColumn(cfg, s), k);
    if !GoesOnBus(write, own) then CACHE_HIT_COST
    else
      match cfg.protocol
      case MSI => (if write then MEMORY_COST else before) + if dirty then MEMORY_COST else 0
      case MESI =>
        if dirty then (if write then PEER_COST else before) + PEER_COST
        else if helped || write then PEER_COST else before
      case DRAGON => if !write || (own == Invalid && helped) then PEER_COST else CACHE_HIT_COST
      case MOESI =>
        if helped && IssueCost(cfg, s.cycle + 1, write, own) != CACHE_HIT_COST then PEER_COST
        else if !write then before
        else if own == Owned then CACHE_HIT_COST else cfg.unset(s.cycle + 1)
  }

  lemma WriteService(cfg: Config, cycle: nat, c: CacheState, address: nat)
    requires ValidConfig(cfg) && GoodSets(cfg, cycle, c.localCache)
    ensures var own := StateIn(cfg, c, BlockOf(cfg, address));
            var c' := HandleWrite(cfg, cycle, c, address);
            c'.jobCycleCost
            == if WritesSilently(own) || cfg.protocol == DRAGON || own == Owned then CACHE_HIT_COST
               else TotalMemoryCost(cfg, cycle)
  {
    hide GoodSets, HasLine, SeenState, StateIn, ProbeLine, BlockOf, SetOf, ToInt, SetLineState, HandleWrite, HoldsSame,
         TotalMemoryCost;
    var block := BlockOf(cfg, address);
    var c1 := ProbeLine(cfg, cycle, c, block);
    HasLineIsState(cfg, cycle, c, block);
    HandleWriteIs(cfg, cycle, c, address);
    SetService(cfg, cycle, block);
  }

  lemma SetService(cfg: Config, cycle: nat, block: nat)
    ensures forall c: CacheState, state: State ::
              SetLineState(cfg, cycle, c, block, state)
              == c.(localCache := SetLineState(cfg, cycle, c, block, state).localCache)
  {
    hide HasLine, SetOf;
  }

  lemma ReadService(cfg: Config, cycle: nat, c: CacheState, address: nat)
    requires ValidConfig(cfg) && GoodSets(cfg, cycle, c.localCache)
    ensures var own := StateIn(cfg, c, BlockOf(cfg, address));
            var c' := HandleRead(cfg, cycle, c, address);
            c'.jobCycleCost
            == if own != Invalid then CACHE_HIT_COST
               else if cfg.protocol == DRAGON then PEER_COST else c.jobCycleCost
  {
    hide GoodSets, HasLine, SeenState, StateIn, ProbeLine, BlockOf, SetOf, ToInt, HoldsSame;
    var block := BlockOf(cfg, address);
    HasLineIsState(cfg, cycle, c, block);
    ProbeHolds(cfg, cycle, c, block);
  }

  lemma TakerService(cfg: Config, s: SystemState)
    requires Ready(cfg, s)
    ensures var job := s.outstanding[0];
            var own := OwnBefore(cfg, s);
            var before := s.caches[job.threadId].jobCycleCost;
            Taker(cfg, s).jobCycleCost
            == if !GoesOnBus(IsWrite(job), own) then CACHE_HIT_COST
               else if !IsWrite(job) then if cfg.protocol == DRAGON then PEER_COST else before
               else if cfg.protocol == DRAGON || own == Owned then CACHE_HIT_COST
               else TotalMemoryCost(cfg, s.cycle + 1)
  {
    hide Sound, GoodSets, StateIn, Taking, HandleWrite, HandleRead, HoldsSame, BlockOf, TotalMemoryCost;
    var job := s.outstanding[0];
    var c, t := s.caches[job.threadId], BlockOf(cfg, job.address);
    ReadyIsOrderly(cfg, s);
    AtRest(cfg, s, job.threadId);
    TakingRestamps(cfg, s.cycle, c, job);
    var taken := Taking(cfg, s.cycle + 1, c, job);
    SameState(cfg, c, taken, t);
    var counted := if IsWrite(job) then CountWrite(taken) else CountRead(taken);
    SameIsHolds(cfg, taken, t, counted);
    SameState(cfg, taken, counted, t);
    WriteService(cfg, s.cycle + 1, counted, job.address);
    ReadService(cfg, s.cycle + 1, counted, job.address);
  }

  /** What the grant makes of the cost. */
  lemma GranteeService(cfg: Config, cycle: nat, c: CacheState, request: Request, k: nat, column: Column)
    requires Chargeable(cfg.protocol, column)
    ensures var dirty, helped := DirtyElsewhere(column, k), Helped(cfg.protocol, column, k);
            Grantee(cfg, cycle, c, request, k, column).jobCycleCost
            == match cfg.protocol
               case MSI => c.jobCycleCost + if dirty then MEMORY_COST else 0
               case MESI => if dirty then c.jobCycleCost + PEER_COST else if helped then PEER_COST else c.jobCycleCost
               case DRAGON => c.jobCycleCost
               case MOESI => if helped && request.cycleCost != CACHE_HIT_COST then PEER_COST else c.jobCycleCost
  {
    hide FoundUpTo, Coherent;
    DirtyIsPeer(column, k);
    if cfg.protocol == MESI {
      MesiPeers(k, column);
    } else if cfg.protocol == MOESI {
      MoesiPeers(k, column);
    }
    hide PeerIs, Helped, DirtyElsewhere;
  }

  lemma MoesiPeers(k: nat, column: Column)
    ensures Helped(MOESI, column, k)
            <==> PeerIs(column, k, |column|, Modified) || PeerIs(column, k, |column|, Exclusive)
                 || PeerIs(column, k, |column|, Owned)
  {
    if Helped(MOESI, column, k) {
      var j :| 0 <= j < |column| && j != k && Helps(MOESI, column[j]);
      assert column[j] == Modified || column[j] == Exclusive || column[j] == Owned;
    }
  }

  lemma ReleasedService(cfg: Config, now: nat, c: CacheState, job: Job, shared: bool)
    requires c.currentJob == Some(job) && (IsRead(job) || IsWrite(job))
    ensures var c' := Released(cfg, now, c, shared);
            && c'.startServiceCycle == now && c'.currentJob == c.currentJob
            && c'.jobCycleCost == if AsksAgain(cfg, job, shared) then PEER_COST else c.jobCycleCost
  {
    hide HasLine, SetOf, Replace, Touch, SetState, BlockOf, StateIn, ToInt;
    var t := BlockOf(cfg, job.address);
    PutService(cfg, now, t);
    var freed := Completing(cfg, now, c).(haveBusRequest := false, busy := false, busRequestBeingServiced := false);
    PlaceService(cfg, now, freed, job);
    hide PutLine, PlaceLine;
  }

  lemma PutService(cfg: Config, now: nat, t: nat)
    ensures forall c: CacheState, state: State ::
              PutLine(cfg, now, c, t, state) == c.(localCache := PutLine(cfg, now, c, t, state).localCache)
  {
    hide SetOf, SetState;
  }

  lemma PlaceService(cfg: Config, now: nat, c: CacheState, job: Job)
    ensures var c' := PlaceLine(cfg, now, c, job);
            c' == c.(localCache := c'.localCache, stats := c'.stats)
  {
    hide HasLine, SetOf, Replace, Touch, BlockOf;
  }

  /** The cost of a cache on the bus, from the grant. */
  lemma AskerService(cfg: Config, s: SystemState)
    requires Ready(cfg, s) && BusJob(cfg, s)
    ensures var job := s.outstanding[0];
            && job.threadId < |Step(cfg, s).caches|
            && Step(cfg, s).caches[job.threadId].jobCycleCost
               == if cfg.protocol == DRAGON && IsWrite(job) then CACHE_HIT_COST else CostAfter(cfg, s)
  {
    hide Sound, Step, Answered, Idle, Taker, StateIn, BlockOf, ToldShared, BusJob, Grantee, FoundUpTo, HeardColumn,
         Helped, DirtyElsewhere, Coherent, IssueCost, SetOf, ToInt;
    AskedIs(cfg, s);
    AskerIs(cfg, s);
    TakerService(cfg, s);
    HeardIsCoherent(cfg, s);
    NotHelpedInMsi(cfg, s);
    GranteeService(cfg, s.cycle + 1, Taker(cfg, s), FirstRequestOf(cfg, s), s.outstanding[0].threadId,
                   HeardColumn(cfg, s));
  }

  /** What the cache that does a job over the bus is left with. */
  lemma BusService(cfg: Config, s: SystemState)
    requires Ready(cfg, s) && BusJob(cfg, s)
    ensures var k := s.outstanding[0].threadId;
            var s' := Run(cfg, s, JobCycles(cfg, s));
            && |s'.caches| == |s.caches|
            && s'.caches[k].currentJob == Some(s.outstanding[0]) && s'.caches[k].startServiceCycle == s'.cycle
            && s'.caches[k].jobCycleCost == CostAfter(cfg, s)
  {
    hide Sound, Step, Run, Idle, Answered, StateIn, BlockOf, Released, JobCycles, ToldShared, BusJob, Grantee, Taker,
         HeardColumn, Helped, DirtyElsewhere, Coherent, IssueCost, SetOf, ToInt, Grant, Grantable, FoundUpTo,
         InProtocol;
    var job := s.outstanding[0];
    var k := job.threadId;
    var s' := Run(cfg, s, JobCycles(cfg, s));
    AskedIs(cfg, s);
    AskerIs(cfg, s);
    AskerService(cfg, s);
    AgainIfHelped(cfg, s);
    BusJobKind(cfg, s);
    if AsksAgain(cfg, job, ToldShared(cfg, s.caches, job)) {
      var mid := TwiceIs(cfg, s);
      ReadyIsOrderly(cfg, s);
      AgainService(cfg, mid, k, job);
      ReleasedService(cfg, mid.cycle, Step(cfg, s).caches[k], job, true);
      ReleasedService(cfg, s'.cycle, Grant(cfg, mid).caches[k], job, false);
    } else {
      OnceIs(cfg, s);
      ReleasedService(cfg, s'.cycle, Step(cfg, s).caches[k], job, Step(cfg, s).bus.isShared);
    }
  }

  lemma AgainService(cfg: Config, mid: SystemState, k: nat, job: Job)
    requires ValidConfig(cfg) && cfg.protocol == DRAGON && Grantable(cfg, mid, k)
    requires k < |mid.caches| && mid.caches[k].currentJob == Some(job)
    ensures |Grant(cfg, mid).caches| == |mid.caches|
    ensures Grant(cfg, mid).caches[k].currentJob == Some(job)
    ensures Grant(cfg, mid).caches[k].jobCycleCost == mid.caches[k].jobCycleCost
  {
    hide Grant, Grantee, ColumnOf, SnoopedTag, BlockOf, Grantable, GoodSets;
    var column := ColumnOf(cfg, mid.caches, SnoopedTag(JobBlock(cfg, mid.caches[k])));
    GrantableHasRequest(cfg, mid, k);
    AgainIs(cfg, mid, k, job);
    GrantCharges(cfg, mid, k, column);
    GranteeService(cfg, mid.cycle, mid.caches[k], mid.caches[k].busRequest.value, k, column);
  }

  /** What is left of a job in the caches besides lines and counters. */
  lemma ServiceOverJob(cfg: Config, s: SystemState, i: nat)
    requires Ready(cfg, s) && i < |s.caches|
    ensures var job := s.outstanding[0];
            var s' := Run(cfg, s, JobCycles(cfg, s));
            && |s'.caches| == |s.caches|
            && (i != job.threadId ==>
                  && s'.caches[i].currentJob == s.caches[i].currentJob
                  && s'.caches[i].startServiceCycle == s.caches[i].startServiceCycle
                  && s'.caches[i].jobCycleCost == s.caches[i].jobCycleCost)
            && (i == job.threadId ==>
                  && s'.caches[i].currentJob == Some(job)
                  && s'.caches[i].startServiceCycle
                     == (if GoesOnBus(IsWrite(job), OwnBefore(cfg, s)) then s'.cycle else s.cycle + 1)
                  && s'.caches[i].jobCycleCost == CostAfter(cfg, s))
  {
    hide Sound, Run, JobCycles, BusJob, StateIn, BlockOf, Taker, FinishJob, Idle, TakesJob, HeardColumn, Helped,
         DirtyElsewhere;
    if i != s.outstanding[0].threadId {
      PeerService(cfg, s, i);
    } else if BusJob(cfg, s) {
      BusService(cfg, s);
      AskerIs(cfg, s);
    } else {
      HitIs(cfg, s);
      HitNeedsNoBus(cfg, s);
      TakerHolds(cfg, s);
      TakerServes(cfg, s.cycle + 1, s.caches[i], s.outstanding[0], Taker(cfg, s));
      FinishService(cfg, Run(cfg, s, JobCycles(cfg, s)).cycle, Taker(cfg, s));
    }
  }

  lemma TakerServes(cfg: Config, cycle: nat, c: CacheState, job: Job, c': CacheState)
    requires TakesJob(cfg, cycle, c, job, c') && (IsRead(job) || IsWrite(job))
    ensures c'.currentJob == Some(job)
    ensures !GoesOnBus(IsWrite(job), StateIn(cfg, c, BlockOf(cfg, job.address))) ==>
              c'.startServiceCycle == cycle && c'.jobCycleCost == CACHE_HIT_COST
  {
    hide GoodSets, StateIn, BlockOf, TakenAs, RequestFor, CommandFor, HoldsAs;
  }

  lemma FinishService(cfg: Config, cycle: nat, c: CacheState)
    ensures var c' := FinishJob(cfg, cycle, c);
            c' == c.(localCache := c'.localCache, busy := false)
  {
    hide HasLine, SetOf, Touch;
  }

  lemma PeerService(cfg: Config, s: SystemState, i: nat)
    requires Ready(cfg, s) && i < |s.caches| && i != s.outstanding[0].threadId
    ensures var s' := Run(cfg, s, JobCycles(cfg, s));
            && |s'.caches| == |s.caches|
            && s'.caches[i] == s.caches[i].(localCache := s'.caches[i].localCache, stats := s'.caches[i].stats)
  {
    hide Sound, Step, Run, Idle, Answered, StateIn, BlockOf, Released, JobCycles, ToldShared, BusJob, Grantee,
         AsksAgain, Taker, HeardColumn, Grant, Grantable, Orderly, GoodSets, PeerCounts, Plus, FirstRequestOf;
    var job := s.outstanding[0];
    var s' := Run(cfg, s, JobCycles(cfg, s));
    ReadyIsOrderly(cfg, s);
    AtRest(cfg, s, i);
    if !BusJob(cfg, s) {
      HitIs(cfg, s);
      IdleOnlyLines(cfg, s'.cycle, s.caches[i]);
    } else {
      var asked := Step(cfg, s);
      AskedIs(cfg, s);
      AskedPeer(cfg, s, i);
      IdleOnlyLines(cfg, s.cycle + 1, s.caches[i]);
      AnsweredRests(cfg, s.cycle + 1, Idle(cfg, s.cycle + 1, s.caches[i]), FirstRequestOf(cfg, s));
      if AsksAgain(cfg, job, ToldShared(cfg, s.caches, job)) {
        var mid := TwiceIs(cfg, s);
        IdleOnlyLines(cfg, mid.cycle, asked.caches[i]);
        GrantAnswers(cfg, mid, job.threadId);
        GrantableRests(cfg, mid, job.threadId, i);
        AnsweredRests(cfg, mid.cycle, mid.caches[i], mid.caches[job.threadId].busRequest.value);
        IdleOnlyLines(cfg, s'.cycle, Grant(cfg, mid).caches[i]);
      } else {
        OnceIs(cfg, s);
        IdleOnlyLines(cfg, s'.cycle, asked.caches[i]);
      }
    }
  }
}
