/** What granting the bus does to every block: all other caches snoop, the requester learns whether
    the block is shared, and the transaction's length is fixed by the states it met. */
module BusLemmas {
  import opened Wrappers
  import opened Constants
  import opened Requests
  import opened Sets
  import opened CacheModel
  import opened Coherence
  import opened CacheLemmas
  import opened SystemModel

  /** How the caches hold a block. */
  function ColumnOf(cfg: Config, caches: seq<CacheState>, block: nat): Column {
    seq(|caches|, i requires 0 <= i < |caches| => StateIn(cfg, caches[i], block))
  }

  /** Some cache among the first n, other than k, answers with SHARED (MESI's discount is given once). */
  predicate FoundUpTo(protocol: Protocol, command: Command, k: nat, column: Column, n: nat)
    requires n <= |column|
  {
    protocol == MESI && exists i | 0 <= i < n :: i != k && SnoopReply(protocol, command, column[i]) == SHARED
  }

  /** What one snooped state adds to the transaction's length. */
  function Extra(protocol: Protocol, command: Command, cost: int, state: State, found: bool): int {
    match protocol
    case MSI => if state == Modified then MEMORY_COST else 0
    case MESI =>
      if state == Modified then PEER_COST
      else if !found && (state == Shared || state == Exclusive) then PEER_COST - MEMORY_COST
      else 0
    case DRAGON => 0
    case MOESI => if Shares(MOESI, command, state) && cost != CACHE_HIT_COST then PEER_COST - MEMORY_COST else 0
  }

  /** The end of a transaction first meant to end at `end`, after n replies. */
  function EndAfter(protocol: Protocol, command: Command, cost: int, k: nat, column: Column, n: nat, end: nat): nat
    requires n <= |column|
  {
    if n == 0 then end
    else
      var before := EndAfter(protocol, command, cost, k, column, n - 1, end);
      if n - 1 == k then before
      else UnsignedSum(before,
                       Extra(protocol, command, cost, column[n - 1], FoundUpTo(protocol, command, k, column, n - 1)))
  }

  predicate SharesUpTo(protocol: Protocol, command: Command, k: nat, column: Column, n: nat)
    requires n <= |column|
  {
    exists i | 0 <= i < n :: i != k && Shares(protocol, command, column[i])
  }

  predicate RaisedUpTo(protocol: Protocol, command: Command, k: nat, column: Column, n: nat)
    requires n <= |column|
  {
    exists i | 0 <= i < n :: i != k && RaisesShared(protocol, command, column[i])
  }

  /** c' is c after snooping a request heard as being about `tag`. */
  ghost predicate SnoopedAs(cfg: Config, cycle: nat, command: Command, tag: nat, c: CacheState, c': CacheState) {
    && c' == c.(localCache := c'.localCache, stats := c'.stats)
    && GoodSets(cfg, cycle, c'.localCache)
    && HoldsAs(cfg, c, tag, SnoopState(cfg.protocol, command, StateIn(cfg, c, tag)), c')
  }

  /** The requester keeps everything but cost, counters and the flag of its request. */
  ghost predicate RequesterAs(request: Request, shared: bool, c: CacheState, c': CacheState) {
    c' == c.(jobCycleCost := c'.jobCycleCost, stats := c'.stats, busRequest := Some(request.(sharedLine := shared)))
  }

  /** The request of cache k in b: about `block`, nothing heard yet. */
  ghost predicate AsksFor(cfg: Config, c: CacheState, request: Request, block: nat) {
    && c.busRequest == Some(request)
    && request.lineSet == SetOf(cfg, block) && request.lineTag == ToInt(block) && !request.sharedLine
  }

  ghost predicate AllGood(cfg: Config, cycle: nat, caches: seq<CacheState>) {
    forall i | 0 <= i < |caches| :: GoodSets(cfg, cycle, caches[i].localCache)
  }

  /** The situation after the first n replies. */
  ghost predicate HeardBy(cfg: Config, cycle: nat, k: nat, request: Request, tag: nat, n: nat, b: Broadcast,
                          b': Broadcast)
    requires k < |b.caches| && n <= |b.caches|
  {
    var column := ColumnOf(cfg, b.caches, tag);
    && |b'.caches| == |b.caches|
    && (forall i | 0 <= i < |b.caches| && i != k ::
          if i < n then SnoopedAs(cfg, cycle, request.command, tag, b.caches[i], b'.caches[i])
              else b'.caches[i] == b.caches[i])
    && RequesterAs(request, RaisedUpTo(cfg.protocol, request.command, k, column, n), b.caches[k], b'.caches[k])
    && b'.isShared == SharesUpTo(cfg.protocol, request.command, k, column, n)
    && b'.foundShared == FoundUpTo(cfg.protocol, request.command, k, column, n)
    && b'.endCycle == EndAfter(cfg.protocol, request.command, request.cycleCost, k, column, n, b.endCycle)
  }

  ghost predicate TakenReply(cfg: Config, state: State, request: Request, e: Effect, e': Effect) {
    && e'.snooper == e.snooper.(stats := e'.snooper.stats)
    && e'.requester == e.requester.(jobCycleCost := e'.requester.jobCycleCost, stats := e'.requester.stats)
    && e'.endCycle
       == UnsignedSum(e.endCycle, Extra(cfg.protocol, request.command, request.cycleCost, state, e.foundShared))
    && e'.foundShared
       == (e.foundShared || (cfg.protocol == MESI && SnoopReply(cfg.protocol, request.command, state) == SHARED))
    && e'.isShared == (if cfg.protocol == DRAGON then request.sharedLine
                       else e.isShared || Shares(cfg.protocol, request.command, state))
  }

  lemma TakeReplyMsi(cfg: Config, state: State, request: Request, e: Effect)
    requires cfg.protocol == MSI && InProtocol(MSI, state)
    ensures TakenReply(cfg, state, request, e, TakeReply(cfg, SnoopReply(MSI, request.command, state), request, e))
  {
  }

  lemma TakeReplyMesiRead(cfg: Config, state: State, request: Request, e: Effect)
    requires cfg.protocol == MESI && InProtocol(MESI, state) && request.command == BusRd
    ensures TakenReply(cfg, state, request, e, TakeReply(cfg, SnoopReply(MESI, request.command, state), request, e))
  {
  }

  lemma TakeReplyMesiWrite(cfg: Config, state: State, request: Request, e: Effect)
    requires cfg.protocol == MESI && InProtocol(MESI, state) && request.command == BusRdX
    ensures TakenReply(cfg, state, request, e, TakeReply(cfg, SnoopReply(MESI, request.command, state), request, e))
  {
  }

  lemma TakeReplyDragon(cfg: Config, state: State, request: Request, e: Effect)
    requires cfg.protocol == DRAGON
    ensures TakenReply(cfg, state, request, e, TakeReply(cfg, SnoopReply(DRAGON, request.command, state), request, e))
  {
    hide SnoopReply, Shares;
  }

  lemma TakeReplyMoesi(cfg: Config, state: State, request: Request, e: Effect)
    requires cfg.protocol == MOESI && InProtocol(MOESI, state)
    ensures TakenReply(cfg, state, request, e, TakeReply(cfg, SnoopReply(MOESI, request.command, state), request, e))
  {
    var reply := SnoopReply(MOESI, request.command, state);
    assert Shares(MOESI, request.command, state) <==> reply == MODIFIED || reply == EXCLUSIVE || reply == OWNED;
    hide SnoopReply, Shares;
  }

  lemma TakeReplyEffect(cfg: Config, state: State, request: Request, e: Effect)
    requires InProtocol(cfg.protocol, state)
    ensures TakenReply(cfg, state, request, e,
                       TakeReply(cfg, SnoopReply(cfg.protocol, request.command, state), request, e))
  {
    hide TakenReply, TakeReply, SnoopReply;
    match cfg.protocol
    case MSI => TakeReplyMsi(cfg, state, request, e);
    case MESI =>
      if request.command == BusRd {
        TakeReplyMesiRead(cfg, state, request, e);
      } else {
        TakeReplyMesiWrite(cfg, state, request, e);
      }
    case DRAGON => TakeReplyDragon(cfg, state, request, e);
    case MOESI => TakeReplyMoesi(cfg, state, request, e);
  }

  lemma BroadcastToOne(cfg: Config, cycle: nat, k: nat, request: Request, block: nat, n: nat, b: Broadcast,
                       b1: Broadcast)
    requires ValidConfig(cfg) && k < |b.caches| && n < |b.caches| && n != k
    requires AllGood(cfg, cycle, b.caches)
    requires AsksFor(cfg, b.caches[k], request, block)
    requires HeardBy(cfg, cycle, k, request, SnoopedTag(block), n, b, b1)
    ensures HeardBy(cfg, cycle, k, request, SnoopedTag(block), n + 1, b, BroadcastTo(cfg, cycle, k, n, b1))
  {
    var tag := SnoopedTag(block);
    var column := ColumnOf(cfg, b.caches, tag);
    var c := b.caches[n];
    var state := StateIn(cfg, c, tag);
    var request1 := request.(sharedLine := RaisedUpTo(cfg.protocol, request.command, k, column, n));
    assert b1.caches[n] == c && b1.caches[k].busRequest == Some(request1);
    SnoopEffect(cfg, cycle, c, request1, block);
    HasLineIsState(cfg, cycle, c, tag);
    var snooped := Snoop(cfg, cycle, c, request1);
    var requester := b1.caches[k].(busRequest := Some(snooped.request));
    var e := Effect(snooped.cache, requester, b1.endCycle, b1.isShared, b1.foundShared);
    TakeReplyEffect(cfg, state, snooped.request, e);
    var e' := TakeReply(cfg, snooped.reply, snooped.request, e);
    var b' := BroadcastTo(cfg, cycle, k, n, b1);
    assert b' == Broadcast(b1.caches[n := e'.snooper][k := e'.requester], e'.endCycle, e'.isShared, e'.foundShared);
    HoldsByLines(cfg, c, tag, SnoopState(cfg.protocol, request.command, state), snooped.cache, e'.snooper);
    assert column[n] == state;
    UpToNext(cfg.protocol, request.command, k, column, n);
    hide Snoop, TakeReply, GoodSets, HoldsAs, StateIn, BroadcastTo, RaisedUpTo, SharesUpTo, FoundUpTo, SnoopState,
         SnoopReply, Extra, SnoopStats, Shares, RaisesShared, ColumnOf;
    assert SnoopedAs(cfg, cycle, request.command, tag, c, e'.snooper);
    assert RequesterAs(request, RaisedUpTo(cfg.protocol, request.command, k, column, n + 1), b.caches[k], e'.requester);
    HeardOneMore(cfg, cycle, k, request, tag, n, b, b1, b', e'.snooper, e'.requester);
  }

  lemma HeardOneMore(cfg: Config, cycle: nat, k: nat, request: Request, tag: nat, n: nat, b: Broadcast, b1: Broadcast,
                     b': Broadcast, snooper: CacheState, requester: CacheState)
    requires k < |b.caches| && n < |b.caches| && n != k
    requires HeardBy(cfg, cycle, k, request, tag, n, b, b1)
    requires b'.caches == b1.caches[n := snooper][k := requester]
    requires SnoopedAs(cfg, cycle, request.command, tag, b.caches[n], snooper)
    requires var column := ColumnOf(cfg, b.caches, tag);
             && RequesterAs(request, RaisedUpTo(cfg.protocol, request.command, k, column, n + 1), b.caches[k],
                            requester)
             && b'.isShared == SharesUpTo(cfg.protocol, request.command, k, column, n + 1)
             && b'.foundShared == FoundUpTo(cfg.protocol, request.command, k, column, n + 1)
             && b'.endCycle
                == UnsignedSum(b1.endCycle,
                               Extra(cfg.protocol, request.command, request.cycleCost, column[n],
                                     FoundUpTo(cfg.protocol, request.command, k, column, n)))
    ensures HeardBy(cfg, cycle, k, request, tag, n + 1, b, b')
  {
    hide SnoopedAs, RequesterAs, RaisedUpTo, SharesUpTo, FoundUpTo, Extra, ColumnOf;
  }

  lemma UpToNext(protocol: Protocol, command: Command, k: nat, column: Column, n: nat)
    requires n < |column| && n != k
    ensures SharesUpTo(protocol, command, k, column, n + 1)
            == (SharesUpTo(protocol, command, k, column, n) || Shares(protocol, command, column[n]))
    ensures RaisedUpTo(protocol, command, k, column, n + 1)
            == (RaisedUpTo(protocol, command, k, column, n) || RaisesShared(protocol, command, column[n]))
    ensures FoundUpTo(protocol, command, k, column, n + 1)
         == (FoundUpTo(protocol, command, k, column, n)
             || (protocol == MESI && SnoopReply(protocol, command, column[n]) == SHARED))
    ensures protocol == DRAGON ==>
              SharesUpTo(protocol, command, k, column, n) == RaisedUpTo(protocol, command, k, column, n)
  {
  }

  lemma {:induction false} BroadcastHeard(cfg: Config, cycle: nat, k: nat, request: Request, block: nat, n: nat,
                                          b: Broadcast)
    requires ValidConfig(cfg) && k < |b.caches| && n <= |b.caches|
    requires AllGood(cfg, cycle, b.caches)
    requires AsksFor(cfg, b.caches[k], request, block)
    requires !b.isShared && !b.foundShared
    ensures HeardBy(cfg, cycle, k, request, SnoopedTag(block), n, b, BroadcastUpTo(cfg, cycle, k, n, b))
  {
    hide HeardBy, AllGood, AsksFor, BroadcastTo;
    if n == 0 {
      AsksSomething(cfg, b.caches[k], request, block);
      HeardNone(cfg, cycle, k, request, SnoopedTag(block), b);
    } else {
      BroadcastHeard(cfg, cycle, k, request, block, n - 1, b);
      var b1 := BroadcastUpTo(cfg, cycle, k, n - 1, b);
      if n - 1 == k {
        HeardSkips(cfg, cycle, k, request, SnoopedTag(block), b, b1);
        BroadcastSkips(cfg, cycle, k, b1);
      } else {
        BroadcastToOne(cfg, cycle, k, request, block, n - 1, b, b1);
      }
    }
  }

  lemma AsksSomething(cfg: Config, c: CacheState, request: Request, block: nat)
    requires AsksFor(cfg, c, request, block)
    ensures c.busRequest == Some(request) && !request.sharedLine
  {
    hide SetOf, ToInt;
  }

  lemma BroadcastSkips(cfg: Config, cycle: nat, k: nat, b: Broadcast)
    requires k < |b.caches|
    ensures BroadcastTo(cfg, cycle, k, k, b) == b
  {
    hide Snoop, TakeReply;
  }

  lemma HeardNone(cfg: Config, cycle: nat, k: nat, request: Request, tag: nat, b: Broadcast)
    requires k < |b.caches| && b.caches[k].busRequest == Some(request) && !request.sharedLine
    requires !b.isShared && !b.foundShared
    ensures HeardBy(cfg, cycle, k, request, tag, 0, b, b)
  {
    hide SnoopedAs, StateIn;
  }

  lemma HeardSkips(cfg: Config, cycle: nat, k: nat, request: Request, tag: nat, b: Broadcast, b1: Broadcast)
    requires k < |b.caches| && HeardBy(cfg, cycle, k, request, tag, k, b, b1)
    ensures HeardBy(cfg, cycle, k, request, tag, k + 1, b, b1)
  {
    hide SnoopedAs, StateIn;
  }
}
