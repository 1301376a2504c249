/** Staleness. The simulator keeps no data; here the writes to a block are numbered, and every copy, and
    main memory, remembers how many of the writes it reflects. What moves contents is what the program
    counts as moving them: flushes and replies. */
module Freshness {
  import opened Wrappers
  import opened Constants
  import opened Requests
  import opened Sets
  import opened CacheModel
  import opened Coherence

  /** `latest`: how often the block has been written. The others: up to which write main memory, the
      contents on their way to the requester, and cache i's line reflect all writes; -1 when something of
      another block has got into them. */
  datatype Versions = Versions(latest: nat, memory: int, incoming: int, held: seq<int>)

  // ---------------------------------------------------------------------------------------------
  // Where contents go.

  /** A snooped copy that is flushed to memory. */
  predicate Flushes(protocol: Protocol, command: Command, state: State) {
    match protocol
    case MSI => state == Modified
    case MESI => state == Modified
    case DRAGON => command == BusRd && (state == Modified || state == SharedDirty)
    case MOESI => false
  }

  /** Exactly these are counted as flushes. */
  lemma FlushesAreCounted(protocol: Protocol, command: Command, state: State, stats: Stats)
    ensures SnoopStats(protocol, command, state, stats).numFlush
            == stats.numFlush + if Flushes(protocol, command, state) then 1 else 0
  {
    assert command == BusRd || command == BusRdX;
  }

  /** A snooped copy that is handed to the requester; in MSI everything goes through memory. */
  predicate Supplied(protocol: Protocol, command: Command, state: State) {
    match protocol
    case MSI => false
    case MESI => state == Modified || state == Shared || state == Exclusive
    case DRAGON => command == BusRd && (state == Modified || state == SharedDirty)
    case MOESI => state == Modified || state == Exclusive || state == Owned
  }

  /** A copy that takes over what a Dragon update broadcasts. */
  predicate TakesUpdate(state: State) {
    state == SharedClean || state == SharedDirty
  }

  function HeldAt(v: Versions, i: nat): int {
    if i < |v.held| then v.held[i] else -1
  }

  /** Main memory after the first n caches have snooped a request of cache k. */
  function MemoryAfter(protocol: Protocol, command: Command, k: nat, column: Column, v: Versions, n: nat): int
    requires n <= |column|
  {
    if n == 0 then v.memory
    else if n - 1 != k && Flushes(protocol, command, column[n - 1]) then HeldAt(v, n - 1)
    else MemoryAfter(protocol, command, k, column, v, n - 1)
  }

  /** What the requester, cache k, gets from the first n caches; from memory, if they have nothing. */
  function Received(protocol: Protocol, command: Command, k: nat, column: Column, v: Versions, memory: int, n: nat): int
    requires n <= |column|
  {
    if n == 0 then memory
    else if n - 1 != k && Supplied(protocol, command, column[n - 1]) then HeldAt(v, n - 1)
    else Received(protocol, command, k, column, v, memory, n - 1)
  }

  /** What a write makes of contents: they are the latest only if they were. */
  function Overwritten(v: Versions, base: int): int {
    if base == v.latest then v.latest + 1 else base
  }

  function WithHeld(v: Versions, k: nat, held: int): Versions {
    if k < |v.held| then v.(held := v.held[k := held]) else v
  }

  /** Cache k writes over `base`, telling nobody. */
  function Write(v: Versions, k: nat, base: int): Versions {
    WithHeld(v, k, Overwritten(v, base)).(latest := v.latest + 1)
  }

  /** Cache k writes over `base` and broadcasts the update. */
  function Update(v: Versions, k: nat, base: int, column: Column): Versions {
    v.(latest := v.latest + 1,
       held := seq(|v.held|, i requires 0 <= i < |v.held| =>
                 if i == k then Overwritten(v, base)
                 else if TakesUpdate(StateAt(column, i)) then Overwritten(v, v.held[i]) else v.held[i]))
  }

  /** A request of cache k about another block is taken for one about this block. */
  function Mistaken(protocol: Protocol, command: Command, k: nat, column: Column, v: Versions): Versions {
    v.(memory := MemoryAfter(protocol, command, k, column, v, |column|),
       held := seq(|v.held|, i requires 0 <= i < |v.held| =>
                 if protocol == DRAGON && command == BusRdX && i != k && TakesUpdate(StateAt(column, i)) then -1
                     else v.held[i]))
  }

  /** A request of cache k is answered; a cache with a copy of its own works on that. */
  function Answered(protocol: Protocol, command: Command, k: nat, column: Column, v: Versions): Versions {
    var memory := MemoryAfter(protocol, command, k, column, v, |column|);
    v.(memory := memory,
       incoming := if StateAt(column, k) != Invalid then HeldAt(v, k)
                   else Received(protocol, command, k, column, v, memory, |column|))
  }

  /** What an event does to the contents. In the invalidation protocols a write happens when its
      transaction completes, in Dragon when the update goes out. An evicted line is dropped: the program
      writes nothing back. */
  function VersionsNext(protocol: Protocol, b: BlockState, event: Event, v: Versions): Versions {
    match event
    case Foreign(k, evicted, mistaken) =>
      if mistaken.None? then v
      else Mistaken(protocol, mistaken.value, k, if evicted then SetAt(b.column, k, Invalid) else b.column, v)
    case SilentWrite(k) => Write(v, k, HeldAt(v, k))
    case Issue(k, write, _) =>
      var command := CommandFor(protocol, write, StateAt(b.column, k));
      if protocol == DRAGON && command == BusRdX then Update(v, k, HeldAt(v, k), b.column)
      else Answered(protocol, command, k, b.column, v)
    case Complete =>
      if b.pending.None? then v
      else
        var p := b.pending.value;
        if !p.write then WithHeld(v, p.k, v.incoming)
        else if protocol != DRAGON then Write(v, p.k, v.incoming)
        else if p.command == BusRdX then v
        else if p.shared then Update(v, p.k, v.incoming, b.column)
        else Write(v, p.k, v.incoming)
  }

  // ---------------------------------------------------------------------------------------------
  // When contents are lost.

  /** A copy newer than memory may be, which nobody else has to write back. */
  predicate Dirty(state: State) {
    state == Modified || state == Owned || state == SharedDirty
  }

  ghost predicate HasDirty(column: Column) {
    exists i | 0 <= i < |column| :: Dirty(column[i])
  }

  /** Every valid copy reflects the last write. */
  ghost predicate Fresh(column: Column, v: Versions) {
    && |v.held| == |column|
    && forall i | 0 <= i < |column| && column[i] != Invalid :: v.held[i] == v.latest
  }

  /** Every valid copy reflects the last write, and so will what the next reader gets: memory reflects it,
      or a cache is responsible for the block, or is about to be. */
  ghost predicate Intact(protocol: Protocol, b: BlockState, v: Versions) {
    && Fresh(b.column, v)
    && v.memory <= v.latest
    && (v.memory == v.latest || HasDirty(b.column) || (b.pending.Some? && b.pending.value.command == BusRdX))
    && (b.pending.Some? && (protocol != DRAGON || b.pending.value.command == BusRd) ==> v.incoming == v.latest)
  }

  /** Main memory does not reflect the last write. */
  predicate Behind(v: Versions) {
    v.memory != v.latest
  }

  /** Another block pushes this one out of the only cache responsible for it, while memory is behind. */
  ghost predicate LosesByEviction(b: BlockState, event: Event, behind: bool)
    requires event.Foreign?
  {
    event.evicted && Dirty(StateAt(b.column, event.k)) && behind
  }

  /** A request about another block is mistaken for one about this block: in MOESI the dirty copy is handed
      to nobody and invalidated; in Dragon the copies take over an update of the other block. */
  ghost predicate LosesByMistake(protocol: Protocol, column: Column, k: nat, command: Command, behind: bool) {
    && command == BusRdX
    && exists j | 0 <= j < |column| && j != k ::
         (protocol == MOESI && Dirty(column[j]) && behind) || (protocol == DRAGON && TakesUpdate(column[j]))
  }

  /** The events that lose a write, given whether memory is behind, and the only ones: besides those two, a
      silent write past other copies, and the completion of a MESI write miss that nobody answers, whose line
      stays invalid. */
  ghost predicate Loses(protocol: Protocol, b: BlockState, event: Event, behind: bool) {
    match event
    case Foreign(k, evicted, mistaken) =>
      LosesByEviction(b, event, behind)
      || (mistaken.Some?
          && LosesByMistake(protocol, if evicted then SetAt(b.column, k, Invalid) else b.column, k, mistaken.value,
                            behind))
    case SilentWrite(k) => !Alone(b.column, k)
    case Issue(_, _, _) => false
    case Complete =>
      protocol == MESI && b.pending.Some? && b.pending.value.write && !b.pending.value.shared
      && StateAt(b.column, b.pending.value.k) == Invalid
  }

  lemma DirtyIsUnique(protocol: Protocol, column: Column)
    requires Coherent(protocol, BlockState(column, None))
    ensures forall i, j | 0 <= i < |column| && 0 <= j < |column| && Dirty(column[i]) && Dirty(column[j]) :: i == j
  {
    assert forall state :: Dirty(state) ==> Supplies(state);
  }

  // ---------------------------------------------------------------------------------------------
  // Whether memory is behind, from the history of writes and flushes.

  /** The event writes the block. */
  predicate WritesBlock(protocol: Protocol, b: BlockState, event: Event) {
    match event
    case Foreign(_, _, _) => false
    case SilentWrite(_) => true
    case Issue(k, write, _) => protocol == DRAGON && CommandFor(protocol, write, StateAt(b.column, k)) == BusRdX
    case Complete =>
      b.pending.Some? && b.pending.value.write && !(protocol == DRAGON && b.pending.value.command == BusRdX)
  }

  /** Some cache but k flushes on that command. */
  ghost predicate SomeFlush(protocol: Protocol, command: Command, k: nat, column: Column) {
    exists i | 0 <= i < |column| :: i != k && Flushes(protocol, command, column[i])
  }

  ghost predicate FlushesBlock(protocol: Protocol, b: BlockState, event: Event) {
    match event
    case Foreign(k, evicted, mistaken) =>
      mistaken.Some? && SomeFlush(protocol, mistaken.value, k,
                                  if evicted then SetAt(b.column, k, Invalid) else b.column)
    case SilentWrite(_) => false
    case Issue(k, write, _) => SomeFlush(protocol, CommandFor(protocol, write, StateAt(b.column, k)), k, b.column)
    case Complete => false
  }

  /** Memory falls behind with every write and catches up with every flush. */
  ghost predicate BehindNext(protocol: Protocol, b: BlockState, event: Event, behind: bool) {
    WritesBlock(protocol, b, event) || (behind && !FlushesBlock(protocol, b, event))
  }

  /** As long as no write has been lost, that is all there is to it. */
  lemma HistoryIsRight(protocol: Protocol, b: BlockState, event: Event, v: Versions)
    requires Enabled(protocol, true, b, event) && Intact(protocol, b, v)
    ensures Behind(VersionsNext(protocol, b, event, v)) == BehindNext(protocol, b, event, Behind(v))
  {
    hide MemoryAfter, Received, HasDirty;
    match event
    case Foreign(k, evicted, mistaken) =>
      if mistaken.Some? {
        var column := if evicted then SetAt(b.column, k, Invalid) else b.column;
        assert Fresh(column, v);
        MemoryIs(protocol, mistaken.value, k, column, v, |column|);
      }
    case SilentWrite(k) =>
    case Issue(k, write, shared) =>
      var command := CommandFor(protocol, write, StateAt(b.column, k));
      MemoryIs(protocol, command, k, b.column, v, |b.column|);
    case Complete =>
  }

  lemma {:induction false} MemoryIs(protocol: Protocol, command: Command, k: nat, column: Column, v: Versions, n: nat)
    requires n <= |column| && Fresh(column, v)
    ensures MemoryAfter(protocol, command, k, column, v, n)
            == if exists i | 0 <= i < n :: i != k && Flushes(protocol, command, column[i]) then v.latest else v.memory
  {
    if n > 0 {
      MemoryIs(protocol, command, k, column, v, n - 1);
    }
  }

  lemma {:induction false} ReceivedIs(protocol: Protocol, command: Command, k: nat, column: Column, v: Versions,
                                      memory: int, n: nat)
    requires n <= |column| && Fresh(column, v)
    ensures Received(protocol, command, k, column, v, memory, n)
            == if exists i | 0 <= i < n :: i != k && Supplied(protocol, command, column[i]) then v.latest else memory
  {
    if n > 0 {
      ReceivedIs(protocol, command, k, column, v, memory, n - 1);
    }
  }

  lemma EvictionIntact(protocol: Protocol, column: Column, k: nat, v: Versions)
    requires Coherent(protocol, BlockState(column, None)) && k < |column|
    requires Intact(protocol, BlockState(column, None), v)
    ensures Intact(protocol, BlockState(SetAt(column, k, Invalid), None), v) <==>
            !(Dirty(column[k]) && v.memory != v.latest)
    ensures Fresh(SetAt(column, k, Invalid), v)
  {
    DirtyIsUnique(protocol, column);
    var after := SetAt(column, k, Invalid);
    assert forall i | 0 <= i < |column| && i != k :: after[i] == column[i];
    hide Coherent;
    if HasDirty(column) && !Dirty(column[k]) {
      var i :| 0 <= i < |column| && Dirty(column[i]);
      assert Dirty(after[i]);
    }
  }

  /** How a snoop changes a copy, as far as contents are concerned. */
  lemma SnoopedContents(protocol: Protocol, command: Command, state: State)
    requires InProtocol(protocol, state)
    ensures var state' := SnoopState(protocol, command, state);
            && (state' != Invalid ==> state != Invalid)
            && (Dirty(state') ==> Dirty(state))
            && (Dirty(state) && !Dirty(state') ==>
                  Flushes(protocol, command, state)
                  || (protocol == MOESI && command == BusRdX)
                     || (protocol == DRAGON && command == BusRdX && TakesUpdate(state)))
            && (Flushes(protocol, command, state) ==> Dirty(state))
            && (TakesUpdate(state) ==> state' != Invalid)
            && (protocol == MOESI && command == BusRdX ==> state' == Invalid)
  {
  }

  lemma MistakeIntact(protocol: Protocol, command: Command, k: nat, column: Column, v: Versions)
    requires Coherent(protocol, BlockState(column, None)) && Fresh(column, v) && v.memory <= v.latest
    ensures Intact(protocol, BlockState(SnoopAll(protocol, command, k, column), None),
                   Mistaken(protocol, command, k, column, v))
            <==> (Intact(protocol, BlockState(column, None), v)
                  && !LosesByMistake(protocol, column, k, command, Behind(v)))
  {
    var after := SnoopAll(protocol, command, k, column);
    var v' := Mistaken(protocol, command, k, column, v);
    DirtyIsUnique(protocol, column);
    MemoryIs(protocol, command, k, column, v, |column|);
    assert forall i | 0 <= i < |column| :: InProtocol(protocol, column[i]);
    hide Coherent, MemoryAfter, SnoopState, InProtocol;
    forall i | 0 <= i < |column| && i != k
      ensures after[i] == SnoopState(protocol, command, column[i])
      ensures after[i] != Invalid ==> column[i] != Invalid
      ensures Dirty(after[i]) ==> Dirty(column[i])
      ensures Dirty(column[i]) && !Dirty(after[i]) ==>
                Flushes(protocol, command, column[i]) || LosesHere(protocol, command, column[i])
      ensures Flushes(protocol, command, column[i]) ==> Dirty(column[i])
      ensures TakesUpdate(column[i]) ==> after[i] != Invalid
      ensures protocol == MOESI && command == BusRdX ==> after[i] == Invalid
    {
      SnoopedContents(protocol, command, column[i]);
    }
    if protocol == DRAGON && command == BusRdX {
      UpdateMistaken(k, column, after, v, v');
    } else {
      hide TakesUpdate;
      RequestMistaken(protocol, command, k, column, after, v, v');
    }
  }

  predicate LosesHere(protocol: Protocol, command: Command, state: State) {
    command == BusRdX && (protocol == MOESI || (protocol == DRAGON && TakesUpdate(state)))
  }

  lemma UpdateMistaken(k: nat, column: Column, after: Column, v: Versions, v': Versions)
    requires Fresh(column, v) && v.memory <= v.latest && |after| == |column| == |v'.held|
    requires (k < |column| ==> after[k] == column[k])
    requires forall i | 0 <= i < |column| && i != k ::
               (after[i] != Invalid ==> column[i] != Invalid) && (Dirty(after[i]) ==> Dirty(column[i]))
               && (Dirty(column[i]) && !Dirty(after[i]) ==> TakesUpdate(column[i]))
                  && (TakesUpdate(column[i]) ==> after[i] != Invalid)
    requires v'.latest == v.latest && v'.memory == v.memory
    requires forall i | 0 <= i < |column| :: v'.held[i] == if i != k && TakesUpdate(column[i]) then -1 else v.held[i]
    ensures Intact(DRAGON, BlockState(after, None), v')
            <==> Intact(DRAGON, BlockState(column, None), v) && !LosesByMistake(DRAGON, column, k, BusRdX, Behind(v))
  {
    hide TakesUpdate, Dirty;
    if LosesByMistake(DRAGON, column, k, BusRdX, Behind(v)) {
      var j :| 0 <= j < |column| && j != k && TakesUpdate(column[j]);
      assert after[j] != Invalid && v'.held[j] == -1;
    } else if HasDirty(column) {
      var j :| 0 <= j < |column| && Dirty(column[j]);
      assert Dirty(after[j]);
    }
  }

  lemma RequestMistaken(protocol: Protocol, command: Command, k: nat, column: Column, after: Column, v: Versions,
                        v': Versions)
    requires !(protocol == DRAGON && command == BusRdX)
    requires Fresh(column, v) && v.memory <= v.latest && |after| == |column| && (k < |column| ==> after[k] == column[k])
    requires forall i, j | 0 <= i < |column| && 0 <= j < |column| && Dirty(column[i]) && Dirty(column[j]) :: i == j
    requires forall i | 0 <= i < |column| && i != k ::
               (after[i] != Invalid ==> column[i] != Invalid) && (Dirty(after[i]) ==> Dirty(column[i]))
               && (Dirty(column[i]) && !Dirty(after[i]) ==>
                     Flushes(protocol, command, column[i]) || LosesHere(protocol, command, column[i]))
               && (Flushes(protocol, command, column[i]) ==> Dirty(column[i]))
               && (protocol == MOESI && command == BusRdX ==> after[i] == Invalid)
    requires v'.latest == v.latest && v'.held == v.held
    requires v'.memory
             == if exists i | 0 <= i < |column| :: i != k && Flushes(protocol, command, column[i])
                then v.latest else v.memory
    ensures Intact(protocol, BlockState(after, None), v')
            <==> (Intact(protocol, BlockState(column, None), v)
                  && !LosesByMistake(protocol, column, k, command, Behind(v)))
  {
    assert !Dirty(Invalid);
    hide Dirty;
    assert protocol == MOESI ==> forall state :: !Flushes(protocol, command, state);
    hide Flushes;
    assert Fresh(after, v');
    if j :| 0 <= j < |column| && Dirty(column[j]) {
      assert HasDirty(column);
      if j == k || !LosesHere(protocol, command, column[j]) {
        assert v'.memory == v.latest || Dirty(after[j]);
      } else {
        assert !HasDirty(after);
      }
    } else {
      assert !HasDirty(column) && !HasDirty(after);
    }
  }

  lemma ForeignIntact(protocol: Protocol, b: BlockState, event: Event, v: Versions)
    requires Coherent(protocol, b) && Enabled(protocol, true, b, event) && event.Foreign? && Intact(protocol, b, v)
    ensures Intact(protocol, BlockNext(protocol, true, b, event), VersionsNext(protocol, b, event, v)) <==>
            !Loses(protocol, b, event, Behind(v))
  {
    var k := event.k;
    var column := if event.evicted then SetAt(b.column, k, Invalid) else b.column;
    hide Coherent, Intact, SnoopAll, SetAt, Mistaken, LosesByMistake;
    if event.evicted || event.mistaken.Some? {
      assert b == BlockState(b.column, None);
      IntactIsFresh(protocol, b, v);
      if event.evicted {
        EvictionIntact(protocol, b.column, k, v);
        EvictionKeepsCoherence(protocol, k, b.column);
      }
      if event.mistaken.Some? {
        MistakeIntact(protocol, event.mistaken.value, k, column, v);
      }
    }
  }

  lemma IntactIsFresh(protocol: Protocol, b: BlockState, v: Versions)
    requires Intact(protocol, b, v)
    ensures Fresh(b.column, v) && v.memory <= v.latest
  {
  }

  lemma SilentWriteIntact(protocol: Protocol, b: BlockState, event: Event, v: Versions)
    requires Coherent(protocol, b) && Enabled(protocol, true, b, event) && event.SilentWrite? && Intact(protocol, b, v)
    ensures Intact(protocol, BlockNext(protocol, true, b, event), VersionsNext(protocol, b, event, v)) <==>
            !Loses(protocol, b, event, Behind(v))
  {
    hide Coherent;
    var b' := BlockNext(protocol, true, b, event);
    var v' := VersionsNext(protocol, b, event, v);
    assert b'.column[event.k] == Modified && v'.held[event.k] == v'.latest;
    if j :| 0 <= j < |b.column| && j != event.k && b.column[j] != Invalid {
      assert b'.column[j] == b.column[j] && v'.held[j] == v.latest;
    }
  }

  /** A Dragon update reaches every copy. */
  lemma UpdateIntact(column: Column, k: nat, base: int, v: Versions, after: Column, pending: Option<Pending>)
    requires k < |column| && |v.held| == |column| == |after| && v.memory <= v.latest && base == v.latest
    requires forall i | 0 <= i < |column| && i != k && after[i] != Invalid ::
               TakesUpdate(column[i]) && v.held[i] == v.latest
    requires Dirty(after[k]) && (pending.Some? ==> pending.value.command == BusRdX)
    ensures Intact(DRAGON, BlockState(after, pending), Update(v, k, base, column))
  {
    var v' := Update(v, k, base, column);
    forall i | 0 <= i < |after| && after[i] != Invalid
      ensures v'.held[i] == v'.latest
    {
      if i != k {
        assert TakesUpdate(column[i]) && v.held[i] == v.latest;
        assert StateAt(column, i) == column[i];
        assert v'.held[i] == Overwritten(v, v.held[i]);
      } else {
        assert v'.held[i] == Overwritten(v, base);
      }
    }
  }

  lemma IssueIntact(protocol: Protocol, b: BlockState, event: Event, v: Versions)
    requires Coherent(protocol, b) && Enabled(protocol, true, b, event) && event.Issue? && Intact(protocol, b, v)
    ensures Intact(protocol, BlockNext(protocol, true, b, event), VersionsNext(protocol, b, event, v))
  {
    var k := event.k;
    var own := b.column[k];
    var command := CommandFor(protocol, event.write, own);
    var raised := SetAt(b.column, k, OwnAtIssue(protocol, event.write, own));
    var after := SnoopAll(protocol, command, k, raised);
    forall i | 0 <= i < |b.column|
      ensures InProtocol(protocol, b.column[i])
      ensures i != k ==> after[i] == SnoopState(protocol, command, b.column[i])
    {
    }
    assert |after| == |b.column| && after[k] == OwnAtIssue(protocol, event.write, own);
    assert b == BlockState(b.column, None);
    DirtyIsUnique(protocol, b.column);
    forall i | 0 <= i < |b.column| && i != k
      ensures after[i] != Invalid ==> b.column[i] != Invalid
      ensures Dirty(b.column[i]) && !Dirty(after[i]) && command == BusRd ==> Flushes(protocol, command, b.column[i])
      ensures Dirty(b.column[i]) ==> Supplied(protocol, command, b.column[i]) || Flushes(protocol, command, b.column[i])
                                     || (protocol == DRAGON && command == BusRdX)
    {
      SnoopedContents(protocol, command, b.column[i]);
    }
    if protocol == DRAGON && command == BusRdX {
      UpdateMeetsSharers(b, event);
      hide Coherent, SnoopAll, SnoopState;
      UpdateIntact(b.column, k, HeldAt(v, k), v, after, BlockNext(protocol, true, b, event).pending);
    } else {
      hide Coherent, SnoopAll, SnoopState;
      AnsweredIntact(protocol, b.column, k, command, Pending(k, command, event.write, event.shared), after, v);
    }
  }

  lemma UpdateMeetsSharers(b: BlockState, event: Event)
    requires Coherent(DRAGON, b) && Enabled(DRAGON, true, b, event) && event.Issue? && b.column[event.k] != Invalid
    ensures forall i | 0 <= i < |b.column| && i != event.k && b.column[i] != Invalid :: TakesUpdate(b.column[i])
  {
  }

  lemma AnsweredIntact(protocol: Protocol, column: Column, k: nat, command: Command, p: Pending, after: Column,
                       v: Versions)
    requires k < |column| == |after| && Intact(protocol, BlockState(column, None), v) && p.command == command
    requires !(protocol == DRAGON && command == BusRdX)
    requires (after[k] == Invalid <==> column[k] == Invalid) && (command == BusRd ==> column[k] == Invalid)
    requires forall i | 0 <= i < |column| && i != k ::
               && (after[i] != Invalid ==> column[i] != Invalid)
               && (Dirty(column[i]) && !Dirty(after[i]) && command == BusRd ==> Flushes(protocol, command, column[i]))
               && (Dirty(column[i]) ==> Supplied(protocol, command, column[i]) || Flushes(protocol, command, column[i]))
    ensures Intact(protocol, BlockState(after, Some(p)), Answered(protocol, command, k, column, v))
  {
    MemoryIs(protocol, command, k, column, v, |column|);
    var memory := MemoryAfter(protocol, command, k, column, v, |column|);
    ReceivedIs(protocol, command, k, column, v, memory, |column|);
    assert Dirty(column[k]) ==> column[k] != Invalid;
    hide MemoryAfter, Received, Dirty, Flushes, Supplied;
    if memory != v.latest {
      var i :| 0 <= i < |column| && Dirty(column[i]);
      if i != k {
        assert !Flushes(protocol, command, column[i]);
        assert Supplied(protocol, command, column[i]);
        assert command == BusRd ==> Dirty(after[i]);
      }
    }
  }

  lemma CompletionIntact(protocol: Protocol, b: BlockState, v: Versions)
    requires Coherent(protocol, b) && b.pending.Some? && Intact(protocol, b, v)
    ensures Intact(protocol, BlockNext(protocol, true, b, Complete), VersionsNext(protocol, b, Complete, v))
            <==> !Loses(protocol, b, Complete, Behind(v))
  {
    var p := b.pending.value;
    if !p.write {
      ReadIntact(protocol, b, v);
    } else if protocol == DRAGON {
      DragonWriteIntact(b, v);
    } else {
      WriteIntact(protocol, b, v);
    }
  }

  lemma ReadIntact(protocol: Protocol, b: BlockState, v: Versions)
    requires Coherent(protocol, b) && b.pending.Some? && !b.pending.value.write && Intact(protocol, b, v)
    ensures Intact(protocol, BlockNext(protocol, true, b, Complete), VersionsNext(protocol, b, Complete, v))
  {
    var p := b.pending.value;
    assert p.command == BusRd && p.k < |b.column| && b.column[p.k] == Invalid;
    var after := BlockNext(protocol, true, b, Complete).column;
    assert forall i | 0 <= i < |b.column| && i != p.k :: after[i] == b.column[i];
    hide Coherent;
    if j :| 0 <= j < |b.column| && Dirty(b.column[j]) {
      assert Dirty(after[j]);
    }
  }

  lemma WriteIntact(protocol: Protocol, b: BlockState, v: Versions)
    requires protocol != DRAGON && Coherent(protocol, b) && b.pending.Some? && b.pending.value.write
    requires Intact(protocol, b, v)
    ensures Intact(protocol, BlockNext(protocol, true, b, Complete), VersionsNext(protocol, b, Complete, v))
            <==> !Loses(protocol, b, Complete, Behind(v))
  {
    var p := b.pending.value;
    assert p.command == BusRdX && p.k < |b.column| && Alone(b.column, p.k);
    assert b.column[p.k] == Invalid || b.column[p.k] == Modified;
    var b' := BlockNext(protocol, true, b, Complete);
    var v' := VersionsNext(protocol, b, Complete, v);
    assert forall i | 0 <= i < |b.column| && i != p.k :: b'.column[i] == Invalid;
    assert v'.held[p.k] == v'.latest && v'.memory < v'.latest;
    hide Coherent;
    if !Loses(protocol, b, Complete, Behind(v)) {
      assert b'.column[p.k] == Modified;
    }
  }

  lemma DragonWriteIntact(b: BlockState, v: Versions)
    requires Coherent(DRAGON, b) && b.pending.Some? && b.pending.value.write && Intact(DRAGON, b, v)
    ensures Intact(DRAGON, BlockNext(DRAGON, true, b, Complete), VersionsNext(DRAGON, b, Complete, v))
  {
    var p := b.pending.value;
    var b' := BlockNext(DRAGON, true, b, Complete);
    if p.command == BusRdX {
      assert b'.column == b.column;
      assert Dirty(b.column[p.k]);
    } else if p.shared {
      assert forall i | 0 <= i < |b.column| && i != p.k :: b'.column[i] == SnoopState(DRAGON, BusRdX, b.column[i]);
      assert b'.column[p.k] == SharedDirty;
      UpdateIntact(b.column, p.k, v.incoming, v, b'.column, b'.pending);
    } else {
      assert Alone(b.column, p.k) && b'.column[p.k] == Modified;
      assert forall i | 0 <= i < |b.column| && i != p.k :: b'.column[i] == Invalid;
    }
  }

  /** A write is lost exactly by the events that lose one. As long as none has been, an event leaves every
      valid copy, and what the next reader gets, up to date if and only if it is not such an event. */
  lemma IntactKept(protocol: Protocol, b: BlockState, event: Event, v: Versions)
    requires Coherent(protocol, b) && Enabled(protocol, true, b, event) && Intact(protocol, b, v)
    ensures Intact(protocol, BlockNext(protocol, true, b, event), VersionsNext(protocol, b, event, v))
            <==> !Loses(protocol, b, event, Behind(v))
  {
    hide Coherent, Intact, BlockNext, VersionsNext, Alone, AnyShares;
    match event
    case Foreign(k, evicted, mistaken) => ForeignIntact(protocol, b, event, v);
    case SilentWrite(k) => SilentWriteIntact(protocol, b, event, v);
    case Issue(k, write, shared) => IssueIntact(protocol, b, event, v);
    case Complete => CompletionIntact(protocol, b, v);
  }

  // ---------------------------------------------------------------------------------------------
  // Which copies are newer than memory.

  /** A modified or owned copy is newer than memory. (A sharedDirty one need not be: it may have been
      flushed.) The requester's own copy is modified before it has written. */
  ghost predicate Unsaved(b: BlockState, v: Versions) {
    && v.memory <= v.latest && v.incoming <= v.latest && (forall i | 0 <= i < |v.held| :: v.held[i] <= v.latest)
    && forall i | 0 <= i < |b.column| && (b.column[i] == Modified || b.column[i] == Owned) ::
         (b.pending.Some? && i == b.pending.value.k) || v.memory < v.latest
  }

  lemma {:induction false} MemoryIsOld(protocol: Protocol, command: Command, k: nat, column: Column, v: Versions,
                                       n: nat)
    requires n <= |column| && v.memory <= v.latest && forall i | 0 <= i < |v.held| :: v.held[i] <= v.latest
    ensures MemoryAfter(protocol, command, k, column, v, n) <= v.latest
    ensures (forall i | 0 <= i < n :: i == k || !Flushes(protocol, command, column[i])) ==>
              MemoryAfter(protocol, command, k, column, v, n) == v.memory
  {
    if n > 0 {
      MemoryIsOld(protocol, command, k, column, v, n - 1);
    }
  }

  lemma {:induction false} ReceivedIsOld(protocol: Protocol, command: Command, k: nat, column: Column, v: Versions,
                                         memory: int, n: nat)
    requires n <= |column| && memory <= v.latest && forall i | 0 <= i < |v.held| :: v.held[i] <= v.latest
    ensures Received(protocol, command, k, column, v, memory, n) <= v.latest
  {
    if n > 0 {
      ReceivedIsOld(protocol, command, k, column, v, memory, n - 1);
    }
  }

  /** After a snoop, a modified or owned copy was one before; if another one was flushed, it is none. */
  lemma SnoopedOwners(protocol: Protocol, command: Command, state: State)
    requires InProtocol(protocol, state)
    ensures var state' := SnoopState(protocol, command, state);
            && (state' == Modified || state' == Owned ==> state == Modified || state == Owned)
            && (Flushes(protocol, command, state) ==> state' != Modified && state' != Owned && Supplies(state))
            && (state == Modified || state == Owned ==> Supplies(state))
  {
  }

  lemma SnoopUnsaved(protocol: Protocol, command: Command, k: nat, column: Column, column': Column, v: Versions,
                     v': Versions)
    requires Coherent(protocol, BlockState(column, None)) && k < |column| && |column'| == |column|
    requires Unsaved(BlockState(column, None), v)
    requires forall i | 0 <= i < |column| && i != k :: column'[i] == SnoopState(protocol, command, column[i])
    requires v'.latest >= v.latest && v'.memory == MemoryAfter(protocol, command, k, column, v, |column|)
    requires column'[k] == column[k]
    ensures v'.memory <= v.latest
    ensures forall i | 0 <= i < |column| && (column'[i] == Modified || column'[i] == Owned) :: v'.memory < v'.latest
  {
    MemoryIsOld(protocol, command, k, column, v, |column|);
    forall i | 0 <= i < |column|
      ensures InProtocol(protocol, column[i])
    {
    }
    forall i | 0 <= i < |column| && (column'[i] == Modified || column'[i] == Owned)
      ensures v'.memory < v'.latest
    {
      SnoopedOwners(protocol, command, column[i]);
      if j :| 0 <= j < |column| && j != k && Flushes(protocol, command, column[j]) {
        SnoopedOwners(protocol, command, column[j]);
      }
    }
  }

  lemma ForeignUnsaved(protocol: Protocol, b: BlockState, event: Event, v: Versions)
    requires Coherent(protocol, b) && Enabled(protocol, true, b, event) && event.Foreign?
    requires |v.held| == |b.column| && Unsaved(b, v)
    ensures Unsaved(BlockNext(protocol, true, b, event), VersionsNext(protocol, b, event, v))
  {
    var k := event.k;
    if event.evicted || event.mistaken.Some? {
      assert b == BlockState(b.column, None);
      var column := if event.evicted then SetAt(b.column, k, Invalid) else b.column;
      if event.evicted {
        EvictionKeepsCoherence(protocol, k, b.column);
      }
      assert Unsaved(BlockState(column, None), v) by { hide Coherent; }
      if event.mistaken.Some? {
        hide Coherent, MemoryAfter;
        SnoopUnsaved(protocol, event.mistaken.value, k, column, SnoopAll(protocol, event.mistaken.value, k, column), v,
                     Mistaken(protocol, event.mistaken.value, k, column, v));
      }
    }
  }

  lemma IssueUnsaved(protocol: Protocol, b: BlockState, event: Event, v: Versions)
    requires Coherent(protocol, b) && Enabled(protocol, true, b, event) && event.Issue?
    requires |v.held| == |b.column| && Unsaved(b, v)
    ensures Unsaved(BlockNext(protocol, true, b, event), VersionsNext(protocol, b, event, v))
  {
    var k := event.k;
    var command := CommandFor(protocol, event.write, b.column[k]);
    assert b == BlockState(b.column, None);
    if !(protocol == DRAGON && command == BusRdX) {
      var v' := Answered(protocol, command, k, b.column, v);
      var snooped := SnoopAll(protocol, command, k, b.column);
      hide Coherent, MemoryAfter, Received, SnoopState, AnyShares;
      SnoopUnsaved(protocol, command, k, b.column, snooped, v, v');
      ReceivedIsOld(protocol, command, k, b.column, v, v'.memory, |b.column|);
      var after := BlockNext(protocol, true, b, event).column;
      assert forall i | 0 <= i < |after| && i != k :: after[i] == snooped[i];
    }
  }

  lemma CompletionUnsaved(protocol: Protocol, b: BlockState, v: Versions)
    requires Coherent(protocol, b) && b.pending.Some? && |v.held| == |b.column| && Unsaved(b, v)
    ensures Unsaved(BlockNext(protocol, true, b, Complete), VersionsNext(protocol, b, Complete, v))
  {
    var p := b.pending.value;
    if !p.write {
      assert p.command == BusRd && p.k < |b.column|;
      var after := BlockNext(protocol, true, b, Complete).column;
      assert after[p.k] != Modified && after[p.k] != Owned;
      assert forall i | 0 <= i < |after| && i != p.k :: after[i] == b.column[i];
    } else if protocol == DRAGON && p.command == BusRdX {
      assert b.column[p.k] == SharedDirty;
    } else {
      hide Coherent;
    }
  }

  /** So it is in every run, even after writes have been lost. */
  lemma UnsavedKept(protocol: Protocol, b: BlockState, event: Event, v: Versions)
    requires Coherent(protocol, b) && Enabled(protocol, true, b, event) && |v.held| == |b.column| && Unsaved(b, v)
    ensures Unsaved(BlockNext(protocol, true, b, event), VersionsNext(protocol, b, event, v))
    ensures |VersionsNext(protocol, b, event, v).held| == |v.held|
  {
    hide Coherent, AnyShares;
    match event
    case Foreign(k, evicted, mistaken) => ForeignUnsaved(protocol, b, event, v);
    case SilentWrite(k) =>
    case Issue(k, write, shared) => IssueUnsaved(protocol, b, event, v);
    case Complete => CompletionUnsaved(protocol, b, v);
  }

  /** The eviction of a modified or owned copy always loses a write; outside Dragon these are the only
      evictions that do. */
  lemma EvictionLoses(protocol: Protocol, b: BlockState, k: nat, v: Versions)
    requires Coherent(protocol, b) && Unsaved(b, v) && b.pending.None? && k < |b.column|
    ensures b.column[k] == Modified || b.column[k] == Owned ==> LosesByEviction(b, Foreign(k, true, None), Behind(v))
    ensures protocol != DRAGON ==>
              (LosesByEviction(b, Foreign(k, true, None), Behind(v)) <==>
               b.column[k] == Modified || b.column[k] == Owned)
  {
    assert InProtocol(protocol, b.column[k]);
  }

  /** Outside Dragon, where a dirty copy may have been flushed, the states alone say which events lose a write. */
  ghost predicate Drops(protocol: Protocol, b: BlockState, event: Event) {
    match event
    case Foreign(k, evicted, mistaken) =>
      || (evicted && Dirty(StateAt(b.column, k)))
      || (protocol == MOESI && mistaken == Some(BusRdX)
          && exists j | 0 <= j < |b.column| && j != k :: Dirty(b.column[j]))
    case SilentWrite(k) => !Alone(b.column, k)
    case Issue(_, _, _) => false
    case Complete =>
      protocol == MESI && b.pending.Some? && b.pending.value.write && !b.pending.value.shared
      && StateAt(b.column, b.pending.value.k) == Invalid
  }

  lemma LossIsDrop(protocol: Protocol, b: BlockState, event: Event, v: Versions)
    requires protocol != DRAGON && Coherent(protocol, b) && Enabled(protocol, true, b, event) && Unsaved(b, v)
    ensures Loses(protocol, b, event, Behind(v)) <==> Drops(protocol, b, event)
  {
    match event
    case Foreign(k, evicted, mistaken) =>
      if evicted || mistaken.Some? {
        var column := if evicted then SetAt(b.column, k, Invalid) else b.column;
        forall i | 0 <= i < |b.column|
          ensures i != k ==> column[i] == b.column[i]
          ensures Dirty(b.column[i]) ==> v.memory != v.latest
        {
          assert InProtocol(protocol, b.column[i]);
        }
        hide Coherent;
      }
    case SilentWrite(k) =>
    case Issue(_, _, _) =>
    case Complete =>
  }

  /** When MOESI breaks single-writer: a read miss ends exclusive beside other copies exactly when some
      peer holds the block and every such peer is merely shared. */
  lemma ExclusiveBesideShared(column: Column, k: nat)
    requires Coherent(MOESI, BlockState(column, None)) && SingleWriter(column) && k < |column| && column[k] == Invalid
    ensures var asked :=
            BlockNext(MOESI, true, BlockState(column, None), Issue(k, false, AnyShares(MOESI, BusRd, k, column)));
            SingleWriter(BlockNext(MOESI, true, asked, Complete).column)
            <==> (Alone(column, k) || exists j | 0 <= j < |column| :: Supplies(column[j]))
  {
    var shared := AnyShares(MOESI, BusRd, k, column);
    var asked := BlockNext(MOESI, true, BlockState(column, None), Issue(k, false, shared));
    var after := BlockNext(MOESI, true, asked, Complete).column;
    assert forall j | 0 <= j < |column| && j != k :: after[j] == SnoopState(MOESI, BusRd, column[j]);
    assert shared <==> exists j | 0 <= j < |column| :: Supplies(column[j]);
    assert after[k] == if shared then Shared else Exclusive;
    if !shared && !Alone(column, k) {
      var j :| 0 <= j < |column| && j != k && column[j] != Invalid;
      assert after[j] != Invalid && !Alone(after, k) && WritesSilently(after[k]);
    }
  }
}
