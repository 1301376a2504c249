/** The coherence protocols seen from one memory block: the state each cache holds it in (a column),
    and the bus transaction about it, if one is pending. The simulator is proved elsewhere to move
    every block by these rules; here the rules are proved coherent. */
module Coherence {
  import opened Wrappers
  import opened Constants
  import opened Requests
  import opened Sets
  import opened CacheModel

  type Column = seq<State>

  /** Cache `k` waits for the bus; `shared` is what it will be told when the bus is done. */
  datatype Pending = Pending(k: nat, command: Command, write: bool, shared: bool)

  datatype BlockState = BlockState(column: Column, pending: Option<Pending>)

  /** What one loop iteration can do to a block.
      Foreign: cache `k` works on another block; it may push this one out, and, when the other block's
      number is cut down to this one on the bus, the other caches take its request for one about this block.
      Issue: a request is granted and snooped. Complete: the pending transaction ends. */
  datatype Event =
    | Foreign(k: nat, evicted: bool, mistaken: Option<Command>)
    | SilentWrite(k: nat)
    | Issue(k: nat, write: bool, shared: bool)
    | Complete

  // ---------------------------------------------------------------------------------------------
  // The rules.

  predicate InProtocol(protocol: Protocol, state: State) {
    match protocol
    case MSI => state == Invalid || state == Shared || state == Modified
    case MESI => state == Invalid || state == Shared || state == Modified || state == Exclusive
    case DRAGON => state == Invalid || state == Exclusive || state == Modified || state == SharedClean
        || state == SharedDirty
    case MOESI => state == Invalid || state == Shared || state == Modified || state == Exclusive || state == Owned
  }

  /** A write that needs no bus. */
  predicate WritesSilently(state: State) {
    state == Modified || state == Exclusive
  }

  function CommandFor(protocol: Protocol, write: bool, own: State): Command {
    if !write || (protocol == DRAGON && own == Invalid) then BusRd else BusRdX
  }

  /** The requester's own copy from the moment it asks. */
  function OwnAtIssue(protocol: Protocol, write: bool, own: State): State {
    if !write || own == Invalid then own
    else if protocol == DRAGON then SharedDirty
    else Modified
  }

  /** The requester's copy when the bus is done. */
  function OwnAtCompletion(protocol: Protocol, write: bool, shared: bool, own: State): State {
    match protocol
    case MSI => if write then Modified else Shared
    case MESI => if write then (if shared then Modified else own) else if shared then Shared else Exclusive
    case DRAGON =>
      if write then (if shared then SharedDirty else if own == Invalid then Modified else own)
      else if shared then SharedClean else Exclusive
    case MOESI =>
      if write then (if !shared && own == Owned then own else Modified)
      else if shared then Shared else Exclusive
  }

  /** A snooped state that makes the bus tell the requester "shared". */
  predicate Shares(protocol: Protocol, command: Command, state: State) {
    match protocol
    case MSI => false
    case MESI => state == Shared || state == Modified || state == Exclusive
    case DRAGON => RaisesShared(DRAGON, command, state)
    case MOESI => state == Modified || state == Exclusive || state == Owned
  }

  predicate AnyShares(protocol: Protocol, command: Command, k: nat, column: Column) {
    exists i | 0 <= i < |column| :: i != k && Shares(protocol, command, column[i])
  }

  /** Every cache but k snoops. */
  function SnoopAll(protocol: Protocol, command: Command, k: nat, column: Column): Column {
    seq(|column|,
        i requires 0 <= i < |column| => if i == k then column[i] else SnoopState(protocol, command, column[i]))
  }

  function SetAt(column: Column, k: nat, state: State): Column {
    if k < |column| then column[k := state] else column
  }

  function StateAt(column: Column, k: nat): State {
    if k < |column| then column[k] else Invalid
  }

  /** The rules. `heard` is false for a block whose number does not survive the bus: nobody recognises
      the requests about it. */
  function BlockNext(protocol: Protocol, heard: bool, b: BlockState, event: Event): BlockState {
    match event
    case Foreign(k, evicted, mistaken) =>
      var column := if evicted then SetAt(b.column, k, Invalid) else b.column;
      b.(column := if mistaken.Some? then SnoopAll(protocol, mistaken.value, k, column) else column)
    case SilentWrite(k) => b.(column := SetAt(b.column, k, Modified))
    case Issue(k, write, shared) =>
      var own := StateAt(b.column, k);
      var command := CommandFor(protocol, write, own);
      var column := SetAt(b.column, k, OwnAtIssue(protocol, write, own));
      BlockState(if heard then SnoopAll(protocol, command, k, column) else column,
                 Some(Pending(k, command, write, shared)))
    case Complete =>
      if b.pending.None? then b
      else
        var p := b.pending.value;
        var column := SetAt(b.column, p.k, OwnAtCompletion(protocol, p.write, p.shared, StateAt(b.column, p.k)));
        if protocol == DRAGON && p.write && p.shared then
          // the block has been read; now broadcast the update
          BlockState(if heard then SnoopAll(protocol, BusRdX, p.k, column) else column,
                     Some(Pending(p.k, BusRdX, true, false)))
        else BlockState(column, None)
  }

  /** When a rule can fire. */
  ghost predicate Enabled(protocol: Protocol, heard: bool, b: BlockState, event: Event) {
    match event
    case Foreign(k, evicted, mistaken) => (evicted || mistaken.Some?) ==> b.pending.None? && k < |b.column|
    case SilentWrite(k) => b.pending.None? && k < |b.column| && WritesSilently(b.column[k])
    case Issue(k, write, shared) =>
      && b.pending.None? && k < |b.column|
      && (if write then !WritesSilently(b.column[k]) else b.column[k] == Invalid)
      && (heard ==> shared == AnyShares(protocol, CommandFor(protocol, write, b.column[k]), k, b.column))
    case Complete => b.pending.Some?
  }

  // ---------------------------------------------------------------------------------------------
  // Coherence.

  /** No other cache holds a valid copy. */
  ghost predicate Alone(column: Column, k: nat) {
    forall j | 0 <= j < |column| && j != k :: column[j] == Invalid
  }

  /** Single writer: a modified or exclusive copy is the only valid copy. */
  ghost predicate SingleWriter(column: Column) {
    forall i | 0 <= i < |column| && WritesSilently(column[i]) :: Alone(column, i)
  }

  /** The caches that have to supply the block: in MOESI modified, exclusive or owned, in Dragon sharedDirty. */
  predicate Supplies(state: State) {
    state == Modified || state == Exclusive || state == Owned || state == SharedDirty
  }

  ghost predicate UniqueSupplier(column: Column) {
    forall i, j | 0 <= i < |column| && 0 <= j < |column| && Supplies(column[i]) && Supplies(column[j]) :: i == j
  }

  ghost predicate PeersIn(column: Column, k: nat, s1: State, s2: State, s3: State) {
    forall j | 0 <= j < |column| && j != k :: column[j] == s1 || column[j] == s2 || column[j] == s3
  }

  /** What a pending transaction guarantees until it completes. */
  ghost predicate PendingCoherent(protocol: Protocol, column: Column, p: Pending) {
    && p.k < |column|
    && (p.command == BusRd ==>
          && column[p.k] == Invalid
          && (protocol != DRAGON ==> !p.write)
          && (protocol == MSI ==> PeersIn(column, p.k, Invalid, Shared, Shared))
          && (protocol == MESI ==> PeersIn(column, p.k, Invalid, Shared, Shared) && (p.shared <==> !Alone(column, p.k)))
          && (protocol == DRAGON ==>
                PeersIn(column, p.k, Invalid, SharedClean, SharedDirty) && (p.shared <==> !Alone(column, p.k)))
          && (protocol == MOESI ==> PeersIn(column, p.k, Invalid, Shared, Owned)
                                    && (!p.shared ==> PeersIn(column, p.k, Invalid, Shared, Shared))))
    && (p.command == BusRdX ==>
          && p.write
          && (protocol == DRAGON ==>
                column[p.k] == SharedDirty && PeersIn(column, p.k, Invalid, SharedClean, SharedClean) && !p.shared)
          && (protocol != DRAGON ==> (column[p.k] == Invalid || column[p.k] == Modified) && Alone(column, p.k)))
  }

  ghost predicate Coherent(protocol: Protocol, b: BlockState) {
    && (forall i | 0 <= i < |b.column| :: InProtocol(protocol, b.column[i]))
    && UniqueSupplier(b.column)
    && (protocol != MOESI ==> SingleWriter(b.column))
    && (b.pending.Some? ==> PendingCoherent(protocol, b.column, b.pending.value))
  }

  lemma EmptyColumnCoherent(protocol: Protocol, b: BlockState)
    requires b.pending.None? && forall i | 0 <= i < |b.column| :: b.column[i] == Invalid
    ensures Coherent(protocol, b)
  {
  }

  lemma SnoopedStates(protocol: Protocol, command: Command, state: State)
    requires InProtocol(protocol, state)
    ensures InProtocol(protocol, SnoopState(protocol, command, state))
    ensures Supplies(SnoopState(protocol, command, state)) ==> Supplies(state)
    ensures protocol != MOESI && WritesSilently(SnoopState(protocol, command, state)) ==> WritesSilently(state)
    ensures SnoopState(protocol, command, Invalid) == Invalid
  {
  }

  lemma SnoopKeepsCoherence(protocol: Protocol, command: Command, k: nat, column: Column)
    requires Coherent(protocol, BlockState(column, None)) && k < |column|
    ensures Coherent(protocol, BlockState(SnoopAll(protocol, command, k, column), None))
  {
    forall i | 0 <= i < |column|
      ensures InProtocol(protocol, column[i])
      ensures InProtocol(protocol, SnoopState(protocol, command, column[i]))
      ensures Supplies(SnoopState(protocol, command, column[i])) ==> Supplies(column[i])
      ensures protocol != MOESI && WritesSilently(SnoopState(protocol, command, column[i])) ==>
                WritesSilently(column[i])
    {
      SnoopedStates(protocol, command, column[i]);
    }
    SnoopedStates(protocol, command, Invalid);
    hide SnoopState, InProtocol, Supplies, WritesSilently;
  }

  lemma EvictionKeepsCoherence(protocol: Protocol, k: nat, column: Column)
    requires Coherent(protocol, BlockState(column, None)) && k < |column|
    ensures Coherent(protocol, BlockState(SetAt(column, k, Invalid), None))
  {
  }

  /** A column in which the only copies besides cache k's are Dragon's clean ones. */
  lemma WriterRules(protocol: Protocol, k: nat, column: Column)
    requires k < |column| && InProtocol(protocol, column[k])
    requires if protocol == DRAGON
             && !WritesSilently(column[k]) then PeersIn(column, k, Invalid, SharedClean, SharedClean)
             else Alone(column, k)
    ensures Coherent(protocol, BlockState(column, None))
  {
  }

  /** Once snooped, the column is coherent whoever asked, although the requester has raised its own
      copy before the others heard of it. */
  lemma IssuedColumnIsCoherent(protocol: Protocol, b: BlockState, event: Event)
    requires Coherent(protocol, b) && Enabled(protocol, true, b, event) && event.Issue?
    ensures Coherent(protocol, BlockState(BlockNext(protocol, true, b, event).column, None))
  {
    var command := CommandFor(protocol, event.write, b.column[event.k]);
    if command == BusRd {
      SnoopKeepsCoherence(protocol, BusRd, event.k, b.column);
      assert SetAt(b.column, event.k, b.column[event.k]) == b.column;
    } else {
      var column := BlockNext(protocol, true, b, event).column;
      assert forall j | 0 <= j < |column| && j != event.k :: column[j] == SnoopState(protocol, BusRdX, b.column[j]);
      WriterRules(protocol, event.k, column);
    }
  }

  lemma IssuedReadIsPendingCoherent(protocol: Protocol, column: Column, p: Pending)
    requires Coherent(protocol, BlockState(column, None)) && p.k < |column| && column[p.k] == Invalid
    requires p.command == BusRd && (protocol != DRAGON ==> !p.write)
    requires p.shared == AnyShares(protocol, BusRd, p.k, column)
    ensures PendingCoherent(protocol, SnoopAll(protocol, BusRd, p.k, column), p)
  {
    var column' := SnoopAll(protocol, BusRd, p.k, column);
    forall j | 0 <= j < |column'| && j != p.k
      ensures column'[j] == SnoopState(protocol, BusRd, column[j])
      ensures InProtocol(protocol, column[j])
    {
    }
    hide SnoopAll, Coherent;
    forall j | 0 <= j < |column'| && j != p.k
      ensures ReadPeer(protocol, column'[j])
      ensures column'[j] != Invalid <==> column[j] != Invalid
      ensures protocol == MOESI && column'[j] == Owned ==> Shares(protocol, BusRd, column[j])
      ensures protocol == MESI || protocol == DRAGON ==> (Shares(protocol, BusRd, column[j]) <==> column[j] != Invalid)
    {
      ReadPeers(protocol, column[j]);
    }
    hide SnoopState, InProtocol, Shares;
    if p.shared {
      var i :| 0 <= i < |column| && i != p.k && Shares(protocol, BusRd, column[i]);
      assert (protocol == MESI || protocol == DRAGON) ==> column'[i] != Invalid;
    }
  }

  /** A peer's copy once it has snooped a read. */
  predicate ReadPeer(protocol: Protocol, state: State) {
    match protocol
    case MSI => state == Invalid || state == Shared
    case MESI => state == Invalid || state == Shared
    case DRAGON => state == Invalid || state == SharedClean || state == SharedDirty
    case MOESI => state == Invalid || state == Shared || state == Owned
  }

  lemma ReadPeers(protocol: Protocol, state: State)
    requires InProtocol(protocol, state)
    ensures var state' := SnoopState(protocol, BusRd, state);
            && ReadPeer(protocol, state')
            && (state' != Invalid <==> state != Invalid)
            && (protocol == MOESI && state' == Owned ==> Shares(protocol, BusRd, state))
            && (protocol == MESI || protocol == DRAGON ==> (Shares(protocol, BusRd, state) <==> state != Invalid))
  {
  }

  lemma IssuedWriteIsPendingCoherent(protocol: Protocol, column: Column, k: nat, own: State, shared: bool)
    requires Coherent(protocol, BlockState(column, None)) && k < |column| && !WritesSilently(column[k])
    requires if protocol == DRAGON then column[k] != Invalid && own == SharedDirty && !shared
             else own == Invalid || own == Modified
    ensures PendingCoherent(protocol, SnoopAll(protocol, BusRdX, k, column[k := own]), Pending(k, BusRdX, true, shared))
  {
    var column' := SnoopAll(protocol, BusRdX, k, column[k := own]);
    assert forall j | 0 <= j < |column'| && j != k :: column'[j] == SnoopState(protocol, BusRdX, column[j]);
  }

  lemma IssuedIsPendingCoherent(protocol: Protocol, b: BlockState, event: Event)
    requires Coherent(protocol, b) && Enabled(protocol, true, b, event) && event.Issue?
    ensures PendingCoherent(protocol, BlockNext(protocol, true, b, event).column,
                            BlockNext(protocol, true, b, event).pending.value)
  {
    var own := b.column[event.k];
    hide PendingCoherent, Coherent, SnoopState, Shares;
    assert b == BlockState(b.column, None);
    if CommandFor(protocol, event.write, own) == BusRd {
      assert SetAt(b.column, event.k, own) == b.column;
      IssuedReadIsPendingCoherent(protocol, b.column, Pending(event.k, BusRd, event.write, event.shared));
    } else {
      if protocol == DRAGON { UpdatesAreNotShared(event.k, b.column); }
      OwnWhenWriting(protocol, b, event.k);
      IssuedWriteIsPendingCoherent(protocol, b.column, event.k, OwnAtIssue(protocol, true, own), event.shared);
    }
  }

  lemma OwnWhenWriting(protocol: Protocol, b: BlockState, k: nat)
    requires Coherent(protocol, b) && k < |b.column|
    ensures InProtocol(protocol, b.column[k])
  {
  }

  /** Nobody raises the flag of a Dragon update. */
  lemma UpdatesAreNotShared(k: nat, column: Column)
    ensures !AnyShares(DRAGON, BusRdX, k, column)
  {
  }

  lemma CompletionKeepsCoherence(protocol: Protocol, b: BlockState)
    requires Coherent(protocol, b) && b.pending.Some?
    ensures Coherent(protocol, BlockNext(protocol, true, b, Complete))
  {
    var p := b.pending.value;
    var column := BlockNext(protocol, true, b, Complete).column;
    if protocol == DRAGON && p.write && p.shared {
      assert forall j | 0 <= j < |column| && j != p.k :: column[j] == SnoopState(protocol, BusRdX, b.column[j]);
      WriterRules(protocol, p.k, column);
    } else if p.write {
      WriterRules(protocol, p.k, column);
    } else {
      ReaderRules(protocol, b.column, p);
    }
  }

  lemma ReaderRules(protocol: Protocol, column: Column, p: Pending)
    requires Coherent(protocol, BlockState(column, Some(p))) && p.command == BusRd && !p.write
    ensures Coherent(protocol, BlockState(column[p.k := OwnAtCompletion(protocol, false, p.shared, Invalid)], None))
  {
  }

  /** Coherence is kept by every rule, for every block whose requests are heard. */
  lemma CoherenceKept(protocol: Protocol, b: BlockState, event: Event)
    requires Coherent(protocol, b) && Enabled(protocol, true, b, event)
    ensures Coherent(protocol, BlockNext(protocol, true, b, event))
  {
    match event
    case Foreign(k, evicted, mistaken) =>
      if evicted {
        EvictionKeepsCoherence(protocol, k, b.column);
      }
      if mistaken.Some? {
        SnoopKeepsCoherence(protocol, mistaken.value, k, if evicted then SetAt(b.column, k, Invalid) else b.column);
      }
    case SilentWrite(k) =>
    case Issue(k, write, shared) =>
      IssuedColumnIsCoherent(protocol, b, event);
      IssuedIsPendingCoherent(protocol, b, event);
    case Complete => CompletionKeepsCoherence(protocol, b);
  }

}
