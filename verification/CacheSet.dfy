/** One set of the cache (CacheSet.cpp, CacheLine.cpp): a fixed number of ways, each a line with a
    tag, a coherence state and the cycle it was last used. The first half gives the operations as
    functions on the sequence of ways and proves what they mean; class CacheSet runs them. */
module Sets {

  datatype State = Invalid | Shared | Modified | Exclusive | Owned | SharedClean | SharedDirty

  datatype Line = Line(tag: nat, state: State, lastUsed: nat)

  type Ways = seq<Line>

  /** `ULLONG_MAX`, with which the search for the oldest line starts. */
  const ULLONG_MAX: nat := 0xFFFF_FFFF_FFFF_FFFF

  /** `hasLine` and `lineValid`: some way holds the tag in a valid state. */
  predicate Has(ways: Ways, tag: nat) {
    exists i | 0 <= i < |ways| :: ways[i].tag == tag && ways[i].state != Invalid
  }

  /** The way `getLine` returns: the first one bearing the tag, valid or not; |ways| stands for NULL. */
  function Find(ways: Ways, tag: nat): (i: nat)
    ensures i <= |ways|
    ensures i < |ways| ==> ways[i].tag == tag
    ensures forall j | 0 <= j < i :: ways[j].tag != tag
  {
    if |ways| == 0 || ways[0].tag == tag then 0 else 1 + Find(ways[1..], tag)
  }

  /** The state `getLine` sees. */
  function StateOf(ways: Ways, tag: nat): State {
    var i := Find(ways, tag);
    if i < |ways| then ways[i].state else Invalid
  }

  /** `getLine` stamps the line it returns. */
  function Touch(ways: Ways, tag: nat, cycle: nat): Ways {
    var i := Find(ways, tag);
    if i < |ways| then ways[i := ways[i].(lastUsed := cycle)] else ways
  }

  /** `getLine` followed by `setState` on the line returned. */
  function SetState(ways: Ways, tag: nat, state: State, cycle: nat): Ways {
    var i := Find(ways, tag);
    if i < |ways| then ways[i := Line(tag, state, cycle)] else ways
  }

  /** What `getLRULine` is for: a free way if there is one, else one that nothing in the set is older than. */
  ghost predicate IsVictim(ways: Ways, v: nat) {
    && v < |ways|
    && (forall j | 0 <= j < v :: ways[j].state != Invalid)
    && (ways[v].state != Invalid ==>
          && (forall j | 0 <= j < |ways| :: ways[j].state != Invalid)
          && (forall j | 0 <= j < |ways| :: ways[v].lastUsed <= ways[j].lastUsed)
          && (forall j | 0 <= j < v :: ways[v].lastUsed < ways[j].lastUsed))
  }

  /** The victim among ways[n..], given that ways[..n] are valid and `oldest` is the first oldest of them
      (n == 0: none seen yet). */
  function VictimFrom(ways: Ways, n: nat, oldest: nat): (v: nat)
    requires n <= |ways| && 0 < |ways|
    requires n == 0 || oldest < n
    requires forall j | 0 <= j < n :: ways[j].state != Invalid
    requires n > 0 ==> forall j | 0 <= j < n :: ways[oldest].lastUsed <= ways[j].lastUsed
    requires n > 0 ==> forall j | 0 <= j < oldest :: ways[oldest].lastUsed < ways[j].lastUsed
    ensures IsVictim(ways, v)
    decreases |ways| - n
  {
    if n == |ways| then oldest
    else if ways[n].state == Invalid then n
    else VictimFrom(ways, n + 1, if n == 0 || ways[n].lastUsed < ways[oldest].lastUsed then n else oldest)
  }

  function Victim(ways: Ways): (v: nat)
    requires 0 < |ways|
    ensures IsVictim(ways, v)
  {
    VictimFrom(ways, 0, 0)
  }

  lemma VictimIsUnique(ways: Ways, v: nat, w: nat)
    requires IsVictim(ways, v) && IsVictim(ways, w)
    ensures v == w
  {
  }

  /** `replaceLine`: the victim way is overwritten by an invalid line with the new tag. */
  function Replace(ways: Ways, tag: nat, cycle: nat): Ways {
    if |ways| == 0 then ways else ways[Victim(ways) := Line(tag, Invalid, cycle)]
  }

  /** The invariant of every set: a valid way is the first way bearing its tag. Stale copies of the
      tag in invalid ways can only come later, so `getLine` finds the valid one. */
  ghost predicate WellFormed(ways: Ways) {
    forall i, j | 0 <= j < i < |ways| && ways[i].state != Invalid :: ways[j].tag != ways[i].tag
  }

  ghost predicate StampedBy(ways: Ways, cycle: nat) {
    forall i | 0 <= i < |ways| :: ways[i].lastUsed <= cycle
  }

  lemma HasIsState(ways: Ways, tag: nat)
    requires WellFormed(ways)
    ensures Has(ways, tag) <==> StateOf(ways, tag) != Invalid
  {
    if Has(ways, tag) {
      var i :| 0 <= i < |ways| && ways[i].tag == tag && ways[i].state != Invalid;
      assert Find(ways, tag) == i;
    }
  }

  lemma FindIs(ways: Ways, tag: nat, i: nat)
    requires i <= |ways|
    requires i < |ways| ==> ways[i].tag == tag
    requires forall j | 0 <= j < i :: ways[j].tag != tag
    ensures Find(ways, tag) == i
  {
  }

  lemma EmptySet(ways: Ways)
    requires forall i | 0 <= i < |ways| :: ways[i].state == Invalid
    ensures WellFormed(ways) && forall u :: StateOf(ways, u) == Invalid
  {
  }

  lemma TouchKeepsStates(ways: Ways, tag: nat, cycle: nat)
    requires WellFormed(ways)
    ensures WellFormed(Touch(ways, tag, cycle))
    ensures forall u :: StateOf(Touch(ways, tag, cycle), u) == StateOf(ways, u)
  {
    var ways' := Touch(ways, tag, cycle);
    forall u
      ensures StateOf(ways', u) == StateOf(ways, u)
    {
      FindIs(ways', u, Find(ways, u));
    }
  }

  /** Setting a state through `getLine` changes the named block and no other. Validating needs the
      line to be valid already or to be the only way with its tag. */
  lemma SetStateChangesOne(ways: Ways, tag: nat, state: State, cycle: nat)
    requires WellFormed(ways) && Find(ways, tag) < |ways|
    ensures WellFormed(SetState(ways, tag, state, cycle))
    ensures forall u :: StateOf(SetState(ways, tag, state, cycle), u) == if u == tag then state else StateOf(ways, u)
  {
    var ways' := SetState(ways, tag, state, cycle);
    forall u
      ensures StateOf(ways', u) == if u == tag then state else StateOf(ways, u)
    {
      FindIs(ways', u, Find(ways, u));
    }
  }

  /** The block a fill of `tag` pushes out, if it pushes one out. */
  ghost predicate Evicts(ways: Ways, u: nat) {
    0 < |ways| && ways[Victim(ways)].state != Invalid && ways[Victim(ways)].tag == u
  }

  /** Filling an absent block leaves it invalid but findable, drops at most the least recently used
      block, and only when no way was free; every other block keeps its state. */
  lemma ReplaceChangesOne(ways: Ways, tag: nat, cycle: nat)
    requires WellFormed(ways) && 0 < |ways| && !Has(ways, tag)
    ensures WellFormed(Replace(ways, tag, cycle))
    ensures Find(Replace(ways, tag, cycle), tag) < |ways|
    ensures forall u :: StateOf(Replace(ways, tag, cycle), u)
                        == if u == tag || Evicts(ways, u) then Invalid else StateOf(ways, u)
  {
    var v := Victim(ways);
    var ways' := Replace(ways, tag, cycle);
    assert WellFormed(ways') by {
      forall i, j | 0 <= j < i < |ways'| && ways'[i].state != Invalid
        ensures ways'[j].tag != ways'[i].tag
      {
        assert ways[i].state != Invalid && i != v;
      }
    }
    assert ways'[v].tag == tag;
    forall u
      ensures StateOf(ways', u) == if u == tag || Evicts(ways, u) then Invalid else StateOf(ways, u)
    {
      HasIsState(ways, u);
      HasIsState(ways', u);
      var i := Find(ways, u);
      if u != tag && i < |ways| && i != v && ways[i].state != Invalid {
        FindIs(ways', u, i);
      }
    }
  }

  // ---------------------------------------------------------------------------------------------
  // A set as a bounded map from tag to (state, last use).

  function Contents(ways: Ways): map<nat, (State, nat)> {
    map t | t in Tags(ways) :: Entry(ways, t)
  }

  function Entry(ways: Ways, t: nat): (State, nat) {
    var i := Find(ways, t);
    if i < |ways| then (ways[i].state, ways[i].lastUsed) else (Invalid, 0)
  }

  /** The tags of the valid blocks. */
  function Tags(ways: Ways): set<nat> {
    set i | 0 <= i < |ways| && ways[i].state != Invalid :: ways[i].tag
  }

  lemma ContentsAt(ways: Ways, t: nat)
    requires WellFormed(ways)
    ensures t in Contents(ways) <==> StateOf(ways, t) != Invalid
    ensures t in Contents(ways) ==> Contents(ways)[t] == Entry(ways, t)
  {
    HasIsState(ways, t);
    if Has(ways, t) {
      assert ways[Find(ways, t)].state != Invalid;
    }
  }

  lemma SameContents(m: map<nat, (State, nat)>, m': map<nat, (State, nat)>)
    requires forall u :: u in m <==> u in m'
    requires forall u | u in m :: m[u] == m'[u]
    ensures m == m'
  {
  }

  ghost predicate AllValid(ways: Ways) {
    forall i | 0 <= i < |ways| :: ways[i].state != Invalid
  }

  lemma {:induction false} TagsOfPrefix(ways: Ways)
    requires 0 < |ways|
    ensures Tags(ways) == Tags(ways[..|ways| - 1]) + if ways[|ways| - 1].state != Invalid then {ways[|ways| - 1].tag}
            else {}
  {
    var n := |ways| - 1;
    var before := ways[..n];
    forall t | t in Tags(ways)
      ensures t in Tags(before) + if ways[n].state != Invalid then {ways[n].tag} else {}
    {
      var i :| 0 <= i < |ways| && ways[i].state != Invalid && ways[i].tag == t;
      if i < n { assert before[i].state != Invalid && before[i].tag == t; }
    }
    forall t | t in Tags(before)
      ensures t in Tags(ways)
    {
      var i :| 0 <= i < n && before[i].state != Invalid && before[i].tag == t;
      assert ways[i].state != Invalid && ways[i].tag == t;
    }
  }

  /** A set never holds more blocks than ways, and holds as many only when every way is valid. */
  lemma {:induction false} OneBlockPerValidWay(ways: Ways)
    requires WellFormed(ways)
    ensures |Tags(ways)| <= |ways|
    ensures |Tags(ways)| == |ways| <==> AllValid(ways)
  {
    if |ways| > 0 {
      var n := |ways| - 1;
      OneBlockPerValidWay(ways[..n]);
      TagsOfPrefix(ways);
      AllValidPrefix(ways);
      if ways[n].state != Invalid {
        LastTagIsNew(ways);
      }
    }
  }

  lemma AllValidPrefix(ways: Ways)
    requires 0 < |ways|
    ensures AllValid(ways) <==> AllValid(ways[..|ways| - 1]) && ways[|ways| - 1].state != Invalid
  {
    var before := ways[..|ways| - 1];
    if AllValid(before) && ways[|ways| - 1].state != Invalid {
      forall i | 0 <= i < |ways|
        ensures ways[i].state != Invalid
      {
        if i < |ways| - 1 { assert before[i].state != Invalid; }
      }
    }
  }

  lemma LastTagIsNew(ways: Ways)
    requires WellFormed(ways) && 0 < |ways| && ways[|ways| - 1].state != Invalid
    ensures ways[|ways| - 1].tag !in Tags(ways[..|ways| - 1])
  {
  }

  /** Inserting into a map of bounded size: with room, just insert; without, drop a least recently
      used key first. */
  ghost predicate BoundedInsert(m: map<nat, (State, nat)>, capacity: nat, t: nat, entry: (State, nat),
                                m': map<nat, (State, nat)>) {
    if |m| < capacity then m' == m[t := entry]
    else exists oldest | oldest in m ::
        (forall u | u in m :: m[oldest].1 <= m[u].1) && m' == (m - {oldest})[t := entry]
  }

  /** The fill of `busJobDone` (`replaceLine`, `getLine`, `setState`) is an insertion into a bounded
      map that drops a least recently used block when the set is full. */
  lemma FillIsBoundedInsert(ways: Ways, tag: nat, state: State, cycle: nat)
    requires WellFormed(ways) && 0 < |ways| && !Has(ways, tag) && state != Invalid
    ensures BoundedInsert(Contents(ways), |ways|, tag, (state, cycle),
                          Contents(SetState(Replace(ways, tag, cycle), tag, state, cycle)))
  {
    var m := Contents(ways);
    var v := Victim(ways);
    var m' := Contents(SetState(Replace(ways, tag, cycle), tag, state, cycle));
    var kept := if ways[v].state == Invalid then m else m - {ways[v].tag};
    forall u
      ensures u in m' <==> u in kept[tag := (state, cycle)]
      ensures u in m' ==> m'[u] == kept[tag := (state, cycle)][u]
    {
      FillContentsAt(ways, tag, state, cycle, u);
      ContentsAt(ways, u);
    }
    SameContents(m', kept[tag := (state, cycle)]);
    OneBlockPerValidWay(ways);
    assert m.Keys == Tags(ways);
    if ways[v].state != Invalid {
      VictimIsOldest(ways);
    }
  }

  lemma VictimIsOldest(ways: Ways)
    requires WellFormed(ways) && 0 < |ways| && ways[Victim(ways)].state != Invalid
    ensures ways[Victim(ways)].tag in Contents(ways)
    ensures forall u | u in Contents(ways) :: Contents(ways)[ways[Victim(ways)].tag].1 <= Contents(ways)[u].1
  {
    var v := Victim(ways);
    FindIs(ways, ways[v].tag, v);
    ContentsAt(ways, ways[v].tag);
    forall u | u in Contents(ways)
      ensures Contents(ways)[ways[v].tag].1 <= Contents(ways)[u].1
    {
      ContentsAt(ways, u);
    }
  }

  lemma FillContentsAt(ways: Ways, tag: nat, state: State, cycle: nat, u: nat)
    requires WellFormed(ways) && 0 < |ways| && !Has(ways, tag) && state != Invalid
    ensures var full := Contents(SetState(Replace(ways, tag, cycle), tag, state, cycle));
            && (u in full <==> u == tag || (StateOf(ways, u) != Invalid && !Evicts(ways, u)))
            && (u in full ==> full[u] == if u == tag then (state, cycle) else Entry(ways, u))
  {
    var replaced := Replace(ways, tag, cycle);
    var full := SetState(replaced, tag, state, cycle);
    ReplaceChangesOne(ways, tag, cycle);
    SetStateChangesOne(replaced, tag, state, cycle);
    ContentsAt(full, u);
    if u != tag && StateOf(full, u) != Invalid {
      FindIs(full, u, Find(ways, u));
    }
  }

  /** A state change through `getLine` is a map update, or a removal when the new state is invalid;
      a plain `getLine` only refreshes the last use. */
  lemma SetStateIsMapUpdate(ways: Ways, tag: nat, state: State, cycle: nat)
    requires WellFormed(ways) && Has(ways, tag)
    ensures tag in Contents(ways)
    ensures Contents(SetState(ways, tag, state, cycle))
            == if state == Invalid then Contents(ways) - {tag} else Contents(ways)[tag := (state, cycle)]
    ensures Contents(Touch(ways, tag, cycle)) == Contents(ways)[tag := (Contents(ways)[tag].0, cycle)]
  {
    ContentsAt(ways, tag);
    HasIsState(ways, tag);
    SetStateContents(ways, tag, state, cycle);
    SetStateContents(ways, tag, StateOf(ways, tag), cycle);
    assert Touch(ways, tag, cycle) == SetState(ways, tag, StateOf(ways, tag), cycle);
  }

  lemma SetStateContents(ways: Ways, tag: nat, state: State, cycle: nat)
    requires WellFormed(ways) && Has(ways, tag)
    ensures Contents(SetState(ways, tag, state, cycle))
            == if state == Invalid then Contents(ways) - {tag} else Contents(ways)[tag := (state, cycle)]
  {
    HasIsState(ways, tag);
    SetStateChangesOne(ways, tag, state, cycle);
    var ways' := SetState(ways, tag, state, cycle);
    var m' := if state == Invalid then Contents(ways) - {tag} else Contents(ways)[tag := (state, cycle)];
    forall u
      ensures u in Contents(ways') <==> u in m'
      ensures u in m' ==> Contents(ways')[u] == m'[u]
    {
      ContentsAt(ways, u);
      ContentsAt(ways', u);
      FindIs(ways', u, Find(ways, u));
    }
    SameContents(Contents(ways'), m');
  }

  // ---------------------------------------------------------------------------------------------
  // The object.

  class CacheSet {
    var allLines: Ways

    constructor (numLinesInSet: nat)
      ensures |allLines| == numLinesInSet
      ensures forall i | 0 <= i < |allLines| :: allLines[i] == Line(0, Invalid, 0)
    {
      var lines: Ways := [];
      for i := 0 to numLinesInSet
        invariant |lines| == i
        invariant forall j | 0 <= j < i :: lines[j] == Line(0, Invalid, 0)
      {
        lines := lines + [Line(0, Invalid, 0)];
      }
      allLines := lines;
    }

    /** Meant to ask whether every line is dirty, but joins two disequalities by `or`: the loop's
        test holds of every line, so no set that has a way is ever full. */
    method IsFull() returns (full: bool)
      ensures full <==> |allLines| == 0
    {
      for i := 0 to |allLines|
        invariant i == 0
      {
        if allLines[i].state != Modified || allLines[i].state != SharedDirty {
          return false;
        }
      }
      return true;
    }

    method HasLine(tag: nat) returns (found: bool)
      ensures found == Has(allLines, tag)
    {
      for i := 0 to |allLines|
        invariant forall j | 0 <= j < i :: allLines[j].tag != tag || allLines[j].state == Invalid
      {
        if allLines[i].tag == tag && allLines[i].state != Invalid {
          return true;
        }
      }
      return false;
    }

    /** Returns the index of the line, |allLines| for NULL. */
    method GetLine(tag: nat, cycle: nat) returns (line: nat)
      modifies this`allLines
      ensures line == Find(old(allLines), tag)
      ensures allLines == Touch(old(allLines), tag, cycle)
    {
      for i := 0 to |allLines|
        invariant forall j | 0 <= j < i :: allLines[j].tag != tag
        invariant allLines == old(allLines)
      {
        if allLines[i].tag == tag {
          FindIs(allLines, tag, i);
          allLines := allLines[i := allLines[i].(lastUsed := cycle)];
          return i;
        }
      }
      line := |allLines|;
      FindIs(allLines, tag, line);
    }

    /** `setState` on a line obtained from `getLine`. */
    method SetStateOf(line: nat, state: State)
      requires line < |allLines|
      modifies this`allLines
      ensures allLines == old(allLines)[line := old(allLines)[line].(state := state)]
    {
      allLines := allLines[line := allLines[line].(state := state)];
    }

    /** The index of the victim, -1 where the source falls off the end without a result: only when
        every line is valid and none was stamped below the maximal cycle. */
    method GetLRULine() returns (line: int)
      ensures line == -1 <==> AllValid(allLines) && forall i | 0 <= i < |allLines| :: ULLONG_MAX <= allLines[i].lastUsed
      ensures line != -1 ==> 0 <= line < |allLines| && line == Victim(allLines)
    {
      var leastRecentCycle := ULLONG_MAX;
      line := -1;
      for i := 0 to |allLines|
        invariant forall j | 0 <= j < i :: allLines[j].state != Invalid
        invariant -1 <= line < i
        invariant line == -1 ==> leastRecentCycle == ULLONG_MAX
        invariant line == -1 ==> forall j | 0 <= j < i :: ULLONG_MAX <= allLines[j].lastUsed
        invariant line >= 0 ==> leastRecentCycle == allLines[line].lastUsed < ULLONG_MAX
        invariant forall j | 0 <= j < i :: leastRecentCycle <= allLines[j].lastUsed
        invariant line >= 0 ==> forall j | 0 <= j < line :: leastRecentCycle < allLines[j].lastUsed
      {
        if allLines[i].state == Invalid {
          VictimIsUnique(allLines, i, Victim(allLines));
          return i;
        }
        if allLines[i].lastUsed < leastRecentCycle {
          leastRecentCycle := allLines[i].lastUsed;
          line := i;
        }
      }
      if line >= 0 {
        VictimIsUnique(allLines, line, Victim(allLines));
      }
    }

    method ReplaceLine(tag: nat, cycle: nat)
      requires 0 < |allLines| && StampedBy(allLines, cycle) && cycle < ULLONG_MAX
      modifies this`allLines
      ensures allLines == Replace(old(allLines), tag, cycle)
      ensures exists v: nat | IsVictim(old(allLines), v) :: allLines == old(allLines)[v := Line(tag, Invalid, cycle)]
    {
      var oldLine := GetLRULine();
      assert allLines[0].lastUsed < ULLONG_MAX && IsVictim(allLines, oldLine);
      allLines := allLines[oldLine := Line(tag, Invalid, cycle)];
    }
  }
}
