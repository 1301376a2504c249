/** Compressed-sparse-row graphs (programs/bfs/graph.cpp): the construction of the incoming edges by
    counting, prefix sums and scatter is proved to transpose the graph. */
module Graphs {

  /** A graph as the list of the targets of each node. */
  type Adjacency = seq<seq<int>>

  ghost predicate IsGraph(g: Adjacency) {
    forall i, p | 0 <= i < |g| && 0 <= p < |g[i]| :: 0 <= g[i][p] < |g|
  }

  // ---------------------------------------------------------------------------------------------
  // Transposition.

  /** The sources of the edges into t, in order of source; an edge that occurs twice counts twice. */
  function IncomingRow(g: Adjacency, t: int): seq<int> {
    if |g| == 0 then []
    else IncomingRow(g[..|g| - 1], t) + seq(multiset(g[|g| - 1])[t], _ => |g| - 1)
  }

  function Transpose(g: Adjacency): Adjacency {
    seq(|g|, t => IncomingRow(g, t))
  }

  ghost predicate Sorted(row: seq<int>) {
    forall p, q | 0 <= p < q < |row| :: row[p] <= row[q]
  }

  lemma {:induction false} CountOfRepeat(x: int, n: nat, y: int)
    ensures multiset(seq(n, _ => x))[y] == if y == x then n else 0
  {
    if n > 0 {
      CountOfRepeat(x, n - 1, y);
      assert seq(n, _ => x) == seq(n - 1, _ => x) + [x];
    }
  }

  /** Node i occurs among the sources of t as often as t among the targets of i. */
  lemma {:induction false} IncomingCounts(g: Adjacency, t: int, i: int)
    ensures multiset(IncomingRow(g, t))[i] == if 0 <= i < |g| then multiset(g[i])[t] else 0
  {
    if |g| > 0 {
      IncomingCounts(g[..|g| - 1], t, i);
      CountOfRepeat(|g| - 1, multiset(g[|g| - 1])[t], i);
    }
  }

  /** The order of the sources is kept. */
  lemma {:induction false} IncomingIsSorted(g: Adjacency, t: int)
    ensures Sorted(IncomingRow(g, t))
    ensures forall p | 0 <= p < |IncomingRow(g, t)| :: 0 <= IncomingRow(g, t)[p] < |g|
  {
    if |g| > 0 {
      IncomingIsSorted(g[..|g| - 1], t);
    }
  }

  /** Transposing twice gives back every row, sorted. */
  lemma TransposeTwice(g: Adjacency, i: nat)
    requires IsGraph(g) && i < |g|
    ensures multiset(Transpose(Transpose(g))[i]) == multiset(g[i])
    ensures Sorted(Transpose(Transpose(g))[i])
  {
    var once := Transpose(g);
    IncomingIsSorted(once, i);
    forall t: int
      ensures multiset(Transpose(once)[i])[t] == multiset(g[i])[t]
    {
      IncomingCounts(once, i, t);
      if 0 <= t < |g| {
        IncomingCounts(g, t, i);
      } else {
        assert t !in g[i];
      }
    }
  }

  lemma {:induction false} SortedIsDetermined(a: seq<int>, b: seq<int>)
    requires Sorted(a) && Sorted(b) && multiset(a) == multiset(b)
    ensures a == b
  {
    SameLength(a, b);
    if |a| > 0 {
      var n := |a| - 1;
      LastIsGreatest(a, b[n]);
      LastIsGreatest(b, a[n]);
      PrefixIsSorted(a, n);
      PrefixIsSorted(b, n);
      hide Sorted;
      assert a[n] == b[n];
      DropLast(a);
      DropLast(b);
      SortedIsDetermined(a[..n], b[..n]);
    }
  }

  lemma SameLength(a: seq<int>, b: seq<int>)
    requires multiset(a) == multiset(b)
    ensures |a| == |b|
  {
    assert |a| == |multiset(a)| == |multiset(b)| == |b|;
  }

  lemma DropLast(row: seq<int>)
    requires 0 < |row|
    ensures row == row[..|row| - 1] + [row[|row| - 1]]
    ensures multiset(row[..|row| - 1]) == multiset(row) - multiset{row[|row| - 1]}
  {
    assert row == row[..|row| - 1] + [row[|row| - 1]];
  }

  lemma PrefixIsSorted(row: seq<int>, n: nat)
    requires Sorted(row) && n <= |row|
    ensures Sorted(row[..n])
  {
  }

  lemma LastIsGreatest(row: seq<int>, x: int)
    requires Sorted(row) && 0 < |row|
    ensures x in multiset(row) ==> x <= row[|row| - 1]
    ensures row[|row| - 1] in multiset(row)
  {
  }

  /** So transposition is its own inverse exactly on the graphs with sorted rows. */
  lemma TransposeInvolution(g: Adjacency)
    requires IsGraph(g)
    ensures Transpose(Transpose(g)) == g <==> forall i | 0 <= i < |g| :: Sorted(g[i])
  {
    forall i | 0 <= i < |g|
      ensures Sorted(Transpose(Transpose(g))[i])
      ensures Sorted(g[i]) ==> Transpose(Transpose(g))[i] == g[i]
    {
      TransposeTwice(g, i);
      if Sorted(g[i]) {
        SortedIsDetermined(Transpose(Transpose(g))[i], g[i]);
      }
    }
  }

  // ---------------------------------------------------------------------------------------------
  // The compressed form.

  function EndOf(starts: seq<int>, edges: seq<int>, i: nat): int
    requires i < |starts|
  {
    if i == |starts| - 1 then |edges| else starts[i + 1]
  }

  ghost predicate IsCsr(starts: seq<int>, edges: seq<int>) {
    && 0 < |starts| && starts[0] == 0
    && (forall i | 0 <= i < |starts| :: 0 <= starts[i] <= EndOf(starts, edges, i) <= |edges|)
    && (forall j | 0 <= j < |edges| :: 0 <= edges[j] < |starts|)
  }

  /** The graph that starts and edges stand for. */
  ghost function Rows(starts: seq<int>, edges: seq<int>): Adjacency
    requires IsCsr(starts, edges)
  {
    seq(|starts|, i requires 0 <= i < |starts| => edges[starts[i]..EndOf(starts, edges, i)])
  }

  lemma RowsAreGraph(starts: seq<int>, edges: seq<int>)
    requires IsCsr(starts, edges)
    ensures IsGraph(Rows(starts, edges))
  {
  }

  /** The sources of t met in the rows before i and the first p edges of row i. */
  ghost function Partial(g: Adjacency, i: nat, p: nat, t: int): seq<int>
    requires i < |g| && p <= |g[i]|
  {
    IncomingRow(g[..i], t) + seq(multiset(g[i][..p])[t], _ => i)
  }

  lemma PartialStep(g: Adjacency, i: nat, p: nat, t: int)
    requires i < |g| && p < |g[i]|
    ensures Partial(g, i, p + 1, t) == Partial(g, i, p, t) + if g[i][p] == t then [i] else []
  {
    assert g[i][..p + 1] == g[i][..p] + [g[i][p]];
  }

  lemma PartialEnds(g: Adjacency, i: nat, t: int)
    requires i < |g|
    ensures Partial(g, i, 0, t) == IncomingRow(g[..i], t)
    ensures Partial(g, i, |g[i]|, t) == IncomingRow(g[..i + 1], t)
  {
    assert g[i][..|g[i]|] == g[i];
    assert g[..i + 1][..i] == g[..i];
  }

  lemma {:induction false} IncomingGrows(g: Adjacency, i: nat, t: int)
    requires i <= |g|
    ensures IncomingRow(g[..i], t) <= IncomingRow(g, t)
    decreases |g| - i
  {
    if i == |g| {
      assert g[..i] == g;
    } else {
      IncomingGrows(g, i + 1, t);
      assert g[..i + 1][..i] == g[..i];
    }
  }

  /** There is room for the next source. */
  lemma PartialFits(g: Adjacency, i: nat, p: nat)
    requires i < |g| && p < |g[i]|
    ensures |Partial(g, i, p, g[i][p])| < |IncomingRow(g, g[i][p])|
  {
    var t := g[i][p];
    PartialStep(g, i, p, t);
    PartialEnds(g, i, t);
    IncomingGrows(g, i + 1, t);
    assert g[i] == g[i][..p + 1] + g[i][p + 1..];
    assert g[i][..|g[i]|] == g[i];
    assert multiset(g[i][..p + 1])[t] <= multiset(g[i])[t];
    hide IncomingRow;
  }

  function Sum(s: seq<int>): int {
    if |s| == 0 then 0 else Sum(s[..|s| - 1]) + s[|s| - 1]
  }

  lemma {:induction false} SumUpdate(s: seq<int>, k: nat, x: int)
    requires k < |s|
    ensures Sum(s[k := x]) == Sum(s) - s[k] + x
  {
    var n := |s| - 1;
    if k == n {
      assert s[k := x][..n] == s[..n];
    } else {
      SumUpdate(s[..n], k, x);
      assert s[k := x][..n] == s[..n][k := x];
    }
  }

  lemma {:induction false} SumOfZeros(s: seq<int>)
    requires forall k | 0 <= k < |s| :: s[k] == 0
    ensures Sum(s) == 0
  {
    if |s| > 0 {
      SumOfZeros(s[..|s| - 1]);
    }
  }

  /** The segments lie one after the other. */
  ghost predicate Laid(g: Adjacency, starts: seq<int>, total: int) {
    && |starts| == |g|
    && (forall t | 0 <= t < |g| - 1 :: starts[t + 1] == starts[t] + |IncomingRow(g, t)|)
    && (0 < |g| ==> starts[0] == 0 && total == starts[|g| - 1] + |IncomingRow(g, |g| - 1)|)
  }

  lemma {:induction false} SegmentsApart(g: Adjacency, starts: seq<int>, total: int, t: nat, u: nat)
    requires Laid(g, starts, total) && t <= u < |g|
    ensures t < u ==> starts[t] + |IncomingRow(g, t)| <= starts[u]
    ensures t == u ==> starts[t] == starts[u]
    ensures starts[t] + |IncomingRow(g, t)| <= total
    ensures 0 <= starts[t]
    decreases |g| - t, u - t
  {
    if t < u {
      SegmentsApart(g, starts, total, t + 1, u);
      StartsGrow(g, starts, total, t);
    } else {
      StartsGrow(g, starts, total, t);
      if t + 1 < |g| {
        SegmentsApart(g, starts, total, t + 1, t + 1);
      }
    }
  }

  lemma {:induction false} StartsGrow(g: Adjacency, starts: seq<int>, total: int, t: nat)
    requires Laid(g, starts, total) && t < |g|
    ensures 0 <= starts[t]
  {
    if t > 0 {
      StartsGrow(g, starts, total, t - 1);
    }
  }

  lemma LaidLength(g: Adjacency, starts: seq<int>, total: int)
    requires Laid(g, starts, total)
    ensures |starts| == |g|
  {
  }

  lemma LaidIsCsr(g: Adjacency, starts: seq<int>, edges: seq<int>)
    requires 0 < |g| && Laid(g, starts, |edges|)
    requires forall j | 0 <= j < |edges| :: 0 <= edges[j] < |g|
    ensures IsCsr(starts, edges)
    ensures forall t: nat | t < |starts| :: EndOf(starts, edges, t) == starts[t] + |IncomingRow(g, t)|
  {
    hide IncomingRow;
    forall t: nat | t < |starts|
      ensures 0 <= starts[t] && EndOf(starts, edges, t) == starts[t] + |IncomingRow(g, t)| <= |edges|
    {
      SegmentsApart(g, starts, |edges|, t, t);
    }
  }

  /** Segments laid out one after the other and filled with the incoming rows are the transposed graph. */
  lemma TransposedCsr(g: Adjacency, starts: seq<int>, edges: seq<int>)
    requires 0 < |g| && Laid(g, starts, |edges|)
    requires forall t: nat | t < |g| :: 0 <= starts[t] <= starts[t] + |IncomingRow(g, t)| <= |edges|
                                        && edges[starts[t]..starts[t] + |IncomingRow(g, t)|] == IncomingRow(g, t)
    requires forall j | 0 <= j < |edges| :: 0 <= edges[j] < |g|
    ensures IsCsr(starts, edges) && Rows(starts, edges) == Transpose(g)
  {
    hide IncomingRow, Laid;
    LaidIsCsr(g, starts, edges);
    LaidLength(g, starts, |edges|);
  }

  // ---------------------------------------------------------------------------------------------
  // Counting.

  /** The counts after the rows before i and the first p edges of row i. */
  ghost predicate Counted(g: Adjacency, i: nat, p: nat, counts: seq<int>)
    requires i < |g| && p <= |g[i]|
  {
    |counts| == |g| && forall t | 0 <= t < |g| :: counts[t] == |Partial(g, i, p, t)|
  }

  ghost predicate CountedRows(g: Adjacency, i: nat, counts: seq<int>)
    requires i <= |g|
  {
    |counts| == |g| && forall t | 0 <= t < |g| :: counts[t] == |IncomingRow(g[..i], t)|
  }

  lemma CountStep(g: Adjacency, i: nat, p: nat, counts: seq<int>)
    requires IsGraph(g) && i < |g| && p < |g[i]| && Counted(g, i, p, counts)
    ensures var target := g[i][p];
            && 0 <= target < |counts|
            && Counted(g, i, p + 1, counts[target := counts[target] + 1])
            && Sum(counts[target := counts[target] + 1]) == Sum(counts) + 1
  {
    var target := g[i][p];
    forall t | 0 <= t < |g|
      ensures |Partial(g, i, p + 1, t)| == counts[t] + if t == target then 1 else 0
    {
      PartialStep(g, i, p, t);
    }
    SumUpdate(counts, target, counts[target] + 1);
    hide Sum, IncomingRow;
  }

  lemma CountRow(g: Adjacency, i: nat, counts: seq<int>)
    requires i < |g|
    ensures CountedRows(g, i, counts) <==> Counted(g, i, 0, counts)
    ensures CountedRows(g, i + 1, counts) <==> Counted(g, i, |g[i]|, counts)
  {
    forall t | 0 <= t < |g|
      ensures Partial(g, i, 0, t) == IncomingRow(g[..i], t)
      ensures Partial(g, i, |g[i]|, t) == IncomingRow(g[..i + 1], t)
    {
      PartialEnds(g, i, t);
    }
    hide Partial;
  }

  lemma NothingCounted(g: Adjacency, counts: seq<int>)
    requires |counts| == |g| && forall t | 0 <= t < |g| :: counts[t] == 0
    ensures CountedRows(g, 0, counts) && Sum(counts) == 0
  {
    SumOfZeros(counts);
  }

  // ---------------------------------------------------------------------------------------------
  // Prefix sums.

  ghost predicate LaidUpTo(starts: seq<int>, counts: seq<int>, i: nat)
    requires i <= |starts| == |counts|
  {
    forall t | 0 <= t < i :: starts[t] == Sum(counts[..t])
  }

  lemma StartsAreLaid(g: Adjacency, starts: seq<int>, counts: seq<int>)
    requires |starts| == |g| && 0 < |g| && CountedRows(g, |g|, counts) && LaidUpTo(starts, counts, |g|)
    ensures Laid(g, starts, Sum(counts))
  {
    assert g[..|g|] == g;
    forall t | 0 <= t < |g|
      ensures Sum(counts[..t + 1]) == starts[t] + |IncomingRow(g, t)|
    {
      SumOfPrefix(counts, t);
    }
    assert counts[..|g|] == counts;
    hide IncomingRow;
  }

  lemma SumOfPrefix(s: seq<int>, t: nat)
    requires t < |s|
    ensures Sum(s[..t + 1]) == Sum(s[..t]) + s[t]
  {
    assert s[..t + 1][..t] == s[..t];
  }

  // ---------------------------------------------------------------------------------------------
  // Scattering.

  /** Segment t is filled so far. */
  ghost predicate Filled(row: seq<int>, start: int, count: int, edges: seq<int>) {
    count == |row| && 0 <= start && start + count <= |edges| && edges[start..start + count] == row
  }

  ghost predicate Scattered(g: Adjacency, i: nat, p: nat, starts: seq<int>, scatter: seq<int>, edges: seq<int>)
    requires i < |g| && p <= |g[i]|
  {
    && |starts| == |scatter| == |g|
    && forall t: nat | t < |g| :: Filled(Partial(g, i, p, t), starts[t], scatter[t], edges)
  }

  ghost predicate ScatteredRows(g: Adjacency, i: nat, starts: seq<int>, scatter: seq<int>, edges: seq<int>)
    requires i <= |g|
  {
    && |starts| == |scatter| == |g|
    && forall t: nat | t < |g| :: Filled(IncomingRow(g[..i], t), starts[t], scatter[t], edges)
  }

  lemma ScatterRow(g: Adjacency, i: nat, starts: seq<int>, scatter: seq<int>, edges: seq<int>)
    requires i < |g|
    ensures ScatteredRows(g, i, starts, scatter, edges) <==> Scattered(g, i, 0, starts, scatter, edges)
    ensures ScatteredRows(g, i + 1, starts, scatter, edges) <==> Scattered(g, i, |g[i]|, starts, scatter, edges)
  {
    forall t: nat | t < |g|
      ensures Partial(g, i, 0, t) == IncomingRow(g[..i], t)
      ensures Partial(g, i, |g[i]|, t) == IncomingRow(g[..i + 1], t)
    {
      PartialEnds(g, i, t);
    }
    hide Partial, Filled, IncomingRow;
  }

  /** The next slot of the target's segment exists and has not been written: it lies outside what is
      filled of any segment. So no slot is written twice. */
  lemma NextSlot(g: Adjacency, i: nat, p: nat, starts: seq<int>, scatter: seq<int>, edges: seq<int>, t: nat)
    requires IsGraph(g) && i < |g| && p < |g[i]| && t < |g|
    requires Laid(g, starts, |edges|) && Scattered(g, i, p, starts, scatter, edges)
    ensures var target := g[i][p];
            var slot := starts[target] + scatter[target];
            && 0 <= slot < |edges|
            && (slot < starts[t] || starts[t] + scatter[t] <= slot)
  {
    var target := g[i][p];
    PartialFits(g, i, p);
    SegmentsApart(g, starts, |edges|, target, target);
    assert Filled(Partial(g, i, p, target), starts[target], scatter[target], edges);
    assert Filled(Partial(g, i, p, t), starts[t], scatter[t], edges);
    PartialWithin(g, i, p, t);
    if t < target {
      SegmentsApart(g, starts, |edges|, t, target);
    } else if target < t {
      SegmentsApart(g, starts, |edges|, target, t);
    }
    hide Partial, IncomingRow, Laid;
  }

  lemma PartialWithin(g: Adjacency, i: nat, p: nat, t: int)
    requires i < |g| && p <= |g[i]|
    ensures |Partial(g, i, p, t)| <= |IncomingRow(g, t)|
  {
    PartialEnds(g, i, t);
    IncomingGrows(g, i + 1, t);
    assert g[i] == g[i][..p] + g[i][p..] && g[i][..|g[i]|] == g[i];
    assert multiset(g[i][..p])[t] <= multiset(g[i])[t];
    hide IncomingRow;
  }

  lemma ScatterStep(g: Adjacency, i: nat, p: nat, starts: seq<int>, scatter: seq<int>, edges: seq<int>)
    requires IsGraph(g) && i < |g| && p < |g[i]|
    requires Laid(g, starts, |edges|) && Scattered(g, i, p, starts, scatter, edges)
    ensures var target := g[i][p];
            var slot := starts[target] + scatter[target];
            && 0 <= target < |g| && 0 <= slot < |edges|
            && Scattered(g, i, p + 1, starts, scatter[target := scatter[target] + 1], edges[slot := i])
  {
    hide Laid, IncomingRow, Partial, Filled;
    var target := g[i][p];
    var slot := starts[target] + scatter[target];
    NextSlot(g, i, p, starts, scatter, edges, 0);
    var scatter' := scatter[target := scatter[target] + 1];
    var edges' := edges[slot := i];
    forall t: nat | t < |g|
      ensures Filled(Partial(g, i, p + 1, t), starts[t], scatter'[t], edges')
    {
      SlotStep(g, i, p, starts, scatter, edges, t);
    }
    assert Scattered(g, i, p + 1, starts, scatter', edges');
  }

  lemma SlotStep(g: Adjacency, i: nat, p: nat, starts: seq<int>, scatter: seq<int>, edges: seq<int>, t: nat)
    requires IsGraph(g) && i < |g| && p < |g[i]| && t < |g|
    requires Laid(g, starts, |edges|) && Scattered(g, i, p, starts, scatter, edges)
    ensures var target := g[i][p];
            var slot := starts[target] + scatter[target];
            && 0 <= slot < |edges|
            && Filled(Partial(g, i, p + 1, t), starts[t], scatter[target := scatter[target] + 1][t], edges[slot := i])
  {
    hide Laid, IncomingRow, Partial, Filled;
    var target := g[i][p];
    NextSlot(g, i, p, starts, scatter, edges, t);
    PartialStep(g, i, p, t);
    assert Filled(Partial(g, i, p, t), starts[t], scatter[t], edges);
    assert Partial(g, i, p, t) + [] == Partial(g, i, p, t);
    hide Scattered, IsGraph;
    FillOne(Partial(g, i, p, t), starts[t], scatter[t], edges, starts[target] + scatter[target], i);
  }

  /** Writing behind a segment extends it; writing elsewhere leaves it alone. */
  lemma FillOne(row: seq<int>, start: int, count: int, edges: seq<int>, slot: int, x: int)
    requires Filled(row, start, count, edges) && 0 <= slot < |edges|
    ensures slot < start || start + count <= slot ==> Filled(row, start, count, edges[slot := x])
    ensures slot == start + count ==> Filled(row + [x], start, count + 1, edges[slot := x])
  {
    if slot < start || start + count <= slot {
      assert edges[slot := x][start..start + count] == edges[start..start + count];
    }
    if slot == start + count {
      assert edges[slot := x][start..start + count + 1] == edges[start..start + count] + [x];
    }
  }

  lemma NothingScattered(g: Adjacency, starts: seq<int>, scatter: seq<int>, edges: seq<int>)
    requires 0 < |g| && Laid(g, starts, |edges|) && |scatter| == |g| && forall t | 0 <= t < |g| :: scatter[t] == 0
    ensures ScatteredRows(g, 0, starts, scatter, edges)
  {
    forall t: nat | t < |g|
      ensures Filled(IncomingRow(g[..0], t), starts[t], scatter[t], edges)
    {
      SegmentsApart(g, starts, |edges|, t, t);
    }
  }

  lemma AllScattered(g: Adjacency, starts: seq<int>, scatter: seq<int>, edges: seq<int>)
    requires 0 < |g| && Laid(g, starts, |edges|) && ScatteredRows(g, |g|, starts, scatter, edges)
    ensures IsCsr(starts, edges) && Rows(starts, edges) == Transpose(g)
  {
    assert g[..|g|] == g;
    hide IncomingRow, Laid;
    forall t: nat | t < |g|
      ensures Filled(IncomingRow(g, t), starts[t], |IncomingRow(g, t)|, edges)
    {
      assert Filled(IncomingRow(g[..|g|], t), starts[t], scatter[t], edges);
    }
    EverySlotHasItsPlace(g, starts, edges);
    TransposedCsr(g, starts, edges);
  }

  /** The segments cover the array: each slot lies in one, so it holds a node. */
  lemma EverySlotHasItsPlace(g: Adjacency, starts: seq<int>, edges: seq<int>)
    requires 0 < |g| && Laid(g, starts, |edges|)
    requires forall t: nat | t < |g| :: Filled(IncomingRow(g, t), starts[t], |IncomingRow(g, t)|, edges)
    ensures forall j | 0 <= j < |edges| :: 0 <= edges[j] < |g|
  {
    hide IncomingRow, Laid, Filled;
    forall j | 0 <= j < |edges|
      ensures 0 <= edges[j] < |g|
    {
      LaidTotal(g, starts, |edges|);
      var t := SegmentOf(g, starts, |edges|, j, |g|);
      IncomingIsSorted(g, t);
      FilledAt(IncomingRow(g, t), starts[t], |IncomingRow(g, t)|, edges, j);
    }
  }

  lemma LaidTotal(g: Adjacency, starts: seq<int>, total: int)
    requires Laid(g, starts, total) && 0 < |g|
    ensures |starts| == |g| && total == starts[|g| - 1] + |IncomingRow(g, |g| - 1)|
  {
    hide IncomingRow;
  }

  lemma FilledAt(row: seq<int>, start: int, count: int, edges: seq<int>, j: int)
    requires Filled(row, start, count, edges) && start <= j < start + count
    ensures edges[j] == row[j - start]
  {
  }

  lemma {:induction false} SegmentOf(g: Adjacency, starts: seq<int>, total: int, j: int, n: nat) returns (t: nat)
    requires 0 < n <= |g| && Laid(g, starts, total) && 0 <= j < starts[n - 1] + |IncomingRow(g, n - 1)|
    ensures t < n && starts[t] <= j < starts[t] + |IncomingRow(g, t)|
  {
    t := n - 1;
    if j < starts[t] {
      t := SegmentOf(g, starts, total, j, n - 1);
    }
  }

  // ---------------------------------------------------------------------------------------------
  // The program.

  class Graph {
    const numNodes: nat
    const numEdges: nat
    var outgoingStarts: array<int>
    var outgoingEdges: array<int>
    var incomingStarts: array<int>
    var incomingEdges: array<int>

    /** `build_start` and `build_edges`: the two arrays lie one after the other in the file. */
    constructor (numNodes: nat, numEdges: nat, scratch: array<int>)
      requires numNodes + numEdges <= scratch.Length
      ensures this.numNodes == numNodes && this.numEdges == numEdges
      ensures outgoingStarts[..] == scratch[..numNodes]
      ensures outgoingEdges[..] == scratch[numNodes..numNodes + numEdges]
    {
      var starts := new int[numNodes];
      for i := 0 to numNodes
        invariant starts[..i] == scratch[..i]
        invariant scratch[..] == old(scratch[..])
      {
        starts[i] := scratch[i];
      }
      var edges := new int[numEdges];
      for i := 0 to numEdges
        invariant edges[..i] == scratch[numNodes..numNodes + i]
        invariant starts[..] == scratch[..numNodes]
        invariant scratch[..] == old(scratch[..])
      {
        edges[i] := scratch[numNodes + i];
      }
      this.numNodes := numNodes;
      this.numEdges := numEdges;
      outgoingStarts, outgoingEdges := starts, edges;
      incomingStarts, incomingEdges := new int[0], new int[0];
    }

    ghost predicate Valid()
      reads this, outgoingStarts, outgoingEdges
    {
      && outgoingStarts.Length == numNodes && outgoingEdges.Length == numEdges
      && IsCsr(outgoingStarts[..], outgoingEdges[..])
    }

    ghost function Outgoing(): Adjacency
      requires Valid()
      reads this, outgoingStarts, outgoingEdges
    {
      Rows(outgoingStarts[..], outgoingEdges[..])
    }

    /** The end of a node's stretch of edges, as both loops compute it. */
    method EndEdge(i: nat) returns (end: int)
      requires Valid() && i < numNodes
      ensures end == EndOf(outgoingStarts[..], outgoingEdges[..], i)
    {
      end := if i == numNodes - 1 then numEdges else outgoingStarts[i + 1];
    }

    lemma NodesExist()
      requires Valid()
      ensures 0 < numNodes == |Outgoing()| && outgoingStarts[0] == 0
    {
    }

    /** What a row of the graph says about its stretch of edges. */
    lemma Stretch(i: nat)
      requires Valid() && i < numNodes
      ensures |Outgoing()| == numNodes
      ensures var start, end := outgoingStarts[i], EndOf(outgoingStarts[..], outgoingEdges[..], i);
              && 0 <= start <= end <= numEdges && |Outgoing()[i]| == end - start
              && (forall j | start <= j < end :: outgoingEdges[j] == Outgoing()[i][j - start])
              && (i < numNodes - 1 ==> end == outgoingStarts[i + 1]) && (i == numNodes - 1 ==> end == numEdges)
    {
    }

    // `build_incoming_edges` is one function in the program; its three loops are three methods here.

    /** The number of edges into each node. */
    method CountIncoming(nodeCounts: array<int>)
      requires Valid() && nodeCounts != outgoingStarts && nodeCounts != outgoingEdges
      requires nodeCounts.Length == numNodes && forall t | 0 <= t < numNodes :: nodeCounts[t] == 0
      modifies nodeCounts
      ensures CountedRows(Outgoing(), numNodes, nodeCounts[..]) && Sum(nodeCounts[..]) == numEdges
    {
      hide Partial, IncomingRow, Counted, CountedRows, Sum, Rows, IsGraph, IsCsr, EndOf;
      ghost var g := Outgoing();
      NodesExist();
      RowsAreGraph(outgoingStarts[..], outgoingEdges[..]);
      NothingCounted(g, nodeCounts[..]);
      var totalEdges := 0;
      for i := 0 to numNodes
        invariant CountedRows(g, i, nodeCounts[..])
        invariant totalEdges == Sum(nodeCounts[..]) == if i < numNodes then outgoingStarts[i] else numEdges
      {
        Stretch(i);
        CountRow(g, i, nodeCounts[..]);
        var startEdge := outgoingStarts[i];
        var endEdge := EndEdge(i);
        for j := startEdge to endEdge
          invariant Counted(g, i, j - startEdge, nodeCounts[..]) && totalEdges == Sum(nodeCounts[..]) == j
        {
          CountStep(g, i, j - startEdge, nodeCounts[..]);
          var targetNode := outgoingEdges[j];
          ghost var before := nodeCounts[..];
          nodeCounts[targetNode] := nodeCounts[targetNode] + 1;
          assert nodeCounts[..] == before[targetNode := before[targetNode] + 1];
          totalEdges := totalEdges + 1;
        }
        CountRow(g, i, nodeCounts[..]);
      }
    }

    /** Where each node's incoming edges begin. */
    method StartIncoming(nodeCounts: array<int>, starts: array<int>)
      requires 0 < starts.Length == nodeCounts.Length && starts != nodeCounts
      modifies starts
      ensures LaidUpTo(starts[..], nodeCounts[..], starts.Length)
      ensures nodeCounts[..] == old(nodeCounts[..])
    {
      starts[0] := 0;
      for i := 1 to starts.Length
        invariant LaidUpTo(starts[..], nodeCounts[..], i)
        invariant nodeCounts[..] == old(nodeCounts[..])
      {
        starts[i] := starts[i - 1] + nodeCounts[i - 1];
        SumOfPrefix(nodeCounts[..], i - 1);
      }
    }

    /** Every edge puts its source into the next slot of its target. */
    method ScatterIncoming(starts: array<int>, nodeScatter: array<int>, edges: array<int>)
      requires Valid() && edges.Length == numEdges && Laid(Outgoing(), starts[..], numEdges)
      requires nodeScatter.Length == numNodes && forall t | 0 <= t < numNodes :: nodeScatter[t] == 0
      requires starts != nodeScatter && starts != edges && nodeScatter != edges
      requires nodeScatter != outgoingStarts && nodeScatter != outgoingEdges && edges != outgoingStarts
      requires edges != outgoingEdges
      modifies nodeScatter, edges
      ensures ScatteredRows(Outgoing(), numNodes, starts[..], nodeScatter[..], edges[..])
    {
      hide Partial, IncomingRow, Scattered, ScatteredRows, Laid, Rows, IsGraph, IsCsr, EndOf, Filled;
      ghost var g := Outgoing();
      NodesExist();
      RowsAreGraph(outgoingStarts[..], outgoingEdges[..]);
      NothingScattered(g, starts[..], nodeScatter[..], edges[..]);
      for i := 0 to numNodes
        invariant ScatteredRows(g, i, starts[..], nodeScatter[..], edges[..])
      {
        Stretch(i);
        ScatterRow(g, i, starts[..], nodeScatter[..], edges[..]);
        var startEdge := outgoingStarts[i];
        var endEdge := EndEdge(i);
        for j := startEdge to endEdge
          invariant Scattered(g, i, j - startEdge, starts[..], nodeScatter[..], edges[..])
        {
          ScatterStep(g, i, j - startEdge, starts[..], nodeScatter[..], edges[..]);
          var targetNode := outgoingEdges[j];
          ghost var scatter, filled := nodeScatter[..], edges[..];
          edges[starts[targetNode] + nodeScatter[targetNode]] := i;
          nodeScatter[targetNode] := nodeScatter[targetNode] + 1;
          assert nodeScatter[..] == scatter[targetNode := scatter[targetNode] + 1];
          assert edges[..] == filled[starts[targetNode] + scatter[targetNode] := i];
        }
        ScatterRow(g, i, starts[..], nodeScatter[..], edges[..]);
      }
    }

    /** The incoming edges become the transposed graph, and every slot of them is used. */
    method BuildIncomingEdges()
      requires Valid()
      modifies this`incomingStarts, this`incomingEdges
      ensures Valid() && Outgoing() == old(Outgoing())
      ensures fresh(incomingStarts) && fresh(incomingEdges)
      ensures IsCsr(incomingStarts[..], incomingEdges[..]) && incomingEdges.Length == numEdges
      ensures Rows(incomingStarts[..], incomingEdges[..]) == Transpose(Outgoing())
    {
      hide CountedRows, ScatteredRows, Laid, Sum, Rows, Transpose, IsCsr, EndOf;
      ghost var g := Outgoing();
      NodesExist();
      var nodeCounts := new int[numNodes](_ => 0);
      var nodeScatter := new int[numNodes](_ => 0);
      incomingStarts := new int[numNodes];
      incomingEdges := new int[numEdges];
      CountIncoming(nodeCounts);
      StartIncoming(nodeCounts, incomingStarts);
      StartsAreLaid(g, incomingStarts[..], nodeCounts[..]);
      ScatterIncoming(incomingStarts, nodeScatter, incomingEdges);
      AllScattered(g, incomingStarts[..], nodeScatter[..], incomingEdges[..]);
    }
  }
}
