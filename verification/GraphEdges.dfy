/**
  Iteration over the edges of the CS207 graph (EdgeIterator in Harvard/CS207/Graph.hpp).  Every edge is
  stored at both ends; the iterator stops at the end with the smaller uid, and so at each edge once.
 */
module GraphEdges {
  import opened SlotGraph

  /** An edge as the iterator yields it: the row, the neighbour and the edge's id. */
  datatype EdgeRef = EdgeRef(u: nat, v: nat, id: nat)

  /** The entries of row `u` from position `j` on that the iterator stops at. */
  function RowEdges(row: seq<Half>, u: nat, j: nat): seq<EdgeRef>
    decreases |row| - j
  {
    if j >= |row| then []
    else (if row[j].first < u then [] else [EdgeRef(u, row[j].first, row[j].second)]) + RowEdges(row, u, j + 1)
  }

  /** What is left to visit from row `i`, position `j`. */
  function EdgesFrom(rows: Rows, i: nat, j: nat): seq<EdgeRef>
    decreases |rows| - i
  {
    if i >= |rows| then [] else RowEdges(rows[i], i, j) + EdgesFrom(rows, i + 1, 0)
  }

  lemma RowDone(rows: Rows, i: nat, j: nat)
    requires i < |rows| && j >= |rows[i]|
    ensures EdgesFrom(rows, i, j) == EdgesFrom(rows, i + 1, 0)
  {
  }

  lemma EntrySkipped(rows: Rows, i: nat, j: nat)
    requires i < |rows| && j < |rows[i]| && rows[i][j].first < i
    ensures EdgesFrom(rows, i, j) == EdgesFrom(rows, i, j + 1)
  {
  }

  lemma EntryTaken(rows: Rows, i: nat, j: nat)
    requires i < |rows| && j < |rows[i]| && rows[i][j].first >= i
    ensures EdgesFrom(rows, i, j) == [EdgeRef(i, rows[i][j].first, rows[i][j].second)] + EdgesFrom(rows, i, j + 1)
  {
  }

  class EdgeIterator {
    const rows: Rows
    var i: nat
    var j: nat

    /** At the end, or at an entry of the end with the smaller uid. */
    ghost predicate Fixed()
      reads this
    {
      if i < |rows| then j < |rows[i]| && rows[i][j].first >= i else j == 0
    }

    constructor (rows: Rows, i0: nat, j0: nat)
      requires i0 <= |rows| && (i0 == |rows| ==> j0 == 0)
      ensures this.rows == rows && Fixed() && i <= |rows| && EdgesFrom(rows, i, j) == EdgesFrom(rows, i0, j0)
    {
      this.rows, this.i, this.j := rows, i0, j0;
      new;
      Fix();
    }

    /** fix: leaves finished rows and empty rows, and entries that another row has already yielded. */
    method Fix()
      requires i <= |rows| && (i == |rows| ==> j == 0)
      modifies this
      ensures Fixed() && i <= |rows| && EdgesFrom(rows, i, j) == EdgesFrom(rows, old(i), old(j))
      ensures old(i) < i || (old(i) == i && old(j) <= j)
      ensures old(Fixed()) ==> i == old(i) && j == old(j)
    {
      hide EdgesFrom;
      if i >= |rows| {
        return;
      }
      if j >= |rows[i]| {
        RowDone(rows, i, j);
        i, j := i + 1, 0;
      }
      SkipEmpty();
      while i < |rows| && rows[i][j].first < i
        invariant i <= |rows| && (if i < |rows| then j < |rows[i]| else j == 0)
        invariant EdgesFrom(rows, i, j) == EdgesFrom(rows, old(i), old(j))
        invariant old(i) < i || (old(i) == i && old(j) <= j)
        invariant old(Fixed()) ==> i == old(i) && j == old(j)
        decreases |rows| - i, if i < |rows| then |rows[i]| - j else 0
      {
        EntrySkipped(rows, i, j);
        j := j + 1;
        if j >= |rows[i]| {
          RowDone(rows, i, j);
          i, j := i + 1, 0;
        }
        SkipEmpty();
      }
    }

    /** The loop of fix over empty rows. */
    method SkipEmpty()
      requires i <= |rows| && (if i < |rows| then j < |rows[i]| || j == 0 else j == 0)
      modifies this
      ensures i <= |rows| && (if i < |rows| then j < |rows[i]| else j == 0)
      ensures EdgesFrom(rows, i, j) == EdgesFrom(rows, old(i), old(j))
      ensures old(i) < i || (old(i) == i && old(j) == j)
      ensures old(i < |rows| && j < |rows[i]|) ==> i == old(i) && j == old(j)
    {
      hide EdgesFrom;
      while i < |rows| && |rows[i]| == 0
        invariant i <= |rows| && (if i < |rows| then j < |rows[i]| || j == 0 else j == 0)
        invariant EdgesFrom(rows, i, j) == EdgesFrom(rows, old(i), old(j))
        invariant old(i) < i || (old(i) == i && old(j) == j)
        invariant old(i < |rows| && j < |rows[i]|) ==> i == old(i) && j == old(j)
      {
        RowDone(rows, i, j);
        i := i + 1;
      }
    }

    /** operator* */
    method Get() returns (e: EdgeRef)
      requires Fixed() && i < |rows|
      modifies this
      ensures i == old(i) && j == old(j) && e == EdgeRef(i, rows[i][j].first, rows[i][j].second)
    {
      Fix();
      e := EdgeRef(i, rows[i][j].first, rows[i][j].second);
    }

    /** operator++ */
    method Next()
      requires Fixed() && i <= |rows|
      modifies this
      ensures Fixed() && i <= |rows|
      ensures old(i) < |rows| ==> old(i) < i || (old(i) == i && old(j) < j)
      ensures old(i) < |rows| ==>
        EdgesFrom(rows, old(i), old(j)) == [EdgeRef(old(i), rows[old(i)][old(j)].first, rows[old(i)][old(j)].second)] + EdgesFrom(rows, i, j)
      ensures old(i) == |rows| ==> i == old(i) && j == old(j)
    {
      hide EdgesFrom;
      if i < |rows| {
        EntryTaken(rows, i, j);
        j := j + 1;
      }
      Fix();
    }
  }

  /** From edge_begin() to edge_end(). */
  method AllEdges(rows: Rows) returns (list: seq<EdgeRef>)
    ensures list == EdgesFrom(rows, 0, 0)
  {
    list := [];
    var it := new EdgeIterator(rows, 0, 0);
    while !(it.i == |rows| && it.j == 0)
      invariant it.rows == rows && it.Fixed() && it.i <= |rows|
      invariant EdgesFrom(rows, 0, 0) == list + EdgesFrom(rows, it.i, it.j)
      decreases |rows| - it.i, if it.i < |rows| then |rows[it.i]| - it.j else 0
    {
      hide EdgesFrom;
      var e := it.Get();
      it.Next();
      list := list + [e];
    }
  }

  // ---------------------------------------------------------------------------------------------
  // Each edge once.

  /** The row stores `e`'s other end at position `j` or later. */
  ghost predicate StoredFrom(row: seq<Half>, j: nat, e: EdgeRef) {
    exists i :: j <= i < |row| && row[i] == Half(e.v, e.id)
  }

  lemma StoredNext(row: seq<Half>, j: nat, e: EdgeRef)
    requires j < |row|
    ensures StoredFrom(row, j, e) <==> row[j] == Half(e.v, e.id) || StoredFrom(row, j + 1, e)
  {
    if row[j] == Half(e.v, e.id) {
      assert j <= j < |row|;
    }
  }

  lemma {:induction false} RowMembers(row: seq<Half>, u: nat, j: nat, e: EdgeRef)
    ensures e in RowEdges(row, u, j) <==> e.u == u && e.v >= u && StoredFrom(row, j, e)
    decreases |row| - j
  {
    if j < |row| {
      RowMembers(row, u, j + 1, e);
      StoredNext(row, j, e);
      hide StoredFrom;
    }
  }

  lemma StoredAdj(rows: Rows, e: EdgeRef)
    ensures e.u < |rows| ==> (StoredFrom(rows[e.u], 0, e) <==> Adj(rows, e.u, e.v, e.id))
  {
  }

  lemma {:induction false} Members(rows: Rows, i: nat, e: EdgeRef)
    requires i <= |rows|
    ensures e in EdgesFrom(rows, i, 0) <==> i <= e.u && e.u <= e.v && Adj(rows, e.u, e.v, e.id)
    decreases |rows| - i
  {
    if i < |rows| {
      Members(rows, i + 1, e);
      RowMembers(rows[i], i, 0, e);
      StoredAdj(rows, e);
      hide Adj, StoredFrom;
    }
  }

  /** No two entries join the same nodes. */
  ghost predicate DistinctPairs(list: seq<EdgeRef>) {
    forall m, n :: 0 <= m < n < |list| ==> !(list[m].u == list[n].u && list[m].v == list[n].v)
  }

  lemma {:induction false} RowDistinct(row: seq<Half>, u: nat, j: nat)
    requires RowOk(row)
    ensures DistinctPairs(RowEdges(row, u, j))
    decreases |row| - j
  {
    if j < |row| {
      RowDistinct(row, u, j + 1);
      var rest := RowEdges(row, u, j + 1);
      forall n | 0 <= n < |rest| ensures rest[n].v != row[j].first {
        RowMembers(row, u, j + 1, rest[n]);
        assert rest[n] in rest && StoredFrom(row, j + 1, rest[n]);
      }
    }
  }

  lemma {:induction false} AllDistinct(rows: Rows, nedges: nat, i: nat)
    requires RowsOk(rows, nedges) && i <= |rows|
    ensures DistinctPairs(EdgesFrom(rows, i, 0))
    decreases |rows| - i
  {
    if i < |rows| {
      AllDistinct(rows, nedges, i + 1);
      RowDistinct(rows[i], i, 0);
      var head, rest := RowEdges(rows[i], i, 0), EdgesFrom(rows, i + 1, 0);
      forall m, n | 0 <= m < |head| && 0 <= n < |rest| ensures head[m].u != rest[n].u {
        RowMembers(rows[i], i, 0, head[m]);
        Members(rows, i + 1, rest[n]);
      }
    }
  }

  ghost function PairsOf(list: seq<EdgeRef>): set<(nat, nat)> {
    set n | 0 <= n < |list| :: (list[n].u, list[n].v)
  }

  lemma {:induction false} DistinctCount(list: seq<EdgeRef>)
    requires DistinctPairs(list)
    ensures |PairsOf(list)| == |list|
  {
    if list != [] {
      var init, last := list[..|list| - 1], list[|list| - 1];
      DistinctCount(init);
      assert PairsOf(list) == PairsOf(init) + {(last.u, last.v)};
      assert (last.u, last.v) !in PairsOf(init);
    }
  }

  ghost function Swapped(s: set<(nat, nat)>): set<(nat, nat)> {
    set p | p in s :: (p.1, p.0)
  }

  lemma {:induction false} SwapCount(s: set<(nat, nat)>)
    ensures |Swapped(s)| == |s|
  {
    if s != {} {
      var p :| p in s;
      SwapCount(s - {p});
      assert Swapped(s) == Swapped(s - {p}) + {(p.1, p.0)};
      assert (p.1, p.0) !in Swapped(s - {p});
    }
  }

  ghost function Upper(s: set<(nat, nat)>): set<(nat, nat)> {
    set p | p in s && p.0 < p.1
  }

  /** Every neighbour pair is stored both ways: half of the pairs are ascending. */
  lemma HalfUpper(rows: Rows, nedges: nat)
    requires RowsOk(rows, nedges)
    ensures |Pairs(rows)| == 2 * |Upper(Pairs(rows))|
  {
    var s := Pairs(rows);
    forall u: nat, v: nat ensures (u, v) in s <==> (v, u) in s {
      PairSwap(rows, nedges, u, v);
      PairSwap(rows, nedges, v, u);
    }
    forall u: nat ensures (u, u) !in s {
      PairIff(rows, u, u);
    }
    hide Pairs;
    UpperHalf(s);
  }

  /** A symmetric relation without loops has as many ascending pairs as descending ones. */
  lemma UpperHalf(s: set<(nat, nat)>)
    requires forall u: nat, v: nat :: (u, v) in s <==> (v, u) in s
    requires forall u: nat :: (u, u) !in s
    ensures |s| == 2 * |Upper(s)|
  {
    var up, low := Upper(s), Swapped(Upper(s));
    SwapCount(up);
    forall u: nat, v: nat ensures (u, v) in low <==> (v, u) in up {
      if (v, u) in up {
        assert (v, u).1 == u;
      }
    }
    hide Swapped;
    forall p ensures p in s <==> p in up + low {
      assert p == (p.0, p.1);
    }
    assert s == up + low && up !! low;
  }

  lemma PairSwap(rows: Rows, nedges: nat, u: nat, v: nat)
    requires RowsOk(rows, nedges)
    ensures (u, v) in Pairs(rows) ==> (v, u) in Pairs(rows)
  {
    PairIff(rows, u, v);
    PairIff(rows, v, u);
    hide Pairs, Adj;
    if id: nat :| Adj(rows, u, v, id) {
      assert Adj(rows, v, u, id);
    }
  }

  /**
    Edge iteration visits each undirected edge of a graph exactly once: every entry is an edge, every
    edge has exactly one position, at the end with the smaller uid, and there are edge_size_ of them.
   */
  lemma EachEdgeOnce<V>(k: Rep<V>, nedges: nat)
    requires Ok(k, nedges)
    ensures forall e: EdgeRef :: e in EdgesFrom(k.adjacent, 0, 0) <==> e.u < e.v && Adj(k.adjacent, e.u, e.v, e.id)
    ensures DistinctPairs(EdgesFrom(k.adjacent, 0, 0))
    ensures |EdgesFrom(k.adjacent, 0, 0)| == k.edgeSize
  {
    var rows := k.adjacent;
    var list := EdgesFrom(rows, 0, 0);
    forall e: EdgeRef ensures e in list <==> e.u < e.v && Adj(rows, e.u, e.v, e.id) {
      Members(rows, 0, e);
      assert Adj(rows, e.u, e.v, e.id) ==> e.u != e.v;
    }
    AllDistinct(rows, nedges, 0);
    DistinctCount(list);
    HalfUpper(rows, nedges);
    hide SlotsOk, EndsLive, EdgesFrom, DistinctPairs;
    UpperIs(rows, list);
  }

  lemma UpperIs(rows: Rows, list: seq<EdgeRef>)
    requires forall e: EdgeRef :: e in list <==> e.u < e.v && Adj(rows, e.u, e.v, e.id)
    ensures PairsOf(list) == Upper(Pairs(rows))
  {
    hide Pairs, Adj;
    forall u: nat, v: nat ensures (u, v) in PairsOf(list) <==> (u, v) in Upper(Pairs(rows)) {
      PairIff(rows, u, v);
      if (u, v) in PairsOf(list) {
        var n :| 0 <= n < |list| && (list[n].u, list[n].v) == (u, v);
        assert list[n] in list;
        assert Adj(rows, u, v, list[n].id);
      }
      if (u, v) in Upper(Pairs(rows)) {
        var id: nat :| Adj(rows, u, v, id);
        assert EdgeRef(u, v, id) in list;
      }
    }
    forall p ensures p in PairsOf(list) <==> p in Upper(Pairs(rows)) {
      assert p == (p.0, p.1);
    }
  }
}
