/**
  The undirected graph of CS207 (Harvard/CS207/Graph.hpp): nodes keep their uid while their index moves,
  removed uids are chained through the `index` field for reuse, and every edge is stored at both ends.
 */
module SlotGraph {

  datatype NodeRec<V> = NodeRec(index: int, uid: nat, value: V)

  /** One end of an edge, as the row of the other end stores it: the neighbour and the edge's data. */
  datatype Half = Half(first: nat, second: nat)

  type Rows = seq<seq<Half>>

  /** The fields of the graph; `free` is the chain of removed uids that starts at free_uid_. */
  datatype Rep<V> = Rep(nodes: seq<NodeRec<V>>, i2u: seq<nat>, freeUid: int, adjacent: Rows, edgeSize: int, free: seq<nat>)

  // ---------------------------------------------------------------------------------------------
  // The slot map.

  ghost predicate Live<V>(k: Rep<V>, u: nat) {
    u < |k.nodes| && 0 <= k.nodes[u].index < |k.i2u| && k.i2u[k.nodes[u].index] == u
  }

  ghost predicate Dead<V>(k: Rep<V>, u: nat) {
    u in k.free
  }

  ghost predicate NoDup(s: seq<nat>) {
    forall i, j :: 0 <= i < j < |s| ==> s[i] != s[j]
  }

  function After(free: seq<nat>, i: nat): int {
    if i < |free| then free[i] else -1
  }

  /** Index `i` names a node that knows its index and its uid. */
  ghost predicate IndexOk<V>(nodes: seq<NodeRec<V>>, i2u: seq<nat>, i: nat)
    requires i < |i2u|
  {
    i2u[i] < |nodes| && nodes[i2u[i]].index == i && nodes[i2u[i]].uid == i2u[i]
  }

  /** The free chain goes from its `i`-th uid to the next. */
  ghost predicate ChainedAt<V>(nodes: seq<NodeRec<V>>, free: seq<nat>, i: nat)
    requires i < |free|
  {
    free[i] < |nodes| && nodes[free[i]].index == After(free, i + 1)
  }

  /** `i2u_` and `index` are mutual inverses on the live nodes, and the free chain has exactly the others. */
  ghost predicate SlotsOk<V>(k: Rep<V>) {
    && (forall i: nat {:trigger IndexOk(k.nodes, k.i2u, i)} :: i < |k.i2u| ==> IndexOk(k.nodes, k.i2u, i))
    && k.freeUid == After(k.free, 0) && NoDup(k.free)
    && (forall i: nat {:trigger ChainedAt(k.nodes, k.free, i)} :: i < |k.free| ==> ChainedAt(k.nodes, k.free, i))
    && (forall u: nat {:trigger Dead(k, u)} {:trigger Live(k, u)} :: u < |k.nodes| ==> (Dead(k, u) <==> !Live(k, u)))
  }

  datatype Answer = Yes | No | OutOfBounds

  /** Node::valid(), which compares `index` as a signed number and then reads i2u_ at it. */
  function NodeValid<V>(k: Rep<V>, u: nat): Answer {
    if !(u < |k.nodes| && k.nodes[u].index < |k.i2u|) then No
    else if k.nodes[u].index < 0 then OutOfBounds
    else if k.i2u[k.nodes[u].index] == u && k.nodes[u].uid == u then Yes
    else No
  }

  /** It answers whether the node is live, but reads outside of i2u_ for exactly one removed uid, the end of the free chain. */
  lemma NodeValidIff<V>(k: Rep<V>, u: nat)
    requires SlotsOk(k) && u < |k.nodes|
    ensures NodeValid(k, u).OutOfBounds? <==> k.free != [] && u == k.free[|k.free| - 1]
    ensures !NodeValid(k, u).OutOfBounds? ==> (NodeValid(k, u).Yes? <==> Live(k, u))
  {
    if Live(k, u) {
      assert IndexOk(k.nodes, k.i2u, k.nodes[u].index);
      assert !Dead(k, u);
    } else {
      assert Dead(k, u);
      var i: nat :| i < |k.free| && k.free[i] == u;
      assert ChainedAt(k.nodes, k.free, i);
    }
  }

  /** A Node: a uid of this graph, or a node of another graph with its uid and index there. */
  datatype Handle = Mine(uid: nat) | Foreign(uid: nat, index: nat)

  /** What a call does: it returns, or an assertion fails, or valid() reads outside of i2u_. */
  datatype Outcome = Returned(n: nat) | AssertionFailed | OutOfBoundsRead

  /** has_node, which asserts valid() before it compares. */
  function HasNode<V>(k: Rep<V>, h: Handle): Outcome {
    match h
    case Mine(u) =>
      (match NodeValid(k, u)
       case Yes => Returned(1)
       case No => AssertionFailed
       case OutOfBounds => OutOfBoundsRead)
    case Foreign(u, i) => if i < |k.i2u| && u < |k.nodes| then Returned(0) else AssertionFailed
  }

  /**
    has_node never answers 0 for a node of this graph: it answers 1 for a live node, and for any other
    the assertion fails, except at the end of the free chain.
   */
  lemma HasNodeIff<V>(k: Rep<V>, u: nat)
    requires SlotsOk(k)
    ensures HasNode(k, Mine(u)) == Returned(1) <==> Live(k, u)
    ensures HasNode(k, Mine(u)).OutOfBoundsRead? <==> k.free != [] && u == k.free[|k.free| - 1]
    ensures HasNode(k, Mine(u)) != Returned(0)
  {
    if u < |k.nodes| {
      NodeValidIff(k, u);
      assert k.free != [] && u == k.free[|k.free| - 1] ==> Dead(k, u);
    } else if k.free != [] {
      assert ChainedAt(k.nodes, k.free, |k.free| - 1);
    }
  }

  /** A node in a new slot. */
  lemma PushSlot<V>(k: Rep<V>, v: V, k': Rep<V>)
    requires SlotsOk(k) && k.freeUid == -1
    requires k' == k.(nodes := k.nodes + [NodeRec(|k.i2u|, |k.nodes|, v)], i2u := k.i2u + [|k.nodes|], adjacent := k.adjacent + [[]])
    ensures SlotsOk(k') && forall w: nat {:trigger Live(k', w)} :: Live(k', w) <==> Live(k, w) || w == |k.nodes|
  {
    var u := |k.nodes|;
    assert k.free == [];
    forall i: nat | i < |k'.i2u| ensures IndexOk(k'.nodes, k'.i2u, i) {
      assert i < |k.i2u| ==> IndexOk(k.nodes, k.i2u, i);
    }
    forall w: nat ensures Live(k', w) <==> Live(k, w) || w == u {
      if w < |k.nodes| {
        assert Dead(k, w) <==> !Live(k, w);
      }
    }
  }

  /** A node in the slot of the uid that was removed last. */
  lemma ReuseSlot<V>(k: Rep<V>, v: V, u: nat, k': Rep<V>)
    requires SlotsOk(k) && k.free != [] && u == k.free[0] && u < |k.nodes| && u < |k.adjacent|
    requires k' == k.(nodes := k.nodes[u := NodeRec(|k.i2u|, u, v)], i2u := k.i2u + [u], freeUid := k.nodes[u].index,
                      adjacent := k.adjacent[u := []], free := k.free[1..])
    ensures SlotsOk(k') && !Live(k, u) && forall w: nat {:trigger Live(k', w)} :: Live(k', w) <==> Live(k, w) || w == u
  {
    assert Dead(k, u) && ChainedAt(k.nodes, k.free, 0);
    assert !Live(k, u);
    forall i: nat | i < |k'.i2u| ensures IndexOk(k'.nodes, k'.i2u, i) {
      if i < |k.i2u| {
        assert IndexOk(k.nodes, k.i2u, i);
        assert k.i2u[i] != u;
      }
    }
    forall i: nat | i < |k'.free| ensures ChainedAt(k'.nodes, k'.free, i) {
      assert ChainedAt(k.nodes, k.free, i + 1);
    }
    forall w: nat ensures Live(k', w) <==> Live(k, w) || w == u {
    }
    assert k.free == [u] + k'.free;
    forall w: nat | w < |k'.nodes| ensures Dead(k', w) <==> !Live(k', w) {
      assert Dead(k, w) <==> !Live(k, w);
      assert Dead(k', w) <==> Dead(k, w) && w != u;
    }
  }

  /** Swap with the last index, pop, and chain the uid: every other node keeps its uid. */
  lemma PopSlot<V>(k: Rep<V>, u: nat, last: nat, k': Rep<V>)
    requires SlotsOk(k) && Live(k, u) && last == k.i2u[|k.i2u| - 1] && last < |k.nodes|
    requires var moved := k.nodes[last := k.nodes[last].(index := k.nodes[u].index)];
      k' == k.(i2u := k.i2u[k.nodes[u].index := last][..|k.i2u| - 1], nodes := moved[u := moved[u].(index := k.freeUid)],
               freeUid := u, free := [u] + k.free)
    ensures SlotsOk(k') && forall w: nat {:trigger Live(k', w)} :: Live(k', w) <==> Live(k, w) && w != u
  {
    var i0 := k.nodes[u].index;
    assert IndexOk(k.nodes, k.i2u, i0) && IndexOk(k.nodes, k.i2u, |k.i2u| - 1);
    assert !Dead(k, u) && !Dead(k, last);
    forall i: nat | i < |k'.i2u| ensures IndexOk(k'.nodes, k'.i2u, i) && k'.i2u[i] != u && Live(k, k'.i2u[i]) {
      assert IndexOk(k.nodes, k.i2u, i);
    }
    forall i: nat | i < |k'.free| ensures ChainedAt(k'.nodes, k'.free, i) {
      if i > 0 {
        assert ChainedAt(k.nodes, k.free, i - 1);
        assert Dead(k, k.free[i - 1]);
      }
    }
    forall w: nat ensures Live(k', w) <==> Live(k, w) && w != u {
      if Live(k, w) && w != u {
        assert IndexOk(k.nodes, k.i2u, k.nodes[w].index);
        assert w != last ==> k.nodes[w].index < |k.i2u| - 1 && k.nodes[w].index != i0;
      }
    }
    forall w: nat | w < |k'.nodes| ensures Dead(k', w) <==> !Live(k', w) {
      assert Dead(k, w) <==> !Live(k, w);
      assert Dead(k', w) <==> Dead(k, w) || w == u;
    }
    assert NoDup(k'.free) by {
      forall i, j | 0 <= i < j < |k'.free| ensures k'.free[i] != k'.free[j] {
        assert Dead(k, k.free[j - 1]);
      }
    }
  }

  // ---------------------------------------------------------------------------------------------
  // The adjacency lists.

  ghost predicate Adj(rows: Rows, u: nat, v: nat, id: nat) {
    u < |rows| && Half(v, id) in rows[u]
  }

  ghost predicate RowOk(row: seq<Half>) {
    forall i, j :: 0 <= i < j < |row| ==> row[i].first != row[j].first
  }

  /** The ordered pairs of neighbours. */
  ghost function Pairs(rows: Rows): set<(nat, nat)> {
    set u: nat, i: nat | u < |rows| && i < |rows[u]| :: (u, rows[u][i].first)
  }

  /** Every edge is stored at both ends under one id that no other edge has, once, and between different nodes. */
  ghost predicate RowsOk(rows: Rows, nedges: nat) {
    && (forall u: nat {:trigger rows[u]} :: u < |rows| ==> RowOk(rows[u]))
    && (forall u: nat, v: nat, id: nat {:trigger Adj(rows, u, v, id)} :: Adj(rows, u, v, id) ==> u != v && id < nedges && Adj(rows, v, u, id))
    && (forall u: nat, v: nat, w: nat, x: nat, id: nat {:trigger Adj(rows, u, v, id), Adj(rows, w, x, id)} ::
          Adj(rows, u, v, id) && Adj(rows, w, x, id) ==> (w == u && x == v) || (w == v && x == u))
  }

  ghost predicate EndsLive<V>(k: Rep<V>) {
    forall u: nat, v: nat, id: nat {:trigger Adj(k.adjacent, u, v, id)} :: Adj(k.adjacent, u, v, id) ==> Live(k, u)
  }

  ghost predicate Ok<V>(k: Rep<V>, nedges: nat) {
    && SlotsOk(k) && |k.adjacent| == |k.nodes|
    && RowsOk(k.adjacent, nedges) && EndsLive(k)
    && |Pairs(k.adjacent)| == 2 * k.edgeSize
  }

  lemma PairIff(rows: Rows, u: nat, v: nat)
    ensures (u, v) in Pairs(rows) <==> exists id: nat :: Adj(rows, u, v, id)
  {
    if (u, v) in Pairs(rows) {
      var i: nat :| u < |rows| && i < |rows[u]| && rows[u][i].first == v;
      assert Adj(rows, u, v, rows[u][i].second);
    }
    if id: nat :| Adj(rows, u, v, id) {
      var i :| 0 <= i < |rows[u]| && rows[u][i] == Half(v, id);
      assert (u, rows[u][i].first) in Pairs(rows);
    }
  }

  /** The edge between `a` and `b`, whatever its id, in either direction. */
  predicate Between(a: nat, b: nat, u: nat, v: nat) {
    (u == a && v == b) || (u == b && v == a)
  }

  /** `rows` with the edge `id` between `a` and `b` besides its own. */
  ghost predicate Added(rows: Rows, a: nat, b: nat, id0: nat, rows': Rows) {
    |rows'| == |rows| &&
    forall u: nat, v: nat, id: nat {:trigger Adj(rows', u, v, id)} ::
      Adj(rows', u, v, id) <==> Adj(rows, u, v, id) || (Between(a, b, u, v) && id == id0)
  }

  ghost predicate Removed(rows: Rows, a: nat, b: nat, rows': Rows) {
    |rows'| == |rows| &&
    forall u: nat, v: nat, id: nat {:trigger Adj(rows', u, v, id)} ::
      Adj(rows', u, v, id) <==> Adj(rows, u, v, id) && !Between(a, b, u, v)
  }

  function Append(rows: Rows, a: nat, h: Half): Rows
    requires a < |rows|
  {
    rows[a := rows[a] + [h]]
  }

  /** Appending to one row. */
  lemma AppendAdj(rows: Rows, a: nat, h: Half)
    requires a < |rows|
    ensures forall u: nat, v: nat, id: nat {:trigger Adj(Append(rows, a, h), u, v, id)} ::
      Adj(Append(rows, a, h), u, v, id) <==> Adj(rows, u, v, id) || (u == a && Half(v, id) == h)
  {
  }

  lemma AppendRow(row: seq<Half>, h: Half)
    requires RowOk(row) && forall x :: x in row ==> x.first != h.first
    ensures RowOk(row + [h])
  {
    var row' := row + [h];
    forall i, j | 0 <= i < j < |row'| ensures row'[i].first != row'[j].first {
      assert row'[i] in row;
    }
  }

  lemma AddRows(rows: Rows, nedges: nat, a: nat, b: nat)
    requires RowsOk(rows, nedges) && a < |rows| && b < |rows| && a != b
    requires forall id: nat {:trigger Adj(rows, a, b, id)} :: !Adj(rows, a, b, id)
    ensures var rows' := Append(Append(rows, a, Half(b, nedges)), b, Half(a, nedges));
      RowsOk(rows', nedges + 1) && Added(rows, a, b, nedges, rows')
  {
    var rows1 := Append(rows, a, Half(b, nedges));
    var rows' := Append(rows1, b, Half(a, nedges));
    AppendAdj(rows, a, Half(b, nedges));
    AppendAdj(rows1, b, Half(a, nedges));
    assert Added(rows, a, b, nedges, rows');
    forall x | x in rows[a] ensures x.first != b {
      assert Adj(rows, a, x.first, x.second);
    }
    forall x | x in rows[b] ensures x.first != a {
      assert Adj(rows, b, x.first, x.second) ==> Adj(rows, x.first, b, x.second);
    }
    AppendRow(rows[a], Half(b, nedges));
    AppendRow(rows[b], Half(a, nedges));
    hide RowOk;
    forall u: nat, v: nat, id: nat | Adj(rows', u, v, id) ensures u != v && id < nedges + 1 && Adj(rows', v, u, id) {
      assert Adj(rows, u, v, id) || id == nedges;
    }
  }

  lemma AddPairs(rows: Rows, a: nat, b: nat, id0: nat, rows': Rows)
    requires Added(rows, a, b, id0, rows') && a != b
    requires forall id: nat {:trigger Adj(rows, a, b, id)} :: !Adj(rows, a, b, id)
    requires forall id: nat {:trigger Adj(rows, b, a, id)} :: !Adj(rows, b, a, id)
    ensures |Pairs(rows')| == |Pairs(rows)| + 2
  {
    PairIff(rows, a, b);
    PairIff(rows, b, a);
    assert Adj(rows', a, b, id0) && Adj(rows', b, a, id0);
    forall u: nat, v: nat ensures (u, v) in Pairs(rows') <==> (u, v) in Pairs(rows) + {(a, b), (b, a)} {
      PairIff(rows, u, v);
      PairIff(rows', u, v);
      if id: nat :| Adj(rows, u, v, id) {
        assert Adj(rows', u, v, id);
      }
    }
    hide Pairs;
    assert Pairs(rows') == Pairs(rows) + {(a, b), (b, a)};
  }

  /** vector::erase at position `j`. */
  function Erase(row: seq<Half>, j: nat): seq<Half>
    requires j < |row|
  {
    row[..j] + row[j + 1..]
  }

  lemma EraseRow(row: seq<Half>, j: nat)
    requires RowOk(row) && j < |row|
    ensures RowOk(Erase(row, j)) && forall h :: h in Erase(row, j) <==> h in row && h.first != row[j].first
  {
    var row' := Erase(row, j);
    forall i | 0 <= i < |row'| ensures row'[i] in row && row'[i].first != row[j].first {
      assert row'[i] == if i < j then row[i] else row[i + 1];
    }
    forall h | h in row && h.first != row[j].first ensures h in row' {
      var i :| 0 <= i < |row| && row[i] == h;
      assert row'[if i < j then i else i - 1] == h;
    }
  }

  lemma RemoveRows(rows: Rows, nedges: nat, a: nat, b: nat, i: nat, j: nat)
    requires RowsOk(rows, nedges) && a < |rows| && b < |rows| && a != b
    requires i < |rows[a]| && rows[a][i].first == b && j < |rows[b]| && rows[b][j].first == a
    ensures var rows' := rows[a := Erase(rows[a], i)][b := Erase(rows[b], j)];
      RowsOk(rows', nedges) && Removed(rows, a, b, rows')
  {
    var rows' := rows[a := Erase(rows[a], i)][b := Erase(rows[b], j)];
    EraseRow(rows[a], i);
    EraseRow(rows[b], j);
    hide RowOk, Erase;
    assert Removed(rows, a, b, rows');
    forall u: nat, v: nat, id: nat | Adj(rows', u, v, id) ensures u != v && id < nedges && Adj(rows', v, u, id) {
      assert Adj(rows, u, v, id);
    }
  }

  lemma RemovePairs(rows: Rows, a: nat, b: nat, id0: nat, rows': Rows)
    requires Removed(rows, a, b, rows') && a != b && Adj(rows, a, b, id0) && Adj(rows, b, a, id0)
    ensures |Pairs(rows')| == |Pairs(rows)| - 2
  {
    PairIff(rows, a, b);
    PairIff(rows, b, a);
    forall u: nat, v: nat ensures (u, v) in Pairs(rows') <==> (u, v) in Pairs(rows) - {(a, b), (b, a)} {
      PairIff(rows, u, v);
      PairIff(rows', u, v);
      if id: nat :| Adj(rows, u, v, id) {
        assert Adj(rows', u, v, id) <==> !Between(a, b, u, v);
      }
    }
    hide Pairs;
    assert Pairs(rows') == Pairs(rows) - {(a, b), (b, a)};
  }

  // ---------------------------------------------------------------------------------------------
  // The graph.

  class Graph<V, E> {
    var nodes: seq<NodeRec<V>>
    var i2u: seq<nat>
    var freeUid: int
    var adjacent: Rows
    var edges: seq<E>
    var edgeSize: int
    ghost var free: seq<nat>

    ghost function State(): Rep<V>
      reads this
    {
      Rep(nodes, i2u, freeUid, adjacent, edgeSize, free)
    }

    ghost predicate Valid()
      reads this
    {
      Ok(State(), |edges|)
    }

    constructor ()
      ensures Valid() && nodes == [] && edges == [] && edgeSize == 0 && freeUid == -1
    {
      nodes, i2u, freeUid, adjacent, edges, edgeSize, free := [], [], -1, [], [], 0, [];
      new;
      assert Pairs([]) == {};
    }

    /** clear */
    method Clear()
      modifies this
      ensures Valid() && nodes == [] && i2u == [] && adjacent == [] && edges == [] && edgeSize == 0
    {
      nodes, i2u, adjacent, edgeSize, freeUid, edges, free := [], [], [], 0, -1, [], [];
      assert Pairs([]) == {};
    }

    /** add_node: a removed uid is used again before a new one is made; no other node changes. */
    method AddNode(val: V) returns (u: nat)
      requires Valid()
      modifies this
      ensures Valid() && edges == old(edges) && edgeSize == old(edgeSize)
      ensures !old(Live(State(), u)) && forall w: nat {:trigger Live(State(), w)} :: Live(State(), w) <==> old(Live(State(), w)) || w == u
      ensures u == (if old(freeUid) == -1 then |old(nodes)| else old(freeUid)) && (old(freeUid) == -1 ==> freeUid == -1)
      ensures u < |nodes| && |nodes| >= |old(nodes)| && nodes[u] == NodeRec(|old(i2u)|, u, val) && i2u == old(i2u) + [u]
      ensures forall w: nat :: w < |old(nodes)| && w != u ==> nodes[w] == old(nodes)[w]
      ensures forall w: nat, x: nat, id: nat {:trigger Adj(adjacent, w, x, id)} :: Adj(adjacent, w, x, id) <==> Adj(old(adjacent), w, x, id)
    {
      var index := |i2u|;
      if freeUid == -1 {
        u := |nodes|;
        nodes := nodes + [NodeRec(index, u, val)];
        adjacent := adjacent + [[]];
        i2u := i2u + [u];
        PushSlot(old(State()), val, State());
        NewRowOk(old(State()), State(), |edges|);
        NotLiveAbove(old(State()), u);
      } else {
        FreeHead(old(State()));
        u := freeUid;
        DeadRow(old(State()), |edges|, u);
        freeUid := nodes[u].index;
        nodes := nodes[u := NodeRec(index, u, val)];
        adjacent := adjacent[u := []];
        i2u := i2u + [u];
        free := free[1..];
        ReuseSlot(old(State()), val, u, State());
        SameRowsOk(old(State()), State(), |edges|);
      }
    }

    /** has_edge */
    method HasEdge(a: nat, b: nat) returns (r: bool)
      requires Valid() && Live(State(), a) && Live(State(), b)
      ensures r <==> exists id: nat :: Adj(adjacent, a, b, id)
    {
      LiveRows(State(), |edges|, a, b);
      if nodes[a].index == nodes[b].index {
        return false;
      }
      var i := Find(adjacent[a], b);
      FoundIff(adjacent, a, b, i);
      r := i < |adjacent[a]|;
    }

    /** add_edge */
    method AddEdge(a: nat, b: nat, val: E) returns (id: nat)
      requires Valid() && Live(State(), a) && Live(State(), b) && a != b
      modifies `adjacent, `edges, `edgeSize
      ensures Valid() && id < |edges| && Adj(adjacent, a, b, id) && Adj(adjacent, b, a, id)
      ensures old(exists id0: nat :: Adj(adjacent, a, b, id0)) ==> State() == old(State()) && edges == old(edges)
      ensures !old(exists id0: nat :: Adj(adjacent, a, b, id0)) ==>
        && id == |old(edges)| && edges == old(edges) + [val] && edgeSize == old(edgeSize) + 1
        && Added(old(adjacent), a, b, id, adjacent)
    {
      LiveRows(State(), |edges|, a, b);
      hide Ok, Added;
      var has := HasEdge(a, b);
      if !has {
        id := |edges|;
        AddedOk(State(), |edges|, a, b);
        adjacent := adjacent[a := adjacent[a] + [Half(b, id)]];
        adjacent := adjacent[b := adjacent[b] + [Half(a, id)]];
        edges := edges + [val];
        edgeSize := edgeSize + 1;
      } else {
        var i := Find(adjacent[a], b);
        FoundIff(adjacent, a, b, i);
        id := adjacent[a][i].second;
        BothEnds(State(), |edges|, a, b, id);
      }
    }

    /** remove_edge */
    method RemoveEdge(a: nat, b: nat) returns (r: nat)
      requires Valid() && Live(State(), a) && Live(State(), b)
      modifies `adjacent, `edgeSize
      ensures Valid() && r == if old(exists id: nat :: Adj(adjacent, a, b, id)) then 1 else 0
      ensures edgeSize == old(edgeSize) - r && Removed(old(adjacent), a, b, adjacent)
      ensures r == 0 ==> adjacent == old(adjacent)
    {
      LiveRows(State(), |edges|, a, b);
      hide Ok, Removed;
      var has := HasEdge(a, b);
      if !has {
        NothingRemoved(State(), |edges|, a, b);
        return 0;
      }
      var i := Find(adjacent[a], b);
      FoundIff(adjacent, a, b, i);
      ghost var id := adjacent[a][i].second;
      BothEnds(State(), |edges|, a, b, id);
      var rows1 := adjacent[a := Erase(adjacent[a], i)];
      var j := Find(rows1[b], a);
      FoundIff(adjacent, b, a, j);
      RemovedOk(State(), |edges|, a, b, i, j, id);
      adjacent := rows1[b := Erase(rows1[b], j)];
      edgeSize := edgeSize - 1;
      r := 1;
    }

    /**
      remove_node: the documentation promises 0 for what is not a node, but has_node asserts that it is one;
      only a node of another graph gets 0.
     */
    method RemoveNode(h: Handle) returns (r: Outcome)
      requires Valid()
      modifies this
      ensures Valid() && edges == old(edges)
      ensures h.Mine? ==> (r == Returned(1) <==> old(Live(State(), h.uid))) && r != Returned(0)
      ensures h.Foreign? ==> r == if h.index < |old(i2u)| && h.uid < |old(nodes)| then Returned(0) else AssertionFailed
      ensures r.OutOfBoundsRead? <==> h.Mine? && old(free) != [] && h.uid == old(free)[|old(free)| - 1]
      ensures r != Returned(1) ==> nodes == old(nodes) && i2u == old(i2u) && adjacent == old(adjacent) && freeUid == old(freeUid) && free == old(free)
      ensures r == Returned(1) ==> |i2u| == |old(i2u)| - 1 && freeUid == h.uid && free == [h.uid] + old(free)
      ensures forall w: nat {:trigger Live(State(), w)} :: Live(State(), w) <==> old(Live(State(), w)) && (r == Returned(1) ==> w != h.uid)
      ensures r == Returned(1) ==> forall w: nat, x: nat, id: nat {:trigger Adj(adjacent, w, x, id)} ::
        Adj(adjacent, w, x, id) <==> Adj(old(adjacent), w, x, id) && w != h.uid && x != h.uid
      ensures |nodes| == |old(nodes)| && forall w: nat :: w < |nodes| ==> nodes[w].uid == old(nodes)[w].uid && nodes[w].value == old(nodes)[w].value
    {
      hide Ok, Adj, Live, SlotsOk;
      OkSlots(State(), |edges|);
      r := HasNode(Fields(), h);
      RemoveOutcome(State(), h);
      if r == Returned(1) {
        var one := Detach(h.uid);
      } else {
        LivesSame(old(State()), State());
      }
    }

    /** The fields that has_node reads; the free chain is only known to the proof. */
    function Fields(): Rep<V>
      reads this
    {
      Rep(nodes, i2u, freeUid, adjacent, edgeSize, [])
    }

    lemma RemoveOutcome(k: Rep<V>, h: Handle)
      requires SlotsOk(k)
      ensures forall k0: Rep<V> :: k0 == k.(free := []) ==> HasNode(k0, h) == HasNode(k, h)
      ensures h.Mine? ==> (HasNode(k, h) == Returned(1) <==> Live(k, h.uid)) && HasNode(k, h) != Returned(0)
      ensures HasNode(k, h).OutOfBoundsRead? <==> h.Mine? && k.free != [] && h.uid == k.free[|k.free| - 1]
    {
      hide SlotsOk, Live;
      if h.Mine? {
        HasNodeIff(k, h.uid);
      }
    }

    /** The rest of remove_node: the node goes with its edges; every other node keeps its uid and value, every other edge its id. */
    method Detach(u: nat) returns (r: nat)
      requires Valid() && Live(State(), u)
      modifies this
      ensures Valid() && r == 1 && edges == old(edges) && |i2u| == |old(i2u)| - 1 && freeUid == u && free == [u] + old(free)
      ensures forall w: nat {:trigger Live(State(), w)} :: Live(State(), w) <==> old(Live(State(), w)) && w != u
      ensures |nodes| == |old(nodes)| && forall w: nat :: w < |nodes| ==> nodes[w].uid == old(nodes)[w].uid && nodes[w].value == old(nodes)[w].value
      ensures forall w: nat, x: nat, id: nat {:trigger Adj(adjacent, w, x, id)} ::
        Adj(adjacent, w, x, id) <==> Adj(old(adjacent), w, x, id) && w != u && x != u
      ensures forall w: nat :: w < |nodes| && w != u ==>
        nodes[w].index == if w == old(i2u[|i2u| - 1]) then old(nodes)[u].index else old(nodes)[w].index
    {
      hide Ok, Removed, Without, Adj, Live;
      LiveRows(State(), |edges|, u, u);
      WithoutNone(adjacent, u);
      var incident := adjacent[u];
      var n := 0;
      while n < |incident|
        invariant n <= |incident| && Valid() && edges == old(edges)
        invariant nodes == old(nodes) && i2u == old(i2u) && freeUid == old(freeUid) && free == old(free)
        invariant Without(old(adjacent), incident, u, n, adjacent)
      {
        var icdt := incident[n];
        Incident(old(State()), |edges|, u, n);
        ghost var rows := adjacent;
        LiveSame(old(State()), State(), icdt.first);
        LiveSame(old(State()), State(), u);
        var removed := RemoveEdge(i2u[nodes[icdt.first].index], u);
        WithoutStep(old(adjacent), incident, u, n, rows, adjacent);
        n := n + 1;
      }
      ghost var k := State();
      LiveSame(old(State()), k, u);
      AllGone(old(State()), |edges|, u, adjacent);
      LastSlot(k, |edges|, u);
      var delIndex := nodes[u].index;
      var delUid := i2u[delIndex];
      var lastIndex := |i2u| - 1;
      var lastUid := i2u[lastIndex];
      i2u := i2u[delIndex := lastUid];
      nodes := nodes[lastUid := nodes[lastUid].(index := delIndex)];
      i2u := i2u[..|i2u| - 1];
      nodes := nodes[delUid := nodes[delUid].(index := freeUid)];
      freeUid := delUid;
      free := [delUid] + free;
      PopOk(k, |edges|, u, lastUid, State());
      LivesSame(old(State()), k);
      r := 1;
    }
  }

  lemma OkSlots<V>(k: Rep<V>, nedges: nat)
    requires Ok(k, nedges)
    ensures SlotsOk(k)
  {
  }

  /** A graph on which valid() reads outside of i2u_: one node is added, removed, and removed again. */
  method RemovedTwice<V, E>(v: V) returns (r: Outcome)
    ensures r.OutOfBoundsRead?
  {
    var g := new Graph<V, E>();
    var u := g.AddNode(v);
    r := g.RemoveNode(Mine(u));
    r := g.RemoveNode(Mine(u));
  }

  /** The position of neighbour `b` in a row; its length when `b` is not there. */
  method Find(row: seq<Half>, b: nat) returns (i: nat)
    ensures i <= |row| && (i < |row| ==> row[i].first == b)
    ensures forall j :: 0 <= j < i ==> row[j].first != b
  {
    i := 0;
    while i < |row| && row[i].first != b
      invariant i <= |row| && forall j :: 0 <= j < i ==> row[j].first != b
    {
      i := i + 1;
    }
  }

  lemma FoundIff(rows: Rows, a: nat, b: nat, i: nat)
    requires a < |rows| && i <= |rows[a]| && (i < |rows[a]| ==> rows[a][i].first == b)
    requires forall j :: 0 <= j < i ==> rows[a][j].first != b
    ensures i < |rows[a]| <==> exists id: nat :: Adj(rows, a, b, id)
    ensures i < |rows[a]| ==> Adj(rows, a, b, rows[a][i].second)
  {
    if i < |rows[a]| {
      assert Adj(rows, a, b, rows[a][i].second);
    }
    if id: nat :| Adj(rows, a, b, id) {
      var j :| 0 <= j < |rows[a]| && rows[a][j] == Half(b, id);
    }
  }

  lemma LiveRows<V>(k: Rep<V>, nedges: nat, a: nat, b: nat)
    requires Ok(k, nedges) && Live(k, a) && Live(k, b)
    ensures a < |k.nodes| == |k.adjacent| && b < |k.nodes|
    ensures k.nodes[a].index == k.nodes[b].index <==> a == b
    ensures a == b ==> forall id: nat {:trigger Adj(k.adjacent, a, b, id)} :: !Adj(k.adjacent, a, b, id)
  {
    hide SlotsOk, EndsLive;
  }

  lemma NotLiveAbove<V>(k: Rep<V>, u: nat)
    requires u >= |k.nodes|
    ensures !Live(k, u)
  {
  }

  lemma FreeHead<V>(k: Rep<V>)
    requires SlotsOk(k) && k.freeUid != -1
    ensures k.free != [] && k.free[0] == k.freeUid && k.free[0] < |k.nodes| && !Live(k, k.free[0])
  {
    assert ChainedAt(k.nodes, k.free, 0);
    assert Dead(k, k.free[0]);
  }

  /** A removed node has no edges. */
  lemma DeadRow<V>(k: Rep<V>, nedges: nat, u: nat)
    requires Ok(k, nedges) && u < |k.nodes| && !Live(k, u)
    ensures k.adjacent[u] == []
  {
    hide SlotsOk, RowsOk, Live;
    HeadAdj(k.adjacent, u);
  }

  lemma HeadAdj(rows: Rows, u: nat)
    requires u < |rows|
    ensures rows[u] != [] ==> Adj(rows, u, rows[u][0].first, rows[u][0].second)
  {
  }

  lemma NewRowOk<V>(k: Rep<V>, k': Rep<V>, nedges: nat)
    requires Ok(k, nedges) && SlotsOk(k') && k'.adjacent == k.adjacent + [[]] && |k'.nodes| == |k.nodes| + 1 && k'.edgeSize == k.edgeSize
    requires forall w: nat {:trigger Live(k', w)} :: Live(k, w) ==> Live(k', w)
    ensures Ok(k', nedges)
    ensures forall w: nat, x: nat, id: nat {:trigger Adj(k'.adjacent, w, x, id)} :: Adj(k'.adjacent, w, x, id) <==> Adj(k.adjacent, w, x, id)
  {
    var rows, rows' := k.adjacent, k'.adjacent;
    forall u: nat, v: nat, id: nat ensures Adj(rows', u, v, id) <==> Adj(rows, u, v, id) {
    }
    forall p | p in Pairs(rows') ensures p in Pairs(rows) {
    }
    forall p | p in Pairs(rows) ensures p in Pairs(rows') {
      var u: nat, i: nat :| u < |rows| && i < |rows[u]| && p == (u, rows[u][i].first);
      assert rows'[u] == rows[u];
    }
    assert Pairs(rows') == Pairs(rows);
    hide SlotsOk, Live, Pairs, Adj;
    forall u: nat | u < |rows'| ensures RowOk(rows'[u]) {
      assert u < |rows| ==> RowOk(rows[u]);
    }
  }

  lemma SameRowsOk<V>(k: Rep<V>, k': Rep<V>, nedges: nat)
    requires Ok(k, nedges) && SlotsOk(k') && k'.adjacent == k.adjacent && |k'.nodes| == |k.nodes| && k'.edgeSize == k.edgeSize
    requires forall w: nat {:trigger Live(k', w)} :: Live(k, w) ==> Live(k', w)
    ensures Ok(k', nedges)
  {
    hide SlotsOk, RowsOk, Live, Pairs, Adj;
  }

  lemma BothEnds<V>(k: Rep<V>, nedges: nat, a: nat, b: nat, id: nat)
    requires Ok(k, nedges) && Adj(k.adjacent, a, b, id)
    ensures a != b && id < nedges && Adj(k.adjacent, b, a, id) && exists id0: nat :: Adj(k.adjacent, b, a, id0)
  {
    hide SlotsOk, EndsLive, Adj;
  }

  lemma AddedOk<V>(k: Rep<V>, nedges: nat, a: nat, b: nat)
    requires Ok(k, nedges) && Live(k, a) && Live(k, b) && a != b && a < |k.adjacent| && b < |k.adjacent|
    requires !exists id: nat :: Adj(k.adjacent, a, b, id)
    ensures var rows1 := k.adjacent[a := k.adjacent[a] + [Half(b, nedges)]];
      var rows' := rows1[b := rows1[b] + [Half(a, nedges)]];
      && Ok(k.(adjacent := rows', edgeSize := k.edgeSize + 1), nedges + 1) && Added(k.adjacent, a, b, nedges, rows')
      && Adj(rows', a, b, nedges) && Adj(rows', b, a, nedges)
  {
    AddRows(k.adjacent, nedges, a, b);
    var rows' := Append(Append(k.adjacent, a, Half(b, nedges)), b, Half(a, nedges));
    forall id: nat ensures !Adj(k.adjacent, b, a, id) {
      assert Adj(k.adjacent, b, a, id) ==> Adj(k.adjacent, a, b, id);
    }
    AddPairs(k.adjacent, a, b, nedges, rows');
    assert Adj(rows', a, b, nedges) && Adj(rows', b, a, nedges);
    SlotsSame(k, k.(adjacent := rows', edgeSize := k.edgeSize + 1));
    hide SlotsOk, RowsOk, Live, Pairs, Adj;
  }

  /** Nodes do not depend on edges. */
  lemma SlotsSame<V>(k: Rep<V>, k': Rep<V>)
    requires SlotsOk(k) && k'.nodes == k.nodes && k'.i2u == k.i2u && k'.freeUid == k.freeUid && k'.free == k.free
    ensures SlotsOk(k') && forall w: nat {:trigger Live(k', w)} :: Live(k', w) <==> Live(k, w)
  {
    forall u: nat | u < |k'.nodes| ensures Dead(k', u) <==> !Live(k', u) {
      assert Dead(k, u) <==> !Live(k, u);
    }
  }

  lemma LiveSame<V>(k: Rep<V>, k': Rep<V>, u: nat)
    requires k'.nodes == k.nodes && k'.i2u == k.i2u
    ensures Live(k', u) <==> Live(k, u)
    ensures Live(k, u) ==> u < |k.nodes| && 0 <= k.nodes[u].index < |k.i2u| && k.i2u[k.nodes[u].index] == u
  {
  }

  lemma LivesSame<V>(k: Rep<V>, k': Rep<V>)
    requires k'.nodes == k.nodes && k'.i2u == k.i2u
    ensures forall u: nat {:trigger Live(k', u)} {:trigger Live(k, u)} :: Live(k', u) <==> Live(k, u)
  {
  }

  lemma NothingRemoved<V>(k: Rep<V>, nedges: nat, a: nat, b: nat)
    requires Ok(k, nedges) && !exists id: nat :: Adj(k.adjacent, a, b, id)
    ensures Removed(k.adjacent, a, b, k.adjacent)
  {
    hide SlotsOk, EndsLive;
    forall u: nat, v: nat, id: nat | Adj(k.adjacent, u, v, id) ensures !Between(a, b, u, v) {
      assert Adj(k.adjacent, v, u, id);
    }
  }

  lemma RemovedOk<V>(k: Rep<V>, nedges: nat, a: nat, b: nat, i: nat, j: nat, id: nat)
    requires Ok(k, nedges) && a < |k.adjacent| && b < |k.adjacent| && a != b && Adj(k.adjacent, a, b, id)
    requires i < |k.adjacent[a]| && k.adjacent[a][i].first == b && j < |k.adjacent[b]| && k.adjacent[b][j].first == a
    ensures var rows' := k.adjacent[a := Erase(k.adjacent[a], i)][b := Erase(k.adjacent[b], j)];
      Ok(k.(adjacent := rows', edgeSize := k.edgeSize - 1), nedges) && Removed(k.adjacent, a, b, rows')
  {
    RemoveRows(k.adjacent, nedges, a, b, i, j);
    var rows' := k.adjacent[a := Erase(k.adjacent[a], i)][b := Erase(k.adjacent[b], j)];
    RemovePairs(k.adjacent, a, b, id, rows');
    SlotsSame(k, k.(adjacent := rows', edgeSize := k.edgeSize - 1));
    hide SlotsOk, RowsOk, Live, Pairs, Adj;
  }

  // ---------------------------------------------------------------------------------------------
  // Removing a node.

  ghost predicate Among(incident: seq<Half>, n: nat, x: nat) {
    exists i :: 0 <= i < n && i < |incident| && incident[i].first == x
  }

  /** The edges between `u` and the first `n` of its neighbours are gone. */
  ghost predicate Without(rows: Rows, incident: seq<Half>, u: nat, n: nat, rows': Rows) {
    |rows'| == |rows| &&
    forall w: nat, x: nat, id: nat {:trigger Adj(rows', w, x, id)} ::
      Adj(rows', w, x, id) <==> Adj(rows, w, x, id) && !(w == u && Among(incident, n, x)) && !(x == u && Among(incident, n, w))
  }

  lemma WithoutStep(rows: Rows, incident: seq<Half>, u: nat, n: nat, rows1: Rows, rows': Rows)
    requires Without(rows, incident, u, n, rows1) && n < |incident| && Removed(rows1, incident[n].first, u, rows')
    ensures Without(rows, incident, u, n + 1, rows')
  {
    forall x: nat ensures Among(incident, n + 1, x) <==> Among(incident, n, x) || x == incident[n].first {
    }
    hide Adj, Among;
    forall w: nat, x: nat, id: nat
      ensures Adj(rows', w, x, id) <==>
        Adj(rows, w, x, id) && !(w == u && Among(incident, n + 1, x)) && !(x == u && Among(incident, n + 1, w))
    {
      assert Adj(rows1, w, x, id) <==> Adj(rows, w, x, id) && !(w == u && Among(incident, n, x)) && !(x == u && Among(incident, n, w));
    }
  }

  lemma Incident<V>(k: Rep<V>, nedges: nat, u: nat, n: nat)
    requires Ok(k, nedges) && u < |k.adjacent| && n < |k.adjacent[u]|
    ensures Live(k, k.adjacent[u][n].first)
  {
    var h := k.adjacent[u][n];
    assert Adj(k.adjacent, u, h.first, h.second);
    hide SlotsOk;
    assert Adj(k.adjacent, h.first, u, h.second);
  }

  lemma WithoutNone(rows: Rows, u: nat)
    requires u < |rows|
    ensures Without(rows, rows[u], u, 0, rows)
  {
  }

  lemma AllGone<V>(k: Rep<V>, nedges: nat, u: nat, rows': Rows)
    requires Ok(k, nedges) && u < |k.adjacent| && Without(k.adjacent, k.adjacent[u], u, |k.adjacent[u]|, rows')
    ensures forall w: nat, x: nat, id: nat {:trigger Adj(rows', w, x, id)} ::
      Adj(rows', w, x, id) <==> Adj(k.adjacent, w, x, id) && w != u && x != u
  {
    hide SlotsOk, EndsLive;
    var rows := k.adjacent;
    forall x: nat, id: nat | Adj(rows, u, x, id) ensures Among(rows[u], |rows[u]|, x) {
      var i :| 0 <= i < |rows[u]| && rows[u][i] == Half(x, id);
    }
    forall w: nat, x: nat, id: nat | Adj(rows', w, x, id) ensures w != u && x != u {
      assert Adj(rows, w, x, id) && Adj(rows, x, w, id);
    }
  }

  lemma LastSlot<V>(k: Rep<V>, nedges: nat, u: nat)
    requires Ok(k, nedges) && Live(k, u)
    ensures 0 <= k.nodes[u].index < |k.i2u| && k.i2u[k.nodes[u].index] == u && k.i2u[|k.i2u| - 1] < |k.nodes|
  {
    hide RowsOk, EndsLive;
    assert IndexOk(k.nodes, k.i2u, |k.i2u| - 1);
  }

  lemma PopOk<V>(k: Rep<V>, nedges: nat, u: nat, last: nat, k': Rep<V>)
    requires Ok(k, nedges) && Live(k, u) && last == k.i2u[|k.i2u| - 1] && last < |k.nodes|
    requires forall w: nat, x: nat, id: nat {:trigger Adj(k.adjacent, w, x, id)} :: Adj(k.adjacent, w, x, id) ==> w != u
    requires var moved := k.nodes[last := k.nodes[last].(index := k.nodes[u].index)];
      k' == k.(i2u := k.i2u[k.nodes[u].index := last][..|k.i2u| - 1], nodes := moved[u := moved[u].(index := k.freeUid)],
               freeUid := u, free := [u] + k.free)
    ensures Ok(k', nedges) && forall w: nat {:trigger Live(k', w)} :: Live(k', w) <==> Live(k, w) && w != u
  {
    PopSlot(k, u, last, k');
    hide SlotsOk, RowsOk, Live, Pairs, Adj;
  }
}
