/** The fixed adjacency graph of the classic 19-tile board.

    Tile slots are the integers 1..19. Each edge between two slots is stored
    once, in one direction only; the reverse edge is derived on demand by
    inverting it through the table of opposite directions. */
module HexGraph {

  /** The six compass directions in which one hex touches another. */
  datatype Direction = E | SE | SW | W | NW | NE

  /** The axis a direction lies along: 0 east-west, 1 southeast-northwest,
      2 southwest-northeast. Each axis holds exactly two directions. */
  function Axis(d: Direction): int {
    match d
    case E => 0
    case W => 0
    case SE => 1
    case NW => 1
    case SW => 2
    case NE => 2
  }

  /** The opposite compass direction (the module-level table of direction
      pairs): the other direction on the same axis. */
  function Pair(d: Direction): (r: Direction)
    ensures r != d && Axis(r) == Axis(d)
  {
    match d
    case E => W
    case SW => NE
    case SE => NW
    case W => E
    case NE => SW
    case NW => SE
  }

  /** A directed edge: leaving slot `src` in direction `dir` reaches slot `dst`. */
  datatype Edge = Edge(src: int, dst: int, dir: Direction)

  /** The same edge walked the other way: it joins the same two slots in
      the opposite order, leaving along the same axis the other way. */
  function Invert(e: Edge): (r: Edge)
    ensures r.src == e.dst && r.dst == e.src
    ensures r.dir != e.dir && Axis(r.dir) == Axis(e.dir)
  {
    Edge(e.dst, e.src, Pair(e.dir))
  }

  /** The edges of the classic board, one direction per edge, as stored. */
  const Graph: seq<Edge> := [
    Edge(1, 2, SW), Edge(1, 12, E), Edge(1, 13, SE),
    Edge(2, 3, SW), Edge(2, 13, E), Edge(2, 14, SE),
    Edge(3, 4, SE), Edge(3, 14, E),
    Edge(4, 5, SE), Edge(4, 14, NE), Edge(4, 15, E),
    Edge(5, 6, E), Edge(5, 15, NE),
    Edge(6, 7, E), Edge(6, 15, NW), Edge(6, 16, NE),
    Edge(7, 8, NE), Edge(7, 16, NW),
    Edge(8, 9, NE), Edge(8, 16, W), Edge(8, 17, NW),
    Edge(9, 10, NW), Edge(9, 17, W),
    Edge(10, 11, NW), Edge(10, 17, SW), Edge(10, 18, W),
    Edge(11, 12, W), Edge(11, 18, SW),
    Edge(12, 13, SW), Edge(12, 18, SE),
    Edge(13, 14, SW), Edge(13, 18, E), Edge(13, 19, SE),
    Edge(14, 15, SE), Edge(14, 19, E),
    Edge(15, 16, E), Edge(15, 19, NE),
    Edge(16, 17, NE), Edge(16, 19, NW),
    Edge(17, 18, NW), Edge(17, 19, W),
    Edge(18, 19, SW)
  ]

  /** The nine (slot, direction) anchors at which ports are placed, in order. */
  const PortLocations: seq<(int, Direction)> := [
    (1, NW), (2, W), (4, W),
    (5, SW), (6, SE), (8, SE),
    (9, E), (10, NE), (12, NE)
  ]

  /** Every edge of `g` joins two slots in 1..n. */
  ghost predicate Within(g: seq<Edge>, n: int) {
    forall i :: 0 <= i < |g| ==> 1 <= g[i].src <= n && 1 <= g[i].dst <= n
  }

  /** Slots `a` and `b` are joined by an edge of `g`, stored either way. */
  ghost predicate Adjacent(g: seq<Edge>, a: int, b: int) {
    exists d :: Edge(a, b, d) in g || Edge(b, a, d) in g
  }

  /** `g` stores an edge leaving `a` for `b`. */
  ghost predicate Stored(g: seq<Edge>, a: int, b: int) {
    exists d :: Edge(a, b, d) in g
  }

  /** `g` stores an edge leaving slot `a` for slot `a + 1`. */
  ghost predicate JoinsNext(g: seq<Edge>, a: int) {
    Stored(g, a, a + 1)
  }

  /** Two edges join the same two slots, in either orientation. */
  predicate SameEnds(e1: Edge, e2: Edge) {
    (e1.src == e2.src && e1.dst == e2.dst) || (e1.src == e2.dst && e1.dst == e2.src)
  }

  /** `g` has no loops and joins any two slots by at most one edge. */
  ghost predicate Simple(g: seq<Edge>) {
    && (forall e :: e in g ==> e.src != e.dst)
    && (forall e1, e2 :: e1 in g && e2 in g && SameEnds(e1, e2) ==> e1 == e2)
  }

  /** `a` comes strictly before `b` when edges are ordered by (src, dst). */
  predicate KeyLess(a: Edge, b: Edge) {
    a.src < b.src || (a.src == b.src && a.dst < b.dst)
  }

  /** Every edge is stored from its lower slot to its higher one, and the
      table is strictly increasing in (src, dst). */
  ghost predicate Canonical(g: seq<Edge>) {
    && (forall i :: 0 <= i < |g| ==> g[i].src < g[i].dst)
    && (forall i :: 0 <= i < |g| - 1 ==> KeyLess(g[i], g[i + 1]))
  }

  /** The edges of `g` stored as leaving `id`, in stored order. */
  function Outgoing(g: seq<Edge>, id: int): (r: seq<Edge>)
    ensures forall e {:trigger e in r} :: e in r <==> e in g && e.src == id
  {
    if |g| == 0 then []
    else (if g[0].src == id then [g[0]] else []) + Outgoing(g[1..], id)
  }

  /** The edges of `g` stored as entering `id`, each inverted so that it
      leaves `id`, in stored order. */
  function Incoming(g: seq<Edge>, id: int): (r: seq<Edge>)
    ensures forall e {:trigger e in r} :: e in r <==> Invert(e) in g && e.src == id
  {
    if |g| == 0 then []
    else (if g[0].dst == id then [Invert(g[0])] else []) + Incoming(g[1..], id)
  }

  /** Every edge touching slot `id`, each oriented to leave `id`: the stored
      outgoing edges followed by the inverted incoming ones. */
  function EdgesFor(g: seq<Edge>, id: int): (r: seq<Edge>)
    ensures forall e :: e in r ==> e.src == id
    ensures forall e {:trigger e in r} :: e in r <==> e.src == id && (e in g || Invert(e) in g)
  {
    Outgoing(g, id) + Incoming(g, id)
  }

  lemma PairInvolutive(d: Direction)
    ensures Pair(Pair(d)) == d
  {
  }

  lemma InvertInvolutive(e: Edge)
    ensures Invert(Invert(e)) == e
    ensures Invert(e) != e
  {
  }

  /** Some edge of `EdgesFor(g, a)` ends at `b` exactly when `a` and `b` are
      adjacent in `g`. */
  lemma EdgesForReachAdjacent(g: seq<Edge>, a: int, b: int)
    ensures (exists e :: e in EdgesFor(g, a) && e.dst == b) <==> Adjacent(g, a, b)
  {
    if exists e :: e in EdgesFor(g, a) && e.dst == b {
      var e :| e in EdgesFor(g, a) && e.dst == b;
      if e in g {
        assert Edge(a, b, e.dir) in g;
      } else {
        assert Edge(b, a, Pair(e.dir)) in g;
      }
    }
    if Adjacent(g, a, b) {
      var d :| Edge(a, b, d) in g || Edge(b, a, d) in g;
      if Edge(a, b, d) in g {
        assert Edge(a, b, d) in EdgesFor(g, a);
      } else {
        PairInvolutive(d);
        assert Invert(Edge(a, b, Pair(d))) == Edge(b, a, d);
        assert Edge(a, b, Pair(d)) in EdgesFor(g, a);
      }
    }
  }

  /** An edge leaving `a` for `b` is, inverted, an edge leaving `b` for `a`. */
  lemma EdgesForSymmetric(g: seq<Edge>, e: Edge)
    requires e in EdgesFor(g, e.src)
    ensures Invert(e) in EdgesFor(g, e.dst)
  {
    InvertInvolutive(e);
  }

  /** In a strictly increasing table, every earlier edge is below every later one. */
  lemma {:induction false} CanonicalOrdered(g: seq<Edge>, i: int, j: int)
    requires Canonical(g)
    requires 0 <= i < j < |g|
    ensures KeyLess(g[i], g[j])
    decreases j - i
  {
    if j > i + 1 {
      CanonicalOrdered(g, i + 1, j);
    }
  }

  /** A canonical table is a simple graph. */
  lemma CanonicalIsSimple(g: seq<Edge>)
    requires Canonical(g)
    ensures Simple(g)
  {
    forall e1, e2 | e1 in g && e2 in g && SameEnds(e1, e2)
      ensures e1 == e2
    {
      var i :| 0 <= i < |g| && g[i] == e1;
      var j :| 0 <= j < |g| && g[j] == e2;
      if i < j {
        CanonicalOrdered(g, i, j);
      } else if j < i {
        CanonicalOrdered(g, j, i);
      }
    }
  }

  /** A canonical table without its first edge is still canonical. */
  lemma CanonicalTail(g: seq<Edge>)
    requires Canonical(g) && |g| > 0
    ensures Canonical(g[1..])
  {
  }

  /** In a canonical table, the edges stored as leaving `id` reach
      strictly increasing slots. */
  lemma {:induction false} OutgoingIncreasing(g: seq<Edge>, id: int)
    requires Canonical(g)
    ensures forall i, j :: 0 <= i < j < |Outgoing(g, id)| ==> Outgoing(g, id)[i].dst < Outgoing(g, id)[j].dst
  {
    if |g| > 0 {
      CanonicalTail(g);
      OutgoingIncreasing(g[1..], id);
      var rest := Outgoing(g[1..], id);
      if g[0].src == id {
        forall e | e in rest
          ensures g[0].dst < e.dst
        {
          var k :| 0 <= k < |g[1..]| && g[1..][k] == e;
          CanonicalOrdered(g, 0, k + 1);
        }
        var r := Outgoing(g, id);
        assert r == [g[0]] + rest;
        forall i, j | 0 <= i < j < |r|
          ensures r[i].dst < r[j].dst
        {
          assert r[j] == rest[j - 1] && rest[j - 1] in rest;
          if i > 0 {
            assert r[i] == rest[i - 1];
          }
        }
      }
    }
  }

  /** In a canonical table, the inverted edges stored as entering `id`
      reach strictly increasing slots. */
  lemma {:induction false} IncomingIncreasing(g: seq<Edge>, id: int)
    requires Canonical(g)
    ensures forall i, j :: 0 <= i < j < |Incoming(g, id)| ==> Incoming(g, id)[i].dst < Incoming(g, id)[j].dst
  {
    if |g| > 0 {
      CanonicalTail(g);
      IncomingIncreasing(g[1..], id);
      var rest := Incoming(g[1..], id);
      if g[0].dst == id {
        forall e | e in rest
          ensures g[0].src < e.dst
        {
          var k :| 0 <= k < |g[1..]| && g[1..][k] == Invert(e);
          CanonicalOrdered(g, 0, k + 1);
        }
        var r := Incoming(g, id);
        assert r == [Invert(g[0])] + rest;
        forall i, j | 0 <= i < j < |r|
          ensures r[i].dst < r[j].dst
        {
          assert r[j] == rest[j - 1] && rest[j - 1] in rest;
          if i > 0 {
            assert r[i] == rest[i - 1];
          }
        }
      }
    }
  }

  /** In a canonical table, no two edges listed for a tile reach the same
      slot: each neighbour is listed exactly once. */
  lemma EdgesForDistinct(g: seq<Edge>, id: int)
    requires Canonical(g)
    ensures forall i, j :: 0 <= i < j < |EdgesFor(g, id)| ==> EdgesFor(g, id)[i].dst != EdgesFor(g, id)[j].dst
  {
    var o := Outgoing(g, id);
    var n := Incoming(g, id);
    OutgoingIncreasing(g, id);
    IncomingIncreasing(g, id);
    forall e | e in o
      ensures id < e.dst
    {
      var k :| 0 <= k < |g| && g[k] == e;
    }
    forall e | e in n
      ensures e.dst < id
    {
      var k :| 0 <= k < |g| && g[k] == Invert(e);
    }
    var r := EdgesFor(g, id);
    forall i, j | 0 <= i < j < |r|
      ensures r[i].dst != r[j].dst
    {
      if j < |o| {
        assert r[i] == o[i] && r[j] == o[j];
      } else if i >= |o| {
        assert r[i] == n[i - |o|] && r[j] == n[j - |o|];
      } else {
        assert r[i] == o[i] && o[i] in o;
        assert r[j] == n[j - |o|] && n[j - |o|] in n;
      }
    }
  }

  /** Every endpoint of the fixed graph is a slot in 1..19. */
  lemma GraphWithinBoard()
    ensures Within(Graph, 19)
  {
  }

  /** The fixed graph, carrying the fact that it stays within the 19 slots. */
  function BoardGraph(): (g: seq<Edge>)
    ensures g == Graph
    ensures Within(g, 19)
  {
    GraphWithinBoard();
    Graph
  }

  /** Every edge of the fixed graph is stored from its lower slot. */
  lemma GraphLowToHigh()
    ensures forall i :: 0 <= i < |Graph| ==> Graph[i].src < Graph[i].dst
  {
  }

  /** The fixed graph is stored in increasing (src, dst) order. */
  lemma GraphIncreasing()
    ensures forall i :: 0 <= i < |Graph| - 1 ==> KeyLess(Graph[i], Graph[i + 1])
  {
  }

  /** The fixed graph is stored low slot to high slot, in increasing order. */
  lemma GraphCanonical()
    ensures Canonical(Graph)
  {
    GraphLowToHigh();
    GraphIncreasing();
  }

  /** The fixed graph has no loops and no pair of slots joined twice. */
  lemma GraphSimple()
    ensures Simple(Graph)
  {
    GraphCanonical();
    CanonicalIsSimple(Graph);
  }

  /** On the fixed graph, no slot lists the same neighbour twice. */
  lemma GraphEdgesDistinct(id: int)
    ensures forall i, j :: 0 <= i < j < |EdgesFor(Graph, id)| ==> EdgesFor(Graph, id)[i].dst != EdgesFor(Graph, id)[j].dst
  {
    GraphCanonical();
    EdgesForDistinct(Graph, id);
  }

  /** For each slot i in 1..18, the index in `Graph` of the stored edge (i, i + 1). */
  const PathIndex: seq<int> := [0, 3, 6, 8, 11, 13, 16, 18, 21, 23, 26, 28, 30, 33, 35, 37, 39, 41]

  /** Slots i and i + 1 are joined by a stored edge for every i in 1..18, so
      the slots in id order form a connected path through the whole board. */
  lemma ConsecutiveSlotsJoined(i: int)
    requires 1 <= i < 19
    ensures JoinsNext(Graph, i)
  {
    var k := PathIndex[i - 1];
    assert 0 <= k < |Graph| && Graph[k].src == i && Graph[k].dst == i + 1;
    assert Edge(i, i + 1, Graph[k].dir) in Graph;
  }

  /** Every port anchor is a slot of the board. */
  lemma PortLocationsOnBoard()
    ensures |PortLocations| == 9
    ensures forall i :: 0 <= i < |PortLocations| ==> 1 <= PortLocations[i].0 <= 19
  {
  }
}
