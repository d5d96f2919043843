/** A starting board: its tiles, its ports, its centre tile and the graph
    its queries walk, with the two queries the drawing code relies on — the
    compass direction from one tile to a neighbour, and a tile's neighbours. */
module Boards {
  import opened Wrappers
  import opened HexGraph
  import opened Pools
  import opened Seqs
  import opened Generator

  /** A constructed board. `ports` is `None` when the tiles were passed in,
      since only generation assigns ports. `graph` is the graph the queries
      use: the one passed in, or the fixed graph. */
  datatype Board = Board(tiles: seq<Tile>, ports: Option<seq<Port>>, centerTile: Tile, graph: seq<Edge>)

  /** How constructing a board ends: a board; `IndexError` when the centre
      index is outside the tile list; or, in this model only, running out
      of draws before an attempt is accepted. */
  datatype Construction = Constructed(board: Board) | IndexError | OutOfDraws

  /** `center or 10`: an absent or zero centre falls back to index 10. */
  function CenterIndex(center: Option<int>): (r: int)
    ensures center.None? || center == Some(0) ==> r == 10
    ensures center.Some? && center.value != 0 ==> r == center.value
  {
    if center.None? || center == Some(0) then 10 else center.value
  }

  /** `if graph:` — a non-empty graph replaces the fixed one. */
  function GraphUsed(graph: seq<Edge>): (r: seq<Edge>)
    ensures |graph| > 0 ==> r == graph
    ensures |graph| == 0 ==> r == Graph
  {
    if |graph| > 0 then graph else Graph
  }

  /** The part of construction after the tiles are known: pick the centre
      tile by Python indexing and record the graph the queries use. */
  function Assemble(tiles: seq<Tile>, ports: Option<seq<Port>>, graph: seq<Edge>, center: Option<int>): (r: Construction)
    ensures r.Constructed? || r.IndexError?
    ensures r.IndexError? <==> !(-|tiles| <= CenterIndex(center) < |tiles|)
    ensures r.Constructed? ==> r.board.tiles == tiles && r.board.ports == ports
    ensures r.Constructed? ==> r.board.centerTile in tiles
    ensures r.Constructed? ==> PyIndex(tiles, CenterIndex(center)) == Some(r.board.centerTile)
    ensures r.Constructed? ==> r.board.graph == GraphUsed(graph)
  {
    match PyIndex(tiles, CenterIndex(center))
    case None => IndexError
    case Some(c) => Constructed(Board(tiles, ports, c, GraphUsed(graph)))
  }

  /** The constructor. Tiles passed in (non-empty) are used as they are and
      the options are never read; otherwise the tiles and ports come from
      the retry loop run over the fixed graph, with `draws` supplying the
      outcomes of the random steps, one per attempt. */
  method NewBoard(options: map<string, bool>, given: seq<Tile>, graph: seq<Edge>, center: Option<int>, draws: seq<Draw>)
    returns (r: Construction, rejected: nat)
    requires |given| == 0 ==> HasOptions(options)
    requires forall i :: 0 <= i < |draws| ==> WellShaped(draws[i])
    ensures |given| > 0 ==> r == Assemble(given, None, graph, center)
    ensures |given| == 0 ==> rejected <= |draws|
    ensures |given| == 0 ==> forall j :: 0 <= j < rejected ==> Attempt(BoardGraph(), options, draws[j]).None?
    ensures |given| == 0 && rejected < |draws| ==>
      var layout := Attempt(BoardGraph(), options, draws[rejected]);
      layout.Some? && r == Assemble(layout.value.tiles, Some(layout.value.ports), graph, center)
    ensures |given| == 0 && rejected == |draws| ==> r.OutOfDraws?
    ensures |given| == 0 && r.Constructed? ==> |r.board.tiles| == 19 && Numbered(r.board.tiles)
    ensures |given| == 0 && r.Constructed? && options[ProductionOption] ==> RedFree(Graph, r.board.tiles)
  {
    if |given| > 0 {
      return Assemble(given, None, graph, center), 0;
    }
    var layout;
    layout, rejected := Generate(BoardGraph(), options, draws);
    if layout.None? {
      return OutOfDraws, rejected;
    }
    AttemptRedFree(BoardGraph(), options, draws[rejected]);
    r := Assemble(layout.value.tiles, Some(layout.value.ports), graph, center);
  }

  /** The position of the first edge in `edges` that ends at slot `id`. */
  function FirstTo(edges: seq<Edge>, id: int): (r: Option<nat>)
    ensures r.None? <==> forall j :: 0 <= j < |edges| ==> edges[j].dst != id
    ensures r.Some? ==> r.value < |edges| && edges[r.value].dst == id
    ensures r.Some? ==> forall j :: 0 <= j < r.value ==> edges[j].dst != id
  {
    if |edges| == 0 then None
    else if edges[0].dst == id then Some(0)
    else match FirstTo(edges[1..], id)
      case None => None
      case Some(k) => Some(k + 1)
  }

  /** `direction(src, dst)`: the direction of the first edge out of `src`
      that reaches `dst`. `None` stands for the `StopIteration` raised when
      there is no such edge. */
  function DirectionTo(b: Board, src: Tile, dst: Tile): (r: Option<Direction>)
    ensures r.Some? <==> Adjacent(b.graph, src.id, dst.id)
    ensures r.Some? ==> Edge(src.id, dst.id, r.value) in b.graph || Edge(dst.id, src.id, Pair(r.value)) in b.graph
  {
    var edges := EdgesFor(b.graph, src.id);
    EdgesForReachAdjacent(b.graph, src.id, dst.id);
    match FirstTo(edges, dst.id)
    case None => None
    case Some(k) =>
      assert edges[k] in edges;
      PairInvolutive(edges[k].dir);
      Some(edges[k].dir)
  }

  /** `neighbors_for(tile)`: for each edge out of `t`, the tile at list
      position `dst - 1`; `None` stands for the `IndexError` raised when one
      of those positions is outside the tile list. */
  function NeighborsFor(b: Board, t: Tile): (r: Option<seq<Tile>>)
    ensures var edges := EdgesFor(b.graph, t.id);
      && (r.Some? <==> forall i :: 0 <= i < |edges| ==> PyIndex(b.tiles, edges[i].dst - 1).Some?)
      && (r.Some? ==> |r.value| == |edges|)
      && (r.Some? ==> forall i :: 0 <= i < |edges| ==> Some(r.value[i]) == PyIndex(b.tiles, edges[i].dst - 1))
  {
    var edges := EdgesFor(b.graph, t.id);
    if forall i :: 0 <= i < |edges| ==> PyIndex(b.tiles, edges[i].dst - 1).Some? then
      Some(seq(|edges|, i requires 0 <= i < |edges| => PyIndex(b.tiles, edges[i].dst - 1).value))
    else None
  }

  /** Every edge out of `t` in a graph within slots 1..n ends in 1..n. */
  lemma EdgesForWithin(g: seq<Edge>, n: int, id: int)
    requires Within(g, n)
    ensures forall e :: e in EdgesFor(g, id) ==> 1 <= e.dst <= n
  {
    forall e | e in EdgesFor(g, id)
      ensures 1 <= e.dst <= n
    {
      if e in g {
        var j :| 0 <= j < |g| && g[j] == e;
      } else {
        var j :| 0 <= j < |g| && g[j] == Invert(e);
      }
    }
  }

  /** On a board whose graph stays within the slots of its tiles, asking
      for the neighbours of a tile never fails. */
  lemma NeighborsDefined(b: Board, t: Tile)
    requires Within(b.graph, |b.tiles|)
    ensures NeighborsFor(b, t).Some?
  {
    var edges := EdgesFor(b.graph, t.id);
    EdgesForWithin(b.graph, |b.tiles|, t.id);
    forall i | 0 <= i < |edges|
      ensures PyIndex(b.tiles, edges[i].dst - 1).Some?
    {
      assert edges[i] in edges;
    }
  }

  /** A neighbour is a tile of the board adjacent to `t`. */
  lemma NeighborIsAdjacent(b: Board, t: Tile, u: Tile)
    requires Numbered(b.tiles)
    requires Within(b.graph, |b.tiles|)
    requires NeighborsFor(b, t).Some? && u in NeighborsFor(b, t).value
    ensures u in b.tiles && Adjacent(b.graph, t.id, u.id)
  {
    var edges := EdgesFor(b.graph, t.id);
    var ns := NeighborsFor(b, t).value;
    EdgesForWithin(b.graph, |b.tiles|, t.id);
    var i :| 0 <= i < |ns| && ns[i] == u;
    var e := edges[i];
    assert e in edges;
    assert u == b.tiles[e.dst - 1] && u.id == e.dst;
    if e in b.graph {
      assert Edge(t.id, u.id, e.dir) in b.graph;
    } else {
      assert Edge(u.id, t.id, Pair(e.dir)) in b.graph;
    }
  }

  /** A tile of the board adjacent to `t` is a neighbour of `t`. */
  lemma AdjacentIsNeighbor(b: Board, t: Tile, u: Tile)
    requires Numbered(b.tiles)
    requires Within(b.graph, |b.tiles|)
    requires u in b.tiles && Adjacent(b.graph, t.id, u.id)
    ensures NeighborsFor(b, t).Some? && u in NeighborsFor(b, t).value
  {
    var edges := EdgesFor(b.graph, t.id);
    NeighborsDefined(b, t);
    var ns := NeighborsFor(b, t).value;
    var i := AdjacentEdgeIndex(b.graph, t.id, u.id);
    var j :| 0 <= j < |b.tiles| && b.tiles[j] == u;
    assert edges[i].dst - 1 == j;
    assert Some(ns[i]) == PyIndex(b.tiles, j) == Some(u);
  }

  /** The position, among the edges out of `a`, of an edge reaching `b`. */
  lemma AdjacentEdgeIndex(g: seq<Edge>, a: int, b: int) returns (i: nat)
    requires Adjacent(g, a, b)
    ensures i < |EdgesFor(g, a)| && EdgesFor(g, a)[i].dst == b
  {
    EdgesForReachAdjacent(g, a, b);
    var edges := EdgesFor(g, a);
    var e :| e in edges && e.dst == b;
    i :| i < |edges| && edges[i] == e;
  }

  /** On a board whose tiles are numbered 1..n and whose graph stays within
      those slots, the neighbours of `t` never fail and are exactly the
      tiles adjacent to it. */
  lemma NeighborsIff(b: Board, t: Tile)
    requires Numbered(b.tiles)
    requires Within(b.graph, |b.tiles|)
    ensures NeighborsFor(b, t).Some?
    ensures forall u :: u in NeighborsFor(b, t).value <==> u in b.tiles && Adjacent(b.graph, t.id, u.id)
  {
    NeighborsDefined(b, t);
    forall u
      ensures u in NeighborsFor(b, t).value <==> u in b.tiles && Adjacent(b.graph, t.id, u.id)
    {
      if u in NeighborsFor(b, t).value {
        NeighborIsAdjacent(b, t, u);
      }
      if u in b.tiles && Adjacent(b.graph, t.id, u.id) {
        AdjacentIsNeighbor(b, t, u);
      }
    }
  }

  /** Being a neighbour is symmetric between tiles of the board. */
  lemma NeighborsSymmetric(b: Board, t: Tile, u: Tile)
    requires Numbered(b.tiles)
    requires Within(b.graph, |b.tiles|)
    requires t in b.tiles
    requires NeighborsFor(b, t).Some? && u in NeighborsFor(b, t).value
    ensures NeighborsFor(b, u).Some? && t in NeighborsFor(b, u).value
  {
    NeighborsIff(b, t);
    NeighborsIff(b, u);
  }

  /** In a simple graph, all edges out of `a` that reach `b` are one edge. */
  lemma EdgesForUnique(g: seq<Edge>, e1: Edge, e2: Edge)
    requires Simple(g)
    requires e1 in EdgesFor(g, e1.src) && e2 in EdgesFor(g, e1.src)
    requires e2.dst == e1.dst
    ensures e1 == e2
  {
    var s1 := if e1 in g then e1 else Invert(e1);
    var s2 := if e2 in g then e2 else Invert(e2);
    assert SameEnds(s1, s2);
    assert s1 == s2;
    InvertInvolutive(e1);
    InvertInvolutive(e2);
  }

  /** Walking back along the edge just taken: on a simple graph, if the
      direction from `x` to `y` is `d` then the direction from `y` to `x` is
      the opposite of `d`. */
  lemma DirectionReverse(b: Board, x: Tile, y: Tile)
    requires Simple(b.graph)
    requires DirectionTo(b, x, y).Some?
    ensures DirectionTo(b, y, x) == Some(Pair(DirectionTo(b, x, y).value))
  {
    var g := b.graph;
    var ex := EdgesFor(g, x.id);
    var ey := EdgesFor(g, y.id);
    var k := FirstTo(ex, y.id).value;
    var e := ex[k];
    assert e in ex;
    EdgesForSymmetric(g, e);
    assert Invert(e) in ey;
    var m := FirstTo(ey, x.id).value;
    assert ey[m] in ey;
    EdgesForUnique(g, Invert(e), ey[m]);
  }

  /** On numbered tiles and a canonical graph within their slots, the
      neighbours of `t` never fail and no tile is listed twice. */
  lemma NeighborsDistinct(b: Board, t: Tile)
    requires Numbered(b.tiles)
    requires Within(b.graph, |b.tiles|)
    requires Canonical(b.graph)
    ensures NeighborsFor(b, t).Some?
    ensures var ns := NeighborsFor(b, t).value;
      forall i, j :: 0 <= i < j < |ns| ==> ns[i] != ns[j]
  {
    var edges := EdgesFor(b.graph, t.id);
    NeighborsDefined(b, t);
    EdgesForWithin(b.graph, |b.tiles|, t.id);
    EdgesForDistinct(b.graph, t.id);
    var ns := NeighborsFor(b, t).value;
    forall i, j | 0 <= i < j < |ns|
      ensures ns[i] != ns[j]
    {
      assert edges[i] in edges && edges[j] in edges;
      assert ns[i].id == edges[i].dst && ns[j].id == edges[j].dst;
    }
  }

  /** On a generated board over the fixed graph, `neighbors_for` lists
      each adjacent tile exactly once. */
  lemma FixedNeighborsDistinct(b: Board, t: Tile)
    requires b.graph == Graph
    requires |b.tiles| == 19 && Numbered(b.tiles)
    ensures NeighborsFor(b, t).Some?
    ensures var ns := NeighborsFor(b, t).value;
      forall i, j :: 0 <= i < j < |ns| ==> ns[i] != ns[j]
  {
    GraphCanonical();
    GraphWithinBoard();
    NeighborsDistinct(b, t);
  }

  /** Red numbers never touch: on a red-free numbered tile list, two tiles
      joined by an edge of `g` never both carry a 6 or an 8. */
  lemma RedFreeNoRedNeighbors(g: seq<Edge>, tiles: seq<Tile>, t: Tile, u: Tile)
    requires Numbered(tiles)
    requires RedFree(g, tiles)
    requires t in tiles && u in tiles
    requires Adjacent(g, t.id, u.id)
    ensures !(RedValue(t.value) && RedValue(u.value))
  {
    var d :| Edge(t.id, u.id, d) in g || Edge(u.id, t.id, d) in g;
    var i :| 0 <= i < |g| && (g[i] == Edge(t.id, u.id, d) || g[i] == Edge(u.id, t.id, d));
    var a :| 0 <= a < |tiles| && tiles[a] == t;
    var c :| 0 <= c < |tiles| && tiles[c] == u;
    assert ValueAt(tiles, t.id) == t.value;
    assert ValueAt(tiles, u.id) == u.value;
  }

  /** On numbered tiles, when the graph joins every slot to the next one,
      each tile in id order has a direction to the next: the tiles form a
      connected path. */
  lemma PathConnectedOn(b: Board)
    requires Numbered(b.tiles)
    requires forall j :: 1 <= j < |b.tiles| ==> JoinsNext(b.graph, j)
    ensures forall i :: 0 <= i < |b.tiles| - 1 ==> DirectionTo(b, b.tiles[i], b.tiles[i + 1]).Some?
  {
    forall i | 0 <= i < |b.tiles| - 1
      ensures DirectionTo(b, b.tiles[i], b.tiles[i + 1]).Some?
    {
      assert JoinsNext(b.graph, i + 1);
      var d :| Edge(i + 1, i + 2, d) in b.graph;
      assert Adjacent(b.graph, b.tiles[i].id, b.tiles[i + 1].id);
    }
  }

  /** The 19 tiles of a board on the fixed graph, taken in id order, form a
      connected path. */
  lemma PathConnected(b: Board)
    requires b.graph == Graph
    requires |b.tiles| == 19 && Numbered(b.tiles)
    ensures forall i :: 0 <= i < 18 ==> DirectionTo(b, b.tiles[i], b.tiles[i + 1]).Some?
  {
    forall j | 1 <= j < 19
      ensures JoinsNext(b.graph, j)
    {
      ConsecutiveSlotsJoined(j);
    }
    PathConnectedOn(b);
  }

  /** The default centre, index 1, is the tile with id 2 on a generated
      board; an absent or zero centre gives the tile with id 11. */
  lemma DefaultCenter(tiles: seq<Tile>, ports: Option<seq<Port>>, graph: seq<Edge>)
    requires |tiles| == 19 && Numbered(tiles)
    ensures Assemble(tiles, ports, graph, Some(1)).board.centerTile.id == 2
    ensures Assemble(tiles, ports, graph, None).board.centerTile.id == 11
    ensures Assemble(tiles, ports, graph, Some(0)).board.centerTile.id == 11
  {
  }
}
