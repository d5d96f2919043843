/** What every accepted generation attempt contains: one desert at the
    drawn index, the whole terrain pool, the number pool in order when it is
    not shuffled, and the port kinds on their fixed anchors. */
module AttemptFacts {
  import opened Wrappers
  import opened HexGraph
  import opened Pools
  import opened Seqs
  import opened Generator

  /** The terrain of each tile, in tile order. */
  function Terrains(tiles: seq<Tile>): (r: seq<Terrain>)
    ensures |r| == |tiles|
  {
    seq(|tiles|, i requires 0 <= i < |tiles| => tiles[i].terrain)
  }

  /** The number tokens read off the tiles in order, skipping the desert. */
  function Production(tiles: seq<Tile>): (r: seq<int>)
    ensures |r| <= |tiles|
    ensures forall v :: v in r <==> exists t :: t in tiles && t.value == Some(v)
  {
    if |tiles| == 0 then []
    else (if tiles[0].value.Some? then [tiles[0].value.value] else []) + Production(tiles[1..])
  }

  /** The kind of each port, in port order. */
  function Kinds(ports: seq<Port>): (r: seq<PortKind>)
    ensures |r| == |ports|
  {
    seq(|ports|, i requires 0 <= i < |ports| => ports[i].kind)
  }

  /** Each tile with its slot id dropped, back as a (terrain, value) pair. */
  function HexesOf(tiles: seq<Tile>): (r: seq<Hex>)
    ensures |r| == |tiles|
  {
    seq(|tiles|, i requires 0 <= i < |tiles| => Hex(tiles[i].terrain, tiles[i].value))
  }

  /** Reading the tokens off a concatenation reads each part in turn. */
  lemma {:induction false} ProductionAppend(a: seq<Tile>, b: seq<Tile>)
    ensures Production(a + b) == Production(a) + Production(b)
  {
    if |a| == 0 {
      assert a + b == b;
    } else {
      var head := if a[0].value.Some? then [a[0].value.value] else [];
      assert (a + b)[0] == a[0];
      assert (a + b)[1..] == a[1..] + b;
      calc {
        Production(a + b);
        head + Production(a[1..] + b);
        { ProductionAppend(a[1..], b); }
        head + (Production(a[1..]) + Production(b));
        (head + Production(a[1..])) + Production(b);
        Production(a) + Production(b);
      }
    }
  }

  /** Tiles that all carry a token yield exactly those tokens, in order. */
  lemma {:induction false} ProductionAllNumbered(tiles: seq<Tile>, ns: seq<int>)
    requires |tiles| == |ns|
    requires forall i :: 0 <= i < |tiles| ==> tiles[i].value == Some(ns[i])
    ensures Production(tiles) == ns
  {
    if |tiles| > 0 {
      ProductionAllNumbered(tiles[1..], ns[1..]);
    }
  }

  /** An accepted attempt numbers the 19 pairs of its tile data and places
      the port kinds it used on the anchors. */
  lemma AttemptContents(g: seq<Edge>, options: map<string, bool>, d: Draw, layout: Layout)
    requires HasOptions(options)
    requires WellShaped(d)
    requires Within(g, 19)
    requires Attempt(g, options, d) == Some(layout)
    ensures layout.tiles == Enumerate(TileData(options, d))
    ensures layout.ports == PlacePorts(PortLocations, KindsUsed(options, d))
  {
  }

  /** Numbering the zipped pairs with a desert inserted at k: the desert is
      tile k, it is the only desert when the terrain list holds none, and
      it is the only tile without a token. */
  lemma DesertOfPairs(terrain: seq<Terrain>, ns: seq<int>, k: int)
    requires |terrain| == |ns|
    requires 0 <= k <= |ns|
    requires Desert !in terrain
    ensures var tiles := Enumerate(Insert(Pairs(terrain, ns), k, Hex(Desert, None)));
      && tiles[k] == Tile(k + 1, Desert, None)
      && (forall i :: 0 <= i < |tiles| ==> (tiles[i].terrain == Desert <==> i == k))
      && (forall i :: 0 <= i < |tiles| ==> (tiles[i].value.None? <==> i == k))
  {
    var pairs := Pairs(terrain, ns);
    var tiles := Enumerate(Insert(pairs, k, Hex(Desert, None)));
    forall i | 0 <= i < |tiles| && i != k
      ensures tiles[i].terrain != Desert && tiles[i].value.Some?
    {
      var j := if i < k then i else i - 1;
      assert tiles[i].terrain == pairs[j].terrain == terrain[j];
    }
  }

  /** A shuffle of the terrain pool holds no desert. */
  lemma ShuffledHasNoDesert(d: Draw)
    requires TerrainShuffled(d)
    ensures Desert !in d.terrain
  {
    NoDesertInPool();
    assert Desert !in multiset(d.terrain);
  }

  /** The desert sits at the drawn index with no token, and it is the only
      tile that is a desert and the only tile without a token. */
  lemma DesertPlacement(options: map<string, bool>, d: Draw)
    requires HasOptions(options)
    requires WellShaped(d)
    requires TerrainShuffled(d)
    ensures var tiles := Enumerate(TileData(options, d));
      && tiles[d.desertAt] == Tile(d.desertAt + 1, Desert, None)
      && (forall i :: 0 <= i < |tiles| ==> (tiles[i].terrain == Desert <==> i == d.desertAt))
      && (forall i :: 0 <= i < |tiles| ==> (tiles[i].value.None? <==> i == d.desertAt))
  {
    ShuffledHasNoDesert(d);
    NumberPoolRange();
    DesertOfPairs(d.terrain, NumbersUsed(options, d), d.desertAt);
  }

  /** The tiles keep the zipped pairs in their relative order: taking the
      desert back out gives exactly the terrain zipped with the numbers. */
  lemma KeepsOrder(options: map<string, bool>, d: Draw)
    requires HasOptions(options)
    requires WellShaped(d)
    ensures RemoveAt(HexesOf(Enumerate(TileData(options, d))), d.desertAt)
         == Pairs(d.terrain, NumbersUsed(options, d))
  {
    var data := TileData(options, d);
    assert HexesOf(Enumerate(data)) == data;
    InsertThenRemove(Pairs(d.terrain, NumbersUsed(options, d)), d.desertAt, Hex(Desert, None));
  }

  /** Tiles carrying the tokens ns in order, with one token-less tile
      inserted at k, yield exactly ns. */
  lemma {:induction false} ProductionSkipsOne(tiles: seq<Tile>, k: int, ns: seq<int>)
    requires 0 <= k < |tiles| == |ns| + 1
    requires tiles[k].value.None?
    requires forall i :: 0 <= i < k ==> tiles[i].value == Some(ns[i])
    requires forall i :: k < i < |tiles| ==> tiles[i].value == Some(ns[i - 1])
    ensures Production(tiles) == ns
    decreases k
  {
    if k == 0 {
      ProductionAllNumbered(tiles[1..], ns);
    } else {
      ProductionSkipsOne(tiles[1..], k - 1, ns[1..]);
      assert ns == [ns[0]] + ns[1..];
    }
  }

  /** Zipping terrain with tokens, inserting the desert anywhere and
      numbering the result reads back exactly the tokens. */
  lemma ProductionOfPairs(terrain: seq<Terrain>, ns: seq<int>, k: int)
    requires |terrain| == |ns|
    requires 0 <= k <= |ns|
    ensures Production(Enumerate(Insert(Pairs(terrain, ns), k, Hex(Desert, None)))) == ns
  {
    var pairs := Pairs(terrain, ns);
    var tiles := Enumerate(Insert(pairs, k, Hex(Desert, None)));
    forall i | 0 <= i < k
      ensures tiles[i].value == Some(ns[i])
    {
      assert tiles[i].value == pairs[i].value;
    }
    forall i | k < i < |tiles|
      ensures tiles[i].value == Some(ns[i - 1])
    {
      assert tiles[i].value == pairs[i - 1].value;
    }
    ProductionSkipsOne(tiles, k, ns);
  }

  /** The tokens read off the tiles are the numbers the attempt used: the
      canonical list itself when production is not randomized, and in any
      case a permutation of it. */
  lemma ProductionInOrder(options: map<string, bool>, d: Draw)
    requires HasOptions(options)
    requires WellShaped(d)
    requires options[ProductionOption] ==> NumbersShuffled(d)
    ensures Production(Enumerate(TileData(options, d))) == NumbersUsed(options, d)
    ensures !options[ProductionOption] ==> Production(Enumerate(TileData(options, d))) == NumberPool
    ensures multiset(Production(Enumerate(TileData(options, d)))) == multiset(NumberPool)
  {
    NumberPoolRange();
    ProductionOfPairs(d.terrain, NumbersUsed(options, d), d.desertAt);
  }

  /** Zipping, inserting the desert and numbering keeps the terrain and
      adds one desert. */
  lemma TerrainOfPairs(terrain: seq<Terrain>, ns: seq<int>, k: int)
    requires |terrain| == |ns|
    requires 0 <= k <= |ns|
    ensures multiset(Terrains(Enumerate(Insert(Pairs(terrain, ns), k, Hex(Desert, None))))) == multiset(terrain) + multiset{Desert}
  {
    assert Terrains(Enumerate(Insert(Pairs(terrain, ns), k, Hex(Desert, None)))) == Insert(terrain, k, Desert);
  }

  /** The terrain of the tiles is the terrain pool plus one desert. */
  lemma TerrainPlusDesert(options: map<string, bool>, d: Draw)
    requires HasOptions(options)
    requires WellShaped(d)
    requires TerrainShuffled(d)
    ensures multiset(Terrains(Enumerate(TileData(options, d)))) == multiset(TerrainPool) + multiset{Desert}
  {
    NumberPoolRange();
    TerrainOfPairs(d.terrain, NumbersUsed(options, d), d.desertAt);
  }

  /** The 19 tiles hold four forest, four pasture, four fields, three
      mountains, three clay and one desert. */
  lemma TileTerrainCounts(options: map<string, bool>, d: Draw, t: Terrain)
    requires HasOptions(options)
    requires WellShaped(d)
    requires TerrainShuffled(d)
    ensures multiset(Terrains(Enumerate(TileData(options, d))))[t] == PoolCount(t) + (if t == Desert then 1 else 0)
  {
    TerrainPlusDesert(options, d);
    TerrainPoolCount(t);
  }

  /** The classic board with nothing randomized but the terrain: the first
      attempt is accepted, its tokens read in tile order are the canonical
      list, and its terrain is four forest, four pasture, four fields, three
      mountains, three clay and one desert. */
  lemma ClassicBoard(options: map<string, bool>, d: Draw)
    requires HasOptions(options)
    requires !options[ProductionOption] && !options[PortsOption]
    requires WellShaped(d)
    requires TerrainShuffled(d)
    ensures var r := Attempt(BoardGraph(), options, d);
      && r.Some?
      && Production(r.value.tiles) == NumberPool
      && forall t :: multiset(Terrains(r.value.tiles))[t] == PoolCount(t) + (if t == Desert then 1 else 0)
  {
    var r := Attempt(BoardGraph(), options, d);
    AttemptContents(BoardGraph(), options, d, r.value);
    ProductionInOrder(options, d);
    forall t {
      TileTerrainCounts(options, d, t);
    }
  }

  /** Zipping anchors with kinds of the same length puts kind i on anchor i. */
  lemma PortsOfAnchors(anchors: seq<(int, Direction)>, kinds: seq<PortKind>)
    requires |anchors| == |kinds|
    ensures var ports := PlacePorts(anchors, kinds);
      && |ports| == |anchors|
      && (forall i :: 0 <= i < |ports| ==> (ports[i].tile, ports[i].dir) == anchors[i])
      && Kinds(ports) == kinds
  {
  }

  /** The nine ports sit on the nine anchors in order; their kinds are the
      canonical list when ports are not randomized, and in any case a
      permutation of it. */
  lemma PortsOnAnchors(options: map<string, bool>, d: Draw)
    requires HasOptions(options)
    requires WellShaped(d)
    requires options[PortsOption] ==> PortsShuffled(d)
    ensures var ports := PlacePorts(PortLocations, KindsUsed(options, d));
      && |ports| == 9
      && (forall i :: 0 <= i < 9 ==> (ports[i].tile, ports[i].dir) == PortLocations[i])
      && Kinds(ports) == KindsUsed(options, d)
      && (!options[PortsOption] ==> Kinds(ports) == PortPool)
      && multiset(Kinds(ports)) == multiset(PortPool)
  {
    PortLocationsOnBoard();
    PortPoolCounts();
    PortsOfAnchors(PortLocations, KindsUsed(options, d));
  }

  /** The slots that can carry a red token when the canonical numbers are
      dealt with the desert at index k: tokens 2, 4, 10 and 15 of the
      canonical order land on slots 3, 5, 11 and 16 when they come before
      the desert, and on slots 4, 6, 12 and 17 when they come after it. */
  predicate CanonicalRedSlot(k: int, id: int) {
    || (id <= k && (id == 3 || id == 5 || id == 11 || id == 16))
    || (id >= k + 2 && (id == 4 || id == 6 || id == 12 || id == 17))
  }

  /** A slot that is red under some desert index. */
  predicate RedCandidate(id: int) {
    id == 3 || id == 4 || id == 5 || id == 6 || id == 11 || id == 12 || id == 16 || id == 17
  }

  /** Either an end of `e` can never be red, or `e` is one of the six edges
      of the fixed graph that join two red candidates. */
  predicate RedCandidateEdge(e: Edge) {
    || !RedCandidate(e.src)
    || !RedCandidate(e.dst)
    || (e.src == 3 && e.dst == 4)
    || (e.src == 4 && e.dst == 5)
    || (e.src == 5 && e.dst == 6)
    || (e.src == 6 && e.dst == 16)
    || (e.src == 11 && e.dst == 12)
    || (e.src == 16 && e.dst == 17)
  }

  /** Only six edges of the fixed graph join two red candidates. */
  lemma GraphRedCandidateEdges()
    ensures forall i :: 0 <= i < |Graph| ==> RedCandidateEdge(Graph[i])
  {
    forall i | 0 <= i < |Graph|
      ensures RedCandidateEdge(Graph[i])
    {
      if i < 6 {
      } else if i < 12 {
      } else if i < 18 {
      } else if i < 24 {
      } else if i < 30 {
      } else if i < 36 {
      } else {
      }
    }
  }

  /** With the canonical numbers, a red tile sits on a canonical red slot. */
  lemma CanonicalRedAt(terrain: seq<Terrain>, k: int, id: int)
    requires |terrain| == |NumberPool|
    requires 0 <= k <= |NumberPool|
    ensures RedValue(ValueAt(Enumerate(Insert(Pairs(terrain, NumberPool), k, Hex(Desert, None))), id)) ==> CanonicalRedSlot(k, id)
  {
    var pairs := Pairs(terrain, NumberPool);
    var tiles := Enumerate(Insert(pairs, k, Hex(Desert, None)));
    NumberPoolReds();
    if 1 <= id <= |tiles| && RedValue(tiles[id - 1].value) {
      var i := id - 1;
      if i < k {
        assert tiles[i].value == pairs[i].value == Some(NumberPool[i]);
      } else if i > k {
        assert tiles[i].value == pairs[i - 1].value == Some(NumberPool[i - 1]);
      }
    }
  }

  /** Dealt in canonical order, the numbers never put two red tokens on
      the ends of an edge of any graph whose only edges between red
      candidates are the six of the fixed graph, wherever the desert falls. */
  lemma CanonicalRedFreeOn(g: seq<Edge>, options: map<string, bool>, d: Draw)
    requires HasOptions(options)
    requires WellShaped(d)
    requires !options[ProductionOption]
    requires forall i :: 0 <= i < |g| ==> RedCandidateEdge(g[i])
    ensures RedFree(g, Enumerate(TileData(options, d)))
  {
    NumberPoolRange();
    var tiles := Enumerate(TileData(options, d));
    var k := d.desertAt;
    forall i | 0 <= i < |g|
      ensures !(RedValue(ValueAt(tiles, g[i].src)) && RedValue(ValueAt(tiles, g[i].dst)))
    {
      CanonicalRedAt(d.terrain, k, g[i].src);
      CanonicalRedAt(d.terrain, k, g[i].dst);
    }
  }

  /** With the fixed graph: an attempt that skips the red check because
      production is not randomized is red-free anyway. */
  lemma CanonicalNumbersRedFree(options: map<string, bool>, d: Draw)
    requires HasOptions(options)
    requires WellShaped(d)
    requires !options[ProductionOption]
    ensures RedFree(Graph, Enumerate(TileData(options, d)))
  {
    GraphRedCandidateEdges();
    CanonicalRedFreeOn(Graph, options, d);
  }
}
