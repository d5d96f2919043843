# Catan starting board — a Dafny model

This project models the `Board` class of a small Settlers of Catan
board generator (`main.py`). A board has 19 hex tiles numbered 1..19
along a spiral: the outer ring is 1..12, the inner ring is 13..18 and the
centre is 19. Each tile carries a terrain and, except for the desert, a
number token. Nine ports sit on fixed (slot, side) anchors around the
coast. A fixed table of 42 directed edges says which slots touch and in
which compass direction. Each pair of touching slots is stored once; the
reverse edge is obtained by inverting the stored one.

What is modelled:

- **The fixed data** (`HexGraph`, `Pools`). This covers the terrain pool,
  the number pool and the port pool, the edge table, the port anchors, and
  the table of opposite directions with `invert`.
- **One generation attempt** (`Generator.Attempt`). The terrain is
  shuffled. The numbers are shuffled only with `randomize_production`, and
  the port kinds only with `randomize_ports`. Terrain and numbers are zipped
  into 18 pairs. The desert is inserted at a drawn index in 0..18, and the
  pairs are numbered 1..19. With production randomized, an attempt that puts
  two red tokens (6 or 8) on the two ends of an edge is rejected.
- **The retry loop** (`Generator.Generate`). It repeats attempts until one
  is accepted.
- **The constructor** (`Boards.NewBoard`). It handles tiles passed in or
  generated, the centre tile `tiles[center or 10]` picked by Python indexing
  (default `center=1`), and the optional replacement graph.
- **The two queries**. `direction` (`Boards.DirectionTo`) gives the
  direction of the first edge out of a tile that reaches another tile.
  `neighbors_for` (`Boards.NeighborsFor`) gives the tiles at the far end of
  every edge out of a tile.

How randomness and failure are represented:

- Each random step of an attempt arrives as a value. A `Draw` holds the
  shuffled terrain, the shuffled numbers, the shuffled ports and the desert
  index. The retry loop consumes a finite stream of draws, one per attempt.
- A Python exception that ends an operation is `None`, or a
  `Construction` alternative. This covers `IndexError` for a centre index
  outside the tile list, `StopIteration` from `direction` on tiles that do
  not touch, and `IndexError` from `neighbors_for` on an edge leaving the
  tile list.
- Looking up a missing option raises `KeyError`. It is a precondition
  (`HasOptions`) of every operation that reads the options.

Behaviour of the code that a reader might not expect:

- **Default centre tile.** The default `center=1` picks list index 1,
  the tile with id 2. `center=None` or `center=0` falls back to index 10,
  the tile with id 11. Neither is the geometric centre, id 19.
  `Boards.Assemble` states that the centre tile is `tiles[center or 10]`
  under Python indexing, and `Boards.DefaultCenter` works out the three
  default cases.
- **Graph used by the red check.** The red-placement check always walks
  the class's own edge table. A graph passed to the constructor is installed
  only after generation, so it affects the queries only. `Boards.NewBoard`
  runs generation on `BoardGraph()` and stores `GraphUsed(graph)` for the
  queries.
- **Direction between tiles that do not touch.** `direction` lets `next`
  raise `StopIteration` when no listed edge reaches the tile.
  `Boards.DirectionTo` returns `None` in that case.
- **Direction on a replacement graph.** `direction` returns the direction
  of the first listed edge that reaches the tile. The contract of
  `Boards.DirectionTo` pins that value down only on a simple graph, where
  at most one listed edge reaches it (`Boards.EdgesForUnique`). The fixed
  graph is simple (`HexGraph.GraphSimple`). On a replacement graph that
  joins two slots twice, the contract admits the direction of any of
  those edges.
- **Ports with tiles passed in.** When tiles are passed in, no ports are
  assigned (`ports` is `None`), because only generation sets them.

## Model

| member | source | states |
|---|---|---|
| `HexGraph.Pair` | main.py:305-307 | the opposite of a direction is the other direction on the same axis |
| `HexGraph.Invert` | main.py:310-311 | the inverted edge joins the same two slots in the opposite order and leaves along the same axis the other way |
| `HexGraph.PairInvolutive` | main.py:305-307 | the opposite of the opposite direction is the direction itself |
| `HexGraph.InvertInvolutive` | main.py:310-311 | inverting an edge twice gives it back, and no edge is its own inverse |
| `HexGraph.Outgoing` | main.py:276 | an edge is listed exactly when it is stored and leaves the given slot |
| `HexGraph.Incoming` | main.py:277 | an edge is listed exactly when its inverse is stored and it leaves the given slot |
| `HexGraph.EdgesFor` | main.py:275-277 | every edge listed for a tile leaves that tile; an edge is listed exactly when it, or its inverse, is stored |
| `HexGraph.EdgesForReachAdjacent` | main.py:275-277 | some edge listed for `a` reaches `b` exactly when `a` and `b` are joined in the graph, in either stored direction |
| `HexGraph.EdgesForSymmetric` | main.py:275-277 | an edge from `a` to `b` listed for `a` appears inverted among the edges listed for `b` |
| `HexGraph.OutgoingIncreasing` | main.py:276 | in a canonical table, the edges stored as leaving a slot reach strictly increasing slots |
| `HexGraph.IncomingIncreasing` | main.py:277 | in a canonical table, the inverted edges stored as entering a slot reach strictly increasing slots |
| `HexGraph.EdgesForDistinct` | main.py:275-277 | in a canonical table, no two edges listed for a slot reach the same slot, so each neighbour is listed once |
| `HexGraph.CanonicalOrdered` | main.py:283-300 | in a table increasing in (src, dst), every earlier edge is below every later one |
| `HexGraph.CanonicalIsSimple` | main.py:283-300 | a table stored low-to-high in increasing order has no loops and joins no two slots twice |
| `HexGraph.GraphWithinBoard` | main.py:283-300 | every endpoint of the 42 edges is a slot in 1..19 |
| `HexGraph.BoardGraph` | main.py:283-300 | the fixed edge table, with every endpoint a slot in 1..19 |
| `HexGraph.GraphLowToHigh` | main.py:283-300 | every edge is stored from its lower slot to its higher one |
| `HexGraph.GraphIncreasing` | main.py:283-300 | the table is strictly increasing in (src, dst) |
| `HexGraph.GraphCanonical` | main.py:283-300 | the table is canonical: low-to-high and increasing |
| `HexGraph.GraphSimple` | main.py:283-300 | the fixed graph has no loops and joins no two slots twice |
| `HexGraph.GraphEdgesDistinct` | main.py:275-300 | on the fixed graph, no slot lists the same neighbour twice |
| `HexGraph.ConsecutiveSlotsJoined` | main.py:283-300 | slots i and i + 1 are joined by a stored edge, from i to i + 1, for every i in 1..18 |
| `HexGraph.PortLocationsOnBoard` | main.py:301-303 | there are nine port anchors and each sits beside a slot in 1..19 |
| `Pools.Repeat` | main.py:279 | `[x] * n` has length n and holds only x |
| `Pools.RepeatCount` | main.py:279 | `[x] * n` holds x exactly n times and nothing else |
| `Pools.TerrainPoolCounts` | main.py:279 | the terrain pool has 18 hexes: four forest, four pasture, four fields, three mountains, three clay, no desert |
| `Pools.TerrainPoolCount` | main.py:279 | the pool holds `PoolCount(t)` hexes of each terrain t |
| `Pools.NoDesertInPool` | main.py:279 | the desert is not in the terrain pool |
| `Pools.NumberPoolRange` | main.py:280 | there are 18 number tokens, each in 2..12 and none equal to 7 |
| `Pools.NumberPoolReds` | main.py:280 | the red tokens (6, 8) are exactly those at positions 2, 4, 10 and 15 |
| `Pools.PortPoolCounts` | main.py:281 | there are nine port kinds: four generic and one of each resource |
| `Seqs.Insert` | main.py:262 | `insert(k, x)` puts x at k and moves everything from k up by one; the contents gain exactly x |
| `Seqs.InsertThenRemove` | main.py:262 | removing what was inserted gives back the list: the other pairs keep their relative order |
| `Seqs.PyIndex` | main.py:237 | Python indexing: defined exactly on -n..n-1, negative indices count from the end |
| `Generator.Enumerate` | main.py:265 | `enumerate(..., 1)` numbers the pairs 1..n in list order, keeping each terrain and value |
| `Generator.CheckRedPlacement` | main.py:267-273 | the check accepts exactly when no edge joins two numbered tiles that both carry 6 or 8 |
| `Generator.RedFreeEdges` | main.py:267-273 | red-freeness holds exactly when no stored edge has a red token on both ends |
| `Generator.NumbersUsed` | main.py:251-256 | the numbers an attempt uses are the canonical list when production is not randomized, and 18 long for a well-shaped draw |
| `Generator.KindsUsed` | main.py:252-258 | the port kinds an attempt uses are the canonical list when ports are not randomized, and nine long for a well-shaped draw |
| `Generator.Pairs` | main.py:261 | `zip` stops at the shorter list and pair i holds terrain i with number i |
| `Generator.PlacePorts` | main.py:260 | `zip` stops at the shorter list and port i sits on anchor i with kind i |
| `Generator.TileData` | main.py:261-262 | the zipped pairs with the desert inserted number 19 |
| `Generator.Attempt` | main.py:249-265 | an accepted attempt has 19 tiles numbered 1..19, and an attempt without randomized production is always accepted |
| `Generator.AttemptRedFree` | main.py:263-265 | an attempt is rejected exactly when production is randomized and its tiles put two reds on one edge; accepted randomized layouts are red-free |
| `Generator.Generate` | main.py:248-265 | the loop returns the first accepted attempt, every earlier attempt having been rejected, or gives up only when every draw was rejected; without randomized production the first attempt is taken |
| `Generator.AllRejectedEach` | main.py:263-264 | every attempt the loop skipped was rejected |
| `AttemptFacts.Production` | tests.py:13 | the tokens read off the tiles are at most one per tile, and a value is read exactly when some tile carries it |
| `AttemptFacts.ProductionAppend` | tests.py:13 | reading tokens off a concatenation reads each part in turn |
| `AttemptFacts.ProductionAllNumbered` | tests.py:13 | tiles that all carry tokens read back exactly those tokens, in order |
| `AttemptFacts.ProductionSkipsOne` | tests.py:13 | tokens with one token-less tile inserted read back as the tokens alone |
| `AttemptFacts.AttemptContents` | main.py:260-265 | an accepted attempt's tiles are its numbered pairs and its ports are its kinds on the anchors |
| `AttemptFacts.DesertOfPairs` | main.py:261-262 | after the insert, tile k is the desert with no token, and it is the only desert and the only tile without a token |
| `AttemptFacts.ShuffledHasNoDesert` | main.py:254 | a shuffle of the terrain pool holds no desert |
| `AttemptFacts.DesertPlacement` | main.py:261-265 | the desert is the tile with id k + 1 for the drawn index k, and it is the only desert and the only tile without a token |
| `AttemptFacts.KeepsOrder` | main.py:261-262 | taking the desert back out of the tiles leaves exactly the terrain zipped with the numbers |
| `AttemptFacts.ProductionOfPairs` | main.py:261-265 | the tokens read off the numbered tiles in order are exactly the zipped numbers |
| `AttemptFacts.ProductionInOrder` | main.py:255-265 | the tokens read off the tiles are the numbers used: the canonical list when production is not randomized, a permutation of it always |
| `AttemptFacts.TerrainOfPairs` | main.py:261-265 | zipping, inserting the desert and numbering keeps the terrain multiset and adds exactly one desert |
| `AttemptFacts.TerrainPlusDesert` | main.py:254-262 | the tiles' terrain is the terrain pool plus one desert |
| `AttemptFacts.TileTerrainCounts` | tests.py:14-20 | the 19 tiles hold four forest, four pasture, four fields, three mountains, three clay and one desert |
| `AttemptFacts.ClassicBoard` | tests.py:8-20 | with nothing but terrain randomized, the first attempt is accepted, its tokens read in order are the canonical list, and its terrain counts are 4/4/4/3/3/1 |
| `AttemptFacts.PortsOfAnchors` | main.py:260 | zipping anchors with kinds puts kind i on anchor i |
| `AttemptFacts.PortsOnAnchors` | main.py:257-260 | nine ports sit on the nine anchors in order; their kinds are the canonical list when ports are not randomized, a permutation of it always |
| `AttemptFacts.GraphRedCandidateEdges` | main.py:283-300 | only six edges of the fixed graph join two slots that can ever carry a red token |
| `AttemptFacts.CanonicalRedAt` | main.py:280 | with the canonical numbers, a red tile sits on slot 3, 5, 11 or 16 before the desert, or on 4, 6, 12 or 17 after it |
| `AttemptFacts.CanonicalRedFreeOn` | main.py:263 | on any graph whose only edges between red candidates are the fixed graph's six, the canonical numbers are red-free wherever the desert falls |
| `AttemptFacts.CanonicalNumbersRedFree` | main.py:263 | with production not randomized, the tiles are red-free wherever the desert falls, so skipping the check loses nothing |
| `Boards.CenterIndex` | main.py:237 | `center or 10`: an absent or zero centre means index 10, any other value is used as given |
| `Boards.GraphUsed` | main.py:238-239 | a non-empty graph passed in replaces the fixed one; an empty or absent one does not |
| `Boards.Assemble` | main.py:236-239 | construction fails with `IndexError` exactly when the centre index is outside the tiles; otherwise it keeps the tiles and ports, takes as centre tile `tiles[center or 10]` under Python indexing (so -1 is the last tile) and records the query graph |
| `Boards.NewBoard` | main.py:229-239 | tiles passed in are kept and the options are not read; otherwise the board is built from the first accepted attempt, every earlier one rejected, and has 19 numbered tiles, red-free when production is randomized |
| `Boards.FirstTo` | main.py:242-243 | the position of the first edge reaching the given slot; `None` exactly when no edge reaches it |
| `Boards.DirectionTo` | main.py:241-243 | a direction exists exactly when the two tiles are adjacent, and it is the direction of a stored edge between them, or the opposite of one stored the other way |
| `Boards.NeighborsFor` | main.py:245-246 | succeeds exactly when every edge out of the tile ends within the tile list, and lists one tile per such edge |
| `Boards.EdgesForWithin` | main.py:275-277 | in a graph within slots 1..n, every edge listed for a tile ends in 1..n |
| `Boards.NeighborsDefined` | main.py:245-246 | on a graph within the board's slots, asking for neighbours never fails |
| `Boards.NeighborIsAdjacent` | main.py:245-246 | every neighbour is a tile of the board adjacent to the given tile |
| `Boards.AdjacentIsNeighbor` | main.py:245-246 | every tile of the board adjacent to the given tile is a neighbour |
| `Boards.AdjacentEdgeIndex` | main.py:275-277 | for adjacent slots, some listed edge out of the first reaches the second |
| `Boards.NeighborsIff` | main.py:245-246 | on numbered tiles, the neighbours are exactly the adjacent tiles of the board |
| `Boards.NeighborsSymmetric` | main.py:245-246 | if u is a neighbour of t, then t is a neighbour of u |
| `Boards.NeighborsDistinct` | main.py:245-246 | on numbered tiles and a canonical graph within their slots, no tile is listed twice among the neighbours |
| `Boards.FixedNeighborsDistinct` | main.py:245-246 | on a generated board over the fixed graph, each neighbour is listed exactly once |
| `Boards.EdgesForUnique` | main.py:275-277 | in a simple graph, two listed edges out of a slot reaching the same slot are the same edge |
| `Boards.DirectionReverse` | main.py:241-243 | on a simple graph, the direction back is the opposite of the direction there |
| `Boards.RedFreeNoRedNeighbors` | main.py:267-273 | on red-free numbered tiles, two adjacent tiles never both carry 6 or 8 |
| `Boards.PathConnectedOn` | main.py:222-223 | on numbered tiles and a graph joining each slot to the next, each tile in id order has a direction to the next |
| `Boards.PathConnected` | main.py:222-223 | on the fixed graph, each of the 19 tiles in id order has a direction to the next, so the tiles form a connected path |
| `Boards.DefaultCenter` | main.py:229-237 | with 19 numbered tiles the default centre is the tile with id 2; an absent or zero centre gives id 11 |

## Left out

- The drawing code (`BoardUI`, `hex_points`, the option checkboxes, the Tk main loop and `main`) is not part of this model. It is I/O with floating-point geometry.
- The random number generator and its seeding are left out. Each shuffle and the desert index arrive as a `Draw`. Shuffles are stated as permutations of their pools (`TerrainShuffled`, `NumbersShuffled`, `PortsShuffled`) where a property needs that.
- Generator.Generate: the source loop retries forever. The model consumes a finite stream of draws and gives up (`None`, `OutOfDraws`) when the stream ends. Whether an accepted attempt is eventually drawn is not modelled.
- Boards.NewBoard: `tiles or ...` treats `None` and an empty list alike. The model represents both as an empty sequence. Tiles passed in are not checked, as in the source.
- Generator.Attempt: with production randomized, a rejected attempt still overwrites the board's ports before it retries. Only the accepted attempt's ports are observable afterwards, so the model returns them with that attempt.
- Generator.CheckRedPlacement: the source indexes `tiles[i - 1]` with Python indexing. The model requires the graph to stay within the tile list (`Within`), which the only graph the check ever walks, the fixed one, satisfies (`HexGraph.GraphWithinBoard`).
- Tile values are Python objects that the source tests with `t[1] in (6, 8)` and `if t.value`. The model uses `Option<int>` and treats only `None` as missing, which agrees with the source because no token is 0.
