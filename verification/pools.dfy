/** The fixed pools of terrain, number tokens and port kinds that every
    board is dealt from. */
module Pools {

  /** Hex terrain, by the one-letter code the board uses for it. */
  datatype Terrain =
    | Forest     // 'F'
    | Pasture    // 'P'
    | Fields     // 'H', the wheat hexes
    | Mountains  // 'M'
    | Clay       // 'C', the brick hexes
    | Desert     // 'D'

  /** Port kinds, by the one-letter code the board uses for them. */
  datatype PortKind =
    | Generic  // '?', any resource at three to one
    | Ore      // 'O'
    | Grain    // 'G'
    | Lumber   // 'L'
    | Brick    // 'B'
    | Wool     // 'W'

  /** The 18 terrain hexes other than the desert: four each of forest,
      pasture and fields, three each of mountains and clay. */
  const TerrainPool: seq<Terrain> :=
    Repeat(Forest, 4) + Repeat(Pasture, 4) + Repeat(Fields, 4) + Repeat(Mountains, 3) + Repeat(Clay, 3)

  /** `[x] * n`: the list holding `n` copies of `x`. */
  function Repeat<T>(x: T, n: nat): (r: seq<T>)
    ensures |r| == n
    ensures forall i :: 0 <= i < n ==> r[i] == x
  {
    if n == 0 then [] else [x] + Repeat(x, n - 1)
  }

  /** A repeated list holds its element `n` times and nothing else. */
  lemma {:induction false} RepeatCount<T>(x: T, n: nat, y: T)
    ensures multiset(Repeat(x, n))[y] == if y == x then n else 0
  {
    if n > 0 {
      RepeatCount(x, n - 1, y);
      assert Repeat(x, n) == [x] + Repeat(x, n - 1);
    }
  }

  /** The 18 number tokens in their canonical order. */
  const NumberPool: seq<int> := [5, 2, 6, 3, 8, 10, 9, 12, 11, 4, 8, 10, 9, 4, 5, 6, 3, 11]

  /** The nine port kinds in their canonical order. */
  const PortPool: seq<PortKind> := [Generic, Ore, Grain, Generic, Lumber, Brick, Generic, Generic, Wool]

  /** A number token whose hexes must not touch: 6 and 8, the two most likely
      rolls after 7. */
  predicate IsRed(n: int) {
    n == 6 || n == 8
  }

  /** The terrain pool holds four forest, four pasture, four fields, three
      mountains and three clay, and no desert. */
  lemma TerrainPoolCounts()
    ensures |TerrainPool| == 18
    ensures multiset(TerrainPool)[Forest] == 4
    ensures multiset(TerrainPool)[Pasture] == 4
    ensures multiset(TerrainPool)[Fields] == 4
    ensures multiset(TerrainPool)[Mountains] == 3
    ensures multiset(TerrainPool)[Clay] == 3
    ensures multiset(TerrainPool)[Desert] == 0
  {
    TerrainPoolCount(Forest);
    TerrainPoolCount(Pasture);
    TerrainPoolCount(Fields);
    TerrainPoolCount(Mountains);
    TerrainPoolCount(Clay);
    TerrainPoolCount(Desert);
  }

  /** The pool holds `PoolCount(t)` hexes of terrain `t`. */
  lemma TerrainPoolCount(t: Terrain)
    ensures multiset(TerrainPool)[t] == PoolCount(t)
  {
    assert multiset(TerrainPool) == multiset(Repeat(Forest, 4)) + multiset(Repeat(Pasture, 4))
      + multiset(Repeat(Fields, 4)) + multiset(Repeat(Mountains, 3)) + multiset(Repeat(Clay, 3));
    RepeatCount(Forest, 4, t);
    RepeatCount(Pasture, 4, t);
    RepeatCount(Fields, 4, t);
    RepeatCount(Mountains, 3, t);
    RepeatCount(Clay, 3, t);
  }

  /** There is no desert in the terrain pool. */
  lemma NoDesertInPool()
    ensures Desert !in TerrainPool
  {
  }

  /** How many hexes of each terrain the pool holds. */
  function PoolCount(t: Terrain): nat {
    match t
    case Forest => 4
    case Pasture => 4
    case Fields => 4
    case Mountains => 3
    case Clay => 3
    case Desert => 0
  }

  /** The number pool holds 18 tokens between 2 and 12, none of them 7. */
  lemma NumberPoolRange()
    ensures |NumberPool| == 18
    ensures forall i :: 0 <= i < |NumberPool| ==> 2 <= NumberPool[i] <= 12 && NumberPool[i] != 7
  {
  }

  /** Exactly four of the number tokens are red, at positions 2, 4, 10
      and 15 of the canonical order. */
  lemma NumberPoolReds()
    ensures forall i :: 0 <= i < |NumberPool| ==> (IsRed(NumberPool[i]) <==> i == 2 || i == 4 || i == 10 || i == 15)
  {
  }

  /** The port pool holds nine kinds, four of them generic and one of each
      resource. */
  lemma PortPoolCounts()
    ensures |PortPool| == 9
    ensures multiset(PortPool)[Generic] == 4
    ensures multiset(PortPool)[Ore] == 1 && multiset(PortPool)[Grain] == 1
    ensures multiset(PortPool)[Lumber] == 1 && multiset(PortPool)[Brick] == 1
    ensures multiset(PortPool)[Wool] == 1
  {
  }
}
