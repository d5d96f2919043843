/** One generation attempt of the board and the retry loop around it.

    The shuffles and the choice of desert position are the only random
    steps; here they arrive as a `Draw` — one possible outcome of each —
    so that an attempt is a pure function of the options and the draw. */
module Generator {
  import opened Wrappers
  import opened HexGraph
  import opened Pools
  import opened Seqs

  /** A (terrain, number) pair before it is given a slot; the value is
      `None` only on the desert. */
  datatype Hex = Hex(terrain: Terrain, value: Option<int>)

  /** A tile of a board: its slot id, terrain and number token. */
  datatype Tile = Tile(id: int, terrain: Terrain, value: Option<int>)

  /** A port: the slot it sits beside, the side of that slot, its kind. */
  datatype Port = Port(tile: int, dir: Direction, kind: PortKind)

  /** What one accepted attempt produces. */
  datatype Layout = Layout(tiles: seq<Tile>, ports: seq<Port>)

  /** One outcome of the random steps of an attempt: the shuffled terrain,
      the shuffled numbers, the shuffled port kinds, and the insertion index
      drawn for the desert. */
  datatype Draw = Draw(terrain: seq<Terrain>, numbers: seq<int>, ports: seq<PortKind>, desertAt: int)

  const ProductionOption: string := "randomize_production"
  const PortsOption: string := "randomize_ports"

  /** Both options are present; looking up a missing one fails the attempt. */
  predicate HasOptions(options: map<string, bool>) {
    ProductionOption in options && PortsOption in options
  }

  /** `d` has the shape the random steps give it: each shuffled list is as
      long as its pool, and the desert index lies in 0..18, the range drawn
      for inserting into the 18 zipped pairs. */
  predicate WellShaped(d: Draw) {
    && |d.terrain| == 18
    && |d.numbers| == 18
    && |d.ports| == 9
    && 0 <= d.desertAt <= 18
  }

  /** The terrain of `d` is a shuffle of the terrain pool. */
  predicate TerrainShuffled(d: Draw) {
    multiset(d.terrain) == multiset(TerrainPool)
  }

  /** The numbers of `d` are a shuffle of the number pool. */
  predicate NumbersShuffled(d: Draw) {
    multiset(d.numbers) == multiset(NumberPool)
  }

  /** The port kinds of `d` are a shuffle of the port pool. */
  predicate PortsShuffled(d: Draw) {
    multiset(d.ports) == multiset(PortPool)
  }

  /** The tile ids are 1..n in list order. */
  ghost predicate Numbered(tiles: seq<Tile>) {
    forall i :: 0 <= i < |tiles| ==> tiles[i].id == i + 1
  }

  /** A number token marked red: 6 or 8. */
  predicate RedValue(v: Option<int>) {
    v.Some? && IsRed(v.value)
  }

  /** The value of the tile with slot `id` in a numbered tile list. */
  function ValueAt(tiles: seq<Tile>, id: int): Option<int> {
    if 1 <= id <= |tiles| then tiles[id - 1].value else None
  }

  /** No edge of `g` joins two tiles that both carry a red number. */
  ghost predicate RedFree(g: seq<Edge>, tiles: seq<Tile>) {
    forall i :: 0 <= i < |g| ==> !(RedValue(ValueAt(tiles, g[i].src)) && RedValue(ValueAt(tiles, g[i].dst)))
  }

  /** Red-freeness depends only on which edges are stored, not on their
      order or repetition: it holds exactly when no stored edge has two red
      ends. */
  lemma RedFreeEdges(g: seq<Edge>, tiles: seq<Tile>)
    ensures RedFree(g, tiles) <==> forall e :: e in g ==> !(RedValue(ValueAt(tiles, e.src)) && RedValue(ValueAt(tiles, e.dst)))
  {
    if RedFree(g, tiles) {
      forall e | e in g
        ensures !(RedValue(ValueAt(tiles, e.src)) && RedValue(ValueAt(tiles, e.dst)))
      {
        var i :| 0 <= i < |g| && g[i] == e;
      }
    }
  }

  /** Gives slot ids 1..n to the pairs, in list order. */
  function Enumerate(data: seq<Hex>): (r: seq<Tile>)
    ensures |r| == |data| && Numbered(r)
    ensures forall i :: 0 <= i < |r| ==> r[i].terrain == data[i].terrain && r[i].value == data[i].value
  {
    seq(|data|, i requires 0 <= i < |data| => Tile(i + 1, data[i].terrain, data[i].value))
  }

  /** The red-placement check, run over the pairs before they are numbered:
      walks the edges of `g` and fails on the first one whose two ends are
      both red. It accepts exactly the layouts that are red-free. */
  function CheckRedPlacement(g: seq<Edge>, data: seq<Hex>): (ok: bool)
    requires Within(g, |data|)
    ensures ok <==> RedFree(g, Enumerate(data))
  {
    if |g| == 0 then true
    else if RedValue(data[g[0].src - 1].value) && RedValue(data[g[0].dst - 1].value) then false
    else
      assert Within(g[1..], |data|);
      var rest := CheckRedPlacement(g[1..], data);
      assert RedFree(g, Enumerate(data)) <==> RedFree(g[1..], Enumerate(data)) by {
        var tiles := Enumerate(data);
        if RedFree(g[1..], tiles) {
          forall i | 0 <= i < |g|
            ensures !(RedValue(ValueAt(tiles, g[i].src)) && RedValue(ValueAt(tiles, g[i].dst)))
          {
            if i > 0 {
              assert g[i] == g[1..][i - 1];
            }
          }
        }
      }
      rest
  }

  /** The numbers used by an attempt: shuffled only when production is randomized. */
  function NumbersUsed(options: map<string, bool>, d: Draw): (r: seq<int>)
    requires HasOptions(options)
    ensures !options[ProductionOption] ==> r == NumberPool
    ensures WellShaped(d) ==> |r| == 18
  {
    if options[ProductionOption] then d.numbers else NumberPool
  }

  /** The port kinds used by an attempt: shuffled only when ports are randomized. */
  function KindsUsed(options: map<string, bool>, d: Draw): (r: seq<PortKind>)
    requires HasOptions(options)
    ensures !options[PortsOption] ==> r == PortPool
    ensures WellShaped(d) ==> |r| == 9
  {
    if options[PortsOption] then d.ports else PortPool
  }

  /** `zip(terrain, numbers)`, which stops at the shorter list: the
      non-desert pairs, each number attached to the terrain beside it. */
  function Pairs(terrain: seq<Terrain>, numbers: seq<int>): (r: seq<Hex>)
    ensures |r| == if |terrain| < |numbers| then |terrain| else |numbers|
    ensures forall i :: 0 <= i < |r| ==> r[i].terrain == terrain[i] && r[i].value == Some(numbers[i])
  {
    var n := if |terrain| < |numbers| then |terrain| else |numbers|;
    seq(n, i requires 0 <= i < n => Hex(terrain[i], Some(numbers[i])))
  }

  /** `zip(anchors, kinds)`, which stops at the shorter list: each port
      kind placed on its anchor, in anchor order. */
  function PlacePorts(anchors: seq<(int, Direction)>, kinds: seq<PortKind>): (r: seq<Port>)
    ensures |r| == if |anchors| < |kinds| then |anchors| else |kinds|
    ensures forall i :: 0 <= i < |r| ==> r[i].tile == anchors[i].0 && r[i].dir == anchors[i].1 && r[i].kind == kinds[i]
  {
    var n := if |anchors| < |kinds| then |anchors| else |kinds|;
    seq(n, i requires 0 <= i < n => Port(anchors[i].0, anchors[i].1, kinds[i]))
  }

  /** The 19 pairs of an attempt: the zipped pairs with the desert inserted. */
  function TileData(options: map<string, bool>, d: Draw): (r: seq<Hex>)
    requires HasOptions(options)
    requires WellShaped(d)
    ensures |r| == 19
  {
    Insert(Pairs(d.terrain, NumbersUsed(options, d)), d.desertAt, Hex(Desert, None))
  }

  /** One generation attempt. With production randomized, a layout in which
      two red numbers touch is rejected (`None`); otherwise the pairs are
      numbered 1..19 and returned together with the ports. */
  function Attempt(g: seq<Edge>, options: map<string, bool>, d: Draw): (r: Option<Layout>)
    requires Within(g, 19)
    requires HasOptions(options)
    requires WellShaped(d)
    ensures r.Some? ==> |r.value.tiles| == 19 && Numbered(r.value.tiles)
    ensures !options[ProductionOption] ==> r.Some?
  {
    if options[ProductionOption] && !CheckRedPlacement(g, TileData(options, d)) then None
    else Some(Layout(Enumerate(TileData(options, d)), PlacePorts(PortLocations, KindsUsed(options, d))))
  }

  /** An attempt is rejected exactly when production is randomized and its
      numbered tiles put two red numbers on the two ends of a graph edge. */
  lemma AttemptRedFree(g: seq<Edge>, options: map<string, bool>, d: Draw)
    requires Within(g, 19)
    requires HasOptions(options)
    requires WellShaped(d)
    ensures Attempt(g, options, d).None? <==> options[ProductionOption] && !RedFree(g, Enumerate(TileData(options, d)))
    ensures Attempt(g, options, d).Some? && options[ProductionOption] ==> RedFree(g, Attempt(g, options, d).value.tiles)
  {
    var data := TileData(options, d);
    var ok := CheckRedPlacement(g, data);
    assert ok <==> RedFree(g, Enumerate(data));
    if options[ProductionOption] && !ok {
      assert Attempt(g, options, d).None?;
    } else {
      assert Attempt(g, options, d) == Some(Layout(Enumerate(data), PlacePorts(PortLocations, KindsUsed(options, d))));
    }
  }

  /** Each of the first `n` draws gives a rejected attempt. */
  predicate AllRejected(g: seq<Edge>, options: map<string, bool>, draws: seq<Draw>, n: nat)
    requires Within(g, 19)
    requires HasOptions(options)
    requires n <= |draws|
    requires forall i :: 0 <= i < |draws| ==> WellShaped(draws[i])
  {
    n == 0 || (AllRejected(g, options, draws, n - 1) && Attempt(g, options, draws[n - 1]).None?)
  }

  /** The retry loop over a stream of draws, one per attempt: returns the
      layout of the first attempt that is not rejected, with the number of
      rejected attempts before it, or `None` once the stream runs out.
      Without randomized production nothing is ever rejected, so the first
      draw is taken. */
  method Generate(g: seq<Edge>, options: map<string, bool>, draws: seq<Draw>) returns (layout: Option<Layout>, rejected: nat)
    requires Within(g, 19)
    requires HasOptions(options)
    requires forall i :: 0 <= i < |draws| ==> WellShaped(draws[i])
    ensures rejected <= |draws|
    ensures forall j :: 0 <= j < rejected ==> Attempt(g, options, draws[j]).None?
    ensures layout.Some? ==> rejected < |draws| && Attempt(g, options, draws[rejected]) == layout
    ensures layout.None? ==> rejected == |draws|
    ensures !options[ProductionOption] && |draws| > 0 ==> layout.Some? && rejected == 0
  {
    var i := 0;
    while i < |draws|
      invariant 0 <= i <= |draws|
      invariant AllRejected(g, options, draws, i)
    {
      var r := Attempt(g, options, draws[i]);
      if r.Some? {
        AllRejectedEach(g, options, draws, i);
        return r, i;
      }
      i := i + 1;
    }
    AllRejectedEach(g, options, draws, |draws|);
    return None, |draws|;
  }

  /** `AllRejected` says what it promises: every one of the first `n`
      attempts is rejected. */
  lemma {:induction false} AllRejectedEach(g: seq<Edge>, options: map<string, bool>, draws: seq<Draw>, n: nat)
    requires Within(g, 19)
    requires HasOptions(options)
    requires n <= |draws|
    requires forall i :: 0 <= i < |draws| ==> WellShaped(draws[i])
    requires AllRejected(g, options, draws, n)
    ensures forall j :: 0 <= j < n ==> Attempt(g, options, draws[j]).None?
    decreases n
  {
    if n > 0 {
      assert AllRejected(g, options, draws, n - 1);
      AllRejectedEach(g, options, draws, n - 1);
      forall j | 0 <= j < n
        ensures Attempt(g, options, draws[j]).None?
      {
        if j == n - 1 {
          assert Attempt(g, options, draws[n - 1]).None?;
        }
      }
    }
  }
}
