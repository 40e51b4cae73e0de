/**
 * Tiles of a grid map: a tile is a type taken from the tile-definition table
 * and the grid coordinates it sits at. Also the grid arithmetic the map uses
 * on them: row-major indexing, the bounds test, and the eight neighbours an
 * actor is tested against.
 */
module Tiles {

  import opened Geometry

  /** TileDefinition: the parts the simulation reads. */
  datatype TileDefinition = TileDefinition(typeName: string, isSolid: bool)

  datatype Tile = Tile(definition: TileDefinition, coords: IntVec2)

  /**
   * Tile(typeName, x, y) and Tile(typeName, coords): the definition is found
   * in the table without a check, so the name must be present.
   */
  function NewTile(defs: map<string, TileDefinition>, typeName: string, x: int, y: int): (t: Tile)
    requires typeName in defs
    ensures t.coords.x == x && t.coords.y == y
    ensures t.definition == defs[typeName]
  {
    Tile(defs[typeName], IntVec2(x, y))
  }

  /** GetBounds: the unit square whose lower corner is the tile's coordinates. */
  function GetBounds(t: Tile): (b: AABB2)
    ensures b.mins == Vec2(t.coords.x as real, t.coords.y as real)
    ensures b.maxs.x == b.mins.x + 1.0 && b.maxs.y == b.mins.y + 1.0
  {
    AABB2(Vec2(t.coords.x as real, t.coords.y as real),
          Vec2((t.coords.x + 1) as real, (t.coords.y + 1) as real))
  }

  /** IsSolid: the definition's flag. */
  predicate IsSolid(t: Tile)
  {
    t.definition.isSolid
  }

  /** The test at the head of CollideActorWithTileIfSolid: 0 <= x <= width-1 and 0 <= y <= height-1. */
  predicate InBounds(c: IntVec2, dims: IntVec2)
  {
    !(c.x < 0 || c.x > dims.x - 1 || c.y < 0 || c.y > dims.y - 1)
  }

  /** x + y * width: the row-major index of a tile. */
  function TileIndex(c: IntVec2, width: int): int
  {
    c.x + c.y * width
  }

  /** a * w grows with a when w is not negative. */
  lemma MulMonotone(a: int, b: int, w: int)
    requires a <= b && 0 <= w
    ensures a * w <= b * w
  {
    var d := b - a;
    assert d * w >= 0;
    assert b * w == a * w + d * w;
  }

  /** Rows further down start at least a whole row width later. */
  lemma RowGap(a: int, b: int, w: int)
    requires a < b && 0 <= w
    ensures a * w + w <= b * w
  {
    MulMonotone(a + 1, b, w);
    assert (a + 1) * w == a * w + w;
  }

  /** Every in-bounds tile has an index inside the grid, and distinct tiles have distinct indices. */
  lemma TileIndexInGrid(c: IntVec2, d: IntVec2, dims: IntVec2)
    requires InBounds(c, dims) && InBounds(d, dims)
    ensures 0 <= TileIndex(c, dims.x) < dims.x * dims.y
    ensures TileIndex(c, dims.x) == TileIndex(d, dims.x) <==> c == d
  {
    MulMonotone(0, c.y, dims.x);
    MulMonotone(c.y, dims.y - 1, dims.x);
    assert (dims.y - 1) * dims.x == dims.x * dims.y - dims.x;
    if c != d && TileIndex(c, dims.x) == TileIndex(d, dims.x) {
      if c.y < d.y {
        RowGap(c.y, d.y, dims.x);
      } else if d.y < c.y {
        RowGap(d.y, c.y, dims.x);
      }
    }
  }

  /** TileIndexInGrid for every in-bounds tile at once, against one fixed tile. */
  lemma TileIndicesInGrid(d: IntVec2, dims: IntVec2)
    requires InBounds(d, dims)
    ensures forall c :: InBounds(c, dims) ==>
      0 <= TileIndex(c, dims.x) < dims.x * dims.y && (TileIndex(c, dims.x) == TileIndex(d, dims.x) <==> c == d)
  {
    forall c | InBounds(c, dims)
      ensures 0 <= TileIndex(c, dims.x) < dims.x * dims.y && (TileIndex(c, dims.x) == TileIndex(d, dims.x) <==> c == d)
    {
      TileIndexInGrid(c, d, dims);
    }
  }

  /** A grid with no columns or rows (as a map with no tile grid reports) has no tile in bounds. */
  lemma EmptyGridHasNoTile(c: IntVec2)
    ensures !InBounds(c, IntVec2(0, 0))
  {
  }

  const EAST: IntVec2 := IntVec2(1, 0)
  const WEST: IntVec2 := IntVec2(-1, 0)
  const NORTH: IntVec2 := IntVec2(0, 1)
  const SOUTH: IntVec2 := IntVec2(0, -1)

  /** The order in which CollideActorWithMap visits neighbours: E, W, N, S, then the four diagonals. */
  function NeighbourOffsets(): (offsets: seq<IntVec2>)
    ensures |offsets| == 8
  {
    [EAST, WEST, NORTH, SOUTH,
     EAST.Plus(NORTH), EAST.Plus(SOUTH), WEST.Plus(NORTH), WEST.Plus(SOUTH)]
  }

  /** The eight offsets are exactly the other cells of the 3x3 block around the tile, each once. */
  lemma NeighbourOffsetsAreTheRing()
    ensures forall k :: 0 <= k < 8 ==>
      -1 <= NeighbourOffsets()[k].x <= 1 && -1 <= NeighbourOffsets()[k].y <= 1 &&
      NeighbourOffsets()[k] != IntVec2(0, 0)
    ensures forall k, l :: 0 <= k < l < 8 ==> NeighbourOffsets()[k] != NeighbourOffsets()[l]
  {
  }

  /** The grid coordinates of the tile containing a point (RoundDownToInt of x and y). */
  function TileCoordsOf(p: Vec2): (c: IntVec2)
    ensures c.x as real <= p.x < c.x as real + 1.0
    ensures c.y as real <= p.y < c.y as real + 1.0
  {
    IntVec2(RoundDown(p.x), RoundDown(p.y))
  }

  /** CreateTileHeatMaps: 0 for each solid tile, 1 for each other tile, over width*height tiles. */
  function SolidHeatValues(tiles: seq<Tile>, count: nat): (values: seq<real>)
    requires count <= |tiles|
    ensures |values| == count
    ensures forall i :: 0 <= i < count ==> (values[i] == 0.0 <==> IsSolid(tiles[i]))
    ensures forall i :: 0 <= i < count ==> (values[i] == 1.0 <==> !IsSolid(tiles[i]))
  {
    seq(count, i requires 0 <= i < count => if IsSolid(tiles[i]) then 0.0 else 1.0)
  }
}
