/**
 * Level assembly (src/Level.jsx): the block catalog, the loop that draws `count` hazard
 * blocks from `types`, the placement of Start, hazards and End along the track, and the
 * transforms of the boundary walls and floor collider.
 *
 * Math.random is not available here: the values it returns are an explicit sequence of
 * draws, each in [0, 1). The level's `seed` prop only appears in the memo's dependency list
 * and never reaches the random source, so it is not an input of this model.
 */
module Level {
  import opened Geometry

  /** The hazard block components a level draws from (BlockSpinner, BlockAxe, BlockLimbo). */
  datatype Hazard = Spinner | Axe | Limbo

  /** Every block of a track: the Start and End caps and the hazards between them. */
  datatype Block = Start | Trap(hazard: Hazard) | End

  /** The defaults of `Level`'s props. */
  const DefaultCount: nat := 5
  const DefaultTypes: seq<Hazard> := [Spinner, Axe, Limbo]

  // ---------------------------------------------------------------- block catalog

  /**
   * The floor mesh of a block, in the coordinates of the block's group. Every block's floor
   * is a 4 x 4 tile centred on the group; the End floor sits 0.1 higher than the others.
   */
  function FloorMesh(b: Block): (m: Box)
    ensures XSpan(m) == Interval(-2.0, 2.0) && ZSpan(m) == Interval(-2.0, 2.0)
    ensures YSpan(m).hi == if b == End then 0.1 else 0.0
  {
    match b
    case End => Box(Vec3(0.0, 0.0, 0.0), Vec3(4.0, 0.2, 4.0))
    case _ => Box(Vec3(0.0, -0.1, 0.0), Vec3(4.0, 0.2, 4.0))
  }

  // ---------------------------------------------------------------- drawing the blocks

  /** A value `Math.random()` can return. */
  predicate IsRandom(r: real)
  {
    0.0 <= r < 1.0
  }

  predicate AllRandom(draws: seq<real>)
  {
    forall i :: 0 <= i < |draws| ==> IsRandom(draws[i])
  }

  /**
   * `Math.floor(r * n)`: the index that draw `r` selects among `n` types. It is always a
   * valid index, and it is the k with k <= r * n < k + 1.
   */
  function PickIndex(r: real, n: nat): (k: nat)
    requires IsRandom(r) && 0 < n
    ensures k < n
    ensures k as real <= r * n as real < k as real + 1.0
  {
    assert 0.0 <= r * n as real < n as real by { ScaledDrawBelow(r, n); }
    (r * n as real).Floor
  }

  /** 0 <= r * n < n for a draw r and a positive n. */
  lemma ScaledDrawBelow(r: real, n: nat)
    requires IsRandom(r) && 0 < n
    ensures 0.0 <= r * n as real < n as real
  {
    var m := n as real;
    assert r * m <= 1.0 * m - (1.0 - r) * m;
    assert (1.0 - r) * m > 0.0;
  }

  /**
   * Type k of n is selected exactly by the draws in [k/n, (k+1)/n): every type is
   * selected by an interval of draws of the same width 1/n.
   */
  lemma PickIndexInterval(r: real, n: nat, k: nat)
    requires IsRandom(r) && 0 < n && k < n
    ensures PickIndex(r, n) == k <==> k as real / n as real <= r < (k + 1) as real / n as real
  {
    var m := n as real;
    DivisionBound(k as real, r, m);
    DivisionBound((k + 1) as real, r, m);
    FloorUnique(r * m, PickIndex(r, n), k);
  }

  /** The integer part of x is the only k with k <= x < k + 1. */
  lemma FloorUnique(x: real, j: int, k: int)
    requires j as real <= x < j as real + 1.0
    ensures j == k <==> k as real <= x < (k + 1) as real
  {
    if j < k {
      assert x < (j + 1) as real <= k as real;
    } else if k < j {
      assert (k + 1) as real <= j as real <= x;
    }
  }

  /** a / m <= r exactly when a <= r * m, for a positive m. */
  lemma DivisionBound(a: real, r: real, m: real)
    requires 0.0 < m
    ensures a / m <= r <==> a <= r * m
  {
    assert a == (a / m) * m;
    if a / m <= r {
      assert (r - a / m) * m >= 0.0;
    } else {
      assert (a / m - r) * m > 0.0;
    }
  }

  /** The blocks the memo's loop builds from the first `count` draws: `types[floor(draws[i] * |types|)]`. */
  function DrawnBlocks(types: seq<Hazard>, draws: seq<real>, count: nat): (blocks: seq<Hazard>)
    requires 0 < |types| && count <= |draws| && AllRandom(draws)
    ensures |blocks| == count
    ensures forall i :: 0 <= i < count ==> blocks[i] in types
  {
    seq(count, i requires 0 <= i < count => types[PickIndex(draws[i], |types|)])
  }

  /** Drawing one more block extends the drawn list by that block and changes nothing before it. */
  lemma DrawnBlocksExtend(types: seq<Hazard>, draws: seq<real>, count: nat)
    requires 0 < |types| && count < |draws| && AllRandom(draws)
    ensures DrawnBlocks(types, draws, count + 1)
            == DrawnBlocks(types, draws, count) + [types[PickIndex(draws[count], |types|)]]
  {
    var longer := DrawnBlocks(types, draws, count + 1);
    var shorter := DrawnBlocks(types, draws, count) + [types[PickIndex(draws[count], |types|)]];
    assert |longer| == |shorter|;
    forall i | 0 <= i < |longer| ensures longer[i] == shorter[i] {
    }
  }

  /** The memo callback of `Level`: push one drawn type per iteration, `count` times. */
  method BuildBlocks(count: nat, types: seq<Hazard>, draws: seq<real>) returns (blocks: seq<Hazard>)
    requires 0 < |types| && count <= |draws| && AllRandom(draws)
    ensures blocks == DrawnBlocks(types, draws, count)
  {
    blocks := [];
    var i := 0;
    while i < count
      invariant i <= count
      invariant blocks == DrawnBlocks(types, draws, i)
    {
      var index := PickIndex(draws[i], |types|);
      DrawnBlocksExtend(types, draws, i);
      blocks := blocks + [types[index]];
      i := i + 1;
    }
  }

  // ---------------------------------------------------------------- placement

  /** A block and the position of its group. */
  datatype Placement = Placement(block: Block, position: Vec3)

  /** The group position of the k-th tile of the track, counting Start as tile 0: every tile is 4 units long along -z. */
  function Slot(k: int): Vec3
  {
    Vec3(0.0, 0.0, (-4 * k) as real)
  }

  /**
   * The blocks `Level` renders, in order: Start at the origin, hazard `index` at
   * z = -(index + 1) * 4, End at z = -(count + 1) * 4. Every one of them sits in the slot of
   * its position in the list.
   */
  function Layout(count: nat, blocks: seq<Hazard>): (segments: seq<Placement>)
    requires |blocks| == count
    ensures |segments| == count + 2
    ensures segments[0].block == Start && segments[count + 1].block == End
    ensures forall i :: 0 <= i < count ==> segments[i + 1].block == Trap(blocks[i])
    ensures forall k :: 0 <= k < |segments| ==> segments[k].position == Slot(k)
  {
    [Placement(Start, Vec3(0.0, 0.0, 0.0))]
    + seq(|blocks|, index requires 0 <= index < |blocks| =>
        Placement(Trap(blocks[index]), Vec3(0.0, 0.0, (-(index + 1) * 4) as real)))
    + [Placement(End, Vec3(0.0, 0.0, (-(count + 1) * 4) as real))]
  }

  /** The floor of a placed block, in world coordinates. */
  function WorldFloor(p: Placement): Box
  {
    Translate(FloorMesh(p.block), p.position)
  }

  /** Consecutive blocks are exactly one tile apart, with strictly decreasing z, and their floors abut. */
  lemma {:induction false} ConsecutiveTilesAbut(count: nat, blocks: seq<Hazard>, k: nat)
    requires |blocks| == count && k < count + 1
    ensures var segments := Layout(count, blocks);
      segments[k + 1].position.z == segments[k].position.z - 4.0
      && ZSpan(WorldFloor(segments[k + 1])).hi == ZSpan(WorldFloor(segments[k])).lo
  {
    var segments := Layout(count, blocks);
    assert segments[k].position == Slot(k);
    assert segments[k + 1].position == Slot(k + 1);
    var near := FloorMesh(segments[k].block);
    var far := FloorMesh(segments[k + 1].block);
    assert ZSpan(near) == Interval(-2.0, 2.0) && ZSpan(far) == Interval(-2.0, 2.0);
  }

  // ---------------------------------------------------------------- bounds

  /** A cuboid collider: half-extents (`args`), centre, restitution and friction. */
  datatype Collider = Collider(halfExtents: Vec3, position: Vec3, restitution: real, friction: real)

  /** The region a collider occupies, as a box of twice its half-extents. */
  function ColliderBox(c: Collider): Box
  {
    Box(c.position, Vec3(2.0 * c.halfExtents.x, 2.0 * c.halfExtents.y, 2.0 * c.halfExtents.z))
  }

  /**
   * The single fixed rigid body of `Bounds`: its three wall meshes (each a collider of the
   * body, with the body's restitution and friction) and the floor collider with its own.
   */
  datatype Walls = Walls(
    rightWall: Box, leftWall: Box, backWall: Box, floor: Collider,
    restitution: real, friction: real)

  /**
   * `Bounds` for a track of `length` tiles. The side walls and the floor collider span
   * z in [-4 * length + 2, 2], the back wall stands at the far end of that span, the side
   * walls are mirror images whose inner faces are at x = 2 and x = -2, the floor collider's
   * top is at y = 0, and the floor grips (friction 1) while the walls do not (friction 0).
   */
  function Bounds(length: int): (w: Walls)
    ensures ZSpan(w.rightWall) == Interval((-4 * length + 2) as real, 2.0)
    ensures ZSpan(w.leftWall) == ZSpan(w.rightWall) && ZSpan(ColliderBox(w.floor)) == ZSpan(w.rightWall)
    ensures w.backWall.position.z == ZSpan(w.rightWall).lo
    ensures w.leftWall == Box(Vec3(-w.rightWall.position.x, w.rightWall.position.y, w.rightWall.position.z),
                              w.rightWall.scale)
    ensures XSpan(w.rightWall).lo == 2.0 && XSpan(w.leftWall).hi == -2.0
    ensures XSpan(ColliderBox(w.floor)) == Interval(-2.0, 2.0) && XSpan(w.backWall) == Interval(-2.0, 2.0)
    ensures YSpan(w.rightWall) == Interval(0.0, 1.5) && YSpan(ColliderBox(w.floor)).hi == 0.0
    ensures w.floor.friction == 1.0 && w.friction == 0.0
    ensures w.floor.restitution == w.restitution == 0.2
  {
    var wallZ := (-(length * 2) + 2) as real;
    Walls(
      Box(Vec3(2.15, 0.75, wallZ), Vec3(0.3, 1.5, (4 * length) as real)),
      Box(Vec3(-2.15, 0.75, wallZ), Vec3(0.3, 1.5, (4 * length) as real)),
      Box(Vec3(0.0, 0.75, (-(length * 4) + 2) as real), Vec3(4.0, 1.5, 0.3)),
      Collider(Vec3(2.0, 0.1, (2 * length) as real), Vec3(0.0, -0.1, wallZ), 0.2, 1.0),
      0.2, 0.0)
  }

  /**
   * The walls enclose the whole track: every tile floor lies inside the side walls' z-span and
   * between their inner faces, Start's near edge is the walls' near end and End's far edge is
   * the walls' far end, where the back wall stands.
   */
  predicate Enclosed(segments: seq<Placement>, w: Walls)
  {
    TilesBetweenWalls(segments, w) && EndsMeetWalls(segments, w)
  }

  predicate TilesBetweenWalls(segments: seq<Placement>, w: Walls)
  {
    forall k :: 0 <= k < |segments| ==>
      Within(ZSpan(WorldFloor(segments[k])), ZSpan(w.rightWall))
      && XSpan(w.leftWall).hi <= XSpan(WorldFloor(segments[k])).lo
      && XSpan(WorldFloor(segments[k])).hi <= XSpan(w.rightWall).lo
  }

  predicate EndsMeetWalls(segments: seq<Placement>, w: Walls)
  {
    && 0 < |segments|
    && ZSpan(WorldFloor(segments[0])).hi == ZSpan(w.rightWall).hi
    && ZSpan(WorldFloor(segments[|segments| - 1])).lo == ZSpan(w.rightWall).lo == w.backWall.position.z
  }

  /** `Bounds(count + 2)` exactly encloses the tiles of a level with `count` hazards. */
  lemma {:induction false} BoundsEncloseLayout(count: nat, blocks: seq<Hazard>)
    requires |blocks| == count
    ensures Enclosed(Layout(count, blocks), Bounds(count + 2))
  {
    SlottedTilesEnclosed(Layout(count, blocks), count + 2);
  }

  /** Any `length` tiles that sit in the slots 0 .. length - 1 are enclosed by `Bounds(length)`. */
  lemma {:induction false} SlottedTilesEnclosed(segments: seq<Placement>, length: nat)
    requires 0 < |segments| == length
    requires forall k :: 0 <= k < |segments| ==> segments[k].position == Slot(k)
    ensures Enclosed(segments, Bounds(length))
  {
    TilesInsideBounds(segments, length);
    EndsAtBounds(segments, length);
  }

  /** Tiles that sit in the slots 0 .. length - 1 lie between the walls of `Bounds(length)`. */
  lemma {:induction false} TilesInsideBounds(segments: seq<Placement>, length: nat)
    requires |segments| == length
    requires forall k :: 0 <= k < |segments| ==> segments[k].position == Slot(k)
    ensures TilesBetweenWalls(segments, Bounds(length))
  {
    var w := Bounds(length);
    forall k | 0 <= k < |segments|
      ensures Within(ZSpan(WorldFloor(segments[k])), ZSpan(w.rightWall))
      ensures XSpan(w.leftWall).hi <= XSpan(WorldFloor(segments[k])).lo
      ensures XSpan(WorldFloor(segments[k])).hi <= XSpan(w.rightWall).lo
    {
      TileSpans(segments[k], k);
    }
  }

  /** The first and last of `length` slotted tiles meet the near and far ends of `Bounds(length)`. */
  lemma {:induction false} EndsAtBounds(segments: seq<Placement>, length: nat)
    requires 0 < |segments| == length
    requires segments[0].position == Slot(0) && segments[length - 1].position == Slot(length - 1)
    ensures EndsMeetWalls(segments, Bounds(length))
  {
    BackWallAtFarEnd(length);
    FirstTileAtNearEnd(segments, length);
    LastTileAtFarEnd(segments, length);
  }

  /** The back wall stands where the side walls end. */
  lemma BackWallAtFarEnd(length: nat)
    ensures ZSpan(Bounds(length).rightWall).lo == Bounds(length).backWall.position.z
  {
  }

  /** The tile in slot 0 ends at z = 2, the near end of the walls. */
  lemma FirstTileAtNearEnd(segments: seq<Placement>, length: nat)
    requires 0 < |segments| == length && segments[0].position == Slot(0)
    ensures ZSpan(WorldFloor(segments[0])).hi == 2.0
  {
    TileSpans(segments[0], 0);
  }

  /** The tile in slot length - 1 ends at z = -4 * length + 2, the far end of the walls. */
  lemma LastTileAtFarEnd(segments: seq<Placement>, length: nat)
    requires 0 < |segments| == length && segments[length - 1].position == Slot(length - 1)
    ensures ZSpan(WorldFloor(segments[length - 1])).lo == (-4 * length + 2) as real
  {
    TileSpans(segments[length - 1], length - 1);
  }

  /** A block in slot k covers x in [-2, 2] and z in [-4k - 2, -4k + 2]. */
  lemma TileSpans(p: Placement, k: int)
    requires p.position == Slot(k)
    ensures XSpan(WorldFloor(p)) == Interval(-2.0, 2.0)
    ensures ZSpan(WorldFloor(p)) == Interval((-4 * k - 2) as real, (-4 * k + 2) as real)
  {
    var mesh := FloorMesh(p.block);
    assert ZSpan(mesh) == Interval(-2.0, 2.0) && XSpan(mesh) == Interval(-2.0, 2.0);
  }

  // ---------------------------------------------------------------- the level

  /** What `Level` renders: the placed blocks and the bounds around them. */
  datatype Track = Track(segments: seq<Placement>, bounds: Walls)

  /**
   * `Level`: draw `count` blocks, place Start, the hazards and End, and size the bounds
   * with `length = count + 2`. The result is a function of `count`, `types` and the draws
   * alone, and it is enclosed by its bounds.
   */
  method Level(count: nat, types: seq<Hazard>, draws: seq<real>) returns (track: Track)
    requires 0 < |types| && count <= |draws| && AllRandom(draws)
    ensures track == Track(Layout(count, DrawnBlocks(types, draws, count)), Bounds(count + 2))
    ensures Enclosed(track.segments, track.bounds)
  {
    var blocks := BuildBlocks(count, types, draws);
    track := Track(Layout(count, blocks), Bounds(count + 2));
    BoundsEncloseLayout(count, blocks);
  }

  /**
   * A drawn level has `count + 2` blocks: Start first, End last, and in between only
   * hazards that are elements of `types`.
   */
  lemma {:induction false} DrawnLevelShape(count: nat, types: seq<Hazard>, draws: seq<real>)
    requires 0 < |types| && count <= |draws| && AllRandom(draws)
    ensures var segments := Layout(count, DrawnBlocks(types, draws, count));
      && |segments| == count + 2
      && segments[0].block == Start && segments[count + 1].block == End
      && forall k :: 1 <= k <= count ==> segments[k].block.Trap? && segments[k].block.hazard in types
  {
    var blocks := DrawnBlocks(types, draws, count);
    var segments := Layout(count, blocks);
    forall k | 1 <= k <= count
      ensures segments[k].block.Trap? && segments[k].block.hazard in types
    {
      assert segments[(k - 1) + 1].block == Trap(blocks[k - 1]);
    }
  }

  /**
   * The level with its default props: five hazards drawn from Spinner, Axe and Limbo, seven
   * blocks in all, End at z = -24 and walls spanning z in [-26, 2].
   */
  lemma DefaultLevel(draws: seq<real>)
    requires DefaultCount <= |draws| && AllRandom(draws)
    ensures var segments := Layout(DefaultCount, DrawnBlocks(DefaultTypes, draws, DefaultCount));
      && |segments| == 7
      && segments[6] == Placement(End, Vec3(0.0, 0.0, -24.0))
      && ZSpan(Bounds(DefaultCount + 2).rightWall) == Interval(-26.0, 2.0)
  {
    var segments := Layout(DefaultCount, DrawnBlocks(DefaultTypes, draws, DefaultCount));
    assert segments[6].position == Slot(6);
  }

  /** With no hazards, End is directly adjacent to Start and the bounds are two tiles long. */
  lemma EmptyLevel()
    ensures Layout(0, []) == [Placement(Start, Vec3(0.0, 0.0, 0.0)), Placement(End, Vec3(0.0, 0.0, -4.0))]
    ensures ZSpan(Bounds(0 + 2).rightWall) == Interval(-6.0, 2.0)
  {
    var segments := Layout(0, []);
    assert segments[1].position == Slot(1);
  }
}
