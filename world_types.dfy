/** Value types shared by the world state engine: positions, block types,
    light levels, liquid states, regions and the records the engine leaves
    behind (view requests, propagator calls, dirty marks). */
module WorldTypes {

  /** Height of the world: stored block rows have 0 <= y < SIZE_Y. */
  const SIZE_Y: int := 256

  /** Largest light level a block or the sun can give. */
  const MAX_LIGHT: int := 15

  /** A light value as a chunk stores it (a byte in [0, MAX_LIGHT]). */
  type Light = l: int | 0 <= l <= MAX_LIGHT

  /** A block position in world coordinates. */
  datatype Pos = Pos(x: int, y: int, z: int)

  /** A chunk coordinate, as the chunk provider names chunks. */
  datatype ChunkPos = ChunkPos(x: int, y: int, z: int)

  /** True when p lies in the vertical range that chunks store. */
  predicate InHeight(p: Pos)
  {
    0 <= p.y < SIZE_Y
  }

  /** A block type. Block types are interned, so identity of the Java
      objects is equality of these values; `id` tells types apart and
      `luminance` is the light the block emits. */
  datatype Block = Block(id: nat, luminance: Light)

  /** The air block: what zero-initialised chunk storage holds, and the
      sentinel every block read outside the world returns. */
  const AIR: Block := Block(0, 0)

  /** The outcome of comparing how two block types let light through.
      The engine only tests for IDENTICAL, so every other outcome is one
      case here. */
  datatype PropagationComparison = Identical | NotIdentical

  /** A liquid state at one block, compared by value. */
  datatype LiquidData = LiquidData(state: nat)

  /** The liquid state a fresh `LiquidData` has: the default. */
  const NO_LIQUID: LiquidData := LiquidData(0)

  /** An axis-aligned box of block positions: its minimum corner and its
      extent along each axis. */
  datatype Region = Region(min: Pos, sizeX: nat, sizeY: nat, sizeZ: nat)
  {
    /** A region is empty when it holds no block position. */
    predicate IsEmpty()
    {
      sizeX == 0 || sizeY == 0 || sizeZ == 0
    }
  }

  /** A call to the chunk view's dirty marking: around one block, or around
      a whole region. */
  datatype DirtyMark = AroundBlock(pos: Pos) | AroundRegion(region: Region)

  /** A request for a view of the given radius around a block. */
  datatype ViewRequest = ViewRequest(pos: Pos, radius: nat)

  /** One committed block change (position, new type, old type), as handed to
      the light propagator. */
  datatype Change = Change(pos: Pos, newType: Block, oldType: Block)

  /** What the light propagator returns: the region it actually affected,
      together with the block light and sunlight it leaves behind. */
  datatype Propagation = Propagation(affected: Region, light: map<Pos, Light>, sun: map<Pos, Light>)

  /** The view radius a block change needs. A change of light behaviour
      (how light passes, or how much light is emitted) can spread up to
      MAX_LIGHT blocks, so its view must reach one block past that; any
      other change needs only the first ring of neighbours. */
  function ViewRadius(cmp: PropagationComparison, newType: Block, oldType: Block): (r: nat)
    ensures r >= 1
    ensures (cmp != Identical || newType.luminance != oldType.luminance) ==> r == MAX_LIGHT + 1
    ensures (cmp == Identical && newType.luminance == oldType.luminance) ==> r == 1
  {
    if cmp != Identical || newType.luminance != oldType.luminance then MAX_LIGHT + 1 else 1
  }

  /** The larger of two light values. */
  function Max(a: Light, b: Light): (m: Light)
    ensures m >= a && m >= b
    ensures m == a || m == b
  {
    if a >= b then a else b
  }

  /** One element of a batch update request. */
  datatype BlockUpdate = BlockUpdate(pos: Pos, newType: Block, oldType: Block)
}
