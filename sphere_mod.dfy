/**
 * The first version of the generator (SphereMod, for the 1.12 host): one
 * roll per overworld chunk; on success a sphere of radius 4 to 7 made of
 * the biome's top block (with fallbacks for blocks that cannot float) is
 * written around a centre inside the chunk.
 */
module SphereMod {
  import opened Lattice
  import opened Host
  import opened JavaRandom

  /**
   * A block state: the registry name of its block and which of the
   * block's states it is; state 0 is the block's default state. The host
   * keeps one object per state, so comparing states is comparing these.
   */
  datatype BlockState = BlockState(block: ResourceLocation, variant: nat)

  function DefaultState(block: ResourceLocation): BlockState
  {
    BlockState(block, 0)
  }

  function Vanilla(path: string): ResourceLocation
  {
    ResourceLocation("minecraft", path)
  }

  const AIR: BlockState := DefaultState(Vanilla("air"))
  const WATER: BlockState := DefaultState(Vanilla("water"))
  const LAVA: BlockState := DefaultState(Vanilla("lava"))
  const DIRT: BlockState := DefaultState(Vanilla("dirt"))
  const SAND: BlockState := DefaultState(Vanilla("sand"))
  const SANDSTONE: BlockState := DefaultState(Vanilla("sandstone"))
  const GRAVEL: BlockState := DefaultState(Vanilla("gravel"))
  const STONE: BlockState := DefaultState(Vanilla("stone"))

  /** A biome; only its top block matters here. */
  datatype Biome = Biome(topBlock: BlockState)

  /** The configuration: sphere centres lie in [minHeight, maxHeight). */
  datatype Config = Config(minHeight: int, maxHeight: int)

  /**
   * The random draws of one generate call: the density roll
   * (nextFloat() < density), the raw draws behind the three coordinate
   * offsets and the one behind the radius.
   */
  datatype Draws = Draws(densityRoll: bool, xRaw: nat, zRaw: nat, yRaw: nat, radiusRaw: nat)

  /** The top blocks that are never used as they are. */
  predicate Replaced(s: BlockState)
  {
    s == AIR || s == WATER || s == LAVA || s == SAND || s == GRAVEL
  }

  /**
   * The surface block of a sphere: the biome's top block, except that
   * air, water and lava become dirt, sand becomes sandstone and gravel
   * becomes stone.
   */
  function GetIBlockState(biome: Biome): (r: BlockState)
    ensures !Replaced(r)
    ensures !Replaced(biome.topBlock) ==> r == biome.topBlock
    ensures biome.topBlock == AIR || biome.topBlock == WATER || biome.topBlock == LAVA ==> r == DIRT
    ensures biome.topBlock == SAND ==> r == SANDSTONE
    ensures biome.topBlock == GRAVEL ==> r == STONE
  {
    var top := biome.topBlock;
    var state := if top == AIR || top == WATER || top == LAVA then DIRT else top;
    var state' := if state == SAND then SANDSTONE else state;
    if state' == GRAVEL then STONE else state'
  }

  /**
   * The tests compare with the blocks' default states only: another state
   * of sand, such as red sand (variant 1), is kept as it is.
   */
  lemma GetIBlockStateRedSand()
    ensures GetIBlockState(Biome(BlockState(Vanilla("sand"), 1))) == BlockState(Vanilla("sand"), 1)
  {
  }

  /** The radius 4 + nextInt(4). */
  function SphereRadius(raw: nat): (r: int)
    ensures 4 <= r <= 7
  {
    4 + NextInt(raw, 4).value
  }

  /** Every radius from 4 to 7 can be drawn. */
  lemma SphereRadiusCovers(r: int)
    requires 4 <= r <= 7
    ensures exists raw: nat :: SphereRadius(raw) == r
  {
    assert SphereRadius(r - 4) == r;
  }

  /** The set of positions within `radius` of `pos`, collected over the bounding cube. */
  method GetBlockPos(pos: Pos, radius: int) returns (positions: set<Pos>)
    ensures positions == Ball(pos, radius)
  {
    positions := {};
    BallBeforeStart(pos, radius);
    var x := -radius;
    while x <= radius
      invariant -radius <= x
      invariant positions == BallBefore(pos, radius, x, -radius, -radius)
    {
      var y := -radius;
      while y <= radius
        invariant -radius <= y
        invariant positions == BallBefore(pos, radius, x, y, -radius)
      {
        var z := -radius;
        while z <= radius
          invariant -radius <= z
          invariant positions == BallBefore(pos, radius, x, y, z)
        {
          BallBeforeStep(pos, radius, x, y, z);
          if x * x + y * y + z * z <= radius * radius {
            positions := positions + {Add(pos, x, y, z)};
          }
          z := z + 1;
        }
        BallBeforeRowEnd(pos, radius, x, y, z);
        y := y + 1;
      }
      BallBeforeSliceEnd(pos, radius, x, y, -radius);
      x := x + 1;
    }
    BallBeforeEnd(pos, radius, x, -radius, -radius);
  }

  /** The world after a sphere of the surface block of the centre's biome is written. */
  ghost function SphereWorld(m: map<Pos, BlockState>, biomeAt: Pos -> Biome, pos: Pos, radiusRaw: nat)
    : map<Pos, BlockState>
  {
    Overwrite(m, Ball(pos, SphereRadius(radiusRaw)), _ => GetIBlockState(biomeAt(pos)))
  }

  /**
   * A sphere overwrites exactly the ball of radius 4 to 7 around its
   * centre, all of it with one surface block that is never a replaced top
   * block, and leaves every other position as it was.
   */
  lemma SphereWorldOutcome(m: map<Pos, BlockState>, biomeAt: Pos -> Biome, pos: Pos, radiusRaw: nat)
    ensures var r := SphereWorld(m, biomeAt, pos, radiusRaw);
      && r.Keys == m.Keys + Ball(pos, SphereRadius(radiusRaw))
      && (forall p :: p in Ball(pos, SphereRadius(radiusRaw)) ==>
            r[p] == GetIBlockState(biomeAt(pos)) && !Replaced(r[p]))
      && (forall p :: p in m && p !in Ball(pos, SphereRadius(radiusRaw)) ==> r[p] == m[p])
  {
    OverwriteFacts(m, Ball(pos, SphereRadius(radiusRaw)), _ => GetIBlockState(biomeAt(pos)));
  }

  /**
   * Writes the surface block at every position of the sphere around
   * `pos`, visiting the positions in whatever order the set yields them.
   */
  method GenerateSphere(world: World<BlockState, Biome>, pos: Pos, radiusRaw: nat)
    modifies world
    ensures world.blocks == SphereWorld(old(world.blocks), world.biomeAt, pos, radiusRaw)
  {
    var biome := world.biomeAt(pos);
    var state := GetIBlockState(biome);
    var radius := 4 + NextInt(radiusRaw, 4).value;
    var positions := GetBlockPos(pos, radius);

    ghost var fill: Pos -> BlockState := _ => state;
    ghost var initial := world.blocks;
    OverwriteNothing(initial, fill);
    var remaining := positions;
    while remaining != {}
      invariant remaining <= positions
      invariant world.blocks == Overwrite(initial, positions - remaining, fill)
      decreases remaining
    {
      var p :| p in remaining;
      OverwriteAdd(initial, positions - remaining, p, fill);
      assert (positions - remaining) + {p} == positions - (remaining - {p});
      world.SetBlockState(p, state);
      remaining := remaining - {p};
    }
  }

  /**
   * What one generate call does: nothing outside dimension 0 or when the
   * density roll fails; otherwise a centre in the chunk at a height in
   * [minHeight, maxHeight), or IllegalArgumentException from nextInt when
   * maxHeight <= minHeight.
   */
  function PlanSphere(dimension: int, chunkX: int, chunkZ: int, cfg: Config, d: Draws): (r: Placement)
    ensures r.Centre? <==> dimension == 0 && d.densityRoll && cfg.maxHeight > cfg.minHeight
    ensures r.Thrown? <==> dimension == 0 && d.densityRoll && cfg.maxHeight <= cfg.minHeight
    ensures r.Thrown? ==> r.error == IllegalArgument
    ensures r.Centre? ==>
      && chunkX * 16 <= r.pos.x <= chunkX * 16 + 15
      && chunkZ * 16 <= r.pos.z <= chunkZ * 16 + 15
      && cfg.minHeight <= r.pos.y <= cfg.maxHeight - 1
  {
    if dimension != 0 || !d.densityRoll then NoSphere
    else
      var x := chunkX * 16 + NextInt(d.xRaw, 16).value;
      var z := chunkZ * 16 + NextInt(d.zRaw, 16).value;
      match NextInt(d.yRaw, cfg.maxHeight - cfg.minHeight)
      case None => Thrown(IllegalArgument)
      case Some(dy) => Centre(Pos(x, cfg.minHeight + dy, z))
  }

  /** Conversely, every position of the chunk's column in the height range can be a centre. */
  lemma PlanSphereCovers(chunkX: int, chunkZ: int, cfg: Config, c: Pos)
    requires chunkX * 16 <= c.x <= chunkX * 16 + 15
    requires chunkZ * 16 <= c.z <= chunkZ * 16 + 15
    requires cfg.minHeight <= c.y < cfg.maxHeight
    ensures exists d: Draws :: PlanSphere(0, chunkX, chunkZ, cfg, d) == Centre(c)
  {
    var d := Draws(true, c.x - chunkX * 16, c.z - chunkZ * 16, c.y - cfg.minHeight, 0);
    assert PlanSphere(0, chunkX, chunkZ, cfg, d) == Centre(c);
  }

  /** The chunk-generation hook: at most one sphere per chunk, as PlanSphere decides. */
  method Generate(world: World<BlockState, Biome>, dimension: int, chunkX: int, chunkZ: int,
                  cfg: Config, d: Draws) returns (error: Option<Error>)
    modifies world
    ensures error == (match PlanSphere(dimension, chunkX, chunkZ, cfg, d)
                      case Thrown(e) => Some(e)
                      case _ => None)
    ensures world.blocks == (match PlanSphere(dimension, chunkX, chunkZ, cfg, d)
                             case Centre(c) => SphereWorld(old(world.blocks), world.biomeAt, c, d.radiusRaw)
                             case _ => old(world.blocks))
  {
    if dimension == 0 {
      if d.densityRoll {
        var x := chunkX * 16 + NextInt(d.xRaw, 16).value;
        var z := chunkZ * 16 + NextInt(d.zRaw, 16).value;
        var dy := NextInt(d.yRaw, cfg.maxHeight - cfg.minHeight);
        if dy.None? {
          return Some(IllegalArgument);
        }
        var y := cfg.minHeight + dy.value;
        assert PlanSphere(dimension, chunkX, chunkZ, cfg, d) == Centre(Pos(x, y, z));
        GenerateSphere(world, Pos(x, y, z), d.radiusRaw);
      }
    }
    return None;
  }
}
