/**
 * The later version of the generator (SkySpheres, for the 1.16 host).
 * At setup a table from biome to eligible ore blocks is built from the
 * block and biome registries. Generation visits a 16x16 block of chunk
 * indices starting at the region's main chunk; each chunk whose density
 * roll succeeds gets a sphere of configurable radius whose blocks are the
 * biome's top or under block, each replaced by a random ore of the
 * biome's table when the ore roll succeeds.
 */
module SkySpheres {
  import opened Lattice
  import opened Host
  import opened JavaRandom
  import opened Strings

  /** Block.hasTileEntity either answers or throws; the generator catches the exception. */
  datatype TileEntityQuery = Answers(hasTileEntity: bool) | Throws

  /** A registered block: its registry name (absent when null) and the host facts the generator asks about. */
  datatype Block = Block(registryName: Option<ResourceLocation>, tileEntity: TileEntityQuery, defaultHasFluid: bool)

  /** A block state: its block, which of the block's states it is (0 = default) and whether it holds a fluid. */
  datatype BlockState = BlockState(block: Block, variant: nat, hasFluid: bool)

  function DefaultState(b: Block): BlockState
  {
    BlockState(b, 0, b.defaultHasFluid)
  }

  const AIR: Block := Block(Some(ResourceLocation("minecraft", "air")), Answers(false), false)
  const STONE: BlockState := DefaultState(Block(Some(ResourceLocation("minecraft", "stone")), Answers(false), false))

  /** A biome: its registry name and the top and under blocks of its surface builder. */
  datatype Biome = Biome(registryName: Option<ResourceLocation>, top: BlockState, under: BlockState)

  /**
   * The configuration: heights and sphere sizes are inclusive ranges;
   * blockDenyList is the comma-separated string of block ids. The
   * probabilities are not values here: their rolls are draws.
   */
  datatype Config = Config(minHeight: int, maxHeight: int, minSphereSize: int, maxSphereSize: int,
                           blockDenyList: string)

  /**
   * The deny list: the configured string split on ",", matched by exact
   * id. No entry contains a comma, and a string without a comma is a
   * one-entry list.
   */
  function DenyList(cfg: Config): (r: seq<string>)
    ensures forall i :: 0 <= i < |r| ==> ',' !in r[i]
    ensures ',' !in cfg.blockDenyList ==> r == [cfg.blockDenyList]
  {
    Split(cfg.blockDenyList, ',')
  }

  // ---------------------------------------------------------------------
  // Surface block

  /** hasTileEntity: the host's answer, false when the host throws. */
  predicate HasTileEntity(b: Block)
  {
    b.tileEntity == Answers(true)
  }

  /** A state holding a fluid or whose block has a tile entity. */
  predicate IsSpecialBlock(s: BlockState)
  {
    s.hasFluid || HasTileEntity(s.block)
  }

  /** The state nextBoolean picks: the biome's top block on true, its under block on false. */
  function ChosenState(biome: Biome, useTop: bool): BlockState
  {
    if useTop then biome.top else biome.under
  }

  /** The full registry id of a state's block, when its block has one. */
  function StateId(s: BlockState): Option<string>
  {
    match s.block.registryName
    case None => None
    case Some(name) => Some(name.ToString())
  }

  /**
   * The sphere's surface block: the chosen state, or stone when that state
   * is special or denied. A missing registry name on a state that is kept
   * for the deny-list check is Java's NullPointerException.
   */
  function GetIBlockState(biome: Biome, useTop: bool, denyList: seq<string>): (r: Option<BlockState>)
    ensures var s := ChosenState(biome, useTop);
      && (r.Some? ==> r.value == STONE || r.value == s)
      && (r.Some? && r.value != STONE ==>
            !IsSpecialBlock(s) && StateId(s).Some? && StateId(s).value !in denyList)
      && (!IsSpecialBlock(s) && StateId(s).Some? && StateId(s).value !in denyList ==> r == Some(s))
      && (IsSpecialBlock(s) ==> r == Some(STONE))
      && (r.None? <==> !IsSpecialBlock(s) && StateId(s).None?)
  {
    var state := ChosenState(biome, useTop);
    var state' := if IsSpecialBlock(state) then STONE else state;
    match StateId(state')
    case None => None
    case Some(id) => Some(if id in denyList then STONE else state')
  }

  // ---------------------------------------------------------------------
  // Ore table

  /** The filter a registered block must pass to be an ore of the table. */
  predicate IsOre(b: Block, denyList: seq<string>)
  {
    && b != AIR
    && b.registryName.Some?
    && Contains(b.registryName.value.path, "ore")
    && !Contains(b.registryName.value.path, "nether")
    && !Contains(b.registryName.value.path, "end")
    && b.registryName.value.ToString() !in denyList
  }

  /** The filter a registered biome must pass to get an entry in the table. */
  predicate HasOreEntry(biome: Biome)
  {
    && biome.registryName.Some?
    && !Contains(biome.registryName.value.path, "nether")
    && !Contains(biome.registryName.value.path, "end")
  }

  /** The default states of the blocks that pass the ore filter, in registry order. */
  function OreList(blocks: seq<Block>, denyList: seq<string>): (r: seq<BlockState>)
    ensures |r| <= |blocks|
    ensures forall i :: 0 <= i < |r| ==> r[i].variant == 0 && IsOre(r[i].block, denyList)
  {
    if blocks == [] then []
    else
      var rest := OreList(blocks[..|blocks| - 1], denyList);
      var b := blocks[|blocks| - 1];
      if IsOre(b, denyList) then rest + [DefaultState(b)] else rest
  }

  /** An element of the ore list is the default state of some registered block that passes the filter. */
  lemma {:induction false} OreListMember(blocks: seq<Block>, denyList: seq<string>, s: BlockState)
    ensures s in OreList(blocks, denyList) <==>
      exists i :: 0 <= i < |blocks| && IsOre(blocks[i], denyList) && s == DefaultState(blocks[i])
  {
    if blocks != [] {
      var init := blocks[..|blocks| - 1];
      OreListMember(init, denyList, s);
      if i :| 0 <= i < |init| && IsOre(init[i], denyList) && s == DefaultState(init[i]) {
        assert blocks[i] == init[i];
      }
      if i :| 0 <= i < |blocks| && IsOre(blocks[i], denyList) && s == DefaultState(blocks[i]) {
        if i < |init| {
          assert init[i] == blocks[i];
        }
      }
    }
  }

  /**
   * A block's default state is in the ore list exactly when the block is
   * registered, is not air, its path contains "ore" and neither "nether"
   * nor "end", and its full id is not denied.
   */
  lemma OreListBlock(blocks: seq<Block>, denyList: seq<string>, b: Block)
    ensures DefaultState(b) in OreList(blocks, denyList) <==> b in blocks && IsOre(b, denyList)
  {
    OreListMember(blocks, denyList, DefaultState(b));
    if b in blocks && IsOre(b, denyList) {
      var i :| 0 <= i < |blocks| && blocks[i] == b;
      assert IsOre(blocks[i], denyList) && DefaultState(b) == DefaultState(blocks[i]);
    }
  }

  /** The ore list keeps registry order: the list of a concatenation is the concatenation of the lists. */
  lemma {:induction false} OreListConcat(a: seq<Block>, b: seq<Block>, denyList: seq<string>)
    ensures OreList(a + b, denyList) == OreList(a, denyList) + OreList(b, denyList)
    decreases |b|
  {
    if b == [] {
      assert a + b == a;
    } else {
      var b' := b[..|b| - 1];
      assert (a + b)[..|a + b| - 1] == a + b';
      assert (a + b)[|a + b| - 1] == b[|b| - 1];
      OreListConcat(a, b', denyList);
    }
  }

  /** The inner registry loop of initializeOreMap: collects the ores of one biome's list. */
  method CollectOres(blocks: seq<Block>, denyList: seq<string>) returns (ores: seq<BlockState>)
    ensures ores == OreList(blocks, denyList)
  {
    ores := [];
    var i := 0;
    while i < |blocks|
      invariant 0 <= i <= |blocks|
      invariant ores == OreList(blocks[..i], denyList)
    {
      assert blocks[..i + 1][..i] == blocks[..i];
      var block := blocks[i];
      if block != AIR && block.registryName.Some? && Contains(block.registryName.value.path, "ore")
         && !Contains(block.registryName.value.path, "nether") && !Contains(block.registryName.value.path, "end")
         && block.registryName.value.ToString() !in denyList
      {
        ores := ores + [DefaultState(block)];
      }
      i := i + 1;
    }
    assert blocks[..i] == blocks;
  }

  /** The entries initializeOreMap puts: every biome that passes the biome filter gets `ores`. */
  function OreMap(biomes: seq<Biome>, ores: seq<BlockState>): (r: map<Biome, seq<BlockState>>)
    ensures forall b :: b in r ==> HasOreEntry(b) && r[b] == ores
  {
    if biomes == [] then map[]
    else
      var m := OreMap(biomes[..|biomes| - 1], ores);
      var b := biomes[|biomes| - 1];
      if HasOreEntry(b) then m[b := ores] else m
  }

  /** The table has an entry exactly for the registered biomes without "nether" or "end" in their path, all with the same list. */
  lemma {:induction false} OreMapEntries(biomes: seq<Biome>, ores: seq<BlockState>, b: Biome)
    ensures b in OreMap(biomes, ores) <==> b in biomes && HasOreEntry(b)
    ensures b in OreMap(biomes, ores) ==> OreMap(biomes, ores)[b] == ores
  {
    if biomes != [] {
      var init := biomes[..|biomes| - 1];
      OreMapEntries(init, ores, b);
      assert biomes == init + [biomes[|biomes| - 1]];
    }
  }

  /** The mod's static table from biome to ore list. */
  class BiomeOreTable {
    var biomeOreMap: map<Biome, seq<BlockState>>

    constructor ()
      ensures biomeOreMap == map[]
    {
      biomeOreMap := map[];
    }

    /**
     * initializeOreMap: one entry per eligible biome, each with the ore
     * list of the whole block registry, filtered by the same deny list the
     * surface-block choice uses.
     */
    method InitializeOreMap(biomes: seq<Biome>, blocks: seq<Block>, cfg: Config)
      modifies this
      ensures biomeOreMap == old(biomeOreMap) + OreMap(biomes, OreList(blocks, DenyList(cfg)))
    {
      var denyList := DenyList(cfg);
      ghost var ores := OreList(blocks, denyList);
      var i := 0;
      while i < |biomes|
        invariant 0 <= i <= |biomes|
        invariant biomeOreMap == old(biomeOreMap) + OreMap(biomes[..i], ores)
      {
        assert biomes[..i + 1][..i] == biomes[..i];
        var biome := biomes[i];
        ghost var entries := OreMap(biomes[..i], ores);
        assert OreMap(biomes[..i + 1], ores) == if HasOreEntry(biome) then entries[biome := ores] else entries;
        if biome.registryName.Some? && !Contains(biome.registryName.value.path, "nether")
           && !Contains(biome.registryName.value.path, "end")
        {
          var list := CollectOres(blocks, denyList);
          biomeOreMap := biomeOreMap[biome := list];
        }
        i := i + 1;
      }
      assert biomes[..i] == biomes;
    }
  }

  /** BIOME_ORE_MAP.getOrDefault(biome, empty list). */
  function OresOf(oreMap: map<Biome, seq<BlockState>>, biome: Biome): seq<BlockState>
  {
    if biome in oreMap then oreMap[biome] else []
  }

  // ---------------------------------------------------------------------
  // One sphere

  /**
   * The draws of one generateSphere call: nextBoolean for top or under,
   * the raw draw behind the radius, and for each position of the sphere
   * the ore roll (nextFloat() < oreChance) and the raw draw behind the
   * ore index.
   */
  datatype SphereDraws = SphereDraws(useTop: bool, radiusRaw: nat, oreRoll: Pos -> bool, orePick: Pos -> nat)

  /** minSphereSize + nextInt(maxSphereSize - minSphereSize + 1). */
  function SphereRadius(cfg: Config, raw: nat): (r: Option<int>)
    ensures r.Some? <==> cfg.maxSphereSize >= cfg.minSphereSize
    ensures r.Some? ==> cfg.minSphereSize <= r.value <= cfg.maxSphereSize
  {
    match NextInt(raw, cfg.maxSphereSize - cfg.minSphereSize + 1)
    case None => None
    case Some(k) => Some(cfg.minSphereSize + k)
  }

  /**
   * The block written at one position: an ore drawn uniformly from the
   * list when the list is non-empty and the ore roll succeeds, otherwise
   * the surface state.
   */
  function VoxelBlock(state: BlockState, ores: seq<BlockState>, oreRoll: bool, orePick: nat): (b: BlockState)
    ensures b == state || b in ores
    ensures |ores| > 0 && oreRoll ==> b in ores
    ensures !(|ores| > 0 && oreRoll) ==> b == state
  {
    if |ores| > 0 && oreRoll then ores[NextInt(orePick, |ores|).value] else state
  }

  /** Every ore of the list can be the one written. */
  lemma VoxelBlockCovers(state: BlockState, ores: seq<BlockState>, i: nat)
    requires i < |ores|
    ensures VoxelBlock(state, ores, true, i) == ores[i]
  {
  }

  function SphereFill(state: BlockState, ores: seq<BlockState>, d: SphereDraws): Pos -> BlockState
  {
    p => VoxelBlock(state, ores, d.oreRoll(p), d.orePick(p))
  }

  /** The world, and the exception if one was raised, after a generator step. */
  datatype Run = Run(blocks: map<Pos, BlockState>, error: Option<Error>)

  /** Position p holds something new in m' compared with m. */
  ghost predicate Changed(m: map<Pos, BlockState>, m': map<Pos, BlockState>, p: Pos)
  {
    p in m' && (p !in m || m'[p] != m[p])
  }

  /**
   * generateSphere as a function of the world before it: the exception
   * from the surface block or the radius draw, with nothing written, or
   * the world with the sphere around `pos` written.
   */
  ghost function PlaceSphere(m: map<Pos, BlockState>, biome: Biome, oreMap: map<Biome, seq<BlockState>>,
                             cfg: Config, pos: Pos, d: SphereDraws): Run
  {
    match GetIBlockState(biome, d.useTop, DenyList(cfg))
    case None => Run(m, Some(NullPointer))
    case Some(state) =>
      match SphereRadius(cfg, d.radiusRaw)
      case None => Run(m, Some(IllegalArgument))
      case Some(radius) => Run(Overwrite(m, Ball(pos, radius), SphereFill(state, OresOf(oreMap, biome), d)), None)
  }

  /**
   * What generateSphere does: NullPointerException when the surface block
   * has no registry name, IllegalArgumentException when the size range is
   * empty, in both cases with nothing written; otherwise no block is
   * removed and every changed position lies in the sphere of the drawn
   * radius and holds the surface block or one of the biome's ores.
   */
  lemma PlaceSphereOutcome(m: map<Pos, BlockState>, biome: Biome, oreMap: map<Biome, seq<BlockState>>,
                           cfg: Config, pos: Pos, d: SphereDraws)
    ensures var r := PlaceSphere(m, biome, oreMap, cfg, pos, d);
      && (r.error == Some(NullPointer) <==> GetIBlockState(biome, d.useTop, DenyList(cfg)).None?)
      && (r.error == Some(IllegalArgument) <==>
           GetIBlockState(biome, d.useTop, DenyList(cfg)).Some? && cfg.maxSphereSize < cfg.minSphereSize)
      && (r.error.Some? ==> r.blocks == m)
      && m.Keys <= r.blocks.Keys
      && (forall p :: Changed(m, r.blocks, p) ==>
           && SphereRadius(cfg, d.radiusRaw).Some?
           && p in Ball(pos, SphereRadius(cfg, d.radiusRaw).value)
           && GetIBlockState(biome, d.useTop, DenyList(cfg)).Some?
           && (r.blocks[p] == GetIBlockState(biome, d.useTop, DenyList(cfg)).value || r.blocks[p] in OresOf(oreMap, biome)))
      && (r.error.None? ==> forall p :: p in Ball(pos, SphereRadius(cfg, d.radiusRaw).value) ==>
           && p in r.blocks
           && (r.blocks[p] == GetIBlockState(biome, d.useTop, DenyList(cfg)).value || r.blocks[p] in OresOf(oreMap, biome)))
  {
    match GetIBlockState(biome, d.useTop, DenyList(cfg))
    case None =>
    case Some(state) =>
      match SphereRadius(cfg, d.radiusRaw)
      case None =>
      case Some(radius) =>
        OverwriteFacts(m, Ball(pos, radius), SphereFill(state, OresOf(oreMap, biome), d));
  }

  /**
   * generateSphere: picks the surface block and the radius, then writes
   * the sphere (WriteSphere).
   */
  method GenerateSphere(world: World<BlockState, Biome>, oreMap: map<Biome, seq<BlockState>>, cfg: Config,
                        pos: Pos, d: SphereDraws) returns (error: Option<Error>)
    modifies world
    ensures Run(world.blocks, error) == PlaceSphere(old(world.blocks), world.biomeAt(pos), oreMap, cfg, pos, d)
  {
    var biome := world.biomeAt(pos);
    var chosen := GetIBlockState(biome, d.useTop, DenyList(cfg));
    if chosen.None? {
      return Some(NullPointer);
    }
    var state := chosen.value;
    var drawn := NextInt(d.radiusRaw, cfg.maxSphereSize - cfg.minSphereSize + 1);
    if drawn.None? {
      return Some(IllegalArgument);
    }
    var radius := cfg.minSphereSize + drawn.value;
    var ores := if biome in oreMap then oreMap[biome] else [];
    WriteSphere(world, pos, radius, state, ores, d);
    return None;
  }

  /**
   * The loops of generateSphere: every offset of the bounding cube within
   * the radius gets an ore or the surface state, through one
   * setBlockState each.
   */
  method WriteSphere(world: World<BlockState, Biome>, pos: Pos, radius: int, state: BlockState,
                     ores: seq<BlockState>, d: SphereDraws)
    modifies world
    ensures world.blocks == Overwrite(old(world.blocks), Ball(pos, radius), SphereFill(state, ores, d))
  {
    ghost var initial := world.blocks;
    ghost var fill := SphereFill(state, ores, d);
    ghost var written: set<Pos> := {};
    OverwriteNothing(initial, fill);
    BallBeforeStart(pos, radius);
    var x := -radius;
    while x <= radius
      invariant -radius <= x
      invariant written == BallBefore(pos, radius, x, -radius, -radius)
      invariant world.blocks == Overwrite(initial, written, fill)
    {
      var y := -radius;
      while y <= radius
        invariant -radius <= y
        invariant written == BallBefore(pos, radius, x, y, -radius)
        invariant world.blocks == Overwrite(initial, written, fill)
      {
        var z := -radius;
        while z <= radius
          invariant -radius <= z
          invariant written == BallBefore(pos, radius, x, y, z)
          invariant world.blocks == Overwrite(initial, written, fill)
        {
          BallBeforeStep(pos, radius, x, y, z);
          if x * x + y * y + z * z <= radius * radius {
            var p := Add(pos, x, y, z);
            OverwriteAdd(initial, written, p, fill);
            if |ores| > 0 && d.oreRoll(p) {
              world.SetBlockState(p, ores[NextInt(d.orePick(p), |ores|).value]);
            } else {
              world.SetBlockState(p, state);
            }
            written := written + {p};
          }
          z := z + 1;
        }
        BallBeforeRowEnd(pos, radius, x, y, z);
        y := y + 1;
      }
      BallBeforeSliceEnd(pos, radius, x, y, -radius);
      x := x + 1;
    }
    BallBeforeEnd(pos, radius, x, -radius, -radius);
  }

  // ---------------------------------------------------------------------
  // The region loop

  /**
   * The draws for one chunk index: the density roll (nextFloat() <
   * density), the raw draws behind the x, z and y offsets, and the draws
   * of the sphere placed there.
   */
  datatype ChunkDraws = ChunkDraws(place: bool, xRaw: nat, zRaw: nat, yRaw: nat, sphere: SphereDraws)

  /**
   * The centre chosen for chunk index (chunkX, chunkZ): none unless the
   * density roll succeeds, then x and z within that chunk and y in
   * [minHeight, maxHeight], or IllegalArgumentException when
   * maxHeight < minHeight.
   */
  function ChunkCentre(cfg: Config, chunkX: int, chunkZ: int, d: ChunkDraws): (r: Placement)
    ensures r.NoSphere? <==> !d.place
    ensures r.Thrown? <==> d.place && cfg.maxHeight < cfg.minHeight
    ensures r.Thrown? ==> r.error == IllegalArgument
    ensures r.Centre? ==>
      && chunkX * 16 <= r.pos.x <= chunkX * 16 + 15
      && chunkZ * 16 <= r.pos.z <= chunkZ * 16 + 15
      && cfg.minHeight <= r.pos.y <= cfg.maxHeight
  {
    if !d.place then NoSphere
    else
      var x := chunkX * 16 + NextInt(d.xRaw, 16).value;
      var z := chunkZ * 16 + NextInt(d.zRaw, 16).value;
      match NextInt(d.yRaw, cfg.maxHeight - cfg.minHeight + 1)
      case None => Thrown(IllegalArgument)
      case Some(dy) => Centre(Pos(x, cfg.minHeight + dy, z))
  }

  /** Conversely, every position of the chunk's column in the height range can be a centre. */
  lemma ChunkCentreCovers(cfg: Config, chunkX: int, chunkZ: int, s: SphereDraws, c: Pos)
    requires chunkX * 16 <= c.x <= chunkX * 16 + 15
    requires chunkZ * 16 <= c.z <= chunkZ * 16 + 15
    requires cfg.minHeight <= c.y <= cfg.maxHeight
    ensures exists d: ChunkDraws :: ChunkCentre(cfg, chunkX, chunkZ, d) == Centre(c)
  {
    var d := ChunkDraws(true, c.x - chunkX * 16, c.z - chunkZ * 16, c.y - cfg.minHeight, s);
    assert ChunkCentre(cfg, chunkX, chunkZ, d) == Centre(c);
  }

  /** Everything a generate call reads besides the world's blocks. */
  datatype Env = Env(biomeAt: Pos -> Biome, oreMap: map<Biome, seq<BlockState>>, cfg: Config,
                     draws: (int, int) -> ChunkDraws)

  /** Chunk index c places a sphere that includes position p. */
  ghost predicate Touches(env: Env, c: (int, int), p: Pos)
  {
    var d := env.draws(c.0, c.1);
    var placement := ChunkCentre(env.cfg, c.0, c.1, d);
    var radius := SphereRadius(env.cfg, d.sphere.radiusRaw);
    placement.Centre? && radius.Some? && p in Ball(placement.pos, radius.value)
  }

  /** One iteration of the inner loop, for chunk index c. */
  ghost function ChunkStep(m: map<Pos, BlockState>, env: Env, c: (int, int)): Run
  {
    var d := env.draws(c.0, c.1);
    match ChunkCentre(env.cfg, c.0, c.1, d)
    case NoSphere => Run(m, None)
    case Thrown(e) => Run(m, Some(e))
    case Centre(pos) => PlaceSphere(m, env.biomeAt(pos), env.oreMap, env.cfg, pos, d.sphere)
  }

  /** One chunk index removes no block and changes only positions of its own sphere; an exception changes nothing. */
  lemma ChunkStepFootprint(m: map<Pos, BlockState>, env: Env, c: (int, int))
    ensures var r := ChunkStep(m, env, c);
      && (r.error.Some? ==> r.blocks == m)
      && m.Keys <= r.blocks.Keys
      && forall p :: Changed(m, r.blocks, p) ==> Touches(env, c, p)
  {
    var d := env.draws(c.0, c.1);
    match ChunkCentre(env.cfg, c.0, c.1, d)
    case NoSphere =>
    case Thrown(e) =>
    case Centre(pos) => PlaceSphereOutcome(m, env.biomeAt(pos), env.oreMap, env.cfg, pos, d.sphere);
  }

  /** The chunk indices (chunkX, startZ) .. (chunkX, startZ + n - 1), in loop order. */
  function ChunkRow(chunkX: int, startZ: int, n: nat): seq<(int, int)>
  {
    if n == 0 then [] else ChunkRow(chunkX, startZ, n - 1) + [(chunkX, startZ + n - 1)]
  }

  /** The first n rows of 16 chunk indices from (startX, startZ), in loop order. */
  function ChunkRows(startX: int, startZ: int, n: nat): seq<(int, int)>
  {
    if n == 0 then [] else ChunkRows(startX, startZ, n - 1) + ChunkRow(startX + n - 1, startZ, 16)
  }

  /** The chunk indices generate visits from the main chunk (startX, startZ). */
  function ChunkOrder(startX: int, startZ: int): seq<(int, int)>
  {
    ChunkRows(startX, startZ, 16)
  }

  lemma {:induction false} ChunkRowShape(chunkX: int, startZ: int, n: nat, c: (int, int))
    ensures |ChunkRow(chunkX, startZ, n)| == n
    ensures c in ChunkRow(chunkX, startZ, n) <==> c.0 == chunkX && startZ <= c.1 < startZ + n
  {
    if n > 0 {
      ChunkRowShape(chunkX, startZ, n - 1, c);
    }
  }

  lemma {:induction false} ChunkRowsShape(startX: int, startZ: int, n: nat, c: (int, int))
    ensures |ChunkRows(startX, startZ, n)| == 16 * n
    ensures c in ChunkRows(startX, startZ, n) <==> startX <= c.0 < startX + n && startZ <= c.1 < startZ + 16
  {
    if n > 0 {
      ChunkRowsShape(startX, startZ, n - 1, c);
      ChunkRowShape(startX + n - 1, startZ, 16, c);
    }
  }

  /** generate visits 256 chunk indices: exactly those in [startX, startX + 16) x [startZ, startZ + 16). */
  lemma ChunkOrderShape(startX: int, startZ: int, c: (int, int))
    ensures |ChunkOrder(startX, startZ)| == 256
    ensures c in ChunkOrder(startX, startZ) <==> startX <= c.0 < startX + 16 && startZ <= c.1 < startZ + 16
  {
    ChunkRowsShape(startX, startZ, 16, c);
  }

  lemma {:induction false} ChunkRowPrefix(chunkX: int, startZ: int, j: nat, n: nat)
    requires j <= n
    ensures ChunkRow(chunkX, startZ, j) <= ChunkRow(chunkX, startZ, n)
  {
    if j < n {
      ChunkRowPrefix(chunkX, startZ, j, n - 1);
    }
  }

  lemma {:induction false} ChunkRowsPrefix(startX: int, startZ: int, i: nat, n: nat)
    requires i <= n
    ensures ChunkRows(startX, startZ, i) <= ChunkRows(startX, startZ, n)
  {
    if i < n {
      ChunkRowsPrefix(startX, startZ, i, n - 1);
    }
  }

  /**
   * The chunk indices visited once the inner loop has handled (chunkX,
   * chunkZ) form a prefix of the order.
   */
  lemma VisitedPrefix(startX: int, startZ: int, chunkX: int, chunkZ: int)
    requires startX <= chunkX < startX + 16 && startZ <= chunkZ < startZ + 16
    ensures ChunkRows(startX, startZ, chunkX - startX) + ChunkRow(chunkX, startZ, chunkZ + 1 - startZ)
            <= ChunkOrder(startX, startZ)
  {
    var i, j := chunkX - startX, chunkZ + 1 - startZ;
    ChunkRowPrefix(startX + i, startZ, j, 16);
    ChunkRowsPrefix(startX, startZ, i + 1, 16);
  }

  /** The visit of the chunk indices cs in order, stopping at the first exception. */
  ghost function RunChunks(m: map<Pos, BlockState>, env: Env, cs: seq<(int, int)>): Run
  {
    if cs == [] then Run(m, None)
    else
      var prev := RunChunks(m, env, cs[..|cs| - 1]);
      if prev.error.Some? then prev else ChunkStep(prev.blocks, env, cs[|cs| - 1])
  }

  /** generate never removes a block. */
  lemma {:induction false} RunChunksKeeps(m: map<Pos, BlockState>, env: Env, cs: seq<(int, int)>)
    ensures m.Keys <= RunChunks(m, env, cs).blocks.Keys
  {
    if cs != [] {
      var init := cs[..|cs| - 1];
      RunChunksKeeps(m, env, init);
      ChunkStepFootprint(RunChunks(m, env, init).blocks, env, cs[|cs| - 1]);
    }
  }

  /** After an exception nothing more happens: visiting more chunk indices changes nothing. */
  lemma {:induction false} RunChunksStops(m: map<Pos, BlockState>, env: Env, a: seq<(int, int)>, b: seq<(int, int)>)
    requires a <= b
    requires RunChunks(m, env, a).error.Some?
    ensures RunChunks(m, env, b) == RunChunks(m, env, a)
    decreases |b|
  {
    if |b| > |a| {
      assert a <= b[..|b| - 1];
      RunChunksStops(m, env, a, b[..|b| - 1]);
    } else {
      assert a == b;
    }
  }

  /** Every position a visit changes lies in the sphere of one of the visited chunk indices. */
  lemma {:induction false} RunChunksFootprint(m: map<Pos, BlockState>, env: Env, cs: seq<(int, int)>, p: Pos)
    requires Changed(m, RunChunks(m, env, cs).blocks, p)
    ensures exists i :: 0 <= i < |cs| && Touches(env, cs[i], p)
  {
    var init := cs[..|cs| - 1];
    var prev := RunChunks(m, env, init);
    RunChunksKeeps(m, env, init);
    ChunkStepFootprint(prev.blocks, env, cs[|cs| - 1]);
    if Changed(m, prev.blocks, p) {
      RunChunksFootprint(m, env, init, p);
      var i :| 0 <= i < |init| && Touches(env, init[i], p);
      assert cs[i] == init[i];
    } else {
      assert prev.error.None?;
      assert Changed(prev.blocks, ChunkStep(prev.blocks, env, cs[|cs| - 1]).blocks, p);
      assert Touches(env, cs[|cs| - 1], p);
    }
  }

  /** A full row of the inner loop completes the next row of the outer loop. */
  lemma ChunkRowsNext(startX: int, startZ: int, chunkX: int, chunkZ: int)
    requires startX <= chunkX && chunkZ == startZ + 16
    ensures ChunkRows(startX, startZ, chunkX - startX) + ChunkRow(chunkX, startZ, chunkZ - startZ)
            == ChunkRows(startX, startZ, chunkX + 1 - startX)
  {
  }

  /** One more step of the inner loop visits (chunkX, chunkZ). */
  lemma ChunkRowNext(startX: int, startZ: int, chunkX: int, chunkZ: int, visited: seq<(int, int)>)
    requires startX <= chunkX && startZ <= chunkZ
    requires visited == ChunkRows(startX, startZ, chunkX - startX) + ChunkRow(chunkX, startZ, chunkZ - startZ)
    ensures visited + [(chunkX, chunkZ)]
            == ChunkRows(startX, startZ, chunkX - startX) + ChunkRow(chunkX, startZ, chunkZ + 1 - startZ)
  {
  }

  /** Visiting one more chunk index after a visit that raised nothing is one more ChunkStep. */
  lemma RunChunksStep(m: map<Pos, BlockState>, env: Env, cs: seq<(int, int)>, c: (int, int))
    requires RunChunks(m, env, cs).error.None?
    ensures RunChunks(m, env, cs + [c]) == ChunkStep(RunChunks(m, env, cs).blocks, env, c)
  {
    assert (cs + [c])[..|cs + [c]| - 1] == cs;
  }

  /** The body of generate's inner loop: the roll, the centre and the sphere for one chunk index. */
  method GenerateInChunk(world: World<BlockState, Biome>, oreMap: map<Biome, seq<BlockState>>, cfg: Config,
                         chunkX: int, chunkZ: int, draws: (int, int) -> ChunkDraws)
    returns (error: Option<Error>)
    modifies world
    ensures Run(world.blocks, error) ==
      ChunkStep(old(world.blocks), Env(world.biomeAt, oreMap, cfg, draws), (chunkX, chunkZ))
  {
    var d := draws(chunkX, chunkZ);
    if d.place {
      var x := chunkX * 16 + NextInt(d.xRaw, 16).value;
      var z := chunkZ * 16 + NextInt(d.zRaw, 16).value;
      var dy := NextInt(d.yRaw, cfg.maxHeight - cfg.minHeight + 1);
      if dy.None? {
        return Some(IllegalArgument);
      }
      var y := cfg.minHeight + dy.value;
      assert ChunkCentre(cfg, chunkX, chunkZ, d) == Centre(Pos(x, y, z));
      error := GenerateSphere(world, oreMap, cfg, Pos(x, y, z), d.sphere);
    } else {
      error := None;
    }
  }

  /**
   * generate: for every chunk index in the 16x16 block that starts at the
   * main chunk, roll for a sphere and place it; an exception ends the
   * call with the spheres placed so far kept.
   */
  method Generate(world: World<BlockState, Biome>, oreMap: map<Biome, seq<BlockState>>, cfg: Config,
                  mainChunkX: int, mainChunkZ: int, draws: (int, int) -> ChunkDraws)
    returns (error: Option<Error>)
    modifies world
    ensures Run(world.blocks, error) ==
      RunChunks(old(world.blocks), Env(world.biomeAt, oreMap, cfg, draws), ChunkOrder(mainChunkX, mainChunkZ))
  {
    ghost var env := Env(world.biomeAt, oreMap, cfg, draws);
    ghost var initial := world.blocks;
    ghost var visited: seq<(int, int)> := [];
    var chunkStartX := mainChunkX;
    var chunkStartZ := mainChunkZ;
    var chunkEndX := chunkStartX + 16;
    var chunkEndZ := chunkStartZ + 16;

    var chunkX := chunkStartX;
    while chunkX < chunkEndX
      invariant chunkStartX <= chunkX <= chunkEndX
      invariant visited == ChunkRows(chunkStartX, chunkStartZ, chunkX - chunkStartX)
      invariant RunChunks(initial, env, visited) == Run(world.blocks, None)
    {
      var chunkZ := chunkStartZ;
      assert visited + ChunkRow(chunkX, chunkStartZ, 0) == visited;
      while chunkZ < chunkEndZ
        invariant chunkStartZ <= chunkZ <= chunkEndZ
        invariant visited == ChunkRows(chunkStartX, chunkStartZ, chunkX - chunkStartX)
                             + ChunkRow(chunkX, chunkStartZ, chunkZ - chunkStartZ)
        invariant RunChunks(initial, env, visited) == Run(world.blocks, None)
      {
        RunChunksStep(initial, env, visited, (chunkX, chunkZ));
        var err := GenerateInChunk(world, oreMap, cfg, chunkX, chunkZ, draws);
        ChunkRowNext(chunkStartX, chunkStartZ, chunkX, chunkZ, visited);
        visited := visited + [(chunkX, chunkZ)];
        if err.Some? {
          VisitedPrefix(chunkStartX, chunkStartZ, chunkX, chunkZ);
          RunChunksStops(initial, env, visited, ChunkOrder(chunkStartX, chunkStartZ));
          return err;
        }
        chunkZ := chunkZ + 1;
      }
      ChunkRowsNext(chunkStartX, chunkStartZ, chunkX, chunkZ);
      chunkX := chunkX + 1;
    }
    return None;
  }

  /**
   * Every position generate changes lies in a sphere whose centre comes
   * from a chunk index c in [startX, startX + 16) x [startZ, startZ + 16):
   * the centre's x and z lie in chunk c, so up to 255 blocks beyond the
   * main chunk's first block, its y in [minHeight, maxHeight], and the
   * radius in [minSphereSize, maxSphereSize].
   */
  lemma GenerateFootprint(m: map<Pos, BlockState>, env: Env, startX: int, startZ: int, p: Pos)
    requires Changed(m, RunChunks(m, env, ChunkOrder(startX, startZ)).blocks, p)
    ensures exists c: (int, int), centre: Pos, radius: int ::
      && startX <= c.0 < startX + 16 && startZ <= c.1 < startZ + 16
      && ChunkCentre(env.cfg, c.0, c.1, env.draws(c.0, c.1)) == Centre(centre)
      && SphereRadius(env.cfg, env.draws(c.0, c.1).sphere.radiusRaw) == Some(radius)
      && c.0 * 16 <= centre.x <= c.0 * 16 + 15 && c.1 * 16 <= centre.z <= c.1 * 16 + 15
      && startX * 16 <= centre.x <= startX * 16 + 255 && startZ * 16 <= centre.z <= startZ * 16 + 255
      && env.cfg.minHeight <= centre.y <= env.cfg.maxHeight
      && env.cfg.minSphereSize <= radius <= env.cfg.maxSphereSize
      && p in Ball(centre, radius)
  {
    var order := ChunkOrder(startX, startZ);
    RunChunksFootprint(m, env, order, p);
    var i :| 0 <= i < |order| && Touches(env, order[i], p);
    var c := order[i];
    ChunkOrderShape(startX, startZ, c);
    var d := env.draws(c.0, c.1);
    var centre := ChunkCentre(env.cfg, c.0, c.1, d).pos;
    var radius := SphereRadius(env.cfg, d.sphere.radiusRaw).value;
    assert p in Ball(centre, radius);
  }
}
