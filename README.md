# Sky spheres: a model of the sphere generator

This project models the world-generation core of a Minecraft mod that puts
floating spheres in the overworld. Two versions of the generator are covered:

- **SphereMod** (1.12 host). Each overworld chunk gets one density roll. On
  success the mod draws a centre inside the chunk and a radius from 4 to 7.
  It collects every position of the bounding cube that lies within the
  radius, then writes one surface block at each of them. The surface block
  is the biome's top block, with fallbacks: air, water and lava become
  dirt, sand becomes sandstone and gravel becomes stone.
- **SkySpheres** (1.16 host).
  - At setup, a table from biome to ore list is built from the biome and
    block registries. A block is an ore when its path contains "ore" but
    neither "nether" nor "end", and its full id is not on the deny list.
  - A generate call visits 16x16 chunk indices, starting at the region's
    main chunk. Each index whose density roll succeeds gets a sphere.
  - The sphere's radius is drawn from the configured size range.
  - Its surface block is the biome's top or under block. It becomes stone
    when it holds a fluid, has a tile entity, or is denied.
  - Each position of the sphere gets that block, or a random ore of the
    biome's list when the ore roll succeeds.

The world is a `Host.World` object (a map from positions to block states,
plus the host's biome lookup), updated through `SetBlockState`. Each loop
that writes the world is a method. It is proved against a ghost function of
the old world:

- `SphereMod.SphereWorld` for the 1.12 sphere;
- `SkySpheres.PlaceSphere` for one 1.16 sphere;
- `SkySpheres.ChunkStep` for one chunk index;
- `SkySpheres.RunChunks` for a whole generate call.

Lemmas then state what those functions do.

Random draws are inputs:

- `nextInt(n)` is modelled by a raw natural number reduced modulo `n`, so
  the model can produce exactly the values `nextInt` returns. A bound that
  is not positive is the host's `IllegalArgumentException` (`JavaRandom.NextInt`).
- `nextBoolean` and the comparisons `nextFloat() < p` are supplied as booleans.
- In `SkySpheres`, the per-position draws are functions of the absolute
  position, and the per-chunk draws are functions of the chunk index.
  Each loop visits a given index or position only once, so this is the
  same as drawing in sequence.

Exceptions are results:

- `IllegalArgumentException` from `nextInt` when a height or size range is
  empty.
- `NullPointerException` from `Objects.requireNonNull` when the state kept
  for the deny-list check has no registry name.

The 1.16 generate call stops at the first exception. The spheres written
before it stay in the world.

The 1.12 hook rolls once for the chunk it is called for. In the 1.16
`generate` (`SkySpheres.java:141-157`), one call rolls for each of 256
chunk indices. Those indices start at the main chunk and
are multiplied by 16 again, so sphere centres can lie up to 255 blocks past
the main chunk's first block (`SkySpheres.GenerateFootprint`). The 1.12
height draw `nextInt(maxHeight - minHeight)` excludes `maxHeight`, and it
throws when maxHeight <= minHeight (`SphereMod.PlanSphere`). The 1.16 draw adds 1,
so there `maxHeight` is included (`SkySpheres.ChunkCentre`).

## Model

All source paths are under `src/main/java/info/burntrouter/`; the table
writes them out in full.

| member | source | states |
|---|---|---|
| Lattice.Ball | src/main/java/info/burntrouter/spheremod/SphereMod.java:95-99 | defines the rasterised sphere: the positions centre + (x, y, z) with each offset in [-r, r] and x² + y² + z² ≤ r², the set both versions' triple loops visit (SkySpheres.java:167-170 has the same loops); its properties are Lattice.BallExact, Lattice.BallNegative, Lattice.BallInCube, Lattice.BallCentre and Lattice.BallMirror |
| Lattice.BallExact | src/main/java/info/burntrouter/spheremod/SphereMod.java:95-99 | for a non-negative radius, a position is in the rasterised sphere exactly when the squared length of its offset from the centre is at most the squared radius; the bounding-cube limits add nothing |
| Lattice.BallInCube | src/main/java/info/burntrouter/spheremod/SphereMod.java:95-97 | every position of the sphere lies inside the bounding cube of side 2r+1 around the centre |
| Lattice.BallCentre | src/main/java/info/burntrouter/spheremod/SphereMod.java:98 | a sphere with a non-negative radius always contains its centre |
| Lattice.BallNegative | src/main/java/info/burntrouter/skyspheres/SkySpheres.java:167-170 | with a negative radius the loops run zero times and the sphere is empty |
| Lattice.BallMirror | src/main/java/info/burntrouter/spheremod/SphereMod.java:95-99 | the sphere is symmetric under mirroring any axis through the centre |
| Lattice.BallBeforeStart | src/main/java/info/burntrouter/spheremod/SphereMod.java:95-97 | before the first iteration no position of the sphere has been visited |
| Lattice.BallBeforeStep | src/main/java/info/burntrouter/spheremod/SphereMod.java:97-99 | one step of the innermost loop adds exactly the current offset's position, and only when it passes the distance test |
| Lattice.BallBeforeRowEnd | src/main/java/info/burntrouter/spheremod/SphereMod.java:96-97 | finishing the z loop is the same as starting the next y row |
| Lattice.BallBeforeSliceEnd | src/main/java/info/burntrouter/spheremod/SphereMod.java:95-96 | finishing the y loop is the same as starting the next x slice |
| Lattice.BallBeforeEnd | src/main/java/info/burntrouter/spheremod/SphereMod.java:95-103 | once the x loop is done, the visited positions are the whole sphere |
| Host.Overwrite | src/main/java/info/burntrouter/spheremod/SphereMod.java:86-88 | defines the world after one setBlockState per position of a region, each writing the block the fill gives that position (SkySpheres.java:174 and 176 write the same way); its properties are Host.OverwriteFacts, Host.OverwriteNothing and Host.OverwriteAdd |
| Host.OverwriteFacts | src/main/java/info/burntrouter/spheremod/SphereMod.java:86-88 | writing a region of positions gives every position of the region its new block, keeps every other block, and removes nothing |
| Host.OverwriteNothing | src/main/java/info/burntrouter/spheremod/SphereMod.java:86-88 | writing no position leaves the world unchanged |
| Host.OverwriteAdd | src/main/java/info/burntrouter/spheremod/SphereMod.java:86-88 | writing one more position of the region is one more setBlockState |
| Host.World.SetBlockState | src/main/java/info/burntrouter/spheremod/SphereMod.java:87 | setBlockState replaces the block at one position and changes nothing else |
| JavaRandom.NextInt | src/main/java/info/burntrouter/spheremod/SphereMod.java:70-72 | nextInt(bound) throws IllegalArgumentException exactly when bound is not positive; otherwise it returns a value in [0, bound) |
| JavaRandom.NextIntCovers | src/main/java/info/burntrouter/spheremod/SphereMod.java:70-72 | every value in [0, bound) can be drawn |
| Strings.Contains | src/main/java/info/burntrouter/skyspheres/SkySpheres.java:126 | String.contains: the empty string is contained in every string, and a contained string is no longer than the string containing it; SkySpheres.java:129 uses it too, and Strings.ContainsIff states what it means |
| Strings.ContainsIff | src/main/java/info/burntrouter/skyspheres/SkySpheres.java:126 | String.contains holds exactly when the substring occurs at some index |
| Strings.Fields | src/main/java/info/burntrouter/skyspheres/SkySpheres.java:37 | splitting at every separator gives at least one piece, and no piece contains the separator |
| Strings.JoinFields | src/main/java/info/burntrouter/skyspheres/SkySpheres.java:37 | the pieces joined with the separator give the original string back |
| Strings.FieldsJoin | src/main/java/info/burntrouter/skyspheres/SkySpheres.java:37 | joining separator-free pieces and splitting the result gives the pieces back |
| Strings.FieldsNoSep | src/main/java/info/burntrouter/skyspheres/SkySpheres.java:37 | a string without the separator is a single piece |
| Strings.FieldsAfterSep | src/main/java/info/burntrouter/skyspheres/SkySpheres.java:37 | a separator ends the first piece |
| Strings.DropTrailingEmpty | src/main/java/info/burntrouter/skyspheres/SkySpheres.java:37 | the result is a prefix of the pieces, does not end in an empty piece, and drops only empty pieces |
| Strings.Split | src/main/java/info/burntrouter/skyspheres/SkySpheres.java:37 | String.split(",") gives the string itself when there is no comma; otherwise it gives the pieces between the commas, minus all trailing empty pieces |
| Strings.SplitMember | src/main/java/info/burntrouter/skyspheres/SkySpheres.java:37 | a non-empty id is on the deny list exactly when it is one of the comma-separated pieces |
| Strings.SplitDropsTrailing | src/main/java/info/burntrouter/skyspheres/SkySpheres.java:37 | "a,b,," splits to ["a", "b"] |
| Strings.SplitKeepsLeading | src/main/java/info/burntrouter/skyspheres/SkySpheres.java:37 | ",a" splits to ["", "a"] |
| Strings.SplitSeparatorOnly | src/main/java/info/burntrouter/skyspheres/SkySpheres.java:37 | "," splits to an empty list |
| Strings.SplitEmpty | src/main/java/info/burntrouter/skyspheres/SkySpheres.java:37 | "" splits to [""] |
| SphereMod.GetIBlockState | src/main/java/info/burntrouter/spheremod/SphereMod.java:107-122 | the surface block is never the default state of air, water, lava, sand or gravel; any other top state is kept (including non-default states of those blocks); the default states of air, water and lava become dirt, sand becomes sandstone and gravel stone |
| SphereMod.GetIBlockStateRedSand | src/main/java/info/burntrouter/spheremod/SphereMod.java:114-116 | the sand test compares with the default state only, so red sand (another state of sand) is kept unchanged |
| SphereMod.SphereRadius | src/main/java/info/burntrouter/spheremod/SphereMod.java:82 | the radius lies in [4, 7] |
| SphereMod.SphereRadiusCovers | src/main/java/info/burntrouter/spheremod/SphereMod.java:82 | every radius from 4 to 7 can be drawn |
| SphereMod.GetBlockPos | src/main/java/info/burntrouter/spheremod/SphereMod.java:91-105 | the collected set is exactly the sphere of the given radius around the position |
| SphereMod.SphereWorld | src/main/java/info/burntrouter/spheremod/SphereMod.java:78-89 | defines the world after one 1.12 sphere; its properties are SphereMod.SphereWorldOutcome |
| SphereMod.SphereWorldOutcome | src/main/java/info/burntrouter/spheremod/SphereMod.java:78-89 | a sphere gives every position of the ball one surface block (never a replaced one), adds exactly the ball to the world and keeps every other block |
| SphereMod.GenerateSphere | src/main/java/info/burntrouter/spheremod/SphereMod.java:78-89 | writing the collected positions one by one, in any order, yields SphereWorld of the old world |
| SphereMod.PlanSphere | src/main/java/info/burntrouter/spheremod/SphereMod.java:67-76 | a centre is drawn exactly in dimension 0 when the density roll succeeds and maxHeight > minHeight; IllegalArgumentException exactly when the roll succeeds and maxHeight <= minHeight; the centre's x and z lie in the chunk and its y in [minHeight, maxHeight - 1] |
| SphereMod.PlanSphereCovers | src/main/java/info/burntrouter/spheremod/SphereMod.java:68-72 | every position of the chunk's column in [minHeight, maxHeight) can be a centre |
| SphereMod.Generate | src/main/java/info/burntrouter/spheremod/SphereMod.java:67-76 | the generate hook raises what PlanSphere raises; the world gets the sphere at PlanSphere's centre, or stays as it was |
| SkySpheres.ChosenState | src/main/java/info/burntrouter/skyspheres/SkySpheres.java:185 | defines the nextBoolean choice: the biome's top state when the draw is true, its under state when it is false (used by the contract of SkySpheres.GetIBlockState) |
| SkySpheres.GetIBlockState | src/main/java/info/burntrouter/skyspheres/SkySpheres.java:184-206 | the result is stone or the chosen top/under state; any result other than stone is the chosen state, which is then not special, is named and is not denied; a chosen state that is not special, is named and is not denied is returned; a special state gives stone; NullPointerException exactly when a non-special state has no registry name |
| SkySpheres.HasTileEntity | src/main/java/info/burntrouter/skyspheres/SkySpheres.java:200-206 | defines hasTileEntity: the host's answer for the block's default state, false when the host throws (its properties are stated through SkySpheres.GetIBlockState) |
| SkySpheres.IsSpecialBlock | src/main/java/info/burntrouter/skyspheres/SkySpheres.java:196-198 | defines a special state: one that holds a fluid or whose block has a tile entity (used by the contract of SkySpheres.GetIBlockState) |
| SkySpheres.DenyList | src/main/java/info/burntrouter/skyspheres/SkySpheres.java:37 | the deny list is the configured string split on commas: no entry contains a comma, and a string without a comma is a one-entry list |
| SkySpheres.IsOre | src/main/java/info/burntrouter/skyspheres/SkySpheres.java:129 | defines the ore filter: not air, named, "ore" in the path, neither "nether" nor "end" in it, full id not denied (stated as an iff by SkySpheres.OreListBlock) |
| SkySpheres.HasOreEntry | src/main/java/info/burntrouter/skyspheres/SkySpheres.java:125-126 | defines the biome filter: named, with neither "nether" nor "end" in the path (stated as an iff by SkySpheres.OreMapEntries) |
| SkySpheres.OreList | src/main/java/info/burntrouter/skyspheres/SkySpheres.java:127-133 | the ore list has at most one entry per registered block, and each entry is the default state of a block that passes the ore filter; the converse and the order are SkySpheres.OreListMember and SkySpheres.OreListConcat |
| SkySpheres.OreMap | src/main/java/info/burntrouter/skyspheres/SkySpheres.java:124-136 | every entry of the table is a biome that passes the biome filter and maps to the ore list; the converse is SkySpheres.OreMapEntries |
| SkySpheres.OreListMember | src/main/java/info/burntrouter/skyspheres/SkySpheres.java:128-132 | a state is on the ore list exactly when it is the default state of a registered block that passes the ore filter |
| SkySpheres.OreListBlock | src/main/java/info/burntrouter/skyspheres/SkySpheres.java:129-130 | a block's default state is on the list exactly when the block is registered, is not air, has a name whose path contains "ore" but neither "nether" nor "end", and has a full id that is not denied |
| SkySpheres.OreListConcat | src/main/java/info/burntrouter/skyspheres/SkySpheres.java:128-133 | the ore list keeps registry order: the list for a concatenation of registries is the concatenation of their lists |
| SkySpheres.CollectOres | src/main/java/info/burntrouter/skyspheres/SkySpheres.java:127-133 | the inner registry loop collects exactly OreList of the block registry |
| SkySpheres.OreMapEntries | src/main/java/info/burntrouter/skyspheres/SkySpheres.java:124-136 | the table has an entry exactly for each registered biome that has a name whose path contains neither "nether" nor "end"; every entry is the same ore list |
| SkySpheres.BiomeOreTable.constructor | src/main/java/info/burntrouter/skyspheres/SkySpheres.java:35 | the table starts empty |
| SkySpheres.BiomeOreTable.InitializeOreMap | src/main/java/info/burntrouter/skyspheres/SkySpheres.java:123-138 | initializeOreMap adds OreMap of the biome registry to the table, using the ore list of the whole block registry filtered by the configured deny list (the same DenyList the surface-block choice uses) |
| SkySpheres.OresOf | src/main/java/info/burntrouter/skyspheres/SkySpheres.java:164 | defines getOrDefault: the biome's entry, or the empty list when it has none (used by SkySpheres.PlaceSphereOutcome) |
| SkySpheres.SphereRadius | src/main/java/info/burntrouter/skyspheres/SkySpheres.java:163 | a radius is drawn exactly when maxSphereSize >= minSphereSize, and it lies in [minSphereSize, maxSphereSize] |
| SkySpheres.VoxelBlock | src/main/java/info/burntrouter/skyspheres/SkySpheres.java:172-177 | each position gets an ore from the list when the list is non-empty and the ore roll succeeds, and the surface state otherwise |
| SkySpheres.VoxelBlockCovers | src/main/java/info/burntrouter/skyspheres/SkySpheres.java:172-173 | every ore of the list can be the one written |
| SkySpheres.PlaceSphere | src/main/java/info/burntrouter/skyspheres/SkySpheres.java:159-182 | defines generateSphere on the world before it; its properties are SkySpheres.PlaceSphereOutcome |
| SkySpheres.PlaceSphereOutcome | src/main/java/info/burntrouter/skyspheres/SkySpheres.java:159-182 | generateSphere throws NullPointerException or IllegalArgumentException exactly in their cases, and then writes nothing; otherwise it removes no block, every position of the ball holds the surface state or a biome ore, and every changed position lies in the ball |
| SkySpheres.GenerateSphere | src/main/java/info/burntrouter/skyspheres/SkySpheres.java:159-182 | the method's error and world are PlaceSphere of the old world |
| SkySpheres.WriteSphere | src/main/java/info/burntrouter/skyspheres/SkySpheres.java:166-181 | the triple loop writes VoxelBlock at every position of the ball and nothing else |
| SkySpheres.ChunkCentre | src/main/java/info/burntrouter/skyspheres/SkySpheres.java:149-152 | no sphere exactly when the density roll fails; IllegalArgumentException exactly when it succeeds and maxHeight < minHeight; the centre's x and z lie in chunk index (chunkX, chunkZ) and its y in [minHeight, maxHeight] |
| SkySpheres.ChunkCentreCovers | src/main/java/info/burntrouter/skyspheres/SkySpheres.java:150-152 | every position of the chunk's column in [minHeight, maxHeight] can be a centre |
| SkySpheres.ChunkStep | src/main/java/info/burntrouter/skyspheres/SkySpheres.java:149-154 | defines one iteration of the inner loop on the world before it; its properties are SkySpheres.ChunkStepFootprint |
| SkySpheres.ChunkStepFootprint | src/main/java/info/burntrouter/skyspheres/SkySpheres.java:149-154 | one chunk index removes no block; it changes only positions in its own sphere; when it throws, nothing changes |
| SkySpheres.GenerateInChunk | src/main/java/info/burntrouter/skyspheres/SkySpheres.java:149-154 | the body of the inner loop does what ChunkStep says for its chunk index |
| SkySpheres.ChunkRow | src/main/java/info/burntrouter/skyspheres/SkySpheres.java:148 | defines the inner loop's visit order for one chunkX; its properties are SkySpheres.ChunkRowShape and SkySpheres.ChunkRowPrefix |
| SkySpheres.ChunkRows | src/main/java/info/burntrouter/skyspheres/SkySpheres.java:147-148 | defines the visit order of the first n outer iterations, each a full inner loop of 16; its properties are SkySpheres.ChunkRowsShape and SkySpheres.ChunkRowsPrefix |
| SkySpheres.ChunkOrder | src/main/java/info/burntrouter/skyspheres/SkySpheres.java:142-148 | defines the order in which generate visits chunk indices, 16 outer iterations from the main chunk; its properties are SkySpheres.ChunkOrderShape and SkySpheres.VisitedPrefix |
| SkySpheres.ChunkRowShape | src/main/java/info/burntrouter/skyspheres/SkySpheres.java:148 | the inner loop visits n indices, those with the row's x and z in [startZ, startZ + n) |
| SkySpheres.ChunkRowsShape | src/main/java/info/burntrouter/skyspheres/SkySpheres.java:147-148 | n outer iterations visit 16n indices, those in [startX, startX + n) x [startZ, startZ + 16) |
| SkySpheres.ChunkOrderShape | src/main/java/info/burntrouter/skyspheres/SkySpheres.java:142-148 | generate visits 256 chunk indices, exactly those in [mainX, mainX + 16) x [mainZ, mainZ + 16) |
| SkySpheres.ChunkRowPrefix | src/main/java/info/burntrouter/skyspheres/SkySpheres.java:148 | the inner loop's first j indices are a prefix of its first n |
| SkySpheres.ChunkRowsPrefix | src/main/java/info/burntrouter/skyspheres/SkySpheres.java:147 | the first i rows are a prefix of the first n rows |
| SkySpheres.VisitedPrefix | src/main/java/info/burntrouter/skyspheres/SkySpheres.java:147-148 | the indices visited so far are a prefix of the full visiting order |
| SkySpheres.ChunkRowsNext | src/main/java/info/burntrouter/skyspheres/SkySpheres.java:147-148 | a finished inner loop completes the next row of the outer loop |
| SkySpheres.ChunkRowNext | src/main/java/info/burntrouter/skyspheres/SkySpheres.java:148 | one inner step appends the current chunk index to the visit |
| SkySpheres.RunChunks | src/main/java/info/burntrouter/skyspheres/SkySpheres.java:141-157 | defines the visit of a sequence of chunk indices that stops at the first exception; its properties are SkySpheres.RunChunksKeeps, SkySpheres.RunChunksStops, SkySpheres.RunChunksStep and SkySpheres.RunChunksFootprint |
| SkySpheres.RunChunksKeeps | src/main/java/info/burntrouter/skyspheres/SkySpheres.java:141-157 | generate never removes a block |
| SkySpheres.RunChunksStops | src/main/java/info/burntrouter/skyspheres/SkySpheres.java:141-157 | after an exception, visiting more chunk indices changes nothing |
| SkySpheres.RunChunksStep | src/main/java/info/burntrouter/skyspheres/SkySpheres.java:147-155 | after a visit that raised nothing, one more chunk index is one more ChunkStep |
| SkySpheres.RunChunksFootprint | src/main/java/info/burntrouter/skyspheres/SkySpheres.java:141-157 | every changed position lies in the sphere of one of the visited chunk indices |
| SkySpheres.Generate | src/main/java/info/burntrouter/skyspheres/SkySpheres.java:141-157 | the double loop's world and error are RunChunks over the 256 chunk indices in loop order |
| SkySpheres.GenerateFootprint | src/main/java/info/burntrouter/skyspheres/SkySpheres.java:141-157 | every position changed by generate lies in a sphere whose chunk index c is in the 16x16 block; the centre's x and z lie in chunk c (so at most 255 blocks past the main chunk's first block); its y is in [minHeight, maxHeight]; the radius is in [minSphereSize, maxSphereSize] |

## Left out

- Mod registration is not modelled: the event handlers, the Forge lifecycle and the world-generator registration (`SphereMod.java:31-41`, `SkySpheres.java:39-62`). They are host glue with no logic of their own.
- Configuration loading and syncing are not modelled (`SphereMod.java:43-63`, `SkySpheres.java:64-121`). The configured values are parameters (`SphereMod.Config`, `SkySpheres.Config`). The host's limits on those values (`defineInRange`) are not imposed. Outside them, the model agrees with Java only while the `int` conditions in the `SphereMod.PlanSphere, SkySpheres.ChunkCentre, SkySpheres.SphereRadius` line below hold.
- The probabilities (`density`, `oreChance`) are not values. Each comparison `nextFloat() < p` is a supplied boolean, so floating-point arithmetic is left out.
- `java.util.Random` itself is not modelled: its seed, its sequence and the rejection loop inside `nextInt`. Each draw is an input, reduced into range as described above.
- The logging calls in `initializeOreMap` (`SkySpheres.java:131`, `135`) have no effect on the state and are left out.
- The update flags argument of `setBlockState` (2) is not modelled. The host's build-height limit and the bounds of the generation region are not modelled either, so every write is assumed to land.
- SphereMod.PlanSphere, SkySpheres.ChunkCentre, SkySpheres.SphereRadius: Java's 32-bit `int` arithmetic is modelled with unbounded integers. The model matches Java only while `maxHeight - minHeight` (1.12), `maxHeight - minHeight + 1` and `maxSphereSize - minSphereSize + 1` (1.16), `minHeight + dy` and the coordinates `chunkX * 16 + dx` fit in an `int`. In 1.16, `defineInRange` keeps the configured values in [0, 256] and [1, 100], so the differences fit there. The 1.12 configuration has no range. For example, with `minHeight = -2147483648` and `maxHeight = 0`, Java's difference wraps to a negative bound and `nextInt` throws, while `SphereMod.PlanSphere` picks a centre.
- `SkySpheres.HasTileEntity`: `hasTileEntity(block.getDefaultState())` is modelled as a fixed answer per block, as either an answer or an exception. The caught exception gives false, as in the generator.
- `SkySpheres.OreList`: the registries are modelled as sequences in their iteration order. The `biome == null` check has no counterpart, because a sequence element is never null.
- The registry's block-state objects are modelled as values: a block and a variant number, plus the fluid flag in 1.16. Comparing them with `==` in Java is comparing these values.
- SkySpheres.OresOf: biomes are compared by value (registry name, top state and under state), but Java's `HashMap` compares `Biome` objects by identity, since `Biome` does not override `equals`. The model therefore assumes that the biome object `getBiome` returns for a position is the registry's own object, the one `initializeOreMap` put into the table. It cannot express a distinct biome object with the same name and surface blocks, for which Java finds no entry and places no ores. The `block != Blocks.AIR` test in the ore filter is also an identity test, but modelling it by value changes nothing: the path "air" does not contain "ore", so air fails the filter either way.
- SkySpheres.DenyList: Java splits the deny-list string once, when the class is initialised, into a static list. The model splits the configured string wherever the list is used, in `SkySpheres.GetIBlockState` and in `SkySpheres.BiomeOreTable.InitializeOreMap`. It therefore assumes that the string does not change after class initialisation. A change made when the configuration is reloaded does not reach the Java list, but it would reach the model's.
- `SkySpheres.Generate`: an exception is modelled as a result. The spheres already written stay, and the rest of the call is skipped, so how Java unwinds the stack is not modelled.
- The other copies of the generator for further host versions are not part of this model.
