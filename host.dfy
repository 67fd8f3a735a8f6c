/**
 * The slice of the game host both generator versions touch: optional
 * values (the host's null), registry names, and the world as a mutable
 * map from positions to block states with a biome at every position.
 */
module Host {
  import opened Lattice

  datatype Option<T> = None | Some(value: T)

  /** A registry name "namespace:path" (ResourceLocation). */
  datatype ResourceLocation = ResourceLocation(namespace: string, path: string)
  {
    /** ResourceLocation.toString. */
    function ToString(): string
    {
      namespace + ":" + path
    }
  }

  /** The exceptions a generator can raise. */
  datatype Error =
    | IllegalArgument   // Random.nextInt with a bound that is not positive
    | NullPointer       // Objects.requireNonNull on a missing registry name

  /** What a per-chunk roll decides: no sphere, a sphere at a centre, or an exception. */
  datatype Placement = NoSphere | Centre(pos: Pos) | Thrown(error: Error)

  /**
   * The world after every position of `region` is set to f(position): a
   * position in the region holds its new block and every other position
   * keeps exactly what it held (or stays absent).
   */
  function Overwrite<S>(m: map<Pos, S>, region: set<Pos>, f: Pos -> S): map<Pos, S>
  {
    map p | p in m.Keys + region :: if p in region then f(p) else m[p]
  }

  /** What Overwrite means position by position. */
  lemma OverwriteFacts<S>(m: map<Pos, S>, region: set<Pos>, f: Pos -> S)
    ensures Overwrite(m, region, f).Keys == m.Keys + region
    ensures forall p :: p in region ==> Overwrite(m, region, f)[p] == f(p)
    ensures forall p :: p in m && p !in region ==> Overwrite(m, region, f)[p] == m[p]
  {
  }

  /** Overwriting no position leaves the world as it was. */
  lemma OverwriteNothing<S>(m: map<Pos, S>, f: Pos -> S)
    ensures Overwrite(m, {}, f) == m
  {
  }

  /** Writing one more position of the region is one more setBlockState. */
  lemma OverwriteAdd<S>(m: map<Pos, S>, region: set<Pos>, p: Pos, f: Pos -> S)
    ensures Overwrite(m, region + {p}, f) == Overwrite(m, region, f)[p := f(p)]
  {
  }

  /**
   * A world (or a world-generation region): block states by position,
   * written through SetBlockState, and the biome the host reports at
   * each position.
   */
  class World<S, B> {
    var blocks: map<Pos, S>
    const biomeAt: Pos -> B

    constructor (initial: map<Pos, S>, biomes: Pos -> B)
      ensures blocks == initial && biomeAt == biomes
    {
      blocks := initial;
      biomeAt := biomes;
    }

    /** setBlockState(pos, state, flags); the update flags have no effect on the stored block. */
    method SetBlockState(p: Pos, s: S)
      modifies this
      ensures blocks == old(blocks)[p := s]
    {
      blocks := blocks[p := s];
    }
  }
}
