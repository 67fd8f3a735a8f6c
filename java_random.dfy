/**
 * Draws from java.util.Random. The generator's state is not modelled:
 * every draw is an input. A call nextInt(bound) is given by the raw value
 * the generator produced for it; the result is that value reduced into
 * [0, bound), so the model can produce exactly the values nextInt can.
 * Boolean draws (nextBoolean, and the float comparisons nextFloat() < p)
 * are supplied directly as booleans.
 */
module JavaRandom {
  import opened Host

  /** Random.nextInt(bound): IllegalArgumentException unless bound > 0, else a value in [0, bound). */
  function NextInt(raw: nat, bound: int): (r: Option<nat>)
    ensures r.None? <==> bound <= 0
    ensures r.Some? ==> r.value < bound
  {
    if bound <= 0 then None else Some(raw % bound)
  }

  /** Every value nextInt(bound) may return is produced by some draw. */
  lemma NextIntCovers(bound: int, v: nat)
    requires v < bound
    ensures exists raw: nat :: NextInt(raw, bound) == Some(v)
  {
    assert NextInt(v, bound) == Some(v);
  }
}
