/**
 * Integer-lattice geometry shared by both generator versions: block
 * positions, the filled sphere of lattice points that the generators
 * rasterise, and the part of that sphere a triple x-y-z loop over the
 * bounding cube has visited so far.
 */
module Lattice {

  /** A block position (the host's BlockPos). */
  datatype Pos = Pos(x: int, y: int, z: int)

  /** The position offset from `p` by (dx, dy, dz) (BlockPos.add). */
  function Add(p: Pos, dx: int, dy: int, dz: int): Pos
  {
    Pos(p.x + dx, p.y + dy, p.z + dz)
  }

  /** The rasterisation test on an offset: dx² + dy² + dz² <= r². */
  predicate InSphere(dx: int, dy: int, dz: int, r: int)
  {
    dx * dx + dy * dy + dz * dz <= r * r
  }

  /** The offset lies in the bounding cube [-r, r]³ the loops iterate. */
  predicate InCube(dx: int, dy: int, dz: int, r: int)
  {
    -r <= dx <= r && -r <= dy <= r && -r <= dz <= r
  }

  /**
   * Offset (dx, dy, dz) is visited before offset (x, y, z) by loops that
   * run x outermost and z innermost, each in increasing order.
   */
  predicate Before(dx: int, dy: int, dz: int, x: int, y: int, z: int)
  {
    dx < x || (dx == x && (dy < y || (dy == y && dz < z)))
  }

  /** The positions the rasteriser keeps for centre `c` and radius `r`. */
  ghost function Ball(c: Pos, r: int): set<Pos>
  {
    set dx, dy, dz | -r <= dx <= r && -r <= dy <= r && -r <= dz <= r && InSphere(dx, dy, dz, r)
      :: Add(c, dx, dy, dz)
  }

  /** The positions of Ball(c, r) whose offsets come before (x, y, z) in loop order. */
  ghost function BallBefore(c: Pos, r: int, x: int, y: int, z: int): set<Pos>
  {
    set dx, dy, dz | -r <= dx <= r && -r <= dy <= r && -r <= dz <= r && InSphere(dx, dy, dz, r)
                     && Before(dx, dy, dz, x, y, z)
      :: Add(c, dx, dy, dz)
  }

  lemma BallMember(c: Pos, r: int, p: Pos)
    ensures p in Ball(c, r) <==>
      InCube(p.x - c.x, p.y - c.y, p.z - c.z, r) && InSphere(p.x - c.x, p.y - c.y, p.z - c.z, r)
  {
    var dx, dy, dz := p.x - c.x, p.y - c.y, p.z - c.z;
    if InCube(dx, dy, dz, r) && InSphere(dx, dy, dz, r) {
      assert Add(c, dx, dy, dz) == p;
    }
  }

  lemma BallBeforeMember(c: Pos, r: int, x: int, y: int, z: int, p: Pos)
    ensures p in BallBefore(c, r, x, y, z) <==>
      var dx, dy, dz := p.x - c.x, p.y - c.y, p.z - c.z;
      InCube(dx, dy, dz, r) && InSphere(dx, dy, dz, r) && Before(dx, dy, dz, x, y, z)
  {
    var dx, dy, dz := p.x - c.x, p.y - c.y, p.z - c.z;
    if InCube(dx, dy, dz, r) && InSphere(dx, dy, dz, r) && Before(dx, dy, dz, x, y, z) {
      assert Add(c, dx, dy, dz) == p;
    }
  }

  /** Nothing comes before the first offset (-r, -r, -r): the loops start from nothing. */
  lemma BallBeforeStart(c: Pos, r: int)
    ensures BallBefore(c, r, -r, -r, -r) == {}
  {
    var visited := BallBefore(c, r, -r, -r, -r);
    forall p ensures p in visited <==> p in {} {
      BallBeforeMember(c, r, -r, -r, -r, p);
    }
  }

  /** One step of the innermost loop adds offset (x, y, z) exactly when it passes the test. */
  lemma BallBeforeStep(c: Pos, r: int, x: int, y: int, z: int)
    requires InCube(x, y, z, r)
    ensures BallBefore(c, r, x, y, z + 1) ==
      BallBefore(c, r, x, y, z) + (if InSphere(x, y, z, r) then {Add(c, x, y, z)} else {})
  {
    var lhs := BallBefore(c, r, x, y, z + 1);
    var rhs := BallBefore(c, r, x, y, z) + (if InSphere(x, y, z, r) then {Add(c, x, y, z)} else {});
    forall p ensures p in lhs <==> p in rhs {
      BallBeforeMember(c, r, x, y, z + 1, p);
      BallBeforeMember(c, r, x, y, z, p);
    }
  }

  /** Finishing the innermost loop for (x, y) is starting it for (x, y + 1). */
  lemma BallBeforeRowEnd(c: Pos, r: int, x: int, y: int, z: int)
    requires z > r
    ensures BallBefore(c, r, x, y, z) == BallBefore(c, r, x, y + 1, -r)
  {
    forall p ensures p in BallBefore(c, r, x, y, z) <==> p in BallBefore(c, r, x, y + 1, -r) {
      BallBeforeMember(c, r, x, y, z, p);
      BallBeforeMember(c, r, x, y + 1, -r, p);
    }
  }

  /** Finishing the middle loop for x is starting it for x + 1. */
  lemma BallBeforeSliceEnd(c: Pos, r: int, x: int, y: int, z: int)
    requires y > r
    ensures BallBefore(c, r, x, y, z) == BallBefore(c, r, x + 1, -r, -r)
  {
    forall p ensures p in BallBefore(c, r, x, y, z) <==> p in BallBefore(c, r, x + 1, -r, -r) {
      BallBeforeMember(c, r, x, y, z, p);
      BallBeforeMember(c, r, x + 1, -r, -r, p);
    }
  }

  /** Once the outer loop has passed r, every position of the ball has been visited. */
  lemma BallBeforeEnd(c: Pos, r: int, x: int, y: int, z: int)
    requires x > r
    ensures BallBefore(c, r, x, y, z) == Ball(c, r)
  {
    forall p ensures p in BallBefore(c, r, x, y, z) <==> p in Ball(c, r) {
      BallBeforeMember(c, r, x, y, z, p);
      BallMember(c, r, p);
    }
  }

  lemma SquareMonotone(a: int, b: int)
    requires 0 <= a <= b
    ensures a * a <= b * b
  {
    assert a * a <= a * b <= b * b;
  }

  /** A square no larger than r² has a root in [-r, r]. */
  lemma SquareBound(d: int, r: int)
    requires r >= 0 && d * d <= r * r
    ensures -r <= d <= r
  {
    var e := if d < 0 then -d else d;
    assert e * e == d * d;
    if e > r {
      SquareMonotone(r + 1, e);
      assert false;
    }
  }

  /**
   * For a non-negative radius the cube bound is implied by the sphere test:
   * Ball(c, r) is exactly { c + (dx, dy, dz) | dx² + dy² + dz² <= r² }.
   */
  lemma BallExact(c: Pos, r: int, p: Pos)
    requires r >= 0
    ensures p in Ball(c, r) <==> InSphere(p.x - c.x, p.y - c.y, p.z - c.z, r)
  {
    BallMember(c, r, p);
    var dx, dy, dz := p.x - c.x, p.y - c.y, p.z - c.z;
    if InSphere(dx, dy, dz, r) {
      assert dx * dx >= 0 && dy * dy >= 0 && dz * dz >= 0;
      SquareBound(dx, r);
      SquareBound(dy, r);
      SquareBound(dz, r);
    }
  }

  /** A negative radius gives no positions: the loops never run. */
  lemma BallNegative(c: Pos, r: int)
    requires r < 0
    ensures Ball(c, r) == {}
  {
    forall p ensures p in Ball(c, r) <==> p in {} {
      BallMember(c, r, p);
    }
  }

  /** Every position lies in the bounding cube [c - r, c + r] on each axis. */
  lemma BallInCube(c: Pos, r: int, p: Pos)
    requires p in Ball(c, r)
    ensures c.x - r <= p.x <= c.x + r && c.y - r <= p.y <= c.y + r && c.z - r <= p.z <= c.z + r
  {
    BallMember(c, r, p);
  }

  /** For r >= 0 the centre is kept. */
  lemma BallCentre(c: Pos, r: int)
    requires r >= 0
    ensures c in Ball(c, r)
  {
    BallMember(c, r, c);
  }

  /** The ball is closed under negating any one offset axis. */
  lemma BallMirror(c: Pos, r: int, dx: int, dy: int, dz: int)
    requires Add(c, dx, dy, dz) in Ball(c, r)
    ensures Add(c, -dx, dy, dz) in Ball(c, r)
    ensures Add(c, dx, -dy, dz) in Ball(c, r)
    ensures Add(c, dx, dy, -dz) in Ball(c, r)
  {
    BallMember(c, r, Add(c, dx, dy, dz));
    assert (-dx) * (-dx) == dx * dx && (-dy) * (-dy) == dy * dy && (-dz) * (-dz) == dz * dz;
    BallMember(c, r, Add(c, -dx, dy, dz));
    BallMember(c, r, Add(c, dx, -dy, dz));
    BallMember(c, r, Add(c, dx, dy, -dz));
  }
}
