/** Point-in-box tests of the game: the home zone's inclusive square and the
    enemies' strict, player-point-against-enemy-box collision test.
    Home and enemy centres and sizes are integers; the player's position comes
    from the turtle and is a real. Python's `size / 2` is true division, so
    both tests are stated over the reals. */
module Geometry {

  function Abs(r: real): (a: real)
    ensures a >= 0.0 && (a == r || a == -r)
  {
    if r < 0.0 then -r else r
  }

  /** The player's home: a square of side `size` centred on (x, y). */
  datatype Home = Home(x: int, y: int, size: int)
  {
    /** Whether the home contains the point (px, py); the border belongs to it.
        Containment is a distance test: both axis distances from the centre
        are at most half the side. */
    predicate Contains(px: real, py: real)
      ensures Contains(px, py) <==>
              2.0 * Abs(px - x as real) <= size as real &&
              2.0 * Abs(py - y as real) <= size as real
    {
      var half := size as real / 2.0;
      x as real - half <= px <= x as real + half &&
      y as real - half <= py <= y as real + half
    }
  }

  /** Whether an enemy of side `size` centred on (ex, ey) hits a player at
      (px, py): the player's point lies strictly inside the enemy's box. */
  predicate HitsPlayer(ex: int, ey: int, size: int, px: real, py: real)
    ensures HitsPlayer(ex, ey, size, px, py) <==>
            2.0 * Abs(px - ex as real) < size as real &&
            2.0 * Abs(py - ey as real) < size as real
  {
    var half := size as real / 2.0;
    ex as real - half < px < ex as real + half &&
    ey as real - half < py < ey as real + half
  }

  /** For an even side and an integer point, containment is the integer test
      `hx - size/2 <= x <= hx + size/2` on both axes. */
  lemma ContainsEvenIntegers(h: Home, x: int, y: int)
    requires h.size % 2 == 0
    ensures h.Contains(x as real, y as real) <==>
            h.x - h.size / 2 <= x <= h.x + h.size / 2 &&
            h.y - h.size / 2 <= y <= h.y + h.size / 2
  {
    var k := h.size / 2;
    assert h.size == 2 * k;
    assert h.size as real / 2.0 == k as real;
  }

  /** The border of the home is inside: every corner of the square is contained,
      and nothing beyond any of its four sides is. */
  lemma ContainsBorderInclusive(h: Home, e: real)
    requires h.size >= 0 && e > 0.0
    ensures var half := h.size as real / 2.0;
            h.Contains(h.x as real - half, h.y as real - half) &&
            h.Contains(h.x as real + half, h.y as real - half) &&
            h.Contains(h.x as real - half, h.y as real + half) &&
            h.Contains(h.x as real + half, h.y as real + half)
    ensures var half := h.size as real / 2.0;
            !h.Contains(h.x as real - half - e, h.y as real) &&
            !h.Contains(h.x as real + half + e, h.y as real) &&
            !h.Contains(h.x as real, h.y as real - half - e) &&
            !h.Contains(h.x as real, h.y as real + half + e)
  {
  }

  /** An enemy of positive size sitting exactly on the player hits it. */
  lemma HitsAtSamePosition(ex: int, ey: int, size: int)
    requires size > 0
    ensures HitsPlayer(ex, ey, size, ex as real, ey as real)
  {
  }

  /** A player exactly half a side away on either axis, on either side, is not
      hit: the box is open. */
  lemma NoHitOnBorder(ex: int, ey: int, size: int, p: real)
    ensures !HitsPlayer(ex, ey, size, ex as real - size as real / 2.0, p)
    ensures !HitsPlayer(ex, ey, size, ex as real + size as real / 2.0, p)
    ensures !HitsPlayer(ex, ey, size, p, ey as real - size as real / 2.0)
    ensures !HitsPlayer(ex, ey, size, p, ey as real + size as real / 2.0)
  {
  }

  /** An enemy of size zero or less never hits. */
  lemma NoHitWithoutSize(ex: int, ey: int, size: int, px: real, py: real)
    requires size <= 0
    ensures !HitsPlayer(ex, ey, size, px, py)
  {
  }

  /** The enemy test is the strict version of the home test: a hit implies
      containment in a home-shaped square of the same centre and size, and a
      contained point that is not hit lies on that square's border. */
  lemma HitIsStrictContainment(ex: int, ey: int, size: int, px: real, py: real)
    ensures HitsPlayer(ex, ey, size, px, py) ==> Home(ex, ey, size).Contains(px, py)
    ensures Home(ex, ey, size).Contains(px, py) && !HitsPlayer(ex, ey, size, px, py) ==>
            2.0 * Abs(px - ex as real) == size as real ||
            2.0 * Abs(py - ey as real) == size as real
  {
  }
}
