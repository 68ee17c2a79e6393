/** Angle arithmetic of a swerve module: Java's remainder on doubles, the
    "same heading" relation, and the scoping of a target angle next to a
    reference angle (placeInAppropriate0To360Scope). Angles are in radians. */
module Angles {

  /** Math.PI as the decimal Java prints for it (the double itself is
      3.141592653589793115997...; reals are exact, doubles are not). */
  const PI: real := 3.141592653589793
  /** One full turn, as the source writes it: 2.0 * Math.PI. */
  const TWO_PI: real := 2.0 * PI

  function Abs(x: real): (r: real)
    ensures 0.0 <= r && (r == x || r == -x)
  {
    if x < 0.0 then -x else x
  }

  /** k times m. */
  function Multiple(m: real, k: int): (r: real) {
    m * k as real
  }

  /** d is a whole multiple of m. */
  ghost predicate IsMultiple(d: real, m: real) {
    exists k: int :: d == Multiple(m, k)
  }

  /** x and y point the same way: they differ by a whole number of turns. */
  ghost predicate SameHeading(x: real, y: real) {
    IsMultiple(x - y, TWO_PI)
  }

  /** Rounding toward zero, as a cast from double to long does. */
  function Trunc(q: real): (t: int)
    ensures 0.0 <= q ==> 0 <= t && t as real <= q < t as real + 1.0
    ensures q < 0.0 ==> t <= 0 && t as real - 1.0 < q <= t as real
  {
    if q >= 0.0 then q.Floor else -((-q).Floor)
  }

  /** Rounding up. */
  function Ceil(q: real): (c: int)
    ensures q <= c as real < q + 1.0
  {
    -((-q).Floor)
  }

  lemma CeilOfTurns(q: real, k: int)
    requires k as real - 1.0 < q <= k as real
    ensures Ceil(q) == k
  {
  }

  /** Java's `x % m` on doubles: the remainder keeps the sign of x. */
  function JavaRem(x: real, m: real): (r: real)
    requires m > 0.0
    ensures -m < r < m
    ensures 0.0 <= x ==> 0.0 <= r
    ensures x <= 0.0 ==> r <= 0.0
    ensures IsMultiple(x - r, m)
  {
    var t := Trunc(x / m);
    assert 0.0 <= x ==> 0.0 <= x / m;
    assert x < 0.0 ==> x / m < 0.0;
    assert x - (x - m * t as real) == Multiple(m, t);
    if x >= 0.0 then
      ScaledBetween(x, m, t as real);
      x - m * t as real
    else
      ScaledBetweenDown(x, m, t as real);
      x - m * t as real
  }

  /** `t <= x / m < t + 1` scaled back by a positive m. */
  lemma ScaledBetween(x: real, m: real, t: real)
    requires 0.0 < m && t <= x / m < t + 1.0
    ensures m * t <= x < m * t + m
  {
    ScaledBelow(x, m, t);
    ScaledAbove(x, m, t + 1.0);
    assert m * (t + 1.0) == m * t + m;
  }

  /** `t - 1 < x / m <= t` scaled back by a positive m. */
  lemma ScaledBetweenDown(x: real, m: real, t: real)
    requires 0.0 < m && t - 1.0 < x / m <= t
    ensures m * t - m < x <= m * t
  {
    ScaledStrictlyBelow(x, m, t - 1.0);
    ScaledAboveOrAt(x, m, t);
    assert m * (t - 1.0) == m * t - m;
  }

  /** One inequality on x / m at a time, scaled back by m: the solver's
      nonlinear reasoning needs each in a context of its own. */
  lemma ScaledBelow(x: real, m: real, t: real)
    requires 0.0 < m && t <= x / m
    ensures m * t <= x
  {
    MulDiv(m, x);
    ScaleLe(m, t, x / m);
  }

  lemma ScaledStrictlyBelow(x: real, m: real, t: real)
    requires 0.0 < m && t < x / m
    ensures m * t < x
  {
    MulDiv(m, x);
    ScaleLt(m, t, x / m);
  }

  lemma ScaledAbove(x: real, m: real, t: real)
    requires 0.0 < m && x / m < t
    ensures x < m * t
  {
    MulDiv(m, x);
    ScaleLt(m, x / m, t);
  }

  lemma ScaledAboveOrAt(x: real, m: real, t: real)
    requires 0.0 < m && x / m <= t
    ensures x <= m * t
  {
    MulDiv(m, x);
    ScaleLe(m, x / m, t);
  }

  /** Multiplying by a positive m keeps an order. */
  lemma ScaleLe(m: real, a: real, b: real)
    requires 0.0 < m && a <= b
    ensures m * a <= m * b
  {
  }

  lemma ScaleLt(m: real, a: real, b: real)
    requires 0.0 < m && a < b
    ensures m * a < m * b
  {
  }

  lemma MulDiv(m: real, x: real)
    requires 0.0 < m
    ensures m * (x / m) == x
  {
  }

  /** The turn-aligned bracket [lower, upper] the source computes around a reference. */
  datatype Bracket = Bracket(lower: real, upper: real)

  function BracketOf(reference: real): (b: Bracket)
    ensures b.lower <= reference <= b.upper
    ensures b.upper - b.lower == TWO_PI
    ensures IsMultiple(b.lower, TWO_PI)
  {
    var lowerOffset := JavaRem(reference, TWO_PI);
    if lowerOffset >= 0.0 then
      Bracket(reference - lowerOffset, reference + (TWO_PI - lowerOffset))
    else
      TurnDown(reference - lowerOffset, 0.0);
      Bracket(reference - (TWO_PI + lowerOffset), reference - lowerOffset)
  }

  /** Moving x by one turn keeps its heading. */
  lemma TurnDown(x: real, y: real)
    requires SameHeading(x, y)
    ensures SameHeading(x - TWO_PI, y)
  {
    var k :| x - y == Multiple(TWO_PI, k);
    assert x - TWO_PI - y == Multiple(TWO_PI, k - 1);
  }

  lemma TurnUp(x: real, y: real)
    requires SameHeading(x, y)
    ensures SameHeading(x + TWO_PI, y)
  {
    var k :| x - y == Multiple(TWO_PI, k);
    assert x + TWO_PI - y == Multiple(TWO_PI, k + 1);
  }

  /** Where the two while loops leave the candidate: inside the reference's
      bracket, moved by whole turns, untouched if it was already inside. */
  function Unwound(reference: real, angle: real): (r: real)
    ensures BracketOf(reference).lower <= r <= BracketOf(reference).upper
    ensures SameHeading(r, angle)
    ensures BracketOf(reference).lower <= angle <= BracketOf(reference).upper ==> r == angle
  {
    var b := BracketOf(reference);
    if angle < b.lower then
      var turns := Ceil((b.lower - angle) / TWO_PI);
      assert angle + TWO_PI * turns as real - angle == Multiple(TWO_PI, turns);
      angle + TWO_PI * turns as real
    else if angle > b.upper then
      var turns := Ceil((angle - b.upper) / TWO_PI);
      assert angle - TWO_PI * turns as real - angle == Multiple(TWO_PI, -turns);
      angle - TWO_PI * turns as real
    else
      assert angle - angle == Multiple(TWO_PI, 0);
      angle
  }

  /** The angles the scoping leaves where they are: inside the bracket and at
      most half a turn from the reference, or strictly less than half a turn away. */
  predicate Settled(reference: real, x: real) {
    var b := BracketOf(reference);
    (b.lower <= x <= b.upper && Abs(x - reference) <= PI) || Abs(x - reference) < PI
  }

  /** placeInAppropriate0To360Scope: the representative of `angle` (modulo a
      full turn) that lies within half a turn of `reference`. */
  function Scope(reference: real, angle: real): (r: real)
    ensures reference - PI <= r <= reference + PI
    ensures SameHeading(r, angle)
    ensures Settled(reference, r)
  {
    var unwound := Unwound(reference, angle);
    if unwound - reference > PI then
      TurnDown(unwound, angle);
      unwound - TWO_PI
    else if unwound - reference < -PI then
      TurnUp(unwound, angle);
      unwound + TWO_PI
    else
      unwound
  }

  /** Counting the turns the two loops add (up) and take away (down) when
      they stop: their result is the closed form Unwound. */
  lemma LoopsReachUnwound(reference: real, angle: real, up: int, down: int)
    requires 0 <= up && 0 <= down && (up == 0 || down == 0)
    requires var b := BracketOf(reference);
      var r := angle + TWO_PI * up as real - TWO_PI * down as real;
      b.lower <= r <= b.upper &&
      (up == 0 ==> b.lower <= angle) &&
      (up > 0 ==> r - TWO_PI < b.lower) &&
      (down > 0 ==> r + TWO_PI > b.upper)
    ensures angle + TWO_PI * up as real - TWO_PI * down as real == Unwound(reference, angle)
  {
    var b := BracketOf(reference);
    if up > 0 {
      assert (b.lower - angle) / TWO_PI <= up as real;
      CeilOfTurns((b.lower - angle) / TWO_PI, up);
    } else if down > 0 {
      assert angle > b.upper;
      CeilOfTurns((angle - b.upper) / TWO_PI, down);
    }
  }

  /** The scoping as the source runs it: two while loops that add or subtract
      whole turns, then one final correction by a turn. */
  method PlaceInAppropriate0To360Scope(scopeReference: real, newAngle: real) returns (r: real)
    ensures r == Scope(scopeReference, newAngle)
  {
    var lowerBound: real;
    var upperBound: real;
    var lowerOffset := JavaRem(scopeReference, TWO_PI);
    if lowerOffset >= 0.0 {
      lowerBound := scopeReference - lowerOffset;
      upperBound := scopeReference + (TWO_PI - lowerOffset);
    } else {
      upperBound := scopeReference - lowerOffset;
      lowerBound := scopeReference - (TWO_PI + lowerOffset);
    }
    assert lowerBound == BracketOf(scopeReference).lower;
    assert upperBound == BracketOf(scopeReference).upper;
    r := newAngle;
    ghost var up := 0;
    while r < lowerBound
      invariant 0 <= up && r == newAngle + TWO_PI * up as real
      invariant up > 0 ==> r - TWO_PI < lowerBound
      decreases lowerBound - r
    {
      r := r + TWO_PI;
      up := up + 1;
    }
    ghost var unwoundUp := r;
    ghost var down := 0;
    while r > upperBound
      invariant 0 <= down && r == unwoundUp - TWO_PI * down as real
      invariant lowerBound <= r
      invariant up > 0 ==> down == 0
      invariant down > 0 ==> r + TWO_PI > upperBound
      decreases r - upperBound
    {
      r := r - TWO_PI;
      down := down + 1;
    }
    LoopsReachUnwound(scopeReference, newAngle, up, down);
    if r - scopeReference > PI {
      r := r - TWO_PI;
    } else if r - scopeReference < -PI {
      r := r + TWO_PI;
    }
  }

  /** Angles already settled next to the reference are left alone. */
  lemma ScopeFixed(reference: real, x: real)
    requires Settled(reference, x)
    ensures Scope(reference, x) == x
  {
    var b := BracketOf(reference);
    if x < b.lower {
      CeilOfTurns((b.lower - x) / TWO_PI, 1);
      assert Unwound(reference, x) == x + TWO_PI;
    } else if x > b.upper {
      CeilOfTurns((x - b.upper) / TWO_PI, 1);
      assert Unwound(reference, x) == x - TWO_PI;
    }
  }

  /** Scoping twice against the same reference is scoping once. */
  lemma ScopeIdempotent(reference: real, angle: real)
    ensures Scope(reference, Scope(reference, angle)) == Scope(reference, angle)
  {
    ScopeFixed(reference, Scope(reference, angle));
  }

  /** Scoping an angle against itself leaves it unchanged, so re-scoping a
      setpoint against itself is harmless. */
  lemma ScopeSelf(x: real)
    ensures Scope(x, x) == x
  {
    ScopeFixed(x, x);
  }

  /** No representative of the same heading is nearer the reference. */
  lemma ScopeNearest(reference: real, angle: real, y: real)
    requires SameHeading(y, angle)
    ensures Abs(Scope(reference, angle) - reference) <= Abs(y - reference)
  {
    var r := Scope(reference, angle);
    var i :| y - angle == Multiple(TWO_PI, i);
    var j :| r - angle == Multiple(TWO_PI, j);
    assert y - r == Multiple(TWO_PI, i - j);
    if i != j {
      MultipleAtLeast(TWO_PI, i - j);
    }
  }

  /** A non-zero whole multiple of a positive m is at least m away from zero. */
  lemma MultipleAtLeast(m: real, k: int)
    requires 0.0 < m && k != 0
    ensures Abs(Multiple(m, k)) >= m
  {
    if k > 0 {
      ScaleLe(m, 1.0, k as real);
    } else {
      ScaleLe(m, k as real, -1.0);
    }
  }

  /** Same heading is an equivalence: transitive (through the middle angle). */
  lemma SameHeadingTransitive(x: real, y: real, z: real)
    requires SameHeading(x, y) && SameHeading(z, y)
    ensures SameHeading(x, z)
  {
    var i :| x - y == Multiple(TWO_PI, i);
    var j :| z - y == Multiple(TWO_PI, j);
    assert x - z == Multiple(TWO_PI, i - j);
  }

  lemma SameHeadingSymmetric(x: real, y: real)
    requires SameHeading(x, y)
    ensures SameHeading(y, x)
  {
    var i :| x - y == Multiple(TWO_PI, i);
    assert y - x == Multiple(TWO_PI, -i);
  }

  /** The two ends of the interval are both reachable. With a reference an
      odd number of half turns from 0, as π is, which end a heading half a
      turn away lands on depends on the side it comes from. */
  lemma ScopeBoundaryDependsOnSide()
    ensures Scope(PI, -TWO_PI) == PI - PI
    ensures Scope(PI, 2.0 * TWO_PI) == PI + PI
  {
    assert BracketOf(PI) == Bracket(0.0, TWO_PI);
    CeilOfTurns((0.0 - -TWO_PI) / TWO_PI, 1);
    CeilOfTurns((2.0 * TWO_PI - TWO_PI) / TWO_PI, 1);
  }

  /** With any other reference the reference alone fixes the end: against 0,
      a heading half a turn away lands on π from below and from above. */
  lemma ScopeBoundaryFixedByReference()
    ensures Scope(0.0, -PI) == PI
    ensures Scope(0.0, 3.0 * PI) == PI
  {
    assert JavaRem(0.0, TWO_PI) == 0.0;
    assert BracketOf(0.0) == Bracket(0.0, TWO_PI);
    CeilOfTurns((0.0 - -PI) / TWO_PI, 1);
    CeilOfTurns((3.0 * PI - TWO_PI) / TWO_PI, 1);
  }

  /** Degrees to radians. */
  function Degrees(d: real): (r: real) {
    d * PI / 180.0
  }

  /** A target of -170 degrees next to a reference of 170 degrees becomes 190
      degrees: 20 degrees away instead of 340. */
  lemma ScopeWrapsAcrossHalfTurn()
    ensures Scope(Degrees(170.0), Degrees(-170.0)) == Degrees(190.0)
  {
    assert JavaRem(Degrees(170.0), TWO_PI) == Degrees(170.0);
    assert BracketOf(Degrees(170.0)) == Bracket(0.0, TWO_PI);
    CeilOfTurns((0.0 - Degrees(-170.0)) / TWO_PI, 1);
  }
}
