/** The state optimizer of a swerve module (SwerveModule.optimize): rather
    than turn the wheel more than a quarter turn, point it the other way and
    run it backwards. */
module StateOptimizer {
  import opened Angles

  /** A wheel command, as a SwerveModuleState: signed speed and steering
      angle in radians (a Rotation2d keeps its raw radian value). */
  datatype ModuleState = ModuleState(speedMetersPerSecond: real, angle: real)

  /** Two commands move the wheel the same way over the ground: same heading
      and same speed, or opposite heading and opposite speed. */
  ghost predicate SameMotion(s: ModuleState, t: ModuleState) {
    (s.speedMetersPerSecond == t.speedMetersPerSecond && SameHeading(s.angle, t.angle)) ||
    (s.speedMetersPerSecond == -t.speedMetersPerSecond && SameHeading(s.angle, t.angle + PI))
  }

  /** optimize: scope the desired angle next to the current one; when that is
      more than a quarter turn away, reverse the speed and turn the target by
      half a turn back toward the current angle. */
  function Optimize(desiredState: ModuleState, currentAngle: real): (r: ModuleState)
    ensures SameMotion(r, desiredState)
    ensures Abs(r.speedMetersPerSecond) == Abs(desiredState.speedMetersPerSecond)
    ensures Abs(r.angle - currentAngle) <= PI / 2.0
  {
    var targetAngle := Scope(currentAngle, desiredState.angle);
    var delta := targetAngle - currentAngle;
    if Abs(delta) > PI / 2.0 then
      var k :| targetAngle - desiredState.angle == Multiple(TWO_PI, k);
      assert targetAngle - PI - (desiredState.angle + PI) == Multiple(TWO_PI, k - 1);
      assert targetAngle + PI - (desiredState.angle + PI) == Multiple(TWO_PI, k);
      ModuleState(-desiredState.speedMetersPerSecond,
                  if delta > PI / 2.0 then targetAngle - PI else targetAngle + PI)
    else
      ModuleState(desiredState.speedMetersPerSecond, targetAngle)
  }

  /** The wheel is reversed exactly when the scoped target is more than a
      quarter turn away (a quarter turn exactly is not reversed); a reversal
      always negates the speed and moves the target by half a turn toward the
      current angle, and without a reversal the speed is kept. */
  lemma OptimizeFlipsExactly(desiredState: ModuleState, currentAngle: real)
    ensures var target := Scope(currentAngle, desiredState.angle);
      var r := Optimize(desiredState, currentAngle);
      (r.angle != target <==> Abs(target - currentAngle) > PI / 2.0) &&
      (r.angle != target ==>
         r.speedMetersPerSecond == -desiredState.speedMetersPerSecond &&
         r.angle == (if target - currentAngle > PI / 2.0 then target - PI else target + PI)) &&
      (r.angle == target ==> r.speedMetersPerSecond == desiredState.speedMetersPerSecond)
  {
  }

  /** An angle with the same heading as a or as a + π is a whole number of
      half turns from any other such angle. */
  lemma HalfTurnsApart(x: real, y: real, a: real)
    requires SameHeading(x, a) || SameHeading(x, a + PI)
    requires SameHeading(y, a) || SameHeading(y, a + PI)
    ensures IsMultiple(x - y, PI)
  {
    var xs := if SameHeading(x, a) then 0 else 1;
    var ys := if SameHeading(y, a) then 0 else 1;
    var i :| x - (a + Multiple(PI, xs)) == Multiple(TWO_PI, i);
    var j :| y - (a + Multiple(PI, ys)) == Multiple(TWO_PI, j);
    assert x - y == Multiple(PI, 2 * (i - j) + xs - ys);
  }

  /** No command that moves the wheel the same way needs less steering: the
      optimized angle is the nearest to the current angle of all the angles
      that give the desired motion. */
  lemma OptimizeMinimalTravel(desiredState: ModuleState, currentAngle: real, s: ModuleState)
    requires SameMotion(s, desiredState)
    ensures Abs(Optimize(desiredState, currentAngle).angle - currentAngle) <= Abs(s.angle - currentAngle)
  {
    var r := Optimize(desiredState, currentAngle);
    HalfTurnsApart(s.angle, r.angle, desiredState.angle);
    var k :| s.angle - r.angle == Multiple(PI, k);
    if k != 0 {
      MultipleAtLeast(PI, k);
    }
  }

  /** A desired 200 degrees at 2 m/s from a current 10 degrees: the scoped
      target is -160 degrees, 170 degrees away, so the wheel is reversed and
      steered to 20 degrees instead. */
  lemma OptimizeReversesLongTurn()
    ensures Optimize(ModuleState(2.0, Degrees(200.0)), Degrees(10.0)) == ModuleState(-2.0, Degrees(20.0))
  {
    assert JavaRem(Degrees(10.0), TWO_PI) == Degrees(10.0);
    assert BracketOf(Degrees(10.0)) == Bracket(0.0, TWO_PI);
    assert Scope(Degrees(10.0), Degrees(200.0)) == Degrees(-160.0);
  }
}
