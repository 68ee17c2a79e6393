/** The heading read-outs of a swerve module: the integrated angle from the
    steering motor's relative encoder, and the calibrated angle from the
    absolute CANcoder, which seeds that encoder at start-up. */
module HeadingEstimator {
  import opened Angles

  /** getIntegratedAngle: the relative encoder position (radians) reduced
      into one turn [0, 2π). */
  function IntegratedAngle(rotationPosition: real): (r: real)
    ensures 0.0 <= r < TWO_PI
    ensures SameHeading(r, rotationPosition)
  {
    var unsignedAngle := JavaRem(rotationPosition, TWO_PI);
    var k :| rotationPosition - unsignedAngle == Multiple(TWO_PI, k);
    if unsignedAngle < 0.0 then
      assert unsignedAngle + TWO_PI - rotationPosition == Multiple(TWO_PI, 1 - k);
      unsignedAngle + TWO_PI
    else
      assert unsignedAngle - rotationPosition == Multiple(TWO_PI, -k);
      unsignedAngle
  }

  /** getCanCoderAngle as written: 2π times the absolute position (in
      rotations) minus the offset reduced by Java's `%`. Operator precedence
      applies the `%` to the offset alone, so the sum itself is not reduced;
      it still names the calibrated heading 2π·position − offset. */
  function CanCoderAngle(absolutePosition: real, offset: real): (r: real)
    ensures SameHeading(r, TWO_PI * absolutePosition - offset)
    ensures 0.0 <= absolutePosition < 1.0 ==> -TWO_PI < r < 2.0 * TWO_PI
  {
    var reducedOffset := JavaRem(offset, TWO_PI);
    var k :| offset - reducedOffset == Multiple(TWO_PI, k);
    assert TWO_PI * absolutePosition - reducedOffset - (TWO_PI * absolutePosition - offset) == Multiple(TWO_PI, k);
    TWO_PI * absolutePosition - reducedOffset
  }

  /** Within one turn [0, 2π) a heading has exactly one representative, and
      the integrated angle is it. */
  lemma IntegratedAngleUnique(x: real, position: real)
    requires 0.0 <= x < TWO_PI && SameHeading(x, position)
    ensures x == IntegratedAngle(position)
  {
    var r := IntegratedAngle(position);
    var i :| x - position == Multiple(TWO_PI, i);
    var j :| r - position == Multiple(TWO_PI, j);
    assert x - r == Multiple(TWO_PI, i - j);
    if i != j {
      MultipleAtLeast(TWO_PI, i - j);
    }
  }

  /** An encoder position already inside [0, 2π) reads back unchanged. */
  lemma IntegratedAngleOfTurn(position: real)
    requires 0.0 <= position < TWO_PI
    ensures IntegratedAngle(position) == position
  {
    assert position - position == Multiple(TWO_PI, 0);
    IntegratedAngleUnique(position, position);
  }

  /** Seeding the relative encoder with the CANcoder angle gives the
      integrated heading of the calibrated reading 2π·position − offset (that
      reading itself when it lies in [0, 2π)): the unreduced sum in
      CanCoderAngle changes no heading. */
  lemma SeededHeading(absolutePosition: real, offset: real)
    ensures IntegratedAngle(CanCoderAngle(absolutePosition, offset))
         == IntegratedAngle(TWO_PI * absolutePosition - offset)
    ensures 0.0 <= TWO_PI * absolutePosition - offset < TWO_PI ==>
              IntegratedAngle(CanCoderAngle(absolutePosition, offset)) == TWO_PI * absolutePosition - offset
  {
    var seeded := CanCoderAngle(absolutePosition, offset);
    var calibrated := TWO_PI * absolutePosition - offset;
    var r := IntegratedAngle(seeded);
    SameHeadingSymmetric(seeded, calibrated);
    SameHeadingTransitive(r, seeded, calibrated);
    IntegratedAngleUnique(r, calibrated);
    if 0.0 <= calibrated < TWO_PI {
      IntegratedAngleOfTurn(calibrated);
    }
  }
}
