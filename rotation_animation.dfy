/**
 The keyframe animation that rotates the container from one face's perspective to another's,
 as `makeRotationAnimation(from:to:)` builds it, with the target side kept as metadata.
 */
module RotationAnimations {
  import opened Wrappers
  import opened CubeSides

  /** The media timing curves the animation names; their shapes are not modelled. */
  datatype TimingFunction = EaseIn | EaseInEaseOut | EaseOut

  /** Core Animation fill modes. */
  datatype FillMode = Removed | Forwards | Backwards | Both

  /**
   A `CAKeyframeAnimation` on the container layer: key path, duration, removal and fill
   behaviour, keyframe values, per-segment timing curves, key times, and the raw value of the
   target side stored under the "final side" metadata key.
   */
  datatype RotationAnimation = RotationAnimation(
    keyPath: string,
    duration: real,
    removedOnCompletion: bool,
    fillMode: FillMode,
    values: seq<Transform>,
    timingFunctions: seq<TimingFunction>,
    keyTimes: seq<real>,
    finalSide: int)

  /** The scale of the two middle keyframes. */
  const DownScale: real := 0.55

  predicate StrictlyIncreasing(s: seq<real>)
  {
    forall i, j :: 0 <= i < j < |s| ==> s[i] < s[j]
  }

  /**
   The rotation animation: it starts at the perspective of `from`, shrinks it, swaps to a shrunk
   perspective of `to`, and ends at the perspective of `to`. There are one value and one key time
   per keyframe, key times rising from 0 to 1 over a duration of one second, and four timing
   curves, of which Core Animation uses the first three, one per segment between keyframes; the
   animation stays on the layer when it completes, and its metadata decodes back to `to`.
   */
  function MakeRotationAnimation(from: CubeSide, to: CubeSide, width: real): (a: RotationAnimation)
    ensures a.keyPath == "sublayerTransform"
    ensures a.duration == 1.0 && !a.removedOnCompletion && a.fillMode == Forwards
    ensures |a.values| == |a.timingFunctions| == |a.keyTimes| == 4
    ensures a.values[0] == PerspectiveTransform(from, width)
    ensures a.values[3] == PerspectiveTransform(to, width)
    ensures a.values[1] == Scaled(a.values[0], DownScale)
    ensures a.values[2] == Scaled(a.values[3], DownScale)
    ensures a.keyTimes == [0.0, 0.15, 0.65, 1.0] && StrictlyIncreasing(a.keyTimes)
    ensures a.timingFunctions == [EaseIn, EaseInEaseOut, EaseInEaseOut, EaseOut]
    ensures FromRawValue(a.finalSide) == Some(to)
  {
    var startTransform := PerspectiveTransform(from, width);
    var startDownScaled := Scaled(startTransform, DownScale);
    var finalTransform := PerspectiveTransform(to, width);
    var finalDownScaled := Scaled(finalTransform, DownScale);
    RawValueRoundTrip(to);
    RotationAnimation(
      "sublayerTransform",
      1.0,
      false,
      Forwards,
      [startTransform, startDownScaled, finalDownScaled, finalTransform],
      [EaseIn, EaseInEaseOut, EaseInEaseOut, EaseOut],
      [0.0, 0.15, 0.65, 1.0],
      RawValue(to))
  }

  /** The two shrunk keyframes keep the rotation of the perspectives they shrink. */
  lemma ShrunkKeyframesKeepRotation(from: CubeSide, to: CubeSide, width: real)
    ensures var a := MakeRotationAnimation(from, to, width);
      && QuarterTurns(a.values[1]) == QuarterTurns(a.values[0])
      && QuarterTurns(a.values[2]) == QuarterTurns(a.values[3])
  {
  }

  /** The side an animation's metadata names, `CubeSide(rawValue:)!` of the stored raw value. */
  function TargetSide(a: RotationAnimation): (s: CubeSide)
    requires FromRawValue(a.finalSide).Some?
    ensures RawValue(s) == a.finalSide
  {
    FromRawValue(a.finalSide).value
  }
}
