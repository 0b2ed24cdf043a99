/**
 The four faces of the cube (the `CubeSide` enumeration with its `count` sentinel),
 their cyclic order, and the two per-face transforms, kept symbolic.
 */
module CubeSides {
  import opened Wrappers

  /** The faces in rotation order; `Count` is the sentinel whose raw value is the number of faces. */
  datatype CubeSide = Front | Right | Back | Left | Count {
    predicate IsReal() { !Count? }
  }

  /** `CubeSide.count.rawValue`. */
  const SideCount: nat := 4

  /** The `Int` raw value of each case (front is 0, the others follow in declaration order). */
  function RawValue(s: CubeSide): (r: nat)
    ensures r <= SideCount
    ensures r == SideCount <==> !s.IsReal()
  {
    match s
    case Front => 0
    case Right => 1
    case Back => 2
    case Left => 3
    case Count => 4
  }

  /** The failable initialiser `CubeSide(rawValue:)`. */
  function FromRawValue(raw: int): (r: Option<CubeSide>)
    ensures r.Some? <==> 0 <= raw <= SideCount
    ensures r.Some? ==> RawValue(r.value) == raw
  {
    if raw == 0 then Some(Front)
    else if raw == 1 then Some(Right)
    else if raw == 2 then Some(Back)
    else if raw == 3 then Some(Left)
    else if raw == 4 then Some(Count)
    else None
  }

  lemma RawValueRoundTrip(s: CubeSide)
    ensures FromRawValue(RawValue(s)) == Some(s)
  {
  }

  /** Swift's `%` on `Int`: the quotient truncates toward zero, so the remainder takes the dividend's sign. */
  function SwiftRemainder(a: int, n: int): (r: int)
    requires n > 0
    ensures -n < r < n
    ensures a >= 0 ==> r == a % n
    ensures a < 0 ==> r == -((-a) % n)
  {
    if a >= 0 then a % n else -((-a) % n)
  }

  /**
   `init(index:)`: the side whose raw value is `index % count`. The forced unwrap traps when the
   remainder is negative; that outcome is `None`.
   */
  function FromIndex(index: int): (r: Option<CubeSide>)
    ensures r.Some? <==> index >= 0 || index % SideCount == 0
    ensures r.Some? ==> r.value.IsReal()
    ensures index >= 0 ==> r.Some? && RawValue(r.value) == index % SideCount
  {
    FromRawValue(SwiftRemainder(index, SideCount))
  }

  /** The face at position `i` of the child stack, as `init(index:)` gives it. */
  function SideAt(i: nat): (s: CubeSide)
    ensures s.IsReal() && RawValue(s) == i % SideCount
  {
    FromIndex(i).value
  }

  /** Below the sentinel, `init(rawValue:)` of a stack position gives the face `init(index:)` gives. */
  lemma RawValueAtPosition(i: nat)
    requires i < SideCount
    ensures FromRawValue(i) == Some(SideAt(i))
  {
    RawValueInjective(FromRawValue(i).value, SideAt(i));
  }

  /** `nextSide()`: one quarter turn forward; the sentinel maps to the front. */
  function NextSide(s: CubeSide): (r: CubeSide)
    ensures r.IsReal()
    ensures s.IsReal() ==> RawValue(r) == (RawValue(s) + 1) % SideCount
    ensures !s.IsReal() ==> r == Front
  {
    match s
    case Front => Right
    case Right => Back
    case Back => Left
    case Left => Front
    case Count => Front
  }

  /** `prevSide()`: one quarter turn backward; the sentinel maps to the front. */
  function PrevSide(s: CubeSide): (r: CubeSide)
    ensures r.IsReal()
    ensures s.IsReal() ==> RawValue(r) == (RawValue(s) + SideCount - 1) % SideCount
    ensures !s.IsReal() ==> r == Front
  {
    match s
    case Front => Left
    case Right => Front
    case Back => Right
    case Left => Back
    case Count => Front
  }

  /** Two real sides with the same raw value are the same side. */
  lemma RawValueInjective(s: CubeSide, t: CubeSide)
    requires RawValue(s) == RawValue(t)
    ensures s == t
  {
    RawValueRoundTrip(s);
    RawValueRoundTrip(t);
  }

  /** `prevSide` undoes `nextSide` and vice versa, on every real side. */
  lemma NextPrevInverse(s: CubeSide)
    requires s.IsReal()
    ensures PrevSide(NextSide(s)) == s
    ensures NextSide(PrevSide(s)) == s
  {
  }

  /** A forward and a backward rotation from the same real side never reach the same face, and neither stays put. */
  lemma NextDiffersFromPrev(s: CubeSide)
    requires s.IsReal()
    ensures NextSide(s) != PrevSide(s)
    ensures NextSide(s) != s && PrevSide(s) != s
  {
  }

  /** `nextSide()` applied `n` times. */
  function NextSideIterated(s: CubeSide, n: nat): CubeSide
    decreases n
  {
    if n == 0 then s else NextSideIterated(NextSide(s), n - 1)
  }

  /** `prevSide()` applied `n` times. */
  function PrevSideIterated(s: CubeSide, n: nat): CubeSide
    decreases n
  {
    if n == 0 then s else PrevSideIterated(PrevSide(s), n - 1)
  }

  /** `init(index:)` of two non-negative indices with equal remainders gives one side. */
  lemma FromIndexCongruent(a: nat, b: nat)
    requires a % SideCount == b % SideCount
    ensures FromIndex(a) == FromIndex(b)
  {
    RawValueInjective(FromIndex(a).value, FromIndex(b).value);
  }

  /** Walking `n` steps forward from a real side lands on the side `init(index:)` gives for its raw value plus `n`. */
  lemma {:induction false} NextSideIteratedIsModular(s: CubeSide, n: nat)
    requires s.IsReal()
    ensures FromIndex(RawValue(s) + n) == Some(NextSideIterated(s, n))
    decreases n
  {
    if n == 0 {
      FromIndexCongruent(RawValue(s), RawValue(s) + 0);
      RawValueInjective(FromIndex(RawValue(s)).value, s);
    } else {
      var t := NextSide(s);
      NextSideIteratedIsModular(t, n - 1);
      if RawValue(s) + 1 < SideCount {
        assert RawValue(t) + (n - 1) == RawValue(s) + n;
      } else {
        assert RawValue(t) + (n - 1) + SideCount == RawValue(s) + n;
      }
      FromIndexCongruent(RawValue(t) + (n - 1), RawValue(s) + n);
    }
  }

  /** The successor has period four: four quarter turns forward return to the starting face. */
  lemma NextSidePeriod(s: CubeSide, k: nat)
    requires s.IsReal()
    ensures NextSideIterated(s, SideCount * k) == s
  {
    NextSideIteratedIsModular(s, SideCount * k);
    FromIndexCongruent(RawValue(s) + SideCount * k, RawValue(s));
    RawValueInjective(FromIndex(RawValue(s)).value, s);
  }

  /** Walking `n` steps backward and then `n` steps forward returns to the start. */
  lemma {:induction false} PrevSideIteratedUndone(s: CubeSide, n: nat)
    requires s.IsReal()
    ensures NextSideIterated(PrevSideIterated(s, n), n) == s
    decreases n
  {
    if n > 0 {
      PrevSideIteratedUndone(PrevSide(s), n - 1);
      NextSideIteratedSplit(PrevSideIterated(PrevSide(s), n - 1), n - 1);
      NextPrevInverse(s);
    }
  }

  /** The last of `n + 1` forward steps can be taken last. */
  lemma {:induction false} NextSideIteratedSplit(s: CubeSide, n: nat)
    ensures NextSideIterated(s, n + 1) == NextSide(NextSideIterated(s, n))
    decreases n
  {
    if n > 0 {
      NextSideIteratedSplit(NextSide(s), n - 1);
    }
  }

  // Symbolic 3D transforms

  /** One step of a `CATransform3D` construction; a transform applies its steps in order. */
  datatype TransformStep =
    | Perspective(m34: real)                  // the m34 (perspective) coefficient set on the identity
    | Translate(tx: real, ty: real, tz: real)
    | RotateY(quarterTurns: int)              // about the vertical axis, in multiples of pi/2
    | Scale(factor: real)                     // the same factor on all three axes

  /** A transform as the sequence of steps that built it; `[]` is `CATransform3DIdentity`. */
  type Transform = seq<TransformStep>

  const Identity: Transform := []

  /** `perspectiveTransform`'s m34 coefficient, -1/500. */
  const CubePerspective: real := -1.0 / 500.0

  /** Total rotation about the vertical axis, in quarter turns. */
  function QuarterTurns(t: Transform): int
  {
    if t == [] then 0
    else QuarterTurns(t[..|t| - 1]) + StepTurns(t[|t| - 1])
  }

  function StepTurns(step: TransformStep): int
  {
    if step.RotateY? then step.quarterTurns else 0
  }

  lemma QuarterTurnsOfShortTransforms(t: Transform)
    ensures |t| == 1 ==> QuarterTurns(t) == StepTurns(t[0])
    ensures |t| == 2 ==> QuarterTurns(t) == StepTurns(t[0]) + StepTurns(t[1])
    ensures |t| == 3 ==> QuarterTurns(t) == StepTurns(t[0]) + StepTurns(t[1]) + StepTurns(t[2])
  {
    if 1 <= |t| <= 3 {
      assert t[..0] == [];
      if |t| >= 2 {
        assert t[..1][..0] == [];
      }
      if |t| == 3 {
        assert t[..2][..1] == t[..1];
        assert t[..1][..0] == [];
      }
    }
  }

  /** `CATransform3DScale(t, f, f, f)`: the transform followed by a uniform scale, which turns nothing. */
  function Scaled(t: Transform, factor: real): (r: Transform)
    ensures |r| == |t| + 1 && r[..|t|] == t && r[|t|] == Scale(factor)
    ensures QuarterTurns(r) == QuarterTurns(t)
  {
    assert (t + [Scale(factor)])[..|t|] == t;
    t + [Scale(factor)]
  }

  /** The unit vector a face points along after `k` quarter turns about the vertical axis, starting from +z. */
  function OutwardNormal(k: int): (real, real, real)
  {
    var m := k % 4;
    if m == 0 then (0.0, 0.0, 1.0)
    else if m == 1 then (1.0, 0.0, 0.0)
    else if m == 2 then (0.0, 0.0, -1.0)
    else (-1.0, 0.0, 0.0)
  }

  /**
   `viewTransform(in:)`: where a face's content rests. Every real face is pushed out from the centre
   by half the width along the direction it faces, then turned so that it faces outward; its turn
   count agrees with its raw value modulo four. The sentinel gets the identity.
   */
  function ViewTransform(s: CubeSide, width: real): (t: Transform)
    ensures !s.IsReal() ==> t == Identity
    ensures s.IsReal() ==>
      && |t| >= 1 && t[0].Translate?
      && (forall i :: 1 <= i < |t| ==> t[i].RotateY?)
      && QuarterTurns(t) % SideCount == RawValue(s)
      && var n := OutwardNormal(QuarterTurns(t));
         t[0] == Translate(width / 2.0 * n.0, width / 2.0 * n.1, width / 2.0 * n.2)
  {
    var distance := width / 2.0;
    var t :=
      match s
      case Front => [Translate(0.0, 0.0, distance)]
      case Right => [Translate(distance, 0.0, 0.0), RotateY(1)]
      case Left => [Translate(-distance, 0.0, 0.0), RotateY(-1)]
      case Back => [Translate(0.0, 0.0, -distance), RotateY(2)]
      case Count => Identity;
    QuarterTurnsOfShortTransforms(t);
    t
  }

  /**
   `perspectiveTransform(in:)`: the camera transform that shows a face front-on. It always starts
   with the m34 coefficient -1/500 and a camera pulled back by half the width; its rotation cancels
   the face's placement rotation exactly.
   */
  function PerspectiveTransform(s: CubeSide, width: real): (t: Transform)
    ensures |t| >= 2 && t[0] == Perspective(CubePerspective) && t[1] == Translate(0.0, 0.0, -(width / 2.0))
    ensures forall i :: 2 <= i < |t| ==> t[i].RotateY?
    ensures QuarterTurns(t) + QuarterTurns(ViewTransform(s, width)) == 0
  {
    var distance := width / 2.0;
    var transform := [Perspective(CubePerspective)];
    var transform := transform + [Translate(0.0, 0.0, -distance)];
    var transform :=
      match s
      case Right => transform + [RotateY(-1)]
      case Left => transform + [RotateY(1)]
      case Back => transform + [RotateY(-2)]
      case _ => transform;
    QuarterTurnsOfShortTransforms(transform);
    QuarterTurnsOfShortTransforms(ViewTransform(s, width));
    transform
  }
}
