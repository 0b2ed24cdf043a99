/**
 The state of the cube container and the transitions its controller makes: forward and backward
 navigation, the single-animation guard, the resolution of a stopped animation, the edge-pan
 handler and the re-application of the placement transforms. Each function here is the
 specification of one method of the controller class.
 */
module ContainerState {
  import opened Wrappers
  import opened CubeSides
  import opened RotationAnimations

  /** Identity of a child view controller. */
  type ChildId = nat

  /** A child view controller and the transform its view's layer carries. */
  datatype Child = Child(id: ChildId, placement: Transform)

  /** The only completion action the controller installs: remove the current child. */
  datatype Completion = RemoveCurrentChild

  /**
   Everything the rotation logic reads or writes: the child stack (oldest first, the current child
   last), the current side, the pending completion action, the rotation animation attached under
   the rotation key, the children whose views the controller made non-interactive, the container
   layer's speed, time offset and sublayer transform, and the widths of the root view and the
   container view.
   */
  datatype Container = Container(
    children: seq<Child>,
    currentSide: CubeSide,
    completion: Option<Completion>,
    animation: Option<RotationAnimation>,
    disabled: set<ChildId>,
    speed: real,
    timeOffset: real,
    sublayerTransform: Transform,
    viewWidth: real,
    containerWidth: real)

  /** The camera perspective set when the view loads: the identity with m34 = -1/50000. */
  const CameraPerspective: Transform := [Perspective(-1.0 / 50000.0)]

  /** `currentViewController()`: the most recently added child. */
  function CurrentChild(c: Container): (r: Child)
    requires c.children != []
  {
    c.children[|c.children| - 1]
  }

  /** True when `a` rotates from `from` one face forward or one face backward. */
  predicate IsRotationFrom(a: RotationAnimation, from: CubeSide, width: real)
  {
    a == MakeRotationAnimation(from, NextSide(from), width)
    || a == MakeRotationAnimation(from, PrevSide(from), width)
  }

  /**
   The invariant of every reachable state: between one and four children, a real current side, a
   completion action only while an animation is attached, and an attached animation that starts
   at the current side, targets a neighbour, and has a child to remove behind it.
   */
  predicate Inv(c: Container)
  {
    && 1 <= |c.children| <= RawValue(Count)
    && c.currentSide.IsReal()
    && (c.completion.Some? ==> c.animation.Some?)
    && (c.animation.Some? ==>
          |c.children| >= 2 && IsRotationFrom(c.animation.value, c.currentSide, c.containerWidth))
  }

  /**
   A state at rest: no animation attached, hence no completion action, and the current child
   interactive. Every stop ends in such a state (see `AnimationDidStop`), whatever requests the
   guard rejected on the way.
   */
  predicate Idle(c: Container)
  {
    Inv(c) && c.animation.None? && CurrentChild(c).id !in c.disabled
  }

  /**
   A state at rest reached by completed rotations that no rejected request overlapped: no
   animation and no completion action,
   distinct children, child `i` sitting on face `i`, the current side being the last child's face,
   and every child except the last made non-interactive.
   */
  predicate Settled(c: Container)
  {
    && Inv(c)
    && c.animation.None? && c.completion.None?
    && (forall i, j :: 0 <= i < j < |c.children| ==> c.children[i].id != c.children[j].id)
    && c.currentSide == SideAt(|c.children| - 1)
    && (forall i :: 0 <= i < |c.children| ==> PlacedOn(c, c.children[i], SideAt(i)))
    && (forall i :: 0 <= i < |c.children| - 1 ==> c.children[i].id in c.disabled)
    && CurrentChild(c).id !in c.disabled
  }

  /** `vc` is neither on the stack nor a view the controller has made non-interactive. */
  predicate IsNewChild(c: Container, vc: ChildId)
  {
    vc !in c.disabled && forall i :: 0 <= i < |c.children| ==> c.children[i].id != vc
  }

  /** The child's layer carries the placement of side `s`, computed from either of the two widths. */
  predicate PlacedOn(c: Container, child: Child, s: CubeSide)
  {
    child.placement == ViewTransform(s, c.viewWidth) || child.placement == ViewTransform(s, c.containerWidth)
  }

  /** The state after `init(viewController:)` and `viewDidLoad()`: the root child on the front face. */
  function Initial(root: ChildId, viewWidth: real, containerWidth: real): (c: Container)
    ensures Settled(c) && c.children == [Child(root, ViewTransform(Front, viewWidth))]
    ensures c.currentSide == Front && c.disabled == {} && c.speed == 1.0 && c.timeOffset == 0.0
  {
    Container([Child(root, ViewTransform(Front, viewWidth))], Front, None, None, {}, 1.0, 0.0,
              CameraPerspective, viewWidth, containerWidth)
  }

  /** `removeFromParent()` on the current child: the child stack loses its last entry. */
  function DropCurrentChild(c: Container): (r: Container)
    requires c.children != []
    ensures r.children == c.children[..|c.children| - 1]
    ensures r.children + [CurrentChild(c)] == c.children && r.(children := c.children) == c
  {
    c.(children := c.children[..|c.children| - 1])
  }

  /**
   `performRotationAnimation(from:to:)`: attaches a new rotation animation unless one is already
   attached, in which case nothing changes. Either way exactly one animation is attached afterwards.
   */
  function PerformRotation(c: Container, from: CubeSide, to: CubeSide): (r: Container)
    ensures r.animation.Some?
    ensures c.animation.Some? ==> r == c
    ensures c.animation.None? ==> r == c.(animation := Some(MakeRotationAnimation(from, to, c.containerWidth)))
  {
    if c.animation.Some? then c
    else c.(animation := Some(MakeRotationAnimation(from, to, c.containerWidth)))
  }

  /**
   `navigateToViewController(_:)`. With fewer than four children, the current child is made
   non-interactive, `vc` is appended at the next face's placement, and a rotation to the next face
   is requested; the append happens even when the guard then rejects the rotation. With four
   children nothing changes. The side is never changed here.
   */
  function NavigateForward(c: Container, vc: ChildId): (r: Container)
    requires Inv(c)
    ensures Inv(r)
    ensures r.currentSide == c.currentSide && r.completion == c.completion
    ensures |c.children| < RawValue(Count) ==>
      && r.children == c.children + [Child(vc, ViewTransform(NextSide(c.currentSide), c.containerWidth))]
      && r.disabled == c.disabled + {CurrentChild(c).id}
      && r.animation == (if c.animation.Some? then c.animation
                         else Some(MakeRotationAnimation(c.currentSide, NextSide(c.currentSide), c.containerWidth)))
    ensures |c.children| >= RawValue(Count) ==> r == c
    ensures r.(children := c.children, disabled := c.disabled, animation := c.animation) == c
  {
    var canAddMoreChildren := |c.children| < RawValue(Count);
    if canAddMoreChildren then
      var current := CurrentChild(c);
      var added := c.(disabled := c.disabled + {current.id},
                      children := c.children + [Child(vc, ViewTransform(NextSide(c.currentSide), c.containerWidth))]);
      PerformRotation(added, c.currentSide, NextSide(c.currentSide))
    else
      c
  }

  /**
   `navigateToPreviousViewController()`. With more than one child, the completion action "remove
   the current child" is installed (even when the guard then rejects the rotation) and a rotation
   to the previous face is requested. With one child nothing changes.
   */
  function NavigateBackward(c: Container): (r: Container)
    requires Inv(c)
    ensures Inv(r)
    ensures r.children == c.children && r.currentSide == c.currentSide && r.disabled == c.disabled
    ensures |c.children| > 1 ==>
      && r.completion == Some(RemoveCurrentChild)
      && r.animation == (if c.animation.Some? then c.animation
                         else Some(MakeRotationAnimation(c.currentSide, PrevSide(c.currentSide), c.containerWidth)))
    ensures |c.children| <= 1 ==> r == c
    ensures r.(completion := c.completion, animation := c.animation) == c
  {
    var hasPreviousChildren := |c.children| > 1;
    if hasPreviousChildren then
      PerformRotation(c.(completion := Some(RemoveCurrentChild)), c.currentSide, PrevSide(c.currentSide))
    else
      c
  }

  /**
   `animationDidStop(_:finished:)` for the attached rotation animation. On success the current side
   becomes the target, the container takes the target's perspective, and the completion action, if
   any, removes the current child. On failure the side stays, and the last child is removed only
   when the target was the next face (an undone forward step). In every outcome the now-current
   child becomes interactive, the completion action is cleared and the animation removed.
   */
  function AnimationDidStop(c: Container, successful: bool): (r: Container)
    requires Inv(c) && c.animation.Some?
    ensures Inv(r)
    ensures r.animation.None? && r.completion.None?
    ensures CurrentChild(r).id !in r.disabled
    ensures r.currentSide == (if successful then TargetSide(c.animation.value) else c.currentSide)
    ensures |r.children| == |c.children| - 1 || r.children == c.children
    ensures r.children <= c.children
    ensures successful ==>
      && r.sublayerTransform == PerspectiveTransform(TargetSide(c.animation.value), c.containerWidth)
      && (r.children == c.children <==> c.completion.None?)
    ensures !successful ==> (r.children == c.children <==> TargetSide(c.animation.value) != NextSide(c.currentSide))
    ensures !successful ==> r.sublayerTransform == c.sublayerTransform
    ensures r.disabled == c.disabled - {CurrentChild(r).id}
    ensures r.(children := c.children, currentSide := c.currentSide, completion := c.completion,
               animation := c.animation, disabled := c.disabled, sublayerTransform := c.sublayerTransform) == c
  {
    var resolved := StopResolved(c, successful);
    resolved.(disabled := resolved.disabled - {CurrentChild(resolved).id},
              completion := None,
              animation := None)
  }

  /**
   The part of `animationDidStop(_:finished:)` that depends on the outcome: a success turns to the
   target side and its perspective and runs the completion action; a failure removes the last child
   only when the target was the next face. The stack keeps at least one child.
   */
  function StopResolved(c: Container, successful: bool): (r: Container)
    requires Inv(c) && c.animation.Some?
    ensures 1 <= |r.children|
  {
    var newSide := TargetSide(c.animation.value);
    if successful then
      var turned := c.(currentSide := newSide,
                       sublayerTransform := PerspectiveTransform(newSide, c.containerWidth));
      if turned.completion.Some? then DropCurrentChild(turned) else turned
    else
      var oldSide := c.currentSide;
      var isAnimationDirectionForward := NextSide(oldSide) == newSide;
      if isAnimationDirectionForward then DropCurrentChild(c) else c
  }

  /** The screen edge a pan gesture started from. */
  datatype ScreenEdge = LeftEdge | RightEdge

  /** The phases of a gesture recognizer. */
  datatype GesturePhase = Possible | Began | Changed | Ended | Cancelled | Failed

  const MinPercent: real := 0.0
  const MaxPercent: real := 0.999
  /** A released pan that covered less than this fraction of the width aborts the rotation. */
  const MinPercentRequired: real := 0.25

  function Abs(x: real): real { if x < 0.0 then -x else x }

  /** Swift's `min`, which returns its first argument unless the second is smaller. */
  function SwiftMin(x: real, y: real): (r: real)
    ensures r <= x && r <= y && (r == x || r == y)
  {
    if y < x then y else x
  }

  /** Swift's `max`, which returns its first argument unless the second is at least as large. */
  function SwiftMax(x: real, y: real): (r: real)
    ensures r >= x && r >= y && (r == x || r == y)
  {
    if y >= x then y else x
  }

  /**
   The panned fraction `|translation / width|` clamped into [0, 0.999]. A zero width divides to a
   NaN (for a zero translation), which `max` discards in favour of 0, or to an infinity, which
   `min` clamps to 0.999.
   */
  function PercentPanned(translationX: real, width: real): (p: real)
    ensures MinPercent <= p <= MaxPercent
    ensures width != 0.0 && Abs(translationX / width) <= MaxPercent ==> p == Abs(translationX / width)
    ensures width != 0.0 && Abs(translationX / width) >= MaxPercent ==> p == MaxPercent
  {
    if width == 0.0 then
      if translationX == 0.0 then MinPercent else MaxPercent
    else
      SwiftMin(MaxPercent, SwiftMax(MinPercent, Abs(translationX / width)))
  }

  /**
   `onEdgePanned(sender:)` on the container view. Began freezes the layer (speed 0) and navigates:
   backward from the left edge, forward from the right edge when the data source supplied
   `nextFromDataSource`. Changed scrubs the time offset to the panned fraction, but only while an
   animation is attached. Ended, cancelled and failed abort the rotation when less than a quarter
   of the width was panned (removing the animation makes the platform report a failed stop), and
   then restore speed 1. The possible phase changes nothing.
   */
  function EdgePanned(c: Container, edge: ScreenEdge, phase: GesturePhase, translationX: real,
                      nextFromDataSource: Option<ChildId>): (r: Container)
    requires Inv(c)
    ensures Inv(r)
    ensures phase == Began ==> r.speed == 0.0
    ensures phase == Began ==>
      r == (if edge == LeftEdge then NavigateBackward(c.(speed := 0.0))
            else if nextFromDataSource.Some? then NavigateForward(c.(speed := 0.0), nextFromDataSource.value)
            else c.(speed := 0.0))
    ensures phase in {Ended, Cancelled, Failed} ==>
      && r.speed == 1.0
      && (r.animation == c.animation <==>
            c.animation.None? || PercentPanned(translationX, c.containerWidth) >= MinPercentRequired)
    ensures phase in {Ended, Cancelled, Failed} ==>
      r == (if c.animation.Some? && PercentPanned(translationX, c.containerWidth) < MinPercentRequired
            then AnimationDidStop(c, false) else c).(speed := 1.0)
    ensures phase == Changed ==>
      && r.(timeOffset := c.timeOffset) == c
      && r.timeOffset == (if c.animation.Some? then PercentPanned(translationX, c.containerWidth) else c.timeOffset)
    ensures phase == Possible ==> r == c
  {
    var percentPanned := PercentPanned(translationX, c.containerWidth);
    match phase
    case Began =>
      var frozen := c.(speed := 0.0);
      if edge == LeftEdge then NavigateBackward(frozen)
      else if nextFromDataSource.Some? then NavigateForward(frozen, nextFromDataSource.value)
      else frozen
    case Changed =>
      if c.animation.Some? then c.(timeOffset := percentPanned) else c
    case Ended | Cancelled | Failed =>
      var aborted :=
        if percentPanned < MinPercentRequired && c.animation.Some? then AnimationDidStop(c, false) else c;
      aborted.(speed := 1.0)
    case Possible => c
  }

  /**
   `applyCubeTransforms()`: child `i` gets the placement of the side with raw value `i`, computed
   from the root view's width. The capacity bound makes every index a real side, so the forced
   unwrap never traps.
   */
  function CubeTransformsApplied(c: Container): (r: Container)
    requires Inv(c)
    ensures Inv(r)
    ensures |r.children| == |c.children|
    ensures forall i :: 0 <= i < |c.children| ==>
      r.children[i].id == c.children[i].id && r.children[i].placement == ViewTransform(SideAt(i), c.viewWidth)
    ensures r.(children := c.children) == c
  {
    assert forall i :: 0 <= i < |c.children| ==> FromRawValue(i).value == SideAt(i) by {
      forall i | 0 <= i < |c.children| { RawValueAtPosition(i); }
    }
    c.(children := seq(|c.children|, i requires 0 <= i < |c.children| =>
         Child(c.children[i].id, ViewTransform(FromRawValue(i).value, c.viewWidth))))
  }
}
