# CubeContainer rotation model

A Dafny model of the core of CubeContainerViewController-iOS: a container view controller that
shows its child view controllers on the faces of a rotating 3D cube. The model covers

- the `CubeSide` enumeration: four faces plus the `count` sentinel, raw values, the modulo
  initialiser `init(index:)` (with Swift's truncating `%` and the trap of its forced unwrap),
  the cyclic `nextSide()` / `prevSide()`, and the per-face placement (`viewTransform(in:)`) and
  camera (`perspectiveTransform(in:)`) transforms, kept symbolic as sequences of steps
  (set m34, translate, rotate about y in quarter turns, scale);
- the keyframe animation built by `makeRotationAnimation(from:to:)`, as a record;
- the rotation state machine of `CubeContainerViewController`: the child stack (at most four),
  the current side, the "remove the current child" completion action, the rotation animation
  attached under the rotation key, the per-child user-interaction flags, and the container
  layer's speed, time offset and sublayer transform.

Module `ContainerState` gives each transition as a function on a `Container` value, together with
the invariant `Inv` of every reachable state (one to four children, a real current side, a
completion action only while an animation is attached, and an attached animation that starts at
the current side and targets a neighbour). Two predicates describe states at rest. `Idle` holds of
every state a stop leaves behind: no animation, no completion action, the current child
interactive. `Settled` holds of a state at rest reached by completed rotations that no rejected
request overlapped: child `i` on face `i`, current side the last child's face, every child but
the last non-interactive. The rest states that the two guard quirks reach
(`RejectedBackwardPopsForwardChild`, `RejectedForwardChildLeavesOneBehind`) are idle but not
settled. Module `Controller` holds the class `CubeContainerViewController`,
whose fields are the Swift class's `dataSource`, `currentSide` and completion block, plus the
UIKit state its methods read and write: the child list, the container layer's animation, speed,
time offset and sublayer transform, the children's interaction flags and the two widths. Its
methods update these fields in place. The postcondition of each navigation, pan, stop, guard,
child-removal and re-placement method says its new state is the matching `ContainerState`
transition of the old one, so the lemmas of `ContainerProperties` hold of the object; `AddChild`
and `RemoveRotationAnimation` state their new state as a direct update of the fields.

Modelling choices:

- `currentViewController()` is called but not defined in `CubeContainerViewController.swift` or
  its `UIViewController` extension; it is taken to be the last child.
- Child view controllers are natural-number identities. `addChildViewController` appends
  `(child, transform)`; `removeFromParent()` drops the last child. A controller already on the
  stack is appended again (see "## Left out").
- User-interaction flags are the set `disabled` of children whose views the controller turned
  off; a view the controller never touched is taken to have UIKit's default, interactive.
- The data source is a field holding a function from the current child to an optional next one.
- The platform's stop notification is the explicit event `AnimationDidStop(successful)`, taken
  for the attached animation. Releasing a pan below a quarter of the width removes the animation,
  which the platform reports as an unfinished stop; the model delivers that failed stop at once.
- Widths are parameters (`viewWidth` for the root view, `containerWidth` for the container).
  `perspectiveTransform()` is called without a view in the controller; the model passes the
  container's width.
- The panned fraction follows Swift's `min`/`max` for a zero width: a zero translation divides to
  NaN, which `max` replaces by 0; any other translation divides to an infinity, clamped to 0.999.

In the code, forward navigation appends its child before the in-progress guard runs, backward
navigation installs its completion action before the guard runs, and a pan is released on
distance alone with a 0.25 cutoff.

## Model

| member | source | states |
|---|---|---|
| CubeSides.RawValue | CubeContainer/Source/CubeSide.swift:11-16 | raw values 0 to 4, and only the sentinel has raw value 4 |
| CubeSides.FromRawValue | CubeContainer/Source/CubeSide.swift:20 | the failable raw-value initialiser succeeds exactly on 0 to 4 and gives the side with that raw value |
| CubeSides.RawValueRoundTrip | CubeContainer/Source/CubeSide.swift:11-16 | decoding a side's raw value gives the side back |
| CubeSides.SwiftRemainder | CubeContainer/Source/CubeSide.swift:19 | Swift's remainder lies strictly between -n and n and agrees with the mathematical one for non-negative dividends |
| CubeSides.FromIndex | CubeContainer/Source/CubeSide.swift:18-21 | `init(index:)` never yields the sentinel; for index >= 0 it yields the side with raw value index mod 4; it traps exactly when the index is negative and not a multiple of 4 |
| CubeSides.SideAt | CubeContainer/Source/CubeSide.swift:18-21 | stack position i maps to the real side with raw value i mod 4 |
| CubeSides.NextSide | CubeContainer/Source/CubeSide.swift:23-31 | the successor adds one to the raw value modulo 4 (front, right, back, left, front); the sentinel maps to front |
| CubeSides.PrevSide | CubeContainer/Source/CubeSide.swift:33-41 | the predecessor subtracts one from the raw value modulo 4; the sentinel maps to front |
| CubeSides.NextPrevInverse | CubeContainer/Source/CubeSide.swift:23-41 | `prevSide` is the two-sided inverse of `nextSide` on the four real sides |
| CubeSides.NextDiffersFromPrev | CubeContainer/Source/CubeSide.swift:23-41 | from a real side, next differs from prev and neither equals the side (the direction test of the stop handler relies on this) |
| CubeSides.NextSideIteratedIsModular | CubeContainer/Source/CubeSide.swift:18-31 | n successor steps from a real side give `init(index:)` of its raw value plus n |
| CubeSides.NextSidePeriod | CubeContainer/Source/CubeSide.swift:23-31 | any multiple of four successor steps returns to the starting side |
| CubeSides.PrevSideIteratedUndone | CubeContainer/Source/CubeSide.swift:23-41 | n predecessor steps followed by n successor steps return to the start |
| CubeSides.Scaled | CubeContainer/Source/CubeContainerViewController.swift:257 | scaling keeps the original transform and appends one uniform scale step, so the total rotation about the vertical axis is unchanged |
| CubeSides.ViewTransform | CubeContainer/Source/CubeSide.swift:46-71 | each real face is translated by half the width along the direction it faces and turned by quarter turns congruent to its raw value mod 4 (front 0, right +1, back +2, left -1); the sentinel gets the identity; a zero width gives no displacement |
| CubeSides.PerspectiveTransform | CubeContainer/Source/CubeSide.swift:76-100 | always m34 = -1/500 then a camera translation of -width/2 in z, then only y rotations, whose total cancels the face's placement rotation exactly (front 0, right -1, left +1, back -2) |
| RotationAnimations.MakeRotationAnimation | CubeContainer/Source/CubeContainerViewController.swift:254-289 | keyframes are P(from), P(from) scaled 0.55, P(to) scaled 0.55, P(to); four values; four timing curves (ease-in, ease-in-out twice, ease-out); key times 0, 0.15, 0.65, 1, strictly increasing; duration 1.0; kept on the layer with fill forwards; the metadata decodes to `to` |
| RotationAnimations.ShrunkKeyframesKeepRotation | CubeContainer/Source/CubeContainerViewController.swift:254-262 | the two scaled middle keyframes keep the rotation of the perspectives they shrink |
| RotationAnimations.TargetSide | CubeContainer/Source/CubeContainerViewController.swift:322 | the side decoded from the animation's metadata has exactly the stored raw value |
| ContainerState.Initial | CubeContainer/Source/CubeContainerViewController.swift:71-85 | after loading, the root child alone sits on the front face, interactive, at rest |
| ContainerState.DropCurrentChild | CubeContainer/Source/CubeContainerViewController.swift:150-152 | removing the current child undoes an append of it: the result followed by the old current child is the old stack, and no other field changes |
| ContainerState.PerformRotation | CubeContainer/Source/CubeContainerViewController.swift:228-244 | with an animation already attached nothing changes; otherwise the new rotation is attached; afterwards exactly one animation is attached |
| ContainerState.NavigateForward | CubeContainer/Source/CubeContainerViewController.swift:133-141 | below four children: disables the current child, appends the new one at the next face's placement, requests a rotation to the next face (kept out by an attached animation, but the append stays); at four children no change; nothing else (side, completion action, layer speed, time offset, sublayer transform, widths) changes; the invariant, including the capacity bound, is preserved |
| ContainerState.NavigateBackward | CubeContainer/Source/CubeContainerViewController.swift:146-156 | with one child no change; otherwise installs the remove-current completion action even if the guard then keeps the rotation out, and requests a rotation to the previous face; no other field changes; the invariant is preserved |
| ContainerState.AnimationDidStop | CubeContainer/Source/CubeContainerViewController.swift:321-350 | success moves the current side to the target and sets the target's perspective, and the stack loses its last child exactly when a completion action is pending; failure keeps the side, and the stack loses its last child exactly when the target is the next side; in every outcome the new current child becomes interactive while every other child's flag stays, the completion action is cleared and no animation remains; a failed stop keeps the sublayer transform; speed, time offset and widths never change; the invariant is preserved |
| ContainerState.SwiftMin | CubeContainer/Source/CubeContainerViewController.swift:183 | Swift's `min` gives one of its arguments, at most both |
| ContainerState.SwiftMax | CubeContainer/Source/CubeContainerViewController.swift:183 | Swift's `max` gives one of its arguments, at least both |
| ContainerState.PercentPanned | CubeContainer/Source/CubeContainerViewController.swift:173-183 | the panned fraction always lies in [0, 0.999]; it is the ratio |translation / width| below the cap and 0.999 at or above it |
| ContainerState.EdgePanned | CubeContainer/Source/CubeContainerViewController.swift:171-215 | began sets speed 0 and then navigates backward from the left edge, forward from the right edge when the data source answered, and otherwise does nothing more; changed alters only the time offset, and only while an animation is attached; on release below 0.25 with an animation attached the failed stop is resolved, otherwise nothing changes, and then speed becomes 1; the possible phase changes nothing |
| ContainerState.CubeTransformsApplied | CubeContainer/Source/CubeContainerViewController.swift:111-116 | child i gets the placement of the side with raw value i (never failing, by the capacity bound); identities and all other state are unchanged |
| ContainerProperties.SideAtStep | CubeContainer/Source/CubeContainerViewController.swift:112-114 | consecutive stack positions sit on consecutive faces, in both directions |
| ContainerProperties.ForwardThenFailureRestores | CubeContainer/Source/CubeContainerViewController.swift:334-342 | from any idle state below four children (every state a stop leaves behind), forward navigation to a controller not already on the stack followed by a failed stop restores the state exactly |
| ContainerProperties.BackwardThenFailureRestores | CubeContainer/Source/CubeContainerViewController.swift:334-348 | from any idle state with more than one child, backward navigation followed by a failed stop restores the state exactly |
| ContainerProperties.ForwardThenSuccess | CubeContainer/Source/CubeContainerViewController.swift:324-333 | a completed forward step keeps the new child, at the next face, as the current side and perspective; the previous child becomes non-interactive; the state is settled again |
| ContainerProperties.BackwardThenSuccess | CubeContainer/Source/CubeContainerViewController.swift:324-333 | a completed backward step pops the last child; the previous side and perspective become current; the new current child is interactive again; the state is settled again |
| ContainerProperties.RejectedBackwardPopsForwardChild | CubeContainer/Source/CubeContainerViewController.swift:150-154 | for a forward step to a controller not already on the stack, a backward request rejected during that rotation leaves its completion action, which pops the forward child when that rotation succeeds, while the side still turns forward; the result is idle but not settled |
| ContainerProperties.RejectedForwardChildLeavesOneBehind | CubeContainer/Source/CubeContainerViewController.swift:136-139 | for controllers not already on the stack, a forward request rejected during a forward rotation still appends; the failed stop then removes only the last child, leaving the first forward child on the stack; the result is idle but not settled |
| ContainerProperties.SettledIgnoresTiming | CubeContainer/Source/CubeContainerViewController.swift:188 | the layer's speed and time offset play no part in a settled state |
| ContainerProperties.ForwardIgnoresTiming | CubeContainer/Source/CubeContainerViewController.swift:133-141 | forward navigation neither reads nor writes the layer's speed and time offset |
| ContainerProperties.StopIgnoresTiming | CubeContainer/Source/CubeContainerViewController.swift:321-350 | resolving a stop neither reads nor writes the layer's speed and time offset |
| ContainerProperties.ForwardPanAbortRestores | CubeContainer/Source/CubeContainerViewController.swift:204-211 | a right-edge pan to a controller not already on the stack, released (ended, cancelled or failed) below 0.25, restores the idle state it started from, except speed 1 and the last scrubbed time offset |
| ContainerProperties.ForwardPanCommitCompletes | CubeContainer/Source/CubeContainerViewController.swift:186-211 | a right-edge pan released at 0.25 or more keeps the rotation, at speed 1; its completion settles on the next face with the new child current |
| ContainerProperties.BackwardPanAbortRestores | CubeContainer/Source/CubeContainerViewController.swift:186-211 | a left-edge pan with a child behind the current one, released below 0.25, removes nothing and restores the idle state it started from, except speed 1 and the last scrubbed time offset |
| ContainerProperties.BackwardPanOnRootChangesOnlySpeed | CubeContainer/Source/CubeContainerViewController.swift:190-211 | a left-edge pan with only the root child starts no rotation, skips scrubbing, and ends with only the speed reset to 1 |
| ContainerProperties.CubeTransformsKeepSettled | CubeContainer/Source/CubeContainerViewController.swift:111-116 | re-applying the placements keeps a settled state settled |
| ContainerProperties.FourFaceScenario | CubeContainer/Source/CubeContainerViewController.swift:133-156 | from the root, three completed forward steps visit right, back, left; a fourth forward request is refused at four children; a completed backward step returns to back and drops the last child |
| Controller.CubeContainerViewController.constructor | CubeContainer/Source/CubeContainerViewController.swift:52-79 | the new object holds the initial state, with no data source |
| Controller.CubeContainerViewController.CurrentViewController | CubeContainer/Source/CubeContainerViewController.swift:137 | returns the last child |
| Controller.CubeContainerViewController.DataSourceAnswer | CubeContainer/Source/CubeContainerViewController.swift:193 | without a data source there is no answer; with one, the answer is the data source's for the current child |
| Controller.CubeContainerViewController.AddChild | CubeContainer/Source/UIViewController+Utils.swift:13-18 | appends the child with its layer transform and changes nothing else |
| Controller.CubeContainerViewController.RemoveCurrentViewController | CubeContainer/Source/CubeContainerViewController.swift:341 | drops the last child and changes nothing else |
| Controller.CubeContainerViewController.NavigateToViewController | CubeContainer/Source/CubeContainerViewController.swift:133-141 | the new state is `NavigateForward` of the old; the invariant is kept |
| Controller.CubeContainerViewController.NavigateToPreviousViewController | CubeContainer/Source/CubeContainerViewController.swift:146-156 | the new state is `NavigateBackward` of the old; the invariant is kept |
| Controller.CubeContainerViewController.OnEdgePanned | CubeContainer/Source/CubeContainerViewController.swift:171-215 | the new state is `EdgePanned` of the old, with the data source's answer for the current child; the invariant is kept |
| Controller.CubeContainerViewController.PerformRotationAnimation | CubeContainer/Source/CubeContainerViewController.swift:228-244 | the new state is `PerformRotation` of the old |
| Controller.CubeContainerViewController.IsRotationAnimationInProgress | CubeContainer/Source/CubeContainerViewController.swift:247-249 | true exactly when an animation is attached |
| Controller.CubeContainerViewController.RemoveRotationAnimation | CubeContainer/Source/CubeContainerViewController.swift:291-293 | detaches the animation and changes nothing else |
| Controller.CubeContainerViewController.ApplyCubeTransforms | CubeContainer/Source/CubeContainerViewController.swift:111-116 | the indexed loop leaves the state `CubeTransformsApplied` gives |
| Controller.CubeContainerViewController.AnimationDidStop | CubeContainer/Source/CubeContainerViewController.swift:321-350 | the new state is `ContainerState.AnimationDidStop` of the old; the invariant is kept |
| Controller.CubeContainerViewController.ResolveStop | CubeContainer/Source/CubeContainerViewController.swift:322-343 | the outcome-dependent branch: the new state is `ContainerState.StopResolved` of the old, and only the side, the sublayer transform and the child list may change |

## Left out

- Floating-point `CATransform3D` arithmetic: `.pi` rotations, `CATransform3DScale` and the m34
  coefficient are symbolic steps and reals; matrix products are not computed.
- `CATransaction` begin and commit, and its completion block that resets the layer's time offset
  to 0 when the transaction's animations finish: Core Animation machinery. The model's time offset
  therefore keeps its last scrubbed value.
- `beginTime = CACurrentMediaTime()` on release: a clock reading.
- The shapes of the `CAMediaTimingFunction` curves: only their names are kept.
- Asynchronous delivery of the stop notification: delivery is the explicit event
  `AnimationDidStop`; after a gesture abort it is delivered at once, so the window in which the
  animation is detached but its failed stop not yet delivered is not modelled.
- The animation delegate assignment and the `NSValue` boxing of keyframe values.
- Gesture-recognizer creation (`addGestureRecognizers`), layout in `viewDidLoad`, the
  `centerSubview` constraints in `CubeContainer/Source/UIView+Layout.swift`,
  `traitCollectionDidChange`, and `init?(coder:)`: UIKit lifecycle and layout code. The camera
  perspective that `applyCameraPerspective` sets (m34 = -1/50000) is kept only as the initial
  sublayer transform.
- The view hierarchy: `removeFromParent()` takes a child off the stack but does not remove its
  view from the container view, and view membership is not modelled.
- Floating-point rounding of the panned fraction, the layer speed and the time offset: Swift
  computes them as `Double`/`CGFloat`, the model as exact reals, so a quotient whose rounding
  crosses the 0.25 cutoff can commit or abort differently from the exact value.
- Layout changes of the widths: the two widths are fixed when the object is created.
- A data source with side effects: the data source is a pure function of the current child.
- Controller.CubeContainerViewController.AddChild: a controller already on the stack: UIKit does
  not list a child twice (`addChild(_:)` first takes it out of its current parent), while the model
  appends a second entry. Claims about the child stack hold of the program only for controllers
  not already on the stack.
- ContainerState.NavigateForward: a controller already on the stack: UIKit does not list it twice;
  the model appends a second entry, so a later `removeFromParent()` of the last entry does not
  match what UIKit would leave behind.
- `Demo/Demo/AppDelegate.swift`: demo code that targets a different revision of the controller.
