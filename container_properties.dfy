/**
 Properties of the container's transitions: the forward and backward round trips, what a
 completed rotation leaves behind, the guard's consequences, whole edge-pan gestures, and a
 navigation scenario over all four faces.
 */
module ContainerProperties {
  import opened Wrappers
  import opened CubeSides
  import opened RotationAnimations
  import opened ContainerState

  /** Consecutive stack positions sit on consecutive faces. */
  lemma SideAtStep(n: nat)
    requires 0 < n < SideCount
    ensures SideAt(n) == NextSide(SideAt(n - 1))
    ensures SideAt(n - 1) == PrevSide(SideAt(n))
  {
    RawValueInjective(SideAt(n), NextSide(SideAt(n - 1)));
    NextPrevInverse(SideAt(n - 1));
  }

  /** From any state at rest, a forward navigation whose rotation fails restores the state exactly. */
  lemma ForwardThenFailureRestores(c: Container, vc: ChildId)
    requires Idle(c) && |c.children| < RawValue(Count)
    ensures NavigateForward(c, vc).animation.Some?
    ensures AnimationDidStop(NavigateForward(c, vc), false) == c
  {
    var f := NavigateForward(c, vc);
    var current := CurrentChild(c).id;
    assert f.children[..|f.children| - 1] == c.children;
    assert (c.disabled + {current}) - {current} == c.disabled;
  }

  /**
   From any state at rest, a backward navigation whose rotation fails restores the state exactly:
   nothing was removed.
   */
  lemma BackwardThenFailureRestores(c: Container)
    requires Idle(c) && |c.children| > 1
    ensures NavigateBackward(c).animation.Some?
    ensures AnimationDidStop(NavigateBackward(c), false) == c
  {
    NextDiffersFromPrev(c.currentSide);
    assert c.disabled - {CurrentChild(c).id} == c.disabled;
  }

  /**
   A forward navigation whose rotation succeeds keeps the new child: it is current, on the next
   face, interactive, and the state is settled again with the previous child non-interactive.
   */
  lemma ForwardThenSuccess(c: Container, vc: ChildId)
    requires Settled(c) && |c.children| < RawValue(Count) && IsNewChild(c, vc)
    ensures NavigateForward(c, vc).animation.Some?
    ensures var r := AnimationDidStop(NavigateForward(c, vc), true);
      && Settled(r)
      && r.children == c.children + [Child(vc, ViewTransform(NextSide(c.currentSide), c.containerWidth))]
      && r.currentSide == NextSide(c.currentSide)
      && r.sublayerTransform == PerspectiveTransform(NextSide(c.currentSide), c.containerWidth)
      && r.disabled == c.disabled + {CurrentChild(c).id}
  {
    var n := |c.children|;
    var f := NavigateForward(c, vc);
    var r := AnimationDidStop(f, true);
    SideAtStep(n);
    assert r.children == f.children;
    assert r.disabled == c.disabled + {CurrentChild(c).id};
    AppendedChildPlaced(c, r, vc);
  }

  /** A child appended at the next face's placement keeps every child on the face of its position. */
  lemma AppendedChildPlaced(c: Container, r: Container, vc: ChildId)
    requires Settled(c) && |c.children| < RawValue(Count)
    requires r.children == c.children + [Child(vc, ViewTransform(NextSide(c.currentSide), c.containerWidth))]
    requires r.viewWidth == c.viewWidth && r.containerWidth == c.containerWidth
    ensures forall i :: 0 <= i < |r.children| ==> PlacedOn(r, r.children[i], SideAt(i))
  {
    SideAtStep(|c.children|);
    forall i | 0 <= i < |r.children| ensures PlacedOn(r, r.children[i], SideAt(i)) {
      if i < |c.children| {
        assert r.children[i] == c.children[i];
      }
    }
  }

  /**
   A backward navigation whose rotation succeeds pops the current child: the previous child is
   current, on the previous face, interactive again, and the state is settled.
   */
  lemma BackwardThenSuccess(c: Container)
    requires Settled(c) && |c.children| > 1
    ensures NavigateBackward(c).animation.Some?
    ensures var r := AnimationDidStop(NavigateBackward(c), true);
      && Settled(r)
      && r.children == c.children[..|c.children| - 1]
      && r.currentSide == PrevSide(c.currentSide)
      && r.sublayerTransform == PerspectiveTransform(PrevSide(c.currentSide), c.containerWidth)
      && r.disabled == c.disabled - {c.children[|c.children| - 2].id}
  {
    var n := |c.children|;
    var b := NavigateBackward(c);
    assert b == c.(completion := Some(RemoveCurrentChild),
                   animation := Some(MakeRotationAnimation(c.currentSide, PrevSide(c.currentSide), c.containerWidth)));
    var r := AnimationDidStop(b, true);
    SideAtStep(n - 1);
    assert CurrentChild(r) == c.children[n - 2];
    assert r == c.(children := c.children[..n - 1], currentSide := PrevSide(c.currentSide),
                   sublayerTransform := r.sublayerTransform, disabled := c.disabled - {c.children[n - 2].id});
    PoppedChildSettled(c, r.sublayerTransform);
  }

  /** Popping the current child of a settled state and turning back one face settles again. */
  lemma PoppedChildSettled(c: Container, perspective: Transform)
    requires Settled(c) && |c.children| > 1
    ensures var n := |c.children|;
      Settled(c.(children := c.children[..n - 1], currentSide := PrevSide(c.currentSide),
                 sublayerTransform := perspective, disabled := c.disabled - {c.children[n - 2].id}))
  {
    var n := |c.children|;
    var r := c.(children := c.children[..n - 1], currentSide := PrevSide(c.currentSide),
                sublayerTransform := perspective, disabled := c.disabled - {c.children[n - 2].id});
    SideAtStep(n - 1);
    forall i | 0 <= i < |r.children| - 1 ensures r.children[i].id in r.disabled {
      assert r.children[i] == c.children[i];
    }
  }

  /**
   The completion action installed by a backward request that the guard rejected survives: when
   the forward rotation it was rejected behind succeeds, it removes the child that forward step
   added, so the cube turns to the next face while the stack returns to what it was. The result is
   at rest but not settled: the current side is no longer the last child's face.
   */
  lemma RejectedBackwardPopsForwardChild(c: Container, vc: ChildId)
    requires Settled(c) && |c.children| < RawValue(Count)
    ensures NavigateBackward(NavigateForward(c, vc)).animation.Some?
    ensures var r := AnimationDidStop(NavigateBackward(NavigateForward(c, vc)), true);
      && r.children == c.children && r.currentSide == NextSide(c.currentSide)
      && Idle(r) && !Settled(r)
  {
    var f := NavigateForward(c, vc);
    assert f.children[..|f.children| - 1] == c.children;
    NextDiffersFromPrev(c.currentSide);
  }

  /**
   A forward request rejected behind another forward rotation appends a second child; when the
   first rotation fails, only the last child is removed, so the first one stays on the stack. The
   result is at rest but not settled: that child is not on the face of the current side.
   */
  lemma RejectedForwardChildLeavesOneBehind(c: Container, a: ChildId, b: ChildId)
    requires Settled(c) && |c.children| + 1 < RawValue(Count)
    ensures NavigateForward(NavigateForward(c, a), b).animation.Some?
    ensures var r := AnimationDidStop(NavigateForward(NavigateForward(c, a), b), false);
      r.children == c.children + [Child(a, ViewTransform(NextSide(c.currentSide), c.containerWidth))]
      && r.currentSide == c.currentSide
      && Idle(r) && !Settled(r)
  {
    var f := NavigateForward(c, a);
    var g := NavigateForward(f, b);
    assert g.children[..|g.children| - 1] == f.children;
    NextDiffersFromPrev(c.currentSide);
    SideAtStep(|c.children|);
  }

  /** The layer's speed and time offset play no part in being settled. */
  lemma SettledIgnoresTiming(c: Container, speed: real, timeOffset: real)
    requires Settled(c)
    ensures Settled(c.(speed := speed, timeOffset := timeOffset))
  {
    var t := c.(speed := speed, timeOffset := timeOffset);
    assert t.children == c.children && t.disabled == c.disabled;
  }

  /** Forward navigation neither reads nor writes the layer's speed and time offset. */
  lemma ForwardIgnoresTiming(c: Container, speed: real, timeOffset: real, vc: ChildId)
    requires Inv(c)
    ensures NavigateForward(c.(speed := speed, timeOffset := timeOffset), vc)
         == NavigateForward(c, vc).(speed := speed, timeOffset := timeOffset)
  {
    var t := c.(speed := speed, timeOffset := timeOffset);
    if |c.children| < RawValue(Count) {
      assert CurrentChild(t) == CurrentChild(c);
      var added := c.(disabled := c.disabled + {CurrentChild(c).id},
                      children := c.children + [Child(vc, ViewTransform(NextSide(c.currentSide), c.containerWidth))]);
      assert NavigateForward(c, vc) == PerformRotation(added, c.currentSide, NextSide(c.currentSide));
    }
  }

  /** Resolving a stop neither reads nor writes the layer's speed and time offset. */
  lemma StopIgnoresTiming(c: Container, speed: real, timeOffset: real, successful: bool)
    requires Inv(c) && c.animation.Some?
    ensures Inv(c.(speed := speed, timeOffset := timeOffset))
    ensures AnimationDidStop(c.(speed := speed, timeOffset := timeOffset), successful)
         == AnimationDidStop(c, successful).(speed := speed, timeOffset := timeOffset)
  {
    StopResolvedIgnoresTiming(c, speed, timeOffset, successful);
    var r := StopResolved(c, successful);
    var rt := StopResolved(c.(speed := speed, timeOffset := timeOffset), successful);
    assert CurrentChild(rt) == CurrentChild(r);
  }

  /** The outcome-dependent part of a stop neither reads nor writes the speed and time offset. */
  lemma StopResolvedIgnoresTiming(c: Container, speed: real, timeOffset: real, successful: bool)
    requires Inv(c) && c.animation.Some?
    ensures Inv(c.(speed := speed, timeOffset := timeOffset))
    ensures StopResolved(c.(speed := speed, timeOffset := timeOffset), successful)
         == StopResolved(c, successful).(speed := speed, timeOffset := timeOffset)
  {
    var t := c.(speed := speed, timeOffset := timeOffset);
    if !successful && NextSide(c.currentSide) == TargetSide(c.animation.value) {
      assert StopResolved(t, successful) == DropCurrentChild(t);
    }
  }

  /**
   A whole right-edge pan that is released below a quarter of the width: the forward step is
   undone and the state is as before, except that the layer runs at speed 1 and keeps the last
   scrubbed time offset.
   */
  lemma ForwardPanAbortRestores(c: Container, vc: ChildId, began: real, moved: real, released: real,
                                release: GesturePhase)
    requires Idle(c) && |c.children| < RawValue(Count)
    requires release in {Ended, Cancelled, Failed}
    requires PercentPanned(released, c.containerWidth) < MinPercentRequired
    ensures var s1 := EdgePanned(c, RightEdge, Began, began, Some(vc));
      var s2 := EdgePanned(s1, RightEdge, Changed, moved, None);
      EdgePanned(s2, RightEdge, release, released, None)
        == c.(speed := 1.0, timeOffset := PercentPanned(moved, c.containerWidth))
  {
    var offset := PercentPanned(moved, c.containerWidth);
    var f := NavigateForward(c, vc);
    ForwardThenFailureRestores(c, vc);
    ForwardIgnoresTiming(c, 0.0, c.timeOffset, vc);
    var s1 := EdgePanned(c, RightEdge, Began, began, Some(vc));
    assert s1 == f.(speed := 0.0);
    var s2 := EdgePanned(s1, RightEdge, Changed, moved, None);
    assert s2 == f.(speed := 0.0, timeOffset := offset);
    StopIgnoresTiming(f, 0.0, offset, false);
  }

  /**
   A whole right-edge pan released at a quarter of the width or more keeps the rotation attached;
   when it then completes, the new child is current on the next face and the state is settled.
   */
  lemma ForwardPanCommitCompletes(c: Container, vc: ChildId, began: real, released: real,
                                  release: GesturePhase)
    requires Settled(c) && |c.children| < RawValue(Count) && IsNewChild(c, vc)
    requires release in {Ended, Cancelled, Failed}
    requires PercentPanned(released, c.containerWidth) >= MinPercentRequired
    ensures var s2 := EdgePanned(EdgePanned(c, RightEdge, Began, began, Some(vc)), RightEdge, release, released, None);
      && s2.animation.Some? && s2.speed == 1.0
      && var r := AnimationDidStop(s2, true);
         Settled(r) && r.currentSide == NextSide(c.currentSide) && CurrentChild(r).id == vc
  {
    var f := NavigateForward(c, vc);
    ForwardThenSuccess(c, vc);
    ForwardIgnoresTiming(c, 0.0, c.timeOffset, vc);
    var s1 := EdgePanned(c, RightEdge, Began, began, Some(vc));
    assert s1 == f.(speed := 0.0);
    var s2 := EdgePanned(s1, RightEdge, release, released, None);
    assert s2 == f.(speed := 1.0);
    StopIgnoresTiming(f, 1.0, c.timeOffset, true);
    SettledIgnoresTiming(AnimationDidStop(f, true), 1.0, c.timeOffset);
  }

  /**
   A whole left-edge pan with a child behind the current one, released below a quarter of the
   width: the backward step is undone and nothing is removed; the layer runs at speed 1 and keeps
   the last scrubbed time offset.
   */
  lemma BackwardPanAbortRestores(c: Container, began: real, moved: real, released: real,
                                 release: GesturePhase)
    requires Idle(c) && |c.children| > 1
    requires release in {Ended, Cancelled, Failed}
    requires PercentPanned(released, c.containerWidth) < MinPercentRequired
    ensures var s1 := EdgePanned(c, LeftEdge, Began, began, None);
      var s2 := EdgePanned(s1, LeftEdge, Changed, moved, None);
      EdgePanned(s2, LeftEdge, release, released, None)
        == c.(speed := 1.0, timeOffset := PercentPanned(moved, c.containerWidth))
  {
    var offset := PercentPanned(moved, c.containerWidth);
    var b := c.(completion := Some(RemoveCurrentChild),
                animation := Some(MakeRotationAnimation(c.currentSide, PrevSide(c.currentSide), c.containerWidth)));
    var s1 := EdgePanned(c, LeftEdge, Began, began, None);
    assert s1 == b.(speed := 0.0);
    var s2 := EdgePanned(s1, LeftEdge, Changed, moved, None);
    assert s2 == b.(speed := 0.0, timeOffset := offset);
    NextDiffersFromPrev(c.currentSide);
    assert c.disabled - {CurrentChild(c).id} == c.disabled;
    assert AnimationDidStop(s2, false) == c.(speed := 0.0, timeOffset := offset);
  }

  /**
   A left-edge pan on the root alone starts nothing: scrubbing is skipped and the release only
   restores speed 1.
   */
  lemma BackwardPanOnRootChangesOnlySpeed(c: Container, began: real, moved: real, released: real,
                                          release: GesturePhase)
    requires Settled(c) && |c.children| == 1
    requires release in {Ended, Cancelled, Failed}
    ensures var s1 := EdgePanned(c, LeftEdge, Began, began, None);
      var s2 := EdgePanned(s1, LeftEdge, Changed, moved, None);
      EdgePanned(s2, LeftEdge, release, released, None) == c.(speed := 1.0)
  {
  }

  /** Re-applying the placement transforms keeps a settled state settled. */
  lemma CubeTransformsKeepSettled(c: Container)
    requires Settled(c)
    ensures Settled(CubeTransformsApplied(c))
  {
    var r := CubeTransformsApplied(c);
    forall i | 0 <= i < |r.children| - 1 ensures r.children[i].id in r.disabled {
      assert r.children[i].id == c.children[i].id;
    }
    assert CurrentChild(r).id == CurrentChild(c).id;
  }

  /**
   Starting from the root alone, three completed forward navigations visit the right, back and left
   faces; a fourth forward request is refused by the capacity bound; a completed backward
   navigation then returns to the back face and drops the last child.
   */
  lemma FourFaceScenario(a: ChildId, b: ChildId, c: ChildId, d: ChildId, e: ChildId, width: real)
    requires b != a && c != a && c != b && d != a && d != b && d != c
    ensures var s0 := Initial(a, width, width);
      var s1 := AnimationDidStop(NavigateForward(s0, b), true);
      var s2 := AnimationDidStop(NavigateForward(s1, c), true);
      var s3 := AnimationDidStop(NavigateForward(s2, d), true);
      && s1.currentSide == Right && s2.currentSide == Back && s3.currentSide == Left
      && |s3.children| == 4 && CurrentChild(s3).id == d
      && NavigateForward(s3, e) == s3
      && var s4 := AnimationDidStop(NavigateBackward(s3), true);
         s4.currentSide == Back && s4.children == s3.children[..3] && CurrentChild(s4).id == c
  {
    var s0 := Initial(a, width, width);
    ForwardThenSuccess(s0, b);
    var s1 := AnimationDidStop(NavigateForward(s0, b), true);
    ForwardThenSuccess(s1, c);
    var s2 := AnimationDidStop(NavigateForward(s1, c), true);
    ForwardThenSuccess(s2, d);
    var s3 := AnimationDidStop(NavigateForward(s2, d), true);
    BackwardThenSuccess(s3);
  }
}
