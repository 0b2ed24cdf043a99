/**
 The container view controller as an object whose methods update its fields in place. Each
 method's new state is the corresponding transition of module ContainerState applied to the old
 state, so every property proved there holds of the object.
 */
module Controller {
  import opened Wrappers
  import opened CubeSides
  import opened RotationAnimations
  import opened ContainerState

  class CubeContainerViewController {
    /** Supplies the controller that follows a given one; `None` when no data source is set. */
    var dataSource: Option<ChildId -> Option<ChildId>>
    var children: seq<Child>
    var currentSide: CubeSide
    var completion: Option<Completion>
    /** The animation attached to the container layer under the rotation key. */
    var animation: Option<RotationAnimation>
    /** Children whose views have user interaction turned off. */
    var disabled: set<ChildId>
    var speed: real
    var timeOffset: real
    var sublayerTransform: Transform
    const viewWidth: real
    const containerWidth: real

    /** The rotation state held in the fields. */
    function Model(): Container
      reads this
    {
      Container(children, currentSide, completion, animation, disabled, speed, timeOffset,
                sublayerTransform, viewWidth, containerWidth)
    }

    ghost predicate Valid()
      reads this
    {
      Inv(Model())
    }

    /** `init(viewController:)` followed by `viewDidLoad()`: the root child alone, on the front face. */
    constructor (root: ChildId, viewWidth: real, containerWidth: real)
      ensures Valid()
      ensures Model() == Initial(root, viewWidth, containerWidth) && dataSource == None
    {
      this.viewWidth := viewWidth;
      this.containerWidth := containerWidth;
      dataSource := None;
      currentSide := Front;
      completion := None;
      animation := None;
      disabled := {};
      speed := 1.0;
      timeOffset := 0.0;
      sublayerTransform := CameraPerspective;
      children := [Child(root, ViewTransform(Front, viewWidth))];
    }

    /** `currentViewController()`: the last child. */
    method CurrentViewController() returns (id: ChildId)
      requires children != []
      ensures id == CurrentChild(Model()).id
    {
      id := children[|children| - 1].id;
    }

    /** What the data source answers for the current child. */
    function DataSourceAnswer(): (r: Option<ChildId>)
      reads this
      requires children != []
      ensures dataSource.None? ==> r.None?
      ensures dataSource.Some? ==> r == dataSource.value(CurrentChild(Model()).id)
    {
      if dataSource.Some? then dataSource.value(children[|children| - 1].id) else None
    }

    /** `addChildViewController(_:superview:transform:)`: appends the child with its layer transform. */
    method AddChild(vc: ChildId, transform: Transform)
      modifies this`children
      ensures Model() == old(Model()).(children := old(children) + [Child(vc, transform)])
      ensures dataSource == old(dataSource)
    {
      children := children + [Child(vc, transform)];
    }

    /** `removeFromParent()` on the current child. */
    method RemoveCurrentViewController()
      requires children != []
      modifies this`children
      ensures Model() == DropCurrentChild(old(Model()))
      ensures dataSource == old(dataSource)
    {
      children := children[..|children| - 1];
    }

    method NavigateToViewController(vc: ChildId)
      requires Valid()
      modifies this
      ensures Valid()
      ensures Model() == NavigateForward(old(Model()), vc)
      ensures dataSource == old(dataSource)
    {
      var canAddMoreChildren := |children| < RawValue(Count);
      if canAddMoreChildren {
        var current := CurrentViewController();
        disabled := disabled + {current};
        AddChild(vc, ViewTransform(NextSide(currentSide), containerWidth));
        PerformRotationAnimation(currentSide, NextSide(currentSide));
      }
    }

    method NavigateToPreviousViewController()
      requires Valid()
      modifies this
      ensures Valid()
      ensures Model() == NavigateBackward(old(Model()))
      ensures dataSource == old(dataSource)
    {
      var hasPreviousChildren := |children| > 1;
      if hasPreviousChildren {
        completion := Some(RemoveCurrentChild);
        PerformRotationAnimation(currentSide, PrevSide(currentSide));
      }
    }

    method OnEdgePanned(edge: ScreenEdge, phase: GesturePhase, translationX: real)
      requires Valid()
      modifies this
      ensures Valid()
      ensures Model() == EdgePanned(old(Model()), edge, phase, translationX, old(DataSourceAnswer()))
      ensures dataSource == old(dataSource)
    {
      ghost var before := Model();
      ghost var answer := DataSourceAnswer();
      var percentPanned := PercentPanned(translationX, containerWidth);
      match phase
      case Began =>
        speed := 0.0;
        assert Model() == before.(speed := 0.0);
        if edge == LeftEdge {
          NavigateToPreviousViewController();
          assert Model() == NavigateBackward(before.(speed := 0.0));
        } else if dataSource.Some? {
          var current := CurrentViewController();
          var nextVc := dataSource.value(current);
          assert nextVc == answer;
          if nextVc.Some? {
            NavigateToViewController(nextVc.value);
            assert Model() == NavigateForward(before.(speed := 0.0), answer.value);
          }
        } else {
          assert answer.None?;
        }
        assert Model() == EdgePanned(before, edge, phase, translationX, answer);
      case Changed =>
        var inProgress := IsRotationAnimationInProgress();
        if inProgress {
          timeOffset := percentPanned;
        }
      case Ended | Cancelled | Failed =>
        if percentPanned < MinPercentRequired {
          // Removing the attached animation makes the platform report it as stopped unfinished.
          var inProgress := IsRotationAnimationInProgress();
          if inProgress {
            AnimationDidStop(false);
          }
        }
        ghost var aborted := Model();
        assert aborted == (if before.animation.Some? && percentPanned < MinPercentRequired
                           then ContainerState.AnimationDidStop(before, false) else before);
        speed := 1.0;
        assert Model() == aborted.(speed := 1.0);
        assert Model() == EdgePanned(before, edge, phase, translationX, answer);
      case Possible =>
    }

    method PerformRotationAnimation(from: CubeSide, to: CubeSide)
      modifies this
      ensures Model() == PerformRotation(old(Model()), from, to)
      ensures dataSource == old(dataSource)
    {
      var inProgress := IsRotationAnimationInProgress();
      if inProgress {
        return;
      }
      var rotationAnimation := MakeRotationAnimation(from, to, containerWidth);
      animation := Some(rotationAnimation);
    }

    /** True while a rotation animation is attached to the container layer. */
    method IsRotationAnimationInProgress() returns (inProgress: bool)
      ensures inProgress <==> animation.Some?
    {
      inProgress := animation.Some?;
    }

    method RemoveRotationAnimation()
      modifies this`animation
      ensures Model() == old(Model()).(animation := None)
      ensures dataSource == old(dataSource)
    {
      animation := None;
    }

    method ApplyCubeTransforms()
      requires Valid()
      modifies this
      ensures Valid()
      ensures Model() == CubeTransformsApplied(old(Model()))
      ensures dataSource == old(dataSource)
    {
      var index := 0;
      while index < |children|
        invariant 0 <= index <= |children| == |old(children)|
        invariant forall i :: 0 <= i < index ==>
          children[i] == Child(old(children)[i].id, ViewTransform(SideAt(i), viewWidth))
        invariant children[index..] == old(children)[index..]
        invariant Model().(children := old(children)) == old(Model())
        invariant dataSource == old(dataSource)
      {
        RawValueAtPosition(index);
        var cubeSide := FromRawValue(index).value;
        children := children[index := Child(children[index].id, ViewTransform(cubeSide, viewWidth))];
        index := index + 1;
      }
      assert children == CubeTransformsApplied(old(Model())).children;
    }

    /** The platform's report that the attached rotation animation stopped. */
    method AnimationDidStop(successful: bool)
      requires Valid() && animation.Some?
      modifies this
      ensures Valid()
      ensures Model() == ContainerState.AnimationDidStop(old(Model()), successful)
      ensures dataSource == old(dataSource)
    {
      ResolveStop(successful);
      var current := CurrentViewController();
      disabled := disabled - {current};
      completion := None;
      RemoveRotationAnimation();
    }

    /** The outcome-dependent branch of `animationDidStop(_:finished:)`. */
    method ResolveStop(successful: bool)
      requires Valid() && animation.Some?
      modifies this`currentSide, this`sublayerTransform, this`children
      ensures Model() == StopResolved(old(Model()), successful)
    {
      var newSide := FromRawValue(animation.value.finalSide).value;
      if successful {
        currentSide := newSide;
        sublayerTransform := PerspectiveTransform(newSide, containerWidth);
        if completion.Some? {
          RemoveCurrentViewController();
        }
      } else {
        var oldSide := currentSide;
        var isAnimationDirectionForward := NextSide(oldSide) == newSide;
        if isAnimationDirectionForward {
          RemoveCurrentViewController();
        }
      }
    }
  }
}
