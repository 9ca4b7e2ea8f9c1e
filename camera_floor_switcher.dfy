/**
 * CameraFloorSwitcher.cs: the camera's floor selection. Switching to a floor aims the camera at
 * that floor's view point and starts a move; each frame then advances the move until it completes,
 * either when the smoothed camera has settled or, without smoothing, once the floor's moveTime has
 * elapsed.
 *
 * The camera's pose (Vector3.Lerp, Quaternion.Slerp) is not modelled: the smooth branch's test
 * "closer than 0.01 to the target" is the `settled` parameter of Update.
 */
module CameraFloors {
  import opened UnityTypes

  /** One floor: its name, the view point the camera moves to (null when unassigned), and the duration of a timed move. */
  datatype FloorView = FloorView(floorName: string, viewPoint: Option<Vector3>, moveTime: real)

  const DefaultMoveTime := 1.5

  /** One frame of a timed move: the timer after it and whether the move goes on. */
  function TimedStep(moveTimer: real, dt: real, moveTime: real): (r: (real, bool))
    ensures r.0 == moveTimer + dt
    ensures r.1 <==> r.0 < moveTime
    ensures 0.0 < dt ==> moveTimer < r.0
  {
    (moveTimer + dt, moveTimer + dt < moveTime)
  }

  /** The timer and the moving flag n frames after a switch, when moves are timed. */
  function TimedFrames(dt: real, moveTime: real, n: nat): (real, bool)
    decreases n
  {
    if n == 0 then (0.0, true)
    else
      var before := TimedFrames(dt, moveTime, n - 1);
      if before.1 then TimedStep(before.0, dt, moveTime) else before
  }

  /** While a timed move goes on, its timer has counted every frame. */
  lemma {:induction false} TimerCountsFrames(dt: real, moveTime: real, n: nat)
    ensures TimedFrames(dt, moveTime, n).1 ==> TimedFrames(dt, moveTime, n).0 == n as real * dt
    decreases n
  {
    if n > 0 {
      TimerCountsFrames(dt, moveTime, n - 1);
    }
  }

  /**
   * With positive frame times, a timed move is still going after n >= 1 frames exactly when n frames
   * have not yet added up to the floor's moveTime: it completes on the first frame that reaches it.
   */
  lemma {:induction false} TimedMoveCompletes(dt: real, moveTime: real, n: nat)
    requires 0.0 < dt && 1 <= n
    ensures TimedFrames(dt, moveTime, n).1 <==> n as real * dt < moveTime
    decreases n
  {
    TimerCountsFrames(dt, moveTime, n - 1);
    if n > 1 {
      TimedMoveCompletes(dt, moveTime, n - 1);
      if n as real * dt < moveTime {
        assert (n - 1) as real * dt < moveTime;
      }
    }
  }

  class CameraFloorSwitcher {
    const floorViews: seq<FloorView>
    const smoothMovement: bool

    /** The view point the camera is moving to. */
    var currentTarget: Option<Vector3>
    var moveTimer: real
    var isMoving: bool
    var CurrentFloorIndex: int

    /** The floor index is 0 or a valid floor, and a valid floor while a move is under way. */
    ghost predicate Valid()
      reads this
    {
      && 0 <= CurrentFloorIndex
      && (CurrentFloorIndex == 0 || CurrentFloorIndex < |floorViews|)
      && (isMoving ==> CurrentFloorIndex < |floorViews|)
    }

    constructor (floorViews: seq<FloorView>, smoothMovement: bool)
      ensures Valid()
      ensures this.floorViews == floorViews && this.smoothMovement == smoothMovement
      ensures CurrentFloorIndex == 0 && !isMoving && currentTarget == None && moveTimer == 0.0
    {
      this.floorViews := floorViews;
      this.smoothMovement := smoothMovement;
      currentTarget := None;
      moveTimer := 0.0;
      isMoving := false;
      CurrentFloorIndex := 0;
    }

    /** Start: move to the first floor, when there is one. */
    method Start()
      requires Valid()
      modifies this
      ensures Valid()
      ensures |floorViews| > 0 ==> CurrentFloorIndex == 0 && currentTarget == floorViews[0].viewPoint
                                   && moveTimer == 0.0 && isMoving
      ensures |floorViews| == 0 ==> unchanged(this)
    {
      if |floorViews| > 0 {
        SwitchToFloor(0);
      }
    }

    /**
     * SwitchToFloor: a valid index becomes the current floor and starts a move to its view point
     * with the timer reset; any other index changes nothing.
     */
    method SwitchToFloor(floorIndex: int)
      requires Valid()
      modifies this
      ensures Valid()
      ensures 0 <= floorIndex < |floorViews| ==>
                CurrentFloorIndex == floorIndex && currentTarget == floorViews[floorIndex].viewPoint
                && moveTimer == 0.0 && isMoving
      ensures !(0 <= floorIndex < |floorViews|) ==> unchanged(this)
    {
      if floorIndex >= 0 && floorIndex < |floorViews| {
        CurrentFloorIndex := floorIndex;
        currentTarget := floorViews[floorIndex].viewPoint;
        moveTimer := 0.0;
        isMoving := true;
      }
    }

    /**
     * Update: nothing happens unless a move is under way towards a non-null target. A smooth move
     * completes once the camera has settled; a timed move adds the frame time to the timer and
     * completes once the timer reaches the current floor's moveTime.
     */
    method Update(dt: real, settled: bool)
      requires Valid()
      modifies this
      ensures Valid()
      ensures CurrentFloorIndex == old(CurrentFloorIndex) && currentTarget == old(currentTarget)
      ensures !(old(isMoving) && old(currentTarget).Some?) ==> unchanged(this)
      ensures old(isMoving) && old(currentTarget).Some? && smoothMovement ==>
                moveTimer == old(moveTimer) && isMoving == !settled
      ensures old(isMoving) && old(currentTarget).Some? && !smoothMovement ==>
                (moveTimer, isMoving) == TimedStep(old(moveTimer), dt, floorViews[CurrentFloorIndex].moveTime)
    {
      if isMoving && currentTarget.Some? {
        if smoothMovement {
          if settled {
            CompleteMovement();
          }
        } else {
          moveTimer := moveTimer + dt;
          if moveTimer >= floorViews[CurrentFloorIndex].moveTime {
            CompleteMovement();
          }
        }
      }
    }

    /** CompleteMovement: the camera is at the target and the move is over. */
    method CompleteMovement()
      requires Valid()
      modifies this
      ensures Valid()
      ensures !isMoving
      ensures CurrentFloorIndex == old(CurrentFloorIndex) && currentTarget == old(currentTarget)
              && moveTimer == old(moveTimer)
    {
      isMoving := false;
    }
  }
}
