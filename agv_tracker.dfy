/**
 * AGVTracker.cs: the trail a car leaves behind, kept as the point buffer of its LineRenderer. A
 * point is recorded whenever the car has moved at least positionSpacing from the last recorded
 * one; with a positive maxPositions the buffer is bounded and, once full, drops its oldest point.
 *
 * The car's position and Vector3.Distance are parameters of the methods that read them.
 */
module Tracker {
  import opened UnityTypes

  /** The Inspector defaults: up to 1000 points (0 or less means unbounded), spaced 0.1 apart. */
  const DefaultMaxPositions := 1000
  const DefaultPositionSpacing := 0.1

  /** The newest `max` points of a trail, or all of them when the buffer is unbounded (max <= 0). */
  function Newest(trail: seq<Vector3>, max: int): (r: seq<Vector3>)
    ensures max > 0 ==> |r| == if |trail| <= max then |trail| else max
    ensures max <= 0 ==> r == trail
  {
    if max > 0 && |trail| > max then trail[|trail| - max..] else trail
  }

  /**
   * The buffer after AddNewPosition(p): a full bounded buffer drops its oldest point and keeps its
   * size, any other grows by one; either way it holds the newest points of the old buffer plus p.
   */
  function Record(points: seq<Vector3>, p: Vector3, max: int): (r: seq<Vector3>)
    ensures |r| >= 1 && r[|r| - 1] == p
    ensures max > 0 && |points| >= max ==> |r| == |points|
    ensures !(max > 0 && |points| >= max) ==> |r| == |points| + 1 && r[..|points|] == points
    ensures max <= 0 || |points| <= max ==> r == Newest(points + [p], max)
  {
    if max > 0 && |points| >= max then points[1..] + [p] else points + [p]
  }

  /** The buffer after AddNewPosition has been called with each of `ps` in turn. */
  function RecordAll(points: seq<Vector3>, ps: seq<Vector3>, max: int): seq<Vector3>
    decreases |ps|
  {
    if ps == [] then points else RecordAll(Record(points, ps[0], max), ps[1..], max)
  }

  /** Taking the newest points first and then the newest of a longer trail loses nothing. */
  lemma NewestOfNewest(trail: seq<Vector3>, more: seq<Vector3>, max: int)
    ensures Newest(Newest(trail, max) + more, max) == Newest(trail + more, max)
  {
    var kept := Newest(trail, max);
    assert kept + more == (trail + more)[|trail| - |kept|..];
  }

  /** Appending a trail's first point and then the rest of it appends the whole trail. */
  lemma AppendHeadThenTail(points: seq<Vector3>, ps: seq<Vector3>)
    requires ps != []
    ensures points + [ps[0]] + ps[1..] == points + ps
  {
    assert ps == [ps[0]] + ps[1..];
  }

  /**
   * However many positions are recorded, a buffer that starts within its bound holds exactly the
   * newest maxPositions of everything recorded into it, oldest first (all of it when unbounded).
   */
  lemma {:induction false} RecordAllKeepsNewest(points: seq<Vector3>, ps: seq<Vector3>, max: int)
    requires max <= 0 || |points| <= max
    ensures RecordAll(points, ps, max) == Newest(points + ps, max)
    decreases |ps|
  {
    if ps == [] {
      assert points + ps == points;
    } else {
      var grown := points + [ps[0]];
      var next := Record(points, ps[0], max);
      assert next == Newest(grown, max);
      assert max <= 0 || |next| <= max;
      RecordAllKeepsNewest(next, ps[1..], max);
      NewestOfNewest(grown, ps[1..], max);
      AppendHeadThenTail(points, ps);
      calc {
        RecordAll(points, ps, max);
        RecordAll(next, ps[1..], max);
        Newest(next + ps[1..], max);
        { assert next + ps[1..] == Newest(grown, max) + ps[1..]; }
        Newest(grown + ps[1..], max);
        Newest(points + ps, max);
      }
    }
  }

  /**
   * The full-buffer branch of AddNewPosition: the points are read into an array, copied one place
   * to the left into a second array of the same length, and the new point goes last.
   */
  method DropOldestAndAppend(points: seq<Vector3>, newPosition: Vector3) returns (shifted: seq<Vector3>)
    requires |points| > 0
    ensures |shifted| == |points|
    ensures shifted == points[1..] + [newPosition]
  {
    var currentCount := |points|;
    var positions := new Vector3[currentCount](i requires 0 <= i < currentCount => points[i]);
    var newPositions := new Vector3[currentCount];
    var k := 0;
    while k < currentCount - 1
      invariant 0 <= k <= currentCount - 1
      invariant positions[..] == points
      invariant forall j | 0 <= j < k :: newPositions[j] == points[j + 1]
    {
      newPositions[k] := positions[k + 1];
      k := k + 1;
    }
    newPositions[currentCount - 1] := newPosition;
    shifted := newPositions[..];
    assert forall j | 0 <= j < currentCount - 1 :: shifted[j] == points[1..][j];
  }

  class AGVTracker {
    const maxPositions: int
    const positionSpacing: real

    /** Whether `lineRenderer` has been fetched. */
    var hasRenderer: bool
    /** The LineRenderer's points, oldest first (its positionCount is their number). */
    var points: seq<Vector3>
    var lastRecordedPosition: Vector3
    var isInitialized: bool

    /** A bounded trail stays within its bound; an initialised one ends at the last recorded position. */
    ghost predicate Valid()
      reads this
    {
      && (isInitialized ==> hasRenderer && |points| >= 1 && points[|points| - 1] == lastRecordedPosition)
      && (maxPositions > 0 ==> |points| <= maxPositions)
    }

    /** The component before Awake: no renderer fetched, no points. */
    constructor (maxPositions: int, positionSpacing: real)
      ensures Valid()
      ensures this.maxPositions == maxPositions && this.positionSpacing == positionSpacing
      ensures !hasRenderer && points == [] && !isInitialized
    {
      this.maxPositions := maxPositions;
      this.positionSpacing := positionSpacing;
      hasRenderer := false;
      points := [];
      lastRecordedPosition := Origin;
      isInitialized := false;
    }

    /** Awake: initialise the trail at the car's position. */
    method Awake(current: Vector3)
      modifies this
      ensures Valid()
      ensures hasRenderer && isInitialized && points == [current] && lastRecordedPosition == current
    {
      InitializeLineRenderer(current);
    }

    /** Update: one frame of tracking. */
    method Update(current: Vector3, distance: (Vector3, Vector3) -> real)
      requires Valid()
      modifies this
      ensures Valid()
      ensures isInitialized && distance(current, old(lastRecordedPosition)) >= positionSpacing ==>
                points == Record(old(points), current, maxPositions) && lastRecordedPosition == current
      ensures !(isInitialized && distance(current, old(lastRecordedPosition)) >= positionSpacing) ==>
                points == old(points) && lastRecordedPosition == old(lastRecordedPosition)
      ensures isInitialized == old(isInitialized) && hasRenderer == old(hasRenderer)
    {
      TrackPosition(current, distance);
    }

    /** InitializeLineRenderer, point buffer only: exactly one point, the car's position. */
    method InitializeLineRenderer(current: Vector3)
      modifies this
      ensures Valid()
      ensures hasRenderer && isInitialized && points == [current] && lastRecordedPosition == current
    {
      hasRenderer := true;
      points := [current];
      lastRecordedPosition := current;
      isInitialized := true;
    }

    /** TrackPosition: record the car's position once it is at least positionSpacing from the last one. */
    method TrackPosition(current: Vector3, distance: (Vector3, Vector3) -> real)
      requires Valid()
      modifies this
      ensures Valid()
      ensures isInitialized && distance(current, old(lastRecordedPosition)) >= positionSpacing ==>
                points == Record(old(points), current, maxPositions) && lastRecordedPosition == current
      ensures !(isInitialized && distance(current, old(lastRecordedPosition)) >= positionSpacing) ==>
                points == old(points) && lastRecordedPosition == old(lastRecordedPosition)
      ensures isInitialized == old(isInitialized) && hasRenderer == old(hasRenderer)
    {
      if !isInitialized {
        return;
      }
      var d := distance(current, lastRecordedPosition);
      if d >= positionSpacing {
        AddNewPosition(current);
      }
    }

    /**
     * AddNewPosition: the point becomes the last recorded position. A full bounded buffer keeps
     * its size, drops its oldest point and shifts the rest left; otherwise the buffer grows by one.
     */
    method AddNewPosition(newPosition: Vector3)
      requires Valid() && isInitialized
      modifies this
      ensures Valid()
      ensures lastRecordedPosition == newPosition
      ensures points == Record(old(points), newPosition, maxPositions)
      ensures isInitialized && hasRenderer == old(hasRenderer)
    {
      lastRecordedPosition := newPosition;
      var currentCount := |points|;
      if maxPositions > 0 && currentCount >= maxPositions {
        points := DropOldestAndAppend(points, newPosition);
      } else {
        points := points + [newPosition];
      }
    }

    /** ClearPath: with a renderer, the trail restarts with the car's position as its only point. */
    method ClearPath(current: Vector3)
      requires Valid()
      modifies this
      ensures Valid()
      ensures hasRenderer == old(hasRenderer)
      ensures old(hasRenderer) ==> points == [current] && lastRecordedPosition == current && isInitialized
      ensures !old(hasRenderer) ==> points == old(points) && isInitialized == old(isInitialized)
                                    && lastRecordedPosition == old(lastRecordedPosition)
    {
      if hasRenderer {
        points := [];
        isInitialized := false;
        InitializeLineRenderer(current);
      }
    }
  }

}
