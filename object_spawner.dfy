/**
 * SmoothObjectSpawner.cs: a spawn timer that periodically (re)spawns the scene's one car, a list
 * of active movement records capped at one entry, and per record a waypoint-index state machine
 * that waits moveDurationPerPoint seconds per waypoint and wraps back to the first one.
 *
 * Every record's `obj` is the same scene object `car`; the spawner tracks whether that object is
 * still alive (`carAlive`). Unity destroys an object at the end of the frame, so a Destroy takes
 * effect after the frame's records are updated.
 */
module Spawner {
  import opened UnityTypes
  import opened MovingObjectState
  import opened Battery

  /** What UpdateObjectMovement does with a record: keep it with its new state, or remove it. */
  datatype Step = Keep(next: MovingObject) | Remove(destroy: bool)

  /** The record SpawnAndMoveObject creates: at the spawn point, aiming at waypoint 0, moving. */
  function SpawnRecord(spawnPosition: Vector3): (r: MovingObject)
    ensures r.startPosition == spawnPosition && r.currentPointIndex == 0 && r.moveTimer == 0.0 && r.isMoving
  {
    MovingObject(spawnPosition, 0, 0.0, true)
  }

  /**
   * UpdateObjectMovement on the record's index and timer. A dead car's record is dropped; a
   * record aiming past the waypoints destroys the car and is dropped. Otherwise the timer grows by
   * dt; the record is moving while the interpolation parameter is below 1; once the timer reaches
   * the duration the waypoint is reached, the next one (wrapping to 0) becomes the target, and
   * the segment restarts there.
   */
  function MovementStep(obj: MovingObject, alive: bool, movePoints: seq<Vector3>, duration: real, dt: real): (r: Step)
    requires 0.0 < duration
    ensures !alive ==> r == Remove(false)
    ensures alive && |movePoints| <= obj.currentPointIndex ==> r == Remove(true)
    ensures alive && obj.currentPointIndex < |movePoints| ==> r.Keep? && r.next.currentPointIndex < |movePoints|
    ensures r.Keep? ==> (r.next.isMoving <==> obj.moveTimer + dt < duration)
    ensures r.Keep? && obj.moveTimer + dt < duration ==>
              r.next == obj.(moveTimer := obj.moveTimer + dt, isMoving := true)
    ensures r.Keep? && duration <= obj.moveTimer + dt ==>
              r.next == MovingObject(movePoints[obj.currentPointIndex], (obj.currentPointIndex + 1) % |movePoints|, 0.0, false)
  {
    if !alive then Remove(false)
    else if |movePoints| == 0 || obj.currentPointIndex >= |movePoints| then Remove(true)
    else
      var target := movePoints[obj.currentPointIndex];
      var timer := obj.moveTimer + dt;
      var t := Clamp(timer / duration, 0.0, 1.0);
      assert t < 1.0 <==> timer < duration by {
        ParameterBelowOne(timer, duration);
      }
      var moved := obj.(moveTimer := timer, isMoving := t < 1.0);
      if moved.moveTimer >= duration then
        var advanced := moved.currentPointIndex + 1;
        Keep(moved.(currentPointIndex := if advanced >= |movePoints| then 0 else advanced,
                    moveTimer := 0.0, startPosition := target))
      else
        Keep(moved)
  }

  /** timer / duration is below 1 exactly when the timer is below the duration. */
  lemma ParameterBelowOne(timer: real, duration: real)
    requires 0.0 < duration
    ensures timer / duration < 1.0 <==> timer < duration
  {
    assert timer / duration * duration == timer;
    if timer / duration < 1.0 {
      assert timer / duration * duration < 1.0 * duration;
    } else {
      assert timer / duration * duration >= 1.0 * duration;
    }
  }

  /** The records UpdateMovingObjects keeps, in their order, each with its new state. */
  function Survivors(objs: seq<MovingObject>, alive: bool, movePoints: seq<Vector3>, duration: real, dt: real)
    : (kept: seq<MovingObject>)
    requires 0.0 < duration
    ensures |kept| <= |objs|
  {
    if objs == [] then []
    else
      var first := MovementStep(objs[0], alive, movePoints, duration, dt);
      (if first.Keep? then [first.next] else []) + Survivors(objs[1..], alive, movePoints, duration, dt)
  }

  /** Whether some record of the frame destroys the car. */
  predicate AnyDestroyed(objs: seq<MovingObject>, alive: bool, movePoints: seq<Vector3>, duration: real, dt: real)
    requires 0.0 < duration
  {
    exists i | 0 <= i < |objs| :: MovementStep(objs[i], alive, movePoints, duration, dt) == Remove(true)
  }

  /** Every record aims at an existing waypoint. */
  predicate InRange(objs: seq<MovingObject>, movePoints: seq<Vector3>) {
    forall i | 0 <= i < |objs| :: objs[i].currentPointIndex < |movePoints|
  }

  /**
   * While the car lives and every record aims at an existing waypoint, a frame keeps every
   * record, keeps them aimed at existing waypoints, and destroys nothing.
   */
  lemma {:induction false} InRangeKeepsEveryRecord(objs: seq<MovingObject>, movePoints: seq<Vector3>, duration: real, dt: real)
    requires 0.0 < duration && InRange(objs, movePoints)
    ensures var kept := Survivors(objs, true, movePoints, duration, dt);
            |kept| == |objs| && InRange(kept, movePoints)
    ensures !AnyDestroyed(objs, true, movePoints, duration, dt)
  {
    if objs != [] {
      assert InRange(objs[1..], movePoints) by {
        forall i | 0 <= i < |objs[1..]| ensures objs[1..][i].currentPointIndex < |movePoints| {
          assert objs[1..][i] == objs[i + 1];
        }
      }
      InRangeKeepsEveryRecord(objs[1..], movePoints, duration, dt);
      var first := MovementStep(objs[0], true, movePoints, duration, dt);
      var rest := Survivors(objs[1..], true, movePoints, duration, dt);
      assert Survivors(objs, true, movePoints, duration, dt) == [first.next] + rest;
      forall i | 0 <= i < |objs| ensures MovementStep(objs[i], true, movePoints, duration, dt) != Remove(true) {
      }
    }
  }

  /** The records a frame keeps are exactly those whose step keeps them, in the same order. */
  lemma {:induction false} SurvivorsSplit(front: seq<MovingObject>, back: seq<MovingObject>, alive: bool,
                                          movePoints: seq<Vector3>, duration: real, dt: real)
    requires 0.0 < duration
    ensures Survivors(front + back, alive, movePoints, duration, dt)
            == Survivors(front, alive, movePoints, duration, dt) + Survivors(back, alive, movePoints, duration, dt)
  {
    if front != [] {
      assert (front + back)[1..] == front[1..] + back;
      SurvivorsSplit(front[1..], back, alive, movePoints, duration, dt);
    } else {
      assert front + back == back;
    }
  }

  /** A whole frame of UpdateSpawnTimer on the timer: the new timer, and whether it spawned. */
  function SpawnTimerStep(timer: real, spawnInterval: real, dt: real): (r: (real, bool))
    ensures r.1 <==> timer - dt <= 0.0
    ensures r.1 ==> r.0 == spawnInterval
    ensures !r.1 ==> r.0 == timer - dt && 0.0 < r.0
  {
    var counted := timer - dt;
    if counted <= 0.0 then (spawnInterval, true) else (counted, false)
  }

  /** The active list after a spawn: a new record joins only an empty list. */
  function AfterSpawn(objs: seq<MovingObject>, spawnTransform: Option<Vector3>, movePoints: seq<Vector3>)
    : (r: seq<MovingObject>)
    ensures |objs| <= 1 ==> |r| <= 1
    ensures spawnTransform.None? || |movePoints| == 0 || |objs| > 0 ==> r == objs
    ensures spawnTransform.Some? && |movePoints| > 0 && |objs| == 0 ==> r == [SpawnRecord(spawnTransform.value)]
    ensures InRange(objs, movePoints) ==> InRange(r, movePoints)
  {
    if spawnTransform.Some? && |movePoints| > 0 && |objs| <= 0 then objs + [SpawnRecord(spawnTransform.value)]
    else objs
  }

  class SmoothObjectSpawner {
    /** The position of `spawnTransform`, or None when it is unassigned. */
    const spawnTransform: Option<Vector3>
    /** The positions of the `movePoints` transforms. */
    const movePoints: seq<Vector3>
    const moveDurationPerPoint: real
    const autoSpawnEnabled: bool
    const spawnInterval: real

    var activeObjects: seq<MovingObject>
    var spawnTimer: real
    /** Whether the scene object `car`, which every record refers to, is still alive. */
    var carAlive: bool
    /** The car's AGVBatterySystem component, once it has one. */
    var carBattery: AGVBatterySystem?

    /** At most one record, each aiming at an existing waypoint. */
    ghost predicate Valid()
      reads this
    {
      0.0 < moveDurationPerPoint && |activeObjects| <= 1 && InRange(activeObjects, movePoints)
    }

    /** Whether a spawn gets past SpawnAndMoveObject's guards: a spawn point and some waypoints. */
    predicate CanSpawn() {
      spawnTransform.Some? && |movePoints| > 0
    }

    /**
     * The car's battery component across a step that did or did not spawn. Without a spawn it is
     * the same component, untouched. A spawn that passes the guards hands it a copy of the fresh
     * record: an existing component keeps its charge, cycle and widgets, and a car without one
     * gets a new component with the default settings, no widgets and no charge until its Start.
     */
    twostate predicate BatteryAfter(spawned: bool)
      reads this, carBattery
    {
      if spawned && CanSpawn() then
        && carBattery != null
        && carBattery.movingObject == SpawnRecord(spawnTransform.value)
        && (old(carBattery) == null ==>
              && fresh(carBattery)
              && carBattery.initialBattery == DefaultInitialBattery
              && carBattery.drainRateWhileMoving == DefaultDrainRateWhileMoving
              && carBattery.drainRateWhileIdle == DefaultDrainRateWhileIdle
              && carBattery.lowBatteryThreshold == DefaultLowBatteryThreshold
              && carBattery.chargingRate == DefaultChargingRate
              && carBattery.currentBattery == 0.0 && !carBattery.isCharging && carBattery.spawnTimerS == 0.0
              && carBattery.batterySlider == None && carBattery.batteryFill == None)
        && (old(carBattery) != null ==>
              && carBattery == old(carBattery)
              && carBattery.currentBattery == old(carBattery.currentBattery)
              && carBattery.isCharging == old(carBattery.isCharging)
              && carBattery.spawnTimerS == old(carBattery.spawnTimerS)
              && carBattery.batterySlider == old(carBattery.batterySlider)
              && carBattery.batteryFill == old(carBattery.batteryFill))
      else
        carBattery == old(carBattery) && (carBattery != null ==> unchanged(carBattery))
    }

    /** The component before Start, with the Inspector's settings and the car's current battery component. */
    constructor (spawnTransform: Option<Vector3>, movePoints: seq<Vector3>, moveDurationPerPoint: real,
                 autoSpawnEnabled: bool, spawnInterval: real, carBattery: AGVBatterySystem?)
      requires 0.0 < moveDurationPerPoint
      ensures Valid()
      ensures this.spawnTransform == spawnTransform && this.movePoints == movePoints
      ensures this.moveDurationPerPoint == moveDurationPerPoint && this.autoSpawnEnabled == autoSpawnEnabled
      ensures this.spawnInterval == spawnInterval && this.carBattery == carBattery
      ensures activeObjects == [] && spawnTimer == 0.0 && carAlive
    {
      this.spawnTransform := spawnTransform;
      this.movePoints := movePoints;
      this.moveDurationPerPoint := moveDurationPerPoint;
      this.autoSpawnEnabled := autoSpawnEnabled;
      this.spawnInterval := spawnInterval;
      this.carBattery := carBattery;
      activeObjects := [];
      spawnTimer := 0.0;
      carAlive := true;
    }

    /** Start: arm the timer with a full interval and spawn once. */
    method Start()
      requires Valid() && carAlive
      modifies this, carBattery
      ensures Valid() && carAlive
      ensures spawnTimer == spawnInterval
      ensures activeObjects == AfterSpawn(old(activeObjects), spawnTransform, movePoints)
      ensures BatteryAfter(true)
    {
      spawnTimer := spawnInterval;
      SpawnAndMoveObject();
    }

    /** One frame: the spawn timer (when auto-spawn is on), then every record's movement. */
    method Update(dt: real)
      requires Valid() && carAlive
      modifies this, carBattery
      ensures Valid() && carAlive
      ensures var (timer, spawned) := if autoSpawnEnabled then SpawnTimerStep(old(spawnTimer), spawnInterval, dt)
                                      else (old(spawnTimer), false);
              && spawnTimer == timer
              && activeObjects == Survivors(if spawned then AfterSpawn(old(activeObjects), spawnTransform, movePoints)
                                            else old(activeObjects), true, movePoints, moveDurationPerPoint, dt)
              && |activeObjects| == |if spawned then AfterSpawn(old(activeObjects), spawnTransform, movePoints)
                                     else old(activeObjects)|
              && BatteryAfter(spawned)
    {
      if autoSpawnEnabled {
        UpdateSpawnTimer(dt);
      }
      ghost var before := activeObjects;
      InRangeKeepsEveryRecord(activeObjects, movePoints, moveDurationPerPoint, dt);
      UpdateMovingObjects(dt);
      assert activeObjects == Survivors(before, true, movePoints, moveDurationPerPoint, dt);
    }

    /** UpdateSpawnTimer: count down by dt; at zero or below, spawn and re-arm with a full interval. */
    method UpdateSpawnTimer(dt: real)
      requires Valid() && carAlive
      modifies this, carBattery
      ensures Valid() && carAlive
      ensures var (timer, spawned) := SpawnTimerStep(old(spawnTimer), spawnInterval, dt);
              && spawnTimer == timer
              && activeObjects == (if spawned then AfterSpawn(old(activeObjects), spawnTransform, movePoints)
                                   else old(activeObjects))
      ensures BatteryAfter(SpawnTimerStep(old(spawnTimer), spawnInterval, dt).1)
    {
      spawnTimer := spawnTimer - dt;
      if spawnTimer <= 0.0 {
        SpawnAndMoveObject();
        spawnTimer := spawnInterval;
      }
    }

    /**
     * UpdateMovingObjects: from the last record to the first, a record whose update asks for
     * removal is removed, any other is written back with its new state. The car destroyed on the
     * way is gone after the frame.
     */
    method UpdateMovingObjects(dt: real)
      requires 0.0 < moveDurationPerPoint
      modifies this
      ensures activeObjects == Survivors(old(activeObjects), old(carAlive), movePoints, moveDurationPerPoint, dt)
      ensures carAlive == (old(carAlive) && !AnyDestroyed(old(activeObjects), old(carAlive), movePoints, moveDurationPerPoint, dt))
      ensures spawnTimer == old(spawnTimer) && carBattery == old(carBattery)
    {
      var destroyed := false;
      var i := |activeObjects|;
      while i > 0
        invariant 0 <= i <= |old(activeObjects)|
        invariant activeObjects == old(activeObjects)[..i] + Survivors(old(activeObjects)[i..], carAlive, movePoints, moveDurationPerPoint, dt)
        invariant destroyed <==> exists j | i <= j < |old(activeObjects)| ::
                    MovementStep(old(activeObjects)[j], carAlive, movePoints, moveDurationPerPoint, dt) == Remove(true)
        invariant carAlive == old(carAlive) && spawnTimer == old(spawnTimer) && carBattery == old(carBattery)
      {
        i := i - 1;
        ghost var rest := old(activeObjects)[i + 1..];
        assert old(activeObjects)[i..] == [old(activeObjects)[i]] + rest;
        assert old(activeObjects)[..i + 1] == old(activeObjects)[..i] + [old(activeObjects)[i]];
        var movingObj := activeObjects[i];
        var step := MovementStep(movingObj, carAlive, movePoints, moveDurationPerPoint, dt);
        if step.Remove? {
          activeObjects := activeObjects[..i] + activeObjects[i + 1..];
          destroyed := destroyed || step.destroy;
        } else {
          activeObjects := activeObjects[i := step.next];
        }
      }
      assert old(activeObjects)[0..] == old(activeObjects);
      carAlive := carAlive && !destroyed;
    }

    /**
     * SpawnAndMoveObject: without a spawn point or waypoints nothing happens. Otherwise the car
     * gets a battery component if it has none, the component receives a copy of a fresh record,
     * and that record joins the active list only when the list is empty.
     */
    method SpawnAndMoveObject()
      requires carAlive
      modifies this, carBattery
      ensures spawnTimer == old(spawnTimer) && carAlive
      ensures activeObjects == AfterSpawn(old(activeObjects), spawnTransform, movePoints)
      ensures BatteryAfter(true)
    {
      if spawnTransform.None? {
        return;
      }
      if |movePoints| == 0 {
        return;
      }
      if carBattery == null {
        carBattery := new AGVBatterySystem(DefaultInitialBattery, DefaultDrainRateWhileMoving, DefaultDrainRateWhileIdle,
                                           DefaultLowBatteryThreshold, DefaultChargingRate, None, None);
      }
      var movingObj := SpawnRecord(spawnTransform.value);
      carBattery.SetMovingObject(movingObj);
      if |activeObjects| <= 0 {
        activeObjects := activeObjects + [movingObj];
      }
    }

    /**
     * CleanupAllObjects: calls Destroy on the car of every record whose car is not null, then
     * empties the list. Destroy takes effect at the end of the frame, so the car is still non-null
     * for every record of the loop and is destroyed once per record; `destroyCalls` counts the calls.
     */
    method CleanupAllObjects() returns (destroyCalls: nat)
      modifies this
      ensures destroyCalls == if old(carAlive) then |old(activeObjects)| else 0
      ensures activeObjects == []
      ensures carAlive == (old(carAlive) && destroyCalls == 0)
      ensures spawnTimer == old(spawnTimer) && carBattery == old(carBattery)
    {
      destroyCalls := 0;
      for i := 0 to |activeObjects|
        invariant destroyCalls == if carAlive then i else 0
      {
        if carAlive {
          destroyCalls := destroyCalls + 1;
        }
      }
      activeObjects := [];
      carAlive := carAlive && destroyCalls == 0;
    }
  }

  /**
   * The battery's record is a copy taken at spawn time, so it says "moving" for good: a car that
   * is not charging always drains at the moving rate, even while its own record has stopped.
   */
  lemma SpawnedCarDrainsAtMovingRate(spawnPosition: Vector3, battery: real, drainRateWhileMoving: real,
                                     drainRateWhileIdle: real, chargingRate: real, dt: real)
    ensures NextBattery(battery, false, SpawnRecord(spawnPosition).isMoving, drainRateWhileMoving,
                        drainRateWhileIdle, chargingRate, dt)
            == Clamp(battery - drainRateWhileMoving * dt, 0.0, FullCharge)
  {
  }
}
