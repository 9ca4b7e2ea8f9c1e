/**
 * SmoothObjectSpawner.MovingObject, the per-vehicle movement record that the spawner keeps in its
 * active list and hands, by value, to the vehicle's AGVBatterySystem.
 */
module MovingObjectState {
  import opened UnityTypes

  /**
   * The struct's value fields. Its two references are not part of the value: `obj` is always the
   * spawner's `car`, whose liveness the spawner tracks, and `battery` is that car's battery system.
   */
  datatype MovingObject = MovingObject(startPosition: Vector3, currentPointIndex: nat, moveTimer: real, isMoving: bool)

  /** `default(MovingObject)`: what a battery system holds before SetMovingObject is called. */
  const Unset := MovingObject(Origin, 0, 0.0, false)
}
