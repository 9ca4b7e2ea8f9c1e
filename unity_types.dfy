/** Value types that the models of the Unity scripts share. */
module UnityTypes {

  /** A Unity reference that may be null: an unassigned Inspector field or a destroyed object. */
  datatype Option<+T> = None | Some(value: T)

  /** UnityEngine.Vector3, with exact real coordinates instead of single-precision floats. */
  datatype Vector3 = Vector3(x: real, y: real, z: real)

  const Origin := Vector3(0.0, 0.0, 0.0)

  /** Mathf.Clamp(value, min, max): the value, pulled into [min, max]. */
  function Clamp(value: real, min: real, max: real): (r: real)
    ensures min <= max ==> min <= r <= max
    ensures min <= value <= max ==> r == value
    ensures value < min ==> r == min
    ensures min <= max < value ==> r == max
  {
    if value < min then min else if value > max then max else value
  }
}
