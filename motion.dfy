/**
 * One device-motion sample as the headphone motion sensor delivers it
 * (CoreMotion's `CMDeviceMotion`), with `Double` modelled as `real`.
 */
module Motion {

  datatype Vector3 = Vector3(x: real, y: real, z: real)

  datatype Attitude = Attitude(roll: real, pitch: real, yaw: real)

  /** `timestamp` is in seconds, on the sensor's own clock. */
  datatype DeviceMotion = DeviceMotion(
    timestamp: real,
    userAcceleration: Vector3,
    gravity: Vector3,
    rotationRate: Vector3,
    attitude: Attitude)

  function Abs(x: real): (r: real)
    ensures r >= 0.0
    ensures r == x || r == -x
  {
    if x < 0.0 then -x else x
  }

  /** `abs(v.x) + abs(v.y) + abs(v.z)`: zero exactly for the zero vector. */
  function AbsSum(v: Vector3): (r: real)
    ensures r >= 0.0
    ensures r == 0.0 <==> v == Vector3(0.0, 0.0, 0.0)
  {
    Abs(v.x) + Abs(v.y) + Abs(v.z)
  }
}
