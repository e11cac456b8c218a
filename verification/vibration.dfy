/**
 * Sample data (snsrpi-device/Models/VibrationData.cs and the vendor's
 * `CXCom.Sample`).
 *
 * VibrationData.cs declares one scalar sample, but OutputData.cs and
 * Logger.cs build and read it as four parallel columns; the model follows
 * that use. Timestamps are the strings the logger formats; accelerations are
 * only carried, never computed with, and are represented as `real`.
 */
module Vibration {

  datatype VibrationData = VibrationData(
    time: seq<string>,
    accelX: seq<real>,
    accelY: seq<real>,
    accelZ: seq<real>)

  /** One reading returned by the vendor's `GetSamples`. */
  datatype Sample = Sample(
    timeStamp: string,
    accelerationX: real,
    accelerationY: real,
    accelerationZ: real,
    accelerationValid: bool)

  /** The four columns have the same length. */
  predicate Aligned(d: VibrationData) {
    |d.time| == |d.accelX| == |d.accelY| == |d.accelZ|
  }
}
