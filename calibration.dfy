/**
 * The calibration arithmetic of js/face-tracker.js: the focal length fixed
 * when a face is first detected, and the per-frame distance with its tuning
 * bias and clamp. Distances are in metres, heights of faces in pixels.
 */
module Calibration {

  datatype Gender = Male | Female

  /** The upper end of the distance clamp, in metres. */
  const MaxDistance: real := 6.5

  /** The shoulder-from-face offset (SFF), in metres. */
  function ShoulderOffset(g: Gender): real
  {
    match g
    case Male => 0.106
    case Female => 0.101
  }

  /** Arm length (height / 100 / 2.3) less the shoulder offset: the distance at calibration. */
  function ArmDistance(userHeight: real, g: Gender): real
  {
    userHeight / 100.0 / 2.3 - ShoulderOffset(g)
  }

  /** The last line of computeFocalLen. */
  function FocalLength(observedFaceHgt: real, userHeight: real, g: Gender, actualFaceHgt: real): real
    requires actualFaceHgt != 0.0
  {
    observedFaceHgt * ArmDistance(userHeight, g) / actualFaceHgt
  }

  /** The multiplier of the tune switch; a value without a case applies none. */
  function TuneFactor(tune: int): (f: real)
    ensures tune == -2 ==> f == 0.9
    ensures tune == -1 ==> f == 0.95
    ensures tune == 1 ==> f == 1.05
    ensures tune == 2 ==> f == 1.1
    ensures tune !in {-2, -1, 1, 2} ==> f == 1.0
  {
    if tune == -2 then 0.9
    else if tune == -1 then 0.95
    else if tune == 1 then 1.05
    else if tune == 2 then 1.1
    else 1.0
  }

  /** Math.min(6.5, Math.max(0, d)). */
  function Clamp(d: real): (c: real)
    ensures 0.0 <= c <= MaxDistance
    ensures 0.0 <= d <= MaxDistance ==> c == d
    ensures d < 0.0 ==> c == 0.0
    ensures d > MaxDistance ==> c == MaxDistance
  {
    if d > MaxDistance then MaxDistance else if d < 0.0 then 0.0 else d
  }

  /** The distance before tuning and clamping: similar triangles. */
  function RawDistance(actualFaceHgt: real, focalLen: real, faceHeight: real): real
    requires faceHeight != 0.0
  {
    actualFaceHgt * focalLen / faceHeight
  }

  /** computeDistance: the tuned distance, clamped into [0, 6.5]. */
  function ComputeDistance(actualFaceHgt: real, focalLen: real, faceHeight: real, tune: int): (d: real)
    requires faceHeight != 0.0
    ensures 0.0 <= d <= MaxDistance
  {
    Clamp(RawDistance(actualFaceHgt, focalLen, faceHeight) * TuneFactor(tune))
  }

  /** RawDistance inverts the projection: a face seen at actual * focal / d pixels is d metres away. */
  lemma DistanceInverse(actualFaceHgt: real, focalLen: real, d: real)
    requires actualFaceHgt * focalLen != 0.0 && d != 0.0
    ensures RawDistance(actualFaceHgt, focalLen, actualFaceHgt * focalLen / d) == d
  {
    var p := actualFaceHgt * focalLen;
    assert p / d * d == p;
    assert p / (p / d) == d;
  }

  /**
   * The calibration round trip: seen again at the calibration-time face
   * height with no tuning, the face is reported at the calibration distance.
   */
  lemma CalibrationRoundTrip(observedFaceHgt: real, userHeight: real, g: Gender, actualFaceHgt: real)
    requires actualFaceHgt != 0.0 && observedFaceHgt != 0.0
    ensures ComputeDistance(actualFaceHgt, FocalLength(observedFaceHgt, userHeight, g, actualFaceHgt), observedFaceHgt, 0)
            == Clamp(ArmDistance(userHeight, g))
  {
    var dist := ArmDistance(userHeight, g);
    var f := FocalLength(observedFaceHgt, userHeight, g, actualFaceHgt);
    assert f * actualFaceHgt == observedFaceHgt * dist;
    assert actualFaceHgt * f / observedFaceHgt == dist;
  }
}
