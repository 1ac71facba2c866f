/**
 * The FaceTracker of js/face-tracker.js: a three-stage machine that first
 * detects a face to calibrate the focal length and build the template bank,
 * then measures the distance frame by frame from the best-matching template.
 *
 * Everything the tracker asks of OpenCV and of the detection network is an
 * input: the detector's flat output for the frame, one Probe per working
 * template, one score per reference template, and the user's actual face
 * height (the result of the anthropometric estimate).
 */
module Tracker {
  import opened Wrappers
  import opened Templates
  import opened Calibration
  import opened Detection
  import opened Matching

  /** detectionStage: NONE, DETECT_FACE and MATCH_FACE. */
  datatype Stage = NoStage | DetectFaceStage | MatchFaceStage

  /** A camera frame; only its size matters to the logic. */
  datatype Frame = Frame(cols: nat, rows: nat)

  /** The threshold the tracker passes to the template search. */
  const MatchThresh: real := 0.0

  /** Matches scoring below this are rejected. */
  const MinMatchScore: real := 0.6

  /** Matches of the original scale scoring at least this leave the working set alone. */
  const RefreshScore: real := 0.95

  /** A length in pixels as OpenCV takes it for a region of interest: whole pixels, never negative. */
  function Pixels(x: real): (n: nat)
    ensures x >= 0.0 ==> n as real <= x < n as real + 1.0
  {
    if x <= 0.0 then 0 else x.Floor
  }

  /** The face crop cut from the frame at a detected face. */
  function Crop(f: Face): FaceImage
  {
    FaceImage(Pixels(f.width), Pixels(f.height))
  }

  /** A match that asks for a refresh of the working set: not the original scale, or not near-perfect. */
  predicate Refreshes(m: DetectionResult)
  {
    !m.templateReference.isOriginal || m.score < RefreshScore
  }

  /**
   * What distanceFromMatching returns for a bank and the probe of each of its
   * templates: null when nothing matches or the score is below the cut-off,
   * otherwise the match with its distance filled in.
   */
  function MatchingOutcome(ts: seq<Template>, ps: seq<Probe>, actualFaceHgt: real, focalLen: real, tune: int)
    : (r: Option<DetectionResult>)
    requires |ps| == |ts| && |ts| % BlockSize == 0
    requires forall t :: t in ts ==> t.h > 0
    ensures r.Some? <==> BestMatch(ts, ps, MatchThresh).Some? && BestMatch(ts, ps, MatchThresh).value.score >= MinMatchScore
    ensures r.Some? ==> r.value == BestMatch(ts, ps, MatchThresh).value.(distance := r.value.distance)
    ensures r.Some? ==> 0.0 <= r.value.distance <= MaxDistance
  {
    BestMatchFromList(ts, ps, MatchThresh);
    var m := BestMatch(ts, ps, MatchThresh);
    if m.None? || m.value.score < MinMatchScore then None
    else Some(m.value.(distance := ComputeDistance(actualFaceHgt, focalLen, m.value.box.height as real, tune)))
  }

  /** The distance of a returned match is the one computeDistance gives for its box height. */
  lemma MatchingOutcomeDistance(ts: seq<Template>, ps: seq<Probe>, actualFaceHgt: real, focalLen: real, tune: int)
    requires |ps| == |ts| && |ts| % BlockSize == 0
    requires forall t :: t in ts ==> t.h > 0
    ensures MatchingOutcome(ts, ps, actualFaceHgt, focalLen, tune).Some? ==>
      var r := MatchingOutcome(ts, ps, actualFaceHgt, focalLen, tune).value;
      && r.box.height == r.templateReference.h && r.templateReference in ts
      && r.distance == ComputeDistance(actualFaceHgt, focalLen, r.box.height as real, tune)
  {
    BestMatchFromList(ts, ps, MatchThresh);
  }

  class FaceTracker {
    var stage: Stage
    var focalLen: real
    var observedFaceHgt: real
    var actualFaceHgt: real
    var gender: Gender
    var userHeight: real
    var tune: int
    const faceTmpls: FaceTemplates

    /** The scale range of a refresh of the working set (hundredths) and its gate. */
    const smallest: int := 60
    const largest: int := 150
    const updateThresh: real := 0.75

    /** The bank is well formed; no focal length while idle; a positive face height once matching. */
    ghost predicate Valid()
      reads this, faceTmpls
    {
      && faceTmpls.Valid()
      && (stage == NoStage ==> focalLen == 0.0)
      && (stage == MatchFaceStage ==> actualFaceHgt > 0.0)
    }

    /** The state detectFace leaves after calibrating on `face` in `frame`. */
    ghost predicate Calibrated(face: Face, frame: Frame, faceHgtOfUser: real)
      reads this, faceTmpls
    {
      var size := Size(frame.cols, frame.rows);
      && faceHgtOfUser > 0.0
      && stage == MatchFaceStage
      && observedFaceHgt == face.height && actualFaceHgt == faceHgtOfUser
      && focalLen == FocalLength(face.height, userHeight, gender, faceHgtOfUser)
      && faceTmpls.maxSize == size
      && faceTmpls.reference == TemplatesFrom(Crop(face), 100, 10, 10, size)
      && faceTmpls.templates == TemplatesFrom(Crop(face), 110, 60, 5, size)
    }

    constructor ()
      ensures Valid() && fresh(faceTmpls)
      ensures stage == NoStage && focalLen == 0.0 && observedFaceHgt == 0.0 && actualFaceHgt == 0.0
      ensures gender == Male && userHeight == 175.0 && tune == 0
      ensures faceTmpls.reference == [] && faceTmpls.templates == []
    {
      stage := NoStage;
      focalLen := 0.0;
      observedFaceHgt := 0.0;
      actualFaceHgt := 0.0;
      gender := Male;
      userHeight := 175.0;
      faceTmpls := new FaceTemplates();
      tune := 0;
    }

    /** lock: starts tracking. */
    method Lock()
      requires Valid()
      modifies this`stage
      ensures Valid()
      ensures stage == DetectFaceStage
    {
      stage := DetectFaceStage;
    }

    /** unlock: stops tracking and forgets the focal length, nothing else. */
    method Unlock()
      requires Valid()
      modifies this`stage, this`focalLen
      ensures Valid()
      ensures stage == NoStage && focalLen == 0.0
      ensures actualFaceHgt == old(actualFaceHgt) && observedFaceHgt == old(observedFaceHgt)
    {
      stage := NoStage;
      focalLen := 0.0;
    }

    /** The last step of computeFocalLen, for the face height the anthropometric estimate gives. */
    method ComputeFocalLen(observed: real, faceHgtOfUser: real)
      requires faceHgtOfUser > 0.0
      modifies this`observedFaceHgt, this`actualFaceHgt, this`focalLen
      ensures observedFaceHgt == observed && actualFaceHgt == faceHgtOfUser
      ensures focalLen == FocalLength(observed, userHeight, gender, faceHgtOfUser)
    {
      observedFaceHgt := observed;
      actualFaceHgt := faceHgtOfUser;
      var armLength := userHeight / 100.0 / 2.3;
      var dist := armLength - ShoulderOffset(gender);
      focalLen := observedFaceHgt * dist / actualFaceHgt;
    }

    /**
     * detectFace: on the first face the detector reports, switch to matching,
     * calibrate on its height and build the template bank from its crop.
     */
    method DetectFace(frame: Frame, detectorOut: seq<real>, faceHgtOfUser: real)
      requires Valid() && faceHgtOfUser > 0.0
      modifies this`stage, this`observedFaceHgt, this`actualFaceHgt, this`focalLen, faceTmpls
      ensures Valid()
      ensures ParseFaces(detectorOut, frame.cols, frame.rows) == [] ==> unchanged(this) && unchanged(faceTmpls)
      ensures ParseFaces(detectorOut, frame.cols, frame.rows) != [] ==>
        Calibrated(ParseFaces(detectorOut, frame.cols, frame.rows)[0], frame, faceHgtOfUser)
    {
      var faces := DetectFaces(detectorOut, frame.cols, frame.rows);
      if |faces| > 0 {
        stage := MatchFaceStage;
        var rect := faces[0];
        ComputeFocalLen(rect.height, faceHgtOfUser);
        var faceImg := Crop(rect);
        var outcome := faceTmpls.Init(Some(faceImg), Size(frame.cols, frame.rows));
      }
    }

    /**
     * distanceFromMatching: the best match over the working set, rejected
     * below 0.6; a match that is not the original scale, or scores below
     * 0.95, asks the bank to refresh the working set from the matched box.
     */
    method DistanceFromMatching(probes: seq<Probe>, refScores: seq<real>)
      returns (res: Option<DetectionResult>, ghost refreshAsked: bool)
      requires Valid()
      requires |probes| == |faceTmpls.templates| && |refScores| == |faceTmpls.reference|
      modifies faceTmpls`templates
      ensures Valid()
      ensures faceTmpls.reference == old(faceTmpls.reference) && faceTmpls.maxSize == old(faceTmpls.maxSize)
      ensures BestMatch(old(faceTmpls.templates), probes, MatchThresh).Some? ==>
        var b := BestMatch(old(faceTmpls.templates), probes, MatchThresh).value.box;
        b.width >= MinSide && b.height >= MinSide
      ensures res == MatchingOutcome(old(faceTmpls.templates), probes, actualFaceHgt, focalLen, tune)
      ensures refreshAsked <==> res.Some? && Refreshes(res.value)
      ensures
        var m := BestMatch(old(faceTmpls.templates), probes, MatchThresh);
        if refreshAsked && MaxScore(refScores) > updateThresh
        then faceTmpls.templates == TemplatesFrom(FaceImage(m.value.box.width, m.value.box.height),
                                                  largest, smallest, 5, faceTmpls.maxSize)
        else faceTmpls.templates == old(faceTmpls.templates)
    {
      BestMatchFromList(faceTmpls.templates, probes, MatchThresh);
      var m;
      ghost var visited;
      m, visited := GetBestMatch(faceTmpls.templates, probes, MatchThresh);
      refreshAsked := false;
      if m.None? {
        return None, refreshAsked;
      }
      var r := m.value;
      if r.score < MinMatchScore {
        return None, refreshAsked;
      }
      if !r.templateReference.isOriginal || r.score < RefreshScore {
        refreshAsked := true;
        var newFaceImg := FaceImage(r.box.width, r.box.height);
        var outcome := faceTmpls.Update(Some(newFaceImg), smallest, largest, updateThresh, refScores);
      }
      var rect := r.box;
      res := Some(r.(distance := ComputeDistance(actualFaceHgt, focalLen, rect.height as real, tune)));
    }

    /**
     * detect: throws on a missing frame and when idle; while detecting it
     * calibrates and returns null; while matching it returns the measured match.
     */
    method Detect(frame: Option<Frame>, detectorOut: seq<real>, faceHgtOfUser: real,
                  probes: seq<Probe>, refScores: seq<real>)
      returns (r: Result<Option<DetectionResult>>)
      requires Valid() && faceHgtOfUser > 0.0
      requires |probes| == |faceTmpls.templates| && |refScores| == |faceTmpls.reference|
      modifies this`stage, this`observedFaceHgt, this`actualFaceHgt, this`focalLen, faceTmpls
      ensures Valid()
      ensures r.Failure? <==> frame.None? || old(stage) == NoStage
      ensures r.Failure? ==> unchanged(this) && unchanged(faceTmpls)
      ensures frame.Some? && old(stage) == DetectFaceStage ==>
        && r == Success(None)
        && (stage == MatchFaceStage <==> ParseFaces(detectorOut, frame.value.cols, frame.value.rows) != [])
        && (ParseFaces(detectorOut, frame.value.cols, frame.value.rows) != [] ==>
              Calibrated(ParseFaces(detectorOut, frame.value.cols, frame.value.rows)[0], frame.value, faceHgtOfUser))
      ensures frame.Some? && old(stage) == DetectFaceStage && ParseFaces(detectorOut, frame.value.cols, frame.value.rows) == [] ==>
        unchanged(this) && unchanged(faceTmpls)
      ensures frame.Some? && old(stage) == MatchFaceStage ==>
        && stage == MatchFaceStage && focalLen == old(focalLen) && actualFaceHgt == old(actualFaceHgt)
        && observedFaceHgt == old(observedFaceHgt)
        && faceTmpls.reference == old(faceTmpls.reference) && faceTmpls.maxSize == old(faceTmpls.maxSize)
        && r == Success(MatchingOutcome(old(faceTmpls.templates), probes, actualFaceHgt, focalLen, tune))
      ensures frame.Some? && old(stage) == MatchFaceStage ==>
        var m := BestMatch(old(faceTmpls.templates), probes, MatchThresh);
        && (m.Some? ==> m.value.box.width >= MinSide && m.value.box.height >= MinSide)
        && if m.Some? && r.Success? && r.value.Some? && Refreshes(r.value.value) && MaxScore(refScores) > updateThresh
           then faceTmpls.templates == TemplatesFrom(FaceImage(m.value.box.width, m.value.box.height),
                                                     largest, smallest, 5, faceTmpls.maxSize)
           else faceTmpls.templates == old(faceTmpls.templates)
    {
      if frame.None? {
        return Failure("rgbImage is null");
      }
      match stage
      case DetectFaceStage =>
        DetectFace(frame.value, detectorOut, faceHgtOfUser);
        return Success(None);
      case MatchFaceStage =>
        var res, refreshAsked := DistanceFromMatching(probes, refScores);
        return Success(res);
      case NoStage =>
        return Failure("Cannot call this method when stage is NONE");
    }
  }
}
