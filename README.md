# Face-distance tracker: template bank and tracking engine

A Dafny model of the tracking engine of a browser face-distance tracker. The
tracker finds the user's face once with a detection network. It calibrates a
focal length from the face's height and builds a bank of scaled and rotated
face templates. From then on it estimates the distance to the camera on each
frame, using the template that best matches the frame.

The model covers two classes and the records they use:

- `FaceTemplates` (`templates.dfy`). It is a class with `maxSize`, `reference`
  and `templates` fields, and it has three operations:
  - `generateTemplates` is the nested scale/angle loop with its over-scale
    `continue` and under-scale `break`;
  - `init` builds the sparse reference set and the dense working set;
  - `update` is the gate that refreshes the working set.

  Scales are integers in hundredths: 110 stands for 1.1. The function
  `TemplatesFrom` specifies what the loop emits, and lemmas prove the shape of
  a bank from it.
- `FaceTracker` (`tracker.dfy`). It is a class for the three-stage machine
  NONE → DETECT_FACE → MATCH_FACE, with these operations:
  - `lock`, `unlock` and `detect`;
  - `detectFace`, together with the last step of `computeFocalLen`;
  - `distanceFromMatching`, with its 0.6 reject cut-off and its 0.95 refresh
    trigger.
- The sparse coarse-to-fine search `getBestMatch` and the acceptance rule
  `replaceResultOnBetterScore` (`matching.dfy`). The search is written as
  methods with loops. They are proved against `VisitOrder`, which gives the
  indices read in order, and `BestMatch`, which gives the result. The lemmas
  prove three things:
  - which indices are read;
  - that every index read is in bounds;
  - that the result is the first maximum of the scores read.
- `computeDistance` and the focal-length formula (`calibration.dfy`).
- The parse loop of `detectFaces` over the detector's flat output, in records
  of seven values (`detection.dfy`).

Image operations are inputs to the model:

- the correlation search of a template against the frame is a `Probe`: the
  peak score and where it lies;
- the score read for each reference template in `update` is a `real`;
- the detection network's output is a `seq<real>`;
- the user's actual face height, which the anthropometric estimate produces,
  is a positive `real`.

`wrappers.dfy` holds the Option/Result/Outcome datatypes. A source `throw`
becomes a `Failure` or `Fail` value.

`unlock` (js/face-tracker.js:42-45) clears only the focal length; the face
heights and the template bank keep their values.

## Model

| member | source | states |
|---|---|---|
| Templates.Round | js/face-templates.js:54-55 | the template side is `scale * dim` rounded to the nearest integer, halves upward (Math.round) |
| Templates.RoundMonotone | js/face-templates.js:54-55 | a larger scale never gives a smaller template side |
| Templates.TemplatesFromLayout | js/face-templates.js:52-74 | the emitted list is a sequence of blocks of three, and each block shares one scale with angles -15, 0, +15 in that order |
| Templates.BlockLayoutLength | js/face-templates.js:65-74 | a list made of such blocks has a length that is a multiple of 3 |
| Templates.BlockLayoutAt | js/face-templates.js:65-74 | the n-th consecutive triple of such a list is one scale at angles -15, 0, +15 |
| Templates.TemplatesFromDecreasing | js/face-templates.js:52 | scales strictly decrease from block to block |
| Templates.TemplatesFromMembers | js/face-templates.js:52-74 | every emitted template has a scale in [smallest, largest] and an angle in {-15, 0, 15}; its size is the rounded scaled face; it is not over-sized (w < maxSize.width and h < maxSize.height) and not under-sized (w, h >= 20); isOriginal holds exactly when the scale is 1.0 |
| Templates.TemplatesFromIsBank | js/face-templates.js:52-74 | the emitted list is a well-formed bank for its bound: whole blocks, decreasing scales, every template at least 20 px and strictly smaller than maxSize in both dimensions, isOriginal exactly at scale 1.0 |
| Templates.TemplatesFromCompleteAt | js/face-templates.js:52-59 | the k-th grid scale, when it is at least `smallest` and passes both guards, has its template at each angle emitted (no larger scale can have ended the loop, since sizes shrink with the scale) |
| Templates.TemplatesFromComplete | js/face-templates.js:52-59 | for every grid scale at least `smallest` and every angle: when the scale passes both guards its template is emitted, so over-sized scales are skipped, not fatal |
| Templates.TemplatesFromOnGrid | js/face-templates.js:52 | every emitted scale is `largest - k * step` for some k |
| Templates.TemplatesFromStopsBelow | js/face-templates.js:59 | once a scale is under-sized, no template at or below that scale is emitted |
| Templates.MaxScoreIsMax | js/face-templates.js:89-102 | the running maximum from 0.0 is non-negative, bounds every score, and is 0.0 or one of the scores |
| Templates.FaceTemplates.constructor | js/face-templates.js:6-10 | a zero maxSize and empty reference and working sets |
| Templates.FaceTemplates.GenerateTemplates | js/face-templates.js:45-78 | fails exactly when the face image is missing; otherwise returns the list `TemplatesFrom` specifies |
| Templates.FaceTemplates.Init | js/face-templates.js:17-22 | stores maxSize; with a face, sets reference to the 1.0 → 0.1 step 0.1 bank and templates to the 1.1 → 0.6 step 0.05 bank, both well-formed for the new maxSize; with none, fails and leaves both sets as they were |
| Templates.FaceTemplates.Update | js/face-templates.js:87-111 | never changes reference or maxSize; regenerates templates at step 0.05 from the new face exactly when the maximum reference score (from 0.0) exceeds thresh; otherwise templates are unchanged, so an empty reference set never refreshes for thresh >= 0 |
| Calibration.TuneFactor | js/face-tracker.js:194-208 | factors 0.9, 0.95, 1.05 and 1.1 for tune -2, -1, 1 and 2; no factor for any other value |
| Calibration.Clamp | js/face-tracker.js:210 | the result lies in [0, 6.5], equals the input inside it, and is the nearer bound outside it |
| Calibration.ComputeDistance | js/face-tracker.js:192-211 | the tuned distance always lies in [0, 6.5] |
| Calibration.DistanceInverse | js/face-tracker.js:193 | a face seen at `actual * focal / d` pixels gives back the distance d |
| Calibration.CalibrationRoundTrip | js/face-tracker.js:131-134 | with the focal length from calibration, the face seen again at its calibration height with tune 0 is reported at `height/100/2.3 - sff`, clamped to [0, 6.5] |
| Detection.ClampCoord | js/face-tracker.js:344-347 | a clamped coordinate lies in [0, hi] and is unchanged when already inside |
| Detection.KeptFaceInImage | js/face-tracker.js:344-350 | a kept record gives a face with positive width and height inside [0, cols-1] x [0, rows-1] |
| Detection.ParseFromInImage | js/face-tracker.js:338-352 | every face returned is inside the image and has a positive size |
| Detection.ParseFromSound | js/face-tracker.js:338-352 | every face returned is decoded from a full record at a multiple of 7 that passes the filter |
| Detection.ParseFromComplete | js/face-tracker.js:338-352 | every full record at a multiple of 7 that passes the filter yields a returned face |
| Detection.ParseFromMembers | js/face-tracker.js:338-352 | the faces returned are exactly the faces of the full records that pass the filter (both directions) |
| Detection.ParseFromAppend | js/face-tracker.js:338 | faces appear in input order: parsing a concatenation of whole records gives the faces of each part in turn |
| Detection.ParseFromShift | js/face-tracker.js:338 | parsing `a + b` at offset j past the end of `a` is parsing `b` at offset j |
| Detection.DecodeRecord | js/face-tracker.js:339-351 | a record is kept exactly when confidence > 0.5, left < right and top < bottom after clamping; a kept face lies inside the image |
| Detection.DetectFaces | js/face-tracker.js:337-355 | the loop returns exactly the faces `ParseFaces` specifies, all inside the image |
| Matching.ReplaceResultOnBetterScore | js/face-tracker.js:293-306 | replaces score, scale, box and template, and returns true, exactly when the candidate beats both thresh and the current score; otherwise the running best is unchanged |
| Matching.CoarseRange | js/face-tracker.js:256-258 | the coarse pass reads upward from i - 1, and every index it reads is below the length whenever the length is not 2 past a block start (so every bank of whole blocks) |
| Matching.CoarseOverrun | js/face-tracker.js:256-258 | conversely, when the length n is 2 past a block start (n mod 9 = 2), the coarse pass reads index n, past the end of the list |
| Matching.CoarseExact | js/face-tracker.js:256-257 | on a list of whole blocks the coarse pass reads exactly the indices k with k mod 9 in {0, 1, 2} |
| Matching.CoarseIncreasing | js/face-tracker.js:256-257 | the coarse pass reads in strictly increasing index order |
| Matching.LastAcceptedRange | js/face-tracker.js:254-260 | j is -1 or an index the coarse pass read |
| Matching.VisitOrderInBounds | js/face-tracker.js:256-275 | every index getBestMatch reads, coarse and refine, is in [0, length) |
| Matching.BestOverIsMax | js/face-tracker.js:252-275 | the running best bounds every score read above thresh, and is the start value or the first read that reached that maximum |
| Matching.LastAcceptedIsWinner | js/face-tracker.js:254-260 | j is -1 exactly when nothing was accepted; otherwise the running best is built from template j |
| Matching.BestMatchIsFirstMax | js/face-tracker.js:251-283 | null exactly when no score read exceeds both thresh and 0; otherwise the first maximum of the scores read above thresh |
| Matching.BestMatchFromList | js/face-tracker.js:314-325 | a returned match comes from a template in the list, with that template's scale and a box of its size, and a score above 0 and thresh |
| Matching.NoCoarseAcceptanceReadsIndexTwo | js/face-tracker.js:263-275 | when the coarse pass accepts nothing, j = -1 and the refine pass reads only index 2 (when it exists) |
| Matching.Visit | js/face-tracker.js:258-260 | one read folds template k into the running best and sets j to k exactly when it replaced |
| Matching.ScanBlock | js/face-tracker.js:257-261 | the inner loop reads i - 1, i, i + 1 in order and keeps the running best and j equal to their specification |
| Matching.CoarsePass | js/face-tracker.js:256-261 | the coarse loop reads exactly `CoarseOrder`, and r and j are the running best and last acceptance over it |
| Matching.RefinePass | js/face-tracker.js:263-275 | reads j - 3 when it is >= 0 and then j + 3 when it is below the length, folding each into the running best |
| Matching.GetBestMatch | js/face-tracker.js:251-283 | reads exactly the coarse indices followed by j - 3 (if >= 0) and j + 3 (if < length), and returns `BestMatch` |
| Tracker.Pixels | js/face-tracker.js:94 | a non-negative crop size is its whole-pixel floor |
| Tracker.MatchingOutcome | js/face-tracker.js:159-185 | null exactly when there is no match or its score is below 0.6; otherwise the match itself with a distance in [0, 6.5] |
| Tracker.MatchingOutcomeDistance | js/face-tracker.js:178-181 | a returned match's distance is computeDistance of its box height, which is its template's height |
| Tracker.FaceTracker.constructor | js/face-tracker.js:15-30 | stage NONE, zero focal length and heights, male, 175 cm, tune 0, an empty template bank |
| Tracker.FaceTracker.Lock | js/face-tracker.js:35-37 | the stage becomes DETECT_FACE |
| Tracker.FaceTracker.Unlock | js/face-tracker.js:42-45 | the stage becomes NONE and the focal length 0; the face heights keep their values |
| Tracker.FaceTracker.ComputeFocalLen | js/face-tracker.js:131-134 | stores the observed and actual face heights and sets focalLen = observed * (height/100/2.3 - sff) / actual |
| Tracker.FaceTracker.DetectFace | js/face-tracker.js:84-101 | with no face detected nothing changes; otherwise the stage becomes MATCH_FACE, the first face's height calibrates the focal length, and the bank is built from its crop with maxSize the frame size |
| Tracker.FaceTracker.DistanceFromMatching | js/face-tracker.js:159-185 | returns `MatchingOutcome`; asks for a refresh exactly when the returned match is not the original scale or scores below 0.95, and then the working set is regenerated over [0.6, 1.5] from the match's box when the reference scores pass 0.75, otherwise it is unchanged; the reference set, maxSize and face heights never change |
| Tracker.FaceTracker.Detect | js/face-tracker.js:52-77 | fails, changing nothing, exactly on a missing frame or in stage NONE; in DETECT_FACE it returns null, and either calibrates and reaches MATCH_FACE when a face was detected or changes nothing (staying in DETECT_FACE) when none was; in MATCH_FACE it stays there, returns the matching outcome, keeps the focal length, face heights, reference set and maxSize, and regenerates the working set from the match's box exactly when a refresh is asked and the reference scores pass 0.75 |

## Left out

- OpenCV and the detection network are foreign code. Every call becomes an input: `matchTemplate`, `threshold` and `minMaxLoc` (getMatchScore), `resize`, `mean`, `getRotationMatrix2D`, `warpAffine`, `cvtColor`, `roi`, `blobFromImage` and `forward`. Pixels are not modelled, only sizes.
- The anthropometric chain of computeFocalLen (js/face-tracker.js:121-130, 136-145) uses `Math.sqrt` and π over floating point. The actual face height is an input. It must be positive; the chain gives that for every body height except 70.36 (male) or 106.8 (female).
- Tracker.FaceTracker.ComputeFocalLen: requires a positive actual face height, so the source's division by zero (Infinity) is not modelled.
- Templates.FaceTemplates.GenerateTemplates: scales are exact hundredths, so the double-precision accumulation of `s -= step` (js/face-templates.js:52) and the test `s == 1` (js/face-templates.js:72) are idealised. Other quantities are exact reals. In IEEE-754 doubles this changes which templates exist:
  - From 1.1 by 0.05 the loop ends at 0.6499999999999997, so the working set from init has no 0.60 block; the model has one.
  - From 1.5 by 0.05 it passes 0.9999999999999996 and never reaches 1, so a working set regenerated by update (js/face-templates.js:109, called from js/face-tracker.js:169) has no original template and no 0.60 block; the model's has an original block at 1.0.
  - So in the source, once the working set has been regenerated, every match scoring at least 0.6 asks for another refresh (js/face-tracker.js:167). In the model such a match can skip the refresh when it is an original template scoring at least 0.95 (Tracker.FaceTracker.DistanceFromMatching).
  - Scaled sizes near a rounding half can also differ by one pixel from the exact ones.
  - From 1.0 by 0.1 (the reference set) every scale down to 0.1 is visited, as in the model.
- Templates.FaceTemplates.Update: the score read for each reference template is the input `refScores`. The `ucharPtr(0, 0)[0]` read of a float map (js/face-templates.js:97) is not interpreted.
- Tracker.Pixels: assumes a crop of a real-valued rectangle takes the whole-pixel floor of its size.
- Matching.GetBestMatch: requires a list length that is not 2 past a coarse block start (length mod 9 != 2). For those lengths the source reads past the end of the list and throws. Every bank the tracker builds has a length that is a multiple of 3.
- `match` (js/face-tracker.js:220-242) only forwards to getBestMatch; its heat-map code is commented out. The model calls GetBestMatch directly.
- DetectionResult and TemplateType are datatypes (value semantics). replaceResultOnBetterScore returns the updated running best instead of mutating it; that object is local to getBestMatch and is not aliased.
- A trailing detector record with fewer than seven values is dropped. In the source its missing values are `undefined`, which makes every comparison false.
- Memory management is not modelled: `delete`/`dispose`, the leak of `refNorm` in update, and the lazy `grayImage`/`isInit` allocation in detect.
- Drawing (`cv.rectangle`), `console.log` and the `templateRgb` conversion are not modelled.
- The field `matchThresh` (0.75) is never read by the source and is not modelled. The search threshold is the literal 0.0 at js/face-tracker.js:160.
- The gender and user-height fields are set only by the constructor in the modelled code; no setter is part of the model.
- tailwind.config.js is styling configuration and is not part of this model.
