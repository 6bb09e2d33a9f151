# Decode Drawings V5, modelled in Dafny

A drawing robot films the paper from a camera mounted on its pen. The pen carries three coloured balls: red, green and blue. The decoder turns each video frame into a pen position. The drawing is the sequence of positions where the pen was down.

This project models the core of that decoder:

- **Ball contour detector** (`ContourDetection`, `BallContourDetection`):
  - picks out the pixels whose colour strength in one channel exceeds that channel's threshold;
  - seeds a ring of contour points around each channel's pixels;
  - refines the ring by pushing each point outward or inward along the ray from the ring's mean, according to the share of nearby pixels that are over the threshold.
- **Drawing decoder** (`DrawingDecoding`):
  - undistorts each contour and projects it to angles;
  - measures each ball's centroid and radius;
  - smooths them against the previous frame;
  - decides whether the resulting position extends the drawing, is a pen lift to reject, or only re-seeds the last position;
  - also covers trilateration and the text export of the trajectory.
- **Lens correction** (`Undistort`): the single-coefficient division model of radial distortion.
- **Evolvable individual** (`GeneticAlgorithm`): a genotype holding `neutrality + 1` sets of seven decoder parameters, plus a switch per parameter that picks the active set. Covers mutation and building a decoder from the active parameters.
- **Circle fit** (`CircleFit`): a random-sample search for the circle that best fits a set of points, bounded by the larger side of the points' bounding box.
- **Shared helpers** (`Utils`): linear mapping, truncation at a line boundary, the point-list text format, the mean point, distance and the angular projection.

Some parts are given to the model as parameters rather than computed:

- `sqrt`, `sin`, `cos` and `atan` are function-valued parameters (`Maths`). Each lemma states what it needs of them as a precondition.
- `Math.random` is a stream `draws: nat -> real` of values in `[0, 1)`, read from a start index. Operations return the index after their last draw.
- The trigonometric pipeline that turns three measured balls into a pen position is a parameter `pose` of the decoder's `Decode`.
- `circleFrom3Points` and `getCircleError` are parameters `circleFrom` and `circleError` of `CheckCircle`.

Where JavaScript would produce `NaN` or read past an array, the model returns `None` or states a precondition. Each such case is listed below.

## Model

| member | source | states |
|---|---|---|
| Utils.Round | js/drawingDecoderV5.js:102 | Math.round(v) is the integer within half a unit of v: `r - 0.5 <= v < r + 0.5` |
| Utils.Abs | js/drawingDecoderV5.js:100 | Math.abs is non-negative and equals v or -v |
| Utils.Map | js/utils.js:4-8 | the result's offset from toMin over the target span equals the input's offset from fromMin over the source span |
| Utils.MapEndpoints | js/utils.js:4-8 | map sends fromMin to toMin and fromMax to toMax |
| Utils.MapAffine | js/utils.js:4-8 | map preserves affine combinations, so it is the linear interpolation between the two ranges |
| Utils.LastIndexOf | js/utils.js:52 | lastIndexOf('\n', limit) finds the last newline at or before the clamped start, or -1 when there is none |
| Utils.Truncate | js/utils.js:48-54 | a text within the limit is returned unchanged; a longer one is cut at the last newline at or before the limit (or at 0 when there is none) and ends with "\n..." |
| Utils.PointsArrayToTextLines | js/utils.js:22-24 | the text is empty exactly when there are no points |
| Utils.LinesOfJoin | js/utils.js:23 | splitting `a + "\n" + b` on newlines gives the lines of a followed by b, with one more newline |
| Utils.TextLinesRoundTrip | js/utils.js:22-24 | splitting the text on "\n" gives back one "x y" line per point, in order, with one newline fewer than points |
| Utils.Mean | js/utils.js:80-92 | the mean point times the number of points gives the sums of the x and of the y coordinates |
| Utils.AveragePoint | js/utils.js:80-92 | the accumulating loop computes the mean point (sums divided by the count) |
| Utils.MeanOfOne | js/utils.js:80-92 | the mean of one point is that point |
| Utils.MeanInsideBox | js/utils.js:80-92 | the mean lies inside any axis-aligned box that holds all the points |
| Utils.SquaredDistance | js/utils.js:58-60 | the sum of squared coordinate differences is never negative |
| Utils.Distance | js/utils.js:58-60 | the distance is never negative when the square root never is |
| Utils.DistanceSymmetric | js/utils.js:58-60 | distance(p1, p2) == distance(p2, p1) |
| Utils.DistanceToSelf | js/utils.js:58-60 | a point is at distance 0 from itself when sqrt(0) is 0 |
| Utils.CartesianToAngular | js/utils.js:68-76 | when atan(0) is 0, a point level with the optical centre on an axis has angle 0 on that axis |
| Utils.AnglesPerAxis | js/utils.js:68-76 | the horizontal angle depends only on x and the vertical angle only on y |
| Utils.CentreOnAxis | js/utils.js:68-76 | the optical centre projects to angle (0, 0) |
| Undistort.UndistortPoint | js/undistort.js:6-13 | the output's offset from the centre, times the factor 1 + k1·r², is the input's offset |
| Undistort.NoDistortionIsIdentity | js/undistort.js:6-13 | k1 = 0 leaves every point in place |
| Undistort.CentreIsFixed | js/undistort.js:6-13 | the distortion centre never moves |
| Undistort.OutputOnRay | js/undistort.js:6-13 | with a positive factor the output lies on the ray from the centre through the input |
| Undistort.ScaledDistance | js/undistort.js:6-13 | the squared distance from the centre is divided by the squared factor |
| Undistort.PincushionPullsIn | js/undistort.js:5-13 | k1 ≥ 0 (pincushion) moves points toward the centre, never away |
| Undistort.BarrelPushesOut | js/undistort.js:5-13 | k1 < 0 (barrel) with a positive factor moves points away from the centre, never toward it |
| ContourDetection.ToPoints | js/ballContourDetector.js:27 | each pixel becomes the point with the same coordinates, in order |
| ContourDetection.ColourStrength | js/ballContourDetector.js:48-54 | the strength is defined exactly when the pixel's three samples lie inside the buffer |
| ContourDetection.StrengthRange | js/ballContourDetector.js:48-54 | for byte samples the strength lies in [-255, 255] |
| ContourDetection.DominantChannel | js/ballContourDetector.js:48-54 | when one channel is strictly the largest, its strength is positive and every other channel's is negative |
| ContourDetection.Qualifying | js/ballContourDetector.js:16-32 | a channel collects at most one pixel per pixel of the image |
| ContourDetection.ScanPixels | js/ballContourDetector.js:14-32 | the pixel loop collects, per channel, exactly the pixels whose strength exceeds that channel's threshold, in scan order |
| ContourDetection.QualifyingSound | js/ballContourDetector.js:16-32 | every collected pixel lies in the image's columns and is over the threshold |
| ContourDetection.QualifyingOrdered | js/ballContourDetector.js:16-32 | the collected pixels are in strictly increasing scan order, so none is collected twice |
| ContourDetection.QualifyingComplete | js/ballContourDetector.js:16-32 | every pixel over the threshold is collected |
| ContourDetection.CollectedInsideImage | js/ballContourDetector.js:16-32 | for a well-sized RGBA buffer every collected pixel lies inside the image |
| ContourDetection.Strengths | js/ballContourDetector.js:79-80 | one strength per neighbour cell, read at that cell's RGBA index |
| ContourDetection.ColumnCellsBounds | js/ballContourDetector.js:77-81 | the inner loop yields at most k cells, all in its column, its y range and the search bounds |
| ContourDetection.WindowCellsCount | js/ballContourDetector.js:76-83 | the nested loops yield at most kx·ky cells |
| ContourDetection.WindowCellsInside | js/ballContourDetector.js:76-83 | every cell lies in the window and inside the search bounds |
| ContourDetection.NeighbourhoodBounds | js/ballContourDetector.js:76-83 | at most (2s+1)² neighbours, each within s of the centre on both axes and within the inclusive bounds 0..width and 0..height |
| ContourDetection.NeighbourhoodSize | js/ballContourDetector.js:76-83 | the neighbourhood has at most (2s+1)² cells |
| ContourDetection.NeighbourhoodInside | js/ballContourDetector.js:76-83 | every neighbour cell lies within s of the centre and within the inclusive bounds |
| ContourDetection.LastRowReadsPastEnd | js/ballContourDetector.js:78-80 | the inclusive bound y <= height admits a cell whose RGBA index is past the end of the buffer, where the strength is undefined |
| ContourDetection.InclusiveBoundAdmitsOutsideCell | js/ballContourDetector.js:78-80 | in a 1x1 image the cell (1, 1) passes the bounds check and is read at index 8, outside the 4-byte buffer |
| ContourDetection.SampleNeighbours | js/ballContourDetector.js:74-83 | the nested loops collect the strengths of exactly the neighbourhood cells, column by column |
| ContourDetection.CountOver | js/ballContourDetector.js:85-88 | the count of samples over the threshold is at most the number of samples |
| ContourDetection.NetEffect | js/ballContourDetector.js:85-90 | the net effect is defined exactly when there are neighbours, and it lies in [-0.5, 0.5] |
| ContourDetection.MovePoint | js/ballContourDetector.js:92-100 | a point moves exactly when it is not at the mean, and then along the ray from the mean, its offset scaled by the net effect over its distance |
| ContourDetection.RefineStep | js/ballContourDetector.js:73-104 | a point's step is defined exactly when its neighbourhood has cells and the point is not at the mean; it moves by the net effect of those cells and is settled exactly when 40% to 60% of them are over the threshold |
| ContourDetection.SettledShare | js/ballContourDetector.js:102-104 | \|over/total − 0.5\| ≤ 0.1 holds exactly when 4·total ≤ 10·over ≤ 6·total |
| ContourDetection.MoveShiftsDistance | js/ballContourDetector.js:92-100 | a moved point's distance from the mean changes by exactly the net effect |
| ContourDetection.Steps | js/ballContourDetector.js:71-106 | one move per point, each against the pass's mean |
| ContourDetection.CombineDefined | js/ballContourDetector.js:71-106 | a pass succeeds exactly when every point's move is defined |
| ContourDetection.CombineSnoc | js/ballContourDetector.js:71-106 | extending a pass by one move appends that point and conjoins its settled flag |
| ContourDetection.CombinePointwise | js/ballContourDetector.js:71-106 | a successful pass holds each point's moved position, and it converged exactly when every point settled |
| ContourDetection.PassPointwise | js/ballContourDetector.js:68-106 | a pass is defined exactly when every move is defined; then point i is point i's move against the mean, and converged holds exactly when every move settled |
| ContourDetection.Refine | js/ballContourDetector.js:61-110 | the refinement keeps the number of points |
| ContourDetection.RefineFacts | js/ballContourDetector.js:61-110 | refinement keeps the number of points; it stops after `iterations` passes unless a pass converged, and a converging pass is counted |
| ContourDetection.RefinePass | js/ballContourDetector.js:71-106 | the in-place loop over the array leaves exactly the pass's moved points and reports whether every point settled |
| ContourDetection.RefinePoints | js/ballContourDetector.js:57-114 | the while loop of passes returns the refinement of the copied points |
| ContourDetection.CirclePointOnCircle | js/ballContourDetector.js:117-127 | each seeded point lies on the circle of the given centre and radius when cos² + sin² = 1 |
| ContourDetection.CirclePoints | js/ballContourDetector.js:117-127 | there are activePoints seeded points |
| ContourDetection.InitPoints | js/ballContourDetector.js:117-127 | the loop yields activePoints points, point i at angle 2πi/activePoints on the circle |
| ContourDetection.RefinedContour | js/ballContourDetector.js:57-114 | refinement with the default 50 passes and search size 3 keeps the number of points |
| BallContourDetection.SeedRadius | js/ballContourDetector.js:35 | the seed radius times 1.8 is the square root of the pixel count, and it is never negative when that root is not |
| BallContourDetection.Seed | js/ballContourDetector.js:34-41 | the seed ring has activePoints points |
| BallContourDetection.ContourFrom | js/ballContourDetector.js:34-41 | a contour exists only for a channel with at least one pixel, and it has activePoints points |
| BallContourDetection.ChannelContour | js/ballContourDetector.js:14-41 | a channel yields a contour only when some pixel of the image exceeds its threshold, and the contour has activePoints points |
| BallContourDetection.BallContourDetector.constructor | js/ballContourDetector.js:6-9 | the detector keeps the given point count and thresholds |
| BallContourDetection.BallContourDetector.Default | js/ballContourDetector.js:6 | by default 15 contour points and a threshold of 40 per channel |
| BallContourDetection.BallContourDetector.ContourOf | js/ballContourDetector.js:34-41 | one channel's contour is its refined seed ring with that channel's threshold |
| BallContourDetection.BallContourDetector.Detect | js/ballContourDetector.js:12-45 | each channel's contour is the refined ring seeded from exactly the pixels over that channel's threshold |
| DrawingDecoding.Index | js/drawingDecoderV5.js:137 | the colours are visited in the order red, green, blue |
| DrawingDecoding.Projected | js/drawingDecoderV5.js:149-151 | each contour point is undistorted, then projected to angles, in order |
| DrawingDecoding.RawBall | js/drawingDecoderV5.js:149-155 | a raw ball is centred on the mean of the projected contour, with the mean distance to that centre as its radius |
| DrawingDecoding.SmoothedBall | js/drawingDecoderV5.js:157-177 | a colour seen for the first time reports its raw ball; otherwise, for smooth in [0, 1], each of the centre's coordinates and the radius lies between the raw and the remembered value |
| DrawingDecoding.BlendBetween | js/drawingDecoderV5.js:163-166 | for smooth in [0, 1] the smoothed value lies between the new and the remembered value |
| DrawingDecoding.NoSmoothingKeepsRaw | js/drawingDecoderV5.js:163-166 | smooth = 0 reports the raw measurement |
| DrawingDecoding.FullSmoothingFreezes | js/drawingDecoderV5.js:163-166 | smooth = 1 reports the remembered ball unchanged |
| DrawingDecoding.FirstSightingUnsmoothed | js/drawingDecoderV5.js:169-174 | a ball seen for the first time is reported unsmoothed |
| DrawingDecoding.SumDistancesNonNegative | js/drawingDecoderV5.js:155 | the summed distances to the centroid are never negative |
| DrawingDecoding.RadiusNonNegative | js/drawingDecoderV5.js:154-155 | a raw ball's radius, the mean distance to the centroid, is never negative |
| DrawingDecoding.Rounded | js/drawingDecoderV5.js:102-107 | a stored position has x and y rounded to within half a unit, and z kept |
| DrawingDecoding.Step | js/drawingDecoderV5.js:96-124 | a frame only extends the drawn and rejected lists, and the last position is cleared exactly when the frame is rejected, otherwise set to the frame's position |
| DrawingDecoding.StillFrameOnlySeeds | js/drawingDecoderV5.js:96-124 | without a previous position, or when x and y are unchanged, nothing is stored and the position is remembered |
| DrawingDecoding.MoveRejectedIff | js/drawingDecoderV5.js:96-108 | a move is rejected (stored in rejected, and the last position cleared) exactly when checkZ holds and z is over the threshold or changed steeply; otherwise it is appended to the drawing |
| DrawingDecoding.UncheckedMovesAccepted | js/drawingDecoderV5.js:96-124 | without checkZ every move is drawn and remembered |
| DrawingDecoding.StepAppendsAtMostOne | js/drawingDecoderV5.js:96-124 | a frame only appends, at most one position in total, and appends one exactly when the pen moved |
| DrawingDecoding.RejectionThenReseed | js/drawingDecoderV5.js:100-124 | after a rejection the next frame only re-seeds the last position and draws nothing |
| DrawingDecoding.Run | js/drawingDecoderV5.js:96-124 | over a run of frames the drawn and rejected lists only grow at the end |
| DrawingDecoding.RunAppendOnly | js/drawingDecoderV5.js:96-124 | over many frames both lists only grow, by at most one per frame; the last frame's position is remembered unless it was rejected |
| DrawingDecoding.UncheckedRunRejectsNothing | js/drawingDecoderV5.js:100-105 | without checkZ nothing is ever rejected |
| DrawingDecoding.Trilaterate | js/drawingDecoderV5.js:201-205 | the point's squared distances to (-A, 0) and to the origin differ by B² − C², so it lies on the radical line of the two circles |
| DrawingDecoding.TrilaterateMeetsBothSides | js/drawingDecoderV5.js:201-205 | with an exact square root, the point is at distance C from the origin and at distance B from (-A, 0), with y ≥ 0 |
| DrawingDecoding.TrilaterateRecoversPosition | js/drawingDecoderV5.js:201-205 | trilaterating the distances of a point above the base gives back that point |
| DrawingDecoding.Flats | js/drawingDecoderV5.js:211 | the exported trajectory keeps x and y of each stored position, in order |
| DrawingDecoding.TrajectoryTextLines | js/drawingDecoderV5.js:210-212 | the text has one "x y" line per stored position, in order |
| DrawingDecoding.GatheredIsBallsOf | js/drawingDecoderV5.js:131-187 | the per-colour loop gives the smoothed ball of every colour |
| DrawingDecoding.GatherBalls | js/drawingDecoderV5.js:137-183 | the loop over the colours returns each colour's measured ball and remembers each reported ball |
| DrawingDecoding.DrawingDecoder.constructor | js/drawingDecoderV5.js:23-47 | a new decoder has the given options, empty collector and rejected lists, no last position and no remembered balls |
| DrawingDecoding.DrawingDecoder.GetBallsFromContours | js/drawingDecoderV5.js:131-187 | returns the smoothed balls measured from the contours, remembers exactly the reported balls, and leaves the trajectory alone |
| DrawingDecoding.DrawingDecoder.Decode | js/drawingDecoderV5.js:51-126 | one frame moves the decoder's state by the transition Step at the frame's pose, and remembers the frame's balls |
| DrawingDecoding.DrawingDecoder.ToString | js/drawingDecoderV5.js:210-212 | the text is empty exactly when nothing has been drawn |
| GeneticAlgorithm.RepeatLength | js/geneticAlgorithm/individual.js:53-55 | pushing the parameters neutrality + 1 times gives (neutrality + 1)·7 genes |
| GeneticAlgorithm.RepeatBlock | js/geneticAlgorithm/individual.js:53-55 | every block of seven genes is a copy of the parameters |
| GeneticAlgorithm.Active | js/geneticAlgorithm/individual.js:82-84 | active parameter i is the gene at i + switch[i]·paramCount |
| GeneticAlgorithm.WellFormedSelectable | js/geneticAlgorithm/individual.js:96-98 | switches in 0..neutrality always select a gene inside the genotype |
| GeneticAlgorithm.FreshSelectsParams | js/geneticAlgorithm/individual.js:47-55 | whatever set each switch selects in a fresh genotype, the active parameters are the starting parameters |
| GeneticAlgorithm.MutatedGenes | js/geneticAlgorithm/individual.js:64-67 | gene i becomes gene + draw·2·rate − rate with rate = rates[i mod paramCount], one draw per gene in order |
| GeneticAlgorithm.MutatedGenesWithinRate | js/geneticAlgorithm/individual.js:64-67 | every gene moves by at most its rate, and with a positive rate stays strictly below gene + rate, since a draw is below 1 |
| GeneticAlgorithm.SwitchValueInRange | js/geneticAlgorithm/individual.js:69-75 | a switch that is redrawn lands in 0..neutrality |
| GeneticAlgorithm.MutatedSwitches | js/geneticAlgorithm/individual.js:69-75 | mutation keeps the number of switches, and each switch takes one or two draws |
| GeneticAlgorithm.MutatedSwitchesInRange | js/geneticAlgorithm/individual.js:69-75 | mutation keeps the number of switches and keeps every switch in 0..neutrality |
| GeneticAlgorithm.NoSwitchRateKeepsSwitches | js/geneticAlgorithm/individual.js:69-75 | with a switch rate of 0 no switch changes, and each takes exactly one draw |
| GeneticAlgorithm.DecoderOptions | js/geneticAlgorithm/individual.js:100-106 | the decoder options give back the seven parameters, carry the given smoothing and z settings, and keep the default ball radius |
| GeneticAlgorithm.ParamsOf | js/geneticAlgorithm/individual.js:100-106 | a decoder's options give back seven parameters |
| GeneticAlgorithm.OptionsRoundTrip | js/geneticAlgorithm/individual.js:100-106 | the seven parameters and the decoder options built from them determine each other |
| GeneticAlgorithm.DefaultsAgree | js/geneticAlgorithm/individual.js:8-11 | the individual's default parameters give exactly the decoder's default options |
| GeneticAlgorithm.Individual.constructor | js/geneticAlgorithm/individual.js:33-56 | a parentless individual has switch rate 0.1/7, all switches 0 and neutrality + 1 copies of the parameters as genes |
| GeneticAlgorithm.Individual.Child | js/geneticAlgorithm/individual.js:20-31 | a child copies the parent's hyperparameters and holds the parent's genotype mutated |
| GeneticAlgorithm.Individual.Mutation | js/geneticAlgorithm/individual.js:62-77 | a mutated genotype keeps the number of genes and switches and stays well formed |
| GeneticAlgorithm.Individual.Mutate | js/geneticAlgorithm/individual.js:62-77 | mutation replaces the genotype by its mutation, drawing for the genes first and then for the switches, and keeps it well formed |
| GeneticAlgorithm.Individual.ActiveParams | js/geneticAlgorithm/individual.js:96-98 | there are always seven active parameters |
| GeneticAlgorithm.Individual.GetDecoder | js/geneticAlgorithm/individual.js:90-108 | the new decoder's focal length, optical centre, k1 and tilt factor are the active parameters, with the given smoothing and z settings; it starts with empty drawn and rejected lists, no last position and no remembered balls |
| GeneticAlgorithm.Individual.ToString | js/geneticAlgorithm/individual.js:81-86 | the description starts with "fx: " |
| CircleFit.MaxBound | js/circleFit.js:70 | the bound is at least the width and the height of the bounding box, and equals one of them |
| CircleFit.GetMaxBound | js/circleFit.js:56-72 | the loop computes the larger side of the bounding box, starting from ∓MAX_VALUE |
| CircleFit.BoxContainsPoints | js/circleFit.js:56-72 | every finite point lies within the running extremes |
| CircleFit.MaxBoundNonNegative | js/circleFit.js:56-72 | for a non-empty list of finite points the bound is not negative |
| CircleFit.IndexInRange | js/circleFit.js:78 | floor(draw·n) of a draw in [0, 1) is an index in [0, n) |
| CircleFit.Pick | js/circleFit.js:82-85 | a retry sequence that succeeds gives two indices in range that differ from each other and from the first, after at least one and at most `left` pairs of draws |
| CircleFit.PickDraws | js/circleFit.js:82-85 | the two indices Pick returns are floor(draw·n) of the last two draws it used |
| CircleFit.PickChooses | js/circleFit.js:76-89 | after the first draw, a successful Pick gives three distinct in-range indices of at least three points, ending one to `budget` pairs of draws later |
| CircleFit.Candidates | js/circleFit.js:16-18 | the candidates are one circle per iteration, and there are candidates only when there are at least three points |
| CircleFit.CandidatesThrough | js/circleFit.js:16-18 | every candidate is the circle through the points at three different indices |
| CircleFit.Choose3Points | js/circleFit.js:76-89 | the first index is floor(draw·n) of the first draw, and the other two are those of the last two draws used; the three are in range and pairwise distinct, the triple holds their points, and at least three points are needed; one draw, then two per retry, and the loop gives exactly what Pick gives |
| CircleFit.Descends | js/circleFit.js:20-27 | a best-error history in which each step takes the candidate's error when it is plausible and smaller, and otherwise keeps the previous best, never goes up |
| CircleFit.CheckCircle | js/circleFit.js:6-41 | the candidates tried are exactly those Candidates gives for the draws, and the result is None exactly when Candidates is; the best error starts at MAX_VALUE, and after each candidate becomes that candidate's error when it is plausible and smaller, and otherwise stays, so it never increases; it is at most the error of every plausible candidate tried; when it is below MAX_VALUE, the best circle is a plausible tried candidate with that error, built from three of the input points |

## Left out

- The trigonometric pipeline of `decode` is not modelled (js/drawingDecoderV5.js:56-93). It covers `#getRange`, the triangle geometry, the expected angles and the tilt correction. Its result enters as the parameter `pose`, so the model covers only what is done with the position.
- `circleFrom3Points` and `getCircleError` are parameters of `CheckCircle`, because they are floating-point geometry.
- The canvas drawing (`ctx`) in `decode`, `checkCircle` and `main.js` is not modelled. It has no effect on the results.
- `round`, `objectToJSConst` and `downloadText` from js/utils.js are not modelled. They are browser I/O and display formatting.
- `main.js`, `contours.js` and the genetic algorithm driver `algorithm.js` are not part of this model.
- Floating point is not modelled: numbers are exact reals.
- `Math.sqrt`, `Math.sin`, `Math.cos` and `Math.atan` are uninterpreted parameters.
- `Number.MAX_VALUE` keeps its exact value, but overflow to `Infinity` is not modelled.
- `NaN` is not modelled. Each place where it would arise is a precondition or an `Option`:
  - an empty channel (`#averagePoints` of no pixels) gives no contour (`None`);
  - a neighbourhood with no cells, or a point at zero distance from the mean, makes its refinement pass `None`;
  - an empty contour, whose `averagePoint` divides by zero, is excluded by `Projectable` (and so by `Measurable`);
  - a zero focal length or a zero distortion factor is excluded by `Measurable`;
  - a sample read past the pixel buffer is an undefined strength that is never over the threshold.
  - a zero source span in `map` (js/utils.js:4-8) divides by zero; `Map` requires `fromMax != fromMin`, which every call holds, since `decode` passes the constant spans −12 to 4 and 17 to 33 (js/drawingDecoderV5.js:67-68);
  - a zero base `A` in `#trilaterate` (js/drawingDecoderV5.js:201-205) divides by zero; `Trilaterate` and `AlongBase` require `a != 0.0`, which every call holds, since `decode` passes 9 and the triangle height √(9² − 4.5²) (js/drawingDecoderV5.js:15, 63-64);
  - a zero image width makes the pixel scan's `pIndex % imgData.width` NaN (js/ballContourDetector.js:18-20); `ScanPixels`, `Qualifying`, `ChannelContour` and `Detect` require `img.width > 0`, which every image the detector is given has.
- Utils.AveragePoint: requires a non-empty list. The source divides by the length, so an empty list gives `NaN`; every caller in the model passes a non-empty list.
- Undistort.UndistortPoint: uses r² directly, not the square of `Math.sqrt` of it.
- `Math.random` is modelled as a stream of draws in `[0, 1)` indexed from a start position, so randomness is a parameter. The members that draw require every draw to lie in `[0, 1)`, as `Math.random` guarantees.
- CircleFit.Choose3Points: retries at most `budget` times and returns `None` when the budget runs out. The source loops forever on fewer than three points.
- CircleFit.CheckCircle: returns `None` when a choice of three points runs out of its budget. It does not model the drawing of the best circle.
- CircleFit.GetMaxBound: for an empty list it gives −2·MAX_VALUE where the source overflows to `-Infinity`.
- DrawingDecoding.GatherBalls: generic over the measuring function, and it builds the remembered map in a local variable. `GetBallsFromContours` assigns that map to the decoder's field once after the loop, rather than updating it per colour. The remembered balls are the same.
- DrawingDecoding.DrawingDecoder.ToString: formats numbers through the parameter `show`, standing for JavaScript's number-to-string conversion.
- GeneticAlgorithm.Individual.ToString: formats numbers through the parameter `show`. Its contract states only the leading label.
- GeneticAlgorithm.Individual.constructor: takes the parameters and rates as two seven-element sequences rather than named options.
- GeneticAlgorithm.Individual.Child: copies the parent's `rates` by value. The source shares the array with the parent, but no code ever mutates it, so nothing observable differs.
- Neutrality is a natural number. A fractional neutrality is not modelled.
- ContourDetection.RefinePass: takes the per-point move as a function-valued parameter. `RefinePoints` passes it the refinement step for the image.
