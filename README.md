# CIV102 bridge analysis, modelled in Dafny

The repository sizes a matboard beam bridge that a train crosses. The
project models both of its packages.

- **Current package (`bridger/`).**
  - Cross-sections:
    - primitive sections: rectangles and circles;
    - composites of placed primitives;
    - three presets: the hollow box, the I-beam and the course girder.
  - A simply supported beam bridge, with:
    - support reactions;
    - shear and bending-moment lists;
    - expanded diagrams on a grid;
    - flexural and shear stresses;
    - safety factors.
  - An evaluator. It drives the train across in steps and collects three safety-factor series. From them it finds dead zones (stretches of positions where a factor is below the threshold). It also takes the maximum load from a pass at unit load.
  - A grid-search optimiser for the section's parameters.
- **Older package (`bridge/`).** Its cross-sections, its bridge, and its evaluator, which searches for the maximum load by doubling and halving the train load. The search is modelled with the repaired dead_zones (`LegacyEvaluation.Zones`), because as written its first probe raises TypeError (see Findings).
- **Scripts.** The feasibility rules of the two optimisation scripts.

## How the model is built

**Values and functions.** Sections, keyword dictionaries, series and outcomes are datatypes. The calculations over them are functions:

- `Geometry`, `LegacyGeometry`: cross-sections.
- `Beam`: the beam diagrams and stresses.
- `Runs`: run extraction.
- The specification halves of `Evaluation` and `Optimization`.

**Classes and methods.** The objects the source updates in place are classes:

- `Beam.BeamBridge`, `LegacyBeam.Bridge`: the bridge, with its train load, loads, wheel positions and section.
- `Evaluation.Evaluator`, `LegacyEvaluation.LegacyEvaluator`: the evaluators, which move the train and change its load.
- `Optimization.BeamOptimizer`: the optimiser, which installs sections on the bridge.
- `Scripts.ParamDict`: the dicts the rules write into.

Their loops are methods, each proved against a specification function. The properties are then proved about those functions.

**Exceptions.** A Python exception is an `Err` of a `Result`. The modelled kinds are ValueError, ZeroDivisionError, NotImplementedError, TypeError, KeyError, OverflowError and IndexError. When several queries could fail, the first one to fail decides the error.

**Main properties proved:**

- Equilibrium. The reactions carry the train load. The shear list closes at zero. The moment list vanishes at both supports.
- Every stress, and so every safety factor, scales linearly with the train load. This is the rationale the source gives for `maximum_load`. The proved consequence: for every load P > 0, all safety factors of the pass at load P are at least 1 exactly when P is at most the maximum load found at unit load.
- Run extraction lists each maximal run of true entries exactly once. The two packages' versions agree when the step is 1.
- The grid search returns the first best candidate. The optimiser's result is the load of the candidate whose section it returns.
- The doubling-and-halving search of the older evaluator, with the repaired dead_zones (`LegacyEvaluation.Zones`):
  - it returns 0 exactly when the unit load already fails;
  - any other value it returns is positive;
  - a bridge that never fails makes it loop forever.

**Some behaviours are modelled as written:**

- **Number of positions.** The evaluator computes it as `int(length + first - last / dx)`, with the division applied to the last wheel only.
- **Grid spacing.** `x_linespace` spaces its `length / dx` points `length / (n - 1)` apart, not `dx` apart (`Beam.XLinespaceStep`).
- **Glued girder.** A glued girder lists `glue_y` among its keywords, but its constructor does not accept that keyword. So a search around a glued girder raises TypeError on its first candidate (`Optimization.GluedGirderFails`).

**Definitions the rows rely on.** `Geometry.Area`, `Geometry.QMax` and `LegacyGeometry.Area` model `area()` and `q_max()` as plain definitions. Their properties are stated by `Geometry.AreaAdditive`, `Geometry.QMaxRect` and `LegacyGeometry.AreaAdditive`, and they are used by the centroid, stress and sub-section rows.

## Model

| member | source | states |
|---|---|---|
| Common.Max | bridger/prototype.py:155 | max() of a non-empty list: an upper bound of every element, attained by one of them |
| Common.Min | bridger/prototype.py:155 | min() of a non-empty list: a lower bound of every element, attained by one of them |
| Common.MaxScale | bridger/prototype.py:155 | scaling a list by a positive factor scales its max() by that factor |
| Common.MinScale | bridger/prototype.py:155 | scaling a list by a positive factor scales its min() by that factor |
| Geometry.PAreaAbove | bridger/cross_section.py:81-135 | area of a rectangle or circle above a cut; raises ValueError exactly when the cut is outside [0, height) |
| Geometry.PQ | bridger/cross_section.py:90-142 | first moment above the cut; raises ValueError exactly outside [0, height) |
| Geometry.PSubAbove | bridger/cross_section.py:95-146 | a rectangle cut at y gives the rectangle b x (h - y) when 0 <= y < h; a circle always raises NotImplementedError, and a rectangle cut outside the range raises ValueError |
| Geometry.RectCutQueries | bridger/cross_section.py:81-98 | for a rectangle: the area above 0 is the whole area; q is the area above times half the remaining height; the sub-section above has exactly that area and that moment |
| Geometry.CircleAreaAbove | bridger/cross_section.py:131-135 | the circle's segment formula yields the whole disc at every admissible cut |
| Geometry.Width | bridger/cross_section.py:160-162 | a composite's width is the largest child extent, attained by a child; an empty composite raises |
| Geometry.Height | bridger/cross_section.py:168-170 | a composite's height is the largest child top, attained by a child; an empty composite raises |
| Geometry.MinWidth | bridger/cross_section.py:164-166 | a plain composite's narrowest width is the smallest child width, attained by a child; an empty composite raises |
| Geometry.CentroidAlong | bridger/cross_section.py:207-212 | the centroid times the total area is the first moment; a zero total area raises ZeroDivisionError |
| Geometry.Centroid | bridger/cross_section.py:214-216 | the pair of the two axis centroids; it fails exactly when the first one does |
| Geometry.Inertia | bridger/cross_section.py:172-184 | an empty composite has second moment 0; otherwise the result is the vertical parallel-axis sum about the centroid, and it fails exactly when the centroid does |
| Geometry.CheckY | bridger/cross_section.py:190-192 | a cut is accepted exactly when the height exists and 0 <= y < height |
| Geometry.Crossed | bridger/cross_section.py:196-199 | keeps exactly the children whose vertical extent contains the cut |
| Geometry.CrossedCount | bridger/cross_section.py:196-199 | each crossed child is kept as often as it occurs among the children, every other child dropped |
| Geometry.CrossedIndices | bridger/cross_section.py:196-199 | the indices of the crossed children: increasing, within the list, and holding a child's index exactly when the cut crosses it |
| Geometry.CrossedInOrder | bridger/cross_section.py:196-199 | the filter keeps the source's order: its i-th entry is the child at the i-th crossed index |
| Geometry.SelectComponentsAbove | bridger/cross_section.py:194-199 | after the range check, exactly the crossed children |
| Geometry.ComputeCentroidAlong | bridger/cross_section.py:207-212 | the accumulator loop equals the centroid along the axis |
| Geometry.ComputeQ | bridger/cross_section.py:218-230 | the range check, the selection and the loop over crossed children equal the composite q |
| Geometry.QFold | bridger/cross_section.py:222-230 | the loop over children that all cross the cut sums each piece's moment above the cut, stopping at the first piece that raises |
| Geometry.ComputeSubAbove | bridger/cross_section.py:232-243 | the loop collecting pieces equals the composite sub_above: a plain composite of the pieces dropped onto the cut, and TypeError for a preset, whose constructor takes other arguments |
| Geometry.FromKwargs | bridger/cross_section.py:246-316 | building a section from keywords either raises TypeError or gives a well-formed section of the requested class |
| Geometry.KwargsRoundTrip | bridger/cross_section.py:246-316 | rebuilding from a section's own keywords: primitives, the hollow box and the I-beam come back unchanged; an unglued girder comes back glued; a glued girder and a plain composite raise TypeError |
| Geometry.GlueYRejected | bridger/cross_section.py:289-316 | keywords holding glue_y never build a girder |
| Geometry.PresetFacts | bridger/cross_section.py:246-320 | each preset's narrowest width (2t, bw, 2t) and its keyword set; a girder lists glue_y exactly when glued; the deck is always 100 x 1.27 at the girder's height |
| Geometry.SingleChild | bridger/cross_section.py:149-216 | a composite of one child at the origin reproduces that child's area, extents, centroid and second moment; a zero-area child raises on the centroid |
| Geometry.ParallelAxisBound | bridger/cross_section.py:181-184 | with non-negative areas, the composite's second moment is at least the sum of the children's |
| Geometry.QOfRectComposite | bridger/cross_section.py:218-230 | for a composite of rectangles, q is the sum of each crossed child's own q at its relative cut |
| Geometry.AreaAdditive | bridger/cross_section.py:186-188 | area() of a composite is additive: joining two lists of children adds their areas, wherever the children are placed |
| Geometry.QMaxRect | bridger/cross_section.py:47-48 | q_max of a b x h rectangle exists exactly when h > 0, and is then b h^2 / 8 |
| Geometry.SubAboveArea | bridger/cross_section.py:201-243 | for rectangles, the section above the cut has exactly the area that area_above reports |
| Geometry.CircleCrossingFails | bridger/cross_section.py:218-243 | a circle crossed by the cut makes q and sub_above raise NotImplementedError |
| Geometry.FoldErrKind | bridger/cross_section.py:218-243 | q and sub_above over crossed children can fail only with NotImplementedError |
| Geometry.IBeamArea | bridger/cross_section.py:274-280 | the I-beam's area is 2 bf t + bw (d - 2t) |
| Geometry.IBeamExtent | bridger/cross_section.py:274-280 | the I-beam's height is d and its width bf |
| Geometry.IBeamCentroid | bridger/cross_section.py:274-280 | the I-beam's centroid is (bf / 2, d / 2) |
| Beam.Normalize | bridger/prototype.py:15 | the normalised distribution sums to 1 |
| Beam.DefaultTrain | bridger/prototype.py:70-72 | the default train has one load share per wheel with a non-zero total (6.7), and its wheels stand in increasing order strictly inside the default 1200 span |
| Beam.Reactions | bridger/prototype.py:88-90 | the two reactions add up to the train load, and the end reaction times the span balances the wheel moments; a zero span raises |
| Beam.LastBelow | bridger/prototype.py:104-105 | the last wheel strictly left of t, with every later wheel at or beyond t |
| Beam.XLinespace | bridger/prototype.py:81-86 | a grid exists exactly when dx is non-zero and length / dx is a non-negative whole number; it has that many points, starting at 0 and, when there are two or more, ending at the length |
| Beam.Peak | bridger/prototype.py:155 | max(abs(max), abs(min)) is the largest magnitude, attained |
| Beam.MaskAssign | bridger/prototype.py:105 | the masked assignment sets exactly the positions beyond t |
| Beam.Integrate | bridger/prototype.py:131-136 | the zero-filled running sum equals the rectangle-rule moments |
| Beam.FillStep | bridger/prototype.py:104-105 | each wheel's mask moves every position beyond it to the shear after that wheel |
| Beam.LoadsSumToTrainLoad | bridger/prototype.py:15-16 | the wheel loads add up to the train load |
| Beam.ShearDiagramShape | bridger/prototype.py:92-98 | the shear list starts at the start reaction, drops by each load, and closes at 0 when the reactions carry the loads |
| Beam.ShearCloses | bridger/prototype.py:88-98 | on a non-zero span the shear list closes at exactly 0 |
| Beam.MomentClosedForm | bridger/prototype.py:123-129 | closed form of every moment: the shear times the position plus the wheel moments to its left |
| Beam.BendingCloses | bridger/prototype.py:123-129 | the moment list is 0 at both supports wherever the wheels stand |
| Beam.LastBelowSorted | bridger/prototype.py:104-105 | with sorted wheels, the wheels left of t are exactly the first LastBelow + 1 |
| Beam.LinspaceSpacing | bridger/prototype.py:86 | linspace starts at a, ends at b, with equal gaps (b - a) / (num - 1) |
| Beam.XLinespaceStep | bridger/prototype.py:81-86 | the grid's gap is length / (n - 1), not dx |
| Beam.PeakFromZero | bridger/prototype.py:155 | for a list starting at 0, the peak magnitude is max(max, -min) |
| Beam.PeakScale | bridger/prototype.py:155 | a positive factor scales the peak magnitude |
| Beam.ReactionsScale | bridger/prototype.py:88-90 | scaling the load scales both reactions |
| Beam.ShearScale | bridger/prototype.py:92-98 | the shear list is linear in the train load |
| Beam.BendingScale | bridger/prototype.py:123-129 | the moment list is linear in the train load |
| Beam.UltimateStressScale | bridger/prototype.py:152-158 | both flexural stresses are linear in a positive load factor |
| Beam.UltimateShearStressScale | bridger/prototype.py:160-165 | the shear stress is linear in a positive load factor |
| Beam.SafetyFactorScale | bridger/prototype.py:57-63 | scaling the stresses by k > 0 divides both safety factors by k |
| Beam.ShearSafetyFactorScale | bridger/prototype.py:65-66 | scaling the shear stress by k > 0 divides the shear safety factor by k |
| Beam.BeamBridge.constructor | bridger/prototype.py:70-75 | the loads are the normalised distribution times the train load |
| Beam.BeamBridge.SetTrainLoad | bridger/prototype.py:22-26 | sets the train load and recomputes the loads from the distribution |
| Beam.BeamBridge.AddTrainLoad | bridger/prototype.py:43-44 | adds delta to the train load; the loads follow |
| Beam.BeamBridge.SetCrossSection | bridger/optimization.py:44 | installs a section and leaves the load unchanged |
| Beam.BeamBridge.MoveTheTrain | bridger/prototype.py:40-41 | every wheel moves by the step; validity is kept |
| Beam.BeamBridge.PlaceTheTrain | bridger/prototype.py:37-38 | the first wheel is put at start with spacing kept; an empty train raises IndexError and is left as it is |
| Beam.BeamBridge.ShearForces | bridger/prototype.py:92-98 | the append loop equals the shear list of the current state |
| Beam.BeamBridge.BendingMoments | bridger/prototype.py:123-129 | the running-moment loop equals the moment list |
| Beam.BeamBridge.ExpandedShearForces | bridger/prototype.py:100-107 | the in-place masking loop equals the expanded shear at every grid position |
| Beam.BeamBridge.ExpandedBendingMoments | bridger/prototype.py:131-136 | the integral of the expanded shear over the grid |
| Beam.BeamBridge.ComputeUltimateStress | bridger/prototype.py:152-158 | the stresses at the peak moment |
| Beam.BeamBridge.ComputeUltimateShearStress | bridger/prototype.py:160-165 | the shear stress at the peak shear |
| Beam.BeamBridge.ComputeSafetyFactor | bridger/prototype.py:57-63 | safe over applied flexural stress |
| Beam.BeamBridge.ComputeShearSafetyFactor | bridger/prototype.py:65-66 | safe over applied shear stress |
| Runs.ScanOpen | bridger/utils.py:8-9 | a true entry after a false one opens a run and keeps the scan invariant |
| Runs.ScanClose | bridger/utils.py:10-12 | a false entry closes the open run at the entry before it and keeps the scan invariant |
| Runs.ScanKeep | bridger/utils.py:7-12 | any other entry keeps the scan invariant |
| Runs.ScanEndClosed | bridger/utils.py:13-15 | a scan ending outside a run has found every run |
| Runs.ScanEndOpen | bridger/utils.py:13-15 | a scan ending inside a run has found every run once it is closed at the last entry |
| Runs.ScanInvariant | bridger/utils.py:7-12 | the scan keeps its invariant over any prefix |
| Runs.RunsOfDecomposition | bridger/utils.py:4-15 | the runs are exactly the maximal runs of true entries, in order, one per run start |
| Runs.IndexIntervals | bridge/utils.py:4-15 | the older loop returns exactly the index pairs of the runs |
| Runs.Intervals | bridger/utils.py:4-15 | the current loop returns the same runs with each end multiplied by dx |
| Runs.DecompositionUnique | bridger/utils.py:4-15 | two lists that both list every maximal run are equal |
| Runs.NoTrueNoRuns | bridger/utils.py:4-15 | a mask without a true entry has no runs |
| Runs.IntervalsAgreeAtUnitStep | bridge/utils.py:4-15 | with step 1 the current intervals are the older index pairs |
| Evaluation.Trunc | bridger/evaluation.py:38 | int() truncates toward zero |
| Evaluation.Steps | bridger/evaluation.py:36-38 | the number of positions is int(length + first - last / dx); a zero step raises ValueError for a last wheel at 0 and OverflowError otherwise |
| Evaluation.TravelIsProduct | bridger/evaluation.py:45-51 | k steps of dx move the train by k dx |
| Evaluation.SamplesAt | bridger/evaluation.py:45-51 | outcome k of a pass is the sample after k steps |
| Evaluation.NextPlacement | bridger/evaluation.py:51 | one more step extends the travel by dx |
| Evaluation.PassFrom | bridger/evaluation.py:40-45 | a pass is the sweep from the train moved to 0, over the computed number of positions |
| Evaluation.Failing | bridger/evaluation.py:57-59 | a position is failing exactly when one of its three factors is below the threshold |
| Evaluation.Weakest | bridger/evaluation.py:89-90 | the smallest of the three minima, attributed to the first mode attaining it |
| Evaluation.MaxLoad | bridger/evaluation.py:87-92 | the pass's error, ValueError for an empty series, otherwise the bottleneck |
| Evaluation.CollectOk | bridger/evaluation.py:42-50 | the collected series succeed exactly when every position does, and hold every value in order |
| Evaluation.CollectFirstError | bridger/evaluation.py:45-50 | a failed pass fails with its first failing position's error |
| Evaluation.CollectStops | bridger/evaluation.py:45-50 | an error after successful positions ends the pass with that error |
| Evaluation.MovedNormal | bridger/prototype.py:37-41 | moving the train keeps its wheel spacing |
| Evaluation.PassNormal | bridger/evaluation.py:40-41 | a pass depends on the wheels only through their spacing |
| Evaluation.ReturnTo | bridger/evaluation.py:52 | after a pass and the reset, the train stands where placing it at the recorded position would have put it |
| Evaluation.BottleneckBound | bridger/evaluation.py:89-92 | the maximum load is at most every safety factor of the unit pass |
| Evaluation.BottleneckAttained | bridger/evaluation.py:89-92 | the maximum load is a factor of the series its mode names |
| Evaluation.SampleScale | bridger/evaluation.py:78-84 | scaling the load by k > 0 divides the three factors at a position by k |
| Evaluation.SamplerScale | bridger/evaluation.py:78-84 | the same at every placement |
| Evaluation.PassDiv | bridger/evaluation.py:78-84 | a sampler divided by k gives a pass whose series are divided by k |
| Evaluation.SeriesCapacity | bridger/evaluation.py:78-84 | all divided factors reach 1 exactly when the divisor is at most the smallest factor |
| Evaluation.CapacityWith | bridger/evaluation.py:78-84 | the capacity argument for samplers related by a load factor |
| Evaluation.MaxLoadIsCapacity | bridger/evaluation.py:78-84 | for every load P > 0, every factor of the pass at P is at least 1 exactly when P is at most the unit-pass maximum load |
| Evaluation.Evaluator.constructor | bridger/evaluation.py:12-19 | records the material, the threshold, the current load and the first wheel position |
| Evaluation.Evaluator.ClearTrainPosition | bridger/evaluation.py:24-25 | puts the first wheel at 0, keeping the spacing |
| Evaluation.Evaluator.ResetTrainPosition | bridger/evaluation.py:30-31 | puts the first wheel back at the recorded position |
| Evaluation.Evaluator.ClearTrainLoad | bridger/evaluation.py:27-28 | sets a unit train load, leaving section and wheels |
| Evaluation.Evaluator.ResetTrainLoad | bridger/evaluation.py:33-34 | restores the recorded train load |
| Evaluation.Evaluator.N | bridger/evaluation.py:36-38 | the number of positions for the current placement |
| Evaluation.Evaluator.SampleHere | bridger/evaluation.py:46-49 | the three safety factors at the current position |
| Evaluation.Evaluator.Drive | bridger/evaluation.py:45-51 | the loop collects the sweep and moves the train by the travel |
| Evaluation.Evaluator.PassTheTrainWith | bridger/evaluation.py:40-53 | the pass of the current state; on success the train is back at the recorded position, spacing kept |
| Evaluation.Evaluator.PassTheTrain | bridger/evaluation.py:40-53 | pass_the_train of the bridge in its current state |
| Evaluation.Evaluator.DeadZones | bridger/evaluation.py:55-59 | the runs of failing positions, scaled by dx |
| Evaluation.Evaluator.MaximumLoadWith | bridger/evaluation.py:78-92 | the maximum load of the unit pass and its mode; the load is restored on success and left at 1 otherwise; whenever the pass itself succeeds, including the ValueError for an empty series, the train is back at the recorded position with its spacing kept |
| Evaluation.Evaluator.MaximumLoad | bridger/evaluation.py:78-92 | maximum_load of the bridge in its current state, with the same load and train-position guarantees |
| Optimization.Ceil | bridger/optimization.py:19 | the least integer not below x |
| Optimization.Arange | bridger/optimization.py:19 | arange raises exactly on a zero step |
| Optimization.ArangeProgression | bridger/optimization.py:19 | with a positive step, arange lists exactly the progression terms below stop |
| Optimization.ParamRanges | bridger/optimization.py:50 | one range (0.5 v, 1.5 v, 0.1 v) per keyword value v |
| Optimization.CandidatesAround | bridger/optimization.py:19-50 | around v != 0 the candidates are the eleven values 0.5 v ... 1.5 v, v among them; around 0 the step is zero and arange raises |
| Optimization.GridCheck | bridger/optimization.py:17-19 | fails exactly when some range's arange fails |
| Optimization.RangesCheck | bridger/optimization.py:49-51 | the optimiser's ranges fail exactly when some keyword value is 0 |
| Optimization.Scores | bridger/optimization.py:23-25 | the criterion of each point in order |
| Optimization.SearchStep | bridger/optimization.py:25-28 | only a strictly greater score replaces the best point |
| Optimization.SearchStops | bridger/optimization.py:25 | a criterion that raises ends the search with its error |
| Optimization.SearchBest | bridger/optimization.py:11-31 | with all scores defined: the result is at least 0 and every score; a positive result is the first best point; otherwise ({}, 0) |
| Optimization.SearchFindsFirstBest | bridger/optimization.py:23-31 | the first best point is exactly what the search returns |
| Optimization.SearchErrors | bridger/optimization.py:23-28 | the search raises exactly when some score raises |
| Optimization.FirstErr | bridger/optimization.py:23-28 | it raises the first error among the scores |
| Optimization.GridSearch | bridger/optimization.py:11-31 | the best-so-far loop equals the grid result |
| Optimization.LoadScoreNormal | bridger/optimization.py:43-45 | the criterion depends on the train only through its spacing |
| Optimization.EmptyParams | bridger/optimization.py:13 | the empty best point builds only a girder, the default one |
| Optimization.OptimalBestOf | bridger/optimization.py:47-52 | the optimum is at least 0 and every candidate's score; a positive optimum is the first candidate reaching it, with its section returned; a zero optimum is the default girder |
| Optimization.OptimalBest | bridger/optimization.py:47-52 | with load_criterion as the criterion, every candidate's maximum load is at most the optimum |
| Optimization.OptimalReached | bridger/optimization.py:47-52 | a positive optimum is the maximum load of a candidate whose section is returned |
| Optimization.GluedGirderFails | bridger/optimization.py:47-52 | a girder search whose first point carries glue_y raises TypeError |
| Optimization.BeamOptimizer.constructor | bridger/optimization.py:35-41 | records the section's class and the train's spacing |
| Optimization.BeamOptimizer.LoadCriterion | bridger/optimization.py:43-45 | installs the section built from params and returns the maximum load; on success the train load and position are restored; when the constructor raises, the bridge is untouched; when maximum_load raises, the new section is installed and the train load is 1 |
| Optimization.BeamOptimizer.GridSearchLoad | bridger/optimization.py:11-31 | the grid search with load_criterion; after a successful search over some points the bridge keeps the last point's section, the recorded train load, and the train at the recorded position with its spacing kept; with no points, or a zero step, the bridge is untouched |
| Optimization.BeamOptimizer.OptimizeCrossSection | bridger/optimization.py:47-52 | the search around the section's keywords, then the best section rebuilt; a successful search over some points leaves the recorded train load and the train at the recorded position, and no points or a zero keyword leave the bridge untouched |
| Scripts.GirderRule | optimize_cross_section.py:5-12 | a missing top, bottom or height raises KeyError |
| Scripts.GirderRuleAccepts | optimize_cross_section.py:5-12 | writes thickness 1.27; accepts exactly a girder that fits the sheet with deck >= bottom and overhang < bottom; once the girder fits with deck >= bottom, the outreach 0.5 (406.5 - used) is written whether or not the last test accepts, otherwise the outreach is left as it was; an accepted girder uses the whole sheet; no other keyword changes |
| Scripts.GirderConstraint | optimize_cross_section.py:5-12 | updates the caller's dict as the rule says; returns that same dict or None |
| Scripts.VaryingRule | optimize_v_cross_section.py:25-31 | a missing keyword raises KeyError |
| Scripts.VaryingRuleAccepts | optimize_v_cross_section.py:25-31 | writes thickness 1.27 and outreach 5; accepts exactly when both heights fit (the second strictly) and top > bottom |
| Scripts.VaryingRuleTallest | optimize_v_cross_section.py:29-31 | an accepted design fits at the taller height |
| Scripts.VaryingConstraint | optimize_v_cross_section.py:25-31 | updates the caller's dict and returns it or None |
| Scripts.SplitAlwaysRaises | optimize_v_cross_section.py:12-17 | the split as written always raises KeyError and takes height1 from the caller |
| Scripts.SplitAsWritten | optimize_v_cross_section.py:9-17 | a non-varying bridge raises ValueError first; otherwise the split as written |
| Scripts.Split | optimize_v_cross_section.py:12-17 | the intended split raises KeyError exactly when a height is missing |
| Scripts.SectionAtHeight | optimize_v_cross_section.py:18 | the section at x takes height2 inside (400, 800) and height1 elsewhere, other keywords unchanged, and builds a girder |
| LegacyGeometry.Freeze | bridge/cross_section.py:28-55 | a shape frozen into its five numbers is an arbitrary section |
| LegacyGeometry.AreaAdditive | bridge/cross_section.py:137-139 | area() of a composite is additive over joined lists of parts |
| LegacyGeometry.Width | bridge/cross_section.py:117-120 | the largest child extent, attained by a child; an empty composite raises |
| LegacyGeometry.Height | bridge/cross_section.py:122-125 | the largest child top, attained by a child; an empty composite raises |
| LegacyGeometry.CentroidAlong | bridge/cross_section.py:141-146 | centroid times area is the first moment; a zero area raises |
| LegacyGeometry.Centroid | bridge/cross_section.py:148-150 | the pair of both axis centroids |
| LegacyGeometry.Inertia | bridge/cross_section.py:127-135 | the parallel-axis sum with full planar distances about the centroid; fails exactly on a zero area |
| LegacyGeometry.ComputeCentroidAlong | bridge/cross_section.py:141-146 | the accumulator loop equals the centroid |
| LegacyGeometry.ComputeInertia | bridge/cross_section.py:127-135 | the accumulator loop equals the second moment |
| LegacyGeometry.ArbitraryAnswers | bridge/cross_section.py:28-55 | an arbitrary section answers its own five numbers |
| LegacyGeometry.FrozenPartTerm | bridge/cross_section.py:131-134 | a frozen child contributes the same parallel-axis term |
| LegacyGeometry.FreezeComposite | bridge/cross_section.py:110-150 | freezing every child changes none of a composite's answers |
| LegacyGeometry.PrimitiveFacts | bridge/cross_section.py:58-107 | rectangles and circles are centred; I = A h^2 / 12 and A d^2 / 16 |
| LegacyGeometry.SingleChild | bridge/cross_section.py:110-150 | a one-child composite reproduces the child; a zero area raises |
| LegacyGeometry.ParallelAxisBound | bridge/cross_section.py:127-135 | with non-negative areas, the parallel-axis sum is at least the children's own moments |
| LegacyGeometry.InertiaBound | bridge/cross_section.py:127-135 | the composite's second moment is at least the children's sum |
| LegacyGeometry.IBeamExtent | bridge/cross_section.py:153-159 | the I-beam's area, height d and width bf |
| LegacyGeometry.IBeamCentroid | bridge/cross_section.py:153-159 | the I-beam's centroid is (bf / 2, d / 2) |
| LegacyBeam.MomentPeak | bridge/prototype.py:91 | max(max m, -min m) bounds every moment's magnitude and is attained |
| LegacyBeam.UltimateStressAsWritten | bridge/prototype.py:86-94 | ultimate_stress as written always raises; with all queries succeeding it raises TypeError |
| LegacyBeam.UltimateStressRaises | bridge/prototype.py:86-94 | for a non-empty composite of non-zero area, the written version raises TypeError, and the repaired one succeeds exactly when the second moment is non-zero |
| LegacyBeam.MomentPeakIsPeak | bridge/prototype.py:90-94 | the older peak equals the largest magnitude, so the repaired stress is the current package's |
| LegacyBeam.StressesAddUp | bridge/prototype.py:94 | the two flexural stresses add up to M h / I |
| LegacyBeam.Bridge.constructor | bridge/prototype.py:10-19 | the loads are the normalised distribution times the mass, and add up to the mass |
| LegacyBeam.Bridge.XLinespace | bridge/prototype.py:21-26 | the grid of length / dx points |
| LegacyBeam.Bridge.ReactionForces | bridge/prototype.py:28-30 | the support reactions |
| LegacyBeam.Bridge.ShearForces | bridge/prototype.py:32-38 | the shear list |
| LegacyBeam.Bridge.BendingMoments | bridge/prototype.py:60-66 | the moment list |
| LegacyBeam.Bridge.ExpandedShearForces | bridge/prototype.py:40-47 | the expanded shear on the grid |
| LegacyBeam.Bridge.ExpandedBendingMoments | bridge/prototype.py:68-73 | the integral of the expanded shear |
| LegacyBeam.Bridge.ComputeUltimateStress | bridge/prototype.py:86-94 | the repaired stresses at the peak moment |
| LegacyBeam.Bridge.ComputeSafetyFactor | bridge/prototype.py:96-98 | safe over applied stress, with the repaired stresses |
| LegacyBeam.Bridge.MoveTheTrain | bridge/prototype.py:100-101 | every wheel moves by the step |
| LegacyBeam.DiagramsClose | bridge/prototype.py:28-66 | the loads add up to the mass, the shear closes at 0, and the moments vanish at both supports |
| LegacyBeam.SafetyFactorRaises | bridge/prototype.py:96-98 | safety_factor as written always raises |
| LegacyEvaluation.ZonesAsWritten | bridge/evaluation.py:53-57 | dead_zones as written always raises; with aligned series, TypeError |
| LegacyEvaluation.RunsExist | bridge/evaluation.py:80 | there is a run exactly when some entry is true |
| LegacyEvaluation.Zones | bridge/evaluation.py:53-57 | the intended dead zones: there is a zone exactly when some position fails |
| LegacyEvaluation.Found | bridge/evaluation.py:80 | true exactly when there is a zone; errors pass through |
| LegacyEvaluation.DeadAtAsWritten | bridge/evaluation.py:53-57 | the probe with dead_zones as written always raises |
| LegacyEvaluation.ProbeStaysAbove | bridge/evaluation.py:78-87 | once the load is at least the step, the search never returns 0, and any value it returns is positive with the load reset |
| LegacyEvaluation.ProbeFromStart | bridge/evaluation.py:76-87 | from load 1 and step 1000, the search returns 0 exactly when the unit load finds a dead zone; any other returned value is positive |
| LegacyEvaluation.ProbeNeverEnds | bridge/evaluation.py:78-87 | a bridge that never fails makes the loop run forever |
| LegacyEvaluation.ProbeAsWrittenRaises | bridge/evaluation.py:75-79 | with dead_zones as written, maximum_load always raises |
| LegacyEvaluation.DeadHere | bridge/evaluation.py:38-51 | the dead-zone test depends only on the wheel spacing |
| LegacyEvaluation.LegacyEvaluator.constructor | bridge/evaluation.py:9-17 | wraps an evaluator of the bridge |
| LegacyEvaluation.LegacyEvaluator.DeadZonesAsWritten | bridge/evaluation.py:53-57 | the pass, then the failing intervals call; whenever the pass succeeds, the train is back at the recorded position before the TypeError |
| LegacyEvaluation.LegacyEvaluator.DeadZones | bridge/evaluation.py:53-57 | the intended dead zones of the current state |
| LegacyEvaluation.LegacyEvaluator.DeadZonesProbe | bridge/evaluation.py:79-80 | with the repaired dead_zones (Zones): zones are found exactly when the dead-zone test says so at the current load; on success the train is back at the recorded position, spacing kept |
| LegacyEvaluation.LegacyEvaluator.Adjust | bridge/evaluation.py:80-87 | the early return of 0 when the load is below the step, otherwise the halved or doubled step applied to the load; either way the search's answer is kept |
| LegacyEvaluation.LegacyEvaluator.MaximumLoadWith | bridge/evaluation.py:75-91 | with the repaired dead_zones (Zones): the loop's outcome is the search from load 1 and step 1000; a returned load resets the train load, and the early 0 leaves it at 1; on either return the train is back at the recorded position, spacing kept |
| LegacyEvaluation.LegacyEvaluator.MaximumLoad | bridge/evaluation.py:75-91 | maximum_load of the bridge in its current state with the repaired dead_zones (Zones), with the same load and train-position guarantees |

## Left out

- Floating point. Every float is an exact real, with no rounding.
  - A composite's keywords are keyed by name and offset (`Geometry.Key`). The source's keys are formatted strings, so `b(0, 0)` and `b(0.0, 0.0)` are distinct keys there but one key in the model.
  - Numpy division by zero gives an infinity or a NaN with a warning. The model raises ZeroDivisionError wherever a divisor is zero.
  - The exceptions are: `Evaluation.Steps`, where int() of the infinity or NaN raises as in the source; and `reaction_forces`, which divides Python floats.
- Numpy dtypes. The default wheel positions are integers, so numpy would refuse to move them in place by a non-integer step. The model's wheels are reals.
- `math.pi` is a fixed decimal constant. No property depends on its digits.
- Not modelled: plotting (`plot_sfd`, `plot_bmd`, `plot_safety_factors`, `sfd`, `bmd`), the progress bar and the scripts' `__main__` blocks. They are output only.
- Geometry: a composite's children are rectangles and circles only. The source also accepts a composite as a child. The older package's `LegacyGeometry.FreezeComposite` shows that a composite reads only five numbers from each child.
- Optimization.GridSearch: the grid's points are given as a sequence, in place of the enumeration of the numpy meshgrid. The model does not tie the points to the candidate ranges.
- Optimization.BeamOptimizer.constructor: the beam bridge has no `cross_section` accessor, though the optimiser calls one to read and to install the section. The model reads the section field and sets it with `SetCrossSection`. The isinstance check is also left out, because the model's evaluator always holds a beam bridge.
- Evaluation.Evaluator.constructor: requires a non-empty train. The source reads the first wheel when it is constructed and would raise IndexError on an empty train.
- Beam.BeamBridge.constructor: requires a load distribution whose sum is not zero. Numpy would give NaNs instead. It also requires as many wheel positions as load entries. The source checks neither: a length mismatch fails only later, when `reaction_forces` multiplies the two arrays, and a length-1 side broadcasts without error.
- LegacyBeam.Bridge.constructor: requires a mass distribution whose sum is not zero, for the same reason. It also requires as many wheel positions as mass entries, for the same reason as the current bridge.
- Evaluation.Evaluator.Drive: after an exception, the wheel positions are not stated. The source leaves the train wherever the exception interrupted the sweep.
- Evaluation.Evaluator.PassTheTrainWith: after an exception, the wheel positions are not stated, for the same reason.
- Evaluation.Evaluator.PassTheTrain: after an exception, the wheel positions are not stated, for the same reason.
- Evaluation.Evaluator.MaximumLoadWith: when the pass itself raises, the wheel positions are not stated, for the same reason. When the pass succeeds, the restored train is stated even if the empty series then raises ValueError.
- Evaluation.Evaluator.MaximumLoad: the same as MaximumLoadWith, which it calls.
- LegacyEvaluation.LegacyEvaluator.MaximumLoadWith: on the `Raised` outcome, the train load and the wheel positions are not stated. The source leaves whatever load the interrupted search had reached, and the train wherever the failing pass left it.
- LegacyEvaluation.LegacyEvaluator.MaximumLoad: the same `Raised` gap as MaximumLoadWith, which it calls.
- LegacyEvaluation.LegacyEvaluator.MaximumLoadWith: the search runs for at most `fuel` probes. When the budget runs out, the outcome is `Unfinished` with the load and step reached. The source's loop has no bound (see `ProbeNeverEnds`).
- LegacyEvaluation.LegacyEvaluator.MaximumLoad: the same `fuel` bound and `Unfinished` outcome as MaximumLoadWith.
- Optimization.BeamOptimizer.LoadCriterion: when maximum_load raises, the wheel positions are not stated, for the same reason as Evaluation.Evaluator.MaximumLoad.
- Optimization.BeamOptimizer.GridSearchLoad: after a criterion raises, the bridge state is not stated. The source leaves it as LoadCriterion's error cases say for the failing point: untouched by that point when its constructor raises, otherwise with that point's section and a train load of 1.
- Optimization.BeamOptimizer.OptimizeCrossSection: after a criterion raises, the bridge state is not stated, as for GridSearchLoad.
- LegacyEvaluation: the older evaluator is modelled over the current beam bridge. The older `Bridge` class lacks the train-load accessor, `wheel_positions()`, `place_the_train`, `add_train_load`, `shear_safety_factor` and a `length()` method, all of which the evaluator calls.
- Scripts:
  - `VaryingBeamBridge` and its `v_cross_section` do not exist in the package. The two-height criterion is modelled up to the parameter split and the choice of section along the span.
  - Scripts.SplitAsWritten: the ValueError for a bridge that does not vary along its span stands for the intended isinstance check. As the package stands, the undefined `VaryingBeamBridge` name would raise NameError on that line first.
  - The first script calls the optimiser with ranges, `independent_params` and `constraint` arguments that `optimize_cross_section` does not take. The constraint rules are modelled on their own.
- Not modelled: the material's density, modulus and glue strength. The evaluator never reads them.

## Findings

| source | as written | input that shows it | evidently intended | confidence | as-written member | corrected member |
|---|---|---|---|---|---|---|
| bridge/prototype.py:94 | subtracts the centroid pair from the height, which raises TypeError | an `IBeam(933, 423, 43, 24)` bridge of non-zero length | use the vertical centroid coordinate, as the current package does | high, not executed | LegacyBeam.UltimateStressRaises | LegacyBeam.MomentPeakIsPeak |
| bridge/evaluation.py:56-57 | passes `dx=` to an `intervals` that takes no such keyword, so dead_zones and maximum_load always raise TypeError | any bridge with a non-empty, aligned pass | hand the step to the run extraction, as the current package does | high, not executed | LegacyEvaluation.ProbeAsWrittenRaises | LegacyEvaluation.Zones, LegacyEvaluation.LegacyEvaluator.MaximumLoadWith |
| optimize_v_cross_section.py:14-16 | pops height1 from the caller's dict, then pops it again from the copy, which raises KeyError | any point holding both height1 and height2 | two girders, one per height, built without touching the caller's dict | high, not executed | Scripts.SplitAlwaysRaises | Scripts.SectionAtHeight |
