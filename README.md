# Gel lane analysis: background plane and peak sums

A Dafny model of the numerical core of the ImageJ/Jython gel analyser
`emsa_script.py`, which works in three stages:

1. **Lane profiles.** `analyze` lays `lane_count` parallel line ROIs over a
   gel image and samples one intensity profile per lane.
2. **Background removal.** `extract_background` samples two bundles of five
   one-pixel reference columns. It keys them by absolute x in a dictionary,
   and `fit_plane` fits the plane z = a·x + b·y + c to them by least squares
   (the Gwyddion normal equations, solved by Cramer's rule).
   `removeBackground` then subtracts that plane, in place, from every lane
   profile.
3. **Measurement.** `MeasurementListener` keeps a list of selection areas,
   each a `[left, right]` slice. It shows the per-lane sums over the chosen
   area (`sumProfiles`), and `saveMeasurement` writes a tab-separated table
   of the sums for every lane and every area.

Modules:

- `Geometry` (geometry.dfy): lane and reference-column segments, and the set
  of dictionary keys the reference columns produce.
- `PlaneFit` (plane_fit.dfy): the sums `fit_plane` accumulates, its
  determinant and Cramer solution, and the `FitPlane` loop.
- `Background` (background.dfy): `analyze`, the reference-column dictionary,
  `extract_background` and the in-place subtraction.
- `Selection` (selection.dfy): Python slice sums and the
  `MeasurementListener` class.
- `Export` (export.dfy): the tab/newline text form of the results, with a
  parser that shows the text keeps the table's structure.

Modelling choices:

- The image sampler (ImageJ's `ProfilePlot` on a line ROI) is a function
  parameter, `Sampler = (Segment, Stroke) -> seq<real>`.
- Pixel values are exact reals.
- The integer sums of `fit_plane` (`n`, `sum_x`, `sum_y`, `sum_xx`,
  `sum_yy`, `sum_xy`) and its determinant are unbounded integers, as they
  are in Python.
- Dictionary iteration order is left open. The loop takes any remaining key,
  and `MapMomentsRemove` shows the result does not depend on the order.
- The text fields' `int()` parse is an `Option<int>`.
- `str(round(x, 3))` is a function parameter `fmt`.

## Model

| member | source | states |
|---|---|---|
| Geometry.LaneSegment | emsa_script.py:390-394 | the line ROI of lane i, the same in `analyze` and in `removeBackground` (lines 192-197): x = `first_x + i*lane_sep` from `first_y` to `first_y + lane_length` for vertical lanes, the transposed segment for horizontal ones; its properties are the three Geometry lemmas below |
| Geometry.LaneSegmentShape | emsa_script.py:390-394 | each lane ROI runs along the lane direction, is `lane_length` long, and lane 0 starts at (`first_x`, `first_y`) |
| Geometry.ConsecutiveLanes | emsa_script.py:191-197 | lane i+1 is lane i shifted by `lane_sep` across the lane direction (x for vertical lanes, y for horizontal ones) |
| Geometry.HorizontalIsTransposedVertical | emsa_script.py:390-394 | a horizontal lane is the vertical lane of the transposed geometry, transposed |
| Geometry.ReferenceSegment | emsa_script.py:413-419 | reference column (i, x_offset) is always a vertical line at x = `bg_x + i*bg_sep + x_offset`, from `first_y` to `first_y + lane_length` for vertical lanes and from `first_y - 0.5*lane_width` to the last lane's y plus `0.5*lane_width` for horizontal ones; `Background.ColumnSampleOnPlane` uses its start as the fit's y origin |
| Geometry.ReferenceKeysAreWindows | emsa_script.py:411-423 | the dictionary keys `bg_x + i*bg_sep + x_offset` are exactly the two five-wide windows around `bg_x` and `bg_x + bg_sep` |
| Geometry.ReferenceKeyCount | emsa_script.py:411-423 | the dictionary has 10 keys when the windows are disjoint (\|bg_sep\| >= 5), otherwise 5 + \|bg_sep\|, and never more than 10 |
| Geometry.IntervalFacts | emsa_script.py:412 | `range(-2, 3)`-style integer intervals: membership and size |
| Background.Analyze | emsa_script.py:386-404 | one profile per lane (none for a negative count), profile i sampled on lane segment i with the lane width as stroke |
| Background.ReferenceColumns | emsa_script.py:408-423 | the nested loops build exactly `ReferenceSamples`, the dictionary after the ten writes |
| Background.ReferenceSamplesContent | emsa_script.py:411-423 | the dictionary's keys are the reference keys, and each key holds the profile of the last column written to it |
| Background.WriterIsLastWrite | emsa_script.py:411-423 | for an overlapping key, the column whose profile survives is the last (i, x_offset) in loop order that writes that key |
| Background.ReferenceSamplesCount | emsa_script.py:409-423 | the dictionary never holds more than 10 columns |
| Background.ExtractBackground | emsa_script.py:408-425 | the returned plane is the least-squares fit of the reference dictionary |
| Background.PixelAt | emsa_script.py:204-209 | the point at which the code evaluates the plane for sample j of lane i: (`first_x + i*lane_sep`, `first_y + j`) for vertical lanes, (`first_x + j`, `i*lane_sep + 0.5*lane_width`) for horizontal ones; `Background.FramesCompared` relates it to the fit's frame |
| Background.SubtractLane | emsa_script.py:204-210 | subtracting the plane in place changes the first `lane_length` values and no others; it fails exactly when the profile is shorter than `lane_length` (Python's IndexError); the `AsWritten` frame evaluates the plane at the code's points |
| Background.Subtracted | emsa_script.py:204-210 | the corrected profile keeps its length, corrects each index below `lane_length` and leaves the tail unchanged |
| Background.RemoveBackground | emsa_script.py:191-213 | the adjusted profiles are the lane profiles with the plane subtracted, in lane order; all lanes are done exactly when every profile is long enough, otherwise processing stops at the first short lane (frame `AsWritten` is the code, `Intended` the corrected vertical y) |
| Background.ZeroPlaneKeepsProfile | emsa_script.py:210 | subtracting the zero plane (the fit of a singular system) leaves a profile unchanged |
| Background.FramesCompared | emsa_script.py:204-209 | the horizontal subtraction uses the fit's own coordinate frame, and the vertical one is shifted by `first_y` |
| Background.ReferenceSamplesOnPlane | emsa_script.py:411-423 | on an image that is itself a plane, every reference sample lies on that plane, seen in the fit's frame (x absolute, y relative to the column's start) |
| Background.FitOfPlaneImage | emsa_script.py:408-425 | on a planar image with a regular system, `extract_background` recovers that plane in the fit's frame |
| Background.Residual | emsa_script.py:204-210 | on a planar image, each corrected value equals b times the gap between the true y and the y the subtraction uses |
| Background.VerticalResidualAsWritten | emsa_script.py:205-206 | vertical lanes as written keep a residual of -b·`first_y` at every pixel |
| Background.IntendedResidualIsZero | emsa_script.py:204-210 | with y measured from the lane start, a planar background is removed exactly |
| Background.IntendedProfilesAreFlat | emsa_script.py:191-213 | with the corrected frame, the plane that `extract_background` fits to a planar image subtracts to zero on every lane sample below `lane_length` |
| PlaneFit.ClosedFormTerms | emsa_script.py:454-457 | the closed-form increments of `sum_x`, `sum_xx`, `sum_y` and `sum_yy` equal the sums over the column's points |
| PlaneFit.ClosedFormsExact | emsa_script.py:456-457 | the integer divisions by 2 and 6 are exact, and the closed forms equal Σy and Σy² over y = 0 … len-1 |
| PlaneFit.ColumnCounts | emsa_script.py:454-458 | a column contributes `len` points, `x·len` to Σx and `x²·len` to Σx² |
| PlaneFit.MapMomentsRemove | emsa_script.py:453 | the statistics are a sum over the keys, so the dictionary's iteration order does not matter |
| PlaneFit.MapMomentsInsert | emsa_script.py:453-465 | handling one more key adds exactly that column's statistics |
| PlaneFit.AddColumn | emsa_script.py:453-465 | one pass of the outer loop (closed forms, then the inner loop over the samples with y = 0, 1, …) adds exactly the point-by-point statistics of that column to the running sums |
| PlaneFit.Accumulate | emsa_script.py:442-465 | visiting the keys in any order, the loop ends with the statistics of every sample in the dictionary |
| PlaneFit.FitPlane | emsa_script.py:442-485 | the loop computes the fit of the statistics of all points; a zero determinant gives (0, 0, 0), otherwise the result satisfies the normal equations |
| PlaneFit.Det | emsa_script.py:467 | the determinant of the normal matrix [[Σx², Σxy, Σx], [Σxy, Σy², Σy], [Σx, Σy, n]], written term for term as the code does; `PlaneFit.ColumnIsSingular` and `PlaneFit.AtMostOneColumnIsFlat` show when it vanishes |
| PlaneFit.Alpha1 | emsa_script.py:474 | cofactor `alpha_1 = n*sum_yy - sum_y²`; `PlaneFit.AdjugateIdentities` proves the six cofactors form the adjugate of the normal matrix |
| PlaneFit.Alpha2 | emsa_script.py:475 | cofactor `alpha_2 = n*sum_xx - sum_x²` |
| PlaneFit.Alpha3 | emsa_script.py:476 | cofactor `alpha_3 = sum_xx*sum_yy - sum_xy²` |
| PlaneFit.Beta1 | emsa_script.py:477 | cofactor `beta_1 = sum_x*sum_y - n*sum_xy` |
| PlaneFit.Beta2 | emsa_script.py:478 | cofactor `beta_2 = sum_x*sum_xy - sum_xx*sum_y` |
| PlaneFit.Gamma1 | emsa_script.py:479 | cofactor `gamma_1 = sum_xy*sum_y - sum_x*sum_yy` |
| PlaneFit.ScaledAdjugate | emsa_script.py:473-483 | `1/det` times the adjugate rows applied to (Σxz, Σyz, Σz), the three expressions assigned to a, b and c; `PlaneFit.CramerSolves` and `PlaneFit.SolveUnique` are proved about it |
| PlaneFit.Cramer | emsa_script.py:473-483 | the non-singular branch of the code: `ScaledAdjugate` of the cofactors of the sums, with right-hand side (Σxz, Σyz, Σz) and the determinant |
| PlaneFit.AdjugateIdentities | emsa_script.py:467-479 | the cofactors times the normal matrix give det times the identity (nine identities) |
| PlaneFit.Solve | emsa_script.py:467-483 | a zero determinant gives the zero plane; otherwise the plane solves the three normal equations |
| PlaneFit.CramerSolves | emsa_script.py:474-483 | the adjugate formulas `alpha_*`, `beta_*`, `gamma_1` scaled by 1/det solve the normal equations |
| PlaneFit.SolveUnique | emsa_script.py:467-483 | with a non-zero determinant the solution is unique: any plane satisfying the normal equations is the one returned |
| PlaneFit.ExactPlaneRecovered | emsa_script.py:442-485 | when every sample lies on a plane and the system is regular, the fit returns that plane |
| PlaneFit.ColumnIsSingular | emsa_script.py:467 | a single column always has a zero determinant |
| PlaneFit.AtMostOneColumnIsFlat | emsa_script.py:467-471 | with at most one distinct x the determinant is 0 and the fit is (0, 0, 0) |
| PlaneFit.NormalEquationsAdd | emsa_script.py:454-465 | the normal equations for a fixed plane are additive over point sets |
| Selection.SliceIndex | emsa_script.py:291 | Python's slice-bound rules: negative indices count from the end, and out-of-range bounds clamp to [0, len] |
| Selection.Slice | emsa_script.py:291 | Python's `p[l:r]`: its length is hi - lo for the normalised bounds lo < hi and 0 otherwise, and element k is p[lo + k] |
| Selection.RangeSum | emsa_script.py:291 | `sum(profile[left:right])`: `Sum` of the slice, adding from the left; the lemmas below give its meaning |
| Selection.SumAppend | emsa_script.py:291 | `sum` distributes over concatenation |
| Selection.RangeSumIsPrefixDifference | emsa_script.py:291 | for in-range bounds, the sum over `[left:right]` is the difference of two prefix sums |
| Selection.RangeSumSplit | emsa_script.py:291 | adjacent selection areas sum to the sum over their union |
| Selection.EmptyRangeSum | emsa_script.py:291 | when the (normalised) right bound does not exceed the left, the sum is 0 |
| Selection.LaneSums | emsa_script.py:290-291 | one sum per lane, each over that lane's slice |
| Selection.ResultsTextParses | emsa_script.py:329-337 | when `fmt` produces no tabs or newlines, the text splits back into a header row and one row per lane, each with 1 + (number of areas) fields, labelled `Lane i`, holding the formatted sums in area order |
| Selection.MeasurementListener.constructor | emsa_script.py:245-264 | one selection area `[0, lane_length]`, selected, with the bounds not yet set |
| Selection.MeasurementListener.AddSelectionArea | emsa_script.py:354-355 | appends `[min_bound, max_bound]` and leaves every other area and the selection alone |
| Selection.MeasurementListener.UpdateFields | emsa_script.py:266-276 | if either field fails to parse, nothing changes; otherwise the bounds and only the selected area take the parsed values |
| Selection.MeasurementListener.ItemStateChanged | emsa_script.py:374-379 | a SELECTED event selects the chosen area and shows its bounds; other events change nothing |
| Selection.MeasurementListener.SumProfiles | emsa_script.py:290-292 | with bounds set, the per-lane sums over `[left_bound:right_bound]` for every lane; none before the bounds exist |
| Selection.MeasurementListener.SaveMeasurement | emsa_script.py:329-337 | the written text is the header row, then one row per lane with the sum for every area, tab-joined, each line newline-terminated |
| Selection.LaneLine | emsa_script.py:331-336 | the fields of lane i's line: `Lane i+1`, then the formatted sum of the lane over each area, in area order |
| Export.NatToString | emsa_script.py:329-331 | Python's `str` on the non-negative `i + 1`: at least one character, all decimal digits, no leading zero |
| Export.Join | emsa_script.py:329-337 | `"\t".join(fields)`: the fields with one separator between neighbours; `Export.SplitJoin` and `Export.JoinFree` give it its meaning |
| Export.JoinFree | emsa_script.py:329-337 | joining fields free of a character other than the separator gives a text free of it (no stray newline inside a line) |
| Export.NatToStringValue | emsa_script.py:329-331 | the decimal numeral `str(i + 1)` reads back as i + 1 |
| Export.NatToStringInjective | emsa_script.py:329-331 | distinct lane and area numbers get distinct labels |
| Export.SplitJoin | emsa_script.py:329-337 | splitting a tab-joined row of tab-free fields gives the row back |
| Export.ParseTableRoundTrip | emsa_script.py:329-337 | splitting the results text at newlines and tabs gives back the table it was built from |

## Left out

- User interface: frames, text fields, buttons, plots and their colours, legends and the drawn bound lines (`sumProfiles` lines 278-288 and 294 onwards), the lane and background previews, `revertToPrevStep`, and the window builders `selection_window`, `background_window` and `measurement_window`.
- The `FieldListener` and `BackgroundListener` text-field parsing and `enhanceContrast`. These only feed parameters into the modelled operations.
- ImageJ's `ProfilePlot` sampling (stroke averaging, interpolation) is a parameter. The model says only which segment and stroke each profile is taken on.
- The preview lines of `extract_background` (lines 427-436) are plotting only.
- Floating point: sums, the plane and the subtraction are exact reals. `round(x, 3)` and `str` on floats are the `fmt` parameter.
- Selection.MeasurementListener.SaveMeasurement: the save dialog and the file write are left out. The method returns the text that is written.
- Selection.MeasurementListener.ItemStateChanged: the document-listener cascade that `setText` triggers (`updateFields`, then `sumProfiles`, lines 363-372) is a separate call to `UpdateFields` and `SumProfiles`. The call at line 381 is not repeated inside the method, and the combo-box index is required to name an existing area.
- Selection.MeasurementListener.SumProfiles: before `updateFields` first succeeds, Python raises AttributeError on the unset `left_bound`. The model returns `None`. The sums are returned instead of being written into the result fields.
- Selection.MeasurementListener: one profile list stands in for both `self.adj_profiles` (bound at construction) and `backgroundListener.adj_profiles` (read by `saveMeasurement`). These differ only if the background step is rerun, which rebinds the latter.
- Background.RemoveBackground: the array returned by `getProfile` is mutated in place. The model copies it into an array, subtracts there and keeps the array's contents. Each lane gets a fresh `ProfilePlot` and a fresh array (lines 201-202), so nothing else sees the mutation.

## Findings

| source | as written | input that shows it | evidently intended | confidence | as-written member | corrected member |
|---|---|---|---|---|---|---|
| emsa_script.py:205-206 | for vertical lanes, `removeBackground` evaluates the plane at y = `first_y + j`, although `fit_plane` fitted it with y counted from 0 at the start of each reference column (`first_y`) | vertical lanes with `first_y` = 100 on a background z = 0.5·y + 10, with reference columns at two different x: the fit gives b = 0.5, c = 60, and every corrected pixel is -50 instead of 0 | y = j, as the horizontal branch (relative to the reference start `first_y - 0.5·lane_width`) and the preview at lines 430-432 already do | medium, not executed | Background.VerticalResidualAsWritten | Background.IntendedResidualIsZero, used by Background.RemoveBackground with frame `Intended` |
