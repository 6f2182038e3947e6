# MS lesion simulation toolkit: a verified model

This project models the core of the CSIM multiple-sclerosis lesion simulation toolkit for
3D Slicer:

- the command-line modules that build a synthetic lesion mask from a database of segmented
  lesions (two generations of `GenerateMask`);
- the module that keeps only the mask voxels whose intensity lies in a window (`FilterMask`);
- the module that simulates follow-up exams of a lesioned volume (`MSLongitudinalExams`);
- the two scripted drivers that register the input volumes, run the modules in order and
  clean the scene up afterwards (`MSLesionSimulator.py` and `GenerateLesionsScript.py`).

An image is a flat sequence of voxels. All images of one run share its length, because the
modules pair voxels across images by index.

## Modules

- `Wrappers` (`wrappers.dfy`): the `Option` type.
- `Voxels` (`voxels.dfy`): labels, nonzero counts, label sums and the overlap scan.
- `Text` (`text.dfy`): decimal rendering of numbers. Its lemmas show that file names built
  from numbers are injective.
- `FilterMask` (`filter_mask.dfy`): the intensity window and the thresholding pass.
- `GenerateMask` (`generate_mask.dfy`): the lesion-selection loop of the first generation.
  It always draws from the largest open size category and retires categories.
- `LesionMSGenerateMask` (`lesion_ms_generate_mask.dfy`): the loop of the second generation.
  It draws a random category and retires one on an oversize lesion.
- `LongitudinalExams` (`longitudinal_exams.dfy`): the time-point and lesion loops, the DC
  levels, the per-modality clamp and the output file names.
- `MrmlScene` (`mrml_scene.dfy`): the Slicer scene as a class.
  - A set of node ids and the next id to hand out.
  - Each node's content as a provenance term (which module produced it from which inputs).
  - A log of the module runs.
  - It also builds the resample parameters.
- `Modalities` (`modalities.dfy`): the six input modalities, their names and the orders in
  which the drivers visit them.
- `MSLesionSimulator` (`ms_lesion_simulator.dfy`): the `run` method of the first driver.
- `GenerateLesionsScript` (`generate_lesions_script.dfy`): the `run` method of the second
  driver, including `doWhiteMatterMask`.

The two mask loops are each stated twice:

- a pure `Step` function for one iteration and a `Search` function that iterates it, with
  lemmas giving the loop's invariant;
- a `Generate` method that works on the mask `array` in place and is proved to return
  exactly what `Search` returns.

The longitudinal accumulator is an `array` as well, proved against the pure `Run`
function.

The random numbers are passed in as a sequence of draws. This covers `rand()`, the indices
it picks and the normal variates. When the sequence runs out, the loop stops with a
distinct outcome (`DrawsExhausted`, or `None` / `complete == false`).

Two defects of `GenerateLesionsScript.py` are modelled as written and stated as proved
properties:

- With `returnSpace`, the inverse resample reads the undeformed `X_t1` volume and writes it
  into the input node. That replaces the deformed result (`ReturnOverwritesDeformation`,
  `GenerateLesionsScript.Run`).
- The cleanup guards for T2 and FLAIR are swapped. The run fails, leaving every conform
  pair in the scene, exactly when one of the two is selected without the other
  (`GenerateLesionsScript.Cleanup`, `GenerateLesionsScript.Run`).

## Model

| member | source | states |
|---|---|---|
| Voxels.Zeros | GenerateMask/GenerateMask.cxx:77-81 | The freshly allocated mask has n voxels, all 0. |
| Voxels.NonzeroAtMostLength | FilterMask/FilterMask.cxx:112-115 | A nonzero count never exceeds the number of voxels. |
| Voxels.NonzeroAtMostSum | FilterMask/FilterMask.cxx:60-63 | Every nonzero label is at least 1, so the label sum (`initialVolume`) bounds the count of nonzero voxels. |
| Voxels.BinarySumIsNonzero | FilterMask/FilterMask.cxx:112-115 | For a 0/1 mask the label sum (`finalVolume`) is the number of set voxels. |
| Voxels.NonzeroZeroIff | GenerateMask/GenerateMask.cxx:77-81 | A mask has nonzero count 0 if and only if every voxel is 0. |
| Voxels.NonzeroMonotone | FilterMask/FilterMask.cxx:100-109 | A mask whose set voxels are all set in another has at most as many set voxels. |
| Voxels.CheckOverlap | GenerateMask/GenerateMask.cxx:141-153 | The early-exit scan returns true exactly when no lesion voxel > 0 falls on a mask voxel > 0. |
| Text.Digit | GenerateMask/GenerateMask.cxx:110-111 | A digit value renders as a character between '0' and '9'. |
| Text.NatToString | GenerateMask/GenerateMask.cxx:110-111 | The decimal rendering is a non-empty digit string, and has one digit exactly for numbers below 10. |
| Text.NatToStringInjective | GenerateMask/GenerateMask.cxx:110-113 | Different numbers render as different strings. |
| Text.NumberedFileInjective | GenerateMask/GenerateMask.cxx:113 | A file name `path/dir/<n>.nii.gz` with a slash-free directory determines that directory and n. |
| Text.SplitAfterDigits | MSLongitudinalExams/MSLongitudinalExams.cxx:353 | A digit run followed by a text starting with a non-digit splits in only one way. |
| Modalities.NameRecognised | MSLongitudinalExams/MSLongitudinalExams.cxx:103-127 | The modality name each driver passes is recognised by the module as that same modality. |
| Modalities.NamesDistinct | MSLesionSimulator/MSLesionSimulator.py:598-686 | Different modalities are passed under different names. |
| Modalities.ConformAt | MSLesionSimulator/MSLesionSimulator.py:432-481 | The k-th modality of the conform order (T2, FLAIR, PD, FA, ADC) has rank k. |
| Modalities.ConformAtRank | MSLesionSimulator/MSLesionSimulator.py:432-481 | Every modality has a conform rank below 5, and that position holds it. |
| Modalities.LesionAt | MSLesionSimulator/MSLesionSimulator.py:543-581 | The k-th modality of the filter and simulation order (T1, FLAIR, T2, PD, FA, ADC) has rank k. |
| Modalities.LesionAtRank | MSLesionSimulator/MSLesionSimulator.py:543-581 | Every modality has a lesion rank below 6, and that position holds it. |
| Modalities.CleanupAt | MSLesionSimulator/MSLesionSimulator.py:739-767 | The k-th modality of the cleanup order (FLAIR, T2, PD, FA, ADC) has rank k. |
| FilterMask.Limits | FilterMask/FilterMask.cxx:96-97 | The window is centred on the mean and reaches cutFactor·stdev to each side. |
| FilterMask.Filter | FilterMask/FilterMask.cxx:81-109 | The pass over a fresh zero-filled buffer yields exactly the filtered mask. |
| FilterMask.FilteredVoxel | FilterMask/FilterMask.cxx:100-109 | An output voxel is 1 if and only if the mask voxel is > 0 and the intensity lies strictly inside the window. Every output voxel is 0 or 1. |
| FilterMask.FinalVolumeBound | FilterMask/FilterMask.cxx:63-115 | The output is a subset of the input mask. `finalVolume` ≤ the input's nonzero count ≤ `initialVolume`. |
| FilterMask.ZeroCutIsEmpty | FilterMask/FilterMask.cxx:96-103 | With cutFactor 0 the output is empty. |
| FilterMask.WiderWindowKeepsMore | FilterMask/FilterMask.cxx:100-109 | A nested window keeps a subset of the voxels the wider one keeps, so no more of them. |
| FilterMask.LargerCutWidens | FilterMask/FilterMask.cxx:96-97 | For a nonnegative stdev, a larger cutFactor gives a window containing the smaller one. |
| FilterMask.FilterIdempotent | FilterMask/FilterMask.cxx:100-109 | Filtering the output again with the same image and window changes nothing. |
| MrmlScene.ResampleParamsFor | MSLesionSimulator/MSLesionSimulator.py:870-881 | `inverseTransform` is `doInverse`. The interpolation is NearestNeighbor and the pixel type binary exactly for a label map; otherwise Linear and float. |
| MrmlScene.WriteOutputsKeys | MSLesionSimulator/MSLesionSimulator.py:787 | A module run adds exactly its output nodes to the contents. |
| MrmlScene.WriteOutputsKeeps | MSLesionSimulator/MSLesionSimulator.py:787 | A module run leaves every node other than its outputs unchanged. |
| MrmlScene.WriteOutputsPort | MSLesionSimulator/MSLesionSimulator.py:787 | An output node receives the result of the last output port it is bound to. |
| MrmlScene.Scene.constructor | MSLesionSimulator/MSLesionSimulator.py:397-400 | A scene holds the given nodes, each with its own data, and an empty log. |
| MrmlScene.Scene.AddNode | MSLesionSimulator/MSLesionSimulator.py:435-436 | Adds one new empty node with the next id. Nothing else changes. |
| MrmlScene.Scene.LoadVolume | MSLesionSimulator/MSLesionSimulator.py:500-509 | Adds one new node holding the file's data. Nothing else changes. |
| MrmlScene.Scene.CloneVolume | MSLesionSimulator/MSLesionSimulator.py:437 | Adds one new node holding a copy of the source's data. Nothing else changes. |
| MrmlScene.Scene.RemoveNode | MSLesionSimulator/MSLesionSimulator.py:734-737 | Removes the node and its data; an absent node is ignored. The log and the next id are unchanged. |
| MrmlScene.Scene.Execute | MSLesionSimulator/MSLesionSimulator.py:787 | A module run logs its call, writes each output node from its inputs' previous contents and leaves the other nodes alone. |
| GenerateMask.DesiredLoad | GenerateMask/GenerateMask.cxx:72 | The target load in mm³ is the lesion load in ml times 1000. |
| GenerateMask.MergeFillCount | GenerateMask/GenerateMask.cxx:158-165 | A merge adds exactly as many nonzero voxels as it writes, and writes at most the lesion's nonzero count. |
| GenerateMask.MergeFillKeeps | GenerateMask/GenerateMask.cxx:158-165 | A set voxel keeps its value through a merge. A nonzero result voxel is the old value or the lesion's label. |
| GenerateMask.Step | GenerateMask/GenerateMask.cxx:95-172 | A continuing iteration keeps between 1 and 5 open categories. It either spends one draw, or retires the largest category without drawing. |
| GenerateMask.RetireRule | GenerateMask/GenerateMask.cxx:95-106 | The loop leaves once the load is reached. Below the target, the largest open category is retired and `count` reset when the remaining load is at most its `maxSizeArray` entry or `count` has reached its `infoArray` entry. The loop ends when no category is left. |
| GenerateMask.DrawRule | GenerateMask/GenerateMask.cxx:107-171 | A lesion is drawn from the largest open category. The iteration halts exactly when an oversize lesion comes from category 0, and then `currentLoad` is desired + 1. An oversize lesion, or one from categories 0-3 that overlaps the mask, is rejected and `count` goes up by 1. Any other lesion is merged and recorded. The category is kept and one draw is spent. |
| GenerateMask.Replay | GenerateMask/GenerateMask.cxx:158-165 | Merging a sequence of lesions keeps the mask's size. |
| GenerateMask.AcceptKeepsInv | GenerateMask/GenerateMask.cxx:155-165 | Accepting a lesion that fits the load and, below category 4, overlaps nothing keeps the invariant: the counter equals the nonzero count, stays within the target and the mask is the accepted lesions merged in order. |
| GenerateMask.StepPreserves | GenerateMask/GenerateMask.cxx:95-172 | One iteration keeps the invariant and never clears a set voxel; a halting iteration yields a sound outcome. |
| GenerateMask.DrawPreserves | GenerateMask/GenerateMask.cxx:107-171 | The same for an iteration that draws a lesion. |
| GenerateMask.DrawTooLarge | GenerateMask/GenerateMask.cxx:127-136 | When the drawn lesion from category 0 overshoots, the iteration halts with `currentLoad` = desired + 1 and the invariant gives a sound outcome. |
| GenerateMask.DrawAccepted | GenerateMask/GenerateMask.cxx:155-165 | The same when the drawn lesion is merged. |
| GenerateMask.AcceptedStep | GenerateMask/GenerateMask.cxx:155-168 | An accepted draw merges the lesion, adds its newly written voxels to the counter and records the pick. |
| GenerateMask.ContinueKeeps | GenerateMask/GenerateMask.cxx:95-172 | An iteration that goes on into an invariant state that extends the mask keeps the invariant. |
| GenerateMask.DrawRejected | GenerateMask/GenerateMask.cxx:169-170 | When the drawn lesion is rejected, the iteration adds 1 to `count`, spends one draw and keeps the invariant. |
| GenerateMask.CountersFree | GenerateMask/GenerateMask.cxx:100-106 | Retiring a category or counting a rejection leaves the invariant intact. |
| GenerateMask.HaltSound | GenerateMask/GenerateMask.cxx:95-104 | Leaving the loop from an invariant state gives a sound outcome. |
| GenerateMask.SearchPreserves | GenerateMask/GenerateMask.cxx:95-173 | The whole loop from an invariant state ends soundly and never clears a set voxel. |
| GenerateMask.GenerateMaskProperties | GenerateMask/GenerateMask.cxx:72-173 | From the zero mask, the result is the accepted lesions merged in order. Lesions of categories 0-3 touch no earlier one. The nonzero count never exceeds the target. `currentLoad` equals it unless category 0 overshot, and reaching the target means the count is at least the target. |
| GenerateMask.NamesDistinct | GenerateMask/GenerateMask.cxx:69 | The five category directory names are distinct. |
| GenerateMask.LesionPathInjective | GenerateMask/GenerateMask.cxx:109-113 | Different (category, index) pairs are read from different files. |
| GenerateMask.AddLesion | GenerateMask/GenerateMask.cxx:157-165 | The in-place merge writes exactly `MergeFill`, and returns the number of voxels written. |
| GenerateMask.Generate | GenerateMask/GenerateMask.cxx:72-173 | The loop over the in-place mask returns exactly the outcome of `Search` from the zero mask. |
| GenerateMask.TryLesion | GenerateMask/GenerateMask.cxx:107-171 | One drawing iteration, on the array, yields the state or outcome `Step` gives. |
| GenerateMask.SearchOnward | GenerateMask/GenerateMask.cxx:95-173 | A continuing iteration does not change the eventual outcome. |
| GenerateMask.SearchEnds | GenerateMask/GenerateMask.cxx:95-173 | A halting iteration's outcome is the loop's outcome. |
| LesionMSGenerateMask.MergeOverwriteCount | LesionMSSimulator/GenerateMask/GenerateMask.cxx:144-154 | Merging a lesion that overlaps nothing adds exactly its nonzero count to the mask's. |
| LesionMSGenerateMask.Step | LesionMSSimulator/GenerateMask/GenerateMask.cxx:89-159 | A continuing iteration spends one draw and keeps at least one open category, losing at most one. |
| LesionMSGenerateMask.Replay | LesionMSSimulator/GenerateMask/GenerateMask.cxx:144-154 | Merging a sequence of lesions keeps the mask's size. |
| LesionMSGenerateMask.AcceptKeepsInv | LesionMSSimulator/GenerateMask/GenerateMask.cxx:144-154 | Accepting a fitting, non-overlapping lesion keeps the invariant (counter = nonzero count ≤ target, mask = accepted lesions in order) and never clears a set voxel. |
| LesionMSGenerateMask.StepPreserves | LesionMSSimulator/GenerateMask/GenerateMask.cxx:89-159 | One iteration keeps the invariant and never clears a set voxel; a halting iteration yields a sound outcome. |
| LesionMSGenerateMask.SearchPreserves | LesionMSSimulator/GenerateMask/GenerateMask.cxx:89-159 | The whole loop from an invariant state ends soundly and never clears a set voxel. |
| LesionMSGenerateMask.GenerateMaskProperties | LesionMSSimulator/GenerateMask/GenerateMask.cxx:70-159 | From the zero mask, the result is the accepted lesions copied in order with their labels, and no accepted lesion touches an earlier one. The nonzero count never exceeds the target. `currentLoad` equals it unless category 0 overshot. |
| LesionMSGenerateMask.OversizeRule | LesionMSSimulator/GenerateMask/GenerateMask.cxx:114-126 | The loop halts exactly when an oversize lesion comes from category 0. Otherwise an oversize lesion below 1200 voxels retires the highest open category, whichever was drawn. |
| LesionMSGenerateMask.NamesDistinct | LesionMSSimulator/GenerateMask/GenerateMask.cxx:67 | The five category directory names are distinct. |
| LesionMSGenerateMask.LesionPathInjective | LesionMSSimulator/GenerateMask/GenerateMask.cxx:93-97 | Different (category, index) pairs are read from different files. |
| LesionMSGenerateMask.CountLesion | LesionMSSimulator/GenerateMask/GenerateMask.cxx:105-113 | `loadToAdd` is the number of lesion voxels with label > 0. |
| LesionMSGenerateMask.AddLesion | LesionMSSimulator/GenerateMask/GenerateMask.cxx:146-154 | The in-place merge writes exactly `MergeOverwrite` and counts the lesion's nonzero voxels. |
| LesionMSGenerateMask.Generate | LesionMSSimulator/GenerateMask/GenerateMask.cxx:70-159 | The loop over the in-place mask returns exactly the outcome of `Search` from the zero mask. |
| LongitudinalExams.ModalityName | MSLongitudinalExams/MSLongitudinalExams.cxx:103-127 | Each recognised modality has a name the module maps back to it. |
| LongitudinalExams.TruncateToInt | MSLongitudinalExams/MSLongitudinalExams.cxx:170 | Conversion to `int` truncates toward zero: the result is within 1 of x, on the side of 0. |
| LongitudinalExams.ChangingCount | MSLongitudinalExams/MSLongitudinalExams.cxx:170-175 | `nChangingLesion` is floor(nLesion·balanceHI/100), and lies in [0, nLesion] for a percentage in [0, 100]. |
| LongitudinalExams.ChangingDC | MSLongitudinalExams/MSLongitudinalExams.cxx:190-307 | A changing lesion's DC level is the modality's trend plus (T1, FA) or minus (the others) a fluctuation of at most abs(g)·variability·sd. |
| LongitudinalExams.ChangingDraw | MSLongitudinalExams/MSLongitudinalExams.cxx:268-273 | A changing lesion uses one variate; for FA, variates are redrawn while the level exceeds 1.0, and the accepted level is at most 1.0. It fails only when the stream runs out. |
| LongitudinalExams.StableDraw | MSLongitudinalExams/MSLongitudinalExams.cxx:320-323 | A stable lesion takes the first variate with magnitude ≤ variability·sd; every earlier one exceeds it. It fails only when none remains. |
| LongitudinalExams.ChangingVoxel | MSLongitudinalExams/MSLongitudinalExams.cxx:195-307 | A changing voxel becomes min(v + DC, 1.0) for T1 and FA, and max(v + DC, 1.0) for T2, FLAIR, PD and ADC. |
| LongitudinalExams.MaskedMap | MSLongitudinalExams/MSLongitudinalExams.cxx:181-183 | The masked map holds the smoothed map on the voxels of one lesion label and 0 elsewhere. |
| LongitudinalExams.LesionPass | MSLongitudinalExams/MSLongitudinalExams.cxx:195-334 | Voxels where the masked map is 0 keep the accumulator's value. A stable voxel becomes v + DC. A changing voxel is clamped per modality. An unrecognised modality changes nothing. |
| LongitudinalExams.LesionStep | MSLongitudinalExams/MSLongitudinalExams.cxx:179-335 | One lesion keeps the accumulator's size and only moves forward in the variate stream. |
| LongitudinalExams.StepVoxel | MSLongitudinalExams/MSLongitudinalExams.cxx:179-335 | After one lesion, a voxel outside it or with map value 0 is unchanged. A changing voxel is ≤ 1.0 (T1, FA) or ≥ 1.0 (others). A stable voxel is within variability·sd of its map value. |
| LongitudinalExams.LesionsFrom | MSLongitudinalExams/MSLongitudinalExams.cxx:177-336 | The lesion loop keeps the accumulator's size and only moves forward in the variate stream. |
| LongitudinalExams.TimePoint | MSLongitudinalExams/MSLongitudinalExams.cxx:175-336 | The same for the whole lesion loop of one time point. |
| LongitudinalExams.CounterIsRank | MSLongitudinalExams/MSLongitudinalExams.cxx:177-180 | The decrementing counter assigns the changing branch exactly to the labels above a fixed threshold. |
| LongitudinalExams.ChangingAreTheTopLabels | MSLongitudinalExams/MSLongitudinalExams.cxx:175-309 | Visiting labels nLesion down to 1, exactly the labels above nLesion − nChangingLesion change. |
| LongitudinalExams.RankedVoxel | MSLongitudinalExams/MSLongitudinalExams.cxx:177-336 | After the lesion loop, an unvisited or zero-map voxel keeps its value. Changing-label voxels are clamped at 1.0 from the modality's side. Stable-label voxels are within variability·sd of their map value. |
| LongitudinalExams.FinalMap | MSLongitudinalExams/MSLongitudinalExams.cxx:338-341 | The map that is smoothed and written is 1.0 wherever the input mask is 0. |
| LongitudinalExams.Suffix | MSLongitudinalExams/MSLongitudinalExams.cxx:353 | Both file suffixes are non-empty and do not start with a digit. |
| LongitudinalExams.OutputPathInjective | MSLongitudinalExams/MSLongitudinalExams.cxx:351-353 | Two time points, or an exam and a contrast map, never get the same file name. |
| LongitudinalExams.RunLength | MSLongitudinalExams/MSLongitudinalExams.cxx:174-377 | A run writes at most one file per time point, and exactly one per time point when it completes. |
| LongitudinalExams.RunFiles | MSLongitudinalExams/MSLongitudinalExams.cxx:338-376 | The k-th file written is named for time point t + k and holds a map that is 1.0 outside the lesion mask. |
| LongitudinalExams.FilesCons | MSLongitudinalExams/MSLongitudinalExams.cxx:174-377 | The files from time point t are t's file followed by the files from t + 1. |
| LongitudinalExams.DrawChanging | MSLongitudinalExams/MSLongitudinalExams.cxx:268-273 | The draw loop returns exactly `ChangingDraw`. |
| LongitudinalExams.DrawStable | MSLongitudinalExams/MSLongitudinalExams.cxx:320-323 | The redraw loop returns exactly `StableDraw`. |
| LongitudinalExams.ModulateLesion | MSLongitudinalExams/MSLongitudinalExams.cxx:325-334 | The voxel loop writes the accumulator in place to exactly `LesionPass`. |
| LongitudinalExams.ModulateStep | MSLongitudinalExams/MSLongitudinalExams.cxx:179-335 | One lesion on the in-place accumulator does what `LesionStep` says, and fails exactly when it does. |
| LongitudinalExams.ModulateTimePoint | MSLongitudinalExams/MSLongitudinalExams.cxx:175-336 | The lesion loop on the in-place accumulator does what `TimePoint` says. |
| LongitudinalExams.RunStops | MSLongitudinalExams/MSLongitudinalExams.cxx:174-377 | A time point whose variates run out ends the run incomplete, with no further file. |
| LongitudinalExams.RunStep | MSLongitudinalExams/MSLongitudinalExams.cxx:174-377 | A time point that completes writes its file and continues from t + 1 on the updated accumulator. |
| LongitudinalExams.RunDone | MSLongitudinalExams/MSLongitudinalExams.cxx:174 | Past the last follow-up the run is complete, with no further file. |
| LongitudinalExams.Advance | MSLongitudinalExams/MSLongitudinalExams.cxx:174-377 | One time point on the in-place accumulator either stops the run or emits its file. What remains equals `Run` from t + 1. |
| LongitudinalExams.Simulate | MSLongitudinalExams/MSLongitudinalExams.cxx:173-377 | The time-point loop over the in-place accumulator writes exactly the files `Run` gives, and completes exactly when `Run` does. |
| MSLesionSimulator.ReferenceIsFirstSelected | MSLesionSimulator/MSLesionSimulator.py:409-423 | There is no reference exactly when none of T1, T2, FLAIR, PD is selected. Otherwise it is the first selected of them. |
| MSLesionSimulator.ApplyEnabled | MSLesionSimulator/MSLesionSimulator.py:330-334 | Apply is enabled exactly when a reference can be found, i.e. T1, T2, FLAIR or PD is selected. |
| MSLesionSimulator.ReferenceSelected | MSLesionSimulator/MSLesionSimulator.py:409-419 | The reference is one of the scene's nodes. |
| MSLesionSimulator.EveryVolumeInReferenceSpace | MSLesionSimulator/MSLesionSimulator.py:432-481 | Every selected volume is either conformed or the reference itself, and only selected volumes are conformed. |
| MSLesionSimulator.ConformedBelowMembers | MSLesionSimulator/MSLesionSimulator.py:432-481 | The first n conform blocks conform exactly the conformed modalities of rank below n. |
| MSLesionSimulator.PresentBelowMembers | MSLesionSimulator/MSLesionSimulator.py:543-581 | The first n filter blocks cover exactly the selected modalities of rank below n. |
| MSLesionSimulator.ConformedBelowAll | MSLesionSimulator/MSLesionSimulator.py:432-481 | All five conform blocks together cover every conformed modality. |
| MSLesionSimulator.PresentBelowAll | MSLesionSimulator/MSLesionSimulator.py:543-581 | All six filter blocks together cover every selected modality. |
| MSLesionSimulator.AllocatedCovers | MSLesionSimulator/MSLesionSimulator.py:432-581 | A run allocates a transform and a clone exactly for each conformed modality, and a lesion label exactly for each selected one. |
| MSLesionSimulator.SimulationsOfAppend | MSLesionSimulator/MSLesionSimulator.py:598-686 | Simulation counts add up over concatenated call lists. |
| MSLesionSimulator.NoSimulationCounts | MSLesionSimulator/MSLesionSimulator.py:598-686 | A call list without simulations simulates no modality. |
| MSLesionSimulator.ConformCallsRegister | MSLesionSimulator/MSLesionSimulator.py:432-481 | Every conform call is a linear registration. |
| MSLesionSimulator.FilterCallsFilter | MSLesionSimulator/MSLesionSimulator.py:543-581 | Every filter call runs FilterMask. |
| MSLesionSimulator.ReturnCallsResample | MSLesionSimulator/MSLesionSimulator.py:691-731 | Every return call is a resample. |
| MSLesionSimulator.SimulationsOfSingle | MSLesionSimulator/MSLesionSimulator.py:598-686 | A single call counts once for a modality exactly when it simulates that modality. |
| MSLesionSimulator.SimulationCallSimulates | MSLesionSimulator/MSLesionSimulator.py:598-686 | A simulation block simulates its own modality and no other. |
| MSLesionSimulator.SimulationCount | MSLesionSimulator/MSLesionSimulator.py:598-686 | The first n simulation blocks simulate a modality once if it is selected and of rank below n, and otherwise not at all. |
| MSLesionSimulator.SimulationCountStep | MSLesionSimulator/MSLesionSimulator.py:598-686 | Adding one block adds one simulation of its own modality and none of any other. |
| MSLesionSimulator.OneSimulationPerModality | MSLesionSimulator/MSLesionSimulator.py:598-686 | In a whole run, each selected modality is simulated exactly once and an unselected one never. |
| MSLesionSimulator.SimulationsAreSimulations | MSLesionSimulator/MSLesionSimulator.py:598-686 | Each simulation block runs DeformImage or LongitudinalExams. |
| MSLesionSimulator.SimulationKindFollowsSetting | MSLesionSimulator/MSLesionSimulator.py:598-686 | DeformImage runs only without `isLongitudinal`, and LongitudinalExams only with it. |
| MSLesionSimulator.SimulationParameters | MSLesionSimulator/MSLesionSimulator.py:588-686 | A simulation call of a modality uses its volume and lesion label. Sigma is 1.5 for FA, 1.3 for ADC and 0.75 otherwise, and variability is 0.5. A deformation writes the volume in place; a follow-up series takes the run's settings and writes no node. |
| MSLesionSimulator.SimulationCallsMember | MSLesionSimulator/MSLesionSimulator.py:598-686 | Every simulation call belongs to a selected modality that has a lesion label. |
| MSLesionSimulator.ReturnCallsMember | MSLesionSimulator/MSLesionSimulator.py:691-731 | Every return call is the inverse resample of a conformed modality of the blocks run so far. |
| MSLesionSimulator.ConformCallsHave | MSLesionSimulator/MSLesionSimulator.py:432-481 | The conform blocks contain the registration of every conformed modality. |
| MSLesionSimulator.InverseFollowsRegistration | MSLesionSimulator/MSLesionSimulator.py:691-731 | An inverse resample happens only with `returnSpace`, onto a conformed volume, using the transform that the same volume's registration in the same run wrote. |
| MSLesionSimulator.ConformCallsFrame | MSLesionSimulator/MSLesionSimulator.py:432-481 | The calls of the first n conform blocks depend only on their own transforms. |
| MSLesionSimulator.FilterCallsFrame | MSLesionSimulator/MSLesionSimulator.py:543-581 | The calls of the first n filter blocks depend only on their own labels. |
| MSLesionSimulator.ConformOne | MSLesionSimulator/MSLesionSimulator.py:434-439 | A conform block adds a transform and a clone and logs one linear registration of the volume onto the reference, in place. |
| MSLesionSimulator.ConformStep | MSLesionSimulator/MSLesionSimulator.py:432-481 | One conform block that runs extends the conform state by its two nodes and one call. |
| MSLesionSimulator.ConformSkip | MSLesionSimulator/MSLesionSimulator.py:432-481 | A conform block that does not run changes nothing. |
| MSLesionSimulator.ConformBlock | MSLesionSimulator/MSLesionSimulator.py:432-481 | After block i the scene holds the nodes and calls of the first i + 1 conform blocks. |
| MSLesionSimulator.ConformPhase | MSLesionSimulator/MSLesionSimulator.py:432-481 | After all conform blocks the scene holds exactly their nodes and calls. |
| MSLesionSimulator.RegisterTemplate | MSLesionSimulator/MSLesionSimulator.py:500-516 | Loads the template, adds `MNI_ref` and the BSpline transform, and logs one BSpline registration of the template onto the reference. |
| MSLesionSimulator.MakeLesionMap | MSLesionSimulator/MSLesionSimulator.py:524-538 | Adds the lesion map, then logs the GenerateMask run on the template and its label-map resample into reference space. |
| MSLesionSimulator.FilterOne | MSLesionSimulator/MSLesionSimulator.py:543-546 | A filter block adds one label map and logs one FilterMask run of the volume and the lesion map. |
| MSLesionSimulator.FilterBlock | MSLesionSimulator/MSLesionSimulator.py:541-581 | After block i the scene holds the nodes and calls of the first i + 1 filter blocks. |
| MSLesionSimulator.FilterPhase | MSLesionSimulator/MSLesionSimulator.py:541-581 | After all filter blocks there is one label per selected modality, and the scene holds exactly their nodes and calls. |
| MSLesionSimulator.SimulateOne | MSLesionSimulator/MSLesionSimulator.py:598-686 | A deformation rewrites only its volume, which then carries lesions. A follow-up series writes no node. |
| MSLesionSimulator.SimulationBlock | MSLesionSimulator/MSLesionSimulator.py:598-686 | After block i, the calls of the first i + 1 simulation blocks are logged, and those volumes carry lesions when the run is not longitudinal. |
| MSLesionSimulator.SimulationPhase | MSLesionSimulator/MSLesionSimulator.py:598-686 | After all simulation blocks every selected volume carries lesions, unless the run is longitudinal, in which case no node changes. |
| MSLesionSimulator.ReturnOne | MSLesionSimulator/MSLesionSimulator.py:693-697 | A return block resamples the volume in place by the inverse transform onto its clone's grid. The volume keeps its lesions and no other node changes. |
| MSLesionSimulator.ReturnBlock | MSLesionSimulator/MSLesionSimulator.py:691-731 | After block i the calls of the first i + 1 return blocks are logged, and lesioned volumes stay lesioned. |
| MSLesionSimulator.ReturnPhase | MSLesionSimulator/MSLesionSimulator.py:691-731 | The return blocks log exactly the return calls and keep every selected volume lesioned. |
| MSLesionSimulator.Teardown | MSLesionSimulator/MSLesionSimulator.py:733-737 | The template, `MNI_ref`, the BSpline transform and the unfiltered lesion map leave the scene. Nothing else changes. |
| MSLesionSimulator.CleanedBelowMembers | MSLesionSimulator/MSLesionSimulator.py:739-767 | The first n cleanup blocks remove exactly the transforms and clones of the conformed modalities of cleanup rank below n. |
| MSLesionSimulator.CleanedAll | MSLesionSimulator/MSLesionSimulator.py:739-767 | The cleanup blocks remove the transform and the clone of every conformed modality. |
| MSLesionSimulator.CleanupBlock | MSLesionSimulator/MSLesionSimulator.py:739-767 | After block i the nodes of the first i + 1 cleanup blocks are gone, and nothing else changes. |
| MSLesionSimulator.CleanupPhase | MSLesionSimulator/MSLesionSimulator.py:739-767 | The cleanup removes exactly every transform and clone, and keeps lesioned volumes lesioned. |
| MSLesionSimulator.PrepareTemplate | MSLesionSimulator/MSLesionSimulator.py:484-541 | Adds the four template-stage nodes and logs exactly the template calls. |
| MSLesionSimulator.SimulateInReferenceSpace | MSLesionSimulator/MSLesionSimulator.py:484-686 | The template stage, the filter blocks and the simulation blocks: their nodes and calls, one label per selected modality. |
| MSLesionSimulator.Run | MSLesionSimulator/MSLesionSimulator.py:397-773 | Succeeds exactly when a reference is found; otherwise the scene is untouched. A successful run logs exactly the run's calls. It leaves only one new lesion label per selected modality in the scene. Without `isLongitudinal`, with distinct inputs, every selected volume ends up carrying lesions. |
| MSLesionSimulator.RunSelected | MSLesionSimulator/MSLesionSimulator.py:428-771 | The same for a run with a reference. |
| MSLesionSimulator.Finish | MSLesionSimulator/MSLesionSimulator.py:733-767 | Removes the four template-stage nodes and every transform and clone, and keeps lesioned volumes lesioned. |
| MSLesionSimulator.ConformAndSimulate | MSLesionSimulator/MSLesionSimulator.py:428-731 | Everything before the cleanup: the nodes it adds, in id order, and the exact call log. |
| GenerateLesionsScript.ApplyEnabled | LesionMSSimulator/GenerateLesionsScript/GenerateLesionsScript.py:278-279 | Apply is enabled exactly when T1 is selected. The first driver would then enable it too, with T1 as its reference. |
| GenerateLesionsScript.T1IsReferenceSpace | LesionMSSimulator/GenerateLesionsScript/GenerateLesionsScript.py:331-554 | Every registration of a run has the T1 volume as its fixed image. |
| GenerateLesionsScript.TemplateRegisters | LesionMSSimulator/GenerateLesionsScript/GenerateLesionsScript.py:405-434 | The white-matter stage registers nothing, and the template registration has T1 fixed and the template moving. |
| GenerateLesionsScript.ConformCallsRegister | LesionMSSimulator/GenerateLesionsScript/GenerateLesionsScript.py:344-383 | Every conform call is a linear registration onto T1. |
| GenerateLesionsScript.DeformCallsDeform | LesionMSSimulator/GenerateLesionsScript/GenerateLesionsScript.py:466-492 | Every deform call runs DeformImage. |
| GenerateLesionsScript.ReturnCallsResample | LesionMSSimulator/GenerateLesionsScript/GenerateLesionsScript.py:497-522 | Every return call is an inverse, non-label resample. |
| GenerateLesionsScript.DeformCallOfCount | LesionMSSimulator/GenerateLesionsScript/GenerateLesionsScript.py:471-492 | A deform block deforms its own modality, when selected, and no other. |
| GenerateLesionsScript.DeformCallsSum | LesionMSSimulator/GenerateLesionsScript/GenerateLesionsScript.py:466-492 | The deform blocks' simulations are the sum of each block's. |
| GenerateLesionsScript.DeformCallsCount | LesionMSSimulator/GenerateLesionsScript/GenerateLesionsScript.py:466-492 | The deform blocks deform each selected volume once, under its modality's name, and no other. |
| GenerateLesionsScript.NoSimulationOutsideDeform | LesionMSSimulator/GenerateLesionsScript/GenerateLesionsScript.py:344-522 | The conform, white-matter, template and return stages deform nothing. |
| GenerateLesionsScript.DeformedOncePerModality | LesionMSSimulator/GenerateLesionsScript/GenerateLesionsScript.py:331-554 | In a whole run each selected modality is deformed exactly once and an unselected one never. |
| GenerateLesionsScript.ReturnOverwritesDeformation | LesionMSSimulator/GenerateLesionsScript/GenerateLesionsScript.py:476-522 | With `returnSpace`, a returned volume is resampled from the `X_t1` node its deformation read, by the inverse of its own conform transform, into the node the deformation wrote. That replaces the deformed data. |
| GenerateLesionsScript.ConformIf | LesionMSSimulator/GenerateLesionsScript/GenerateLesionsScript.py:344-383 | A selected modality gets two new nodes and one registration onto T1 whose `X_t1` output holds that registration. An unselected one changes nothing. |
| GenerateLesionsScript.WithPairFields | LesionMSSimulator/GenerateLesionsScript/GenerateLesionsScript.py:344-383 | A conform block binds only its own modality's locals. |
| GenerateLesionsScript.WithPairCalls | LesionMSSimulator/GenerateLesionsScript/GenerateLesionsScript.py:344-383 | A conform block appends its own call to those of the earlier blocks. |
| GenerateLesionsScript.ResampledStep | LesionMSSimulator/GenerateLesionsScript/GenerateLesionsScript.py:344-383 | A conform block keeps the earlier `X_t1` nodes' data and adds its own. |
| GenerateLesionsScript.ConformStep | LesionMSSimulator/GenerateLesionsScript/GenerateLesionsScript.py:344-383 | After block i the scene holds the nodes, calls and data of the first i + 1 conform blocks. |
| GenerateLesionsScript.ConformAdvance | LesionMSSimulator/GenerateLesionsScript/GenerateLesionsScript.py:344-383 | One conform block extends the conform state. |
| GenerateLesionsScript.ShapeAdvance | LesionMSSimulator/GenerateLesionsScript/GenerateLesionsScript.py:344-383 | One conform block extends the node set and log of the state. |
| GenerateLesionsScript.ContentAdvance | LesionMSSimulator/GenerateLesionsScript/GenerateLesionsScript.py:344-383 | One conform block extends the data of the state. |
| GenerateLesionsScript.ConformPhase | LesionMSSimulator/GenerateLesionsScript/GenerateLesionsScript.py:344-383 | A pair of new nodes exactly for each selected modality other than T1, the registrations onto T1 logged, no existing data changed, and each `X_t1` holding its registration. |
| GenerateLesionsScript.Apply | LesionMSSimulator/GenerateLesionsScript/GenerateLesionsScript.py:667-681 | A one-output module run logs its call and writes only its output node. |
| GenerateLesionsScript.SmoothAndCorrect | LesionMSSimulator/GenerateLesionsScript/GenerateLesionsScript.py:568-588 | T1 is smoothed into one new node and bias corrected into another, with the fixed filter parameters. |
| GenerateLesionsScript.SegmentWhiteMatter | LesionMSSimulator/GenerateLesionsScript/GenerateLesionsScript.py:590-611 | The corrected volume is segmented into the WM mask, which is then smoothed in place. |
| GenerateLesionsScript.DoWhiteMatterMask | LesionMSSimulator/GenerateLesionsScript/GenerateLesionsScript.py:556-615 | Both intermediate volumes are removed again. Only the WM mask changes; it holds T1 smoothed, corrected, segmented and smoothed. |
| GenerateLesionsScript.WhiteMatterMask | LesionMSSimulator/GenerateLesionsScript/GenerateLesionsScript.py:404-407 | Adds the WM mask as the only new node, holding the white-matter mask of T1. |
| GenerateLesionsScript.RegisterTemplate | LesionMSSimulator/GenerateLesionsScript/GenerateLesionsScript.py:414-434 | Loads the template, adds `MNI_t1` and the BSpline transform, and logs the BSpline registration onto T1; the transform holds that registration. |
| GenerateLesionsScript.ChooseLesionMap | LesionMSSimulator/GenerateLesionsScript/GenerateLesionsScript.py:441-445 | The lesion map is the output label if given (no node added), else one fresh node. |
| GenerateLesionsScript.FillLesionMap | LesionMSSimulator/GenerateLesionsScript/GenerateLesionsScript.py:446-464 | Loads the priors, logs the GenerateMask, resample and WM-multiply calls, and fills the lesion map with the masked, resampled mask. No other node changes. |
| GenerateLesionsScript.VolumeIsInput | LesionMSSimulator/GenerateLesionsScript/GenerateLesionsScript.py:466-492 | A selected volume is one of the nodes the deform blocks write. |
| GenerateLesionsScript.BoundPair | LesionMSSimulator/GenerateLesionsScript/GenerateLesionsScript.py:344-383 | A selected non-T1 modality has its conform pair among the conform nodes. |
| GenerateLesionsScript.DeformPrefixAll | LesionMSSimulator/GenerateLesionsScript/GenerateLesionsScript.py:466-492 | All six deform blocks together make exactly the deform calls. |
| GenerateLesionsScript.DeformBlock | LesionMSSimulator/GenerateLesionsScript/GenerateLesionsScript.py:466-492 | After block i the first i + 1 deform calls are logged and those volumes carry lesions. |
| GenerateLesionsScript.DeformAdvance | LesionMSSimulator/GenerateLesionsScript/GenerateLesionsScript.py:471-492 | A deform block writes lesioned data into its modality's input node. |
| GenerateLesionsScript.DeformSkip | LesionMSSimulator/GenerateLesionsScript/GenerateLesionsScript.py:471-492 | A deform block that does not run changes nothing. |
| GenerateLesionsScript.DeformPhase | LesionMSSimulator/GenerateLesionsScript/GenerateLesionsScript.py:466-492 | Logs exactly the deform calls, writes only the selected volumes, and every selected volume carries lesions. |
| GenerateLesionsScript.ReturnPrefixAll | LesionMSSimulator/GenerateLesionsScript/GenerateLesionsScript.py:497-522 | All five return blocks together make exactly the return calls. |
| GenerateLesionsScript.ResampledAt | LesionMSSimulator/GenerateLesionsScript/GenerateLesionsScript.py:344-383 | Each `X_t1` node holds the registration of its modality's data from before the run. |
| GenerateLesionsScript.ReturnBlock | LesionMSSimulator/GenerateLesionsScript/GenerateLesionsScript.py:497-522 | After block i the first i + 1 return calls are logged, and those volumes hold the inverse resample of undeformed data. |
| GenerateLesionsScript.ReturnSkip | LesionMSSimulator/GenerateLesionsScript/GenerateLesionsScript.py:497-522 | A return block that does not run changes nothing. |
| GenerateLesionsScript.ReturnAdvance | LesionMSSimulator/GenerateLesionsScript/GenerateLesionsScript.py:497-522 | A return block replaces its input node's data by the inverse resample of its undeformed `X_t1` node. |
| GenerateLesionsScript.ReturnPhase | LesionMSSimulator/GenerateLesionsScript/GenerateLesionsScript.py:497-522 | Logs exactly the return calls, writes only the non-T1 volumes. Each of them carries lesions exactly when it did before the run. |
| GenerateLesionsScript.Simulate | LesionMSSimulator/GenerateLesionsScript/GenerateLesionsScript.py:461-522 | Deform plus optional return. Without `returnSpace` every selected volume carries lesions. With it, each non-T1 volume carries lesions only if it did before. |
| GenerateLesionsScript.SimulateContent | LesionMSSimulator/GenerateLesionsScript/GenerateLesionsScript.py:461-522 | The data facts of `Simulate`, stated on the contents between its phases. |
| GenerateLesionsScript.ReturnIfSelected | LesionMSSimulator/GenerateLesionsScript/GenerateLesionsScript.py:494-522 | The return blocks run only with `returnSpace`; otherwise nothing changes. |
| GenerateLesionsScript.Teardown | LesionMSSimulator/GenerateLesionsScript/GenerateLesionsScript.py:525-533 | Removes `MNI_t1`, the BSpline transform, the priors, the template and the WM mask, plus the lesion map unless it is the output label. |
| GenerateLesionsScript.RemovePair | LesionMSSimulator/GenerateLesionsScript/GenerateLesionsScript.py:535-549 | Removes one conform pair and nothing else. |
| GenerateLesionsScript.Cleanup | LesionMSSimulator/GenerateLesionsScript/GenerateLesionsScript.py:535-549 | With the swapped guards, cleanup succeeds exactly when FLAIR and T2 are both selected or both not. Then it removes every conform pair; otherwise it fails before removing any. |
| GenerateLesionsScript.RemoveOthers | LesionMSSimulator/GenerateLesionsScript/GenerateLesionsScript.py:541-549 | Removes the PD, FA and ADC pairs. |
| GenerateLesionsScript.CleanupNodes | LesionMSSimulator/GenerateLesionsScript/GenerateLesionsScript.py:535-549 | When FLAIR and T2 are both selected or both not, the cleanup removes every conform pair. |
| GenerateLesionsScript.Finish | LesionMSSimulator/GenerateLesionsScript/GenerateLesionsScript.py:524-549 | Removes the temporaries, then every conform pair exactly when the cleanup succeeds. |
| GenerateLesionsScript.TemplateStage | LesionMSSimulator/GenerateLesionsScript/GenerateLesionsScript.py:404-464 | The white-matter and template calls are logged, and no input data changes. Unless written into T1, the lesion map holds the run's lesion map of T1. |
| GenerateLesionsScript.TemplateShape | LesionMSSimulator/GenerateLesionsScript/GenerateLesionsScript.py:404-464 | The node set and log of the template stage, from its steps. |
| GenerateLesionsScript.TemplateContent | LesionMSSimulator/GenerateLesionsScript/GenerateLesionsScript.py:404-464 | The data facts of the template stage, from its steps. |
| GenerateLesionsScript.Prepare | LesionMSSimulator/GenerateLesionsScript/GenerateLesionsScript.py:340-464 | Everything before the deform blocks: the conform pairs and template nodes added, their calls logged, the output label the only input node written. |
| GenerateLesionsScript.NodesRestored | LesionMSSimulator/GenerateLesionsScript/GenerateLesionsScript.py:525-549 | Removing the temporaries and the conform pairs restores the original node set. |
| GenerateLesionsScript.FinalContent | LesionMSSimulator/GenerateLesionsScript/GenerateLesionsScript.py:331-554 | Only the selected volumes and the output label change. An output label that is not an input holds the run's lesion map. |
| GenerateLesionsScript.FinalLesions | LesionMSSimulator/GenerateLesionsScript/GenerateLesionsScript.py:461-554 | The lesion facts of `Simulate` survive the removal of the temporaries. |
| GenerateLesionsScript.Run | LesionMSSimulator/GenerateLesionsScript/GenerateLesionsScript.py:331-554 | Succeeds exactly when FLAIR and T2 are both selected or both not; then the node set is restored, else the conform pairs remain. The log is exactly the run's calls. Without `returnSpace` every selected volume carries lesions; with it, each non-T1 volume is lesioned only if it was before. The output label holds the lesion map. |
| GenerateLesionsScript.Complete | LesionMSSimulator/GenerateLesionsScript/GenerateLesionsScript.py:461-554 | The deform and return blocks and the removals: success condition, calls and outcome as in `Run`. |
| GenerateLesionsScript.CompleteOutcome | LesionMSSimulator/GenerateLesionsScript/GenerateLesionsScript.py:461-554 | The outcome of `Run` from the facts of the simulation and the removal stages. |
| GenerateLesionsScript.InputsInScene | LesionMSSimulator/GenerateLesionsScript/GenerateLesionsScript.py:331-333 | The selected volumes are nodes of the scene. |
| GenerateLesionsScript.Separated | LesionMSSimulator/GenerateLesionsScript/GenerateLesionsScript.py:344-383 | The conform nodes are new, so none of them is a selected volume. |

`applyRegistrationTransform` in `GenerateLesionsScript.py` (lines 706-731) builds the same
parameters as the first driver's, so `MrmlScene.ResampleParamsFor` models both.

## Left out

- `DeformImage.cxx` and `GenerateLesions.cxx`: floating-point sampling, smoothing and
  neighbourhood updates with no discrete contract. A DeformImage run is an opaque step that
  writes lesioned data into its output node.
- The `main` functions, argument parsing, pixel-type dispatch, image reading and writing: file I/O.
- ITK filters are inputs, not models: label statistics (mean, stdev), the label sum, connected
  components and relabelling, recursive Gaussian smoothing, the mask filter, and the normal
  variate generator.
- `rand()`, `srand(time(0))` and the normal variates are a caller-supplied sequence. Running out
  of it is a stop the source does not have. It replaces termination, which the source does not
  guarantee.
- Floating-point numbers are `real`: rounding of `float` is not modelled.
- GenerateMask.Generate: `currentLoad` is a `float` in the source, modelled as an integer counter
  (exact while below 2^24 voxels).
- LongitudinalExams.ChangingDC: `abs` of a variate is taken as the real absolute value. The
  narrowing of `DClevel` to `float` is not modelled.
- LongitudinalExams.Simulate: Gaussian smoothing of the map, multiplication into the input
  volume and the image writers are left out. A file is its path and the premasked map.
- Windows path-separator branches in both drivers, the URL-download tests, the widgets, sliders,
  status messages and logging.
- Exceptions: the `try`/`except` around the blocks of `MSLesionSimulator.py` are not modelled.
  Every module run is taken to succeed.
- The failing cleanup of `GenerateLesionsScript.py` is modelled by its effect: the run reports
  failure and the remaining conform pairs stay in the scene.
- Module internals: BRAINSFit, BRAINSResample, N4 bias correction, the tissue classifier and
  label smoothing are opaque steps. Each writes its outputs as a provenance term of its inputs
  and parameters.
- `slicer.util.getNode` by name, used in `GenerateLesionsScript.py` for the MNI template and the
  priors, is taken to return the node `LoadVolume` adds. The user's home directory is a parameter.
- The module path (`slicer.modules.mslesionsimulator.path`) is a parameter.
- `doLongitudinalExams` writes files and no scene node. Its files are modelled in
  `LongitudinalExams`, not in the scene.
- MSLesionSimulator.Run: the claim that every volume carries lesions is proved only for runs that
  are not longitudinal and whose selected volumes are distinct nodes. `MSLesionSimulator.py`
  does not require distinct selections. The restriction comes from the proof, which follows each
  selected volume's data as a separate node. For selections that share a node the model makes
  no lesion claim.
