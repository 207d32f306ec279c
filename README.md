# GMOS long-slit reduction: a model of `gmos_ls_proc()`

`gmos_ls_proc()` is the companion script to the "Reduction of Longslit
Spectra with PyRAF" chapter of the GMOS Data Reduction Cookbook. It reduces
the long-slit spectra of AM2306-721 (program GS-2007A-Q-76) by calling the
Gemini IRAF tasks one after another. The script does the following:

- It builds the selection criteria of two detector regions, `qd['Full']` and
  `qd['CenSp']`. The second is a deep copy of the first with two keys
  overridden.
- It makes the master biases and master flats of each region. A bias is made
  only from more than one frame, a flat from at least one. Before the flats,
  the observation-date criterion is relaxed to `'*'`.
- It performs the basic reduction of the arcs, the standard star and the
  science frames.
- It fits the dispersion solution of four arcs.
- It combines, rectifies, sky-subtracts and extracts the standard star
  (LTT9239) and derives the sensitivity function from it.
- It combines, rectifies and sky-subtracts the three science targets.
- It flux-calibrates the sky-subtracted targets and the extracted standard.
- It extracts the one-dimensional spectrum of target b with `sarith`.

The tasks themselves are outside the model. A run is described by the log
of the calls it makes: the task, the input string, the output name and the
keyword arguments. The metadata query that selects frames (`fileSelect`) is
a function parameter, `Calls.Selector`, so every result is stated for every
possible database.

The project is organised as follows:

- `values.dfy` (`Values`): dictionary values and keys. `Update` is copy and
  update; `Kwargs` merges explicit keyword arguments with a `**bundle`.
- `text.dfy` (`Text`): `','.join`, `str.split` and the target-name
  shortening `targ.split('-')[0] + targ[-1]`.
- `calls.dfy` (`Calls`): the call event, and `OfTask`, which projects a log
  onto one task.
- `config.dfy` (`Config`): the criteria, every option bundle and the
  target dictionary, with the derived bundles built as the script builds
  them.
- `stages.dfy` (`Stages`): for each stage, the calls it must make, as
  functions of the selector and of the criteria in force. `Run` is the
  whole log.
- `pipeline.dfy` (`Pipeline`): the script as it executes. The class
  `Reduction` holds the criteria `qd`, which are updated in place, and the
  log. It has one method per stage, each loop carrying its invariants, and
  each method is proved to append exactly the calls `Stages` specifies.
  `Process` is the whole procedure.
- `properties.dfy` (`Properties`): properties of a run, covering which
  calls each task receives and in what order, the gating of the master
  calibrations, how each step's product feeds the next, and what the
  science loop leaves behind.

## Model

| member | source | states |
|---|---|---|
| Values.UpdateSpec | gmos_ls_proc.py:48-49 | A deep copy updated with overrides holds the keys of both dictionaries. The overriding value wins; every other key keeps the base value. |
| Text.Split | gmos_ls_proc.py:223 | `str.split` always returns at least one piece, and no piece contains the separator. |
| Text.SplitJoin | gmos_ls_proc.py:66-69 | Splitting a comma-joined, non-empty list of comma-free frame names gives back exactly that list, in order. |
| Text.JoinSplit | gmos_ls_proc.py:69 | Joining the pieces of a split with the separator gives back the original string. |
| Text.SplitHead | gmos_ls_proc.py:223 | The first piece of a split is the longest separator-free prefix of the string. |
| Text.PrefixedSpec | gmos_ls_proc.py:183-186 | Prefixing each frame with `gs` keeps the number of frames, and element i becomes `gs` followed by frame i. |
| Text.ShortNameSpec | gmos_ls_proc.py:222-223 | A target's short name is its longest dash-free prefix followed by its last character. |
| Text.ShortNameOfDashed | gmos_ls_proc.py:223 | A name `stem-rest`, with no dash in `stem`, shortens to `stem` followed by the name's last character. |
| Config.CenSpDerivedFromFull | gmos_ls_proc.py:41-49 | The central-spectrum criteria equal the full-frame criteria except `RoI = 'CentSp'` and `Object = 'LTT9239'`. The full-frame criteria keep `RoI = 'Full'` and `Object = 'AM2306-72%'`. |
| Config.ArcFlagsFromSciFlags | gmos_ls_proc.py:104-112 | The arc bundle equals the science bundle except that `fl_flat`, `fl_vardq` and `fl_fulldq` are `'no'`. The science bundle still has `'yes'` for all three. |
| Config.StdFlagsFromSciFlags | gmos_ls_proc.py:104-114 | The standard bundle equals the science bundle except `fl_fixpix = 'yes'` and `fl_vardq = fl_fulldq = 'no'`. The science bundle keeps its values for these keys. |
| Config.StdCombFlagsFromSciCombFlags | gmos_ls_proc.py:163-169 | The standard's combine bundle equals the science combine bundle except that `fl_vardq` and `fl_dqprop` are `'no'`. The base bundle keeps `'yes'` for both. |
| Config.EnumeratedTargetsNamed | gmos_ls_proc.py:214-223 | Whatever order the target dictionary lists its entries in, every name is non-empty, so its short name is defined. |
| Stages.InitialContexts | gmos_ls_proc.py:41-49 | `qd['Full']` is the full-frame criteria. `qd['CenSp']` has the same keys, agrees outside the overridden keys and carries the overriding values. |
| Stages.RelaxDateObs | gmos_ls_proc.py:77-78 | In both regions `DateObs` becomes `'*'`, no key is lost, and every other value is unchanged. |
| Stages.NoCalibrationPassedTwice | gmos_ls_proc.py:122-137 | The three reduction bundles contain neither `bias` nor `flatim`. The explicit master calibrations therefore never clash with a bundle key. |
| Stages.NoKeywordPassedTwice | gmos_ls_proc.py:94-228 | `bias` is not in the flat bundle, and `wavtraname` is not in the transform bundle. `long_sample` is not in the sky bundle, and neither `sfile` nor `sfunction` is in the sensitivity bundle. |
| Stages.StageCallShape | gmos_ls_proc.py:60-123 | A per-region call reads the selected frames joined with `','` in selection order. A bias call writes `MCbias<r>` with the bias bundle. A flat call writes `MCflat<r>` with `bias = MCbias<r>` and otherwise the flat bundle. An arc reduction uses `bias = MCbias<r>` and otherwise the arc bundle. |
| Stages.WithBias | gmos_ls_proc.py:94-95 | Passing `bias='MCbias'+r` next to a bundle gives options that hold that bias and, for every other key, exactly what the bundle holds. |
| Stages.StageCallDeterminesRegion | gmos_ls_proc.py:60-95 | Two regions never produce the same per-region call, because the region name is the suffix of the master frame's name. |
| Stages.WavelengthCalls | gmos_ls_proc.py:153-155 | There is one `gswavelength` call per listed arc, in list order, on `gsS20070623S0` followed by the arc number, with the wavelength bundle. |
| Stages.TargetChains | gmos_ls_proc.py:219-228 | Visiting n targets makes 3n calls. |
| Stages.OverwriteObject | gmos_ls_proc.py:220-221 | Writing the next target into the object the previous targets left behind gives the full-frame criteria with that target as object. |
| Stages.RegionCallsMembers | gmos_ls_proc.py:60-123 | A per-region loop makes exactly the stage calls of the regions whose selection has enough frames. |
| Stages.StageRunsIff | gmos_ls_proc.py:61-123 | A region's stage call is made if and only if its selection has at least the minimum number of frames (2 for biases, 1 for flats and arcs). Every call of the stage is such a call. |
| Pipeline.Reduction.constructor | gmos_ls_proc.py:41-49 | Building `qd` gives the initial criteria of both regions and an empty log. |
| Pipeline.Reduction.ForEachRegion | gmos_ls_proc.py:60-123 | The loop over `['Full', 'CenSp']` leaves `qd` unchanged and appends exactly the region calls. |
| Pipeline.Reduction.BiasMasterCals | gmos_ls_proc.py:60-70 | Appends exactly the master-bias calls. |
| Pipeline.Reduction.FlatMasterCals | gmos_ls_proc.py:77-95 | Relaxes `DateObs` in both regions, then appends exactly the master-flat calls made with the relaxed criteria. |
| Pipeline.Reduction.ReduceArcs | gmos_ls_proc.py:116-123 | Appends exactly the arc reductions of each region that has arcs. |
| Pipeline.Reduction.ReduceStd | gmos_ls_proc.py:125-130 | Reduces the standard frames in the central-spectrum region with its master bias and flat, and only if there are any. |
| Pipeline.Reduction.ReduceScience | gmos_ls_proc.py:132-137 | Reduces the science frames in the full-frame region with its master bias and flat, and only if there are any. |
| Pipeline.Reduction.SolveWavelengths | gmos_ls_proc.py:153-155 | The loop appends one wavelength fit per arc number, in order. |
| Pipeline.Reduction.ReduceStdStar | gmos_ls_proc.py:182-210 | Appends the five-call standard-star chain on the frames selected with the current central-spectrum criteria. |
| Pipeline.Reduction.ReduceTarget | gmos_ls_proc.py:220-228 | Writes the target into `qd['Full']` in place, because `qs` is an alias. It then appends that target's combine, transform and sky-subtraction. |
| Pipeline.Reduction.ReduceTargets | gmos_ls_proc.py:219-228 | The loop over the dictionary's entries appends every target's chain, in visiting order. It leaves the last visited name as the full-frame object. |
| Pipeline.Reduction.FluxCalibrate | gmos_ls_proc.py:235-241 | Appends the two `gscalibrate` calls. The bundle is updated in place between them. |
| Pipeline.Reduction.ExtractFinal | gmos_ls_proc.py:244-246 | Appends the `sarith` extraction of target b. |
| Pipeline.Reduction.MakeCalibrations | gmos_ls_proc.py:51-123 | Biases with the initial criteria, then flats and arcs with relaxed dates. |
| Pipeline.Reduction.ReduceFrames | gmos_ls_proc.py:125-155 | Standard and science reductions, then the wavelength fits. |
| Pipeline.Reduction.MakeSpectra | gmos_ls_proc.py:182-246 | The standard chain, the target chains, flux calibration and final extraction. |
| Pipeline.Process | gmos_ls_proc.py:10-248 | For any iteration order of the target dictionary, the run's log is `Stages.RunTrace` and its final criteria are `Stages.FinalContexts`. |
| Properties.RegionCallsTask | gmos_ls_proc.py:60-123 | A per-region stage calls only its own task. |
| Properties.TargetChainsTasks | gmos_ls_proc.py:219-228 | The science loop calls only `gemcombine`, `gstransform` and `gsskysub`. |
| Properties.RegionCallsOfTask | gmos_ls_proc.py:60-123 | Projecting a per-region stage onto a task gives all of its calls for the stage's own task and none otherwise. |
| Properties.ReduceCallsOfTask | gmos_ls_proc.py:125-137 | The standard and science reductions call `gsreduce` only. |
| Properties.WavelengthCallsOfTask | gmos_ls_proc.py:153-155 | The wavelength stage calls `gswavelength` only. |
| Properties.StdChainOfTask | gmos_ls_proc.py:185-210 | The standard-star chain calls none of the tasks outside its own five. |
| Properties.TargetChainsOfTask | gmos_ls_proc.py:219-228 | The science loop calls none of the tasks outside its own three. |
| Properties.FinalCallsOfTask | gmos_ls_proc.py:235-246 | Flux calibration calls only `gscalibrate`, and the final extraction only `sarith`. |
| Properties.CalibrationsOfTask | gmos_ls_proc.py:51-123 | The master-calibration phase calls `gbias` (initial criteria), `gsflat` and `gsreduce` for the arcs (relaxed dates), each from its own stage, and nothing else. |
| Properties.ReductionsOfTask | gmos_ls_proc.py:125-155 | The basic-reduction phase calls `gsreduce` for the standard and then the science frames, `gswavelength` for the arcs, and nothing else. |
| Properties.SpectraOfTask | gmos_ls_proc.py:182-246 | Outside the two reduction chains, the spectra phase calls `gscalibrate` twice and `sarith` once. `Properties.ExtractionLast` proves that the `sarith` call comes last. |
| Properties.BiasCallsOfRun | gmos_ls_proc.py:60-70 | The `gbias` calls of a whole run are exactly the per-region master biases, in region order. |
| Properties.FlatCallsOfRun | gmos_ls_proc.py:77-95 | The `gsflat` calls of a run are exactly the per-region master flats, selected with relaxed dates. |
| Properties.ReduceCallsOfRun | gmos_ls_proc.py:116-137 | The `gsreduce` calls of a run are the arcs of each region, then the standard, then the science frames. |
| Properties.WavelengthCallsOfRun | gmos_ls_proc.py:153-155 | The `gswavelength` calls of a run are exactly one fit per listed arc, in order. |
| Properties.CalibrationCallsOfRun | gmos_ls_proc.py:235-241 | A run makes exactly the two flux calibrations, and no other `gscalibrate` call. |
| Properties.MasterBiasIff | gmos_ls_proc.py:60-70 | A run makes region r's master bias if and only if more than one bias frame is selected with the initial criteria. Every `gbias` call of the run is such a master bias. |
| Properties.MasterFlatIff | gmos_ls_proc.py:77-95 | A run makes region r's master flat if and only if at least one flat is selected with relaxed dates. Every `gsflat` call of the run is such a master flat. |
| Properties.ArcFits | gmos_ls_proc.py:153-155 | There are exactly four wavelength fits, on arcs 071, 081, 091 and 109 in that order, each with default output and the wavelength bundle. |
| Properties.FluxCallsDiffer | gmos_ls_proc.py:235-241 | The first calibration is of `stAM2306*` and the second of `estLTT9239`. The second bundle equals the first except that `fl_vardq` changes from `'yes'` to `'no'`. |
| Properties.TargetChainsSlice | gmos_ls_proc.py:219-228 | Calls 3m to 3m+2 of the science loop are the chain of the m-th visited target, selected with the criteria the loop had when it reached it. |
| Properties.EveryTargetReduced | gmos_ls_proc.py:214-228 | In any iteration order, every dictionary entry has its chain in the loop, built with its own arc and sky record and selected with the full-frame criteria whose object is that target. |
| Properties.StdChainShape | gmos_ls_proc.py:185-210 | The standard chain is `gemcombine` of the `gs`-prefixed frames into `LTT9239`, then `gstransform`, `gsskysub`, `gsextract` and `gsstandard`. |
| Properties.StdChainArc | gmos_ls_proc.py:188 | The standard is rectified with the solution of arc 109, the last fitted arc. |
| Properties.StdChainLinked | gmos_ls_proc.py:186-210 | Each step of the standard chain reads what the previous step produced (`LTT9239`, `tLTT9239`, `stLTT9239`, `estLTT9239`). |
| Properties.TargetChainLinked | gmos_ls_proc.py:222-228 | A target's combine reads its `gs` frames and writes its short name. The transform uses the target's arc, and the sky subtraction uses its sky rows. Each step reads the previous product, and the chain ends in `st` followed by the short name. |
| Properties.ScienceShortNames | gmos_ls_proc.py:214-223 | The three targets shorten to `AM2306a`, `AM2306b` and `AM2306c`. |
| Properties.ScienceShortNameStem | gmos_ls_proc.py:214-223 | Every science target shortens to `AM2306` followed by its last character. |
| Properties.CalibrationCoversTargets | gmos_ls_proc.py:228-239 | The template `stAM2306*` of the first calibration matches every science target's sky-subtracted spectrum. |
| Properties.CalibrationSkipsStandard | gmos_ls_proc.py:189-241 | That template does not match the standard's sky-subtracted spectrum, which is calibrated separately after extraction. |
| Properties.FinalExtractionOfTargetB | gmos_ls_proc.py:227-246 | The final extraction reads the flux-calibrated spectrum (`c` prefix) of target b's sky-subtracted product. |
| Properties.WavelengthsBeforeTransforms | gmos_ls_proc.py:153-227 | In every run, each wavelength fit comes before each rectification that uses a fitted solution. |
| Properties.ArcsUsedAreFitted | gmos_ls_proc.py:153-227 | Every target's arc, and arc 109 used for the standard, is among the fitted arcs. |
| Properties.ReducedArcsFeedFits | gmos_ls_proc.py:116-155 | The arc reduction writes arc exposure `S20070623S0<n>` as `gsS20070623S0<n>`, which is exactly the input of the fit of arc n. |
| Properties.ReducedFramesCombined | gmos_ls_proc.py:125-186 | A frame reduced with no output name is written as `gs` followed by its name, and this is element i of the list the combinations read. |
| Properties.TargetReducedAt | gmos_ls_proc.py:219-228 | The m-th visited entry has its chain at calls 3m to 3m+2, with its own dictionary record and the full-frame criteria whose object is its name. |
| Properties.RunInOrder | gmos_ls_proc.py:10-248 | A run's log is the calibrations, the reductions, the standard chain, the target chains, the two flux calibrations and the final extraction, in that order. |
| Properties.ChainsBeforeCalibration | gmos_ls_proc.py:182-241 | In every run, both flux calibrations come after every call to any other task except `sarith`. In particular they follow every sky subtraction and the derivation of the sensitivity function. |
| Properties.ExtractionLast | gmos_ls_proc.py:235-246 | In every run, the `sarith` extraction comes after every other call, both flux calibrations included. |
| Properties.ScienceLoopOverwritesFull | gmos_ls_proc.py:219-221 | After the loop, the aliasing write leaves `qd['Full']['Object']` holding the last visited target instead of `AM2306-72%`. The other full-frame keys and the central-spectrum criteria are as the flat stage left them. |

## Left out

- The file deletions `iraf.imdel` (lines 73, 97, 140, 231) are left out. They act on the file system, and nothing later reads what they delete.
- The `unlearn()` calls, the progress `print`s and the global `onedspec.nsum=4` setting are left out. They change only external task state or the console.
- The frame selection `fileSelect.createQuery` / `fileListQuery` and the database `./raw/obsLog.sqlite3` are not part of this model. Selection is the parameter `Calls.Selector`, and no wildcard or range semantics are assumed for it.
- The IRAF tasks are not modelled, only the calls made to them. A failing task, which ends the run, is not represented either.
- `Calls.Produces` assumes the Gemini IRAF naming convention for output names when no output is named: `gs` for `gsreduce`, `t` for `gstransform`, `s` for `gsskysub`, `e` for `gsextract` and `c` for `gscalibrate`. The script relies on this convention when it names each next input, but the convention is not visible in it. The script never reads a default output of the other tasks, so the model gives them no prefix and states nothing about those names.
- `Calls.Produces` names the product of a call on a single input. A `gsreduce` call on a comma-separated list (lines 122, 129 and 136) writes one product per frame. `Properties.ReducedFramesCombined` and `Properties.ReducedArcsFeedFits` state that naming frame by frame.
- `Properties.MatchesTemplate` reads an IRAF file template ending in `*` as a prefix match. IRAF's template expansion is not part of this model.
- Fractional numeric values (`485.0`, `3.`) are kept as their text. The script only passes them on and never computes with them.
- The iteration order of `sciTargets.iteritems()` is not fixed. A run takes the order as the sequence `items`, required to list every entry exactly once, and every per-target property is stated for all such orders.
- The standard-star and science combinations at lines 186 and 225 are not guarded by a check on the number of selected frames, unlike the basic reductions at lines 128 and 135. The model follows the code and makes these calls even when the selection is empty.
- Python's `TypeError` for a keyword passed both explicitly and through a `**bundle` is not modelled as an error path. `Stages.NoCalibrationPassedTwice` and `Stages.NoKeywordPassedTwice` prove that the script never triggers it.
