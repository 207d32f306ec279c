/**
 Properties of a whole run of the reduction: which calls of each task it
 makes and when, how each step's product feeds the next, and what the
 science loop leaves behind in the criteria.
 */
module Properties {
  import opened Values
  import opened Text
  import opened Calls
  import opened Config
  import opened Stages

  /** Every call of `trace` is to one of `tasks`. */
  ghost predicate OnlyTasks(trace: seq<Event>, tasks: set<Task>)
  {
    forall e :: e in trace ==> e.task in tasks
  }

  /** The task each per-region stage calls. */
  function StageTask(s: RegionStage): Task
  {
    match s
    case BiasStage => GBias
    case FlatStage => GSFlat
    case ArcStage => GSReduce
  }

  lemma RegionCallsTask(s: RegionStage, select: Selector, qd: Contexts, regions: seq<Region>)
    ensures OnlyTasks(RegionCalls(s, select, qd, regions), {StageTask(s)})
  {
    RegionCallsMembers(s, select, qd, regions);
    forall e | e in RegionCalls(s, select, qd, regions)
      ensures e.task == StageTask(s)
    {
      var r :| r in regions && |select(StageCategory(s), qd.Of(r))| >= MinFrames(s)
               && e == StageCall(s, r, select(StageCategory(s), qd.Of(r)));
      StageCallShape(s, r, select(StageCategory(s), qd.Of(r)));
    }
  }

  lemma {:induction false} TargetChainsTasks(select: Selector, full: Criteria, items: seq<TargetItem>, n: nat)
    requires NamedItems(items) && n <= |items|
    ensures OnlyTasks(TargetChains(select, full, items, n), {GemCombine, GSTransform, GSSkySub})
  {
    if n > 0 {
      TargetChainsTasks(select, full, items, n - 1);
    }
  }

  /** The calls a per-region stage makes to a task: all of them for its
      own task, none for any other. */
  lemma RegionCallsOfTask(s: RegionStage, select: Selector, qd: Contexts, regions: seq<Region>, t: Task)
    ensures OfTask(RegionCalls(s, select, qd, regions), t) ==
      if t == StageTask(s) then RegionCalls(s, select, qd, regions) else []
  {
    RegionCallsTask(s, select, qd, regions);
    if t == StageTask(s) {
      OfTaskAll(RegionCalls(s, select, qd, regions), t);
    } else {
      OfTaskNone(RegionCalls(s, select, qd, regions), t);
    }
  }

  lemma ReduceCallsOfTask(select: Selector, qd: Contexts, t: Task)
    ensures OfTask(StdReduceCalls(select, qd), t) == if t == GSReduce then StdReduceCalls(select, qd) else []
    ensures OfTask(SciReduceCalls(select, qd), t) == if t == GSReduce then SciReduceCalls(select, qd) else []
  {
  }

  lemma WavelengthCallsOfTask(ids: seq<string>, t: Task)
    ensures OfTask(WavelengthCalls(ids), t) == if t == GSWavelength then WavelengthCalls(ids) else []
  {
    if t == GSWavelength {
      OfTaskAll(WavelengthCalls(ids), t);
    } else {
      OfTaskNone(WavelengthCalls(ids), t);
    }
  }

  lemma StdChainOfTask(frames: seq<string>, t: Task)
    requires t !in {GemCombine, GSTransform, GSSkySub, GSExtract, GSStandard}
    ensures OfTask(StdChain(frames), t) == []
  {
    OfTaskNone(StdChain(frames), t);
  }

  lemma TargetChainsOfTask(select: Selector, full: Criteria, items: seq<TargetItem>, t: Task)
    requires NamedItems(items)
    requires t !in {GemCombine, GSTransform, GSSkySub}
    ensures OfTask(TargetChains(select, full, items, |items|), t) == []
  {
    TargetChainsTasks(select, full, items, |items|);
    OfTaskNone(TargetChains(select, full, items, |items|), t);
  }

  lemma FinalCallsOfTask(t: Task)
    ensures OfTask(FluxCalls(), t) == if t == GSCalibrate then FluxCalls() else []
    ensures OfTask([FinalExtraction()], t) == if t == SArith then [FinalExtraction()] else []
  {
  }

  /** Prepending a log without calls to `t` adds none. */
  lemma OfTaskNoneThen(x: seq<Event>, y: seq<Event>, t: Task)
    requires OfTask(x, t) == []
    ensures OfTask(x + y, t) == OfTask(y, t)
  {
    OfTaskAppend(x, y, t);
    assert [] + OfTask(y, t) == OfTask(y, t);
  }

  /** Appending a log without calls to `t` adds none. */
  lemma OfTaskAppendNone(x: seq<Event>, y: seq<Event>, t: Task)
    requires OfTask(y, t) == []
    ensures OfTask(x + y, t) == OfTask(x, t)
  {
    OfTaskAppend(x, y, t);
    assert OfTask(x, t) + [] == OfTask(x, t);
  }

  /** The master calibrations call `gbias`, `gsflat` and `gsreduce` (for the
      arcs), each from its own stage only. */
  lemma CalibrationsOfTask(select: Selector, q0: Contexts, t: Task)
    ensures var q1 := RelaxDateObs(q0);
      OfTask(Calibrations(select, q0), t) ==
        if t == GBias then RegionCalls(BiasStage, select, q0, Regions)
        else if t == GSFlat then RegionCalls(FlatStage, select, q1, Regions)
        else if t == GSReduce then RegionCalls(ArcStage, select, q1, Regions)
        else []
  {
    var q1 := RelaxDateObs(q0);
    var b, f := RegionCalls(BiasStage, select, q0, Regions), RegionCalls(FlatStage, select, q1, Regions);
    var a := RegionCalls(ArcStage, select, q1, Regions);
    RegionCallsOfTask(BiasStage, select, q0, Regions, t);
    RegionCallsOfTask(FlatStage, select, q1, Regions, t);
    RegionCallsOfTask(ArcStage, select, q1, Regions, t);
    if t == GBias {
      OfTaskAppendNone(b, f, t);
      OfTaskAppendNone(b + f, a, t);
    } else if t == GSFlat {
      OfTaskNoneThen(b, f, t);
      OfTaskAppendNone(b + f, a, t);
    } else {
      OfTaskNoneThen(b, f, t);
      OfTaskNoneThen(b + f, a, t);
    }
  }

  /** The basic reductions call `gsreduce` for the standard, then for the
      science frames, and `gswavelength` for the arcs. */
  lemma ReductionsOfTask(select: Selector, q1: Contexts, t: Task)
    ensures OfTask(Reductions(select, q1), t) ==
      if t == GSReduce then StdReduceCalls(select, q1) + SciReduceCalls(select, q1)
      else if t == GSWavelength then WavelengthCalls(ArcIds)
      else []
  {
    var d, f, g := StdReduceCalls(select, q1), SciReduceCalls(select, q1), WavelengthCalls(ArcIds);
    ReduceCallsOfTask(select, q1, t);
    WavelengthCallsOfTask(ArcIds, t);
    if t == GSReduce {
      OfTaskAppend(d, f, t);
      OfTaskAppendNone(d + f, g, t);
    } else {
      OfTaskNoneThen(d, f, t);
      OfTaskNoneThen(d + f, g, t);
    }
  }

  /** Of the tasks outside the two reduction chains, the spectra call only
      `gscalibrate` (twice) and `sarith` (once). */
  lemma SpectraOfTask(select: Selector, q1: Contexts, items: seq<TargetItem>, t: Task)
    requires NamedItems(items)
    requires t !in {GemCombine, GSTransform, GSSkySub, GSExtract, GSStandard}
    ensures OfTask(Spectra(select, q1, items), t) ==
      if t == GSCalibrate then FluxCalls()
      else if t == SArith then [FinalExtraction()]
      else []
  {
    var h, i := StdChain(select(Std, q1.cenSp)), TargetChains(select, q1.full, items, |items|);
    var j, k := FluxCalls(), [FinalExtraction()];
    StdChainOfTask(select(Std, q1.cenSp), t);
    TargetChainsOfTask(select, q1.full, items, t);
    FinalCallsOfTask(t);
    OfTaskNoneThen(h, i, t);
    OfTaskNoneThen(h + i, j, t);
    if t == GSCalibrate {
      OfTaskAppendNone(h + i + j, k, t);
    } else {
      OfTaskNoneThen(h + i + j, k, t);
    }
  }

  /** `gbias` is called by the bias stage and by no other: the run's bias
      calls are exactly the per-region master biases, in region order. */
  lemma BiasCallsOfRun(select: Selector, q0: Contexts, items: seq<TargetItem>)
    requires NamedItems(items)
    ensures OfTask(Run(select, q0, items), GBias) == RegionCalls(BiasStage, select, q0, Regions)
  {
    var t, q1 := GBias, RelaxDateObs(q0);
    CalibrationsOfTask(select, q0, t);
    ReductionsOfTask(select, q1, t);
    SpectraOfTask(select, q1, items, t);
    OfTaskAppendNone(Calibrations(select, q0), Reductions(select, q1), t);
    OfTaskAppendNone(Calibrations(select, q0) + Reductions(select, q1), Spectra(select, q1, items), t);
  }

  /** `gsflat` is called by the flat stage only, with the relaxed dates. */
  lemma FlatCallsOfRun(select: Selector, q0: Contexts, items: seq<TargetItem>)
    requires NamedItems(items)
    ensures OfTask(Run(select, q0, items), GSFlat) == RegionCalls(FlatStage, select, RelaxDateObs(q0), Regions)
  {
    var t, q1 := GSFlat, RelaxDateObs(q0);
    CalibrationsOfTask(select, q0, t);
    ReductionsOfTask(select, q1, t);
    SpectraOfTask(select, q1, items, t);
    OfTaskAppendNone(Calibrations(select, q0), Reductions(select, q1), t);
    OfTaskAppendNone(Calibrations(select, q0) + Reductions(select, q1), Spectra(select, q1, items), t);
  }

  /** `gsreduce` is called for the arcs of each region, then for the
      standard star, then for the science frames, and at no other point. */
  lemma ReduceCallsOfRun(select: Selector, q0: Contexts, items: seq<TargetItem>)
    requires NamedItems(items)
    ensures var q1 := RelaxDateObs(q0);
      OfTask(Run(select, q0, items), GSReduce) ==
        RegionCalls(ArcStage, select, q1, Regions) + (StdReduceCalls(select, q1) + SciReduceCalls(select, q1))
  {
    var t, q1 := GSReduce, RelaxDateObs(q0);
    CalibrationsOfTask(select, q0, t);
    ReductionsOfTask(select, q1, t);
    SpectraOfTask(select, q1, items, t);
    OfTaskAppend(Calibrations(select, q0), Reductions(select, q1), t);
    OfTaskAppendNone(Calibrations(select, q0) + Reductions(select, q1), Spectra(select, q1, items), t);
  }

  /** `gswavelength` is called by the wavelength stage only: exactly once
      per listed arc, in list order. */
  lemma WavelengthCallsOfRun(select: Selector, q0: Contexts, items: seq<TargetItem>)
    requires NamedItems(items)
    ensures OfTask(Run(select, q0, items), GSWavelength) == WavelengthCalls(ArcIds)
  {
    var t, q1 := GSWavelength, RelaxDateObs(q0);
    CalibrationsOfTask(select, q0, t);
    ReductionsOfTask(select, q1, t);
    SpectraOfTask(select, q1, items, t);
    OfTaskNoneThen(Calibrations(select, q0), Reductions(select, q1), t);
    OfTaskAppendNone(Calibrations(select, q0) + Reductions(select, q1), Spectra(select, q1, items), t);
  }

  /** `gscalibrate` is called exactly twice in a run: the two flux
      calibrations. */
  lemma CalibrationCallsOfRun(select: Selector, q0: Contexts, items: seq<TargetItem>)
    requires NamedItems(items)
    ensures OfTask(Run(select, q0, items), GSCalibrate) == FluxCalls()
  {
    var t, q1 := GSCalibrate, RelaxDateObs(q0);
    CalibrationsOfTask(select, q0, t);
    ReductionsOfTask(select, q1, t);
    SpectraOfTask(select, q1, items, t);
    OfTaskNoneThen(Calibrations(select, q0), Reductions(select, q1), t);
    OfTaskNoneThen(Calibrations(select, q0) + Reductions(select, q1), Spectra(select, q1, items), t);
  }

  /** A run makes the master bias of region `r` (from the frames selected
      with the criteria as first built) exactly when more than one frame is
      selected; it makes no other `gbias` call. */
  lemma MasterBiasIff(select: Selector, q0: Contexts, items: seq<TargetItem>, r: Region)
    requires NamedItems(items) && r in Regions
    ensures var frames := select(Category.Bias, q0.Of(r));
      StageCall(BiasStage, r, frames) in Run(select, q0, items) <==> |frames| > 1
    ensures forall e :: e in Run(select, q0, items) && e.task == GBias ==>
      exists r' :: r' in Regions && e == StageCall(BiasStage, r', select(Category.Bias, q0.Of(r')))
  {
    BiasCallsOfRun(select, q0, items);
    OfTaskMembers(Run(select, q0, items), GBias);
    StageRunsIff(BiasStage, select, q0, r);
    StageCallShape(BiasStage, r, select(Category.Bias, q0.Of(r)));
  }

  /** A run makes the master flat of region `r` (from the flats selected
      with the dates relaxed) exactly when at least one flat is selected; it
      makes no other `gsflat` call. */
  lemma MasterFlatIff(select: Selector, q0: Contexts, items: seq<TargetItem>, r: Region)
    requires NamedItems(items) && r in Regions
    ensures var frames := select(GcalFlat, RelaxDateObs(q0).Of(r));
      StageCall(FlatStage, r, frames) in Run(select, q0, items) <==> |frames| > 0
    ensures forall e :: e in Run(select, q0, items) && e.task == GSFlat ==>
      exists r' :: r' in Regions && e == StageCall(FlatStage, r', select(GcalFlat, RelaxDateObs(q0).Of(r')))
  {
    var q1 := RelaxDateObs(q0);
    FlatCallsOfRun(select, q0, items);
    OfTaskMembers(Run(select, q0, items), GSFlat);
    StageRunsIff(FlatStage, select, q1, r);
    StageCallShape(FlatStage, r, select(GcalFlat, q1.Of(r)));
  }

  /** The four wavelength fits are on the arc exposures 071, 081, 091 and
      109, in that order, each with the wavelength bundle. */
  lemma ArcFits()
    ensures |WavelengthCalls(ArcIds)| == 4
    ensures WavelengthCalls(ArcIds)[0].input == "gsS20070623S0071"
    ensures WavelengthCalls(ArcIds)[1].input == "gsS20070623S0081"
    ensures WavelengthCalls(ArcIds)[2].input == "gsS20070623S0091"
    ensures WavelengthCalls(ArcIds)[3].input == "gsS20070623S0109"
    ensures forall e :: e in WavelengthCalls(ArcIds) ==> e.output == Default && e.options == WaveFlags
  {
  }

  /** The second flux calibration is the first with variance propagation
      switched off, applied to the extracted standard instead of the
      sky-subtracted targets. */
  lemma FluxCallsDiffer()
    ensures |FluxCalls()| == 2
    ensures FluxCalls()[0].input == "stAM2306*" && FluxCalls()[1].input == "estLTT9239"
    ensures SameExcept(FluxCalls()[1].options, FluxCalls()[0].options, {FlVardq})
    ensures FluxCalls()[0].options[FlVardq] == Str("yes") && FluxCalls()[1].options[FlVardq] == Str("no")
  {
    UpdateSpec(CalibFlags, CalibOverrides);
  }

  /** Three consecutive elements of `a + b` starting at `k`: inside `a`
      when they fit there, all of `b` when `b` has three and starts at `k`. */
  lemma SliceOfAppend<T>(a: seq<T>, b: seq<T>, k: nat)
    requires k + 3 <= |a| || (k == |a| && |b| == 3)
    ensures (a + b)[k..k + 3] == if k + 3 <= |a| then a[k..k + 3] else b
  {
  }

  /** The chains of the first `n` targets hold the chain of target `m` at
      positions `3m` to `3m + 2`, selected with the full-frame criteria as
      the loop left them when it reached `m`. */
  lemma {:induction false} TargetChainsSlice(select: Selector, full: Criteria, items: seq<TargetItem>, n: nat, m: nat)
    requires NamedItems(items) && m < n <= |items|
    ensures TargetChains(select, full, items, n)[3 * m..3 * m + 3] ==
      TargetChain(select, LastObject(full, items, m + 1), items[m].0, items[m].1)
  {
    var prev := TargetChains(select, full, items, n - 1);
    var last := TargetChain(select, LastObject(full, items, n), items[n - 1].0, items[n - 1].1);
    assert TargetChains(select, full, items, n) == prev + last;
    SliceOfAppend(prev, last, 3 * m);
    if m < n - 1 {
      TargetChainsSlice(select, full, items, n - 1, m);
    }
  }

  /** The `m`-th entry visited has its chain at positions `3m` to `3m + 2`,
      with the record the dictionary holds for it. */
  lemma TargetReducedAt(select: Selector, full: Criteria, items: seq<TargetItem>, dict: map<string, TargetRecord>, m: nat)
    requires Enumerates(items, dict) && NamedItems(items) && m < |items|
    ensures items[m].0 in dict
    ensures TargetChains(select, full, items, |items|)[3 * m..3 * m + 3] ==
      TargetChain(select, full[Object := Str(items[m].0)], items[m].0, dict[items[m].0])
  {
    TargetChainsSlice(select, full, items, |items|, m);
  }

  /** Whatever order `items` lists a dictionary's entries in, every entry
      has its chain in the science loop, with its own record. */
  lemma EveryTargetReduced(select: Selector, full: Criteria, items: seq<TargetItem>, dict: map<string, TargetRecord>)
    requires Enumerates(items, dict) && NamedItems(items)
    ensures forall name :: name in dict ==>
      exists m :: (0 <= m < |items| && items[m].0 == name &&
        TargetChains(select, full, items, |items|)[3 * m..3 * m + 3] ==
          TargetChain(select, full[Object := Str(name)], name, dict[name]))
  {
    forall name | name in dict
      ensures exists m :: (0 <= m < |items| && items[m].0 == name &&
        TargetChains(select, full, items, |items|)[3 * m..3 * m + 3] ==
          TargetChain(select, full[Object := Str(name)], name, dict[name]))
    {
      var m :| 0 <= m < |items| && items[m].0 == name;
      TargetReducedAt(select, full, items, dict, m);
    }
  }

  /** The standard-star chain: the combination reads the reduced (`gs`)
      standard frames into `LTT9239`, which is rectified, sky-subtracted,
      extracted and used for the sensitivity. */
  lemma StdChainShape(frames: seq<string>)
    ensures var c := StdChain(frames);
      && |c| == 5
      && c[0].task == GemCombine && c[0].input == Join(Prefixed("gs", frames), ',')
      && c[0].output == Named("LTT9239")
      && c[1].task == GSTransform && c[2].task == GSSkySub
      && c[3].task == GSExtract && c[4].task == GSStandard
  {
  }

  /** The standard star is rectified with the solution of arc 109. */
  lemma StdChainArc(frames: seq<string>)
    ensures |StdChain(frames)| == 5
    ensures StdChain(frames)[1].options[Wavtraname] == Str(ArcPrefix + ArcIds[3])
  {
    StandardArc();
  }

  /** Each step of the standard-star chain consumes what the previous one
      produced. */
  lemma StdChainLinked(frames: seq<string>)
    ensures var c := StdChain(frames);
      |c| == 5 && Feeds(c[0], c[1]) && Feeds(c[1], c[2]) && Feeds(c[2], c[3]) && Feeds(c[3], c[4])
  {
    StandardNames();
  }

  /** The names the standard star's products get from the default prefixes. */
  lemma StandardNames()
    ensures "t" + "LTT9239" == "tLTT9239"
    ensures "s" + "tLTT9239" == "stLTT9239"
    ensures "e" + "stLTT9239" == "estLTT9239"
  {
  }

  /** A target's chain: the combination is named by the target's short name
      and reads its reduced frames, each step consumes the previous product,
      and the target's own arc and sky rows are used. */
  lemma TargetChainLinked(select: Selector, criteria: Criteria, target: string, p: TargetRecord)
    requires |target| > 0
    ensures var c := TargetChain(select, criteria, target, p);
      && |c| == 3
      && c[0].task == GemCombine && c[0].input == Join(Prefixed("gs", select(SciSpec, criteria)), ',')
      && c[0].output == Named(ShortName(target))
      && c[1].task == GSTransform && c[1].options[Wavtraname] == Str(p.arc)
      && c[2].task == GSSkySub && c[2].options[LongSample] == Str(p.sky)
      && Feeds(c[0], c[1]) && Feeds(c[1], c[2])
      && Produces(c[2]) == "st" + ShortName(target)
  {
    var out := ShortName(target);
    assert "s" + ("t" + out) == "st" + out;
  }

  /** The short names of the three science targets. */
  lemma ScienceShortNames()
    ensures ShortName("AM2306-721_a") == "AM2306a"
    ensures ShortName("AM2306-72_b") == "AM2306b"
    ensures ShortName("AM2306-721_c") == "AM2306c"
  {
    assert "AM2306-721_a" == "AM2306" + "-" + "721_a" && "AM2306a" == "AM2306" + ['a'];
    assert "AM2306-72_b" == "AM2306" + "-" + "72_b" && "AM2306b" == "AM2306" + ['b'];
    assert "AM2306-721_c" == "AM2306" + "-" + "721_c" && "AM2306c" == "AM2306" + ['c'];
    ShortNameOfDashed("AM2306", "721_a");
    ShortNameOfDashed("AM2306", "72_b");
    ShortNameOfDashed("AM2306", "721_c");
  }

  /** `name` matches a file template ending in `*`: it begins with the rest
      of the template. */
  predicate MatchesTemplate(template: string, name: string)
  {
    |template| > 0 && template[|template| - 1] == '*' && template[..|template| - 1] <= name
  }

  /** The sky-subtracted spectrum of the science target `target`. */
  function TargetProduct(select: Selector, criteria: Criteria, target: string): string
    requires target in SciTargets
  {
    Produces(TargetChain(select, criteria, target, SciTargets[target])[2])
  }

  /** Every science target is named `AM2306-` followed by more, so its
      short name is `AM2306` and its last character. */
  lemma ScienceShortNameStem(name: string)
    requires name in SciTargets
    ensures |name| > 0 && ShortName(name) == "AM2306" + [name[|name| - 1]]
  {
    var rest := if name == "AM2306-72_b" then "72_b" else name[7..];
    assert name == "AM2306" + "-" + rest;
    ShortNameOfDashed("AM2306", rest);
  }

  /** `stAM2306*` matches every name `stAM2306` plus one character. */
  lemma TemplateMatchesStem(c: char)
    ensures MatchesTemplate("stAM2306*", "st" + ("AM2306" + [c]))
  {
    assert "stAM2306*"[..8] == "st" + "AM2306";
  }

  /** The first flux calibration's template `stAM2306*` covers the
      sky-subtracted spectrum of every science target. */
  lemma CalibrationCoversTargets(select: Selector, criteria: Criteria)
    ensures forall name :: name in SciTargets ==>
      MatchesTemplate(FluxCalls()[0].input, TargetProduct(select, criteria, name))
  {
    FluxCallsDiffer();
    forall name | name in SciTargets
      ensures MatchesTemplate(FluxCalls()[0].input, TargetProduct(select, criteria, name))
    {
      TargetChainLinked(select, criteria, name, SciTargets[name]);
      ScienceShortNameStem(name);
      TemplateMatchesStem(name[|name| - 1]);
    }
  }

  /** The template `stAM2306*` does not cover the standard's sky-subtracted
      spectrum `stLTT9239`, which is calibrated on its own after extraction. */
  lemma CalibrationSkipsStandard(frames: seq<string>)
    ensures !MatchesTemplate(FluxCalls()[0].input, Produces(StdChain(frames)[2]))
  {
    FluxCallsDiffer();
    StandardNotMatched();
  }

  /** The standard's sky-subtracted spectrum is `stLTT9239`, which the
      template `stAM2306*` does not match. */
  lemma StandardNotMatched()
    ensures "s" + "tLTT9239" == "stLTT9239"
    ensures !MatchesTemplate("stAM2306*", "stLTT9239")
  {
    assert "stLTT9239"[2] != "stAM2306*"[2];
  }

  /** The name of the flux-calibrated spectrum of target b, as the final
      extraction spells it. */
  lemma CalibratedTargetB()
    ensures "c" + ("st" + "AM2306b") + ".fits[SCI]" == "cstAM2306b.fits[SCI]"
  {
  }

  /** The final extraction reads the flux-calibrated spectrum of target b. */
  lemma FinalExtractionOfTargetB(select: Selector, criteria: Criteria)
    ensures FinalExtraction().input ==
      DefaultPrefix(GSCalibrate) + TargetProduct(select, criteria, "AM2306-72_b") + ".fits[SCI]"
  {
    CalibratedTargetB();
    assert FinalExtraction().input == DefaultPrefix(GSCalibrate) + ("st" + "AM2306b") + ".fits[SCI]";
    TargetChainLinked(select, criteria, "AM2306-72_b", SciTargets["AM2306-72_b"]);
    ScienceShortNames();
  }

  /** When `a` makes no call to `tb` and `b` none to `ta`, every call to
      `ta` in `a + b` comes before every call to `tb`. */
  lemma TasksSeparated(a: seq<Event>, b: seq<Event>, ta: Task, tb: Task)
    requires OfTask(a, tb) == [] && OfTask(b, ta) == []
    ensures forall i, j ::
      (0 <= i < |a + b| && 0 <= j < |a + b| && (a + b)[i].task == ta && (a + b)[j].task == tb) ==> i < j
  {
    OfTaskMembers(a, tb);
    OfTaskMembers(b, ta);
    forall k | 0 <= k < |a|
      ensures (a + b)[k].task != tb
    {
      assert (a + b)[k] == a[k];
    }
    forall k | |a| <= k < |a + b|
      ensures (a + b)[k].task != ta
    {
      assert (a + b)[k] == b[k - |a|];
    }
  }

  /** Every wavelength fit of a run comes before every rectification that
      uses the fitted solutions. */
  lemma WavelengthsBeforeTransforms(select: Selector, q0: Contexts, items: seq<TargetItem>)
    requires NamedItems(items)
    ensures var run := Run(select, q0, items);
      forall i, j ::
        (0 <= i < |run| && 0 <= j < |run| && run[i].task == GSWavelength && run[j].task == GSTransform) ==> i < j
  {
    var q1 := RelaxDateObs(q0);
    var pre, post := Calibrations(select, q0) + Reductions(select, q1), Spectra(select, q1, items);
    CalibrationsOfTask(select, q0, GSTransform);
    ReductionsOfTask(select, q1, GSTransform);
    OfTaskNoneThen(Calibrations(select, q0), Reductions(select, q1), GSTransform);
    SpectraOfTask(select, q1, items, GSWavelength);
    TasksSeparated(pre, post, GSWavelength, GSTransform);
  }

  /** The calls of a run before its flux calibration, that is the
      calibrations, the reductions and both reduction chains, call neither
      `gscalibrate` nor `sarith`. */
  lemma BeforeFluxOfTask(select: Selector, q0: Contexts, items: seq<TargetItem>, t: Task)
    requires NamedItems(items)
    requires t in {GSCalibrate, SArith}
    ensures var q1 := RelaxDateObs(q0);
      OfTask(Calibrations(select, q0) + Reductions(select, q1)
        + StdChain(select(Std, q1.cenSp)) + TargetChains(select, q1.full, items, |items|), t) == []
  {
    var q1 := RelaxDateObs(q0);
    var c, r := Calibrations(select, q0), Reductions(select, q1);
    var h, i := StdChain(select(Std, q1.cenSp)), TargetChains(select, q1.full, items, |items|);
    CalibrationsOfTask(select, q0, t);
    ReductionsOfTask(select, q1, t);
    StdChainOfTask(select(Std, q1.cenSp), t);
    TargetChainsOfTask(select, q1.full, items, t);
    OfTaskNoneThen(c, r, t);
    OfTaskNoneThen(c + r, h, t);
    OfTaskNoneThen(c + r + h, i, t);
  }

  /** A run is its calls stage by stage, one after the other. */
  lemma RunInOrder(select: Selector, q0: Contexts, items: seq<TargetItem>)
    requires NamedItems(items)
    ensures var q1 := RelaxDateObs(q0);
      Run(select, q0, items) ==
        Calibrations(select, q0) + Reductions(select, q1) + StdChain(select(Std, q1.cenSp))
          + TargetChains(select, q1.full, items, |items|) + FluxCalls() + [FinalExtraction()]
  {
    var q1 := RelaxDateObs(q0);
    var c, r := Calibrations(select, q0), Reductions(select, q1);
    var h, i := StdChain(select(Std, q1.cenSp)), TargetChains(select, q1.full, items, |items|);
    var j, k := FluxCalls(), [FinalExtraction()];
    assert Run(select, q0, items) == (c + r) + (h + i + j + k);
    AppendAssoc(c + r, h + i + j, k);
    AppendAssoc(c + r, h + i, j);
    AppendAssoc(c + r, h, i);
  }

  /** A log made of two parts, the first without calls to `tb` and the
      second without calls to `ta`, has every `ta` call before every `tb` call. */
  lemma SeparatedLog(run: seq<Event>, a: seq<Event>, b: seq<Event>, ta: Task, tb: Task)
    requires run == a + b
    requires OfTask(a, tb) == [] && OfTask(b, ta) == []
    ensures forall i, j ::
      (0 <= i < |run| && 0 <= j < |run| && run[i].task == ta && run[j].task == tb) ==> i < j
  {
    TasksSeparated(a, b, ta, tb);
  }

  /** The calls of a run up to the final extraction make no `sarith` call. */
  lemma BeforeExtractionOfTask(select: Selector, q0: Contexts, items: seq<TargetItem>)
    requires NamedItems(items)
    ensures var q1 := RelaxDateObs(q0);
      OfTask(Calibrations(select, q0) + Reductions(select, q1) + StdChain(select(Std, q1.cenSp))
        + TargetChains(select, q1.full, items, |items|) + FluxCalls(), SArith) == []
  {
    var q1 := RelaxDateObs(q0);
    var chains := Calibrations(select, q0) + Reductions(select, q1) + StdChain(select(Std, q1.cenSp))
      + TargetChains(select, q1.full, items, |items|);
    BeforeFluxOfTask(select, q0, items, SArith);
    FinalCallsOfTask(SArith);
    OfTaskAppendNone(chains, FluxCalls(), SArith);
  }

  /** The flux calibrations and the final extraction call only `gscalibrate`
      and `sarith`. */
  lemma FluxTailOfTask(t: Task)
    requires t !in {GSCalibrate, SArith}
    ensures OfTask(FluxCalls() + [FinalExtraction()], t) == []
  {
    FinalCallsOfTask(t);
    OfTaskNoneThen(FluxCalls(), [FinalExtraction()], t);
  }

  /** A run split where the flux calibration starts. */
  lemma RunAtFlux(select: Selector, q0: Contexts, items: seq<TargetItem>)
    requires NamedItems(items)
    ensures var q1 := RelaxDateObs(q0);
      Run(select, q0, items) ==
        (Calibrations(select, q0) + Reductions(select, q1) + StdChain(select(Std, q1.cenSp))
          + TargetChains(select, q1.full, items, |items|)) + (FluxCalls() + [FinalExtraction()])
  {
    var q1 := RelaxDateObs(q0);
    var pre := Calibrations(select, q0) + Reductions(select, q1) + StdChain(select(Std, q1.cenSp))
      + TargetChains(select, q1.full, items, |items|);
    RunInOrder(select, q0, items);
    AppendAssoc(pre, FluxCalls(), [FinalExtraction()]);
  }

  /** Both flux calibrations come after every call to any task other than
      `gscalibrate` and `sarith`: after every reduction chain, every sky
      subtraction and the derivation of the sensitivity function. */
  lemma ChainsBeforeCalibration(select: Selector, q0: Contexts, items: seq<TargetItem>, t: Task)
    requires NamedItems(items)
    requires t !in {GSCalibrate, SArith}
    ensures var run := Run(select, q0, items);
      forall i, j ::
        (0 <= i < |run| && 0 <= j < |run| && run[i].task == t && run[j].task == GSCalibrate) ==> i < j
  {
    var q1 := RelaxDateObs(q0);
    var pre := Calibrations(select, q0) + Reductions(select, q1) + StdChain(select(Std, q1.cenSp))
      + TargetChains(select, q1.full, items, |items|);
    RunAtFlux(select, q0, items);
    BeforeFluxOfTask(select, q0, items, GSCalibrate);
    FluxTailOfTask(t);
    SeparatedLog(Run(select, q0, items), pre, FluxCalls() + [FinalExtraction()], t, GSCalibrate);
  }

  /** The final extraction is the last call of a run: it comes after both
      flux calibrations and after every other call. */
  lemma ExtractionLast(select: Selector, q0: Contexts, items: seq<TargetItem>, t: Task)
    requires NamedItems(items)
    requires t != SArith
    ensures var run := Run(select, q0, items);
      forall i, j ::
        (0 <= i < |run| && 0 <= j < |run| && run[i].task == t && run[j].task == SArith) ==> i < j
  {
    var q1 := RelaxDateObs(q0);
    var pre := Calibrations(select, q0) + Reductions(select, q1) + StdChain(select(Std, q1.cenSp))
      + TargetChains(select, q1.full, items, |items|) + FluxCalls();
    RunInOrder(select, q0, items);
    BeforeExtractionOfTask(select, q0, items);
    FinalCallsOfTask(t);
    SeparatedLog(Run(select, q0, items), pre, [FinalExtraction()], t, SArith);
  }

  /** A frame reduced with no output name is written as `gs` followed by its
      name, which is the name the combinations read. */
  lemma ReducedFramesCombined(frames: seq<string>, bundle: Options, r: Region, flat: bool)
    ensures |Prefixed("gs", frames)| == |frames|
    ensures forall i :: 0 <= i < |frames| ==>
      Produces(ReduceCall([frames[i]], bundle, r, flat)) == Prefixed("gs", frames)[i]
  {
    PrefixedSpec("gs", frames);
  }

  /** Each wavelength fit reads the reduced arc that the arc reduction
      writes for the arc exposure of that number. */
  lemma ReducedArcsFeedFits(r: Region)
    ensures forall i :: 0 <= i < |ArcIds| ==>
      Feeds(ReduceCall(["S20070623S0" + ArcIds[i]], ArcFlags, r, false), WavelengthCalls(ArcIds)[i])
  {
    forall i | 0 <= i < |ArcIds|
      ensures Feeds(ReduceCall(["S20070623S0" + ArcIds[i]], ArcFlags, r, false), WavelengthCalls(ArcIds)[i])
    {
      assert "gs" + ("S20070623S0" + ArcIds[i]) == ArcPrefix + ArcIds[i];
    }
  }

  /** Every rectification uses a dispersion solution the run fits: each
      target's arc and the standard's arc 109 are wavelength-fitted arcs. */
  lemma ArcsUsedAreFitted()
    ensures forall name :: name in SciTargets ==>
      exists e :: e in WavelengthCalls(ArcIds) && e.input == SciTargets[name].arc
    ensures exists e :: e in WavelengthCalls(ArcIds) && e.input == "gsS20070623S0109"
  {
    ArcFits();
    var w := WavelengthCalls(ArcIds);
    assert w[0] in w && w[1] in w && w[2] in w && w[3] in w;
  }

  /** Because the science loop writes the object through an alias of the
      full-frame criteria, a run ends with the full-frame object naming the
      last target visited, no longer the wildcard `AM2306-72%`; the other
      full-frame criteria and the central-spectrum criteria are as the
      flat stage left them. */
  lemma ScienceLoopOverwritesFull(items: seq<TargetItem>)
    requires Enumerates(items, SciTargets)
    ensures |items| > 0
    ensures var q1 := RelaxDateObs(InitialContexts());
      && FinalContexts(items).cenSp == q1.cenSp
      && SameExcept(FinalContexts(items).full, q1.full, {Object})
      && FinalContexts(items).full[Object] == Str(items[|items| - 1].0)
      && FinalContexts(items).full[Object] != FullCriteria[Object]
  {
    assert "AM2306-72_b" in SciTargets;
    var q1 := RelaxDateObs(InitialContexts());
    var last := items[|items| - 1].0;
    assert last in SciTargets;
    assert last != "AM2306-72%";
  }
}
