/**
 What each stage of the reduction asks of the external tasks, as a function
 of the selection function and of the region criteria in force when the
 stage runs. The class in the Pipeline module performs the stages step by
 step; these functions say what its call log must be.
 */
module Stages {
  import opened Values
  import opened Text
  import opened Calls
  import opened Config

  /** The criteria of the two regions (`qd`, a dictionary whose keys are
      exactly the two region names). */
  datatype Contexts = Contexts(full: Criteria, cenSp: Criteria)
  {
    /** `qd.Of(r)` */
    function Of(r: Region): Criteria
    {
      match r
      case Full => full
      case CenSp => cenSp
    }
  }

  /** `qd` once the central-spectrum criteria have been copied from the
      full-frame ones and overridden. */
  function InitialContexts(): (qd: Contexts)
    ensures qd.full == FullCriteria
    ensures SameExcept(qd.cenSp, qd.full, CenSpOverrides.Keys)
    ensures forall k :: k in CenSpOverrides ==> qd.cenSp[k] == CenSpOverrides[k]
  {
    Contexts(FullCriteria, Update(FullCriteria, CenSpOverrides))
  }

  /** `qd.Of(r).update({'DateObs':'*'})` for both regions: every observation
      date is admitted, and nothing else about the criteria changes. */
  function RelaxDateObs(qd: Contexts): (r: Contexts)
    ensures forall reg: Region ::
      && r.Of(reg).Keys == qd.Of(reg).Keys + {DateObs}
      && r.Of(reg)[DateObs] == Str("*")
      && forall k :: k in qd.Of(reg) && k != DateObs ==> r.Of(reg)[k] == qd.Of(reg)[k]
  {
    var star := map[DateObs := Str("*")];
    Contexts(Update(qd.full, star), Update(qd.cenSp, star))
  }

  /** The three stages that run once per region. */
  datatype RegionStage = BiasStage | FlatStage | ArcStage

  function StageCategory(s: RegionStage): Category
  {
    match s
    case BiasStage => Category.Bias
    case FlatStage => GcalFlat
    case ArcStage => Arc
  }

  /** The fewest frames a region needs for the stage to run: the bias is
      combined only from more than one frame, the others from at least one. */
  function MinFrames(s: RegionStage): nat
  {
    if s == BiasStage then 2 else 1
  }

  /** A basic reduction (`gsreduce`) of the joined frames with the region's
      master bias and, when `flat` holds, its master flat. */
  function ReduceCall(frames: seq<string>, bundle: Options, r: Region, flat: bool): Event
  {
    var cals := if flat then map[Param.Bias := Str(MasterBias(r)), Flatim := Str(MasterFlat(r))]
                else map[Param.Bias := Str(MasterBias(r))];
    Call(GSReduce, Join(frames, ','), Default, Kwargs(bundle, cals))
  }

  /** `gemcombine` of the reduced frames (`gs` + frame) into `out`. */
  function CombineCall(frames: seq<string>, out: string, bundle: Options): Event
  {
    Call(GemCombine, Join(Prefixed("gs", frames), ','), Named(out), bundle)
  }

  /** `gstransform` of `input` with the wavelength solution of arc `arc`. */
  function TransformCall(input: string, arc: string): Event
  {
    Call(GSTransform, input, Default, Kwargs(TransFlags, map[Wavtraname := Str(arc)]))
  }

  /** `gsskysub` of `input` with the sky sampled over the rows `sky`. */
  function SkySubCall(input: string, sky: string, bundle: Options): Event
  {
    Call(GSSkySub, input, Default, Kwargs(bundle, map[LongSample := Str(sky)]))
  }

  /** `gsextract` of `input` with the extraction bundle. */
  function ExtractCall(input: string): Event
  {
    Call(GSExtract, input, Default, ExtrFlags)
  }

  /** `gsstandard` of `input`, writing the standard-star table `std.txt`
      and the sensitivity function `sens`. */
  function StandardCall(input: string): Event
  {
    Call(GSStandard, input, Default, Kwargs(SensFlags, map[Sfile := Str("std.txt"), Sfunction := Str("sens")]))
  }

  /** No call of the script passes a keyword both explicitly and through
      its bundle, so none raises Python's duplicate-keyword `TypeError`.
      Here: the master calibrations given to `gsreduce` are absent from the
      three reduction bundles. */
  lemma NoCalibrationPassedTwice()
    ensures Param.Bias !in SciFlags && Flatim !in SciFlags
    ensures Param.Bias !in ArcFlags && Flatim !in ArcFlags
    ensures Param.Bias !in StdFlags && Flatim !in StdFlags
  {
    assert ArcFlags.Keys == SciFlags.Keys + ArcOverrides.Keys;
    assert StdFlags.Keys == SciFlags.Keys + StdOverrides.Keys;
  }

  /** Likewise for the master bias given to `gsflat`, the wavelength
      solution given to `gstransform`, the sky rows given to `gsskysub` and
      the output names given to `gsstandard`. */
  lemma NoKeywordPassedTwice()
    ensures Param.Bias !in FlatFlags
    ensures Wavtraname !in TransFlags
    ensures LongSample !in SkyFlags
    ensures Sfile !in SensFlags && Sfunction !in SensFlags
  {
  }

  /** The call a stage makes for region `r` on the selected frames: a master
      bias `MCbias<r>`, a master flat `MCflat<r>` reduced with that bias, or
      the arcs reduced with that bias. */
  function StageCall(s: RegionStage, r: Region, frames: seq<string>): Event
  {
    var bias := map[Param.Bias := Str(MasterBias(r))];
    match s
    case BiasStage => Call(GBias, Join(frames, ','), Named(MasterBias(r)), BiasFlags)
    case FlatStage => Call(GSFlat, Join(frames, ','), Named(MasterFlat(r)), Kwargs(FlatFlags, bias))
    case ArcStage => ReduceCall(frames, ArcFlags, r, false)
  }

  /** A per-region call names its region in what it produces or uses: the
      master bias `MCbias<r>`, the master flat `MCflat<r>` made with bias
      `MCbias<r>`, or the arcs reduced with bias `MCbias<r>`; its input is the
      selected frames joined with commas, in selection order. */
  lemma StageCallShape(s: RegionStage, r: Region, frames: seq<string>)
    ensures StageCall(s, r, frames).input == Join(frames, ',')
    ensures s == BiasStage ==>
      var e := StageCall(s, r, frames);
      e.task == GBias && e.output == Named(MasterBias(r)) && e.options == BiasFlags
    ensures s == FlatStage ==>
      var e := StageCall(s, r, frames);
      && e.task == GSFlat && e.output == Named(MasterFlat(r))
      && Param.Bias in e.options && e.options[Param.Bias] == Str(MasterBias(r))
      && forall k :: k != Param.Bias ==> (k in e.options <==> k in FlatFlags) && (k in FlatFlags ==> e.options[k] == FlatFlags[k])
    ensures s == ArcStage ==>
      var e := StageCall(s, r, frames);
      && e.task == GSReduce && e.output == Default
      && Param.Bias in e.options && e.options[Param.Bias] == Str(MasterBias(r))
      && forall k :: k != Param.Bias ==> (k in e.options <==> k in ArcFlags) && (k in ArcFlags ==> e.options[k] == ArcFlags[k])
  {
    match s
    case BiasStage =>
    case FlatStage => WithBias(FlatFlags, r);
    case ArcStage => WithBias(ArcFlags, r);
  }

  /** A bundle with `bias` added holds that bias and, for every other key,
      exactly what the bundle holds. */
  lemma WithBias(bundle: Options, r: Region)
    ensures var o := Kwargs(bundle, map[Param.Bias := Str(MasterBias(r))]);
      && Param.Bias in o && o[Param.Bias] == Str(MasterBias(r))
      && forall k :: k != Param.Bias ==> (k in o <==> k in bundle) && (k in bundle ==> o[k] == bundle[k])
  {
  }

  /** Different regions never share a per-region call. */
  lemma StageCallDeterminesRegion(s: RegionStage, r1: Region, f1: seq<string>, r2: Region, f2: seq<string>)
    requires StageCall(s, r1, f1) == StageCall(s, r2, f2)
    ensures r1 == r2
  {
    StageCallShape(s, r1, f1);
    StageCallShape(s, r2, f2);
    var tag := if s == FlatStage then "MCflat" else "MCbias";
    assert tag + RegionName(r1) == tag + RegionName(r2);
    assert (tag + RegionName(r1))[|tag|..] == RegionName(r1);
    assert (tag + RegionName(r2))[|tag|..] == RegionName(r2);
  }

  /** The calls of one per-region stage over `regions`, in region order. */
  function RegionCalls(s: RegionStage, select: Selector, qd: Contexts, regions: seq<Region>): seq<Event>
  {
    if regions == [] then []
    else
      var r := regions[|regions| - 1];
      var frames := select(StageCategory(s), qd.Of(r));
      RegionCalls(s, select, qd, regions[..|regions| - 1])
        + (if |frames| >= MinFrames(s) then [StageCall(s, r, frames)] else [])
  }

  /** Standard-star frames are reduced once, in the central-spectrum region,
      with its master bias and master flat, if any are selected. */
  function StdReduceCalls(select: Selector, qd: Contexts): seq<Event>
  {
    var frames := select(Std, qd.cenSp);
    if |frames| > 0 then
      [ReduceCall(frames, StdFlags, CenSp, true)]
    else []
  }

  /** Science frames are reduced once, in the full-frame region, with its
      master bias and master flat, if any are selected. */
  function SciReduceCalls(select: Selector, qd: Contexts): seq<Event>
  {
    var frames := select(SciSpec, qd.full);
    if |frames| > 0 then
      [ReduceCall(frames, SciFlags, Full, true)]
    else []
  }

  /** One wavelength fit per listed arc exposure, in list order. */
  function WavelengthCalls(ids: seq<string>): (r: seq<Event>)
    ensures |r| == |ids|
    ensures forall i :: 0 <= i < |ids| ==> r[i] == Call(GSWavelength, ArcPrefix + ids[i], Default, WaveFlags)
  {
    if ids == [] then []
    else WavelengthCalls(ids[..|ids| - 1]) + [Call(GSWavelength, ArcPrefix + ids[|ids| - 1], Default, WaveFlags)]
  }

  /** The standard-star chain: combine the reduced frames into `LTT9239`,
      rectify it with the solution of arc 109, subtract the sky, extract the
      spectrum and derive the sensitivity function. */
  function StdChain(frames: seq<string>): seq<Event>
  {
    [ CombineCall(frames, "LTT9239", StdCombFlags),
      TransformCall("LTT9239", "gsS20070623S0109"),
      SkySubCall("tLTT9239", "20:70,190:230", map[]),
      ExtractCall("stLTT9239"),
      StandardCall("estLTT9239") ]
  }

  /** The chain of one science target, selected with `criteria` (the
      full-frame criteria whose object is the target): combine into the
      shortened name, rectify with the target's arc, subtract the sky over
      its sample rows. */
  function TargetChain(select: Selector, criteria: Criteria, target: string, p: TargetRecord): seq<Event>
    requires |target| > 0
  {
    var out := ShortName(target);
    var frames := select(SciSpec, criteria);
    [ CombineCall(frames, out, SciCombFlags),
      TransformCall(out, p.arc),
      SkySubCall("t" + out, p.sky, SkyFlags) ]
  }

  /** The full-frame criteria once each of the first `n` targets in turn
      has been written into the object: the last one's name, or the
      criteria unchanged when `n` is 0. */
  function LastObject(full: Criteria, items: seq<TargetItem>, n: nat): Criteria
    requires n <= |items|
  {
    if n == 0 then full else full[Object := Str(items[n - 1].0)]
  }

  /** The chains of the first `n` targets in the order they are visited,
      each selected with the full-frame criteria and its own name as
      object. */
  function TargetChains(select: Selector, full: Criteria, items: seq<TargetItem>, n: nat): (r: seq<Event>)
    requires NamedItems(items) && n <= |items|
    ensures |r| == 3 * n
  {
    if n == 0 then []
    else TargetChains(select, full, items, n - 1) + TargetChain(select, LastObject(full, items, n), items[n - 1].0, items[n - 1].1)
  }

  /** Writing a target's name into the criteria the previous targets left
      behind gives the criteria its chain is selected with. */
  lemma OverwriteObject(full: Criteria, items: seq<TargetItem>, n: nat)
    requires n < |items|
    ensures LastObject(full, items, n)[Object := Str(items[n].0)] == LastObject(full, items, n + 1)
  {
    if n > 0 {
      assert full[Object := Str(items[n - 1].0)][Object := Str(items[n].0)] == full[Object := Str(items[n].0)];
    }
  }

  /** Flux calibration of every sky-subtracted target, then of the extracted
      standard without variance propagation. */
  function FluxCalls(): seq<Event>
  {
    [ Call(GSCalibrate, "stAM2306*", Default, CalibFlags),
      Call(GSCalibrate, "estLTT9239", Default, Update(CalibFlags, CalibOverrides)) ]
  }

  /** The final one-dimensional spectrum of target b, summed over apertures
      222 to 346 in steps of 4. */
  function FinalExtraction(): Event
  {
    Call(SArith, "cstAM2306b.fits[SCI]", Named("ecstAM2306b.ms"),
         map[Op := Str("copy"), Input2 := Str(""), Apertures := Str("222-346x4")])
  }

  /** The master calibrations: the biases with the criteria as first built,
      then, with the observation dates relaxed, the flats and the arcs. */
  function Calibrations(select: Selector, q0: Contexts): seq<Event>
  {
    var q1 := RelaxDateObs(q0);
    RegionCalls(BiasStage, select, q0, Regions)
      + RegionCalls(FlatStage, select, q1, Regions)
      + RegionCalls(ArcStage, select, q1, Regions)
  }

  /** The basic reductions of the standard and science frames, then the
      wavelength fits of the arcs. */
  function Reductions(select: Selector, q1: Contexts): seq<Event>
  {
    StdReduceCalls(select, q1) + SciReduceCalls(select, q1) + WavelengthCalls(ArcIds)
  }

  /** The spectra: the standard-star chain, each target's chain, the flux
      calibration and the final extraction. */
  function Spectra(select: Selector, q1: Contexts, items: seq<TargetItem>): seq<Event>
    requires NamedItems(items)
  {
    StdChain(select(Std, q1.cenSp))
      + TargetChains(select, q1.full, items, |items|)
      + FluxCalls()
      + [FinalExtraction()]
  }

  /** The log of a run whose region criteria start out as `q0`: the stages
      in their fixed order, each seeing the criteria in force when it runs. */
  function Run(select: Selector, q0: Contexts, items: seq<TargetItem>): seq<Event>
    requires NamedItems(items)
  {
    var q1 := RelaxDateObs(q0);
    Calibrations(select, q0) + Reductions(select, q1) + Spectra(select, q1, items)
  }

  /** The whole log of the script's run. */
  function RunTrace(select: Selector, items: seq<TargetItem>): seq<Event>
    requires NamedItems(items)
  {
    Run(select, InitialContexts(), items)
  }

  /** The criteria left behind by a run: dates relaxed in both regions, and
      the full-frame object overwritten by the last target visited, because
      the science loop writes the object through an alias of `qd['Full']`. */
  function FinalContexts(items: seq<TargetItem>): Contexts
  {
    var q1 := RelaxDateObs(InitialContexts());
    q1.(full := LastObject(q1.full, items, |items|))
  }

  /** The calls of a per-region stage are exactly the stage calls of the
      regions that have enough frames. */
  lemma {:induction false} RegionCallsMembers(s: RegionStage, select: Selector, qd: Contexts, regions: seq<Region>)
    ensures forall e :: e in RegionCalls(s, select, qd, regions) <==>
      exists r :: r in regions && |select(StageCategory(s), qd.Of(r))| >= MinFrames(s)
                  && e == StageCall(s, r, select(StageCategory(s), qd.Of(r)))
  {
    if regions != [] {
      var init := regions[..|regions| - 1];
      var last := regions[|regions| - 1];
      assert regions == init + [last];
      RegionCallsMembers(s, select, qd, init);
    }
  }

  /** For each region, the stage's call for that region is made if and only
      if the selection returns enough frames (more than one bias, at least
      one flat or arc), and every call of the stage is such a call. */
  lemma StageRunsIff(s: RegionStage, select: Selector, qd: Contexts, r: Region)
    requires r in Regions
    ensures var frames := select(StageCategory(s), qd.Of(r));
      StageCall(s, r, frames) in RegionCalls(s, select, qd, Regions) <==> |frames| >= MinFrames(s)
    ensures forall e :: e in RegionCalls(s, select, qd, Regions) ==>
      exists r' :: r' in Regions && e == StageCall(s, r', select(StageCategory(s), qd.Of(r')))
  {
    RegionCallsMembers(s, select, qd, Regions);
    var frames := select(StageCategory(s), qd.Of(r));
    if StageCall(s, r, frames) in RegionCalls(s, select, qd, Regions) {
      var r' :| r' in Regions && |select(StageCategory(s), qd.Of(r'))| >= MinFrames(s)
                && StageCall(s, r, frames) == StageCall(s, r', select(StageCategory(s), qd.Of(r')));
      StageCallDeterminesRegion(s, r, frames, r', select(StageCategory(s), qd.Of(r')));
    }
  }
}
