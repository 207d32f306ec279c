/**
 The reduction procedure `gmos_ls_proc()` as it runs: an object holding the
 region criteria (`qd`), which the script updates in place, and the log of
 task calls made so far. Each method performs one stage, step by step, and
 is proved to append exactly the calls the Stages module specifies.
 */
module Pipeline {
  import opened Values
  import opened Text
  import opened Calls
  import opened Config
  import opened Stages

  class Reduction {
    /** The selection criteria of each region. */
    var qd: Contexts
    /** The task calls made so far, oldest first. */
    var trace: seq<Event>

    /** Build the full-frame criteria, then the central-spectrum criteria as
        an overridden deep copy of them. */
    constructor ()
      ensures qd == InitialContexts() && trace == []
    {
      var full := FullCriteria;
      var cenSp := Update(full, CenSpOverrides);
      qd := Contexts(full, cenSp);
      trace := [];
    }

    /** One per-region loop: select the stage's frames in each region in
        turn and call the task when there are enough of them. */
    method ForEachRegion(s: RegionStage, select: Selector)
      modifies this
      ensures qd == old(qd)
      ensures trace == old(trace) + RegionCalls(s, select, qd, Regions)
    {
      var i := 0;
      while i < |Regions|
        invariant 0 <= i <= |Regions|
        invariant qd == old(qd)
        invariant trace == old(trace) + RegionCalls(s, select, qd, Regions[..i])
      {
        var r := Regions[i];
        var frames := select(StageCategory(s), qd.Of(r));
        assert Regions[..i + 1][..i] == Regions[..i];
        if |frames| >= MinFrames(s) {
          trace := trace + [StageCall(s, r, frames)];
        }
        i := i + 1;
      }
      assert Regions[..|Regions|] == Regions;
    }

    /** The master biases. */
    method BiasMasterCals(select: Selector)
      modifies this
      ensures qd == old(qd)
      ensures trace == old(trace) + RegionCalls(BiasStage, select, qd, Regions)
    {
      ForEachRegion(BiasStage, select);
    }

    /** Relax the date criterion of both regions, then make the master flats. */
    method FlatMasterCals(select: Selector)
      modifies this
      ensures qd == RelaxDateObs(old(qd))
      ensures trace == old(trace) + RegionCalls(FlatStage, select, qd, Regions)
    {
      qd := qd.(full := Update(qd.full, map[DateObs := Str("*")]));
      qd := qd.(cenSp := Update(qd.cenSp, map[DateObs := Str("*")]));
      ForEachRegion(FlatStage, select);
    }

    /** Basic reduction of the arcs of each region. */
    method ReduceArcs(select: Selector)
      modifies this
      ensures qd == old(qd)
      ensures trace == old(trace) + RegionCalls(ArcStage, select, qd, Regions)
    {
      ForEachRegion(ArcStage, select);
    }

    /** Basic reduction of the standard-star frames (central spectrum). */
    method ReduceStd(select: Selector)
      modifies this
      ensures qd == old(qd)
      ensures trace == old(trace) + StdReduceCalls(select, qd)
    {
      var r := CenSp;
      var frames := select(Std, qd.Of(r));
      if |frames| > 0 {
        trace := trace + [ReduceCall(frames, StdFlags, r, true)];
      }
    }

    /** Basic reduction of the science frames (full frame). */
    method ReduceScience(select: Selector)
      modifies this
      ensures qd == old(qd)
      ensures trace == old(trace) + SciReduceCalls(select, qd)
    {
      var r := Full;
      var frames := select(SciSpec, qd.Of(r));
      if |frames| > 0 {
        trace := trace + [ReduceCall(frames, SciFlags, r, true)];
      }
    }

    /** Fit the dispersion solution of each selected arc exposure. */
    method SolveWavelengths()
      modifies this
      ensures qd == old(qd)
      ensures trace == old(trace) + WavelengthCalls(ArcIds)
    {
      var prefix := ArcPrefix;
      var i := 0;
      while i < |ArcIds|
        invariant 0 <= i <= |ArcIds|
        invariant qd == old(qd)
        invariant trace == old(trace) + WavelengthCalls(ArcIds[..i])
      {
        assert ArcIds[..i + 1][..i] == ArcIds[..i];
        trace := trace + [Call(GSWavelength, prefix + ArcIds[i], Default, WaveFlags)];
        i := i + 1;
      }
      assert ArcIds[..|ArcIds|] == ArcIds;
    }

    /** Combine, rectify, sky-subtract and extract the standard star, then
        derive the sensitivity function from it. */
    method ReduceStdStar(select: Selector)
      modifies this
      ensures qd == old(qd)
      ensures trace == old(trace) + StdChain(select(Std, qd.cenSp))
    {
      var qs := qd.cenSp;
      var frames := select(Std, qs);
      trace := trace + [CombineCall(frames, "LTT9239", StdCombFlags)];
      trace := trace + [TransformCall("LTT9239", "gsS20070623S0109")];
      trace := trace + [SkySubCall("tLTT9239", "20:70,190:230", map[])];
      trace := trace + [ExtractCall("stLTT9239")];
      trace := trace + [StandardCall("estLTT9239")];
    }

    /** One science target: overwrite the object of the full-frame criteria
        in place with the target (the script writes through an alias of
        `qd['Full']`), then combine its frames into the shortened name,
        rectify it with the target's arc and subtract the sky. */
    method ReduceTarget(select: Selector, target: string, p: TargetRecord)
      requires |target| > 0
      modifies this
      ensures qd == old(qd).(full := old(qd).full[Object := Str(target)])
      ensures trace == old(trace) + TargetChain(select, qd.full, target, p)
    {
      qd := qd.(full := qd.full[Object := Str(target)]);
      var sciOut := ShortName(target);
      var frames := select(SciSpec, qd.full);
      trace := trace + [CombineCall(frames, sciOut, SciCombFlags),
                        TransformCall(sciOut, p.arc),
                        SkySubCall("t" + sciOut, p.sky, SkyFlags)];
    }

    /** The science targets, visited in the order of `items`. Each visit
        leaves the previous target in the full-frame object, which the next
        visit overwrites, so every target is selected with the full-frame
        criteria and its own name. */
    method ReduceTargets(select: Selector, items: seq<TargetItem>)
      requires NamedItems(items)
      modifies this
      ensures qd == old(qd).(full := LastObject(old(qd).full, items, |items|))
      ensures trace == old(trace) + TargetChains(select, old(qd).full, items, |items|)
    {
      var full0 := qd.full;
      for i := 0 to |items|
        invariant qd == old(qd).(full := LastObject(full0, items, i))
        invariant trace == old(trace) + TargetChains(select, full0, items, i)
      {
        OverwriteObject(full0, items, i);
        AppendAssoc(old(trace), TargetChains(select, full0, items, i),
                    TargetChain(select, LastObject(full0, items, i + 1), items[i].0, items[i].1));
        ReduceTarget(select, items[i].0, items[i].1);
      }
    }

    /** Apply the sensitivity function to the targets, then to the standard
        with the bundle updated in place to drop variance propagation. */
    method FluxCalibrate()
      modifies this
      ensures qd == old(qd)
      ensures trace == old(trace) + FluxCalls()
    {
      var calibFlags := CalibFlags;
      trace := trace + [Call(GSCalibrate, "stAM2306*", Default, calibFlags)];
      calibFlags := Update(calibFlags, map[FlVardq := Str("no")]);
      trace := trace + [Call(GSCalibrate, "estLTT9239", Default, calibFlags)];
    }

    /** Extract the final spectrum of target b. */
    method ExtractFinal()
      modifies this
      ensures qd == old(qd)
      ensures trace == old(trace) + [FinalExtraction()]
    {
      trace := trace + [Call(SArith, "cstAM2306b.fits[SCI]", Named("ecstAM2306b.ms"),
                             map[Op := Str("copy"), Input2 := Str(""), Apertures := Str("222-346x4")])];
    }

    /** The master biases, flats and arcs. */
    method MakeCalibrations(select: Selector)
      modifies this
      ensures qd == RelaxDateObs(old(qd))
      ensures trace == old(trace) + Calibrations(select, old(qd))
    {
      ghost var t0 := trace;
      ghost var q0 := qd;
      BiasMasterCals(select);
      FlatMasterCals(select);
      ReduceArcs(select);
      var b := RegionCalls(BiasStage, select, q0, Regions);
      var f := RegionCalls(FlatStage, select, qd, Regions);
      AppendAssoc(t0, b, f);
      AppendAssoc(t0, b + f, RegionCalls(ArcStage, select, qd, Regions));
    }

    /** The basic reductions of the standard and science frames and the
        wavelength fits. */
    method ReduceFrames(select: Selector)
      modifies this
      ensures qd == old(qd)
      ensures trace == old(trace) + Reductions(select, qd)
    {
      ghost var t0 := trace;
      ReduceStd(select);
      ReduceScience(select);
      SolveWavelengths();
      var std := StdReduceCalls(select, qd);
      var sci := SciReduceCalls(select, qd);
      AppendAssoc(t0, std, sci);
      AppendAssoc(t0, std + sci, WavelengthCalls(ArcIds));
    }

    /** The standard-star and science spectra, their flux calibration and
        the final extraction. */
    method MakeSpectra(select: Selector, items: seq<TargetItem>)
      requires NamedItems(items)
      modifies this
      ensures qd == old(qd).(full := LastObject(old(qd).full, items, |items|))
      ensures trace == old(trace) + Spectra(select, old(qd), items)
    {
      ghost var t0 := trace;
      ghost var q := qd;
      ReduceStdStar(select);
      ReduceTargets(select, items);
      FluxCalibrate();
      ExtractFinal();
      var std := StdChain(select(Std, q.cenSp));
      var sci := TargetChains(select, q.full, items, |items|);
      AppendAssoc(t0, std, sci);
      AppendAssoc(t0, std + sci, FluxCalls());
      AppendAssoc(t0, std + sci + FluxCalls(), [FinalExtraction()]);
    }
  }

  /** A whole run of the procedure, the science targets visited in the order of `items`
      (any order in which a dictionary may list them): the log it leaves and
      the criteria it ends with. */
  method Process(select: Selector, items: seq<TargetItem>) returns (log: seq<Event>, contexts: Contexts)
    requires Enumerates(items, SciTargets)
    ensures NamedItems(items)
    ensures log == RunTrace(select, items)
    ensures contexts == FinalContexts(items)
  {
    EnumeratedTargetsNamed(items);
    ghost var q0 := InitialContexts();
    ghost var q1 := RelaxDateObs(q0);
    var run := new Reduction();
    run.MakeCalibrations(select);
    assert run.trace == Calibrations(select, q0);
    run.ReduceFrames(select);
    run.MakeSpectra(select, items);
    log := run.trace;
    contexts := run.qd;
  }
}
