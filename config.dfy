/**
 The fixed configuration of the reduction: the selection criteria of the two
 detector regions, the option bundle of every task and the science targets.
 Derived bundles are built the way the script builds them, by copying a base
 bundle and overriding a few keys.
 */
module Config {
  import opened Values

  /** The two detector regions: the full frame and the central spectrum. */
  datatype Region = Full | CenSp

  /** The key of a region in `qd`, also the suffix of its master frames. */
  function RegionName(r: Region): string
  {
    match r
    case Full => "Full"
    case CenSp => "CenSp"
  }

  /** The regions, in the order the per-region loops visit them. */
  const Regions: seq<Region> := [Full, CenSp]

  /** The master bias of a region, `MCbias<region>`. */
  function MasterBias(r: Region): string
  {
    "MCbias" + RegionName(r)
  }

  /** The master flat of a region, `MCflat<region>`. */
  function MasterFlat(r: Region): string
  {
    "MCflat" + RegionName(r)
  }

  /** The criteria of the full-frame region (`qd['Full']`). */
  const FullCriteria: Criteria := map[
    UseMe := Int(1),
    Instrument := Str("GMOS-S"), CcdBin := Str("2 4"), RoI := Str("Full"),
    Disperser := Str("B600+_%"), CentWave := Num("485.0"), AperMask := Str("1.0arcsec"),
    Object := Str("AM2306-72%"),
    DateObs := Str("2007-06-05:2007-07-07")]

  /** What the central-spectrum region changes in a copy of the full-frame criteria. */
  const CenSpOverrides: Criteria := map[RoI := Str("CentSp"), Object := Str("LTT9239")]

  const BiasFlags: Options := map[
    Logfile := Str("biasLog.txt"), Rawpath := Str("./raw/"), FlVardq := Str("yes"),
    Verbose := Str("no")]

  const FlatFlags: Options := map[
    FlOver := Str("yes"), FlTrim := Str("yes"), FlBias := Str("yes"), FlDark := Str("no"),
    FlFixpix := Str("no"), FlOversize := Str("no"), FlVardq := Str("yes"), FlFulldq := Str("yes"),
    Rawpath := Str("./raw"), FlInter := Str("no"), FlDetec := Str("yes"),
    Function := Str("spline3"), Order := Str("13,11,28"),
    Logfile := Str("gsflatLog.txt"), Verbose := Str("no")]

  const SciFlags: Options := map[
    FlOver := Str("yes"), FlTrim := Str("yes"), FlBias := Str("yes"), FlGscrrej := Str("no"),
    FlDark := Str("no"), FlFlat := Str("yes"), FlGmosaic := Str("yes"), FlFixpix := Str("no"),
    FlGsappwave := Str("yes"), FlOversize := Str("no"),
    FlVardq := Str("yes"), FlFulldq := Str("yes"), Rawpath := Str("./raw"),
    FlInter := Str("no"), Logfile := Str("gsreduceLog.txt"), Verbose := Str("no")]

  const ArcOverrides: Options := map[FlFlat := Str("no"), FlVardq := Str("no"), FlFulldq := Str("no")]
  const ArcFlags: Options := Update(SciFlags, ArcOverrides)

  const StdOverrides: Options := map[FlFixpix := Str("yes"), FlVardq := Str("no"), FlFulldq := Str("no")]
  const StdFlags: Options := Update(SciFlags, StdOverrides)

  const WaveFlags: Options := map[
    Coordlist := Str("gmos$data/CuAr_GMOS.dat"), Fwidth := Int(6), Nsum := Int(50),
    Function := Str("chebyshev"), Order := Int(5),
    FlInter := Str("no"), Logfile := Str("gswaveLog.txt"), Verbose := Str("no")]

  /** The arc exposures whose dispersion solutions are fitted, as the common
      name prefix and the four exposure numbers. */
  const ArcPrefix := "gsS20070623S0"
  const ArcIds: seq<string> := ["071", "081", "091", "109"]

  const SciCombFlags: Options := map[
    Combine := Str("average"), Reject := Str("ccdclip"),
    FlVardq := Str("yes"), FlDqprop := Str("yes"),
    Logfile := Str("gemcombineLog.txt.txt"), Verbose := Str("no")]

  const StdCombOverrides: Options := map[FlVardq := Str("no"), FlDqprop := Str("no")]
  const StdCombFlags: Options := Update(SciCombFlags, StdCombOverrides)

  const TransFlags: Options := map[
    FlVardq := Str("yes"), Interptype := Str("linear"), FlFlux := Str("yes"),
    Logfile := Str("gstransLog.txt")]

  const SkyFlags: Options := map[
    FlOversize := Str("no"), FlVardq := Str("yes"), Logfile := Str("gsskysubLog.txt")]

  const ExtrFlags: Options := map[
    Apwidth := Num("3."), FlInter := Str("no"), Find := Str("yes"),
    Trace := Str("yes"), Tfunction := Str("chebyshev"), Torder := Str("6"), Tnsum := Int(20),
    Background := Str("fit"), Bfunction := Str("chebyshev"), Border := Int(2),
    FlVardq := Str("no"), Logfile := Str("gsextrLog.txt")]

  const SensFlags: Options := map[
    FlInter := Str("yes"), Starname := Str("l9239"), Caldir := Str("onedstds$ctionewcal/"),
    Observatory := Str("Gemini-South"), Extinction := Str("onedstds$ctioextinct.dat"),
    Function := Str("chebyshev"), Order := Int(9), Verbose := Str("no"), Logfile := Str("gsstdLog.txt")]

  const CalibFlags: Options := map[
    Extinction := Str("onedstds$ctioextinct.dat"), FlExt := Str("yes"), FlScale := Str("no"),
    Sfunction := Str("sens"), FlVardq := Str("yes"), Logfile := Str("gscalibrateLog.txt")]

  /** The bundle of the second flux calibration: the first one with variance
      propagation switched off. */
  const CalibOverrides: Options := map[FlVardq := Str("no")]

  /** A science target's arc exposure (for its wavelength solution) and the
      rows sampled for its sky background. */
  datatype TargetRecord = Target(arc: string, sky: string)

  const SciTargets: map<string, TargetRecord> := map[
    "AM2306-721_a" := Target("gsS20070623S0071", "520:720"),
    "AM2306-72_b" := Target("gsS20070623S0081", "670:760,920:1020"),
    "AM2306-721_c" := Target("gsS20070623S0091", "170:380,920:1080")]

  /** The standard star is rectified with arc 109, the last fitted arc. */
  lemma StandardArc()
    ensures ArcPrefix + ArcIds[3] == "gsS20070623S0109"
  {
  }

  /** A dictionary entry as `items()` yields it: a target name and its record. */
  type TargetItem = (string, TargetRecord)

  /** `items` lists every entry of `dict` exactly once: a possible iteration
      order of `dict.items()`. */
  predicate Enumerates(items: seq<TargetItem>, dict: map<string, TargetRecord>)
  {
    && (forall i, j :: 0 <= i < j < |items| ==> items[i].0 != items[j].0)
    && (forall i :: 0 <= i < |items| ==> items[i].0 in dict && dict[items[i].0] == items[i].1)
    && (forall k :: k in dict ==> exists i :: 0 <= i < |items| && items[i].0 == k)
  }

  /** Every listed target has a non-empty name (its short name is defined). */
  predicate NamedItems(items: seq<TargetItem>)
  {
    forall i :: 0 <= i < |items| ==> |items[i].0| > 0
  }

  /** Any iteration order of the science targets names them all non-emptily. */
  lemma EnumeratedTargetsNamed(items: seq<TargetItem>)
    requires Enumerates(items, SciTargets)
    ensures NamedItems(items)
  {
    forall i | 0 <= i < |items|
      ensures |items[i].0| > 0
    {
      assert items[i].0 in SciTargets;
    }
  }

  /** The central-spectrum criteria are the full-frame criteria with only the
      readout region and the object replaced. */
  lemma CenSpDerivedFromFull()
    ensures SameExcept(Update(FullCriteria, CenSpOverrides), FullCriteria, {RoI, Object})
    ensures Update(FullCriteria, CenSpOverrides)[RoI] == Str("CentSp")
    ensures Update(FullCriteria, CenSpOverrides)[Object] == Str("LTT9239")
    ensures FullCriteria[RoI] == Str("Full") && FullCriteria[Object] == Str("AM2306-72%")
  {
  }

  /** Arcs are reduced like science frames but without flat-fielding or
      variance and data-quality planes; the science bundle keeps its values. */
  lemma ArcFlagsFromSciFlags()
    ensures SameExcept(ArcFlags, SciFlags, {FlFlat, FlVardq, FlFulldq})
    ensures ArcFlags[FlFlat] == ArcFlags[FlVardq] == ArcFlags[FlFulldq] == Str("no")
    ensures SciFlags[FlFlat] == SciFlags[FlVardq] == SciFlags[FlFulldq] == Str("yes")
  {
  }

  /** The standard star is reduced like science frames but with bad pixels
      interpolated and without variance and data-quality planes. */
  lemma StdFlagsFromSciFlags()
    ensures SameExcept(StdFlags, SciFlags, {FlFixpix, FlVardq, FlFulldq})
    ensures StdFlags[FlFixpix] == Str("yes")
    ensures StdFlags[FlVardq] == StdFlags[FlFulldq] == Str("no")
    ensures SciFlags[FlFixpix] == Str("no")
    ensures SciFlags[FlVardq] == SciFlags[FlFulldq] == Str("yes")
  {
  }

  /** The standard star is combined like the science frames but without
      variance or data-quality propagation. */
  lemma StdCombFlagsFromSciCombFlags()
    ensures SameExcept(StdCombFlags, SciCombFlags, {FlVardq, FlDqprop})
    ensures StdCombFlags[FlVardq] == StdCombFlags[FlDqprop] == Str("no")
    ensures SciCombFlags[FlVardq] == SciCombFlags[FlDqprop] == Str("yes")
  {
  }
}
