/**
 The values stored in the script's dictionaries: selection criteria
 (`qd['Full']`, `qd['CenSp']`) and the option bundles handed to the
 reduction tasks as keyword arguments. Dictionary keys are enumerated:
 `Keyword` gives each key's spelling in the script.
 */
module Values {

  /** A dictionary value. Numeric literals with a fractional part
      (`485.0`, `3.`) are kept as their text: the script never computes
      with them, it only passes them on. */
  datatype Value = Str(s: string) | Int(n: int) | Num(literal: string)

  /** The metadata fields a selection constrains. */
  datatype Field = UseMe | Instrument | CcdBin | RoI | Disperser | CentWave | AperMask | Object | DateObs

  /** The task parameters the script sets. */
  datatype Param =
    | Logfile | Rawpath | Verbose | FlVardq | FlFulldq | FlDqprop
    | FlOver | FlTrim | FlBias | FlDark | FlFixpix | FlOversize | FlInter | FlDetec
    | FlGscrrej | FlFlat | FlGmosaic | FlGsappwave | FlFlux | FlExt | FlScale
    | Function | Order | Bias | Flatim | Coordlist | Fwidth | Nsum
    | Combine | Reject | Interptype | Wavtraname | LongSample
    | Apwidth | Find | Trace | Tfunction | Torder | Tnsum | Background | Bfunction | Border
    | Starname | Caldir | Observatory | Extinction | Sfile | Sfunction
    | Op | Input2 | Apertures

  /** Selection criteria and task options, as Python dictionaries. */
  type Criteria = map<Field, Value>
  type Options = map<Param, Value>

  function FieldKeyword(f: Field): string
  {
    match f
    case UseMe => "use_me"       case Instrument => "Instrument" case CcdBin => "CcdBin"
    case RoI => "RoI"            case Disperser => "Disperser"   case CentWave => "CentWave"
    case AperMask => "AperMask"  case Object => "Object"         case DateObs => "DateObs"
  }

  function Keyword(p: Param): string
  {
    match p
    case Logfile => "logfile"        case Rawpath => "rawpath"        case Verbose => "verbose"
    case FlVardq => "fl_vardq"       case FlFulldq => "fl_fulldq"     case FlDqprop => "fl_dqprop"
    case FlOver => "fl_over"         case FlTrim => "fl_trim"         case FlBias => "fl_bias"
    case FlDark => "fl_dark"         case FlFixpix => "fl_fixpix"     case FlOversize => "fl_oversize"
    case FlInter => "fl_inter"       case FlDetec => "fl_detec"       case FlGscrrej => "fl_gscrrej"
    case FlFlat => "fl_flat"         case FlGmosaic => "fl_gmosaic"   case FlGsappwave => "fl_gsappwave"
    case FlFlux => "fl_flux"         case FlExt => "fl_ext"           case FlScale => "fl_scale"
    case Function => "function"      case Order => "order"            case Bias => "bias"
    case Flatim => "flatim"          case Coordlist => "coordlist"    case Fwidth => "fwidth"
    case Nsum => "nsum"              case Combine => "combine"        case Reject => "reject"
    case Interptype => "interptype"  case Wavtraname => "wavtraname"  case LongSample => "long_sample"
    case Apwidth => "apwidth"        case Find => "find"              case Trace => "trace"
    case Tfunction => "tfunction"    case Torder => "torder"          case Tnsum => "tnsum"
    case Background => "background"  case Bfunction => "bfunction"    case Border => "border"
    case Starname => "starname"      case Caldir => "caldir"          case Observatory => "observatory"
    case Extinction => "extinction"  case Sfile => "sfile"            case Sfunction => "sfunction"
    case Op => "op"                  case Input2 => "input2"          case Apertures => "apertures"
  }

  /** `d = copy.deepcopy(base); d.update(overrides)`: a fresh dictionary;
      the base is a value, so the update cannot change it. */
  function Update<K>(base: map<K, Value>, overrides: map<K, Value>): map<K, Value>
  {
    base + overrides
  }

  /** The updated copy holds every key of both dictionaries, the overriding
      value winning. */
  lemma UpdateSpec<K>(base: map<K, Value>, overrides: map<K, Value>)
    ensures Update(base, overrides).Keys == base.Keys + overrides.Keys
    ensures forall k :: k in overrides ==> Update(base, overrides)[k] == overrides[k]
    ensures forall k :: k in base && k !in overrides ==> Update(base, overrides)[k] == base[k]
  {
  }

  /** The keyword arguments of a call `task(..., k1=v1, **bundle)`. Python
      refuses a keyword given both explicitly and through the bundle; the
      script never does that (`Stages.NoCalibrationPassedTwice`,
      `Stages.NoKeywordPassedTwice`), so the
      arguments are the union of the two. */
  function Kwargs(bundle: Options, explicit: Options): Options
  {
    bundle + explicit
  }

  /** `a` and `b` have the same keys and agree everywhere outside `keys`. */
  ghost predicate SameExcept<K>(a: map<K, Value>, b: map<K, Value>, keys: set<K>)
  {
    a.Keys == b.Keys && forall k :: k in a && k !in keys ==> a[k] == b[k]
  }
}
