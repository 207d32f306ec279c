/**
 A call of one of the external reduction tasks, recorded as an event. The
 tasks themselves (bias combination, flat normalisation, wavelength fitting,
 sky subtraction, extraction, flux calibration) are not modelled: a run of
 the script is described by the sequence of calls it makes.
 */
module Calls {
  import opened Values

  /** The IRAF/PyRAF tasks the script invokes. */
  datatype Task =
    | GBias | GSFlat | GSReduce | GSWavelength | GemCombine
    | GSTransform | GSSkySub | GSExtract | GSStandard | GSCalibrate | SArith

  /** The first argument of `fs.createQuery`: which kind of exposure to select. */
  datatype Category = Bias | GcalFlat | Arc | Std | SciSpec

  /** The output argument of a call: given explicitly, or left to the task. */
  datatype Output = Default | Named(name: string)

  /** One call: the task, its (comma-separated) input, its output and its
      keyword arguments. */
  datatype Event = Call(task: Task, input: string, output: Output, options: Options)

  /** `fs.fileListQuery(dbFile, fs.createQuery(category, criteria), criteria)`:
      the frame names the metadata database returns, in its own order. The
      database and its query language are outside the model, so a run is
      described for every such function. */
  type Selector = (Category, Criteria) -> seq<string>

  /** The prefix a task puts in front of its input's name when no output
      name is given: the naming convention of the Gemini IRAF package, which
      the script relies on when it names each step's input (`gsS20070623S0071`,
      `tLTT9239`, `stLTT9239`, `estLTT9239`, `cstAM2306b`). The script never
      reads a default output of the other tasks, which name their outputs
      (`gbias`, `gsflat`, `gemcombine`, `sarith`) or write none it uses
      (`gswavelength`, `gsstandard`); for those the prefix is left empty. */
  function DefaultPrefix(t: Task): string
  {
    match t
    case GSReduce => "gs"
    case GSTransform => "t"
    case GSSkySub => "s"
    case GSExtract => "e"
    case GSCalibrate => "c"
    case _ => ""
  }

  /** The name of the artifact a call on a single input produces. */
  function Produces(e: Event): string
  {
    match e.output
    case Named(n) => n
    case Default => DefaultPrefix(e.task) + e.input
  }

  /** `b` consumes exactly what `a` produced. */
  predicate Feeds(a: Event, b: Event)
  {
    b.input == Produces(a)
  }

  /** The calls of `trace` to task `t`, in their order. */
  function OfTask(trace: seq<Event>, t: Task): (r: seq<Event>)
    ensures |r| <= |trace|
  {
    if trace == [] then []
    else (if trace[0].task == t then [trace[0]] else []) + OfTask(trace[1..], t)
  }

  /** The calls of `trace` to `t` are the calls of `trace` whose task is `t`. */
  lemma {:induction false} OfTaskMembers(trace: seq<Event>, t: Task)
    ensures forall e :: e in OfTask(trace, t) <==> e in trace && e.task == t
  {
    if trace != [] {
      OfTaskMembers(trace[1..], t);
      assert trace == [trace[0]] + trace[1..];
    }
  }

  /** Appending is associative; stated once, for logs of any element type. */
  lemma AppendAssoc<T>(a: seq<T>, b: seq<T>, c: seq<T>)
    ensures (a + b) + c == a + (b + c)
  {
  }

  lemma {:induction false} OfTaskAppend(a: seq<Event>, b: seq<Event>, t: Task)
    ensures OfTask(a + b, t) == OfTask(a, t) + OfTask(b, t)
  {
    if a == [] {
      assert a + b == b;
    } else {
      var head := if a[0].task == t then [a[0]] else [];
      assert (a + b)[0] == a[0];
      assert (a + b)[1..] == a[1..] + b;
      assert OfTask(a + b, t) == head + OfTask(a[1..] + b, t);
      OfTaskAppend(a[1..], b, t);
      AppendAssoc(head, OfTask(a[1..], t), OfTask(b, t));
    }
  }

  lemma OfTaskNone(a: seq<Event>, t: Task)
    requires forall e :: e in a ==> e.task != t
    ensures OfTask(a, t) == []
  {
    OfTaskMembers(a, t);
  }

  lemma {:induction false} OfTaskAll(a: seq<Event>, t: Task)
    requires forall e :: e in a ==> e.task == t
    ensures OfTask(a, t) == a
  {
    if a != [] {
      assert a[0] in a;
      assert forall e :: e in a[1..] ==> e in a;
      OfTaskAll(a[1..], t);
      assert a == [a[0]] + a[1..];
    }
  }
}
