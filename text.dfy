/**
 The two string operations the script performs itself: `','.join(...)` to
 hand a list of frames to a task, and `str.split` to shorten a target name.
 */
module Text {

  /** `[sep].join(xs)` in Python: the pieces with one separator between
      neighbours; the empty list joins to the empty string. */
  function Join(xs: seq<string>, sep: char): string
  {
    if |xs| == 0 then ""
    else if |xs| == 1 then xs[0]
    else xs[0] + [sep] + Join(xs[1..], sep)
  }

  /** `s.split(sep)` in Python: the maximal pieces between separators, so
      never an empty list (`''.split(',') == ['']`). */
  function Split(s: string, sep: char): (r: seq<string>)
    ensures |r| >= 1
    ensures forall i :: 0 <= i < |r| ==> sep !in r[i]
  {
    if s == [] then [""]
    else
      var rest := Split(s[1..], sep);
      if s[0] == sep then [""] + rest
      else [[s[0]] + rest[0]] + rest[1..]
  }

  /** Each element of `xs` with `prefix` in front (`prefix+str(x) for x in xs`). */
  function Prefixed(prefix: string, xs: seq<string>): seq<string>
  {
    if xs == [] then [] else Prefixed(prefix, xs[..|xs| - 1]) + [prefix + xs[|xs| - 1]]
  }

  /** Prefixing keeps the names and their order: element `i` of the result
      is `prefix` followed by element `i` of `xs`. */
  lemma {:induction false} PrefixedSpec(prefix: string, xs: seq<string>)
    ensures |Prefixed(prefix, xs)| == |xs|
    ensures forall i :: 0 <= i < |xs| ==> Prefixed(prefix, xs)[i] == prefix + xs[i]
  {
    if xs != [] {
      PrefixedSpec(prefix, xs[..|xs| - 1]);
    }
  }

  /** Splitting undoes joining: a task that splits its comma-separated input
      recovers exactly the frames, in order, provided no name holds a comma
      and the list is not empty. */
  lemma {:induction false} SplitJoin(xs: seq<string>, sep: char)
    requires |xs| >= 1
    requires forall i :: 0 <= i < |xs| ==> sep !in xs[i]
    ensures Split(Join(xs, sep), sep) == xs
  {
    if |xs| == 1 {
      SplitPiece(xs[0], sep);
    } else {
      SplitJoin(xs[1..], sep);
      SplitPieceThenRest(xs[0], Join(xs[1..], sep), sep);
    }
  }

  /** Joining undoes splitting: no character of `s` is lost or added. */
  lemma {:induction false} JoinSplit(s: string, sep: char)
    ensures Join(Split(s, sep), sep) == s
  {
    if s != [] {
      JoinSplit(s[1..], sep);
      var rest := Split(s[1..], sep);
      if s[0] == sep {
        assert Join([""] + rest, sep) == "" + [sep] + Join(rest, sep) by {
          assert ([""] + rest)[1..] == rest;
        }
        assert s == [sep] + s[1..];
      } else {
        var r := [[s[0]] + rest[0]] + rest[1..];
        assert r[1..] == rest[1..];
        assert s == [s[0]] + s[1..];
      }
    }
  }

  lemma {:induction false} SplitPiece(x: string, sep: char)
    requires sep !in x
    ensures Split(x, sep) == [x]
  {
    if x != [] {
      SplitPiece(x[1..], sep);
      assert x == [x[0]] + x[1..];
    }
  }

  lemma {:induction false} SplitPieceThenRest(x: string, rest: string, sep: char)
    requires sep !in x
    ensures Split(x + [sep] + rest, sep) == [x] + Split(rest, sep)
  {
    var s := x + [sep] + rest;
    if x == [] {
      assert s[0] == sep && s[1..] == rest;
    } else {
      assert s[0] == x[0] && s[1..] == x[1..] + [sep] + rest;
      SplitPieceThenRest(x[1..], rest, sep);
      assert x == [x[0]] + x[1..];
    }
  }

  /** The first piece of `s.split(sep)` is the longest prefix of `s` free of
      `sep`: it is a prefix, holds no separator, and is either all of `s` or
      followed by a separator. */
  lemma {:induction false} SplitHead(s: string, sep: char)
    ensures Split(s, sep)[0] <= s
    ensures sep !in Split(s, sep)[0]
    ensures |Split(s, sep)[0]| == |s| || s[|Split(s, sep)[0]|] == sep
  {
    if s != [] {
      SplitHead(s[1..], sep);
    }
  }

  /** `targ.split('-')[0] + targ[-1]`: the target name up to its first dash,
      followed by its last character (an empty name raises in Python). */
  function ShortName(target: string): string
    requires |target| > 0
  {
    Split(target, '-')[0] + [target[|target| - 1]]
  }

  /** The short name is the longest dash-free prefix of the target name
      followed by the name's last character. */
  lemma ShortNameSpec(target: string)
    requires |target| > 0
    ensures var r := ShortName(target);
      && |r| >= 1 && r[|r| - 1] == target[|target| - 1]
      && r[..|r| - 1] <= target && '-' !in r[..|r| - 1]
      && (|r| - 1 == |target| || target[|r| - 1] == '-')
  {
    SplitHead(target, '-');
    var head := Split(target, '-')[0];
    assert (head + [target[|target| - 1]])[..|head|] == head;
  }

  /** A name of the form `stem + "-" + rest` with no dash in `stem` is
      shortened to `stem` followed by the name's last character. */
  lemma ShortNameOfDashed(stem: string, rest: string)
    requires '-' !in stem
    ensures ShortName(stem + "-" + rest) == stem + [if rest == [] then '-' else rest[|rest| - 1]]
  {
    var t := stem + "-" + rest;
    ShortNameSpec(t);
    var r := ShortName(t);
    var h := r[..|r| - 1];
    assert t[|stem|] == '-';
    assert h == t[..|stem|] == stem;
    assert r == h + [r[|r| - 1]];
  }
}
