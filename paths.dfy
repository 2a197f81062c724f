/** The part of `pathlib.PurePosixPath` that `_get_predictor` relies on
    (nobrainer/predict.py:235-240): parsing a path string, its final component, that
    component's suffix, the parent directory, and turning the path back into a string. */
module Paths {
  import opened Outcomes

  /** A parsed path: whether it starts at the root, and its components in order.
      pathlib drops empty components (repeated or trailing slashes) and `.` components. */
  datatype PathValue = PathValue(absolute: bool, parts: seq<string>)

  /** A component pathlib keeps: non-empty, not `.`, and free of separators. */
  predicate ValidPart(c: string)
  {
    |c| > 0 && c != "." && '/' !in c
  }

  /** Every component of the path is one pathlib keeps. */
  predicate WellFormed(pv: PathValue)
  {
    forall i :: 0 <= i < |pv.parts| ==> ValidPart(pv.parts[i])
  }

  /** Length of the leading component of `s`: the index of the first `/`, or `|s|`. */
  function ComponentLength(s: string): (k: nat)
    ensures k <= |s| && '/' !in s[..k]
    ensures k < |s| ==> s[k] == '/'
    decreases |s|
  {
    if |s| == 0 || s[0] == '/' then 0
    else
      var k := 1 + ComponentLength(s[1..]);
      assert s[..k] == [s[0]] + s[1..][..k - 1];
      k
  }

  /** The components of `s` as pathlib splits them: separated by `/`, with empty and
      `.` components dropped. */
  function Components(s: string): (r: seq<string>)
    ensures forall i :: 0 <= i < |r| ==> ValidPart(r[i])
    decreases |s|
  {
    if |s| == 0 then []
    else if s[0] == '/' then Components(s[1..])
    else
      var k := ComponentLength(s);
      var c := s[..k];
      (if c == "." then [] else [c]) + Components(s[k..])
  }

  /** `Path(s)`. The POSIX special case of exactly two leading slashes is not modelled. */
  function Parse(s: string): (pv: PathValue)
    ensures WellFormed(pv)
  {
    PathValue(|s| > 0 && s[0] == '/', Components(s))
  }

  /** `"/".join(parts)`. */
  function Join(parts: seq<string>): string
    decreases |parts|
  {
    if |parts| == 0 then ""
    else if |parts| == 1 then parts[0]
    else parts[0] + "/" + Join(parts[1..])
  }

  /** `str(path)`: the root, then the components joined by `/`; an empty relative
      path is written `.`. */
  function Render(pv: PathValue): string
  {
    if pv.parts == [] then (if pv.absolute then "/" else ".")
    else (if pv.absolute then "/" else "") + Join(pv.parts)
  }

  /** `path.name`: the final component, or the empty string for the root or `.`. */
  function Name(pv: PathValue): string
  {
    if pv.parts == [] then "" else pv.parts[|pv.parts| - 1]
  }

  /** `path.parent`: the path without its final component; the root and `.` are their
      own parents. */
  function Parent(pv: PathValue): PathValue
  {
    if pv.parts == [] then pv else PathValue(pv.absolute, pv.parts[..|pv.parts| - 1])
  }

  /** `s.rfind('.')`, with `None` for -1. */
  function LastDot(s: string): (r: Option<nat>)
    ensures r.Some? ==> r.value < |s| && s[r.value] == '.' &&
                        forall k :: r.value < k < |s| ==> s[k] != '.'
    ensures r.None? ==> '.' !in s
    decreases |s|
  {
    if |s| == 0 then None
    else if s[|s| - 1] == '.' then Some(|s| - 1)
    else
      var r := LastDot(s[..|s| - 1]);
      assert forall k :: 0 <= k < |s| - 1 ==> s[..|s| - 1][k] == s[k];
      r
  }

  /** `path.suffix` of a final component: from its last dot on, provided that dot is
      neither the first nor the last character; otherwise empty. */
  function Suffix(name: string): string
  {
    match LastDot(name)
    case None => ""
    case Some(i) => if 0 < i < |name| - 1 then name[i..] else ""
  }

  /** The serialized-model file extension that `_get_predictor` replaces by the
      directory holding the file. */
  const ModelFileSuffix := ".pb"

  /** The directory string handed to `from_saved_model` for a predictor path `s`
      (lines 235-240): the parent of the path when its suffix is `.pb`, the path itself
      otherwise, in pathlib's normal form. */
  function SavedModelDir(s: string): string
  {
    var pv := Parse(s);
    Render(if Suffix(Name(pv)) == ModelFileSuffix then Parent(pv) else pv)
  }

  // ---------------------------------------------------------------------------
  // Lemmas
  // ---------------------------------------------------------------------------

  /** A name has suffix `.pb` exactly when it ends in `.pb` with something before it. */
  lemma SuffixIsPb(name: string)
    ensures Suffix(name) == ModelFileSuffix <==>
            |name| >= 4 && name[|name| - 3..] == ModelFileSuffix
  {
    if |name| >= 4 && name[|name| - 3..] == ModelFileSuffix {
      var n := |name|;
      assert name[n - 3] == '.' && name[n - 2] == 'p' && name[n - 1] == 'b';
      var r := LastDot(name);
      assert r.Some?;
      assert r.value == n - 3;
    }
    var r := LastDot(name);
    if Suffix(name) == ModelFileSuffix {
      assert r.Some? && 0 < r.value < |name| - 1 && name[r.value..] == ModelFileSuffix;
    }
  }

  lemma ComponentLengthSingle(c: string, t: string)
    requires |c| > 0 && '/' !in c && (t == [] || t[0] == '/')
    ensures ComponentLength(c + t) == |c|
    decreases |c|
  {
    if |c| > 1 {
      assert (c + t)[1..] == c[1..] + t;
      ComponentLengthSingle(c[1..], t);
    }
  }

  /** A valid component followed by a separator (or nothing) is split off whole. */
  lemma ComponentsOfLeading(c: string, t: string)
    requires ValidPart(c) && (t == [] || t[0] == '/')
    ensures Components(c + t) == [c] + Components(t)
  {
    ComponentLengthSingle(c, t);
    assert (c + t)[..|c|] == c && (c + t)[|c|..] == t;
  }

  /** Splitting a joined list of valid components gives the components back. */
  lemma {:induction false} ComponentsOfJoin(parts: seq<string>)
    requires forall i :: 0 <= i < |parts| ==> ValidPart(parts[i])
    ensures Components(Join(parts)) == parts
    decreases |parts|
  {
    if |parts| == 1 {
      var c := parts[0];
      ComponentsOfLeading(c, []);
      assert c + [] == c;
    } else if |parts| > 1 {
      var c := parts[0];
      var rest := Join(parts[1..]);
      var t := "/" + rest;
      assert Join(parts) == c + t;
      ComponentsOfLeading(c, t);
      assert t[1..] == rest;
      assert Components(t) == Components(rest);
      ComponentsOfJoin(parts[1..]);
      assert [c] + parts[1..] == parts;
    }
  }

  lemma JoinStart(parts: seq<string>)
    requires |parts| > 0 && ValidPart(parts[0])
    ensures |Join(parts)| > 0 && Join(parts)[0] == parts[0][0] && Join(parts)[0] != '/'
  {
  }

  /** `str` and `Path` are inverse on normal-form paths: rendering a well-formed path
      and parsing the string gives the same path back. */
  lemma ParseRender(pv: PathValue)
    requires WellFormed(pv)
    ensures Parse(Render(pv)) == pv
  {
    var s := Render(pv);
    if pv.parts == [] {
      if pv.absolute {
        assert s == "/" && s[1..] == [];
        assert Components(s) == Components(s[1..]) == [];
      } else {
        assert s == ".";
        assert ComponentLength(s) == 1;
        assert s[..1] == "." && s[1..] == [];
        assert Components(s[1..]) == [];
        assert Components(s) == [] + Components(s[1..]);
      }
    } else {
      var j := Join(pv.parts);
      JoinStart(pv.parts);
      ComponentsOfJoin(pv.parts);
      if pv.absolute {
        assert s == "/" + j && s[1..] == j;
      } else {
        assert s == j;
      }
    }
  }

  /** Normalizing a path string twice is the same as normalizing it once. */
  lemma RenderParseIdempotent(s: string)
    ensures Render(Parse(Render(Parse(s)))) == Render(Parse(s))
  {
    ParseRender(Parse(s));
  }

  /** A path to a `.pb` file inside directory `dir` is loaded from `dir`. */
  lemma SavedModelDirOfModelFile(dir: PathValue, file: string)
    requires WellFormed(dir) && ValidPart(file)
    requires |file| >= 4 && file[|file| - 3..] == ModelFileSuffix
    ensures SavedModelDir(Render(PathValue(dir.absolute, dir.parts + [file]))) == Render(dir)
  {
    var pv := PathValue(dir.absolute, dir.parts + [file]);
    ParseRender(pv);
    SuffixIsPb(file);
    assert Name(pv) == file;
    assert Parent(pv).parts == dir.parts;
  }

  /** A path whose final component does not have the suffix `.pb` is loaded as it
      stands, in pathlib's normal form. */
  lemma SavedModelDirOfDirectory(pv: PathValue)
    requires WellFormed(pv)
    requires !(|Name(pv)| >= 4 && Name(pv)[|Name(pv)| - 3..] == ModelFileSuffix)
    ensures SavedModelDir(Render(pv)) == Render(pv)
  {
    ParseRender(pv);
    SuffixIsPb(Name(pv));
  }
}
