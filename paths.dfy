/** The parts of pathlib that the transcribers rely on: a path is the
    sequence of its parts (an absolute path starts with the empty part, so
    that joining the parts with "/" gives its text), paths are ordered part
    by part, and `with_suffix` replaces the extension of the last part. */
module Paths {
  import opened Common

  type Path = seq<string>

  /** `str(path)`: the parts joined by "/". */
  function PathText(p: Path): string
  {
    if p == [] then "."
    else if |p| == 1 then p[0]
    else PathText(p[..|p| - 1]) + "/" + p[|p| - 1]
  }

  /** `path.name`: the last part; the empty string for "." and the root. */
  function Name(p: Path): string
  {
    if p == [] then "" else p[|p| - 1]
  }

  /** Python's `<` on strings. */
  predicate StrLt(a: string, b: string)
  {
    StrLe(a, b) && a != b
  }

  /** pathlib's `<=` on paths of one flavour: the parts are compared as a
      tuple of strings. */
  predicate PathLe(a: Path, b: Path)
  {
    a == [] || (b != [] && (StrLt(a[0], b[0]) || (a[0] == b[0] && PathLe(a[1..], b[1..]))))
  }

  lemma {:induction false} PathLeReflexive(a: Path)
    ensures PathLe(a, a)
  {
    if a != [] {
      PathLeReflexive(a[1..]);
    }
  }

  lemma {:induction false} PathLeTotal(a: Path, b: Path)
    ensures PathLe(a, b) || PathLe(b, a)
  {
    if a != [] && b != [] {
      if a[0] == b[0] {
        PathLeTotal(a[1..], b[1..]);
      } else {
        StrLeTotal(a[0], b[0]);
      }
    }
  }

  lemma {:induction false} PathLeTransitive(a: Path, b: Path, c: Path)
    requires PathLe(a, b) && PathLe(b, c)
    ensures PathLe(a, c)
  {
    if a != [] {
      assert b != [] && c != [];
      if a[0] == b[0] && b[0] == c[0] {
        PathLeTransitive(a[1..], b[1..], c[1..]);
      } else {
        StrLeReflexive(a[0]);
        StrLeReflexive(b[0]);
        StrLeTransitive(a[0], b[0], c[0]);
        if a[0] == c[0] {
          StrLeAntisymmetric(a[0], b[0]);
        }
      }
    }
  }

  lemma {:induction false} PathLeAntisymmetric(a: Path, b: Path)
    requires PathLe(a, b) && PathLe(b, a)
    ensures a == b
  {
    if a != [] && b != [] {
      if a[0] == b[0] {
        PathLeAntisymmetric(a[1..], b[1..]);
        assert a == [a[0]] + a[1..] && b == [b[0]] + b[1..];
      } else {
        StrLeAntisymmetric(a[0], b[0]);
      }
    }
  }

  /** `s.rfind(c)`: the last position of `c`, or -1. */
  function LastIndexOf(s: string, c: char): (i: int)
    ensures -1 <= i < |s|
    ensures i >= 0 ==> s[i] == c && c !in s[i + 1..]
    ensures i == -1 ==> c !in s
  {
    if s == [] then -1
    else if s[|s| - 1] == c then |s| - 1
    else
      var i := LastIndexOf(s[..|s| - 1], c);
      assert s == s[..|s| - 1] + [s[|s| - 1]];
      assert i >= 0 ==> s[i + 1..] == s[..|s| - 1][i + 1..] + [s[|s| - 1]];
      i
  }

  /** `PurePath.suffix` of a name: from its last dot, when that dot is
      neither the first nor the last character. */
  function SuffixOf(name: string): (suffix: string)
    ensures suffix == "" || (suffix[0] == '.' && EndsWith(name, suffix) && |suffix| < |name|)
  {
    var i := LastIndexOf(name, '.');
    if 0 < i < |name| - 1 then name[i..] else ""
  }

  /** `PurePath.stem` of a name: the name without its suffix. */
  function StemOf(name: string): string
  {
    name[..|name| - |SuffixOf(name)|]
  }

  /** What `with_suffix` gives: the new path, or the ValueError it raises. */
  datatype SuffixResult = Replaced(path: Path) | InvalidSuffix | EmptyName

  /** `path.with_suffix(suffix)` on a POSIX path. */
  function WithSuffix(p: Path, suffix: string): (r: SuffixResult)
    ensures r.InvalidSuffix? <==> '/' in suffix || (suffix != "" && suffix[0] != '.') || suffix == "."
    ensures r.EmptyName? <==> !r.InvalidSuffix? && Name(p) == ""
    ensures r.Replaced? ==> |r.path| == |p| && r.path[..|p| - 1] == p[..|p| - 1]
  {
    if '/' in suffix || (suffix != "" && suffix[0] != '.') || suffix == "." then InvalidSuffix
    else if Name(p) == "" then EmptyName
    else Replaced(p[..|p| - 1] + [StemOf(Name(p)) + suffix])
  }

  /** A name that is not empty keeps a non-empty stem. */
  lemma StemNotEmpty(name: string)
    requires name != ""
    ensures StemOf(name) != ""
  {
  }

  /** Appending a dot and an extension without dots makes that dot the last. */
  lemma {:induction false} LastDotOfNewName(stem: string, ext: string)
    requires '.' !in ext
    ensures LastIndexOf(stem + "." + ext, '.') == |stem|
    decreases |ext|
  {
    var s := stem + "." + ext;
    if ext == [] {
      assert s[|s| - 1] == '.';
    } else {
      assert s[|s| - 1] == ext[|ext| - 1] != '.';
      var e' := ext[..|ext| - 1];
      assert s[..|s| - 1] == stem + "." + e';
      LastDotOfNewName(stem, e');
    }
  }

  /** With an output format made of at least one character and neither a
      dot nor a separator, the output path sits in the same directory, its
      stem is the input's stem and its suffix is the new one. */
  lemma OutputPathShape(p: Path, format: string)
    requires Name(p) != "" && format != "" && '.' !in format && '/' !in format
    ensures WithSuffix(p, "." + format).Replaced?
    ensures var q := WithSuffix(p, "." + format).path;
      |q| == |p| && q[..|q| - 1] == p[..|p| - 1] &&
      StemOf(Name(q)) == StemOf(Name(p)) && SuffixOf(Name(q)) == "." + format
  {
    var stem := StemOf(Name(p));
    StemNotEmpty(Name(p));
    assert '/' !in "." + format;
    var q := WithSuffix(p, "." + format).path;
    assert Name(q) == stem + "." + format;
    LastDotOfNewName(stem, format);
  }

  /** Replacing the suffix a second time with the same one changes nothing. */
  lemma WithSuffixIdempotent(p: Path, format: string)
    requires Name(p) != "" && format != "" && '.' !in format && '/' !in format
    ensures WithSuffix(WithSuffix(p, "." + format).path, "." + format) == WithSuffix(p, "." + format)
  {
    OutputPathShape(p, format);
    var q := WithSuffix(p, "." + format).path;
    assert q == q[..|q| - 1] + [Name(q)];
  }
}
