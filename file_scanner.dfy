/** Discovery of the audio files to transcribe
    (core/transcription/file_scanner.py). The directory is a tree of named
    entries, and a glob pattern `*{ext}` matches exactly the names that end
    with `ext`. */
module FileScanner {
  import opened Common
  import opened Paths

  /** An entry of the directory tree; a file is an entry without children. */
  datatype Node = Node(name: string, children: seq<Node>)

  /** `*{ext}` as fnmatch reads it when `ext` holds no wildcard. */
  predicate NameMatches(name: string, ext: string)
  {
    EndsWith(name, ext)
  }

  /** `directory.glob(f'*{ext}')`: the direct entries whose name matches. */
  function Glob(entries: seq<Node>, at: Path, ext: string): (r: seq<Path>)
    ensures forall p :: p in r ==> |p| == |at| + 1 && p[..|at|] == at && NameMatches(p[|at|], ext)
  {
    if entries == [] then []
    else
      (if NameMatches(entries[0].name, ext) then [at + [entries[0].name]] else [])
      + Glob(entries[1..], at, ext)
  }

  /** `directory.rglob(f'*{ext}')`: the entries at any depth whose name
      matches, each visited once. */
  function RGlob(entries: seq<Node>, at: Path, ext: string): (r: seq<Path>)
    ensures forall p :: p in r ==> |p| > |at| && p[..|at|] == at && NameMatches(p[|p| - 1], ext)
    decreases entries
  {
    if entries == [] then []
    else
      var e := entries[0];
      var here := at + [e.name];
      var below := RGlob(e.children, here, ext);
      assert forall p :: p in below ==> p[..|at|] == at by {
        forall p | p in below ensures p[..|at|] == at {
          assert p[..|at|] == p[..|here|][..|at|];
        }
      }
      (if NameMatches(e.name, ext) then [here] else []) + below + RGlob(entries[1..], at, ext)
  }

  /** The recursive search finds every direct match, and exactly the direct
      matches among its results of depth one. */
  lemma {:induction false} GlobWithinRGlob(entries: seq<Node>, at: Path, ext: string, p: Path)
    ensures p in Glob(entries, at, ext) <==> p in RGlob(entries, at, ext) && |p| == |at| + 1
  {
    if entries != [] {
      GlobWithinRGlob(entries[1..], at, ext, p);
    }
  }

  /** What one pattern contributes, by the `recursive` switch. */
  function PatternMatches(entries: seq<Node>, at: Path, ext: string, recursive: bool): (r: seq<Path>)
    ensures forall p :: p in r ==> |p| > |at| && p[..|at|] == at && NameMatches(p[|p| - 1], ext)
    ensures !recursive ==> forall p :: p in r ==> |p| == |at| + 1
  {
    if recursive then RGlob(entries, at, ext) else Glob(entries, at, ext)
  }

  /** `p` lies below `at` and its last part matches one of `extensions`. */
  ghost predicate MatchesSome(p: Path, at: Path, extensions: seq<string>)
  {
    |p| > |at| && p[..|at|] == at && exists ext :: ext in extensions && NameMatches(p[|p| - 1], ext)
  }

  /** The per-pattern results in extension order, concatenated as
      `files.extend` does, before sorting. */
  function Collected(entries: seq<Node>, at: Path, extensions: seq<string>, recursive: bool): (r: seq<Path>)
    ensures forall p :: p in r ==> MatchesSome(p, at, extensions)
    ensures !recursive ==> forall p :: p in r ==> |p| == |at| + 1
    decreases |extensions|
  {
    if extensions == [] then []
    else
      var n := |extensions| - 1;
      var prefix := Collected(entries, at, extensions[..n], recursive);
      var last := PatternMatches(entries, at, extensions[n], recursive);
      assert forall p :: p in prefix + last ==> MatchesSome(p, at, extensions) by {
        forall p | p in prefix + last
          ensures MatchesSome(p, at, extensions)
        {
          if p in prefix {
            var ext :| ext in extensions[..n] && NameMatches(p[|p| - 1], ext);
            assert ext in extensions;
          } else {
            assert extensions[n] in extensions && NameMatches(p[|p| - 1], extensions[n]);
          }
        }
      }
      prefix + last
  }

  /** Total number of matches over all patterns; a path matched by two
      patterns is counted twice. */
  function MatchCount(entries: seq<Node>, at: Path, extensions: seq<string>, recursive: bool): nat
    decreases |extensions|
  {
    if extensions == [] then 0
    else
      var n := |extensions| - 1;
      MatchCount(entries, at, extensions[..n], recursive)
        + |PatternMatches(entries, at, extensions[n], recursive)|
  }

  /** One more pattern extends the collected list by its matches. */
  lemma CollectedStep(entries: seq<Node>, at: Path, extensions: seq<string>, i: nat, recursive: bool)
    requires i < |extensions|
    ensures Collected(entries, at, extensions[..i + 1], recursive)
      == Collected(entries, at, extensions[..i], recursive) + PatternMatches(entries, at, extensions[i], recursive)
    ensures MatchCount(entries, at, extensions[..i + 1], recursive)
      == MatchCount(entries, at, extensions[..i], recursive) + |PatternMatches(entries, at, extensions[i], recursive)|
  {
    TakeLonger(extensions, i);
  }

  lemma {:induction false} CollectedLength(entries: seq<Node>, at: Path, extensions: seq<string>, recursive: bool)
    ensures |Collected(entries, at, extensions, recursive)| == MatchCount(entries, at, extensions, recursive)
    decreases |extensions|
  {
    if extensions != [] {
      CollectedLength(entries, at, extensions[..|extensions| - 1], recursive);
    }
  }

  predicate Sorted(s: seq<Path>)
  {
    forall i, j :: 0 <= i < j < |s| ==> PathLe(s[i], s[j])
  }

  /** Places `x` in front of the first element it does not exceed. */
  function InsertSorted(x: Path, s: seq<Path>): (r: seq<Path>)
    ensures multiset(r) == multiset(s) + multiset{x}
  {
    if s == [] then [x]
    else if PathLe(x, s[0]) then [x] + s
    else
      assert s == [s[0]] + s[1..];
      [s[0]] + InsertSorted(x, s[1..])
  }

  lemma {:induction false} InsertSortedSorted(x: Path, s: seq<Path>)
    requires Sorted(s)
    ensures Sorted(InsertSorted(x, s))
  {
    if s == [] {
    } else if PathLe(x, s[0]) {
      forall j | 0 < j < |s|
        ensures PathLe(x, s[j])
      {
        PathLeTransitive(x, s[0], s[j]);
      }
    } else {
      PathLeTotal(x, s[0]);
      InsertSortedSorted(x, s[1..]);
      var rest := InsertSorted(x, s[1..]);
      forall j | 0 <= j < |rest|
        ensures PathLe(s[0], rest[j])
      {
        assert rest[j] in multiset(rest);
      }
    }
  }

  /** `sorted(files)`: the files in ascending path order. */
  function SortPaths(s: seq<Path>): (r: seq<Path>)
    ensures Sorted(r)
    ensures multiset(r) == multiset(s)
  {
    if s == [] then []
    else
      assert s == [s[0]] + s[1..];
      InsertSortedSorted(s[0], SortPaths(s[1..]));
      InsertSorted(s[0], SortPaths(s[1..]))
  }

  /** Under a total order there is only one sorted arrangement of a
      collection, so any correct sort returns what `SortPaths` returns. */
  lemma {:induction false} SortedUnique(r: seq<Path>, s: seq<Path>)
    requires Sorted(r) && Sorted(s) && multiset(r) == multiset(s)
    ensures r == s
    decreases |r|
  {
    if r != [] {
      assert |s| == |r| by {
        assert |multiset(s)| == |s| && |multiset(r)| == |r|;
      }
      SortedHeadIsLeast(r, s[0]);
      SortedHeadIsLeast(s, r[0]);
      PathLeAntisymmetric(r[0], s[0]);
      MultisetTail(r, s);
      SortedUnique(r[1..], s[1..]);
      assert r == [r[0]] + r[1..] && s == [s[0]] + s[1..];
    }
  }

  /** The first element of a sorted sequence is below every element. */
  lemma SortedHeadIsLeast(s: seq<Path>, x: Path)
    requires Sorted(s) && x in multiset(s)
    ensures PathLe(s[0], x)
  {
    var j :| 0 <= j < |s| && s[j] == x;
    if j == 0 {
      PathLeReflexive(x);
    }
  }

  class Scanner {
    /** The directory the scanner looks in, and what it contains. */
    const directory: Path
    const entries: seq<Node>

    constructor (directory: Path, entries: seq<Node>)
      ensures this.directory == directory && this.entries == entries
    {
      this.directory := directory;
      this.entries := entries;
    }

    /** `scan_directory`: extend the list with the matches of each pattern
        in turn, then return it sorted. Nothing is removed: a path matched
        by two patterns appears twice. */
    method ScanDirectory(extensions: seq<string>, recursive: bool) returns (files: seq<Path>)
      ensures files == SortPaths(Collected(entries, directory, extensions, recursive))
      ensures Sorted(files)
      ensures multiset(files) == multiset(Collected(entries, directory, extensions, recursive))
      ensures |files| == MatchCount(entries, directory, extensions, recursive)
      ensures forall p :: p in files ==> MatchesSome(p, directory, extensions)
      ensures !recursive ==> forall p :: p in files ==> |p| == |directory| + 1
      ensures extensions == [] ==> files == []
    {
      var found: seq<Path> := [];
      for i := 0 to |extensions|
        invariant found == Collected(entries, directory, extensions[..i], recursive)
      {
        CollectedStep(entries, directory, extensions, i, recursive);
        if recursive {
          found := found + RGlob(entries, directory, extensions[i]);
        } else {
          found := found + Glob(entries, directory, extensions[i]);
        }
      }
      assert extensions[..|extensions|] == extensions;
      files := SortPaths(found);
      CollectedLength(entries, directory, extensions, recursive);
      assert |multiset(files)| == |files| && |multiset(found)| == |found|;
      forall p | p in files
        ensures p in found
      {
        assert p in multiset(files);
      }
    }

    /** `count_files`: the length of what `scan_directory` returns. */
    method CountFiles(extensions: seq<string>, recursive: bool) returns (n: nat)
      ensures n == MatchCount(entries, directory, extensions, recursive)
    {
      var files := ScanDirectory(extensions, recursive);
      n := |files|;
    }
  }
}
