/** Nested ignore files: `build_ignore_matcher` and `ignored_paths` in changesets.py. */
module IgnoreFiles {
  import opened Runs

  const GITIGNORE: string := ".gitignore"

  /** `flag`, whether to ignore, is None for a comment or a blank line. */
  datatype Pattern = Pattern(flag: Option<bool>, matches: string -> bool)

  /** An ignore file, by its directory ("" for the root). */
  datatype IgnoreFile = IgnoreFile(dir: string, patterns: seq<Pattern>)

  function PathOf(dir: string): string {
    if dir == "" then GITIGNORE else dir + "/" + GITIGNORE
  }

  // ---- the matcher --------------------------------------------------------

  function WithSlashes(path: string): (s: string)
    ensures '\\' !in s && |s| == |path|
  {
    if path == "" then "" else [if path[0] == '\\' then '/' else path[0]] + WithSlashes(path[1..])
  }

  function StripLeft(path: string): (s: string)
    ensures s == "" || s[0] != '/'
  {
    if path != "" && path[0] == '/' then StripLeft(path[1..]) else path
  }

  function Normal(path: string): string {
    StripLeft(WithSlashes(path))
  }

  predicate Covers(dir: string, norm: string) {
    dir == "" || norm == dir || dir + "/" <= norm
  }

  /** What is left of the path under the directory; "" when nothing is. */
  function Relative(dir: string, norm: string): string
    requires Covers(dir, norm)
  {
    if dir == "" then norm else if norm == dir then "" else norm[|dir| + 1..]
  }

  predicate Applies(file: IgnoreFile, norm: string) {
    Covers(file.dir, norm) && Relative(file.dir, norm) != ""
  }

  /** Pattern `j` of file `i` has a say on the path. */
  predicate Speaks(files: seq<IgnoreFile>, norm: string, i: nat, j: nat) {
    i < |files| && j < |files[i].patterns| && Applies(files[i], norm) &&
    files[i].patterns[j].flag.Some? && files[i].patterns[j].matches(Relative(files[i].dir, norm))
  }

  predicate Before(i: nat, j: nat, i': nat, j': nat) {
    i < i' || (i == i' && j < j')
  }

  /** The last to speak among the places before (fi, pj). */
  ghost predicate LastUpTo(files: seq<IgnoreFile>, norm: string, fi: nat, pj: nat, i: nat, j: nat) {
    Speaks(files, norm, i, j) && Before(i, j, fi, pj) &&
    forall i': nat, j': nat :: Speaks(files, norm, i', j') && Before(i', j', fi, pj) ==> !Before(i, j, i', j')
  }

  ghost predicate SpeaksLast(files: seq<IgnoreFile>, norm: string, i: nat, j: nat) {
    Speaks(files, norm, i, j) &&
    forall i': nat, j': nat :: Speaks(files, norm, i', j') ==> !Before(i, j, i', j')
  }

  /** The last pattern with a say, in walk order, says to ignore. */
  ghost predicate IsIgnored(files: seq<IgnoreFile>, norm: string) {
    exists i: nat, j: nat :: SpeaksLast(files, norm, i, j) && files[i].patterns[j].flag.value
  }

  ghost predicate AnswersUpTo(files: seq<IgnoreFile>, norm: string, fi: nat, pj: nat, result: bool) {
    result <==> exists i: nat, j: nat :: LastUpTo(files, norm, fi, pj, i, j) && files[i].patterns[j].flag.value
  }

  /** `ignored`: every pattern of every file is walked, and each that has a say sets the
      answer. */
  method Ignored(files: seq<IgnoreFile>, path: string) returns (result: bool)
    ensures result <==> IsIgnored(files, Normal(path))
  {
    var norm := Normal(path);
    result := false;
    var i := 0;
    while i < |files|
      invariant 0 <= i <= |files|
      invariant AnswersUpTo(files, norm, i, 0, result)
    {
      var file := files[i];
      if Applies(file, norm) {
        var relative := Relative(file.dir, norm);
        var j := 0;
        while j < |file.patterns|
          invariant 0 <= j <= |file.patterns|
          invariant AnswersUpTo(files, norm, i, j, result)
        {
          var pattern := file.patterns[j];
          OnePatternFurther(files, norm, i, j, result);
          if pattern.flag.Some? && pattern.matches(relative) {
            result := pattern.flag.value;
          }
          j := j + 1;
        }
      }
      OneFileFurther(files, norm, i, result);
      i := i + 1;
    }
    WholeWalk(files, norm, result);
  }

  lemma {:induction false} OnePatternFurther(files: seq<IgnoreFile>, norm: string, i: nat, j: nat, result: bool)
    requires AnswersUpTo(files, norm, i, j, result)
    ensures AnswersUpTo(files, norm, i, j + 1,
              if Speaks(files, norm, i, j) then files[i].patterns[j].flag.value else result)
  {
    if Speaks(files, norm, i, j) {
      assert LastUpTo(files, norm, i, j + 1, i, j);
    } else {
      forall i': nat, j': nat
        ensures LastUpTo(files, norm, i, j + 1, i', j') <==> LastUpTo(files, norm, i, j, i', j')
      {
      }
    }
  }

  lemma {:induction false} OneFileFurther(files: seq<IgnoreFile>, norm: string, i: nat, result: bool)
    requires i < |files|
    requires AnswersUpTo(files, norm, i, if Applies(files[i], norm) then |files[i].patterns| else 0, result)
    ensures AnswersUpTo(files, norm, i + 1, 0, result)
  {
    var n := if Applies(files[i], norm) then |files[i].patterns| else 0;
    forall i': nat, j': nat
      ensures LastUpTo(files, norm, i + 1, 0, i', j') <==> LastUpTo(files, norm, i, n, i', j')
    {
    }
  }

  lemma {:induction false} WholeWalk(files: seq<IgnoreFile>, norm: string, result: bool)
    requires AnswersUpTo(files, norm, |files|, 0, result)
    ensures result <==> IsIgnored(files, norm)
  {
    forall i: nat, j: nat
      ensures LastUpTo(files, norm, |files|, 0, i, j) <==> SpeaksLast(files, norm, i, j)
    {
    }
  }

  lemma {:induction false} NoFilesIgnoreNothing(norm: string)
    ensures !IsIgnored([], norm)
  {
  }

  /** `ignored_paths`: the paths that are neither empty nor tracked and that the matcher
      ignores. A path is given trimmed and with its slashes already turned. */
  method IgnoredPaths(paths: seq<string>, files: seq<IgnoreFile>, tracked: set<string>) returns (out: seq<string>)
    ensures forall path :: path in out <==>
      path in paths && path != "" && path !in tracked && IsIgnored(files, Normal(path))
  {
    hide IsIgnored, Normal;
    out := [];
    if files == [] {
      forall path
        ensures !IsIgnored(files, Normal(path))
      {
        NoFilesIgnoreNothing(Normal(path));
      }
      return;
    }
    for k := 0 to |paths|
      invariant forall path :: path in out <==>
        path in paths[..k] && path != "" && path !in tracked && IsIgnored(files, Normal(path))
    {
      if paths[k] != "" && paths[k] !in tracked {
        var ignored := Ignored(files, paths[k]);
        if ignored {
          out := out + [paths[k]];
        }
      }
    }
  }

  // ---- the walk order -----------------------------------------------------

  /** Order of strings by code point. */
  predicate Less(a: string, b: string) {
    b != "" && (a == "" || a[0] < b[0] || (a[0] == b[0] && Less(a[1..], b[1..])))
  }

  /** `sorted(ignore_files.items())`. */
  ghost predicate InWalkOrder(files: seq<IgnoreFile>) {
    forall i, j :: 0 <= i < j < |files| ==> Less(PathOf(files[i].dir), PathOf(files[j].dir))
  }

  lemma {:induction false} LessIsStrict(a: string, b: string)
    ensures !(Less(a, b) && Less(b, a)) && !Less(a, a)
    ensures a != b ==> Less(a, b) || Less(b, a)
    decreases |a|
  {
    if a != "" {
      if b != "" {
        LessIsStrict(a[1..], b[1..]);
        assert a == [a[0]] + a[1..] && b == [b[0]] + b[1..];
      } else {
        LessIsStrict(a[1..], a[1..]);
      }
    }
  }

  lemma {:induction false} LessAfterPrefix(p: string, a: string, b: string)
    ensures Less(p + a, p + b) <==> Less(a, b)
  {
    if p == "" {
      assert p + a == a && p + b == b;
    } else {
      assert (p + a)[1..] == p[1..] + a && (p + b)[1..] == p[1..] + b;
      LessAfterPrefix(p[1..], a, b);
    }
  }

  lemma {:induction false} NameAgainstComponent(name: string, c: string, tail: string)
    requires forall k :: 0 <= k < |name| ==> name[k] > '/' || (k == 0 && c != "")
    requires '/' !in c
    ensures Less(name, c + "/" + tail) <==> !Less(c, name)
  {
    var other := c + "/" + tail;
    if name != "" {
      if c == "" {
        assert other[0] == '/';
      } else {
        assert other[1..] == c[1..] + "/" + tail;
        NameAgainstComponent(name[1..], c[1..], tail);
      }
    }
  }

  /** The next directory on the way sorts before `.gitignore`. An empty one, between two
      slashes, does not: a slash sorts after a dot. */
  predicate SortsAhead(c: string) {
    c != "" && Less(c, GITIGNORE)
  }

  /** An ignore file is walked before one below it exactly when the next directory on
      the way does not sort before `.gitignore`. */
  lemma {:induction false} AncestorIsWalkedFirstIff(p: string, c: string, tail: string)
    requires '/' !in c
    ensures Less(p + GITIGNORE, p + c + "/" + tail) <==> !SortsAhead(c)
    ensures Less(p + c + "/" + tail, p + GITIGNORE) <==> SortsAhead(c)
  {
    assert p + c + "/" + tail == p + (c + "/" + tail);
    LessAfterPrefix(p, GITIGNORE, c + "/" + tail);
    if c != "" {
      NameAgainstComponent(GITIGNORE, c, tail);
    } else {
      assert (c + "/" + tail)[0] == '/';
    }
    LessIsStrict(p + GITIGNORE, p + c + "/" + tail);
    SlashTellsApart(GITIGNORE, c, tail);
    assert p + GITIGNORE != p + (c + "/" + tail) by {
      assert (p + GITIGNORE)[|p|..] == GITIGNORE && (p + (c + "/" + tail))[|p|..] == c + "/" + tail;
    }
  }

  lemma {:induction false} SlashTellsApart(name: string, c: string, tail: string)
    requires '/' !in name
    ensures name != c + "/" + tail
  {
    assert (c + "/" + tail)[|c|] == '/';
  }

  /** The path's component that starts at `k`. */
  function Component(s: string, k: nat): (c: string)
    requires k <= |s|
    ensures '/' !in c && k + |c| <= |s| && s[k..k + |c|] == c
    ensures k + |c| < |s| ==> s[k + |c|] == '/'
    ensures forall i :: k <= i < k + |c| ==> s[i] != '/'
    decreases |s| - k
  {
    if k == |s| || s[k] == '/' then "" else [s[k]] + Component(s, k + 1)
  }

  predicate StartsComponent(s: string, k: nat) {
    k < |s| && (k == 0 || s[k - 1] == '/')
  }

  /** No directory on the way to the path sorts before `.gitignore`. */
  ghost predicate OrderlyWay(norm: string) {
    forall k: nat :: StartsComponent(norm, k) && k + |Component(norm, k)| < |norm| ==> !SortsAhead(Component(norm, k))
  }

  function Root(dir: string): string {
    if dir == "" then "" else dir + "/"
  }

  lemma {:induction false} ApplyingDirIsPrefix(file: IgnoreFile, norm: string)
    requires Applies(file, norm)
    ensures Root(file.dir) <= norm && Root(file.dir) != norm && PathOf(file.dir) == Root(file.dir) + GITIGNORE
  {
  }

  /** The directory right below an applying file on the way to the path. */
  function NextDown(up: IgnoreFile, norm: string): string
    requires Applies(up, norm)
  {
    ApplyingDirIsPrefix(up, norm);
    Component(norm, |Root(up.dir)|)
  }

  /** Of two applying files the shallower is walked first exactly when the directory
      right below it does not sort before `.gitignore`. */
  lemma {:induction false} ShallowerFirstIff(up: IgnoreFile, down: IgnoreFile, norm: string)
    requires Applies(up, norm) && Applies(down, norm) && |up.dir| < |down.dir|
    ensures Less(PathOf(up.dir), PathOf(down.dir)) <==> !SortsAhead(NextDown(up, norm))
    ensures Less(PathOf(down.dir), PathOf(up.dir)) <==> SortsAhead(NextDown(up, norm))
    ensures StartsComponent(norm, |Root(up.dir)|) && |Root(up.dir)| + |NextDown(up, norm)| < |norm|
  {
    ApplyingDirIsPrefix(up, norm);
    ApplyingDirIsPrefix(down, norm);
    var k := |Root(up.dir)|;
    assert Root(up.dir) == norm[..k];
    assert StartsComponent(norm, k) && k <= |down.dir|;
    var c, tail := WayDown(down.dir, norm, k);
    AncestorIsWalkedFirstIff(Root(up.dir), c, tail);
  }

  /** The way to a lower ignore file leads through the component that starts at `k`. */
  lemma {:induction false} WayDown(dir: string, norm: string, k: nat) returns (c: string, tail: string)
    requires dir != "" && dir + "/" <= norm && k <= |dir|
    ensures c == Component(norm, k) && k + |c| < |norm|
    ensures PathOf(dir) == norm[..k] + c + "/" + tail
  {
    c := Component(norm, k);
    hide Component, Less;
    var n := k + |c|;
    assert norm[|dir|] == (dir + "/")[|dir|] == '/';
    var whole := PathOf(dir);
    assert whole == (dir + "/") + GITIGNORE;
    SamePrefix(whole, norm, dir + "/", n + 1);
    CutOut(norm[..n + 1], k, n);
    tail := whole[n + 1..];
  }

  lemma {:induction false} SamePrefix(a: string, b: string, p: string, n: nat)
    requires p <= a && p <= b && n <= |p|
    ensures a[..n] == b[..n]
  {
    assert a[..n] == p[..n] == b[..n];
  }

  lemma {:induction false} CutOut(s: string, k: nat, n: nat)
    requires k <= n < |s| && s[n] == '/'
    ensures s[..n + 1] == s[..k] + s[k..n] + "/"
  {
  }

  ghost predicate DeepestSpeaks(files: seq<IgnoreFile>, norm: string, i: nat, j: nat) {
    Speaks(files, norm, i, j) &&
    (forall i': nat, j': nat :: Speaks(files, norm, i', j') ==> |files[i'].dir| <= |files[i].dir|) &&
    forall j': nat :: Speaks(files, norm, i, j') ==> j' <= j
  }

  lemma {:induction false} SameLengthSameDir(d: string, e: string, norm: string)
    requires |d| == |e| && Root(d) <= norm && Root(e) <= norm
    ensures d == e
  {
    assert d == norm[..|d|] && e == norm[..|e|];
  }

  /** Some shallower file that has a say is walked too late to be overridden. */
  ghost predicate OverruledFromAbove(files: seq<IgnoreFile>, norm: string, i: nat)
    requires i < |files|
  {
    exists i': nat, j': nat ::
      Speaks(files, norm, i', j') && |files[i'].dir| < |files[i].dir| && SortsAhead(NextDown(files[i'], norm))
  }

  /** The deepest file with a say decides, by its last pattern that has one, exactly when
      no shallower file with a say has, right below it on the way to the path, a
      directory that sorts before `.gitignore`. */
  lemma {:induction false} DeepestFileWinsIff(files: seq<IgnoreFile>, norm: string, i: nat, j: nat)
    requires InWalkOrder(files) && DeepestSpeaks(files, norm, i, j)
    ensures SpeaksLast(files, norm, i, j) <==> !OverruledFromAbove(files, norm, i)
    ensures !OverruledFromAbove(files, norm, i) ==> (IsIgnored(files, norm) <==> files[i].patterns[j].flag.value)
  {
    forall i': nat, j': nat | Speaks(files, norm, i', j')
      ensures Before(i, j, i', j') <==>
              |files[i'].dir| < |files[i].dir| && SortsAhead(NextDown(files[i'], norm))
    {
      LessIsStrict(PathOf(files[i].dir), PathOf(files[i'].dir));
      if |files[i'].dir| < |files[i].dir| {
        ShallowerFirstIff(files[i'], files[i], norm);
      } else {
        ApplyingDirIsPrefix(files[i], norm);
        ApplyingDirIsPrefix(files[i'], norm);
        SameLengthSameDir(files[i].dir, files[i'].dir, norm);
      }
    }
  }

  /** So on a way without such directories the deeper file always overrides. */
  lemma {:induction false} DeeperFileWins(files: seq<IgnoreFile>, norm: string, i: nat, j: nat)
    requires InWalkOrder(files) && OrderlyWay(norm) && DeepestSpeaks(files, norm, i, j)
    ensures SpeaksLast(files, norm, i, j) && (IsIgnored(files, norm) <==> files[i].patterns[j].flag.value)
  {
    DeepestFileWinsIff(files, norm, i, j);
    forall i': nat, j': nat | Speaks(files, norm, i', j') && |files[i'].dir| < |files[i].dir|
      ensures !SortsAhead(NextDown(files[i'], norm))
    {
      ShallowerFirstIff(files[i'], files[i], norm);
    }
  }

  /** A file in `.config/` that takes a path back is overruled by the root's that ignores
      it. */
  lemma {:induction false} ConfigIsOverruled(all: string -> bool)
    requires forall path :: all(path)
    ensures var files := [IgnoreFile(".config", [Pattern(Some(false), all)]),
                          IgnoreFile("", [Pattern(Some(true), all)])];
            InWalkOrder(files) && DeepestSpeaks(files, ".config/x", 0, 0) && IsIgnored(files, ".config/x")
  {
    var files := [IgnoreFile(".config", [Pattern(Some(false), all)]), IgnoreFile("", [Pattern(Some(true), all)])];
    var norm := ".config/x";
    assert PathOf(".config")[1..] == "config/.gitignore" && GITIGNORE[1..] == "gitignore";
    assert norm[..8] == ".config" + "/" && norm[8..] == "x";
    assert SpeaksLast(files, norm, 1, 0);
  }
}
