/** `FileManager.create_dir` of `file_manager.py`: split a path into its
    directory components with three regular expressions, then create every
    missing prefix directory, shallow to deep. */
module FileManager {
  import opened Wrappers
  import opened Text

  /** The character class `[\\/]`. */
  const Separators: set<char> := {'/', '\\'}

  /** The class `\w`, restricted to ASCII letters, digits and '_'. */
  predicate IsWordChar(c: char)
  {
    'a' <= c <= 'z' || 'A' <= c <= 'Z' || '0' <= c <= '9' || c == '_'
  }

  predicate AllWord(w: string)
  {
    forall j :: 0 <= j < |w| ==> IsWordChar(w[j])
  }

  /** The longest prefix of `s` made of word characters: what the greedy
      `\w+` at the start of `s` takes. */
  function WordRun(s: string): (w: string)
    ensures |w| <= |s| && w == s[..|w|] && AllWord(w)
    ensures |w| < |s| ==> !IsWordChar(s[|w|])
    decreases |s|
  {
    if s != [] && IsWordChar(s[0]) then [s[0]] + WordRun(s[1..]) else []
  }

  /** The longest prefix of `s` free of separators: what `([^\\/]*)` takes. */
  function SegmentRun(s: string): (w: string)
    ensures |w| <= |s| && w == s[..|w|] && Avoids(w, Separators)
    ensures |w| < |s| ==> s[|w|] in Separators
    decreases |s|
  {
    if s != [] && s[0] !in Separators then [s[0]] + SegmentRun(s[1..]) else []
  }

  /** `DIRECTORY.findall(s)` with `DIRECTORY = [\\/]([^\\/]*)`: scanning left
      to right, every separator starts a match whose group is the run of
      non-separators after it; the next match starts where that run ends. */
  function FindDirectories(s: string): (r: seq<string>)
    ensures |r| <= |s|
    decreases |s|
  {
    if s == [] then []
    else if s[0] in Separators then
      var segment := SegmentRun(s[1..]);
      [segment] + FindDirectories(s[1 + |segment|..])
    else FindDirectories(s[1..])
  }

  /** The piece of `t` before its first separator comes off as the first
      part of the split; what follows starts with that separator. */
  lemma SplitSegment(t: string)
    ensures var after := t[|SegmentRun(t)|..];
      (after == [] ==> Split(t, Separators) == [SegmentRun(t)]) &&
      (after != [] ==> Split(t, Separators) == [SegmentRun(t)] + Split(after, Separators)[1..])
  {
    var segment := SegmentRun(t);
    var after := t[|segment|..];
    assert t == segment + after;
    if after == [] {
      SplitAvoiding(segment, Separators);
    } else {
      SplitAtSeparator(segment, after);
    }
  }

  /** A piece free of separators followed by text that starts with one. */
  lemma SplitAtSeparator(segment: string, after: string)
    requires Avoids(segment, Separators) && after != [] && after[0] in Separators
    ensures Split(segment + after, Separators) == [segment] + Split(after, Separators)[1..]
  {
    var c, rest := after[0], after[1..];
    assert segment + after == segment + [c] + rest;
    assert after == [] + [c] + rest;
    SplitAfterPiece(segment, c, rest, Separators);
    SplitAfterPiece([], c, rest, Separators);
  }

  /** The segments that `findall` yields are the pieces of `s` between
      separators, less the piece before the first separator: one per
      separator, an empty one after a trailing separator included. */
  lemma {:induction false} FindDirectoriesSplit(s: string)
    ensures FindDirectories(s) == Split(s, Separators)[1..]
    decreases |s|
  {
    if s != [] {
      if s[0] in Separators {
        var t := s[1..];
        var after := t[|SegmentRun(t)|..];
        assert s[1 + |SegmentRun(t)|..] == after;
        SplitSegment(t);
        if after != [] {
          FindDirectoriesSplit(after);
        }
        assert Split(s, Separators) == [[]] + Split(t, Separators);
      } else {
        FindDirectoriesSplit(s[1..]);
      }
    }
  }

  /** `DRIVE_LETTER.search(s)` with `DRIVE_LETTER = ^(\w+):[\\/]`, giving
      group 1 when it matches. */
  function DriveLetter(s: string): (r: Option<string>)
    ensures r.Some? ==>
      |r.value| > 0 && AllWord(r.value) && |r.value| + 2 <= |s| &&
      s[..|r.value|] == r.value && s[|r.value|] == ':' && s[|r.value| + 1] in Separators
  {
    var w := WordRun(s);
    if |w| > 0 && |w| + 2 <= |s| && s[|w|] == ':' && s[|w| + 1] in Separators then Some(w) else None
  }

  /** `ROOT.search(s)` with `ROOT = ^(\w+)[\\/]`, giving group 1 when it
      matches. */
  function Root(s: string): (r: Option<string>)
    ensures r.Some? ==>
      |r.value| > 0 && AllWord(r.value) && |r.value| + 1 <= |s| &&
      s[..|r.value|] == r.value && s[|r.value|] in Separators
  {
    var w := WordRun(s);
    if |w| > 0 && |w| + 1 <= |s| && s[|w|] in Separators then Some(w) else None
  }

  /** If a non-empty word prefix of `s` is followed by a non-word character,
      it is the longest one. */
  lemma WordRunUnique(s: string, w: string)
    requires |w| > 0 && AllWord(w) && |w| < |s| && s[..|w|] == w && !IsWordChar(s[|w|])
    ensures WordRun(s) == w
  {
    var r := WordRun(s);
    assert r == s[..|r|];
  }

  /** The drive pattern matches exactly when `s` is a non-empty word, a colon
      and a separator, followed by anything; group 1 is the word. */
  lemma DriveLetterMatches(s: string, w: string)
    ensures DriveLetter(s) == Some(w) <==>
      |w| > 0 && AllWord(w) && |w| + 2 <= |s| && s[..|w|] == w && s[|w|] == ':' && s[|w| + 1] in Separators
  {
    if |w| > 0 && AllWord(w) && |w| + 2 <= |s| && s[..|w|] == w && s[|w|] == ':' && s[|w| + 1] in Separators {
      WordRunUnique(s, w);
    }
  }

  /** The root pattern matches exactly when `s` is a non-empty word and a
      separator, followed by anything; group 1 is the word. */
  lemma RootMatches(s: string, w: string)
    ensures Root(s) == Some(w) <==>
      |w| > 0 && AllWord(w) && |w| + 1 <= |s| && s[..|w|] == w && s[|w|] in Separators
  {
    if |w| > 0 && AllWord(w) && |w| + 1 <= |s| && s[..|w|] == w && s[|w|] in Separators {
      assert !IsWordChar(s[|w|]);
      WordRunUnique(s, w);
    }
  }

  /** Where the directories are created: under a drive's root (`X:/`) or
      under the current directory. */
  datatype Base = Cwd | Drive(letter: string)

  /** A directory: a base and the components below it, as `normpath` leaves
      them (no empty components). */
  datatype Path = Path(base: Base, dirs: seq<string>)

  /** The empty components that `normpath` collapses dropped. `.` and `..`
      are not resolved. */
  function Normalize(dirs: seq<string>): (n: seq<string>)
    ensures |n| <= |dirs|
  {
    if dirs == [] then []
    else Normalize(dirs[..|dirs| - 1]) + (if dirs[|dirs| - 1] == [] then [] else [dirs[|dirs| - 1]])
  }

  /** Exactly the non-empty components are kept, and a list without empty
      components is left as it is. */
  lemma {:induction false} NormalizeKeeps(dirs: seq<string>)
    ensures forall x :: x in Normalize(dirs) <==> x in dirs && x != []
    ensures forall i :: 0 <= i < |Normalize(dirs)| ==> Normalize(dirs)[i] != []
    ensures (forall i :: 0 <= i < |dirs| ==> dirs[i] != []) ==> Normalize(dirs) == dirs
    decreases |dirs|
  {
    if dirs != [] {
      var init := dirs[..|dirs| - 1];
      NormalizeKeeps(init);
      assert dirs == init + [dirs[|dirs| - 1]];
    }
  }

  /** Normalizing works piece by piece, so the kept components stay in
      order. */
  lemma {:induction false} NormalizeConcat(a: seq<string>, b: seq<string>)
    ensures Normalize(a + b) == Normalize(a) + Normalize(b)
    decreases |b|
  {
    if b == [] {
      assert a + b == a;
    } else {
      var init := b[..|b| - 1];
      NormalizeConcat(a, init);
      assert (a + b)[..|a + b| - 1] == a + init;
    }
  }

  lemma NormalizeStep(dirs: seq<string>, i: nat)
    requires i < |dirs|
    ensures Normalize(dirs[..i + 1]) == Normalize(dirs[..i]) + (if dirs[i] == [] then [] else [dirs[i]])
  {
    assert dirs[..i + 1][..i] == dirs[..i];
  }

  /** The base and the directory list `create_dir` works with: with a drive
      prefix, the base is `X:/` and the list is the `findall` segments;
      otherwise the leading word before the first separator goes first and
      the base is the current directory. A path of neither form makes
      `ROOT.search(...)` return None, and `.group(1)` on it raises
      AttributeError. */
  function Locate(filepath: string): (r: Result<(Base, seq<string>)>)
    ensures r.Err? <==> DriveLetter(filepath).None? && Root(filepath).None?
    ensures r.Err? ==> r.error == AttributeError
    ensures r.Ok? ==> (r.value.0 == Cwd <==> DriveLetter(filepath).None?)
  {
    match DriveLetter(filepath)
    case Some(w) => Ok((Drive(w), FindDirectories(filepath)))
    case None =>
      match Root(filepath)
      case Some(w) => Ok((Cwd, [w] + FindDirectories(filepath)))
      case None => Err(AttributeError)
  }

  /** With a drive prefix, the directories are exactly the segments after
      each separator. */
  lemma LocateDrive(filepath: string)
    ensures DriveLetter(filepath).Some? ==>
      Locate(filepath) == Ok((Drive(DriveLetter(filepath).value), Split(filepath, Separators)[1..]))
  {
    FindDirectoriesSplit(filepath);
  }

  /** Without one, prepending the root word makes the directories the whole
      split of the path: the word is the piece before the first separator. */
  lemma LocateRelative(filepath: string)
    ensures DriveLetter(filepath).None? && Root(filepath).Some? ==>
      Locate(filepath) == Ok((Cwd, Split(filepath, Separators)))
  {
    if DriveLetter(filepath).None? && Root(filepath).Some? {
      var w := Root(filepath).value;
      FindDirectoriesSplit(filepath);
      var sep := filepath[|w|];
      assert filepath == w + [sep] + filepath[|w| + 1..];
      SplitAfterPiece(w, sep, filepath[|w| + 1..], Separators);
      var parts := Split(filepath, Separators);
      assert parts == [w] + Split(filepath[|w| + 1..], Separators);
      assert [w] + parts[1..] == parts;
    }
  }


  /** Neither a drive letter nor a leading word before a separator: the
      lookup fails. */
  lemma LocateFails(filepath: string)
    requires DriveLetter(filepath).None? && Root(filepath).None?
    ensures Locate(filepath) == Err(AttributeError)
  {
  }

  /** A path without separators matches neither pattern. */
  lemma BareNameUnparsed(s: string)
    ensures Avoids(s, Separators) ==> Locate(s).Err?
  {
  }

  lemma LocateExamples()
    ensures Locate("json") == Err(AttributeError)
    ensures Locate("./a") == Err(AttributeError)
    ensures Locate("/abs") == Err(AttributeError)
  {
    assert WordRun("json") == "json";
    assert WordRun("./a") == [];
    assert WordRun("/abs") == [];
  }

  /** The prefix `directories[:i]` as a directory. */
  function Prefix(base: Base, dirs: seq<string>, i: nat): Path
    requires i <= |dirs|
  {
    Path(base, Normalize(dirs[..i]))
  }

  /** The directory a base stands for: `os.getcwd()` or the drive root
      `X:/`. */
  function BaseDir(base: Base): Path
  {
    Path(base, [])
  }

  /** `os.path.exists` on a directory: the working directory always exists;
      a drive root, like any other directory, exists when the file system
      holds it. */
  predicate ExistsIn(dirs: set<Path>, p: Path)
  {
    p == BaseDir(Cwd) || p in dirs
  }

  /** The directory one level up; a base is its own parent. */
  function Parent(p: Path): Path
  {
    Path(p.base, if p.dirs == [] then [] else p.dirs[..|p.dirs| - 1])
  }

  function Elements(s: seq<Path>): set<Path>
  {
    set p | p in s
  }

  lemma ElementsSnoc(s: seq<Path>, p: Path)
    ensures Elements(s + [p]) == Elements(s) + {p}
  {
    assert forall q :: q in s + [p] <==> q in s || q == p;
  }

  /** Where the loop of `create_dir` stands after some rounds: the
      directories it made, in order, and whether an `os.mkdir` raised. */
  datatype Rounds = Rounds(created: seq<Path>, failed: bool)

  /** Whether `p` exists once the directories `created` were added to
      `before`. */
  predicate ExistsAfter(before: set<Path>, created: seq<Path>, p: Path)
  {
    ExistsIn(before, p) || p in created
  }

  lemma ElementsExists(before: set<Path>, created: seq<Path>, p: Path)
    ensures ExistsIn(before + Elements(created), p) <==> ExistsAfter(before, created, p)
  {
  }

  /** The paths `directories[:1]`, ..., `directories[:n]` that the loop of
      `create_dir` visits, in order. */
  function Prefixes(base: Base, ds: seq<string>): (ps: seq<Path>)
    ensures |ps| == |ds|
  {
    seq(|ds|, i requires 0 <= i < |ds| => Prefix(base, ds, i + 1))
  }

  /** The path the loop visited before `ps[i]`: the base for the first. */
  function Up(base: Base, ps: seq<Path>, i: nat): Path
    requires i <= |ps|
  {
    if i == 0 then BaseDir(base) else ps[i - 1]
  }

  /** `p` is `q` again (an empty component) or lies one component below it. */
  predicate Step(q: Path, p: Path)
  {
    p == q || (p.dirs != [] && Parent(p) == q)
  }

  /** The visited path `ps[i]` is its predecessor or one component below it. */
  predicate StepAt(base: Base, ps: seq<Path>, i: nat)
    requires i < |ps|
  {
    Step(Up(base, ps, i), ps[i])
  }

  /** Each visited path is its predecessor or one component below it. */
  predicate Climbs(base: Base, ps: seq<Path>)
  {
    forall i :: 0 <= i < |ps| ==> StepAt(base, ps, i)
  }

  /** The prefixes `directories[:i]` climb from the base, one component at a
      time. */
  lemma PrefixesClimb(base: Base, ds: seq<string>)
    ensures Climbs(base, Prefixes(base, ds))
  {
    var ps := Prefixes(base, ds);
    forall i | 0 <= i < |ps| ensures StepAt(base, ps, i) {
      NormalizeStep(ds, i);
      if i == 0 {
        assert ds[..0] == [];
      }
      assert Up(base, ps, i) == Prefix(base, ds, i);
    }
  }

  /** The first `n` rounds of the loop of `create_dir` over the visited
      paths `ps`, starting from the directories `before`: round `i` skips
      `ps[i-1]` when it exists by then and otherwise calls `os.mkdir` on it,
      which makes it when its parent exists and raises FileNotFoundError,
      ending the loop, when not. */
  function Made(before: set<Path>, ps: seq<Path>, n: nat): Rounds
    requires n <= |ps|
  {
    if n == 0 then Rounds([], false)
    else
      var r := Made(before, ps, n - 1);
      var p := ps[n - 1];
      if r.failed || ExistsAfter(before, r.created, p) then r
      else if ExistsAfter(before, r.created, Parent(p)) then Rounds(r.created + [p], false)
      else Rounds(r.created, true)
  }

  /** Round `n` makes nothing or appends its own path; when it raised
      nothing, the earlier rounds did not either and its path exists. */
  lemma MadeLast(before: set<Path>, ps: seq<Path>, n: nat)
    requires 1 <= n <= |ps|
    ensures var r := Made(before, ps, n - 1);
      var m := Made(before, ps, n);
      m.created == r.created || m.created == r.created + [ps[n - 1]]
    ensures var r := Made(before, ps, n - 1);
      var m := Made(before, ps, n);
      !m.failed ==> !r.failed && ExistsAfter(before, m.created, ps[n - 1])
  {
  }

  /** After `n` rounds that raised nothing, each of the first `n` visited
      paths exists. */
  lemma {:induction false} MadePrefixesExist(before: set<Path>, ps: seq<Path>, n: nat)
    requires n <= |ps|
    ensures !Made(before, ps, n).failed ==>
      forall i :: 0 <= i < n ==> ExistsAfter(before, Made(before, ps, n).created, ps[i])
  {
    if n > 0 && !Made(before, ps, n).failed {
      MadeLast(before, ps, n);
      MadePrefixesExist(before, ps, n - 1);
      var r := Made(before, ps, n - 1).created;
      var m := Made(before, ps, n).created;
      forall i | 0 <= i < n ensures ExistsAfter(before, m, ps[i]) {
        if i < n - 1 {
          assert ExistsAfter(before, r, ps[i]);
        }
      }
    }
  }

  /** After the first round, a missing path always finds its parent: that
      parent is the path visited just before, which the earlier rounds left
      in place. */
  lemma MadeParentExists(before: set<Path>, made: seq<Path>, base: Base, ps: seq<Path>, i: nat)
    requires Climbs(base, ps) && 2 <= i <= |ps|
    requires Made(before, ps, i - 1) == Rounds(made, false)
    requires !ExistsAfter(before, made, ps[i - 1])
    ensures ExistsAfter(before, made, Parent(ps[i - 1]))
  {
    MadePrefixesExist(before, ps, i - 1);
    assert ExistsAfter(before, made, ps[i - 2]);
    assert StepAt(base, ps, i - 1);
  }

  /** The loop raises exactly when the first path and the base it lies
      under are both missing. Under the working directory, or under a drive
      root that exists, no `os.mkdir` fails. */
  lemma {:induction false} MadeFailure(before: set<Path>, base: Base, ps: seq<Path>, n: nat)
    requires Climbs(base, ps) && n <= |ps|
    ensures Made(before, ps, n).failed <==>
      n >= 1 && !ExistsIn(before, ps[0]) && !ExistsIn(before, BaseDir(base))
  {
    if n == 1 {
      assert StepAt(base, ps, 0);
      assert Parent(ps[0]) == BaseDir(base);
    } else if n > 1 {
      MadeFailure(before, base, ps, n - 1);
      var r := Made(before, ps, n - 1);
      if !r.failed && !ExistsAfter(before, r.created, ps[n - 1]) {
        MadeParentExists(before, r.created, base, ps, n);
      }
    }
  }

  /** `Q:/a` has the drive `Q` and the one component `a`. */
  lemma DriveExample()
    ensures Locate("Q:/a") == Ok((Drive("Q"), ["a"]))
  {
    assert WordRun("Q:/a") == "Q";
    DriveExampleSegments();
  }

  lemma DriveExampleSegments()
    ensures FindDirectories("Q:/a") == ["a"]
  {
    assert "Q:/a"[1..] == ":/a" && ":/a"[1..] == "/a" && "/a"[1..] == "a";
    assert SegmentRun("a") == "a";
    assert "/a"[1 + 1..] == [];
  }

  /** The one visited path of `Q:/a` is missing, and so is its parent `Q:/`. */
  lemma NoDriveRound()
    ensures Made({}, Prefixes(Drive("Q"), ["a"]), 1) == Rounds([], true)
  {
    var ps := Prefixes(Drive("Q"), ["a"]);
    assert ["a"][..1] == ["a"];
    assert Normalize(["a"]) == ["a"];
    assert ps[0] == Path(Drive("Q"), ["a"]);
    assert Parent(ps[0]) == BaseDir(Drive("Q"));
  }

  /** `create_dir("Q:/a")` where there is no drive `Q:`: the first round
      finds neither `Q:/a` nor its parent `Q:/`, and `os.mkdir` raises. */
  lemma MissingDriveExample()
    ensures Locate("Q:/a") == Ok((Drive("Q"), ["a"]))
    ensures Made({}, Prefixes(Drive("Q"), ["a"]), 1) == Rounds([], true)
  {
    DriveExample();
    NoDriveRound();
  }

  /** Once an `os.mkdir` raised, no later round runs. */
  lemma {:induction false} MadeFailedStays(before: set<Path>, ps: seq<Path>, n: nat, m: nat)
    requires n <= m <= |ps| && Made(before, ps, n).failed
    ensures Made(before, ps, m) == Made(before, ps, n)
    decreases m
  {
    if m > n {
      MadeFailedStays(before, ps, n, m - 1);
    }
  }

  /** Round `i` of the loop, when its path exists in the directories `now`
      left by the earlier rounds, which made `made`: nothing is made. */
  lemma MadeSkip(before: set<Path>, now: set<Path>, made: seq<Path>, ps: seq<Path>, i: nat)
    requires 1 <= i <= |ps|
    requires Made(before, ps, i - 1) == Rounds(made, false) && now == before + Elements(made)
    requires ExistsIn(now, ps[i - 1])
    ensures Made(before, ps, i) == Rounds(made, false)
  {
    ElementsExists(before, made, ps[i - 1]);
  }

  /** Round `i` of the loop, when its path `p` is missing: it is the next
      directory made when its parent exists, and the loop raises when not. */
  lemma MadeAdd(before: set<Path>, now: set<Path>, made: seq<Path>, ps: seq<Path>, i: nat)
    requires 1 <= i <= |ps|
    requires Made(before, ps, i - 1) == Rounds(made, false) && now == before + Elements(made)
    requires !ExistsIn(now, ps[i - 1])
    ensures var p := ps[i - 1];
      ExistsIn(now, Parent(p)) ==>
        Made(before, ps, i) == Rounds(made + [p], false) &&
        now + {p} == before + Elements(made + [p])
    ensures var p := ps[i - 1];
      !ExistsIn(now, Parent(p)) ==> Made(before, ps, i) == Rounds(made, true)
  {
    var p := ps[i - 1];
    ElementsExists(before, made, p);
    ElementsExists(before, made, Parent(p));
    ElementsSnoc(made, p);
  }

  /** Round `n` either makes nothing or appends its path, which did not
      exist, is not a base and lies one component below the path visited
      before it. */
  lemma MadeGrowth(before: set<Path>, base: Base, ps: seq<Path>, n: nat) returns (grew: bool)
    requires Climbs(base, ps) && 1 <= n <= |ps|
    ensures !grew ==> Made(before, ps, n).created == Made(before, ps, n - 1).created
    ensures var p := ps[n - 1];
      grew ==>
        Made(before, ps, n).created == Made(before, ps, n - 1).created + [p] &&
        p !in before && p.dirs != [] && |p.dirs| == |Up(base, ps, n - 1).dirs| + 1
  {
    var r := Made(before, ps, n - 1);
    var p := ps[n - 1];
    grew := !r.failed && !ExistsAfter(before, r.created, p) && ExistsAfter(before, r.created, Parent(p));
    if grew {
      var q := Up(base, ps, n - 1);
      assert StepAt(base, ps, n - 1);
      if n >= 2 {
        MadePrefixesExist(before, ps, n - 1);
        assert ExistsAfter(before, r.created, q);
      }
    }
  }

  /** Every made directory did not exist at the start and is not a base. */
  lemma {:induction false} MadeNew(before: set<Path>, base: Base, ps: seq<Path>, n: nat)
    requires Climbs(base, ps) && n <= |ps|
    ensures forall p :: p in Made(before, ps, n).created ==> p !in before && p.dirs != []
  {
    if n > 0 {
      MadeNew(before, base, ps, n - 1);
      var _ := MadeGrowth(before, base, ps, n);
    }
  }

  /** Every made directory is one of the first `n` visited paths. */
  lemma {:induction false} MadeArePrefixes(before: set<Path>, ps: seq<Path>, n: nat)
    requires n <= |ps|
    ensures forall p :: p in Made(before, ps, n).created ==> p in ps[..n]
  {
    if n > 0 {
      MadeArePrefixes(before, ps, n - 1);
      MadeLast(before, ps, n);
      assert ps[..n] == ps[..n - 1] + [ps[n - 1]];
    }
  }

  /** Each directory of `m` is at most `depth` components deep. */
  predicate DepthAtMost(m: seq<Path>, depth: nat)
  {
    forall k :: 0 <= k < |m| ==> |m[k].dirs| <= depth
  }

  /** The directories of `m` get strictly deeper. */
  predicate Deepening(m: seq<Path>)
  {
    forall a, b :: 0 <= a < b < |m| ==> |m[a].dirs| < |m[b].dirs|
  }

  /** The made directories are no deeper than the last visited path. */
  lemma {:induction false} MadeBounded(before: set<Path>, base: Base, ps: seq<Path>, n: nat)
    requires Climbs(base, ps) && n <= |ps|
    ensures DepthAtMost(Made(before, ps, n).created, |Up(base, ps, n).dirs|)
  {
    if n > 0 {
      MadeBounded(before, base, ps, n - 1);
      var _ := MadeGrowth(before, base, ps, n);
      assert StepAt(base, ps, n - 1);
    }
  }

  /** Strict depth order survives appending a directory deeper than all. */
  lemma AppendDeeper(m: seq<Path>, p: Path, depth: nat)
    requires Deepening(m) && DepthAtMost(m, depth) && |p.dirs| == depth + 1
    ensures Deepening(m + [p])
  {
    var m' := m + [p];
    forall a, b | 0 <= a < b < |m'| ensures |m'[a].dirs| < |m'[b].dirs| {
      assert m'[a] == m[a];
      if b < |m| {
        assert m'[b] == m[b];
      }
    }
  }

  /** Directories are made shallow to deep, so none is made twice. */
  lemma {:induction false} MadeDeepening(before: set<Path>, base: Base, ps: seq<Path>, n: nat)
    requires Climbs(base, ps) && n <= |ps|
    ensures Deepening(Made(before, ps, n).created)
  {
    if n > 0 {
      MadeDeepening(before, base, ps, n - 1);
      var grew := MadeGrowth(before, base, ps, n);
      if grew {
        MadeBounded(before, base, ps, n - 1);
        AppendDeeper(Made(before, ps, n - 1).created, ps[n - 1], |Up(base, ps, n - 1).dirs|);
      }
    }
  }

  /** The directories of the file system, as far as `create_dir` sees them. */
  class FileSystem {
    /** Existing directories. The working directory always exists; a drive
        root `X:/` exists only when it is held here. */
    var dirs: set<Path>
    /** The texts of existing paths that contain a separator but do not
        parse as a base and components (`./a`, `/abs`); only
        `os.path.exists(filepath)` looks at them. */
    var unparsed: set<string>
    /** Every directory `os.mkdir` created, in order. */
    ghost var made: seq<Path>

    constructor (dirs: set<Path>, unparsed: set<string>)
      ensures this.dirs == dirs && this.unparsed == unparsed && made == []
    {
      this.dirs := dirs;
      this.unparsed := unparsed;
      made := [];
    }

    /** `os.path.exists(filepath)` on the path as given. A name without
        separators is that entry of the working directory; the empty path
        never exists. */
    function PathExists(filepath: string): (b: bool)
      reads this
      ensures Avoids(filepath, Separators) ==>
        (b <==> filepath != [] && ExistsIn(dirs, Path(Cwd, [filepath])))
      ensures Locate(filepath).Err? && !Avoids(filepath, Separators) ==> (b <==> filepath in unparsed)
      ensures DriveLetter(filepath).Some? ==>
        (b <==> ExistsIn(dirs, Path(Drive(DriveLetter(filepath).value), Normalize(Split(filepath, Separators)[1..]))))
      ensures DriveLetter(filepath).None? && Root(filepath).Some? ==>
        (b <==> ExistsIn(dirs, Path(Cwd, Normalize(Split(filepath, Separators)))))
    {
      LocateDrive(filepath);
      LocateRelative(filepath);
      BareNameUnparsed(filepath);
      match Locate(filepath)
      case Ok((base, ds)) => ExistsIn(dirs, Path(base, Normalize(ds)))
      case Err(_) =>
        if Avoids(filepath, Separators) then filepath != [] && ExistsIn(dirs, Path(Cwd, [filepath]))
        else filepath in unparsed
    }

    /** `os.mkdir(p)`: FileExistsError when `p` exists, FileNotFoundError
        when its parent does not; otherwise exactly `p` is added. */
    method Mkdir(p: Path) returns (r: Result<()>)
      modifies this`dirs, this`made
      ensures ExistsIn(old(dirs), p) ==>
        r == Err(FileExistsError) && dirs == old(dirs) && made == old(made)
      ensures !ExistsIn(old(dirs), p) && !ExistsIn(old(dirs), Parent(p)) ==>
        r == Err(FileNotFoundError) && dirs == old(dirs) && made == old(made)
      ensures !ExistsIn(old(dirs), p) && ExistsIn(old(dirs), Parent(p)) ==>
        r == Ok(()) && dirs == old(dirs) + {p} && made == old(made) + [p]
    {
      if ExistsIn(dirs, p) {
        r := Err(FileExistsError);
      } else if !ExistsIn(dirs, Parent(p)) {
        r := Err(FileNotFoundError);
      } else {
        dirs := dirs + {p};
        made := made + [p];
        r := Ok(());
      }
    }

    /** `FileManager.create_dir(filepath)`. A path that exists is left
        alone. A path that does not parse raises AttributeError. Otherwise
        the loop runs over every prefix `directories[:i]`, for i from 1 to
        the number of components, as `Made` describes; FileNotFoundError
        from `os.mkdir` propagates. */
    method CreateDir(filepath: string) returns (r: Result<()>, ghost created: seq<Path>)
      modifies this`dirs, this`made
      ensures made == old(made) + created
      ensures dirs == old(dirs) + Elements(created)
      ensures old(PathExists(filepath)) ==> r == Ok(()) && created == []
      ensures !old(PathExists(filepath)) && Locate(filepath).Err? ==>
        r == Err(AttributeError) && created == []
      ensures !old(PathExists(filepath)) && Locate(filepath).Ok? ==>
        var base := Locate(filepath).value.0;
        var ds := Locate(filepath).value.1;
        created == Made(old(dirs), Prefixes(base, ds), |ds|).created &&
        r == if Made(old(dirs), Prefixes(base, ds), |ds|).failed then Err(FileNotFoundError) else Ok(())
    {
      created := [];
      if PathExists(filepath) {
        return Ok(()), created;
      }
      var located := Locate(filepath);
      if located.Err? {
        return Err(AttributeError), created;
      }
      r, created := CreatePrefixes(located.value.0, located.value.1);
    }

    /** The `while True` loop of `create_dir`: `index_range` runs from 1 to
        `len(directories)`; each prefix that does not exist is passed to
        `os.mkdir`, whose FileNotFoundError ends the loop. */
    method CreatePrefixes(base: Base, ds: seq<string>) returns (r: Result<()>, ghost created: seq<Path>)
      modifies this`dirs, this`made
      ensures made == old(made) + created
      ensures created == Made(old(dirs), Prefixes(base, ds), |ds|).created
      ensures dirs == old(dirs) + Elements(created)
      ensures r == if Made(old(dirs), Prefixes(base, ds), |ds|).failed then Err(FileNotFoundError) else Ok(())
    {
      created := [];
      ghost var before := dirs;
      ghost var ps := Prefixes(base, ds);
      var index := 0;
      while true
        invariant 0 <= index <= |ds|
        invariant made == old(made) + created
        invariant Made(before, ps, index) == Rounds(created, false)
        invariant dirs == before + Elements(created)
        decreases |ds| - index
      {
        ghost var done := index;
        index := index + 1;
        if index > |ds| {
          assert done == |ds|;
          return Ok(()), created;
        }
        var formed := Prefix(base, ds, index);
        assert formed == ps[index - 1];
        if ExistsIn(dirs, formed) {
          MadeSkip(before, dirs, created, ps, index);
          continue;
        }
        MadeAdd(before, dirs, created, ps, index);
        var status := Mkdir(formed);
        if status.Err? {
          MadeFailedStays(before, ps, index, |ds|);
          assert Made(before, ps, |ds|) == Rounds(created, true);
          return Err(FileNotFoundError), created;
        }
        created := created + [formed];
      }
    }
  }

  /** `json/` has the root word `json` and, after the trailing separator,
      one empty segment. */
  lemma JsonLocated()
    ensures Locate("json/") == Ok((Cwd, ["json", ""]))
  {
    JsonWord();
    JsonSplit();
    LocateRelative("json/");
  }

  lemma JsonWord()
    ensures WordRun("json/") == "json"
  {
    assert "json/"[1..] == "son/" && "son/"[1..] == "on/" && "on/"[1..] == "n/" && "n/"[1..] == "/";
    assert WordRun("/") == [];
    assert WordRun("n/") == "n";
    assert WordRun("on/") == "on";
    assert WordRun("son/") == "son";
  }

  lemma JsonSplit()
    ensures Split("json/", Separators) == ["json", ""]
  {
    assert "json/" == "json" + ['/'] + "";
    SplitAfterPiece("json", '/', "", Separators);
  }

  /** Round one of `create_dir("json/")` on an empty file system makes
      cwd/json; round two finds the same directory and skips it. */
  lemma JsonRounds()
    ensures Made({}, Prefixes(Cwd, ["json", ""]), 2) == Rounds([Path(Cwd, ["json"])], false)
  {
    JsonPrefixes();
    var p := Path(Cwd, ["json"]);
    assert Parent(p) == BaseDir(Cwd);
    assert Made({}, [p, p], 1) == Rounds([p], false);
  }

  lemma JsonPrefixes()
    ensures Prefixes(Cwd, ["json", ""]) == [Path(Cwd, ["json"]), Path(Cwd, ["json"])]
  {
    var ds := ["json", ""];
    JsonNormalize();
    assert ds[..1] == ["json"] && ds[..2] == ds;
    var ps := Prefixes(Cwd, ds);
    assert ps[0] == Prefix(Cwd, ds, 1) && ps[1] == Prefix(Cwd, ds, 2);
  }

  lemma JsonNormalize()
    ensures Normalize(["json"]) == ["json"] && Normalize(["json", ""]) == ["json"]
  {
    assert ["json"][..0] == [];
    assert ["json", ""][..1] == ["json"];
  }

  /** `json` has no separator, and after round one only cwd/json is new. */
  lemma JsonBare()
    ensures Avoids("json", Separators)
    ensures {} + Elements([Path(Cwd, ["json"])]) == {Path(Cwd, ["json"])}
  {
    ElementsSnoc([], Path(Cwd, ["json"]));
    assert [] + [Path(Cwd, ["json"])] == [Path(Cwd, ["json"])];
  }

  /** `create_dir("json/")` and then `create_dir("json")`: the second call
      finds cwd/json, made by the first, and returns at once. */
  method CreateTwiceExample() returns (first: Result<()>, second: Result<()>)
    ensures first == Ok(()) && second == Ok(())
  {
    var fs := new FileSystem({}, {});
    JsonLocated();
    JsonRounds();
    JsonNormalize();
    assert !fs.PathExists("json/");
    ghost var made: seq<Path>;
    first, made := fs.CreateDir("json/");
    JsonBare();
    second, made := fs.CreateDir("json");
  }
}
