/** FileManager (src/utils/file_manager.py): how a product name becomes a
    directory name, and the directory layout created for one run. The file
    system is a set of directory paths, each a sequence of path
    components. */
module Files {
  import opened Py
  import opened Exceptions

  // ---------------------------------------------------------------------
  // Sanitising a name

  /** The characters removed from names, in the order they are removed. */
  const InvalidChars: string := "<>:\"/\\|?*"

  const MaxNameLength: nat := 50

  /** `s` with every character of `cs` removed. */
  function Drop(s: string, cs: string): (r: string)
    ensures |r| <= |s|
    ensures forall i | 0 <= i < |r| :: r[i] !in cs && r[i] in s
    decreases |s|
  {
    if s == [] then []
    else (if s[0] in cs then [] else [s[0]]) + Drop(s[1..], cs)
  }

  /** Removing nothing that occurs leaves the string as it is. */
  lemma {:induction false} DropNone(s: string, cs: string)
    requires forall i | 0 <= i < |s| :: s[i] !in cs
    ensures Drop(s, cs) == s
    decreases |s|
  {
    if s != [] {
      DropNone(s[1..], cs);
    }
  }

  /** Removing `cs`, then `c`, is removing `cs + [c]`. */
  lemma {:induction false} DropThen(s: string, cs: string, c: char)
    ensures Drop(Drop(s, cs), [c]) == Drop(s, cs + [c])
    decreases |s|
  {
    if s != [] {
      DropThen(s[1..], cs, c);
      var head := if s[0] in cs then [] else [s[0]];
      DropAppend(head, Drop(s[1..], cs), [c]);
      assert Drop(head, [c]) == (if s[0] in cs + [c] then [] else [s[0]]);
    }
  }

  lemma {:induction false} DropAppend(a: string, b: string, cs: string)
    ensures Drop(a + b, cs) == Drop(a, cs) + Drop(b, cs)
    decreases |a|
  {
    if a == [] {
      assert a + b == b;
    } else {
      assert (a + b)[0] == a[0] && (a + b)[1..] == a[1..] + b;
      DropAppend(a[1..], b, cs);
    }
  }

  /** `s.replace(c, "")` for one character is removing that character. */
  lemma {:induction false} ReplaceCharByNothing(s: string, c: char)
    ensures ReplaceAll(s, [c], []) == Drop(s, [c])
    decreases |s|
  {
    if s != [] {
      ReplaceCharByNothing(s[1..], c);
      if s[0] == c {
        assert StartsWith(s, [c]);
      } else {
        assert !StartsWith(s, [c]);
      }
    }
  }

  /** `s.replace(" ", "_")`, character by character: the same length, with
      each space turned into an underscore and every other character
      kept. */
  lemma {:induction false} SpacesToUnderscores(s: string)
    ensures var r := ReplaceAll(s, " ", "_");
      && |r| == |s|
      && forall i | 0 <= i < |s| :: r[i] == (if s[i] == ' ' then '_' else s[i])
    decreases |s|
  {
    if s != [] {
      SpacesToUnderscores(s[1..]);
      var rest := ReplaceAll(s[1..], " ", "_");
      var r := ReplaceAll(s, " ", "_");
      if s[0] == ' ' {
        assert StartsWith(s, " ");
        assert r == "_" + rest;
      } else {
        assert !StartsWith(s, " ");
        assert r == [s[0]] + rest;
      }
    }
  }

  /** `_sanitize_filename`: spaces to underscores, the invalid characters
      removed, cut to 50 characters, lowercased. */
  function Sanitized(name: string): string {
    LowerStr(Prefix(Drop(ReplaceAll(name, " ", "_"), InvalidChars), MaxNameLength))
  }

  /** `_sanitize_filename` as written: `name` is rebound through one
      `replace` per invalid character. */
  method SanitizeFilename(name: string) returns (r: string)
    ensures r == Sanitized(name)
  {
    var current := ReplaceAll(name, " ", "_");
    ghost var spaced := current;
    DropNone(spaced, []);
    var i := 0;
    while i < |InvalidChars|
      invariant 0 <= i <= |InvalidChars|
      invariant current == Drop(spaced, InvalidChars[..i])
    {
      var c := InvalidChars[i];
      ReplaceCharByNothing(current, c);
      DropThen(spaced, InvalidChars[..i], c);
      assert InvalidChars[..i + 1] == InvalidChars[..i] + [c];
      current := ReplaceAll(current, [c], []);
      i := i + 1;
    }
    assert InvalidChars[..i] == InvalidChars;
    if |current| > MaxNameLength {
      current := current[..MaxNameLength];
    }
    r := LowerStr(current);
  }

  /** A sanitised name is at most 50 characters, has no spaces, none of
      `<>:"/\|?*`, no upper-case letters, and is the lowercasing of a
      prefix of the name with spaces replaced and the invalid characters
      removed. */
  lemma SanitizedShape(name: string)
    ensures var r := Sanitized(name);
      && |r| <= MaxNameLength
      && (forall i | 0 <= i < |r| :: r[i] != ' ' && r[i] !in InvalidChars)
      && IsLowerStr(r)
      && exists k | 0 <= k <= |Drop(ReplaceAll(name, " ", "_"), InvalidChars)| ::
           r == LowerStr(Drop(ReplaceAll(name, " ", "_"), InvalidChars)[..k])
  {
    var spaced := ReplaceAll(name, " ", "_");
    SpacesToUnderscores(name);
    var kept := Drop(spaced, InvalidChars);
    var cut := Prefix(kept, MaxNameLength);
    var r := LowerStr(cut);
    LowerStrIsLower(cut);
    forall i | 0 <= i < |r|
      ensures r[i] != ' ' && r[i] !in InvalidChars
    {
      assert cut[i] == kept[i];
      assert kept[i] in spaced;
      var j :| 0 <= j < |spaced| && spaced[j] == kept[i];
    }
    assert r == LowerStr(kept[..|cut|]);
  }

  /** Sanitising a sanitised name changes nothing. */
  lemma SanitizedIdempotent(name: string)
    ensures Sanitized(Sanitized(name)) == Sanitized(name)
  {
    var r := Sanitized(name);
    SanitizedShape(name);
    SpacesToUnderscores(r);
    var spaced := ReplaceAll(r, " ", "_");
    assert spaced == r;
    DropNone(r, InvalidChars);
    assert Prefix(r, MaxNameLength) == r;
    LowerStrIsLower(r);
  }

  // ---------------------------------------------------------------------
  // Timestamps

  /** The clock reading `datetime.now()` supplies. */
  datatype DateTime = DateTime(year: nat, month: nat, day: nat, hour: nat, minute: nat, second: nat)

  predicate ValidDateTime(t: DateTime) {
    && 1000 <= t.year <= 9999 && 1 <= t.month <= 12 && 1 <= t.day <= 31
    && t.hour < 24 && t.minute < 60 && t.second < 60
  }

  function Pow10(n: nat): (p: nat)
    ensures p >= 1
  {
    if n == 0 then 1 else 10 * Pow10(n - 1)
  }

  /** `n` in exactly `width` decimal digits, leading zeros included: the
      digits read back as `n`. */
  function Padded(n: nat, width: nat): (s: string)
    requires n < Pow10(width)
    ensures |s| == width
    ensures forall k | 0 <= k < |s| :: '0' <= s[k] <= '9'
    ensures DecimalValue(s) == n
  {
    if width == 0 then []
    else
      var s := Padded(n / 10, width - 1) + [Digit(n % 10)];
      assert s[..|s| - 1] == Padded(n / 10, width - 1);
      s
  }

  /** Three digit groups written one after the other. */
  function Groups(a: string, b: string, c: string): (s: string)
    requires forall k | 0 <= k < |a| :: '0' <= a[k] <= '9'
    requires forall k | 0 <= k < |b| :: '0' <= b[k] <= '9'
    requires forall k | 0 <= k < |c| :: '0' <= c[k] <= '9'
    ensures |s| == |a| + |b| + |c|
    ensures s[..|a|] == a && s[|a|..|a| + |b|] == b && s[|a| + |b|..] == c
    ensures forall k | 0 <= k < |s| :: '0' <= s[k] <= '9'
  {
    var s := a + b + c;
    assert forall k | 0 <= k < |s| :: s[k] == if k < |a| then a[k] else if k < |a| + |b| then b[k - |a|] else c[k - |a| - |b|];
    s
  }

  /** `strftime("%Y%m%d_%H%M%S")`: the year in four digits, then month,
      day, hour, minute and second in two each, with `_` between the date
      and the time; each group reads back as its field. */
  function Timestamp(t: DateTime): (s: string)
    requires ValidDateTime(t)
    ensures |s| == 15 && s[8] == '_'
    ensures forall k | 0 <= k < 15 && k != 8 :: '0' <= s[k] <= '9'
    ensures DecimalValue(s[..4]) == t.year && DecimalValue(s[4..6]) == t.month && DecimalValue(s[6..8]) == t.day
    ensures DecimalValue(s[9..11]) == t.hour && DecimalValue(s[11..13]) == t.minute && DecimalValue(s[13..15]) == t.second
  {
    assert Pow10(2) == 100;
    assert Pow10(4) == 10000;
    var date := Groups(Padded(t.year, 4), Padded(t.month, 2), Padded(t.day, 2));
    var time := Groups(Padded(t.hour, 2), Padded(t.minute, 2), Padded(t.second, 2));
    var s := date + "_" + time;
    assert s[..8] == date && s[9..] == time && s[8] == '_';
    assert s[..4] == date[..4] && s[4..6] == date[4..6] && s[6..8] == date[6..8];
    assert s[9..11] == time[..2] && s[11..13] == time[2..4] && s[13..15] == time[4..];
    assert forall k | 9 <= k < 15 :: s[k] == time[k - 9];
    s
  }

  /** Different clock readings give different timestamps. */
  lemma TimestampInjective(t: DateTime, u: DateTime)
    requires ValidDateTime(t) && ValidDateTime(u)
    ensures Timestamp(t) == Timestamp(u) <==> t == u
  {
    var s, v := Timestamp(t), Timestamp(u);
    if s == v {
      assert s[..4] == v[..4] && s[4..6] == v[4..6] && s[6..8] == v[6..8];
      assert s[9..11] == v[9..11] && s[11..13] == v[11..13] && s[13..15] == v[13..15];
    }
  }

  // ---------------------------------------------------------------------
  // Output directories

  type Path = seq<string>

  /** The directory name for one run: the sanitised product name, an
      underscore, the timestamp. */
  function OutputName(productName: string, t: DateTime): (r: string)
    requires ValidDateTime(t)
    ensures |r| == |Sanitized(productName)| + 16
    ensures StartsWith(r, Sanitized(productName)) && r[|Sanitized(productName)|] == '_'
    ensures r[|Sanitized(productName)| + 1..] == Timestamp(t)
  {
    Sanitized(productName) + "_" + Timestamp(t)
  }

  // ---------------------------------------------------------------------
  // Creating directories

  /** The length of the shortest non-empty proper prefix of `p` that is not
      an existing directory, or |p| when every one is (the empty path, the
      working directory, always exists). */
  function FirstGap(dirs: set<Path>, p: Path): (n: nat)
    ensures n <= |p|
    ensures forall k | 1 <= k < n :: p[..k] in dirs
    ensures n < |p| ==> 1 <= n && p[..n] !in dirs
  {
    if |p| <= 1 then |p|
    else
      var init := p[..|p| - 1];
      var g := FirstGap(dirs, init);
      assert forall k | 1 <= k < |init| :: init[..k] == p[..k];
      if g < |init| then g
      else if init in dirs then |p|
      else |init|
  }

  /** The OSError `os.mkdir` raises for `p`. */
  function OsError(name: string, errno: string, text: string, p: Path): Error {
    Error(Builtin(name), "[Errno " + errno + "] " + text + ": '" + Join(p, "/") + "'")
  }

  /** Directories as a real file system holds them: every ancestor of a
      directory is a directory. */
  ghost predicate PrefixClosed(dirs: set<Path>) {
    forall d, k | d in dirs && 1 <= k < |d| :: d[..k] in dirs
  }

  /** `Path(p).mkdir(parents=parents, exist_ok=True)` on a file system
      whose directories are `dirs` and whose files are `files`: the
      directories afterwards, or the OSError raised. An existing directory
      is left alone; an existing file of that name is FileExistsError; a
      file among the ancestors is NotADirectoryError; a missing ancestor is
      FileNotFoundError unless `parents` asks for the ancestors to be
      made. */
  function Mkdir(dirs: set<Path>, files: set<Path>, p: Path, parents: bool): (r: Result<set<Path>, Error>)
    ensures p == [] || p in dirs ==> r == Success(dirs)
    ensures p != [] && p !in dirs && p in files ==> r.Failure? && r.error.kind == Builtin("FileExistsError")
    ensures r.Failure? ==> p != [] && p !in dirs && (p in files || FirstGap(dirs, p) < |p|)
    ensures !parents && p != [] && p !in dirs && FirstGap(dirs, p) < |p| ==> r.Failure?
    ensures r.Success? && !parents ==> r.value <= dirs + {p}
  {
    if p == [] || p in dirs then Success(dirs)
    else if p in files then Failure(OsError("FileExistsError", "17", "File exists", p))
    else
      var g := FirstGap(dirs, p);
      if g == |p| then Success(dirs + {p})
      else if p[..g] in files then Failure(OsError("NotADirectoryError", "20", "Not a directory", p))
      else if !parents then Failure(OsError("FileNotFoundError", "2", "No such file or directory", p))
      else Success(dirs + Prefixes(p, g))
  }

  /** The prefixes of `p` from length `g` on. */
  function Prefixes(p: Path, g: nat): (made: set<Path>)
    ensures forall k | g <= k <= |p| :: p[..k] in made
    ensures forall d | d in made :: g <= |d| <= |p| && d == p[..|d|]
  {
    set k | g <= k <= |p| :: p[..k]
  }

  /** What a successful `mkdir` leaves: everything that was there, the
      path and all its ancestors, and nothing new but those. With
      `parents`, it succeeds whenever no file stands in the way. */
  lemma MkdirSpec(dirs: set<Path>, files: set<Path>, p: Path, parents: bool)
    ensures parents && p !in files && (forall k | 1 <= k < |p| :: p[..k] !in files) ==>
      Mkdir(dirs, files, p, parents).Success?
    ensures var r := Mkdir(dirs, files, p, parents);
      r.Success? ==>
        && dirs <= r.value && (p == [] || p in r.value)
        && (p !in dirs ==> forall k | 1 <= k <= |p| :: p[..k] in r.value)
        && (forall d | d in r.value && d !in dirs :: 1 <= |d| <= |p| && d == p[..|d|])
  {
    assert p[..|p|] == p;
    var g := FirstGap(dirs, p);
    if p != [] && p !in dirs && p !in files && g < |p| {
      assert forall k | 1 <= k <= |p| :: p[..k] in dirs || g <= k;
    }
  }

  /** `mkdir` keeps a file system's directories prefix-closed. */
  lemma MkdirClosed(dirs: set<Path>, files: set<Path>, p: Path, parents: bool)
    requires PrefixClosed(dirs)
    ensures var r := Mkdir(dirs, files, p, parents);
      r.Success? ==> PrefixClosed(r.value)
  {
    var r := Mkdir(dirs, files, p, parents);
    if r.Success? && p != [] && p !in dirs {
      var g := FirstGap(dirs, p);
      forall d, k | d in r.value && 1 <= k < |d|
        ensures d[..k] in r.value
      {
        if d !in dirs {
          MkdirSpec(dirs, files, p, parents);
          assert d == p[..|d|];
          assert d[..k] == p[..k];
          assert p[..k] in dirs || g <= k;
        }
      }
    }
  }

  /** The three sub-directories of a run directory. */
  const Children: seq<string> := ["images", "posts", "analytics"]

  /** `create_output_directory`'s four `mkdir` calls in order: the run
      directory with its parents, then `images`, `posts` and `analytics`
      without; the first failure stops the rest, and what was made before
      it stays. The outcome and the directories afterwards. */
  function Layout(dirs: set<Path>, files: set<Path>, dir: Path): (Result<Path, Error>, set<Path>) {
    var d0 := Mkdir(dirs, files, dir, true);
    if d0.Failure? then (Failure(d0.error), dirs)
    else SubDirectories(d0.value, files, dir)
  }

  /** The three `mkdir` calls for the children of the run directory. */
  function SubDirectories(dirs: set<Path>, files: set<Path>, dir: Path): (Result<Path, Error>, set<Path>) {
    var d1 := Mkdir(dirs, files, dir + [Children[0]], false);
    if d1.Failure? then (Failure(d1.error), dirs)
    else
      var d2 := Mkdir(d1.value, files, dir + [Children[1]], false);
      if d2.Failure? then (Failure(d2.error), d1.value)
      else
        var d3 := Mkdir(d2.value, files, dir + [Children[2]], false);
        if d3.Failure? then (Failure(d3.error), d2.value)
        else (Success(dir), d3.value)
  }

  /** Making a child of an existing directory without `parents` fails only
      on a file of that name, and adds just the child. */
  lemma MkdirChild(dirs: set<Path>, files: set<Path>, dir: Path, c: string)
    requires PrefixClosed(dirs) && dir in dirs
    ensures var r := Mkdir(dirs, files, dir + [c], false);
      && (r.Success? <==> dir + [c] in dirs || dir + [c] !in files)
      && (r.Success? ==> r.value == dirs + {dir + [c]})
  {
    var q := dir + [c];
    assert q[..|dir|] == dir;
    assert forall k | 1 <= k < |dir| :: q[..k] == dir[..k];
    assert FirstGap(dirs, q) == |q|;
  }

  /** The children of an existing run directory: made unless a file of
      that name is in the way, and nothing else is made. */
  lemma SubDirectoriesSpec(dirs: set<Path>, files: set<Path>, dir: Path)
    requires PrefixClosed(dirs) && dir in dirs
    ensures var (outcome, after) := SubDirectories(dirs, files, dir);
      && dirs <= after
      && (outcome.Success? <==> forall c | c in Children :: dir + [c] in dirs || dir + [c] !in files)
      && (outcome.Success? ==> outcome.value == dir && after == dirs + {dir + [Children[0]], dir + [Children[1]], dir + [Children[2]]})
  {
    var q1, q2, q3 := dir + [Children[0]], dir + [Children[1]], dir + [Children[2]];
    assert q1 != q2 && q1 != q3 && q2 != q3 by {
      assert q1[|dir|] == "images" && q2[|dir|] == "posts" && q3[|dir|] == "analytics";
    }
    MkdirChild(dirs, files, dir, Children[0]);
    MkdirClosed(dirs, files, q1, false);
    var d1 := Mkdir(dirs, files, q1, false);
    if d1.Success? {
      MkdirChild(d1.value, files, dir, Children[1]);
      MkdirClosed(d1.value, files, q2, false);
      var d2 := Mkdir(d1.value, files, q2, false);
      if d2.Success? {
        MkdirChild(d2.value, files, dir, Children[2]);
      }
    }
  }

  /** The layout succeeds exactly when the run directory can be made and
      none of its children is blocked by a file of that name; then the run
      directory and its three children exist, nothing that existed is lost,
      and the only new directories are the run directory, its ancestors and
      its children. A failure loses nothing either. */
  lemma LayoutSpec(dirs: set<Path>, files: set<Path>, dir: Path)
    requires PrefixClosed(dirs) && dir != []
    ensures var (outcome, after) := Layout(dirs, files, dir);
      && dirs <= after
      && (outcome.Success? <==>
            Mkdir(dirs, files, dir, true).Success? && forall c | c in Children :: dir + [c] in dirs || dir + [c] !in files)
      && (outcome.Success? ==>
            && outcome.value == dir && dir in after
            && (forall c | c in Children :: dir + [c] in after)
            && forall d | d in after && d !in dirs ::
                 (1 <= |d| <= |dir| && d == dir[..|d|]) || exists c | c in Children :: d == dir + [c])
  {
    var d0 := Mkdir(dirs, files, dir, true);
    MkdirSpec(dirs, files, dir, true);
    MkdirClosed(dirs, files, dir, true);
    if d0.Success? {
      var D := d0.value;
      assert forall c | c in Children :: |dir + [c]| > |dir|;
      SubDirectoriesSpec(D, files, dir);
    }
  }

  class FileManager {
    const baseOutputDir: Path
    /** The files that exist; this model makes none. */
    const files: set<Path>
    /** The directories that exist. */
    var directories: set<Path>

    /** The manager over a file system in which the base directory has
        been made. */
    constructor(baseOutputDir: Path, directories: set<Path>, files: set<Path>)
      ensures this.baseOutputDir == baseOutputDir && this.files == files
      ensures this.directories == directories
    {
      this.baseOutputDir := baseOutputDir;
      this.files := files;
      this.directories := directories;
    }

    /** `create_output_directory(product_name)`: the run directory under
        the base directory with its parents, then its `images`, `posts` and
        `analytics` children; an OSError from any `mkdir` propagates, and
        the directories made before it stay. */
    method CreateOutputDirectory(productName: string, now: DateTime) returns (r: Result<Path, Error>)
      requires ValidDateTime(now)
      modifies this
      ensures var dir := baseOutputDir + [OutputName(productName, now)];
        r == Layout(old(directories), files, dir).0 && directories == Layout(old(directories), files, dir).1
    {
      var cleanName := SanitizeFilename(productName);
      var timestamp := Timestamp(now);
      var dir := baseOutputDir + [cleanName + "_" + timestamp];
      var made := Mkdir(directories, files, dir, true);
      if made.Failure? {
        return Failure(made.error);
      }
      directories := made.value;
      var images := Mkdir(directories, files, dir + [Children[0]], false);
      if images.Failure? {
        return Failure(images.error);
      }
      directories := images.value;
      var posts := Mkdir(directories, files, dir + [Children[1]], false);
      if posts.Failure? {
        return Failure(posts.error);
      }
      directories := posts.value;
      var analytics := Mkdir(directories, files, dir + [Children[2]], false);
      if analytics.Failure? {
        return Failure(analytics.error);
      }
      directories := analytics.value;
      r := Success(dir);
    }
  }

  /** `FileManager(base_output_dir)`: `mkdir(exist_ok=True)` without
      `parents`, so a missing parent directory raises FileNotFoundError and
      a file of that name FileExistsError; otherwise the manager over the
      file system with the base directory made. */
  method Open(baseOutputDir: Path, dirs: set<Path>, files: set<Path>) returns (r: Result<FileManager, Error>)
    ensures Mkdir(dirs, files, baseOutputDir, false).Failure? ==> r == Failure(Mkdir(dirs, files, baseOutputDir, false).error)
    ensures Mkdir(dirs, files, baseOutputDir, false).Success? ==>
      && r.Success? && fresh(r.value)
      && r.value.baseOutputDir == baseOutputDir && r.value.files == files
      && r.value.directories == Mkdir(dirs, files, baseOutputDir, false).value
  {
    var made := Mkdir(dirs, files, baseOutputDir, false);
    if made.Failure? {
      return Failure(made.error);
    }
    var manager := new FileManager(baseOutputDir, made.value, files);
    r := Success(manager);
  }
}
