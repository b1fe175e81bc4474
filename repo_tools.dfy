/**
  `CodeRepositoryTools` of src/tools.py and of tools.py: the five tools the
  agent runs on a repository. The file system is a value: a map from each
  file's path (its components, relative to the repository root) to its
  text; the directories are the proper prefixes of file paths. `os.walk`
  visits the files in an order the model leaves open: the walking methods
  return the order they used as a ghost value, and what they promise holds
  for every order.
*/
module RepoTools {
  import opened Wrappers
  import opened Text
  import opened JsonModel

  type Path = seq<string>

  type Repo = map<Path, string>

  /** Every file path is valid, and no file lies below another file. */
  predicate WellFormedRepo(repo: Repo) {
    && (forall p | p in repo :: ValidPath(p))
    && (forall p, q | p in repo && q in repo && |p| < |q| :: q[..|p|] != p)
  }

  /** A file path: at least a name, and no component holds the separator. */
  predicate ValidPath(p: Path) {
    |p| >= 1 && forall k | 0 <= k < |p| :: '/' !in p[k]
  }

  /** `os.path.relpath(...)` of a file: its components joined by '/'. */
  function RelPath(p: Path): string {
    Join(p, "/")
  }

  /** Distinct files have distinct relative paths. */
  lemma RelPathInjective(p: Path, q: Path)
    requires ValidPath(p) && ValidPath(q)
    requires RelPath(p) == RelPath(q)
    ensures p == q
  {
    SplitJoin(p, '/');
    SplitJoin(q, '/');
  }

  /** `order` lists the paths of `s`, each exactly once. */
  predicate Enumerates(order: seq<Path>, s: set<Path>) {
    && (forall i | 0 <= i < |order| :: order[i] in s)
    && (forall p | p in s :: p in order)
    && (forall i, j | 0 <= i < j < |order| :: order[i] != order[j])
  }

  /** A directory: the root, or a proper prefix of some file's path. */
  predicate IsDir(repo: Repo, d: Path) {
    d == [] || exists q | q in repo :: |d| < |q| && q[..|d|] == d
  }

  function StringArray(xs: seq<string>): (r: Json)
    ensures r.JArray? && |r.items| == |xs|
    ensures forall i | 0 <= i < |xs| :: r.items[i] == JString(xs[i])
  {
    JArray(seq(|xs|, i requires 0 <= i < |xs| => JString(xs[i])))
  }

  /** A result mapping whose `count` is the length of its list under `key`. */
  predicate CountsItems(r: Json, key: string) {
    && r.JObject? && key in r.fields && "count" in r.fields && "success" in r.fields
    && r.fields[key].JArray? && r.fields["count"] == JInt(|r.fields[key].items|)
  }

  // ---------------------------------------------------------------- list_files

  /** The directories `list_files` prunes from the walk. */
  const ListPrunedNames: set<string> := {"node_modules", "__pycache__", "venv"}

  predicate ListPruned(name: string) {
    StartsWith(name, ".") || name in ListPrunedNames
  }

  /** The walk from `dir` reaches `p` and reports it: `p` lies below `dir`,
      none of the directories between them is pruned, and the file's name
      does not start with '.'. */
  predicate Listed(dir: Path, p: Path) {
    && |dir| < |p| && p[..|dir|] == dir
    && (forall k | |dir| <= k < |p| - 1 :: !ListPruned(p[k]))
    && !StartsWith(p[|p| - 1], ".")
  }

  /** The files the walk reports, for a visiting order. */
  function ListedFiles(order: seq<Path>, dir: Path): seq<string> {
    if |order| == 0 then [] else
      var last := order[|order| - 1];
      ListedFiles(order[..|order| - 1], dir) + (if Listed(dir, last) then [RelPath(last)] else [])
  }

  function ListingResult(files: seq<string>): (r: Json)
    ensures CountsItems(r, "files")
    ensures r.fields["success"] == JBool(true) && r.fields["files"] == StringArray(files)
  {
    JObject(map["success" := JBool(true), "files" := StringArray(files), "count" := JInt(|files|)])
  }

  /** `list_files(directory)`: walk below the directory, pruning directories
      as the walk goes, and collect the names of the visible files. */
  method ListFiles(repo: Repo, directory: Path) returns (result: Json, ghost order: seq<Path>)
    ensures Enumerates(order, repo.Keys)
    ensures result == ListingResult(ListedFiles(order, directory))
  {
    var files: seq<string> := [];
    var remaining := repo.Keys;
    order := [];
    while remaining != {}
      invariant remaining <= repo.Keys
      invariant Enumerates(order, repo.Keys - remaining)
      invariant files == ListedFiles(order, directory)
      decreases |remaining|
    {
      var p :| p in remaining;
      remaining := remaining - {p};
      assert (order + [p])[..|order|] == order;
      order := order + [p];
      if Listed(directory, p) {
        files := files + [RelPath(p)];
      }
    }
    result := ListingResult(files);
  }

  lemma {:induction false} ListedFilesFrom(order: seq<Path>, dir: Path)
    ensures |ListedFiles(order, dir)| <= |order|
    ensures forall i | 0 <= i < |order| && Listed(dir, order[i]) :: RelPath(order[i]) in ListedFiles(order, dir)
    ensures forall j | 0 <= j < |ListedFiles(order, dir)| ::
      exists i | 0 <= i < |order| :: ListedAs(dir, order[i], ListedFiles(order, dir)[j])
    decreases |order|
  {
    if |order| > 0 {
      var init := order[..|order| - 1];
      ListedFilesFrom(init, dir);
      var r := ListedFiles(order, dir);
      var r0 := ListedFiles(init, dir);
      assert r == r0 + (if Listed(dir, order[|order| - 1]) then [RelPath(order[|order| - 1])] else []);
      forall j | 0 <= j < |r|
        ensures exists i | 0 <= i < |order| :: ListedAs(dir, order[i], r[j])
      {
        if j < |r0| {
          assert r[j] == r0[j];
          var i :| 0 <= i < |init| && ListedAs(dir, init[i], r0[j]);
          assert order[i] == init[i];
        } else {
          assert ListedAs(dir, order[|order| - 1], r[j]);
        }
      }
    }
  }

  /** `p` is listed, as `f`. */
  predicate ListedAs(dir: Path, p: Path, f: string) {
    Listed(dir, p) && f == RelPath(p)
  }

  /** Whatever the order of the walk, a file of the repository is in the
      listing exactly when the walk reaches it and its name is not hidden;
      nothing else is listed, and no file is listed twice. */
  lemma ListedExactly(repo: Repo, order: seq<Path>, dir: Path)
    requires (forall p | p in repo :: ValidPath(p)) && Enumerates(order, repo.Keys)
    ensures forall p | p in repo :: RelPath(p) in ListedFiles(order, dir) <==> Listed(dir, p)
    ensures forall f | f in ListedFiles(order, dir) :: exists p | p in repo :: Listed(dir, p) && f == RelPath(p)
    ensures |ListedFiles(order, dir)| <= |repo|
    ensures Distinct(ListedFiles(order, dir))
  {
    ListedFilesDistinct(order, dir);
    ListedFilesFrom(order, dir);
    forall p | p in repo && RelPath(p) in ListedFiles(order, dir)
      ensures Listed(dir, p)
    {
      var j :| 0 <= j < |ListedFiles(order, dir)| && ListedFiles(order, dir)[j] == RelPath(p);
      var i :| 0 <= i < |order| && ListedAs(dir, order[i], ListedFiles(order, dir)[j]);
      RelPathInjective(p, order[i]);
    }
    forall p | p in repo && Listed(dir, p)
      ensures RelPath(p) in ListedFiles(order, dir)
    {
      var i :| 0 <= i < |order| && order[i] == p;
    }
    forall f | f in ListedFiles(order, dir)
      ensures exists p | p in repo :: Listed(dir, p) && f == RelPath(p)
    {
      var j :| 0 <= j < |ListedFiles(order, dir)| && ListedFiles(order, dir)[j] == f;
      var i :| 0 <= i < |order| && ListedAs(dir, order[i], ListedFiles(order, dir)[j]);
      assert order[i] in repo;
    }
    EnumerationLength(order, repo.Keys);
  }

  predicate Distinct<T(==)>(xs: seq<T>) {
    forall a, b | 0 <= a < b < |xs| :: xs[a] != xs[b]
  }

  lemma {:induction false} ListedFilesDistinct(order: seq<Path>, dir: Path)
    requires Distinct(order)
    requires forall i | 0 <= i < |order| :: ValidPath(order[i])
    ensures Distinct(ListedFiles(order, dir))
    decreases |order|
  {
    if |order| > 0 {
      var init := order[..|order| - 1];
      var last := order[|order| - 1];
      ListedFilesDistinct(init, dir);
      if Listed(dir, last) {
        NewFileListedOnce(init, last, dir);
        DistinctSnoc(ListedFiles(init, dir), RelPath(last));
      }
    }
  }

  /** A file not visited before does not share its name with a file
      already listed. */
  lemma NewFileListedOnce(init: seq<Path>, last: Path, dir: Path)
    requires ValidPath(last) && last !in init
    requires forall i | 0 <= i < |init| :: ValidPath(init[i])
    ensures forall a | 0 <= a < |ListedFiles(init, dir)| :: ListedFiles(init, dir)[a] != RelPath(last)
  {
    ListedFilesFrom(init, dir);
    var r0 := ListedFiles(init, dir);
    forall a | 0 <= a < |r0|
      ensures r0[a] != RelPath(last)
    {
      var i :| 0 <= i < |init| && ListedAs(dir, init[i], r0[a]);
      if r0[a] == RelPath(last) {
        RelPathInjective(init[i], last);
      }
    }
  }

  lemma DistinctSnoc<T>(xs: seq<T>, x: T)
    requires Distinct(xs) && forall a | 0 <= a < |xs| :: xs[a] != x
    ensures Distinct(xs + [x])
  {
  }

  lemma {:induction false} EnumerationLength(order: seq<Path>, s: set<Path>)
    requires Enumerates(order, s)
    ensures |order| == |s|
    decreases |order|
  {
    if |order| > 0 {
      var last := order[|order| - 1];
      var init := order[..|order| - 1];
      assert last !in init;
      forall p | p in s - {last} ensures p in init {
        var i :| 0 <= i < |order| && order[i] == p;
        assert i != |order| - 1;
        assert init[i] == p;
      }
      EnumerationLength(init, s - {last});
    } else {
      assert forall p | p in s :: p in order;
      assert s == {};
    }
  }

  // ------------------------------------------------------ search_in_files

  /** The directories the fallback search prunes: only these four names, so
      other hidden directories are searched. */
  const SearchPrunedNames: set<string> := {".git", "__pycache__", "node_modules", "venv"}

  predicate SearchPruned(name: string) {
    name in SearchPrunedNames
  }

  /** The fallback search scans `p`: the walk reaches it, and there is no
      extension filter or the file's name ends with '.' and the extension. */
  predicate Searched(ext: Option<string>, p: Path) {
    && |p| >= 1
    && (forall k | 0 <= k < |p| - 1 :: !SearchPruned(p[k]))
    && (ext.None? || ext.value == "" || EndsWith(p[|p| - 1], "." + ext.value))
  }

  /** The lines `for line in f` yields, each with its '\n' except possibly
      the last; an empty file has none. */
  function FileLines(content: string): (r: seq<string>)
    ensures forall i | 0 <= i < |r| :: r[i] != ""
  {
    var parts := Split(content, '\n');
    Terminated(parts[..|parts| - 1]) + (if parts[|parts| - 1] == "" then [] else [parts[|parts| - 1]])
  }

  /** Each piece with a '\n' put back after it. */
  function Terminated(parts: seq<string>): seq<string> {
    seq(|parts|, i requires 0 <= i < |parts| => parts[i] + "\n")
  }

  function Concat(xs: seq<string>): string {
    if |xs| == 0 then "" else xs[0] + Concat(xs[1..])
  }

  lemma {:induction false} ConcatAppend(a: seq<string>, b: seq<string>)
    ensures Concat(a + b) == Concat(a) + Concat(b)
    decreases |a|
  {
    if |a| == 0 {
      assert a + b == b;
    } else {
      assert (a + b)[1..] == a[1..] + b;
      ConcatAppend(a[1..], b);
    }
  }

  lemma {:induction false} TerminatedJoin(parts: seq<string>)
    requires |parts| >= 1
    ensures Concat(Terminated(parts[..|parts| - 1])) + parts[|parts| - 1] == Join(parts, "\n")
    decreases |parts|
  {
    if |parts| > 1 {
      var tail := parts[1..];
      TerminatedJoin(tail);
      var t := Terminated(parts[..|parts| - 1]);
      assert t[0] == parts[0] + "\n";
      assert t[1..] == Terminated(tail[..|tail| - 1]);
      assert tail[|tail| - 1] == parts[|parts| - 1];
    }
  }

  /** The lines of a text put back together give the text; every line but
      the last ends with '\n', and no line has a '\n' anywhere else. */
  lemma FileLinesRejoin(content: string)
    ensures Concat(FileLines(content)) == content
    ensures var r := FileLines(content);
      forall i | 0 <= i < |r| - 1 :: r[i][|r[i]| - 1] == '\n'
    ensures var r := FileLines(content);
      forall i, k | 0 <= i < |r| && 0 <= k < |r[i]| - 1 :: r[i][k] != '\n'
  {
    var parts := Split(content, '\n');
    var last := parts[|parts| - 1];
    var t := Terminated(parts[..|parts| - 1]);
    TerminatedJoin(parts);
    assert Join(parts, "\n") == content;
    assert FileLines(content) == t + (if last == "" then [] else [last]);
    if last == "" {
      assert FileLines(content) == t;
      assert Concat(t) + last == Concat(t);
    } else {
      ConcatAppend(t, [last]);
      assert Concat([last]) == last + Concat([]);
    }
    var r := FileLines(content);
    forall i, k | 0 <= i < |r| && 0 <= k < |r[i]| - 1
      ensures r[i][k] != '\n'
    {
      if i < |t| {
        assert r[i] == parts[i] + "\n";
        assert r[i][k] == parts[i][k];
      } else {
        assert r[i] == last;
      }
    }
  }

  /** `pattern_lower in line.lower()`. */
  predicate LineMatches(pattern: string, line: string) {
    Contains(Lower(line), Lower(pattern))
  }

  /** The search ignores case on both sides: folding the pattern or the
      line first changes nothing. */
  lemma MatchIgnoresCase(pattern: string, line: string)
    ensures LineMatches(Lower(pattern), line) == LineMatches(pattern, line)
    ensures LineMatches(pattern, Lower(line)) == LineMatches(pattern, line)
  {
    LowerFolds(pattern);
    LowerFolds(line);
  }

  /** `f"{rel_path}:{line_num}:{line.strip()}"`. */
  function MatchLine(p: Path, n: nat, line: string): string {
    RelPath(p) + ":" + NatToString(n) + ":" + Strip(line)
  }

  /** For each of the first `n` lines that `keep` accepts, `render` of its
      1-based number and the line, in order. */
  function Hits(lines: seq<string>, keep: string -> bool, render: (nat, string) -> string, n: nat): seq<string>
    requires n <= |lines|
  {
    if n == 0 then [] else
      Hits(lines, keep, render, n - 1) + (if keep(lines[n - 1]) then [render(n, lines[n - 1])] else [])
  }

  function Matcher(pattern: string): string -> bool {
    line => LineMatches(pattern, line)
  }

  function Renderer(p: Path): (nat, string) -> string {
    (n: nat, line: string) => MatchLine(p, n, line)
  }

  /** The matches of the file at `p`, whose lines are `lines`. */
  function FileMatches(p: Path, lines: seq<string>, pattern: string): seq<string> {
    Hits(lines, Matcher(pattern), Renderer(p), |lines|)
  }

  /** The matches of the fallback search, for a visiting order. */
  function SearchMatches(repo: Repo, order: seq<Path>, pattern: string, ext: Option<string>): seq<string>
    requires forall i | 0 <= i < |order| :: order[i] in repo
  {
    if |order| == 0 then []
    else
      var p := order[|order| - 1];
      SearchMatches(repo, order[..|order| - 1], pattern, ext)
        + (if Searched(ext, p) then FileMatches(p, FileLines(Universal(repo[p])), pattern) else [])
  }

  /** The inner loop over one file's lines, numbered from 1 as `enumerate(f, 1)` does. */
  method ScanFile(p: Path, lines: seq<string>, pattern: string) returns (matches: seq<string>)
    ensures matches == FileMatches(p, lines, pattern)
  {
    var matching, format := Matcher(pattern), Renderer(p);
    matches := [];
    var n := 0;
    while n < |lines|
      invariant 0 <= n <= |lines|
      invariant matches == Hits(lines, matching, format, n)
    {
      var line := lines[n];
      if matching(line) {
        matches := matches + [format(n + 1, line)];
      }
      n := n + 1;
    }
  }

  /** The Python fallback of `search_in_files` in src/tools.py. */
  method SearchFallback(repo: Repo, pattern: string, fileExtension: Option<string>)
    returns (matches: seq<string>, ghost order: seq<Path>)
    ensures Enumerates(order, repo.Keys)
    ensures matches == SearchMatches(repo, order, pattern, fileExtension)
  {
    matches := [];
    var remaining := repo.Keys;
    order := [];
    while remaining != {}
      invariant remaining <= repo.Keys
      invariant Enumerates(order, repo.Keys - remaining)
      invariant matches == SearchMatches(repo, order, pattern, fileExtension)
      decreases |remaining|
    {
      var p :| p in remaining;
      remaining := remaining - {p};
      SearchMatchesSnoc(repo, order, p, pattern, fileExtension);
      order := order + [p];
      if Searched(fileExtension, p) {
        var found := ScanFile(p, FileLines(Universal(repo[p])), pattern);
        matches := matches + found;
      }
    }
  }

  lemma SearchMatchesSnoc(repo: Repo, order: seq<Path>, p: Path, pattern: string, ext: Option<string>)
    requires forall i | 0 <= i < |order| :: order[i] in repo
    requires p in repo
    ensures SearchMatches(repo, order + [p], pattern, ext) ==
      SearchMatches(repo, order, pattern, ext) + (if Searched(ext, p) then FileMatches(p, FileLines(Universal(repo[p])), pattern) else [])
  {
    assert (order + [p])[..|order|] == order;
  }

  /** A line of a scanned file yields a match exactly when it contains the
      pattern, ignoring case, and the match names the file, the 1-based line
      number and the stripped line. */
  lemma FileMatchesExactly(p: Path, lines: seq<string>, pattern: string, m: string)
    ensures m in FileMatches(p, lines, pattern) <==>
      exists k | 0 <= k < |lines| :: LineMatches(pattern, lines[k]) && m == MatchLine(p, k + 1, lines[k])
    ensures |FileMatches(p, lines, pattern)| <= |lines|
  {
    HitsExactly(lines, Matcher(pattern), Renderer(p), |lines|, m);
  }

  lemma {:induction false} HitsExactly(lines: seq<string>, keep: string -> bool, render: (nat, string) -> string, n: nat, m: string)
    requires n <= |lines|
    ensures m in Hits(lines, keep, render, n) <==> exists k | 0 <= k < n :: keep(lines[k]) && m == render(k + 1, lines[k])
    ensures |Hits(lines, keep, render, n)| <= n
    decreases n
  {
    if n > 0 {
      HitsExactly(lines, keep, render, n - 1, m);
      if exists k | 0 <= k < n :: keep(lines[k]) && m == render(k + 1, lines[k]) {
        var k :| 0 <= k < n && keep(lines[k]) && m == render(k + 1, lines[k]);
        if k < n - 1 {
          assert m in Hits(lines, keep, render, n - 1);
        }
      }
    }
  }

  /** No file outside the scanned set contributes a match, and a scanned
      file contributes all of its matches. */
  lemma {:induction false} SearchMatchesFromScannedFiles(repo: Repo, order: seq<Path>, pattern: string, ext: Option<string>, m: string)
    requires forall i | 0 <= i < |order| :: order[i] in repo
    ensures m in SearchMatches(repo, order, pattern, ext) <==>
      exists i | 0 <= i < |order| :: FoundIn(repo, order[i], pattern, ext, m)
    decreases |order|
  {
    if |order| > 0 {
      var init, p := order[..|order| - 1], order[|order| - 1];
      assert order == init + [p];
      SearchMatchesSnoc(repo, init, p, pattern, ext);
      SearchMatchesFromScannedFiles(repo, init, pattern, ext, m);
      if exists i | 0 <= i < |order| :: FoundIn(repo, order[i], pattern, ext, m) {
        var i :| 0 <= i < |order| && FoundIn(repo, order[i], pattern, ext, m);
        if i < |init| {
          assert init[i] == order[i];
        }
      }
      if exists i | 0 <= i < |init| :: FoundIn(repo, init[i], pattern, ext, m) {
        var i :| 0 <= i < |init| && FoundIn(repo, init[i], pattern, ext, m);
        assert order[i] == init[i];
      }
    }
  }

  /** The file at `p` is scanned and `m` is one of its matches. */
  predicate FoundIn(repo: Repo, p: Path, pattern: string, ext: Option<string>, m: string)
    requires p in repo
  {
    Searched(ext, p) && m in FileMatches(p, FileLines(Universal(repo[p])), pattern)
  }

  /** The non-empty lines of grep's output: `[line for line in
      stdout.strip().split('\n') if line]`. */
  function GrepMatches(stdout: string): (r: seq<string>)
    ensures forall i | 0 <= i < |r| :: r[i] != "" && '\n' !in r[i]
  {
    NonEmpty(Split(Strip(stdout), '\n'))
  }

  function NonEmpty(xs: seq<string>): (r: seq<string>)
    ensures |r| <= |xs|
    ensures forall i | 0 <= i < |r| :: r[i] != "" && r[i] in xs
    ensures forall i | 0 <= i < |xs| && xs[i] != "" :: xs[i] in r
  {
    if |xs| == 0 then []
    else NonEmpty(xs[..|xs| - 1]) + (if xs[|xs| - 1] != "" then [xs[|xs| - 1]] else [])
  }

  /** `search_in_files` of tools.py: the grep output, line by line, keeping
      the non-empty lines; nothing when the output is empty. */
  method LegacyGrepMatches(stdout: string) returns (matches: seq<string>)
    ensures matches == GrepMatches(stdout)
  {
    matches := [];
    if stdout != "" {
      var lines := Split(Strip(stdout), '\n');
      for i := 0 to |lines|
        invariant matches == NonEmpty(lines[..i])
      {
        assert lines[..i + 1][..i] == lines[..i];
        if lines[i] != "" {
          matches := matches + [lines[i]];
        }
      }
      assert lines[..|lines|] == lines;
    } else {
      assert Strip(stdout) == "";
      assert Split("", '\n') == [""];
      assert NonEmpty([""]) == NonEmpty([""][..0]);
    }
  }

  /** How the grep run of src/tools.py ends: with its standard output, or
      without it (not a Unix-like system, `SubprocessError` or
      `FileNotFoundError`), in which case the Python fallback runs. */
  datatype GrepOutcome = GrepOutput(stdout: string) | GrepUnavailable

  function SearchResult(pattern: string, matches: seq<string>): (r: Json)
    ensures CountsItems(r, "matches")
    ensures r.fields["success"] == JBool(true) && "pattern" in r.fields && r.fields["pattern"] == JString(pattern)
    ensures r.fields["matches"] == StringArray(matches)
  {
    JObject(map["success" := JBool(true), "pattern" := JString(pattern),
                "matches" := StringArray(matches), "count" := JInt(|matches|)])
  }

  /** `search_in_files` of src/tools.py: grep's lines when grep ran, the
      fallback's matches otherwise; either way `count` is the number of
      matches. */
  method SearchInFiles(repo: Repo, pattern: string, fileExtension: Option<string>, grep: GrepOutcome)
    returns (result: Json, ghost order: seq<Path>)
    ensures CountsItems(result, "matches")
    ensures grep.GrepOutput? ==> result == SearchResult(pattern, GrepMatches(grep.stdout))
    ensures grep.GrepUnavailable? ==>
      Enumerates(order, repo.Keys) && result == SearchResult(pattern, SearchMatches(repo, order, pattern, fileExtension))
  {
    order := [];
    if grep.GrepOutput? {
      result := SearchResult(pattern, GrepMatches(grep.stdout));
    } else {
      var matches;
      matches, order := SearchFallback(repo, pattern, fileExtension);
      result := SearchResult(pattern, matches);
    }
  }

  // ------------------------------------------------------------ read_file

  /** Python's line boundaries for `str.splitlines()`. */
  predicate IsLineBreak(c: char) {
    var n := c as int;
    (0x0A <= n <= 0x0D) || (0x1C <= n <= 0x1E) || n == 0x85 || n == 0x2028 || n == 0x2029
  }

  function FirstBreak(s: string): (r: Option<nat>)
    ensures r.None? <==> forall k | 0 <= k < |s| :: !IsLineBreak(s[k])
    ensures r.Some? ==> r.value < |s| && IsLineBreak(s[r.value]) && forall k | 0 <= k < r.value :: !IsLineBreak(s[k])
  {
    if |s| == 0 then None
    else if IsLineBreak(s[0]) then Some(0)
    else match FirstBreak(s[1..])
      case None => None
      case Some(k) => Some(k + 1)
  }

  /** `s.splitlines()`: the lines without their ends, "\r\n" being one end. */
  function SplitLines(s: string): (r: seq<string>)
    ensures forall i, k | 0 <= i < |r| && 0 <= k < |r[i]| :: !IsLineBreak(r[i][k])
    decreases |s|
  {
    if |s| == 0 then []
    else match FirstBreak(s)
      case None => [s]
      case Some(k) =>
        var next := if s[k] == '\r' && k + 1 < |s| && s[k + 1] == '\n' then k + 2 else k + 1;
        [s[..k]] + SplitLines(s[next..])
  }

  /** Lines each ended by '\n'. */
  function Unlines(lines: seq<string>): string {
    if |lines| == 0 then "" else lines[0] + "\n" + Unlines(lines[1..])
  }

  predicate NoBreaks(line: string) {
    forall k | 0 <= k < |line| :: !IsLineBreak(line[k])
  }

  /** A line ended by '\n' is split off first. */
  lemma SplitLinesCons(line: string, rest: string)
    requires NoBreaks(line)
    ensures SplitLines(line + "\n" + rest) == [line] + SplitLines(rest)
  {
    var s := line + "\n" + rest;
    assert s[|line|] == '\n';
    assert forall k | 0 <= k < |line| :: s[k] == line[k];
    assert FirstBreak(s) == Some(|line|);
    assert s[..|line|] == line;
    assert s[|line| + 1..] == rest;
  }

  /** Splitting text made of lines ended by '\n' gives the lines back. */
  lemma {:induction false} SplitLinesUnlines(lines: seq<string>)
    requires forall i | 0 <= i < |lines| :: NoBreaks(lines[i])
    ensures SplitLines(Unlines(lines)) == lines
    decreases |lines|
  {
    if |lines| > 0 {
      SplitLinesCons(lines[0], Unlines(lines[1..]));
      SplitLinesUnlines(lines[1..]);
    }
  }

  predicate NoReturns(s: string) {
    forall k | 0 <= k < |s| :: s[k] != '\r'
  }

  /** What reading a stored text in text mode yields (universal newlines,
      as on a POSIX system): "\r\n" and a lone "\r" each become "\n". */
  function Universal(s: string): (r: string)
    ensures |r| <= |s|
    ensures NoReturns(r)
    decreases |s|
  {
    if |s| == 0 then ""
    else if s[0] == '\r' then "\n" + Universal(if |s| > 1 && s[1] == '\n' then s[2..] else s[1..])
    else [s[0]] + Universal(s[1..])
  }

  /** Text without a carriage return reads back unchanged; so reading is
      idempotent. */
  lemma {:induction false} UniversalIdentity(s: string)
    requires NoReturns(s)
    ensures Universal(s) == s
    decreases |s|
  {
    if |s| > 0 {
      UniversalIdentity(s[1..]);
      assert s == [s[0]] + s[1..];
    }
  }

  /** A carriage return always changes what is read: the text read is
      exactly the stored text when, and only when, that has none. */
  lemma UniversalChanges(s: string)
    ensures Universal(s) == s <==> NoReturns(s)
  {
    if NoReturns(s) {
      UniversalIdentity(s);
    } else {
      var k :| 0 <= k < |s| && s[k] == '\r';
      assert k < |Universal(s)| ==> Universal(s)[k] != s[k];
    }
  }

  function ReadResult(p: Path, content: string): (r: Json)
    ensures r.JObject? && "lines" in r.fields && "content" in r.fields && "success" in r.fields
    ensures r.fields["success"] == JBool(true) && r.fields["content"] == JString(content)
    ensures r.fields["lines"] == JInt(|SplitLines(content)|)
  {
    JObject(map["success" := JBool(true), "filepath" := JString(RelPath(p)),
                "content" := JString(content), "lines" := JInt(|SplitLines(content)|)])
  }

  /** The failure mapping of the tools that name a file. */
  function FileFailure(p: Path, message: string): (r: Json)
    ensures IsFailure(r) && ErrorOf(r) == message
    ensures "filepath" in r.fields && r.fields["filepath"] == JString(RelPath(p))
  {
    JObject(map["success" := JBool(false), "error" := JString(message), "filepath" := JString(RelPath(p))])
  }

  /** `read_file(filepath)`: the text read in text mode and its number of
      lines; `osError` is the text of the error `open` raises when there is
      no such file. */
  function ReadFile(repo: Repo, p: Path, osError: string): (r: Json)
    ensures p in repo ==> r == ReadResult(p, Universal(repo[p]))
    ensures p !in repo ==> r == FileFailure(p, osError)
  {
    if p in repo then ReadResult(p, Universal(repo[p])) else FileFailure(p, osError)
  }

  // ----------------------------------------------------------- write_file

  /** The bytes UTF-8 takes for one code point (section 3 of RFC 3629). */
  function Utf8Width(c: char): nat {
    var n := c as int;
    if n < 0x80 then 1 else if n < 0x800 then 2 else if n < 0x10000 then 3 else 4
  }

  /** `len(s.encode('utf-8'))`. */
  function Utf8Length(s: string): (n: nat)
    ensures |s| <= n <= 4 * |s|
  {
    if |s| == 0 then 0 else Utf8Width(s[0]) + Utf8Length(s[1..])
  }

  /** The encoded length of a text is the sum over its parts. */
  lemma {:induction false} Utf8LengthAppend(a: string, b: string)
    ensures Utf8Length(a + b) == Utf8Length(a) + Utf8Length(b)
    decreases |a|
  {
    if |a| == 0 {
      assert a + b == b;
    } else {
      assert (a + b)[1..] == a[1..] + b;
      Utf8LengthAppend(a[1..], b);
    }
  }

  /** One character takes one byte below U+0080, two below U+0800, three
      below U+10000 and four above. */
  lemma Utf8LengthOfChar(c: char)
    ensures Utf8Length([c]) == 1 <==> c as int < 0x80
    ensures Utf8Length([c]) == 2 <==> 0x80 <= c as int < 0x800
    ensures Utf8Length([c]) == 3 <==> 0x800 <= c as int < 0x10000
    ensures Utf8Length([c]) == 4 <==> 0x10000 <= c as int
  {
    assert [c][1..] == [];
  }

  /** ASCII text takes one byte per character. */
  lemma {:induction false} Utf8LengthAscii(s: string)
    requires forall k | 0 <= k < |s| :: s[k] as int < 0x80
    ensures Utf8Length(s) == |s|
    decreases |s|
  {
    if |s| > 0 {
      Utf8LengthAscii(s[1..]);
    }
  }

  /** Writing `p` fails when a directory on its way is a file
      (`os.makedirs` raises) or `p` is itself a directory (`open` raises). */
  predicate WriteBlocked(repo: Repo, p: Path) {
    (exists k | 0 < k < |p| :: p[..k] in repo) || (p !in repo && IsDir(repo, p))
  }

  /** `write_file(filepath, content)`: the new repository and the result;
      `osError` is the text of the error raised when the write is blocked. */
  function WriteFile(repo: Repo, p: Path, content: string, osError: string): (r: (Repo, Json))
    ensures !WriteBlocked(repo, p) ==>
      && r.0 == repo[p := content]
      && r.1 == JObject(map["success" := JBool(true), "filepath" := JString(RelPath(p)),
                            "bytes_written" := JInt(Utf8Length(content))])
    ensures WriteBlocked(repo, p) ==> r.0 == repo && r.1 == FileFailure(p, osError)
  {
    if WriteBlocked(repo, p) then (repo, FileFailure(p, osError))
    else (repo[p := content], JObject(map["success" := JBool(true), "filepath" := JString(RelPath(p)),
                                          "bytes_written" := JInt(Utf8Length(content))]))
  }

  /** The repository root (filepath "" or ".") is a directory, so writing
      to it fails, with the error `open` raises, and changes nothing. */
  lemma RootWriteFails(repo: Repo, content: string, osError: string)
    requires WellFormedRepo(repo)
    ensures WriteBlocked(repo, [])
    ensures WriteFile(repo, [], content, osError) == (repo, FileFailure([], osError))
  {
    assert [] !in repo;
  }

  /** A write that goes through keeps the repository well formed: the new
      file neither lies below a file nor has files below it. */
  lemma WritePreservesWellFormed(repo: Repo, p: Path, content: string, osError: string)
    requires WellFormedRepo(repo) && |p| >= 1 && !WriteBlocked(repo, p)
    requires ValidPath(p)
    ensures WellFormedRepo(WriteFile(repo, p, content, osError).0)
  {
    var repo' := WriteFile(repo, p, content, osError).0;
    forall a, b | a in repo' && b in repo' && |a| < |b|
      ensures b[..|a|] != a
    {
      if b == p && a in repo {
        assert 0 < |a| < |p|;
        assert p[..|a|] in repo ==> WriteBlocked(repo, p);
      } else if a == p && b in repo && p !in repo {
        assert IsDir(repo, p) ==> WriteBlocked(repo, p);
      }
    }
  }

  /** Reading back what was written gives the content with its line ends
      translated, and exactly the content when it holds no carriage
      return; every other file is as it was. */
  lemma WriteThenRead(repo: Repo, p: Path, content: string, osError: string, readError: string, q: Path)
    requires |p| >= 1 && !WriteBlocked(repo, p)
    ensures var repo' := WriteFile(repo, p, content, osError).0;
      && ReadFile(repo', p, readError) == ReadResult(p, Universal(content))
      && (NoReturns(content) ==> ReadFile(repo', p, readError) == ReadResult(p, content))
      && (q != p ==> ReadFile(repo', q, readError) == ReadFile(repo, q, readError))
  {
    if NoReturns(content) {
      UniversalIdentity(content);
    }
  }

  /** A write into a fresh directory succeeds, and text written as lines
      ended by '\n' reads back with that many lines. */
  lemma WriteLinesCounted(repo: Repo, p: Path, lines: seq<string>, osError: string, readError: string)
    requires |p| >= 1 && !WriteBlocked(repo, p)
    requires forall i | 0 <= i < |lines| :: NoBreaks(lines[i])
    ensures var repo' := WriteFile(repo, p, Unlines(lines), osError).0;
      ReadFile(repo', p, readError).fields["lines"] == JInt(|lines|)
  {
    UnlinesNoReturn(lines);
    UniversalIdentity(Unlines(lines));
    SplitLinesUnlines(lines);
  }

  lemma {:induction false} UnlinesNoReturn(lines: seq<string>)
    requires forall i | 0 <= i < |lines| :: NoBreaks(lines[i])
    ensures NoReturns(Unlines(lines))
    decreases |lines|
  {
    if |lines| > 0 {
      UnlinesNoReturn(lines[1..]);
      var u := Unlines(lines);
      assert u == lines[0] + "\n" + Unlines(lines[1..]);
      forall k | 0 <= k < |u|
        ensures u[k] != '\r'
      {
        if k < |lines[0]| {
          assert u[k] == lines[0][k] && !IsLineBreak(lines[0][k]);
        } else if k > |lines[0]| {
          assert u[k] == Unlines(lines[1..])[k - |lines[0]| - 1];
        }
      }
    }
  }

  // -------------------------------------------------------- get_file_info

  /** `get_file_info(filepath)`; a directory's size is whatever the OS
      reports, `dirSize`. A file's size is its UTF-8 length. */
  function GetFileInfo(repo: Repo, p: Path, dirSize: int): (r: Json)
    ensures p !in repo && !IsDir(repo, p) ==> r == FileFailure(p, "File does not exist")
    ensures p in repo ==>
      && r.JObject? && "size" in r.fields && r.fields["size"] == JInt(Utf8Length(repo[p]))
      && "is_file" in r.fields && r.fields["is_file"] == JBool(true)
      && "is_dir" in r.fields && r.fields["is_dir"] == JBool(false)
    ensures p !in repo && IsDir(repo, p) ==>
      && r.JObject?
      && "is_file" in r.fields && r.fields["is_file"] == JBool(false)
      && "is_dir" in r.fields && r.fields["is_dir"] == JBool(true)
    ensures r.JObject? && "success" in r.fields && (r.fields["success"] == JBool(true) <==> p in repo || IsDir(repo, p))
  {
    if p !in repo && !IsDir(repo, p) then FileFailure(p, "File does not exist")
    else
      var isFile := p in repo;
      JObject(map["success" := JBool(true), "filepath" := JString(RelPath(p)),
                  "size" := JInt(if isFile then Utf8Length(repo[p]) else dirSize),
                  "exists" := JBool(true), "is_file" := JBool(isFile), "is_dir" := JBool(!isFile)])
  }

  /** After a write, `get_file_info` reports as the file's size the number of
      bytes `write_file` reported writing. */
  lemma WrittenSizeReported(repo: Repo, p: Path, content: string, osError: string, dirSize: int)
    requires |p| >= 1 && !WriteBlocked(repo, p)
    ensures var w := WriteFile(repo, p, content, osError);
      GetFileInfo(w.0, p, dirSize).fields["size"] == w.1.fields["bytes_written"]
  {
  }
}
