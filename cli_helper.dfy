/** `CommandHelper` of adit_radis_shared/cli/helper.py: the helper behind
    the `cli` commands. It finds the project root by walking up from its
    own directory, reads the project name from `pyproject.toml`, and
    re-reads `.env` whenever it needs ENVIRONMENT: its `is_production`
    assigns a local variable where a cache was meant, so the class-level
    cache stays `None` and is never consulted. */
module CliHelper {
  import opened Wrappers
  import opened Text
  import opened OpsSpec
  import OpsMethods

  const PyProject: string := "pyproject.toml"

  /** `Path.parent`: the filesystem root is its own parent. */
  function Parent(p: Path): (r: Path)
    ensures p == [] ==> r == []
    ensures p != [] ==> |r| == |p| - 1 && r == p[..|p| - 1]
  {
    if p == [] then [] else p[..|p| - 1]
  }

  /** The shortest ancestor of `dir` the walk looks at: the walk stops
      before the filesystem root unless it starts there. */
  function Lowest(dir: Path): nat {
    if dir == [] then 0 else 1
  }

  /** The directory `_find_project_root` settles on, from `dir` upwards;
      `files` are the paths that exist as regular files. */
  function RootSearch(files: set<Path>, dir: Path): (r: Option<Path>)
    ensures r.Some? ==>
      && Lowest(dir) <= |r.value| <= |dir| && r.value == dir[..|r.value|]
      && r.value + [PyProject] in files
      && forall n :: |r.value| < n <= |dir| ==> dir[..n] + [PyProject] !in files
    ensures r.None? ==> forall n :: Lowest(dir) <= n <= |dir| ==> dir[..n] + [PyProject] !in files
    decreases |dir|
  {
    if dir + [PyProject] in files then
      assert dir[..|dir|] == dir;
      Some(dir)
    else if |dir| <= 1 then
      assert dir[..|dir|] == dir;
      None
    else
      var up := dir[..|dir| - 1];
      var r := RootSearch(files, up);
      assert forall n :: 0 <= n <= |up| ==> up[..n] == dir[..n];
      assert dir[..|dir|] == dir;
      r
  }

  /** `_find_project_root`: look for `pyproject.toml` in the current
      directory, then move to the parent, and give up (FileNotFoundError)
      once the parent is the filesystem root. */
  method FindProjectRoot(files: set<Path>, moduleDir: Path) returns (r: Option<Path>)
    ensures r == RootSearch(files, moduleDir)
  {
    var current := moduleDir;
    while true
      invariant RootSearch(files, current) == RootSearch(files, moduleDir)
      decreases |current|
    {
      if current + [PyProject] in files {
        return Some(current);
      }
      current := Parent(current);
      if current == Parent(current) {
        return None;
      }
    }
  }

  /** Why the constructor fails. */
  datatype InitError = NoProjectRoot | MissingPyProject | MissingProjectName

  /** `__init__` after `_get_project_id`: the shared package itself runs
      as the example project. */
  function ProjectIdOf(name: string): (r: string)
    ensures name == "adit-radis-shared" ==> r == "example_project"
    ensures name != "adit-radis-shared" ==> r == name
  {
    if name == "adit-radis-shared" then "example_project" else name
  }

  /** `_get_project_id`: `projectName` is `project.name` of the toml file,
      `None` when the table or the key is missing. */
  function GetProjectId(files: set<Path>, root: Path, projectName: Option<string>): (r: Result<string, InitError>)
    ensures r.Ok? <==> root + [PyProject] in files && projectName.Some? && projectName.value != ""
    ensures r.Ok? ==> r.value == projectName.value
  {
    if root + [PyProject] !in files then Err(MissingPyProject)
    else if projectName.None? || projectName.value == "" then Err(MissingProjectName)
    else Ok(projectName.value)
  }

  /** `f"{version}-local"`: the version the cli passes to compose. */
  function LocalProjectVersion(version: string): (r: string)
    ensures StartsWith(r, version) && r[|version|..] == "-local"
  {
    version + "-local"
  }

  class CommandHelper {
    const rootPath: Path
    const projectId: string

    constructor (rootPath: Path, projectId: string)
      ensures this.rootPath == rootPath && this.projectId == projectId
    {
      this.rootPath := rootPath;
      this.projectId := projectId;
    }

    /** `CommandHelper()`: find the root, read the name, remap it. */
    static method Open(files: set<Path>, moduleDir: Path, projectName: Option<string>)
      returns (r: Result<CommandHelper, InitError>)
      ensures RootSearch(files, moduleDir).None? ==> r == Err(NoProjectRoot)
      ensures RootSearch(files, moduleDir).Some? ==>
        var root := RootSearch(files, moduleDir).value;
        match GetProjectId(files, root, projectName)
        case Err(e) => r == Err(e)
        case Ok(name) =>
          && r.Ok? && fresh(r.value)
          && r.value.rootPath == root && r.value.projectId == ProjectIdOf(name)
    {
      var root := FindProjectRoot(files, moduleDir);
      if root.None? {
        return Err(NoProjectRoot);
      }
      var name := GetProjectId(files, root.value, projectName);
      if name.Err? {
        return Err(name.error);
      }
      var helper := new CommandHelper(root.value, ProjectIdOf(name.value));
      return Ok(helper);
    }

    /** `is_production`: `.env` is read and checked on every call. */
    method IsProduction(envFile: Option<Config>) returns (r: Result<bool, EnvError>)
      ensures r == EvaluateProduction(envFile)
    {
      var config := LoadConfig(envFile);
      if config.Err? {
        return Err(config.error);
      }
      r := CheckEnvironment(config.value);
    }

    /** `get_compose_env_file` */
    method GetComposeEnvFile(envFile: Option<Config>) returns (r: Result<Path, EnvError>)
      ensures r == match EvaluateProduction(envFile)
                   case Ok(p) => Ok(ComposeEnvFile(rootPath, p))
                   case Err(e) => Err(e)
    {
      var production := IsProduction(envFile);
      if production.Err? {
        return Err(production.error);
      }
      return Ok(ComposeEnvFile(rootPath, production.value));
    }

    /** `get_stack_name`: `.env` is read, and read again by `is_production`
        when STACK_NAME is not set. */
    method GetStackName(envFile: Option<Config>) returns (r: Result<string, EnvError>)
      ensures r == match LoadConfig(envFile)
                   case Ok(config) => StackNameFrom(config, EvaluateProduction(envFile), projectId)
                   case Err(e) => Err(e)
    {
      var config := LoadConfig(envFile);
      if config.Err? {
        return Err(config.error);
      }
      var configured := ConfiguredStackName(config.value);
      if configured.Some? {
        return Ok(configured.value);
      }
      var production := IsProduction(envFile);
      if production.Err? {
        return Err(production.error);
      }
      return Ok(DefaultStackName(projectId, production.value));
    }

    /** `build_compose_cmd`: `None` and `[]` both add no profile. */
    method BuildComposeCmd(envFile: Option<Config>, profiles: Option<seq<string>>) returns (r: Result<string, EnvError>)
      ensures r == match EvaluateProduction(envFile)
                   case Err(e) => Err(e)
                   case Ok(p) =>
                     match StackNameFrom(envFile.value, Ok(p), projectId)
                     case Err(e) => Err(e)
                     case Ok(stack) => Ok(ComposeCmdFor(rootPath, p, stack, profiles.GetOr([])))
    {
      var envPath := GetComposeEnvFile(envFile);
      if envPath.Err? {
        return Err(envPath.error);
      }
      var stack := GetStackName(envFile);
      if stack.Err? {
        return Err(stack.error);
      }
      var cmd := OpsMethods.BuildComposeCmd(PathString(ComposeBaseFile(rootPath)), PathString(envPath.value), stack.value, profiles.GetOr([]));
      return Ok(cmd);
    }

    /** `check_compose_up`: the stack name is looked up for each line, so
        an output without lines never reads `.env`. */
    method CheckComposeUp(envFile: Option<Config>, output: string) returns (r: Result<bool, EnvError>)
      ensures SplitLines(output) == [] ==> r == Ok(false)
      ensures SplitLines(output) != [] ==>
        r == match LoadConfig(envFile)
             case Err(e) => Err(e)
             case Ok(config) =>
               match StackNameFrom(config, EvaluateProduction(envFile), projectId)
               case Err(e) => Err(e)
               case Ok(stack) => Ok(ComposeUp(SplitLines(output), stack))
    {
      if SplitLines(output) == [] {
        return Ok(false);
      }
      var stack := GetStackName(envFile);
      if stack.Err? {
        return Err(stack.error);
      }
      var up := OpsMethods.CheckComposeUp(output, stack.value);
      return Ok(up);
    }

    /** `find_running_container_id`: the query it runs and the id read from
        `output`, the query's captured output. */
    method FindRunningContainerId(envFile: Option<Config>, name: string, output: string)
      returns (r: Result<(string, Option<string>), EnvError>)
      ensures r == match EvaluateProduction(envFile)
                   case Err(e) => Err(e)
                   case Ok(p) =>
                     match StackNameFrom(envFile.value, Ok(p), projectId)
                     case Err(e) => Err(e)
                     case Ok(stack) => Ok((ContainerQuery(stack, p, name), ContainerIdFrom(output)))
    {
      var production := IsProduction(envFile);
      if production.Err? {
        return Err(production.error);
      }
      var stack := GetStackName(envFile);
      if stack.Err? {
        return Err(stack.error);
      }
      return Ok((ContainerQuery(stack.value, production.value, name), ContainerIdFrom(output)));
    }

    /** `execute_cmd`: `simulate` is the SIMULATE variable, `osEnv` the
        process environment. */
    method ExecuteCmd(cmd: string, env: Option<map<string, string>>, hidden: bool, simulate: bool, osEnv: map<string, string>)
      returns (action: ExecAction)
      ensures action.Simulated? <==> simulate && !hidden
      ensures action == OpsSpec.ExecuteCmd(cmd, simulate, hidden, osEnv, env)
    {
      if simulate && !hidden {
        return Simulated("Simulating: " + cmd);
      }
      var banner := if hidden then None else Some("Executing: " + cmd);
      var customEnv := if env.None? || env.value == map[] then None else Some(osEnv + env.value);
      return Executed(banner, cmd, customEnv);
    }
  }

  /** Lines of `uv tree --depth 1 --outdated` such as
      "├── django v5.1.2 (latest: v5.1.3)". */
  datatype TreeEntry = TreeEntry(name: string, installed: string, latest: string)

  predicate IsBoxChar(c: char) {
    c == '\U{2502}' || c == '\U{251C}' || c == '\U{2514}' || c == '\U{2500}'
  }

  /** `[\w\-\._]` with ASCII word characters. */
  predicate IsNameChar(c: char) {
    ('a' <= c <= 'z') || ('A' <= c <= 'Z') || ('0' <= c <= '9') || c == '_' || c == '-' || c == '.'
  }

  /** `[\d\.]` */
  predicate IsVersionChar(c: char) {
    ('0' <= c <= '9') || c == '.'
  }

  /** The length of the longest prefix of `s` whose characters satisfy `p`. */
  function Span(s: string, p: char -> bool): (n: nat)
    ensures n <= |s|
  {
    if s == [] || !p(s[0]) then 0 else 1 + Span(s[1..], p)
  }

  /** The longest run is exactly `x` when `y` cannot extend it. */
  lemma {:induction false} SpanOf(x: string, y: string, p: char -> bool)
    requires forall i :: 0 <= i < |x| ==> p(x[i])
    requires y == [] || !p(y[0])
    ensures Span(x + y, p) == |x|
    ensures (x + y)[..|x|] == x && (x + y)[|x|..] == y
  {
    if x != [] {
      assert (x + y)[1..] == x[1..] + y;
      SpanOf(x[1..], y, p);
    }
  }

  lemma PrefixOf(p: string, x: string)
    ensures StartsWith(p + x, p) && (p + x)[|p|..] == x
  {
    assert (p + x)[..|p|] == p;
  }

  const LatestOpen: string := "(latest:"

  /** `\(latest:\s*v([\d\.]+)\)` matched at the start of `s`. */
  function LatestAt(s: string): Option<string> {
    if !StartsWith(s, LatestOpen) then None
    else
      var t := s[|LatestOpen|..];
      var u := t[Span(t, IsSpace)..];
      if u == [] || u[0] != 'v' then None
      else
        var v := u[1..];
        var d := Span(v, IsVersionChar);
        if d >= 1 && d < |v| && v[d] == ')' then Some(v[..d]) else None
  }

  /** The lazy `.*?` before it: the first position where it matches. */
  function FirstLatest(s: string): Option<string>
    decreases |s|
  {
    if LatestAt(s).Some? then LatestAt(s)
    else if s == [] then None
    else FirstLatest(s[1..])
  }

  /** What follows a non-empty run of `p`-characters at the start of `s`. */
  function AfterRun(s: string, p: char -> bool): Option<string> {
    var n := Span(s, p);
    if n == 0 then None else Some(s[n..])
  }

  /** A non-empty run of `p`-characters at the start of `s`, and the rest. */
  function TakeRun(s: string, p: char -> bool): Option<(string, string)> {
    var n := Span(s, p);
    if n == 0 then None else Some((s[..n], s[n..]))
  }

  lemma RunOf(x: string, y: string, p: char -> bool)
    requires x != [] && forall i :: 0 <= i < |x| ==> p(x[i])
    requires y == [] || !p(y[0])
    ensures AfterRun(x + y, p) == Some(y)
    ensures TakeRun(x + y, p) == Some((x, y))
  {
    SpanOf(x, y, p);
  }

  /** `re.search(r"^[│├└─]+\s+([\w\-\._]+)\s+v([\d\.]+).*?\(latest:\s*v([\d\.]+)\)", line)`.
      Each repeated class is followed by something it cannot match, so
      each group is the longest run, and the lazy gap stops at the first
      "(latest: v…)". */
  function ParseTreeLine(line: string): Option<TreeEntry> {
    match AfterRun(line, IsBoxChar)
    case None => None
    case Some(r1) =>
      match AfterRun(r1, IsSpace)
      case None => None
      case Some(r2) => ParseEntry(r2)
  }

  /** `([\w\-\._]+)\s+v` and the rest of the pattern. */
  function ParseEntry(s: string): Option<TreeEntry> {
    match TakeRun(s, IsNameChar)
    case None => None
    case Some((name, r3)) =>
      match ParseAfterName(r3)
      case None => None
      case Some((installed, latest)) => Some(TreeEntry(name, installed, latest))
  }

  /** `\s+v` and the versions. */
  function ParseAfterName(s: string): Option<(string, string)> {
    match AfterRun(s, IsSpace)
    case None => None
    case Some(r4) =>
      if r4 == [] || r4[0] != 'v' then None
      else ParseVersions(r4[1..])
  }

  /** `([\d\.]+).*?\(latest:\s*v([\d\.]+)\)` */
  function ParseVersions(s: string): Option<(string, string)> {
    match TakeRun(s, IsVersionChar)
    case None => None
    case Some((installed, rest)) =>
      match FirstLatest(rest)
      case None => None
      case Some(latest) => Some((installed, latest))
  }

  const Branch: string := "\U{251C}\U{2500}\U{2500}"

  /** "(latest: v…)" */
  function LatestText(latest: string): string {
    LatestOpen + ([' ', 'v'] + (latest + [')']))
  }

  /** A tree line as uv prints it: "├── name vX (latest: vY)". */
  function TreeLine(e: TreeEntry): string {
    Branch + ([' '] + EntryText(e))
  }

  function EntryText(e: TreeEntry): string {
    e.name + ([' ', 'v'] + VersionsText(e.installed, e.latest))
  }

  function VersionsText(installed: string, latest: string): string {
    installed + ([' '] + LatestText(latest))
  }

  predicate WellFormed(e: TreeEntry) {
    && e.name != [] && (forall i :: 0 <= i < |e.name| ==> IsNameChar(e.name[i]))
    && e.installed != [] && (forall i :: 0 <= i < |e.installed| ==> IsVersionChar(e.installed[i]))
    && e.latest != [] && (forall i :: 0 <= i < |e.latest| ==> IsVersionChar(e.latest[i]))
  }

  lemma LatestOf(latest: string)
    requires latest != [] && forall i :: 0 <= i < |latest| ==> IsVersionChar(latest[i])
    ensures FirstLatest(LatestText(latest)) == Some(latest)
  {
    var v := latest + [')'];
    SpanOf(latest, [')'], IsVersionChar);
    var u := ['v'] + v;
    assert u[1..] == v;
    var t := [' '] + u;
    SpanOf([' '], u, IsSpace);
    assert [' ', 'v'] + v == t;
    PrefixOf(LatestOpen, t);
  }

  lemma BranchIsBox()
    ensures forall i :: 0 <= i < |Branch| ==> IsBoxChar(Branch[i])
  {
    assert Branch == ['\U{251C}', '\U{2500}', '\U{2500}'];
  }

  lemma VersionsRoundTrip(installed: string, latest: string)
    requires installed != [] && forall i :: 0 <= i < |installed| ==> IsVersionChar(installed[i])
    requires latest != [] && forall i :: 0 <= i < |latest| ==> IsVersionChar(latest[i])
    ensures ParseVersions(VersionsText(installed, latest)) == Some((installed, latest))
  {
    var gap := [' '] + LatestText(latest);
    assert FirstLatest(gap) == Some(latest) by {
      assert LatestAt(gap).None? by {
        assert gap[0] != LatestOpen[0];
      }
      LatestOf(latest);
      assert gap[1..] == LatestText(latest);
    }
    RunOf(installed, gap, IsVersionChar);
  }

  lemma AfterNameRoundTrip(installed: string, latest: string)
    requires installed != [] && forall i :: 0 <= i < |installed| ==> IsVersionChar(installed[i])
    requires latest != [] && forall i :: 0 <= i < |latest| ==> IsVersionChar(latest[i])
    ensures ParseAfterName([' ', 'v'] + VersionsText(installed, latest)) == Some((installed, latest))
  {
    var r5 := VersionsText(installed, latest);
    var r4 := ['v'] + r5;
    assert r4[1..] == r5;
    assert [' ', 'v'] + r5 == [' '] + r4;
    RunOf([' '], r4, IsSpace);
    VersionsRoundTrip(installed, latest);
  }

  lemma EntryRoundTrip(e: TreeEntry)
    requires WellFormed(e)
    ensures ParseEntry(EntryText(e)) == Some(e)
  {
    var r3 := [' ', 'v'] + VersionsText(e.installed, e.latest);
    RunOf(e.name, r3, IsNameChar);
    AfterNameRoundTrip(e.installed, e.latest);
  }

  /** Every well-formed entry is read back from the line uv prints for it. */
  lemma ParseTreeLineRoundTrip(e: TreeEntry)
    requires WellFormed(e)
    ensures ParseTreeLine(TreeLine(e)) == Some(e)
  {
    var t := EntryText(e);
    var r1 := [' '] + t;
    assert AfterRun(TreeLine(e), IsBoxChar) == Some(r1) by {
      BranchIsBox();
      RunOf(Branch, r1, IsBoxChar);
    }
    assert AfterRun(r1, IsSpace) == Some(t) by {
      RunOf([' '], t, IsSpace);
    }
    EntryRoundTrip(e);
  }

  /** What `print_uv_outdated` prints for one matching line. */
  function OutdatedLine(e: TreeEntry): string {
    e.name + ": " + e.installed + " (latest: " + e.latest + ")"
  }

  /** The entry a line of the tree reports: it matches and its versions
      differ. */
  function Outdated(line: string): Option<TreeEntry> {
    match ParseTreeLine(line)
    case Some(e) => if e.installed != e.latest then Some(e) else None
    case None => None
  }

  /** The printed lines, for entries already parsed. */
  function Report(entries: seq<Option<TreeEntry>>): seq<string> {
    if entries == [] then []
    else
      var last := entries[|entries| - 1];
      Report(entries[..|entries| - 1]) + (if last.Some? then [OutdatedLine(last.value)] else [])
  }

  /** A line is printed iff it renders an entry that is reported. */
  lemma {:induction false} ReportSpec(entries: seq<Option<TreeEntry>>, x: string)
    ensures x in Report(entries) <==> exists k :: 0 <= k < |entries| && entries[k].Some? && OutdatedLine(entries[k].value) == x
    ensures |Report(entries)| <= |entries|
    decreases |entries|
  {
    if entries != [] {
      var init := entries[..|entries| - 1];
      ReportSpec(init, x);
      if exists k :: 0 <= k < |entries| && entries[k].Some? && OutdatedLine(entries[k].value) == x {
        var k :| 0 <= k < |entries| && entries[k].Some? && OutdatedLine(entries[k].value) == x;
        if k < |init| {
          assert init[k] == entries[k];
        }
      }
    }
  }

  function OutdatedEntries(lines: seq<string>): (r: seq<Option<TreeEntry>>)
    ensures |r| == |lines|
  {
    seq(|lines|, k requires 0 <= k < |lines| => Outdated(lines[k]))
  }

  /** The report of `print_uv_outdated`, line by line of the tree. */
  function OutdatedReport(lines: seq<string>): seq<string> {
    Report(OutdatedEntries(lines))
  }

  /** A line is printed iff some line of the tree matches with differing
      versions and renders to it. */
  lemma OutdatedReportSpec(lines: seq<string>, x: string)
    ensures x in OutdatedReport(lines) <==>
      exists k :: 0 <= k < |lines| && Outdated(lines[k]).Some? && OutdatedLine(Outdated(lines[k]).value) == x
  {
    var entries := OutdatedEntries(lines);
    ReportSpec(entries, x);
    if x in OutdatedReport(lines) {
      var k :| 0 <= k < |entries| && entries[k].Some? && OutdatedLine(entries[k].value) == x;
      assert entries[k] == Outdated(lines[k]);
    }
    if exists k :: 0 <= k < |lines| && Outdated(lines[k]).Some? && OutdatedLine(Outdated(lines[k]).value) == x {
      var k :| 0 <= k < |lines| && Outdated(lines[k]).Some? && OutdatedLine(Outdated(lines[k]).value) == x;
      assert entries[k] == Outdated(lines[k]);
    }
  }

  /** `print_uv_outdated` over the captured tree output. */
  method PrintUvOutdated(output: string) returns (printed: seq<string>)
    ensures printed == OutdatedReport(SplitLines(output))
  {
    var lines := SplitLines(output);
    ghost var entries := OutdatedEntries(lines);
    printed := [];
    var i := 0;
    while i < |lines|
      invariant 0 <= i <= |lines|
      invariant printed == Report(entries[..i])
    {
      assert entries[..i + 1][..i] == entries[..i];
      var entry := Outdated(lines[i]);
      assert entries[i] == entry;
      if entry.Some? {
        printed := printed + [OutdatedLine(entry.value)];
      }
      i := i + 1;
    }
    assert entries[..i] == entries;
  }
}
