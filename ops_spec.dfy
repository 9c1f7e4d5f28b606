/** The computations shared by the five operations helpers (CommandHelper,
    the cli_helpers module, the invoke `Utility` class, ScriptHelper and
    MaintenanceCommand), stated once as functions with the properties they
    promise. The helpers differ in how they cache `is_production`, how they
    fail and which execution flags they honour; those differences live in
    the modules that model each helper. */
module OpsSpec {
  import opened Wrappers
  import opened Text
  import opened IpAddresses

  /** The key/value pairs python-dotenv reads from `.env`; a key written
      without `=` has no value. */
  type Config = map<string, Option<string>>

  /** An absolute path, as its components below the filesystem root. */
  type Path = seq<string>

  function PathString(p: Path): string {
    "/" + Join(p, "/")
  }

  /** Why a helper stops: the `.env` file or its ENVIRONMENT setting. */
  datatype EnvError = MissingEnvFile | MissingEnvironment | InvalidEnvironment(setting: Option<string>)

  /** Reading `.env`: a missing file stops the helper. */
  function LoadConfig(envFile: Option<Config>): (r: Result<Config, EnvError>)
    ensures r.Err? <==> envFile.None?
    ensures envFile.Some? ==> r == Ok(envFile.value)
  {
    match envFile
    case None => Err(MissingEnvFile)
    case Some(c) => Ok(c)
  }

  /** The check `is_production` makes when it reads `.env`. */
  function CheckEnvironment(config: Config): (r: Result<bool, EnvError>)
    ensures r.Ok? <==> "ENVIRONMENT" in config
                       && config["ENVIRONMENT"] in {Some("development"), Some("production")}
    ensures r.Ok? ==> (r.value <==> config["ENVIRONMENT"] == Some("production"))
    ensures "ENVIRONMENT" !in config ==> r == Err(MissingEnvironment)
  {
    if "ENVIRONMENT" !in config then Err(MissingEnvironment)
    else
      var setting := config["ENVIRONMENT"];
      if setting != Some("development") && setting != Some("production") then Err(InvalidEnvironment(setting))
      else Ok(setting == Some("production"))
  }

  /** Reading `.env` and checking ENVIRONMENT, as one uncached evaluation. */
  function EvaluateProduction(envFile: Option<Config>): Result<bool, EnvError> {
    match LoadConfig(envFile)
    case Err(e) => Err(e)
    case Ok(config) => CheckEnvironment(config)
  }

  /** One call of a caching `is_production`: its result and the cache
      afterwards. */
  datatype CachedCall = CachedCall(result: Result<bool, EnvError>, cache: Option<bool>)

  /** `is_production` of cli_helpers, Utility, ScriptHelper and
      MaintenanceCommand: a filled cache answers without reading `.env`;
      otherwise `.env` is read and checked, and a valid answer is stored. */
  function CachedProduction(cache: Option<bool>, envFile: Option<Config>): (r: CachedCall)
    ensures cache.Some? ==> r == CachedCall(Ok(cache.value), cache)
    ensures cache.None? ==> r.result == EvaluateProduction(envFile)
    ensures r.result.Ok? ==> r.cache == Some(r.result.value)
    ensures r.result.Err? ==> r.cache == cache
  {
    match cache
    case Some(p) => CachedCall(Ok(p), cache)
    case None =>
      match EvaluateProduction(envFile)
      case Ok(p) => CachedCall(Ok(p), Some(p))
      case Err(e) => CachedCall(Err(e), None)
  }

  /** After one valid answer, every later call gives the same answer and
      leaves the cache alone, whatever `.env` holds by then. */
  lemma CacheSettles(cache: Option<bool>, first: Option<Config>, later: Option<Config>)
    ensures var call := CachedProduction(cache, first);
      call.result.Ok? ==> CachedProduction(call.cache, later) == CachedCall(call.result, call.cache)
  {
  }

  /** A failed first call leaves the cache empty, so the next call reads
      `.env` again. */
  lemma CacheRetries(first: Option<Config>, later: Option<Config>)
    ensures var call := CachedProduction(None, first);
      call.result.Err? ==> CachedProduction(call.cache, later).result == EvaluateProduction(later)
  {
  }

  /** `config.get("STACK_NAME", "")` when it is truthy. */
  function ConfiguredStackName(config: Config): (r: Option<string>)
    ensures r.Some? <==> "STACK_NAME" in config && config["STACK_NAME"].Some? && config["STACK_NAME"].value != ""
    ensures r.Some? ==> r == config["STACK_NAME"]
  {
    if "STACK_NAME" in config && config["STACK_NAME"].Some? && config["STACK_NAME"].value != "" then config["STACK_NAME"]
    else None
  }

  /** The stack name derived from the project when STACK_NAME is not set. */
  function DefaultStackName(project: string, production: bool): string {
    project + (if production then "_prod" else "_dev")
  }

  lemma DefaultStackNameShape(project: string, production: bool)
    ensures var s := DefaultStackName(project, production);
      && StartsWith(s, project)
      && (production <==> s[|project|..] == "_prod")
      && (!production <==> s[|project|..] == "_dev")
  {
    var s := DefaultStackName(project, production);
    assert s[..|project|] == project;
    assert s[|project|..] == if production then "_prod" else "_dev";
  }

  function ComposeBaseFile(root: Path): Path {
    root + ["docker-compose.base.yml"]
  }

  /** The stack name once `.env` has been read: a non-empty STACK_NAME
      wins, otherwise the project name with "_prod" or "_dev"; `production`
      is what `is_production` gives, which is only consulted when needed. */
  function StackNameFrom(config: Config, production: Result<bool, EnvError>, project: string): (r: Result<string, EnvError>)
    ensures "STACK_NAME" in config && config["STACK_NAME"].Some? && config["STACK_NAME"].value != ""
            ==> r == Ok(config["STACK_NAME"].value)
    ensures ConfiguredStackName(config).None? ==>
              r == match production
                   case Ok(p) => Ok(project + if p then "_prod" else "_dev")
                   case Err(e) => Err(e)
  {
    match ConfiguredStackName(config)
    case Some(s) => Ok(s)
    case None =>
      match production
      case Ok(p) => Ok(DefaultStackName(project, p))
      case Err(e) => Err(e)
  }

  /** The environment compose file: the production one iff production. */
  function ComposeEnvFile(root: Path, production: bool): (p: Path)
    ensures |p| == |root| + 1 && p[..|root|] == root
    ensures p[|root|] == "docker-compose.prod.yml" <==> production
    ensures p[|root|] == "docker-compose.dev.yml" <==> !production
  {
    root + [if production then "docker-compose.prod.yml" else "docker-compose.dev.yml"]
  }

  /** One `cmd += f" {flag} {value}"` step of the command builders. */
  function Opt(flag: string, value: string): string {
    " " + flag + " " + value
  }

  /** The same flag once per value, in order. */
  function Opts(flag: string, values: seq<string>): string {
    if values == [] then "" else Opts(flag, values[..|values| - 1]) + Opt(flag, values[|values| - 1])
  }

  /** The words `Opts` stands for. */
  function OptArgs(flag: string, values: seq<string>): (r: seq<string>)
    ensures |r| == 2 * |values|
  {
    if values == [] then [] else OptArgs(flag, values[..|values| - 1]) + [flag, values[|values| - 1]]
  }

  /** The compose command line every helper builds: the two compose files,
      the project (stack) name and one `--profile` flag per profile. */
  function ComposeCmd(baseFile: string, envFile: string, stack: string, profiles: seq<string>): string {
    "docker compose" + Opt("-f", baseFile) + Opt("-f", envFile) + Opt("-p", stack) + Opts("--profile", profiles)
  }

  /** The words of that command line. */
  function ComposeArgs(baseFile: string, envFile: string, stack: string, profiles: seq<string>): (r: seq<string>)
    ensures |r| == 8 + 2 * |profiles|
  {
    ["docker", "compose", "-f", baseFile, "-f", envFile, "-p", stack] + OptArgs("--profile", profiles)
  }

  lemma {:induction false} JoinSnoc(parts: seq<string>, x: string)
    requires parts != []
    ensures Join(parts + [x], " ") == Join(parts, " ") + " " + x
  {
    if |parts| == 1 {
      assert (parts + [x])[1..] == [x];
    } else {
      assert (parts + [x])[1..] == parts[1..] + [x];
      JoinSnoc(parts[1..], x);
    }
  }

  lemma OptJoin(words: seq<string>, flag: string, value: string)
    requires words != []
    ensures Join(words + [flag, value], " ") == Join(words, " ") + Opt(flag, value)
  {
    JoinSnoc(words, flag);
    JoinSnoc(words + [flag], value);
    assert words + [flag, value] == words + [flag] + [value];
  }

  lemma {:induction false} OptsJoin(words: seq<string>, flag: string, values: seq<string>)
    requires words != []
    ensures Join(words + OptArgs(flag, values), " ") == Join(words, " ") + Opts(flag, values)
    decreases |values|
  {
    if values == [] {
      assert words + OptArgs(flag, values) == words;
    } else {
      var init := values[..|values| - 1];
      var last := values[|values| - 1];
      var front := words + OptArgs(flag, init);
      assert words + OptArgs(flag, values) == front + [flag, last];
      assert Join(front, " ") == Join(words, " ") + Opts(flag, init) by {
        OptsJoin(words, flag, init);
      }
      assert Join(front + [flag, last], " ") == Join(front, " ") + Opt(flag, last) by {
        OptJoin(front, flag, last);
      }
    }
  }

  /** The command line is exactly its words joined by single spaces. */
  lemma ComposeCmdJoin(baseFile: string, envFile: string, stack: string, profiles: seq<string>)
    ensures Join(ComposeArgs(baseFile, envFile, stack, profiles), " ") == ComposeCmd(baseFile, envFile, stack, profiles)
  {
    var w0 := ["docker", "compose"];
    var w1 := w0 + ["-f", baseFile];
    var w2 := w1 + ["-f", envFile];
    var w3 := w2 + ["-p", stack];
    assert Join(w0, " ") == "docker compose" by {
      assert w0[1..] == ["compose"];
    }
    OptJoin(w0, "-f", baseFile);
    OptJoin(w1, "-f", envFile);
    OptJoin(w2, "-p", stack);
    OptsJoin(w3, "--profile", profiles);
    assert w3 + OptArgs("--profile", profiles) == ComposeArgs(baseFile, envFile, stack, profiles);
  }

  /** So a shell that splits the command line on spaces sees the base file,
      the environment file, the stack and the profiles in their places,
      provided none of them contains a space. */
  lemma ComposeCmdWords(baseFile: string, envFile: string, stack: string, profiles: seq<string>)
    requires ' ' !in baseFile && ' ' !in envFile && ' ' !in stack
    requires forall k :: 0 <= k < |profiles| ==> ' ' !in profiles[k]
    ensures Split(ComposeCmd(baseFile, envFile, stack, profiles), ' ') == ComposeArgs(baseFile, envFile, stack, profiles)
  {
    var args := ComposeArgs(baseFile, envFile, stack, profiles);
    ComposeCmdJoin(baseFile, envFile, stack, profiles);
    forall k | 0 <= k < |args| ensures ' ' !in args[k] {
      if k >= 8 {
        OptArgsAt("--profile", profiles, (k - 8) / 2);
      }
    }
    SplitJoin(args, ' ');
  }

  lemma {:induction false} OptArgsAt(flag: string, values: seq<string>, k: nat)
    requires k < |values|
    ensures OptArgs(flag, values)[2 * k] == flag && OptArgs(flag, values)[2 * k + 1] == values[k]
    decreases |values|
  {
    if k < |values| - 1 {
      OptArgsAt(flag, values[..|values| - 1], k);
    }
  }

  predicate IsDigit(c: char) {
    '0' <= c <= '9'
  }

  predicate IsNumber(s: string) {
    s != [] && forall i :: 0 <= i < |s| ==> IsDigit(s[i])
  }

  /** The whole of `s` is `\d+\.\d+\.\d+`. */
  predicate IsVersionCore(s: string) {
    var parts := Split(s, '.');
    |parts| == 3 && IsNumber(parts[0]) && IsNumber(parts[1]) && IsNumber(parts[2])
  }

  /** `re.match(r"^\d+\.\d+\.\d+$", s)`: Python's `$` also matches before
      one final newline. */
  predicate IsVersionTag(s: string) {
    IsVersionCore(s) || (s != [] && s[|s| - 1] == '\n' && IsVersionCore(s[..|s| - 1]))
  }

  lemma NumberFree(s: string)
    requires IsNumber(s)
    ensures '.' !in s
  {
  }

  /** Three numbers joined by dots make a version tag. */
  lemma VersionTagOfNumbers(a: string, b: string, c: string)
    requires IsNumber(a) && IsNumber(b) && IsNumber(c)
    ensures IsVersionTag(a + "." + b + "." + c)
  {
    NumberFree(a);
    NumberFree(b);
    NumberFree(c);
    SplitFree(a, '.');
    SplitSnoc(a, '.', b);
    SplitSnoc(a + "." + b, '.', c);
    assert IsVersionCore(a + "." + b + "." + c);
  }

  const NoVersion: string := "0.0.0"

  /** Where the first version tag of the listing is, or `|tags|` when no
      tag is a version. */
  function FirstVersionIndex(tags: seq<string>): (i: nat)
    ensures i <= |tags|
    ensures i < |tags| ==> IsVersionTag(tags[i])
    ensures forall j :: 0 <= j < i ==> !IsVersionTag(tags[j])
  {
    if tags == [] then 0
    else if IsVersionTag(tags[0]) then 0
    else
      var i := 1 + FirstVersionIndex(tags[1..]);
      assert forall j :: 1 <= j < i ==> tags[j] == tags[1..][j - 1];
      i
  }

  /** The index is determined by the tags before it and the tag at it. */
  lemma FirstVersionIndexAt(tags: seq<string>, i: nat)
    requires i <= |tags|
    requires i < |tags| ==> IsVersionTag(tags[i])
    requires forall j :: 0 <= j < i ==> !IsVersionTag(tags[j])
    ensures FirstVersionIndex(tags) == i
  {
  }

  /** The fallback "0.0.0" is itself a version tag. */
  lemma NoVersionIsVersion()
    ensures IsVersionTag(NoVersion)
  {
    var zero := "0";
    VersionTagOfNumbers(zero, zero, zero);
    assert zero + "." + zero + "." + zero == NoVersion;
  }

  /** The remote selection: the first name that is a version, if any. */
  function FirstSemanticTag(names: seq<string>): (r: Option<string>)
    ensures r.None? <==> forall k :: 0 <= k < |names| ==> !IsVersionTag(names[k])
    ensures r.Some? ==> IsVersionTag(r.value) && r.value in names
    ensures r.Some? ==> FirstVersionIndex(names) < |names| && r.value == names[FirstVersionIndex(names)]
  {
    if names == [] then None
    else if IsVersionTag(names[0]) then Some(names[0])
    else
      var rest := FirstSemanticTag(names[1..]);
      assert forall k :: 1 <= k < |names| ==> names[k] == names[1..][k - 1];
      rest
  }

  /** The compose command for a project directory, once `is_production`
      and the stack name are known. */
  function ComposeCmdFor(root: Path, production: bool, stack: string, profiles: seq<string>): string {
    ComposeCmd(PathString(ComposeBaseFile(root)), PathString(ComposeEnvFile(root, production)), stack, profiles)
  }

  /** A line of `docker compose ls` that shows the stack running. */
  predicate ShowsRunning(line: string, stack: string) {
    StartsWith(line, stack) && Contains(line, "running")
  }

  /** The stack is up iff some line shows it running. */
  predicate ComposeUp(lines: seq<string>, stack: string) {
    exists k :: 0 <= k < |lines| && ShowsRunning(lines[k], stack)
  }

  /** The `docker ps` name filter: "_" joins stack and service in
      production, "-" otherwise. */
  function ContainerFilter(stack: string, production: bool, name: string): string {
    stack + (if production then "_" else "-") + name
  }

  function ContainerQuery(stack: string, production: bool, name: string): string {
    "docker ps -q -f name=" + ContainerFilter(stack, production, name) + " -f status=running | head -n1"
  }

  /** The container id in the captured output: the stripped output, or
      nothing when the output is blank. */
  function ContainerIdFrom(output: string): (r: Option<string>)
    ensures r.None? <==> forall i :: 0 <= i < |output| ==> IsSpace(output[i])
    ensures r.Some? ==> r.value == Strip(output) && r.value != [] && IsStripped(r.value)
  {
    StripShape(output);
    if output == [] then None
    else
      var id := Strip(output);
      if id == [] then None else Some(id)
  }

  /** The answer `confirm` reads in one (already lower-cased) line. */
  function ConfirmAnswer(choice: string): (r: Option<bool>)
    ensures r == Some(true) <==> choice in {"yes", "y", "ye"}
    ensures r == Some(false) <==> choice in {"", "no", "n"}
  {
    if choice == "" then Some(false)
    else if choice in {"yes", "y", "ye"} then Some(true)
    else if choice in {"no", "n"} then Some(false)
    else None
  }

  /** The index of the first line that answers the question, or `|lines|`
      when none does (Python's `input` then raises EOFError). */
  function AnswerIndex(lines: seq<string>): (i: nat)
    ensures i <= |lines|
    ensures i < |lines| ==> ConfirmAnswer(Lower(lines[i])).Some?
    ensures forall j :: 0 <= j < i ==> ConfirmAnswer(Lower(lines[j])).None?
  {
    if lines == [] then 0
    else if ConfirmAnswer(Lower(lines[0])).Some? then 0
    else
      var i := 1 + AnswerIndex(lines[1..]);
      assert forall j :: 1 <= j < i ==> lines[j] == lines[1..][j - 1];
      i
  }

  const RetryMessage: string := "Please respond with 'yes' or 'no' (or 'y' or 'n').\n"

  function Prompt(question: string): string {
    question + " [y/N] "
  }

  /** What `confirm` writes when the answer comes from line `k`. */
  function ConfirmTranscript(question: string, k: nat): string {
    if k == 0 then Prompt(question) else ConfirmTranscript(question, k - 1) + RetryMessage + Prompt(question)
  }

  /** The process environment of a command: inherited when `env` is
      empty or absent, otherwise the current environment overridden key by
      key by `env`. */
  function CommandEnv(osEnv: map<string, string>, env: Option<map<string, string>>): (r: Option<map<string, string>>)
    ensures r.None? <==> env.None? || env.value == map[]
    ensures r.Some? ==> r.value.Keys == osEnv.Keys + env.value.Keys
    ensures r.Some? ==> forall k :: k in env.value ==> r.value[k] == env.value[k]
    ensures r.Some? ==> forall k :: k in osEnv && k !in env.value ==> r.value[k] == osEnv[k]
  {
    if env.None? || env.value == map[] then None else Some(osEnv + env.value)
  }

  /** What running a command through a helper does. */
  datatype ExecAction =
    | Simulated(message: string)
    | Executed(banner: Option<string>, cmd: string, env: Option<map<string, string>>)

  function Executing(cmd: string, hidden: bool, osEnv: map<string, string>, env: Option<map<string, string>>): ExecAction {
    Executed(if hidden then None else Some("Executing: " + cmd), cmd, CommandEnv(osEnv, env))
  }

  /** `execute_cmd` of CommandHelper, cli_helpers and MaintenanceCommand:
      simulation applies only to commands that are not hidden. */
  function ExecuteCmd(cmd: string, simulate: bool, hidden: bool, osEnv: map<string, string>, env: Option<map<string, string>>): (r: ExecAction)
    ensures r.Simulated? <==> simulate && !hidden
    ensures r.Simulated? ==> r.message == "Simulating: " + cmd
    ensures r.Executed? ==> r.cmd == cmd && r.env == CommandEnv(osEnv, env) && (r.banner.None? <==> hidden)
  {
    if simulate && !hidden then Simulated("Simulating: " + cmd) else Executing(cmd, hidden, osEnv, env)
  }

  /** `ScriptHelper.execute`: simulation applies unless forced, hidden or not. */
  function ScriptExecute(cmd: string, simulateExecution: bool, force: bool, hidden: bool,
                         osEnv: map<string, string>, env: Option<map<string, string>>): (r: ExecAction)
    ensures r.Simulated? <==> simulateExecution && !force
    ensures r.Simulated? ==> r.message == "Simulating: " + cmd
    ensures r.Executed? ==> r.cmd == cmd && r.env == CommandEnv(osEnv, env) && (r.banner.None? <==> hidden)
  {
    if simulateExecution && !force then Simulated("Simulating: " + cmd) else Executing(cmd, hidden, osEnv, env)
  }

  /** Where the two decisions part: a hidden command while simulating runs
      under `execute_cmd` and is only printed under `ScriptHelper.execute`. */
  lemma HiddenWhileSimulating(cmd: string, osEnv: map<string, string>, env: Option<map<string, string>>)
    ensures ExecuteCmd(cmd, true, true, osEnv, env).Executed?
    ensures ScriptExecute(cmd, true, false, true, osEnv, env) == Simulated("Simulating: " + cmd)
    ensures ExecuteCmd(cmd, true, false, osEnv, env) == ScriptExecute(cmd, true, false, false, osEnv, env)
  {
  }

  /** The subject alternative names of the self-signed certificate. */
  datatype GeneralName = DnsName(name: string) | IpAddress(address: string)

  /** The entries the loop over the IP addresses appends. */
  function AddressNames(addresses: seq<string>): (r: seq<GeneralName>)
    ensures |r| == 2 * |addresses|
  {
    if addresses == [] then []
    else
      var last := addresses[|addresses| - 1];
      AddressNames(addresses[..|addresses| - 1]) + [DnsName(last), IpAddress(last)]
  }

  /** The first address `ipaddress.ip_address` rejects, or `|addresses|`. */
  function FirstNonAddress(addresses: seq<string>): (i: nat)
    ensures i <= |addresses|
    ensures i < |addresses| ==> !IsIpAddress(addresses[i])
    ensures forall j :: 0 <= j < i ==> IsIpAddress(addresses[j])
  {
    if addresses == [] then 0
    else if !IsIpAddress(addresses[0]) then 0
    else
      var i := 1 + FirstNonAddress(addresses[1..]);
      assert forall j :: 1 <= j < i ==> addresses[j] == addresses[1..][j - 1];
      i
  }

  /** Any index with only addresses before it and a non-address (or the
      end) at it is the first non-address. */
  lemma FirstNonAddressIs(addresses: seq<string>, i: nat)
    requires i <= |addresses|
    requires i < |addresses| ==> !IsIpAddress(addresses[i])
    requires forall j :: 0 <= j < i ==> IsIpAddress(addresses[j])
    ensures FirstNonAddress(addresses) == i
  {
  }

  /** `alt_names`: the host name, then each address as a DNS name and as
      an IP address (`None` and `[]` add no addresses); the first address
      that is no IP address raises `ValueError`, reported here as that
      address. */
  function AltNames(hostname: string, addresses: Option<seq<string>>): Result<seq<GeneralName>, string> {
    var list := addresses.GetOr([]);
    var i := FirstNonAddress(list);
    if i < |list| then Err(list[i]) else Ok([DnsName(hostname)] + AddressNames(list))
  }

  /** Where each address lands in the list. */
  lemma {:induction false} AddressNamesAt(addresses: seq<string>, k: nat)
    requires k < |addresses|
    ensures AddressNames(addresses)[2 * k] == DnsName(addresses[k])
    ensures AddressNames(addresses)[2 * k + 1] == IpAddress(addresses[k])
    decreases |addresses|
  {
    var init := addresses[..|addresses| - 1];
    if k < |init| {
      AddressNamesAt(init, k);
    }
  }

  /** The names are built exactly when every address is an IP address;
      otherwise the first one that is not is the error. */
  lemma AltNamesShape(hostname: string, addresses: seq<string>)
    ensures var r := AltNames(hostname, Some(addresses));
      && (r.Ok? <==> forall k :: 0 <= k < |addresses| ==> IsIpAddress(addresses[k]))
      && (r.Err? ==> r.error in addresses && !IsIpAddress(r.error)
                     && r.error == addresses[FirstNonAddress(addresses)])
      && (r.Ok? ==>
            && |r.value| == 1 + 2 * |addresses|
            && r.value[0] == DnsName(hostname)
            && forall k :: 0 <= k < |addresses| ==>
                 r.value[1 + 2 * k] == DnsName(addresses[k]) && r.value[2 + 2 * k] == IpAddress(addresses[k]))
  {
    AltNamesOutcome(hostname, addresses);
    if FirstNonAddress(addresses) == |addresses| {
      AltNamesLayout(hostname, addresses);
    }
  }

  lemma AltNamesOutcome(hostname: string, addresses: seq<string>)
    ensures var r := AltNames(hostname, Some(addresses));
      && (r.Ok? <==> forall k :: 0 <= k < |addresses| ==> IsIpAddress(addresses[k]))
      && (r.Err? ==> r.error in addresses && !IsIpAddress(r.error)
                     && r.error == addresses[FirstNonAddress(addresses)])
  {
    var i := FirstNonAddress(addresses);
    if i < |addresses| {
      assert AltNames(hostname, Some(addresses)) == Err(addresses[i]);
    }
  }

  lemma AltNamesLayout(hostname: string, addresses: seq<string>)
    ensures var names := [DnsName(hostname)] + AddressNames(addresses);
      && |names| == 1 + 2 * |addresses|
      && names[0] == DnsName(hostname)
      && forall k :: 0 <= k < |addresses| ==>
           names[1 + 2 * k] == DnsName(addresses[k]) && names[2 + 2 * k] == IpAddress(addresses[k])
  {
    AddressNamesLayout(addresses);
    PrependLayout(DnsName(hostname), addresses, AddressNames(addresses));
  }

  lemma AddressNamesLayout(addresses: seq<string>)
    ensures forall k :: 0 <= k < |addresses| ==>
      AddressNames(addresses)[2 * k] == DnsName(addresses[k]) && AddressNames(addresses)[2 * k + 1] == IpAddress(addresses[k])
  {
    forall k | 0 <= k < |addresses|
      ensures AddressNames(addresses)[2 * k] == DnsName(addresses[k])
      ensures AddressNames(addresses)[2 * k + 1] == IpAddress(addresses[k])
    {
      AddressNamesAt(addresses, k);
    }
  }

  lemma PrependLayout(first: GeneralName, addresses: seq<string>, tail: seq<GeneralName>)
    requires |tail| == 2 * |addresses|
    requires forall k :: 0 <= k < |addresses| ==>
      tail[2 * k] == DnsName(addresses[k]) && tail[2 * k + 1] == IpAddress(addresses[k])
    ensures var names := [first] + tail;
      && |names| == 1 + 2 * |addresses|
      && names[0] == first
      && forall k :: 0 <= k < |addresses| ==>
           names[1 + 2 * k] == DnsName(addresses[k]) && names[2 + 2 * k] == IpAddress(addresses[k])
  {
    var names := [first] + tail;
    forall k | 0 <= k < |addresses|
      ensures names[1 + 2 * k] == DnsName(addresses[k]) && names[2 + 2 * k] == IpAddress(addresses[k])
    {
      assert names[1 + 2 * k] == tail[2 * k];
      assert names[2 + 2 * k] == tail[2 * k + 1];
    }
  }

  /** A host name such as `localhost` in the address list stops the
      certificate. */
  lemma HostNameInAddressesFails(hostname: string, addresses: seq<string>, k: nat)
    requires k < |addresses|
    requires '.' !in addresses[k] && ':' !in addresses[k]
    ensures AltNames(hostname, Some(addresses)).Err?
  {
    HostNameIsNoAddress(addresses[k]);
  }
}
