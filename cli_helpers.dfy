/** adit_radis_shared/cli_helpers.py: the same operations as module
    functions over three module globals. PROJECT_ID and ROOT_PATH are set
    by the importing project, and an unset one fails an assertion when it
    is read; `_is_production_cached` is filled by the first valid
    `is_production` and answers every later call. */
module CliHelpers {
  import opened Wrappers
  import opened Text
  import opened OpsSpec
  import OpsMethods

  /** Why a call stops: an unset global fails its assertion, a bad `.env`
      exits. */
  datatype Failure = ProjectIdNotSet | RootPathNotSet | Env(error: EnvError)

  /** The three module globals. */
  datatype Globals = Globals(projectId: Option<string>, rootPath: Option<Path>, cache: Option<bool>)

  function LiftEnv<T>(r: Result<T, EnvError>): (s: Result<T, Failure>)
    ensures r.Ok? <==> s.Ok?
    ensures r.Ok? ==> s.value == r.value
    ensures r.Err? ==> s == Err(Env(r.error))
  {
    match r
    case Ok(v) => Ok(v)
    case Err(e) => Err(Env(e))
  }

  /** `load_config_from_env_file`: ROOT_PATH is read first. */
  function LoadConfigOf(g: Globals, envFile: Option<Config>): (r: Result<Config, Failure>)
    ensures r.Ok? <==> g.rootPath.Some? && envFile.Some?
    ensures r.Ok? ==> r.value == envFile.value
    ensures g.rootPath.None? ==> r == Err(RootPathNotSet)
  {
    if g.rootPath.None? then Err(RootPathNotSet) else LiftEnv(LoadConfig(envFile))
  }

  /** `is_production`: the answer and the globals afterwards. */
  function ProductionStep(g: Globals, envFile: Option<Config>): (r: (Result<bool, Failure>, Globals))
    ensures r.1.projectId == g.projectId && r.1.rootPath == g.rootPath
    ensures g.cache.Some? ==> r == (Ok(g.cache.value), g)
    ensures g.cache.None? && g.rootPath.None? ==> r == (Err(RootPathNotSet), g)
    ensures g.cache.None? && g.rootPath.Some? ==> r.0 == LiftEnv(EvaluateProduction(envFile))
    ensures r.0.Ok? ==> r.1.cache == Some(r.0.value)
    ensures r.0.Err? ==> r.1 == g
  {
    if g.cache.Some? then (Ok(g.cache.value), g)
    else if g.rootPath.None? then (Err(RootPathNotSet), g)
    else
      var call := CachedProduction(g.cache, envFile);
      (LiftEnv(call.result), g.(cache := call.cache))
  }

  /** `get_stack_name`: `.env` is read, then `is_production` and
      PROJECT_ID only when STACK_NAME is not set. */
  function StackNameStep(g: Globals, envFile: Option<Config>): (r: (Result<string, Failure>, Globals))
    ensures r.1 == g || r.1 == ProductionStep(g, envFile).1
    ensures g.rootPath.None? ==> r == (Err(RootPathNotSet), g)
    ensures g.rootPath.Some? && envFile.None? ==> r.0.Err? && r.0.error == Env(LoadConfig(envFile).error)
    ensures g.rootPath.Some? && envFile.Some? && g.projectId.Some? ==>
              r.0 == LiftEnv(StackNameFrom(envFile.value, CachedProduction(g.cache, envFile).result, g.projectId.value))
    ensures g.rootPath.Some? && envFile.Some? && g.projectId.None? ==>
              r.0 == match ConfiguredStackName(envFile.value)
                     case Some(name) => Ok(name)
                     case None => if CachedProduction(g.cache, envFile).result.Ok? then Err(ProjectIdNotSet)
                                  else Err(Env(CachedProduction(g.cache, envFile).result.error))
  {
    match LoadConfigOf(g, envFile)
    case Err(e) => (Err(e), g)
    case Ok(config) =>
      match ConfiguredStackName(config)
      case Some(name) => (Ok(name), g)
      case None =>
        var (p, g1) := ProductionStep(g, envFile);
        match p
        case Err(e) => (Err(e), g1)
        case Ok(production) =>
          match g1.projectId
          case None => (Err(ProjectIdNotSet), g1)
          case Some(id) => (Ok(DefaultStackName(id, production)), g1)
  }

  /** `get_compose_env_file`: `is_production` first, then ROOT_PATH. */
  function ComposeEnvFileStep(g: Globals, envFile: Option<Config>): (r: (Result<Path, Failure>, Globals)) {
    var (p, g1) := ProductionStep(g, envFile);
    match p
    case Err(e) => (Err(e), g1)
    case Ok(production) =>
      match g1.rootPath
      case None => (Err(RootPathNotSet), g1)
      case Some(root) => (Ok(ComposeEnvFile(root, production)), g1)
  }

  /** `build_compose_cmd`: base file, env file, stack name, in that order. */
  function ComposeCmdStep(g: Globals, envFile: Option<Config>, profiles: Option<seq<string>>): (r: (Result<string, Failure>, Globals)) {
    match g.rootPath
    case None => (Err(RootPathNotSet), g)
    case Some(root) =>
      var (envPath, g1) := ComposeEnvFileStep(g, envFile);
      match envPath
      case Err(e) => (Err(e), g1)
      case Ok(envPath) =>
        var (stack, g2) := StackNameStep(g1, envFile);
        match stack
        case Err(e) => (Err(e), g2)
        case Ok(stack) =>
          (Ok(ComposeCmd(PathString(ComposeBaseFile(root)), PathString(envPath), stack, profiles.GetOr([]))), g2)
  }

  /** `check_compose_up` over the lines of `docker compose ls`: the stack
      name is looked up for each line, so no lines means no lookup. */
  function ComposeUpStep(g: Globals, envFile: Option<Config>, lines: seq<string>): (r: (Result<bool, Failure>, Globals)) {
    if lines == [] then (Ok(false), g)
    else
      match StackNameStep(g, envFile)
      case (Err(e), g1) => (Err(e), g1)
      case (Ok(stack), g1) => (Ok(ComposeUp(lines, stack)), g1)
  }

  /** `find_running_container_id`: `is_production` first, then the stack
      name; `output` is what the query printed. */
  function ContainerIdStep(g: Globals, envFile: Option<Config>, name: string, output: string)
    : (r: (Result<(string, Option<string>), Failure>, Globals))
  {
    var (p, g1) := ProductionStep(g, envFile);
    match p
    case Err(e) => (Err(e), g1)
    case Ok(production) =>
      var (stack, g2) := StackNameStep(g1, envFile);
      match stack
      case Err(e) => (Err(e), g2)
      case Ok(stack) => (Ok((ContainerQuery(stack, production, name), ContainerIdFrom(output))), g2)
  }

  /** Once `is_production` has answered, it answers the same way with the
      same globals whatever `.env` holds next. */
  lemma ProductionSettles(g: Globals, envFile: Option<Config>, later: Option<Config>)
    ensures var (p, g1) := ProductionStep(g, envFile);
      p.Ok? ==> ProductionStep(g1, later) == (p, g1)
  {
  }

  /** `get_stack_name` is stable: a second call with the same `.env`
      gives the same name and changes nothing more. */
  lemma StackNameSettles(g: Globals, envFile: Option<Config>)
    ensures var (s, g1) := StackNameStep(g, envFile);
      s.Ok? ==> StackNameStep(g1, envFile) == (s, g1)
  {
    var (s, g1) := StackNameStep(g, envFile);
    if s.Ok? && g1 != g {
      ProductionSettles(g, envFile, envFile);
    }
  }

  /** The compose command uses the production file iff the cached answer
      is production, and the stack name a later `get_stack_name` gives. */
  lemma ComposeCmdStepSpec(g: Globals, envFile: Option<Config>, profiles: Option<seq<string>>)
    ensures var (cmd, g2) := ComposeCmdStep(g, envFile, profiles);
      cmd.Ok? ==>
        && g.rootPath.Some? && envFile.Some? && g2.cache.Some?
        && ProductionStep(g, envFile) == (Ok(g2.cache.value), g2)
        && StackNameStep(g2, envFile).0.Ok?
        && cmd.value == ComposeCmdFor(g.rootPath.value, g2.cache.value, StackNameStep(g2, envFile).0.value, profiles.GetOr([]))
  {
    var (cmd, g2) := ComposeCmdStep(g, envFile, profiles);
    if cmd.Ok? {
      var (envPath, g1) := ComposeEnvFileStep(g, envFile);
      StackNameSettles(g1, envFile);
      ProductionSettles(g, envFile, envFile);
    }
  }

  /** A call that succeeds on a project whose STACK_NAME is not set used
      PROJECT_ID and the environment. */
  lemma DefaultStackNameStep(g: Globals, envFile: Option<Config>)
    requires g.rootPath.Some? && envFile.Some? && ConfiguredStackName(envFile.value).None?
    ensures var (s, g1) := StackNameStep(g, envFile);
      s.Ok? <==> g.projectId.Some? && ProductionStep(g, envFile).0.Ok?
  {
  }

  /** The module globals of cli_helpers. */
  class Module {
    var projectId: Option<string>
    var rootPath: Option<Path>
    var isProductionCached: Option<bool>

    function State(): Globals
      reads this
    {
      Globals(projectId, rootPath, isProductionCached)
    }

    /** The module as imported: nothing set, nothing cached. */
    constructor ()
      ensures State() == Globals(None, None, None)
    {
      projectId := None;
      rootPath := None;
      isProductionCached := None;
    }

    /** The importing project assigns PROJECT_ID and ROOT_PATH. */
    method SetProject(id: string, root: Path)
      modifies this
      ensures State() == old(State()).(projectId := Some(id), rootPath := Some(root))
    {
      projectId := Some(id);
      rootPath := Some(root);
    }

    /** `get_project_id` */
    function GetProjectId(): (r: Result<string, Failure>)
      reads this
      ensures r.Ok? <==> projectId.Some?
      ensures r.Ok? ==> r.value == projectId.value
      ensures r.Err? ==> r.error == ProjectIdNotSet
    {
      match projectId
      case None => Err(ProjectIdNotSet)
      case Some(id) => Ok(id)
    }

    /** `get_root_path` */
    function GetRootPath(): (r: Result<Path, Failure>)
      reads this
      ensures r.Ok? <==> rootPath.Some?
      ensures r.Ok? ==> r.value == rootPath.value
      ensures r.Err? ==> r.error == RootPathNotSet
    {
      match rootPath
      case None => Err(RootPathNotSet)
      case Some(root) => Ok(root)
    }

    method IsProduction(envFile: Option<Config>) returns (r: Result<bool, Failure>)
      modifies this
      ensures (r, State()) == ProductionStep(old(State()), envFile)
    {
      if isProductionCached.None? {
        var root := GetRootPath();
        if root.Err? {
          return Err(root.error);
        }
        var config := LoadConfig(envFile);
        if config.Err? {
          return Err(Env(config.error));
        }
        var checked := CheckEnvironment(config.value);
        if checked.Err? {
          return Err(Env(checked.error));
        }
        isProductionCached := Some(checked.value);
      }
      return Ok(isProductionCached.value);
    }

    method GetStackName(envFile: Option<Config>) returns (r: Result<string, Failure>)
      modifies this
      ensures (r, State()) == StackNameStep(old(State()), envFile)
    {
      var root := GetRootPath();
      if root.Err? {
        return Err(root.error);
      }
      var config := LoadConfig(envFile);
      if config.Err? {
        return Err(Env(config.error));
      }
      var configured := ConfiguredStackName(config.value);
      if configured.Some? {
        return Ok(configured.value);
      }
      var production := IsProduction(envFile);
      if production.Err? {
        return Err(production.error);
      }
      var id := GetProjectId();
      if id.Err? {
        return Err(id.error);
      }
      return Ok(DefaultStackName(id.value, production.value));
    }

    method GetComposeEnvFile(envFile: Option<Config>) returns (r: Result<Path, Failure>)
      modifies this
      ensures (r, State()) == ComposeEnvFileStep(old(State()), envFile)
    {
      var production := IsProduction(envFile);
      if production.Err? {
        return Err(production.error);
      }
      var root := GetRootPath();
      if root.Err? {
        return Err(root.error);
      }
      return Ok(ComposeEnvFile(root.value, production.value));
    }

    /** `build_compose_cmd`, with the `+=` loop over the profiles. */
    method BuildComposeCmd(envFile: Option<Config>, profiles: Option<seq<string>>) returns (r: Result<string, Failure>)
      modifies this
      ensures (r, State()) == ComposeCmdStep(old(State()), envFile, profiles)
    {
      var root := GetRootPath();
      if root.Err? {
        return Err(root.error);
      }
      var cmd := "docker compose";
      cmd := cmd + Opt("-f", PathString(ComposeBaseFile(root.value)));
      var envPath := GetComposeEnvFile(envFile);
      if envPath.Err? {
        return Err(envPath.error);
      }
      cmd := cmd + Opt("-f", PathString(envPath.value));
      var stack := GetStackName(envFile);
      if stack.Err? {
        return Err(stack.error);
      }
      cmd := cmd + Opt("-p", stack.value);
      if profiles.Some? && profiles.value != [] {
        cmd := OpsMethods.AppendProfiles(cmd, profiles.value);
      } else {
        assert Opts("--profile", profiles.GetOr([])) == "";
        assert cmd + "" == cmd;
      }
      return Ok(cmd);
    }

    /** `check_compose_up`: `output` is what `docker compose ls` printed;
        `get_stack_name` is called again for every line. */
    method CheckComposeUp(envFile: Option<Config>, output: string) returns (r: Result<bool, Failure>)
      modifies this
      ensures (r, State()) == ComposeUpStep(old(State()), envFile, SplitLines(output))
    {
      var lines := SplitLines(output);
      ghost var g0 := State();
      ghost var first := StackNameStep(g0, envFile);
      StackNameSettles(g0, envFile);
      var i := 0;
      while i < |lines|
        invariant 0 <= i <= |lines|
        invariant i == 0 ==> State() == g0
        invariant i > 0 ==> first.0.Ok? && State() == first.1
        invariant i > 0 ==> forall j :: 0 <= j < i ==> !ShowsRunning(lines[j], first.0.value)
      {
        var stack := GetStackName(envFile);
        if stack.Err? {
          return Err(stack.error);
        }
        if StartsWith(lines[i], stack.value) && Contains(lines[i], "running") {
          return Ok(true);
        }
        i := i + 1;
      }
      return Ok(false);
    }

    /** `find_running_container_id`: the query and the id read from its
        output. */
    method FindRunningContainerId(envFile: Option<Config>, name: string, output: string)
      returns (r: Result<(string, Option<string>), Failure>)
      modifies this
      ensures (r, State()) == ContainerIdStep(old(State()), envFile, name, output)
    {
      var production := IsProduction(envFile);
      if production.Err? {
        return Err(production.error);
      }
      var stack := GetStackName(envFile);
      if stack.Err? {
        return Err(stack.error);
      }
      var query := ContainerQuery(stack.value, production.value, name);
      return Ok((query, ContainerIdFrom(output)));
    }
  }
}
