/** The helpers that keep the `is_production` answer on the instance:
    ScriptHelper (adit_radis_shared/script_helper.py) and MaintenanceCommand
    (adit_radis_shared/maintenance_commands/management/base/maintenance_command.py).
    Their project name and root are fixed when the instance is made, so
    the only state a call changes is the cached answer; each operation is
    stated here as a function from the cache before the call to its result
    and the cache after it. */
module InstanceSteps {
  import opened Wrappers
  import opened Text
  import opened OpsSpec

  /** `stack_name` / `get_stack_name`: `.env` is read, and `is_production`
      is consulted only when STACK_NAME is not set. */
  function StackNameCall(project: string, cache: Option<bool>, envFile: Option<Config>): (r: (Result<string, EnvError>, Option<bool>))
    ensures r.1 == cache || r.1 == CachedProduction(cache, envFile).cache
    ensures r.0 == match LoadConfig(envFile)
                   case Err(e) => Err(e)
                   case Ok(config) => StackNameFrom(config, CachedProduction(cache, envFile).result, project)
  {
    match LoadConfig(envFile)
    case Err(e) => (Err(e), cache)
    case Ok(config) =>
      match ConfiguredStackName(config)
      case Some(name) => (Ok(name), cache)
      case None =>
        var call := CachedProduction(cache, envFile);
        match call.result
        case Err(e) => (Err(e), call.cache)
        case Ok(p) => (Ok(DefaultStackName(project, p)), call.cache)
  }

  /** `compose_env_file` / `get_compose_env_file`. */
  function ComposeEnvFileCall(root: Path, cache: Option<bool>, envFile: Option<Config>): (r: (Result<Path, EnvError>, Option<bool>))
    ensures r.1 == CachedProduction(cache, envFile).cache
    ensures r.0.Ok? <==> CachedProduction(cache, envFile).result.Ok?
    ensures r.0.Ok? ==> r.0.value == ComposeEnvFile(root, CachedProduction(cache, envFile).result.value)
  {
    var call := CachedProduction(cache, envFile);
    match call.result
    case Err(e) => (Err(e), call.cache)
    case Ok(p) => (Ok(ComposeEnvFile(root, p)), call.cache)
  }

  /** `build_compose_cmd`: base file, env file, stack name, then the
      profiles; `if profiles:` lets `None` and `[]` add nothing. */
  function ComposeCmdCall(project: string, root: Path, cache: Option<bool>, envFile: Option<Config>, profiles: Option<seq<string>>)
    : (r: (Result<string, EnvError>, Option<bool>))
  {
    var (envPath, c1) := ComposeEnvFileCall(root, cache, envFile);
    match envPath
    case Err(e) => (Err(e), c1)
    case Ok(envPath) =>
      var (stack, c2) := StackNameCall(project, c1, envFile);
      match stack
      case Err(e) => (Err(e), c2)
      case Ok(stack) => (Ok(ComposeCmd(PathString(ComposeBaseFile(root)), PathString(envPath), stack, profiles.GetOr([]))), c2)
  }

  /** `check_compose_up` over the lines of `docker compose ls`: the stack
      name is looked up for each line read. */
  function ComposeUpCall(project: string, cache: Option<bool>, envFile: Option<Config>, lines: seq<string>)
    : (r: (Result<bool, EnvError>, Option<bool>))
  {
    if lines == [] then (Ok(false), cache)
    else
      match StackNameCall(project, cache, envFile)
      case (Err(e), c1) => (Err(e), c1)
      case (Ok(stack), c1) => (Ok(ComposeUp(lines, stack)), c1)
  }

  /** `find_running_container_id`: `is_production`, then the stack name;
      the query and the id read from what it printed. */
  function ContainerIdCall(project: string, cache: Option<bool>, envFile: Option<Config>, name: string, output: string)
    : (r: (Result<(string, Option<string>), EnvError>, Option<bool>))
  {
    var call := CachedProduction(cache, envFile);
    match call.result
    case Err(e) => (Err(e), call.cache)
    case Ok(production) =>
      var (stack, c2) := StackNameCall(project, call.cache, envFile);
      match stack
      case Err(e) => (Err(e), c2)
      case Ok(stack) => (Ok((ContainerQuery(stack, production, name), ContainerIdFrom(output))), c2)
  }

  /** A stack name, once given, is given again with the same `.env`, and
      the second call leaves the cache alone. */
  lemma StackNameCallSettles(project: string, cache: Option<bool>, envFile: Option<Config>)
    ensures var (s, c1) := StackNameCall(project, cache, envFile);
      s.Ok? ==> StackNameCall(project, c1, envFile) == (s, c1)
  {
    var (s, c1) := StackNameCall(project, cache, envFile);
    if s.Ok? && c1 != cache {
      CacheSettles(cache, envFile, envFile);
    }
  }

  /** With a readable `.env` whose ENVIRONMENT is valid, or an answer
      already cached, the command is the compose command for the answer,
      the stack name STACK_NAME or the project gives, and the profiles. */
  lemma ComposeCmdCallSpec(project: string, root: Path, cache: Option<bool>, envFile: Option<Config>, profiles: Option<seq<string>>)
    requires envFile.Some?
    requires cache.Some? || EvaluateProduction(envFile).Ok?
    ensures var p := CachedProduction(cache, envFile).result;
      && p.Ok?
      && ComposeCmdCall(project, root, cache, envFile, profiles)
         == (Ok(ComposeCmdFor(root, p.value, StackNameFrom(envFile.value, p, project).value, profiles.GetOr([]))),
             Some(p.value))
  {
    var call := CachedProduction(cache, envFile);
    CacheSettles(cache, envFile, envFile);
    assert CachedProduction(call.cache, envFile) == call;
  }

  /** Without a `.env` file every call stops before it computes anything,
      and the cache is not filled. */
  lemma MissingEnvFileStops(project: string, root: Path, profiles: Option<seq<string>>, name: string, output: string)
    ensures ComposeCmdCall(project, root, None, None, profiles) == (Err(MissingEnvFile), None)
    ensures StackNameCall(project, None, None) == (Err(MissingEnvFile), None)
    ensures ContainerIdCall(project, None, None, name, output) == (Err(MissingEnvFile), None)
  {
  }

  /** Why `prepare_environment` stops. */
  datatype PrepareError = EnvFailure(error: EnvError) | InvalidBackupDir(path: string)

  /** `config.get("BACKUP_DIR")` when it is truthy. */
  function BackupDir(config: Config): (r: Option<string>)
    ensures r.Some? <==> "BACKUP_DIR" in config && config["BACKUP_DIR"].Some? && config["BACKUP_DIR"].value != ""
    ensures r.Some? ==> r == config["BACKUP_DIR"]
  {
    if "BACKUP_DIR" in config && config["BACKUP_DIR"].Some? && config["BACKUP_DIR"].value != "" then config["BACKUP_DIR"]
    else None
  }

  /** The directories after `prepare_environment`, for the directories
      and the other files that exist before it: a missing or empty
      BACKUP_DIR changes nothing, a path that does not exist is created,
      and a path that exists but is not a directory stops the command. */
  function PreparedDirs(envFile: Option<Config>, dirs: set<string>, files: set<string>): (r: Result<set<string>, PrepareError>)
    ensures r.Err? <==> envFile.None? || (BackupDir(envFile.value).Some? && BackupDir(envFile.value).value in files - dirs)
    ensures r.Ok? ==> dirs <= r.value
    ensures r.Ok? && BackupDir(envFile.value).None? ==> r.value == dirs
    ensures r.Ok? && BackupDir(envFile.value).Some? ==> r.value == dirs + {BackupDir(envFile.value).value}
  {
    match envFile
    case None => Err(EnvFailure(MissingEnvFile))
    case Some(config) =>
      match BackupDir(config)
      case None => Ok(dirs)
      case Some(path) =>
        var present := path in dirs || path in files;
        var after := if present then dirs else dirs + {path};
        if path !in after then Err(InvalidBackupDir(path)) else Ok(after)
  }

  /** Preparing twice is preparing once. */
  lemma PreparedDirsIdempotent(envFile: Option<Config>, dirs: set<string>, files: set<string>)
    ensures var r := PreparedDirs(envFile, dirs, files);
      r.Ok? ==> PreparedDirs(envFile, r.value, files) == r
  {
  }

  /** The file system `prepare_environment` looks at: the directories
      and the other files that exist. */
  class FileSystem {
    var dirs: set<string>
    var files: set<string>

    constructor (dirs: set<string>, files: set<string>)
      ensures this.dirs == dirs && this.files == files
    {
      this.dirs := dirs;
      this.files := files;
    }

    /** `Path.mkdir(parents=True, exist_ok=True)` for the path itself. */
    method MakeDir(path: string)
      modifies this
      ensures dirs == old(dirs) + {path} && files == old(files)
    {
      dirs := dirs + {path};
    }
  }
}
