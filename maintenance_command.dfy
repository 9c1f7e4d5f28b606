/** `MaintenanceCommand`, the base of the maintenance management commands
    (adit_radis_shared/maintenance_commands/management/base/maintenance_command.py):
    the project root and id come from the Django settings, the first
    valid `is_production` answer is kept on the instance, and a bad `.env`
    prints a message and raises `Exit(1)`, which is the `Err` of each
    method. */
module MaintenanceCommands {
  import opened Wrappers
  import opened Text
  import opened OpsSpec
  import opened InstanceSteps
  import OpsMethods

  class MaintenanceCommand {
    const rootPath: Path
    const projectId: string
    var isProductionCached: Option<bool>

    /** A command instance for the settings ROOT_PATH and PROJECT_ID. */
    constructor (rootPath: Path, projectId: string)
      ensures this.rootPath == rootPath && this.projectId == projectId
      ensures isProductionCached == None
    {
      this.rootPath := rootPath;
      this.projectId := projectId;
      isProductionCached := None;
    }

    /** `load_config_from_env_file`: a missing `.env` raises `Exit(1)`. */
    method LoadConfigFromEnvFile(envFile: Option<Config>) returns (r: Result<Config, EnvError>)
      ensures r.Err? <==> envFile.None?
      ensures r.Err? ==> r.error == MissingEnvFile
      ensures r.Ok? ==> r.value == envFile.value
    {
      if envFile.None? {
        return Err(MissingEnvFile);
      }
      return Ok(envFile.value);
    }

    method IsProduction(envFile: Option<Config>) returns (r: Result<bool, EnvError>)
      modifies this
      ensures CachedCall(r, isProductionCached) == CachedProduction(old(isProductionCached), envFile)
    {
      if isProductionCached.None? {
        var config := LoadConfigFromEnvFile(envFile);
        if config.Err? {
          return Err(config.error);
        }
        var checked := CheckEnvironment(config.value);
        if checked.Err? {
          return Err(checked.error);
        }
        isProductionCached := Some(checked.value);
      }
      return Ok(isProductionCached.value);
    }

    method GetComposeEnvFile(envFile: Option<Config>) returns (r: Result<Path, EnvError>)
      modifies this
      ensures (r, isProductionCached) == ComposeEnvFileCall(rootPath, old(isProductionCached), envFile)
    {
      var production := IsProduction(envFile);
      if production.Err? {
        return Err(production.error);
      }
      return Ok(ComposeEnvFile(rootPath, production.value));
    }

    method GetStackName(envFile: Option<Config>) returns (r: Result<string, EnvError>)
      modifies this
      ensures (r, isProductionCached) == StackNameCall(projectId, old(isProductionCached), envFile)
    {
      var config := LoadConfigFromEnvFile(envFile);
      if config.Err? {
        return Err(config.error);
      }
      var configured := ConfiguredStackName(config.value);
      if configured.Some? {
        return Ok(configured.value);
      }
      var production := IsProduction(envFile);
      if production.Err? {
        return Err(production.error);
      }
      return Ok(DefaultStackName(projectId, production.value));
    }

    /** `build_compose_cmd`: the profiles are added only when `profiles`
        is truthy. */
    method BuildComposeCmd(envFile: Option<Config>, profiles: Option<seq<string>>) returns (r: Result<string, EnvError>)
      modifies this
      ensures (r, isProductionCached) == ComposeCmdCall(projectId, rootPath, old(isProductionCached), envFile, profiles)
    {
      var cmd := "docker compose";
      cmd := cmd + Opt("-f", PathString(ComposeBaseFile(rootPath)));
      var envPath := GetComposeEnvFile(envFile);
      if envPath.Err? {
        return Err(envPath.error);
      }
      cmd := cmd + Opt("-f", PathString(envPath.value));
      var stack := GetStackName(envFile);
      if stack.Err? {
        return Err(stack.error);
      }
      cmd := cmd + Opt("-p", stack.value);
      if profiles.Some? && profiles.value != [] {
        cmd := OpsMethods.AppendProfiles(cmd, profiles.value);
      } else {
        assert Opts("--profile", profiles.GetOr([])) == "";
        assert cmd + "" == cmd;
      }
      return Ok(cmd);
    }

    /** `check_compose_up`: `output` is what `docker compose ls` printed;
        `get_stack_name` is called again for every line. */
    method CheckComposeUp(envFile: Option<Config>, output: string) returns (r: Result<bool, EnvError>)
      modifies this
      ensures (r, isProductionCached) == ComposeUpCall(projectId, old(isProductionCached), envFile, SplitLines(output))
    {
      var lines := SplitLines(output);
      ghost var c0 := isProductionCached;
      ghost var first := StackNameCall(projectId, c0, envFile);
      StackNameCallSettles(projectId, c0, envFile);
      var i := 0;
      while i < |lines|
        invariant 0 <= i <= |lines|
        invariant i == 0 ==> isProductionCached == c0
        invariant i > 0 ==> first.0.Ok? && isProductionCached == first.1
        invariant i > 0 ==> forall j :: 0 <= j < i ==> !ShowsRunning(lines[j], first.0.value)
      {
        var stack := GetStackName(envFile);
        if stack.Err? {
          return Err(stack.error);
        }
        if StartsWith(lines[i], stack.value) && Contains(lines[i], "running") {
          return Ok(true);
        }
        i := i + 1;
      }
      return Ok(false);
    }

    /** `prepare_environment`, run against `fs`: BACKUP_DIR is created when
        it does not exist and must be a directory afterwards. */
    method PrepareEnvironment(envFile: Option<Config>, fs: FileSystem) returns (r: Result<(), PrepareError>)
      modifies fs
      ensures fs.files == old(fs.files)
      ensures var expected := PreparedDirs(envFile, old(fs.dirs), old(fs.files));
        && (r.Ok? <==> expected.Ok?)
        && (expected.Ok? ==> fs.dirs == expected.value)
        && (expected.Err? ==> r.error == expected.error)
    {
      var config := LoadConfigFromEnvFile(envFile);
      if config.Err? {
        return Err(EnvFailure(config.error));
      }
      var backupDir := BackupDir(config.value);
      if backupDir.None? {
        return Ok(());
      }
      var path := backupDir.value;
      if !(path in fs.dirs || path in fs.files) {
        fs.MakeDir(path);
      }
      if path !in fs.dirs {
        return Err(InvalidBackupDir(path));
      }
      return Ok(());
    }

    method FindRunningContainerId(envFile: Option<Config>, name: string, output: string)
      returns (r: Result<(string, Option<string>), EnvError>)
      modifies this
      ensures (r, isProductionCached) == ContainerIdCall(projectId, old(isProductionCached), envFile, name, output)
    {
      var production := IsProduction(envFile);
      if production.Err? {
        return Err(production.error);
      }
      var stack := GetStackName(envFile);
      if stack.Err? {
        return Err(stack.error);
      }
      var query := ContainerQuery(stack.value, production.value, name);
      return Ok((query, ContainerIdFrom(output)));
    }

    /** `execute_cmd`: simulation applies only to commands that are not
        hidden; `osEnv` is `os.environ`. */
    method ExecuteCmd(cmd: string, env: Option<map<string, string>>, hidden: bool, simulate: bool, osEnv: map<string, string>)
      returns (action: ExecAction)
      ensures action == OpsSpec.ExecuteCmd(cmd, simulate, hidden, osEnv, env)
    {
      if simulate && !hidden {
        return Simulated("Simulating: " + cmd);
      }
      var banner := if hidden then None else Some("Executing: " + cmd);
      var customEnv: Option<map<string, string>> := None;
      if env.Some? && env.value != map[] {
        customEnv := Some(osEnv + env.value);
      }
      return Executed(banner, cmd, customEnv);
    }
  }
}
