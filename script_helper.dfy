/** `ScriptHelper` of adit_radis_shared/script_helper.py: the project name
    and path and the simulation switch are given when it is made, and the
    first valid `is_production` answer is kept on the instance. A `.env`
    that is missing or holds no valid ENVIRONMENT ends the script
    (`sys.exit`), which is the `Err` of each method. */
module ScriptHelpers {
  import opened Wrappers
  import opened Text
  import opened OpsSpec
  import opened InstanceSteps
  import OpsMethods

  class ScriptHelper {
    const projectName: string
    const projectPath: Path
    const simulateExecution: bool
    var isProductionCached: Option<bool>

    constructor (projectName: string, projectPath: Path, simulateExecution: bool)
      ensures this.projectName == projectName && this.projectPath == projectPath
      ensures this.simulateExecution == simulateExecution
      ensures isProductionCached == None
    {
      this.projectName := projectName;
      this.projectPath := projectPath;
      this.simulateExecution := simulateExecution;
      isProductionCached := None;
    }

    /** The `is_production` property. */
    method IsProduction(envFile: Option<Config>) returns (r: Result<bool, EnvError>)
      modifies this
      ensures CachedCall(r, isProductionCached) == CachedProduction(old(isProductionCached), envFile)
    {
      if isProductionCached.None? {
        var config := LoadConfig(envFile);
        if config.Err? {
          return Err(config.error);
        }
        var checked := CheckEnvironment(config.value);
        if checked.Err? {
          return Err(checked.error);
        }
        isProductionCached := Some(checked.value);
      }
      return Ok(isProductionCached.value);
    }

    /** The `compose_env_file` property. */
    method ComposeEnvFile(envFile: Option<Config>) returns (r: Result<Path, EnvError>)
      modifies this
      ensures (r, isProductionCached) == ComposeEnvFileCall(projectPath, old(isProductionCached), envFile)
    {
      var production := IsProduction(envFile);
      if production.Err? {
        return Err(production.error);
      }
      return Ok(OpsSpec.ComposeEnvFile(projectPath, production.value));
    }

    /** The `stack_name` property. */
    method StackName(envFile: Option<Config>) returns (r: Result<string, EnvError>)
      modifies this
      ensures (r, isProductionCached) == StackNameCall(projectName, old(isProductionCached), envFile)
    {
      var config := LoadConfig(envFile);
      if config.Err? {
        return Err(config.error);
      }
      var configured := ConfiguredStackName(config.value);
      if configured.Some? {
        return Ok(configured.value);
      }
      var production := IsProduction(envFile);
      if production.Err? {
        return Err(production.error);
      }
      return Ok(DefaultStackName(projectName, production.value));
    }

    /** `build_compose_cmd`: the profiles are added only when `profiles`
        is truthy. */
    method BuildComposeCmd(envFile: Option<Config>, profiles: Option<seq<string>>) returns (r: Result<string, EnvError>)
      modifies this
      ensures (r, isProductionCached) == ComposeCmdCall(projectName, projectPath, old(isProductionCached), envFile, profiles)
    {
      var cmd := "docker compose";
      cmd := cmd + Opt("-f", PathString(ComposeBaseFile(projectPath)));
      var envPath := ComposeEnvFile(envFile);
      if envPath.Err? {
        return Err(envPath.error);
      }
      cmd := cmd + Opt("-f", PathString(envPath.value));
      var stack := StackName(envFile);
      if stack.Err? {
        return Err(stack.error);
      }
      cmd := cmd + Opt("-p", stack.value);
      if profiles.Some? && profiles.value != [] {
        cmd := OpsMethods.AppendProfiles(cmd, profiles.value);
      } else {
        assert Opts("--profile", profiles.GetOr([])) == "";
        assert cmd + "" == cmd;
      }
      return Ok(cmd);
    }

    /** `check_compose_up`: `output` is what `docker compose ls` printed;
        `stack_name` is read again for every line. */
    method CheckComposeUp(envFile: Option<Config>, output: string) returns (r: Result<bool, EnvError>)
      modifies this
      ensures (r, isProductionCached) == ComposeUpCall(projectName, old(isProductionCached), envFile, SplitLines(output))
    {
      var lines := SplitLines(output);
      ghost var c0 := isProductionCached;
      ghost var first := StackNameCall(projectName, c0, envFile);
      StackNameCallSettles(projectName, c0, envFile);
      var i := 0;
      while i < |lines|
        invariant 0 <= i <= |lines|
        invariant i == 0 ==> isProductionCached == c0
        invariant i > 0 ==> first.0.Ok? && isProductionCached == first.1
        invariant i > 0 ==> forall j :: 0 <= j < i ==> !ShowsRunning(lines[j], first.0.value)
      {
        var stack := StackName(envFile);
        if stack.Err? {
          return Err(stack.error);
        }
        if StartsWith(lines[i], stack.value) && Contains(lines[i], "running") {
          return Ok(true);
        }
        i := i + 1;
      }
      return Ok(false);
    }

    /** `find_running_container_id`: the query and the id read from its
        output. */
    method FindRunningContainerId(envFile: Option<Config>, name: string, output: string)
      returns (r: Result<(string, Option<string>), EnvError>)
      modifies this
      ensures (r, isProductionCached) == ContainerIdCall(projectName, old(isProductionCached), envFile, name, output)
    {
      var production := IsProduction(envFile);
      if production.Err? {
        return Err(production.error);
      }
      var stack := StackName(envFile);
      if stack.Err? {
        return Err(stack.error);
      }
      var query := ContainerQuery(stack.value, production.value, name);
      return Ok((query, ContainerIdFrom(output)));
    }

    /** `execute`: while simulating, only a forced command runs, and a
        hidden one is printed like any other; `osEnv` is `os.environ`. */
    method Execute(cmd: string, env: Option<map<string, string>>, force: bool, hidden: bool, osEnv: map<string, string>)
      returns (action: ExecAction)
      ensures action == ScriptExecute(cmd, simulateExecution, force, hidden, osEnv, env)
    {
      if simulateExecution && !force {
        return Simulated("Simulating: " + cmd);
      }
      var banner := if hidden then None else Some("Executing: " + cmd);
      var customEnv: Option<map<string, string>> := None;
      if env.Some? && env.value != map[] {
        customEnv := Some(osEnv + env.value);
      }
      return Executed(banner, cmd, customEnv);
    }
  }
}
