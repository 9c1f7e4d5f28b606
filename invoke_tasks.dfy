/** The `Utility` class of adit_radis_shared/invoke_tasks.py and the
    SSL_IP_ADDRESSES list of its certificate task. `Utility` has static
    methods over the module globals PROJECT_NAME and PROJECT_DIR and a
    class attribute as the `is_production` cache, so it behaves like the
    cli_helpers module, except that it looks the stack name up before the
    environment in `find_running_container_id`, before reading any line in
    `check_compose_up`, and iterates `profiles` without a `None` guard. */
module InvokeTasks {
  import opened Wrappers
  import opened Text
  import opened OpsSpec
  import opened CliHelpers
  import OpsMethods

  /** `Utility.check_compose_up`: the stack name is looked up once, before
      the lines are read. */
  function UtilityComposeUpStep(g: Globals, envFile: Option<Config>, lines: seq<string>): (r: (Result<bool, Failure>, Globals)) {
    match StackNameStep(g, envFile)
    case (Err(e), g1) => (Err(e), g1)
    case (Ok(stack), g1) => (Ok(ComposeUp(lines, stack)), g1)
  }

  /** `Utility.find_running_container_id`: the stack name first, then
      `is_production`. */
  function UtilityContainerIdStep(g: Globals, envFile: Option<Config>, name: string, output: string)
    : (r: (Result<(string, Option<string>), Failure>, Globals))
  {
    var (stack, g1) := StackNameStep(g, envFile);
    match stack
    case Err(e) => (Err(e), g1)
    case Ok(stack) =>
      var (p, g2) := ProductionStep(g1, envFile);
      match p
      case Err(e) => (Err(e), g2)
      case Ok(production) => (Ok((ContainerQuery(stack, production, name), ContainerIdFrom(output))), g2)
  }

  /** The two orders of lookup give the same query, the same error and
      the same globals. */
  lemma ContainerIdOrder(g: Globals, envFile: Option<Config>, name: string, output: string)
    ensures UtilityContainerIdStep(g, envFile, name, output) == ContainerIdStep(g, envFile, name, output)
  {
    var (p, g1) := ProductionStep(g, envFile);
    var (s, h1) := StackNameStep(g, envFile);
    if p.Ok? {
      ProductionSettles(g, envFile, envFile);
      StackNameSettles(g, envFile);
      if s.Ok? {
        ProductionSettles(h1, envFile, envFile);
      }
    }
  }

  /** Where the two `check_compose_up` differ: with no running stacks
      listed, cli_helpers answers without reading `.env` and `Utility`
      still needs a valid one. */
  lemma ComposeUpNeedsEnv(g: Globals)
    requires g.rootPath.Some?
    ensures ComposeUpStep(g, None, []) == (Ok(false), g)
    ensures UtilityComposeUpStep(g, None, []) == (Err(Env(MissingEnvFile)), g)
  {
  }

  /** When both succeed they agree. */
  lemma ComposeUpAgree(g: Globals, envFile: Option<Config>, lines: seq<string>)
    requires lines != []
    ensures UtilityComposeUpStep(g, envFile, lines) == ComposeUpStep(g, envFile, lines)
  {
  }

  /** `Utility`: the globals PROJECT_NAME and PROJECT_DIR and the class
      attribute `_is_production_cached`. */
  class Utility {
    var projectName: Option<string>
    var projectDir: Option<Path>
    var isProductionCached: Option<bool>

    function State(): Globals
      reads this
    {
      Globals(projectName, projectDir, isProductionCached)
    }

    constructor ()
      ensures State() == Globals(None, None, None)
    {
      projectName := None;
      projectDir := None;
      isProductionCached := None;
    }

    /** tasks.py of the project assigns PROJECT_NAME and PROJECT_DIR. */
    method SetProject(name: string, dir: Path)
      modifies this
      ensures State() == old(State()).(projectId := Some(name), rootPath := Some(dir))
    {
      projectName := Some(name);
      projectDir := Some(dir);
    }

    /** `Utility.is_production`: a filled class attribute answers. */
    method IsProduction(envFile: Option<Config>) returns (r: Result<bool, Failure>)
      modifies this
      ensures (r, State()) == ProductionStep(old(State()), envFile)
      ensures r.Ok? ==> isProductionCached == Some(r.value)
    {
      if isProductionCached == None {
        if projectDir.None? {
          return Err(RootPathNotSet);
        }
        if envFile.None? {
          return Err(Env(MissingEnvFile));
        }
        var config := envFile.value;
        if "ENVIRONMENT" !in config {
          return Err(Env(MissingEnvironment));
        }
        var environment := config["ENVIRONMENT"];
        if environment != Some("development") && environment != Some("production") {
          return Err(Env(InvalidEnvironment(environment)));
        }
        isProductionCached := Some(environment == Some("production"));
      }
      return Ok(isProductionCached.value);
    }

    method GetStackName(envFile: Option<Config>) returns (r: Result<string, Failure>)
      modifies this
      ensures (r, State()) == StackNameStep(old(State()), envFile)
    {
      if projectDir.None? {
        return Err(RootPathNotSet);
      }
      if envFile.None? {
        return Err(Env(MissingEnvFile));
      }
      var configured := ConfiguredStackName(envFile.value);
      if configured.Some? {
        return Ok(configured.value);
      }
      var production := IsProduction(envFile);
      if production.Err? {
        return Err(production.error);
      }
      if projectName.None? {
        return Err(ProjectIdNotSet);
      }
      return Ok(DefaultStackName(projectName.value, production.value));
    }

    method GetComposeEnvFile(envFile: Option<Config>) returns (r: Result<Path, Failure>)
      modifies this
      ensures (r, State()) == ComposeEnvFileStep(old(State()), envFile)
    {
      var production := IsProduction(envFile);
      if production.Err? {
        return Err(production.error);
      }
      if projectDir.None? {
        return Err(RootPathNotSet);
      }
      return Ok(ComposeEnvFile(projectDir.value, production.value));
    }

    /** `Utility.build_compose_cmd`: `profiles` defaults to `[]` and is
        iterated as given. */
    method BuildComposeCmd(envFile: Option<Config>, profiles: seq<string>) returns (r: Result<string, Failure>)
      modifies this
      ensures (r, State()) == ComposeCmdStep(old(State()), envFile, Some(profiles))
    {
      if projectDir.None? {
        return Err(RootPathNotSet);
      }
      var cmd := "docker compose";
      cmd := cmd + Opt("-f", PathString(ComposeBaseFile(projectDir.value)));
      var envPath := GetComposeEnvFile(envFile);
      if envPath.Err? {
        return Err(envPath.error);
      }
      cmd := cmd + Opt("-f", PathString(envPath.value));
      var stack := GetStackName(envFile);
      if stack.Err? {
        return Err(stack.error);
      }
      cmd := cmd + Opt("-p", stack.value);
      cmd := OpsMethods.AppendProfiles(cmd, profiles);
      return Ok(cmd);
    }

    /** `Utility.check_compose_up`: `output` is what `docker compose ls`
        printed. */
    method CheckComposeUp(envFile: Option<Config>, output: string) returns (r: Result<bool, Failure>)
      modifies this
      ensures (r, State()) == UtilityComposeUpStep(old(State()), envFile, SplitLines(output))
    {
      var stack := GetStackName(envFile);
      if stack.Err? {
        return Err(stack.error);
      }
      var lines := SplitLines(output);
      var i := 0;
      while i < |lines|
        invariant 0 <= i <= |lines|
        invariant forall j :: 0 <= j < i ==> !ShowsRunning(lines[j], stack.value)
      {
        if StartsWith(lines[i], stack.value) && Contains(lines[i], "running") {
          return Ok(true);
        }
        i := i + 1;
      }
      return Ok(false);
    }

    method FindRunningContainerId(envFile: Option<Config>, name: string, output: string)
      returns (r: Result<(string, Option<string>), Failure>)
      modifies this
      ensures (r, State()) == UtilityContainerIdStep(old(State()), envFile, name, output)
    {
      var stack := GetStackName(envFile);
      if stack.Err? {
        return Err(stack.error);
      }
      var production := IsProduction(envFile);
      if production.Err? {
        return Err(production.error);
      }
      var query := ContainerQuery(stack.value, production.value, name);
      return Ok((query, ContainerIdFrom(output)));
    }
  }

  /** `[item.strip() for item in ip_addresses.split(",") if item.strip()]` */
  function SplitIpAddresses(setting: string): (r: seq<string>)
    ensures forall k :: 0 <= k < |r| ==> r[k] != [] && IsStripped(r[k])
  {
    StrippedItemsShape(Split(setting, ','));
    StrippedItems(Split(setting, ','))
  }

  /** The stripped items, the empty ones dropped, in order. */
  function StrippedItems(items: seq<string>): (r: seq<string>)
    ensures |r| <= |items|
  {
    if items == [] then []
    else
      var item := Strip(items[0]);
      (if item == [] then [] else [item]) + StrippedItems(items[1..])
  }

  /** What the comprehension keeps: a non-empty stripped item. */
  predicate Kept(item: string) {
    item != [] && IsStripped(item)
  }

  /** Every item kept is stripped and not empty. */
  lemma {:induction false} StrippedItemsShape(items: seq<string>)
    ensures forall k :: 0 <= k < |StrippedItems(items)| ==> Kept(StrippedItems(items)[k])
  {
    if items != [] {
      var item := Strip(items[0]);
      var rest := StrippedItems(items[1..]);
      StrippedItemsShape(items[1..]);
      if item != [] {
        StripKept(items[0]);
        KeptCons(item, rest);
      }
    }
  }

  lemma StripKept(item: string)
    ensures Strip(item) != [] ==> Kept(Strip(item))
  {
    StripShape(item);
  }

  lemma KeptCons(item: string, rest: seq<string>)
    requires Kept(item)
    requires forall k :: 0 <= k < |rest| ==> Kept(rest[k])
    ensures forall k :: 0 <= k < |[item] + rest| ==> Kept(([item] + rest)[k])
  {
  }

  lemma {:induction false} StrippedItemsKeep(items: seq<string>)
    requires forall k :: 0 <= k < |items| ==> items[k] != [] && IsStripped(items[k])
    ensures StrippedItems(items) == items
  {
    if items != [] {
      StripShape(items[0]);
      StrippedItemsKeep(items[1..]);
    }
  }

  /** Non-empty addresses without surrounding blanks or commas, written
      as a comma-separated setting, are read back as they were written. */
  lemma SplitIpAddressesJoin(addresses: seq<string>)
    requires forall k :: 0 <= k < |addresses| ==> addresses[k] != [] && IsStripped(addresses[k]) && ',' !in addresses[k]
    ensures SplitIpAddresses(Join(addresses, ",")) == addresses
  {
    if addresses == [] {
      NoIpAddresses();
    } else {
      SplitJoin(addresses, ',');
      StrippedItemsKeep(addresses);
    }
  }

  /** An absent or empty setting lists no addresses. */
  lemma NoIpAddresses()
    ensures SplitIpAddresses("") == []
  {
    var empty := "";
    SplitFree(empty, ',');
    assert Strip(empty) == [];
  }

  /** The value of SSL_IP_ADDRESSES, `""` when the key is absent; a key
      without a value fails the `isinstance` assertion. */
  function IpAddressesSetting(config: Config): (r: Option<seq<string>>)
    ensures r.None? <==> "SSL_IP_ADDRESSES" in config && config["SSL_IP_ADDRESSES"].None?
    ensures r.Some? ==> forall k :: 0 <= k < |r.value| ==> r.value[k] != [] && IsStripped(r.value[k])
  {
    if "SSL_IP_ADDRESSES" !in config then Some(SplitIpAddresses(""))
    else
      match config["SSL_IP_ADDRESSES"]
      case None => None
      case Some(setting) => Some(SplitIpAddresses(setting))
  }
}
