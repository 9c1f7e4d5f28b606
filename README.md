# adit-radis-shared, modelled in Dafny

This project models the logic shared by the ADIT and RADIS Django
applications. That logic falls into four groups:

- the helpers the operations scripts use to drive Docker Compose;
- the management commands that seed users and groups;
- the request middlewares, views and template tags;
- a few string builders.

Any I/O a component performs is turned into inputs:

- the contents of `.env` become a map;
- command output becomes a string;
- database tables become sequences of rows.

Each component is one Dafny module:

- **Wrappers**, **Text**: `Option`/`Result`, and the pieces of Python's
  `str` that the source relies on (`split`, `strip`, `lower`, `startswith`,
  `join`), over `seq<char>`.
- **OpsSpec**: the computations shared by the five operations helpers,
  stated once as functions with lemmas. These are:
  - reading `.env` and validating `ENVIRONMENT`;
  - the stack name and the compose file;
  - the compose command line;
  - container-id extraction and "compose is up" detection;
  - the first `N.N.N` version tag;
  - the yes/no answer table;
  - the simulate / hidden / force execution decision and the merged
    process environment;
  - the certificate's subject-alternative-name list.
- **OpsMethods**: the loops the helpers run, each a method proved against
  its OpsSpec function. They cover the `--profile` accumulation, the
  `docker compose ls` scan, the version-tag scan, the `confirm` input
  loop and the subject-alternative-name loop.
- **Per-helper classes**: one class per helper, holding the fields that
  helper updates in place. The variants differ where the source differs:
  - `CliHelpers.Module`: the module globals of `cli_helpers.py`, with the
    global `is_production` cache.
  - `CliHelper.CommandHelper`: `cli/helper.py`. It includes the walk up
    to the directory holding `pyproject.toml`, the project-name remap, and
    the `uv tree` line parser with its round-trip lemmas.
    `CommandHelper.is_production` assigns a local variable rather than the
    cache field, so this helper re-reads `.env` on every call.
  - `InvokeTasks.Utility`: its cache is a class field, and it also holds
    the `SSL_IP_ADDRESSES` split.
  - `ScriptHelpers.ScriptHelper`: simulation here suppresses even hidden
    commands.
  - `MaintenanceCommands.MaintenanceCommand`: includes the `BACKUP_DIR`
    preparation over an abstract file system (InstanceSteps).
- **Tokens**: the length and alphabet of generated tokens and passwords.
  The hex encoding of a token is proved to round-trip.
- **CliSetup**: splitting `argv` at the first `--` and the dispatch
  guards of `setup_root_parser`.
- **Telemetry**:
  - `add_otel_logging_handler` as in-place edits of a logging
    configuration, proved idempotent and proved to leave other entries
    alone;
  - the one-shot `setup_opentelemetry` flag;
  - the service-name rule.
- **Accounts**: users, groups and the active-group invariant of
  `User.save` and `change_active_group`, as a class of rows.
- **Seeding**: the commands that fill a development database, proved to
  keep the invariant:
  - `create_example_groups`;
  - the two `populate_users_and_groups` commands;
  - `populate_db`.
- **SuperuserCommand**: the guard chain of `create_superuser`, the
  e-mail normalisation Django's `create_superuser` applies to the stored
  address, and the token row.
- **SettingsRows**: `ProjectSettings.get`, `__str__`, and `init_db`'s
  ensure-exists step together with its idempotence.
- **Middlewares**: the maintenance decision table, the banner insertion
  as written (after the last `>` on the line that opens the body) next to
  the intended one (right after the body tag), and time-zone selection.
- **Views**: the htmx guard, preference-update validation and coercion,
  the staff checks, and the broadcast recipients.
- **SiteContext**:
  - the main menu registry, both as a stable sorted insertion and as the
    append-only variant;
  - the theme defaults of the base context processors.
- **TemplateTags**: `access_item`, `base_url`, `url_replace`,
  `join_if_list`, `alert_class` and `message_symbol`.
- **Forms**: recipient labels, the broadcast field limits, the hidden
  fields of the single-filter form, and the non-idempotent `render_layout`.
- **MigrationSql**: `procrastinate_on_delete_sql`. The reverse statement
  is proved to be a prefix of the forward one.
- **RetryStalledJobs**: one retry per stalled job, the count, and the
  pluralised message.
- **ProcrastinateWorker**: the worker command line, the defaults, the
  `shlex.split` of that line (modelled in **Shlex**), and the
  `on_shutdown` precondition.
- **IpAddresses**: the strings `ipaddress.ip_address` accepts, which
  decide whether the certificate's alternative names can be built.

Randomness (Faker choices, `secrets.choice`, `os.urandom`) is an input
sequence, so the properties are stated for every possible draw.

## Model

| member | source | states |
|---|---|---|
| Accounts.Prefix | adit_radis_shared/common/management/commands/populate_users_and_groups.py:43 | `auth_token[:FRACTION_LENGTH]`: a prefix of the token, of length FRACTION_LENGTH or the whole token when shorter |
| Accounts.AuthToken | adit_radis_shared/common/management/commands/populate_users_and_groups.py:40-46 | the token row stores the hash of the secret, its first FRACTION_LENGTH characters, the owner and no expiry |
| Accounts.Save | adit_radis_shared/accounts/models.py:17-20 | `save` fails with the active-group error exactly when an active group is set that is not one of the user's groups; a saved row keeps "no active group or a member" |
| Accounts.ChangeActiveGroup | adit_radis_shared/accounts/models.py:22-27 | fails exactly for a group the user is not a member of; otherwise only the active group changes, to that group, and the invariant holds |
| Accounts.AddGroup | adit_radis_shared/accounts/models.py:5-15 | `groups.add(g)` adds the membership, leaves the active group and keeps the invariant |
| Accounts.DeleteGroup | adit_radis_shared/accounts/models.py:9-15 | deleting a group drops the membership and nulls an active group that pointed to it (`SET_NULL`), so the invariant is kept |
| Accounts.SaveAccepts | adit_radis_shared/accounts/models.py:17-20 | a null active group, and any member group, is always accepted by `save` |
| Accounts.ChangeActiveGroupIdempotent | adit_radis_shared/accounts/models.py:22-27 | once a change of active group has succeeded, repeating it with the same group gives the same row |
| Accounts.JoinThenActivate | adit_radis_shared/accounts/models.py:22-27 | adding a group and then activating it always succeeds, with exactly that membership and active group |
| Accounts.ChangeKeepsConsistent | adit_radis_shared/accounts/models.py:9-27 | a successful change to an existing group keeps the row consistent with the groups table |
| Accounts.DeleteLastGroupKeepsConsistent | adit_radis_shared/accounts/models.py:9-15 | deleting the last group keeps every row consistent with the shorter groups table, because `SET_NULL` clears the active groups that pointed to it |
| Accounts.Db.constructor | adit_radis_shared/accounts/models.py:5-15 | the tables start as given |
| Accounts.Db.CreateUser | adit_radis_shared/common/management/commands/populate_users_and_groups.py:57 | a created user is appended and gets the next id; groups and tokens are unchanged |
| Accounts.Db.CreateGroup | adit_radis_shared/common/management/commands/populate_users_and_groups.py:71-73 | a created group is appended and gets the next id; users and tokens are unchanged |
| Accounts.Db.CreateToken | adit_radis_shared/common/management/commands/populate_users_and_groups.py:41-46 | a created token is appended; users and groups are unchanged |
| Accounts.Db.Reset | example_project/example_project/example_app/management/commands/populate_db.py:83-87 | `reset_db` then `migrate` leave every table empty |
| Accounts.Db.AddUserToGroup | adit_radis_shared/common/management/commands/populate_users_and_groups.py:79 | only that user's row changes, by `AddGroup` |
| Accounts.Db.ChangeUserActiveGroup | adit_radis_shared/accounts/models.py:22-27 | the row becomes the result of `ChangeActiveGroup` on success and is untouched on failure, with the same error |
| CliHelper.Parent | adit_radis_shared/cli/helper.py:46-47 | the parent drops the last component; the root is its own parent |
| CliHelper.RootSearch | adit_radis_shared/cli/helper.py:38-48 | the root found is the deepest ancestor of the start holding `pyproject.toml`, none deeper holding it; none found when no ancestor above the filesystem root holds it |
| CliHelper.FindProjectRoot | adit_radis_shared/cli/helper.py:38-48 | the upward walk finds exactly the directory the search specifies, or fails |
| CliHelper.ProjectIdOf | adit_radis_shared/cli/helper.py:33-36 | the shared package's own name is read as `example_project`; any other name is kept |
| CliHelper.GetProjectId | adit_radis_shared/cli/helper.py:50-62 | a missing `pyproject.toml` and a missing or empty project name fail; otherwise the name is the project id |
| CliHelper.LocalProjectVersion | adit_radis_shared/cli/helper.py:221-222 | the local version is the version followed by `-local` |
| CliHelper.CommandHelper.constructor | adit_radis_shared/cli/helper.py:30-36 | a helper for the given root and project id |
| CliHelper.CommandHelper.Open | adit_radis_shared/cli/helper.py:30-62 | the helper's root is the root the search finds and its id the remapped project name; each failure of the search or of the toml file is reported |
| CliHelper.CommandHelper.IsProduction | adit_radis_shared/cli/helper.py:115-128 | `.env` is read and checked on every call: the assignment goes to a local variable, so the cache is never filled |
| CliHelper.CommandHelper.GetComposeEnvFile | adit_radis_shared/cli/helper.py:133-136 | the production or development compose file of the root, as `is_production` decides, or its failure |
| CliHelper.CommandHelper.GetStackName | adit_radis_shared/cli/helper.py:138-145 | the configured STACK_NAME, else the project id with the environment suffix; failures of `.env` propagate |
| CliHelper.CommandHelper.BuildComposeCmd | adit_radis_shared/cli/helper.py:147-157 | the compose command of the root's files, the stack and the profiles, `None` adding no profile |
| CliHelper.CommandHelper.CheckComposeUp | adit_radis_shared/cli/helper.py:159-164 | an empty listing is not up without reading `.env`; otherwise up exactly when a line shows the stack running |
| CliHelper.CommandHelper.FindRunningContainerId | adit_radis_shared/cli/helper.py:180-189 | the query names the stack and service with `_` in production and `-` otherwise, and the id is the stripped output when not blank |
| CliHelper.CommandHelper.ExecuteCmd | adit_radis_shared/cli/helper.py:82-113 | the command is only printed exactly when SIMULATE is set and it is not hidden; otherwise it runs with the merged environment |
| CliHelper.SpanOf | adit_radis_shared/cli/helper.py:313 | each repeated character class of the pattern takes the longest run, since what follows cannot extend it |
| CliHelper.LatestOf | adit_radis_shared/cli/helper.py:313 | the `(latest: v…)` part is read back as the latest version |
| CliHelper.VersionsRoundTrip | adit_radis_shared/cli/helper.py:313 | the installed version and the latest version are read back from the text that follows the `v` |
| CliHelper.EntryRoundTrip | adit_radis_shared/cli/helper.py:313 | a package name and its versions are read back from their text |
| CliHelper.ParseTreeLineRoundTrip | adit_radis_shared/cli/helper.py:313-320 | every well-formed entry is read back from the tree line uv prints for it |
| CliHelper.ReportSpec | adit_radis_shared/cli/helper.py:315-322 | a line is printed exactly when it renders an entry that was found, and there are at most as many printed lines as entries |
| CliHelper.OutdatedEntries | adit_radis_shared/cli/helper.py:315 | one parse result per line of the tree |
| CliHelper.OutdatedReportSpec | adit_radis_shared/cli/helper.py:315-322 | a line is printed exactly when some line of the tree matches with differing versions and renders to it |
| CliHelper.PrintUvOutdated | adit_radis_shared/cli/helper.py:302-322 | the loop prints exactly the report of the tree output's lines, in order |
| CliHelpers.LoadConfigOf | adit_radis_shared/cli_helpers.py:43-48 | ROOT_PATH must be set and `.env` present; then the configuration is the file's pairs |
| CliHelpers.ProductionStep | adit_radis_shared/cli_helpers.py:99-113 | a filled cache answers and nothing changes; otherwise ROOT_PATH and `.env` are read, a valid answer fills the cache and a failure changes nothing; PROJECT_ID and ROOT_PATH are never touched |
| CliHelpers.StackNameStep | adit_radis_shared/cli_helpers.py:126-133 | without ROOT_PATH the lookup fails before anything changes; without `.env` it fails with the load error; with both, the name is the non-empty STACK_NAME, else PROJECT_ID with `_prod` or `_dev` as the cached or fresh `is_production` answers, and a missing PROJECT_ID fails only when no STACK_NAME is configured and `is_production` answered; the only global that can change is the cache, and only as `is_production` would change it |
| CliHelpers.ProductionSettles | adit_radis_shared/cli_helpers.py:99-113 | once `is_production` has answered it answers the same way, with the same globals, whatever `.env` holds next |
| CliHelpers.StackNameSettles | adit_radis_shared/cli_helpers.py:126-133 | a second `get_stack_name` with the same `.env` gives the same name and changes nothing |
| CliHelpers.ComposeCmdStepSpec | adit_radis_shared/cli_helpers.py:136-146 | a built command uses the production file exactly when the cached answer is production, and the stack name a later `get_stack_name` would give |
| CliHelpers.DefaultStackNameStep | adit_radis_shared/cli_helpers.py:126-133 | without STACK_NAME the lookup succeeds exactly when PROJECT_ID is set and `is_production` answers |
| CliHelpers.Module.constructor | adit_radis_shared/cli_helpers.py:24-25 | on import no global is set and nothing is cached |
| CliHelpers.Module.SetProject | adit_radis_shared/cli_helpers.py:24-25 | the importing project sets PROJECT_ID and ROOT_PATH; the cache is kept |
| CliHelpers.Module.GetProjectId | adit_radis_shared/cli_helpers.py:33-35 | the id when PROJECT_ID is set; otherwise the assertion fails |
| CliHelpers.Module.GetRootPath | adit_radis_shared/cli_helpers.py:38-40 | the path when ROOT_PATH is set; otherwise the assertion fails |
| CliHelpers.Module.IsProduction | adit_radis_shared/cli_helpers.py:96-113 | the answer and the new globals are those of one `is_production` step |
| CliHelpers.Module.GetStackName | adit_radis_shared/cli_helpers.py:126-133 | the answer and the new globals are those of one `get_stack_name` step, so the returned name is the configured STACK_NAME or the project id with the environment suffix, with the failures listed for that step |
| CliHelpers.Module.GetComposeEnvFile | adit_radis_shared/cli_helpers.py:120-123 | `is_production` first, then ROOT_PATH; the environment compose file of the root |
| CliHelpers.Module.BuildComposeCmd | adit_radis_shared/cli_helpers.py:136-146 | the command and the new globals are those of one `build_compose_cmd` step, the profiles appended by the loop |
| CliHelpers.Module.CheckComposeUp | adit_radis_shared/cli_helpers.py:149-154 | looking the stack name up again for every line gives the answer of one lookup: up exactly when a line shows the stack running |
| CliHelpers.Module.FindRunningContainerId | adit_radis_shared/cli_helpers.py:180-189 | the query with the environment's separator and the stripped id, or the first failure |
| Forms.RecipientLabel | adit_radis_shared/common/forms.py:10-12 | the label is the username, then ` <`, the email and `>` |
| Forms.RecipientLabelInjective | adit_radis_shared/common/forms.py:11-12 | for usernames without a space (which the username validator guarantees), equal labels mean equal usernames and equal emails |
| Forms.CharFieldErrors | adit_radis_shared/common/forms.py:20-21 | an empty stripped value reports only `required`; otherwise the value is too long exactly when it exceeds the maximum and holds a null character exactly when one is in it; no error exactly when the value is non-empty, short enough and free of null characters |
| Forms.FirstUnknown | adit_radis_shared/common/forms.py:16-19 | the first selected id that names no user, every earlier one naming a user, or past the end |
| Forms.RecipientsCheck | adit_radis_shared/common/forms.py:16-19 | nothing selected is `required`; no error exactly when something is selected and every id names a user; an invalid choice names a selected id that is no user |
| Forms.ValidateBroadcast | adit_radis_shared/common/forms.py:15-21 | recipients are required; subject and message are stripped, required and at most 200 and 10000 characters; the form is valid exactly when something is selected, every selected id is a user, and both texts are non-empty, short enough and free of null characters |
| Forms.HiddenFields | adit_radis_shared/common/forms.py:63-65 | exactly the parameters other than the filter field and `page` become hidden fields |
| Forms.HiddenFieldsSnoc | adit_radis_shared/common/forms.py:63-65 | the hidden fields keep the parameters' order |
| Forms.CollectHidden | adit_radis_shared/common/forms.py:60-65 | the loop collects exactly the hidden fields of the parameters, in order |
| Forms.FilterFormHelper.constructor | adit_radis_shared/common/forms.py:31-65 | method `get`, CSRF disabled, the field with its small control class, the layout of field-with-buttons then hidden div, and the hidden fields of the parameters |
| Forms.FilterFormHelper.RenderLayout | adit_radis_shared/common/forms.py:67-71 | a choice field gets the select classes added to its class; nothing else of the helper changes |
| Forms.RenderedClass | adit_radis_shared/common/forms.py:68-69 | a choice field's class grows by the select classes, keeping its old class as prefix; any other field's class is unchanged |
| Forms.RenderingNotIdempotent | adit_radis_shared/common/forms.py:67-69 | rendering a choice field twice adds the select classes twice |
| InstanceSteps.StackNameCall | adit_radis_shared/script_helper.py:63-71 | the name is the configured STACK_NAME, else the project name with the environment's suffix; the cache changes only as `is_production` changes it |
| InstanceSteps.ComposeEnvFileCall | adit_radis_shared/script_helper.py:57-61 | the production or development compose file of the project, as the cached `is_production` decides, and the cache it leaves |
| InstanceSteps.StackNameCallSettles | adit_radis_shared/script_helper.py:63-71 | a stack name, once given, is given again with the same `.env`, and the second call leaves the cache alone |
| InstanceSteps.ComposeCmdCallSpec | adit_radis_shared/script_helper.py:80-90 | with a readable `.env` holding a valid ENVIRONMENT, or a cached answer, the command is the compose command of that answer, the stack name and the profiles, and the answer is cached |
| InstanceSteps.MissingEnvFileStops | adit_radis_shared/script_helper.py:73-78 | without `.env` every call stops before computing anything and the cache stays empty |
| InstanceSteps.BackupDir | adit_radis_shared/maintenance_commands/management/base/maintenance_command.py:100-102 | BACKUP_DIR is used exactly when it is present with a non-empty value |
| InstanceSteps.PreparedDirs | adit_radis_shared/maintenance_commands/management/base/maintenance_command.py:97-110 | a missing `.env` stops; no BACKUP_DIR changes nothing; a missing path is created; a path that exists but is not a directory stops; success keeps every directory |
| InstanceSteps.PreparedDirsIdempotent | adit_radis_shared/maintenance_commands/management/base/maintenance_command.py:97-110 | preparing twice is preparing once |
| InstanceSteps.FileSystem.constructor | adit_radis_shared/maintenance_commands/management/base/maintenance_command.py:104 | the directories and files that exist |
| InstanceSteps.FileSystem.MakeDir | adit_radis_shared/maintenance_commands/management/base/maintenance_command.py:107 | creating a directory adds it and touches no file |
| ScriptHelpers.ScriptHelper.constructor | adit_radis_shared/script_helper.py:27-35 | the given name, path and simulation switch, with nothing cached |
| ScriptHelpers.ScriptHelper.IsProduction | adit_radis_shared/script_helper.py:37-51 | the answer and the cache afterwards are one caching `is_production` call |
| ScriptHelpers.ScriptHelper.ComposeEnvFile | adit_radis_shared/script_helper.py:57-61 | the answer and the cache are one `compose_env_file` call |
| ScriptHelpers.ScriptHelper.StackName | adit_radis_shared/script_helper.py:63-71 | the answer and the cache are one `stack_name` call |
| ScriptHelpers.ScriptHelper.BuildComposeCmd | adit_radis_shared/script_helper.py:80-90 | the answer and the cache are one `build_compose_cmd` call, `None` and `[]` adding no profile |
| ScriptHelpers.ScriptHelper.CheckComposeUp | adit_radis_shared/script_helper.py:92-97 | reading `stack_name` again for every line gives the answer of one lookup: up exactly when a line shows the stack running |
| ScriptHelpers.ScriptHelper.FindRunningContainerId | adit_radis_shared/script_helper.py:113-122 | `is_production`, then the stack name; the query with the environment's separator and the stripped id |
| ScriptHelpers.ScriptHelper.Execute | adit_radis_shared/script_helper.py:252-281 | while simulating only a forced command runs; a running command is announced unless hidden and gets the merged environment |
| MaintenanceCommands.MaintenanceCommand.constructor | adit_radis_shared/maintenance_commands/management/base/maintenance_command.py:27-30 | the settings' root and project id, with nothing cached |
| MaintenanceCommands.MaintenanceCommand.LoadConfigFromEnvFile | adit_radis_shared/maintenance_commands/management/base/maintenance_command.py:70-76 | a missing `.env` exits; otherwise its pairs |
| MaintenanceCommands.MaintenanceCommand.IsProduction | adit_radis_shared/maintenance_commands/management/base/maintenance_command.py:36-51 | the answer and the cache afterwards are one caching `is_production` call |
| MaintenanceCommands.MaintenanceCommand.GetComposeEnvFile | adit_radis_shared/maintenance_commands/management/base/maintenance_command.py:56-59 | the answer and the cache are one `get_compose_env_file` call |
| MaintenanceCommands.MaintenanceCommand.GetStackName | adit_radis_shared/maintenance_commands/management/base/maintenance_command.py:61-68 | the answer and the cache are one `get_stack_name` call |
| MaintenanceCommands.MaintenanceCommand.BuildComposeCmd | adit_radis_shared/maintenance_commands/management/base/maintenance_command.py:78-88 | the answer and the cache are one `build_compose_cmd` call |
| MaintenanceCommands.MaintenanceCommand.CheckComposeUp | adit_radis_shared/maintenance_commands/management/base/maintenance_command.py:90-95 | reading the stack name again for every line gives the answer of one lookup |
| MaintenanceCommands.MaintenanceCommand.PrepareEnvironment | adit_radis_shared/maintenance_commands/management/base/maintenance_command.py:97-110 | the directories afterwards and the outcome are those `PreparedDirs` specifies; no file changes |
| MaintenanceCommands.MaintenanceCommand.FindRunningContainerId | adit_radis_shared/maintenance_commands/management/base/maintenance_command.py:112-121 | `is_production`, then the stack name; the query and the stripped id |
| MaintenanceCommands.MaintenanceCommand.ExecuteCmd | adit_radis_shared/maintenance_commands/management/base/maintenance_command.py:251-280 | the command is only printed exactly when `simulate` is set and it is not hidden; otherwise it runs with the merged environment |
| InvokeTasks.ContainerIdOrder | adit_radis_shared/invoke_tasks.py:134-144 | looking up the stack name before `is_production` gives the same query, the same failure and the same globals as the other order |
| InvokeTasks.ComposeUpNeedsEnv | adit_radis_shared/invoke_tasks.py:110-116 | with nothing listed, `Utility.check_compose_up` still needs a valid `.env`, where the cli_helpers version answers `False` without reading it |
| InvokeTasks.ComposeUpAgree | adit_radis_shared/invoke_tasks.py:110-116 | on a non-empty listing both versions of `check_compose_up` give the same answer and the same globals |
| InvokeTasks.Utility.constructor | adit_radis_shared/invoke_tasks.py:31-42 | PROJECT_NAME and PROJECT_DIR unset and nothing cached |
| InvokeTasks.Utility.SetProject | adit_radis_shared/invoke_tasks.py:30-32 | the project's tasks file sets PROJECT_NAME and PROJECT_DIR; the cache is kept |
| InvokeTasks.Utility.IsProduction | adit_radis_shared/invoke_tasks.py:62-77 | the answer and new state are one caching `is_production` step; a valid answer is stored in the class attribute |
| InvokeTasks.Utility.GetStackName | adit_radis_shared/invoke_tasks.py:89-97 | the answer and new state are one `get_stack_name` step |
| InvokeTasks.Utility.GetComposeEnvFile | adit_radis_shared/invoke_tasks.py:83-87 | the environment compose file of PROJECT_DIR, after `is_production` |
| InvokeTasks.Utility.BuildComposeCmd | adit_radis_shared/invoke_tasks.py:99-107 | the compose command with every given profile, the default being none |
| InvokeTasks.Utility.CheckComposeUp | adit_radis_shared/invoke_tasks.py:109-116 | the stack name is looked up once before the lines; up exactly when a line shows the stack running |
| InvokeTasks.Utility.FindRunningContainerId | adit_radis_shared/invoke_tasks.py:133-144 | the stack name first, then `is_production`; the query with the environment's separator and the stripped id |
| InvokeTasks.SplitIpAddresses | adit_radis_shared/invoke_tasks.py:514 | every address kept is non-empty and has no surrounding blanks |
| InvokeTasks.StrippedItems | adit_radis_shared/invoke_tasks.py:514 | no more items than the comma-separated parts |
| InvokeTasks.StrippedItemsShape | adit_radis_shared/invoke_tasks.py:514 | every item the comprehension keeps is stripped and non-empty |
| InvokeTasks.SplitIpAddressesJoin | adit_radis_shared/invoke_tasks.py:512-514 | addresses written as a comma-separated setting are read back exactly as written |
| InvokeTasks.NoIpAddresses | adit_radis_shared/invoke_tasks.py:512-514 | an empty setting lists no addresses |
| InvokeTasks.IpAddressesSetting | adit_radis_shared/invoke_tasks.py:512-514 | an absent setting lists no addresses; a key without a value fails the type assertion; otherwise every listed address is stripped and non-empty |
| Middlewares.GreedyTagEnd | adit_radis_shared/common/middlewares.py:49-50 | the greedy `<body.*>` match ends at a `>` past `<body`, and no further than the first newline |
| Middlewares.TagEnd | adit_radis_shared/common/middlewares.py:49-50 | the intended match of the body tag ends at its first `>` and there is no `>` before it |
| Middlewares.BodyTagGetsHint | adit_radis_shared/common/middlewares.py:49-53 | with the corrected pattern the hint is inserted right after the closing `>` of the body tag and the rest is processed on |
| Middlewares.NoBodyUnchanged | adit_radis_shared/common/middlewares.py:49-53 | content without `<body` is left as it is |
| Middlewares.BodyTagHintPlaced | adit_radis_shared/common/middlewares.py:49-53 | a page with one body tag gets the hint directly after that tag, before the page's inner content |
| Middlewares.GreedyHintAtLineEnd | adit_radis_shared/common/middlewares.py:49-53 | as written, on a one-line page the greedy match runs to the last `>` of the line, so the hint lands at the end of the line |
| Middlewares.GreedyMisplacesHint | adit_radis_shared/common/middlewares.py:49-53 | as written, the hint on a one-line page lands after the inner content, not after the body tag, so the two results differ |
| Middlewares.MaintenanceHintMisplaced | adit_radis_shared/common/middlewares.py:49-53 | on `<body><p>x</p>` the substitution as written appends the banner after `</p>`, while the intended one puts it right after `<body>` |
| Middlewares.Maintenance | adit_radis_shared/common/middlewares.py:27-54 | the middleware as written: the 503 page has status 503, a passed response keeps its status and content type, and a passed response differs from the handler's only for a staff HTML page in maintenance mode |
| Middlewares.MaintenanceTable | adit_radis_shared/common/middlewares.py:27-54 | login and logout always pass; a missing ProjectSettings row fails; in maintenance mode non-staff get `ServiceUnavailable` on `/api/` and the 503 page elsewhere; a staff HTML page in maintenance mode passes with its content replaced by the greedy `<body.*>` substitution's result; every other passed response is the handler's, unchanged |
| Middlewares.CorrectedOnlyMovesBanner | adit_radis_shared/common/middlewares.py:43-53 | the corrected middleware decides every request as the one as written does, except that a staff HTML page in maintenance gets the banner right after each body tag |
| Middlewares.MaintenanceBannerMisplaced | adit_radis_shared/common/middlewares.py:43-53 | a staff member viewing `<body><p>x</p>` during maintenance gets the banner after `</p>` from the middleware as written and right after `<body>` from the corrected one |
| Middlewares.TimezoneFor | adit_radis_shared/common/middlewares.py:61-68 | the session's time zone wins when set and not empty, USER_TIME_ZONE otherwise; the chosen name is activated when the time-zone database knows it and raises `UnknownTimeZoneError` otherwise; deactivation exactly when both are empty or missing |
| MigrationSql.ConstraintSql | adit_radis_shared/common/utils/migration_utils.py:13-19 | the substituted template starts by altering the table `app_model` and ends with the template's trailing indentation |
| MigrationSql.OnDeleteSql | adit_radis_shared/common/utils/migration_utils.py:4-24 | the reverse SQL is the constraint template alone; the forward SQL adds the `ON DELETE SET NULL;` clause after it |
| MigrationSql.ReverseIsPrefix | adit_radis_shared/common/utils/migration_utils.py:21-22 | the reverse SQL is a proper prefix of the forward SQL, the rest being the `ON DELETE` clause; only the forward SQL ends with `;` |
| MigrationSql.SameTable | adit_radis_shared/common/utils/migration_utils.py:13-24 | both directions alter the same table `app_model` first |
| RetryStalledJobs.JobManager.constructor | adit_radis_shared/common/management/commands/retry_stalled_jobs.py:12 | a job manager with the given stalled jobs and no retries yet |
| RetryStalledJobs.JobManager.RetryJob | adit_radis_shared/common/management/commands/retry_stalled_jobs.py:18 | one retry of the job at the priority is recorded; the stalled jobs are not touched |
| RetryStalledJobs.Retries | adit_radis_shared/common/management/commands/retry_stalled_jobs.py:17-19 | one retry per job, in the jobs' order, each at the given priority |
| RetryStalledJobs.HandleRetryStalledJobs | adit_radis_shared/common/management/commands/retry_stalled_jobs.py:11-21 | every stalled job is retried exactly once, in order, at the configured priority, and the count returned is their number |
| RetryStalledJobs.ResultMessage | adit_radis_shared/common/management/commands/retry_stalled_jobs.py:28-33 | no jobs, one job and several jobs each get their own message, the last with the count |
| RetryStalledJobs.HandleOutput | adit_radis_shared/common/management/commands/retry_stalled_jobs.py:23-33 | the output is the progress text without a line break, then the result message, then the one line break `write` adds, and no other line break |
| RetryStalledJobs.NoLineBreakInMessage | adit_radis_shared/common/management/commands/retry_stalled_jobs.py:29-33 | the result message holds no line break, for every count |
| RetryStalledJobs.PluralReadsBack | adit_radis_shared/common/management/commands/retry_stalled_jobs.py:32-33 | the count in the plural message is written in decimal digits that read back as the count |
| RetryStalledJobs.MessagesDistinguishCounts | adit_radis_shared/common/management/commands/retry_stalled_jobs.py:28-33 | different counts always give different messages |
| OpsSpec.LoadConfig | adit_radis_shared/cli_helpers.py:43-48 | a missing `.env` stops the helper; otherwise its pairs are the configuration |
| OpsSpec.CheckEnvironment | adit_radis_shared/cli_helpers.py:104-111 | a missing ENVIRONMENT and a value other than development or production both stop the helper; otherwise the answer is production exactly when the value is `production` |
| OpsSpec.CachedProduction | adit_radis_shared/cli_helpers.py:96-113 | a filled cache answers without reading `.env`; an empty one reads and checks it, and a valid answer is stored while a failure leaves the cache as it was |
| OpsSpec.CacheSettles | adit_radis_shared/cli_helpers.py:99-113 | after one valid answer every later call gives the same answer and keeps the cache, whatever `.env` holds by then |
| OpsSpec.CacheRetries | adit_radis_shared/cli_helpers.py:99-113 | a failed first call leaves the cache empty, so the next call reads `.env` afresh |
| OpsSpec.ConfiguredStackName | adit_radis_shared/cli_helpers.py:128-129 | STACK_NAME is used exactly when it is present with a non-empty value |
| OpsSpec.DefaultStackNameShape | adit_radis_shared/cli_helpers.py:131-133 | the default stack name is the project name followed by `_prod` exactly in production and by `_dev` otherwise |
| OpsSpec.StackNameFrom | adit_radis_shared/cli_helpers.py:126-133 | a non-empty STACK_NAME wins; otherwise the project name with `_prod` or `_dev`, and a failing `is_production` fails the lookup |
| OpsSpec.ComposeEnvFile | adit_radis_shared/cli_helpers.py:120-123 | the environment compose file sits in the project root and is the production file exactly in production and the development file otherwise |
| OpsSpec.OptArgs | adit_radis_shared/cli_helpers.py:142-144 | two words per repeated flag |
| OpsSpec.ComposeArgs | adit_radis_shared/cli_helpers.py:136-146 | the compose command has eight fixed words plus two per profile |
| OpsSpec.ComposeCmdJoin | adit_radis_shared/cli_helpers.py:136-146 | the command line is exactly its words joined by single spaces |
| OpsSpec.ComposeCmdWords | adit_radis_shared/cli_helpers.py:136-146 | when no file name, stack name or profile holds a space, splitting the command line on spaces gives back its words: both compose files, the stack and every profile in its place |
| OpsSpec.VersionTagOfNumbers | adit_radis_shared/cli_helpers.py:226 | three digit strings joined by dots match the version pattern |
| OpsSpec.FirstVersionIndex | adit_radis_shared/cli_helpers.py:227-229 | the first tag that matches the version pattern, no earlier tag matching; or past the end when none does |
| OpsSpec.FirstVersionIndexAt | adit_radis_shared/cli_helpers.py:227-229 | that index is the only one whose earlier tags all fail and whose tag matches |
| OpsSpec.NoVersionIsVersion | adit_radis_shared/cli_helpers.py:231 | the fallback `0.0.0` is itself a version tag |
| OpsSpec.FirstSemanticTag | adit_radis_shared/cli_helpers.py:211-218 | the first remote tag name matching the version pattern, if any, and no earlier name matching; none exactly when no name matches |
| OpsSpec.ContainerIdFrom | adit_radis_shared/cli_helpers.py:184-189 | no id exactly when the output is blank; otherwise the stripped output, which is non-empty and has no surrounding whitespace |
| OpsSpec.ConfirmAnswer | adit_radis_shared/cli_helpers.py:193-200 | `yes`, `y` and `ye` answer yes; the empty line, `no` and `n` answer no; anything else asks again |
| OpsSpec.AnswerIndex | adit_radis_shared/cli_helpers.py:194-202 | the first input line that answers the question once lower-cased, every earlier line asking again |
| OpsSpec.CommandEnv | adit_radis_shared/cli_helpers.py:87-91 | no custom environment when `env` is absent or empty; otherwise the process environment with every key of `env` overriding it and every other key kept |
| OpsSpec.ExecuteCmd | adit_radis_shared/cli_helpers.py:80-93 | the command is only printed exactly when simulating and not hidden; otherwise it runs with its environment, with a banner exactly when not hidden |
| OpsSpec.ScriptExecute | adit_radis_shared/script_helper.py:269-281 | the command is only printed exactly when simulating and not forced, hidden or not; otherwise it runs with its environment, with a banner exactly when not hidden |
| OpsSpec.HiddenWhileSimulating | adit_radis_shared/script_helper.py:269-273 | the two execution rules differ only on hidden commands while simulating: `execute_cmd` runs them, `ScriptHelper.execute` only prints them |
| OpsSpec.AddressNames | adit_radis_shared/cli_helpers.py:269-275 | two names per address |
| OpsSpec.AltNamesShape | adit_radis_shared/cli_helpers.py:266-275 | the names are built exactly when every address is an IP address; otherwise the error is the first address that is not; when built, the host name comes first, then each address as a DNS name followed by the same address as an IP address, in order |
| OpsSpec.FirstNonAddress | adit_radis_shared/cli_helpers.py:269-275 | the first address `ipaddress.ip_address` rejects, every earlier one accepted, or past the end |
| OpsSpec.HostNameInAddressesFails | adit_radis_shared/cli_helpers.py:269-275 | a name without dots and colons, such as `localhost`, among the addresses makes the certificate fail |
| OpsMethods.BuildComposeCmd | adit_radis_shared/cli_helpers.py:136-146 | the loop builds exactly the compose command of the files, the stack and the profiles in order |
| OpsMethods.AppendProfiles | adit_radis_shared/cli_helpers.py:142-144 | the loop appends one `--profile` flag per profile, in order |
| OpsMethods.CheckComposeUp | adit_radis_shared/cli_helpers.py:149-154 | up exactly when some line of `docker compose ls` starts with the stack name and mentions `running` |
| OpsMethods.LatestLocalVersionTag | adit_radis_shared/cli_helpers.py:221-231 | the first line of the tag listing that matches the version pattern, else `0.0.0` |
| OpsMethods.FirstVersionTag | adit_radis_shared/cli_helpers.py:227-231 | the scan returns the first version tag, else `0.0.0` |
| OpsMethods.Confirm | adit_radis_shared/cli_helpers.py:192-202 | the answer of the first line that answers, none when input ends first; the transcript is one prompt per line read with the retry message between them |
| OpsMethods.BuildAltNames | adit_radis_shared/cli_helpers.py:266-275 | the loop builds exactly the alternative names of the host and the addresses, or stops with the first address that is no IP address; `None` and the empty list add none |
| Seeding.SeedGroupNames | adit_radis_shared/common/management/commands/create_example_groups.py:37-44 | the names of the first n groups created, one per index: predefined while there is one, else made up by the factory |
| Seeding.SeedGroupNamesShape | adit_radis_shared/common/management/commands/create_example_groups.py:37-44 | the first min(n, 4) names are the predefined ones in list order, the rest are factory-made, and creating one more group keeps the earlier names |
| Seeding.Range | adit_radis_shared/common/management/commands/populate_users_and_groups.py:78-79 | exactly the group ids from lo up to hi - 1 |
| Seeding.Pick | adit_radis_shared/common/management/commands/create_example_groups.py:56 | `fake.random_element(elements=groups)` always picks one of the count groups from base on |
| Seeding.ExampleMembers | adit_radis_shared/common/management/commands/create_example_groups.py:46-58 | one row per user, each the result of the two loops for that user and its draw |
| Seeding.ExampleMembersShape | adit_radis_shared/common/management/commands/create_example_groups.py:46-58 | superusers join every new group with the first one active; every other user joins exactly one more group, which becomes active whatever was set before; no membership is lost, nothing else changes, and consistent rows stay consistent |
| Seeding.CreateExampleGroups | adit_radis_shared/common/management/commands/create_example_groups.py:27-60 | nothing changes when a group exists or when count < 1; otherwise exactly count groups with the seed names are created, every user ends as ExampleMembers says, and the database stays consistent |
| Seeding.JoinGroups | adit_radis_shared/common/management/commands/create_example_groups.py:49-50 | the user gains exactly the groups base up to base + count - 1; nothing else changes |
| Seeding.CreateGroupRows | adit_radis_shared/common/management/commands/populate_users_and_groups.py:68-74 | one group per name, appended in order, with consecutive new ids returned in order |
| Seeding.IdRange | adit_radis_shared/common/management/commands/populate_users_and_groups.py:51-62 | the n ids from base on, in order |
| Seeding.EnvGet | adit_radis_shared/common/management/commands/populate_users_and_groups.py:30-34 | `environ.get(key, default)`: the environment value when present, else the default |
| Seeding.AdminTokens | adit_radis_shared/common/management/commands/populate_users_and_groups.py:37-46 | one token exactly when ADMIN_AUTH_TOKEN is set: its hash, its FRACTION_LENGTH prefix, the admin as owner, no expiry |
| Seeding.CreateDefaultAdmin | example_project/example_project/example_app/management/commands/populate_users_and_groups.py:17-40 | an admin is always created, with the default credentials where the environment has none, plus its token when ADMIN_AUTH_TOKEN is set |
| Seeding.CreateAdmin | adit_radis_shared/common/management/commands/populate_users_and_groups.py:24-48 | without ADMIN_USERNAME or ADMIN_PASSWORD nothing is created and None is returned; otherwise the admin is appended with its optional token |
| Seeding.SeededUsers | adit_radis_shared/common/management/commands/populate_users_and_groups.py:51-62 | n users when there is an admin and n - 1 otherwise; the admin, if any, first; then the made-up users in order |
| Seeding.FakeUsers | example_project/example_project/example_app/management/commands/populate_db.py:53-55 | the made-up users 1 up to m, in order |
| Seeding.SeededUsersFresh | adit_radis_shared/common/management/commands/populate_users_and_groups.py:51-62 | seeded users start with no group and no active group, and only the admin can be a superuser |
| Seeding.SeededUsersStep | adit_radis_shared/common/management/commands/populate_users_and_groups.py:53-60 | one more turn of the loop appends the admin (turn 0, if created) or one made-up user |
| Seeding.CreateUsers | adit_radis_shared/common/management/commands/populate_users_and_groups.py:51-62 | the users appended are SeededUsers with the admin kept only when created, their ids are returned in order, and the admin token only when the admin exists |
| Seeding.ExampleCreateUsers | example_project/example_project/example_app/management/commands/populate_users_and_groups.py:43-52 | exactly n users are appended, the admin first when n >= 1, their ids in order, with the admin token when set |
| Seeding.IdRangeStep | adit_radis_shared/common/management/commands/populate_users_and_groups.py:59-60 | appending the next id extends the range by one |
| Seeding.IdRangeCons | example_project/example_project/example_app/management/commands/populate_db.py:48-50 | the admin's id followed by the next ids is the whole range |
| Seeding.AddFakeUsers | example_project/example_project/example_app/management/commands/populate_db.py:52-55 | m made-up users are appended in order and their consecutive ids returned |
| Seeding.FixedCreateUsers | example_project/example_project/example_app/management/commands/populate_db.py:47-57 | exactly USER_COUNT (20) users, the admin first, with consecutive ids and the admin token when set |
| Seeding.JoinGroup | adit_radis_shared/common/management/commands/populate_users_and_groups.py:86-88 | the user gains the group, which becomes active only when none was; name and superuser flag are unchanged |
| Seeding.Join | adit_radis_shared/common/management/commands/populate_users_and_groups.py:86-88 | only that user's row changes, as JoinGroup says; `change_active_group` cannot fail after the membership add |
| Seeding.AdminJoinedStep | adit_radis_shared/common/management/commands/populate_users_and_groups.py:78-81 | one more group for the admin is one more JoinGroup |
| Seeding.JoinedRandomlyStep | adit_radis_shared/common/management/commands/populate_users_and_groups.py:84-88 | one more user of the loop is one more JoinGroup with its draw |
| Seeding.JoinRandomGroups | adit_radis_shared/common/management/commands/populate_users_and_groups.py:84-88 | fails without touching the users (the random pick has no group to choose from) exactly when there are no groups and at least one user; otherwise every user from position lo on joins its drawn group |
| Seeding.AdminJoinsAll | adit_radis_shared/common/management/commands/populate_users_and_groups.py:77-81 | users[0] joins all count groups in order, the first one becoming active if it had none; with no groups nothing changes |
| Seeding.CreateGroups | adit_radis_shared/common/management/commands/populate_users_and_groups.py:65-90 | the groups are always created with the seed names; an empty user list then fails (`users[0]`); no groups with more than one user fails at the random pick; otherwise users[0] is in every group and every other user in one drawn group |
| Seeding.ExampleCreateGroups | example_project/example_project/example_app/management/commands/populate_users_and_groups.py:55-68 | count factory-named groups are created; it fails only when there are users but no groups; otherwise every user, the admin too, joins one drawn group |
| Seeding.GeneratedNames | example_project/example_project/example_app/management/commands/populate_users_and_groups.py:58-60 | n factory-made names |
| Seeding.JoinedRandomlyAt | adit_radis_shared/common/management/commands/populate_users_and_groups.py:84-88 | with consecutive ids, each user in the range joined exactly its drawn group and every other row is unchanged |
| Seeding.PopulateUsersAndGroups | adit_radis_shared/common/management/commands/populate_users_and_groups.py:100-113 | nothing happens when a user exists; otherwise the users and groups are created, and the outcome and tables are those of CreateUsers then CreateGroups, failures included |
| Seeding.SharedPopulatedShape | adit_radis_shared/common/management/commands/populate_users_and_groups.py:65-90 | after seeding, the first user is in every new group with the first one active, every other user is in exactly its drawn group, which is active, and every row is consistent with the groups table |
| Seeding.ExamplePopulateUsersAndGroups | example_project/example_project/example_app/management/commands/populate_users_and_groups.py:78-91 | nothing happens when a user exists; otherwise the tables and outcome are those of the example create_users then create_groups |
| Seeding.ExamplePopulatedShape | example_project/example_project/example_app/management/commands/populate_users_and_groups.py:43-68 | exactly usersCount users with the admin first, each in its one drawn group, which is active, all consistent |
| Seeding.PopulateDb | example_project/example_project/example_app/management/commands/populate_db.py:82-101 | --reset empties the tables before the "already populated" check; without it an existing user means nothing changes; otherwise USER_COUNT users and GROUP_COUNT groups are created and every user joins its drawn group |
| SettingsRows.First | adit_radis_shared/common/models.py:26-32 | `ProjectSettings.get` (and `AppSettings.get`, lines 41-47): the first row, and the failed assertion, modelled as None, exactly when the table is empty |
| SettingsRows.EnsureProjectSettings | adit_radis_shared/common/apps.py:27-28 | after `init_db` at least one ProjectSettings row exists: the existing rows untouched, or one default row (no announcement, maintenance off) when there were none |
| SettingsRows.Describe | adit_radis_shared/common/models.py:12-13 | `__str__` renders "ClassName [pk]": the class name, " [", the key (or None), "]" |
| SettingsRows.DescribeDistinguishes | adit_radis_shared/common/models.py:23-24 | two rows of one class with different keys print differently |
| SettingsRows.CommonDb.constructor | adit_radis_shared/common/apps.py:6-7 | no hook connected yet |
| SettingsRows.CommonDb.Ready | adit_radis_shared/common/apps.py:9-11 | `ready` connects `init_db` to `post_migrate`; no table changes |
| SettingsRows.CommonDb.InitDb | adit_radis_shared/common/apps.py:14-28 | the site with pk SITE_ID gets the configured domain and name, whether updated or created; a ProjectSettings row is created only when none exists |
| SettingsRows.CommonDb.PostMigrate | adit_radis_shared/common/apps.py:9-11 | after a migration `init_db` runs exactly when `ready` has connected it |
| SettingsRows.InitDbStep | adit_radis_shared/common/apps.py:19-28 | the site row has the configured values, every other site is untouched, and `ProjectSettings.get` then finds a row |
| SettingsRows.InitDbIdempotent | adit_radis_shared/common/apps.py:19-28 | running `init_db` twice is running it once, and existing settings rows are kept |
| SettingsRows.GetAfterInit | adit_radis_shared/common/apps.py:27-28 | after `init_db`, `ProjectSettings.get` returns the first existing row, or the default one |
| CliSetup.SeparatorIndex | adit_radis_shared/cli/setup.py:10 | the position of the first `--`, no earlier argument being `--`; past the end when there is none |
| CliSetup.SplitArgsWithSeparator | adit_radis_shared/cli/setup.py:9-12 | the part before, `--` and the part after give the arguments back; the first part holds no `--` |
| CliSetup.SplitArgsWithoutSeparator | adit_radis_shared/cli/setup.py:13-15 | without `--` everything is parsed and nothing is passed on |
| CliSetup.SplitArgsKeepsTail | adit_radis_shared/cli/setup.py:9-12 | whatever follows the first `--`, later `--` included, is passed on unchanged |
| CliSetup.SeparatorIndexAt | adit_radis_shared/cli/setup.py:10 | the index is fixed by the arguments before it and the `--` at it |
| CliSetup.SetupRootParser | adit_radis_shared/cli/setup.py:7-27 | unknown arguments before `--` are a parser error; without a subcommand the help is printed and the exit status is 1; otherwise the selected subcommand is called with what follows `--` |
| CliSetup.SetupPassesTail | adit_radis_shared/cli/setup.py:7-27 | a subcommand receives exactly the arguments after the first `--` |
| SiteContext.DefaultMenuItem | adit_radis_shared/common/site.py:10-14 | a menu item built from a name and a label has order 1 and is not staff-only |
| SiteContext.InsertAddsItem | adit_radis_shared/common/site.py:20-22 | registration adds exactly the new item to the menu, as a multiset |
| SiteContext.InsertSorted | adit_radis_shared/common/site.py:20-22 | registration into a menu sorted by `order` leaves it sorted |
| SiteContext.InsertStable | adit_radis_shared/common/site.py:20-22 | the sort is stable: the items of each order stay in registration order, the new one last among its order |
| SiteContext.InsertAt | adit_radis_shared/common/site.py:20-22 | the new item goes after every item whose order is not larger and before the first one whose order is larger |
| SiteContext.MenuRegistry.constructor | adit_radis_shared/common/site.py:17 | the registry starts empty |
| SiteContext.MenuRegistry.Register | adit_radis_shared/common/site.py:20-22 | the list becomes the old one with the item inserted in its stable sorted place; it stays sorted and gains exactly that item |
| SiteContext.PlainMenuRegistry.constructor | common/site.py:13 | the registry starts empty |
| SiteContext.PlainMenuRegistry.Register | common/site.py:16-17 | the new entry is appended, the earlier entries untouched |
| SiteContext.PlainRegistered | common/site.py:16-17 | entries registered one after another appear in registration order with their names and labels |
| SiteContext.PrefOr | adit_radis_shared/common/site.py:33-34 | a stored preference wins over the default |
| SiteContext.Theme | adit_radis_shared/common/site.py:28-34 | anonymous users get "auto" and "light"; signed-in users get their stored theme and theme colour where present and the defaults otherwise |
| SiteContext.BaseContextProcessor | adit_radis_shared/common/site.py:25-56 | the context carries the registry's menu list as it is, the theme pair and the public `theme_preference_key` "theme" |
| SiteContext.PlainBaseContextProcessor | common/site.py:20-44 | the same menu list and theme pair, with no theme preference key |
| SiteContext.StoredThemeUsed | adit_radis_shared/common/site.py:7 | a theme stored through the preferences view under `theme_preference_key` is the theme of the next rendered page |
| SuperuserCommand.Truthy | adit_radis_shared/common/management/commands/create_superuser.py:26-39 | `os.environ.get(key)` counts only when the variable is present and not empty, and then it is the variable's value |
| SuperuserCommand.Guard | adit_radis_shared/common/management/commands/create_superuser.py:21-45 | the command goes on exactly when no superuser exists (or --force), the three variables are set and non-empty, and the username is free; an existing superuser without --force always stops it first |
| SuperuserCommand.GuardOrder | adit_radis_shared/common/management/commands/create_superuser.py:30-39 | username, email and password are checked in that order and the first missing one is reported |
| SuperuserCommand.NormalizeEmail | adit_radis_shared/common/management/commands/create_superuser.py:49 | the address `create_superuser` stores: an address without `@` is kept as given; otherwise it is stripped, kept character for character up to its last `@`, and the domain after it is lower-cased |
| SuperuserCommand.NormalizeEmailIdempotent | adit_radis_shared/common/management/commands/create_superuser.py:49 | normalising a stored address again gives it back |
| SuperuserCommand.SuperuserStep | adit_radis_shared/common/management/commands/create_superuser.py:21-67 | a superuser is created exactly when no guard stops the command: one new superuser row with that username, the normalised e-mail address, no groups and no active group, appended, and a token (hash, FRACTION_LENGTH prefix, new owner, no expiry) exactly when SUPERUSER_AUTH_TOKEN is non-empty; a stopped command changes nothing |
| SuperuserCommand.SecondRunCreatesNothing | adit_radis_shared/common/management/commands/create_superuser.py:14-49 | after a successful run, a second run creates nothing: it finds the superuser, or with --force the taken username |
| SuperuserCommand.CreateSuperuser | adit_radis_shared/common/management/commands/create_superuser.py:21-67 | the outcome and the new users and tokens tables are those of SuperuserStep; groups are unchanged |
| TemplateTags.AccessItem | adit_radis_shared/common/templatetags/common_extras.py:16-18 | the value under the key when present, the empty string otherwise |
| TemplateTags.BaseUrl | adit_radis_shared/common/templatetags/common_extras.py:21-34 | the protocol follows the request's `is_secure` when there is a request, and the production environment otherwise; then `://` and the site's domain |
| TemplateTags.BaseUrlShape | adit_radis_shared/common/templatetags/common_extras.py:21-34 | the base URL starts with `http://` or `https://` and ends with the domain |
| TemplateTags.SetParam | adit_radis_shared/common/templatetags/common_extras.py:44-45 | setting a field replaces all values of an existing field in place with the one value, leaves every other field as it was, and appends a new field at the end |
| TemplateTags.SetParamLookup | adit_radis_shared/common/templatetags/common_extras.py:44-45 | after setting, the query still has distinct keys and holds the field with exactly the new value |
| TemplateTags.DistinctTail | adit_radis_shared/common/templatetags/common_extras.py:44 | a query dictionary without its first field still has distinct keys |
| TemplateTags.SetParamIdempotent | adit_radis_shared/common/templatetags/common_extras.py:43-46 | replacing the same field with the same value twice gives the query of replacing it once |
| TemplateTags.EntryPairs | adit_radis_shared/common/templatetags/common_extras.py:46 | one `key=value` pair per value of a field |
| TemplateTags.PairsAppended | adit_radis_shared/common/templatetags/common_extras.py:44-46 | adding a field that was absent adds exactly its `field=value` pair at the end of the encoded pairs |
| TemplateTags.UrlReplace | adit_radis_shared/common/templatetags/common_extras.py:42-46 | for a field the request does not carry, the result is the request's query string followed by `&field=value` |
| TemplateTags.JoinIfList | adit_radis_shared/common/templatetags/common_extras.py:49-54 | a list is joined with the separator; any other value is returned unchanged |
| TemplateTags.AlertClass | adit_radis_shared/common/templatetags/common_extras.py:62-70 | info, success and warning map to their `alert-` class, error to `alert-danger`, anything else to `alert-secondary` |
| TemplateTags.MessageSymbol | adit_radis_shared/common/templatetags/common_extras.py:73-81 | the four known tags map to themselves, anything else to `bug` |
| TemplateTags.TagTables | adit_radis_shared/common/templatetags/common_extras.py:62-81 | the secondary alert class is given exactly to unknown tags, and a tag is its own symbol exactly when it is known or is `bug` |
| Telemetry.WithOtel | adit_radis_shared/telemetry.py:39-41 | the list ends up holding `otel`, extends the old list by at most that one entry, and is unchanged when `otel` was already there |
| Telemetry.WithOtelIdempotent | adit_radis_shared/telemetry.py:39-45 | adding `otel` to a handler list twice is adding it once |
| Telemetry.LoggerWithOtel | adit_radis_shared/telemetry.py:38-41 | a logger gets a handler list holding `otel`, keeps its old handlers in order and every other setting |
| Telemetry.HandlersWithOtel | adit_radis_shared/telemetry.py:29-36 | the handlers gain `otel` with level DEBUG and the OpenTelemetry class unless it is already registered; every other handler is kept as it was |
| Telemetry.LoggersWithOtel | adit_radis_shared/telemetry.py:38-41 | every listed logger, and only those, gets `otel` among its handlers |
| Telemetry.LoggingConfig.constructor | adit_radis_shared/telemetry.py:23 | a LOGGING dictionary with the given entries |
| Telemetry.LoggingConfig.AddOtelLoggingHandler | adit_radis_shared/telemetry.py:23-45 | the dictionary afterwards is the configuration with the handler added everywhere |
| Telemetry.AddOtelToLoggers | adit_radis_shared/telemetry.py:38-41 | the loop updates every listed logger, one at a time, to hold `otel` |
| Telemetry.WithOtelHandler | adit_radis_shared/telemetry.py:23-45 | `otel` is registered and the handlers are the old ones with `otel` set by `setdefault` (HandlersWithOtel); every listed logger and the root logger (the old root, or an empty one when missing) get it by LoggerWithOtel, which keeps their settings; the set of loggers is the same, and the other keys are untouched |
| Telemetry.WithOtelHandlerIdempotent | adit_radis_shared/telemetry.py:27 | a second call changes nothing, as the docstring promises |
| Telemetry.WithOtelHandlerKeeps | adit_radis_shared/telemetry.py:27-45 | a configuration that already lists `otel` everywhere is left as it is |
| Telemetry.ServiceName | adit_radis_shared/telemetry.py:88-94 | a non-empty OTEL_SERVICE_NAME is the service name; otherwise it is derived from SITE_NAME (`unknown` when unset) and the host's role |
| Telemetry.Role | adit_radis_shared/telemetry.py:93 | the role is the host name up to its first dot, the whole name when it has none, and holds no dot |
| Telemetry.DerivedServiceName | adit_radis_shared/telemetry.py:94 | site name, a dash and the role, each character lower-cased and each space turned into a dash, with no space left |
| Telemetry.DashesForSpaces | adit_radis_shared/telemetry.py:94 | each space becomes a dash and every other character is kept |
| Telemetry.TelemetryState.constructor | adit_radis_shared/telemetry.py:16 | telemetry starts inactive |
| Telemetry.TelemetryState.SetupOpentelemetry | adit_radis_shared/telemetry.py:48-130 | an active setup is skipped; without an endpoint telemetry stays off; otherwise it is active exactly when initialisation succeeds, with the derived service name |
| Tokens.HexDigit | adit_radis_shared/cli_helpers.py:244 | each nibble becomes a lower-case hexadecimal digit |
| Tokens.HexDigitValue | adit_radis_shared/cli_helpers.py:244 | a digit reads back as its nibble |
| Tokens.Hexlify | adit_radis_shared/cli_helpers.py:244 | two hexadecimal digits per byte |
| Tokens.UnhexlifyHexlify | adit_radis_shared/cli_helpers.py:244 | hexlifying loses nothing: the bytes are read back |
| Tokens.GenerateAuthToken | adit_radis_shared/cli_helpers.py:243-244 | the token has two lower-case hexadecimal digits per random byte and reads back as those bytes |
| Tokens.PasswordAlphabetShape | adit_radis_shared/cli_helpers.py:239 | letters, digits and punctuation make 94 printable characters, none a space |
| Tokens.GenerateSecurePassword | adit_radis_shared/cli_helpers.py:238-240 | one character per draw (none for a length below one), each the drawn character of the alphabet and so printable and not a space |
| Views.HtmxGet | adit_radis_shared/common/views.py:25-28 | the page is served exactly for htmx requests and unchanged; any other request raises `SuspiciousOperation` |
| Views.HomeContext | adit_radis_shared/common/views.py:34-38 | the context gains `announcement` from the ProjectSettings row and keeps every other key and value; no row means failure |
| Views.HomeAfterInit | adit_radis_shared/common/views.py:34-38 | once the settings row exists the home page always has an announcement, empty for a freshly created row |
| Views.Coerce | adit_radis_shared/common/views.py:59-64 | exactly the strings "true" and "false" become booleans, with the matching truth value; any other value is stored verbatim |
| Views.FirstInvalid | adit_radis_shared/common/views.py:52-54 | finds the first posted key not in `allowed_keys`, all keys before it being allowed; none exactly when every key is allowed |
| Views.LastPosted | adit_radis_shared/common/views.py:58 | the value last posted for a key, present exactly when the key was posted |
| Views.UpdatedLookup | adit_radis_shared/common/views.py:58-64 | after the update a key is present iff it was before or was posted; a posted key holds the coercion of its last value; other keys keep their value |
| Views.UpdatedIdempotent | adit_radis_shared/common/views.py:58-64 | storing the same posted pairs a second time changes nothing |
| Views.PreferencesOwner.constructor | adit_radis_shared/common/views.py:56 | a user holding the given preferences |
| Views.PreferencesOwner.Post | adit_radis_shared/common/views.py:51-68 | an unknown key rejects the post, naming the first such key, with nothing stored; otherwise the preferences become the old ones updated by every posted pair in order |
| Views.OnlyAllowedChange | adit_radis_shared/common/views.py:51-64 | after an accepted post every key outside `allowed_keys` is as it was |
| Views.StaffAccess | adit_radis_shared/common/views.py:71-77 | anonymous users are sent to log in, signed-in non-staff are forbidden, and exactly staff are granted |
| Views.Emails | adit_radis_shared/common/views.py:87 | one address per recipient, in the recipients' order |
| Views.FormValid | adit_radis_shared/common/views.py:79-96 | the deferred mail goes to the recipients' addresses with subject and message as entered, the success message is flashed, and the redirect is back to the same path |
| ProcrastinateWorker.DefaultsValid | adit_radis_shared/common/management/base/procrastinate_worker.py:22-47 | the defaults are all queues, level `warning`, concurrency 1 and delete policy `always`, and lie within the options' choices |
| ProcrastinateWorker.WorkerArgs | adit_radis_shared/common/management/base/procrastinate_worker.py:49-63 | the command starts with `./manage.py procrastinate` and has four words plus two for each of debug level, a queue list and a concurrency above 1 |
| ProcrastinateWorker.WorkerArgsLayout | adit_radis_shared/common/management/base/procrastinate_worker.py:50-63 | `-v 1` comes right after the program exactly at debug level, then `worker` and the delete policy, then `--queues` and last `--concurrency` |
| ProcrastinateWorker.PlainOptionsSplitBack | adit_radis_shared/common/management/base/procrastinate_worker.py:49-65 | for accepted options and a queue list without blanks, quotes or backslashes, the worker gets exactly the words the line was built from |
| ProcrastinateWorker.BlankInQueuesSplits | adit_radis_shared/common/management/base/procrastinate_worker.py:58-65 | a queue list such as `default, dicom` reaches the worker as two words in place of one |
| ProcrastinateWorker.UnclosedQuoteInQueuesFails | adit_radis_shared/common/management/base/procrastinate_worker.py:58-65 | a queue list that opens a single quote without closing it makes the split raise `No closing quotation` |
| Shlex.PlainWordsSplit | adit_radis_shared/common/management/base/procrastinate_worker.py:65 | words without blanks, quotes or backslashes, joined by spaces, split back into the same words |
| Shlex.UnclosedQuoteFails | adit_radis_shared/common/management/base/procrastinate_worker.py:65 | plain words followed by a single quote that is never closed make `shlex.split` raise `No closing quotation` |
| Shlex.JoinSpaceInWord | adit_radis_shared/common/management/base/procrastinate_worker.py:58-65 | a word holding a space, once joined into the line, reads as the two words around the space |
| IpAddresses.HostNameIsNoAddress | adit_radis_shared/cli_helpers.py:275 | a name without dots and colons is no IPv4 or IPv6 address |
| IpAddresses.DottedQuadIsAddress | adit_radis_shared/cli_helpers.py:275 | four octets (one to three digits, no leading zero, at most 255) joined by dots are an address |
| IpAddresses.FirstEmpty | adit_radis_shared/cli_helpers.py:275 | the first empty colon-separated part, every earlier part non-empty, or past the end |
| ProcrastinateWorker.ProcrastinateServerCommand.constructor | adit_radis_shared/common/management/base/procrastinate_worker.py:15-17 | no worker process yet |
| ProcrastinateWorker.ProcrastinateServerCommand.RunServer | adit_radis_shared/common/management/base/procrastinate_worker.py:49-65 | the string built piece by piece is the worker's words joined by spaces; the worker runs with the words `shlex.split` makes of it, and when the split raises no worker is started |
| ProcrastinateWorker.ProcrastinateServerCommand.OnShutdown | adit_radis_shared/common/management/base/procrastinate_worker.py:68-71 | without a worker the assertion fails and nothing changes; otherwise the running worker is terminated with the same command line |

## Left out

- Process, container and network effects are not modelled: `subprocess.run`, `capture_cmd`, docker, the GitHub tags request and the chain-file request (`generate_chain_file_for_host`). Command output and HTTP responses are inputs instead.
- The filesystem is not modelled. `.env` is an optional map, the `pyproject.toml` probe is a predicate over paths, and `BACKUP_DIR` preparation runs over an abstract set of files and directories.
- `InstanceSteps.FileSystem.MakeDir` adds the one path. The flat sets of paths cannot express that `mkdir(parents=True, exist_ok=True)` also creates missing parent directories, nor that it raises when a parent is a file.
- dotenv parsing and `dotenv.set_key`: the already-parsed map is the input.
- RSA key generation, x509 signing and PEM output are not modelled; only the subject-alternative-name list is.
- `generate_django_secret_key` and `get_project_version` (dunamai and git) are not modelled. Both are calls into external libraries.
- Randomness is an input. `secrets.choice`, `os.urandom` and Faker draws are sequences passed in, so only shape, length and alphabet are stated.
- The `@task` bodies and command bodies that only sequence shell calls are not modelled. Their string building is covered by the helper members.
- `check_dev_container_up` (adit_radis_shared/cli_helpers.py:157-162) is not modelled: it only wraps a subprocess probe.
- Character classes are ASCII only. `lower`, `strip`, `\d`, `\w` and `\s` are modelled over ASCII letters and whitespace, while Python's versions are Unicode-aware.
- The percent-quoting done by `urlencode` is not modelled: `TemplateTags.UrlReplace` returns the ordered query pairs, not the encoded string.
- A QueryDict key posted twice is modelled with the last value winning (`Views.LastPosted`). Multi-valued keys are not otherwise modelled.
- `TemplateTags.JoinIfList`: Django's autoescaping of the joined parts and of the separator is not modelled.
- `bootstrap_icon` and `combine_datetime` (adit_radis_shared/common/templatetags/common_extras.py:37-39 and 57-59) are not modelled. They only render markup or call `datetime.combine`.
- The token hashing function, `FRACTION_LENGTH` and the model factories are parameters: adit_radis_shared/token_authentication and the factories are not part of this model.
- `Forms.ValidateBroadcast`: the ordering of the recipient query by username is not modelled. Recipients are taken in the order given. Posted ids that are not numbers (Django's `invalid_pk_value` error) are not modelled: ids are already numbers.
- `Views.FormValid` yields the recipient e-mail list. Deferring the mail job and delivering it through Procrastinate are not modelled.
- `AdminProxyView.as_url` and the proxying itself are not modelled; only the staff check (`test_func`) is.
- Django's mixins, URL routing, template rendering and the `ServiceUnavailable`/`SuspiciousOperation` exception machinery are not modelled. They appear only as outcome constructors.
- The Procrastinate job manager's asyncio calls are a `JobManager` object whose stalled jobs are given.
- `ProcrastinateWorker.ProcrastinateServerCommand.RunServer` builds the command line, splits it and records that a worker was started. Spawning the process and waiting on it are not modelled.
- `Middlewares.TimezoneFor`: the contents of the pytz time-zone database are a parameter (`zones`); pytz's case-insensitive fallback lookup is not modelled.
- `OpsSpec.AltNames`: the address object `ipaddress.ip_address` returns is kept as the text written, not in its normalised form (`::0001` stays as written). The message text of the `ValueError` is replaced by the offending address.
- `setup_opentelemetry`'s exporters and instrumentors are foreign library calls. Whether they all succeed is a boolean input, and `is_telemetry_active` (adit_radis_shared/telemetry.py:19-20) only reads the flag.
- `SuperuserCommand.SuperuserStep`: Django's `normalize_username` (the NFKC form of the username) is not modelled; the row stores SUPERUSER_USERNAME as given. The model is exact for usernames that NFKC leaves unchanged, such as ASCII ones.
- `SuperuserCommand.SecondRunCreatesNothing`: for a username that NFKC changes (a full-width letter), Django stores the normalised name, so the `--force` rerun does not find it and fails with an IntegrityError on the unique username instead of reporting `UsernameTaken`; the model, which stores the name as given, reports `UsernameTaken`.
- `SuperuserCommand.CreateSuperuser`: inherits SuperuserStep's unnormalised username. The domain lower-casing of `NormalizeEmail` uses the ASCII `Lower`.
- Concurrent requests and database transactions are not modelled. Every operation runs alone on the state it is given.

## Findings

| source | as written | input that shows it | evidently intended | confidence | as-written member | corrected member |
|---|---|---|---|---|---|---|
| adit_radis_shared/common/middlewares.py:49-53 | the banner is inserted after a match of the greedy pattern `<body.*>`, so it lands after the last `>` of the line that holds the body tag | a staff HTML page during maintenance whose body line is `<body><p>x</p>`: the banner ends up after `</p>` | the banner goes right after the `<body…>` tag | not executed | Middlewares.MaintenanceBannerMisplaced | Middlewares.BodyTagHintPlaced |

`Middlewares.Maintenance` models the middleware as written. `Middlewares.CorrectedMaintenance` substitutes the intended `<body[^>]*>` match (`Middlewares.WithHints`), which `Middlewares.BodyTagHintPlaced` proves places the banner right after the body tag, and `Middlewares.CorrectedOnlyMovesBanner` shows it changes nothing else.
