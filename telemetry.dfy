/** adit_radis_shared/telemetry.py: adding the OpenTelemetry handler to a
    Django LOGGING dictionary in place, the one-shot `setup_opentelemetry`
    and the service name it reports. The exporters and instrumentors are
    foreign calls; whether they succeed is a parameter. */
module Telemetry {
  import opened Wrappers
  import opened Text

  const Otel: string := "otel"

  /** A handler list with "otel" at the end unless it is already there. */
  function WithOtel(handlers: seq<string>): (r: seq<string>)
    ensures Otel in r
    ensures handlers <= r && |r| <= |handlers| + 1
    ensures Otel in handlers ==> r == handlers
  {
    if Otel in handlers then handlers else handlers + [Otel]
  }

  lemma WithOtelIdempotent(handlers: seq<string>)
    ensures WithOtel(WithOtel(handlers)) == WithOtel(handlers)
  {
  }

  /** The settings of one logger (or of the root logger); `handlers` is
      `None` where the dictionary has no "handlers" key, and `settings` is
      everything else in it. */
  datatype LoggerConfig = LoggerConfig(handlers: Option<seq<string>>, settings: map<string, string>)

  /** `logger_config.setdefault("handlers", [])`, then "otel" appended if
      absent. */
  function LoggerWithOtel(logger: LoggerConfig): (r: LoggerConfig)
    ensures r.handlers.Some? && Otel in r.handlers.value
    ensures r.settings == logger.settings
    ensures logger.handlers.Some? ==> logger.handlers.value <= r.handlers.value
  {
    logger.(handlers := Some(WithOtel(logger.handlers.GetOr([]))))
  }

  /** The handler "otel" is registered with. */
  const OtelHandler: map<string, string> := map["level" := "DEBUG", "class" := "opentelemetry.sdk._logs.LoggingHandler"]

  /** `handlers.setdefault("otel", {...})` */
  function HandlersWithOtel(handlers: Option<map<string, map<string, string>>>): (r: map<string, map<string, string>>)
    ensures Otel in r
    ensures handlers.Some? ==> handlers.value.Keys <= r.Keys && forall k :: k in handlers.value ==> r[k] == handlers.value[k]
    ensures handlers.None? || Otel !in handlers.value ==> r[Otel] == OtelHandler
    ensures r.Keys == handlers.GetOr(map[]).Keys + {Otel}
  {
    var hs := handlers.GetOr(map[]);
    if Otel in hs then hs else hs[Otel := OtelHandler]
  }

  /** Every logger listed, with "otel" among its handlers. */
  function LoggersWithOtel(loggers: map<string, LoggerConfig>): (r: map<string, LoggerConfig>)
    ensures r.Keys == loggers.Keys
    ensures forall k :: k in r ==> r[k] == LoggerWithOtel(loggers[k])
  {
    map k | k in loggers :: LoggerWithOtel(loggers[k])
  }

  /** A Django LOGGING dictionary: the "handlers", "loggers" and "root"
      entries (`None` where the key is missing) and the other keys. */
  class LoggingConfig {
    var handlers: Option<map<string, map<string, string>>>
    var loggers: Option<map<string, LoggerConfig>>
    var root: Option<LoggerConfig>
    var rest: map<string, string>

    constructor (handlers: Option<map<string, map<string, string>>>, loggers: Option<map<string, LoggerConfig>>,
                 root: Option<LoggerConfig>, rest: map<string, string>)
      ensures this.handlers == handlers && this.loggers == loggers && this.root == root && this.rest == rest
    {
      this.handlers := handlers;
      this.loggers := loggers;
      this.root := root;
      this.rest := rest;
    }

    /** The configuration as a value. */
    function Snapshot(): Logging
      reads this
    {
      Logging(handlers, loggers, root, rest)
    }

    /** `add_otel_logging_handler(LOGGING)`: the handler is added to
        "handlers" (created if missing) and to every listed logger and the
        root logger (created if missing); the loggers are updated one at a
        time, as the loop over `loggers.values()` does. */
    method AddOtelLoggingHandler()
      modifies this
      ensures Snapshot() == WithOtelHandler(old(Snapshot()))
    {
      ghost var c0 := Snapshot();
      handlers := Some(HandlersWithOtel(handlers));
      if loggers.Some? {
        var updated := AddOtelToLoggers(loggers.value);
        loggers := Some(updated);
      }
      var rootConfig := root.GetOr(LoggerConfig(None, map[]));
      root := Some(LoggerWithOtel(rootConfig));
      assert Snapshot() == WithOtelHandler(c0);
    }
  }

  /** The loop over `logging_config["loggers"].values()`, one logger at a
      time. */
  method AddOtelToLoggers(listed: map<string, LoggerConfig>) returns (updated: map<string, LoggerConfig>)
    ensures updated == LoggersWithOtel(listed)
  {
    var pending := listed.Keys;
    updated := listed;
    while pending != {}
      invariant pending <= listed.Keys
      invariant updated.Keys == listed.Keys
      invariant forall k :: k in listed ==> updated[k] == if k in pending then listed[k] else LoggerWithOtel(listed[k])
      decreases |pending|
    {
      var name :| name in pending;
      updated := updated[name := LoggerWithOtel(listed[name])];
      pending := pending - {name};
    }
    ghost var expected := LoggersWithOtel(listed);
    assert forall k :: k in listed ==> updated[k] == expected[k];
  }

  /** The LOGGING dictionary as a value. */
  datatype Logging = Logging(
    handlers: Option<map<string, map<string, string>>>,
    loggers: Option<map<string, LoggerConfig>>,
    root: Option<LoggerConfig>,
    rest: map<string, string>)

  /** What `add_otel_logging_handler` makes of a configuration. */
  function WithOtelHandler(c: Logging): (r: Logging)
    ensures r.handlers.Some? && Otel in r.handlers.value
    ensures r.handlers == Some(HandlersWithOtel(c.handlers))
    ensures r.loggers.None? <==> c.loggers.None?
    ensures r.loggers.Some? ==> r.loggers.value.Keys == c.loggers.value.Keys
    ensures r.loggers.Some? ==> forall k :: k in r.loggers.value ==> r.loggers.value[k] == LoggerWithOtel(c.loggers.value[k])
    ensures r.root.Some? && r.root.value.handlers.Some? && Otel in r.root.value.handlers.value
    ensures r.root == Some(LoggerWithOtel(c.root.GetOr(LoggerConfig(None, map[]))))
    ensures r.rest == c.rest
  {
    Logging(
      Some(HandlersWithOtel(c.handlers)),
      if c.loggers.Some? then Some(LoggersWithOtel(c.loggers.value)) else None,
      Some(LoggerWithOtel(c.root.GetOr(LoggerConfig(None, map[])))),
      c.rest)
  }

  /** The docstring's promise: a second call changes nothing. */
  lemma WithOtelHandlerIdempotent(c: Logging)
    ensures WithOtelHandler(WithOtelHandler(c)) == WithOtelHandler(c)
  {
    var once := WithOtelHandler(c);
    if c.loggers.Some? {
      forall k | k in once.loggers.value
        ensures LoggerWithOtel(once.loggers.value[k]) == once.loggers.value[k]
      {
        WithOtelIdempotent(c.loggers.value[k].handlers.GetOr([]));
      }
      assert LoggersWithOtel(once.loggers.value) == once.loggers.value;
    }
    WithOtelIdempotent(c.root.GetOr(LoggerConfig(None, map[])).handlers.GetOr([]));
  }

  /** A configuration that already lists "otel" everywhere is left as it
      is. */
  lemma WithOtelHandlerKeeps(c: Logging)
    requires c.handlers.Some? && Otel in c.handlers.value
    requires c.loggers.Some? ==> forall k :: k in c.loggers.value ==>
               c.loggers.value[k].handlers.Some? && Otel in c.loggers.value[k].handlers.value
    requires c.root.Some? && c.root.value.handlers.Some? && Otel in c.root.value.handlers.value
    ensures WithOtelHandler(c) == c
  {
    if c.loggers.Some? {
      assert LoggersWithOtel(c.loggers.value) == c.loggers.value;
    }
  }

  /** `OTEL_SERVICE_NAME`, or the site name and the host's first label,
      lower-cased, with the spaces turned into dashes. */
  function ServiceName(env: map<string, string>, hostname: string): (r: string)
    ensures "OTEL_SERVICE_NAME" in env && env["OTEL_SERVICE_NAME"] != "" ==> r == env["OTEL_SERVICE_NAME"]
  {
    if "OTEL_SERVICE_NAME" in env && env["OTEL_SERVICE_NAME"] != "" then env["OTEL_SERVICE_NAME"]
    else
      var siteName := if "SITE_NAME" in env then env["SITE_NAME"] else "unknown";
      DerivedServiceName(siteName, Role(hostname))
  }

  /** `hostname.split(".")[0] if "." in hostname else hostname` */
  function Role(hostname: string): (r: string)
    ensures StartsWith(hostname, r)
    ensures '.' !in r
    ensures '.' !in hostname ==> r == hostname
    ensures |r| < |hostname| ==> hostname[|r|] == '.'
  {
    var i := IndexOf(hostname, '.');
    assert forall c :: c in hostname[..i] ==> c != '.';
    hostname[..i]
  }

  /** What lower-casing and then replacing spaces makes of one character. */
  function ServiceNameChar(c: char): char {
    if c == ' ' then '-' else LowerChar(c)
  }

  /** `f"{site_name}-{role}".lower().replace(" ", "-")` */
  function DerivedServiceName(siteName: string, role: string): (r: string)
    ensures |r| == |siteName| + 1 + |role|
    ensures ' ' !in r
    ensures forall i :: 0 <= i < |r| ==> !('A' <= r[i] <= 'Z')
    ensures r[|siteName|] == '-'
    ensures forall i :: 0 <= i < |siteName| ==> r[i] == ServiceNameChar(siteName[i])
    ensures forall i :: 0 <= i < |role| ==> r[|siteName| + 1 + i] == ServiceNameChar(role[i])
  {
    DashesForSpaces(Lower(siteName + "-" + role))
  }

  /** `s.replace(" ", "-")` */
  function DashesForSpaces(s: string): (r: string)
    ensures |r| == |s|
    ensures forall i :: 0 <= i < |s| ==> r[i] == if s[i] == ' ' then '-' else s[i]
  {
    seq(|s|, i requires 0 <= i < |s| => if s[i] == ' ' then '-' else s[i])
  }

  /** How `setup_opentelemetry` ends. */
  datatype SetupOutcome = AlreadyActive | Disabled | Initialized(serviceName: string) | Failed

  /** The module flag `_telemetry_active`. */
  class TelemetryState {
    var active: bool

    constructor ()
      ensures !active
    {
      active := false;
    }

    /** `setup_opentelemetry`: `env` is `os.environ`, `hostname` what
        `socket.gethostname` gives and `initSucceeds` whether the exporters
        and instrumentors were set up without an exception. */
    method SetupOpentelemetry(env: map<string, string>, hostname: string, initSucceeds: bool) returns (outcome: SetupOutcome)
      modifies this
      ensures old(active) ==> outcome == AlreadyActive && active
      ensures !old(active) && ("OTEL_EXPORTER_OTLP_ENDPOINT" !in env || env["OTEL_EXPORTER_OTLP_ENDPOINT"] == "")
              ==> outcome == Disabled && !active
      ensures !old(active) && "OTEL_EXPORTER_OTLP_ENDPOINT" in env && env["OTEL_EXPORTER_OTLP_ENDPOINT"] != ""
              ==> active == initSucceeds
                  && outcome == if initSucceeds then Initialized(ServiceName(env, hostname)) else Failed
    {
      if active {
        return AlreadyActive;
      }
      if "OTEL_EXPORTER_OTLP_ENDPOINT" !in env || env["OTEL_EXPORTER_OTLP_ENDPOINT"] == "" {
        return Disabled;
      }
      var serviceName := ServiceName(env, hostname);
      if !initSucceeds {
        return Failed;
      }
      active := true;
      return Initialized(serviceName);
    }
  }
}
