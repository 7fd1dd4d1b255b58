/**
 * The local run (local.go): expose a local web server through a tunnel,
 * register the tunnel URL as a temporary environment, create a run against
 * it and hand over to run monitoring.
 *
 * The tunnel library, the API client and `monitorRunStatus` are reached only
 * through `FakeRunnerAPI`, which records every call in one log and answers
 * from a script.  Each method of `LocalRunner` is specified by a function on
 * the environment variables and the script (`StartTunnelSpec`,
 * `MakeRunParamsSpec`, `StartRunSpec`); the ordering and abort properties are
 * lemmas about those functions.
 */
module Local {
  import opened Wrappers
  import opened Strconv
  import opened Rainforest

  const HostVar: string := "RFLOCAL_HOST"
  const PortVar: string := "RFLOCAL_PORT"
  const DefaultHost: string := "localhost"
  const DefaultPort: string := "3000"

  /** The crowd, browsers and test of every local run. */
  const LocalCrowd: string := "automation"
  const LocalBrowsers: seq<string> := ["chrome_1440_900"]
  const LocalTestID: int := 273861

  /** The errors local.go returns or passes on. */
  datatype Error =
    | ParseError(cause: NumError)            // RFLOCAL_PORT is not an integer
    | ApiError(message: string)              // returned by the API client or by run monitoring
    | ExitError(message: string, code: int)  // cli.NewExitError

  /** Go's `err.Error()`. */
  function Message(e: Error): string
  {
    match e
    case ParseError(cause) =>
      "strconv." + cause.func + ": parsing \"" + cause.num + "\": "
        + (if cause.err == ErrSyntax then "invalid syntax" else "value out of range")
    case ApiError(message) => message
    case ExitError(message, _) => message
  }

  /** Go's `os.Getenv`: the empty string for an unset variable. */
  function Getenv(environ: map<string, string>, key: string): string
  {
    if key in environ then environ[key] else ""
  }

  // ---------------------------------------------------------------------------
  // Tunnel configuration

  datatype TunnelConfig = TunnelConfig(host: string, port: int)

  /**
   * The host and port the tunnel exposes: an empty variable falls back to
   * its default; a port that is not a decimal integer is an error.
   */
  function ResolveTunnelConfig(environ: map<string, string>): (r: Result<TunnelConfig, Error>)
    ensures var host := Getenv(environ, HostVar);
            r.Ok? ==> r.value.host == (if host == "" then DefaultHost else host)
    ensures var port := Getenv(environ, PortVar);
            var portS := if port == "" then DefaultPort else port;
            match Atoi(portS)
            case Ok(n) => r.Ok? && r.value.port == n
            case Err(e) => r == Err(ParseError(e))
  {
    var host := Getenv(environ, HostVar);
    var host := if host == "" then DefaultHost else host;
    var portS := Getenv(environ, PortVar);
    var portS := if portS == "" then DefaultPort else portS;
    match Atoi(portS)
    case Err(e) => Err(ParseError(e))
    case Ok(port) => Ok(TunnelConfig(host, port))
  }

  /** An unset or empty RFLOCAL_PORT resolves to port 3000. */
  lemma PortDefault(environ: map<string, string>)
    requires Getenv(environ, PortVar) == ""
    ensures ResolveTunnelConfig(environ).Ok?
    ensures ResolveTunnelConfig(environ).value.port == 3000
  {
    AtoiItoa(3000);
    assert Itoa(3000) == DefaultPort;
  }

  /** RFLOCAL_PORT holding the decimal form of a 64-bit integer resolves to that integer. */
  lemma PortFromDecimal(environ: map<string, string>, n: int)
    requires MinInt <= n <= MaxInt
    requires Getenv(environ, PortVar) == Itoa(n)
    ensures ResolveTunnelConfig(environ).Ok?
    ensures ResolveTunnelConfig(environ).value.port == n
  {
    AtoiItoa(n);
    NatToDecimalValue(if n < 0 then -n else n);
  }

  // ---------------------------------------------------------------------------
  // The collaborators: tunnel, API client, run monitoring

  /** One call made to a collaborator. */
  datatype Call =
    | GetTunnel(port: int, host: string)
    | CreateTemporaryEnvironment(envParams: EnvironmentParams)
    | CreateRun(runParams: RunParams)
    | MonitorRunStatus(runID: int)

  /** The answers the collaborators give. */
  datatype Script = Script(
    tunnelURL: string,
    environment: Result<Environment, Error>,
    run: Result<RunStatus, Error>,
    monitor: Option<Error>)

  /** The position each kind of call takes in a local run. */
  function Stage(c: Call): nat
  {
    match c
    case GetTunnel(_, _) => 0
    case CreateTemporaryEnvironment(_) => 1
    case CreateRun(_) => 2
    case MonitorRunStatus(_) => 3
  }

  /** Each kind of call at most once, and in the order tunnel, environment, run, monitoring. */
  predicate InStageOrder(calls: seq<Call>)
  {
    forall i, j :: 0 <= i < j < |calls| ==> Stage(calls[i]) < Stage(calls[j])
  }

  /** An in-memory stand-in for the tunnel library, the API client and run monitoring. */
  class FakeRunnerAPI {
    const script: Script
    var log: seq<Call>

    constructor (script: Script)
      ensures this.script == script && log == []
    {
      this.script := script;
      log := [];
    }

    /** The tunnel's public URL; its error is not modelled (local.go discards it). */
    method GetTunnel(port: int, host: string) returns (url: string)
      modifies this
      ensures log == old(log) + [Call.GetTunnel(port, host)]
      ensures url == script.tunnelURL
    {
      log := log + [Call.GetTunnel(port, host)];
      url := script.tunnelURL;
    }

    /** Creates the environment named `TemporaryEnvName` for `url`. */
    method CreateTemporaryEnvironment(url: string) returns (env: Result<Environment, Error>)
      modifies this
      ensures log == old(log) + [Call.CreateTemporaryEnvironment(TemporaryEnvironmentParams(url))]
      ensures env == script.environment
    {
      log := log + [Call.CreateTemporaryEnvironment(TemporaryEnvironmentParams(url))];
      env := script.environment;
    }

    method CreateRun(params: RunParams) returns (status: Result<RunStatus, Error>)
      modifies this
      ensures log == old(log) + [Call.CreateRun(params)]
      ensures status == script.run
    {
      log := log + [Call.CreateRun(params)];
      status := script.run;
    }

    method MonitorRunStatus(runID: int) returns (err: Option<Error>)
      modifies this
      ensures log == old(log) + [Call.MonitorRunStatus(runID)]
      ensures err == script.monitor
    {
      log := log + [Call.MonitorRunStatus(runID)];
      err := script.monitor;
    }
  }

  // ---------------------------------------------------------------------------
  // What each step does: the calls it makes and what it returns

  /** startTunnel: the calls made, the URL and the error returned. */
  function StartTunnelSpec(environ: map<string, string>, script: Script): (seq<Call>, string, Option<Error>)
  {
    match ResolveTunnelConfig(environ)
    case Err(e) => ([], "", Some(e))
    case Ok(cfg) => ([Call.GetTunnel(cfg.port, cfg.host)], script.tunnelURL, None)
  }

  /** The parameters of a local run against environment `envID`. */
  function LocalRunParams(expand: seq<string> -> seq<string>, envID: int): RunParams
  {
    RunParams([LocalTestID], LocalCrowd, expand(LocalBrowsers), envID)
  }

  /**
   * makeRunParams: the calls made, the parameters and the error returned.
   * The error of startTunnel is overwritten: the environment is created
   * whatever startTunnel returned.
   */
  function MakeRunParamsSpec(environ: map<string, string>, script: Script, expand: seq<string> -> seq<string>)
    : (seq<Call>, RunParams, Option<Error>)
  {
    var (calls, url, _) := StartTunnelSpec(environ, script);
    var calls := calls + [Call.CreateTemporaryEnvironment(TemporaryEnvironmentParams(url))];
    match script.environment
    case Err(e) => (calls, EmptyRunParams, Some(e))
    case Ok(env) => (calls, LocalRunParams(expand, env.id), None)
  }

  /** startRun: the calls made and the error returned. */
  function StartRunSpec(environ: map<string, string>, script: Script, expand: seq<string> -> seq<string>)
    : (seq<Call>, Option<Error>)
  {
    var (calls, params, err) := MakeRunParamsSpec(environ, script, expand);
    if err.Some? then (calls, Some(ExitError(Message(err.value), 1)))
    else
      match script.run
      case Err(e) => (calls + [Call.CreateRun(params)], Some(ExitError(Message(e), 1)))
      case Ok(status) => (calls + [Call.CreateRun(params), Call.MonitorRunStatus(status.id)], script.monitor)
  }

  // ---------------------------------------------------------------------------
  // The runner

  class LocalRunner {
    const client: FakeRunnerAPI
    /** expandStringSlice, which is not part of this model. */
    const expand: seq<string> -> seq<string>

    constructor (client: FakeRunnerAPI, expand: seq<string> -> seq<string>)
      ensures this.client == client && this.expand == expand
    {
      this.client := client;
      this.expand := expand;
    }

    method StartTunnel(environ: map<string, string>) returns (url: string, err: Option<Error>)
      modifies client
      ensures var (calls, u, e) := StartTunnelSpec(environ, client.script);
              client.log == old(client.log) + calls && url == u && err == e
    {
      var host := Getenv(environ, HostVar);
      if host == "" {
        host := DefaultHost;
      }
      var portS := Getenv(environ, PortVar);
      if portS == "" {
        portS := DefaultPort;
      }
      var port := Atoi(portS);
      if port.Err? {
        return "", Some(ParseError(port.error));
      }
      url := client.GetTunnel(port.value, host);
      err := None;
    }

    method MakeRunParams(environ: map<string, string>) returns (params: RunParams, err: Option<Error>)
      modifies client
      ensures var (calls, p, e) := MakeRunParamsSpec(environ, client.script, expand);
              client.log == old(client.log) + calls && params == p && err == e
    {
      var expandedBrowsers := expand(LocalBrowsers);
      var tunnelURL;
      tunnelURL, err := StartTunnel(environ);
      var environment := client.CreateTemporaryEnvironment(tunnelURL);
      if environment.Err? {
        return EmptyRunParams, Some(environment.error);
      }
      params := RunParams([LocalTestID], LocalCrowd, expandedBrowsers, environment.value.id);
      err := None;
    }

    method StartRun(environ: map<string, string>) returns (err: Option<Error>)
      modifies client
      ensures var (calls, e) := StartRunSpec(environ, client.script, expand);
              client.log == old(client.log) + calls && err == e
    {
      var params;
      params, err := MakeRunParams(environ);
      if err.Some? {
        return Some(ExitError(Message(err.value), 1));
      }
      var runStatus := client.CreateRun(params);
      if runStatus.Err? {
        return Some(ExitError(Message(runStatus.error), 1));
      }
      err := client.MonitorRunStatus(runStatus.value.id);
    }
  }

  // ---------------------------------------------------------------------------
  // Properties of a local run

  /**
   * A port that does not parse ends startTunnel with "" and an error before
   * any tunnel is requested.  The error is a range error when the port is
   * decimal but out of range, or when its leading digits pass 2^64 - 1 before
   * the first non-digit; otherwise it is a syntax error.
   */
  lemma BadPortRequestsNoTunnel(environ: map<string, string>, script: Script)
    requires var p := Getenv(environ, PortVar);
             p != "" && !(IsDecimal(p) && MinInt <= SignedValue(p) <= MaxInt)
    ensures var p := Getenv(environ, PortVar);
            var kind := if IsDecimal(p) || LeadingDigitsValue(SplitSign(p).1) > MaxUint64
                        then ErrRange else ErrSyntax;
            StartTunnelSpec(environ, script) == ([], "", Some(ParseError(NumError("Atoi", p, kind))))
  {
  }

  /** A port that parses leads to exactly one tunnel request, for the resolved host and port, and no error. */
  lemma StartTunnelSuccess(environ: map<string, string>, script: Script)
    requires ResolveTunnelConfig(environ).Ok?
    ensures var cfg := ResolveTunnelConfig(environ).value;
            StartTunnelSpec(environ, script) == ([Call.GetTunnel(cfg.port, cfg.host)], script.tunnelURL, None)
  {
  }

  /**
   * A startTunnel error does not stop makeRunParams: the temporary environment
   * is still requested, for the empty URL.
   */
  lemma TunnelErrorDoesNotAbort(environ: map<string, string>, script: Script, expand: seq<string> -> seq<string>)
    requires StartTunnelSpec(environ, script).2.Some?
    ensures MakeRunParamsSpec(environ, script, expand).0
         == [Call.CreateTemporaryEnvironment(EnvironmentParams(TemporaryEnvName, ""))]
    ensures script.environment.Ok? ==> MakeRunParamsSpec(environ, script, expand).2 == None
  {
  }

  /** A successful makeRunParams fixes crowd, tests and browsers and uses the environment just created. */
  lemma MakeRunParamsSuccess(environ: map<string, string>, script: Script, expand: seq<string> -> seq<string>)
    requires script.environment.Ok?
    ensures var (calls, params, err) := MakeRunParamsSpec(environ, script, expand);
            err == None &&
            params.crowd == "automation" &&
            params.tests == [273861] &&
            params.browsers == expand(["chrome_1440_900"]) &&
            params.environmentID == script.environment.value.id &&
            calls[|calls| - 1] == Call.CreateTemporaryEnvironment(
              EnvironmentParams(TemporaryEnvName, StartTunnelSpec(environ, script).1))
  {
  }

  /**
   * A failed environment creation: makeRunParams returns empty parameters and
   * that error; startRun exits with code 1 and never creates a run.
   */
  lemma EnvironmentFailureAborts(environ: map<string, string>, script: Script, expand: seq<string> -> seq<string>)
    requires script.environment.Err?
    ensures MakeRunParamsSpec(environ, script, expand).1 == EmptyRunParams
    ensures MakeRunParamsSpec(environ, script, expand).2 == Some(script.environment.error)
    ensures var (calls, err) := StartRunSpec(environ, script, expand);
            err == Some(ExitError(Message(script.environment.error), 1)) &&
            forall i :: 0 <= i < |calls| ==> !calls[i].CreateRun? && !calls[i].MonitorRunStatus?
  {
  }

  /** A failed run creation: startRun exits with code 1 and monitoring never starts. */
  lemma RunFailureSkipsMonitoring(environ: map<string, string>, script: Script, expand: seq<string> -> seq<string>)
    requires script.environment.Ok? && script.run.Err?
    ensures var (calls, err) := StartRunSpec(environ, script, expand);
            err == Some(ExitError(Message(script.run.error), 1)) &&
            calls[|calls| - 1].CreateRun? &&
            forall i :: 0 <= i < |calls| ==> !calls[i].MonitorRunStatus?
  {
  }

  /**
   * When the environment and the run are created, startRun makes exactly the
   * tunnel calls, the environment creation for the tunnel URL, the run
   * creation for that environment and the monitoring of that run, and ends
   * with what monitoring returns.
   */
  lemma StartRunSuccessPath(environ: map<string, string>, script: Script, expand: seq<string> -> seq<string>)
    requires script.environment.Ok? && script.run.Ok?
    ensures var (tunnelCalls, url, _) := StartTunnelSpec(environ, script);
            StartRunSpec(environ, script, expand)
            == (tunnelCalls + [Call.CreateTemporaryEnvironment(EnvironmentParams(TemporaryEnvName, url)),
                               Call.CreateRun(LocalRunParams(expand, script.environment.value.id)),
                               Call.MonitorRunStatus(script.run.value.id)],
                script.monitor)
  {
    var t := StartTunnelSpec(environ, script);
    var a := Call.CreateTemporaryEnvironment(EnvironmentParams(TemporaryEnvName, t.1));
    var b := Call.CreateRun(LocalRunParams(expand, script.environment.value.id));
    var c := Call.MonitorRunStatus(script.run.value.id);
    assert (t.0 + [a]) + [b, c] == t.0 + [a, b, c];
  }

  /**
   * Every local run calls its collaborators in the fixed order tunnel,
   * environment, run, monitoring, each at most once, and always requests the
   * environment.
   */
  lemma StartRunCallOrder(environ: map<string, string>, script: Script, expand: seq<string> -> seq<string>)
    ensures InStageOrder(StartRunSpec(environ, script, expand).0)
    ensures Call.CreateTemporaryEnvironment(
              EnvironmentParams(TemporaryEnvName, StartTunnelSpec(environ, script).1))
            in StartRunSpec(environ, script, expand).0
  {
  }

  /**
   * A run is created only against the environment just created, and
   * monitoring receives exactly the identity of the run just created; a run
   * that reaches monitoring ends with what monitoring returns.
   */
  lemma RunUsesCreatedIdentities(environ: map<string, string>, script: Script, expand: seq<string> -> seq<string>)
    ensures var (calls, err) := StartRunSpec(environ, script, expand);
            (forall i :: 0 <= i < |calls| && calls[i].CreateRun? ==>
               script.environment.Ok? &&
               calls[i].runParams == LocalRunParams(expand, script.environment.value.id)) &&
            (forall i :: 0 <= i < |calls| && calls[i].MonitorRunStatus? ==>
               script.run.Ok? && calls[i].runID == script.run.value.id && err == script.monitor)
  {
  }
}
