/**
 * GuardrailsDeployer (cai_integration/launch_guardrails.py): builds the application
 * payload from the deployment configuration, creates the application, waits for it
 * to run, and records how to reach it.
 */
module LaunchGuardrails {
  import opened Wrappers
  import opened JsonValue
  import opened CmlApi

  const AppName: string := "nemo-guardrails-server"
  const AppDescription: string := "NeMo Guardrails Server"
  const DefaultRuntime: string :=
    "docker.repository.cloudera.com/cloudera/cdsw/ml-runtime-pbj-jupyterlab-python3.11-cuda:2025.09.1-b5"

  /** The bash wrapper the application runs at start-up. */
  const StartupScript: string :=
    "#!/bin/bash\nset -eox pipefail\n\n# CAI Application Startup Wrapper\n"
    + "# This simple script calls the Python entry point which handles all setup\n\n"
    + "cd /home/cdsw\n\n# Execute the Python startup script\n"
    + "exec python cai_integration/app_startup.py\n"

  /** `wait_for_app_ready`'s default timeout, in seconds. */
  const ReadyTimeout: int := 300

  /** `_default_config` */
  function DefaultConfig(): (cfg: Fields)
    ensures cfg.Keys == {"server", "guardrails"}
    ensures cfg["server"] == JObj(map["cpu" := JInt(4), "memory" := JInt(16)])
    ensures cfg["guardrails"] == JObj(map["config_path" := JStr("config")])
  {
    map["server" := JObj(map["cpu" := JInt(4), "memory" := JInt(16)]),
        "guardrails" := JObj(map["config_path" := JStr("config")])]
  }

  /** `_load_config`: the file's mapping, or the defaults when the file does not exist. */
  function LoadConfig(file: Option<Fields>): (cfg: Fields)
    ensures file.None? ==> cfg == DefaultConfig()
    ensures file.Some? ==> cfg == file.value
  {
    file.GetOr(DefaultConfig())
  }

  /** `config.get(key, {})` used as a dict: `None` where `.get` on it would raise. */
  function Section(cfg: Fields, key: string): Option<Fields> {
    match Get(cfg, key, JObj(map[]))
    case JObj(f) => Some(f)
    case _ => None
  }

  /** The `app_data` dict that `create_application` posts, one field per key. */
  datatype AppData = AppData(
    name: string, description: string, script: string, cpu: Json, memory: Json,
    guardrailsConfigPath: Json, bypassAuthentication: Json, runtimeIdentifier: Json)
  {
    /** The dict as it is sent. */
    function Fields(): Fields {
      map["name" := JStr(name), "description" := JStr(description), "script" := JStr(script),
          "cpu" := cpu, "memory" := memory,
          "environment" := JObj(map["GUARDRAILS_CONFIG_PATH" := guardrailsConfigPath]),
          "bypass_authentication" := bypassAuthentication, "runtime_identifier" := runtimeIdentifier]
    }
  }

  /** The payload `create_application` builds; `None` where building it raises (a "server"
      or "guardrails" value that is not a dict). Every payload is named
      "nemo-guardrails-server" and runs the start-up script; each setting is copied when
      present and takes its default when absent. */
  function AppPayload(cfg: Fields): (p: Option<AppData>)
    ensures p.Some? <==> Section(cfg, "server").Some? && Section(cfg, "guardrails").Some?
    ensures p.Some? ==>
      var server := Section(cfg, "server").value;
      var guardrails := Section(cfg, "guardrails").value;
      && p.value.name == AppName && p.value.description == AppDescription
      && p.value.script == StartupScript
      && p.value.cpu == (if "cpu" in server then server["cpu"] else JInt(4))
      && p.value.memory == (if "memory" in server then server["memory"] else JInt(16))
      && p.value.guardrailsConfigPath
         == (if "config_path" in guardrails then guardrails["config_path"] else JStr("config"))
      && p.value.bypassAuthentication
         == (if "bypass_authentication" in server then server["bypass_authentication"] else JBool(true))
      && p.value.runtimeIdentifier
         == (if "runtime_identifier" in server then server["runtime_identifier"] else JStr(DefaultRuntime))
  {
    match (Section(cfg, "server"), Section(cfg, "guardrails"))
    case (Some(server), Some(guardrails)) =>
      Some(AppData(AppName, AppDescription, StartupScript,
                   Get(server, "cpu", JInt(4)),
                   Get(server, "memory", JInt(16)),
                   Get(guardrails, "config_path", JStr("config")),
                   Get(server, "bypass_authentication", JBool(true)),
                   Get(server, "runtime_identifier", JStr(DefaultRuntime))))
    case _ => None
  }

  /** With no configuration file the payload asks for 4 CPUs, 16 GB, the "config"
      guardrails directory, no authentication and the default runtime. */
  lemma MissingFilePayload()
    ensures AppPayload(LoadConfig(None))
         == Some(AppData(AppName, AppDescription, StartupScript, JInt(4), JInt(16), JStr("config"),
                         JBool(true), JStr(DefaultRuntime)))
  {
    var server := map["cpu" := JInt(4), "memory" := JInt(16)];
    assert Section(DefaultConfig(), "server") == Some(server);
    assert "bypass_authentication" !in server && "runtime_identifier" !in server;
  }

  function ApplicationsEndpoint(projectId: string): string {
    "projects/" + projectId + "/applications"
  }

  function ApplicationEndpoint(projectId: string, appId: Json): string {
    ApplicationsEndpoint(projectId) + "/" + Show(appId)
  }

  /** `create_application`'s verdict on the reply: the response only when it has an "id". */
  function CreateApplication(reply: Reply): (app: Option<Fields>)
    ensures app.Some? <==> && reply.Answered? && 200 <= reply.status < 300 && reply.text != []
                           && reply.body.Object? && "id" in reply.body.fields
    ensures app.Some? ==> app.value == reply.body.fields
  {
    var result := MakeRequest(reply);
    if Usable(result) && "id" in result.value then result else None
  }

  /** How `wait_for_app_ready` reads one poll: only "running" ends the wait. */
  function AppJudge(result: Option<Fields>): Verdict {
    if Usable(result) && StatusOf(result.value) == JStr("running") then Pass else Pending
  }

  /** `wait_for_app_ready`, polling the application's URL. */
  method WaitForAppReady(c: Client, projectId: string, appId: Json, polls: seq<Reply>, timeout: int)
    returns (ready: bool, sent: seq<Request>)
    ensures Waited(ready, |sent|) == PollOutcome(polls, AppJudge, 0, PollBudget(timeout))
    ensures sent == Repeat(GetRequest(c, ApplicationEndpoint(projectId, appId)), |sent|)
  {
    var budget := PollBudget(timeout);
    var poll := GetRequest(c, ApplicationEndpoint(projectId, appId));
    sent := [];
    var i := 0;
    while i < budget
      invariant i <= budget && sent == Repeat(poll, i)
      invariant PollOutcome(polls, AppJudge, i, budget) == PollOutcome(polls, AppJudge, 0, budget)
    {
      sent := sent + [poll];
      var result := Observe(polls, i);
      if Usable(result) {
        var status := StatusOf(result.value);
        if status == JStr("running") {
          return true, sent;
        }
      }
      i := i + 1;
    }
    ready := false;
  }

  /** The application is ready iff some poll within the budget sees "running"; since no
      other status ends the wait ("failed" included), a wait that fails uses the whole budget. */
  lemma {:induction false} ReadyOnlyWhenRunning(polls: seq<Reply>, i: nat, budget: nat)
    requires i <= budget
    ensures var w := PollOutcome(polls, AppJudge, i, budget);
      && (w.succeeded <==> exists k :: i <= k < budget && Usable(Observe(polls, k))
                                     && StatusOf(Observe(polls, k).value) == JStr("running"))
      && (!w.succeeded ==> w.polled == budget)
    decreases budget - i
  {
    if i < budget {
      ReadyOnlyWhenRunning(polls, i + 1, budget);
      if PollOutcome(polls, AppJudge, i, budget).succeeded && AppJudge(Observe(polls, i)) == Pending {
        var k :| i + 1 <= k < budget && Usable(Observe(polls, k))
                 && StatusOf(Observe(polls, k).value) == JStr("running");
      }
    }
  }

  /** The record `save_connection_info` writes. */
  datatype ConnectionInfo = ConnectionInfo(
    appId: Json, appName: Json, subdomain: Json, url: string, status: Json, createdAt: Json)

  /** `save_connection_info`: the subdomain is the app's "subdomain", else its "name", else
      "guardrails"; the URL is `https://` and the subdomain; the rest is copied. */
  function SaveConnectionInfo(app: Fields): (info: ConnectionInfo)
    ensures "subdomain" in app ==> info.subdomain == app["subdomain"]
    ensures "subdomain" !in app && "name" in app ==> info.subdomain == app["name"]
    ensures "subdomain" !in app && "name" !in app ==> info.subdomain == JStr("guardrails")
    ensures info.url == "https://" + Show(info.subdomain)
    ensures info.appId == Get(app, "id", JNull) && info.appName == Get(app, "name", JNull)
    ensures info.status == Get(app, "status", JNull) && info.createdAt == Get(app, "created_at", JNull)
  {
    var subdomain := Get(app, "subdomain", Get(app, "name", JStr("guardrails")));
    ConnectionInfo(Get(app, "id", JNull), Get(app, "name", JNull), subdomain,
                   "https://" + Show(subdomain), Get(app, "status", JNull), Get(app, "created_at", JNull))
  }

  /** `main`'s check of `CDSW_DOMAIN`, `CDSW_APIV2_KEY` and `CDSW_PROJECT_ID`. */
  predicate EnvComplete(domain: Option<string>, apiKey: Option<string>, projectId: Option<string>) {
    && domain.Some? && domain.value != []
    && apiKey.Some? && apiKey.value != []
    && projectId.Some? && projectId.value != []
  }

  /** What `main` holds before `create_application`: the client, the project id and the
      payload, or `None` where it exits early. */
  function Prepare(domain: Option<string>, apiKey: Option<string>, projectId: Option<string>,
                   configFile: Option<Fields>): (r: Option<(Client, string, AppData)>)
    ensures r.Some? <==> EnvComplete(domain, apiKey, projectId) && AppPayload(LoadConfig(configFile)).Some?
    ensures r.Some? ==>
      r.value == (Connect("https://" + domain.value, apiKey.value), projectId.value, AppPayload(LoadConfig(configFile)).value)
  {
    if !EnvComplete(domain, apiKey, projectId) then None
    else match AppPayload(LoadConfig(configFile))
      case None => None
      case Some(payload) => Some((Connect("https://" + domain.value, apiKey.value), projectId.value, payload))
  }

  /** The requests `main` sends: the create POST once the payload is built, then the polls
      when the created application has a truthy id. */
  function DeployLog(domain: Option<string>, apiKey: Option<string>, projectId: Option<string>,
                     configFile: Option<Fields>, createReply: Reply, polls: seq<Reply>): seq<Request>
  {
    match Prepare(domain, apiKey, projectId, configFile)
    case None => []
    case Some((c, project, payload)) => CreateLog(c, project, payload, createReply, polls)
  }

  /** The requests from the create POST on. */
  function CreateLog(c: Client, projectId: string, payload: AppData, createReply: Reply, polls: seq<Reply>)
    : seq<Request>
  {
    var post := PostRequest(c, ApplicationsEndpoint(projectId), Some(payload.Fields()));
    match CreateApplication(createReply)
    case None => [post]
    case Some(app) =>
      var appId := Get(app, "id", JNull);
      if !Truthy(appId) then [post]
      else
        var w := PollOutcome(polls, AppJudge, 0, PollBudget(ReadyTimeout));
        [post] + Repeat(GetRequest(c, ApplicationEndpoint(projectId, appId)), w.polled)
  }

  /** The creation response has a truthy id and the application came up in time. */
  predicate CreatedAndReady(createReply: Reply, polls: seq<Reply>) {
    && CreateApplication(createReply).Some?
    && Truthy(Get(CreateApplication(createReply).value, "id", JNull))
    && PollOutcome(polls, AppJudge, 0, PollBudget(ReadyTimeout)).succeeded
  }

  /** The create POST comes first and every later request is a poll. */
  lemma CreateLogShape(c: Client, projectId: string, payload: AppData, createReply: Reply, polls: seq<Reply>)
    ensures var log := CreateLog(c, projectId, payload, createReply, polls);
      && log != [] && log[0].verb == "POST" && CountVerb(log, "POST") == 1
      && forall i :: 0 < i < |log| ==> log[i].verb == "GET"
  {
    var log := CreateLog(c, projectId, payload, createReply, polls);
    var post := log[0];
    CountVerbAppend([], [post], "POST");
    CountVerbAppend([post], log[1..], "POST");
    assert log == [post] + log[1..];
    if |log| > 1 {
      var app := CreateApplication(createReply).value;
      var w := PollOutcome(polls, AppJudge, 0, PollBudget(ReadyTimeout));
      var get := GetRequest(c, ApplicationEndpoint(projectId, Get(app, "id", JNull)));
      assert log[1..] == Repeat(get, w.polled);
      CountVerbRepeat(get, w.polled, "POST");
    }
  }

  /** `main` creates at most one application, and its POST comes before every poll. */
  lemma DeployCreatesOnce(domain: Option<string>, apiKey: Option<string>, projectId: Option<string>,
                          configFile: Option<Fields>, createReply: Reply, polls: seq<Reply>)
    ensures var log := DeployLog(domain, apiKey, projectId, configFile, createReply, polls);
      && CountVerb(log, "POST") == (if log == [] then 0 else 1)
      && (log != [] ==> log[0].verb == "POST" && forall i :: 0 < i < |log| ==> log[i].verb == "GET")
  {
    var prep := Prepare(domain, apiKey, projectId, configFile);
    if prep.Some? {
      CreateLogShape(prep.value.0, prep.value.1, prep.value.2, createReply, polls);
    }
  }

  /** `main`: check the environment, create the application, check its id, wait for it,
      then save the connection record built from the creation response. Exit status 1
      stands for every `sys.exit(1)`. */
  method Deploy(domain: Option<string>, apiKey: Option<string>, projectId: Option<string>,
                configFile: Option<Fields>, createReply: Reply, polls: seq<Reply>)
    returns (exitCode: int, saved: Option<ConnectionInfo>, sent: seq<Request>)
    ensures exitCode == 0 || exitCode == 1
    ensures saved.Some? <==> exitCode == 0
    ensures exitCode == 0 <==> Prepare(domain, apiKey, projectId, configFile).Some? && CreatedAndReady(createReply, polls)
    ensures saved.Some? ==> saved.value == SaveConnectionInfo(CreateApplication(createReply).value)
    ensures sent == DeployLog(domain, apiKey, projectId, configFile, createReply, polls)
  {
    if !(domain.Some? && domain.value != [] && apiKey.Some? && apiKey.value != []
         && projectId.Some? && projectId.value != []) {
      return 1, None, [];
    }
    var c := Connect("https://" + domain.value, apiKey.value);
    var config := LoadConfig(configFile);
    var payload := AppPayload(config);
    if payload.None? {
      return 1, None, [];
    }
    assert Prepare(domain, apiKey, projectId, configFile) == Some((c, projectId.value, payload.value));
    exitCode, saved, sent := CreateAndWait(c, projectId.value, payload.value, createReply, polls);
  }

  /** The part of `main` from `create_application` on. */
  method CreateAndWait(c: Client, projectId: string, payload: AppData, createReply: Reply, polls: seq<Reply>)
    returns (exitCode: int, saved: Option<ConnectionInfo>, sent: seq<Request>)
    ensures exitCode == 0 || exitCode == 1
    ensures saved.Some? <==> exitCode == 0
    ensures exitCode == 0 <==> CreatedAndReady(createReply, polls)
    ensures saved.Some? ==> saved.value == SaveConnectionInfo(CreateApplication(createReply).value)
    ensures sent == CreateLog(c, projectId, payload, createReply, polls)
  {
    sent := [PostRequest(c, ApplicationsEndpoint(projectId), Some(payload.Fields()))];
    var app := CreateApplication(createReply);
    if app.None? {
      return 1, None, sent;
    }
    var appId := Get(app.value, "id", JNull);
    if !Truthy(appId) {
      return 1, None, sent;
    }
    var ready, pollsSent := WaitForAppReady(c, projectId, appId, polls, ReadyTimeout);
    sent := sent + pollsSent;
    if !ready {
      return 1, None, sent;
    }
    saved := Some(SaveConnectionInfo(app.value));
    exitCode := 0;
  }
}
