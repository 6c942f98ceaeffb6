/**
 * The public provisioning operations of the service (service.py `install_agent`,
 * `uninstall_agent`, `register_host`): hostname resolution, then host registration, the SSH
 * steps, the template bind and the web scenarios, in that order, each stopping the operation
 * when it fails. The SSH side and the Zabbix side are oracles bundled in `Ssh` and `Zabbix`; the
 * Zabbix write calls are returned in `Writes` instead of being made.
 */
module Provisioning {
  import opened Wrappers
  import opened Json
  import opened ServiceModels
  import PySem
  import Seqs
  import WebUrls
  import Templates
  import RemoteSteps
  import HostRegistration
  import WebScenario

  /** What the SSH side yields: the hostname probe, one outcome per step, the rollback, the upload. */
  datatype Ssh = Ssh(
    probe: RemoteSteps.Outcome,
    outs: seq<RemoteSteps.Outcome>,
    rollbackOut: RemoteSteps.Outcome,
    upload: RemoteSteps.Upload)

  /**
   * The scenario name used for one URL and what Zabbix answers for it: the `httptest.get` reply
   * (or its failure), the failure of `httptest.update`, and the `httptest.create` reply (or its
   * failure).
   */
  datatype WebReply = WebReply(name: string, existing: Result<Value, Failure>, updateError: Option<Failure>,
                               created: Result<Value, Failure>)

  /**
   * What the Zabbix side yields: the replies to the calls of `_ensure_host`, the hosts the bind's
   * `host.get` finds and that call's failure, the bind's `host.update` failure, and the web
   * scenario replies per URL. Every failure is what `_zbx` raises for that call.
   */
  datatype Zabbix = Zabbix(
    registration: HostRegistration.Replies,
    bindHosts: map<string, HostRecord>,
    bindGetError: Option<Failure>,
    bindError: Option<Failure>,
    web: string -> WebReply)

  /**
   * The Zabbix writes one operation made, in the order of the three kinds: the host writes
   * attempted, and the bind and scenario writes that succeeded.
   */
  datatype Writes = Writes(
    host: seq<HostRegistration.Call>,
    bind: Option<Templates.HostUpdate>,
    scenarios: seq<WebScenario.ScenarioCall>)

  const NoWrites := Writes([], None, [])

  /** The dict `install_agent` returns. */
  datatype Installed = Installed(
    hostId: Option<string>, ip: string, status: string, log: string, hostname: string, zabbixUrl: Value)

  /** The dict `uninstall_agent` returns. */
  datatype Uninstalled = Uninstalled(
    ip: string, status: string, log: string, hostId: Option<string>, hostname: Option<string>, zabbixUrl: Value)

  /** `cfg.get("zabbix_api_base") or settings.zabbix_api_base`. */
  function ZabbixUrl(cfg: Value, settings: Settings): (r: Value)
    ensures PySem.Truthy(GetOrNull(cfg, "zabbix_api_base")) ==> r == GetOrNull(cfg, "zabbix_api_base")
    ensures !PySem.Truthy(GetOrNull(cfg, "zabbix_api_base")) ==> r == Str(settings.zabbixApiBase)
  {
    PySem.Or(GetOrNull(cfg, "zabbix_api_base"), Str(settings.zabbixApiBase))
  }

  /** The names that are replaced by the IP, compared in lower case. */
  predicate IsLocalhost(name: string) {
    var l := PySem.Lower(name);
    l == "localhost" || l == "localhost.localdomain"
  }

  /**
   * The technical host name `install_agent` settles on: the given hostname, else the stripped
   * output of the `hostname` probe, else (probe failed or printed nothing) the IP; a localhost
   * name becomes the IP.
   */
  function ResolveName(hostname: Option<string>, ip: string, probe: RemoteSteps.Outcome): (r: string)
    ensures Given(hostname) && !IsLocalhost(hostname.value) ==> r == hostname.value
    ensures (!Given(hostname) && probe.Output? && PySem.Strip(probe.text) != ""
             && !IsLocalhost(PySem.Strip(probe.text))) ==> r == PySem.Strip(probe.text)
    ensures !Given(hostname) && (probe.Raised? || PySem.Strip(probe.text) == "") ==> r == ip
    ensures IsLocalhost(r) ==> r == ip
    ensures r == "" ==> ip == ""
  {
    var candidate :=
      if Given(hostname) then hostname.value
      else if probe.Output? && PySem.Strip(probe.text) != "" then PySem.Strip(probe.text)
      else ip;
    if candidate != "" && IsLocalhost(candidate) then ip else candidate
  }

  /** The request `install_agent` carries on with: the resolved name and the visible name filled in. */
  function Resolved(req: InstallRequest, probe: RemoteSteps.Outcome): (r: InstallRequest)
    ensures r.hostname == Some(ResolveName(req.hostname, req.ip, probe))
    ensures r.visibleName == Some(OrElse(req.visibleName, ResolveName(req.hostname, req.ip, probe)))
    ensures r == req.(hostname := r.hostname, visibleName := r.visibleName)
  {
    var name := ResolveName(req.hostname, req.ip, probe);
    req.(hostname := Some(name), visibleName := Some(OrElse(req.visibleName, name)))
  }

  /** Whether a bind follows registration: template ids, a template id or a default template. */
  predicate BindWanted(req: InstallRequest, settings: Settings) {
    GivenList(req.templateIds) || Given(req.templateId) || Given(settings.defaultTemplateId)
  }

  /** The `TemplateBindRequest` built after registration. */
  function BindRequestOf(req: InstallRequest): BindRequest {
    BindRequest(req.ip, req.templateId, req.templateIds, "bind")
  }

  /** The bind as `install_agent` and `register_host` make it: `bind_template` looks up the IP. */
  function AsWrittenBind(req: InstallRequest, hosts: map<string, HostRecord>, getError: Option<Failure>,
                         updateError: Option<Failure>)
    : (r: Result<Templates.BindResult, Failure>)
    ensures getError.None? && req.ip !in hosts ==> r == Err(Templates.HostNotFound)
  {
    Templates.BindTemplate(BindRequestOf(req), hosts, getError, updateError)
  }

  /** The bind looked up by the name the host was registered under, `hostname or str(ip)`. */
  function CorrectedBind(req: InstallRequest, hosts: map<string, HostRecord>, getError: Option<Failure>,
                         updateError: Option<Failure>)
    : (r: Result<Templates.BindResult, Failure>)
    ensures getError.Some? ==> r == Err(getError.value)
    ensures getError.None? && OrElse(req.hostname, req.ip) !in hosts ==> r == Err(Templates.HostNotFound)
    ensures r.Ok? <==> getError.None? && OrElse(req.hostname, req.ip) in hosts && updateError.None?
    ensures r.Ok? ==> (r.value.update.hostid == hosts[OrElse(req.hostname, req.ip)].hostid
      && r.value.action == "bind"
      && forall t :: t in r.value.templateIds <==>
           t in hosts[OrElse(req.hostname, req.ip)].templateIds || t in Templates.Incoming(BindRequestOf(req)))
  {
    Templates.BindTemplateAt(OrElse(req.hostname, req.ip), BindRequestOf(req), hosts, getError, updateError)
  }

  /**
   * A host registered under a name other than its IP is not found by the bind as written, while
   * the corrected bind finds it (the host `_ensure_host` just registered).
   */
  lemma AsWrittenBindMissesNamedHost(req: InstallRequest, hosts: map<string, HostRecord>)
    requires Given(req.hostname) && req.hostname.value in hosts && req.ip !in hosts
    ensures AsWrittenBind(req, hosts, None, None) == Err(Templates.HostNotFound)
    ensures CorrectedBind(req, hosts, None, None).Ok?
  {
  }

  /** A concrete instance: a host probed as "web01" at 10.0.0.1. */
  lemma AsWrittenBindExample(req: InstallRequest, rec: HostRecord)
    requires req.hostname == Some("web01") && req.ip == "10.0.0.1"
    ensures AsWrittenBind(req, map["web01" := rec], None, None) == Err(Templates.HostNotFound)
    ensures CorrectedBind(req, map["web01" := rec], None, None).Ok?
  {
    var hosts := map["web01" := rec];
    assert "10.0.0.1" != "web01" by { assert |"10.0.0.1"| != |"web01"|; }
    AsWrittenBindMissesNamedHost(req, hosts);
  }

  /**
   * The corrected bind reaches the host registration named: whenever Zabbix holds a host under
   * the name `_ensure_host` used, that host's templates are updated.
   */
  lemma CorrectedBindFindsRegisteredHost(req: InstallRequest, cfg: Value, params: HostRegistration.HostParams,
                                         hosts: map<string, HostRecord>)
    requires HostRegistration.ParamsFor(req, cfg, params)
    requires params.host in hosts
    ensures CorrectedBind(req, hosts, None, None).Ok?
    ensures CorrectedBind(req, hosts, None, None).value.update.hostid == hosts[params.host].hostid
  {
  }

  // ---------------------------------------------------------------- web scenarios

  /** `_ensure_web_monitor(host_id, url)` against the replies for that URL: the call made, or the failure. */
  function WebCall(hostId: string, url: string, major: int, web: string -> WebReply)
    : Result<WebScenario.ScenarioCall, Failure>
  {
    var w := web(url);
    match WebScenario.EnsureWebMonitor(Str(hostId), url, w.name, major, w.existing, w.updateError, w.created)
    case Ok(v) => Ok(v.0)
    case Err(e) => Err(e)
  }

  /** The outcome for each URL, in order. */
  function WebCalls(hostId: string, urls: seq<string>, major: int, web: string -> WebReply)
    : (outs: seq<Result<WebScenario.ScenarioCall, Failure>>)
    ensures |outs| == |urls|
  {
    seq(|urls|, i requires 0 <= i < |urls| => WebCall(hostId, urls[i], major, web))
  }

  /**
   * A loop that stops at the first failure: the values of the outcomes before it, and that
   * failure, if any.
   */
  function UntilError<T>(outs: seq<Result<T, Failure>>): (o: (seq<T>, Option<Failure>))
    ensures |o.0| <= |outs|
    ensures o.1.None? ==> |o.0| == |outs|
    ensures o.1.Some? ==> |o.0| < |outs| && outs[|o.0|] == Err(o.1.value)
    ensures forall i :: 0 <= i < |o.0| ==> outs[i] == Ok(o.0[i])
  {
    if outs == [] then ([], None)
    else if outs[0].Err? then ([], Some(outs[0].error))
    else
      var rest := UntilError(outs[1..]);
      var vs := [outs[0].value] + rest.0;
      assert forall i :: 1 <= i < |vs| ==> vs[i] == rest.0[i - 1] && outs[i] == outs[1..][i - 1];
      (vs, rest.1)
  }

  /** A failing outcome stops the loop: nothing after it is taken. */
  lemma {:induction false} UntilErrorStops<T>(outs: seq<Result<T, Failure>>, k: nat)
    requires k < |outs| && outs[k].Err?
    ensures UntilError(outs).1.Some? && |UntilError(outs).0| <= k
  {
    if outs[0].Ok? {
      assert outs[1..][k - 1] == outs[k];
      UntilErrorStops(outs[1..], k - 1);
    }
  }

  /** Every scenario the loop made carries the single step for its own URL. */
  lemma ScenariosFollowUrls(hostId: string, urls: seq<string>, major: int, web: string -> WebReply)
    ensures var calls := UntilError(WebCalls(hostId, urls, major, web)).0;
      forall i :: 0 <= i < |calls| ==> calls[i].step == WebScenario.ScenarioStep(urls[i], major)
  {
    var outs := WebCalls(hostId, urls, major, web);
    var calls := UntilError(outs).0;
    forall i | 0 <= i < |calls| ensures calls[i].step == WebScenario.ScenarioStep(urls[i], major) {
      assert outs[i] == Ok(calls[i]);
      assert outs[i] == WebCall(hostId, urls[i], major, web);
    }
  }

  /** The outcome of `UntilError` is fixed by where the first failure stands. */
  lemma UntilErrorAt<T>(outs: seq<Result<T, Failure>>, vs: seq<T>)
    requires |vs| <= |outs|
    requires forall j :: 0 <= j < |vs| ==> outs[j] == Ok(vs[j])
    requires |vs| < |outs| ==> outs[|vs|].Err?
    ensures UntilError(outs) == (vs, if |vs| < |outs| then Some(outs[|vs|].error) else None)
  {
    var o := UntilError(outs);
    if o.1.Some? {
      assert outs[|o.0|].Err?;
    }
    assert |vs| <= |o.0|;
    if |vs| < |outs| {
      assert outs[|vs|].Err?;
    }
    assert |o.0| <= |vs|;
    assert o.0 == vs;
  }

  /** A loop over outcomes that stops at the first failure. */
  method RunUntilError<T>(outs: seq<Result<T, Failure>>) returns (vs: seq<T>, err: Option<Failure>)
    ensures (vs, err) == UntilError(outs)
  {
    vs := [];
    var i := 0;
    while i < |outs|
      invariant i <= |outs| && |vs| == i
      invariant forall j :: 0 <= j < i ==> outs[j] == Ok(vs[j])
    {
      if outs[i].Err? {
        UntilErrorAt(outs, vs);
        return vs, Some(outs[i].error);
      }
      vs := vs + [outs[i].value];
      i := i + 1;
    }
    UntilErrorAt(outs, vs);
    return vs, None;
  }

  /** The `for url in web_urls` loop: stops at the first failing URL. */
  method EnsureWebMonitors(hostId: string, urls: seq<string>, major: int, web: string -> WebReply)
    returns (calls: seq<WebScenario.ScenarioCall>, err: Option<Failure>)
    ensures (calls, err) == UntilError(WebCalls(hostId, urls, major, web))
  {
    calls, err := RunUntilError(WebCalls(hostId, urls, major, web));
  }

  /** The URLs `install_agent` and `register_host` set up scenarios for. */
  function MonitorUrls(req: InstallRequest): (r: seq<string>)
    ensures Seqs.NoDup(r)
  {
    Seqs.Dedupe(WebUrls.CollectedUrls(req.webMonitorUrls, PySem.StrOrNull(req.webMonitorUrl)))
  }

  /** The version major `_ensure_web_monitor` reads. */
  function Major(cfg: Value, settings: Settings): int {
    WebScenario.ZbxVersion(GetOrNull(cfg, "zabbix_version"), settings.zabbixVersion).0
  }

  /** The bind after registration, against the bind's replies. */
  function BindOutcome(req: InstallRequest, zbx: Zabbix): Result<Templates.BindResult, Failure> {
    CorrectedBind(req, zbx.bindHosts, zbx.bindGetError, zbx.bindError)
  }

  /**
   * What follows a successful registration: the bind when one is wanted, then the web
   * scenarios; `bind` and `scenarios` are the writes made, `err` the first failure.
   */
  method AfterRegistration(req: InstallRequest, cfg: Value, settings: Settings, hostId: string, zbx: Zabbix)
    returns (bind: Option<Templates.HostUpdate>, scenarios: seq<WebScenario.ScenarioCall>, err: Option<Failure>)
    ensures !BindWanted(req, settings) || BindOutcome(req, zbx).Ok? ==>
      var w := UntilError(WebCalls(hostId, MonitorUrls(req), Major(cfg, settings), zbx.web));
      scenarios == w.0 && err == w.1
    ensures BindWanted(req, settings) && BindOutcome(req, zbx).Err? ==>
      bind == None && scenarios == [] && err == Some(BindOutcome(req, zbx).error)
    ensures bind.Some? <==> BindWanted(req, settings) && BindOutcome(req, zbx).Ok?
    ensures bind.Some? ==> bind == Some(BindOutcome(req, zbx).value.update)
  {
    bind := None;
    if BindWanted(req, settings) {
      var b := BindOutcome(req, zbx);
      if b.Err? {
        return None, [], Some(b.error);
      }
      bind := Some(b.value.update);
    }
    var urls := WebUrls.IterWebUrls(req.webMonitorUrls, PySem.StrOrNull(req.webMonitorUrl));
    scenarios, err := EnsureWebMonitors(hostId, urls, Major(cfg, settings), zbx.web);
  }

  // ---------------------------------------------------------------- install

  /**
   * `_ensure_host(req)`, seen from its callers: nothing is written when its `host.get` fails;
   * otherwise the first write names the host it registers, and the id returned is that host's.
   */
  method Register(req: InstallRequest, cfg: Value, zbx: Zabbix)
    returns (calls: seq<HostRegistration.Call>, r: Result<string, Failure>)
    ensures zbx.registration.getError.Some? ==> calls == [] && r == Err(zbx.registration.getError.value)
    ensures zbx.registration.getError.None? ==>
      |calls| >= 1 && !calls[0].CreateInterface? && calls[0].params.host == OrElse(req.hostname, req.ip)
    ensures r.Ok? ==> HostRegistration.IsRegisteredId(OrElse(req.hostname, req.ip), zbx.registration, r.value)
  {
    var params;
    params, calls, r := HostRegistration.EnsureHost(req, cfg, zbx.registration);
  }

  /**
   * `install_agent(req)`: refuse anything but Linux, resolve the name, register the host (when
   * `register_server`), run the install steps, then bind templates and set up web scenarios
   * (when `register_server`). A failure at any stage is the result and nothing after it happens;
   * in particular a failing install leaves the host it registered in Zabbix.
   */
  method InstallAgent(req: InstallRequest, cfg: Value, settings: Settings, ssh: Ssh, zbx: Zabbix)
    returns (writes: Writes, stepsRan: bool, r: Result<Installed, Failure>)
    requires |ssh.outs| == |RemoteSteps.InstallStepNames(req.precheck)|
    ensures PySem.Lower(req.osType) != "linux" ==>
      r == Err(HttpFail(400, "Only linux install supported in this version")) && writes == NoWrites && !stepsRan
    ensures !req.registerServer ==> writes == NoWrites
    ensures req.registerServer && PySem.Lower(req.osType) == "linux" && zbx.registration.getError.Some? ==>
      r == Err(zbx.registration.getError.value) && writes == NoWrites && !stepsRan
    ensures req.registerServer && PySem.Lower(req.osType) == "linux" && zbx.registration.getError.None? ==>
      |writes.host| >= 1 && !writes.host[0].CreateInterface?
      && writes.host[0].params.host == ResolveName(req.hostname, req.ip, ssh.probe)
    ensures stepsRan ==> RemoteSteps.LinuxInstallSteps(req.precheck, cfg, settings).Ok?
    ensures stepsRan ==> var plan := RemoteSteps.LinuxInstallSteps(req.precheck, cfg, settings).value;
      plan.preupload.Some? && !ssh.upload.Uploaded? ==>
        r == Err(RemoteSteps.UploadError(plan.preupload.value, ssh.upload).value)
        && writes.bind.None? && writes.scenarios == []
    ensures writes.bind.Some? || writes.scenarios != [] ==>
      stepsRan && RemoteSteps.FirstFatal(RemoteSteps.InstallStepNames(req.precheck), ssh.outs).None?
    ensures writes.bind.Some? ==> (BindOutcome(Resolved(req, ssh.probe), zbx).Ok?
      && writes.bind == Some(BindOutcome(Resolved(req, ssh.probe), zbx).value.update))
    ensures r.Ok? ==>
      stepsRan && RemoteSteps.FirstFatal(RemoteSteps.InstallStepNames(req.precheck), ssh.outs).None?
      && r.value == Installed(
        r.value.hostId, req.ip, "installed",
        PySem.Join(RemoteSteps.Lines(RemoteSteps.InstallStepNames(req.precheck), ssh.outs, |ssh.outs|), "\n"),
        ResolveName(req.hostname, req.ip, ssh.probe), ZabbixUrl(cfg, settings))
      && (r.value.hostId.Some? <==> req.registerServer)
    ensures stepsRan && RemoteSteps.FirstFatal(RemoteSteps.InstallStepNames(req.precheck), ssh.outs).Some? ==> r.Err?
    ensures r.Ok? && req.registerServer ==>
      HostRegistration.IsRegisteredId(ResolveName(req.hostname, req.ip, ssh.probe), zbx.registration, r.value.hostId.value)
      && (writes.bind.Some? <==> BindWanted(req, settings))
      && writes.scenarios == UntilError(WebCalls(r.value.hostId.value, MonitorUrls(req), Major(cfg, settings), zbx.web)).0
  {
    var zabbixUrl := ZabbixUrl(cfg, settings);
    if PySem.Lower(req.osType) != "linux" {
      return NoWrites, false, Err(HttpFail(400, "Only linux install supported in this version"));
    }
    var req' := Resolved(req, ssh.probe);
    var name := ResolveName(req.hostname, req.ip, ssh.probe);
    writes := NoWrites;
    stepsRan := false;

    var hostId: Option<string> := None;
    if req'.registerServer {
      var calls, reg := Register(req', cfg, zbx);
      writes := writes.(host := calls);
      if reg.Err? {
        return writes, false, Err(reg.error);
      }
      hostId := Some(reg.value);
    }

    var plan := RemoteSteps.LinuxInstallSteps(req'.precheck, cfg, settings);
    if plan.Err? {
      return writes, false, Err(plan.error);
    }
    stepsRan := true;
    var log := RemoteSteps.RunSteps(plan.value.steps, ssh.outs, true, ssh.rollbackOut,
                                    plan.value.preupload, ssh.upload);
    if log.Err? {
      return writes, stepsRan, Err(log.error);
    }

    if req'.registerServer {
      var bind, scenarios, err := AfterRegistration(req', cfg, settings, hostId.value, zbx);
      writes := writes.(bind := bind, scenarios := scenarios);
      if err.Some? {
        return writes, stepsRan, Err(err.value);
      }
    }
    return writes, stepsRan, Ok(Installed(hostId, req.ip, "installed", log.value, name, zabbixUrl));
  }
  /**
   * Installation is the only SSH work that depends on the configuration: whatever the Zabbix side
   * answers, the steps run only when a package source is configured.
   */
  lemma NoPackageNoSteps(precheck: bool, cfg: Value, settings: Settings)
    requires !PySem.Truthy(GetOrNull(cfg, "agent_tgz_url")) && !PySem.Truthy(GetOrNull(cfg, "local_agent_path"))
    requires !Given(settings.agentTgzUrl)
    ensures RemoteSteps.LinuxInstallSteps(precheck, cfg, settings).Err?
  {
  }

  /** The JSON shape of the install reply, as the batch layer merges it into its result rows. */
  function InstalledJson(i: Installed): (r: Value)
    ensures r.Obj? && UniqueKeys(r.members)
    ensures Get(r, "status") == Some(Str(i.status)) && Get(r, "ip") == Some(Str(i.ip))
    ensures Get(r, "host_id") == Some(PySem.StrOrNull(i.hostId))
  {
    var ms := [("host_id", PySem.StrOrNull(i.hostId)), ("ip", Str(i.ip)), ("status", Str(i.status)),
               ("log", Str(i.log)), ("hostname", Str(i.hostname)), ("zabbix_url", i.zabbixUrl)];
    assert UniqueKeys(ms);
    LookupAt(ms, 0);
    LookupAt(ms, 1);
    LookupAt(ms, 2);
    Obj(ms)
  }

  // ---------------------------------------------------------------- uninstall

  /**
   * `uninstall_agent(req)`: the host is looked up by `hostname or str(ip)` (`getError` is the
   * failure of that `host.get`, which raises before anything runs); the uninstall steps run
   * without rollback; only after they succeed is the host found deleted (`deleted` is the
   * `host.delete` call made, `deleteError` its failure).
   */
  method UninstallAgent(req: UninstallRequest, cfg: Value, settings: Settings, hosts: map<string, HostRecord>,
                        getError: Option<Failure>, outs: seq<RemoteSteps.Outcome>, deleteError: Option<Failure>)
    returns (deleted: Option<string>, r: Result<Uninstalled, Failure>)
    requires |outs| == |RemoteSteps.UninstallStepNames()|
    ensures getError.Some? ==> deleted == None && r == Err(getError.value)
    ensures var key := OrElse(req.hostname, req.ip);
      deleted.Some? <==> getError.None? && key in hosts && RemoteSteps.FirstFatal(RemoteSteps.UninstallStepNames(), outs).None?
    ensures deleted.Some? ==> deleted.value == hosts[OrElse(req.hostname, req.ip)].hostid
    ensures getError.None? && RemoteSteps.FirstFatal(RemoteSteps.UninstallStepNames(), outs).Some? ==>
      r.Err? && r.error.HttpFail? && r.error.status == 500
    ensures deleted.Some? && deleteError.Some? ==> r == Err(deleteError.value)
    ensures r.Ok? ==> var key := OrElse(req.hostname, req.ip);
      r.value == Uninstalled(
        req.ip, "uninstalled",
        PySem.Join(RemoteSteps.Lines(RemoteSteps.UninstallStepNames(), outs, 2), "\n"),
        if key in hosts then Some(hosts[key].hostid) else None,
        if Given(req.hostname) then req.hostname else if key in hosts then Some(hosts[key].host) else None,
        ZabbixUrl(cfg, settings))
    ensures r.Ok? <==> (getError.None? && RemoteSteps.FirstFatal(RemoteSteps.UninstallStepNames(), outs).None?
                        && (deleted.None? || deleteError.None?))
  {
    var zabbixUrl := ZabbixUrl(cfg, settings);
    var key := OrElse(req.hostname, req.ip);
    if getError.Some? {
      return None, Err(getError.value);
    }
    var host := Templates.FindHost(hosts, key);
    var hostId := if host.Some? then Some(host.value.hostid) else None;
    var name := if Given(req.hostname) then req.hostname else if host.Some? then Some(host.value.host) else None;
    var steps := RemoteSteps.UninstallStepNames();
    var log := RemoteSteps.RunSteps(steps, outs, false, RemoteSteps.Output(""), None, RemoteSteps.Uploaded);
    if log.Err? {
      return None, Err(log.error);
    }
    deleted := None;
    if host.Some? {
      deleted := Some(host.value.hostid);
      if deleteError.Some? {
        return deleted, Err(deleteError.value);
      }
    }
    return deleted, Ok(Uninstalled(req.ip, "uninstalled", log.value, hostId, name, zabbixUrl));
  }

  // ---------------------------------------------------------------- register

  /**
   * `register_host(req)`: the Zabbix half of an install without any SSH work: the host is
   * registered under `hostname or str(ip)` (no probe, no localhost rule), then bound and given
   * its web scenarios. `registered` is what `_ensure_host` yields; the reply is
   * `{host_id, ip, status: "registered"}` with that id.
   */
  method RegisterHost(req: InstallRequest, cfg: Value, settings: Settings, zbx: Zabbix)
    returns (writes: Writes, registered: Result<string, Failure>, r: Result<(string, string, string), Failure>)
    ensures zbx.registration.getError.Some? ==>
      writes == NoWrites && r == Err(zbx.registration.getError.value)
    ensures zbx.registration.getError.None? ==>
      |writes.host| >= 1 && !writes.host[0].CreateInterface? && writes.host[0].params.host == OrElse(req.hostname, req.ip)
    ensures registered.Ok? ==>
      HostRegistration.IsRegisteredId(OrElse(req.hostname, req.ip), zbx.registration, registered.value)
    // nothing follows a failed registration
    ensures registered.Err? ==> r == Err(registered.error) && writes.bind.None? && writes.scenarios == []
    // the bind comes first, when one is wanted; the scenarios follow unless it failed
    ensures var req' := req.(hostname := Some(OrElse(req.hostname, req.ip)));
      (writes.bind.Some? <==> registered.Ok? && BindWanted(req, settings) && BindOutcome(req', zbx).Ok?)
      && (writes.bind.Some? ==> writes.bind == Some(BindOutcome(req', zbx).value.update))
    ensures var req' := req.(hostname := Some(OrElse(req.hostname, req.ip)));
      registered.Ok? && BindWanted(req, settings) && BindOutcome(req', zbx).Err? ==>
        writes.scenarios == [] && r == Err(BindOutcome(req', zbx).error)
    ensures var req' := req.(hostname := Some(OrElse(req.hostname, req.ip)));
      registered.Ok? && (!BindWanted(req, settings) || BindOutcome(req', zbx).Ok?) ==>
        var w := UntilError(WebCalls(registered.value, MonitorUrls(req), Major(cfg, settings), zbx.web));
        writes.scenarios == w.0 && (r.Ok? <==> w.1.None?) && (w.1.Some? ==> r == Err(w.1.value))
    ensures r.Ok? ==> registered.Ok? && r.value == (registered.value, req.ip, "registered")
  {
    var req' := req.(hostname := Some(OrElse(req.hostname, req.ip)));
    var calls;
    calls, registered := Register(req', cfg, zbx);
    writes := NoWrites.(host := calls);
    if registered.Err? {
      return writes, registered, Err(registered.error);
    }
    var bind, scenarios, err := AfterRegistration(req', cfg, settings, registered.value, zbx);
    writes := writes.(bind := bind, scenarios := scenarios);
    if err.Some? {
      return writes, registered, Err(err.value);
    }
    return writes, registered, Ok((registered.value, req.ip, "registered"));
  }
}
