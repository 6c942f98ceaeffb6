/**
 * Request shapes and settings the provisioning service works with (models.py, core/settings.py),
 * and the two kinds of failure its operations raise. Optional request fields are `Option`s; a
 * present but empty string is as falsy as a missing one, which `Given` captures.
 */
module ServiceModels {
  import opened Wrappers
  import opened Json

  /**
   * A raised exception: an `HTTPException(status_code, detail)` or any other error, which only
   * carries its message.
   */
  datatype Failure = HttpFail(status: int, detail: string) | Error(message: string)

  /** `str(exc)`: an HTTPException prints as "<status>: <detail>". */
  function Message(f: Failure): string {
    match f
    case HttpFail(status, detail) => IntToDecimal(status) + ": " + detail
    case Error(message) => message
  }

  /** Truthiness of an optional string field. */
  predicate Given(o: Option<string>) {
    o.Some? && o.value != ""
  }

  /** `field or fallback` for an optional string field. */
  function OrElse(o: Option<string>, fallback: string): (r: string)
    ensures Given(o) ==> r == o.value
    ensures !Given(o) ==> r == fallback
  {
    if Given(o) then o.value else fallback
  }

  /** Truthiness of an optional list field. */
  predicate GivenList(o: Option<seq<string>>) {
    o.Some? && o.value != []
  }

  /**
   * `InstallRequest` (models.py), with its defaults. `webMonitorUrls` stands for whatever
   * `getattr(req, "web_monitor_urls", None)` yields. The SSH overrides are left to the SSH
   * oracle and not represented.
   */
  datatype InstallRequest = InstallRequest(
    hostname: Option<string>,
    ip: string,
    osType: string,
    env: Option<string>,
    port: int,
    templateId: Option<string>,
    groupId: Option<string>,
    precheck: bool,
    registerServer: bool,
    webMonitorUrl: Option<string>,
    webMonitorUrls: Value,
    jmxPort: Option<int>,
    templateIds: Option<seq<string>>,
    groupIds: Option<seq<string>>,
    visibleName: Option<string>,
    proxyId: Option<string>)

  /** `TemplateBindRequest`: it has no hostname field, only the IP. */
  datatype BindRequest = BindRequest(
    ip: string,
    templateId: Option<string>,
    templateIds: Option<seq<string>>,
    action: string)

  /** `UninstallRequest`. */
  datatype UninstallRequest = UninstallRequest(ip: string, hostname: Option<string>, proxyId: Option<string>)

  /** The settings fields the service reads (environment overrides become the field values). */
  datatype Settings = Settings(
    zabbixApiBase: string,
    zabbixApiToken: Option<string>,
    zabbixApiUser: Option<string>,
    zabbixApiPassword: Option<string>,
    defaultTemplateId: Option<string>,
    defaultGroupId: Option<string>,
    zabbixVersion: string,
    zabbixServerHost: string,
    agentTgzUrl: Option<string>,
    agentInstallDir: string)

  /** The defaults of core/settings.py. */
  const DefaultSettings := Settings(
    "http://zabbix5.cenboomh.com/api_jsonrpc.php", None, None, None, None, Some("1"), "6.4",
    "127.0.0.1", None, "/opt/zabbix-agent2")

  /** What `host.get` yields for one host: its id, technical name, interfaces and templates. */
  datatype HostRecord = HostRecord(hostid: string, host: string, interfaces: seq<Value>, templateIds: seq<string>)
}
