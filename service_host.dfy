/**
 * Registering a host in Zabbix (service.py `_ensure_host`, `_has_jmx_template`): the template
 * and group id lists with their configuration fallbacks, the host parameters, and the choice
 * between updating an existing host and creating a new one with its interfaces. The Zabbix calls
 * are returned as a list instead of being made; what Zabbix answers is passed in.
 */
module HostRegistration {
  import opened Wrappers
  import opened Json
  import opened ServiceModels
  import PySem
  import Templates
  import WebUrls
  import Seqs

  /** A host interface: type 1 is the agent, type 4 JMX; all are `main`, `useip` and have no DNS. */
  datatype Iface = Iface(kind: int, ip: string, port: string)

  /** `base_params`: technical name, visible name, group and template ids, proxy and tags. */
  datatype HostParams = HostParams(
    host: string,
    name: string,
    groups: seq<Value>,
    templates: seq<Value>,
    proxyHostid: Option<string>,
    tags: seq<(string, string)>)

  /** The write calls `_ensure_host` makes. */
  datatype Call =
    | UpdateHost(hostid: string, params: HostParams)
    | CreateInterface(hostid: string, iface: Iface)
    | CreateHost(params: HostParams, interfaces: seq<Iface>)

  function StrValues(ss: seq<string>): (r: seq<Value>)
    ensures |r| == |ss| && forall i :: 0 <= i < |ss| ==> r[i] == Str(ss[i])
  {
    seq(|ss|, i requires 0 <= i < |ss| => Str(ss[i]))
  }

  /** The ids a request asks for: its list (when given) followed by its single id (when truthy). */
  function Requested(ids: Option<seq<string>>, single: Option<string>): (r: seq<Value>)
    ensures r == [] <==> (ids.None? || ids.value == []) && !Given(single)
  {
    (if ids.Some? then StrValues(ids.value) else []) + (if Given(single) then [Str(single.value)] else [])
  }

  /** `[t for t in ids if t]`. */
  function TruthyIds(ids: seq<Value>): (r: seq<Value>)
    ensures forall v :: v in r <==> v in ids && PySem.Truthy(v)
  {
    if ids == [] then []
    else (if PySem.Truthy(ids[0]) then [ids[0]] else []) + TruthyIds(ids[1..])
  }

  /**
   * `any("jmx" in (t.get("name") or "").lower() for t in res)`, evaluated left to right: an item
   * that is not a dict, or a name that is not text, raises, and `_has_jmx_template` returns False.
   */
  function AnyJmxName(items: seq<Value>): bool {
    if items == [] then false
    else
      var t := items[0];
      if !t.Obj? then false
      else
        var name := PySem.Or(GetOrNull(t, "name"), Str(""));
        if !name.Str? then false
        else if Seqs.Contains(PySem.Lower(name.s), "jmx") then true
        else AnyJmxName(items[1..])
  }

  /** `_has_jmx_template(ids)` given the reply of its `template.get` call. */
  function HasJmxTemplate(ids: seq<Value>, reply: Result<Value, Failure>): (r: bool)
    ensures ids == [] || reply.Err? ==> !r
    ensures r ==> reply.value.Arr? && exists i :: 0 <= i < |reply.value.items| && reply.value.items[i].Obj?
  {
    if ids == [] || reply.Err? || !reply.value.Arr? then false
    else
      AnyJmxWitness(reply.value.items);
      AnyJmxName(reply.value.items)
  }

  lemma {:induction false} AnyJmxWitness(items: seq<Value>)
    ensures AnyJmxName(items) ==> exists i :: 0 <= i < |items| && items[i].Obj?
  {
    if items != [] && items[0].Obj? {
      assert items[0].Obj?;
    } else if items != [] {
      // the first item is not a dict: the generator raised and the answer is False
    }
  }

  /** Whether a JMX interface is wanted: some non-empty template id and a JMX template among them. */
  predicate JmxWanted(templates: seq<Value>, reply: Result<Value, Failure>) {
    TruthyIds(templates) != [] && HasJmxTemplate(TruthyIds(templates), reply)
  }

  /** `int(i.get("type", 0))`, None when it raises. */
  function IfaceType(i: Value): Option<int> {
    if !i.Obj? then None
    else
      match Get(i, "type").GetOr(Num(0))
      case Num(n) => Some(n)
      case Str(s) => PySem.ParseInt(s)
      case Bool(b) => Some(if b then 1 else 0)
      case _ => None
  }

  /** `any(int(i.get("type", 0)) == 4 for i in interfaces)`, None when an element raises first. */
  function AnyJmxInterface(ifaces: seq<Value>): Option<bool> {
    if ifaces == [] then Some(false)
    else
      match IfaceType(ifaces[0])
      case None => None
      case Some(t) => if t == 4 then Some(true) else AnyJmxInterface(ifaces[1..])
  }

  /** `getattr(req, "jmx_port", None) or 10052`, as text. */
  function JmxPortText(req: InstallRequest): string {
    IntToDecimal(if req.jmxPort.Some? && req.jmxPort.value != 0 then req.jmxPort.value else 10052)
  }

  /** The tags: an `env` tag when given, then one `web_monitor` tag per URL. */
  function WebTags(urls: seq<string>): (r: seq<(string, string)>)
    ensures |r| == |urls| && forall i :: 0 <= i < |urls| ==> r[i] == ("web_monitor", urls[i])
  {
    if urls == [] then [] else WebTags(urls[..|urls| - 1]) + [("web_monitor", urls[|urls| - 1])]
  }

  /** `tmpl_ids`: extended by the request's list and single id, else the configured default. */
  method TemplateIds(req: InstallRequest, cfg: Value) returns (tmplIds: seq<Value>)
    ensures var asked := Requested(req.templateIds, req.templateId);
      var dflt := GetOrNull(cfg, "default_template_id");
      tmplIds == if asked != [] then asked else if PySem.Truthy(dflt) then [dflt] else []
  {
    tmplIds := [];
    if req.templateIds.Some? {
      tmplIds := tmplIds + StrValues(req.templateIds.value);
    }
    if Given(req.templateId) {
      tmplIds := tmplIds + [Str(req.templateId.value)];
    }
    if tmplIds == [] && PySem.Truthy(GetOrNull(cfg, "default_template_id")) {
      tmplIds := tmplIds + [GetOrNull(cfg, "default_template_id")];
    }
  }

  /** `grp_ids`: built like `tmpl_ids`, with "1" as the last resort, so it is never empty. */
  method GroupIds(req: InstallRequest, cfg: Value) returns (grpIds: seq<Value>)
    ensures var asked := Requested(req.groupIds, req.groupId);
      var dflt := GetOrNull(cfg, "default_group_id");
      grpIds == if asked != [] then asked else if PySem.Truthy(dflt) then [dflt] else [Str("1")]
    ensures grpIds != []
  {
    grpIds := [];
    if req.groupIds.Some? {
      grpIds := grpIds + StrValues(req.groupIds.value);
    }
    if Given(req.groupId) {
      grpIds := grpIds + [Str(req.groupId.value)];
    }
    if grpIds == [] && PySem.Truthy(GetOrNull(cfg, "default_group_id")) {
      grpIds := grpIds + [GetOrNull(cfg, "default_group_id")];
    }
    if grpIds == [] {
      grpIds := grpIds + [Str("1")];
    }
  }

  /** `tags`: the `env` tag, then a `web_monitor` tag for each URL of `_iter_web_urls`. */
  method HostTags(req: InstallRequest) returns (tags: seq<(string, string)>)
    ensures tags == (if Given(req.env) then [("env", req.env.value)] else [])
      + WebTags(Seqs.Dedupe(WebUrls.CollectedUrls(req.webMonitorUrls, PySem.StrOrNull(req.webMonitorUrl))))
  {
    tags := [];
    if Given(req.env) {
      tags := tags + [("env", req.env.value)];
    }
    var urls := WebUrls.IterWebUrls(req.webMonitorUrls, PySem.StrOrNull(req.webMonitorUrl));
    tags := tags + WebTags(urls);
  }

  /** The host parameters `_ensure_host` sends, stated field by field. */
  predicate ParamsFor(req: InstallRequest, cfg: Value, params: HostParams) {
    // the id lists: what the request asks for, the configured default only when that is empty
    var askedT := Requested(req.templateIds, req.templateId);
    var dfltT := GetOrNull(cfg, "default_template_id");
    var askedG := Requested(req.groupIds, req.groupId);
    var dfltG := GetOrNull(cfg, "default_group_id");
    && params.templates == (if askedT != [] then askedT else if PySem.Truthy(dfltT) then [dfltT] else [])
    && params.groups == (if askedG != [] then askedG else if PySem.Truthy(dfltG) then [dfltG] else [Str("1")])
    && params.host == OrElse(req.hostname, req.ip)
    && params.name == OrElse(req.visibleName, params.host)
    && params.proxyHostid == (if Given(req.proxyId) then req.proxyId else None)
    && params.tags == (if Given(req.env) then [("env", req.env.value)] else [])
      + WebTags(Seqs.Dedupe(WebUrls.CollectedUrls(req.webMonitorUrls, PySem.StrOrNull(req.webMonitorUrl))))
  }

  /** Every host `_ensure_host` updates or creates is put in at least one group. */
  lemma ParamsHaveGroups(req: InstallRequest, cfg: Value, params: HostParams)
    requires ParamsFor(req, cfg, params)
    ensures params.groups != []
    ensures Requested(req.groupIds, req.groupId) != [] ==> params.groups == Requested(req.groupIds, req.groupId)
  {
  }

  /** `base_params`. */
  method BuildParams(req: InstallRequest, cfg: Value) returns (params: HostParams)
    ensures ParamsFor(req, cfg, params)
  {
    var agentName := OrElse(req.hostname, req.ip);
    var tmplIds := TemplateIds(req, cfg);
    var grpIds := GroupIds(req, cfg);
    var tags := HostTags(req);
    params := HostParams(agentName, OrElse(req.visibleName, agentName), grpIds, tmplIds,
                         if Given(req.proxyId) then req.proxyId else None, tags);
  }

  /**
   * What Zabbix answers the calls of `_ensure_host`: the hosts `host.get` finds by technical name
   * and that call's failure, the reply to the JMX check's `template.get`, the failures of
   * `host.update` and `hostinterface.create` (None when they succeed), and the reply to
   * `host.create` or its failure.
   */
  datatype Replies = Replies(
    hosts: map<string, HostRecord>,
    getError: Option<Failure>,
    templateReply: Result<Value, Failure>,
    updateError: Option<Failure>,
    ifaceError: Option<Failure>,
    created: Result<Value, Failure>)

  /**
   * `result["hostids"][0]` on what `host.create` answers: its failure is raised, and so is what
   * indexing an answer without a first id raises (`KeyError('hostids')` prints as `'hostids'`).
   * The texts for an answer that is not a dict, or whose first id is not text, are the model's
   * own stand-ins.
   */
  function FirstHostId(created: Result<Value, Failure>): (r: Result<string, Failure>)
    ensures created.Err? ==> r == Err(created.error)
    ensures r.Ok? ==> created.Ok? && Get(created.value, "hostids").Some?
    ensures created.Ok? && created.value.Obj? && Get(created.value, "hostids").None? ==> r == Err(Error("'hostids'"))
    ensures created.Ok? && Get(created.value, "hostids") == Some(Arr([])) ==> r == Err(Error("list index out of range"))
  {
    match created
    case Err(e) => Err(e)
    case Ok(res) =>
      if !res.Obj? then Err(Error("host.create answered a value that is not a dict"))
      else match Get(res, "hostids")
        case None => Err(Error("'hostids'"))
        case Some(ids) =>
          if ids == Arr([]) then Err(Error("list index out of range"))
          else if ids.Arr? && ids.items[0].Str? then Ok(ids.items[0].s)
          else Err(Error("host.create answered no text host id"))
  }

  /** The reply Zabbix gives a successful `host.create`, `{"hostids": [id, ...]}`, yields its first id. */
  lemma CreatedHostId(id: string, more: seq<Value>)
    ensures FirstHostId(Ok(Obj([("hostids", Arr([Str(id)] + more))]))) == Ok(id)
  {
    var res := Obj([("hostids", Arr([Str(id)] + more))]);
    assert Get(res, "hostids") == Some(Arr([Str(id)] + more));
  }

  /** The id `_ensure_host` returns for the host named `name`: the existing host's, else the created one's. */
  predicate IsRegisteredId(name: string, z: Replies, id: string) {
    if name in z.hosts then id == z.hosts[name].hostid else FirstHostId(z.created) == Ok(id)
  }

  /**
   * `_ensure_host(req)` against the replies `z`: nothing is written when `host.get` fails; an
   * existing host is updated as `UpdateOutcome` says; a new host is created with the agent
   * interface, and a JMX one iff JMX templates are bound.
   */
  method EnsureHost(req: InstallRequest, cfg: Value, z: Replies)
    returns (params: HostParams, calls: seq<Call>, r: Result<string, Failure>)
    ensures ParamsFor(req, cfg, params)
    ensures z.getError.Some? ==> calls == [] && r == Err(z.getError.value)
    ensures z.getError.None? && params.host in z.hosts ==>
      UpdateOutcome(z.hosts[params.host], params, req, JmxWanted(params.templates, z.templateReply),
                    z.updateError, z.ifaceError, calls, r)
    ensures z.getError.None? && params.host !in z.hosts ==>
      calls == [CreateHost(params, [Iface(1, req.ip, IntToDecimal(req.port))]
                                   + if JmxWanted(params.templates, z.templateReply)
                                     then [Iface(4, req.ip, JmxPortText(req))] else [])]
      && r == FirstHostId(z.created)
    ensures r.Ok? ==> IsRegisteredId(params.host, z, r.value)
  {
    params := BuildParams(req, cfg);
    if z.getError.Some? {
      return params, [], Err(z.getError.value);
    }
    var existing := Templates.FindHost(z.hosts, params.host);
    var tmplIds := params.templates;

    var interfaces := [Iface(1, req.ip, IntToDecimal(req.port))];
    var hasJmx := if TruthyIds(tmplIds) != [] then HasJmxTemplate(TruthyIds(tmplIds), z.templateReply) else false;
    assert hasJmx == JmxWanted(params.templates, z.templateReply);
    if hasJmx {
      interfaces := interfaces + [Iface(4, req.ip, JmxPortText(req))];
    }

    if existing.Some? {
      calls, r := UpdateExisting(existing.value, params, req, hasJmx, z.updateError, z.ifaceError);
      return;
    }
    calls := [CreateHost(params, interfaces)];
    assert params.host !in z.hosts;
    assert interfaces == [Iface(1, req.ip, IntToDecimal(req.port))]
      + if JmxWanted(params.templates, z.templateReply) then [Iface(4, req.ip, JmxPortText(req))] else [];
    return params, calls, FirstHostId(z.created);
  }

  /**
   * The calls made on an existing host and what `_ensure_host` then returns: the update always;
   * when it succeeds and a JMX interface is wanted, the interfaces are read (a type that `int()`
   * cannot read raises) and a missing JMX interface is created; the host's id is returned unless
   * a call raised.
   */
  predicate UpdateOutcome(h: HostRecord, params: HostParams, req: InstallRequest, jmx: bool,
                          updateError: Option<Failure>, ifaceError: Option<Failure>,
                          calls: seq<Call>, r: Result<string, Failure>) {
    var update := UpdateHost(h.hostid, params);
    var iface := CreateInterface(h.hostid, Iface(4, req.ip, JmxPortText(req)));
    if updateError.Some? then calls == [update] && r == Err(updateError.value)
    else if jmx && AnyJmxInterface(h.interfaces).None? then calls == [update] && r.Err?
    else if jmx && AnyJmxInterface(h.interfaces) == Some(false) then
      calls == [update, iface] && r == (if ifaceError.Some? then Err(ifaceError.value) else Ok(h.hostid))
    else calls == [update] && r == Ok(h.hostid)
  }

  /** The existing-host branch of `_ensure_host`: update, then add a JMX interface when one is wanted and missing. */
  method UpdateExisting(h: HostRecord, params: HostParams, req: InstallRequest, jmx: bool,
                        updateError: Option<Failure>, ifaceError: Option<Failure>)
    returns (calls: seq<Call>, r: Result<string, Failure>)
    ensures UpdateOutcome(h, params, req, jmx, updateError, ifaceError, calls, r)
    ensures |calls| >= 1 && calls[0] == UpdateHost(h.hostid, params)
    ensures r.Ok? ==> r.value == h.hostid && updateError.None?
  {
    calls := [UpdateHost(h.hostid, params)];
    if updateError.Some? {
      return calls, Err(updateError.value);
    }
    if jmx {
      var found := AnyJmxInterface(h.interfaces);
      if found.None? {
        // a stand-in for the text of the ValueError or TypeError `int()` raises
        return calls, Err(Error("invalid literal for int() with base 10"));
      }
      if !found.value {
        calls := calls + [CreateInterface(h.hostid, Iface(4, req.ip, JmxPortText(req)))];
        if ifaceError.Some? {
          return calls, Err(ifaceError.value);
        }
      }
    }
    return calls, Ok(h.hostid);
  }
}
