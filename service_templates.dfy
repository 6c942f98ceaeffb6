/**
 * Template binding and the delete guards of the provisioning service (service.py
 * `bind_template`, `unbind_template`, `delete_template`, `delete_group`). Zabbix is an oracle:
 * `hosts` is what `host.get` finds under each technical host name, and each call's failure is
 * passed in (None when it succeeds): `_zbx` raises when the request fails, the reply is not
 * JSON or Zabbix answers with an error.
 */
module Templates {
  import opened Wrappers
  import opened Json
  import opened ServiceModels
  import PySem

  /** `_get_host(key)`: the host registered under that technical name, if any. */
  function FindHost(hosts: map<string, HostRecord>, key: string): (r: Option<HostRecord>)
    ensures r.Some? <==> key in hosts
  {
    if key in hosts then Some(hosts[key]) else None
  }

  /** `incoming`: the single template id when it is given, together with every listed id. */
  function Incoming(req: BindRequest): (r: set<string>)
    ensures forall t :: t in r <==>
      (Given(req.templateId) && t == req.templateId.value) || (req.templateIds.Some? && t in req.templateIds.value)
  {
    (if Given(req.templateId) then {req.templateId.value} else {})
    + (if req.templateIds.Some? then set t | t in req.templateIds.value else {})
  }

  /** `current_ids |= incoming` for "bind", `current_ids -= incoming` for any other action. */
  function Applied(current: set<string>, incoming: set<string>, action: string): set<string> {
    if action == "bind" then current + incoming else current - incoming
  }

  /** The `host.update` call `bind_template` makes. */
  datatype HostUpdate = HostUpdate(hostid: string, templates: set<string>)

  /** The reply `{ip, template_ids, action}` together with the update that was sent. */
  datatype BindResult = BindResult(ip: string, templateIds: set<string>, action: string, update: HostUpdate)

  const HostNotFound := HttpFail(404, "host not found in zabbix")

  /**
   * The body of `bind_template` once the lookup key is chosen: the host registered under `key`
   * gets its templates replaced by the union (bind) or difference (any other action). The order
   * of `list(current_ids)` is not modelled (a set is returned).
   */
  function BindTemplateAt(key: string, req: BindRequest, hosts: map<string, HostRecord>,
                          getError: Option<Failure>, updateError: Option<Failure>)
    : (r: Result<BindResult, Failure>)
    ensures getError.Some? ==> r == Err(getError.value)
    ensures getError.None? && key !in hosts ==> r == Err(HostNotFound)
    ensures getError.None? && key in hosts && updateError.Some? ==> r == Err(updateError.value)
    ensures getError.None? && key in hosts && updateError.None? <==> r.Ok?
    ensures r.Ok? ==> (r.value.ip == req.ip && r.value.action == req.action
      && r.value.update == HostUpdate(hosts[key].hostid, r.value.templateIds))
    ensures r.Ok? && req.action == "bind" ==> forall t :: t in r.value.templateIds <==>
      t in hosts[key].templateIds || t in Incoming(req)
    ensures r.Ok? && req.action != "bind" ==> forall t :: t in r.value.templateIds <==>
      t in hosts[key].templateIds && t !in Incoming(req)
  {
    if getError.Some? then Err(getError.value)
    else
    var host := FindHost(hosts, key);
    if host.None? then Err(HostNotFound)
    else
      var current := set t | t in host.value.templateIds;
      var ids := Applied(current, Incoming(req), req.action);
      if updateError.Some? then Err(updateError.value)
      else Ok(BindResult(req.ip, ids, req.action, HostUpdate(host.value.hostid, ids)))
  }

  /**
   * `bind_template(req)`: the request type has no hostname, so `getattr(req, "hostname", None)`
   * is always None and the host is looked up by `str(req.ip)`.
   */
  function BindTemplate(req: BindRequest, hosts: map<string, HostRecord>,
                        getError: Option<Failure>, updateError: Option<Failure>)
    : (r: Result<BindResult, Failure>)
    ensures getError.Some? ==> r == Err(getError.value)
    ensures getError.None? && req.ip !in hosts ==> r == Err(HostNotFound)
    ensures getError.None? && req.ip in hosts && updateError.Some? ==> r == Err(updateError.value)
    ensures getError.None? && req.ip in hosts && updateError.None? <==> r.Ok?
    ensures r.Ok? ==> (r.value.ip == req.ip && r.value.action == req.action
      && r.value.update == HostUpdate(hosts[req.ip].hostid, r.value.templateIds))
    ensures r.Ok? && req.action == "bind" ==> forall t :: t in r.value.templateIds <==>
      t in hosts[req.ip].templateIds || t in Incoming(req)
    ensures r.Ok? && req.action != "bind" ==> forall t :: t in r.value.templateIds <==>
      t in hosts[req.ip].templateIds && t !in Incoming(req)
  {
    BindTemplateAt(req.ip, req, hosts, getError, updateError)
  }

  /** `unbind_template(req)`: the same request with its action forced to "unbind". */
  function UnbindTemplate(req: BindRequest, hosts: map<string, HostRecord>,
                          getError: Option<Failure>, updateError: Option<Failure>)
    : (r: Result<BindResult, Failure>)
    ensures r.Ok? ==> (req.ip in hosts && r.value.ip == req.ip && r.value.action == "unbind"
      && r.value.update == HostUpdate(hosts[req.ip].hostid, r.value.templateIds)
      && forall t :: t in r.value.templateIds <==> t in hosts[req.ip].templateIds && t !in Incoming(req))
    ensures getError.Some? ==> r == Err(getError.value)
    ensures getError.None? && req.ip !in hosts ==> r == Err(HostNotFound)
    ensures getError.None? && req.ip in hosts && updateError.Some? ==> r == Err(updateError.value)
    ensures getError.None? && req.ip in hosts && updateError.None? <==> r.Ok?
  {
    BindTemplate(req.(action := "unbind"), hosts, getError, updateError)
  }

  /** Binding only adds templates and unbinding only removes them. */
  lemma BindMonotone(current: set<string>, incoming: set<string>)
    ensures current <= Applied(current, incoming, "bind")
    ensures incoming <= Applied(current, incoming, "bind")
    ensures Applied(current, incoming, "unbind") <= current
    ensures Applied(current, incoming, "unbind") !! incoming
  {
  }

  /** Binding the same templates twice is binding them once; so is unbinding. */
  lemma ApplyIdempotent(current: set<string>, incoming: set<string>, action: string)
    ensures Applied(Applied(current, incoming, action), incoming, action) == Applied(current, incoming, action)
  {
  }

  /** Unbinding what was just bound leaves the templates the host had that were not re-bound. */
  lemma BindThenUnbind(current: set<string>, incoming: set<string>)
    ensures Applied(Applied(current, incoming, "bind"), incoming, "unbind") == current - incoming
  {
  }

  /**
   * Connecting two calls: after a successful bind, a host record carrying the resulting
   * templates is unbound back to its old templates minus the incoming ones.
   */
  lemma BindTemplateThenUnbind(req: BindRequest, hosts: map<string, HostRecord>, templates: seq<string>)
    requires req.action == "bind"
    requires BindTemplate(req, hosts, None, None).Ok?
    requires var ids := BindTemplate(req, hosts, None, None).value.templateIds;
      forall t :: t in templates <==> t in ids
    ensures var hosts' := hosts[req.ip := hosts[req.ip].(templateIds := templates)];
      var r := UnbindTemplate(req, hosts', None, None);
      r.Ok? && forall t :: t in r.value.templateIds <==> t in hosts[req.ip].templateIds && t !in Incoming(req)
  {
    var hosts' := hosts[req.ip := hosts[req.ip].(templateIds := templates)];
    assert req.ip in hosts';
  }

  /**
   * `delete_template` / `delete_group`: `boundHosts` is the `host.get` reply for the bound hosts,
   * or the failure of that call. The delete is refused with 400 while the reply is truthy;
   * otherwise the delete call is made and `{deleted: True, <key>: id}` returned.
   */
  function DeleteGuarded(kind: string, key: string, id: string, boundHosts: Result<Value, Failure>,
                         deleteError: Option<Failure>)
    : (r: Result<Value, Failure>)
    requires key != "deleted"
    ensures boundHosts.Err? ==> r == Err(boundHosts.error)
    ensures boundHosts.Ok? && PySem.Truthy(boundHosts.value) ==>
      r == Err(HttpFail(400, kind + " " + id + " has bound hosts; cannot delete"))
    ensures boundHosts.Ok? && !PySem.Truthy(boundHosts.value) && deleteError.Some? ==> r == Err(deleteError.value)
    ensures boundHosts.Ok? && !PySem.Truthy(boundHosts.value) && deleteError.None? ==>
      r.Ok? && r.value.Obj? && Get(r.value, "deleted") == Some(Bool(true)) && Get(r.value, key) == Some(Str(id))
  {
    match boundHosts
    case Err(e) => Err(e)
    case Ok(found) =>
      if PySem.Truthy(found) then Err(HttpFail(400, kind + " " + id + " has bound hosts; cannot delete"))
      else if deleteError.Some? then Err(deleteError.value)
      else
        assert Lookup([("deleted", Bool(true)), (key, Str(id))], key) == Some(Str(id));
        Ok(Obj([("deleted", Bool(true)), (key, Str(id))]))
  }

  /** `delete_template`: refused while templates have hosts bound. */
  function DeleteTemplate(templateId: string, boundHosts: Result<Value, Failure>, deleteError: Option<Failure>)
    : (r: Result<Value, Failure>)
    ensures boundHosts.Err? ==> r == Err(boundHosts.error)
    ensures boundHosts.Ok? && PySem.Truthy(boundHosts.value) ==>
      r == Err(HttpFail(400, "template " + templateId + " has bound hosts; cannot delete"))
    ensures boundHosts.Ok? && !PySem.Truthy(boundHosts.value) && deleteError.Some? ==> r == Err(deleteError.value)
    ensures boundHosts.Ok? && !PySem.Truthy(boundHosts.value) && deleteError.None? ==>
      r.Ok? && Get(r.value, "deleted") == Some(Bool(true)) && Get(r.value, "template_id") == Some(Str(templateId))
  {
    assert "template" + " " == "template ";
    DeleteGuarded("template", "template_id", templateId, boundHosts, deleteError)
  }

  /** `delete_group`: refused while the group has hosts. */
  function DeleteGroup(groupId: string, boundHosts: Result<Value, Failure>, deleteError: Option<Failure>)
    : (r: Result<Value, Failure>)
    ensures boundHosts.Err? ==> r == Err(boundHosts.error)
    ensures boundHosts.Ok? && PySem.Truthy(boundHosts.value) ==>
      r == Err(HttpFail(400, "group " + groupId + " has bound hosts; cannot delete"))
    ensures boundHosts.Ok? && !PySem.Truthy(boundHosts.value) && deleteError.Some? ==> r == Err(deleteError.value)
    ensures boundHosts.Ok? && !PySem.Truthy(boundHosts.value) && deleteError.None? ==>
      r.Ok? && Get(r.value, "deleted") == Some(Bool(true)) && Get(r.value, "group_id") == Some(Str(groupId))
  {
    assert "group" + " " == "group ";
    DeleteGuarded("group", "group_id", groupId, boundHosts, deleteError)
  }
}
