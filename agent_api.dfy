/**
 * The synchronous batch endpoints of api/agent.py: `batch_upload` numbering the parsed hosts,
 * `batch_run` running the stored hosts one after the other, the background `_run` of
 * `batch_install`, and the bind/unbind dispatch of `template_action`. Service calls are replaced
 * by their replies (the reply dict, or the exception raised), in call order.
 */
module AgentApi {
  import opened Wrappers
  import opened Json
  import opened ServiceModels
  import PySem
  import Response
  import Templates
  import BatchWorker
  import Provisioning
  import Seqs

  // ---------------------------------------------------------------- template_action

  /** `template_action(req)`: bind iff the action is "bind", unbind otherwise; the endpoint's `ok()` envelope around the reply is not part of this function. */
  function TemplateAction(req: BindRequest, hosts: map<string, HostRecord>, getError: Option<Failure>,
                          updateError: Option<Failure>)
    : (r: Result<Templates.BindResult, Failure>)
    ensures req.action == "bind" ==> r == Templates.BindTemplate(req, hosts, getError, updateError)
    ensures req.action != "bind" ==> r == Templates.UnbindTemplate(req, hosts, getError, updateError)
    ensures r.Ok? ==> (r.value.action == "bind" <==> req.action == "bind")
  {
    if req.action == "bind" then Templates.BindTemplate(req, hosts, getError, updateError)
    else Templates.UnbindTemplate(req, hosts, getError, updateError)
  }

  // ---------------------------------------------------------------- batch_upload

  /** The stored host list of an upload: each parsed host's fields plus `item_id = idx + 1`. */
  function Numbered(hosts: seq<seq<(string, Value)>>): (r: seq<Value>)
    ensures |r| == |hosts| && forall i :: 0 <= i < |hosts| ==> r[i] == NumberedHost(hosts[i], i)
  {
    seq(|hosts|, i requires 0 <= i < |hosts| => NumberedHost(hosts[i], i))
  }

  /** `{**h, "item_id": idx + 1}`. */
  function NumberedHost(h: seq<(string, Value)>, idx: nat): (r: Value)
    ensures Get(r, "item_id") == Some(Num(idx + 1))
  {
    Obj(Put(h, "item_id", Num(idx + 1)))
  }

  /** The `for idx, h in enumerate(hosts)` loop building `hosts_data`. */
  method NumberHosts(hosts: seq<seq<(string, Value)>>) returns (data: seq<Value>)
    ensures data == Numbered(hosts)
    ensures forall i :: 0 <= i < |data| ==> Get(data[i], "item_id") == Some(Num(i + 1))
  {
    data := [];
    for i := 0 to |hosts|
      invariant |data| == i && forall j :: 0 <= j < i ==> data[j] == NumberedHost(hosts[j], j)
    {
      data := data + [NumberedHost(hosts[i], i)];
    }
    assert data == Numbered(hosts);
  }

  /** Upload ids are 1..n in parsed order, so they are distinct. */
  lemma NumberedDistinct(hosts: seq<seq<(string, Value)>>, i: nat, j: nat)
    requires i < j < |hosts|
    ensures Get(Numbered(hosts)[i], "item_id") != Get(Numbered(hosts)[j], "item_id")
  {
  }

  /**
   * `batch_upload(file)` once the file is parsed and the store has answered `save` with its
   * batch id and timestamp: the reply carries the numbered hosts and their count.
   */
  method BatchUpload(hosts: seq<seq<(string, Value)>>, savedId: Value, savedTs: Value)
    returns (stored: seq<Value>, reply: Value)
    ensures stored == Numbered(hosts)
    ensures reply == Response.Ok(Obj([("batch_id", savedId), ("ts", savedTs), ("hosts", Arr(stored)), ("count", Num(|hosts|))]))
  {
    stored := NumberHosts(hosts);
    reply := Response.Ok(Obj([("batch_id", savedId), ("ts", savedTs), ("hosts", Arr(stored)), ("count", Num(|stored|))]));
  }

  // ---------------------------------------------------------------- batch_run

  /**
   * `x in host_ids`: membership in a list, a substring test in a text, a key test in a mapping;
   * None where Python raises TypeError: a text searched for something that is not a text, a
   * mapping for a list or a dict, and a number, a boolean or None for anything.
   */
  function In(x: Value, hostIds: Value): (r: Option<bool>)
    ensures r.None? <==> !(hostIds.Arr? || (hostIds.Str? && x.Str?) || (hostIds.Obj? && !x.Arr? && !x.Obj?))
  {
    match hostIds
    case Arr(items) => Some(x in items)
    case Str(s) => if x.Str? then Some(Seqs.Contains(s, x.s)) else None
    case Obj(ms) => if x.Arr? || x.Obj? then None else Some(x.Str? && x.s in Keys(ms))
    case _ => None
  }

  /** `h.get("item_id") in host_ids or str(h.get("item_id")) in host_ids`; None where a test raises. */
  function KeptBy(h: Value, hostIds: Value): (r: Option<bool>)
    ensures var id := GetOrNull(h, "item_id");
      hostIds.Arr? ==> r == Some(id in hostIds.items || Str(PySem.ToStr(id)) in hostIds.items)
    ensures var id := GetOrNull(h, "item_id");
      r.None? ==> In(id, hostIds).None? || In(Str(PySem.ToStr(id)), hostIds).None?
  {
    var id := GetOrNull(h, "item_id");
    match In(id, hostIds)
    case Some(true) => Some(true)
    case Some(false) => In(Str(PySem.ToStr(id)), hostIds)
    case None => None
  }

  /**
   * The hosts `batch_run` runs: all of them without `host_ids`, else those `KeptBy` it, in order;
   * None, the comprehension raising, as soon as the test raises for one of them.
   */
  function RunHosts(hosts: seq<Value>, hostIds: Value): (r: Option<seq<Value>>)
    ensures !PySem.Truthy(hostIds) ==> r == Some(hosts)
    ensures PySem.Truthy(hostIds) ==> (r.Some? <==> forall h :: h in hosts ==> KeptBy(h, hostIds).Some?)
    ensures PySem.Truthy(hostIds) && r.Some? ==>
      |r.value| <= |hosts| && forall h :: h in r.value <==> h in hosts && KeptBy(h, hostIds) == Some(true)
  {
    if !PySem.Truthy(hostIds) then Some(hosts) else Kept(hosts, hostIds)
  }

  function Kept(hosts: seq<Value>, hostIds: Value): (r: Option<seq<Value>>)
    ensures r.Some? <==> forall h :: h in hosts ==> KeptBy(h, hostIds).Some?
    ensures r.Some? ==> |r.value| <= |hosts| && forall h :: h in r.value <==> h in hosts && KeptBy(h, hostIds) == Some(true)
  {
    if hosts == [] then Some([])
    else
      var last := hosts[|hosts| - 1];
      assert hosts == hosts[..|hosts| - 1] + [last];
      match (Kept(hosts[..|hosts| - 1], hostIds), KeptBy(last, hostIds))
      case (Some(init), Some(keep)) => Some(init + if keep then [last] else [])
      case _ => None
  }

  /** A list of ids never makes the filter raise. */
  lemma ListIdsNeverRaise(hosts: seq<Value>, items: seq<Value>)
    ensures RunHosts(hosts, Arr(items)).Some?
  {
  }

  /** A numeric id looked for in a text of ids raises, so the whole request fails. */
  lemma NumberInTextRaises()
    ensures RunHosts([Obj([("item_id", Num(1))])], Str("12")) == None
  {
    var h := Obj([("item_id", Num(1))]);
    assert GetOrNull(h, "item_id") == Num(1);
    assert KeptBy(h, Str("12")) == None;
  }

  /**
   * For a list or a mapping of ids, every host `batch_run` keeps is also kept by the worker's
   * string-set filter.
   */
  lemma RunKeepsOnlyWorkerHosts(h: Value, hostIds: Value)
    requires hostIds.Arr? || hostIds.Obj?
    requires KeptBy(h, hostIds) == Some(true)
    ensures BatchWorker.ItemKey(h) in BatchWorker.IdSet(hostIds).value
  {
    var id := GetOrNull(h, "item_id");
    assert PySem.ToStr(id) == BatchWorker.ItemKey(h);
    var s := Str(PySem.ToStr(id));
    assert PySem.ToStr(s) == BatchWorker.ItemKey(h);
    if hostIds.Arr? {
      if id in hostIds.items {
      } else {
        assert s in hostIds.items;
      }
    }
  }

  /**
   * The converse fails: a text id "1" selected by the number 1 is kept by the worker
   * (`str(1) == "1"`) but not by `batch_run` (neither "1" nor `str("1")` equals 1).
   */
  lemma WorkerKeepsMore()
    ensures var h := Obj([("item_id", Str("1"))]);
      BatchWorker.ItemKey(h) in BatchWorker.IdSet(Arr([Num(1)])).value && KeptBy(h, Arr([Num(1)])) == Some(false)
  {
    var h := Obj([("item_id", Str("1"))]);
    assert GetOrNull(h, "item_id") == Str("1");
    assert NatToDecimal(1) == [DigitChar(1)];
    assert PySem.ToStr(Num(1)) == "1";
    assert "1" in BatchWorker.IdSet(Arr([Num(1)])).value;
  }

  /**
   * With a text of ids the two filters part ways: `batch_run` keeps the host "12" by a substring
   * test, the worker splits the text into "1" and "2" and drops it.
   */
  lemma TextIdsDiverge()
    ensures var h := Obj([("item_id", Str("12"))]);
      KeptBy(h, Str("12")) == Some(true) && BatchWorker.ItemKey(h) !in BatchWorker.IdSet(Str("12")).value
  {
    var h := Obj([("item_id", Str("12"))]);
    assert GetOrNull(h, "item_id") == Str("12");
    assert Seqs.Contains("12", "12") by { assert "12" <= "12"[0..]; }
    BatchWorker.TextIdsAreCharacters();
  }

  /** `batch_run`'s request for one host: the payload's options, with no register-only and no URL list. */
  function RunRequest(action: Value, h: Value, payload: Value): (r: BatchWorker.HostRequest)
    ensures r.kind.UninstallKind? <==> action == Str("uninstall")
    ensures !r.kind.RegisterKind?
    ensures !r.kind.UninstallKind? ==> r.webMonitorUrl == GetOrNull(payload, "web_monitor_url") && r.webMonitorUrls == []
  {
    var p := BatchWorker.ParamsOf(payload).(registerOnly := Bool(false), webMonitorUrls := Null);
    var worker := BatchWorker.BuildRequest(action, h, p.(webMonitorUrl := Null));
    if worker.kind.UninstallKind? then worker
    else worker.(webMonitorUrls := [], webMonitorUrl := GetOrNull(payload, "web_monitor_url"))
  }

  /**
   * One result row: on success `{item_id, ip, "status": "ok", **res}` with the task id set in
   * `res`; on failure `{item_id, ip, "status": "failed", "error": str(exc)}` without a task id.
   */
  function RunRow(h: Value, taskId: string, reply: Result<seq<(string, Value)>, Failure>): (r: Value)
    ensures reply.Ok? && UniqueKeys(reply.value) ==> Get(r, "task_id") == Some(Str(taskId))
    ensures reply.Err? ==> Get(r, "task_id") == None && Get(r, "status") == Some(Str("failed"))
  {
    match reply
    case Ok(res) =>
      assert UniqueKeys(res) ==> Lookup(Merge(OkBase(h), Put(res, "task_id", Str(taskId))), "task_id") == Some(Str(taskId)) by {
        if UniqueKeys(res) {
          RunRowTaskId(h, taskId, res);
        }
      }
      Obj(Merge(OkBase(h), Put(res, "task_id", Str(taskId))))
    case Err(f) =>
      RunRowFailure(h, f);
      Obj(FailedMembers(h, f))
  }

  function OkBase(h: Value): seq<(string, Value)> {
    [("item_id", GetOrNull(h, "item_id")), ("ip", BatchWorker.IpText(h)), ("status", Str("ok"))]
  }

  function FailedMembers(h: Value, f: Failure): seq<(string, Value)> {
    [("item_id", GetOrNull(h, "item_id")), ("ip", BatchWorker.IpText(h)), ("status", Str("failed")),
     ("error", Str(Message(f)))]
  }

  /** A success row carries the task id generated for its host. */
  lemma RunRowTaskId(h: Value, taskId: string, res: seq<(string, Value)>)
    requires UniqueKeys(res)
    ensures Lookup(Merge(OkBase(h), Put(res, "task_id", Str(taskId))), "task_id") == Some(Str(taskId))
  {
    MergePutLookup(OkBase(h), res, "task_id", Str(taskId), "task_id");
  }

  /** The status of a success row is the service's own status when it sends one, else "ok". */
  lemma RunRowStatus(h: Value, taskId: string, res: seq<(string, Value)>)
    requires UniqueKeys(res)
    ensures var ms := Merge(OkBase(h), Put(res, "task_id", Str(taskId)));
      Lookup(ms, "status") == if "status" in Keys(res) then Lookup(res, "status") else Some(Str("ok"))
  {
    MergePutLookup(OkBase(h), res, "task_id", Str(taskId), "status");
    OkBaseStatus(h);
  }

  lemma OkBaseStatus(h: Value)
    ensures Lookup(OkBase(h), "status") == Some(Str("ok"))
  {
    var base := OkBase(h);
    assert base[0].0 != "status" && base[1].0 != "status" && base[2].0 == "status";
    assert Lookup(base, "status") == Lookup(base[1..], "status") == Lookup(base[1..][1..], "status");
  }

  /** A failure row says failed, carries the error text and has no task id. */
  lemma RunRowFailure(h: Value, f: Failure)
    ensures var ms := FailedMembers(h, f);
      Lookup(ms, "status") == Some(Str("failed")) && Lookup(ms, "error") == Some(Str(Message(f)))
      && Lookup(ms, "task_id") == None
  {
    var ms := FailedMembers(h, f);
    var t := ms[1..][1..];
    assert ms[0].0 != "status" && ms[1].0 != "status" && t[0].0 == "status";
    assert Lookup(ms, "status") == Lookup(ms[1..], "status") == Lookup(t, "status");
    assert t[0].0 != "error" && t[1].0 == "error";
    assert Lookup(t, "error") == Lookup(t[1..], "error");
    assert "item_id"[0] != "task_id"[0];
    assert ms[0].0 != "task_id" && ms[1].0 != "task_id" && t[0].0 != "task_id" && t[1].0 != "task_id";
    assert t[1..][1..] == [];
    assert Lookup(ms, "task_id") == Lookup(ms[1..], "task_id") == Lookup(t, "task_id")
      == Lookup(t[1..], "task_id") == Lookup(t[1..][1..], "task_id");
  }

  /** The rows of the kept hosts, each from its own task id and reply. */
  function RunRows(hosts: seq<Value>, taskIds: seq<string>, replies: seq<Result<seq<(string, Value)>, Failure>>)
    : (rows: seq<Value>)
    requires |taskIds| == |replies| == |hosts|
    ensures |rows| == |hosts|
  {
    seq(|hosts|, i requires 0 <= i < |hosts| => RunRow(hosts[i], taskIds[i], replies[i]))
  }

  /** The `for h in hosts` loop: one row per host, in order; a failing host does not stop it. */
  method RunAll(hosts: seq<Value>, taskIds: seq<string>, replies: seq<Result<seq<(string, Value)>, Failure>>)
    returns (results: seq<Value>)
    requires |taskIds| == |replies| == |hosts|
    ensures results == RunRows(hosts, taskIds, replies)
  {
    results := [];
    for i := 0 to |hosts|
      invariant |results| == i
      invariant forall j :: 0 <= j < i ==> results[j] == RunRow(hosts[j], taskIds[j], replies[j])
    {
      results := results + [RunRow(hosts[i], taskIds[i], replies[i])];
    }
  }

  /** `batch_run`'s hosts: the batch's hosts under the `host_ids or []` filter. */
  function RunHostsOf(payload: Value, batch: Value): Option<seq<Value>> {
    RunHosts(BatchWorker.BatchHosts(batch), PySem.Or(GetOrNull(payload, "host_ids"), Arr([])))
  }

  /** The reply FastAPI gives for an exception that is not an `HTTPException`. */
  const Uncaught := HttpFail(500, "Internal Server Error")

  /** The requests `batch_run` builds for its hosts. */
  function RunRequests(payload: Value, hosts: seq<Value>): (rs: seq<BatchWorker.HostRequest>)
    ensures |rs| == |hosts|
  {
    var action := BatchWorker.GetOr(payload, "action", Str("install"));
    seq(|hosts|, i requires 0 <= i < |hosts| => RunRequest(action, hosts[i], payload))
  }

  /**
   * `batch_run(payload)`: with a missing `batch_id` or a batch the store does not know
   * (`batch` is its `get` reply), 404 before any host runs; a `host_ids` filter that raises is a
   * 500 before any host runs; otherwise the rows of the kept hosts.
   */
  method BatchRun(payload: Value, batch: Value, taskIds: seq<string>, replies: seq<Result<seq<(string, Value)>, Failure>>)
    returns (requests: seq<BatchWorker.HostRequest>, r: Result<Value, Failure>)
    requires RunHostsOf(payload, batch).Some? ==> |taskIds| == |replies| == |RunHostsOf(payload, batch).value|
    ensures !PySem.Truthy(GetOrNull(payload, "batch_id")) || !PySem.Truthy(batch) ==>
      r == Err(HttpFail(404, "batch not found")) && requests == []
    ensures PySem.Truthy(GetOrNull(payload, "batch_id")) && PySem.Truthy(batch) && RunHostsOf(payload, batch).None? ==>
      r == Err(Uncaught) && requests == []
    ensures r.Ok? <==> PySem.Truthy(GetOrNull(payload, "batch_id")) && PySem.Truthy(batch) && RunHostsOf(payload, batch).Some?
    ensures r.Ok? ==>
      var hosts := RunHostsOf(payload, batch).value;
      requests == RunRequests(payload, hosts)
      && r.value == Response.Ok(Obj([("batch_id", GetOrNull(payload, "batch_id")),
                                     ("results", Arr(RunRows(hosts, taskIds, replies)))]))
  {
    var batchId := GetOrNull(payload, "batch_id");
    if !PySem.Truthy(batchId) || !PySem.Truthy(batch) {
      return [], Err(HttpFail(404, "batch not found"));
    }
    var kept := RunHostsOf(payload, batch);
    if kept.None? {
      return [], Err(Uncaught);
    }
    var hosts := kept.value;
    requests := RunRequests(payload, hosts);
    var results := RunAll(hosts, taskIds, replies);
    r := Ok(Response.Ok(Obj([("batch_id", batchId), ("results", Arr(results))])));
  }

  // ---------------------------------------------------------------- batch_install

  /** The final `tasks.update` of `_run`: its status, its log text and its result. */
  datatype TaskUpdate = TaskUpdate(status: string, log: string, result: Option<seq<Value>>)

  /** The requests `_run` works on: the parsed file if one was sent, else the `servers` list. */
  function InstallSource(parsed: Option<seq<Value>>, servers: Option<seq<Value>>): Option<seq<Value>> {
    if parsed.Some? then parsed else servers
  }

  /** What `_run` hands the service for one request: the request itself, or only ip and hostname to uninstall. */
  function InstallCall(action: string, req: Value): Value {
    if action == "install" then req
    else Obj([("ip", GetOrNull(req, "ip")), ("hostname", GetOrNull(req, "hostname"))])
  }

  /** An install passes the request on unchanged; an uninstall passes exactly its ip and hostname. */
  lemma InstallCallFields(action: string, req: Value)
    ensures action == "install" ==> InstallCall(action, req) == req
    ensures action != "install" ==>
      var r := InstallCall(action, req);
      r.Obj? && Keys(r.members) == ["ip", "hostname"]
      && GetOrNull(r, "ip") == GetOrNull(req, "ip") && GetOrNull(r, "hostname") == GetOrNull(req, "hostname")
  {
  }

  /** `res | {"task_id": main_task_id}` for every reply, in order. */
  function Tagged(vs: seq<seq<(string, Value)>>, mainTaskId: string): (r: seq<Value>)
    ensures |r| == |vs|
    ensures forall i :: 0 <= i < |vs| ==> r[i] == Obj(Put(vs[i], "task_id", Str(mainTaskId)))
  {
    seq(|vs|, i requires 0 <= i < |vs| => Obj(Put(vs[i], "task_id", Str(mainTaskId))))
  }

  /**
   * The `for req in reqs` loop of `_run`: calls run in order and the first exception stops the
   * loop and fails the task with its text (`Provisioning.UntilError` names where). Otherwise the
   * task is done with every reply, each with the main task id set.
   */
  method RunInstalls(action: string, mainTaskId: string, reqs: seq<Value>, replies: seq<Result<seq<(string, Value)>, Failure>>)
    returns (calls: seq<Value>, update: TaskUpdate)
    requires |replies| == |reqs|
    ensures var (vs, err) := Provisioning.UntilError(replies);
      (err.None? ==> update == TaskUpdate("done", "", Some(Tagged(vs, mainTaskId))) && |calls| == |reqs|)
      && (err.Some? ==> update == TaskUpdate("failed", Message(err.value), None) && |calls| == |vs| + 1)
    ensures |calls| <= |reqs| && forall i :: 0 <= i < |calls| ==> calls[i] == InstallCall(action, reqs[i])
  {
    var vs := [];
    calls := [];
    var i := 0;
    while i < |reqs|
      invariant i <= |reqs| && |calls| == |vs| == i
      invariant forall j :: 0 <= j < i ==> calls[j] == InstallCall(action, reqs[j])
      invariant forall j :: 0 <= j < i ==> replies[j] == Ok(vs[j])
    {
      calls := calls + [InstallCall(action, reqs[i])];
      if replies[i].Err? {
        Provisioning.UntilErrorAt(replies, vs);
        return calls, TaskUpdate("failed", Message(replies[i].error), None);
      }
      vs := vs + [replies[i].value];
      i := i + 1;
    }
    Provisioning.UntilErrorAt(replies, vs);
    return calls, TaskUpdate("done", "", Some(Tagged(vs, mainTaskId)));
  }

  /**
   * The background `_run` of `batch_install`: without a file and without servers the task fails
   * with "servers payload required when no file uploaded"; otherwise the requests run as
   * `RunInstalls` states.
   */
  method BatchInstallRun(action: string, mainTaskId: string, parsed: Option<seq<Value>>, servers: Option<seq<Value>>,
                         replies: seq<Result<seq<(string, Value)>, Failure>>)
    returns (calls: seq<Value>, update: TaskUpdate)
    requires InstallSource(parsed, servers).Some? ==> |replies| == |InstallSource(parsed, servers).value|
    ensures InstallSource(parsed, servers).None? ==>
      update == TaskUpdate("failed", "servers payload required when no file uploaded", None) && calls == []
    ensures InstallSource(parsed, servers).Some? ==>
      var reqs := InstallSource(parsed, servers).value;
      var (vs, err) := Provisioning.UntilError(replies);
      (err.None? ==> update == TaskUpdate("done", "", Some(Tagged(vs, mainTaskId))))
      && (err.Some? ==> update == TaskUpdate("failed", Message(err.value), None) && |calls| == |vs| + 1)
      && |calls| <= |reqs| && (forall i :: 0 <= i < |calls| ==> calls[i] == InstallCall(action, reqs[i]))
  {
    var source := InstallSource(parsed, servers);
    if source.None? {
      return [], TaskUpdate("failed", "servers payload required when no file uploaded", None);
    }
    calls, update := RunInstalls(action, mainTaskId, source.value, replies);
  }
}
