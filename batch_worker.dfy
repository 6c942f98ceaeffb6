/**
 * The background batch worker (tasks/batch_worker.py): one iteration of `_loop`, and
 * `_process_queue` with the request built for each host, the result row of `run_host`, the
 * collection of results that stops at a cancellation, and the rows written for hosts left
 * without a result. The thread pool is replaced by a sequence of per-host service replies, the
 * store by the list of calls made on it and the answers it gives.
 */
module BatchWorker {
  import opened Wrappers
  import opened Json
  import opened ServiceModels
  import PySem
  import WebUrls

  /** The calls the worker makes on its batch store, in order. */
  datatype StoreCall =
    | StartQueue(qid: Value)
    | FinishQueue(qid: Value, status: string, error: Value)
    | SaveResults(batchId: Value, rows: seq<Value>)
    | GetResults(batchId: Value, hostIds: seq<Value>)

  /** `d.get(k, default)`. */
  function GetOr(v: Value, k: string, default: Value): Value {
    Get(v, k).GetOr(default)
  }

  // ---------------------------------------------------------------- host filter

  /** `str(h.get("item_id"))`: the key hosts and result rows are matched by. */
  function ItemKey(h: Value): string {
    PySem.ToStr(GetOrNull(h, "item_id"))
  }

  /**
   * `{str(h) for h in host_ids}`: the `str` of each listed id, each character of a text, each key
   * of a mapping; None where the comprehension raises TypeError because a number, a boolean or
   * None cannot be iterated.
   */
  function IdSet(hostIds: Value): (r: Option<set<string>>)
    ensures r.Some? <==> hostIds.Arr? || hostIds.Str? || hostIds.Obj?
    ensures hostIds.Arr? ==> forall k :: k in r.value <==> exists h :: h in hostIds.items && k == PySem.ToStr(h)
    ensures hostIds.Str? ==> forall k :: k in r.value <==> exists i :: 0 <= i < |hostIds.s| && k == [hostIds.s[i]]
    ensures hostIds.Obj? ==> forall k :: k in r.value <==> k in Keys(hostIds.members)
  {
    match hostIds
    case Arr(items) => Some(set h | h in items :: PySem.ToStr(h))
    case Str(s) => Some(set i | 0 <= i < |s| :: [s[i]])
    case Obj(ms) => Some(set k | k in Keys(ms))
    case _ => None
  }

  /** A text of ids is split into its characters: "12" selects the hosts "1" and "2", not "12". */
  lemma TextIdsAreCharacters()
    ensures IdSet(Str("12")) == Some({"1", "2"})
  {
    var r := IdSet(Str("12")).value;
    assert "12"[0] == '1' && "12"[1] == '2';
    assert "1" in r && "2" in r;
    forall k | k in r ensures k == "1" || k == "2" {
      var i :| 0 <= i < 2 && k == ["12"[i]];
    }
    assert r == {"1", "2"};
  }

  /** The hosts whose key is in `ids`, in their order. */
  function KeepHosts(hosts: seq<Value>, ids: set<string>): (r: seq<Value>)
    ensures |r| <= |hosts|
    ensures forall h :: h in r <==> h in hosts && ItemKey(h) in ids
  {
    if hosts == [] then []
    else
      var last := hosts[|hosts| - 1];
      var init := hosts[..|hosts| - 1];
      assert hosts == init + [last];
      KeepHosts(init, ids) + if ItemKey(last) in ids then [last] else []
  }

  /** Filtering keeps batch order: it distributes over concatenation. */
  lemma {:induction false} KeepHostsAppend(a: seq<Value>, b: seq<Value>, ids: set<string>)
    ensures KeepHosts(a + b, ids) == KeepHosts(a, ids) + KeepHosts(b, ids)
    decreases |b|
  {
    if b != [] {
      var b' := b[..|b| - 1];
      assert (a + b)[..|a + b| - 1] == a + b';
      assert (a + b)[|a + b| - 1] == b[|b| - 1];
      KeepHostsAppend(a, b', ids);
    } else {
      assert a + b == a;
    }
  }

  /** `batch.get("hosts", [])`. */
  function BatchHosts(batch: Value): seq<Value> {
    var hs := GetOr(batch, "hosts", Arr([]));
    if hs.Arr? then hs.items else []
  }

  /**
   * The hosts `_process_queue` works on: all of them, or those whose key is in the set built from
   * `host_ids`; None where building that set raises.
   */
  function Processed(task: Value, batch: Value): (r: Option<seq<Value>>)
    ensures var ids := GetOrNull(task, "host_ids");
      (!PySem.Truthy(ids) ==> r == Some(BatchHosts(batch)))
      && (PySem.Truthy(ids) ==> (r.Some? <==> IdSet(ids).Some?))
      && (PySem.Truthy(ids) && r.Some? ==>
            forall h :: h in r.value <==> h in BatchHosts(batch) && ItemKey(h) in IdSet(ids).value)
  {
    var hostIds := PySem.Or(GetOrNull(task, "host_ids"), Arr([]));
    if !PySem.Truthy(hostIds) then Some(BatchHosts(batch))
    else match IdSet(hostIds)
      case Some(ids) => Some(KeepHosts(BatchHosts(batch), ids))
      case None => None
  }

  // ---------------------------------------------------------------- requests

  /** The queue payload's options, with their defaults. */
  datatype QueueParams = QueueParams(
    templateIds: Value, groupIds: Value, proxyId: Value, registerServer: Value, registerOnly: Value,
    precheck: Value, webMonitorUrls: Value, webMonitorUrl: Value, jmxPort: Value)

  function ParamsOf(payload: Value): QueueParams {
    QueueParams(
      PySem.Or(GetOrNull(payload, "template_ids"), Arr([])),
      PySem.Or(GetOrNull(payload, "group_ids"), Arr([])),
      GetOrNull(payload, "proxy_id"),
      GetOr(payload, "register_server", Bool(true)),
      GetOr(payload, "register_only", Bool(false)),
      GetOr(payload, "precheck", Bool(false)),
      PySem.Or(GetOrNull(payload, "web_monitor_urls"), Arr([])),
      GetOrNull(payload, "web_monitor_url"),
      GetOrNull(payload, "jmx_port"))
  }

  /**
   * `ids or h.get(list) or ([h.get(single)] if h.get(single) else None)`: the payload's ids,
   * else the host's list, else the host's single id as a list, else None.
   */
  function IdsFallback(payloadIds: Value, hostIds: Value, hostSingle: Value): (r: Value)
    ensures PySem.Truthy(r) <==> PySem.Truthy(payloadIds) || PySem.Truthy(hostIds) || PySem.Truthy(hostSingle)
    ensures PySem.Truthy(payloadIds) ==> r == payloadIds
    ensures !PySem.Truthy(payloadIds) && PySem.Truthy(hostIds) ==> r == hostIds
    ensures !PySem.Truthy(payloadIds) && !PySem.Truthy(hostIds) && PySem.Truthy(hostSingle) ==> r == Arr([hostSingle])
    ensures !PySem.Truthy(r) ==> r == Null
  {
    PySem.Or(PySem.Or(payloadIds, hostIds), if PySem.Truthy(hostSingle) then Arr([hostSingle]) else Null)
  }

  /**
   * The URLs a host is given: its own (`web_monitor_urls or web_monitor_url`), else the payload's
   * list, else the payload's single URL, each through `_normalize_urls`.
   */
  function HostUrls(h: Value, p: QueueParams): (r: seq<string>)
    ensures var own := WebUrls.NormalizeUrls(PySem.Or(GetOrNull(h, "web_monitor_urls"), GetOrNull(h, "web_monitor_url")));
      (own != [] ==> r == own)
      && (own == [] && WebUrls.NormalizeUrls(p.webMonitorUrls) != [] ==> r == WebUrls.NormalizeUrls(p.webMonitorUrls))
      && (own == [] && WebUrls.NormalizeUrls(p.webMonitorUrls) == [] ==> r == WebUrls.NormalizeUrls(p.webMonitorUrl))
  {
    var own := WebUrls.NormalizeUrls(PySem.Or(GetOrNull(h, "web_monitor_urls"), GetOrNull(h, "web_monitor_url")));
    if own != [] then own
    else
      var listed := WebUrls.NormalizeUrls(p.webMonitorUrls);
      if listed != [] then listed else WebUrls.NormalizeUrls(p.webMonitorUrl)
  }

  datatype Kind = UninstallKind | RegisterKind | InstallKind

  /**
   * The keyword arguments of the request `run_host` builds (SSH overrides left out); fields the
   * request kind does not take are Null.
   */
  datatype HostRequest = HostRequest(
    kind: Kind, ip: Value, hostname: Value, osType: Value, env: Value, port: Value, visibleName: Value,
    templateIds: Value, groupIds: Value, proxyId: Value, registerServer: Value, precheck: Value,
    webMonitorUrls: seq<string>, webMonitorUrl: Value, jmxPort: Value)

  /** `run_host`'s choice of request: uninstall, register only, or install. */
  function BuildRequest(action: Value, h: Value, p: QueueParams): (r: HostRequest)
    ensures r.kind.UninstallKind? <==> action == Str("uninstall")
    ensures r.kind.RegisterKind? <==> action != Str("uninstall") && PySem.Truthy(p.registerOnly)
    ensures r.ip == GetOrNull(h, "ip") && r.hostname == GetOrNull(h, "hostname")
    ensures r.proxyId == PySem.Or(p.proxyId, GetOrNull(h, "proxy_id"))
    ensures !r.kind.UninstallKind? ==>
      r.webMonitorUrls == HostUrls(h, p)
      && r.webMonitorUrl == (if r.webMonitorUrls != [] then Str(r.webMonitorUrls[0]) else Null)
      && r.templateIds == IdsFallback(p.templateIds, GetOrNull(h, "template_ids"), GetOrNull(h, "template_id"))
      && r.groupIds == IdsFallback(p.groupIds, GetOrNull(h, "group_ids"), GetOrNull(h, "group_id"))
      && r.port == PySem.Or(GetOrNull(h, "port"), Num(10050))
    ensures r.kind.InstallKind? ==>
      (r.osType == PySem.Or(GetOrNull(h, "os_type"), Str("linux"))
       && r.registerServer == p.registerServer && r.precheck == p.precheck)
  {
    var proxy := PySem.Or(p.proxyId, GetOrNull(h, "proxy_id"));
    if action == Str("uninstall") then
      HostRequest(UninstallKind, GetOrNull(h, "ip"), GetOrNull(h, "hostname"), Null, Null, Null, Null,
                  Null, Null, proxy, Null, Null, [], Null, Null)
    else
      var urls := HostUrls(h, p);
      var kind := if PySem.Truthy(p.registerOnly) then RegisterKind else InstallKind;
      HostRequest(
        kind, GetOrNull(h, "ip"), GetOrNull(h, "hostname"),
        if kind == InstallKind then PySem.Or(GetOrNull(h, "os_type"), Str("linux")) else Null,
        if kind == InstallKind then GetOrNull(h, "env") else Null,
        PySem.Or(GetOrNull(h, "port"), Num(10050)),
        GetOrNull(h, "visible_name"),
        IdsFallback(p.templateIds, GetOrNull(h, "template_ids"), GetOrNull(h, "template_id")),
        IdsFallback(p.groupIds, GetOrNull(h, "group_ids"), GetOrNull(h, "group_id")),
        proxy,
        if kind == InstallKind then p.registerServer else Null,
        if kind == InstallKind then p.precheck else Null,
        urls, if urls != [] then Str(urls[0]) else Null,
        PySem.Or(p.jmxPort, GetOrNull(h, "jmx_port")))
  }

  // ---------------------------------------------------------------- result rows

  /** `str(h.get("ip"))`. */
  function IpText(h: Value): Value {
    Str(PySem.ToStr(GetOrNull(h, "ip")))
  }

  /** The row saved before a host starts, so that the client sees it installing. */
  function InstallingRow(h: Value, taskId: string, settings: Settings): (r: Value)
    ensures Get(r, "status") == Some(Str("installing")) && Get(r, "task_id") == Some(Str(taskId))
      && Get(r, "item_id") == Some(GetOrNull(h, "item_id"))
      && Get(r, "host_id") == Some(Null) && Get(r, "error") == Some(Null)
  {
    var ms := [("item_id", GetOrNull(h, "item_id")), ("ip", IpText(h)), ("host_id", Null), ("task_id", Str(taskId)),
               ("status", Str("installing")), ("error", Null), ("zabbix_url", Str(settings.zabbixApiBase))];
    assert UniqueKeys(ms);
    LookupAt(ms, 0); LookupAt(ms, 2); LookupAt(ms, 3); LookupAt(ms, 4); LookupAt(ms, 5);
    Obj(ms)
  }

  /** `{"item_id", "ip", "status": "ok", **res, **({"host_id": host_id} if host_id else {})}`. */
  function SuccessMembers(h: Value, taskId: string, res: seq<(string, Value)>): seq<(string, Value)> {
    var res' := Put(res, "task_id", Str(taskId));
    var hostId := Lookup(res', "host_id").GetOr(Null);
    Merge(Merge(BaseMembers(h), res'), if PySem.Truthy(hostId) then [("host_id", hostId)] else [])
  }

  function BaseMembers(h: Value): seq<(string, Value)> {
    [("item_id", GetOrNull(h, "item_id")), ("ip", IpText(h)), ("status", Str("ok"))]
  }

  /** The row of a host whose service call raised. */
  function FailureRow(h: Value, taskId: string, f: Failure): Value {
    Obj([("item_id", GetOrNull(h, "item_id")), ("ip", IpText(h)), ("status", Str("failed")),
         ("error", Str(Message(f))), ("task_id", Str(taskId))])
  }

  /** `run_host(h)` given the service's reply (its dict, or the exception it raised). */
  function RunHost(h: Value, taskId: string, reply: Result<seq<(string, Value)>, Failure>): (r: Value)
    ensures reply.Err? || UniqueKeys(reply.value) ==> Get(r, "task_id") == Some(Str(taskId))
    ensures reply.Err? ==> Get(r, "status") == Some(Str("failed")) && Get(r, "error") == Some(Str(Message(reply.error)))
  {
    match reply
    case Ok(res) =>
      assert UniqueKeys(res) ==> Lookup(SuccessMembers(h, taskId, res), "task_id") == Some(Str(taskId)) by {
        if UniqueKeys(res) {
          SuccessRowFields(h, taskId, res, "status");
        }
      }
      Obj(SuccessMembers(h, taskId, res))
    case Err(f) =>
      FailureRowFields(h, taskId, f);
      FailureRow(h, taskId, f)
  }

  /**
   * A success row: the service's keys win over the literal ones, so its "status" is the row's
   * status; the task id is the one generated for the host; and re-adding `host_id` never changes
   * what it reads as.
   */
  lemma SuccessRowFields(h: Value, taskId: string, res: seq<(string, Value)>, k: string)
    requires UniqueKeys(res)
    ensures var ms := SuccessMembers(h, taskId, res);
      Lookup(ms, "task_id") == Some(Str(taskId))
      && (k != "task_id" && k in Keys(res) ==> Lookup(ms, k) == Lookup(res, k))
      && (k != "task_id" && k !in Keys(res) ==> Lookup(ms, k) == Lookup(BaseMembers(h), k))
  {
    var res' := Put(res, "task_id", Str(taskId));
    var hostId := Lookup(res', "host_id").GetOr(Null);
    var m1 := Merge(BaseMembers(h), res');
    PutOther(res, "task_id", Str(taskId), "host_id");
    MergePutLookup(BaseMembers(h), res, "task_id", Str(taskId), "host_id");
    ReAddKeeps(m1, hostId, "task_id");
    ReAddKeeps(m1, hostId, k);
    MergePutLookup(BaseMembers(h), res, "task_id", Str(taskId), "task_id");
    MergePutLookup(BaseMembers(h), res, "task_id", Str(taskId), k);
  }

  /** Re-adding a truthy `host_id` the members already hold changes no lookup. */
  lemma ReAddKeeps(ms: seq<(string, Value)>, hostId: Value, q: string)
    requires PySem.Truthy(hostId) ==> Lookup(ms, "host_id") == Some(hostId)
    ensures Lookup(Merge(ms, if PySem.Truthy(hostId) then [("host_id", hostId)] else []), q) == Lookup(ms, q)
  {
    if PySem.Truthy(hostId) {
      assert Merge(ms, [("host_id", hostId)]) == Put(ms, "host_id", hostId);
      if q != "host_id" {
        PutOther(ms, "host_id", hostId, q);
      }
    }
  }

  /** A row for a host whose service call raised: failed, with the error text and the task id. */
  lemma FailureRowFields(h: Value, taskId: string, f: Failure)
    ensures var r := FailureRow(h, taskId, f);
      Get(r, "status") == Some(Str("failed")) && Get(r, "error") == Some(Str(Message(f)))
      && Get(r, "task_id") == Some(Str(taskId)) && Get(r, "item_id") == Some(GetOrNull(h, "item_id"))
  {
    var ms := FailureRow(h, taskId, f).members;
    assert UniqueKeys(ms);
    LookupAt(ms, 0);
    LookupAt(ms, 2);
    LookupAt(ms, 3);
    LookupAt(ms, 4);
  }

  // ---------------------------------------------------------------- collection

  /** How many results are collected: up to the first cancellation check that answers true. */
  function Collected(checks: seq<bool>, n: nat): (k: nat)
    requires n <= |checks|
    ensures k <= n
    ensures forall j :: 0 <= j < k ==> !checks[j]
    ensures k < n ==> checks[k]
    decreases n
  {
    if n == 0 then 0
    else
      var k := Collected(checks, n - 1);
      if k < n - 1 then k else if checks[n - 1] then n - 1 else n
  }

  /** The `for f in futures` loop: results are collected in host order until a check says cancelled. */
  method Collect(rows: seq<Value>, checks: seq<bool>) returns (results: seq<Value>, k: nat)
    requires |checks| == |rows| + 1
    ensures k == Collected(checks, |rows|) && results == rows[..k]
  {
    results := [];
    var i := 0;
    while i < |rows|
      invariant 0 <= i <= |rows|
      invariant results == rows[..i]
      invariant forall j :: 0 <= j < i ==> !checks[j]
    {
      if checks[i] {
        CollectedAt(checks, |rows|, i);
        return results, i;
      }
      assert rows[..i + 1] == rows[..i] + [rows[i]];
      results := results + [rows[i]];
      i := i + 1;
    }
    CollectedAll(checks, |rows|);
    return results, i;
  }

  lemma {:induction false} CollectedAt(checks: seq<bool>, n: nat, i: nat)
    requires i < n <= |checks| && checks[i] && forall j :: 0 <= j < i ==> !checks[j]
    ensures Collected(checks, n) == i
    decreases n
  {
    if n - 1 > i {
      CollectedAt(checks, n - 1, i);
    }
  }

  lemma {:induction false} CollectedAll(checks: seq<bool>, n: nat)
    requires n <= |checks| && forall j :: 0 <= j < n ==> !checks[j]
    ensures Collected(checks, n) == n
    decreases n
  {
    if n > 0 {
      CollectedAll(checks, n - 1);
    }
  }

  // ---------------------------------------------------------------- cancellation

  /** The keys of the collected result rows. */
  function ResultKeys(results: seq<Value>): (r: set<string>)
    ensures forall k :: k in r <==> exists i :: 0 <= i < |results| && ItemKey(results[i]) == k
  {
    set i | 0 <= i < |results| :: ItemKey(results[i])
  }

  /** `pending_hosts`: the processed hosts no collected row matches by key, in order. */
  function Pending(hosts: seq<Value>, results: seq<Value>): (r: seq<Value>)
    ensures forall h :: h in r <==> h in hosts && ItemKey(h) !in ResultKeys(results)
  {
    if hosts == [] then []
    else
      var last := hosts[|hosts| - 1];
      assert hosts == hosts[..|hosts| - 1] + [last];
      Pending(hosts[..|hosts| - 1], results) + if ItemKey(last) !in ResultKeys(results) then [last] else []
  }

  /** `existing_latest`: each key's task id in the stored rows, the later row winning. */
  function LatestTaskIds(rows: seq<Value>): map<string, Value> {
    if rows == [] then map[]
    else LatestTaskIds(rows[..|rows| - 1])[ItemKey(rows[|rows| - 1]) := GetOrNull(rows[|rows| - 1], "task_id")]
  }

  /** The map has an entry exactly for the keys of the stored rows. */
  lemma {:induction false} LatestTaskIdsKeys(rows: seq<Value>)
    ensures forall k :: k in LatestTaskIds(rows) <==> k in ResultKeys(rows)
  {
    if rows != [] {
      var init := rows[..|rows| - 1];
      var last := rows[|rows| - 1];
      LatestTaskIdsKeys(init);
      forall k ensures k in ResultKeys(rows) <==> k in ResultKeys(init) || k == ItemKey(last) {
        if k in ResultKeys(rows) && k != ItemKey(last) {
          var i :| 0 <= i < |rows| && ItemKey(rows[i]) == k;
          assert init[i] == rows[i];
        }
        if k in ResultKeys(init) {
          var i :| 0 <= i < |init| && ItemKey(init[i]) == k;
          assert rows[i] == init[i];
        }
      }
    }
  }

  /** A key's entry is the task id of the last stored row with that key. */
  lemma {:induction false} LatestTaskIdsWins(rows: seq<Value>, i: nat)
    requires i < |rows|
    requires forall j :: i < j < |rows| ==> ItemKey(rows[j]) != ItemKey(rows[i])
    ensures ItemKey(rows[i]) in LatestTaskIds(rows)
    ensures LatestTaskIds(rows)[ItemKey(rows[i])] == GetOrNull(rows[i], "task_id")
  {
    if i < |rows| - 1 {
      var init := rows[..|rows| - 1];
      LatestTaskIdsWins(init, i);
    }
  }

  /** The row written for a host left without a result: failed, "cancelled", its latest task id. */
  function CancelRow(h: Value, latest: map<string, Value>, settings: Settings): Value {
    var key := ItemKey(h);
    Obj([("item_id", Str(key)), ("ip", IpText(h)), ("host_id", Null),
         ("task_id", if key in latest then latest[key] else Null),
         ("status", Str("failed")), ("error", Str("cancelled")), ("zabbix_url", Str(settings.zabbixApiBase))])
  }

  /** The `for h in pending_hosts` loop building `cancel_rows`. */
  method CancelRows(pending: seq<Value>, latest: map<string, Value>, settings: Settings) returns (rows: seq<Value>)
    ensures |rows| == |pending|
    ensures forall i :: 0 <= i < |pending| ==> rows[i] == CancelRow(pending[i], latest, settings)
  {
    rows := [];
    for i := 0 to |pending|
      invariant |rows| == i
      invariant forall j :: 0 <= j < i ==> rows[j] == CancelRow(pending[j], latest, settings)
    {
      rows := rows + [CancelRow(pending[i], latest, settings)];
    }
  }

  /** A cancel row is failed with "cancelled" and reuses the latest stored task id of its host. */
  lemma CancelRowFields(h: Value, latest: map<string, Value>, settings: Settings)
    ensures var r := CancelRow(h, latest, settings);
      Get(r, "status") == Some(Str("failed")) && Get(r, "error") == Some(Str("cancelled"))
      && Get(r, "item_id") == Some(Str(ItemKey(h)))
      && Get(r, "task_id") == Some(if ItemKey(h) in latest then latest[ItemKey(h)] else Null)
  {
    var ms := CancelRow(h, latest, settings).members;
    assert UniqueKeys(ms);
    LookupAt(ms, 0);
    LookupAt(ms, 3);
    LookupAt(ms, 4);
    LookupAt(ms, 5);
  }

  // ---------------------------------------------------------------- the queue

  /**
   * What the store and the hosts answer during one `_process_queue`: the batch `get` returns,
   * the task id and service reply of each processed host, the answers of the successive
   * `is_cancelled` calls, the rows `get_results` returns, and whether each `save_results` raises.
   */
  datatype Answers = Answers(
    batch: Value,
    taskIds: seq<string>,
    replies: seq<Result<seq<(string, Value)>, Failure>>,
    checks: seq<bool>,
    latestRows: seq<Value>,
    saveError: Option<string>,
    cancelSaveError: Option<string>)

  /** The result row of every processed host, as its `run_host` future yields it. */
  function Rows(hosts: seq<Value>, a: Answers): (rows: seq<Value>)
    requires |a.taskIds| == |a.replies| == |hosts|
    ensures |rows| == |hosts|
  {
    seq(|hosts|, i requires 0 <= i < |hosts| => RunHost(hosts[i], a.taskIds[i], a.replies[i]))
  }

  /** The `host_ids` asked of `get_results` for the pending hosts: their raw `item_id`s. */
  function PendingIds(pending: seq<Value>): (r: seq<Value>)
    ensures |r| == |pending| && forall i :: 0 <= i < |pending| ==> r[i] == GetOrNull(pending[i], "item_id")
  {
    seq(|pending|, i requires 0 <= i < |pending| => GetOrNull(pending[i], "item_id"))
  }

  /**
   * The store calls after collection: the results are saved; a save that raises fails the queue;
   * without a cancellation the queue is done; with one, the pending hosts (if any) get their
   * cancel rows, built from the rows the store returns for them, and the queue is cancelled,
   * or failed if saving those rows raises.
   */
  predicate FinishedAs(calls: seq<StoreCall>, qid: Value, batchId: Value, hosts: seq<Value>, results: seq<Value>,
                       cancelled: bool, a: Answers, settings: Settings)
  {
    var pending := Pending(hosts, results);
    var cancelFinish := FinishQueue(qid, "cancelled", Str("用户取消"));
    if a.saveError.Some? then calls == [SaveResults(batchId, results), FinishQueue(qid, "failed", Str(a.saveError.value))]
    else if !cancelled then calls == [SaveResults(batchId, results), FinishQueue(qid, "done", Null)]
    else if pending == [] then calls == [SaveResults(batchId, results), cancelFinish]
    else
      |calls| == 4 && calls[0] == SaveResults(batchId, results) && calls[1] == GetResults(batchId, PendingIds(pending))
      && calls[2].SaveResults? && calls[2].batchId == batchId && |calls[2].rows| == |pending|
      && (forall i :: 0 <= i < |pending| ==> calls[2].rows[i] == CancelRow(pending[i], LatestTaskIds(a.latestRows), settings))
      && calls[3] == (if a.cancelSaveError.Some? then FinishQueue(qid, "failed", Str(a.cancelSaveError.value)) else cancelFinish)
  }

  /** The `try` block after the `for f in futures` loop. */
  method Finish(qid: Value, batchId: Value, hosts: seq<Value>, results: seq<Value>, cancelled: bool,
                a: Answers, settings: Settings)
    returns (calls: seq<StoreCall>)
    ensures FinishedAs(calls, qid, batchId, hosts, results, cancelled, a, settings)
    ensures |calls| >= 2 && calls[0] == SaveResults(batchId, results)
    ensures calls[|calls| - 1].FinishQueue? && calls[|calls| - 1].qid == qid
    ensures a.saveError.None? ==> (calls[|calls| - 1].status == "done" <==> !cancelled)
  {
    calls := [SaveResults(batchId, results)];
    if a.saveError.Some? {
      return calls + [FinishQueue(qid, "failed", Str(a.saveError.value))];
    }
    if !cancelled {
      return calls + [FinishQueue(qid, "done", Null)];
    }
    var pending := Pending(hosts, results);
    if pending != [] {
      calls := calls + [GetResults(batchId, PendingIds(pending))];
      var rows := CancelRows(pending, LatestTaskIds(a.latestRows), settings);
      calls := calls + [SaveResults(batchId, rows)];
      if a.cancelSaveError.Some? {
        return calls + [FinishQueue(qid, "failed", Str(a.cancelSaveError.value))];
      }
    }
    return calls + [FinishQueue(qid, "cancelled", Str("用户取消"))];
  }

  /** Whether the check after the loop says cancelled: the one after the check that broke it. */
  function CancelledAfter(checks: seq<bool>, n: nat): bool
    requires n + 1 <= |checks|
  {
    var k := Collected(checks, n);
    checks[if k < n then k + 1 else n]
  }

  /** The rows `run_host` saves first, one per processed host, each marked installing. */
  function InstallingRows(hosts: seq<Value>, a: Answers, settings: Settings): (rows: seq<Value>)
    requires |a.taskIds| == |hosts|
    ensures |rows| == |hosts|
  {
    seq(|hosts|, i requires 0 <= i < |hosts| => InstallingRow(hosts[i], a.taskIds[i], settings))
  }

  /** The requests `run_host` builds, one per processed host. */
  function Requests(task: Value, hosts: seq<Value>): (rs: seq<HostRequest>)
    ensures |rs| == |hosts|
  {
    var p := ParamsOf(GetOr(task, "payload", Obj([])));
    seq(|hosts|, i requires 0 <= i < |hosts| => BuildRequest(GetOr(task, "action", Str("install")), hosts[i], p))
  }

  /** The store and host answers fit the run: one per processed host, one cancellation check more. */
  predicate Fits(task: Value, a: Answers) {
    |a.checks| == |a.replies| + 1
    && (Processed(task, a.batch).Some? ==> |a.taskIds| == |a.replies| == |Processed(task, a.batch).value|)
  }

  /**
   * The store calls of `_process_queue(task)`: the queue is started; a missing batch fails it;
   * a `host_ids` that cannot be iterated raises out of it, leaving the queue running; otherwise
   * the results, collected in host order up to a cancellation, are saved and the queue finished
   * as `FinishedAs` says.
   */
  predicate QueueTrace(calls: seq<StoreCall>, task: Value, a: Answers, settings: Settings)
    requires Fits(task, a)
  {
    var qid := GetOrNull(task, "id");
    |calls| >= 1 && calls[0] == StartQueue(qid)
    && if !PySem.Truthy(a.batch) then calls == [StartQueue(qid), FinishQueue(qid, "failed", Str("batch not found"))]
       else if Processed(task, a.batch).None? then calls == [StartQueue(qid)]
       else
         var hosts := Processed(task, a.batch).value;
         FinishedAs(calls[1..], qid, GetOrNull(task, "batch_id"), hosts, Rows(hosts, a)[..Collected(a.checks, |hosts|)],
                    CancelledAfter(a.checks, |hosts|), a, settings)
  }

  /**
   * `_process_queue(task)`: the store calls are `QueueTrace`; when hosts run, `installing` are
   * the rows saved before each starts, `requests` the requests built and `results` the rows
   * collected and saved.
   */
  method ProcessQueue(task: Value, a: Answers, settings: Settings)
    returns (calls: seq<StoreCall>, installing: seq<Value>, requests: seq<HostRequest>, results: seq<Value>)
    requires Fits(task, a)
    ensures QueueTrace(calls, task, a, settings)
    ensures !PySem.Truthy(a.batch) || Processed(task, a.batch).None? ==>
      installing == [] && requests == [] && results == []
    ensures PySem.Truthy(a.batch) && Processed(task, a.batch).Some? ==>
      var hosts := Processed(task, a.batch).value;
      installing == InstallingRows(hosts, a, settings) && requests == Requests(task, hosts)
      && results == Rows(hosts, a)[..Collected(a.checks, |hosts|)]
      && calls[1] == SaveResults(GetOrNull(task, "batch_id"), results)
  {
    var qid := GetOrNull(task, "id");
    calls := [StartQueue(qid)];
    if !PySem.Truthy(a.batch) {
      return calls + [FinishQueue(qid, "failed", Str("batch not found"))], [], [], [];
    }
    var processed := Processed(task, a.batch);
    if processed.None? {
      return calls, [], [], [];
    }
    var hosts := processed.value;
    installing := InstallingRows(hosts, a, settings);
    requests := Requests(task, hosts);
    var k;
    results, k := Collect(Rows(hosts, a), a.checks);
    var rest := Finish(qid, GetOrNull(task, "batch_id"), hosts, results, CancelledAfter(a.checks, |hosts|), a, settings);
    calls := calls + rest;
    assert calls[1..] == rest;
  }

  /**
   * One iteration of `_loop`: nothing to do without a pending task; a task cancelled before it
   * starts is finished as cancelled and never processed; any other task is processed, its store
   * calls being exactly those of `_process_queue`, whose exception `_loop` only logs.
   */
  method LoopStep(next: Value, cancelledBefore: bool, a: Answers, settings: Settings)
    returns (calls: seq<StoreCall>, processed: bool)
    requires Fits(next, a)
    ensures !PySem.Truthy(next) ==> calls == [] && !processed
    ensures PySem.Truthy(next) && cancelledBefore ==>
      calls == [FinishQueue(GetOrNull(next, "id"), "cancelled", Str("用户取消"))] && !processed
    ensures processed <==> PySem.Truthy(next) && !cancelledBefore
    ensures processed ==> QueueTrace(calls, next, a, settings)
  {
    if !PySem.Truthy(next) {
      return [], false;
    }
    if cancelledBefore {
      return [FinishQueue(GetOrNull(next, "id"), "cancelled", Str("用户取消"))], false;
    }
    var installing, requests, results;
    calls, installing, requests, results := ProcessQueue(next, a, settings);
    processed := true;
  }
}
