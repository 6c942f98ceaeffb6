/**
 * The install/uninstall log of log_store.py: the `install_logs` table, one row per logged step,
 * in insertion (`id`) order. `get` reads a task's rows back in that order; `list_recent` groups
 * the rows that pass its filters by task and lists the latest tasks first. The clock reading of
 * `add` is passed in.
 */
module Logs {
  import opened Wrappers
  import opened Json
  import opened ServiceModels
  import PySem
  import Sql

  /** A row of `install_logs`; None is SQL NULL. */
  datatype LogRow = LogRow(taskId: string, name: Option<string>, step: string, status: string, message: string,
                           ip: Option<string>, hostname: Option<string>, hostId: Option<string>,
                           zabbixUrl: Option<string>, ts: int)

  /** The columns `list_recent` filters on and reports. */
  datatype Column = Hostname | Ip | HostId | ZabbixUrl

  /** The arguments of `list_recent`. */
  datatype Query = Query(limit: int, hostname: Option<string>, ip: Option<string>, hostId: Option<string>,
                         zabbixUrl: Option<string>)

  function ColumnName(c: Column): string {
    match c
    case Hostname => "hostname"
    case Ip => "ip"
    case HostId => "host_id"
    case ZabbixUrl => "zabbix_url"
  }

  /** The position of a column among the filters. */
  function Rank(c: Column): nat {
    match c
    case Hostname => 0
    case Ip => 1
    case HostId => 2
    case ZabbixUrl => 3
  }

  function ColumnOf(r: LogRow, c: Column): Option<string> {
    match c
    case Hostname => r.hostname
    case Ip => r.ip
    case HostId => r.hostId
    case ZabbixUrl => r.zabbixUrl
  }

  /** The argument of `list_recent` that filters on a column. */
  function ArgOf(q: Query, c: Column): Option<string> {
    match c
    case Hostname => q.hostname
    case Ip => q.ip
    case HostId => q.hostId
    case ZabbixUrl => q.zabbixUrl
  }

  /** A TEXT cell as Python reads it: None or the string. */
  function Cell(o: Option<string>): (v: Value)
    ensures v == Null <==> o.None?
  {
    if o.Some? then Str(o.value) else Null
  }

  // ---------------------------------------------------------------- get

  /** The dict `get` builds from one row. */
  function Entry(r: LogRow): (v: Value)
    ensures Get(v, "task_id") == Some(Str(r.taskId))
    ensures Get(v, "ts") == Some(Num(r.ts))
  {
    var ms := EntryMembers(r);
    LookupAt(ms, 8);
    Obj(ms)
  }

  function EntryMembers(r: LogRow): (ms: seq<(string, Value)>)
    ensures UniqueKeys(ms)
  {
    [("task_id", Str(r.taskId)), ("step", Str(r.step)), ("status", Str(r.status)),
     ("message", Str(r.message)), ("ip", Cell(r.ip)), ("hostname", Cell(r.hostname)),
     ("host_id", Cell(r.hostId)), ("zabbix_url", Cell(r.zabbixUrl)), ("ts", Num(r.ts))]
  }

  /** The other fields of an entry: the row's step, status and message, and its nullable cells as None or text. */
  lemma EntryFields(r: LogRow)
    ensures Get(Entry(r), "step") == Some(Str(r.step)) && Get(Entry(r), "status") == Some(Str(r.status))
    ensures Get(Entry(r), "message") == Some(Str(r.message))
    ensures Get(Entry(r), "ip") == Some(Cell(r.ip)) && Get(Entry(r), "hostname") == Some(Cell(r.hostname))
    ensures Get(Entry(r), "host_id") == Some(Cell(r.hostId)) && Get(Entry(r), "zabbix_url") == Some(Cell(r.zabbixUrl))
  {
    var ms := EntryMembers(r);
    LookupAt(ms, 1); LookupAt(ms, 2); LookupAt(ms, 3); LookupAt(ms, 4);
    LookupAt(ms, 5); LookupAt(ms, 6); LookupAt(ms, 7);
  }

  /** `get(task_id)`: the entries of the rows of that task, in insertion order. */
  function Entries(rows: seq<LogRow>, taskId: string): (r: seq<Value>)
    ensures |r| <= |rows|
  {
    if rows == [] then []
    else (if rows[0].taskId == taskId then [Entry(rows[0])] else []) + Entries(rows[1..], taskId)
  }

  /** Every entry `get` returns is one of the rows of the task asked for. */
  lemma {:induction false} EntriesOfTask(rows: seq<LogRow>, taskId: string)
    ensures forall v :: v in Entries(rows, taskId) ==> exists x :: x in rows && x.taskId == taskId && v == Entry(x)
    ensures forall i :: 0 <= i < |Entries(rows, taskId)| ==> Get(Entries(rows, taskId)[i], "task_id") == Some(Str(taskId))
    decreases |rows|
  {
    if rows != [] {
      EntriesOfTask(rows[1..], taskId);
      var r := Entries(rows, taskId);
      forall v | v in r ensures exists x :: x in rows && x.taskId == taskId && v == Entry(x) {
        if v !in Entries(rows[1..], taskId) {
          assert v == Entry(rows[0]);
        } else {
          var x :| x in rows[1..] && x.taskId == taskId && v == Entry(x);
          assert x in rows;
        }
      }
      forall i | 0 <= i < |r| ensures Get(r[i], "task_id") == Some(Str(taskId)) {
        assert r[i] in r;
      }
    }
  }

  /** Rows written one after another read back one after another: the log of a task only grows. */
  lemma {:induction false} EntriesConcat(a: seq<LogRow>, b: seq<LogRow>, taskId: string)
    ensures Entries(a + b, taskId) == Entries(a, taskId) + Entries(b, taskId)
    decreases |a|
  {
    if a != [] {
      assert (a + b)[0] == a[0];
      assert (a + b)[1..] == a[1..] + b;
      EntriesConcat(a[1..], b, taskId);
    } else {
      assert a + b == b;
    }
  }

  /** A task none of whose rows exist has an empty log. */
  lemma {:induction false} EntriesNone(rows: seq<LogRow>, taskId: string)
    requires forall i :: 0 <= i < |rows| ==> rows[i].taskId != taskId
    ensures Entries(rows, taskId) == []
    decreases |rows|
  {
    if rows != [] {
      forall i | 0 <= i < |rows| - 1 ensures rows[1..][i].taskId != taskId {
        assert rows[1..][i] == rows[i + 1];
      }
      EntriesNone(rows[1..], taskId);
    }
  }

  // ---------------------------------------------------------------- the filters of list_recent

  /** The filter on column `c`, appended when its argument is given (truthy). */
  function AddFilter(fs: seq<(Column, string)>, q: Query, c: Column): seq<(Column, string)> {
    if Given(ArgOf(q, c)) then fs + [(c, ArgOf(q, c).value)] else fs
  }

  /** The filters: each of hostname, ip, host_id and zabbix_url that is given, in that order. */
  function Filters(q: Query): seq<(Column, string)> {
    AddFilter(AddFilter(AddFilter(AddFilter([], q, Hostname), q, Ip), q, HostId), q, ZabbixUrl)
  }

  /** `fs` holds exactly the given filters on the columns ranked below `n`, in column order. */
  ghost predicate FiltersUpTo(fs: seq<(Column, string)>, q: Query, n: nat) {
    && (forall i :: 0 <= i < |fs| ==> Rank(fs[i].0) < n && Given(ArgOf(q, fs[i].0)) && fs[i].1 == ArgOf(q, fs[i].0).value)
    && (forall i, j :: 0 <= i < j < |fs| ==> Rank(fs[i].0) < Rank(fs[j].0))
    && (forall c :: Rank(c) < n && Given(ArgOf(q, c)) ==> exists i :: 0 <= i < |fs| && fs[i].0 == c)
  }

  lemma AddFilterStep(fs: seq<(Column, string)>, q: Query, c: Column)
    requires FiltersUpTo(fs, q, Rank(c))
    ensures FiltersUpTo(AddFilter(fs, q, c), q, Rank(c) + 1)
  {
    var r := AddFilter(fs, q, c);
    assert forall d :: Rank(d) == Rank(c) ==> d == c;
    if Given(ArgOf(q, c)) {
      assert forall i :: 0 <= i < |fs| ==> r[i] == fs[i];
      forall d | Rank(d) < Rank(c) + 1 && Given(ArgOf(q, d)) ensures exists i :: 0 <= i < |r| && r[i].0 == d {
        if d == c {
          assert r[|fs|].0 == d;
        } else {
          var i :| 0 <= i < |fs| && fs[i].0 == d;
          assert r[i] == fs[i];
        }
      }
    }
  }

  /**
   * The filters are exactly the given arguments, each with its value, in the order hostname, ip,
   * host_id, zabbix_url (every column ranks below 4).
   */
  lemma FiltersGiven(q: Query)
    ensures FiltersUpTo(Filters(q), q, 4)
  {
    var a := AddFilter([], q, Hostname);
    AddFilterStep([], q, Hostname);
    var b := AddFilter(a, q, Ip);
    AddFilterStep(a, q, Ip);
    var c := AddFilter(b, q, HostId);
    AddFilterStep(b, q, HostId);
    AddFilterStep(c, q, ZabbixUrl);
  }

  /** `"<column> = ?"`. */
  function Condition(f: (Column, string)): string {
    ColumnName(f.0) + " = ?"
  }

  function Conditions(fs: seq<(Column, string)>): (r: seq<string>)
    ensures |r| == |fs| && forall i :: 0 <= i < |fs| ==> r[i] == Condition(fs[i])
  {
    seq(|fs|, i requires 0 <= i < |fs| => Condition(fs[i]))
  }

  /** The filter values, which fill the placeholders in order. */
  function FilterParams(fs: seq<(Column, string)>): (r: seq<Value>)
    ensures |r| == |fs| && forall i :: 0 <= i < |fs| ==> r[i] == Str(fs[i].1)
  {
    seq(|fs|, i requires 0 <= i < |fs| => Str(fs[i].1))
  }

  /** `("WHERE " + " AND ".join(where)) if where else ""`. */
  function WhereSql(fs: seq<(Column, string)>): string {
    if fs == [] then "" else "WHERE " + PySem.Join(Conditions(fs), " AND ")
  }

  /** The condition and the parameter of the filter on `c` (`where.append(...)`, `params.append(...)`). */
  method PushFilter(where: seq<string>, params: seq<Value>, ghost fs: seq<(Column, string)>, q: Query, c: Column)
    returns (where': seq<string>, params': seq<Value>)
    requires where == Conditions(fs) && params == FilterParams(fs)
    ensures where' == Conditions(AddFilter(fs, q, c)) && params' == FilterParams(AddFilter(fs, q, c))
  {
    where', params' := where, params;
    var arg := ArgOf(q, c);
    if Given(arg) {
      where' := where + [ColumnName(c) + " = ?"];
      params' := params + [Str(arg.value)];
      assert where' == Conditions(fs + [(c, arg.value)]);
      assert params' == FilterParams(fs + [(c, arg.value)]);
    }
  }

  /** The `where` clause and the parameters of `list_recent`, filter by filter; the limit comes last. */
  method BuildQuery(q: Query) returns (whereSql: string, params: seq<Value>)
    ensures whereSql == WhereSql(Filters(q))
    ensures params == FilterParams(Filters(q)) + [Num(q.limit)]
  {
    var where: seq<string> := [];
    params := [];
    where, params := PushFilter(where, params, [], q, Hostname);
    ghost var fs := AddFilter([], q, Hostname);
    where, params := PushFilter(where, params, fs, q, Ip);
    fs := AddFilter(fs, q, Ip);
    where, params := PushFilter(where, params, fs, q, HostId);
    fs := AddFilter(fs, q, HostId);
    where, params := PushFilter(where, params, fs, q, ZabbixUrl);
    fs := AddFilter(fs, q, ZabbixUrl);
    whereSql := if where != [] then "WHERE " + PySem.Join(where, " AND ") else "";
    params := params + [Num(q.limit)];
  }

  /** The clause is empty exactly when no filter argument is given. */
  lemma WhereEmpty(q: Query)
    ensures WhereSql(Filters(q)) == "" <==> forall c :: !Given(ArgOf(q, c))
  {
    FiltersGiven(q);
    var fs := Filters(q);
    if fs != [] {
      assert Given(ArgOf(q, fs[0].0));
      assert |WhereSql(fs)| >= |"WHERE "|;
    }
  }

  /** How often a character occurs in a text. */
  function Count(s: string, c: char): nat {
    if s == [] then 0 else (if s[0] == c then 1 else 0) + Count(s[1..], c)
  }

  lemma {:induction false} CountConcat(a: string, b: string, c: char)
    ensures Count(a + b, c) == Count(a, c) + Count(b, c)
    decreases |a|
  {
    if a != [] {
      assert (a + b)[0] == a[0];
      assert (a + b)[1..] == a[1..] + b;
      CountConcat(a[1..], b, c);
      assert Count(a + b, c) == (if a[0] == c then 1 else 0) + Count(a[1..] + b, c);
    } else {
      assert a + b == b;
    }
  }

  lemma {:induction false} CountAbsent(s: string, c: char)
    requires c !in s
    ensures Count(s, c) == 0
    decreases |s|
  {
    if s != [] {
      assert s[0] != c;
      CountAbsent(s[1..], c);
    }
  }

  /** Each condition holds exactly one placeholder. */
  lemma ConditionCount(f: (Column, string))
    ensures Count(Condition(f), '?') == 1
  {
    CountAbsent(ColumnName(f.0), '?');
    CountAbsent(" = ", '?');
    CountConcat(ColumnName(f.0), " = ", '?');
    CountConcat(ColumnName(f.0) + " = ", "?", '?');
    assert Condition(f) == ColumnName(f.0) + " = " + "?";
  }

  lemma {:induction false} JoinCount(parts: seq<string>, sep: string, c: char)
    requires Count(sep, c) == 0
    requires forall i :: 0 <= i < |parts| ==> Count(parts[i], c) == 1
    ensures Count(PySem.Join(parts, sep), c) == |parts|
    decreases |parts|
  {
    if |parts| > 1 {
      JoinCount(parts[1..], sep, c);
      CountConcat(parts[0], sep, c);
      CountConcat(parts[0] + sep, PySem.Join(parts[1..], sep), c);
    }
  }

  /** The `where` clause has one placeholder per filter parameter, so with the limit's own `?` they line up. */
  lemma PlaceholdersMatch(fs: seq<(Column, string)>)
    ensures Count(WhereSql(fs), '?') == |FilterParams(fs)|
  {
    if fs != [] {
      var cs := Conditions(fs);
      forall i | 0 <= i < |cs| ensures Count(cs[i], '?') == 1 {
        ConditionCount(fs[i]);
      }
      CountAbsent(" AND ", '?');
      JoinCount(cs, " AND ", '?');
      CountAbsent("WHERE ", '?');
      CountConcat("WHERE ", PySem.Join(cs, " AND "), '?');
    }
  }

  // ---------------------------------------------------------------- what SQLite answers

  /** `WHERE`: every filtered column equals its value; a NULL cell equals nothing. */
  predicate Matches(r: LogRow, fs: seq<(Column, string)>) {
    forall i :: 0 <= i < |fs| ==> ColumnOf(r, fs[i].0) == Some(fs[i].1)
  }

  /** The rows that pass the filters, in table order. */
  function Selected(rows: seq<LogRow>, fs: seq<(Column, string)>): (r: seq<LogRow>)
    ensures forall x :: x in r <==> x in rows && Matches(x, fs)
  {
    if rows == [] then []
    else
      assert forall x :: x in rows <==> x == rows[0] || x in rows[1..];
      (if Matches(rows[0], fs) then [rows[0]] else []) + Selected(rows[1..], fs)
  }

  function TaskIds(rows: seq<LogRow>): set<string> {
    set x | x in rows :: x.taskId
  }

  /** `MAX(ts)` over a task's rows: None when the task has none. */
  function MaxTs(rows: seq<LogRow>, t: string): (r: Option<int>)
    ensures r.None? <==> forall i :: 0 <= i < |rows| ==> rows[i].taskId != t
    ensures r.Some? ==> exists i :: 0 <= i < |rows| && rows[i].taskId == t && rows[i].ts == r.value
    ensures r.Some? ==> forall i :: 0 <= i < |rows| && rows[i].taskId == t ==> rows[i].ts <= r.value
    decreases |rows|
  {
    if rows == [] then None
    else
      var rest := MaxTs(rows[1..], t);
      assert forall i :: 1 <= i < |rows| ==> rows[i] == rows[1..][i - 1];
      if rows[0].taskId != t then rest
      else if rest.Some? && rest.value > rows[0].ts then rest
      else Some(rows[0].ts)
  }

  /** The order of SQLite's `MAX` on TEXT: code points compared left to right, a prefix first. */
  predicate TextLe(a: string, b: string)
    decreases |a|
  {
    a == [] || (b != [] && (a[0] < b[0] || (a[0] == b[0] && TextLe(a[1..], b[1..]))))
  }

  lemma {:induction false} TextLeRefl(a: string)
    ensures TextLe(a, a)
    decreases |a|
  {
    if a != [] {
      TextLeRefl(a[1..]);
    }
  }

  lemma {:induction false} TextLeTotal(a: string, b: string)
    ensures TextLe(a, b) || TextLe(b, a)
    decreases |a|
  {
    if a != [] && b != [] && a[0] == b[0] {
      TextLeTotal(a[1..], b[1..]);
    }
  }

  lemma {:induction false} TextLeTrans(a: string, b: string, c: string)
    requires TextLe(a, b) && TextLe(b, c)
    ensures TextLe(a, c)
    decreases |a|
  {
    if a != [] && a[0] == b[0] && b[0] == c[0] {
      TextLeTrans(a[1..], b[1..], c[1..]);
    }
  }

  /** The larger of two cells: NULL loses to any text. */
  function MaxCell(x: Option<string>, y: Option<string>): (r: Option<string>)
    ensures r.None? <==> x.None? && y.None?
    ensures r == x || r == y
    ensures r.Some? && x.Some? ==> TextLe(x.value, r.value)
    ensures r.Some? && y.Some? ==> TextLe(y.value, r.value)
  {
    if x.None? then (if y.Some? then (TextLeRefl(y.value); y) else y)
    else if y.None? then (TextLeRefl(x.value); x)
    else if TextLe(x.value, y.value) then (TextLeRefl(y.value); y)
    else (TextLeTotal(x.value, y.value); TextLeRefl(x.value); x)
  }

  /** `MAX(<column>)` over a task's rows: the greatest non-NULL cell, NULL when every cell is. */
  function MaxText(rows: seq<LogRow>, t: string, c: Column): (r: Option<string>)
    ensures r.None? <==> forall i :: 0 <= i < |rows| && rows[i].taskId == t ==> ColumnOf(rows[i], c).None?
    ensures r.Some? ==> exists i :: 0 <= i < |rows| && rows[i].taskId == t && ColumnOf(rows[i], c) == r
    ensures r.Some? ==> forall i :: 0 <= i < |rows| && rows[i].taskId == t && ColumnOf(rows[i], c).Some? ==>
              TextLe(ColumnOf(rows[i], c).value, r.value)
    decreases |rows|
  {
    if rows == [] then None
    else
      var rest := MaxText(rows[1..], t, c);
      var cell := if rows[0].taskId == t then ColumnOf(rows[0], c) else None;
      var r := MaxCell(cell, rest);
      assert forall i :: 1 <= i < |rows| ==> rows[i] == rows[1..][i - 1];
      assert r.Some? && rest.Some? ==>
        forall i :: 1 <= i < |rows| && rows[i].taskId == t && ColumnOf(rows[i], c).Some? ==>
          TextLe(ColumnOf(rows[i], c).value, r.value) by {
        if r.Some? && rest.Some? {
          forall i | 1 <= i < |rows| && rows[i].taskId == t && ColumnOf(rows[i], c).Some? {
            TextLeTrans(ColumnOf(rows[i], c).value, rest.value, r.value);
          }
        }
      }
      r
  }

  /** The latest timestamp of each task among the given rows: the score of `ORDER BY ts DESC`. */
  function Latest(rows: seq<LogRow>): (m: map<string, int>)
    ensures m.Keys == TaskIds(rows)
    ensures forall t :: t in m ==> MaxTs(rows, t) == Some(m[t])
  {
    map t | t in TaskIds(rows) :: MaxTs(rows, t).value
  }

  /** `MAX(ts)` as Python reads it. */
  function TsCell(o: Option<int>): Value {
    if o.Some? then Num(o.value) else Null
  }

  /** One entry of `list_recent`: the task with the maxima over its rows. */
  function TaskSummary(rows: seq<LogRow>, t: string): (v: Value)
    ensures Get(v, "task_id") == Some(Str(t))
    ensures t in TaskIds(rows) ==> Get(v, "ts") == Some(Num(Latest(rows)[t]))
  {
    var ms := SummaryMembers(rows, t);
    assert ms[0].0 != "ts";
    assert Lookup(ms, "ts") == Lookup(ms[1..], "ts");
    Obj(ms)
  }

  function SummaryMembers(rows: seq<LogRow>, t: string): (ms: seq<(string, Value)>)
    ensures UniqueKeys(ms)
  {
    [("task_id", Str(t)), ("ts", TsCell(MaxTs(rows, t))), ("ip", Cell(MaxText(rows, t, Ip))),
     ("hostname", Cell(MaxText(rows, t, Hostname))), ("host_id", Cell(MaxText(rows, t, HostId))),
     ("zabbix_url", Cell(MaxText(rows, t, ZabbixUrl)))]
  }

  /** The other fields of a summary: the greatest non-NULL cell of each text column, None when every cell is NULL. */
  lemma SummaryFields(rows: seq<LogRow>, t: string)
    ensures Get(TaskSummary(rows, t), "ip") == Some(Cell(MaxText(rows, t, Ip)))
    ensures Get(TaskSummary(rows, t), "hostname") == Some(Cell(MaxText(rows, t, Hostname)))
    ensures Get(TaskSummary(rows, t), "host_id") == Some(Cell(MaxText(rows, t, HostId)))
    ensures Get(TaskSummary(rows, t), "zabbix_url") == Some(Cell(MaxText(rows, t, ZabbixUrl)))
  {
    var ms := SummaryMembers(rows, t);
    LookupAt(ms, 2); LookupAt(ms, 3); LookupAt(ms, 4); LookupAt(ms, 5);
  }

  /**
   * `result` is what the grouped query returns on the rows that pass the filters: the summaries of
   * the tasks of an answer of `ORDER BY ts DESC LIMIT limit` over their latest timestamps, in order.
   */
  ghost predicate RecentAnswer(sel: seq<LogRow>, limit: int, ids: seq<string>, result: seq<Value>) {
    && Sql.IsTop(Latest(sel), ids, limit)
    && |result| == |ids|
    && forall i :: 0 <= i < |ids| ==> result[i] == TaskSummary(sel, ids[i])
  }

  /**
   * An answer of `list_recent` has at most `limit` entries (any number for a negative limit), one
   * per task, with reported times descending.
   */
  lemma RecentOrdered(sel: seq<LogRow>, limit: int, ids: seq<string>, result: seq<Value>, i: nat, j: nat)
    requires RecentAnswer(sel, limit, ids, result)
    requires i < j < |result|
    ensures limit >= 0 ==> |result| <= limit
    ensures Get(result[i], "task_id") != Get(result[j], "task_id")
    ensures Get(result[i], "ts").value.n >= Get(result[j], "ts").value.n
  {
    assert ids[i] in Latest(sel) && ids[j] in Latest(sel);
    assert Latest(sel)[ids[i]] >= Latest(sel)[ids[j]];
  }

  /** Every task `list_recent` lists has a matching row at the time it reports. */
  lemma ListedHasRow(rows: seq<LogRow>, fs: seq<(Column, string)>, t: string)
    requires t in Latest(Selected(rows, fs))
    ensures exists y :: y in rows && Matches(y, fs) && y.taskId == t && y.ts == Latest(Selected(rows, fs))[t]
  {
    var sel := Selected(rows, fs);
    assert MaxTs(sel, t) == Some(Latest(sel)[t]);
    var k :| 0 <= k < |sel| && sel[k].taskId == t && sel[k].ts == Latest(sel)[t];
    assert sel[k] in sel;
  }

  /** A matching row of a task is no later than its task's reported time. */
  lemma RowNotLater(rows: seq<LogRow>, fs: seq<(Column, string)>, x: LogRow)
    requires x in rows && Matches(x, fs)
    ensures x.taskId in Latest(Selected(rows, fs)) && x.ts <= Latest(Selected(rows, fs))[x.taskId]
  {
    var sel := Selected(rows, fs);
    assert x in sel;
    var j :| 0 <= j < |sel| && sel[j] == x;
    assert x.taskId in TaskIds(sel);
    assert MaxTs(sel, x.taskId) == Some(Latest(sel)[x.taskId]);
  }

  /**
   * What `list_recent` leaves out is no more recent than what it lists: a matching row of an
   * unlisted task is no later than the reported time of any listed one.
   */
  lemma UnlistedNotLater(rows: seq<LogRow>, q: Query, ids: seq<string>, x: LogRow, i: nat)
    requires Sql.IsTop(Latest(Selected(rows, Filters(q))), ids, q.limit)
    requires i < |ids| && x in rows && Matches(x, Filters(q)) && x.taskId !in ids
    ensures x.ts <= Latest(Selected(rows, Filters(q)))[ids[i]]
  {
    RowNotLater(rows, Filters(q), x);
  }

  class LogStore {
    var rows: seq<LogRow>

    /** `CREATE TABLE IF NOT EXISTS`: the rows already on disk are kept. */
    constructor (existing: seq<LogRow>)
      ensures rows == existing
    {
      rows := existing;
    }

    /** `add(...)`: one row more at the end of the table, stamped with the given time. */
    method Add(taskId: string, step: string, status: string, message: string, name: Option<string>,
               ip: Option<string>, hostname: Option<string>, hostId: Option<string>, zabbixUrl: Option<string>,
               now: int)
      modifies this
      ensures rows == old(rows) + [LogRow(taskId, name, step, status, message, ip, hostname, hostId, zabbixUrl, now)]
    {
      rows := rows + [LogRow(taskId, name, step, status, message, ip, hostname, hostId, zabbixUrl, now)];
    }

    /** `get(task_id)`. */
    function GetLogs(taskId: string): seq<Value>
      reads this
    {
      Entries(rows, taskId)
    }

    /** `list_recent(...)`: the summaries of an answer of the grouped query, latest task first. */
    method ListRecent(q: Query) returns (result: seq<Value>)
      ensures exists ids :: RecentAnswer(Selected(rows, Filters(q)), q.limit, ids, result)
    {
      var sel := Selected(rows, Filters(q));
      var ids := Sql.SelectTop(Latest(sel), q.limit);
      result := Summaries(sel, ids);
      assert RecentAnswer(sel, q.limit, ids, result);
    }
  }

  /** The result rows of the grouped query, one per task of the answer. */
  method Summaries(sel: seq<LogRow>, ids: seq<string>) returns (result: seq<Value>)
    ensures |result| == |ids| && forall j :: 0 <= j < |ids| ==> result[j] == TaskSummary(sel, ids[j])
  {
    result := [];
    for i := 0 to |ids|
      invariant |result| == i
      invariant forall j :: 0 <= j < i ==> result[j] == TaskSummary(sel, ids[j])
    {
      result := result + [TaskSummary(sel, ids[i])];
    }
  }

  /** `get` after `add`: the task's log gains the new entry at its end; other tasks' logs are unchanged. */
  lemma AddThenGet(rows: seq<LogRow>, row: LogRow, t: string)
    ensures Entries(rows + [row], t) == Entries(rows, t) + (if row.taskId == t then [Entry(row)] else [])
  {
    EntriesConcat(rows, [row], t);
    EntriesSingle(row, t);
  }

  lemma EntriesSingle(row: LogRow, t: string)
    ensures Entries([row], t) == if row.taskId == t then [Entry(row)] else []
  {
    assert [row][1..] == [];
  }
}
