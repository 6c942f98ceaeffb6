/**
 * The uploaded-batch table of batch_store.py: rows keyed by batch id (the PRIMARY KEY that
 * `REPLACE` overwrites) holding a timestamp, a name and the JSON text of `{"hosts": [...]}`.
 * The JSON text is kept as what decoding it yields; ids and clocks are passed in.
 */
module Batches {
  import opened Wrappers
  import opened Json
  import opened ServiceModels
  import Sql

  /** The `data` column: empty, text that does not decode, or the value the text decodes to. */
  datatype Text = Blank | Undecodable | Decoded(v: Value)

  datatype Row = Row(ts: int, name: string, data: Text)

  /** `batch_id or uuid.uuid4().hex`. */
  function SaveId(batchId: Option<string>, freshId: string): string {
    if batchId.Some? && batchId.value != "" then batchId.value else freshId
  }

  /** The row `save` writes: `name or ""` and the JSON text of `{"hosts": hosts}`. */
  function SavedRow(hosts: seq<Value>, name: Option<string>, now: int): Row {
    Row(now, name.GetOr(""), Decoded(Obj([("hosts", Arr(hosts))])))
  }

  /** `json.loads(data) if data else {}`, reading undecodable text as `{}`; None when it is not a dict. */
  function DataDict(t: Text): Option<seq<(string, Value)>> {
    match t
    case Blank => Some([])
    case Undecodable => Some([])
    case Decoded(v) => if v.Obj? then Some(v.members) else None
  }

  /** `data.setdefault(k, d)`. */
  function SetDefault(ms: seq<(string, Value)>, k: string, d: Value): (r: seq<(string, Value)>)
    ensures Lookup(r, k) == Some(Lookup(ms, k).GetOr(d))
    ensures forall q :: q != k ==> Lookup(r, q) == Lookup(ms, q)
  {
    if k in Keys(ms) then ms
    else
      assert forall q :: q != k ==> Lookup(ms + [(k, d)], q) == Lookup(ms, q) by {
        forall q | q != k { PutOther(ms, k, d, q); }
      }
      Put(ms, k, d)
  }

  /**
   * What `get` and `get_by_name` return for a row: its decoded dict with `hosts` defaulted to
   * `[]`, then `batch_id`, `ts` and `name` from the row. A row whose JSON is not a dict makes
   * `setdefault` raise an AttributeError, whose Python text also names the value's type; the
   * model's message leaves the type out.
   */
  function View(id: string, row: Row): (r: Result<Value, Failure>)
    ensures r.Err? <==> DataDict(row.data).None?
    ensures r.Ok? ==> r.value.Obj?
  {
    match DataDict(row.data)
    case None => Err(Error("object has no attribute 'setdefault'"))
    case Some(ms) =>
      Ok(Obj(Put(Put(Put(SetDefault(ms, "hosts", Arr([])), "batch_id", Str(id)), "ts", Num(row.ts)), "name", Str(row.name))))
  }

  /** The fields of a view: the row's id, timestamp and name, its hosts (or `[]`), and any other stored key. */
  lemma ViewFields(id: string, row: Row, q: string)
    requires DataDict(row.data).Some?
    ensures var ms := DataDict(row.data).value;
      Get(View(id, row).value, q) ==
        if q == "name" then Some(Str(row.name))
        else if q == "ts" then Some(Num(row.ts))
        else if q == "batch_id" then Some(Str(id))
        else if q == "hosts" then Some(Lookup(ms, "hosts").GetOr(Arr([])))
        else Lookup(ms, q)
  {
    var ms := DataDict(row.data).value;
    var a := SetDefault(ms, "hosts", Arr([]));
    var b := Put(a, "batch_id", Str(id));
    var c := Put(b, "ts", Num(row.ts));
    if q != "name" {
      PutOther(c, "name", Str(row.name), q);
      if q != "ts" {
        PutOther(b, "ts", Num(row.ts), q);
        if q != "batch_id" {
          PutOther(a, "batch_id", Str(id), q);
        }
      }
    }
  }

  /** A saved batch reads back with its hosts, id, timestamp and name. */
  lemma SavedView(id: string, hosts: seq<Value>, name: Option<string>, now: int, q: string)
    ensures View(id, SavedRow(hosts, name, now)).Ok?
    ensures Get(View(id, SavedRow(hosts, name, now)).value, q) ==
      if q == "name" then Some(Str(name.GetOr("")))
      else if q == "ts" then Some(Num(now))
      else if q == "batch_id" then Some(Str(id))
      else if q == "hosts" then Some(Arr(hosts))
      else None
  {
    var ms := [("hosts", Arr(hosts))];
    assert Lookup(ms, "hosts") == Some(Arr(hosts));
    assert q != "hosts" ==> Lookup(ms, q) == None by {
      if q != "hosts" { assert Lookup(ms[1..], q) == None; }
    }
    ViewFields(id, SavedRow(hosts, name, now), q);
  }

  /** `len(data.get("hosts", []))`, and 0 where the text does not decode or `len` raises. */
  function HostCount(t: Text): nat {
    match t
    case Blank => 0
    case Undecodable => 0
    case Decoded(v) =>
      if !v.Obj? then 0
      else match Lookup(v.members, "hosts")
        case None => 0
        case Some(h) => if h.Arr? then |h.items| else if h.Str? then |h.s| else if h.Obj? then |h.members| else 0
  }

  /** One entry of `list_recent`. */
  function Summary(id: string, row: Row): (r: Value)
    ensures Get(r, "batch_id") == Some(Str(id)) && Get(r, "ts") == Some(Num(row.ts))
    ensures Get(r, "name") == Some(Str(row.name)) && Get(r, "count") == Some(Num(HostCount(row.data)))
  {
    var ms := [("batch_id", Str(id)), ("ts", Num(row.ts)), ("name", Str(row.name)), ("count", Num(HostCount(row.data)))];
    assert UniqueKeys(ms);
    LookupAt(ms, 2);
    LookupAt(ms, 3);
    Obj(ms)
  }

  /** A found row as `get` returns it. */
  function Found(r: Result<Value, Failure>): Result<Option<Value>, Failure> {
    match r
    case Ok(v) => Ok(Some(v))
    case Err(e) => Err(e)
  }

  /** The timestamps of the table, the score `ORDER BY ts DESC` sorts on. */
  function Stamps(table: map<string, Row>): (m: map<string, int>)
    ensures m.Keys == table.Keys && forall id :: id in table ==> m[id] == table[id].ts
  {
    map id | id in table :: table[id].ts
  }

  class BatchStore {
    var table: map<string, Row>

    /** `CREATE TABLE IF NOT EXISTS`: the rows already on disk are kept. */
    constructor (existing: map<string, Row>)
      ensures table == existing
    {
      table := existing;
    }

    /**
     * `save(hosts, name, batch_id)`: the row under `batch_id`, or under a fresh id when none is
     * given, is written over whatever was there; the reply names the id, the time and the count.
     */
    method Save(hosts: seq<Value>, name: Option<string>, batchId: Option<string>, freshId: string, now: int)
      returns (r: Value)
      requires freshId !in table
      modifies this
      ensures table == old(table)[SaveId(batchId, freshId) := SavedRow(hosts, name, now)]
      ensures r == Obj([("batch_id", Str(SaveId(batchId, freshId))), ("ts", Num(now)), ("count", Num(|hosts|))])
      ensures (batchId.None? || batchId == Some("")) ==> |table| == |old(table)| + 1
    {
      var id := SaveId(batchId, freshId);
      table := table[id := SavedRow(hosts, name, now)];
      r := Obj([("batch_id", Str(id)), ("ts", Num(now)), ("count", Num(|hosts|))]);
    }

    /** `get(batch_id)`: None for an unknown id, else the row's view. */
    function GetBatch(id: string): (r: Result<Option<Value>, Failure>)
      reads this
      ensures r == Ok(None) <==> id !in table
      ensures id in table ==> r == Found(View(id, table[id]))
    {
      if id !in table then Ok(None) else Found(View(id, table[id]))
    }

    /** `get_by_name(name)`: the view of some row of exactly that name (SQLite picks which), else None. */
    method GetByName(name: string) returns (r: Result<Option<Value>, Failure>)
      ensures r == Ok(None) <==> forall id :: id in table ==> table[id].name != name
      ensures r != Ok(None) ==> exists id :: id in table && table[id].name == name && r == Found(View(id, table[id]))
    {
      if forall id :: id in table ==> table[id].name != name {
        return Ok(None);
      }
      var id :| id in table && table[id].name == name;
      r := Found(View(id, table[id]));
      assert r != Ok(None);
    }

    /** `list_recent(limit)`: the summaries of an answer of `ORDER BY ts DESC LIMIT limit`, in that order. */
    method ListRecent(limit: int) returns (result: seq<Value>)
      ensures exists ids :: Sql.IsTop(Stamps(table), ids, limit)
                && |result| == |ids| && forall i :: 0 <= i < |ids| ==> result[i] == Summary(ids[i], table[ids[i]])
    {
      var ids := Sql.SelectTop(Stamps(table), limit);
      result := Summaries(table, ids);
    }
  }

  /** The summaries of the rows of the given ids, in order. */
  method Summaries(table: map<string, Row>, ids: seq<string>) returns (result: seq<Value>)
    requires forall i :: 0 <= i < |ids| ==> ids[i] in table
    ensures |result| == |ids| && forall i :: 0 <= i < |ids| ==> result[i] == Summary(ids[i], table[ids[i]])
  {
    result := [];
    for i := 0 to |ids|
      invariant |result| == i
      invariant forall j :: 0 <= j < i ==> result[j] == Summary(ids[j], table[ids[j]])
    {
      result := result + [Summary(ids[i], table[ids[i]])];
    }
  }

  /** An entry of `list_recent` is no larger than the limit asks, and the entries' timestamps descend. */
  lemma RecentShape(table: map<string, Row>, ids: seq<string>, limit: int, i: nat, j: nat)
    requires Sql.IsTop(Stamps(table), ids, limit)
    requires i < j < |ids|
    ensures limit >= 0 ==> |ids| <= limit
    ensures Get(Summary(ids[i], table[ids[i]]), "ts").value.n >= Get(Summary(ids[j], table[ids[j]]), "ts").value.n
  {
    assert Stamps(table)[ids[i]] >= Stamps(table)[ids[j]];
  }
}
