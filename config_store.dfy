/**
 * The key/value configuration of db_config.py: the `config` table (`key` the PRIMARY KEY,
 * `value` the JSON text of the setting) laid over defaults taken from the settings. The rows are
 * kept in rowid order, the order `SELECT key, value FROM config` yields them in; `REPLACE`
 * deletes the row of its key and appends a new one.
 */
module ConfigDb {
  import opened Wrappers
  import opened Json
  import opened ServiceModels

  /**
   * A `value` cell: text `json.loads` decodes (held as the value it decodes to, so `json.dumps(v)`
   * is `Encoded(v)`), text it does not decode, or NULL.
   */
  datatype Stored = Encoded(v: Value) | Raw(text: string) | NullCell

  /** `json.loads(v)`, falling back to `v` itself when that raises (None for NULL). */
  function Decode(s: Stored): Value {
    match s
    case Encoded(v) => v
    case Raw(text) => Str(text)
    case NullCell => Null
  }

  function OptText(o: Option<string>): Value {
    if o.Some? then Str(o.value) else Null
  }

  /** The ten keys `get` starts from, in order. */
  const DefaultKeys: seq<string> := ["zabbix_api_base", "zabbix_api_token", "zabbix_api_user", "zabbix_api_password",
                                     "default_template_id", "default_group_id", "zabbix_version", "zabbix_server_host",
                                     "agent_tgz_url", "local_agent_path"]

  /** The dict `get` starts from: the settings' values, and None for `local_agent_path`. */
  function Defaults(s: Settings): (d: seq<(string, Value)>)
    ensures Keys(d) == DefaultKeys
    ensures Lookup(d, "zabbix_api_base") == Some(Str(s.zabbixApiBase))
    ensures Lookup(d, "local_agent_path") == Some(Null)
  {
    var d := [("zabbix_api_base", Str(s.zabbixApiBase)), ("zabbix_api_token", OptText(s.zabbixApiToken)),
              ("zabbix_api_user", OptText(s.zabbixApiUser)), ("zabbix_api_password", OptText(s.zabbixApiPassword)),
              ("default_template_id", OptText(s.defaultTemplateId)), ("default_group_id", OptText(s.defaultGroupId)),
              ("zabbix_version", Str(s.zabbixVersion)), ("zabbix_server_host", Str(s.zabbixServerHost)),
              ("agent_tgz_url", OptText(s.agentTgzUrl)), ("local_agent_path", Null)];
    assert Keys(d) == DefaultKeys;
    assert d == d[..9] + [("local_agent_path", Null)];
    assert Keys(d[..9]) == DefaultKeys[..9];
    LookupLast(d[..9], "local_agent_path", Null);
    d
  }

  /** The PRIMARY KEY: no two rows share a key. */
  predicate UniqueRowKeys(t: seq<(string, Stored)>) {
    forall i, j :: 0 <= i < j < |t| ==> t[i].0 != t[j].0
  }

  /** The rows as `get` reads them, each value decoded. */
  function Decoded(t: seq<(string, Stored)>): (r: seq<(string, Value)>)
    ensures |r| == |t| && forall i :: 0 <= i < |t| ==> r[i] == (t[i].0, Decode(t[i].1))
  {
    seq(|t|, i requires 0 <= i < |t| => (t[i].0, Decode(t[i].1)))
  }

  /** What `get` returns: the defaults with every row, in row order, assigned over them. */
  function Loaded(s: Settings, t: seq<(string, Stored)>): seq<(string, Value)> {
    Merge(Defaults(s), Decoded(t))
  }

  /** The value cell of the row with key `k`, if there is one. */
  function StoredAt(t: seq<(string, Stored)>, k: string): (r: Option<Stored>)
    ensures r.None? <==> forall i :: 0 <= i < |t| ==> t[i].0 != k
    ensures UniqueRowKeys(t) ==> forall i :: 0 <= i < |t| && t[i].0 == k ==> r == Some(t[i].1)
  {
    if t == [] then None
    else
      assert forall i :: 1 <= i < |t| ==> t[i] == t[1..][i - 1];
      if t[0].0 == k then Some(t[0].1) else StoredAt(t[1..], k)
  }

  /** A key reads, in the decoded rows, as its stored value decoded, and is absent when it has no row. */
  lemma DecodedLookup(t: seq<(string, Stored)>, k: string)
    requires UniqueRowKeys(t)
    ensures UniqueKeys(Decoded(t))
    ensures k in Keys(Decoded(t)) <==> StoredAt(t, k).Some?
    ensures StoredAt(t, k).Some? ==> Lookup(Decoded(t), k) == Some(Decode(StoredAt(t, k).value))
  {
    var d := Decoded(t);
    if k in Keys(d) {
      var i :| 0 <= i < |d| && Keys(d)[i] == k;
      LookupAt(d, i);
    } else {
      forall i | 0 <= i < |t| ensures t[i].0 != k {
        assert Keys(d)[i] == t[i].0;
      }
    }
  }

  /**
   * What `get` reports for a key: the decoded stored value when the key has a row (raw text when
   * it does not decode), the default otherwise; so a stored key outside the defaults is present.
   */
  lemma LoadedLookup(s: Settings, t: seq<(string, Stored)>, k: string)
    requires UniqueRowKeys(t)
    ensures StoredAt(t, k).Some? ==> Lookup(Loaded(s, t), k) == Some(Decode(StoredAt(t, k).value))
    ensures StoredAt(t, k).None? ==> Lookup(Loaded(s, t), k) == Lookup(Defaults(s), k)
  {
    DecodedLookup(t, k);
    MergeLookup(Defaults(s), Decoded(t), k);
  }

  /** `get` always reports every one of the ten default keys. */
  lemma DefaultKeysPresent(s: Settings, t: seq<(string, Stored)>, k: string)
    requires UniqueRowKeys(t) && k in DefaultKeys
    ensures Lookup(Loaded(s, t), k).Some?
  {
    LoadedLookup(s, t, k);
    assert k in Keys(Defaults(s));
  }

  /** The rows other than the one of key `k`, in order. */
  function Without(t: seq<(string, Stored)>, k: string): (r: seq<(string, Stored)>)
    ensures forall x :: x in r <==> x in t && x.0 != k
  {
    if t == [] then []
    else
      assert forall x :: x in t <==> x == t[0] || x in t[1..];
      (if t[0].0 != k then [t[0]] else []) + Without(t[1..], k)
  }

  lemma {:induction false} WithoutUnique(t: seq<(string, Stored)>, k: string)
    requires UniqueRowKeys(t)
    ensures UniqueRowKeys(Without(t, k))
    decreases |t|
  {
    if t != [] {
      var rest := Without(t[1..], k);
      WithoutUnique(t[1..], k);
      if t[0].0 != k {
        forall j | 0 <= j < |rest| ensures rest[j].0 != t[0].0 {
          assert rest[j] in t[1..];
          var m :| 0 <= m < |t[1..]| && t[1..][m] == rest[j];
          assert t[m + 1] == rest[j];
        }
        var r := [t[0]] + rest;
        forall i, j | 0 <= i < j < |r| ensures r[i].0 != r[j].0 {
          assert r[j] == rest[j - 1];
          if i > 0 { assert r[i] == rest[i - 1]; }
        }
      }
    }
  }

  /** `REPLACE INTO config(key, value)`: the row of `k`, if any, goes, and a new row for it comes last. */
  function Replace(t: seq<(string, Stored)>, k: string, s: Stored): seq<(string, Stored)> {
    Without(t, k) + [(k, s)]
  }

  /** After `REPLACE`, `k` holds the new value, every other key what it held, and the keys stay distinct. */
  lemma ReplaceStored(t: seq<(string, Stored)>, k: string, s: Stored, q: string)
    requires UniqueRowKeys(t)
    ensures UniqueRowKeys(Replace(t, k, s))
    ensures StoredAt(Replace(t, k, s), q) == if q == k then Some(s) else StoredAt(t, q)
  {
    var w := Without(t, k);
    var r := Replace(t, k, s);
    WithoutUnique(t, k);
    forall i, j | 0 <= i < j < |r| ensures r[i].0 != r[j].0 {
      assert r[i] == w[i];
      if j < |w| {
        assert r[j] == w[j];
      } else {
        assert w[i] in w;
      }
    }
    assert r[|r| - 1] == (k, s);
    if q != k {
      match StoredAt(t, q)
      case Some(x) =>
        var i :| 0 <= i < |t| && t[i].0 == q;
        assert t[i] in t;
        assert t[i] in w;
        var m :| 0 <= m < |w| && w[m] == t[i];
        assert r[m] == t[i];
      case None =>
        forall i | 0 <= i < |r| ensures r[i].0 != q {
          if i < |w| {
            assert r[i] == w[i];
            assert w[i] in w;
          }
        }
    }
  }

  /** `set(data)`'s writes: one `REPLACE` per item of `data`, in order. */
  function SetAll(t: seq<(string, Stored)>, data: seq<(string, Value)>): seq<(string, Stored)>
    decreases |data|
  {
    if data == [] then t else SetAll(Replace(t, data[0].0, Encoded(data[0].1)), data[1..])
  }

  /** After `set(data)`, each key of `data` holds the JSON of its value; other keys are untouched. */
  lemma {:induction false} SetAllStored(t: seq<(string, Stored)>, data: seq<(string, Value)>, q: string)
    requires UniqueRowKeys(t) && UniqueKeys(data)
    ensures UniqueRowKeys(SetAll(t, data))
    ensures StoredAt(SetAll(t, data), q) ==
      if q in Keys(data) then Some(Encoded(Lookup(data, q).value)) else StoredAt(t, q)
    decreases |data|
  {
    if data != [] {
      var k := data[0].0;
      var t' := Replace(t, k, Encoded(data[0].1));
      ReplaceStored(t, k, Encoded(data[0].1), q);
      UnconsUnique(data);
      SetAllStored(t', data[1..], q);
      assert Keys(data) == [k] + Keys(data[1..]);
    }
  }

  /** `get()` after `set(data)`: the keys of `data` read back as their values; every other key as before. */
  lemma SetThenGet(s: Settings, t: seq<(string, Stored)>, data: seq<(string, Value)>, q: string)
    requires UniqueRowKeys(t) && UniqueKeys(data)
    ensures q in Keys(data) ==> Lookup(Loaded(s, SetAll(t, data)), q) == Lookup(data, q)
    ensures q !in Keys(data) ==> Lookup(Loaded(s, SetAll(t, data)), q) == Lookup(Loaded(s, t), q)
  {
    SetAllStored(t, data, q);
    LoadedLookup(s, SetAll(t, data), q);
    LoadedLookup(s, t, q);
  }

  /** One assignment of `get`'s loop. */
  lemma MergeStep(a: seq<(string, Value)>, d: seq<(string, Value)>, i: nat)
    requires i < |d|
    ensures Merge(a, d[i..]) == Merge(Put(a, d[i].0, d[i].1), d[i + 1..])
  {
    assert d[i..][0] == d[i];
    assert d[i..][1..] == d[i + 1..];
  }

  class ConfigStore {
    const defaults: Settings
    var table: seq<(string, Stored)>

    ghost predicate Valid()
      reads this
    {
      UniqueRowKeys(table)
    }

    /** `CREATE TABLE IF NOT EXISTS`: the rows already on disk are kept. */
    constructor (existing: seq<(string, Stored)>, defaults: Settings)
      requires UniqueRowKeys(existing)
      ensures Valid() && table == existing && this.defaults == defaults
    {
      this.defaults := defaults;
      table := existing;
    }

    /** `get()`: the defaults, then each row's decoded value assigned over them. */
    method Get() returns (cfg: seq<(string, Value)>)
      ensures cfg == Loaded(defaults, table)
    {
      var d := Decoded(table);
      cfg := Defaults(defaults);
      assert d[0..] == d;
      for i := 0 to |table|
        invariant Merge(cfg, d[i..]) == Loaded(defaults, table)
      {
        MergeStep(cfg, d, i);
        cfg := Put(cfg, table[i].0, Decode(table[i].1));
      }
      assert d[|table|..] == [];
    }

    /** `set(data)`: every item written with `REPLACE`, then `get()`. */
    method Set(data: seq<(string, Value)>) returns (cfg: seq<(string, Value)>)
      requires Valid() && UniqueKeys(data)
      modifies this
      ensures Valid()
      ensures table == SetAll(old(table), data)
      ensures cfg == Loaded(defaults, table)
    {
      for i := 0 to |data|
        invariant UniqueRowKeys(table)
        invariant SetAll(table, data[i..]) == SetAll(old(table), data)
      {
        assert data[i..][0] == data[i];
        assert data[i..][1..] == data[i + 1..];
        ReplaceStored(table, data[i].0, Encoded(data[i].1), data[i].0);
        table := Replace(table, data[i].0, Encoded(data[i].1));
      }
      cfg := Get();
    }
  }
}
