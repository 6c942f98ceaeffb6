/**
 * Pure pieces shared by both copies of the browser client's batch table: how a row is keyed,
 * the id lists behind the template/group pickers, the result merge and the run payload.
 */
module ClientRows {
  import opened Wrappers
  import opened Json
  import JsSem
  import PySem
  import opened Seqs

  /**
   * `String(row.item_id)`: the key rows are selected, matched and given results by; a row
   * without an `item_id` reads `undefined`.
   */
  function RowKey(row: Value): string {
    match Get(row, "item_id")
    case Some(id) => JsSem.ToString(id)
    case None => "undefined"
  }

  /** `new Set(rows.map(r => String(r.item_id)))`. */
  function RowKeys(rows: seq<Value>): set<string> {
    set i | 0 <= i < |rows| :: RowKey(rows[i])
  }

  lemma RowKeysSnoc(rows: seq<Value>, row: Value)
    ensures RowKeys(rows + [row]) == RowKeys(rows) + {RowKey(row)}
  {
    var rs := rows + [row];
    forall k | k in RowKeys(rs) ensures k in RowKeys(rows) + {RowKey(row)} {
      var i :| 0 <= i < |rs| && RowKey(rs[i]) == k;
      if i < |rows| { assert rs[i] == rows[i]; }
    }
    forall k | k in RowKeys(rows) ensures k in RowKeys(rs) {
      var i :| 0 <= i < |rows| && RowKey(rows[i]) == k;
      assert rs[i] == rows[i];
    }
    assert RowKey(rs[|rows|]) == RowKey(row);
  }

  lemma RowKeysPrefix(rows: seq<Value>, i: nat)
    requires i < |rows|
    ensures RowKeys(rows[..i + 1]) == RowKeys(rows[..i]) + {RowKey(rows[i])}
  {
    assert rows[..i + 1] == rows[..i] + [rows[i]];
    RowKeysSnoc(rows[..i], rows[i]);
  }

  /**
   * A checkbox toggle of an id list (`onToggleTpl`, `onToggleGrp`) and, with the same effect, a JS
   * `Set` add/delete kept in insertion order (the picker's set): checking appends the id unless
   * it is already there, unchecking removes it.
   */
  function Toggled(ids: seq<string>, v: string, checked: bool): (r: seq<string>)
    ensures v in r <==> checked
    ensures forall x :: x != v ==> (x in r <==> x in ids)
    ensures NoDup(ids) ==> NoDup(r)
    ensures checked ==> ids <= r && |r| <= |ids| + 1
    ensures !checked ==> r == Without(ids, v)
  {
    if checked then Insert(ids, v) else Without(ids, v)
  }

  /** Checking an already-checked id, or unchecking an absent one, changes nothing. */
  lemma ToggledIdempotent(ids: seq<string>, v: string, checked: bool)
    ensures Toggled(Toggled(ids, v, checked), v, checked) == Toggled(ids, v, checked)
  {
  }

  /** `Set.has(id) ? delete(id) : add(id)` (`toggleBatchSelect`). */
  function ToggleSet(s: set<string>, id: string): (r: set<string>)
    ensures id in r <==> id !in s
    ensures r - {id} == s - {id}
  {
    if id in s then s - {id} else s + {id}
  }

  /** Toggling the same id twice restores the selection. */
  lemma ToggleSetInvolution(s: set<string>, id: string)
    ensures ToggleSet(ToggleSet(s, id), id) == s
  {
  }

  /**
   * `(list || [])` walked with `forEach`, each id passed through `String(id)`. A falsy value gives
   * no ids; a truthy value that is not an array has no `forEach`, so the call throws (None).
   */
  function IdsOf(v: Value): (r: Option<seq<string>>)
    ensures r.None? <==> JsSem.Truthy(v) && !v.Arr?
    ensures v.Arr? ==>
              r.Some? && |r.value| == |v.items| &&
              forall i :: 0 <= i < |v.items| ==> r.value[i] == JsSem.ToString(v.items[i])
    ensures !JsSem.Truthy(v) ==> r == Some([])
  {
    if v.Arr? then Some(seq(|v.items|, i requires 0 <= i < |v.items| => JsSem.ToString(v.items[i])))
    else if JsSem.Truthy(v) then None
    else Some([])
  }

  /**
   * `data.hosts || []` (and `data?.results || []`) as the `.map` or `.forEach` that follows sees
   * it: a list is taken as is, a missing or falsy value reads as empty, and any other value has
   * no such method, so the call throws (None).
   */
  function ListField(data: Value, key: string): (r: Option<seq<Value>>)
    ensures r.None? <==> JsSem.Truthy(GetOrNull(data, key)) && !GetOrNull(data, key).Arr?
    ensures GetOrNull(data, key).Arr? ==> r == Some(GetOrNull(data, key).items)
    ensures !JsSem.Truthy(GetOrNull(data, key)) ==> r == Some([])
  {
    var v := GetOrNull(data, key);
    if v.Arr? then Some(v.items)
    else if JsSem.Truthy(v) then None
    else Some([])
  }

  /** `rs.forEach(r => { results[String(r.item_id)] = r; })`, one row after another. */
  function MergeResults(m: map<string, Value>, rs: seq<Value>): map<string, Value>
  {
    if rs == [] then m else MergeResults(m, rs[..|rs| - 1])[RowKey(rs[|rs| - 1]) := rs[|rs| - 1]]
  }

  /** After the merge, a key some returned row carries holds the LAST such row. */
  lemma {:induction false} MergeResultsHit(m: map<string, Value>, rs: seq<Value>, j: nat)
    requires j < |rs| && forall l :: j < l < |rs| ==> RowKey(rs[l]) != RowKey(rs[j])
    ensures RowKey(rs[j]) in MergeResults(m, rs) && MergeResults(m, rs)[RowKey(rs[j])] == rs[j]
  {
    var init := rs[..|rs| - 1];
    if j < |rs| - 1 {
      assert init[j] == rs[j];
      forall l | j < l < |init| ensures RowKey(init[l]) != RowKey(init[j]) {
        assert init[l] == rs[l];
      }
      MergeResultsHit(m, init, j);
    }
  }

  /** A key no returned row carries keeps its old entry, or stays absent. */
  lemma {:induction false} MergeResultsMiss(m: map<string, Value>, rs: seq<Value>, k: string)
    requires forall i :: 0 <= i < |rs| ==> RowKey(rs[i]) != k
    ensures k in MergeResults(m, rs) <==> k in m
    ensures k in m ==> MergeResults(m, rs)[k] == m[k]
  {
    if rs != [] {
      var init := rs[..|rs| - 1];
      forall i | 0 <= i < |init| ensures RowKey(init[i]) != k {
        assert init[i] == rs[i];
      }
      MergeResultsMiss(m, init, k);
    }
  }

  /** The merge never drops an entry. */
  lemma {:induction false} MergeResultsKeys(m: map<string, Value>, rs: seq<Value>)
    ensures MergeResults(m, rs).Keys == m.Keys + RowKeys(rs)
  {
    if rs != [] {
      var init := rs[..|rs| - 1];
      MergeResultsKeys(m, init);
      RowKeysPrefix(rs, |rs| - 1);
      assert rs[..|rs|] == rs;
    }
  }

  /** `parseInt(text)`: leading JS whitespace, an optional sign, then the longest run of digits. */
  function JsParseInt(text: string): (r: Option<int>)
    ensures r.Some? <==> LeadingDigits(SignlessBody(TrimStart(text))) != []
  {
    var t := TrimStart(text);
    var digits := LeadingDigits(SignlessBody(t));
    if digits == [] then None
    else
      var m: int := PySem.DigitsValue(digits);
      Some(if t != [] && t[0] == '-' then -m else m)
  }

  function TrimStart(s: string): (r: string)
    ensures r <= s || (|r| <= |s| && r == s[|s| - |r|..])
    ensures r != [] ==> !JsSem.IsSpace(r[0])
  {
    if s != [] && JsSem.IsSpace(s[0]) then TrimStart(s[1..]) else s
  }

  function SignlessBody(t: string): string {
    if t != [] && (t[0] == '-' || t[0] == '+') then t[1..] else t
  }

  function LeadingDigits(s: string): (r: string)
    ensures r <= s
    ensures forall i :: 0 <= i < |r| ==> PySem.IsDigit(r[i])
    ensures |r| < |s| ==> !PySem.IsDigit(s[|r|])
  {
    if s != [] && PySem.IsDigit(s[0]) then [s[0]] + LeadingDigits(s[1..]) else []
  }

  /** `parseInt(String(n))` gives back `n`. */
  lemma JsParseIntOfDecimal(n: nat)
    ensures JsParseInt(NatToDecimal(n)) == Some(n)
  {
    var s := NatToDecimal(n);
    assert PySem.IsDigit(s[0]);
    assert TrimStart(s) == s;
    assert SignlessBody(s) == s;
    assert LeadingDigits(s) == s;
    PySem.DigitsOfDecimal(n);
  }

  /** `parseInt(getVal('jmx_port') || 10052)`, sent through `JSON.stringify` (NaN becomes null). */
  function JmxPortField(text: string): (r: Value)
    ensures text == "" ==> r == Num(10052)
    ensures text != "" ==> (r.Null? <==> JsParseInt(text).None?)
  {
    if text == "" then Num(10052)
    else match JsParseInt(text) case Some(n) => Num(n) case None => Null
  }

  function StrItems(ids: seq<string>): (r: Value)
    ensures r.Arr? && |r.items| == |ids|
    ensures forall i :: 0 <= i < |ids| ==> r.items[i] == Str(ids[i])
  {
    Arr(seq(|ids|, i requires 0 <= i < |ids| => Str(ids[i])))
  }

  /**
   * The body `runBatch` posts to /api/zabbix/batch/run: register_server is false exactly when the
   * install mode is `agent_only`, and an empty web URL is sent as null.
   */
  function RunPayload(batchId: Value, ids: seq<string>, action: string, tplIds: seq<string>,
                      grpIds: seq<string>, proxyId: Value, webUrl: string, jmxText: string,
                      mode: string, precheck: bool): (r: Value)
    ensures r.Obj? && UniqueKeys(r.members)
    ensures Get(r, "batch_id") == Some(batchId)
    ensures Get(r, "host_ids") == Some(StrItems(ids))
    ensures Get(r, "register_server") == Some(Bool(mode != "agent_only"))
    ensures Get(r, "web_monitor_url") == Some(if webUrl == "" then Null else Str(webUrl))
  {
    var ms := [("batch_id", batchId), ("host_ids", StrItems(ids)), ("action", Str(action)),
               ("template_ids", StrItems(tplIds)), ("group_ids", StrItems(grpIds)),
               ("proxy_id", proxyId), ("web_monitor_url", if webUrl == "" then Null else Str(webUrl)),
               ("jmx_port", JmxPortField(jmxText)), ("register_server", Bool(mode != "agent_only")),
               ("precheck", Bool(precheck))];
    assert UniqueKeys(ms);
    LookupAt(ms, 0);
    LookupAt(ms, 1);
    LookupAt(ms, 6);
    LookupAt(ms, 8);
    Obj(ms)
  }

  /** `payload` is a run payload for some enumeration of the selection (`Array.from(selection)`). */
  ghost predicate IsRunPayload(payload: Value, batchId: Value, selection: set<string>, action: string,
                               tplIds: seq<string>, grpIds: seq<string>, proxyId: Value, webUrl: string,
                               jmxText: string, mode: string, precheck: bool)
  {
    exists ids :: NoDup(ids) && (forall x :: x in ids <==> x in selection) &&
      payload == RunPayload(batchId, ids, action, tplIds, grpIds, proxyId, webUrl, jmxText, mode, precheck)
  }

  /** The payload built from any duplicate-free enumeration of the selection is a run payload. */
  lemma RunPayloadOf(ids: seq<string>, batchId: Value, selection: set<string>, action: string,
                     tplIds: seq<string>, grpIds: seq<string>, proxyId: Value, webUrl: string,
                     jmxText: string, mode: string, precheck: bool)
    requires NoDup(ids) && forall x :: x in ids <==> x in selection
    ensures IsRunPayload(RunPayload(batchId, ids, action, tplIds, grpIds, proxyId, webUrl, jmxText, mode, precheck),
                         batchId, selection, action, tplIds, grpIds, proxyId, webUrl, jmxText, mode, precheck)
  {
  }

  /** `rows.find(r => String(r.item_id) === key)`: the index of the first row with that key. */
  function FindRow(rows: seq<Value>, key: string): (r: Option<nat>)
    ensures r.Some? ==> r.value < |rows| && RowKey(rows[r.value]) == key &&
                        forall j :: 0 <= j < r.value ==> RowKey(rows[j]) != key
    ensures r.None? <==> key !in RowKeys(rows)
  {
    if rows == [] then None
    else if RowKey(rows[0]) == key then Some(0)
    else match FindRow(rows[1..], key)
      case None =>
        RowKeysCons(rows);
        None
      case Some(i) =>
        FindRowShift(rows, key, i);
        Some(i + 1)
  }

  lemma RowKeysCons(rows: seq<Value>)
    requires rows != []
    ensures RowKeys(rows) == {RowKey(rows[0])} + RowKeys(rows[1..])
  {
    var t := rows[1..];
    forall k | k in RowKeys(rows) ensures k in {RowKey(rows[0])} + RowKeys(t) {
      var i :| 0 <= i < |rows| && RowKey(rows[i]) == k;
      if i > 0 { assert rows[i] == t[i - 1]; }
    }
    forall k | k in RowKeys(t) ensures k in RowKeys(rows) {
      var i :| 0 <= i < |t| && RowKey(t[i]) == k;
      assert t[i] == rows[i + 1];
    }
  }

  lemma FindRowShift(rows: seq<Value>, key: string, i: nat)
    requires rows != [] && RowKey(rows[0]) != key && i < |rows| - 1
    requires RowKey(rows[1..][i]) == key && forall j :: 0 <= j < i ==> RowKey(rows[1..][j]) != key
    ensures RowKey(rows[i + 1]) == key && forall j :: 0 <= j < i + 1 ==> RowKey(rows[j]) != key
  {
    assert forall j :: 0 <= j < |rows| - 1 ==> rows[1..][j] == rows[j + 1];
  }

  /** `row[field] = value` on a row object (assignment to a non-object is lost). */
  function SetField(row: Value, field: string, value: Value): Value {
    if row.Obj? then Obj(Put(row.members, field, value)) else row
  }

  /** The edited field reads back as the new value and every other field is as it was. */
  lemma SetFieldSpec(row: Value, field: string, value: Value, other: string)
    requires row.Obj? && other != field
    ensures Get(SetField(row, field, value), field) == Some(value)
    ensures Get(SetField(row, field, value), other) == Get(row, other)
  {
    PutOther(row.members, field, value, other);
  }

  /** `rows.filter(r => !ids.includes(String(r.item_id)))`. */
  function KeepUnselected(rows: seq<Value>, ids: set<string>): (r: seq<Value>)
    ensures |r| <= |rows|
    ensures forall x :: x in r <==> x in rows && RowKey(x) !in ids
  {
    if rows == [] then []
    else if RowKey(rows[0]) in ids then KeepUnselected(rows[1..], ids)
    else [rows[0]] + KeepUnselected(rows[1..], ids)
  }

  /** The filter keeps the surviving rows in their original order. */
  lemma {:induction false} KeepUnselectedAppend(a: seq<Value>, b: seq<Value>, ids: set<string>)
    ensures KeepUnselected(a + b, ids) == KeepUnselected(a, ids) + KeepUnselected(b, ids)
  {
    if a == [] {
      assert a + b == b;
    } else {
      assert (a + b)[1..] == a[1..] + b;
      KeepUnselectedAppend(a[1..], b, ids);
    }
  }
}
