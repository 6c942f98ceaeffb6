/**
 * Sanitising the parameters of a Zabbix API call before they are logged (service.py
 * `_safe_log_payload`): the values of credential keys are replaced by "***" at any depth of
 * nested dicts and lists, and the printed text is cut at 500 characters.
 */
module SafeLog {
  import opened Json
  import PySem

  /** The keys whose values are never logged, compared in lower case. */
  predicate Secret(k: string) {
    var l := PySem.Lower(k);
    l == "password" || l == "pass" || l == "auth" || l == "user" || l == "zabbix_api_password"
  }

  const Masked := Str("***")

  /** `mask(obj)`: dicts and lists are rebuilt with secrets masked; anything else is kept. */
  function Mask(v: Value): (r: Value)
    ensures v.Obj? <==> r.Obj?
    ensures v.Arr? <==> r.Arr?
    ensures !v.Obj? && !v.Arr? ==> r == v
    decreases v, 1
  {
    match v
    case Obj(ms) => Obj(MaskMembers(ms))
    case Arr(items) => Arr(MaskItems(items))
    case _ => v
  }

  function MaskMembers(ms: seq<(string, Value)>): (r: seq<(string, Value)>)
    ensures Keys(r) == Keys(ms)
    decreases ms, 0
  {
    if ms == [] then []
    else
      assert ms[0] in ms;
      assert ms[0].1 < ms[0];
      var k := ms[0].0;
      [(k, if Secret(k) then Masked else Mask(ms[0].1))] + MaskMembers(ms[1..])
  }

  function MaskItems(items: seq<Value>): (r: seq<Value>)
    ensures |r| == |items|
    decreases items, 0
  {
    if items == [] then [] else [Mask(items[0])] + MaskItems(items[1..])
  }

  /** Every credential key, at any depth, holds "***". */
  predicate NoSecrets(v: Value)
    decreases v
  {
    match v
    case Obj(ms) => forall i :: 0 <= i < |ms| ==> MemberSafe(ms, i)
    case Arr(items) => forall i :: 0 <= i < |items| ==> ItemSafe(items, i)
    case _ => true
  }

  predicate MemberSafe(ms: seq<(string, Value)>, i: nat)
    requires i < |ms|
    decreases ms, 0
  {
    assert ms[i] in ms;
    assert ms[i].1 < ms[i];
    (Secret(ms[i].0) ==> ms[i].1 == Masked) && NoSecrets(ms[i].1)
  }

  predicate ItemSafe(items: seq<Value>, i: nat)
    requires i < |items|
    decreases items, 0
  {
    assert items[i] in items;
    NoSecrets(items[i])
  }

  /** The masked value has no credential left anywhere. */
  lemma {:induction false} MaskNoSecrets(v: Value)
    ensures NoSecrets(Mask(v))
    decreases v, 1
  {
    match v
    case Obj(ms) => MembersNoSecrets(ms);
    case Arr(items) => ItemsNoSecrets(items);
    case _ =>
  }

  lemma {:induction false} MembersNoSecrets(ms: seq<(string, Value)>)
    ensures forall i :: 0 <= i < |ms| ==> MemberSafe(MaskMembers(ms), i)
    decreases ms, 0
  {
    if ms != [] {
      assert ms[0] in ms;
      assert ms[0].1 < ms[0];
      MembersNoSecrets(ms[1..]);
      var r := MaskMembers(ms);
      if !Secret(ms[0].0) { MaskNoSecrets(ms[0].1); }
      assert MemberSafe(r, 0);
      forall i | 1 <= i < |ms| ensures MemberSafe(r, i) {
        assert r[i] == MaskMembers(ms[1..])[i - 1];
        assert MemberSafe(MaskMembers(ms[1..]), i - 1);
      }
    }
  }

  lemma {:induction false} ItemsNoSecrets(items: seq<Value>)
    ensures forall i :: 0 <= i < |items| ==> ItemSafe(MaskItems(items), i)
    decreases items, 0
  {
    if items != [] {
      MaskNoSecrets(items[0]);
      ItemsNoSecrets(items[1..]);
      var r := MaskItems(items);
      assert ItemSafe(r, 0);
      forall i | 1 <= i < |items| ensures ItemSafe(r, i) {
        assert r[i] == MaskItems(items[1..])[i - 1];
        assert ItemSafe(MaskItems(items[1..]), i - 1);
      }
    }
  }

  /** Masking twice is masking once. */
  lemma {:induction false} MaskIdempotent(v: Value)
    ensures Mask(Mask(v)) == Mask(v)
    decreases v, 1
  {
    match v
    case Obj(ms) => MembersIdempotent(ms);
    case Arr(items) => ItemsIdempotent(items);
    case _ =>
  }

  lemma {:induction false} MembersIdempotent(ms: seq<(string, Value)>)
    ensures MaskMembers(MaskMembers(ms)) == MaskMembers(ms)
    decreases ms, 0
  {
    if ms != [] {
      assert ms[0] in ms;
      assert ms[0].1 < ms[0];
      if !Secret(ms[0].0) { MaskIdempotent(ms[0].1); }
      MembersIdempotent(ms[1..]);
      assert MaskMembers(ms)[1..] == MaskMembers(ms[1..]);
    }
  }

  lemma {:induction false} ItemsIdempotent(items: seq<Value>)
    ensures MaskItems(MaskItems(items)) == MaskItems(items)
    decreases items, 0
  {
    if items != [] {
      MaskIdempotent(items[0]);
      ItemsIdempotent(items[1..]);
      assert MaskItems(items)[1..] == MaskItems(items[1..]);
    }
  }

  /** `_safe_log_payload(params)`: `str()` of the masked value, cut to 500 characters plus "...". */
  function SafeLogPayload(params: Value): (r: string)
    ensures |r| <= 503
    ensures var text := PySem.ToStr(Mask(params));
      (|text| < 500 ==> r == text) && (|text| >= 500 ==> r == text[..500] + "..." && r[..500] <= text)
  {
    var text := PySem.ToStr(Mask(params));
    if |text| < 500 then text else text[..500] + "..."
  }
}
