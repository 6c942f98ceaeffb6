/**
 * JSON-shaped values: what the Python backend keeps in its dicts and lists and what the browser
 * client receives from JSON.parse. An object is a sequence of (key, value) members kept in
 * insertion order, as both Python dicts and JS objects preserve it. Numbers are integers:
 * floating point is not modelled.
 */
module Json {
  import opened Wrappers

  datatype Value =
    | Null
    | Bool(b: bool)
    | Num(n: int)
    | Str(s: string)
    | Arr(items: seq<Value>)
    | Obj(members: seq<(string, Value)>)

  /** Keys of an object's members, in order. */
  function Keys(ms: seq<(string, Value)>): (ks: seq<string>)
    ensures |ks| == |ms|
    ensures forall i :: 0 <= i < |ms| ==> ks[i] == ms[i].0
  {
    if ms == [] then [] else [ms[0].0] + Keys(ms[1..])
  }

  /** An object whose keys are pairwise distinct, as every Python dict and parsed JS object is. */
  predicate UniqueKeys(ms: seq<(string, Value)>) {
    forall i, j :: 0 <= i < j < |ms| ==> ms[i].0 != ms[j].0
  }

  /** Lookup of a member (`d.get(k)` / `o[k]`): the first member with that key. */
  function Lookup(ms: seq<(string, Value)>, k: string): (r: Option<Value>)
    ensures r.Some? <==> k in Keys(ms)
    ensures r.Some? ==> exists i :: 0 <= i < |ms| && ms[i] == (k, r.value)
  {
    if ms == [] then None
    else if ms[0].0 == k then Some(ms[0].1)
    else Lookup(ms[1..], k)
  }

  /** In an object with distinct keys, each member is what its key looks up. */
  lemma {:induction false} LookupAt(ms: seq<(string, Value)>, i: nat)
    requires UniqueKeys(ms) && i < |ms|
    ensures Lookup(ms, ms[i].0) == Some(ms[i].1)
  {
    if i > 0 {
      assert ms[0].0 != ms[i].0;
      assert ms[1..][i - 1] == ms[i];
      LookupAt(ms[1..], i - 1);
    }
  }

  /** `v.get(k)` on a value; anything that is not an object has no members. */
  function Get(v: Value, k: string): Option<Value> {
    if v.Obj? then Lookup(v.members, k) else None
  }

  /** Python's `d.get(k)`: a missing key reads as None. */
  function GetOrNull(v: Value, k: string): Value {
    Get(v, k).GetOr(Null)
  }

  /** Assignment `d[k] = v`: overwrite in place when present, otherwise append at the end. */
  function Put(ms: seq<(string, Value)>, k: string, v: Value): (r: seq<(string, Value)>)
    ensures Lookup(r, k) == Some(v)
    ensures k !in Keys(ms) ==> r == ms + [(k, v)]
  {
    if ms == [] then [(k, v)]
    else if ms[0].0 == k then [(k, v)] + ms[1..]
    else [ms[0]] + Put(ms[1..], k, v)
  }

  /** A key the members lack, appended last, reads as its value. */
  lemma LookupLast(ms: seq<(string, Value)>, k: string, v: Value)
    requires k !in Keys(ms)
    ensures Lookup(ms + [(k, v)], k) == Some(v)
  {
    assert Put(ms, k, v) == ms + [(k, v)];
  }

  /** `d[k] = v` leaves every other key as it was. */
  lemma {:induction false} PutOther(ms: seq<(string, Value)>, k: string, v: Value, k': string)
    requires k' != k
    ensures Lookup(Put(ms, k, v), k') == Lookup(ms, k')
  {
    if ms != [] && ms[0].0 != k {
      PutOther(ms[1..], k, v, k');
    }
  }

  /** `d[k] = v` keeps the keys distinct. */
  lemma {:induction false} PutUnique(ms: seq<(string, Value)>, k: string, v: Value)
    requires UniqueKeys(ms)
    ensures UniqueKeys(Put(ms, k, v))
  {
    if ms != [] {
      UnconsUnique(ms);
      if ms[0].0 != k {
        var a := ms[0].0;
        PutUnique(ms[1..], k, v);
        PutOther(ms[1..], k, v, a);
        ConsUnique(ms[0], Put(ms[1..], k, v));
      } else {
        ConsUnique((k, v), ms[1..]);
      }
    }
  }

  /** The tail of an object with distinct keys has distinct keys, none of them the head's. */
  lemma UnconsUnique(ms: seq<(string, Value)>)
    requires ms != [] && UniqueKeys(ms)
    ensures UniqueKeys(ms[1..]) && ms[0].0 !in Keys(ms[1..])
  {
    var t := ms[1..];
    forall i | 0 <= i < |t| ensures Keys(t)[i] != ms[0].0 {
      assert t[i] == ms[i + 1];
    }
  }

  /** A member whose key the rest lacks can be put in front of distinct keys. */
  lemma ConsUnique(m: (string, Value), t: seq<(string, Value)>)
    requires UniqueKeys(t) && m.0 !in Keys(t)
    ensures UniqueKeys([m] + t)
  {
    var r := [m] + t;
    forall i, j | 0 <= i < j < |r| ensures r[i].0 != r[j].0 {
      assert r[j] == t[j - 1];
      if i == 0 {
        assert Keys(t)[j - 1] == t[j - 1].0;
      } else {
        assert r[i] == t[i - 1];
      }
    }
  }

  /** Python's `{**a, **b}`: the members of `a`, overwritten and extended by those of `b`. */
  function Merge(a: seq<(string, Value)>, b: seq<(string, Value)>): (r: seq<(string, Value)>)
    decreases |b|
  {
    if b == [] then a else Merge(Put(a, b[0].0, b[0].1), b[1..])
  }

  /** What a key reads as after a merge: `b`'s value when `b` has the key, else `a`'s. */
  lemma {:induction false} MergeLookup(a: seq<(string, Value)>, b: seq<(string, Value)>, k: string)
    requires UniqueKeys(b)
    ensures Lookup(Merge(a, b), k) == if k in Keys(b) then Lookup(b, k) else Lookup(a, k)
    decreases |b|
  {
    if b != [] {
      var a' := Put(a, b[0].0, b[0].1);
      var b' := b[1..];
      assert UniqueKeys(b');
      MergeLookup(a', b', k);
      assert Keys(b) == [b[0].0] + Keys(b');
      if k != b[0].0 { PutOther(a, b[0].0, b[0].1, k); }
      if k == b[0].0 {
        assert k !in Keys(b') by {
          forall i | 0 <= i < |b'| ensures Keys(b')[i] != k {
            assert b'[i] == b[i + 1];
          }
        }
      }
    }
  }

  /** `{**a, **b}` after `b[k] = v`: `k` reads as `v`, other keys of `b` win over those of `a`. */
  lemma MergePutLookup(a: seq<(string, Value)>, b: seq<(string, Value)>, k: string, v: Value, q: string)
    requires UniqueKeys(b)
    ensures Lookup(Merge(a, Put(b, k, v)), q)
      == if q == k then Some(v) else if q in Keys(b) then Lookup(b, q) else Lookup(a, q)
  {
    PutUnique(b, k, v);
    MergeLookup(a, Put(b, k, v), q);
    if q != k {
      PutOther(b, k, v, q);
    }
  }

  /** Decimal text of a natural number. */
  function NatToDecimal(n: nat): (s: string)
    ensures |s| >= 1
    ensures forall i :: 0 <= i < |s| ==> '0' <= s[i] <= '9'
    decreases n
  {
    if n < 10 then [DigitChar(n)] else NatToDecimal(n / 10) + [DigitChar(n % 10)]
  }

  function DigitChar(d: nat): (c: char)
    requires d < 10
    ensures '0' <= c <= '9' && c as int - '0' as int == d
  {
    (('0' as int) + d) as char
  }

  /** Decimal text of an integer, with a leading '-' for negatives (Python str and JS String agree). */
  function IntToDecimal(n: int): string {
    if n < 0 then "-" + NatToDecimal(-n) else NatToDecimal(n)
  }
}
