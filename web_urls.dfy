/**
 * Web-monitor URL normalisation: `_normalize_urls` inside the batch worker's `run_host`
 * (tasks/batch_worker.py) and `ZabbixService._iter_web_urls` (service.py). A text value is cut at
 * newlines, commas and semicolons; each piece is stripped and empty pieces are dropped.
 */
module WebUrls {
  import opened Json
  import PySem
  import opened Seqs

  /** A URL as the splitting produces it: non-empty, stripped, free of the three separators. */
  predicate Clean(u: string) {
    u != [] && PySem.Stripped(u) && Free(u)
  }

  /** Text without any of the three separators. */
  predicate Free(u: string) {
    ';' !in u && ',' !in u && '\n' !in u
  }

  /** Stripping adds no character, so it keeps a piece free of separators. */
  lemma StripFree(p: string)
    ensures Free(p) ==> Free(PySem.Strip(p))
  {
  }

  /** `[p.strip() for p in parts if p.strip()]`. */
  function StripPieces(parts: seq<string>): (r: seq<string>)
    ensures |r| <= |parts|
  {
    if parts == [] then []
    else
      var p := PySem.Strip(parts[0]);
      if p != [] then [p] + StripPieces(parts[1..]) else StripPieces(parts[1..])
  }

  /** Pieces free of the separators strip to clean URLs. */
  lemma {:induction false} StripPiecesFree(parts: seq<string>)
    requires forall i :: 0 <= i < |parts| ==> Free(parts[i])
    ensures forall i :: 0 <= i < |StripPieces(parts)| ==> Clean(StripPieces(parts)[i])
    decreases |parts|
  {
    if parts != [] {
      assert forall i :: 0 <= i < |parts[1..]| ==> parts[1..][i] == parts[i + 1];
      StripPiecesFree(parts[1..]);
      var p, rest := PySem.Strip(parts[0]), StripPieces(parts[1..]);
      StripFree(parts[0]);
      if p != [] {
        assert Clean(p);
        assert StripPieces(parts) == [p] + rest;
        forall i | 0 < i < |[p] + rest| ensures Clean(([p] + rest)[i]) {
          assert ([p] + rest)[i] == rest[i - 1];
        }
      } else {
        assert StripPieces(parts) == rest;
      }
    }
  }

  /** `val.replace("\n", ";").replace(",", ";")`. */
  function Unify(s: string): (r: string)
    ensures ',' !in r && '\n' !in r
    ensures ',' !in s && '\n' !in s ==> r == s
  {
    PySem.ReplaceChar(PySem.ReplaceChar(s, '\n', ';'), ',', ';')
  }

  /** `Unify(val).split(";")`, stripped, empties dropped. */
  function SplitUrlText(s: string): (r: seq<string>)
    ensures forall i :: 0 <= i < |r| ==> Clean(r[i])
  {
    var parts := PySem.Split(Unify(s), ';');
    SplitPiecesFree(Unify(s));
    StripPiecesFree(parts);
    StripPieces(parts)
  }

  /** The pieces of a separator-free text split at ";" are free of all three separators. */
  lemma SplitPiecesFree(s: string)
    requires ',' !in s && '\n' !in s
    ensures forall i :: 0 <= i < |PySem.Split(s, ';')| ==> Free(PySem.Split(s, ';')[i])
  {
    forall i | 0 <= i < |PySem.Split(s, ';')| ensures Free(PySem.Split(s, ';')[i]) {
      PySem.SplitPiecesFrom(s, ';', i);
    }
  }

  lemma StripPiecesClean(us: seq<string>)
    requires forall i :: 0 <= i < |us| ==> Clean(us[i])
    ensures StripPieces(us) == us
  {
    if us != [] {
      PySem.StripIdentity(us[0]);
      StripPiecesClean(us[1..]);
    }
  }

  /** Clean URLs joined by ";" split back into exactly themselves. */
  lemma SplitUrlTextJoin(us: seq<string>)
    requires forall i :: 0 <= i < |us| ==> Clean(us[i])
    ensures SplitUrlText(PySem.Join(us, ";")) == us
  {
    if us == [] {
      assert PySem.Join(us, ";") == "";
    } else {
      UnifyJoinClean(us);
      SplitJoinClean(us);
      StripPiecesClean(us);
    }
  }

  lemma UnifyJoinClean(us: seq<string>)
    requires forall i :: 0 <= i < |us| ==> Clean(us[i])
    ensures Unify(PySem.Join(us, ";")) == PySem.Join(us, ";")
  {
    JoinAvoids(us, ";", ',');
    JoinAvoids(us, ";", '\n');
  }

  lemma SplitJoinClean(us: seq<string>)
    requires us != [] && forall i :: 0 <= i < |us| ==> Clean(us[i])
    ensures PySem.Split(PySem.Join(us, ";"), ';') == us
  {
    PySem.SplitJoin(us, ';');
  }

  /** A character in neither the pieces nor the separator is not in their join. */
  lemma {:induction false} JoinAvoids(us: seq<string>, sep: string, c: char)
    requires c !in sep && forall i :: 0 <= i < |us| ==> c !in us[i]
    ensures c !in PySem.Join(us, sep)
  {
    if |us| > 1 {
      JoinAvoids(us[1..], sep, c);
      assert c !in us[0];
    }
  }

  /** The URLs one list item of `_normalize_urls` contributes: text is split, anything else is `str(x)`. */
  function ItemUrls(x: Value): seq<string> {
    if x.Str? then SplitUrlText(x.s) else [PySem.ToStr(x)]
  }

  function ConcatItems(items: seq<Value>): seq<string> {
    if items == [] then [] else ItemUrls(items[0]) + ConcatItems(items[1..])
  }

  /**
   * `_normalize_urls(val)` of the batch worker: a falsy value gives nothing, text is split, a list
   * contributes item by item, and any other value becomes the single `str(val)`.
   */
  function NormalizeUrls(v: Value): (r: seq<string>)
    ensures !PySem.Truthy(v) ==> r == []
    ensures v.Str? ==> forall i :: 0 <= i < |r| ==> Clean(r[i])
    ensures PySem.Truthy(v) && !v.Str? && !v.Arr? ==> r == [PySem.ToStr(v)]
  {
    if !PySem.Truthy(v) then []
    else if v.Str? then SplitUrlText(v.s)
    else if v.Arr? then ConcatItems(v.items)
    else [PySem.ToStr(v)]
  }

  /** A list of clean text URLs passes through `_normalize_urls` unchanged, item for item. */
  lemma {:induction false} NormalizeCleanList(us: seq<string>, items: seq<Value>)
    requires |items| == |us|
    requires forall i :: 0 <= i < |us| ==> Clean(us[i]) && items[i] == Str(us[i])
    ensures ConcatItems(items) == us
  {
    if us != [] {
      assert PySem.Join([us[0]], ";") == us[0];
      SplitUrlTextJoin([us[0]]);
      assert ItemUrls(items[0]) == [us[0]];
      NormalizeCleanList(us[1..], items[1..]);
    }
  }

  /** Text holding clean URLs joined by ";" normalises back to those URLs. */
  lemma NormalizeJoined(us: seq<string>)
    requires us != [] && forall i :: 0 <= i < |us| ==> Clean(us[i])
    ensures NormalizeUrls(Str(PySem.Join(us, ";"))) == us
  {
    JoinCleanNonEmpty(us);
    NormalizeText(PySem.Join(us, ";"));
    SplitUrlTextJoin(us);
  }

  lemma JoinCleanNonEmpty(us: seq<string>)
    requires us != [] && forall i :: 0 <= i < |us| ==> Clean(us[i])
    ensures PySem.Join(us, ";") != ""
  {
    assert Clean(us[0]);
    JoinNonEmpty(us, ";");
  }

  lemma NormalizeText(text: string)
    requires text != ""
    ensures NormalizeUrls(Str(text)) == SplitUrlText(text)
  {
  }

  lemma {:induction false} JoinNonEmpty(us: seq<string>, sep: string)
    requires us != [] && us[0] != []
    ensures PySem.Join(us, sep) != []
  {
  }

  // ---------------------------------------------------------------- service._iter_web_urls

  /** What `_add(val)` appends to `urls`: nested lists are walked to any depth. */
  function AddUrls(v: Value): seq<string>
    decreases v
  {
    if !PySem.Truthy(v) then []
    else if v.Str? then SplitUrlText(v.s)
    else if v.Arr? then AddItems(v.items)
    else [PySem.ToStr(v)]
  }

  function AddItems(items: seq<Value>): seq<string>
    decreases items
  {
    if items == [] then [] else AddUrls(items[0]) + AddItems(items[1..])
  }

  /** `_add(raw_list); _add(single)`: the URLs before deduplication. */
  function CollectedUrls(rawList: Value, single: Value): seq<string> {
    AddUrls(rawList) + AddUrls(single)
  }

  /** A URL as `_iter_web_urls` hands it on: non-empty and without surrounding spaces. */
  predicate Trimmed(u: string) {
    u != [] && PySem.Stripped(u)
  }

  /**
   * `str(v)` of a truthy value that is neither text nor a list: "True", a decimal number or a
   * dict's `{...}` repr, none of which starts or ends with a space.
   */
  lemma ReprTrimmed(v: Value)
    requires PySem.Truthy(v) && !v.Str? && !v.Arr?
    ensures Trimmed(PySem.ToStr(v))
  {
    match v {
      case Bool(b) =>
        assert PySem.ToStr(v) == "True";
      case Num(n) =>
        var d := NatToDecimal(if n < 0 then -n else n);
        assert !PySem.IsSpace(d[0]) && !PySem.IsSpace(d[|d| - 1]);
        if n < 0 {
          assert PySem.ToStr(v) == "-" + d;
        } else {
          assert PySem.ToStr(v) == d;
        }
      case Obj(ms) =>
        var s := PySem.ToStr(v);
        assert s == "{" + PySem.ReprMembers(ms) + "}";
        assert s[0] == '{' && s[|s| - 1] == '}';
    }
  }

  /** Every URL `_add(val)` appends is non-empty and stripped, at any depth of nesting. */
  lemma {:induction false} AddUrlsTrimmed(v: Value)
    ensures forall i :: 0 <= i < |AddUrls(v)| ==> Trimmed(AddUrls(v)[i])
    decreases v
  {
    if PySem.Truthy(v) {
      if v.Arr? {
        AddItemsTrimmed(v.items);
      } else if !v.Str? {
        ReprTrimmed(v);
      }
    }
  }

  lemma {:induction false} AddItemsTrimmed(items: seq<Value>)
    ensures forall i :: 0 <= i < |AddItems(items)| ==> Trimmed(AddItems(items)[i])
    decreases items
  {
    if items != [] {
      AddUrlsTrimmed(items[0]);
      AddItemsTrimmed(items[1..]);
      var a, b := AddUrls(items[0]), AddItems(items[1..]);
      assert AddItems(items) == a + b;
      forall i | |a| <= i < |a + b| ensures Trimmed((a + b)[i]) {
        assert (a + b)[i] == b[i - |a|];
      }
    }
  }

  /**
   * `_iter_web_urls(req)`: the collected URLs with repeats removed by the `seen` loop, first
   * occurrence kept; each is non-empty and stripped, and none comes twice.
   */
  method IterWebUrls(rawList: Value, single: Value) returns (deduped: seq<string>)
    ensures deduped == Dedupe(CollectedUrls(rawList, single))
    ensures Dedupe(AddUrls(rawList)) <= deduped
    ensures NoDup(deduped)
    ensures forall i :: 0 <= i < |deduped| ==> Trimmed(deduped[i])
  {
    var urls := AddUrls(rawList) + AddUrls(single);
    deduped := DedupeUrls(urls);
    DedupePrefix(AddUrls(rawList), AddUrls(single));
    CollectedTrimmed(rawList, single);
  }

  /** Every collected URL is non-empty and stripped. */
  lemma CollectedTrimmed(rawList: Value, single: Value)
    ensures forall u :: u in CollectedUrls(rawList, single) ==> Trimmed(u)
  {
    AddUrlsTrimmed(rawList);
    AddUrlsTrimmed(single);
    ConcatTrimmed(AddUrls(rawList), AddUrls(single));
  }

  lemma ConcatTrimmed(a: seq<string>, b: seq<string>)
    requires forall i :: 0 <= i < |a| ==> Trimmed(a[i])
    requires forall i :: 0 <= i < |b| ==> Trimmed(b[i])
    ensures forall u :: u in a + b ==> Trimmed(u)
  {
    forall u | u in a + b ensures Trimmed(u) {
      if u in a {
        var i :| 0 <= i < |a| && a[i] == u;
      } else {
        assert u in b;
        var i :| 0 <= i < |b| && b[i] == u;
      }
    }
  }

  /** The `seen`-set loop: keeps each URL the first time it appears. */
  method DedupeUrls(urls: seq<string>) returns (deduped: seq<string>)
    ensures deduped == Dedupe(urls)
  {
    deduped := [];
    var seen: set<string> := {};
    var i := 0;
    while i < |urls|
      invariant 0 <= i <= |urls|
      invariant deduped == Dedupe(urls[..i])
      invariant forall u :: u in seen <==> u in deduped
    {
      assert urls[..i + 1][..i] == urls[..i];
      var u := urls[i];
      if u !in seen {
        seen := seen + {u};
        deduped := deduped + [u];
      }
      i := i + 1;
    }
    assert urls[..|urls|] == urls;
  }
}
