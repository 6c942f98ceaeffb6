/**
 * The browser client's reply classifier `api()` and its HTML escaper `escapeHtml`; both copies
 * of the client (static/js/app.js and static_recover/static/js/app.js) define them identically.
 * The transport itself (`fetch`, `res.text()`, `JSON.parse`) is an input: `Fetched` says what it
 * produced.
 */
module ClientApi {
  import opened Wrappers
  import opened Json
  import JsSem
  import Response

  /** What `res.text()` gave, seen through `JSON.parse`. */
  datatype Body = Unparseable(text: string) | Parsed(json: Value)

  /** The outcome of `fetch`: it threw, or it answered with `res.ok`, `res.statusText` and a body. */
  datatype Fetched =
    | Threw(message: string)
    | Responded(httpOk: bool, statusText: string, body: Body)

  /** `{ok, msg, data}` as returned by `api()`; `undefined` is represented by Null. */
  datatype ApiResult = ApiResult(ok: bool, msg: Value, data: Value)

  /** `typeof json === 'object' && json !== null && 'code' in json` (arrays have no `code` key). */
  predicate HasCode(json: Value) {
    json.Obj? && "code" in Keys(json.members)
  }

  /** `a || b` in JS. */
  function JsOr(a: Value, b: Value): Value {
    if JsSem.Truthy(a) then a else b
  }

  /**
   * The `TypeError` a browser raises for `json.msg` when `json` is `null`, in the wording of V8;
   * other engines word it differently.
   */
  const NullReadError := "Cannot read properties of null (reading 'msg')"

  /**
   * `api(url, opts)`. A failed response whose body is the JSON `null` makes `json.msg` throw;
   * the `catch` then reports it like a failed fetch.
   */
  function Api(f: Fetched): (r: ApiResult)
    ensures f.Threw? ==> !r.ok && r.data == Null
    ensures f.Responded? && f.body.Unparseable? ==> !r.ok && r.data == Str(f.body.text)
    ensures f.Responded? && f.body.Parsed? && HasCode(f.body.json) ==>
              (r.ok <==> JsSem.LooseEqualsZero(GetOrNull(f.body.json, "code")))
              && r.data == GetOrNull(f.body.json, "data")
    ensures f.Responded? && f.body.Parsed? && !HasCode(f.body.json) && (f.httpOk || f.body.json != Null) ==>
              r.ok == f.httpOk && r.data == f.body.json
    ensures f.Responded? && !f.httpOk && f.body == Parsed(Null) ==>
              r == ApiResult(false, Str("网络错误: " + NullReadError), Null)
    ensures JsSem.Truthy(r.msg)
  {
    match f
    case Threw(m) => ApiResult(false, Str("网络错误: " + m), Null)
    case Responded(httpOk, statusText, Unparseable(text)) =>
      ApiResult(false, Str("API 解析失败: " + statusText), Str(text))
    case Responded(httpOk, statusText, Parsed(json)) =>
      if HasCode(json) then
        var code := GetOrNull(json, "code");
        var success := JsSem.LooseEqualsZero(code);
        var fallback := if success then "操作成功" else "操作失败 (Code: " + JsSem.ToString(code) + ")";
        ApiResult(success, JsOr(GetOrNull(json, "msg"), Str(fallback)), GetOrNull(json, "data"))
      else if !httpOk && json == Null then ApiResult(false, Str("网络错误: " + NullReadError), Null)
      else
        var msg := if httpOk then Str("操作成功") else JsOr(GetOrNull(json, "msg"), Str("请求失败"));
        ApiResult(httpOk, msg, json)
  }

  /** A failed response with a `null` body is reported exactly as a fetch that threw the `TypeError`. */
  lemma NullBodyIsNetworkError(statusText: string)
    ensures Api(Responded(false, statusText, Parsed(Null))) == Api(Threw(NullReadError))
  {
  }

  /** Every envelope built by `ok(...)` is classified as success, with its data passed through. */
  lemma OkEnvelopeIsSuccess(httpOk: bool, statusText: string, data: Value, msg: string)
    ensures var r := Api(Responded(httpOk, statusText, Parsed(Response.Ok(data, msg))));
            r.ok && r.data == data
  {
    var env := Response.Ok(data, msg);
    assert HasCode(env);
  }

  /** A default `err()` envelope is failure whatever the HTTP status, and so is any non-zero code. */
  lemma ErrEnvelopeIsFailure(httpOk: bool, statusText: string, code: int, msg: string, data: Value)
    requires code != 0
    ensures !Api(Responded(httpOk, statusText, Parsed(Response.Err()))).ok
    ensures var r := Api(Responded(httpOk, statusText, Parsed(Response.Err(code, msg, data))));
            !r.ok && r.data == data
  {
    assert HasCode(Response.Err());
    assert HasCode(Response.Err(code, msg, data));
  }

  // ---------------------------------------------------------------- escapeHtml

  /** `s.replace(/c/g, rep)`. */
  function ReplaceAll(s: string, c: char, rep: string): string {
    if s == [] then [] else (if s[0] == c then rep else [s[0]]) + ReplaceAll(s[1..], c, rep)
  }

  /** The four chained replacements of `escapeHtml`, `&` first. */
  function EscapeChain(s: string): string {
    ReplaceAll(ReplaceAll(ReplaceAll(ReplaceAll(s, '&', "&amp;"), '<', "&lt;"), '>', "&gt;"), '"', "&quot;")
  }

  function EscapeChar(c: char): string {
    if c == '&' then "&amp;"
    else if c == '<' then "&lt;"
    else if c == '>' then "&gt;"
    else if c == '"' then "&quot;"
    else [c]
  }

  /** Character-by-character escaping: the reference definition of what the chain computes. */
  function EscapeText(s: string): string {
    if s == [] then [] else EscapeChar(s[0]) + EscapeText(s[1..])
  }

  /** The decoding that undoes the four entities. */
  function Unescape(s: string): string
    decreases |s|
  {
    if s == [] then []
    else if |s| >= 5 && s[..5] == "&amp;" then "&" + Unescape(s[5..])
    else if |s| >= 4 && s[..4] == "&lt;" then "<" + Unescape(s[4..])
    else if |s| >= 4 && s[..4] == "&gt;" then ">" + Unescape(s[4..])
    else if |s| >= 6 && s[..6] == "&quot;" then "\"" + Unescape(s[6..])
    else [s[0]] + Unescape(s[1..])
  }

  lemma {:induction false} ReplaceAllAppend(a: string, b: string, c: char, rep: string)
    ensures ReplaceAll(a + b, c, rep) == ReplaceAll(a, c, rep) + ReplaceAll(b, c, rep)
  {
    if a == [] {
      assert a + b == b;
    } else {
      assert (a + b)[1..] == a[1..] + b;
      ReplaceAllAppend(a[1..], b, c, rep);
    }
  }

  lemma {:induction false} ReplaceAllAbsent(s: string, c: char, rep: string)
    requires c !in s
    ensures ReplaceAll(s, c, rep) == s
  {
    if s != [] {
      assert s[0] != c;
      ReplaceAllAbsent(s[1..], c, rep);
    }
  }

  lemma ReplaceAllOne(c: char, d: char, rep: string)
    ensures ReplaceAll([c], d, rep) == if c == d then rep else [c]
  {
    assert [c][1..] == [];
    var head := if c == d then rep else [c];
    assert ReplaceAll([c], d, rep) == head + ReplaceAll([], d, rep);
    assert head + [] == head;
  }

  /** The later replacements leave text without their characters alone. */
  lemma ChainTail(s: string, from: nat)
    requires from <= 3
    requires from <= 1 ==> '<' !in s
    requires from <= 2 ==> '>' !in s
    requires '"' !in s
    ensures (from == 1 ==> ReplaceAll(ReplaceAll(ReplaceAll(s, '<', "&lt;"), '>', "&gt;"), '"', "&quot;") == s)
    ensures (from == 2 ==> ReplaceAll(ReplaceAll(s, '>', "&gt;"), '"', "&quot;") == s)
    ensures (from == 3 ==> ReplaceAll(s, '"', "&quot;") == s)
  {
    if from <= 1 { ReplaceAllAbsent(s, '<', "&lt;"); }
    if from <= 2 { ReplaceAllAbsent(s, '>', "&gt;"); }
    ReplaceAllAbsent(s, '"', "&quot;");
  }

  lemma EscapeChainChar(c: char)
    ensures EscapeChain([c]) == EscapeChar(c)
  {
    ReplaceAllOne(c, '&', "&amp;");
    if c == '&' {
      ChainTail("&amp;", 1);
    } else {
      ReplaceAllOne(c, '<', "&lt;");
      if c == '<' {
        ChainTail("&lt;", 2);
      } else {
        ReplaceAllOne(c, '>', "&gt;");
        if c == '>' {
          ChainTail("&gt;", 3);
        } else {
          ReplaceAllOne(c, '"', "&quot;");
        }
      }
    }
  }

  lemma EscapeChainAppend(a: string, b: string)
    ensures EscapeChain(a + b) == EscapeChain(a) + EscapeChain(b)
  {
    ReplaceAllAppend(a, b, '&', "&amp;");
    var a1, b1 := ReplaceAll(a, '&', "&amp;"), ReplaceAll(b, '&', "&amp;");
    ReplaceAllAppend(a1, b1, '<', "&lt;");
    var a2, b2 := ReplaceAll(a1, '<', "&lt;"), ReplaceAll(b1, '<', "&lt;");
    ReplaceAllAppend(a2, b2, '>', "&gt;");
    var a3, b3 := ReplaceAll(a2, '>', "&gt;"), ReplaceAll(b2, '>', "&gt;");
    ReplaceAllAppend(a3, b3, '"', "&quot;");
  }

  /** The chained replacements escape each character on its own: `&` going first matters. */
  lemma {:induction false} EscapeChainIsPerChar(s: string)
    ensures EscapeChain(s) == EscapeText(s)
  {
    if s != [] {
      assert s == [s[0]] + s[1..];
      EscapeChainAppend([s[0]], s[1..]);
      EscapeChainChar(s[0]);
      EscapeChainIsPerChar(s[1..]);
    }
  }

  lemma UnescapeAmp(rest: string)
    ensures Unescape("&amp;" + rest) == "&" + Unescape(rest)
  {
    var e := "&amp;" + rest;
    assert e[..5] == "&amp;" && e[5..] == rest;
  }

  lemma UnescapeLt(rest: string)
    ensures Unescape("&lt;" + rest) == "<" + Unescape(rest)
  {
    var e := "&lt;" + rest;
    assert e[1] == 'l';
    assert e[..4] == "&lt;" && e[4..] == rest;
  }

  lemma UnescapeGt(rest: string)
    ensures Unescape("&gt;" + rest) == ">" + Unescape(rest)
  {
    var e := "&gt;" + rest;
    assert e[1] == 'g';
    assert e[..4] == "&gt;" && e[4..] == rest;
  }

  lemma UnescapeQuot(rest: string)
    ensures Unescape("&quot;" + rest) == "\"" + Unescape(rest)
  {
    var e := "&quot;" + rest;
    assert e[1] == 'q';
    assert e[..6] == "&quot;" && e[6..] == rest;
  }

  lemma UnescapePlain(c: char, rest: string)
    requires c != '&'
    ensures Unescape([c] + rest) == [c] + Unescape(rest)
  {
    var e := [c] + rest;
    assert e[0] == c && e[1..] == rest;
  }

  lemma {:induction false} UnescapeEscape(s: string)
    ensures Unescape(EscapeText(s)) == s
  {
    if s != [] {
      var c, rest := s[0], EscapeText(s[1..]);
      UnescapeEscape(s[1..]);
      if c == '&' {
        UnescapeAmp(rest);
      } else if c == '<' {
        UnescapeLt(rest);
      } else if c == '>' {
        UnescapeGt(rest);
      } else if c == '"' {
        UnescapeQuot(rest);
      } else {
        UnescapePlain(c, rest);
      }
    }
  }

  lemma {:induction false} EscapeTextInert(s: string)
    ensures '<' !in EscapeText(s) && '>' !in EscapeText(s) && '"' !in EscapeText(s)
  {
    if s != [] { EscapeTextInert(s[1..]); }
  }

  /**
   * `escapeHtml(v)`: falsy input gives the empty string; otherwise the text has no `<`, `>` or `"`
   * left and decodes back to `String(v)`.
   */
  function EscapeHtml(v: Value): (r: string)
    ensures !JsSem.Truthy(v) ==> r == ""
    ensures '<' !in r && '>' !in r && '"' !in r
    ensures JsSem.Truthy(v) ==> Unescape(r) == JsSem.ToString(v)
  {
    if !JsSem.Truthy(v) then ""
    else
      var s := JsSem.ToString(v);
      EscapeChainIsPerChar(s);
      UnescapeEscape(s);
      EscapeTextInert(s);
      EscapeChain(s)
  }
}
