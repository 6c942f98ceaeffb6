/**
 * The Zabbix JSON-RPC client of the provisioning service (service.py `_zbx`, `_ensure_auth`):
 * an authentication token cached on the service object, obtained from the configuration or by
 * a `user.login` call, and cleared when the API reports an authentication error. The HTTP
 * transport is an oracle: each post yields one `Reply`.
 */
module ZabbixApi {
  import opened Wrappers
  import opened Json
  import opened ServiceModels
  import PySem

  /** What one `client.post(...)` followed by `resp.json()` yields. */
  datatype Reply =
    | RequestFailed(reason: string)          // httpx.RequestError
    | StatusFailed(reason: string)           // raise_for_status() on a 4xx/5xx reply
    | NonJson(statusCode: int, text: string) // the body is not JSON
    | Json(data: Value)                      // the decoded body

  function Take(s: string, n: nat): (r: string)
    ensures |r| <= n && r <= s
  {
    if |s| <= n then s else s[..n]
  }

  /** `"error" in data` for a decoded JSON object. */
  predicate HasError(data: Value) {
    data.Obj? && "error" in Keys(data.members)
  }

  /** The error codes after which the cached token is dropped. */
  predicate IsAuthErrorCode(code: Value) {
    code == Num(-32602) || code == Num(-32500)
  }

  /**
   * `_ensure_auth(cfg)` from cache contents `cache`: the reply and the new cache contents.
   * `login` is the reply of the `user.login` post, used only when a login happens.
   */
  function AuthStep(cache: Value, cfg: Value, login: Reply): (o: (Result<Value, Failure>, Value))
    ensures PySem.Truthy(cache) ==> o == (Ok(cache), cache)
    ensures !PySem.Truthy(cache) && PySem.Truthy(GetOrNull(cfg, "zabbix_api_token")) ==>
      o == (Ok(GetOrNull(cfg, "zabbix_api_token")), GetOrNull(cfg, "zabbix_api_token"))
    ensures !PySem.Truthy(cache) && !PySem.Truthy(GetOrNull(cfg, "zabbix_api_token"))
      && (!PySem.Truthy(GetOrNull(cfg, "zabbix_api_user")) || !PySem.Truthy(GetOrNull(cfg, "zabbix_api_password")))
      ==> o == (Err(HttpFail(400, "Zabbix auth missing: set token or user/password")), cache)
    ensures o.0.Err? ==> o.1 == cache
    ensures o.0.Ok? ==> o.1 == o.0.value
  {
    if PySem.Truthy(cache) then (Ok(cache), cache)
    else
      var token := GetOrNull(cfg, "zabbix_api_token");
      if PySem.Truthy(token) then (Ok(token), token)
      else if !PySem.Truthy(GetOrNull(cfg, "zabbix_api_user")) || !PySem.Truthy(GetOrNull(cfg, "zabbix_api_password")) then
        (Err(HttpFail(400, "Zabbix auth missing: set token or user/password")), cache)
      else
        match login
        case RequestFailed(reason) => (Err(HttpFail(502, "Zabbix login request failed: " + reason)), cache)
        case StatusFailed(reason) => (Err(Error(reason)), cache)
        case NonJson(status, text) =>
          (Err(HttpFail(502, "Zabbix login non-JSON response (status " + IntToDecimal(status) + "): " + Take(text, 500))), cache)
        case Json(data) =>
          if HasError(data) then
            (Err(HttpFail(401, "Zabbix login failed: " + PySem.ToStr(GetOrNull(data, "error")))), cache)
          // A reply that is not a JSON object makes Python's `in` or `.get` raise a TypeError or an
          // AttributeError; the message here is the model's own stand-in for its text.
          else if !data.Obj? then (Err(Error("reply is not a JSON object")), cache)
          else
            var result := GetOrNull(data, "result");
            (Ok(result), result)
  }

  /**
   * How `_zbx` ends once a token is at hand: the API reply, and whether the cache is dropped.
   * An API error is read as `data["error"]["code"]` before anything else: an `error` dict
   * without `code` raises `KeyError('code')`, and an `error` that is not a dict raises a
   * TypeError; either way the cache is kept.
   */
  function CallStep(reply: Reply): (o: (Result<Value, Failure>, bool))
    ensures o.1 <==> (reply.Json? && HasError(reply.data)
      && IsAuthErrorCode(GetOrNull(GetOrNull(reply.data, "error"), "code")))
    ensures o.0.Ok? <==> reply.Json? && reply.data.Obj? && !HasError(reply.data)
    ensures o.0.Ok? ==> o.0.value == GetOrNull(reply.data, "result")
    ensures reply.Json? && HasError(reply.data) ==>
      var error := GetOrNull(reply.data, "error");
      (error.Obj? && Get(error, "code").Some? ==> o.0 == Err(Error("Zabbix API error " + PySem.ToStr(error))))
      && (error.Obj? && Get(error, "code").None? ==> o == (Err(Error("'code'")), false))
      && (!error.Obj? ==> o.0.Err? && !o.1)
  {
    match reply
    case RequestFailed(reason) => (Err(HttpFail(502, "Zabbix API request failed: " + reason)), false)
    case StatusFailed(reason) => (Err(Error(reason)), false)
    case NonJson(_, text) => (Err(HttpFail(502, "Zabbix API returned non-JSON response: " + Take(text, 500))), false)
    case Json(data) =>
      if HasError(data) then
        var error := GetOrNull(data, "error");
        // the model's own stand-in for the text of the TypeError subscripting a non-dict raises
        if !error.Obj? then (Err(Error("Zabbix API error is not a JSON object")), false)
        else if Get(error, "code").None? then (Err(Error("'code'")), false)
        else (Err(Error("Zabbix API error " + PySem.ToStr(error))), IsAuthErrorCode(GetOrNull(error, "code")))
      // As in the login: the model's own stand-in text for the TypeError or AttributeError.
      else if !data.Obj? then (Err(Error("reply is not a JSON object")), false)
      else (Ok(GetOrNull(data, "result")), false)
  }

  /** An error reply without a code fails on reading `code`, and the cached token is kept. */
  lemma ErrorWithoutCode(message: string)
    ensures CallStep(Json(Obj([("error", Obj([("message", Str(message))]))]))) == (Err(Error("'code'")), false)
  {
    var error := Obj([("message", Str(message))]);
    var data := Obj([("error", error)]);
    assert Keys(data.members) == ["error"];
    assert GetOrNull(data, "error") == error;
    assert Get(error, "code").None?;
  }

  /** The service object's Zabbix session: only `_auth_cache` changes. */
  class Session {
    var authCache: Value

    constructor()
      ensures authCache == Null
    {
      authCache := Null;
    }

    /** `_ensure_auth(cfg)`. */
    method EnsureAuth(cfg: Value, login: Reply) returns (r: Result<Value, Failure>)
      modifies this
      ensures (r, authCache) == AuthStep(old(authCache), cfg, login)
    {
      var o := AuthStep(authCache, cfg, login);
      authCache := o.1;
      return o.0;
    }

    /**
     * `_zbx(method, params)`: authenticate, post, and return the API's `result`. An API error
     * with code -32602 or -32500 drops the cached token; any other outcome leaves the token
     * `_ensure_auth` settled on.
     */
    method Call(cfg: Value, login: Reply, reply: Reply) returns (r: Result<Value, Failure>)
      modifies this
      ensures AuthStep(old(authCache), cfg, login).0.Err? ==>
        r == AuthStep(old(authCache), cfg, login).0 && authCache == old(authCache)
      ensures AuthStep(old(authCache), cfg, login).0.Ok? ==>
        r == CallStep(reply).0
        && authCache == (if CallStep(reply).1 then Null else AuthStep(old(authCache), cfg, login).1)
    {
      var token := EnsureAuth(cfg, login);
      if token.Err? {
        return token;
      }
      var o := CallStep(reply);
      if o.1 {
        authCache := Null;
      }
      return o.0;
    }
  }

  /** A cached token is used as it is: no login reply is consulted. */
  lemma CachedTokenSkipsLogin(cache: Value, cfg: Value, login: Reply, login': Reply)
    requires PySem.Truthy(cache)
    ensures AuthStep(cache, cfg, login) == AuthStep(cache, cfg, login') == (Ok(cache), cache)
  {
  }

  /** A configured token is cached, so the next authentication reuses it without a login. */
  lemma ConfiguredTokenCached(cfg: Value, cfg': Value, login: Reply, login': Reply)
    requires PySem.Truthy(GetOrNull(cfg, "zabbix_api_token"))
    ensures var o := AuthStep(Null, cfg, login);
      o.0 == Ok(GetOrNull(cfg, "zabbix_api_token")) && AuthStep(o.1, cfg', login') == o
  {
  }

  /**
   * An API error with an authentication code asks for the cache to be dropped, and from the
   * emptied cache the next authentication takes the configured token afresh.
   */
  lemma AuthErrorForcesFreshAuth(cfg: Value, login: Reply, error: Value)
    requires IsAuthErrorCode(GetOrNull(error, "code"))
    requires PySem.Truthy(GetOrNull(cfg, "zabbix_api_token"))
    ensures var reply := Json(Obj([("error", error)]));
      CallStep(reply).1
      && AuthStep(Null, cfg, login) == (Ok(GetOrNull(cfg, "zabbix_api_token")), GetOrNull(cfg, "zabbix_api_token"))
  {
    var data := Obj([("error", error)]);
    assert Keys(data.members) == ["error"];
  }
}
