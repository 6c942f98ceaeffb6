/** The backend's uniform reply envelope (utils/response.py): `{code, msg, data}`. */
module Response {
  import opened Wrappers
  import opened Json

  /** `ok(data=None, msg="ok")`: code 0. */
  function Ok(data: Value := Null, msg: string := "ok"): (r: Value)
    ensures r.Obj? && Keys(r.members) == ["code", "msg", "data"]
    ensures Get(r, "code") == Some(Num(0))
    ensures Get(r, "msg") == Some(Str(msg)) && Get(r, "data") == Some(data)
  {
    Obj([("code", Num(0)), ("msg", Str(msg)), ("data", data)])
  }

  /** `err(code=1, msg="error", data=None)`. */
  function Err(code: int := 1, msg: string := "error", data: Value := Null): (r: Value)
    ensures r.Obj? && Keys(r.members) == ["code", "msg", "data"]
    ensures Get(r, "code") == Some(Num(code))
    ensures Get(r, "msg") == Some(Str(msg)) && Get(r, "data") == Some(data)
  {
    Obj([("code", Num(code)), ("msg", Str(msg)), ("data", data)])
  }
}
