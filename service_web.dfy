/**
 * Web scenarios and the Zabbix version they depend on (service.py `_zbx_version`,
 * `_ensure_web_monitor`). The scenario name derived from the URL (`_web_monitor_name`) is
 * passed in, since its fallback is random.
 */
module WebScenario {
  import opened Wrappers
  import opened Json
  import opened ServiceModels
  import PySem

  /**
   * `_zbx_version()`: the configured version, else the settings' version, else "6.0", read as
   * `major.minor`; a missing minor is 0 and anything unreadable is (6, 0).
   */
  function ZbxVersion(configured: Value, settingsVersion: string): (v: (int, int))
  {
    var raw := PySem.Or(PySem.Or(configured, Str(settingsVersion)), Str("6.0"));
    var parts := PySem.Split(PySem.ToStr(raw), '.');
    var major := PySem.ParseInt(parts[0]);
    var minor := if |parts| > 1 then PySem.ParseInt(parts[1]) else Some(0);
    if major.Some? && minor.Some? then (major.value, minor.value) else (6, 0)
  }

  /** Version text "a.b" reads back as (a, b). */
  lemma VersionRoundTrip(a: nat, b: nat, settingsVersion: string)
    ensures ZbxVersion(Str(NatToDecimal(a) + "." + NatToDecimal(b)), settingsVersion) == (a, b)
  {
    var sa, sb := NatToDecimal(a), NatToDecimal(b);
    assert '.' !in sa && '.' !in sb by {
      assert forall i :: 0 <= i < |sa| ==> sa[i] != '.';
      assert forall i :: 0 <= i < |sb| ==> sb[i] != '.';
    }
    assert PySem.Join([sa, sb], ".") == sa + "." + sb;
    PySem.SplitJoin([sa, sb], '.');
    PySem.ParseIntOfDecimal(a);
    PySem.ParseIntOfDecimal(b);
  }

  /** A bare major version "a" reads as (a, 0). */
  lemma MajorOnly(a: nat, settingsVersion: string)
    ensures ZbxVersion(Str(NatToDecimal(a)), settingsVersion) == (a, 0)
  {
    var sa := NatToDecimal(a);
    assert '.' !in sa by { assert forall i :: 0 <= i < |sa| ==> sa[i] != '.'; }
    assert PySem.Split(sa, '.') == [sa];
    assert PySem.ToStr(PySem.Or(PySem.Or(Str(sa), Str(settingsVersion)), Str("6.0"))) == sa;
    PySem.ParseIntOfDecimal(a);
  }

  /** Without a configured version, the settings' version is the one read. */
  lemma SettingsVersionUsed(configured: Value, settingsVersion: string)
    requires !PySem.Truthy(configured) && settingsVersion != ""
    ensures ZbxVersion(configured, settingsVersion) == ZbxVersion(Str(settingsVersion), settingsVersion)
  {
  }

  /** With the defaults of core/settings.py and nothing configured, the version is (6, 4). */
  lemma DefaultVersion()
    ensures ZbxVersion(Null, DefaultSettings.zabbixVersion) == (6, 4)
  {
    var sv := DefaultSettings.zabbixVersion;
    var six, four := NatToDecimal(6), NatToDecimal(4);
    assert six == [DigitChar(6)] && DigitChar(6) == '6';
    assert four == [DigitChar(4)] && DigitChar(4) == '4';
    assert sv == ['6'] + "." + ['4'];
    VersionRoundTrip(6, 4, sv);
    SettingsVersionUsed(Null, sv);
  }

  /** Text without a single digit cannot be read and falls back to (6, 0). */
  lemma NonNumericVersion(text: string, settingsVersion: string)
    requires text != "" && forall c :: c in text ==> !PySem.IsDigit(c)
    ensures ZbxVersion(Str(text), settingsVersion) == (6, 0)
  {
    assert PySem.ToStr(PySem.Or(PySem.Or(Str(text), Str(settingsVersion)), Str("6.0"))) == text;
    PySem.SplitPiecesFrom(text, '.', 0);
    PySem.ParseIntNeedsDigit(PySem.Split(text, '.')[0]);
  }

  /** The single scenario step: "no" is sent only to Zabbix 6 and later. */
  function ScenarioStep(url: string, major: int): (r: Value)
    ensures r.Obj? && UniqueKeys(r.members)
    ensures Get(r, "name") == Some(Str("step1")) && Get(r, "url") == Some(Str(url))
    ensures Get(r, "status_codes") == Some(Str("200"))
    ensures Get(r, "no").Some? <==> major >= 6
    ensures major >= 6 ==> Get(r, "no") == Some(Num(1))
  {
    StepLookups(url, major);
    Obj(StepMembers(url, major))
  }

  function StepMembers(url: string, major: int): seq<(string, Value)> {
    [("name", Str("step1")), ("url", Str(url)), ("status_codes", Str("200"))]
    + if major >= 6 then [("no", Num(1))] else []
  }

  lemma StepLookups(url: string, major: int)
    ensures var ms := StepMembers(url, major);
      UniqueKeys(ms) && Lookup(ms, "name") == Some(Str("step1")) && Lookup(ms, "url") == Some(Str(url))
      && Lookup(ms, "status_codes") == Some(Str("200"))
      && (Lookup(ms, "no").Some? <==> major >= 6) && (major >= 6 ==> Lookup(ms, "no") == Some(Num(1)))
  {
    var ms := StepMembers(url, major);
    assert UniqueKeys(ms);
    LookupAt(ms, 0);
    LookupAt(ms, 1);
    LookupAt(ms, 2);
    if major >= 6 {
      LookupAt(ms, 3);
    } else {
      assert Keys(ms) == ["name", "url", "status_codes"];
    }
  }

  /** The write call `_ensure_web_monitor` makes. */
  datatype ScenarioCall =
    | UpdateScenario(httptestid: Value, name: string, step: Value, delay: string, retries: int)
    | CreateScenario(name: string, hostid: Value, step: Value, delay: string, retries: int, agent: string)

  /** `existing[0]["httptestid"]` can be read from the `httptest.get` reply. */
  predicate HasScenarioId(existing: Value) {
    existing.Arr? && existing.items != [] && existing.items[0].Obj? && Get(existing.items[0], "httptestid").Some?
  }

  /**
   * The `httptest.create` branch: its failure, or the call with the new id, the first of
   * `httptestids` or else the reply's text.
   */
  function Created(call: ScenarioCall, created: Result<Value, Failure>): (r: Result<(ScenarioCall, Value), Failure>)
    ensures created.Err? ==> r == Err(created.error)
    ensures r.Ok? ==> r.value.0 == call
    ensures created.Ok? && !(created.value.Obj? && PySem.Truthy(GetOrNull(created.value, "httptestids"))) ==>
      r == Ok((call, Str(PySem.ToStr(created.value))))
  {
    match created
    case Err(e) => Err(e)
    case Ok(res) =>
      var ids := GetOrNull(res, "httptestids");
      if res.Obj? && PySem.Truthy(ids) then
        if ids.Arr? then Ok((call, ids.items[0]))
        else if ids.Str? then Ok((call, Str(ids.s[..1])))
        else Err(Error("httptest.create answered httptestids that cannot be indexed"))
      else Ok((call, Str(PySem.ToStr(res))))
  }

  /**
   * `_ensure_web_monitor(host_id, url)`: `existing` is the `httptest.get` reply or its failure.
   * An existing scenario of that name is updated (`updateError` is that call's failure) and its
   * id returned; otherwise one is created and the id taken from the reply `created`, or the
   * reply's text when it carries no ids. A failing call raises, and so does indexing a reply of
   * the wrong shape; the texts for the latter are the model's own stand-ins.
   */
  function EnsureWebMonitor(hostid: Value, url: string, name: string, major: int, existing: Result<Value, Failure>,
                            updateError: Option<Failure>, created: Result<Value, Failure>)
    : (r: Result<(ScenarioCall, Value), Failure>)
    ensures existing.Err? ==> r == Err(existing.error)
    ensures existing.Ok? && PySem.Truthy(existing.value) && r.Ok? ==>
      r.value.0.UpdateScenario? && r.value.1 == r.value.0.httptestid
    ensures existing.Ok? && HasScenarioId(existing.value) ==>
      var id := GetOrNull(existing.value.items[0], "httptestid");
      r == if updateError.Some? then Err(updateError.value)
           else Ok((UpdateScenario(id, name, ScenarioStep(url, major), "1m", 1), id))
    ensures existing.Ok? && !PySem.Truthy(existing.value) && created.Err? ==> r == Err(created.error)
    ensures existing.Ok? && !PySem.Truthy(existing.value) && r.Ok? ==>
      r.value.0 == CreateScenario(name, hostid, ScenarioStep(url, major), "1m", 1, "Mozilla/5.0")
    ensures (existing.Ok? && !PySem.Truthy(existing.value) && created.Ok?
             && !(created.value.Obj? && PySem.Truthy(GetOrNull(created.value, "httptestids")))) ==>
      r == Ok((CreateScenario(name, hostid, ScenarioStep(url, major), "1m", 1, "Mozilla/5.0"), Str(PySem.ToStr(created.value))))
    ensures r.Ok? ==> r.value.0.delay == "1m" && r.value.0.retries == 1 && r.value.0.step == ScenarioStep(url, major)
  {
    var step := ScenarioStep(url, major);
    match existing
    case Err(e) => Err(e)
    case Ok(found) =>
      if PySem.Truthy(found) then
        if HasScenarioId(found) then
          var id := GetOrNull(found.items[0], "httptestid");
          if updateError.Some? then Err(updateError.value)
          else Ok((UpdateScenario(id, name, step, "1m", 1), id))
        else Err(Error("httptest.get answered no scenario id"))
      else
        Created(CreateScenario(name, hostid, step, "1m", 1, "Mozilla/5.0"), created)
  }
}
