/**
 * The configuration endpoints of api/config.py: `GET /api/zabbix/config` replies with the stored
 * configuration, `PUT /api/zabbix/config` keeps only the allowed keys of the payload, stores them
 * and replies with the configuration that results.
 */
module ConfigApi {
  import opened Wrappers
  import opened Json
  import Response
  import ConfigDb
  import ServiceModels

  /** The keys `save_config` lets through. */
  const Allowed: set<string> := {"zabbix_api_base", "zabbix_api_token", "zabbix_api_user", "zabbix_api_password",
                                 "agent_install_dir", "project_name", "zabbix_version", "zabbix_server_host",
                                 "local_agent_path"}

  /** `{k: v for k, v in payload.items() if k in allowed}`. */
  function Permitted(payload: seq<(string, Value)>): (data: seq<(string, Value)>)
    ensures |data| <= |payload|
    ensures forall i :: 0 <= i < |data| ==> data[i].0 in Allowed
  {
    if payload == [] then []
    else (if payload[0].0 in Allowed then [payload[0]] else []) + Permitted(payload[1..])
  }

  /** An allowed key keeps its payload value; any other key is gone. */
  lemma {:induction false} PermittedLookup(payload: seq<(string, Value)>, k: string)
    ensures Lookup(Permitted(payload), k) == if k in Allowed then Lookup(payload, k) else None
    decreases |payload|
  {
    if payload == [] {
      assert Permitted(payload) == [];
    } else {
      var rest := Permitted(payload[1..]);
      var h := payload[0];
      PermittedLookup(payload[1..], k);
      assert Lookup(payload, k) == if h.0 == k then Some(h.1) else Lookup(payload[1..], k);
      if h.0 in Allowed {
        assert Permitted(payload) == [h] + rest;
        assert ([h] + rest)[1..] == rest;
        assert Lookup([h] + rest, k) == if h.0 == k then Some(h.1) else Lookup(rest, k);
      } else {
        assert Permitted(payload) == rest;
        assert h.0 == k ==> k !in Allowed;
      }
    }
  }

  /** The filtered payload is still a dict: its keys stay distinct. */
  lemma {:induction false} PermittedUnique(payload: seq<(string, Value)>)
    requires UniqueKeys(payload)
    ensures UniqueKeys(Permitted(payload))
    decreases |payload|
  {
    if payload != [] {
      UnconsUnique(payload);
      PermittedUnique(payload[1..]);
      var rest := Permitted(payload[1..]);
      if payload[0].0 in Allowed {
        PermittedLookup(payload[1..], payload[0].0);
        ConsUnique(payload[0], rest);
      }
    }
  }

  /** `GET /config`: `ok(config_store.get())`. */
  method GetConfig(store: ConfigDb.ConfigStore) returns (reply: Value)
    ensures reply == Response.Ok(Obj(ConfigDb.Loaded(store.defaults, store.table)))
  {
    var cfg := store.Get();
    reply := Response.Ok(Obj(cfg));
  }

  /** `PUT /config`: the allowed part of the payload is stored, and the reply carries `get()` afterwards. */
  method SaveConfig(store: ConfigDb.ConfigStore, payload: seq<(string, Value)>) returns (reply: Value)
    requires store.Valid() && UniqueKeys(payload)
    modifies store
    ensures store.Valid()
    ensures store.table == ConfigDb.SetAll(old(store.table), Permitted(payload))
    ensures reply == Response.Ok(Obj(ConfigDb.Loaded(store.defaults, store.table)))
  {
    var data := Permitted(payload);
    PermittedUnique(payload);
    var cfg := store.Set(data);
    reply := Response.Ok(Obj(cfg));
  }

  /**
   * What a save does to the configuration: an allowed key of the payload reads back as its payload
   * value; any other key, among them `default_template_id`, `default_group_id` and `agent_tgz_url`,
   * reads as it did before the save, whatever the payload says.
   */
  lemma SaveEffect(s: ServiceModels.Settings, table: seq<(string, ConfigDb.Stored)>, payload: seq<(string, Value)>, k: string)
    requires ConfigDb.UniqueRowKeys(table) && UniqueKeys(payload)
    ensures k in Allowed && k in Keys(payload) ==>
      Lookup(ConfigDb.Loaded(s, ConfigDb.SetAll(table, Permitted(payload))), k) == Lookup(payload, k)
    ensures k !in Allowed ==>
      Lookup(ConfigDb.Loaded(s, ConfigDb.SetAll(table, Permitted(payload))), k) == Lookup(ConfigDb.Loaded(s, table), k)
  {
    var data := Permitted(payload);
    PermittedUnique(payload);
    ConfigDb.SetThenGet(s, table, data, k);
    PermittedLookup(payload, k);
  }

  /** The settings form of the web client: the keys `saveConfig` sends, with their values. */
  function ClientPayload(apiBase: Value, user: Value, password: Value, templateId: Value, groupId: Value,
                         serverHost: Value, agentTgz: Value, localAgentPath: Value): (p: seq<(string, Value)>)
    ensures Keys(p) == ["zabbix_api_base", "zabbix_api_user", "zabbix_api_password", "default_template_id",
                        "default_group_id", "zabbix_server_host", "agent_tgz_url", "local_agent_path"]
  {
    [("zabbix_api_base", apiBase), ("zabbix_api_user", user), ("zabbix_api_password", password),
     ("default_template_id", templateId), ("default_group_id", groupId), ("zabbix_server_host", serverHost),
     ("agent_tgz_url", agentTgz), ("local_agent_path", localAgentPath)]
  }

  /**
   * Three of the keys the client sends never reach the store, whatever their values: the default
   * template, the default group and the agent URL.
   */
  lemma ClientFieldsDropped(payload: seq<(string, Value)>)
    ensures Lookup(Permitted(payload), "default_template_id") == None
    ensures Lookup(Permitted(payload), "default_group_id") == None
    ensures Lookup(Permitted(payload), "agent_tgz_url") == None
  {
    assert "default_template_id" !in Allowed && "default_group_id" !in Allowed && "agent_tgz_url" !in Allowed;
    PermittedLookup(payload, "default_template_id");
    PermittedLookup(payload, "default_group_id");
    PermittedLookup(payload, "agent_tgz_url");
  }
}
