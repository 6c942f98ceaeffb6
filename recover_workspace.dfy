/**
 * The older copy of the browser client (static_recover/static/js/app.js). Its batch state is the
 * same as the current client's, without the row editor and the picker; `renderBatchTable` does no
 * selection pruning there, and `runBatch` refuses to run without a current batch id.
 */
module RecoverClient {
  import opened Wrappers
  import opened Json
  import JsSem
  import ClientApi
  import opened ClientRows
  import opened Seqs

  datatype Snapshot = Snapshot(
    rows: seq<Value>, selection: set<string>, results: map<string, Value>, currentBatchId: Value,
    selectedTplIds: seq<string>, selectedGrpIds: seq<string>, selectedProxyId: Value)

  class Workspace {
    var rows: seq<Value>
    var selection: set<string>
    var results: map<string, Value>
    var currentBatchId: Value
    var selectedTplIds: seq<string>
    var selectedGrpIds: seq<string>
    var selectedProxyId: Value

    function State(): Snapshot
      reads this
    {
      Snapshot(rows, selection, results, currentBatchId, selectedTplIds, selectedGrpIds, selectedProxyId)
    }

    ghost predicate Valid()
      reads this
    {
      NoDup(selectedTplIds) && NoDup(selectedGrpIds)
    }

    constructor ()
      ensures Valid()
      ensures State() == Snapshot([], {}, map[], Null, [], [], Null)
    {
      rows, selection, results, currentBatchId := [], {}, map[], Null;
      selectedTplIds, selectedGrpIds, selectedProxyId := [], [], Null;
    }

    /** `onToggleTpl`: checking never duplicates an id, unchecking removes it. */
    method OnToggleTpl(v: string, checked: bool)
      requires Valid()
      modifies this
      ensures Valid()
      ensures State() == old(State()).(selectedTplIds := Toggled(old(selectedTplIds), v, checked))
    {
      selectedTplIds := Toggled(selectedTplIds, v, checked);
    }

    /** `onToggleGrp`. */
    method OnToggleGrp(v: string, checked: bool)
      requires Valid()
      modifies this
      ensures Valid()
      ensures State() == old(State()).(selectedGrpIds := Toggled(old(selectedGrpIds), v, checked))
    {
      selectedGrpIds := Toggled(selectedGrpIds, v, checked);
    }

    /** `toggleBatchSelect` (the re-render that follows changes no state here). */
    method ToggleBatchSelect(id: string)
      modifies this
      ensures State() == old(State()).(selection := ToggleSet(old(selection), id))
    {
      if id in selection {
        selection := selection - {id};
      } else {
        selection := selection + {id};
      }
    }

    /**
     * The replacement `uploadBatch` and `loadBatchById` make on success. When `hosts` is a truthy
     * non-list, `map` throws right after `currentBatchId` was set (`completed` is false).
     */
    method ReplaceFromBatch(data: Value) returns (completed: bool)
      modifies this
      ensures completed <==> ListField(data, "hosts").Some?
      ensures completed ==>
        State() == old(State()).(currentBatchId := GetOrNull(data, "batch_id"),
                                 rows := ListField(data, "hosts").value,
                                 selection := RowKeys(ListField(data, "hosts").value), results := map[])
      ensures !completed ==> State() == old(State()).(currentBatchId := GetOrNull(data, "batch_id"))
    {
      currentBatchId := GetOrNull(data, "batch_id");
      var hosts := ListField(data, "hosts");
      if hosts.None? {
        return false;
      }
      rows := hosts.value;
      selection := RowKeys(rows);
      results := map[];
      completed := true;
    }

    /** `uploadBatch`: a successful reply replaces rows, selects them all and clears the results. */
    method UploadBatch(hasFile: bool, reply: ClientApi.Fetched)
      modifies this
      ensures var res := ClientApi.Api(reply);
              (!hasFile || !(res.ok && JsSem.Truthy(res.data))) ==> State() == old(State())
      ensures var res := ClientApi.Api(reply);
              (hasFile && res.ok && JsSem.Truthy(res.data) && ListField(res.data, "hosts").Some?) ==>
                State() == old(State()).(currentBatchId := GetOrNull(res.data, "batch_id"),
                                         rows := ListField(res.data, "hosts").value,
                                         selection := RowKeys(ListField(res.data, "hosts").value), results := map[])
      ensures var res := ClientApi.Api(reply);
              (hasFile && res.ok && JsSem.Truthy(res.data) && ListField(res.data, "hosts").None?) ==>
                State() == old(State()).(currentBatchId := GetOrNull(res.data, "batch_id"))
    {
      if !hasFile {
        return;
      }
      var res := ClientApi.Api(reply);
      if res.ok && JsSem.Truthy(res.data) {
        var _ := ReplaceFromBatch(res.data);
      }
    }

    /** `loadBatchById`: the same replacement; a failed reply keeps the state. */
    method LoadBatchById(id: string, reply: ClientApi.Fetched)
      modifies this
      ensures var res := ClientApi.Api(reply);
              (id == "" || !(res.ok && JsSem.Truthy(res.data))) ==> State() == old(State())
      ensures var res := ClientApi.Api(reply);
              (id != "" && res.ok && JsSem.Truthy(res.data) && ListField(res.data, "hosts").Some?) ==>
                State() == old(State()).(currentBatchId := GetOrNull(res.data, "batch_id"),
                                         rows := ListField(res.data, "hosts").value,
                                         selection := RowKeys(ListField(res.data, "hosts").value), results := map[])
      ensures var res := ClientApi.Api(reply);
              (id != "" && res.ok && JsSem.Truthy(res.data) && ListField(res.data, "hosts").None?) ==>
                State() == old(State()).(currentBatchId := GetOrNull(res.data, "batch_id"))
    {
      if id == "" {
        return;
      }
      var res := ClientApi.Api(reply);
      if res.ok && JsSem.Truthy(res.data) {
        var _ := ReplaceFromBatch(res.data);
      }
    }

    /** `Array.from(State.batchSelection)`. */
    method SelectedIds() returns (ids: seq<string>)
      ensures NoDup(ids) && forall x :: x in ids <==> x in selection
    {
      ids := [];
      var rest := selection;
      while rest != {}
        invariant rest <= selection && NoDup(ids)
        invariant forall x :: x in ids <==> x in selection && x !in rest
        decreases rest
      {
        var id :| id in rest;
        ids := ids + [id];
        rest := rest - {id};
      }
    }

    /** The `forEach` that files each returned result under `String(item_id)`; later ones win. */
    method MergeRunResults(rs: seq<Value>)
      modifies this
      ensures State() == old(State()).(results := MergeResults(old(results), rs))
    {
      var i := 0;
      while i < |rs|
        invariant 0 <= i <= |rs|
        invariant results == MergeResults(old(results), rs[..i])
        invariant State() == old(State()).(results := results)
      {
        assert rs[..i + 1][..i] == rs[..i];
        results := results[RowKey(rs[i]) := rs[i]];
        i := i + 1;
      }
      assert rs[..|rs|] == rs;
    }

    /**
     * `runBatch`: nothing is sent unless there is a current batch id, at least one row and a
     * non-empty selection; `precheck` is the checkbox state.
     */
    method RunBatch(action: string, mode: string, webUrl: string, jmxText: string, precheck: bool,
                    reply: ClientApi.Fetched)
      returns (sent: Option<Value>)
      modifies this
      ensures (!JsSem.Truthy(old(currentBatchId)) || old(rows) == [] || old(selection) == {}) ==>
                sent.None? && State() == old(State())
      ensures (JsSem.Truthy(old(currentBatchId)) && old(rows) != [] && old(selection) != {}) ==>
                sent.Some? &&
                IsRunPayload(sent.value, old(currentBatchId), old(selection), action, old(selectedTplIds),
                             old(selectedGrpIds), old(selectedProxyId), webUrl, jmxText, mode, precheck)
      ensures var rs := ListField(ClientApi.Api(reply).data, "results");
              (sent.Some? && ClientApi.Api(reply).ok && rs.Some?) ==>
                State() == old(State()).(results := MergeResults(old(results), rs.value))
      // nothing sent, a failed reply, or `results` that `forEach` throws on: nothing changes
      ensures (sent.None? || !ClientApi.Api(reply).ok || ListField(ClientApi.Api(reply).data, "results").None?) ==>
                State() == old(State())
    {
      sent := Prepare(action, mode, webUrl, jmxText, precheck);
      if sent.None? {
        return;
      }
      var res := ClientApi.Api(reply);
      var rs := ListField(res.data, "results");
      if res.ok && rs.Some? {
        MergeRunResults(rs.value);
      }
    }

    /** The precondition check and payload of `runBatch`, before anything is sent. */
    method Prepare(action: string, mode: string, webUrl: string, jmxText: string, precheck: bool)
      returns (sent: Option<Value>)
      ensures sent.None? <==> !JsSem.Truthy(currentBatchId) || rows == [] || selection == {}
      ensures sent.Some? ==>
        IsRunPayload(sent.value, currentBatchId, selection, action, selectedTplIds,
                     selectedGrpIds, selectedProxyId, webUrl, jmxText, mode, precheck)
    {
      if !JsSem.Truthy(currentBatchId) || rows == [] {
        return None;
      }
      var ids := SelectedIds();
      if ids == [] {
        assert selection == {};
        return None;
      }
      assert selection != {} by { assert ids[0] in selection; }
      var payload := RunPayload(currentBatchId, ids, action, selectedTplIds, selectedGrpIds,
                                selectedProxyId, webUrl, jmxText, mode, precheck);
      RunPayloadOf(ids, currentBatchId, selection, action, selectedTplIds, selectedGrpIds,
                   selectedProxyId, webUrl, jmxText, mode, precheck);
      sent := Some(payload);
    }
  }
}
