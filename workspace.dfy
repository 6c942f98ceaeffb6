/**
 * The batch table state of the browser client (static/js/app.js): the `State` fields behind the
 * batch page and the handlers that change them. Dialog answers (`confirm`), the file input, the
 * form inputs and the replies of `fetch` are parameters; rendering is left out except for the
 * selection pruning `renderBatchTable` performs.
 */
module ClientWorkspace {
  import opened Wrappers
  import opened Json
  import JsSem
  import PySem
  import ClientApi
  import opened ClientRows
  import opened Seqs

  /** The fields of the client state this model keeps, as one value. */
  datatype Snapshot = Snapshot(
    rows: seq<Value>, selection: set<string>, results: map<string, Value>, currentBatchId: Value,
    selectedTplIds: seq<string>, selectedGrpIds: seq<string>, selectedProxyId: Value,
    selectorType: Value, selectorRowId: Value, selectorTemp: seq<string>)

  /** `createEmptyBatchRow()`; the `tmp-<Date.now()>-<random hex>` id is passed in. */
  function EmptyRow(itemId: string): (r: Value)
    ensures r.Obj? && UniqueKeys(r.members)
    ensures RowKey(r) == itemId
  {
    var ms := [("item_id", Str(itemId)), ("hostname", Str("")), ("ip", Str("")), ("env", Str("")),
               ("ssh_user", Str("")), ("ssh_password", Str("")), ("ssh_port", Str("22")),
               ("port", Str("10050")), ("jmx_port", Str("10052")), ("proxy_id", Str("")),
               ("template_ids", Arr([])), ("group_ids", Arr([]))];
    assert UniqueKeys(ms);
    LookupAt(ms, 0);
    Obj(ms)
  }

  /** The new row's ports and lists are the defaults the table shows. */
  lemma EmptyRowDefaults(itemId: string)
    ensures var r := EmptyRow(itemId);
            GetOrNull(r, "ssh_port") == Str("22") && GetOrNull(r, "port") == Str("10050") &&
            GetOrNull(r, "jmx_port") == Str("10052") &&
            GetOrNull(r, "template_ids") == Arr([]) && GetOrNull(r, "group_ids") == Arr([])
  {
    var r := EmptyRow(itemId);
    LookupAt(r.members, 6);
    LookupAt(r.members, 7);
    LookupAt(r.members, 8);
    LookupAt(r.members, 10);
    LookupAt(r.members, 11);
  }

  /** The test `renderSelectorOptions` keeps a template or group by; `keyword` is already lower-case. */
  predicate OptionMatches(item: Value, idKey: string, keyword: string) {
    var name := PySem.Lower(JsSem.ToString(
                  ClientApi.JsOr(GetOrNull(item, "name"), ClientApi.JsOr(GetOrNull(item, "host"), Str("")))));
    keyword == "" || Contains(name, keyword) || Contains(JsSem.ToString(GetOrNull(item, idKey)), keyword)
  }

  /** `source.filter(...)` of `renderSelectorOptions`: exactly the matching items, in order. */
  function FilterOptions(source: seq<Value>, idKey: string, keyword: string): (r: seq<Value>)
    ensures |r| <= |source|
    ensures forall x :: x in r <==> x in source && OptionMatches(x, idKey, keyword)
    ensures keyword == "" ==> r == source
  {
    if source == [] then []
    else
      var rest := FilterOptions(source[1..], idKey, keyword);
      if OptionMatches(source[0], idKey, keyword) then [source[0]] + rest else rest
  }

  /**
   * The ids `openSelector` seeds its picker with: the `group_ids` (kind 'grp') or `template_ids`
   * of the first row with that id, or nothing when no row has it; None when that row's list is
   * a truthy value that is not an array, on which `forEach` throws.
   */
  function PickerSeed(rows: seq<Value>, kind: string, rowId: string): (ids: Option<seq<string>>)
    ensures FindRow(rows, rowId).None? ==> ids == Some([])
    ensures FindRow(rows, rowId).Some? ==>
              ids == IdsOf(GetOrNull(rows[FindRow(rows, rowId).value], if kind == "grp" then "group_ids" else "template_ids"))
    ensures ids.None? ==> FindRow(rows, rowId).Some?
  {
    match FindRow(rows, rowId)
    case None => Some([])
    case Some(i) => IdsOf(GetOrNull(rows[i], if kind == "grp" then "group_ids" else "template_ids"))
  }

  /** `defaults.forEach(id => temp.add(String(id)))` into a fresh Set: insertion order, no repeats. */
  method SeedPicker(ids: seq<string>) returns (temp: seq<string>)
    ensures temp == Dedupe(ids)
  {
    temp := [];
    for k := 0 to |ids|
      invariant temp == Dedupe(ids[..k])
    {
      assert ids[..k + 1][..k] == ids[..k];
      temp := Insert(temp, ids[k]);
    }
    assert ids[..|ids|] == ids;
  }

  class Workspace {
    var rows: seq<Value>
    var selection: set<string>
    var results: map<string, Value>
    var currentBatchId: Value
    var selectedTplIds: seq<string>
    var selectedGrpIds: seq<string>
    var selectedProxyId: Value
    var selectorType: Value
    var selectorRowId: Value
    var selectorTemp: seq<string>

    function State(): Snapshot
      reads this
    {
      Snapshot(rows, selection, results, currentBatchId, selectedTplIds, selectedGrpIds,
               selectedProxyId, selectorType, selectorRowId, selectorTemp)
    }

    /** The picked template and group ids and the picker's set never hold an id twice. */
    ghost predicate Valid()
      reads this
    {
      NoDup(selectedTplIds) && NoDup(selectedGrpIds) && NoDup(selectorTemp)
    }

    /** The initial `State`. */
    constructor ()
      ensures Valid()
      ensures State() == Snapshot([], {}, map[], Null, [], [], Null, Null, Null, [])
    {
      rows, selection, results, currentBatchId := [], {}, map[], Null;
      selectedTplIds, selectedGrpIds, selectedProxyId := [], [], Null;
      selectorType, selectorRowId, selectorTemp := Null, Null, [];
    }

    /** `onToggleTpl`: a checked id is present exactly once, an unchecked one is gone. */
    method OnToggleTpl(v: string, checked: bool)
      requires Valid()
      modifies this
      ensures Valid()
      ensures State() == old(State()).(selectedTplIds := Toggled(old(selectedTplIds), v, checked))
    {
      selectedTplIds := Toggled(selectedTplIds, v, checked);
    }

    /** `onToggleGrp`. */
    method OnToggleGrp(v: string, checked: bool)
      requires Valid()
      modifies this
      ensures Valid()
      ensures State() == old(State()).(selectedGrpIds := Toggled(old(selectedGrpIds), v, checked))
    {
      selectedGrpIds := Toggled(selectedGrpIds, v, checked);
    }

    /** `onSelectProxy`. */
    method OnSelectProxy(id: string)
      modifies this
      ensures State() == old(State()).(selectedProxyId := Str(id))
    {
      selectedProxyId := Str(id);
    }

    /** `removeTpl`: the id is no longer picked, the others keep their order. */
    method RemoveTpl(id: string)
      requires Valid()
      modifies this
      ensures Valid()
      ensures State() == old(State()).(selectedTplIds := Without(old(selectedTplIds), id))
    {
      selectedTplIds := Without(selectedTplIds, id);
    }

    /** `removeGrp`. */
    method RemoveGrp(id: string)
      requires Valid()
      modifies this
      ensures Valid()
      ensures State() == old(State()).(selectedGrpIds := Without(old(selectedGrpIds), id))
    {
      selectedGrpIds := Without(selectedGrpIds, id);
    }

    /** `clearTemplates`. */
    method ClearTemplates()
      modifies this
      ensures State() == old(State()).(selectedTplIds := [])
    {
      selectedTplIds := [];
    }

    /** `clearGroups`. */
    method ClearGroups()
      modifies this
      ensures State() == old(State()).(selectedGrpIds := [])
    {
      selectedGrpIds := [];
    }

    /** `clearProxy`. */
    method ClearProxy()
      modifies this
      ensures State() == old(State()).(selectedProxyId := Null)
    {
      selectedProxyId := Null;
    }

    /**
     * The pruning step of `renderBatchTable`: every selected id that no longer names a row is
     * dropped, so the selection ends inside the row ids.
     */
    method PruneSelection()
      modifies this
      ensures State() == old(State()).(selection := old(selection) * RowKeys(rows))
      ensures selection <= RowKeys(rows)
    {
      var valid := RowKeys(rows);
      var pending := selection;
      while pending != {}
        invariant pending <= old(selection)
        invariant selection == (old(selection) - pending) * valid + pending
        invariant State() == old(State()).(selection := selection)
        decreases pending
      {
        var id :| id in pending;
        if id !in valid {
          selection := selection - {id};
        }
        pending := pending - {id};
      }
    }

    /** `toggleBatchSelect`. */
    method ToggleBatchSelect(id: string)
      modifies this
      ensures State() == old(State()).(selection := ToggleSet(old(selection), id))
    {
      if id in selection {
        selection := selection - {id};
      } else {
        selection := selection + {id};
      }
    }

    /** `toggleAllBatchRows`: checked selects every row id, unchecked selects none. */
    method ToggleAllBatchRows(checked: bool)
      modifies this
      ensures checked ==> State() == old(State()).(selection := RowKeys(rows))
      ensures !checked ==> State() == old(State()).(selection := {})
    {
      if checked {
        var i := 0;
        while i < |rows|
          invariant 0 <= i <= |rows|
          invariant selection == old(selection) + RowKeys(rows[..i])
          invariant State() == old(State()).(selection := selection)
        {
          RowKeysPrefix(rows, i);
          selection := selection + {RowKey(rows[i])};
          i := i + 1;
        }
        assert rows[..|rows|] == rows;
      } else {
        selection := {};
      }
      PruneSelection();
    }

    /** `editBatchField`: only the named field of the first row with that id changes. */
    method EditBatchField(id: string, field: string, value: Value)
      modifies this
      ensures FindRow(old(rows), id).None? ==> State() == old(State())
      ensures FindRow(old(rows), id).Some? ==>
                var i := FindRow(old(rows), id).value;
                State() == old(State()).(rows := old(rows)[i := SetField(old(rows)[i], field, value)])
    {
      match FindRow(rows, id)
      case None =>
      case Some(i) =>
        rows := rows[i := SetField(rows[i], field, value)];
    }

    /** `addRowsFromSelection`: one empty row is appended and selected. */
    method AddRowsFromSelection(itemId: string)
      modifies this
      ensures rows == old(rows) + [EmptyRow(itemId)]
      ensures selection == (old(selection) + {itemId}) * RowKeys(rows)
      ensures itemId in selection
      ensures State() == old(State()).(rows := rows, selection := selection)
    {
      var row := EmptyRow(itemId);
      rows := rows + [row];
      selection := selection + {itemId};
      ghost var mid := State();
      assert mid == old(State()).(rows := rows, selection := selection);
      RowKeysSnoc(old(rows), row);
      PruneSelection();
      assert State() == mid.(selection := selection);
    }

    /** `clearAllBatchRows`: nothing happens on an empty table or a refused confirmation. */
    method ClearAllBatchRows(confirmed: bool)
      modifies this
      ensures (old(rows) == [] || !confirmed) ==> State() == old(State())
      ensures (old(rows) != [] && confirmed) ==>
                State() == old(State()).(rows := [], selection := {}, results := map[], currentBatchId := Null)
    {
      if rows == [] {
        return;
      }
      if !confirmed {
        return;
      }
      rows := [];
      selection := {};
      results := map[];
      currentBatchId := Null;
      PruneSelection();
    }

    /**
     * `deleteSelectedBatchRows`: the selected rows go, the others stay in order, the selection
     * empties and the deleted ids lose their results.
     */
    method DeleteSelectedBatchRows(confirmed: bool)
      modifies this
      ensures (old(selection) == {} || !confirmed) ==> State() == old(State())
      ensures (old(selection) != {} && confirmed) ==>
                State() == old(State()).(rows := KeepUnselected(old(rows), old(selection)),
                                         selection := {}, results := old(results) - old(selection))
    {
      var ids := selection;
      if ids == {} {
        return;
      }
      if !confirmed {
        return;
      }
      rows := KeepUnselected(rows, ids);
      var pending := ids;
      while pending != {}
        invariant pending <= ids
        invariant rows == KeepUnselected(old(rows), ids)
        invariant selection == pending
        invariant results == old(results) - (ids - pending)
        invariant State() == old(State()).(rows := rows, selection := selection, results := results)
        decreases pending
      {
        var id :| id in pending;
        selection := selection - {id};
        results := results - {id};
        pending := pending - {id};
      }
      assert ids - pending == ids;
      assert selection == {};
      PruneSelection();
    }

    /**
     * `openSelector`: the picker is reset for the kind and row, then seeded from the row's current
     * group or template ids, and the modal opens. When seeding throws, the picker stays empty and
     * the modal does not open (`shown` is false).
     */
    method OpenSelector(kind: string, rowId: string) returns (shown: bool)
      requires Valid()
      modifies this
      ensures Valid()
      ensures shown <==> PickerSeed(old(rows), kind, rowId).Some?
      ensures State() == old(State()).(selectorType := Str(kind), selectorRowId := Str(rowId),
                                       selectorTemp := if shown then Dedupe(PickerSeed(old(rows), kind, rowId).value) else [])
    {
      selectorType := Str(kind);
      selectorRowId := Str(rowId);
      selectorTemp := [];
      var seed := PickerSeed(rows, kind, rowId);
      if seed.None? {
        return false;
      }
      var temp := SeedPicker(seed.value);
      selectorTemp := temp;
      shown := true;
    }

    /** `toggleSelectorItem`. */
    method ToggleSelectorItem(id: string, checked: bool)
      requires Valid()
      modifies this
      ensures Valid()
      ensures State() == old(State()).(selectorTemp := Toggled(old(selectorTemp), id, checked))
    {
      selectorTemp := Toggled(selectorTemp, id, checked);
    }

    /** `closeSelector`: the picker always ends reset. */
    method CloseSelector()
      requires Valid()
      modifies this
      ensures Valid()
      ensures State() == old(State()).(selectorType := Null, selectorRowId := Null, selectorTemp := [])
    {
      selectorType := Null;
      selectorRowId := Null;
      selectorTemp := [];
    }

    /**
     * `confirmSelector`: the target row's `group_ids` (picker type 'grp') or `template_ids` becomes
     * the picker contents; no other row changes; then the picker closes and the table re-renders.
     */
    method ConfirmSelector()
      requires Valid()
      modifies this
      ensures Valid()
      ensures var found := FindRow(old(rows), JsSem.ToString(old(selectorRowId)));
              var field := if old(selectorType) == Str("grp") then "group_ids" else "template_ids";
              rows == (if found.Some? then
                         old(rows)[found.value := SetField(old(rows)[found.value], field, StrItems(old(selectorTemp)))]
                       else old(rows))
      ensures State() == old(State()).(rows := rows, selection := old(selection) * RowKeys(rows),
                                       selectorType := Null, selectorRowId := Null, selectorTemp := [])
    {
      var field := if selectorType == Str("grp") then "group_ids" else "template_ids";
      match FindRow(rows, JsSem.ToString(selectorRowId)) {
        case None =>
        case Some(i) =>
          rows := rows[i := SetField(rows[i], field, StrItems(selectorTemp))];
      }
      CloseSelector();
      PruneSelection();
    }

    /**
     * The state replacement shared by `loadBatchById` and `uploadBatch` on success. When `hosts`
     * is a truthy non-list, `map` throws right after `currentBatchId` was set (`completed` is false).
     */
    method ReplaceFromBatch(data: Value) returns (completed: bool)
      modifies this
      ensures completed <==> ListField(data, "hosts").Some?
      ensures completed ==>
        State() == old(State()).(currentBatchId := GetOrNull(data, "batch_id"),
                                 rows := ListField(data, "hosts").value,
                                 selection := RowKeys(ListField(data, "hosts").value), results := map[])
      ensures !completed ==> State() == old(State()).(currentBatchId := GetOrNull(data, "batch_id"))
    {
      currentBatchId := GetOrNull(data, "batch_id");
      var hosts := ListField(data, "hosts");
      if hosts.None? {
        return false;
      }
      rows := hosts.value;
      selection := RowKeys(rows);
      results := map[];
      PruneSelection();
      completed := true;
    }

    /** `loadBatchById`: a successful reply replaces the table; anything else leaves it alone. */
    method LoadBatchById(id: string, reply: ClientApi.Fetched)
      modifies this
      ensures var res := ClientApi.Api(reply);
              (id == "" || !(res.ok && JsSem.Truthy(res.data))) ==> State() == old(State())
      ensures var res := ClientApi.Api(reply);
              (id != "" && res.ok && JsSem.Truthy(res.data) && ListField(res.data, "hosts").Some?) ==>
                State() == old(State()).(currentBatchId := GetOrNull(res.data, "batch_id"),
                                         rows := ListField(res.data, "hosts").value,
                                         selection := RowKeys(ListField(res.data, "hosts").value), results := map[])
      ensures var res := ClientApi.Api(reply);
              (id != "" && res.ok && JsSem.Truthy(res.data) && ListField(res.data, "hosts").None?) ==>
                State() == old(State()).(currentBatchId := GetOrNull(res.data, "batch_id"))
    {
      if id == "" {
        return;
      }
      var res := ClientApi.Api(reply);
      if res.ok && JsSem.Truthy(res.data) {
        var _ := ReplaceFromBatch(res.data);
      }
    }

    /** `uploadBatch`: without a chosen file nothing is sent; a successful reply replaces the table. */
    method UploadBatch(hasFile: bool, reply: ClientApi.Fetched)
      modifies this
      ensures var res := ClientApi.Api(reply);
              (!hasFile || !(res.ok && JsSem.Truthy(res.data))) ==> State() == old(State())
      ensures var res := ClientApi.Api(reply);
              (hasFile && res.ok && JsSem.Truthy(res.data) && ListField(res.data, "hosts").Some?) ==>
                State() == old(State()).(currentBatchId := GetOrNull(res.data, "batch_id"),
                                         rows := ListField(res.data, "hosts").value,
                                         selection := RowKeys(ListField(res.data, "hosts").value), results := map[])
      ensures var res := ClientApi.Api(reply);
              (hasFile && res.ok && JsSem.Truthy(res.data) && ListField(res.data, "hosts").None?) ==>
                State() == old(State()).(currentBatchId := GetOrNull(res.data, "batch_id"))
    {
      if !hasFile {
        return;
      }
      var res := ClientApi.Api(reply);
      if res.ok && JsSem.Truthy(res.data) {
        var _ := ReplaceFromBatch(res.data);
      }
    }

    /** `Array.from(State.batchSelection)`: the selected ids, each once. */
    method SelectedIds() returns (ids: seq<string>)
      ensures NoDup(ids) && forall x :: x in ids <==> x in selection
    {
      ids := [];
      var rest := selection;
      while rest != {}
        invariant rest <= selection && NoDup(ids)
        invariant forall x :: x in ids <==> x in selection && x !in rest
        decreases rest
      {
        var id :| id in rest;
        ids := ids + [id];
        rest := rest - {id};
      }
    }

    /** `batchResults[String(r.item_id)] = r` for each returned result, in order. */
    method MergeRunResults(rs: seq<Value>)
      modifies this
      ensures State() == old(State()).(results := MergeResults(old(results), rs))
    {
      var i := 0;
      while i < |rs|
        invariant 0 <= i <= |rs|
        invariant results == MergeResults(old(results), rs[..i])
        invariant State() == old(State()).(results := results)
      {
        assert rs[..i + 1][..i] == rs[..i];
        results := results[RowKey(rs[i]) := rs[i]];
        i := i + 1;
      }
      assert rs[..|rs|] == rs;
    }

    /**
     * `runBatch`: with no rows or no selection nothing is sent; otherwise the payload names the
     * selected ids and sets `register_server` from the mode, and a successful reply's results are
     * merged by id. A missing `currentBatchId` is sent as it is.
     */
    method RunBatch(action: string, mode: string, webUrl: string, jmxText: string, reply: ClientApi.Fetched)
      returns (sent: Option<Value>)
      modifies this
      ensures (old(rows) == [] || old(selection) == {}) ==> sent.None? && State() == old(State())
      ensures (old(rows) != [] && old(selection) != {}) ==>
                sent.Some? &&
                IsRunPayload(sent.value, old(currentBatchId), old(selection), action, old(selectedTplIds),
                             old(selectedGrpIds), old(selectedProxyId), webUrl, jmxText, mode, false)
      ensures var rs := ListField(ClientApi.Api(reply).data, "results");
              (old(rows) != [] && old(selection) != {} && ClientApi.Api(reply).ok && rs.Some?) ==>
                State() == old(State()).(results := MergeResults(old(results), rs.value),
                                         selection := old(selection) * RowKeys(old(rows)))
      // a failed reply, or `results` that `forEach` throws on, changes nothing
      ensures !ClientApi.Api(reply).ok || ListField(ClientApi.Api(reply).data, "results").None? ==>
                State() == old(State())
    {
      sent := Prepare(action, mode, webUrl, jmxText);
      if sent.None? {
        return;
      }
      var res := ClientApi.Api(reply);
      var rs := ListField(res.data, "results");
      if res.ok && rs.Some? {
        MergeRunResults(rs.value);
        PruneSelection();
      }
    }

    /** The precondition check and payload of `runBatch`, before anything is sent. */
    method Prepare(action: string, mode: string, webUrl: string, jmxText: string) returns (sent: Option<Value>)
      ensures sent.None? <==> rows == [] || selection == {}
      ensures sent.Some? ==>
        IsRunPayload(sent.value, currentBatchId, selection, action, selectedTplIds,
                     selectedGrpIds, selectedProxyId, webUrl, jmxText, mode, false)
    {
      if rows == [] {
        return None;
      }
      var ids := SelectedIds();
      if ids == [] {
        assert selection == {};
        return None;
      }
      assert selection != {} by { assert ids[0] in selection; }
      var payload := RunPayload(currentBatchId, ids, action, selectedTplIds, selectedGrpIds,
                                selectedProxyId, webUrl, jmxText, mode, false);
      RunPayloadOf(ids, currentBatchId, selection, action, selectedTplIds, selectedGrpIds,
                   selectedProxyId, webUrl, jmxText, mode, false);
      sent := Some(payload);
    }
  }
}
