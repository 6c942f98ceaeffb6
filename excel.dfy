/**
 * Reading a host sheet into install requests (excel.py `parse_excel`). The workbook is an
 * abstract grid of cell values, row by row; the first row holds the headers. A data row becomes
 * a request (its field/value pairs, as `InstallRequest(**data)` receives them) when its hostname
 * and ip cells are both truthy.
 */
module Excel {
  import opened Wrappers
  import opened Json
  import PySem

  /** `{cell.value: idx for idx, cell in enumerate(first_row)}`: a repeated header keeps its last column. */
  function HeaderIndex(header: seq<Value>): (m: map<Value, nat>)
    ensures forall v :: v in m <==> v in header
    ensures forall v :: v in m ==> m[v] < |header| && header[m[v]] == v
    ensures forall v, j :: v in m && m[v] < j < |header| ==> header[j] != v
  {
    if header == [] then map[]
    else
      var init := header[..|header| - 1];
      assert header == init + [header[|header| - 1]];
      HeaderIndex(init)[header[|header| - 1] := |header| - 1]
  }

  /** The default column map: every field from the column of its own name, except `os_type` from "os". */
  const DefaultColumns: seq<(string, string)> := [
    ("hostname", "hostname"), ("ip", "ip"), ("os_type", "os"), ("env", "env"), ("port", "port"),
    ("ssh_user", "ssh_user"), ("ssh_password", "ssh_password"), ("ssh_port", "ssh_port"),
    ("visible_name", "visible_name"), ("jmx_port", "jmx_port"), ("template_id", "template_id"),
    ("group_id", "group_id"), ("note", "note")]

  /** `column_map or {...}`. */
  function Columns(columnMap: seq<(string, string)>): seq<(string, string)> {
    if columnMap == [] then DefaultColumns else columnMap
  }

  /** The cell of `row` in column `i` (openpyxl pads every row to the sheet's width; beyond it, None). */
  function Cell(row: seq<Value>, i: nat): Value {
    if i < |row| then row[i] else Null
  }

  /**
   * The `data` dict for one row: each mapped field whose column exists, with that column's cell,
   * in column-map order.
   */
  function RowData(row: seq<Value>, headers: map<Value, nat>, cmap: seq<(string, string)>): seq<(string, Value)>
  {
    if cmap == [] then []
    else
      var last := cmap[|cmap| - 1];
      var init := RowData(row, headers, cmap[..|cmap| - 1]);
      if Str(last.1) in headers then Put(init, last.0, Cell(row, headers[Str(last.1)])) else init
  }

  /** A field whose column is among the headers holds that column's cell (the last mapping of a field wins). */
  lemma {:induction false} RowDataLookup(row: seq<Value>, headers: map<Value, nat>, cmap: seq<(string, string)>, i: nat)
    requires i < |cmap|
    requires forall j :: i < j < |cmap| ==> cmap[j].0 != cmap[i].0
    ensures Str(cmap[i].1) in headers ==> Lookup(RowData(row, headers, cmap), cmap[i].0) == Some(Cell(row, headers[Str(cmap[i].1)]))
    decreases |cmap|
  {
    var init := cmap[..|cmap| - 1];
    var last := cmap[|cmap| - 1];
    var k := cmap[i].0;
    if i < |cmap| - 1 {
      RowDataLookup(row, headers, init, i);
      if Str(last.1) in headers {
        PutOther(RowData(row, headers, init), last.0, Cell(row, headers[Str(last.1)]), k);
      }
    }
  }

  /** A field none of whose columns exists is not set. */
  lemma {:induction false} RowDataAbsent(row: seq<Value>, headers: map<Value, nat>, cmap: seq<(string, string)>, k: string)
    requires forall j :: 0 <= j < |cmap| && cmap[j].0 == k ==> Str(cmap[j].1) !in headers
    ensures Lookup(RowData(row, headers, cmap), k) == None
    decreases |cmap|
  {
    if cmap != [] {
      var init := cmap[..|cmap| - 1];
      var last := cmap[|cmap| - 1];
      RowDataAbsent(row, headers, init, k);
      if Str(last.1) in headers {
        PutOther(RowData(row, headers, init), last.0, Cell(row, headers[Str(last.1)]), k);
      }
    }
  }

  /** `if data.get("hostname") and data.get("ip")`. */
  predicate Admitted(data: seq<(string, Value)>) {
    PySem.Truthy(Lookup(data, "hostname").GetOr(Null)) && PySem.Truthy(Lookup(data, "ip").GetOr(Null))
  }

  /** The requests of the data rows, in sheet order. */
  function Requests(rows: seq<seq<Value>>, headers: map<Value, nat>, cmap: seq<(string, string)>)
    : (r: seq<seq<(string, Value)>>)
    ensures |r| <= |rows|
    ensures forall d :: d in r ==> Admitted(d)
  {
    if rows == [] then []
    else
      var data := RowData(rows[|rows| - 1], headers, cmap);
      Requests(rows[..|rows| - 1], headers, cmap) + if Admitted(data) then [data] else []
  }

  /** Reading is order-preserving: the requests of two blocks of rows are the blocks' requests in turn. */
  lemma {:induction false} RequestsAppend(a: seq<seq<Value>>, b: seq<seq<Value>>, headers: map<Value, nat>,
                                          cmap: seq<(string, string)>)
    ensures Requests(a + b, headers, cmap) == Requests(a, headers, cmap) + Requests(b, headers, cmap)
    decreases |b|
  {
    if b == [] {
      assert a + b == a;
    } else {
      var b' := b[..|b| - 1];
      assert (a + b)[..|a + b| - 1] == a + b';
      assert (a + b)[|a + b| - 1] == b[|b| - 1];
      RequestsAppend(a, b', headers, cmap);
    }
  }

  /** A single row yields a request iff its hostname and ip are truthy. */
  lemma OneRow(row: seq<Value>, headers: map<Value, nat>, cmap: seq<(string, string)>)
    ensures Admitted(RowData(row, headers, cmap)) ==> Requests([row], headers, cmap) == [RowData(row, headers, cmap)]
    ensures !Admitted(RowData(row, headers, cmap)) ==> Requests([row], headers, cmap) == []
  {
    assert [row][..0] == [];
  }

  /**
   * `parse_excel(path, column_map)`: the header row is indexed, then every later row is read in
   * order. A sheet without any row makes `next()` raise, which is None here.
   */
  method ParseExcel(grid: seq<seq<Value>>, columnMap: seq<(string, string)>) returns (r: Option<seq<seq<(string, Value)>>>)
    ensures r.None? <==> grid == []
    ensures r.Some? ==> r.value == Requests(grid[1..], HeaderIndex(grid[0]), Columns(columnMap))
  {
    if grid == [] {
      return None;
    }
    var headers := HeaderIndex(grid[0]);
    var cmap := Columns(columnMap);
    var rows := grid[1..];
    var requests := [];
    for i := 0 to |rows|
      invariant requests == Requests(rows[..i], headers, cmap)
    {
      var data := RowData(rows[i], headers, cmap);
      assert rows[..i + 1][..i] == rows[..i];
      if Admitted(data) {
        requests := requests + [data];
      }
    }
    assert rows[..|rows|] == rows;
    return Some(requests);
  }

  /** With the default map, `os_type` is read from the "os" column. */
  lemma DefaultReadsOs(row: seq<Value>, headers: map<Value, nat>)
    requires Str("os") in headers
    ensures Lookup(RowData(row, headers, DefaultColumns), "os_type") == Some(Cell(row, headers[Str("os")]))
  {
    assert DefaultColumns[2] == ("os_type", "os");
    RowDataLookup(row, headers, DefaultColumns, 2);
  }
}
