/**
 * The response envelope of the Tushare HTTP API and the read-only views built
 * on it (types.go): positional rows turned into records, and a data frame whose
 * accessors never fail.
 */
module Types {
  import opened Wrappers

  /**
   * A value held in Go's `interface{}`: what a row cell or a request parameter
   * can be. Numbers are exact; Go's float rounding is not modelled.
   */
  datatype Value =
    | Nil
    | String(s: string)
    | Float64(x: real)
    | Float32(x: real)
    | Int(i: int)
    | Int64(i: int)
    | Bool(b: bool)
    | Composite       // a JSON array or object

  type Row = seq<Value>

  /** A row keyed by field name (Go's `map[string]interface{}`). */
  type Record = map<string, Value>

  datatype ResponseData = ResponseData(fields: seq<string>, items: seq<Row>, hasMore: bool)

  /** The envelope every exchange returns; `data` is None where Go's pointer is nil. */
  datatype Response = Response(code: int, msg: string, data: Option<ResponseData>)
  {
    /** A response succeeded exactly when its code is 0 (types.go:33-35). */
    predicate IsSuccess()
    {
      code == 0
    }

    /**
     * The rows as records (types.go:38-53): None when there is no data, else one
     * record per row, in row order, each filled by walking the field list.
     */
    method ToRecords() returns (records: Option<seq<Record>>)
      ensures data.None? <==> records.None?
      ensures data.Some? ==> |records.value| == |data.value.items|
      ensures data.Some? ==> records.value == Records(data.value)
    {
      if data.None? {
        return None;
      }
      var d := data.value;
      var out: seq<Record> := [];
      for i := 0 to |d.items|
        invariant |out| == i
        invariant forall k :: 0 <= k < i ==> out[k] == RowRecord(d.fields, d.items[k])
      {
        var item := d.items[i];
        var record: Record := map[];
        for j := 0 to |d.fields|
          invariant record == RecordPrefix(d.fields, item, j)
        {
          if j < |item| {
            record := record[d.fields[j] := item[j]];
          }
        }
        out := out + [record];
      }
      return Some(out);
    }
  }

  /**
   * The errors the client hands back. `APIError` is types.go's business error;
   * the others stand for the errors client.go produces or passes on.
   */
  datatype Error =
    | TransportError(detail: string)            // a failed HTTP exchange (client.go:369-403)
    | RetryableAPIError(code: int, msg: string) // "api error: code=…" built for a rate limit (client.go:337)
    | APIError(code: int, msg: string)          // types.go:23-30
    | ContextError                              // the caller's context was done
    | Permanent(inner: Error)                   // an error marked as not to be retried

  /** The record the inner loop of ToRecords has built after visiting the first n fields. */
  function RecordPrefix(fields: seq<string>, row: Row, n: nat): Record
    requires n <= |fields|
  {
    if n == 0 then map[]
    else
      var m := RecordPrefix(fields, row, n - 1);
      if n - 1 < |row| then m[fields[n - 1] := row[n - 1]] else m
  }

  /** One row zipped with the field list. */
  function RowRecord(fields: seq<string>, row: Row): Record
  {
    RecordPrefix(fields, row, |fields|)
  }

  /** All rows zipped with the field list, in row order. */
  function Records(d: ResponseData): seq<Record>
  {
    seq(|d.items|, i requires 0 <= i < |d.items| => RowRecord(d.fields, d.items[i]))
  }

  /** Position j is the last one below n (and below the row's length) that names its field. */
  ghost predicate LastNaming(fields: seq<string>, row: Row, n: nat, j: nat)
    requires j < n <= |fields|
  {
    forall j' :: j < j' < n && j' < |row| ==> fields[j'] != fields[j]
  }

  /**
   * The zip of a row with its fields has as keys exactly the fields at the
   * positions the row covers: short rows omit trailing fields and extra values
   * are dropped.
   */
  lemma {:induction false} RecordPrefixKeys(fields: seq<string>, row: Row, n: nat)
    requires n <= |fields|
    ensures RecordPrefix(fields, row, n).Keys == set j | 0 <= j < n && j < |row| :: fields[j]
  {
    if n > 0 {
      RecordPrefixKeys(fields, row, n - 1);
      if n - 1 < |row| {
        assert (set j | 0 <= j < n && j < |row| :: fields[j])
          == (set j | 0 <= j < n - 1 && j < |row| :: fields[j]) + {fields[n - 1]};
      } else {
        assert (set j | 0 <= j < n && j < |row| :: fields[j])
          == (set j | 0 <= j < n - 1 && j < |row| :: fields[j]);
      }
    }
  }

  /**
   * Each covered field maps to the row value at its last covered position, so
   * a repeated field name keeps the later value.
   */
  lemma {:induction false} RecordPrefixValues(fields: seq<string>, row: Row, n: nat)
    requires n <= |fields|
    ensures forall j :: 0 <= j < n && j < |row| && LastNaming(fields, row, n, j) ==>
      fields[j] in RecordPrefix(fields, row, n) && RecordPrefix(fields, row, n)[fields[j]] == row[j]
  {
    if n > 0 {
      RecordPrefixValues(fields, row, n - 1);
      forall j | 0 <= j < n && j < |row| && LastNaming(fields, row, n, j)
        ensures fields[j] in RecordPrefix(fields, row, n) && RecordPrefix(fields, row, n)[fields[j]] == row[j]
      {
        if j < n - 1 {
          assert LastNaming(fields, row, n - 1, j);
          if n - 1 < |row| {
            assert fields[n - 1] != fields[j];
          }
        }
      }
    }
  }

  /** Both halves of the zip's meaning at the full field list. */
  lemma RecordPrefixMeaning(fields: seq<string>, row: Row, n: nat)
    requires n <= |fields|
    ensures RecordPrefix(fields, row, n).Keys == set j | 0 <= j < n && j < |row| :: fields[j]
    ensures forall j :: 0 <= j < n && j < |row| && LastNaming(fields, row, n, j) ==>
      RecordPrefix(fields, row, n)[fields[j]] == row[j]
  {
    RecordPrefixKeys(fields, row, n);
    RecordPrefixValues(fields, row, n);
  }

  /** With distinct field names, record i maps field j to row value j for every covered j. */
  lemma RowRecordDistinct(fields: seq<string>, row: Row)
    requires forall a, b :: 0 <= a < b < |fields| ==> fields[a] != fields[b]
    ensures RowRecord(fields, row).Keys == set j | 0 <= j < |fields| && j < |row| :: fields[j]
    ensures forall j :: 0 <= j < |fields| && j < |row| ==> RowRecord(fields, row)[fields[j]] == row[j]
  {
    RecordPrefixMeaning(fields, row, |fields|);
  }

  /** A read-only table of records (types.go:67-70). */
  datatype DataFrame = DataFrame(columns: seq<string>, data: seq<Record>)
  {
    /** The number of rows (types.go:87-89). */
    function Len(): int
    {
      |data|
    }

    /**
     * The value at (row, col) and whether it is there (types.go:92-98): never
     * fails; an out-of-range row or a missing column gives (nil, false).
     */
    function Get(row: int, col: string): (r: (Value, bool))
      ensures !(0 <= row < Len()) ==> r == (Nil, false)
      ensures 0 <= row < Len() ==> (r.1 <==> col in data[row])
      ensures r.1 ==> 0 <= row < Len() && r.0 == data[row][col]
      ensures !r.1 ==> r.0 == Nil
    {
      if row < 0 || row >= |data| then (Nil, false)
      else if col in data[row] then (data[row][col], true)
      else (Nil, false)
    }

    /**
     * The value as text (types.go:101-112): "" when absent or nil, a string
     * unchanged, anything else through `format` (Go's "%v").
     */
    function GetString(row: int, col: string, format: Value -> string): (s: string)
      ensures !Get(row, col).1 || Get(row, col).0 == Nil ==> s == ""
      ensures Get(row, col).1 && Get(row, col).0.String? ==> s == Get(row, col).0.s
    {
      var (v, ok) := Get(row, col);
      if !ok || v == Nil then ""
      else match v
        case String(t) => t
        case _ => format(v)
    }

    /**
     * The value as a float (types.go:115-136): 0 when absent or nil, numbers
     * unchanged, strings through `scan` (Go's Sscanf "%f"), 0 for other types.
     */
    function GetFloat64(row: int, col: string, scan: string -> real): (x: real)
      ensures !Get(row, col).1 ==> x == 0.0
      ensures Get(row, col).1 && Get(row, col).0 == Nil ==> x == 0.0
      ensures Get(row, col).1 && (Get(row, col).0.Float64? || Get(row, col).0.Float32?) ==> x == Get(row, col).0.x
      ensures Get(row, col).1 && (Get(row, col).0.Int? || Get(row, col).0.Int64?) ==> x == Get(row, col).0.i as real
      ensures Get(row, col).1 && Get(row, col).0.String? ==> x == scan(Get(row, col).0.s)
      ensures Get(row, col).1 && (Get(row, col).0.Bool? || Get(row, col).0.Composite?) ==> x == 0.0
    {
      var (v, ok) := Get(row, col);
      if !ok then 0.0 else Numeric(v, scan)
    }

    /** The float value truncated toward zero (types.go:139-141). */
    function GetInt(row: int, col: string, scan: string -> real): (n: int)
      ensures var x := GetFloat64(row, col, scan);
        (0.0 <= x ==> n as real <= x < n as real + 1.0) &&
        (x < 0.0 ==> n as real - 1.0 < x <= n as real)
    {
      Truncate(GetFloat64(row, col, scan))
    }
  }

  /** The number a value stands for in GetFloat64's type switch; nil and other types stand for 0. */
  function Numeric(v: Value, scan: string -> real): real
  {
    match v
    case Float64(f) => f
    case Float32(f) => f
    case Int(i) => i as real
    case Int64(i) => i as real
    case String(t) => scan(t)
    case _ => 0.0
  }

  /** Go's float-to-int conversion: truncation toward zero. */
  function Truncate(x: real): int
  {
    if x >= 0.0 then x.Floor else -((-x).Floor)
  }

  /** The frame of a response (types.go:73-84): empty without data, else its fields and records. */
  function NewDataFrame(resp: Response): (df: DataFrame)
    ensures resp.data.None? ==> df == DataFrame([], [])
    ensures resp.data.Some? ==> df.columns == resp.data.value.fields
    ensures resp.data.Some? ==> df.Len() == |resp.data.value.items|
    ensures resp.data.Some? ==> forall i :: 0 <= i < df.Len() ==>
      df.data[i] == RowRecord(resp.data.value.fields, resp.data.value.items[i])
  {
    if resp.data.None? then DataFrame([], [])
    else DataFrame(resp.data.value.fields, Records(resp.data.value))
  }

  /**
   * Reading a cell back through the frame gives the row's own value: for row i
   * and a field j the row covers, named nowhere later in the covered part,
   * Get yields (items[i][j], true), a string reads back unchanged and a number
   * reads back as itself.
   */
  lemma DataFrameReadsBack(resp: Response, i: nat, j: nat, format: Value -> string, scan: string -> real)
    requires resp.data.Some?
    requires i < |resp.data.value.items|
    requires j < |resp.data.value.fields| && j < |resp.data.value.items[i]|
    requires LastNaming(resp.data.value.fields, resp.data.value.items[i], |resp.data.value.fields|, j)
    ensures var df := NewDataFrame(resp); var v := resp.data.value.items[i][j];
      && df.Get(i, resp.data.value.fields[j]) == (v, true)
      && (v.String? ==> df.GetString(i, resp.data.value.fields[j], format) == v.s)
      && (v.Float64? ==> df.GetFloat64(i, resp.data.value.fields[j], scan) == v.x)
      && (v.Int? ==> df.GetInt(i, resp.data.value.fields[j], scan) == v.i)
  {
    var d := resp.data.value;
    RecordPrefixMeaning(d.fields, d.items[i], |d.fields|);
    assert d.fields[j] in RowRecord(d.fields, d.items[i]).Keys;
  }

  /** A column no field names reads as absent in every row: (nil, false), "" and 0. */
  lemma DataFrameMissingColumn(resp: Response, row: int, col: string, format: Value -> string, scan: string -> real)
    requires resp.data.Some? ==> col !in resp.data.value.fields
    ensures var df := NewDataFrame(resp);
      && df.Get(row, col) == (Nil, false)
      && df.GetString(row, col, format) == ""
      && df.GetFloat64(row, col, scan) == 0.0
      && df.GetInt(row, col, scan) == 0
  {
    if resp.data.Some? && 0 <= row < |resp.data.value.items| {
      var d := resp.data.value;
      RecordPrefixMeaning(d.fields, d.items[row], |d.fields|);
    }
  }
}
