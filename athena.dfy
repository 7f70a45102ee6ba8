/** `process_data`: an Athena result set (a header row, then value rows) as one dict per value
    row. Its two copies in the DAG and in the batch script are identical. */
module Athena {
  import opened Wrappers
  import opened Lists

  /** One cell of a result row: `{'VarCharValue': v}`, or `{}` where the value is NULL. */
  datatype Cell = Cell(varCharValue: Option<string>)

  /** The cells of one row, `row['Data']`. */
  type Row = seq<Cell>

  /** A value cell's text; a cell without `VarCharValue` reads as the empty string. */
  function CellText(c: Cell): string
  {
    match c.varCharValue
    case Some(v) => v
    case None => ""
  }

  /** `dict(zip(keys, values))` for lists of equal length. */
  function DictOf(keys: seq<string>, values: seq<string>): map<string, string>
    requires |keys| == |values|
  {
    if keys == [] then map[]
    else DictOf(keys[..|keys| - 1], values[..|keys| - 1])[keys[|keys| - 1] := values[|keys| - 1]]
  }

  /** The dict has exactly the listed keys. */
  lemma {:induction false} DictOfKeys(keys: seq<string>, values: seq<string>)
    requires |keys| == |values|
    ensures DictOf(keys, values).Keys == set j | 0 <= j < |keys| :: keys[j]
  {
    if keys != [] {
      var n := |keys| - 1;
      DictOfKeys(keys[..n], values[..n]);
      assert forall j :: 0 <= j < n ==> keys[..n][j] == keys[j];
    }
  }

  /** A key holds the value paired with its last occurrence. */
  lemma {:induction false} DictOfLast(keys: seq<string>, values: seq<string>, j: nat)
    requires |keys| == |values| && j < |keys|
    requires forall l :: j < l < |keys| ==> keys[l] != keys[j]
    ensures keys[j] in DictOf(keys, values) && DictOf(keys, values)[keys[j]] == values[j]
  {
    var n := |keys| - 1;
    if j < n {
      DictOfLast(keys[..n], values[..n], j);
    }
  }

  /** The dict has exactly the listed keys, and a repeated key keeps its last value. */
  lemma DictOfSpec(keys: seq<string>, values: seq<string>)
    requires |keys| == |values|
    ensures DictOf(keys, values).Keys == set j | 0 <= j < |keys| :: keys[j]
    ensures forall j :: 0 <= j < |keys| && (forall l :: j < l < |keys| ==> keys[l] != keys[j])
                        ==> DictOf(keys, values)[keys[j]] == values[j]
  {
    DictOfKeys(keys, values);
    forall j | 0 <= j < |keys| && (forall l :: j < l < |keys| ==> keys[l] != keys[j])
      ensures DictOf(keys, values)[keys[j]] == values[j]
    {
      DictOfLast(keys, values, j);
    }
  }

  /** `dict(zip(keys, values))`: pairing stops at the end of the shorter list. */
  function ZipToDict(keys: seq<string>, values: seq<string>): map<string, string>
  {
    var n := Min(|keys|, |values|);
    DictOf(keys[..n], values[..n])
  }

  /** The dict of a zip has exactly the keys paired with some value, and each key maps to the
      value at its last position among the paired ones. */
  lemma ZipToDictSpec(keys: seq<string>, values: seq<string>, k: string)
    ensures k in ZipToDict(keys, values) <==> exists j :: 0 <= j < |keys| && j < |values| && keys[j] == k
    ensures forall j :: 0 <= j < |keys| && j < |values| && keys[j] == k
                        && (forall l :: j < l < Min(|keys|, |values|) ==> keys[l] != k)
                        ==> ZipToDict(keys, values)[k] == values[j]
  {
    var n := Min(|keys|, |values|);
    DictOfSpec(keys[..n], values[..n]);
    assert forall j :: 0 <= j < n ==> keys[..n][j] == keys[j] && values[..n][j] == values[j];
  }

  /** `[col['VarCharValue'] for col in header]`: a header cell without a value raises KeyError. */
  function Columns(header: Row): (r: Result<seq<string>, PyError>)
    ensures r.Success? <==> forall c :: c in header ==> c.varCharValue.Some?
    ensures r.Failure? ==> r.error == KeyError("VarCharValue")
    ensures r.Success? ==> |r.value| == |header|
                           && forall j :: 0 <= j < |header| ==> Some(r.value[j]) == header[j].varCharValue
  {
    if forall c :: c in header ==> c.varCharValue.Some? then
      Success(seq(|header|, j requires 0 <= j < |header| => header[j].varCharValue.value))
    else Failure(KeyError("VarCharValue"))
  }

  /** The loops of `process_data`. An empty result set (no header row) raises IndexError. */
  method ProcessData(rows: seq<Row>) returns (r: Result<seq<map<string, string>>, PyError>)
    ensures rows == [] ==> r == Failure(IndexError)
    ensures rows != [] ==> (r.Success? <==> forall c :: c in rows[0] ==> c.varCharValue.Some?)
    ensures rows != [] && r.Failure? ==> r.error == KeyError("VarCharValue")
    ensures r.Success? ==> rows != [] && Columns(rows[0]).Success?
                           && |r.value| == |rows| - 1
                           && forall j :: 0 <= j < |r.value| ==>
                                r.value[j] == ZipToDict(Columns(rows[0]).value, Each(CellText, rows[j + 1]))
  {
    if rows == [] {
      return Failure(IndexError);
    }
    var header := Columns(rows[0]);
    if header.Failure? {
      return Failure(header.error);
    }
    var columns := header.value;
    var listedResults: seq<map<string, string>> := [];
    for n := 1 to |rows|
      invariant |listedResults| == n - 1
      invariant forall j :: 0 <= j < n - 1 ==> listedResults[j] == ZipToDict(columns, Each(CellText, rows[j + 1]))
    {
      var row := rows[n];
      var values: seq<string> := [];
      for k := 0 to |row|
        invariant values == Each(CellText, row[..k])
      {
        match row[k].varCharValue {
          case Some(v) => values := values + [v];
          case None => values := values + [""];
        }
      }
      assert row[..|row|] == row;
      listedResults := listedResults + [ZipToDict(columns, values)];
    }
    return Success(listedResults);
  }
}
