/** Tabular data as the components exchange it: rows of key/value fields
    (`Record<string, any>`), the record an upload produces, and the built-in
    sample data of src/lib/demoData.ts. */
module DataModel {
  import opened Prelude

  /** A cell value. `Shown` carries the text the value's `toString()` gives;
      `Null` is a JavaScript null. */
  datatype CellValue = Null | Shown(text: string)

  datatype Field = Field(key: string, value: CellValue)

  /** One row object; its fields are in property-insertion order. */
  datatype Row = Row(fields: seq<Field>)

  /** `Object.keys(row)` */
  function Keys(row: Row): (ks: seq<string>)
    ensures |ks| == |row.fields|
    ensures forall i :: 0 <= i < |ks| ==> ks[i] == row.fields[i].key
  {
    seq(|row.fields|, i requires 0 <= i < |row.fields| => row.fields[i].key)
  }

  /** `row[key]`: the value of the first field with that key, if any. */
  function Lookup(fields: seq<Field>, key: string): (r: Option<CellValue>)
    ensures r.None? <==> forall i :: 0 <= i < |fields| ==> fields[i].key != key
    ensures r.Some? ==> exists i :: 0 <= i < |fields| && fields[i].key == key && fields[i].value == r.value
  {
    if fields == [] then None
    else if fields[0].key == key then Some(fields[0].value)
    else
      var r := Lookup(fields[1..], key);
      assert r.Some? ==> exists i :: 0 <= i < |fields| && fields[i].key == key && fields[i].value == r.value by {
        if r.Some? {
          var j :| 0 <= j < |fields[1..]| && fields[1..][j].key == key && fields[1..][j].value == r.value;
          assert fields[j + 1] == fields[1..][j];
        }
      }
      r
  }

  /** The object handed to `onDataUploaded`; `rows`, `columns` and `data` may
      be missing on an arbitrary object, hence optional. */
  datatype UploadedData = UploadedData(name: string, rows: Option<int>, columns: Option<int>, data: Option<seq<Row>>)

  function AttitudeRow(rating: string, complaints: string, privileges: string, learning: string,
                       raises: string, critical: string, advance: string): Row
  {
    Row([Field("rating", Shown(rating)), Field("complaints", Shown(complaints)),
         Field("privileges", Shown(privileges)), Field("learning", Shown(learning)),
         Field("raises", Shown(raises)), Field("critical", Shown(critical)),
         Field("advance", Shown(advance))])
  }

  /** The ten-row `attitude` sample. */
  function Attitude(): seq<Row> {
    [ AttitudeRow("43", "51", "30", "39", "61", "92", "45"),
      AttitudeRow("63", "64", "51", "54", "63", "73", "47"),
      AttitudeRow("71", "70", "68", "69", "76", "86", "48"),
      AttitudeRow("61", "63", "45", "47", "54", "84", "35"),
      AttitudeRow("81", "78", "56", "66", "71", "83", "47"),
      AttitudeRow("43", "55", "49", "44", "54", "49", "34"),
      AttitudeRow("58", "67", "42", "56", "66", "68", "35"),
      AttitudeRow("71", "75", "50", "55", "70", "66", "41"),
      AttitudeRow("72", "82", "72", "67", "71", "83", "31"),
      AttitudeRow("67", "61", "45", "47", "62", "80", "41") ]
  }

  /** `sampleData`: dataset name to its rows. */
  function SampleData(): map<string, seq<Row>> {
    map["attitude" := Attitude()]
  }
}
