/** The data preview table: headers from the first row, the first `limit`
    rows, a caption "Showing k of n rows", and one text per cell. */
module DataTable {
  import opened Prelude
  import opened DataModel
  import JsText

  const DefaultLimit: int := 10

  /** What the component renders: the "No data available" card, or a preview. */
  datatype View =
    | NoData
    | Preview(headers: seq<string>, cells: seq<seq<string>>, shown: nat, total: nat)

  /** `row[header]?.toString() || ''`: a missing or null value, and a value
      whose text is empty, render as the empty string. */
  function CellText(row: Row, header: string): (t: string)
    ensures Lookup(row.fields, header).None? ==> t == ""
    ensures Lookup(row.fields, header) == Some(Null) ==> t == ""
    ensures forall s :: Lookup(row.fields, header) == Some(Shown(s)) ==> t == s
  {
    match Lookup(row.fields, header)
    case Some(Shown(s)) => s
    case _ => ""
  }

  /** The texts of one row under the given headers. */
  function RowTexts(row: Row, headers: seq<string>): (r: seq<string>)
    ensures |r| == |headers|
    ensures forall j :: 0 <= j < |headers| ==> r[j] == CellText(row, headers[j])
  {
    seq(|headers|, j requires 0 <= j < |headers| => CellText(row, headers[j]))
  }

  /** The component for props `data` and `limit` (`limit` defaults to 10). */
  function Render(data: Option<seq<Row>>, limit: Option<int>): (v: View)
    ensures v.NoData? <==> data.None? || data.value == []
    ensures v.Preview? ==> v.headers == Keys(data.value[0])
    ensures v.Preview? ==> v.total == |data.value| && v.shown == |v.cells|
    ensures v.Preview? ==> v.shown == JsText.SliceEnd(|data.value|, limit.GetOr(DefaultLimit))
    ensures v.Preview? ==> forall i :: 0 <= i < v.shown ==> v.cells[i] == RowTexts(data.value[i], v.headers)
  {
    if data.None? || data.value == [] then NoData
    else
      var rows := data.value;
      var headers := Keys(rows[0]);
      var display := rows[..JsText.SliceEnd(|rows|, limit.GetOr(DefaultLimit))];
      Preview(headers, seq(|display|, i requires 0 <= i < |display| => RowTexts(display[i], headers)),
              |display|, |rows|)
  }

  /** With a non-negative limit the table shows min(limit, n) rows: every row
      when there are at most `limit` of them, exactly `limit` otherwise. */
  lemma ShownRows(data: seq<Row>, limit: Option<int>)
    requires data != [] && 0 <= limit.GetOr(DefaultLimit)
    ensures Render(Some(data), limit).shown <= Render(Some(data), limit).total
    ensures |data| <= limit.GetOr(DefaultLimit) ==> Render(Some(data), limit).shown == |data|
    ensures limit.GetOr(DefaultLimit) < |data| ==> Render(Some(data), limit).shown == limit.GetOr(DefaultLimit)
  {
  }

  /** A negative limit, as `Array.prototype.slice` reads it, drops that many
      rows from the end. */
  lemma NegativeLimitDropsFromEnd(data: seq<Row>, k: int)
    requires data != [] && 0 < k
    ensures Render(Some(data), Some(-k)).shown == if k < |data| then |data| - k else 0
  {
  }
}
