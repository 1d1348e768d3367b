/** The Data tab: which rows and which row/column counts it shows, chosen
    from the selected sample dataset or the uploaded data. */
module DataTab {
  import opened Prelude
  import opened DataModel
  import DataTable

  /** The tab's `data` and `dataInfo` state. */
  datatype DataInfo = DataInfo(data: seq<Row>, rows: int, columns: int)

  /** `selectedDataset` is truthy and names a sample (arrays are truthy,
      the empty one included). */
  predicate IsKnownSample(selectedDataset: Option<string>) {
    selectedDataset.Some? && selectedDataset.value != "" && selectedDataset.value in SampleData()
  }

  /** The effect run whenever `selectedDataset` or `uploadedData` changes. */
  function SelectData(selectedDataset: Option<string>, uploadedData: Option<UploadedData>): (r: DataInfo)
    ensures IsKnownSample(selectedDataset) ==>
      && r.data == SampleData()[selectedDataset.value]
      && r.rows == |r.data|
      && r.columns == (if r.data == [] then 0 else |Keys(r.data[0])|)
    ensures !IsKnownSample(selectedDataset) && uploadedData.Some? ==>
      && r.data == uploadedData.value.data.GetOr([])
      && r.rows == uploadedData.value.rows.GetOr(0)
      && r.columns == uploadedData.value.columns.GetOr(0)
    ensures !IsKnownSample(selectedDataset) && uploadedData.None? ==> r == DataInfo([], 0, 0)
  {
    if IsKnownSample(selectedDataset) then
      var rows := SampleData()[selectedDataset.value];
      DataInfo(rows, |rows|, if rows == [] then 0 else |Keys(rows[0])|)
    else if uploadedData.Some? then
      var u := uploadedData.value;
      DataInfo(u.data.GetOr([]), u.rows.GetOr(0), u.columns.GetOr(0))
    else
      DataInfo([], 0, 0)
  }

  /** For a sample dataset the counts the tab reports agree with the table it
      renders (`<DataTable data={data} limit={100} />`): the row count is the
      table's total and the column count its number of headers. */
  lemma SampleCountsMatchTable(name: string, upload: Option<UploadedData>)
    requires IsKnownSample(Some(name))
    requires SampleData()[name] != []
    ensures var info := SelectData(Some(name), upload);
      var view := DataTable.Render(Some(info.data), Some(100));
      view.Preview? && view.total == info.rows && |view.headers| == info.columns
  {
  }

  /** The attitude sample has 10 rows of 7 columns, whatever was uploaded. */
  lemma AttitudeInfo(upload: Option<UploadedData>)
    ensures SelectData(Some("attitude"), upload).rows == 10
    ensures SelectData(Some("attitude"), upload).columns == 7
  {
  }

  /** A name that is not a sample falls through to the upload. */
  lemma UnknownNameUsesUpload(name: string, upload: UploadedData)
    requires name !in SampleData()
    ensures SelectData(Some(name), Some(upload)).data == upload.data.GetOr([])
  {
  }
}
