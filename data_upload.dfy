/** The upload box: drag highlighting, the file-name check, and the
    simulated upload record handed to the parent. */
module DataUpload {
  import opened Prelude
  import JsText
  import DataModel
  import DataTab

  /** The part of a `File` the component reads. */
  datatype FileInfo = FileInfo(name: string)

  /** The only accepted endings; the comparison is case-sensitive. */
  predicate IsAccepted(name: string) {
    JsText.EndsWith(name, ".csv") || JsText.EndsWith(name, ".tsv") || JsText.EndsWith(name, ".xlsx")
  }

  /** A file name that ends in an accepted extension is accepted whatever
      comes before it, and an upper-case extension is not accepted. */
  lemma AcceptedExtensions(stem: string)
    ensures IsAccepted(stem + ".csv") && IsAccepted(stem + ".tsv") && IsAccepted(stem + ".xlsx")
    ensures !IsAccepted(stem + ".CSV")
  {
    var s := stem + ".CSV";
    assert s[|s| - 3..] == "CSV";
    assert s[|s| - 4..] == ".CSV";
  }

  /** The record `onDataUploaded` receives: 200 rows, 15 columns, no data. */
  function MockUpload(f: FileInfo): (u: DataModel.UploadedData)
    ensures u.name == f.name && u.rows == Some(200) && u.columns == Some(15) && u.data == Some([])
  {
    DataModel.UploadedData(f.name, Some(200), Some(15), Some([]))
  }

  /** With no sample dataset chosen, the Data tab shows the upload's counts
      and an empty table. */
  lemma UploadShownInDataTab(f: FileInfo)
    ensures DataTab.SelectData(None, Some(MockUpload(f))) == DataTab.DataInfo([], 200, 15)
  {
  }

  /** `dragActive` after an event of the given type. */
  function DragActiveAfter(active: bool, eventType: string): (r: bool)
    ensures eventType == "dragenter" || eventType == "dragover" ==> r
    ensures eventType == "dragleave" ==> !r
    ensures eventType != "dragenter" && eventType != "dragover" && eventType != "dragleave" ==> r == active
  {
    if eventType == "dragenter" || eventType == "dragover" then true
    else if eventType == "dragleave" then false
    else active
  }

  class DataUpload {
    var dragActive: bool
    var file: Option<FileInfo>
    /** The values `onDataUploaded` was called with, oldest first. */
    var uploads: seq<DataModel.UploadedData>

    constructor ()
      ensures !dragActive && file.None? && uploads == []
    {
      dragActive := false;
      file := None;
      uploads := [];
    }

    method HandleDrag(eventType: string)
      modifies this
      ensures dragActive == DragActiveAfter(old(dragActive), eventType)
      ensures file == old(file) && uploads == old(uploads)
    {
      if eventType == "dragenter" || eventType == "dragover" {
        dragActive := true;
      } else if eventType == "dragleave" {
        dragActive := false;
      }
    }

    /** `handleFile`: a refused name changes nothing; an accepted file
        becomes the current file and is reported once. */
    method HandleFile(f: FileInfo)
      modifies this
      ensures !IsAccepted(f.name) ==> file == old(file) && uploads == old(uploads)
      ensures IsAccepted(f.name) ==> file == Some(f) && uploads == old(uploads) + [MockUpload(f)]
      ensures dragActive == old(dragActive)
    {
      if !JsText.EndsWith(f.name, ".csv") && !JsText.EndsWith(f.name, ".tsv") && !JsText.EndsWith(f.name, ".xlsx") {
        return;
      }
      file := Some(f);
      uploads := uploads + [DataModel.UploadedData(f.name, Some(200), Some(15), Some([]))];
    }

    /** `handleDrop`: ends the drag and handles the first dropped file. */
    method HandleDrop(files: seq<FileInfo>)
      modifies this
      ensures !dragActive
      ensures files == [] ==> file == old(file) && uploads == old(uploads)
      ensures files != [] && !IsAccepted(files[0].name) ==> file == old(file) && uploads == old(uploads)
      ensures files != [] && IsAccepted(files[0].name) ==>
        file == Some(files[0]) && uploads == old(uploads) + [MockUpload(files[0])]
    {
      dragActive := false;
      if files != [] {
        HandleFile(files[0]);
      }
    }

    /** `handleFileChange`: the file picker's first file, if any. */
    method HandleFileChange(files: seq<FileInfo>)
      modifies this
      ensures dragActive == old(dragActive)
      ensures files == [] ==> file == old(file) && uploads == old(uploads)
      ensures files != [] && !IsAccepted(files[0].name) ==> file == old(file) && uploads == old(uploads)
      ensures files != [] && IsAccepted(files[0].name) ==>
        file == Some(files[0]) && uploads == old(uploads) + [MockUpload(files[0])]
    {
      if files != [] {
        HandleFile(files[0]);
      }
    }

    method RemoveFile()
      modifies this
      ensures file.None?
      ensures dragActive == old(dragActive) && uploads == old(uploads)
    {
      file := None;
    }
  }
}
