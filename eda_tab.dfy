/** The exploratory-analysis tab: six analyses, each with its R script and
    its last result. An analysis runs when the data first arrives (the basic
    one), when its tab is opened, or on retry; a run that succeeds is also
    recorded for the report. The R execution is outside the model: its
    outcome is a parameter, and a run is split at the `await` into a start
    and a finish. */
module EdaTab {
  import opened Prelude
  import DataModel

  datatype Analysis = Basic | Summary | Table1 | Categorical | Numerical | Correlation

  /** `AnalysisResult`; `plot` and `error` are the optional fields. */
  datatype AnalysisResult = AnalysisResult(code: string, output: string, plot: Option<string>,
                                           error: Option<string>, loading: bool)

  /** What the R execution gives back: a result object, or a thrown value
      (`message` is the message of an `Error`, absent for anything else). */
  datatype RunOutcome =
    | Ran(success: bool, output: Option<string>, plot: Option<string>, error: Option<string>)
    | Threw(message: Option<string>)

  /** The record handed to `apiService.addGeneratedCode`. */
  datatype GeneratedCode = GeneratedCode(title: string, code: string, output: string,
                                         plot: Option<string>, tabSource: string)

  const SuccessText: string := "Analysis completed successfully."
  const FailureText: string := "An error occurred during analysis"
  const UnknownErrorText: string := "An unknown error occurred"
  const EdaTabSource: string := "EDA Tab"

  /** The tab value of each analysis. */
  function TabName(a: Analysis): string {
    match a
    case Basic => "basic"
    case Summary => "summary"
    case Table1 => "table1"
    case Categorical => "categorical"
    case Numerical => "numerical"
    case Correlation => "correlation"
  }

  /** The `switch (tabName)`: which analysis a tab name selects, if any. */
  function ParseTab(name: string): (r: Option<Analysis>)
    ensures r.Some? ==> TabName(r.value) == name
    ensures r.None? ==> forall a :: TabName(a) != name
  {
    if name == "basic" then Some(Basic)
    else if name == "summary" then Some(Summary)
    else if name == "table1" then Some(Table1)
    else if name == "categorical" then Some(Categorical)
    else if name == "numerical" then Some(Numerical)
    else if name == "correlation" then Some(Correlation)
    else None
  }

  /** Every analysis is reached through its own tab name. */
  lemma ParseTabName(a: Analysis)
    ensures ParseTab(TabName(a)) == Some(a)
  {
  }

  /** A string is truthy when present and non-empty. */
  predicate Truthy(s: Option<string>) {
    s.Some? && s.value != ""
  }

  /** An analysis is not started again while it runs, nor once it has both
      output and a plot. */
  predicate ShouldSkip(r: AnalysisResult) {
    r.loading || (r.output != "" && Truthy(r.plot))
  }

  /** The state a run ends in, for the script `code` and the outcome. */
  function Completed(code: string, outcome: RunOutcome): (r: AnalysisResult)
    ensures !r.loading && r.code == code
    ensures outcome.Ran? && outcome.success ==>
      && r.output == OrElse(outcome.output, SuccessText) && r.output != ""
      && r.plot == outcome.plot && r.error.None?
    ensures outcome.Ran? && !outcome.success ==>
      && r.output == "" && r.plot.None? && r.error == Some(OrElse(outcome.error, FailureText))
    ensures outcome.Threw? ==>
      && r.output == "" && r.plot.None? && r.error == Some(outcome.message.GetOr(UnknownErrorText))
  {
    match outcome
    case Ran(success, output, plot, error) =>
      if success then AnalysisResult(code, OrElse(output, SuccessText), plot, None, false)
      else AnalysisResult(code, "", None, Some(OrElse(error, FailureText)), false)
    case Threw(message) =>
      AnalysisResult(code, "", None, Some(message.GetOr(UnknownErrorText)), false)
  }

  /** The records a finished run adds: one for a success, none otherwise. */
  function Records(a: Analysis, code: string, outcome: RunOutcome): (r: seq<GeneratedCode>)
    ensures |r| == 1 <==> outcome.Ran? && outcome.success
    ensures |r| != 1 ==> r == []
    ensures |r| == 1 ==>
      && r[0].title == "EDA: " + TabName(a) && r[0].code == code && r[0].tabSource == EdaTabSource
      && r[0].output == OrElse(outcome.output, "") && r[0].plot == outcome.plot
  {
    if outcome.Ran? && outcome.success then
      [GeneratedCode("EDA: " + TabName(a), code, OrElse(outcome.output, ""), outcome.plot, EdaTabSource)]
    else []
  }

  /** A running analysis is never started a second time. */
  lemma StartedIsSkipped(r: AnalysisResult)
    ensures ShouldSkip(r.(loading := true))
  {
  }

  /** After a run the analysis is skipped next time exactly when it succeeded
      with a plot: failures and text-only results run again. */
  lemma RerunUnlessPlotted(code: string, outcome: RunOutcome)
    ensures ShouldSkip(Completed(code, outcome)) <==> outcome.Ran? && outcome.success && Truthy(outcome.plot)
  {
  }

  class EdaTab {
    var selectedDataset: Option<string>
    var uploadedData: Option<DataModel.UploadedData>
    var activeTab: string
    var hasAddedCode: bool
    var isInitializing: bool
    var results: map<Analysis, AnalysisResult>
    /** What `apiService.addGeneratedCode` received, oldest first. */
    var generated: seq<GeneratedCode>

    predicate Valid()
      reads this
    {
      forall a: Analysis :: a in results
    }

    /** `!selectedDataset && !uploadedData` is false. */
    predicate HasData()
      reads this
    {
      Truthy(selectedDataset) || uploadedData.Some?
    }

    /** The tab starts on 'basic' with every analysis idle and empty. */
    constructor (codes: map<Analysis, string>, selectedDataset: Option<string>, uploadedData: Option<DataModel.UploadedData>)
      requires forall a: Analysis :: a in codes
      ensures Valid()
      ensures forall a: Analysis :: results[a] == AnalysisResult(codes[a], "", None, None, false)
      ensures this.selectedDataset == selectedDataset && this.uploadedData == uploadedData
      ensures activeTab == "basic" && !hasAddedCode && !isInitializing && generated == []
    {
      results := map a: Analysis | a in codes :: AnalysisResult(codes[a], "", None, None, false);
      this.selectedDataset := selectedDataset;
      this.uploadedData := uploadedData;
      activeTab := "basic";
      hasAddedCode := false;
      isInitializing := false;
      generated := [];
    }

    /** The synchronous part of `executeAnalysis(tabName)`: without data, for
        an unknown tab name or an analysis to skip, nothing changes;
        otherwise the analysis is marked as loading, and its R script is
        handed to the R engine. */
    method StartAnalysis(tabName: string) returns (started: Option<Analysis>)
      requires Valid()
      modifies this
      ensures Valid()
      ensures var a := ParseTab(tabName);
        if !old(HasData()) || a.None? || ShouldSkip(old(results)[a.value]) then
          started.None? && results == old(results)
        else
          started == a && results == old(results)[a.value := old(results)[a.value].(loading := true)]
      ensures selectedDataset == old(selectedDataset) && uploadedData == old(uploadedData)
      ensures activeTab == old(activeTab) && hasAddedCode == old(hasAddedCode)
      ensures isInitializing == old(isInitializing) && generated == old(generated)
    {
      started := None;
      if !HasData() {
        return;
      }
      var a := ParseTab(tabName);
      if a.None? || ShouldSkip(results[a.value]) {
        return;
      }
      results := results[a.value := results[a.value].(loading := true)];
      started := a;
    }

    /** The part of `executeAnalysis` after the `await`: the result replaces
        the analysis' state, and a success is recorded. */
    method FinishAnalysis(a: Analysis, outcome: RunOutcome)
      requires Valid()
      modifies this
      ensures Valid()
      ensures results == old(results)[a := Completed(old(results)[a].code, outcome)]
      ensures generated == old(generated) + Records(a, old(results)[a].code, outcome)
      ensures selectedDataset == old(selectedDataset) && uploadedData == old(uploadedData)
      ensures activeTab == old(activeTab) && hasAddedCode == old(hasAddedCode)
      ensures isInitializing == old(isInitializing)
    {
      var code := results[a].code;
      match outcome {
        case Ran(success, output, plot, error) =>
          if success {
            results := results[a := AnalysisResult(code, OrElse(output, SuccessText), plot, None, false)];
            generated := generated + [GeneratedCode("EDA: " + TabName(a), code, OrElse(output, ""), plot, EdaTabSource)];
          } else {
            results := results[a := AnalysisResult(code, "", None, Some(OrElse(error, FailureText)), false)];
          }
        case Threw(message) =>
          results := results[a := AnalysisResult(code, "", None, Some(message.GetOr(UnknownErrorText)), false)];
      }
    }

    /** The effect on a change of `selectedDataset` or `uploadedData`: the
        first time data is present, the basic analysis starts and the tab is
        initialising until it ends. */
    method DataChanged(selectedDataset: Option<string>, uploadedData: Option<DataModel.UploadedData>)
      returns (started: Option<Analysis>)
      requires Valid()
      modifies this
      ensures Valid()
      ensures this.selectedDataset == selectedDataset && this.uploadedData == uploadedData
      ensures old(hasAddedCode) || !HasData() ==>
        && started.None? && results == old(results)
        && hasAddedCode == old(hasAddedCode) && isInitializing == old(isInitializing)
      ensures !old(hasAddedCode) && HasData() ==>
        && hasAddedCode && isInitializing
        && (if ShouldSkip(old(results)[Basic]) then started.None? && results == old(results)
            else started == Some(Basic) && results == old(results)[Basic := old(results)[Basic].(loading := true)])
      ensures activeTab == old(activeTab) && generated == old(generated)
    {
      this.selectedDataset := selectedDataset;
      this.uploadedData := uploadedData;
      started := None;
      if !HasData() {
        return;
      }
      if !hasAddedCode {
        hasAddedCode := true;
        isInitializing := true;
        started := StartAnalysis("basic");
      }
    }

    /** The `finally` of the initial run. */
    method InitialRunDone()
      requires Valid()
      modifies this
      ensures Valid() && !isInitializing
      ensures results == old(results) && generated == old(generated) && hasAddedCode == old(hasAddedCode)
      ensures activeTab == old(activeTab)
      ensures selectedDataset == old(selectedDataset) && uploadedData == old(uploadedData)
    {
      isInitializing := false;
    }

    /** `setActiveTab(name)` and the effect on `activeTab`: a change to a tab
        other than 'basic' starts that tab's analysis unless the tab is
        initialising. */
    method SelectTab(name: string) returns (started: Option<Analysis>)
      requires Valid()
      modifies this
      ensures Valid() && activeTab == name
      ensures name == old(activeTab) || name == "basic" || old(isInitializing) ==>
        started.None? && results == old(results)
      ensures name != old(activeTab) && name != "basic" && !old(isInitializing) ==>
        var a := ParseTab(name);
        if !HasData() || a.None? || ShouldSkip(old(results)[a.value]) then
          started.None? && results == old(results)
        else
          started == a && results == old(results)[a.value := old(results)[a.value].(loading := true)]
      ensures hasAddedCode == old(hasAddedCode) && isInitializing == old(isInitializing)
      ensures generated == old(generated)
      ensures selectedDataset == old(selectedDataset) && uploadedData == old(uploadedData)
    {
      started := None;
      if name == activeTab {
        return;
      }
      activeTab := name;
      if name != "basic" && !isInitializing {
        started := StartAnalysis(name);
      }
    }
  }
}
