/** The Basic tab: a prompt, a data source (a sample dataset or an upload,
    never both) and the result of the last request. The request itself goes
    to a service outside the model: its outcome is a parameter, and a
    submission is split at the `await` into a start and a finish. */
module BasicTab {
  import opened Prelude
  import JsText
  import DataModel

  /** The result panel; `error` and `plot` are the optional fields. */
  datatype BasicResult = BasicResult(code: string, output: string, error: Option<string>, plot: Option<string>)

  /** What the service call gives back, or the value it throws (`message` is
      the message of an `Error`, absent for anything else). */
  datatype Response = Answered(success: bool, error: Option<string>) | Threw(message: Option<string>)

  /** The data argument of a request: `selectedDataset || uploadedData`. */
  datatype DataArg = DatasetName(name: string) | UploadArg(upload: Option<DataModel.UploadedData>)

  /** One request made: the prompt and the data argument. */
  datatype Request = Request(prompt: string, data: DataArg)

  const SuccessOutput: string := "Here's a summary of the data and a visualization showing the relationship between cylinders and MPG."
  const SuccessPlot: string := "https://mdn.github.io/dom-examples/canvas/pixel-manipulation/bicycle.png"
  const UnknownErrorText: string := "An unknown error occurred"
  const NoDatasetLabel: string := "None"

  /** The code shown for a successful request: the prompt quoted in a
      comment line, then a fixed script. */
  const SuccessCodeHead: string := "# R code for: \""
  const SuccessCodeTail: string :=
    "\"\nlibrary(ggplot2)\n\n# Simple data analysis\nsummary(df)\n\n"
    + "# Create a visualization\nggplot(df, aes(x = factor(cyl), y = mpg)) +\n  geom_boxplot() +\n"
    + "  labs(title = \"MPG by Number of Cylinders\",\n       x = \"Cylinders\",\n       y = \"Miles Per Gallon\")"

  function SuccessCode(prompt: string): string {
    SuccessCodeHead + prompt + SuccessCodeTail
  }

  /** The code shown for a failed request. */
  const AttemptCodeHead: string := "# Attempted R code for: \""

  function AttemptCode(prompt: string): string {
    AttemptCodeHead + prompt + "\""
  }

  /** The result a finished request shows. */
  function Outcome(prompt: string, response: Response): (r: BasicResult)
    ensures response.Answered? && response.success ==>
      r.error.None? && r.output == SuccessOutput && r.plot == Some(SuccessPlot) && r.code == SuccessCode(prompt)
    ensures response.Answered? && !response.success ==>
      r.error == Some(OrElse(response.error, UnknownErrorText)) && r.output == "" && r.plot.None?
      && r.code == AttemptCode(prompt)
    ensures response.Threw? ==>
      r.error == Some(response.message.GetOr(UnknownErrorText)) && r.output == "" && r.plot.None?
      && r.code == AttemptCode(prompt)
  {
    match response
    case Answered(success, error) =>
      if success then BasicResult(SuccessCode(prompt), SuccessOutput, None, Some(SuccessPlot))
      else BasicResult(AttemptCode(prompt), "", Some(OrElse(error, UnknownErrorText)), None)
    case Threw(message) =>
      BasicResult(AttemptCode(prompt), "", Some(message.GetOr(UnknownErrorText)), None)
  }

  /** A result carries an error exactly when the request did not succeed. */
  lemma ErrorIffFailed(prompt: string, response: Response)
    ensures Outcome(prompt, response).error.None? <==> response.Answered? && response.success
  {
  }

  /** `selectedDataset || (uploadedData?.name || 'None')` */
  function DatasetLabel(selectedDataset: Option<string>, uploadedData: Option<DataModel.UploadedData>): (s: string)
    ensures selectedDataset.Some? && selectedDataset.value != "" ==> s == selectedDataset.value
    ensures !(selectedDataset.Some? && selectedDataset.value != "") && uploadedData.Some? && uploadedData.value.name != "" ==>
      s == uploadedData.value.name
    ensures !(selectedDataset.Some? && selectedDataset.value != "") && !(uploadedData.Some? && uploadedData.value.name != "") ==>
      s == NoDatasetLabel
    ensures s != ""
  {
    if selectedDataset.Some? && selectedDataset.value != "" then selectedDataset.value
    else if uploadedData.Some? && uploadedData.value.name != "" then uploadedData.value.name
    else NoDatasetLabel
  }

  class BasicTab {
    var loading: bool
    var prompt: string
    var result: Option<BasicResult>
    var selectedDataset: Option<string>
    var uploadedData: Option<DataModel.UploadedData>
    /** The requests sent to the service, oldest first. */
    var requests: seq<Request>

    /** A sample dataset and an upload are never chosen together. */
    predicate Valid()
      reads this
    {
      !(selectedDataset.Some? && uploadedData.Some?)
    }

    constructor ()
      ensures Valid()
      ensures !loading && prompt == "" && result.None? && selectedDataset.None? && uploadedData.None?
      ensures requests == []
    {
      loading := false;
      prompt := "";
      result := None;
      selectedDataset := None;
      uploadedData := None;
      requests := [];
    }

    /** The data argument of the next request. */
    function DataArgument(): (d: DataArg)
      reads this
      ensures selectedDataset.Some? && selectedDataset.value != "" ==> d == DatasetName(selectedDataset.value)
      ensures !(selectedDataset.Some? && selectedDataset.value != "") ==> d == UploadArg(uploadedData)
    {
      if selectedDataset.Some? && selectedDataset.value != "" then DatasetName(selectedDataset.value)
      else UploadArg(uploadedData)
    }

    /** `handleSubmit` up to the `await`: a blank prompt changes nothing and
        sends nothing; otherwise the prompt is kept, `loading` is set and the
        request is sent. */
    method BeginSubmit(input: string) returns (sent: bool)
      requires Valid()
      modifies this
      ensures Valid()
      ensures sent <==> !JsText.IsBlank(input)
      ensures !sent ==>
        && loading == old(loading) && prompt == old(prompt) && requests == old(requests)
      ensures sent ==>
        && loading && prompt == input
        && requests == old(requests) + [Request(input, old(DataArgument()))]
      ensures result == old(result)
      ensures selectedDataset == old(selectedDataset) && uploadedData == old(uploadedData)
    {
      JsText.TrimEmptyIff(input);
      if JsText.Trim(input) == "" {
        return false;
      }
      prompt := input;
      loading := true;
      requests := requests + [Request(input, DataArgument())];
      sent := true;
    }

    /** The rest of `handleSubmit`: the result is shown and `loading` is
        cleared, whatever the outcome. */
    method FinishSubmit(input: string, response: Response)
      requires Valid()
      modifies this
      ensures Valid()
      ensures !loading && result == Some(Outcome(input, response))
      ensures prompt == old(prompt) && requests == old(requests)
      ensures selectedDataset == old(selectedDataset) && uploadedData == old(uploadedData)
    {
      match response {
        case Answered(success, error) =>
          if success {
            result := Some(BasicResult(SuccessCode(input), SuccessOutput, None, Some(SuccessPlot)));
          } else {
            result := Some(BasicResult(AttemptCode(input), "", Some(OrElse(error, UnknownErrorText)), None));
          }
        case Threw(message) =>
          result := Some(BasicResult(AttemptCode(input), "", Some(message.GetOr(UnknownErrorText)), None));
      }
      loading := false;
    }

    /** `handleDatasetSelect`: choosing a sample drops the upload. */
    method SelectDataset(value: string)
      modifies this
      ensures Valid()
      ensures selectedDataset == Some(value) && uploadedData.None?
      ensures loading == old(loading) && prompt == old(prompt) && result == old(result) && requests == old(requests)
    {
      selectedDataset := Some(value);
      uploadedData := None;
    }

    /** `handleDataUpload`: an upload drops the chosen sample. */
    method UploadData(data: DataModel.UploadedData)
      modifies this
      ensures Valid()
      ensures uploadedData == Some(data) && selectedDataset.None?
      ensures loading == old(loading) && prompt == old(prompt) && result == old(result) && requests == old(requests)
    {
      uploadedData := Some(data);
      selectedDataset := None;
    }
  }
}
