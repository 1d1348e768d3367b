# SOCR AI Bot — a verified model of the front-end logic

SOCR AI Bot is a browser application for statistics. Users pick a sample
dataset or upload a file, ask an AI model (OpenAI or Gemini) for R code, run
that code, explore the data through a set of exploratory analyses, and
collect the generated code into an R Markdown report. A guided tutorial
walks the user through the tabs.

This project models the TypeScript logic behind those screens and proves
properties of it in Dafny:

- **Report tab**:
  - loading the Basic tab's code chunks, with a placeholder when there are none;
  - grouping chunks by source tab;
  - toggling chunks and selecting or deselecting a whole tab;
  - the `.Rmd` download text and the preview text.
- **Tutorial**: the step counter with next, previous, close and jump, and the jump menu's sections built from the steps' tab ids.
- **Tutorial positioner**: where the tooltip goes next to its target, before and after it is clamped into the window.
- **Gemini client**: the request payload built from a chat, and the single error the caller sees.
- **Settings store**: API keys, temperature and the retry flag, kept in the browser's key/value storage.
- **EDA tab**: the per-analysis state machine (skip rules, loading flag, result shaping, recording successful code) and the two effects that start analyses.
- **Data tab and data table**: which rows and counts are shown, header extraction and truncation.
- **Basic tab**: the submit guard, the loading flag, result shaping, and the rule that a sample dataset and an upload exclude each other.
- **Upload box**: the file-extension check, drag state and the simulated upload record.
- **Prompt input**: the submit guard, the disabled button and demo-prompt selection.

The model has one Dafny module per source file. Three modules are shared:

- `Prelude`: `Option`, filtering, counting, duplicate removal.
- `JsText`: JavaScript's `trim`, `endsWith`, `slice`, `indexOf`, `replace` on a string and `join`.
- `DataModel`: rows, cells, uploads and the `attitude` sample.

Component state becomes a `class`. Each event handler becomes a method with
`modifies this`, and each method states its whole new state. Callbacks the
components call are recorded in fields:

- `onTabChange`, `onSubmit`, `onDataUploaded` and `apiService.addGeneratedCode`
  as sequences of the arguments they were called with;
- `onComplete` as a count of its calls (`completions`), since it takes no
  argument.

Asynchronous handlers are split at their `await` into a start method and a
finish method. The outcome of the awaited call is a parameter of the finish
method.

## Model

| member | source | states |
|---|---|---|
| ReportTab.Ids | src/components/tabs/ReportTab.tsx:31 | the selection built from chunks lists each chunk's id, position by position |
| ReportTab.LoadedChunksSpec | src/components/tabs/ReportTab.tsx:24-53 | loading keeps exactly the chunks from "Basic Tab", in order (the list is those chunks filtered by their source); when there are none the list is exactly the placeholder and the selection exactly `['empty-chunk']` |
| ReportTab.KeysOf | src/components/tabs/ReportTab.tsx:58-59 | the grouping key of each chunk: its tab source, or 'Unknown' when that is empty (the raw source for the download) |
| ReportTab.Group | src/components/tabs/ReportTab.tsx:58-65 | a group holds only chunks with its key and is no longer than the chunk list |
| ReportTab.GroupMembers | src/components/tabs/ReportTab.tsx:58-65 | a chunk is in a group exactly when it is in the list and has that group's key |
| ReportTab.GroupSnoc | src/components/tabs/ReportTab.tsx:60-63 | pushing one more chunk appends it to its own group only, so groups keep list order |
| ReportTab.GroupAbsent | src/components/tabs/ReportTab.tsx:60-62 | a key no chunk carries has an empty group |
| ReportTab.GroupMap | src/components/tabs/ReportTab.tsx:58-65 | the dictionary has a group exactly for the keys that occur |
| ReportTab.GroupMapSnoc | src/components/tabs/ReportTab.tsx:60-64 | one step of the `reduce`: create the group if missing, then push the chunk |
| ReportTab.GroupBy | src/components/tabs/ReportTab.tsx:58-65 | the loop builds the key order (first occurrences, no duplicates) and the dictionary of groups |
| ReportTab.GroupSizesSnoc | src/components/tabs/ReportTab.tsx:58-65 | adding a chunk grows the summed sizes of the listed groups by the number of times its key is listed |
| ReportTab.GroupingPartitions | src/components/tabs/ReportTab.tsx:58-65 | over distinct keys covering every chunk, the group sizes sum to the number of chunks |
| ReportTab.EmptyGroupSizes | src/components/tabs/ReportTab.tsx:58 | an empty chunk list has only empty groups |
| ReportTab.ChunksByTabPartitions | src/components/tabs/ReportTab.tsx:58-65 | every chunk is in exactly one group, its own, and the groups together hold every chunk once |
| ReportTab.Without | src/components/tabs/ReportTab.tsx:70 | filtering out an id keeps exactly the other ids |
| ReportTab.WithoutCounts | src/components/tabs/ReportTab.tsx:70 | filtering out an id leaves the number of occurrences of every other id unchanged |
| ReportTab.WithoutAppend | src/components/tabs/ReportTab.tsx:70 | filtering distributes over concatenation, so the order of the rest is kept |
| ReportTab.WithoutAbsent | src/components/tabs/ReportTab.tsx:70 | filtering out an absent id changes nothing |
| ReportTab.WithoutNoDup | src/components/tabs/ReportTab.tsx:70 | filtering keeps a duplicate-free selection duplicate-free |
| ReportTab.Toggle | src/components/tabs/ReportTab.tsx:67-73 | after a toggle the id is selected exactly when it was not; an absent id is appended at the end; other ids keep their counts |
| ReportTab.CountAppend | src/components/tabs/ReportTab.tsx:67-73 | occurrences in a concatenation add up |
| ReportTab.ToggleOffKeepsOrder | src/components/tabs/ReportTab.tsx:69-70 | toggling off a selected id removes every occurrence and keeps the rest in order |
| ReportTab.ToggleTwice | src/components/tabs/ReportTab.tsx:67-73 | toggling an unselected id twice restores the selection |
| ReportTab.ToggleKeepsNoDup | src/components/tabs/ReportTab.tsx:67-73 | toggling keeps a duplicate-free selection duplicate-free |
| ReportTab.WithoutAll | src/components/tabs/ReportTab.tsx:82 | deselecting a tab keeps exactly the ids not in that tab |
| ReportTab.WithoutAllAppend | src/components/tabs/ReportTab.tsx:82 | deselection distributes over concatenation, so the order of the rest is kept |
| ReportTab.WithoutAllDisjoint | src/components/tabs/ReportTab.tsx:82 | deselecting ids that are not selected changes nothing |
| ReportTab.WithoutAllCovered | src/components/tabs/ReportTab.tsx:82 | deselecting a superset of the selection empties it |
| ReportTab.SelectAllIds | src/components/tabs/ReportTab.tsx:75-87 | when all tab ids are selected, exactly those are removed; otherwise the result has no duplicates, holds every previous id and every tab id, and starts with the previous selection with its duplicates removed (the previous selection itself when it had none) |
| ReportTab.DedupDisjointAppend | src/components/tabs/ReportTab.tsx:85 | removing duplicates from two lists with no common id treats them separately |
| ReportTab.SelectAllTwiceRestores | src/components/tabs/ReportTab.tsx:75-87 | selecting then deselecting a tab whose ids were all unselected restores the selection |
| ReportTab.SelectedCodeChunks | src/components/tabs/ReportTab.tsx:95-97 | a chunk goes into the report exactly when it is listed and its id is selected |
| ReportTab.SelectingOwnIds | src/components/tabs/ReportTab.tsx:95-97 | selecting every chunk's id selects the whole list, in order |
| ReportTab.ReportedChunksEmpty | src/components/tabs/ReportTab.tsx:135-152 | with nothing selected, no section lists a chunk |
| ReportTab.ReportedChunksSnoc | src/components/tabs/ReportTab.tsx:126-152 | one more selected chunk is listed once more, in its source's section, unless its source is 'default' or has no section |
| ReportTab.ReportListsSelection | src/components/tabs/ReportTab.tsx:126-152 | when every selected chunk's source has a section, the sections list each non-'default' selected chunk as often as it is selected and no 'default' chunk |
| ReportTab.ReportCoversSelection | src/components/tabs/ReportTab.tsx:95-152 | the download's sections list each selected non-'default' chunk once per selection, and a chunk is listed exactly when it is loaded, selected and not from 'default' |
| ReportTab.SectionsTextPrefix | src/components/tabs/ReportTab.tsx:135-152 | the section text grows by one section per source tab, in the order tabs first occur |
| ReportTab.ChunksTextPrefix | src/components/tabs/ReportTab.tsx:143-151 | a section's text grows by one chunk's text per chunk, in list order |
| ReportTab.AppendChunk | src/components/tabs/ReportTab.tsx:144-150 | one chunk contributes its title and code fence, an Output block only for non-empty output, and the plot note only for a plot |
| ReportTab.AppendChunks | src/components/tabs/ReportTab.tsx:143-151 | the inner loop appends every chunk's text in order |
| ReportTab.AppendSection | src/components/tabs/ReportTab.tsx:135-152 | a tab contributes its "## tab Analysis" heading and its chunks, and 'default' contributes nothing |
| ReportTab.AppendSections | src/components/tabs/ReportTab.tsx:125-152 | grouping by source and the outer loop produce the header followed by every section in first-occurrence order |
| ReportTab.DownloadRMarkdown | src/components/tabs/ReportTab.tsx:94-152 | no report when the selection is empty or only the placeholder; otherwise the header and the sections |
| ReportTab.GroupOfOneSource | src/components/tabs/ReportTab.tsx:126-132 | when all chunks share one source, that group is the whole list |
| ReportTab.SingleSourceReport | src/components/tabs/ReportTab.tsx:94-152 | a selection from one non-default source gives the header, one heading and every selected chunk in order |
| ReportTab.LoadedReport | src/components/tabs/ReportTab.tsx:24-31 | after loading real chunks, the download is the header, the "Basic Tab" heading and all loaded chunks |
| ReportTab.NoReportWithoutCode | src/components/tabs/ReportTab.tsx:99-106 | the placeholder alone and an empty selection both give no report |
| ReportTab.SelectingNothing | src/components/tabs/ReportTab.tsx:95-97 | an empty selection selects no chunk |
| ReportTab.PreviewChunkTexts | src/components/tabs/ReportTab.tsx:263-275 | the i-th text is the i-th selected chunk's preview text, one per chunk |
| ReportTab.PreviewSections | src/components/tabs/ReportTab.tsx:256-276 | the i-th section is the i-th shown tab's section over that tab's group of chunks, one per shown tab |
| ReportTab.PreviewTabsSpec | src/components/tabs/ReportTab.tsx:256-257 | a tab is shown exactly when it is not 'default' and some chunk carries it; there are at most as many tabs as chunks |
| ReportTab.PreviewSectionEmptyIff | src/components/tabs/ReportTab.tsx:259-262 | a tab's section is empty exactly when none of its chunks is selected, and otherwise opens with the tab's heading |
| ReportTab.PreviewSectionsSpec | src/components/tabs/ReportTab.tsx:256-276 | over the whole preview, the section of each shown tab is empty exactly when no chunk of that tab is selected |
| ReportTab.NoShownTabPreview | src/components/tabs/ReportTab.tsx:241-277 | with no tab to show, the preview is the bare header |
| ReportTab.PlaceholderShowsNoTab | src/components/tabs/ReportTab.tsx:256-257 | the placeholder's only tab is 'default', so no tab is shown |
| ReportTab.PlaceholderPreview | src/components/tabs/ReportTab.tsx:256-260 | the placeholder state previews as the bare header, since the 'default' tab is not shown |
| ReportTab.BasicChunksOneTab | src/components/tabs/ReportTab.tsx:256-259 | chunks all from "Basic Tab" form one shown tab whose group is the whole list |
| ReportTab.LoadedPreview | src/components/tabs/ReportTab.tsx:241-276 | after loading real chunks, the preview is the header, the "Basic Tab" heading and every chunk's preview text joined by blank lines |
| ReportTab.ReportTab.constructor | src/components/tabs/ReportTab.tsx:14-17 | the tab starts with no chunks, no selection and nothing loaded |
| ReportTab.ReportTab.LoadChunks | src/components/tabs/ReportTab.tsx:20-55 | chunks load at most once: a second load changes nothing; the first load sets the chunks and selects all their ids |
| ReportTab.ReportTab.Refresh | src/components/tabs/ReportTab.tsx:89-92 | only the loaded flag is cleared, which allows the next load |
| ReportTab.ReportTab.ToggleChunk | src/components/tabs/ReportTab.tsx:67-73 | the selection becomes its toggle and nothing else changes |
| ReportTab.ReportTab.SelectAll | src/components/tabs/ReportTab.tsx:75-87 | the selection becomes the select-all of the tab's ids and nothing else changes |
| ReportTab.ReportTab.Download | src/components/tabs/ReportTab.tsx:94-152 | the download text is the report of the current chunks and selection |
| Tutorial.TabIds | src/components/Tutorial.tsx:44-45 | each step's tab id, position by position |
| Tutorial.Tagged | src/components/Tutorial.tsx:45 | a tab id is visited exactly when some step carries it and it is not empty |
| Tutorial.StepIndicesSpec | src/components/Tutorial.tsx:41-57 | a section lists exactly the indices of the steps with its tab id, strictly ascending, so each appears once |
| Tutorial.StepIndicesSnoc | src/components/Tutorial.tsx:52 | one more step is pushed onto its own section only |
| Tutorial.SectionName | src/components/Tutorial.tsx:48 | the name has the tab id's length, an upper-cased first character, and only the first '-' after it replaced by a space |
| Tutorial.StepIndicesAbsent | src/components/Tutorial.tsx:44-54 | a tab id no step carries has no indices |
| Tutorial.SectionMapSpec | src/components/Tutorial.tsx:41-57 | the dictionary has a section exactly for each non-empty tab id, named from it and listing its steps |
| Tutorial.TaggedSnoc | src/components/Tutorial.tsx:44-45 | the visited tab ids grow by the step's id only when it is non-empty |
| Tutorial.PushStep | src/components/Tutorial.tsx:45-53 | one loop step: create the section if missing, push the index, and record a new key in insertion order |
| Tutorial.GetTabSections | src/components/Tutorial.tsx:41-57 | the loop builds exactly the section dictionary, with keys in first-occurrence order |
| Tutorial.HeadIsLeast | src/components/Tutorial.tsx:65 | the first entry of an ascending list is its least element |
| Tutorial.FirstIndexIsFirstStep | src/components/Tutorial.tsx:65 | a section's first entry is the smallest step index carrying that tab id |
| Tutorial.KeysAreSections | src/components/Tutorial.tsx:59-66 | every key is a non-empty tab id whose section exists, is non-empty and is named from the id |
| Tutorial.AllSections | src/components/Tutorial.tsx:62-66 | one menu entry per section in key order, each with the section's name and its smallest step index |
| Tutorial.Tutorial.TabChange | src/components/Tutorial.tsx:72-74 | the tab-change callback fires only for a step whose tab id is set and differs from the current tab, when a callback is given |
| Tutorial.Tutorial.constructor | src/components/Tutorial.tsx:31-37 | the tutorial starts closed at step 0 with the jump menu hidden |
| Tutorial.Tutorial.Open | src/components/Tutorial.tsx:187 | opening changes only the open flag |
| Tutorial.Tutorial.Close | src/components/Tutorial.tsx:92-96 | closing clears the open flag and calls the completion callback when one is given |
| Tutorial.Tutorial.Next | src/components/Tutorial.tsx:68-79 | below the last step the step grows by exactly one, with the tab-change rule; at the last step the tutorial closes and completes |
| Tutorial.Tutorial.Previous | src/components/Tutorial.tsx:81-90 | at step 0 nothing changes; otherwise the step drops by exactly one, with the tab-change rule |
| Tutorial.Tutorial.SetShowJumpMenu | src/components/Tutorial.tsx:37 | only the jump-menu flag changes |
| Tutorial.Tutorial.JumpToSection | src/components/Tutorial.tsx:112-126 | the menu always closes; an index out of range changes nothing else; a tab switch defers the step change; otherwise the step is set; the step stays in range |
| Tutorial.Tutorial.SetCurrentTab | src/components/Tutorial.tsx:72-74 | a new `currentTab` from the parent changes nothing else, and no step on that tab switches tabs any more |
| Tutorial.Tutorial.TimerFires | src/components/Tutorial.tsx:119-121 | the deferred jump sets the step to the oldest pending index |
| TutorialPositioner.Anchor | src/components/tutorial/TutorialPositioner.ts:26-43 | before clamping, the tooltip sits 12 past the target on the chosen side, centred along that side |
| TutorialPositioner.CalculatePosition | src/components/tutorial/TutorialPositioner.ts:2-79 | the final left is at least the padding and keeps a tooltip that fits inside the right edge; top is at least scroll top plus padding; a bottom overflow flips above or pins to the bottom; width and height are the target's |
| GeminiRequest.FindSystem | src/services/googleApiClient.ts:12 | no result exactly when there is no system message; otherwise the first system message |
| GeminiRequest.FindSystemFirst | src/services/googleApiClient.ts:12 | messages after the first system message do not change which one is found |
| GeminiRequest.GeminiRole | src/services/googleApiClient.ts:17 | 'assistant' becomes 'model' and every other role is kept |
| GeminiRequest.Format | src/services/googleApiClient.ts:16-19 | one message becomes one entry with the mapped role and exactly one part holding its text |
| GeminiRequest.FormatAll | src/services/googleApiClient.ts:16-19 | every message is formatted, in order |
| GeminiRequest.BuildPayload | src/services/googleApiClient.ts:7-34 | the temperature defaults to 0.7; a system instruction exists exactly when a system message does and holds the first one's text; entries have one part and no system or assistant role |
| GeminiRequest.ModelName | src/services/googleApiClient.ts:7-9 | the model defaults to 'gemini-1.5-pro' |
| GeminiRequest.Outcome | src/services/googleApiClient.ts:36-42 | a reply passes through; every failure becomes the single fixed error |
| GeminiRequest.FormatAllAppend | src/services/googleApiClient.ts:16-19 | formatting distributes over concatenation |
| GeminiRequest.ContentsAppend | src/services/googleApiClient.ts:13-19 | the contents follow the messages' order: those of a concatenation are the parts' contents one after the other |
| GeminiRequest.ContentsOfOne | src/services/googleApiClient.ts:13-19 | a system message adds no entry; any other message adds exactly its formatted entry |
| GeminiRequest.NoSystemKeepsAll | src/services/googleApiClient.ts:12-34 | without system messages every message becomes an entry, in order, and there is no system instruction |
| GeminiRequest.OnlySystemSendsNothing | src/services/googleApiClient.ts:13 | a chat of system messages only sends no contents |
| SettingsStore.StoreOrRemove | src/lib/utils.ts:18-32 | a non-empty value is stored under its key, the empty string removes the key, and every other entry is untouched |
| SettingsStore.ApiKey | src/lib/utils.ts:35-45 | the stored key if non-empty, else the environment key if non-empty, else none; never an empty key |
| SettingsStore.Temperature | src/lib/utils.ts:52-55 | the stored text when non-empty, else the default |
| SettingsStore.RetryOnError | src/lib/utils.ts:61-64 | true exactly when the stored text is "1"; false when nothing is stored |
| SettingsStore.RetryText | src/lib/utils.ts:58 | the stored text is "1" exactly for true |
| SettingsStore.ApiKeyRoundTrip | src/lib/utils.ts:18-45 | a stored non-empty key reads back; storing "" makes the reader fall back to the environment |
| SettingsStore.OtherKeyUnaffected | src/lib/utils.ts:9-45 | setting one key leaves what the other key's reader returns unchanged |
| SettingsStore.RetryRoundTrip | src/lib/utils.ts:57-64 | after storing a flag, the reader returns it |
| SettingsStore.ClearedDefaults | src/lib/utils.ts:76-81 | after clearing, every reader is at its default |
| SettingsStore.Store.constructor | src/lib/utils.ts:16 | the store wraps the given storage and environment keys |
| SettingsStore.Store.SetOpenAIApiKey | src/lib/utils.ts:18-24 | store or remove the OpenAI key only |
| SettingsStore.Store.SetGeminiApiKey | src/lib/utils.ts:26-32 | store or remove the Gemini key only |
| SettingsStore.Store.GetOpenAIApiKey | src/lib/utils.ts:35-39 | the stored key, else the environment key, else none |
| SettingsStore.Store.GetGeminiApiKey | src/lib/utils.ts:41-45 | the stored key, else the environment key, else none |
| SettingsStore.Store.SetTemperature | src/lib/utils.ts:48-50 | only the temperature entry is written |
| SettingsStore.Store.GetTemperature | src/lib/utils.ts:52-55 | the stored temperature text, else the default |
| SettingsStore.Store.SetRetryOnError | src/lib/utils.ts:57-59 | only the retry entry is written, and the reader then returns the flag |
| SettingsStore.Store.GetRetryOnError | src/lib/utils.ts:61-64 | true exactly for a stored "1" |
| SettingsStore.Store.HasOpenAIApiKey | src/lib/utils.ts:67-69 | true exactly when a non-empty key is stored or the environment provides one |
| SettingsStore.Store.HasGeminiApiKey | src/lib/utils.ts:71-73 | true exactly when a non-empty key is stored or the environment provides one |
| SettingsStore.Store.ClearAll | src/lib/utils.ts:76-81 | exactly the four settings keys are removed and every other entry is untouched |
| EdaTab.ParseTab | src/components/tabs/EdaTab.tsx:368-399 | a recognised tab name selects the analysis with that name; any other name selects none |
| EdaTab.ParseTabName | src/components/tabs/EdaTab.tsx:368-399 | each of the six analyses is reached by its own tab name |
| EdaTab.Completed | src/components/tabs/EdaTab.tsx:418-452 | a success keeps the output (or the success text), copies the plot and clears the error; a failure or exception empties the output, drops the plot and sets the message or its default; loading ends |
| EdaTab.Records | src/components/tabs/EdaTab.tsx:427-433 | a success records exactly one code entry titled 'EDA: ' + tab name from 'EDA Tab'; a failure records none |
| EdaTab.StartedIsSkipped | src/components/tabs/EdaTab.tsx:402-407 | an analysis that is running is not started again |
| EdaTab.RerunUnlessPlotted | src/components/tabs/EdaTab.tsx:402-404 | after a run the analysis is skipped next time exactly when it succeeded with a plot, so text-only results and failures run again |
| EdaTab.EdaTab.constructor | src/components/tabs/EdaTab.tsx:17-36 | the tab starts on 'basic' with every analysis idle, empty and holding its script |
| EdaTab.EdaTab.StartAnalysis | src/components/tabs/EdaTab.tsx:360-411 | without data, for an unknown tab or an analysis to skip nothing changes; otherwise only that analysis is marked as loading |
| EdaTab.EdaTab.FinishAnalysis | src/components/tabs/EdaTab.tsx:413-453 | only that analysis' result is replaced, by its completed state, and a success is recorded |
| EdaTab.EdaTab.DataChanged | src/components/tabs/EdaTab.tsx:321-351 | the first time data is present, the basic analysis starts and the tab is initialising; later changes start nothing |
| EdaTab.EdaTab.InitialRunDone | src/components/tabs/EdaTab.tsx:344-346 | only the initialising flag is cleared |
| EdaTab.EdaTab.SelectTab | src/components/tabs/EdaTab.tsx:354-358 | a change to a tab other than 'basic' starts that tab's analysis unless the tab is initialising |
| DataModel.Keys | src/components/DataTable.tsx:22 | the column names are the first row's field keys, position by position |
| DataModel.Lookup | src/components/DataTable.tsx:47 | a key is absent exactly when no field carries it; a found value belongs to a field with that key |
| DataTable.CellText | src/components/DataTable.tsx:47 | a missing or null cell renders as the empty string |
| DataTable.RowTexts | src/components/DataTable.tsx:45-49 | one cell text per header, in header order |
| DataTable.Render | src/components/DataTable.tsx:11-47 | absent or empty data gives only the no-data view; otherwise the headers are the first row's keys and the first rows up to the limit (default 10) are shown, with the caption counts |
| DataTable.ShownRows | src/components/DataTable.tsx:23-30 | for a non-negative limit, min(limit, n) of n rows are shown |
| DataTable.NegativeLimitDropsFromEnd | src/components/DataTable.tsx:23 | a negative limit drops that many rows from the end |
| DataTab.SelectData | src/components/tabs/DataTab.tsx:16-35 | a known sample name wins, giving its rows and the first row's key count; else the upload's fields with defaults of 0; else nothing |
| DataTab.SampleCountsMatchTable | src/components/tabs/DataTab.tsx:17-23 | for a non-empty sample the counts agree with the table's total and header count |
| DataTab.AttitudeInfo | src/components/tabs/DataTab.tsx:17-23 | the attitude sample has 10 rows and 7 columns |
| DataTab.UnknownNameUsesUpload | src/components/tabs/DataTab.tsx:17-30 | an unknown dataset name falls through to the upload |
| DataUpload.AcceptedExtensions | src/components/DataUpload.tsx:46-53 | any name ending in .csv, .tsv or .xlsx is accepted, and the check is case-sensitive |
| DataUpload.MockUpload | src/components/DataUpload.tsx:65-73 | the reported upload has the file's name, 200 rows, 15 columns and no data |
| DataUpload.UploadShownInDataTab | src/components/DataUpload.tsx:65-73 | with no sample chosen, the Data tab shows the upload's counts and an empty table |
| DataUpload.DragActiveAfter | src/components/DataUpload.tsx:17-25 | enter and over set the drag flag, leave clears it, other events keep it |
| DataUpload.DataUpload.constructor | src/components/DataUpload.tsx:14-15 | no drag, no file, nothing reported |
| DataUpload.DataUpload.HandleDrag | src/components/DataUpload.tsx:17-25 | only the drag flag changes, as the event type says |
| DataUpload.DataUpload.HandleFile | src/components/DataUpload.tsx:44-74 | a refused name changes nothing; an accepted file becomes current and is reported exactly once |
| DataUpload.DataUpload.HandleDrop | src/components/DataUpload.tsx:27-35 | a drop ends the drag and handles only the first file, if any |
| DataUpload.DataUpload.HandleFileChange | src/components/DataUpload.tsx:37-42 | the picker's first file, if any, is handled |
| DataUpload.DataUpload.RemoveFile | src/components/DataUpload.tsx:76-78 | the current file is cleared and nothing else changes |
| PromptInput.FindDemo | src/components/PromptInput.tsx:28 | no match exactly when no entry has the value; otherwise the first entry with it |
| PromptInput.PromptInput.constructor | src/components/PromptInput.tsx:24 | the prompt starts empty |
| PromptInput.PromptInput.Edit | src/components/PromptInput.tsx:44 | typing replaces the prompt |
| PromptInput.PromptInput.SelectDemo | src/components/PromptInput.tsx:26-32 | a matching value sets the prompt to the first match's label; no match leaves it |
| PromptInput.PromptInput.Disabled | src/components/PromptInput.tsx:71 | the button is disabled exactly when the prompt is blank after trimming |
| PromptInput.PromptInput.Submit | src/components/PromptInput.tsx:34-38 | only a prompt that is non-blank after trimming is submitted, untrimmed, and the prompt is kept |
| Prelude.OrElse | src/components/tabs/BasicTab.tsx:67 | JavaScript's logical-or fallback on an optional text: a present non-empty text, else the default; the EDA tab's fallback to 'No output' (EdaTab.tsx:421) is the same operation |
| BasicTab.Outcome | src/components/tabs/BasicTab.tsx:57-86 | a success has no error field and shows the fixed output and plot; a failure or exception has empty output and the message or 'An unknown error occurred' |
| BasicTab.ErrorIffFailed | src/components/tabs/BasicTab.tsx:57-86 | a result carries an error exactly when the request did not succeed |
| BasicTab.DatasetLabel | src/components/tabs/BasicTab.tsx:115 | the selected dataset, else the upload's name, else 'None'; never empty |
| BasicTab.BasicTab.constructor | src/components/tabs/BasicTab.tsx:22-31 | idle, empty prompt, no result and no data chosen |
| BasicTab.BasicTab.DataArgument | src/components/tabs/BasicTab.tsx:41 | the request's data is the selected dataset when set, else the upload |
| BasicTab.BasicTab.BeginSubmit | src/components/tabs/BasicTab.tsx:33-41 | a blank prompt changes nothing and sends nothing; otherwise loading starts and exactly one request is sent |
| BasicTab.BasicTab.FinishSubmit | src/components/tabs/BasicTab.tsx:42-89 | the result is the outcome's and loading ends on every outcome |
| BasicTab.BasicTab.SelectDataset | src/components/tabs/BasicTab.tsx:92-99 | choosing a sample drops the upload, so the two are never both set |
| BasicTab.BasicTab.UploadData | src/components/tabs/BasicTab.tsx:101-104 | an upload drops the chosen sample, so the two are never both set |

## Left out

- The R execution bridge (`executeRCode`, the WebR instance, dataset marshalling, package installation, retry on error) and `apiService` are not part of this model. Their results are parameters (`RunOutcome`, `Response`), and `addGeneratedCode` is a recorded sequence.
- The R scripts of the EDA tab are kept as opaque strings, given to the constructor per analysis.
- The model covers no rendering: JSX, toasts, console logging, DOM reads, `scrollIntoView`, highlight clean-up, tooltip size measurement or the Blob/anchor file download. The positioner's DOM reads are parameters.
- `setTimeout` delays are not modelled as time. The tutorial's deferred jump is a queue of pending steps that `TimerFires` consumes in order.
- The awaits in the EDA and Basic tabs are split into start and finish methods. Interleavings between them, and React's stale closures over state, are not modelled.
- JavaScript numbers in the positioner are exact reals. Floating-point rounding is not modelled.
- `parseFloat` and `toString` for the temperature are not modelled: the stored text is returned as text. The temperature slider is not part of this model.
- `toUpperCase` is modelled for ASCII letters only.
- `Object.entries` is assumed to follow insertion order. This holds except for integer-like keys, which JavaScript lists first. Keys that coincide with `Object.prototype` property names are treated as ordinary keys. In the source such a key misbehaves: a dataset name, or a `tabSource` or `tabId` such as "constructor", makes `!acc[key]` false in the grouping of ReportTab.tsx:60-63 and 128-131 and of Tutorial.tsx:46-52, and the following `push` on the inherited function throws.
- The report date (`toLocaleDateString`) and chunk timestamps are parameters or absent.
- `uploadedData` is typed `any` in the source. Its truthiness is modelled as present or absent.
- ReportTab.ReportTab.SelectAll: for a tab name with no group the source throws, because the group is undefined. The model returns the selection unchanged.
- The report tab's active sub-tab, the tutorial sheet and `showAllTutorials`, the `cn` class-name helper, the OpenAI client, and the Ask, Synth, BrainGen and About tabs are presentation or network code. They are not part of this model.
