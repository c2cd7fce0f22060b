# A verified model of the Cyber Ocean lead CRM

The CRM is a browser application. It keeps a list of sales leads and shows them
on drag-and-drop boards: a stage pipeline, payment stages and demo days. It also
raises follow-up alerts, filters and selects leads, exports them as CSV, edits
them in a form, and draws charts over them. This project models the logic
underneath the rendering as Dafny values, functions and classes, and proves what
that logic promises. One module follows each source file:

- `UseLeads` (hooks/useLeads.ts): the lead list as a class with its append,
  merge-by-id and delete-by-id operations, and the CSV text of `exportToCSV`,
  with a reader of that text proving the export loses nothing.
- `App` (App.tsx): the alert rules and the `forEach` loop that collects them,
  the alerts per view, search and filters, the selection toggle, delete's
  cleanup of the selection, and bulk export.
- `LeadModal` (components/LeadModal.tsx): the form state, loading a lead into
  it, and the effect that resizes the installment and invoice lists to their
  counts. Because the effect re-runs when its own outputs change, it is
  modelled as a step function and shown to stop at a fixed point. Also the
  change handlers, including `parseInt`.
- `PipelineView`, `PaymentsPipelineView` and `DemoPipelineView`: the board
  columns, the drag state machines, and the drop guards.
- `ReasonFrequencyChart`, `LeadSourcePieChart` and `ConversionRateChart`: the
  chart aggregations.
- Support modules: `Types` (types.ts), `Constants` (constants.ts), `Wrappers`
  (`Option`), `Seqs` (`filter`, subsequences, bucketing by key) and `Counting`.
  `Counting` models the `reduce` into a record, `Object.entries`, the stable
  sort by count and the top-five slice.

Dates are abstracted. Each date computation receives `today`, a day number
standing for `new Date()`, and `dayOf`, which reads a stored date string as a
day number. `dayOf` returns None where `parseISO` gives an invalid date; every
comparison with such a date is false in JavaScript, so no rule fires.
`differenceInDays`, `differenceInCalendarDays`, `isToday` and `isBefore` all
become differences and comparisons of day numbers.

The model follows hooks/useLeads.ts as written, in particular:
- `updateLead` is a plain shallow merge. It fills in no demo dates, and it gives no default payment stage when the stage changes.
- The CSV header list has thirteen scalar fields and no nested installments.
- hooks/useLeads.ts defines no bulk update, no JSON import or export, and no backup ring buffer.

`PAYMENT_PIPELINE_STAGES` and `DEMO_PIPELINE_STAGES` are imported but not
defined in constants.ts. Their orders are taken from the union types of
types.ts:4 and types.ts:6.

## Model

| member | source | states |
|---|---|---|
| Types.TextsRoundTrip | types.ts:2-12 | Each enumeration's stored text reads back as the same value, so the texts identify the values. |
| Constants.PaymentStageIndex | App.tsx:150 | `indexOf` gives the first position of the stage in the payment ordering, and that position holds the stage. |
| Constants.PipelineStagesExact | constants.ts:3-10 | Every pipeline stage is listed, and none is listed twice. |
| UseLeads.MergeLaws | hooks/useLeads.ts:51 | The spread keeps the id. An empty patch changes nothing. Merging a patch twice is merging it once. Merging `p` then `q` is merging their combination, where the later key wins. |
| UseLeads.MergeStageOnly | hooks/useLeads.ts:51 | A stage-only patch changes the stage and nothing else: no payment stage or demo date is filled in. |
| UseLeads.Updated | hooks/useLeads.ts:48-54 | The list keeps its length and order. Each lead with the id is merged with the patch; every other lead is unchanged. |
| UseLeads.UpdateUnknownId | hooks/useLeads.ts:48-54 | An update for an id no lead has leaves the list as it was. |
| UseLeads.UpdateKeepsIds | hooks/useLeads.ts:48-54 | Every position keeps its id, so unique ids stay unique. |
| UseLeads.Removed | hooks/useLeads.ts:56-58 | No lead with the deleted id remains. |
| UseLeads.RemovedSpec | hooks/useLeads.ts:56-58 | The result is a subsequence of the list (order kept). Every lead with another id is kept as often as it occurs, and no lead with the id is. An unknown id changes nothing. |
| UseLeads.RemovedKeepsUnique | hooks/useLeads.ts:56-58 | Deleting keeps unique ids unique. |
| UseLeads.AddKeepsUnique | hooks/useLeads.ts:39-46 | Appending a lead with a fresh id keeps the ids unique. |
| UseLeads.FindById | components/PipelineView.tsx:35 | `find`: a result exactly when some lead has the id, and then it is the first such lead. |
| UseLeads.LeadStore.constructor | hooks/useLeads.ts:29 | The store starts with the given leads. |
| UseLeads.LeadStore.AddLead | hooks/useLeads.ts:39-46 | Exactly one lead is appended: the data with the given id and timestamp. Every earlier lead stays, in order. |
| UseLeads.LeadStore.UpdateLead | hooks/useLeads.ts:48-54 | The new list is the old one with the patch merged into the leads that have the id. |
| UseLeads.LeadStore.DeleteLead | hooks/useLeads.ts:56-58 | The new list is the old one without the leads that have the id. |
| UseLeads.LeadStore.ExportToCsv | hooks/useLeads.ts:60-76 | There is no output exactly when the list is empty. Otherwise the text reads back as the thirteen values of every lead, in list order. |
| UseLeads.RowValues | hooks/useLeads.ts:66-71 | A record carries one value per header: thirteen. |
| UseLeads.Rows | hooks/useLeads.ts:69-75 | One row per lead, in list order, each the lead's values. |
| UseLeads.ReadEscaped | hooks/useLeads.ts:72-73 | Reading a doubled-quote escaped cell up to its closing quote gives the original value back. |
| UseLeads.ReadRecordLine | hooks/useLeads.ts:70-74 | A record, its quoted cells joined by commas, reads back as its cells. |
| UseLeads.ReadAllRecords | hooks/useLeads.ts:69-76 | The records joined by newlines read back as the rows of all leads. |
| UseLeads.CsvRoundTrip | hooks/useLeads.ts:66-76 | A non-empty list gives a text. Its header line is followed by the records, and it reads back as every lead's row. |
| UseLeads.CsvEmpty | hooks/useLeads.ts:61-64 | An empty list produces no CSV text. |
| App.LeadAlert | App.tsx:114-176 | The alert a lead raises, if any, is about that lead. |
| App.DeriveAlerts | App.tsx:110-180 | The `forEach` loop, applying the four rules in turn, builds exactly the alerts of the leads in lead order. |
| App.PushAlerts | App.tsx:114-176 | One pass of the `forEach` body, the four rules in turn, appends exactly the lead's alert, if any, and keeps what was already pushed. |
| App.AlertsConcat | App.tsx:114-179 | The alerts of two lists in a row are the alerts of the first, then those of the second. |
| App.AlertsBound | App.tsx:114-179 | There are no more alerts than leads, because each lead raises at most one. Every alert's lead is in the list. |
| App.QuietStages | App.tsx:114-176 | Contacted and Lost - Refused leads raise no alert. |
| App.NewLeadRule | App.tsx:116-124 | A New Lead raises a pipeline alert exactly when it is more than 3 days old, and the message carries that age. |
| App.DelayedRule | App.tsx:128-135 | A Delayed lead with a recontact date gets "Re-contact today." on the day and the "was due" alert once the day has passed. A future date raises nothing, and so does a missing one. |
| App.DemoRule | App.tsx:138-146 | An active demo raises a demo alert exactly when its end day is today or past. The message is "ends today" or "ended N days ago" with N = -daysLeft. |
| App.PaymentRule | App.tsx:149-176 | A paid lead raises a payment alert exactly when all of these hold: the payment stage is set, not Done and not the first; the installment before it exists with a non-empty, readable date; and 30 or more days have passed. The alert is a payments alert for that lead, naming its payment stage and the number of days since that date. So the Upfront stage never alerts. |
| App.ViewAlerts | App.tsx:182-187 | The dashboard gets every alert. Another view gets exactly the alerts of its type. |
| App.ViewAlertsPartition | App.tsx:182-187 | A view's alerts keep the list's order. The three boards' alert lists add up to the whole list. |
| App.OccursAtStart | App.tsx:98-100 | An occurrence at position 0 is a prefix. |
| App.IncludesAt | App.tsx:98-100 | `includes` holds exactly when the term occurs at some position. |
| App.FilteredLeadsSpec | App.tsx:95-108 | The filtered list is an order-preserving subsequence. An empty search with all filters on "All" keeps every lead. A kept lead matches the search and each non-"All" filter. Every matching lead is kept, as often as it occurs in the list, and no other lead is. |
| App.SearchFindsName | App.tsx:97-98 | A term that occurs in the name, ignoring ASCII letter case, keeps the lead. |
| App.Without | App.tsx:64 | The id is gone, and every other id keeps its membership. |
| App.WithoutAbsent | App.tsx:71 | Removing an id that is not there changes nothing. |
| App.WithoutAppended | App.tsx:71-72 | Removing a just-appended id gives back the selection. |
| App.WithoutDistinct | App.tsx:71 | Removing an id keeps the selection free of repeats. |
| App.ToggleSpec | App.tsx:68-74 | Toggling flips that id's membership and no other's. Toggling twice restores membership, and restores the selection exactly when the id was absent. No id is ever held twice. |
| App.BulkExportExportsUnselected | App.tsx:90-93 | As written, two leads with only the first selected still export both records. |
| App.BulkExportSpec | App.tsx:90-93 | The corrected export gives nothing exactly when no lead is selected. Otherwise the text reads back as the selected leads' rows, in list order. |
| App.AppState.constructor | App.tsx:35 | The selection starts empty. |
| App.AppState.HandleSelectLead | App.tsx:68-74 | The selection becomes the toggled selection. |
| App.AppState.ClearSelection | App.tsx:76 | The selection becomes empty. |
| App.AppState.HandleDeleteLead | App.tsx:61-66 | Once confirmed, the lead leaves the store and its id leaves the selection. Without confirmation nothing changes. |
| App.AppState.HandleBulkExport | App.tsx:90-93 | The corrected export of the Findings row, not the export as written (which is App.BulkExportAsWritten and writes every lead). The text reads back as the selected leads' rows, in list order. There is no output exactly when no lead is selected. |
| LeadModal.ResizedSpec | components/LeadModal.tsx:57-59 | `Array.from` with `cur[i] \|\| filler` has the asked-for length (0 for a negative one). It keeps entries by index, fills new slots, is the identity at the right length, and resizing again changes nothing. |
| LeadModal.StepInstallments | components/LeadModal.tsx:54-61 | After a run, the installment list has the length its count asks for, with old entries kept and new ones blank. |
| LeadModal.StepCyberOceanInvoices | components/LeadModal.tsx:63-74 | With the Cyber Ocean RIB, invoices are resized the same way. An invoice count above a set installment count is lowered to it; otherwise the count is kept. |
| LeadModal.StepOtherRibInvoices | components/LeadModal.tsx:75-78 | With any other RIB type, invoices that are present or counted become [] and 0; otherwise they are untouched. |
| LeadModal.StepFrame | components/LeadModal.tsx:51-80 | A run changes only the two lists and the invoice count. |
| LeadModal.StepFixedExactlyWhenNormal | components/LeadModal.tsx:56-76 | For counts that are not negative, a run leaves the form unchanged exactly when the lists match their counts and the invoice count is within bounds. |
| LeadModal.SecondRunKeepsDeps | components/LeadModal.tsx:80 | A second run leaves the effect's dependencies unchanged, so the effect stops. |
| LeadModal.AfterEffectsFixed | components/LeadModal.tsx:51-80 | Once the effect has stopped re-running, another run would change nothing: the form is at its fixed point. |
| LeadModal.InstallmentsSettled | components/LeadModal.tsx:56 | A list that already has its length is left alone. |
| LeadModal.InvoicesSettled | components/LeadModal.tsx:63-79 | After the effect has settled, a run leaves the invoices and their count alone. |
| LeadModal.BeforeT | components/LeadModal.tsx:35 | `split('T')[0]` is a prefix without 'T' that stops at the first 'T'. |
| LeadModal.ToInputDate | components/LeadModal.tsx:35 | '' for an absent or empty date, otherwise the text before the first 'T'. |
| LeadModal.InputDates | components/LeadModal.tsx:43 | Each installment keeps its place but shows its date's date part. |
| LeadModal.LoadedFormSpec | components/LeadModal.tsx:36-44 | Loading keeps the lead's identity, texts, counts, RIB type and invoices. Each of the four dates and each installment date shows as `toInputDate` of the stored date. The installments keep their number and documents. |
| LeadModal.InputDateShown | components/LeadModal.tsx:35 | A loaded date shows as '' exactly when it is missing, empty or starts with 'T'. A date without a time part shows whole. Otherwise the shown text is the part of the date before its first 'T'. |
| LeadModal.HandleChangeSpec | components/LeadModal.tsx:83-91 | After a change, the input shows the value it produced. An optional field becomes `undefined` exactly when the value is ''. Every other input shows what it showed before. The phone, the lists and the identity are untouched. |
| LeadModal.ChangedShowsValue | components/LeadModal.tsx:83-91 | The changed input shows the new value. An optional field (every field except name, source, client type and stage) becomes `undefined` exactly when the value is ''. A count option reads back as the option's text. |
| LeadModal.ChangedStoresCount | components/LeadModal.tsx:86-87 | Choosing the count option for n stores the number n (`parseInt(value, 10)`), for either count. |
| LeadModal.ChangedKeepsOthers | components/LeadModal.tsx:83-91 | The other inputs show what they showed before. |
| LeadModal.NatText | components/LeadModal.tsx:174-176 | The value of a count option is a non-empty run of decimal digits. |
| LeadModal.TrimStart | components/LeadModal.tsx:87 | `parseInt` first skips the leading white space, and only that. |
| LeadModal.DigitRun | components/LeadModal.tsx:87 | `parseInt` reads the longest run of leading digits. |
| LeadModal.ParseIntNatText | components/LeadModal.tsx:87 | Parsing a number's decimal text gives the number. |
| LeadModal.ParseIntSign | components/LeadModal.tsx:87 | A leading '-' or '+' gives the sign of the digits' value. |
| LeadModal.ParseIntSpace | components/LeadModal.tsx:87 | Leading white space does not change the result. |
| LeadModal.ParseIntPrefix | components/LeadModal.tsx:87 | Digits followed by a non-digit parse as the digits alone. |
| LeadModal.ParseIntNoDigits | components/LeadModal.tsx:87 | A text starting with no digit, sign or space is NaN. |
| LeadModal.InstallmentDateSpec | components/LeadModal.tsx:93-97 | Only that installment's date changes. The length, its documents, the other entries and the rest of the form stay. |
| LeadModal.LeadForm.constructor | components/LeadModal.tsx:28 | The form starts as the initial lead state. |
| LeadModal.LeadForm.LoadEffect | components/LeadModal.tsx:32-49 | When open, the form becomes the loaded lead, or the initial state when there is no lead. When closed, nothing changes. |
| LeadModal.LeadForm.NormaliseEffect | components/LeadModal.tsx:51-80 | The queued updates, guarded by the rendered form, give exactly one step of the effect when the form is open, and nothing when it is closed. |
| LeadModal.LeadForm.HandleChange | components/LeadModal.tsx:83-91 | The form becomes the changed form. |
| LeadModal.LeadForm.HandlePhoneChange | components/LeadModal.tsx:129-131 | A cleared phone stores '', otherwise the number. |
| LeadModal.LeadForm.HandleInstallmentDateChange | components/LeadModal.tsx:93-97 | The form becomes the form with that installment's date replaced. |
| PipelineView.StageDrop | components/PipelineView.tsx:32-39 | An update is asked for exactly when a (truthy) id is being dragged, a shown lead has it, and the first such lead is in another stage. The payload is exactly `{ stage }`. |
| PipelineView.DropOnStore | App.tsx:213-218 | The board is given the filtered list and `onUpdateLead` merges into the store's full list. When the shown list is a subsequence of the store's, the dragged lead is in the store, and the drop moves every store lead with its id to the column's stage and leaves the rest unchanged. |
| PipelineView.DropMovesOnlyThatLead | components/PipelineView.tsx:37 | Applying the drop's update moves the dragged lead to the column's stage and changes nothing else. |
| PipelineView.PipelineColumnsSpec | components/PipelineView.tsx:46-47 | One column per stage, each holding exactly the leads of its stage. Column sizes add up to the number of leads. |
| PipelineView.PipelineBoard.constructor | components/PipelineView.tsx:15-16 | No drag and no hovered column at first. |
| PipelineView.PipelineBoard.HandleDragStart | components/PipelineView.tsx:18-21 | Drag start records the id. |
| PipelineView.PipelineBoard.HandleDragOver | components/PipelineView.tsx:23-26 | Drag over records the column. |
| PipelineView.PipelineBoard.HandleDragLeave | components/PipelineView.tsx:28-30 | Drag leave clears the column. |
| PipelineView.PipelineBoard.HandleDrop | components/PipelineView.tsx:32-42 | The drop asks for the guarded update, and both drag fields end as null whether or not an update fired. |
| PaymentsPipelineView.PaymentDrop | components/PaymentsPipelineView.tsx:40-46 | An update is asked for exactly when an id is being dragged, a lead has it, and the first such lead's payment stage differs from the column. |
| PaymentsPipelineView.PaymentKeys | components/PaymentsPipelineView.tsx:54-55 | Column k matches the payment stage at position k. |
| PaymentsPipelineView.PaymentColumnsSpec | components/PaymentsPipelineView.tsx:54-55 | A column holds exactly the leads of its payment stage. A lead without one is in no column. The columns together hold every lead that has one. |
| PaymentsPipelineView.PaymentKeyCount | components/PaymentsPipelineView.tsx:54-55 | The leads whose payment stage is a column key are the leads with a payment stage. |
| PaymentsPipelineView.PaymentsBoard.constructor | components/PaymentsPipelineView.tsx:17-18 | No drag and no hovered column at first. |
| PaymentsPipelineView.PaymentsBoard.HandleDragStart | components/PaymentsPipelineView.tsx:20-24 | Drag start records the id. |
| PaymentsPipelineView.PaymentsBoard.HandleDragEnd | components/PaymentsPipelineView.tsx:26-29 | Drag end clears the id. |
| PaymentsPipelineView.PaymentsBoard.HandleDragOver | components/PaymentsPipelineView.tsx:31-34 | Drag over records the column. |
| PaymentsPipelineView.PaymentsBoard.HandleDragLeave | components/PaymentsPipelineView.tsx:36-38 | Drag leave clears the column. |
| PaymentsPipelineView.PaymentsBoard.HandleDrop | components/PaymentsPipelineView.tsx:40-50 | The drop asks for the guarded update, and both drag fields end as null. |
| DemoPipelineView.DemoDay | components/DemoPipelineView.tsx:16-28 | Null without a (readable) start date, or with a future one. Otherwise a difference of 0 is Day 1, 1 is Day 2, and 2 or more is Day 3. |
| DemoPipelineView.DemoKeys | components/DemoPipelineView.tsx:33 | Column k matches demo day k. |
| DemoPipelineView.DemoColumnsSpec | components/DemoPipelineView.tsx:33-34 | A column holds exactly the leads on its day. A lead on no day is in no column, and a lead is in at most one column. The columns hold every classified lead once. |
| DemoPipelineView.DemoKeyCount | components/DemoPipelineView.tsx:33-34 | The leads whose day is a column key are the classified leads. |
| Counting.KeyIndex | components/charts/ReasonFrequencyChart.tsx:22 | The record lookup `acc[key]`: the first entry with the key, or -1 when none has it. |
| Counting.TallyCorrect | components/charts/ReasonFrequencyChart.tsx:20-24 | The record the `reduce` builds lists each key once, with its number of occurrences (at least 1) and no other key. The counts add up to the number of keys counted. |
| Counting.FirstPos | components/charts/LeadSourcePieChart.tsx:19-22 | The first index holding the key, or the length when the key does not occur. |
| Counting.TallyOrder | components/charts/LeadSourcePieChart.tsx:19-24 | The record lists its keys in the order of their first occurrence: a key is placed in the record when it is first counted, and bumping it later leaves it where it is. |
| Counting.CountsOfKeys | components/charts/LeadSourcePieChart.tsx:19-22 | Every counted key occurs among the inputs. |
| Counting.CountByKey | components/charts/LeadSourcePieChart.tsx:19-22 | The `reduce` loop builds exactly that record. |
| Counting.SortByCountDescSpec | components/charts/ReasonFrequencyChart.tsx:28 | The sort puts the largest counts first and is a permutation that keeps the total. It is stable: equal counts keep their order. It keeps keys distinct. |
| Counting.SortTies | components/charts/ReasonFrequencyChart.tsx:28 | When the record is in first-seen order, the sort keeps entries of equal count in first-seen order. |
| Counting.RankingSpec | components/charts/ReasonFrequencyChart.tsx:20-28 | The sorted record lists every key once, with its number of occurrences, largest first. Ties keep first-seen order, and the counts add up to the number of keys. |
| Counting.DistinctKeysBound | components/charts/ReasonFrequencyChart.tsx:24-26 | Distinct keys drawn from a set are no more entries than the set has elements. |
| Counting.TopFive | components/charts/ReasonFrequencyChart.tsx:29 | `slice(0, 5)` is the prefix of length min(5, n). |
| ReasonFrequencyChart.ReasonNames | components/charts/ReasonFrequencyChart.tsx:18-21 | One reason text per lead that has a reason, each one of the five reason texts. |
| ReasonFrequencyChart.ReasonNamesCount | components/charts/ReasonFrequencyChart.tsx:18-24 | Each lead with a reason adds one to its own reason and to no other. |
| ReasonFrequencyChart.CountPositive | components/charts/ReasonFrequencyChart.tsx:18-24 | A lead with a reason makes that reason's count positive. |
| ReasonFrequencyChart.ReasonFrequencyData | components/charts/ReasonFrequencyChart.tsx:18-29 | The component's computation gives the chart data. |
| ReasonFrequencyChart.ReasonRankingSpec | components/charts/ReasonFrequencyChart.tsx:18-28 | Before the cut: sorted, distinct names, and each count is the number of leads with that reason (at least 1). Every lead's reason appears. The counts add up to the number of leads with a reason. There are at most five entries. Reasons with equal counts keep the order in which they first occur among the leads. |
| ReasonFrequencyChart.ReasonChartSpec | components/charts/ReasonFrequencyChart.tsx:26-29 | At most five bars, the first of the ranking. With only five reasons, the slice keeps the whole ranking. |
| LeadSourcePieChart.SourcesCount | components/charts/LeadSourcePieChart.tsx:19-22 | Each source occurs among the keys the `reduce` visits as many times as there are leads with that source, counted independently over the leads. |
| LeadSourcePieChart.SourceData | components/charts/LeadSourcePieChart.tsx:19-24 | The component's computation gives the slice data. |
| LeadSourcePieChart.SourceChartSpec | components/charts/LeadSourcePieChart.tsx:19-24 | Distinct source names, in the order in which each source first occurs among the leads. Each value is the number of leads with that source, counted independently over the leads (at least 1), and each name is some lead's source. Every lead's source has a slice, and the values add up to the number of leads. |
| LeadSourcePieChart.SliceColor | components/charts/LeadSourcePieChart.tsx:44-45 | A slice's colour is in the six-colour palette. |
| LeadSourcePieChart.SliceColorSpec | components/charts/LeadSourcePieChart.tsx:5-45 | Colours repeat every six slices, slice i < 6 gets palette entry i, and six consecutive slices get six different colours. |
| ConversionRateChart.FunnelOf | components/charts/ConversionRateChart.tsx:24-27 | One bar per stage of the list. |
| ConversionRateChart.FunnelOfEntries | components/charts/ConversionRateChart.tsx:24-27 | Bar k is stage k, counting exactly the leads of that stage. |
| ConversionRateChart.FunnelOfTotal | components/charts/ConversionRateChart.tsx:24-27 | The bars add up to the sizes of the board's columns for the same stages. |
| ConversionRateChart.FunnelSpec | components/charts/ConversionRateChart.tsx:24-27 | Six bars in PIPELINE_STAGES order, each counting exactly the leads of its stage: the size of that board column. No bar exceeds the number of leads, and the bars add up to it, since every stage is one of the six. |
| ConversionRateChart.FunnelEmpty | components/charts/ConversionRateChart.tsx:24-27 | No leads give six zero bars. |

## Left out

- Browser I/O is not modelled. That covers the localStorage load and save, the seed data of hooks/useLeads.ts:6-37, the Blob and anchor download of hooks/useLeads.ts:78-86, `alert`, and file reading in `handleFileChange` (components/LeadModal.tsx:99-127). These are side effects with no logic to prove.
- The new lead's id (clock and `Math.random`) and its `dateAdded` timestamp are parameters of `LeadStore.AddLead`, because they are nondeterministic.
- `window.confirm` is the parameter `confirmed` of `AppState.HandleDeleteLead`.
- date-fns is taken as abstract day numbers: `parseISO`, `differenceInDays` and `differenceInCalendarDays` (the model does not tell them apart), `isToday`, `isBefore`, and `toLocaleDateString`. The "was due" message carries the due day number instead of the locale text.
- Alert messages are constructors holding the numbers they show; the English sentences are not built.
- `handleSubmit`'s `toISOString` conversion, `handleSaveLead`, and the modal open and close handlers are left out. They are glue between the form and the store, and the store's operations are modelled.
- `handleBulkDelete` and `handleBulkStageChange` are left out, as are the JSON import and export and the payment-stage update. They call hook functions (`deleteLeads`, `updateLeadsStage`, `updateLeadPaymentStage`, `exportJSON`, `importJSON`) that hooks/useLeads.ts does not define. The payments board therefore returns its update as a value.
- PaymentsPipelineView.PaymentsBoard.HandleDrop: "both drag fields end as null" assumes a defined callback. App.tsx:198 passes `updateLeadPaymentStage`, which hooks/useLeads.ts:89 does not return. So a drop that does ask for an update would call `undefined`, and the resulting TypeError would leave the drag fields set.
- The stage-transition defaulting of demo dates and payment stage is not modelled, because it is not in the code.
- `renderView` (App.tsx:189-222) is modelled only in its pipeline case, which gives the board the filtered list (PipelineView.DropOnStore). The payments and demo filters at App.tsx:195 and App.tsx:205 are left out, as is all rendering. That covers JSX, CSS classes, drag animation classes, PhoneInput, Header, LeadCard, DocumentViewer, Alerts, KpiCard, DashboardView (floating-point rates) and LeadTimelineChart (week bucketing through `startOfWeek`, `format` and `Date.getTime()`).
- App.ToLower: only ASCII letters are lowercased. Unicode case mapping is not modelled.
- LeadModal.IsSpace: `parseInt` is modelled as skipping only the listed white-space characters.
  - Other Unicode space separators are not modelled.
  - `-0` is read as 0.
  - The count fields store None for both `undefined` and NaN, which behave the same in every later use.
- LeadModal.ResizedSpec: lengths above 2^32 - 1, where `Array.from` throws, are not modelled.
- LeadModal.Changed: a required text input (name, source) cleared to '' is stored as '', not `undefined`.
  - The model cannot type `undefined` for a required field, and the inputs are marked `required`.
  - The select inputs are assumed to produce only their offered values (the `Offered` precondition).
- LeadModal.LoadedForm: a key the lead lacks and a key set to `undefined` are the same here. So a lead's explicit `email: undefined` shows the initial '' exactly like a missing email.
- LeadModal.HandleInstallmentDateChange: the index must name an existing installment, as it does for the rendered date inputs. Writing past the end, which leaves holes in a JavaScript array, is not modelled.
- Counting.KeyIndex: `Object.entries` is modelled as insertion order.
  - Integer-like keys, which JavaScript lists first in ascending order, are not modelled, nor is the special key `__proto__`.
  - Reason names are never integer-like. A source name could be, for example "2024".
- Counting.KeyIndex: the record is a plain `{}`, so `acc[key]` also finds the members it inherits from `Object.prototype` (`constructor`, `toString`, `valueOf`, `hasOwnProperty`, `isPrototypeOf`, `propertyIsEnumerable`, `toLocaleString`). The model treats such a key as absent.
  - For a lead whose source has one of these names, `acc[lead.source] || 0` reads the inherited function, and `+ 1` stores a text such as `"function Object() { [native code] }1"`. Further leads with that source append more `1`s to the text.
  - `Object.entries` lists that text as the slice's value. LeadSourcePieChart.SourceChartSpec's counts (at least 1, adding up to the number of leads) describe only sources outside these names. Sources are free texts loaded from storage, so such a source can occur.
  - Reason names are fixed texts outside these names, so ReasonFrequencyChart is unaffected.
- App.PaymentRule: `lead.installments[index - 1]` is out of range or an object. Holes and non-object entries in a stored array are not modelled.

## Findings

| source | as written | input that shows it | evidently intended | confidence | as-written member | corrected member |
|---|---|---|---|---|---|---|
| App.tsx:90-93 with hooks/useLeads.ts:60 | `handleBulkExport` calls `exportToCSV(leadsToExport)`, but `exportToCSV` takes no parameter and exports the whole list | two leads `lead-1` and `lead-2`, with only `lead-1` selected: the CSV holds both records | export only the selected leads, in list order | not executed | App.BulkExportAsWritten (shown by App.BulkExportExportsUnselected) | App.BulkExport (proved by App.BulkExportSpec) |
