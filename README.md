# Lead platform front end — a Dafny model

This project models the client-side logic of a React front end for a lead-generation
platform. Users register and sign in, configure a search (niche, city, country, ages,
quantity and contact fields), and watch leads being generated. They can also export the
leads as CSV, browse and delete earlier searches, and see how many credits they have used.

The backend, the browser and the libraries are outside the model. Backend answers, the
clock, ISO timestamps and `Math.random()` draws reach the model as parameters.

Modules, one per source file, plus shared ones:

- `LeadGeneration` (src/pages/LeadGeneration.tsx): The simulated batched generation session. Pure step functions on a `Page` snapshot. A class `GenerationPage` holds the React state. Each running `setInterval` closure is an `Interval` object with its own counter.
- `LeadProgress` (src/components/LeadProgress.tsx): Pure formatters and visibility rules. A class `ProgressPanel` holds the elapsed-seconds counter.
- `GerarLeads` (src/pages/GerarLeads.tsx): Pure: the sample-lead builder, its toast, the 8-column CSV and the file name.
- `GenerateLeads` (src/pages/GenerateLeads.tsx): Pure: niche labels, the form rules, the credit cap, score tiers, the submit and download handlers with their toasts, and the new-search reset.
- `LeadFilterForm` (src/components/LeadFilters.tsx): Pure toggle and submit functions. A class `FieldSelector` holds the selection state.
- `HistoryList` (src/components/SearchHistory.tsx): Pure labels, status texts and rendering. A class `HistoryPanel` holds the expanded entry.
- `Creditos` (src/pages/Creditos.tsx): Pure: the totals folds, the built-in history and the card texts.
- `AuthContext` (src/contexts/AuthContext.tsx): Pure transitions on a `Session` snapshot. A class `AuthProvider` whose methods perform them. `initializeAuth` is split at its `await`, so a sign-in can happen between its two halves.
- `RegisterPage`, `LoginPage`, `ProfilePage` (src/pages/Register.tsx, Login.tsx, Profile.tsx): Pure validators and submit outcomes, toasts included.
- `FormRules` (shared): The react-hook-form rule order and the email regular expression.
- `Text` (shared): The JavaScript string operations the pages use: `length` in UTF-16 code units, number rendering, `padStart`, `join`/`split`, `includes`, `slice(-n)`.
- `LeadTypes` (src/types/leads.ts): Records.
- `Browser`, `Wrappers` (shared): Toasts and their `message || fallback` text, `Math.random()` draws, `Option`, `Result`.

Each class method ensures that its new state equals a pure step function of the old state,
for example `Snapshot() == Fired(old(Snapshot()), ...)`. The properties are proved about
those step functions.

## Model

| member | source | states |
|---|---|---|
| LeadGeneration.TotalBatches | src/pages/LeadGeneration.tsx:100 | `Math.ceil(q/30)`: the least n with 30·n ≥ q |
| LeadGeneration.LastBatch | src/pages/LeadGeneration.tsx:100-131 | The batch at which the interval clears itself: ceil(q/30), or batch 1 when q is 0 |
| LeadGeneration.Generated | src/pages/LeadGeneration.tsx:118 | `generated` after a batch is min(30·batch, q) |
| LeadGeneration.BatchCount | src/pages/LeadGeneration.tsx:107 | A batch creates at most 30 leads. Up to the end of the quantity, the previous `generated` plus this count is the new `generated`; past the end it creates none |
| LeadGeneration.Eta | src/pages/LeadGeneration.tsx:119 | The estimate is two seconds per batch still to come, and 0 exactly from the last batch on |
| LeadGeneration.PhoneBlock | src/pages/LeadGeneration.tsx:111 | `Math.floor(r*9000)+1000` is a four-digit number for every draw |
| LeadGeneration.MakeLead | src/pages/LeadGeneration.tsx:107-116 | Lead i of batch b is "Lead k" / "lead{k}@example.com" with k = (b−1)·30+i+1. It carries the filters' city and country, source "Generated" and the tick's timestamp |
| LeadGeneration.NewLeads | src/pages/LeadGeneration.tsx:107-116 | A batch's leads are exactly `BatchCount` leads, lead i being `MakeLead(i)` |
| LeadGeneration.LeadNumber | src/pages/LeadGeneration.tsx:107-116 | Lead i of batch b carries number (b−1)·30+i+1, the run's city and country and source "Generated" |
| LeadGeneration.NumberedAfterBatch | src/pages/LeadGeneration.tsx:107-126 | Appending batch k to the (k−1)·30 leads numbered 1, 2, … keeps the list numbered 1, 2, … |
| LeadGeneration.RunLeadsNumbered | src/pages/LeadGeneration.tsx:77-147 | After any run the leads are numbered 1, 2, 3, … with the run's city and country |
| LeadGeneration.Initial | src/pages/LeadGeneration.tsx:12-22 | The screen starts idle, with no leads, no history, not loading, on the filters view |
| LeadGeneration.MockHistory | src/pages/LeadGeneration.tsx:39-68 | The two built-in searches: ids "1"/"2", 487 and 198 leads, both completed with a download URL |
| LeadGeneration.HistoryLoaded | src/pages/LeadGeneration.tsx:37-70 | `loadHistory` replaces the history and changes nothing else |
| LeadGeneration.Started | src/pages/LeadGeneration.tsx:72-86 | Start: total = quantity, generated = batch = 0, no leads, status generating, estimate ceil(q/30)·2, loading, progress view; the history is kept |
| LeadGeneration.CompletedSearch | src/pages/LeadGeneration.tsx:138-145 | The entry a finished run records: the run's filters, the generated count, the tick's ISO timestamp, status completed, id and URL from the clock |
| LeadGeneration.Fired | src/pages/LeadGeneration.tsx:103-150 | One firing: sets the counter, `generated` and the estimate, and appends the batch at the end. At the last batch it marks the run completed, ends loading and prepends one history entry; otherwise status, loading and history are untouched |
| LeadGeneration.Run | src/pages/LeadGeneration.tsx:103-150 | k successive firings of the interval after the start; `RunProgress` states what they leave |
| LeadGeneration.Stopped | src/pages/LeadGeneration.tsx:164-170 | Stop changes only the status (to idle) and the loading flag; leads, counts and history stay |
| LeadGeneration.BatchesBeforeLast | src/pages/LeadGeneration.tsx:107-129 | Before the last batch every batch was full and the run had not finished |
| LeadGeneration.RunProgress | src/pages/LeadGeneration.tsx:77-147 | After k firings of a run: counter k, `generated` = number of leads = min(30k, q), estimate as `Eta`, leads numbered 1, 2, 3, … with the run's city/country. The status is generating before the last batch and completed at it, with `generated` = q and one completed entry prepended to the history |
| LeadGeneration.EtaCountsDown | src/pages/LeadGeneration.tsx:119 | The estimate never grows from batch to batch and is 0 at the last batch |
| LeadGeneration.GeneratedGrows | src/pages/LeadGeneration.tsx:118 | `generated` never decreases from batch to batch |
| LeadGeneration.HundredLeads | src/pages/LeadGeneration.tsx:100-119 | 100 leads: four batches of 30, 30, 30, 10 with estimates 8, 6, 4, 2, 0 |
| LeadGeneration.StoppedRunKeepsGoing | src/pages/LeadGeneration.tsx:103-170 | After a stop, a firing still appends its batch and keeps status idle; the last batch still marks the run completed and adds a history entry |
| LeadGeneration.RemoveSearch | src/pages/LeadGeneration.tsx:189 | Delete leaves no entry with that id and never grows the list |
| LeadGeneration.RemoveSearchKeepsOthers | src/pages/LeadGeneration.tsx:189 | An entry survives delete iff it was there and has another id |
| LeadGeneration.RemoveSearchSplits | src/pages/LeadGeneration.tsx:189 | Delete works piecewise over a concatenation, so the survivors keep their order |
| LeadGeneration.RemoveAbsentSearch | src/pages/LeadGeneration.tsx:189 | Deleting an unknown id leaves the history unchanged |
| LeadGeneration.FindSearch | src/pages/LeadGeneration.tsx:182 | `find` answers None iff no entry has the id, otherwise the first entry of the history with that id |
| LeadGeneration.RedownloadNotice | src/pages/LeadGeneration.tsx:181-186 | Redownload toasts "Download da busca #<last 6 of id> iniciado" iff the id is in the history |
| LeadGeneration.Deleted | src/pages/LeadGeneration.tsx:188-191 | Delete on the screen changes only the history |
| LeadGeneration.LeadFields | src/pages/LeadGeneration.tsx:197-204 | A row has one cell per header column |
| LeadGeneration.Row | src/pages/LeadGeneration.tsx:197-204 | One row: the six fields joined by commas, unquoted (`RowReadsBack` splits it back) |
| LeadGeneration.CsvLines | src/pages/LeadGeneration.tsx:194-205 | The file's lines: the header, then one comma-joined row per lead in order |
| LeadGeneration.Csv | src/pages/LeadGeneration.tsx:195-205 | `downloadCSV`'s content: the lines joined by line breaks (`CsvLineCount` splits it back into N+1 lines) |
| LeadGeneration.DownloadLeads | src/pages/LeadGeneration.tsx:193-211 | `downloadCSV` names the file `<name>.csv` with the CSV as its body |
| LeadGeneration.DownloadLast30 | src/pages/LeadGeneration.tsx:153-157 | The last-30 export holds the final min(30, N) leads in order |
| LeadGeneration.DownloadAll | src/pages/LeadGeneration.tsx:159-162 | The full export holds every lead, in `todos-<total>-leads.csv` |
| LeadGeneration.CsvLineCount | src/pages/LeadGeneration.tsx:195-205 | With no line break inside a field, the file splits back into the header and the rows: N+1 lines |
| LeadGeneration.RowReadsBack | src/pages/LeadGeneration.tsx:197-204 | With no comma inside a field, a row splits back into its six fields |
| LeadGeneration.NumberAvoids | src/pages/LeadGeneration.tsx:108-111 | Rendered numbers hold no comma or line break |
| LeadGeneration.GeneratedLeadIsCsvSafe | src/pages/LeadGeneration.tsx:197-204 | A generated lead has no comma or line break in any field whenever the run's city and country have none |
| LeadGeneration.CommaInCityShiftsColumns | src/pages/LeadGeneration.tsx:197-204 | Fields are not quoted: a city with a comma reads back as seven cells, shifting country and source |
| LeadGeneration.Interval.constructor | src/pages/LeadGeneration.tsx:98-103 | A new interval captures the filters, starts its counter at 0 and is live |
| LeadGeneration.GenerationPage.constructor | src/pages/LeadGeneration.tsx:12-22 | The screen starts in `Initial()` |
| LeadGeneration.GenerationPage.LoadHistory | src/pages/LeadGeneration.tsx:37-70 | The state becomes `HistoryLoaded` of the old state |
| LeadGeneration.GenerationPage.ShowView | src/pages/LeadGeneration.tsx:12 | Only the current view changes |
| LeadGeneration.GenerationPage.GenerateLeads | src/pages/LeadGeneration.tsx:72-103 | The state becomes `Started` of the old state, and a new live interval for the filters is returned |
| LeadGeneration.GenerationPage.Tick | src/pages/LeadGeneration.tsx:103-150 | The interval's counter goes up by one and it stays valid. It stops exactly at the last batch. The state becomes `Fired` of the old state |
| LeadGeneration.GenerationPage.DownloadLastLeads | src/pages/LeadGeneration.tsx:153-157 | Saves `DownloadLast30` of the current progress and toasts "Download dos últimos 30 leads iniciado"; the state is unchanged |
| LeadGeneration.GenerationPage.StopGeneration | src/pages/LeadGeneration.tsx:164-179 | The state becomes `Stopped` of the old state, no interval is touched, and the plain toast "Geração interrompida" is raised |
| LeadGeneration.GenerationPage.DeleteSearch | src/pages/LeadGeneration.tsx:188-191 | The state becomes `Deleted` of the old state and the toast "Busca excluída com sucesso" is raised, whether or not the id was present |
| LeadProgress.Pad2 | src/components/LeadProgress.tsx:38 | `padStart(2,'0')` gives only digits, exactly two of them when n is below 100 |
| LeadProgress.Pad2ReadsBack | src/components/LeadProgress.tsx:38 | The padded digits read back as n |
| LeadProgress.FormatTime | src/components/LeadProgress.tsx:35-39 | The clock text ends in ':' plus two characters; it is 5 long iff under 6000 seconds |
| LeadProgress.FormatTimeReadsBack | src/components/LeadProgress.tsx:35-39 | The clock reads back: seconds part below 60, minutes·60 + seconds = input |
| LeadProgress.MinSec | src/components/LeadProgress.tsx:36-37 | Minutes and seconds: seconds below 60 and minutes·60 + seconds = total; minutes below 100 exactly when the total is below 6000 |
| LeadProgress.MinSecIsDivMod | src/components/LeadProgress.tsx:36-37 | They are the floor quotient and the remainder of the total by 60 |
| LeadProgress.ColonParts | src/components/LeadProgress.tsx:38 | "<m>:<ss>" splits back at the colon into its two parts |
| LeadProgress.FormatEstimatedTime | src/components/LeadProgress.tsx:41-45 | The estimate ends in 's', and has no 'm' under a minute |
| LeadProgress.EstimatedTimeReadsBack | src/components/LeadProgress.tsx:41-45 | The estimate reads back: "<s>s" under a minute, "<m>m <s>s" with s < 60 otherwise |
| LeadProgress.Title | src/components/LeadProgress.tsx:69-71 | There is a header title iff the status is not idle |
| LeadProgress.TitlesDiffer | src/components/LeadProgress.tsx:69-71 | Different statuses never share a title |
| LeadProgress.ControlsFor | src/components/LeadProgress.tsx:79-183 | Stop and remaining time iff generating; last-30 iff there are leads; download-all iff leads and completed; list iff leads and open |
| LeadProgress.ControlsDuringRun | src/components/LeadProgress.tsx:79-183 | Over a run with q > 0: before the last batch stop and the estimate show and download-all does not; at the last batch the reverse; last-30 shows once a batch has arrived |
| LeadProgress.VisibleLeads | src/components/LeadProgress.tsx:183 | The list shows the last min(10, N) leads, in order |
| LeadProgress.VisibleLeadsOfRun | src/components/LeadProgress.tsx:183 | During a run the j-th of the V visible leads out of N is lead number N−V+j+1 (its name, email, city, country and source): the most recent by number, in order |
| LeadProgress.VisibleNumberedLeads | src/components/LeadProgress.tsx:183 | The last ten of a list numbered 1, 2, 3, … keep their numbers |
| LeadProgress.ProgressPanel.constructor | src/components/LeadProgress.tsx:18-19 | Elapsed 0, list open |
| LeadProgress.ProgressPanel.SecondPassed | src/components/LeadProgress.tsx:21-33 | The counter goes up by exactly 1 per second iff generating |
| LeadProgress.ProgressPanel.ToggleLeads | src/components/LeadProgress.tsx:174 | Flips the list flag only |
| GerarLeads.DefaultForm | src/pages/GerarLeads.tsx:53-64 | Defaults: Brasil, ages 18–65, phone and email on, website off, limit 100 |
| GerarLeads.Age | src/pages/GerarLeads.tsx:81 | The age lies in [min, max] when min ≤ max, and in (max, min] otherwise |
| GerarLeads.ScaledDrawBounds | src/pages/GerarLeads.tsx:81 | floor(r·span) lies in [0, span) for a positive span and in [span, 0] otherwise |
| GerarLeads.MockLead | src/pages/GerarLeads.tsx:76-85 | Lead i: nome/email numbered i+1 whatever `includeEmail` says. Phone present iff `includePhone`, site present iff `includeWebsite`. Empty city/state default to São Paulo/SP; the niche is copied |
| GerarLeads.MockLeads | src/pages/GerarLeads.tsx:76 | Exactly `limit` leads, lead i built from draw i |
| GerarLeads.GeneratedToast | src/pages/GerarLeads.tsx:89 | A success toast: the requested `limit` in decimal, then " leads gerados com sucesso!" |
| GerarLeads.GeneratedToastCountsLeads | src/pages/GerarLeads.tsx:76-89 | The number before the toast's first space reads back as the number of leads built |
| GerarLeads.AgesWithinRange | src/pages/GerarLeads.tsx:81 | With min ≤ max every generated age is in range |
| GerarLeads.PhoneFor | src/pages/GerarLeads.tsx:79 | The sample phone: "(11) 99999-" then the padded number, at least 15 characters |
| GerarLeads.PhoneNumbersLeads | src/pages/GerarLeads.tsx:79 | Below 10000 the phone is 15 characters and its last four digits read back as i+1 |
| GerarLeads.LeadFields | src/pages/GerarLeads.tsx:103-112 | Eight cells; missing phone/site become empty cells; the age in decimal |
| GerarLeads.Row | src/pages/GerarLeads.tsx:103-112 | One row: the eight cells joined by commas, unquoted |
| GerarLeads.CsvLines | src/pages/GerarLeads.tsx:100-113 | The header, then one row per lead in order |
| GerarLeads.DownloadCsv | src/pages/GerarLeads.tsx:97-119 | No file iff the list is empty; otherwise the CSV under `FileName` |
| GerarLeads.FileName | src/pages/GerarLeads.tsx:119 | `leads_` + the ISO date part + `.csv`: starts with "leads_" and ends with ".csv" |
| GerarLeads.FileNameIsDate | src/pages/GerarLeads.tsx:119 | For "<date>T<time>" the file is `leads_<date>.csv` |
| GerarLeads.NumberHasNoBreak | src/pages/GerarLeads.tsx:79 | Rendered numbers hold no line break |
| GerarLeads.MockRowHasNoBreak | src/pages/GerarLeads.tsx:103-112 | A sample lead's row has no line break when the form's texts have none |
| GerarLeads.MockCellHasNoBreak | src/pages/GerarLeads.tsx:103-112 | Each cell of a sample lead's row is free of line breaks under the same condition |
| GerarLeads.HeaderHasNoBreak | src/pages/GerarLeads.tsx:100-102 | The header has no line break |
| GerarLeads.LinesReadBack | src/pages/GerarLeads.tsx:101-113 | Rows without line breaks: the file splits back into its lines |
| GerarLeads.CsvLineCount | src/pages/GerarLeads.tsx:76-113 | The generated file has `limit`+1 lines when city, state and niche have no line break |
| GenerateLeads.DefaultForm | src/pages/GenerateLeads.tsx:37-43 | Defaults: empty niche, limit 100, phone and email on, website off; `pais` is left to the input's DOM default "Brasil" |
| GenerateLeads.NichoLabel | src/pages/GenerateLeads.tsx:92-111 | The table's label for the 15 known niches, the input unchanged otherwise |
| GenerateLeads.LabelTable | src/pages/GenerateLeads.tsx:92-111 | Every key of the label table starts with a lower-case letter and no label does |
| GenerateLeads.NichoLabelIdempotent | src/pages/GenerateLeads.tsx:92-111 | Labelling a label changes nothing: no label is a key |
| GenerateLeads.RangeError | src/pages/GenerateLeads.tsx:255-258 | `min` then `max` on a number input: passes iff empty or in range, with the low or high message otherwise |
| GenerateLeads.AgeError | src/pages/GenerateLeads.tsx:209-234 | An age passes iff empty or in 18..100 |
| GenerateLeads.LimitError | src/pages/GenerateLeads.tsx:255-258 | The limit passes iff empty or in 1..1000 |
| GenerateLeads.Errors | src/pages/GenerateLeads.tsx:143-258 | The form passes iff a niche is given and ages and limit are empty or in range |
| GenerateLeads.DefaultFormNeedsNiche | src/pages/GenerateLeads.tsx:37-43 | The default form fails only for the niche, and passes once a niche is given |
| GenerateLeads.SubmitDisabled | src/pages/GenerateLeads.tsx:318 | The button is enabled iff not loading and a niche is chosen |
| GenerateLeads.EnabledSubmitHasNiche | src/pages/GenerateLeads.tsx:318 | An enabled button implies the niche rule passes |
| GenerateLeads.MaxShown | src/pages/GenerateLeads.tsx:271 | min(credits, 1000), with missing credits as 0 |
| GenerateLeads.ScoreTier | src/pages/GenerateLeads.tsx:404-408 | The tiers ≥80, 60–79, <60 are disjoint and exhaustive |
| GenerateLeads.DownloadKey | src/pages/GenerateLeads.tsx:69 | The key is the suffix after the last '/', or the whole text when there is none |
| Text.LastSplitIsLastOfSplit | src/pages/GenerateLeads.tsx:69 | The key function is `split('/').pop()`: the last piece of `Split` |
| GenerateLeads.DownloadKeyOfPath | src/pages/GenerateLeads.tsx:69 | For "<dir>/<file>" the key is the file |
| GenerateLeads.SavedFileName | src/pages/GenerateLeads.tsx:74 | `leads_<nicho>_<Date.now()>.csv`: starts with "leads_" and ends with ".csv" |
| GenerateLeads.SavedFileNameReadsBack | src/pages/GenerateLeads.tsx:74 | `leads_<nicho>_<ts>.csv` splits back at '_' into its parts |
| GenerateLeads.SuccessText | src/pages/GenerateLeads.tsx:58 | The success text is the fixed prefix, the reported total in decimal, then the fixed suffix |
| GenerateLeads.SuccessTextShowsTotal | src/pages/GenerateLeads.tsx:58 | The toast's digits are exactly the reported total's, at the position after the prefix |
| GenerateLeads.Submitted | src/pages/GenerateLeads.tsx:49-65 | Loading ends on both paths. Success shows the results with the answer's leads and URL and toasts `SuccessText` of `totalLeads`; failure leaves them and toasts `FallbackText` of the API message with "Erro ao gerar leads", never empty |
| GenerateLeads.DownloadCsv | src/pages/GenerateLeads.tsx:67-83 | Requests `DownloadKey` of the URL; a file named `SavedFileName` is saved iff the request succeeded, with "CSV baixado com sucesso!"; otherwise "Erro ao baixar CSV" |
| GenerateLeads.NewSearch | src/pages/GenerateLeads.tsx:85-90 | Results hidden, leads empty, URL empty, form back to its defaults |
| GenerateLeads.NewSearchClearsKey | src/pages/GenerateLeads.tsx:85-90 | After a new search the download key is empty |
| LeadFilterForm.DefaultFilters | src/components/LeadFilters.tsx:57-64 | Defaults: empty niche and city, Brasil, 100, ages 25–55, fields email and phone |
| LeadFilterForm.Without | src/components/LeadFilters.tsx:72 | `filter(f => f !== field)`: keeps exactly the other fields, never grows |
| LeadFilterForm.Toggled | src/components/LeadFilters.tsx:70-74 | A present field is removed, an absent one appended; only that field's membership flips |
| LeadFilterForm.WithoutAbsent | src/components/LeadFilters.tsx:72 | Removing an absent field changes nothing |
| LeadFilterForm.WithoutSplits | src/components/LeadFilters.tsx:72 | Removal works piecewise, so the other fields keep their order |
| LeadFilterForm.WithoutKeepsNoDuplicates | src/components/LeadFilters.tsx:72 | Removal keeps a duplicate-free list duplicate-free |
| LeadFilterForm.ToggleKeepsNoDuplicates | src/components/LeadFilters.tsx:70-74 | Toggling keeps a duplicate-free list duplicate-free |
| LeadFilterForm.ToggleAbsentTwice | src/components/LeadFilters.tsx:70-74 | Toggling an absent field twice gives the exact list back |
| LeadFilterForm.TogglePresentTwice | src/components/LeadFilters.tsx:70-74 | Toggling a present field twice keeps the membership but moves the field to the end |
| LeadFilterForm.ToggleKeepsKeys | src/components/LeadFilters.tsx:229-238 | Toggling one of the four keys keeps a selection made of those keys |
| LeadFilterForm.FieldSelector.constructor | src/components/LeadFilters.tsx:48-63 | Selection and form value start as [email, phone], which satisfies the invariant |
| LeadFilterForm.FieldSelector.Toggle | src/components/LeadFilters.tsx:69-76 | The selection becomes `Toggled`. The form's `fields` receives the selection from before the toggle. The invariant (no duplicates, only the four keys) is kept |
| LeadFilterForm.Submitted | src/components/LeadFilters.tsx:78-83 | Submit forwards every field unchanged except `fields`, which is the current selection |
| LeadFilterForm.SubmitIgnoresStaleFields | src/components/LeadFilters.tsx:75-83 | Whatever stale list the form holds never reaches the generator |
| LeadFilterForm.QuantityError | src/components/LeadFilters.tsx:191-195 | Quantity passes iff given and in 10..10000, with the three messages |
| LeadFilterForm.Errors | src/components/LeadFilters.tsx:110-195 | The form passes iff niche and city are given and quantity is in range |
| LeadFilterForm.DefaultsNeedNicheAndCity | src/components/LeadFilters.tsx:57-142 | The default form fails with the niche and city messages, in that order |
| HistoryList.NextSelection | src/components/SearchHistory.tsx:80 | Clicking the selected entry clears the selection; any other click selects that id |
| HistoryList.ClickTwice | src/components/SearchHistory.tsx:80 | Two clicks on the same entry reopen it only if it was open before |
| HistoryList.HistoryPanel.constructor | src/components/SearchHistory.tsx:16 | Nothing is selected at first |
| HistoryList.HistoryPanel.Click | src/components/SearchHistory.tsx:80 | The selection becomes `NextSelection` of the old one |
| HistoryList.CountLabel | src/components/SearchHistory.tsx:70 | "1 busca realizada" exactly for 1, otherwise the plural of both words |
| HistoryList.CountLabelReadsBack | src/components/SearchHistory.tsx:70 | The digits before the first space read back as the count |
| HistoryList.CountLabelInjective | src/components/SearchHistory.tsx:70 | Different counts give different labels |
| HistoryList.EntryLabel | src/components/SearchHistory.tsx:88 | "Busca #" and the last six characters of the id, or the whole id when shorter |
| HistoryList.NoticeNamesEntry | src/components/SearchHistory.tsx:88 | The redownload toast of the screen names the entry by the suffix its label shows |
| HistoryList.ToneOf | src/components/SearchHistory.tsx:29-41 | The red icon and colour iff the search failed |
| HistoryList.Badge | src/components/SearchHistory.tsx:98 | "Falhou" iff failed, "Concluída" otherwise |
| HistoryList.DetailStatus | src/components/SearchHistory.tsx:149 | "Falhou" iff failed, "Concluído" otherwise |
| HistoryList.StatusTextsAgree | src/components/SearchHistory.tsx:29-149 | Icon, badge and detail each separate the two statuses; badge and detail differ only in the completed case |
| HistoryList.ActionsFor | src/components/SearchHistory.tsx:157-180 | Delete is always offered; redownload iff completed |
| HistoryList.EntryFor | src/components/SearchHistory.tsx:76-182 | An entry shows its label, badge, tone, niche and "city, country"; the details and actions appear iff it is the selected one |
| HistoryList.Render | src/components/SearchHistory.tsx:43-76 | The empty state iff the history is empty; otherwise the count and one view per entry in order |
| HistoryList.AtMostOneExpanded | src/components/SearchHistory.tsx:80-125 | With distinct ids at most one entry is expanded, and it is the selected one |
| HistoryList.ClickExpandsOnlyIt | src/components/SearchHistory.tsx:80-125 | Clicking a closed entry leaves exactly that entry expanded |
| Creditos.Total | src/pages/Creditos.tsx:111-117 | A left fold of an amount over the history: 0 for none, the amount for one entry |
| Creditos.TotalCreditsUsed | src/pages/Creditos.tsx:111-113 | 0 for an empty history |
| Creditos.TotalLeadsGenerated | src/pages/Creditos.tsx:115-117 | 0 for an empty history |
| Creditos.TotalAppend | src/pages/Creditos.tsx:111-117 | The total over two histories in a row is the sum of their totals |
| Creditos.TotalIsSumFromFront | src/pages/Creditos.tsx:111-117 | The fold equals the sum taken from the front |
| Creditos.TotalPointwise | src/pages/Creditos.tsx:111-117 | Amounts agreeing entry by entry give the same total |
| Creditos.CreditsMatchLeads | src/pages/Creditos.tsx:111-117 | One credit per lead in every entry makes the two totals equal |
| Creditos.TotalNonNegative | src/pages/Creditos.tsx:111-117 | Non-negative amounts give a non-negative total |
| Creditos.TotalBoundsEntries | src/pages/Creditos.tsx:111-117 | With non-negative amounts, the total is at least each entry's amount |
| Creditos.MockHistory | src/pages/Creditos.tsx:40-92 | Three entries, each charging one credit per lead |
| Creditos.MockTotals | src/pages/Creditos.tsx:40-117 | Both totals of the built-in history are 450 |
| Creditos.NichoDisplayName | src/pages/Creditos.tsx:107-109 | Same length; only the first character is uppercased; "" stays "" |
| Text.UpperChar | src/pages/Creditos.tsx:108 | `toUpperCase` on one character: a lower-case ASCII letter becomes its capital, anything else is unchanged |
| Creditos.NichoDisplayNameIdempotent | src/pages/Creditos.tsx:107-109 | Capitalising twice equals capitalising once |
| Creditos.Region | src/pages/Creditos.tsx:261 | `estado` when non-empty, else `pais` |
| Creditos.Location | src/pages/Creditos.tsx:260-261 | Ends with the region. It is longer than the region iff a non-empty city is given, and then starts with "<cidade>, " |
| Creditos.MockLocations | src/pages/Creditos.tsx:260-261 | The built-in cards read "São Paulo, SP", "Rio de Janeiro, RJ", "Belo Horizonte, MG" |
| Creditos.FieldTags | src/pages/Creditos.tsx:290-304 | Each tag appears iff its flag is on, in the order Email, Telefone, Website |
| AuthContext.MockToken | src/contexts/AuthContext.tsx:107 | The fallback token starts with "mock-jwt-token" |
| AuthContext.DemoUser | src/contexts/AuthContext.tsx:55-62 | The demo user restored for a mock token (id "1", "demo@example.com", 1000 credits); `FallbackLoginSurvivesReload` states what a reload makes of it |
| AuthContext.Mount | src/contexts/AuthContext.tsx:38-42 | First render: no user, loading, token state read from storage |
| AuthContext.InitStart | src/contexts/AuthContext.tsx:45-66 | Up to its `await`, `initializeAuth` waits on `/auth/me` exactly for a non-empty stored token without the mock marker. No token (or an empty one) only ends loading; a mock token restores the demo user and keeps the token |
| AuthContext.InitResolve | src/contexts/AuthContext.tsx:68-80 | Once `/auth/me` settles, applied to the state of that moment: its user and the saved token on success; storage, token and user cleared on failure; loading ends |
| AuthContext.Init | src/contexts/AuthContext.tsx:44-82 | `initializeAuth` with nothing in between: always ends loading. No token (or an empty one) changes nothing else. A mock token restores the demo user and keeps the token. A real token takes `/auth/me`'s user, or clears storage, token and user when that call fails |
| AuthContext.SignInDuringInitIsWiped | src/contexts/AuthContext.tsx:68-115 | A sign-in that completes while `/auth/me` is pending for a rejected token is wiped: user, token and storage end cleared |
| AuthContext.SignInDuringInitKeepsNewStorage | src/contexts/AuthContext.tsx:68-115 | If the old token is accepted instead, user and token state revert to the old token's while storage keeps the new token; after a fallback sign-in the two differ |
| AuthContext.Login | src/contexts/AuthContext.tsx:87-115 | Login always signs in, with token in state and storage. A success uses the response's token and user. A failure uses a mock token and a user with the typed email and 1000 credits |
| AuthContext.Register | src/contexts/AuthContext.tsx:117-143 | Like login; the fallback user keeps name and email and has 100 credits |
| AuthContext.Logout | src/contexts/AuthContext.tsx:145-149 | Storage, token and user cleared |
| AuthContext.UpdateProfile | src/contexts/AuthContext.tsx:151-165 | No user: nothing changes. Otherwise the given name/email override; id, credits and dates stay; token and storage untouched |
| AuthContext.MockTokenIsRecognised | src/contexts/AuthContext.tsx:52-107 | The fallback token contains the marker `initializeAuth` looks for |
| AuthContext.FallbackLoginSurvivesReload | src/contexts/AuthContext.tsx:52-114 | After a fallback login, a reload signs in the demo user under the same token whatever `/auth/me` says |
| AuthContext.LogoutThenReloadIsSignedOut | src/contexts/AuthContext.tsx:145-149 | After logout a reload signs nobody in |
| AuthContext.AuthProvider.constructor | src/contexts/AuthContext.tsx:38-42 | The provider starts as `Mount(storage)` |
| AuthContext.AuthProvider.BeginInitializeAuth | src/contexts/AuthContext.tsx:45-66 | Performs `InitStart`: finishes, or returns the awaited token with the state unchanged |
| AuthContext.AuthProvider.FinishInitializeAuth | src/contexts/AuthContext.tsx:68-80 | The state becomes `InitResolve` of the state at that moment |
| AuthContext.AuthProvider.InitializeAuth | src/contexts/AuthContext.tsx:45-82 | Both halves back to back: the state becomes `Init` of the old state |
| AuthContext.AuthProvider.SignIn | src/contexts/AuthContext.tsx:87-115 | The state becomes `Login` of the old state |
| AuthContext.AuthProvider.SignUp | src/contexts/AuthContext.tsx:117-143 | The state becomes `Register` of the old state |
| AuthContext.AuthProvider.SignOut | src/contexts/AuthContext.tsx:145-149 | The state becomes `Logout` of the old state |
| AuthContext.AuthProvider.EditProfile | src/contexts/AuthContext.tsx:151-165 | The state becomes `UpdateProfile` of the old state |
| FormRules.MatchesEmailPattern | src/pages/Register.tsx:100 | The regular expression as a predicate: some '@' and '.' split the text into the three character classes (its partner is `EmailCheckIsPattern`) |
| FormRules.IsValidEmail | src/pages/Register.tsx:100 | The direct check: the shape at the first '@' and the domain's last '.' (proved equal to the pattern by `EmailCheckIsPattern`) |
| FormRules.EmailCheckIsPattern | src/pages/Register.tsx:100 | The direct email check accepts exactly the strings the regular expression matches |
| FormRules.EmailCheckComplete | src/pages/Register.tsx:100 | Every match of the pattern is accepted |
| FormRules.ValidEmailHasOneAt | src/pages/Register.tsx:100 | An accepted address has no '@' after its first one, so exactly one |
| FormRules.ShapeHasOneAt | src/pages/Register.tsx:100 | Any match of the pattern has no '@' after the one it splits at |
| FormRules.RequiredError | src/pages/Profile.tsx:116 | `required`: fails iff the value is empty, with the given message |
| FormRules.MinLengthError | src/pages/Register.tsx:75-79 | `required` then `minLength`: passes iff `value.length` (UTF-16 code units) is at least n; the empty value gets the required message |
| FormRules.PasswordError | src/pages/Register.tsx:121-126 | The password rule of the three forms (Login.tsx:164-170, Profile.tsx:207-213): passes iff its UTF-16 `length` is at least 6; empty gets the form's required message, short gets "Senha deve ter pelo menos 6 caracteres" |
| FormRules.EmailError | src/pages/Register.tsx:97-103 | Passes iff the pattern matches; empty gets "Email é obrigatório", otherwise "Email inválido" |
| FormRules.ConfirmError | src/pages/Register.tsx:157-161 | Passes iff non-empty and equal to the other field |
| FormRules.Failures | src/pages/Register.tsx:86-87 | The shown messages: none iff every field passes |
| RegisterPage.NameError | src/pages/Register.tsx:74-80 | Name passes iff its `length` in UTF-16 code units is at least 2, with the two messages |
| RegisterPage.AstralNamePasses | src/pages/Register.tsx:74-80 | A single character above U+FFFF (an emoji) already passes the name rule |
| RegisterPage.Errors | src/pages/Register.tsx:74-161 | No field message iff name `length` ≥ 2, email valid, password `length` ≥ 6 and confirmation equal |
| RegisterPage.SubmitsExactlyWhenValid | src/pages/Register.tsx:67-193 | `onSubmit` runs iff the required terms box is ticked and every field rule holds |
| RegisterPage.Submits | src/pages/Register.tsx:186-193 | Whether `onSubmit` runs: the browser holds the submit event back while the required terms box is unticked, then the field rules decide |
| RegisterPage.UntickedTermsBlockSubmit | src/pages/Register.tsx:186-193 | With the terms box unticked nothing is submitted |
| RegisterPage.Submit | src/pages/Register.tsx:31-43 | Success toasts "Conta criada com sucesso!" and goes to the dashboard; failure toasts the API message or "Erro ao criar conta", never empty, and stays; loading ends on both paths |
| Browser.FallbackText | src/pages/Register.tsx:38 | The failure toast of Register and of GenerateLeads.tsx:60: the API message when it is non-empty, otherwise the page's own text; never empty when that text is not |
| LoginPage.Errors | src/pages/Login.tsx:140-170 | No field message iff the email is valid and the password `length` ≥ 6 |
| LoginPage.ErrorMessage | src/pages/Login.tsx:73-84 | The first truthy of message, data.message and data.error; otherwise the network text for ERR_NETWORK, else the default |
| LoginPage.ConnectionToast | src/pages/Login.tsx:31-48 | The probe reports success iff the request succeeded or it failed with 401 and not ERR_NETWORK |
| LoginPage.Submit | src/pages/Login.tsx:50-91 | Loading ends on both paths; it navigates to the dashboard iff sign-in returned; a failure shows `ErrorMessage` |
| ProfilePage.NameError | src/pages/Profile.tsx:116 | Name passes iff non-empty |
| ProfilePage.CurrentPasswordError | src/pages/Profile.tsx:189 | Current password passes iff non-empty |
| ProfilePage.Errors | src/pages/Profile.tsx:116-235 | Passes iff name given and email valid, plus, while the password section is open, current password given, new `length` ≥ 6 and confirmation equal. Fields of a closed section are skipped, as react-hook-form skips unmounted fields |
| ProfilePage.FormFor | src/pages/Profile.tsx:26-40 | The form values from a user: its name and email (or empty), empty password fields |
| ProfilePage.Initial | src/pages/Profile.tsx:17-31 | Defaults from the user, not loading, password section closed |
| ProfilePage.Reset | src/pages/Profile.tsx:35-42 | With a user the form is reset to its name and email; without one nothing changes |
| ProfilePage.TogglePasswordForm | src/pages/Profile.tsx:173 | Flips the password section only |
| ProfilePage.SubmitProfile | src/pages/Profile.tsx:44-59 | Invalid: nothing happens. Valid: `updateProfile` gets name and email, success toast, section closed, loading ends |
| ProfilePage.SubmitPassword | src/pages/Profile.tsx:61-79 | Invalid: nothing happens. A mismatch: error toast, state untouched. Otherwise success toast, section closed, loading ends |
| ProfilePage.OpenPasswordFormNeverMismatches | src/pages/Profile.tsx:62-65 | With the section open, the handler's own mismatch branch is unreachable |
| ProfilePage.ResetFormAcceptedIffUserValid | src/pages/Profile.tsx:35-140 | Right after a reset the personal form passes iff the user's name is non-empty and its email valid |
| ProfilePage.SavedProfileReachesUser | src/pages/Profile.tsx:47-50 | A saved profile reaches the signed-in user with the submitted name and email; id and credits are kept |
| Text.SliceLast | src/components/SearchHistory.tsx:88 | `slice(-n)`: the last min(n, length) elements |
| Text.FirstSplit | src/pages/GerarLeads.tsx:119 | `split(sep)[0]`: the prefix before the first separator |
| Text.PadStart | src/pages/GerarLeads.tsx:79 | `padStart`: the text right-aligned with fill characters to the width |
| Text.NatToStringRoundTrip | src/pages/LeadGeneration.tsx:109 | A rendered number reads back as itself |
| Text.SplitJoin | src/pages/LeadGeneration.tsx:196-205 | Parts without the separator, once joined, split back into themselves |
| Text.JoinSplit | src/pages/LeadGeneration.tsx:196-205 | The other round trip: joining what `split` gave restores the string |
| Text.NatToString | src/pages/LeadGeneration.tsx:109 | `String(n)` for n ≥ 0: at least one character, all digits (`NatToStringRoundTrip` reads it back) |
| Text.IntToString | src/pages/GerarLeads.tsx:108 | `${idade}` for any integer: the digits of a non-negative one, a minus sign before those of its magnitude otherwise |
| Text.Join | src/pages/LeadGeneration.tsx:196-205 | `Array.prototype.join` with a one-character separator; its partners are `SplitJoin` and `JoinSplit` |
| Text.Split | src/pages/GenerateLeads.tsx:69 | `String.prototype.split` on one character: at least one piece, none holding the separator |
| Text.LastSplit | src/pages/GenerateLeads.tsx:69 | `split(sep).pop()`, proved equal to the last piece by `LastSplitIsLastOfSplit` |
| Text.IndexOf | src/pages/GenerateLeads.tsx:69 | The first occurrence: the character is there and nowhere before |
| Text.Contains | src/contexts/AuthContext.tsx:52 | `includes`: true iff the text occurs at some position |
| Text.Repeat | src/pages/GerarLeads.tsx:79 | n copies of the fill character, as `padStart` uses them |
| Text.Utf16Length | src/pages/Register.tsx:75-79 | JavaScript's `length`: between one and two code units per character |
| Text.Utf16LengthAppend | src/pages/Register.tsx:75-79 | `length` adds up over concatenation |
| Text.Utf16LengthOfBmp | src/pages/Register.tsx:75-79 | Without characters above U+FFFF, `length` counts characters |

## Left out

- Rendering, routing, icons, CSS classes and the HTML `min`/`max` attributes of number inputs are not modelled. Only what the rules and handlers compute is.
- The browser's own check of `type="email"` inputs (Register, Login and Profile) is not modelled. It can hold back a submission the regular expression accepts, such as "a@b..cd"; `SubmitsExactlyWhenValid` and the `Errors` functions describe react-hook-form's rules only. The required terms checkbox of the Register form is modelled.
- The REST and websocket services, with their interceptors and connection lifecycle. Their answers are parameters: `AuthResponse`, `me`, `GenerateResponse` and `RequestError`.
- `progressPercentage` (floating-point division with no zero guard), `toLocaleString`, `toLocaleDateString` and `formatDate` are not modelled. Neither are the toasts whose text uses them.
- `new Date().toISOString()` and `Date.now()` are parameters. One tick reads the clock once, although the source calls it several times within a tick, so the lead ids, the history id and the download URL share one value.
- `createdAt`/`lastLogin` of a user are the clock value, not its ISO text.
- Real timers are not modelled: `setInterval`, `setTimeout`, the two-second pause and `clearInterval`. They become explicit `Tick`/`SecondPassed` calls. The order in which several live intervals fire is up to the caller.
- The panel's "Campos" line (`fields.join(', ')`) and the filters' `toLocaleString` quantities are not modelled.
- Creditos.NichoDisplayName: uppercases ASCII letters only. JavaScript's `toUpperCase` also maps accented letters, and may lengthen a string ('ß' becomes "SS").
- GenerateLeads.NichoLabel: the labels object's inherited keys are not modelled. In the source a niche such as "constructor" or "toString" reads an `Object.prototype` member.
- GerarLeads: the `nicho` required rule and `NaN` from an emptied number input are not modelled. `MockLeads` is defined for every form.
- LoginPage.Submit and RegisterPage.Submit model the pages' catch branches. `AuthContext.Login`/`Register` never throw, so with this context those branches cannot be reached.
- The catch toasts of the Profile handlers ("Erro ao atualizar perfil", "Erro ao alterar senha") and of `handleGenerateLeads` in LeadGeneration ("Erro ao iniciar geração de leads") are not modelled: nothing in their `try` blocks throws, so they cannot be raised.
- GerarLeads: the catch toast "Erro ao gerar leads" of `handleGenerateLeads` is not modelled. `Array.from` would throw only for a `limit` above 2^32 − 1, and `MockLeads` builds `limit` leads for every natural number.
- The connection probe's toast texts (`ConnectionToast`) include the request error's message; a missing message shows as "undefined".
- Dashboard, Pricing, Comprar, Home, Layout, App, the debug panels and the test scripts are not part of this model.

Two behaviours of the code differ from what its own texts suggest; the model follows the code:

- The stop button's toast reads "Geração interrompida", but `handleStopGeneration` never clears the interval. Later ticks keep adding leads, and the run still ends completed with a history entry (`StoppedRunKeepsGoing`).
- `handleFieldToggle` writes the stale `selectedFields`, from before the toggle, into the form's `fields` value; `onSubmit` overrides it with the current selection (`SubmitIgnoresStaleFields`).
