# BMC AI Analyst — a Dafny model of the session core

BMC AI Analyst is a small browser application. A user fills in the nine fields of
a Business Model Canvas, in Bengali or English. The app sends the canvas to a
generative-language service and shows the returned analysis as a report and a
departmental action plan.

This project models the logic behind those screens:

- **Session** (`App`): the four views (input, analysing, report, action plan) and
  the working state (canvas, last report, one error message).
  - It keeps a newest-first history of saved canvases, capped at 20 items.
  - After every change the history is written back to the browser's key-value store.
  - The session is the class `App.Session`.
  - Every handler of the page is a method of that class, with a frame that names
    the state cells it writes.
- **Analysis request** (`GeminiService`):
  - the response schema;
  - the prompt, with the nine values put in place;
  - the two-attempt policy: a structured call, then a plain-text fallback with a
    suffixed prompt. It is a method over an abstract service and an abstract
    JSON parser;
  - the markdown-fence stripper, which is two lazy regular expressions, written
    out over `seq<char>`.
- **Input form** (`BmcInput`): the validity guard on the save-draft and submit
  buttons, the submit label, and each input card's value, counter and clear button.
- **Data model** (`Types`): the canvas, the history item, the report and its
  parts, the risk levels, the views and the label table.
- **Report views** (`ActionPlanPage`, `AnalysisReportPage`): the view-model rules.
  - Department icon classification, colour cycling and class-string rewriting.
  - Score bands and risk badges.
  - Defaults for report fields that may be missing.
  - Which fields and sections an export selects.
  - Which boxes and tables appear.
- **String built-ins** (`Text`): the JavaScript string built-ins these rules use.
  They are `indexOf`, `includes`, `trim`, `toLowerCase`, `split`, and `replace`
  with a string pattern.

Behaviour of the code worth knowing:

- A history preview longer than 60 characters is cut to its first 60
  characters plus `...`, so a preview holds up to 63 characters (`App.Preview`).
- Three empty preview fields give the "Untitled Plan" placeholder. A field whose
  text is literally `Untitled Plan` gives the same preview, so the placeholder
  does not by itself mean the fields were empty. `App.PlaceholderPreview` states the exact relation.
- The exported report includes the action-plan section whenever the plan is
  present, even as an empty list. The action-plan page shows its "no plan"
  message for that same report (`AnalysisReportPage.EmptyPlanExportedButNotShown`).
- The report and action-plan views do not require a report. The two handlers
  that open them set the view unconditionally. `App.Session.ViewActionPlan` and
  `App.Session.BackFromActionPlan` state when the "a view with a report has a
  report" invariant still holds.

## Model

| member | source | states |
|---|---|---|
| Types.FieldIndex | types.ts:2-12 | every canvas key has a position in declaration order, and the key list holds it there |
| Types.AllFieldsEnumerate | types.ts:2-12 | the nine keys are distinct and every key is listed |
| Types.Canvas.With | App.tsx:82 | replacing one field sets that field and leaves the other eight unchanged |
| Types.LevelName | types.ts:23-24 | a level is written as one of the three literals "High", "Medium", "Low" |
| Types.LevelNameInjective | types.ts:23-24 | different levels are written differently |
| Types.LabelsFollowFields | types.ts:74-84 | the label table has one entry per key, in declaration order |
| Types.LabelOf | types.ts:74-84 | a key's metadata is the table entry for that key |
| Text.FindFrom | components/ActionPlan.tsx:29-55 | `indexOf`: a found index holds the pattern and no earlier index from the start does; none found means no occurrence |
| Text.FindFirstAt | components/ActionPlan.tsx:290 | the search finds an occurrence when nothing before it starts like the pattern |
| Text.Contains | components/ActionPlan.tsx:31 | `includes` holds exactly when the pattern occurs somewhere |
| Text.ContainsPrefix | components/ActionPlan.tsx:31-32 | containing `p + q` implies containing `p` |
| Text.TrimEmptyIffBlank | components/BMCInput.tsx:26 | a string trims to empty exactly when every character is white space |
| Text.Lower | components/ActionPlan.tsx:29 | lower-casing keeps the length and maps each character |
| Text.Split | components/ActionPlan.tsx:248 | `split` gives at least one piece |
| Text.SplitFirst | components/ActionPlan.tsx:248 | a piece without the separator splits off as the first token |
| Text.SplitNone | components/ActionPlan.tsx:248 | a string without the separator is a single token |
| Text.ReplaceFirst | components/ActionPlan.tsx:290-291 | `replace` with a string pattern rewrites only the first occurrence and keeps the rest; without one the string is unchanged |
| BmcInput.Values | components/BMCInput.tsx:26 | `Object.values` lists the nine values in key order |
| BmcInput.AnyFilled | components/BMCInput.tsx:26 | `some(v => v.trim().length > 0)` holds exactly when some value is not blank |
| BmcInput.ValuesCoverFields | components/BMCInput.tsx:26 | some value is not blank exactly when some field is not blank |
| BmcInput.IsFormValid | components/BMCInput.tsx:26 | the form is valid exactly when at least one field has a non-space character |
| BmcInput.EmptyFormInvalid | components/BMCInput.tsx:26 | an all-empty canvas is invalid |
| BmcInput.FilledFieldMakesValid | components/BMCInput.tsx:26 | one visible character in any field makes the form valid |
| BmcInput.Click | components/BMCInput.tsx:74-88 | both buttons fire exactly when the form is valid, and only their own action |
| BmcInput.BlankFormBlocksActions | components/BMCInput.tsx:76-88 | on an all-blank form neither save-draft nor submit fires |
| BmcInput.SubmitLabel | components/BMCInput.tsx:94-99 | the label says "analyse" exactly on a valid form and "fill in data" exactly otherwise |
| BmcInput.LabelMatchesSubmit | components/BMCInput.tsx:88-99 | the label says "analyse" exactly when submit can fire |
| BmcInput.Card | components/BMCInput.tsx:120-175 | a card shows its value with an empty fallback and counts its characters; the clear button shows exactly for a non-empty value |
| BmcInput.Clear | components/BMCInput.tsx:132-133 | clearing asks to set that one field to "" |
| BmcInput.ClearResetsCard | components/BMCInput.tsx:132-133 | after a clear, the cleared card is empty with no clear button and every other card is unchanged |
| GeminiService.Names | services/geminiService.ts:13-88 | the names of a property list, element by element |
| GeminiService.SchemaRequiresTopLevel | services/geminiService.ts:13-88 | the schema requires all ten report fields, in property order |
| GeminiService.SchemaRequiresNested | services/geminiService.ts:18-84 | each nested object of the schema requires all of its properties |
| GeminiService.SchemaNesting | services/geminiService.ts:18-85 | the nested schemas sit under the report fields they describe |
| GeminiService.SchemaRestrictsLevels | services/geminiService.ts:47-48 | impact and probability are restricted to the three level literals |
| GeminiService.DataLinesAppend | services/geminiService.ts:97-105 | the data lines of two key lists are the lines of the first followed by those of the second |
| GeminiService.DataLinesAround | services/geminiService.ts:97-105 | the data lines split around the line of any one key |
| GeminiService.PromptEmbedsField | services/geminiService.ts:91-164 | between the fixed head and tail text, each value stands verbatim right after its caption, and the values follow key order |
| GeminiService.FirstMatch | services/geminiService.ts:194 | the leftmost lazy match: opener at the first position where a match can start, closer the nearest one after it |
| GeminiService.LazyMatchOpens | services/geminiService.ts:194 | a lazy match at a position means a match can start there |
| GeminiService.FirstMatchNone | services/geminiService.ts:194 | where no match can start, the search finds none |
| GeminiService.LazyMatchUnique | services/geminiService.ts:194 | two lazy matches from one opener end at the same closer |
| GeminiService.FirstMatchIs | services/geminiService.ts:194 | the leftmost lazy match is the one the search returns |
| GeminiService.ExtractJson | services/geminiService.ts:194-195 | the parsed string is always a substring of the text |
| GeminiService.ExtractTagged | services/geminiService.ts:194-195 | a "```json\n"…"\n```" block wins, and its content is extracted |
| GeminiService.ExtractUntagged | services/geminiService.ts:194-195 | without a tagged block, the content between the first pair of "```" is extracted |
| GeminiService.ExtractUnfenced | services/geminiService.ts:195 | without any fence, the whole text is parsed |
| GeminiService.ExtractTaggedFence | services/geminiService.ts:194-195 | a tagged fence around a body without backticks yields exactly the body |
| GeminiService.BareFenceTag | services/geminiService.ts:194 | in a bare fence, the tagged opener can only be a "json\n" start of the body |
| GeminiService.ExtractBareFence | services/geminiService.ts:194-195 | a bare fence around a body without backticks, not starting with "json\n", yields the body |
| GeminiService.ExtractKeepsLooseTag | services/geminiService.ts:194-195 | a "json" tag not followed by a newline stays in the extracted text |
| GeminiService.StructuredResult | services/geminiService.ts:166-180 | attempt 1 succeeds exactly with non-empty text that parses, and its report is that parse |
| GeminiService.FallbackOutcome | services/geminiService.ts:186-200 | attempt 2 fails with a call error exactly when the call throws; otherwise absent text counts as "", the fence is stripped and the result is the parse or a parse error |
| GeminiService.AnalyzeBmc | services/geminiService.ts:166-202 | the structured call is always first; when it succeeds it is the only call, and otherwise exactly one fallback call follows and decides the outcome |
| GeminiService.FallbackDiffersOnlyBySuffix | services/geminiService.ts:168-189 | the fallback request has the same model and prompt plus the fixed suffix, and no schema |
| GeminiService.FencedFallbackRecovers | services/geminiService.ts:177-197 | a service that rejects the schema call but answers the fallback with a fenced body yields that body's parse |
| ActionPlanPage.IconByGroup | components/ActionPlan.tsx:28-57 | each icon is chosen exactly when the lower-cased name matches its group and no earlier group |
| ActionPlanPage.MarketBeatsSales | components/ActionPlan.tsx:30-41 | any name containing "market" gets the megaphone, even "marketing & sales" |
| ActionPlanPage.PaletteFollowsHues | components/ActionPlan.tsx:60-66 | the palette entry at position i is the background/text/border triple of the ith hue |
| ActionPlanPage.ColorForDept | components/ActionPlan.tsx:59-68 | a department's style is a palette entry |
| ActionPlanPage.ColorPeriodFive | components/ActionPlan.tsx:67 | styles repeat with period five, and the style of index i is that of hue i mod 5 |
| ActionPlanPage.ColorsDistinctInCycle | components/ActionPlan.tsx:59-68 | any five consecutive departments get five different styles |
| ActionPlanPage.RoleText | components/ActionPlan.tsx:248 | the second token of a style is the "text-hue-700" class of the department's hue |
| ActionPlanPage.StyleTokens | components/ActionPlan.tsx:248 | a style splits into its three classes |
| ActionPlanPage.BorderOfHue | components/ActionPlan.tsx:289-291 | rewriting a hue's text class gives its 300 border class |
| ActionPlanPage.BulletOfHue | components/ActionPlan.tsx:294-296 | rewriting a hue's text class gives its 400 background class |
| ActionPlanPage.DepartmentClasses | components/ActionPlan.tsx:246-296 | a department's task boxes and bullets use its own hue, in shades 300 and 400 |
| ActionPlanPage.RoleCardBackground | components/ActionPlan.tsx:270-274 | role cards are slate-50 exactly in even-numbered departments |
| ActionPlanPage.RoleCardsAlternate | components/ActionPlan.tsx:270-274 | role-card backgrounds alternate from department to department |
| ActionPlanPage.ActionPlans | components/ActionPlan.tsx:176 | the plan list is the report's plan, or empty when it is missing |
| ActionPlanPage.RoleCards | components/ActionPlan.tsx:267-300 | one card per role, in order, with its role and tasks, the department's background, its title class and the border and fill classes rewritten from it |
| ActionPlanPage.DepartmentCard | components/ActionPlan.tsx:245-263 | a department card has the department's name, the icon of that name, the style of its index and exactly the role cards of its roles |
| ActionPlanPage.DepartmentCardHues | components/ActionPlan.tsx:248-296 | role k's card carries role k's name and tasks, a title in the department's hue at 700, task boxes at 300 and check marks at 400 |
| ActionPlanPage.Page | components/ActionPlan.tsx:236-245 | the "no plan" message shows exactly when the plan is missing or empty; otherwise one card per department, in order |
| AnalysisReportPage.ScoreData | components/AnalysisReport.tsx:19-22 | the donut has a score slice and a remainder slice that sum to 100 |
| AnalysisReportPage.RadarData | components/AnalysisReport.tsx:26-30 | one radar point per segment, with its name and score, out of 10 |
| AnalysisReportPage.SegmentBadge | components/AnalysisReport.tsx:422 | green exactly from 7, yellow exactly from 4 to below 7, red exactly below 4 |
| AnalysisReportPage.SegmentBadgeMonotone | components/AnalysisReport.tsx:422 | a higher score never gets a worse badge |
| AnalysisReportPage.LevelBadge | components/AnalysisReport.tsx:455-460 | red exactly for "High", orange exactly for "Medium", green for any other text |
| AnalysisReportPage.LevelBadgeOfLevel | components/AnalysisReport.tsx:455-460 | the three levels get three different badges |
| AnalysisReportPage.RiskBadges | components/AnalysisReport.tsx:455-461 | a risk's impact and probability badges are red exactly for a high level |
| AnalysisReportPage.OrderedKeys | components/AnalysisReport.tsx:37 | the label table's keys come in declaration order |
| AnalysisReportPage.RowsFromValid | components/AnalysisReport.tsx:41-47 | every exported row holds a non-empty value under its own label |
| AnalysisReportPage.RowsFromOrdered | components/AnalysisReport.tsx:41 | exported rows follow key order strictly |
| AnalysisReportPage.RowsFromComplete | components/AnalysisReport.tsx:41-43 | every key with a non-empty value has a row |
| AnalysisReportPage.InputRows | components/AnalysisReport.tsx:36-53 | the input section lists exactly the non-empty fields, in key order, each under its label |
| AnalysisReportPage.EmptyCanvasNoRows | components/AnalysisReport.tsx:43 | an empty canvas exports no input rows |
| AnalysisReportPage.OrText | components/AnalysisReport.tsx:65 | `v \|\| fallback`: the value when present and non-empty, otherwise the fallback |
| AnalysisReportPage.Risks | components/AnalysisReport.tsx:118 | the risk rows, or none when the list is missing |
| AnalysisReportPage.Kpis | components/AnalysisReport.tsx:136 | the KPI list, or none when it is missing |
| AnalysisReportPage.GrowthHackText | components/AnalysisReport.tsx:133 | page (line 498) and export write the same text: the growth hack when present and non-empty, otherwise "N/A", never an empty paragraph |
| AnalysisReportPage.TopChannels | components/AnalysisReport.tsx:491 | the top channels, or none when the strategy is missing |
| AnalysisReportPage.PitchBoxMatchesExport | components/AnalysisReport.tsx:65 | the pitch box shows exactly when the export writes the pitch rather than "N/A" |
| AnalysisReportPage.TaglineBoxMatchesExport | components/AnalysisReport.tsx:132 | the tagline box shows exactly when the export writes the tagline rather than "N/A" |
| AnalysisReportPage.RiskTableIffRows | components/AnalysisReport.tsx:434 | the risk table shows exactly when there is at least one risk row |
| AnalysisReportPage.WordSections | components/AnalysisReport.tsx:55-167 | the input section is exported exactly on request, and first; the action plan exactly when present, and last |
| AnalysisReportPage.EmptyPlanExportedButNotShown | components/AnalysisReport.tsx:147 | an empty plan list is exported while the action-plan page shows "no plan" |
| AnalysisReportPage.FileName | components/AnalysisReport.tsx:200 | a Word export ends in ".doc", a PDF export in ".pdf" |
| AnalysisReportPage.FileNameSeparatesExports | components/AnalysisReport.tsx:247 | the full and the plain export of one format get different names |
| App.InitialCanvasEmpty | App.tsx:10-20 | the initial canvas has nine empty fields and is not a valid form |
| App.LoadHistory | App.tsx:31-40 | a missing key or unparsable text gives an empty history; a stored list gives that list |
| App.StoreRoundTrip | App.tsx:61 | a written history loads back unchanged |
| App.PreviewSource | App.tsx:47-50 | the source is never empty, is one of the three fields or the placeholder, and is the first non-empty of value propositions, key activities, customer segments |
| App.PlaceholderPreview | App.tsx:47-50 | three empty preview fields give the placeholder; the placeholder means three empty fields unless one of them is the placeholder text |
| App.Preview | App.tsx:55 | at most 63 characters; a source of at most 60 is kept whole; a longer one is its first 60 characters plus "..." |
| App.NewItem | App.tsx:52-57 | the item carries the given id and time, a non-empty preview of the data, and the data itself |
| App.PushCapped | App.tsx:59 | the new item first, then the earlier items in order, at most 20 in all |
| App.PushCappedDropsOldest | App.tsx:59 | a push onto a full list drops exactly the oldest items beyond 20 |
| App.AfterSave | App.tsx:43-60 | an invalid form leaves the history unchanged; otherwise the new item of this canvas leads a list of at most 20 that continues with the old items |
| App.StoreAfterSave | App.tsx:44-61 | an invalid form leaves the store unchanged; otherwise the history is written under its key and every other key is kept |
| App.WithoutId | App.tsx:70 | the kept items are exactly the items whose id differs, each as often as before |
| App.WithoutIdAppend | App.tsx:70 | the filter acts piecewise on a concatenation, so it keeps the original order |
| App.WithoutAbsentId | App.tsx:70 | deleting an id no item has changes nothing |
| App.WithoutIdIdempotent | App.tsx:69-73 | deleting an id twice gives the same list as deleting it once |
| App.HeaderButtonsExclusive | App.tsx:154-175 | the edit-mode and view-report buttons never show together, and neither shows during an analysis |
| App.ViewReportOffersStartNew | App.tsx:166-177 | whenever view-report shows, start-new shows too, whatever the canvas holds |
| App.ValidFormOffersStartNew | App.tsx:177 | a form that can be submitted always offers start-new |
| App.SpacesOfferStartNew | App.tsx:177 | a canvas holding one space offers start-new but cannot be submitted |
| App.Session.constructor | App.tsx:22-40 | a new session starts on the input view with an empty canvas, no report, no error, the dialog closed and the stored history loaded |
| App.Session.LoadSavedHistory | App.tsx:31-40 | a parsable stored list replaces the history; a missing or unparsable entry leaves it as it is |
| App.Session.SaveToHistory | App.tsx:42-67 | the history becomes the save of the current canvas and the store follows it; an invalid form writes nothing; only history and store change |
| App.Session.DeleteHistoryItem | App.tsx:69-73 | the history loses exactly the items under the id, in order, and the store is rewritten; only history and store change |
| App.Session.RestoreHistory | App.tsx:75-79 | input view, the restored canvas and no report; error and history untouched |
| App.Session.InputChange | App.tsx:81-83 | exactly one field changes |
| App.Session.StartSubmit | App.tsx:85-90 | the canvas is saved first, then the view is analysing and the error is cleared |
| App.Session.CompleteSubmit | App.tsx:91-99 | a report is stored and shown; a failure returns to input with the fixed message and keeps the old report; the view is not checked |
| App.Session.Submit | App.tsx:85-100 | save, then the two-attempt policy on the current canvas: a parsed structured reply is the only call and becomes the shown report; otherwise the fallback call's outcome decides, a report shown or the error message on the input view |
| App.Session.EditMode | App.tsx:103-105 | input view, canvas and report kept, the edit-mode button hidden and view-report shown exactly when a report exists (also the logo click at line 144) |
| App.Session.ViewReport | App.tsx:108-112 | the report view only when a report exists, otherwise the view stays; a click on a visible view-report button always lands on the report, where edit mode shows |
| App.Session.StartNew | App.tsx:115-119 | input view, no report and an empty canvas; error and history untouched |
| App.Session.ViewActionPlan | App.tsx:122-124 | the action-plan view whatever the state; consistent exactly when a report exists |
| App.Session.BackFromActionPlan | App.tsx:127-129 | the report view whatever the state; consistent exactly when a report exists |
| App.Session.OpenHistory | App.tsx:188 | the history dialog opens |
| App.Session.CloseHistory | App.tsx:135 | the history dialog closes |

## Left out

- JSX rendering, Tailwind layout, the recharts charts and the lucide icons. These are presentation only, so icons and colours are enum tags and class strings.
- Word and PDF export and printing: Blob, object URLs, DOM cloning, html2pdf, `window.print` and `alert`. These are browser I/O. Only the selection of sections and input rows, and the file names, are modelled. The PDF export clones the rendered page, so its sections are those of the page.
- The action plan's own export (components/ActionPlan.tsx:74-174). It is browser I/O too; only its `|| []` default is modelled, by `ActionPlanPage.ActionPlans`.
- The service client, the API key handling and the network. The service is a function parameter from request to reply. A reply either throws or carries optional text.
- `JSON.parse` and `JSON.stringify`.
  - Parsing a report is a function parameter.
  - The store holds either a serialised list or text that does not parse.
  - The code casts the parse unchecked, so no shape check is claimed.
- Types.RiskItem: impact and probability are typed as the three levels, so the model assumes the reply follows the report type. A fallback reply has no schema, and its risk levels could be other text, which the page badges green (components/AnalysisReport.tsx:455-460). That case is not represented.
  - Stored JSON that parses to something other than a list is not modelled.
- `localStorage` is a map field with the one key `bmc_history`.
- `Date.now()` and `new Date().toISOString()` are parameters of the save. Id uniqueness is not claimed, since two saves in the same millisecond collide.
- Async interleaving and React's batching of state updates.
  - Submit is two sequential steps: `StartSubmit` before the service call, `CompleteSubmit` after it.
  - The stale `history` closure in `saveToHistory` cannot arise in this sequential model.
- `console` logging and the `manual` flag of `saveToHistory`: neither has an effect.
- The textarea auto-resize (components/BMCInput.tsx:124-130) and the focus after a clear. Both are DOM effects.
- HistoryModal is not part of this model. Its source is not available. The session only keeps the dialog flag and the history it receives.
- Text.Trim: JavaScript's `trim` removes every Unicode white-space and line-terminator character. The model removes space, tab, line feed, carriage return, vertical tab, form feed, no-break space, the two Unicode line and paragraph separators and the byte-order mark. Other Unicode space separators, such as U+2003, are kept.
- Text.Lower: `toLowerCase` is modelled on ASCII letters only.
- UTF-16: strings are sequences of code points, so `slice` and `length` count code points. The program's own literals, the Bengali ones included, are in the Basic Multilingual Plane. Text typed by the user or returned by the service may hold characters outside it, such as emoji, which JavaScript counts as two units.
- BmcInput.Card: for text with characters outside the Basic Multilingual Plane, the counter counts code points and so shows less than the browser's `length`.
- App.Preview: for such text the cut is at 60 code points, not 60 UTF-16 units, so the preview can be longer than the browser's, and the browser's cut can split a surrogate pair where the model's cannot.
- Scores are unbounded integers. The code enforces no range; only the prompt asks for 0–100.
- BmcInput.Card: the `|| ''` fallback is a no-op here. Every field of a canvas is a string, so the value is never missing.
- The schema's `type` tags for numbers versus strings, and `Type.OBJECT` versus `Type.ARRAY`, are kept only as far as the schema datatype distinguishes objects, arrays and strings with an enumeration.
