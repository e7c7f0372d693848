# AI ROI calculator — a Dafny model

This project models the logic of the AI-automation ROI calculator widget. The
widget is a pop-up wizard with three steps:

1. The visitor describes the business: industry, revenue, team size and hourly cost.
2. The visitor enters the weekly hours of six manual tasks on sliders.
3. The results page shows the ROI, four metric cards, a cost bar chart and a
   pie chart of the hours. It can generate "AI insights" through a
   text-generation service and switch to a booking view.

The repository holds this logic twice:

- The modular components: `ROICalculator`, `Step2`, `Step3`, `RoiPieChart`,
  the two `Slider`s, `geminiService` and `constants`.
- The single-file bundle `App.tsx`. It repeats the constants, `parseInsights`
  and the industry lookup word for word. It re-implements the rest with
  differences of its own:
  - another results formula (85% automation, a revenue boost drawn from the
    savings, the constant service cost);
  - a wizard that records the direction of the last move and computes the
    results as a memo;
  - an API key checked as an argument;
  - insights kept as an array, each line rendered with `**bold**` spans.

The model follows that structure, one module per source file:

| module | models |
|---|---|
| `Wrappers` (wrappers.dfy) | `Option` and `Result` |
| `Types` | the form and results records, and the keyed update `{ ...prev, [key]: value }` |
| `Constants` | the industry table, the initial form, the step count, the service cost, the pie colours |
| `Js` | the JavaScript built-ins the logic relies on: `Math.round`, the ECMAScript whitespace set, `trim`, `split` on one character, `join`, `startsWith`/`endsWith`, `slice` |
| `GeminiService` | `parseInsights`, the industry label, the error contract of `generateInsights` |
| `RoiCalculator` | `calculateROI` as a function; the wizard as the class `Calculator` |
| `Slider` | the filled share of the track and the prop defaults |
| `RoiPieChart` | the total, the placeholder and the slice colours |
| `Step2` | the task table and the hours badge |
| `Step3` | the chart data, the ROI counter and the insights card (class `ResultsPanel`) |
| `App` | `renderInsight`, the second results formula, the bundle's results card (class `AppResultsPanel`) and its wizard (class `CalculatorUI`) |

Some points where the model takes a side:

- Numbers are exact reals. `Math.round` is `Floor(x + 0.5)`.
- A ROI of `Infinity` is the constructor `Infinite` of `Roi`.
- A call into the text-generation service becomes a parameter, `reply`:
  - `None` means the call threw or returned no text;
  - `Some(text)` means the call returned `text`.
- In components/Step3.tsx, `insights` starts as the string `''` and is then
  assigned the `string[]` that `generateInsights` returns. The model keeps both
  kinds of value in `InsightsValue`:
  - the truthiness tests of the markup then hold as JavaScript evaluates them;
  - `dangerouslySetInnerHTML` receives the lines joined by commas.
- `parseInsights` trims each line, then removes at most one leading `-` or `*`
  together with the whitespace around it. A second bullet stays: `"--x"`
  becomes `"-x"` (`GeminiService.OneBulletOnly`).

## Model

| member | source | states |
|---|---|---|
| Js.Round | components/ROICalculator.tsx:41 | `Math.round` gives the integer n with n − ½ ≤ x < n + ½ (nearest integer, halves upward) |
| Js.RoundUnique | components/ROICalculator.tsx:41 | any integer within those bounds is the rounded value, so the bounds determine `Math.round` |
| Js.RoundOfInteger | components/ROICalculator.tsx:49 | an integer rounds to itself; k + ½ rounds up to k + 1 and k − ½ to k |
| Js.RoundMonotone | components/ROICalculator.tsx:49 | rounding never reverses the order of two numbers |
| Js.SkipSpace | services/geminiService.ts:9 | the first non-whitespace index at or after i; everything skipped is whitespace |
| Js.SkipSpaceBack | services/geminiService.ts:9 | the end of the prefix once its trailing whitespace is gone; everything dropped is whitespace |
| Js.SkipSpaceUnique | services/geminiService.ts:9 | those three properties fix the leading-whitespace boundary uniquely |
| Js.SkipSpaceBackUnique | services/geminiService.ts:9 | those three properties fix the trailing-whitespace boundary uniquely |
| Js.Trim | services/geminiService.ts:9 | `trim()` leaves no whitespace at either end |
| Js.TrimShape | services/geminiService.ts:9 | the input is its leading whitespace, then the trimmed result, then only whitespace |
| Js.TrimStart | services/geminiService.ts:9 | the `^\s*` replace: the text from the first non-whitespace character on; specified by `Js.SkipSpace`, `Js.TrimStartNoop` and `Js.TrimStartSkipsSpace` |
| Js.TrimStartNoop | services/geminiService.ts:9 | `^\s*` removes nothing from a string that does not start with whitespace |
| Js.TrimStartSkipsSpace | services/geminiService.ts:9 | leading whitespace makes no difference to what `^\s*` leaves |
| Js.TrimAround | services/geminiService.ts:9 | trimming whitespace + core + whitespace gives back a core that has no whitespace at its ends |
| Js.Split | services/geminiService.ts:8 | `split` always yields at least one piece |
| Js.SplitPiecesFree | services/geminiService.ts:8 | no piece contains the separator |
| Js.Join | components/Step3.tsx:231 | `Array.prototype.join` with a one-character separator; `Js.SplitJoin` and `Js.JoinSplit` make it the inverse of `Js.Split` |
| Js.SplitJoin | services/geminiService.ts:8 | joining the pieces with the separator gives back the text, and there is one more piece than there are separators |
| Js.SplitNoSeparator | services/geminiService.ts:8 | a text without the separator is one piece |
| Js.SplitAfterPiece | services/geminiService.ts:8 | a separator-free prefix followed by the separator becomes the first piece |
| Js.SplitAppend | services/geminiService.ts:8 | splitting a + sep + b gives the pieces of a followed by those of b |
| Js.JoinSplit | components/Step3.tsx:231 | separator-free pieces joined and split again come back unchanged |
| Js.SliceIndex | App.tsx:207 | a `slice` index resolves to a position inside the string |
| Js.Slice | App.tsx:207 | `String.prototype.slice` on resolved indices; specified by `Js.SliceIndex` and `Js.SliceInner` |
| Js.SliceInner | App.tsx:207 | `slice(2, -2)` drops two characters at each end, and gives "" for strings shorter than four |
| Types.With | components/ROICalculator.tsx:16-18 | `{ ...prev, [key]: value }` sets the named field and keeps every other field |
| Types.FormExtensionality | types.ts:3-14 | two forms that agree on every key are equal |
| Types.WithLaws | components/ROICalculator.tsx:16-18 | writing back a field's own value changes nothing; of two writes to one field the second wins |
| Types.SumOfHourFields | App.tsx:222-223 | reducing over the six hour fields one by one gives the written-out six-field sum |
| Constants.IndustryTableShape | constants.ts:4-14 | nine industries, each with a multiplier from 1.0 to 1.6 and a non-empty label |
| Constants.IndustryValuesRepeat | constants.ts:4-14 | the multipliers 1.3, 1.2 and 1.4 each belong to two industries with different labels |
| Constants.InitialIndustryIsAnOption | constants.ts:16-27 | the initial form selects the first industry of the table |
| Constants.StepAndCostConstants | constants.ts:29-31 | three steps; a positive service cost of 7500 |
| Constants.PieColorsDistinct | constants.ts:34-41 | six pairwise different colours, one per hour field |
| GeminiService.StripBullet | services/geminiService.ts:9 | the `^\s*[-*]\s*` replace; specified by `GeminiService.StripBulletShape`, `GeminiService.StripMarker` and `GeminiService.OneBulletOnly` |
| GeminiService.StripBulletShape | services/geminiService.ts:9 | on a trimmed line, the bullet pattern keeps a line without a leading bullet; otherwise it removes the bullet and the whitespace after it; the result stays trimmed |
| GeminiService.CleanLine | services/geminiService.ts:9 | `line.trim().replace(…)` on one line; specified by `GeminiService.CleanLineShape`, `GeminiService.BulletOnlyLineIsEmpty`, `GeminiService.UnbulletedLineIsTrimmed`, `GeminiService.CleanLineRemovesMarker`, `GeminiService.CleanLineIsInsight` and `GeminiService.CleanLineInLine` |
| GeminiService.CleanLineShape | services/geminiService.ts:9 | a cleaned line is the trimmed line, or that line without its leading bullet and the whitespace after it; it has no whitespace at either end |
| GeminiService.BulletOnlyLineIsEmpty | services/geminiService.ts:9 | a line of whitespace and one bullet cleans to "" |
| GeminiService.UnbulletedLineIsTrimmed | services/geminiService.ts:9 | a line whose trimmed form does not start with a bullet is only trimmed |
| GeminiService.StripMarker | services/geminiService.ts:9 | the bullet pattern removes the marker and the whitespace after it, and returns the text whole |
| GeminiService.CleanLineRemovesMarker | services/geminiService.ts:9 | whitespace, a marker, whitespace, text, whitespace cleans to exactly the text, even when the text starts with a second marker |
| GeminiService.OneBulletOnly | services/geminiService.ts:9 | only one bullet goes: "--x" cleans to "-x" |
| GeminiService.CleanAll | services/geminiService.ts:9 | `map` cleans every line and keeps their number and order |
| GeminiService.NonEmpty | services/geminiService.ts:10 | `filter` keeps exactly the non-empty lines: an order-preserving subsequence with each non-empty line as often as before |
| GeminiService.CleanAllAppend | services/geminiService.ts:9 | cleaning works line by line over concatenation |
| GeminiService.NonEmptyAppend | services/geminiService.ts:10 | filtering works line by line over concatenation |
| GeminiService.ParseInsights | services/geminiService.ts:6-11 | `parseInsights`: split on "\n", clean, keep the non-empty lines; specified by `GeminiService.ParseInsightsAppend`, `GeminiService.ParseInsightsKeepsOrder` and `GeminiService.ParseInsightsAreInsights` |
| GeminiService.ParseInsightsAppend | services/geminiService.ts:6-11 | the insights of a + "\n" + b are those of a followed by those of b |
| GeminiService.CleanLineIsInsight | services/geminiService.ts:9 | a line without a line break cleans to "" or to a non-empty line with no whitespace at its ends |
| GeminiService.ParseInsightsKeepsOrder | services/geminiService.ts:6-11 | at most one insight per line; the insights are the non-empty cleaned lines, in order, none lost |
| GeminiService.ParseInsightsAreInsights | services/geminiService.ts:6-11 | every insight is non-empty, has no line break and no whitespace at either end |
| GeminiService.CleanLineInLine | services/geminiService.ts:9 | cleaning only removes characters, never adds any |
| GeminiService.FirstWithValue | services/geminiService.ts:21 | `find` returns the first option with the multiplier, or nothing when no option has it |
| GeminiService.IndustryLabel | services/geminiService.ts:20-22 | the industry's label for the prompt; specified by `GeminiService.IndustryLabelIsFirstMatch`, `GeminiService.IndustryLabelDefault` and `GeminiService.IndustryLabelExamples` |
| GeminiService.IndustryLabelIsFirstMatch | services/geminiService.ts:20-22 | the label is that of the first option with the multiplier |
| GeminiService.IndustryLabelDefault | services/geminiService.ts:20-22 | an unknown multiplier gets "General Business" |
| GeminiService.IndustryLabelExamples | services/geminiService.ts:20-22 | a shared multiplier resolves to the earlier industry: 1.3 is Professional Services, 1.2 E-commerce, 1.4 Real Estate |
| GeminiService.GenerateInsights | services/geminiService.ts:13-66 | with a missing key or a failed call the result is the fixed failure message; it succeeds exactly with a key and a reply, and then it is the parsed reply |
| RoiCalculator.CalculateRoi | components/ROICalculator.tsx:35-52 | `calculateROI`; its figures are stated by `RoiCalculator.CalculateRoiMonthlyFigures`, `RoiCalculator.RoiInfiniteIff`, `RoiCalculator.RoiPercent` and the productivity-gain lemmas, and `RoiCalculator.Calculator.Consistent` keeps the stored results equal to it |
| RoiCalculator.CalculateRoiMonthlyFigures | components/ROICalculator.tsx:36-45 | monthly hours are 4.33 × the six task hours; the wasted cost is hours × hourly cost; the automated hours are 80% rounded; savings cost out the rounded hours; the boost is 0.15 × industry × revenue |
| RoiCalculator.RoiInfiniteIff | components/ROICalculator.tsx:48-49 | the ROI is Infinity exactly when the service cost is not positive |
| RoiCalculator.RoiPercent | components/ROICalculator.tsx:46-49 | with a positive cost the ROI is the rounded net benefit as a percentage of the cost; it is ≥ 0 exactly when a year's benefit is at least 99.5% of the cost |
| RoiCalculator.RoiBreakEven | components/ROICalculator.tsx:46-49 | a benefit equal to the cost is an ROI of 0% |
| RoiCalculator.ProductivityGainWithoutHours | components/ROICalculator.tsx:43 | without positive hours the productivity gain is 0 |
| RoiCalculator.ProductivityGainNonNegative | components/ROICalculator.tsx:43 | with positive hours the gain is non-negative |
| RoiCalculator.PositiveFactor | components/ROICalculator.tsx:43 | a product with a positive factor (the monthly hours) has the sign of its other factor; the step that bounds the rounded gain |
| RoiCalculator.RoundedShareOfHours | components/ROICalculator.tsx:41-43 | from 120 monthly hours on, the rounded 80% share, scaled by 1.2, rounds to 96 |
| RoiCalculator.ProductivityGainLargeTeams | components/ROICalculator.tsx:41-43 | from 120 monthly hours on, the gain is 96% |
| RoiCalculator.RoiMonotoneInRevenue | components/ROICalculator.tsx:44-49 | with a non-negative industry multiplier, more revenue never lowers the boost or the ROI |
| RoiCalculator.ResultsDependOnTotalHours | components/ROICalculator.tsx:35-52 | the results ignore the team size and how the hours are spread over the tasks |
| RoiCalculator.Calculator.constructor | components/ROICalculator.tsx:12-14 | the wizard starts at step 1 with the initial form and no results |
| RoiCalculator.Calculator.UpdateData | components/ROICalculator.tsx:16-18 | the named field takes the value; the other fields, the step and the results stay |
| RoiCalculator.Calculator.NextStep | components/ROICalculator.tsx:54-61 | moves on below the last step only; computes the results exactly on the move from step 2 to step 3; keeps the results consistent with the form |
| RoiCalculator.Calculator.PrevStep | components/ROICalculator.tsx:63-67 | moves back above step 1 only; keeps the form and the results |
| RoiCalculator.Calculator.Close | components/ROICalculator.tsx:20-33 | closing restores step 1, the initial form and no results |
| RoiCalculator.Calculator.Open | components/ROICalculator.tsx:24-33 | reopening keeps whatever state the last close left |
| RoiCalculator.Calculator.NextLabel | components/ROICalculator.tsx:129 | the forward button reads "Calculate ROI" exactly at step 2 |
| RoiCalculator.Calculator.Progress | components/ROICalculator.tsx:101 | the progress bar is between 0 and 100%, and full exactly at the last step |
| RoiCalculator.Calculator.View | components/ROICalculator.tsx:108-111 | an open, valid wizard shows a step panel, never an empty area; the results panel shows the stored results at step 3 |
| RoiCalculator.Calculator.Handle | components/ROICalculator.tsx:115-132 | every user action keeps the results consistent with the form; a closed modal ignores everything; at step 3 only closing changes anything; closing resets; edits below step 3 update the form and never move the step or touch the results; below step 3 "next" advances, keeps the form and computes the results on the move to step 3; "back" goes back above step 1 below step 3 and keeps form and results |
| Slider.Percentage | components/ui/Slider.tsx:6 | the filled share of the track; specified by `Slider.PercentageOfDegenerateRange`, `Slider.PercentagePosition`, `Slider.PercentageEndpoints`, `Slider.PercentageBounds` and `Slider.PercentageMonotone` |
| Slider.PercentageOfDegenerateRange | components/ui/Slider.tsx:6 | an empty or reversed range shows an empty track |
| Slider.PercentagePosition | components/ui/Slider.tsx:6 | on a proper range, mapping the percentage back onto the range gives the value |
| Slider.PercentageEndpoints | components/Slider.tsx:15 | the range's minimum gives 0% and its maximum 100% |
| Slider.PercentageBounds | App.tsx:139 | a value inside the range fills between 0% and 100% |
| Slider.PercentageMonotone | components/ui/Slider.tsx:6 | a larger value never fills less of the track |
| Slider.Settings | components/ui/Slider.tsx:5 | `step` defaults to 1 and `unit` to "" only when omitted; the other props pass through |
| Slider.DefaultsWhenOmitted | components/Step2.tsx:36-43 | the task sliders pass neither step nor unit, so they move in steps of 1 and show no unit |
| RoiPieChart.Total | components/RoiPieChart.tsx:11 | the chart's `reduce` total; `RoiPieChart.FoldIsSum` and `RoiPieChart.TotalIsSum` make it the sum of the values |
| RoiPieChart.FoldIsSum | components/RoiPieChart.tsx:11 | the left-fold `reduce` adds up to the initial value plus the sum of the values |
| RoiPieChart.TotalIsSum | components/RoiPieChart.tsx:11 | the chart's total is the sum of the data values |
| RoiPieChart.SumAppend | components/RoiPieChart.tsx:11 | the sum of two lists joined is the sum of their sums |
| RoiPieChart.SumOfPositives | components/RoiPieChart.tsx:13 | positive values sum to zero only when there are none |
| RoiPieChart.ColorIndex | components/RoiPieChart.tsx:36 | `index % length` is always a valid colour index, and the identity for the first six slices |
| RoiPieChart.ColorRepeats | components/RoiPieChart.tsx:36 | colours repeat every six slices |
| RoiPieChart.ColorsDistinctWithinCycle | components/RoiPieChart.tsx:36 | no colour appears twice among six consecutive slices |
| RoiPieChart.Render | components/RoiPieChart.tsx:11-57 | the placeholder appears exactly when the total is zero; otherwise one cell per entry with its name, value and cycling colour, and the total in the centre |
| RoiPieChart.PlaceholderIffNoSlices | components/RoiPieChart.tsx:13-19 | for positive slices, the placeholder appears exactly when there are none |
| Step2.TaskTable | components/Step2.tsx:13-20 | six tasks over the six hour fields in order, all from 0, with maxima 50, 40, 30, 25, 20, 25 |
| Step2.TotalWeeklyHours | components/Step2.tsx:22 | the hours badge; specified by `Step2.TotalIsWeeklyHours`, `Step2.TotalBounds` and `Step2.TotalAfterInput` |
| Step2.TotalIsWeeklyHours | components/Step2.tsx:22 | the badge's reduce is the six-field sum |
| Step2.TotalBounds | components/Step2.tsx:13-22 | inside the slider ranges the total lies between 0 and 190 |
| Step2.InitialDataInRange | components/Step2.tsx:13-22 | the initial hours lie inside their ranges and total 72 |
| Step2.HandleInputChange | components/Step2.tsx:8-11 | `updateData(id, value)` on a slider move, the keyed update `Types.With`; `Step2.TotalAfterInput` states its effect on the total |
| Step2.TotalAfterInput | components/Step2.tsx:8-11 | moving task i's slider changes the total by exactly the change of that field |
| Step3.CostData | components/Step3.tsx:77-80 | two bars: the manual cost, and that cost less the savings; the second is not higher exactly when the savings are not negative |
| Step3.TaskEntries | components/Step3.tsx:82-88 | six entries carrying the six hour fields in order |
| Step3.Positive | components/Step3.tsx:89 | `filter(d => d.value > 0)` keeps exactly the positive entries, in order, each as often as in the input, and no other entry |
| Step3.TimeData | components/Step3.tsx:82-89 | the pie data; specified by `Step3.TimeDataContents` and `Step3.TimeDataTotal` |
| Step3.TaskNamesDistinct | components/Step3.tsx:82-88 | the six entry names are pairwise different |
| Step3.TimeDataContents | components/Step3.tsx:82-89 | the pie data holds the tasks with positive hours, each exactly when its field is positive, in the fixed order, at most six |
| Step3.SumOfPositivePart | components/Step3.tsx:89 | without negative values, filtering keeps the sum |
| Step3.SumOfTaskEntries | components/Step3.tsx:82-88 | the six entries add up to the weekly hours |
| Step3.TimeDataTotal | components/Step3.tsx:182 | with no negative hours, the centre of the pie shows the weekly hours |
| Step3.CounterTarget | components/Step3.tsx:129 | the counter animates to the ROI, or to 10000 for Infinity |
| Step3.CounterTargetForFreeService | components/Step3.tsx:129 | a service that costs nothing shows 10000% |
| Step3.HtmlOfLines | components/Step3.tsx:231 | the lines reach the page joined by commas; splitting at the commas recovers them when none holds a comma |
| Step3.HtmlOfTwoLines | components/Step3.tsx:231 | two insights render as the single string "a,b" |
| Step3.Panels | components/Step3.tsx:190-223 | each block of the card renders exactly under its condition in the markup, using JavaScript truthiness (`[]` is truthy) |
| Step3.ExactlyOnePanel | components/Step3.tsx:190-223 | in every reachable state exactly one block renders |
| Step3.EmptyReplyShowsEmptyInsights | components/Step3.tsx:223 | a reply without lines replaces the idle block with an empty insights block |
| Step3.ResultsPanel.Shown | components/Step3.tsx:189-249 | in a valid state the card renders exactly one block |
| Step3.ResultsPanel.constructor | components/Step3.tsx:39-42 | the card starts with '' insights, not loading, no error, in the results view, and shows the idle block |
| Step3.ResultsPanel.StartGeneration | components/Step3.tsx:45-46 | loading starts and the error is cleared |
| Step3.ResultsPanel.FinishGeneration | components/Step3.tsx:47-55 | success stores the lines; any failure sets the fixed message; loading ends either way |
| Step3.ResultsPanel.Generate | components/Step3.tsx:44-56 | a whole generation: the parsed reply on success, the fixed message otherwise; no error exactly when a key and a reply were there |
| Step3.ResultsPanel.Rendered | components/Step3.tsx:190-262 | a button is there exactly when its block renders in the results view (back: in the booking view); an outcome settles only a pending generation |
| Step3.ResultsPanel.Handle | components/Step3.tsx:200-262 | an event whose control is not rendered changes nothing; a rendered generate or try-again starts loading and clears the error; a successful settle stores `Lines(value)`, a failed one the fixed message, and loading ends; booking and back switch the view and are the only events that do; the state stays reachable |
| App.CloseFrom | App.tsx:207 | the lazy `.*?\*\*` ends at the first "**", with no "**" and no line terminator before it; when it finds nothing, no "**" follows before the next line terminator |
| App.MatchAt | App.tsx:207 | a match starts and ends with "**", is at least four characters long and ends at the first closing "**" on the line; no match means no opening "**" here or no closing one on the rest of the line |
| App.Pieces | App.tsx:207 | `split` with the capturing pattern, from a given start; specified by `App.PiecesConcat`, `App.PiecesAlternate` and `App.PiecesTextFree` |
| App.SplitBold | App.tsx:207 | the pieces of one line; specified by `App.RenderInsightSpans`, `App.SplitBoldTextFree` and `App.SplitBoldExample` |
| App.PiecesConcat | App.tsx:207 | the pieces of the split put back together are the line |
| App.MatchIsSpan | App.tsx:207 | what the pattern matches is a span with "**" at both ends |
| App.PiecesAlternate | App.tsx:207 | the split alternates text and matched spans, starting and ending with text |
| App.PiecesTextFree | App.tsx:207 | the search is leftmost: from any start, no match of the pattern begins inside a text piece |
| App.SplitBoldTextFree | App.tsx:207 | in the pieces of a line, no match of the pattern begins inside a text piece, so every span the pattern finds is an odd piece |
| App.RenderInsight | App.tsx:207 | one rendered part per piece of the split, in order |
| App.RenderInsightSpans | App.tsx:207 | the pieces rebuild the line; every odd piece is a span, rendered bold without its two asterisks at each end |
| App.RenderPart | App.tsx:207 | the bold test and `slice(2, -2)` on one piece; specified by `App.SpanRendersBold`, `App.RenderInsightSpans` and `App.RenderInsightBareAsterisks` |
| App.SpanRendersBold | App.tsx:207 | a span renders as `<strong>` of its inside |
| App.SplitBoldExample | App.tsx:207 | "a **b** c" splits into "a ", "**b**", " c" |
| App.RenderThreePieces | App.tsx:207 | a line split into three pieces renders as those three pieces, each through the bold test |
| App.ExamplePartsRendered | App.tsx:207 | the bold test keeps "a " and " c" as text and renders "**b**" as `<strong>` of "b" |
| App.RenderInsightExample | App.tsx:207 | "a **b** c" renders as text, bold "b", text |
| App.RenderInsightBareAsterisks | App.tsx:207 | "**" has no span, yet renders as an empty `<strong>`: the bold test looks at the text, not at the match |
| App.ResultsMemo | App.tsx:220-221 | the memo is null away from the last step, and only there a results record |
| App.ComputeResults | App.tsx:222-235 | the bundle's results formula; stated by `App.ComputeResultsHours`, `App.ComputeResultsSavings`, `App.ComputeResultsBoost`, `App.ComputeResultsGain` and `App.ComputeResultsRoi` |
| App.ComputeResultsHours | App.tsx:222-227 | monthly hours are 4.33 × the six task hours; the wasted cost is those hours at the hourly cost; the automated hours are 85% of them, rounded |
| App.ComputeResultsSavings | App.tsx:228 | the savings are the exact savings rounded, costed on the unrounded hours |
| App.ComputeResultsBoost | App.tsx:230-231 | the boost is the exact boost rounded |
| App.ComputeResultsGain | App.tsx:229 | the gain is 0 with no hours (NaN `|| 0`) and 85 with any non-zero total |
| App.ComputeResultsRoi | App.tsx:232-234 | the ROI is always a number here; it is within ½ of the yearly net value over 75, and ≥ 0 exactly when a year's value reaches 7462.5 |
| App.FormulasDiffer | App.tsx:229 | on the initial form the component wizard reports a 96% gain and the bundle 85% |
| App.AppGenerateInsights | App.tsx:94-128 | an empty key or a failed call gives the bundle's fixed message; it succeeds exactly with a key and a reply, and then it is the parsed reply |
| App.GenerateInsightsAgree | App.tsx:94-128 | the bundle's generateInsights succeeds exactly when the service's does, with the same lines |
| App.AppCostData | App.tsx:204 | two bars: the manual cost and that cost less the savings |
| App.CostChartsAgree | App.tsx:204 | both cost charts plot the same values in the same colours |
| App.PiePlaceholderIffNoHours | App.tsx:165-167 | the bundle's pie of the hours shows its placeholder exactly when no task has positive hours |
| App.AppPanels | App.tsx:209 | each block renders exactly under its condition, tested on the array's length |
| App.AppExactlyOnePanel | App.tsx:209 | in every reachable state exactly one block renders |
| App.AppEmptyReplyShowsIdle | App.tsx:209 | unlike components/Step3.tsx, a reply without lines shows the idle block again |
| App.AppResultsPanel.Shown | App.tsx:209 | in a valid state the card renders exactly one block |
| App.AppResultsPanel.RenderedInsights | App.tsx:209 | each insight line is shown through renderInsight, in order |
| App.AppResultsPanel.constructor | App.tsx:197-200 | the card starts with no insights, not loading, no error, in the results view, and shows the idle block |
| App.AppResultsPanel.StartGeneration | App.tsx:202 | loading starts and the error is cleared |
| App.AppResultsPanel.FinishGeneration | App.tsx:202 | success stores the lines; a failure shows the error's message; loading ends either way |
| App.AppResultsPanel.Rendered | App.tsx:209 | a button is there exactly when its block renders in the results view (back: in the booking view); an outcome settles only a pending generation |
| App.AppResultsPanel.Handle | App.tsx:202-209 | an event whose control is not rendered changes nothing; a rendered generate or try-again starts loading and clears the error; a settle stores the lines of the bundle's generateInsights or its error message, and loading ends; booking and back switch the view, are the only events that do, and leave the insights, loading and error alone; the state stays reachable |
| App.CalculatorUI.constructor | App.tsx:215-217 | step 1, the initial form, forward direction, no results |
| App.CalculatorUI.Results | App.tsx:220-236 | results exist exactly at the last step, computed from the current form |
| App.CalculatorUI.UpdateData | App.tsx:219 | the named field takes the value; the other fields, the step and the direction stay |
| App.CalculatorUI.NextStep | App.tsx:238 | the direction becomes +1 even at the last step; the step moves on below it |
| App.CalculatorUI.PrevStep | App.tsx:239 | the direction becomes −1 even at step 1; the step moves back above it |
| App.CalculatorUI.Handle | App.tsx:250-251 | at step 3 nothing changes; below it "next" moves forward and "back" moves back above step 1; "back" at step 1 changes nothing; the buttons never touch the form; edits update the form and keep step and direction |

## Left out

- The markup, styling and animations are not modelled: framer-motion, recharts layout, tooltips, icons, `AnimatedCounter`'s easing, `InsightSkeleton`. The model keeps only which blocks render and what data they receive.
- The network call to the text-generation service is not modelled. Its reply is the parameter `reply`.
- The prompt text is not modelled, because it only matters as input to the service. The industry label and the hours total it embeds are modelled (`GeminiService.IndustryLabel`, `Types.WeeklyHours`).
- `process.env.API_KEY` is a parameter.
- The booking URL, its query parameters and the `iframe` are not modelled. Only the view switch is.
- `console.error` is not modelled, because it is output only.
- There are no IEEE-754 doubles: all arithmetic is on exact reals. `Js.Round` is `Math.round` on the exact value, so results that floating-point error moves across a .5 boundary can differ.
- `parseFloat` on slider text is not modelled. The handlers receive the parsed number.
- `toLocaleString` formatting is not modelled.
- `Object.values(hours)` relies on property order. Over exact reals the order of the sum does not matter, and `HOUR_FIELDS` fixes it.
- `Js.IsSpace`: the whitespace of `trim` and `\s` is the concrete ECMAScript WhiteSpace and LineTerminator set, with the space separators of Unicode category Zs written out.
- Characters are Unicode code points, not UTF-16 code units. `.` in the bold pattern and the index arithmetic of `slice` therefore differ from JavaScript on characters outside the Basic Multilingual Plane.
- `RoiCalculator.Calculator.Close`: the reset runs at once, without the 300 ms `setTimeout` or its cancellation when the modal reopens within that time. The close button and the backdrop click (components/ROICalculator.tsx lines 79 and 91) are this same close event. components/ROICalculator.tsx has no Escape-key listener; only `App.tsx` installs one (lines 264-268), and it calls the same `onClose` as the bundle's close button and backdrop.
- `RoiCalculator.Calculator.Handle`: an edit event has to come from a control that renders, but the model does not check that the field belongs to the step shown (step 1 shows the business fields, step 2 the hours).
- `App.CalculatorUI.Handle`: the same simplification of edit events as `RoiCalculator.Calculator.Handle`.
- `App.CalculatorUI` has no reset, because `AIROICalculatorPopup` unmounts it on close and the constructor models remounting. `App.tsx`'s modal wrapper (lines 256-299) is otherwise not modelled.
- The progress bar of `App.tsx` (line 249) is the formula of `RoiCalculator.Calculator.Progress` and is not restated.
- The constants that `App.tsx` re-declares (lines 49-77) are those of `Constants`, and the model uses one copy. The same holds for its `parseInsights` (line 93), its industry lookup (line 98), its `Slider` (lines 138-139) and its `RoiPieChart` (lines 165-174).
- React batching, effects and rerender timing are not modelled. Each state update completes before the next event.
- Concurrent generations are not modelled: the generate button is disabled while loading, and a settling outcome only arrives while a generation is pending.
- components/Step1.tsx, components/RoiBarChart.tsx, components/AnimatedCounter.tsx, components/ui/AnimatedCounter.tsx, components/InsightSkeleton.tsx and index.tsx are presentation or entry points and are not part of this model. types.ts serves only as the shape of the records.
