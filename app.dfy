/**
 * App.tsx, the single-file bundle. It repeats the constants, the parsing and
 * the label lookup of the other files (this model reuses those definitions),
 * and re-implements the rest with differences of its own: a second results
 * formula (85% automation, a revenue boost from the savings and 1% of the
 * revenue, the constant service cost), a wizard that also records the
 * direction of the last move and computes the results on the fly, a
 * generateInsights that checks its key argument, and a results page that
 * keeps the insights as an array and renders `**bold**` spans.
 */
module App {
  import opened Wrappers
  import opened Js
  import opened Types
  import opened Constants
  import opened GeminiService
  import opened RoiCalculator
  import opened Step3
  import RoiPieChart

  // ---------------------------------------------------------------------
  // renderInsight: line.split(/(\*\*.*?\*\*)/g) and the bold test per piece
  // ---------------------------------------------------------------------

  /** Two asterisks start at position `k`. */
  predicate DelimAt(s: string, k: nat)
  {
    k + 2 <= |s| && s[k] == '*' && s[k + 1] == '*'
  }

  /** No line terminator in `s[k..j]`. */
  predicate LineFree(s: string, k: nat, j: nat)
  {
    forall m :: k <= m < j && m < |s| ==> !IsLineTerminator(s[m])
  }

  /** The lazy `.*?\*\*` run from position `k`: the end of the first "**" reached
      before any line terminator (which `.` does not match). */
  function CloseFrom(s: string, k: nat): (e: Option<nat>)
    requires k <= |s|
    ensures e.Some? ==> k + 2 <= e.value <= |s| && DelimAt(s, e.value - 2)
    ensures e.Some? ==> forall j :: k <= j < e.value - 2 ==> !DelimAt(s, j) && !IsLineTerminator(s[j])
    ensures e.None? ==> forall j :: k <= j && LineFree(s, k, j) ==> !DelimAt(s, j)
    decreases |s| - k
  {
    if k + 2 > |s| then None
    else if DelimAt(s, k) then Some(k + 2)
    else if IsLineTerminator(s[k]) then None
    else CloseFrom(s, k + 1)
  }

  /** The end of a match of `\*\*.*?\*\*` that starts exactly at `q`. */
  function MatchAt(s: string, q: nat): (e: Option<nat>)
    requires q <= |s|
    ensures e.Some? ==> q + 4 <= e.value <= |s| && DelimAt(s, q) && DelimAt(s, e.value - 2)
    ensures e.Some? ==> forall j :: q + 2 <= j < e.value - 2 ==> !DelimAt(s, j) && !IsLineTerminator(s[j])
    ensures e.None? ==> !DelimAt(s, q) || forall j :: q + 2 <= j && LineFree(s, q + 2, j) ==> !DelimAt(s, j)
  {
    if DelimAt(s, q) then CloseFrom(s, q + 2) else None
  }

  /** String.prototype.split with a pattern that has one capturing group: the text
      from `p` up to each match, then the match itself, then the rest. The search
      for the next match resumes at `q`. */
  function Pieces(s: string, p: nat, q: nat): seq<string>
    requires p <= q <= |s|
    decreases |s| - q
  {
    if q == |s| then [s[p..]]
    else match MatchAt(s, q)
      case Some(e) => [s[p..q], s[q..e]] + Pieces(s, e, e)
      case None => Pieces(s, p, q + 1)
  }

  /** The pieces of a line. */
  function SplitBold(line: string): seq<string>
  {
    Pieces(line, 0, 0)
  }

  /** All pieces, one after the other. */
  function Concat(parts: seq<string>): string
  {
    if parts == [] then "" else parts[0] + Concat(parts[1..])
  }

  lemma {:induction false} ConcatAppend(a: seq<string>, b: seq<string>)
    ensures Concat(a + b) == Concat(a) + Concat(b)
    decreases |a|
  {
    if a == [] {
      assert a + b == b;
    } else {
      assert (a + b)[0] == a[0] && (a + b)[1..] == a[1..] + b;
      ConcatAppend(a[1..], b);
    }
  }

  /** The pieces from `p` on put back together are the text from `p` on. */
  lemma {:induction false} PiecesConcat(s: string, p: nat, q: nat)
    requires p <= q <= |s|
    ensures Concat(Pieces(s, p, q)) == s[p..]
    decreases |s| - q
  {
    if q == |s| {
      assert Concat([s[p..]]) == s[p..] + Concat([]);
    } else {
      match MatchAt(s, q)
      case Some(e) =>
        PiecesConcat(s, e, e);
        ConcatAppend([s[p..q], s[q..e]], Pieces(s, e, e));
        assert Concat([s[p..q], s[q..e]]) == s[p..q] + (s[q..e] + Concat([]));
        assert s[p..q] + s[q..e] + s[e..] == s[p..];
      case None =>
        PiecesConcat(s, p, q + 1);
    }
  }

  /** A matched span: at least four characters, "**" at both ends. */
  predicate IsSpan(piece: string)
  {
    |piece| >= 4 && DelimAt(piece, 0) && DelimAt(piece, |piece| - 2)
  }

  /** What MatchAt finds is a span. */
  lemma MatchIsSpan(s: string, q: nat)
    requires q <= |s| && MatchAt(s, q).Some?
    ensures IsSpan(s[q..MatchAt(s, q).value])
  {
    var e := MatchAt(s, q).value;
    var w := s[q..e];
    assert w[0] == s[q] && w[1] == s[q + 1];
    assert w[|w| - 2] == s[e - 2] && w[|w| - 1] == s[e - 1];
  }

  /** Text pieces and matched spans alternate, starting and ending with text. */
  lemma {:induction false} PiecesAlternate(s: string, p: nat, q: nat)
    requires p <= q <= |s|
    ensures |Pieces(s, p, q)| % 2 == 1
    ensures forall i :: 0 <= i < |Pieces(s, p, q)| && i % 2 == 1 ==> IsSpan(Pieces(s, p, q)[i])
    decreases |s| - q
  {
    if q < |s| {
      match MatchAt(s, q)
      case Some(e) =>
        PiecesAlternate(s, e, e);
        var rest := Pieces(s, e, e);
        var all := [s[p..q], s[q..e]] + rest;
        MatchIsSpan(s, q);
        forall i | 0 <= i < |all| && i % 2 == 1
          ensures IsSpan(all[i])
        {
          if i > 1 {
            assert all[i] == rest[i - 2];
          }
        }
      case None =>
        PiecesAlternate(s, p, q + 1);
    }
  }

  /** No match of the pattern starts in `s[from..from + len]`. */
  predicate NoMatchIn(s: string, from: nat, len: nat)
  {
    forall r: nat :: from <= r < from + len && r <= |s| ==> MatchAt(s, r).None?
  }

  /** The search is leftmost: no match starts inside a text piece (an even one). The
      text piece `i` starts at the length of the pieces before it. */
  lemma {:induction false} PiecesTextFree(s: string, p: nat, q: nat)
    requires p <= q <= |s|
    requires NoMatchIn(s, p, q - p)
    ensures forall i :: 0 <= i < |Pieces(s, p, q)| && i % 2 == 0 ==>
      NoMatchIn(s, p + |Concat(Pieces(s, p, q)[..i])|, |Pieces(s, p, q)[i]|)
    decreases |s| - q
  {
    var all := Pieces(s, p, q);
    if q == |s| {
      assert all[..0] == [];
    } else {
      match MatchAt(s, q)
      case Some(e) =>
        PiecesTextFree(s, e, e);
        var rest := Pieces(s, e, e);
        var front := [s[p..q], s[q..e]];
        assert all == front + rest;
        forall i | 0 <= i < |all| && i % 2 == 0
          ensures NoMatchIn(s, p + |Concat(all[..i])|, |all[i]|)
        {
          if i == 0 {
            assert all[..0] == [];
          } else {
            assert all[..i] == front + rest[..i - 2];
            ConcatAppend(front, rest[..i - 2]);
            assert Concat(front) == s[p..q] + (s[q..e] + Concat([]));
            assert all[i] == rest[i - 2];
          }
        }
      case None =>
        assert NoMatchIn(s, p, q + 1 - p);
        PiecesTextFree(s, p, q + 1);
    }
  }

  /** In the pieces of a line, no `**…**` match starts inside a text piece: every
      span the pattern can find is one of the odd pieces. */
  lemma SplitBoldTextFree(line: string)
    ensures forall i :: 0 <= i < |SplitBold(line)| && i % 2 == 0 ==>
      NoMatchIn(line, |Concat(SplitBold(line)[..i])|, |SplitBold(line)[i]|)
  {
    PiecesTextFree(line, 0, 0);
  }

  /** A rendered piece: a text node, or a `<strong>` element with its text. */
  datatype Part = Plain(text: string) | Strong(text: string)

  /** `part.startsWith('**') && part.endsWith('**') ? <strong>{part.slice(2, -2)}</strong> : part` */
  function RenderPart(piece: string): Part
  {
    if StartsWith(piece, "**") && EndsWith(piece, "**") then Strong(Slice(piece, 2, -2)) else Plain(piece)
  }

  /** renderInsight */
  function RenderInsight(line: string): (parts: seq<Part>)
    ensures |parts| == |SplitBold(line)|
    ensures forall i :: 0 <= i < |parts| ==> parts[i] == RenderPart(SplitBold(line)[i])
  {
    var pieces := SplitBold(line);
    seq(|pieces|, i requires 0 <= i < |pieces| => RenderPart(pieces[i]))
  }

  /** The pieces of a line give the line back, and every matched span is rendered
      bold with exactly its two leading and two trailing asterisks removed. */
  lemma RenderInsightSpans(line: string)
    ensures Concat(SplitBold(line)) == line
    ensures |SplitBold(line)| % 2 == 1
    ensures var pieces, parts := SplitBold(line), RenderInsight(line);
      forall i :: 0 <= i < |parts| && i % 2 == 1 ==>
        parts[i].Strong? && pieces[i] == "**" + parts[i].text + "**"
  {
    PiecesConcat(line, 0, 0);
    PiecesAlternate(line, 0, 0);
    var pieces, parts := SplitBold(line), RenderInsight(line);
    forall i | 0 <= i < |parts| && i % 2 == 1
      ensures parts[i].Strong? && pieces[i] == "**" + parts[i].text + "**"
    {
      SpanRendersBold(pieces[i]);
    }
  }

  /** A span renders bold, without the two asterisks at each end. */
  lemma SpanRendersBold(w: string)
    requires IsSpan(w)
    ensures RenderPart(w) == Strong(w[2..|w| - 2])
    ensures w == "**" + w[2..|w| - 2] + "**"
  {
    assert w[..2] == "**" && w[|w| - 2..] == "**";
    SliceInner(w);
    assert w == w[..2] + w[2..|w| - 2] + w[|w| - 2..];
  }

  /** The pieces of a line with one bold span in its middle. */
  lemma SplitBoldExample()
    ensures SplitBold("a **b** c") == ["a ", "**b**", " c"]
  {
    var s := "a **b** c";
    assert MatchAt(s, 0) == None && MatchAt(s, 1) == None;
    assert CloseFrom(s, 5) == Some(7);
    assert CloseFrom(s, 4) == Some(7);
    assert MatchAt(s, 2) == Some(7);
    assert MatchAt(s, 7) == None && MatchAt(s, 8) == None;
    assert Pieces(s, 7, 9) == [" c"];
    assert Pieces(s, 7, 7) == [" c"];
    assert s[0..2] == "a " && s[2..7] == "**b**";
    assert Pieces(s, 0, 2) == [s[0..2], s[2..7]] + Pieces(s, 7, 7);
  }

  /** A line of three pieces renders piece by piece. */
  lemma RenderThreePieces(line: string, p0: string, p1: string, p2: string)
    requires SplitBold(line) == [p0, p1, p2]
    ensures RenderInsight(line) == [RenderPart(p0), RenderPart(p1), RenderPart(p2)]
  {
    var parts := RenderInsight(line);
    assert parts[0] == RenderPart(p0) && parts[1] == RenderPart(p1) && parts[2] == RenderPart(p2);
  }

  /** The pieces of the example line, rendered one at a time. */
  lemma ExamplePartsRendered()
    ensures RenderPart("a ") == Plain("a ")
    ensures RenderPart("**b**") == Strong("b")
    ensures RenderPart(" c") == Plain(" c")
  {
    var w := "**b**";
    assert IsSpan(w);
    SpanRendersBold(w);
    assert w[2..3] == "b";
    assert !StartsWith("a ", "**") && !StartsWith(" c", "**");
  }

  /** A bold span in the middle of a line renders as text, bold, text. */
  lemma RenderInsightExample()
    ensures RenderInsight("a **b** c") == [Plain("a "), Strong("b"), Plain(" c")]
  {
    SplitBoldExample();
    RenderThreePieces("a **b** c", "a ", "**b**", " c");
    ExamplePartsRendered();
  }

  /** The bold test looks at the text of a piece, not at whether it was matched:
      a line that is just "**" (what "***" becomes after the bullet is stripped)
      has no span, yet renders as an empty bold element. */
  lemma RenderInsightBareAsterisks()
    ensures SplitBold("**") == ["**"]
    ensures RenderInsight("**") == [Strong("")]
  {
    var s := "**";
    assert MatchAt(s, 0) == None && MatchAt(s, 1) == None;
  }

  // ---------------------------------------------------------------------
  // The results memo of CalculatorUI
  // ---------------------------------------------------------------------

  /** The share of the manual hours automated in this file. */
  const AUTOMATION_POTENTIAL: real := 0.85

  /** The message generateInsights rethrows every error with, in this file. */
  const APP_FAILURE_MESSAGE: string := "Failed to communicate with the AI service. Please check your API key and try again."

  /** Savings before rounding: 85% of the monthly hours, costed out. */
  function ExactSavings(form: FormData): real
  {
    WeeklyHours(form) * HOURS_PER_MONTH * AUTOMATION_POTENTIAL * form.hourlyCost
  }

  /** Revenue boost before rounding. */
  function ExactBoost(form: FormData): real
  {
    ExactSavings(form) * ((form.industry - 1.0) * 0.1 + 0.05) + form.revenue * 0.01
  }

  /** The body of the `results` memo, at step 3: only the output fields are rounded,
      and the ROI is taken from the unrounded figures. */
  function ComputeResults(form: FormData): CalculationResults
  {
    var tmh := SumFields(form, HOUR_FIELDS) * HOURS_PER_MONTH;
    var automated := tmh * AUTOMATION_POTENTIAL;
    var savings := automated * form.hourlyCost;
    var gain := if tmh == 0.0 then 0 else Round((automated / tmh) * 100.0);
    var boost := savings * ((form.industry - 1.0) * 0.1 + 0.05) + form.revenue * 0.01;
    var yearly := (savings + boost) * 12.0;
    var roi := if SERVICE_COST > 0.0 then Finite(Round(((yearly - SERVICE_COST) / SERVICE_COST) * 100.0)) else Infinite;
    CalculationResults(tmh, tmh * form.hourlyCost, Round(automated), Round(savings) as real, gain, Round(boost) as real, roi)
  }

  /** `results`: null away from the last step, recomputed from the form at it. */
  function ResultsMemo(currentStep: int, form: FormData): (r: Option<CalculationResults>)
    ensures r.Some? <==> currentStep == TOTAL_STEPS
  {
    if currentStep != TOTAL_STEPS then None else Some(ComputeResults(form))
  }

  /** The total is 4.33 times the six weekly hour fields, the wasted cost is that
      total at the hourly cost, and the automated hours are its 85% share rounded
      to the nearest integer. */
  lemma ComputeResultsHours(form: FormData)
    ensures var r := ComputeResults(form);
      && r.totalMonthlyHours == 4.33 * WeeklyHours(form)
      && r.monthlyWastedCost == r.totalMonthlyHours * form.hourlyCost
      && r.hoursAutomated as real - 0.5 <= 0.85 * r.totalMonthlyHours < r.hoursAutomated as real + 0.5
  {
    SumOfHourFields(form);
  }

  /** The savings round the exact savings to the nearest integer. */
  lemma ComputeResultsSavings(form: FormData)
    ensures var r := ComputeResults(form);
      r.monthlySavings - 0.5 <= ExactSavings(form) < r.monthlySavings + 0.5
  {
    SumOfHourFields(form);
  }

  /** The revenue boost rounds the exact boost to the nearest integer. */
  lemma ComputeResultsBoost(form: FormData)
    ensures var r := ComputeResults(form);
      r.monthlyRevenueBoost - 0.5 <= ExactBoost(form) < r.monthlyRevenueBoost + 0.5
  {
    SumOfHourFields(form);
  }

  /** The productivity gain is 0 without hours and 85 with any (non-zero) total. */
  lemma ComputeResultsGain(form: FormData)
    ensures ComputeResults(form).productivityGain == if WeeklyHours(form) == 0.0 then 0 else 85
  {
    SumOfHourFields(form);
    var tmh := SumFields(form, HOUR_FIELDS) * HOURS_PER_MONTH;
    if tmh != 0.0 {
      assert (tmh * AUTOMATION_POTENTIAL / tmh) * 100.0 == 85.0;
      RoundOfInteger(85);
    }
  }

  /** The service cost is a positive constant here, so the Infinity branch is dead:
      the ROI is always a number, and it is non-negative exactly when a year of
      exact savings and boost reaches 7462.5 (99.5% of the cost). */
  lemma ComputeResultsRoi(form: FormData)
    ensures var r, yearly := ComputeResults(form), (ExactSavings(form) + ExactBoost(form)) * 12.0;
      && r.roi.Finite?
      && r.roi.percent as real - 0.5 <= (yearly - 7500.0) / 75.0 < r.roi.percent as real + 0.5
      && (r.roi.percent >= 0 <==> yearly >= 7462.5)
  {
    SumOfHourFields(form);
    StepAndCostConstants();
  }

  /** The two formula sets disagree: on the initial form the wizard of
      components/ROICalculator.tsx reports a 96% productivity gain, this one 85%. */
  lemma FormulasDiffer()
    ensures CalculateRoi(INITIAL_FORM_DATA, SERVICE_COST).productivityGain == 96
    ensures ComputeResults(INITIAL_FORM_DATA).productivityGain == 85
  {
    assert WeeklyHours(INITIAL_FORM_DATA) == 72.0;
    ProductivityGainLargeTeams(INITIAL_FORM_DATA, SERVICE_COST);
    ComputeResultsGain(INITIAL_FORM_DATA);
  }

  // ---------------------------------------------------------------------
  // generateInsights and the results page of this file
  // ---------------------------------------------------------------------

  /** generateInsights(data, apiKey) with the reply of the service as a parameter:
      an empty key and a failed call both end in the one rethrown message. */
  function AppGenerateInsights(apiKey: string, reply: Option<string>): (r: Result<seq<string>, string>)
    ensures r.Failure? ==> r.error == APP_FAILURE_MESSAGE
    ensures apiKey == "" ==> r.Failure?
    ensures r.Success? <==> apiKey != "" && reply.Some?
    ensures r.Success? ==> r.value == ParseInsights(reply.value)
  {
    if apiKey == "" then Failure(APP_FAILURE_MESSAGE)
    else match reply
      case None => Failure(APP_FAILURE_MESSAGE)
      case Some(text) => Success(ParseInsights(text))
  }

  /** The two generateInsights differ only in where the key comes from and in the
      wording of the failure. */
  lemma GenerateInsightsAgree(apiKey: string, reply: Option<string>)
    ensures var a, g := AppGenerateInsights(apiKey, reply), GenerateInsights(Some(apiKey), reply);
      a.Success? == g.Success? && (a.Success? ==> a.value == g.value)
  {
  }

  /** costData of this file: the same two costs under other names. */
  function AppCostData(results: CalculationResults): (bars: seq<Bar>)
    ensures |bars| == 2
    ensures bars[0].cost == results.monthlyWastedCost
    ensures bars[0].cost - bars[1].cost == results.monthlySavings
  {
    [ Bar("Manual Cost", results.monthlyWastedCost, MANUAL_COLOR),
      Bar("After AI", results.monthlyWastedCost - results.monthlySavings, AUTOMATED_COLOR) ]
  }

  /** Both cost charts plot the same two values in the same colours. */
  lemma CostChartsAgree(results: CalculationResults)
    ensures forall i :: 0 <= i < 2 ==>
      AppCostData(results)[i].cost == CostData(results)[i].cost
      && AppCostData(results)[i].fill == CostData(results)[i].fill
  {
  }

  /** The pie of this file (RoiPieChart, with its placeholder text) and the
      timeData it is given: the placeholder shows exactly when no task has
      positive hours. components/Step3.tsx draws its pie without a placeholder. */
  lemma PiePlaceholderIffNoHours(form: FormData)
    ensures RoiPieChart.Render(TimeData(form)).Placeholder? <==> forall k :: 0 <= k < 6 ==> Get(form, HOUR_FIELDS[k]) <= 0.0
  {
    var r := TimeData(form);
    TimeDataContents(form);
    RoiPieChart.PlaceholderIffNoSlices(r);
    if r != [] {
      var e := r[0];
      assert e in TaskEntries(form);
    }
  }

  /** Which blocks of the insights card render here: the tests are on the length
      of the array instead of truthiness. */
  function AppPanels(insights: seq<string>, isLoading: bool, error: string): (s: set<PanelKind>)
    ensures IdlePanel in s <==> |insights| == 0 && !isLoading && error == ""
    ensures LoadingPanel in s <==> isLoading
    ensures ErrorPanel in s <==> error != ""
    ensures InsightsPanel in s <==> |insights| > 0 && !isLoading
  {
    (if |insights| == 0 && !isLoading && error == "" then {IdlePanel} else {})
    + (if isLoading then {LoadingPanel} else {})
    + (if error != "" then {ErrorPanel} else {})
    + (if |insights| > 0 && !isLoading then {InsightsPanel} else {})
  }

  /** The states the buttons can reach. */
  predicate AppReachable(insights: seq<string>, isLoading: bool, error: string)
  {
    && (error == "" || error == APP_FAILURE_MESSAGE)
    && (isLoading ==> error == "")
    && (|insights| > 0 ==> error == "" && !isLoading)
  }

  /** In a reachable state exactly one block renders. */
  lemma AppExactlyOnePanel(insights: seq<string>, isLoading: bool, error: string)
    ensures AppReachable(insights, isLoading, error) ==> |AppPanels(insights, isLoading, error)| == 1
  {
    var s := AppPanels(insights, isLoading, error);
    if !AppReachable(insights, isLoading, error) {
    } else if isLoading {
      assert s == {LoadingPanel};
    } else if error != "" {
      assert s == {ErrorPanel};
    } else if |insights| > 0 {
      assert s == {InsightsPanel};
    } else {
      assert s == {IdlePanel};
    }
  }

  /** Unlike components/Step3.tsx, a reply without lines brings the idle block back. */
  lemma AppEmptyReplyShowsIdle()
    ensures AppPanels([], false, "") == {IdlePanel}
    ensures Panels(Lines([]), false, "") == {InsightsPanel}
  {
    assert AppPanels([], false, "") == {IdlePanel};
    EmptyReplyShowsEmptyInsights();
  }

  /** The buttons of this file's card, and the reply that settles a pending generation. */
  datatype AppPanelEvent = AppGenerateClick | AppTryAgainClick | AppSettle(reply: Option<string>) | AppBookClick | AppBackClick

  class AppResultsPanel {
    /** The `apiKey` prop. */
    const apiKey: string
    var insights: seq<string>
    var isLoading: bool
    var error: string
    var view: View

    ghost predicate Valid()
      reads this
    {
      AppReachable(insights, isLoading, error)
    }

    function Shown(): (s: set<PanelKind>)
      reads this
      ensures Valid() ==> |s| == 1
    {
      AppExactlyOnePanel(insights, isLoading, error);
      AppPanels(insights, isLoading, error)
    }

    /** Each insight line as it is rendered. */
    function RenderedInsights(): (r: seq<seq<Part>>)
      reads this
      ensures |r| == |insights|
      ensures forall i :: 0 <= i < |r| ==> r[i] == RenderInsight(insights[i])
    {
      seq(|insights|, i requires 0 <= i < |insights| reads this => RenderInsight(insights[i]))
    }

    constructor(apiKey: string)
      ensures this.apiKey == apiKey
      ensures insights == [] && !isLoading && error == "" && view == ResultsView
      ensures Valid() && Shown() == {IdlePanel}
    {
      this.apiKey := apiKey;
      insights := [];
      isLoading := false;
      error := "";
      view := ResultsView;
    }

    /** The synchronous start of handleGenerateInsights. */
    method StartGeneration()
      modifies this
      ensures isLoading && error == ""
      ensures insights == old(insights) && view == old(view)
    {
      isLoading := true;
      error := "";
    }

    /** The end of handleGenerateInsights: the lines, or the error's message. */
    method FinishGeneration(reply: Option<string>)
      modifies this
      ensures !isLoading && view == old(view)
      ensures var o := AppGenerateInsights(apiKey, reply);
        && (o.Success? ==> insights == o.value && error == old(error))
        && (o.Failure? ==> insights == old(insights) && error == APP_FAILURE_MESSAGE)
    {
      match AppGenerateInsights(apiKey, reply) {
        case Success(lines) =>
          insights := lines;
        case Failure(message) =>
          error := message;
      }
      isLoading := false;
    }

    /** Whether the control behind `e` is on the page: the card and its buttons
        in the results view, the back button in the booking view. A pending
        generation settles whichever view is shown. */
    predicate Rendered(e: AppPanelEvent)
      reads this
    {
      var shown := AppPanels(insights, isLoading, error);
      match e
      case AppGenerateClick => view == ResultsView && IdlePanel in shown
      case AppTryAgainClick => view == ResultsView && ErrorPanel in shown
      case AppSettle(_) => isLoading
      case AppBookClick => view == ResultsView && (IdlePanel in shown || InsightsPanel in shown)
      case AppBackClick => view == BookingView
    }

    /** One event on the rendered page; controls that do not render do nothing. */
    method Handle(e: AppPanelEvent)
      requires Valid()
      modifies this
      ensures Valid()
      ensures !old(Rendered(e)) ==>
        insights == old(insights) && isLoading == old(isLoading) && error == old(error) && view == old(view)
      ensures old(Rendered(e)) && (e.AppGenerateClick? || e.AppTryAgainClick?) ==>
        isLoading && error == "" && insights == old(insights) && view == old(view)
      ensures old(Rendered(e)) && e.AppSettle? ==> var o := AppGenerateInsights(apiKey, e.reply);
        && !isLoading && view == old(view)
        && (o.Success? ==> insights == o.value && error == "")
        && (o.Failure? ==> insights == old(insights) && error == APP_FAILURE_MESSAGE)
      ensures e.AppBookClick? || e.AppBackClick? ==>
        insights == old(insights) && isLoading == old(isLoading) && error == old(error)
      ensures old(Rendered(e)) && e.AppBookClick? ==> view == BookingView
      ensures old(Rendered(e)) && e.AppBackClick? ==> view == ResultsView
      ensures !e.AppBookClick? && !e.AppBackClick? ==> view == old(view)
      ensures view != old(view) ==> (e.AppBookClick? && view == BookingView) || (e.AppBackClick? && view == ResultsView)
      ensures e.AppSettle? && old(isLoading) ==> !isLoading
      ensures e.AppSettle? && old(isLoading) && apiKey == "" ==> error == APP_FAILURE_MESSAGE && insights == old(insights)
    {
      var shown := AppPanels(insights, isLoading, error);
      match e
      case AppGenerateClick =>
        if view == ResultsView && IdlePanel in shown {
          StartGeneration();
        }
      case AppTryAgainClick =>
        if view == ResultsView && ErrorPanel in shown {
          StartGeneration();
        }
      case AppSettle(reply) =>
        if isLoading {
          FinishGeneration(reply);
        }
      case AppBookClick =>
        if view == ResultsView && (IdlePanel in shown || InsightsPanel in shown) {
          view := BookingView;
        }
      case AppBackClick =>
        if view == BookingView {
          view := ResultsView;
        }
    }
  }

  // ---------------------------------------------------------------------
  // CalculatorUI
  // ---------------------------------------------------------------------

  /** The controls of the wizard: a slider or select of steps 1 and 2, and the footer's buttons. */
  datatype StepEvent = Edit(key: Field, value: real) | NextButton | BackButton

  /** The wizard. Closing unmounts it, so opening again starts from the constructor. */
  class CalculatorUI {
    var currentStep: int
    var formData: FormData
    /** +1 after a forward press, -1 after a back press; it picks the slide direction. */
    var direction: int

    ghost predicate Valid()
      reads this
    {
      1 <= currentStep <= TOTAL_STEPS && (direction == 1 || direction == -1)
    }

    constructor()
      ensures currentStep == 1 && formData == INITIAL_FORM_DATA && direction == 1
      ensures Valid() && Results() == None
    {
      currentStep := 1;
      formData := INITIAL_FORM_DATA;
      direction := 1;
    }

    /** The `results` memo. */
    function Results(): (r: Option<CalculationResults>)
      reads this
      ensures r.Some? <==> currentStep == TOTAL_STEPS
      ensures r.Some? ==> r.value == ComputeResults(formData)
    {
      ResultsMemo(currentStep, formData)
    }

    /** updateData: the named field takes the value, everything else stays. */
    method UpdateData(key: Field, value: real)
      modifies this
      ensures formData == With(old(formData), key, value)
      ensures forall other :: other != key ==> Get(formData, other) == Get(old(formData), other)
      ensures currentStep == old(currentStep) && direction == old(direction)
    {
      formData := With(formData, key, value);
    }

    /** nextStep: the direction becomes +1 even when the step cannot move. */
    method NextStep()
      modifies this
      ensures direction == 1
      ensures currentStep == if old(currentStep) < TOTAL_STEPS then old(currentStep) + 1 else old(currentStep)
      ensures formData == old(formData)
      ensures old(Valid()) ==> Valid()
    {
      direction := 1;
      if currentStep < TOTAL_STEPS {
        currentStep := currentStep + 1;
      }
    }

    /** prevStep: the direction becomes -1 even when the step cannot move. */
    method PrevStep()
      modifies this
      ensures direction == -1
      ensures currentStep == if old(currentStep) > 1 then old(currentStep) - 1 else old(currentStep)
      ensures formData == old(formData)
      ensures old(Valid()) ==> Valid()
    {
      direction := -1;
      if currentStep > 1 {
        currentStep := currentStep - 1;
      }
    }

    /** One user action: the footer renders below the last step only, the back
        button is disabled at step 1, and the form controls render at steps 1 and 2. */
    method Handle(e: StepEvent)
      requires Valid()
      modifies this
      ensures Valid()
      ensures old(currentStep) == TOTAL_STEPS ==>
        currentStep == old(currentStep) && formData == old(formData) && direction == old(direction)
      ensures e.NextButton? && old(currentStep) < TOTAL_STEPS ==> currentStep == old(currentStep) + 1 && direction == 1
      ensures e.BackButton? && 1 < old(currentStep) < TOTAL_STEPS ==> currentStep == old(currentStep) - 1 && direction == -1
      ensures e.Edit? && old(currentStep) < TOTAL_STEPS ==> formData == With(old(formData), e.key, e.value)
      ensures e.Edit? ==> currentStep == old(currentStep) && direction == old(direction)
      ensures !e.Edit? ==> formData == old(formData)
      ensures e.BackButton? && old(currentStep) == 1 ==> currentStep == 1 && direction == old(direction)
    {
      match e
      case Edit(key, value) =>
        if currentStep < TOTAL_STEPS {
          UpdateData(key, value);
        }
      case NextButton =>
        if currentStep < TOTAL_STEPS {
          NextStep();
        }
      case BackButton =>
        if currentStep < TOTAL_STEPS && currentStep != 1 {
          PrevStep();
        }
    }
  }
}
