/**
 * components/Step3.tsx: the results page of the wizard. The pure part derives
 * the chart data and the ROI counter target from the results and the form;
 * the class holds the insights / loading / error / view state that the
 * "Generate AI Insights", "Try Again", booking and back buttons step through.
 */
module Step3 {
  import opened Wrappers
  import opened Js
  import opened Types
  import opened RoiPieChart
  import opened GeminiService
  import opened RoiCalculator

  const MANUAL_COLOR: string := "#94a3b8"
  const AUTOMATED_COLOR: string := "#10B981"
  /** The message the component shows for any failure of generation. */
  const GENERATION_ERROR: string := "Failed to generate insights. Please try again."
  /** What the ROI counter animates to when the ROI is Infinity. */
  const INFINITE_ROI_TARGET: int := 10000

  /** A bar of the cost chart. */
  datatype Bar = Bar(name: string, cost: real, fill: string)

  /** costData: the manual cost, and what is left of it after the savings. */
  function CostData(results: CalculationResults): (bars: seq<Bar>)
    ensures |bars| == 2
    ensures bars[0].cost == results.monthlyWastedCost
    ensures bars[0].cost - bars[1].cost == results.monthlySavings
    ensures bars[1].cost <= bars[0].cost <==> results.monthlySavings >= 0.0
  {
    [ Bar("Manual Work Cost", results.monthlyWastedCost, MANUAL_COLOR),
      Bar("Cost After Automation", results.monthlyWastedCost - results.monthlySavings, AUTOMATED_COLOR) ]
  }

  /** The six pie entries before filtering, in the fixed order Lead Gen .. Email Mgmt. */
  function TaskEntries(form: FormData): (r: seq<Entry>)
    ensures |r| == |HOUR_FIELDS|
    ensures forall k :: 0 <= k < |r| ==> r[k].value == Get(form, HOUR_FIELDS[k])
  {
    [ Entry("Lead Gen", form.leadGenHours),
      Entry("Follow-ups", form.followUpHours),
      Entry("Data Entry", form.dataEntryHours),
      Entry("Scheduling", form.schedulingHours),
      Entry("Reporting", form.reportingHours),
      Entry("Email Mgmt", form.emailHours) ]
  }

  /** `.filter(d => d.value > 0)` */
  function Positive(data: seq<Entry>): (r: seq<Entry>)
    ensures forall e :: e in r <==> e in data && e.value > 0.0
    ensures IsSubsequence(r, data)
    ensures forall x: Entry :: x.value > 0.0 ==> multiset(r)[x] == multiset(data)[x]
    ensures forall x: Entry :: x.value <= 0.0 ==> multiset(r)[x] == 0
  {
    if data == [] then []
    else
      var rest := Positive(data[1..]);
      assert data == [data[0]] + data[1..];
      if data[0].value > 0.0 then [data[0]] + rest else rest
  }

  /** timeData */
  function TimeData(form: FormData): seq<Entry>
  {
    Positive(TaskEntries(form))
  }

  /** The names of the six entries are all different, so an entry of the filtered
      list identifies its task. */
  lemma TaskNamesDistinct(form: FormData)
    ensures forall j, k :: 0 <= j < k < 6 ==> TaskEntries(form)[j].name != TaskEntries(form)[k].name
  {
  }

  /** timeData holds exactly the tasks with positive hours, in the fixed order,
      so at most six entries. */
  lemma TimeDataContents(form: FormData)
    ensures var r, all := TimeData(form), TaskEntries(form);
      && |r| <= 6
      && IsSubsequence(r, all)
      && (forall i :: 0 <= i < |r| ==> r[i].value > 0.0)
      && (forall k :: 0 <= k < 6 ==> (all[k] in r <==> Get(form, HOUR_FIELDS[k]) > 0.0))
  {
    var r, all := TimeData(form), TaskEntries(form);
    SubsequenceLength(r, all);
    forall i | 0 <= i < |r|
      ensures r[i].value > 0.0
    {
      assert r[i] in r;
    }
  }

  /** Dropping entries that are not positive keeps the sum when none is negative. */
  lemma {:induction false} SumOfPositivePart(data: seq<Entry>)
    requires forall i :: 0 <= i < |data| ==> data[i].value >= 0.0
    ensures Sum(Positive(data)) == Sum(data)
    decreases |data|
  {
    if data != [] {
      SumOfPositivePart(data[1..]);
      if data[0].value > 0.0 {
        var rest := Positive(data[1..]);
        assert ([data[0]] + rest)[1..] == rest;
      }
    }
  }

  /** The six entries add up to the weekly hours. */
  lemma SumOfTaskEntries(form: FormData)
    ensures Sum(TaskEntries(form)) == WeeklyHours(form)
  {
    var t := TaskEntries(form);
    assert t[6..] == [];
    assert Sum(t[5..]) == form.emailHours;
    assert Sum(t[4..]) == form.reportingHours + Sum(t[5..]);
    assert Sum(t[3..]) == form.schedulingHours + Sum(t[4..]);
    assert Sum(t[2..]) == form.dataEntryHours + Sum(t[3..]);
    assert Sum(t[1..]) == form.followUpHours + Sum(t[2..]);
  }

  /** With no negative hours the pie centre shows the weekly-hours total. */
  lemma TimeDataTotal(form: FormData)
    requires forall k :: 0 <= k < 6 ==> Get(form, HOUR_FIELDS[k]) >= 0.0
    ensures Total(TimeData(form)) == WeeklyHours(form)
  {
    var all := TaskEntries(form);
    forall i | 0 <= i < |all|
      ensures all[i].value >= 0.0
    {
      assert all[i].value == Get(form, HOUR_FIELDS[i]);
    }
    SumOfPositivePart(all);
    TotalIsSum(Positive(all));
    SumOfTaskEntries(form);
  }

  /** The value the big ROI counter animates to. */
  function CounterTarget(roi: Roi): (n: int)
    ensures roi.Finite? ==> n == roi.percent
    ensures roi.Infinite? ==> n == INFINITE_ROI_TARGET
  {
    match roi
    case Finite(p) => p
    case Infinite => INFINITE_ROI_TARGET
  }

  /** A service that costs nothing shows 10000%. */
  lemma CounterTargetForFreeService(form: FormData, serviceCost: real)
    requires serviceCost <= 0.0
    ensures CounterTarget(CalculateRoi(form, serviceCost).roi) == 10000
  {
  }

  /** The `insights` state, which starts as the string '' and is then assigned the
      string[] that generateInsights resolves to: JavaScript keeps whichever
      value was assigned last. */
  datatype InsightsValue = Text(text: string) | Lines(lines: seq<string>)

  /** JavaScript truthiness: an empty string is falsy, every array (even []) truthy. */
  predicate Truthy(v: InsightsValue)
  {
    match v
    case Text(s) => s != ""
    case Lines(_) => true
  }

  /** What `dangerouslySetInnerHTML={{ __html: insights }}` receives: an array turns
      into its elements joined by commas (Array.prototype.toString). */
  function Html(v: InsightsValue): string
  {
    match v
    case Text(s) => s
    case Lines(ls) => if ls == [] then "" else Join(ls, ',')
  }

  /** The insights reach the page as one comma-separated string; splitting it at
      the commas gives the lines back when none of them has a comma of its own. */
  lemma HtmlOfLines(ls: seq<string>)
    requires ls != []
    requires forall i :: 0 <= i < |ls| ==> ',' !in ls[i]
    ensures Split(Html(Lines(ls)), ',') == ls
  {
    JoinSplit(ls, ',');
  }

  /** Two insights are shown as a single paragraph "a,b", not as two items. */
  lemma HtmlOfTwoLines()
    ensures Html(Lines(["Save time", "Grow"])) == "Save time,Grow"
  {
  }

  datatype View = ResultsView | BookingView

  /** The mutually exclusive blocks of the insights card. */
  datatype PanelKind = IdlePanel | LoadingPanel | ErrorPanel | InsightsPanel

  /** Which blocks render, from the four conditions in the markup. */
  function Panels(insights: InsightsValue, isLoading: bool, error: string): (s: set<PanelKind>)
    ensures IdlePanel in s <==> !Truthy(insights) && !isLoading && error == ""
    ensures LoadingPanel in s <==> isLoading
    ensures ErrorPanel in s <==> error != ""
    ensures InsightsPanel in s <==> !isLoading && Truthy(insights)
  {
    (if !Truthy(insights) && !isLoading && error == "" then {IdlePanel} else {})
    + (if isLoading then {LoadingPanel} else {})
    + (if error != "" then {ErrorPanel} else {})
    + (if !isLoading && Truthy(insights) then {InsightsPanel} else {})
  }

  /** The states the buttons can reach: the initial '' or an array of lines; an error
      is the fixed message and never coexists with loading or with lines. */
  predicate Reachable(insights: InsightsValue, isLoading: bool, error: string)
  {
    && (insights.Text? ==> insights.text == "")
    && (error == "" || error == GENERATION_ERROR)
    && (isLoading ==> error == "")
    && (insights.Lines? ==> error == "" && !isLoading)
  }

  /** In a reachable state exactly one block of the card renders. */
  lemma ExactlyOnePanel(insights: InsightsValue, isLoading: bool, error: string)
    ensures Reachable(insights, isLoading, error) ==> |Panels(insights, isLoading, error)| == 1
  {
    var s := Panels(insights, isLoading, error);
    if !Reachable(insights, isLoading, error) {
    } else if isLoading {
      assert s == {LoadingPanel};
    } else if error != "" {
      assert s == {ErrorPanel};
    } else if Truthy(insights) {
      assert s == {InsightsPanel};
    } else {
      assert s == {IdlePanel};
    }
  }

  /** A reply without lines still replaces the idle block by an empty insights block. */
  lemma EmptyReplyShowsEmptyInsights()
    ensures Panels(Lines([]), false, "") == {InsightsPanel}
    ensures Html(Lines([])) == ""
  {
    var s := Panels(Lines([]), false, "");
    assert s == {InsightsPanel};
  }

  /** The buttons of the card and the settling of the pending generation. */
  datatype PanelEvent = GenerateClick | TryAgainClick | Settle(outcome: Result<seq<string>, string>) | BookClick | BackClick

  class ResultsPanel {
    var insights: InsightsValue
    var isLoading: bool
    var error: string
    var view: View

    ghost predicate Valid()
      reads this
    {
      Reachable(insights, isLoading, error)
    }

    /** The blocks of the card that render now. */
    function Shown(): (s: set<PanelKind>)
      reads this
      ensures Valid() ==> |s| == 1
    {
      ExactlyOnePanel(insights, isLoading, error);
      Panels(insights, isLoading, error)
    }

    /** The initial `useState` values. */
    constructor()
      ensures insights == Text("") && !isLoading && error == "" && view == ResultsView
      ensures Valid() && Shown() == {IdlePanel}
    {
      insights := Text("");
      isLoading := false;
      error := "";
      view := ResultsView;
    }

    /** The synchronous start of handleGenerateInsights. */
    method StartGeneration()
      modifies this
      ensures isLoading && error == ""
      ensures insights == old(insights) && view == old(view)
    {
      isLoading := true;
      error := "";
    }

    /** The end of handleGenerateInsights once the call settles: the lines on
        success, the fixed message on any failure, and loading cleared either way. */
    method FinishGeneration(outcome: Result<seq<string>, string>)
      modifies this
      ensures !isLoading && view == old(view)
      ensures outcome.Success? ==> insights == Lines(outcome.value) && error == old(error)
      ensures outcome.Failure? ==> insights == old(insights) && error == GENERATION_ERROR
    {
      match outcome {
        case Success(lines) =>
          insights := Lines(lines);
        case Failure(_) =>
          error := GENERATION_ERROR;
      }
      isLoading := false;
    }

    /** handleGenerateInsights from start to end, with generateInsights given the
        key and the service's reply. */
    method Generate(apiKey: Option<string>, reply: Option<string>)
      modifies this
      ensures !isLoading && view == old(view)
      ensures var o := GenerateInsights(apiKey, reply);
        && (o.Success? ==> insights == Lines(o.value) && error == "")
        && (o.Failure? ==> insights == old(insights) && error == GENERATION_ERROR)
      ensures error == "" <==> apiKey.Some? && apiKey.value != "" && reply.Some?
    {
      StartGeneration();
      FinishGeneration(GenerateInsights(apiKey, reply));
    }

    /** Whether the control behind `e` is on the page: the card and its buttons
        in the results view, the back button in the booking view. A pending
        generation settles whichever view is shown. */
    predicate Rendered(e: PanelEvent)
      reads this
    {
      var shown := Panels(insights, isLoading, error);
      match e
      case GenerateClick => view == ResultsView && IdlePanel in shown
      case TryAgainClick => view == ResultsView && ErrorPanel in shown
      case Settle(_) => isLoading
      case BookClick => view == ResultsView && (IdlePanel in shown || InsightsPanel in shown)
      case BackClick => view == BookingView
    }

    /** One event on the rendered page. A button acts only when it renders (the
        card renders in the results view only); an outcome arrives only while a
        generation is pending. */
    method Handle(e: PanelEvent)
      requires Valid()
      modifies this
      ensures Valid()
      ensures !old(Rendered(e)) ==>
        insights == old(insights) && isLoading == old(isLoading) && error == old(error) && view == old(view)
      ensures old(Rendered(e)) && (e.GenerateClick? || e.TryAgainClick?) ==>
        isLoading && error == "" && insights == old(insights) && view == old(view)
      ensures old(Rendered(e)) && e.Settle? && e.outcome.Success? ==>
        insights == Lines(e.outcome.value) && !isLoading && error == "" && view == old(view)
      ensures old(Rendered(e)) && e.BookClick? ==> view == BookingView
      ensures old(Rendered(e)) && e.BackClick? ==> view == ResultsView
      ensures !e.BookClick? && !e.BackClick? ==> view == old(view)
      ensures e.BookClick? ==> insights == old(insights) && isLoading == old(isLoading) && error == old(error)
      ensures e.BackClick? ==> insights == old(insights) && isLoading == old(isLoading) && error == old(error)
      ensures view != old(view) ==> (e.BookClick? && view == BookingView) || (e.BackClick? && view == ResultsView)
      ensures (e.GenerateClick? || e.TryAgainClick?) && isLoading ==> error == ""
      ensures e.Settle? && old(isLoading) ==> !isLoading
      ensures e.Settle? && old(isLoading) && e.outcome.Failure? ==> error == GENERATION_ERROR
    {
      var shown := Panels(insights, isLoading, error);
      match e
      case GenerateClick =>
        if view == ResultsView && IdlePanel in shown && !isLoading {
          StartGeneration();
        }
      case TryAgainClick =>
        if view == ResultsView && ErrorPanel in shown {
          StartGeneration();
        }
      case Settle(outcome) =>
        if isLoading {
          FinishGeneration(outcome);
        }
      case BookClick =>
        if view == ResultsView && (IdlePanel in shown || InsightsPanel in shown) {
          view := BookingView;
        }
      case BackClick =>
        if view == BookingView {
          view := ResultsView;
        }
    }
  }
}
