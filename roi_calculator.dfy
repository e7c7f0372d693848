/**
 * components/ROICalculator.tsx: the three-step wizard that collects the form,
 * computes the results when it moves from step 2 to step 3, and resets when
 * it is closed. The computation is a pure function; the wizard is a class
 * whose fields are the component's state.
 */
module RoiCalculator {
  import opened Wrappers
  import opened Js
  import opened Types
  import opened Constants

  /** Weeks per month used to turn weekly hours into monthly hours. */
  const HOURS_PER_MONTH: real := 4.33
  /** Share of the manual hours that automation takes over. */
  const AUTOMATION_EFFICIENCY: real := 0.8
  /** Revenue boost per unit of the industry multiplier. */
  const REVENUE_BOOST_RATE: real := 0.15

  /** calculateROI: the results record for a form and the configured service cost. */
  function CalculateRoi(form: FormData, serviceCost: real): CalculationResults
  {
    var tmh := WeeklyHours(form) * HOURS_PER_MONTH;
    var automated := Round(tmh * AUTOMATION_EFFICIENCY);
    var savings := automated as real * form.hourlyCost;
    var gain := if tmh > 0.0 then Round((automated as real / tmh) * 100.0 * 1.2) else 0;
    var boost := form.revenue * (form.industry * REVENUE_BOOST_RATE);
    var annualBenefit := (savings + boost) * 12.0;
    var roi := if serviceCost > 0.0 then Finite(Round(((annualBenefit - serviceCost) / serviceCost) * 100.0)) else Infinite;
    CalculationResults(tmh, tmh * form.hourlyCost, automated, savings, gain, boost, roi)
  }

  /** Twelve months of savings plus revenue boost. */
  function AnnualBenefit(r: CalculationResults): real
  {
    (r.monthlySavings + r.monthlyRevenueBoost) * 12.0
  }

  /** The monthly figures: hours are 4.33 weeks of the six task hours, the automated
      hours are the nearest integer to 80% of them, and savings cost out the rounded
      hours, not the exact ones. */
  lemma CalculateRoiMonthlyFigures(form: FormData, serviceCost: real)
    ensures var r := CalculateRoi(form, serviceCost);
      && r.totalMonthlyHours == 4.33 * SumFields(form, HOUR_FIELDS)
      && r.monthlyWastedCost == r.totalMonthlyHours * form.hourlyCost
      && r.hoursAutomated as real - 0.5 <= 0.8 * r.totalMonthlyHours < r.hoursAutomated as real + 0.5
      && r.monthlySavings == r.hoursAutomated as real * form.hourlyCost
      && r.monthlyRevenueBoost == 0.15 * form.industry * form.revenue
  {
    SumOfHourFields(form);
  }

  /** The ROI is Infinity exactly when the service cost is not positive. */
  lemma RoiInfiniteIff(form: FormData, serviceCost: real)
    ensures CalculateRoi(form, serviceCost).roi.Infinite? <==> serviceCost <= 0.0
  {
  }

  /** With a positive cost the ROI is the nearest integer to the net benefit as a
      percentage of the cost, and it is non-negative exactly when the yearly
      benefit reaches 99.5% of the cost. */
  lemma RoiPercent(form: FormData, serviceCost: real)
    requires serviceCost > 0.0
    ensures var r := CalculateRoi(form, serviceCost);
      var exact := (AnnualBenefit(r) - serviceCost) / serviceCost * 100.0;
      && r.roi.Finite?
      && r.roi.percent as real - 0.5 <= exact < r.roi.percent as real + 0.5
      && (r.roi.percent >= 0 <==> AnnualBenefit(r) >= 0.995 * serviceCost)
  {
    var r := CalculateRoi(form, serviceCost);
    var b := AnnualBenefit(r);
    var exact := (b - serviceCost) / serviceCost * 100.0;
    assert exact * serviceCost == (b - serviceCost) * 100.0;
    if r.roi.percent >= 0 {
      assert exact >= -0.5;
      assert (b - serviceCost) * 100.0 >= -0.5 * serviceCost;
    }
    if b >= 0.995 * serviceCost {
      assert (b - serviceCost) * 100.0 >= -0.5 * serviceCost;
      assert exact >= -0.5;
    }
  }

  /** A year of benefit equal to the cost is an ROI of exactly 0%. */
  lemma RoiBreakEven(form: FormData, serviceCost: real)
    requires serviceCost > 0.0
    requires AnnualBenefit(CalculateRoi(form, serviceCost)) == serviceCost
    ensures CalculateRoi(form, serviceCost).roi == Finite(0)
  {
    RoundOfInteger(0);
  }

  /** No hours (or a negative total): no productivity gain. */
  lemma ProductivityGainWithoutHours(form: FormData, serviceCost: real)
    requires WeeklyHours(form) <= 0.0
    ensures CalculateRoi(form, serviceCost).productivityGain == 0
  {
  }

  /** With positive hours the gain is a non-negative percentage. */
  lemma ProductivityGainNonNegative(form: FormData, serviceCost: real)
    requires WeeklyHours(form) > 0.0
    ensures CalculateRoi(form, serviceCost).productivityGain >= 0
  {
    var r := CalculateRoi(form, serviceCost);
    var t := r.totalMonthlyHours;
    assert t > 0.0;
    assert r.hoursAutomated >= 0;
    var ratio := (r.hoursAutomated as real / t) * 100.0 * 1.2;
    assert ratio >= 0.0;
    RoundMonotone(0.0, ratio);
    RoundOfInteger(0);
  }

  /** A product with a positive factor has the sign of the other factor. */
  lemma PositiveFactor(a: real, t: real)
    requires t > 0.0
    ensures a * t >= 0.0 ==> a >= 0.0
    ensures a * t > 0.0 ==> a > 0.0
  {
    if a < 0.0 {
      assert a * t < 0.0;
    }
  }

  /** The arithmetic behind the next lemma: an integer within 1/2 of 80% of
      at least 120 hours is, as a share of those hours, within 0.5 of 96%. */
  lemma RoundedShareOfHours(t: real, n: int)
    requires t >= 120.0
    requires n as real - 0.5 <= t * 0.8 < n as real + 0.5
    ensures Round((n as real / t) * 100.0 * 1.2) == 96
  {
    var h := n as real;
    var x := (h / t) * 100.0 * 1.2;
    assert x == 120.0 * h / t;
    var low, high := 120.0 * h - 95.5 * t, 96.5 * t - 120.0 * h;
    assert low >= 0.0 && high > 0.0;
    assert x * t == 120.0 * h;
    assert (x - 95.5) * t == low;
    assert (96.5 - x) * t == high;
    PositiveFactor(x - 95.5, t);
    PositiveFactor(96.5 - x, t);
    RoundUnique(x, 96);
  }

  /** From 120 monthly hours on, the rounding of the automated hours no longer
      shows: the gain is 96% (= 0.8 * 120). */
  lemma ProductivityGainLargeTeams(form: FormData, serviceCost: real)
    requires WeeklyHours(form) * 4.33 >= 120.0
    ensures CalculateRoi(form, serviceCost).productivityGain == 96
  {
    var t := WeeklyHours(form) * HOURS_PER_MONTH;
    RoundedShareOfHours(t, Round(t * AUTOMATION_EFFICIENCY));
  }

  /** More revenue never lowers the ROI (with a non-negative industry multiplier). */
  lemma RoiMonotoneInRevenue(form: FormData, serviceCost: real, more: real)
    requires serviceCost > 0.0 && form.industry >= 0.0 && form.revenue <= more
    ensures var a, b := CalculateRoi(form, serviceCost), CalculateRoi(With(form, Revenue, more), serviceCost);
      a.roi.percent <= b.roi.percent && a.monthlyRevenueBoost <= b.monthlyRevenueBoost
  {
    var f2 := With(form, Revenue, more);
    var a, b := CalculateRoi(form, serviceCost), CalculateRoi(f2, serviceCost);
    assert WeeklyHours(f2) == WeeklyHours(form);
    assert a.monthlySavings == b.monthlySavings;
    var k := form.industry * REVENUE_BOOST_RATE;
    assert k >= 0.0;
    assert form.revenue * k <= more * k;
    assert AnnualBenefit(a) <= AnnualBenefit(b);
    var xa := (AnnualBenefit(a) - serviceCost) / serviceCost * 100.0;
    var xb := (AnnualBenefit(b) - serviceCost) / serviceCost * 100.0;
    assert xa <= xb;
    RoundMonotone(xa, xb);
  }

  /** The results do not depend on the team size, nor on how the hours are
      spread over the six tasks: only on their total. */
  lemma ResultsDependOnTotalHours(a: FormData, b: FormData, serviceCost: real)
    requires a.industry == b.industry && a.revenue == b.revenue && a.hourlyCost == b.hourlyCost
    requires SumFields(a, HOUR_FIELDS) == SumFields(b, HOUR_FIELDS)
    ensures CalculateRoi(a, serviceCost) == CalculateRoi(b, serviceCost)
  {
    SumOfHourFields(a);
    SumOfHourFields(b);
  }

  /** What the modal shows: nothing when closed, else the current step's panel.
      `Blank` is step 3 without results, which renders an empty main area. */
  datatype Screen = Closed | BusinessStep | TasksStep | ResultsStep(results: CalculationResults) | Blank

  /** The controls a user can operate: a slider or select of steps 1 and 2, the
      footer's two buttons, and the close button or backdrop. */
  datatype Event = Edit(key: Field, value: real) | NextButton | BackButton | CloseButton

  class Calculator {
    /** `config.serviceCost` */
    const serviceCost: real
    /** The `isOpen` prop. */
    var isOpen: bool
    var currentStep: int
    var formData: FormData
    var results: Option<CalculationResults>

    /** The step stays in 1..TOTAL_STEPS, and step 3 always has results. */
    ghost predicate Valid()
      reads this
    {
      1 <= currentStep <= TOTAL_STEPS && (currentStep == TOTAL_STEPS ==> results.Some?)
    }

    /** Besides, the results shown at step 3 are those of the form as it is now. */
    ghost predicate Consistent()
      reads this
    {
      Valid() && (currentStep == TOTAL_STEPS ==> results == Some(CalculateRoi(formData, serviceCost)))
    }

    /** The initial `useState` values. */
    constructor(serviceCost: real, isOpen: bool)
      ensures this.serviceCost == serviceCost && this.isOpen == isOpen
      ensures currentStep == 1 && formData == INITIAL_FORM_DATA && results == None
      ensures Consistent()
    {
      this.serviceCost := serviceCost;
      this.isOpen := isOpen;
      currentStep := 1;
      formData := INITIAL_FORM_DATA;
      results := None;
    }

    /** updateData: the named field takes the value, everything else stays. */
    method UpdateData(key: Field, value: real)
      modifies this
      ensures formData == With(old(formData), key, value)
      ensures Get(formData, key) == value
      ensures forall other :: other != key ==> Get(formData, other) == Get(old(formData), other)
      ensures currentStep == old(currentStep) && results == old(results) && isOpen == old(isOpen)
      ensures old(Valid()) ==> Valid()
    {
      formData := With(formData, key, value);
    }

    /** nextStep: moves on only below the last step, and computes the results
        exactly on the move from step 2 to step 3. */
    method NextStep()
      modifies this
      ensures currentStep == if old(currentStep) < TOTAL_STEPS then old(currentStep) + 1 else old(currentStep)
      ensures results == if old(currentStep) == TOTAL_STEPS - 1 then Some(CalculateRoi(formData, serviceCost)) else old(results)
      ensures formData == old(formData) && isOpen == old(isOpen)
      ensures old(Valid()) ==> Valid()
      ensures old(Consistent()) ==> Consistent()
    {
      if currentStep < TOTAL_STEPS {
        if currentStep == TOTAL_STEPS - 1 {
          results := Some(CalculateRoi(formData, serviceCost));
        }
        currentStep := currentStep + 1;
      }
    }

    /** prevStep: moves back only above the first step; the results are kept. */
    method PrevStep()
      modifies this
      ensures currentStep == if old(currentStep) > 1 then old(currentStep) - 1 else old(currentStep)
      ensures formData == old(formData) && results == old(results) && isOpen == old(isOpen)
      ensures old(Valid()) ==> Valid()
      ensures old(Consistent()) ==> Consistent()
    {
      if currentStep > 1 {
        currentStep := currentStep - 1;
      }
    }

    /** handleClose followed by the parent clearing `isOpen`, and the effect that
        then puts the initial state back (without its 300 ms delay). */
    method Close()
      modifies this
      ensures !isOpen
      ensures currentStep == 1 && formData == INITIAL_FORM_DATA && results == None
      ensures Consistent()
    {
      isOpen := false;
      currentStep := 1;
      formData := INITIAL_FORM_DATA;
      results := None;
    }

    /** The parent opening the modal again: the state is whatever the last close left. */
    method Open()
      modifies this
      ensures isOpen
      ensures currentStep == old(currentStep) && formData == old(formData) && results == old(results)
    {
      isOpen := true;
    }

    /** The footer is rendered below the last step only. */
    predicate FooterVisible()
      reads this
    {
      currentStep < TOTAL_STEPS
    }

    /** The back button is rendered but disabled at step 1. */
    predicate BackEnabled()
      reads this
    {
      FooterVisible() && currentStep != 1
    }

    /** The label of the forward button. */
    function NextLabel(): (s: string)
      reads this
      ensures s == "Calculate ROI" <==> currentStep == TOTAL_STEPS - 1
    {
      if currentStep == TOTAL_STEPS - 1 then "Calculate ROI" else "Next Step"
    }

    /** The width of the progress bar, in percent. */
    function Progress(): (p: real)
      reads this
      ensures Valid() ==> 0.0 < p <= 100.0
      ensures Valid() ==> (p == 100.0 <==> currentStep == TOTAL_STEPS)
    {
      (currentStep as real / TOTAL_STEPS as real) * 100.0
    }

    /** The panel in the main area. */
    function View(): (s: Screen)
      reads this
      ensures isOpen && Valid() ==> !s.Blank? && !s.Closed?
      ensures s.ResultsStep? ==> Some(s.results) == results && currentStep == TOTAL_STEPS
    {
      if !isOpen then Closed
      else if currentStep == 1 then BusinessStep
      else if currentStep == 2 then TasksStep
      else if currentStep == 3 && results.Some? then ResultsStep(results.value)
      else Blank
    }

    /** One user action on the rendered modal. Controls that are not rendered (or
        disabled) do nothing. From step 3 the only way anywhere is closing. */
    method Handle(e: Event)
      requires Consistent()
      modifies this
      ensures Consistent()
      ensures e.CloseButton? && old(isOpen) ==> !isOpen && currentStep == 1 && formData == INITIAL_FORM_DATA && results == None
      ensures !e.CloseButton? || !old(isOpen) ==> isOpen == old(isOpen)
      ensures !e.CloseButton? && old(currentStep) == TOTAL_STEPS ==>
        currentStep == old(currentStep) && formData == old(formData) && results == old(results)
      ensures !old(isOpen) ==>
        !isOpen && currentStep == old(currentStep) && formData == old(formData) && results == old(results)
      ensures e.Edit? && old(isOpen) && old(currentStep) < TOTAL_STEPS ==> formData == With(old(formData), e.key, e.value)
      ensures e.Edit? ==> currentStep == old(currentStep) && results == old(results)
      ensures e.NextButton? && old(isOpen) && old(currentStep) < TOTAL_STEPS ==>
        && currentStep == old(currentStep) + 1
        && formData == old(formData)
        && results == (if old(currentStep) == TOTAL_STEPS - 1 then Some(CalculateRoi(formData, serviceCost)) else old(results))
      ensures e.BackButton? && old(isOpen) ==>
        && currentStep == (if 1 < old(currentStep) < TOTAL_STEPS then old(currentStep) - 1 else old(currentStep))
        && formData == old(formData) && results == old(results)
    {
      if !isOpen {
        return;
      }
      match e
      case Edit(key, value) =>
        if currentStep < TOTAL_STEPS {
          UpdateData(key, value);
        }
      case NextButton =>
        if FooterVisible() {
          NextStep();
        }
      case BackButton =>
        if BackEnabled() {
          PrevStep();
        }
      case CloseButton =>
        Close();
    }
  }
}
