/** The constant tables of constants.ts (App.tsx re-declares the same values). */
module Constants {
  import opened Types

  /** One entry of the industry select: its label (`name`) and its revenue multiplier. */
  datatype IndustryOption = IndustryOption(name: string, value: real)

  const INDUSTRY_OPTIONS: seq<IndustryOption> := [
    IndustryOption("General Business", 1.0),
    IndustryOption("Professional Services", 1.3),
    IndustryOption("E-commerce", 1.2),
    IndustryOption("Real Estate", 1.4),
    IndustryOption("Healthcare", 1.5),
    IndustryOption("Technology", 1.3),
    IndustryOption("Manufacturing", 1.2),
    IndustryOption("Financial Services", 1.6),
    IndustryOption("Marketing Agency", 1.4)
  ]

  const INITIAL_FORM_DATA: FormData := FormData(
    industry := 1.0,
    revenue := 250000.0,
    teamSize := 15.0,
    hourlyCost := 95.0,
    leadGenHours := 20.0,
    followUpHours := 16.0,
    dataEntryHours := 12.0,
    schedulingHours := 8.0,
    reportingHours := 6.0,
    emailHours := 10.0)

  const TOTAL_STEPS: int := 3

  const SERVICE_COST: real := 7500.0

  const PIE_CHART_COLORS: seq<string> :=
    ["#10B981", "#3b82f6", "#f59e0b", "#ef4444", "#a855f7", "#6366f1"]

  /** Nine industries, every multiplier between 1.0 and 1.6, every label non-empty. */
  lemma IndustryTableShape()
    ensures |INDUSTRY_OPTIONS| == 9
    ensures forall i :: 0 <= i < |INDUSTRY_OPTIONS| ==>
      1.0 <= INDUSTRY_OPTIONS[i].value <= 1.6 && INDUSTRY_OPTIONS[i].name != ""
  {
  }

  /** Multipliers repeat: 1.3, 1.2 and 1.4 each belong to two industries, so a
      multiplier does not determine its industry. */
  lemma IndustryValuesRepeat()
    ensures INDUSTRY_OPTIONS[1].value == INDUSTRY_OPTIONS[5].value == 1.3
    ensures INDUSTRY_OPTIONS[2].value == INDUSTRY_OPTIONS[6].value == 1.2
    ensures INDUSTRY_OPTIONS[3].value == INDUSTRY_OPTIONS[8].value == 1.4
    ensures INDUSTRY_OPTIONS[1].name != INDUSTRY_OPTIONS[5].name
  {
  }

  /** The initial form selects an industry that is in the table, the first one. */
  lemma InitialIndustryIsAnOption()
    ensures INITIAL_FORM_DATA.industry == INDUSTRY_OPTIONS[0].value
  {
  }

  /** The wizard has three steps and the default yearly service cost is positive. */
  lemma StepAndCostConstants()
    ensures TOTAL_STEPS == 3 && SERVICE_COST == 7500.0 > 0.0
  {
  }

  /** Six colours, pairwise different, one per task of the pie chart. */
  lemma PieColorsDistinct()
    ensures |PIE_CHART_COLORS| == |HOUR_FIELDS| == 6
    ensures forall i, j :: 0 <= i < j < |PIE_CHART_COLORS| ==> PIE_CHART_COLORS[i] != PIE_CHART_COLORS[j]
  {
  }
}
