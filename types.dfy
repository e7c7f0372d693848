/**
 * The records of the calculator (types.ts): the ten numeric fields of the
 * form, the computed results, and the keyed update `{ ...prev, [key]: value }`
 * that both calculators perform when a slider or select changes.
 */
module Types {

  /** The form record. Every field is a JavaScript number; the model uses exact reals. */
  datatype FormData = FormData(
    industry: real,
    revenue: real,
    teamSize: real,
    hourlyCost: real,
    leadGenHours: real,
    followUpHours: real,
    dataEntryHours: real,
    schedulingHours: real,
    reportingHours: real,
    emailHours: real)

  /** The keys of FormData (`keyof FormData`). */
  datatype Field =
    | Industry | Revenue | TeamSize | HourlyCost
    | LeadGenHours | FollowUpHours | DataEntryHours
    | SchedulingHours | ReportingHours | EmailHours

  /** `form[key]` */
  function Get(form: FormData, key: Field): real
  {
    match key
    case Industry => form.industry
    case Revenue => form.revenue
    case TeamSize => form.teamSize
    case HourlyCost => form.hourlyCost
    case LeadGenHours => form.leadGenHours
    case FollowUpHours => form.followUpHours
    case DataEntryHours => form.dataEntryHours
    case SchedulingHours => form.schedulingHours
    case ReportingHours => form.reportingHours
    case EmailHours => form.emailHours
  }

  /** `{ ...form, [key]: value }`: the named field takes the new value, every other field keeps its own. */
  function With(form: FormData, key: Field, value: real): (r: FormData)
    ensures Get(r, key) == value
    ensures forall other :: other != key ==> Get(r, other) == Get(form, other)
  {
    match key
    case Industry => form.(industry := value)
    case Revenue => form.(revenue := value)
    case TeamSize => form.(teamSize := value)
    case HourlyCost => form.(hourlyCost := value)
    case LeadGenHours => form.(leadGenHours := value)
    case FollowUpHours => form.(followUpHours := value)
    case DataEntryHours => form.(dataEntryHours := value)
    case SchedulingHours => form.(schedulingHours := value)
    case ReportingHours => form.(reportingHours := value)
    case EmailHours => form.(emailHours := value)
  }

  /** Two forms that agree on every key are the same record. */
  lemma FormExtensionality(a: FormData, b: FormData)
    requires forall key :: Get(a, key) == Get(b, key)
    ensures a == b
  {
    assert Get(a, Industry) == Get(b, Industry);
    assert Get(a, Revenue) == Get(b, Revenue);
    assert Get(a, TeamSize) == Get(b, TeamSize);
    assert Get(a, HourlyCost) == Get(b, HourlyCost);
    assert Get(a, LeadGenHours) == Get(b, LeadGenHours);
    assert Get(a, FollowUpHours) == Get(b, FollowUpHours);
    assert Get(a, DataEntryHours) == Get(b, DataEntryHours);
    assert Get(a, SchedulingHours) == Get(b, SchedulingHours);
    assert Get(a, ReportingHours) == Get(b, ReportingHours);
    assert Get(a, EmailHours) == Get(b, EmailHours);
  }

  /** Writing a field back with the value it already has changes nothing;
      writing a field twice keeps only the second value. */
  lemma WithLaws(form: FormData, key: Field, v: real, w: real)
    ensures With(form, key, Get(form, key)) == form
    ensures With(With(form, key, v), key, w) == With(form, key, w)
  {
    FormExtensionality(With(form, key, Get(form, key)), form);
    FormExtensionality(With(With(form, key, v), key, w), With(form, key, w));
  }

  /** The six task-hour fields, in declaration order. */
  const HOUR_FIELDS: seq<Field> :=
    [LeadGenHours, FollowUpHours, DataEntryHours, SchedulingHours, ReportingHours, EmailHours]

  /** The sum of the six task-hour fields, written out field by field. */
  function WeeklyHours(form: FormData): real
  {
    form.leadGenHours + form.followUpHours + form.dataEntryHours
      + form.schedulingHours + form.reportingHours + form.emailHours
  }

  /** `items.reduce((sum, key) => sum + form[key], 0)` over a list of keys. */
  function SumFields(form: FormData, keys: seq<Field>): real
  {
    if keys == [] then 0.0 else Get(form, keys[0]) + SumFields(form, keys[1..])
  }

  /** Summing the hour fields one by one, as a reduce does, gives the written-out sum. */
  lemma SumOfHourFields(form: FormData)
    ensures SumFields(form, HOUR_FIELDS) == WeeklyHours(form)
  {
    var h := HOUR_FIELDS;
    assert h[6..] == [];
    assert SumFields(form, h[5..]) == form.emailHours;
    assert SumFields(form, h[4..]) == form.reportingHours + SumFields(form, h[5..]);
    assert SumFields(form, h[3..]) == form.schedulingHours + SumFields(form, h[4..]);
    assert SumFields(form, h[2..]) == form.dataEntryHours + SumFields(form, h[3..]);
    assert SumFields(form, h[1..]) == form.followUpHours + SumFields(form, h[2..]);
  }

  /** The percentage returned by the ROI formulas: a rounded number, or
      `Infinity` when the service cost is not positive. */
  datatype Roi = Finite(percent: int) | Infinite

  /** The results record. Fields that the source rounds with Math.round are integers. */
  datatype CalculationResults = CalculationResults(
    totalMonthlyHours: real,
    monthlyWastedCost: real,
    hoursAutomated: int,
    monthlySavings: real,
    productivityGain: int,
    monthlyRevenueBoost: real,
    roi: Roi)
}
