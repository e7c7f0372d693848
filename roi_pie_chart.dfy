/**
 * components/RoiPieChart.tsx: the donut of weekly hours per task, its centre
 * total, the empty-state placeholder and the colour of each slice.
 */
module RoiPieChart {
  import opened Constants

  /** One slice of data: `{ name, value }`. */
  datatype Entry = Entry(name: string, value: real)

  /** The sum of the values, the reference definition. */
  function Sum(data: seq<Entry>): real
  {
    if data == [] then 0.0 else data[0].value + Sum(data[1..])
  }

  /** `reduce((acc, d) => acc + d.value, acc)`: a left fold. */
  function Fold(data: seq<Entry>, acc: real): real
  {
    if data == [] then acc else Fold(data[1..], acc + data[0].value)
  }

  /** The `total` of the chart. */
  function Total(data: seq<Entry>): real
  {
    Fold(data, 0.0)
  }

  /** Folding from the left adds up the same values as the reference sum. */
  lemma {:induction false} FoldIsSum(data: seq<Entry>, acc: real)
    ensures Fold(data, acc) == acc + Sum(data)
    decreases |data|
  {
    if data != [] {
      FoldIsSum(data[1..], acc + data[0].value);
    }
  }

  /** The chart's total is the sum of the data values. */
  lemma TotalIsSum(data: seq<Entry>)
    ensures Total(data) == Sum(data)
  {
    FoldIsSum(data, 0.0);
  }

  /** Sums split over concatenation. */
  lemma {:induction false} SumAppend(a: seq<Entry>, b: seq<Entry>)
    ensures Sum(a + b) == Sum(a) + Sum(b)
    decreases |a|
  {
    if a != [] {
      assert (a + b)[0] == a[0];
      assert (a + b)[1..] == a[1..] + b;
      SumAppend(a[1..], b);
    } else {
      assert a + b == b;
    }
  }

  /** Positive values sum to zero only when there are none. */
  lemma {:induction false} SumOfPositives(data: seq<Entry>)
    requires forall i :: 0 <= i < |data| ==> data[i].value > 0.0
    ensures Sum(data) >= 0.0
    ensures Sum(data) == 0.0 <==> data == []
    decreases |data|
  {
    if data != [] {
      SumOfPositives(data[1..]);
    }
  }

  /** `index % PIE_CHART_COLORS.length`: always a valid index, the identity on the first cycle. */
  function ColorIndex(i: nat): (k: nat)
    ensures k < |PIE_CHART_COLORS|
    ensures i < |PIE_CHART_COLORS| ==> k == i
  {
    i % |PIE_CHART_COLORS|
  }

  /** The fill of slice `i`. */
  function Color(i: nat): string
  {
    PIE_CHART_COLORS[ColorIndex(i)]
  }

  /** Colours repeat every six slices. */
  lemma ColorRepeats(i: nat)
    ensures Color(i) == Color(i + 6)
  {
    assert (i + 6) % 6 == i % 6;
  }

  /** Within any six consecutive slices no colour is used twice. */
  lemma ColorsDistinctWithinCycle(i: nat, j: nat)
    requires i < j < i + 6
    ensures Color(i) != Color(j)
  {
    PieColorsDistinct();
    var q, r, d := i / 6, i % 6, j - i;
    assert j == 6 * q + (r + d);
    if r + d < 6 {
      assert j % 6 == r + d;
    } else {
      assert j == 6 * (q + 1) + (r + d - 6);
      assert j % 6 == r + d - 6;
    }
  }

  /** A `<Cell>` of the pie. */
  datatype Cell = Cell(name: string, value: real, fill: string)

  /** What the chart renders: the placeholder text, or the slices and the centre label. */
  datatype Chart = Placeholder | Donut(cells: seq<Cell>, centre: real)

  /** The component: the placeholder when the total is zero; otherwise one cell per
      entry with the cycling colour, and the total in the centre. */
  function Render(data: seq<Entry>): (c: Chart)
    ensures c.Placeholder? <==> Sum(data) == 0.0
    ensures c.Donut? ==> c.centre == Sum(data) && |c.cells| == |data|
    ensures c.Donut? ==> forall i :: 0 <= i < |data| ==>
      c.cells[i].name == data[i].name && c.cells[i].value == data[i].value && c.cells[i].fill == Color(i)
  {
    TotalIsSum(data);
    var total := Total(data);
    if total == 0.0 then Placeholder
    else Donut(seq(|data|, i requires 0 <= i < |data| => Cell(data[i].name, data[i].value, Color(i))), total)
  }

  /** For slices that all have a positive value, the placeholder shows exactly when there are none. */
  lemma PlaceholderIffNoSlices(data: seq<Entry>)
    requires forall i :: 0 <= i < |data| ==> data[i].value > 0.0
    ensures Render(data).Placeholder? <==> data == []
  {
    SumOfPositives(data);
  }
}
