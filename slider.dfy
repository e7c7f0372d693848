/**
 * The range input of components/ui/Slider.tsx, which components/Slider.tsx
 * repeats expression for expression: the filled share of the track and the
 * defaults of the optional props.
 */
module Slider {
  import opened Wrappers

  /** The filled share of the track, in percent; a degenerate range is never filled. */
  function Percentage(value: real, min: real, max: real): real
  {
    if max > min then ((value - min) / (max - min)) * 100.0 else 0.0
  }

  /** A range that is empty or reversed shows an empty track, whatever the value. */
  lemma PercentageOfDegenerateRange(value: real, min: real, max: real)
    requires max <= min
    ensures Percentage(value, min, max) == 0.0
  {
  }

  /** On a proper range the percentage is the value's position scaled to 0..100:
      mapping it back onto the range gives the value again. */
  lemma PercentagePosition(value: real, min: real, max: real)
    requires max > min
    ensures min + Percentage(value, min, max) / 100.0 * (max - min) == value
  {
    var p := Percentage(value, min, max);
    assert p / 100.0 == (value - min) / (max - min);
    assert (value - min) / (max - min) * (max - min) == value - min;
  }

  /** The two ends of the range give an empty and a full track. */
  lemma PercentageEndpoints(min: real, max: real)
    requires max > min
    ensures Percentage(min, min, max) == 0.0
    ensures Percentage(max, min, max) == 100.0
  {
    assert (max - min) / (max - min) == 1.0;
  }

  /** A value inside the range fills between 0% and 100% of the track. */
  lemma PercentageBounds(value: real, min: real, max: real)
    requires min <= value <= max
    ensures 0.0 <= Percentage(value, min, max) <= 100.0
  {
    if max > min {
      var f := (value - min) / (max - min);
      assert f * (max - min) == value - min;
      assert 0.0 <= f <= 1.0;
    }
  }

  /** Moving the thumb right never empties the track. */
  lemma PercentageMonotone(v: real, w: real, min: real, max: real)
    requires v <= w
    ensures Percentage(v, min, max) <= Percentage(w, min, max)
  {
    if max > min {
      var d := max - min;
      var fv, fw := (v - min) / d, (w - min) / d;
      assert fv * d == v - min && fw * d == w - min;
      assert (fw - fv) * d == w - v;
      if fw < fv {
        assert (fw - fv) * d < 0.0;
      }
    }
  }

  /** The optional props, with what the caller passed (None when omitted). */
  datatype SliderProps = SliderProps(value: real, min: real, max: real, step: Option<real>, unit: Option<string>)

  /** The props after destructuring with defaults. */
  datatype SliderSettings = SliderSettings(value: real, min: real, max: real, step: real, unit: string)

  /** `step = 1, unit = ''`: a default fills an omitted prop only. */
  function Settings(props: SliderProps): (s: SliderSettings)
    ensures s.value == props.value && s.min == props.min && s.max == props.max
    ensures s.step == (if props.step.Some? then props.step.value else 1.0)
    ensures s.unit == (if props.unit.Some? then props.unit.value else "")
  {
    SliderSettings(
      props.value, props.min, props.max,
      match props.step case Some(x) => x case None => 1.0,
      match props.unit case Some(u) => u case None => "")
  }

  /** The sliders of the task step pass neither step nor unit: they move in whole
      hours and show a bare number. */
  lemma DefaultsWhenOmitted(value: real, min: real, max: real)
    ensures Settings(SliderProps(value, min, max, None, None)) == SliderSettings(value, min, max, 1.0, "")
  {
  }
}
