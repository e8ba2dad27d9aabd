/** The range slider (src/components/ui/RangeSlider/RangeSlider.jsx): the
    progress fraction it paints and the value its keyboard handler reports. */
module RangeSlider {
  import opened Common

  function Max(a: real, b: real): real { if a >= b then a else b }
  function Min(a: real, b: real): real { if a <= b then a else b }

  /** `Math.max(0, Math.min(1, (value - min) / (max - min)))`.  With
      `max == min` the division gives ±Infinity, clamped to 1 or 0, or NaN
      when `value == min` too; NaN passes through both clamps and is None. */
  function Progress(value: real, min: real, max: real): (p: Option<real>)
    ensures p.None? <==> max == min && value == min
    ensures p.Some? ==> 0.0 <= p.value <= 1.0
    ensures max > min && min <= value <= max ==> p == Some((value - min) / (max - min))
    ensures max > min && value <= min ==> p == Some(0.0)
    ensures max > min && value >= max ==> p == Some(1.0)
  {
    if max == min then
      if value == min then None
      else if value > min then Some(1.0)
      else Some(0.0)
    else
      var q := (value - min) / (max - min);
      FractionBounds(value - min, max - min);
      Some(Max(0.0, Min(1.0, q)))
  }

  /** Where `a / b` lies against 0 and 1, for a positive `b`. */
  lemma FractionBounds(a: real, b: real)
    requires b != 0.0
    ensures b > 0.0 && a <= 0.0 ==> a / b <= 0.0
    ensures b > 0.0 && 0.0 <= a <= b ==> 0.0 <= a / b <= 1.0
    ensures b > 0.0 && a >= b ==> a / b >= 1.0
  {
    var q := a / b;
    assert q * b == a;
    if b < 0.0 {
    } else if q < 0.0 {
      assert q * b < 0.0;
    } else if q > 1.0 {
      assert q * b > b;
    }
  }

  /** `step || 1`: a zero step counts as one. */
  function EffectiveStep(step: real): (s: real)
    ensures step != 0.0 ==> s == step
    ensures step == 0.0 ==> s == 1.0
    ensures s != 0.0
  {
    if step == 0.0 then 1.0 else step
  }

  /** The value `handleKeyDown` passes to `onChange`, or None when it passes
      nothing (no handler, or a key other than the six it handles). */
  function KeyDown(hasOnChange: bool, key: string, value: real, min: real, max: real, step: real): (r: Option<real>)
    ensures !hasOnChange ==> r.None?
    ensures r.Some? <==> hasOnChange && key in {"ArrowLeft", "ArrowDown", "ArrowRight", "ArrowUp", "Home", "End"}
    ensures r.Some? && key in {"ArrowLeft", "ArrowDown"} ==>
      r.value == (if value - EffectiveStep(step) >= min then value - EffectiveStep(step) else min)
    ensures r.Some? && key in {"ArrowRight", "ArrowUp"} ==>
      r.value == (if value + EffectiveStep(step) <= max then value + EffectiveStep(step) else max)
    ensures r.Some? && key == "Home" ==> r.value == min
    ensures r.Some? && key == "End" ==> r.value == max
  {
    if !hasOnChange then None
    else
      var s := EffectiveStep(step);
      if key == "ArrowLeft" || key == "ArrowDown" then Some(Max(min, value - s))
      else if key == "ArrowRight" || key == "ArrowUp" then Some(Min(max, value + s))
      else if key == "Home" then Some(min)
      else if key == "End" then Some(max)
      else None
  }

  /** With a non-negative step, a value inside [min, max] stays inside it
      whichever key is pressed. */
  lemma KeyDownStaysInRange(key: string, value: real, min: real, max: real, step: real)
    requires min <= value <= max && step >= 0.0
    ensures KeyDown(true, key, value, min, max, step).Some? ==>
      min <= KeyDown(true, key, value, min, max, step).value <= max
  {
  }

  /** One step down undoes one step up wherever the step up was not cut off
      at the maximum, and the other way round. */
  lemma ArrowKeysAreInverse(value: real, min: real, max: real, step: real)
    requires min <= value <= max && step > 0.0
    ensures value + step <= max ==>
      KeyDown(true, "ArrowLeft", KeyDown(true, "ArrowRight", value, min, max, step).value, min, max, step) == Some(value)
    ensures value - step >= min ==>
      KeyDown(true, "ArrowUp", KeyDown(true, "ArrowDown", value, min, max, step).value, min, max, step) == Some(value)
  {
  }

  /** Home paints an empty track and End a full one. */
  lemma HomeAndEndProgress(value: real, min: real, max: real, step: real)
    requires min < max
    ensures Progress(KeyDown(true, "Home", value, min, max, step).value, min, max) == Some(0.0)
    ensures Progress(KeyDown(true, "End", value, min, max, step).value, min, max) == Some(1.0)
  {
  }
}
