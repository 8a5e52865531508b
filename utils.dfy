/** The clamp helper shared by the position estimate. */
module Utils {
  import opened Types

  function Abs(x: real): real { if x < 0.0 then -x else x }

  /** Clamps `value` into `[min, max]`; the source asserts `min <= max` first. */
  function InBounds(value: real, min: real, max: real): (r: Result<real>)
    ensures r.Err? <==> min > max
    ensures r.Err? ==> r.error == MinAboveMax
    ensures r.Ok? ==> min <= r.value <= max
    ensures r.Ok? && min <= value <= max ==> r.value == value
    ensures r.Ok? && value < min ==> r.value == min
    ensures r.Ok? && value > max ==> r.value == max
  {
    if min > max then Err(MinAboveMax)
    else if value < min then Ok(min)
    else if value > max then Ok(max)
    else Ok(value)
  }

  /** The clamp is the point of `[min, max]` nearest to `value`. */
  lemma InBoundsIsNearest(value: real, min: real, max: real, y: real)
    requires min <= max && min <= y <= max
    ensures Abs(InBounds(value, min, max).value - value) <= Abs(y - value)
  {
  }

  /** Clamping an already clamped value changes nothing. */
  lemma InBoundsIdempotent(value: real, min: real, max: real)
    requires min <= max
    ensures InBounds(InBounds(value, min, max).value, min, max) == InBounds(value, min, max)
  {
  }

  /** Clamping preserves the order of its inputs. */
  lemma InBoundsMonotone(v1: real, v2: real, min: real, max: real)
    requires min <= max && v1 <= v2
    ensures InBounds(v1, min, max).value <= InBounds(v2, min, max).value
  {
  }
}
