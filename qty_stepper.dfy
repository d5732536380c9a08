/** The quantity stepper: clamped decrement and increment, and when each button is disabled. */
module QtyStepper {

  const DefaultMin := 1
  const DefaultMax := 99

  /** `Math.max(min, value - 1)`: one less, but never below `min`. */
  function Dec(value: int, min: int := DefaultMin): (next: int)
    ensures next >= min
    ensures next == value - 1 || next == min
    ensures value - 1 >= min ==> next == value - 1
  {
    if min >= value - 1 then min else value - 1
  }

  /** `Math.min(max, value + 1)`: one more, but never above `max`. */
  function Inc(value: int, max: int := DefaultMax): (next: int)
    ensures next <= max
    ensures next == value + 1 || next == max
    ensures value + 1 <= max ==> next == value + 1
  {
    if max <= value + 1 then max else value + 1
  }

  predicate DisabledDec(value: int, min: int := DefaultMin) {
    value <= min
  }

  predicate DisabledInc(value: int, max: int := DefaultMax) {
    value >= max
  }

  /** A value inside the bounds stays inside them after either step. */
  lemma StepsStayInBounds(value: int, min: int, max: int)
    requires min <= value <= max
    ensures min <= Dec(value, min) <= max
    ensures min <= Inc(value, max) <= max
  {
  }

  /** A button is disabled exactly when its step would not move the value by one. */
  lemma DisabledIffClamped(value: int, min: int, max: int)
    ensures DisabledDec(value, min) <==> Dec(value, min) != value - 1
    ensures DisabledInc(value, max) <==> Inc(value, max) != value + 1
  {
  }
}
