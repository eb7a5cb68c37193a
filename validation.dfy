/**
 * The input checks of the workout form. Field values arrive already coerced to
 * JavaScript numbers (`+input.value`), so each one is a finite real or one of
 * the three non-finite numbers.
 */
module Validation {

  datatype Number = Finite(value: real) | NaN | PosInfinity | NegInfinity

  /** `inp > 0` on a JavaScript number: false for NaN and -Infinity, true for +Infinity. */
  predicate GreaterThanZero(x: Number) {
    match x
    case Finite(v) => v > 0.0
    case PosInfinity => true
    case NaN => false
    case NegInfinity => false
  }

  /** `validInputs(...inputs)`: `inputs.every(inp => Number.isFinite(inp))`. */
  function ValidInputs(inputs: seq<Number>): (r: bool)
    ensures r <==> forall i :: 0 <= i < |inputs| ==> inputs[i].Finite?
  {
    inputs == [] || (inputs[0].Finite? && ValidInputs(inputs[1..]))
  }

  /** `allPositive(...inputs)`: `inputs.every(inp => inp > 0)`. */
  function AllPositive(inputs: seq<Number>): (r: bool)
    ensures r <==> forall i :: 0 <= i < |inputs| ==> GreaterThanZero(inputs[i])
  {
    inputs == [] || (GreaterThanZero(inputs[0]) && AllPositive(inputs[1..]))
  }

  /** The running branch accepts the form exactly when the three fields are finite and positive. */
  function RunningInputsOk(distance: Number, duration: Number, cadence: Number): (ok: bool)
    ensures ok <==> distance.Finite? && duration.Finite? && cadence.Finite?
                    && distance.value > 0.0 && duration.value > 0.0 && cadence.value > 0.0
  {
    assert [distance, duration, cadence][1] == duration && [distance, duration, cadence][2] == cadence;
    ValidInputs([distance, duration, cadence]) && AllPositive([distance, duration, cadence])
  }

  /**
   * The cycling branch checks all three fields for finiteness but only distance
   * and duration for positivity.
   */
  function CyclingInputsOk(distance: Number, duration: Number, elevation: Number): (ok: bool)
    ensures ok <==> distance.Finite? && duration.Finite? && elevation.Finite?
                    && distance.value > 0.0 && duration.value > 0.0
  {
    assert [distance, duration, elevation][1] == duration && [distance, duration, elevation][2] == elevation;
    assert [distance, duration][1] == duration;
    ValidInputs([distance, duration, elevation]) && AllPositive([distance, duration])
  }

  /** The sign of the elevation never decides a cycling submission (an empty field reads as 0). */
  lemma CyclingElevationSignUnchecked(distance: Number, duration: Number, elevation: real)
    ensures CyclingInputsOk(distance, duration, Finite(elevation))
         == CyclingInputsOk(distance, duration, Finite(0.0))
  {
  }

  /** Zero, negative and NaN distances are refused; a tiny positive one is accepted. */
  lemma DistanceBoundary()
    ensures !RunningInputsOk(Finite(0.0), Finite(30.0), Finite(180.0))
    ensures !RunningInputsOk(Finite(-1.0), Finite(30.0), Finite(180.0))
    ensures !RunningInputsOk(NaN, Finite(30.0), Finite(180.0))
    ensures RunningInputsOk(Finite(0.001), Finite(30.0), Finite(180.0))
    ensures !CyclingInputsOk(Finite(0.0), Finite(60.0), Finite(150.0))
    ensures CyclingInputsOk(Finite(0.001), Finite(60.0), Finite(-150.0))
  {
  }
}
