// sim/MovementFunctions.kt: the easing curves a MOVE can name. Doubles are
// reals; `pow(3)` is an explicit cube and `Math.clamp` an explicit clamp.

module MovementFunctions {
  import opened Common

  const INSTANT_FUNCTION: string := "INSTANT"
  const LINEAR_FUNCTION: string := "LINEAR"
  const EASE_IN_FUNCTION: string := "EASE_IN"
  const EASE_OUT_FUNCTION: string := "EASE_OUT"
  const EASE_IN_OUT_FUNCTION: string := "EASE_IN_OUT"

  /** The five names applyFunction knows. */
  predicate IsKnownFunction(name: string)
  {
    name == INSTANT_FUNCTION || name == LINEAR_FUNCTION || name == EASE_IN_FUNCTION
    || name == EASE_OUT_FUNCTION || name == EASE_IN_OUT_FUNCTION
  }

  /** The three cubic easings. */
  predicate IsCubic(name: string)
  {
    name == EASE_IN_FUNCTION || name == EASE_OUT_FUNCTION || name == EASE_IN_OUT_FUNCTION
  }

  function Clamp(v: real, lo: real, hi: real): (r: real)
    requires lo <= hi
    ensures lo <= r <= hi
    ensures lo <= v <= hi ==> r == v
  {
    if v < lo then lo else if v > hi then hi else v
  }

  function Cube(v: real): real { v * v * v }

  function EaseInCubic(v: real): real { Clamp(Cube(v), 0.0, 1.0) }

  function EaseOutCubic(v: real): real { Clamp(1.0 - Cube(1.0 - v), 0.0, 1.0) }

  function EaseInOutCubic(v: real): real
  {
    if v < 0.5 then Clamp(4.0 * Cube(v), 0.0, 1.0)
    else Clamp(1.0 - Cube(-2.0 * v + 2.0) / 2.0, 0.0, 1.0)
  }

  /** applyFunction: the eased progress for `value`, or the "Unknown function"
      exception. INSTANT ignores its input, LINEAR is the unclamped identity,
      and the cubic easings always land in [0, 1]. */
  function ApplyFunction(name: string, value: real): (r: Result<real>)
    ensures r.Err? <==> !IsKnownFunction(name)
    ensures name == INSTANT_FUNCTION ==> r == Ok(1.0)
    ensures name == LINEAR_FUNCTION ==> r == Ok(value)
    ensures IsCubic(name) ==> 0.0 <= r.value <= 1.0
  {
    if name == INSTANT_FUNCTION then Ok(1.0)
    else if name == LINEAR_FUNCTION then Ok(value)
    else if name == EASE_IN_FUNCTION then Ok(EaseInCubic(value))
    else if name == EASE_OUT_FUNCTION then Ok(EaseOutCubic(value))
    else if name == EASE_IN_OUT_FUNCTION then Ok(EaseInOutCubic(value))
    else Err(Runtime("Unknown function: " + name))
  }

  /** Every curve except INSTANT starts at 0 and ends at 1. */
  lemma EasingEndpoints(name: string)
    requires IsKnownFunction(name) && name != INSTANT_FUNCTION
    ensures ApplyFunction(name, 0.0) == Ok(0.0)
    ensures ApplyFunction(name, 1.0) == Ok(1.0)
  {
    assert Cube(0.0) == 0.0 && Cube(1.0) == 1.0;
    assert Cube(2.0) == 8.0;
  }

  /** The two halves of EASE_IN_OUT meet at 0.5 with the value 0.5. */
  lemma EaseInOutHalves()
    ensures Clamp(4.0 * Cube(0.5), 0.0, 1.0) == 0.5
    ensures Clamp(1.0 - Cube(-2.0 * 0.5 + 2.0) / 2.0, 0.0, 1.0) == 0.5
    ensures ApplyFunction(EASE_IN_OUT_FUNCTION, 0.5) == Ok(0.5)
  {
    assert Cube(0.5) == 0.125;
    assert Cube(1.0) == 1.0;
  }

  lemma CubeMonotone(v: real, w: real)
    requires v <= w
    ensures Cube(v) <= Cube(w)
  {
    var d := w - v;
    assert Cube(w) - Cube(v) == d * (w * w + w * v + v * v);
    assert w * w + w * v + v * v == (w + v / 2.0) * (w + v / 2.0) + 3.0 * v * v / 4.0;
    assert (w + v / 2.0) * (w + v / 2.0) >= 0.0;
    assert 0.0 <= d * (w * w + w * v + v * v);
  }

  lemma ClampMonotone(v: real, w: real, lo: real, hi: real)
    requires lo <= hi && v <= w
    ensures Clamp(v, lo, hi) <= Clamp(w, lo, hi)
  {
  }

  /** Every named curve is non-decreasing: a later moment never eases to an
      earlier point. */
  lemma {:induction false} EasingMonotone(name: string, v: real, w: real)
    requires IsKnownFunction(name) && v <= w
    ensures ApplyFunction(name, v).value <= ApplyFunction(name, w).value
  {
    if name == EASE_IN_FUNCTION {
      CubeMonotone(v, w);
    } else if name == EASE_OUT_FUNCTION {
      CubeMonotone(1.0 - w, 1.0 - v);
      ClampMonotone(1.0 - Cube(1.0 - v), 1.0 - Cube(1.0 - w), 0.0, 1.0);
    } else if name == EASE_IN_OUT_FUNCTION {
      if w < 0.5 {
        CubeMonotone(v, w);
        ClampMonotone(4.0 * Cube(v), 4.0 * Cube(w), 0.0, 1.0);
      } else if v >= 0.5 {
        CubeMonotone(-2.0 * w + 2.0, -2.0 * v + 2.0);
        ClampMonotone(1.0 - Cube(-2.0 * v + 2.0) / 2.0, 1.0 - Cube(-2.0 * w + 2.0) / 2.0, 0.0, 1.0);
      } else {
        CubeMonotone(v, 0.5);
        CubeMonotone(-2.0 * w + 2.0, 1.0);
        assert Cube(0.5) == 0.125 && Cube(1.0) == 1.0;
        assert EaseInOutCubic(v) <= 0.5;
        assert EaseInOutCubic(w) >= 0.5;
      }
    }
  }
}
