/** The cubic-Bezier emulator of CSS3 transition timing functions: a curve
    through (0,0), (p1,p2), (p3,p4), (1,1), written in polynomial form, and
    the bounded Newton iteration that finds the curve parameter whose x
    coordinate equals a given elapsed-time fraction. */
module Bezier {
  import opened JsNumbers

  /** The coefficients c, b, a of the polynomial t*(c + t*(b + t*a)). */
  datatype Poly = Poly(c: real, b: real, a: real) {
    function At(t: real): real {
      t * (c + t * (b + t * a))
    }

    function DerivativeAt(t: real): real {
      c + t * (2.0 * b + 3.0 * a * t)
    }
  }

  /** The polynomial coefficients of one coordinate of a curve whose inner
      control points have that coordinate equal to q1 and q2. */
  function Coefficients(q1: real, q2: real): (r: Poly)
    ensures r.c + r.b + r.a == 1.0
    ensures r.c == 3.0 * q1 && r.b + 2.0 * r.c == 3.0 * q2
  {
    var c := 3.0 * q1;
    var b := 3.0 * (q2 - q1) - c;
    Poly(c, b, 1.0 - c - b)
  }

  /** The reference definition: one coordinate of a cubic Bezier curve with
      end points 0 and 1 and inner control points q1, q2, in Bernstein form. */
  function Bernstein(q1: real, q2: real, t: real): real {
    3.0 * (1.0 - t) * (1.0 - t) * t * q1 + 3.0 * (1.0 - t) * t * t * q2 + t * t * t
  }

  /** The curve `bezier(p1, p2, p3, p4)` builds. */
  datatype Curve = Curve(p1: real, p2: real, p3: real, p4: real) {
    function XPoly(): Poly { Coefficients(p1, p3) }
    function YPoly(): Poly { Coefficients(p2, p4) }

    /** `bezier_x`: the x coordinate at parameter t. */
    function X(t: real): (r: real)
      ensures r == Bernstein(p1, p3, t)
    {
      PolyIsBernstein(p1, p3, t);
      XPoly().At(t)
    }

    /** `bezier_y`: the y coordinate at parameter t. */
    function Y(t: real): (r: real)
      ensures r == Bernstein(p2, p4, t)
    {
      PolyIsBernstein(p2, p4, t);
      YPoly().At(t)
    }

    /** `bezier_x_der`: the slope of x at parameter t. */
    function XDer(t: real): (r: real)
      ensures r == BernsteinSlope(p1, p3, t)
    {
      XPoly().DerivativeAt(t)
    }
  }

  /** The reference derivative of `Bernstein(q1, q2, t)` with respect to t:
      three times the Bernstein form of the control polygon's differences. */
  function BernsteinSlope(q1: real, q2: real, t: real): real {
    3.0 * (1.0 - t) * (1.0 - t) * q1 + 6.0 * (1.0 - t) * t * (q2 - q1) + 3.0 * t * t * (1.0 - q2)
  }

  /** The polynomial form of a coordinate is the Bernstein form of the same
      control points, at every parameter value. */
  lemma PolyIsBernstein(q1: real, q2: real, t: real)
    ensures Coefficients(q1, q2).At(t) == Bernstein(q1, q2, t)
  {
  }

  /** The curve starts at (0,0) and ends at (1,1) whatever its control points. */
  lemma CurveEndpoints(k: Curve)
    ensures k.X(0.0) == 0.0 && k.Y(0.0) == 0.0
    ensures k.X(1.0) == 1.0 && k.Y(1.0) == 1.0
  {
    assert k.X(0.0) == Bernstein(k.p1, k.p3, 0.0);
    assert k.X(1.0) == Bernstein(k.p1, k.p3, 1.0);
  }

  /** `bezier_x_der` is the derivative of `bezier_x`: the exact Taylor
      expansion of the cubic around t has it as its linear coefficient. */
  lemma DerivativeIsLinearTerm(p: Poly, t: real, h: real)
    ensures p.At(t + h)
         == p.At(t) + h * p.DerivativeAt(t) + h * h * (p.b + 3.0 * p.a * t) + h * h * h * p.a
  {
  }

  /** The slope of x at both ends: 3*p1 at the start and 3*(1 - p3) at the end. */
  lemma EndSlopes(k: Curve)
    ensures k.XDer(0.0) == 3.0 * k.p1
    ensures k.XDer(1.0) == 3.0 * (1.0 - k.p3)
  {
  }

  /** The tolerance below which `find_x_for` stops iterating. */
  const Tolerance: real := 0.001
  /** The most Newton steps `find_x_for` takes. */
  const MaxSteps: nat := 5

  /** Outcome of `find_x_for`: the parameter found and the steps taken. */
  datatype Search = Search(x: Num, steps: nat)

  /** The specification of `find_x_for`, one Newton step per call starting
      at step `i`. A step with zero derivative divides by zero and the
      candidate becomes non-finite, after which no early exit can happen. */
  function Newton(k: Curve, t: real, x: Num, i: nat): (r: Search)
    requires i <= MaxSteps
    ensures i <= r.steps <= MaxSteps
    ensures r.steps < MaxSteps ==> r.x.Fin? && Close(k, t, r.x.value)
    ensures x.NonFinite? ==> r == Search(NonFinite, MaxSteps)
    ensures x.Fin? && i < MaxSteps && Close(k, t, x.value) ==> r == Search(x, i)
    decreases MaxSteps - i
  {
    if i == MaxSteps then Search(x, i)
    else match x
      case NonFinite => Newton(k, t, NonFinite, i + 1)
      case Fin(u) =>
        if Close(k, t, u) then Search(x, i)
        else Newton(k, t, NewtonStep(k, t, u), i + 1)
  }

  /** `find_x_for`'s exit test: x(u) is within the tolerance of t. */
  predicate Close(k: Curve, t: real, u: real) {
    Abs(k.X(u) - t) < Tolerance
  }

  /** One Newton step for x(u) = t; dividing by a zero derivative gives a
      non-finite number. */
  function NewtonStep(k: Curve, t: real, u: real): Num {
    var d := k.XDer(u);
    if d == 0.0 then NonFinite else Fin(u - (k.X(u) - t) / d)
  }

  /** `find_x_for(t)`: Newton's method on x(u) = t starting from u = t,
      at most five steps, stopping once within the tolerance. */
  method FindXFor(k: Curve, t: real) returns (x: Num, steps: nat)
    ensures Search(x, steps) == Newton(k, t, Fin(t), 0)
  {
    x, steps := Fin(t), 0;
    while steps < MaxSteps
      invariant steps <= MaxSteps
      invariant Newton(k, t, x, steps) == Newton(k, t, Fin(t), 0)
    {
      if x.Fin? {
        if Close(k, t, x.value) {
          break;
        }
        x := NewtonStep(k, t, x.value);
      }
      // A NaN stays NaN and is never within the tolerance.
      steps := steps + 1;
    }
  }

  /** The timing function `bezier` returns: progress `bezier_y` at the
      parameter `find_x_for` finds for the elapsed-time fraction `t`. */
  function Ease(k: Curve, t: real): (r: Num)
    ensures Close(k, t, t) ==> r == Fin(k.Y(t))
    ensures r.NonFinite? ==> Newton(k, t, Fin(t), 0).steps == MaxSteps
  {
    match Newton(k, t, Fin(t), 0).x
    case Fin(u) => Fin(k.Y(u))
    case NonFinite => NonFinite
  }

  method Evaluate(k: Curve, t: real) returns (y: Num)
    ensures y == Ease(k, t)
  {
    var x, _ := FindXFor(k, t);
    y := if x.Fin? then Fin(k.Y(x.value)) else NonFinite;
  }

  /** Every curve maps elapsed fraction 0 to progress 0 and 1 to 1 exactly:
      the iteration exits before its first step at both ends. */
  lemma EaseEndpoints(k: Curve)
    ensures Ease(k, 0.0) == Fin(0.0) && Newton(k, 0.0, Fin(0.0), 0).steps == 0
    ensures Ease(k, 1.0) == Fin(1.0) && Newton(k, 1.0, Fin(1.0), 0).steps == 0
  {
    CurveEndpoints(k);
  }

  /** The curve with control points on the diagonal, (1/3,1/3) and (2/3,2/3):
      x(u) = y(u) = u, the linear timing function. */
  const LinearCurve: Curve := Curve(1.0 / 3.0, 1.0 / 3.0, 2.0 / 3.0, 2.0 / 3.0)

  /** On the linear curve the timing function is the identity: x(u) = u, so
      the search stops at once on u and the progress is y(u) = u. */
  lemma LinearCurveIsIdentity(u: real)
    ensures LinearCurve.X(u) == u && LinearCurve.Y(u) == u
    ensures Ease(LinearCurve, u) == Fin(u)
  {
    assert LinearCurve.XPoly() == Poly(1.0, 0.0, 0.0);
    assert LinearCurve.YPoly() == Poly(1.0, 0.0, 0.0);
  }
}
