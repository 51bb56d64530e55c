/** The constant-acceleration equations of motion that the kinematic samplers
  * share: velocity and position after a time, velocity after a displacement,
  * the mean-speed displacement, and the inversions of each for time or
  * acceleration. A missing answer (the Python `None`) is `None`. */
module EcuacionesCinematicas {
  import opened Py

  /** The outcome of solving x0 + v0 t + a t^2 / 2 = xf for t: Python's
    * `None`, a single float, or a pair. */
  datatype Roots = NoTime | OneTime(t: real) | TwoTimes(first: real, second: real)

  predicate Returned(r: Roots, t: real)
  {
    (r.OneTime? && r.t == t) || (r.TwoTimes? && (r.first == t || r.second == t))
  }

  /** x0 + v0 t + a t^2 / 2 */
  function PositionAt(x0: real, v0: real, a: real, t: real): real
  {
    x0 + v0 * t + 0.5 * a * t * t
  }

  /** v = v0 + a t */
  function CalcularVelocidadFinalTiempo(v0: real, a: real, t: real): (v: real)
    ensures t != 0.0 ==> (v - v0) / t == a
    ensures t == 0.0 ==> v == v0
  {
    v0 + a * t
  }

  /** x = x0 + v0 t + a t^2 / 2 */
  function CalcularPosicionFinalTiempo(x0: real, v0: real, a: real, t: real): (x: real)
    ensures x == PositionAt(x0, v0, a, t)
    ensures x - x0 == 0.5 * (v0 + CalcularVelocidadFinalTiempo(v0, a, t)) * t
  {
    x0 + v0 * t + 0.5 * a * t * t
  }

  /** |v| from v^2 = v0^2 + 2 a dx: the non-negative root, or `None` when the
    * right side is negative. */
  function CalcularVelocidadFinalDesplazamiento(v0: real, a: real, dx: real, sqrt: real -> real): (r: Option<real>)
    requires IsSqrt(sqrt)
    ensures r.Some? <==> v0 * v0 + 2.0 * a * dx >= 0.0
    ensures r.Some? ==> r.value >= 0.0 && r.value * r.value == v0 * v0 + 2.0 * a * dx
  {
    var disc := v0 * v0 + 2.0 * a * dx;
    if disc < 0.0 then None else Some(sqrt(disc))
  }

  /** dx = (v0 + v) t / 2 */
  function CalcularDesplazamientoVelocidades(v0: real, v: real, t: real): (dx: real)
    ensures v0 + v != 0.0 ==> 2.0 * dx / (v0 + v) == t
    ensures v0 + v == 0.0 || t == 0.0 ==> dx == 0.0
  {
    0.5 * (v0 + v) * t
  }

  /** t = 2 (x - x0) / (v0 + v), `None` when v0 + v is zero. */
  function CalcularTiempoDesplazamientoVelocidades(x0: real, xf: real, v0: real, v: real): (r: Option<real>)
    ensures r.Some? <==> v0 + v != 0.0
    ensures r.Some? ==> 0.5 * (v0 + v) * r.value == xf - x0
  {
    if v0 + v == 0.0 then None else Some(2.0 * (xf - x0) / (v0 + v))
  }

  /** a = (v - v0) / t, `None` when t is zero. */
  function CalcularAceleracionVelocidadesTiempo(v0: real, v: real, t: real): (r: Option<real>)
    ensures r.Some? <==> t != 0.0
    ensures r.Some? ==> v0 + r.value * t == v
  {
    if t == 0.0 then None else Some((v - v0) / t)
  }

  /** a = 2 (x - x0 - v0 t) / t^2, `None` when t is zero. */
  function CalcularAceleracionPosicionVelocidadTiempo(x0: real, xf: real, v0: real, t: real): (r: Option<real>)
    ensures r.Some? <==> t != 0.0
    ensures r.Some? ==> PositionAt(x0, v0, r.value, t) == xf
  {
    if t == 0.0 then None
    else
      AccelerationSolvesPosition(x0, xf, v0, t);
      Some(2.0 * (xf - x0 - v0 * t) / (t * t))
  }

  /** x = x0 + (v^2 - v0^2) / (2 a), `None` when a is zero. */
  function CalcularPosicionFinalVelocidadAceleracion(x0: real, v0: real, v: real, a: real): (r: Option<real>)
    ensures r.Some? <==> a != 0.0
    ensures r.Some? ==> v * v == v0 * v0 + 2.0 * a * (r.value - x0)
  {
    if a == 0.0 then None else Some(x0 + (v * v - v0 * v0) / (2.0 * a))
  }

  /** b^2 - 4 a c of the time equation, with a = acc / 2, b = v0, c = x0 - xf. */
  function Discriminant(x0: real, v0: real, a: real, xf: real): real
  {
    v0 * v0 - 4.0 * (0.5 * a) * (x0 - xf)
  }

  /** The root (-b + sqrt(d)) / 2a of the time equation. */
  function PlusRoot(x0: real, v0: real, a: real, xf: real, sqrt: real -> real): real
    requires a != 0.0
  {
    (-v0 + sqrt(Discriminant(x0, v0, a, xf))) / (2.0 * (0.5 * a))
  }

  /** The root (-b - sqrt(d)) / 2a of the time equation. */
  function MinusRoot(x0: real, v0: real, a: real, xf: real, sqrt: real -> real): real
    requires a != 0.0
  {
    (-v0 - sqrt(Discriminant(x0, v0, a, xf))) / (2.0 * (0.5 * a))
  }

  /** The root -b / 2a of a time equation with zero discriminant. */
  function DoubleRoot(v0: real, a: real): real
    requires a != 0.0
  {
    -v0 / (2.0 * (0.5 * a))
  }

  /** The non-negative of two roots, in the order the solver appends them. */
  function NonNegativeOf(t1: real, t2: real): (r: Roots)
    ensures forall t :: Returned(r, t) <==> (t == t1 || t == t2) && t >= 0.0
  {
    if t1 >= 0.0 && t2 >= 0.0 then TwoTimes(t1, t2)
    else if t1 >= 0.0 then OneTime(t1)
    else if t2 >= 0.0 then OneTime(t2)
    else NoTime
  }

  /** The time solver as the code reads: in the two-distinct-roots branch the
    * second root is computed through `math.cuadratica.sqrt`, an attribute the
    * `math` module does not have, so that branch always raises after the
    * first root is computed. Elsewhere it answers as the corrected solver. */
  function CalcularTiempoPosicionVelocidadAceleracion(x0: real, v0: real, a: real, xf: real, sqrt: real -> real): (r: Result<Roots>)
    requires IsSqrt(sqrt)
    ensures r.Err? <==> a != 0.0 && Discriminant(x0, v0, a, xf) > 0.0
    ensures r.Err? ==> r.error == AttributeError("module 'math' has no attribute 'cuadratica'")
    ensures r.Ok? ==> forall t :: Returned(r.value, t) ==> PositionAt(x0, v0, a, t) == xf
    ensures a == 0.0 && v0 != 0.0 ==> r == Ok(OneTime(-(x0 - xf) / v0))
  {
    if 0.5 * a == 0.0 then
      if v0 == 0.0 then Ok(NoTime)
      else
        LinearRootSolves(x0, v0, a, xf);
        Ok(OneTime(-(x0 - xf) / v0))
    else if Discriminant(x0, v0, a, xf) < 0.0 then Ok(NoTime)
    else if Discriminant(x0, v0, a, xf) == 0.0 then
      DoubleRootSolves(x0, v0, a, xf);
      if DoubleRoot(v0, a) >= 0.0 then Ok(OneTime(DoubleRoot(v0, a))) else Ok(NoTime)
    else
      Err(AttributeError("module 'math' has no attribute 'cuadratica'"))
  }

  lemma LinearRootSolves(x0: real, v0: real, a: real, xf: real)
    requires a == 0.0 && v0 != 0.0
    ensures PositionAt(x0, v0, a, -(x0 - xf) / v0) == xf
  {
    assert v0 * (-(x0 - xf) / v0) == xf - x0;
  }

  /** Both textbook roots solve the time equation. */
  lemma RootsSolve(x0: real, v0: real, a: real, xf: real, sqrt: real -> real)
    requires IsSqrt(sqrt)
    requires a != 0.0 && Discriminant(x0, v0, a, xf) >= 0.0
    ensures PositionAt(x0, v0, a, PlusRoot(x0, v0, a, xf, sqrt)) == xf
    ensures PositionAt(x0, v0, a, MinusRoot(x0, v0, a, xf, sqrt)) == xf
  {
    RootSolves(x0, v0, a, xf, sqrt(Discriminant(x0, v0, a, xf)));
    RootSolves(x0, v0, a, xf, -sqrt(Discriminant(x0, v0, a, xf)));
  }

  /** (-v0 + s) / a solves the time equation whenever s^2 is its discriminant. */
  lemma RootSolves(x0: real, v0: real, a: real, xf: real, s: real)
    requires a != 0.0
    requires s * s == Discriminant(x0, v0, a, xf)
    ensures PositionAt(x0, v0, a, (-v0 + s) / (2.0 * (0.5 * a))) == xf
  {
    assert 2.0 * (0.5 * a) == a;
    assert a * ((-v0 + s) / a) == s - v0;
    calc {
      PositionAt(x0, v0, a, (-v0 + s) / a);
      x0 + v0 * ((-v0 + s) / a) + 0.5 * (a * ((-v0 + s) / a)) * ((-v0 + s) / a);
      x0 + v0 * ((-v0 + s) / a) + 0.5 * (s - v0) * ((-v0 + s) / a);
      x0 + 0.5 * ((s + v0) * (s - v0)) / a;
      { assert (s + v0) * (s - v0) == s * s - v0 * v0; }
      x0 + 0.5 * (s * s - v0 * v0) / a;
      x0 + 0.5 * (-4.0 * (0.5 * a) * (x0 - xf)) / a;
      xf;
    }
  }

  lemma DoubleRootSolves(x0: real, v0: real, a: real, xf: real)
    requires a != 0.0 && Discriminant(x0, v0, a, xf) == 0.0
    ensures PositionAt(x0, v0, a, DoubleRoot(v0, a)) == xf
  {
    RootSolves(x0, v0, a, xf, 0.0);
  }

  /** Every solution of the time equation with a non-zero acceleration is one
    * of the textbook roots; a negative discriminant admits none. */
  lemma OnlyRoots(x0: real, v0: real, a: real, xf: real, s: real, t: real)
    requires a != 0.0
    requires PositionAt(x0, v0, a, t) == xf
    requires 0.0 <= s
    requires Discriminant(x0, v0, a, xf) < 0.0 || s * s == Discriminant(x0, v0, a, xf)
    ensures Discriminant(x0, v0, a, xf) >= 0.0
    ensures t == (-v0 + s) / (2.0 * (0.5 * a)) || t == (-v0 - s) / (2.0 * (0.5 * a))
  {
    assert (a * t + v0) * (a * t + v0) == Discriminant(x0, v0, a, xf) by {
      calc {
        (a * t + v0) * (a * t + v0);
        a * a * t * t + 2.0 * a * v0 * t + v0 * v0;
        2.0 * a * (0.5 * a * t * t + v0 * t) + v0 * v0;
        { assert 0.5 * a * t * t + v0 * t == xf - x0; }
        2.0 * a * (xf - x0) + v0 * v0;
      }
    }
    assert (a * t + v0) * (a * t + v0) >= 0.0 by {
      if a * t + v0 < 0.0 {
        assert (a * t + v0) * (a * t + v0) == (-(a * t + v0)) * (-(a * t + v0));
      }
    }
    assert (a * t + v0 - s) * (a * t + v0 + s) == 0.0;
    ProductZero(a * t + v0 - s, a * t + v0 + s);
    assert 2.0 * (0.5 * a) == a;
  }

  lemma AccelerationSolvesPosition(x0: real, xf: real, v0: real, t: real)
    requires t != 0.0
    ensures PositionAt(x0, v0, 2.0 * (xf - x0 - v0 * t) / (t * t), t) == xf
  {
    assert t * t > 0.0 by { if t > 0.0 {} else {} }
    calc {
      0.5 * (2.0 * (xf - x0 - v0 * t) / (t * t)) * t * t;
      0.5 * (2.0 * (xf - x0 - v0 * t) / (t * t)) * (t * t);
      xf - x0 - v0 * t;
    }
  }

  lemma ProductZero(x: real, y: real)
    requires x * y == 0.0
    ensures x == 0.0 || y == 0.0
  {
  }
}
