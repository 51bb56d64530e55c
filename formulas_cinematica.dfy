/** The kinematics formula library: free fall, the corrected time solver,
  * simple harmonic and uniform circular motion, pointwise uniform and
  * uniformly accelerated motion, the pendulum period and the projectile
  * formulas. The sine and cosine of a launch angle are inputs. */
module FormulasCinematica {
  import opened Py
  import opened EcuacionesCinematicas

  // ---------------------------------------------------------------- free fall

  /** The time to fall from rest through h: sqrt(2h/g). */
  function CalcularTiempoCaidaLibre(h: real, sqrt: real -> real): (r: Result<real>)
    requires IsSqrt(sqrt)
    ensures r.Err? <==> h < 0.0
    ensures r.Err? ==> r.error == ValueError("La altura inicial no puede ser negativa.")
    ensures r.Ok? ==> r.value >= 0.0 && 0.5 * GRAVEDAD * r.value * r.value == h
  {
    if h < 0.0 then Err(ValueError("La altura inicial no puede ser negativa."))
    else if h == 0.0 then Ok(0.0)
    else
      FallTimeSquared(h, sqrt);
      Ok(sqrt(2.0 * h / GRAVEDAD))
  }

  lemma FallTimeSquared(h: real, sqrt: real -> real)
    requires IsSqrt(sqrt)
    requires h >= 0.0
    ensures 0.5 * GRAVEDAD * sqrt(2.0 * h / GRAVEDAD) * sqrt(2.0 * h / GRAVEDAD) == h
  {
    assert sqrt(2.0 * h / GRAVEDAD) * sqrt(2.0 * h / GRAVEDAD) == 2.0 * h / GRAVEDAD;
  }

  /** The speed on reaching the ground after falling from rest through h. */
  function CalcularVelocidadFinalCaidaLibre(h: real, sqrt: real -> real): (r: Result<real>)
    requires IsSqrt(sqrt)
    ensures r.Err? <==> h < 0.0
    ensures r.Err? ==> r.error == ValueError("La altura inicial no puede ser negativa.")
    ensures r.Ok? ==> r.value >= 0.0 && r.value * r.value == 2.0 * GRAVEDAD * h
  {
    if h < 0.0 then Err(ValueError("La altura inicial no puede ser negativa."))
    else Ok(sqrt(2.0 * GRAVEDAD * h))
  }

  /** The impact speed is g times the fall time. */
  lemma FallSpeedIsGravityTimesFallTime(h: real, sqrt: real -> real)
    requires IsSqrt(sqrt)
    requires h >= 0.0
    ensures CalcularVelocidadFinalCaidaLibre(h, sqrt).value
         == GRAVEDAD * CalcularTiempoCaidaLibre(h, sqrt).value
  {
    var t := CalcularTiempoCaidaLibre(h, sqrt).value;
    var v := CalcularVelocidadFinalCaidaLibre(h, sqrt).value;
    assert (GRAVEDAD * t) * (GRAVEDAD * t) == 2.0 * GRAVEDAD * h by {
      calc {
        (GRAVEDAD * t) * (GRAVEDAD * t);
        2.0 * GRAVEDAD * (0.5 * GRAVEDAD * t * t);
        2.0 * GRAVEDAD * h;
      }
    }
    SquareRootUnique(v, GRAVEDAD * t);
  }

  /** The height after t seconds of fall from h0, floored at the ground. */
  function CalcularAlturaCaidaLibre(t: real, h0: real): (r: Result<real>)
    ensures r.Err? <==> t < 0.0 || h0 < 0.0
    ensures t < 0.0 ==> r == Err(ValueError("El tiempo no puede ser negativo."))
    ensures t >= 0.0 && h0 < 0.0 ==> r == Err(ValueError("La altura inicial no puede ser negativa."))
    ensures r.Ok? ==> 0.0 <= r.value <= h0
    ensures r.Ok? ==> (r.value == 0.0 <==> 0.5 * GRAVEDAD * t * t >= h0)
    ensures r.Ok? && r.value > 0.0 ==> h0 - r.value == 0.5 * GRAVEDAD * t * t
  {
    if t < 0.0 then Err(ValueError("El tiempo no puede ser negativo."))
    else if h0 < 0.0 then Err(ValueError("La altura inicial no puede ser negativa."))
    else
      assert t * t >= 0.0;
      Ok(Max(0.0, h0 - 0.5 * GRAVEDAD * t * t))
  }

  /** At the fall time the floored height is exactly the ground. */
  lemma HeightAtFallTimeIsGround(h: real, sqrt: real -> real)
    requires IsSqrt(sqrt)
    requires h >= 0.0
    ensures CalcularAlturaCaidaLibre(CalcularTiempoCaidaLibre(h, sqrt).value, h) == Ok(0.0)
  {
  }

  // ------------------------------------------------------- the time solver

  /** Solves x0 + v0 t + a t^2 / 2 = xf for t, keeping the non-negative roots
    * of a true quadratic (a pair in the order (-b + sqrt d) / 2a,
    * (-b - sqrt d) / 2a) and the single root of a linear one, whatever its
    * sign. */
  function CalcularTiempoPosicionVelocidadAceleracion(x0: real, v0: real, a: real, xf: real, sqrt: real -> real): (r: Roots)
    requires IsSqrt(sqrt)
    ensures forall t :: Returned(r, t) ==> PositionAt(x0, v0, a, t) == xf
    ensures a != 0.0 ==> forall t :: Returned(r, t) ==> t >= 0.0
    ensures a == 0.0 && v0 == 0.0 ==> r == NoTime
    ensures a == 0.0 && v0 != 0.0 ==> r == OneTime(-(x0 - xf) / v0)
    ensures a != 0.0 && Discriminant(x0, v0, a, xf) < 0.0 ==> r == NoTime
  {
    if 0.5 * a == 0.0 then
      if v0 == 0.0 then NoTime
      else
        LinearRootSolves(x0, v0, a, xf);
        OneTime(-(x0 - xf) / v0)
    else if Discriminant(x0, v0, a, xf) < 0.0 then NoTime
    else if Discriminant(x0, v0, a, xf) == 0.0 then
      DoubleRootSolves(x0, v0, a, xf);
      if DoubleRoot(v0, a) >= 0.0 then OneTime(DoubleRoot(v0, a)) else NoTime
    else
      RootsSolve(x0, v0, a, xf, sqrt);
      NonNegativeOf(PlusRoot(x0, v0, a, xf, sqrt), MinusRoot(x0, v0, a, xf, sqrt))
  }

  /** The solver misses no time: every non-negative solution is returned
    * unless the equation is degenerate (a = v0 = 0). */
  lemma TimeSolverFindsEveryTime(x0: real, v0: real, a: real, xf: real, sqrt: real -> real, t: real)
    requires IsSqrt(sqrt)
    requires a != 0.0 || v0 != 0.0
    requires t >= 0.0 && PositionAt(x0, v0, a, t) == xf
    ensures Returned(CalcularTiempoPosicionVelocidadAceleracion(x0, v0, a, xf, sqrt), t)
  {
    if a == 0.0 {
      assert v0 * t == xf - x0;
      assert t == -(x0 - xf) / v0;
      assert CalcularTiempoPosicionVelocidadAceleracion(x0, v0, a, xf, sqrt) == OneTime(-(x0 - xf) / v0);
    } else {
      QuadraticFindsEveryTime(x0, v0, a, xf, sqrt, t);
    }
  }

  lemma QuadraticFindsEveryTime(x0: real, v0: real, a: real, xf: real, sqrt: real -> real, t: real)
    requires IsSqrt(sqrt)
    requires a != 0.0
    requires t >= 0.0 && PositionAt(x0, v0, a, t) == xf
    ensures Returned(CalcularTiempoPosicionVelocidadAceleracion(x0, v0, a, xf, sqrt), t)
  {
    var d := Discriminant(x0, v0, a, xf);
    var s := if d > 0.0 then sqrt(d) else 0.0;
    OnlyRoots(x0, v0, a, xf, s, t);
    if d == 0.0 {
      assert t == DoubleRoot(v0, a);
      assert CalcularTiempoPosicionVelocidadAceleracion(x0, v0, a, xf, sqrt) == OneTime(DoubleRoot(v0, a));
    } else {
      assert t == PlusRoot(x0, v0, a, xf, sqrt) || t == MinusRoot(x0, v0, a, xf, sqrt);
      assert CalcularTiempoPosicionVelocidadAceleracion(x0, v0, a, xf, sqrt)
          == NonNegativeOf(PlusRoot(x0, v0, a, xf, sqrt), MinusRoot(x0, v0, a, xf, sqrt));
    }
  }

  /** The equation-module solver differs from this one only where it fails:
    * with a non-zero acceleration and two distinct real roots. */
  lemma AsWrittenSolverDiffersOnlyOnTwoRoots(x0: real, v0: real, a: real, xf: real, sqrt: real -> real)
    requires IsSqrt(sqrt)
    ensures !(a != 0.0 && Discriminant(x0, v0, a, xf) > 0.0) ==>
      EcuacionesCinematicas.CalcularTiempoPosicionVelocidadAceleracion(x0, v0, a, xf, sqrt)
        == Ok(CalcularTiempoPosicionVelocidadAceleracion(x0, v0, a, xf, sqrt))
    ensures a != 0.0 && Discriminant(x0, v0, a, xf) > 0.0 ==>
      EcuacionesCinematicas.CalcularTiempoPosicionVelocidadAceleracion(x0, v0, a, xf, sqrt).Err?
  {
  }

  /** Starting at rest at 0 with an acceleration of 2, the time to reach 1 is
    * 1 (the other root, -1, is negative); the equation-module solver raises
    * instead of answering. */
  lemma AsWrittenSolverFailsToReachOne(sqrt: real -> real)
    requires IsSqrt(sqrt)
    ensures CalcularTiempoPosicionVelocidadAceleracion(0.0, 0.0, 2.0, 1.0, sqrt) == OneTime(1.0)
    ensures EcuacionesCinematicas.CalcularTiempoPosicionVelocidadAceleracion(0.0, 0.0, 2.0, 1.0, sqrt)
         == Err(AttributeError("module 'math' has no attribute 'cuadratica'"))
  {
    assert Discriminant(0.0, 0.0, 2.0, 1.0) == 2.0 * 2.0;
    SqrtOfSquare(sqrt, 2.0);
    assert PlusRoot(0.0, 0.0, 2.0, 1.0, sqrt) == 1.0;
    assert MinusRoot(0.0, 0.0, 2.0, 1.0, sqrt) == -1.0;
  }

  // ------------------------------------------------ simple harmonic motion

  datatype PeriodoFrecuencia = PeriodoFrecuencia(periodo: real, frecuenciaHz: real)

  /** The period 2 pi / omega and the frequency 1 / period of a simple
    * harmonic motion. */
  function CalcularPeriodoFrecuenciaMas(amplitud: real, omega: real): (r: Result<PeriodoFrecuencia>)
    ensures r.Err? <==> amplitud <= 0.0 || omega <= 0.0
    ensures amplitud <= 0.0 ==> r == Err(ValueError("La amplitud debe ser positiva."))
    ensures amplitud > 0.0 && omega <= 0.0 ==>
      r == Err(ValueError("La frecuencia angular (ω) debe ser positiva."))
    ensures r.Ok? ==> r.value.periodo > 0.0 && r.value.periodo * omega == 2.0 * PI
    ensures r.Ok? ==> r.value.periodo * r.value.frecuenciaHz == 1.0
  {
    if amplitud <= 0.0 then Err(ValueError("La amplitud debe ser positiva."))
    else if omega <= 0.0 then Err(ValueError("La frecuencia angular (ω) debe ser positiva."))
    else Ok(PeriodoFrecuencia(2.0 * PI / omega, 1.0 / (2.0 * PI / omega)))
  }

  /** The argument check every simple-harmonic formula opens with. */
  function CheckMas(amplitud: real, omega: real, t: real): (r: Option<Error>)
    ensures r.None? <==> amplitud > 0.0 && omega > 0.0 && t >= 0.0
    ensures amplitud <= 0.0 ==> r == Some(ValueError("La amplitud debe ser positiva."))
    ensures amplitud > 0.0 && omega <= 0.0 ==>
      r == Some(ValueError("La frecuencia angular (ω) debe ser positiva."))
    ensures amplitud > 0.0 && omega > 0.0 && t < 0.0 ==>
      r == Some(ValueError("El tiempo no puede ser negativo."))
  {
    if amplitud <= 0.0 then Some(ValueError("La amplitud debe ser positiva."))
    else if omega <= 0.0 then Some(ValueError("La frecuencia angular (ω) debe ser positiva."))
    else if t < 0.0 then Some(ValueError("El tiempo no puede ser negativo."))
    else None
  }

  /** x(t) = A cos(omega t + phi); it never leaves [-A, A]. */
  function CalcularPosicionMas(amplitud: real, omega: real, fase: real, t: real,
                               sin: real -> real, cos: real -> real): (r: Result<real>)
    requires IsSinCos(sin, cos)
    ensures r.Err? <==> CheckMas(amplitud, omega, t).Some?
    ensures r.Err? ==> r.error == CheckMas(amplitud, omega, t).value
    ensures r.Ok? ==> -amplitud <= r.value <= amplitud
  {
    if CheckMas(amplitud, omega, t).Some? then Err(CheckMas(amplitud, omega, t).value)
    else
      CosBounded(sin, cos, omega * t + fase);
      assert amplitud * cos(omega * t + fase) <= amplitud * 1.0;
      assert amplitud * cos(omega * t + fase) >= amplitud * -1.0;
      Ok(amplitud * cos(omega * t + fase))
  }

  /** v(t) = -A omega sin(omega t + phi). */
  function CalcularVelocidadMas(amplitud: real, omega: real, fase: real, t: real,
                                sin: real -> real, cos: real -> real): (r: Result<real>)
    requires IsSinCos(sin, cos)
    ensures r.Err? <==> CheckMas(amplitud, omega, t).Some?
    ensures r.Err? ==> r.error == CheckMas(amplitud, omega, t).value
  {
    if CheckMas(amplitud, omega, t).Some? then Err(CheckMas(amplitud, omega, t).value)
    else Ok(-amplitud * omega * sin(omega * t + fase))
  }

  /** a(t) = -A omega^2 cos(omega t + phi). */
  function CalcularAceleracionMas(amplitud: real, omega: real, fase: real, t: real,
                                  sin: real -> real, cos: real -> real): (r: Result<real>)
    requires IsSinCos(sin, cos)
    ensures r.Err? <==> CheckMas(amplitud, omega, t).Some?
    ensures r.Err? ==> r.error == CheckMas(amplitud, omega, t).value
  {
    if CheckMas(amplitud, omega, t).Some? then Err(CheckMas(amplitud, omega, t).value)
    else Ok(-amplitud * (omega * omega) * cos(omega * t + fase))
  }

  /** The equation of simple harmonic motion: a = -omega^2 x. */
  lemma MasAccelerationOpposesPosition(amplitud: real, omega: real, fase: real, t: real,
                                       sin: real -> real, cos: real -> real)
    requires IsSinCos(sin, cos)
    requires amplitud > 0.0 && omega > 0.0 && t >= 0.0
    ensures CalcularAceleracionMas(amplitud, omega, fase, t, sin, cos).value
         == -(omega * omega) * CalcularPosicionMas(amplitud, omega, fase, t, sin, cos).value
  {
    assert CalcularAceleracionMas(amplitud, omega, fase, t, sin, cos).value
        == -amplitud * (omega * omega) * cos(omega * t + fase);
    assert CalcularPosicionMas(amplitud, omega, fase, t, sin, cos).value
        == amplitud * cos(omega * t + fase);
  }

  /** Energy is conserved along the oscillation: v^2 + omega^2 x^2 = (A omega)^2. */
  lemma MasEnergyConserved(amplitud: real, omega: real, fase: real, t: real,
                           sin: real -> real, cos: real -> real)
    requires IsSinCos(sin, cos)
    requires amplitud > 0.0 && omega > 0.0 && t >= 0.0
    ensures CalcularVelocidadMas(amplitud, omega, fase, t, sin, cos).value
          * CalcularVelocidadMas(amplitud, omega, fase, t, sin, cos).value
          + (omega * omega)
          * (CalcularPosicionMas(amplitud, omega, fase, t, sin, cos).value
          * CalcularPosicionMas(amplitud, omega, fase, t, sin, cos).value)
         == (amplitud * omega) * (amplitud * omega)
  {
    var p := omega * t + fase;
    assert sin(p) * sin(p) + cos(p) * cos(p) == 1.0;
    assert CalcularVelocidadMas(amplitud, omega, fase, t, sin, cos).value == -amplitud * omega * sin(p);
    assert CalcularPosicionMas(amplitud, omega, fase, t, sin, cos).value == amplitud * cos(p);
    EnergyIdentity(amplitud, omega, sin(p), cos(p));
  }

  lemma EnergyIdentity(amplitud: real, omega: real, s: real, c: real)
    requires s * s + c * c == 1.0
    ensures (-amplitud * omega * s) * (-amplitud * omega * s) + (omega * omega) * ((amplitud * c) * (amplitud * c))
         == (amplitud * omega) * (amplitud * omega)
  {
    calc {
      (-amplitud * omega * s) * (-amplitud * omega * s) + (omega * omega) * ((amplitud * c) * (amplitud * c));
      (amplitud * omega) * (amplitud * omega) * (s * s + c * c);
    }
  }

  // ----------------------------------------------- uniform circular motion

  function CalcularPeriodoMcu(omega: real): (r: Result<real>)
    ensures r.Err? <==> omega == 0.0
    ensures r.Err? ==> r.error == ValueError("La velocidad angular no puede ser cero para calcular el período.")
    ensures r.Ok? ==> r.value > 0.0 && r.value * Abs(omega) == 2.0 * PI
  {
    if omega == 0.0 then Err(ValueError("La velocidad angular no puede ser cero para calcular el período."))
    else Ok(2.0 * PI / Abs(omega))
  }

  function CalcularFrecuenciaMcu(omega: real): (r: Result<real>)
    ensures r.Err? <==> omega == 0.0
    ensures r.Err? ==> r.error == ValueError("La velocidad angular no puede ser cero para calcular la frecuencia.")
    ensures r.Ok? ==> r.value > 0.0 && r.value * (2.0 * PI) == Abs(omega)
  {
    if omega == 0.0 then Err(ValueError("La velocidad angular no puede ser cero para calcular la frecuencia."))
    else Ok(Abs(omega) / (2.0 * PI))
  }

  /** Period and frequency of a circular motion are reciprocal. */
  lemma McuPeriodFrequencyReciprocal(omega: real)
    requires omega != 0.0
    ensures CalcularPeriodoMcu(omega).value * CalcularFrecuenciaMcu(omega).value == 1.0
  {
    var w := Abs(omega);
    assert w > 0.0;
    calc {
      CalcularPeriodoMcu(omega).value * CalcularFrecuenciaMcu(omega).value;
      (2.0 * PI / w) * (w / (2.0 * PI));
      ((2.0 * PI / w) * w) / (2.0 * PI);
      1.0;
    }
  }

  function CalcularVelocidadTangencialMcu(radio: real, omega: real): (r: Result<real>)
    ensures r.Err? <==> radio < 0.0
    ensures r.Err? ==> r.error == ValueError("El radio no puede ser negativo.")
    ensures r.Ok? && radio > 0.0 ==> r.value / radio == omega
    ensures r.Ok? && radio == 0.0 ==> r.value == 0.0
  {
    if radio < 0.0 then Err(ValueError("El radio no puede ser negativo."))
    else Ok(radio * omega)
  }

  const RADIO_NO_POSITIVO: string := "El radio debe ser positivo para calcular la aceleración centrípeta."
  const SIN_VELOCIDAD: string := "Se debe proveer velocidad_angular o velocidad_tangencial."

  /** omega^2 r when the angular speed is given, otherwise v^2 / r. */
  function CalcularAceleracionCentripetaMcu(radio: real, omega: Option<real>, v: Option<real>): (r: Result<real>)
    ensures r.Err? <==> radio <= 0.0 || (omega.None? && v.None?)
    ensures radio <= 0.0 ==>
      r == Err(ValueError(RADIO_NO_POSITIVO))
    ensures radio > 0.0 && omega.None? && v.None? ==>
      r == Err(ValueError(SIN_VELOCIDAD))
    ensures r.Ok? ==> r.value >= 0.0
    ensures r.Ok? && omega.Some? ==> r.value * radio == (omega.value * radio) * (omega.value * radio)
    ensures r.Ok? && omega.None? ==> r.value * radio == v.value * v.value
  {
    if radio <= 0.0 then Err(ValueError(RADIO_NO_POSITIVO))
    else if omega.None? && v.None? then Err(ValueError(SIN_VELOCIDAD))
    else if omega.Some? then Ok(CentripetaAngular(radio, omega.value))
    else Ok(CentripetaTangencial(radio, v.value))
  }

  /** omega^2 r, which is v^2 / r for v = omega r. */
  function CentripetaAngular(radio: real, omega: real): (a: real)
    requires radio > 0.0
    ensures a >= 0.0 && a * radio == (omega * radio) * (omega * radio)
  {
    assert omega * omega >= 0.0;
    omega * omega * radio
  }

  /** v^2 / r. */
  function CentripetaTangencial(radio: real, v: real): (a: real)
    requires radio > 0.0
    ensures a >= 0.0 && a * radio == v * v
  {
    assert v * v >= 0.0;
    v * v / radio
  }

  /** Giving the angular speed or the matching tangential speed yields the
    * same centripetal acceleration. */
  lemma CentripetalFormsAgree(radio: real, omega: real)
    requires radio > 0.0
    ensures CalcularAceleracionCentripetaMcu(radio, Some(omega), None)
         == CalcularAceleracionCentripetaMcu(radio, None, Some(CalcularVelocidadTangencialMcu(radio, omega).value))
  {
    assert CalcularVelocidadTangencialMcu(radio, omega).value == radio * omega;
    var o: Option<real>, n: Option<real> := Some(omega), None;
    assert CalcularAceleracionCentripetaMcu(radio, o, n).Ok?;
    assert CalcularAceleracionCentripetaMcu(radio, o, n).value == omega * omega * radio;
    assert CalcularAceleracionCentripetaMcu(radio, n, Some(radio * omega)).Ok?;
    assert CalcularAceleracionCentripetaMcu(radio, n, Some(radio * omega)).value
        == (radio * omega) * (radio * omega) / radio;
    calc {
      (radio * omega) * (radio * omega) / radio;
      ((omega * omega * radio) * radio) / radio;
      omega * omega * radio;
    }
  }

  function CalcularPosicionAngularMcu(omega: real, t: real, theta0: real): (r: Result<real>)
    ensures r.Err? <==> t < 0.0
    ensures r.Err? ==> r.error == ValueError("El tiempo no puede ser negativo.")
    ensures r.Ok? && t > 0.0 ==> (r.value - theta0) / t == omega
    ensures r.Ok? && t == 0.0 ==> r.value == theta0
  {
    if t < 0.0 then Err(ValueError("El tiempo no puede ser negativo."))
    else Ok(theta0 + omega * t)
  }

  // --------------------------------------------- pointwise MRU and MRUV

  /** Uniform motion is the zero-acceleration case of the equations of
    * motion, refused for negative times. */
  function CalcularPosicionMru(x0: real, v: real, t: real): (r: Result<real>)
    ensures r.Err? <==> t < 0.0
    ensures r.Err? ==> r.error == ValueError("El tiempo no puede ser negativo.")
    ensures r.Ok? ==> r.value == CalcularPosicionFinalTiempo(x0, v, 0.0, t)
  {
    if t < 0.0 then Err(ValueError("El tiempo no puede ser negativo."))
    else Ok(x0 + v * t)
  }

  function CalcularPosicionMruv(x0: real, v0: real, a: real, t: real): (r: Result<real>)
    ensures r.Err? <==> t < 0.0
    ensures r.Err? ==> r.error == ValueError("El tiempo no puede ser negativo.")
    ensures r.Ok? ==> r.value == CalcularPosicionFinalTiempo(x0, v0, a, t)
  {
    if t < 0.0 then Err(ValueError("El tiempo no puede ser negativo."))
    else Ok(x0 + v0 * t + 0.5 * a * t * t)
  }

  function CalcularVelocidadMruv(v0: real, a: real, t: real): (r: Result<real>)
    ensures r.Err? <==> t < 0.0
    ensures r.Err? ==> r.error == ValueError("El tiempo no puede ser negativo.")
    ensures r.Ok? && t > 0.0 ==> (r.value - v0) / t == a
    ensures r.Ok? && t == 0.0 ==> r.value == v0
  {
    if t < 0.0 then Err(ValueError("El tiempo no puede ser negativo."))
    else Ok(v0 + a * t)
  }

  /** Velocity and position of the same accelerated motion satisfy the
    * time-free equation v^2 = v0^2 + 2 a (x - x0). */
  lemma MruvTimelessEquation(x0: real, v0: real, a: real, t: real)
    requires t >= 0.0
    ensures CalcularVelocidadMruv(v0, a, t).value * CalcularVelocidadMruv(v0, a, t).value
         == v0 * v0 + 2.0 * a * (CalcularPosicionMruv(x0, v0, a, t).value - x0)
  {
    calc {
      (v0 + a * t) * (v0 + a * t);
      v0 * v0 + 2.0 * a * (v0 * t + 0.5 * a * t * t);
    }
  }

  // ---------------------------------------------------------------- pendulum

  /** The small-swing period 2 pi sqrt(L / g). */
  function CalcularPeriodoPendulo(longitud: real, sqrt: real -> real): (r: Result<real>)
    requires IsSqrt(sqrt)
    ensures r.Err? <==> longitud <= 0.0
    ensures r.Err? ==> r.error == ValueError("La longitud del péndulo debe ser positiva.")
    ensures r.Ok? ==> r.value > 0.0
    ensures r.Ok? ==> r.value * r.value * GRAVEDAD == 4.0 * PI * PI * longitud
  {
    if longitud <= 0.0 then Err(ValueError("La longitud del péndulo debe ser positiva."))
    else
      PendulumPeriodSquared(longitud, sqrt);
      Ok(2.0 * PI * sqrt(longitud / GRAVEDAD))
  }

  lemma PendulumPeriodSquared(longitud: real, sqrt: real -> real)
    requires IsSqrt(sqrt)
    requires longitud > 0.0
    ensures 2.0 * PI * sqrt(longitud / GRAVEDAD) > 0.0
    ensures (2.0 * PI * sqrt(longitud / GRAVEDAD)) * (2.0 * PI * sqrt(longitud / GRAVEDAD)) * GRAVEDAD
         == 4.0 * PI * PI * longitud
  {
    SqrtPositive(sqrt, longitud / GRAVEDAD);
    calc {
      (2.0 * PI * sqrt(longitud / GRAVEDAD)) * (2.0 * PI * sqrt(longitud / GRAVEDAD)) * GRAVEDAD;
      4.0 * PI * PI * (sqrt(longitud / GRAVEDAD) * sqrt(longitud / GRAVEDAD)) * GRAVEDAD;
      4.0 * PI * PI * (longitud / GRAVEDAD) * GRAVEDAD;
      4.0 * PI * PI * longitud;
    }
  }

  function CalcularFrecuenciaPendulo(longitud: real, sqrt: real -> real): (r: Result<real>)
    requires IsSqrt(sqrt)
    ensures r.Err? <==> longitud <= 0.0
    ensures r.Err? ==> r.error == ValueError("La longitud del péndulo debe ser positiva.")
    ensures r.Ok? ==> r.value * CalcularPeriodoPendulo(longitud, sqrt).value == 1.0
  {
    if longitud <= 0.0 then Err(ValueError("La longitud del péndulo debe ser positiva."))
    else Ok(1.0 / CalcularPeriodoPendulo(longitud, sqrt).value)
  }

  /** The angular frequency sqrt(g / L) of a pendulum of length L. */
  function PenduloOmega(longitud: real, sqrt: real -> real): real
    requires longitud != 0.0
  {
    sqrt(GRAVEDAD / longitud)
  }

  /** The small-swing angle theta0 cos(Omega t) with Omega = sqrt(g / L). */
  function CalcularPosicionAngularPendulo(longitud: real, grados: real, t: real,
                                          sqrt: real -> real, sin: real -> real, cos: real -> real): (r: Result<real>)
    requires IsSqrt(sqrt) && IsSinCos(sin, cos)
    ensures r.Err? <==> longitud <= 0.0
    ensures r.Err? ==> r.error == ValueError("La longitud del péndulo debe ser positiva.")
    ensures r.Ok? ==> -Abs(Deg2Rad(grados)) <= r.value <= Abs(Deg2Rad(grados))
  {
    if longitud <= 0.0 then Err(ValueError("La longitud del péndulo debe ser positiva."))
    else
      CosBounded(sin, cos, PenduloOmega(longitud, sqrt) * t);
      AngleBounded(Deg2Rad(grados), cos(PenduloOmega(longitud, sqrt) * t));
      Ok(Deg2Rad(grados) * cos(PenduloOmega(longitud, sqrt) * t))
  }

  lemma AngleBounded(theta: real, c: real)
    requires -1.0 <= c <= 1.0
    ensures -Abs(theta) <= theta * c <= Abs(theta)
  {
    if theta >= 0.0 {
      assert theta * c <= theta * 1.0;
      assert theta * c >= theta * -1.0;
    } else {
      MulNonNegative(-theta, c + 1.0);
      MulNonNegative(-theta, 1.0 - c);
    }
  }

  function CalcularVelocidadAngularPendulo(longitud: real, grados: real, t: real,
                                           sqrt: real -> real, sin: real -> real, cos: real -> real): (r: Result<real>)
    requires IsSqrt(sqrt) && IsSinCos(sin, cos)
    ensures r.Err? <==> longitud <= 0.0
    ensures r.Err? ==> r.error == ValueError("La longitud del péndulo debe ser positiva.")
  {
    if longitud <= 0.0 then Err(ValueError("La longitud del péndulo debe ser positiva."))
    else
      Ok(-Deg2Rad(grados) * PenduloOmega(longitud, sqrt) * sin(PenduloOmega(longitud, sqrt) * t))
  }

  function CalcularAceleracionAngularPendulo(longitud: real, grados: real, t: real,
                                             sqrt: real -> real, sin: real -> real, cos: real -> real): (r: Result<real>)
    requires IsSqrt(sqrt) && IsSinCos(sin, cos)
    ensures r.Err? <==> longitud <= 0.0
    ensures r.Err? ==> r.error == ValueError("La longitud del péndulo debe ser positiva.")
  {
    if longitud <= 0.0 then Err(ValueError("La longitud del péndulo debe ser positiva."))
    else
      Ok(-Deg2Rad(grados) * (PenduloOmega(longitud, sqrt) * PenduloOmega(longitud, sqrt))
         * cos(PenduloOmega(longitud, sqrt) * t))
  }

  /** The linearised pendulum equation: the angular acceleration is -(g / L)
    * times the angle. */
  lemma PenduloAccelerationOpposesAngle(longitud: real, grados: real, t: real,
                                        sqrt: real -> real, sin: real -> real, cos: real -> real)
    requires IsSqrt(sqrt) && IsSinCos(sin, cos)
    requires longitud > 0.0
    ensures CalcularAceleracionAngularPendulo(longitud, grados, t, sqrt, sin, cos).value
         == -(GRAVEDAD / longitud) * CalcularPosicionAngularPendulo(longitud, grados, t, sqrt, sin, cos).value
  {
    assert PenduloOmega(longitud, sqrt) * PenduloOmega(longitud, sqrt) == GRAVEDAD / longitud;
    assert CalcularPosicionAngularPendulo(longitud, grados, t, sqrt, sin, cos).value
        == Deg2Rad(grados) * cos(PenduloOmega(longitud, sqrt) * t);
  }

  /** The swing keeps its energy: w^2 + (g / L) theta^2 = (theta0 Omega)^2,
    * with w the angular speed and theta the angle at the same instant. */
  lemma PenduloEnergyConserved(longitud: real, grados: real, t: real,
                               sqrt: real -> real, sin: real -> real, cos: real -> real)
    requires IsSqrt(sqrt) && IsSinCos(sin, cos)
    requires longitud > 0.0
    ensures CalcularVelocidadAngularPendulo(longitud, grados, t, sqrt, sin, cos).value
          * CalcularVelocidadAngularPendulo(longitud, grados, t, sqrt, sin, cos).value
          + (GRAVEDAD / longitud)
          * (CalcularPosicionAngularPendulo(longitud, grados, t, sqrt, sin, cos).value
          * CalcularPosicionAngularPendulo(longitud, grados, t, sqrt, sin, cos).value)
         == (Deg2Rad(grados) * PenduloOmega(longitud, sqrt)) * (Deg2Rad(grados) * PenduloOmega(longitud, sqrt))
  {
    var w, th := PenduloOmega(longitud, sqrt), Deg2Rad(grados);
    var p := w * t;
    assert CalcularPosicionAngularPendulo(longitud, grados, t, sqrt, sin, cos).value
        == Deg2Rad(grados) * cos(PenduloOmega(longitud, sqrt) * t);
    assert CalcularVelocidadAngularPendulo(longitud, grados, t, sqrt, sin, cos).value
        == -Deg2Rad(grados) * PenduloOmega(longitud, sqrt) * sin(PenduloOmega(longitud, sqrt) * t);
    SwingIdentity(-th * w * sin(p), th * cos(p), th, w, sin(p), cos(p), GRAVEDAD / longitud);
  }

  lemma SwingIdentity(v: real, x: real, th: real, w: real, s: real, c: real, k: real)
    requires s * s + c * c == 1.0 && w * w == k
    requires v == -th * w * s && x == th * c
    ensures v * v + k * (x * x) == (th * w) * (th * w)
  {
    EnergyIdentity(th, w, s, c);
  }

  // --------------------------------------------------------------- projectile

  /** The height of a projectile t seconds after launch. */
  function ProjectileHeight(h0: real, vy0: real, t: real): real
  {
    h0 + vy0 * t - 0.5 * GRAVEDAD * t * t
  }

  /** (v0 cos, v0 sin); with a true sine and cosine the components recompose
    * the launch speed. */
  function CalcularComponentesVelocidadInicial(v0: real, cosA: real, sinA: real): (r: (real, real))
    ensures cosA * cosA + sinA * sinA == 1.0 ==> r.0 * r.0 + r.1 * r.1 == v0 * v0
    ensures r.1 == 0.0 <==> v0 == 0.0 || sinA == 0.0
  {
    assert (v0 * cosA) * (v0 * cosA) + (v0 * sinA) * (v0 * sinA) == v0 * v0 * (cosA * cosA + sinA * sinA);
    (v0 * cosA, v0 * sinA)
  }

  /** The later root (vy0 + sqrt d) / g of the landing equation, or 0 when it
    * is negative or the projectile never reaches the ground (d < 0). */
  function CalcularTiempoVuelo(v0: real, sinA: real, h0: real, sqrt: real -> real): (r: real)
    requires IsSqrt(sqrt)
    ensures r >= 0.0
    ensures LandingDiscriminant(v0 * sinA, h0) < 0.0 ==> r == 0.0
    ensures LandingDiscriminant(v0 * sinA, h0) >= 0.0 && r > 0.0 ==> ProjectileHeight(h0, v0 * sinA, r) == 0.0
  {
    var vy0 := v0 * sinA;
    if LandingDiscriminant(vy0, h0) < 0.0 then 0.0
    else
      LaterRootLands(h0, vy0, sqrt);
      Max(Max(LaterRoot(h0, vy0, sqrt), EarlierRoot(h0, vy0, sqrt)), 0.0)
  }

  function LandingDiscriminant(vy0: real, h0: real): real
  {
    vy0 * vy0 + 2.0 * GRAVEDAD * h0
  }

  function LaterRoot(h0: real, vy0: real, sqrt: real -> real): real
  {
    (vy0 + sqrt(LandingDiscriminant(vy0, h0))) / GRAVEDAD
  }

  function EarlierRoot(h0: real, vy0: real, sqrt: real -> real): real
  {
    (vy0 - sqrt(LandingDiscriminant(vy0, h0))) / GRAVEDAD
  }

  lemma LaterRootLands(h0: real, vy0: real, sqrt: real -> real)
    requires IsSqrt(sqrt)
    requires LandingDiscriminant(vy0, h0) >= 0.0
    ensures EarlierRoot(h0, vy0, sqrt) <= LaterRoot(h0, vy0, sqrt)
    ensures ProjectileHeight(h0, vy0, LaterRoot(h0, vy0, sqrt)) == 0.0
    ensures ProjectileHeight(h0, vy0, EarlierRoot(h0, vy0, sqrt)) == 0.0
  {
    var s := sqrt(LandingDiscriminant(vy0, h0));
    assert s * s == vy0 * vy0 + 2.0 * GRAVEDAD * h0;
    RootLands(h0, vy0, s);
    RootLands(h0, vy0, -s);
  }

  /** (vy0 + s) / g is on the ground whenever s^2 = vy0^2 + 2 g h0. */
  lemma RootLands(h0: real, vy0: real, s: real)
    requires s * s == vy0 * vy0 + 2.0 * GRAVEDAD * h0
    ensures ProjectileHeight(h0, vy0, (vy0 + s) / GRAVEDAD) == 0.0
  {
    calc {
      ProjectileHeight(h0, vy0, (vy0 + s) / GRAVEDAD);
      h0 + vy0 * ((vy0 + s) / GRAVEDAD) - 0.5 * (vy0 + s) * ((vy0 + s) / GRAVEDAD);
      h0 + 0.5 * ((vy0 - s) * (vy0 + s)) / GRAVEDAD;
      { assert (vy0 - s) * (vy0 + s) == vy0 * vy0 - s * s; }
      h0 + 0.5 * (vy0 * vy0 - s * s) / GRAVEDAD;
      0.0;
    }
  }

  /** After the flight time the projectile is below the ground: the flight
    * time is the last moment it touches the ground. */
  lemma FlightTimeIsLastGroundContact(v0: real, sinA: real, h0: real, sqrt: real -> real, t: real)
    requires IsSqrt(sqrt)
    requires t > CalcularTiempoVuelo(v0, sinA, h0, sqrt)
    ensures ProjectileHeight(h0, v0 * sinA, t) < 0.0
  {
    var vy0 := v0 * sinA;
    MaxHeightBoundsTrajectory(v0, sinA, h0, t);
    if LandingDiscriminant(vy0, h0) >= 0.0 {
      var s := sqrt(LandingDiscriminant(vy0, h0));
      var t1 := LaterRoot(h0, vy0, sqrt);
      var t2 := EarlierRoot(h0, vy0, sqrt);
      LaterRootLands(h0, vy0, sqrt);
      assert t > t1 >= t2;
      assert GRAVEDAD * t1 == vy0 + s && GRAVEDAD * t2 == vy0 - s;
      HeightBetweenRoots(h0, vy0, s, t, t1, t2);
      FallenBelow(t, t1, t2);
    } else {
      assert CalcularAlturaMaxima(v0, sinA, h0) == LandingDiscriminant(vy0, h0) / (2.0 * GRAVEDAD);
    }
  }

  /** With roots t1 and t2 the height polynomial factors as
    * -g/2 (t - t1)(t - t2). */
  lemma HeightBetweenRoots(h0: real, vy0: real, s: real, t: real, t1: real, t2: real)
    requires GRAVEDAD * t1 == vy0 + s && GRAVEDAD * t2 == vy0 - s
    requires s * s == vy0 * vy0 + 2.0 * GRAVEDAD * h0
    ensures ProjectileHeight(h0, vy0, t) == -0.5 * GRAVEDAD * ((t - t1) * (t - t2))
  {
    calc {
      -0.5 * GRAVEDAD * ((t - t1) * (t - t2));
      -0.5 * GRAVEDAD * t * t + 0.5 * t * (GRAVEDAD * t1 + GRAVEDAD * t2) - 0.5 * (GRAVEDAD * t1) * t2;
      -0.5 * GRAVEDAD * t * t + vy0 * t - 0.5 * ((vy0 + s) * (vy0 - s)) / GRAVEDAD;
      { assert (vy0 + s) * (vy0 - s) == vy0 * vy0 - s * s; }
      -0.5 * GRAVEDAD * t * t + vy0 * t + h0;
    }
  }

  lemma FallenBelow(t: real, t1: real, t2: real)
    requires t > t1 && t > t2
    ensures -0.5 * GRAVEDAD * ((t - t1) * (t - t2)) < 0.0
  {
    MulPositive(t - t1, t - t2);
  }

  /** h0 + vy0^2 / 2g. */
  function CalcularAlturaMaxima(v0: real, sinA: real, h0: real): (r: real)
    ensures r >= h0
    ensures r == ProjectileHeight(h0, v0 * sinA, v0 * sinA / GRAVEDAD)
  {
    var vy0 := v0 * sinA;
    assert vy0 * vy0 >= 0.0;
    assert ProjectileHeight(h0, vy0, vy0 / GRAVEDAD) == h0 + vy0 * vy0 / (2.0 * GRAVEDAD);
    h0 + vy0 * vy0 / (2.0 * GRAVEDAD)
  }

  /** No point of the trajectory is higher than the maximum height. */
  lemma MaxHeightBoundsTrajectory(v0: real, sinA: real, h0: real, t: real)
    ensures ProjectileHeight(h0, v0 * sinA, t) <= CalcularAlturaMaxima(v0, sinA, h0)
  {
    var vy0 := v0 * sinA;
    assert CalcularAlturaMaxima(v0, sinA, h0) - ProjectileHeight(h0, vy0, t)
        == 0.5 * GRAVEDAD * ((t - vy0 / GRAVEDAD) * (t - vy0 / GRAVEDAD));
    SquareNonNegative(t - vy0 / GRAVEDAD);
  }

  /** vx0 times the flight time. */
  function CalcularAlcanceHorizontal(v0: real, cosA: real, sinA: real, h0: real, sqrt: real -> real): (r: real)
    requires IsSqrt(sqrt)
    ensures CalcularComponentesVelocidadInicial(v0, cosA, sinA).0 >= 0.0 ==> r >= 0.0
    ensures r == CalcularPosicionEnTiempo(v0, cosA, sinA, CalcularTiempoVuelo(v0, sinA, h0, sqrt), h0).0
  {
    var c := CalcularComponentesVelocidadInicial(v0, cosA, sinA);
    var t := CalcularTiempoVuelo(v0, sinA, h0, sqrt);
    assert c.0 >= 0.0 ==> c.0 * t >= 0.0;
    c.0 * t
  }

  /** The launch point moves with the constant-velocity equation across and
    * the constant-acceleration equation (a = -g) upward. */
  function CalcularPosicionEnTiempo(v0: real, cosA: real, sinA: real, t: real, h0: real): (r: (real, real))
    ensures r.0 == CalcularPosicionFinalTiempo(0.0, v0 * cosA, 0.0, t)
    ensures r.1 == CalcularPosicionFinalTiempo(h0, v0 * sinA, -GRAVEDAD, t)
    ensures r.1 == ProjectileHeight(h0, v0 * sinA, t)
  {
    var c := CalcularComponentesVelocidadInicial(v0, cosA, sinA);
    (c.0 * t, h0 + c.1 * t - 0.5 * GRAVEDAD * t * t)
  }

  /** At the flight time the projectile sits on the ground at the range. */
  lemma LandingPoint(v0: real, cosA: real, sinA: real, h0: real, sqrt: real -> real)
    requires IsSqrt(sqrt)
    requires LandingDiscriminant(v0 * sinA, h0) >= 0.0
    requires CalcularTiempoVuelo(v0, sinA, h0, sqrt) > 0.0
    ensures CalcularPosicionEnTiempo(v0, cosA, sinA, CalcularTiempoVuelo(v0, sinA, h0, sqrt), h0)
         == (CalcularAlcanceHorizontal(v0, cosA, sinA, h0, sqrt), 0.0)
  {
  }
}
