/** Newton's laws for the dynamics page: force and acceleration, friction
  * forces, a block pushed on the floor, a block on an incline, and a block
  * on an incline pulled over a pulley by a hanging mass. The sine and cosine
  * of the angle are given to the model as functions. */
module FormulasDinamica {
  import opened Py

  /** F = m a */
  function CalcularFuerzaNeta(masa: real, aceleracion: real): (f: real)
    ensures masa != 0.0 ==> f / masa == aceleracion
    ensures masa == 0.0 ==> f == 0.0
  {
    masa * aceleracion
  }

  /** a = F / m, refused for a zero mass. */
  function CalcularAceleracion(fuerzaNeta: real, masa: real): (r: Result<real>)
    ensures r.Err? <==> masa == 0.0
    ensures r.Err? ==> r.error == ValueError("La masa no puede ser cero.")
    ensures r.Ok? ==> CalcularFuerzaNeta(masa, r.value) == fuerzaNeta
  {
    if masa == 0.0 then Err(ValueError("La masa no puede ser cero.")) else Ok(fuerzaNeta / masa)
  }

  /** The largest static friction, mu_s N. */
  function CalcularFuerzaRozamientoEstatico(coeficiente: real, fuerzaNormal: real): (f: real)
    ensures coeficiente >= 0.0 && fuerzaNormal >= 0.0 ==> f >= 0.0
    ensures fuerzaNormal != 0.0 ==> f / fuerzaNormal == coeficiente
    ensures fuerzaNormal == 0.0 ==> f == 0.0
  {
    coeficiente * fuerzaNormal
  }

  /** The kinetic friction, mu_k N. */
  function CalcularFuerzaRozamientoCinetico(coeficiente: real, fuerzaNormal: real): (f: real)
    ensures coeficiente >= 0.0 && fuerzaNormal >= 0.0 ==> f >= 0.0
    ensures fuerzaNormal != 0.0 ==> f / fuerzaNormal == coeficiente
    ensures fuerzaNormal == 0.0 ==> f == 0.0
  {
    coeficiente * fuerzaNormal
  }

  /** On the same surface a kinetic coefficient below the static one gives a
    * kinetic friction below the largest static friction. */
  lemma KineticFrictionBelowStatic(muS: real, muK: real, fuerzaNormal: real)
    requires muK <= muS && fuerzaNormal >= 0.0
    ensures CalcularFuerzaRozamientoCinetico(muK, fuerzaNormal) <= CalcularFuerzaRozamientoEstatico(muS, fuerzaNormal)
  {
    MulNonNegative(muS - muK, fuerzaNormal);
  }

  // --------------------------------------------------------------- pulley

  /** The net force driving the pulley system with the hanging mass going
    * down: m2 g - m1 g sin(theta) - mu_k m1 g cos(theta). */
  function Arrastre(m1: real, m2: real, mu: real, g: real, s: real, c: real): real
  {
    m2 * g - m1 * g * s - mu * m1 * g * c
  }

  /** The pulley acceleration helper, refused when the masses add to zero. */
  function CalcularAceleracionPlanoInclinadoPolea(m1: real, m2: real, grados: real, mu: real,
                                                  sin: real -> real, cos: real -> real): (r: Result<real>)
    ensures r.Err? <==> m1 + m2 == 0.0
    ensures r.Err? ==> r.error == ValueError("La suma de las masas no puede ser cero.")
    ensures r.Ok? ==>
      (m1 + m2) * r.value == Arrastre(m1, m2, mu, GRAVEDAD, sin(Deg2Rad(grados)), cos(Deg2Rad(grados)))
  {
    var g := GRAVEDAD;
    var anguloRad := Deg2Rad(grados);
    if m1 + m2 == 0.0 then Err(ValueError("La suma de las masas no puede ser cero."))
    else Ok((m2 * g - m1 * g * sin(anguloRad) - mu * m1 * g * cos(anguloRad)) / (m1 + m2))
  }

  /** The pulley tension helper: the same acceleration, then m2 g - m2 a. */
  function CalcularTensionPlanoInclinadoPolea(m1: real, m2: real, grados: real, mu: real,
                                              sin: real -> real, cos: real -> real): (r: Result<real>)
    ensures r.Err? <==> m1 + m2 == 0.0
    ensures r.Err? ==> r.error == ValueError("La suma de las masas no puede ser cero.")
    ensures r.Ok? ==>
      r.value == m2 * GRAVEDAD - m2 * CalcularAceleracionPlanoInclinadoPolea(m1, m2, grados, mu, sin, cos).value
  {
    var g := GRAVEDAD;
    var anguloRad := Deg2Rad(grados);
    if m1 + m2 == 0.0 then Err(ValueError("La suma de las masas no puede ser cero."))
    else
      var aceleracion := (m2 * g - m1 * g * sin(anguloRad) - mu * m1 * g * cos(anguloRad)) / (m1 + m2);
      Ok(m2 * g - m2 * aceleracion)
  }

  /** With the helpers' acceleration and tension each body obeys F = m a on
    * its own: the hanging mass feels its weight against the tension, the
    * block on the incline the tension against the slope and the friction. */
  lemma PoleaHelpersObeyNewton(m1: real, m2: real, grados: real, mu: real, sin: real -> real, cos: real -> real)
    requires m1 + m2 != 0.0
    ensures var a := CalcularAceleracionPlanoInclinadoPolea(m1, m2, grados, mu, sin, cos).value;
      var t := CalcularTensionPlanoInclinadoPolea(m1, m2, grados, mu, sin, cos).value;
      m2 * a == m2 * GRAVEDAD - t
      && m1 * a == t - m1 * GRAVEDAD * sin(Deg2Rad(grados)) - mu * m1 * GRAVEDAD * cos(Deg2Rad(grados))
  {
    var a := CalcularAceleracionPlanoInclinadoPolea(m1, m2, grados, mu, sin, cos).value;
    var t := CalcularTensionPlanoInclinadoPolea(m1, m2, grados, mu, sin, cos).value;
    var s, c := sin(Deg2Rad(grados)), cos(Deg2Rad(grados));
    assert (m1 + m2) * a == Arrastre(m1, m2, mu, GRAVEDAD, s, c);
    assert t == m2 * GRAVEDAD - m2 * a;
    assert m1 * a == (m1 + m2) * a - m2 * a;
  }

  // ----------------------------------------------------- block on the floor

  /** The forces on a block pushed along the floor. */
  datatype Fuerzas = Fuerzas(fuerzaNormal: real, fuerzaRozamientoEstaticoMax: real, fuerzaRozamiento: real,
                             fuerzaNeta: real, aceleracion: real)

  /** The push F at theta degrees above the floor, split into its horizontal
    * and vertical parts. */
  function FuerzaX(fuerza: real, grados: real, cos: real -> real): real
  {
    fuerza * cos(Deg2Rad(grados))
  }

  function FuerzaY(fuerza: real, grados: real, sin: real -> real): real
  {
    fuerza * sin(Deg2Rad(grados))
  }

  /** The floor pushes back with m g - F_y, or not at all once the push lifts
    * the block. */
  function NormalSuelo(masa: real, fuerzaY: real): (n: real)
    ensures n >= 0.0
    ensures n >= masa * GRAVEDAD - fuerzaY
    ensures n == masa * GRAVEDAD - fuerzaY || n == 0.0
  {
    var n := masa * GRAVEDAD - fuerzaY;
    if n < 0.0 then 0.0 else n
  }

  /** calcular_fuerzas_leyes_newton of the formula module. The block stays put
    * while |F_x| is within the largest static friction, the friction then
    * matching F_x; otherwise kinetic friction acts against F_x and a = net / m.
    * A moving massless block divides a numpy float by zero. */
  function CalcularFuerzasLeyesNewton(masa: real, fuerza: real, grados: real, muS: real, muK: real,
                                      sin: real -> real, cos: real -> real): (r: Result<Fuerzas>)
    ensures var fx, n := FuerzaX(fuerza, grados, cos), NormalSuelo(masa, FuerzaY(fuerza, grados, sin));
      && (r.Err? <==> Abs(fx) > muS * n && masa == 0.0)
      && (r.Err? ==> r.error == NonFinite)
      && (r.Ok? ==> r.value.fuerzaNormal == n && r.value.fuerzaRozamientoEstaticoMax == muS * n)
      && (r.Ok? && Abs(fx) <= muS * n ==>
            r.value.aceleracion == 0.0 && r.value.fuerzaNeta == 0.0 && r.value.fuerzaRozamiento == fx)
      && (r.Ok? && Abs(fx) > muS * n ==>
            r.value.fuerzaRozamiento == Sign(fx) * (muK * n)
            && r.value.fuerzaNeta == fx - r.value.fuerzaRozamiento
            && masa * r.value.aceleracion == r.value.fuerzaNeta)
  {
    FuerzasSuelo(masa, FuerzaX(fuerza, grados, cos), NormalSuelo(masa, FuerzaY(fuerza, grados, sin)), muS, muK)
  }

  /** The same decision once the horizontal push fx and the normal force n
    * are known. */
  function FuerzasSuelo(masa: real, fx: real, n: real, muS: real, muK: real): (r: Result<Fuerzas>)
    ensures r.Err? <==> Abs(fx) > muS * n && masa == 0.0
    ensures r.Err? ==> r.error == NonFinite
    ensures r.Ok? ==> r.value.fuerzaNormal == n && r.value.fuerzaRozamientoEstaticoMax == muS * n
    ensures r.Ok? && Abs(fx) <= muS * n ==>
      r.value.aceleracion == 0.0 && r.value.fuerzaNeta == 0.0 && r.value.fuerzaRozamiento == fx
    ensures r.Ok? && Abs(fx) > muS * n ==>
      r.value.fuerzaRozamiento == Sign(fx) * (muK * n)
      && r.value.fuerzaNeta == fx - r.value.fuerzaRozamiento
      && masa * r.value.aceleracion == r.value.fuerzaNeta
  {
    if Abs(fx) <= muS * n then Ok(Fuerzas(n, muS * n, fx, 0.0, 0.0))
    else if masa == 0.0 then Err(NonFinite)
    else Ok(Fuerzas(n, muS * n, Sign(fx) * (muK * n), fx - Sign(fx) * (muK * n),
                    (fx - Sign(fx) * (muK * n)) / masa))
  }

  /** At rest the friction stays within its static bound. Once the block
    * moves, kinetic friction weaker than the static one cannot turn the push
    * around: the block accelerates the way F_x points. */
  lemma FrictionNeverExceedsPush(masa: real, fuerza: real, grados: real, muS: real, muK: real,
                                 sin: real -> real, cos: real -> real)
    requires masa > 0.0 && 0.0 <= muK <= muS
    ensures var r := CalcularFuerzasLeyesNewton(masa, fuerza, grados, muS, muK, sin, cos).value;
      Abs(r.fuerzaRozamiento) <= Abs(FuerzaX(fuerza, grados, cos))
      && (Abs(FuerzaX(fuerza, grados, cos)) > r.fuerzaRozamientoEstaticoMax ==>
            r.aceleracion != 0.0 && Sign(r.aceleracion) == Sign(FuerzaX(fuerza, grados, cos)))
  {
    var fx, n := FuerzaX(fuerza, grados, cos), NormalSuelo(masa, FuerzaY(fuerza, grados, sin));
    var r := FuerzasSuelo(masa, fx, n, muS, muK).value;
    if Abs(fx) > muS * n {
      SlidingFriction(masa, fx, n, muS, muK, r.fuerzaRozamiento, r.fuerzaNeta, r.aceleracion);
    }
  }

  /** Kinetic friction against a push beyond the static bound is smaller
    * than the push, so the net force and the acceleration keep its sign. */
  lemma SlidingFriction(masa: real, fx: real, n: real, muS: real, muK: real,
                        rozamiento: real, neta: real, aceleracion: real)
    requires masa > 0.0 && 0.0 <= muK <= muS && n >= 0.0 && Abs(fx) > muS * n
    requires rozamiento == Sign(fx) * (muK * n) && neta == fx - rozamiento && masa * aceleracion == neta
    ensures Abs(rozamiento) <= Abs(fx)
    ensures aceleracion != 0.0 && Sign(aceleracion) == Sign(fx)
  {
    var kn := muK * n;
    MulNonNegative(muK, n);
    MulNonNegative(muS - muK, n);
    assert kn <= muS * n;
    if fx > 0.0 {
      assert rozamiento == kn;
      assert neta > 0.0;
    } else {
      assert rozamiento == -kn;
      assert neta < 0.0;
    }
    SignOfQuotient(masa, aceleracion, neta);
  }

  /** m a has the sign of a for a positive mass m. */
  lemma SignOfQuotient(masa: real, a: real, neta: real)
    requires masa > 0.0 && masa * a == neta
    ensures Sign(a) == Sign(neta)
  {
    if a > 0.0 {
      MulPositive(masa, a);
    } else if a < 0.0 {
      MulPositive(masa, -a);
    }
  }

  // -------------------------------------------------- block on an incline

  /** The forces on a block left on an incline, with the message saying
    * whether it moves. */
  datatype PlanoInclinado = PlanoInclinado(fuerzaNormal: real, fuerzaRozamientoEstaticoMax: real,
                                           fuerzaRozamiento: real, fuerzaNeta: real, aceleracion: real,
                                           mensaje: string)

  const EN_REPOSO: string := "El objeto permanece en reposo."
  const SE_DESLIZA: string := "El objeto se desliza por el plano."

  /** The weight along the slope, m g sin(theta), and normal to it,
    * m g cos(theta). */
  function PesoParalelo(masa: real, grados: real, sin: real -> real): real
  {
    masa * (GRAVEDAD * sin(Deg2Rad(grados)))
  }

  function PesoPerpendicular(masa: real, grados: real, cos: real -> real): real
  {
    masa * (GRAVEDAD * cos(Deg2Rad(grados)))
  }

  /** calcular_plano_inclinado of the formula module: the block rests while
    * the pull along the slope is within the largest static friction, the
    * friction then balancing it; otherwise kinetic friction opposes the
    * slide and a = net / m. A massless block always rests, so the division
    * is never by zero. */
  function CalcularPlanoInclinado(masa: real, grados: real, muS: real, muK: real,
                                  sin: real -> real, cos: real -> real): (r: PlanoInclinado)
    ensures var p, n := PesoParalelo(masa, grados, sin), PesoPerpendicular(masa, grados, cos);
      && r.fuerzaNormal == n
      && r.fuerzaRozamientoEstaticoMax == CalcularFuerzaRozamientoEstatico(muS, n)
      && (p <= muS * n ==>
            r.aceleracion == 0.0 && r.fuerzaNeta == 0.0 && r.fuerzaRozamiento == p && r.mensaje == EN_REPOSO)
      && (p > muS * n ==>
            r.fuerzaRozamiento == CalcularFuerzaRozamientoCinetico(muK, n)
            && r.fuerzaNeta == p - r.fuerzaRozamiento
            && masa * r.aceleracion == r.fuerzaNeta && r.mensaje == SE_DESLIZA)
  {
    var fuerzaNormal := PesoPerpendicular(masa, grados, cos);
    var estaticoMax := CalcularFuerzaRozamientoEstatico(muS, fuerzaNormal);
    var sinRozamiento := PesoParalelo(masa, grados, sin);
    if sinRozamiento <= estaticoMax then
      PlanoInclinado(fuerzaNormal, estaticoMax, sinRozamiento, 0.0, 0.0, EN_REPOSO)
    else
      var rozamiento := CalcularFuerzaRozamientoCinetico(muK, fuerzaNormal);
      var neta := sinRozamiento - rozamiento;
      assert masa != 0.0;
      PlanoInclinado(fuerzaNormal, estaticoMax, rozamiento, neta, neta / masa, SE_DESLIZA)
  }

  /** For a positive mass the block rests exactly when sin(theta) <=
    * mu_s cos(theta): the outcome does not depend on the mass. */
  lemma InclineRestDependsOnlyOnAngle(masa: real, grados: real, muS: real, muK: real,
                                      sin: real -> real, cos: real -> real)
    requires masa > 0.0
    ensures CalcularPlanoInclinado(masa, grados, muS, muK, sin, cos).mensaje == EN_REPOSO
        <==> sin(Deg2Rad(grados)) <= muS * cos(Deg2Rad(grados))
  {
    var s, c := sin(Deg2Rad(grados)), cos(Deg2Rad(grados));
    assert CalcularPlanoInclinado(masa, grados, muS, muK, sin, cos).mensaje == EN_REPOSO
       <==> PesoParalelo(masa, grados, sin) <= muS * PesoPerpendicular(masa, grados, cos);
    assert PesoParalelo(masa, grados, sin) == (masa * GRAVEDAD) * s;
    assert muS * PesoPerpendicular(masa, grados, cos) == (masa * GRAVEDAD) * (muS * c);
    PositiveFactorPreservesOrder(masa * GRAVEDAD, s, muS * c);
  }

  /** A sliding block with a positive mass, a slope of at most a right angle
    * and kinetic friction weaker than static friction speeds up down the
    * slope. */
  lemma SlidingBlockSpeedsUp(masa: real, grados: real, muS: real, muK: real,
                             sin: real -> real, cos: real -> real)
    requires masa > 0.0 && 0.0 <= muK <= muS && cos(Deg2Rad(grados)) >= 0.0
    requires CalcularPlanoInclinado(masa, grados, muS, muK, sin, cos).mensaje == SE_DESLIZA
    ensures CalcularPlanoInclinado(masa, grados, muS, muK, sin, cos).aceleracion > 0.0
  {
    var r := CalcularPlanoInclinado(masa, grados, muS, muK, sin, cos);
    var n := PesoPerpendicular(masa, grados, cos);
    MulNonNegative(GRAVEDAD, cos(Deg2Rad(grados)));
    MulNonNegative(masa, GRAVEDAD * cos(Deg2Rad(grados)));
    KineticFrictionBelowStatic(muS, muK, n);
    assert r.fuerzaNeta > 0.0;
    if r.aceleracion <= 0.0 {
      MulNonNegative(masa, -r.aceleracion);
    }
  }

  // ---------------------------------------------------- pulley, branched

  /** The pulley answer: the acceleration and the tension of the rope. */
  datatype Polea = Polea(aceleracion: real, tension: real)

  /** The pull of the block's weight along the slope, m1 g sin(theta), and
    * the kinetic friction on it, mu_k m1 g cos(theta). */
  function Tiro(m1: real, g: real, s: real): real
  {
    m1 * g * s
  }

  function Roce(mu: real, m1: real, g: real, c: real): real
  {
    mu * m1 * g * c
  }

  /** The net force if m2 pulls m1 up the slope, and if m1 slides down
    * pulling m2 up. */
  function NetaArriba(m1: real, m2: real, mu: real, g: real, s: real, c: real): real
  {
    m2 * g - (Tiro(m1, g, s) + Roce(mu, m1, g, c))
  }

  function NetaAbajo(m1: real, m2: real, mu: real, g: real, s: real, c: real): real
  {
    (Tiro(m1, g, s) - Roce(mu, m1, g, c)) - m2 * g
  }

  /** The acceleration a net force gives the two blocks tied by the rope. */
  function AceleracionConjunta(neta: real, m1: real, m2: real): (a: real)
    requires m1 + m2 != 0.0
    ensures (m1 + m2) * a == neta
  {
    neta / (m1 + m2)
  }

  /** calcular_plano_inclinado_polea_formulas: the system moves the way a
    * positive net force points, upward tried first; with neither positive
    * it stands still. A moving system whose masses add to zero divides a
    * numpy float by zero. */
  function CalcularPlanoInclinadoPoleaFormulas(m1: real, m2: real, grados: real, mu: real, gravedad: real,
                                               sin: real -> real, cos: real -> real): (r: Result<Polea>)
    ensures var s, c := sin(Deg2Rad(grados)), cos(Deg2Rad(grados));
      r.Err? <==> (NetaArriba(m1, m2, mu, gravedad, s, c) > 0.0 || NetaAbajo(m1, m2, mu, gravedad, s, c) > 0.0)
                  && m1 + m2 == 0.0
    ensures r == PoleaDesdeSenoCoseno(m1, m2, mu, gravedad, sin(Deg2Rad(grados)), cos(Deg2Rad(grados)))
  {
    PoleaDesdeSenoCoseno(m1, m2, mu, gravedad, sin(Deg2Rad(grados)), cos(Deg2Rad(grados)))
  }

  /** The body of calcular_plano_inclinado_polea_formulas on the sine s and
    * the cosine c of the slope. */
  function PoleaDesdeSenoCoseno(m1: real, m2: real, mu: real, gravedad: real, s: real, c: real): (r: Result<Polea>)
    ensures r.Err? <==> (NetaArriba(m1, m2, mu, gravedad, s, c) > 0.0 || NetaAbajo(m1, m2, mu, gravedad, s, c) > 0.0)
                        && m1 + m2 == 0.0
    ensures r.Err? ==> r.error == NonFinite
    ensures r.Ok? && NetaArriba(m1, m2, mu, gravedad, s, c) > 0.0 ==>
      (m1 + m2) * r.value.aceleracion == NetaArriba(m1, m2, mu, gravedad, s, c)
      && r.value.tension == m2 * gravedad - m2 * r.value.aceleracion
    ensures r.Ok? && NetaArriba(m1, m2, mu, gravedad, s, c) <= 0.0 && NetaAbajo(m1, m2, mu, gravedad, s, c) > 0.0 ==>
      (m1 + m2) * r.value.aceleracion == NetaAbajo(m1, m2, mu, gravedad, s, c)
      && r.value.tension == m2 * gravedad + m2 * r.value.aceleracion
    ensures NetaArriba(m1, m2, mu, gravedad, s, c) <= 0.0 && NetaAbajo(m1, m2, mu, gravedad, s, c) <= 0.0 ==>
      r.Ok? && r.value.aceleracion == 0.0
      && r.value.tension == (if Tiro(m1, gravedad, s) > m2 * gravedad
                             then Tiro(m1, gravedad, s) - Roce(mu, m1, gravedad, c) else m2 * gravedad)
  {
    if NetaArriba(m1, m2, mu, gravedad, s, c) > 0.0 then
      if m1 + m2 == 0.0 then Err(NonFinite)
      else
        Ok(Polea(AceleracionConjunta(NetaArriba(m1, m2, mu, gravedad, s, c), m1, m2),
                 m2 * gravedad - m2 * AceleracionConjunta(NetaArriba(m1, m2, mu, gravedad, s, c), m1, m2)))
    else if NetaAbajo(m1, m2, mu, gravedad, s, c) > 0.0 then
      if m1 + m2 == 0.0 then Err(NonFinite)
      else
        Ok(Polea(AceleracionConjunta(NetaAbajo(m1, m2, mu, gravedad, s, c), m1, m2),
                 m2 * gravedad + m2 * AceleracionConjunta(NetaAbajo(m1, m2, mu, gravedad, s, c), m1, m2)))
    else if Tiro(m1, gravedad, s) > m2 * gravedad then
      Ok(Polea(0.0, Tiro(m1, gravedad, s) - Roce(mu, m1, gravedad, c)))
    else
      Ok(Polea(0.0, m2 * gravedad))
  }

  /** With positive total mass the acceleration is a magnitude: never
    * negative, and zero exactly when neither net force is positive. */
  lemma PoleaAccelerationIsMagnitude(m1: real, m2: real, grados: real, mu: real, gravedad: real,
                                     sin: real -> real, cos: real -> real)
    requires m1 + m2 > 0.0
    ensures var s, c := sin(Deg2Rad(grados)), cos(Deg2Rad(grados));
      var a := CalcularPlanoInclinadoPoleaFormulas(m1, m2, grados, mu, gravedad, sin, cos).value.aceleracion;
      a >= 0.0
      && (a == 0.0 <==> NetaArriba(m1, m2, mu, gravedad, s, c) <= 0.0 && NetaAbajo(m1, m2, mu, gravedad, s, c) <= 0.0)
  {
    var s, c := sin(Deg2Rad(grados)), cos(Deg2Rad(grados));
    var a := CalcularPlanoInclinadoPoleaFormulas(m1, m2, grados, mu, gravedad, sin, cos).value.aceleracion;
    var up, down := NetaArriba(m1, m2, mu, gravedad, s, c), NetaAbajo(m1, m2, mu, gravedad, s, c);
    if up > 0.0 {
      FactorPositive(m1 + m2, a, up);
    } else if down > 0.0 {
      FactorPositive(m1 + m2, a, down);
    }
  }

  /** Moving up with g = 9.81, the branched formulas give the helpers'
    * acceleration and tension. */
  lemma PoleaUpMatchesHelpers(m1: real, m2: real, grados: real, mu: real, sin: real -> real, cos: real -> real)
    requires m1 + m2 != 0.0
    requires NetaArriba(m1, m2, mu, GRAVEDAD, sin(Deg2Rad(grados)), cos(Deg2Rad(grados))) > 0.0
    ensures var p := CalcularPlanoInclinadoPoleaFormulas(m1, m2, grados, mu, GRAVEDAD, sin, cos).value;
      p.aceleracion == CalcularAceleracionPlanoInclinadoPolea(m1, m2, grados, mu, sin, cos).value
      && p.tension == CalcularTensionPlanoInclinadoPolea(m1, m2, grados, mu, sin, cos).value
  {
    var s, c := sin(Deg2Rad(grados)), cos(Deg2Rad(grados));
    var p := CalcularPlanoInclinadoPoleaFormulas(m1, m2, grados, mu, GRAVEDAD, sin, cos).value;
    var a := CalcularAceleracionPlanoInclinadoPolea(m1, m2, grados, mu, sin, cos).value;
    assert NetaArriba(m1, m2, mu, GRAVEDAD, s, c) == Arrastre(m1, m2, mu, GRAVEDAD, s, c);
    assert (m1 + m2) * p.aceleracion == (m1 + m2) * a;
    CancelFactor(m1 + m2, p.aceleracion, a);
  }

  /** Moving down, the rope pulls the hanging mass up: m2 a = T - m2 g, and
    * the block feels its pull along the slope less friction and tension. */
  lemma PoleaDownObeysNewton(m1: real, m2: real, grados: real, mu: real, gravedad: real,
                             sin: real -> real, cos: real -> real)
    requires m1 + m2 != 0.0
    requires NetaArriba(m1, m2, mu, gravedad, sin(Deg2Rad(grados)), cos(Deg2Rad(grados))) <= 0.0
    requires NetaAbajo(m1, m2, mu, gravedad, sin(Deg2Rad(grados)), cos(Deg2Rad(grados))) > 0.0
    ensures var p := CalcularPlanoInclinadoPoleaFormulas(m1, m2, grados, mu, gravedad, sin, cos).value;
      m2 * p.aceleracion == p.tension - m2 * gravedad
      && m1 * p.aceleracion
         == Tiro(m1, gravedad, sin(Deg2Rad(grados))) - Roce(mu, m1, gravedad, cos(Deg2Rad(grados))) - p.tension
  {
    var p := CalcularPlanoInclinadoPoleaFormulas(m1, m2, grados, mu, gravedad, sin, cos).value;
    assert m1 * p.aceleracion == (m1 + m2) * p.aceleracion - m2 * p.aceleracion;
  }
}
