/** The block on an incline as the equation package simulates it: decide
  * whether it moves, then step x, v and t forward with a fixed time step
  * until the end of the plane is reached, the step count runs out or the
  * block stops, and finally add the exact point where the block reaches the
  * end of the plane. */
module EcuacionesPlanoInclinado {
  import opened Py
  import opened Grid
  import opened EcuacionesCinematicas
  import FormulasDinamica

  /** The two answers of calcular_plano_inclinado: the 5-tuple of a block at
    * rest, and the dictionary of a moving one. */
  datatype PlanoInclinado =
    | Reposo(tiempos: seq<real>, posiciones: seq<real>, velocidades: seq<real>, aceleraciones: seq<real>,
             mensaje: string)
    | Movimiento(tiempos: seq<real>, posiciones: seq<real>, velocidades: seq<real>, aceleraciones: seq<real>,
                 mensaje: string, estadoAnimacion: seq<seq<real>>)

  const REPOSO: string := "El objeto permanece en reposo."
  const DESLIZA: string := "El objeto se desliza por el plano."
  const FRENADO: string := "El objeto se detiene debido al rozamiento."
  const DETENIDO: string := "El objeto se detuvo antes de llegar al final del plano."

  /** The answer for a block at rest. */
  function EnReposo(): PlanoInclinado
  {
    Reposo([0.0, 1.0], [0.0, 0.0], [0.0, 0.0], [0.0, 0.0], REPOSO)
  }

  /** The block moves when the pull along the slope beats the largest static
    * friction, or when it starts with a positive speed. */
  predicate SeMueve(masa: real, grados: real, muS: real, v0: real, sin: real -> real, cos: real -> real)
  {
    FormulasDinamica.PesoParalelo(masa, grados, sin) > muS * FormulasDinamica.PesoPerpendicular(masa, grados, cos)
    || v0 > 0.0
  }

  /** The sliding acceleration g sin(theta) - mu_k N / m, and whether friction
    * made it negative, in which case it is taken as 0. */
  function Deslizamiento(masa: real, grados: real, muK: real, sin: real -> real, cos: real -> real): real
    requires masa != 0.0
  {
    GRAVEDAD * sin(Deg2Rad(grados)) - (muK * FormulasDinamica.PesoPerpendicular(masa, grados, cos)) / masa
  }

  function AceleracionDeslizamiento(masa: real, grados: real, muK: real, sin: real -> real, cos: real -> real): (a: real)
    requires masa != 0.0
    ensures a >= 0.0
    ensures a == Max(Deslizamiento(masa, grados, muK, sin, cos), 0.0)
  {
    var a := Deslizamiento(masa, grados, muK, sin, cos);
    if a < 0.0 then 0.0 else a
  }

  /** The time step: the spacing of numpy.linspace(0, 5, n), or 0.05 when
    * that grid has fewer than two points. */
  function Paso(n: nat): (dt: real)
    ensures dt > 0.0
  {
    if n > 1 then 5.0 / ((n - 1) as real) else 0.05
  }

  /** The step the code takes from the grid is Paso. */
  lemma PasoOfGrid(n: nat)
    ensures var g := Linspace(5.0, n).value;
      (if |g| > 1 then g[1] - g[0] else 0.05) == Paso(n)
  {
    var g := Linspace(5.0, n).value;
    if n > 1 {
      assert g[1] == GridTime(5.0, n, 1) == 1.0 * 5.0 / ((n - 1) as real);
      assert g[0] == 0.0;
    }
  }

  // ------------------------------------------------- the stepping, closed

  /** After i steps of dt from rest at x = 0 with speed v0 and acceleration
    * a, the time, position and speed are i dt, v0 t + a t^2 / 2 and
    * v0 + a t. */
  function Tiempo(dt: real, i: nat): real
  {
    (i as real) * dt
  }

  function Posicion(v0: real, a: real, dt: real, i: nat): real
  {
    PositionAt(0.0, v0, a, Tiempo(dt, i))
  }

  function Velocidad(v0: real, a: real, dt: real, i: nat): real
  {
    v0 + a * Tiempo(dt, i)
  }

  /** The first k samples of each closed form. */
  function Tiempos(dt: real, k: nat): (ts: seq<real>)
    ensures |ts| == k && forall j :: 0 <= j < k ==> ts[j] == Tiempo(dt, j)
  {
    seq(k, j requires 0 <= j < k => Tiempo(dt, j))
  }

  function Posiciones(v0: real, a: real, dt: real, k: nat): (xs: seq<real>)
    ensures |xs| == k && forall j :: 0 <= j < k ==> xs[j] == Posicion(v0, a, dt, j)
  {
    seq(k, j requires 0 <= j < k => Posicion(v0, a, dt, j))
  }

  function Velocidades(v0: real, a: real, dt: real, k: nat): (vs: seq<real>)
    ensures |vs| == k && forall j :: 0 <= j < k ==> vs[j] == Velocidad(v0, a, dt, j)
  {
    seq(k, j requires 0 <= j < k => Velocidad(v0, a, dt, j))
  }

  /** How the stepping stops: after `recorded` samples, at position `xEnd`,
    * and whether the speed went negative. */
  datatype Halt = Halt(recorded: nat, xEnd: real, stopped: bool)

  /** The stepping from sample i on: stop before recording a sample at or
    * past the end of the plane, after recording one whose next speed is
    * negative, or once n samples are recorded. */
  function Run(v0: real, a: real, dt: real, dist: real, n: nat, i: nat): (h: Halt)
    requires i <= n
    ensures i <= h.recorded <= n
    decreases n - i
  {
    if i == n then Halt(n, Posicion(v0, a, dt, n), false)
    else if Posicion(v0, a, dt, i) >= dist then Halt(i, Posicion(v0, a, dt, i), false)
    else if Velocidad(v0, a, dt, i + 1) < 0.0 then Halt(i + 1, Posicion(v0, a, dt, i + 1), true)
    else Run(v0, a, dt, dist, n, i + 1)
  }

  /** Every recorded sample lies before the end of the plane and, after the
    * first, moves forward or stands; a stepping that neither stopped nor
    * ran out of steps ends at or past the end of the plane; a stop comes
    * right after the last recorded sample. */
  lemma {:induction false} RunProperties(v0: real, a: real, dt: real, dist: real, n: nat, i: nat)
    requires i <= n
    ensures var h := Run(v0, a, dt, dist, n, i);
      && (forall j :: i <= j < h.recorded ==> Posicion(v0, a, dt, j) < dist)
      && (forall j :: i < j < h.recorded ==> Velocidad(v0, a, dt, j) >= 0.0)
      && (h.stopped ==>
            h.recorded > i && Velocidad(v0, a, dt, h.recorded) < 0.0 && h.xEnd == Posicion(v0, a, dt, h.recorded))
      && (!h.stopped ==> h.xEnd == Posicion(v0, a, dt, h.recorded))
      && (!h.stopped && h.recorded < n ==> h.xEnd >= dist)
    decreases n - i
  {
    if i < n && Posicion(v0, a, dt, i) < dist && Velocidad(v0, a, dt, i + 1) >= 0.0 {
      RunProperties(v0, a, dt, dist, n, i + 1);
    }
  }

  /** One step of the update x += v dt + a dt^2 / 2, v += a dt, t += dt
    * moves the closed forms from sample i to sample i + 1. */
  lemma StepAdvances(v0: real, a: real, dt: real, i: nat)
    ensures Tiempo(dt, i + 1) == Tiempo(dt, i) + dt
    ensures Velocidad(v0, a, dt, i + 1) == Velocidad(v0, a, dt, i) + a * dt
    ensures Posicion(v0, a, dt, i + 1)
         == Posicion(v0, a, dt, i) + Velocidad(v0, a, dt, i) * dt + 0.5 * a * dt * dt
  {
    var t, t' := Tiempo(dt, i), Tiempo(dt, i + 1);
    assert t' == t + dt;
    PositionStep(v0, a, dt, t, t');
    assert a * t' == a * t + a * dt;
  }

  /** Recording sample i extends each closed-form list by one. */
  lemma SamplesExtend(v0: real, a: real, dt: real, i: nat)
    ensures Tiempos(dt, i + 1) == Tiempos(dt, i) + [Tiempo(dt, i)]
    ensures Posiciones(v0, a, dt, i + 1) == Posiciones(v0, a, dt, i) + [Posicion(v0, a, dt, i)]
    ensures Velocidades(v0, a, dt, i + 1) == Velocidades(v0, a, dt, i) + [Velocidad(v0, a, dt, i)]
  {
  }

  lemma PositionStep(v0: real, a: real, dt: real, t: real, t': real)
    requires t' == t + dt
    ensures PositionAt(0.0, v0, a, t') == PositionAt(0.0, v0, a, t) + (v0 + a * t) * dt + 0.5 * a * dt * dt
  {
  }

  /** The stepping loop of calcular_plano_inclinado: the samples recorded
    * are the closed forms at 0, 1, ..., `recorded` - 1, the final position
    * is the halt's, and a negative speed sets the acceleration to 0. */
  method Recorrer(v0: real, a: real, dt: real, dist: real, n: nat)
    returns (tiempos: seq<real>, posiciones: seq<real>, velocidades: seq<real>, x: real, aceleracion: real,
             detenido: bool)
    ensures var h := Run(v0, a, dt, dist, n, 0);
      && tiempos == Tiempos(dt, h.recorded)
      && posiciones == Posiciones(v0, a, dt, h.recorded)
      && velocidades == Velocidades(v0, a, dt, h.recorded)
      && x == h.xEnd
      && detenido == h.stopped
      && aceleracion == (if h.stopped then 0.0 else a)
  {
    var t, v := 0.0, v0;
    x := 0.0;
    aceleracion := a;
    detenido := false;
    tiempos, posiciones, velocidades := [], [], [];
    var i := 0;
    assert Posicion(v0, a, dt, 0) == 0.0 && Velocidad(v0, a, dt, 0) == v0;
    while i < n
      invariant 0 <= i <= n
      invariant x == Posicion(v0, a, dt, i) && v == Velocidad(v0, a, dt, i) && t == Tiempo(dt, i)
      invariant aceleracion == a && !detenido
      invariant Run(v0, a, dt, dist, n, 0) == Run(v0, a, dt, dist, n, i)
      invariant tiempos == Tiempos(dt, i)
      invariant posiciones == Posiciones(v0, a, dt, i)
      invariant velocidades == Velocidades(v0, a, dt, i)
      decreases n - i
    {
      if x >= dist {
        break;
      }
      SamplesExtend(v0, a, dt, i);
      posiciones := posiciones + [x];
      velocidades := velocidades + [v];
      tiempos := tiempos + [t];
      StepAdvances(v0, a, dt, i);
      x := x + v * dt + 0.5 * aceleracion * dt * dt;
      v := v + aceleracion * dt;
      t := t + dt;
      if v < 0.0 {
        v := 0.0;
        aceleracion := 0.0;
        detenido := true;
        break;
      }
      i := i + 1;
    }
  }

  // ------------------------------------------------- the exact end point

  /** The time from the last recorded sample (x, v) to the end of the plane
    * under acceleration a: the root of a t^2 / 2 + v t + (x - dist) = 0
    * that the code picks, or 0 when it finds none. */
  function PasoFinal(a: real, v: real, x: real, dist: real, sqrt: real -> real): real
    requires IsSqrt(sqrt)
  {
    if 0.5 * a == 0.0 then
      if v != 0.0 then -(x - dist) / v else 0.0
    else if Discriminant(x, v, a, dist) >= 0.0 then
      Max(PlusRoot(x, v, a, dist, sqrt), MinusRoot(x, v, a, dist, sqrt))
    else 0.0
  }

  /** A positive final time lands exactly at the end of the plane. */
  lemma PasoFinalReachesEnd(a: real, v: real, x: real, dist: real, sqrt: real -> real)
    requires IsSqrt(sqrt)
    requires PasoFinal(a, v, x, dist, sqrt) > 0.0
    ensures PositionAt(x, v, a, PasoFinal(a, v, x, dist, sqrt)) == dist
  {
    if 0.5 * a == 0.0 {
      LinearRootSolves(x, v, a, dist);
    } else {
      RootsSolve(x, v, a, dist, sqrt);
    }
  }

  /** The three lists with the exact end point appended when the block has
    * not reached the end, something was recorded and the final time is
    * positive. */
  function ConPuntoFinal(ts: seq<real>, xs: seq<real>, vs: seq<real>, xEnd: real, a: real, dist: real,
                         sqrt: real -> real): (r: (seq<real>, seq<real>, seq<real>))
    requires IsSqrt(sqrt)
    requires |ts| == |xs| == |vs|
    ensures |r.0| == |r.1| == |r.2|
    ensures |r.0| == |ts| || |r.0| == |ts| + 1
    ensures r.0[..|ts|] == ts && r.1[..|xs|] == xs && r.2[..|vs|] == vs
  {
    if xEnd < dist && |xs| > 0 then
      var dtFinal := PasoFinal(a, vs[|vs| - 1], xs[|xs| - 1], dist, sqrt);
      if dtFinal > 0.0 then
        (ts + [ts[|ts| - 1] + dtFinal], xs + [dist], vs + [vs[|vs| - 1] + a * dtFinal])
      else (ts, xs, vs)
    else (ts, xs, vs)
  }

  /** An appended point is the end of the plane, reached from the last
    * recorded sample within the appended time at the appended speed. */
  lemma PuntoFinalOnTrajectory(ts: seq<real>, xs: seq<real>, vs: seq<real>, xEnd: real, a: real, dist: real,
                               sqrt: real -> real)
    requires IsSqrt(sqrt)
    requires |ts| == |xs| == |vs|
    requires |ConPuntoFinal(ts, xs, vs, xEnd, a, dist, sqrt).0| == |ts| + 1
    ensures var r, k := ConPuntoFinal(ts, xs, vs, xEnd, a, dist, sqrt), |ts|;
      var dtFinal := r.0[k] - ts[k - 1];
      dtFinal > 0.0 && r.1[k] == dist
      && PositionAt(xs[k - 1], vs[k - 1], a, dtFinal) == dist
      && r.2[k] == CalcularVelocidadFinalTiempo(vs[k - 1], a, dtFinal)
  {
    var k := |ts|;
    PasoFinalReachesEnd(a, vs[k - 1], xs[k - 1], dist, sqrt);
  }

  // ------------------------------------------------------------ the whole

  /** The acceleration the answer reports: 0 once the block stopped. */
  function AceleracionFinal(v0: real, a: real, dt: real, dist: real, n: nat): real
  {
    if Run(v0, a, dt, dist, n, 0).stopped then 0.0 else a
  }

  /** The samples of a moving block: the recorded closed forms, then the
    * exact end point when one is added. */
  function Muestras(v0: real, a: real, dt: real, dist: real, n: nat, sqrt: real -> real)
    : (r: (seq<real>, seq<real>, seq<real>))
    requires IsSqrt(sqrt)
  {
    var h := Run(v0, a, dt, dist, n, 0);
    ConPuntoFinal(Tiempos(dt, h.recorded), Posiciones(v0, a, dt, h.recorded), Velocidades(v0, a, dt, h.recorded),
                  h.xEnd, AceleracionFinal(v0, a, dt, dist, n), dist, sqrt)
  }

  /** calcular_plano_inclinado of the equation package. A massless block
    * that moves divides a numpy zero by zero, which raises nothing: its nan
    * acceleration reaches the answer as soon as one sample is recorded, and
    * a run that records none (no points, or no plane to cover) answers with
    * empty lists. */
  method CalcularPlanoInclinado(masa: real, grados: real, muS: real, muK: real, dist: real, v0: real,
                                numPuntos: int, sin: real -> real, cos: real -> real, sqrt: real -> real)
    returns (r: Result<PlanoInclinado>)
    requires IsSqrt(sqrt)
    ensures !SeMueve(masa, grados, muS, v0, sin, cos) ==> r == Ok(EnReposo())
    ensures SeMueve(masa, grados, muS, v0, sin, cos) && numPuntos < 0 ==> r == Err(Linspace(5.0, numPuntos).error)
    ensures SeMueve(masa, grados, muS, v0, sin, cos) && numPuntos >= 1 && dist > 0.0 && masa == 0.0 ==>
      r == Err(NonFinite)
    ensures SeMueve(masa, grados, muS, v0, sin, cos) && numPuntos >= 0 && (numPuntos == 0 || dist <= 0.0)
            && masa == 0.0 ==>
      r == Ok(Movimiento([], [], [], [], DESLIZA, []))
    ensures SeMueve(masa, grados, muS, v0, sin, cos) && numPuntos >= 0 && masa != 0.0 ==>
      var a := AceleracionDeslizamiento(masa, grados, muK, sin, cos);
      var lists := Muestras(v0, a, Paso(numPuntos), dist, numPuntos, sqrt);
      r.Ok? && r.value.Movimiento?
      && r.value.tiempos == lists.0 && r.value.posiciones == lists.1 && r.value.velocidades == lists.2
      && r.value.aceleraciones == seq(|lists.0|, _ => AceleracionFinal(v0, a, Paso(numPuntos), dist, numPuntos))
      && r.value.mensaje == (if Run(v0, a, Paso(numPuntos), dist, numPuntos, 0).stopped then DETENIDO
                             else if Deslizamiento(masa, grados, muK, sin, cos) < 0.0 then FRENADO else DESLIZA)
      && r.value.estadoAnimacion == Rows3(lists.0, lists.1, lists.2)
  {
    var fuerzaNormal := FormulasDinamica.PesoPerpendicular(masa, grados, cos);
    var estaticoMax := muS * fuerzaNormal;
    var sinRozamiento := FormulasDinamica.PesoParalelo(masa, grados, sin);
    if sinRozamiento <= estaticoMax && v0 == 0.0 {
      return Ok(EnReposo());
    }
    if !(sinRozamiento > estaticoMax || v0 > 0.0) {
      return Ok(EnReposo());
    }
    var grid :- Linspace(5.0, numPuntos);
    if masa == 0.0 {
      if numPuntos == 0 || dist <= 0.0 {
        return Ok(Movimiento([], [], [], [], DESLIZA, []));
      }
      return Err(NonFinite);
    }
    var movimiento := Deslizar(masa, grados, muK, dist, v0, numPuntos, grid, sin, cos, sqrt);
    r := Ok(movimiento);
  }

  /** The moving block of calcular_plano_inclinado: step along the plane with
    * the grid's time step, then add the exact end point. */
  method Deslizar(masa: real, grados: real, muK: real, dist: real, v0: real, n: nat, grid: seq<real>,
                  sin: real -> real, cos: real -> real, sqrt: real -> real)
    returns (p: PlanoInclinado)
    requires IsSqrt(sqrt) && masa != 0.0
    requires Linspace(5.0, n) == Ok(grid)
    ensures var a := AceleracionDeslizamiento(masa, grados, muK, sin, cos);
      var lists := Muestras(v0, a, Paso(n), dist, n, sqrt);
      p.Movimiento?
      && p.tiempos == lists.0 && p.posiciones == lists.1 && p.velocidades == lists.2
      && p.aceleraciones == seq(|lists.0|, _ => AceleracionFinal(v0, a, Paso(n), dist, n))
      && p.mensaje == (if Run(v0, a, Paso(n), dist, n, 0).stopped then DETENIDO
                       else if Deslizamiento(masa, grados, muK, sin, cos) < 0.0 then FRENADO else DESLIZA)
      && p.estadoAnimacion == Rows3(lists.0, lists.1, lists.2)
  {
    var aceleracion := AceleracionDeslizamiento(masa, grados, muK, sin, cos);
    var mensaje := if Deslizamiento(masa, grados, muK, sin, cos) < 0.0 then FRENADO else DESLIZA;
    var dt := if |grid| > 1 then grid[1] - grid[0] else 0.05;
    PasoOfGrid(n);
    var tiempos, posiciones, velocidades, x, aFinal, detenido := Recorrer(v0, aceleracion, dt, dist, n);
    if detenido {
      mensaje := DETENIDO;
    }
    var lists := ConPuntoFinal(tiempos, posiciones, velocidades, x, aFinal, dist, sqrt);
    var estado := AppendRows3(lists.0, lists.1, lists.2);
    p := Movimiento(lists.0, lists.1, lists.2, seq(|lists.0|, _ => aFinal), mensaje, estado);
  }

  /** What the samples promise: equal-length lists, at most one sample more
    * than steps, every recorded position before the end of the plane and an
    * appended one exactly at it, and times that strictly increase. */
  lemma MuestrasShape(v0: real, a: real, dt: real, dist: real, n: nat, sqrt: real -> real)
    requires IsSqrt(sqrt) && dt > 0.0
    ensures var k, l := Run(v0, a, dt, dist, n, 0).recorded, Muestras(v0, a, dt, dist, n, sqrt);
      && |l.0| == |l.1| == |l.2| <= n + 1
      && (forall j :: 0 <= j < k ==> l.1[j] < dist)
      && (|l.1| == k + 1 ==> l.1[k] == dist)
      && (forall j :: 0 < j < |l.0| ==> l.0[j - 1] < l.0[j])
  {
    var h := Run(v0, a, dt, dist, n, 0);
    var k := h.recorded;
    var l := Muestras(v0, a, dt, dist, n, sqrt);
    RunProperties(v0, a, dt, dist, n, 0);
    assert l.0[..k] == Tiempos(dt, k) && l.1[..k] == Posiciones(v0, a, dt, k);
    forall j | 0 < j < |l.0|
      ensures l.0[j - 1] < l.0[j]
    {
      if j < k {
        assert l.0[j] == Tiempo(dt, j) && l.0[j - 1] == Tiempo(dt, j - 1);
        StepAdvances(v0, a, dt, j - 1);
      } else {
        PuntoFinalOnTrajectory(Tiempos(dt, k), Posiciones(v0, a, dt, k), Velocidades(v0, a, dt, k), h.xEnd,
                               AceleracionFinal(v0, a, dt, dist, n), dist, sqrt);
      }
    }
  }
}
