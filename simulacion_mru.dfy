/** The uniform-motion and uniformly-accelerated-motion samplers of the
  * simulation package: clamp the point count, lay a uniform time grid over
  * [0, T] and evaluate the motion at every grid time. */
module SimulacionMru {
  import opened Py
  import opened Grid
  import FormulasCinematica

  datatype MruParametros = MruParametros(posicionInicial: real, velocidad: real, tiempoTotal: real, numPuntos: int)

  /** The lists calcular_mru returns: times, positions and [t, x] rows. */
  datatype MruResultado = MruResultado(tiempos: seq<real>, posiciones: seq<real>, estados: seq<seq<real>>)

  /** The uniform time grid over [0, T] with the clamped point count. */
  function GridOf(tiempoTotal: real, numPuntos: int): (ts: seq<real>)
    ensures |ts| == ClampPoints(numPuntos, tiempoTotal)
    ensures forall i :: 0 <= i < |ts| ==> ts[i] == GridTime(tiempoTotal, |ts|, i)
  {
    Linspace(tiempoTotal, ClampPoints(numPuntos, tiempoTotal)).value
  }

  function CalcularMru(x0: real, v: real, tiempoTotal: real, numPuntos: int): (r: Result<MruResultado>)
    ensures r.Err? <==> tiempoTotal < 0.0
    ensures r.Err? ==> r.error == ValueError("El tiempo total no puede ser negativo.")
    ensures r.Ok? ==> r.value.tiempos == GridOf(tiempoTotal, numPuntos)
    ensures r.Ok? ==>
      |r.value.posiciones| == |r.value.estados| == |r.value.tiempos|
      && forall i :: 0 <= i < |r.value.tiempos| ==>
           r.value.tiempos[i] >= 0.0
           && r.value.posiciones[i] == x0 + v * r.value.tiempos[i]
           && r.value.estados[i] == [r.value.tiempos[i], r.value.posiciones[i]]
  {
    if tiempoTotal < 0.0 then Err(ValueError("El tiempo total no puede ser negativo."))
    else
      var ts := GridOf(tiempoTotal, numPuntos);
      GridNonNegative(tiempoTotal, numPuntos);
      var xs := MruPositions(x0, v, ts);
      Ok(MruResultado(ts, xs, Rows2(ts, xs)))
  }

  lemma GridNonNegative(tiempoTotal: real, numPuntos: int)
    requires tiempoTotal >= 0.0
    ensures forall i :: 0 <= i < |GridOf(tiempoTotal, numPuntos)| ==> GridOf(tiempoTotal, numPuntos)[i] >= 0.0
  {
    var ts := GridOf(tiempoTotal, numPuntos);
    forall i | 0 <= i < |ts| ensures ts[i] >= 0.0 { GridBounds(tiempoTotal, |ts|, i); }
  }

  function MruPositions(x0: real, v: real, ts: seq<real>): (xs: seq<real>)
    ensures |xs| == |ts|
    ensures forall i :: 0 <= i < |ts| ==> xs[i] == x0 + v * ts[i]
  {
    seq(|ts|, i requires 0 <= i < |ts| => x0 + v * ts[i])
  }

  /** Uniform motion covers equal distances in the equal steps of the grid. */
  lemma MruStepsAreEqual(x0: real, v: real, tiempoTotal: real, numPuntos: int, i: int)
    requires tiempoTotal >= 0.0
    requires 0 <= i && i + 1 < |CalcularMru(x0, v, tiempoTotal, numPuntos).value.posiciones|
    ensures var r := CalcularMru(x0, v, tiempoTotal, numPuntos).value;
      r.posiciones[i + 1] - r.posiciones[i] == v * (tiempoTotal / ((|r.tiempos| - 1) as real))
  {
    var r := CalcularMru(x0, v, tiempoTotal, numPuntos).value;
    GridStep(tiempoTotal, |r.tiempos|, i);
    LineStep(x0, v, r.tiempos[i], r.tiempos[i + 1], r.posiciones[i], r.posiciones[i + 1],
             tiempoTotal / ((|r.tiempos| - 1) as real));
  }

  /** Every sample agrees with the pointwise uniform-motion formula. */
  lemma MruAgreesWithFormula(x0: real, v: real, tiempoTotal: real, numPuntos: int, i: int)
    requires tiempoTotal >= 0.0
    requires 0 <= i < |CalcularMru(x0, v, tiempoTotal, numPuntos).value.tiempos|
    ensures var r := CalcularMru(x0, v, tiempoTotal, numPuntos).value;
      FormulasCinematica.CalcularPosicionMru(x0, v, r.tiempos[i]) == Ok(r.posiciones[i])
  {
  }

  lemma LineStep(x0: real, v: real, t0: real, t1: real, p0: real, p1: real, d: real)
    requires p0 == x0 + v * t0 && p1 == x0 + v * t1
    requires t1 - t0 == d
    ensures p1 - p0 == v * d
  {
  }

  /** The series runs from the start point at t = 0 to x0 + v T at t = T. */
  lemma MruEndpoints(x0: real, v: real, tiempoTotal: real, numPuntos: int)
    requires tiempoTotal > 0.0
    ensures var r := CalcularMru(x0, v, tiempoTotal, numPuntos).value;
      |r.tiempos| >= 2
      && r.tiempos[0] == 0.0 && r.posiciones[0] == x0
      && r.tiempos[|r.tiempos| - 1] == tiempoTotal
      && r.posiciones[|r.tiempos| - 1] == x0 + v * tiempoTotal
  {
    var r := CalcularMru(x0, v, tiempoTotal, numPuntos).value;
    var n := |r.tiempos|;
    assert r.posiciones[0] == x0 + v * r.tiempos[0];
    assert r.posiciones[n - 1] == x0 + v * r.tiempos[n - 1];
  }

  function SimularMru(x0: real, v: real, tiempoTotal: real, numPuntos: int): (r: Simulacion<MruParametros, MruResultado>)
    ensures r.Fallo? <==> tiempoTotal < 0.0
    ensures r.Fallo? ==> r == Fallo("El tiempo total no puede ser negativo.", "Error en los parámetros de entrada.")
    ensures r.Exito? ==>
      r.parametros == MruParametros(x0, v, tiempoTotal, numPuntos)
      && Ok(r.resultados) == CalcularMru(x0, v, tiempoTotal, numPuntos)
      && r.mensaje == "Simulación de MRU calculada exitosamente."
  {
    Simular(MruParametros(x0, v, tiempoTotal, numPuntos), CalcularMru(x0, v, tiempoTotal, numPuntos),
            "Simulación de MRU calculada exitosamente.")
  }

  // ------------------------------------------------------------------- MRUV

  datatype MruvParametros = MruvParametros(posicionInicial: real, velocidadInicial: real, aceleracion: real,
                                           tiempoTotal: real, numPuntos: int)

  datatype MruvResultado = MruvResultado(tiempos: seq<real>, posiciones: seq<real>, velocidades: seq<real>,
                                         estados: seq<seq<real>>)

  function CalcularMruv(x0: real, v0: real, a: real, tiempoTotal: real, numPuntos: int): (r: Result<MruvResultado>)
    ensures r.Err? <==> tiempoTotal < 0.0
    ensures r.Err? ==> r.error == ValueError("El tiempo total no puede ser negativo.")
    ensures r.Ok? ==> r.value.tiempos == GridOf(tiempoTotal, numPuntos)
    ensures r.Ok? ==>
      |r.value.posiciones| == |r.value.velocidades| == |r.value.estados| == |r.value.tiempos|
      && forall i :: 0 <= i < |r.value.tiempos| ==>
           r.value.tiempos[i] >= 0.0
           && r.value.posiciones[i] == x0 + v0 * r.value.tiempos[i] + 0.5 * a * r.value.tiempos[i] * r.value.tiempos[i]
           && r.value.velocidades[i] - v0 == a * r.value.tiempos[i]
           && r.value.estados[i] == [r.value.tiempos[i], r.value.posiciones[i], r.value.velocidades[i]]
  {
    if tiempoTotal < 0.0 then Err(ValueError("El tiempo total no puede ser negativo."))
    else
      var ts := GridOf(tiempoTotal, numPuntos);
      GridNonNegative(tiempoTotal, numPuntos);
      var xs := MruvPositions(x0, v0, a, ts);
      var vs := MruvVelocities(v0, a, ts);
      Ok(MruvResultado(ts, xs, vs, Rows3(ts, xs, vs)))
  }

  function MruvPositions(x0: real, v0: real, a: real, ts: seq<real>): (xs: seq<real>)
    ensures |xs| == |ts|
    ensures forall i :: 0 <= i < |ts| ==> xs[i] == x0 + v0 * ts[i] + 0.5 * a * ts[i] * ts[i]
  {
    seq(|ts|, i requires 0 <= i < |ts| => x0 + v0 * ts[i] + 0.5 * a * ts[i] * ts[i])
  }

  function MruvVelocities(v0: real, a: real, ts: seq<real>): (vs: seq<real>)
    ensures |vs| == |ts|
    ensures forall i :: 0 <= i < |ts| ==> vs[i] == v0 + a * ts[i]
  {
    seq(|ts|, i requires 0 <= i < |ts| => v0 + a * ts[i])
  }

  /** Every sample agrees with the pointwise accelerated-motion formulas. */
  lemma MruvAgreesWithFormulas(x0: real, v0: real, a: real, tiempoTotal: real, numPuntos: int, i: int)
    requires tiempoTotal >= 0.0
    requires 0 <= i < |CalcularMruv(x0, v0, a, tiempoTotal, numPuntos).value.tiempos|
    ensures var r := CalcularMruv(x0, v0, a, tiempoTotal, numPuntos).value;
      FormulasCinematica.CalcularPosicionMruv(x0, v0, a, r.tiempos[i]) == Ok(r.posiciones[i])
      && FormulasCinematica.CalcularVelocidadMruv(v0, a, r.tiempos[i]) == Ok(r.velocidades[i])
  {
  }

  /** Each sampled pair of position and velocity satisfies
    * v^2 = v0^2 + 2 a (x - x0). */
  lemma MruvSamplesTimeless(x0: real, v0: real, a: real, tiempoTotal: real, numPuntos: int, i: int)
    requires tiempoTotal >= 0.0
    requires 0 <= i < |CalcularMruv(x0, v0, a, tiempoTotal, numPuntos).value.tiempos|
    ensures var r := CalcularMruv(x0, v0, a, tiempoTotal, numPuntos).value;
      r.velocidades[i] * r.velocidades[i] == v0 * v0 + 2.0 * a * (r.posiciones[i] - x0)
  {
    var r := CalcularMruv(x0, v0, a, tiempoTotal, numPuntos).value;
    TimelessIdentity(x0, v0, a, r.tiempos[i], r.posiciones[i], r.velocidades[i]);
  }

  lemma TimelessIdentity(x0: real, v0: real, a: real, t: real, x: real, v: real)
    requires x == x0 + v0 * t + 0.5 * a * t * t && v - v0 == a * t
    ensures v * v == v0 * v0 + 2.0 * a * (x - x0)
  {
    assert v == v0 + a * t;
    assert x - x0 == v0 * t + 0.5 * a * t * t;
  }

  function SimularMruv(x0: real, v0: real, a: real, tiempoTotal: real, numPuntos: int)
    : (r: Simulacion<MruvParametros, MruvResultado>)
    ensures r.Fallo? <==> tiempoTotal < 0.0
    ensures r.Fallo? ==> r == Fallo("El tiempo total no puede ser negativo.", "Error en los parámetros de entrada.")
    ensures r.Exito? ==>
      r.parametros == MruvParametros(x0, v0, a, tiempoTotal, numPuntos)
      && Ok(r.resultados) == CalcularMruv(x0, v0, a, tiempoTotal, numPuntos)
      && r.mensaje == "Simulación de MRUV calculada exitosamente."
  {
    Simular(MruvParametros(x0, v0, a, tiempoTotal, numPuntos), CalcularMruv(x0, v0, a, tiempoTotal, numPuntos),
            "Simulación de MRUV calculada exitosamente.")
  }
}
