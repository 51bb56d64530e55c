/** The uniform-motion and uniformly-accelerated-motion samplers of the
  * equation package: the total time may be missing, the point count is
  * clamped, and every grid time becomes one dictionary row built from the
  * kinematic helpers. */
module EcuacionesMru {
  import opened Py
  import opened Grid
  import opened EcuacionesCinematicas
  import SimulacionMru

  /** The lists calcular_mru returns: times, positions and one
    * {tiempo, posicion} row per time. */
  datatype MruSerie = MruSerie(tiempos: seq<real>, posiciones: seq<real>, estados: seq<Dict>)

  /** The lists calcular_mruv returns, with one {tiempo, posicion, velocidad}
    * row per time. */
  datatype MruvSerie = MruvSerie(tiempos: seq<real>, posiciones: seq<real>, velocidades: seq<real>,
                                 estados: seq<Dict>)

  /** The checks both samplers make on the total time before anything else. */
  function CheckTiempoTotal(tiempoTotal: Option<real>): (e: Option<Error>)
    ensures e == None <==> tiempoTotal.Some? && tiempoTotal.value >= 0.0
    ensures tiempoTotal.None? ==> e == Some(ValueError("El tiempo total debe ser un número válido."))
    ensures tiempoTotal.Some? && tiempoTotal.value < 0.0 ==>
      e == Some(ValueError("El tiempo total no puede ser negativo."))
  {
    if tiempoTotal.None? then Some(ValueError("El tiempo total debe ser un número válido."))
    else if tiempoTotal.value < 0.0 then Some(ValueError("El tiempo total no puede ser negativo."))
    else None
  }

  /** linspace(0, T, n) with the twenty/ten clamp of the uniform-motion copy. */
  function WideGrid(tiempoTotal: real, numPuntos: int): (ts: seq<real>)
    ensures |ts| == ClampPointsWide(numPuntos, tiempoTotal)
    ensures forall i :: 0 <= i < |ts| ==> ts[i] == GridTime(tiempoTotal, |ts|, i)
  {
    Linspace(tiempoTotal, ClampPointsWide(numPuntos, tiempoTotal)).value
  }

  function MruRows(ts: seq<real>, xs: seq<real>): (rows: seq<Dict>)
    requires |ts| == |xs|
    ensures |rows| == |ts|
    ensures forall i :: 0 <= i < |ts| ==> rows[i] == map["tiempo" := ts[i], "posicion" := xs[i]]
  {
    seq(|ts|, i requires 0 <= i < |ts| => map["tiempo" := ts[i], "posicion" := xs[i]])
  }

  function MruvRows(ts: seq<real>, xs: seq<real>, vs: seq<real>): (rows: seq<Dict>)
    requires |ts| == |xs| == |vs|
    ensures |rows| == |ts|
    ensures forall i :: 0 <= i < |ts| ==>
      rows[i] == map["tiempo" := ts[i], "posicion" := xs[i], "velocidad" := vs[i]]
  {
    seq(|ts|, i requires 0 <= i < |ts| => map["tiempo" := ts[i], "posicion" := xs[i], "velocidad" := vs[i]])
  }

  /** The position helper with no acceleration, at every time. */
  function UniformPositions(x0: real, v: real, ts: seq<real>): (xs: seq<real>)
    ensures |xs| == |ts|
    ensures forall i :: 0 <= i < |ts| ==> xs[i] == x0 + v * ts[i]
  {
    seq(|ts|, i requires 0 <= i < |ts| => CalcularPosicionFinalTiempo(x0, v, 0.0, ts[i]))
  }

  function AcceleratedPositions(x0: real, v0: real, a: real, ts: seq<real>): (xs: seq<real>)
    ensures |xs| == |ts|
    ensures forall i :: 0 <= i < |ts| ==> xs[i] == PositionAt(x0, v0, a, ts[i])
  {
    seq(|ts|, i requires 0 <= i < |ts| => CalcularPosicionFinalTiempo(x0, v0, a, ts[i]))
  }

  function AcceleratedVelocities(v0: real, a: real, ts: seq<real>): (vs: seq<real>)
    ensures |vs| == |ts|
    ensures forall i :: 0 <= i < |ts| ==> vs[i] - v0 == a * ts[i]
  {
    seq(|ts|, i requires 0 <= i < |ts| => CalcularVelocidadFinalTiempo(v0, a, ts[i]))
  }

  function CalcularMru(x0: real, v: real, tiempoTotal: Option<real>, numPuntos: int): (r: Result<MruSerie>)
    ensures r.Err? <==> CheckTiempoTotal(tiempoTotal).Some?
    ensures r.Err? ==> Some(r.error) == CheckTiempoTotal(tiempoTotal)
    ensures r.Ok? ==>
      r.value.tiempos == WideGrid(tiempoTotal.value, numPuntos)
      && |r.value.posiciones| == |r.value.estados| == |r.value.tiempos|
      && forall i :: 0 <= i < |r.value.tiempos| ==>
           r.value.posiciones[i] == x0 + v * r.value.tiempos[i]
           && r.value.estados[i] == map["tiempo" := r.value.tiempos[i], "posicion" := r.value.posiciones[i]]
  {
    match CheckTiempoTotal(tiempoTotal)
    case Some(e) => Err(e)
    case None =>
      var ts := WideGrid(tiempoTotal.value, numPuntos);
      var xs := UniformPositions(x0, v, ts);
      Ok(MruSerie(ts, xs, MruRows(ts, xs)))
  }

  function CalcularMruv(x0: real, v0: real, a: real, tiempoTotal: Option<real>, numPuntos: int): (r: Result<MruvSerie>)
    ensures r.Err? <==> CheckTiempoTotal(tiempoTotal).Some?
    ensures r.Err? ==> Some(r.error) == CheckTiempoTotal(tiempoTotal)
    ensures r.Ok? ==>
      r.value.tiempos == SimulacionMru.GridOf(tiempoTotal.value, numPuntos)
      && |r.value.posiciones| == |r.value.velocidades| == |r.value.estados| == |r.value.tiempos|
      && forall i :: 0 <= i < |r.value.tiempos| ==>
           r.value.posiciones[i] == PositionAt(x0, v0, a, r.value.tiempos[i])
           && r.value.velocidades[i] - v0 == a * r.value.tiempos[i]
           && r.value.estados[i] == map["tiempo" := r.value.tiempos[i], "posicion" := r.value.posiciones[i],
                                        "velocidad" := r.value.velocidades[i]]
  {
    match CheckTiempoTotal(tiempoTotal)
    case Some(e) => Err(e)
    case None =>
      var ts := SimulacionMru.GridOf(tiempoTotal.value, numPuntos);
      var xs := AcceleratedPositions(x0, v0, a, ts);
      var vs := AcceleratedVelocities(v0, a, ts);
      Ok(MruvSerie(ts, xs, vs, MruvRows(ts, xs, vs)))
  }

  /** With two points or more asked for, both uniform-motion samplers lay the
    * same grid and report the same positions; they differ only in the clamp
    * of smaller requests and in the shape of the state rows. */
  lemma MruCopiesAgree(x0: real, v: real, tiempoTotal: real, numPuntos: int)
    requires tiempoTotal >= 0.0 && numPuntos >= 2
    ensures var e := CalcularMru(x0, v, Some(tiempoTotal), numPuntos).value;
      var s := SimulacionMru.CalcularMru(x0, v, tiempoTotal, numPuntos).value;
      e.tiempos == s.tiempos && e.posiciones == s.posiciones
  {
    var e := CalcularMru(x0, v, Some(tiempoTotal), numPuntos).value;
    var s := SimulacionMru.CalcularMru(x0, v, tiempoTotal, numPuntos).value;
    assert e.tiempos == s.tiempos;
    assert e.posiciones == s.posiciones by {
      forall i | 0 <= i < |e.tiempos|
        ensures e.posiciones[i] == s.posiciones[i]
      {
        assert e.posiciones[i] == x0 + v * e.tiempos[i];
      }
    }
  }

  /** The two accelerated-motion samplers report the same times, positions
    * and velocities for every request the equation copy accepts. */
  lemma MruvCopiesAgree(x0: real, v0: real, a: real, tiempoTotal: real, numPuntos: int)
    requires tiempoTotal >= 0.0
    ensures var e := CalcularMruv(x0, v0, a, Some(tiempoTotal), numPuntos).value;
      var s := SimulacionMru.CalcularMruv(x0, v0, a, tiempoTotal, numPuntos).value;
      e.tiempos == s.tiempos && e.posiciones == s.posiciones && e.velocidades == s.velocidades
  {
    var e := CalcularMruv(x0, v0, a, Some(tiempoTotal), numPuntos).value;
    var s := SimulacionMru.CalcularMruv(x0, v0, a, tiempoTotal, numPuntos).value;
    var ts := SimulacionMru.GridOf(tiempoTotal, numPuntos);
    assert e.posiciones == AcceleratedPositions(x0, v0, a, ts) && e.velocidades == AcceleratedVelocities(v0, a, ts);
    assert s.posiciones == SimulacionMru.MruvPositions(x0, v0, a, ts)
      && s.velocidades == SimulacionMru.MruvVelocities(v0, a, ts);
    SameSamples(x0, v0, a, ts);
  }

  /** Both copies of the position and velocity helpers give the same lists
    * on the same times. */
  lemma SameSamples(x0: real, v0: real, a: real, ts: seq<real>)
    ensures AcceleratedPositions(x0, v0, a, ts) == SimulacionMru.MruvPositions(x0, v0, a, ts)
    ensures AcceleratedVelocities(v0, a, ts) == SimulacionMru.MruvVelocities(v0, a, ts)
  {
    var xe, xs := AcceleratedPositions(x0, v0, a, ts), SimulacionMru.MruvPositions(x0, v0, a, ts);
    var ve, vs := AcceleratedVelocities(v0, a, ts), SimulacionMru.MruvVelocities(v0, a, ts);
    forall i | 0 <= i < |ts|
      ensures xe[i] == xs[i] && ve[i] == vs[i]
    {
      assert xe[i] == PositionAt(x0, v0, a, ts[i]);
    }
  }

  /** A positive duration with at most one point asked for is drawn with
    * twenty points, from 0 to T. */
  lemma MruSmallRequestWidened(x0: real, v: real, tiempoTotal: real, numPuntos: int)
    requires tiempoTotal > 0.0 && numPuntos <= 1
    ensures var e := CalcularMru(x0, v, Some(tiempoTotal), numPuntos).value;
      |e.tiempos| == 20 && e.tiempos[0] == 0.0 && e.tiempos[19] == tiempoTotal
      && e.posiciones[19] == x0 + v * tiempoTotal
  {
    LinspaceShape(tiempoTotal, 20);
  }
}
