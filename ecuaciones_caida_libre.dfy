/** The free-fall sampler of the equation package: the same grid, filter and
  * impact sample as the simulation copy, with heights and velocities taken
  * from the kinematic helpers (v0 = 0, a = -g) and one dictionary row per
  * kept sample. */
module EcuacionesCaidaLibre {
  import opened Py
  import opened Grid
  import opened GroundFilter
  import opened EcuacionesCinematicas
  import SimulacionCaidaLibre

  /** What this calcular_caida_libre returns: three empty lists for a body on
    * or below the ground, otherwise the kept lists, the total time and one
    * {tiempo, altura, velocidad} row per kept sample. */
  datatype CaidaLibre =
    | SinCaida
    | Caida(tiempos: seq<real>, alturas: seq<real>, velocidades: seq<real>, tiempoTotal: real,
            estados: seq<Dict>)

  function HelperHeights(h0: real, ts: seq<real>): (hs: seq<real>)
    ensures |hs| == |ts|
    ensures forall i :: 0 <= i < |ts| ==> hs[i] == CalcularPosicionFinalTiempo(h0, 0.0, -GRAVEDAD, ts[i])
  {
    seq(|ts|, i requires 0 <= i < |ts| => CalcularPosicionFinalTiempo(h0, 0.0, -GRAVEDAD, ts[i]))
  }

  function HelperVelocities(ts: seq<real>): (vs: seq<real>)
    ensures |vs| == |ts|
    ensures forall i :: 0 <= i < |ts| ==> vs[i] == CalcularVelocidadFinalTiempo(0.0, -GRAVEDAD, ts[i])
  {
    seq(|ts|, i requires 0 <= i < |ts| => CalcularVelocidadFinalTiempo(0.0, -GRAVEDAD, ts[i]))
  }

  function FallRows(ts: seq<real>, hs: seq<real>, vs: seq<real>): (rows: seq<Dict>)
    requires |ts| == |hs| == |vs|
    ensures |rows| == |ts|
    ensures forall i :: 0 <= i < |ts| ==>
      rows[i] == map["tiempo" := ts[i], "altura" := hs[i], "velocidad" := vs[i]]
  {
    seq(|ts|, i requires 0 <= i < |ts| => map["tiempo" := ts[i], "altura" := hs[i], "velocidad" := vs[i]])
  }

  /** The helpers with v0 = 0 and a = -g give the trajectory of the
    * simulation copy: h0 - g t^2 / 2 and -g t. */
  lemma HelpersGiveTrajectory(h0: real, ts: seq<real>)
    ensures Zip3(ts, HelperHeights(h0, ts), HelperVelocities(ts)) == SimulacionCaidaLibre.FallSamples(h0, ts)
  {
    var s := Zip3(ts, HelperHeights(h0, ts), HelperVelocities(ts));
    forall i | 0 <= i < |ts|
      ensures s[i] == SimulacionCaidaLibre.FallSamples(h0, ts)[i]
    {
      assert CalcularPosicionFinalTiempo(h0, 0.0, -GRAVEDAD, ts[i]) == h0 - 0.5 * GRAVEDAD * ts[i] * ts[i];
    }
  }

  method CalcularCaidaLibre(h0: real, tiempoTotal: Option<real>, numPuntos: int, sqrt: real -> real)
    returns (r: Result<CaidaLibre>)
    requires IsSqrt(sqrt)
    ensures h0 <= 0.0 ==> r == Ok(SinCaida)
    ensures h0 > 0.0 && numPuntos < 0 ==>
      r == Err(ValueError("Number of samples, " + IntToString(numPuntos) + ", must be non-negative."))
    ensures h0 > 0.0 && numPuntos >= 0 ==>
      r.Ok? && r.value.Caida?
      && r.value.tiempoTotal == SimulacionCaidaLibre.TotalTime(h0, tiempoTotal, sqrt)
      && |r.value.tiempos| == |r.value.alturas| == |r.value.velocidades|
      && Zip3(r.value.tiempos, r.value.alturas, r.value.velocidades)
         == Truncated(SimulacionCaidaLibre.FallGrid(h0, r.value.tiempoTotal, numPuntos),
                      SimulacionCaidaLibre.Impact(h0, sqrt))
      && r.value.estados == FallRows(r.value.tiempos, r.value.alturas, r.value.velocidades)
  {
    if h0 <= 0.0 {
      return Ok(SinCaida);
    }
    var total := if tiempoTotal.Some? then tiempoTotal.value else sqrt(2.0 * h0 / GRAVEDAD);
    var tiempos :- Linspace(total, numPuntos);
    var alturas := HelperHeights(h0, tiempos);
    var velocidades := HelperVelocities(tiempos);
    var impacto := sqrt(2.0 * h0 / GRAVEDAD);
    var impact := Sample(impacto, 0.0, CalcularVelocidadFinalTiempo(0.0, -GRAVEDAD, impacto));
    assert impact == SimulacionCaidaLibre.Impact(h0, sqrt);
    HelpersGiveTrajectory(h0, tiempos);
    var kt, kh, kv := FilterAboveGround(tiempos, alturas, velocidades, impact);
    r := Ok(Caida(kt, kh, kv, total, FallRows(kt, kh, kv)));
  }
}
