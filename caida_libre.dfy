/** The free-fall sampler of the simulation package: sample h0 - g t^2 / 2 and
  * -g t on a uniform grid over [0, T], keep the samples down to the ground,
  * close the series with the exact impact sample, and package the outcome for
  * the API. */
module SimulacionCaidaLibre {
  import opened Py
  import opened Grid
  import opened GroundFilter
  import FormulasCinematica

  /** sqrt(2 h0 / g): when a body dropped from h0 reaches the ground. */
  function ImpactTime(h0: real, sqrt: real -> real): real
  {
    sqrt(2.0 * h0 / GRAVEDAD)
  }

  /** The sample the filter appends at the ground: (t*, 0, -g t*). */
  function Impact(h0: real, sqrt: real -> real): Sample
  {
    Sample(ImpactTime(h0, sqrt), 0.0, -GRAVEDAD * ImpactTime(h0, sqrt))
  }

  /** The requested total time, or the impact time when none was given. */
  function TotalTime(h0: real, tiempoTotal: Option<real>, sqrt: real -> real): real
  {
    if tiempoTotal.Some? then tiempoTotal.value else ImpactTime(h0, sqrt)
  }

  function FallHeights(h0: real, ts: seq<real>): (hs: seq<real>)
    ensures |hs| == |ts|
    ensures forall i :: 0 <= i < |ts| ==> hs[i] == h0 - 0.5 * GRAVEDAD * ts[i] * ts[i]
  {
    seq(|ts|, i requires 0 <= i < |ts| => h0 - 0.5 * GRAVEDAD * ts[i] * ts[i])
  }

  function FallVelocities(ts: seq<real>): (vs: seq<real>)
    ensures |vs| == |ts|
    ensures forall i :: 0 <= i < |ts| ==> vs[i] == -GRAVEDAD * ts[i]
  {
    seq(|ts|, i requires 0 <= i < |ts| => -GRAVEDAD * ts[i])
  }

  /** The fall sampled at the given times, as (time, height, velocity). */
  function FallSamples(h0: real, ts: seq<real>): (s: seq<Sample>)
    ensures |s| == |ts|
    ensures forall i :: 0 <= i < |ts| ==> s[i] == Sample(ts[i], h0 - 0.5 * GRAVEDAD * ts[i] * ts[i], -GRAVEDAD * ts[i])
  {
    Zip3(ts, FallHeights(h0, ts), FallVelocities(ts))
  }

  /** The fall sampled on linspace(0, total, n), before the ground filter. */
  function FallGrid(h0: real, total: real, n: nat): seq<Sample>
  {
    FallSamples(h0, Linspace(total, n).value)
  }

  /** What calcular_caida_libre returns: three empty lists for a body that
    * starts on or below the ground, otherwise the kept times, heights and
    * velocities, the total time and one [t, h, v] row per kept sample. */
  datatype CaidaLibre =
    | SinCaida
    | Caida(tiempos: seq<real>, alturas: seq<real>, velocidades: seq<real>, tiempoTotal: real,
            estados: seq<seq<real>>)

  /** The kept lists of `c` are the filtered fall of h0 over the grid of
    * total time T (given or defaulted). */
  predicate IsFilteredFall(c: CaidaLibre, h0: real, tiempoTotal: Option<real>, n: nat, sqrt: real -> real)
  {
    c.Caida?
    && c.tiempoTotal == TotalTime(h0, tiempoTotal, sqrt)
    && |c.tiempos| == |c.alturas| == |c.velocidades|
    && Zip3(c.tiempos, c.alturas, c.velocidades) == Truncated(FallGrid(h0, c.tiempoTotal, n), Impact(h0, sqrt))
    && c.estados == Rows3(c.tiempos, c.alturas, c.velocidades)
  }

  method CalcularCaidaLibre(h0: real, tiempoTotal: Option<real>, numPuntos: int, sqrt: real -> real)
    returns (r: Result<CaidaLibre>)
    requires IsSqrt(sqrt)
    ensures h0 <= 0.0 ==> r == Ok(SinCaida)
    ensures h0 > 0.0 && numPuntos < 0 ==>
      r == Err(ValueError("Number of samples, " + IntToString(numPuntos) + ", must be non-negative."))
    ensures h0 > 0.0 && numPuntos >= 0 ==> r.Ok? && IsFilteredFall(r.value, h0, tiempoTotal, numPuntos, sqrt)
  {
    if h0 <= 0.0 {
      return Ok(SinCaida);
    }
    var total := if tiempoTotal.Some? then tiempoTotal.value else sqrt(2.0 * h0 / GRAVEDAD);
    var tiempos :- Linspace(total, numPuntos);
    var alturas := FallHeights(h0, tiempos);
    var velocidades := FallVelocities(tiempos);
    var impacto := sqrt(2.0 * h0 / GRAVEDAD);
    assert Sample(impacto, 0.0, -GRAVEDAD * impacto) == Impact(h0, sqrt);
    assert Zip3(tiempos, alturas, velocidades) == FallGrid(h0, total, numPuntos);
    var kt, kh, kv := FilterAboveGround(tiempos, alturas, velocidades, Sample(impacto, 0.0, -GRAVEDAD * impacto));
    r := Ok(Caida(kt, kh, kv, total, Rows3(kt, kh, kv)));
  }

  // ------------------------------------------------- what the filter keeps

  /** The impact sample lies on the trajectory: at t* >= 0 the height
    * h0 - g t*^2 / 2 is exactly the ground, and t* is the fall time of the
    * formula library. */
  lemma ImpactOnTrajectory(h0: real, sqrt: real -> real)
    requires IsSqrt(sqrt)
    requires h0 >= 0.0
    ensures ImpactTime(h0, sqrt) >= 0.0
    ensures h0 - 0.5 * GRAVEDAD * ImpactTime(h0, sqrt) * ImpactTime(h0, sqrt) == 0.0
    ensures ImpactTime(h0, sqrt) == FormulasCinematica.CalcularTiempoCaidaLibre(h0, sqrt).value
  {
    FormulasCinematica.FallTimeSquared(h0, sqrt);
    if h0 == 0.0 {
      SqrtOfSquare(sqrt, 0.0);
    }
  }

  /** A time t >= 0 is at or above the ground exactly up to t*; it is on the
    * ground only at t*. */
  lemma AboveGroundBeforeImpact(h0: real, t: real, sqrt: real -> real)
    requires IsSqrt(sqrt)
    requires h0 >= 0.0 && t >= 0.0
    ensures h0 - 0.5 * GRAVEDAD * t * t >= 0.0 <==> t <= ImpactTime(h0, sqrt)
    ensures h0 - 0.5 * GRAVEDAD * t * t == 0.0 <==> t == ImpactTime(h0, sqrt)
  {
    var s := ImpactTime(h0, sqrt);
    ImpactOnTrajectory(h0, sqrt);
    if t < s {
      SquareStrictlyIncreasing(t, s);
    } else if s < t {
      SquareStrictlyIncreasing(s, t);
    }
  }

  /** Nothing the filter keeps is below the ground. */
  lemma KeptAboveGround(h0: real, total: real, n: nat, sqrt: real -> real)
    ensures var kept := Truncated(FallGrid(h0, total, n), Impact(h0, sqrt));
      forall i :: 0 <= i < |kept| ==> kept[i].y >= 0.0
  {
    TruncatedAboveGround(FallGrid(h0, total, n), Impact(h0, sqrt));
  }

  /** A sample of the trajectory of a body dropped from h0. */
  predicate OnTrajectory(h0: real, s: Sample)
  {
    s.y == h0 - 0.5 * GRAVEDAD * s.t * s.t && s.w == -GRAVEDAD * s.t
  }

  /** Every kept sample, the appended impact included, is a point of the
    * trajectory: height h0 - g t^2 / 2 and velocity -g t at its time. */
  lemma KeptOnTrajectory(h0: real, total: real, n: nat, sqrt: real -> real)
    requires IsSqrt(sqrt)
    requires h0 >= 0.0
    ensures var kept := Truncated(FallGrid(h0, total, n), Impact(h0, sqrt));
      forall i :: 0 <= i < |kept| ==> OnTrajectory(h0, kept[i])
  {
    var grid := FallGrid(h0, total, n);
    ImpactOnTrajectory(h0, sqrt);
    TruncatedKeeps(grid, Impact(h0, sqrt), s => OnTrajectory(h0, s));
  }

  /** Over a non-negative total time the kept times never run backwards. */
  lemma KeptTimesNonDecreasing(h0: real, total: real, n: nat, sqrt: real -> real)
    requires total >= 0.0
    ensures NonDecreasingTimes(Truncated(FallGrid(h0, total, n), Impact(h0, sqrt)))
  {
    var ts := Linspace(total, n).value;
    var grid := FallGrid(h0, total, n);
    forall i, j | 0 <= i <= j < |grid|
      ensures grid[i].t <= grid[j].t
    {
      GridMonotone(total, n, i, j);
    }
    TruncatedTimesNonDecreasing(grid, Impact(h0, sqrt));
  }

  /** With the default total time the whole grid lies on or above the ground,
    * so everything sampled is kept. */
  lemma DefaultTimeKeepsWholeGrid(h0: real, n: nat, sqrt: real -> real)
    requires IsSqrt(sqrt)
    requires h0 >= 0.0
    ensures var grid := FallGrid(h0, ImpactTime(h0, sqrt), n);
      Truncated(grid, Impact(h0, sqrt)) == grid
  {
    var s := ImpactTime(h0, sqrt);
    ImpactOnTrajectory(h0, sqrt);
    var grid := FallGrid(h0, s, n);
    forall i | 0 <= i < |grid|
      ensures grid[i].y >= 0.0
    {
      GridBounds(s, n, i);
      AboveGroundBeforeImpact(h0, grid[i].t, sqrt);
    }
    AboveGroundKeptWhole(grid, Impact(h0, sqrt));
  }

  /** The grid of a non-negative total time runs from 0 to the total time
    * along the trajectory. */
  lemma GridOnTrajectory(h0: real, total: real, n: nat)
    requires total >= 0.0
    ensures var grid := FallGrid(h0, total, n);
      |grid| == n
      && (n >= 1 ==> grid[0].t == 0.0)
      && (n >= 2 ==> grid[n - 1].t == total)
      && forall i :: 0 <= i < n ==> OnTrajectory(h0, grid[i]) && 0.0 <= grid[i].t <= total
  {
    var ts := Linspace(total, n).value;
    LinspaceShape(total, n);
    forall i | 0 <= i < n
      ensures OnTrajectory(h0, FallSamples(h0, ts)[i]) && 0.0 <= FallSamples(h0, ts)[i].t <= total
    {
      SampleOnTrajectory(h0, ts, i);
      GridBounds(total, n, i);
    }
  }

  lemma SampleOnTrajectory(h0: real, ts: seq<real>, i: nat)
    requires i < |ts|
    ensures OnTrajectory(h0, FallSamples(h0, ts)[i]) && FallSamples(h0, ts)[i].t == ts[i]
  {
  }

  /** A point of the trajectory at a time t >= 0 that is at or above the
    * ground is either strictly above it before t* or the impact sample. */
  lemma BeforeOrAtImpact(h0: real, s: Sample, sqrt: real -> real)
    requires IsSqrt(sqrt)
    requires h0 >= 0.0 && OnTrajectory(h0, s) && s.t >= 0.0 && s.y >= 0.0
    ensures (s.y > 0.0 && s.t < ImpactTime(h0, sqrt)) || s == Impact(h0, sqrt)
  {
    AboveGroundBeforeImpact(h0, s.t, sqrt);
  }

  /** A total time past the impact, drawn with two points or more, ends the
    * series exactly at the impact sample (t*, 0, -g t*). */
  lemma LongRunEndsAtImpact(h0: real, total: real, n: nat, sqrt: real -> real)
    requires IsSqrt(sqrt)
    requires h0 > 0.0 && n >= 2
    requires total > ImpactTime(h0, sqrt)
    ensures var kept := Truncated(FallGrid(h0, total, n), Impact(h0, sqrt));
      |kept| >= 2 && kept[|kept| - 1] == Impact(h0, sqrt)
  {
    var grid := FallGrid(h0, total, n);
    ImpactOnTrajectory(h0, sqrt);
    GridOnTrajectory(h0, total, n);
    assert grid[0].y == h0;
    AboveGroundBeforeImpact(h0, grid[n - 1].t, sqrt);
    forall i | 0 <= i < |grid| && grid[i].y >= 0.0
      ensures (grid[i].y > 0.0 && grid[i].t < ImpactTime(h0, sqrt)) || grid[i] == Impact(h0, sqrt)
    {
      BeforeOrAtImpact(h0, grid[i], sqrt);
    }
    TruncatedEndsAtImpact(grid, Impact(h0, sqrt));
  }

  // ---------------------------------------------------------- the wrapper

  datatype CaidaParametros = CaidaParametros(alturaInicial: real, tiempoTotalSimulacion: Option<real>, numPuntos: int)

  /** Unpacking the outcome into five names: the three empty lists of a body
    * on the ground do not unpack. */
  function Desempaquetar(r: Result<CaidaLibre>): (u: Result<CaidaLibre>)
    ensures r.Ok? && r.value.SinCaida? ==> u == Err(ValueError("not enough values to unpack (expected 5, got 3)"))
    ensures !(r.Ok? && r.value.SinCaida?) ==> u == r
  {
    if r.Ok? && r.value.SinCaida? then Err(ValueError("not enough values to unpack (expected 5, got 3)")) else r
  }

  method SimularCaidaLibre(h0: real, tiempoTotal: Option<real>, numPuntos: int, sqrt: real -> real)
    returns (out: Simulacion<CaidaParametros, CaidaLibre>)
    requires IsSqrt(sqrt)
    ensures h0 <= 0.0 ==>
      out == Fallo("not enough values to unpack (expected 5, got 3)", "Error en los parámetros de entrada.")
    ensures h0 > 0.0 && numPuntos < 0 ==>
      out == Fallo("Number of samples, " + IntToString(numPuntos) + ", must be non-negative.",
                   "Error en los parámetros de entrada.")
    ensures h0 > 0.0 && numPuntos >= 0 ==>
      out.Exito?
      && out.parametros == CaidaParametros(h0, tiempoTotal, numPuntos)
      && IsFilteredFall(out.resultados, h0, tiempoTotal, numPuntos, sqrt)
      && out.mensaje == "Simulación de caída libre calculada exitosamente."
  {
    var r := CalcularCaidaLibre(h0, tiempoTotal, numPuntos, sqrt);
    out := Simular(CaidaParametros(h0, tiempoTotal, numPuntos), Desempaquetar(r),
                   "Simulación de caída libre calculada exitosamente.");
  }
}
