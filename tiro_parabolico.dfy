/** The projectile sampler of the equation package: split the launch speed
  * into components (snapping launches within 1e-6 degrees of horizontal or
  * vertical), choose a simulation time, sample the flight on a uniform grid,
  * and keep it down to the ground with a closing sample at that time. */
module EcuacionesTiroParabolico {
  import opened Py
  import opened Grid
  import opened GroundFilter
  import opened EcuacionesCinematicas
  import FormulasCinematica

  const TOLERANCIA: real := 0.000001

  /** numpy's deg2rad of the launch angle, its cosine and sine, and the two
    * snaps: a horizontal launch has no vertical component and a vertical one
    * no horizontal component. */
  function Componentes(v0: real, grados: real, sin: real -> real, cos: real -> real): (c: (real, real))
    ensures Abs(grados) < TOLERANCIA || Abs(grados - 180.0) < TOLERANCIA ==>
      c.0 == v0 * cos(Deg2Rad(grados)) && c.1 == 0.0
    ensures !(Abs(grados) < TOLERANCIA || Abs(grados - 180.0) < TOLERANCIA) && Abs(grados - 90.0) < TOLERANCIA ==>
      c.0 == 0.0 && c.1 == v0 * sin(Deg2Rad(grados))
    ensures !(Abs(grados) < TOLERANCIA || Abs(grados - 180.0) < TOLERANCIA || Abs(grados - 90.0) < TOLERANCIA) ==>
      c.0 == FormulasCinematica.CalcularComponentesVelocidadInicial(v0, cos(Deg2Rad(grados)), sin(Deg2Rad(grados))).0
      && c.1 == FormulasCinematica.CalcularComponentesVelocidadInicial(v0, cos(Deg2Rad(grados)), sin(Deg2Rad(grados))).1
  {
    var rad := Deg2Rad(grados);
    if Abs(grados) < TOLERANCIA || Abs(grados - 180.0) < TOLERANCIA then (v0 * cos(rad), 0.0)
    else if Abs(grados - 90.0) < TOLERANCIA then (0.0, v0 * sin(rad))
    else (v0 * cos(rad), v0 * sin(rad))
  }

  /** Snapping only drops a component: the launch velocity is never faster
    * than v0, and exactly v0 fast away from the snapped angles. */
  lemma ComponentsWithinLaunchSpeed(v0: real, grados: real, sin: real -> real, cos: real -> real)
    requires IsSinCos(sin, cos)
    ensures var c := Componentes(v0, grados, sin, cos);
      c.0 * c.0 + c.1 * c.1 <= v0 * v0
    ensures !(Abs(grados) < TOLERANCIA || Abs(grados - 180.0) < TOLERANCIA || Abs(grados - 90.0) < TOLERANCIA) ==>
      var c := Componentes(v0, grados, sin, cos);
      c.0 * c.0 + c.1 * c.1 == v0 * v0
  {
    var rad := Deg2Rad(grados);
    var s, k := sin(rad), cos(rad);
    assert s * s + k * k == 1.0;
    SquareNonNegative(s);
    SquareNonNegative(k);
    SquareNonNegative(v0);
    assert (v0 * k) * (v0 * k) == (v0 * v0) * (k * k);
    assert (v0 * s) * (v0 * s) == (v0 * v0) * (s * s);
    MulNonNegative(v0 * v0, s * s);
    MulNonNegative(v0 * v0, k * k);
  }

  /** The simulation time as the code chooses it, with a = -g/2, b = v0y and
    * c = h0. When the discriminant is negative, numpy's square root of the
    * negative number is nan, so the downward branch always falls back to 1. */
  function TiempoTotalSimulacion(v0y: real, h0: real, sqrt: real -> real): (t: real)
    requires IsSqrt(sqrt)
    ensures t > 0.0
    ensures FormulasCinematica.LandingDiscriminant(v0y, h0) < 0.0 ==>
      t == (if v0y <= 0.0 then 1.0 else 2.0 * (v0y / GRAVEDAD))
    ensures FormulasCinematica.LandingDiscriminant(v0y, h0) >= 0.0 ==>
      var later := FormulasCinematica.LaterRoot(h0, v0y, sqrt);
      t == (if later > 0.0 then later else 1.0)
  {
    var a := -0.5 * GRAVEDAD;
    var disc := v0y * v0y - 4.0 * a * h0;
    assert disc == FormulasCinematica.LandingDiscriminant(v0y, h0);
    if disc < 0.0 then
      var tmax := v0y / GRAVEDAD;
      if tmax <= 0.0 then 1.0 else tmax * 2.0
    else
      var t1 := (-v0y + sqrt(disc)) / (2.0 * a);
      var t2 := (-v0y - sqrt(disc)) / (2.0 * a);
      RootsAreLandingRoots(v0y, h0, sqrt(disc));
      FormulasCinematica.LaterRootLands(h0, v0y, sqrt);
      var t := Max(t1, t2);
      if t <= 0.0 then (if t2 > 0.0 then t2 else if t1 > 0.0 then t1 else 1.0) else t
  }

  /** The code's roots (-b +- s) / 2a with a = -g/2 are the earlier and the
    * later landing root. */
  lemma RootsAreLandingRoots(v0y: real, h0: real, s: real)
    ensures (-v0y + s) / (2.0 * (-0.5 * GRAVEDAD)) == (v0y - s) / GRAVEDAD
    ensures (-v0y - s) / (2.0 * (-0.5 * GRAVEDAD)) == (v0y + s) / GRAVEDAD
  {
    assert 2.0 * (-0.5 * GRAVEDAD) == -GRAVEDAD;
  }

  function HelperX(v0x: real, ts: seq<real>): (xs: seq<real>)
    ensures |xs| == |ts|
    ensures forall i :: 0 <= i < |ts| ==> xs[i] == v0x * ts[i]
  {
    seq(|ts|, i requires 0 <= i < |ts| => CalcularPosicionFinalTiempo(0.0, v0x, 0.0, ts[i]))
  }

  function HelperY(h0: real, v0y: real, ts: seq<real>): (ys: seq<real>)
    ensures |ys| == |ts|
    ensures forall i :: 0 <= i < |ts| ==> ys[i] == FormulasCinematica.ProjectileHeight(h0, v0y, ts[i])
  {
    seq(|ts|, i requires 0 <= i < |ts| => CalcularPosicionFinalTiempo(h0, v0y, -GRAVEDAD, ts[i]))
  }

  /** The flight sampled at the given times, as (time, height, horizontal
    * position). */
  function FlightSamples(v0x: real, v0y: real, h0: real, ts: seq<real>): (s: seq<Sample>)
    ensures |s| == |ts|
    ensures forall i :: 0 <= i < |ts| ==>
      s[i] == Sample(ts[i], FormulasCinematica.ProjectileHeight(h0, v0y, ts[i]), v0x * ts[i])
  {
    Zip3(ts, HelperY(h0, v0y, ts), HelperX(v0x, ts))
  }

  function FlightGrid(v0x: real, v0y: real, h0: real, total: real, n: nat): seq<Sample>
  {
    FlightSamples(v0x, v0y, h0, Linspace(total, n).value)
  }

  /** The closing sample (T, 0, v0x T). */
  function Landing(v0x: real, total: real): Sample
  {
    Sample(total, 0.0, v0x * total)
  }

  /** What calcular_tiro_parabolico returns: three empty lists for a launch
    * speed that is not positive, otherwise the kept times, x and y, the
    * simulation time and one {tiempo, posicion_x, posicion_y} row per kept
    * sample. */
  datatype TiroParabolico =
    | SinLanzamiento
    | Tiro(tiempos: seq<real>, posicionesX: seq<real>, posicionesY: seq<real>, tiempoTotal: real,
           estados: seq<Dict>)

  function FlightRows(ts: seq<real>, xs: seq<real>, ys: seq<real>): (rows: seq<Dict>)
    requires |ts| == |xs| == |ys|
    ensures |rows| == |ts|
    ensures forall i :: 0 <= i < |ts| ==>
      rows[i] == map["tiempo" := ts[i], "posicion_x" := xs[i], "posicion_y" := ys[i]]
  {
    seq(|ts|, i requires 0 <= i < |ts| => map["tiempo" := ts[i], "posicion_x" := xs[i], "posicion_y" := ys[i]])
  }

  method CalcularTiroParabolico(v0: real, grados: real, h0: real, numPuntos: int,
                                sqrt: real -> real, sin: real -> real, cos: real -> real)
    returns (r: Result<TiroParabolico>)
    requires IsSqrt(sqrt)
    ensures v0 <= 0.0 ==> r == Ok(SinLanzamiento)
    ensures v0 > 0.0 && numPuntos < 0 ==>
      r == Err(ValueError("Number of samples, " + IntToString(numPuntos) + ", must be non-negative."))
    ensures v0 > 0.0 && numPuntos >= 0 ==>
      var c := Componentes(v0, grados, sin, cos);
      r.Ok? && r.value.Tiro?
      && r.value.tiempoTotal == TiempoTotalSimulacion(c.1, h0, sqrt)
      && |r.value.tiempos| == |r.value.posicionesX| == |r.value.posicionesY|
      && Zip3(r.value.tiempos, r.value.posicionesY, r.value.posicionesX)
         == Truncated(FlightGrid(c.0, c.1, h0, r.value.tiempoTotal, numPuntos), Landing(c.0, r.value.tiempoTotal))
      && r.value.estados == FlightRows(r.value.tiempos, r.value.posicionesX, r.value.posicionesY)
  {
    if v0 <= 0.0 {
      return Ok(SinLanzamiento);
    }
    var c := Componentes(v0, grados, sin, cos);
    var total := TiempoTotalSimulacion(c.1, h0, sqrt);
    var tiempos :- Linspace(total, numPuntos);
    var xs := HelperX(c.0, tiempos);
    var ys := HelperY(h0, c.1, tiempos);
    var landing := Sample(total, 0.0, CalcularPosicionFinalTiempo(0.0, c.0, 0.0, total));
    assert landing == Landing(c.0, total);
    assert Zip3(tiempos, ys, xs) == FlightGrid(c.0, c.1, h0, total, numPuntos);
    var kt, ky, kx := FilterAboveGround(tiempos, ys, xs, landing);
    r := Ok(Tiro(kt, kx, ky, total, FlightRows(kt, kx, ky)));
  }

  // ------------------------------------------------- what the filter keeps

  /** From a launch height on or above the ground the earlier landing root is
    * not after the launch. */
  lemma EarlierRootNotAfterLaunch(h0: real, v0y: real, sqrt: real -> real)
    requires IsSqrt(sqrt)
    requires h0 >= 0.0
    ensures FormulasCinematica.EarlierRoot(h0, v0y, sqrt) <= 0.0
  {
    var d := FormulasCinematica.LandingDiscriminant(v0y, h0);
    var s := sqrt(d);
    assert s >= 0.0 && s * s == d;
    assert d >= v0y * v0y by { MulNonNegative(2.0 * GRAVEDAD, h0); }
    if v0y > s {
      SquareStrictlyIncreasing(s, v0y);
    }
  }

  /** Between the two landing roots the projectile is on or above the ground. */
  lemma AboveGroundBetweenRoots(h0: real, v0y: real, sqrt: real -> real, t: real)
    requires IsSqrt(sqrt)
    requires FormulasCinematica.LandingDiscriminant(v0y, h0) >= 0.0
    requires FormulasCinematica.EarlierRoot(h0, v0y, sqrt) <= t <= FormulasCinematica.LaterRoot(h0, v0y, sqrt)
    ensures FormulasCinematica.ProjectileHeight(h0, v0y, t) >= 0.0
  {
    var s := sqrt(FormulasCinematica.LandingDiscriminant(v0y, h0));
    var t1 := FormulasCinematica.LaterRoot(h0, v0y, sqrt);
    var t2 := FormulasCinematica.EarlierRoot(h0, v0y, sqrt);
    assert GRAVEDAD * t1 == v0y + s && GRAVEDAD * t2 == v0y - s;
    assert s * s == v0y * v0y + 2.0 * GRAVEDAD * h0;
    assert FormulasCinematica.ProjectileHeight(h0, v0y, t) == 0.5 * GRAVEDAD * ((t1 - t) * (t - t2)) by {
      calc {
        0.5 * GRAVEDAD * ((t1 - t) * (t - t2));
        -0.5 * GRAVEDAD * t * t + 0.5 * t * (GRAVEDAD * t1 + GRAVEDAD * t2) - 0.5 * (GRAVEDAD * t1) * t2;
        -0.5 * GRAVEDAD * t * t + v0y * t - 0.5 * ((v0y + s) * (v0y - s)) / GRAVEDAD;
        { assert (v0y + s) * (v0y - s) == v0y * v0y - s * s; }
        -0.5 * GRAVEDAD * t * t + v0y * t + h0;
      }
    }
    MulNonNegative(t1 - t, t - t2);
  }

  /** Launched from on or above the ground with a positive later root, the
    * simulation time is the landing time: the grid never goes below the
    * ground, nothing is cut, and with two points or more the last sample is
    * the landing (T, 0, v0x T). */
  lemma WholeFlightKept(v0x: real, v0y: real, h0: real, n: nat, sqrt: real -> real)
    requires IsSqrt(sqrt)
    requires h0 >= 0.0 && FormulasCinematica.LaterRoot(h0, v0y, sqrt) > 0.0
    ensures var total := TiempoTotalSimulacion(v0y, h0, sqrt);
      var grid := FlightGrid(v0x, v0y, h0, total, n);
      total == FormulasCinematica.LaterRoot(h0, v0y, sqrt)
      && Truncated(grid, Landing(v0x, total)) == grid
      && (n >= 2 ==> grid[n - 1] == Landing(v0x, total))
  {
    var total := TiempoTotalSimulacion(v0y, h0, sqrt);
    var ts := Linspace(total, n).value;
    var grid := FlightGrid(v0x, v0y, h0, total, n);
    assert FormulasCinematica.LandingDiscriminant(v0y, h0) >= 0.0 by {
      SquareNonNegative(v0y);
      MulNonNegative(2.0 * GRAVEDAD, h0);
    }
    EarlierRootNotAfterLaunch(h0, v0y, sqrt);
    FormulasCinematica.LaterRootLands(h0, v0y, sqrt);
    forall i | 0 <= i < |grid|
      ensures grid[i].y >= 0.0
    {
      GridBounds(total, n, i);
      AboveGroundBetweenRoots(h0, v0y, sqrt, ts[i]);
    }
    AboveGroundKeptWhole(grid, Landing(v0x, total));
    LinspaceShape(total, n);
  }

  /** Launched from below the ground, every grid sample is below it and the
    * series is the closing sample alone, at a height of 0 the projectile
    * never had. */
  lemma BelowGroundLaunchGivesLandingOnly(v0x: real, v0y: real, h0: real, n: nat, sqrt: real -> real)
    requires IsSqrt(sqrt)
    requires h0 < 0.0 && n >= 1
    ensures var total := TiempoTotalSimulacion(v0y, h0, sqrt);
      Truncated(FlightGrid(v0x, v0y, h0, total, n), Landing(v0x, total)) == [Landing(v0x, total)]
  {
    var total := TiempoTotalSimulacion(v0y, h0, sqrt);
    var grid := FlightGrid(v0x, v0y, h0, total, n);
    LinspaceShape(total, n);
    assert grid[0].y == h0;
    assert FirstBelowGround(grid) == 0;
  }

  /** Nothing kept is below the ground, and the kept times run forward. */
  lemma KeptAboveGroundInOrder(v0x: real, v0y: real, h0: real, n: nat, sqrt: real -> real)
    requires IsSqrt(sqrt)
    ensures var total := TiempoTotalSimulacion(v0y, h0, sqrt);
      var kept := Truncated(FlightGrid(v0x, v0y, h0, total, n), Landing(v0x, total));
      (forall i :: 0 <= i < |kept| ==> kept[i].y >= 0.0) && NonDecreasingTimes(kept)
  {
    var total := TiempoTotalSimulacion(v0y, h0, sqrt);
    var grid := FlightGrid(v0x, v0y, h0, total, n);
    TruncatedAboveGround(grid, Landing(v0x, total));
    forall i, j | 0 <= i <= j < |grid|
      ensures grid[i].t <= grid[j].t
    {
      GridMonotone(total, n, i, j);
    }
    TruncatedTimesNonDecreasing(grid, Landing(v0x, total));
  }
}
