/** The block pushed along the floor as the equation package computes it: the
  * forces of the formula module, save the sign of the static friction, then
  * the motion from rest under the resulting constant acceleration, sampled
  * on a grid with one [t, x, v] animation row per sample. */
module EcuacionesLeyesNewton {
  import opened Py
  import opened Grid
  import FormulasDinamica

  /** The dictionary calcular_fuerzas_leyes_newton returns. */
  datatype LeyesNewton = LeyesNewton(fuerzaNormal: real, fuerzaRozamientoEstaticoMax: real, fuerzaRozamiento: real,
                                     fuerzaNeta: real, aceleracion: real, tiempos: seq<real>,
                                     posiciones: seq<real>, velocidades: seq<real>,
                                     estadoAnimacion: seq<seq<real>>)

  /** The forces: a block held by static friction reports the friction as
    * -F_x, where the formula module reports F_x; every other value, and the
    * outcome of a moving massless block, are the formula module's. */
  function CalcularFuerzas(masa: real, fuerza: real, grados: real, muS: real, muK: real,
                           sin: real -> real, cos: real -> real): (r: Result<FormulasDinamica.Fuerzas>)
    ensures var f := FormulasDinamica.CalcularFuerzasLeyesNewton(masa, fuerza, grados, muS, muK, sin, cos);
      && (r.Ok? <==> f.Ok?)
      && (r.Err? ==> r == f)
      && (r.Ok? ==>
            r.value.fuerzaNormal == f.value.fuerzaNormal
            && r.value.fuerzaRozamientoEstaticoMax == f.value.fuerzaRozamientoEstaticoMax
            && r.value.fuerzaNeta == f.value.fuerzaNeta && r.value.aceleracion == f.value.aceleracion
            && r.value.fuerzaRozamiento
               == (if Abs(FormulasDinamica.FuerzaX(fuerza, grados, cos)) <= f.value.fuerzaRozamientoEstaticoMax
                   then -f.value.fuerzaRozamiento else f.value.fuerzaRozamiento))
  {
    FuerzasSuelo(masa, FormulasDinamica.FuerzaX(fuerza, grados, cos),
                 FormulasDinamica.NormalSuelo(masa, FormulasDinamica.FuerzaY(fuerza, grados, sin)), muS, muK)
  }

  /** The same decision once the horizontal push fx and the normal force n
    * are known: only the sign of the static friction differs from the
    * formula module. */
  function FuerzasSuelo(masa: real, fx: real, n: real, muS: real, muK: real): (r: Result<FormulasDinamica.Fuerzas>)
    ensures var f := FormulasDinamica.FuerzasSuelo(masa, fx, n, muS, muK);
      && (r.Ok? <==> f.Ok?)
      && (r.Err? ==> r == f)
      && (r.Ok? ==>
            r.value.fuerzaNormal == f.value.fuerzaNormal
            && r.value.fuerzaRozamientoEstaticoMax == f.value.fuerzaRozamientoEstaticoMax
            && r.value.fuerzaNeta == f.value.fuerzaNeta && r.value.aceleracion == f.value.aceleracion
            && r.value.fuerzaRozamiento
               == (if Abs(fx) <= f.value.fuerzaRozamientoEstaticoMax then -f.value.fuerzaRozamiento
                   else f.value.fuerzaRozamiento))
  {
    if Abs(fx) <= muS * n then Ok(FormulasDinamica.Fuerzas(n, muS * n, -fx, 0.0, 0.0))
    else if masa == 0.0 then Err(NonFinite)
    else Ok(FormulasDinamica.Fuerzas(n, muS * n, Sign(fx) * (muK * n), fx - Sign(fx) * (muK * n),
                                     (fx - Sign(fx) * (muK * n)) / masa))
  }

  /** Held by static friction, the block's friction cancels the push:
    * F_x + friction = 0. */
  lemma StaticFrictionCancelsPush(masa: real, fuerza: real, grados: real, muS: real, muK: real,
                                  sin: real -> real, cos: real -> real)
    requires CalcularFuerzas(masa, fuerza, grados, muS, muK, sin, cos).Ok?
    requires var f := CalcularFuerzas(masa, fuerza, grados, muS, muK, sin, cos).value;
      Abs(FormulasDinamica.FuerzaX(fuerza, grados, cos)) <= f.fuerzaRozamientoEstaticoMax
    ensures var f := CalcularFuerzas(masa, fuerza, grados, muS, muK, sin, cos).value;
      FormulasDinamica.FuerzaX(fuerza, grados, cos) + f.fuerzaRozamiento == 0.0
      && f.aceleracion == 0.0 && f.fuerzaNeta == 0.0
  {
    var g := FormulasDinamica.CalcularFuerzasLeyesNewton(masa, fuerza, grados, muS, muK, sin, cos);
    assert g.Ok?;
  }

  /** The velocities v = a t from rest: each one, divided by its time,
    * gives back the acceleration, and the block is still at t = 0. */
  function Velocidades(a: real, ts: seq<real>): (vs: seq<real>)
    ensures |vs| == |ts|
    ensures forall i :: 0 <= i < |ts| && ts[i] != 0.0 ==> vs[i] / ts[i] == a
    ensures forall i :: 0 <= i < |ts| && ts[i] == 0.0 ==> vs[i] == 0.0
  {
    seq(|ts|, i requires 0 <= i < |ts| => a * ts[i])
  }

  /** The positions x = a t^2 / 2 from rest: each one is the distance
    * covered at the mean velocity v / 2 up to its time. */
  function Posiciones(a: real, ts: seq<real>): (xs: seq<real>)
    ensures |xs| == |ts|
    ensures forall i :: 0 <= i < |ts| ==> xs[i] == 0.5 * Velocidades(a, ts)[i] * ts[i]
  {
    seq(|ts|, i requires 0 <= i < |ts| => 0.5 * a * ts[i] * ts[i])
  }

  /** Each sampled position and velocity satisfy v^2 = 2 a x, and a block
    * with no acceleration stays at the origin. */
  lemma TrajectoryFromRest(a: real, ts: seq<real>, i: nat)
    requires i < |ts|
    ensures Velocidades(a, ts)[i] * Velocidades(a, ts)[i] == 2.0 * a * Posiciones(a, ts)[i]
    ensures a == 0.0 ==> Posiciones(a, ts)[i] == 0.0 && Velocidades(a, ts)[i] == 0.0
  {
    var t := ts[i];
    assert Velocidades(a, ts)[i] == a * t;
    assert Posiciones(a, ts)[i] == 0.5 * a * t * t;
    assert (a * t) * (a * t) == 2.0 * a * (0.5 * a * t * t);
  }

  /** calcular_fuerzas_leyes_newton of the equation package. A negative
    * duration raises once the forces are known; the grid then has the
    * clamped number of points and the animation one row per point. */
  method CalcularFuerzasLeyesNewton(masa: real, fuerza: real, grados: real, muS: real, muK: real,
                                    tiempoTotal: real, numPuntos: int, sin: real -> real, cos: real -> real)
    returns (r: Result<LeyesNewton>)
    ensures var f := CalcularFuerzas(masa, fuerza, grados, muS, muK, sin, cos);
      && (tiempoTotal < 0.0 ==> r == Err(ValueError("El tiempo total no puede ser negativo.")))
      && (tiempoTotal >= 0.0 && f.Err? ==> r == Err(f.error))
      && (tiempoTotal >= 0.0 && f.Ok? ==>
            r.Ok?
            && r.value.fuerzaNormal == f.value.fuerzaNormal
            && r.value.fuerzaRozamientoEstaticoMax == f.value.fuerzaRozamientoEstaticoMax
            && r.value.fuerzaRozamiento == f.value.fuerzaRozamiento
            && r.value.fuerzaNeta == f.value.fuerzaNeta
            && r.value.aceleracion == f.value.aceleracion
            && r.value.tiempos == Linspace(tiempoTotal, ClampPoints(numPuntos, tiempoTotal)).value
            && r.value.posiciones == Posiciones(r.value.aceleracion, r.value.tiempos)
            && r.value.velocidades == Velocidades(r.value.aceleracion, r.value.tiempos)
            && r.value.estadoAnimacion == Rows3(r.value.tiempos, r.value.posiciones, r.value.velocidades))
  {
    var fuerzas := CalcularFuerzas(masa, fuerza, grados, muS, muK, sin, cos);
    if tiempoTotal < 0.0 {
      return Err(ValueError("El tiempo total no puede ser negativo."));
    }
    if fuerzas.Err? {
      return Err(fuerzas.error);
    }
    var f := fuerzas.value;
    var n := ClampPoints(numPuntos, tiempoTotal);
    var tiempos := Linspace(tiempoTotal, n).value;
    var posiciones := Posiciones(f.aceleracion, tiempos);
    var velocidades := Velocidades(f.aceleracion, tiempos);
    var estado := AppendRows3(tiempos, posiciones, velocidades);
    r := Ok(LeyesNewton(f.fuerzaNormal, f.fuerzaRozamientoEstaticoMax, f.fuerzaRozamiento, f.fuerzaNeta,
                        f.aceleracion, tiempos, posiciones, velocidades, estado));
  }
}
