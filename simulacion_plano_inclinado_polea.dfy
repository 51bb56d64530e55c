/** The simulation of a block on an incline tied over a pulley to a hanging
  * mass: the direction and size of the acceleration, then one state per
  * grid time with both bodies moving together from rest. */
module SimulacionPlanoInclinadoPolea {
  import opened Py
  import opened Grid
  import FormulasDinamica

  /** 1 when the hanging mass pulls the block up the slope, -1 when the block
    * slides down, 0 when neither net force is positive. */
  function Direccion(arriba: real, abajo: real): (d: real)
    ensures d == 1.0 || d == -1.0 || d == 0.0
    ensures d == 1.0 <==> arriba > 0.0
    ensures d == -1.0 <==> arriba <= 0.0 && abajo > 0.0
  {
    if arriba > 0.0 then 1.0 else if abajo > 0.0 then -1.0 else 0.0
  }

  /** The tension each state reports for a direction. */
  function TensionEstado(direccion: real, aceleracion: real, m2: real, gravedad: real): real
  {
    if direccion == 1.0 then m2 * gravedad - m2 * aceleracion
    else if direccion == -1.0 then m2 * gravedad + m2 * aceleracion
    else m2 * gravedad
  }

  /** One state dictionary, both bodies sharing position, speed and
    * acceleration. */
  function Fila(t: real, x: real, v: real, aceleracion: real, tension: real): Dict
  {
    map["tiempo" := t, "posicion_masa1" := x, "posicion_masa2" := x,
        "velocidad_masa1" := v, "velocidad_masa2" := v,
        "aceleracion_masa1" := aceleracion, "aceleracion_masa2" := aceleracion,
        "tension" := tension]
  }

  /** The state at grid index i and time t: zero at the start, then
    * v = a t d and x = a t^2 d / 2 for both bodies. */
  function Estado(i: nat, t: real, aceleracion: real, direccion: real, tension: real): Dict
  {
    Fila(t, PosicionEstado(i, t, aceleracion, direccion), VelocidadEstado(i, t, aceleracion, direccion),
         aceleracion * direccion, tension)
  }

  function PosicionEstado(i: nat, t: real, aceleracion: real, direccion: real): real
  {
    if i == 0 then 0.0 else 0.0 + 0.0 * t * direccion + 0.5 * aceleracion * t * t * direccion
  }

  function VelocidadEstado(i: nat, t: real, aceleracion: real, direccion: real): real
  {
    if i == 0 then 0.0 else 0.0 + aceleracion * t * direccion
  }

  /** A row built from the state's own position and speed is that state. */
  lemma FilaIsEstado(i: nat, t: real, x: real, v: real, aceleracion: real, direccion: real, tension: real)
    requires x == PosicionEstado(i, t, aceleracion, direccion)
    requires v == VelocidadEstado(i, t, aceleracion, direccion)
    ensures Fila(t, x, v, aceleracion * direccion, tension) == Estado(i, t, aceleracion, direccion, tension)
  {
  }

  /** The state loop: one state per grid time, the tension recomputed per
    * state from the direction. */
  method Estados(tiempos: seq<real>, aceleracion: real, direccion: real, m2: real, gravedad: real)
    returns (estados: seq<Dict>)
    ensures |estados| == |tiempos|
    ensures forall i :: 0 <= i < |tiempos| ==>
      estados[i] == Estado(i, tiempos[i], aceleracion, direccion, TensionEstado(direccion, aceleracion, m2, gravedad))
  {
    estados := [];
    var tension := 0.0;
    for i := 0 to |tiempos|
      invariant |estados| == i
      invariant forall j :: 0 <= j < i ==>
        estados[j] == Estado(j, tiempos[j], aceleracion, direccion, TensionEstado(direccion, aceleracion, m2, gravedad))
    {
      var t := tiempos[i];
      var x, v;
      if i == 0 {
        x, v := 0.0, 0.0;
      } else {
        v := 0.0 + aceleracion * t * direccion;
        x := 0.0 + 0.0 * t * direccion + 0.5 * aceleracion * t * t * direccion;
      }
      if direccion == 1.0 {
        tension := m2 * gravedad - m2 * aceleracion;
      } else if direccion == -1.0 {
        tension := m2 * gravedad + m2 * aceleracion;
      } else {
        tension := m2 * gravedad;
      }
      FilaIsEstado(i, t, x, v, aceleracion, direccion, tension);
      estados := estados + [Fila(t, x, v, aceleracion * direccion, tension)];
    }
  }

  const FORMULAS_APLICADAS: seq<string> := [
    "Segunda Ley de Newton: ΣF = ma",
    "Fuerza de Rozamiento Cinético: f_k = μ_k * N",
    "Componentes de la gravedad en un plano inclinado: mg*sin(θ) y mg*cos(θ)",
    "Ecuaciones de cinemática para movimiento uniformemente acelerado: v = v₀ + at, x = x₀ + v₀t + ½at²"
  ]

  /** The dictionary the simulation returns. */
  datatype Simulacion = Simulacion(parametros: Dict, estadosSimulacion: seq<Dict>, formulasAplicadas: seq<string>)

  /** simular_plano_inclinado_polea. A moving system whose masses add to
    * zero divides a numpy float by zero, which raises nothing: the infinite
    * acceleration reaches the answer through the first state, and with no
    * grid points there is none. The grid refuses a negative point count
    * first. */
  method SimularPlanoInclinadoPolea(m1: real, m2: real, grados: real, mu: real, tiempoTotal: real, numPuntos: int,
                                    gravedad: real, sin: real -> real, cos: real -> real)
    returns (r: Result<Simulacion>)
    ensures var s, c := sin(Deg2Rad(grados)), cos(Deg2Rad(grados));
      var up := FormulasDinamica.NetaArriba(m1, m2, mu, gravedad, s, c);
      var down := FormulasDinamica.NetaAbajo(m1, m2, mu, gravedad, s, c);
      var d := Direccion(up, down);
      && (numPuntos < 0 ==> r == Err(Linspace(tiempoTotal, numPuntos).error))
      && (numPuntos >= 1 && d != 0.0 && m1 + m2 == 0.0 ==> r == Err(NonFinite))
      && (numPuntos == 0 && d != 0.0 && m1 + m2 == 0.0 ==>
            r.Ok? && r.value.estadosSimulacion == [] && r.value.formulasAplicadas == FORMULAS_APLICADAS
            && r.value.parametros
               == map["masa1" := m1, "masa2" := m2, "angulo_inclinacion_grados" := grados,
                      "coeficiente_rozamiento_cinetico" := mu, "tiempo_total_simulacion" := tiempoTotal,
                      "num_puntos" := 0.0, "gravedad" := gravedad])
      && (numPuntos >= 0 && (d == 0.0 || m1 + m2 != 0.0) ==>
            var a := if d == 1.0 then up / (m1 + m2) else if d == -1.0 then down / (m1 + m2) else 0.0;
            var ts := Linspace(tiempoTotal, numPuntos).value;
            r.Ok?
            && r.value.parametros
               == map["masa1" := m1, "masa2" := m2, "angulo_inclinacion_grados" := grados,
                      "coeficiente_rozamiento_cinetico" := mu, "tiempo_total_simulacion" := tiempoTotal,
                      "num_puntos" := numPuntos as real, "gravedad" := gravedad]
            && |r.value.estadosSimulacion| == |ts|
            && (forall i :: 0 <= i < |ts| ==>
                  r.value.estadosSimulacion[i] == Estado(i, ts[i], a, d, TensionEstado(d, a, m2, gravedad)))
            && r.value.formulasAplicadas == FORMULAS_APLICADAS)
  {
    var anguloRad := Deg2Rad(grados);
    var arriba := FormulasDinamica.NetaArriba(m1, m2, mu, gravedad, sin(anguloRad), cos(anguloRad));
    var abajo := FormulasDinamica.NetaAbajo(m1, m2, mu, gravedad, sin(anguloRad), cos(anguloRad));
    var aceleracion := 0.0;
    var direccion := 0.0;
    var divisionPorCero := false;
    if arriba > 0.0 {
      if m1 + m2 == 0.0 { divisionPorCero := true; } else { aceleracion := arriba / (m1 + m2); }
      direccion := 1.0;
    } else if abajo > 0.0 {
      if m1 + m2 == 0.0 { divisionPorCero := true; } else { aceleracion := abajo / (m1 + m2); }
      direccion := -1.0;
    }
    var tiempos :- Linspace(tiempoTotal, numPuntos);
    if divisionPorCero && numPuntos > 0 {
      return Err(NonFinite);
    }
    var estados := Estados(tiempos, aceleracion, direccion, m2, gravedad);
    var parametros := map["masa1" := m1, "masa2" := m2, "angulo_inclinacion_grados" := grados,
                          "coeficiente_rozamiento_cinetico" := mu, "tiempo_total_simulacion" := tiempoTotal,
                          "num_puntos" := numPuntos as real, "gravedad" := gravedad];
    r := Ok(Simulacion(parametros, estados, FORMULAS_APLICADAS));
  }

  /** Every state is motion from rest under the acceleration it reports:
    * v = a t and x = a t^2 / 2 for both bodies, with a = 0 at rest. */
  lemma EstadoIsUniformlyAccelerated(i: nat, t: real, aceleracion: real, direccion: real, tension: real)
    requires i > 0 || t == 0.0
    ensures var e := Estado(i, t, aceleracion, direccion, tension);
      e["velocidad_masa1"] == e["velocidad_masa2"] == e["aceleracion_masa1"] * t
      && e["posicion_masa1"] == e["posicion_masa2"] == 0.5 * e["aceleracion_masa1"] * t * t
  {
    var e := Estado(i, t, aceleracion, direccion, tension);
    assert e["aceleracion_masa1"] == aceleracion * direccion;
    assert e["posicion_masa1"] == 0.5 * (aceleracion * direccion) * t * t;
  }

  /** While the system moves, the acceleration and the per-state tension are
    * those of the branched formula module; at rest the states report m2 g
    * even where that module gives the slope's pull less friction. */
  lemma StatesAgreeWithFormulas(m1: real, m2: real, grados: real, mu: real, gravedad: real,
                                sin: real -> real, cos: real -> real)
    requires m1 + m2 != 0.0
    ensures var s, c := sin(Deg2Rad(grados)), cos(Deg2Rad(grados));
      var up := FormulasDinamica.NetaArriba(m1, m2, mu, gravedad, s, c);
      var down := FormulasDinamica.NetaAbajo(m1, m2, mu, gravedad, s, c);
      var d := Direccion(up, down);
      var a := if d == 1.0 then up / (m1 + m2) else if d == -1.0 then down / (m1 + m2) else 0.0;
      var p := FormulasDinamica.CalcularPlanoInclinadoPoleaFormulas(m1, m2, grados, mu, gravedad, sin, cos).value;
      && a == p.aceleracion
      && (d != 0.0 ==> TensionEstado(d, a, m2, gravedad) == p.tension)
      && (d == 0.0 ==>
            TensionEstado(d, a, m2, gravedad) == m2 * gravedad
            && (FormulasDinamica.Tiro(m1, gravedad, s) > m2 * gravedad ==>
                  p.tension == FormulasDinamica.Tiro(m1, gravedad, s) - FormulasDinamica.Roce(mu, m1, gravedad, c)))
  {
    var s, c := sin(Deg2Rad(grados)), cos(Deg2Rad(grados));
    var up := FormulasDinamica.NetaArriba(m1, m2, mu, gravedad, s, c);
    var down := FormulasDinamica.NetaAbajo(m1, m2, mu, gravedad, s, c);
    var p := FormulasDinamica.CalcularPlanoInclinadoPoleaFormulas(m1, m2, grados, mu, gravedad, sin, cos).value;
    if up > 0.0 {
      CancelFactor(m1 + m2, p.aceleracion, up / (m1 + m2));
    } else if down > 0.0 {
      CancelFactor(m1 + m2, p.aceleracion, down / (m1 + m2));
    }
  }
}
