/** The collision calculators of the equation and simulation packages: the
  * same final velocities as the formula module, together with the two
  * animation frames each one returns. A frame is the list
  * [t, x1, y1, vx1, vy1, x2, y2, vx2, vy2]: the time, then position and
  * velocity of each body; both frames sit at time 0. */
module ColisionesEstados {
  import opened Py
  import FormulasColisiones

  /** One animation frame as the source lists it. */
  function Fila(t: real, x1: real, y1: real, vx1: real, vy1: real,
                x2: real, y2: real, vx2: real, vy2: real): seq<real>
  {
    [t, x1, y1, vx1, vy1, x2, y2, vx2, vy2]
  }

  /** A frame well formed: nine numbers at time 0. */
  predicate Frame(f: seq<real>)
  {
    |f| == 9 && f[0] == 0.0
  }

  /** Momentum and twice the kinetic energy carried by a frame along x. */
  function FrameMomentumX(m1: real, m2: real, f: seq<real>): real
    requires |f| == 9
  {
    m1 * f[3] + m2 * f[7]
  }

  function FrameMomentumY(m1: real, m2: real, f: seq<real>): real
    requires |f| == 9
  {
    m1 * f[4] + m2 * f[8]
  }

  function FrameEnergy(m1: real, m2: real, f: seq<real>): real
    requires |f| == 9
  {
    m1 * (f[3] * f[3] + f[4] * f[4]) + m2 * (f[7] * f[7] + f[8] * f[8])
  }

  // ------------------------------------------------------------ elastic 1D

  /** calcular_colision_elastica_1d of the equation package: the final
    * velocities and the frames before and after the impact, the bodies
    * shown at x = -1 and x = 1. */
  function CalcularColisionElastica1d(m1: real, v1i: real, m2: real, v2i: real)
    : (r: Result<(real, real, seq<seq<real>>)>)
    ensures r.Err? <==> m1 <= 0.0 || m2 <= 0.0
    ensures r.Err? ==> r.error == ValueError(FormulasColisiones.MASAS_POSITIVAS)
    ensures r.Ok? ==>
      var f := FormulasColisiones.CalcularVelocidadesFinalesColisionElastica1d(m1, v1i, m2, v2i).value;
      var e := r.value.2;
      r.value.0 == f.0 && r.value.1 == f.1
      && |e| == 2 && Frame(e[0]) && Frame(e[1])
      && e[0][3] == v1i && e[0][7] == v2i && e[1][3] == r.value.0 && e[1][7] == r.value.1
      && e[0][4] == e[0][8] == e[1][4] == e[1][8] == 0.0
      && e[0][1] == e[1][1] == -1.0 && e[0][5] == e[1][5] == 1.0
      && e[0][2] == e[0][6] == e[1][2] == e[1][6] == 0.0
  {
    if m1 <= 0.0 || m2 <= 0.0 then Err(ValueError(FormulasColisiones.MASAS_POSITIVAS))
    else
      var v1f := ((m1 - m2) / (m1 + m2)) * v1i + ((2.0 * m2) / (m1 + m2)) * v2i;
      var v2f := ((2.0 * m1) / (m1 + m2)) * v1i + ((m2 - m1) / (m1 + m2)) * v2i;
      Ok((v1f, v2f, [Fila(0.0, -1.0, 0.0, v1i, 0.0, 1.0, 0.0, v2i, 0.0),
                     Fila(0.0, -1.0, 0.0, v1f, 0.0, 1.0, 0.0, v2f, 0.0)]))
  }

  /** The final frame of an elastic collision carries the momentum and the
    * kinetic energy of the first one. */
  lemma Elastica1dFramesConserve(m1: real, v1i: real, m2: real, v2i: real)
    requires m1 > 0.0 && m2 > 0.0
    ensures var e := CalcularColisionElastica1d(m1, v1i, m2, v2i).value.2;
      FrameMomentumX(m1, m2, e[1]) == FrameMomentumX(m1, m2, e[0])
      && FrameEnergy(m1, m2, e[1]) == FrameEnergy(m1, m2, e[0])
  {
    var e := CalcularColisionElastica1d(m1, v1i, m2, v2i).value.2;
    var f := FormulasColisiones.CalcularVelocidadesFinalesColisionElastica1d(m1, v1i, m2, v2i).value;
    assert e[1][3] == f.0 && e[1][7] == f.1;
    assert FrameEnergy(m1, m2, e[1]) == m1 * f.0 * f.0 + m2 * f.1 * f.1;
    assert FrameEnergy(m1, m2, e[0]) == m1 * v1i * v1i + m2 * v2i * v2i;
  }

  // --------------------------------------------------- perfectly inelastic

  /** calcular_colision_perfectamente_inelastica_2d of the equation package:
    * the common velocity and the frames before the impact and after it,
    * when the joined bodies sit at the origin. */
  function CalcularColisionPerfectamenteInelastica2d(m1: real, v1ix: real, v1iy: real,
                                                     m2: real, v2ix: real, v2iy: real)
    : (r: Result<(real, real, seq<seq<real>>)>)
    ensures r.Err? <==> m1 <= 0.0 || m2 <= 0.0
    ensures r.Err? ==> r.error == ValueError(FormulasColisiones.MASAS_POSITIVAS)
    ensures r.Ok? ==>
      var f := FormulasColisiones.CalcularVelocidadFinalColisionPerfectamenteInelastica2d(m1, v1ix, v1iy, m2, v2ix, v2iy).value;
      var e := r.value.2;
      r.value.0 == f.0 && r.value.1 == f.1
      && |e| == 2 && Frame(e[0]) && Frame(e[1])
      && e[0][3] == v1ix && e[0][4] == v1iy && e[0][7] == v2ix && e[0][8] == v2iy
      && e[1][3] == e[1][7] == r.value.0 && e[1][4] == e[1][8] == r.value.1
      && e[0][1] == -1.0 && e[0][5] == 1.0 && e[1][1] == e[1][5] == 0.0
      && e[0][2] == e[0][6] == e[1][2] == e[1][6] == 0.0
  {
    if m1 <= 0.0 || m2 <= 0.0 then Err(ValueError(FormulasColisiones.MASAS_POSITIVAS))
    else
      var pxTotalInicial := m1 * v1ix + m2 * v2ix;
      var pyTotalInicial := m1 * v1iy + m2 * v2iy;
      var mTotal := m1 + m2;
      var vfx := pxTotalInicial / mTotal;
      var vfy := pyTotalInicial / mTotal;
      Ok((vfx, vfy, [Fila(0.0, -1.0, 0.0, v1ix, v1iy, 1.0, 0.0, v2ix, v2iy),
                     Fila(0.0, 0.0, 0.0, vfx, vfy, 0.0, 0.0, vfx, vfy)]))
  }

  /** The joined bodies of the final frame carry the momentum of the first
    * frame in both directions. */
  lemma Inelastica2dFramesConserveMomentum(m1: real, v1ix: real, v1iy: real, m2: real, v2ix: real, v2iy: real)
    requires m1 > 0.0 && m2 > 0.0
    ensures var e := CalcularColisionPerfectamenteInelastica2d(m1, v1ix, v1iy, m2, v2ix, v2iy).value.2;
      FrameMomentumX(m1, m2, e[1]) == FrameMomentumX(m1, m2, e[0])
      && FrameMomentumY(m1, m2, e[1]) == FrameMomentumY(m1, m2, e[0])
  {
    var r := CalcularColisionPerfectamenteInelastica2d(m1, v1ix, v1iy, m2, v2ix, v2iy).value;
    var e := r.2;
    assert FrameMomentumX(m1, m2, e[1]) == (m1 + m2) * r.0;
    assert FrameMomentumY(m1, m2, e[1]) == (m1 + m2) * r.1;
  }

  /** calcular_colision_perfectamente_inelastica_1d of the simulation
    * package: the common velocity and its two frames. */
  function CalcularColisionPerfectamenteInelastica1d(m1: real, v1i: real, m2: real, v2i: real)
    : (r: Result<(real, seq<seq<real>>)>)
    ensures r.Err? <==> m1 <= 0.0 || m2 <= 0.0
    ensures r.Err? ==> r.error == ValueError(FormulasColisiones.MASAS_POSITIVAS)
    ensures r.Ok? ==>
      var e := r.value.1;
      r.value.0 == FormulasColisiones.CalcularVelocidadFinalColisionPerfectamenteInelastica1d(m1, v1i, m2, v2i).value
      && |e| == 2 && Frame(e[0]) && Frame(e[1])
      && e[0][3] == v1i && e[0][7] == v2i && e[1][3] == e[1][7] == r.value.0
      && e[0][4] == e[0][8] == e[1][4] == e[1][8] == 0.0
      && e[0][1] == -1.0 && e[0][5] == 1.0 && e[1][1] == e[1][5] == 0.0
      && e[0][2] == e[0][6] == e[1][2] == e[1][6] == 0.0
  {
    if m1 <= 0.0 || m2 <= 0.0 then Err(ValueError(FormulasColisiones.MASAS_POSITIVAS))
    else
      var v := (m1 * v1i + m2 * v2i) / (m1 + m2);
      Ok((v, [Fila(0.0, -1.0, 0.0, v1i, 0.0, 1.0, 0.0, v2i, 0.0),
              Fila(0.0, 0.0, 0.0, v, 0.0, 0.0, 0.0, v, 0.0)]))
  }

  /** The dictionary simular_colision_perfectamente_inelastica_1d answers
    * with. */
  datatype RespuestaColision = RespuestaColision(success: bool, message: string, parametrosEntrada: Dict,
                                                 resultados: Option<Dict>, estadosSimulacion: seq<seq<real>>)

  /** The wrapper: the inputs are always echoed; a ValueError, the only error
    * the calculator raises, becomes a failure with no results and no
    * frames. */
  function SimularColisionPerfectamenteInelastica1d(m1: real, v1i: real, m2: real, v2i: real): (s: RespuestaColision)
    ensures s.parametrosEntrada == map["m1" := m1, "v1_inicial" := v1i, "m2" := m2, "v2_inicial" := v2i]
    ensures s.success <==> m1 > 0.0 && m2 > 0.0
    ensures s.success ==>
      var c := CalcularColisionPerfectamenteInelastica1d(m1, v1i, m2, v2i).value;
      s.message == "Cálculo de colisión perfectamente inelástica 1D exitoso."
      && s.resultados == Some(map["v_final_comun" := c.0]) && s.estadosSimulacion == c.1
    ensures !s.success ==>
      s.message == FormulasColisiones.MASAS_POSITIVAS && s.resultados == None && s.estadosSimulacion == []
  {
    var parametros := map["m1" := m1, "v1_inicial" := v1i, "m2" := m2, "v2_inicial" := v2i];
    match CalcularColisionPerfectamenteInelastica1d(m1, v1i, m2, v2i)
    case Ok(c) =>
      RespuestaColision(true, "Cálculo de colisión perfectamente inelástica 1D exitoso.", parametros,
                        Some(map["v_final_comun" := c.0]), c.1)
    case Err(e) =>
      assert e.ValueError?;
      RespuestaColision(false, ErrorText(e), parametros, None, [])
  }
}
