/** The magnetism calculators of the simulation package (magnetismo.py):
  * the field of a straight wire, the Lorentz force, the magnetic flux and
  * Faraday's law, with their wrappers. math.sin and math.cos are the
  * parameters sin and cos. */
module Magnetismo {
  import opened Py
  import FormulasElectricidad

  /** calcular_campo_magnetico: mu0 I / (2 pi d), with the library's
    * error. */
  function CalcularCampoMagnetico(corriente: real, distancia: real, permeabilidadVacio: real): (r: Result<Calculo<Dict>>)
    ensures var f := FormulasElectricidad.CalcularCampoMagnetico(corriente, distancia, permeabilidadVacio);
      && (r.Err? <==> f.Err?) && (r.Err? ==> r.error == f.error)
      && (r.Ok? ==> r.value.valor == f.value)
    ensures r.Ok? ==>
      r.value == Calculo("campo_magnetico", r.value.valor,
                         map["corriente" := corriente, "distancia" := distancia, "campo_magnetico" := r.value.valor])
  {
    if distancia == 0.0 then Err(ValueError(FormulasElectricidad.DISTANCIA_CERO))
    else
      var campo := (permeabilidadVacio * corriente) / (2.0 * PI * distancia);
      Ok(Calculo("campo_magnetico", campo,
                 map["corriente" := corriente, "distancia" := distancia, "campo_magnetico" := campo]))
  }

  /** With the default permeability 4 pi 10^-7 the field is 2 10^-7 I / d. */
  lemma DefaultField(corriente: real, distancia: real)
    requires distancia != 0.0
    ensures CalcularCampoMagnetico(corriente, distancia, FormulasElectricidad.MU_0).value.valor
         == 0.0000002 * corriente / distancia
  {
    FormulasElectricidad.DefaultWireField(corriente, distancia);
  }

  function SimularCampoMagnetico(corriente: real, distancia: real, permeabilidadVacio: real)
    : (r: Result<Response<Calculo<Dict>>>)
    ensures r.Ok?
    ensures r.value.success <==> distancia != 0.0
    ensures r.value.success ==>
      r.value == Response(true, "Cálculo de campo magnético exitoso.",
                          Some(CalcularCampoMagnetico(corriente, distancia, permeabilidadVacio).value))
    ensures !r.value.success ==> r.value == Response(false, FormulasElectricidad.DISTANCIA_CERO, None)
  {
    Simulate(CalcularCampoMagnetico(corriente, distancia, permeabilidadVacio), "Cálculo de campo magnético exitoso.", false)
  }

  /** calcular_fuerza_lorentz: q v B sin(theta), the angle given in
    * degrees; the state echoes the four inputs. */
  function CalcularFuerzaLorentz(carga: real, velocidad: real, campoMagnetico: real, anguloGrados: real,
                                 sin: real -> real): (c: Calculo<Dict>)
    ensures c == Calculo("fuerza_lorentz", c.valor,
                         map["carga" := carga, "velocidad" := velocidad, "campo_magnetico" := campoMagnetico,
                             "angulo_grados" := anguloGrados, "fuerza_lorentz" := c.valor])
    ensures anguloGrados == 90.0 && sin(PI / 2.0) == 1.0 ==> c.valor == carga * velocidad * campoMagnetico
  {
    var fuerza := carga * velocidad * campoMagnetico * sin(Deg2Rad(anguloGrados));
    Calculo("fuerza_lorentz", fuerza,
            map["carga" := carga, "velocidad" := velocidad, "campo_magnetico" := campoMagnetico,
                "angulo_grados" := anguloGrados, "fuerza_lorentz" := fuerza])
  }

  function SimularFuerzaLorentz(carga: real, velocidad: real, campoMagnetico: real, anguloGrados: real,
                                sin: real -> real): (r: Result<Response<Calculo<Dict>>>)
    ensures r == Ok(Response(true, "Cálculo de fuerza de Lorentz exitoso.",
                             Some(CalcularFuerzaLorentz(carga, velocidad, campoMagnetico, anguloGrados, sin))))
  {
    Simulate(Ok(CalcularFuerzaLorentz(carga, velocidad, campoMagnetico, anguloGrados, sin)),
             "Cálculo de fuerza de Lorentz exitoso.", true)
  }

  /** The Lorentz force never exceeds q v B in magnitude. */
  lemma LorentzBounded(carga: real, velocidad: real, campoMagnetico: real, anguloGrados: real,
                       sin: real -> real, cos: real -> real)
    requires IsSinCos(sin, cos)
    ensures Abs(CalcularFuerzaLorentz(carga, velocidad, campoMagnetico, anguloGrados, sin).valor)
         <= Abs(carga * velocidad * campoMagnetico)
  {
    SinBounded(sin, cos, Deg2Rad(anguloGrados));
    LorentzWithin(carga, velocidad, campoMagnetico, anguloGrados, sin);
  }

  lemma LorentzWithin(carga: real, velocidad: real, campoMagnetico: real, anguloGrados: real, sin: real -> real)
    requires -1.0 <= sin(Deg2Rad(anguloGrados)) <= 1.0
    ensures Abs(CalcularFuerzaLorentz(carga, velocidad, campoMagnetico, anguloGrados, sin).valor)
         <= Abs(carga * velocidad * campoMagnetico)
  {
    UnitFactorBounded(carga * velocidad * campoMagnetico, sin(Deg2Rad(anguloGrados)));
  }

  /** calcular_flujo_magnetico: B A cos(theta), the angle given in degrees
    * between the field and the normal of the surface. */
  function CalcularFlujoMagnetico(campoMagnetico: real, area: real, anguloGrados: real, cos: real -> real)
    : (c: Calculo<Dict>)
    ensures c == Calculo("flujo_magnetico", c.valor,
                         map["campo_magnetico" := campoMagnetico, "area" := area, "angulo_grados" := anguloGrados,
                             "flujo_magnetico" := c.valor])
    ensures anguloGrados == 0.0 && cos(0.0) == 1.0 ==> c.valor == campoMagnetico * area
  {
    var flujo := campoMagnetico * area * cos(Deg2Rad(anguloGrados));
    Calculo("flujo_magnetico", flujo,
            map["campo_magnetico" := campoMagnetico, "area" := area, "angulo_grados" := anguloGrados,
                "flujo_magnetico" := flujo])
  }

  function SimularFlujoMagnetico(campoMagnetico: real, area: real, anguloGrados: real, cos: real -> real)
    : (r: Result<Response<Calculo<Dict>>>)
    ensures r == Ok(Response(true, "Cálculo de flujo magnético exitoso.",
                             Some(CalcularFlujoMagnetico(campoMagnetico, area, anguloGrados, cos))))
  {
    Simulate(Ok(CalcularFlujoMagnetico(campoMagnetico, area, anguloGrados, cos)), "Cálculo de flujo magnético exitoso.", true)
  }

  /** The flux through a surface never exceeds B A in magnitude. */
  lemma FluxBounded(campoMagnetico: real, area: real, anguloGrados: real, sin: real -> real, cos: real -> real)
    requires IsSinCos(sin, cos)
    ensures Abs(CalcularFlujoMagnetico(campoMagnetico, area, anguloGrados, cos).valor) <= Abs(campoMagnetico * area)
  {
    CosBounded(sin, cos, Deg2Rad(anguloGrados));
    UnitFactorBounded(campoMagnetico * area, cos(Deg2Rad(anguloGrados)));
  }

  /** calcular_ley_faraday: fem = -N (dPhi / dt), with the library's
    * error; the state echoes the three inputs. */
  function CalcularLeyFaraday(cambioFlujo: real, cambioTiempo: real, numeroEspiras: real): (r: Result<Calculo<Dict>>)
    ensures var f := FormulasElectricidad.CalcularLeyFaraday(cambioFlujo, cambioTiempo, numeroEspiras);
      && (r.Err? <==> f.Err?) && (r.Err? ==> r.error == f.error)
      && (r.Ok? ==> r.value.valor == f.value)
    ensures r.Ok? ==>
      r.value == Calculo("fem", r.value.valor,
                         map["cambio_flujo_magnetico" := cambioFlujo, "cambio_tiempo" := cambioTiempo,
                             "numero_espiras" := numeroEspiras, "fem" := r.value.valor])
  {
    if cambioTiempo == 0.0 then Err(ValueError("El cambio en el tiempo no puede ser cero."))
    else
      var fem := -numeroEspiras * (cambioFlujo / cambioTiempo);
      Ok(Calculo("fem", fem,
                 map["cambio_flujo_magnetico" := cambioFlujo, "cambio_tiempo" := cambioTiempo,
                     "numero_espiras" := numeroEspiras, "fem" := fem]))
  }

  function SimularLeyFaraday(cambioFlujo: real, cambioTiempo: real, numeroEspiras: real)
    : (r: Result<Response<Calculo<Dict>>>)
    ensures r.Ok?
    ensures r.value.success <==> cambioTiempo != 0.0
    ensures r.value.success ==>
      r.value == Response(true, "Cálculo de Ley de Faraday exitoso.",
                          Some(CalcularLeyFaraday(cambioFlujo, cambioTiempo, numeroEspiras).value))
    ensures !r.value.success ==> r.value == Response(false, "El cambio en el tiempo no puede ser cero.", None)
  {
    Simulate(CalcularLeyFaraday(cambioFlujo, cambioTiempo, numeroEspiras), "Cálculo de Ley de Faraday exitoso.", false)
  }

  /** A flux change spread over twice the time induces half the
    * electromotive force. */
  lemma SlowerChangeHalvesFem(cambioFlujo: real, cambioTiempo: real, numeroEspiras: real)
    requires cambioTiempo != 0.0
    ensures CalcularLeyFaraday(cambioFlujo, 2.0 * cambioTiempo, numeroEspiras).value.valor
         == CalcularLeyFaraday(cambioFlujo, cambioTiempo, numeroEspiras).value.valor / 2.0
  {
    var a := CalcularLeyFaraday(cambioFlujo, 2.0 * cambioTiempo, numeroEspiras).value.valor;
    var b := CalcularLeyFaraday(cambioFlujo, cambioTiempo, numeroEspiras).value.valor;
    assert a * (2.0 * cambioTiempo) == -numeroEspiras * cambioFlujo;
    assert b * cambioTiempo == -numeroEspiras * cambioFlujo;
    assert cambioTiempo * (2.0 * a) == cambioTiempo * b;
    CancelFactor(cambioTiempo, 2.0 * a, b);
  }
}
