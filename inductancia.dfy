/** The inductor calculators of inductancia.py, identical in the simulation
  * and the equation package; the simulation file adds the wrappers. */
module Inductancia {
  import opened Py
  import FormulasElectricidad

  /** calcular_inductancia: L = N Phi / I; the state echoes the three
    * inputs. */
  function CalcularInductancia(flujoMagnetico: real, corriente: real, numeroEspiras: real): (r: Result<Calculo<Dict>>)
    ensures var f := FormulasElectricidad.CalcularInductancia(flujoMagnetico, corriente, numeroEspiras);
      && (r.Err? <==> f.Err?) && (r.Err? ==> r.error == f.error)
      && (r.Ok? ==> r.value.valor == f.value)
    ensures r.Ok? ==>
      r.value == Calculo("inductancia", r.value.valor,
                         map["flujo_magnetico" := flujoMagnetico, "corriente" := corriente,
                             "numero_espiras" := numeroEspiras, "inductancia" := r.value.valor])
  {
    if corriente == 0.0 then Err(ValueError("La corriente no puede ser cero."))
    else
      var inductancia := (numeroEspiras * flujoMagnetico) / corriente;
      Ok(Calculo("inductancia", inductancia,
                 map["flujo_magnetico" := flujoMagnetico, "corriente" := corriente,
                     "numero_espiras" := numeroEspiras, "inductancia" := inductancia]))
  }

  function SimularInductancia(flujoMagnetico: real, corriente: real, numeroEspiras: real)
    : (r: Result<Response<Calculo<Dict>>>)
    ensures r.Ok?
    ensures r.value.success <==> corriente != 0.0
    ensures r.value.success ==>
      r.value == Response(true, "Cálculo de inductancia exitoso.",
                          Some(CalcularInductancia(flujoMagnetico, corriente, numeroEspiras).value))
    ensures !r.value.success ==> r.value == Response(false, "La corriente no puede ser cero.", None)
  {
    Simulate(CalcularInductancia(flujoMagnetico, corriente, numeroEspiras), "Cálculo de inductancia exitoso.", false)
  }

  /** calcular_energia_inductor: L I^2 / 2, never negative for L >= 0. */
  function CalcularEnergiaInductor(inductancia: real, corriente: real): (c: Calculo<Dict>)
    ensures c.valor == FormulasElectricidad.CalcularEnergiaInductor(inductancia, corriente)
    ensures inductancia >= 0.0 ==> c.valor >= 0.0
    ensures c == Calculo("energia", c.valor, map["inductancia" := inductancia, "corriente" := corriente, "energia" := c.valor])
  {
    var energia := FormulasElectricidad.CalcularEnergiaInductor(inductancia, corriente);
    Calculo("energia", energia, map["inductancia" := inductancia, "corriente" := corriente, "energia" := energia])
  }

  function SimularEnergiaInductor(inductancia: real, corriente: real): (r: Result<Response<Calculo<Dict>>>)
    ensures r == Ok(Response(true, "Cálculo de energía en inductor exitoso.",
                             Some(CalcularEnergiaInductor(inductancia, corriente))))
  {
    Simulate(Ok(CalcularEnergiaInductor(inductancia, corriente)), "Cálculo de energía en inductor exitoso.", true)
  }

  /** The energy stored at the current that defined the inductance is half
    * the linked flux N Phi times that current. */
  lemma EnergyOfLinkedFlux(flujoMagnetico: real, corriente: real, numeroEspiras: real)
    requires corriente != 0.0
    ensures CalcularEnergiaInductor(CalcularInductancia(flujoMagnetico, corriente, numeroEspiras).value.valor, corriente).valor
         == 0.5 * (numeroEspiras * flujoMagnetico) * corriente
  {
    FormulasElectricidad.InductorEnergyIsHalfFluxTimesCurrent(flujoMagnetico, corriente, numeroEspiras);
  }
}
