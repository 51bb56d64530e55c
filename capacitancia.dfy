/** The capacitor calculators of capacitancia.py, identical in the
  * simulation and the equation package; the simulation file adds the
  * wrappers. Each state holds the inputs and the result. */
module Capacitancia {
  import opened Py
  import FormulasElectricidad

  /** calcular_capacitancia: C = Q / V with the library's error. */
  function CalcularCapacitancia(carga: real, voltaje: real): (r: Result<Calculo<Dict>>)
    ensures var f := FormulasElectricidad.CalcularCapacitancia(carga, voltaje);
      && (r.Err? <==> f.Err?) && (r.Err? ==> r.error == f.error)
      && (r.Ok? ==> r.value.valor == f.value)
    ensures r.Ok? ==>
      r.value == Calculo("capacitancia", r.value.valor,
                         map["carga" := carga, "voltaje" := voltaje, "capacitancia" := r.value.valor])
  {
    if voltaje == 0.0 then Err(ValueError("El voltaje no puede ser cero."))
    else
      var capacitancia := carga / voltaje;
      Ok(Calculo("capacitancia", capacitancia,
                 map["carga" := carga, "voltaje" := voltaje, "capacitancia" := capacitancia]))
  }

  function SimularCapacitancia(carga: real, voltaje: real): (r: Result<Response<Calculo<Dict>>>)
    ensures r.Ok?
    ensures r.value.success <==> voltaje != 0.0
    ensures r.value.success ==>
      r.value == Response(true, "Cálculo de capacitancia exitoso.", Some(CalcularCapacitancia(carga, voltaje).value))
    ensures !r.value.success ==> r.value == Response(false, "El voltaje no puede ser cero.", None)
  {
    Simulate(CalcularCapacitancia(carga, voltaje), "Cálculo de capacitancia exitoso.", false)
  }

  /** calcular_carga_capacitor: Q = C V. */
  function CalcularCargaCapacitor(capacitancia: real, voltaje: real): (c: Calculo<Dict>)
    ensures c.valor == FormulasElectricidad.CalcularCargaCapacitor(capacitancia, voltaje)
    ensures c == Calculo("carga", c.valor, map["capacitancia" := capacitancia, "voltaje" := voltaje, "carga" := c.valor])
  {
    var carga := capacitancia * voltaje;
    Calculo("carga", carga, map["capacitancia" := capacitancia, "voltaje" := voltaje, "carga" := carga])
  }

  function SimularCargaCapacitor(capacitancia: real, voltaje: real): (r: Result<Response<Calculo<Dict>>>)
    ensures r == Ok(Response(true, "Cálculo de carga en capacitor exitoso.",
                             Some(CalcularCargaCapacitor(capacitancia, voltaje))))
  {
    Simulate(Ok(CalcularCargaCapacitor(capacitancia, voltaje)), "Cálculo de carga en capacitor exitoso.", true)
  }

  /** calcular_voltaje_capacitor: V = Q / C with the library's error. */
  function CalcularVoltajeCapacitor(carga: real, capacitancia: real): (r: Result<Calculo<Dict>>)
    ensures var f := FormulasElectricidad.CalcularVoltajeCapacitor(carga, capacitancia);
      && (r.Err? <==> f.Err?) && (r.Err? ==> r.error == f.error)
      && (r.Ok? ==> r.value.valor == f.value)
    ensures r.Ok? ==>
      r.value == Calculo("voltaje", r.value.valor,
                         map["carga" := carga, "capacitancia" := capacitancia, "voltaje" := r.value.valor])
  {
    if capacitancia == 0.0 then Err(ValueError("La capacitancia no puede ser cero."))
    else
      var voltaje := carga / capacitancia;
      Ok(Calculo("voltaje", voltaje, map["carga" := carga, "capacitancia" := capacitancia, "voltaje" := voltaje]))
  }

  function SimularVoltajeCapacitor(carga: real, capacitancia: real): (r: Result<Response<Calculo<Dict>>>)
    ensures r.Ok?
    ensures r.value.success <==> capacitancia != 0.0
    ensures r.value.success ==>
      r.value == Response(true, "Cálculo de voltaje en capacitor exitoso.",
                          Some(CalcularVoltajeCapacitor(carga, capacitancia).value))
    ensures !r.value.success ==> r.value == Response(false, "La capacitancia no puede ser cero.", None)
  {
    Simulate(CalcularVoltajeCapacitor(carga, capacitancia), "Cálculo de voltaje en capacitor exitoso.", false)
  }

  /** The calculators invert each other: the charge a capacitor holds gives
    * back its voltage and its capacitance. */
  lemma ChargeRoundTrips(capacitancia: real, voltaje: real)
    ensures capacitancia != 0.0 ==>
      CalcularVoltajeCapacitor(CalcularCargaCapacitor(capacitancia, voltaje).valor, capacitancia).value.valor == voltaje
    ensures voltaje != 0.0 ==>
      CalcularCapacitancia(CalcularCargaCapacitor(capacitancia, voltaje).valor, voltaje).value.valor == capacitancia
  {
    FormulasElectricidad.CapacitorRoundTrips(capacitancia, voltaje);
  }

  /** calcular_energia_capacitor: C V^2 / 2, never negative for C >= 0. */
  function CalcularEnergiaCapacitor(capacitancia: real, voltaje: real): (c: Calculo<Dict>)
    ensures c.valor == FormulasElectricidad.CalcularEnergiaCapacitor(capacitancia, voltaje)
    ensures capacitancia >= 0.0 ==> c.valor >= 0.0
    ensures c == Calculo("energia", c.valor, map["capacitancia" := capacitancia, "voltaje" := voltaje, "energia" := c.valor])
  {
    var energia := FormulasElectricidad.CalcularEnergiaCapacitor(capacitancia, voltaje);
    Calculo("energia", energia, map["capacitancia" := capacitancia, "voltaje" := voltaje, "energia" := energia])
  }

  function SimularEnergiaCapacitor(capacitancia: real, voltaje: real): (r: Result<Response<Calculo<Dict>>>)
    ensures r == Ok(Response(true, "Cálculo de energía en capacitor exitoso.",
                             Some(CalcularEnergiaCapacitor(capacitancia, voltaje))))
  {
    Simulate(Ok(CalcularEnergiaCapacitor(capacitancia, voltaje)), "Cálculo de energía en capacitor exitoso.", true)
  }

  /** The energy is half the charge the calculator gives times the
    * voltage. */
  lemma EnergyIsHalfChargeTimesVoltage(capacitancia: real, voltaje: real)
    ensures CalcularEnergiaCapacitor(capacitancia, voltaje).valor
         == 0.5 * CalcularCargaCapacitor(capacitancia, voltaje).valor * voltaje
  {
    FormulasElectricidad.CapacitorEnergyIsHalfQV(capacitancia, voltaje);
  }
}
