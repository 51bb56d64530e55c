/** The resistance calculator of resistencia.py, identical in the
  * simulation and the equation package; the simulation file adds the
  * wrapper. */
module Resistencia {
  import opened Py
  import FormulasElectricidad

  const CORRIENTE_CERO: string := "La corriente no puede ser cero para calcular la resistencia."

  /** calcular_resistencia: R = V / I; the result times the current gives
    * back the voltage. */
  function CalcularResistencia(voltaje: real, corriente: real): (r: Result<Calculo<Dict>>)
    ensures r.Err? <==> corriente == 0.0
    ensures r.Err? ==> r.error == ValueError(CORRIENTE_CERO)
    ensures r.Ok? ==> r.value.valor * corriente == voltaje
    ensures r.Ok? ==> r.value.valor == FormulasElectricidad.CalcularResistencia(voltaje, corriente).value
    ensures r.Ok? ==>
      r.value == Calculo("resistencia", r.value.valor,
                         map["voltaje" := voltaje, "corriente" := corriente, "resistencia" := r.value.valor])
  {
    if corriente == 0.0 then Err(ValueError(CORRIENTE_CERO))
    else
      var resistencia := voltaje / corriente;
      Ok(Calculo("resistencia", resistencia,
                 map["voltaje" := voltaje, "corriente" := corriente, "resistencia" := resistencia]))
  }

  function SimularResistencia(voltaje: real, corriente: real): (r: Result<Response<Calculo<Dict>>>)
    ensures r.Ok?
    ensures r.value.success <==> corriente != 0.0
    ensures r.value.success ==>
      r.value == Response(true, "Cálculo de resistencia exitoso.", Some(CalcularResistencia(voltaje, corriente).value))
    ensures !r.value.success ==> r.value == Response(false, CORRIENTE_CERO, None)
  {
    Simulate(CalcularResistencia(voltaje, corriente), "Cálculo de resistencia exitoso.", false)
  }

  /** Measuring the voltage of a resistor at a non-zero current gives back
    * its resistance. */
  lemma ResistanceOfMeasuredVoltage(corriente: real, resistencia: real)
    requires corriente != 0.0
    ensures CalcularResistencia(FormulasElectricidad.CalcularVoltajeResistor(corriente, resistencia), corriente).value.valor
         == resistencia
  {
    var v := FormulasElectricidad.CalcularVoltajeResistor(corriente, resistencia);
    var rr := CalcularResistencia(v, corriente).value.valor;
    assert corriente * rr == corriente * resistencia;
    CancelFactor(corriente, rr, resistencia);
  }
}
