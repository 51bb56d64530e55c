/** The Ohm's-law calculators of the simulation package (ley_ohm.py): the
  * missing one of voltage, current and resistance, and the power from any
  * two of them. Absent arguments are Python's None. */
module LeyOhm {
  import opened Py
  import FormulasElectricidad

  const DOS_DE_TRES: string := "Debe proporcionar exactamente dos de los tres valores (voltaje, corriente, resistencia)."
  const CERO_RESISTENCIA: string := "La resistencia no puede ser cero al calcular la corriente."
  const CERO_CORRIENTE: string := "La corriente no puede ser cero al calcular la resistencia."
  const CERO_RESISTENCIA_POTENCIA: string :=
    "La resistencia no puede ser cero cuando se calcula la potencia con voltaje y resistencia."
  const FALTAN_PARAMETROS: string :=
    "Se requieren al menos dos de los tres parámetros (voltaje, corriente, resistencia) para calcular la potencia."

  /** How many of the three arguments are not None. */
  function Presentes(voltaje: Option<real>, corriente: Option<real>, resistencia: Option<real>): (n: nat)
    ensures n <= 3
    ensures n == 3 <==> voltaje.Some? && corriente.Some? && resistencia.Some?
    ensures n == 0 <==> voltaje.None? && corriente.None? && resistencia.None?
  {
    (if voltaje.Some? then 1 else 0) + (if corriente.Some? then 1 else 0) + (if resistencia.Some? then 1 else 0)
  }

  /** calcular_ley_ohm: exactly two of the three values must be given; the
    * third is I R, V / R or V / I, and the state holds all three. */
  function CalcularLeyOhm(voltaje: Option<real>, corriente: Option<real>, resistencia: Option<real>)
    : (r: Result<Calculo<Dict>>)
    ensures Presentes(voltaje, corriente, resistencia) != 2 ==> r == Err(ValueError(DOS_DE_TRES))
    ensures voltaje.None? && corriente.Some? && resistencia.Some? ==>
      var i, rr := corriente.value, resistencia.value;
      r.Ok? && r.value.valor == FormulasElectricidad.CalcularLeyOhm(i, rr, "voltaje").value
      && r.value == Calculo("valor_calculado", r.value.valor,
                            map["corriente" := i, "resistencia" := rr, "voltaje" := r.value.valor])
    ensures voltaje.Some? && corriente.None? && resistencia.Some? ==>
      var v, rr := voltaje.value, resistencia.value;
      && (rr == 0.0 ==> r == Err(ValueError(CERO_RESISTENCIA)))
      && (rr != 0.0 ==>
            r.Ok? && r.value.valor * rr == v
            && r.value == Calculo("valor_calculado", r.value.valor,
                                  map["voltaje" := v, "resistencia" := rr, "corriente" := r.value.valor]))
    ensures voltaje.Some? && corriente.Some? && resistencia.None? ==>
      var v, i := voltaje.value, corriente.value;
      && (i == 0.0 ==> r == Err(ValueError(CERO_CORRIENTE)))
      && (i != 0.0 ==>
            r.Ok? && r.value.valor * i == v
            && r.value == Calculo("valor_calculado", r.value.valor,
                                  map["voltaje" := v, "corriente" := i, "resistencia" := r.value.valor]))
    ensures r.Err? ==> r.error.ValueError?
  {
    if Presentes(voltaje, corriente, resistencia) != 2 then Err(ValueError(DOS_DE_TRES))
    else if voltaje.None? then
      var valor := corriente.value * resistencia.value;
      Ok(Calculo("valor_calculado", valor,
                 map["corriente" := corriente.value, "resistencia" := resistencia.value, "voltaje" := valor]))
    else if corriente.None? then
      if resistencia.value == 0.0 then Err(ValueError(CERO_RESISTENCIA))
      else
        var valor := voltaje.value / resistencia.value;
        Ok(Calculo("valor_calculado", valor,
                   map["voltaje" := voltaje.value, "resistencia" := resistencia.value, "corriente" := valor]))
    else
      if corriente.value == 0.0 then Err(ValueError(CERO_CORRIENTE))
      else
        var valor := voltaje.value / corriente.value;
        Ok(Calculo("valor_calculado", valor,
                   map["voltaje" := voltaje.value, "corriente" := corriente.value, "resistencia" := valor]))
  }

  /** Computing the voltage from I and R and then solving for the missing
    * value again gives back the current and the resistance. */
  lemma OhmRoundTrip(corriente: real, resistencia: real)
    requires corriente != 0.0 && resistencia != 0.0
    ensures var v := CalcularLeyOhm(None, Some(corriente), Some(resistencia)).value.valor;
      CalcularLeyOhm(Some(v), None, Some(resistencia)).value.valor == corriente
      && CalcularLeyOhm(Some(v), Some(corriente), None).value.valor == resistencia
  {
    var v := CalcularLeyOhm(None, Some(corriente), Some(resistencia)).value.valor;
    var i := CalcularLeyOhm(Some(v), None, Some(resistencia)).value.valor;
    var rr := CalcularLeyOhm(Some(v), Some(corriente), None).value.valor;
    assert resistencia * i == resistencia * corriente;
    CancelFactor(resistencia, i, corriente);
    assert corriente * rr == corriente * resistencia;
    CancelFactor(corriente, rr, resistencia);
  }

  /** simular_ley_ohm catches ValueError, the only error the calculator
    * raises, so it always answers. */
  function SimularLeyOhm(voltaje: Option<real>, corriente: Option<real>, resistencia: Option<real>)
    : (r: Result<Response<Calculo<Dict>>>)
    ensures r.Ok?
    ensures var c := CalcularLeyOhm(voltaje, corriente, resistencia);
      && (c.Ok? ==> r.value == Response(true, "Cálculo de Ley de Ohm exitoso.", Some(c.value)))
      && (c.Err? ==> r.value == Response(false, c.error.message, None))
  {
    Simulate(CalcularLeyOhm(voltaje, corriente, resistencia), "Cálculo de Ley de Ohm exitoso.", false)
  }

  /** calcular_potencia_ohm: the precedence and the values of the formula
    * library's power dispatch, with its own messages and a state holding the
    * two inputs used and the power. */
  function CalcularPotenciaOhm(voltaje: Option<real>, corriente: Option<real>, resistencia: Option<real>)
    : (r: Result<Calculo<Dict>>)
    ensures var f := FormulasElectricidad.CalcularPotenciaOhm(voltaje, corriente, resistencia);
      && (r.Ok? <==> f.Ok?)
      && (r.Ok? ==> r.value.clave == "potencia" && r.value.valor == f.value)
    ensures voltaje.Some? && corriente.Some? ==>
      r.Ok? && r.value.estadoAnimacion
               == map["voltaje" := voltaje.value, "corriente" := corriente.value, "potencia" := r.value.valor]
    ensures (voltaje.None? || corriente.None?) && corriente.Some? && resistencia.Some? ==>
      r.Ok? && r.value.estadoAnimacion
               == map["corriente" := corriente.value, "resistencia" := resistencia.value, "potencia" := r.value.valor]
    ensures corriente.None? && voltaje.Some? && resistencia.Some? ==>
      && (resistencia.value == 0.0 ==> r == Err(ValueError(CERO_RESISTENCIA_POTENCIA)))
      && (resistencia.value != 0.0 ==>
            r.Ok? && r.value.estadoAnimacion
                     == map["voltaje" := voltaje.value, "resistencia" := resistencia.value, "potencia" := r.value.valor])
    ensures Presentes(voltaje, corriente, resistencia) < 2 ==> r == Err(ValueError(FALTAN_PARAMETROS))
    ensures r.Err? ==> r.error.ValueError?
  {
    if voltaje.Some? && corriente.Some? then
      var potencia := voltaje.value * corriente.value;
      Ok(Calculo("potencia", potencia,
                 map["voltaje" := voltaje.value, "corriente" := corriente.value, "potencia" := potencia]))
    else if corriente.Some? && resistencia.Some? then
      var potencia := (corriente.value * corriente.value) * resistencia.value;
      Ok(Calculo("potencia", potencia,
                 map["corriente" := corriente.value, "resistencia" := resistencia.value, "potencia" := potencia]))
    else if voltaje.Some? && resistencia.Some? then
      if resistencia.value == 0.0 then Err(ValueError(CERO_RESISTENCIA_POTENCIA))
      else
        var potencia := (voltaje.value * voltaje.value) / resistencia.value;
        Ok(Calculo("potencia", potencia,
                   map["voltaje" := voltaje.value, "resistencia" := resistencia.value, "potencia" := potencia]))
    else Err(ValueError(FALTAN_PARAMETROS))
  }

  /** simular_potencia_ohm: like simular_ley_ohm, it always answers. */
  function SimularPotenciaOhm(voltaje: Option<real>, corriente: Option<real>, resistencia: Option<real>)
    : (r: Result<Response<Calculo<Dict>>>)
    ensures r.Ok?
    ensures var c := CalcularPotenciaOhm(voltaje, corriente, resistencia);
      && (c.Ok? ==> r.value == Response(true, "Cálculo de potencia exitoso.", Some(c.value)))
      && (c.Err? ==> r.value == Response(false, c.error.message, None))
  {
    Simulate(CalcularPotenciaOhm(voltaje, corriente, resistencia), "Cálculo de potencia exitoso.", false)
  }

  /** The power of the two inputs through which the calculator of the
    * missing value went is the power of all three: P = V I with the
    * computed V. */
  lemma PowerOfComputedVoltage(corriente: real, resistencia: real)
    requires resistencia != 0.0
    ensures var v := CalcularLeyOhm(None, Some(corriente), Some(resistencia)).value.valor;
      CalcularPotenciaOhm(Some(v), Some(corriente), None).value.valor
      == CalcularPotenciaOhm(None, Some(corriente), Some(resistencia)).value.valor
      && CalcularPotenciaOhm(Some(v), None, Some(resistencia)).value.valor
      == CalcularPotenciaOhm(None, Some(corriente), Some(resistencia)).value.valor
  {
    var v := CalcularLeyOhm(None, Some(corriente), Some(resistencia)).value.valor;
    FormulasElectricidad.PowerFormulasAgree(v, corriente, resistencia);
  }
}
