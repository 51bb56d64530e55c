/** The power calculators of potencia_electrica.py. The simulation and the
  * equation package agree on power, energy and voltage drop; the efficiency
  * is a ratio in the simulation package and a percentage in the equation
  * package. */
module PotenciaElectrica {
  import opened Py
  import FormulasElectricidad

  const ENTRADA_CERO: string := "La potencia de entrada no puede ser cero."

  /** calcular_potencia_electrica: P = V I. */
  function CalcularPotenciaElectrica(voltaje: real, corriente: real): (c: Calculo<Dict>)
    ensures c.valor == FormulasElectricidad.CalcularPotenciaElectrica(voltaje, corriente)
    ensures c == Calculo("potencia", c.valor, map["voltaje" := voltaje, "corriente" := corriente, "potencia" := c.valor])
  {
    var potencia := voltaje * corriente;
    Calculo("potencia", potencia, map["voltaje" := voltaje, "corriente" := corriente, "potencia" := potencia])
  }

  function SimularPotenciaElectrica(voltaje: real, corriente: real): (r: Result<Response<Calculo<Dict>>>)
    ensures r == Ok(Response(true, "Cálculo de potencia eléctrica exitoso.",
                             Some(CalcularPotenciaElectrica(voltaje, corriente))))
  {
    Simulate(Ok(CalcularPotenciaElectrica(voltaje, corriente)), "Cálculo de potencia eléctrica exitoso.", true)
  }

  /** calcular_energia_electrica: P t / 1000, watts times hours in
    * kilowatt-hours. */
  function CalcularEnergiaElectrica(potencia: real, tiempo: real): (c: Calculo<Dict>)
    ensures c.valor * 1000.0 == potencia * tiempo
    ensures c == Calculo("energia", c.valor, map["potencia" := potencia, "tiempo" := tiempo, "energia" := c.valor])
  {
    var energia := (potencia * tiempo) / 1000.0;
    Calculo("energia", energia, map["potencia" := potencia, "tiempo" := tiempo, "energia" := energia])
  }

  function SimularEnergiaElectrica(potencia: real, tiempo: real): (r: Result<Response<Calculo<Dict>>>)
    ensures r == Ok(Response(true, "Cálculo de energía eléctrica exitoso.", Some(CalcularEnergiaElectrica(potencia, tiempo))))
  {
    Simulate(Ok(CalcularEnergiaElectrica(potencia, tiempo)), "Cálculo de energía eléctrica exitoso.", true)
  }

  /** The energy of consecutive periods at one power adds up. */
  lemma EnergyOfConsecutivePeriods(potencia: real, t1: real, t2: real)
    ensures CalcularEnergiaElectrica(potencia, t1 + t2).valor
         == CalcularEnergiaElectrica(potencia, t1).valor + CalcularEnergiaElectrica(potencia, t2).valor
  {
  }

  /** calcular_voltaje_caida: the drop I R across a resistance. */
  function CalcularVoltajeCaida(corriente: real, resistencia: real): (c: Calculo<Dict>)
    ensures c.valor == FormulasElectricidad.CalcularVoltajeResistor(corriente, resistencia)
    ensures c == Calculo("voltaje_caida", c.valor,
                         map["corriente" := corriente, "resistencia" := resistencia, "voltaje_caida" := c.valor])
  {
    var caida := corriente * resistencia;
    Calculo("voltaje_caida", caida, map["corriente" := corriente, "resistencia" := resistencia, "voltaje_caida" := caida])
  }

  function SimularVoltajeCaida(corriente: real, resistencia: real): (r: Result<Response<Calculo<Dict>>>)
    ensures r == Ok(Response(true, "Cálculo de caída de voltaje exitoso.", Some(CalcularVoltajeCaida(corriente, resistencia))))
  {
    Simulate(Ok(CalcularVoltajeCaida(corriente, resistencia)), "Cálculo de caída de voltaje exitoso.", true)
  }

  /** The power at the voltage drop of a resistor is its Joule heat. */
  lemma PowerAtVoltageDrop(corriente: real, resistencia: real)
    ensures CalcularPotenciaElectrica(CalcularVoltajeCaida(corriente, resistencia).valor, corriente).valor
         == FormulasElectricidad.CalcularPotenciaDisipadaResistor(corriente, resistencia)
  {
    FormulasElectricidad.JouleHeating(corriente, resistencia);
  }

  /** calcular_eficiencia_electrica of the simulation package: the ratio of
    * output to input power. */
  function CalcularEficienciaElectrica(potenciaSalida: real, potenciaEntrada: real): (r: Result<Calculo<Dict>>)
    ensures var f := FormulasElectricidad.CalcularEficienciaElectrica(potenciaSalida, potenciaEntrada);
      && (r.Err? <==> f.Err?) && (r.Err? ==> r.error == f.error)
      && (r.Ok? ==> r.value.valor == f.value)
    ensures r.Ok? ==>
      r.value == Calculo("eficiencia", r.value.valor,
                         map["potencia_salida" := potenciaSalida, "potencia_entrada" := potenciaEntrada,
                             "eficiencia" := r.value.valor])
  {
    if potenciaEntrada == 0.0 then Err(ValueError(ENTRADA_CERO))
    else
      var eficiencia := potenciaSalida / potenciaEntrada;
      Ok(Calculo("eficiencia", eficiencia,
                 map["potencia_salida" := potenciaSalida, "potencia_entrada" := potenciaEntrada,
                     "eficiencia" := eficiencia]))
  }

  function SimularEficienciaElectrica(potenciaSalida: real, potenciaEntrada: real): (r: Result<Response<Calculo<Dict>>>)
    ensures r.Ok?
    ensures r.value.success <==> potenciaEntrada != 0.0
    ensures r.value.success ==>
      r.value == Response(true, "Cálculo de eficiencia eléctrica exitoso.",
                          Some(CalcularEficienciaElectrica(potenciaSalida, potenciaEntrada).value))
    ensures !r.value.success ==> r.value == Response(false, ENTRADA_CERO, None)
  {
    Simulate(CalcularEficienciaElectrica(potenciaSalida, potenciaEntrada), "Cálculo de eficiencia eléctrica exitoso.", false)
  }

  /** calcular_eficiencia_electrica of the equation package: the same ratio
    * as a percentage. */
  function CalcularEficienciaElectricaPorcentaje(potenciaSalida: real, potenciaEntrada: real)
    : (r: Result<Calculo<Dict>>)
    ensures var e := CalcularEficienciaElectrica(potenciaSalida, potenciaEntrada);
      && (r.Err? <==> e.Err?) && (r.Err? ==> r.error == e.error)
      && (r.Ok? ==> r.value.valor == e.value.valor * 100.0)
    ensures r.Ok? ==>
      r.value == Calculo("eficiencia", r.value.valor,
                         map["potencia_salida" := potenciaSalida, "potencia_entrada" := potenciaEntrada,
                             "eficiencia" := r.value.valor])
  {
    if potenciaEntrada == 0.0 then Err(ValueError(ENTRADA_CERO))
    else
      var eficiencia := (potenciaSalida / potenciaEntrada) * 100.0;
      Ok(Calculo("eficiencia", eficiencia,
                 map["potencia_salida" := potenciaSalida, "potencia_entrada" := potenciaEntrada,
                     "eficiencia" := eficiencia]))
  }

  /** A device that gives out no more power than it takes in has an
    * efficiency between 0 and 100 percent. */
  lemma PercentageBounded(potenciaSalida: real, potenciaEntrada: real)
    requires 0.0 <= potenciaSalida <= potenciaEntrada && potenciaEntrada > 0.0
    ensures 0.0 <= CalcularEficienciaElectricaPorcentaje(potenciaSalida, potenciaEntrada).value.valor <= 100.0
  {
    FormulasElectricidad.EfficiencyBounded(potenciaSalida, potenciaEntrada);
  }
}
