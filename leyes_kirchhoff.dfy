/** The Kirchhoff calculators of leyes_kirchhoff.py, identical in the
  * simulation and the equation package: each adds a list and echoes it
  * with its total; the simulation file adds the wrappers. */
module LeyesKirchhoff {
  import opened Py
  import FormulasElectricidad

  /** calcular_ley_kirchhoff_voltaje: the sum of the voltages of a loop. */
  function CalcularLeyKirchhoffVoltaje(voltajes: seq<real>): (c: Calculo<EstadoLista>)
    ensures c.valor == FormulasElectricidad.CalcularLeyKirchhoffVoltaje(voltajes)
    ensures c == Calculo("suma_voltajes", c.valor, EstadoLista("voltajes", voltajes, "suma_voltajes", c.valor))
  {
    var suma := Sum(voltajes);
    Calculo("suma_voltajes", suma, EstadoLista("voltajes", voltajes, "suma_voltajes", suma))
  }

  /** calcular_ley_kirchhoff_tension: the sum of the currents at a node. */
  function CalcularLeyKirchhoffTension(corrientes: seq<real>): (c: Calculo<EstadoLista>)
    ensures c.valor == FormulasElectricidad.CalcularLeyKirchhoffVoltaje(corrientes)
    ensures c == Calculo("suma_corrientes", c.valor, EstadoLista("corrientes", corrientes, "suma_corrientes", c.valor))
  {
    var suma := Sum(corrientes);
    Calculo("suma_corrientes", suma, EstadoLista("corrientes", corrientes, "suma_corrientes", suma))
  }

  /** calcular_ley_kirchhoff_corriente: the current leaving a node is the sum
    * of those entering it. */
  function CalcularLeyKirchhoffCorriente(corrientesEntrantes: seq<real>): (c: Calculo<EstadoLista>)
    ensures c.valor == FormulasElectricidad.CalcularLeyKirchhoffVoltaje(corrientesEntrantes)
    ensures c == Calculo("corriente_saliente", c.valor,
                         EstadoLista("corrientes_entrantes", corrientesEntrantes, "corriente_saliente", c.valor))
  {
    var saliente := Sum(corrientesEntrantes);
    Calculo("corriente_saliente", saliente,
            EstadoLista("corrientes_entrantes", corrientesEntrantes, "corriente_saliente", saliente))
  }

  /** The three wrappers catch any exception; a sum never raises, so they
    * always succeed. */
  function SimularLeyKirchhoffVoltaje(voltajes: seq<real>): (r: Result<Response<Calculo<EstadoLista>>>)
    ensures r == Ok(Response(true, "Cálculo de Ley de Voltajes de Kirchhoff exitoso.",
                             Some(CalcularLeyKirchhoffVoltaje(voltajes))))
  {
    Simulate(Ok(CalcularLeyKirchhoffVoltaje(voltajes)), "Cálculo de Ley de Voltajes de Kirchhoff exitoso.", true)
  }

  function SimularLeyKirchhoffTension(corrientes: seq<real>): (r: Result<Response<Calculo<EstadoLista>>>)
    ensures r == Ok(Response(true, "Cálculo de Ley de Corrientes de Kirchhoff (tensión) exitoso.",
                             Some(CalcularLeyKirchhoffTension(corrientes))))
  {
    Simulate(Ok(CalcularLeyKirchhoffTension(corrientes)),
             "Cálculo de Ley de Corrientes de Kirchhoff (tensión) exitoso.", true)
  }

  function SimularLeyKirchhoffCorriente(corrientesEntrantes: seq<real>): (r: Result<Response<Calculo<EstadoLista>>>)
    ensures r == Ok(Response(true, "Cálculo de Ley de Corrientes de Kirchhoff (corriente) exitoso.",
                             Some(CalcularLeyKirchhoffCorriente(corrientesEntrantes))))
  {
    Simulate(Ok(CalcularLeyKirchhoffCorriente(corrientesEntrantes)),
             "Cálculo de Ley de Corrientes de Kirchhoff (corriente) exitoso.", true)
  }

  /** The current law: with the leaving currents entered as negative values,
    * the node sum is zero exactly when the outgoing current computed from
    * the entering ones equals the sum of the leaving ones. */
  lemma JunctionBalanced(entrantes: seq<real>, salientes: seq<real>)
    ensures CalcularLeyKirchhoffTension(entrantes + FormulasElectricidad.Negados(salientes)).valor == 0.0
        <==> CalcularLeyKirchhoffCorriente(entrantes).valor == Sum(salientes)
  {
    SumAppend(entrantes, FormulasElectricidad.Negados(salientes));
    FormulasElectricidad.SumNegated(salientes);
  }

  /** Splitting a loop in two parts splits its voltage sum. */
  lemma LoopSumSplits(a: seq<real>, b: seq<real>)
    ensures CalcularLeyKirchhoffVoltaje(a + b).valor
         == CalcularLeyKirchhoffVoltaje(a).valor + CalcularLeyKirchhoffVoltaje(b).valor
    ensures CalcularLeyKirchhoffVoltaje(a + b).estadoAnimacion.valores == a + b
  {
    SumAppend(a, b);
  }
}
