/** The circuit calculators of calculos_circuitos.py, present in both the
  * simulation and the equation package. Where the two files agree, one
  * member models both; the simulation file adds the `simular_*` wrappers. */
module CalculosCircuitos {
  import opened Py
  import FormulasElectricidad

  const CERO_PARALELO: string := "Las resistencias en paralelo no pueden ser cero."
  const CERO_TOTAL: string := "La resistencia total no puede ser cero para calcular la corriente."
  const CERO_RAMA: string := "La resistencia de la rama no puede ser cero para calcular la corriente."

  /** calcular_circuito_serie: the total and the input list it came from. */
  function CalcularCircuitoSerie(resistencias: seq<real>): (c: Calculo<EstadoLista>)
    ensures c.valor == FormulasElectricidad.CalcularResistenciaTotalSerie(resistencias)
    ensures c == Calculo("resistencia_total", c.valor,
                         EstadoLista("resistencias", resistencias, "resistencia_total", c.valor))
  {
    var total := Sum(resistencias);
    Calculo("resistencia_total", total, EstadoLista("resistencias", resistencias, "resistencia_total", total))
  }

  /** simular_circuito_serie: nothing in the sum can fail, so the wrapper
    * always reports success. */
  function SimularCircuitoSerie(resistencias: seq<real>): (r: Result<Response<Calculo<EstadoLista>>>)
    ensures r == Ok(Response(true, "Cálculo de resistencia en serie exitoso.", Some(CalcularCircuitoSerie(resistencias))))
  {
    Simulate(Ok(CalcularCircuitoSerie(resistencias)), "Cálculo de resistencia en serie exitoso.", true)
  }

  /** calcular_circuito_paralelo: an empty circuit has total 0.0; otherwise
    * the loop refuses the first zero resistance, and the total is
    * 1 / sum(1/r), which divides by zero when the reciprocals cancel. */
  method CalcularCircuitoParalelo(resistencias: seq<real>) returns (r: Result<Calculo<EstadoLista>>)
    ensures resistencias == [] ==>
      r == Ok(Calculo("resistencia_total", 0.0, EstadoLista("resistencias", [], "resistencia_total", 0.0)))
    ensures resistencias != [] && 0.0 in resistencias ==> r == Err(ValueError(CERO_PARALELO))
    ensures resistencias != [] && 0.0 !in resistencias ==>
      var f := FormulasElectricidad.CalcularResistenciaTotalParalelo(resistencias);
      && (f.Ok? ==> r == Ok(Calculo("resistencia_total", f.value,
                                    EstadoLista("resistencias", resistencias, "resistencia_total", f.value))))
      && (f.Err? ==> r == Err(ZeroDivisionError))
  {
    if resistencias == [] {
      var total := 0.0;
      return Ok(Calculo("resistencia_total", total, EstadoLista("resistencias", resistencias, "resistencia_total", total)));
    }
    for i := 0 to |resistencias|
      invariant 0.0 !in resistencias[..i]
    {
      if resistencias[i] == 0.0 {
        return Err(ValueError(CERO_PARALELO));
      }
    }
    assert resistencias[..|resistencias|] == resistencias;
    var suma := Sum(FormulasElectricidad.Reciprocos(resistencias));
    if suma == 0.0 {
      return Err(ZeroDivisionError);
    }
    var total := 1.0 / suma;
    r := Ok(Calculo("resistencia_total", total, EstadoLista("resistencias", resistencias, "resistencia_total", total)));
  }

  /** simular_circuito_paralelo catches only ValueError: a zero resistance
    * becomes a failure response, a division by zero escapes. */
  method SimularCircuitoParalelo(resistencias: seq<real>) returns (r: Result<Response<Calculo<EstadoLista>>>)
    ensures resistencias == [] ==>
      r == Ok(Response(true, "Cálculo de resistencia en paralelo exitoso.",
                       Some(Calculo("resistencia_total", 0.0, EstadoLista("resistencias", [], "resistencia_total", 0.0)))))
    ensures resistencias != [] && 0.0 in resistencias ==> r == Ok(Response(false, CERO_PARALELO, None))
    ensures resistencias != [] && 0.0 !in resistencias ==>
      var f := FormulasElectricidad.CalcularResistenciaTotalParalelo(resistencias);
      && (f.Ok? ==> r == Ok(Response(true, "Cálculo de resistencia en paralelo exitoso.",
                                     Some(Calculo("resistencia_total", f.value,
                                                  EstadoLista("resistencias", resistencias, "resistencia_total", f.value))))))
      && (f.Err? ==> r == Err(ZeroDivisionError))
  {
    var c := CalcularCircuitoParalelo(resistencias);
    r := Simulate(c, "Cálculo de resistencia en paralelo exitoso.", false);
    if resistencias != [] && 0.0 in resistencias {
      assert ErrorText(c.error) == CERO_PARALELO;
    }
  }

  /** calcular_corriente_total: I = V / R for a non-zero total resistance. */
  function CalcularCorrienteTotal(voltajeTotal: real, resistenciaTotal: real): (r: Result<Calculo<Dict>>)
    ensures r.Err? <==> resistenciaTotal == 0.0
    ensures r.Err? ==> r.error == ValueError(CERO_TOTAL)
    ensures r.Ok? ==> r.value.valor * resistenciaTotal == voltajeTotal
    ensures r.Ok? ==> r.value.valor == FormulasElectricidad.CalcularCorrienteTotal(voltajeTotal, resistenciaTotal).value
    ensures r.Ok? ==>
      r.value == Calculo("corriente_total", r.value.valor,
                         map["voltaje_total" := voltajeTotal, "resistencia_total" := resistenciaTotal,
                             "corriente_total" := r.value.valor])
  {
    if resistenciaTotal == 0.0 then Err(ValueError(CERO_TOTAL))
    else
      var corriente := voltajeTotal / resistenciaTotal;
      Ok(Calculo("corriente_total", corriente,
                 map["voltaje_total" := voltajeTotal, "resistencia_total" := resistenciaTotal,
                     "corriente_total" := corriente]))
  }

  /** simular_corriente_total: the only error is a ValueError, which it
    * reports. */
  function SimularCorrienteTotal(voltajeTotal: real, resistenciaTotal: real): (r: Result<Response<Calculo<Dict>>>)
    ensures r.Ok?
    ensures r.value.success <==> resistenciaTotal != 0.0
    ensures r.value.success ==>
      r.value == Response(true, "Cálculo de corriente total exitoso.",
                          Some(CalcularCorrienteTotal(voltajeTotal, resistenciaTotal).value))
    ensures !r.value.success ==> r.value == Response(false, CERO_TOTAL, None)
  {
    Simulate(CalcularCorrienteTotal(voltajeTotal, resistenciaTotal), "Cálculo de corriente total exitoso.", false)
  }

  /** calcular_voltaje_en_resistencia: V = I R. */
  function CalcularVoltajeEnResistencia(corriente: real, resistencia: real): (c: Calculo<Dict>)
    ensures c.valor == FormulasElectricidad.CalcularVoltajeResistor(corriente, resistencia)
    ensures c == Calculo("voltaje", c.valor,
                         map["corriente" := corriente, "resistencia" := resistencia, "voltaje" := c.valor])
  {
    var voltaje := corriente * resistencia;
    Calculo("voltaje", voltaje, map["corriente" := corriente, "resistencia" := resistencia, "voltaje" := voltaje])
  }

  function SimularVoltajeEnResistencia(corriente: real, resistencia: real): (r: Result<Response<Calculo<Dict>>>)
    ensures r == Ok(Response(true, "Cálculo de voltaje en resistencia exitoso.",
                             Some(CalcularVoltajeEnResistencia(corriente, resistencia))))
  {
    Simulate(Ok(CalcularVoltajeEnResistencia(corriente, resistencia)), "Cálculo de voltaje en resistencia exitoso.", true)
  }

  /** calcular_potencia_en_resistencia: P = I V. */
  function CalcularPotenciaEnResistencia(corriente: real, voltaje: real): (c: Calculo<Dict>)
    ensures c.valor == FormulasElectricidad.CalcularPotenciaElectrica(voltaje, corriente)
    ensures c == Calculo("potencia", c.valor,
                         map["corriente" := corriente, "voltaje" := voltaje, "potencia" := c.valor])
  {
    var potencia := corriente * voltaje;
    Calculo("potencia", potencia, map["corriente" := corriente, "voltaje" := voltaje, "potencia" := potencia])
  }

  function SimularPotenciaEnResistencia(corriente: real, voltaje: real): (r: Result<Response<Calculo<Dict>>>)
    ensures r == Ok(Response(true, "Cálculo de potencia en resistencia exitoso.",
                             Some(CalcularPotenciaEnResistencia(corriente, voltaje))))
  {
    Simulate(Ok(CalcularPotenciaEnResistencia(corriente, voltaje)), "Cálculo de potencia en resistencia exitoso.", true)
  }

  /** The power computed from the voltage the resistor calculator gives is
    * the Joule heat I^2 R. */
  lemma ResistorPowerIsJouleHeat(corriente: real, resistencia: real)
    ensures CalcularPotenciaEnResistencia(corriente, CalcularVoltajeEnResistencia(corriente, resistencia).valor).valor
         == FormulasElectricidad.CalcularPotenciaDisipadaResistor(corriente, resistencia)
  {
    FormulasElectricidad.JouleHeating(corriente, resistencia);
  }

  /** calcular_resistencia_equivalente_serie */
  function CalcularResistenciaEquivalenteSerie(resistencias: seq<real>): (c: Calculo<EstadoLista>)
    ensures c.valor == CalcularCircuitoSerie(resistencias).valor
    ensures c == Calculo("resistencia_equivalente", c.valor,
                         EstadoLista("resistencias", resistencias, "resistencia_equivalente", c.valor))
  {
    var total := Sum(resistencias);
    Calculo("resistencia_equivalente", total,
            EstadoLista("resistencias", resistencias, "resistencia_equivalente", total))
  }

  function SimularResistenciaEquivalenteSerie(resistencias: seq<real>): (r: Result<Response<Calculo<EstadoLista>>>)
    ensures r == Ok(Response(true, "Cálculo de resistencia equivalente en serie exitoso.",
                             Some(CalcularResistenciaEquivalenteSerie(resistencias))))
  {
    Simulate(Ok(CalcularResistenciaEquivalenteSerie(resistencias)),
             "Cálculo de resistencia equivalente en serie exitoso.", true)
  }

  /** calcular_voltaje_paralelo of the equation package: V = I R_eq. */
  function CalcularVoltajeParalelo(corrienteTotal: real, resistenciaEquivalente: real): (c: Calculo<Dict>)
    ensures c.valor == FormulasElectricidad.CalcularVoltajeResistor(corrienteTotal, resistenciaEquivalente)
    ensures c == Calculo("voltaje_paralelo", c.valor,
                         map["corriente_total" := corrienteTotal, "resistencia_equivalente" := resistenciaEquivalente,
                             "voltaje_paralelo" := c.valor])
  {
    var voltaje := corrienteTotal * resistenciaEquivalente;
    Calculo("voltaje_paralelo", voltaje,
            map["corriente_total" := corrienteTotal, "resistencia_equivalente" := resistenciaEquivalente,
                "voltaje_paralelo" := voltaje])
  }

  /** The total current is recovered from the parallel voltage it drives
    * through the equivalent resistance. */
  lemma ParallelVoltageRoundTrip(corrienteTotal: real, resistenciaEquivalente: real)
    requires resistenciaEquivalente != 0.0
    ensures CalcularCorrienteTotal(CalcularVoltajeParalelo(corrienteTotal, resistenciaEquivalente).valor,
                                   resistenciaEquivalente).value.valor == corrienteTotal
  {
    var v := CalcularVoltajeParalelo(corrienteTotal, resistenciaEquivalente).valor;
    var i := CalcularCorrienteTotal(v, resistenciaEquivalente).value.valor;
    assert resistenciaEquivalente * i == resistenciaEquivalente * corrienteTotal;
    CancelFactor(resistenciaEquivalente, i, corrienteTotal);
  }

  /** calcular_corriente_paralelo of the equation package: the current of one
    * branch, V / R_rama. */
  function CalcularCorrienteParalelo(voltajeTotal: real, resistenciaRama: real): (r: Result<Calculo<Dict>>)
    ensures r.Err? <==> resistenciaRama == 0.0
    ensures r.Err? ==> r.error == ValueError(CERO_RAMA)
    ensures r.Ok? ==> r.value.valor * resistenciaRama == voltajeTotal
    ensures r.Ok? ==>
      r.value == Calculo("corriente_rama", r.value.valor,
                         map["voltaje_total" := voltajeTotal, "resistencia_rama" := resistenciaRama,
                             "corriente_rama" := r.value.valor])
  {
    if resistenciaRama == 0.0 then Err(ValueError(CERO_RAMA))
    else
      var corriente := voltajeTotal / resistenciaRama;
      Ok(Calculo("corriente_rama", corriente,
                 map["voltaje_total" := voltajeTotal, "resistencia_rama" := resistenciaRama,
                     "corriente_rama" := corriente]))
  }

  /** The current of each branch of a parallel circuit. */
  function CorrientesRama(voltaje: real, resistencias: seq<real>): (c: seq<real>)
    requires 0.0 !in resistencias
    ensures |c| == |resistencias|
  {
    seq(|resistencias|, i requires 0 <= i < |resistencias| =>
          CalcularCorrienteParalelo(voltaje, resistencias[i]).value.valor)
  }

  /** The branch currents of resistors in parallel add up to the total
    * current through their equivalent resistance. */
  lemma BranchCurrentsAddUp(voltaje: real, resistencias: seq<real>)
    requires 0.0 !in resistencias
    requires FormulasElectricidad.CalcularResistenciaTotalParalelo(resistencias).Ok?
    ensures var req := FormulasElectricidad.CalcularResistenciaTotalParalelo(resistencias).value;
      req != 0.0 && Sum(CorrientesRama(voltaje, resistencias)) == CalcularCorrienteTotal(voltaje, req).value.valor
  {
    var inv := FormulasElectricidad.Reciprocos(resistencias);
    var s := Sum(inv);
    var req := FormulasElectricidad.CalcularResistenciaTotalParalelo(resistencias).value;
    assert req * s == 1.0;
    BranchCurrentsAreScaledReciprocals(voltaje, resistencias);
    SumScaled(voltaje, inv);
    TotalCurrentOfReciprocal(voltaje, req, s);
  }

  lemma TotalCurrentOfReciprocal(voltaje: real, req: real, s: real)
    requires req * s == 1.0
    ensures req != 0.0 && CalcularCorrienteTotal(voltaje, req).value.valor == voltaje * s
  {
    var total := CalcularCorrienteTotal(voltaje, req).value.valor;
    assert total * req == voltaje;
    assert req * total == req * (voltaje * s);
    CancelFactor(req, total, voltaje * s);
  }

  lemma BranchCurrentsAreScaledReciprocals(voltaje: real, resistencias: seq<real>)
    requires 0.0 !in resistencias
    ensures var inv := FormulasElectricidad.Reciprocos(resistencias);
      CorrientesRama(voltaje, resistencias) == seq(|inv|, i requires 0 <= i < |inv| => voltaje * inv[i])
  {
    var inv := FormulasElectricidad.Reciprocos(resistencias);
    var ramas := CorrientesRama(voltaje, resistencias);
    var escaladas := seq(|inv|, i requires 0 <= i < |inv| => voltaje * inv[i]);
    forall i | 0 <= i < |resistencias|
      ensures ramas[i] == escaladas[i]
    {
      BranchCurrentIsScaledReciprocal(voltaje, resistencias[i], inv[i]);
    }
  }

  lemma BranchCurrentIsScaledReciprocal(voltaje: real, resistencia: real, inverso: real)
    requires inverso * resistencia == 1.0
    ensures CalcularCorrienteParalelo(voltaje, resistencia).Ok?
    ensures CalcularCorrienteParalelo(voltaje, resistencia).value.valor == voltaje * inverso
  {
    var c := CalcularCorrienteParalelo(voltaje, resistencia).value.valor;
    assert resistencia * c == resistencia * (voltaje * inverso);
    CancelFactor(resistencia, c, voltaje * inverso);
  }
}
