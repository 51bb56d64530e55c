/** The wave calculators of ondas.py: wavelength, frequency and speed with
  * their animation state, identical in the simulation and the equation
  * package; the simulation file adds the wrappers. */
module Ondas {
  import opened Py
  import FormulasOndas

  /** calcular_longitud_onda: v / f, with the library's error. */
  function CalcularLongitudOnda(velocidad: real, frecuencia: real): (r: Result<Calculo<Dict>>)
    ensures var f := FormulasOndas.CalcularLongitudOnda(velocidad, frecuencia);
      && (r.Err? <==> f.Err?) && (r.Err? ==> r.error == f.error)
      && (r.Ok? ==> r.value.valor == f.value)
    ensures r.Ok? ==>
      r.value == Calculo("longitud_onda", r.value.valor,
                         map["velocidad" := velocidad, "frecuencia" := frecuencia, "longitud_onda" := r.value.valor])
  {
    if frecuencia == 0.0 then Err(ValueError(FormulasOndas.FRECUENCIA_CERO))
    else
      var longitud := velocidad / frecuencia;
      Ok(Calculo("longitud_onda", longitud,
                 map["velocidad" := velocidad, "frecuencia" := frecuencia, "longitud_onda" := longitud]))
  }

  function SimularLongitudOnda(velocidad: real, frecuencia: real): (r: Result<Response<Calculo<Dict>>>)
    ensures r.Ok?
    ensures r.value.success <==> frecuencia != 0.0
    ensures r.value.success ==>
      r.value == Response(true, "Cálculo de longitud de onda exitoso.", Some(CalcularLongitudOnda(velocidad, frecuencia).value))
    ensures !r.value.success ==> r.value == Response(false, FormulasOndas.FRECUENCIA_CERO, None)
  {
    Simulate(CalcularLongitudOnda(velocidad, frecuencia), "Cálculo de longitud de onda exitoso.", false)
  }

  /** calcular_frecuencia_onda: v / lambda, with the library's error. */
  function CalcularFrecuenciaOnda(velocidad: real, longitudOnda: real): (r: Result<Calculo<Dict>>)
    ensures var f := FormulasOndas.CalcularFrecuenciaOnda(velocidad, longitudOnda);
      && (r.Err? <==> f.Err?) && (r.Err? ==> r.error == f.error)
      && (r.Ok? ==> r.value.valor == f.value)
    ensures r.Ok? ==>
      r.value == Calculo("frecuencia_onda", r.value.valor,
                         map["velocidad" := velocidad, "longitud_onda" := longitudOnda, "frecuencia_onda" := r.value.valor])
  {
    if longitudOnda == 0.0 then Err(ValueError(FormulasOndas.LONGITUD_CERO))
    else
      var frecuencia := velocidad / longitudOnda;
      Ok(Calculo("frecuencia_onda", frecuencia,
                 map["velocidad" := velocidad, "longitud_onda" := longitudOnda, "frecuencia_onda" := frecuencia]))
  }

  function SimularFrecuenciaOnda(velocidad: real, longitudOnda: real): (r: Result<Response<Calculo<Dict>>>)
    ensures r.Ok?
    ensures r.value.success <==> longitudOnda != 0.0
    ensures r.value.success ==>
      r.value == Response(true, "Cálculo de frecuencia de onda exitoso.",
                          Some(CalcularFrecuenciaOnda(velocidad, longitudOnda).value))
    ensures !r.value.success ==> r.value == Response(false, FormulasOndas.LONGITUD_CERO, None)
  {
    Simulate(CalcularFrecuenciaOnda(velocidad, longitudOnda), "Cálculo de frecuencia de onda exitoso.", false)
  }

  /** calcular_velocidad_onda: lambda f. */
  function CalcularVelocidadOnda(longitudOnda: real, frecuencia: real): (c: Calculo<Dict>)
    ensures c.valor == FormulasOndas.CalcularVelocidadOnda(longitudOnda, frecuencia)
    ensures c == Calculo("velocidad_onda", c.valor,
                         map["longitud_onda" := longitudOnda, "frecuencia" := frecuencia, "velocidad_onda" := c.valor])
  {
    var velocidad := longitudOnda * frecuencia;
    Calculo("velocidad_onda", velocidad,
            map["longitud_onda" := longitudOnda, "frecuencia" := frecuencia, "velocidad_onda" := velocidad])
  }

  function SimularVelocidadOnda(longitudOnda: real, frecuencia: real): (r: Result<Response<Calculo<Dict>>>)
    ensures r == Ok(Response(true, "Cálculo de velocidad de onda exitoso.", Some(CalcularVelocidadOnda(longitudOnda, frecuencia))))
  {
    Simulate(Ok(CalcularVelocidadOnda(longitudOnda, frecuencia)), "Cálculo de velocidad de onda exitoso.", true)
  }

  /** The calculators invert each other: the speed of a wave gives back its
    * frequency and its wavelength. */
  lemma SpeedRoundTrips(longitudOnda: real, frecuencia: real)
    ensures longitudOnda != 0.0 ==>
      CalcularFrecuenciaOnda(CalcularVelocidadOnda(longitudOnda, frecuencia).valor, longitudOnda).value.valor == frecuencia
    ensures frecuencia != 0.0 ==>
      CalcularLongitudOnda(CalcularVelocidadOnda(longitudOnda, frecuencia).valor, frecuencia).value.valor == longitudOnda
  {
    FormulasOndas.WaveRelationsRoundTrip(longitudOnda, frecuencia);
  }
}
