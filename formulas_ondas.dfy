/** The wave formulas of the formula library (Formulas/ondas.py): the
  * Doppler effect with direction words, sound intensity, the
  * wavelength-frequency-speed relation and the speed in a medium. */
module FormulasOndas {
  import opened Py

  const ACERCANDOSE: string := "acercandose"
  const ALEJANDOSE: string := "alejandose"
  const ONDA_CERO: string := "La velocidad de la onda no puede ser cero."
  const OBSERVADOR_INVALIDO: string := "Dirección del observador no válida. Use 'acercandose' o 'alejandose'."
  const FUENTE_INVALIDA: string := "Dirección de la fuente no válida. Use 'acercandose' o 'alejandose'."
  const DISTANCIA_CERO: string := "La distancia no puede ser cero."
  const FRECUENCIA_CERO: string := "La frecuencia no puede ser cero."
  const LONGITUD_CERO: string := "La longitud de onda no puede ser cero."
  const INDICE_CERO: string := "El índice de refracción no puede ser cero."

  predicate DireccionValida(direccion: string)
  {
    direccion == ACERCANDOSE || direccion == ALEJANDOSE
  }

  /** The signed speed the formula adds to the wave speed, as written: the
    * speed is negated when its owner is approaching. */
  function Orientada(velocidad: real, direccion: string): real
  {
    if direccion == ACERCANDOSE then -velocidad else velocidad
  }

  /** The ratio of a larger positive number to a smaller one exceeds 1. */
  lemma RatioAboveOne(n: real, d: real)
    requires 0.0 < d < n
    ensures n / d > 1.0
  {
    assert (n / d) * d == n;
    PositiveFactorPreservesOrder(d, n / d, 1.0);
  }

  /** The ratio of a smaller non-negative number to a larger one is below 1. */
  lemma RatioBelowOne(n: real, d: real)
    requires 0.0 <= n < d
    ensures n / d < 1.0
  {
    assert (n / d) * d == n;
    PositiveFactorPreservesOrder(d, 1.0, n / d);
  }

  /** f (v + vo) / (v + vs) with both speeds signed; the product with the
    * denominator gives back the scaled numerator. */
  lemma DopplerQuotient(f: real, num: real, den: real)
    requires den != 0.0
    ensures (f * (num / den)) * den == f * num
  {
    assert (num / den) * den == num;
  }

  /** calcular_frecuencia_observada_doppler as written: a zero wave speed and
    * an unknown direction word raise ValueError, in that order; a zero
    * denominator raises ZeroDivisionError. */
  function CalcularFrecuenciaObservadaDoppler(frecuenciaFuente: real, velocidadOnda: real,
                                              velocidadObservador: real, velocidadFuente: real,
                                              direccionObservador: string, direccionFuente: string): (r: Result<real>)
    ensures velocidadOnda == 0.0 ==> r == Err(ValueError(ONDA_CERO))
    ensures velocidadOnda != 0.0 && !DireccionValida(direccionObservador) ==> r == Err(ValueError(OBSERVADOR_INVALIDO))
    ensures velocidadOnda != 0.0 && DireccionValida(direccionObservador) && !DireccionValida(direccionFuente) ==>
      r == Err(ValueError(FUENTE_INVALIDA))
    ensures r.Ok? <==>
      velocidadOnda != 0.0 && DireccionValida(direccionObservador) && DireccionValida(direccionFuente)
      && velocidadOnda + Orientada(velocidadFuente, direccionFuente) != 0.0
    ensures (velocidadOnda != 0.0 && DireccionValida(direccionObservador) && DireccionValida(direccionFuente)
             && velocidadOnda + Orientada(velocidadFuente, direccionFuente) == 0.0) ==> r == Err(ZeroDivisionError)
    ensures r.Ok? ==>
      r.value * (velocidadOnda + Orientada(velocidadFuente, direccionFuente))
      == frecuenciaFuente * (velocidadOnda + Orientada(velocidadObservador, direccionObservador))
  {
    if velocidadOnda == 0.0 then Err(ValueError(ONDA_CERO))
    else if !DireccionValida(direccionObservador) then Err(ValueError(OBSERVADOR_INVALIDO))
    else if !DireccionValida(direccionFuente) then Err(ValueError(FUENTE_INVALIDA))
    else
      var vo := Orientada(velocidadObservador, direccionObservador);
      var vs := Orientada(velocidadFuente, direccionFuente);
      if velocidadOnda + vs == 0.0 then Err(ZeroDivisionError)
      else
        DopplerQuotient(frecuenciaFuente, velocidadOnda + vo, velocidadOnda + vs);
        Ok(frecuenciaFuente * ((velocidadOnda + vo) / (velocidadOnda + vs)))
  }

  /** With observer and source at rest the source frequency is heard,
    * whatever the direction words. */
  lemma DopplerAtRest(frecuenciaFuente: real, velocidadOnda: real, direccionObservador: string, direccionFuente: string)
    requires velocidadOnda != 0.0
    requires DireccionValida(direccionObservador) && DireccionValida(direccionFuente)
    ensures CalcularFrecuenciaObservadaDoppler(frecuenciaFuente, velocidadOnda, 0.0, 0.0,
                                               direccionObservador, direccionFuente) == Ok(frecuenciaFuente)
  {
    var r := CalcularFrecuenciaObservadaDoppler(frecuenciaFuente, velocidadOnda, 0.0, 0.0,
                                                direccionObservador, direccionFuente);
    assert r.value * velocidadOnda == frecuenciaFuente * velocidadOnda;
    CancelFactor(velocidadOnda, r.value, frecuenciaFuente);
  }

  /** A source approaching a still observer, slower than the wave, raises
    * the pitch; the same source receding lowers it. */
  lemma ApproachingSourceRaisesPitch(frecuenciaFuente: real, velocidadOnda: real, velocidadFuente: real)
    requires frecuenciaFuente > 0.0 && 0.0 < velocidadFuente < velocidadOnda
    ensures CalcularFrecuenciaObservadaDoppler(frecuenciaFuente, velocidadOnda, 0.0, velocidadFuente,
                                               ALEJANDOSE, ACERCANDOSE).Ok?
    ensures CalcularFrecuenciaObservadaDoppler(frecuenciaFuente, velocidadOnda, 0.0, velocidadFuente,
                                               ALEJANDOSE, ACERCANDOSE).value > frecuenciaFuente
    ensures CalcularFrecuenciaObservadaDoppler(frecuenciaFuente, velocidadOnda, 0.0, velocidadFuente,
                                               ALEJANDOSE, ALEJANDOSE).Ok?
    ensures CalcularFrecuenciaObservadaDoppler(frecuenciaFuente, velocidadOnda, 0.0, velocidadFuente,
                                               ALEJANDOSE, ALEJANDOSE).value < frecuenciaFuente
  {
    var q := velocidadOnda / (velocidadOnda - velocidadFuente);
    RatioAboveOne(velocidadOnda, velocidadOnda - velocidadFuente);
    PositiveFactorPreservesOrder(frecuenciaFuente, q, 1.0);
    var p := velocidadOnda / (velocidadOnda + velocidadFuente);
    RatioBelowOne(velocidadOnda, velocidadOnda + velocidadFuente);
    PositiveFactorPreservesOrder(frecuenciaFuente, 1.0, p);
  }

  /** The observer branch as written: an observer approaching a still
    * source, slower than the wave, hears a LOWER pitch, the opposite of the
    * Doppler effect; a receding one hears a HIGHER pitch. */
  lemma AsWrittenApproachingObserverLowersPitch(frecuenciaFuente: real, velocidadOnda: real, velocidadObservador: real)
    requires frecuenciaFuente > 0.0 && 0.0 < velocidadObservador < velocidadOnda
    ensures CalcularFrecuenciaObservadaDoppler(frecuenciaFuente, velocidadOnda, velocidadObservador, 0.0,
                                               ACERCANDOSE, ALEJANDOSE).Ok?
    ensures CalcularFrecuenciaObservadaDoppler(frecuenciaFuente, velocidadOnda, velocidadObservador, 0.0,
                                               ACERCANDOSE, ALEJANDOSE).value < frecuenciaFuente
    ensures CalcularFrecuenciaObservadaDoppler(frecuenciaFuente, velocidadOnda, velocidadObservador, 0.0,
                                               ALEJANDOSE, ALEJANDOSE).Ok?
    ensures CalcularFrecuenciaObservadaDoppler(frecuenciaFuente, velocidadOnda, velocidadObservador, 0.0,
                                               ALEJANDOSE, ALEJANDOSE).value > frecuenciaFuente
  {
    var q := (velocidadOnda - velocidadObservador) / velocidadOnda;
    RatioBelowOne(velocidadOnda - velocidadObservador, velocidadOnda);
    PositiveFactorPreservesOrder(frecuenciaFuente, 1.0, q);
    var p := (velocidadOnda + velocidadObservador) / velocidadOnda;
    RatioAboveOne(velocidadOnda + velocidadObservador, velocidadOnda);
    PositiveFactorPreservesOrder(frecuenciaFuente, p, 1.0);
  }

  /** The signed speeds of the usual Doppler formula f (v + vo) / (v - vs):
    * an approaching observer adds its speed, an approaching source
    * subtracts its own. */
  function OrientadaObservador(velocidad: real, direccion: string): real
  {
    if direccion == ACERCANDOSE then velocidad else -velocidad
  }

  /** The Doppler frequency with the observer's sign corrected; validation,
    * messages and the source branch are those of the code. */
  function CalcularFrecuenciaObservadaDopplerCorregida(frecuenciaFuente: real, velocidadOnda: real,
                                                       velocidadObservador: real, velocidadFuente: real,
                                                       direccionObservador: string, direccionFuente: string)
    : (r: Result<real>)
    ensures velocidadOnda == 0.0 ==> r == Err(ValueError(ONDA_CERO))
    ensures velocidadOnda != 0.0 && !DireccionValida(direccionObservador) ==> r == Err(ValueError(OBSERVADOR_INVALIDO))
    ensures velocidadOnda != 0.0 && DireccionValida(direccionObservador) && !DireccionValida(direccionFuente) ==>
      r == Err(ValueError(FUENTE_INVALIDA))
    ensures r.Ok? <==>
      velocidadOnda != 0.0 && DireccionValida(direccionObservador) && DireccionValida(direccionFuente)
      && velocidadOnda + Orientada(velocidadFuente, direccionFuente) != 0.0
    ensures (velocidadOnda != 0.0 && DireccionValida(direccionObservador) && DireccionValida(direccionFuente)
             && velocidadOnda + Orientada(velocidadFuente, direccionFuente) == 0.0) ==> r == Err(ZeroDivisionError)
    ensures r.Ok? ==>
      r.value * (velocidadOnda + Orientada(velocidadFuente, direccionFuente))
      == frecuenciaFuente * (velocidadOnda + OrientadaObservador(velocidadObservador, direccionObservador))
  {
    if velocidadOnda == 0.0 then Err(ValueError(ONDA_CERO))
    else if !DireccionValida(direccionObservador) then Err(ValueError(OBSERVADOR_INVALIDO))
    else if !DireccionValida(direccionFuente) then Err(ValueError(FUENTE_INVALIDA))
    else
      var vo := OrientadaObservador(velocidadObservador, direccionObservador);
      var vs := Orientada(velocidadFuente, direccionFuente);
      if velocidadOnda + vs == 0.0 then Err(ZeroDivisionError)
      else
        DopplerQuotient(frecuenciaFuente, velocidadOnda + vo, velocidadOnda + vs);
        Ok(frecuenciaFuente * ((velocidadOnda + vo) / (velocidadOnda + vs)))
  }

  /** With the correction an approaching observer hears a higher pitch and
    * a receding one, slower than the wave, a lower pitch. */
  lemma ObserverPitchFollowsMotion(frecuenciaFuente: real, velocidadOnda: real, velocidadObservador: real)
    requires frecuenciaFuente > 0.0 && 0.0 < velocidadObservador < velocidadOnda
    ensures CalcularFrecuenciaObservadaDopplerCorregida(frecuenciaFuente, velocidadOnda, velocidadObservador, 0.0,
                                                        ACERCANDOSE, ALEJANDOSE).value > frecuenciaFuente
    ensures CalcularFrecuenciaObservadaDopplerCorregida(frecuenciaFuente, velocidadOnda, velocidadObservador, 0.0,
                                                        ALEJANDOSE, ALEJANDOSE).value < frecuenciaFuente
  {
    var arriba := (velocidadOnda + velocidadObservador) / velocidadOnda;
    RatioAboveOne(velocidadOnda + velocidadObservador, velocidadOnda);
    PositiveFactorPreservesOrder(frecuenciaFuente, arriba, 1.0);
    var abajo := (velocidadOnda - velocidadObservador) / velocidadOnda;
    RatioBelowOne(velocidadOnda - velocidadObservador, velocidadOnda);
    PositiveFactorPreservesOrder(frecuenciaFuente, 1.0, abajo);
  }

  /** The correction changes nothing when the observer is at rest. */
  lemma CorrectionAgreesForStillObserver(frecuenciaFuente: real, velocidadOnda: real, velocidadFuente: real,
                                         direccionObservador: string, direccionFuente: string)
    ensures CalcularFrecuenciaObservadaDopplerCorregida(frecuenciaFuente, velocidadOnda, 0.0, velocidadFuente,
                                                        direccionObservador, direccionFuente)
         == CalcularFrecuenciaObservadaDoppler(frecuenciaFuente, velocidadOnda, 0.0, velocidadFuente,
                                               direccionObservador, direccionFuente)
  {
    var corregida := CalcularFrecuenciaObservadaDopplerCorregida(frecuenciaFuente, velocidadOnda, 0.0, velocidadFuente,
                                                                 direccionObservador, direccionFuente);
    var escrita := CalcularFrecuenciaObservadaDoppler(frecuenciaFuente, velocidadOnda, 0.0, velocidadFuente,
                                                      direccionObservador, direccionFuente);
    if corregida.Ok? {
      var den := velocidadOnda + Orientada(velocidadFuente, direccionFuente);
      assert OrientadaObservador(0.0, direccionObservador) == 0.0 == Orientada(0.0, direccionObservador);
      assert den * corregida.value == den * escrita.value;
      CancelFactor(den, corregida.value, escrita.value);
    }
  }

  /** Dividing by 4 pi d^2, the area of the sphere of radius d, is dividing
    * by 4 pi and then by d^2. */
  lemma SphereQuotient(x: real, d: real)
    requires d != 0.0
    ensures 4.0 * PI * (d * d) > 0.0
    ensures (x / (4.0 * PI * (d * d))) * (4.0 * PI * (d * d)) == x
    ensures x >= 0.0 ==> x / (4.0 * PI * (d * d)) >= 0.0
    ensures x / (4.0 * PI * (d * d)) == (x / (4.0 * PI)) * (1.0 / d) * (1.0 / d)
  {
    SquarePositive(d);
    var y := x / (4.0 * PI);
    InverseSquare(y, d);
    var q := x / (4.0 * PI * (d * d));
    assert (4.0 * PI * (d * d)) * q == (4.0 * PI * (d * d)) * (y / (d * d));
    CancelFactor(4.0 * PI * (d * d), q, y / (d * d));
  }

  /** calcular_intensidad_sonido: the power spread over the sphere of radius
    * d. */
  function CalcularIntensidadSonido(potenciaFuente: real, distancia: real): (r: Result<real>)
    ensures r.Err? <==> distancia == 0.0
    ensures r.Err? ==> r.error == ValueError(DISTANCIA_CERO)
    ensures r.Ok? ==> r.value * (4.0 * PI * (distancia * distancia)) == potenciaFuente
    ensures r.Ok? && potenciaFuente >= 0.0 ==> r.value >= 0.0
  {
    if distancia == 0.0 then Err(ValueError(DISTANCIA_CERO))
    else
      SphereQuotient(potenciaFuente, distancia);
      Ok(potenciaFuente / (4.0 * PI * (distancia * distancia)))
  }

  /** Inverse square law: twice the distance, a quarter of the intensity. */
  lemma IntensityInverseSquare(potenciaFuente: real, distancia: real)
    requires distancia != 0.0
    ensures CalcularIntensidadSonido(potenciaFuente, 2.0 * distancia).value
         == CalcularIntensidadSonido(potenciaFuente, distancia).value / 4.0
  {
    var m := 1.0 / distancia;
    SphereQuotient(potenciaFuente, distancia);
    SphereQuotient(potenciaFuente, 2.0 * distancia);
    assert 1.0 / (2.0 * distancia) == m / 2.0;
  }

  /** calcular_longitud_onda: lambda = v / f. */
  function CalcularLongitudOnda(velocidad: real, frecuencia: real): (r: Result<real>)
    ensures r.Err? <==> frecuencia == 0.0
    ensures r.Err? ==> r.error == ValueError(FRECUENCIA_CERO)
    ensures r.Ok? ==> r.value * frecuencia == velocidad
  {
    if frecuencia == 0.0 then Err(ValueError(FRECUENCIA_CERO))
    else Ok(velocidad / frecuencia)
  }

  /** calcular_frecuencia_onda: f = v / lambda. */
  function CalcularFrecuenciaOnda(velocidad: real, longitudOnda: real): (r: Result<real>)
    ensures r.Err? <==> longitudOnda == 0.0
    ensures r.Err? ==> r.error == ValueError(LONGITUD_CERO)
    ensures r.Ok? ==> r.value * longitudOnda == velocidad
  {
    if longitudOnda == 0.0 then Err(ValueError(LONGITUD_CERO))
    else Ok(velocidad / longitudOnda)
  }

  /** calcular_velocidad_onda: v = lambda f. */
  function CalcularVelocidadOnda(longitudOnda: real, frecuencia: real): (v: real)
    ensures frecuencia != 0.0 ==> v / frecuencia == longitudOnda
    ensures longitudOnda != 0.0 ==> v / longitudOnda == frecuencia
    ensures longitudOnda == 0.0 || frecuencia == 0.0 ==> v == 0.0
  {
    longitudOnda * frecuencia
  }

  /** The three relations invert each other: the speed of a wave gives back
    * its wavelength and its frequency. */
  lemma WaveRelationsRoundTrip(longitudOnda: real, frecuencia: real)
    ensures frecuencia != 0.0 ==>
      CalcularLongitudOnda(CalcularVelocidadOnda(longitudOnda, frecuencia), frecuencia) == Ok(longitudOnda)
    ensures longitudOnda != 0.0 ==>
      CalcularFrecuenciaOnda(CalcularVelocidadOnda(longitudOnda, frecuencia), longitudOnda) == Ok(frecuencia)
  {
  }

  /** calcular_velocidad_onda_medio: c / n. */
  function CalcularVelocidadOndaMedio(velocidadLuzVacio: real, indiceRefraccion: real): (r: Result<real>)
    ensures r.Err? <==> indiceRefraccion == 0.0
    ensures r.Err? ==> r.error == ValueError(INDICE_CERO)
    ensures r.Ok? ==> r.value * indiceRefraccion == velocidadLuzVacio
  {
    if indiceRefraccion == 0.0 then Err(ValueError(INDICE_CERO))
    else Ok(velocidadLuzVacio / indiceRefraccion)
  }

  /** A medium with index above 1 slows a positive speed down. */
  lemma DenserMediumIsSlower(velocidadLuzVacio: real, indiceRefraccion: real)
    requires velocidadLuzVacio > 0.0 && indiceRefraccion > 1.0
    ensures 0.0 < CalcularVelocidadOndaMedio(velocidadLuzVacio, indiceRefraccion).value < velocidadLuzVacio
  {
    var v := CalcularVelocidadOndaMedio(velocidadLuzVacio, indiceRefraccion).value;
    FactorPositive(indiceRefraccion, v, velocidadLuzVacio);
    assert v * indiceRefraccion == velocidadLuzVacio;
    PositiveFactorPreservesOrder(v, indiceRefraccion, 1.0);
  }
}
