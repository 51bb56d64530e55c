/** The mechanical-energy calculator of the equation package: the energies
  * of a body at two heights when mechanical energy is conserved, and the
  * speed it has at the second height. */
module EcuacionesEnergia {
  import opened Py
  import opened FormulasEnergia
  import FormulasCinematica

  /** The dictionary the calculator returns; `estadoAnimacion` is its nested
    * animation dictionary. */
  datatype Conservacion = Conservacion(energiaPotencialInicial: real, energiaCineticaInicial: real,
                                       energiaMecanicaInicial: real, energiaPotencialFinal: real,
                                       energiaCineticaFinal: real, energiaMecanicaFinal: real,
                                       velocidadFinal: real, estadoAnimacion: Dict)

  /** The speed sqrt(2K/m) carries the kinetic energy K. */
  lemma SpeedOfKineticEnergy(masa: real, k: real, sqrt: real -> real)
    requires IsSqrt(sqrt)
    requires masa > 0.0
    ensures k >= 0.0 ==> sqrt(2.0 * k / masa) >= 0.0 && Cinetica(masa, sqrt(2.0 * k / masa)) == k
  {
    if k < 0.0 {
      return;
    }
    var v := sqrt(2.0 * k / masa);
    assert v * v == 2.0 * k / masa;
    DivMulCancel(2.0 * k, masa);
    assert masa * (v * v) == 2.0 * k;
  }

  /** calcular_energia_potencial_gravitatoria of the equation package. The
    * final kinetic energy is what conservation leaves after the final
    * potential energy; when that is negative the body never reaches the
    * final height and its speed is reported as 0. */
  function CalcularEnergiaPotencialGravitatoria(masa: real, alturaInicial: real, alturaFinal: real,
                                                velocidadInicial: real, sqrt: real -> real)
    : (r: Result<Conservacion>)
    requires IsSqrt(sqrt)
    ensures r.Err? <==> masa <= 0.0
    ensures r.Err? ==> r.error == ValueError(MASA_POSITIVA)
    ensures r.Ok? ==>
      var c := r.value;
      c.energiaPotencialInicial == Potencial(masa, alturaInicial)
      && c.energiaCineticaInicial == Cinetica(masa, velocidadInicial)
      && c.energiaMecanicaInicial == c.energiaPotencialInicial + c.energiaCineticaInicial
      && c.energiaMecanicaFinal == c.energiaMecanicaInicial
      && c.energiaPotencialFinal == Potencial(masa, alturaFinal)
      && c.energiaPotencialFinal + c.energiaCineticaFinal == c.energiaMecanicaFinal
    ensures r.Ok? ==>
      var c := r.value;
      && (c.energiaCineticaFinal < 0.0 ==> c.velocidadFinal == 0.0)
      && (c.energiaCineticaFinal >= 0.0 ==>
            c.velocidadFinal >= 0.0 && Cinetica(masa, c.velocidadFinal) == c.energiaCineticaFinal)
    ensures r.Ok? ==>
      var c := r.value;
      c.estadoAnimacion
      == map["altura_inicial" := alturaInicial, "altura_final" := alturaFinal,
             "velocidad_inicial" := velocidadInicial, "velocidad_final" := c.velocidadFinal,
             "energia_potencial_inicial" := c.energiaPotencialInicial,
             "energia_cinetica_inicial" := c.energiaCineticaInicial,
             "energia_mecanica_inicial" := c.energiaMecanicaInicial,
             "energia_potencial_final" := c.energiaPotencialFinal,
             "energia_cinetica_final" := c.energiaCineticaFinal,
             "energia_mecanica_final" := c.energiaMecanicaFinal]
  {
    if masa <= 0.0 then Err(ValueError(MASA_POSITIVA))
    else
      var potencialInicial := masa * GRAVEDAD * alturaInicial;
      var cineticaInicial := 0.5 * masa * velocidadInicial * velocidadInicial;
      var mecanicaInicial := potencialInicial + cineticaInicial;
      var mecanicaFinal := mecanicaInicial;
      var potencialFinal := masa * GRAVEDAD * alturaFinal;
      var cineticaFinal := mecanicaFinal - potencialFinal;
      SpeedOfKineticEnergy(masa, cineticaFinal, sqrt);
      var velocidadFinal := if cineticaFinal < 0.0 then 0.0 else sqrt(2.0 * cineticaFinal / masa);
      var estado := map["altura_inicial" := alturaInicial, "altura_final" := alturaFinal,
                        "velocidad_inicial" := velocidadInicial, "velocidad_final" := velocidadFinal,
                        "energia_potencial_inicial" := potencialInicial,
                        "energia_cinetica_inicial" := cineticaInicial,
                        "energia_mecanica_inicial" := mecanicaInicial,
                        "energia_potencial_final" := potencialFinal,
                        "energia_cinetica_final" := cineticaFinal,
                        "energia_mecanica_final" := mecanicaFinal];
      Ok(Conservacion(potencialInicial, cineticaInicial, mecanicaInicial, potencialFinal, cineticaFinal,
                      mecanicaFinal, velocidadFinal, estado))
  }

  /** The body falls short of the final height exactly when that height lies
    * above the highest point its energy reaches, h_i + v_i^2 / (2 g). */
  lemma UnreachableHeight(masa: real, alturaInicial: real, alturaFinal: real,
                                             velocidadInicial: real, sqrt: real -> real)
    requires IsSqrt(sqrt)
    requires masa > 0.0
    ensures var c := CalcularEnergiaPotencialGravitatoria(masa, alturaInicial, alturaFinal, velocidadInicial, sqrt).value;
      c.energiaCineticaFinal < 0.0
      <==> alturaFinal > alturaInicial + velocidadInicial * velocidadInicial / (2.0 * GRAVEDAD)
  {
    var c := CalcularEnergiaPotencialGravitatoria(masa, alturaInicial, alturaFinal, velocidadInicial, sqrt).value;
    var pico := alturaInicial + velocidadInicial * velocidadInicial / (2.0 * GRAVEDAD);
    var mg := masa * GRAVEDAD;
    assert mg > 0.0 by { MulPositive(masa, GRAVEDAD); }
    assert c.energiaCineticaFinal == mg * pico - mg * alturaFinal by {
      assert Cinetica(masa, velocidadInicial) == mg * (velocidadInicial * velocidadInicial / (2.0 * GRAVEDAD));
    }
    PositiveFactorPreservesOrder(mg, alturaFinal, pico);
  }

  /** A body that ends at its starting height keeps its speed. */
  lemma SameHeightKeepsSpeed(masa: real, altura: real, velocidadInicial: real, sqrt: real -> real)
    requires IsSqrt(sqrt)
    requires masa > 0.0
    ensures CalcularEnergiaPotencialGravitatoria(masa, altura, altura, velocidadInicial, sqrt).value.velocidadFinal
         == Abs(velocidadInicial)
  {
    var c := CalcularEnergiaPotencialGravitatoria(masa, altura, altura, velocidadInicial, sqrt).value;
    assert c.energiaCineticaFinal == Cinetica(masa, velocidadInicial);
    CineticaSign(masa, velocidadInicial);
    SpeedFromKineticEnergy(masa, velocidadInicial, sqrt);
  }

  /** Dropped from rest, the body reaches a lower height with the speed of
    * free fall through the difference: the conservation calculator agrees
    * with the kinematics formula v = sqrt(2 g h). */
  lemma DropMatchesFreeFall(masa: real, alturaInicial: real, alturaFinal: real, sqrt: real -> real)
    requires IsSqrt(sqrt)
    requires masa > 0.0 && alturaFinal <= alturaInicial
    ensures CalcularEnergiaPotencialGravitatoria(masa, alturaInicial, alturaFinal, 0.0, sqrt).value.velocidadFinal
         == FormulasCinematica.CalcularVelocidadFinalCaidaLibre(alturaInicial - alturaFinal, sqrt).value
  {
    var c := CalcularEnergiaPotencialGravitatoria(masa, alturaInicial, alturaFinal, 0.0, sqrt).value;
    var h := alturaInicial - alturaFinal;
    var v := FormulasCinematica.CalcularVelocidadFinalCaidaLibre(h, sqrt).value;
    var mg := masa * GRAVEDAD;
    assert c.energiaCineticaFinal == mg * h;
    assert mg > 0.0 by { MulPositive(masa, GRAVEDAD); }
    MulNonNegative(mg, h);
    var w := c.velocidadFinal;
    assert 0.5 * masa * w * w == mg * h;
    assert w * w == 2.0 * GRAVEDAD * h by {
      CancelFactor(0.5 * masa, w * w, 2.0 * GRAVEDAD * h);
    }
    SquareRootUnique(w, v);
  }
}
