/** The energy formula library: kinetic, elastic and gravitational energy,
  * power and the work-energy theorem. */
module FormulasEnergia {
  import opened Py

  const MASA_POSITIVA: string := "La masa debe ser positiva."

  /** K = m v^2 / 2 and U = m g h, the two quantities every calculator of
    * this library and of the conservation calculator combines. */
  function Cinetica(masa: real, velocidad: real): real
  {
    0.5 * masa * velocidad * velocidad
  }

  function Potencial(masa: real, altura: real): real
  {
    masa * GRAVEDAD * altura
  }

  /** A positive mass moving at speed v carries positive energy, and none at
    * rest; opposite velocities carry the same energy. */
  lemma CineticaSign(masa: real, velocidad: real)
    requires masa > 0.0
    ensures Cinetica(masa, velocidad) >= 0.0
    ensures Cinetica(masa, velocidad) == 0.0 <==> velocidad == 0.0
    ensures Cinetica(masa, -velocidad) == Cinetica(masa, velocidad)
  {
    if velocidad != 0.0 {
      CineticaPositive(masa, velocidad);
    }
    assert (-velocidad) * (-velocidad) == velocidad * velocidad;
  }

  lemma CineticaPositive(masa: real, velocidad: real)
    requires masa > 0.0 && velocidad != 0.0
    ensures Cinetica(masa, velocidad) > 0.0
  {
    if velocidad > 0.0 {
      MulPositive(masa, velocidad);
      MulPositive(masa * velocidad, velocidad);
    } else {
      MulPositive(masa, -velocidad);
      MulPositive(masa * -velocidad, -velocidad);
    }
  }

  /** calcular_energia_cinetica */
  function CalcularEnergiaCinetica(masa: real, velocidad: real): (r: Result<real>)
    ensures r.Err? <==> masa <= 0.0
    ensures r.Err? ==> r.error == ValueError(MASA_POSITIVA)
    ensures r.Ok? ==> r.value >= 0.0 && (r.value == 0.0 <==> velocidad == 0.0)
    ensures r.Ok? ==> r.value == Cinetica(masa, velocidad)
  {
    if masa <= 0.0 then Err(ValueError(MASA_POSITIVA))
    else
      CineticaSign(masa, velocidad);
      Ok(0.5 * masa * velocidad * velocidad)
  }

  /** The speed is recovered from the energy up to its sign:
    * sqrt(2K/m) = |v|. */
  lemma SpeedFromKineticEnergy(masa: real, velocidad: real, sqrt: real -> real)
    requires IsSqrt(sqrt)
    requires masa > 0.0
    ensures sqrt(2.0 * CalcularEnergiaCinetica(masa, velocidad).value / masa) == Abs(velocidad)
  {
    var k := CalcularEnergiaCinetica(masa, velocidad).value;
    var a := Abs(velocidad);
    KineticQuotient(k, masa, velocidad, a);
    SqrtOfSquare(sqrt, a);
  }

  lemma KineticQuotient(k: real, masa: real, v: real, a: real)
    requires masa > 0.0 && k == 0.5 * masa * v * v && a == Abs(v)
    ensures 2.0 * k / masa == a * a
  {
    var q := v * v;
    assert 2.0 * k == q * masa;
    MulDivCancel(q, masa);
    assert a * a == q;
  }

  /** calcular_energia_potencial_elastica: {"energia_potencial": k x^2 / 2}. */
  function CalcularEnergiaPotencialElastica(constante: real, deformacion: real): (r: Result<Dict>)
    ensures r.Err? <==> constante <= 0.0
    ensures r.Err? ==> r.error == ValueError("La constante elástica debe ser positiva.")
    ensures r.Ok? ==> r.value.Keys == {"energia_potencial"}
    ensures r.Ok? ==> r.value["energia_potencial"] >= 0.0
    ensures r.Ok? ==> (r.value["energia_potencial"] == 0.0 <==> deformacion == 0.0)
    ensures r.Ok? ==> 2.0 * r.value["energia_potencial"] / constante == deformacion * deformacion
  {
    if constante <= 0.0 then Err(ValueError("La constante elástica debe ser positiva."))
    else
      CineticaSign(constante, deformacion);
      Ok(map["energia_potencial" := 0.5 * constante * (deformacion * deformacion)])
  }

  /** Stretching and compressing a spring by the same amount store the same
    * energy, and a longer deformation stores more. */
  lemma ElasticEnergySymmetricAndIncreasing(constante: real, x: real, y: real)
    requires constante > 0.0
    requires 0.0 <= x < y
    ensures CalcularEnergiaPotencialElastica(constante, -x) == CalcularEnergiaPotencialElastica(constante, x)
    ensures CalcularEnergiaPotencialElastica(constante, x).value["energia_potencial"]
          < CalcularEnergiaPotencialElastica(constante, y).value["energia_potencial"]
  {
    assert (-x) * (-x) == x * x;
    assert CalcularEnergiaPotencialElastica(constante, x).value["energia_potencial"] == 0.5 * constante * (x * x);
    assert CalcularEnergiaPotencialElastica(constante, y).value["energia_potencial"] == 0.5 * constante * (y * y);
    SquareStrictlyIncreasing(x, y);
    assert 0.5 * constante * (x * x) < 0.5 * constante * (y * y) by {
      MulPositive(0.5 * constante, y * y - x * x);
    }
  }

  /** calcular_energia_potencial_gravitatoria of the formula library: the
    * mass is checked first, then the height. */
  function CalcularEnergiaPotencialGravitatoria(masa: real, altura: real): (r: Result<Dict>)
    ensures r.Err? <==> masa <= 0.0 || altura < 0.0
    ensures masa <= 0.0 ==> r == Err(ValueError(MASA_POSITIVA))
    ensures masa > 0.0 && altura < 0.0 ==> r == Err(ValueError("La altura no puede ser negativa."))
    ensures r.Ok? ==> r.value.Keys == {"energia_potencial"}
    ensures r.Ok? ==> r.value["energia_potencial"] >= 0.0
    ensures r.Ok? ==> (r.value["energia_potencial"] == 0.0 <==> altura == 0.0)
  {
    if masa <= 0.0 then Err(ValueError(MASA_POSITIVA))
    else if altura < 0.0 then Err(ValueError("La altura no puede ser negativa."))
    else
      PotencialSign(masa, altura);
      Ok(map["energia_potencial" := masa * GRAVEDAD * altura])
  }

  lemma PotencialSign(masa: real, altura: real)
    requires masa > 0.0 && altura >= 0.0
    ensures masa * GRAVEDAD * altura >= 0.0
    ensures masa * GRAVEDAD * altura == 0.0 <==> altura == 0.0
  {
    MulPositive(masa, GRAVEDAD);
    if altura > 0.0 {
      MulPositive(masa * GRAVEDAD, altura);
    }
  }

  /** Lifting a body by d adds exactly m g d to its potential energy. */
  lemma GravitationalEnergyOfLift(masa: real, altura: real, d: real)
    requires masa > 0.0 && altura >= 0.0 && d >= 0.0
    ensures CalcularEnergiaPotencialGravitatoria(masa, altura + d).value["energia_potencial"]
         == CalcularEnergiaPotencialGravitatoria(masa, altura).value["energia_potencial"] + masa * GRAVEDAD * d
  {
  }

  /** calcular_potencia: the work over a positive time. */
  function CalcularPotencia(trabajo: real, tiempo: real): (r: Result<real>)
    ensures r.Err? <==> tiempo <= 0.0
    ensures r.Err? ==> r.error == ValueError("El tiempo debe ser un valor positivo.")
    ensures r.Ok? ==> r.value * tiempo == trabajo
  {
    if tiempo <= 0.0 then Err(ValueError("El tiempo debe ser un valor positivo."))
    else Ok(trabajo / tiempo)
  }

  /** calcular_potencia_velocidad */
  function CalcularPotenciaVelocidad(fuerza: real, velocidad: real): (p: real)
    ensures velocidad != 0.0 ==> p / velocidad == fuerza
    ensures velocidad == 0.0 ==> p == 0.0
  {
    fuerza * velocidad
  }

  /** A constant force moving a body at constant speed for a time t does the
    * work F v t, at the power F v. */
  lemma PowerOfConstantForce(fuerza: real, velocidad: real, tiempo: real)
    requires tiempo > 0.0
    ensures CalcularPotencia(fuerza * (velocidad * tiempo), tiempo)
         == Ok(CalcularPotenciaVelocidad(fuerza, velocidad))
  {
    var p := CalcularPotencia(fuerza * (velocidad * tiempo), tiempo).value;
    assert p * tiempo == (fuerza * velocidad) * tiempo;
    MulDivCancel(fuerza * velocidad, tiempo);
  }

  /** calcular_trabajo_energia_cinetica: the work equals the change of
    * kinetic energy; both velocities are echoed. */
  function CalcularTrabajoEnergiaCinetica(masa: real, vi: real, vf: real): (r: Result<Dict>)
    ensures r.Err? <==> masa <= 0.0
    ensures r.Err? ==> r.error == ValueError(MASA_POSITIVA)
    ensures r.Ok? ==>
      r.value.Keys == {"trabajo", "energia_cinetica_inicial", "energia_cinetica_final", "velocidad_inicial", "velocidad_final"}
      && r.value["energia_cinetica_inicial"] == CalcularEnergiaCinetica(masa, vi).value
      && r.value["energia_cinetica_final"] == CalcularEnergiaCinetica(masa, vf).value
      && r.value["trabajo"] == r.value["energia_cinetica_final"] - r.value["energia_cinetica_inicial"]
      && r.value["velocidad_inicial"] == vi && r.value["velocidad_final"] == vf
  {
    if masa <= 0.0 then Err(ValueError(MASA_POSITIVA))
    else
      var inicial := 0.5 * masa * (vi * vi);
      var final := 0.5 * masa * (vf * vf);
      Ok(map["trabajo" := final - inicial, "energia_cinetica_inicial" := inicial,
             "energia_cinetica_final" := final, "velocidad_inicial" := vi, "velocidad_final" := vf])
  }

  function Trabajo(masa: real, vi: real, vf: real): real
    requires masa > 0.0
  {
    CalcularTrabajoEnergiaCinetica(masa, vi, vf).value["trabajo"]
  }

  /** Work adds up along a chain of speeds, and no work is done exactly when
    * the speed keeps its magnitude. */
  lemma WorkIsAdditive(masa: real, v1: real, v2: real, v3: real)
    requires masa > 0.0
    ensures Trabajo(masa, v1, v2) + Trabajo(masa, v2, v3) == Trabajo(masa, v1, v3)
    ensures Trabajo(masa, v1, v2) == -Trabajo(masa, v2, v1)
  {
  }

  lemma NoWorkIffSameSpeed(masa: real, vi: real, vf: real)
    requires masa > 0.0
    ensures Trabajo(masa, vi, vf) == 0.0 <==> Abs(vi) == Abs(vf)
  {
    var a, b := Abs(vi), Abs(vf);
    assert a * a == vi * vi && b * b == vf * vf;
    if Trabajo(masa, vi, vf) == 0.0 {
      assert 0.5 * masa * (vf * vf) == 0.5 * masa * (vi * vi);
      assert vf * vf == vi * vi;
      SquareRootUnique(a, b);
    }
  }
}
