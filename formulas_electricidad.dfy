/** The electricity and magnetism formula library: resistor networks, Ohm's
  * law in its three forms and its power dispatch, capacitors and inductors,
  * point charges and wires, Faraday's law and electrical efficiency. */
module FormulasElectricidad {
  import opened Py

  /** The Coulomb constant every point-charge formula defaults to. */
  const K_COULOMB: real := 8987500000.0

  /** The vacuum permeability the wire field defaults to, 4 pi 10^-7. */
  const MU_0: real := 4.0 * PI * 0.0000001

  const DISTANCIA_CERO: string := "La distancia no puede ser cero."

  // ------------------------------------------------------------ resistors

  /** calcular_resistencia_total_serie: the resistances added in order. */
  function CalcularResistenciaTotalSerie(resistencias: seq<real>): (r: real)
    ensures resistencias == [] ==> r == 0.0
  {
    Sum(resistencias)
  }

  /** Two series chains joined end to end add up, and n equal resistors in
    * series make n times one of them. */
  lemma SeriesChainsAdd(a: seq<real>, b: seq<real>)
    ensures CalcularResistenciaTotalSerie(a + b) == CalcularResistenciaTotalSerie(a) + CalcularResistenciaTotalSerie(b)
  {
    SumAppend(a, b);
  }

  lemma SeriesOfEqualResistors(n: nat, r: real)
    ensures CalcularResistenciaTotalSerie(seq(n, _ => r)) == (n as real) * r
  {
    SumConstant(n, r);
  }

  /** The reciprocals 1/r of resistances none of which is zero. */
  function Reciprocos(resistencias: seq<real>): (s: seq<real>)
    requires 0.0 !in resistencias
    ensures |s| == |resistencias|
    ensures forall i :: 0 <= i < |s| ==> s[i] * resistencias[i] == 1.0
  {
    seq(|resistencias|, i requires 0 <= i < |resistencias| => 1.0 / resistencias[i])
  }

  const RESISTENCIA_CERO: string := "No se puede calcular la resistencia en paralelo si alguna resistencia es cero."

  /** calcular_resistencia_total_paralelo: a zero resistance is refused;
    * otherwise the result is 1 / sum(1/r), and a reciprocal sum of zero
    * (the empty list among others) divides by zero. */
  function CalcularResistenciaTotalParalelo(resistencias: seq<real>): (r: Result<real>)
    ensures 0.0 in resistencias <==> r == Err(ValueError(RESISTENCIA_CERO))
    ensures 0.0 !in resistencias ==>
      (r == Err(ZeroDivisionError) <==> Sum(Reciprocos(resistencias)) == 0.0)
    ensures 0.0 !in resistencias && r.Ok? ==> r.value * Sum(Reciprocos(resistencias)) == 1.0
    ensures resistencias == [] ==> r == Err(ZeroDivisionError)
  {
    if 0.0 in resistencias then Err(ValueError(RESISTENCIA_CERO))
    else Inverso(Sum(Reciprocos(resistencias)))
  }

  /** 1 / s, which Python refuses for s == 0. */
  function Inverso(s: real): (r: Result<real>)
    ensures r.Err? <==> s == 0.0
    ensures r.Err? ==> r.error == ZeroDivisionError
    ensures r.Ok? ==> r.value * s == 1.0
  {
    if s == 0.0 then Err(ZeroDivisionError) else Ok(1.0 / s)
  }

  /** A sum of positive terms exceeds each of them. */
  lemma {:induction false} SumOfPositivesBoundsEach(s: seq<real>, i: nat)
    requires forall j :: 0 <= j < |s| ==> s[j] > 0.0
    requires i < |s|
    ensures Sum(s) >= s[i] && Sum(s) > 0.0
  {
    var init := s[..|s| - 1];
    if i == |s| - 1 {
      if init != [] {
        SumOfPositivesBoundsEach(init, 0);
      }
    } else {
      SumOfPositivesBoundsEach(init, i);
    }
  }

  /** Positive resistors in parallel give a positive resistance no larger
    * than the smallest of them. */
  lemma ParallelBelowEachResistor(resistencias: seq<real>, i: nat)
    requires forall j :: 0 <= j < |resistencias| ==> resistencias[j] > 0.0
    requires i < |resistencias|
    ensures CalcularResistenciaTotalParalelo(resistencias).Ok?
    ensures 0.0 < CalcularResistenciaTotalParalelo(resistencias).value <= resistencias[i]
  {
    var inv := Reciprocos(resistencias);
    forall j | 0 <= j < |inv|
      ensures inv[j] > 0.0
    {
      FactorPositive(resistencias[j], inv[j], 1.0);
    }
    SumOfPositivesBoundsEach(inv, i);
    var r := CalcularResistenciaTotalParalelo(resistencias).value;
    ReciprocalBound(r, Sum(inv), inv[i], resistencias[i]);
  }

  /** If r s = 1 and y x = 1 with 0 < x <= s, then 0 < r <= y. */
  lemma ReciprocalBound(r: real, s: real, x: real, y: real)
    requires r * s == 1.0 && y * x == 1.0
    requires 0.0 < x <= s
    ensures 0.0 < r <= y
  {
    FactorPositive(s, r, 1.0);
    PositiveFactorPreservesOrder(r, x, s);
    assert x * r <= x * y;
    PositiveFactorPreservesOrder(x, r, y);
  }

  /** Two equal resistors in parallel halve the resistance. */
  lemma TwoEqualInParallel(r: real)
    requires r != 0.0
    ensures CalcularResistenciaTotalParalelo([r, r]).Ok?
    ensures CalcularResistenciaTotalParalelo([r, r]).value == r / 2.0
  {
    var inv := Reciprocos([r, r]);
    assert inv[..1][..0] == [];
    assert Sum(inv[..1]) == 1.0 / r;
    var s := Sum(inv);
    assert s == 2.0 / r;
    var p := CalcularResistenciaTotalParalelo([r, r]).value;
    assert p * s == 1.0;
    assert s * (r / 2.0) == 1.0;
    CancelFactor(s, p, r / 2.0);
  }

  /** calcular_corriente_total */
  function CalcularCorrienteTotal(voltajeTotal: real, resistenciaTotal: real): (r: Result<real>)
    ensures r.Err? <==> resistenciaTotal == 0.0
    ensures r.Err? ==> r.error == ValueError("La resistencia total no puede ser cero.")
    ensures r.Ok? ==> r.value * resistenciaTotal == voltajeTotal
  {
    if resistenciaTotal == 0.0 then Err(ValueError("La resistencia total no puede ser cero."))
    else Ok(voltajeTotal / resistenciaTotal)
  }

  /** calcular_voltaje_resistor: V = I R; calcular_voltaje_caida computes the
    * same product. */
  function CalcularVoltajeResistor(corriente: real, resistencia: real): (v: real)
    ensures resistencia != 0.0 ==> v / resistencia == corriente
    ensures resistencia == 0.0 ==> v == 0.0
  {
    corriente * resistencia
  }

  /** The current through a resistor is recovered from its voltage. */
  lemma CurrentFromVoltage(corriente: real, resistencia: real)
    requires resistencia != 0.0
    ensures CalcularCorrienteTotal(CalcularVoltajeResistor(corriente, resistencia), resistencia) == Ok(corriente)
  {
    var r := CalcularCorrienteTotal(CalcularVoltajeResistor(corriente, resistencia), resistencia);
    assert resistencia * r.value == resistencia * corriente;
    CancelFactor(resistencia, r.value, corriente);
  }

  /** calcular_potencia_disipada_resistor: P = I^2 R. */
  function CalcularPotenciaDisipadaResistor(corriente: real, resistencia: real): (p: real)
    ensures resistencia >= 0.0 ==> p >= 0.0
  {
    SquareTimesNonNegative(corriente, resistencia);
    (corriente * corriente) * resistencia
  }

  /** i^2 r keeps the sign of a non-negative r. */
  lemma SquareTimesNonNegative(i: real, r: real)
    ensures r >= 0.0 ==> (i * i) * r >= 0.0
  {
    if r >= 0.0 {
      if i >= 0.0 {
        MulNonNegative(i, r);
        MulNonNegative(i, i * r);
      } else {
        MulNonNegative(-i, r);
        MulNonNegative(-i, -i * r);
      }
      assert (i * i) * r == i * (i * r);
    }
  }

  /** calcular_potencia_electrica: P = V I. */
  function CalcularPotenciaElectrica(voltaje: real, corriente: real): (p: real)
    ensures corriente != 0.0 ==> p / corriente == voltaje
    ensures corriente == 0.0 ==> p == 0.0
  {
    voltaje * corriente
  }

  /** Joule heating: the power a resistor dissipates is its voltage times its
    * current. */
  lemma JouleHeating(corriente: real, resistencia: real)
    ensures CalcularPotenciaDisipadaResistor(corriente, resistencia)
         == CalcularPotenciaElectrica(CalcularVoltajeResistor(corriente, resistencia), corriente)
  {
  }

  /** calcular_resistencia */
  function CalcularResistencia(voltaje: real, corriente: real): (r: Result<real>)
    ensures r.Err? <==> corriente == 0.0
    ensures r.Err? ==> r.error == ValueError("La corriente no puede ser cero para calcular la resistencia.")
    ensures r.Ok? ==> r.value * corriente == voltaje
  {
    if corriente == 0.0 then Err(ValueError("La corriente no puede ser cero para calcular la resistencia."))
    else Ok(voltaje / corriente)
  }

  // ---------------------------------------------------- Ohm's law dispatch

  const CORRIENTE_SIN_RESISTENCIA: string := "La resistencia no puede ser cero para calcular la corriente."
  const RESISTENCIA_SIN_CORRIENTE: string := "La corriente no puede ser cero para calcular la resistencia."
  const TIPO_OHM_INVALIDO: string := "Tipo de cálculo no válido. Use 'voltaje', 'corriente' o 'resistencia'."

  /** calcular_ley_ohm: 'voltaje' multiplies, 'corriente' and 'resistencia'
    * divide by a non-zero second value, any other mode is refused. */
  function CalcularLeyOhm(valor1: real, valor2: real, tipo: string): (r: Result<real>)
    ensures tipo == "voltaje" ==> r.Ok? && (valor2 != 0.0 ==> r.value / valor2 == valor1)
    ensures tipo == "voltaje" && valor2 == 0.0 ==> r == Ok(0.0)
    ensures tipo == "corriente" ==>
      && (valor2 == 0.0 ==> r == Err(ValueError(CORRIENTE_SIN_RESISTENCIA)))
      && (valor2 != 0.0 ==> r.Ok? && r.value * valor2 == valor1)
    ensures tipo == "resistencia" ==>
      && (valor2 == 0.0 ==> r == Err(ValueError(RESISTENCIA_SIN_CORRIENTE)))
      && (valor2 != 0.0 ==> r.Ok? && r.value * valor2 == valor1)
    ensures tipo !in {"voltaje", "corriente", "resistencia"} ==>
      r == Err(ValueError(TIPO_OHM_INVALIDO))
  {
    if tipo == "voltaje" then Ok(valor1 * valor2)
    else if tipo == "corriente" then
      if valor2 == 0.0 then Err(ValueError(CORRIENTE_SIN_RESISTENCIA))
      else Ok(valor1 / valor2)
    else if tipo == "resistencia" then
      if valor2 == 0.0 then Err(ValueError(RESISTENCIA_SIN_CORRIENTE))
      else Ok(valor1 / valor2)
    else Err(ValueError(TIPO_OHM_INVALIDO))
  }

  /** The three modes are one law: from V = I R, the 'corriente' mode gives
    * back I and the 'resistencia' mode gives back R. */
  lemma OhmModesAgree(corriente: real, resistencia: real)
    requires corriente != 0.0 && resistencia != 0.0
    ensures var v := CalcularLeyOhm(corriente, resistencia, "voltaje").value;
      CalcularLeyOhm(v, resistencia, "corriente") == Ok(corriente)
      && CalcularLeyOhm(v, corriente, "resistencia") == Ok(resistencia)
  {
    var v := CalcularLeyOhm(corriente, resistencia, "voltaje").value;
    CancelFactor(resistencia, CalcularLeyOhm(v, resistencia, "corriente").value, corriente);
    CancelFactor(corriente, CalcularLeyOhm(v, corriente, "resistencia").value, resistencia);
  }

  /** calcular_potencia_ohm: V I when both are given, else I^2 R, else V^2 / R
    * with R non-zero; fewer than two inputs are refused. */
  function CalcularPotenciaOhm(voltaje: Option<real>, corriente: Option<real>, resistencia: Option<real>)
    : (r: Result<real>)
    ensures voltaje.Some? && corriente.Some? ==> r == Ok(CalcularPotenciaElectrica(voltaje.value, corriente.value))
    ensures (voltaje.None? || corriente.None?) && corriente.Some? && resistencia.Some? ==>
      r == Ok(CalcularPotenciaDisipadaResistor(corriente.value, resistencia.value))
    ensures corriente.None? && voltaje.Some? && resistencia.Some? ==>
      && (resistencia.value == 0.0 ==> r == Err(ValueError("La resistencia no puede ser cero para calcular la potencia.")))
      && (resistencia.value != 0.0 ==> r.Ok? && r.value * resistencia.value == voltaje.value * voltaje.value)
    ensures (voltaje.None? && corriente.None?) || (voltaje.None? && resistencia.None?) || (corriente.None? && resistencia.None?)
      ==> r == Err(ValueError("Se requieren al menos dos de los tres parámetros (voltaje, corriente, resistencia)."))
  {
    if voltaje.Some? && corriente.Some? then Ok(CalcularPotenciaElectrica(voltaje.value, corriente.value))
    else if corriente.Some? && resistencia.Some? then
      Ok(CalcularPotenciaDisipadaResistor(corriente.value, resistencia.value))
    else if voltaje.Some? && resistencia.Some? then
      if resistencia.value == 0.0 then Err(ValueError("La resistencia no puede ser cero para calcular la potencia."))
      else Ok(PotenciaVoltajeResistencia(voltaje.value, resistencia.value))
    else Err(ValueError("Se requieren al menos dos de los tres parámetros (voltaje, corriente, resistencia)."))
  }

  /** V^2 / R, the power of a voltage across a non-zero resistance. */
  function PotenciaVoltajeResistencia(voltaje: real, resistencia: real): (p: real)
    requires resistencia != 0.0
    ensures p * resistencia == voltaje * voltaje
  {
    (voltaje * voltaje) / resistencia
  }

  /** Whichever two of V = I R, I and R are given, the power is the same. */
  lemma PowerFormulasAgree(voltaje: real, corriente: real, resistencia: real)
    requires resistencia != 0.0
    requires voltaje == CalcularVoltajeResistor(corriente, resistencia)
    ensures CalcularPotenciaOhm(None, Some(corriente), Some(resistencia))
         == Ok(CalcularPotenciaDisipadaResistor(corriente, resistencia))
    ensures CalcularPotenciaOhm(Some(voltaje), Some(corriente), None)
         == Ok(CalcularPotenciaDisipadaResistor(corriente, resistencia))
    ensures CalcularPotenciaOhm(Some(voltaje), None, Some(resistencia))
         == Ok(CalcularPotenciaDisipadaResistor(corriente, resistencia))
  {
    JouleHeating(corriente, resistencia);
    var p := CalcularPotenciaOhm(Some(voltaje), None, Some(resistencia)).value;
    assert p * resistencia == voltaje * voltaje;
    assert resistencia * p == resistencia * ((corriente * corriente) * resistencia);
    CancelFactor(resistencia, p, (corriente * corriente) * resistencia);
  }

  // ------------------------------------------------- Kirchhoff's two laws

  /** calcular_ley_kirchhoff_voltaje: the sum of the voltages around a loop;
    * calcular_ley_kirchhoff_tension and calcular_ley_kirchhoff_corriente
    * compute the same sum over a node's currents. */
  function CalcularLeyKirchhoffVoltaje(voltajes: seq<real>): (suma: real)
    ensures voltajes == [] ==> suma == 0.0
  {
    Sum(voltajes)
  }

  function Negados(s: seq<real>): (n: seq<real>)
    ensures |n| == |s| && forall i :: 0 <= i < |s| ==> n[i] == -s[i]
  {
    seq(|s|, i requires 0 <= i < |s| => -s[i])
  }

  lemma {:induction false} SumNegated(s: seq<real>)
    ensures Sum(Negados(s)) == -Sum(s)
  {
    if s != [] {
      assert Negados(s)[..|s| - 1] == Negados(s[..|s| - 1]);
      SumNegated(s[..|s| - 1]);
    }
  }

  /** A loop whose source voltage is followed by its drops, entered as
    * negative voltages, sums to zero exactly when the drops add up to the
    * source. */
  lemma LoopBalanced(fuente: real, caidas: seq<real>)
    ensures CalcularLeyKirchhoffVoltaje([fuente] + Negados(caidas)) == 0.0 <==> fuente == Sum(caidas)
  {
    SumAppend([fuente], Negados(caidas));
    assert [fuente][..0] == [];
    SumNegated(caidas);
  }

  // ---------------------------------------------------- point charges

  /** calcular_campo_electrico_carga_puntual: k |q| / d^2. */
  function CalcularCampoElectricoCargaPuntual(carga: real, distancia: real, k: real): (r: Result<real>)
    ensures r.Err? <==> distancia == 0.0
    ensures r.Err? ==> r.error == ValueError(DISTANCIA_CERO)
    ensures r.Ok? ==> r.value * (distancia * distancia) == k * Abs(carga)
    ensures r.Ok? && k >= 0.0 ==> r.value >= 0.0
  {
    if distancia == 0.0 then Err(ValueError(DISTANCIA_CERO))
    else
      InverseSquare(k * Abs(carga), distancia);
      Ok((k * Abs(carga)) / (distancia * distancia))
  }

  /** calcular_fuerza_electrica_campo: F = q E. */
  function CalcularFuerzaElectricaCampo(cargaPrueba: real, campo: real): (f: real)
    ensures campo != 0.0 ==> f / campo == cargaPrueba
    ensures campo == 0.0 ==> f == 0.0
  {
    cargaPrueba * campo
  }

  /** calcular_fuerza_coulomb: k q1 q2 / d^2. */
  function CalcularFuerzaCoulomb(carga1: real, carga2: real, distancia: real, k: real): (r: Result<real>)
    ensures r.Err? <==> distancia == 0.0
    ensures r.Err? ==> r.error == ValueError(DISTANCIA_CERO)
    ensures r.Ok? ==> r.value * (distancia * distancia) == k * carga1 * carga2
  {
    if distancia == 0.0 then Err(ValueError(DISTANCIA_CERO))
    else
      InverseSquare(k * carga1 * carga2, distancia);
      Ok((k * carga1 * carga2) / (distancia * distancia))
  }

  /** The Coulomb force of a non-negative charge on a test charge is the test
    * charge times the field of the first. */
  lemma CoulombIsChargeTimesField(carga1: real, carga2: real, distancia: real, k: real)
    requires distancia != 0.0 && carga1 >= 0.0
    ensures CalcularFuerzaCoulomb(carga1, carga2, distancia, k).value
         == CalcularFuerzaElectricaCampo(carga2, CalcularCampoElectricoCargaPuntual(carga1, distancia, k).value)
  {
    var e := CalcularCampoElectricoCargaPuntual(carga1, distancia, k).value;
    var m := 1.0 / distancia;
    InverseSquare(k * carga1, distancia);
    InverseSquare(k * carga1 * carga2, distancia);
    assert e == k * carga1 * m * m;
  }

  /** calcular_potencial_electrico_carga_distancia: k q / d, also the body of
    * calcular_potencial_electrico_carga_puntual. */
  function CalcularPotencialElectricoCargaDistancia(carga: real, distancia: real, k: real): (r: Result<real>)
    ensures r.Err? <==> distancia == 0.0
    ensures r.Err? ==> r.error == ValueError(DISTANCIA_CERO)
    ensures r.Ok? ==> r.value * distancia == k * carga
  {
    if distancia == 0.0 then Err(ValueError(DISTANCIA_CERO))
    else Ok((k * carga) / distancia)
  }

  /** The three charge distributions: the density times the extent (a
    * length, an area or a volume) taken as one point charge. */
  function CalcularPotencialElectricoDistribucion(densidad: real, extension: real, distancia: real, k: real)
    : (r: Result<real>)
    ensures r.Err? <==> distancia == 0.0
    ensures r.Err? ==> r.error == ValueError(DISTANCIA_CERO)
    ensures r.Ok? ==> r.value * distancia == k * (densidad * extension)
  {
    if distancia == 0.0 then Err(ValueError(DISTANCIA_CERO))
    else Ok((k * (densidad * extension)) / distancia)
  }

  /** A distribution is its total charge placed at a point. */
  lemma DistributionIsPointCharge(densidad: real, extension: real, distancia: real, k: real)
    ensures CalcularPotencialElectricoDistribucion(densidad, extension, distancia, k)
         == CalcularPotencialElectricoCargaDistancia(densidad * extension, distancia, k)
  {
  }

  /** calcular_potencial_electrico_energia_carga: V = U / q. */
  function CalcularPotencialElectricoEnergiaCarga(energiaPotencial: real, cargaPrueba: real): (r: Result<real>)
    ensures r.Err? <==> cargaPrueba == 0.0
    ensures r.Err? ==> r.error == ValueError("La carga de prueba no puede ser cero.")
    ensures r.Ok? ==> r.value * cargaPrueba == energiaPotencial
  {
    if cargaPrueba == 0.0 then Err(ValueError("La carga de prueba no puede ser cero."))
    else Ok(energiaPotencial / cargaPrueba)
  }

  /** calcular_energia_potencial_electrica: U = q V. */
  function CalcularEnergiaPotencialElectrica(carga: real, voltaje: real): (u: real)
    ensures carga != 0.0 ==> u / carga == voltaje
    ensures carga == 0.0 ==> u == 0.0
  {
    carga * voltaje
  }

  /** The potential is recovered from the energy of a test charge in it. */
  lemma PotentialFromEnergy(carga: real, voltaje: real)
    requires carga != 0.0
    ensures CalcularPotencialElectricoEnergiaCarga(CalcularEnergiaPotencialElectrica(carga, voltaje), carga) == Ok(voltaje)
  {
    var r := CalcularPotencialElectricoEnergiaCarga(CalcularEnergiaPotencialElectrica(carga, voltaje), carga);
    CancelFactor(carga, r.value, voltaje);
  }

  // ------------------------------------------------ capacitors, inductors

  /** calcular_capacitancia: C = Q / V. */
  function CalcularCapacitancia(carga: real, voltaje: real): (r: Result<real>)
    ensures r.Err? <==> voltaje == 0.0
    ensures r.Err? ==> r.error == ValueError("El voltaje no puede ser cero.")
    ensures r.Ok? ==> r.value * voltaje == carga
  {
    if voltaje == 0.0 then Err(ValueError("El voltaje no puede ser cero."))
    else Ok(carga / voltaje)
  }

  /** calcular_carga_capacitor: Q = C V. */
  function CalcularCargaCapacitor(capacitancia: real, voltaje: real): (q: real)
    ensures voltaje != 0.0 ==> q / voltaje == capacitancia
    ensures voltaje == 0.0 ==> q == 0.0
  {
    capacitancia * voltaje
  }

  /** calcular_voltaje_capacitor: V = Q / C. */
  function CalcularVoltajeCapacitor(carga: real, capacitancia: real): (r: Result<real>)
    ensures r.Err? <==> capacitancia == 0.0
    ensures r.Err? ==> r.error == ValueError("La capacitancia no puede ser cero.")
    ensures r.Ok? ==> r.value * capacitancia == carga
  {
    if capacitancia == 0.0 then Err(ValueError("La capacitancia no puede ser cero."))
    else Ok(carga / capacitancia)
  }

  /** Charging a capacitor and reading it back: the voltage and the
    * capacitance come back unchanged. */
  lemma CapacitorRoundTrips(capacitancia: real, voltaje: real)
    ensures capacitancia != 0.0 ==>
      CalcularVoltajeCapacitor(CalcularCargaCapacitor(capacitancia, voltaje), capacitancia) == Ok(voltaje)
    ensures voltaje != 0.0 ==>
      CalcularCapacitancia(CalcularCargaCapacitor(capacitancia, voltaje), voltaje) == Ok(capacitancia)
  {
    var q := CalcularCargaCapacitor(capacitancia, voltaje);
    if capacitancia != 0.0 {
      CancelFactor(capacitancia, CalcularVoltajeCapacitor(q, capacitancia).value, voltaje);
    }
    if voltaje != 0.0 {
      CancelFactor(voltaje, CalcularCapacitancia(q, voltaje).value, capacitancia);
    }
  }

  /** calcular_energia_capacitor: C V^2 / 2. */
  function CalcularEnergiaCapacitor(capacitancia: real, voltaje: real): (u: real)
    ensures capacitancia >= 0.0 ==> u >= 0.0
  {
    HalfProductNonNegative(capacitancia, voltaje);
    0.5 * capacitancia * (voltaje * voltaje)
  }

  /** c x^2 / 2 keeps the sign of a non-negative c. */
  lemma HalfProductNonNegative(c: real, x: real)
    ensures c >= 0.0 ==> 0.5 * c * (x * x) >= 0.0
  {
    SquareNonNegative(x);
    if c >= 0.0 {
      MulNonNegative(c, x * x);
    }
  }

  /** The stored energy is half the charge times the voltage. */
  lemma CapacitorEnergyIsHalfQV(capacitancia: real, voltaje: real)
    ensures CalcularEnergiaCapacitor(capacitancia, voltaje) == 0.5 * CalcularCargaCapacitor(capacitancia, voltaje) * voltaje
  {
  }

  /** calcular_inductancia: L = N Phi / I. */
  function CalcularInductancia(flujo: real, corriente: real, numeroEspiras: real): (r: Result<real>)
    ensures r.Err? <==> corriente == 0.0
    ensures r.Err? ==> r.error == ValueError("La corriente no puede ser cero.")
    ensures r.Ok? ==> r.value * corriente == numeroEspiras * flujo
  {
    if corriente == 0.0 then Err(ValueError("La corriente no puede ser cero."))
    else Ok((numeroEspiras * flujo) / corriente)
  }

  /** calcular_energia_inductor: L I^2 / 2. */
  function CalcularEnergiaInductor(inductancia: real, corriente: real): (u: real)
    ensures inductancia >= 0.0 ==> u >= 0.0
  {
    HalfProductNonNegative(inductancia, corriente);
    0.5 * inductancia * (corriente * corriente)
  }

  /** The energy of an inductor is half the linked flux N Phi times the
    * current. */
  lemma InductorEnergyIsHalfFluxTimesCurrent(flujo: real, corriente: real, numeroEspiras: real)
    requires corriente != 0.0
    ensures CalcularEnergiaInductor(CalcularInductancia(flujo, corriente, numeroEspiras).value, corriente)
         == 0.5 * (numeroEspiras * flujo) * corriente
  {
    var l := CalcularInductancia(flujo, corriente, numeroEspiras).value;
    assert l * corriente == numeroEspiras * flujo;
    assert 0.5 * l * (corriente * corriente) == 0.5 * (l * corriente) * corriente;
  }

  // ---------------------------------------------------------- magnetism

  /** calcular_campo_magnetico: mu0 I / (2 pi d). */
  function CalcularCampoMagnetico(corriente: real, distancia: real, permeabilidad: real): (r: Result<real>)
    ensures r.Err? <==> distancia == 0.0
    ensures r.Err? ==> r.error == ValueError(DISTANCIA_CERO)
    ensures r.Ok? ==> r.value * (2.0 * PI * distancia) == permeabilidad * corriente
  {
    if distancia == 0.0 then Err(ValueError(DISTANCIA_CERO))
    else Ok((permeabilidad * corriente) / (2.0 * PI * distancia))
  }

  /** With the default permeability the field is 2 10^-7 I / d. */
  lemma DefaultWireField(corriente: real, distancia: real)
    requires distancia != 0.0
    ensures CalcularCampoMagnetico(corriente, distancia, MU_0).value == 0.0000002 * corriente / distancia
  {
    var b := CalcularCampoMagnetico(corriente, distancia, MU_0).value;
    var w := 0.0000002 * corriente / distancia;
    assert b * (2.0 * PI * distancia) == (2.0 * PI * distancia) * w;
    CancelFactor(2.0 * PI * distancia, b, w);
  }

  /** calcular_campo_magnetico_solenoide: mu0 N I / L. */
  function CalcularCampoMagneticoSolenoide(permeabilidad: real, numeroEspiras: real, corriente: real, longitud: real)
    : (r: Result<real>)
    ensures r.Err? <==> longitud == 0.0
    ensures r.Err? ==> r.error == ValueError("La longitud del solenoide no puede ser cero.")
    ensures r.Ok? ==> r.value * longitud == permeabilidad * numeroEspiras * corriente
  {
    if longitud == 0.0 then Err(ValueError("La longitud del solenoide no puede ser cero."))
    else Ok((permeabilidad * numeroEspiras * corriente) / longitud)
  }

  /** calcular_fuerza_entre_conductores: mu0 I1 I2 L / (2 pi d). */
  function CalcularFuerzaEntreConductores(permeabilidad: real, corriente1: real, corriente2: real,
                                          longitud: real, distancia: real): (r: Result<real>)
    ensures r.Err? <==> distancia == 0.0
    ensures r.Err? ==> r.error == ValueError("La distancia entre los conductores no puede ser cero.")
    ensures r.Ok? ==> r.value * (2.0 * PI * distancia) == permeabilidad * corriente1 * corriente2 * longitud
  {
    if distancia == 0.0 then Err(ValueError("La distancia entre los conductores no puede ser cero."))
    else Ok((permeabilidad * corriente1 * corriente2 * longitud) / (2.0 * PI * distancia))
  }

  /** The force between two wires is the second current times the length
    * times the field the first wire makes at the second. */
  lemma ConductorForceIsCurrentTimesField(permeabilidad: real, corriente1: real, corriente2: real,
                                          longitud: real, distancia: real)
    requires distancia != 0.0
    ensures CalcularFuerzaEntreConductores(permeabilidad, corriente1, corriente2, longitud, distancia).value
         == corriente2 * longitud * CalcularCampoMagnetico(corriente1, distancia, permeabilidad).value
  {
    var f := CalcularFuerzaEntreConductores(permeabilidad, corriente1, corriente2, longitud, distancia).value;
    var b := CalcularCampoMagnetico(corriente1, distancia, permeabilidad).value;
    var k := 2.0 * PI * distancia;
    assert b * k == permeabilidad * corriente1;
    assert f * k == (corriente2 * longitud * b) * k;
    CancelFactor(k, f, corriente2 * longitud * b);
  }

  /** calcular_ley_faraday: fem = -N (dPhi / dt). */
  function CalcularLeyFaraday(cambioFlujo: real, cambioTiempo: real, numeroEspiras: real): (r: Result<real>)
    ensures r.Err? <==> cambioTiempo == 0.0
    ensures r.Err? ==> r.error == ValueError("El cambio en el tiempo no puede ser cero.")
    ensures r.Ok? ==> r.value * cambioTiempo == -numeroEspiras * cambioFlujo
  {
    if cambioTiempo == 0.0 then Err(ValueError("El cambio en el tiempo no puede ser cero."))
    else Ok(-numeroEspiras * (cambioFlujo / cambioTiempo))
  }

  /** Lenz's law: a growing flux through a coil with turns induces a
    * negative electromotive force. */
  lemma LenzSign(cambioFlujo: real, cambioTiempo: real, numeroEspiras: real)
    requires cambioTiempo > 0.0 && cambioFlujo > 0.0 && numeroEspiras > 0.0
    ensures CalcularLeyFaraday(cambioFlujo, cambioTiempo, numeroEspiras).value < 0.0
  {
    var q := cambioFlujo / cambioTiempo;
    FactorPositive(cambioTiempo, q, cambioFlujo);
    MulPositive(numeroEspiras, q);
  }

  // ---------------------------------------------------- power and energy

  /** calcular_energia_electrica: P t / 1000. */
  function CalcularEnergiaElectrica(potencia: real, tiempo: real): (e: real)
    ensures e * 1000.0 == potencia * tiempo
  {
    (potencia * tiempo) / 1000.0
  }

  /** calcular_eficiencia_electrica: the output over the input power. */
  function CalcularEficienciaElectrica(potenciaSalida: real, potenciaEntrada: real): (r: Result<real>)
    ensures r.Err? <==> potenciaEntrada == 0.0
    ensures r.Err? ==> r.error == ValueError("La potencia de entrada no puede ser cero.")
    ensures r.Ok? ==> r.value * potenciaEntrada == potenciaSalida
  {
    if potenciaEntrada == 0.0 then Err(ValueError("La potencia de entrada no puede ser cero."))
    else Ok(potenciaSalida / potenciaEntrada)
  }

  /** A machine that gives out no more than it takes in has an efficiency
    * between 0 and 1. */
  lemma EfficiencyBounded(potenciaSalida: real, potenciaEntrada: real)
    requires 0.0 <= potenciaSalida <= potenciaEntrada && potenciaEntrada > 0.0
    ensures 0.0 <= CalcularEficienciaElectrica(potenciaSalida, potenciaEntrada).value <= 1.0
  {
    var e := CalcularEficienciaElectrica(potenciaSalida, potenciaEntrada).value;
    PositiveFactorPreservesOrder(potenciaEntrada, e, 1.0);
    PositiveFactorPreservesOrder(potenciaEntrada, 0.0, e);
  }
}
