/** The collision formula library: restitution, elastic collisions in one,
  * two and three dimensions, perfectly inelastic collisions, impulse and
  * momentum. A collision normal that is not of length 1 is rescaled to
  * length 1 first. */
module FormulasColisiones {
  import opened Py

  const MASAS_POSITIVAS: string := "Las masas deben ser positivas."

  const VELOCIDADES_IGUALES: string := "La diferencia de velocidades iniciales no puede ser cero para calcular el coeficiente de restitución."

  /** e = -(v1f - v2f) / (v1i - v2i). */
  function CalcularCoeficienteRestitucion(v1i: real, v2i: real, v1f: real, v2f: real): (r: Result<real>)
    ensures r.Err? <==> v1i == v2i
    ensures r.Err? ==> r.error == ValueError(VELOCIDADES_IGUALES)
    ensures r.Ok? ==> v2f - v1f == r.value * (v1i - v2i)
  {
    var denominador := v1i - v2i;
    if denominador == 0.0 then
      Err(ValueError(VELOCIDADES_IGUALES))
    else
      Ok(-(v1f - v2f) / denominador)
  }

  // ------------------------------------------------------------ elastic 1D

  /** The one-dimensional elastic rule as the 2D and 3D formulas write it. */
  function NormalRule(m1: real, m2: real, u1: real, u2: real): (w: (real, real))
    requires m1 + m2 != 0.0
  {
    ((u1 * (m1 - m2) + 2.0 * m2 * u2) / (m1 + m2), (u2 * (m2 - m1) + 2.0 * m1 * u1) / (m1 + m2))
  }

  /** The elastic rule keeps momentum and kinetic energy and reverses the
    * relative velocity. */
  lemma NormalRuleConserves(m1: real, m2: real, u1: real, u2: real)
    requires m1 + m2 != 0.0
    ensures var w := NormalRule(m1, m2, u1, u2);
      m1 * w.0 + m2 * w.1 == m1 * u1 + m2 * u2
      && w.0 - w.1 == u2 - u1
      && m1 * w.0 * w.0 + m2 * w.1 * w.1 == m1 * u1 * u1 + m2 * u2 * u2
  {
    var w := NormalRule(m1, m2, u1, u2);
    var s := m1 + m2;
    assert s * w.0 == u1 * (m1 - m2) + 2.0 * m2 * u2;
    assert s * w.1 == u2 * (m2 - m1) + 2.0 * m1 * u1;
    assert m1 * w.0 + m2 * w.1 == m1 * u1 + m2 * u2 by {
      assert s * (m1 * w.0 + m2 * w.1) == s * (m1 * u1 + m2 * u2);
    }
    assert w.0 - w.1 == u2 - u1 by {
      assert s * (w.0 - w.1) == s * (u2 - u1);
    }
    EnergyFromMomentumAndRelative(m1, m2, u1, u2, w.0, w.1);
  }

  /** The normal velocity change the 1D rule hands to the first body per unit
    * of the second body's mass. */
  function Exchange(m1: real, m2: real, u1: real, u2: real): real
    requires m1 + m2 != 0.0
  {
    2.0 * (u2 - u1) / (m1 + m2)
  }

  /** The 1D rule moves u1 by m2 d1 and u2 by m1 d2, with equal and opposite
    * d1 and d2. */
  lemma NormalRuleExchange(m1: real, m2: real, u1: real, u2: real)
    requires m1 + m2 != 0.0
    ensures var w, d1, d2 := NormalRule(m1, m2, u1, u2), Exchange(m1, m2, u1, u2), Exchange(m2, m1, u2, u1);
      w.0 == u1 + m2 * d1 && w.1 == u2 + m1 * d2
      && d1 + d2 == 0.0 && (m1 + m2) * d1 == 2.0 * (u2 - u1)
  {
    var w, d1, d2 := NormalRule(m1, m2, u1, u2), Exchange(m1, m2, u1, u2), Exchange(m2, m1, u2, u1);
    var s := m1 + m2;
    assert s * d1 == 2.0 * (u2 - u1);
    assert s * d2 == 2.0 * (u1 - u2);
    assert s * w.0 == s * (u1 + m2 * d1);
    assert s * w.1 == s * (u2 + m1 * d2);
  }

  /** The coordinate a moved by m d k: k is the normal's coordinate, m d the
    * change of the normal velocity. */
  function Shifted(a: real, m: real, d: real, k: real): real
  {
    a + m * d * k
  }

  /** Total momentum of two bodies on a line (or along one coordinate). */
  function Momentum(m1: real, a1: real, m2: real, a2: real): real
  {
    m1 * a1 + m2 * a2
  }

  /** Moving a1 by m2 d1 k and a2 by m1 d2 k with d1 + d2 = 0 keeps the
    * momentum. */
  lemma MomentumAfterExchange(m1: real, m2: real, d1: real, d2: real, k: real, a1: real, a2: real, f1: real, f2: real)
    requires d1 + d2 == 0.0
    requires f1 == Shifted(a1, m2, d1, k) && f2 == Shifted(a2, m1, d2, k)
    ensures Momentum(m1, f1, m2, f2) == Momentum(m1, a1, m2, a2)
  {
    assert m1 * f1 + m2 * f2 == m1 * a1 + m2 * a2 + m1 * m2 * k * (d1 + d2);
  }

  /** The energy a body of mass c with normal velocity u gains when that
    * velocity rises by m d: c m d u + c (m d)^2 / 2. */
  function EnergyGain(c: real, m: real, d: real, u: real): real
  {
    c * m * d * u + 0.5 * c * m * m * d * d
  }

  /** Under the exchange rule the two energy gains cancel. */
  lemma ExchangeCancels(m1: real, m2: real, d1: real, d2: real, u1: real, u2: real)
    requires d1 + d2 == 0.0 && (m1 + m2) * d1 == 2.0 * (u2 - u1)
    ensures EnergyGain(m1, m2, d1, u1) + EnergyGain(m2, m1, d2, u2) == 0.0
  {
    assert EnergyGain(m1, m2, d1, u1) + EnergyGain(m2, m1, d2, u2)
        == 0.5 * m1 * m2 * d1 * (2.0 * (u1 - u2) + (m1 + m2) * d1);
  }

  /** Equal momentum together with a reversed relative velocity gives equal
    * kinetic energy. */
  lemma EnergyFromMomentumAndRelative(m1: real, m2: real, u1: real, u2: real, w1: real, w2: real)
    requires m1 * w1 + m2 * w2 == m1 * u1 + m2 * u2
    requires w1 - w2 == u2 - u1
    ensures m1 * w1 * w1 + m2 * w2 * w2 == m1 * u1 * u1 + m2 * u2 * u2
  {
    assert m1 * (w1 - u1) == m2 * (u2 - w2);
    assert w1 + u1 == w2 + u2;
    calc {
      m1 * w1 * w1 - m1 * u1 * u1;
      (m1 * (w1 - u1)) * (w1 + u1);
      (m2 * (u2 - w2)) * (w2 + u2);
      m2 * u2 * u2 - m2 * w2 * w2;
    }
  }

  /** The final velocities of a one-dimensional elastic collision. */
  function CalcularVelocidadesFinalesColisionElastica1d(m1: real, v1i: real, m2: real, v2i: real): (r: Result<(real, real)>)
    ensures r.Err? <==> m1 <= 0.0 || m2 <= 0.0
    ensures r.Err? ==> r.error == ValueError(MASAS_POSITIVAS)
    ensures r.Ok? ==>
      m1 * r.value.0 + m2 * r.value.1 == m1 * v1i + m2 * v2i
      && r.value.0 - r.value.1 == v2i - v1i
      && m1 * r.value.0 * r.value.0 + m2 * r.value.1 * r.value.1 == m1 * v1i * v1i + m2 * v2i * v2i
  {
    if m1 <= 0.0 || m2 <= 0.0 then Err(ValueError(MASAS_POSITIVAS))
    else
      var w1 := ((m1 - m2) / (m1 + m2)) * v1i + ((2.0 * m2) / (m1 + m2)) * v2i;
      var w2 := ((2.0 * m1) / (m1 + m2)) * v1i + ((m2 - m1) / (m1 + m2)) * v2i;
      ElasticFormsAgree(m1, m2, v1i, v2i);
      NormalRuleConserves(m1, m2, v1i, v2i);
      Ok((w1, w2))
  }

  /** The coefficient form of the 1D rule is the 2D form. */
  lemma ElasticFormsAgree(m1: real, m2: real, u1: real, u2: real)
    requires m1 + m2 > 0.0
    ensures ((m1 - m2) / (m1 + m2)) * u1 + ((2.0 * m2) / (m1 + m2)) * u2 == NormalRule(m1, m2, u1, u2).0
    ensures ((2.0 * m1) / (m1 + m2)) * u1 + ((m2 - m1) / (m1 + m2)) * u2 == NormalRule(m1, m2, u1, u2).1
  {
  }

  /** An elastic collision has restitution 1. */
  lemma ElasticRestitutionIsOne(m1: real, v1i: real, m2: real, v2i: real)
    requires m1 > 0.0 && m2 > 0.0 && v1i != v2i
    ensures var w := CalcularVelocidadesFinalesColisionElastica1d(m1, v1i, m2, v2i).value;
      var e := CalcularCoeficienteRestitucion(v1i, v2i, w.0, w.1);
      e.Ok? && e.value == 1.0
  {
    var w := CalcularVelocidadesFinalesColisionElastica1d(m1, v1i, m2, v2i).value;
    DivSelf(-(w.0 - w.1), v1i - v2i);
  }

  lemma DivSelf(p: real, d: real)
    requires d != 0.0 && p == d
    ensures p / d == 1.0
  {
  }

  /** Bodies of equal mass exchange their velocities. */
  lemma EqualMassesExchange(m: real, v1i: real, v2i: real)
    requires m > 0.0
    ensures var w := CalcularVelocidadesFinalesColisionElastica1d(m, v1i, m, v2i).value;
      w.0 == v2i && w.1 == v1i
  {
    assert (m - m) / (m + m) == 0.0;
    assert (2.0 * m) / (m + m) == 1.0;
  }

  // ------------------------------------------------------------ elastic 2D

  /** The normal scaled to length 1 when it is not already of length 1 (the
    * code's np.isclose test is taken as exact). */
  function UnitNormal2(nx: real, ny: real, sqrt: real -> real): (r: Result<(real, real)>)
    requires IsSqrt(sqrt)
    ensures r.Err? <==> nx == 0.0 && ny == 0.0
    ensures r.Err? ==> r.error == ValueError("El vector normal de colisión no puede ser (0,0).")
    ensures r.Ok? ==> r.value.0 * r.value.0 + r.value.1 * r.value.1 == 1.0
    ensures r.Ok? && nx * nx + ny * ny == 1.0 ==> r.value.0 == nx && r.value.1 == ny
  {
    var norm := sqrt(nx * nx + ny * ny);
    NormCases2(nx, ny, sqrt);
    if norm == 1.0 then
      Ok((nx, ny))
    else if norm == 0.0 then
      Err(ValueError("El vector normal de colisión no puede ser (0,0)."))
    else
      ScaledToUnit2(nx, ny, norm);
      Ok((nx / norm, ny / norm))
  }

  lemma SquaresNonNegative(x: real, y: real, z: real)
    ensures x * x + y * y >= 0.0
    ensures x * x + y * y + z * z >= 0.0
  {
    SquareNonNegative(x);
    SquareNonNegative(y);
    SquareNonNegative(z);
  }

  /** A vector that is not zero has a positive squared length. */
  lemma SquaresPositive(x: real, y: real, z: real)
    requires x != 0.0 || y != 0.0 || z != 0.0
    ensures x * x + y * y + z * z > 0.0
  {
    SquareNonNegative(x);
    SquareNonNegative(y);
    SquareNonNegative(z);
    if x != 0.0 {
      SquarePositive(x);
    } else if y != 0.0 {
      SquarePositive(y);
    } else {
      SquarePositive(z);
    }
  }

  /** A plane vector that is not zero has a positive length. */
  lemma NonZeroHasPositiveNorm2(x: real, y: real, sqrt: real -> real)
    requires IsSqrt(sqrt) && (x != 0.0 || y != 0.0)
    ensures sqrt(x * x + y * y) > 0.0
  {
    SquaresPositive(x, y, 0.0);
  }

  /** A space vector that is not zero has a positive length. */
  lemma NonZeroHasPositiveNorm3(x: real, y: real, z: real, sqrt: real -> real)
    requires IsSqrt(sqrt) && (x != 0.0 || y != 0.0 || z != 0.0)
    ensures sqrt(x * x + y * y + z * z) > 0.0
  {
    SquaresPositive(x, y, z);
  }

  /** The facts about the length of a plane vector that the normalisation
    * branches on. */
  lemma NormCases2(x: real, y: real, sqrt: real -> real)
    requires IsSqrt(sqrt)
    ensures sqrt(x * x + y * y) == 0.0 <==> x == 0.0 && y == 0.0
    ensures sqrt(x * x + y * y) != 1.0 ==> x * x + y * y != 1.0
    ensures sqrt(x * x + y * y) * sqrt(x * x + y * y) == x * x + y * y
  {
    SquaresNonNegative(x, y, 0.0);
    if x != 0.0 || y != 0.0 {
      NonZeroHasPositiveNorm2(x, y, sqrt);
    } else {
      ZeroRoot(sqrt);
    }
    if sqrt(x * x + y * y) != 1.0 {
      NotUnitLength(x * x + y * y, sqrt);
    }
  }

  /** The same facts for a space vector. */
  lemma NormCases3(x: real, y: real, z: real, sqrt: real -> real)
    requires IsSqrt(sqrt)
    ensures sqrt(x * x + y * y + z * z) == 0.0 <==> x == 0.0 && y == 0.0 && z == 0.0
    ensures sqrt(x * x + y * y + z * z) != 1.0 ==> x * x + y * y + z * z != 1.0
    ensures sqrt(x * x + y * y + z * z) * sqrt(x * x + y * y + z * z) == x * x + y * y + z * z
  {
    SquaresNonNegative(x, y, z);
    if x != 0.0 || y != 0.0 || z != 0.0 {
      NonZeroHasPositiveNorm3(x, y, z, sqrt);
    } else {
      ZeroRoot(sqrt);
    }
    if sqrt(x * x + y * y + z * z) != 1.0 {
      NotUnitLength(x * x + y * y + z * z, sqrt);
    }
  }

  lemma ZeroRoot(sqrt: real -> real)
    requires IsSqrt(sqrt)
    ensures sqrt(0.0) == 0.0
  {
    SqrtOfSquare(sqrt, 0.0);
  }

  /** A squared length whose root is not 1 is not 1. */
  lemma NotUnitLength(s: real, sqrt: real -> real)
    requires IsSqrt(sqrt) && s >= 0.0 && sqrt(s) != 1.0
    ensures s != 1.0
  {
    if s == 1.0 {
      SqrtOfSquare(sqrt, 1.0);
    }
  }

  /** Division by n is multiplication by its inverse. */
  lemma Inverse(x: real, n: real)
    requires n != 0.0
    ensures n * (1.0 / n) == 1.0
    ensures x / n == x * (1.0 / n)
  {
  }

  lemma UnitByInverse2(a: real, b: real, x: real, y: real, n: real, m: real)
    requires n * n == x * x + y * y
    requires n * m == 1.0
    requires a == x * m && b == y * m
    ensures a * a + b * b == 1.0
  {
  }

  lemma UnitByInverse3(a: real, b: real, c: real, x: real, y: real, z: real, n: real, m: real)
    requires n * n == x * x + y * y + z * z
    requires n * m == 1.0
    requires a == x * m && b == y * m && c == z * m
    ensures a * a + b * b + c * c == 1.0
  {
  }

  /** A plane vector divided by its length has length 1. */
  lemma ScaledToUnit2(x: real, y: real, norm: real)
    requires norm != 0.0 && norm * norm == x * x + y * y
    ensures (x / norm) * (x / norm) + (y / norm) * (y / norm) == 1.0
  {
    Inverse(x, norm);
    Inverse(y, norm);
    UnitByInverse2(x / norm, y / norm, x, y, norm, 1.0 / norm);
  }

  /** A space vector divided by its length has length 1. */
  lemma ScaledToUnit3(x: real, y: real, z: real, norm: real)
    requires norm != 0.0 && norm * norm == x * x + y * y + z * z
    ensures (x / norm) * (x / norm) + (y / norm) * (y / norm) + (z / norm) * (z / norm) == 1.0
  {
    Inverse(x, norm);
    Inverse(y, norm);
    Inverse(z, norm);
    UnitByInverse3(x / norm, y / norm, z / norm, x, y, z, norm, 1.0 / norm);
  }

  datatype Velocidades2d = Velocidades2d(v1fx: real, v1fy: real, v2fx: real, v2fy: real)

  /** The final velocities of a frictionless elastic collision in the plane
    * along the normal (nx, ny). */
  function CalcularVelocidadesFinalesColisionElastica2d(m1: real, v1ix: real, v1iy: real, m2: real, v2ix: real, v2iy: real,
                                                        nx: real, ny: real, sqrt: real -> real): (r: Result<Velocidades2d>)
    requires IsSqrt(sqrt)
    ensures r.Err? <==> m1 <= 0.0 || m2 <= 0.0 || (nx == 0.0 && ny == 0.0)
    ensures m1 <= 0.0 || m2 <= 0.0 ==> r == Err(ValueError(MASAS_POSITIVAS))
    ensures r.Ok? ==>
      var n := UnitNormal2(nx, ny, sqrt).value;
      r.value == Elastica2d(m1, v1ix, v1iy, m2, v2ix, v2iy, n.0, n.1)
  {
    if m1 <= 0.0 || m2 <= 0.0 then Err(ValueError(MASAS_POSITIVAS))
    else
      var n :- UnitNormal2(nx, ny, sqrt);
      Ok(Elastica2d(m1, v1ix, v1iy, m2, v2ix, v2iy, n.0, n.1))
  }

  /** The normal component of (vx, vy) along (nx, ny). */
  function Along(vx: real, vy: real, nx: real, ny: real): real
  {
    vx * nx + vy * ny
  }

  /** The tangential component of (vx, vy) along the tangent (-ny, nx). */
  function Across(vx: real, vy: real, nx: real, ny: real): real
  {
    vx * -ny + vy * nx
  }

  /** The vector with normal component a and tangential component b, along
    * the normal (nx, ny) and the tangent (-ny, nx). */
  function Recompose(a: real, b: real, nx: real, ny: real): (real, real)
  {
    (a * nx + b * -ny, a * ny + b * nx)
  }

  /** The 2D rule along the normal (nx, ny): tangential components are kept,
    * normal components follow the 1D rule. */
  function Elastica2d(m1: real, v1ix: real, v1iy: real, m2: real, v2ix: real, v2iy: real, nx: real, ny: real): Velocidades2d
    requires m1 + m2 != 0.0
  {
    var w := NormalRule(m1, m2, Along(v1ix, v1iy, nx, ny), Along(v2ix, v2iy, nx, ny));
    var f1 := Recompose(w.0, Across(v1ix, v1iy, nx, ny), nx, ny);
    var f2 := Recompose(w.1, Across(v2ix, v2iy, nx, ny), nx, ny);
    Velocidades2d(f1.0, f1.1, f2.0, f2.1)
  }

  /** Kinetic energy of a body of mass m moving with velocity (vx, vy). */
  function KineticEnergy2(m: real, vx: real, vy: real): real
  {
    0.5 * m * (vx * vx + vy * vy)
  }

  /** Along a unit normal, raising the normal component of v by m d moves v by
    * m d n and keeps its tangential component. */
  lemma Shift2(m: real, d: real, vx: real, vy: real, nx: real, ny: real)
    requires nx * nx + ny * ny == 1.0
    ensures var f := Recompose(Along(vx, vy, nx, ny) + m * d, Across(vx, vy, nx, ny), nx, ny);
      f.0 == Shifted(vx, m, d, nx) && f.1 == Shifted(vy, m, d, ny)
      && Across(f.0, f.1, nx, ny) == Across(vx, vy, nx, ny)
  {
    assert (vx * nx + vy * ny) * nx + (vx * -ny + vy * nx) * -ny == vx;
    assert (vx * nx + vy * ny) * ny + (vx * -ny + vy * nx) * nx == vy;
  }

  /** The energy of v + m d n for a unit normal n. */
  lemma EnergyShift2(c: real, m: real, d: real, vx: real, vy: real, nx: real, ny: real, fx: real, fy: real)
    requires nx * nx + ny * ny == 1.0
    requires fx == Shifted(vx, m, d, nx) && fy == Shifted(vy, m, d, ny)
    ensures KineticEnergy2(c, fx, fy) == KineticEnergy2(c, vx, vy) + EnergyGain(c, m, d, Along(vx, vy, nx, ny))
  {
  }

  /** Along a unit normal the 2D rule keeps both momentum components and the
    * kinetic energy, and leaves each tangential component as it was. */
  lemma Elastica2dConserves(m1: real, v1ix: real, v1iy: real, m2: real, v2ix: real, v2iy: real, nx: real, ny: real)
    requires m1 + m2 != 0.0
    requires nx * nx + ny * ny == 1.0
    ensures var r := Elastica2d(m1, v1ix, v1iy, m2, v2ix, v2iy, nx, ny);
      Momentum(m1, r.v1fx, m2, r.v2fx) == Momentum(m1, v1ix, m2, v2ix)
      && Momentum(m1, r.v1fy, m2, r.v2fy) == Momentum(m1, v1iy, m2, v2iy)
      && Across(r.v1fx, r.v1fy, nx, ny) == Across(v1ix, v1iy, nx, ny)
      && Across(r.v2fx, r.v2fy, nx, ny) == Across(v2ix, v2iy, nx, ny)
      && KineticEnergy2(m1, r.v1fx, r.v1fy) + KineticEnergy2(m2, r.v2fx, r.v2fy)
         == KineticEnergy2(m1, v1ix, v1iy) + KineticEnergy2(m2, v2ix, v2iy)
  {
    var u1, u2 := Along(v1ix, v1iy, nx, ny), Along(v2ix, v2iy, nx, ny);
    var d1, d2 := Exchange(m1, m2, u1, u2), Exchange(m2, m1, u2, u1);
    NormalRuleExchange(m1, m2, u1, u2);
    Shift2(m2, d1, v1ix, v1iy, nx, ny);
    Shift2(m1, d2, v2ix, v2iy, nx, ny);
    var r := Elastica2d(m1, v1ix, v1iy, m2, v2ix, v2iy, nx, ny);
    MomentumAfterExchange(m1, m2, d1, d2, nx, v1ix, v2ix, r.v1fx, r.v2fx);
    MomentumAfterExchange(m1, m2, d1, d2, ny, v1iy, v2iy, r.v1fy, r.v2fy);
    EnergyShift2(m1, m2, d1, v1ix, v1iy, nx, ny, r.v1fx, r.v1fy);
    EnergyShift2(m2, m1, d2, v2ix, v2iy, nx, ny, r.v2fx, r.v2fy);
    ExchangeCancels(m1, m2, d1, d2, u1, u2);
  }

  // ------------------------------------------------------------ elastic 3D

  datatype Vec3 = Vec3(x: real, y: real, z: real)

  function Dot(a: Vec3, b: Vec3): real
  {
    a.x * b.x + a.y * b.y + a.z * b.z
  }

  function Scale(k: real, a: Vec3): Vec3
  {
    Vec3(k * a.x, k * a.y, k * a.z)
  }

  function Plus(a: Vec3, b: Vec3): Vec3
  {
    Vec3(a.x + b.x, a.y + b.y, a.z + b.z)
  }

  function Minus(a: Vec3, b: Vec3): Vec3
  {
    Vec3(a.x - b.x, a.y - b.y, a.z - b.z)
  }

  /** The part of v across the normal n: v - (v . n) n. */
  function Tangential(v: Vec3, n: Vec3): Vec3
  {
    Minus(v, Scale(Dot(v, n), n))
  }

  /** Kinetic energy of a body of mass m moving with velocity v. */
  function KineticEnergy3(m: real, v: Vec3): real
  {
    0.5 * m * Dot(v, v)
  }

  /** Total momentum of two bodies. */
  function Momentum3(m1: real, v1: Vec3, m2: real, v2: Vec3): Vec3
  {
    Vec3(Momentum(m1, v1.x, m2, v2.x), Momentum(m1, v1.y, m2, v2.y), Momentum(m1, v1.z, m2, v2.z))
  }

  /** The normal scaled to length 1 when it is not already of length 1 (the
    * code's np.isclose tests are taken as exact). */
  function UnitNormal3(n: Vec3, sqrt: real -> real): (r: Result<Vec3>)
    requires IsSqrt(sqrt)
    ensures r.Err? <==> n.x == 0.0 && n.y == 0.0 && n.z == 0.0
    ensures r.Err? ==> r.error == ValueError("El vector normal de colisión no puede ser (0,0,0).")
    ensures r.Ok? ==> Dot(r.value, r.value) == 1.0
    ensures r.Ok? && Dot(n, n) == 1.0 ==> r.value == n
  {
    var norm := sqrt(Dot(n, n));
    DotCoords(n, n);
    NormCases3(n.x, n.y, n.z, sqrt);
    if norm == 1.0 then
      Ok(n)
    else if norm == 0.0 then
      Err(ValueError("El vector normal de colisión no puede ser (0,0,0)."))
    else
      ScaledToUnit3(n.x, n.y, n.z, norm);
      Ok(Vec3(n.x / norm, n.y / norm, n.z / norm))
  }

  /** The 3D rule along a normal n: each velocity keeps its tangential part
    * and its normal scalar follows the 1D rule. */
  function Elastica3d(m1: real, v1: Vec3, m2: real, v2: Vec3, n: Vec3): (Vec3, Vec3)
    requires m1 + m2 != 0.0
  {
    var w := NormalRule(m1, m2, Dot(v1, n), Dot(v2, n));
    (Plus(Scale(w.0, n), Tangential(v1, n)), Plus(Scale(w.1, n), Tangential(v2, n)))
  }

  function CalcularVelocidadesFinalesColisionElastica3d(m1: real, v1: Vec3, m2: real, v2: Vec3, n: Vec3,
                                                        sqrt: real -> real): (r: Result<(Vec3, Vec3)>)
    requires IsSqrt(sqrt)
    ensures r.Err? <==> m1 <= 0.0 || m2 <= 0.0 || (n.x == 0.0 && n.y == 0.0 && n.z == 0.0)
    ensures m1 <= 0.0 || m2 <= 0.0 ==> r == Err(ValueError(MASAS_POSITIVAS))
    ensures r.Ok? ==> r.value == Elastica3d(m1, v1, m2, v2, UnitNormal3(n, sqrt).value)
  {
    if m1 <= 0.0 || m2 <= 0.0 then Err(ValueError(MASAS_POSITIVAS))
    else
      var u :- UnitNormal3(n, sqrt);
      Ok(Elastica3d(m1, v1, m2, v2, u))
  }

  /** Giving v the normal scalar (v . n) + m d while keeping its tangential
    * part moves v by m d n. */
  lemma Shift3(m: real, d: real, w: real, v: Vec3, n: Vec3, f: Vec3)
    requires w == Dot(v, n) + m * d && f == Plus(Scale(w, n), Tangential(v, n))
    ensures f.x == Shifted(v.x, m, d, n.x) && f.y == Shifted(v.y, m, d, n.y) && f.z == Shifted(v.z, m, d, n.z)
  {
    var u := Dot(v, n);
    Recombined(u, w, v, n, f);
    ShiftCoord(u, m, d, w, v.x, n.x, f.x);
    ShiftCoord(u, m, d, w, v.y, n.y, f.y);
    ShiftCoord(u, m, d, w, v.z, n.z, f.z);
  }

  /** The coordinates of w n + (v - u n). */
  lemma Recombined(u: real, w: real, v: Vec3, n: Vec3, f: Vec3)
    requires f == Plus(Scale(w, n), Minus(v, Scale(u, n)))
    ensures f.x == w * n.x + (v.x - u * n.x) && f.y == w * n.y + (v.y - u * n.y) && f.z == w * n.z + (v.z - u * n.z)
  {
  }

  /** One coordinate of the shift: w n_a + (a - u n_a) = a + m d n_a when
    * w = u + m d. */
  lemma ShiftCoord(u: real, m: real, d: real, w: real, a: real, na: real, fa: real)
    requires w == u + m * d && fa == w * na + (a - u * na)
    ensures fa == Shifted(a, m, d, na)
  {
    assert w * na - u * na == (w - u) * na;
  }

  /** Dot(n, n) = 1 written on the coordinates. */
  lemma UnitCoords(n: Vec3)
    requires Dot(n, n) == 1.0
    ensures n.x * n.x + n.y * n.y + n.z * n.z == 1.0
  {
  }

  lemma DotCoords(v: Vec3, n: Vec3)
    ensures Dot(v, n) == v.x * n.x + v.y * n.y + v.z * n.z
  {
  }

  lemma TangentialFields(v: Vec3, n: Vec3)
    ensures Tangential(v, n) == Vec3(v.x - Dot(v, n) * n.x, v.y - Dot(v, n) * n.y, v.z - Dot(v, n) * n.z)
  {
    var k := Dot(v, n);
    assert Scale(k, n) == Vec3(k * n.x, k * n.y, k * n.z);
  }

  /** Along a unit normal, moving v along n keeps its tangential part. */
  lemma TangentialShift3(m: real, d: real, v: Vec3, n: Vec3, f: Vec3)
    requires n.x * n.x + n.y * n.y + n.z * n.z == 1.0
    requires f.x == Shifted(v.x, m, d, n.x) && f.y == Shifted(v.y, m, d, n.y) && f.z == Shifted(v.z, m, d, n.z)
    ensures Tangential(f, n) == Tangential(v, n)
  {
    DotCoords(f, n);
    DotCoords(v, n);
    TangentCoords(m, d, v.x, v.y, v.z, n.x, n.y, n.z, f.x, f.y, f.z, Dot(f, n), Dot(v, n));
    TangentialFields(f, n);
    TangentialFields(v, n);
  }

  /** The tangential coordinates after the shift, with df and dv the normal
    * scalars of the moved and of the original velocity. */
  lemma TangentCoords(m: real, d: real, vx: real, vy: real, vz: real, nx: real, ny: real, nz: real,
                      fx: real, fy: real, fz: real, df: real, dv: real)
    requires nx * nx + ny * ny + nz * nz == 1.0
    requires fx == Shifted(vx, m, d, nx) && fy == Shifted(vy, m, d, ny) && fz == Shifted(vz, m, d, nz)
    requires df == fx * nx + fy * ny + fz * nz && dv == vx * nx + vy * ny + vz * nz
    ensures fx - df * nx == vx - dv * nx && fy - df * ny == vy - dv * ny && fz - df * nz == vz - dv * nz
  {
    assert df == dv + m * d * (nx * nx + ny * ny + nz * nz);
    TangentCoord(m, d, vx, nx, fx, df, dv);
    TangentCoord(m, d, vy, ny, fy, df, dv);
    TangentCoord(m, d, vz, nz, fz, df, dv);
  }

  /** One coordinate of the tangential part after the shift. */
  lemma TangentCoord(m: real, d: real, a: real, na: real, fa: real, df: real, dv: real)
    requires fa == Shifted(a, m, d, na) && df == dv + m * d
    ensures fa - df * na == a - dv * na
  {
    assert df * na == dv * na + m * d * na;
  }

  /** The energy of v + m d n for a unit normal n. */
  lemma EnergyShift3(c: real, m: real, d: real, v: Vec3, n: Vec3, f: Vec3)
    requires n.x * n.x + n.y * n.y + n.z * n.z == 1.0
    requires f.x == Shifted(v.x, m, d, n.x) && f.y == Shifted(v.y, m, d, n.y) && f.z == Shifted(v.z, m, d, n.z)
    ensures KineticEnergy3(c, f) == KineticEnergy3(c, v) + EnergyGain(c, m, d, Dot(v, n))
  {
    EnergyShiftCoords(c, m, d, v.x, v.y, v.z, n.x, n.y, n.z, f.x, f.y, f.z);
    KineticOfCoords(c, f);
    KineticOfCoords(c, v);
    DotCoords(v, n);
  }

  lemma KineticOfCoords(c: real, v: Vec3)
    ensures KineticEnergy3(c, v) == 0.5 * c * (v.x * v.x + v.y * v.y + v.z * v.z)
  {
  }

  /** The energy of a shifted velocity, on the coordinates. */
  lemma EnergyShiftCoords(c: real, m: real, d: real, vx: real, vy: real, vz: real, nx: real, ny: real, nz: real,
                          fx: real, fy: real, fz: real)
    requires nx * nx + ny * ny + nz * nz == 1.0
    requires fx == Shifted(vx, m, d, nx) && fy == Shifted(vy, m, d, ny) && fz == Shifted(vz, m, d, nz)
    ensures 0.5 * c * (fx * fx + fy * fy + fz * fz)
         == 0.5 * c * (vx * vx + vy * vy + vz * vz) + EnergyGain(c, m, d, vx * nx + vy * ny + vz * nz)
  {
  }

  /** The 3D rule keeps the total momentum along any normal. */
  lemma Elastica3dConservesMomentum(m1: real, v1: Vec3, m2: real, v2: Vec3, n: Vec3)
    requires m1 + m2 != 0.0
    ensures var r := Elastica3d(m1, v1, m2, v2, n);
      Momentum3(m1, r.0, m2, r.1) == Momentum3(m1, v1, m2, v2)
  {
    var u1, u2 := Dot(v1, n), Dot(v2, n);
    var d1, d2 := Exchange(m1, m2, u1, u2), Exchange(m2, m1, u2, u1);
    var w := NormalRule(m1, m2, u1, u2);
    NormalRuleExchange(m1, m2, u1, u2);
    var r := Elastica3d(m1, v1, m2, v2, n);
    Shift3(m2, d1, w.0, v1, n, r.0);
    Shift3(m1, d2, w.1, v2, n, r.1);
    MomentumAfterExchange(m1, m2, d1, d2, n.x, v1.x, v2.x, r.0.x, r.1.x);
    MomentumAfterExchange(m1, m2, d1, d2, n.y, v1.y, v2.y, r.0.y, r.1.y);
    MomentumAfterExchange(m1, m2, d1, d2, n.z, v1.z, v2.z, r.0.z, r.1.z);
  }

  /** Along a unit normal the 3D rule leaves the tangential parts unchanged
    * and keeps the kinetic energy. */
  lemma Elastica3dKeepsTangentialAndEnergy(m1: real, v1: Vec3, m2: real, v2: Vec3, n: Vec3)
    requires m1 + m2 != 0.0
    requires Dot(n, n) == 1.0
    ensures var r := Elastica3d(m1, v1, m2, v2, n);
      Tangential(r.0, n) == Tangential(v1, n) && Tangential(r.1, n) == Tangential(v2, n)
      && KineticEnergy3(m1, r.0) + KineticEnergy3(m2, r.1) == KineticEnergy3(m1, v1) + KineticEnergy3(m2, v2)
  {
    var d1, d2 := Exchange(m1, m2, Dot(v1, n), Dot(v2, n)), Exchange(m2, m1, Dot(v2, n), Dot(v1, n));
    var w := NormalRule(m1, m2, Dot(v1, n), Dot(v2, n));
    NormalRuleExchange(m1, m2, Dot(v1, n), Dot(v2, n));
    var r := Elastica3d(m1, v1, m2, v2, n);
    Shift3(m2, d1, w.0, v1, n, r.0);
    Shift3(m1, d2, w.1, v2, n, r.1);
    UnitCoords(n);
    assert Tangential(r.0, n) == Tangential(v1, n) && Tangential(r.1, n) == Tangential(v2, n) by {
      TangentialShift3(m2, d1, v1, n, r.0);
      TangentialShift3(m1, d2, v2, n, r.1);
    }
    EnergyShift3(m1, m2, d1, v1, n, r.0);
    EnergyShift3(m2, m1, d2, v2, n, r.1);
    ExchangeCancels(m1, m2, d1, d2, Dot(v1, n), Dot(v2, n));
  }

  // ---------------------------------------------------- perfectly inelastic

  function CalcularVelocidadFinalColisionPerfectamenteInelastica1d(m1: real, v1i: real, m2: real, v2i: real): (r: Result<real>)
    ensures r.Err? <==> m1 <= 0.0 || m2 <= 0.0
    ensures r.Err? ==> r.error == ValueError(MASAS_POSITIVAS)
    ensures r.Ok? ==> (m1 + m2) * r.value == m1 * v1i + m2 * v2i
  {
    if m1 <= 0.0 || m2 <= 0.0 then Err(ValueError(MASAS_POSITIVAS))
    else Ok((m1 * v1i + m2 * v2i) / (m1 + m2))
  }

  /** The common velocity lies between the two initial velocities. */
  lemma CommonVelocityBetween(m1: real, v1i: real, m2: real, v2i: real)
    requires m1 > 0.0 && m2 > 0.0
    ensures var v := CalcularVelocidadFinalColisionPerfectamenteInelastica1d(m1, v1i, m2, v2i).value;
      (v1i <= v <= v2i) || (v2i <= v <= v1i)
  {
    var v := CalcularVelocidadFinalColisionPerfectamenteInelastica1d(m1, v1i, m2, v2i).value;
    assert (m1 + m2) * (v - v1i) == m2 * (v2i - v1i);
    assert (m1 + m2) * (v2i - v) == m1 * (v2i - v1i);
    if v1i <= v2i {
      MulNonNegative(m2, v2i - v1i);
      MulNonNegative(m1, v2i - v1i);
      FactorNonNegative(m1 + m2, v - v1i);
      FactorNonNegative(m1 + m2, v2i - v);
    } else {
      MulNonNegative(m2, v1i - v2i);
      MulNonNegative(m1, v1i - v2i);
      FactorNonNegative(m1 + m2, v1i - v);
      FactorNonNegative(m1 + m2, v - v2i);
    }
  }

  lemma FactorNonNegative(k: real, x: real)
    requires k > 0.0 && k * x >= 0.0
    ensures x >= 0.0
  {
    if x < 0.0 {
      MulPositive(k, -x);
    }
  }

  function CalcularVelocidadFinalColisionPerfectamenteInelastica2d(m1: real, v1ix: real, v1iy: real,
                                                                  m2: real, v2ix: real, v2iy: real): (r: Result<(real, real)>)
    ensures r.Err? <==> m1 <= 0.0 || m2 <= 0.0
    ensures r.Err? ==> r.error == ValueError(MASAS_POSITIVAS)
    ensures r.Ok? ==>
      (m1 + m2) * r.value.0 == m1 * v1ix + m2 * v2ix && (m1 + m2) * r.value.1 == m1 * v1iy + m2 * v2iy
  {
    if m1 <= 0.0 || m2 <= 0.0 then Err(ValueError(MASAS_POSITIVAS))
    else
      var px := m1 * v1ix + m2 * v2ix;
      var py := m1 * v1iy + m2 * v2iy;
      var mTotal := m1 + m2;
      Ok((px / mTotal, py / mTotal))
  }

  /** Each component of the 2D common velocity is the 1D common velocity of
    * that component. */
  lemma Inelastic2dIsComponentwise(m1: real, v1ix: real, v1iy: real, m2: real, v2ix: real, v2iy: real)
    requires m1 > 0.0 && m2 > 0.0
    ensures var v := CalcularVelocidadFinalColisionPerfectamenteInelastica2d(m1, v1ix, v1iy, m2, v2ix, v2iy).value;
      v.0 == CalcularVelocidadFinalColisionPerfectamenteInelastica1d(m1, v1ix, m2, v2ix).value
      && v.1 == CalcularVelocidadFinalColisionPerfectamenteInelastica1d(m1, v1iy, m2, v2iy).value
  {
    var v := CalcularVelocidadFinalColisionPerfectamenteInelastica2d(m1, v1ix, v1iy, m2, v2ix, v2iy).value;
    var a := CalcularVelocidadFinalColisionPerfectamenteInelastica1d(m1, v1ix, m2, v2ix).value;
    var b := CalcularVelocidadFinalColisionPerfectamenteInelastica1d(m1, v1iy, m2, v2iy).value;
    assert (m1 + m2) * v.0 == (m1 + m2) * a;
    assert (m1 + m2) * v.1 == (m1 + m2) * b;
  }

  // ------------------------------------------------------ impulse, momentum

  function CalcularImpulso(fuerza: real, tiempo: real): (r: Result<real>)
    ensures r.Err? <==> tiempo < 0.0
    ensures r.Err? ==> r.error == ValueError("El tiempo no puede ser negativo.")
    ensures r.Ok? && tiempo > 0.0 ==> r.value / tiempo == fuerza
    ensures tiempo == 0.0 ==> r.Ok? && r.value == 0.0
  {
    if tiempo < 0.0 then Err(ValueError("El tiempo no puede ser negativo.")) else Ok(fuerza * tiempo)
  }

  function CalcularCambioMomentoLineal(masa: real, vi: real, vf: real): (r: Result<real>)
    ensures r.Err? <==> masa <= 0.0
    ensures r.Err? ==> r.error == ValueError("La masa debe ser positiva.")
    ensures r.Ok? ==> r.value == CalcularMomentoLineal(masa, vf).value - CalcularMomentoLineal(masa, vi).value
  {
    if masa <= 0.0 then Err(ValueError("La masa debe ser positiva.")) else Ok(masa * (vf - vi))
  }

  function CalcularMomentoLineal(masa: real, velocidad: real): (r: Result<real>)
    ensures r.Err? <==> masa <= 0.0
    ensures r.Err? ==> r.error == ValueError("La masa debe ser positiva.")
    ensures r.Ok? ==> r.value / masa == velocidad
  {
    if masa <= 0.0 then Err(ValueError("La masa debe ser positiva.")) else Ok(masa * velocidad)
  }

  /** Impulse-momentum theorem: a constant force m a acting for t changes the
    * momentum of a mass m by exactly the impulse. */
  lemma ImpulseIsMomentumChange(masa: real, a: real, vi: real, tiempo: real)
    requires masa > 0.0 && tiempo >= 0.0
    ensures CalcularImpulso(masa * a, tiempo).value == CalcularCambioMomentoLineal(masa, vi, vi + a * tiempo).value
  {
    assert masa * ((vi + a * tiempo) - vi) == masa * (a * tiempo);
  }
}
