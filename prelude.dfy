/** Values shared by every module: Python's error outcomes, the constants the
  * formulas use, the square root the model is given, and the response
  * envelope the simulation wrappers return. */
module Py {

  datatype Option<+T> = None | Some(value: T)

  /** The ways a call of the source can end without a value. */
  datatype Error =
    | ValueError(message: string)
    /** Python float or int division by zero. */
    | ZeroDivisionError
    /** Attribute lookup on a module that lacks it. */
    | AttributeError(message: string)
    /** A numpy float division by zero: numpy yields inf or nan instead of
      * raising; reals have no such value, so the model reports it apart. */
    | NonFinite

  datatype Result<+T> = Ok(value: T) | Err(error: Error)
  {
    predicate IsFailure() { Err? }

    function PropagateFailure<U>(): Result<U>
      requires Err?
    {
      Err(error)
    }

    function Extract(): T
      requires Ok?
    {
      value
    }
  }

  /** A Python dict from string keys to numbers. */
  type Dict = map<string, real>

  /** Standard gravity as every source file writes it. */
  const GRAVEDAD: real := 9.81

  /** The decimal expansion Python prints for math.pi. */
  const PI: real := 3.141592653589793

  function Abs(x: real): (r: real)
    ensures r >= 0.0
    ensures r == x || r == -x
  {
    if x < 0.0 then -x else x
  }

  function Max(a: real, b: real): (r: real)
    ensures r >= a && r >= b
    ensures r == a || r == b
  {
    if a >= b then a else b
  }

  /** numpy.sign */
  function Sign(x: real): (r: real)
    ensures r * Abs(x) == x
    ensures x == 0.0 <==> r == 0.0
  {
    if x > 0.0 then 1.0 else if x < 0.0 then -1.0 else 0.0
  }

  /** Python's sum over a list of numbers, added left to right. */
  function Sum(s: seq<real>): real
  {
    if s == [] then 0.0 else Sum(s[..|s| - 1]) + s[|s| - 1]
  }

  lemma {:induction false} SumAppend(a: seq<real>, b: seq<real>)
    ensures Sum(a + b) == Sum(a) + Sum(b)
    decreases |b|
  {
    if b == [] {
      assert a + b == a;
    } else {
      var b' := b[..|b| - 1];
      assert (a + b)[..|a + b| - 1] == a + b';
      SumAppend(a, b');
    }
  }

  lemma {:induction false} SumConstant(n: nat, x: real)
    ensures Sum(seq(n, _ => x)) == (n as real) * x
  {
    if n > 0 {
      assert seq(n, _ => x)[..n - 1] == seq(n - 1, _ => x);
      SumConstant(n - 1, x);
    }
  }

  /** A constant factor comes out of a sum. */
  lemma {:induction false} SumScaled(k: real, s: seq<real>)
    ensures Sum(seq(|s|, i requires 0 <= i < |s| => k * s[i])) == k * Sum(s)
  {
    var ks := seq(|s|, i requires 0 <= i < |s| => k * s[i]);
    if s != [] {
      var init := s[..|s| - 1];
      var kinit := seq(|init|, i requires 0 <= i < |init| => k * init[i]);
      forall i | 0 <= i < |init|
        ensures ks[..|s| - 1][i] == kinit[i]
      {
        assert init[i] == s[i];
      }
      assert ks[..|s| - 1] == kinit;
      SumScaled(k, init);
    }
  }

  /** Small facts of real arithmetic the solver does not find on its own in
    * a larger context. */
  lemma MulNonZero(x: real, y: real)
    requires x != 0.0 && y != 0.0
    ensures x * y != 0.0
  {
  }

  lemma SquarePositive(x: real)
    requires x != 0.0
    ensures x * x > 0.0
  {
  }

  lemma SquareNonNegative(x: real)
    ensures x * x >= 0.0
  {
    if x < 0.0 {
      assert x * x == (-x) * (-x);
    }
  }

  lemma MulPositive(x: real, y: real)
    requires x > 0.0 && y > 0.0
    ensures x * y > 0.0
  {
  }

  lemma MulNonNegative(x: real, y: real)
    requires x >= 0.0 && y >= 0.0
    ensures x * y >= 0.0
  {
  }

  lemma DivMulCancel(x: real, y: real)
    requires y != 0.0
    ensures (x / y) * y == x
  {
  }

  lemma MulDivCancel(x: real, y: real)
    requires y != 0.0
    ensures (x * y) / y == x
  {
  }

  /** Dividing by d^2 is multiplying twice by 1/d, and keeps the sign of a
    * non-negative numerator. */
  lemma InverseSquare(x: real, d: real)
    requires d != 0.0
    ensures (x / (d * d)) * (d * d) == x
    ensures x / (d * d) == x * (1.0 / d) * (1.0 / d)
    ensures x >= 0.0 ==> x / (d * d) >= 0.0
  {
    var m := 1.0 / d;
    assert d * m == 1.0;
    assert x / (d * d) == x * (m * m);
    if m >= 0.0 {
      MulNonNegative(m, m);
    } else {
      MulNonNegative(-m, -m);
    }
  }

  lemma PositiveFactorPreservesOrder(k: real, x: real, y: real)
    requires k > 0.0
    ensures k * x <= k * y <==> x <= y
  {
    if x <= y {
      MulNonNegative(k, y - x);
    } else {
      MulPositive(k, x - y);
    }
  }

  lemma FactorPositive(k: real, x: real, p: real)
    requires k > 0.0 && k * x == p && p > 0.0
    ensures x > 0.0
  {
    if x <= 0.0 {
      MulNonNegative(k, -x);
    }
  }

  lemma CancelFactor(k: real, x: real, y: real)
    requires k != 0.0 && k * x == k * y
    ensures x == y
  {
    assert k * (x - y) == 0.0;
  }

  /** `sqrt` behaves as the real square root on the non-negative numbers. The
    * model is handed the platform's square root as such a function. The
    * last conjunct follows from the other two; it is spelled out so that
    * positivity of a root needs no multiplication. */
  ghost predicate IsSqrt(sqrt: real -> real)
  {
    forall x :: 0.0 <= x ==> 0.0 <= sqrt(x) && sqrt(x) * sqrt(x) == x && (0.0 < x ==> 0.0 < sqrt(x))
  }

  /** Squaring is strictly increasing on the non-negative numbers. */
  lemma SquareStrictlyIncreasing(a: real, b: real)
    requires 0.0 <= a < b
    ensures a * a < b * b
  {
    calc {
      a * a;
    <= a * b;
    < { assert (b - a) * b > 0.0; }
      b * b;
    }
  }

  /** Non-negative numbers with equal squares are equal. */
  lemma SquareRootUnique(x: real, y: real)
    requires 0.0 <= x && 0.0 <= y
    requires x * x == y * y
    ensures x == y
  {
    if x < y {
      SquareStrictlyIncreasing(x, y);
    } else if y < x {
      SquareStrictlyIncreasing(y, x);
    }
  }

  lemma SqrtOfSquare(sqrt: real -> real, x: real)
    requires IsSqrt(sqrt)
    requires 0.0 <= x
    ensures sqrt(x * x) == x
  {
    var r := sqrt(x * x);
    assert 0.0 <= r && r * r == x * x;
    if r < x {
      SquareStrictlyIncreasing(r, x);
    } else if x < r {
      SquareStrictlyIncreasing(x, r);
    }
  }

  lemma SqrtPositive(sqrt: real -> real, x: real)
    requires IsSqrt(sqrt)
    requires 0.0 < x
    ensures 0.0 < sqrt(x)
  {
    assert sqrt(x) * sqrt(x) == x;
  }

  lemma SqrtMonotone(sqrt: real -> real, x: real, y: real)
    requires IsSqrt(sqrt)
    requires 0.0 <= x <= y
    ensures sqrt(x) <= sqrt(y)
  {
    var a, b := sqrt(x), sqrt(y);
    assert a * a == x && b * b == y && a >= 0.0 && b >= 0.0;
    if b < a {
      SquareStrictlyIncreasing(b, a);
    }
  }

  /** sin and cos are a sine and cosine as far as the model needs: they
    * satisfy the Pythagorean identity, so both stay within [-1, 1]. */
  ghost predicate IsSinCos(sin: real -> real, cos: real -> real)
  {
    forall x :: sin(x) * sin(x) + cos(x) * cos(x) == 1.0
  }

  lemma CosBounded(sin: real -> real, cos: real -> real, x: real)
    requires IsSinCos(sin, cos)
    ensures -1.0 <= cos(x) <= 1.0
  {
    assert sin(x) * sin(x) + cos(x) * cos(x) == 1.0;
    SquareNonNegative(sin(x));
    if cos(x) > 1.0 {
      SquareStrictlyIncreasing(1.0, cos(x));
    } else if cos(x) < -1.0 {
      SquareStrictlyIncreasing(1.0, -cos(x));
    }
  }

  lemma SinBounded(sin: real -> real, cos: real -> real, x: real)
    requires IsSinCos(sin, cos)
    ensures -1.0 <= sin(x) <= 1.0
  {
    assert sin(x) * sin(x) + cos(x) * cos(x) == 1.0;
    SquareNonNegative(cos(x));
    if sin(x) > 1.0 {
      SquareStrictlyIncreasing(1.0, sin(x));
    } else if sin(x) < -1.0 {
      SquareStrictlyIncreasing(1.0, -sin(x));
    }
  }

  /** Scaling by a factor in [-1, 1] never increases a magnitude. */
  lemma UnitFactorBounded(a: real, s: real)
    requires -1.0 <= s <= 1.0
    ensures Abs(a * s) <= Abs(a)
  {
    if a >= 0.0 {
      MulNonNegative(a, 1.0 - s);
      MulNonNegative(a, 1.0 + s);
    } else {
      MulNonNegative(-a, 1.0 - s);
      MulNonNegative(-a, 1.0 + s);
    }
  }

  /** numpy.deg2rad */
  function Deg2Rad(grados: real): real
  {
    grados * PI / 180.0
  }

  function NatToString(n: nat): string
  {
    var d := "0123456789"[n % 10];
    if n < 10 then [d] else NatToString(n / 10) + [d]
  }

  function IntToString(i: int): string
  {
    if i < 0 then "-" + NatToString(-i) else NatToString(i)
  }

  /** The dictionary a kinematics `simular_*` wrapper returns: the echoed
    * inputs, the results and a message, or the text of the error and a
    * message saying which `except` clause caught it. */
  datatype Simulacion<+P, +R> =
    | Exito(parametros: P, resultados: R, mensaje: string)
    | Fallo(error: string, mensaje: string)

  /** The two `except` clauses of a kinematics wrapper: ValueError is an
    * input error, anything else unexpected. */
  function Simular<P, R>(parametros: P, r: Result<R>, okMessage: string): (out: Simulacion<P, R>)
    ensures r.Ok? ==> out == Exito(parametros, r.value, okMessage)
    ensures r.Err? && r.error.ValueError? ==>
      out == Fallo(r.error.message, "Error en los parámetros de entrada.")
    ensures r.Err? && !r.error.ValueError? ==>
      out == Fallo(ErrorText(r.error), "Ocurrió un error inesperado durante la simulación.")
  {
    match r
    case Ok(v) => Exito(parametros, v, okMessage)
    case Err(e) =>
      if e.ValueError? then Fallo(e.message, "Error en los parámetros de entrada.")
      else Fallo(ErrorText(e), "Ocurrió un error inesperado durante la simulación.")
  }

  /** The dictionary an electricity calculator returns:
    * {clave: valor, "estado_animacion": estadoAnimacion}. */
  datatype Calculo<+S> = Calculo(clave: string, valor: real, estadoAnimacion: S)

  /** An animation state holding an input list and its total:
    * {claveLista: valores, claveTotal: total}. */
  datatype EstadoLista = EstadoLista(claveLista: string, valores: seq<real>, claveTotal: string, total: real)

  /** The body of the JSON answer a `simular_*` wrapper builds. */
  datatype Response<+T> = Response(success: bool, message: string, resultados: Option<T>)

  /** What `str(e)` gives for each error outcome. */
  function ErrorText(e: Error): string
  {
    match e
    case ValueError(m) => m
    case ZeroDivisionError => "division by zero"
    case AttributeError(m) => m
    case NonFinite => "non-finite result"
  }

  /** A `simular_*` wrapper: a value becomes a success response; an error the
    * wrapper's `except` clause names becomes a failure response carrying
    * `str(e)`; any other error escapes the wrapper. `catchAll` is true for
    * `except Exception`, false for `except ValueError`. */
  function Simulate<T>(r: Result<T>, okMessage: string, catchAll: bool): (out: Result<Response<T>>)
    ensures r.Ok? ==> out == Ok(Response(true, okMessage, Some(r.value)))
    ensures r.Err? && (catchAll || r.error.ValueError?) ==>
      out == Ok(Response(false, ErrorText(r.error), None))
    ensures r.Err? && !catchAll && !r.error.ValueError? ==> out == Err(r.error)
  {
    match r
    case Ok(v) => Ok(Response(true, okMessage, Some(v)))
    case Err(e) =>
      if catchAll || e.ValueError? then Ok(Response(false, ErrorText(e), None)) else Err(e)
  }
}
