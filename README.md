# SimuladorFisica in Dafny

SimuladorFisica is a physics simulator whose Flask routes call a Python
backend. This project models that backend's computation and proves
properties of it:

- the formula library (`Formulas/`): kinematics, dynamics, energy,
  collisions, electricity and magnetism, waves;
- the equation package (`Ecuaciones/`): the kinematic helpers, the
  free-fall and projectile samplers with their ground filter, the stepping
  loop of a block on an incline, Newton's laws on a floor, the
  energy-conservation calculator and the collision states;
- the simulation package (`simulations/`): the calculators, which return a
  value together with an animation state, and the `simular_*` wrappers,
  which turn a raised `ValueError` into a failure response.

Representation:

- A Python float is a Dafny `real`. `math.pi` is the constant
  3.141592653589793 and g is 9.81.
- `sqrt`, `sin` and `cos` are function parameters. The predicates
  `IsSqrt` and `IsSinCos` give them the properties the proofs need: a
  non-negative root that squares back, and the Pythagorean identity.
- A raised exception is the `Err` side of a `Result`: `ValueError`,
  `ZeroDivisionError`, `AttributeError`, or `NonFinite` for a numpy
  inf/nan. A returned `None` is `Option`.
- `numpy.linspace(0, T, n)` is `Grid.Linspace`.
- The sampling loops are methods with loop invariants:
  - the ground filter, `GroundFilter.FilterAboveGround`;
  - the incline stepping, `EcuacionesPlanoInclinado.Recorrer`;
  - the pulley states, `SimulacionPlanoInclinadoPolea.Estados`;
  - the parallel-resistance loop;
  - the row-append loops.

  Each is proved equal to a specification function. The properties are
  proved as lemmas about that function.

Modules follow the source files:

| module | source |
|---|---|
| `Py` | the error model, the response wrappers, `sum`, `numpy.sign`, square root and trigonometric laws |
| `Grid` | `numpy.linspace` and the point-count clamps |
| `GroundFilter` | the shared "keep samples until the first one below the ground, then add the impact" loop |
| `FormulasCinematica` | `Formulas/cinematica.py` |
| `FormulasDinamica` | `Formulas/dinamica.py` |
| `FormulasColisiones` | `Formulas/colisiones.py` |
| `FormulasEnergia` | `Formulas/energia.py` |
| `FormulasElectricidad` | `Formulas/electricidad_y_magnetismo.py` |
| `FormulasOndas` | `Formulas/ondas.py` |
| `EcuacionesCinematicas`, `EcuacionesCaidaLibre`, `EcuacionesTiroParabolico`, `EcuacionesMru`, `EcuacionesLeyesNewton`, `EcuacionesPlanoInclinado`, `EcuacionesEnergia`, `ColisionesEstados` | the `Ecuaciones/` files |
| `SimulacionCaidaLibre`, `SimulacionMru`, `SimulacionPlanoInclinadoPolea`, `CalculosCircuitos`, `Capacitancia`, `Inductancia`, `LeyOhm`, `LeyesKirchhoff`, `Magnetismo`, `PotenciaElectrica`, `Resistencia`, `Ondas` | the `simulations/` files, together with their `Ecuaciones/` twins |

## Model

| member | source | states |
|---|---|---|
| Py.Simulate | backend/simulations/electricidad_y_magnetismo/resistencia.py:18-34 | A `simular_*` wrapper returns a success response carrying the value. An error its `except` clause names becomes a failure response carrying the error text. Any other error escapes the wrapper. |
| Py.Simular | backend/simulations/cinematica/mru.py:23-49 | The kinematics wrappers report a result as success. A `ValueError` becomes an input error. Any other error becomes an unexpected error. The parameters are echoed in every case. |
| Py.Sign | backend/Formulas/dinamica.py:89-93 | `numpy.sign` times the magnitude gives back the number, and the sign is 0 exactly at 0. |
| Grid.Linspace | backend/simulations/cinematica/mru.py:16 | A negative count raises. Otherwise the grid has exactly n values, the i-th being i T/(n-1), or 0 alone when n = 1. |
| Grid.LinspaceShape | backend/simulations/cinematica/mru.py:16 | The grid starts at 0. With two points or more it ends at T and steps evenly by T/(n-1). |
| Grid.GridStep | backend/simulations/cinematica/mru.py:16 | Consecutive grid points differ by T/(n-1). |
| Grid.GridBounds | backend/simulations/cinematica/mru.py:16 | For T >= 0 every grid point lies in [0, T]. |
| Grid.GridMonotone | backend/simulations/cinematica/mru.py:16 | For T >= 0 the grid never decreases. |
| Grid.ClampPoints | backend/simulations/cinematica/mru.py:10-14 | A request of 1 or fewer points becomes 2 when T > 0 and 1 otherwise. A request of 2 or more is kept. |
| Grid.ClampPointsWide | backend/Ecuaciones/cinematica/mru.py:13-17 | The equation copy's clamp: 20 points for T > 0 with at most one point asked for, and 10 for a request below 1 otherwise. A request of 1 with no duration, or of 2 or more, is kept. |
| Grid.Rows2 | backend/simulations/cinematica/mru.py:19 | `np.array([a, b]).T.tolist()` is one [a_i, b_i] row per index. |
| Grid.Rows3 | backend/simulations/cinematica/mruv.py:20 | `np.array([a, b, c]).T.tolist()` is one [a_i, b_i, c_i] row per index. |
| Grid.AppendRows3 | backend/Ecuaciones/dinamica/leyes_newton.py:47-49 | The append loop builds exactly those rows, in order. |
| GroundFilter.Zip3 | backend/simulations/cinematica/caida_libre.py:28 | `zip` of three equally long lists pairs their i-th elements. |
| GroundFilter.FirstBelowGround | backend/simulations/cinematica/caida_libre.py:34 | The index where the scan stops: every earlier sample is at or above the ground, and the sample there is below it. |
| GroundFilter.FilterAboveGround | backend/simulations/cinematica/caida_libre.py:28-44 | The filter loop returns three equally long lists whose zip is the truncation of the input under the impact guards. |
| GroundFilter.TruncatedIsGridPrefix | backend/simulations/cinematica/caida_libre.py:28-44 | What is kept is the grid up to the first sample below the ground, followed by at most the impact sample. |
| GroundFilter.TruncatedAboveGround | backend/simulations/cinematica/caida_libre.py:28-44 | With an impact on or above the ground, nothing kept is below the ground. |
| GroundFilter.AboveGroundKeptWhole | backend/simulations/cinematica/caida_libre.py:28-44 | A grid that never dips below the ground is kept whole. |
| GroundFilter.TruncatedIdempotent | backend/simulations/cinematica/caida_libre.py:28-44 | Filtering twice keeps exactly what filtering once kept. |
| GroundFilter.TruncatedTimesNonDecreasing | backend/simulations/cinematica/caida_libre.py:35-43 | Grid times that never decrease stay non-decreasing after filtering, because the impact is appended only after the last kept time. |
| GroundFilter.TruncatedKeeps | backend/simulations/cinematica/caida_libre.py:28-44 | Any property of every grid sample and of the impact holds of every kept sample. |
| GroundFilter.TruncatedEndsAtImpact | backend/simulations/cinematica/caida_libre.py:28-44 | A grid that starts above the ground and ends below it is cut to two samples or more, the last being the impact. |
| SimulacionCaidaLibre.FallHeights | backend/simulations/cinematica/caida_libre.py:19-21 | Each height is h0 - g t^2/2 at its time. |
| SimulacionCaidaLibre.FallVelocities | backend/simulations/cinematica/caida_libre.py:19-21 | Each velocity is -g t at its time. |
| SimulacionCaidaLibre.FallSamples | backend/simulations/cinematica/caida_libre.py:19-21 | Each sample is (t, h0 - g t^2/2, -g t). |
| SimulacionCaidaLibre.CalcularCaidaLibre | backend/simulations/cinematica/caida_libre.py:5-49 | A non-positive height gives the three empty lists. A negative point count raises. Otherwise the result holds the filtered fall over linspace(0, T, n), with T the requested time or the impact time, and one state row per kept sample. |
| SimulacionCaidaLibre.ImpactOnTrajectory | backend/simulations/cinematica/caida_libre.py:35-43 | The impact time t* is non-negative, puts the body exactly on the ground, and equals the library's fall time. |
| SimulacionCaidaLibre.AboveGroundBeforeImpact | backend/simulations/cinematica/caida_libre.py:28-44 | A time t >= 0 is at or above the ground if and only if t <= t*, and on the ground if and only if t = t*. |
| SimulacionCaidaLibre.KeptAboveGround | backend/simulations/cinematica/caida_libre.py:28-44 | No kept sample is below the ground. |
| SimulacionCaidaLibre.KeptOnTrajectory | backend/simulations/cinematica/caida_libre.py:28-44 | Every kept sample, the impact included, lies on the trajectory (height and velocity at its time). |
| SimulacionCaidaLibre.KeptTimesNonDecreasing | backend/simulations/cinematica/caida_libre.py:35-43 | Over a non-negative total time the kept times never run backwards. |
| SimulacionCaidaLibre.DefaultTimeKeepsWholeGrid | backend/simulations/cinematica/caida_libre.py:14-17 | With the default total time the whole grid is above the ground, so nothing is cut. |
| SimulacionCaidaLibre.GridOnTrajectory | backend/simulations/cinematica/caida_libre.py:19-21 | The sampled grid runs from time 0 to T along the trajectory. |
| SimulacionCaidaLibre.BeforeOrAtImpact | backend/simulations/cinematica/caida_libre.py:35-43 | A trajectory point at t >= 0, on or above the ground, is either strictly above it before t* or is the impact sample itself. |
| SimulacionCaidaLibre.LongRunEndsAtImpact | backend/simulations/cinematica/caida_libre.py:28-44 | With a total time past the impact and two points or more, the series ends exactly at (t*, 0, -g t*). |
| SimulacionCaidaLibre.Desempaquetar | backend/simulations/cinematica/caida_libre.py:57-58 | The three empty lists do not unpack into five names and raise a `ValueError`. Anything else passes through unchanged. |
| SimulacionCaidaLibre.SimularCaidaLibre | backend/simulations/cinematica/caida_libre.py:51-78 | A non-positive height or a negative point count ends in the error response. Otherwise the result is reported with the filtered fall. |
| EcuacionesCaidaLibre.HelperHeights | backend/Ecuaciones/cinematica/caida_libre.py:21 | Each height is the position helper with v0 = 0 and a = -g. |
| EcuacionesCaidaLibre.HelperVelocities | backend/Ecuaciones/cinematica/caida_libre.py:22 | Each velocity is the velocity helper with v0 = 0 and a = -g. |
| EcuacionesCaidaLibre.FallRows | backend/Ecuaciones/cinematica/caida_libre.py:47-51 | One `{tiempo, altura, velocidad}` dict per kept sample. |
| EcuacionesCaidaLibre.HelpersGiveTrajectory | backend/Ecuaciones/cinematica/caida_libre.py:20-22 | The helper-built samples are exactly the simulation copy's trajectory. |
| EcuacionesCaidaLibre.CalcularCaidaLibre | backend/Ecuaciones/cinematica/caida_libre.py:6-53 | The same three outcomes as the simulation copy, with the same filtered samples and one dict row per kept sample. |
| EcuacionesCinematicas.CalcularVelocidadFinalTiempo | backend/Ecuaciones/cinematica/ecuaciones_cinematicas.py:3-7 | The result inverts to the acceleration: (v - v0)/t = a for t != 0, and v = v0 at t = 0. |
| EcuacionesCinematicas.CalcularPosicionFinalTiempo | backend/Ecuaciones/cinematica/ecuaciones_cinematicas.py:9-13 | The position is the equation of motion, and its displacement is the mean velocity times t. |
| EcuacionesCinematicas.CalcularVelocidadFinalDesplazamiento | backend/Ecuaciones/cinematica/ecuaciones_cinematicas.py:15-23 | `None` if and only if v0^2 + 2 a dx < 0. Otherwise the result is the non-negative root of v0^2 + 2 a dx. |
| EcuacionesCinematicas.CalcularDesplazamientoVelocidades | backend/Ecuaciones/cinematica/ecuaciones_cinematicas.py:25-29 | The displacement gives back the time: 2 dx/(v0 + v) = t when v0 + v != 0. It is 0 when v0 + v = 0 or t = 0. |
| EcuacionesCinematicas.CalcularTiempoDesplazamientoVelocidades | backend/Ecuaciones/cinematica/ecuaciones_cinematicas.py:31-37 | `None` if and only if v0 + v = 0. Otherwise (v0 + v) t/2 = xf - x0. |
| EcuacionesCinematicas.CalcularAceleracionVelocidadesTiempo | backend/Ecuaciones/cinematica/ecuaciones_cinematicas.py:39-45 | `None` if and only if t = 0. Otherwise v0 + a t = v. |
| EcuacionesCinematicas.CalcularAceleracionPosicionVelocidadTiempo | backend/Ecuaciones/cinematica/ecuaciones_cinematicas.py:81-87 | `None` if and only if t = 0. Otherwise the acceleration carries x0 to xf in time t. |
| EcuacionesCinematicas.CalcularPosicionFinalVelocidadAceleracion | backend/Ecuaciones/cinematica/ecuaciones_cinematicas.py:89-95 | `None` if and only if a = 0. Otherwise v^2 = v0^2 + 2 a (x - x0). |
| EcuacionesCinematicas.NonNegativeOf | backend/Ecuaciones/cinematica/ecuaciones_cinematicas.py:73-79 | A time is returned if and only if it is one of the two roots and is non-negative. |
| EcuacionesCinematicas.CalcularTiempoPosicionVelocidadAceleracion | backend/Ecuaciones/cinematica/ecuaciones_cinematicas.py:47-79 | As written: it raises `AttributeError` if and only if a != 0 and the discriminant is positive. Every time it does return solves the equation of motion. With a = 0 and v0 != 0 it returns the single linear root -(x0 - xf) / v0, whatever its sign. |
| EcuacionesCinematicas.LinearRootSolves | backend/Ecuaciones/cinematica/ecuaciones_cinematicas.py:56-58 | With a = 0, -c/b solves the equation. |
| EcuacionesCinematicas.RootsSolve | backend/Ecuaciones/cinematica/ecuaciones_cinematicas.py:69-79 | Both textbook roots solve the time equation when the discriminant is >= 0. |
| EcuacionesCinematicas.RootSolves | backend/Ecuaciones/cinematica/ecuaciones_cinematicas.py:69-79 | (-b + s)/2a solves the equation whenever s^2 is the discriminant. |
| EcuacionesCinematicas.DoubleRootSolves | backend/Ecuaciones/cinematica/ecuaciones_cinematicas.py:60-68 | With a zero discriminant, -b/2a solves the equation. |
| EcuacionesCinematicas.OnlyRoots | backend/Ecuaciones/cinematica/ecuaciones_cinematicas.py:47-79 | Completeness: every solution with a != 0 is one of the two roots, and a solution exists only if the discriminant is >= 0. |
| EcuacionesCinematicas.AccelerationSolvesPosition | backend/Ecuaciones/cinematica/ecuaciones_cinematicas.py:81-87 | 2 (xf - x0 - v0 t)/t^2 carries x0 to xf in time t. |
| FormulasCinematica.CalcularTiempoCaidaLibre | backend/Formulas/cinematica.py:8-16 | Raises if and only if h < 0. Otherwise the time is non-negative and g t^2/2 = h. |
| FormulasCinematica.CalcularVelocidadFinalCaidaLibre | backend/Formulas/cinematica.py:18-24 | Raises if and only if h < 0. Otherwise the speed is non-negative and v^2 = 2 g h. |
| FormulasCinematica.FallSpeedIsGravityTimesFallTime | backend/Formulas/cinematica.py:8-24 | Impact speed = g times the fall time. |
| FormulasCinematica.CalcularAlturaCaidaLibre | backend/Formulas/cinematica.py:26-37 | Raises for negative t, then for negative h0. Otherwise 0 <= h <= h0. The height is 0 exactly once g t^2/2 >= h0, and h0 - g t^2/2 before that. |
| FormulasCinematica.HeightAtFallTimeIsGround | backend/Formulas/cinematica.py:8-37 | At the fall time the height is exactly 0. |
| FormulasCinematica.CalcularTiempoPosicionVelocidadAceleracion | backend/Formulas/cinematica.py:83-115 | Every returned time solves the equation of motion. With a != 0 every returned time is >= 0. With a = 0 and v0 != 0 the single linear root -(x0 - xf) / v0 is returned, whatever its sign. Nothing is returned when a = v0 = 0 or the discriminant is negative. |
| FormulasCinematica.TimeSolverFindsEveryTime | backend/Formulas/cinematica.py:83-115 | Completeness: every non-negative solution is returned unless a = v0 = 0. |
| FormulasCinematica.QuadraticFindsEveryTime | backend/Formulas/cinematica.py:98-115 | With a != 0, every non-negative solution is returned. |
| FormulasCinematica.AsWrittenSolverDiffersOnlyOnTwoRoots | backend/Formulas/cinematica.py:83-115 | The equation-package solver answers like this one everywhere except on two distinct real roots with a != 0, where it fails. |
| FormulasCinematica.AsWrittenSolverFailsToReachOne | backend/Ecuaciones/cinematica/ecuaciones_cinematicas.py:69-71 | For x0 = 0, v0 = 0, a = 2, xf = 1 the correct answer is t = 1, but the equation-package solver raises `AttributeError`. |
| FormulasCinematica.CalcularPeriodoFrecuenciaMas | backend/Formulas/cinematica.py:135-147 | Raises for A <= 0, then for omega <= 0. Otherwise the period is positive, T omega = 2 pi, and T f = 1. |
| FormulasCinematica.CheckMas | backend/Formulas/cinematica.py:149-161 | The argument checks pass if and only if A > 0, omega > 0 and t >= 0, with each message in the source's order. |
| FormulasCinematica.CalcularPosicionMas | backend/Formulas/cinematica.py:149-161 | Raises exactly when the checks fail. Otherwise the position stays in [-A, A]. |
| FormulasCinematica.CalcularVelocidadMas | backend/Formulas/cinematica.py:163-175 | Raises exactly when the checks fail, with the check's error. |
| FormulasCinematica.CalcularAceleracionMas | backend/Formulas/cinematica.py:177-191 | Raises exactly when the checks fail, with the check's error. |
| FormulasCinematica.MasAccelerationOpposesPosition | backend/Formulas/cinematica.py:149-191 | The equation of simple harmonic motion: a = -omega^2 x. |
| FormulasCinematica.MasEnergyConserved | backend/Formulas/cinematica.py:149-175 | v^2 + omega^2 x^2 = (A omega)^2 at every instant. |
| FormulasCinematica.CalcularPeriodoMcu | backend/Formulas/cinematica.py:193-200 | Raises if and only if omega = 0. Otherwise T > 0 and T abs(omega) = 2 pi. |
| FormulasCinematica.CalcularFrecuenciaMcu | backend/Formulas/cinematica.py:202-209 | Raises if and only if omega = 0. Otherwise f > 0 and 2 pi f = abs(omega). |
| FormulasCinematica.McuPeriodFrequencyReciprocal | backend/Formulas/cinematica.py:193-209 | T f = 1. |
| FormulasCinematica.CalcularVelocidadTangencialMcu | backend/Formulas/cinematica.py:211-218 | Raises if and only if r < 0. Otherwise v/r = omega for r > 0, and v = 0 at r = 0. |
| FormulasCinematica.CalcularAceleracionCentripetaMcu | backend/Formulas/cinematica.py:220-235 | Raises if and only if r <= 0 or neither speed is given. Otherwise the acceleration is non-negative: omega^2 r when omega is given, else v^2/r. |
| FormulasCinematica.CentripetalFormsAgree | backend/Formulas/cinematica.py:211-235 | omega^2 r equals v^2/r for the tangential speed v = omega r. |
| FormulasCinematica.CalcularPosicionAngularMcu | backend/Formulas/cinematica.py:237-244 | Raises if and only if t < 0. Otherwise (theta - theta0)/t = omega, and theta = theta0 at t = 0. |
| FormulasCinematica.CalcularPosicionMru | backend/Formulas/cinematica.py:264-283 | Raises if and only if t < 0. Otherwise the position is the equation of motion with a = 0. |
| FormulasCinematica.CalcularPosicionMruv | backend/Formulas/cinematica.py:285-303 | Raises if and only if t < 0. Otherwise the position is the equation of motion. |
| FormulasCinematica.CalcularVelocidadMruv | backend/Formulas/cinematica.py:305-324 | Raises if and only if t < 0. Otherwise (v - v0)/t = a, and v = v0 at t = 0. |
| FormulasCinematica.MruvTimelessEquation | backend/Formulas/cinematica.py:285-324 | v^2 = v0^2 + 2 a (x - x0) for the same motion at the same t. |
| FormulasCinematica.CalcularPeriodoPendulo | backend/Formulas/cinematica.py:326-329 | Raises if and only if L <= 0. Otherwise T > 0 and T^2 g = 4 pi^2 L. |
| FormulasCinematica.CalcularFrecuenciaPendulo | backend/Formulas/cinematica.py:331-334 | Raises if and only if L <= 0. Otherwise f is the reciprocal of the period. |
| FormulasCinematica.CalcularPosicionAngularPendulo | backend/Formulas/cinematica.py:336-341 | Raises if and only if L <= 0. Otherwise the angle stays within the initial amplitude. |
| FormulasCinematica.CalcularVelocidadAngularPendulo | backend/Formulas/cinematica.py:343-348 | Raises if and only if L <= 0, with the length message. |
| FormulasCinematica.CalcularAceleracionAngularPendulo | backend/Formulas/cinematica.py:350-357 | Raises if and only if L <= 0, with the length message. |
| FormulasCinematica.PenduloAccelerationOpposesAngle | backend/Formulas/cinematica.py:336-357 | The linearised pendulum equation: alpha = -(g/L) theta. |
| FormulasCinematica.PenduloEnergyConserved | backend/Formulas/cinematica.py:336-348 | w^2 + (g/L) theta^2 = (theta0 Omega)^2 at every instant, with Omega = sqrt(g/L). |
| FormulasCinematica.CalcularComponentesVelocidadInicial | backend/Formulas/cinematica.py:359-363 | With a true sine and cosine the components recompose v0. The vertical component is 0 exactly when v0 = 0 or sin = 0. |
| FormulasCinematica.CalcularTiempoVuelo | backend/Formulas/cinematica.py:365-375 | Never negative. It is 0 for a negative discriminant. A positive flight time lands on the ground. |
| FormulasCinematica.LaterRootLands | backend/Formulas/cinematica.py:365-375 | Both landing roots are on the ground, the earlier no later than the later. |
| FormulasCinematica.FlightTimeIsLastGroundContact | backend/Formulas/cinematica.py:365-375 | After the flight time the projectile is below the ground. |
| FormulasCinematica.CalcularAlturaMaxima | backend/Formulas/cinematica.py:377-380 | At least h0, and equal to the trajectory's height at the apex time vy0/g. |
| FormulasCinematica.MaxHeightBoundsTrajectory | backend/Formulas/cinematica.py:377-380 | No point of the trajectory is higher than the maximum height. |
| FormulasCinematica.CalcularAlcanceHorizontal | backend/Formulas/cinematica.py:382-386 | The range is the horizontal position at the flight time, non-negative for a forward launch. |
| FormulasCinematica.CalcularPosicionEnTiempo | backend/Formulas/cinematica.py:388-394 | The horizontal position is uniform motion, and the vertical position is the equation of motion with a = -g. |
| FormulasCinematica.LandingPoint | backend/Formulas/cinematica.py:365-394 | At the flight time the projectile is on the ground at the range. |
| EcuacionesTiroParabolico.Componentes | backend/Ecuaciones/cinematica/tiro_parabolico.py:17-25 | A launch at 0 or 180 degrees has no vertical component, one at 90 degrees no horizontal component, and any other angle gives (v0 cos, v0 sin). |
| EcuacionesTiroParabolico.ComponentsWithinLaunchSpeed | backend/Ecuaciones/cinematica/tiro_parabolico.py:17-25 | The snapped velocity is never faster than v0, and exactly v0 away from the snapped angles. |
| EcuacionesTiroParabolico.TiempoTotalSimulacion | backend/Ecuaciones/cinematica/tiro_parabolico.py:33-52 | Always positive. For a negative discriminant it is twice the apex time when launched upwards, and 1 otherwise. For a non-negative discriminant it is the later landing root when that is positive, and 1 otherwise. |
| EcuacionesTiroParabolico.RootsAreLandingRoots | backend/Ecuaciones/cinematica/tiro_parabolico.py:33-52 | The code's roots (-b +- s)/2a with a = -g/2 are the earlier and later landing roots. |
| EcuacionesTiroParabolico.HelperX | backend/Ecuaciones/cinematica/tiro_parabolico.py:55 | Each horizontal position is v0x t. |
| EcuacionesTiroParabolico.HelperY | backend/Ecuaciones/cinematica/tiro_parabolico.py:56 | Each height is h0 + v0y t - g t^2/2. |
| EcuacionesTiroParabolico.FlightSamples | backend/Ecuaciones/cinematica/tiro_parabolico.py:54-56 | Each sample is (t, height, horizontal position) at its time. |
| EcuacionesTiroParabolico.FlightRows | backend/Ecuaciones/cinematica/tiro_parabolico.py:82-87 | One `{tiempo, posicion_x, posicion_y}` dict per kept sample. |
| EcuacionesTiroParabolico.CalcularTiroParabolico | backend/Ecuaciones/cinematica/tiro_parabolico.py:6-87 | v0 <= 0 gives empty lists. A negative point count raises. Otherwise the result is the ground-filtered flight over linspace(0, T, n), closed by (T, v0x T, 0), with T returned. |
| EcuacionesTiroParabolico.EarlierRootNotAfterLaunch | backend/Ecuaciones/cinematica/tiro_parabolico.py:33-52 | From a launch height >= 0 the earlier landing root is <= 0. |
| EcuacionesTiroParabolico.AboveGroundBetweenRoots | backend/Ecuaciones/cinematica/tiro_parabolico.py:62-79 | Between the landing roots the projectile is on or above the ground. |
| EcuacionesTiroParabolico.WholeFlightKept | backend/Ecuaciones/cinematica/tiro_parabolico.py:62-79 | Launched from on or above the ground with a positive landing root, nothing is cut. With two points or more the last sample is the landing. |
| EcuacionesTiroParabolico.BelowGroundLaunchGivesLandingOnly | backend/Ecuaciones/cinematica/tiro_parabolico.py:62-79 | Launched from below the ground, the series is the closing sample alone. |
| EcuacionesTiroParabolico.KeptAboveGroundInOrder | backend/Ecuaciones/cinematica/tiro_parabolico.py:62-79 | Nothing kept is below the ground, and the kept times run forward. |
| SimulacionMru.GridOf | backend/simulations/cinematica/mru.py:10-16 | The grid has the clamped number of points, evenly spaced over [0, T]. |
| SimulacionMru.CalcularMru | backend/simulations/cinematica/mru.py:3-21 | Raises if and only if T < 0. Otherwise the times are the clamped grid, the positions x0 + v t, and the states one [t, x] row each. |
| SimulacionMru.GridNonNegative | backend/simulations/cinematica/mru.py:16 | Every grid time is >= 0. |
| SimulacionMru.MruPositions | backend/simulations/cinematica/mru.py:17 | Each position is x0 + v t. |
| SimulacionMru.MruStepsAreEqual | backend/simulations/cinematica/mru.py:16-17 | Equal time steps give equal distances, v T/(n-1) each. |
| SimulacionMru.MruAgreesWithFormula | backend/simulations/cinematica/mru.py:17 | Each sample agrees with the library's pointwise uniform-motion formula. |
| SimulacionMru.MruEndpoints | backend/simulations/cinematica/mru.py:16-21 | The series starts at (0, x0) and ends at (T, x0 + v T). |
| SimulacionMru.SimularMru | backend/simulations/cinematica/mru.py:23-49 | A failure if and only if T < 0, with the input-error messages. Otherwise a success echoing the parameters and the result. |
| SimulacionMru.CalcularMruv | backend/simulations/cinematica/mruv.py:3-22 | Raises if and only if T < 0. Otherwise the positions are x0 + v0 t + a t^2/2, the velocities v0 + a t, and the states one [t, x, v] row each. |
| SimulacionMru.MruvPositions | backend/simulations/cinematica/mruv.py:17 | Each position is x0 + v0 t + a t^2/2. |
| SimulacionMru.MruvVelocities | backend/simulations/cinematica/mruv.py:18 | Each velocity is v0 + a t. |
| SimulacionMru.MruvAgreesWithFormulas | backend/simulations/cinematica/mruv.py:17-18 | Each sample agrees with the library's pointwise formulas. |
| SimulacionMru.MruvSamplesTimeless | backend/simulations/cinematica/mruv.py:17-18 | Each sampled pair satisfies v^2 = v0^2 + 2 a (x - x0). |
| SimulacionMru.SimularMruv | backend/simulations/cinematica/mruv.py:24-52 | A failure if and only if T < 0. Otherwise a success echoing the parameters and the result. |
| EcuacionesMru.CheckTiempoTotal | backend/Ecuaciones/cinematica/mru.py:9-12 | Passes if and only if a total time is given and it is >= 0, with the messages for a missing and for a negative time. |
| EcuacionesMru.WideGrid | backend/Ecuaciones/cinematica/mru.py:13-19 | The grid has the 20/10-clamped number of points, evenly spaced over [0, T]. |
| EcuacionesMru.MruRows | backend/Ecuaciones/cinematica/mru.py:22-27 | One `{tiempo, posicion}` dict per grid point. |
| EcuacionesMru.UniformPositions | backend/Ecuaciones/cinematica/mru.py:20 | The position helper with a = 0 gives x0 + v t. |
| EcuacionesMru.CalcularMru | backend/Ecuaciones/cinematica/mru.py:4-27 | Raises exactly when the time check fails. Otherwise it samples x0 + v t on the wide grid, with one dict row each. |
| EcuacionesMru.MruCopiesAgree | backend/Ecuaciones/cinematica/mru.py:13-20 | With two points or more, both uniform-motion samplers give the same times and positions. |
| EcuacionesMru.MruSmallRequestWidened | backend/Ecuaciones/cinematica/mru.py:13-17 | A positive duration with at most one point asked for is drawn with 20 points from 0 to T. |
| EcuacionesMru.MruvRows | backend/Ecuaciones/cinematica/mruv.py:23-28 | One `{tiempo, posicion, velocidad}` dict per grid point. |
| EcuacionesMru.AcceleratedPositions | backend/Ecuaciones/cinematica/mruv.py:20 | Each position is the equation of motion at its time. |
| EcuacionesMru.AcceleratedVelocities | backend/Ecuaciones/cinematica/mruv.py:21 | Each velocity satisfies v - v0 = a t. |
| EcuacionesMru.CalcularMruv | backend/Ecuaciones/cinematica/mruv.py:4-28 | Raises exactly when the time check fails. Otherwise it samples position and velocity on the clamped grid, with one dict row each. |
| EcuacionesMru.MruvCopiesAgree | backend/Ecuaciones/cinematica/mruv.py:14-21 | Both accelerated-motion samplers give the same times, positions and velocities. |
| FormulasColisiones.CalcularCoeficienteRestitucion | backend/Formulas/colisiones.py:3-24 | Raises if and only if v1i = v2i. Otherwise v2f - v1f = e (v1i - v2i). |
| FormulasColisiones.NormalRuleConserves | backend/Formulas/colisiones.py:95-101 | The 1D elastic rule keeps momentum and kinetic energy and reverses the relative velocity. |
| FormulasColisiones.NormalRuleExchange | backend/Formulas/colisiones.py:95-101 | The rule moves the two normal velocities by equal and opposite impulses per unit mass. |
| FormulasColisiones.CalcularVelocidadesFinalesColisionElastica1d | backend/Formulas/colisiones.py:26-48 | Raises if and only if a mass is <= 0. Otherwise it gives the 1D elastic rule, which keeps momentum and energy. |
| FormulasColisiones.ElasticFormsAgree | backend/Formulas/colisiones.py:45-46 | The coefficient form of the 1D formula equals the form the 2D and 3D code uses. |
| FormulasColisiones.ElasticRestitutionIsOne | backend/Formulas/colisiones.py:26-48 | The output of an elastic collision has restitution 1. |
| FormulasColisiones.EqualMassesExchange | backend/Formulas/colisiones.py:26-48 | Equal masses exchange velocities. |
| FormulasColisiones.UnitNormal2 | backend/Formulas/colisiones.py:73-77 | Raises if and only if the normal is (0, 0). Otherwise the result has length 1, and a normal already of length 1 is kept. |
| FormulasColisiones.CalcularVelocidadesFinalesColisionElastica2d | backend/Formulas/colisiones.py:50-110 | Raises for a mass <= 0 or a zero normal. Otherwise it applies the 1D rule along the normalised normal and keeps the tangential components. |
| FormulasColisiones.Elastica2dConserves | backend/Formulas/colisiones.py:95-101 | Along a unit normal: both momentum components and the kinetic energy are kept, and each tangential component is unchanged. |
| FormulasColisiones.UnitNormal3 | backend/Formulas/colisiones.py:136-140 | Raises if and only if the normal is zero. Otherwise it has length 1, and a unit normal is kept. |
| FormulasColisiones.CalcularVelocidadesFinalesColisionElastica3d | backend/Formulas/colisiones.py:112-166 | Raises for a mass <= 0 or a zero normal. Otherwise it is the 3D rule along the normalised normal. |
| FormulasColisiones.Elastica3dConservesMomentum | backend/Formulas/colisiones.py:142-164 | The 3D rule keeps total momentum along any normal. |
| FormulasColisiones.Elastica3dKeepsTangentialAndEnergy | backend/Formulas/colisiones.py:142-164 | Along a unit normal the tangential parts are unchanged and the kinetic energy is kept. |
| FormulasColisiones.CalcularVelocidadFinalColisionPerfectamenteInelastica1d | backend/Formulas/colisiones.py:168-182 | Raises if and only if a mass is <= 0. Otherwise (m1 + m2) v = m1 v1 + m2 v2. |
| FormulasColisiones.CommonVelocityBetween | backend/Formulas/colisiones.py:176-180 | The common velocity lies between the two initial velocities. |
| FormulasColisiones.CalcularVelocidadFinalColisionPerfectamenteInelastica2d | backend/Formulas/colisiones.py:184-204 | Raises if and only if a mass is <= 0. Otherwise momentum is kept in each component. |
| FormulasColisiones.Inelastic2dIsComponentwise | backend/Formulas/colisiones.py:189-202 | Each 2D component is the 1D common velocity of that component. |
| FormulasColisiones.CalcularImpulso | backend/Formulas/colisiones.py:206-222 | Raises if and only if t < 0. Otherwise J/t = F for t > 0, and J = 0 at t = 0. |
| FormulasColisiones.CalcularCambioMomentoLineal | backend/Formulas/colisiones.py:224-241 | Raises if and only if m <= 0. Otherwise it is the final momentum minus the initial momentum. |
| FormulasColisiones.CalcularMomentoLineal | backend/Formulas/colisiones.py:243-259 | Raises if and only if m <= 0. Otherwise p/m = v. |
| FormulasColisiones.ImpulseIsMomentumChange | backend/Formulas/colisiones.py:206-241 | Impulse-momentum theorem: the impulse of a constant force m a over t is the momentum change. |
| ColisionesEstados.CalcularColisionElastica1d | backend/Ecuaciones/colisiones/colision_elastica_1d.py:3-31 | Raises if and only if a mass is <= 0. Otherwise it gives the library's final velocities and two frames at time 0. The bodies sit at (-1, 0) and (1, 0) and move along x with the initial and then the final velocities. |
| ColisionesEstados.Elastica1dFramesConserve | backend/Ecuaciones/colisiones/colision_elastica_1d.py:17-31 | The final frame has the first frame's momentum and kinetic energy. |
| ColisionesEstados.CalcularColisionPerfectamenteInelastica2d | backend/Ecuaciones/colisiones/colision_perfectamente_inelastica_2d.py:3-32 | Raises if and only if a mass is <= 0. Otherwise it gives the common velocity per component. The initial frame echoes the input velocities at (-1, 0) and (1, 0). In the final frame both bodies are at the origin with the common velocity. |
| ColisionesEstados.Inelastica2dFramesConserveMomentum | backend/Ecuaciones/colisiones/colision_perfectamente_inelastica_2d.py:12-32 | The final frame has the first frame's momentum in both directions. |
| ColisionesEstados.CalcularColisionPerfectamenteInelastica1d | backend/simulations/colisiones/colision_perfectamente_inelastica_1d.py:3-28 | Raises if and only if a mass is <= 0. Otherwise it gives the weighted mean velocity. The initial frame has the bodies at (-1, 0) and (1, 0) with their velocities along x. The final frame has both at the origin with the common velocity. |
| ColisionesEstados.SimularColisionPerfectamenteInelastica1d | backend/simulations/colisiones/colision_perfectamente_inelastica_1d.py:30-63 | Always echoes the inputs. A success if and only if both masses are positive. A failure has no results and no frames. |
| FormulasDinamica.CalcularFuerzaNeta | backend/Formulas/dinamica.py:6-11 | F/m = a for m != 0, and F = 0 at m = 0. |
| FormulasDinamica.CalcularAceleracion | backend/Formulas/dinamica.py:13-20 | Raises if and only if m = 0. Otherwise it inverts F = m a. |
| FormulasDinamica.CalcularFuerzaRozamientoEstatico | backend/Formulas/dinamica.py:22-27 | Fs_max/N = mu_s for N != 0, and 0 without a normal force. Non-negative for non-negative inputs. |
| FormulasDinamica.CalcularFuerzaRozamientoCinetico | backend/Formulas/dinamica.py:29-34 | Fk/N = mu_k for N != 0, and 0 without a normal force. Non-negative for non-negative inputs. |
| FormulasDinamica.KineticFrictionBelowStatic | backend/Formulas/dinamica.py:22-34 | mu_k <= mu_s gives a kinetic friction no larger than the largest static friction. |
| FormulasDinamica.CalcularAceleracionPlanoInclinadoPolea | backend/Formulas/dinamica.py:50-61 | Raises if and only if m1 + m2 = 0. Otherwise (m1 + m2) a is the driving net force. |
| FormulasDinamica.CalcularTensionPlanoInclinadoPolea | backend/Formulas/dinamica.py:36-48 | Raises if and only if m1 + m2 = 0. Otherwise T = m2 g - m2 a with the helper's acceleration. |
| FormulasDinamica.PoleaHelpersObeyNewton | backend/Formulas/dinamica.py:36-61 | Each body obeys F = m a on its own with the helpers' acceleration and tension. |
| FormulasDinamica.NormalSuelo | backend/Formulas/dinamica.py:75-78 | The normal force is m g - F_y clamped at 0. |
| FormulasDinamica.CalcularFuerzasLeyesNewton | backend/Formulas/dinamica.py:63-101 | The block rests if and only if abs(F_x) <= mu_s N, with friction F_x and a = 0. Otherwise friction is sign(F_x) mu_k N and a = net/m. A moving massless block is non-finite. |
| FormulasDinamica.FrictionNeverExceedsPush | backend/Formulas/dinamica.py:63-101 | At rest the friction is within its static bound. Once moving with mu_k <= mu_s, the block accelerates the way F_x points. |
| FormulasDinamica.CalcularPlanoInclinado | backend/Formulas/dinamica.py:103-147 | The block rests exactly while the pull along the slope is within mu_s N, friction then balancing it. Otherwise a = (m g sin - mu_k N)/m. |
| FormulasDinamica.InclineRestDependsOnlyOnAngle | backend/Formulas/dinamica.py:127-138 | For m > 0 the block rests if and only if sin theta <= mu_s cos theta, whatever the mass. |
| FormulasDinamica.SlidingBlockSpeedsUp | backend/Formulas/dinamica.py:127-138 | A sliding block with mu_k <= mu_s on a slope of at most 90 degrees speeds up. |
| FormulasDinamica.CalcularPlanoInclinadoPoleaFormulas | backend/Formulas/dinamica.py:150-207 | The sine and cosine of the slope in degrees are handed to `PoleaDesdeSenoCoseno`. It is non-finite if and only if the system moves and the masses add to 0. |
| FormulasDinamica.PoleaDesdeSenoCoseno | backend/Formulas/dinamica.py:150-207 | It moves up if the upward net force is positive, else down if the downward one is, else it stands still. This gives the acceleration and tension of each branch. A moving massless system is non-finite. |
| FormulasDinamica.PoleaAccelerationIsMagnitude | backend/Formulas/dinamica.py:187-202 | With positive total mass the acceleration is >= 0, and 0 exactly when neither net force is positive. |
| FormulasDinamica.PoleaUpMatchesHelpers | backend/Formulas/dinamica.py:150-207 | Moving up with g = 9.81, the branched formulas give the helpers' acceleration and tension. |
| FormulasDinamica.PoleaDownObeysNewton | backend/Formulas/dinamica.py:187-194 | Moving down, m2 a = T - m2 g, and the block obeys Newton's law along the slope. |
| EcuacionesLeyesNewton.CalcularFuerzas | backend/Ecuaciones/dinamica/leyes_newton.py:16-33 | Every value is the formula module's, except that a resting block reports friction -F_x. |
| EcuacionesLeyesNewton.StaticFrictionCancelsPush | backend/Ecuaciones/dinamica/leyes_newton.py:24-28 | At rest, F_x + friction = 0. |
| EcuacionesLeyesNewton.Posiciones | backend/Ecuaciones/dinamica/leyes_newton.py:44 | Each position is the distance covered from rest at the mean velocity: x = v t/2 with v the velocity of `Velocidades`. |
| EcuacionesLeyesNewton.Velocidades | backend/Ecuaciones/dinamica/leyes_newton.py:45 | Each velocity divided by its time gives back a, and the velocity is 0 at t = 0. |
| EcuacionesLeyesNewton.TrajectoryFromRest | backend/Ecuaciones/dinamica/leyes_newton.py:43-45 | Each sample satisfies v^2 = 2 a x, and a block with a = 0 stays at the origin. |
| EcuacionesLeyesNewton.CalcularFuerzasLeyesNewton | backend/Ecuaciones/dinamica/leyes_newton.py:3-61 | The forces are computed first. A negative duration then raises. Otherwise positions and velocities from rest are sampled on the clamped grid, one [t, x, v] row each. |
| EcuacionesPlanoInclinado.AceleracionDeslizamiento | backend/Ecuaciones/dinamica/plano_inclinado.py:34-41 | The sliding acceleration g sin - mu_k N/m, floored at 0. |
| EcuacionesPlanoInclinado.Paso | backend/Ecuaciones/dinamica/plano_inclinado.py:47-55 | The time step is positive. |
| EcuacionesPlanoInclinado.PasoOfGrid | backend/Ecuaciones/dinamica/plano_inclinado.py:47-55 | The step is the spacing of linspace(0, 5, n), or 0.05 for fewer than two points. |
| EcuacionesPlanoInclinado.Run | backend/Ecuaciones/dinamica/plano_inclinado.py:57-74 | The stepping records between its start and n samples. |
| EcuacionesPlanoInclinado.RunProperties | backend/Ecuaciones/dinamica/plano_inclinado.py:57-74 | Every recorded sample is before the end of the plane and, after the first, not behind the previous one. A run that neither stopped nor ran out of steps ends at or past the end. |
| EcuacionesPlanoInclinado.StepAdvances | backend/Ecuaciones/dinamica/plano_inclinado.py:66-68 | One update x += v dt + a dt^2/2, v += a dt, t += dt moves the closed forms from one sample to the next. |
| EcuacionesPlanoInclinado.Recorrer | backend/Ecuaciones/dinamica/plano_inclinado.py:57-74 | The loop records exactly the closed forms at steps 0 to k - 1, ends at the halt's position, and zeroes the acceleration on a negative speed. |
| EcuacionesPlanoInclinado.PasoFinalReachesEnd | backend/Ecuaciones/dinamica/plano_inclinado.py:77-106 | A positive final time lands exactly at the end of the plane. |
| EcuacionesPlanoInclinado.ConPuntoFinal | backend/Ecuaciones/dinamica/plano_inclinado.py:77-106 | The lists keep their prefix and equal length, and grow by at most the one end point. |
| EcuacionesPlanoInclinado.PuntoFinalOnTrajectory | backend/Ecuaciones/dinamica/plano_inclinado.py:77-106 | An appended point is the end of the plane, reached from the last sample within the appended time at the appended speed. |
| EcuacionesPlanoInclinado.CalcularPlanoInclinado | backend/Ecuaciones/dinamica/plano_inclinado.py:5-119 | A block that does not move gives the rest answer. A negative point count raises linspace's ValueError with its message. A moving massless block is non-finite once a sample is recorded. With no points, or no plane to cover, it gives empty lists and the sliding message. Otherwise it gives the stepped samples with the exact end point. |
| EcuacionesPlanoInclinado.Deslizar | backend/Ecuaciones/dinamica/plano_inclinado.py:46-119 | A sliding block reports the stepped samples with the exact end point, the final acceleration repeated once per sample, animation rows built from the three lists, and the halt, braking or sliding message. |
| EcuacionesPlanoInclinado.MuestrasShape | backend/Ecuaciones/dinamica/plano_inclinado.py:57-116 | Equal-length lists, at most one sample more than steps, every recorded position before the end and an appended one at it, and strictly increasing times. |
| SimulacionPlanoInclinadoPolea.Direccion | backend/simulations/dinamica/plano_inclinado_polea.py:56-80 | 1 if and only if the upward net force is positive. -1 if and only if only the downward one is. 0 otherwise. |
| SimulacionPlanoInclinadoPolea.FilaIsEstado | backend/simulations/dinamica/plano_inclinado_polea.py:97-121 | A row built from a state's position and speed is that state. |
| SimulacionPlanoInclinadoPolea.Estados | backend/simulations/dinamica/plano_inclinado_polea.py:90-121 | The state loop gives one state per grid time, zero at the start, then x = a t^2 d/2 and v = a t d, with the tension of the direction. |
| SimulacionPlanoInclinadoPolea.SimularPlanoInclinadoPolea | backend/simulations/dinamica/plano_inclinado_polea.py:3-142 | Direction, acceleration magnitude, per-state tension and states as above, with the parameters echoed. A moving system whose masses add to 0 is non-finite when the grid has a point. With zero points it gives no states and echoes the parameters. |
| SimulacionPlanoInclinadoPolea.EstadoIsUniformlyAccelerated | backend/simulations/dinamica/plano_inclinado_polea.py:91-101 | Every state is motion from rest under its reported acceleration. |
| SimulacionPlanoInclinadoPolea.StatesAgreeWithFormulas | backend/simulations/dinamica/plano_inclinado_polea.py:65-110 | While moving, the acceleration and tension are the formula module's. At rest the states report m2 g. |
| FormulasEnergia.CineticaSign | backend/Formulas/energia.py:3-19 | For m > 0 the kinetic energy is >= 0, is 0 if and only if v = 0, and is even in v. |
| FormulasEnergia.CineticaPositive | backend/Formulas/energia.py:17-19 | A moving body has positive kinetic energy. |
| FormulasEnergia.CalcularEnergiaCinetica | backend/Formulas/energia.py:3-19 | Raises if and only if m <= 0. Otherwise it is >= 0, and 0 exactly at rest. |
| FormulasEnergia.SpeedFromKineticEnergy | backend/Formulas/energia.py:3-19 | The speed is recovered from the energy: sqrt(2K/m) = abs(v). |
| FormulasEnergia.CalcularEnergiaPotencialElastica | backend/Formulas/energia.py:21-33 | Raises if and only if k <= 0. Otherwise it is the one key `energia_potencial`, with 2U/k = x^2. It is >= 0, and 0 exactly at x = 0. |
| FormulasEnergia.ElasticEnergySymmetricAndIncreasing | backend/Formulas/energia.py:21-33 | Symmetric in x, and strictly increasing in abs(x). |
| FormulasEnergia.CalcularEnergiaPotencialGravitatoria | backend/Formulas/energia.py:35-51 | Raises for m <= 0, then for h < 0. Otherwise it is >= 0 and 0 exactly at h = 0. |
| FormulasEnergia.GravitationalEnergyOfLift | backend/Formulas/energia.py:35-51 | Lifting by d adds exactly m g d. |
| FormulasEnergia.CalcularPotencia | backend/Formulas/energia.py:53-69 | Raises if and only if t <= 0. Otherwise P t = W. |
| FormulasEnergia.CalcularPotenciaVelocidad | backend/Formulas/energia.py:71-82 | P/v = F for v != 0, and P = 0 at v = 0. |
| FormulasEnergia.PowerOfConstantForce | backend/Formulas/energia.py:53-82 | The work F v t over t is the power F v. |
| FormulasEnergia.CalcularTrabajoEnergiaCinetica | backend/Formulas/energia.py:84-109 | Raises if and only if m <= 0. Otherwise the work is the change of kinetic energy, with both velocities echoed. |
| FormulasEnergia.WorkIsAdditive | backend/Formulas/energia.py:84-109 | Work adds along a chain of speeds and is antisymmetric. |
| FormulasEnergia.NoWorkIffSameSpeed | backend/Formulas/energia.py:84-109 | No work if and only if the speed keeps its magnitude. |
| EcuacionesEnergia.SpeedOfKineticEnergy | backend/Ecuaciones/energia/energia_potencial_gravitatoria.py:26-29 | sqrt(2K/m) carries exactly the kinetic energy K. |
| EcuacionesEnergia.CalcularEnergiaPotencialGravitatoria | backend/Ecuaciones/energia/energia_potencial_gravitatoria.py:3-53 | Raises if and only if m <= 0. Otherwise the mechanical energy is conserved. The final kinetic energy is E - m g h_f, with speed 0 when that is negative, and the state echoes the result. |
| EcuacionesEnergia.UnreachableHeight | backend/Ecuaciones/energia/energia_potencial_gravitatoria.py:21-29 | The speed is reported as 0 because of an unreachable height exactly when h_f > h_i + v_i^2/2g. |
| EcuacionesEnergia.SameHeightKeepsSpeed | backend/Ecuaciones/energia/energia_potencial_gravitatoria.py:21-29 | Ending at the starting height keeps the speed's magnitude. |
| EcuacionesEnergia.DropMatchesFreeFall | backend/Ecuaciones/energia/energia_potencial_gravitatoria.py:3-53 | Dropped from rest, the speed equals the kinematic free-fall speed through the drop. |
| FormulasElectricidad.CalcularResistenciaTotalSerie | backend/Formulas/electricidad_y_magnetismo.py:3-13 | The sum of the resistances, 0 for none. |
| FormulasElectricidad.SeriesChainsAdd | backend/Formulas/electricidad_y_magnetismo.py:3-13 | Joined series chains add. |
| FormulasElectricidad.SeriesOfEqualResistors | backend/Formulas/electricidad_y_magnetismo.py:3-13 | n equal resistors in series make n r. |
| FormulasElectricidad.Reciprocos | backend/Formulas/electricidad_y_magnetismo.py:27-29 | Each reciprocal times its resistance is 1. |
| FormulasElectricidad.CalcularResistenciaTotalParalelo | backend/Formulas/electricidad_y_magnetismo.py:15-29 | Refused if and only if some resistance is 0. Otherwise R times the sum of reciprocals is 1, and a zero sum (the empty list among others) divides by zero. |
| FormulasElectricidad.ParallelBelowEachResistor | backend/Formulas/electricidad_y_magnetismo.py:15-29 | Positive resistors in parallel give a positive total no larger than any of them. |
| FormulasElectricidad.TwoEqualInParallel | backend/Formulas/electricidad_y_magnetismo.py:15-29 | Two equal resistors in parallel give r/2. |
| FormulasElectricidad.CalcularCorrienteTotal | backend/Formulas/electricidad_y_magnetismo.py:31-46 | Raises if and only if R = 0. Otherwise I R = V. |
| FormulasElectricidad.CalcularVoltajeResistor | backend/Formulas/electricidad_y_magnetismo.py:48-59 | V/R = I for R != 0, and V = 0 at R = 0. |
| FormulasElectricidad.CurrentFromVoltage | backend/Formulas/electricidad_y_magnetismo.py:31-59 | The current is recovered from the voltage across the resistor. |
| FormulasElectricidad.CalcularPotenciaDisipadaResistor | backend/Formulas/electricidad_y_magnetismo.py:61-72 | Non-negative for R >= 0. |
| FormulasElectricidad.CalcularPotenciaElectrica | backend/Formulas/electricidad_y_magnetismo.py:568-580 | P/I = V for I != 0, and P = 0 at I = 0. |
| FormulasElectricidad.JouleHeating | backend/Formulas/electricidad_y_magnetismo.py:61-72 | I^2 R equals (I R) I. |
| FormulasElectricidad.CalcularResistencia | backend/Formulas/electricidad_y_magnetismo.py:660-674 | Raises if and only if I = 0. Otherwise R I = V. |
| FormulasElectricidad.CalcularLeyOhm | backend/Formulas/electricidad_y_magnetismo.py:284-313 | 'voltaje' always answers. It inverts by division, and gives 0 when the second value is 0. 'corriente' and 'resistencia' raise if and only if the second value is 0, and otherwise invert by multiplication. Any other mode raises. |
| FormulasElectricidad.OhmModesAgree | backend/Formulas/electricidad_y_magnetismo.py:284-313 | From V = I R, the other two modes give back I and R. |
| FormulasElectricidad.CalcularPotenciaOhm | backend/Formulas/electricidad_y_magnetismo.py:315-339 | V I first, then I^2 R, then V^2/R. It raises with fewer than two inputs, or with R = 0 in the last form. |
| FormulasElectricidad.PotenciaVoltajeResistencia | backend/Formulas/electricidad_y_magnetismo.py:337 | The power P of V across R satisfies P R = V^2. |
| FormulasElectricidad.PowerFormulasAgree | backend/Formulas/electricidad_y_magnetismo.py:315-339 | For V = I R, all three forms give the same power. |
| FormulasElectricidad.CalcularLeyKirchhoffVoltaje | backend/Formulas/electricidad_y_magnetismo.py:341-352 | The sum around the loop, 0 for none. |
| FormulasElectricidad.LoopBalanced | backend/Formulas/electricidad_y_magnetismo.py:341-352 | A source followed by its negated drops sums to 0 if and only if the drops add up to the source. |
| FormulasElectricidad.CalcularCampoElectricoCargaPuntual | backend/Formulas/electricidad_y_magnetismo.py:86-104 | Raises if and only if d = 0. Otherwise E d^2 = k abs(q), non-negative for k >= 0. |
| FormulasElectricidad.CalcularFuerzaElectricaCampo | backend/Formulas/electricidad_y_magnetismo.py:106-118 | F/E = q for E != 0, and F = 0 at E = 0. |
| FormulasElectricidad.CalcularFuerzaCoulomb | backend/Formulas/electricidad_y_magnetismo.py:263-282 | Raises if and only if d = 0. Otherwise F d^2 = k q1 q2. |
| FormulasElectricidad.CoulombIsChargeTimesField | backend/Formulas/electricidad_y_magnetismo.py:263-282 | The Coulomb force of a non-negative charge is the test charge times its field. |
| FormulasElectricidad.CalcularPotencialElectricoCargaDistancia | backend/Formulas/electricidad_y_magnetismo.py:417-435 | Raises if and only if d = 0. Otherwise V d = k q. |
| FormulasElectricidad.CalcularPotencialElectricoDistribucion | backend/Formulas/electricidad_y_magnetismo.py:470-490 | Raises if and only if d = 0. Otherwise V d = k times density times extent. |
| FormulasElectricidad.DistributionIsPointCharge | backend/Formulas/electricidad_y_magnetismo.py:470-530 | A distribution is its total charge at a point. |
| FormulasElectricidad.CalcularPotencialElectricoEnergiaCarga | backend/Formulas/electricidad_y_magnetismo.py:437-454 | Raises if and only if q = 0. Otherwise V q = U. |
| FormulasElectricidad.CalcularEnergiaPotencialElectrica | backend/Formulas/electricidad_y_magnetismo.py:456-468 | U/q = V for q != 0, and U = 0 at q = 0. |
| FormulasElectricidad.PotentialFromEnergy | backend/Formulas/electricidad_y_magnetismo.py:437-468 | The potential is recovered from the energy of a test charge. |
| FormulasElectricidad.CalcularCapacitancia | backend/Formulas/electricidad_y_magnetismo.py:141-158 | Raises if and only if V = 0. Otherwise C V = Q. |
| FormulasElectricidad.CalcularCargaCapacitor | backend/Formulas/electricidad_y_magnetismo.py:160-172 | Q/V = C for V != 0, and Q = 0 at V = 0. |
| FormulasElectricidad.CalcularVoltajeCapacitor | backend/Formulas/electricidad_y_magnetismo.py:174-191 | Raises if and only if C = 0. Otherwise V C = Q. |
| FormulasElectricidad.CapacitorRoundTrips | backend/Formulas/electricidad_y_magnetismo.py:141-191 | Charging and reading back gives V and C unchanged. |
| FormulasElectricidad.CalcularEnergiaCapacitor | backend/Formulas/electricidad_y_magnetismo.py:193-205 | Non-negative for C >= 0. |
| FormulasElectricidad.CapacitorEnergyIsHalfQV | backend/Formulas/electricidad_y_magnetismo.py:160-205 | The energy is Q V/2. |
| FormulasElectricidad.CalcularInductancia | backend/Formulas/electricidad_y_magnetismo.py:229-247 | Raises if and only if I = 0. Otherwise L I = N Phi. |
| FormulasElectricidad.CalcularEnergiaInductor | backend/Formulas/electricidad_y_magnetismo.py:249-261 | Non-negative for L >= 0. |
| FormulasElectricidad.InductorEnergyIsHalfFluxTimesCurrent | backend/Formulas/electricidad_y_magnetismo.py:229-261 | The energy is N Phi I/2. |
| FormulasElectricidad.CalcularCampoMagnetico | backend/Formulas/electricidad_y_magnetismo.py:380-398 | Raises if and only if d = 0. Otherwise B 2 pi d = mu0 I. |
| FormulasElectricidad.DefaultWireField | backend/Formulas/electricidad_y_magnetismo.py:380-398 | With the default permeability, B = 2e-7 I/d. |
| FormulasElectricidad.CalcularCampoMagneticoSolenoide | backend/Formulas/electricidad_y_magnetismo.py:120-139 | Raises if and only if L = 0. Otherwise B L = mu0 N I. |
| FormulasElectricidad.CalcularFuerzaEntreConductores | backend/Formulas/electricidad_y_magnetismo.py:207-227 | Raises if and only if d = 0. Otherwise F 2 pi d = mu0 I1 I2 L. |
| FormulasElectricidad.ConductorForceIsCurrentTimesField | backend/Formulas/electricidad_y_magnetismo.py:207-227 | The force is the second current times the length times the first wire's field. |
| FormulasElectricidad.CalcularLeyFaraday | backend/Formulas/electricidad_y_magnetismo.py:548-566 | Raises if and only if dt = 0. Otherwise emf dt = -N dPhi. |
| FormulasElectricidad.LenzSign | backend/Formulas/electricidad_y_magnetismo.py:548-566 | A growing flux induces a negative emf (Lenz's law). |
| FormulasElectricidad.CalcularEnergiaElectrica | backend/Formulas/electricidad_y_magnetismo.py:582-594 | 1000 E = P t (kilowatt-hours). |
| FormulasElectricidad.CalcularEficienciaElectrica | backend/Formulas/electricidad_y_magnetismo.py:610-624 | Raises if and only if P_in = 0. Otherwise eta P_in = P_out. |
| FormulasElectricidad.EfficiencyBounded | backend/Formulas/electricidad_y_magnetismo.py:610-624 | 0 <= eta <= 1 when 0 <= P_out <= P_in. |
| LeyOhm.Presentes | backend/simulations/electricidad_y_magnetismo/ley_ohm.py:16 | The count is 3 exactly when all three are given, and 0 exactly when none is. |
| LeyOhm.CalcularLeyOhm | backend/simulations/electricidad_y_magnetismo/ley_ohm.py:1-33 | Raises unless exactly two values are given. The missing one is I R, V/R or V/I, each division refused at 0, and the state holds all three. |
| LeyOhm.OhmRoundTrip | backend/simulations/electricidad_y_magnetismo/ley_ohm.py:1-33 | From the computed V, solving again gives back I and R. |
| LeyOhm.SimularLeyOhm | backend/simulations/electricidad_y_magnetismo/ley_ohm.py:35-51 | Always answers: success with the calculation, or failure with its message. |
| LeyOhm.CalcularPotenciaOhm | backend/simulations/electricidad_y_magnetismo/ley_ohm.py:53-82 | The formula library's power precedence and values, with this file's messages. |
| LeyOhm.SimularPotenciaOhm | backend/simulations/electricidad_y_magnetismo/ley_ohm.py:84-100 | Always answers. |
| LeyOhm.PowerOfComputedVoltage | backend/simulations/electricidad_y_magnetismo/ley_ohm.py:53-82 | The power from V and I with the computed V is I^2 R. |
| CalculosCircuitos.CalcularCircuitoSerie | backend/simulations/electricidad_y_magnetismo/calculos_circuitos.py:1-13 | The total is the series sum, and the state echoes the list. |
| CalculosCircuitos.SimularCircuitoSerie | backend/simulations/electricidad_y_magnetismo/calculos_circuitos.py:15-31 | Always a success. |
| CalculosCircuitos.CalcularCircuitoParalelo | backend/simulations/electricidad_y_magnetismo/calculos_circuitos.py:35-57 | An empty list gives 0. A zero element raises `ValueError`. Otherwise the total is 1 over the sum of reciprocals, or a division by zero when that sum is 0. |
| CalculosCircuitos.SimularCircuitoParalelo | backend/simulations/electricidad_y_magnetismo/calculos_circuitos.py:59-75 | A zero resistance is a failure response. A division by zero escapes the wrapper. |
| CalculosCircuitos.CalcularCorrienteTotal | backend/simulations/electricidad_y_magnetismo/calculos_circuitos.py:77-95 | Raises if and only if R = 0. Otherwise I R = V. |
| CalculosCircuitos.SimularCorrienteTotal | backend/simulations/electricidad_y_magnetismo/calculos_circuitos.py:97-113 | Success if and only if R != 0. |
| CalculosCircuitos.CalcularVoltajeEnResistencia | backend/simulations/electricidad_y_magnetismo/calculos_circuitos.py:115-128 | The library's V = I R, with its state. |
| CalculosCircuitos.SimularVoltajeEnResistencia | backend/simulations/electricidad_y_magnetismo/calculos_circuitos.py:130-146 | Always a success. |
| CalculosCircuitos.CalcularPotenciaEnResistencia | backend/simulations/electricidad_y_magnetismo/calculos_circuitos.py:148-161 | The library's P = V I, with its state. |
| CalculosCircuitos.SimularPotenciaEnResistencia | backend/simulations/electricidad_y_magnetismo/calculos_circuitos.py:163-179 | Always a success. |
| CalculosCircuitos.ResistorPowerIsJouleHeat | backend/simulations/electricidad_y_magnetismo/calculos_circuitos.py:148-161 | The power at the computed voltage is I^2 R. |
| CalculosCircuitos.CalcularResistenciaEquivalenteSerie | backend/simulations/electricidad_y_magnetismo/calculos_circuitos.py:181-193 | The same total as the series circuit. |
| CalculosCircuitos.SimularResistenciaEquivalenteSerie | backend/simulations/electricidad_y_magnetismo/calculos_circuitos.py:195-211 | Always a success. |
| CalculosCircuitos.CalcularVoltajeParalelo | backend/Ecuaciones/electricidad_y_magnetismo/calculos_circuitos.py:59-72 | V = I R_eq. |
| CalculosCircuitos.ParallelVoltageRoundTrip | backend/Ecuaciones/electricidad_y_magnetismo/calculos_circuitos.py:59-72 | The total current is recovered from the parallel voltage. |
| CalculosCircuitos.CalcularCorrienteParalelo | backend/Ecuaciones/electricidad_y_magnetismo/calculos_circuitos.py:74-92 | Raises if and only if R = 0. Otherwise I R = V. |
| CalculosCircuitos.CorrientesRama | backend/Ecuaciones/electricidad_y_magnetismo/calculos_circuitos.py:74-92 | One branch current per resistor. |
| CalculosCircuitos.BranchCurrentsAddUp | backend/Ecuaciones/electricidad_y_magnetismo/calculos_circuitos.py:74-92 | The branch currents add up to the total current through the equivalent resistance. |
| CalculosCircuitos.BranchCurrentsAreScaledReciprocals | backend/Ecuaciones/electricidad_y_magnetismo/calculos_circuitos.py:74-92 | Each branch current is V times the reciprocal resistance. |
| LeyesKirchhoff.CalcularLeyKirchhoffVoltaje | backend/simulations/electricidad_y_magnetismo/leyes_kirchhoff.py:1-13 | The loop sum, with a state echoing the voltages. |
| LeyesKirchhoff.SimularLeyKirchhoffVoltaje | backend/simulations/electricidad_y_magnetismo/leyes_kirchhoff.py:15-31 | Always a success. |
| LeyesKirchhoff.CalcularLeyKirchhoffTension | backend/simulations/electricidad_y_magnetismo/leyes_kirchhoff.py:33-45 | The node sum, with a state echoing the currents. |
| LeyesKirchhoff.SimularLeyKirchhoffTension | backend/simulations/electricidad_y_magnetismo/leyes_kirchhoff.py:47-63 | Always a success. |
| LeyesKirchhoff.CalcularLeyKirchhoffCorriente | backend/simulations/electricidad_y_magnetismo/leyes_kirchhoff.py:65-77 | The outgoing current is the sum of the entering currents. |
| LeyesKirchhoff.SimularLeyKirchhoffCorriente | backend/simulations/electricidad_y_magnetismo/leyes_kirchhoff.py:79-95 | Always a success. |
| LeyesKirchhoff.JunctionBalanced | backend/simulations/electricidad_y_magnetismo/leyes_kirchhoff.py:65-77 | The node sum with the leaving currents negated is 0 if and only if the outgoing current equals their sum. |
| LeyesKirchhoff.LoopSumSplits | backend/simulations/electricidad_y_magnetismo/leyes_kirchhoff.py:1-13 | Splitting a loop splits its sum. |
| Capacitancia.CalcularCapacitancia | backend/simulations/electricidad_y_magnetismo/capacitancia.py:1-19 | The library's capacitance and error, with the state. |
| Capacitancia.SimularCapacitancia | backend/simulations/electricidad_y_magnetismo/capacitancia.py:21-37 | Success if and only if V != 0. |
| Capacitancia.CalcularCargaCapacitor | backend/simulations/electricidad_y_magnetismo/capacitancia.py:39-52 | The library's Q = C V, with the state. |
| Capacitancia.SimularCargaCapacitor | backend/simulations/electricidad_y_magnetismo/capacitancia.py:54-70 | Always a success. |
| Capacitancia.CalcularVoltajeCapacitor | backend/simulations/electricidad_y_magnetismo/capacitancia.py:72-90 | The library's voltage and error, with the state. |
| Capacitancia.SimularVoltajeCapacitor | backend/simulations/electricidad_y_magnetismo/capacitancia.py:92-108 | Success if and only if C != 0. |
| Capacitancia.ChargeRoundTrips | backend/simulations/electricidad_y_magnetismo/capacitancia.py:39-90 | The charge gives back the voltage and the capacitance. |
| Capacitancia.CalcularEnergiaCapacitor | backend/simulations/electricidad_y_magnetismo/capacitancia.py:110-123 | C V^2/2, non-negative for C >= 0. |
| Capacitancia.SimularEnergiaCapacitor | backend/simulations/electricidad_y_magnetismo/capacitancia.py:125-141 | Always a success. |
| Capacitancia.EnergyIsHalfChargeTimesVoltage | backend/simulations/electricidad_y_magnetismo/capacitancia.py:110-123 | The energy is half the computed charge times V. |
| Inductancia.CalcularInductancia | backend/simulations/electricidad_y_magnetismo/inductancia.py:1-20 | The library's inductance and error, with the state. |
| Inductancia.SimularInductancia | backend/simulations/electricidad_y_magnetismo/inductancia.py:22-38 | Success if and only if I != 0. |
| Inductancia.CalcularEnergiaInductor | backend/simulations/electricidad_y_magnetismo/inductancia.py:40-53 | L I^2/2, non-negative for L >= 0. |
| Inductancia.SimularEnergiaInductor | backend/simulations/electricidad_y_magnetismo/inductancia.py:55-71 | Always a success. |
| Inductancia.EnergyOfLinkedFlux | backend/simulations/electricidad_y_magnetismo/inductancia.py:1-53 | The energy at the defining current is N Phi I/2. |
| Magnetismo.CalcularCampoMagnetico | backend/simulations/electricidad_y_magnetismo/magnetismo.py:3-22 | The library's wire field and error, with the state. |
| Magnetismo.DefaultField | backend/simulations/electricidad_y_magnetismo/magnetismo.py:3-22 | The default permeability gives 2e-7 I/d. |
| Magnetismo.SimularCampoMagnetico | backend/simulations/electricidad_y_magnetismo/magnetismo.py:24-40 | Success if and only if d != 0. |
| Magnetismo.CalcularFuerzaLorentz | backend/simulations/electricidad_y_magnetismo/magnetismo.py:42-58 | The state echoes the four inputs. At 90 degrees the force is q v B. |
| Magnetismo.SimularFuerzaLorentz | backend/simulations/electricidad_y_magnetismo/magnetismo.py:60-76 | Always a success. |
| Magnetismo.LorentzBounded | backend/simulations/electricidad_y_magnetismo/magnetismo.py:42-58 | The force never exceeds abs(q v B). |
| Magnetismo.CalcularFlujoMagnetico | backend/simulations/electricidad_y_magnetismo/magnetismo.py:78-93 | The state echoes the inputs. At 0 degrees the flux is B A. |
| Magnetismo.SimularFlujoMagnetico | backend/simulations/electricidad_y_magnetismo/magnetismo.py:95-111 | Always a success. |
| Magnetismo.FluxBounded | backend/simulations/electricidad_y_magnetismo/magnetismo.py:78-93 | The flux never exceeds abs(B A). |
| Magnetismo.CalcularLeyFaraday | backend/simulations/electricidad_y_magnetismo/magnetismo.py:113-132 | The library's emf and error, with the state. |
| Magnetismo.SimularLeyFaraday | backend/simulations/electricidad_y_magnetismo/magnetismo.py:134-150 | Success if and only if dt != 0. |
| Magnetismo.SlowerChangeHalvesFem | backend/simulations/electricidad_y_magnetismo/magnetismo.py:113-132 | Twice the time for the same flux change gives half the emf. |
| PotenciaElectrica.CalcularPotenciaElectrica | backend/simulations/electricidad_y_magnetismo/potencia_electrica.py:1-14 | The library's P = V I, with the state. |
| PotenciaElectrica.SimularPotenciaElectrica | backend/simulations/electricidad_y_magnetismo/potencia_electrica.py:16-32 | Always a success. |
| PotenciaElectrica.CalcularEnergiaElectrica | backend/simulations/electricidad_y_magnetismo/potencia_electrica.py:34-47 | 1000 E = P t. |
| PotenciaElectrica.SimularEnergiaElectrica | backend/simulations/electricidad_y_magnetismo/potencia_electrica.py:49-65 | Always a success. |
| PotenciaElectrica.EnergyOfConsecutivePeriods | backend/simulations/electricidad_y_magnetismo/potencia_electrica.py:34-47 | Energies of consecutive periods add. |
| PotenciaElectrica.CalcularVoltajeCaida | backend/simulations/electricidad_y_magnetismo/potencia_electrica.py:67-80 | The drop is I R. |
| PotenciaElectrica.SimularVoltajeCaida | backend/simulations/electricidad_y_magnetismo/potencia_electrica.py:82-98 | Always a success. |
| PotenciaElectrica.PowerAtVoltageDrop | backend/simulations/electricidad_y_magnetismo/potencia_electrica.py:1-80 | The power at the drop is the Joule heat I^2 R. |
| PotenciaElectrica.CalcularEficienciaElectrica | backend/simulations/electricidad_y_magnetismo/potencia_electrica.py:100-115 | The library's ratio and error, with the state. |
| PotenciaElectrica.SimularEficienciaElectrica | backend/simulations/electricidad_y_magnetismo/potencia_electrica.py:117-133 | Success if and only if P_in != 0. |
| PotenciaElectrica.CalcularEficienciaElectricaPorcentaje | backend/Ecuaciones/electricidad_y_magnetismo/potencia_electrica.py:46-64 | The same error, and 100 times the ratio. |
| PotenciaElectrica.PercentageBounded | backend/Ecuaciones/electricidad_y_magnetismo/potencia_electrica.py:46-64 | Between 0 and 100 percent when 0 <= P_out <= P_in. |
| Resistencia.CalcularResistencia | backend/simulations/electricidad_y_magnetismo/resistencia.py:1-16 | Raises if and only if I = 0. Otherwise R I = V, the library's value, with the state. |
| Resistencia.SimularResistencia | backend/simulations/electricidad_y_magnetismo/resistencia.py:18-34 | Success if and only if I != 0. |
| Resistencia.ResistanceOfMeasuredVoltage | backend/Ecuaciones/electricidad_y_magnetismo/resistencia.py:1-16 | The voltage measured at a non-zero current gives back the resistance. |
| FormulasOndas.CalcularFrecuenciaObservadaDoppler | backend/Formulas/ondas.py:3-42 | As written: it raises for a zero wave speed, then for an unknown observer word, then for an unknown source word. A zero denominator divides by zero. Otherwise f (v + vo')/(v + vs') with the written signs. |
| FormulasOndas.DopplerAtRest | backend/Formulas/ondas.py:41-42 | Observer and source at rest hear the source frequency. |
| FormulasOndas.ApproachingSourceRaisesPitch | backend/Formulas/ondas.py:33-42 | An approaching source slower than the wave raises the pitch. A receding one lowers it. |
| FormulasOndas.AsWrittenApproachingObserverLowersPitch | backend/Formulas/ondas.py:27-28 | As written, an approaching observer hears a lower pitch and a receding one a higher pitch. |
| FormulasOndas.CalcularFrecuenciaObservadaDopplerCorregida | backend/Formulas/ondas.py:3-42 | The same validation, messages and source branch with the observer's sign corrected: f (v + vo)/(v - vs). A zero denominator raises ZeroDivisionError. |
| FormulasOndas.ObserverPitchFollowsMotion | backend/Formulas/ondas.py:27-42 | Corrected: an approaching observer hears a higher pitch and a receding one a lower pitch. |
| FormulasOndas.CorrectionAgreesForStillObserver | backend/Formulas/ondas.py:27-42 | The correction changes nothing for an observer at rest. |
| FormulasOndas.CalcularIntensidadSonido | backend/Formulas/ondas.py:44-61 | Raises if and only if d = 0. Otherwise I 4 pi d^2 = P, non-negative for P >= 0. |
| FormulasOndas.IntensityInverseSquare | backend/Formulas/ondas.py:44-61 | Twice the distance gives a quarter of the intensity. |
| FormulasOndas.CalcularLongitudOnda | backend/Formulas/ondas.py:82-99 | Raises if and only if f = 0. Otherwise lambda f = v. |
| FormulasOndas.CalcularFrecuenciaOnda | backend/Formulas/ondas.py:101-118 | Raises if and only if lambda = 0. Otherwise f lambda = v. |
| FormulasOndas.CalcularVelocidadOnda | backend/Formulas/ondas.py:120-132 | v/f = lambda and v/lambda = f where the divisor is not 0. v = 0 when either one is 0. |
| FormulasOndas.WaveRelationsRoundTrip | backend/Formulas/ondas.py:82-132 | The speed gives back the wavelength and the frequency. |
| FormulasOndas.CalcularVelocidadOndaMedio | backend/Formulas/ondas.py:162-179 | Raises if and only if n = 0. Otherwise v n = c. |
| FormulasOndas.DenserMediumIsSlower | backend/Formulas/ondas.py:162-179 | An index above 1 slows a positive speed. |
| Ondas.CalcularLongitudOnda | backend/simulations/ondas/ondas.py:1-19 | The library's wavelength and error, with the state. |
| Ondas.SimularLongitudOnda | backend/simulations/ondas/ondas.py:21-37 | Success if and only if f != 0. |
| Ondas.CalcularFrecuenciaOnda | backend/simulations/ondas/ondas.py:39-57 | The library's frequency and error, with the state. |
| Ondas.SimularFrecuenciaOnda | backend/simulations/ondas/ondas.py:59-75 | Success if and only if lambda != 0. |
| Ondas.CalcularVelocidadOnda | backend/simulations/ondas/ondas.py:77-90 | The library's v = lambda f, with the state. |
| Ondas.SimularVelocidadOnda | backend/simulations/ondas/ondas.py:92-108 | Always a success. |
| Ondas.SpeedRoundTrips | backend/simulations/ondas/ondas.py:39-90 | The speed gives back the frequency and the wavelength. |

## Left out

- The HTTP layer is not modelled: `backend/main.py`, `backend/schemas.py`, `backend/routes/home.py`, the frontend and the test scripts. It is request parsing and JSON glue.
- The samplers of harmonic, circular and pendulum motion (`simulations/cinematica/movimiento_armonico_simple.py`, `movimiento_circular_uniforme.py`, `pendulo.py`, and their `Ecuaciones/` and `simulaciones/` twins) are not modelled. They tabulate the library formulas, which are modelled.
- The energy and collision wrappers of `simulations/energia/` and `simulations/colisiones/` (other than the perfectly inelastic 1D file) are not modelled. They only forward to the library formulas, which are modelled.
- `calcular_nivel_intensidad_sonido` (`Formulas/ondas.py:63-80`) is left out because it needs `log10`. The refraction formula (`Formulas/ondas.py:134-160`) is left out because it needs `asin`.
- `calcular_posicion_lineal_mcu` (`Formulas/cinematica.py:246-262`) and `calcular_velocidad_en_tiempo` (`Formulas/cinematica.py:396-406`) are left out. They only compose modelled formulas with `cos`/`sin` and `arctan2`.
- Floating-point rounding is not modelled: every float operation is exact on reals. `np.isclose` is taken as exact equality. numpy's inf and nan appear only as the `NonFinite` outcome.
- The text of a `ZeroDivisionError` is not modelled; only its kind is.
- Two files import names that do not exist: `Ecuaciones/cinematica/tiro_parabolico.py:2` and `Ecuaciones/cinematica/mruv.py:2`. As written they fail at import. The model gives them the helpers they evidently mean, those of `ecuaciones_cinematicas.py`.
- Duplicate definitions are modelled once:
  - `calcular_resistencia_equivalente_serie` (`Formulas/electricidad_y_magnetismo.py:74-84`) is `FormulasElectricidad.CalcularResistenciaTotalSerie`.
  - The Kirchhoff current and "tension" sums (`Formulas/electricidad_y_magnetismo.py:354-378`) are `FormulasElectricidad.CalcularLeyKirchhoffVoltaje`.
  - `calcular_potencial_electrico_carga_puntual` (626-644) is `FormulasElectricidad.CalcularPotencialElectricoCargaDistancia`.
  - The line, surface and volume distributions (470-530) are `FormulasElectricidad.CalcularPotencialElectricoDistribucion`.
  - `calcular_voltaje_caida` (596-608) is `FormulasElectricidad.CalcularVoltajeResistor`.
  - The second `calcular_energia_potencial_electrica` (646-658) is `FormulasElectricidad.CalcularEnergiaPotencialElectrica`.
- The `Ecuaciones/electricidad_y_magnetismo/` copies of capacitance, inductance, Kirchhoff and resistance, and `Ecuaciones/ondas/ondas.py`, compute the same values and states as the `simulations/` copies. They are modelled by the same members. The `Ecuaciones/` copy of `calculos_circuitos.py` shares the series, parallel and total-current members.
- The helpers of `Formulas/cinematica.py:39-81` and `117-133` duplicate `ecuaciones_cinematicas.py` and are modelled by the `EcuacionesCinematicas` members.
- The source's default arguments are explicit parameters or named constants in the model: the Coulomb constant k = 8.9875e9, the permeability `permeabilidad_vacio` = 4 pi 10^-7, `numero_espiras` = 1, `angulo_inicial` = 0.0 and `num_puntos` = 100 (1000 in backend/Ecuaciones/cinematica/mru.py). A caller that leaves an argument out is modelled by passing that value.
- `numero_espiras` is taken as a real number; the source's integer type plays no role in the formulas.
- `calcular_fuerza_lorentz` and `calcular_flujo_magnetico` of backend/Formulas/electricidad_y_magnetismo.py:400-415 and :532-546 have no member of their own under `FormulasElectricidad`: they compute the same expressions, q v B sin(theta) and B A cos(theta), as the simulation copies, so `Magnetismo.CalcularFuerzaLorentz` and `Magnetismo.CalcularFlujoMagnetico` with `Magnetismo.LorentzBounded` and `Magnetismo.FluxBounded` stand in for them.
- Magnetismo.CalcularFuerzaLorentz, Magnetismo.CalcularFlujoMagnetico: `sin` and `cos` are parameters, so their own contracts fix the value only at 90 and 0 degrees. The general bound is proved by `Magnetismo.LorentzBounded` and `Magnetismo.FluxBounded`.
- FormulasCinematica.CalcularVelocidadMas, FormulasCinematica.CalcularAceleracionMas: their own contracts state only the error cases. Their values are tied to the position by `MasEnergyConserved` and `MasAccelerationOpposesPosition`.
- FormulasCinematica.CalcularVelocidadAngularPendulo, FormulasCinematica.CalcularAceleracionAngularPendulo: their own contracts state only the error case. Their values are tied to the angle by `PenduloEnergyConserved` and `PenduloAccelerationOpposesAngle`.
- EcuacionesTiroParabolico.TiempoTotalSimulacion: a negative discriminant with a non-rising launch takes a square root of a negative number in the source (nan, then the fallback 1). The model gives 1 directly. With a non-negative discriminant the second fallback runs only when the larger root is not positive, so neither root is and it yields 1; the model keeps that fallback as the source writes it. For a launch at or above the ground (h0 >= 0) the earlier root is never positive (`EcuacionesTiroParabolico.EarlierRootNotAfterLaunch`); below the ground both roots can be positive, and the larger, later one is chosen.
- FormulasColisiones.UnitNormal2, FormulasColisiones.UnitNormal3: the source's `np.isclose(norm, 1)` shortcut is taken as exact `norm == 1`, and its `np.isclose(norm, 0)` guard as `norm == 0`.

## Findings

| source | as written | input that shows it | evidently intended | confidence | as-written member | corrected member |
|---|---|---|---|---|---|---|
| backend/Ecuaciones/cinematica/ecuaciones_cinematicas.py:71 | the second root of the two-root branch calls `math.cuadratica.sqrt`, which raises `AttributeError` | x0 = 0, v0 = 0, a = 2, xf = 1 | the time 1, the only non-negative root | not executed | EcuacionesCinematicas.CalcularTiempoPosicionVelocidadAceleracion | FormulasCinematica.CalcularTiempoPosicionVelocidadAceleracion |
| backend/Formulas/ondas.py:27-28 | an observer 'acercandose' has its speed negated, so approaching lowers the pitch | f = 100, v = 340, vo = 10 approaching, vs = 0 receding: 100 * 330 / 340 < 100 | an approaching observer hears a higher pitch, f (v + vo) / (v - vs) | not executed | FormulasOndas.CalcularFrecuenciaObservadaDoppler | FormulasOndas.CalcularFrecuenciaObservadaDopplerCorregida |

In the first row, `FormulasCinematica.AsWrittenSolverFailsToReachOne` exhibits the failure and `FormulasCinematica.TimeSolverFindsEveryTime` proves the corrected solver complete. In the second row, `FormulasOndas.AsWrittenApproachingObserverLowersPitch` exhibits the reversed pitch and `FormulasOndas.ObserverPitchFollowsMotion` proves the corrected direction.
