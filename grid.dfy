/** The sampling grid every simulation draws: numpy.linspace(0, stop, n), the
  * clamps the samplers apply to the requested point count, and the rows of
  * numbers their animations are made of. */
module Grid {
  import opened Py

  /** The i-th of the n values of numpy.linspace(0, stop, n). With one point
    * numpy returns the start alone. */
  function GridTime(stop: real, n: nat, i: nat): real
  {
    if n <= 1 then 0.0 else (i as real) * stop / ((n - 1) as real)
  }

  function Linspace(stop: real, n: int): (r: Result<seq<real>>)
    ensures r.Err? <==> n < 0
    ensures r.Ok? ==> |r.value| == n
    ensures r.Ok? ==> forall i :: 0 <= i < |r.value| ==> r.value[i] == GridTime(stop, n, i)
  {
    if n < 0 then
      Err(ValueError("Number of samples, " + IntToString(n) + ", must be non-negative."))
    else
      Ok(seq(n, i requires 0 <= i < n => GridTime(stop, n, i)))
  }

  /** numpy.linspace(0, stop, n) starts at 0, ends at stop when it has two
    * points or more, and steps evenly by stop / (n - 1). */
  lemma LinspaceShape(stop: real, n: nat)
    ensures var g := Linspace(stop, n).value;
      (n >= 1 ==> g[0] == 0.0)
      && (n >= 2 ==> g[n - 1] == stop)
      && (n >= 2 ==> forall i :: 0 <= i < n - 1 ==> g[i + 1] - g[i] == stop / ((n - 1) as real))
  {
    var g := Linspace(stop, n).value;
    if n >= 2 {
      var d := (n - 1) as real;
      assert g[n - 1] == d * stop / d;
      forall i | 0 <= i < n - 1
        ensures g[i + 1] - g[i] == stop / d
      {
        GridStep(stop, n, i);
      }
    }
  }

  lemma GridStep(stop: real, n: nat, i: nat)
    requires n >= 2
    ensures GridTime(stop, n, i + 1) - GridTime(stop, n, i) == stop / ((n - 1) as real)
  {
    var d := (n - 1) as real;
    calc {
      GridTime(stop, n, i + 1) - GridTime(stop, n, i);
      ((i + 1) as real) * stop / d - (i as real) * stop / d;
      (((i + 1) as real) * stop - (i as real) * stop) / d;
      { assert ((i + 1) as real) * stop - (i as real) * stop == stop; }
      stop / d;
    }
  }

  /** With a non-negative stop the grid runs upward from 0 and stays within
    * [0, stop]. */
  lemma GridBounds(stop: real, n: nat, i: nat)
    requires 0.0 <= stop
    requires i < n
    ensures 0.0 <= GridTime(stop, n, i) <= stop
  {
    if n > 1 {
      var d := (n - 1) as real;
      assert (i as real) <= d;
      calc {
        (i as real) * stop / d;
      <= { assert (i as real) * stop <= d * stop; }
        d * stop / d;
        stop;
      }
    }
  }

  lemma GridMonotone(stop: real, n: nat, i: nat, j: nat)
    requires 0.0 <= stop
    requires i <= j
    ensures GridTime(stop, n, i) <= GridTime(stop, n, j)
  {
    if n > 1 {
      var d := (n - 1) as real;
      assert (i as real) * stop <= (j as real) * stop;
    }
  }

  /** The point-count clamp of the simulation samplers: at least two points
    * when the duration is positive, at least one otherwise. */
  function ClampPoints(n: int, duration: real): (m: int)
    ensures m >= 1
    ensures duration > 0.0 ==> m >= 2
    ensures n >= 2 ==> m == n
    ensures n <= 1 && duration > 0.0 ==> m == 2
    ensures n <= 1 && duration <= 0.0 ==> m == 1
  {
    if n <= 1 && duration > 0.0 then 2 else if n < 1 then 1 else n
  }

  /** The clamp of the equation-module uniform-motion sampler: twenty points
    * when the duration is positive and at most one was asked for, ten when at
    * most zero were asked for otherwise; a request of one point with no
    * duration is kept. */
  function ClampPointsWide(n: int, duration: real): (m: int)
    ensures m >= 1
    ensures n >= 2 ==> m == n
    ensures n <= 1 && duration > 0.0 ==> m == 20
    ensures n < 1 && duration <= 0.0 ==> m == 10
    ensures n == 1 && duration <= 0.0 ==> m == 1
  {
    if n <= 1 && duration > 0.0 then 20 else if n < 1 then 10 else n
  }

  /** The rows numpy.array([a, b]).T.tolist() builds. */
  function Rows2(a: seq<real>, b: seq<real>): (rows: seq<seq<real>>)
    requires |a| == |b|
    ensures |rows| == |a| && forall i :: 0 <= i < |a| ==> rows[i] == [a[i], b[i]]
  {
    seq(|a|, i requires 0 <= i < |a| => [a[i], b[i]])
  }

  /** The rows numpy.array([a, b, c]).T.tolist() builds. */
  function Rows3(a: seq<real>, b: seq<real>, c: seq<real>): (rows: seq<seq<real>>)
    requires |a| == |b| == |c|
    ensures |rows| == |a| && forall i :: 0 <= i < |a| ==> rows[i] == [a[i], b[i], c[i]]
  {
    seq(|a|, i requires 0 <= i < |a| => [a[i], b[i], c[i]])
  }

  /** The append loop the samplers use to build their animation rows: one
    * [a[i], b[i], c[i]] row per index, in order. */
  method AppendRows3(a: seq<real>, b: seq<real>, c: seq<real>) returns (rows: seq<seq<real>>)
    requires |a| == |b| == |c|
    ensures rows == Rows3(a, b, c)
  {
    rows := [];
    for i := 0 to |a|
      invariant |rows| == i
      invariant forall j :: 0 <= j < i ==> rows[j] == [a[j], b[j], c[j]]
    {
      rows := rows + [[a[i], b[i], c[i]]];
    }
  }
}
