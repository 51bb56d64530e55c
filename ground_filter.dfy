/** The ground filter shared by the free-fall and projectile samplers: walk a
  * sampled trajectory, keep every sample at or above the ground, and at the
  * first sample below it append an analytic impact sample (when the guards
  * allow) and stop. */
module GroundFilter {

  /** One sample of a trajectory: its time, the height the filter looks at,
    * and the value that travels with them (a velocity or a horizontal
    * position). */
  datatype Sample = Sample(t: real, y: real, w: real)

  /** Three equally long lists read side by side, as `zip` does. */
  function Zip3(ts: seq<real>, ys: seq<real>, ws: seq<real>): (s: seq<Sample>)
    requires |ts| == |ys| == |ws|
    ensures |s| == |ts|
    ensures forall i :: 0 <= i < |s| ==> s[i] == Sample(ts[i], ys[i], ws[i])
  {
    seq(|ts|, i requires 0 <= i < |ts| => Sample(ts[i], ys[i], ws[i]))
  }

  function Times(s: seq<Sample>): (r: seq<real>)
    ensures |r| == |s| && forall i :: 0 <= i < |s| ==> r[i] == s[i].t
  {
    seq(|s|, i requires 0 <= i < |s| => s[i].t)
  }

  function Heights(s: seq<Sample>): (r: seq<real>)
    ensures |r| == |s| && forall i :: 0 <= i < |s| ==> r[i] == s[i].y
  {
    seq(|s|, i requires 0 <= i < |s| => s[i].y)
  }

  function Companions(s: seq<Sample>): (r: seq<real>)
    ensures |r| == |s| && forall i :: 0 <= i < |s| ==> r[i] == s[i].w
  {
    seq(|s|, i requires 0 <= i < |s| => s[i].w)
  }

  /** The index of the first sample below the ground, or the length when
    * there is none. */
  function FirstBelowGround(grid: seq<Sample>): (k: nat)
    ensures k <= |grid|
    ensures forall i :: 0 <= i < k ==> grid[i].y >= 0.0
    ensures k < |grid| ==> grid[k].y < 0.0
  {
    if grid == [] then 0
    else if grid[0].y < 0.0 then 0
    else 1 + FirstBelowGround(grid[1..])
  }

  /** The guards on the impact sample: nothing kept yet or the last kept
    * height still above the ground, and the impact later than the last kept
    * time (0 when nothing was kept). */
  predicate AddsImpact(kept: seq<Sample>, impact: Sample)
  {
    (kept == [] || kept[|kept| - 1].y > 0.0)
    && impact.t > (if kept == [] then 0.0 else kept[|kept| - 1].t)
  }

  /** What the filter keeps of `grid`. */
  function Truncated(grid: seq<Sample>, impact: Sample): seq<Sample>
  {
    var k := FirstBelowGround(grid);
    if k < |grid| && AddsImpact(grid[..k], impact) then grid[..k] + [impact] else grid[..k]
  }

  /** The filter loop over three parallel lists, appending to three result
    * lists and leaving at the first sample below the ground. */
  method FilterAboveGround(ts: seq<real>, ys: seq<real>, ws: seq<real>, impact: Sample)
    returns (kt: seq<real>, ky: seq<real>, kw: seq<real>)
    requires |ts| == |ys| == |ws|
    ensures |kt| == |ky| == |kw|
    ensures Zip3(kt, ky, kw) == Truncated(Zip3(ts, ys, ws), impact)
  {
    ghost var grid := Zip3(ts, ys, ws);
    kt, ky, kw := [], [], [];
    var i := 0;
    while i < |ts|
      invariant 0 <= i <= |ts|
      invariant forall j :: 0 <= j < i ==> ys[j] >= 0.0
      invariant kt == ts[..i] && ky == ys[..i] && kw == ws[..i]
    {
      if ys[i] >= 0.0 {
        kt, ky, kw := kt + [ts[i]], ky + [ys[i]], kw + [ws[i]];
        i := i + 1;
      } else {
        FirstBelowGroundAt(grid, i);
        ZipPrefix(ts, ys, ws, i);
        if ky == [] || ky[|ky| - 1] > 0.0 {
          if impact.t > (if kt == [] then 0.0 else kt[|kt| - 1]) {
            ZipSnoc(kt, ky, kw, impact);
            kt, ky, kw := kt + [impact.t], ky + [impact.y], kw + [impact.w];
          }
        }
        return;
      }
    }
    FirstBelowGroundAt(grid, |ts|);
    ZipPrefix(ts, ys, ws, |ts|);
  }

  /** The first sample below the ground is the one at i when all before it
    * are at or above the ground. */
  lemma FirstBelowGroundAt(grid: seq<Sample>, i: nat)
    requires i <= |grid|
    requires forall j :: 0 <= j < i ==> grid[j].y >= 0.0
    requires i < |grid| ==> grid[i].y < 0.0
    ensures FirstBelowGround(grid) == i
  {
  }

  lemma ZipPrefix(ts: seq<real>, ys: seq<real>, ws: seq<real>, i: nat)
    requires |ts| == |ys| == |ws| && i <= |ts|
    ensures Zip3(ts[..i], ys[..i], ws[..i]) == Zip3(ts, ys, ws)[..i]
  {
  }

  lemma ZipSnoc(ts: seq<real>, ys: seq<real>, ws: seq<real>, s: Sample)
    requires |ts| == |ys| == |ws|
    ensures Zip3(ts + [s.t], ys + [s.y], ws + [s.w]) == Zip3(ts, ys, ws) + [s]
  {
  }

  /** The kept samples before any impact sample are the grid up to its first
    * sample below the ground, and at most the impact follows them. */
  lemma TruncatedIsGridPrefix(grid: seq<Sample>, impact: Sample)
    ensures var k := FirstBelowGround(grid);
      var r := Truncated(grid, impact);
      r[..k] == grid[..k] && (|r| == k || (|r| == k + 1 && k < |grid| && r[k] == impact))
  {
  }

  /** With an impact sample on or above the ground, nothing kept is below it. */
  lemma TruncatedAboveGround(grid: seq<Sample>, impact: Sample)
    requires impact.y >= 0.0
    ensures forall i :: 0 <= i < |Truncated(grid, impact)| ==> Truncated(grid, impact)[i].y >= 0.0
  {
  }

  /** A grid that never goes below the ground is kept whole. */
  lemma AboveGroundKeptWhole(grid: seq<Sample>, impact: Sample)
    requires forall i :: 0 <= i < |grid| ==> grid[i].y >= 0.0
    ensures Truncated(grid, impact) == grid
  {
    assert FirstBelowGround(grid) == |grid|;
    assert grid[..|grid|] == grid;
  }

  /** Filtering twice keeps what filtering once kept. */
  lemma TruncatedIdempotent(grid: seq<Sample>, impact: Sample)
    requires impact.y >= 0.0
    ensures Truncated(Truncated(grid, impact), impact) == Truncated(grid, impact)
  {
    TruncatedAboveGround(grid, impact);
    AboveGroundKeptWhole(Truncated(grid, impact), impact);
  }

  predicate NonDecreasingTimes(s: seq<Sample>)
  {
    forall i, j :: 0 <= i <= j < |s| ==> s[i].t <= s[j].t
  }

  /** Times that run forward on the grid run forward in what is kept: the
    * impact is appended only after the last kept time. */
  lemma TruncatedTimesNonDecreasing(grid: seq<Sample>, impact: Sample)
    requires NonDecreasingTimes(grid)
    ensures NonDecreasingTimes(Truncated(grid, impact))
  {
    var k := FirstBelowGround(grid);
    var r := Truncated(grid, impact);
    if |r| == k + 1 && k < |grid| && AddsImpact(grid[..k], impact) {
      forall i, j | 0 <= i <= j < |r|
        ensures r[i].t <= r[j].t
      {
        if j == k && i < k {
          assert r[i].t <= r[k - 1].t;
        }
      }
    }
  }

  /** The three projections of a zip give back the three lists. */
  lemma ProjectionsOfZip(ts: seq<real>, ys: seq<real>, ws: seq<real>)
    requires |ts| == |ys| == |ws|
    ensures Times(Zip3(ts, ys, ws)) == ts
    ensures Heights(Zip3(ts, ys, ws)) == ys
    ensures Companions(Zip3(ts, ys, ws)) == ws
  {
  }

  /** Whatever holds of every grid sample and of the impact sample holds of
    * everything the filter keeps. */
  lemma TruncatedKeeps(grid: seq<Sample>, impact: Sample, p: Sample -> bool)
    requires forall i :: 0 <= i < |grid| ==> p(grid[i])
    requires p(impact)
    ensures forall i :: 0 <= i < |Truncated(grid, impact)| ==> p(Truncated(grid, impact)[i])
  {
    TruncatedIsGridPrefix(grid, impact);
  }

  /** A grid that starts above the ground and ends below it, whose samples at
    * or above the ground are all either strictly above it and before the
    * impact or the impact itself, is cut to a series of two samples or more
    * that ends at the impact. */
  lemma TruncatedEndsAtImpact(grid: seq<Sample>, impact: Sample)
    requires |grid| >= 1 && grid[0].y > 0.0 && grid[|grid| - 1].y < 0.0
    requires impact.y == 0.0
    requires forall i :: 0 <= i < |grid| && grid[i].y >= 0.0 ==>
      (grid[i].y > 0.0 && grid[i].t < impact.t) || grid[i] == impact
    ensures |Truncated(grid, impact)| >= 2
    ensures Truncated(grid, impact)[|Truncated(grid, impact)| - 1] == impact
  {
    var k := FirstBelowGround(grid);
    assert 1 <= k < |grid|;
    var kept := grid[..k];
    assert kept[k - 1] == grid[k - 1];
    if grid[k - 1].y > 0.0 && grid[k - 1].t < impact.t {
      assert AddsImpact(kept, impact);
    } else {
      assert grid[k - 1] == impact;
      assert k >= 2;
      assert !AddsImpact(kept, impact);
    }
  }
}
