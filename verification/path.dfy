/** `_calculate_integration_path`: the walk through the atmosphere in depth steps
    `dX = 1 / (max_ldec * rho_inv(X))`, shortened to land on requested depths, and
    the cache that keeps the last path for the same `(int_grid, grid_var)`.

    The density profile `rho_inv` is an abstract function of the depth that the
    atmosphere model provides; it is positive and bounded by `rhoMax`, which is
    what makes every ordinary step at least `1 / (max_ldec * rhoMax)` long. */
module Integration {
  import opened Base

  /** The three lists the step loop fills: `dX_vec`, `rho_inv_vec` and
      `grid_idcs`. */
  datatype Walk = Walk(dX: seq<real>, rhoInv: seq<real>, gridIdcs: seq<int>)

  /** `self.integration_path`: `(dX_vec.size, dX_vec, rho_inv_vec, grid_idcs)`. */
  datatype IntegrationPath = IntegrationPath(nsteps: nat, dX: seq<real>, rhoInv: seq<real>, gridIdcs: seq<int>)

  /** What the atmosphere model supplies: `X_surf` and `r_X2rho`, with a bound on
      the latter. */
  datatype Profile = Profile(xSurf: real, rhoInv: real -> real, rhoMax: real)

  ghost predicate ValidProfile(a: Profile, maxLdec: real)
  {
    maxLdec > 0.0 && a.rhoMax > 0.0 && forall x :: 0.0 < a.rhoInv(x) <= a.rhoMax
  }

  function Concat(a: Walk, b: Walk): Walk
  {
    Walk(a.dX + b.dX, a.rhoInv + b.rhoInv, a.gridIdcs + b.gridIdcs)
  }

  /** `np.any(int_grid)`: some requested depth is not zero (never, without a grid). */
  predicate AnyNonZero(grid: seq<real>)
  {
    exists k :: 0 <= k < |grid| && grid[k] != 0.0
  }

  function GridOf(intGrid: Option<seq<real>>): seq<real>
  {
    if intGrid.Some? then intGrid.value else []
  }

  function StepLength(maxLdec: real, ri: real): real
    requires maxLdec > 0.0 && ri > 0.0
  {
    1.0 / (maxLdec * ri)
  }

  function MinStep(a: Profile, maxLdec: real): (m: real)
    requires maxLdec > 0.0 && a.rhoMax > 0.0
    ensures m > 0.0
  {
    1.0 / (maxLdec * a.rhoMax)
  }

  /** Every ordinary step is at least the shortest one. */
  lemma StepAtLeast(a: Profile, maxLdec: real, x: real)
    requires ValidProfile(a, maxLdec)
    ensures StepLength(maxLdec, a.rhoInv(x)) >= MinStep(a, maxLdec)
  {
    var p := maxLdec * a.rhoInv(x);
    var q := maxLdec * a.rhoMax;
    assert 0.0 < p <= q;
    assert 1.0 / p - 1.0 / q == (q - p) / (p * q);
  }

  /** How many shortest steps still fit before the surface. */
  function Remaining(a: Profile, maxLdec: real, x: real): nat
    requires maxLdec > 0.0 && a.rhoMax > 0.0
  {
    if x < a.xSurf then ((a.xSurf - x) / MinStep(a, maxLdec)).Floor + 1 else 0
  }

  lemma RemainingDrops(a: Profile, maxLdec: real, x: real, dX: real)
    requires maxLdec > 0.0 && a.rhoMax > 0.0 && x < a.xSurf
    requires dX >= MinStep(a, maxLdec)
    ensures Remaining(a, maxLdec, x + dX) < Remaining(a, maxLdec, x)
  {
    var m := MinStep(a, maxLdec);
    if x + dX < a.xSurf {
      var y := (a.xSurf - x) / m;
      var y' := (a.xSurf - (x + dX)) / m;
      assert y' == y - dX / m;
      assert dX / m >= 1.0;
      assert y'.Floor as real <= y' <= y - 1.0 < y.Floor as real;
    }
  }

  /** Whether the step from depth `x` would reach the next requested depth
      `grid[gs]` and is shortened to land on it. */
  ghost predicate Snaps(a: Profile, maxLdec: real, grid: seq<real>, x: real, gs: nat)
    requires ValidProfile(a, maxLdec)
  {
    AnyNonZero(grid) && gs < |grid| && x + StepLength(maxLdec, a.rhoInv(x)) >= grid[gs]
  }

  /** The length of the step from depth `x`. */
  ghost function StepFrom(a: Profile, maxLdec: real, grid: seq<real>, x: real, gs: nat): real
    requires ValidProfile(a, maxLdec)
  {
    if Snaps(a, maxLdec, grid, x, gs) then grid[gs] - x else StepLength(maxLdec, a.rhoInv(x))
  }

  ghost function NextGs(a: Profile, maxLdec: real, grid: seq<real>, x: real, gs: nat): nat
    requires ValidProfile(a, maxLdec)
  {
    if Snaps(a, maxLdec, grid, x, gs) then gs + 1 else gs
  }

  /** The walk the loop of `_calculate_integration_path` makes from depth `x`,
      step number `step`, with `gs` requested depths already reached. */
  ghost function Plan(a: Profile, maxLdec: real, grid: seq<real>, x: real, step: int, gs: nat): Walk
    requires ValidProfile(a, maxLdec) && gs <= |grid|
    decreases |grid| - gs, Remaining(a, maxLdec, x)
  {
    if x >= a.xSurf then Walk([], [], [])
    else
      StepAtLeast(a, maxLdec, x);
      RemainingDrops(a, maxLdec, x, StepLength(maxLdec, a.rhoInv(x)));
      Concat(Walk([StepFrom(a, maxLdec, grid, x, gs)], [a.rhoInv(x)],
                  if Snaps(a, maxLdec, grid, x, gs) then [step] else []),
             Plan(a, maxLdec, grid, x + StepFrom(a, maxLdec, grid, x, gs), step + 1, NextGs(a, maxLdec, grid, x, gs)))
  }

  /** One step of the walk, unfolded. */
  lemma PlanStep(a: Profile, maxLdec: real, grid: seq<real>, x: real, step: int, gs: nat)
    requires ValidProfile(a, maxLdec) && gs <= |grid| && x < a.xSurf
    ensures NextGs(a, maxLdec, grid, x, gs) <= |grid|
    ensures var dX := StepFrom(a, maxLdec, grid, x, gs);
      var gs' := NextGs(a, maxLdec, grid, x, gs);
      var w := Plan(a, maxLdec, grid, x, step, gs);
      var rest := Plan(a, maxLdec, grid, x + dX, step + 1, gs');
      && w.dX == [dX] + rest.dX
      && w.rhoInv == [a.rhoInv(x)] + rest.rhoInv
      && w.gridIdcs == (if Snaps(a, maxLdec, grid, x, gs) then [step] else []) + rest.gridIdcs
      && (Remaining(a, maxLdec, x + dX) < Remaining(a, maxLdec, x) || gs' == gs + 1)
  {
    StepAtLeast(a, maxLdec, x);
    RemainingDrops(a, maxLdec, x, StepLength(maxLdec, a.rhoInv(x)));
  }

  /** The path `_calculate_integration_path(int_grid, 'X')` stores. */
  ghost function Planned(a: Profile, maxLdec: real, intGrid: Option<seq<real>>): IntegrationPath
    requires ValidProfile(a, maxLdec)
  {
    var w := Plan(a, maxLdec, GridOf(intGrid), 0.0, 0, 0);
    IntegrationPath(|w.dX|, w.dX, w.rhoInv, w.gridIdcs)
  }

  /** The step loop. */
  method PlanPath(a: Profile, maxLdec: real, intGrid: Option<seq<real>>) returns (path: IntegrationPath)
    requires ValidProfile(a, maxLdec)
    ensures path == Planned(a, maxLdec, intGrid)
  {
    var grid := if intGrid.Some? then intGrid.value else [];
    var ri := a.rhoInv;
    var dXVec: seq<real> := [];
    var rhoInvVec: seq<real> := [];
    var x := 0.0;
    var step := 0;
    var gridStep := 0;
    var gridIdcs: seq<int> := [];
    while x < a.xSurf
      invariant 0 <= gridStep <= |grid|
      invariant Plan(a, maxLdec, grid, 0.0, 0, 0)
             == Concat(Walk(dXVec, rhoInvVec, gridIdcs), Plan(a, maxLdec, grid, x, step, gridStep))
      decreases |grid| - gridStep, Remaining(a, maxLdec, x)
    {
      ghost var before := Walk(dXVec, rhoInvVec, gridIdcs);
      PlanStep(a, maxLdec, grid, x, step, gridStep);
      ghost var next := Plan(a, maxLdec, grid, x + StepFrom(a, maxLdec, grid, x, gridStep), step + 1,
                             NextGs(a, maxLdec, grid, x, gridStep));
      ghost var one := Walk([StepFrom(a, maxLdec, grid, x, gridStep)], [a.rhoInv(x)],
                            if Snaps(a, maxLdec, grid, x, gridStep) then [step] else []);
      assert Plan(a, maxLdec, grid, x, step, gridStep) == Concat(one, next);
      ConcatAssoc(before, one, next);
      var riX := ri(x);
      var dX := StepLength(maxLdec, riX);
      ghost var snap := Snaps(a, maxLdec, grid, x, gridStep);
      if AnyNonZero(grid) && gridStep < |grid| && x + dX >= grid[gridStep] {
        assert snap;
        dX := grid[gridStep] - x;
        gridIdcs := gridIdcs + [step];
        gridStep := gridStep + 1;
      } else {
        assert !snap;
      }
      assert dX == one.dX[0];
      dXVec := dXVec + [dX];
      rhoInvVec := rhoInvVec + [riX];
      x := x + dX;
      step := step + 1;
      assert Walk(dXVec, rhoInvVec, gridIdcs) == Concat(before, one);
    }
    var w := Walk(dXVec, rhoInvVec, gridIdcs);
    assert Concat(w, Walk([], [], [])) == w;
    path := IntegrationPath(|dXVec|, dXVec, rhoInvVec, gridIdcs);
  }

  lemma ConcatAssoc(a: Walk, b: Walk, c: Walk)
    ensures Concat(Concat(a, b), c) == Concat(a, Concat(b, c))
  {
  }

  // ---------------------------------------------------------------------------
  // What the walk looks like.

  /** Depth after the steps in `dX`, starting from `x`. */
  function Sum(s: seq<real>): real
  {
    if s == [] then 0.0 else s[0] + Sum(s[1..])
  }

  lemma SumCons(v: real, s: seq<real>, j: nat)
    requires j <= |s|
    ensures Sum(([v] + s)[..j + 1]) == v + Sum(s[..j])
  {
    assert ([v] + s)[..j + 1] == [v] + s[..j];
    assert ([v] + s[..j])[1..] == s[..j];
  }

  /** One entry per step in `dX_vec` and `rho_inv_vec`; the recorded step
      indices are strictly increasing step numbers of this walk, and no more of
      them than requested depths are left. */
  lemma {:induction false} PlanShape(a: Profile, maxLdec: real, grid: seq<real>, x: real, step: int, gs: nat)
    requires ValidProfile(a, maxLdec) && gs <= |grid|
    ensures var w := Plan(a, maxLdec, grid, x, step, gs);
      && |w.dX| == |w.rhoInv|
      && |w.gridIdcs| <= |grid| - gs
      && (forall k :: 0 <= k < |w.gridIdcs| ==> step <= w.gridIdcs[k] < step + |w.dX|)
      && (forall k, k' :: 0 <= k < k' < |w.gridIdcs| ==> w.gridIdcs[k] < w.gridIdcs[k'])
    decreases |grid| - gs, Remaining(a, maxLdec, x)
  {
    if x < a.xSurf {
      PlanStep(a, maxLdec, grid, x, step, gs);
      PlanShape(a, maxLdec, grid, x + StepFrom(a, maxLdec, grid, x, gs), step + 1, NextGs(a, maxLdec, grid, x, gs));
    }
  }

  /** Each recorded step ends exactly on its requested depth: the `k`-th
      recorded step brings the depth to `grid[gs + k]`. */
  lemma {:induction false} PlanLands(a: Profile, maxLdec: real, grid: seq<real>, x: real, step: int, gs: nat, k: nat)
    requires ValidProfile(a, maxLdec) && gs <= |grid|
    requires k < |Plan(a, maxLdec, grid, x, step, gs).gridIdcs|
    ensures LandsOn(grid, x, step, gs, Plan(a, maxLdec, grid, x, step, gs), k)
    decreases |grid| - gs, Remaining(a, maxLdec, x)
  {
    PlanStep(a, maxLdec, grid, x, step, gs);
    var snap := Snaps(a, maxLdec, grid, x, gs);
    if snap && k == 0 {
      var dX := StepFrom(a, maxLdec, grid, x, gs);
      var rest := Plan(a, maxLdec, grid, x + dX, step + 1, NextGs(a, maxLdec, grid, x, gs));
      LandsHere(dX, rest.dX, x, grid[gs]);
    } else {
      var k' := if snap then k - 1 else k;
      PlanLands(a, maxLdec, grid, x + StepFrom(a, maxLdec, grid, x, gs), step + 1, NextGs(a, maxLdec, grid, x, gs), k');
      LandsShift(a, maxLdec, grid, x, step, gs, k);
    }
  }

  /** The `k`-th recorded step of the walk `w` from depth `x`, step number
      `step`, ends on the requested depth `grid[gs + k]`. */
  ghost predicate LandsOn(grid: seq<real>, x: real, step: int, gs: nat, w: Walk, k: nat)
    requires k < |w.gridIdcs|
  {
    var j := w.gridIdcs[k] - step;
    gs + k < |grid| && 0 <= j < |w.dX| && x + Sum(w.dX[..j + 1]) == grid[gs + k]
  }

  lemma LandsShift(a: Profile, maxLdec: real, grid: seq<real>, x: real, step: int, gs: nat, k: nat)
    requires ValidProfile(a, maxLdec) && gs <= |grid| && x < a.xSurf
    requires k < |Plan(a, maxLdec, grid, x, step, gs).gridIdcs|
    requires !Snaps(a, maxLdec, grid, x, gs) || k > 0
    requires NextGs(a, maxLdec, grid, x, gs) <= |grid|
    requires var k' := if Snaps(a, maxLdec, grid, x, gs) then k - 1 else k;
      var rest := Plan(a, maxLdec, grid, x + StepFrom(a, maxLdec, grid, x, gs), step + 1, NextGs(a, maxLdec, grid, x, gs));
      k' < |rest.gridIdcs|
      && LandsOn(grid, x + StepFrom(a, maxLdec, grid, x, gs), step + 1, NextGs(a, maxLdec, grid, x, gs), rest, k')
    ensures LandsOn(grid, x, step, gs, Plan(a, maxLdec, grid, x, step, gs), k)
  {
    PlanStep(a, maxLdec, grid, x, step, gs);
    var dX := StepFrom(a, maxLdec, grid, x, gs);
    var rest := Plan(a, maxLdec, grid, x + dX, step + 1, NextGs(a, maxLdec, grid, x, gs));
    var w := Plan(a, maxLdec, grid, x, step, gs);
    var k' := if Snaps(a, maxLdec, grid, x, gs) then k - 1 else k;
    assert w.gridIdcs[k] == rest.gridIdcs[k'];
    var j' := rest.gridIdcs[k'] - (step + 1);
    SumCons(dX, rest.dX, j' + 1);
  }

  lemma LandsHere(dX: real, rest: seq<real>, x: real, target: real)
    requires dX == target - x
    ensures x + Sum(([dX] + rest)[..1]) == target
  {
    assert ([dX] + rest)[..1] == [dX];
    assert Sum([dX]) == dX + Sum([]);
  }

  /** The walk stops as soon as the surface is reached: every step starts above
      `X_surf`, and the steps together reach it. */
  lemma {:induction false} PlanStops(a: Profile, maxLdec: real, grid: seq<real>, x: real, step: int, gs: nat)
    requires ValidProfile(a, maxLdec) && gs <= |grid|
    ensures var w := Plan(a, maxLdec, grid, x, step, gs);
      && x + Sum(w.dX) >= a.xSurf
      && forall j :: 0 <= j < |w.dX| ==> x + Sum(w.dX[..j]) < a.xSurf
    decreases |grid| - gs, Remaining(a, maxLdec, x)
  {
    if x < a.xSurf {
      PlanStep(a, maxLdec, grid, x, step, gs);
      var dX := StepFrom(a, maxLdec, grid, x, gs);
      var gs' := NextGs(a, maxLdec, grid, x, gs);
      var rest := Plan(a, maxLdec, grid, x + dX, step + 1, gs');
      PlanStops(a, maxLdec, grid, x + dX, step + 1, gs');
      var w := Plan(a, maxLdec, grid, x, step, gs);
      assert ([dX] + rest.dX)[1..] == rest.dX;
      forall j | 0 <= j < |w.dX| ensures x + Sum(w.dX[..j]) < a.xSurf {
        if j > 0 {
          SumCons(dX, rest.dX, j - 1);
        } else {
          assert w.dX[..0] == [];
        }
      }
    }
  }

  /** Every step samples the density at the depth where it starts, and is the
      ordinary step `1 / (max_ldec * rho_inv)` unless it is a recorded one. */
  lemma {:induction false} PlanSteps(a: Profile, maxLdec: real, grid: seq<real>, x: real, step: int, gs: nat, j: nat)
    requires ValidProfile(a, maxLdec) && gs <= |grid|
    requires j < |Plan(a, maxLdec, grid, x, step, gs).dX| && j < |Plan(a, maxLdec, grid, x, step, gs).rhoInv|
    ensures SampledStep(a, maxLdec, x, step, Plan(a, maxLdec, grid, x, step, gs), j)
    decreases |grid| - gs, Remaining(a, maxLdec, x)
  {
    PlanStep(a, maxLdec, grid, x, step, gs);
    if j > 0 {
      var dX := StepFrom(a, maxLdec, grid, x, gs);
      var gs' := NextGs(a, maxLdec, grid, x, gs);
      PlanSteps(a, maxLdec, grid, x + dX, step + 1, gs', j - 1);
      StepsShift(a, maxLdec, grid, x, step, gs, j);
    } else {
      StepsHead(a, maxLdec, grid, x, step, gs);
    }
  }

  /** Step `j` of the walk `w` from depth `x`, step number `step`, samples the
      density where it starts and is ordinary unless it is recorded. */
  ghost predicate SampledStep(a: Profile, maxLdec: real, x: real, step: int, w: Walk, j: nat)
    requires ValidProfile(a, maxLdec) && j < |w.dX| && j < |w.rhoInv|
  {
    && w.rhoInv[j] == a.rhoInv(x + Sum(w.dX[..j]))
    && (w.dX[j] == StepLength(maxLdec, w.rhoInv[j]) || step + j in w.gridIdcs)
  }

  lemma StepsHead(a: Profile, maxLdec: real, grid: seq<real>, x: real, step: int, gs: nat)
    requires ValidProfile(a, maxLdec) && gs <= |grid| && x < a.xSurf
    ensures var w := Plan(a, maxLdec, grid, x, step, gs);
      0 < |w.dX| && 0 < |w.rhoInv| && SampledStep(a, maxLdec, x, step, w, 0)
  {
    PlanStep(a, maxLdec, grid, x, step, gs);
    var w := Plan(a, maxLdec, grid, x, step, gs);
    assert w.dX[..0] == [];
    if Snaps(a, maxLdec, grid, x, gs) {
      assert w.gridIdcs[0] == step;
    }
  }

  lemma StepsShift(a: Profile, maxLdec: real, grid: seq<real>, x: real, step: int, gs: nat, j: nat)
    requires ValidProfile(a, maxLdec) && gs <= |grid| && x < a.xSurf && 0 < j
    requires var w := Plan(a, maxLdec, grid, x, step, gs); j < |w.dX| && j < |w.rhoInv|
    requires NextGs(a, maxLdec, grid, x, gs) <= |grid|
    requires var rest := Plan(a, maxLdec, grid, x + StepFrom(a, maxLdec, grid, x, gs), step + 1, NextGs(a, maxLdec, grid, x, gs));
      j - 1 < |rest.dX| && j - 1 < |rest.rhoInv|
      && SampledStep(a, maxLdec, x + StepFrom(a, maxLdec, grid, x, gs), step + 1, rest, j - 1)
    ensures SampledStep(a, maxLdec, x, step, Plan(a, maxLdec, grid, x, step, gs), j)
  {
    PlanStep(a, maxLdec, grid, x, step, gs);
    var dX := StepFrom(a, maxLdec, grid, x, gs);
    var rest := Plan(a, maxLdec, grid, x + dX, step + 1, NextGs(a, maxLdec, grid, x, gs));
    var w := Plan(a, maxLdec, grid, x, step, gs);
    SumCons(dX, rest.dX, j - 1);
    assert x + Sum(w.dX[..j]) == (x + dX) + Sum(rest.dX[..j - 1]);
    assert w.rhoInv[j] == rest.rhoInv[j - 1] && w.dX[j] == rest.dX[j - 1];
    assert (step + 1) + (j - 1) in rest.gridIdcs ==> step + j in w.gridIdcs;
  }

  /** The planned path from the surface of the atmosphere, as stored. */
  lemma PlannedPath(a: Profile, maxLdec: real, intGrid: Option<seq<real>>)
    requires ValidProfile(a, maxLdec)
    ensures var p := Planned(a, maxLdec, intGrid);
      && p.nsteps == |p.dX| == |p.rhoInv|
      && |p.gridIdcs| <= |GridOf(intGrid)|
      && (forall k, k' :: 0 <= k < k' < |p.gridIdcs| ==> p.gridIdcs[k] < p.gridIdcs[k'])
      && (forall k :: 0 <= k < |p.gridIdcs| ==>
            0 <= p.gridIdcs[k] < p.nsteps && Sum(p.dX[..p.gridIdcs[k] + 1]) == GridOf(intGrid)[k])
      && Sum(p.dX) >= a.xSurf
      && (forall j :: 0 <= j < p.nsteps ==> Sum(p.dX[..j]) < a.xSurf)
  {
    var grid := GridOf(intGrid);
    PlanShape(a, maxLdec, grid, 0.0, 0, 0);
    PlanStops(a, maxLdec, grid, 0.0, 0, 0);
    var w := Plan(a, maxLdec, grid, 0.0, 0, 0);
    forall k | 0 <= k < |w.gridIdcs|
      ensures 0 <= w.gridIdcs[k] < |w.dX| && Sum(w.dX[..w.gridIdcs[k] + 1]) == grid[k]
    {
      PlanLands(a, maxLdec, grid, 0.0, 0, 0, k);
    }
  }

  /** On an ascending grid of depths below the surface, every requested depth
      is reached: one step is recorded per requested depth still ahead. */
  lemma {:induction false} PlanRecordsAll(a: Profile, maxLdec: real, grid: seq<real>, x: real, step: int, gs: nat)
    requires ValidProfile(a, maxLdec) && gs <= |grid| && AnyNonZero(grid)
    requires forall k :: gs <= k < |grid| ==> x <= grid[k] < a.xSurf
    requires forall k, l :: gs <= k <= l < |grid| ==> grid[k] <= grid[l]
    ensures |Plan(a, maxLdec, grid, x, step, gs).gridIdcs| == |grid| - gs
    decreases |grid| - gs, Remaining(a, maxLdec, x)
  {
    PlanShape(a, maxLdec, grid, x, step, gs);
    if gs < |grid| {
      assert x <= grid[gs] < a.xSurf;
      PlanStep(a, maxLdec, grid, x, step, gs);
      PlanRecordsAll(a, maxLdec, grid, x + StepFrom(a, maxLdec, grid, x, gs), step + 1, NextGs(a, maxLdec, grid, x, gs));
    }
  }

  /** The stored path records one step per requested depth when the grid is
      ascending and lies between the top of the atmosphere and its surface. */
  lemma PlannedRecordsAll(a: Profile, maxLdec: real, grid: seq<real>)
    requires ValidProfile(a, maxLdec) && AnyNonZero(grid)
    requires forall k :: 0 <= k < |grid| ==> 0.0 <= grid[k] < a.xSurf
    requires forall k, l :: 0 <= k <= l < |grid| ==> grid[k] <= grid[l]
    ensures |Planned(a, maxLdec, Some(grid)).gridIdcs| == |grid|
  {
    PlanRecordsAll(a, maxLdec, grid, 0.0, 0, 0);
  }

  // ---------------------------------------------------------------------------
  // The cache.

  /** `self.int_grid`, `self.grid_var` and `self.integration_path`. */
  datatype PathCache = PathCache(intGrid: Option<seq<real>>, gridVar: string, path: Option<IntegrationPath>)

  /** A stored path is the one planned for the stored grid in depth `X`. */
  ghost predicate Consistent(c: PathCache, a: Profile, maxLdec: real)
    requires ValidProfile(a, maxLdec)
  {
    c.path.Some? ==> c.gridVar == "X" && c.path.value == Planned(a, maxLdec, c.intGrid)
  }

  /** `np.alltrue(int_grid == self.int_grid)`, with numpy's broadcasting: grids
      of equal length compare depth by depth, a grid of one depth is compared
      with every depth of the other, grids of other lengths differ, and a grid
      never equals a missing one. */
  function GridsMatch(x: Option<seq<real>>, y: Option<seq<real>>): (r: bool)
    ensures x == y ==> r
    ensures x.None? || y.None? ==> (r <==> x == y)
    ensures x.Some? && y.Some? && |x.value| == |y.value| ==> (r <==> x == y)
    ensures r && x.Some? && y.Some? && |x.value| != |y.value| ==> |x.value| == 1 || |y.value| == 1
  {
    match (x, y)
    case (None, None) => true
    case (Some(u), Some(v)) =>
      if |u| == |v| then u == v
      else if |u| == 1 then forall j :: 0 <= j < |v| ==> v[j] == u[0]
      else if |v| == 1 then forall i :: 0 <= i < |u| ==> u[i] == v[0]
      else false
    case _ => false
  }

  /** `_calculate_integration_path(int_grid, grid_var)` as written: Ok with the
      state it leaves, or Failure (the NotImplementedError) with the state it
      leaves. The grid and variable are stored before the variable is checked. */
  ghost function CalcAsWritten(c: PathCache, a: Profile, maxLdec: real, intGrid: Option<seq<real>>, gridVar: string)
    : (r: Result<PathCache, PathCache>)
    requires ValidProfile(a, maxLdec)
    ensures r.Failure? <==> gridVar != "X" && !(c.path.Some? && GridsMatch(intGrid, c.intGrid) && c.gridVar == gridVar)
    ensures r.Ok? && gridVar != "X" ==> r.value == c
    ensures r.Failure? ==> r.error == c.(intGrid := intGrid, gridVar := gridVar)
    ensures r.Ok? && gridVar == "X" ==>
      r.value == c || r.value == PathCache(intGrid, "X", Some(Planned(a, maxLdec, intGrid)))
  {
    if c.path.Some? && GridsMatch(intGrid, c.intGrid) && c.gridVar == gridVar then Ok(c)
    else
      var stored := c.(intGrid := intGrid, gridVar := gridVar);
      if gridVar != "X" then Failure(stored)
      else Ok(stored.(path := Some(Planned(a, maxLdec, intGrid))))
  }

  /** Asking twice for a depth variable other than `X` raises only the first
      time; the second call finds the grid it stored itself and silently keeps
      the path planned for the earlier request. */
  lemma AsWrittenServesStalePath(a: Profile, maxLdec: real)
    requires ValidProfile(a, maxLdec)
    ensures var c := PathCache(None, "X", Some(Planned(a, maxLdec, None)));
      var first := CalcAsWritten(c, a, maxLdec, Some([1.0]), "Y");
      && Consistent(c, a, maxLdec)
      && first.Failure?
      && var second := CalcAsWritten(first.error, a, maxLdec, Some([1.0]), "Y");
         && second == Ok(first.error)
         && second.value.path == Some(Planned(a, maxLdec, None))
         && !Consistent(second.value, a, maxLdec)
  {
  }

  /** A path cached for the single depth 5 is served for the grid `[5, 5]`:
      it records one snapshot where two were asked for, while the path planned
      for `[5, 5]` records two. */
  lemma AsWrittenBroadcastHit(a: Profile, maxLdec: real)
    requires ValidProfile(a, maxLdec) && a.xSurf > 5.0
    ensures var c := PathCache(Some([5.0]), "X", Some(Planned(a, maxLdec, Some([5.0]))));
      var r := CalcAsWritten(c, a, maxLdec, Some([5.0, 5.0]), "X");
      && Consistent(c, a, maxLdec)
      && r == Ok(c)
      && |r.value.path.value.gridIdcs| == 1
      && |Planned(a, maxLdec, Some([5.0, 5.0])).gridIdcs| == 2
  {
    assert [5.0][0] != 0.0 && [5.0, 5.0][0] != 0.0;
    PlannedRecordsAll(a, maxLdec, [5.0]);
    PlannedRecordsAll(a, maxLdec, [5.0, 5.0]);
  }

  /** The variable is checked before anything is stored, so a failed request
      leaves the cache as it was. */
  ghost function Calc(c: PathCache, a: Profile, maxLdec: real, intGrid: Option<seq<real>>, gridVar: string)
    : (r: Result<PathCache, PathCache>)
    requires ValidProfile(a, maxLdec)
  {
    if c.path.Some? && c.intGrid == intGrid && c.gridVar == gridVar then Ok(c)
    else if gridVar != "X" then Failure(c)
    else Ok(PathCache(intGrid, gridVar, Some(Planned(a, maxLdec, intGrid))))
  }

  /** On a consistent cache, a request for anything but `X` always fails and
      changes nothing, and a request for `X` always leaves the path planned for
      the requested grid; the cache stays consistent either way. */
  lemma CalcCorrect(c: PathCache, a: Profile, maxLdec: real, intGrid: Option<seq<real>>, gridVar: string)
    requires ValidProfile(a, maxLdec) && Consistent(c, a, maxLdec)
    ensures var r := Calc(c, a, maxLdec, intGrid, gridVar);
      && (r.Failure? <==> gridVar != "X")
      && (r.Failure? ==> r.error == c)
      && (r.Ok? ==> r.value.intGrid == intGrid && r.value.gridVar == "X"
                    && r.value.path == Some(Planned(a, maxLdec, intGrid)))
      && (r.Ok? ==> Consistent(r.value, a, maxLdec))
      && (r.Ok? && c.path.Some? && c.intGrid == intGrid && c.gridVar == gridVar ==> r.value == c)
  {
  }
}
