/** The objective function the optimiser minimises (Optimisation.py `F`):
    one candidate decision vector is simulated once without imports or, with
    imports enabled, three times (no imports, imports at full interconnection
    capacity, and the clipped deficit of the first run as imports); the
    network flows size the transmission legs; the levelised cost of
    electricity plus non-negative penalties is the fitness. */
module Optimisation {
  import opened Series
  import opened Input
  import opened Simulation
  import Network

  /** Why an evaluation does not yield a finite fitness: a simulation is
      rejected by its closing assertions, the network call aborts, the cost
      factors do not broadcast against the cost terms, or the net energy
      `|energy - loss|` is zero and the division yields no finite number. */
  datatype Fault = Rejected(v: Violation) | Unbalanced(f: Network.Fault) | FactorShape | NoNetEnergy

  /** The simulations of one evaluation: the penalties they determine, the
      import series of the last run and its trajectory. */
  datatype Runs = Runs(powerPenalty: real, deficitPenalty: real, imports: seq<real>, final: Trajectory)

  /** The levelised cost, the leg capacities, the four penalties and their
      sum with the cost. */
  datatype Evaluation = Evaluation(
    lcoe: real, cac: seq<real>,
    penDeficit: real, penEnergy: real, penPower: real, penDC: real,
    fitness: real)

  // ---------------------------------------------------------------------
  // Penalties and the import profile (Optimisation.py:43-75)
  // ---------------------------------------------------------------------

  /** Optimisation.py:47, 50: the gap between the peak deficit of the
      import-free run (GW) and the interconnection capacity, in MW. */
  function PowerPenalty(deficit: seq<real>, CInter: seq<real>): (p: real)
    requires |deficit| > 0
    ensures p >= 0.0
    ensures p == 0.0 <==> Largest(deficit) * 0.001 == Sum(CInter)
    ensures forall t :: 0 <= t < |deficit| ==> deficit[t] * 0.001 - Sum(CInter) <= p * 0.001
  {
    Abs(Largest(deficit) * 0.001 - Sum(CInter)) * 1000.0
  }

  /** Optimisation.py:56, 73: the energy deficit above the allowance, never
      negative. */
  function DeficitPenalty(deficit: seq<real>, resolution: real, allowance: real): (p: real)
    ensures p >= 0.0 && p >= Sum(deficit) * resolution - allowance
    ensures p == 0.0 <==> Sum(deficit) * resolution <= allowance
    ensures p > 0.0 ==> p == Sum(deficit) * resolution - allowance
  {
    var excess := Sum(deficit) * resolution - allowance;
    if excess > 0.0 then excess else 0.0
  }

  /** `np.clip(s, lo, hi)`: each entry raised to `lo`, then lowered to `hi`. */
  function Clipped(s: seq<real>, lo: real, hi: real): (r: seq<real>)
    ensures |r| == |s|
    ensures forall k :: 0 <= k < |s| && lo <= hi ==> lo <= r[k] <= hi
    ensures forall k :: 0 <= k < |s| && lo <= s[k] <= hi ==> r[k] == s[k]
    ensures forall k :: 0 <= k < |s| && s[k] < lo <= hi ==> r[k] == lo
    ensures forall k :: 0 <= k < |s| && lo <= hi < s[k] ==> r[k] == hi
  {
    seq(|s|, k requires 0 <= k < |s| => Min(Max(s[k], lo), hi))
  }

  /** The interconnection capacity in MW. */
  function Capacity(s: Solution): real
  {
    Sum(s.CInter) * 1000.0
  }

  /** Optimisation.py:41-75: the simulations of one evaluation over the whole
      horizon, or the assertion that rejects one of them. */
  function Protocol(s: Solution): (r: Result<Runs, Violation>)
    requires s.Configured()
    ensures r.Success? ==> r.value.final.Spans(s.setup.intervals) && |r.value.imports| == s.setup.intervals
    ensures r.Success? ==> r.value.powerPenalty >= 0.0 && r.value.deficitPenalty >= 0.0
    ensures r.Success? && !s.setup.options.importFlag ==>
      r.value.powerPenalty == 0.0 && r.value.imports == Zeros(s.setup.intervals)
    ensures r.Success? && s.setup.options.importFlag && Capacity(s) >= 0.0 ==>
      forall t :: 0 <= t < s.setup.intervals ==> 0.0 <= r.value.imports[t] <= Capacity(s)
  {
    var T, base := s.setup.intervals, s.setup.baseload;
    if s.setup.options.importFlag then
      match Trial(s, base, Zeros(T), 0, T)
      case Failure(v) => Failure(v)
      case Success(first) =>
        match Trial(s, base, seq(T, _ => Capacity(s)), 0, T)
        case Failure(v) => Failure(v)
        case Success(full) =>
          var imports := Clipped(first.deficit, 0.0, Capacity(s));
          match Trial(s, base, imports, 0, T)
          case Failure(v) => Failure(v)
          case Success(last) =>
            Success(Runs(PowerPenalty(first.deficit, s.CInter),
                         DeficitPenalty(full.deficit, s.resolution, s.setup.allowance), imports, last))
    else
      match Trial(s, base, Zeros(T), 0, T)
      case Failure(v) => Failure(v)
      case Success(only) =>
        Success(Runs(0.0, DeficitPenalty(only.deficit, s.resolution, s.setup.allowance), Zeros(T), only))
  }

  // ---------------------------------------------------------------------
  // Cost and levelised cost (Optimisation.py:77-106)
  // ---------------------------------------------------------------------

  /** Optimisation.py:78: per leg, the largest absolute flow over the horizon
      in GW, for the first `legs` legs. */
  function LegCapacities(tdc: seq<seq<real>>, legs: nat): (cac: seq<real>)
    requires |tdc| > 0 && Rectangular(tdc, legs)
    ensures |cac| == legs
    ensures forall k :: 0 <= k < legs ==> cac[k] >= 0.0
    ensures forall k, t :: 0 <= k < legs && 0 <= t < |tdc| ==> Abs(tdc[t][k]) * 0.001 <= cac[k]
    ensures forall k :: 0 <= k < legs ==> exists t :: 0 <= t < |tdc| && cac[k] == Abs(tdc[t][k]) * 0.001
  {
    PeakFlows(tdc, legs)
  }

  /** The peak flows of the first `n` legs, built leg by leg; kept apart from
      `LegCapacities` so that a call with a constant leg count is not unrolled. */
  function PeakFlows(tdc: seq<seq<real>>, n: nat): (p: seq<real>)
    requires |tdc| > 0 && forall t :: 0 <= t < |tdc| ==> n <= |tdc[t]|
    ensures |p| == n
    ensures forall k :: 0 <= k < n ==> p[k] == Abs(tdc[PeakHour(tdc, k)][k]) * 0.001
    decreases n
  {
    if n == 0 then []
    else PeakFlows(tdc, n - 1) + [Abs(tdc[PeakHour(tdc, n - 1)][n - 1]) * 0.001]
  }

  /** The hour of leg `k`'s largest absolute flow. */
  function PeakHour(tdc: seq<seq<real>>, k: nat): (t: nat)
    requires |tdc| > 0 && forall t :: 0 <= t < |tdc| ==> k < |tdc[t]|
    ensures t < |tdc| && forall u :: 0 <= u < |tdc| ==> Abs(tdc[u][k]) <= Abs(tdc[t][k])
  {
    ArgLargest(AbsAll(Column(tdc, k)))
  }

  /** Optimisation.py:92-93: `(factor * terms).sum()` under numpy broadcasting:
      one factor per term, or one factor for all of them. */
  function Cost(factor: seq<real>, terms: seq<real>): (c: Option<real>)
    ensures c.Some? <==> |factor| == |terms| || |factor| == 1
    ensures |factor| == |terms| ==> c == Some(Dot(factor, terms))
    ensures |factor| == 1 ==> c.Some? && c.value == factor[0] * Sum(terms)
  {
    if |factor| == |terms| then Some(Dot(factor, terms))
    else if |factor| == 1 then Some(factor[0] * Sum(terms))
    else None
  }

  /** Optimisation.py:92: the cost terms, with the leg capacities in the
      middle. */
  function CostTerms(s: Solution, runs: Runs, cac: seq<real>): (terms: seq<real>)
    requires s.Configured() && s.setup.years > 0 && runs.final.Spans(s.setup.intervals)
    ensures |terms| == 9 + |cac|
  {
    var years := s.setup.years as real;
    var gphes := Sum(runs.final.dischargePH) * s.resolution / years * 0.000001;
    var ghydro := s.resolution * (Sum(RowSums(s.setup.baseload)) + Sum(runs.final.dischargePeaking)) / s.efficiencyPH / years;
    var gindia := s.resolution * Sum(runs.imports) / years / s.efficiencyPH;
    [Sum(s.CPV), gindia * 0.000001, Sum(s.CPHP), s.CPHS, gphes] + cac + [Sum(s.CPV), ghydro * 0.000001, 0.0, 0.0]
  }

  /** Optimisation.py:95-96: the transmission loss per year, every leg's
      total absolute flow times its loss factor. */
  function AnnualLoss(tdc: seq<seq<real>>, TLoss: seq<real>, resolution: real, years: nat): real
    requires Rectangular(tdc, |TLoss|) && years > 0
  {
    var flows := seq(|TLoss|, k requires 0 <= k < |TLoss| => Sum(AbsAll(Column(tdc, k))));
    Dot(flows, TLoss) * 0.000000001 * resolution / years as real
  }

  /** The flow matrix of Optimisation.py:77: the network model over the last
      simulation for the `Super` network, zero flows otherwise. */
  function Flows(s: Solution, runs: Runs): (r: Result<seq<seq<real>>, Network.Fault>)
    requires s.Configured() && |s.CInter| <= s.setup.nodes
    requires runs.final.Spans(s.setup.intervals) && |runs.imports| == s.setup.intervals
    ensures r.Success? ==> |r.value| == s.setup.intervals && Rectangular(r.value, |s.setup.TLoss|)
    ensures !s.setup.IsSuper() ==> r == Success(seq(s.setup.intervals, _ => Zeros(|s.setup.TLoss|)))
  {
    if s.setup.IsSuper() then
      var r := Network.FlowMatrix(Network.Inputs(s.setup, s.GPV, s.CPHP, s.CInter, runs.final, runs.imports), true);
      assert r.Success? ==> |r.value| == s.setup.intervals && Rectangular(r.value, |s.setup.TLoss|) by {
        FlowShape(Network.Inputs(s.setup, s.GPV, s.CPHP, s.CInter, runs.final, runs.imports));
      }
      r
    else Success(seq(s.setup.intervals, _ => Zeros(|s.setup.TLoss|)))
  }

  /** A successful network call has one row per interval and one column per
      leg. */
  lemma FlowShape(n: Network.Inputs)
    requires n.Valid()
    ensures var r := Network.FlowMatrix(n, true);
      r.Success? ==> |r.value| == n.setup.intervals && Rectangular(r.value, |n.setup.TLoss|)
  {
  }

  /** Optimisation.py:77-106 after the simulations: leg capacities, cost,
      levelised cost and the fitness. */
  function Assessed(s: Solution, runs: Runs, tdc: seq<seq<real>>): (r: Result<Evaluation, Fault>)
    requires s.Configured() && s.setup.years > 0 && runs.final.Spans(s.setup.intervals)
    requires runs.powerPenalty >= 0.0 && runs.deficitPenalty >= 0.0
    requires |tdc| == s.setup.intervals && Rectangular(tdc, |s.setup.TLoss|)
    ensures r.Success? ==> r.value.fitness >= r.value.lcoe
    ensures r.Success? ==> (r.value.fitness == r.value.lcoe <==> r.value.penDeficit == 0.0 && r.value.penPower == 0.0)
    ensures r.Success? ==> r.value.penEnergy == 0.0 && r.value.penDC == 0.0
    ensures r.Success? ==> r.value.penDeficit == runs.deficitPenalty && r.value.penPower == runs.powerPenalty
    ensures r.Success? ==> r.value.cac == LegCapacities(tdc, |s.setup.TLoss|)
    ensures r.Success? <==>
      && Cost(s.setup.factor, CostTerms(s, runs, LegCapacities(tdc, |s.setup.TLoss|))).Some?
      && s.setup.energy != AnnualLoss(tdc, s.setup.TLoss, s.resolution, s.setup.years)
    ensures r.Success? ==>
      r.value.lcoe * Abs(s.setup.energy - AnnualLoss(tdc, s.setup.TLoss, s.resolution, s.setup.years))
        == Cost(s.setup.factor, CostTerms(s, runs, LegCapacities(tdc, |s.setup.TLoss|))).value
  {
    var cac := LegCapacities(tdc, |s.setup.TLoss|);
    var cost := Cost(s.setup.factor, CostTerms(s, runs, cac));
    var loss := AnnualLoss(tdc, s.setup.TLoss, s.resolution, s.setup.years);
    if cost.None? then Failure(FactorShape)
    else if s.setup.energy == loss then Failure(NoNetEnergy)
    else
      var lcoe := cost.value / Abs(s.setup.energy - loss);
      Success(Evaluation(lcoe, cac, runs.deficitPenalty, 0.0, runs.powerPenalty, 0.0,
                         lcoe + runs.deficitPenalty + 0.0 + runs.powerPenalty + 0.0))
  }

  /** Optimisation.py:35-107 as a value: the evaluation of the solution `s`. */
  function Objective(s: Solution): (r: Result<Evaluation, Fault>)
    requires s.Configured() && s.setup.years > 0 && |s.CInter| <= s.setup.nodes
  {
    match Protocol(s)
    case Failure(v) => Failure(Rejected(v))
    case Success(runs) =>
      match Flows(s, runs)
      case Failure(f) => Failure(Unbalanced(f))
      case Success(tdc) => Assessed(s, runs, tdc)
  }

  /** Optimisation.py:77-78: outside the `Super` network every leg capacity
      is zero. */
  lemma NoLegsOutsideSuper(s: Solution)
    requires s.Configured() && s.setup.years > 0 && |s.CInter| <= s.setup.nodes && !s.setup.IsSuper()
    requires Objective(s).Success?
    ensures forall k :: 0 <= k < |Objective(s).value.cac| ==> Objective(s).value.cac[k] == 0.0
  {
    var runs := Protocol(s).value;
    var tdc := Flows(s, runs).value;
    var cac := LegCapacities(tdc, |s.setup.TLoss|);
    forall k | 0 <= k < |cac|
      ensures cac[k] == 0.0
    {
      var t :| 0 <= t < |tdc| && cac[k] == Abs(tdc[t][k]) * 0.001;
      assert tdc[t] == Zeros(|s.setup.TLoss|);
    }
  }

  /** Optimisation.py:106: an evaluation is exactly its levelised cost when
      both penalties vanish, that is when the full-capacity run (or the only
      run) stays within the allowance and, with imports, the peak deficit of
      the import-free run matches the interconnection capacity. */
  lemma FitnessIsCost(s: Solution)
    requires s.Configured() && s.setup.years > 0 && |s.CInter| <= s.setup.nodes
    requires Objective(s).Success?
    ensures Objective(s).value.fitness == Objective(s).value.lcoe <==>
      Protocol(s).value.deficitPenalty == 0.0 && Protocol(s).value.powerPenalty == 0.0
  {
  }

  // ---------------------------------------------------------------------
  // The objective function over a fresh solution
  // ---------------------------------------------------------------------

  /** Optimisation.py:35-107: decodes `x` into a new solution and evaluates
      it. */
  method F(x: seq<real>, setup: Setup) returns (result: Result<Evaluation, Fault>, S: Solution)
    requires setup.Shaped() && setup.years > 0 && |x| == IIdx(setup)
    ensures fresh(S) && S.Configured() && S.x == x && S.setup == setup && |S.CInter| == setup.inters
    ensures result == Objective(S)
  {
    S := new Solution(x, setup);
    DecodedInterconnections(x, setup);
    result := Evaluate(S);
  }

  /** A decision vector of the full layout holds one capacity per
      interconnection. */
  lemma DecodedInterconnections(x: seq<real>, setup: Setup)
    requires setup.Shaped() && |x| == IIdx(setup)
    ensures |Decode(x, setup).CInter| == setup.inters
  {
    var d := Decode(x, setup);
    if setup.IsSuper() {
      assert |d.CPV + d.CPHP + [d.CPHS] + d.CInter| == |x|;
    }
  }

  /** Optimisation.py:41-106 over a solution: the simulations, the network
      call for `Super`, and the cost. */
  method Evaluate(S: Solution) returns (result: Result<Evaluation, Fault>)
    requires S.Configured() && S.setup.years > 0 && |S.CInter| <= S.setup.nodes
    modifies S
    ensures result == Objective(S)
  {
    var runs := Simulations(S);
    if runs.Failure? {
      return Failure(Rejected(runs.error));
    }
    var tdc := LegFlows(S, runs.value);
    if tdc.Failure? {
      return Failure(Unbalanced(tdc.error));
    }
    result := Assessed(S, runs.value, tdc.value);
  }

  /** Optimisation.py:77: `Transmission` over the solution's last simulation
      for the `Super` network, zero flows otherwise. */
  method LegFlows(S: Solution, runs: Runs) returns (tdc: Result<seq<seq<real>>, Network.Fault>)
    requires S.Configured() && |S.CInter| <= S.setup.nodes
    requires runs.final.Spans(S.setup.intervals) && |runs.imports| == S.setup.intervals
    requires S.sim == runs.final && S.indiaImports == runs.imports
    modifies S
    ensures tdc == Flows(S, runs)
  {
    if S.setup.IsSuper() {
      tdc := Network.Transmission(S, true, true);
    } else {
      tdc := Success(seq(S.setup.intervals, _ => Zeros(|S.setup.TLoss|)));
    }
  }

  /** Optimisation.py:41-75: the simulations in the source's order, each
      recording its imports and, when accepted, its trajectory on the
      solution. */
  method Simulations(S: Solution) returns (r: Result<Runs, Violation>)
    requires S.Configured()
    modifies S
    ensures r == Protocol(S)
    ensures r.Success? ==> S.sim == r.value.final && S.indiaImports == r.value.imports
  {
    var T := S.setup.intervals;
    if S.setup.options.importFlag {
      var first := Simulated(S, Zeros(T));
      if first.Failure? {
        return Failure(first.error);
      }
      var full := Simulated(S, seq(T, _ => Capacity(S)));
      if full.Failure? {
        return Failure(full.error);
      }
      var imports := Clipped(first.value.deficit, 0.0, Capacity(S));
      var last := Simulated(S, imports);
      if last.Failure? {
        return Failure(last.error);
      }
      r := Success(Runs(PowerPenalty(first.value.deficit, S.CInter),
                        DeficitPenalty(full.value.deficit, S.resolution, S.setup.allowance), imports, last.value));
    } else {
      var only := Simulated(S, Zeros(T));
      if only.Failure? {
        return Failure(only.error);
      }
      r := Success(Runs(0.0, DeficitPenalty(only.value.deficit, S.resolution, S.setup.allowance), Zeros(T), only.value));
    }
  }

  /** One `Reliability` call over the whole horizon. */
  method Simulated(S: Solution, imports: seq<real>) returns (r: Result<Trajectory, Violation>)
    requires S.Configured() && |imports| == S.setup.intervals
    modifies S
    ensures r == Trial(S, S.setup.baseload, imports, 0, S.setup.intervals)
    ensures S.indiaImports == imports && (r.Success? ==> S.sim == r.value)
    ensures S.net == old(S.net) && S.TDC == old(S.TDC) && S.CAC == old(S.CAC)
    ensures S.MPHS == old(S.MPHS) && S.Topology == old(S.Topology)
  {
    var run := Reliability(S, S.setup.baseload, imports, 0, S.setup.intervals);
    if run.Failure? {
      return Failure(run.error);
    }
    r := Success(S.sim);
  }

  // ---------------------------------------------------------------------
  // Decision-variable bounds (Optimisation.py:113-114, Input.py:135-142)
  // ---------------------------------------------------------------------

  /** Input.py:139: one upper bound per interconnection, 500 GW for `Super`
      and zero otherwise. */
  function InterUppers(s: Setup): (u: seq<real>)
    ensures |u| == s.inters && forall k :: 0 <= k < s.inters ==> u[k] >= 0.0
    ensures s.IsSuper() ==> forall k :: 0 <= k < s.inters ==> u[k] == 500.0
    ensures !s.IsSuper() ==> forall k :: 0 <= k < s.inters ==> u[k] == 0.0
  {
    seq(s.inters, _ => if s.IsSuper() then InterUpper else 0.0)
  }

  /** Optimisation.py:113-114 as written: the lower bounds cover every solar
      zone and every node, the upper bounds only the covered ones. */
  function BoundsAsWritten(s: Setup): (b: (seq<real>, seq<real>))
    ensures |b.0| == s.pzones + s.nodes + 1 + s.inters
    ensures |b.1| == |s.pvUpper| + |s.phesUpper| + 1 + s.inters
    ensures forall k :: 0 <= k < s.pzones ==> b.0[k] == PvLower == 0.001
    ensures forall k :: s.pzones <= k < |b.0| ==> b.0[k] == 0.0
    ensures forall k :: 0 <= k < |s.pvUpper| ==> b.1[k] == s.pvUpper[k]
    ensures forall k :: 0 <= k < |s.phesUpper| ==> b.1[|s.pvUpper| + k] == s.phesUpper[k]
    ensures b.1[|s.pvUpper| + |s.phesUpper|] == PhesStorageUpper == 10000.0
    ensures forall k :: 0 <= k < s.inters ==> b.1[|s.pvUpper| + |s.phesUpper| + 1 + k] == InterUppers(s)[k]
  {
    (seq(s.pzones, _ => PvLower) + Zeros(s.nodes) + [0.0] + Zeros(s.inters),
     s.pvUpper + s.phesUpper + [PhesStorageUpper] + InterUppers(s))
  }

  /** `list(zip(lb, ub))`: the pairs up to the shorter list. */
  function Zipped(lb: seq<real>, ub: seq<real>): (r: seq<(real, real)>)
    ensures |r| == (if |lb| <= |ub| then |lb| else |ub|)
    ensures forall k :: 0 <= k < |r| ==> r[k] == (lb[k], ub[k])
  {
    var n := if |lb| <= |ub| then |lb| else |ub|;
    seq(n, k requires 0 <= k < n => (lb[k], ub[k]))
  }

  /** With the `APG_BMY_Only` network the optimiser is given five bound pairs
      for a decision vector of thirty-five entries, so no vector it proposes
      can be decoded, and the first four pairs are empty (0.001 above 0). */
  lemma BorderBoundsMismatch(s: Setup)
    requires s.options.node == BmyOnly && s.pzones == |PVl0| && s.nodes == |Nodel0| && s.inters == 0
    requires s.pvUpper == Select(PVl0, PvUpper0, BorderNodes)
    requires s.phesUpper == Select(Nodel0, PhesUpper0, BorderNodes)
    ensures var b := BoundsAsWritten(s);
      && |b.0| == PhIdx(s) + 1 == 35
      && Zipped(b.0, b.1) == [(0.001, 0.0), (0.001, 0.0), (0.001, 0.0), (0.001, 0.0), (0.001, 10000.0)]
  {
    BorderZones();
    BorderNodesPower();
    assert |s.pvUpper| == 0 && s.phesUpper == [0.0, 0.0, 0.0, 0.0];
    var b := BoundsAsWritten(s);
    assert |b.0| == 35 && |b.1| == 5;
    assert forall k :: 0 <= k < 4 ==> b.1[k] == 0.0;
    assert b.1[4] == 10000.0;
    assert forall k :: 0 <= k < 5 ==> b.0[k] == 0.001;
    var z := Zipped(b.0, b.1);
    assert |z| == 5 && forall k :: 0 <= k < 5 ==> z[k] == (b.0[k], b.1[k]);
  }

  /** Optimisation.py:113-114 corrected: both lists are laid out on every
      solar zone and every node, as the decision vector is (Input.py:119-125),
      and a zone or node outside the coverage is pinned to its lower bound. */
  function Bounds(s: Setup): (b: (seq<real>, seq<real>))
    requires s.pzones == |PVl0| && s.nodes == |Nodel0|
    ensures |b.0| == |b.1| == IIdx(s)
    ensures forall k :: 0 <= k < |b.0| ==> b.0[k] <= b.1[k]
    ensures forall k :: 0 <= k < s.pzones && PVl0[k] in s.coverage ==> b.1[k] == PvUpper0[k]
    ensures forall k :: 0 <= k < s.nodes && Nodel0[k] in s.coverage ==> b.1[s.pzones + k] == PhesUpper0[k]
    ensures forall k :: 0 <= k < s.pzones && PVl0[k] !in s.coverage ==> b.1[k] == b.0[k]
    ensures forall k :: 0 <= k < s.nodes && Nodel0[k] !in s.coverage ==> b.1[s.pzones + k] == b.0[s.pzones + k]
  {
    var lb := seq(s.pzones, _ => PvLower) + Zeros(s.nodes) + [0.0] + Zeros(s.inters);
    UppersAboveLowers();
    var ub := CoveredUppers(PVl0, PvUpper0, PvLower, s.coverage) + CoveredUppers(Nodel0, PhesUpper0, 0.0, s.coverage)
      + [PhesStorageUpper] + InterUppers(s);
    (lb, ub)
  }

  /** The upper bound of each key: its own when covered, `pinned` otherwise. */
  function CoveredUppers(keys: seq<string>, uppers: seq<real>, pinned: real, coverage: seq<string>): (u: seq<real>)
    requires |keys| == |uppers| && forall k :: 0 <= k < |uppers| ==> pinned <= uppers[k]
    ensures |u| == |keys|
    ensures forall k :: 0 <= k < |keys| && keys[k] in coverage ==> u[k] == uppers[k]
    ensures forall k :: 0 <= k < |keys| && keys[k] !in coverage ==> u[k] == pinned
    ensures forall k :: 0 <= k < |keys| ==> pinned <= u[k]
  {
    seq(|keys|, k requires 0 <= k < |keys| => if keys[k] in coverage then uppers[k] else pinned)
  }

  /** Every solar upper bound is above the solar lower bound and every
      storage power upper bound is non-negative. */
  lemma UppersAboveLowers()
    ensures forall k :: 0 <= k < |PvUpper0| ==> PvLower <= PvUpper0[k]
    ensures forall k :: 0 <= k < |PhesUpper0| ==> 0.0 <= PhesUpper0[k]
  {
  }

  /** For the `Super` network the two constructions agree. */
  lemma SuperBoundsAgree(s: Setup)
    requires s.IsSuper() && s.pzones == |PVl0| && s.nodes == |Nodel0| && s.coverage == Nodel0
    requires s.pvUpper == PvUpper0 && s.phesUpper == PhesUpper0
    ensures BoundsAsWritten(s) == Bounds(s)
  {
    var b, c := BoundsAsWritten(s), Bounds(s);
    assert forall k :: 0 <= k < s.pzones ==> PVl0[k] in s.coverage by {
      ZonesDomestic();
      NodesSplit();
    }
    forall k | 0 <= k < |b.1|
      ensures b.1[k] == c.1[k]
    {
      if k < s.pzones {
        assert b.1[k] == PvUpper0[k];
      } else if k < s.pzones + s.nodes {
        var j := k - s.pzones;
        assert Nodel0[j] in s.coverage;
        assert b.1[|s.pvUpper| + j] == PhesUpper0[j];
      }
    }
    assert b.1 == c.1;
    assert b.0 == c.0;
  }
}
