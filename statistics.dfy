/** The consistency checks and derived quantities of Statistics.py: `Debug`
    re-checks, interval by interval, the pooled energy balance and the storage
    recurrence of a simulated solution; `Information` re-runs the simulation
    with the dispatched imports, calls the network model and derives the leg
    capacities, the storage energy by node and the node balances rebuilt from
    the leg flows. The report writers `LPGM` and `GGTA` are not modelled. */
module Statistics {
  import opened Series
  import opened Input
  import opened Simulation
  import opened Network
  import Optimisation

  // ---------------------------------------------------------------------
  // Debug (Statistics.py:13-43)
  // ---------------------------------------------------------------------

  /** A solution after a simulation and a network call that wrote its nodal
      series: every series has one entry per interval. */
  predicate Recorded(S: Solution)
    reads S
  {
    && S.Configured()
    && S.sim.Spans(S.setup.intervals)
    && S.net.Spans(S.setup.intervals, S.setup.nodes)
  }

  /** Statistics.py:26-27: demand, charging and spillage less every source of
      supply, pooled over the nodes, in interval `i`. */
  function Imbalance(S: Solution, i: nat): real
    reads S
    requires Recorded(S) && i < S.setup.intervals
  {
    Sum(S.setup.MLoad[i]) + S.sim.chargePH[i] + S.sim.spillage[i]
    - Sum(S.GPV[i]) - Sum(S.net.MIndia[i]) - Sum(S.net.MBaseload[i]) - Sum(S.net.MPeaking[i])
    - S.sim.dischargePH[i] - S.sim.deficit[i]
  }

  /** The balance check of interval `i`, to within 1 MW. */
  predicate Balanced(S: Solution, i: nat)
    reads S
    requires Recorded(S) && i < S.setup.intervals
  {
    Abs(Imbalance(S, i)) <= 1.0
  }

  /** Statistics.py:29-32: how far the storage level of interval `i` is from
      the previous level (half the energy capacity before interval 0) moved
      by the interval's discharge and charge. */
  function Drift(S: Solution, i: nat): real
    reads S
    requires Recorded(S) && i < S.setup.intervals
  {
    var prev := if i == 0 then 0.5 * (S.CPHS * 1000.0) else S.sim.storagePH[i - 1];
    S.sim.storagePH[i] - prev + S.sim.dischargePH[i] * S.resolution
    - S.sim.chargePH[i] * S.resolution * S.efficiencyPH
  }

  /** The recurrence check of interval `i`, to within 1 MWh. */
  predicate Recurs(S: Solution, i: nat)
    reads S
    requires Recorded(S) && i < S.setup.intervals
  {
    Abs(Drift(S, i)) <= 1.0
  }

  /** The assertion of `Debug` that fails, with its interval. */
  datatype Check = Unbalanced(i: nat) | StorageJump(i: nat)

  /** Statistics.py:13-43. Checks the intervals in order, the balance before
      the recurrence, and stops at the first assertion that fails; `None`
      when every interval passes. The capacity bounds of Statistics.py:34-40
      are caught and ignored by the source, so they decide nothing here. */
  method Debug(S: Solution) returns (failure: Option<Check>)
    requires Recorded(S)
    ensures failure.None? <==> forall i :: 0 <= i < S.setup.intervals ==> Balanced(S, i) && Recurs(S, i)
    ensures failure.Some? ==> failure.value.i < S.setup.intervals
    ensures failure.Some? ==> forall k :: 0 <= k < failure.value.i ==> Balanced(S, k) && Recurs(S, k)
    ensures failure.Some? ==> (failure.value.Unbalanced? <==> !Balanced(S, failure.value.i))
    ensures failure.Some? && failure.value.StorageJump? ==> !Recurs(S, failure.value.i)
  {
    var T := S.setup.intervals;
    var load, pv, india := RowSums(S.setup.MLoad), RowSums(S.GPV), RowSums(S.net.MIndia);
    var base, peaking := RowSums(S.net.MBaseload), RowSums(S.net.MPeaking);
    var discharge, charge, storage := S.sim.dischargePH, S.sim.chargePH, S.sim.storagePH;
    var deficit, spillage := S.sim.deficit, S.sim.spillage;
    var phs := S.CPHS * 1000.0;
    var i := 0;
    while i < T
      invariant i <= T
      invariant forall k :: 0 <= k < i ==> Balanced(S, k) && Recurs(S, k)
    {
      var imbalance := load[i] + charge[i] + spillage[i] - pv[i] - india[i] - base[i] - peaking[i] - discharge[i] - deficit[i];
      assert imbalance == Imbalance(S, i);
      if Abs(imbalance) > 1.0 {
        assert !Balanced(S, i);
        return Some(Unbalanced(i));
      }
      var prev := if i == 0 then 0.5 * phs else storage[i - 1];
      var drift := storage[i] - prev + discharge[i] * S.resolution - charge[i] * S.resolution * S.efficiencyPH;
      assert drift == Drift(S, i);
      if Abs(drift) > 1.0 {
        assert !Recurs(S, i);
        return Some(StorageJump(i));
      }
      assert Balanced(S, i) && Recurs(S, i);
      i := i + 1;
    }
    failure := None;
  }

  /** The recurrence check passes in every interval of a trajectory the
      reliability simulation produced from the solution's reservoir. */
  lemma RecurrenceHolds(S: Solution, netload: seq<real>)
    requires Recorded(S) && |netload| == S.setup.intervals
    requires S.sim == Simulate(ReservoirOf(S), netload)
    ensures forall i :: 0 <= i < S.setup.intervals ==> Recurs(S, i) && Drift(S, i) == 0.0
  {
    forall i | 0 <= i < S.setup.intervals
      ensures Drift(S, i) == 0.0
    {
      StorageRecurrence(ReservoirOf(S), netload, i);
    }
  }

  /** The nodal import, baseload and peaking series add up, interval by
      interval, to the pooled imports, the pooled baseload and zero. */
  predicate NodalTotals(S: Solution, imports: seq<real>)
    reads S
    requires Recorded(S) && |imports| == S.setup.intervals
  {
    forall i :: 0 <= i < S.setup.intervals ==>
      && Sum(S.net.MIndia[i]) == imports[i]
      && Sum(S.net.MBaseload[i]) == Sum(S.setup.baseload[i])
      && Sum(S.net.MPeaking[i]) == 0.0
  }

  /** The balance check passes exactly, in every interval, on the trajectory
      of a simulation with the given imports over the whole horizon, once the
      nodal series share out the pooled ones. */
  lemma BalanceHolds(S: Solution, imports: seq<real>)
    requires Recorded(S) && ReservoirOf(S).NonNegative() && |imports| == S.setup.intervals
    requires S.sim == Simulate(ReservoirOf(S), Netload(S, S.setup.baseload, imports, 0, S.setup.intervals))
    requires NodalTotals(S, imports)
    ensures forall i :: 0 <= i < S.setup.intervals ==> Balanced(S, i) && Imbalance(S, i) == 0.0
  {
    var netload := Netload(S, S.setup.baseload, imports, 0, S.setup.intervals);
    forall i | 0 <= i < S.setup.intervals
      ensures Imbalance(S, i) == 0.0
    {
      SimulateInvariants(ReservoirOf(S), netload, i);
      assert netload[i] == Sum(S.setup.MLoad[i]) - Sum(S.GPV[i]) - Sum(S.setup.baseload[i]) - imports[i];
    }
  }

  // ---------------------------------------------------------------------
  // Storage energy by node (Statistics.py:215)
  // ---------------------------------------------------------------------

  /** The pooled storage energy capacity (GWh) shared out in MWh in proportion
      to each node's storage power; `None` where the power capacities sum to
      zero and the division yields no finite number. */
  function StorageShares(CPHS: real, CPHP: seq<real>): (m: Option<seq<real>>)
    ensures m.Some? <==> Sum(CPHP) != 0.0
    ensures m.Some? ==> |m.value| == |CPHP| && Sum(m.value) == CPHS * 1000.0
    ensures m.Some? ==> forall j :: 0 <= j < |CPHP| ==> m.value[j] * Sum(CPHP) == CPHS * 1000.0 * CPHP[j]
    ensures m.Some? && CPHS >= 0.0 && (forall j :: 0 <= j < |CPHP| ==> CPHP[j] >= 0.0) ==>
      forall j :: 0 <= j < |CPHP| ==> m.value[j] >= 0.0
  {
    if Sum(CPHP) == 0.0 then None
    else
      SharesOfCapacity(CPHS * 1000.0, CPHP);
      Some(Scaled(CPHS * 1000.0 / Sum(CPHP), CPHP))
  }

  /** An amount shared in proportion to non-zero-sum weights adds back up to
      the amount, each share is its weight's fraction of it, and non-negative
      amounts and weights give non-negative shares. */
  lemma SharesOfCapacity(amount: real, w: seq<real>)
    requires Sum(w) != 0.0
    ensures var shares := Scaled(amount / Sum(w), w);
      && Sum(shares) == amount
      && (forall j :: 0 <= j < |w| ==> shares[j] * Sum(w) == amount * w[j])
      && (amount >= 0.0 && (forall j :: 0 <= j < |w| ==> w[j] >= 0.0) ==> forall j :: 0 <= j < |w| ==> shares[j] >= 0.0)
  {
    var total := Sum(w);
    var k := amount / total;
    SumScaled(k, w);
    assert k * total == amount;
    forall j | 0 <= j < |w|
      ensures k * w[j] * total == amount * w[j]
    {
      calc {
        k * w[j] * total;
        (k * total) * w[j];
        amount * w[j];
      }
    }
    if amount >= 0.0 && forall j :: 0 <= j < |w| ==> w[j] >= 0.0 {
      SumNonNegative(w);
      DivNonNegative(amount, total);
      forall j | 0 <= j < |w|
        ensures k * w[j] >= 0.0
      {
        assert k >= 0.0 && w[j] >= 0.0;
      }
    }
  }

  // ---------------------------------------------------------------------
  // Node balances rebuilt from the leg flows (Statistics.py:203, 217-227)
  // ---------------------------------------------------------------------

  /** Statistics.py:203: a row of the flow matrix read back as its ten legs. */
  function Legs(row: seq<real>): (f: Flows)
    requires |row| == |TDistances|
    ensures Columns(f) == row
  {
    Flows(row[0], row[1], row[2], row[3], row[4], row[5], row[6], row[7], row[8], row[9])
  }

  /** Statistics.py:217-227 as written: the net flow into each node of the
      full network in one interval, in the node order SP, KP, LP, GP, BP, MP,
      EP, TI, GI, MI, KI. */
  function NodeBalancesAsWritten(f: Flows): (b: seq<real>)
    ensures |b| == |Nodel0|
  {
    [ -1.0 * (f.TISP + f.SPKP),
      f.SPKP + f.KPLP,
      -1.0 * (f.GILP + f.KPLP + f.LPGP),
      f.LPGP + f.GPBP,
      -1.0 * (f.GPBP + f.BPMP),
      f.MIMP + f.BPMP + f.EPMP,
      -1.0 * (f.EPMP + f.KIEP),
      f.TISP,
      -1.0 * f.GILP,
      -1.0 * f.MIMP,
      f.KIEP ]
  }

  /** The node balances with the GI row carrying leg GI-LP with the sign that
      gives back GI's import requirement, as every other row does for its
      node. */
  function NodeBalances(f: Flows): (b: seq<real>)
    ensures |b| == |Nodel0|
  {
    [ -1.0 * (f.TISP + f.SPKP),
      f.SPKP + f.KPLP,
      -1.0 * (f.GILP + f.KPLP + f.LPGP),
      f.LPGP + f.GPBP,
      -1.0 * (f.GPBP + f.BPMP),
      f.MIMP + f.BPMP + f.EPMP,
      -1.0 * (f.EPMP + f.KIEP),
      f.TISP,
      f.GILP,
      -1.0 * f.MIMP,
      f.KIEP ]
  }

  /** The two readings differ in the GI row alone, by its sign. */
  lemma BalancesDifferAtGI(f: Flows)
    ensures forall j :: 0 <= j < |Nodel0| && j != 8 ==> NodeBalancesAsWritten(f)[j] == NodeBalances(f)[j]
    ensures NodeBalancesAsWritten(f)[8] == -NodeBalances(f)[8]
  {
  }

  /** For the full network, the corrected balances give back the import
      requirement of every node; at MP, where the two paths to leg BP-MP meet,
      they are off by the interval's total requirement, which is the gap the
      network check bounds. */
  lemma BalancesRecoverRequirement(row: seq<real>)
    requires |row| == |Nodel0|
    ensures Addressable(row, Nodel0, Nodel0)
    ensures var b := NodeBalances(LegFlows(row, Nodel0, Nodel0));
      forall j :: 0 <= j < |Nodel0| ==> b[j] == if j == 5 then row[5] - Sum(row) else row[j]
  {
    FullLegValues(row);
    SumOfEleven(row);
    BalancesOfLegs(LegFlows(row, Nodel0, Nodel0), row);
  }

  /** The node balances of leg flows solved from the requirements `row`. */
  lemma BalancesOfLegs(f: Flows, row: seq<real>)
    requires |row| == |Nodel0|
    requires f.TISP == row[7] && f.GILP == row[8] && f.KIEP == row[10] && f.MIMP == -row[9]
    requires f.SPKP == -row[0] - row[7] && f.KPLP == row[1] - f.SPKP && f.EPMP == -row[6] - row[10]
    requires f.LPGP == -row[2] - row[8] - f.KPLP && f.GPBP == row[3] - f.LPGP && f.BPMP == -row[4] - f.GPBP
    ensures var b := NodeBalances(f);
      forall j :: 0 <= j < |Nodel0| ==> b[j] == if j == 5 then f.MIMP + f.BPMP + f.EPMP else row[j]
  {
    var b := NodeBalances(f);
    forall j | 0 <= j < |Nodel0|
      ensures b[j] == if j == 5 then f.MIMP + f.BPMP + f.EPMP else row[j]
    {
      if j < 5 {
        assert b[0] == row[0] && b[1] == row[1] && b[2] == row[2] && b[3] == row[3] && b[4] == row[4];
      } else if j > 5 {
        assert b[6] == row[6] && b[7] == row[7] && b[8] == row[8] && b[9] == row[9] && b[10] == row[10];
      }
    }
  }

  /** The leg flows and the second value of leg BP-MP for the full network,
      written out in the node requirements. */
  lemma FullLegValues(row: seq<real>)
    requires |row| == |Nodel0|
    ensures Addressable(row, Nodel0, Nodel0)
    ensures var f := LegFlows(row, Nodel0, Nodel0);
      && f.TISP == row[7] && f.GILP == row[8] && f.KIEP == row[10] && f.MIMP == -row[9]
      && f.SPKP == -row[0] - row[7] && f.KPLP == row[1] - f.SPKP && f.EPMP == -row[6] - row[10]
      && f.LPGP == -row[2] - row[8] - f.KPLP && f.GPBP == row[3] - f.LPGP && f.BPMP == -row[4] - f.GPBP
      && CheckFlow(row, Nodel0, Nodel0) == row[5] - f.MIMP - f.EPMP
  {
    FullPositions(row);
    FullMembers();
  }

  /** Statistics.py:225 as written: the GI row is the negated import
      requirement of GI, so it misreports every interval in which GI needs a
      non-zero import. */
  lemma GIRowNegated(row: seq<real>)
    requires |row| == |Nodel0|
    ensures Addressable(row, Nodel0, Nodel0)
    ensures var b := NodeBalancesAsWritten(LegFlows(row, Nodel0, Nodel0));
      && b[8] == -row[8]
      && (row[8] != 0.0 ==> b[8] != row[8])
  {
    BalancesRecoverRequirement(row);
    BalancesDifferAtGI(LegFlows(row, Nodel0, Nodel0));
  }

  /** A concrete interval that shows it: GI needs 1 MW, every other node
      nothing; the written GI row reports -1 MW. */
  lemma GIRowCounterexample()
    ensures var row := [0.0, 0.0, 0.0, 0.0, 0.0, 0.0, 0.0, 0.0, 1.0, 0.0, 0.0];
      && |row| == |Nodel0| && Addressable(row, Nodel0, Nodel0)
      && NodeBalancesAsWritten(LegFlows(row, Nodel0, Nodel0))[8] == -1.0
  {
    var row := [0.0, 0.0, 0.0, 0.0, 0.0, 0.0, 0.0, 0.0, 1.0, 0.0, 0.0];
    GIRowNegated(row);
  }

  /** The node balances of every interval, one row per node and one column
      per interval. */
  function TopologyOf(tdc: seq<seq<real>>): (top: seq<seq<real>>)
    requires Rectangular(tdc, |TDistances|)
    ensures |top| == |Nodel0|
    ensures forall j :: 0 <= j < |Nodel0| ==> |top[j]| == |tdc|
    ensures forall j, t :: 0 <= j < |Nodel0| && 0 <= t < |tdc| ==> top[j][t] == NodeBalances(Legs(tdc[t]))[j]
  {
    seq(|Nodel0|, j requires 0 <= j < |Nodel0| =>
      seq(|tdc|, t requires 0 <= t < |tdc| => NodeBalances(Legs(tdc[t]))[j]))
  }

  /** A successful network call over the full network yields the leg flows of
      the requirement matrix, with every interval's gap within the tolerance. */
  lemma FullFlows(n: Inputs)
    requires n.Valid() && n.setup.Nodel == Nodel0 && n.setup.coverage == Nodel0
    requires FlowMatrix(n, true).Success?
    ensures var m := Requirement(n.setup.MLoad, Split(n), n.setup.nodes);
      && Lookup(m, Nodel0, Nodel0, n.setup.nodes)
      && FlowMatrix(n, true).value == FlowRows(m, Nodel0, Nodel0, n.setup.nodes)
      && forall t :: 0 <= t < |m| ==> Gap(m[t], Nodel0, Nodel0) <= FlowTolerance
  {
    FullMembers();
    var m := Requirement(n.setup.MLoad, Split(n), n.setup.nodes);
    var gaps := Gaps(m, Nodel0, Nodel0, n.setup.nodes);
    assert |Nodel0| > 1;
    assert Largest(gaps) <= FlowTolerance;
    forall t | 0 <= t < |m|
      ensures Gap(m[t], Nodel0, Nodel0) <= FlowTolerance
    {
      assert gaps[t] <= Largest(gaps);
    }
  }

  /** The corrected topology of the leg flows of a requirement matrix of the
      full network: each node's own requirement, except at MP. */
  lemma TopologyOfRows(m: seq<seq<real>>)
    requires Lookup(m, Nodel0, Nodel0, |Nodel0|)
    ensures var top := TopologyOf(FlowRows(m, Nodel0, Nodel0, |Nodel0|));
      forall t, j :: 0 <= t < |m| && 0 <= j < |Nodel0| && j != 5 ==> top[j][t] == m[t][j]
  {
    var tdc := FlowRows(m, Nodel0, Nodel0, |Nodel0|);
    var top := TopologyOf(tdc);
    forall t | 0 <= t < |m|
      ensures forall j :: 0 <= j < |Nodel0| && j != 5 ==> top[j][t] == m[t][j]
    {
      RowBalances(m, t);
    }
  }

  /** At MP, where the two paths to leg BP-MP meet, the corrected topology is
      MP's requirement less the interval's total requirement. */
  lemma TopologyAtMP(m: seq<seq<real>>, t: nat)
    requires Lookup(m, Nodel0, Nodel0, |Nodel0|) && t < |m|
    ensures var top := TopologyOf(FlowRows(m, Nodel0, Nodel0, |Nodel0|));
      top[5][t] == m[t][5] - Sum(m[t])
  {
    RowBalances(m, t);
  }

  /** Where the network check passed, the corrected topology at MP is within
      the check's tolerance of MP's requirement in every interval. */
  lemma TopologyNearMP(m: seq<seq<real>>)
    requires Lookup(m, Nodel0, Nodel0, |Nodel0|)
    requires forall t :: 0 <= t < |m| ==> Gap(m[t], Nodel0, Nodel0) <= FlowTolerance
    ensures var top := TopologyOf(FlowRows(m, Nodel0, Nodel0, |Nodel0|));
      forall t :: 0 <= t < |m| ==> Abs(top[5][t] - m[t][5]) <= FlowTolerance
  {
    forall t | 0 <= t < |m|
      ensures Abs(TopologyOf(FlowRows(m, Nodel0, Nodel0, |Nodel0|))[5][t] - m[t][5]) <= FlowTolerance
    {
      TopologyAtMP(m, t);
      FullGap(m[t]);
    }
  }

  /** The corrected balances of interval `t` of the flow matrix. */
  lemma RowBalances(m: seq<seq<real>>, t: nat)
    requires Lookup(m, Nodel0, Nodel0, |Nodel0|) && t < |m|
    ensures Rectangular(FlowRows(m, Nodel0, Nodel0, |Nodel0|), |TDistances|)
    ensures var b := NodeBalances(Legs(FlowRows(m, Nodel0, Nodel0, |Nodel0|)[t]));
      forall j :: 0 <= j < |Nodel0| ==> b[j] == if j == 5 then m[t][5] - Sum(m[t]) else m[t][j]
  {
    ColumnBalances(m[t]);
  }

  /** The corrected balances of a flow-matrix row solved from the
      requirements `row` of the full network. */
  lemma ColumnBalances(row: seq<real>)
    requires |row| == |Nodel0|
    ensures Addressable(row, Nodel0, Nodel0)
    ensures var b := NodeBalances(Legs(Columns(LegFlows(row, Nodel0, Nodel0))));
      forall j :: 0 <= j < |Nodel0| ==> b[j] == if j == 5 then row[5] - Sum(row) else row[j]
  {
    BalancesRecoverRequirement(row);
    LegsOfColumns(LegFlows(row, Nodel0, Nodel0));
  }

  /** Reading a row of the flow matrix back as legs gives the legs it was
      written from. */
  lemma LegsOfColumns(f: Flows)
    ensures Legs(Columns(f)) == f
  {
  }

  // ---------------------------------------------------------------------
  // Information (Statistics.py:187-234)
  // ---------------------------------------------------------------------

  /** Why `Information` stops: the simulation is rejected by its closing
      assertions, or the network call aborts. */
  datatype Abort = Rejected(v: Violation) | Inconsistent(f: Network.Fault)

  /** Statistics.py:187-234 without the report writers. Builds the solution,
      simulates the whole horizon with the dispatched imports `flexible`,
      calls the network model in domestic-only mode writing the nodal series,
      and writes the flow matrix, the leg capacities, the storage energy by
      node and the node balances onto the solution. The deficit check of
      Statistics.py:195-198 is caught and ignored by the source, so it
      decides nothing here. */
  method Information(x: seq<real>, setup: Setup, flexible: seq<real>) returns (abort: Option<Abort>, S: Solution)
    requires setup.Shaped() && |x| == IIdx(setup) && |flexible| == setup.intervals
    ensures fresh(S) && S.Configured() && S.x == x && S.setup == setup && S.indiaImports == flexible
    ensures var trial := Trial(S, setup.baseload, flexible, 0, setup.intervals);
      trial.Failure? ==> abort == Some(Rejected(trial.error))
    ensures var trial := Trial(S, setup.baseload, flexible, 0, setup.intervals);
      trial.Success? ==> S.sim == trial.value && InputsOf(S).Valid()
    ensures abort.None? || abort.value.Inconsistent? ==> InputsOf(S).Valid()
    ensures abort.None? || abort.value.Inconsistent? ==> S.sim == Trial(S, setup.baseload, flexible, 0, setup.intervals).value
    ensures abort.Some? && abort.value.Inconsistent? ==> FlowMatrix(InputsOf(S), true) == Failure(abort.value.f)
    ensures abort.None? ==> FlowMatrix(InputsOf(S), true) == Success(S.TDC)
    ensures abort.None? ==> Recorded(S) && S.net == Split(InputsOf(S))
    ensures abort.None? ==> Rectangular(S.TDC, |TDistances|) && |S.TDC| == setup.intervals
    ensures abort.None? ==> S.CAC == Optimisation.LegCapacities(S.TDC, |TDistances|)
    ensures abort.None? ==> S.MPHS == StorageShares(S.CPHS, S.CPHP)
    ensures abort.None? ==> S.Topology == TopologyOf(S.TDC)
  {
    S := new Solution(x, setup);
    Optimisation.DecodedInterconnections(x, setup);
    var T := setup.intervals;
    var outcome := Reliability(S, setup.baseload, flexible, 0, T);
    if outcome.Failure? {
      return Some(Rejected(outcome.error)), S;
    }
    var flows := Transmission(S, true, true);
    if flows.Failure? {
      return Some(Abort.Inconsistent(flows.error)), S;
    }
    Optimisation.FlowShape(InputsOf(S));
    Record(S, flows.value);
    abort := None;
  }

  /** Statistics.py:200-227 after the network call: the flow matrix and what
      is derived from it, written onto the solution. */
  method Record(S: Solution, tdc: seq<seq<real>>)
    requires S.Configured() && |tdc| == S.setup.intervals && Rectangular(tdc, |TDistances|)
    modifies S
    ensures S.sim == old(S.sim) && S.net == old(S.net) && S.indiaImports == old(S.indiaImports)
    ensures S.TDC == tdc
    ensures S.CAC == Optimisation.LegCapacities(tdc, |TDistances|)
    ensures S.MPHS == StorageShares(S.CPHS, S.CPHP)
    ensures S.Topology == TopologyOf(tdc)
  {
    S.TDC := tdc;
    S.CAC := Optimisation.LegCapacities(tdc, |TDistances|);
    S.MPHS := StorageShares(S.CPHS, S.CPHP);
    S.Topology := TopologyOf(tdc);
  }
}
