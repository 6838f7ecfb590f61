/** The network model (Network.py): the pooled quantities of a simulation
    shared out to the nodes, each node's import requirement (its demand,
    charging and spillage less everything supplied at the node), and the flows
    on the ten legs of the fixed radial backbone, found by substitution from
    the border nodes inwards. The junction BP-MP is reached by two paths, and
    the two values must agree within 0.1 MW in every interval. */
module Network {
  import opened Series
  import opened Input

  /** Each node's solar output is raised by 1e-9 MW before spillage is shared,
      so that spillage can be shared when no solar is generated (Network.py:31). */
  const MinFactor: real := 0.000000001

  /** The largest disagreement the redundant-path check accepts, in MW. */
  const FlowTolerance: real := 0.1

  /** The ways `Transmission` is aborted: `MImport` used without being bound
      (only the domestic-only branch binds it), a row of zero total demand
      whose non-finite deficit shares reach the redundant-path check, and that
      check failing, with the largest disagreement. */
  datatype Fault = ImportUnbound | ZeroDemand(t: nat) | Inconsistent(gap: real)

  // ---------------------------------------------------------------------
  // Proportional shares (Network.py:15, 28-47)
  // ---------------------------------------------------------------------

  /** `w / sum(w)`, or all zeros when the weights sum to zero. */
  function Proportions(w: seq<real>): (f: seq<real>)
    ensures |f| == |w|
  {
    if Sum(w) != 0.0 then Scaled(1.0 / Sum(w), w) else Zeros(|w|)
  }

  /** Shares of an amount by weight add back up to the amount, unless the
      weights sum to zero, when every share is zero. */
  lemma SharesSum(amount: real, w: seq<real>)
    ensures Sum(Scaled(amount, Proportions(w))) == (if Sum(w) != 0.0 then amount else 0.0)
    ensures Sum(w) == 0.0 ==> forall j :: 0 <= j < |w| ==> Scaled(amount, Proportions(w))[j] == 0.0
  {
    SumScaled(amount, Proportions(w));
    if Sum(w) != 0.0 {
      SumScaled(1.0 / Sum(w), w);
    } else {
      SumZeros(|w|);
    }
  }

  /** Network.py:31-33: spillage weights, each node's solar plus `MinFactor`. */
  function SpillageWeights(pv: seq<real>): (w: seq<real>)
    ensures |w| == |pv| && forall j :: 0 <= j < |pv| ==> w[j] == pv[j] + MinFactor
    ensures forall j :: 0 <= j < |pv| && pv[j] >= 0.0 ==> w[j] > 0.0
    ensures forall j :: 0 <= j < |pv| ==> w[j] > pv[j]
  {
    seq(|pv|, j requires 0 <= j < |pv| => pv[j] + MinFactor)
  }

  /** With non-negative solar output at one node at least, the spillage shares
      are defined and add up to the spillage, even when no solar is generated. */
  lemma SpillageSharesSum(spilled: real, pv: seq<real>)
    requires |pv| > 0 && forall j :: 0 <= j < |pv| ==> pv[j] >= 0.0
    ensures Sum(SpillageWeights(pv)) > 0.0
    ensures Sum(Scaled(spilled, Proportions(SpillageWeights(pv)))) == spilled
  {
    SumPositive(SpillageWeights(pv));
    SharesSum(spilled, SpillageWeights(pv));
  }

  lemma {:induction false} SumPositive(s: seq<real>)
    requires |s| > 0 && forall j :: 0 <= j < |s| ==> s[j] > 0.0
    ensures Sum(s) > 0.0
    decreases |s|
  {
    if |s| > 1 {
      SumPositive(s[..|s| - 1]);
    } else {
      assert s[..0] == [];
    }
  }

  /** Network.py:36: the interconnection capacities, padded with zeros in
      front to one entry per node. */
  function ImportCapacity(CInter: seq<real>, nodes: nat): (c: seq<real>)
    requires |CInter| <= nodes
    ensures |c| == nodes
    ensures forall j :: 0 <= j < nodes - |CInter| ==> c[j] == 0.0
    ensures forall k :: 0 <= k < |CInter| ==> c[nodes - |CInter| + k] == CInter[k]
  {
    Zeros(nodes - |CInter|) + CInter
  }

  /** Network.py:43-46: import factors; when the capacities sum to zero the
      capacities themselves are the factors. */
  function ImportFactors(c: seq<real>): (f: seq<real>)
    ensures |f| == |c|
  {
    if Sum(c) == 0.0 then c else Scaled(1.0 / Sum(c), c)
  }

  /** The import shares add up to the imports when the capacities do not sum to
      zero, and to zero otherwise; with non-negative capacities summing to zero
      every share is zero. */
  lemma ImportSharesSum(imports: real, c: seq<real>)
    ensures Sum(Scaled(imports, ImportFactors(c))) == (if Sum(c) != 0.0 then imports else 0.0)
  {
    SumScaled(imports, ImportFactors(c));
    if Sum(c) != 0.0 {
      SumScaled(1.0 / Sum(c), c);
    }
  }

  /** With non-negative capacities summing to zero no node receives imports. */
  lemma NoCapacityNoImports(imports: real, c: seq<real>)
    requires Sum(c) == 0.0 && forall j :: 0 <= j < |c| ==> c[j] >= 0.0
    ensures forall j :: 0 <= j < |c| ==> Scaled(imports, ImportFactors(c))[j] == 0.0
  {
    SumZeroNonNegative(c);
  }

  /** Non-negative values that sum to zero are all zero. */
  lemma {:induction false} SumZeroNonNegative(s: seq<real>)
    requires forall j :: 0 <= j < |s| ==> s[j] >= 0.0
    requires Sum(s) == 0.0
    ensures forall j :: 0 <= j < |s| ==> s[j] == 0.0
    decreases |s|
  {
    if s != [] {
      var n := |s| - 1;
      SumNonNegative(s[..n]);
      SumZeroNonNegative(s[..n]);
      assert forall j :: 0 <= j < n ==> s[j] == s[..n][j];
    }
  }

  // ---------------------------------------------------------------------
  // Aggregation of zones and sites to nodes (Network.py:14-24)
  // ---------------------------------------------------------------------

  /** The total of the entries of `row` whose key is `name`:
      `row[np.where(keys == name)[0]].sum()`. */
  function GroupSum(keys: seq<string>, row: seq<real>, name: string): real
    requires |keys| <= |row|
    decreases |keys|
  {
    if keys == [] then 0.0
    else GroupSum(keys[..|keys| - 1], row, name) + (if keys[|keys| - 1] == name then row[|keys| - 1] else 0.0)
  }

  /** The interval-by-node matrix whose node `i` holds the group of `nodel[i]`,
      and zero for the nodes past the end of `nodel`. */
  function Grouped(nodel: seq<string>, keys: seq<string>, m: seq<seq<real>>, nodes: nat): (g: seq<seq<real>>)
    requires |nodel| <= nodes && forall t :: 0 <= t < |m| ==> |keys| <= |m[t]|
    ensures |g| == |m| && Rectangular(g, nodes)
  {
    seq(|m|, t requires 0 <= t < |m| =>
      seq(nodes, i requires 0 <= i < nodes => if i < |nodel| then GroupSum(keys, m[t], nodel[i]) else 0.0))
  }

  /** Network.py:18-24: a node-by-interval zero matrix whose rows are filled
      node by node, then transposed. */
  method NodalRows(nodel: seq<string>, keys: seq<string>, m: seq<seq<real>>, nodes: nat) returns (g: seq<seq<real>>)
    requires |nodel| <= nodes && forall t :: 0 <= t < |m| ==> |keys| <= |m[t]|
    ensures g == Grouped(nodel, keys, m, nodes)
  {
    var intervals := |m|;
    var rows := new real[nodes, intervals];
    for i := 0 to nodes
      invariant forall u, t :: 0 <= u < i && 0 <= t < intervals ==>
        rows[u, t] == if u < |nodel| then GroupSum(keys, m[t], nodel[u]) else 0.0
    {
      for t := 0 to intervals
        invariant forall u, t' :: 0 <= u < i && 0 <= t' < intervals ==>
          rows[u, t'] == if u < |nodel| then GroupSum(keys, m[t'], nodel[u]) else 0.0
        invariant forall t' :: 0 <= t' < t ==>
          rows[i, t'] == if i < |nodel| then GroupSum(keys, m[t'], nodel[i]) else 0.0
      {
        rows[i, t] := if i < |nodel| then GroupSum(keys, m[t], nodel[i]) else 0.0;
      }
    }
    g := seq(intervals, t requires 0 <= t < intervals reads rows =>
      seq(nodes, i requires 0 <= i < nodes reads rows => rows[i, t]));
    forall t | 0 <= t < intervals
      ensures g[t] == Grouped(nodel, keys, m, nodes)[t]
    {
      assert forall i :: 0 <= i < nodes ==> g[t][i] == rows[i, t];
    }
  }

  /** Network.py:15-16: peaking discharge shared over the hydro sites by
      peaking capacity. */
  function PeakingBySite(dischargePeaking: seq<real>, CHydroPeaking: seq<real>): (m: seq<seq<real>>)
    ensures |m| == |dischargePeaking| && Rectangular(m, |CHydroPeaking|)
  {
    seq(|dischargePeaking|, t requires 0 <= t < |dischargePeaking| =>
      Scaled(dischargePeaking[t], Proportions(CHydroPeaking)))
  }

  // ---------------------------------------------------------------------
  // Nodal series and import requirement (Network.py:26-90)
  // ---------------------------------------------------------------------

  /** What the network model reads from a solution after a simulation. */
  datatype Inputs = Inputs(
    setup: Setup,
    GPV: seq<seq<real>>,
    CPHP: seq<real>,
    CInter: seq<real>,
    sim: Trajectory,
    imports: seq<real>)
  {
    predicate Valid()
    {
      && setup.Shaped()
      && |GPV| == setup.intervals && Rectangular(GPV, setup.pzones)
      && |CPHP| == setup.nodes
      && |CInter| <= setup.nodes
      && sim.Spans(setup.intervals)
      && |imports| == setup.intervals
    }
  }

  /** Each interval's amount shared by one fixed factor per node. */
  function Shared(amounts: seq<real>, factor: seq<real>): (m: seq<seq<real>>)
    ensures Matrix(m, |amounts|, |factor|)
    ensures forall t :: 0 <= t < |amounts| ==> m[t] == Scaled(amounts[t], factor)
  {
    seq(|amounts|, t requires 0 <= t < |amounts| => Scaled(amounts[t], factor))
  }

  /** Each interval's amount shared in proportion to that interval's weights. */
  function SharedBy(amounts: seq<real>, weights: seq<seq<real>>, nodes: nat): (m: seq<seq<real>>)
    requires Matrix(weights, |amounts|, nodes)
    ensures Matrix(m, |amounts|, nodes)
    ensures forall t :: 0 <= t < |amounts| ==> m[t] == Scaled(amounts[t], Proportions(weights[t]))
  {
    seq(|amounts|, t requires 0 <= t < |amounts| => Scaled(amounts[t], Proportions(weights[t])))
  }

  /** Each interval's row of `Shared` adds up to the amount times the total factor. */
  lemma SharedConserves(amounts: seq<real>, factor: seq<real>)
    ensures forall t :: 0 <= t < |amounts| ==> Sum(Shared(amounts, factor)[t]) == amounts[t] * Sum(factor)
  {
    forall t | 0 <= t < |amounts|
      ensures Sum(Shared(amounts, factor)[t]) == amounts[t] * Sum(factor)
    {
      SumScaled(amounts[t], factor);
    }
  }

  /** Each interval's row of `SharedBy` adds up to that interval's amount, or to
      zero when its weights sum to zero. */
  lemma SharedByConserves(amounts: seq<real>, weights: seq<seq<real>>, nodes: nat)
    requires Matrix(weights, |amounts|, nodes)
    ensures forall t :: 0 <= t < |amounts| ==>
      Sum(SharedBy(amounts, weights, nodes)[t]) == (if Sum(weights[t]) != 0.0 then amounts[t] else 0.0)
  {
    forall t | 0 <= t < |amounts|
      ensures Sum(SharedBy(amounts, weights, nodes)[t]) == (if Sum(weights[t]) != 0.0 then amounts[t] else 0.0)
    {
      SharesSum(amounts[t], weights[t]);
    }
  }

  /** Network.py:31-33: the spillage weights of every interval. */
  function SpillageMatrix(pv: seq<seq<real>>, nodes: nat): (w: seq<seq<real>>)
    requires Rectangular(pv, nodes)
    ensures Matrix(w, |pv|, nodes)
    ensures forall t :: 0 <= t < |pv| ==> w[t] == SpillageWeights(pv[t])
  {
    seq(|pv|, t requires 0 <= t < |pv| => SpillageWeights(pv[t]))
  }

  /** Every pooled series shared out to the nodes, interval by interval. */
  function Split(n: Inputs): (ns: NodalSeries)
    requires n.Valid()
    ensures ns.Spans(n.setup.intervals, n.setup.nodes)
  {
    var s := n.setup;
    var pv := Grouped(s.Nodel, s.PVl, n.GPV, s.nodes);
    var pcfactor := Proportions(n.CPHP);
    NodalSeries(
      pv,
      Shared(n.imports, ImportFactors(ImportCapacity(n.CInter, s.nodes))),
      Grouped(s.Nodel, Hydrol, s.baseload, s.nodes),
      Grouped(s.Nodel, Hydrol, PeakingBySite(n.sim.dischargePeaking, s.CHydroPeaking), s.nodes),
      Shared(n.sim.dischargePH, pcfactor),
      Shared(n.sim.chargePH, pcfactor),
      Shared(n.sim.storagePH, pcfactor),
      SharedBy(n.sim.deficit, s.MLoad, s.nodes),
      SharedBy(n.sim.spillage, SpillageMatrix(pv, s.nodes), s.nodes))
  }

  /** Network.py:89-90: each node's import requirement, demand plus charging
      plus spillage less solar, imports, baseload, peaking, discharge and
      deficit. */
  function Requirement(load: seq<seq<real>>, ns: NodalSeries, nodes: nat): (m: seq<seq<real>>)
    requires Rectangular(load, nodes) && ns.Spans(|load|, nodes)
    ensures Matrix(m, |load|, nodes)
  {
    seq(|load|, t requires 0 <= t < |load| =>
      seq(nodes, j requires 0 <= j < nodes =>
        load[t][j] + ns.MChargePH[t][j] + ns.MSpillage[t][j]
        - ns.MPV[t][j] - ns.MIndia[t][j] - ns.MBaseload[t][j] - ns.MPeaking[t][j]
        - ns.MDischargePH[t][j] - ns.MDeficit[t][j]))
  }

  // ---------------------------------------------------------------------
  // Leg flows (Network.py:95-122)
  // ---------------------------------------------------------------------

  /** The flows of one interval on the ten legs. */
  datatype Flows = Flows(
    SPKP: real, KPLP: real, LPGP: real, GPBP: real, BPMP: real,
    EPMP: real, TISP: real, GILP: real, MIMP: real, KIEP: real)

  /** A row of the flow matrix, in the column order of Network.py:120. */
  function Columns(f: Flows): (r: seq<real>)
    ensures |r| == |TDistances|
  {
    [f.SPKP, f.KPLP, f.LPGP, f.GPBP, f.BPMP, f.EPMP, f.TISP, f.GILP, f.MIMP, f.KIEP]
  }

  /** The position of the first occurrence of `x` (`np.where(xs == x)[0][0]`). */
  function IndexOf(xs: seq<string>, x: string): (i: nat)
    requires x in xs
    ensures i < |xs| && xs[i] == x
    ensures forall k :: 0 <= k < i ==> xs[k] != x
  {
    if xs[0] == x then 0 else 1 + IndexOf(xs[1..], x)
  }

  /** Every covered node can be looked up in a row of the requirement matrix. */
  predicate Addressable(row: seq<real>, nodel: seq<string>, coverage: seq<string>)
  {
    |nodel| <= |row| && forall name :: name in coverage ==> name in nodel
  }

  /** The requirement of a covered node. */
  function At(row: seq<real>, nodel: seq<string>, name: string): real
    requires name in nodel && |nodel| <= |row|
  {
    row[IndexOf(nodel, name)]
  }

  /** Network.py:101-115: the legs from the border nodes inwards, each leg zero
      when the node it is solved at is not covered. */
  function LegFlows(row: seq<real>, nodel: seq<string>, coverage: seq<string>): Flows
    requires Addressable(row, nodel, coverage)
  {
    var TISP := if "TI" in coverage then At(row, nodel, "TI") else 0.0;
    var GILP := if "GI" in coverage then At(row, nodel, "GI") else 0.0;
    var KIEP := if "KI" in coverage then At(row, nodel, "KI") else 0.0;
    var MIMP := if "MI" in coverage then -1.0 * At(row, nodel, "MI") else 0.0;
    var SPKP := if "SP" in coverage then -1.0 * At(row, nodel, "SP") - TISP else 0.0;
    var KPLP := if "KP" in coverage then At(row, nodel, "KP") - SPKP else 0.0;
    var EPMP := if "EP" in coverage then -1.0 * At(row, nodel, "EP") - KIEP else 0.0;
    var LPGP := if "LP" in coverage then -1.0 * At(row, nodel, "LP") - GILP - KPLP else 0.0;
    var GPBP := if "GP" in coverage then At(row, nodel, "GP") - LPGP else 0.0;
    var BPMP := if "BP" in coverage then -1.0 * At(row, nodel, "BP") - GPBP else 0.0;
    Flows(SPKP, KPLP, LPGP, GPBP, BPMP, EPMP, TISP, GILP, MIMP, KIEP)
  }

  /** Network.py:118: leg BP-MP solved a second time, from MP's side. */
  function CheckFlow(row: seq<real>, nodel: seq<string>, coverage: seq<string>): real
    requires Addressable(row, nodel, coverage)
  {
    var f := LegFlows(row, nodel, coverage);
    if "MP" in coverage then At(row, nodel, "MP") - f.MIMP - f.EPMP else 0.0
  }

  /** The disagreement of the two paths to BP-MP in one interval. */
  function Gap(row: seq<real>, nodel: seq<string>, coverage: seq<string>): real
    requires Addressable(row, nodel, coverage)
  {
    Abs(LegFlows(row, nodel, coverage).BPMP - CheckFlow(row, nodel, coverage))
  }

  /** Network.py:8-122: the flow matrix, one row per interval and one column
      per leg, or the fault that aborts the call. */
  function FlowMatrix(n: Inputs, domesticOnly: bool): (r: Result<seq<seq<real>>, Fault>)
    requires n.Valid()
  {
    var s := n.setup;
    if |s.coverage| <= 1 then Success(seq(s.intervals, _ => Zeros(|s.TLoss|)))
    else if !domesticOnly then Failure(ImportUnbound)
    else if Reaches(s.coverage) && exists t :: 0 <= t < s.intervals && Sum(s.MLoad[t]) == 0.0 then
      Failure(ZeroDemand(FirstZeroDemand(s.MLoad)))
    else
      var m := Requirement(s.MLoad, Split(n), s.nodes);
      var gaps := Gaps(m, s.Nodel, s.coverage, s.nodes);
      if Largest(gaps) > FlowTolerance then Failure(Inconsistent(Largest(gaps)))
      else Success(FlowRows(m, s.Nodel, s.coverage, s.nodes))
  }

  /** Every covered node can be looked up in every row of a requirement matrix. */
  predicate Lookup(m: seq<seq<real>>, nodel: seq<string>, coverage: seq<string>, nodes: nat)
  {
    Rectangular(m, nodes) && |nodel| <= nodes && forall name :: name in coverage ==> name in nodel
  }

  /** The disagreement of the two paths in every interval. */
  function Gaps(m: seq<seq<real>>, nodel: seq<string>, coverage: seq<string>, nodes: nat): (g: seq<real>)
    requires Lookup(m, nodel, coverage, nodes)
    ensures |g| == |m| && forall t :: 0 <= t < |m| ==> g[t] == Gap(m[t], nodel, coverage)
  {
    seq(|m|, t requires 0 <= t < |m| => Gap(m[t], nodel, coverage))
  }

  /** The flow matrix, one row of leg flows per interval. */
  function FlowRows(m: seq<seq<real>>, nodel: seq<string>, coverage: seq<string>, nodes: nat): (f: seq<seq<real>>)
    requires Lookup(m, nodel, coverage, nodes)
    ensures Matrix(f, |m|, |TDistances|)
    ensures forall t :: 0 <= t < |m| ==> f[t] == Columns(LegFlows(m[t], nodel, coverage))
  {
    seq(|m|, t requires 0 <= t < |m| => Columns(LegFlows(m[t], nodel, coverage)))
  }

  /** Whether the redundant-path check reads a node requirement at all: with
      neither BP nor MP covered both values of leg BP-MP are zero. A row of
      zero total demand makes its requirements non-finite, and the check then
      fails exactly when it reads them. */
  predicate Reaches(coverage: seq<string>)
  {
    "BP" in coverage || "MP" in coverage
  }

  /** The first interval whose demand sums to zero. */
  function FirstZeroDemand(load: seq<seq<real>>): (t: nat)
    requires exists t :: 0 <= t < |load| && Sum(load[t]) == 0.0
    ensures t < |load| && Sum(load[t]) == 0.0
    ensures forall u :: 0 <= u < t ==> Sum(load[u]) != 0.0
  {
    if Sum(load[0]) == 0.0 then 0
    else
      assert exists t :: 0 <= t < |load[1..]| && Sum(load[1..][t]) == 0.0 by {
        var t :| 0 <= t < |load| && Sum(load[t]) == 0.0;
        assert load[1..][t - 1] == load[t];
      }
      1 + FirstZeroDemand(load[1..])
  }

  // ---------------------------------------------------------------------
  // The network call over a solution
  // ---------------------------------------------------------------------

  /** What a solution holds for the network model. */
  function InputsOf(s: Solution): Inputs
    reads s
  {
    Inputs(s.setup, s.GPV, s.CPHP, s.CInter, s.sim, s.indiaImports)
  }

  /** Network.py:8-129. Computes the flow matrix from the solution's last
      simulation and, when `output` is set and the call succeeds, writes the
      nodal series onto the solution. */
  method Transmission(solution: Solution, domesticOnly: bool, output: bool)
    returns (result: Result<seq<seq<real>>, Fault>)
    requires InputsOf(solution).Valid()
    modifies solution
    ensures solution.sim == old(solution.sim) && solution.indiaImports == old(solution.indiaImports)
    ensures result == FlowMatrix(InputsOf(solution), domesticOnly)
    ensures solution.TDC == old(solution.TDC) && solution.CAC == old(solution.CAC)
    ensures solution.MPHS == old(solution.MPHS) && solution.Topology == old(solution.Topology)
    ensures solution.net == if output && result.Success? then Split(InputsOf(solution)) else old(solution.net)
  {
    var n := InputsOf(solution);
    var s := solution.setup;
    var T := s.intervals;
    var MPV := NodalRows(s.Nodel, s.PVl, solution.GPV, s.nodes);
    var MBaseload := NodalRows(s.Nodel, Hydrol, s.baseload, s.nodes);
    var MPeaking := NodalRows(s.Nodel, Hydrol, PeakingBySite(solution.sim.dischargePeaking, s.CHydroPeaking), s.nodes);
    var ns := Split(n);
    assert ns.MPV == MPV && ns.MBaseload == MBaseload && ns.MPeaking == MPeaking;
    var MImport := Requirement(s.MLoad, ns, s.nodes);

    if |s.coverage| <= 1 {
      result := Success(seq(T, _ => Zeros(|s.TLoss|)));
    } else if !domesticOnly {
      return Failure(ImportUnbound);
    } else if Reaches(s.coverage) && exists t :: 0 <= t < T && Sum(s.MLoad[t]) == 0.0 {
      return Failure(ZeroDemand(FirstZeroDemand(s.MLoad)));
    } else {
      var gaps := Gaps(MImport, s.Nodel, s.coverage, s.nodes);
      if Largest(gaps) > FlowTolerance {
        return Failure(Inconsistent(Largest(gaps)));
      }
      result := Success(FlowRows(MImport, s.Nodel, s.coverage, s.nodes));
    }
    if output {
      solution.net := ns;
    }
  }

  // ---------------------------------------------------------------------
  // Properties of the leg flows
  // ---------------------------------------------------------------------

  /** Network.py:101-104: each terminal leg carries its border node's import
      requirement, TI-SP, GI-LP and KI-EP with sign +, MI-MP with sign -. */
  lemma TerminalLegs(row: seq<real>, nodel: seq<string>, coverage: seq<string>)
    requires Addressable(row, nodel, coverage)
    requires "TI" in coverage && "GI" in coverage && "KI" in coverage && "MI" in coverage
    ensures var f := LegFlows(row, nodel, coverage);
      && f.TISP == At(row, nodel, "TI") && f.GILP == At(row, nodel, "GI")
      && f.KIEP == At(row, nodel, "KI") && f.MIMP == -At(row, nodel, "MI")
  {
  }

  /** The requirement of each node of the full network sits at the node's
      own position. */
  lemma FullPositions(row: seq<real>)
    requires |row| == |Nodel0|
    ensures Addressable(row, Nodel0, Nodel0)
    ensures At(row, Nodel0, "SP") == row[0] && At(row, Nodel0, "KP") == row[1]
    ensures At(row, Nodel0, "LP") == row[2] && At(row, Nodel0, "GP") == row[3]
    ensures At(row, Nodel0, "BP") == row[4] && At(row, Nodel0, "MP") == row[5]
    ensures At(row, Nodel0, "EP") == row[6] && At(row, Nodel0, "TI") == row[7]
    ensures At(row, Nodel0, "GI") == row[8] && At(row, Nodel0, "MI") == row[9]
    ensures At(row, Nodel0, "KI") == row[10]
  {
    FullIndices();
  }

  /** The positions of the node names in the full list. */
  lemma FullIndices()
    ensures IndexOf(Nodel0, "SP") == 0 && IndexOf(Nodel0, "KP") == 1 && IndexOf(Nodel0, "LP") == 2
    ensures IndexOf(Nodel0, "GP") == 3 && IndexOf(Nodel0, "BP") == 4 && IndexOf(Nodel0, "MP") == 5
    ensures IndexOf(Nodel0, "EP") == 6 && IndexOf(Nodel0, "TI") == 7 && IndexOf(Nodel0, "GI") == 8
    ensures IndexOf(Nodel0, "MI") == 9 && IndexOf(Nodel0, "KI") == 10
  {
    FullDistinct();
    DistinctIndex(Nodel0, 0); DistinctIndex(Nodel0, 1); DistinctIndex(Nodel0, 2);
    DistinctIndex(Nodel0, 3); DistinctIndex(Nodel0, 4); DistinctIndex(Nodel0, 5);
    DistinctIndex(Nodel0, 6); DistinctIndex(Nodel0, 7); DistinctIndex(Nodel0, 8);
    DistinctIndex(Nodel0, 9); DistinctIndex(Nodel0, 10);
  }

  lemma FullDistinct()
    ensures forall i, j :: 0 <= i < j < |Nodel0| ==> Nodel0[i] != Nodel0[j]
  {
  }

  /** In a list without repetitions each entry is found at its own position. */
  lemma DistinctIndex(xs: seq<string>, k: nat)
    requires k < |xs| && forall i, j :: 0 <= i < j < |xs| ==> xs[i] != xs[j]
    ensures IndexOf(xs, xs[k]) == k
  {
  }

  /** With the full network, the two values for leg BP-MP differ by exactly
      the total import requirement over all nodes: the substitution accounts
      for every node once. */
  lemma PathsDiffer(row: seq<real>)
    requires |row| == |Nodel0|
    ensures Addressable(row, Nodel0, Nodel0)
    ensures LegFlows(row, Nodel0, Nodel0).BPMP - CheckFlow(row, Nodel0, Nodel0) == -Sum(row)
  {
    FullLegs(row);
    SumOfEleven(row);
  }

  /** The leg flows of the full network in terms of the node requirements. */
  lemma FullLegs(row: seq<real>)
    requires |row| == |Nodel0|
    ensures Addressable(row, Nodel0, Nodel0)
    ensures LegFlows(row, Nodel0, Nodel0).BPMP ==
      -row[4] - (row[3] - (-row[2] - row[8] - (row[1] - (-row[0] - row[7]))))
    ensures CheckFlow(row, Nodel0, Nodel0) == row[5] - (-row[9]) - (-row[6] - row[10])
  {
    FullPositions(row);
    FullMembers();
  }

  lemma FullMembers()
    ensures "SP" in Nodel0 && "KP" in Nodel0 && "LP" in Nodel0 && "GP" in Nodel0
    ensures "BP" in Nodel0 && "MP" in Nodel0 && "EP" in Nodel0 && "TI" in Nodel0
    ensures "GI" in Nodel0 && "MI" in Nodel0 && "KI" in Nodel0
  {
    assert Nodel0[0] == "SP" && Nodel0[1] == "KP" && Nodel0[2] == "LP" && Nodel0[3] == "GP";
    assert Nodel0[4] == "BP" && Nodel0[5] == "MP" && Nodel0[6] == "EP" && Nodel0[7] == "TI";
    assert Nodel0[8] == "GI" && Nodel0[9] == "MI" && Nodel0[10] == "KI";
  }

  /** The sum of an eleven-entry row, written out. */
  lemma SumOfEleven(row: seq<real>)
    requires |row| == 11
    ensures Sum(row) == row[0] + row[1] + row[2] + row[3] + row[4] + row[5] + row[6] + row[7] + row[8] + row[9] + row[10]
  {
    assert row[..11] == row;
    SumStep(row, 11); SumStep(row, 10); SumStep(row, 9); SumStep(row, 8);
    SumStep(row, 7); SumStep(row, 6); SumStep(row, 5); SumStep(row, 4);
    SumStep(row, 3); SumStep(row, 2); SumStep(row, 1);
  }

  lemma SumStep(row: seq<real>, k: nat)
    requires 0 < k <= |row|
    ensures Sum(row[..k]) == Sum(row[..k - 1]) + row[k - 1]
  {
    assert row[..k][..k - 1] == row[..k - 1];
  }

  /** Network.py:119: for the full network the check passes exactly when, in
      every interval, the node requirements add up to within 0.1 MW of zero. */
  lemma CheckPassesIffBalanced(m: seq<seq<real>>)
    requires |m| > 0 && Rectangular(m, |Nodel0|)
    ensures Lookup(m, Nodel0, Nodel0, |Nodel0|)
    ensures var gaps := Gaps(m, Nodel0, Nodel0, |Nodel0|);
      Largest(gaps) <= FlowTolerance <==> forall t :: 0 <= t < |m| ==> Abs(Sum(m[t])) <= FlowTolerance
  {
    var gaps := Gaps(m, Nodel0, Nodel0, |Nodel0|);
    forall t | 0 <= t < |m| ensures gaps[t] == Abs(Sum(m[t])) {
      FullGap(m[t]);
    }
    if Largest(gaps) <= FlowTolerance {
      assert forall t :: 0 <= t < |m| ==> gaps[t] <= Largest(gaps);
    } else {
      var k :| 0 <= k < |gaps| && gaps[k] == Largest(gaps);
      assert Abs(Sum(m[k])) > FlowTolerance;
    }
  }

  /** The redundant-path disagreement of the full network is the magnitude of
      the interval's total requirement. */
  lemma FullGap(row: seq<real>)
    requires |row| == |Nodel0|
    ensures Addressable(row, Nodel0, Nodel0)
    ensures Gap(row, Nodel0, Nodel0) == Abs(Sum(row))
  {
    PathsDiffer(row);
  }

  /** Network.py:121-122: with at most one covered node the flows are all zero,
      one row per interval and one column per leg. */
  lemma SingleNodeNoFlow(n: Inputs, domesticOnly: bool)
    requires n.Valid() && |n.setup.coverage| <= 1
    ensures var r := FlowMatrix(n, domesticOnly);
      && r.Success? && |r.value| == n.setup.intervals
      && forall t :: 0 <= t < |r.value| ==> r.value[t] == Zeros(|TDistances|)
  {
  }

  /** Network.py:88-93: outside domestic-only mode the requirement is never
      bound, and a network of several nodes fails. */
  lemma ExportModeFails(n: Inputs)
    requires n.Valid() && |n.setup.coverage| > 1
    ensures FlowMatrix(n, false) == Failure(ImportUnbound)
  {
  }
}
