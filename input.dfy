/** Modelling inputs and the candidate solution (Input.py): the node and
    zone lists, the constants, the series derived once from the loaded data
    (hydro baseload, daily peaking, transmission loss factors, the deficit
    allowance), the coverage filtering of the scenario, the decision-vector
    layout, and the `Solution` object that the simulator and the network
    model write their results onto. Reading the CSV files is not modelled:
    their contents arrive as a `Data` value. */
module Input {
  import opened Series

  // ---------------------------------------------------------------------
  // Constants (Input.py:11-18, 41-43, 75-90, 96, 132-142)
  // ---------------------------------------------------------------------

  const Nodel0: seq<string> := ["SP", "KP", "LP", "GP", "BP", "MP", "EP", "TI", "GI", "MI", "KI"]

  /** The node of every solar zone. */
  const PVl0: seq<string> :=
    ["SP", "SP", "SP", "KP", "KP", "KP", "LP", "LP", "GP", "GP", "GP", "BP", "BP", "BP",
     "MP", "MP", "MP", "EP", "EP", "EP", "EP", "EP", "EP"]

  const PvUpper0: seq<real> :=
    [22.0, 28.0, 15.0, 12.0, 18.0, 27.0, 22.0, 24.0, 25.0, 22.0, 20.0, 18.0, 30.0, 14.0,
     12.0, 19.0, 10.0, 17.0, 18.0, 14.0, 11.0, 10.0, 12.0]

  const PhesUpper0: seq<real> := [50.0, 100.0, 50.0, 50.0, 50.0, 20.0, 100.0, 0.0, 0.0, 0.0, 0.0]

  /** The external interconnections of the `Super` network. */
  const Interl0: seq<string> := ["TI", "GI", "MI", "KI"]

  /** The node of every hydro site (the same list in every scenario). */
  const Hydrol: seq<string> := ["SP", "KP", "LP", "GP", "BP", "MP", "EP"]

  const DomesticNodes: seq<string> := ["SP", "KP", "LP", "GP", "BP", "MP", "EP"]
  const BorderNodes: seq<string> := ["TI", "GI", "MI", "KI"]

  /** Hours per interval. */
  const Resolution: real := 1.0
  const EfficiencyPH: real := 0.8

  const PeakingHours: nat := 4
  const PeakingStart: nat := 18
  const PeakingEnd: nat := PeakingStart + PeakingHours

  /** Every leg of the backbone is HVAC. */
  const AcFlags: seq<bool> := [true, true, true, true, true, true, true, true, true, true]
  /** Leg lengths, in the leg order SPKP, KPLP, LPGP, GPBP, BPMP, EPMP, TISP, GILP, MIMP, KIEP. */
  const TDistances: seq<real> := [131.0, 178.0, 75.0, 149.0, 122.0, 197.0, 16.0, 40.0, 78.0, 26.0]
  const AcLossPerKm: real := 0.07
  const DcLossPerKm: real := 0.03

  const FirstYear: int := 2013
  const FinalYear: int := 2022

  /** Allowed annual deficit: 0.002% of the annual demand. */
  const DeficitShare: real := 0.00002

  const PvLower: real := 0.001
  const PhesStorageUpper: real := 10000.0
  const InterUpper: real := 500.0

  const Super: string := "Super"
  const PmyOnly: string := "APG_PMY_Only"
  const BmyOnly: string := "APG_BMY_Only"

  // ---------------------------------------------------------------------
  // Loaded data and the configuration derived from it
  // ---------------------------------------------------------------------

  /** The command-line selections Input.py reads from Optimisation.py. */
  datatype Options = Options(node: string, scenario: string, percapita: int, importFlag: bool)

  /** The parsed CSV contents: demand per node, solar traces per zone, the hydro
      asset table (columns: maximum, run-of-river, peaking capacity in MW),
      run-of-river profiles per node and the cost factors. */
  datatype Data = Data(
    MLoad: seq<seq<real>>,
    TSPV: seq<seq<real>>,
    assets: seq<seq<real>>,
    hydroProfiles: seq<seq<real>>,
    factor: seq<real>)
  {
    /** The shapes the fixed `usecols` of the loaders produce. */
    predicate WellShaped()
    {
      && Rectangular(MLoad, |Nodel0|)
      && Rectangular(TSPV, |PVl0|)
      && |TSPV| == |MLoad|
      && |hydroProfiles| == |MLoad|
      && Rectangular(hydroProfiles, |Nodel0|)
      && |assets| == |Nodel0|
      && Rectangular(assets, 3)
    }
  }

  /** Everything Input.py computes at module level. */
  datatype Setup = Setup(
    options: Options,
    MLoad: seq<seq<real>>,
    TSPV: seq<seq<real>>,
    baseload: seq<seq<real>>,
    dailyPeaking: seq<seq<real>>,
    CHydroMax: seq<real>,
    CHydroRoR: seq<real>,
    CHydroPeaking: seq<real>,
    Nodel: seq<string>,
    PVl: seq<string>,
    Interl: seq<string>,
    coverage: seq<string>,
    pvUpper: seq<real>,
    phesUpper: seq<real>,
    TLoss: seq<real>,
    factor: seq<real>,
    intervals: nat,
    nodes: nat,
    years: nat,
    pzones: nat,
    inters: nat,
    energy: real,
    allowance: real)
  {
    /** Shapes every later stage relies on. */
    predicate Shaped()
    {
      && intervals > 0
      && |MLoad| == intervals && Rectangular(MLoad, nodes)
      && |TSPV| == intervals && Rectangular(TSPV, pzones)
      && |baseload| == intervals && Rectangular(baseload, nodes)
      && |dailyPeaking| == intervals
      && |Hydrol| <= nodes
      && |Hydrol| <= |CHydroPeaking|
      && |TLoss| == |TDistances|
      && |Nodel| <= nodes && |PVl| <= pzones
      && inters == |Interl| && inters <= nodes
      && (forall name :: name in coverage ==> name in Nodel)
    }

    predicate IsSuper() { options.node == Super }
  }

  // ---------------------------------------------------------------------
  // Decision-vector layout (Input.py:119-125, 157-167)
  // ---------------------------------------------------------------------

  /** Index of the first storage power capacity. */
  function PIdx(s: Setup): nat { s.pzones }
  /** Index of the pooled storage energy capacity. */
  function PhIdx(s: Setup): nat { s.pzones + s.nodes }
  /** One past the last interconnection capacity. */
  function IIdx(s: Setup): nat { PhIdx(s) + 1 + s.inters }

  /** The capacities a decision vector stands for. */
  datatype Decision = Decision(CPV: seq<real>, CPHP: seq<real>, CPHS: real, CInter: seq<real>)

  /** `Solution.__init__` slicing: solar per zone, storage power per node, the pooled
      storage energy, and the interconnection capacities (zero outside `Super`). */
  function Decode(x: seq<real>, s: Setup): (d: Decision)
    requires PhIdx(s) < |x|
    ensures |d.CPV| == PIdx(s) && |d.CPHP| == s.nodes && d.CPHS == x[PhIdx(s)]
    ensures s.IsSuper() ==> d.CPV + d.CPHP + [d.CPHS] + d.CInter == x
    ensures !s.IsSuper() ==> d.CInter == Zeros(|s.Interl|)
  {
    var d := Decision(x[..PIdx(s)], x[PIdx(s)..PhIdx(s)], x[PhIdx(s)],
                      if s.IsSuper() then x[PhIdx(s) + 1..] else Zeros(|s.Interl|));
    assert s.IsSuper() ==> d.CPV + d.CPHP + [d.CPHS] + d.CInter == x by {
      if s.IsSuper() {
        assert x == x[..PIdx(s)] + x[PIdx(s)..PhIdx(s)] + [x[PhIdx(s)]] + x[PhIdx(s) + 1..];
      }
    }
    d
  }

  /** `GPV(t, i) = TSPV(t, i) * CPV(i) * 1000`, GW to MW. */
  function SolarGeneration(TSPV: seq<seq<real>>, CPV: seq<real>): (g: seq<seq<real>>)
    requires Rectangular(TSPV, |CPV|)
    ensures |g| == |TSPV| && Rectangular(g, |CPV|)
    ensures forall t, i :: 0 <= t < |TSPV| && 0 <= i < |CPV| ==> g[t][i] == TSPV[t][i] * CPV[i] * 1000.0
  {
    seq(|TSPV|, t requires 0 <= t < |TSPV| =>
      seq(|CPV|, i requires 0 <= i < |CPV| => TSPV[t][i] * CPV[i] * 1000.0))
  }

  /** `np.tile(CInter, (intervals, 1)) * 1000`. */
  function Tiled(intervals: nat, c: seq<real>): (g: seq<seq<real>>)
    ensures |g| == intervals && forall t :: 0 <= t < intervals ==> g[t] == Scaled(1000.0, c)
  {
    seq(intervals, _ => Scaled(1000.0, c))
  }

  // ---------------------------------------------------------------------
  // Hydro series (Input.py:36, 45-62)
  // ---------------------------------------------------------------------

  /** `np.minimum(hydroProfiles, CHydro_RoR * 1e3)`, elementwise. */
  function Baseload(hydro: seq<seq<real>>, ror: seq<real>): (b: seq<seq<real>>)
    requires Rectangular(hydro, |ror|)
    ensures |b| == |hydro| && Rectangular(b, |ror|)
    ensures forall t, j :: 0 <= t < |hydro| && 0 <= j < |ror| ==>
      b[t][j] <= hydro[t][j] && b[t][j] <= ror[j] * 1000.0 &&
      (b[t][j] == hydro[t][j] || b[t][j] == ror[j] * 1000.0)
  {
    seq(|hydro|, t requires 0 <= t < |hydro| =>
      seq(|ror|, j requires 0 <= j < |ror| => Min(hydro[t][j], ror[j] * 1000.0)))
  }

  predicate IsPeakingHour(t: nat)
  {
    PeakingStart <= t % 24 < PeakingEnd
  }

  /** The daily peaking generation of node `j` in interval `t`: the profile in
      excess of the baseload, capped by the peaking capacity, during the four
      evening peaking hours, at nodes that have peaking capacity. */
  function PeakingAt(hydro: seq<seq<real>>, base: seq<seq<real>>, peaking: seq<real>, t: nat, j: nat): (p: real)
    requires t < |hydro| && t < |base| && j < |hydro[t]| && j < |base[t]|
    ensures !IsPeakingHour(t) || j >= |peaking| || peaking[j] <= 0.0 ==> p == 0.0
    ensures j < |peaking| ==> 0.0 <= p <= Max(0.0, peaking[j] * 1000.0)
  {
    if j < |peaking| && peaking[j] > 0.0 && IsPeakingHour(t) then
      Clip(hydro[t][j] - base[t][j], 0.0, peaking[j] * 1000.0)
    else 0.0
  }

  /** Input.py:47-62: a zero matrix whose peaking columns are filled in. */
  method DailyPeaking(hydro: seq<seq<real>>, base: seq<seq<real>>, peaking: seq<real>) returns (dp: seq<seq<real>>)
    requires |base| == |hydro| && |hydro| > 0
    requires Rectangular(hydro, |hydro[0]|) && Rectangular(base, |hydro[0]|)
    requires |peaking| <= |hydro[0]|
    ensures |dp| == |hydro| && Rectangular(dp, |hydro[0]|)
    ensures forall t, j :: 0 <= t < |hydro| && 0 <= j < |hydro[0]| ==> dp[t][j] == PeakingAt(hydro, base, peaking, t, j)
  {
    var rows, cols := |hydro|, |hydro[0]|;
    var m := new real[rows, cols]((_, _) => 0.0);
    for j := 0 to |peaking|
      invariant forall t, k :: 0 <= t < rows && 0 <= k < cols ==>
        m[t, k] == (if k < j then PeakingAt(hydro, base, peaking, t, k) else 0.0)
    {
      if peaking[j] > 0.0 {
        for t := 0 to rows
          invariant forall u, k :: 0 <= u < rows && 0 <= k < cols ==>
            m[u, k] == (if k < j || (k == j && u < t) then PeakingAt(hydro, base, peaking, u, k) else 0.0)
        {
          var excess := Clip(hydro[t][j] - base[t][j], 0.0, peaking[j] * 1000.0);
          m[t, j] := if IsPeakingHour(t) then excess else 0.0;
        }
      }
    }
    dp := seq(rows, t requires 0 <= t < rows reads m => seq(cols, k requires 0 <= k < cols reads m => m[t, k]));
  }

  // ---------------------------------------------------------------------
  // Transmission losses (Input.py:73-86)
  // ---------------------------------------------------------------------

  /** Loss factor per leg: distance times the per-km factor of its line type, times 1e-3. */
  method TransmissionLosses(distances: seq<real>, acFlags: seq<bool>) returns (loss: seq<real>)
    requires |distances| == |acFlags|
    ensures |loss| == |acFlags|
    ensures forall k :: 0 <= k < |loss| ==>
      loss[k] == distances[k] * (if acFlags[k] then AcLossPerKm else DcLossPerKm) * 0.001
  {
    var raw: seq<real> := [];
    for i := 0 to |acFlags|
      invariant |raw| == i
      invariant forall k :: 0 <= k < i ==> raw[k] == distances[k] * (if acFlags[k] then AcLossPerKm else DcLossPerKm)
    {
      raw := raw + [if acFlags[i] then distances[i] * AcLossPerKm else distances[i] * DcLossPerKm];
    }
    loss := Scaled(0.001, raw);
    assert forall k :: 0 <= k < |loss| ==> loss[k] == 0.001 * raw[k];
  }

  // ---------------------------------------------------------------------
  // Coverage filtering (Input.py:99-117)
  // ---------------------------------------------------------------------

  /** `np.where(np.in1d(keys, coverage))[0]`: the positions of the covered keys. */
  function CoveredIndices(keys: seq<string>, coverage: seq<string>): (ix: seq<nat>)
    ensures |ix| <= |keys| && forall i :: 0 <= i < |ix| ==> ix[i] < |keys|
    decreases |keys|
  {
    if keys == [] then []
    else
      var n := |keys| - 1;
      var front := CoveredIndices(keys[..n], coverage);
      if keys[n] in coverage then front + [n] else front
  }

  /** The covered positions are exactly the positions whose key is covered,
      each once and in increasing order. */
  lemma {:induction false} CoveredIndicesExact(keys: seq<string>, coverage: seq<string>)
    ensures var ix := CoveredIndices(keys, coverage);
      && (forall i :: 0 <= i < |ix| ==> keys[ix[i]] in coverage)
      && (forall i, j :: 0 <= i < j < |ix| ==> ix[i] < ix[j])
      && (forall k :: 0 <= k < |keys| && keys[k] in coverage ==> k in ix)
    decreases |keys|
  {
    if keys != [] {
      var n := |keys| - 1;
      CoveredIndicesExact(keys[..n], coverage);
      var front := CoveredIndices(keys[..n], coverage);
      assert forall i :: 0 <= i < |front| ==> keys[..n][front[i]] == keys[front[i]];
    }
  }

  /** `vals[np.where(np.in1d(keys, coverage))[0]]`: the entries at the covered
      positions, in their original order. */
  function Select<T>(keys: seq<string>, vals: seq<T>, coverage: seq<string>): (r: seq<T>)
    requires |keys| == |vals|
    ensures |r| == |CoveredIndices(keys, coverage)| <= |vals|
    ensures forall i :: 0 <= i < |r| ==> r[i] == vals[CoveredIndices(keys, coverage)[i]]
    decreases |keys|
  {
    if keys == [] then []
    else
      var n := |keys| - 1;
      var front := Select(keys[..n], vals[..n], coverage);
      var ix := CoveredIndices(keys[..n], coverage);
      assert forall i :: 0 <= i < |front| ==> front[i] == vals[ix[i]] by {
        forall i | 0 <= i < |front| ensures front[i] == vals[ix[i]] {
          assert ix[i] < n;
        }
      }
      if keys[n] in coverage then front + [vals[n]] else front
  }

  /** An entry whose key is covered is selected. */
  lemma SelectKeeps<T>(keys: seq<string>, vals: seq<T>, coverage: seq<string>, k: nat)
    requires |keys| == |vals| && k < |keys| && keys[k] in coverage
    ensures vals[k] in Select(keys, vals, coverage)
  {
    CoveredIndicesExact(keys, coverage);
    var ix := CoveredIndices(keys, coverage);
    var i :| 0 <= i < |ix| && ix[i] == k;
    assert Select(keys, vals, coverage)[i] == vals[k];
  }

  /** Every selected entry has a covered key. */
  lemma SelectOnlyCovered<T>(keys: seq<string>, vals: seq<T>, coverage: seq<string>, i: nat)
    requires |keys| == |vals| && i < |Select(keys, vals, coverage)|
    ensures exists k :: 0 <= k < |keys| && keys[k] in coverage && Select(keys, vals, coverage)[i] == vals[k]
  {
    CoveredIndicesExact(keys, coverage);
    var k := CoveredIndices(keys, coverage)[i];
    assert keys[k] in coverage && Select(keys, vals, coverage)[i] == vals[k];
  }

  /** The node set of a network structure; `None` where Input.py exits. */
  function Coverage(node: string): (c: Option<seq<string>>)
    ensures c.Some? <==> node in {Super, PmyOnly, BmyOnly}
    ensures node == Super ==> c == Some(Nodel0)
    ensures c.Some? ==> forall k :: 0 <= k < |c.value| ==> c.value[k] in Nodel0
  {
    if node == Super then Some(Nodel0)
    else if node == PmyOnly then Some(DomesticNodes)
    else if node == BmyOnly then Some(BorderNodes)
    else None
  }

  /** Every solar zone lies at a domestic node. */
  lemma ZonesDomestic()
    ensures forall k :: 0 <= k < |PVl0| ==> PVl0[k] in DomesticNodes
  {
    forall k | 0 <= k < |PVl0|
      ensures PVl0[k] in DomesticNodes
    {
      if k < 3 { assert PVl0[k] == DomesticNodes[0]; }
      else if k < 6 { assert PVl0[k] == DomesticNodes[1]; }
      else if k < 8 { assert PVl0[k] == DomesticNodes[2]; }
      else if k < 11 { assert PVl0[k] == DomesticNodes[3]; }
      else if k < 14 { assert PVl0[k] == DomesticNodes[4]; }
      else if k < 17 { assert PVl0[k] == DomesticNodes[5]; }
      else { assert PVl0[k] == DomesticNodes[6]; }
    }
  }

  /** No node is both domestic and a border node. */
  lemma DomesticNotBorder(name: string)
    requires name in DomesticNodes
    ensures name !in BorderNodes
  {
    assert |name| == 2 && name[1] == 'P';
  }

  /** The nodes are the domestic nodes followed by the border nodes. */
  lemma NodesSplit()
    ensures Nodel0 == DomesticNodes + BorderNodes
  {
  }

  /** Nothing is selected when no key is covered. */
  lemma {:induction false} SelectNone<T>(keys: seq<string>, vals: seq<T>, coverage: seq<string>)
    requires |keys| == |vals|
    requires forall k :: 0 <= k < |keys| ==> keys[k] !in coverage
    ensures Select(keys, vals, coverage) == []
    decreases |keys|
  {
    if keys != [] {
      var n := |keys| - 1;
      SelectNone(keys[..n], vals[..n], coverage);
    }
  }

  /** Everything is selected when every key is covered. */
  lemma {:induction false} SelectAll<T>(keys: seq<string>, vals: seq<T>, coverage: seq<string>)
    requires |keys| == |vals|
    requires forall k :: 0 <= k < |keys| ==> keys[k] in coverage
    ensures Select(keys, vals, coverage) == vals
    decreases |keys|
  {
    if keys != [] {
      var n := |keys| - 1;
      SelectAll(keys[..n], vals[..n], coverage);
      assert vals == vals[..n] + [vals[n]];
    }
  }

  /** Selection takes the table apart from its last entry. */
  lemma SelectLast<T>(keys: seq<string>, vals: seq<T>, coverage: seq<string>)
    requires |keys| == |vals| > 0
    ensures var n := |keys| - 1;
      Select(keys, vals, coverage)
        == Select(keys[..n], vals[..n], coverage) + (if keys[n] in coverage then [vals[n]] else [])
  {
  }

  /** Selecting from two tables laid end to end selects from each in turn. */
  lemma {:induction false} SelectAppend<T>(k1: seq<string>, v1: seq<T>, k2: seq<string>, v2: seq<T>, coverage: seq<string>)
    requires |k1| == |v1| && |k2| == |v2|
    ensures Select(k1 + k2, v1 + v2, coverage) == Select(k1, v1, coverage) + Select(k2, v2, coverage)
    decreases |k2|
  {
    if k2 == [] {
      assert k1 + k2 == k1 && v1 + v2 == v1;
    } else {
      var n := |k2| - 1;
      var keys, vals := k1 + k2, v1 + v2;
      var m := |keys| - 1;
      assert keys[..m] == k1 + k2[..n];
      assert vals[..m] == v1 + v2[..n];
      assert keys[m] == k2[n] && vals[m] == v2[n];
      SelectLast(keys, vals, coverage);
      SelectLast(k2, v2, coverage);
      SelectAppend(k1, v1, k2[..n], v2[..n], coverage);
    }
  }

  /** For the `APG_BMY_Only` network no solar zone is covered. */
  lemma BorderZones()
    ensures Select(PVl0, PvUpper0, BorderNodes) == []
  {
    ZonesDomestic();
    forall k | 0 <= k < |PVl0|
      ensures PVl0[k] !in BorderNodes
    {
      DomesticNotBorder(PVl0[k]);
    }
    SelectNone(PVl0, PvUpper0, BorderNodes);
  }

  /** For the `APG_BMY_Only` network the four covered nodes have no storage
      power allowance. */
  lemma BorderNodesPower()
    ensures Select(Nodel0, PhesUpper0, BorderNodes) == [0.0, 0.0, 0.0, 0.0]
  {
    var lo, hi := PhesUpper0[..7], PhesUpper0[7..];
    assert PhesUpper0 == lo + hi;
    NodesSplit();
    forall k | 0 <= k < |DomesticNodes|
      ensures DomesticNodes[k] !in BorderNodes
    {
      DomesticNotBorder(DomesticNodes[k]);
    }
    SelectAppend(DomesticNodes, lo, BorderNodes, hi, BorderNodes);
    SelectNone(DomesticNodes, lo, BorderNodes);
    SelectOwn(BorderNodes, hi);
    assert hi == [0.0, 0.0, 0.0, 0.0];
    calc {
      Select(Nodel0, PhesUpper0, BorderNodes);
      Select(DomesticNodes + BorderNodes, lo + hi, BorderNodes);
      Select(DomesticNodes, lo, BorderNodes) + Select(BorderNodes, hi, BorderNodes);
      [] + hi;
    }
  }

  /** Filtering a table by its own keys gives its values back. */
  lemma SelectOwn<T>(keys: seq<string>, vals: seq<T>)
    requires |keys| == |vals|
    ensures Select(keys, vals, keys) == vals
  {
    SelectAll(keys, vals, keys);
  }

  /** Selection only asks whether each key is covered. */
  lemma {:induction false} SelectCoverageWider<T>(keys: seq<string>, vals: seq<T>, c1: seq<string>, c2: seq<string>)
    requires |keys| == |vals|
    requires forall k :: 0 <= k < |keys| ==> (keys[k] in c1 <==> keys[k] in c2)
    ensures Select(keys, vals, c1) == Select(keys, vals, c2)
    decreases |keys|
  {
    if keys != [] {
      var n := |keys| - 1;
      SelectCoverageWider(keys[..n], vals[..n], c1, c2);
    }
  }

  // ---------------------------------------------------------------------
  // Allowance and energy (Input.py:120-132)
  // ---------------------------------------------------------------------

  /** Input.py:127: the total demand in MWh as PWh, spread over the years. */
  function AnnualEnergy(MLoad: seq<seq<real>>, years: nat): real
    requires years > 0
  {
    Sum(RowSums(MLoad)) * 0.000000001 * Resolution / (years as real)
  }

  /** The smallest annual demand times the allowed deficit share. */
  function Allowance(MLoad: seq<seq<real>>): (a: real)
    requires |MLoad| > 0 && |MLoad| % HoursPerYear == 0
    ensures forall y :: 0 <= y < |MLoad| / HoursPerYear ==> a <= DeficitShare * AnnualTotals(RowSums(MLoad))[y]
    ensures exists y :: 0 <= y < |MLoad| / HoursPerYear && a == DeficitShare * AnnualTotals(RowSums(MLoad))[y]
  {
    var annual := Scaled(DeficitShare, AnnualTotals(RowSums(MLoad)));
    Smallest(annual)
  }

  /** Input.py:99-115: outside `Super`, the solar and storage power bounds and the
      node, zone and interconnection lists keep only the covered entries. */
  method FilterByCoverage(node: string, coverage: seq<string>)
    returns (nodel: seq<string>, pvl: seq<string>, interl: seq<string>, pvUpper: seq<real>, phesUpper: seq<real>)
    requires Coverage(node) == Some(coverage)
    ensures pvUpper == (if node == Super then PvUpper0 else Select(PVl0, PvUpper0, coverage))
    ensures phesUpper == (if node == Super then PhesUpper0 else Select(Nodel0, PhesUpper0, coverage))
    ensures nodel == (if node == Super then Nodel0 else Select(Nodel0, Nodel0, coverage))
    ensures pvl == (if node == Super then PVl0 else Select(PVl0, PVl0, coverage))
    ensures interl == (if node == Super then Interl0 else [])
    ensures |nodel| <= |Nodel0| && |pvl| <= |PVl0|
    ensures forall name :: name in coverage ==> name in nodel
  {
    interl := if node == Super then Interl0 else [];
    nodel, pvl, pvUpper, phesUpper := Nodel0, PVl0, PvUpper0, PhesUpper0;
    if node != Super {
      pvUpper := Select(PVl0, PvUpper0, coverage);
      phesUpper := Select(Nodel0, PhesUpper0, coverage);
      nodel := Select(Nodel0, Nodel0, coverage);
      pvl := Select(PVl0, PVl0, coverage);
      interl := Select(interl, interl, coverage);
      forall name | name in coverage ensures name in nodel {
        var j :| 0 <= j < |Nodel0| && Nodel0[j] == name;
        SelectKeeps(Nodel0, Nodel0, coverage, j);
      }
    } else {
      SelectOwn(Nodel0, Nodel0);
    }
  }

  /** The fields Input.py derives from the data files: the demand, solar traces
      and cost factors as loaded; the hydro capacities in GW; the baseload and
      the daily peaking series of Input.py:36 and 45-62; one loss factor per
      leg (Input.py:73-86); and the mean annual demand in TWh (Input.py:127). */
  predicate DerivedFrom(s: Setup, data: Data)
    requires data.WellShaped()
  {
    && s.MLoad == data.MLoad && s.TSPV == data.TSPV && s.factor == data.factor
    && s.CHydroMax == Scaled(0.001, Column(data.assets, 0))
    && s.CHydroRoR == Scaled(0.001, Column(data.assets, 1))
    && s.CHydroPeaking == Scaled(0.001, Column(data.assets, 2))
    && s.baseload == Baseload(data.hydroProfiles, s.CHydroRoR)
    && Matrix(s.dailyPeaking, |data.hydroProfiles|, |Nodel0|)
    && (forall t, j :: 0 <= t < |data.hydroProfiles| && 0 <= j < |Nodel0| ==>
          s.dailyPeaking[t][j] == PeakingAt(data.hydroProfiles, s.baseload, s.CHydroPeaking, t, j))
    && |s.TLoss| == |TDistances|
    && (forall k :: 0 <= k < |TDistances| ==>
          s.TLoss[k] == TDistances[k] * (if AcFlags[k] then AcLossPerKm else DcLossPerKm) * 0.001)
    && s.years > 0 && s.energy == AnnualEnergy(data.MLoad, s.years)
  }

  /** Input.py:36-132: the derived series and sizes of a setup, around the
      network structure already filtered by coverage. */
  method Assemble(data: Data, options: Options, coverage: seq<string>, nodel: seq<string>, pvl: seq<string>,
                  interl: seq<string>, pvUpper: seq<real>, phesUpper: seq<real>) returns (setup: Setup)
    requires data.WellShaped() && |data.MLoad| > 0 && |data.MLoad| % HoursPerYear == 0
    requires |nodel| <= |Nodel0| && |pvl| <= |PVl0| && |interl| <= |Nodel0|
    requires forall name :: name in coverage ==> name in nodel
    ensures setup.Shaped() && DerivedFrom(setup, data)
    ensures && setup.options == options && setup.coverage == coverage
            && setup.Nodel == nodel && setup.PVl == pvl && setup.Interl == interl
            && setup.pvUpper == pvUpper && setup.phesUpper == phesUpper
    ensures && setup.intervals == |data.MLoad| && setup.nodes == |Nodel0| && setup.pzones == |PVl0|
            && setup.years == setup.intervals / HoursPerYear && setup.inters == |interl|
            && setup.allowance == Allowance(data.MLoad)
  {
    var ror := Scaled(0.001, Column(data.assets, 1));
    var peakingCap := Scaled(0.001, Column(data.assets, 2));
    var base := Baseload(data.hydroProfiles, ror);
    var dp := DailyPeaking(data.hydroProfiles, base, peakingCap);
    var tloss := TransmissionLosses(TDistances, AcFlags);
    var intervals := |data.MLoad|;
    var years := intervals / HoursPerYear;
    var energy := AnnualEnergy(data.MLoad, years);
    setup := Setup(options, data.MLoad, data.TSPV, base, dp,
                   Scaled(0.001, Column(data.assets, 0)), ror, peakingCap,
                   nodel, pvl, interl, coverage, pvUpper, phesUpper, tloss, data.factor,
                   intervals, |Nodel0|, years, |PVl0|, |interl|, energy, Allowance(data.MLoad));
  }

  /** Input.py:9-142 as one step: the network structure, the derived series and
      the scenario filtering. Fails where the script exits or a reduction has no
      data. */
  method Prepare(data: Data, options: Options) returns (r: Option<Setup>)
    requires data.WellShaped()
    ensures r.Some? <==> Coverage(options.node).Some? && |data.MLoad| > 0 && |data.MLoad| % HoursPerYear == 0
    ensures r.Some? ==> r.value.Shaped() && r.value.options == options
    ensures r.Some? ==> r.value.coverage == Coverage(options.node).value
    ensures r.Some? ==> r.value.IsSuper() ==> r.value.Nodel == Nodel0 && r.value.coverage == Nodel0 && r.value.Interl == Interl0
    ensures r.Some? ==> r.value.allowance == Allowance(data.MLoad)
    ensures r.Some? ==> r.value.intervals == |data.MLoad| && r.value.nodes == |Nodel0| && r.value.pzones == |PVl0|
    ensures r.Some? ==> r.value.years == r.value.intervals / HoursPerYear && r.value.years > 0
    ensures r.Some? ==> r.value.pvUpper == (if options.node == Super then PvUpper0 else Select(PVl0, PvUpper0, r.value.coverage))
    ensures r.Some? ==> r.value.phesUpper == (if options.node == Super then PhesUpper0 else Select(Nodel0, PhesUpper0, r.value.coverage))
    ensures r.Some? ==> r.value.inters == (if options.node == Super then |Interl0| else 0)
    ensures r.Some? ==> DerivedFrom(r.value, data)
  {
    var cov := Coverage(options.node);
    if cov.None? || |data.MLoad| == 0 || |data.MLoad| % HoursPerYear != 0 {
      return None;
    }
    var coverage := cov.value;
    var nodel, pvl, interl, pvUpper, phesUpper := FilterByCoverage(options.node, coverage);
    var setup := Assemble(data, options, coverage, nodel, pvl, interl, pvUpper, phesUpper);
    r := Some(setup);
  }

  // ---------------------------------------------------------------------
  // Result records written onto a solution
  // ---------------------------------------------------------------------

  /** The pooled simulation state `Reliability` writes back (Simulation.py:81-82). */
  datatype Trajectory = Trajectory(
    dischargePH: seq<real>,
    chargePH: seq<real>,
    storagePH: seq<real>,
    dischargePeaking: seq<real>,
    storagePeaking: seq<real>,
    deficitEnergy: seq<real>,
    deficitPower: seq<real>,
    deficit: seq<real>,
    spillage: seq<real>)
  {
    /** Every series has one entry per interval of an `n`-interval window. */
    predicate Spans(n: nat)
    {
      && |dischargePH| == n && |chargePH| == n && |storagePH| == n
      && |dischargePeaking| == n && |storagePeaking| == n
      && |deficitEnergy| == n && |deficitPower| == n && |deficit| == n && |spillage| == n
    }
  }

  /** The per-node series `Transmission(output=True)` writes back (Network.py:124-127). */
  datatype NodalSeries = NodalSeries(
    MPV: seq<seq<real>>,
    MIndia: seq<seq<real>>,
    MBaseload: seq<seq<real>>,
    MPeaking: seq<seq<real>>,
    MDischargePH: seq<seq<real>>,
    MChargePH: seq<seq<real>>,
    MStoragePH: seq<seq<real>>,
    MDeficit: seq<seq<real>>,
    MSpillage: seq<seq<real>>)
  {
    /** Every series has one row per interval and one column per node. */
    predicate Spans(intervals: nat, nodes: nat)
    {
      && Matrix(MPV, intervals, nodes) && Matrix(MIndia, intervals, nodes)
      && Matrix(MBaseload, intervals, nodes) && Matrix(MPeaking, intervals, nodes)
      && Matrix(MDischargePH, intervals, nodes) && Matrix(MChargePH, intervals, nodes)
      && Matrix(MStoragePH, intervals, nodes) && Matrix(MDeficit, intervals, nodes)
      && Matrix(MSpillage, intervals, nodes)
    }
  }

  const NoTrajectory := Trajectory([], [], [], [], [], [], [], [], [])
  const NoNodalSeries := NodalSeries([], [], [], [], [], [], [], [], [])

  // ---------------------------------------------------------------------
  // The candidate solution (Input.py:145-186)
  // ---------------------------------------------------------------------

  class Solution {
    const x: seq<real>
    const setup: Setup
    const CPV: seq<real>
    const GPV: seq<seq<real>>
    const CPHP: seq<real>
    const CPHS: real
    const CInter: seq<real>
    const GIndia: seq<seq<real>>
    const efficiencyPH: real
    const resolution: real

    /** The import series of the last simulation. */
    var indiaImports: seq<real>
    /** The pooled trajectory of the last successful simulation. */
    var sim: Trajectory
    /** The nodal series of the last `Transmission(output=True)`. */
    var net: NodalSeries
    /** What `Information` derives (Statistics.py:200-227): the flow matrix,
        the leg capacities, the storage energy by node and the node balances. */
    var TDC: seq<seq<real>>
    var CAC: seq<real>
    var MPHS: Option<seq<real>>
    var Topology: seq<seq<real>>

    /** Shapes fixed at construction. */
    predicate Configured()
    {
      && setup.Shaped()
      && PhIdx(setup) < |x|
      && |CPV| == setup.pzones
      && |CPHP| == setup.nodes
      && |GPV| == setup.intervals && Rectangular(GPV, setup.pzones)
      && efficiencyPH > 0.0 && resolution > 0.0
    }

    constructor (x: seq<real>, setup: Setup)
      requires setup.Shaped() && PhIdx(setup) < |x|
      ensures Configured()
      ensures this.x == x && this.setup == setup
      ensures Decision(CPV, CPHP, CPHS, CInter) == Decode(x, setup)
      ensures GPV == SolarGeneration(setup.TSPV, CPV)
      ensures GIndia == Tiled(setup.intervals, CInter)
      ensures efficiencyPH == EfficiencyPH && resolution == Resolution
      ensures indiaImports == [] && sim == NoTrajectory && net == NoNodalSeries
      ensures TDC == [] && CAC == [] && MPHS == None && Topology == []
    {
      var d := Decode(x, setup);
      this.x := x;
      this.setup := setup;
      CPV := d.CPV;
      GPV := SolarGeneration(setup.TSPV, d.CPV);
      CPHP := d.CPHP;
      CPHS := d.CPHS;
      efficiencyPH := EfficiencyPH;
      CInter := d.CInter;
      GIndia := Tiled(setup.intervals, d.CInter);
      resolution := Resolution;
      indiaImports := [];
      sim := NoTrajectory;
      net := NoNodalSeries;
      TDC := [];
      CAC := [];
      MPHS := None;
      Topology := [];
    }
  }
}
