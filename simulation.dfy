/** The reliability simulation (Simulation.py): one pooled pumped-hydro
    reservoir stepped interval by interval against the net load, with each
    interval's unmet demand classified as power-limited or energy-limited and
    the surplus that cannot be stored counted as spillage.

    `Step`, `Prior` and `Simulate` are the specification of the recurrence;
    the method `Reliability` is the loop of the source, proved to compute
    `Simulate` and to write it onto the solution. The peaking reservoir of the
    source is commented out, so peaking discharge and storage are zero. */
module Simulation {
  import opened Series
  import opened Input

  /** Pooled storage: power capacity (MW), energy capacity (MWh), round-trip
      efficiency and hours per interval. */
  datatype Reservoir = Reservoir(power: real, energy: real, efficiency: real, resolution: real)
  {
    predicate WellFormed() { efficiency > 0.0 && resolution > 0.0 }
    predicate NonNegative() { power >= 0.0 && energy >= 0.0 }
  }

  /** What one interval of the recurrence produces. */
  datatype Interval = Interval(discharge: real, charge: real, storage: real, deficitEnergy: real, deficitPower: real)

  /** Simulation.py:50: discharge is limited by the positive net load, the power
      capacity and the energy held. */
  function Draw(r: Reservoir, netload: real, prev: real): real
    requires r.WellFormed()
  {
    Min3(Max(0.0, netload), r.power, prev / r.resolution)
  }

  /** Simulation.py:51: charge is limited by the surplus, the power capacity and
      the headroom before losses. */
  function Store(r: Reservoir, netload: real, prev: real): real
    requires r.WellFormed()
  {
    Min3(-1.0 * Min(0.0, netload), r.power, (r.energy - prev) / r.efficiency / r.resolution)
  }

  /** Simulation.py:52: the level after discharging `d` and charging `c`. */
  function Level(r: Reservoir, prev: real, d: real, c: real): real
  {
    prev - d * r.resolution + c * r.resolution * r.efficiency
  }

  /** The two deficit classes of one interval. */
  datatype Shortfall = Shortfall(energy: real, power: real)

  /** Simulation.py:61-69: a positive residual is power-limited when discharge is
      at capacity, else energy-limited when the reservoir ran dry; the remaining
      case (unreachable with non-negative capacities) records no deficit. */
  function Classify(r: Reservoir, diff1: real, d: real, prev: real): Shortfall
    requires r.WellFormed()
  {
    if diff1 <= 0.0 then Shortfall(0.0, 0.0)
    else if d == r.power then Shortfall(0.0, diff1)
    else if d == prev / r.resolution then Shortfall(diff1, 0.0)
    else Shortfall(0.0, 0.0)
  }

  /** Simulation.py:50-69: one interval of the recurrence. */
  function Step(r: Reservoir, netload: real, prev: real): Interval
    requires r.WellFormed()
  {
    var d := Draw(r, netload, prev);
    var c := Store(r, netload, prev);
    var short := Classify(r, netload - d + c, d, prev);
    Interval(d, c, Level(r, prev, d, c), short.energy, short.power)
  }

  /** The residual `diff1 = Netload - Discharge + Charge` of an interval. */
  function Residual(netload: real, iv: Interval): real
  {
    netload - iv.discharge + iv.charge
  }

  /** The level a run leaves behind: half the energy capacity before interval 0,
      the last interval's level afterwards (Simulation.py:33). */
  function Carried(r: Reservoir, run: seq<Interval>): real
  {
    if run == [] then 0.5 * r.energy else run[|run| - 1].storage
  }

  /** The interval-by-interval run over a net-load series: each interval is
      stepped from the level the intervals before it left. */
  function Run(r: Reservoir, netload: seq<real>): (run: seq<Interval>)
    requires r.WellFormed()
    ensures |run| == |netload|
    decreases |netload|
  {
    if netload == [] then []
    else
      var before := Run(r, netload[..|netload| - 1]);
      before + [Step(r, netload[|netload| - 1], Carried(r, before))]
  }

  /** The storage level interval `t` starts from. */
  function Prior(r: Reservoir, netload: seq<real>, t: nat): real
    requires r.WellFormed() && t <= |netload|
  {
    Carried(r, Run(r, netload[..t]))
  }

  /** Later intervals never change the run of earlier ones. */
  lemma {:induction false} RunPrefix(r: Reservoir, netload: seq<real>, t: nat)
    requires r.WellFormed() && t <= |netload|
    ensures Run(r, netload)[..t] == Run(r, netload[..t])
    decreases |netload|
  {
    if t < |netload| {
      var n := |netload| - 1;
      assert netload[..n][..t] == netload[..t];
      RunPrefix(r, netload[..n], t);
    } else {
      assert netload[..t] == netload;
    }
  }

  /** Interval `t` of a run is one step from the level interval `t - 1` left. */
  lemma RunAt(r: Reservoir, netload: seq<real>, t: nat)
    requires r.WellFormed() && t < |netload|
    ensures Run(r, netload)[t] == Step(r, netload[t], Prior(r, netload, t))
    ensures Prior(r, netload, t) == (if t == 0 then 0.5 * r.energy else Run(r, netload)[t - 1].storage)
  {
    RunPrefix(r, netload, t + 1);
    RunPrefix(r, netload, t);
    assert netload[..t + 1][..t] == netload[..t];
    var run := Run(r, netload);
    assert run[t] == run[..t + 1][t];
    if t > 0 {
      assert run[t - 1] == run[..t][t - 1];
    }
  }

  function Discharges(run: seq<Interval>): (s: seq<real>)
    ensures |s| == |run| && forall t :: 0 <= t < |run| ==> s[t] == run[t].discharge
  {
    seq(|run|, t requires 0 <= t < |run| => run[t].discharge)
  }

  function Charges(run: seq<Interval>): (s: seq<real>)
    ensures |s| == |run| && forall t :: 0 <= t < |run| ==> s[t] == run[t].charge
  {
    seq(|run|, t requires 0 <= t < |run| => run[t].charge)
  }

  function Levels(run: seq<Interval>): (s: seq<real>)
    ensures |s| == |run| && forall t :: 0 <= t < |run| ==> s[t] == run[t].storage
  {
    seq(|run|, t requires 0 <= t < |run| => run[t].storage)
  }

  function EnergyDeficits(run: seq<Interval>): (s: seq<real>)
    ensures |s| == |run| && forall t :: 0 <= t < |run| ==> s[t] == run[t].deficitEnergy
  {
    seq(|run|, t requires 0 <= t < |run| => run[t].deficitEnergy)
  }

  function PowerDeficits(run: seq<Interval>): (s: seq<real>)
    ensures |s| == |run| && forall t :: 0 <= t < |run| ==> s[t] == run[t].deficitPower
  {
    seq(|run|, t requires 0 <= t < |run| => run[t].deficitPower)
  }

  /** Simulation.py:73: the negative part of `Netload + Charge - Discharge`. */
  function Spillage(netload: seq<real>, charge: seq<real>, discharge: seq<real>): (s: seq<real>)
    requires |charge| == |discharge| == |netload|
    ensures |s| == |netload|
    ensures forall t :: 0 <= t < |netload| ==> s[t] >= 0.0
    ensures forall t :: 0 <= t < |netload| ==> (s[t] == 0.0 <==> netload[t] + charge[t] - discharge[t] >= 0.0)
    ensures forall t :: 0 <= t < |netload| ==>
      netload[t] + charge[t] - discharge[t] + s[t] == Max(netload[t] + charge[t] - discharge[t], 0.0)
  {
    seq(|netload|, t requires 0 <= t < |netload| => -1.0 * Min(netload[t] + charge[t] - discharge[t], 0.0))
  }

  /** The whole simulation state of one call: the run's series, the zero peaking
      series, total deficit and the spillage of the net load after peaking. */
  function Simulate(r: Reservoir, netload: seq<real>): (tr: Trajectory)
    requires r.WellFormed()
    ensures tr.Spans(|netload|)
  {
    var run := Run(r, netload);
    var n := |netload|;
    var energy, power := EnergyDeficits(run), PowerDeficits(run);
    var peaking := Zeros(n);
    Trajectory(Discharges(run), Charges(run), Levels(run), peaking, Zeros(n), energy, power, Plus(energy, power),
               Spillage(Minus(netload, peaking), Charges(run), Discharges(run)))
  }

  /** The ways a simulation is rejected: an empty window (`np.amax` of an empty
      array) and the three assertions of Simulation.py:76-78. */
  datatype Violation = EmptyWindow | StorageOutOfRange | DeficitBelowZero | SpillageBelowZero

  /** The closing checks of Simulation.py:76-78: `None` when they all pass, else
      the first one that fails. */
  function Verdict(tr: Trajectory, capacity: real): Option<Violation>
  {
    if |tr.storagePH| == 0 || |tr.deficit| == 0 || |tr.spillage| == 0 then Some(EmptyWindow)
    else if !(0.0 <= Largest(tr.storagePH) <= capacity) then Some(StorageOutOfRange)
    else if !(Smallest(tr.deficit) > -0.1) then Some(DeficitBelowZero)
    else if !(Smallest(tr.spillage) >= 0.0) then Some(SpillageBelowZero)
    else None
  }

  // ---------------------------------------------------------------------
  // Properties of one interval
  // ---------------------------------------------------------------------

  /** Simulation.py:50-52: the clamps keep discharge and charge within the power
      capacity and the stored energy or headroom, at most one of them is positive,
      and the level stays within [0, energy capacity]. */
  lemma StepBounds(r: Reservoir, netload: real, prev: real)
    requires r.WellFormed() && r.NonNegative() && 0.0 <= prev <= r.energy
    ensures var iv := Step(r, netload, prev);
      && 0.0 <= iv.discharge <= r.power && iv.discharge * r.resolution <= prev
      && 0.0 <= iv.charge <= r.power && prev + iv.charge * r.resolution * r.efficiency <= r.energy
      && (iv.discharge == 0.0 || iv.charge == 0.0)
      && 0.0 <= iv.storage <= r.energy
  {
    var iv := Step(r, netload, prev);
    var d, c, res, eff := iv.discharge, iv.charge, r.resolution, r.efficiency;
    DivNonNegative(prev, res);
    DivNonNegative(r.energy - prev, eff);
    DivNonNegative((r.energy - prev) / eff, res);
    DrawBound(d, prev, res);
    StoreBound(c, r.energy - prev, eff, res);
    ProductNonNegative(d, res, 1.0);
    ProductNonNegative(c, res, eff);
  }

  lemma DrawBound(d: real, prev: real, res: real)
    requires res > 0.0 && d <= prev / res
    ensures d * res <= prev
  {
    assert prev / res * res == prev;
  }

  lemma StoreBound(c: real, room: real, eff: real, res: real)
    requires res > 0.0 && eff > 0.0 && c <= room / eff / res
    ensures c * res * eff <= room
  {
    assert room / eff / res * res * eff == room;
  }

  lemma DivNonNegative(a: real, b: real)
    requires a >= 0.0 && b > 0.0
    ensures a / b >= 0.0
  {
  }

  lemma ProductNonNegative(a: real, b: real, c: real)
    requires a >= 0.0 && b > 0.0 && c > 0.0
    ensures a * b >= 0.0 && a * b * c >= 0.0
  {
  }

  /** Simulation.py:58-73: the two deficit classes are never both non-zero, the
      power-limited class wins when discharge is at capacity, and together they are
      the positive part of the residual; spillage is its negative part. */
  lemma StepDeficit(r: Reservoir, netload: real, prev: real)
    requires r.WellFormed() && r.NonNegative() && 0.0 <= prev <= r.energy
    ensures var iv := Step(r, netload, prev); var diff1 := Residual(netload, iv);
      && (iv.deficitEnergy == 0.0 || iv.deficitPower == 0.0)
      && iv.deficitEnergy + iv.deficitPower == Max(0.0, diff1)
      && (diff1 > 0.0 && iv.discharge == r.power ==> iv.deficitPower == diff1)
      && (diff1 > 0.0 && iv.discharge != r.power ==> iv.deficitEnergy == diff1 && iv.discharge == prev / r.resolution)
  {
    var iv := Step(r, netload, prev);
    StepBounds(r, netload, prev);
    assert 0.0 <= prev / r.resolution by { DivNonNegative(prev, r.resolution); }
    if netload <= 0.0 {
      assert iv.discharge == 0.0;
      assert iv.charge <= -netload;
    } else {
      assert iv.charge == 0.0;
    }
  }

  // ---------------------------------------------------------------------
  // Properties of a whole run
  // ---------------------------------------------------------------------

  /** The level entering every interval lies within [0, energy capacity]. */
  lemma {:induction false} PriorInRange(r: Reservoir, netload: seq<real>, t: nat)
    requires r.WellFormed() && r.NonNegative() && t <= |netload|
    ensures 0.0 <= Prior(r, netload, t) <= r.energy
  {
    if t > 0 {
      PriorInRange(r, netload, t - 1);
      RunAt(r, netload, t - 1);
      RunAt(r, netload[..t], t - 1);
      assert netload[..t][..t - 1] == netload[..t - 1];
      StepBounds(r, netload[t - 1], Prior(r, netload, t - 1));
    }
  }

  /** Simulation.py:33, 52: interval 0 starts from half the energy capacity, every
      later interval from the level the previous one left. */
  lemma StorageRecurrence(r: Reservoir, netload: seq<real>, t: nat)
    requires r.WellFormed() && t < |netload|
    ensures var tr := Simulate(r, netload);
      tr.storagePH[t] == Level(r, if t == 0 then 0.5 * r.energy else tr.storagePH[t - 1], tr.dischargePH[t], tr.chargePH[t])
  {
    var tr := Simulate(r, netload);
    var run := Run(r, netload);
    RunAt(r, netload, t);
    assert tr.storagePH[t] == run[t].storage && tr.dischargePH[t] == run[t].discharge && tr.chargePH[t] == run[t].charge;
    assert t > 0 ==> tr.storagePH[t - 1] == run[t - 1].storage;
  }

  /** Every interval of a simulation obeys the bounds, the exclusivity of discharge
      and charge, the deficit classification and the balance
      `Netload - Discharge + Charge == Deficit - Spillage`, with deficit and spillage
      non-negative and never both positive. */
  lemma SimulateInvariants(r: Reservoir, netload: seq<real>, t: nat)
    requires r.WellFormed() && r.NonNegative() && t < |netload|
    ensures var tr := Simulate(r, netload);
      && 0.0 <= tr.dischargePH[t] <= r.power
      && 0.0 <= tr.chargePH[t] <= r.power
      && (tr.dischargePH[t] == 0.0 || tr.chargePH[t] == 0.0)
      && 0.0 <= tr.storagePH[t] <= r.energy
      && (tr.deficitEnergy[t] == 0.0 || tr.deficitPower[t] == 0.0)
      && tr.deficit[t] == Max(0.0, netload[t] - tr.dischargePH[t] + tr.chargePH[t])
      && tr.spillage[t] == Max(0.0, -(netload[t] - tr.dischargePH[t] + tr.chargePH[t]))
      && netload[t] - tr.dischargePH[t] + tr.chargePH[t] == tr.deficit[t] - tr.spillage[t]
      && tr.deficit[t] >= 0.0 && tr.spillage[t] >= 0.0
      && (tr.deficit[t] == 0.0 || tr.spillage[t] == 0.0)
      && tr.dischargePeaking[t] == 0.0
  {
    var tr := Simulate(r, netload);
    var prev := Prior(r, netload, t);
    var iv := Step(r, netload[t], prev);
    RunAt(r, netload, t);
    assert tr.dischargePH[t] == iv.discharge && tr.chargePH[t] == iv.charge && tr.storagePH[t] == iv.storage;
    assert tr.deficit[t] == iv.deficitEnergy + iv.deficitPower;
    PriorInRange(r, netload, t);
    StepBounds(r, netload[t], prev);
    StepDeficit(r, netload[t], prev);
  }

  /** With non-negative capacities the assertions of Simulation.py:76-78 never fire
      on a non-empty window. */
  lemma VerdictPasses(r: Reservoir, netload: seq<real>)
    requires r.WellFormed() && r.NonNegative() && |netload| > 0
    ensures Verdict(Simulate(r, netload), r.energy) == None
  {
    var tr := Simulate(r, netload);
    forall t | 0 <= t < |netload|
      ensures 0.0 <= tr.storagePH[t] <= r.energy && tr.deficit[t] >= 0.0 && tr.spillage[t] >= 0.0
    {
      SimulateInvariants(r, netload, t);
    }
  }

  // ---------------------------------------------------------------------
  // The simulator over a solution
  // ---------------------------------------------------------------------

  /** The six series `Reliability` returns. */
  datatype Outcome = Outcome(
    deficitEnergy: seq<real>,
    deficitPower: seq<real>,
    deficit: seq<real>,
    dischargePH: seq<real>,
    dischargePeaking: seq<real>,
    spillage: seq<real>)

  function OutcomeOf(tr: Trajectory): Outcome
  {
    Outcome(tr.deficitEnergy, tr.deficitPower, tr.deficit, tr.dischargePH, tr.dischargePeaking, tr.spillage)
  }

  /** The pooled reservoir of a solution: storage power summed over nodes and the
      energy capacity, GW and GWh to MW and MWh. */
  function ReservoirOf(s: Solution): (r: Reservoir)
    requires s.Configured()
    ensures r.WellFormed()
  {
    Reservoir(Sum(s.CPHP) * 1000.0, s.CPHS * 1000.0, s.efficiencyPH, s.resolution)
  }

  /** Simulation.py:12-14: demand less solar less baseload, restricted to the window
      `[start, end)`, less the import injection. */
  function Netload(s: Solution, baseload: seq<seq<real>>, imports: seq<real>, start: nat, end: nat): (n: seq<real>)
    requires s.Configured() && |baseload| == s.setup.intervals
    requires start <= end <= s.setup.intervals && |imports| == end - start
    ensures |n| == |imports|
  {
    var load, pv, base := RowSums(s.setup.MLoad), RowSums(s.GPV), RowSums(baseload);
    seq(end - start, k requires 0 <= k < end - start => load[start + k] - pv[start + k] - base[start + k] - imports[k])
  }

  /** One call of `Reliability` on the window `[start, end)`, as a value: the
      trajectory, or the assertion that rejects it. */
  function Trial(s: Solution, baseload: seq<seq<real>>, imports: seq<real>, start: nat, end: nat): (r: Result<Trajectory, Violation>)
    requires s.Configured() && |baseload| == s.setup.intervals
    requires start <= end <= s.setup.intervals && |imports| == end - start
    ensures r.Success? ==> r.value.Spans(end - start)
  {
    var tr := Simulate(ReservoirOf(s), Netload(s, baseload, imports, start, end));
    match Verdict(tr, ReservoirOf(s).energy)
    case Some(v) => Failure(v)
    case None => Success(tr)
  }

  /** Simulation.py:8-84. Records the imports on the solution, runs the dispatch
      over the window's net load, and keeps the trajectory only when the closing
      assertions pass. */
  method Reliability(solution: Solution, baseload: seq<seq<real>>, indiaImports: seq<real>, start: nat, end: nat)
    returns (result: Result<Outcome, Violation>)
    requires solution.Configured() && |baseload| == solution.setup.intervals
    requires start <= end <= solution.setup.intervals && |indiaImports| == end - start
    modifies solution
    ensures solution.indiaImports == indiaImports && solution.net == old(solution.net)
    ensures solution.TDC == old(solution.TDC) && solution.CAC == old(solution.CAC)
    ensures solution.MPHS == old(solution.MPHS) && solution.Topology == old(solution.Topology)
    ensures var tr := Simulate(ReservoirOf(solution), Netload(solution, baseload, indiaImports, start, end));
      var verdict := Verdict(tr, ReservoirOf(solution).energy);
      && (result.Success? <==> verdict.None?)
      && (result.Success? ==> result.value == OutcomeOf(tr) && solution.sim == tr)
      && (result.Failure? ==> result.error == verdict.value && solution.sim == old(solution.sim))
  {
    var netload := Netload(solution, baseload, indiaImports, start, end);
    solution.indiaImports := indiaImports;
    var pcapacity := Sum(solution.CPHP) * 1000.0;
    var scapacity := solution.CPHS * 1000.0;
    var reservoir := Reservoir(pcapacity, scapacity, solution.efficiencyPH, solution.resolution);
    assert reservoir == ReservoirOf(solution);
    var tr := Evolve(reservoir, netload);
    var verdict := Verdict(tr, scapacity);
    if verdict.Some? {
      return Failure(verdict.value);
    }
    solution.sim := tr;
    result := Success(OutcomeOf(tr));
  }

  /** Simulation.py:25-69: the interval loop over preallocated arrays, one
      per series, carrying the storage level from one interval to the next;
      proved to compute `Run`. */
  method Recurrence(r: Reservoir, netload: seq<real>)
    returns (discharge: seq<real>, charge: seq<real>, storage: seq<real>, energy: seq<real>, power: seq<real>)
    requires r.WellFormed()
    ensures var run := Run(r, netload);
      && discharge == Discharges(run) && charge == Charges(run) && storage == Levels(run)
      && energy == EnergyDeficits(run) && power == PowerDeficits(run)
  {
    var length := |netload|;
    var pcapacity, scapacity := r.power, r.energy;
    var efficiency, resolution := r.efficiency, r.resolution;
    var dischargePH := new real[length];
    var chargePH := new real[length];
    var storagePH := new real[length];
    var deficitEnergy := new real[length];
    var deficitPower := new real[length];
    ghost var run: seq<Interval> := [];
    for t := 0 to length
      modifies dischargePH, chargePH, storagePH, deficitEnergy, deficitPower
      invariant run == Run(r, netload[..t])
      invariant forall k :: 0 <= k < t ==>
        Interval(dischargePH[k], chargePH[k], storagePH[k], deficitEnergy[k], deficitPower[k]) == run[k]
    {
      var netloadt := netload[t];
      var storageT1 := if t > 0 then storagePH[t - 1] else 0.5 * scapacity;
      assert storageT1 == Carried(r, run);
      var dischargeT := Draw(r, netloadt, storageT1);
      var chargeT := Store(r, netloadt, storageT1);
      var storageT := Level(r, storageT1, dischargeT, chargeT);

      var diff1 := netloadt - dischargeT + chargeT;
      var energyT, powerT := 0.0, 0.0;
      if diff1 <= 0.0 {
        energyT, powerT := 0.0, 0.0;
      } else if dischargeT == pcapacity {
        energyT, powerT := 0.0, diff1;
      } else if dischargeT == storageT1 / resolution {
        energyT, powerT := diff1, 0.0;
      }
      ghost var iv := Step(r, netloadt, storageT1);
      assert iv == Interval(dischargeT, chargeT, storageT, energyT, powerT);
      assert netload[..t + 1][..t] == netload[..t];

      dischargePH[t] := dischargeT;
      chargePH[t] := chargeT;
      storagePH[t] := storageT;
      deficitEnergy[t] := energyT;
      deficitPower[t] := powerT;
      run := run + [iv];
    }
    assert netload[..length] == netload;
    discharge, charge, storage := dischargePH[..], chargePH[..], storagePH[..];
    energy, power := deficitEnergy[..], deficitPower[..];
  }

  /** Simulation.py:25-73: the recurrence, then the total deficit, the zero
      peaking series and the spillage; proved to compute `Simulate`. */
  method Evolve(r: Reservoir, netload: seq<real>) returns (tr: Trajectory)
    requires r.WellFormed()
    ensures tr == Simulate(r, netload)
  {
    var length := |netload|;
    var discharge, charge, storage, energy, power := Recurrence(r, netload);
    var deficit := Plus(energy, power);
    var dischargePeaking, storagePeaking := Zeros(length), Zeros(length);
    var spillage := Spillage(Minus(netload, dischargePeaking), charge, discharge);
    tr := Trajectory(discharge, charge, storage, dischargePeaking, storagePeaking, energy, power, deficit, spillage);
  }
}
