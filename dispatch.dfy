/** The hourly dispatch search (Dispatch.py `Flexible`): over one calendar year
    every hour starts with the full interconnection capacity as a flexible
    supply; hour by hour, in increasing order, the hour is switched off, the
    year is re-simulated, and the hour is switched back on (less what storage
    already discharges there) only when the year then shows a deficit. */
module Dispatch {
  import opened Series
  import opened Input
  import opened Simulation

  /** Dispatch.py:31: the largest tolerated deficit of the year, in MWh. */
  const DeficitThreshold: real := 0.1

  /** Why a dispatch search stops without a result: the year lies beyond the
      simulated horizon (the net-load slice is shorter than the flexible series
      and the subtraction fails), or a simulation is rejected by its closing
      assertions. */
  datatype Halt = BeyondHorizon | Rejected(v: Violation)

  /** Dispatch.py:21-22: the first interval of calendar year `year`,
      `int((24 / resolution) * (year - firstyear) * 365)` at hourly resolution. */
  function WindowStart(year: int): (start: nat)
    requires year >= FirstYear
    ensures start == HoursPerYear * (year - FirstYear)
    ensures start % HoursPerYear == 0
  {
    ((24.0 / Resolution) * (year - FirstYear) as real * 365.0).Floor
  }

  /** Dispatch.py:24: the interconnection capacity in MW. */
  function FlexCapacity(s: Solution): real
  {
    Sum(s.CInter) * 1000.0
  }

  /** A simulator of flexible series of length `len`: whatever trajectory it
      returns spans the window. */
  ghost predicate Simulator(trial: seq<real> -> Result<Trajectory, Violation>, len: nat)
  {
    forall f {:trigger Try(trial, f)} :: |f| == len && Try(trial, f).Success? ==> Try(trial, f).value.Spans(len)
  }

  /** One run of a simulator. */
  function Try(trial: seq<real> -> Result<Trajectory, Violation>, f: seq<real>): Result<Trajectory, Violation>
  {
    trial(f)
  }

  /** `Trial` on the window, as the simulator the search calls; a series of
      any other length never reaches it. */
  function Trials(s: Solution, baseload: seq<seq<real>>, start: nat, end: nat): (trial: seq<real> -> Result<Trajectory, Violation>)
    requires s.Configured() && |baseload| == s.setup.intervals && start <= end <= s.setup.intervals
    ensures Simulator(trial, end - start) && Agrees(trial, s, baseload, start, end)
  {
    f => if |f| == end - start then Trial(s, baseload, f, start, end) else Failure(EmptyWindow)
  }

  /** Dispatch.py:31-32: the value hour `i` takes after its trial run `tr`. */
  function Decide(cap: real, run: Outcome, i: nat, resolution: real): real
    requires i < |run.dischargePeaking| && i < |run.dischargePH|
  {
    if Sum(run.deficit) * resolution > DeficitThreshold then cap - run.dischargePeaking[i] - run.dischargePH[i] else 0.0
  }

  /** The flexible series of a `len`-hour window after its first `n` hours
      have been decided; the hours from `n` on are still at full capacity. */
  function Schedule(trial: seq<real> -> Result<Trajectory, Violation>, resolution: real, cap: real, len: nat, n: nat): (r: Result<seq<real>, Violation>)
    requires Simulator(trial, len) && n <= len
    ensures r.Success? ==> |r.value| == len
    ensures r.Success? ==> forall k :: n <= k < len ==> r.value[k] == cap
    decreases n
  {
    if n == 0 then Success(seq(len, _ => cap))
    else
      match Schedule(trial, resolution, cap, len, n - 1)
      case Failure(v) => Failure(v)
      case Success(f) =>
        var tested := f[n - 1 := 0.0];
        match Try(trial, tested)
        case Failure(v) => Failure(v)
        case Success(tr) => Success(tested[n - 1 := Decide(cap, OutcomeOf(tr), n - 1, resolution)])
  }

  /** `np.clip(x, 0, None)`. */
  function Floored(x: seq<real>): (r: seq<real>)
    ensures |r| == |x|
    ensures forall k :: 0 <= k < |x| ==> r[k] >= 0.0 && r[k] >= x[k] && (r[k] == x[k] || r[k] == 0.0)
  {
    seq(|x|, k requires 0 <= k < |x| => Max(0.0, x[k]))
  }

  /** What the search over a `len`-hour window returns: the decided series less
      the spillage of its final simulation, floored at zero. */
  function Dispatched(trial: seq<real> -> Result<Trajectory, Violation>, resolution: real, cap: real, len: nat): (r: Result<seq<real>, Halt>)
    requires Simulator(trial, len)
    ensures r.Success? ==> |r.value| == len
    ensures r.Failure? ==> r.error.Rejected?
  {
    match Schedule(trial, resolution, cap, len, len)
    case Failure(v) => Failure(Rejected(v))
    case Success(f) =>
      match Try(trial, f)
      case Failure(v) => Failure(Rejected(v))
      case Success(tr) => Success(Floored(Minus(f, tr.spillage)))
  }

  /** Dispatch.py:12-40: the search for calendar year `year`. */
  method Flexible(solution: Solution, baseload: seq<seq<real>>, year: int) returns (result: Result<seq<real>, Halt>)
    requires solution.Configured() && |baseload| == solution.setup.intervals && year >= FirstYear
    modifies solution
    ensures var start, end := WindowStart(year), WindowStart(year + 1);
      && (end > solution.setup.intervals ==> result == Failure(BeyondHorizon))
      && (end <= solution.setup.intervals ==>
            result == Dispatched(Trials(solution, baseload, start, end), solution.resolution, FlexCapacity(solution), end - start))
  {
    var start, end := WindowStart(year), WindowStart(year + 1);
    if end > solution.setup.intervals {
      return Failure(BeyondHorizon);
    }
    result := Search(solution, baseload, start, end, Trials(solution, baseload, start, end));
  }

  /** Dispatch.py:24-40: the search over the window `[start, end)`. */
  method Search(solution: Solution, baseload: seq<seq<real>>, start: nat, end: nat,
                ghost trial: seq<real> -> Result<Trajectory, Violation>)
    returns (result: Result<seq<real>, Halt>)
    requires solution.Configured() && |baseload| == solution.setup.intervals
    requires start <= end <= solution.setup.intervals
    requires Simulator(trial, end - start) && Agrees(trial, solution, baseload, start, end)
    modifies solution
    ensures result == Dispatched(trial, solution.resolution, FlexCapacity(solution), end - start)
  {
    var cap := FlexCapacity(solution);
    var flexible := new real[end - start];
    forall k | 0 <= k < end - start {
      flexible[k] := cap;
    }
    assert flexible[..] == seq(end - start, _ => cap);
    var i := 0;
    while i < end - start
      invariant i <= end - start
      invariant Schedule(trial, solution.resolution, cap, end - start, i) == Success(flexible[..])
    {
      var rejected := DecideHour(solution, baseload, flexible, start, end, cap, i, trial);
      if rejected.Some? {
        Abandoned(trial, solution.resolution, cap, end - start, i + 1, rejected.value);
        return Failure(Rejected(rejected.value));
      }
      i := i + 1;
    }
    result := Conclude(solution, baseload, flexible, start, end, cap, i, trial);
  }

  /** Dispatch.py:28-32: hour `i` is switched off, the window re-simulated,
      and the hour switched back on when the year then shows a deficit. */
  method DecideHour(solution: Solution, baseload: seq<seq<real>>, flexible: array<real>, start: nat, end: nat, cap: real, i: nat,
                    ghost trial: seq<real> -> Result<Trajectory, Violation>)
    returns (rejected: Option<Violation>)
    requires solution.Configured() && |baseload| == solution.setup.intervals
    requires start <= end <= solution.setup.intervals && flexible.Length == end - start && i < end - start
    requires Simulator(trial, end - start) && Agrees(trial, solution, baseload, start, end)
    requires Schedule(trial, solution.resolution, cap, end - start, i) == Success(flexible[..])
    modifies solution, flexible
    ensures rejected.None? ==> Schedule(trial, solution.resolution, cap, end - start, i + 1) == Success(flexible[..])
    ensures rejected.Some? ==> Schedule(trial, solution.resolution, cap, end - start, i + 1) == Failure(rejected.value)
  {
    ghost var before := flexible[..];
    flexible[i] := 0.0;
    ghost var tested := flexible[..];
    assert tested == before[i := 0.0];
    var run := Attempt(solution, baseload, flexible, start, end, trial);
    if run.Failure? {
      return Some(run.error);
    }
    var on := Decide(cap, run.value, i, solution.resolution);
    flexible[i] := on;
    assert flexible[..] == tested[i := on];
    rejected := None;
  }

  /** Dispatch.py:34-40: the final simulation of the decided series and the
      flexible supply it leaves after spillage. */
  method Conclude(solution: Solution, baseload: seq<seq<real>>, flexible: array<real>, start: nat, end: nat, cap: real, n: nat,
                  ghost trial: seq<real> -> Result<Trajectory, Violation>)
    returns (result: Result<seq<real>, Halt>)
    requires solution.Configured() && |baseload| == solution.setup.intervals
    requires start <= end <= solution.setup.intervals && flexible.Length == end - start
    requires Simulator(trial, end - start) && Agrees(trial, solution, baseload, start, end)
    requires n == end - start && Schedule(trial, solution.resolution, cap, end - start, n) == Success(flexible[..])
    modifies solution
    ensures result == Dispatched(trial, solution.resolution, cap, end - start)
  {
    var run := Attempt(solution, baseload, flexible, start, end, trial);
    Concluded(trial, solution.resolution, cap, end - start, flexible[..]);
    if run.Failure? {
      return Failure(Rejected(run.error));
    }
    result := Success(Floored(Minus(flexible[..], solution.sim.spillage)));
  }

  /** `trial` is `Trial` on the window `[start, end)`. */
  ghost predicate Agrees(trial: seq<real> -> Result<Trajectory, Violation>, s: Solution, baseload: seq<seq<real>>, start: nat, end: nat)
    requires s.Configured() && |baseload| == s.setup.intervals && start <= end <= s.setup.intervals
  {
    forall f {:trigger Agreed(trial, s, baseload, f, start, end)} :: |f| == end - start ==> Agreed(trial, s, baseload, f, start, end)
  }

  /** `trial` runs `Trial` on the series `f`. */
  ghost predicate Agreed(trial: seq<real> -> Result<Trajectory, Violation>, s: Solution, baseload: seq<seq<real>>, f: seq<real>, start: nat, end: nat)
    requires s.Configured() && |baseload| == s.setup.intervals && start <= end <= s.setup.intervals && |f| == end - start
  {
    Try(trial, f) == Trial(s, baseload, f, start, end)
  }

  /** Dispatch.py:29, 34: `Reliability` over the window with the flexible
      series as imports, as the search's simulator sees it. */
  method Attempt(solution: Solution, baseload: seq<seq<real>>, flexible: array<real>, start: nat, end: nat,
                 ghost trial: seq<real> -> Result<Trajectory, Violation>)
    returns (run: Result<Outcome, Violation>)
    requires solution.Configured() && |baseload| == solution.setup.intervals
    requires start <= end <= solution.setup.intervals && flexible.Length == end - start
    requires Agrees(trial, solution, baseload, start, end)
    modifies solution
    ensures var t := Try(trial, flexible[..]);
      && (run.Success? <==> t.Success?)
      && (run.Success? ==> solution.sim == t.value && run.value == OutcomeOf(t.value))
      && (run.Failure? ==> run.error == t.error)
    ensures solution.net == old(solution.net) && solution.TDC == old(solution.TDC) && solution.CAC == old(solution.CAC)
    ensures solution.MPHS == old(solution.MPHS) && solution.Topology == old(solution.Topology)
  {
    assert Agreed(trial, solution, baseload, flexible[..], start, end);
    run := Reliability(solution, baseload, flexible[..], start, end);
  }

  // ---------------------------------------------------------------------
  // Properties of the search
  // ---------------------------------------------------------------------

  /** A rejected trial ends the search: no later schedule exists. */
  lemma {:induction false} ScheduleFails(trial: seq<real> -> Result<Trajectory, Violation>, resolution: real, cap: real, len: nat, m: nat, n: nat)
    requires Simulator(trial, len) && m <= n <= len
    requires Schedule(trial, resolution, cap, len, m).Failure?
    ensures Schedule(trial, resolution, cap, len, n) == Schedule(trial, resolution, cap, len, m)
    decreases n - m
  {
    if m < n {
      ScheduleFails(trial, resolution, cap, len, m + 1, n);
    }
  }

  /** A rejected trial is what the whole search returns. */
  lemma Abandoned(trial: seq<real> -> Result<Trajectory, Violation>, resolution: real, cap: real, len: nat, n: nat, v: Violation)
    requires Simulator(trial, len) && n <= len
    requires Schedule(trial, resolution, cap, len, n) == Failure(v)
    ensures Dispatched(trial, resolution, cap, len) == Failure(Rejected(v))
  {
    ScheduleFails(trial, resolution, cap, len, n, len);
  }

  /** A complete schedule is what the search returns, once its final run is known. */
  lemma Concluded(trial: seq<real> -> Result<Trajectory, Violation>, resolution: real, cap: real, len: nat, f: seq<real>)
    requires Simulator(trial, len) && Schedule(trial, resolution, cap, len, len) == Success(f)
    ensures Try(trial, f).Failure? ==> Dispatched(trial, resolution, cap, len) == Failure(Rejected(Try(trial, f).error))
    ensures Try(trial, f).Success? ==> Dispatched(trial, resolution, cap, len) == Success(Floored(Minus(f, Try(trial, f).value.spillage)))
  {
  }

  /** Dispatch.py:27-32: an hour once decided is never revisited: every later
      schedule keeps the value hour `i` was given when it was decided. */
  lemma {:induction false} ScheduleSettled(trial: seq<real> -> Result<Trajectory, Violation>, resolution: real, cap: real, len: nat, i: nat, n: nat)
    requires Simulator(trial, len) && i < n <= len
    requires Schedule(trial, resolution, cap, len, n).Success?
    ensures Schedule(trial, resolution, cap, len, i + 1).Success?
    ensures Schedule(trial, resolution, cap, len, n).value[i] == Schedule(trial, resolution, cap, len, i + 1).value[i]
    decreases n
  {
    if i + 1 < n {
      ScheduleSettled(trial, resolution, cap, len, i, n - 1);
    }
  }

  /** Dispatch.py:27-32: hour `i` is tested with itself at zero and every later
      hour still at full capacity, and the decided hours before it; it stays at
      zero unless that run leaves more than 0.1 MWh of deficit over the year,
      and then takes the capacity less the discharge of that hour. */
  lemma HourRule(trial: seq<real> -> Result<Trajectory, Violation>, resolution: real, cap: real, len: nat, i: nat)
    requires Simulator(trial, len) && i < len
    requires Schedule(trial, resolution, cap, len, i + 1).Success?
    ensures Schedule(trial, resolution, cap, len, i).Success?
    ensures var tested := Schedule(trial, resolution, cap, len, i).value[i := 0.0];
      && (forall k :: i < k < len ==> tested[k] == cap)
      && tested[i] == 0.0
      && Try(trial, tested).Success?
    ensures var tested := Schedule(trial, resolution, cap, len, i).value[i := 0.0];
      var tr := Try(trial, tested).value;
      var v := Schedule(trial, resolution, cap, len, i + 1).value;
      && (forall k :: 0 <= k < len && k != i ==> v[k] == tested[k])
      && (Sum(tr.deficit) * resolution <= DeficitThreshold ==> v[i] == 0.0)
      && (Sum(tr.deficit) * resolution > DeficitThreshold ==> v[i] == cap - tr.dischargePeaking[i] - tr.dischargePH[i])
  {
  }

  /** What the search relies on from its simulator: no peaking discharge,
      storage discharge within the power capacity, no negative spillage. */
  ghost predicate Sound(trial: seq<real> -> Result<Trajectory, Violation>, len: nat, power: real)
    requires Simulator(trial, len)
  {
    forall f {:trigger Try(trial, f)} :: |f| == len && Try(trial, f).Success? ==>
      forall k :: 0 <= k < len ==>
        var tr := Try(trial, f).value;
        tr.dischargePeaking[k] == 0.0 && 0.0 <= tr.dischargePH[k] <= power && tr.spillage[k] >= 0.0
  }

  /** The solution's simulator is sound when its storage capacities are not
      negative. */
  lemma TrialsSound(s: Solution, baseload: seq<seq<real>>, start: nat, end: nat)
    requires s.Configured() && |baseload| == s.setup.intervals && start <= end <= s.setup.intervals
    requires ReservoirOf(s).NonNegative()
    ensures Sound(Trials(s, baseload, start, end), end - start, ReservoirOf(s).power)
  {
    var trial := Trials(s, baseload, start, end);
    forall f, k | |f| == end - start && Try(trial, f).Success? && 0 <= k < end - start
      ensures Try(trial, f).value.dischargePeaking[k] == 0.0
      ensures 0.0 <= Try(trial, f).value.dischargePH[k] <= ReservoirOf(s).power
      ensures Try(trial, f).value.spillage[k] >= 0.0
    {
      var netload := Netload(s, baseload, f, start, end);
      assert Try(trial, f).value == Simulate(ReservoirOf(s), netload);
      SimulateInvariants(ReservoirOf(s), netload, k);
    }
  }

  /** With a sound simulator a switched-on hour takes the capacity less the
      storage discharge, between the capacity less the storage power and the
      capacity. */
  lemma SwitchedOn(trial: seq<real> -> Result<Trajectory, Violation>, resolution: real, cap: real, len: nat, power: real, i: nat)
    requires Simulator(trial, len) && Sound(trial, len, power) && i < len
    requires Schedule(trial, resolution, cap, len, i + 1).Success?
    ensures var v := Schedule(trial, resolution, cap, len, i + 1).value[i];
      v == 0.0 || cap - power <= v <= cap
  {
    HourRule(trial, resolution, cap, len, i);
  }

  /** Dispatch.py:34-36: the result is non-negative and, with a sound
      simulator, never above the decided series where that is positive:
      spillage is only ever taken off. */
  lemma DispatchBounded(trial: seq<real> -> Result<Trajectory, Violation>, resolution: real, cap: real, len: nat, power: real)
    requires Simulator(trial, len)
    requires Dispatched(trial, resolution, cap, len).Success?
    ensures Schedule(trial, resolution, cap, len, len).Success?
    ensures var f := Schedule(trial, resolution, cap, len, len).value;
      var r := Dispatched(trial, resolution, cap, len).value;
      forall k :: 0 <= k < len ==> 0.0 <= r[k] && (Sound(trial, len, power) ==> r[k] <= Max(0.0, f[k]))
  {
  }

  /** Dispatch.py:24-36: with a sound simulator and a non-negative capacity,
      every hour of the result lies between zero and the interconnection
      capacity. */
  lemma {:induction false} DispatchWithinCapacity(trial: seq<real> -> Result<Trajectory, Violation>, resolution: real, cap: real, len: nat, power: real)
    requires Simulator(trial, len) && Sound(trial, len, power) && 0.0 <= cap
    requires Dispatched(trial, resolution, cap, len).Success?
    ensures forall k :: 0 <= k < len ==> 0.0 <= Dispatched(trial, resolution, cap, len).value[k] <= cap
  {
    DispatchBounded(trial, resolution, cap, len, power);
    var f := Schedule(trial, resolution, cap, len, len).value;
    forall k | 0 <= k < len
      ensures f[k] <= cap
    {
      ScheduleSettled(trial, resolution, cap, len, k, len);
      SwitchedOn(trial, resolution, cap, len, power, k);
    }
  }
}
