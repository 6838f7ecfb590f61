# Verified model of a pumped-hydro and interconnection electricity simulator

This project models the core of an electricity-network simulator. The
simulator sizes solar farms, pumped-hydro storage and external
interconnections for a network of eleven nodes: seven domestic nodes (SP,
KP, LP, GP, BP, MP, EP) and four border nodes (TI, GI, MI, KI). The model
covers seven parts of it:

- **Input** (`input.dfy`): the node and zone lists and the constants. It
  also covers the series derived from the loaded data (hydro baseload,
  daily peaking, transmission loss factors, the deficit allowance), the
  coverage filtering of a scenario, and the decision-vector layout. The
  `Solution` class holds the capacities a decision vector stands for. It
  also holds the results that later stages write onto it.
- **Simulation** (`simulation.dfy`): `Reliability`. One pooled reservoir is
  stepped hour by hour against the net load. Each hour's shortfall is
  classified as power-limited or energy-limited, and surplus that cannot be
  stored is counted as spillage. The source's loop over preallocated arrays
  is the method `Recurrence`. It is proved to compute the recursive
  specification `Run`, and the recurrence's invariants are proved about
  `Run`.
- **Network** (`network.dfy`): `Transmission`. The pooled series are shared
  out to the nodes, and each node's import requirement is formed. The flows
  on the ten backbone legs are then solved from the border inwards. The
  redundant path to leg BP-MP must agree within 0.1 MW.
- **Fill** (`fill.dfy`): the deficit-fill heuristic. Every deficit hour
  pushes its shortfall backwards into an import series. Each hour is capped
  by a limit and each calendar year by an energy budget. The analysis
  re-simulates after every fill, up to fifty fills.
- **Dispatch** (`dispatch.dfy`): `Flexible`, the hour-by-hour search for the
  flexible import series of one calendar year.
- **Optimisation** (`optimisation.dfy`): the objective function `F`. It
  covers the simulations, the penalties, the leg capacities, the levelised
  cost, and the bounds handed to the optimiser.
- **Statistics** (`statistics.dfy`): `Debug`, which re-checks the energy
  balance and the storage recurrence. Also `Information`, which derives the
  leg capacities, the storage energy by node and the node balances
  (`Topology`).

`series.dfy` holds the numpy reductions the rest is written with: sums,
maxima, clipping, slicing, and yearly reshaping. All quantities are `real`.
Errors the source raises as exceptions or assertion failures become
`Result`/`Option` values.

## Model

| member | source | states |
|---|---|---|
| Series.Clip | Optimisation.py:58 | the result lies in `[lo, hi]`: the value itself inside, `lo` below and `hi` above |
| Series.Largest | Simulation.py:76 | `np.amax`: at least every entry, and equal to one of them |
| Series.Smallest | Simulation.py:77-78 | `np.amin`: at most every entry, and equal to one of them |
| Series.Window | Simulation.py:12-13 | a slice `[start:end]` has Python's clamped length |
| Series.AnnualTotalsSum | Fill.py:49 | the calendar-year totals add up to the total of the whole series |
| Input.Decode | Input.py:157-167 | the decision vector splits into solar per zone, storage power per node, pooled storage energy and interconnections; for `Super` the parts concatenate back to `x`, otherwise the interconnections are zero |
| Input.Baseload | Input.py:46 | each entry is the smaller of the profile and the run-of-river capacity in MW, and equal to one of them |
| Input.PeakingAt | Input.py:53-62 | peaking output is zero outside the four evening hours or without peaking capacity, and otherwise between zero and the capacity in MW |
| Input.DailyPeaking | Input.py:47-62 | the loop over nodes fills a zero matrix so that every entry is the peaking output of its hour and node |
| Input.TransmissionLosses | Input.py:80-86 | each leg's loss factor is its distance times 0.07 for HVAC or 0.03 otherwise, times 1e-3 |
| Input.Select | Input.py:112-115 | `np.in1d` filtering: exactly one entry per covered position, the value at that position, in the order of the positions |
| Input.CoveredIndicesExact | Input.py:112-115 | the covered positions are exactly those whose key is covered, each once and in increasing order |
| Input.SelectKeeps | Input.py:112-115 | an entry whose key is covered is selected |
| Input.SelectOnlyCovered | Input.py:112-115 | every selected entry is the value of a covered key |
| Input.SelectAll | Input.py:112-115 | everything is selected when every key is covered |
| Input.SelectAppend | Input.py:112-115 | selecting from two tables laid end to end selects from each in turn |
| Input.BorderZones | Input.py:112 | with `APG_BMY_Only` no solar zone is covered, so no solar upper bound is kept |
| Input.BorderNodesPower | Input.py:113 | with `APG_BMY_Only` the storage power upper bounds are the four zeros of the border nodes |
| Input.Coverage | Input.py:100-110 | a node set exists exactly for `Super`, `APG_PMY_Only` and `APG_BMY_Only`; `Super` covers every node, and every set is drawn from the node list |
| Input.SelectNone | Input.py:112-115 | nothing is selected when no key is covered |
| Input.SelectOwn | Input.py:115 | filtering a table by its own keys gives back all its values, in order |
| Input.SelectCoverageWider | Input.py:112-115 | the selection depends only on which keys are covered |
| Input.Allowance | Input.py:132 | the allowance is 0.002% of the smallest annual demand: at most that of every year, and equal to that of one year |
| Input.Prepare | Input.py:9-142 | setup succeeds exactly for a known network and a demand series of whole years; the result has the requested options, the coverage, the allowance, the year count, the bounds filtered by coverage (unfiltered for `Super`), and every derived field as `DerivedFrom` fixes it from the data |
| Input.FilterByCoverage | Input.py:99-115 | outside `Super` the bounds and the node, zone and interconnection lists are the covered selections; for `Super` they are unchanged; every covered node stays in the node list |
| Input.Assemble | Input.py:36-132 | the setup has the given structure, the shapes later stages rely on, and demand, solar, factors, hydro capacities, baseload, daily peaking, loss factors and annual energy derived from the data as Input.py does |
| Input.Solution.constructor | Input.py:145-186 | the new solution holds the decoded capacities, the solar generation and the tiled interconnections, with no results yet |
| Simulation.Run | Simulation.py:30-69 | the run has one interval per net-load entry |
| Simulation.RunPrefix | Simulation.py:30-33 | later intervals never change the run of earlier ones |
| Simulation.RunAt | Simulation.py:32-33 | interval `t` is one step from half the energy capacity when `t == 0`, else from the level interval `t - 1` left |
| Simulation.Spillage | Simulation.py:73 | spillage is never negative, is zero exactly when net load plus charge less discharge is non-negative, and otherwise brings that residual up to zero |
| Simulation.Simulate | Simulation.py:25-73 | every series of the trajectory has one entry per interval |
| Simulation.StepBounds | Simulation.py:50-52 | discharge and charge lie within the power capacity, within the energy held and the headroom; at most one is positive; the level stays within `[0, energy capacity]` |
| Simulation.StepDeficit | Simulation.py:58-69 | the two deficit classes are never both non-zero and add up to the positive part of the residual; power-limited when discharge is at capacity, else energy-limited with the reservoir drained |
| Simulation.PriorInRange | Simulation.py:33 | the level entering every interval lies within `[0, energy capacity]` |
| Simulation.StorageRecurrence | Simulation.py:33-52 | every level is the previous level (half the capacity before interval 0) less discharge plus charge after losses |
| Simulation.SimulateInvariants | Simulation.py:50-73 | in every interval: bounds, exclusive charge and discharge, deficit and spillage as the two parts of the residual, the balance `net load - discharge + charge == deficit - spillage`, and zero peaking discharge |
| Simulation.VerdictPasses | Simulation.py:76-78 | with non-negative capacities and a non-empty window, none of the closing assertions fires |
| Simulation.ReservoirOf | Simulation.py:19-23 | the pooled reservoir has positive efficiency and resolution |
| Simulation.Netload | Simulation.py:12-14 | the net load of the window has one entry per import |
| Simulation.Trial | Simulation.py:8-84 | an accepted trajectory spans the window |
| Simulation.Reliability | Simulation.py:8-84 | records the imports; succeeds exactly when the closing checks pass; then returns and stores the simulated trajectory, else returns the failed check and keeps the old trajectory; the nodal series, `TDC`, `CAC`, `MPHS` and `Topology` are kept |
| Simulation.Recurrence | Simulation.py:25-69 | the array loop computes exactly the discharge, charge, level and deficit series of `Run` |
| Simulation.Evolve | Simulation.py:25-73 | the loop followed by the deficit and spillage computation yields exactly `Simulate` |
| Network.Proportions | Network.py:38 | one share per weight |
| Network.SharesSum | Network.py:28-40 | shares of an amount by weight add back up to the amount, or are all zero when the weights sum to zero |
| Network.SpillageWeights | Network.py:31-32 | each node's weight is its solar output plus 1e-9, so it exceeds the output and is positive wherever the output is non-negative |
| Network.SpillageSharesSum | Network.py:31-34 | with non-negative solar the spillage weights sum to a positive number and the shares add up to the spillage, even with no solar output |
| Network.ImportCapacity | Network.py:36 | the interconnection capacities are placed at the last nodes, with zeros in front |
| Network.ImportFactors | Network.py:43-46 | one import factor per node |
| Network.ImportSharesSum | Network.py:43-47 | the import shares add up to the imports, or to zero when the capacities sum to zero |
| Network.NoCapacityNoImports | Network.py:43-47 | with non-negative capacities summing to zero, no node receives imports |
| Network.Grouped | Network.py:18-24 | the grouped matrix has one row per interval and one column per node |
| Network.NodalRows | Network.py:18-24 | the node-by-node loop and transpose compute exactly `Grouped` |
| Network.PeakingBySite | Network.py:15-16 | one row per interval, one column per hydro site |
| Network.SharedConserves | Network.py:39-40 | each interval's shares add up to the pooled amount times the total factor |
| Network.SharedByConserves | Network.py:28-34 | each interval's shares add up to the pooled amount, or to zero when that interval's weights sum to zero |
| Network.Split | Network.py:26-47 | every nodal series has one row per interval and one column per node |
| Network.Requirement | Network.py:89-90 | the import requirement has one row per interval and one column per node |
| Network.Columns | Network.py:120 | a row of the flow matrix has one entry per leg |
| Network.IndexOf | Network.py:101 | the first position holding the name |
| Network.FirstZeroDemand | Network.py:28 | the first interval whose demand sums to zero |
| Network.Transmission | Network.py:8-129 | returns the flow matrix or the fault; keeps the simulation, `TDC`, `CAC`, `MPHS` and `Topology`; writes the nodal series exactly when `output` is set and the call succeeds |
| Network.TerminalLegs | Network.py:101-104 | TI-SP, GI-LP and KI-EP carry their border node's requirement; MI-MP carries it negated |
| Network.PathsDiffer | Network.py:108-118 | for the full network the two values of leg BP-MP differ by the total requirement of the interval |
| Network.FullLegs | Network.py:101-118 | both values of leg BP-MP, written in the node requirements |
| Network.CheckPassesIffBalanced | Network.py:119 | for the full network the check passes exactly when every interval's requirements sum to within 0.1 MW of zero |
| Network.FullGap | Network.py:119 | the full network's disagreement is the magnitude of the interval's total requirement |
| Network.SingleNodeNoFlow | Network.py:121-122 | with at most one covered node the call succeeds with all-zero flows, one row per interval |
| Network.ExportModeFails | Network.py:88-96 | outside domestic-only mode, a network of several nodes fails because the requirement is never bound |
| Fill.YearOf | Fill.py:23-25 | hour `t` lies in calendar year `t // 8760` and in no other |
| Fill.AnnualUpdate | Fill.py:29-33 | raising one hour changes its own year's total by the rise and no other year's |
| Fill.LastBelow | Fill.py:38-39 | the latest earlier hour below the limit, or none when every earlier hour is at the limit |
| Fill.Visit | Fill.py:23-39 | one visit keeps the length and, unless abandoned, moves to an earlier hour |
| Fill.VisitFrame | Fill.py:31-33 | a visit changes only hour `t`, and what it places there is taken off the need |
| Fill.Walk | Fill.py:21-42 | the walk keeps the length, does nothing without `impflag`, visits at most `step` hours and starts at `t` |
| Fill.FillFrom | Fill.py:13-14 | the deficit hours in increasing order keep the length of the imports |
| Fill.Filled | Fill.py:12-43 | the fill keeps the length of the imports |
| Fill.FillDeficit | Fill.py:12-43 | the in-place loop over deficit hours leaves exactly `Filled` in the array |
| Fill.WalkBack | Fill.py:16-42 | the `while` loop of one deficit hour leaves exactly its `Walk` in the array |
| Fill.VisitHour | Fill.py:23-40 | one loop pass ends the walk as it stands when abandoned, or hands it on to the next hour |
| Fill.Hop | Fill.py:23-39 | the statements of one pass do exactly what `Visit` says |
| Fill.VisitCapped | Fill.py:31-33 | a visit keeps imports under the limit and never lowers one |
| Fill.VisitYears | Fill.py:29-33 | a visit keeps within budget every year that was |
| Fill.ExhaustedYear | Fill.py:34-36 | with the year's budget used up, the walk jumps to the last hour of the previous year and changes nothing |
| Fill.AbandonKeeps | Fill.py:30-42 | an abandoned walk keeps the imports as they stand; with the budget overdrawn it changes nothing |
| Fill.WalkCapped | Fill.py:31-33 | a whole walk keeps imports under the limit and never lowers one |
| Fill.WalkYears | Fill.py:29-33 | a whole walk keeps within budget every year that was |
| Fill.WalkStep | Fill.py:21-40 | a visit that does not abandon hands the walk on to the next hour |
| Fill.WalkStop | Fill.py:21 | a walk whose loop condition fails, or without `impflag`, changes nothing |
| Fill.WalkHours | Fill.py:21-40 | a walk visits hours in strictly decreasing order, none after its start |
| Fill.WalkFrame | Fill.py:23-39 | a walk changes only the hours it visits |
| Fill.WalkFootprint | Fill.py:16-21 | a deficit hour's walk changes no later hour and visits at most `step` hours, from the deficit hour down |
| Fill.FillCapped | Fill.py:12-43 | the fill keeps every import under the limit and never lowers one |
| Fill.FillYears | Fill.py:12-43 | the fill keeps within budget every year that was |
| Fill.FillAdmissible | Fill.py:12-43 | admissible imports (between zero and the limit, every year within budget) stay admissible |
| Fill.BudgetOf | Fill.py:72-78 | the analysis fills with `impflag` set and 168-hour walks |
| Fill.DeficitWith | Fill.py:79 | one deficit entry per interval |
| Fill.Analysis | Fill.py:76-86 | a finished analysis: the imports are those of `rounds` successive fills from zero imports, each made against the deficit the previous imports leave; the deficit is the one the final imports leave; every earlier round left it above the allowance, and the last is within it unless all fifty fills were made; admissible imports under a non-negative budget; the derived network fields are kept |
| Fill.Converge | Fill.py:83-86 | the loop after the first fill: stops at the first round whose deficit is within the allowance, or after fifty fills, leaving a finished analysis |
| Fill.Round | Fill.py:84-86 | one pass of the loop: the imports become the next fill and the deficit is the one they leave; the earlier rounds, this one included, all missed the allowance |
| Fill.ConvergedAt | Fill.py:83 | the state the loop exits with, first round within the allowance or fiftieth fill, is a finished analysis |
| Fill.UnmetRounds | Fill.py:83 | when the loop reaches round `n`, each round from the first to `n - 1` left the deficit above the allowance |
| Fill.Refill | Fill.py:78-85 | one fill followed by a simulation whose deficit belongs to the new imports; admissibility is kept |
| Fill.Resimulate | Fill.py:77 | the simulated deficit belongs to the imports as they stand |
| Fill.ZerosAdmissible | Fill.py:76 | zero imports are admissible under a non-negative budget |
| Fill.Peak | Fill.py:48-49 | the largest annual total in TWh, defined exactly for a non-empty series of whole years |
| Fill.Mean | Fill.py:51-52 | the mean annual total in TWh: times the years and 1e6 it gives back the sum |
| Dispatch.WindowStart | Dispatch.py:21-22 | the year's first hour is 8760 times the years since 2013 |
| Dispatch.Trials | Dispatch.py:29 | the search's simulator spans the window and runs `Trial` on it |
| Dispatch.Schedule | Dispatch.py:27-32 | a schedule has one value per hour and keeps the undecided hours at full capacity |
| Dispatch.Floored | Dispatch.py:36 | every entry is at least zero and at least the input, and is the input or zero |
| Dispatch.Dispatched | Dispatch.py:34-36 | a result has one value per hour; a failure is a rejected simulation |
| Dispatch.Flexible | Dispatch.py:12-40 | a year beyond the horizon fails; any other year yields exactly the search result over its window |
| Dispatch.Search | Dispatch.py:24-40 | the loop over hours yields exactly `Dispatched` |
| Dispatch.DecideHour | Dispatch.py:28-32 | one hour decided in place extends the schedule by that hour, or reports the rejection that ends it |
| Dispatch.Conclude | Dispatch.py:34-36 | the final simulation and spillage deduction yield exactly `Dispatched` |
| Dispatch.Attempt | Dispatch.py:29-34 | a `Reliability` call over the window succeeds exactly when the simulator does, and returns and stores its trajectory |
| Dispatch.ScheduleFails | Dispatch.py:27-32 | once a trial is rejected, no later schedule exists |
| Dispatch.Abandoned | Dispatch.py:27-36 | a rejected trial is what the whole search returns |
| Dispatch.Concluded | Dispatch.py:34-36 | a complete schedule yields its final run's rejection, or itself less spillage, floored at zero |
| Dispatch.ScheduleSettled | Dispatch.py:27-32 | an hour once decided is never revisited |
| Dispatch.HourRule | Dispatch.py:27-32 | hour `i` is tested at zero with later hours at capacity; it stays zero unless the year's deficit exceeds 0.1 MWh, and then takes the capacity less that hour's discharge |
| Dispatch.TrialsSound | Dispatch.py:29-32 | with non-negative storage capacities the simulator is sound: no peaking, discharge within power, no negative spillage |
| Dispatch.SwitchedOn | Dispatch.py:31-32 | a switched-on hour lies between the capacity less the storage power and the capacity |
| Dispatch.DispatchBounded | Dispatch.py:34-36 | the result is non-negative and never above the decided value where that is positive |
| Dispatch.DispatchWithinCapacity | Dispatch.py:24-36 | every hour of the result lies between zero and the interconnection capacity |
| Optimisation.PowerPenalty | Optimisation.py:46-50 | non-negative; zero exactly when the peak deficit in GW matches the interconnection capacity, and it bounds every hour's excess |
| Optimisation.DeficitPenalty | Optimisation.py:56 | non-negative; zero exactly when the deficit energy is within the allowance, otherwise the excess |
| Optimisation.Clipped | Optimisation.py:58 | every entry lies in `[lo, hi]`, entries already inside are kept, others go to the nearer bound |
| Optimisation.Protocol | Optimisation.py:41-75 | the runs span the horizon with non-negative penalties; without imports the power penalty and the imports are zero; with imports every import lies between zero and the capacity |
| Optimisation.LegCapacities | Optimisation.py:78 | per leg, the largest absolute flow in GW: at least every flow, and equal to one |
| Optimisation.Cost | Optimisation.py:92-93 | the weighted cost exists exactly when the factors broadcast; it is the dot product when the lengths match and the single factor times the total when there is one factor |
| Optimisation.CostTerms | Optimisation.py:92 | nine terms plus one per leg |
| Optimisation.Flows | Optimisation.py:77 | a flow matrix has one row per interval and one column per leg; outside `Super` it is all zero |
| Optimisation.FlowShape | Network.py:120-122 | a successful network call has one row per interval and one column per leg |
| Optimisation.Assessed | Optimisation.py:77-106 | succeeds exactly when the cost broadcasts and the net energy is non-zero; fitness is at least the LCOE, equal exactly when both penalties vanish; LCOE times net energy is the cost |
| Optimisation.NoLegsOutsideSuper | Optimisation.py:77-78 | outside `Super` every leg capacity is zero |
| Optimisation.FitnessIsCost | Optimisation.py:106 | the fitness equals the LCOE exactly when the deficit and power penalties vanish |
| Optimisation.F | Optimisation.py:35-107 | decodes `x` into a fresh solution and evaluates it exactly as the objective says |
| Optimisation.DecodedInterconnections | Input.py:167 | a full-length decision vector holds one capacity per interconnection |
| Optimisation.Evaluate | Optimisation.py:41-106 | the simulations, the network call and the cost, in order, yield exactly the objective |
| Optimisation.LegFlows | Optimisation.py:77 | the network call (or zero flows outside `Super`) yields exactly `Flows` |
| Optimisation.Simulations | Optimisation.py:41-75 | the simulations in order yield exactly `Protocol` and leave the last one on the solution |
| Optimisation.Simulated | Optimisation.py:44-45 | one `Reliability` call over the horizon yields `Trial` and records the imports |
| Optimisation.InterUppers | Input.py:139 | one upper bound per interconnection: 500 GW for `Super`, zero otherwise |
| Optimisation.BoundsAsWritten | Optimisation.py:113-114 | lower bounds 0.001 per zone and 0 for every other entry; upper bounds the filtered solar bounds, the filtered storage power bounds, 10000 for storage energy and the interconnection bounds, in that order |
| Optimisation.BorderBoundsMismatch | Optimisation.py:113-116 | with `APG_BMY_Only` exactly five bound pairs reach the optimiser for a 35-entry vector: four `(0.001, 0)` pairs, which are empty, and `(0.001, 10000)` |
| Input.ZonesDomestic | Input.py:12 | every solar zone lies at a domestic node |
| Input.DomesticNotBorder | Input.py:11 | no node is both domestic and a border node |
| Input.NodesSplit | Input.py:11 | the nodes are the domestic nodes followed by the border nodes |
| Optimisation.Bounds | Optimisation.py:113-114 | the corrected bounds have one pair per decision entry, each with lower at most upper; covered entries get their upper bound, uncovered ones are pinned to the lower |
| Optimisation.UppersAboveLowers | Input.py:13-14 | every solar upper bound is at least 0.001 and every storage bound is non-negative |
| Optimisation.SuperBoundsAgree | Optimisation.py:113-114 | for `Super` the written and the corrected bounds are the same |
| Statistics.Debug | Statistics.py:13-43 | passes exactly when every interval is balanced within 1 MW and the recurrence holds within 1 MWh; otherwise reports the first failing interval and the check that failed |
| Statistics.RecurrenceHolds | Statistics.py:29-32 | on a simulated trajectory the recurrence check holds exactly in every interval |
| Statistics.BalanceHolds | Statistics.py:25-27 | on a simulated trajectory whose nodal series share out the pooled ones, the balance holds exactly in every interval |
| Statistics.StorageShares | Statistics.py:215 | storage energy by node exists exactly when the power capacities do not sum to zero; the shares are proportional to power, add up to the pooled energy, and are non-negative for non-negative inputs |
| Statistics.SharesOfCapacity | Statistics.py:215 | a proportional share adds back up to the amount, and each share is its weight's fraction |
| Statistics.Legs | Statistics.py:203 | reading a flow-matrix row back as legs gives back the row |
| Statistics.NodeBalancesAsWritten | Statistics.py:217-227 | one balance per node |
| Statistics.NodeBalances | Statistics.py:217-227 | one balance per node |
| Statistics.BalancesDifferAtGI | Statistics.py:225 | the written and the corrected balances differ only in the GI row, by its sign |
| Statistics.BalancesRecoverRequirement | Statistics.py:217-227 | the corrected balances give back every node's requirement, except at MP where they are off by the interval's total |
| Statistics.BalancesOfLegs | Statistics.py:217-227 | leg flows solved from the requirements give back each node's requirement |
| Statistics.FullLegValues | Network.py:101-118 | the full network's leg flows, written in the requirements |
| Statistics.GIRowNegated | Statistics.py:225 | as written, the GI row is GI's requirement negated, so it is wrong whenever GI needs a non-zero import |
| Statistics.GIRowCounterexample | Statistics.py:225 | GI needing 1 MW, every other node nothing: the written GI row reports -1 MW |
| Statistics.TopologyOf | Statistics.py:217-227 | one row per node and one column per interval, each entry that interval's corrected balance |
| Statistics.FullFlows | Network.py:101-120 | a successful full-network call yields the leg flows of the requirement matrix, every gap within tolerance |
| Statistics.TopologyOfRows | Statistics.py:217-227 | the corrected topology is each node's own requirement, except at MP |
| Statistics.TopologyAtMP | Statistics.py:222 | at MP the topology is MP's requirement less the interval's total |
| Statistics.TopologyNearMP | Statistics.py:222 | where the network check passed, the topology at MP is within 0.1 MW of MP's requirement |
| Statistics.RowBalances | Statistics.py:217-227 | the corrected balances of one interval of the flow matrix |
| Statistics.ColumnBalances | Statistics.py:217-227 | the corrected balances of a row solved from the requirements |
| Statistics.LegsOfColumns | Statistics.py:203 | writing legs as a row and reading them back gives the same legs |
| Statistics.Information | Statistics.py:187-234 | a rejected simulation aborts; otherwise the trajectory is stored, and a network fault aborts; on success the flow matrix, leg capacities, storage shares and the corrected topology are written |
| Statistics.Record | Statistics.py:200-227 | writes exactly the flow matrix, the leg capacities, the storage shares and the corrected topology, and nothing else |

Some functions are definitions only: their contracts give shapes and entries,
and what is proved about them sits in the members named in brackets.
`Series.AnnualTotals` (`AnnualTotalsSum`), `Series.RowSums`,
`Input.SolarGeneration`, `Input.Tiled`, `Input.CoveredIndices`
(`CoveredIndicesExact`), `Input.DerivedFrom` (`Prepare`, `Assemble`),
`Input.AnnualEnergy`, `Network.Shared` (`SharedConserves`), `Network.SharedBy`
(`SharedByConserves`), `Network.SpillageMatrix` (`SpillageSharesSum`),
`Network.Gaps` (`FullGap`), `Network.FlowRows` (`FullFlows`),
`Fill.Fills`, `Fill.Unmet`, `Fill.UnmetBefore` and `Fill.Converged`
(`Analysis`, `Converge`, `ConvergedAt`, `UnmetRounds`),
`Optimisation.PeakFlows` (`LegCapacities`), `Optimisation.CoveredUppers`
(`Bounds`) and `Optimisation.Zipped` (`BorderBoundsMismatch`).

## Left out

- Reading CSV files, the command line, `print`, writing result files, and timing are not modelled. The loaded data is the `Data` value; the options are the `Options` value.
- The optimiser (`differential_evolution`) and the process pool of `Dispatch.Analysis` are not modelled. `Dispatch.Analysis` concatenates the yearly `Flexible` results and is not part of this model.
- Floating point is not modelled: all quantities are exact reals. The `int(...)` truncation in the storage assertion (Simulation.py:76) and the `int(...)` of the window arithmetic (Dispatch.py:21-22) are exact here.
- NaN and infinity are not modelled. A zero-demand row's deficit shares are zero, and `Transmission` reports `ZeroDemand` when the redundant-path check would read them. A zero-sum `spfactor` uses 0 where the source leaves uninitialised memory. `np.nan_to_num` is the identity. A non-finite LCOE is `NoNetEnergy`. `MPHS` with `sum(CPHP) == 0` is `None`.
- The report writers `LPGM` and `GGTA` (Statistics.py:45-185) are not modelled.
- The capacity checks of Statistics.py:34-40 and the deficit check of Statistics.py:195-198 are not modelled. The source catches and ignores them.
- The overwrites of the nodal series outside `Super` (Statistics.py:205-213) are not modelled. In the source they come before `LPGM` (Statistics.py:228) calls `Debug` (Statistics.py:47), so outside `Super` that call checks `MIndia` replaced by `GIndia` (Statistics.py:207, read at Statistics.py:15) and the pooled storage, deficit and spillage tiled over the nodes. `Statistics.Debug` here checks whatever nodal series the solution holds, which after `Information` are those `Transmission` wrote.
- Optimisation.F: `S.IndiaExport` (Optimisation.py:86) is set neither by `Solution.__init__` (Input.py:145-186) nor by `Reliability`, so as written the objective raises an attribute error at that line. The model evaluates past it and leaves out `export_flag`, `GExport` and the export revenue (Optimisation.py:86-89). `GExport` only feeds the results file, and the revenue is commented out of the cost (Optimisation.py:93), so the model's cost and fitness are those the remaining lines compute.
- The arity and keyword mismatches between callers and `Reliability` are not modelled (Optimisation.py:44-45, Dispatch.py:29, Statistics.py:193). Every call is modelled against the signature of Simulation.py:8, with its six results.
- The first `Reliability` call of `Fill.Analysis` (Fill.py:60) and the statistics derived from it are not modelled. They only feed `print`. `GIndia` at Optimisation.py:48 is also dead and not modelled.
- Aliasing is not modelled: `solution.india_imports` is the caller's array itself in the source (Simulation.py:16). Here the solution holds a copy of its value.
- `'Super' in node` (Optimisation.py:77, Statistics.py:205) is a substring test; the model compares `node == "Super"`. The only node names Input.py accepts make the two agree.
- The peaking reservoir of `Reliability` is commented out in the source (Simulation.py:35-49). Its discharge and storage are therefore zero, and `daily_peaking` and `peaking_hours` are dropped from the model's signature.
- Optimisation.F: requires `|x| == iidx`, the length the optimiser's bounds give it for `Super`. The mismatch for other networks is the first finding below.
- Dispatch.Flexible: requires `year >= 2013`; the source computes a negative window start for earlier years.
- Dispatch.Flexible: the search is proved against a simulator given as a function value, `Trials`, that runs `Trial` on the window. The source calls `Reliability` directly; `Attempt` connects the two.
- Series.Window, Simulation.Run, Simulation.Simulate, Simulation.Netload, Simulation.Trial, Network.Proportions, Network.ImportFactors, Network.Grouped, Network.PeakingBySite, Network.Split, Network.Requirement, Network.Columns, Fill.FillFrom, Fill.Filled, Fill.DeficitWith, Dispatch.Dispatched, Optimisation.CostTerms, Statistics.NodeBalancesAsWritten, Statistics.NodeBalances: their own contracts state only shapes. What they compute is stated by the lemmas and methods about them in the table above.
- Statistics.BalanceHolds: assumes the nodal import, baseload and peaking series add up to the pooled ones (`NodalTotals`). It is not proved from `Transmission`'s sharing, because the nodal imports add up to the pooled imports only when the interconnection capacities do not sum to zero, and the nodal baseload adds up to the pooled baseload only when every hydro site's node is covered.
- Statistics.Information, Statistics.Record: store the corrected topology `TopologyOf`, whose GI row is `+GILP`. Statistics.py:225 stores `-1 * S.GILP`; the second finding below models that row as written (`NodeBalancesAsWritten`) and proves where the two differ.
- Statistics.TopologyOfRows: covers the full eleven-node network only. Reduced networks zero the legs at uncovered nodes.
- Fill.Analysis: does not state that the final deficit is at most the first; the heuristic does not promise that.
- Fill.Analysis: the closing `Information(optimisation_x, imp)` call (Fill.py:96-97) is not modelled. It recomputes the statistics of the final imports only to write them out; `Statistics.Information` is modelled on its own.

## Findings

| source | as written | input that shows it | evidently intended | confidence | as-written member | corrected member |
|---|---|---|---|---|---|---|
| Optimisation.py:113-114 | `lb` has one solar bound per zone and one storage bound per node, but `ub` uses the coverage-filtered `pv_ub`/`phes_ub`, so outside `Super` the two lists differ in length and `zip` truncates | `-n APG_BMY_Only`: 35 lower bounds but 5 upper bounds (no solar zones, four border storage bounds, one energy bound); the first pair is `(0.001, 0.0)` | one bound pair per decision entry, with uncovered entries pinned to their lower bound | not executed | Optimisation.BorderBoundsMismatch | Optimisation.Bounds |
| Statistics.py:225 | the GI row of `Topology` is `-1 * GILP`, while leg GI-LP carries GI's requirement with sign + (Network.py:102) and every other border row gives back its node's requirement | GI requirement 1 MW, every other node 0: the GI row reports -1 MW | `GILP`, so that the GI row is GI's import requirement like the other rows | not executed | Statistics.GIRowNegated | Statistics.NodeBalances |
