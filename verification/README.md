# D2D KPI estimator — a Dafny model

The estimator reads a node table. The table has one base station (the row named `BaseStation`)
and a number of UEs; a UE may name a parent by ID. For each of three 5G NR bands (n77, n260,
n261, in that order), the estimator compares two uplink scenarios:

- **baseline**: every UE transmits straight to the base station;
- **D2D**: every UE transmits to its parent (the base station when it has none). Each distinct
  relay then adds one hop of its own, straight to the base station.

For each scenario it adds up a Shannon sum rate (4x4 MIMO, Rayleigh-style SNR with a random
noise sample, SNR floored at 0.01) and a power proxy (each link's length in km, cubed). It then
reports, per band, the two totals, the power saving and the rate gain in percent.

The model is split into these modules:

- `Outcomes`: `Option`, `Result` and the fatal failures of a run.
- `Channel`: the constants, the band table, the per-link formulas and the power formatter.
- `Topology`: base-station lookup, UE selection, ID lookup, parent resolution and the receive
  gain decision.
- `Hops`: the relay hop and the order-independent sum of hop powers over a relay set.
- `Aggregation`: one band as a specification. The totals are recursive functions of the table.
  The relay set is a function of the resolved parents. The report entry includes its
  zero-division failure.
- `Simulation`: the estimator's loops as methods (`BaselinePass`, `UplinkPass`, `RelayHopPass`,
  `SimulateBand`, `RunBands`, `Simulate`). Each is proved to compute the specification
  functions. The relay loop visits the set in an order it does not choose, and that order is
  returned as a ghost.

The noise generator is a parameter: a stream `noise(drawIndex, bw)`. Every SNR evaluation
consumes the next draw, in the order the estimator makes them:

- band after band;
- within a band, the baseline UEs first, then the D2D UEs, then the relay hops.

`math`'s transcendentals (the haversine arc, `10 ** x`, `log2`) are the fields of a `Kernels`
value. `Sane(k)` states what the proofs assume of them: a non-negative arc, a positive power of
ten, and a `log2` that is non-negative and monotone from 1 upwards.

The model follows the code where the code is stricter or different than its description:

- A missing base station is `Err(NoBaseStation)`, because `iloc[0]` on an empty selection raises.
- A Parent ID naming no row is `Err(DanglingParent(id))`.
- A zero baseline power or rate is `Err(ZeroDivision)`. The percentages divide by them, so a run
  with no UEs, or with every UE standing on the base station, stops there (`NoUesIsFatal`).
- Such failures abort the whole run at the first band that hits one.
- Parent IDs are resolved against every row, including the base station's. The relay and gain
  decisions compare the parent's ID with the base station's ID, not the rows themselves, so with
  duplicate IDs a different row can be received with the base-station gain
  (`DuplicateIdParentIsNotTheBaseStation` gives a two-row table where this happens).

## Model

| member | source | states |
|---|---|---|
| Channel.HaversineM | D2D_KPI.py:31-36 | great-circle distance is EARTH_R * 2 * arc, non-negative when the arc is |
| Channel.DbmToW | D2D_KPI.py:38-39 | a dBm level converts to a positive number of watts |
| Channel.RxGain | D2D_KPI.py:15-20 | the base-station (14 dBi) and relay (6 dBi) receive gains are positive linear factors |
| Channel.UeTxGain | D2D_KPI.py:16-19 | the UE transmit gain (0 dBi) is a positive linear factor |
| Channel.PowSign | D2D_KPI.py:46 | a power `x ** n` is non-negative, positive or non-zero whenever x is |
| Channel.PathLoss | D2D_KPI.py:44-46 | d^3 / lambda^2 is positive for a positive distance and non-zero for a non-zero one |
| Channel.SnrRayleigh | D2D_KPI.py:48-52 | reference SNR: zero distance clamped to 0.1 m, received power over the absolute noise sample; see SnrNonNegative, ZeroDistanceIsClamped |
| Channel.SnrNonNegative | D2D_KPI.py:48-52 | with non-negative power, gains and distance, the SNR is non-negative for every noise sample |
| Channel.ZeroDistanceIsClamped | D2D_KPI.py:48-52 | a zero distance gives exactly the SNR of a 0.1 m link, so path loss never divides by zero |
| Channel.FloorSnr | D2D_KPI.py:81 | the SNR used is at least 0.01, is the SNR itself when that is at least 0.01 and is 0.01 otherwise |
| Channel.Capacity | D2D_KPI.py:54-55 | reference Shannon capacity bw * log2(1 + snr); see CapacityNonNegative, CapacityMonotoneInSnr, CapacityMonotoneInBandwidth |
| Channel.CapacityNonNegative | D2D_KPI.py:54-55 | bw * log2(1 + snr) is non-negative for non-negative bandwidth and SNR |
| Channel.CapacityMonotoneInSnr | D2D_KPI.py:54-55 | capacity never decreases as the SNR grows |
| Channel.CapacityMonotoneInBandwidth | D2D_KPI.py:54-55 | capacity never decreases as the bandwidth grows |
| Channel.LinkRate | D2D_KPI.py:81-82 | reference rate of one link: MIMO_STREAMS times the capacity of the floored SNR (also :89-90, :98-99); see LinkRateNonNegative, DirectUeSameLink |
| Channel.LinkRateNonNegative | D2D_KPI.py:81-82 | thanks to the floor, the MIMO link rate is non-negative whatever the noise sample |
| Channel.ProxyTerm | D2D_KPI.py:83 | reference power proxy of one link, (d / 1000) ** 3 (also :91, :100); see ProxyTermNonNegative |
| Channel.ProxyTermNonNegative | D2D_KPI.py:83 | (d / 1000) ** 3 is non-negative for a non-negative distance |
| Channel.FmtPower | D2D_KPI.py:57-59 | the value is shown in mW exactly when it is below 1000, in W (at least 1) otherwise, and the label scales back to the value |
| Topology.FirstWhereIsFirst | D2D_KPI.py:86 | a row selection followed by `iloc[0]` picks the first matching row, and finds nothing exactly when no row matches |
| Topology.FindBaseStation | D2D_KPI.py:63 | the base station found is a row named BaseStation; none is found exactly when no row has that name |
| Topology.FindById | D2D_KPI.py:86 | the row found carries the ID looked for; none is found exactly when no row has it |
| Topology.FindByIdIsFirst | D2D_KPI.py:86 | with several rows sharing an ID, the lookup returns the earliest |
| Topology.UEs | D2D_KPI.py:64 | reference UE selection, no longer than the table; see UEsAppend, UEsSingle, UEsMultiplicity |
| Topology.UEsAppend | D2D_KPI.py:64 | the selection keeps table order: selecting from a + b is selecting from a, then from b |
| Topology.UEsCons | D2D_KPI.py:64 | helper: a leading row is kept first, or dropped when it is the base station |
| Topology.UEsSingle | D2D_KPI.py:64 | a single row is kept exactly when it is not named BaseStation |
| Topology.UEsMultiplicity | D2D_KPI.py:64 | every non-base-station row is kept as often as the table holds it, no base-station row is kept, and membership follows |
| Topology.ResolveParent | D2D_KPI.py:86 | no Parent ID gives the base station; a Parent ID gives a table row with that ID, and fails with DanglingParent exactly when no row has it |
| Topology.ReceiverFor | D2D_KPI.py:88 | the base-station gain is used exactly when the parent's ID is the base station's ID |
| Topology.Distance | D2D_KPI.py:80-87 | a link's length is non-negative |
| Topology.ParentIdOfBaseStation | D2D_KPI.py:86-93 | a Parent ID equal to the base station's ID resolves, gets the base-station gain and, with unique IDs, is the base station itself |
| Hops.HopPower | D2D_KPI.py:96-100 | reference hop power of a relay from its first row straight to the base station; see RelaysAreFound, HopIgnoresParentIds |
| Hops.HopRate | D2D_KPI.py:96-99 | reference hop rate of a relay with the base-station gain; see HopIgnoresParentIds, RelayRateStep |
| Hops.HopPowerSum | D2D_KPI.py:95-100 | reference hop-power total over the relay set; see HopPowerSumRemove, HopPowerSumNonNegative, SharedRelayCreditedOnce |
| Hops.HopPowerSumRemove | D2D_KPI.py:95-100 | any relay may be taken first: the hop-power sum is independent of the set's iteration order |
| Hops.HopPowerSumNonNegative | D2D_KPI.py:100 | non-negative hop powers give a non-negative sum |
| Hops.HopPowerSumCongruent | D2D_KPI.py:96-100 | tables agreeing on every relay's hop power give the same sum |
| Aggregation.NoRepeatsMeans | D2D_KPI.py:95 | a visit order built append by append without repeats has no two equal positions |
| Aggregation.BaselinePower | D2D_KPI.py:79-83 | reference baseline power total; see BaselinePowerNonNegative, UpPowerAllDirect, BaselinePass |
| Aggregation.BaselineRate | D2D_KPI.py:79-82 | reference baseline sum rate, UE i on draw draw + i; see BaselineRateNonNegative, BaselinePass |
| Aggregation.UpPower | D2D_KPI.py:85-91 | reference uplink power total to the resolved parents; see UpPowerNonNegative, UpPowerAllDirect, UplinkPass |
| Aggregation.UpRate | D2D_KPI.py:85-90 | reference uplink sum rate with each receiver's gain; see UpRateNonNegative, UplinkPass |
| Aggregation.ResolveAll | D2D_KPI.py:85-86 | resolving every UE yields one parent per UE |
| Aggregation.ResolveAllPositions | D2D_KPI.py:85-86 | each UE gets its own resolved parent; a failure is that of the first UE whose parent does not resolve |
| Aggregation.RelayIds | D2D_KPI.py:92-93 | reference relay set of the resolved parents; see RelayIdsMembership, RelayIdsExtend, RelayCountBound |
| Aggregation.RelayIdsMembership | D2D_KPI.py:92-93 | an ID is in the relay set exactly when it is not the base station's ID and some resolved parent has it |
| Aggregation.RelayIdsExtend | D2D_KPI.py:92-93 | a parent with the base station's ID, or an already known relay, leaves the set unchanged; any other adds its ID |
| Aggregation.RelayCountBound | D2D_KPI.py:77-93 | there are never more relays than UEs |
| Aggregation.RelayRate | D2D_KPI.py:95-99 | reference hop sum rate in visiting order, hop j on draw draw + j; see RelayRateNonNegative, RelayHopPass |
| Aggregation.D2DPower | D2D_KPI.py:85-100 | reference D2D power: uplinks plus one hop per distinct relay; see D2DPowerNonNegative, NoRelaysSamePower |
| Aggregation.D2DRate | D2D_KPI.py:85-99 | reference D2D sum rate: uplinks plus the hops in visiting order; see SimulateBand |
| Aggregation.BaselinePowerNonNegative | D2D_KPI.py:79-83 | the baseline power proxy is non-negative |
| Aggregation.BaselineRateNonNegative | D2D_KPI.py:79-82 | the baseline sum rate is non-negative |
| Aggregation.UpPowerNonNegative | D2D_KPI.py:85-91 | the D2D uplink power proxy is non-negative |
| Aggregation.UpRateNonNegative | D2D_KPI.py:85-90 | the D2D uplink sum rate is non-negative |
| Aggregation.RelayRateNonNegative | D2D_KPI.py:95-99 | the relay-hop sum rate is non-negative |
| Aggregation.D2DPowerNonNegative | D2D_KPI.py:85-100 | the D2D power proxy (uplinks plus hops) is non-negative |
| Aggregation.SharedRelayCreditedOnce | D2D_KPI.py:92-100 | a further UE naming a known relay adds no hop, and the relay's hop appears once in the hop sum |
| Aggregation.RelaysAreFound | D2D_KPI.py:96 | every relay ID can be looked up again in the table |
| Aggregation.HopIgnoresParentIds | D2D_KPI.py:95-100 | a relay's hop depends only on IDs and positions, never on Parent IDs, so relays do not chain |
| Aggregation.SameFirstIndex | D2D_KPI.py:96 | tables agreeing on IDs and positions find a relay at the same index |
| Aggregation.FirstIdIndexExists | D2D_KPI.py:96 | a row carrying an ID has a first such row at or before it |
| Aggregation.PowerSaving | D2D_KPI.py:102 | reference saving (1 - d2d / baseline) * 100; see PowerSavingSign, NoRelaysNoSaving |
| Aggregation.PowerSavingSign | D2D_KPI.py:102 | against a positive baseline the saving is positive exactly when D2D power is lower; it is zero exactly when they are equal |
| Aggregation.RateGain | D2D_KPI.py:103 | reference gain (d2d - baseline) / baseline * 100; see RateGainSign |
| Aggregation.RateGainSign | D2D_KPI.py:103 | against a positive baseline the gain is positive exactly when the D2D rate is higher; it is zero exactly when they are equal |
| Aggregation.BandReport | D2D_KPI.py:102-114 | the entry fails with ZeroDivision exactly when a baseline is zero; otherwise it carries the tag, the frequency in GHz, both powers as formatted, both rates in Gbps and both percentages |
| Aggregation.BandOutcome | D2D_KPI.py:70-114 | reference outcome of one band; see BandOutcomeShape, NoUesIsFatal, SimulateBand |
| Aggregation.BandOutcomeShape | D2D_KPI.py:69-114 | a band fails with the first dangling parent, otherwise only with ZeroDivision; an entry carries the band's tag |
| Aggregation.DirectUeSameLink | D2D_KPI.py:80-89 | a UE without a parent has the same link in both scenarios: same receiver, distance and rate |
| Aggregation.UpPowerAllDirect | D2D_KPI.py:83-91 | when every parent is the base station, the uplink power equals the baseline power |
| Aggregation.NoRelaysSamePower | D2D_KPI.py:83-100 | when no UE resolves to a relay, the relay set is empty; with unique IDs the D2D power equals the baseline power |
| Aggregation.NoRelaysNoSaving | D2D_KPI.py:83-102 | with unique IDs and no UE resolving to a relay, the reported power saving is 0 |
| Aggregation.DuplicateIdParentIsNotTheBaseStation | D2D_KPI.py:86-93 | with a UE sharing the base station's ID ahead of it, a parent ID naming that ID resolves to the UE itself, gets the base-station gain, adds no relay, and the D2D power differs from the baseline |
| Aggregation.NoUesIsFatal | D2D_KPI.py:73-102 | with no UEs, a band ends in ZeroDivision |
| Simulation.BaselinePass | D2D_KPI.py:79-83 | the baseline loop computes the baseline power proxy and sum rate, UE i on draw draw + i |
| Simulation.UplinkPass | D2D_KPI.py:85-93 | the D2D loop computes the uplink power, rate and relay set of the resolved parents, or stops with the first dangling parent's failure |
| Simulation.ResolveStep | D2D_KPI.py:86 | helper: resolving one more UE extends the resolved parents by that UE's parent |
| Simulation.UpPowerStep | D2D_KPI.py:91 | helper: one more UE adds its own uplink to the power proxy |
| Simulation.UpRateStep | D2D_KPI.py:87-90 | helper: one more UE adds its own uplink rate, with its receiver's gain and its own draw |
| Simulation.FailureIsFirst | D2D_KPI.py:85-86 | the first UE whose parent does not resolve decides the failure of the whole pass |
| Simulation.RelayHopPass | D2D_KPI.py:95-100 | the relay loop visits every relay exactly once, adds the order-independent hop-power sum and the hop rates in visiting order |
| Simulation.EnumerationStep | D2D_KPI.py:95 | helper: taking one more relay keeps the visit order a repeat-free enumeration of the relays taken |
| Simulation.RelayPowerStep | D2D_KPI.py:100 | helper: taking one more relay adds its hop to the power proxy |
| Simulation.RelayRateStep | D2D_KPI.py:97-99 | helper: hop number j adds its rate on draw draw + j |
| Simulation.SimulateBand | D2D_KPI.py:70-114 | one band yields its specified outcome, consumes 2 draws per UE plus 1 per relay and enumerates every relay once |
| Simulation.D2DTotals | D2D_KPI.py:90-100 | helper: the D2D totals are the uplink totals plus the hop totals |
| Simulation.BandOutcomeOk | D2D_KPI.py:102-114 | helper: a band whose parents resolve reports on its three passes' totals |
| Simulation.Collect | D2D_KPI.py:105 | reference run result from the band outcomes: the first failure, else every entry; see CollectOk, CollectErr |
| Simulation.CollectOk | D2D_KPI.py:105 | the run succeeds exactly when every band does, and then keeps every entry in band order |
| Simulation.CollectErr | D2D_KPI.py:69-114 | a failed run reports the failure of its first failing band, every earlier band having succeeded |
| Simulation.BandsAgreeExtend | D2D_KPI.py:69 | helper: appending the next band's outcome keeps outcomes and bands in step |
| Simulation.RunEntries | D2D_KPI.py:69-114 | in a successful run, entry b is the outcome of band b starting at draw b * (draws per band) |
| Simulation.RunFailure | D2D_KPI.py:69-114 | a failed run's failure is that of the first band whose outcome fails |
| Simulation.NextBandStart | D2D_KPI.py:69 | helper: band b + 1 starts right after the draws of band b |
| Simulation.BandStep | D2D_KPI.py:69-114 | helper: one turn of the band loop adds band b's outcome, starting at its own draw |
| Simulation.RunBands | D2D_KPI.py:67-114 | the band loop yields one outcome per band visited, in table order, stops at the first failure and otherwise reports n77, n260, n261 |
| Simulation.Simulate | D2D_KPI.py:63-114 | no base station is NoBaseStation; a dangling parent is its failure; otherwise every band's entry in order, or ZeroDivision |

## Left out

- Noise generation (D2D_KPI.py:41-42): the normal distribution around kT·bw, and so `TEMP_K` and `BOLTZ`, is replaced by a caller-supplied stream. Its samples are required to be non-zero, as a continuous distribution's are.
- Transcendental functions (`math.radians`, `sin`, `cos`, `sqrt`, `atan2`, `10 **`, `log2`) are left uninterpreted in `Kernels`. The gains are `pow10` of the dBi constants.
- Floating point: all arithmetic is exact on reals, so rounding, overflow and the `atan2` domain error of a haversine term slightly above 1 are not modelled.
- Text formatting: the f-string rounding to one or two decimals and the " mW"/" W"/" Gbps"/"%" suffixes are not modelled. `BandResult` keeps the exact scaled values and `PowerLabel` the unit.
- CSV loading (D2D_KPI.py:62) and printing the result table (D2D_KPI.py:116-119) are I/O. The table is a parameter and the results are returned.
- Hops.HopPower: returns 0 for a relay ID with no row. That case cannot arise, because every relay ID comes from a row (`RelaysAreFound`).
- Hops.HopRate: returns 0 for a relay ID with no row, for the same reason.
- Simulation.RelayHopPass: Python's set iteration order is not modelled. The loop takes any remaining relay, and the order it used is a ghost result. Power is proved order-independent. The rate is stated for the order taken, because the order decides which noise draw each hop gets.
- The Python value types of pandas rows (NaN Parent IDs, float/int ID comparison) are modelled as `Option<int>` IDs.
