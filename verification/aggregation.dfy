/** Specification of one band of the estimator: the baseline and D2D accumulators as functions of
    the node table, the percentages and report entry derived from them, and their properties. */
module Aggregation {
  import opened Outcomes
  import opened Channel
  import opened Topology
  import opened Hops

  function Last<T>(s: seq<T>): T
    requires |s| > 0
  {
    s[|s| - 1]
  }

  function Init<T>(s: seq<T>): seq<T>
    requires |s| > 0
  {
    s[..|s| - 1]
  }

  /** No element occurs twice: each one is new when it is appended. */
  ghost predicate NoRepeats<T>(s: seq<T>)
    decreases |s|
  {
    s == [] || (Last(s) !in Init(s) && NoRepeats(Init(s)))
  }

  /** The append-by-append definition means that no two positions hold the same element. */
  lemma {:induction false} NoRepeatsMeans<T>(s: seq<T>)
    ensures NoRepeats(s) <==> forall i, j :: 0 <= i < j < |s| ==> s[i] != s[j]
    decreases |s|
  {
    if s != [] {
      var prefix := Init(s);
      NoRepeatsMeans(prefix);
      assert forall i :: 0 <= i < |prefix| ==> prefix[i] == s[i];
      if NoRepeats(s) {
        forall i, j | 0 <= i < j < |s|
          ensures s[i] != s[j]
        {
          if j == |s| - 1 {
            assert s[i] == prefix[i];
          }
        }
      }
    }
  }

  /** A visit order of a relay set: every relay exactly once. */
  ghost predicate Enumerates(order: seq<NodeId>, relays: set<NodeId>) {
    && |order| == |relays|
    && (forall pid :: pid in order <==> pid in relays)
    && NoRepeats(order)
  }

  // ---------------------------------------------------------------------------------------------
  // Baseline scenario: every UE talks straight to the base station.

  /** Sum over the UEs of the power proxy of their direct link. */
  function BaselinePower(k: Kernels, ues: seq<Node>, bs: Node): real
    decreases |ues|
  {
    if ues == [] then 0.0
    else BaselinePower(k, Init(ues), bs) + ProxyTerm(Distance(k, Last(ues), bs))
  }

  /** Sum over the UEs of the rate of their direct link; UE i consumes noise draw draw + i. */
  function BaselineRate(k: Kernels, band: Band, pt: real, ues: seq<Node>, bs: Node,
                        noise: NoiseStream, draw: nat): real
    requires band.fc != 0.0 && NonZeroNoise(noise)
    decreases |ues|
  {
    if ues == [] then 0.0
    else
      BaselineRate(k, band, pt, Init(ues), bs, noise, draw)
      + LinkRate(k, band, pt, Distance(k, Last(ues), bs), BaseStationRx, noise(draw + |ues| - 1, band.bw))
  }

  // ---------------------------------------------------------------------------------------------
  // D2D scenario: every UE talks to its resolved parent; each distinct relay adds one hop.

  /** The resolved parents of the UEs, position by position; the first dangling Parent ID is fatal. */
  function ResolveAll(table: seq<Node>, bs: Node, ues: seq<Node>): (r: Result<seq<Node>>)
    ensures r.Ok? ==> |r.value| == |ues|
    decreases |ues|
  {
    if ues == [] then Ok([])
    else
      match ResolveAll(table, bs, Init(ues))
      case Err(e) => Err(e)
      case Ok(ps) =>
        match ResolveParent(table, bs, Last(ues))
        case Err(e) => Err(e)
        case Ok(p) => Ok(ps + [p])
  }

  /** Success gives every UE its own resolved parent at its own position; failure is the failure
      of the first UE whose parent does not resolve. */
  lemma {:induction false} ResolveAllPositions(table: seq<Node>, bs: Node, ues: seq<Node>)
    ensures ResolveAll(table, bs, ues).Ok? ==>
              forall i :: 0 <= i < |ues| ==> ResolveParent(table, bs, ues[i]) == Ok(ResolveAll(table, bs, ues).value[i])
    ensures ResolveAll(table, bs, ues).Err? ==>
              exists i :: 0 <= i < |ues| && ResolveParent(table, bs, ues[i]) == Err(ResolveAll(table, bs, ues).failure)
                       && forall j :: 0 <= j < i ==> ResolveParent(table, bs, ues[j]).Ok?
    decreases |ues|
  {
    if ues != [] {
      var prefix := Init(ues);
      ResolveAllPositions(table, bs, prefix);
      assert forall i :: 0 <= i < |prefix| ==> prefix[i] == ues[i];
    }
  }

  /** Sum over the UEs of the power proxy of their uplink to the resolved parent. */
  function UpPower(k: Kernels, ues: seq<Node>, parents: seq<Node>): real
    requires |parents| == |ues|
    decreases |ues|
  {
    if ues == [] then 0.0
    else UpPower(k, Init(ues), Init(parents)) + ProxyTerm(Distance(k, Last(ues), Last(parents)))
  }

  /** Sum over the UEs of the rate of their uplink; UE i consumes noise draw draw + i. */
  function UpRate(k: Kernels, band: Band, pt: real, ues: seq<Node>, parents: seq<Node>, bs: Node,
                  noise: NoiseStream, draw: nat): real
    requires |parents| == |ues|
    requires band.fc != 0.0 && NonZeroNoise(noise)
    decreases |ues|
  {
    if ues == [] then 0.0
    else
      UpRate(k, band, pt, Init(ues), Init(parents), bs, noise, draw)
      + LinkRate(k, band, pt, Distance(k, Last(ues), Last(parents)),
                 ReceiverFor(Last(parents), bs), noise(draw + |ues| - 1, band.bw))
  }

  /** IDs of the resolved parents that are not the base station. */
  function RelayIds(parents: seq<Node>, bs: Node): set<NodeId>
    decreases |parents|
  {
    if parents == [] then {}
    else
      RelayIds(Init(parents), bs)
      + (if Last(parents).id != bs.id then {Last(parents).id} else {})
  }

  /** The relay set is exactly the non-base-station IDs among the parents. */
  lemma {:induction false} RelayIdsMembership(parents: seq<Node>, bs: Node, id: NodeId)
    ensures id in RelayIds(parents, bs)
        <==> id != bs.id && exists i :: 0 <= i < |parents| && parents[i].id == id
    decreases |parents|
  {
    if parents != [] {
      var prefix := Init(parents);
      RelayIdsMembership(prefix, bs, id);
      assert forall i :: 0 <= i < |prefix| ==> prefix[i] == parents[i];
      if id != bs.id && (exists i :: 0 <= i < |parents| && parents[i].id == id) {
        var i :| 0 <= i < |parents| && parents[i].id == id;
        if i < |prefix| {
          assert prefix[i].id == id;
        }
      }
    }
  }

  /** A UE whose parent is the base station, or a relay already credited, leaves the relay set as
      it was; any other parent adds exactly its own ID. */
  lemma RelayIdsExtend(parents: seq<Node>, p: Node, bs: Node)
    ensures p.id == bs.id || p.id in RelayIds(parents, bs)
        ==> RelayIds(parents + [p], bs) == RelayIds(parents, bs)
    ensures p.id != bs.id ==> RelayIds(parents + [p], bs) == RelayIds(parents, bs) + {p.id}
  {
    assert Init(parents + [p]) == parents;
  }

  /** At most one relay per UE: the relay set is never larger than the UE list. */
  lemma {:induction false} RelayCountBound(parents: seq<Node>, bs: Node)
    ensures |RelayIds(parents, bs)| <= |parents|
    decreases |parents|
  {
    if parents != [] {
      RelayCountBound(Init(parents), bs);
    }
  }

  /** Sum of the hop rates of relays visited in the given order; hop j consumes draw draw + j. */
  function RelayRate(k: Kernels, band: Band, pt: real, table: seq<Node>, bs: Node, order: seq<NodeId>,
                     noise: NoiseStream, draw: nat): real
    requires band.fc != 0.0 && NonZeroNoise(noise)
    decreases |order|
  {
    if order == [] then 0.0
    else
      RelayRate(k, band, pt, table, bs, Init(order), noise, draw)
      + HopRate(k, band, pt, table, bs, Last(order), noise(draw + |order| - 1, band.bw))
  }

  /** D2D power proxy: every UE's uplink plus one hop per distinct relay. */
  ghost function D2DPower(k: Kernels, table: seq<Node>, bs: Node, ues: seq<Node>, parents: seq<Node>): real
    requires |parents| == |ues|
  {
    UpPower(k, ues, parents) + HopPowerSum(k, table, bs, RelayIds(parents, bs))
  }

  /** Where each of a band's three passes starts in the noise stream. */
  datatype Draws = Draws(baseline: nat, uplink: nat, hops: nat)

  /** A band starting at draw first: the baseline pass takes one draw per UE, the uplink pass the
      next one per UE, the relay hops the rest. */
  function BandDraws(first: nat, ueCount: nat): Draws {
    Draws(first, first + ueCount, first + ueCount + ueCount)
  }

  /** Draws one band consumes: two per UE, then one per relay. */
  function DrawsPerBand(ueCount: nat, relayCount: nat): nat {
    2 * ueCount + relayCount
  }

  /** D2D sum rate: every UE's uplink, then one hop per relay in visiting order. */
  ghost function D2DRate(k: Kernels, band: Band, pt: real, table: seq<Node>, bs: Node, ues: seq<Node>,
                         parents: seq<Node>, order: seq<NodeId>, noise: NoiseStream, draws: Draws): real
    requires |parents| == |ues| && band.fc != 0.0 && NonZeroNoise(noise)
  {
    UpRate(k, band, pt, ues, parents, bs, noise, draws.uplink)
    + RelayRate(k, band, pt, table, bs, order, noise, draws.hops)
  }

  // ---------------------------------------------------------------------------------------------
  // Every total is non-negative: distances and the SNR floor keep each term so.

  lemma {:induction false} BaselinePowerNonNegative(k: Kernels, ues: seq<Node>, bs: Node)
    requires Sane(k)
    ensures BaselinePower(k, ues, bs) >= 0.0
    decreases |ues|
  {
    if ues != [] {
      BaselinePowerNonNegative(k, Init(ues), bs);
      ProxyTermNonNegative(Distance(k, Last(ues), bs));
    }
  }

  lemma {:induction false} BaselineRateNonNegative(k: Kernels, band: Band, pt: real, ues: seq<Node>, bs: Node,
                                                   noise: NoiseStream, draw: nat)
    requires band.fc != 0.0 && NonZeroNoise(noise)
    requires Sane(k) && band.bw >= 0.0
    ensures BaselineRate(k, band, pt, ues, bs, noise, draw) >= 0.0
    decreases |ues|
  {
    if ues != [] {
      BaselineRateNonNegative(k, band, pt, Init(ues), bs, noise, draw);
      LinkRateNonNegative(k, band, pt, Distance(k, Last(ues), bs), BaseStationRx, noise(draw + |ues| - 1, band.bw));
    }
  }

  lemma {:induction false} UpPowerNonNegative(k: Kernels, ues: seq<Node>, parents: seq<Node>)
    requires Sane(k) && |parents| == |ues|
    ensures UpPower(k, ues, parents) >= 0.0
    decreases |ues|
  {
    if ues != [] {
      UpPowerNonNegative(k, Init(ues), Init(parents));
      ProxyTermNonNegative(Distance(k, Last(ues), Last(parents)));
    }
  }

  lemma {:induction false} UpRateNonNegative(k: Kernels, band: Band, pt: real, ues: seq<Node>, parents: seq<Node>,
                                             bs: Node, noise: NoiseStream, draw: nat)
    requires |parents| == |ues| && band.fc != 0.0 && NonZeroNoise(noise)
    requires Sane(k) && band.bw >= 0.0
    ensures UpRate(k, band, pt, ues, parents, bs, noise, draw) >= 0.0
    decreases |ues|
  {
    if ues != [] {
      UpRateNonNegative(k, band, pt, Init(ues), Init(parents), bs, noise, draw);
      LinkRateNonNegative(k, band, pt, Distance(k, Last(ues), Last(parents)),
                          ReceiverFor(Last(parents), bs), noise(draw + |ues| - 1, band.bw));
    }
  }

  lemma {:induction false} RelayRateNonNegative(k: Kernels, band: Band, pt: real, table: seq<Node>, bs: Node,
                                                order: seq<NodeId>, noise: NoiseStream, draw: nat)
    requires band.fc != 0.0 && NonZeroNoise(noise)
    requires Sane(k) && band.bw >= 0.0
    ensures RelayRate(k, band, pt, table, bs, order, noise, draw) >= 0.0
    decreases |order|
  {
    if order != [] {
      RelayRateNonNegative(k, band, pt, table, bs, Init(order), noise, draw);
      match FindById(table, Last(order))
      case None =>
      case Some(relay) =>
        LinkRateNonNegative(k, band, pt, Distance(k, relay, bs), BaseStationRx, noise(draw + |order| - 1, band.bw));
    }
  }

  lemma D2DPowerNonNegative(k: Kernels, table: seq<Node>, bs: Node, ues: seq<Node>, parents: seq<Node>)
    requires Sane(k) && |parents| == |ues|
    ensures D2DPower(k, table, bs, ues, parents) >= 0.0
  {
    UpPowerNonNegative(k, ues, parents);
    forall pid | pid in RelayIds(parents, bs)
      ensures HopPower(k, table, bs, pid) >= 0.0
    {
      match FindById(table, pid)
      case None =>
      case Some(relay) => ProxyTermNonNegative(Distance(k, relay, bs));
    }
    HopPowerSumNonNegative(k, table, bs, RelayIds(parents, bs));
  }

  /** A relay shared by several UEs is credited once: a further UE naming it adds no hop, and the
      hop sum is the relay's own hop plus those of the other relays. */
  lemma SharedRelayCreditedOnce(k: Kernels, table: seq<Node>, bs: Node, parents: seq<Node>, p: Node)
    requires p.id in RelayIds(parents, bs)
    ensures HopPowerSum(k, table, bs, RelayIds(parents + [p], bs))
         == HopPowerSum(k, table, bs, RelayIds(parents, bs))
    ensures HopPowerSum(k, table, bs, RelayIds(parents, bs))
         == HopPower(k, table, bs, p.id) + HopPowerSum(k, table, bs, RelayIds(parents, bs) - {p.id})
  {
    RelayIdsExtend(parents, p, bs);
    HopPowerSumRemove(k, table, bs, RelayIds(parents, bs), p.id);
  }

  /** Every resolved parent is a row of the table, so every relay ID can be looked up again. */
  lemma RelaysAreFound(table: seq<Node>, bs: Node, ues: seq<Node>)
    requires bs in table && ResolveAll(table, bs, ues).Ok?
    ensures forall pid :: pid in RelayIds(ResolveAll(table, bs, ues).value, bs) ==> FindById(table, pid).Some?
  {
    var ps := ResolveAll(table, bs, ues).value;
    ResolveAllPositions(table, bs, ues);
    forall pid | pid in RelayIds(ps, bs)
      ensures FindById(table, pid).Some?
    {
      RelayIdsMembership(ps, bs, pid);
      var i :| 0 <= i < |ps| && ps[i].id == pid;
      assert ResolveParent(table, bs, ues[i]) == Ok(ps[i]);
      assert ps[i] in table;
    }
  }

  /** Rows that agree in ID and position, whatever their Parent IDs. */
  ghost predicate SamePositions(table: seq<Node>, other: seq<Node>) {
    && |table| == |other|
    && forall i :: 0 <= i < |table| ==>
         table[i].id == other[i].id && table[i].lat == other[i].lat && table[i].lon == other[i].lon
  }

  /** The hop of a relay goes straight to the base station: the relay's own Parent ID (and every
      other row's) plays no part in it, so relays never chain. */
  lemma HopIgnoresParentIds(k: Kernels, band: Band, pt: real, table: seq<Node>, other: seq<Node>,
                            bs: Node, relays: set<NodeId>, noiseSample: real)
    requires SamePositions(table, other)
    requires band.fc != 0.0 && noiseSample != 0.0
    ensures forall pid :: HopRate(k, band, pt, table, bs, pid, noiseSample)
                       == HopRate(k, band, pt, other, bs, pid, noiseSample)
    ensures HopPowerSum(k, table, bs, relays) == HopPowerSum(k, other, bs, relays)
  {
    forall pid
      ensures FindById(table, pid).Some? == FindById(other, pid).Some?
      ensures FindById(table, pid).Some? ==>
                Distance(k, FindById(table, pid).value, bs) == Distance(k, FindById(other, pid).value, bs)
    {
      SameFirstIndex(table, other, pid);
    }
    HopPowerSumCongruent(k, table, other, bs, relays);
  }

  lemma SameFirstIndex(table: seq<Node>, other: seq<Node>, id: NodeId)
    requires SamePositions(table, other)
    ensures FindById(table, id).Some? == FindById(other, id).Some?
    ensures FindById(table, id).Some? ==>
              exists i :: 0 <= i < |table| && FindById(table, id) == Some(table[i])
                       && FindById(other, id) == Some(other[i])
  {
    var r := FindById(table, id);
    if r.Some? {
      var i :| 0 <= i < |table| && table[i] == r.value;
      var i0 :| 0 <= i0 <= i && table[i0].id == id && forall j :: 0 <= j < i0 ==> table[j].id != id
        by { FirstIdIndexExists(table, id, i); }
      FindByIdIsFirst(table, id, i0);
      FindByIdIsFirst(other, id, i0);
    } else {
      assert forall j :: 0 <= j < |other| ==> other[j].id == table[j].id;
    }
  }

  lemma {:induction false} FirstIdIndexExists(table: seq<Node>, id: NodeId, i: nat)
    requires i < |table| && table[i].id == id
    ensures exists i0 :: 0 <= i0 <= i && table[i0].id == id && forall j :: 0 <= j < i0 ==> table[j].id != id
    decreases i
  {
    if exists j :: 0 <= j < i && table[j].id == id {
      var j :| 0 <= j < i && table[j].id == id;
      FirstIdIndexExists(table, id, j);
    } else {
      assert forall j :: 0 <= j < i ==> table[j].id != id;
    }
  }

  // ---------------------------------------------------------------------------------------------
  // Percentages and the report entry.

  /** One entry of the result table, before rounding to text. */
  datatype BandResult = BandResult(
    tag: string,
    freqGhz: real,
    baselinePower: PowerLabel,
    d2dPower: PowerLabel,
    powerSavingPct: real,
    baselineRateGbps: real,
    d2dRateGbps: real,
    rateGainPct: real)

  /** Percentage of the baseline power proxy saved by D2D. */
  function PowerSaving(baseline: real, d2d: real): real
    requires baseline != 0.0
  {
    (1.0 - d2d / baseline) * 100.0
  }

  /** Against a positive baseline, the saving is positive exactly when D2D needs less power, and
      against any baseline it is zero exactly when both are equal. */
  lemma PowerSavingSign(baseline: real, d2d: real)
    requires baseline != 0.0
    ensures baseline > 0.0 ==> (PowerSaving(baseline, d2d) > 0.0 <==> d2d < baseline)
    ensures PowerSaving(baseline, d2d) == 0.0 <==> d2d == baseline
  {
    var q := d2d / baseline;
    assert q * baseline == d2d;
    if baseline > 0.0 {
      assert q < 1.0 <==> d2d < baseline;
    }
  }

  /** Percentage by which the D2D sum rate exceeds the baseline sum rate. */
  function RateGain(baseline: real, d2d: real): real
    requires baseline != 0.0
  {
    (d2d - baseline) / baseline * 100.0
  }

  /** Against a positive baseline, the gain is positive exactly when D2D is faster, and against any
      baseline it is zero exactly when both are equal. */
  lemma RateGainSign(baseline: real, d2d: real)
    requires baseline != 0.0
    ensures baseline > 0.0 ==> (RateGain(baseline, d2d) > 0.0 <==> d2d > baseline)
    ensures RateGain(baseline, d2d) == 0.0 <==> d2d == baseline
  {
    var q := (d2d - baseline) / baseline;
    assert q * baseline == d2d - baseline;
    if baseline > 0.0 {
      assert q > 0.0 <==> d2d > baseline;
    }
  }

  /** The report entry of one band; a zero baseline denominator is a fatal division by zero. */
  function BandReport(band: Band, powerBaseline: real, powerD2d: real, rateBaseline: real, rateD2d: real)
    : (r: Result<BandResult>)
    ensures r.Err? <==> powerBaseline == 0.0 || rateBaseline == 0.0
    ensures r.Err? ==> r.failure == ZeroDivision
    ensures r.Ok? ==> r.value.tag == band.tag && r.value.freqGhz * 1.0e9 == band.fc
    ensures r.Ok? ==> LabelValue(r.value.baselinePower) == powerBaseline && LabelValue(r.value.d2dPower) == powerD2d
    ensures r.Ok? ==> r.value.baselineRateGbps * 1.0e9 == rateBaseline && r.value.d2dRateGbps * 1.0e9 == rateD2d
    ensures r.Ok? ==> r.value.powerSavingPct == PowerSaving(powerBaseline, powerD2d)
    ensures r.Ok? ==> r.value.rateGainPct == RateGain(rateBaseline, rateD2d)
  {
    if powerBaseline == 0.0 || rateBaseline == 0.0 then Err(ZeroDivision)
    else
      Ok(BandResult(
        band.tag,
        band.fc / 1.0e9,
        FmtPower(powerBaseline),
        FmtPower(powerD2d),
        PowerSaving(powerBaseline, powerD2d),
        rateBaseline / 1.0e9,
        rateD2d / 1.0e9,
        RateGain(rateBaseline, rateD2d)))
  }

  /** Everything one band yields, with the relays visited in the given order. The baseline pass
      starts at draws.baseline, the uplink pass at draws.uplink, the relay hops at draws.hops. */
  ghost function BandOutcome(k: Kernels, table: seq<Node>, bs: Node, ues: seq<Node>, band: Band,
                             noise: NoiseStream, draws: Draws, order: seq<NodeId>): Result<BandResult>
    requires band.fc != 0.0 && NonZeroNoise(noise)
  {
    match ResolveAll(table, bs, ues)
    case Err(e) => Err(e)
    case Ok(ps) =>
      var pt := DbmToW(k, band.eirpDbm);
      BandReport(band,
        BaselinePower(k, ues, bs),
        D2DPower(k, table, bs, ues, ps),
        BaselineRate(k, band, pt, ues, bs, noise, draws.baseline),
        D2DRate(k, band, pt, table, bs, ues, ps, order, noise, draws))
  }

  /** A band fails with the resolution failure when a parent is dangling, and otherwise only on a
      zero baseline; a report entry carries the band's tag. */
  lemma BandOutcomeShape(k: Kernels, table: seq<Node>, bs: Node, ues: seq<Node>, band: Band,
                         noise: NoiseStream, draws: Draws, order: seq<NodeId>)
    requires band.fc != 0.0 && NonZeroNoise(noise)
    ensures ResolveAll(table, bs, ues).Err? ==>
              BandOutcome(k, table, bs, ues, band, noise, draws, order) == Err(ResolveAll(table, bs, ues).failure)
    ensures ResolveAll(table, bs, ues).Ok? && BandOutcome(k, table, bs, ues, band, noise, draws, order).Err? ==>
              BandOutcome(k, table, bs, ues, band, noise, draws, order).failure == ZeroDivision
    ensures BandOutcome(k, table, bs, ues, band, noise, draws, order).Ok? ==>
              BandOutcome(k, table, bs, ues, band, noise, draws, order).value.tag == band.tag
  {
  }

  // ---------------------------------------------------------------------------------------------
  // Properties relating the two scenarios.

  /** A UE without a Parent ID has the same link in both scenarios: same distance, same gain. */
  lemma DirectUeSameLink(k: Kernels, band: Band, pt: real, table: seq<Node>, bs: Node, ue: Node,
                         noiseSample: real)
    requires ue.parentId.None? && band.fc != 0.0 && noiseSample != 0.0
    ensures ResolveParent(table, bs, ue) == Ok(bs)
    ensures ReceiverFor(ResolveParent(table, bs, ue).value, bs) == BaseStationRx
    ensures LinkRate(k, band, pt, Distance(k, ue, ResolveParent(table, bs, ue).value),
                     ReceiverFor(ResolveParent(table, bs, ue).value, bs), noiseSample)
         == LinkRate(k, band, pt, Distance(k, ue, bs), BaseStationRx, noiseSample)
  {
  }

  /** When every parent is the base station, the uplink power is the baseline power. */
  lemma {:induction false} UpPowerAllDirect(k: Kernels, ues: seq<Node>, parents: seq<Node>, bs: Node)
    requires |parents| == |ues|
    requires forall i :: 0 <= i < |parents| ==> parents[i] == bs
    ensures UpPower(k, ues, parents) == BaselinePower(k, ues, bs)
    decreases |ues|
  {
    if ues != [] {
      UpPowerAllDirect(k, Init(ues), Init(parents), bs);
    }
  }

  /** When no UE resolves to a relay, the relay set is empty; with unique IDs every parent is then
      the base station itself and the D2D power equals the baseline power. */
  lemma NoRelaysSamePower(k: Kernels, table: seq<Node>, bs: Node, ues: seq<Node>)
    requires bs in table
    requires ResolveAll(table, bs, ues).Ok?
    requires forall i :: 0 <= i < |ues| ==> ResolveAll(table, bs, ues).value[i].id == bs.id
    ensures RelayIds(ResolveAll(table, bs, ues).value, bs) == {}
    ensures UniqueIds(table) ==>
              D2DPower(k, table, bs, ues, ResolveAll(table, bs, ues).value) == BaselinePower(k, ues, bs)
  {
    var ps := ResolveAll(table, bs, ues).value;
    ResolveAllPositions(table, bs, ues);
    forall id | id in RelayIds(ps, bs)
      ensures false
    {
      RelayIdsMembership(ps, bs, id);
    }
    if UniqueIds(table) {
      forall i | 0 <= i < |ps|
        ensures ps[i] == bs
      {
        assert ResolveParent(table, bs, ues[i]) == Ok(ps[i]);
        assert ps[i] in table;
        var a :| 0 <= a < |table| && table[a] == ps[i];
        var b :| 0 <= b < |table| && table[b] == bs;
        assert a == b;
      }
      UpPowerAllDirect(k, ues, ps, bs);
    }
  }

  /** With unique IDs and no UE resolving to a relay, the reported power saving is zero. */
  lemma NoRelaysNoSaving(k: Kernels, table: seq<Node>, bs: Node, ues: seq<Node>, band: Band,
                         noise: NoiseStream, draws: Draws, order: seq<NodeId>)
    requires bs in table && UniqueIds(table)
    requires band.fc != 0.0 && NonZeroNoise(noise)
    requires ResolveAll(table, bs, ues).Ok?
    requires forall i :: 0 <= i < |ues| ==> ResolveAll(table, bs, ues).value[i].id == bs.id
    ensures BandOutcome(k, table, bs, ues, band, noise, draws, order).Ok?
        ==> BandOutcome(k, table, bs, ues, band, noise, draws, order).value.powerSavingPct == 0.0
  {
    NoRelaysSamePower(k, table, bs, ues);
    var power := BaselinePower(k, ues, bs);
    if power != 0.0 {
      PowerSavingSign(power, power);
    }
  }

  /** Why NoRelaysSamePower needs unique IDs: when a UE shares the base station's ID and comes
      first in the table, a UE naming that ID as its parent resolves to itself, is received with
      the base-station gain and adds no relay, yet its uplink has length zero while its baseline
      link does not. */
  lemma DuplicateIdParentIsNotTheBaseStation(k: Kernels)
    requires Sane(k)
    requires k.centralAngle(0.0, 0.0, 0.0, 0.0) == 0.0 && k.centralAngle(0.0, 0.0, 1.0, 1.0) > 0.0
    ensures var ue := Node(0, "ue", 0.0, 0.0, Some(0));
            var bs := Node(0, BASE_STATION_NAME, 1.0, 1.0, None);
            var table := [ue, bs];
            && FindBaseStation(table) == Some(bs)
            && UEs(table) == [ue]
            && !UniqueIds(table)
            && ResolveAll(table, bs, [ue]) == Ok([ue])
            && ReceiverFor(ue, bs) == BaseStationRx
            && RelayIds([ue], bs) == {}
            && D2DPower(k, table, bs, [ue], [ue]) < BaselinePower(k, [ue], bs)
  {
    var ue := Node(0, "ue", 0.0, 0.0, Some(0));
    var bs := Node(0, BASE_STATION_NAME, 1.0, 1.0, None);
    var table := [ue, bs];
    assert !IsBaseStation(ue);
    assert FirstWhere(table, NamedBaseStation) == Some(1);
    assert FirstWhere(table, HasId(0)) == Some(0);
    assert FindById(table, 0) == Some(ue);
    assert ResolveParent(table, bs, ue) == Ok(ue);
    assert Init([ue]) == [] && Last([ue]) == ue;
    assert ResolveAll(table, bs, []) == Ok([]);
    assert ResolveAll(table, bs, [ue]) == Ok([] + [ue]);
    assert [] + [ue] == [ue];
    UEsAppend([ue], [bs]);
    UEsSingle(ue);
    UEsSingle(bs);
    assert Distance(k, ue, ue) == 0.0;
    assert ProxyTerm(0.0) == 0.0;
    assert UpPower(k, [ue], [ue]) == UpPower(k, [], []) + ProxyTerm(Distance(k, ue, ue)) == 0.0;
    var dBs := Distance(k, ue, bs);
    assert dBs > 0.0;
    PowSign(dBs / 1000.0, PATH_EXP);
    assert BaselinePower(k, [ue], bs) == BaselinePower(k, [], bs) + ProxyTerm(dBs) > 0.0;
    assert HopPowerSum(k, table, bs, {}) == 0.0;
  }

  /** With no UEs the baseline power is zero, so the percentage derivation divides by zero. */
  lemma NoUesIsFatal(k: Kernels, table: seq<Node>, bs: Node, band: Band, noise: NoiseStream,
                     draws: Draws, order: seq<NodeId>)
    requires band.fc != 0.0 && NonZeroNoise(noise)
    ensures BandOutcome(k, table, bs, [], band, noise, draws, order) == Err(ZeroDivision)
  {
  }
}
