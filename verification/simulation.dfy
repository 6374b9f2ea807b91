/** The estimator's simulation loop: per band, a baseline pass, a D2D pass and one relay hop per
    distinct relay, each accumulating rate and power proxy step by step. */
module Simulation {
  import opened Outcomes
  import opened Channel
  import opened Topology
  import opened Hops
  import opened Aggregation

  /** Baseline pass: UE i links directly to the base station and consumes draw draw + i. */
  method BaselinePass(k: Kernels, band: Band, pt: real, ues: seq<Node>, bs: Node,
                      noise: NoiseStream, draw: nat) returns (power: real, rate: real)
    requires band.fc != 0.0 && NonZeroNoise(noise)
    ensures power == BaselinePower(k, ues, bs)
    ensures rate == BaselineRate(k, band, pt, ues, bs, noise, draw)
  {
    power, rate := 0.0, 0.0;
    for i := 0 to |ues|
      invariant power == BaselinePower(k, ues[..i], bs)
      invariant rate == BaselineRate(k, band, pt, ues[..i], bs, noise, draw)
    {
      var dBs := Distance(k, ues[i], bs);
      rate := rate + LinkRate(k, band, pt, dBs, BaseStationRx, noise(draw + i, band.bw));
      power := power + ProxyTerm(dBs);
      assert Init(ues[..i + 1]) == ues[..i];
    }
    assert ues[..|ues|] == ues;
  }

  /** Totals of the D2D pass. */
  datatype Uplink = Uplink(power: real, rate: real, relays: set<NodeId>)

  /** D2D pass: UE i links to its resolved parent, with the gain of that receiver, and consumes
      draw draw + i; every parent other than the base station joins the relay set. */
  method UplinkPass(k: Kernels, band: Band, pt: real, table: seq<Node>, bs: Node, ues: seq<Node>,
                    noise: NoiseStream, draw: nat) returns (r: Result<Uplink>)
    requires band.fc != 0.0 && NonZeroNoise(noise)
    ensures ResolveAll(table, bs, ues).Err? ==> r == Err(ResolveAll(table, bs, ues).failure)
    ensures ResolveAll(table, bs, ues).Ok? ==>
              var ps := ResolveAll(table, bs, ues).value;
              r == Ok(Uplink(UpPower(k, ues, ps), UpRate(k, band, pt, ues, ps, bs, noise, draw), RelayIds(ps, bs)))
  {
    var power, rate, relays := 0.0, 0.0, {};
    ghost var ps: seq<Node> := [];
    for i := 0 to |ues|
      invariant ResolveAll(table, bs, ues[..i]) == Ok(ps)
      invariant |ps| == i
      invariant power == UpPower(k, ues[..i], ps)
      invariant rate == UpRate(k, band, pt, ues[..i], ps, bs, noise, draw)
      invariant relays == RelayIds(ps, bs)
    {
      var parent: Node;
      match ResolveParent(table, bs, ues[i]) {
        case Err(e) =>
          FailureIsFirst(table, bs, ues, i);
          return Err(e);
        case Ok(p) =>
          parent := p;
      }
      var dUp := Distance(k, ues[i], parent);
      var rx := ReceiverFor(parent, bs);
      ResolveStep(table, bs, ues, ps, parent, i);
      UpPowerStep(k, ues, ps, parent, i);
      UpRateStep(k, band, pt, bs, ues, ps, parent, noise, draw, i);
      RelayIdsExtend(ps, parent, bs);
      rate := rate + LinkRate(k, band, pt, dUp, rx, noise(draw + i, band.bw));
      power := power + ProxyTerm(dUp);
      if parent.id != bs.id {
        relays := relays + {parent.id};
      }
      ps := ps + [parent];
    }
    assert ues[..|ues|] == ues;
    r := Ok(Uplink(power, rate, relays));
  }

  /** One step of the D2D pass, on the specification side: resolving UE i extends the parents. */
  lemma ResolveStep(table: seq<Node>, bs: Node, ues: seq<Node>, ps: seq<Node>, parent: Node, i: nat)
    requires i < |ues| && ResolveAll(table, bs, ues[..i]) == Ok(ps)
    requires ResolveParent(table, bs, ues[i]) == Ok(parent)
    ensures ResolveAll(table, bs, ues[..i + 1]) == Ok(ps + [parent])
  {
    assert Init(ues[..i + 1]) == ues[..i];
  }

  /** UE i adds its own link to the D2D power proxy. */
  lemma UpPowerStep(k: Kernels, ues: seq<Node>, ps: seq<Node>, parent: Node, i: nat)
    requires i < |ues| && |ps| == i
    ensures UpPower(k, ues[..i + 1], ps + [parent])
         == UpPower(k, ues[..i], ps) + ProxyTerm(Distance(k, ues[i], parent))
  {
    assert Init(ues[..i + 1]) == ues[..i];
    assert Init(ps + [parent]) == ps;
  }

  /** UE i adds its own link, on draw draw + i, to the D2D sum rate. */
  lemma UpRateStep(k: Kernels, band: Band, pt: real, bs: Node, ues: seq<Node>, ps: seq<Node>,
                   parent: Node, noise: NoiseStream, draw: nat, i: nat)
    requires band.fc != 0.0 && NonZeroNoise(noise)
    requires i < |ues| && |ps| == i
    ensures UpRate(k, band, pt, ues[..i + 1], ps + [parent], bs, noise, draw)
         == UpRate(k, band, pt, ues[..i], ps, bs, noise, draw)
            + LinkRate(k, band, pt, Distance(k, ues[i], parent), ReceiverFor(parent, bs), noise(draw + i, band.bw))
  {
    assert Init(ues[..i + 1]) == ues[..i];
    assert Init(ps + [parent]) == ps;
  }

  /** When the UEs before i all resolve and UE i does not, the whole list fails with UE i's failure. */
  lemma FailureIsFirst(table: seq<Node>, bs: Node, ues: seq<Node>, i: nat)
    requires i < |ues| && ResolveAll(table, bs, ues[..i]).Ok?
    requires ResolveParent(table, bs, ues[i]).Err?
    ensures ResolveAll(table, bs, ues) == Err(ResolveParent(table, bs, ues[i]).failure)
  {
    ResolveAllPositions(table, bs, ues[..i]);
    forall j | 0 <= j < i
      ensures ResolveParent(table, bs, ues[j]).Ok?
    {
      assert ues[..i][j] == ues[j];
    }
    ResolveAllPositions(table, bs, ues);
    var r := ResolveAll(table, bs, ues);
    if r.Err? {
      var f :| 0 <= f < |ues| && ResolveParent(table, bs, ues[f]) == Err(r.failure)
               && forall j :: 0 <= j < f ==> ResolveParent(table, bs, ues[j]).Ok?;
      assert f == i;
    }
  }

  /** Relay pass: each distinct relay, visited in the set's own iteration order, adds one hop from
      its own row straight to the base station; hop j consumes draw draw + j. */
  method RelayHopPass(k: Kernels, band: Band, pt: real, table: seq<Node>, bs: Node, relays: set<NodeId>,
                      noise: NoiseStream, draw: nat) returns (power: real, rate: real, ghost order: seq<NodeId>)
    requires band.fc != 0.0 && NonZeroNoise(noise)
    requires forall pid :: pid in relays ==> FindById(table, pid).Some?
    ensures power == HopPowerSum(k, table, bs, relays)
    ensures rate == RelayRate(k, band, pt, table, bs, order, noise, draw)
    ensures Enumerates(order, relays)
  {
    power, rate, order := 0.0, 0.0, [];
    var hops := 0;
    var remaining := relays;
    while remaining != {}
      invariant remaining <= relays
      invariant hops == |order|
      invariant |order| + |remaining| == |relays|
      invariant forall pid :: pid in order <==> pid in relays - remaining
      invariant NoRepeats(order)
      invariant power == HopPowerSum(k, table, bs, relays - remaining)
      invariant rate == RelayRate(k, band, pt, table, bs, order, noise, draw)
      decreases remaining
    {
      ghost var first := Pick(remaining);
      assert first in remaining;
      var pid :| pid in remaining;
      var relay := FindById(table, pid).value;
      var dPb := Distance(k, relay, bs);
      var hopRate := LinkRate(k, band, pt, dPb, BaseStationRx, noise(draw + hops, band.bw));
      RelayPowerStep(k, table, bs, relays, remaining, pid, relay);
      RelayRateStep(k, band, pt, table, bs, order, hops, pid, relay, noise, draw);
      EnumerationStep(relays, remaining, order, pid);
      rate := rate + hopRate;
      power := power + ProxyTerm(dPb);
      remaining := remaining - {pid};
      order := order + [pid];
      hops := hops + 1;
    }
    assert relays - remaining == relays;
  }

  /** Taking one more element out of the remaining set keeps the visit order an enumeration,
      without repetition, of the elements taken so far. */
  lemma EnumerationStep(relays: set<NodeId>, remaining: set<NodeId>, order: seq<NodeId>, pid: NodeId)
    requires remaining <= relays && pid in remaining
    requires |order| + |remaining| == |relays|
    requires forall x :: x in order <==> x in relays - remaining
    requires NoRepeats(order)
    ensures |order + [pid]| + |remaining - {pid}| == |relays|
    ensures forall x :: x in order + [pid] <==> x in relays - (remaining - {pid})
    ensures NoRepeats(order + [pid])
  {
    assert Init(order + [pid]) == order;
  }

  /** One step of the relay pass on the power side: the hop of the relay taken out is added. */
  lemma RelayPowerStep(k: Kernels, table: seq<Node>, bs: Node, relays: set<NodeId>,
                       remaining: set<NodeId>, pid: NodeId, relay: Node)
    requires remaining <= relays && pid in remaining && FindById(table, pid) == Some(relay)
    ensures HopPowerSum(k, table, bs, relays - (remaining - {pid}))
         == HopPowerSum(k, table, bs, relays - remaining) + ProxyTerm(Distance(k, relay, bs))
  {
    var done := relays - remaining;
    HopPowerSumRemove(k, table, bs, done + {pid}, pid);
    assert done + {pid} - {pid} == done;
    assert relays - (remaining - {pid}) == done + {pid};
  }

  /** One step of the relay pass on the rate side: hop number hops consumes draw draw + hops. */
  lemma RelayRateStep(k: Kernels, band: Band, pt: real, table: seq<Node>, bs: Node,
                      order: seq<NodeId>, hops: nat, pid: NodeId, relay: Node, noise: NoiseStream, draw: nat)
    requires band.fc != 0.0 && NonZeroNoise(noise)
    requires FindById(table, pid) == Some(relay) && hops == |order|
    ensures RelayRate(k, band, pt, table, bs, order + [pid], noise, draw)
         == RelayRate(k, band, pt, table, bs, order, noise, draw)
            + LinkRate(k, band, pt, Distance(k, relay, bs), BaseStationRx, noise(draw + hops, band.bw))
  {
    assert Init(order + [pid]) == order;
  }

  /** One band: fresh accumulators, the three passes, then the percentages and the report entry.
      Returns the next unused noise draw and, as a ghost, the order the relays were visited in. */
  method SimulateBand(k: Kernels, table: seq<Node>, bs: Node, ues: seq<Node>, band: Band,
                      noise: NoiseStream, draw: nat) returns (r: Result<BandResult>, next: nat, ghost order: seq<NodeId>)
    requires band.fc != 0.0 && NonZeroNoise(noise) && bs in table
    ensures r == BandOutcome(k, table, bs, ues, band, noise, BandDraws(draw, |ues|), order)
    ensures ResolveAll(table, bs, ues).Err? ==> r == Err(ResolveAll(table, bs, ues).failure)
    ensures ResolveAll(table, bs, ues).Ok? ==>
              var relays := RelayIds(ResolveAll(table, bs, ues).value, bs);
              && Enumerates(order, relays)
              && next == draw + DrawsPerBand(|ues|, |relays|)
              && (r.Err? ==> r.failure == ZeroDivision)
    ensures r.Ok? ==> r.value.tag == band.tag
  {
    var pt := DbmToW(k, band.eirpDbm);
    var draws := BandDraws(draw, |ues|);
    var powerBaseline, rateBaseline := BaselinePass(k, band, pt, ues, bs, noise, draws.baseline);
    var up := UplinkPass(k, band, pt, table, bs, ues, noise, draws.uplink);
    match up {
      case Err(e) =>
        r, next, order := Err(e), draw, [];
      case Ok(u) =>
        ghost var ps := ResolveAll(table, bs, ues).value;
        RelaysAreFound(table, bs, ues);
        var hopPower, hopRate;
        hopPower, hopRate, order := RelayHopPass(k, band, pt, table, bs, u.relays, noise, draws.hops);
        var powerD2d, rateD2d := u.power + hopPower, u.rate + hopRate;
        D2DTotals(k, table, bs, ues, ps, band, pt, noise, draws, order,
                  u.power, hopPower, powerD2d, u.rate, hopRate, rateD2d);
        BandOutcomeOk(k, table, bs, ues, ps, band, pt, noise, draws, order,
                      powerBaseline, powerD2d, rateBaseline, rateD2d);
        r := BandReport(band, powerBaseline, powerD2d, rateBaseline, rateD2d);
        next := draws.hops + |u.relays|;
    }
    BandOutcomeShape(k, table, bs, ues, band, noise, draws, order);
  }

  /** The D2D totals are the uplink totals plus the relay-hop totals. */
  lemma D2DTotals(k: Kernels, table: seq<Node>, bs: Node, ues: seq<Node>, ps: seq<Node>, band: Band, pt: real,
                  noise: NoiseStream, draws: Draws, order: seq<NodeId>,
                  uplinkPower: real, hopPower: real, powerD2d: real, uplinkRate: real, hopRate: real, rateD2d: real)
    requires band.fc != 0.0 && NonZeroNoise(noise) && |ps| == |ues|
    requires uplinkPower == UpPower(k, ues, ps) && hopPower == HopPowerSum(k, table, bs, RelayIds(ps, bs))
    requires powerD2d == uplinkPower + hopPower
    requires uplinkRate == UpRate(k, band, pt, ues, ps, bs, noise, draws.uplink)
    requires hopRate == RelayRate(k, band, pt, table, bs, order, noise, draws.hops)
    requires rateD2d == uplinkRate + hopRate
    ensures powerD2d == D2DPower(k, table, bs, ues, ps)
    ensures rateD2d == D2DRate(k, band, pt, table, bs, ues, ps, order, noise, draws)
  {
  }

  /** A band whose parents all resolve reports on the totals of the three passes. */
  lemma BandOutcomeOk(k: Kernels, table: seq<Node>, bs: Node, ues: seq<Node>, ps: seq<Node>, band: Band, pt: real,
                      noise: NoiseStream, draws: Draws, order: seq<NodeId>,
                      powerBaseline: real, powerD2d: real, rateBaseline: real, rateD2d: real)
    requires band.fc != 0.0 && NonZeroNoise(noise)
    requires ResolveAll(table, bs, ues) == Ok(ps)
    requires pt == DbmToW(k, band.eirpDbm)
    requires powerBaseline == BaselinePower(k, ues, bs)
    requires powerD2d == D2DPower(k, table, bs, ues, ps)
    requires rateBaseline == BaselineRate(k, band, pt, ues, bs, noise, draws.baseline)
    requires rateD2d == D2DRate(k, band, pt, table, bs, ues, ps, order, noise, draws)
    ensures BandOutcome(k, table, bs, ues, band, noise, draws, order)
         == BandReport(band, powerBaseline, powerD2d, rateBaseline, rateD2d)
  {
  }

  function Tags(results: seq<BandResult>): seq<string> {
    seq(|results|, i requires 0 <= i < |results| => results[i].tag)
  }

  /** The run's report from its band outcomes in visiting order: the first failure, if any,
      otherwise every entry. */
  function Collect(outs: seq<Result<BandResult>>): Result<seq<BandResult>>
    decreases |outs|
  {
    if outs == [] then Ok([])
    else
      match Collect(Init(outs))
      case Err(e) => Err(e)
      case Ok(prefix) =>
        match Last(outs)
        case Err(e) => Err(e)
        case Ok(entry) => Ok(prefix + [entry])
  }

  /** Collecting succeeds exactly when every band does, and then keeps every entry in order. */
  lemma {:induction false} CollectOk(outs: seq<Result<BandResult>>)
    ensures Collect(outs).Ok? <==> forall b :: 0 <= b < |outs| ==> outs[b].Ok?
    ensures Collect(outs).Ok? ==>
              && |Collect(outs).value| == |outs|
              && forall b :: 0 <= b < |outs| ==> outs[b] == Ok(Collect(outs).value[b])
    decreases |outs|
  {
    if outs != [] {
      var prefix := Init(outs);
      CollectOk(prefix);
      assert forall b :: 0 <= b < |prefix| ==> prefix[b] == outs[b];
    }
  }

  /** A failed collection reports the failure of the first band that failed. */
  lemma {:induction false} CollectErr(outs: seq<Result<BandResult>>)
    requires Collect(outs).Err?
    ensures exists b :: 0 <= b < |outs| && outs[b] == Err(Collect(outs).failure)
                        && forall c :: 0 <= c < b ==> outs[c].Ok?
    decreases |outs|
  {
    var prefix := Init(outs);
    assert forall c :: 0 <= c < |prefix| ==> prefix[c] == outs[c];
    if Collect(prefix).Err? {
      CollectErr(prefix);
    } else {
      CollectOk(prefix);
      assert forall c :: 0 <= c < |prefix| ==> outs[c].Ok?;
    }
  }

  /** The outcome of band b of a run: band b starts at draw b * perBand and visits its relays
      in orders[b]. */
  ghost function BandAt(k: Kernels, table: seq<Node>, bs: Node, ues: seq<Node>, noise: NoiseStream,
                        perBand: nat, orders: seq<seq<NodeId>>, b: nat): Result<BandResult>
    requires NonZeroNoise(noise) && b < |orders| && b < |BANDS|
  {
    BandOutcome(k, table, bs, ues, BANDS[b], noise, BandDraws(b * perBand, |ues|), orders[b])
  }

  /** outs holds, band by band, the outcome of each band of the run. */
  ghost predicate BandsAgree(k: Kernels, table: seq<Node>, bs: Node, ues: seq<Node>, noise: NoiseStream,
                             perBand: nat, outs: seq<Result<BandResult>>, orders: seq<seq<NodeId>>)
    requires NonZeroNoise(noise)
  {
    && |outs| == |orders| <= |BANDS|
    && forall b {:trigger BandAt(k, table, bs, ues, noise, perBand, orders, b)} :: 0 <= b < |outs| ==>
         outs[b] == BandAt(k, table, bs, ues, noise, perBand, orders, b)
  }

  lemma BandsAgreeExtend(k: Kernels, table: seq<Node>, bs: Node, ues: seq<Node>, noise: NoiseStream,
                         perBand: nat, outs: seq<Result<BandResult>>, orders: seq<seq<NodeId>>,
                         out: Result<BandResult>, order: seq<NodeId>, draw: nat)
    requires NonZeroNoise(noise) && |outs| < |BANDS|
    requires BandsAgree(k, table, bs, ues, noise, perBand, outs, orders)
    requires draw == |outs| * perBand
    requires out == BandOutcome(k, table, bs, ues, BANDS[|outs|], noise, BandDraws(draw, |ues|), order)
    ensures BandsAgree(k, table, bs, ues, noise, perBand, outs + [out], orders + [order])
  {
    var outs', orders' := outs + [out], orders + [order];
    forall b | 0 <= b < |outs'|
      ensures outs'[b] == BandAt(k, table, bs, ues, noise, perBand, orders', b)
    {
      if b < |outs| {
        assert outs'[b] == outs[b] == BandAt(k, table, bs, ues, noise, perBand, orders, b);
        assert orders'[b] == orders[b];
      }
    }
  }

  /** A run that succeeds reports, band by band, the entry of that band. */
  lemma RunEntries(k: Kernels, table: seq<Node>, bs: Node, ues: seq<Node>, noise: NoiseStream,
                   perBand: nat, outs: seq<Result<BandResult>>, orders: seq<seq<NodeId>>)
    requires NonZeroNoise(noise) && BandsAgree(k, table, bs, ues, noise, perBand, outs, orders)
    requires Collect(outs).Ok?
    ensures |Collect(outs).value| == |orders|
    ensures forall b :: 0 <= b < |orders| ==>
              Ok(Collect(outs).value[b])
              == BandOutcome(k, table, bs, ues, BANDS[b], noise, BandDraws(b * perBand, |ues|), orders[b])
  {
    CollectOk(outs);
    forall b | 0 <= b < |orders|
      ensures Ok(Collect(outs).value[b])
              == BandOutcome(k, table, bs, ues, BANDS[b], noise, BandDraws(b * perBand, |ues|), orders[b])
    {
      assert outs[b] == BandAt(k, table, bs, ues, noise, perBand, orders, b);
    }
  }

  /** A run that fails reports the failure of the first band that failed. */
  lemma RunFailure(k: Kernels, table: seq<Node>, bs: Node, ues: seq<Node>, noise: NoiseStream,
                   perBand: nat, outs: seq<Result<BandResult>>, orders: seq<seq<NodeId>>)
    requires NonZeroNoise(noise) && BandsAgree(k, table, bs, ues, noise, perBand, outs, orders)
    requires Collect(outs).Err?
    ensures exists b :: 0 <= b < |orders|
              && BandOutcome(k, table, bs, ues, BANDS[b], noise, BandDraws(b * perBand, |ues|), orders[b])
                 == Err(Collect(outs).failure)
              && forall c :: 0 <= c < b ==>
                   BandOutcome(k, table, bs, ues, BANDS[c], noise, BandDraws(c * perBand, |ues|), orders[c]).Ok?
  {
    CollectErr(outs);
    var b :| 0 <= b < |outs| && outs[b] == Err(Collect(outs).failure) && forall c :: 0 <= c < b ==> outs[c].Ok?;
    assert outs[b] == BandAt(k, table, bs, ues, noise, perBand, orders, b);
    forall c | 0 <= c < b
      ensures BandOutcome(k, table, bs, ues, BANDS[c], noise, BandDraws(c * perBand, |ues|), orders[c]).Ok?
    {
      assert outs[c] == BandAt(k, table, bs, ues, noise, perBand, orders, c);
    }
  }

  /** The whole run: find the base station, select the UEs, then simulate every band in table
      order, aborting on the first failure. */
  method Simulate(k: Kernels, table: seq<Node>, noise: NoiseStream)
    returns (r: Result<seq<BandResult>>, ghost outs: seq<Result<BandResult>>, ghost orders: seq<seq<NodeId>>)
    requires NonZeroNoise(noise)
    ensures FindBaseStation(table).None? ==> r == Err(NoBaseStation)
    ensures FindBaseStation(table).Some? ==>
              var bs := FindBaseStation(table).value;
              var ues := UEs(table);
              && (ResolveAll(table, bs, ues).Err? ==> r == Err(ResolveAll(table, bs, ues).failure))
              && (ResolveAll(table, bs, ues).Ok? ==>
                    var relays := RelayIds(ResolveAll(table, bs, ues).value, bs);
                    && 0 < |orders| <= |BANDS|
                    && (forall b :: 0 <= b < |orders| ==> Enumerates(orders[b], relays))
                    && BandsAgree(k, table, bs, ues, noise, DrawsPerBand(|ues|, |relays|), outs, orders)
                    && r == Collect(outs)
                    && (r.Ok? ==> |outs| == |BANDS|)
                    && (r.Err? ==> r.failure == ZeroDivision))
    ensures r.Ok? ==> Tags(r.value) == ["n77", "n260", "n261"]
  {
    var found := FindBaseStation(table);
    if found.None? {
      return Err(NoBaseStation), [], [];
    }
    var bs := found.value;
    var ues := UEs(table);
    r, outs, orders := RunBands(k, table, bs, ues, noise);
  }

  /** The band loop of a run whose base station and UEs are known. Band b starts at draw
      b * DrawsPerBand(|ues|, |relays|). */
  method RunBands(k: Kernels, table: seq<Node>, bs: Node, ues: seq<Node>, noise: NoiseStream)
    returns (r: Result<seq<BandResult>>, ghost outs: seq<Result<BandResult>>, ghost orders: seq<seq<NodeId>>)
    requires NonZeroNoise(noise) && bs in table
    ensures ResolveAll(table, bs, ues).Err? ==> r == Err(ResolveAll(table, bs, ues).failure)
    ensures ResolveAll(table, bs, ues).Ok? ==>
              var relays := RelayIds(ResolveAll(table, bs, ues).value, bs);
              && 0 < |orders| <= |BANDS|
              && (forall b :: 0 <= b < |orders| ==> Enumerates(orders[b], relays))
              && BandsAgree(k, table, bs, ues, noise, DrawsPerBand(|ues|, |relays|), outs, orders)
              && r == Collect(outs)
              && (r.Ok? ==> |outs| == |BANDS|)
              && (r.Err? ==> r.failure == ZeroDivision)
    ensures r.Ok? ==> Tags(r.value) == ["n77", "n260", "n261"]
  {
    ghost var resolved := ResolveAll(table, bs, ues);
    ghost var relays := if resolved.Ok? then RelayIds(resolved.value, bs) else {};
    ghost var perBand := DrawsPerBand(|ues|, |relays|);
    var results: seq<BandResult> := [];
    var draw: nat := 0;
    outs, orders := [], [];
    for b := 0 to |BANDS|
      invariant |results| == b == |orders| == |outs|
      invariant b > 0 ==> resolved.Ok?
      invariant draw == b * perBand
      invariant forall i :: 0 <= i < b ==> Enumerates(orders[i], relays)
      invariant BandsAgree(k, table, bs, ues, noise, perBand, outs, orders)
      invariant Collect(outs) == Ok(results)
      invariant forall i :: 0 <= i < b ==> results[i].tag == BANDS[i].tag
    {
      var res, next, order := BandStep(k, table, bs, ues, noise, relays, perBand, outs, orders, b, draw);
      NextBandStart(b, perBand, draw);
      outs, orders := outs + [res], orders + [order];
      match res {
        case Err(e) =>
          return Err(e), outs, orders;
        case Ok(entry) =>
          results := results + [entry];
          draw := next;
      }
    }
    r := Ok(results);
  }

  /** Band b + 1 starts right after the draws of band b. */
  lemma NextBandStart(b: nat, perBand: nat, draw: nat)
    requires draw == b * perBand
    ensures draw + perBand == (b + 1) * perBand
  {
  }

  /** One turn of the band loop: band b, starting at draw b * perBand. */
  method BandStep(k: Kernels, table: seq<Node>, bs: Node, ues: seq<Node>, noise: NoiseStream,
                  ghost relays: set<NodeId>, ghost perBand: nat, ghost outs: seq<Result<BandResult>>,
                  ghost orders: seq<seq<NodeId>>, b: nat, draw: nat)
    returns (res: Result<BandResult>, next: nat, ghost order: seq<NodeId>)
    requires NonZeroNoise(noise) && bs in table && b == |outs| < |BANDS|
    requires ResolveAll(table, bs, ues).Ok? ==> relays == RelayIds(ResolveAll(table, bs, ues).value, bs)
    requires perBand == DrawsPerBand(|ues|, |relays|) && draw == b * perBand
    requires BandsAgree(k, table, bs, ues, noise, perBand, outs, orders)
    ensures BandsAgree(k, table, bs, ues, noise, perBand, outs + [res], orders + [order])
    ensures ResolveAll(table, bs, ues).Err? ==> res == Err(ResolveAll(table, bs, ues).failure)
    ensures ResolveAll(table, bs, ues).Ok? ==>
              && Enumerates(order, relays)
              && next == draw + perBand
              && next == draw + DrawsPerBand(|ues|, |RelayIds(ResolveAll(table, bs, ues).value, bs)|)
              && (res.Err? ==> res.failure == ZeroDivision)
    ensures res.Ok? ==> res.value.tag == BANDS[b].tag
  {
    res, next, order := SimulateBand(k, table, bs, ues, BANDS[b], noise, draw);
    BandsAgreeExtend(k, table, bs, ues, noise, perBand, outs, orders, res, order, draw);
  }
}
