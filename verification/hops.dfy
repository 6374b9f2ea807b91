/** The hop of a relay straight to the base station, and the sum of hop powers over a relay set:
    the sum does not depend on the order in which the set is enumerated, and every relay
    contributes its hop exactly once. */
module Hops {
  import opened Outcomes
  import opened Channel
  import opened Topology

  /** Power proxy of the hop from relay pid straight to the base station. The relay row is the
      first with that ID; a relay always has one, and 0 stands in for the case that never occurs. */
  function HopPower(k: Kernels, table: seq<Node>, bs: Node, pid: NodeId): real {
    match FindById(table, pid)
    case None => 0.0
    case Some(relay) => ProxyTerm(Distance(k, relay, bs))
  }

  /** Rate of the hop from relay pid straight to the base station, with the base-station gain. */
  function HopRate(k: Kernels, band: Band, pt: real, table: seq<Node>, bs: Node, pid: NodeId,
                   noiseSample: real): real
    requires band.fc != 0.0 && noiseSample != 0.0
  {
    match FindById(table, pid)
    case None => 0.0
    case Some(relay) => LinkRate(k, band, pt, Distance(k, relay, bs), BaseStationRx, noiseSample)
  }

  /** Some element of a non-empty set; which one is left open. */
  ghost function Pick<T>(s: set<T>): T
    requires s != {}
  {
    var x :| x in s; x
  }

  /** Sum of the hop powers of the relays in s. */
  ghost function HopPowerSum(k: Kernels, table: seq<Node>, bs: Node, s: set<NodeId>): real
    decreases s
  {
    if s == {} then 0.0
    else var pid := Pick(s); HopPower(k, table, bs, pid) + HopPowerSum(k, table, bs, s - {pid})
  }

  /** Any relay may be taken out first: the sum is the same for every enumeration order. */
  lemma {:induction false} HopPowerSumRemove(k: Kernels, table: seq<Node>, bs: Node, s: set<NodeId>, pid: NodeId)
    requires pid in s
    ensures HopPowerSum(k, table, bs, s) == HopPower(k, table, bs, pid) + HopPowerSum(k, table, bs, s - {pid})
    decreases s
  {
    var first := Pick(s);
    if first != pid {
      HopPowerSumRemove(k, table, bs, s - {first}, pid);
      HopPowerSumRemove(k, table, bs, s - {pid}, first);
      assert s - {first} - {pid} == s - {pid} - {first};
    }
  }

  lemma {:induction false} HopPowerSumNonNegative(k: Kernels, table: seq<Node>, bs: Node, s: set<NodeId>)
    requires forall pid :: pid in s ==> HopPower(k, table, bs, pid) >= 0.0
    ensures HopPowerSum(k, table, bs, s) >= 0.0
    decreases s
  {
    if s != {} {
      HopPowerSumNonNegative(k, table, bs, s - {Pick(s)});
    }
  }

  /** Two tables that give every relay of s the same hop power give the same sum over s. */
  lemma {:induction false} HopPowerSumCongruent(k: Kernels, table: seq<Node>, other: seq<Node>, bs: Node,
                                                s: set<NodeId>)
    requires forall pid :: pid in s ==> HopPower(k, table, bs, pid) == HopPower(k, other, bs, pid)
    ensures HopPowerSum(k, table, bs, s) == HopPowerSum(k, other, bs, s)
    decreases s
  {
    if s != {} {
      HopPowerSumCongruent(k, table, other, bs, s - {Pick(s)});
    }
  }
}
