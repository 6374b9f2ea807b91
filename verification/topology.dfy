/** The node table: base-station lookup, UE selection, ID lookup and parent resolution. */
module Topology {
  import opened Outcomes
  import opened Channel

  type NodeId = int

  /** One row of the topology table; an absent parent means the UE talks to the base station. */
  datatype Node = Node(id: NodeId, name: string, lat: real, lon: real, parentId: Option<NodeId>)

  const BASE_STATION_NAME: string := "BaseStation"

  predicate IsBaseStation(n: Node) {
    n.name == BASE_STATION_NAME
  }

  /** No two rows share an ID. The estimator does not check this; some lemmas assume it. */
  ghost predicate UniqueIds(table: seq<Node>) {
    forall i, j :: 0 <= i < j < |table| ==> table[i].id != table[j].id
  }

  /** The two row selections the estimator makes: by name, and by ID. */
  datatype Criterion = NamedBaseStation | HasId(id: NodeId)

  predicate Matches(c: Criterion, n: Node) {
    match c
    case NamedBaseStation => IsBaseStation(n)
    case HasId(id) => n.id == id
  }

  /** Index of the first row that meets c: a boolean-mask selection followed by iloc[0]. */
  function FirstWhere(table: seq<Node>, c: Criterion): Option<nat> {
    if |table| == 0 then None
    else if Matches(c, table[0]) then Some(0)
    else match FirstWhere(table[1..], c)
      case None => None
      case Some(i) => Some(i + 1)
  }

  /** The selection yields the first index whose row meets c, and nothing exactly when no row does. */
  lemma {:induction false} FirstWhereIsFirst(table: seq<Node>, c: Criterion)
    ensures FirstWhere(table, c).Some? ==>
              var i := FirstWhere(table, c).value;
              i < |table| && Matches(c, table[i]) && forall j :: 0 <= j < i ==> !Matches(c, table[j])
    ensures FirstWhere(table, c).None? <==> forall j :: 0 <= j < |table| ==> !Matches(c, table[j])
    decreases |table|
  {
    if |table| > 0 && !Matches(c, table[0]) {
      FirstWhereIsFirst(table[1..], c);
      assert forall j :: 0 < j < |table| ==> table[1..][j - 1] == table[j];
    }
  }

  /** The first row named "BaseStation", if there is one. */
  function FindBaseStation(table: seq<Node>): (bs: Option<Node>)
    ensures bs.Some? ==> bs.value in table && IsBaseStation(bs.value)
    ensures bs.None? <==> forall n :: n in table ==> !IsBaseStation(n)
  {
    FirstWhereIsFirst(table, NamedBaseStation);
    match FirstWhere(table, NamedBaseStation)
    case None => None
    case Some(i) => Some(table[i])
  }

  /** The first row whose ID is id, if there is one. */
  function FindById(table: seq<Node>, id: NodeId): (row: Option<Node>)
    ensures row.Some? ==> row.value in table && row.value.id == id
    ensures row.None? <==> forall n :: n in table ==> n.id != id
  {
    FirstWhereIsFirst(table, HasId(id));
    match FirstWhere(table, HasId(id))
    case None => None
    case Some(i) => Some(table[i])
  }

  /** The lookup picks the earliest of several rows with the same ID. */
  lemma FindByIdIsFirst(table: seq<Node>, id: NodeId, i: nat)
    requires i < |table| && table[i].id == id
    requires forall j :: 0 <= j < i ==> table[j].id != id
    ensures FindById(table, id) == Some(table[i])
  {
    FirstWhereIsFirst(table, HasId(id));
    assert Matches(HasId(id), table[i]);
  }

  /** Every row that is not named "BaseStation", in table order. */
  function UEs(table: seq<Node>): (ues: seq<Node>)
    ensures |ues| <= |table|
  {
    if |table| == 0 then []
    else Kept(table[0]) + UEs(table[1..])
  }

  /** What the selection keeps of one row. */
  function Kept(n: Node): seq<Node> {
    if IsBaseStation(n) then [] else [n]
  }

  /** The selection keeps table order: selecting from two blocks of rows is selecting from each
      block, one after the other. */
  lemma {:induction false} UEsAppend(a: seq<Node>, b: seq<Node>)
    ensures UEs(a + b) == UEs(a) + UEs(b)
    decreases |a|
  {
    if a == [] {
      assert a + b == b;
    } else {
      var x, rest := a[0], a[1..];
      assert a == [x] + rest;
      assert a + b == [x] + (rest + b);
      UEsCons(x, rest);
      UEsCons(x, rest + b);
      UEsAppend(rest, b);
    }
  }

  /** Selecting from rows headed by x keeps x first, when it is kept at all. */
  lemma UEsCons(x: Node, rest: seq<Node>)
    ensures UEs([x] + rest) == Kept(x) + UEs(rest)
  {
    assert ([x] + rest)[1..] == rest;
  }

  /** The selection keeps every non-base-station row as often as the table holds it, and no
      base-station row. */
  lemma {:induction false} UEsMultiplicity(table: seq<Node>)
    ensures forall n :: multiset(UEs(table))[n] == if IsBaseStation(n) then 0 else multiset(table)[n]
    ensures forall n :: n in UEs(table) <==> n in table && !IsBaseStation(n)
    decreases |table|
  {
    if table != [] {
      UEsMultiplicity(table[1..]);
      assert table == [table[0]] + table[1..];
      assert multiset(table) == multiset([table[0]]) + multiset(table[1..]);
      assert multiset(UEs(table)) == multiset(Kept(table[0])) + multiset(UEs(table[1..]));
    }
  }

  /** A single row is kept exactly when it is not the base station. */
  lemma UEsSingle(n: Node)
    ensures UEs([n]) == Kept(n)
  {
    assert [n][1..] == [];
  }

  /** The node a UE uplinks to: the base station when its Parent ID is absent, otherwise the
      first row with that ID; no such row is fatal. */
  function ResolveParent(table: seq<Node>, bs: Node, ue: Node): (r: Result<Node>)
    ensures ue.parentId.None? ==> r == Ok(bs)
    ensures ue.parentId.Some? && r.Ok? ==> r.value in table && r.value.id == ue.parentId.value
    ensures ue.parentId.Some? ==> (r.Err? <==> forall n :: n in table ==> n.id != ue.parentId.value)
    ensures r.Err? ==> ue.parentId.Some? && r.failure == DanglingParent(ue.parentId.value)
  {
    match ue.parentId
    case None => Ok(bs)
    case Some(pid) =>
      match FindById(table, pid)
      case None => Err(DanglingParent(pid))
      case Some(row) => Ok(row)
  }

  /** Receive side of an uplink: decided by comparing the parent's ID with the base station's. */
  function ReceiverFor(parent: Node, bs: Node): (rx: Receiver)
    ensures rx == BaseStationRx <==> parent.id == bs.id
  {
    if parent.id == bs.id then BaseStationRx else RelayRx
  }

  /** Great-circle distance from a node to another node. */
  function Distance(k: Kernels, from: Node, to: Node): (d: real)
    ensures Sane(k) ==> d >= 0.0
  {
    HaversineM(k, from.lat, from.lon, to.lat, to.lon)
  }

  /** A Parent ID naming the base station's ID resolves to a row received with the base-station
      gain; with unique IDs that row is the base station itself, so the link is a direct one. */
  lemma ParentIdOfBaseStation(table: seq<Node>, bs: Node, ue: Node)
    requires bs in table && ue.parentId == Some(bs.id)
    ensures ResolveParent(table, bs, ue).Ok?
    ensures ReceiverFor(ResolveParent(table, bs, ue).value, bs) == BaseStationRx
    ensures UniqueIds(table) ==> ResolveParent(table, bs, ue) == Ok(bs)
  {
    var r := ResolveParent(table, bs, ue);
    assert r.Ok?;
    if UniqueIds(table) {
      var i :| 0 <= i < |table| && table[i] == r.value;
      var j :| 0 <= j < |table| && table[j] == bs;
      assert table[i].id == table[j].id;
      assert i == j;
    }
  }
}
