/** The Tenant resource as the API server holds it. An entry's fields are unset until its own node
    publishes them; addresses and hardware addresses are numbers here (see Text). */
module Api {
  import opened Options
  import opened Text

  datatype NodeEntry = NodeEntry(name: string, nodeIP: Option<Addr>, vtepIp: Option<Addr>, vtepMac: Option<nat>) {
    predicate Ready() {
      nodeIP.Some? && vtepIp.Some? && vtepMac.Some?
    }

    predicate Unset() {
      nodeIP.None? && vtepIp.None? && vtepMac.None?
    }
  }

  datatype Tenant = Tenant(vni: int, prefix: int, nodes: seq<NodeEntry>) {
    /** The fields that updateTenant reverts. */
    function Fixed(): (int, int) {
      (vni, prefix)
    }
  }

  predicate Lists(nodes: seq<NodeEntry>, me: string) {
    exists i :: 0 <= i < |nodes| && nodes[i].name == me
  }

  /** Some other node of the list has published. */
  predicate ReadyPeer(nodes: seq<NodeEntry>, me: string) {
    exists i :: 0 <= i < |nodes| && nodes[i].name != me && nodes[i].Ready()
  }

  /** What a node publishes about itself. */
  datatype Published = Published(nodeIP: Addr, vtepIp: Addr, vtepMac: nat)

  function Entry(name: string, p: Published): NodeEntry {
    NodeEntry(name, Some(p.nodeIP), Some(p.vtepIp), Some(p.vtepMac))
  }

  /** Overwrites the fields of entry i, whatever its name. */
  function PublishInto(t: Tenant, i: nat, p: Published): Tenant
    requires i < |t.nodes|
  {
    t.(nodes := t.nodes[i := Entry(t.nodes[i].name, p)])
  }

  function Revert(t: Tenant, r: (int, int)): Tenant {
    t.(vni := r.0, prefix := r.1)
  }

  ghost predicate SameNames(a: seq<NodeEntry>, b: seq<NodeEntry>) {
    |a| == |b| && forall i :: 0 <= i < |a| ==> a[i].name == b[i].name
  }

  /** The entries of a list that carry this node's name, in order. */
  function Indices(nodes: seq<NodeEntry>, me: string, from: nat): seq<nat>
    requires from <= |nodes|
    decreases |nodes| - from
  {
    if from == |nodes| then []
    else if nodes[from].name == me then [from] + Indices(nodes, me, from + 1)
    else Indices(nodes, me, from + 1)
  }

  lemma {:induction false} IndicesAre(nodes: seq<NodeEntry>, me: string, from: nat)
    requires from <= |nodes|
    ensures forall x :: x in Indices(nodes, me, from) <==> from <= x < |nodes| && nodes[x].name == me
    decreases |nodes| - from
  {
    if from < |nodes| {
      IndicesAre(nodes, me, from + 1);
    }
  }

  method OwnIndices(nodes: seq<NodeEntry>, me: string) returns (own: seq<nat>)
    ensures own == Indices(nodes, me, 0)
  {
    own := [];
    var i := |nodes|;
    while i > 0
      invariant 0 <= i <= |nodes|
      invariant own == Indices(nodes, me, i)
    {
      i := i - 1;
      if nodes[i].name == me {
        own := [i] + own;
      }
    }
  }

  method ExistsNode(nodeList: seq<NodeEntry>, currentNodeName: string) returns (found: bool)
    ensures found <==> Lists(nodeList, currentNodeName)
  {
    for i := 0 to |nodeList|
      invariant forall j :: 0 <= j < i ==> nodeList[j].name != currentNodeName
    {
      if currentNodeName == nodeList[i].name {
        return true;
      }
    }
    return false;
  }
}
