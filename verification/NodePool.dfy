/** The node store: the queue of free tenant blocks and the block of each tenant on the node. */
module NodePool {
  import opened Options
  import opened Text
  import opened Subnets
  import opened Leases

  datatype NodeData = NodeData(nodeIP: string, nodeCIDR: string, avail: seq<int>, tenants: map<string, int>)

  /** What AllocateTenant writes to the tenant file: the cursor starts at the gateway. */
  function FreshStore(block: Addr): TenantData
    requires block + BLOCK <= SPACE
  {
    TenantData(block, BLOCK, block + 1, map[], Some(block + 1))
  }

  /** The head of the queue goes to the tenant; an empty queue changes nothing. */
  function TakeBlock(d: NodeData, name: string): NodeData {
    if d.avail == [] then d else d.(avail := d.avail[1..], tenants := d.tenants[name := d.avail[0]])
  }

  /** The tenant's block returns to the tail. */
  function ReturnBlock(d: NodeData, name: string): NodeData {
    if name in d.tenants then d.(avail := d.avail + [d.tenants[name]], tenants := d.tenants - {name}) else d
  }

  /** The tenant file: what it records about the tenant, and the leases. The VTEP device is named after
      the tenant and the VNI. */
  datatype TenantFile = TenantFile(
    name: string, prefix: int, bridge: string, vtep: (string, int), vtepMac: nat, leases: TenantData)

  /** A bridge name of 13 characters or more is replaced. */
  function BridgeName(name: string): string {
    if |"br-" + name| >= 13 then "br-default" else "br-" + name
  }

  function NewFile(name: string, vni: int, prefix: int, mac: nat, block: Addr): TenantFile
    requires block + BLOCK <= SPACE
  {
    TenantFile(name, prefix, BridgeName(name), (name, vni), mac, FreshStore(block))
  }

  /** The file speaks of this tenant and of this block: the VTEP is its first address, the gateway and the
      cursor the next one, and nothing is leased. */
  ghost predicate Records(f: TenantFile, name: string, vni: int, prefix: int, mac: nat, block: Addr) {
    && f.name == name && f.prefix == prefix && f.vtep == (name, vni) && f.vtepMac == mac
    && f.leases.base == block && f.leases.size == 256 && f.leases.ips == map[]
    && f.leases.gateway == block + 1 && f.leases.last == Some(f.leases.gateway)
    && (|name| <= 9 ==> f.bridge == "br-" + name) && (|name| > 9 ==> f.bridge == "br-default")
  }

  /** The VNI and the Prefix that a revert reads from the file. */
  function OnRecord(f: TenantFile): (int, int) {
    (f.vtep.1, f.prefix)
  }

  ghost predicate BlocksInSpace(d: NodeData) {
    forall i :: 0 <= i < |d.avail| ==> 0 <= d.avail[i] <= SPACE - BLOCK
  }

  const EMPTY := NodeData("", "", [], map[])

  /** What a load makes of the file: a missing one counts as an empty one. */
  function OnFile(file: Option<NodeData>): NodeData {
    match file
    case Some(d) => d
    case None => EMPTY
  }

  class NodeStore {
    var data: NodeData
    var file: Option<NodeData>

    constructor (onDisk: Option<NodeData>)
      ensures data == EMPTY && file == onDisk
    {
      data, file := EMPTY, onDisk;
    }

    /** A missing file is created. */
    method LoadNodeData()
      modifies this
      ensures data == OnFile(old(file)) && file == Some(data)
    {
      if file.None? {
        file := Some(EMPTY);
      }
      data := file.value;
    }

    method StoreNodeData()
      modifies this`file
      ensures file == Some(data)
    {
      file := Some(data);
    }

    /** The setters that start the operator: address, CIDR and the list of free blocks. */
    method Initialise(nodeIP: string, nodeCIDR: string, c: Cidr)
      requires NodeCidr(c)
      modifies this
      ensures data == NodeData(nodeIP, nodeCIDR, TenantBlocks(c), old(data).tenants) && file == Some(data)
    {
      data := data.(nodeIP := nodeIP);
      StoreNodeData();
      data := data.(nodeCIDR := nodeCIDR);
      StoreNodeData();
      var subnets := ListSubnets(c);
      data := data.(avail := subnets);
      StoreNodeData();
    }

    /** Returns what it writes to the tenant file, or None when no block is left. */
    method AllocateTenant(name: string, vni: int, prefix: int, mac: nat) returns (created: Option<TenantFile>)
      requires BlocksInSpace(OnFile(file))
      modifies this
      ensures data == TakeBlock(OnFile(old(file)), name) && file == Some(data)
      ensures var avail := OnFile(old(file)).avail;
              && created == (if avail == [] then None else Some(NewFile(name, vni, prefix, mac, avail[0])))
              && (avail != [] ==> Records(created.value, name, vni, prefix, mac, avail[0]))
    {
      LoadNodeData();
      var availableList := data.avail;
      if |availableList| <= 0 {
        return None;
      }
      var block := availableList[0];
      data := data.(avail := availableList[1..]);
      data := data.(tenants := data.tenants[name := block]);
      StoreNodeData();
      var bridge := "br-" + name;
      if |bridge| >= 13 {
        bridge := "br-default";
      }
      return Some(TenantFile(name, prefix, bridge, (name, vni), mac, FreshStore(block)));
    }

    /** The last part of deleteTenant; the tenant map is visited in any order. */
    method Reclaim(name: string)
      modifies this
      ensures data == ReturnBlock(OnFile(old(file)), name) && file == Some(data)
    {
      LoadNodeData();
      ghost var d := data;
      var tenantList, availList := data.tenants, data.avail;
      var rest := tenantList.Keys;
      while rest != {}
        invariant rest <= d.tenants.Keys
        invariant (tenantList, availList) ==
          if name in d.tenants && name !in rest
          then (ReturnBlock(d, name).tenants, ReturnBlock(d, name).avail)
          else (d.tenants, d.avail)
      {
        var tenant :| tenant in rest;
        if tenant == name {
          availList := availList + [tenantList[tenant]];
          tenantList := tenantList - {tenant};
        }
        rest := rest - {tenant};
      }
      data := data.(tenants := tenantList);
      data := data.(avail := availList);
      StoreNodeData();
    }
  }

  /** A new file records the tenant that was added, under names that fit, and what a revert reads back from
      it are that tenant's VNI and Prefix. */
  lemma {:induction false} FileRecords(name: string, vni: int, prefix: int, mac: nat, block: Addr)
    requires block + BLOCK <= SPACE
    ensures var f := NewFile(name, vni, prefix, mac, block);
            && Records(f, name, vni, prefix, mac, block) && |f.bridge| <= 12
            && OnRecord(f).0 == vni && OnRecord(f).1 == prefix
  {
    assert |"br-" + name| == 3 + |name|;
  }

  /** A fresh tenant has no lease, room for 254 containers, and gives the first one the address after
      the gateway. */
  lemma {:induction false} FirstAddress(mode: Reset, block: Addr, info: NetInfo)
    requires block + BLOCK <= SPACE
    ensures Valid(FreshStore(block)) && FreshStore(block).ips == map[]
    ensures |UsableSet(FreshStore(block))| == 254
    ensures Allocate(mode, FreshStore(block), info).1 == Ip(block + 2)
  {
    var d := FreshStore(block);
    UsableSize(d);
    assert Candidate(d, 1) == block + 2;
    assert Holder(d.ips, info.id).None?;
  }
}
