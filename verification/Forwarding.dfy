/** The three tables through which a node reaches its peers: neighbours of the VTEP device, its
    forwarding database, and routes. */
module Forwarding {
  import opened Options
  import opened Text
  import opened Subnets
  import opened Api

  /** Routes are keyed by destination and prefix length; the value is the gateway, if there is one. */
  datatype Tables = Tables(arp: map<Addr, nat>, fdb: map<nat, Addr>, routes: map<(Addr, int), Option<Addr>>)

  const EMPTY := Tables(map[], map[], map[])

  predicate HostBitsClear(dst: Addr, len: int) {
    0 <= len <= 32 && LowBitsZero(dst, 32 - len)
  }

  /** The kernel refuses a destination with host bits and a destination that is already there. */
  function RouteAdd(
      routes: map<(Addr, int), Option<Addr>>, dst: Addr, len: int, gw: Option<Addr>): map<(Addr, int), Option<Addr>> {
    if (dst, len) in routes || !HostBitsClear(dst, len) then routes else routes[(dst, len) := gw]
  }

  function AddRoutes(routes: map<(Addr, int), Option<Addr>>, vtep: Addr, len: int): map<(Addr, int), Option<Addr>> {
    RouteAdd(RouteAdd(routes, vtep, 32, None), vtep, len, Some(vtep)) - {(vtep, 32)}
  }

  function InstallOne(t: Tables, e: NodeEntry, prefix: int): Tables
    requires e.Ready()
  {
    Tables(t.arp[e.vtepIp.value := e.vtepMac.value],
           t.fdb[e.vtepMac.value := e.nodeIP.value],
           AddRoutes(t.routes, e.vtepIp.value, prefix))
  }

  /** The loop of updateTenant over the node list. */
  function Install(t: Tables, nodes: seq<NodeEntry>, me: string, prefix: int): Tables {
    if nodes == [] then t
    else
      var n := |nodes| - 1;
      var before := Install(t, nodes[..n], me, prefix);
      if nodes[n].name != me && nodes[n].Ready() then InstallOne(before, nodes[n], prefix) else before
  }

  class Device {
    var tables: Tables

    constructor ()
      ensures tables == EMPTY
    {
      tables := EMPTY;
    }

    method AddARP(vtepIp: Addr, vtepMac: nat)
      modifies this
      ensures tables == old(tables).(arp := old(tables).arp[vtepIp := vtepMac])
    {
      tables := tables.(arp := tables.arp[vtepIp := vtepMac]);
    }

    method AddFDB(hostIp: Addr, vtepMac: nat)
      modifies this
      ensures tables == old(tables).(fdb := old(tables).fdb[vtepMac := hostIp])
    {
      tables := tables.(fdb := tables.fdb[vtepMac := hostIp]);
    }

    method AddRoute(dst: Addr, len: int, gw: Option<Addr>)
      modifies this
      ensures tables == old(tables).(routes := RouteAdd(old(tables).routes, dst, len, gw))
    {
      if (dst, len) !in tables.routes && HostBitsClear(dst, len) {
        tables := tables.(routes := tables.routes[(dst, len) := gw]);
      }
    }

    /** A device route to the VTEP, the route to the block through it, and the device route goes. */
    method AddRoutesTo(vtepIp: Addr, len: int)
      modifies this
      ensures tables == old(tables).(routes := AddRoutes(old(tables).routes, vtepIp, len))
    {
      AddRoute(vtepIp, 32, None);
      AddRoute(vtepIp, len, Some(vtepIp));
      tables := tables.(routes := tables.routes - {(vtepIp, 32)});
    }

    method InstallPeers(nodes: seq<NodeEntry>, me: string, prefix: int)
      modifies this
      ensures tables == Install(old(tables), nodes, me, prefix)
    {
      for i := 0 to |nodes|
        invariant tables == Install(old(tables), nodes[..i], me, prefix)
      {
        var node := nodes[i];
        assert nodes[..i + 1][..i] == nodes[..i];
        if node.name != me {
          if node.nodeIP.None? || node.vtepIp.None? || node.vtepMac.None? {
            continue;
          }
          AddARP(node.vtepIp.value, node.vtepMac.value);
          AddFDB(node.nodeIP.value, node.vtepMac.value);
          AddRoutesTo(node.vtepIp.value, prefix);
        }
      }
      assert nodes[..|nodes|] == nodes;
    }
  }

  // ---------------------------------------------------------------- what is installed

  predicate HasPeer(t: Tables, p: Published) {
    && p.vtepIp in t.arp && t.arp[p.vtepIp] == p.vtepMac
    && p.vtepMac in t.fdb && t.fdb[p.vtepMac] == p.nodeIP
  }

  predicate HasRoute(t: Tables, p: Published, len: int) {
    (p.vtepIp, len) in t.routes && t.routes[(p.vtepIp, len)] == Some(p.vtepIp)
  }

  /** Distinct nodes publish distinct VTEP addresses and hardware addresses. */
  ghost predicate Distinct(pub: map<string, Published>) {
    forall a, b :: a in pub && b in pub && a != b ==>
      pub[a].vtepIp != pub[b].vtepIp && pub[a].vtepMac != pub[b].vtepMac
  }

  /** Every entry of the tables speaks of a node other than me, as that node published it. */
  ghost predicate OnlyPeers(t: Tables, pub: map<string, Published>, me: string) {
    && (forall k :: k in t.arp ==> exists m :: m in pub && m != me && k == pub[m].vtepIp && t.arp[k] == pub[m].vtepMac)
    && (forall k :: k in t.fdb ==> exists m :: m in pub && m != me && k == pub[m].vtepMac && t.fdb[k] == pub[m].nodeIP)
    && (forall k :: k in t.routes ==> t.routes[k] == Some(k.0) && k.1 != 32
                                      && exists m :: m in pub && m != me && k.0 == pub[m].vtepIp)
  }

  /** ... and every route has length len. */
  ghost predicate OneLength(t: Tables, len: int) {
    forall k :: k in t.routes ==> k.1 == len
  }

  /** Host bits are clear when the length is one of IPv4 and the address a multiple of 2^(32 - length). */
  lemma {:induction false} HostBitsMean(dst: Addr, len: int)
    ensures HostBitsClear(dst, len) <==> 0 <= len <= 32 && Divides(Pow2(32 - len), dst)
  {
    if 0 <= len <= 32 {
      LowBitsDivide(dst, 32 - len);
    }
  }

  /** Exactly when the temporary host route does not stand in its way and the address has no host
      bits, the block route is there afterwards; the host route never is. */
  lemma {:induction false} AddRoutesExact(t: Tables, p: Published, len: int)
    requires (p.vtepIp, len) !in t.routes
    ensures var routes := AddRoutes(t.routes, p.vtepIp, len);
            && (HasRoute(t.(routes := routes), p, len) <==> len != 32 && HostBitsClear(p.vtepIp, len))
            && (p.vtepIp, 32) !in routes
            && forall k :: k != (p.vtepIp, len) && k != (p.vtepIp, 32) ==>
                 (k in routes <==> k in t.routes) && (k in routes ==> routes[k] == t.routes[k])
  {
  }

  lemma {:induction false} InstallOneOnly(t: Tables, pub: map<string, Published>, me: string, m: string, prefix: int)
    requires OnlyPeers(t, pub, me) && m in pub && m != me
    ensures var t1 := InstallOne(t, Entry(m, pub[m]), prefix);
            OnlyPeers(t1, pub, me) && (OneLength(t, prefix) ==> OneLength(t1, prefix))
  {
    var t1 := InstallOne(t, Entry(m, pub[m]), prefix);
    forall k | k in t1.arp ensures exists m' :: m' in pub && m' != me && k == pub[m'].vtepIp && t1.arp[k] == pub[m'].vtepMac {
      assert k == pub[m].vtepIp || k in t.arp;
    }
    forall k | k in t1.fdb ensures exists m' :: m' in pub && m' != me && k == pub[m'].vtepMac && t1.fdb[k] == pub[m'].nodeIP {
      assert k == pub[m].vtepMac || k in t.fdb;
    }
  }

  lemma {:induction false} InstallOneKeeps(
      t: Tables, pub: map<string, Published>, me: string, m: string, prefix: int, q: string, len: Option<int>)
    requires Distinct(pub) && OnlyPeers(t, pub, me) && m in pub && q in pub
    requires len.Some? ==> len.value == prefix != 32 && HostBitsClear(pub[m].vtepIp, prefix)
    requires q == m || Reaches(t, pub[q], len)
    ensures Reaches(InstallOne(t, Entry(m, pub[m]), prefix), pub[q], len)
  {
    hide HostBitsClear;
  }

  /** The node list, as far as it is published, is what its nodes published. */
  ghost predicate Faithful(nodes: seq<NodeEntry>, pub: map<string, Published>) {
    forall i :: 0 <= i < |nodes| ==>
      nodes[i].name in pub && (nodes[i].Unset() || nodes[i] == Entry(nodes[i].name, pub[nodes[i].name]))
  }

  ghost predicate Reaches(t: Tables, p: Published, len: Option<int>) {
    HasPeer(t, p) && (len.Some? ==> HasRoute(t, p, len.value))
  }

  /** The loop brings in nothing but peers of the list. */
  lemma {:induction false} InstallOnly(
      t: Tables, nodes: seq<NodeEntry>, me: string, prefix: int, pub: map<string, Published>)
    requires OnlyPeers(t, pub, me) && Faithful(nodes, pub)
    ensures var t1 := Install(t, nodes, me, prefix);
            OnlyPeers(t1, pub, me) && (OneLength(t, prefix) ==> OneLength(t1, prefix))
  {
    hide OnlyPeers, OneLength, InstallOne;
    if nodes != [] {
      var n := |nodes| - 1;
      InstallOnly(t, nodes[..n], me, prefix, pub);
      if nodes[n].name != me && nodes[n].Ready() {
        InstallOneOnly(Install(t, nodes[..n], me, prefix), pub, me, nodes[n].name, prefix);
      }
    }
  }

  /** Routes of length len can be relied on when that is the length installed. */
  ghost predicate Routable(pub: map<string, Published>, prefix: int, len: Option<int>) {
    len.Some? ==> len.value == prefix != 32 && forall m :: m in pub ==> HostBitsClear(pub[m].vtepIp, prefix)
  }

  /** It loses no peer, and installs every published peer of the list. */
  lemma {:induction false} InstallMeans(
      t: Tables, nodes: seq<NodeEntry>, me: string, prefix: int, pub: map<string, Published>, q: string, len: Option<int>)
    requires Distinct(pub) && OnlyPeers(t, pub, me) && Faithful(nodes, pub) && q in pub && Routable(pub, prefix, len)
    requires Reaches(t, pub[q], len) || (q != me && exists i :: 0 <= i < |nodes| && nodes[i].name == q && nodes[i].Ready())
    ensures Reaches(Install(t, nodes, me, prefix), pub[q], len)
  {
    hide Distinct, OnlyPeers, InstallOne, Reaches, HostBitsClear;
    if nodes != [] {
      var n := |nodes| - 1;
      var t1 := Install(t, nodes[..n], me, prefix);
      InstallOnly(t, nodes[..n], me, prefix, pub);
      var here := nodes[n].name != me && nodes[n].Ready();
      if !(here && q == nodes[n].name) {
        if !Reaches(t, pub[q], len) {
          var i :| 0 <= i < |nodes| && nodes[i].name == q && nodes[i].Ready();
          assert i < n && nodes[..n][i] == nodes[i];
        }
        InstallMeans(t, nodes[..n], me, prefix, pub, q, len);
      }
      if here {
        InstallOneKeeps(t1, pub, me, nodes[n].name, prefix, q, len);
      }
    }
  }

  // ---------------------------------------------------------------- delivery

  predicate Covers(k: (Addr, int), x: int) {
    0 <= k.1 <= 32 && k.0 <= x < k.0 + Pow2(32 - k.1)
  }

  /** The longest match of RFC 1812, section 5.2.4.3. */
  ghost predicate BestRoute(t: Tables, x: int, k: (Addr, int)) {
    k in t.routes && Covers(k, x) && forall k2 :: k2 in t.routes && Covers(k2, x) ==> k2.1 <= k.1
  }

  ghost predicate Aligned(pub: map<string, Published>) {
    forall m :: m in pub ==> pub[m].vtepIp % BLOCK == 0
  }

  lemma Pow2Values()
    ensures Pow2(8) == 256 && Pow2(7) == 128 && Pow2(6) == 64 && Pow2(5) == 32
    ensures Pow2(4) == 16 && Pow2(3) == 8 && Pow2(2) == 4 && Pow2(1) == 2
  {
    assert Pow2(4) == 16 && Pow2(7) == 8 * Pow2(4);
  }

  /** With /24 routes installed, every address of a peer's block has exactly one best route; it leads
      to the peer's VTEP, whose hardware address and node address are those the peer published. */
  lemma {:induction false} RemoteDelivery(t: Tables, pub: map<string, Published>, me: string, m: string, x: int)
    requires Distinct(pub) && Aligned(pub) && OnlyPeers(t, pub, me) && OneLength(t, 24)
    requires m in pub && Reaches(t, pub[m], Some(24)) && InBlock(x, pub[m].vtepIp)
    ensures forall k :: BestRoute(t, x, k) <==> k == (pub[m].vtepIp, 24)
    ensures t.routes[(pub[m].vtepIp, 24)] == Some(pub[m].vtepIp)
    ensures t.arp[pub[m].vtepIp] == pub[m].vtepMac && t.fdb[pub[m].vtepMac] == pub[m].nodeIP
  {
    Pow2Values();
    var best := (pub[m].vtepIp, 24);
    forall k | k in t.routes && Covers(k, x) ensures k == best {
      var o :| o in pub && k.0 == pub[o].vtepIp;
      SameBlock(k.0, best.0, x);
    }
    assert BestRoute(t, x, best);
  }

  lemma SameBlock(a: Addr, b: Addr, x: int)
    requires a % BLOCK == 0 && b % BLOCK == 0 && InBlock(x, a) && InBlock(x, b)
    ensures a == b
  {
    assert a == BLOCK * (a / BLOCK) && b == BLOCK * (b / BLOCK);
  }

  /** Routes of one length from 24 to 32 reach the whole block of every peer if and only if the length
      is 24. */
  lemma {:induction false} WholeBlockNeeds24(t: Tables, pub: map<string, Published>, me: string, m: string, len: int)
    requires Distinct(pub) && Aligned(pub) && OnlyPeers(t, pub, me) && OneLength(t, len)
    requires m in pub && 24 <= len <= 32 && (len != 32 ==> HasRoute(t, pub[m], len))
    ensures (forall x :: InBlock(x, pub[m].vtepIp) ==> exists k :: BestRoute(t, x, k)) <==> len == 24
  {
    Pow2Values();
    var b := pub[m].vtepIp;
    if len == 24 {
      forall x | InBlock(x, b) ensures exists k :: BestRoute(t, x, k) {
        assert BestRoute(t, x, (b, 24));
      }
    } else {
      var x := b + 255;
      forall k | k in t.routes ensures !Covers(k, x) {
        var o :| o in pub && k.0 == pub[o].vtepIp;
        assert Pow2(32 - len) <= 128;
        if Covers(k, x) {
          SameBlock(k.0, b, x);
        }
      }
      assert InBlock(x, b) && forall k :: !BestRoute(t, x, k);
    }
  }
}
