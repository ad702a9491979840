/** One node over whole runs: tenants come and go through the operator's single worker, containers
    come and go through the CNI, blocks are reused and firewall rules are never removed. */
module Node {
  import opened Options
  import opened Text
  import opened Subnets
  import opened Leases
  import opened NodePool
  import opened Firewall

  /** stores holds the tenant files; repeats counts the tenants added while they were already listed;
      unruled names the tenants whose block was given by an addTenant that never came to its firewall
      rules; panicked says that the operator died on a missing tenant file. */
  datatype State = State(
    pool: NodeData, stores: map<string, TenantData>, chain: seq<Rule>,
    repeats: nat, unruled: set<string>, panicked: bool)

  /** order is the order in which addTenant meets the tenant map; done is false when its publication
      or the node's label fails for good, so that it returns before the firewall rules. CrashContainer
      is an allocation that dies between its two stores. */
  datatype Step =
    | AddTenant(name: string, order: seq<string>, done: bool)
    | DeleteTenant(name: string)
    | AddContainer(name: string, info: NetInfo)
    | CrashContainer(name: string, info: NetInfo)
    | DelContainer(name: string, id: string)

  ghost function Start(c: Cidr): (s: State)
    requires NodeCidr(c)
    ensures StoresFit(s)
  {
    BlocksPartition(c);
    State(NodeData("", "", TenantBlocks(c), map[]), map[], [], 0, {}, false)
  }

  ghost predicate StoresFit(s: State) {
    && s.stores.Keys == s.pool.tenants.Keys
    && BlocksInSpace(s.pool)
    && (forall t :: t in s.stores ==>
          Valid(s.stores[t]) && s.stores[t].base == s.pool.tenants[t] && s.stores[t].size == BLOCK)
  }

  /** AllocateTenant: a block for the tenant and a fresh file, whether or not it was there before. */
  ghost function Setup(s: State, name: string): State
    requires StoresFit(s)
  {
    if s.pool.avail == [] then s
    else s.(pool := TakeBlock(s.pool, name),
            stores := s.stores[name := FreshStore(s.pool.avail[0])],
            repeats := s.repeats + if name in s.pool.tenants then 1 else 0)
  }

  ghost function Do(mode: Reset, s: State, step: Step): State
    requires StoresFit(s)
  {
    match step
    case AddTenant(name, order, done) =>
      if s.panicked then s
      else if s.pool.avail == [] && name !in s.stores then s.(panicked := true)
      else
        var s1 := Setup(s, name);
        if !done then s1.(unruled := if s.pool.avail == [] then s.unruled else s.unruled + {name})
        else if !Enumerates(order, s1.pool.tenants.Keys) then s
        else
          var own := s1.pool.tenants[name];
          EnumeratesIn(order, s1.pool.tenants.Keys);
          s1.(chain := BlockOthers(AllowForwarding(s.chain, own), own, name, s1.pool.tenants, order),
              unruled := s.unruled - {name})
    case DeleteTenant(name) =>
      if s.panicked then s
      else if name !in s.stores then s.(panicked := true)
      else s.(pool := ReturnBlock(s.pool, name), stores := s.stores - {name}, unruled := s.unruled - {name})
    case AddContainer(name, info) =>
      if name !in s.stores then s
      else s.(stores := s.stores[name := Allocate(mode, s.stores[name], info).0])
    case CrashContainer(name, info) =>
      if name !in s.stores then s
      else s.(stores := s.stores[name := AllocateHalf(mode, s.stores[name], info)])
    case DelContainer(name, id) =>
      if name !in s.stores then s
      else s.(stores := s.stores[name := Release(s.stores[name], id)])
  }

  lemma {:induction false} EnumeratesIn(order: seq<string>, names: set<string>)
    requires Enumerates(order, names)
    ensures forall t :: t in order <==> t in names
  {
    assert forall t :: t in order <==> t in (set u | u in order);
  }

  lemma {:induction false} AllocateKeepsBlock(mode: Reset, d: TenantData, info: NetInfo)
    requires Valid(d)
    ensures Allocate(mode, d, info).0.base == Release(d, info.id).base == d.base
    ensures Allocate(mode, d, info).0.size == Release(d, info.id).size == d.size
    ensures AllocateHalf(mode, d, info).base == d.base && AllocateHalf(mode, d, info).size == d.size
  {
  }

  lemma {:induction false} FitStore(s: State, name: string, d: TenantData)
    requires StoresFit(s) && name in s.stores
    requires Valid(d) && d.base == s.stores[name].base && d.size == s.stores[name].size
    ensures StoresFit(s.(stores := s.stores[name := d]))
  {
    hide Valid;
  }

  lemma {:induction false} FitContainer(mode: Reset, s: State, step: Step)
    requires StoresFit(s) && !step.AddTenant? && !step.DeleteTenant?
    ensures StoresFit(Do(mode, s, step))
  {
    if step.name in s.stores {
      var d := s.stores[step.name];
      var info := if step.DelContainer? then NetInfo(step.id, "", "", "") else step.info;
      AllocateKeepsBlock(mode, d, info);
      CallsKeepValid(mode, d, info);
      FitStore(s, step.name, Allocate(mode, d, info).0);
      FitStore(s, step.name, AllocateHalf(mode, d, info));
      FitStore(s, step.name, Release(d, info.id));
    }
    hide Allocate, AllocateHalf, Release, Valid, StoresFit;
  }

  lemma {:induction false} FitStep(mode: Reset, s: State, step: Step)
    requires StoresFit(s)
    ensures StoresFit(Do(mode, s, step))
  {
    hide BlockOthers, AllowForwarding, Allocate, AllocateHalf, Release, UniqueIds;
    match step
    case DeleteTenant(name) =>
      if name in s.stores {
        assert 0 <= s.pool.tenants[name] == s.stores[name].base;
      }
    case AddTenant(name, order, done) =>
      if s.pool.avail != [] {
        FirstAddress(mode, s.pool.avail[0], NetInfo("", "", "", ""));
      }
    case _ => FitContainer(mode, s, step);
  }

  ghost function Run(mode: Reset, s: State, steps: seq<Step>): (r: State)
    requires StoresFit(s)
    ensures StoresFit(r)
  {
    if steps == [] then s
    else
      var before := Run(mode, s, steps[..|steps| - 1]);
      FitStep(mode, before, steps[|steps| - 1]);
      Do(mode, before, steps[|steps| - 1])
  }

  // ---------------------------------------------------------------- block conservation

  /** Free and given blocks are blocks of the node's CIDR, no block twice, and none is lost but by
      adding a tenant that is already there. */
  ghost predicate PoolOk(c: Cidr, p: NodeData, repeats: nat)
    requires NodeCidr(c)
  {
    && (forall i, j :: 0 <= i < j < |p.avail| ==> p.avail[i] != p.avail[j])
    && (forall t, u :: t in p.tenants && u in p.tenants && t != u ==> p.tenants[t] != p.tenants[u])
    && (forall t :: t in p.tenants ==> p.tenants[t] !in p.avail && p.tenants[t] in TenantBlocks(c))
    && (forall b :: b in p.avail ==> b in TenantBlocks(c))
    && |p.avail| + |p.tenants| + repeats == Pow2(TENANT_BITS - c.bits)
  }

  ghost predicate PoolInv(c: Cidr, s: State)
    requires NodeCidr(c)
  {
    PoolOk(c, s.pool, s.repeats)
  }

  lemma {:induction false} TakeKeeps(c: Cidr, p: NodeData, repeats: nat, name: string)
    requires NodeCidr(c) && PoolOk(c, p, repeats) && p.avail != []
    ensures PoolOk(c, TakeBlock(p, name), repeats + if name in p.tenants then 1 else 0)
  {
    hide TenantBlocks, NodeCidr, Pow2;
    assert p.avail == [p.avail[0]] + p.avail[1..];
    MapInsertSize(p.tenants, name, p.avail[0]);
  }

  lemma {:induction false} ReturnKeeps(c: Cidr, p: NodeData, repeats: nat, name: string)
    requires NodeCidr(c) && PoolOk(c, p, repeats) && name in p.tenants
    ensures PoolOk(c, ReturnBlock(p, name), repeats)
  {
    hide TenantBlocks, NodeCidr, Pow2;
    var p1 := ReturnBlock(p, name);
    MapInsertSize(p1.tenants, name, p.tenants[name]);
    assert p1.tenants[name := p.tenants[name]] == p.tenants;
  }

  lemma {:induction false} MapInsertSize<K, V>(m: map<K, V>, k: K, v: V)
    ensures |m[k := v]| == |m| + if k in m then 0 else 1
  {
    assert m[k := v].Keys == m.Keys + {k};
  }

  lemma {:induction false} PoolStep(mode: Reset, c: Cidr, s: State, step: Step)
    requires NodeCidr(c) && StoresFit(s) && PoolInv(c, s)
    ensures PoolInv(c, Do(mode, s, step))
  {
    hide PoolOk, Allocate, AllocateHalf, Release, BlockOthers, AllowForwarding;
    if step.AddTenant? && s.pool.avail != [] {
      TakeKeeps(c, s.pool, s.repeats, step.name);
    } else if step.DeleteTenant? && step.name in s.stores {
      ReturnKeeps(c, s.pool, s.repeats, step.name);
    }
  }

  lemma {:induction false} PoolRun(mode: Reset, c: Cidr, steps: seq<Step>)
    requires NodeCidr(c)
    ensures PoolInv(c, Run(mode, Start(c), steps))
  {
    if steps == [] {
      BlocksPartition(c);
    } else {
      var n := |steps| - 1;
      PoolRun(mode, c, steps[..n]);
      PoolStep(mode, c, Run(mode, Start(c), steps[..n]), steps[n]);
    }
  }

  // ---------------------------------------------------------------- tenant isolation

  predicate Live(s: State, name: string) {
    name in s.pool.tenants
  }

  ghost predicate DropBetween(s: State, b1: int, b2: int) {
    Rule(Some(b1), Some(b2), DROP) in s.chain
  }

  /** The tenant is on the node and its addTenant ran to its end. */
  predicate Ruled(s: State, name: string) {
    Live(s, name) && name !in s.unruled
  }

  ghost predicate DropsOk(c: Cidr, chain: seq<Rule>)
    requires NodeCidr(c)
  {
    && DropsFirst(chain)
    && forall r :: r in chain && r.target.DROP? ==>
         && r.src.Some? && r.dst.Some? && r.src != r.dst
         && r.src.value in TenantBlocks(c) && r.dst.value in TenantBlocks(c)
  }

  /** An accept rule names one end, a block of the node. */
  ghost predicate AcceptsOk(c: Cidr, chain: seq<Rule>)
    requires NodeCidr(c)
  {
    forall r :: r in chain && r.target.ACCEPT? ==>
      || (r.src.Some? && r.dst.None? && r.src.value in TenantBlocks(c))
      || (r.src.None? && r.dst.Some? && r.dst.value in TenantBlocks(c))
  }

  ghost predicate ChainInv(c: Cidr, s: State)
    requires NodeCidr(c)
  {
    && DropsOk(c, s.chain) && AcceptsOk(c, s.chain)
    && (forall t :: Ruled(s, t) ==>
          && Rule(Some(s.pool.tenants[t]), None, ACCEPT) in s.chain
          && Rule(None, Some(s.pool.tenants[t]), ACCEPT) in s.chain)
    && (forall t, u :: Ruled(s, t) && Ruled(s, u) && t != u && t != DEFAULT_TENANT && u != DEFAULT_TENANT ==>
          DropBetween(s, s.pool.tenants[t], s.pool.tenants[u]))
  }

  /** The rules that adding name puts into the chain. */
  ghost predicate ChainGrown(s: State, s1: State, name: string)
    requires Live(s1, name)
  {
    var own := s1.pool.tenants[name];
    && (DropsFirst(s.chain) ==> DropsFirst(s1.chain))
    && forall r :: r in s1.chain <==>
         r in s.chain || r == Rule(Some(own), None, ACCEPT) || r == Rule(None, Some(own), ACCEPT)
         || NewDrop(r, own, name, s1.pool.tenants, s1.pool.tenants.Keys)
  }

  ghost predicate SameRuled(s: State, s1: State, except: set<string>) {
    forall t :: Ruled(s1, t) && t !in except ==> Ruled(s, t) && s.pool.tenants[t] == s1.pool.tenants[t]
  }

  predicate Adds(s: State, step: Step, s1: State) {
    step.AddTenant? && step.done && s1 != s && !s1.panicked
  }

  /** The chain and the tenants with rules after one step. */
  lemma {:induction false} StepShape(mode: Reset, s: State, step: Step)
    requires StoresFit(s)
    ensures var s1 := Do(mode, s, step);
            if Adds(s, step, s1) then
              Ruled(s1, step.name) && SameRuled(s, s1, {step.name}) && ChainGrown(s, s1, step.name)
            else
              s1.chain == s.chain && SameRuled(s, s1, {})
  {
    hide BlockOthers, AllowForwarding, Allocate, AllocateHalf, Release, Valid, DropsFirst;
    var s1 := Do(mode, s, step);
    if Adds(s, step, s1) {
      var own, tenants := s1.pool.tenants[step.name], s1.pool.tenants;
      EnumeratesIn(step.order, tenants.Keys);
      AllowAdds(s.chain, own);
      BlockOthersAdds(AllowForwarding(s.chain, own), own, step.name, tenants, step.order);
    }
  }

  lemma {:induction false} ChainStep(mode: Reset, c: Cidr, s: State, step: Step)
    requires NodeCidr(c) && StoresFit(s) && PoolInv(c, Do(mode, s, step)) && ChainInv(c, s)
    ensures ChainInv(c, Do(mode, s, step))
  {
    StepShape(mode, s, step);
    hide Do, StoresFit, NodeCidr, PoolInv, ChainInv, ChainGrown, SameRuled;
    var s1 := Do(mode, s, step);
    if Adds(s, step, s1) {
      AddedChain(c, s, s1, step.name);
    } else {
      SameChain(c, s, s1);
    }
  }

  lemma {:induction false} SameChain(c: Cidr, s: State, s1: State)
    requires NodeCidr(c) && ChainInv(c, s) && s1.chain == s.chain && SameRuled(s, s1, {})
    ensures ChainInv(c, s1)
  {
    hide NodeCidr, DropsOk, AcceptsOk;
    assert forall b1, b2 :: DropBetween(s1, b1, b2) <==> DropBetween(s, b1, b2);
  }

  lemma {:induction false} AddedChain(c: Cidr, s: State, s1: State, name: string)
    requires NodeCidr(c) && PoolInv(c, s1) && ChainInv(c, s)
    requires Ruled(s1, name) && SameRuled(s, s1, {name}) && ChainGrown(s, s1, name)
    ensures ChainInv(c, s1)
  {
    AddedDrops(c, s, s1, name);
    NewcomerCutOff(c, s, s1, name);
    hide NodeCidr, DropsOk, AcceptsOk, NewDrop, PoolInv;
  }

  lemma {:induction false} AddedDrops(c: Cidr, s: State, s1: State, name: string)
    requires NodeCidr(c) && PoolInv(c, s1) && ChainInv(c, s)
    requires Live(s1, name) && ChainGrown(s, s1, name)
    ensures DropsOk(c, s1.chain) && AcceptsOk(c, s1.chain)
  {
    hide NodeCidr, TenantBlocks, Pow2, DropsFirst;
  }

  /** Whichever of two tenants came later brought the drops between them. */
  lemma {:induction false} NewcomerCutOff(c: Cidr, s: State, s1: State, name: string)
    requires NodeCidr(c) && ChainInv(c, s)
    requires Ruled(s1, name) && SameRuled(s, s1, {name}) && ChainGrown(s, s1, name)
    ensures forall t, u :: Ruled(s1, t) && Ruled(s1, u) && t != u && t != DEFAULT_TENANT && u != DEFAULT_TENANT ==>
              DropBetween(s1, s1.pool.tenants[t], s1.pool.tenants[u])
  {
    hide NodeCidr, DropsOk, AcceptsOk;
    var own := s1.pool.tenants[name];
    forall t, u | Ruled(s1, t) && Ruled(s1, u) && t != u && t != DEFAULT_TENANT && u != DEFAULT_TENANT
      ensures DropBetween(s1, s1.pool.tenants[t], s1.pool.tenants[u])
    {
      var r := Rule(Some(s1.pool.tenants[t]), Some(s1.pool.tenants[u]), DROP);
      if t == name || u == name {
        assert NewDrop(r, own, name, s1.pool.tenants, s1.pool.tenants.Keys);
      } else {
        assert DropBetween(s, s1.pool.tenants[t], s1.pool.tenants[u]);
      }
    }
  }

  lemma {:induction false} ChainRun(mode: Reset, c: Cidr, steps: seq<Step>)
    requires NodeCidr(c)
    ensures ChainInv(c, Run(mode, Start(c), steps))
  {
    if steps != [] {
      var n := |steps| - 1;
      ChainRun(mode, c, steps[..n]);
      PoolRun(mode, c, steps);
      ChainStep(mode, c, Run(mode, Start(c), steps[..n]), steps[n]);
    }
  }

  lemma {:induction false} BlocksApart(c: Cidr, b1: int, b2: int, x: int)
    requires NodeCidr(c) && b1 in TenantBlocks(c) && b2 in TenantBlocks(c)
    requires InBlock(x, b1) && InBlock(x, b2)
    ensures b1 == b2
  {
    BlocksPartition(c);
    var bs := TenantBlocks(c);
    var i :| 0 <= i < |bs| && bs[i] == b1;
    var j :| 0 <= j < |bs| && bs[j] == b2;
  }

  // ---------------------------------------------------------------- the main results

  /** On every run the free and the given blocks are distinct blocks of the node's CIDR, and their
      number plus the number of repeated adds is always 2^(24 - length). */
  lemma {:induction false} BlockConservation(mode: Reset, c: Cidr, steps: seq<Step>)
    requires NodeCidr(c)
    ensures var s := Run(mode, Start(c), steps);
            && (forall b :: b in s.pool.avail || b in s.pool.tenants.Values ==> b in TenantBlocks(c))
            && multiset(s.pool.avail) + multiset(s.pool.tenants.Values) <= multiset(TenantBlocks(c))
            && |s.pool.avail| + |s.pool.tenants| + s.repeats == Pow2(TENANT_BITS - c.bits)
            && |s.pool.tenants.Values| == |s.pool.tenants|
  {
    PoolRun(mode, c, steps);
    var s := Run(mode, Start(c), steps);
    hide Run, StoresFit, NodeCidr, TenantBlocks, Pow2, PoolOk;
    PoolCounts(c, s.pool, s.repeats);
  }

  lemma {:induction false} PoolCounts(c: Cidr, p: NodeData, repeats: nat)
    requires NodeCidr(c) && PoolOk(c, p, repeats)
    ensures forall b :: b in p.avail || b in p.tenants.Values ==> b in TenantBlocks(c)
    ensures multiset(p.avail) + multiset(p.tenants.Values) <= multiset(TenantBlocks(c))
    ensures |p.avail| + |p.tenants| + repeats == Pow2(TENANT_BITS - c.bits)
    ensures |p.tenants.Values| == |p.tenants|
  {
    hide TenantBlocks, Pow2;
    InjectiveSize(p.tenants);
    forall b ensures (multiset(p.avail) + multiset(p.tenants.Values))[b] <= multiset(TenantBlocks(c))[b] {
      NoDuplicates(p.avail, b);
      if b in TenantBlocks(c) {
        assert multiset(TenantBlocks(c))[b] >= 1;
      }
    }
  }

  lemma {:induction false} NoDuplicates(q: seq<int>, b: int)
    requires forall i, j :: 0 <= i < j < |q| ==> q[i] != q[j]
    ensures multiset(q)[b] == if b in q then 1 else 0
  {
    if q != [] {
      NoDuplicates(q[1..], b);
      assert q == [q[0]] + q[1..];
    }
  }

  lemma {:induction false} DropOne(m: map<string, int>, t: string)
    requires t in m && forall u :: u in m && u != t ==> m[u] != m[t]
    ensures m[t] !in (m - {t}).Values && m.Values == (m - {t}).Values + {m[t]}
    ensures |m - {t}| < |m| && |m| == |m - {t}| + 1
  {
    var rest := m - {t};
    assert m.Keys == rest.Keys + {t};
    forall v | v in m.Values ensures v in rest.Values || v == m[t] {
      var u :| u in m && m[u] == v;
      assert u != t ==> u in rest && rest[u] == v;
    }
  }

  lemma {:induction false} InjectiveSize(m: map<string, int>)
    requires forall t, u :: t in m && u in m && t != u ==> m[t] != m[u]
    ensures |m.Values| == |m|
  {
    if m != map[] {
      var t :| t in m;
      InjectiveSize(m - {t});
      DropOne(m, t);
    }
  }

  /** No address is leased by two tenants of the node, and none is a gateway or a VTEP address of any
      tenant on it. */
  lemma {:induction false} LeasesApart(mode: Reset, c: Cidr, steps: seq<Step>, t: string, u: string, x: Addr)
    requires NodeCidr(c)
    requires var s := Run(mode, Start(c), steps); Live(s, t) && Live(s, u) && x in s.stores[t].ips
    ensures var s := Run(mode, Start(c), steps);
            (t != u ==> x !in s.stores[u].ips) && x != s.stores[u].gateway && x != s.stores[u].base
  {
    PoolRun(mode, c, steps);
    var s := Run(mode, Start(c), steps);
    hide Run;
    if InBlock(x, s.pool.tenants[u]) {
      BlocksApart(c, s.pool.tenants[t], s.pool.tenants[u], x);
    }
  }

  /** The chain's verdict on every packet from block b1 to block b2; None leaves it to the chain's policy. */
  ghost predicate AlwaysIs(chain: seq<Rule>, b1: int, b2: int, verdict: Option<Target>) {
    forall src, dst :: InBlock(src, b1) && InBlock(dst, b2) ==> Verdict(chain, src, dst) == verdict
  }

  ghost predicate Always(chain: seq<Rule>, b1: int, b2: int, target: Target) {
    AlwaysIs(chain, b1, b2, Some(target))
  }

  /** One end has its accept rule. */
  ghost predicate AcceptFor(s: State, b1: int, b2: int) {
    Rule(Some(b1), None, ACCEPT) in s.chain || Rule(None, Some(b2), ACCEPT) in s.chain
  }

  /** The drop between the blocks decides, then an accept of one end, then the chain's policy. */
  ghost function BlockVerdict(s: State, b1: int, b2: int): Option<Target> {
    if DropBetween(s, b1, b2) then Some(DROP) else if AcceptFor(s, b1, b2) then Some(ACCEPT) else None
  }

  /** After every run, whatever blocks have been reused, every packet between distinct tenants other than
      the default one is dropped, in either direction, and every packet inside a tenant is accepted,
      for the tenants whose addTenant ran to its end. */
  lemma {:induction false} TenantIsolation(mode: Reset, c: Cidr, steps: seq<Step>, t: string, u: string)
    requires NodeCidr(c)
    requires Ruled(Run(mode, Start(c), steps), t) && Ruled(Run(mode, Start(c), steps), u)
    ensures var s := Run(mode, Start(c), steps); var b1, b2 := s.pool.tenants[t], s.pool.tenants[u];
            && DropsFirst(s.chain)
            && (t != u && t != DEFAULT_TENANT && u != DEFAULT_TENANT ==>
                  Always(s.chain, b1, b2, DROP) && Always(s.chain, b2, b1, DROP))
            && (t == u ==> Always(s.chain, b1, b2, ACCEPT))
  {
    PoolRun(mode, c, steps);
    ChainRun(mode, c, steps);
    var s := Run(mode, Start(c), steps);
    hide Run, StoresFit, NodeCidr, TenantBlocks, Pow2, DropsFirst, AlwaysIs, AcceptsOk;
    VerdictBetween(c, s, s.pool.tenants[t], s.pool.tenants[u]);
    VerdictBetween(c, s, s.pool.tenants[u], s.pool.tenants[t]);
  }

  /** Packets between two blocks of the node are dropped exactly when the drop between these two blocks is
      in the chain, and accepted exactly when it is not and one end has its accept rule. */
  lemma {:induction false} VerdictBetween(c: Cidr, s: State, b1: int, b2: int)
    requires NodeCidr(c) && DropsOk(c, s.chain) && AcceptsOk(c, s.chain)
    requires b1 in TenantBlocks(c) && b2 in TenantBlocks(c)
    ensures AlwaysIs(s.chain, b1, b2, BlockVerdict(s, b1, b2))
    ensures DropBetween(s, b1, b2) ==> b1 != b2
  {
    hide NodeCidr, TenantBlocks, Pow2, DropsFirst, Verdict, AcceptFor, AcceptsOk;
    forall src, dst | InBlock(src, b1) && InBlock(dst, b2)
      ensures Verdict(s.chain, src, dst) == BlockVerdict(s, b1, b2)
    {
      VerdictExact(s.chain, src, dst);
      NoDropMatches(c, s, b1, b2, src, dst);
      AcceptMatches(c, s, b1, b2, src, dst);
      assert Matches(Rule(Some(b1), Some(b2), DROP), src, dst);
      match Verdict(s.chain, src, dst)
      case None =>
      case Some(DROP) =>
      case Some(ACCEPT) =>
    }
  }

  /** An accept that matches a packet between two blocks is one of these blocks' own. */
  lemma {:induction false} AcceptMatches(c: Cidr, s: State, b1: int, b2: int, src: int, dst: int)
    requires NodeCidr(c) && AcceptsOk(c, s.chain) && b1 in TenantBlocks(c) && b2 in TenantBlocks(c)
    requires InBlock(src, b1) && InBlock(dst, b2)
    ensures AcceptFor(s, b1, b2) <==> exists r :: r in s.chain && r.target.ACCEPT? && Matches(r, src, dst)
  {
    hide NodeCidr, TenantBlocks, Pow2;
    assert Matches(Rule(Some(b1), None, ACCEPT), src, dst) && Matches(Rule(None, Some(b2), ACCEPT), src, dst);
    forall r | r in s.chain && r.target.ACCEPT? && Matches(r, src, dst) ensures AcceptFor(s, b1, b2) {
      if r.src.Some? {
        BlocksApart(c, r.src.value, b1, src);
      } else {
        BlocksApart(c, r.dst.value, b2, dst);
      }
    }
  }

  /** The drops that match a packet between two blocks are the drop between these blocks. */
  lemma {:induction false} NoDropMatches(c: Cidr, s: State, b1: int, b2: int, src: int, dst: int)
    requires NodeCidr(c) && DropsOk(c, s.chain) && b1 in TenantBlocks(c) && b2 in TenantBlocks(c)
    requires InBlock(src, b1) && InBlock(dst, b2)
    ensures forall r :: r in s.chain && r.target.DROP? && Matches(r, src, dst) ==> DropBetween(s, b1, b2)
    ensures forall r :: r in s.chain && r.target.DROP? && Matches(r, src, dst) ==> b1 != b2
  {
    hide NodeCidr, TenantBlocks, Pow2, DropsFirst;
    forall r | r in s.chain && r.target.DROP? && Matches(r, src, dst) ensures DropBetween(s, b1, b2) && b1 != b2 {
      BlocksApart(c, r.src.value, b1, src);
      BlocksApart(c, r.dst.value, b2, dst);
    }
  }

  /** The verdict on every packet between two tenants on the node, the default one included, whether or not
      their addTenant ran to its end: what decides is whether a drop between their blocks is in the chain,
      and then whether an accept of one end is, from their own adds or from earlier holders of the blocks. */
  lemma {:induction false} TrafficExact(mode: Reset, c: Cidr, steps: seq<Step>, t: string, u: string)
    requires NodeCidr(c)
    requires var s := Run(mode, Start(c), steps); Live(s, t) && Live(s, u)
    ensures var s := Run(mode, Start(c), steps); var b1, b2 := s.pool.tenants[t], s.pool.tenants[u];
            && AlwaysIs(s.chain, b1, b2, BlockVerdict(s, b1, b2))
            && (Ruled(s, t) || Ruled(s, u) ==> AcceptFor(s, b1, b2))
  {
    PoolRun(mode, c, steps);
    ChainRun(mode, c, steps);
    var s := Run(mode, Start(c), steps);
    hide Run, StoresFit, NodeCidr, TenantBlocks, Pow2, AlwaysIs, DropsOk, AcceptsOk;
    VerdictBetween(c, s, s.pool.tenants[t], s.pool.tenants[u]);
  }

  /** An addTenant that gives up before its firewall rules leaves the tenant on a block whose traffic with
      every other tenant is decided, in each direction, by the rules that were there before; with a tenant
      that has its rules, by whether the drop for that direction is left from earlier tenants. */
  lemma {:induction false} AbortedAddExact(mode: Reset, c: Cidr, s: State, name: string, order: seq<string>, u: string)
    requires NodeCidr(c) && StoresFit(s) && PoolInv(c, s) && ChainInv(c, s) && !s.panicked
    requires s.pool.avail != [] && Live(s, u) && u != name
    ensures var s1 := Do(mode, s, AddTenant(name, order, false)); var b1, b2 := s.pool.avail[0], s.pool.tenants[u];
            && Live(s1, name) && !Ruled(s1, name) && s1.pool.tenants[name] == b1
            && AlwaysIs(s1.chain, b1, b2, BlockVerdict(s, b1, b2))
            && AlwaysIs(s1.chain, b2, b1, BlockVerdict(s, b2, b1))
            && (Ruled(s, u) ==>
                  && Always(s1.chain, b1, b2, if DropBetween(s, b1, b2) then DROP else ACCEPT)
                  && Always(s1.chain, b2, b1, if DropBetween(s, b2, b1) then DROP else ACCEPT))
  {
    hide AlwaysIs, NodeCidr, TenantBlocks, Pow2, DropsOk, AcceptsOk, Valid;
    VerdictBetween(c, s, s.pool.avail[0], s.pool.tenants[u]);
    VerdictBetween(c, s, s.pool.tenants[u], s.pool.avail[0]);
  }

  // ---------------------------------------------------------------- the default tenant

  /** The default tenant is on the node and no drop concerns its block. */
  ghost predicate DefaultOpen(s: State, own: int) {
    && Ruled(s, DEFAULT_TENANT) && s.pool.tenants[DEFAULT_TENANT] == own
    && forall r :: r in s.chain && r.target.DROP? ==> r.src != Some(own) && r.dst != Some(own)
  }

  ghost predicate Concerns(step: Step, name: string) {
    (step.AddTenant? || step.DeleteTenant?) && step.name == name
  }

  lemma {:induction false} DefaultKept(mode: Reset, s: State, step: Step)
    requires StoresFit(s) && Ruled(s, DEFAULT_TENANT) && !Concerns(step, DEFAULT_TENANT)
    ensures var s1 := Do(mode, s, step);
            Ruled(s1, DEFAULT_TENANT) && s1.pool.tenants[DEFAULT_TENANT] == s.pool.tenants[DEFAULT_TENANT]
  {
    hide BlockOthers, AllowForwarding, Allocate, AllocateHalf, Release, Valid, FreshStore;
  }

  lemma {:induction false} DefaultStep(mode: Reset, c: Cidr, s: State, step: Step, own: int)
    requires NodeCidr(c) && StoresFit(s) && PoolInv(c, Do(mode, s, step))
    requires DefaultOpen(s, own) && !Concerns(step, DEFAULT_TENANT)
    ensures DefaultOpen(Do(mode, s, step), own)
  {
    StepShape(mode, s, step);
    DefaultKept(mode, s, step);
    hide Do, StoresFit, PoolInv, NodeCidr, SameRuled, ChainGrown;
    if Adds(s, step, Do(mode, s, step)) {
      NewcomerSparesDefault(c, s, Do(mode, s, step), step.name, own);
    }
  }

  lemma {:induction false} NewcomerSparesDefault(c: Cidr, s: State, s1: State, name: string, own: int)
    requires NodeCidr(c) && PoolInv(c, s1) && DefaultOpen(s, own)
    requires Live(s1, name) && name != DEFAULT_TENANT && ChainGrown(s, s1, name)
    requires Ruled(s1, DEFAULT_TENANT) && s1.pool.tenants[DEFAULT_TENANT] == own
    ensures DefaultOpen(s1, own)
  {
    hide NodeCidr, TenantBlocks, Pow2, DropsFirst;
  }

  lemma {:induction false} DefaultRun(mode: Reset, c: Cidr, steps: seq<Step>)
    requires NodeCidr(c) && |steps| > 0
    requires steps[0].AddTenant? && Concerns(steps[0], DEFAULT_TENANT)
    requires Ruled(Run(mode, Start(c), steps[..1]), DEFAULT_TENANT)
    requires forall i :: 1 <= i < |steps| ==> !Concerns(steps[i], DEFAULT_TENANT)
    ensures exists own :: DefaultOpen(Run(mode, Start(c), steps), own)
  {
    hide DefaultOpen, StoresFit, NodeCidr, PoolInv, Do, Start;
    if |steps| == 1 {
      assert steps[..1] == steps && steps[..0] == [];
      assert Run(mode, Start(c), []) == Start(c);
      DefaultAlone(mode, c, steps[0]);
    } else {
      var n := |steps| - 1;
      assert steps[..n][..1] == steps[..1];
      DefaultRun(mode, c, steps[..n]);
      var own :| DefaultOpen(Run(mode, Start(c), steps[..n]), own);
      PoolRun(mode, c, steps);
      DefaultStep(mode, c, Run(mode, Start(c), steps[..n]), steps[n], own);
    }
  }

  lemma {:induction false} DefaultAlone(mode: Reset, c: Cidr, step: Step)
    requires NodeCidr(c) && step.AddTenant? && step.name == DEFAULT_TENANT
    requires Ruled(Do(mode, Start(c), step), DEFAULT_TENANT)
    ensures var s := Do(mode, Start(c), step);
            DefaultOpen(s, s.pool.tenants[DEFAULT_TENANT])
  {
    StepShape(mode, Start(c), step);
    hide BlockOthers, AllowForwarding;
  }

  /** On runs where the default tenant is added first, to the end, once, and never deleted, every packet
      between it and any tenant on the node is accepted, in either direction. */
  lemma {:induction false} DefaultTrafficAccepted(mode: Reset, c: Cidr, steps: seq<Step>, t: string)
    requires NodeCidr(c) && |steps| > 0
    requires steps[0].AddTenant? && Concerns(steps[0], DEFAULT_TENANT)
    requires Ruled(Run(mode, Start(c), steps[..1]), DEFAULT_TENANT)
    requires forall i :: 1 <= i < |steps| ==> !Concerns(steps[i], DEFAULT_TENANT)
    requires Live(Run(mode, Start(c), steps), t)
    ensures var s := Run(mode, Start(c), steps);
            && Live(s, DEFAULT_TENANT)
            && Always(s.chain, s.pool.tenants[DEFAULT_TENANT], s.pool.tenants[t], ACCEPT)
            && Always(s.chain, s.pool.tenants[t], s.pool.tenants[DEFAULT_TENANT], ACCEPT)
  {
    PoolRun(mode, c, steps);
    ChainRun(mode, c, steps);
    DefaultRun(mode, c, steps);
    var s := Run(mode, Start(c), steps);
    hide Run, StoresFit, NodeCidr, PoolInv, ChainInv, Always;
    var own :| DefaultOpen(s, own);
    DefaultReaches(c, s, own, t);
  }

  lemma {:induction false} DefaultReaches(c: Cidr, s: State, own: int, t: string)
    requires NodeCidr(c) && PoolInv(c, s) && ChainInv(c, s) && DefaultOpen(s, own) && Live(s, t)
    ensures Always(s.chain, own, s.pool.tenants[t], ACCEPT) && Always(s.chain, s.pool.tenants[t], own, ACCEPT)
  {
    hide NodeCidr, TenantBlocks, Pow2, DropsFirst, AlwaysIs;
    VerdictBetween(c, s, own, s.pool.tenants[t]);
    VerdictBetween(c, s, s.pool.tenants[t], own);
  }

  /** Added later, the default tenant is cut off from every tenant already on the node. */
  lemma {:induction false} DefaultAddedLaterIsBlocked(mode: Reset, c: Cidr, s: State, order: seq<string>, t: string)
    requires NodeCidr(c) && StoresFit(s) && ChainInv(c, s) && !s.panicked
    requires Live(s, t) && t != DEFAULT_TENANT
    ensures var s1 := Do(mode, s, AddTenant(DEFAULT_TENANT, order, true));
            s1 != s && Live(s1, DEFAULT_TENANT) ==>
              && Live(s1, t)
              && Always(s1.chain, s1.pool.tenants[DEFAULT_TENANT], s1.pool.tenants[t], DROP)
              && Always(s1.chain, s1.pool.tenants[t], s1.pool.tenants[DEFAULT_TENANT], DROP)
  {
    var step := AddTenant(DEFAULT_TENANT, order, true);
    var s1 := Do(mode, s, step);
    if s1 != s && Live(s1, DEFAULT_TENANT) {
      StepShape(mode, s, step);
      AddNeverPanics(mode, s, step);
      hide Do, StoresFit, NodeCidr, PoolInv, Always, TenantBlocks, DropsFirst, ChainGrown;
      assert DropsFirst(s.chain);
      LatecomerVerdict(s, s1, t);
    }
  }

  lemma {:induction false} LatecomerVerdict(s: State, s1: State, t: string)
    requires Live(s1, DEFAULT_TENANT) && Live(s1, t) && t != DEFAULT_TENANT
    requires DropsFirst(s.chain) && ChainGrown(s, s1, DEFAULT_TENANT)
    ensures var own, block := s1.pool.tenants[DEFAULT_TENANT], s1.pool.tenants[t];
            Always(s1.chain, own, block, DROP) && Always(s1.chain, block, own, DROP)
  {
    hide Always, DropsFirst;
    var own, block := s1.pool.tenants[DEFAULT_TENANT], s1.pool.tenants[t];
    assert NewDrop(Rule(Some(own), Some(block), DROP), own, DEFAULT_TENANT, s1.pool.tenants, s1.pool.tenants.Keys);
    assert NewDrop(Rule(Some(block), Some(own), DROP), own, DEFAULT_TENANT, s1.pool.tenants, s1.pool.tenants.Keys);
    DropDrops(s1.chain, own, block);
    DropDrops(s1.chain, block, own);
  }

  lemma {:induction false} DropDrops(chain: seq<Rule>, b1: int, b2: int)
    requires DropsFirst(chain) && Rule(Some(b1), Some(b2), DROP) in chain
    ensures Always(chain, b1, b2, DROP)
  {
    hide Verdict, DropsFirst;
    forall src, dst | InBlock(src, b1) && InBlock(dst, b2) ensures Verdict(chain, src, dst) == Some(DROP) {
      VerdictExact(chain, src, dst);
      assert Matches(Rule(Some(b1), Some(b2), DROP), src, dst);
    }
  }

  lemma {:induction false} AddNeverPanics(mode: Reset, s: State, step: Step)
    requires StoresFit(s) && !s.panicked && step.AddTenant?
    ensures var s1 := Do(mode, s, step);
            && (s1.panicked ==> s1.pool == s.pool && s.pool.avail == [])
            && (s1.panicked ==> !Live(s1, step.name))
            && (s1 != s && s.pool.avail != [] ==>
                  s1.pool.tenants == s.pool.tenants[step.name := s.pool.avail[0]])
  {
    hide BlockOthers, AllowForwarding, Valid, FreshStore;
  }

  /** A tenant that joins after the default one exchanges packets with it, in each direction, if and only
      if no drop for that direction between the default tenant's block and the block at the head of the
      queue is left from earlier tenants. */
  lemma {:induction false} NewcomerReachesDefault(mode: Reset, c: Cidr, s: State, name: string, order: seq<string>)
    requires NodeCidr(c) && StoresFit(s) && PoolInv(c, s) && ChainInv(c, s) && !s.panicked
    requires name != DEFAULT_TENANT && Live(s, DEFAULT_TENANT) && s.pool.avail != []
    requires Do(mode, s, AddTenant(name, order, true)) != s
    ensures var s1 := Do(mode, s, AddTenant(name, order, true));
            var d, own := s.pool.tenants[DEFAULT_TENANT], s.pool.avail[0];
            && Live(s1, name) && s1.pool.tenants[name] == own
            && Always(s1.chain, d, own, if DropBetween(s, d, own) then DROP else ACCEPT)
            && Always(s1.chain, own, d, if DropBetween(s, own, d) then DROP else ACCEPT)
  {
    var step := AddTenant(name, order, true);
    var s1 := Do(mode, s, step);
    StepShape(mode, s, step);
    AddNeverPanics(mode, s, step);
    PoolStep(mode, c, s, step);
    ChainStep(mode, c, s, step);
    hide Do, StoresFit, Always;
    NewcomerVerdict(c, s, s1, name);
  }

  lemma {:induction false} NewcomerVerdict(c: Cidr, s: State, s1: State, name: string)
    requires NodeCidr(c) && PoolInv(c, s1) && ChainInv(c, s1)
    requires Live(s1, DEFAULT_TENANT) && Ruled(s1, name) && name != DEFAULT_TENANT && ChainGrown(s, s1, name)
    ensures var d, own := s1.pool.tenants[DEFAULT_TENANT], s1.pool.tenants[name];
            && Always(s1.chain, d, own, if DropBetween(s, d, own) then DROP else ACCEPT)
            && Always(s1.chain, own, d, if DropBetween(s, own, d) then DROP else ACCEPT)
  {
    hide NodeCidr, TenantBlocks, Pow2, AlwaysIs, DropsFirst;
    var d, own := s1.pool.tenants[DEFAULT_TENANT], s1.pool.tenants[name];
    assert DropBetween(s1, d, own) <==> DropBetween(s, d, own);
    assert DropBetween(s1, own, d) <==> DropBetween(s, own, d);
    VerdictBetween(c, s1, d, own);
    VerdictBetween(c, s1, own, d);
  }

  // ---------------------------------------------------------------- what a step comes to

  /** Whoever is added while a block is free gets the head of the queue and an empty file on it, and has its
      rules when the addTenant runs to its end. */
  lemma {:induction false} AddTakesEffect(mode: Reset, s: State, name: string, order: seq<string>)
    requires StoresFit(s) && !s.panicked && s.pool.avail != []
    requires Enumerates(order, s.pool.tenants.Keys + {name})
    ensures var s1 := Do(mode, s, AddTenant(name, order, true)); var own := s.pool.avail[0];
            && Ruled(s1, name) && !s1.panicked
            && s1.pool.tenants == s.pool.tenants[name := own] && s1.pool.avail == s.pool.avail[1..]
            && name in s1.stores && s1.stores == s.stores[name := s1.stores[name]]
            && s1.stores[name].base == own && s1.stores[name].size == 256 && s1.stores[name].gateway == own + 1
            && s1.stores[name].ips == map[] && s1.stores[name].last == Some(own + 1)
            && ChainGrown(s, s1, name)
  {
    var s1 := Do(mode, s, AddTenant(name, order, true));
    hide BlockOthers, AllowForwarding, Valid, DropsFirst;
    assert s.pool.tenants[name := s.pool.avail[0]].Keys == s.pool.tenants.Keys + {name};
    var own, tenants := s1.pool.tenants[name], s1.pool.tenants;
    EnumeratesIn(order, tenants.Keys);
    AllowAdds(s.chain, own);
    BlockOthersAdds(AllowForwarding(s.chain, own), own, name, tenants, order);
    assert (set t | t in order) == tenants.Keys;
  }

  /** An addTenant for which no block is free kills the operator if the tenant is not on the node, and
      otherwise puts its rules in place again on the block that it has, or does nothing when it gives up. */
  lemma {:induction false} AddWithoutBlock(mode: Reset, s: State, name: string, order: seq<string>)
    requires StoresFit(s) && !s.panicked && s.pool.avail == []
    requires Live(s, name) ==> Enumerates(order, s.pool.tenants.Keys)
    ensures var s1 := Do(mode, s, AddTenant(name, order, true));
            && s1.pool == s.pool && s1.stores == s.stores
            && (s1.panicked <==> !Live(s, name))
            && (Live(s, name) ==> Ruled(s1, name) && ChainGrown(s, s1, name))
            && (!Live(s, name) ==> s1.chain == s.chain)
            && (Live(s, name) ==> Do(mode, s, AddTenant(name, order, false)) == s)
  {
    hide BlockOthers, AllowForwarding, Valid, DropsFirst;
    if Live(s, name) {
      var own, tenants := s.pool.tenants[name], s.pool.tenants;
      EnumeratesIn(order, tenants.Keys);
      AllowAdds(s.chain, own);
      BlockOthersAdds(AllowForwarding(s.chain, own), own, name, tenants, order);
      assert (set t | t in order) == tenants.Keys;
    }
  }

  /** After every run, whoever is added while a block is free is cut off at once, in both directions, from
      every other tenant on the node but the default one, whether or not their own addTenant ran to its
      end, and its own traffic is accepted. */
  lemma {:induction false} AddIsolates(mode: Reset, c: Cidr, steps: seq<Step>, name: string, order: seq<string>)
    requires NodeCidr(c)
    requires var s := Run(mode, Start(c), steps);
             !s.panicked && s.pool.avail != [] && Enumerates(order, s.pool.tenants.Keys + {name})
    ensures var s1 := Do(mode, Run(mode, Start(c), steps), AddTenant(name, order, true));
            && Ruled(s1, name)
            && Always(s1.chain, s1.pool.tenants[name], s1.pool.tenants[name], ACCEPT)
            && forall u :: Live(s1, u) && u != name && u != DEFAULT_TENANT ==>
                 && Always(s1.chain, s1.pool.tenants[name], s1.pool.tenants[u], DROP)
                 && Always(s1.chain, s1.pool.tenants[u], s1.pool.tenants[name], DROP)
  {
    var s, step := Run(mode, Start(c), steps), AddTenant(name, order, true);
    var s1 := Do(mode, s, step);
    PoolRun(mode, c, steps);
    ChainRun(mode, c, steps);
    AddTakesEffect(mode, s, name, order);
    PoolStep(mode, c, s, step);
    ChainStep(mode, c, s, step);
    hide Run, Do, StoresFit, NodeCidr, PoolInv, AlwaysIs, Enumerates, ChainGrown;
    OwnTraffic(c, s1, name);
    forall u | Live(s1, u) && u != name && u != DEFAULT_TENANT
      ensures Always(s1.chain, s1.pool.tenants[name], s1.pool.tenants[u], DROP)
      ensures Always(s1.chain, s1.pool.tenants[u], s1.pool.tenants[name], DROP)
    {
      NewcomerDrops(c, s, s1, name, u);
    }
  }

  lemma {:induction false} OwnTraffic(c: Cidr, s: State, name: string)
    requires NodeCidr(c) && PoolInv(c, s) && ChainInv(c, s) && Ruled(s, name)
    ensures Always(s.chain, s.pool.tenants[name], s.pool.tenants[name], ACCEPT)
  {
    hide NodeCidr, TenantBlocks, Pow2, DropsFirst, AlwaysIs;
    VerdictBetween(c, s, s.pool.tenants[name], s.pool.tenants[name]);
  }

  lemma {:induction false} NewcomerDrops(c: Cidr, s: State, s1: State, name: string, u: string)
    requires NodeCidr(c) && ChainInv(c, s1) && Live(s1, name) && ChainGrown(s, s1, name)
    requires Live(s1, u) && u != name && u != DEFAULT_TENANT
    ensures Always(s1.chain, s1.pool.tenants[name], s1.pool.tenants[u], DROP)
    ensures Always(s1.chain, s1.pool.tenants[u], s1.pool.tenants[name], DROP)
  {
    hide NodeCidr, TenantBlocks, AlwaysIs, DropsFirst;
    var own, block := s1.pool.tenants[name], s1.pool.tenants[u];
    assert NewDrop(Rule(Some(own), Some(block), DROP), own, name, s1.pool.tenants, s1.pool.tenants.Keys);
    assert NewDrop(Rule(Some(block), Some(own), DROP), own, name, s1.pool.tenants, s1.pool.tenants.Keys);
    DropDrops(s1.chain, own, block);
    DropDrops(s1.chain, block, own);
  }

  /** On every run the chain never has a rule twice. */
  lemma {:induction false} ChainNoRepeats(mode: Reset, c: Cidr, steps: seq<Step>)
    requires NodeCidr(c)
    ensures NoRepeats(Run(mode, Start(c), steps).chain)
  {
    if steps != [] {
      var n := |steps| - 1;
      ChainNoRepeats(mode, c, steps[..n]);
      RepeatStep(mode, Run(mode, Start(c), steps[..n]), steps[n]);
    }
  }

  lemma {:induction false} RepeatStep(mode: Reset, s: State, step: Step)
    requires StoresFit(s) && NoRepeats(s.chain)
    ensures NoRepeats(Do(mode, s, step).chain)
  {
    hide NoRepeats, BlockOthers, AllowForwarding, Allocate, AllocateHalf, Release, Valid;
    var s1 := Do(mode, s, step);
    if Adds(s, step, s1) {
      var own, tenants := s1.pool.tenants[step.name], s1.pool.tenants;
      EnumeratesIn(step.order, tenants.Keys);
      RulesOnce(s.chain, own, step.name, tenants, step.order);
      RulesOnce(AllowForwarding(s.chain, own), own, step.name, tenants, step.order);
    }
  }

  /** A tenant that is deleted loses its file, and its block goes to the tail; the rules stay, and so does
      everything of the other tenants. A tenant that is not on the node kills the operator. */
  lemma {:induction false} DeleteTakesEffect(mode: Reset, s: State, name: string)
    requires StoresFit(s) && !s.panicked
    ensures var s1 := Do(mode, s, DeleteTenant(name));
            && s1.chain == s.chain && s1.repeats == s.repeats
            && s1.stores == s.stores - {name} && s1.pool.tenants == s.pool.tenants - {name}
            && s1.pool.nodeIP == s.pool.nodeIP && s1.pool.nodeCIDR == s.pool.nodeCIDR
            && s1.pool.avail == s.pool.avail + (if Live(s, name) then [s.pool.tenants[name]] else [])
            && (s1.panicked <==> !Live(s, name))
            && s1.unruled == if Live(s, name) then s.unruled - {name} else s.unruled
  {
    hide Valid;
    if !Live(s, name) {
      assert s.stores - {name} == s.stores && s.pool.tenants - {name} == s.pool.tenants;
    }
  }

  /** Nothing but the files of this tenant has changed. */
  ghost predicate OnlyStore(s: State, s1: State, name: string) {
    name in s.stores && name in s1.stores && s1 == s.(stores := s.stores[name := s1.stores[name]])
  }

  /** A tenant that comes and goes leaves the node as it was, but for its block, which has gone from the
      head of the queue to the tail, and for its rules, which stay. */
  lemma {:induction false} ComesAndGoes(mode: Reset, s: State, name: string, order: seq<string>)
    requires StoresFit(s) && !s.panicked && s.pool.avail != [] && !Live(s, name)
    requires Enumerates(order, s.pool.tenants.Keys + {name})
    ensures var s2 := Run(mode, s, [AddTenant(name, order, true), DeleteTenant(name)]);
            && s2.pool == s.pool.(avail := s.pool.avail[1..] + [s.pool.avail[0]])
            && s2.stores == s.stores && !s2.panicked
            && s2.chain == Do(mode, s, AddTenant(name, order, true)).chain
  {
    var add := AddTenant(name, order, true);
    RunTwo(mode, s, add, DeleteTenant(name));
    AddTakesEffect(mode, s, name, order);
    AddKeepsNode(mode, s, add);
    var s1 := Do(mode, s, add);
    hide Do, Run, StoresFit, Enumerates, ChainGrown;
    DeleteTakesEffect(mode, s1, name);
    FilesAreTenants(s);
    PutAndDrop(s.pool.tenants, name, s.pool.avail[0]);
    PutAndDrop(s.stores, name, s1.stores[name]);
  }

  lemma {:induction false} PutAndDrop<K, V>(m: map<K, V>, k: K, v: V)
    requires k !in m
    ensures m[k := v] - {k} == m
  {
  }

  lemma {:induction false} FilesAreTenants(s: State)
    requires StoresFit(s)
    ensures s.stores.Keys == s.pool.tenants.Keys
  {
  }

  lemma {:induction false} AddKeepsNode(mode: Reset, s: State, add: Step)
    requires StoresFit(s) && add.AddTenant?
    ensures StoresFit(Do(mode, s, add))
    ensures var p := Do(mode, s, add).pool; p.nodeIP == s.pool.nodeIP && p.nodeCIDR == s.pool.nodeCIDR
  {
    FitStep(mode, s, add);
    hide StoresFit, BlockOthers, AllowForwarding;
  }

  lemma {:induction false} RunTwo(mode: Reset, s: State, a: Step, b: Step)
    requires StoresFit(s)
    ensures StoresFit(Do(mode, s, a)) && Run(mode, s, [a, b]) == Do(mode, Do(mode, s, a), b)
  {
    FitStep(mode, s, a);
    hide Do, StoresFit;
    assert [a, b][..1] == [a] && [a][..0] == [];
    assert Run(mode, s, []) == s;
    assert Run(mode, s, [a]) == Do(mode, s, a);
  }

  /** Room for one more container: read as intended while fewer than 254 have an address, as written while
      an address after the cursor is free. */
  ghost predicate HasRoom(mode: Reset, d: TenantData) {
    match mode
    case ParsedAddr => |d.ips| < d.size - 2
    case RawText => d.last.Some? && exists x: Addr :: d.last.value < x < d.base + d.size && x !in d.ips
  }

  /** A container of a tenant on the node keeps its address, or gets one of the tenant's block that nobody
      holds if and only if there is room; other containers and other tenants notice nothing. A death
      between the stores differs in the cursor alone. */
  lemma {:induction false} ContainerGetsAddress(mode: Reset, s: State, name: string, info: NetInfo)
    requires StoresFit(s) && Live(s, name)
    ensures var d := s.stores[name];
            var s1, s2 := Do(mode, s, AddContainer(name, info)), Do(mode, s, CrashContainer(name, info));
            && OnlyStore(s, s1, name) && OnlyStore(s, s2, name)
            && s2.stores[name] == s1.stores[name].(last := d.last)
            && ((exists b :: b in d.ips && d.ips[b].id == info.id) || !HasRoom(mode, d) ==> s1 == s)
            && ((forall b :: b in d.ips ==> d.ips[b].id != info.id) && HasRoom(mode, d) ==>
                  exists a: Addr :: s.pool.tenants[name] + 2 <= a < s.pool.tenants[name] + 256 && a !in d.ips
                                    && s1.stores[name] == d.(ips := d.ips[a := info], last := Some(a)))
  {
    var d := s.stores[name];
    HolderIs(d.ips, info.id);
    ExactCapacity(d);
    RawScanEndsIff(d);
    ParsedScanEnds(d);
    if ScanResult(mode, d).Picked? {
      PickedIsFree(mode, d);
    }
    hide ScanResult, IterateN, Holder;
    assert s.stores[name := d] == s.stores;
  }

  /** A release drops the addresses of that container, and nothing else. */
  lemma {:induction false} ReleaseDropsOnly(mode: Reset, s: State, name: string, id: string)
    requires StoresFit(s) && Live(s, name)
    ensures var d := s.stores[name]; var s1 := Do(mode, s, DelContainer(name, id));
            && OnlyStore(s, s1, name) && s1.stores[name] == d.(ips := s1.stores[name].ips)
            && (forall a :: a in s1.stores[name].ips <==> a in d.ips && d.ips[a].id != id)
            && (forall a :: a in s1.stores[name].ips ==> s1.stores[name].ips[a] == d.ips[a])
  {
    HolderIs(s.stores[name].ips, id);
    hide Holder;
  }

  // ---------------------------------------------------------------- block reuse

  /** The blocks handed out by a step, and those returned by it. */
  ghost function TakenBy(mode: Reset, s: State, step: Step): seq<int>
    requires StoresFit(s)
  {
    if step.AddTenant? && !s.panicked && s.pool.avail != [] && Do(mode, s, step).pool.avail == s.pool.avail[1..]
    then [s.pool.avail[0]] else []
  }

  ghost function ReturnedBy(s: State, step: Step): seq<int>
    requires StoresFit(s)
  {
    if step.DeleteTenant? && !s.panicked && Live(s, step.name) then [s.pool.tenants[step.name]] else []
  }

  ghost function Taken(mode: Reset, s: State, steps: seq<Step>): seq<int>
    requires StoresFit(s)
  {
    if steps == [] then []
    else
      var n := |steps| - 1;
      Taken(mode, s, steps[..n]) + TakenBy(mode, Run(mode, s, steps[..n]), steps[n])
  }

  ghost function Returned(mode: Reset, s: State, steps: seq<Step>): seq<int>
    requires StoresFit(s)
  {
    if steps == [] then []
    else
      var n := |steps| - 1;
      Returned(mode, s, steps[..n]) + ReturnedBy(Run(mode, s, steps[..n]), steps[n])
  }

  lemma {:induction false} QueueStep(mode: Reset, s: State, step: Step)
    requires StoresFit(s)
    ensures s.pool.avail + ReturnedBy(s, step) == TakenBy(mode, s, step) + Do(mode, s, step).pool.avail
  {
    hide BlockOthers, AllowForwarding, Allocate, AllocateHalf, Release, Valid, FreshStore;
    if s.pool.avail != [] {
      assert s.pool.avail == [s.pool.avail[0]] + s.pool.avail[1..];
    }
  }

  /** The free blocks are a queue: what was free plus what came back is, in order, what was handed out
      followed by what is free now. */
  lemma {:induction false} QueueLaw(mode: Reset, s: State, steps: seq<Step>)
    requires StoresFit(s)
    ensures s.pool.avail + Returned(mode, s, steps) == Taken(mode, s, steps) + Run(mode, s, steps).pool.avail
  {
    if steps != [] {
      var n := |steps| - 1;
      QueueLaw(mode, s, steps[..n]);
      var s1 := Run(mode, s, steps[..n]);
      QueueStep(mode, s1, steps[n]);
      hide StoresFit, Do, TakenBy, ReturnedBy;
      Splice(s.pool.avail, Returned(mode, s, steps[..n]), ReturnedBy(s1, steps[n]),
             Taken(mode, s, steps[..n]), TakenBy(mode, s1, steps[n]), s1.pool.avail, Run(mode, s, steps).pool.avail);
    }
  }

  lemma {:induction false} Splice<T>(a: seq<T>, r: seq<T>, r1: seq<T>, t: seq<T>, t1: seq<T>, b: seq<T>, e: seq<T>)
    requires a + r == t + b && b + r1 == t1 + e
    ensures a + (r + r1) == (t + t1) + e
  {
    assert a + (r + r1) == (a + r) + r1;
    assert (t + b) + r1 == t + (b + r1);
    assert t + (t1 + e) == (t + t1) + e;
  }

  /** A block that comes back is not handed out again before every block that was free at that moment
      has been handed out. */
  lemma {:induction false} FifoReuse(mode: Reset, c: Cidr, s: State, name: string, steps: seq<Step>)
    requires NodeCidr(c) && StoresFit(s) && PoolInv(c, s) && !s.panicked && Live(s, name)
    requires StoresFit(Do(mode, s, DeleteTenant(name)))
    requires s.pool.tenants[name] in Taken(mode, Do(mode, s, DeleteTenant(name)), steps)
    ensures s.pool.avail + [s.pool.tenants[name]] <= Taken(mode, Do(mode, s, DeleteTenant(name)), steps)
  {
    var s1 := Do(mode, s, DeleteTenant(name));
    var b := s.pool.tenants[name];
    QueueLaw(mode, s1, steps);
    var taken := Taken(mode, s1, steps);
    var lhs := s1.pool.avail + Returned(mode, s1, steps);
    assert s1.pool.avail == s.pool.avail + [b];
    hide Taken, Returned, StoresFit, Do, NodeCidr, TenantBlocks;
    var i :| 0 <= i < |taken| && taken[i] == b;
    assert lhs[i] == taken[i] && lhs[..|s.pool.avail|] == s.pool.avail;
    assert lhs[..|s1.pool.avail|] == s1.pool.avail;
    assert taken == lhs[..|taken|];
  }
}
