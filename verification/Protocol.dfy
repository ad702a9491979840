/** One Tenant object with a fixed list of node names, and the controllers of all its nodes.

    The API server keeps the versions of the object; an update names the version it was made from and
    is refused unless that is the latest one. Each node's informer follows the versions one by one: it
    moves the lister cache on and later hands the change to the work queue. Each node has one worker,
    which may have to retry a publication or a revert many times, and may give up. Users may edit VNI
    and Prefix at any moment. Steps of all nodes interleave freely; a step that cannot be taken leaves
    the system as it is. */
module Protocol {
  import opened Options
  import opened Api
  import opened Forwarding

  /** Events hold version numbers of the old and the new object. */
  datatype Event = Add | Update(was: nat, now: nat)

  /** Publishing lists the entries still to be written; once they are, the VXLAN device is up and only
      the node's label is missing. Dead is an operator that died on a missing VXLAN device or on an
      entry past the end of the list. */
  datatype Work = Idle | Publishing(todo: seq<nat>) | Reverting | Dead

  /** recorded holds the VNI and Prefix that the Add stored in the tenant file; added says that the Add
      has succeeded, dropped that a revert was given up and none has been written since. */
  datatype Node = Node(
    started: bool, cached: nat, delivered: nat, queue: seq<Event>, work: Work,
    recorded: Option<(int, int)>, device: bool, tables: Tables, added: bool, dropped: bool)

  const FRESH := Node(false, 0, 0, [], Idle, None, false, EMPTY, false, false)

  /** history holds every version; edits, reverts and pubs count the writes that made a new one. */
  datatype Sys = Sys(history: seq<Tenant>, nodes: map<string, Node>, edits: nat, reverts: nat, pubs: nat)

  datatype Step =
    | StartNode(n: string)
    | Observe(n: string)
    | Deliver(n: string)
    | Resync(n: string)
    | Take(n: string)
    | Attempt(n: string)
    | GiveUp(n: string)
    | UserEdit(n: string, vni: int, prefix: int)

  function Latest(h: seq<Tenant>): Tenant
    requires h != []
  {
    h[|h| - 1]
  }

  /** A write that changes nothing makes no version. */
  function Write(h: seq<Tenant>, t: Tenant): (r: seq<Tenant>)
    requires h != []
    ensures r != []
  {
    if t == Latest(h) then h else h + [t]
  }

  /** The worker takes an Add: it records the fields and starts to publish. */
  function TakeAdd(h: seq<Tenant>, me: string, ns: Node): Node
    requires ns.cached < |h|
  {
    var t := h[ns.cached];
    if !Lists(t.nodes, me) then ns
    else ns.(recorded := Some(t.Fixed()), work := Publishing(Indices(t.nodes, me, 0)))
  }

  /** The worker takes an update: peers are installed from the cached version when the node list has
      changed; a changed VNI or Prefix starts a revert. */
  function TakeUpdate(h: seq<Tenant>, me: string, ns: Node, e: Event): Node
    requires e.Update? && e.was < |h| && e.now < |h| && ns.cached < |h|
  {
    var was, now := h[e.was], h[e.now];
    if now == was then ns
    else
      var refreshed := if now.nodes != was.nodes then h[ns.cached] else now;
      if now.nodes != was.nodes && ReadyPeer(refreshed.nodes, me) && !ns.device then ns.(work := Dead)
      else
        var tables := if now.nodes != was.nodes then Install(ns.tables, refreshed.nodes, me, refreshed.prefix) else ns.tables;
        ns.(tables := tables, work := if refreshed.Fixed() != was.Fixed() && ns.recorded.Some? then Reverting else Idle)
  }

  function TakeNext(h: seq<Tenant>, me: string, ns: Node): Node {
    if !ns.work.Idle? || ns.queue == [] || ns.cached >= |h| then ns
    else
      var rest := ns.(queue := ns.queue[1..]);
      match ns.queue[0]
      case Add => TakeAdd(h, me, rest)
      case Update(was, now) =>
        if was < |h| && now < |h| then TakeUpdate(h, me, rest, ns.queue[0]) else rest
  }

  /** The version and the node after one attempt to write; a stale cache means a conflict. */
  function TryWrite(h: seq<Tenant>, ns: Node, p: Published): (seq<Tenant>, Node)
    requires h != []
  {
    var current := ns.cached == |h| - 1;
    match ns.work
    case Publishing(todo) =>
      if todo == [] then (h, ns.(work := Idle, added := true))
      else if ns.cached < |h| && todo[0] >= |h[ns.cached].nodes| then (h, ns.(work := Dead))
      else if current then
        (Write(h, PublishInto(Latest(h), todo[0], p)),
         ns.(work := Publishing(todo[1..]), device := ns.device || (|todo| == 1 && |Latest(h).nodes| > 1)))
      else (h, ns)
    case Reverting =>
      if current && ns.recorded.Some? then
        (Write(h, Revert(Latest(h), ns.recorded.value)), ns.(work := Idle, dropped := false))
      else (h, ns)
    case _ => (h, ns)
  }

  // ---------------------------------------------------------------- the objects

  class ApiServer {
    var history: seq<Tenant>

    constructor (t: Tenant)
      ensures history == [t]
    {
      history := [t];
    }

    /** An update made from a version other than the latest is a conflict and changes nothing. */
    method Update(version: nat, t: Tenant) returns (ok: bool)
      requires history != []
      modifies this
      ensures ok <==> version == |old(history)| - 1
      ensures history == if ok then Write(old(history), t) else old(history)
    {
      ok := version == |history| - 1;
      if ok && t != history[|history| - 1] {
        history := history + [t];
      }
    }
  }

  /** One node's operator: its lister cache, its work queue and what its worker is doing. */
  class Operator {
    const me: string
    const own: Published
    const api: ApiServer
    const vxlan: Device
    var started: bool
    var cached: nat
    var delivered: nat
    var queue: seq<Event>
    var work: Work
    var recorded: Option<(int, int)>
    var device: bool
    var added: bool
    var dropped: bool

    constructor (me: string, own: Published, api: ApiServer, vxlan: Device)
      requires vxlan.tables == EMPTY
      ensures Value() == FRESH && this.me == me && this.own == own && this.api == api && this.vxlan == vxlan
    {
      this.me, this.own, this.api, this.vxlan := me, own, api, vxlan;
      started, cached, delivered, queue, work := false, 0, 0, [], Idle;
      recorded, device, added, dropped := None, false, false, false;
    }

    function Value(): Node
      reads this, vxlan
    {
      Node(started, cached, delivered, queue, work, recorded, device, vxlan.tables, added, dropped)
    }

    /** processNextItem, up to the first write that a publication or a revert needs. */
    method ProcessNextItem()
      requires work.Idle? && queue != [] && cached < |api.history|
      requires queue[0].Update? ==> queue[0].was < |api.history| && queue[0].now < |api.history|
      modifies this, vxlan
      ensures Value() == TakeNext(api.history, me, old(Value()))
    {
      var obj := queue[0];
      queue := queue[1..];
      match obj
      case Add => BeginAdd();
      case Update(was, now) => UpdateTenant(was, now);
    }

    /** addTenant, up to its publications: one for every entry with this node's name. */
    method BeginAdd()
      requires work.Idle? && cached < |api.history|
      modifies this
      ensures Value() == TakeAdd(api.history, me, old(Value()))
    {
      var tenant := api.history[cached];
      var member := ExistsNode(tenant.nodes, me);
      if !member {
        return;
      }
      recorded := Some((tenant.vni, tenant.prefix));
      var todo := OwnIndices(tenant.nodes, me);
      work := Publishing(todo);
    }

    method UpdateTenant(was: nat, now: nat)
      requires work.Idle? && cached < |api.history| && was < |api.history| && now < |api.history|
      modifies this, vxlan
      ensures Value() == TakeUpdate(api.history, me, old(Value()), Update(was, now))
    {
      var newTenant, oldTenant := api.history[now], api.history[was];
      if newTenant == oldTenant {
        return;
      }
      if newTenant.nodes != oldTenant.nodes {
        newTenant := api.history[cached];
        if !device {
          for i := 0 to |newTenant.nodes|
            invariant Value() == old(Value())
            invariant forall j :: 0 <= j < i ==> newTenant.nodes[j].name == me || !newTenant.nodes[j].Ready()
          {
            if newTenant.nodes[i].name != me && newTenant.nodes[i].Ready() {
              work := Dead;
              return;
            }
          }
        }
        vxlan.InstallPeers(newTenant.nodes, me, newTenant.prefix);
      }
      if (newTenant.prefix != oldTenant.prefix || newTenant.vni != oldTenant.vni) && recorded.Some? {
        work := Reverting;
      }
    }

    /** One round of a retry: refresh from the lister cache, change the copy, update. */
    method Attempt()
      requires api.history != [] && cached < |api.history|
      modifies this, api
      ensures (api.history, Value()) == TryWrite(old(api.history), old(Value()), own)
    {
      var tenant := api.history[cached];
      match work
      case Publishing(todo) =>
        if todo == [] {
          work, added := Idle, true;
        } else if todo[0] >= |tenant.nodes| {
          work := Dead;
        } else {
          var ok := api.Update(cached, PublishInto(tenant, todo[0], own));
          if ok {
            if |todo| == 1 && |tenant.nodes| > 1 {
              device := true;
            }
            work := Publishing(todo[1..]);
          }
        }
      case Reverting =>
        if recorded.Some? {
          var ok := api.Update(cached, Revert(tenant, recorded.value));
          if ok {
            work, dropped := Idle, false;
          }
        }
      case _ =>
    }
  }

  // ---------------------------------------------------------------- the step system

  function LocalStep(h: seq<Tenant>, ns: Node, step: Step): Node
    requires h != []
  {
    match step
    case StartNode(_) =>
      if ns.started then ns else ns.(started := true, cached := |h| - 1, delivered := |h| - 1, queue := [Add])
    case Observe(_) => if ns.started && ns.cached < |h| - 1 then ns.(cached := ns.cached + 1) else ns
    case Deliver(_) =>
      if ns.started && ns.delivered < ns.cached
      then ns.(delivered := ns.delivered + 1, queue := ns.queue + [Update(ns.delivered, ns.delivered + 1)]) else ns
    case Resync(_) => if ns.started then ns.(queue := ns.queue + [Update(ns.delivered, ns.delivered)]) else ns
    case Take(n) => TakeNext(h, n, ns)
    case GiveUp(_) =>
      if ns.work.Publishing? then ns.(work := Idle)
      else if ns.work.Reverting? then ns.(work := Idle, dropped := true) else ns
    case _ => ns
  }

  function Do(pub: map<string, Published>, s: Sys, step: Step): Sys {
    if s.history == [] then s
    else if step.UserEdit? then
      var h := Write(s.history, Latest(s.history).(vni := step.vni, prefix := step.prefix));
      s.(history := h, edits := s.edits + |h| - |s.history|)
    else if step.n !in s.nodes || step.n !in pub then s
    else if step.Attempt? then
      var (h, ns) := TryWrite(s.history, s.nodes[step.n], pub[step.n]);
      var made := |h| - |s.history|;
      s.(history := h, nodes := s.nodes[step.n := ns],
         reverts := s.reverts + if s.nodes[step.n].work.Reverting? then made else 0,
         pubs := s.pubs + if s.nodes[step.n].work.Publishing? then made else 0)
    else s.(nodes := s.nodes[step.n := LocalStep(s.history, s.nodes[step.n], step)])
  }

  ghost function Start(t: Tenant, pub: map<string, Published>): Sys {
    Sys([t], map n | n in pub :: FRESH, 0, 0, 0)
  }

  function Run(pub: map<string, Published>, s: Sys, steps: seq<Step>): Sys {
    if steps == [] then s else Do(pub, Run(pub, s, steps[..|steps| - 1]), steps[|steps| - 1])
  }

  /** A new object: no entry is published, every named node takes part, and addresses are distinct. */
  ghost predicate NewObject(t: Tenant, pub: map<string, Published>) {
    && Distinct(pub)
    && (forall i :: 0 <= i < |t.nodes| ==> t.nodes[i].name in pub && t.nodes[i].Unset())
    && (forall m :: m in pub ==> Lists(t.nodes, m))
  }
}
