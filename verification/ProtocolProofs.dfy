/** What every step of the protocol keeps, and what follows once the system is quiet. */
module ProtocolProofs {
  import opened Options
  import opened Api
  import opened Forwarding
  import opened Protocol

  // ---------------------------------------------------------------- versions

  /** Whatever was published in a stays published in b. */
  ghost predicate Keeps(a: seq<NodeEntry>, b: seq<NodeEntry>) {
    SameNames(a, b) && forall i :: 0 <= i < |a| && a[i].Ready() ==> b[i].Ready()
  }

  /** The length of every version's routes, if it never changes. */
  ghost predicate PrefixIs(t: Tenant, len: Option<int>) {
    len.Some? ==> t.prefix == len.value
  }

  ghost predicate VersionOk(t0: Tenant, pub: map<string, Published>, len: Option<int>, t: Tenant) {
    SameNames(t0.nodes, t.nodes) && Faithful(t.nodes, pub) && PrefixIs(t, len)
  }

  ghost predicate HistoryOk(t0: Tenant, pub: map<string, Published>, len: Option<int>, h: seq<Tenant>) {
    && h != [] && h[0] == t0
    && (forall v :: 0 <= v < |h| ==> VersionOk(t0, pub, len, h[v]))
    && (forall v, w :: 0 <= v <= w < |h| ==> Keeps(h[v].nodes, h[w].nodes))
  }

  lemma {:induction false} HistoryExtend(
      t0: Tenant, pub: map<string, Published>, len: Option<int>, h: seq<Tenant>, t: Tenant)
    requires HistoryOk(t0, pub, len, h) && VersionOk(t0, pub, len, t) && Keeps(Latest(h).nodes, t.nodes)
    ensures HistoryOk(t0, pub, len, Write(h, t)) && h <= Write(h, t)
  {
    hide VersionOk;
    var h1 := h + [t];
    forall v, w | 0 <= v <= w < |h1| ensures Keeps(h1[v].nodes, h1[w].nodes) {
      if w < |h| {
        assert Keeps(h[v].nodes, h[w].nodes);
      } else if v < |h| {
        assert Keeps(h[v].nodes, Latest(h).nodes);
      }
    }
  }

  // ---------------------------------------------------------------- one node

  predicate OwnUnset(nodes: seq<NodeEntry>, me: string) {
    exists i :: 0 <= i < |nodes| && nodes[i].name == me && !nodes[i].Ready()
  }

  predicate OwnAllUnset(nodes: seq<NodeEntry>, me: string) {
    forall i :: 0 <= i < |nodes| && nodes[i].name == me ==> !nodes[i].Ready()
  }

  /** m's entry is published in the list. */
  predicate Shows(nodes: seq<NodeEntry>, m: string) {
    exists i :: 0 <= i < |nodes| && nodes[i].name == m && nodes[i].Ready()
  }

  /** Every own entry is published, but for those still to do. */
  predicate OwnDone(nodes: seq<NodeEntry>, me: string, todo: seq<nat>) {
    forall i :: 0 <= i < |nodes| && nodes[i].name == me ==> nodes[i].Ready() || i in todo
  }

  ghost predicate EventOk(e: Event, delivered: nat) {
    e.Update? ==> e.was <= e.now <= e.was + 1 && e.now <= delivered
  }

  ghost predicate QueueOk(ns: Node) {
    && (forall k :: 0 <= k < |ns.queue| ==> EventOk(ns.queue[k], ns.delivered))
    && (forall k :: 0 <= k < |ns.queue| && (k > 0 || ns.recorded.Some?) ==> !ns.queue[k].Add?)
  }

  ghost predicate PhaseOk(h: seq<Tenant>, me: string, ns: Node)
    requires h != []
  {
    && (!ns.started ==> ns == FRESH)
    && (ns.started ==> ns.delivered <= ns.cached < |h|)
    && (ns.recorded.None? ==> ns.work.Idle? && !ns.added && !ns.dropped && OwnAllUnset(Latest(h).nodes, me))
    && (ns.recorded.None? && ns.started ==> ns.queue != [] && ns.queue[0].Add?)
    && (ns.recorded.Some? ==> ns.started)
    && (ns.work.Publishing? ==> !ns.added && OwnDone(Latest(h).nodes, me, ns.work.todo)
                                && forall x :: x in ns.work.todo ==> x < |Latest(h).nodes| && Latest(h).nodes[x].name == me)
    && (ns.added ==> OwnDone(Latest(h).nodes, me, []) && ns.recorded.Some?)
  }

  ghost predicate TablesOk(pub: map<string, Published>, len: Option<int>, me: string, ns: Node) {
    && OnlyPeers(ns.tables, pub, me)
    && (len.Some? ==> OneLength(ns.tables, len.value))
    && (len.Some? && ns.recorded.Some? ==> ns.recorded.value.1 == len.value)
  }

  predicate Alive(ns: Node) {
    ns.recorded.Some? && !ns.work.Dead?
  }

  /** An update that changes the node list waits in the queue. */
  ghost predicate ChangeWaits(h: seq<Tenant>, q: seq<Event>) {
    exists k :: 0 <= k < |q| && q[k].Update? && q[k].was < |h| && q[k].now < |h| && h[q[k].was].nodes != h[q[k].now].nodes
  }

  ghost predicate PeersInstalled(
      pub: map<string, Published>, len: Option<int>, nodes: seq<NodeEntry>, me: string, t: Tables) {
    forall m :: m in pub && m != me && Shows(nodes, m) ==> Reaches(t, pub[m], len)
  }

  /** Every peer published in the version last handed to the queue is installed, or a later update
      will install it: one that waits, or the one that this node's own publication will bring. */
  ghost predicate MeshOk(pub: map<string, Published>, len: Option<int>, h: seq<Tenant>, me: string, ns: Node) {
    Alive(ns) && ns.delivered < |h| ==>
      || OwnUnset(h[ns.delivered].nodes, me)
      || ChangeWaits(h, ns.queue)
      || PeersInstalled(pub, len, h[ns.delivered].nodes, me, ns.tables)
  }

  /** j is the last version with the recorded fields, and a later one exists. */
  ghost predicate LastAgreed(h: seq<Tenant>, r: (int, int), j: int) {
    0 <= j && j + 1 < |h| && h[j].Fixed() == r && forall i :: j < i < |h| ==> h[i].Fixed() != r
  }

  /** When the fields have been edited away from the recorded ones, the edit is still on its way to
      this node, or waits in its queue, or is being reverted. */
  ghost predicate FieldsOk(h: seq<Tenant>, ns: Node) {
    && (ns.recorded.Some? ==> exists i :: 0 <= i < |h| && h[i].Fixed() == ns.recorded.value)
    && (Alive(ns) && !ns.dropped ==> forall j :: LastAgreed(h, ns.recorded.value, j) ==>
          ns.delivered <= j || ChangeAt(j) in ns.queue || ns.work.Reverting?)
  }

  function ChangeAt(j: int): Event {
    if j < 0 then Add else Update(j, j + 1)
  }

  ghost predicate NodeOk(pub: map<string, Published>, len: Option<int>, h: seq<Tenant>, me: string, ns: Node)
    requires h != []
  {
    QueueOk(ns) && PhaseOk(h, me, ns) && TablesOk(pub, len, me, ns) && MeshOk(pub, len, h, me, ns) && FieldsOk(h, ns)
  }

  // ---------------------------------------------------------------- a new version

  lemma {:induction false} PhaseExtend(h: seq<Tenant>, t: Tenant, me: string, ns: Node)
    requires h != [] && PhaseOk(h, me, ns) && Keeps(Latest(h).nodes, t.nodes)
    requires ns.recorded.None? ==> OwnAllUnset(t.nodes, me)
    ensures PhaseOk(h + [t], me, ns)
  {
  }

  lemma {:induction false} MeshExtend(
      pub: map<string, Published>, len: Option<int>, h: seq<Tenant>, t: Tenant, me: string, ns: Node)
    requires MeshOk(pub, len, h, me, ns) && (ns.started ==> ns.delivered < |h|) && (ns.recorded.Some? ==> ns.started)
    ensures MeshOk(pub, len, h + [t], me, ns)
  {
    hide PeersInstalled, OwnUnset;
    if ChangeWaits(h, ns.queue) {
      var q := ns.queue;
      var k :| 0 <= k < |q| && q[k].Update? && q[k].was < |h| && q[k].now < |h| && h[q[k].was].nodes != h[q[k].now].nodes;
      assert (h + [t])[q[k].was] == h[q[k].was] && (h + [t])[q[k].now] == h[q[k].now];
    }
  }

  lemma {:induction false} FieldsExtend(h: seq<Tenant>, t: Tenant, ns: Node)
    requires h != [] && FieldsOk(h, ns) && (ns.recorded.Some? ==> ns.delivered < |h|)
    ensures FieldsOk(h + [t], ns)
  {
    var h1 := h + [t];
    if ns.recorded.Some? {
      var i :| 0 <= i < |h| && h[i].Fixed() == ns.recorded.value;
      assert h1[i].Fixed() == ns.recorded.value;
    }
    forall j | Alive(ns) && !ns.dropped && LastAgreed(h1, ns.recorded.value, j)
      ensures ns.delivered <= j || ChangeAt(j) in ns.queue || ns.work.Reverting?
    {
      if j + 1 < |h| {
        assert h1[j] == h[j];
        assert forall i :: j < i < |h| ==> h[i] == h1[i];
        assert LastAgreed(h, ns.recorded.value, j);
      }
    }
  }

  lemma {:induction false} NodeExtend(
      pub: map<string, Published>, len: Option<int>, h: seq<Tenant>, t: Tenant, me: string, ns: Node)
    requires h != [] && NodeOk(pub, len, h, me, ns) && Keeps(Latest(h).nodes, t.nodes)
    requires ns.recorded.None? ==> OwnAllUnset(t.nodes, me)
    ensures NodeOk(pub, len, Write(h, t), me, ns)
  {
    PhaseExtend(h, t, me, ns);
    MeshExtend(pub, len, h, t, me, ns);
    FieldsExtend(h, t, ns);
    hide QueueOk, TablesOk, MeshOk, FieldsOk;
  }

  // ---------------------------------------------------------------- steps of one node

  /** Routes of this length can be installed for every VTEP address. */
  ghost predicate LenOk(pub: map<string, Published>, len: Option<int>) {
    len.Some? ==> len.value != 32 && forall m :: m in pub ==> HostBitsClear(pub[m].vtepIp, len.value)
  }

  lemma {:induction false} StartOk(pub: map<string, Published>, len: Option<int>, h: seq<Tenant>, me: string, ns: Node)
    requires h != [] && NodeOk(pub, len, h, me, ns)
    ensures NodeOk(pub, len, h, me, LocalStep(h, ns, StartNode(me)))
  {
    hide OwnAllUnset, OnlyPeers, OneLength;
  }

  lemma {:induction false} ObserveOk(
      pub: map<string, Published>, len: Option<int>, h: seq<Tenant>, me: string, ns: Node)
    requires h != [] && NodeOk(pub, len, h, me, ns)
    ensures NodeOk(pub, len, h, me, LocalStep(h, ns, Observe(me)))
    ensures NodeOk(pub, len, h, me, LocalStep(h, ns, GiveUp(me)))
  {
    hide OwnAllUnset, OnlyPeers, OneLength, OwnDone, ChangeWaits, PeersInstalled, OwnUnset;
  }

  /** What an appended event leaves in place. */
  lemma {:induction false} EnqueueOk(h: seq<Tenant>, ns: Node, e: Event, delivered: nat)
    requires QueueOk(ns) && e.Update? && EventOk(e, delivered) && delivered >= ns.delivered
    ensures QueueOk(ns.(queue := ns.queue + [e], delivered := delivered))
    ensures ChangeWaits(h, ns.queue) ==> ChangeWaits(h, ns.queue + [e])
    ensures e.was < |h| && e.now < |h| && h[e.was].nodes != h[e.now].nodes ==> ChangeWaits(h, ns.queue + [e])
    ensures forall x :: x in ns.queue || x == e ==> x in ns.queue + [e]
  {
    var q, q1 := ns.queue, ns.queue + [e];
    if ChangeWaits(h, q) {
      var k :| 0 <= k < |q| && q[k].Update? && q[k].was < |h| && q[k].now < |h| && h[q[k].was].nodes != h[q[k].now].nodes;
      assert q1[k] == q[k];
    }
    assert q1[|q|] == e;
  }

  lemma {:induction false} DeliverOk(
      pub: map<string, Published>, len: Option<int>, h: seq<Tenant>, me: string, ns: Node)
    requires h != [] && NodeOk(pub, len, h, me, ns)
    ensures NodeOk(pub, len, h, me, LocalStep(h, ns, Deliver(me)))
  {
    var e := Update(ns.delivered, ns.delivered + 1);
    if ns.started && ns.delivered < ns.cached {
      EnqueueOk(h, ns, e, ns.delivered + 1);
      hide OwnAllUnset, TablesOk, OwnDone, ChangeWaits, PeersInstalled, OwnUnset, QueueOk;
    }
  }

  lemma {:induction false} ResyncOk(pub: map<string, Published>, len: Option<int>, h: seq<Tenant>, me: string, ns: Node)
    requires h != [] && NodeOk(pub, len, h, me, ns)
    ensures NodeOk(pub, len, h, me, LocalStep(h, ns, Resync(me)))
  {
    var e := Update(ns.delivered, ns.delivered);
    if ns.started {
      EnqueueOk(h, ns, e, ns.delivered);
      hide OwnAllUnset, TablesOk, OwnDone, ChangeWaits, PeersInstalled, OwnUnset, QueueOk;
    }
  }

  lemma {:induction false} TakeAddOk(
      t0: Tenant, pub: map<string, Published>, len: Option<int>, h: seq<Tenant>, me: string, ns: Node)
    requires HistoryOk(t0, pub, len, h) && NodeOk(pub, len, h, me, ns) && Lists(t0.nodes, me)
    requires ns.work.Idle? && ns.queue != [] && ns.queue[0].Add? && ns.started
    ensures NodeOk(pub, len, h, me, TakeNext(h, me, ns))
  {
    AddSees(t0, pub, len, h, me, ns.cached, ns.delivered);
    hide HistoryOk, OnlyPeers, OneLength, ChangeWaits, PeersInstalled, OwnDone, OwnUnset, Lists, Indices, OwnAllUnset;
    assert ns.recorded.None?;
    assert FieldsOk(h, TakeNext(h, me, ns)) by {
      assert h[ns.cached].Fixed() == TakeNext(h, me, ns).recorded.value;
    }
  }

  /** At the first Add nothing of its own is published; the Add will publish all of it. */
  lemma {:induction false} AddSees(
      t0: Tenant, pub: map<string, Published>, len: Option<int>, h: seq<Tenant>, me: string, c: nat, d: nat)
    requires HistoryOk(t0, pub, len, h) && Lists(t0.nodes, me) && c < |h| && d < |h|
    requires OwnAllUnset(Latest(h).nodes, me)
    ensures PrefixIs(h[c], len) && Lists(h[c].nodes, me) && OwnUnset(h[d].nodes, me)
    ensures var todo := Indices(h[c].nodes, me, 0);
            && OwnDone(Latest(h).nodes, me, todo)
            && forall x :: x in todo ==> x < |Latest(h).nodes| && Latest(h).nodes[x].name == me
  {
    var v := h[c];
    assert VersionOk(t0, pub, len, v) && Keeps(v.nodes, Latest(h).nodes) && Keeps(h[d].nodes, Latest(h).nodes);
    assert VersionOk(t0, pub, len, h[d]);
    hide HistoryOk, Faithful;
    var i :| 0 <= i < |t0.nodes| && t0.nodes[i].name == me;
    assert v.nodes[i].name == me && h[d].nodes[i].name == me;
    IndicesAre(v.nodes, me, 0);
  }

  lemma {:induction false} ChangeStillWaits(h: seq<Tenant>, q: seq<Event>)
    requires q != [] && ChangeWaits(h, q)
    requires q[0].Update? && q[0].was < |h| && q[0].now < |h| ==> h[q[0].was].nodes == h[q[0].now].nodes
    ensures ChangeWaits(h, q[1..])
  {
    var k :| 0 <= k < |q| && q[k].Update? && q[k].was < |h| && q[k].now < |h| && h[q[k].was].nodes != h[q[k].now].nodes;
    assert q[1..][k - 1] == q[k];
  }

  /** Taking an update that changes the list installs every peer that was published by then. */
  lemma {:induction false} TakeInstalls(
      t0: Tenant, pub: map<string, Published>, len: Option<int>, h: seq<Tenant>, me: string, t: Tables, d: nat, c: nat)
    requires HistoryOk(t0, pub, len, h) && Distinct(pub) && LenOk(pub, len) && d <= c < |h|
    requires OnlyPeers(t, pub, me) && (len.Some? ==> OneLength(t, len.value))
    ensures var t1 := Install(t, h[c].nodes, me, h[c].prefix);
            && PeersInstalled(pub, len, h[d].nodes, me, t1)
            && OnlyPeers(t1, pub, me) && (len.Some? ==> OneLength(t1, len.value))
  {
    assert VersionOk(t0, pub, len, h[c]) && Keeps(h[d].nodes, h[c].nodes);
    hide HistoryOk, Distinct, OnlyPeers, OneLength, Reaches, Install, Faithful, HostBitsClear;
    InstallOnly(t, h[c].nodes, me, h[c].prefix, pub);
    forall m | m in pub && m != me && Shows(h[d].nodes, m)
      ensures Reaches(Install(t, h[c].nodes, me, h[c].prefix), pub[m], len)
    {
      InstallMeans(t, h[c].nodes, me, h[c].prefix, pub, m, len);
    }
  }

  /** The shape of a node after it has taken an update. */
  lemma {:induction false} TakeShape(h: seq<Tenant>, me: string, ns: Node)
    requires ns.work.Idle? && ns.queue != [] && ns.queue[0].Update? && ns.cached < |h|
    requires ns.queue[0].was < |h| && ns.queue[0].now < |h|
    ensures var n1 := TakeNext(h, me, ns); var was, now := h[ns.queue[0].was], h[ns.queue[0].now];
            && n1 == ns.(queue := ns.queue[1..], work := n1.work, tables := n1.tables)
            && (n1.work.Idle? || n1.work.Reverting? || n1.work.Dead?)
            && (n1.work.Reverting? ==> ns.recorded.Some?)
            && (now.nodes == was.nodes || n1.work.Dead? ==> n1.tables == ns.tables)
            && (now.nodes != was.nodes && !n1.work.Dead? ==>
                  n1.tables == Install(ns.tables, h[ns.cached].nodes, me, h[ns.cached].prefix))
            && (n1.work.Idle? && ns.recorded.Some? ==>
                  || now == was || (now.nodes == was.nodes && now.Fixed() == was.Fixed())
                  || h[ns.cached].Fixed() == was.Fixed())
            && (now.nodes == was.nodes ==> !n1.work.Dead?)
            && (n1.work.Idle? && ns.recorded.Some? && now.nodes == was.nodes ==> now.Fixed() == was.Fixed())
  {
    hide Install, ReadyPeer;
  }

  lemma {:induction false} TakeFields(h: seq<Tenant>, me: string, ns: Node)
    requires h != [] && FieldsOk(h, ns) && QueueOk(ns)
    requires ns.work.Idle? && ns.queue != [] && ns.queue[0].Update? && ns.delivered <= ns.cached < |h|
    requires ns.queue[0].was < |h| && ns.queue[0].now < |h|
    ensures FieldsOk(h, TakeNext(h, me, ns))
  {
    TakeShape(h, me, ns);
    var n1 := TakeNext(h, me, ns);
    hide TakeNext, QueueOk;
    assert EventOk(ns.queue[0], ns.delivered) by { HeadOk(ns); }
    forall j | Alive(n1) && !n1.dropped && LastAgreed(h, n1.recorded.value, j)
      ensures n1.delivered <= j || ChangeAt(j) in n1.queue || n1.work.Reverting?
    {
      assert ns.delivered <= j || ChangeAt(j) in ns.queue;
      if ns.delivered > j && ns.queue[0] == ChangeAt(j) {
        assert h[j + 1].Fixed() != h[j].Fixed() && h[ns.cached].Fixed() != h[j].Fixed();
      }
    }
  }

  lemma {:induction false} HeadOk(ns: Node)
    requires QueueOk(ns) && ns.queue != []
    ensures EventOk(ns.queue[0], ns.delivered)
  {
  }

  lemma {:induction false} TakeMesh(
      t0: Tenant, pub: map<string, Published>, len: Option<int>, h: seq<Tenant>, me: string, ns: Node)
    requires HistoryOk(t0, pub, len, h) && Distinct(pub) && LenOk(pub, len)
    requires TablesOk(pub, len, me, ns) && MeshOk(pub, len, h, me, ns)
    requires ns.work.Idle? && ns.queue != [] && ns.queue[0].Update? && ns.delivered <= ns.cached < |h|
    requires ns.queue[0].was < |h| && ns.queue[0].now < |h|
    ensures MeshOk(pub, len, h, me, TakeNext(h, me, ns)) && TablesOk(pub, len, me, TakeNext(h, me, ns))
  {
    TakeShape(h, me, ns);
    TakeInstalls(t0, pub, len, h, me, ns.tables, ns.delivered, ns.cached);
    hide TakeNext, HistoryOk, Distinct, LenOk, OnlyPeers, OneLength, ChangeWaits, PeersInstalled, OwnUnset, Install;
    if h[ns.queue[0].was].nodes == h[ns.queue[0].now].nodes && ChangeWaits(h, ns.queue) {
      ChangeStillWaits(h, ns.queue);
    }
  }

  lemma {:induction false} TakeUpdateOk(
      t0: Tenant, pub: map<string, Published>, len: Option<int>, h: seq<Tenant>, me: string, ns: Node)
    requires HistoryOk(t0, pub, len, h) && Distinct(pub) && LenOk(pub, len) && NodeOk(pub, len, h, me, ns)
    requires ns.work.Idle? && ns.queue != [] && ns.queue[0].Update? && ns.started
    ensures NodeOk(pub, len, h, me, TakeNext(h, me, ns))
  {
    hide HistoryOk, Distinct, LenOk, TablesOk, MeshOk, FieldsOk, QueueOk, TakeNext;
    TakePhase(h, me, ns);
    TakeMesh(t0, pub, len, h, me, ns);
    TakeFields(h, me, ns);
  }

  lemma {:induction false} TakePhase(h: seq<Tenant>, me: string, ns: Node)
    requires h != [] && QueueOk(ns) && PhaseOk(h, me, ns)
    requires ns.work.Idle? && ns.queue != [] && ns.queue[0].Update? && ns.started
    ensures QueueOk(TakeNext(h, me, ns)) && PhaseOk(h, me, TakeNext(h, me, ns))
    ensures ns.queue[0].was < |h| && ns.queue[0].now < |h|
  {
    assert EventOk(ns.queue[0], ns.delivered);
    TakeShape(h, me, ns);
    hide TakeNext, OwnDone, OwnAllUnset;
  }

  lemma {:induction false} LocalOk(
      t0: Tenant, pub: map<string, Published>, len: Option<int>, h: seq<Tenant>, me: string, ns: Node, step: Step)
    requires HistoryOk(t0, pub, len, h) && Distinct(pub) && LenOk(pub, len) && NodeOk(pub, len, h, me, ns)
    requires Lists(t0.nodes, me) && step.n == me
    ensures NodeOk(pub, len, h, me, LocalStep(h, ns, step))
  {
    hide NodeOk;
    match step
    case StartNode(_) => StartOk(pub, len, h, me, ns);
    case Observe(_) => ObserveOk(pub, len, h, me, ns);
    case GiveUp(_) => ObserveOk(pub, len, h, me, ns);
    case Deliver(_) => DeliverOk(pub, len, h, me, ns);
    case Resync(_) => ResyncOk(pub, len, h, me, ns);
    case Take(_) =>
      if ns.work.Idle? && ns.queue != [] {
        QueuedIsStarted(pub, len, h, me, ns);
        if ns.queue[0].Add? {
          TakeAddOk(t0, pub, len, h, me, ns);
        } else {
          TakeUpdateOk(t0, pub, len, h, me, ns);
        }
      }
    case _ =>
  }

  lemma {:induction false} QueuedIsStarted(
      pub: map<string, Published>, len: Option<int>, h: seq<Tenant>, me: string, ns: Node)
    requires h != [] && NodeOk(pub, len, h, me, ns) && ns.queue != []
    ensures ns.started
  {
  }

  // ---------------------------------------------------------------- writes

  /** The object an attempt would leave. */
  function NextVersion(h: seq<Tenant>, ns: Node, p: Published): Tenant
    requires h != []
  {
    var v := Latest(h);
    if ns.cached != |h| - 1 then v
    else
      match ns.work
      case Publishing(todo) => if todo != [] && todo[0] < |v.nodes| then PublishInto(v, todo[0], p) else v
      case Reverting => if ns.recorded.Some? then Revert(v, ns.recorded.value) else v
      case _ => v
  }

  /** The next version keeps what is published and touches only the writer's entries; a user's edit
      (None) touches no entry. */
  ghost predicate Suits(v: Tenant, t: Tenant, writer: Option<string>) {
    Keeps(v.nodes, t.nodes) && forall n :: Some(n) != writer && OwnAllUnset(v.nodes, n) ==> OwnAllUnset(t.nodes, n)
  }

  lemma {:induction false} PublishVersion(
      t0: Tenant, pub: map<string, Published>, len: Option<int>, t: Tenant, i: nat, me: string)
    requires VersionOk(t0, pub, len, t) && me in pub && i < |t.nodes| && t.nodes[i].name == me
    ensures var t1 := PublishInto(t, i, pub[me]);
            && VersionOk(t0, pub, len, t1) && Keeps(t.nodes, t1.nodes) && t1.nodes[i].Ready()
            && (forall k :: 0 <= k < |t.nodes| && k != i ==> t1.nodes[k] == t.nodes[k])
            && forall other :: other != me && OwnAllUnset(t.nodes, other) ==> OwnAllUnset(t1.nodes, other)
  {
    var t1 := PublishInto(t, i, pub[me]);
    assert t1.nodes[i] == Entry(me, pub[me]);
  }

  lemma {:induction false} TodoIsOwn(
      pub: map<string, Published>, len: Option<int>, h: seq<Tenant>, me: string, ns: Node)
    requires h != [] && NodeOk(pub, len, h, me, ns) && ns.work.Publishing? && ns.work.todo != []
    ensures ns.work.todo[0] < |Latest(h).nodes| && Latest(h).nodes[ns.work.todo[0]].name == me
  {
  }

  lemma {:induction false} PublishOk(
      t0: Tenant, pub: map<string, Published>, len: Option<int>, h: seq<Tenant>, me: string, ns: Node)
    requires HistoryOk(t0, pub, len, h) && NodeOk(pub, len, h, me, ns) && me in pub && ns.work.Publishing? && ns.recorded.Some?
    ensures var (h1, n1) := TryWrite(h, ns, pub[me]);
            && HistoryOk(t0, pub, len, h1) && NodeOk(pub, len, h1, me, n1)
            && h1 == Write(h, NextVersion(h, ns, pub[me]))
            && Suits(Latest(h), NextVersion(h, ns, pub[me]), Some(me))
  {
    var todo := ns.work.todo;
    var v := Latest(h);
    assert VersionOk(t0, pub, len, v);
    assert Keeps(v.nodes, v.nodes);
    if todo == [] {
      FinishOk(t0, pub, len, h, me, ns);
    } else if ns.cached == |h| - 1 {
      var i := todo[0];
      TodoIsOwn(pub, len, h, me, ns);
      PublishVersion(t0, pub, len, v, i, me);
      var t := PublishInto(v, i, pub[me]);
      HistoryExtend(t0, pub, len, h, t);
      NodeExtend(pub, len, h, t, me, ns);
      var h1 := Write(h, t);
      assert Latest(h1) == t;
      PublishedOne(pub, len, h1, me, ns, ns.(work := Publishing(todo[1..])));
    }
  }

  lemma {:induction false} FinishOk(
      t0: Tenant, pub: map<string, Published>, len: Option<int>, h: seq<Tenant>, me: string, ns: Node)
    requires HistoryOk(t0, pub, len, h) && NodeOk(pub, len, h, me, ns) && me in pub && ns.work == Publishing([]) && ns.recorded.Some?
    ensures NodeOk(pub, len, h, me, TryWrite(h, ns, pub[me]).1) && TryWrite(h, ns, pub[me]).0 == h
  {
    hide HistoryOk, OnlyPeers, OneLength, ChangeWaits, PeersInstalled, OwnUnset;
  }

  lemma {:induction false} PublishedOne(
      pub: map<string, Published>, len: Option<int>, h: seq<Tenant>, me: string, ns: Node, n1: Node)
    requires h != [] && NodeOk(pub, len, h, me, ns) && ns.work.Publishing? && ns.work.todo != [] && ns.recorded.Some?
    requires n1 == ns.(work := Publishing(ns.work.todo[1..]))
    requires ns.work.todo[0] < |Latest(h).nodes| && Latest(h).nodes[ns.work.todo[0]].Ready()
    ensures NodeOk(pub, len, h, me, n1)
  {
    hide OnlyPeers, OneLength, ChangeWaits, PeersInstalled, OwnUnset;
    var todo := ns.work.todo;
    assert todo == [todo[0]] + todo[1..];
    assert forall x :: x in todo <==> x == todo[0] || x in todo[1..];
    assert OwnDone(Latest(h).nodes, me, todo[1..]);
    assert PhaseOk(h, me, n1);
  }

  lemma {:induction false} RevertVersion(
      t0: Tenant, pub: map<string, Published>, len: Option<int>, t: Tenant, r: (int, int))
    requires VersionOk(t0, pub, len, t) && (len.Some? ==> r.1 == len.value)
    ensures VersionOk(t0, pub, len, Revert(t, r)) && Keeps(t.nodes, Revert(t, r).nodes)
  {
  }

  lemma {:induction false} RevertOk(
      t0: Tenant, pub: map<string, Published>, len: Option<int>, h: seq<Tenant>, me: string, ns: Node)
    requires HistoryOk(t0, pub, len, h) && NodeOk(pub, len, h, me, ns) && me in pub && ns.work.Reverting?
    ensures var (h1, n1) := TryWrite(h, ns, pub[me]);
            && HistoryOk(t0, pub, len, h1) && NodeOk(pub, len, h1, me, n1)
            && h1 == Write(h, NextVersion(h, ns, pub[me]))
            && Suits(Latest(h), NextVersion(h, ns, pub[me]), Some(me))
  {
    var v := Latest(h);
    assert VersionOk(t0, pub, len, v);
    if ns.cached == |h| - 1 && ns.recorded.Some? {
      var t := Revert(v, ns.recorded.value);
      RevertVersion(t0, pub, len, v, ns.recorded.value);
      HistoryExtend(t0, pub, len, h, t);
      NodeExtend(pub, len, h, t, me, ns);
      RevertedOne(pub, len, Write(h, t), me, ns, ns.(work := Idle));
    }
  }

  lemma {:induction false} RevertedOne(
      pub: map<string, Published>, len: Option<int>, h: seq<Tenant>, me: string, ns: Node, n1: Node)
    requires h != [] && NodeOk(pub, len, h, me, ns) && ns.work.Reverting? && ns.recorded.Some?
    requires n1 == ns.(work := Idle) && Latest(h).Fixed() == ns.recorded.value
    ensures NodeOk(pub, len, h, me, n1)
  {
    hide OnlyPeers, OneLength, ChangeWaits, PeersInstalled, OwnUnset, OwnDone, OwnAllUnset;
    assert forall j :: !LastAgreed(h, ns.recorded.value, j);
  }

  // ---------------------------------------------------------------- the whole system

  ghost predicate SysOk(t0: Tenant, pub: map<string, Published>, len: Option<int>, s: Sys) {
    && HistoryOk(t0, pub, len, s.history)
    && s.nodes.Keys == pub.Keys
    && forall n :: n in s.nodes ==> NodeOk(pub, len, s.history, n, s.nodes[n])
  }

  ghost predicate EditKeepsLen(step: Step, len: Option<int>) {
    step.UserEdit? && len.Some? ==> step.prefix == len.value
  }

  lemma {:induction false} UnrecordedIsUnset(
      pub: map<string, Published>, len: Option<int>, h: seq<Tenant>, me: string, ns: Node)
    requires h != [] && NodeOk(pub, len, h, me, ns) && ns.recorded.None?
    ensures OwnAllUnset(Latest(h).nodes, me)
  {
  }

  /** A new version suits every node that does not write it. */
  lemma {:induction false} OthersExtend(
      t0: Tenant, pub: map<string, Published>, len: Option<int>, s: Sys, t: Tenant, writer: Option<string>)
    requires SysOk(t0, pub, len, s) && s.history != [] && Suits(Latest(s.history), t, writer)
    ensures forall n :: n in s.nodes && Some(n) != writer ==> NodeOk(pub, len, Write(s.history, t), n, s.nodes[n])
  {
    hide NodeOk, OwnAllUnset, Keeps, HistoryOk, Write;
    forall n | n in s.nodes && Some(n) != writer ensures NodeOk(pub, len, Write(s.history, t), n, s.nodes[n]) {
      if s.nodes[n].recorded.None? {
        UnrecordedIsUnset(pub, len, s.history, n, s.nodes[n]);
      }
      NodeExtend(pub, len, s.history, t, n, s.nodes[n]);
    }
  }

  lemma {:induction false} Nonempty(t0: Tenant, pub: map<string, Published>, len: Option<int>, s: Sys)
    requires SysOk(t0, pub, len, s)
    ensures s.history != []
  {
  }

  lemma {:induction false} AttemptStep(t0: Tenant, pub: map<string, Published>, len: Option<int>, s: Sys, n: string)
    requires SysOk(t0, pub, len, s) && n in s.nodes
    ensures SysOk(t0, pub, len, Do(pub, s, Attempt(n)))
  {
    hide NodeOk, HistoryOk, TryWrite, NextVersion, Suits, Write;
    Nonempty(t0, pub, len, s);
    var ns := s.nodes[n];
    TryWriteOk(t0, pub, len, s.history, n, ns);
    OthersExtend(t0, pub, len, s, NextVersion(s.history, ns, pub[n]), Some(n));
  }

  lemma {:induction false} TryWriteOk(
      t0: Tenant, pub: map<string, Published>, len: Option<int>, h: seq<Tenant>, me: string, ns: Node)
    requires HistoryOk(t0, pub, len, h) && NodeOk(pub, len, h, me, ns) && me in pub
    ensures var (h1, n1) := TryWrite(h, ns, pub[me]);
            && HistoryOk(t0, pub, len, h1) && NodeOk(pub, len, h1, me, n1)
            && h1 == Write(h, NextVersion(h, ns, pub[me]))
            && Suits(Latest(h), NextVersion(h, ns, pub[me]), Some(me))
  {
    WorkingIsRecorded(pub, len, h, me, ns);
    if ns.work.Publishing? {
      PublishOk(t0, pub, len, h, me, ns);
    } else if ns.work.Reverting? {
      RevertOk(t0, pub, len, h, me, ns);
    } else {
      assert Keeps(Latest(h).nodes, Latest(h).nodes);
      hide NodeOk, HistoryOk;
    }
  }

  lemma {:induction false} WorkingIsRecorded(
      pub: map<string, Published>, len: Option<int>, h: seq<Tenant>, me: string, ns: Node)
    requires h != [] && NodeOk(pub, len, h, me, ns)
    ensures ns.work.Publishing? || ns.work.Reverting? ==> ns.recorded.Some?
  {
  }

  lemma {:induction false} EditStep(t0: Tenant, pub: map<string, Published>, len: Option<int>, s: Sys, step: Step)
    requires SysOk(t0, pub, len, s) && step.UserEdit? && EditKeepsLen(step, len)
    ensures SysOk(t0, pub, len, Do(pub, s, step))
  {
    Nonempty(t0, pub, len, s);
    var v := Latest(s.history);
    assert VersionOk(t0, pub, len, v);
    hide NodeOk, HistoryOk, Keeps, OwnAllUnset, Write, VersionOk;
    var t := Revert(v, (step.vni, step.prefix));
    RevertVersion(t0, pub, len, v, (step.vni, step.prefix));
    HistoryExtend(t0, pub, len, s.history, t);
    OthersExtend(t0, pub, len, s, t, None);
  }

  lemma {:induction false} SysStep(t0: Tenant, pub: map<string, Published>, len: Option<int>, s: Sys, step: Step)
    requires NewObject(t0, pub) && LenOk(pub, len) && SysOk(t0, pub, len, s) && EditKeepsLen(step, len)
    ensures SysOk(t0, pub, len, Do(pub, s, step))
  {
    hide NodeOk, HistoryOk, LocalStep, Lists, Distinct, LenOk, TryWrite;
    if step.UserEdit? {
      EditStep(t0, pub, len, s, step);
    } else if step.n in s.nodes {
      Nonempty(t0, pub, len, s);
      if step.Attempt? {
        AttemptStep(t0, pub, len, s, step.n);
      } else {
        LocalOk(t0, pub, len, s.history, step.n, s.nodes[step.n], step);
      }
    }
  }

  lemma {:induction false} SysStart(t0: Tenant, pub: map<string, Published>, len: Option<int>)
    requires NewObject(t0, pub) && PrefixIs(t0, len)
    ensures SysOk(t0, pub, len, Start(t0, pub))
  {
  }

  /** The assumptions of a run: a new object and, if len is given, no edit of the prefix. */
  ghost predicate RunOf(t0: Tenant, pub: map<string, Published>, len: Option<int>, steps: seq<Step>) {
    && NewObject(t0, pub) && LenOk(pub, len) && PrefixIs(t0, len)
    && forall i :: 0 <= i < |steps| ==> EditKeepsLen(steps[i], len)
  }

  lemma {:induction false} SysRun(t0: Tenant, pub: map<string, Published>, len: Option<int>, steps: seq<Step>)
    requires RunOf(t0, pub, len, steps)
    ensures SysOk(t0, pub, len, Run(pub, Start(t0, pub), steps))
  {
    if steps == [] {
      SysStart(t0, pub, len);
    } else {
      var n := |steps| - 1;
      SysRun(t0, pub, len, steps[..n]);
      hide SysOk, NewObject, LenOk, EditKeepsLen;
      assert EditKeepsLen(steps[n], len);
      SysStep(t0, pub, len, Run(pub, Start(t0, pub), steps[..n]), steps[n]);
    }
  }

  // ---------------------------------------------------------------- the main results

  /** No publication is lost: in every version every entry is unset or exactly what its own node
      published, a published entry stays so in all later versions, and a node whose Add has succeeded
      is published in the latest one. */
  lemma {:induction false} NoLostPublication(
      t0: Tenant, pub: map<string, Published>, steps: seq<Step>, v: nat, w: nat, i: nat)
    requires RunOf(t0, pub, None, steps)
    requires var h := Run(pub, Start(t0, pub), steps).history; v <= w < |h| && i < |t0.nodes|
    ensures var s := Run(pub, Start(t0, pub), steps); var h := s.history; var name := t0.nodes[i].name;
            && |h[v].nodes| == |h[w].nodes| == |Latest(h).nodes| == |t0.nodes| && name in s.nodes
            && h[v].nodes[i].name == name
            && (h[v].nodes[i].Unset() || h[v].nodes[i] == Entry(name, pub[name]))
            && (h[v].nodes[i].Ready() ==> h[w].nodes[i] == h[v].nodes[i])
            && (s.nodes[name].added ==> Latest(h).nodes[i] == Entry(name, pub[name]))
  {
    SysRun(t0, pub, None, steps);
    var s := Run(pub, Start(t0, pub), steps);
    hide Run;
    var h, name := s.history, t0.nodes[i].name;
    assert VersionOk(t0, pub, None, h[v]) && VersionOk(t0, pub, None, h[w]) && VersionOk(t0, pub, None, Latest(h));
    assert Keeps(h[v].nodes, h[w].nodes);
    assert name in pub && NodeOk(pub, None, h, name, s.nodes[name]);
    if s.nodes[name].added {
      AddedIsDone(pub, None, h, name, s.nodes[name]);
    }
  }

  lemma {:induction false} AddedIsDone(
      pub: map<string, Published>, len: Option<int>, h: seq<Tenant>, me: string, ns: Node)
    requires h != [] && NodeOk(pub, len, h, me, ns) && ns.added
    ensures ns.recorded.Some? && ns.started && OwnDone(Latest(h).nodes, me, [])
  {
  }

  /** Nothing is on its way to the node, in its queue, or being worked on. */
  ghost predicate Quiet(s: Sys, n: string)
    requires n in s.nodes
  {
    s.history != [] && s.nodes[n].queue == [] && s.nodes[n].delivered == |s.history| - 1 && s.nodes[n].work.Idle?
  }

  /** One pair of the mesh: when this node is quiet and its own entries are published, it can reach any
      other node whose entry is published, by exactly the addresses which that node published, and its
      tables hold nothing else; whatever has become of the other nodes. With no edit of the prefix this
      includes the routes. */
  lemma {:induction false} PairMesh(
      t0: Tenant, pub: map<string, Published>, len: Option<int>, steps: seq<Step>, n: string, m: string)
    requires RunOf(t0, pub, len, steps) && n in pub && m in pub && n != m
    requires var s := Run(pub, Start(t0, pub), steps);
             && n in s.nodes && Quiet(s, n)
             && OwnDone(Latest(s.history).nodes, n, []) && Shows(Latest(s.history).nodes, m)
    ensures var s := Run(pub, Start(t0, pub), steps);
            && n in s.nodes && Reaches(s.nodes[n].tables, pub[m], len) && OnlyPeers(s.nodes[n].tables, pub, n)
            && (len.Some? ==> OneLength(s.nodes[n].tables, len.value))
  {
    SysRun(t0, pub, len, steps);
    var s := Run(pub, Start(t0, pub), steps);
    hide Run, SysOk, Reaches, OnlyPeers, OneLength, LenOk, Distinct, OwnDone, Shows;
    QuietReaches(t0, pub, len, s, n, m);
  }

  lemma {:induction false} QuietReaches(
      t0: Tenant, pub: map<string, Published>, len: Option<int>, s: Sys, n: string, m: string)
    requires SysOk(t0, pub, len, s) && Lists(t0.nodes, n) && n in s.nodes && m in pub && n != m
    requires Quiet(s, n) && OwnDone(Latest(s.history).nodes, n, []) && Shows(Latest(s.history).nodes, m)
    ensures var t := s.nodes[n].tables;
            Reaches(t, pub[m], len) && OnlyPeers(t, pub, n) && (len.Some? ==> OneLength(t, len.value))
  {
    var h := s.history;
    assert NodeOk(pub, len, h, n, s.nodes[n]) && VersionOk(t0, pub, len, Latest(h));
    hide SysOk, HistoryOk, Reaches, OnlyPeers, OneLength, NodeOk, Faithful, Shows;
    DoneIsRecorded(t0, pub, len, h, n, s.nodes[n]);
    QuietMesh(pub, len, h, n, s.nodes[n]);
  }

  lemma {:induction false} DoneIsRecorded(
      t0: Tenant, pub: map<string, Published>, len: Option<int>, h: seq<Tenant>, me: string, ns: Node)
    requires h != [] && VersionOk(t0, pub, len, Latest(h)) && NodeOk(pub, len, h, me, ns) && Lists(t0.nodes, me)
    requires OwnDone(Latest(h).nodes, me, [])
    ensures ns.recorded.Some?
  {
    var i :| 0 <= i < |t0.nodes| && t0.nodes[i].name == me;
    assert Latest(h).nodes[i].name == me;
  }

  lemma {:induction false} AddedShows(
      t0: Tenant, pub: map<string, Published>, len: Option<int>, s: Sys, m: string)
    requires SysOk(t0, pub, len, s) && s.history != [] && Lists(t0.nodes, m) && m in s.nodes && s.nodes[m].added
    ensures OwnDone(Latest(s.history).nodes, m, []) && Shows(Latest(s.history).nodes, m)
  {
    var h := s.history;
    assert NodeOk(pub, len, h, m, s.nodes[m]) && VersionOk(t0, pub, len, Latest(h));
    hide SysOk, HistoryOk, NodeOk, Faithful;
    AddedIsDone(pub, len, h, m, s.nodes[m]);
    var i :| 0 <= i < |t0.nodes| && t0.nodes[i].name == m;
    assert Latest(h).nodes[i].name == m;
  }

  /** Full mesh: when every Add has succeeded, a quiet node reaches every other one. */
  lemma {:induction false} FullMesh(
      t0: Tenant, pub: map<string, Published>, len: Option<int>, steps: seq<Step>, n: string, m: string)
    requires RunOf(t0, pub, len, steps) && n in pub && m in pub && n != m
    requires var s := Run(pub, Start(t0, pub), steps);
             && s.nodes.Keys == pub.Keys && Quiet(s, n)
             && forall k :: k in s.nodes ==> s.nodes[k].added
    ensures var t := Run(pub, Start(t0, pub), steps).nodes[n].tables;
            && Reaches(t, pub[m], len) && OnlyPeers(t, pub, n)
            && (len.Some? ==> OneLength(t, len.value))
  {
    SysRun(t0, pub, len, steps);
    var s := Run(pub, Start(t0, pub), steps);
    hide Run, SysOk, Reaches, OnlyPeers, OneLength, LenOk, Distinct, OwnDone, Shows, Lists;
    AddedShows(t0, pub, len, s, n);
    AddedShows(t0, pub, len, s, m);
    PairMesh(t0, pub, len, steps, n, m);
  }

  lemma {:induction false} QuietMesh(
      pub: map<string, Published>, len: Option<int>, h: seq<Tenant>, me: string, ns: Node)
    requires h != [] && NodeOk(pub, len, h, me, ns) && ns.queue == [] && ns.delivered == |h| - 1 && ns.work.Idle?
    requires ns.recorded.Some? && OwnDone(Latest(h).nodes, me, [])
    ensures PeersInstalled(pub, len, Latest(h).nodes, me, ns.tables) && TablesOk(pub, len, me, ns)
  {
    hide PeersInstalled, TablesOk;
  }

  /** Remote delivery for one pair, on runs in which nobody writes another Prefix than 24: every address of
      the peer's block leaves by one best route, to the peer's VTEP, and from there to the peer's node. */
  lemma {:induction false} PairDelivers(
      t0: Tenant, pub: map<string, Published>, steps: seq<Step>, n: string, m: string, x: int)
    requires RunOf(t0, pub, Some(24), steps) && n in pub && m in pub && n != m && Aligned(pub)
    requires pub[m].vtepIp <= x < pub[m].vtepIp + 256
    requires var s := Run(pub, Start(t0, pub), steps);
             && n in s.nodes && Quiet(s, n)
             && OwnDone(Latest(s.history).nodes, n, []) && Shows(Latest(s.history).nodes, m)
    ensures n in Run(pub, Start(t0, pub), steps).nodes
    ensures Delivers(Run(pub, Start(t0, pub), steps).nodes[n].tables, pub[m], x)
  {
    PairMesh(t0, pub, Some(24), steps, n, m);
    var t := Run(pub, Start(t0, pub), steps).nodes[n].tables;
    hide Run;
    RemoteDelivery(t, pub, n, m, x);
  }

  /** The only best route for x leads to the peer's VTEP, whose neighbour and forwarding entries lead to
      the peer's node. */
  ghost predicate Delivers(t: Tables, p: Published, x: int) {
    var via := (p.vtepIp, 24);
    && (forall k :: BestRoute(t, x, k) <==> k == via)
    && via in t.routes && t.routes[via] == Some(p.vtepIp)
    && p.vtepIp in t.arp && t.arp[p.vtepIp] == p.vtepMac
    && p.vtepMac in t.fdb && t.fdb[p.vtepMac] == p.nodeIP
  }

  /** In the converged state of such a run this holds between all nodes. */
  lemma {:induction false} MeshDelivers(
      t0: Tenant, pub: map<string, Published>, steps: seq<Step>, n: string, m: string, x: int)
    requires RunOf(t0, pub, Some(24), steps) && n in pub && m in pub && n != m && Aligned(pub)
    requires pub[m].vtepIp <= x < pub[m].vtepIp + 256
    requires var s := Run(pub, Start(t0, pub), steps);
             && s.nodes.Keys == pub.Keys && Quiet(s, n)
             && forall k :: k in s.nodes ==> s.nodes[k].added
    ensures n in Run(pub, Start(t0, pub), steps).nodes
    ensures Delivers(Run(pub, Start(t0, pub), steps).nodes[n].tables, pub[m], x)
  {
    SysRun(t0, pub, Some(24), steps);
    var s := Run(pub, Start(t0, pub), steps);
    hide Run, SysOk, LenOk, Distinct, OwnDone, Shows, Lists, Delivers;
    AddedShows(t0, pub, Some(24), s, n);
    AddedShows(t0, pub, Some(24), s, m);
    PairDelivers(t0, pub, steps, n, m, x);
  }

  /** Whatever users edit: when a node that has recorded the fields is quiet, and has not given up a
      revert since the last one it wrote, the object holds the VNI and Prefix it recorded. So nodes
      that recorded different values are never quiet together. */
  lemma {:induction false} FieldsRestored(t0: Tenant, pub: map<string, Published>, steps: seq<Step>, n: string)
    requires RunOf(t0, pub, None, steps) && n in pub
    requires var s := Run(pub, Start(t0, pub), steps);
             n in s.nodes && Quiet(s, n) && s.nodes[n].recorded.Some? && !s.nodes[n].dropped
    ensures var s := Run(pub, Start(t0, pub), steps);
            s.history != [] && Latest(s.history).Fixed() == s.nodes[n].recorded.value
  {
    SysRun(t0, pub, None, steps);
    var s := Run(pub, Start(t0, pub), steps);
    hide Run;
    assert NodeOk(pub, None, s.history, n, s.nodes[n]);
    QuietFields(s.history, s.nodes[n]);
  }

  lemma {:induction false} QuietFields(h: seq<Tenant>, ns: Node)
    requires h != [] && FieldsOk(h, ns) && Alive(ns) && !ns.dropped && ns.queue == [] && ns.delivered == |h| - 1 && ns.work.Idle?
    ensures Latest(h).Fixed() == ns.recorded.value
  {
    var i :| 0 <= i < |h| && h[i].Fixed() == ns.recorded.value;
    var j := LastWith(h, ns.recorded.value, i);
    assert j + 1 < |h| ==> LastAgreed(h, ns.recorded.value, j);
  }

  lemma {:induction false} LastWith(h: seq<Tenant>, r: (int, int), i: nat) returns (j: nat)
    requires i < |h| && h[i].Fixed() == r
    ensures i <= j < |h| && h[j].Fixed() == r && forall k :: j < k < |h| ==> h[k].Fixed() != r
    decreases |h| - i
  {
    if k :| i < k < |h| && h[k].Fixed() == r {
      j := LastWith(h, r, k);
    } else {
      j := i;
    }
  }

  lemma {:induction false} RunOn(pub: map<string, Published>, s: Sys, steps: seq<Step>, step: Step)
    ensures Run(pub, s, steps + [step]) == Do(pub, Run(pub, s, steps), step)
  {
    assert (steps + [step])[..|steps|] == steps;
  }

  /** One node's part of a step that is neither an edit nor an attempt. */
  lemma {:induction false} LocalDo(pub: map<string, Published>, s: Sys, n: string, step: Step)
    requires s.history != [] && n in s.nodes && n in pub && !step.UserEdit? && !step.Attempt? && step.n == n
    ensures var s1 := Do(pub, s, step);
            s1.history == s.history && n in s1.nodes && s1.nodes[n] == LocalStep(s.history, s.nodes[n], step)
  {
    hide LocalStep;
  }

  /** Giving up a revert is the exception: then the edited fields stay, whatever they are, although
      nothing is left to do for the node. */
  lemma {:induction false} DroppedRevertStays(t0: Tenant, pub: map<string, Published>, n: string, vni: int, prefix: int)
    requires n in pub && Lists(t0.nodes, n) && (vni, prefix) != t0.Fixed()
    ensures var edit := [UserEdit(n, vni, prefix)];
            var steps := [StartNode(n)] + [Take(n)] + [GiveUp(n)] + edit + [Observe(n)] + [Deliver(n)] + [Take(n)] + [GiveUp(n)];
            var s := Run(pub, Start(t0, pub), steps);
            && n in s.nodes && Quiet(s, n) && s.nodes[n].recorded == Some(t0.Fixed()) && s.nodes[n].dropped
            && Latest(s.history).Fixed() == (vni, prefix)
  {
    var edit := UserEdit(n, vni, prefix);
    var s0 := Start(t0, pub);
    assert Run(pub, s0, []) == s0 && [] + [StartNode(n)] == [StartNode(n)];
    var a1 := [StartNode(n)];
    var a2 := a1 + [Take(n)];
    var a3 := a2 + [GiveUp(n)];
    var a4 := a3 + [edit];
    var a5 := a4 + [Observe(n)];
    var a6 := a5 + [Deliver(n)];
    var a7 := a6 + [Take(n)];
    RunOn(pub, s0, [], StartNode(n));
    RunOn(pub, s0, a1, Take(n));
    RunOn(pub, s0, a2, GiveUp(n));
    RunOn(pub, s0, a3, edit);
    RunOn(pub, s0, a4, Observe(n));
    RunOn(pub, s0, a5, Deliver(n));
    RunOn(pub, s0, a6, Take(n));
    RunOn(pub, s0, a7, GiveUp(n));
    LocalDo(pub, s0, n, StartNode(n));
    LocalDo(pub, Run(pub, s0, a1), n, Take(n));
    LocalDo(pub, Run(pub, s0, a2), n, GiveUp(n));
    EditDo(pub, Run(pub, s0, a3), n, vni, prefix);
    LocalDo(pub, Run(pub, s0, a4), n, Observe(n));
    LocalDo(pub, Run(pub, s0, a5), n, Deliver(n));
    LocalDo(pub, Run(pub, s0, a6), n, Take(n));
    LocalDo(pub, Run(pub, s0, a7), n, GiveUp(n));
    hide Run, Do;
    JoinsAndStops([t0], n, FRESH);
    DropsRevert(t0, t0.(vni := vni, prefix := prefix), n, Run(pub, s0, a3).nodes[n]);
    hide LocalStep, Lists;
  }

  lemma {:induction false} EditDo(pub: map<string, Published>, s: Sys, n: string, vni: int, prefix: int)
    requires s.history != [] && Latest(s.history).Fixed() != (vni, prefix)
    ensures var s1 := Do(pub, s, UserEdit(n, vni, prefix));
            s1.history == s.history + [Latest(s.history).(vni := vni, prefix := prefix)] && s1.nodes == s.nodes
  {
  }

  lemma {:induction false} JoinsAndStops(h: seq<Tenant>, n: string, ns: Node)
    requires |h| == 1 && ns == FRESH && Lists(h[0].nodes, n)
    ensures var n3 := LocalStep(h, LocalStep(h, LocalStep(h, ns, StartNode(n)), Take(n)), GiveUp(n));
            n3 == FRESH.(started := true, recorded := Some(h[0].Fixed()))
  {
    hide Lists, Indices;
    assert LocalStep(h, ns, StartNode(n)) == FRESH.(started := true, queue := [Add]);
  }

  lemma {:induction false} DropsRevert(t0: Tenant, t1: Tenant, n: string, ns: Node)
    requires ns == FRESH.(started := true, recorded := Some(t0.Fixed())) && t1.nodes == t0.nodes && t1.Fixed() != t0.Fixed()
    ensures var h := [t0] + [t1];
            var n4 := LocalStep(h, LocalStep(h, LocalStep(h, LocalStep(h, ns, Observe(n)), Deliver(n)), Take(n)), GiveUp(n));
            n4 == ns.(cached := 1, delivered := 1, dropped := true)
  {
    hide Lists, Indices, Install, ReadyPeer;
    var h := [t0] + [t1];
    var n2 := LocalStep(h, LocalStep(h, ns, Observe(n)), Deliver(n));
    assert n2 == ns.(cached := 1, delivered := 1, queue := [Update(0, 1)]);
    assert LocalStep(h, n2, Take(n)) == ns.(cached := 1, delivered := 1, work := Reverting);
  }

  // ---------------------------------------------------------------- how many versions

  function ReadyCount(nodes: seq<NodeEntry>): nat {
    if nodes == [] then 0 else ReadyCount(nodes[..|nodes| - 1]) + if nodes[|nodes| - 1].Ready() then 1 else 0
  }

  lemma {:induction false} ReadyCountBound(nodes: seq<NodeEntry>)
    ensures ReadyCount(nodes) <= |nodes|
    ensures (forall i :: 0 <= i < |nodes| ==> nodes[i].Unset()) ==> ReadyCount(nodes) == 0
  {
    if nodes != [] {
      ReadyCountBound(nodes[..|nodes| - 1]);
    }
  }

  lemma {:induction false} ReadyCountUpdate(nodes: seq<NodeEntry>, i: nat, e: NodeEntry)
    requires i < |nodes| && !nodes[i].Ready() && e.Ready()
    ensures ReadyCount(nodes[i := e]) == ReadyCount(nodes) + 1
  {
    var n := |nodes| - 1;
    if i < n {
      ReadyCountUpdate(nodes[..n], i, e);
      assert nodes[i := e][..n] == nodes[..n][i := e];
    } else {
      assert nodes[i := e][..n] == nodes[..n];
    }
  }

  ghost predicate AllRecorded(s: Sys, r: (int, int)) {
    forall n :: n in s.nodes && s.nodes[n].recorded.Some? ==> s.nodes[n].recorded.value == r
  }

  function Off(t: Tenant, r: (int, int)): nat {
    if t.Fixed() != r then 1 else 0
  }

  /** Every version is accounted for: the first one, the edits, the reverts and the publications. Each
      entry is published at most once, and each revert undoes an edit. */
  ghost predicate Counted(t0: Tenant, s: Sys, r: (int, int)) {
    && s.history != []
    && |s.history| == 1 + s.edits + s.reverts + s.pubs
    && s.pubs == ReadyCount(Latest(s.history).nodes)
    && s.reverts + Off(Latest(s.history), r) <= s.edits + Off(t0, r)
  }

  lemma {:induction false} RecordedStays(
      pub: map<string, Published>, len: Option<int>, h: seq<Tenant>, me: string, ns: Node, step: Step, p: Published)
    requires h != [] && NodeOk(pub, len, h, me, ns) && ns.recorded.Some?
    ensures LocalStep(h, ns, step).recorded == ns.recorded && TryWrite(h, ns, p).1.recorded == ns.recorded
  {
    hide TablesOk, MeshOk, FieldsOk, OwnDone, OwnAllUnset, Install;
  }

  lemma {:induction false} RecordedBefore(
      t0: Tenant, pub: map<string, Published>, len: Option<int>, s: Sys, step: Step, r: (int, int))
    requires SysOk(t0, pub, len, s) && AllRecorded(Do(pub, s, step), r)
    ensures AllRecorded(s, r)
  {
    hide NodeOk, HistoryOk, LocalStep, TryWrite;
    Nonempty(t0, pub, len, s);
    forall n | n in s.nodes && s.nodes[n].recorded.Some? ensures s.nodes[n].recorded.value == r {
      RecordedStays(pub, len, s.history, n, s.nodes[n], step, pub[n]);
      assert n in Do(pub, s, step).nodes;
    }
  }

  lemma {:induction false} CountStep(t0: Tenant, pub: map<string, Published>, s: Sys, step: Step, r: (int, int))
    requires SysOk(t0, pub, None, s) && AllRecorded(s, r) && Counted(t0, s, r)
    ensures Counted(t0, Do(pub, s, step), r)
  {
    if step.Attempt? && step.n in s.nodes {
      CountAttempt(t0, pub, s, step.n, r);
    }
    hide SysOk, LocalStep, TryWrite, AllRecorded;
  }

  lemma {:induction false} CountAttempt(t0: Tenant, pub: map<string, Published>, s: Sys, n: string, r: (int, int))
    requires SysOk(t0, pub, None, s) && AllRecorded(s, r) && Counted(t0, s, r) && n in s.nodes
    ensures Counted(t0, Do(pub, s, Attempt(n)), r)
  {
    hide NodeOk, HistoryOk, TryWrite, ReadyCount, NextVersion, Suits;
    TryWriteOk(t0, pub, None, s.history, n, s.nodes[n]);
    AttemptCounts(t0, pub, s.history, n, s.nodes[n]);
  }

  /** A publication that makes a version publishes one more entry; a revert that makes one changes
      recorded fields back and nothing else. */
  lemma {:induction false} AttemptCounts(t0: Tenant, pub: map<string, Published>, h: seq<Tenant>, me: string, ns: Node)
    requires HistoryOk(t0, pub, None, h) && NodeOk(pub, None, h, me, ns) && me in pub
    ensures var v, t := Latest(h), NextVersion(h, ns, pub[me]);
            && (t != v ==> ns.work.Publishing? || ns.work.Reverting?)
            && (ns.work.Publishing? ==>
                  t.Fixed() == v.Fixed() && ReadyCount(t.nodes) == ReadyCount(v.nodes) + if t != v then 1 else 0)
            && (t != v && ns.work.Reverting? ==>
                  && t.nodes == v.nodes && ns.recorded.Some? && t.Fixed() == ns.recorded.value && v.Fixed() != t.Fixed())
  {
    var v, t := Latest(h), NextVersion(h, ns, pub[me]);
    assert VersionOk(t0, pub, None, v);
    if t != v && ns.work.Publishing? {
      TodoIsOwn(pub, None, h, me, ns);
      hide HistoryOk, NodeOk, ReadyCount;
      var i := ns.work.todo[0];
      assert v.nodes[i].Unset() && t.nodes == v.nodes[i := Entry(me, pub[me])];
      ReadyCountUpdate(v.nodes, i, Entry(me, pub[me]));
    }
  }

  lemma {:induction false} CountRun(t0: Tenant, pub: map<string, Published>, steps: seq<Step>, r: (int, int))
    requires RunOf(t0, pub, None, steps) && AllRecorded(Run(pub, Start(t0, pub), steps), r)
    ensures Counted(t0, Run(pub, Start(t0, pub), steps), r)
  {
    if steps == [] {
      ReadyCountBound(t0.nodes);
    } else {
      var n := |steps| - 1;
      var s := Run(pub, Start(t0, pub), steps[..n]);
      SysRun(t0, pub, None, steps[..n]);
      hide SysOk, AllRecorded, Counted, NewObject, LenOk;
      RecordedBefore(t0, pub, None, s, steps[n], r);
      CountRun(t0, pub, steps[..n], r);
      CountStep(t0, pub, s, steps[n], r);
    }
  }

  /** When the nodes have recorded the same values, the writes of the controllers are bounded by the
      edits of the users: reverts add at most one version per edit (and one for an object edited before
      it was recorded), publications at most one per entry. */
  lemma {:induction false} WritesBounded(t0: Tenant, pub: map<string, Published>, steps: seq<Step>, r: (int, int))
    requires RunOf(t0, pub, None, steps) && AllRecorded(Run(pub, Start(t0, pub), steps), r)
    ensures var s := Run(pub, Start(t0, pub), steps);
            && s.reverts <= s.edits + 1 && s.pubs <= |t0.nodes|
            && |s.history| <= 2 + 2 * s.edits + |t0.nodes|
  {
    CountRun(t0, pub, steps, r);
    SysRun(t0, pub, None, steps);
    var s := Run(pub, Start(t0, pub), steps);
    hide Run;
    assert VersionOk(t0, pub, None, Latest(s.history));
    ReadyCountBound(Latest(s.history).nodes);
  }
}
