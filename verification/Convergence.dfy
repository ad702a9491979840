/** The full mesh comes about, and what a missing device does to it. */
module Convergence {
  import opened Options
  import opened Api
  import opened Forwarding
  import opened Protocol
  import opened ProtocolProofs
  import opened PrefixEdits

  // ---------------------------------------------------------------- all nodes add the tenant

  /** Nobody has touched VNI and Prefix. */
  ghost predicate FixedAt(h: seq<Tenant>, f: (int, int)) {
    forall v :: 0 <= v < |h| ==> h[v].Fixed() == f
  }

  /** The node's Add has succeeded, and nothing is in its queue. */
  ghost predicate Up(t0: Tenant, h: seq<Tenant>, ns: Node) {
    && ns.started && ns.work.Idle? && ns.queue == [] && ns.added && !ns.dropped && ns.delivered <= ns.cached < |h|
    && ns.recorded == Some(t0.Fixed()) && ns.device == (|t0.nodes| > 1)
  }

  lemma {:induction false} UpInLonger(t0: Tenant, h: seq<Tenant>, h1: seq<Tenant>, ns: Node)
    requires Up(t0, h, ns) && |h| <= |h1|
    ensures Up(t0, h1, ns)
  {
  }

  lemma {:induction false} GrownFixed(h: seq<Tenant>, h1: seq<Tenant>, f: (int, int))
    requires Grown(h, h1) && FixedAt(h, f)
    ensures FixedAt(h1, f) && |h| <= |h1| && h1 != []
  {
    forall v | 0 <= v < |h1| ensures h1[v].Fixed() == f {
      if v < |h| {
        assert h1[v] == h[v];
      }
    }
  }

  /** One more node is up. */
  lemma {:induction false} AddUp(t0: Tenant, pub: map<string, Published>, s: Sys, k: string) returns (steps: seq<Step>)
    requires NewObject(t0, pub) && SysOk(t0, pub, None, s) && FixedAt(s.history, t0.Fixed())
    requires k in pub && k in s.nodes && s.nodes[k] == FRESH
    ensures AllBy(steps)
    ensures var s1 := Run(pub, s, steps);
            && SysOk(t0, pub, None, s1) && FixedAt(s1.history, t0.Fixed()) && |s.history| <= |s1.history|
            && OnlyMoved(s, s1, k) && k in s1.nodes && Up(t0, s1.history, s1.nodes[k])
  {
    assert Lists(t0.nodes, k);
    hide SysOk, Run, NewObject, Lists, FixedAt, OnlyMoved, Grown, AllBy;
    StillListed(t0, pub, s, k);
    steps := AddNode(pub, s, k);
    SysMore(t0, pub, s, steps);
    var s1 := Run(pub, s, steps);
    GrownFixed(s.history, s1.history, t0.Fixed());
    assert Latest(s.history).Fixed() == t0.Fixed() by { LatestFixed(s.history, t0.Fixed()); }
  }

  lemma {:induction false} LatestFixed(h: seq<Tenant>, f: (int, int))
    requires h != [] && FixedAt(h, f)
    ensures Latest(h).Fixed() == f
  {
  }

  /** The nodes of rest have not started, the others are up. */
  ghost predicate UpBut(t0: Tenant, pub: map<string, Published>, s: Sys, rest: set<string>) {
    && SysOk(t0, pub, None, s) && FixedAt(s.history, t0.Fixed()) && s.nodes.Keys == pub.Keys && rest <= pub.Keys
    && forall q :: q in s.nodes ==> if q in rest then s.nodes[q] == FRESH else Up(t0, s.history, s.nodes[q])
  }

  lemma {:induction false} OneMoreUp(
      t0: Tenant, pub: map<string, Published>, s: Sys, s1: Sys, rest: set<string>, k: string)
    requires UpBut(t0, pub, s, rest) && k in rest && OnlyMoved(s, s1, k) && k in s1.nodes
    requires SysOk(t0, pub, None, s1) && FixedAt(s1.history, t0.Fixed()) && |s.history| <= |s1.history|
    requires Up(t0, s1.history, s1.nodes[k])
    ensures UpBut(t0, pub, s1, rest - {k})
  {
    hide SysOk, FixedAt, Up;
    forall q | q in s1.nodes && q !in rest - {k} ensures Up(t0, s1.history, s1.nodes[q]) {
      if q != k {
        UpInLonger(t0, s.history, s1.history, s.nodes[q]);
      }
    }
  }

  lemma {:induction false} NextIsFresh(t0: Tenant, pub: map<string, Published>, s: Sys, rest: set<string>, k: string)
    requires UpBut(t0, pub, s, rest) && k in rest
    ensures SysOk(t0, pub, None, s) && FixedAt(s.history, t0.Fixed())
    ensures k in pub && k in s.nodes && s.nodes[k] == FRESH
  {
    hide SysOk, FixedAt, Up;
  }

  lemma {:induction false} AllByNone()
    ensures AllBy([])
  {
  }

  lemma {:induction false} AllUp(t0: Tenant, pub: map<string, Published>, s: Sys, rest: set<string>)
    returns (steps: seq<Step>)
    requires NewObject(t0, pub) && UpBut(t0, pub, s, rest)
    ensures AllBy(steps) && UpBut(t0, pub, Run(pub, s, steps), {})
    decreases |rest|
  {
    hide Run, NewObject, SysOk, FixedAt, Up, UpBut, OnlyMoved, AllBy;
    if rest == {} {
      steps := [];
      AllByNone();
      RunNone(pub, s);
    } else {
      var k :| k in rest;
      NextIsFresh(t0, pub, s, rest, k);
      var first := AddUp(t0, pub, s, k);
      var s1 := Run(pub, s, first);
      OneMoreUp(t0, pub, s, s1, rest, k);
      var more := AllUp(t0, pub, s1, rest - {k});
      steps := first + more;
      RunMore(pub, s, first, more);
      AllByBoth(first, more);
    }
  }

  // ---------------------------------------------------------------- all nodes catch up

  /** There is a device, or nobody to reach through it in any version. */
  ghost predicate CanInstall(h: seq<Tenant>, k: string, ns: Node) {
    ns.device || forall v :: 0 <= v < |h| ==> !ReadyPeer(h[v].nodes, k)
  }

  lemma {:induction false} TakesOne(t0: Tenant, pub: map<string, Published>, s: Sys, k: string)
    requires s.history != [] && k in s.nodes && k in pub && FixedAt(s.history, t0.Fixed())
    requires Up(t0, s.history, s.nodes[k]) && CanInstall(s.history, k, s.nodes[k])
    requires s.nodes[k].delivered < s.nodes[k].cached
    ensures var s1 := Run(pub, s, [Deliver(k), Take(k)]); var ns := s.nodes[k];
            && s1.history == s.history && OnlyMoved(s, s1, k) && k in s1.nodes
            && s1.nodes[k] == ns.(delivered := ns.delivered + 1, tables := s1.nodes[k].tables)
  {
    var ns, h := s.nodes[k], s.history;
    InstallsOne(t0, h, k, ns);
    hide FixedAt, Up, CanInstall, LocalStep;
    RunTwo(pub, s, Deliver(k), Take(k));
    LocalMove(pub, s, k, Deliver(k));
    var s1 := Do(pub, s, Deliver(k));
    LocalMove(pub, s1, k, Take(k));
    OnlyMovedMore(s, s1, Do(pub, s1, Take(k)), k);
    hide Do, Run, OnlyMoved;
  }

  lemma {:induction false} InstallsOne(t0: Tenant, h: seq<Tenant>, k: string, ns: Node)
    requires h != [] && FixedAt(h, t0.Fixed()) && Up(t0, h, ns) && CanInstall(h, k, ns) && ns.delivered < ns.cached
    ensures var n2 := LocalStep(h, LocalStep(h, ns, Deliver(k)), Take(k));
            n2 == ns.(delivered := ns.delivered + 1, tables := n2.tables)
  {
    hide Install, TakeNext, ReadyPeer;
    var n1 := LocalStep(h, ns, Deliver(k));
    assert n1 == ns.(delivered := ns.delivered + 1, queue := [Update(ns.delivered, ns.delivered + 1)]);
    TakesQuietly(h, k, n1);
  }

  lemma {:induction false} TakesRest(t0: Tenant, pub: map<string, Published>, s: Sys, k: string)
    returns (steps: seq<Step>)
    requires s.history != [] && k in s.nodes && k in pub && FixedAt(s.history, t0.Fixed())
    requires Up(t0, s.history, s.nodes[k]) && CanInstall(s.history, k, s.nodes[k])
    ensures AllBy(steps)
    ensures var s1 := Run(pub, s, steps); var ns := s.nodes[k];
            && s1.history == s.history && OnlyMoved(s, s1, k) && k in s1.nodes
            && s1.nodes[k] == ns.(delivered := ns.cached, tables := s1.nodes[k].tables)
    decreases s.nodes[k].cached - s.nodes[k].delivered
  {
    hide Run, FixedAt;
    var ns := s.nodes[k];
    if ns.delivered == ns.cached {
      steps := [];
      RunNone(pub, s);
    } else {
      TakesOne(t0, pub, s, k);
      var first := [Deliver(k), Take(k)];
      var s1 := Run(pub, s, first);
      hide ReadyPeer;
      var rest := TakesRest(t0, pub, s1, k);
      hide OnlyMoved, AllBy, Up, CanInstall;
      steps := first + rest;
      RunMore(pub, s, first, rest);
      OnlyMovedMore(s, s1, Run(pub, s1, rest), k);
      assert AllBy(first) by { DeliverSteps(k); }
      AllByBoth(first, rest);
    }
  }

  lemma {:induction false} DeliverStep(k: string)
    ensures AllBy([Deliver(k)])
  {
  }

  lemma {:induction false} DeliverSteps(k: string)
    ensures AllBy([Deliver(k), Take(k)])
  {
  }

  /** Up, and everything that there is has been seen and handled. */
  ghost predicate Caught(t0: Tenant, h: seq<Tenant>, ns: Node) {
    Up(t0, h, ns) && ns.delivered == |h| - 1
  }

  lemma {:induction false} CatchesUp(t0: Tenant, pub: map<string, Published>, s: Sys, k: string)
    returns (steps: seq<Step>)
    requires s.history != [] && k in s.nodes && k in pub && FixedAt(s.history, t0.Fixed())
    requires Up(t0, s.history, s.nodes[k]) && CanInstall(s.history, k, s.nodes[k])
    ensures AllBy(steps)
    ensures var s1 := Run(pub, s, steps);
            && s1.history == s.history && OnlyMoved(s, s1, k) && k in s1.nodes && Caught(t0, s1.history, s1.nodes[k])
  {
    var a := CatchUp(pub, s, k);
    var s1 := Run(pub, s, a);
    hide Run, FixedAt, OnlyMoved, AllBy;
    var b := TakesRest(t0, pub, s1, k);
    RunMore(pub, s, a, b);
    steps := a + b;
    AllByBoth(a, b);
    OnlyMovedMore(s, s1, Run(pub, s1, b), k);
  }

  /** Every node is up, and those not in rest have handled everything. */
  ghost predicate CaughtBut(t0: Tenant, pub: map<string, Published>, s: Sys, rest: set<string>) {
    && s.history != [] && FixedAt(s.history, t0.Fixed()) && s.nodes.Keys == pub.Keys && rest <= pub.Keys
    && (forall q :: q in s.nodes ==> Up(t0, s.history, s.nodes[q]) && CanInstall(s.history, q, s.nodes[q]))
    && (forall q :: q in s.nodes && q !in rest ==> Caught(t0, s.history, s.nodes[q]))
  }

  lemma {:induction false} OneMoreCaught(
      t0: Tenant, pub: map<string, Published>, s: Sys, s1: Sys, rest: set<string>, k: string)
    requires CaughtBut(t0, pub, s, rest) && k in rest && OnlyMoved(s, s1, k) && k in s1.nodes
    requires s1.history == s.history && Caught(t0, s1.history, s1.nodes[k])
    ensures CaughtBut(t0, pub, s1, rest - {k})
  {
    hide FixedAt, ReadyPeer;
    assert s.nodes[k].device == s1.nodes[k].device;
  }

  lemma {:induction false} AllCaught(t0: Tenant, pub: map<string, Published>, s: Sys, rest: set<string>)
    returns (steps: seq<Step>)
    requires CaughtBut(t0, pub, s, rest)
    ensures AllBy(steps) && CaughtBut(t0, pub, Run(pub, s, steps), {}) && Run(pub, s, steps).history == s.history
    decreases |rest|
  {
    hide Run;
    if rest == {} {
      steps := [];
      RunNone(pub, s);
    } else {
      var k :| k in rest;
      hide FixedAt, Up, Caught, CanInstall, OnlyMoved, AllBy;
      var first := CatchesUp(t0, pub, s, k);
      var s1 := Run(pub, s, first);
      OneMoreCaught(t0, pub, s, s1, rest, k);
      var more := AllCaught(t0, pub, s1, rest - {k});
      steps := first + more;
      RunMore(pub, s, first, more);
      AllByBoth(first, more);
    }
  }

  /** Whoever is alone in a list of one has no peer in any version. */
  lemma {:induction false} UpCanInstall(t0: Tenant, pub: map<string, Published>, s: Sys, k: string)
    requires NewObject(t0, pub) && SysOk(t0, pub, None, s) && k in s.nodes && Up(t0, s.history, s.nodes[k])
    ensures CanInstall(s.history, k, s.nodes[k])
  {
    assert Lists(t0.nodes, k);
    hide NewObject, Lists, Faithful, NodeOk, ReadyPeer;
    forall v | 0 <= v < |s.history| && !s.nodes[k].device ensures !ReadyPeer(s.history[v].nodes, k) {
      assert VersionOk(t0, pub, None, s.history[v]);
      NoPeerAlone(t0.nodes, s.history[v].nodes, k);
    }
  }

  lemma {:induction false} NoPeerAlone(a: seq<NodeEntry>, b: seq<NodeEntry>, k: string)
    requires Lists(a, k) && SameNames(a, b) && |a| <= 1
    ensures !ReadyPeer(b, k)
  {
  }

  lemma {:induction false} UpToCaught(t0: Tenant, pub: map<string, Published>, s: Sys)
    requires NewObject(t0, pub) && UpBut(t0, pub, s, {})
    ensures CaughtBut(t0, pub, s, pub.Keys)
  {
    hide NewObject, FixedAt, Up, CanInstall;
    forall q | q in s.nodes ensures CanInstall(s.history, q, s.nodes[q]) {
      UpCanInstall(t0, pub, s, q);
    }
    assert s.history != [];
  }

  // ---------------------------------------------------------------- the full mesh comes about

  /** Node n has handled everything, with nothing given up, and holds the fields of the object. */
  ghost predicate Done(t0: Tenant, s: Sys, n: string) {
    && n in s.nodes && s.nodes[n].added && Quiet(s, n) && !s.nodes[n].dropped && s.nodes[n].recorded == Some(t0.Fixed())
  }

  lemma {:induction false} CaughtIsDone(t0: Tenant, pub: map<string, Published>, s: Sys)
    requires CaughtBut(t0, pub, s, {})
    ensures s.nodes.Keys == pub.Keys && s.history != [] && Latest(s.history).Fixed() == t0.Fixed()
    ensures forall n :: n in pub ==> Done(t0, s, n)
  {
    hide CanInstall;
  }

  /** For every new object, whatever its list, there is a run in which nobody edits anything and at whose
      end every Add has succeeded, every entry shows what its node publishes, nothing is left to handle
      anywhere, and every node reaches every other one, with the routes as far as the kernel takes them. */
  lemma {:induction false} MeshForms(t0: Tenant, pub: map<string, Published>) returns (steps: seq<Step>)
    requires NewObject(t0, pub)
    ensures AllBy(steps)
    ensures var s := Run(pub, Start(t0, pub), steps);
            && s.nodes.Keys == pub.Keys && s.history != [] && Latest(s.history).Fixed() == t0.Fixed()
            && (forall n :: n in pub ==> Done(t0, s, n))
            && |Latest(s.history).nodes| == |t0.nodes|
            && forall i :: 0 <= i < |t0.nodes| ==>
                 t0.nodes[i].name in pub && Latest(s.history).nodes[i] == Entry(t0.nodes[i].name, pub[t0.nodes[i].name])
    ensures var s := Run(pub, Start(t0, pub), steps);
            forall n, m :: n in pub && m in pub && n != m ==>
              n in s.nodes && Reaches(s.nodes[n].tables, pub[m], None)
              && (LenOk(pub, Some(t0.prefix)) ==> Reaches(s.nodes[n].tables, pub[m], Some(t0.prefix)))
  {
    var s0 := Start(t0, pub);
    StartUp(t0, pub);
    hide Run, NewObject, Start, UpBut, CaughtBut, AllBy, Done, Reaches, LenOk, RunOf;
    var a := AllUp(t0, pub, s0, pub.Keys);
    var s1 := Run(pub, s0, a);
    UpToCaught(t0, pub, s1);
    var b := AllCaught(t0, pub, s1, pub.Keys);
    RunMore(pub, s0, a, b);
    steps := a + b;
    AllByBoth(a, b);
    var s := Run(pub, s0, steps);
    CaughtIsDone(t0, pub, s);
    AllShow(t0, pub, steps);
    forall n, m | n in pub && m in pub && n != m
      ensures n in s.nodes && Reaches(s.nodes[n].tables, pub[m], None)
      ensures LenOk(pub, Some(t0.prefix)) ==> Reaches(s.nodes[n].tables, pub[m], Some(t0.prefix))
    {
      DoneReaches(t0, pub, steps, n, m);
    }
  }

  lemma {:induction false} StartUp(t0: Tenant, pub: map<string, Published>)
    requires NewObject(t0, pub)
    ensures UpBut(t0, pub, Start(t0, pub), pub.Keys)
  {
    SysStart(t0, pub, None);
    StartIsFresh(t0, pub);
    hide SysOk, Start, NewObject, FRESH;
  }

  lemma {:induction false} Unedited(t0: Tenant, pub: map<string, Published>, len: Option<int>, steps: seq<Step>)
    requires NewObject(t0, pub) && LenOk(pub, len) && PrefixIs(t0, len) && AllBy(steps)
    ensures RunOf(t0, pub, len, steps)
  {
    hide NewObject, LenOk;
  }

  lemma {:induction false} AllShow(t0: Tenant, pub: map<string, Published>, steps: seq<Step>)
    requires NewObject(t0, pub) && AllBy(steps)
    requires var s := Run(pub, Start(t0, pub), steps);
             s.history != [] && s.nodes.Keys == pub.Keys && forall n :: n in pub ==> Done(t0, s, n)
    ensures var t := Latest(Run(pub, Start(t0, pub), steps).history);
            && |t.nodes| == |t0.nodes|
            && forall i :: 0 <= i < |t0.nodes| ==>
                 t0.nodes[i].name in pub && t.nodes[i] == Entry(t0.nodes[i].name, pub[t0.nodes[i].name])
  {
    assert LenOk(pub, None);
    hide Run, RunOf, AllBy, NewObject, Start, LenOk, SysOk, Done;
    Unedited(t0, pub, None, steps);
    SysRun(t0, pub, None, steps);
    var s := Run(pub, Start(t0, pub), steps);
    SameSize(t0, pub, s);
    forall i: nat | i < |t0.nodes|
      ensures t0.nodes[i].name in pub && Latest(s.history).nodes[i] == Entry(t0.nodes[i].name, pub[t0.nodes[i].name])
    {
      EntryShows(t0, pub, steps, i);
    }
  }

  lemma {:induction false} EntryShows(t0: Tenant, pub: map<string, Published>, steps: seq<Step>, i: nat)
    requires RunOf(t0, pub, None, steps) && i < |t0.nodes| && t0.nodes[i].name in pub
    requires var s := Run(pub, Start(t0, pub), steps); s.history != [] && Done(t0, s, t0.nodes[i].name)
    ensures var t := Latest(Run(pub, Start(t0, pub), steps).history); var name := t0.nodes[i].name;
            i < |t.nodes| && t.nodes[i] == Entry(name, pub[name])
  {
    hide Run, RunOf, Start;
    var last: nat := |Run(pub, Start(t0, pub), steps).history| - 1;
    NoLostPublication(t0, pub, steps, last, last, i);
  }

  lemma {:induction false} SameSize(t0: Tenant, pub: map<string, Published>, s: Sys)
    requires NewObject(t0, pub) && SysOk(t0, pub, None, s) && s.history != []
    ensures |Latest(s.history).nodes| == |t0.nodes|
    ensures forall i :: 0 <= i < |t0.nodes| ==> t0.nodes[i].name in pub
  {
    assert VersionOk(t0, pub, None, Latest(s.history));
    hide NodeOk, Faithful;
  }

  lemma {:induction false} DoneReaches(t0: Tenant, pub: map<string, Published>, steps: seq<Step>, n: string, m: string)
    requires NewObject(t0, pub) && AllBy(steps) && n in pub && m in pub && n != m
    requires var s := Run(pub, Start(t0, pub), steps);
             s.history != [] && s.nodes.Keys == pub.Keys && forall k :: k in pub ==> Done(t0, s, k)
    ensures var s := Run(pub, Start(t0, pub), steps);
            && n in s.nodes && Reaches(s.nodes[n].tables, pub[m], None)
            && (LenOk(pub, Some(t0.prefix)) ==> Reaches(s.nodes[n].tables, pub[m], Some(t0.prefix)))
  {
    assert LenOk(pub, None);
    hide Run, RunOf, NewObject, Start, AllBy, Reaches, LenOk, OnlyPeers, OneLength;
    Unedited(t0, pub, None, steps);
    FullMesh(t0, pub, None, steps, n, m);
    if LenOk(pub, Some(t0.prefix)) {
      Unedited(t0, pub, Some(t0.prefix), steps);
      FullMesh(t0, pub, Some(t0.prefix), steps, n, m);
    }
  }

  // ---------------------------------------------------------------- a missing device

  /** An Add records VNI and Prefix of the cached version and goes to publish into its own entries, if there
      are any. */
  lemma {:induction false} TakesAddExact(h: seq<Tenant>, me: string, ns: Node)
    requires ns.work.Idle? && ns.queue != [] && ns.queue[0].Add? && ns.cached < |h|
    ensures var t, n1 := h[ns.cached], TakeNext(h, me, ns);
            if Lists(t.nodes, me) then
              && n1 == ns.(queue := ns.queue[1..], recorded := Some((t.vni, t.prefix)), work := n1.work)
              && n1.work.Publishing?
              && forall i :: i in n1.work.todo <==> 0 <= i < |t.nodes| && t.nodes[i].name == me
            else n1 == ns.(queue := ns.queue[1..])
  {
    IndicesAre(h[ns.cached].nodes, me, 0);
    hide Lists, Indices;
  }

  /** An update is fatal if and only if it has changed the list, the cached list has a published peer and
      there is no device. Otherwise it starts a revert if and only if the version it looks at has another
      VNI or Prefix than the old one, and installs exactly when the list has changed. */
  lemma {:induction false} TakesUpdateExact(h: seq<Tenant>, me: string, ns: Node)
    requires ns.work.Idle? && ns.queue != [] && ns.queue[0].Update? && ns.cached < |h|
    requires ns.queue[0].was < |h| && ns.queue[0].now < |h|
    ensures var was, now := h[ns.queue[0].was], h[ns.queue[0].now]; var n1 := TakeNext(h, me, ns);
            var moved := was.nodes != now.nodes; var seen := if moved then h[ns.cached] else now;
            && (n1.work.Dead? <==> moved && ReadyPeer(h[ns.cached].nodes, me) && !ns.device)
            && (n1.work.Reverting? <==> !n1.work.Dead? && ns.recorded.Some? && (seen.vni != was.vni || seen.prefix != was.prefix))
            && (n1.work.Idle? || n1.work.Reverting? || n1.work.Dead?)
            && n1.tables == (if moved && !n1.work.Dead? then Install(ns.tables, seen.nodes, me, seen.prefix) else ns.tables)
            && n1 == ns.(queue := ns.queue[1..], work := n1.work, tables := n1.tables)
  {
    hide Install, ReadyPeer;
  }

  /** Every version differs from the one before. */
  ghost predicate Moving(h: seq<Tenant>) {
    forall v :: 0 < v < |h| ==> h[v] != h[v - 1]
  }

  lemma {:induction false} WriteMoves(h: seq<Tenant>, t: Tenant)
    requires h != [] && Moving(h)
    ensures Moving(Write(h, t))
  {
  }

  lemma {:induction false} MovingStep(pub: map<string, Published>, s: Sys, step: Step)
    requires Moving(s.history)
    ensures Moving(Do(pub, s, step).history)
  {
    hide Moving, LocalStep, Write;
    if s.history != [] {
      forall t ensures Moving(Write(s.history, t)) {
        WriteMoves(s.history, t);
      }
    }
  }

  lemma {:induction false} MovingRun(pub: map<string, Published>, s: Sys, steps: seq<Step>)
    requires Moving(s.history)
    ensures Moving(Run(pub, s, steps).history)
  {
    hide Moving, Do;
    if steps != [] {
      var n := |steps| - 1;
      MovingRun(pub, s, steps[..n]);
      MovingStep(pub, Run(pub, s, steps[..n]), steps[n]);
    }
  }

  /** The node has recorded the fields, and given up. */
  lemma {:induction false} GivesUp(t0: Tenant, pub: map<string, Published>, n: string)
    requires NewObject(t0, pub) && n in pub
    ensures var s := Run(pub, Start(t0, pub), [StartNode(n), Take(n)] + [GiveUp(n)]);
            && s.history == [t0] && OnlyMoved(Start(t0, pub), s, n) && n in s.nodes
            && s.nodes[n] == FRESH.(started := true, recorded := Some(t0.Fixed()))
  {
    assert Lists(t0.nodes, n);
    var s0 := Start(t0, pub);
    StartIsFresh(t0, pub);
    hide NewObject, Lists, Start, LocalStep, Run;
    RunTwo(pub, s0, StartNode(n), Take(n));
    RunOn(pub, s0, [StartNode(n), Take(n)], GiveUp(n));
    LocalMove(pub, s0, n, StartNode(n));
    var s1 := Do(pub, s0, StartNode(n));
    LocalMove(pub, s1, n, Take(n));
    var s2 := Do(pub, s1, Take(n));
    LocalMove(pub, s2, n, GiveUp(n));
    JoinsAndStops([t0], n, FRESH);
    hide Do, OnlyMoved;
    OnlyMovedMore(s0, s1, s2, n);
    OnlyMovedMore(s0, s2, Do(pub, s2, GiveUp(n)), n);
  }

  /** m shows in the newest version, and the list has changed with the first new one. */
  lemma {:induction false} PeerShows(t0: Tenant, pub: map<string, Published>, s: Sys, m: string)
    requires NewObject(t0, pub) && SysOk(t0, pub, None, s) && m in s.nodes && s.nodes[m].added
    requires Grown([t0], s.history) && Moving(s.history)
    ensures |s.history| > 1 && s.history[0] == t0 && s.history[1].nodes != t0.nodes
    ensures forall n :: n != m ==> ReadyPeer(Latest(s.history).nodes, n)
  {
    assert m in pub && Lists(t0.nodes, m);
    AddedShows(t0, pub, None, s, m);
    var i :| 0 <= i < |Latest(s.history).nodes| && Latest(s.history).nodes[i].name == m && Latest(s.history).nodes[i].Ready();
    assert VersionOk(t0, pub, None, Latest(s.history));
    hide SysOk, Lists, ReadyPeer, Faithful, OwnDone, Shows;
    assert t0.nodes[i].Unset();
    assert |s.history| > 1 && s.history[1] != s.history[0] && s.history[1].Fixed() == t0.Fixed();
    forall n | n != m ensures ReadyPeer(Latest(s.history).nodes, n) {
      PeerIs(Latest(s.history).nodes, n, i);
    }
  }

  lemma {:induction false} PeerIs(nodes: seq<NodeEntry>, n: string, i: nat)
    requires i < |nodes| && nodes[i].name != n && nodes[i].Ready()
    ensures ReadyPeer(nodes, n)
  {
  }

  lemma {:induction false} TakesDeath(pub: map<string, Published>, s: Sys, n: string)
    requires s.history != [] && |s.history| > 1 && s.history[0].nodes != s.history[1].nodes && n in s.nodes && n in pub
    requires var ns := s.nodes[n];
             && ns.started && ns.work.Idle? && ns.queue == [] && !ns.device && ns.delivered == 0
             && ns.cached == |s.history| - 1 && ReadyPeer(Latest(s.history).nodes, n)
    ensures var s1 := Run(pub, s, [Deliver(n), Take(n)]); n in s1.nodes && s1.nodes[n].work.Dead?
  {
    RunTwo(pub, s, Deliver(n), Take(n));
    LocalMove(pub, s, n, Deliver(n));
    var s1 := Do(pub, s, Deliver(n));
    assert s1.nodes[n] == s.nodes[n].(delivered := 1, queue := [Update(0, 1)]);
    TakesUpdateExact(s.history, n, s1.nodes[n]);
    LocalMove(pub, s1, n, Take(n));
    hide Do, Run, ReadyPeer, TakeNext;
  }

  /** Whatever the object and whichever two nodes: if the Add of the first is given up before its device is
      up, and then the second publishes, the operator of the first dies on the update. */
  lemma {:induction false} GivenUpDies(t0: Tenant, pub: map<string, Published>, n: string, m: string)
    returns (steps: seq<Step>)
    requires NewObject(t0, pub) && n in pub && m in pub && n != m
    ensures AllBy(steps)
    ensures var s := Run(pub, Start(t0, pub), steps);
            n in s.nodes && s.nodes[n].work.Dead? && m in s.nodes && s.nodes[m].added
  {
    var s0, a := Start(t0, pub), [StartNode(n), Take(n)] + [GiveUp(n)];
    StartIsFresh(t0, pub);
    SysStart(t0, pub, None);
    assert Lists(t0.nodes, m) && Moving([t0]) && AllBy(a);
    GivesUp(t0, pub, n);
    hide NewObject, Lists, Start, Run, SysOk, Moving, Grown, AllBy, ReadyPeer;
    var s1 := Run(pub, s0, a);
    SysMore(t0, pub, s0, a);
    var b := AddNode(pub, s1, m);
    var s2 := Run(pub, s1, b);
    SysMore(t0, pub, s1, b);
    MovingRun(pub, s1, b);
    PeerShows(t0, pub, s2, m);
    var c := CatchUp(pub, s2, n);
    var s3 := Run(pub, s2, c);
    TakesDeath(pub, s3, n);
    var d := [Deliver(n), Take(n)];
    assert AllBy(d) by { DeliverSteps(n); }
    LocalsKeep(pub, s3, n, m);
    RunMore(pub, s0, a, b);
    RunMore(pub, s0, a + b, c);
    RunMore(pub, s0, a + b + c, d);
    AllByBoth(a, b);
    AllByBoth(a + b, c);
    AllByBoth(a + b + c, d);
    steps := a + b + c + d;
  }

  lemma {:induction false} LocalsKeep(pub: map<string, Published>, s: Sys, n: string, m: string)
    requires s.history != [] && n in s.nodes && n in pub && m in s.nodes && n != m
    ensures var s1 := Run(pub, s, [Deliver(n), Take(n)]); m in s1.nodes && s1.nodes[m] == s.nodes[m]
  {
    RunTwo(pub, s, Deliver(n), Take(n));
    LocalMove(pub, s, n, Deliver(n));
    LocalMove(pub, Do(pub, s, Deliver(n)), n, Take(n));
    hide Do, Run, LocalStep;
  }

  // ---------------------------------------------------------------- one attempt, and what is handed over

  /** One attempt to publish into an entry: fatal past the end of the cached list, nothing at all when the
      cache is stale, and otherwise the newest version shows p in this entry, under its old name, and has
      changed in nothing else. The device comes up with the last entry of an Add that is not alone. */
  lemma {:induction false} PublishExact(h: seq<Tenant>, ns: Node, p: Published)
    requires ns.cached < |h| && ns.work.Publishing? && ns.work.todo != []
    ensures var i := ns.work.todo[0]; var (h1, n1) := TryWrite(h, ns, p);
            if i >= |h[ns.cached].nodes| then h1 == h && n1 == ns.(work := Dead)
            else if ns.cached != |h| - 1 then h1 == h && n1 == ns
            else
              var t, t1 := Latest(h), Latest(h1);
              && t1.vni == t.vni && t1.prefix == t.prefix && |t1.nodes| == |t.nodes|
              && t1.nodes[i] == Entry(t.nodes[i].name, p)
              && (forall j :: 0 <= j < |t.nodes| && j != i ==> t1.nodes[j] == t.nodes[j])
              && h <= h1 && |h1| == |h| + (if t1 == t then 0 else 1)
              && n1 == ns.(work := Publishing(ns.work.todo[1..]), device := n1.device)
              && (n1.device <==> ns.device || (|ns.work.todo| == 1 && |t.nodes| > 1))
  {
  }

  /** One attempt to revert, likewise: the newest version then has the recorded VNI and Prefix and the list
      that it had. */
  lemma {:induction false} RevertExact(h: seq<Tenant>, ns: Node, p: Published)
    requires ns.cached < |h| && ns.work.Reverting? && ns.recorded.Some?
    ensures var (h1, n1) := TryWrite(h, ns, p);
            if ns.cached != |h| - 1 then h1 == h && n1 == ns
            else
              var t, t1 := Latest(h), Latest(h1);
              && t1.vni == ns.recorded.value.0 && t1.prefix == ns.recorded.value.1 && t1.nodes == t.nodes
              && h <= h1 && |h1| == |h| + (if t1 == t then 0 else 1)
              && n1 == ns.(work := Idle, dropped := false)
  {
  }

  /** The informer moves the cache on by one version at a time. */
  lemma {:induction false} ObservesNext(pub: map<string, Published>, s: Sys, k: string)
    requires s.history != [] && k in s.nodes && k in pub && s.nodes[k].started && s.nodes[k].cached < |s.history|
    ensures var ns := s.nodes[k]; var s1 := Do(pub, s, Observe(k));
            && s1.history == s.history && OnlyMoved(s, s1, k) && k in s1.nodes
            && s1.nodes[k] == ns.(cached := if ns.cached < |s.history| - 1 then ns.cached + 1 else ns.cached)
  {
    LocalMove(pub, s, k, Observe(k));
    hide Do, OnlyMoved;
  }

  /** One update for every version from i to j, in order. */
  function Updates(i: nat, j: nat): seq<Event>
    requires i <= j
    decreases j - i
  {
    if i == j then [] else [Update(i, i + 1)] + Updates(i + 1, j)
  }

  /** Every change that the informer has observed is handed over, once and in order, however long the queue
      is by then. */
  lemma {:induction false} HandsOver(pub: map<string, Published>, s: Sys, k: string) returns (steps: seq<Step>)
    requires s.history != [] && k in s.nodes && k in pub && s.nodes[k].started && s.nodes[k].delivered <= s.nodes[k].cached
    ensures AllBy(steps)
    ensures var s1 := Run(pub, s, steps); var ns := s.nodes[k];
            && s1.history == s.history && OnlyMoved(s, s1, k) && k in s1.nodes
            && s1.nodes[k] == ns.(delivered := ns.cached, queue := ns.queue + Updates(ns.delivered, ns.cached))
    decreases s.nodes[k].cached - s.nodes[k].delivered
  {
    hide Run, Do, OnlyMoved, AllBy, Updates;
    var ns := s.nodes[k];
    if ns.delivered == ns.cached {
      steps := [];
      RunNone(pub, s);
      NothingMoved(s, k);
      NoUpdates(ns.queue, ns.cached);
      AllByNone();
    } else {
      DeliversOne(pub, s, k);
      DeliverStep(k);
      var first := [Deliver(k)];
      var s1 := Run(pub, s, first);
      var rest := HandsOver(pub, s1, k);
      steps := first + rest;
      RunMore(pub, s, first, rest);
      AllByBoth(first, rest);
      OnlyMovedMore(s, s1, Run(pub, s1, rest), k);
      OneMoreUpdate(ns.queue, ns.delivered, ns.cached);
    }
  }

  lemma {:induction false} NothingMoved(s: Sys, k: string)
    ensures OnlyMoved(s, s, k)
  {
  }

  lemma {:induction false} NoUpdates(q: seq<Event>, i: nat)
    ensures q + Updates(i, i) == q
  {
  }

  lemma {:induction false} OneMoreUpdate(q: seq<Event>, i: nat, j: nat)
    requires i < j
    ensures q + [Update(i, i + 1)] + Updates(i + 1, j) == q + Updates(i, j)
  {
    var rest := Updates(i + 1, j);
    assert q + ([Update(i, i + 1)] + rest) == q + [Update(i, i + 1)] + rest;
  }

  lemma {:induction false} DeliversOne(pub: map<string, Published>, s: Sys, k: string)
    requires s.history != [] && k in s.nodes && k in pub && s.nodes[k].started && s.nodes[k].delivered < s.nodes[k].cached
    ensures var s1 := Run(pub, s, [Deliver(k)]); var ns := s.nodes[k];
            && s1.history == s.history && OnlyMoved(s, s1, k) && k in s1.nodes
            && s1.nodes[k] == ns.(delivered := ns.delivered + 1,
                                  queue := ns.queue + [Update(ns.delivered, ns.delivered + 1)])
  {
    LocalMove(pub, s, k, Deliver(k));
    RunOne(pub, s, Deliver(k));
    hide Run, Do, OnlyMoved;
  }

  /** A resync is one more update, from the version last handed over to itself; on a quiet node it comes to
      nothing. */
  lemma {:induction false} ResyncComesToNothing(pub: map<string, Published>, s: Sys, n: string)
    requires s.history != [] && n in s.nodes && n in pub && s.nodes[n].started
    ensures var ns := s.nodes[n]; var s1 := Do(pub, s, Resync(n));
            && s1.history == s.history && OnlyMoved(s, s1, n) && n in s1.nodes
            && s1.nodes[n] == ns.(queue := ns.queue + [Update(ns.delivered, ns.delivered)])
    ensures Quiet(s, n) && s.nodes[n].cached < |s.history| ==>
              var s2 := Run(pub, s, [Resync(n), Take(n)]);
              s2.history == s.history && OnlyMoved(s, s2, n) && n in s2.nodes && s2.nodes[n] == s.nodes[n]
  {
    LocalMove(pub, s, n, Resync(n));
    var s1 := Do(pub, s, Resync(n));
    if Quiet(s, n) && s.nodes[n].cached < |s.history| {
      RunTwo(pub, s, Resync(n), Take(n));
      LocalMove(pub, s1, n, Take(n));
      TakesUpdateExact(s.history, n, s1.nodes[n]);
      OnlyMovedMore(s, s1, Do(pub, s1, Take(n)), n);
    }
    hide Do, Run, OnlyMoved, TakeNext;
  }
}
