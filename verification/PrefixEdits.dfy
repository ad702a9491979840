/** What edits of Prefix do to the routes, after they have been reverted.

    Peers are installed with the Prefix of the version cached at that moment, and the update that brings
    the old Prefix back leaves the node list alone, so nothing is installed again. */
module PrefixEdits {
  import opened Options
  import opened Text
  import opened Api
  import opened Subnets
  import opened Forwarding
  import opened Protocol
  import opened ProtocolProofs

  // ---------------------------------------------------------------- moving one node

  lemma {:induction false} RunMore(pub: map<string, Published>, s: Sys, a: seq<Step>, b: seq<Step>)
    ensures Run(pub, s, a + b) == Run(pub, Run(pub, s, a), b)
  {
    if b == [] {
      assert a + b == a;
    } else {
      var n := |b| - 1;
      RunMore(pub, s, a, b[..n]);
      assert (a + b)[..|a + b| - 1] == a + b[..n];
    }
  }

  lemma {:induction false} RunOne(pub: map<string, Published>, s: Sys, a: Step)
    ensures Run(pub, s, [a]) == Do(pub, s, a)
  {
    assert [a][..0] == [];
  }

  lemma {:induction false} RunTwo(pub: map<string, Published>, s: Sys, a: Step, b: Step)
    ensures Run(pub, s, [a, b]) == Do(pub, Do(pub, s, a), b)
  {
    RunOne(pub, s, a);
    RunOn(pub, s, [a], b);
    assert [a] + [b] == [a, b];
  }

  predicate AllBy(steps: seq<Step>) {
    forall i :: 0 <= i < |steps| ==> !steps[i].UserEdit?
  }

  /** Users write no other Prefix. */
  ghost predicate EditsIn(ps: iset<int>, steps: seq<Step>) {
    forall i :: 0 <= i < |steps| && steps[i].UserEdit? ==> steps[i].prefix in ps
  }

  predicate EditsTo(p: int, steps: seq<Step>) {
    forall i :: 0 <= i < |steps| && steps[i].UserEdit? ==> steps[i].prefix == p
  }

  /** Only node k has moved. */
  ghost predicate OnlyMoved(s: Sys, s1: Sys, k: string) {
    s1.nodes.Keys == s.nodes.Keys && forall q :: q in s.nodes && q != k ==> s1.nodes[q] == s.nodes[q]
  }

  lemma {:induction false} LocalMove(pub: map<string, Published>, s: Sys, k: string, step: Step)
    requires s.history != [] && k in s.nodes && k in pub && !step.UserEdit? && !step.Attempt? && step.n == k
    ensures var s1 := Do(pub, s, step);
            && s1.history == s.history && OnlyMoved(s, s1, k) && k in s1.nodes
            && s1.nodes[k] == LocalStep(s.history, s.nodes[k], step)
  {
    hide LocalStep;
  }

  lemma {:induction false} AttemptMove(pub: map<string, Published>, s: Sys, k: string)
    requires s.history != [] && k in s.nodes && k in pub
    ensures var s1 := Do(pub, s, Attempt(k));
            && OnlyMoved(s, s1, k) && k in s1.nodes
            && (s1.history, s1.nodes[k]) == TryWrite(s.history, s.nodes[k], pub[k])
  {
    hide TryWrite;
  }

  // ---------------------------------------------------------------- one Add, to its end

  /** The history has grown by versions with the fields of the last one and as many entries. */
  ghost predicate Grown(h: seq<Tenant>, h1: seq<Tenant>) {
    && h != [] && h <= h1
    && forall v :: |h| - 1 <= v < |h1| ==> h1[v].Fixed() == Latest(h).Fixed() && |h1[v].nodes| == |Latest(h).nodes|
  }

  lemma {:induction false} GrownMore(a: seq<Tenant>, b: seq<Tenant>, c: seq<Tenant>)
    requires Grown(a, b) && Grown(b, c)
    ensures Grown(a, c)
  {
    forall v | |a| - 1 <= v < |c| ensures c[v].Fixed() == Latest(a).Fixed() && |c[v].nodes| == |Latest(a).nodes| {
      if v < |b| {
        assert c[v] == b[v];
      } else {
        assert c[v].Fixed() == Latest(b).Fixed();
      }
    }
  }

  lemma {:induction false} PublishOne(pub: map<string, Published>, s: Sys, k: string)
    requires s.history != [] && k in s.nodes && k in pub
    requires var ns := s.nodes[k];
             && ns.started && ns.cached == |s.history| - 1
             && ns.work.Publishing? && ns.work.todo != [] && ns.work.todo[0] < |Latest(s.history).nodes|
    ensures var s1 := Do(pub, Do(pub, s, Attempt(k)), Observe(k)); var ns := s.nodes[k];
            && OnlyMoved(s, s1, k) && k in s1.nodes && Grown(s.history, s1.history)
            && s1.nodes[k] == ns.(work := Publishing(ns.work.todo[1..]), cached := |s1.history| - 1,
                                  device := ns.device || (|ns.work.todo| == 1 && |Latest(s.history).nodes| > 1))
  {
    AttemptMove(pub, s, k);
    var s1 := Do(pub, s, Attempt(k));
    LocalMove(pub, s1, k, Observe(k));
    hide Do;
  }

  /** The node has read the latest list and has these entries to publish. */
  ghost predicate CanPublish(s: Sys, k: string) {
    && s.history != [] && k in s.nodes
    && s.nodes[k].started && s.nodes[k].cached == |s.history| - 1 && s.nodes[k].work.Publishing?
    && forall x :: x in s.nodes[k].work.todo ==> x < |Latest(s.history).nodes|
  }

  lemma {:induction false} CanGoOn(pub: map<string, Published>, s: Sys, k: string)
    requires CanPublish(s, k) && k in pub && s.nodes[k].work.todo != []
    ensures var s1 := Run(pub, s, [Attempt(k), Observe(k)]); var ns := s.nodes[k];
            && OnlyMoved(s, s1, k) && CanPublish(s1, k) && Grown(s.history, s1.history)
            && |Latest(s1.history).nodes| == |Latest(s.history).nodes|
            && s1.nodes[k] == ns.(work := Publishing(ns.work.todo[1..]), cached := |s1.history| - 1,
                                  device := ns.device || (|ns.work.todo| == 1 && |Latest(s.history).nodes| > 1))
  {
    var todo := s.nodes[k].work.todo;
    assert todo[0] in todo && forall x :: x in todo[1..] ==> x in todo;
    PublishOne(pub, s, k);
    RunTwo(pub, s, Attempt(k), Observe(k));
    hide Do, Run;
  }

  lemma {:induction false} Finishes(pub: map<string, Published>, s: Sys, k: string)
    requires CanPublish(s, k) && k in pub && s.nodes[k].work.todo == []
    ensures var s1 := Run(pub, s, [Attempt(k)]);
            && OnlyMoved(s, s1, k) && k in s1.nodes && s1.history == s.history
            && s1.nodes[k] == s.nodes[k].(work := Idle, added := true)
  {
    RunOne(pub, s, Attempt(k));
    AttemptMove(pub, s, k);
    hide Do, Run;
  }

  /** The rest of an Add that nobody disturbs. */
  lemma {:induction false} PublishRest(pub: map<string, Published>, s: Sys, k: string) returns (steps: seq<Step>)
    requires CanPublish(s, k) && k in pub
    ensures AllBy(steps)
    ensures var s1 := Run(pub, s, steps); var ns := s.nodes[k];
            && OnlyMoved(s, s1, k) && k in s1.nodes && Grown(s.history, s1.history)
            && s1.nodes[k] == ns.(work := Idle, added := true, cached := |s1.history| - 1,
                                  device := ns.device || (ns.work.todo != [] && |Latest(s.history).nodes| > 1))
    decreases |s.nodes[k].work.todo|
  {
    if s.nodes[k].work.todo == [] {
      steps := [Attempt(k)];
      Finishes(pub, s, k);
      hide Run;
    } else {
      CanGoOn(pub, s, k);
      var first := [Attempt(k), Observe(k)];
      assert AllBy(first);
      var s1 := Run(pub, s, first);
      hide Run, CanPublish, OnlyMoved, Grown, AllBy;
      var rest := PublishRest(pub, s1, k);
      steps := first + rest;
      AllByBoth(first, rest);
      RunMore(pub, s, first, rest);
      OnlyMovedMore(s, s1, Run(pub, s1, rest), k);
      GrownMore(s.history, s1.history, Run(pub, s1, rest).history);
    }
  }

  /** A node starts and reads the latest version. */
  lemma {:induction false} Begins(pub: map<string, Published>, s: Sys, k: string)
    requires s.history != [] && k in s.nodes && k in pub && s.nodes[k] == FRESH && Lists(Latest(s.history).nodes, k)
    ensures var s1 := Run(pub, s, [StartNode(k), Take(k)]); var l := |s.history| - 1;
            && s1.history == s.history && OnlyMoved(s, s1, k) && k in s1.nodes
            && s1.nodes[k] == FRESH.(started := true, cached := l, delivered := l, recorded := Some(Latest(s.history).Fixed()),
                                     work := Publishing(Indices(Latest(s.history).nodes, k, 0)))
  {
    RunTwo(pub, s, StartNode(k), Take(k));
    LocalMove(pub, s, k, StartNode(k));
    var s1 := Do(pub, s, StartNode(k));
    assert s1.nodes[k] == FRESH.(started := true, cached := |s.history| - 1, delivered := |s.history| - 1, queue := [Add]);
    LocalMove(pub, s1, k, Take(k));
    hide Do, Run, Lists, Indices;
  }

  /** A whole Add. */
  lemma {:induction false} AddNode(pub: map<string, Published>, s: Sys, k: string) returns (steps: seq<Step>)
    requires s.history != [] && k in s.nodes && k in pub && s.nodes[k] == FRESH && Lists(Latest(s.history).nodes, k)
    ensures AllBy(steps)
    ensures var s1 := Run(pub, s, steps);
            && OnlyMoved(s, s1, k) && k in s1.nodes && Grown(s.history, s1.history)
            && s1.nodes[k] == FRESH.(started := true, cached := |s1.history| - 1, delivered := |s.history| - 1,
                                     recorded := Some(Latest(s.history).Fixed()), added := true,
                                     device := |Latest(s.history).nodes| > 1)
  {
    Begins(pub, s, k);
    var s1 := Run(pub, s, [StartNode(k), Take(k)]);
    ListedHasIndex(Latest(s.history).nodes, k);
    hide Run, Lists, Indices;
    var rest := PublishRest(pub, s1, k);
    steps := [StartNode(k), Take(k)] + rest;
    RunMore(pub, s, [StartNode(k), Take(k)], rest);
  }

  lemma {:induction false} ListedHasIndex(nodes: seq<NodeEntry>, k: string)
    requires Lists(nodes, k)
    ensures Indices(nodes, k, 0) != [] && forall x :: x in Indices(nodes, k, 0) ==> x < |nodes|
  {
    IndicesAre(nodes, k, 0);
    var i :| 0 <= i < |nodes| && nodes[i].name == k;
    assert i in Indices(nodes, k, 0);
  }

  // ---------------------------------------------------------------- updates of one node

  /** No route of length len to v is there, and installing this version brings none. */
  ghost predicate Avoids(t: Tenant, me: string, v: Addr, len: int) {
    t.prefix != len ||
    forall i :: 0 <= i < |t.nodes| && t.nodes[i].name != me && t.nodes[i].Ready() ==> t.nodes[i].vtepIp != Some(v)
  }

  lemma {:induction false} InstallAvoids(t: Tables, nodes: seq<NodeEntry>, me: string, prefix: int, v: Addr, len: int)
    requires (v, len) !in t.routes
    requires prefix != len ||
             forall i :: 0 <= i < |nodes| && nodes[i].name != me && nodes[i].Ready() ==> nodes[i].vtepIp != Some(v)
    ensures (v, len) !in Install(t, nodes, me, prefix).routes
  {
    hide HostBitsClear;
    if nodes != [] {
      InstallAvoids(t, nodes[..|nodes| - 1], me, prefix, v, len);
    }
  }

  /** A node with nothing in its queue, whose observed changes all keep the fields, and without a route
      to v of length len. */
  ghost predicate CanDrain(h: seq<Tenant>, ns: Node, n: string, v: Addr, len: int) {
    && ns.started && ns.work.Idle? && ns.queue == [] && ns.device && ns.delivered <= ns.cached < |h|
    && (forall i :: ns.delivered <= i <= ns.cached ==> h[i].Fixed() == h[ns.cached].Fixed())
    && (v, len) !in ns.tables.routes && Avoids(h[ns.cached], n, v, len)
  }

  /** It takes the next change, and only installs. */
  lemma {:induction false} DrainOne(pub: map<string, Published>, s: Sys, n: string, v: Addr, len: int)
    requires s.history != [] && n in s.nodes && n in pub
    requires CanDrain(s.history, s.nodes[n], n, v, len) && s.nodes[n].delivered < s.nodes[n].cached
    ensures var s1 := Run(pub, s, [Deliver(n), Take(n)]); var ns := s.nodes[n];
            && s1.history == s.history && OnlyMoved(s, s1, n) && n in s1.nodes
            && s1.nodes[n] == ns.(delivered := ns.delivered + 1, tables := s1.nodes[n].tables)
            && CanDrain(s.history, s1.nodes[n], n, v, len)
  {
    var ns, h := s.nodes[n], s.history;
    DrainsQuietly(h, n, ns, v, len);
    hide CanDrain, LocalStep, Avoids;
    RunTwo(pub, s, Deliver(n), Take(n));
    LocalMove(pub, s, n, Deliver(n));
    var s1 := Do(pub, s, Deliver(n));
    LocalMove(pub, s1, n, Take(n));
    OnlyMovedMore(s, s1, Do(pub, s1, Take(n)), n);
    hide Do, Run, OnlyMoved;
  }

  lemma {:induction false} DrainsQuietly(h: seq<Tenant>, n: string, ns: Node, v: Addr, len: int)
    requires h != [] && CanDrain(h, ns, n, v, len) && ns.delivered < ns.cached
    ensures var n2 := LocalStep(h, LocalStep(h, ns, Deliver(n)), Take(n));
            && n2 == ns.(delivered := ns.delivered + 1, tables := n2.tables) && CanDrain(h, n2, n, v, len)
  {
    hide Install, TakeNext, Avoids;
    var n1 := LocalStep(h, ns, Deliver(n));
    assert n1 == ns.(delivered := ns.delivered + 1, queue := [Update(ns.delivered, ns.delivered + 1)]);
    TakesQuietly(h, n, n1);
    assert (v, len) !in Install(ns.tables, h[ns.cached].nodes, n, h[ns.cached].prefix).routes by {
      AvoidsInstall(h[ns.cached], ns.tables, n, v, len);
    }
  }

  lemma {:induction false} AvoidsInstall(t: Tenant, tables: Tables, me: string, v: Addr, len: int)
    requires Avoids(t, me, v, len) && (v, len) !in tables.routes
    ensures (v, len) !in Install(tables, t.nodes, me, t.prefix).routes
  {
    InstallAvoids(tables, t.nodes, me, t.prefix, v, len);
  }

  lemma {:induction false} TakesQuietly(h: seq<Tenant>, n: string, ns: Node)
    requires ns.work.Idle? && ns.cached < |h| && |ns.queue| == 1 && ns.queue[0].Update?
    requires ns.device || !ReadyPeer(h[ns.cached].nodes, n)
    requires ns.queue[0].was < |h| && ns.queue[0].now < |h|
    requires h[ns.queue[0].was].Fixed() == h[ns.queue[0].now].Fixed() == h[ns.cached].Fixed()
    ensures var n1 := TakeNext(h, n, ns);
            && n1 == ns.(queue := [], tables := n1.tables)
            && (n1.tables == ns.tables || n1.tables == Install(ns.tables, h[ns.cached].nodes, n, h[ns.cached].prefix))
  {
    hide Install, ReadyPeer;
  }

  /** ... and so on, until it has taken every change that it has observed. */
  lemma {:induction false} Drain(pub: map<string, Published>, s: Sys, n: string, v: Addr, len: int)
    returns (steps: seq<Step>)
    requires s.history != [] && n in s.nodes && n in pub && CanDrain(s.history, s.nodes[n], n, v, len)
    ensures AllBy(steps)
    ensures var s1 := Run(pub, s, steps); var ns := s.nodes[n];
            && s1.history == s.history && OnlyMoved(s, s1, n) && n in s1.nodes
            && s1.nodes[n] == ns.(delivered := ns.cached, tables := s1.nodes[n].tables)
            && CanDrain(s.history, s1.nodes[n], n, v, len)
    decreases s.nodes[n].cached - s.nodes[n].delivered
  {
    assert s.nodes[n].delivered <= s.nodes[n].cached;
    hide Run, CanDrain;
    if s.nodes[n].delivered == s.nodes[n].cached {
      steps := [];
      RunNone(pub, s);
    } else {
      DrainOne(pub, s, n, v, len);
      var s1 := Run(pub, s, [Deliver(n), Take(n)]);
      var rest := Drain(pub, s1, n, v, len);
      steps := [Deliver(n), Take(n)] + rest;
      RunMore(pub, s, [Deliver(n), Take(n)], rest);
    }
  }

  lemma {:induction false} CatchUp(pub: map<string, Published>, s: Sys, n: string) returns (steps: seq<Step>)
    requires s.history != [] && n in s.nodes && n in pub && s.nodes[n].started && s.nodes[n].cached < |s.history|
    ensures AllBy(steps)
    ensures var s1 := Run(pub, s, steps);
            && s1.history == s.history && OnlyMoved(s, s1, n) && n in s1.nodes
            && s1.nodes[n] == s.nodes[n].(cached := |s.history| - 1)
    decreases |s.history| - s.nodes[n].cached
  {
    if s.nodes[n].cached == |s.history| - 1 {
      steps := [];
    } else {
      LocalMove(pub, s, n, Observe(n));
      RunOne(pub, s, Observe(n));
      hide Run, Do;
      var s1 := Do(pub, s, Observe(n));
      var rest := CatchUp(pub, s1, n);
      steps := [Observe(n)] + rest;
      RunMore(pub, s, [Observe(n)], rest);
    }
  }

  /** The next change that it has observed keeps the list and changes the fields. */
  ghost predicate SeesEdit(h: seq<Tenant>, ns: Node) {
    && ns.started && ns.work.Idle? && ns.queue == [] && ns.delivered < ns.cached == |h| - 1 && ns.recorded.Some?
    && h[ns.delivered].Fixed() != h[ns.delivered + 1].Fixed() && h[ns.delivered].nodes == h[ns.delivered + 1].nodes
  }

  /** ... so it goes to revert them. */
  lemma {:induction false} RevertsNext(h: seq<Tenant>, n: string, ns: Node)
    requires h != [] && SeesEdit(h, ns)
    ensures var n2 := LocalStep(h, LocalStep(h, ns, Deliver(n)), Take(n));
            n2 == ns.(delivered := ns.delivered + 1, work := Reverting)
  {
    hide Install, ReadyPeer;
    var n1 := LocalStep(h, ns, Deliver(n));
    assert n1 == ns.(delivered := ns.delivered + 1, queue := [Update(ns.delivered, ns.delivered + 1)]);
  }

  lemma {:induction false} TakesEdit(pub: map<string, Published>, s: Sys, n: string)
    requires s.history != [] && n in s.nodes && n in pub && SeesEdit(s.history, s.nodes[n])
    ensures var s1 := Run(pub, s, [Deliver(n), Take(n)]); var ns := s.nodes[n];
            && s1.history == s.history && OnlyMoved(s, s1, n) && n in s1.nodes
            && s1.nodes[n] == ns.(delivered := ns.delivered + 1, work := Reverting)
  {
    RevertsNext(s.history, n, s.nodes[n]);
    hide SeesEdit, LocalStep;
    RunTwo(pub, s, Deliver(n), Take(n));
    LocalMove(pub, s, n, Deliver(n));
    var s1 := Do(pub, s, Deliver(n));
    LocalMove(pub, s1, n, Take(n));
    OnlyMovedMore(s, s1, Do(pub, s1, Take(n)), n);
    hide Do, Run, OnlyMoved;
  }

  lemma {:induction false} WritesRevert(pub: map<string, Published>, s: Sys, n: string)
    requires s.history != [] && n in s.nodes && n in pub
    requires s.nodes[n].started && s.nodes[n].work.Reverting? && s.nodes[n].cached == |s.history| - 1
    requires s.nodes[n].recorded.Some?
    ensures var s1 := Run(pub, s, [Attempt(n)]); var ns := s.nodes[n];
            && s1.history == Write(s.history, Revert(Latest(s.history), ns.recorded.value))
            && OnlyMoved(s, s1, n) && n in s1.nodes && s1.nodes[n] == ns.(work := Idle, dropped := false)
  {
    AttemptMove(pub, s, n);
    RunOne(pub, s, Attempt(n));
    hide Do, Run, OnlyMoved, Write, Revert;
  }

  lemma {:induction false} TakesRevert(pub: map<string, Published>, s: Sys, n: string)
    requires s.history != [] && n in s.nodes && n in pub && SeesEdit(s.history, s.nodes[n])
    ensures var s1 := Run(pub, s, [Deliver(n), Take(n)] + [Attempt(n)]); var ns := s.nodes[n];
            && s1.history == Write(s.history, Revert(Latest(s.history), ns.recorded.value))
            && OnlyMoved(s, s1, n) && n in s1.nodes
            && s1.nodes[n] == ns.(delivered := ns.delivered + 1, dropped := false)
  {
    TakesEdit(pub, s, n);
    hide Run, OnlyMoved, Write, Revert;
    var s1 := Run(pub, s, [Deliver(n), Take(n)]);
    WritesRevert(pub, s1, n);
    RunMore(pub, s, [Deliver(n), Take(n)], [Attempt(n)]);
    OnlyMovedMore(s, s1, Run(pub, s1, [Attempt(n)]), n);
  }

  // ---------------------------------------------------------------- all nodes

  lemma {:induction false} SysMore(t0: Tenant, pub: map<string, Published>, s: Sys, steps: seq<Step>)
    requires NewObject(t0, pub) && SysOk(t0, pub, None, s)
    ensures SysOk(t0, pub, None, Run(pub, s, steps))
  {
    hide SysOk, NewObject, Do;
    if steps != [] {
      var n := |steps| - 1;
      SysMore(t0, pub, s, steps[..n]);
      SysStep(t0, pub, None, Run(pub, s, steps[..n]), steps[n]);
    }
  }

  lemma {:induction false} StillListed(t0: Tenant, pub: map<string, Published>, s: Sys, k: string)
    requires SysOk(t0, pub, None, s) && Lists(t0.nodes, k)
    ensures s.history != [] && Lists(Latest(s.history).nodes, k) && |Latest(s.history).nodes| == |t0.nodes|
  {
    assert VersionOk(t0, pub, None, Latest(s.history));
    hide NodeOk, Faithful;
    var i :| 0 <= i < |t0.nodes| && t0.nodes[i].name == k;
    assert Latest(s.history).nodes[i].name == k;
  }

  /** All of these nodes do their Adds, one after the other. */
  lemma {:induction false} AddAll(t0: Tenant, pub: map<string, Published>, s: Sys, rest: set<string>)
    returns (steps: seq<Step>)
    requires NewObject(t0, pub) && SysOk(t0, pub, None, s) && s.history != []
    requires forall k :: k in rest ==> k in pub && k in s.nodes && s.nodes[k] == FRESH
    ensures AllBy(steps)
    ensures var s1 := Run(pub, s, steps);
            && SysOk(t0, pub, None, s1) && Grown(s.history, s1.history) && s1.nodes.Keys == s.nodes.Keys
            && (forall q :: q in s.nodes && q !in rest ==> s1.nodes[q] == s.nodes[q])
            && (forall k :: k in rest ==> s1.nodes[k].added)
    decreases |rest|
  {
    hide SysOk, Run;
    if rest == {} {
      steps := [];
      assert Run(pub, s, []) == s by { RunNone(pub, s); }
    } else {
      var k :| k in rest;
      assert Lists(t0.nodes, k);
      hide NewObject, Lists;
      StillListed(t0, pub, s, k);
      var first := AddNode(pub, s, k);
      var s1 := Run(pub, s, first);
      SysMore(t0, pub, s, first);
      var more := AddAll(t0, pub, s1, rest - {k});
      steps := first + more;
      RunMore(pub, s, first, more);
      GrownMore(s.history, s1.history, Run(pub, s1, more).history);
    }
  }

  lemma {:induction false} RunNone(pub: map<string, Published>, s: Sys)
    ensures Run(pub, s, []) == s
  {
  }

  /** A node that has not started is in no version. */
  lemma {:induction false} FreshIsHidden(
      t0: Tenant, pub: map<string, Published>, s: Sys, n: string, m: string, len: int, c: nat)
    requires Distinct(pub) && SysOk(t0, pub, None, s) && m in s.nodes && m in pub && s.nodes[m] == FRESH && c < |s.history|
    ensures Avoids(s.history[c], n, pub[m].vtepIp, len)
  {
    var h := s.history;
    assert NodeOk(pub, None, h, m, s.nodes[m]) && VersionOk(t0, pub, None, h[c]) && Keeps(h[c].nodes, Latest(h).nodes);
    UnrecordedIsUnset(pub, None, h, m, s.nodes[m]);
    hide NodeOk, HistoryOk, SysOk;
  }

  /** n has done its Add and taken all that it has seen, m has not started, everybody else is added. */
  ghost predicate Waiting(t0: Tenant, pub: map<string, Published>, s: Sys, n: string, m: string) {
    && SysOk(t0, pub, None, s) && s.history != [] && Latest(s.history).Fixed() == t0.Fixed()
    && s.nodes.Keys == pub.Keys && n in pub && m in pub && n != m && s.nodes[m] == FRESH
    && (forall k :: k in pub && k != m ==> s.nodes[k].added)
    && (var ns := s.nodes[n]; var l := |s.history| - 1;
        && ns == FRESH.(started := true, cached := l, delivered := l, recorded := Some(t0.Fixed()),
                        device := true, added := true, tables := ns.tables)
        && (pub[m].vtepIp, t0.prefix) !in ns.tables.routes)
  }

  /** Everybody but n and m is added; these two have not started. */
  ghost predicate OthersAdded(t0: Tenant, pub: map<string, Published>, s: Sys, n: string, m: string) {
    && SysOk(t0, pub, None, s) && s.history != [] && Latest(s.history).Fixed() == t0.Fixed()
    && s.nodes.Keys == pub.Keys && n in pub && m in pub && n != m && s.nodes[n] == s.nodes[m] == FRESH
    && (forall k :: k in pub && k != n && k != m ==> s.nodes[k].added)
  }

  lemma {:induction false} StartIsFresh(t0: Tenant, pub: map<string, Published>)
    ensures var s0 := Start(t0, pub);
            s0.history == [t0] && s0.nodes.Keys == pub.Keys && forall k :: k in pub ==> s0.nodes[k] == FRESH
  {
  }

  lemma {:induction false} GrownKeeps(h: seq<Tenant>, h1: seq<Tenant>)
    requires Grown(h, h1)
    ensures h1 != [] && Latest(h1).Fixed() == Latest(h).Fixed()
  {
  }

  lemma {:induction false} ReachOthers(t0: Tenant, pub: map<string, Published>, n: string, m: string)
    returns (a: seq<Step>)
    requires NewObject(t0, pub) && n in pub && m in pub && n != m
    ensures AllBy(a) && OthersAdded(t0, pub, Run(pub, Start(t0, pub), a), n, m)
  {
    var s0 := Start(t0, pub);
    SysStart(t0, pub, None);
    StartIsFresh(t0, pub);
    hide SysOk, Run, NewObject, Start, FRESH, Grown, AllBy, OthersAdded;
    a := AddAll(t0, pub, s0, pub.Keys - {n, m});
    AddedOthers(t0, pub, s0, Run(pub, s0, a), n, m);
  }

  lemma {:induction false} AddedOthers(t0: Tenant, pub: map<string, Published>, s0: Sys, s: Sys, n: string, m: string)
    requires n in pub && m in pub && n != m && s0.history == [t0] && s0.nodes.Keys == pub.Keys
    requires s0.nodes[n] == s0.nodes[m] == FRESH
    requires SysOk(t0, pub, None, s) && Grown(s0.history, s.history) && s.nodes.Keys == s0.nodes.Keys
    requires forall q :: q in s0.nodes && q !in pub.Keys - {n, m} ==> s.nodes[q] == s0.nodes[q]
    requires forall k :: k in pub.Keys - {n, m} ==> s.nodes[k].added
    ensures OthersAdded(t0, pub, s, n, m)
  {
    hide SysOk, FRESH, Grown;
    GrownKeeps([t0], s.history);
  }

  /** n does its Add and takes what it has observed. */
  lemma {:induction false} AddThenDrain(t0: Tenant, pub: map<string, Published>, s: Sys, n: string, m: string)
    returns (steps: seq<Step>)
    requires NewObject(t0, pub) && OthersAdded(t0, pub, s, n, m)
    ensures AllBy(steps) && Waiting(t0, pub, Run(pub, s, steps), n, m)
  {
    assert Distinct(pub) && n in pub;
    hide Run, SysOk, NewObject, Distinct, CanDrain, AllBy, JustAdded, Waiting, OnlyMoved;
    var b := AddsNext(t0, pub, s, n, m);
    var s1 := Run(pub, s, b);
    AddedCanDrain(t0, pub, s, s1, n, m);
    hide OthersAdded;
    var c := Drain(pub, s1, n, pub[m].vtepIp, t0.prefix);
    SysMore(t0, pub, s1, c);
    RunMore(pub, s, b, c);
    steps := b + c;
    AllByBoth(b, c);
    DrainedWaits(t0, pub, s, s1, Run(pub, s1, c), n, m);
  }

  lemma {:induction false} AddsNext(t0: Tenant, pub: map<string, Published>, s: Sys, n: string, m: string)
    returns (steps: seq<Step>)
    requires NewObject(t0, pub) && OthersAdded(t0, pub, s, n, m)
    ensures AllBy(steps)
    ensures var s1 := Run(pub, s, steps);
            && SysOk(t0, pub, None, s1) && OnlyMoved(s, s1, n) && JustAdded(t0, s, s1, n)
            && s1.history != [] && m in s1.nodes && s1.nodes[m] == FRESH
  {
    hide Run, SysOk, OthersAdded, JustAdded, OnlyMoved, Lists, Grown, AllBy;
    NextListed(t0, pub, s, n, m);
    hide NewObject;
    steps := AddNode(pub, s, n);
    var s1 := Run(pub, s, steps);
    SysMore(t0, pub, s, steps);
    NextAdded(t0, pub, s, s1, n, m);
  }

  lemma {:induction false} NextListed(t0: Tenant, pub: map<string, Published>, s: Sys, n: string, m: string)
    requires NewObject(t0, pub) && OthersAdded(t0, pub, s, n, m)
    ensures SysOk(t0, pub, None, s) && s.history != [] && n in s.nodes && n in pub && s.nodes[n] == FRESH
    ensures Latest(s.history).Fixed() == t0.Fixed()
    ensures Lists(Latest(s.history).nodes, n) && |Latest(s.history).nodes| > 1
  {
    assert Lists(t0.nodes, n) && Lists(t0.nodes, m);
    hide SysOk, Lists, NewObject;
    StillListed(t0, pub, s, n);
    TwoListed(t0.nodes, n, m);
  }

  lemma {:induction false} NextAdded(
      t0: Tenant, pub: map<string, Published>, s: Sys, s1: Sys, n: string, m: string)
    requires OthersAdded(t0, pub, s, n, m) && OnlyMoved(s, s1, n) && n in s1.nodes && Grown(s.history, s1.history)
    requires s1.nodes[n] == FRESH.(started := true, cached := |s1.history| - 1, delivered := |s.history| - 1,
                                   recorded := Some(t0.Fixed()), added := true, device := true)
    ensures JustAdded(t0, s, s1, n) && s1.history != [] && m in s1.nodes && s1.nodes[m] == FRESH
  {
    GrownKeeps(s.history, s1.history);
    hide SysOk, Grown;
  }

  lemma {:induction false} AllByBoth(a: seq<Step>, b: seq<Step>)
    requires AllBy(a) && AllBy(b)
    ensures AllBy(a + b)
  {
  }

  /** What an Add leaves of the node. */
  ghost predicate JustAdded(t0: Tenant, s: Sys, s1: Sys, n: string) {
    && n in s1.nodes && s.history != [] && Grown(s.history, s1.history)
    && s1.nodes[n] == FRESH.(started := true, cached := |s1.history| - 1, delivered := |s.history| - 1,
                             recorded := Some(t0.Fixed()), added := true, device := true)
  }

  lemma {:induction false} AddedCanDrain(t0: Tenant, pub: map<string, Published>, s: Sys, s1: Sys, n: string, m: string)
    requires Distinct(pub) && SysOk(t0, pub, None, s1) && m in s1.nodes && m in pub && s1.nodes[m] == FRESH
    requires JustAdded(t0, s, s1, n)
    ensures CanDrain(s1.history, s1.nodes[n], n, pub[m].vtepIp, t0.prefix)
  {
    FreshIsHidden(t0, pub, s1, n, m, t0.prefix, |s1.history| - 1);
    hide SysOk, Distinct, Avoids;
  }

  lemma {:induction false} DrainedWaits(
      t0: Tenant, pub: map<string, Published>, s: Sys, s1: Sys, s2: Sys, n: string, m: string)
    requires OthersAdded(t0, pub, s, n, m) && OnlyMoved(s, s1, n) && OnlyMoved(s1, s2, n) && JustAdded(t0, s, s1, n)
    requires SysOk(t0, pub, None, s2) && s2.history == s1.history && n in s2.nodes
    requires s2.nodes[n] == s1.nodes[n].(delivered := s1.nodes[n].cached, tables := s2.nodes[n].tables)
    requires CanDrain(s1.history, s2.nodes[n], n, pub[m].vtepIp, t0.prefix)
    ensures Waiting(t0, pub, s2, n, m)
  {
    hide SysOk, Avoids;
    assert s1.history[|s1.history| - 1].Fixed() == Latest(s.history).Fixed();
  }

  lemma {:induction false} ReachWaiting(t0: Tenant, pub: map<string, Published>, n: string, m: string)
    returns (steps: seq<Step>)
    requires NewObject(t0, pub) && n in pub && m in pub && n != m
    ensures AllBy(steps) && Waiting(t0, pub, Run(pub, Start(t0, pub), steps), n, m)
  {
    hide Run, NewObject, Start, OthersAdded, Waiting;
    var a := ReachOthers(t0, pub, n, m);
    var b := AddThenDrain(t0, pub, Run(pub, Start(t0, pub), a), n, m);
    RunMore(pub, Start(t0, pub), a, b);
    steps := a + b;
  }

  lemma {:induction false} TwoListed(nodes: seq<NodeEntry>, n: string, m: string)
    requires n != m
    ensures Lists(nodes, n) && Lists(nodes, m) ==> |nodes| > 1
  {
  }

  lemma {:induction false} Edits(pub: map<string, Published>, s: Sys, m: string, p: int)
    requires s.history != [] && Latest(s.history).prefix != p
    ensures var t := Latest(s.history); var s1 := Do(pub, s, UserEdit(m, t.vni, p));
            s1.nodes == s.nodes && s1.history == s.history + [t.(prefix := p)]
  {
  }

  /** While the edited Prefix is the latest one, m publishes. */
  ghost predicate Edited(t0: Tenant, pub: map<string, Published>, s: Sys, n: string, m: string, p: int, l: int) {
    && s.nodes.Keys == pub.Keys && n in pub && m in pub && n != m && 0 <= l && l + 1 < |s.history|
    && (forall k :: k in pub ==> s.nodes[k].added)
    && s.history[l].Fixed() == t0.Fixed() && s.history[l].nodes == s.history[l + 1].nodes
    && (forall i :: l < i < |s.history| ==> s.history[i].Fixed() == (t0.vni, p))
    && (var ns := s.nodes[n];
        && ns == FRESH.(started := true, cached := l, delivered := l, recorded := Some(t0.Fixed()),
                        device := true, added := true, tables := ns.tables)
        && (pub[m].vtepIp, t0.prefix) !in ns.tables.routes)
  }

  /** m has read the list and is about to publish when Prefix is edited. */
  ghost predicate Under(s: Sys, s1: Sys, m: string, p: int) {
    && s.history != [] && s1.history == s.history + [Latest(s.history).(prefix := p)]
    && OnlyMoved(s, s1, m) && m in s1.nodes
    && s1.nodes[m] == FRESH.(started := true, cached := |s.history|, delivered := |s.history| - 1,
                             recorded := Some(Latest(s.history).Fixed()),
                             work := Publishing(Indices(Latest(s.history).nodes, m, 0)))
  }

  lemma {:induction false} EditsUnder(pub: map<string, Published>, s: Sys, m: string, p: int)
    requires s.history != [] && m in s.nodes && m in pub && s.nodes[m] == FRESH
    requires Lists(Latest(s.history).nodes, m) && Latest(s.history).prefix != p
    ensures var edit := UserEdit(m, Latest(s.history).vni, p);
            Under(s, Run(pub, s, [StartNode(m), Take(m)] + [edit] + [Observe(m)]), m, p)
  {
    var t, a := Latest(s.history), [StartNode(m), Take(m)];
    Begins(pub, s, m);
    hide Run, Lists, Indices;
    var s1 := Run(pub, s, a);
    Edits(pub, s1, m, p);
    RunOn(pub, s, a, UserEdit(m, t.vni, p));
    var s2 := Run(pub, s, a + [UserEdit(m, t.vni, p)]);
    LocalMove(pub, s2, m, Observe(m));
    RunOn(pub, s, a + [UserEdit(m, t.vni, p)], Observe(m));
    hide Do;
  }

  /** It publishes the rest. */
  lemma {:induction false} PublishesUnder(pub: map<string, Published>, s: Sys, s1: Sys, m: string, p: int)
    returns (rest: seq<Step>)
    requires Under(s, s1, m, p) && m in pub && Lists(Latest(s.history).nodes, m)
    ensures AllBy(rest)
    ensures var s2 := Run(pub, s1, rest);
            OnlyMoved(s, s2, m) && m in s2.nodes && s2.nodes[m].added && Grown(s1.history, s2.history)
  {
    ListedHasIndex(Latest(s.history).nodes, m);
    assert Latest(s1.history) == Latest(s.history).(prefix := p);
    hide Run, Lists, Indices, AllBy, Grown;
    rest := PublishRest(pub, s1, m);
  }

  lemma {:induction false} OnlyMovedMore(s: Sys, s1: Sys, s2: Sys, k: string)
    requires OnlyMoved(s, s1, k) && OnlyMoved(s1, s2, k)
    ensures OnlyMoved(s, s2, k)
  {
  }

  lemma {:induction false} ReachEdited(t0: Tenant, pub: map<string, Published>, s: Sys, n: string, m: string, p: int)
    returns (steps: seq<Step>)
    requires Waiting(t0, pub, s, n, m) && Lists(t0.nodes, m) && p != t0.prefix
    ensures EditsTo(p, steps) && Edited(t0, pub, Run(pub, s, steps), n, m, p, |s.history| - 1)
  {
    hide Waiting, Edited, Under, OnlyMoved, Grown, Run, Lists, AllBy, EditsTo;
    WaitsFor(t0, pub, s, n, m);
    EditsUnder(pub, s, m, p);
    var a := [StartNode(m), Take(m)] + [UserEdit(m, Latest(s.history).vni, p)] + [Observe(m)];
    EditSteps(m, Latest(s.history).vni, p);
    var s1 := Run(pub, s, a);
    var rest := PublishesUnder(pub, s, s1, m, p);
    RunMore(pub, s, a, rest);
    steps := a + rest;
    EditsThen(a, rest, p);
    EditedHolds(t0, pub, s, s1, Run(pub, s1, rest), n, m, p);
  }

  lemma {:induction false} EditSteps(m: string, vni: int, p: int)
    ensures EditsTo(p, [StartNode(m), Take(m)] + [UserEdit(m, vni, p)] + [Observe(m)])
  {
  }

  lemma {:induction false} WaitsFor(t0: Tenant, pub: map<string, Published>, s: Sys, n: string, m: string)
    requires Waiting(t0, pub, s, n, m) && Lists(t0.nodes, m)
    ensures s.history != [] && m in s.nodes && m in pub && s.nodes[m] == FRESH
    ensures Latest(s.history).prefix == t0.prefix && Lists(Latest(s.history).nodes, m)
  {
    hide SysOk, Lists;
    StillListed(t0, pub, s, m);
  }

  lemma {:induction false} EditsThen(a: seq<Step>, b: seq<Step>, p: int)
    requires EditsTo(p, a) && (AllBy(b) || EditsTo(p, b))
    ensures EditsTo(p, a + b)
  {
  }

  lemma {:induction false} EditedHolds(
      t0: Tenant, pub: map<string, Published>, s: Sys, s1: Sys, s2: Sys, n: string, m: string, p: int)
    requires Waiting(t0, pub, s, n, m) && Under(s, s1, m, p) && Grown(s1.history, s2.history)
    requires OnlyMoved(s, s2, m) && m in s2.nodes && s2.nodes[m].added
    ensures Edited(t0, pub, s2, n, m, p, |s.history| - 1)
  {
    hide SysOk;
    var l, h1 := |s.history| - 1, s1.history;
    assert s2.history[l] == h1[l] && s2.history[l + 1] == h1[l + 1] == Latest(h1);
  }

  /** n has reverted the edit, and then installed m with the edited Prefix. */
  ghost predicate Unrouted(t0: Tenant, pub: map<string, Published>, s: Sys, n: string, m: string) {
    && s.nodes.Keys == pub.Keys && n in pub && m in pub && n != m && Quiet(s, n) && !s.nodes[n].dropped
    && (forall k :: k in pub ==> s.nodes[k].added)
    && Latest(s.history).Fixed() == t0.Fixed()
    && (pub[m].vtepIp, t0.prefix) !in s.nodes[n].tables.routes
  }

  /** n has reverted the edit, and has seen neither that nor the installs that it owes. */
  ghost predicate Reverted(t0: Tenant, pub: map<string, Published>, s: Sys, n: string, m: string) {
    && s.nodes.Keys == pub.Keys && n in pub && m in pub && n != m && (forall k :: k in pub ==> s.nodes[k].added)
    && s.history != [] && CanDrain(s.history, s.nodes[n], n, pub[m].vtepIp, t0.prefix)
    && OwesRevert(t0, s.history, s.nodes[n])
  }

  /** The version after the one that it knows is its own revert. */
  ghost predicate OwesRevert(t0: Tenant, h: seq<Tenant>, ns: Node) {
    && ns.cached + 1 == |h| - 1 && ns.recorded == Some(t0.Fixed())
    && Latest(h) == Revert(h[ns.cached], t0.Fixed()) && Latest(h).Fixed() != h[ns.cached].Fixed()
  }

  /** n observes what m has published and reverts the edit. */
  lemma {:induction false} RevertsEdit(
      t0: Tenant, pub: map<string, Published>, s: Sys, n: string, m: string, p: int, l: int) returns (steps: seq<Step>)
    requires Edited(t0, pub, s, n, m, p, l) && p != t0.prefix
    ensures AllBy(steps) && Reverted(t0, pub, Run(pub, s, steps), n, m)
  {
    var a := CatchUp(pub, s, n);
    var s1 := Run(pub, s, a);
    EditGoesBack(t0, pub, s, s1, n, m, p, l);
    hide Run, Edited, Write, Revert, OnlyMoved, AllBy, SeesEdit, Reverted;
    TakesRevert(pub, s1, n);
    var b := [Deliver(n), Take(n)] + [Attempt(n)];
    RunMore(pub, s, a, b);
    steps := a + b;
    assert AllBy(b) by { RevertSteps(n); }
    AllByBoth(a, b);
    OnlyMovedMore(s, s1, Run(pub, s1, b), n);
    EditIsReverted(t0, pub, s, Run(pub, s1, b), n, m, p, l);
  }

  lemma {:induction false} RevertSteps(n: string)
    ensures AllBy([Deliver(n), Take(n)] + [Attempt(n)])
  {
  }

  lemma {:induction false} EditGoesBack(
      t0: Tenant, pub: map<string, Published>, s: Sys, s1: Sys, n: string, m: string, p: int, l: int)
    requires Edited(t0, pub, s, n, m, p, l) && p != t0.prefix && s1.history == s.history && n in s1.nodes
    requires s1.nodes[n] == s.nodes[n].(cached := |s.history| - 1)
    ensures var ns := s1.nodes[n]; var h := s.history;
            && SeesEdit(h, ns) && ns.delivered == l && ns.recorded == Some(t0.Fixed()) && !ns.dropped
            && Write(h, Revert(Latest(h), t0.Fixed())) == h + [Revert(Latest(h), t0.Fixed())]
  {
  }

  lemma {:induction false} EditIsReverted(
      t0: Tenant, pub: map<string, Published>, s: Sys, s1: Sys, n: string, m: string, p: int, l: int)
    requires Edited(t0, pub, s, n, m, p, l) && p != t0.prefix && OnlyMoved(s, s1, n) && n in s1.nodes
    requires s1.history == s.history + [Revert(Latest(s.history), t0.Fixed())]
    requires s1.nodes[n] == s.nodes[n].(cached := |s.history| - 1, delivered := l + 1)
    ensures Reverted(t0, pub, s1, n, m)
  {
    assert forall i :: 0 <= i < |s.history| ==> s1.history[i] == s.history[i];
  }

  /** It installs m with the edited Prefix, and then sees its own revert, which asks for nothing more. */
  lemma {:induction false} SeesRevert(t0: Tenant, pub: map<string, Published>, s: Sys, n: string, m: string)
    returns (steps: seq<Step>)
    requires Reverted(t0, pub, s, n, m)
    ensures AllBy(steps) && Unrouted(t0, pub, Run(pub, s, steps), n, m)
  {
    DrainedFacts(s.history, s.nodes[n], n, pub[m].vtepIp, t0.prefix);
    hide Run, CanDrain, OnlyMoved, AllBy, OwesRevert, Quiet, Unrouted;
    var c := Drain(pub, s, n, pub[m].vtepIp, t0.prefix);
    var s1 := Run(pub, s, c);
    DrainedFacts(s.history, s1.nodes[n], n, pub[m].vtepIp, t0.prefix);
    OwesStill(t0, s.history, s.nodes[n], s1.nodes[n]);
    hide Reverted;
    EndsQuiet(t0, pub, s1, n);
    var b := [Observe(n)] + ([Deliver(n), Take(n)] + [Attempt(n)]);
    RunMore(pub, s, c, b);
    steps := c + b;
    AllByBoth(c, b);
    OnlyMovedMore(s, s1, Run(pub, s1, b), n);
    EndsUnrouted(t0, pub, s, Run(pub, s1, b), n, m);
  }

  lemma {:induction false} OwesStill(t0: Tenant, h: seq<Tenant>, ns: Node, n1: Node)
    requires ns.cached < |h| && OwesRevert(t0, h, ns) && n1.cached == ns.cached && n1.recorded == ns.recorded
    ensures OwesRevert(t0, h, n1)
  {
  }

  lemma {:induction false} EndsUnrouted(t0: Tenant, pub: map<string, Published>, s: Sys, s1: Sys, n: string, m: string)
    requires Reverted(t0, pub, s, n, m) && OnlyMoved(s, s1, n) && n in s1.nodes && s1.history == s.history
    requires Quiet(s1, n) && !s1.nodes[n].dropped && s1.nodes[n].added == s.nodes[n].added
    requires (pub[m].vtepIp, t0.prefix) !in s1.nodes[n].tables.routes
    ensures Unrouted(t0, pub, s1, n, m)
  {
    hide CanDrain, Quiet;
  }

  lemma {:induction false} EndsQuiet(t0: Tenant, pub: map<string, Published>, s: Sys, n: string)
    requires s.history != [] && n in s.nodes && n in pub && OwesRevert(t0, s.history, s.nodes[n])
    requires var ns := s.nodes[n]; ns.started && ns.work.Idle? && ns.queue == [] && ns.delivered == ns.cached
    ensures var b := [Observe(n)] + ([Deliver(n), Take(n)] + [Attempt(n)]);
            var s1 := Run(pub, s, b);
            && AllBy(b) && OnlyMoved(s, s1, n) && n in s1.nodes && s1.history == s.history && Quiet(s1, n)
            && !s1.nodes[n].dropped && s1.nodes[n].added == s.nodes[n].added
            && s1.nodes[n].tables == s.nodes[n].tables
  {
    var b := [Deliver(n), Take(n)] + [Attempt(n)];
    ObservesRevert(t0, pub, s, n);
    hide Run, Do, OnlyMoved, Write, Revert, SeesEdit, OwesRevert;
    var s1 := Run(pub, s, [Observe(n)]);
    TakesRevert(pub, s1, n);
    RunMore(pub, s, [Observe(n)], b);
    OnlyMovedMore(s, s1, Run(pub, s1, b), n);
  }

  lemma {:induction false} ObservesRevert(t0: Tenant, pub: map<string, Published>, s: Sys, n: string)
    requires s.history != [] && n in s.nodes && n in pub && OwesRevert(t0, s.history, s.nodes[n])
    requires var ns := s.nodes[n]; ns.started && ns.work.Idle? && ns.queue == [] && ns.delivered == ns.cached
    ensures var s1 := Run(pub, s, [Observe(n)]); var ns := s.nodes[n]; var h := s.history;
            && s1.history == h && OnlyMoved(s, s1, n) && n in s1.nodes && SeesEdit(h, s1.nodes[n])
            && s1.nodes[n] == ns.(cached := |h| - 1) && ns.delivered + 1 == |h| - 1 && ns.recorded.Some?
            && Write(h, Revert(Latest(h), ns.recorded.value)) == h
  {
    LocalMove(pub, s, n, Observe(n));
    RunOne(pub, s, Observe(n));
    hide Run, Do, OnlyMoved;
  }

  lemma {:induction false} DrainedFacts(h: seq<Tenant>, ns: Node, n: string, v: Addr, len: int)
    requires CanDrain(h, ns, n, v, len)
    ensures ns.started && ns.work.Idle? && ns.queue == [] && ns.delivered <= ns.cached < |h|
    ensures (v, len) !in ns.tables.routes
  {
  }

  lemma {:induction false} ReachUnrouted(
      t0: Tenant, pub: map<string, Published>, s: Sys, n: string, m: string, p: int, l: int) returns (steps: seq<Step>)
    requires Edited(t0, pub, s, n, m, p, l) && p != t0.prefix
    ensures AllBy(steps) && Unrouted(t0, pub, Run(pub, s, steps), n, m)
  {
    hide Run, Edited, Reverted, AllBy, Unrouted;
    var a := RevertsEdit(t0, pub, s, n, m, p, l);
    var b := SeesRevert(t0, pub, Run(pub, s, a), n, m);
    RunMore(pub, s, a, b);
    steps := a + b;
    AllByBoth(a, b);
  }

  // ---------------------------------------------------------------- the exact condition

  /** In every such mesh, one that is complete, one edit of Prefix is enough: there is a run at whose end
      every node is added, n is quiet and has dropped no revert, and the object has its old VNI and Prefix
      again, and yet n has no route of that length to m. */
  lemma {:induction false} EditLosesRoute(t0: Tenant, pub: map<string, Published>, n: string, m: string, p: int)
    returns (steps: seq<Step>)
    requires NewObject(t0, pub) && n in pub && m in pub && n != m && p != t0.prefix
    ensures EditsTo(p, steps) && Unrouted(t0, pub, Run(pub, Start(t0, pub), steps), n, m)
  {
    assert Lists(t0.nodes, m);
    hide Run, NewObject, Start, Waiting, Edited, Unrouted, Lists, AllBy, EditsTo;
    var a := ReachWaiting(t0, pub, n, m);
    var s := Run(pub, Start(t0, pub), a);
    var b := ReachEdited(t0, pub, s, n, m, p);
    var c := ReachUnrouted(t0, pub, Run(pub, s, b), n, m, p, |s.history| - 1);
    RunMore(pub, Start(t0, pub), a, b);
    RunMore(pub, Start(t0, pub), a + b, c);
    steps := a + b + c;
    OneEdit(a, b, c, p);
  }

  lemma {:induction false} OneEdit(a: seq<Step>, b: seq<Step>, c: seq<Step>, p: int)
    requires AllBy(a) && EditsTo(p, b) && AllBy(c)
    ensures EditsTo(p, a + b + c)
  {
  }

  /** n is quiet and published, m is published, and the object has the Prefix that it began with. */
  ghost predicate PairSettled(t0: Tenant, pub: map<string, Published>, s: Sys, n: string, m: string) {
    && n in s.nodes && Quiet(s, n) && Latest(s.history).prefix == t0.prefix
    && OwnDone(Latest(s.history).nodes, n, []) && Shows(Latest(s.history).nodes, m)
  }

  /** n is quiet, every node is added, and the object has the Prefix that it began with. */
  ghost predicate MeshSettled(t0: Tenant, pub: map<string, Published>, s: Sys, n: string) {
    && s.nodes.Keys == pub.Keys && n in pub && Quiet(s, n) && Latest(s.history).prefix == t0.prefix
    && forall k :: k in s.nodes ==> s.nodes[k].added
  }

  ghost predicate Routed(s: Sys, n: string, p: Published, len: int) {
    n in s.nodes && HasRoute(s.nodes[n].tables, p, len)
  }

  ghost predicate Delivered(s: Sys, n: string, p: Published, x: int) {
    n in s.nodes && Delivers(s.nodes[n].tables, p, x)
  }

  ghost predicate PairRouted(t0: Tenant, pub: map<string, Published>, ps: iset<int>, n: string, m: string)
    requires m in pub
  {
    forall steps :: EditsIn(ps, steps) && PairSettled(t0, pub, Run(pub, Start(t0, pub), steps), n, m) ==>
      Routed(Run(pub, Start(t0, pub), steps), n, pub[m], t0.prefix)
  }

  ghost predicate MeshRouted(t0: Tenant, pub: map<string, Published>, ps: iset<int>, n: string, m: string)
    requires m in pub
  {
    forall steps :: EditsIn(ps, steps) && MeshSettled(t0, pub, Run(pub, Start(t0, pub), steps), n) ==>
      Routed(Run(pub, Start(t0, pub), steps), n, pub[m], t0.prefix)
  }

  ghost predicate PairDelivered(t0: Tenant, pub: map<string, Published>, ps: iset<int>, n: string, m: string)
    requires m in pub
  {
    forall steps, x :: EditsIn(ps, steps) && PairSettled(t0, pub, Run(pub, Start(t0, pub), steps), n, m)
                       && InBlock(x, pub[m].vtepIp) ==>
      Delivered(Run(pub, Start(t0, pub), steps), n, pub[m], x)
  }

  ghost predicate MeshDelivered(t0: Tenant, pub: map<string, Published>, ps: iset<int>, n: string, m: string)
    requires m in pub
  {
    forall steps, x :: EditsIn(ps, steps) && MeshSettled(t0, pub, Run(pub, Start(t0, pub), steps), n)
                       && InBlock(x, pub[m].vtepIp) ==>
      Delivered(Run(pub, Start(t0, pub), steps), n, pub[m], x)
  }

  ghost predicate OnlyPrefix(ps: iset<int>, len: int) {
    forall p :: p in ps ==> p == len
  }

  lemma {:induction false} NoEditRun(t0: Tenant, pub: map<string, Published>, ps: iset<int>, steps: seq<Step>)
    requires NewObject(t0, pub) && LenOk(pub, Some(t0.prefix)) && OnlyPrefix(ps, t0.prefix) && EditsIn(ps, steps)
    ensures RunOf(t0, pub, Some(t0.prefix), steps)
  {
    hide NewObject, LenOk;
  }

  lemma {:induction false} MeshIsPairs(
      t0: Tenant, pub: map<string, Published>, ps: iset<int>, steps: seq<Step>, n: string, m: string)
    requires NewObject(t0, pub) && n in pub && m in pub
    requires MeshSettled(t0, pub, Run(pub, Start(t0, pub), steps), n)
    ensures PairSettled(t0, pub, Run(pub, Start(t0, pub), steps), n, m)
  {
    SysStart(t0, pub, None);
    SysMore(t0, pub, Start(t0, pub), steps);
    assert Lists(t0.nodes, n) && Lists(t0.nodes, m);
    hide Run, SysOk, NewObject, Lists, Shows, OwnDone, Start;
    var s := Run(pub, Start(t0, pub), steps);
    AddedShows(t0, pub, None, s, n);
    AddedShows(t0, pub, None, s, m);
  }

  lemma {:induction false} UnroutedIsSettled(t0: Tenant, pub: map<string, Published>, s: Sys, n: string, m: string)
    requires Unrouted(t0, pub, s, n, m)
    ensures MeshSettled(t0, pub, s, n) && !Routed(s, n, pub[m], t0.prefix)
    ensures t0.prefix == 24 ==> forall x :: !Delivered(s, n, pub[m], x)
  {
  }

  /** Whatever Prefix values users may write: in every run, whenever a node is quiet and the object has its
      first Prefix, the node has a route of that length to every published peer, if and only if users may
      write no other Prefix; and this is no better when all nodes are added. */
  lemma {:induction false} RoutesIff(t0: Tenant, pub: map<string, Published>, ps: iset<int>, n: string, m: string)
    requires NewObject(t0, pub) && LenOk(pub, Some(t0.prefix)) && n in pub && m in pub && n != m
    ensures PairRouted(t0, pub, ps, n, m) <==> OnlyPrefix(ps, t0.prefix)
    ensures MeshRouted(t0, pub, ps, n, m) <==> OnlyPrefix(ps, t0.prefix)
  {
    hide Run, NewObject, LenOk, Start, PairSettled, MeshSettled, Unrouted, Routed;
    if OnlyPrefix(ps, t0.prefix) {
      forall steps | EditsIn(ps, steps) && PairSettled(t0, pub, Run(pub, Start(t0, pub), steps), n, m)
        ensures Routed(Run(pub, Start(t0, pub), steps), n, pub[m], t0.prefix)
      {
        SettledHasRoute(t0, pub, ps, steps, n, m);
      }
      forall steps | EditsIn(ps, steps) && MeshSettled(t0, pub, Run(pub, Start(t0, pub), steps), n)
        ensures Routed(Run(pub, Start(t0, pub), steps), n, pub[m], t0.prefix)
      {
        MeshIsPairs(t0, pub, ps, steps, n, m);
        SettledHasRoute(t0, pub, ps, steps, n, m);
      }
    } else {
      var p :| p in ps && p != t0.prefix;
      var steps := EditLosesRoute(t0, pub, n, m, p);
      UnroutedIsSettled(t0, pub, Run(pub, Start(t0, pub), steps), n, m);
      MeshIsPairs(t0, pub, ps, steps, n, m);
      assert EditsIn(ps, steps);
    }
  }

  lemma {:induction false} SettledHasRoute(
      t0: Tenant, pub: map<string, Published>, ps: iset<int>, steps: seq<Step>, n: string, m: string)
    requires NewObject(t0, pub) && LenOk(pub, Some(t0.prefix)) && OnlyPrefix(ps, t0.prefix) && EditsIn(ps, steps)
    requires n in pub && m in pub && n != m && PairSettled(t0, pub, Run(pub, Start(t0, pub), steps), n, m)
    ensures Routed(Run(pub, Start(t0, pub), steps), n, pub[m], t0.prefix)
  {
    hide Run, NewObject, LenOk, Start, RunOf;
    NoEditRun(t0, pub, ps, steps);
    PairMesh(t0, pub, Some(t0.prefix), steps, n, m);
  }

  lemma {:induction false} AlignedIsLenOk(pub: map<string, Published>)
    requires Aligned(pub)
    ensures LenOk(pub, Some(24))
  {
    forall m | m in pub ensures HostBitsClear(pub[m].vtepIp, 24) {
      EightLowBits(pub[m].vtepIp, 8);
    }
  }

  lemma {:induction false} SettledDelivers(
      t0: Tenant, pub: map<string, Published>, ps: iset<int>, steps: seq<Step>, n: string, m: string, x: int)
    requires NewObject(t0, pub) && t0.prefix == 24 && Aligned(pub) && OnlyPrefix(ps, 24) && EditsIn(ps, steps)
    requires n in pub && m in pub && n != m && PairSettled(t0, pub, Run(pub, Start(t0, pub), steps), n, m)
    requires InBlock(x, pub[m].vtepIp)
    ensures Delivered(Run(pub, Start(t0, pub), steps), n, pub[m], x)
  {
    hide Run, NewObject, LenOk, Start, RunOf, Delivers, Aligned;
    AlignedIsLenOk(pub);
    NoEditRun(t0, pub, ps, steps);
    PairDelivers(t0, pub, steps, n, m, x);
  }

  /** Remote delivery with Prefix 24: in every run, whenever a node is quiet and the object has Prefix 24,
      every address of every published peer's block is delivered, if and only if users may write no other
      Prefix; and this is no better when all nodes are added. */
  lemma {:induction false} DeliversIff(t0: Tenant, pub: map<string, Published>, ps: iset<int>, n: string, m: string)
    requires NewObject(t0, pub) && t0.prefix == 24 && Aligned(pub) && n in pub && m in pub && n != m
    ensures PairDelivered(t0, pub, ps, n, m) <==> OnlyPrefix(ps, 24)
    ensures MeshDelivered(t0, pub, ps, n, m) <==> OnlyPrefix(ps, 24)
  {
    hide Run, NewObject, Aligned, Start, PairSettled, MeshSettled, Unrouted, Delivered;
    if OnlyPrefix(ps, 24) {
      forall steps, x | EditsIn(ps, steps) && PairSettled(t0, pub, Run(pub, Start(t0, pub), steps), n, m)
                        && InBlock(x, pub[m].vtepIp)
        ensures Delivered(Run(pub, Start(t0, pub), steps), n, pub[m], x)
      {
        SettledDelivers(t0, pub, ps, steps, n, m, x);
      }
      forall steps, x | EditsIn(ps, steps) && MeshSettled(t0, pub, Run(pub, Start(t0, pub), steps), n)
                        && InBlock(x, pub[m].vtepIp)
        ensures Delivered(Run(pub, Start(t0, pub), steps), n, pub[m], x)
      {
        MeshIsPairs(t0, pub, ps, steps, n, m);
        SettledDelivers(t0, pub, ps, steps, n, m, x);
      }
    } else {
      var p :| p in ps && p != 24;
      var steps := EditLosesRoute(t0, pub, n, m, p);
      UnroutedIsSettled(t0, pub, Run(pub, Start(t0, pub), steps), n, m);
      MeshIsPairs(t0, pub, ps, steps, n, m);
      assert EditsIn(ps, steps) && InBlock(pub[m].vtepIp, pub[m].vtepIp);
    }
  }
}
