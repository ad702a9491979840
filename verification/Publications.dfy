/** Where an operator's publications land, over every interleaving of the controller of Membership. */
module Publications {
  import opened Api
  import opened Membership

  predicate Own(nodes: seq<NodeEntry>, me: string, i: int) {
    0 <= i < |nodes| && nodes[i].name == me
  }

  // ---------------------------------------------------------------- where one publication lands

  datatype Landing = OwnEntry | OtherEntry(name: string) | Died

  /** What an attempt at entry i of the cached list has come to: the version written differs from the
      cached one in entry i alone, which shows p under its old name. */
  ghost predicate Lands(s: State, s1: State, i: nat, p: Published, me: string, landing: Landing) {
    match landing
    case Died => s1 == s.(panicked := true)
    case OwnEntry =>
      && !s1.panicked && |Newest(s1).nodes| == |s.cache.nodes| && i < |s.cache.nodes|
      && Newest(s1) == s.cache.(nodes := Newest(s1).nodes)
      && Newest(s1).nodes[i] == Entry(me, p)
      && forall j :: 0 <= j < |s.cache.nodes| && j != i ==> Newest(s1).nodes[j] == s.cache.nodes[j]
    case OtherEntry(name) =>
      && !s1.panicked && |Newest(s1).nodes| == |s.cache.nodes| && i < |s.cache.nodes| && name != me
      && Newest(s1) == s.cache.(nodes := Newest(s1).nodes)
      && Newest(s1).nodes[i] == Entry(name, p)
      && forall j :: 0 <= j < |s.cache.nodes| && j != i ==> Newest(s1).nodes[j] == s.cache.nodes[j]
  }

  /** Whatever list the Add has read and whatever list is cached now: a publication that meets no
      conflict lands on this node's entry if and only if entry i of the cached list is there and carries
      its name, under another name if and only if it is there and carries that name, and kills the
      operator if and only if it is not there. */
  lemma {:induction false} AttemptLands(me: string, s: State, p: Published)
    requires !s.panicked && s.work.Publishing? && s.work.todo != [] && s.unseen == []
    ensures var i := s.work.todo[0]; var s1 := Do(me, s, Attempt(p)); var now := s.cache.nodes;
            && (Lands(s, s1, i, p, me, OwnEntry) <==> i < |now| && now[i].name == me)
            && (forall name :: Lands(s, s1, i, p, me, OtherEntry(name)) <==> i < |now| && now[i].name == name != me)
            && (Lands(s, s1, i, p, me, Died) <==> i >= |now|)
  {
    var i, s1 := s.work.todo[0], Do(me, s, Attempt(p));
    if i < |s.cache.nodes| {
      assert Newest(s1) == PublishInto(s.cache, i, p);
    }
  }

  // ---------------------------------------------------------------- runs

  lemma {:induction false} RunTwo(me: string, s: State, a: Step, b: Step)
    ensures Run(me, s, [a, b]) == Do(me, Do(me, s, a), b)
  {
    RunOne(me, s, a);
    RunOn(me, s, [a], b);
    assert [a] + [b] == [a, b];
  }

  lemma {:induction false} RunOne(me: string, s: State, a: Step)
    ensures Run(me, s, [a]) == Do(me, s, a)
  {
    assert [a][..0] == [];
  }

  /** The state after somebody else's write has been observed. */
  function Moved(s: State, t: Tenant): State {
    if t == s.cache then s else s.(cache := t, notices := s.notices + [Update(s.cache, t)])
  }

  lemma {:induction false} GoTo(me: string, s: State, t: Tenant)
    requires s.unseen == []
    ensures Run(me, s, [Edit(t), Observe]) == Moved(s, t)
  {
    RunTwo(me, s, Edit(t), Observe);
    hide Run;
  }

  /** Steps that anybody's choice of versions leaves open. */
  predicate Inner(step: Step) {
    !step.Edit? && !step.GiveUpAdd? && !step.OtherTenants?
  }

  predicate AllInner(steps: seq<Step>) {
    forall i :: 0 <= i < |steps| ==> Inner(steps[i])
  }

  predicate Both(me: string, e: Event) {
    e.Update? && Lists(e.was.nodes, me) && Lists(e.now.nodes, me)
  }

  predicate Changes(e: Event) {
    e.Update? && e.was.nodes != e.now.nodes
  }

  /** The tenant stays set up as it is, and what is observed keeps listing this node. */
  ghost predicate Steady(me: string, s: State, s1: State) {
    && !s1.panicked && s1.unseen == [] && SameNames(s.cache.nodes, s1.cache.nodes)
    && s1.listed == s.listed && s1.devices == s.devices && s1.recorded == s.recorded && s1.queue == s.queue
    && (Lists(s.cache.nodes, me) && (forall e :: e in s.notices ==> Both(me, e)) ==>
          Lists(s1.cache.nodes, me) && forall e :: e in s1.notices ==> Both(me, e))
  }

  lemma {:induction false} SteadyMore(me: string, s: State, s1: State, s2: State)
    requires Steady(me, s, s1) && Steady(me, s1, s2)
    ensures Steady(me, s, s2)
  {
    hide Both, Lists;
  }

  /** One publication made and observed, and another one to follow. */
  lemma {:induction false} PublishOne(me: string, s: State, p: Published)
    requires !s.panicked && s.unseen == [] && s.work.Publishing? && |s.work.todo| > 1 && s.work.todo[0] < |s.cache.nodes|
    ensures var s1 := Do(me, Do(me, s, Attempt(p)), Observe);
            Steady(me, s, s1) && s1.work == Publishing(s.work.todo[1..])
  {
    var s1 := Do(me, Do(me, s, Attempt(p)), Observe);
    assert SameNames(s.cache.nodes, s1.cache.nodes);
    if k :| 0 <= k < |s.cache.nodes| && s.cache.nodes[k].name == me {
      assert s1.cache.nodes[k].name == me;
    }
    hide Lists;
  }

  predicate Ascending(a: seq<nat>) {
    forall i, j :: 0 <= i < j < |a| ==> a[i] < a[j]
  }

  lemma {:induction false} IndicesAscend(nodes: seq<NodeEntry>, me: string, from: nat)
    requires from <= |nodes|
    ensures Ascending(Indices(nodes, me, from))
    decreases |nodes| - from
  {
    if from < |nodes| {
      IndicesAscend(nodes, me, from + 1);
      IndicesAre(nodes, me, from + 1);
      var rest := Indices(nodes, me, from + 1);
      assert forall k :: 0 <= k < |rest| ==> rest[k] in rest;
      hide Indices;
      assert Ascending([from] + rest);
    }
  }

  /** Publishes the earlier entries, until it is the turn of entry i. */
  lemma {:induction false} WalkTo(me: string, s: State, i: nat, p: Published) returns (steps: seq<Step>)
    requires !s.panicked && s.unseen == [] && s.work.Publishing? && i in s.work.todo && Ascending(s.work.todo)
    requires forall x :: x in s.work.todo ==> x < |s.cache.nodes|
    ensures AllInner(steps)
    ensures var s1 := Run(me, s, steps);
            && Steady(me, s, s1)
            && s1.work.Publishing? && s1.work.todo != [] && s1.work.todo[0] == i
            && forall x :: x in s.work.todo && x > i ==> x in s1.work.todo
    decreases |s.work.todo|
  {
    var todo := s.work.todo;
    if todo[0] == i {
      steps := [];
    } else {
      assert todo[0] in todo && |todo| > 1;
      PublishOne(me, s, p);
      var s1 := Do(me, Do(me, s, Attempt(p)), Observe);
      RunTwo(me, s, Attempt(p), Observe);
      assert forall x :: x in todo <==> x == todo[0] || x in todo[1..];
      assert todo[0] < i by { assert i in todo[1..]; }
      hide Do, Run, Both, Lists;
      var rest := WalkTo(me, s1, i, p);
      steps := [Attempt(p), Observe] + rest;
      RunMore(me, s, [Attempt(p), Observe], rest);
      SteadyMore(me, s, s1, Run(me, s1, rest));
    }
  }

  /** The tenant has never been set up and its Add is next. */
  ghost predicate AddIsNext(s: State) {
    && !s.panicked && s.unseen == [] && s.work.Idle? && s.queue == [Add]
    && !s.listed && s.devices == {} && s.free > 0
  }

  /** The Add reads the cached list. */
  lemma {:induction false} ReadsList(me: string, s: State)
    requires AddIsNext(s) && Lists(s.cache.nodes, me)
    ensures var s1 := Do(me, s, Take);
            && !s1.panicked && s1.unseen == [] && s1.cache == s.cache && s1.notices == s.notices
            && s1.queue == [] && s1.listed && s1.devices == {}
            && s1.work == Publishing(Indices(s.cache.nodes, me, 0))
  {
    hide Lists, Indices;
  }

  /** The Add has read the cached list and is about to publish into its entry i when the list has become
      w. */
  lemma {:induction false} ReachTurn(me: string, s: State, w: Tenant, i: nat, p: Published) returns (a: seq<Step>)
    requires AddIsNext(s) && Own(s.cache.nodes, me, i)
    ensures AllInner(a)
    ensures var s1 := Run(me, s, a + [Edit(w), Observe]);
            && !s1.panicked && s1.unseen == [] && s1.cache == w && s1.listed && s1.devices == {} && s1.queue == []
            && s1.work.Publishing? && s1.work.todo != [] && s1.work.todo[0] == i
            && (forall j :: Own(s.cache.nodes, me, j) && j > i ==> j in s1.work.todo)
            && (Lists(w.nodes, me) && (forall e :: e in s.notices ==> Both(me, e)) ==>
                  forall e :: e in s1.notices ==> Both(me, e))
  {
    hide Do, Run;
    assert Lists(s.cache.nodes, me);
    ReadsList(me, s);
    RunOne(me, s, Take);
    IndicesAre(s.cache.nodes, me, 0);
    IndicesAscend(s.cache.nodes, me, 0);
    var s2 := Do(me, s, Take);
    var rest := WalkTo(me, s2, i, p);
    a := [Take] + rest;
    RunMore(me, s, [Take], rest);
    GoTo(me, Run(me, s2, rest), w);
    RunMore(me, s, a, [Edit(w), Observe]);
    hide Lists, Indices;
  }

  // ---------------------------------------------------------------- versions others may write

  /** Everybody else writes versions of vs only. */
  ghost predicate WritesIn(vs: iset<Tenant>, steps: seq<Step>) {
    forall i :: 0 <= i < |steps| && steps[i].Edit? ==> steps[i].t in vs
  }

  /** Neither is a publication given up nor the pool emptied. */
  predicate Calmly(steps: seq<Step>) {
    forall i :: 0 <= i < |steps| ==> !steps[i].GiveUpAdd? && !steps[i].OtherTenants?
  }

  /** The first Add finds no entry; the node joins with v, and the Add re-enqueued for it is next. */
  lemma {:induction false} JoinsWith(me: string, t: Tenant, v: Tenant, free: nat)
    requires !Lists(t.nodes, me) && Lists(v.nodes, me)
    ensures Run(me, Start(t, free), [Take] + [Edit(v), Observe] + [Deliver, Take]) == Start(v, free)
  {
    var s0 := Start(t, free);
    var s1 := s0.(queue := []);
    assert Do(me, s0, Take) == s1 by { hide Lists, Indices; }
    RunOne(me, s0, Take);
    RunMore(me, s0, [Take], [Edit(v), Observe]);
    GoTo(me, s1, v);
    RunMore(me, s0, [Take] + [Edit(v), Observe], [Deliver, Take]);
    RunTwo(me, Moved(s1, v), Deliver, Take);
    hide Run;
    assert t.nodes != v.nodes;
    TakesJoin(me, s1, t, v);
  }

  lemma {:induction false} TakesJoin(me: string, s: State, t: Tenant, v: Tenant)
    requires s.queue == [] && s.notices == [] && s.cache == t && s.work.Idle? && !s.panicked
    requires !Lists(t.nodes, me) && Lists(v.nodes, me)
    ensures Do(me, Do(me, Moved(s, v), Deliver), Take) == s.(cache := v, queue := [Add])
  {
    hide Lists, ReadyPeer;
    assert t.nodes != v.nodes;
    assert Do(me, Moved(s, v), Deliver).queue == [Update(t, v)];
  }

  /** The initial version, or one that others may write. */
  ghost predicate Source(t: Tenant, vs: iset<Tenant>, v: Tenant) {
    v == t || v in vs
  }

  /** Whatever version lists the node, an Add may come to read it. */
  lemma {:induction false} ReachAdd(
      me: string, t: Tenant, vs: iset<Tenant>, v: Tenant, free: nat) returns (a: seq<Step>)
    requires free > 0 && Source(t, vs, v) && Lists(v.nodes, me)
    ensures WritesIn(vs, a) && Calmly(a)
    ensures var s := Run(me, Start(t, free), a);
            AddIsNext(s) && s.cache == v && forall e :: e in s.notices ==> Both(me, e)
  {
    hide Do, Run, Lists;
    if v == t {
      a := [];
      RunNone(me, Start(t, free));
    } else if Lists(t.nodes, me) {
      a := [Edit(v), Observe];
      GoTo(me, Start(t, free), v);
    } else {
      a := [Take] + [Edit(v), Observe] + [Deliver, Take];
      JoinsWith(me, t, v, free);
    }
  }

  // ---------------------------------------------------------------- where every publication lands

  /** Where a publication lands when the list becomes w between the reading of the cached list and the turn
      of its entry i: on the publisher's entry if and only if w has its name at i, under another name if
      and only if w has that name at i, and fatally if and only if w is too short. Every case has its
      run. */
  lemma {:induction false} PublicationLands(me: string, s: State, w: Tenant, i: nat, p: Published)
    returns (a: seq<Step>)
    requires AddIsNext(s) && Own(s.cache.nodes, me, i)
    ensures AllInner(a)
    ensures var before := Run(me, s, a + [Edit(w), Observe]);
            var after := Run(me, s, a + [Edit(w), Observe] + [Attempt(p)]);
            && before.cache == w
            && (Lands(before, after, i, p, me, OwnEntry) <==> Own(w.nodes, me, i))
            && (forall name :: Lands(before, after, i, p, me, OtherEntry(name)) <==>
                                 i < |w.nodes| && w.nodes[i].name == name != me)
            && (Lands(before, after, i, p, me, Died) <==> i >= |w.nodes|)
  {
    hide Run, Lands;
    a := ReachTurn(me, s, w, i, p);
    var b := a + [Edit(w), Observe];
    AttemptLands(me, Run(me, s, b), p);
    RunOn(me, s, b, Attempt(p));
  }

  /** An entry put in front of the list while the first Add runs: the addresses go out under its name. */
  lemma {:induction false} ShiftedListMispublishes(
      me: string, t: Tenant, x: NodeEntry, free: nat, p: Published) returns (a: seq<Step>)
    requires free > 0 && t.nodes != [] && t.nodes[0].name == me && x.name != me
    ensures var w := t.(nodes := [x] + t.nodes);
            var s := Run(me, Start(t, free), a + [Edit(w), Observe] + [Attempt(p)]);
            !s.panicked && Newest(s).nodes == [Entry(x.name, p)] + t.nodes
  {
    var w, s0 := t.(nodes := [x] + t.nodes), Start(t, free);
    a := PublicationLands(me, s0, w, 0, p);
    hide Run;
    var s := Run(me, s0, a + [Edit(w), Observe]);
    var s1 := Run(me, s0, a + [Edit(w), Observe] + [Attempt(p)]);
    assert Lands(s, s1, 0, p, me, OtherEntry(x.name));
    assert Newest(s1).nodes == [Entry(x.name, p)] + t.nodes;
  }

  // ---------------------------------------------------------------- lists seen

  /** The list has the names of a version of vs: that version itself, or one that this node has published
      into or reverted. */
  ghost predicate Known(vs: iset<Tenant>, nodes: seq<NodeEntry>) {
    exists v :: v in vs && SameNames(v.nodes, nodes)
  }

  ghost predicate AllOwn(me: string, todo: seq<nat>, v: Tenant) {
    forall i :: i in todo ==> Own(v.nodes, me, i)
  }

  /** The initial list is not left yet: all lists up to the first one written by others have its names. */
  ghost predicate AtFirst(t: Tenant, vs: iset<Tenant>, s: State) {
    && SameNames(t.nodes, s.cache.nodes)
    && forall j :: 0 <= j < |s.unseen| ==>
         Known(vs, s.unseen[j].nodes) || forall i :: 0 <= i <= j ==> SameNames(t.nodes, s.unseen[i].nodes)
  }

  /** It is left, for good. */
  ghost predicate Later(vs: iset<Tenant>, s: State) {
    Known(vs, s.cache.nodes) && forall u :: u in s.unseen ==> Known(vs, u.nodes)
  }

  /** Every list seen has the names of the initial one or, from some version on, of one of vs; the entries
      to publish into were this node's own in one of them. */
  ghost predicate KnownInv(me: string, t: Tenant, vs: iset<Tenant>, s: State) {
    && (s.work.Publishing? ==>
          Ascending(s.work.todo) && exists v :: Source(t, vs, v) && AllOwn(me, s.work.todo, v))
    && (Later(vs, s) || (AtFirst(t, vs, s) && (s.work.Publishing? ==> AllOwn(me, s.work.todo, t))))
  }

  lemma {:induction false} KnownVersion(vs: iset<Tenant>, t: Tenant)
    requires t in vs
    ensures Known(vs, t.nodes)
  {
    assert SameNames(t.nodes, t.nodes);
  }

  lemma {:induction false} KnownSame(vs: iset<Tenant>, a: seq<NodeEntry>, b: seq<NodeEntry>)
    requires Known(vs, a) && SameNames(a, b)
    ensures Known(vs, b)
  {
    var v :| v in vs && SameNames(v.nodes, a);
    assert SameNames(v.nodes, b);
  }

  lemma {:induction false} ReadsOwn(me: string, v: Tenant, nodes: seq<NodeEntry>)
    requires SameNames(v.nodes, nodes)
    ensures AllOwn(me, Indices(nodes, me, 0), v) && Ascending(Indices(nodes, me, 0))
  {
    IndicesAre(nodes, me, 0);
    IndicesAscend(nodes, me, 0);
  }

  /** What the worker leaves of the lists and of the entries to publish into. */
  lemma {:induction false} WorkShape(me: string, s: State, step: Step)
    requires WorkerStep(step)
    ensures var s1 := Do(me, s, step);
            && s1.cache == s.cache && s1.notices == s.notices
            && (s1.unseen == s.unseen ||
                  (s.unseen == [] && |s1.unseen| == 1 && SameNames(s.cache.nodes, s1.unseen[0].nodes)))
            && (s1.work.Publishing? ==>
                  || s1.work.todo == Indices(s.cache.nodes, me, 0)
                  || (s.work.Publishing? && (s1.work == s.work ||
                        (s.work.todo != [] && s1.work.todo == s.work.todo[1..]))))
  {
    hide Lists, ReadyPeer, Indices;
  }

  /** What becomes of the entries to publish into. */
  lemma {:induction false} TodoStep(me: string, t: Tenant, vs: iset<Tenant>, s: State, step: Step, v: Tenant)
    requires WorkerStep(step) && Do(me, s, step).work.Publishing?
    requires s.work.Publishing? ==> Ascending(s.work.todo) && AllOwn(me, s.work.todo, v)
    ensures var todo := Do(me, s, step).work.todo;
            && Ascending(todo)
            && (AllOwn(me, todo, v) || todo == Indices(s.cache.nodes, me, 0))
  {
    WorkShape(me, s, step);
    IndicesAscend(s.cache.nodes, me, 0);
    hide Do, Indices, Own;
    if s.work.Publishing? && s.work.todo != [] {
      assert forall i :: i in s.work.todo[1..] ==> i in s.work.todo;
    }
  }

  lemma {:induction false} KnownWork(me: string, t: Tenant, vs: iset<Tenant>, s: State, step: Step)
    requires KnownInv(me, t, vs, s) && WorkerStep(step)
    ensures KnownInv(me, t, vs, Do(me, s, step))
  {
    WorkShape(me, s, step);
    var s1 := Do(me, s, step);
    var w: Tenant;
    if Later(vs, s) {
      w :| w in vs && SameNames(w.nodes, s.cache.nodes);
      LaterWork(vs, s, s1);
    } else {
      w := t;
      FirstWork(t, vs, s, s1);
    }
    ReadsOwn(me, w, s.cache.nodes);
    if s1.work.Publishing? {
      var v := t;
      if s.work.Publishing? && Later(vs, s) {
        v :| Source(t, vs, v) && AllOwn(me, s.work.todo, v);
      }
      TodoStep(me, t, vs, s, step, v);
      assert AllOwn(me, s1.work.todo, v) || AllOwn(me, s1.work.todo, w);
      hide Do, Indices, SameNames, Known, Own, AllOwn, Later, AtFirst;
      assert Source(t, vs, v) && Source(t, vs, w);
    }
  }

  lemma {:induction false} LaterWork(vs: iset<Tenant>, s: State, s1: State)
    requires Later(vs, s) && s1.cache == s.cache
    requires s1.unseen == s.unseen || (|s1.unseen| == 1 && SameNames(s.cache.nodes, s1.unseen[0].nodes))
    ensures Later(vs, s1)
  {
    if s1.unseen != s.unseen {
      KnownSame(vs, s.cache.nodes, s1.unseen[0].nodes);
      hide Known;
    }
  }

  lemma {:induction false} FirstWork(t: Tenant, vs: iset<Tenant>, s: State, s1: State)
    requires AtFirst(t, vs, s) && s1.cache == s.cache
    requires s1.unseen == s.unseen || (|s1.unseen| == 1 && SameNames(s.cache.nodes, s1.unseen[0].nodes))
    ensures AtFirst(t, vs, s1)
  {
  }

  lemma {:induction false} FirstObserves(t: Tenant, vs: iset<Tenant>, s: State, s1: State)
    requires AtFirst(t, vs, s) && s.unseen != [] && s1.cache == s.unseen[0] && s1.unseen == s.unseen[1..]
    ensures AtFirst(t, vs, s1) || Later(vs, s1)
  {
    hide SameNames, Known;
    if SameNames(t.nodes, s.unseen[0].nodes) {
      forall j | 0 <= j < |s1.unseen|
        ensures Known(vs, s1.unseen[j].nodes) || forall i :: 0 <= i <= j ==> SameNames(t.nodes, s1.unseen[i].nodes)
      {
        assert s1.unseen[j] == s.unseen[j + 1];
        assert forall i :: 0 <= i <= j ==> s1.unseen[i] == s.unseen[i + 1];
      }
    } else {
      assert forall j :: 0 <= j < |s.unseen| ==> Known(vs, s.unseen[j].nodes);
    }
  }

  lemma {:induction false} KnownStep(me: string, t: Tenant, vs: iset<Tenant>, s: State, step: Step)
    requires KnownInv(me, t, vs, s) && (step.Edit? ==> step.t in vs)
    ensures KnownInv(me, t, vs, Do(me, s, step))
  {
    if WorkerStep(step) {
      KnownWork(me, t, vs, s, step);
    } else {
      var s1 := Do(me, s, step);
      if step.Edit? {
        KnownVersion(vs, step.t);
      } else if step.Observe? && s.unseen != [] && AtFirst(t, vs, s) {
        FirstObserves(t, vs, s, s1);
      }
      hide Known, SameNames, AllOwn, Source;
    }
  }

  lemma {:induction false} KnownRun(me: string, t: Tenant, vs: iset<Tenant>, free: nat, steps: seq<Step>)
    requires WritesIn(vs, steps)
    ensures KnownInv(me, t, vs, Run(me, Start(t, free), steps))
  {
    if steps != [] {
      var n := |steps| - 1;
      assert WritesIn(vs, steps[..n]);
      KnownRun(me, t, vs, free, steps[..n]);
      hide KnownInv;
      KnownStep(me, t, vs, Run(me, Start(t, free), steps[..n]), steps[n]);
    }
  }

  // ---------------------------------------------------------------- publications of every run

  /** The next publication would go into an entry of this node. */
  predicate OnTarget(me: string, s: State) {
    !s.panicked && s.work.Publishing? && s.work.todo != [] ==> Own(s.cache.nodes, me, s.work.todo[0])
  }

  ghost predicate AlwaysOnTarget(me: string, vs: iset<Tenant>, t: Tenant, free: nat) {
    forall steps :: WritesIn(vs, steps) ==> OnTarget(me, Run(me, Start(t, free), steps))
  }

  /** The places of this node in the initial version and in those that others may write are its places in
      all that others may write. */
  ghost predicate SamePlaces(me: string, t: Tenant, vs: iset<Tenant>) {
    forall v, w, i :: Source(t, vs, v) && w in vs && Own(v.nodes, me, i) ==> Own(w.nodes, me, i)
  }

  /** Every publication of every run goes into an entry of the publisher if and only if all versions that
      others may write have this node at the same places, and wherever the initial version has it. */
  lemma {:induction false} OnTargetIff(me: string, t: Tenant, vs: iset<Tenant>, free: nat)
    requires free > 0
    ensures AlwaysOnTarget(me, vs, t, free) <==> SamePlaces(me, t, vs)
  {
    hide Run, OnTarget;
    if SamePlaces(me, t, vs) {
      forall steps | WritesIn(vs, steps) ensures OnTarget(me, Run(me, Start(t, free), steps)) {
        KnownRun(me, t, vs, free, steps);
        SamePlacesOnTarget(me, t, vs, Run(me, Start(t, free), steps));
      }
    } else {
      var v, w, i :| Source(t, vs, v) && w in vs && Own(v.nodes, me, i) && !Own(w.nodes, me, i);
      OffTargetRun(me, vs, t, free, v, w, i);
    }
  }

  lemma {:induction false} SamePlacesOnTarget(me: string, t: Tenant, vs: iset<Tenant>, s: State)
    requires SamePlaces(me, t, vs) && KnownInv(me, t, vs, s)
    ensures OnTarget(me, s)
  {
    if s.work.Publishing? && s.work.todo != [] {
      var i := s.work.todo[0];
      assert i in s.work.todo;
      if Later(vs, s) {
        var v :| Source(t, vs, v) && AllOwn(me, s.work.todo, v);
        var w :| w in vs && SameNames(w.nodes, s.cache.nodes);
        assert Own(w.nodes, me, i);
      }
    }
  }

  lemma {:induction false} OffTargetRun(
      me: string, vs: iset<Tenant>, t: Tenant, free: nat, v: Tenant, w: Tenant, i: nat)
    requires free > 0 && Source(t, vs, v) && w in vs && Own(v.nodes, me, i) && !Own(w.nodes, me, i)
    ensures !AlwaysOnTarget(me, vs, t, free)
  {
    assert Lists(v.nodes, me);
    hide Run, Own;
    var a := ReachAdd(me, t, vs, v, free);
    var s := Run(me, Start(t, free), a);
    var b := ReachTurn(me, s, w, i, Published(0, 0, 0));
    RunMore(me, Start(t, free), a, b + [Edit(w), Observe]);
    var steps := a + (b + [Edit(w), Observe]);
    assert WritesIn(vs, steps);
    assert !OnTarget(me, Run(me, Start(t, free), steps));
  }
}
