/** The ways in which an operator dies, and the exact condition under which it never does. */
module Survival {
  import opened Api
  import opened Membership
  import opened Publications
  import opened SafeVersions

  /** Two versions observed and handed to the queue. */
  lemma {:induction false} TwoVersions(me: string, s: State, a: Tenant, b: Tenant)
    requires s.queue == [] && s.notices == [] && s.unseen == [] && a != s.cache && b != a
    ensures Run(me, s, [Edit(a), Observe] + [Edit(b), Observe] + [Deliver, Deliver]) ==
            s.(cache := b, queue := [Update(s.cache, a), Update(a, b)])
  {
    hide Run, Do;
    var s2 := Moved(Moved(s, a), b);
    GoTo(me, s, a);
    GoTo(me, Moved(s, a), b);
    RunMore(me, s, [Edit(a), Observe], [Edit(b), Observe]);
    DeliverBoth(me, s2);
    RunMore(me, s, [Edit(a), Observe] + [Edit(b), Observe], [Deliver, Deliver]);
    RunTwo(me, s2, Deliver, Deliver);
  }

  /** A node that joins and leaves the list before its worker has run the Add never sets the tenant up,
      and its operator dies on the Delete that follows. */
  lemma {:induction false} QuickRemovalDies(me: string, s: State, now: Tenant, gone: Tenant)
    requires s.queue == [] && s.notices == [] && s.unseen == [] && s.work.Idle? && !s.listed && !s.panicked
    requires !Lists(s.cache.nodes, me) && Lists(now.nodes, me) && !Lists(gone.nodes, me)
    ensures Run(me, s, [Edit(now), Observe] + [Edit(gone), Observe] + [Deliver, Deliver] + [Take, Take] + [Take, Take]).panicked
  {
    hide Run, Do, Lists;
    TwoVersions(me, s, now, gone);
    JoinAndLeave(me, s.(cache := gone, queue := [Update(s.cache, now), Update(now, gone)]), s.cache, now);
    FourTakes(me, s, [Edit(now), Observe] + [Edit(gone), Observe] + [Deliver, Deliver]);
  }

  lemma {:induction false} FourTakes(me: string, s: State, a: seq<Step>)
    ensures Run(me, s, a + [Take, Take] + [Take, Take]) ==
            Do(me, Do(me, Do(me, Do(me, Run(me, s, a), Take), Take), Take), Take)
  {
    RunMore(me, s, a, [Take, Take]);
    RunTwo(me, Run(me, s, a), Take, Take);
    RunMore(me, s, a + [Take, Take], [Take, Take]);
    RunTwo(me, Run(me, s, a + [Take, Take]), Take, Take);
    hide Run, Do;
  }

  lemma {:induction false} DeliverBoth(me: string, s: State)
    requires s.queue == [] && |s.notices| == 2
    ensures Do(me, Do(me, s, Deliver), Deliver) == s.(notices := [], queue := s.notices)
  {
    assert s.notices == [s.notices[0], s.notices[1]];
  }

  /** What the worker makes of a node that joins and leaves the list in one go. */
  lemma {:induction false} JoinAndLeave(me: string, s: State, t: Tenant, now: Tenant)
    requires s.queue == [Update(t, now), Update(now, s.cache)] && s.work.Idle? && !s.listed && !s.panicked
    requires !Lists(t.nodes, me) && Lists(now.nodes, me) && !Lists(s.cache.nodes, me)
    ensures Do(me, Do(me, Do(me, Do(me, s, Take), Take), Take), Take).panicked
  {
    hide Lists, ReadyPeer, Indices;
    var s1 := Do(me, s, Take);
    assert t.nodes != now.nodes && s1 == s.(queue := [Update(now, s.cache), Add]);
    var s2 := Do(me, s1, Take);
    assert now.nodes != s.cache.nodes && s2 == s.(queue := [Add, Delete(now)]);
    var s3 := Do(me, s2, Take);
    assert s3 == s.(queue := [Delete(now)]);
  }

  /** An ordinary join: the list changes once more, and has a published peer, before the Add that the
      join has re-enqueued. The operator dies on that second update, because nothing is set up yet. */
  lemma {:induction false} JoinUnderChangeDies(me: string, s: State, now: Tenant, more: Tenant)
    requires s.queue == [] && s.notices == [] && s.unseen == [] && s.work.Idle? && !s.listed && !s.panicked
    requires !Lists(s.cache.nodes, me) && Lists(now.nodes, me) && Lists(more.nodes, me)
    requires now.nodes != more.nodes && ReadyPeer(more.nodes, me)
    ensures Run(me, s, [Edit(now), Observe] + [Edit(more), Observe] + [Deliver, Deliver] + [Take, Take]).panicked
  {
    JoinThenUpdate(me, s, now, more);
  }

  /** The same with VNI or Prefix edited instead, with or without a change of the list: the second update
      wants to revert them to what no file has recorded yet. */
  lemma {:induction false} JoinUnderRefixDies(me: string, s: State, now: Tenant, more: Tenant)
    requires s.queue == [] && s.notices == [] && s.unseen == [] && s.work.Idle? && !s.listed && !s.panicked
    requires !Lists(s.cache.nodes, me) && Lists(now.nodes, me) && Lists(more.nodes, me)
    requires now.Fixed() != more.Fixed()
    ensures Run(me, s, [Edit(now), Observe] + [Edit(more), Observe] + [Deliver, Deliver] + [Take, Take]).panicked
  {
    JoinThenUpdate(me, s, now, more);
  }

  lemma {:induction false} JoinThenUpdate(me: string, s: State, now: Tenant, more: Tenant)
    requires s.queue == [] && s.notices == [] && s.unseen == [] && s.work.Idle? && !s.listed && !s.panicked
    requires !Lists(s.cache.nodes, me) && Lists(now.nodes, me) && Lists(more.nodes, me)
    requires (now.nodes != more.nodes && ReadyPeer(more.nodes, me)) || now.Fixed() != more.Fixed()
    ensures Run(me, s, [Edit(now), Observe] + [Edit(more), Observe] + [Deliver, Deliver] + [Take, Take]).panicked
  {
    hide Run, Do, Lists, ReadyPeer;
    var a := [Edit(now), Observe] + [Edit(more), Observe] + [Deliver, Deliver];
    TwoVersions(me, s, now, more);
    JoinTakes(me, Run(me, s, a), s.cache, now);
    RunMore(me, s, a, [Take, Take]);
    RunTwo(me, Run(me, s, a), Take, Take);
  }

  lemma {:induction false} JoinTakes(me: string, s: State, t: Tenant, now: Tenant)
    requires s.queue == [Update(t, now), Update(now, s.cache)] && s.work.Idle? && !s.listed && !s.panicked
    requires !Lists(t.nodes, me) && Lists(now.nodes, me) && Lists(s.cache.nodes, me)
    requires (now.nodes != s.cache.nodes && ReadyPeer(s.cache.nodes, me)) || now.Fixed() != s.cache.Fixed()
    ensures Do(me, Do(me, s, Take), Take).panicked
  {
    hide Lists, ReadyPeer, Indices;
    assert t.nodes != now.nodes;
    assert Do(me, s, Take) == s.(queue := [Update(now, s.cache), Add]);
  }

  /** A node that leaves before its first Add has run. */
  lemma {:induction false} LeavesEarlyDies(me: string, t: Tenant, gone: Tenant, free: nat)
    requires Lists(t.nodes, me) && !Lists(gone.nodes, me)
    ensures Run(me, Start(t, free), [Edit(gone), Observe] + [Take, Deliver] + [Take, Take]).panicked
  {
    hide Run, Do, Lists;
    var s0, a := Start(t, free), [Edit(gone), Observe];
    GoTo(me, s0, gone);
    var s1 := Moved(s0, gone);
    LeaveTakes(me, s1, t);
    RunMore(me, s0, a, [Take, Deliver]);
    RunTwo(me, s1, Take, Deliver);
    RunMore(me, s0, a + [Take, Deliver], [Take, Take]);
    RunTwo(me, Do(me, Do(me, s1, Take), Deliver), Take, Take);
  }

  lemma {:induction false} LeaveTakes(me: string, s: State, t: Tenant)
    requires s.queue == [Add] && s.notices == [Update(t, s.cache)] && s.work.Idle? && !s.listed && !s.panicked
    requires Lists(t.nodes, me) && !Lists(s.cache.nodes, me)
    ensures Do(me, Do(me, Do(me, Do(me, s, Take), Deliver), Take), Take).panicked
  {
    hide Lists, ReadyPeer, Indices;
    assert t.nodes != s.cache.nodes;
    var s2 := Do(me, Do(me, s, Take), Deliver);
    assert s2 == s.(notices := [], queue := [Update(t, s.cache)]);
    assert Do(me, s2, Take) == s2.(queue := [Delete(t)]);
  }

  /** An Add dies when the list has become too short for one of the entries that it has read. */
  lemma {:induction false} ShortenedListDies(
      me: string, s: State, w: Tenant, i: nat, p: Published) returns (a: seq<Step>)
    requires AddIsNext(s) && Own(s.cache.nodes, me, i) && i >= |w.nodes|
    ensures AllInner(a) && Run(me, s, a + [Edit(w), Observe] + [Attempt(p)]).panicked
  {
    a := ReachTurn(me, s, w, i, p);
    RunOn(me, s, a + [Edit(w), Observe], Attempt(p));
    hide Run;
  }

  /** The updates on their way to the worker, next one first. */
  function Coming(s: State): seq<Event> {
    s.queue + s.notices
  }

  /** Set up without a device, the operator dies on the first update that changes the list while a
      published peer is in the cached one. */
  lemma {:induction false} NoDeviceDies(me: string, s: State) returns (steps: seq<Step>)
    requires !s.panicked && s.work.Idle? && s.listed && !s.HasDevice()
    requires Lists(s.cache.nodes, me) && ReadyPeer(s.cache.nodes, me)
    requires forall e :: e in Coming(s) ==> Both(me, e)
    requires exists e :: e in Coming(s) && Changes(e)
    ensures AllInner(steps) && Run(me, s, steps).panicked
    decreases |s.notices|, |s.queue|
  {
    hide Do, Run, Lists, ReadyPeer, Both;
    var first: seq<Step>;
    if s.notices != [] {
      first := [Deliver];
      RunOne(me, s, Deliver);
      DeliversNext(me, s);
    } else {
      first := [Take, GiveUpRevert];
      RunTwo(me, s, Take, GiveUpRevert);
      ComingFromQueue(s);
      TakesUpdate(me, s);
    }
    var s1 := Run(me, s, first);
    if s1.panicked {
      steps := first;
    } else {
      hide Coming, Changes;
      var rest := NoDeviceDies(me, s1);
      steps := first + rest;
      RunMore(me, s, first, rest);
    }
  }

  lemma {:induction false} DeliversNext(me: string, s: State)
    requires s.notices != []
    ensures var s1 := Do(me, s, Deliver);
            && Coming(s1) == Coming(s) && |s1.notices| < |s.notices|
            && s1 == s.(notices := s1.notices, queue := s1.queue)
  {
  }

  lemma {:induction false} ComingFromQueue(s: State)
    requires s.notices == [] && Coming(s) != []
    ensures s.queue != [] && s.queue[0] in Coming(s)
    ensures Coming(s.(queue := s.queue[1..])) == s.queue[1..]
    ensures forall e :: e in Coming(s) <==> e == s.queue[0] || e in s.queue[1..]
  {
    assert Coming(s) == s.queue;
  }

  lemma {:induction false} TakesUpdate(me: string, s: State)
    requires Takes(s) && s.listed && !s.HasDevice() && Both(me, s.queue[0])
    requires Lists(s.cache.nodes, me) && ReadyPeer(s.cache.nodes, me)
    ensures var s1 := Do(me, Do(me, s, Take), GiveUpRevert);
            if Changes(s.queue[0]) then s1.panicked else s1 == s.(queue := s.queue[1..])
  {
    hide Lists, ReadyPeer;
  }

  /** An Add on a list that has this node alone brings up no device. */
  lemma {:induction false} LoneAdd(me: string, s: State, p: Published)
    requires !s.panicked && s.unseen == [] && s.devices == {} && Lists(s.cache.nodes, me) && |s.cache.nodes| == 1
    requires s.work == Publishing(Indices(s.cache.nodes, me, 0))
    ensures var s1 := Do(me, Do(me, s, Attempt(p)), Observe);
            && !s1.panicked && s1.unseen == [] && s1.work.Idle? && s1.devices == {} && s1.listed == s.listed
            && s1.queue == s.queue && Lists(s1.cache.nodes, me) && |s1.cache.nodes| == 1
            && (s1.notices == s.notices || s1.notices == s.notices + [Update(s.cache, s1.cache)])
  {
    assert Indices(s.cache.nodes, me, 0) == [0] by {
      assert s.cache.nodes[0].name == me && Indices(s.cache.nodes, me, 1) == [];
    }
    var s1 := Do(me, Do(me, s, Attempt(p)), Observe);
    assert s1.cache.nodes[0].name == me;
  }

  /** An Add that finds this node alone: the operator dies on the next version with a published peer. */
  lemma {:induction false} LoneNodeDies(me: string, s: State, w: Tenant, p: Published) returns (b: seq<Step>)
    requires AddIsNext(s) && Lists(s.cache.nodes, me) && |s.cache.nodes| == 1
    requires Lists(w.nodes, me) && ReadyPeer(w.nodes, me) && forall e :: e in s.notices ==> Both(me, e)
    ensures AllInner(b)
    ensures Run(me, s, [Take] + [Attempt(p), Observe] + [Edit(w), Observe] + b).panicked
  {
    ReadsList(me, s);
    RunOne(me, s, Take);
    var s2 := Do(me, s, Take);
    LoneAdd(me, s2, p);
    RunMore(me, s, [Take], [Attempt(p), Observe]);
    RunTwo(me, s2, Attempt(p), Observe);
    hide Run, Do, Lists, ReadyPeer;
    var s3 := Do(me, Do(me, s2, Attempt(p)), Observe);
    RunMore(me, s, [Take] + [Attempt(p), Observe], [Edit(w), Observe]);
    GoTo(me, s3, w);
    PeerMakesTwo(w.nodes, me);
    var s4 := Moved(s3, w);
    assert Coming(s4) == s3.notices + [Update(s3.cache, w)];
    assert Update(s3.cache, w) in Coming(s4) && Changes(Update(s3.cache, w));
    b := NoDeviceDies(me, s4);
    RunMore(me, s, [Take] + [Attempt(p), Observe] + [Edit(w), Observe], b);
  }

  /** The Add is cut short before it has brought up the device; the next version with a published peer
      is fatal. */
  lemma {:induction false} GivenUpDies(me: string, s: State, w: Tenant) returns (b: seq<Step>)
    requires AddIsNext(s) && Lists(s.cache.nodes, me) && forall e :: e in s.notices ==> Both(me, e)
    requires Lists(w.nodes, me) && ReadyPeer(w.nodes, me) && s.cache.nodes != w.nodes
    ensures AllInner(b)
    ensures Run(me, s, [Take] + [GiveUpAdd] + [Edit(w), Observe] + b).panicked
  {
    ReadsList(me, s);
    RunOne(me, s, Take);
    var s2 := Do(me, s, Take);
    var s3 := Do(me, s2, GiveUpAdd);
    assert s3 == s2.(work := Idle);
    RunOn(me, s, [Take], GiveUpAdd);
    hide Run, Do, Lists, ReadyPeer;
    RunMore(me, s, [Take] + [GiveUpAdd], [Edit(w), Observe]);
    GoTo(me, s3, w);
    var s4 := Moved(s3, w);
    assert Coming(s4) == s3.notices + [Update(s.cache, w)];
    assert Update(s.cache, w) in Coming(s4) && Changes(Update(s.cache, w));
    b := NoDeviceDies(me, s4);
    RunMore(me, s, [Take] + [GiveUpAdd] + [Edit(w), Observe], b);
  }

  /** A publication that is not the last one of its Add, and then the Add is cut short: if the list now
      has a published peer, the node's own publication is fatal to it. */
  lemma {:induction false} CutShortDies(me: string, s: State, p: Published) returns (b: seq<Step>)
    requires !s.panicked && s.unseen == [] && s.listed && s.devices == {} && s.queue == []
    requires s.work.Publishing? && |s.work.todo| > 1 && s.work.todo[0] < |s.cache.nodes|
    requires forall e :: e in s.notices ==> Both(me, e)
    requires Lists(s.cache.nodes, me)
    requires var t1 := PublishInto(s.cache, s.work.todo[0], p); ReadyPeer(t1.nodes, me) && t1.nodes != s.cache.nodes
    ensures AllInner(b)
    ensures Run(me, s, [Attempt(p)] + [GiveUpAdd] + [Observe] + b).panicked
  {
    var t1 := PublishInto(s.cache, s.work.todo[0], p);
    RunOne(me, s, Attempt(p));
    RunOn(me, s, [Attempt(p)], GiveUpAdd);
    RunOn(me, s, [Attempt(p)] + [GiveUpAdd], Observe);
    var s3 := Do(me, Do(me, Do(me, s, Attempt(p)), GiveUpAdd), Observe);
    assert s3 == s.(cache := t1, notices := s.notices + [Update(s.cache, t1)], work := Idle);
    SameNamesLists(me, s.cache.nodes, t1.nodes);
    hide Run, Do, Lists, ReadyPeer, PublishInto;
    assert Coming(s3) == s.notices + [Update(s.cache, t1)];
    assert Update(s.cache, t1) in Coming(s3) && Changes(Update(s.cache, t1));
    b := NoDeviceDies(me, s3);
    RunMore(me, s, [Attempt(p)] + [GiveUpAdd] + [Observe], b);
  }

  // ---------------------------------------------------------------- the exact condition

  /** A fatal run, put together from the way to the Add and what follows. */
  lemma {:induction false} NotSurvives(
      me: string, t: Tenant, vs: iset<Tenant>, givesUp: bool, free: nat, a: seq<Step>, b: seq<Step>)
    requires WritesIn(vs, a) && Calmly(a) && Allowed(vs, givesUp, b)
    requires Run(me, Run(me, Start(t, free), a), b).panicked
    ensures !Survives(me, t, vs, givesUp, free)
  {
    RunMore(me, Start(t, free), a, b);
    assert Allowed(vs, givesUp, a + b);
  }

  /** Some version of vs leaves this node out, the initial one has it. */
  lemma {:induction false} LeavesDies(me: string, t: Tenant, vs: iset<Tenant>, givesUp: bool, free: nat, gone: Tenant)
    requires Lists(t.nodes, me) && gone in vs && !Lists(gone.nodes, me)
    ensures !Survives(me, t, vs, givesUp, free)
  {
    hide Run, Lists, Survives;
    LeavesEarlyDies(me, t, gone, free);
    RunNone(me, Start(t, free));
    NotSurvives(me, t, vs, givesUp, free, [], [Edit(gone), Observe] + [Take, Deliver] + [Take, Take]);
  }

  /** Some version is too short for an entry that an Add may have read. */
  lemma {:induction false} TooShortDies(
      me: string, t: Tenant, vs: iset<Tenant>, givesUp: bool, free: nat, v: Tenant, w: Tenant, i: nat)
    requires free > 0 && Source(t, vs, v) && w in vs && Own(v.nodes, me, i) && i >= |w.nodes|
    ensures !Survives(me, t, vs, givesUp, free)
  {
    assert Lists(v.nodes, me);
    hide Run, Lists, Survives, Start, Own;
    var p := Published(0, 0, 0);
    var a := ReachAdd(me, t, vs, v, free);
    var b := ShortenedListDies(me, Run(me, Start(t, free), a), w, i, p);
    NotSurvives(me, t, vs, givesUp, free, a, b + [Edit(w), Observe] + [Attempt(p)]);
  }

  /** An Add may find this node alone, and a later version has a published peer. */
  lemma {:induction false} AloneDies(
      me: string, t: Tenant, vs: iset<Tenant>, givesUp: bool, free: nat, alone: Tenant, w: Tenant)
    requires free > 0 && Source(t, vs, alone) && Lists(alone.nodes, me) && |alone.nodes| <= 1
    requires w in vs && Lists(w.nodes, me) && ReadyPeer(w.nodes, me)
    ensures !Survives(me, t, vs, givesUp, free)
  {
    AloneIsOne(alone.nodes, me);
    hide Run, Lists, ReadyPeer, Survives, Start;
    var p := Published(0, 0, 0);
    var a := ReachAdd(me, t, vs, alone, free);
    var b := LoneNodeDies(me, Run(me, Start(t, free), a), w, p);
    NotSurvives(me, t, vs, givesUp, free, a, [Take] + [Attempt(p), Observe] + [Edit(w), Observe] + b);
  }

  lemma {:induction false} AloneIsOne(nodes: seq<NodeEntry>, me: string)
    requires Lists(nodes, me) && |nodes| <= 1
    ensures |nodes| == 1
  {
  }

  /** An Add may be given up on one list, and another one has a published peer. */
  lemma {:induction false} CutOffDies(me: string, t: Tenant, vs: iset<Tenant>, free: nat, v: Tenant, w: Tenant)
    requires free > 0 && Source(t, vs, v) && Lists(v.nodes, me)
    requires w in vs && Lists(w.nodes, me) && ReadyPeer(w.nodes, me) && v.nodes != w.nodes
    ensures !Survives(me, t, vs, true, free)
  {
    hide Run, Lists, ReadyPeer, Survives, Start;
    var a := ReachAdd(me, t, vs, v, free);
    var b := GivenUpDies(me, Run(me, Start(t, free), a), w);
    NotSurvives(me, t, vs, true, free, a, [Take] + [GiveUpAdd] + [Edit(w), Observe] + b);
  }

  /** A publication into entry i of w, which is early in v, leaves a published peer. */
  lemma {:induction false} EarlyDies(
      me: string, t: Tenant, vs: iset<Tenant>, free: nat, v: Tenant, w: Tenant, i: nat, j: nat, p: Published)
    requires free > 0 && Source(t, vs, v) && w in vs && Lists(w.nodes, me)
    requires Own(v.nodes, me, i) && Own(v.nodes, me, j) && i < j && i < |w.nodes|
    requires var w1 := PublishInto(w, i, p); ReadyPeer(w1.nodes, me) && w1.nodes != w.nodes
    ensures !Survives(me, t, vs, true, free)
  {
    assert Lists(v.nodes, me);
    hide Run, Lists, ReadyPeer, Start, Survives, PublishInto, Own;
    var a := ReachAdd(me, t, vs, v, free);
    var s := Run(me, Start(t, free), a);
    var first := ReachTurn(me, s, w, i, p);
    first := first + [Edit(w), Observe];
    var s1 := Run(me, s, first);
    assert j in s1.work.todo;
    var b := CutShortDies(me, s1, p);
    RunMore(me, s, first, [Attempt(p)] + [GiveUpAdd] + [Observe] + b);
    NotSurvives(me, t, vs, true, free, a, first + ([Attempt(p)] + [GiveUpAdd] + [Observe] + b));
  }

  /** The same before anything is written by others: the first Add publishes into the initial version. */
  lemma {:induction false} EarlyAtStartDies(
      me: string, t: Tenant, vs: iset<Tenant>, free: nat, i: nat, j: nat, p: Published)
    requires free > 0 && Own(t.nodes, me, i) && Own(t.nodes, me, j) && i < j
    requires var t1 := PublishInto(t, i, p); ReadyPeer(t1.nodes, me) && t1.nodes != t.nodes
    requires forall k :: Own(t.nodes, me, k) ==> k >= i
    ensures !Survives(me, t, vs, true, free)
  {
    assert Lists(t.nodes, me);
    IndicesAre(t.nodes, me, 0);
    IndicesAscend(t.nodes, me, 0);
    var s0 := Start(t, free);
    ReadsList(me, s0);
    RunOne(me, s0, Take);
    var s1 := Do(me, s0, Take);
    assert forall k :: k in s1.work.todo ==> Own(t.nodes, me, k);
    FirstIsLeast(s1.work.todo, i, j);
    hide Run, Lists, ReadyPeer, Survives, PublishInto, Own, Do, Indices;
    var b := CutShortDies(me, s1, p);
    NotSurvives(me, t, vs, true, free, [Take], [Attempt(p)] + [GiveUpAdd] + [Observe] + b);
  }

  lemma {:induction false} FirstIsLeast(todo: seq<nat>, i: nat, j: nat)
    requires Ascending(todo) && i in todo && j in todo && i < j && forall k :: k in todo ==> k >= i
    ensures |todo| > 1 && todo[0] == i
  {
    assert todo[0] in todo;
  }

  /** What is left of the list's peers when another entry is written. */
  lemma {:induction false} PeerStays(nodes: seq<NodeEntry>, me: string, i: nat, p: Published)
    requires i < |nodes| && (nodes[i].name == me ==> ReadyPeer(nodes, me))
    ensures ReadyPeer(nodes[i := Entry(nodes[i].name, p)], me)
  {
    var after := nodes[i := Entry(nodes[i].name, p)];
    if nodes[i].name == me {
      var k :| 0 <= k < |nodes| && nodes[k].name != me && nodes[k].Ready();
      assert after[k] == nodes[k];
    } else {
      assert after[i].name != me && after[i].Ready();
    }
  }

  /** Something to publish that is not there yet. */
  function Fresh(e: NodeEntry, me: string): Published {
    if e == Entry(me, Published(0, 0, 0)) then Published(1, 0, 0) else Published(0, 0, 0)
  }

  lemma {:induction false} FreshChanges(t: Tenant, me: string, i: nat)
    requires Own(t.nodes, me, i) && ReadyPeer(t.nodes, me)
    ensures var t1 := PublishInto(t, i, Fresh(t.nodes[i], me)); ReadyPeer(t1.nodes, me) && t1.nodes != t.nodes
  {
    var p := Fresh(t.nodes[i], me);
    PeerStays(t.nodes, me, i, p);
    hide ReadyPeer;
    assert PublishInto(t, i, p).nodes[i] == Entry(me, p) != t.nodes[i];
  }

  lemma {:induction false} LeastOwn(nodes: seq<NodeEntry>, me: string, i: nat) returns (k: nat)
    requires Own(nodes, me, i)
    ensures Own(nodes, me, k) && k <= i && forall j :: Own(nodes, me, j) ==> j >= k
    decreases i
  {
    if j :| 0 <= j < i && Own(nodes, me, j) {
      k := LeastOwn(nodes, me, j);
    } else {
      k := i;
    }
  }

  /** Always listed, and not safe when publications may be given up: the initial version has a published
      peer and several entries of this node. */
  lemma {:induction false} PeeredStartDies(me: string, t: Tenant, vs: iset<Tenant>, free: nat, i: int)
    requires free > 0 && ReadyPeer(t.nodes, me) && EarlyAt(me, t.nodes, i)
    ensures !Survives(me, t, vs, true, free)
  {
    hide ReadyPeer, Survives;
    var j :| Own(t.nodes, me, i) && Own(t.nodes, me, j) && i < j;
    var k := LeastOwn(t.nodes, me, i);
    FreshChanges(t, me, k);
    EarlyAtStartDies(me, t, vs, free, k, j, Fresh(t.nodes[k], me));
  }

  /** ... or an early publication may go out under another name. */
  lemma {:induction false} StrayDies(me: string, t: Tenant, vs: iset<Tenant>, free: nat, v: Tenant, w: Tenant, i: int)
    requires free > 0 && Source(t, vs, v) && w in vs && Lists(w.nodes, me) && !ReadyPeer(w.nodes, me)
    requires EarlyAt(me, v.nodes, i) && i < |w.nodes| && !Own(w.nodes, me, i)
    ensures !Survives(me, t, vs, true, free)
  {
    hide Survives;
    var j :| Own(v.nodes, me, i) && Own(v.nodes, me, j) && i < j;
    var p := Published(0, 0, 0);
    PeerStays(w.nodes, me, i, p);
    hide ReadyPeer, Lists;
    EarlyDies(me, t, vs, free, v, w, i, j, p);
  }

  /** ... or a later version has a published peer, and the lists are not all one without early entries. */
  lemma {:induction false} PeeredLaterDies(me: string, t: Tenant, vs: iset<Tenant>, free: nat, w: Tenant)
    requires free > 0 && Lists(t.nodes, me) && AllList(me, vs) && w in vs && ReadyPeer(w.nodes, me)
    requires !((forall v :: v in vs ==> v.nodes == t.nodes) && forall i :: !EarlyAt(me, t.nodes, i))
    ensures !Survives(me, t, vs, true, free)
  {
    hide Survives, ReadyPeer, Lists, EarlyAt;
    if w.nodes != t.nodes {
      CutOffDies(me, t, vs, free, t, w);
    } else if v :| v in vs && v.nodes != t.nodes {
      CutOffDies(me, t, vs, free, v, w);
    } else {
      var i :| EarlyAt(me, t.nodes, i);
      PeeredStartDies(me, t, vs, free, i);
    }
  }

  lemma {:induction false} DisturbedDies(me: string, t: Tenant, vs: iset<Tenant>, free: nat)
    requires free > 0 && Lists(t.nodes, me) && Reached(me, t, vs) && !Undisturbed(me, t, vs)
    ensures !Survives(me, t, vs, true, free)
  {
    hide Survives, ReadyPeer, Lists, EarlyAt;
    if w :| w in vs && ReadyPeer(w.nodes, me) {
      PeeredLaterDies(me, t, vs, free, w);
    } else if ReadyPeer(t.nodes, me) && exists i :: EarlyAt(me, t.nodes, i) {
      var i :| EarlyAt(me, t.nodes, i);
      PeeredStartDies(me, t, vs, free, i);
    } else {
      var v, w, i :| Source(t, vs, v) && w in vs && EarlyAt(me, v.nodes, i) && !Own(w.nodes, me, i);
      EarlyIsOwn(me, v.nodes, i);
      StrayDies(me, t, vs, free, v, w, i);
    }
  }

  lemma {:induction false} EarlyIsOwn(me: string, nodes: seq<NodeEntry>, i: int)
    requires EarlyAt(me, nodes, i)
    ensures Own(nodes, me, i)
  {
  }

  lemma {:induction false} StaysOrDies(me: string, t: Tenant, vs: iset<Tenant>, givesUp: bool, free: nat)
    requires free > 0 && Lists(t.nodes, me) && !Stays(me, t, vs, givesUp)
    ensures !Survives(me, t, vs, givesUp, free)
  {
    hide Survives, ReadyPeer, Lists, Undisturbed, Own;
    if gone :| gone in vs && !Lists(gone.nodes, me) {
      LeavesDies(me, t, vs, givesUp, free, gone);
    } else if v, w, i :| Source(t, vs, v) && w in vs && Own(v.nodes, me, i) && i >= |w.nodes| {
      OwnIsIndex(me, v.nodes, i);
      TooShortDies(me, t, vs, givesUp, free, v, w, i);
    } else if givesUp {
      DisturbedDies(me, t, vs, free);
    } else {
      var w :| w in vs && ReadyPeer(w.nodes, me);
      assert forall v :: v in vs ==> Lists(v.nodes, me);
      var alone := t;
      if |t.nodes| > 1 {
        alone :| alone in vs && |alone.nodes| <= 1;
      }
      AloneDies(me, t, vs, givesUp, free, alone, w);
    }
  }

  lemma {:induction false} OwnIsIndex(me: string, nodes: seq<NodeEntry>, i: int)
    requires Own(nodes, me, i)
    ensures i >= 0
  {
  }

  /** What is fatal to a node that belongs with v is fatal to one that joins with v. */
  lemma {:induction false} JoinsAsBelongs(
      me: string, t: Tenant, vs: iset<Tenant>, givesUp: bool, free: nat, v: Tenant)
    requires !Lists(t.nodes, me) && v in vs && Lists(v.nodes, me) && !Survives(me, v, vs, givesUp, free)
    ensures !Survives(me, t, vs, givesUp, free)
  {
    hide Run, Lists;
    var b :| Allowed(vs, givesUp, b) && Run(me, Start(v, free), b).panicked;
    JoinsWith(me, t, v, free);
    NotSurvives(me, t, vs, givesUp, free, [Take] + [Edit(v), Observe] + [Deliver, Take], b);
  }

  /** Two versions between which joining is fatal. */
  lemma {:induction false} JoinWindowDies(
      me: string, t: Tenant, vs: iset<Tenant>, givesUp: bool, free: nat, now: Tenant, more: Tenant)
    requires !Lists(t.nodes, me) && now in vs && more in vs && Lists(now.nodes, me) && Lists(more.nodes, me)
    requires (now.nodes != more.nodes && ReadyPeer(more.nodes, me)) || now.Fixed() != more.Fixed()
    ensures !Survives(me, t, vs, givesUp, free)
  {
    var s0 := Start(t, free);
    assert Do(me, s0, Take) == s0.(queue := []) by { hide Lists, Indices; }
    RunOne(me, s0, Take);
    hide Run, Lists, ReadyPeer, Survives, Do;
    JoinThenUpdate(me, s0.(queue := []), now, more);
    NotSurvives(me, t, vs, givesUp, free, [Take],
                [Edit(now), Observe] + [Edit(more), Observe] + [Deliver, Deliver] + [Take, Take]);
  }

  lemma {:induction false} JoinsOrDies(me: string, t: Tenant, vs: iset<Tenant>, givesUp: bool, free: nat)
    requires free > 0 && !Lists(t.nodes, me) && !NoneLists(me, vs) && !Joins(me, vs, givesUp)
    ensures !Survives(me, t, vs, givesUp, free)
  {
    hide Survives, ReadyPeer, Lists, Stays;
    var inside :| inside in vs && Lists(inside.nodes, me);
    if gone :| gone in vs && !Lists(gone.nodes, me) {
      LeavesDies(me, inside, vs, givesUp, free, gone);
      JoinsAsBelongs(me, t, vs, givesUp, free, inside);
    } else if v :| v in vs && !Stays(me, v, vs, givesUp) {
      StaysOrDies(me, v, vs, givesUp, free);
      JoinsAsBelongs(me, t, vs, givesUp, free, v);
    } else if now, more :| now in vs && more in vs && now.Fixed() != more.Fixed() {
      JoinWindowDies(me, t, vs, givesUp, free, now, more);
    } else {
      var more :| more in vs && ReadyPeer(more.nodes, me);
      var now := OtherList(vs, more);
      JoinWindowDies(me, t, vs, givesUp, free, now, more);
    }
  }

  lemma {:induction false} OtherList(vs: iset<Tenant>, w: Tenant) returns (v: Tenant)
    requires w in vs && !OneList(vs)
    ensures v in vs && v.nodes != w.nodes
  {
    var a, b :| a in vs && b in vs && a.nodes != b.nodes;
    v := if a.nodes != w.nodes then a else b;
  }

  /** With a block in the pool, the operator survives every interleaving of every run that starts with t
      and goes on with versions of vs if and only if these versions are safe, whatever t and vs are; the
      condition is a stricter one when publications may be given up. */
  lemma {:induction false} SurvivesIff(me: string, t: Tenant, vs: iset<Tenant>, givesUp: bool, free: nat)
    requires free > 0
    ensures Survives(me, t, vs, givesUp, free) <==> Safe(me, t, vs, givesUp)
  {
    hide Survives, Stays, Joins, NoneLists, Lists;
    if Safe(me, t, vs, givesUp) {
      SafeSurvives(me, t, vs, givesUp, free);
    } else if Lists(t.nodes, me) {
      StaysOrDies(me, t, vs, givesUp, free);
    } else {
      JoinsOrDies(me, t, vs, givesUp, free);
    }
  }
}
