/** What one operator does in the end: it sets a tenant up, undoes edits of VNI and Prefix, takes the device
    down with the tenant, and comes to rest. */
module Upkeep {
  import opened Api
  import opened Membership
  import opened Publications
  import opened Survival
  import NodePool

  // ---------------------------------------------------------------- what the worker makes of an event

  /** What an Add makes of the list: the entries of todo show p, the others are as they were. */
  ghost predicate Filled(a: Tenant, b: Tenant, todo: seq<nat>, p: Published) {
    && b.vni == a.vni && b.prefix == a.prefix && |b.nodes| == |a.nodes|
    && forall i :: 0 <= i < |a.nodes| ==> b.nodes[i] == if i in todo then Entry(a.nodes[i].name, p) else a.nodes[i]
  }

  /** Up to its first publication, an Add on a list with this node takes a block, records the VNI and the
      Prefix of the version that it has read, and goes to publish into the own entries of that version, in
      order. It is fatal if and only if there is neither a block nor a tenant set up. */
  lemma {:induction false} AddExact(me: string, s: State)
    requires Takes(s) && s.queue[0].Add? && Lists(s.cache.nodes, me)
    ensures var s1 := Do(me, s, Take);
            && (s1.panicked <==> s.free == 0 && !s.listed)
            && (!s1.panicked ==>
                  && s1.listed && s1.work.Publishing? && Ascending(s1.work.todo)
                  && (forall i :: i in s1.work.todo <==> 0 <= i < |s.cache.nodes| && s.cache.nodes[i].name == me)
                  && s1.devices == s.devices && s1.queue == s.queue[1..] && s1.notices == s.notices
                  && s1.unseen == s.unseen && s1.cache == s.cache)
            && (s.free > 0 ==>
                  s1.recorded.0 == s.cache.vni && s1.recorded.1 == s.cache.prefix && s1.free == s.free - 1)
            && (s.free == 0 ==> s1.recorded == s.recorded && s1.free == 0)
  {
    IndicesAre(s.cache.nodes, me, 0);
    IndicesAscend(s.cache.nodes, me, 0);
    hide Lists, Indices;
  }

  /** A Delete on a list that had this node gives the block back and takes the device on file down; it is
      fatal if and only if the tenant is not set up. */
  lemma {:induction false} DeleteExact(me: string, s: State)
    requires Takes(s) && s.queue[0].Delete? && Lists(s.queue[0].was.nodes, me)
    ensures var s1 := Do(me, s, Take);
            && (s1.panicked <==> !s.listed)
            && (s.listed ==>
                  && !s1.listed && s1.free == s.free + 1
                  && (forall v :: v in s1.devices <==> v in s.devices && v != s.recorded.0)
                  && s1.queue == s.queue[1..] && s1.work.Idle? && s1.notices == s.notices
                  && s1.unseen == s.unseen && s1.cache == s.cache && s1.repeats == s.repeats)
  {
    hide Lists;
  }

  /** The version that an update is compared with: the cached one if the list has changed. */
  function Seen(s: State, was: Tenant, now: Tenant): Tenant {
    if now.nodes != was.nodes then s.cache else now
  }

  predicate Refixed(a: Tenant, b: Tenant) {
    a.vni != b.vni || a.prefix != b.prefix
  }

  /** An update between lists with this node starts a revert if and only if VNI or Prefix has changed, and
      does nothing else to the controller. It is fatal if and only if it wants to install peers without a
      device or to revert without a file. */
  lemma {:induction false} UpdateExact(me: string, s: State, was: Tenant, now: Tenant)
    requires Takes(s) && s.queue[0] == Update(was, now) && Lists(was.nodes, me) && Lists(now.nodes, me)
    ensures var s1 := Do(me, s, Take); var seen := Seen(s, was, now);
            var asks := Lists(seen.nodes, me) && Refixed(seen, was);
            && s1 == s.(queue := s.queue[1..], work := s1.work, panicked := s1.panicked)
            && (s1.panicked <==> || (now.nodes != was.nodes && ReadyPeer(s.cache.nodes, me) &&
                                     !(s.listed && s.recorded.0 in s.devices))
                                 || (asks && !s.listed))
            && (!s1.panicked ==> s1.work == if asks then Reverting else Idle)
  {
    hide Lists, ReadyPeer;
  }

  /** What does not concern this node changes nothing; joining and leaving are re-enqueued at the tail, and
      nothing else happens. */
  lemma {:induction false} OthersExact(me: string, s: State)
    requires Takes(s)
    ensures var e, s1, rest := s.queue[0], Do(me, s, Take), s.queue[1..];
            && (e.Add? && !Lists(s.cache.nodes, me) ==> s1 == s.(queue := rest))
            && (e.Delete? && !Lists(e.was.nodes, me) ==> s1 == s.(queue := rest))
            && (e.Update? && !Lists(e.was.nodes, me) && !Lists(e.now.nodes, me) ==> s1 == s.(queue := rest))
            && (e.Update? && !Lists(e.was.nodes, me) && Lists(e.now.nodes, me) ==> s1 == s.(queue := rest + [Add]))
            && (e.Update? && Lists(e.was.nodes, me) && !Lists(e.now.nodes, me) ==>
                  s1 == s.(queue := rest + [Delete(e.was)]))
  {
    hide ReadyPeer, Indices;
    var e := s.queue[0];
    assert e.Update? && Lists(e.now.nodes, me) != Lists(e.was.nodes, me) ==> e.now.nodes != e.was.nodes;
    hide Lists;
  }

  /** One attempt to publish: nothing at all on a conflict, fatal past the end of the cached list, and
      otherwise a version with p in this entry, under its old name, if the cached one does not have it
      yet. The device on file comes up with the last entry of an Add that is not alone. */
  lemma {:induction false} PublishExact(me: string, s: State, p: Published)
    requires !s.panicked && s.work.Publishing? && s.work.todo != []
    ensures var i, todo, n := s.work.todo[0], s.work.todo, |s.cache.nodes|;
            var s1 := Do(me, s, Attempt(p)); var t := Newest(s1);
            if i >= n then s1 == s.(panicked := true)
            else if s.unseen != [] then s1 == s
            else
              && Filled(s.cache, t, [i], p) && s1.unseen == (if t == s.cache then [] else [t])
              && s1 == s.(unseen := s1.unseen, work := s1.work, devices := s1.devices)
              && s1.work == (if |todo| == 1 then Idle else Publishing(todo[1..]))
              && s1.devices == s.devices + (if |todo| == 1 && n > 1 then {s.recorded.0} else {})
  {
    hide Lists;
  }

  /** A revert that meets no conflict leaves an object with the recorded VNI and Prefix and the list that is
      cached; it makes a version if and only if the cached one has another VNI or Prefix. */
  lemma {:induction false} RevertWrites(me: string, s: State, p: Published)
    requires !s.panicked && s.work.Reverting?
    ensures var s1 := Do(me, s, Attempt(p)); var t := Newest(s1);
            if s.unseen != [] then s1 == s
            else
              && t.vni == s.recorded.0 && t.prefix == s.recorded.1 && t.nodes == s.cache.nodes
              && (s1.unseen == if s.cache.vni == s.recorded.0 && s.cache.prefix == s.recorded.1 then [] else [t])
              && s1 == s.(unseen := s1.unseen, work := Idle)
  {
  }

  /** What a revert writes back is what the file of the tenant was created with. */
  lemma {:induction false} RevertsToFile(name: string, t: Tenant, mac: nat, block: int, now: Tenant)
    requires 0 <= block && block + 256 <= 0x1_0000_0000
    ensures var f := NodePool.NewFile(name, t.vni, t.prefix, mac, block);
            Revert(now, NodePool.OnRecord(f)) == Tenant(t.vni, t.prefix, now.nodes)
  {
    NodePool.FileRecords(name, t.vni, t.prefix, mac, block);
  }

  // ---------------------------------------------------------------- setting a tenant up

  /** The tenant is set up as the object has it, and nothing is on its way. */
  ghost predicate Settled(me: string, s: State) {
    && !s.panicked && s.unseen == [] && s.notices == [] && s.queue == [] && s.work.Idle?
    && s.listed && Lists(s.cache.nodes, me) && s.recorded == (s.cache.vni, s.cache.prefix)
  }

  /** An update of lists with this node that keeps the fields. */
  predicate Plain(me: string, f: (int, int), e: Event) {
    e.Update? && Lists(e.was.nodes, me) && Lists(e.now.nodes, me) && e.was.Fixed() == e.now.Fixed() == f
  }

  ghost predicate AllPlain(me: string, f: (int, int), q: seq<Event>) {
    forall e :: e in q ==> Plain(me, f, e)
  }

  /** The worker publishes and nobody disturbs it. */
  ghost predicate PublishesAlone(me: string, s: State) {
    && !s.panicked && s.unseen == [] && s.work.Publishing? && s.work.todo != [] && Ascending(s.work.todo)
    && (forall i :: i in s.work.todo ==> i < |s.cache.nodes|)
    && Lists(s.cache.nodes, me) && AllPlain(me, s.cache.Fixed(), s.notices)
  }

  /** All that changes is the list, and what is to be delivered about it. */
  ghost predicate OnlyList(me: string, s: State, s1: State) {
    && s1 == s.(cache := s1.cache, notices := s1.notices, work := s1.work, devices := s1.devices)
    && s1.cache.Fixed() == s.cache.Fixed() && Lists(s1.cache.nodes, me) && AllPlain(me, s.cache.Fixed(), s1.notices)
  }

  lemma {:induction false} PublishNext(me: string, s: State, p: Published)
    requires PublishesAlone(me, s)
    ensures var s1 := Run(me, s, [Attempt(p), Observe]); var todo := s.work.todo;
            && OnlyList(me, s, s1) && Filled(s.cache, s1.cache, [todo[0]], p)
            && (|todo| > 1 ==> PublishesAlone(me, s1) && s1.work.todo == todo[1..] && s1.devices == s.devices)
            && (|todo| == 1 ==>
                  && s1.work.Idle?
                  && s1.devices == s.devices + if |s.cache.nodes| > 1 then {s.recorded.0} else {})
  {
    RunTwo(me, s, Attempt(p), Observe);
    var todo := s.work.todo;
    assert todo[0] in todo && forall i :: i in todo[1..] ==> i in todo;
    var t1 := PublishInto(s.cache, todo[0], p);
    assert Lists(t1.nodes, me) by {
      var k :| 0 <= k < |s.cache.nodes| && s.cache.nodes[k].name == me;
      assert t1.nodes[k].name == me;
    }
    assert t1 == s.cache ==> Filled(s.cache, s.cache, [todo[0]], p);
    hide Run, Lists, Indices;
  }

  lemma {:induction false} FilledMore(a: Tenant, b: Tenant, c: Tenant, todo: seq<nat>, p: Published)
    requires todo != [] && Filled(a, b, [todo[0]], p) && Filled(b, c, todo[1..], p)
    ensures Filled(a, c, todo, p)
  {
    assert forall i :: i in todo <==> i == todo[0] || i in todo[1..];
  }

  /** The publications of an Add, one after the other. */
  lemma {:induction false} PublishAll(me: string, s: State, p: Published) returns (steps: seq<Step>)
    requires PublishesAlone(me, s)
    ensures AllInner(steps)
    ensures var s1 := Run(me, s, steps);
            && OnlyList(me, s, s1) && Filled(s.cache, s1.cache, s.work.todo, p) && s1.work.Idle?
            && s1.devices == s.devices + if |s.cache.nodes| > 1 then {s.recorded.0} else {}
    decreases |s.work.todo|
  {
    hide Run, Lists, Filled, Plain;
    PublishNext(me, s, p);
    steps := [Attempt(p), Observe];
    var todo, s1 := s.work.todo, Run(me, s, steps);
    if |todo| == 1 {
      assert todo == [todo[0]];
    } else {
      FilledSize(s.cache, s1.cache, [todo[0]], p);
      var rest := PublishAll(me, s1, p);
      RunMore(me, s, steps, rest);
      FilledMore(s.cache, s1.cache, Run(me, s1, rest).cache, todo, p);
      steps := steps + rest;
    }
  }

  lemma {:induction false} FilledSize(a: Tenant, b: Tenant, todo: seq<nat>, p: Published)
    requires Filled(a, b, todo, p)
    ensures |a.nodes| == |b.nodes|
  {
  }

  /** Plain updates ask for nothing, as long as there is a device or nobody to reach through it. */
  lemma {:induction false} TakesPlain(me: string, s: State)
    requires Takes(s) && s.listed && Plain(me, s.cache.Fixed(), s.queue[0]) && Lists(s.cache.nodes, me)
    requires s.HasDevice() || !ReadyPeer(s.cache.nodes, me)
    ensures Do(me, s, Take) == s.(queue := s.queue[1..])
  {
    UpdateExact(me, s, s.queue[0].was, s.queue[0].now);
    hide Lists, ReadyPeer, Do;
  }

  lemma {:induction false} DrainsPlain(me: string, s: State) returns (steps: seq<Step>)
    requires !s.panicked && s.work.Idle? && s.queue == [] && s.listed && Lists(s.cache.nodes, me)
    requires s.HasDevice() || !ReadyPeer(s.cache.nodes, me)
    requires AllPlain(me, s.cache.Fixed(), s.notices)
    ensures AllInner(steps) && Run(me, s, steps) == s.(notices := [])
    decreases |s.notices|
  {
    if s.notices == [] {
      steps := [];
      RunNone(me, s);
    } else {
      RunTwo(me, s, Deliver, Take);
      var s1 := Do(me, s, Deliver);
      assert s1 == s.(notices := s.notices[1..], queue := [s.notices[0]]);
      assert s.notices[0] in s.notices && forall e :: e in s.notices[1..] ==> e in s.notices;
      TakesPlain(me, s1);
      var s2 := s.(notices := s.notices[1..]);
      assert Do(me, s1, Take) == s2;
      hide Run, Lists, Do, ReadyPeer, Plain;
      var rest := DrainsPlain(me, s2);
      steps := [Deliver, Take] + rest;
      RunMore(me, s, [Deliver, Take], rest);
    }
  }

  /** A node in the list of a new object sets the tenant up, whatever the list: with nobody else writing, its
      worker comes to a state in which the fields are recorded, every own entry shows what the node
      publishes and no other entry has changed, the device with this VNI is up if the node is not alone,
      one block is gone, and nothing is left to do. */
  lemma {:induction false} SetsUp(me: string, t: Tenant, free: nat, p: Published) returns (steps: seq<Step>)
    requires Lists(t.nodes, me) && free > 0
    ensures AllInner(steps)
    ensures var s := Run(me, Start(t, free), steps);
            && Settled(me, s) && s.recorded == (t.vni, t.prefix) && s.free == free - 1 && s.repeats == 0
            && s.devices == (if |t.nodes| > 1 then {t.vni} else {})
            && |s.cache.nodes| == |t.nodes|
            && forall i :: 0 <= i < |t.nodes| ==>
                 s.cache.nodes[i] == if t.nodes[i].name == me then Entry(me, p) else t.nodes[i]
  {
    var s0 := Start(t, free);
    AddExact(me, s0);
    RunOne(me, s0, Take);
    var s1 := Run(me, s0, [Take]);
    BeginsAlone(me, t, free);
    hide Run, Do, Lists, ReadyPeer, Filled, AllInner, Plain;
    var a := PublishAll(me, s1, p);
    var s2 := Run(me, s1, a);
    HasNoPeer(me, t, s1.work.todo, s2.cache, p);
    var b := DrainsPlain(me, s2);
    RunMore(me, s0, [Take], a);
    RunMore(me, s0, [Take] + a, b);
    steps := [Take] + a + b;
    ThreeInner(Take, a, b);
    FilledIs(me, t, s2.cache, s1.work.todo, p);
  }

  lemma {:induction false} ThreeInner(a: Step, b: seq<Step>, c: seq<Step>)
    requires Inner(a) && AllInner(b) && AllInner(c)
    ensures AllInner([a] + b + c)
  {
  }

  lemma {:induction false} BeginsAlone(me: string, t: Tenant, free: nat)
    requires Lists(t.nodes, me) && free > 0
    ensures var s1 := Do(me, Start(t, free), Take);
            && PublishesAlone(me, s1) && s1.listed && s1.devices == {} && s1.queue == [] && s1.repeats == 0
            && s1.free == free - 1 && s1.recorded == t.Fixed() && s1.cache == t
  {
    AddExact(me, Start(t, free));
    var k :| 0 <= k < |t.nodes| && t.nodes[k].name == me;
    assert k in Do(me, Start(t, free), Take).work.todo;
    hide Lists, Indices;
  }

  /** A list that has this node alone has no peer. */
  lemma {:induction false} HasNoPeer(me: string, t: Tenant, todo: seq<nat>, t1: Tenant, p: Published)
    requires Lists(t.nodes, me) && Filled(t, t1, todo, p)
    ensures |t1.nodes| == |t.nodes| && (|t.nodes| == 1 ==> !ReadyPeer(t1.nodes, me))
  {
  }

  lemma {:induction false} FilledIs(me: string, t: Tenant, t1: Tenant, todo: seq<nat>, p: Published)
    requires Filled(t, t1, todo, p) && forall i :: i in todo <==> 0 <= i < |t.nodes| && t.nodes[i].name == me
    ensures forall i :: 0 <= i < |t.nodes| ==>
              t1.nodes[i] == if t.nodes[i].name == me then Entry(me, p) else t.nodes[i]
    ensures t1.Fixed() == t.Fixed() && |t1.nodes| == |t.nodes|
  {
  }

  // ---------------------------------------------------------------- an edit is undone

  /** An update is delivered to a worker that has nothing else to do, and starts a revert that writes. */
  lemma {:induction false} Reverts(me: string, s: State, was: Tenant, p: Published)
    requires !s.panicked && s.unseen == [] && s.notices == [Update(was, s.cache)] && s.queue == [] && s.work.Idle?
    requires s.listed && Lists(s.cache.nodes, me) && was.nodes == s.cache.nodes && Refixed(s.cache, was)
    ensures Run(me, s, [Deliver, Take] + [Attempt(p)]) ==
            s.(notices := [], unseen := Written(s.cache, s.cache.(vni := s.recorded.0, prefix := s.recorded.1)))
  {
    RunTwo(me, s, Deliver, Take);
    RunOn(me, s, [Deliver, Take], Attempt(p));
    var s1 := Do(me, s, Deliver);
    assert s1 == s.(notices := [], queue := [Update(was, s.cache)]);
    UpdateExact(me, s1, was, s.cache);
    var s2 := Do(me, s1, Take);
    assert s2 == s.(notices := [], work := Reverting);
    RevertWrites(me, s2, p);
    hide Run, Lists, ReadyPeer;
  }

  lemma {:induction false} ObserveOne(me: string, s: State)
    requires |s.unseen| == 1
    ensures Run(me, s, [Observe]) ==
            s.(unseen := [], cache := s.unseen[0], notices := s.notices + [Update(s.cache, s.unseen[0])])
  {
    RunOne(me, s, Observe);
    hide Run;
  }

  /** Whatever VNI and Prefix somebody writes, the operator of a node that is set up writes the old ones
      back, and then everything is as it was. */
  lemma {:induction false} EditIsUndone(me: string, s: State, vni: int, prefix: int, p: Published)
    requires Settled(me, s) && (vni, prefix) != s.recorded
    ensures var edited := s.cache.(vni := vni, prefix := prefix); var revert := [Deliver, Take] + [Attempt(p)];
            Run(me, s, [Edit(edited), Observe] + revert + [Observe] + revert) == s
  {
    hide Run, Lists;
    var t, edited, revert := s.cache, s.cache.(vni := vni, prefix := prefix), [Deliver, Take] + [Attempt(p)];
    var a := [Edit(edited), Observe];
    assert edited != t && edited.(vni := t.vni, prefix := t.prefix) == t;
    GoTo(me, s, edited);
    var s1 := s.(cache := edited, notices := [Update(t, edited)]);
    assert Moved(s, edited) == s1;
    Reverts(me, s1, t, p);
    RunMore(me, s, a, revert);
    var s2 := s.(cache := edited, unseen := [t]);
    assert Run(me, s, a + revert) == s2;
    ObserveOne(me, s2);
    RunMore(me, s, a + revert, [Observe]);
    var s3 := s.(notices := [Update(edited, t)]);
    assert Run(me, s, a + revert + [Observe]) == s3;
    Reverts(me, s3, edited, p);
    RunMore(me, s, a + revert + [Observe], revert);
  }

  // ---------------------------------------------------------------- devices

  /** As long as no Add has run on a tenant that was set up. */
  ghost predicate DevicesOk(s: State) {
    s.repeats == 0 ==>
      && (s.work.Publishing? ==> s.listed)
      && (if s.listed then s.devices <= {s.recorded.0} else s.devices == {})
  }

  lemma {:induction false} DevicesStep(me: string, s: State, step: Step)
    requires DevicesOk(s)
    ensures DevicesOk(Do(me, s, step)) && s.repeats <= Do(me, s, step).repeats
  {
    hide Lists, ReadyPeer, Indices;
  }

  /** On every run without a repeated Add a node without the tenant has no device of it, and a node with it
      has at most the one that its file names. */
  lemma {:induction false} DevicesGo(me: string, t: Tenant, free: nat, steps: seq<Step>)
    requires Run(me, Start(t, free), steps).repeats == 0
    ensures var s := Run(me, Start(t, free), steps);
            (!s.listed ==> s.devices == {}) && (s.listed ==> s.devices <= {s.recorded.0})
  {
    DevicesRun(me, t, free, steps);
  }

  lemma {:induction false} DevicesRun(me: string, t: Tenant, free: nat, steps: seq<Step>)
    ensures DevicesOk(Run(me, Start(t, free), steps))
  {
    if steps != [] {
      var n := |steps| - 1;
      DevicesRun(me, t, free, steps[..n]);
      DevicesStep(me, Run(me, Start(t, free), steps[..n]), steps[n]);
    }
  }

  /** So a node that has left the list, with nothing more to deliver or to process, has no device. */
  lemma {:induction false} LeavesNoDevice(me: string, t: Tenant, free: nat, steps: seq<Step>)
    requires var s := Run(me, Start(t, free), steps);
             s.queue == [] && s.notices == [] && !s.panicked && s.repeats == 0 && !Lists(s.cache.nodes, me)
    ensures var s := Run(me, Start(t, free), steps); !s.listed && s.devices == {}
  {
    MembershipConverges(me, t, free, steps);
    DevicesGo(me, t, free, steps);
    hide Run, Lists;
  }

  /** The node leaves: its worker turns the update into a Delete and runs it. */
  lemma {:induction false} Leaves(me: string, s: State, gone: Tenant)
    requires Settled(me, s) && s.devices <= {s.recorded.0} && !Lists(gone.nodes, me)
    ensures Run(me, s, [Edit(gone), Observe] + [Deliver, Take] + [Take]) ==
            s.(cache := gone, listed := false, devices := {}, free := s.free + 1)
  {
    GoTo(me, s, gone);
    assert gone != s.cache && gone.nodes != s.cache.nodes;
    RunMore(me, s, [Edit(gone), Observe], [Deliver, Take]);
    var s1 := s.(cache := gone, notices := [Update(s.cache, gone)]);
    RunTwo(me, s1, Deliver, Take);
    RunOn(me, s, [Edit(gone), Observe] + [Deliver, Take], Take);
    hide Run, ReadyPeer, Lists;
    var s2 := Do(me, s1, Deliver);
    assert s2 == s1.(notices := [], queue := [Update(s.cache, gone)]);
    var s3 := Do(me, s2, Take);
    assert s3 == s1.(notices := [], queue := [Delete(s.cache)]);
    assert s.devices - {s.recorded.0} == {};
  }

  /** A node that is set up leaves and comes back; its new Add is given up before its device is up. Nothing
      of the old device is left to help: the next list with a published peer is fatal. */
  lemma {:induction false} RejoinGivenUpDies(
      me: string, t: Tenant, free: nat, steps: seq<Step>, gone: Tenant, back: Tenant, w: Tenant) returns (b: seq<Step>)
    requires var s := Run(me, Start(t, free), steps); Settled(me, s) && s.repeats == 0
    requires !Lists(gone.nodes, me) && Lists(back.nodes, me)
    requires Lists(w.nodes, me) && ReadyPeer(w.nodes, me) && back.nodes != w.nodes
    ensures AllInner(b)
    ensures var leave := [Edit(gone), Observe] + [Deliver, Take] + [Take];
            var rejoin := [Edit(back), Observe] + [Deliver, Take];
            Run(me, Run(me, Start(t, free), steps),
                leave + rejoin + ([Take] + [GiveUpAdd] + [Edit(w), Observe] + b)).panicked
  {
    DevicesGo(me, t, free, steps);
    hide Run, Do, Lists, ReadyPeer, AllInner;
    var s := Run(me, Start(t, free), steps);
    var leave, rejoin := [Edit(gone), Observe] + [Deliver, Take] + [Take], [Edit(back), Observe] + [Deliver, Take];
    Leaves(me, s, gone);
    var s1 := s.(cache := gone, listed := false, devices := {}, free := s.free + 1);
    Rejoins(me, s1, back);
    RunMore(me, s, leave, rejoin);
    var s2 := s1.(cache := back, queue := [Add]);
    b := GivenUpDies(me, s2, w);
    RunMore(me, s, leave + rejoin, [Take] + [GiveUpAdd] + [Edit(w), Observe] + b);
  }

  lemma {:induction false} Rejoins(me: string, s: State, back: Tenant)
    requires !s.panicked && s.unseen == [] && s.notices == [] && s.queue == [] && s.work.Idle?
    requires !Lists(s.cache.nodes, me) && Lists(back.nodes, me)
    ensures Run(me, s, [Edit(back), Observe] + [Deliver, Take]) == s.(cache := back, queue := [Add])
  {
    GoTo(me, s, back);
    RunMore(me, s, [Edit(back), Observe], [Deliver, Take]);
    RunTwo(me, Moved(s, back), Deliver, Take);
    TakesJoin(me, s, s.cache, back);
    hide Run, Lists, Do;
  }

  /** The exception is needed: a node that joins the list before its first Add has run may have that Add set
      the tenant up and a repeated one record another VNI. The device that is up is then not the one on
      file. */
  lemma {:induction false} RepeatLosesDevice(me: string, t: Tenant, v: Tenant, vni: int, free: nat, p: Published)
    requires !Lists(t.nodes, me) && |v.nodes| == 2 && v.nodes[0].name == me != v.nodes[1].name && vni != v.vni && free >= 2
    requires PublishInto(v, 0, p) != v
    ensures var w := PublishInto(v, 0, p).(vni := vni);
            var s := Run(me, Start(t, free), [Edit(v), Observe] + ([Deliver, Take] + [Attempt(p), Observe])
                                             + [Edit(w), Observe] + [Take, Take]);
            s.listed && s.repeats == 1 && s.recorded.0 == vni && s.devices == {v.vni} && !s.panicked
  {
    hide Run, Do, Lists;
    var s0, w, v1 := Start(t, free), PublishInto(v, 0, p).(vni := vni), PublishInto(v, 0, p);
    FirstLists(me, t, v, v1, w);
    var s1 := s0.(cache := v, notices := [Update(t, v)]);
    var a, b := [Edit(v), Observe], [Deliver, Take] + [Attempt(p), Observe];
    GoTo(me, s0, v);
    assert Moved(s0, v) == s1;
    AddsEarly(me, s1, t, p);
    RunFour(me, s1, Deliver, Take, Attempt(p), Observe);
    RunMore(me, s0, a, b);
    var s3 := State([], v1, [Update(v, v1)], [Update(t, v)], Idle, v.Fixed(), true, {v.vni}, free - 1, 0, 0, false);
    assert Run(me, s0, a + b) == s3;
    GoTo(me, s3, w);
    RunMore(me, s0, a + b, [Edit(w), Observe]);
    RunMore(me, s0, a + b + [Edit(w), Observe], [Take, Take]);
    RunTwo(me, Moved(s3, w), Take, Take);
    AddsAgain(me, Moved(s3, w), t, v);
  }

  lemma {:induction false} FirstLists(me: string, t: Tenant, v: Tenant, v1: Tenant, w: Tenant)
    requires !Lists(t.nodes, me) && |v.nodes| == |v1.nodes| == 2 && v.nodes[0].name == v1.nodes[0].name == me
    requires w.nodes == v1.nodes && w.vni != v1.vni
    ensures Lists(v.nodes, me) && Lists(w.nodes, me) && t != v && w != v1
  {
  }

  lemma {:induction false} RunFour(me: string, s: State, a: Step, b: Step, c: Step, d: Step)
    ensures Run(me, s, [a, b] + [c, d]) == Do(me, Do(me, Do(me, Do(me, s, a), b), c), d)
  {
    RunMore(me, s, [a, b], [c, d]);
    RunTwo(me, s, a, b);
    RunTwo(me, Do(me, Do(me, s, a), b), c, d);
  }

  lemma {:induction false} AddsEarly(me: string, s: State, t: Tenant, p: Published)
    requires s == Start(t, s.free).(cache := s.cache, notices := [Update(t, s.cache)]) && s.free >= 2
    requires |s.cache.nodes| == 2 && s.cache.nodes[0].name == me != s.cache.nodes[1].name
    requires PublishInto(s.cache, 0, p) != s.cache
    ensures var v := s.cache; var v1 := PublishInto(v, 0, p);
            Do(me, Do(me, Do(me, Do(me, s, Deliver), Take), Attempt(p)), Observe) ==
            State([], v1, [Update(v, v1)], [Update(t, v)], Idle, v.Fixed(), true, {v.vni}, s.free - 1, 0, 0, false)
  {
    var v := s.cache;
    var s1 := Do(me, s, Deliver);
    assert s1 == s.(notices := [], queue := [Add, Update(t, v)]);
    assert Lists(v.nodes, me);
    assert Indices(v.nodes, me, 0) == [0] by {
      assert Indices(v.nodes, me, 2) == [] && Indices(v.nodes, me, 1) == [];
    }
    hide Lists, Indices;
    var s2 := Do(me, s1, Take);
    assert s2 == s1.(queue := [Update(t, v)], work := Publishing([0]), listed := true, free := s.free - 1, recorded := v.Fixed());
  }

  lemma {:induction false} AddsAgain(me: string, s: State, t: Tenant, v: Tenant)
    requires !s.panicked && s.work.Idle? && s.queue == [Update(t, v)] && s.listed && s.free >= 1 && s.repeats == 0
    requires !Lists(t.nodes, me) && Lists(v.nodes, me) && Lists(s.cache.nodes, me)
    ensures var s1 := Do(me, Do(me, s, Take), Take);
            s1.listed && s1.repeats == 1 && s1.recorded.0 == s.cache.vni && s1.devices == s.devices && !s1.panicked
  {
    hide Lists, Indices, ReadyPeer;
    assert t.nodes != v.nodes;
    assert Do(me, s, Take) == s.(queue := [Add]);
  }

  // ---------------------------------------------------------------- coming to rest

  /** An Add for which other tenants have left no block is fatal. */
  lemma {:induction false} EmptyPoolDies(me: string, s: State)
    requires AddIsNext(s) && Lists(s.cache.nodes, me)
    ensures Run(me, s, [OtherTenants(0), Take]).panicked
  {
    RunTwo(me, s, OtherTenants(0), Take);
    hide Run, Lists;
    AddExact(me, Do(me, s, OtherTenants(0)));
  }

  /** One update for every version, in order. */
  function Updates(from: Tenant, versions: seq<Tenant>): seq<Event>
    decreases |versions|
  {
    if versions == [] then [] else [Update(from, versions[0])] + Updates(versions[0], versions[1..])
  }

  /** The informer sees every version and hands over every change, once and in order; it ends up with the
      newest one. */
  lemma {:induction false} SeesAll(me: string, s: State) returns (steps: seq<Step>)
    ensures AllInner(steps)
    ensures Run(me, s, steps) == s.(unseen := [], cache := Newest(s), notices := s.notices + Updates(s.cache, s.unseen))
    decreases |s.unseen|
  {
    if s.unseen == [] {
      steps := [];
      RunNone(me, s);
    } else {
      RunOne(me, s, Observe);
      hide Run;
      var s1 := Do(me, s, Observe);
      var rest := SeesAll(me, s1);
      steps := [Observe] + rest;
      RunMore(me, s, [Observe], rest);
      assert s.notices + [Update(s.cache, s.unseen[0])] + Updates(s.unseen[0], s.unseen[1..]) ==
             s.notices + ([Update(s.cache, s.unseen[0])] + Updates(s.unseen[0], s.unseen[1..]));
    }
  }

  /** Whatever somebody writes is the newest version then, and the one that the node comes to see. */
  lemma {:induction false} EditArrives(me: string, s: State, t: Tenant) returns (steps: seq<Step>)
    ensures AllInner(steps)
    ensures Newest(Do(me, s, Edit(t))) == t
    ensures var s1 := Run(me, s, [Edit(t)] + steps); s1.cache == t && s1.unseen == [] && s.notices <= s1.notices
  {
    RunOne(me, s, Edit(t));
    hide Run;
    var s1 := Do(me, s, Edit(t));
    steps := SeesAll(me, s1);
    RunMore(me, s, [Edit(t)], steps);
  }

  lemma {:induction false} DeliversAll(me: string, s: State) returns (steps: seq<Step>)
    ensures AllInner(steps) && Run(me, s, steps) == s.(notices := [], queue := s.queue + s.notices)
    decreases |s.notices|
  {
    hide Run, Do;
    if s.notices == [] {
      steps := [];
      RunNone(me, s);
    } else {
      DeliversHead(me, s);
      var s1 := Do(me, s, Deliver);
      RunOne(me, s, Deliver);
      var rest := DeliversAll(me, s1);
      steps := [Deliver] + rest;
      RunMore(me, s, [Deliver], rest);
    }
  }

  lemma {:induction false} DeliversHead(me: string, s: State)
    requires s.notices != []
    ensures var s1 := Do(me, s, Deliver);
            && s1 == s.(notices := s.notices[1..], queue := s.queue + [s.notices[0]])
            && s1.queue + s1.notices == s.queue + s.notices
  {
  }

  /** A resync is one more update, from the cached version to itself; on a settled tenant it comes to
      nothing. */
  lemma {:induction false} ResyncComesToNothing(me: string, s: State)
    ensures Do(me, s, Resync) == s.(notices := s.notices + [Update(s.cache, s.cache)])
    ensures Settled(me, s) ==> Run(me, s, [Resync] + [Deliver, Take]) == s
  {
    if Settled(me, s) {
      RunOne(me, s, Resync);
      RunMore(me, s, [Resync], [Deliver, Take]);
      var s1 := Do(me, s, Resync);
      RunTwo(me, s1, Deliver, Take);
      assert Do(me, s1, Deliver) == s.(queue := [Update(s.cache, s.cache)]);
      hide Run, Lists;
    }
  }

  /** The worker is at rest or has died. */
  predicate AtRest(s: State) {
    s.panicked || (s.queue == [] && s.work.Idle?)
  }

  lemma {:induction false} OneTurn(me: string, s: State) returns (step: Step)
    requires !AtRest(s)
    ensures WorkerStep(step) && !step.Attempt?
    ensures var s1 := Do(me, s, step);
            && s1.unseen == s.unseen && s1.cache == s.cache && s1.notices == s.notices
            && (Weight(s1.queue) < Weight(s.queue) || (s1.queue == s.queue && Jobs(s1.work) < Jobs(s.work)))
  {
    if s.work.Idle? {
      step := Take;
      WeightDrops(me, s);
    } else {
      step := if s.work.Publishing? then GiveUpAdd else GiveUpRevert;
      GiveUpShape(me, s);
    }
    hide Lists, ReadyPeer, Indices, Weight;
  }

  lemma {:induction false} WorksOff(me: string, s: State) returns (steps: seq<Step>)
    ensures forall i :: 0 <= i < |steps| ==> WorkerStep(steps[i])
    ensures var s1 := Run(me, s, steps);
            AtRest(s1) && s1.unseen == s.unseen && s1.cache == s.cache && s1.notices == s.notices
    decreases Weight(s.queue), Jobs(s.work)
  {
    hide Run, Do, Weight, Jobs;
    if AtRest(s) {
      steps := [];
      RunNone(me, s);
    } else {
      var step := OneTurn(me, s);
      RunOne(me, s, step);
      var rest := WorksOff(me, Do(me, s, step));
      steps := [step] + rest;
      RunMore(me, s, [step], rest);
    }
  }

  /** From every state of every run, if nobody else writes any more, the node can come to rest: it has then
      died, or the tenant is set up exactly when the newest version that there was lists the node. */
  lemma {:induction false} ComesToRest(me: string, t: Tenant, free: nat, before: seq<Step>) returns (steps: seq<Step>)
    ensures forall i :: 0 <= i < |steps| ==> !steps[i].Edit? && !steps[i].OtherTenants?
    ensures var s := Run(me, Start(t, free), before); var s1 := Run(me, s, steps);
            && AtRest(s1) && s1.unseen == [] && s1.notices == [] && s1.cache == Newest(s)
            && (!s1.panicked ==> (s1.listed <==> Lists(Newest(s).nodes, me)))
  {
    hide Run, Do, Lists, Weight;
    var s := Run(me, Start(t, free), before);
    var a := SeesAll(me, s);
    var b := DeliversAll(me, Run(me, s, a));
    RunMore(me, s, a, b);
    var c := WorksOff(me, Run(me, s, a + b));
    RunMore(me, s, a + b, c);
    steps := a + b + c;
    RunMore(me, Start(t, free), before, steps);
    if !Run(me, s, steps).panicked {
      MembershipConverges(me, t, free, before + steps);
    }
  }
}
