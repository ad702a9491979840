/** Which versions of the object an operator survives: the condition, and why it is enough. */
module SafeVersions {
  import opened Api
  import opened Membership
  import opened Publications

  /** Others write versions of vs, the pool always has a block, and only if givesUp may a publication fail
      or meet so many conflicts that it is given up. */
  ghost predicate Allowed(vs: iset<Tenant>, givesUp: bool, steps: seq<Step>) {
    WritesIn(vs, steps) && forall i :: 0 <= i < |steps| ==>
      (steps[i].GiveUpAdd? ==> givesUp) && (steps[i].OtherTenants? ==> steps[i].free > 0)
  }

  ghost predicate Survives(me: string, t: Tenant, vs: iset<Tenant>, givesUp: bool, free: nat) {
    forall steps :: Allowed(vs, givesUp, steps) ==> !Run(me, Start(t, free), steps).panicked
  }

  // ---------------------------------------------------------------- the condition

  ghost predicate NoneLists(me: string, vs: iset<Tenant>) {
    forall v :: v in vs ==> !Lists(v.nodes, me)
  }

  ghost predicate AllList(me: string, vs: iset<Tenant>) {
    forall v :: v in vs ==> Lists(v.nodes, me)
  }

  /** Whatever list an Add reads, no later version is too short for one of its entries. */
  ghost predicate LongEnough(me: string, t: Tenant, vs: iset<Tenant>) {
    forall v, w, i :: Source(t, vs, v) && w in vs && Own(v.nodes, me, i) ==> i < |w.nodes|
  }

  ghost predicate Wide(vs: iset<Tenant>) {
    forall v :: v in vs ==> |v.nodes| > 1
  }

  ghost predicate NoReadyPeer(me: string, vs: iset<Tenant>) {
    forall v :: v in vs ==> !ReadyPeer(v.nodes, me)
  }

  ghost predicate OneList(vs: iset<Tenant>) {
    forall v, w :: v in vs && w in vs ==> v.nodes == w.nodes
  }

  ghost predicate OneFixed(vs: iset<Tenant>) {
    forall v, w :: v in vs && w in vs ==> v.Fixed() == w.Fixed()
  }

  /** Entry i is one of this node's, and not its last one. */
  ghost predicate EarlyAt(me: string, nodes: seq<NodeEntry>, i: int) {
    exists j :: Own(nodes, me, i) && Own(nodes, me, j) && i < j
  }

  /** Publications before the last one of an Add go to this node's own entries. */
  ghost predicate EarlyStay(me: string, t: Tenant, vs: iset<Tenant>) {
    forall v, w, i :: Source(t, vs, v) && w in vs && EarlyAt(me, v.nodes, i) ==> Own(w.nodes, me, i)
  }

  /** An Add that is cut short leaves no device. So until the device is up either no list may have a
      published peer, or the list may not change at all. */
  ghost predicate Undisturbed(me: string, t: Tenant, vs: iset<Tenant>) {
    || (NoReadyPeer(me, vs) && EarlyStay(me, t, vs) && (ReadyPeer(t.nodes, me) ==> forall i :: !EarlyAt(me, t.nodes, i)))
    || ((forall v :: v in vs ==> v.nodes == t.nodes) && forall i :: !EarlyAt(me, t.nodes, i))
  }

  /** For a node that the initial version lists: it always belongs to the tenant, at places that all later
      versions reach, and is never alone or never sees a published peer later on; the last clause is
      stricter when publications may be given up. */
  ghost predicate Stays(me: string, t: Tenant, vs: iset<Tenant>, givesUp: bool) {
    && AllList(me, vs) && LongEnough(me, t, vs)
    && if givesUp then Undisturbed(me, t, vs) else (|t.nodes| > 1 && Wide(vs)) || NoReadyPeer(me, vs)
  }

  /** For a node that it does not list: all other versions do, it could stay from each of them on, and
      between joining and its Add nothing is reverted and no peer is installed. */
  ghost predicate Joins(me: string, vs: iset<Tenant>, givesUp: bool) {
    && (forall v :: v in vs ==> Lists(v.nodes, me) && Stays(me, v, vs, givesUp))
    && OneFixed(vs) && (NoReadyPeer(me, vs) || OneList(vs))
  }

  /** The versions alone decide. */
  ghost predicate Safe(me: string, t: Tenant, vs: iset<Tenant>, givesUp: bool) {
    if Lists(t.nodes, me) then Stays(me, t, vs, givesUp) else NoneLists(me, vs) || Joins(me, vs, givesUp)
  }

  // ---------------------------------------------------------------- a node that is never listed

  predicate Outside(me: string, e: Event) {
    e.Add? || (e.Update? && !Lists(e.was.nodes, me) && !Lists(e.now.nodes, me))
  }

  ghost predicate OutsideInv(me: string, s: State) {
    && !s.panicked && s.work.Idle? && !Lists(s.cache.nodes, me)
    && (forall t :: t in s.unseen ==> !Lists(t.nodes, me))
    && (forall e :: e in s.notices ==> Outside(me, e))
    && (forall e :: e in s.queue ==> Outside(me, e))
  }

  lemma {:induction false} OutsideStep(me: string, s: State, step: Step)
    requires OutsideInv(me, s) && (step.Edit? ==> !Lists(step.t.nodes, me))
    ensures OutsideInv(me, Do(me, s, step))
  {
    hide Lists, ReadyPeer, Indices;
    assert s.unseen != [] ==> s.unseen[0] in s.unseen;
    assert s.notices != [] ==> s.notices[0] in s.notices;
    assert s.queue != [] ==> s.queue[0] in s.queue;
  }

  lemma {:induction false} OutsideRun(me: string, t: Tenant, vs: iset<Tenant>, free: nat, steps: seq<Step>)
    requires !Lists(t.nodes, me) && NoneLists(me, vs) && WritesIn(vs, steps)
    ensures OutsideInv(me, Run(me, Start(t, free), steps))
  {
    hide Lists;
    if steps != [] {
      var n := |steps| - 1;
      assert WritesIn(vs, steps[..n]);
      OutsideRun(me, t, vs, free, steps[..n]);
      OutsideStep(me, Run(me, Start(t, free), steps[..n]), steps[n]);
    }
  }

  // ---------------------------------------------------------------- a node that belongs or joins

  /** What the lists seen have in common. */
  ghost predicate Reached(me: string, t: Tenant, vs: iset<Tenant>) {
    AllList(me, vs) && LongEnough(me, t, vs)
  }

  /** No publication finds its entry missing; a list left at its place lists this node. */
  lemma {:induction false} KnownMeans(me: string, t: Tenant, vs: iset<Tenant>, s: State)
    requires Reached(me, t, vs) && KnownInv(me, t, vs, s)
    ensures s.work.Publishing? ==> forall i :: i in s.work.todo ==> i < |s.cache.nodes|
    ensures Later(vs, s) || Lists(t.nodes, me) ==> Lists(s.cache.nodes, me)
    ensures Wide(vs) && (Later(vs, s) || |t.nodes| > 1) ==> |s.cache.nodes| > 1
  {
    var w: Tenant;
    if Later(vs, s) {
      w :| w in vs && SameNames(w.nodes, s.cache.nodes);
      assert Lists(w.nodes, me);
      if s.work.Publishing? {
        var v :| Source(t, vs, v) && AllOwn(me, s.work.todo, v);
        assert forall i :: i in s.work.todo ==> Own(v.nodes, me, i);
      }
    } else {
      w := t;
    }
    SameNamesLists(me, w.nodes, s.cache.nodes);
  }

  lemma {:induction false} SameNamesLists(me: string, a: seq<NodeEntry>, b: seq<NodeEntry>)
    requires SameNames(a, b)
    ensures Lists(a, me) <==> Lists(b, me)
  {
    if k :| 0 <= k < |a| && a[k].name == me {
      assert b[k].name == me;
    }
    if k :| 0 <= k < |b| && b[k].name == me {
      assert a[k].name == me;
    }
  }

  /** An update that changes the list, and has this node before and after, is taken only with the device up
      or without a published peer in the cached list. */
  ghost predicate Shielded(me: string, s: State) {
    Takes(s) && Changes(s.queue[0]) && Both(me, s.queue[0]) && ReadyPeer(s.cache.nodes, me) ==> s.listed && s.HasDevice()
  }

  predicate Resynced(e: Event) {
    e.Update? && e.was == e.now
  }

  lemma {:induction false} FirstOf<T>(q: seq<T>, e: T)
    ensures q != [] ==> q[0] in q && (q + [e])[1..] == q[1..] + [e]
  {
  }

  /** A publication keeps the names. */
  lemma {:induction false} WritesList(me: string, s: State, p: Published)
    ensures var s1 := Do(me, s, Attempt(p));
            && s1.cache == s.cache && s1.queue == s.queue && s1.notices == s.notices && s1.listed == s.listed
            && s1.recorded == s.recorded && s.devices <= s1.devices && s1.free == s.free
            && (s1.unseen == s.unseen ||
                  (s.unseen == [] && |s1.unseen| == 1 && SameNames(s.cache.nodes, s1.unseen[0].nodes)
                   && (s1.unseen[0].Fixed() == s.cache.Fixed() || s.work.Reverting?)))
            && (s1.work.Publishing? ==> s.work.Publishing? && (s.work.todo != [] ==> s1.work.todo != []))
            && (s1.work.Reverting? ==> s.work.Reverting?)
            && (s.work.Idle? ==> s1 == s)
            && (s1.panicked && !s.panicked ==>
                  s.work.Publishing? && s.work.todo != [] && s.work.todo[0] >= |s.cache.nodes|)
  {
  }

  // ---------------------------------------------------------------- a node that always belongs

  /** Either the first Add is still at the head of the queue, or the tenant is set up for good. */
  ghost predicate BelongsInv(me: string, s: State) {
    && !s.panicked
    && Lists(s.cache.nodes, me) && (forall u :: u in s.unseen ==> Lists(u.nodes, me))
    && (forall e :: e in s.notices ==> Both(me, e))
    && (s.listed ==> forall e :: e in s.queue ==> Both(me, e))
    && (!s.listed ==> && s.work.Idle? && s.free > 0 && s.devices == {}
                      && s.queue != [] && s.queue[0].Add? && forall e :: e in s.queue[1..] ==> Both(me, e))
    && (s.work.Publishing? ==> s.listed && s.work.todo != [])
  }

  lemma {:induction false} BelongsEnv(me: string, s: State, step: Step)
    requires BelongsInv(me, s) && !WorkerStep(step)
    requires (step.Edit? ==> Lists(step.t.nodes, me)) && (step.OtherTenants? ==> step.free > 0)
    ensures BelongsInv(me, Do(me, s, step)) && (s.HasDevice() ==> Do(me, s, step).HasDevice())
  {
    hide Lists;
    FirstOf(s.unseen, s.cache);
    if s.notices != [] {
      FirstOf(s.queue, s.notices[0]);
      assert s.notices[0] in s.notices;
    }
  }

  lemma {:induction false} BelongsAdd(me: string, s: State)
    requires BelongsInv(me, s) && !s.listed
    ensures BelongsInv(me, Do(me, s, Take)) && (s.HasDevice() ==> Do(me, s, Take).HasDevice())
  {
    IndicesAre(s.cache.nodes, me, 0);
    var k :| 0 <= k < |s.cache.nodes| && s.cache.nodes[k].name == me;
    assert k in Indices(s.cache.nodes, me, 0);
    hide Both, Lists, Indices;
  }

  lemma {:induction false} BelongsUpdate(me: string, s: State)
    requires BelongsInv(me, s) && s.listed && Takes(s) && Shielded(me, s)
    ensures BelongsInv(me, Do(me, s, Take)) && (s.HasDevice() ==> Do(me, s, Take).HasDevice())
  {
    assert Both(me, s.queue[0]);
    hide Lists, ReadyPeer;
  }

  lemma {:induction false} BelongsTry(me: string, s: State, p: Published)
    requires BelongsInv(me, s)
    requires s.work.Publishing? ==> forall i :: i in s.work.todo ==> i < |s.cache.nodes|
    ensures BelongsInv(me, Do(me, s, Attempt(p))) && (s.HasDevice() ==> Do(me, s, Attempt(p)).HasDevice())
  {
    WritesList(me, s, p);
    assert s.work.Publishing? ==> s.work.todo[0] in s.work.todo;
    var s1 := Do(me, s, Attempt(p));
    if s1.unseen != s.unseen {
      SameNamesLists(me, s.cache.nodes, s1.unseen[0].nodes);
    }
    hide Do, Lists, Both;
  }

  lemma {:induction false} BelongsGivesUp(me: string, s: State, step: Step)
    requires BelongsInv(me, s) && (step.GiveUpAdd? || step.GiveUpRevert?)
    ensures BelongsInv(me, Do(me, s, step)) && (s.HasDevice() ==> Do(me, s, step).HasDevice())
  {
    hide Lists, Both;
  }

  lemma {:induction false} BelongsStep(me: string, t: Tenant, vs: iset<Tenant>, s: State, step: Step)
    requires Reached(me, t, vs) && KnownInv(me, t, vs, s) && BelongsInv(me, s) && Shielded(me, s)
    requires (step.Edit? ==> step.t in vs) && (step.OtherTenants? ==> step.free > 0)
    ensures BelongsInv(me, Do(me, s, step)) && (s.HasDevice() ==> Do(me, s, step).HasDevice())
  {
    KnownMeans(me, t, vs, s);
    if !WorkerStep(step) {
      BelongsEnv(me, s, step);
    } else if step.Attempt? {
      BelongsTry(me, s, step.p);
    } else if step.GiveUpAdd? || step.GiveUpRevert? {
      BelongsGivesUp(me, s, step);
    } else if !s.listed {
      BelongsAdd(me, s);
    } else if Takes(s) {
      BelongsUpdate(me, s);
    } else {
      hide BelongsInv, Reached, KnownInv, Shielded;
    }
  }

  // ---------------------------------------------------------------- a node that joins for good

  /** The node's joining, a resync, or a change that keeps the node and the fields. */
  predicate Harmless(me: string, f: (int, int), e: Event) {
    || Resynced(e)
    || (e.Update? && !Lists(e.was.nodes, me) && Lists(e.now.nodes, me))
    || (Both(me, e) && e.was.Fixed() == e.now.Fixed() == f)
  }

  predicate OneOf(me: string, f: (int, int), u: Tenant) {
    Lists(u.nodes, me) && u.Fixed() == f
  }

  /** Only the node's joining and harmless changes are on their way, and nothing is ever reverted. */
  ghost predicate JoinsInv(me: string, t: Tenant, f: (int, int), s: State) {
    && !s.panicked && !s.work.Reverting?
    && (s.cache == t || OneOf(me, f, s.cache)) && (forall u :: u in s.unseen ==> OneOf(me, f, u))
    && (forall e :: e in s.notices ==> Harmless(me, f, e) && (s.cache == t ==> Resynced(e)))
    && (forall e :: e in s.queue ==> e.Add? || (Harmless(me, f, e) && (s.cache == t ==> Resynced(e))))
    && (!s.listed ==> s.work.Idle? && s.free > 0 && s.devices == {})
    && (s.listed ==> OneOf(me, f, s.cache) && s.recorded == f)
    && (s.work.Publishing? ==> s.listed && s.work.todo != [])
  }

  lemma {:induction false} JoinsEnv(me: string, t: Tenant, f: (int, int), s: State, step: Step)
    requires JoinsInv(me, t, f, s) && !Lists(t.nodes, me) && !WorkerStep(step)
    requires (step.Edit? ==> OneOf(me, f, step.t)) && (step.OtherTenants? ==> step.free > 0)
    ensures JoinsInv(me, t, f, Do(me, s, step)) && (s.HasDevice() ==> Do(me, s, step).HasDevice())
  {
    hide Lists;
    FirstOf(s.unseen, s.cache);
    FirstOf(s.notices, Add);
  }

  lemma {:induction false} JoinsTakesAdd(me: string, t: Tenant, f: (int, int), s: State)
    requires JoinsInv(me, t, f, s) && !Lists(t.nodes, me) && Takes(s) && s.queue[0].Add?
    ensures JoinsInv(me, t, f, Do(me, s, Take)) && (s.HasDevice() ==> Do(me, s, Take).HasDevice())
  {
    if Lists(s.cache.nodes, me) {
      IndicesAre(s.cache.nodes, me, 0);
      var k :| 0 <= k < |s.cache.nodes| && s.cache.nodes[k].name == me;
      assert k in Indices(s.cache.nodes, me, 0);
    }
    hide Harmless, Resynced, Lists, Indices;
  }

  lemma {:induction false} JoinsTakesUpdate(me: string, t: Tenant, f: (int, int), s: State)
    requires JoinsInv(me, t, f, s) && !Lists(t.nodes, me) && Takes(s) && s.queue[0].Update? && Shielded(me, s)
    ensures JoinsInv(me, t, f, Do(me, s, Take)) && (s.HasDevice() ==> Do(me, s, Take).HasDevice())
  {
    var e := s.queue[0];
    assert e in s.queue && Harmless(me, f, e);
    HarmlessTake(me, t, f, s);
    hide Do, Harmless, Resynced, Lists;
  }

  /** What a harmless update does. */
  lemma {:induction false} HarmlessTake(me: string, t: Tenant, f: (int, int), s: State)
    requires Takes(s) && Harmless(me, f, s.queue[0]) && Shielded(me, s) && !Lists(t.nodes, me)
    requires (s.cache == t && Resynced(s.queue[0])) || OneOf(me, f, s.cache)
    ensures var s1 := Do(me, s, Take);
            s1 == s.(queue := s.queue[1..]) || s1 == s.(queue := s.queue[1..] + [Add])
  {
    hide Lists, ReadyPeer;
  }

  lemma {:induction false} JoinsTry(me: string, t: Tenant, f: (int, int), s: State, p: Published)
    requires JoinsInv(me, t, f, s) && !Lists(t.nodes, me)
    requires s.work.Publishing? ==> forall i :: i in s.work.todo ==> i < |s.cache.nodes|
    ensures JoinsInv(me, t, f, Do(me, s, Attempt(p))) && (s.HasDevice() ==> Do(me, s, Attempt(p)).HasDevice())
  {
    WritesList(me, s, p);
    assert s.work.Publishing? ==> s.work.todo[0] in s.work.todo;
    var s1 := Do(me, s, Attempt(p));
    if s1.unseen != s.unseen {
      SameNamesLists(me, s.cache.nodes, s1.unseen[0].nodes);
      assert s.work.Publishing?;
    }
    hide Do, Lists, Harmless, Resynced;
  }

  lemma {:induction false} JoinsGivesUp(me: string, t: Tenant, f: (int, int), s: State, step: Step)
    requires JoinsInv(me, t, f, s) && (step.GiveUpAdd? || step.GiveUpRevert?)
    ensures JoinsInv(me, t, f, Do(me, s, step)) && (s.HasDevice() ==> Do(me, s, step).HasDevice())
  {
    hide OneOf, Harmless, Resynced;
  }

  lemma {:induction false} JoinsStep(me: string, t: Tenant, vs: iset<Tenant>, f: (int, int), s: State, step: Step)
    requires Reached(me, t, vs) && KnownInv(me, t, vs, s) && JoinsInv(me, t, f, s) && Shielded(me, s)
    requires !Lists(t.nodes, me) && (forall v :: v in vs ==> v.Fixed() == f)
    requires (step.Edit? ==> step.t in vs) && (step.OtherTenants? ==> step.free > 0)
    ensures JoinsInv(me, t, f, Do(me, s, step)) && (s.HasDevice() ==> Do(me, s, step).HasDevice())
  {
    KnownMeans(me, t, vs, s);
    if !WorkerStep(step) {
      JoinsEnv(me, t, f, s, step);
    } else if step.Attempt? {
      JoinsTry(me, t, f, s, step.p);
    } else if step.GiveUpAdd? || step.GiveUpRevert? {
      JoinsGivesUp(me, t, f, s, step);
    } else if Takes(s) {
      assert s.queue[0] in s.queue;
      if s.queue[0].Add? {
        JoinsTakesAdd(me, t, f, s);
      } else {
        JoinsTakesUpdate(me, t, f, s);
      }
    } else {
      hide JoinsInv, Reached, KnownInv, Shielded;
    }
  }

  // ---------------------------------------------------------------- why a missing device does no harm

  /** What taking an event does, as far as the lists go. */
  lemma {:induction false} TakeLists(me: string, s: State)
    requires Takes(s) && !Do(me, s, Take).panicked
    ensures var s1 := Do(me, s, Take);
            && s1.cache == s.cache && s1.unseen == s.unseen && s1.notices == s.notices
            && (forall e :: e in s1.queue ==> e in s.queue || e.Add? || e.Delete?)
            && (s1.work.Publishing? ==> s1.work.todo == Indices(s.cache.nodes, me, 0) && s.queue[0].Add?)
            && (s1.work.Reverting? ==> s.queue[0].Update? && !Resynced(s.queue[0]))
            && (s.queue[0].Add? || (s.queue[0].Update? && Resynced(s.queue[0])) ==> s1.queue == s.queue[1..])
  {
    hide Lists, ReadyPeer, Indices;
  }

  /** The outcome of a publication that met no conflict. */
  lemma {:induction false} Publishes(me: string, s: State, p: Published)
    requires !s.panicked && s.unseen == [] && s.work.Publishing? && s.work.todo != [] && s.work.todo[0] < |s.cache.nodes|
    ensures var s1 := Do(me, s, Attempt(p)); var t1 := PublishInto(s.cache, s.work.todo[0], p);
            && (forall u :: u in s1.unseen ==> u == t1)
            && (|s.work.todo| > 1 ==> s1.work == Publishing(s.work.todo[1..]) && s1.devices == s.devices)
            && (|s.work.todo| == 1 ==> s1.work.Idle?)
            && (|s.work.todo| == 1 && |s.cache.nodes| > 1 ==> s1.HasDevice())
  {
  }

  /** The initial version is the one cached, and no change of it is on its way. */
  ghost predicate AtStart(me: string, t: Tenant, s: State) {
    && s.cache == t && !s.work.Reverting?
    && (forall e :: e in s.notices ==> Resynced(e))
    && (forall e :: e in s.queue ==> e.Add? || Resynced(e))
    && (s.work.Publishing? ==> Ascending(s.work.todo) && AllOwn(me, s.work.todo, t))
  }

  /** While the device is missing no list seen has a published peer, but perhaps the initial one while it
      lasts. An Add that will not be given up may be left to itself. */
  ghost predicate Peerless(me: string, t: Tenant, givesUp: bool, s: State) {
    (givesUp || !s.work.Publishing?) && !s.HasDevice() ==>
      && (forall u :: u in s.unseen ==> !ReadyPeer(u.nodes, me))
      && (!ReadyPeer(s.cache.nodes, me) || AtStart(me, t, s))
  }

  lemma {:induction false} PeerlessShields(me: string, t: Tenant, givesUp: bool, s: State)
    requires Peerless(me, t, givesUp, s) && (s.HasDevice() ==> s.listed)
    ensures Shielded(me, s)
  {
    hide ReadyPeer, Both;
    assert Takes(s) ==> s.queue[0] in s.queue;
  }

  lemma {:induction false} PeerlessEnv(me: string, t: Tenant, givesUp: bool, s: State, step: Step)
    requires Peerless(me, t, givesUp, s) && !WorkerStep(step) && (step.Edit? ==> !ReadyPeer(step.t.nodes, me))
    ensures Peerless(me, t, givesUp, Do(me, s, step))
  {
    hide ReadyPeer, AllOwn;
    FirstOf(s.unseen, s.cache);
    FirstOf(s.notices, Add);
  }

  lemma {:induction false} PeerlessTake(me: string, t: Tenant, givesUp: bool, s: State)
    requires Peerless(me, t, givesUp, s) && Takes(s)
    requires !Do(me, s, Take).panicked && (s.HasDevice() ==> Do(me, s, Take).HasDevice())
    ensures Peerless(me, t, givesUp, Do(me, s, Take))
  {
    TakeLists(me, s);
    ReadsOwn(me, s.cache, s.cache.nodes);
    assert s.queue[0] in s.queue;
    hide Do, ReadyPeer, AllOwn, Indices, Resynced;
  }

  /** An early publication leaves no published peer where there was none. */
  lemma {:induction false} EarlyPublishes(me: string, t: Tenant, vs: iset<Tenant>, s: State, p: Published)
    requires EarlyStay(me, t, vs) && KnownInv(me, t, vs, s) && !ReadyPeer(s.cache.nodes, me)
    requires s.work.Publishing? && |s.work.todo| > 1 && s.work.todo[0] < |s.cache.nodes|
    ensures !ReadyPeer(PublishInto(s.cache, s.work.todo[0], p).nodes, me)
  {
    var todo := s.work.todo;
    var i := todo[0];
    assert i in todo && todo[1] in todo;
    if Later(vs, s) {
      var v :| Source(t, vs, v) && AllOwn(me, todo, v);
      assert Own(v.nodes, me, i) && Own(v.nodes, me, todo[1]);
      var w :| w in vs && SameNames(w.nodes, s.cache.nodes);
      assert EarlyAt(me, v.nodes, i);
      assert Own(w.nodes, me, i);
    }
    NoNewPeer(s.cache.nodes, me, i, Entry(me, p));
  }

  lemma {:induction false} NoNewPeer(nodes: seq<NodeEntry>, me: string, i: nat, e: NodeEntry)
    requires i < |nodes| && nodes[i].name == me == e.name && !ReadyPeer(nodes, me)
    ensures !ReadyPeer(nodes[i := e], me)
  {
  }

  /** A list of this node alone has no peer. */
  lemma {:induction false} AloneHasNoPeer(nodes: seq<NodeEntry>, me: string)
    requires Lists(nodes, me) && |nodes| <= 1
    ensures !ReadyPeer(nodes, me)
  {
  }

  lemma {:induction false} StartIsNotEarly(me: string, t: Tenant, s: State)
    requires AtStart(me, t, s) && s.work.Publishing? && |s.work.todo| > 1
    ensures exists i :: EarlyAt(me, t.nodes, i)
  {
    var todo := s.work.todo;
    assert todo[0] in todo && todo[1] in todo;
    assert Own(t.nodes, me, todo[0]) && Own(t.nodes, me, todo[1]);
    assert EarlyAt(me, t.nodes, todo[0]);
  }

  ghost predicate EarlyOk(me: string, t: Tenant, vs: iset<Tenant>) {
    EarlyStay(me, t, vs) && (ReadyPeer(t.nodes, me) ==> forall i :: !EarlyAt(me, t.nodes, i))
  }

  lemma {:induction false} PeerlessPublish(
      me: string, t: Tenant, vs: iset<Tenant>, givesUp: bool, s: State, p: Published)
    requires Peerless(me, t, givesUp, s) && KnownInv(me, t, vs, s) && (givesUp ==> EarlyOk(me, t, vs))
    requires !s.panicked && s.unseen == [] && s.work.Publishing? && s.work.todo != [] && s.work.todo[0] < |s.cache.nodes|
    requires Lists(s.cache.nodes, me)
    ensures Peerless(me, t, givesUp, Do(me, s, Attempt(p)))
  {
    var s1, t1 := Do(me, s, Attempt(p)), PublishInto(s.cache, s.work.todo[0], p);
    WritesList(me, s, p);
    Publishes(me, s, p);
    if !s1.HasDevice() && |s.work.todo| == 1 {
      SameNamesLists(me, s.cache.nodes, t1.nodes);
      AloneHasNoPeer(s.cache.nodes, me);
      AloneHasNoPeer(t1.nodes, me);
      hide Do, ReadyPeer, Lists, PublishInto, AtStart;
    } else if !s1.HasDevice() && givesUp {
      if ReadyPeer(s.cache.nodes, me) {
        StartIsNotEarly(me, t, s);
      } else {
        EarlyPublishes(me, t, vs, s, p);
      }
      hide Do, ReadyPeer, Lists, PublishInto, AtStart, EarlyAt;
    }
  }

  lemma {:induction false} PeerlessWorks(
      me: string, t: Tenant, vs: iset<Tenant>, givesUp: bool, s: State, step: Step)
    requires Peerless(me, t, givesUp, s) && KnownInv(me, t, vs, s) && (givesUp ==> EarlyOk(me, t, vs))
    requires step.Attempt? || step.GiveUpRevert? || (step.GiveUpAdd? && givesUp)
    requires s.work.Publishing? ==> Lists(s.cache.nodes, me) && s.work.todo != []
    requires !Do(me, s, step).panicked
    ensures Peerless(me, t, givesUp, Do(me, s, step))
  {
    if step.Attempt? && s.work.Publishing? && s.unseen == [] {
      PeerlessPublish(me, t, vs, givesUp, s, step.p);
    } else {
      assert Revert(s.cache, s.recorded).nodes == s.cache.nodes;
      hide ReadyPeer, KnownInv, EarlyOk, Lists, AllOwn;
    }
  }

  lemma {:induction false} PeerlessStep(
      me: string, t: Tenant, vs: iset<Tenant>, givesUp: bool, s: State, step: Step)
    requires Peerless(me, t, givesUp, s) && KnownInv(me, t, vs, s) && (givesUp ==> EarlyOk(me, t, vs))
    requires NoReadyPeer(me, vs) && (step.Edit? ==> step.t in vs) && (step.GiveUpAdd? ==> givesUp)
    requires s.work.Publishing? ==> Lists(s.cache.nodes, me) && s.work.todo != []
    requires !Do(me, s, step).panicked && (s.HasDevice() ==> Do(me, s, step).HasDevice())
    ensures Peerless(me, t, givesUp, Do(me, s, step))
  {
    if !WorkerStep(step) {
      PeerlessEnv(me, t, givesUp, s, step);
    } else if !step.Take? {
      PeerlessWorks(me, t, vs, givesUp, s, step);
    } else if Takes(s) {
      PeerlessTake(me, t, givesUp, s);
    } else {
      hide Peerless, KnownInv, EarlyOk;
    }
  }

  /** While the device is missing the list that has this node never changes. */
  ghost predicate Unmoved(me: string, nodes: seq<NodeEntry>, givesUp: bool, s: State) {
    (givesUp || !s.work.Publishing?) && !s.HasDevice() ==>
      && (s.cache.nodes == nodes || !Lists(s.cache.nodes, me))
      && (forall u :: u in s.unseen ==> u.nodes == nodes)
      && (forall e :: e in s.notices ==> !Changes(e) || !Both(me, e))
      && (forall e :: e in s.queue ==> !Changes(e) || !Both(me, e))
  }

  lemma {:induction false} UnmovedShields(me: string, nodes: seq<NodeEntry>, givesUp: bool, s: State)
    requires Unmoved(me, nodes, givesUp, s) && (s.HasDevice() ==> s.listed)
    ensures Shielded(me, s)
  {
    hide ReadyPeer, Both, Lists;
    assert Takes(s) ==> s.queue[0] in s.queue;
  }

  lemma {:induction false} UnmovedEnv(me: string, nodes: seq<NodeEntry>, givesUp: bool, s: State, step: Step)
    requires Unmoved(me, nodes, givesUp, s) && !WorkerStep(step) && (step.Edit? ==> step.t.nodes == nodes)
    ensures Unmoved(me, nodes, givesUp, Do(me, s, step))
  {
    hide Lists;
    FirstOf(s.unseen, s.cache);
    FirstOf(s.notices, Add);
  }

  lemma {:induction false} UnmovedTake(me: string, nodes: seq<NodeEntry>, givesUp: bool, s: State)
    requires Unmoved(me, nodes, givesUp, s) && Takes(s)
    requires !Do(me, s, Take).panicked && (s.HasDevice() ==> Do(me, s, Take).HasDevice())
    ensures Unmoved(me, nodes, givesUp, Do(me, s, Take))
  {
    TakeLists(me, s);
    hide Do, Lists, Indices;
  }

  lemma {:induction false} UnmovedWorks(me: string, nodes: seq<NodeEntry>, givesUp: bool, s: State, step: Step)
    requires Unmoved(me, nodes, givesUp, s)
    requires step.Attempt? || step.GiveUpRevert? || (step.GiveUpAdd? && givesUp)
    requires s.work.Publishing? ==> s.work.todo != [] && |s.cache.nodes| > 1 && (givesUp ==> |s.work.todo| == 1)
    requires s.work.Reverting? ==> Lists(s.cache.nodes, me)
    requires !Do(me, s, step).panicked
    ensures Unmoved(me, nodes, givesUp, Do(me, s, step))
  {
    if step.Attempt? && s.work.Publishing? && s.unseen == [] && !s.panicked {
      WritesList(me, s, step.p);
      AttemptInRange(me, s, step.p);
      Publishes(me, s, step.p);
      hide Do, Lists, Both;
    } else {
      assert Revert(s.cache, s.recorded).nodes == s.cache.nodes;
      hide Lists, Both;
    }
  }

  lemma {:induction false} AttemptInRange(me: string, s: State, p: Published)
    requires !s.panicked && !Do(me, s, Attempt(p)).panicked && s.work.Publishing? && s.work.todo != []
    ensures s.work.todo[0] < |s.cache.nodes|
  {
  }

  lemma {:induction false} UnmovedStep(me: string, nodes: seq<NodeEntry>, givesUp: bool, s: State, step: Step)
    requires Unmoved(me, nodes, givesUp, s) && (step.Edit? ==> step.t.nodes == nodes) && (step.GiveUpAdd? ==> givesUp)
    requires s.work.Publishing? ==> s.work.todo != [] && |s.cache.nodes| > 1 && (givesUp ==> |s.work.todo| == 1)
    requires s.work.Reverting? ==> Lists(s.cache.nodes, me)
    requires !Do(me, s, step).panicked && (s.HasDevice() ==> Do(me, s, step).HasDevice())
    ensures Unmoved(me, nodes, givesUp, Do(me, s, step))
  {
    if !WorkerStep(step) {
      UnmovedEnv(me, nodes, givesUp, s, step);
    } else if !step.Take? {
      UnmovedWorks(me, nodes, givesUp, s, step);
    } else if Takes(s) {
      UnmovedTake(me, nodes, givesUp, s);
    } else {
      hide Unmoved, Lists;
    }
  }

  /** Once the Add is over the device is up. */
  predicate DeviceUp(s: State) {
    s.listed && !s.work.Publishing? ==> s.HasDevice()
  }

  lemma {:induction false} DeviceUpStep(me: string, s: State, step: Step)
    requires BelongsInv(me, s) && DeviceUp(s) && !step.GiveUpAdd? && |s.cache.nodes| > 1
    requires !Do(me, s, step).panicked && (s.HasDevice() ==> Do(me, s, step).HasDevice())
    ensures DeviceUp(Do(me, s, step))
  {
    if step.Take? && Takes(s) && !s.listed {
      AddPublishes(me, s);
    } else if step.Attempt? && s.work.Publishing? && s.unseen == [] {
      AttemptInRange(me, s, step.p);
      Publishes(me, s, step.p);
      hide Lists, Both;
    } else {
      hide Lists, Both, ReadyPeer, Indices;
    }
  }

  lemma {:induction false} AddPublishes(me: string, s: State)
    requires Takes(s) && s.queue[0].Add? && Lists(s.cache.nodes, me) && s.free > 0
    ensures Do(me, s, Take).work.Publishing?
  {
    hide Lists, Indices;
  }

  // ---------------------------------------------------------------- the safe half

  /** The reason why a missing device does no harm: it is never missing, or there is no peer, or no list
      other than nodes. */
  datatype Reason = DeviceFirst | NoPeers | NoMoves(nodes: seq<NodeEntry>)

  ghost predicate Applies(me: string, t: Tenant, vs: iset<Tenant>, givesUp: bool, r: Reason) {
    match r
    case DeviceFirst => !givesUp && Lists(t.nodes, me) && |t.nodes| > 1 && Wide(vs)
    case NoPeers => NoReadyPeer(me, vs) && (givesUp ==> EarlyOk(me, t, vs))
    case NoMoves(nodes) =>
      && |nodes| > 1 && (forall v :: v in vs ==> v.nodes == nodes) && (Lists(t.nodes, me) ==> t.nodes == nodes)
      && (givesUp ==> forall i :: !EarlyAt(me, nodes, i))
  }

  ghost predicate Holds(me: string, t: Tenant, givesUp: bool, r: Reason, s: State) {
    match r
    case DeviceFirst => DeviceUp(s)
    case NoPeers => Peerless(me, t, givesUp, s)
    case NoMoves(nodes) => Unmoved(me, nodes, givesUp, s)
  }

  ghost predicate Alive(me: string, t: Tenant, f: (int, int), s: State) {
    if Lists(t.nodes, me) then BelongsInv(me, s) else JoinsInv(me, t, f, s)
  }

  lemma {:induction false} AliveMeans(me: string, t: Tenant, f: (int, int), s: State)
    requires Alive(me, t, f, s)
    ensures !s.panicked && (s.HasDevice() ==> s.listed)
    ensures s.work.Publishing? ==> Lists(s.cache.nodes, me) && s.work.todo != []
    ensures s.work.Reverting? ==> Lists(s.cache.nodes, me)
  {
    hide Lists, Both, Harmless, Resynced;
  }

  lemma {:induction false} Shields(me: string, t: Tenant, f: (int, int), givesUp: bool, r: Reason, s: State)
    requires Alive(me, t, f, s) && Holds(me, t, givesUp, r, s) && (r.DeviceFirst? ==> Lists(t.nodes, me))
    ensures Shielded(me, s)
  {
    AliveMeans(me, t, f, s);
    match r
    case NoPeers => PeerlessShields(me, t, givesUp, s);
    case NoMoves(nodes) => UnmovedShields(me, nodes, givesUp, s);
    case DeviceFirst => hide Lists, Both, ReadyPeer, Changes;
  }

  /** How wide the list is, and how much of it is left to publish. */
  lemma {:induction false} Widths(
      me: string, t: Tenant, vs: iset<Tenant>, f: (int, int), givesUp: bool, r: Reason, s: State)
    requires Reached(me, t, vs) && KnownInv(me, t, vs, s) && Alive(me, t, f, s) && Applies(me, t, vs, givesUp, r)
    ensures r.DeviceFirst? ==> |s.cache.nodes| > 1
    ensures r.NoMoves? && s.work.Publishing? ==> |s.cache.nodes| > 1 && (givesUp ==> |s.work.todo| == 1)
  {
    AliveMeans(me, t, f, s);
    KnownMeans(me, t, vs, s);
    hide Alive, LongEnough, AllList, ReadyPeer;
    if r.NoMoves? && s.work.Publishing? {
      if !Later(vs, s) {
        SameNamesLists(me, t.nodes, s.cache.nodes);
      }
      if |s.work.todo| > 1 {
        TwoIsEarly(me, t, vs, s);
      }
    }
  }

  lemma {:induction false} TwoIsEarly(me: string, t: Tenant, vs: iset<Tenant>, s: State)
    requires KnownInv(me, t, vs, s) && s.work.Publishing? && |s.work.todo| > 1
    ensures exists v, i :: Source(t, vs, v) && Lists(v.nodes, me) && EarlyAt(me, v.nodes, i)
  {
    var todo := s.work.todo;
    var v :| Source(t, vs, v) && AllOwn(me, todo, v);
    assert todo[0] in todo && todo[1] in todo;
    assert Own(v.nodes, me, todo[0]) && Own(v.nodes, me, todo[1]);
    assert EarlyAt(me, v.nodes, todo[0]);
  }

  lemma {:induction false} ReasonStep(
      me: string, t: Tenant, vs: iset<Tenant>, f: (int, int), givesUp: bool, r: Reason, s: State, step: Step)
    requires Reached(me, t, vs) && KnownInv(me, t, vs, s) && Alive(me, t, f, s)
    requires Applies(me, t, vs, givesUp, r) && Holds(me, t, givesUp, r, s)
    requires (step.Edit? ==> step.t in vs) && (step.GiveUpAdd? ==> givesUp)
    requires !Do(me, s, step).panicked && (s.HasDevice() ==> Do(me, s, step).HasDevice())
    ensures Holds(me, t, givesUp, r, Do(me, s, step))
  {
    AliveMeans(me, t, f, s);
    Widths(me, t, vs, f, givesUp, r, s);
    hide Do, KnownInv, Reached, Lists, ReadyPeer, EarlyOk;
    match r
    case NoPeers => PeerlessStep(me, t, vs, givesUp, s, step);
    case NoMoves(nodes) => UnmovedStep(me, nodes, givesUp, s, step);
    case DeviceFirst => DeviceUpStep(me, s, step);
  }

  lemma {:induction false} AliveStep(me: string, t: Tenant, vs: iset<Tenant>, f: (int, int), s: State, step: Step)
    requires Reached(me, t, vs) && KnownInv(me, t, vs, s) && Alive(me, t, f, s) && Shielded(me, s)
    requires !Lists(t.nodes, me) ==> forall v :: v in vs ==> v.Fixed() == f
    requires (step.Edit? ==> step.t in vs) && (step.OtherTenants? ==> step.free > 0)
    ensures Alive(me, t, f, Do(me, s, step)) && (s.HasDevice() ==> Do(me, s, step).HasDevice())
  {
    hide BelongsInv, JoinsInv, Lists, Do, KnownInv, Reached, Shielded;
    if Lists(t.nodes, me) {
      BelongsStep(me, t, vs, s, step);
    } else {
      JoinsStep(me, t, vs, f, s, step);
    }
  }

  lemma {:induction false} AliveStart(
      me: string, t: Tenant, f: (int, int), free: nat, givesUp: bool, r: Reason, vs: iset<Tenant>)
    requires free > 0 && Applies(me, t, vs, givesUp, r)
    ensures Alive(me, t, f, Start(t, free)) && Holds(me, t, givesUp, r, Start(t, free))
  {
    hide Lists, ReadyPeer, EarlyOk;
  }

  lemma {:induction false} AliveRun(
      me: string, t: Tenant, vs: iset<Tenant>, f: (int, int), givesUp: bool, r: Reason, free: nat, steps: seq<Step>)
    requires free > 0 && Reached(me, t, vs) && Applies(me, t, vs, givesUp, r) && Allowed(vs, givesUp, steps)
    requires !Lists(t.nodes, me) ==> forall v :: v in vs ==> v.Fixed() == f
    ensures var s := Run(me, Start(t, free), steps); Alive(me, t, f, s) && Holds(me, t, givesUp, r, s)
  {
    if steps == [] {
      AliveStart(me, t, f, free, givesUp, r, vs);
    } else {
      var n := |steps| - 1;
      assert Allowed(vs, givesUp, steps[..n]);
      AliveRun(me, t, vs, f, givesUp, r, free, steps[..n]);
      KnownRun(me, t, vs, free, steps[..n]);
      var s, step := Run(me, Start(t, free), steps[..n]), steps[n];
      assert (step.Edit? ==> step.t in vs) && (step.OtherTenants? ==> step.free > 0) && (step.GiveUpAdd? ==> givesUp);
      assert r.DeviceFirst? ==> Lists(t.nodes, me);
      hide Alive, Holds, Applies, Allowed, Reached, KnownInv, Shielded, Do, Lists, Start;
      Shields(me, t, f, givesUp, r, s);
      AliveStep(me, t, vs, f, s, step);
      AliveMeans(me, t, f, Do(me, s, step));
      ReasonStep(me, t, vs, f, givesUp, r, s, step);
    }
  }

  lemma {:induction false} ReasonSurvives(
      me: string, t: Tenant, vs: iset<Tenant>, f: (int, int), givesUp: bool, r: Reason, free: nat)
    requires free > 0 && Reached(me, t, vs) && Applies(me, t, vs, givesUp, r)
    requires !Lists(t.nodes, me) ==> forall v :: v in vs ==> v.Fixed() == f
    ensures Survives(me, t, vs, givesUp, free)
  {
    hide Run, Start, Applies, Reached, Alive, Holds, Lists, Allowed;
    forall steps | Allowed(vs, givesUp, steps) ensures !Run(me, Start(t, free), steps).panicked {
      AliveRun(me, t, vs, f, givesUp, r, free, steps);
      AliveMeans(me, t, f, Run(me, Start(t, free), steps));
    }
  }

  /** Whoever belongs to the list beside a published peer is not alone in it. */
  lemma {:induction false} PeerMakesTwo(nodes: seq<NodeEntry>, me: string)
    requires Lists(nodes, me) && ReadyPeer(nodes, me)
    ensures |nodes| > 1
  {
  }

  /** Where all lists are one, an entry is early in one of them only if it is in that one. */
  lemma {:induction false} OneListStays(me: string, t: Tenant, vs: iset<Tenant>, nodes: seq<NodeEntry>)
    requires (forall v :: v in vs ==> v.nodes == nodes) && (Lists(t.nodes, me) ==> t.nodes == nodes)
    requires forall i :: !EarlyAt(me, nodes, i)
    ensures forall v, i :: Source(t, vs, v) ==> !EarlyAt(me, v.nodes, i)
  {
    assert !Lists(t.nodes, me) ==> forall i :: !Own(t.nodes, me, i);
  }

  lemma {:induction false} StaysAlive(me: string, t: Tenant, vs: iset<Tenant>, givesUp: bool, free: nat)
    requires free > 0 && Lists(t.nodes, me) && Stays(me, t, vs, givesUp)
    ensures Survives(me, t, vs, givesUp, free)
  {
    hide Survives, Lists, ReadyPeer, EarlyAt, LongEnough, AllList;
    if !givesUp {
      ReasonSurvives(me, t, vs, (0, 0), givesUp, if NoReadyPeer(me, vs) then NoPeers else DeviceFirst, free);
    } else if NoReadyPeer(me, vs) && EarlyOk(me, t, vs) {
      ReasonSurvives(me, t, vs, (0, 0), givesUp, NoPeers, free);
    } else {
      OneListStays(me, t, vs, t.nodes);
      var v :| v in vs && ReadyPeer(v.nodes, me);
      PeerMakesTwo(t.nodes, me);
      ReasonSurvives(me, t, vs, (0, 0), givesUp, NoMoves(t.nodes), free);
    }
  }

  /** A node that joins reads what it could stay from. */
  lemma {:induction false} JoinsReached(me: string, t: Tenant, vs: iset<Tenant>, givesUp: bool, v: Tenant)
    requires !Lists(t.nodes, me) && Joins(me, vs, givesUp) && v in vs
    ensures Reached(me, t, vs)
    ensures givesUp ==> forall x :: x in vs ==> Undisturbed(me, x, vs)
  {
    hide ReadyPeer, Undisturbed;
    assert forall i :: !Own(t.nodes, me, i);
    assert LongEnough(me, v, vs);
  }

  lemma {:induction false} JoinsEarly(me: string, t: Tenant, vs: iset<Tenant>, v: Tenant)
    requires !Lists(t.nodes, me) && v in vs && EarlyStay(me, v, vs)
    ensures EarlyOk(me, t, vs)
  {
    assert forall i :: !Own(t.nodes, me, i);
    assert forall i :: !EarlyAt(me, t.nodes, i);
    hide ReadyPeer;
  }

  lemma {:induction false} JoinsAlive(me: string, t: Tenant, vs: iset<Tenant>, givesUp: bool, free: nat, v: Tenant)
    requires free > 0 && !Lists(t.nodes, me) && Joins(me, vs, givesUp) && v in vs
    ensures Survives(me, t, vs, givesUp, free)
  {
    hide Survives, Lists, ReadyPeer, EarlyAt, LongEnough, Reached;
    JoinsReached(me, t, vs, givesUp, v);
    var f := v.Fixed();
    if NoReadyPeer(me, vs) && (givesUp ==> EarlyStay(me, v, vs)) {
      if givesUp {
        JoinsEarly(me, t, vs, v);
      }
      ReasonSurvives(me, t, vs, f, givesUp, NoPeers, free);
    } else if !NoReadyPeer(me, vs) {
      var x :| x in vs && ReadyPeer(x.nodes, me);
      PeerMakesTwo(x.nodes, me);
      assert v.nodes == x.nodes;
      ReasonSurvives(me, t, vs, f, givesUp, NoMoves(v.nodes), free);
    } else {
      OneListStays(me, v, vs, v.nodes);
    }
  }

  /** The safe half. */
  lemma {:induction false} SafeSurvives(me: string, t: Tenant, vs: iset<Tenant>, givesUp: bool, free: nat)
    requires free > 0 && Safe(me, t, vs, givesUp)
    ensures Survives(me, t, vs, givesUp, free)
  {
    hide Run, Start, Stays, Joins;
    if Lists(t.nodes, me) {
      StaysAlive(me, t, vs, givesUp, free);
    } else if NoneLists(me, vs) {
      forall steps | Allowed(vs, givesUp, steps) ensures !Run(me, Start(t, free), steps).panicked {
        OutsideRun(me, t, vs, free, steps);
      }
    } else {
      var v :| v in vs && Lists(v.nodes, me);
      JoinsAlive(me, t, vs, givesUp, free, v);
    }
  }
}
