/** One node's controller and one living Tenant object whose node list is edited at will.

    The API server holds the versions of the object. The informer moves the lister cache on version by
    version and then, later, hands the change to the handler, which appends it to the work queue; a
    single worker takes events from the head. An update that adds or drops this node is not acted on at
    once but re-enqueued at the tail as an Add or a Delete. An Add reads the list once and then publishes
    into each entry that had this node's name, by index, refreshing the object from the cache before
    every attempt; edits, observations and deliveries go on in between. */
module Membership {
  import opened Api

  datatype Event = Add | Update(was: Tenant, now: Tenant) | Delete(was: Tenant)

  /** What the worker is in the middle of: publishing into the entries todo, or reverting fields. */
  datatype Work = Idle | Publishing(todo: seq<nat>) | Reverting

  /** unseen are the versions that the informer has not observed yet, notices the changes that the
      handler has not seen yet. listed says that the tenant has a block and a file on the node, which
      hold the recorded fields; devices has the VNIs of the tenant's VXLAN devices, which are named after
      the tenant and the VNI on file; free counts the blocks left in the
      pool, repeats the Adds that ran on a tenant already set up, lost the blocks that these gave away.
      panicked: the operator died on a missing file, block, device or list entry. */
  datatype State = State(
    unseen: seq<Tenant>, cache: Tenant, notices: seq<Event>, queue: seq<Event>, work: Work,
    recorded: (int, int), listed: bool, devices: set<int>, free: nat, repeats: nat, lost: nat, panicked: bool)
  {
    /** There is a device with the name on file. */
    predicate HasDevice() {
      recorded.0 in devices
    }
  }

  /** Edit is a write by anybody else, users or other nodes; an Attempt publishes p or reverts. */
  datatype Step =
    | Edit(t: Tenant)
    | Observe
    | Resync
    | Deliver
    | OtherTenants(free: nat)
    | Take
    | Attempt(p: Published)
    | GiveUpAdd
    | GiveUpRevert

  predicate WorkerStep(step: Step) {
    step.Take? || step.Attempt? || step.GiveUpAdd? || step.GiveUpRevert?
  }

  /** The object has just been seen for the first time. */
  function Start(t: Tenant, free: nat): State {
    State([], t, [], [Add], Idle, (0, 0), false, {}, free, 0, 0, false)
  }

  function Newest(s: State): Tenant {
    if s.unseen == [] then s.cache else s.unseen[|s.unseen| - 1]
  }

  /** A write that changes nothing makes no version. */
  function Written(latest: Tenant, t: Tenant): seq<Tenant> {
    if t == latest then [] else [t]
  }

  /** The Add up to its first publication. */
  function BeginAdd(me: string, s: State): State {
    if !Lists(s.cache.nodes, me) then s
    else if s.free == 0 && !s.listed then s.(panicked := true)
    else
      var s1 := s.(work := Publishing(Indices(s.cache.nodes, me, 0)), listed := true,
                   repeats := s.repeats + if s.listed then 1 else 0);
      if s.free == 0 then s1
      else s1.(free := s.free - 1, recorded := s.cache.Fixed(), lost := s.lost + if s.listed then 1 else 0)
  }

  function DeleteTenant(me: string, s: State, was: Tenant): State {
    if !Lists(was.nodes, me) then s
    else if !s.listed then s.(panicked := true)
    else s.(listed := false, devices := s.devices - {s.recorded.0}, free := s.free + 1)
  }

  /** Installing the peers needs the file and the device; reverting a field needs the file. */
  function UpdateTenant(me: string, s: State, was: Tenant, now: Tenant): State {
    if now == was then s
    else if now.nodes != was.nodes && Lists(now.nodes, me) && !Lists(was.nodes, me) then
      s.(queue := s.queue + [Add])
    else if now.nodes != was.nodes && !Lists(now.nodes, me) && Lists(was.nodes, me) then
      s.(queue := s.queue + [Delete(was)])
    else
      var refreshed := if now.nodes != was.nodes && Lists(now.nodes, me) then s.cache else now;
      var installs := now.nodes != was.nodes && Lists(now.nodes, me) && ReadyPeer(refreshed.nodes, me);
      var reverts := Lists(refreshed.nodes, me) && refreshed.Fixed() != was.Fixed();
      if (installs && !(s.listed && s.HasDevice())) || (reverts && !s.listed) then s.(panicked := true)
      else if reverts then s.(work := Reverting) else s
  }

  function TakeNext(me: string, s: State): State {
    if s.queue == [] || !s.work.Idle? then s
    else
      var rest := s.(queue := s.queue[1..]);
      match s.queue[0]
      case Add => BeginAdd(me, rest)
      case Delete(was) => DeleteTenant(me, rest, was)
      case Update(was, now) => UpdateTenant(me, rest, was, now)
  }

  /** One round of a retry. The index comes from the list that the Add read, the list written to is the
      one cached now; a version not observed yet means a conflict. With its last publication the Add
      brings up the device, if the list it has just written has other entries. */
  function TryWrite(s: State, p: Published): State {
    match s.work
    case Idle => s
    case Publishing(todo) =>
      if todo == [] then s
      else if todo[0] >= |s.cache.nodes| then s.(panicked := true)
      else if s.unseen != [] then s
      else
        s.(unseen := Written(s.cache, PublishInto(s.cache, todo[0], p)),
           work := if |todo| == 1 then Idle else Publishing(todo[1..]),
           devices := if |todo| == 1 && |s.cache.nodes| > 1 then s.devices + {s.recorded.0} else s.devices)
    case Reverting =>
      if s.unseen != [] then s
      else s.(unseen := Written(s.cache, Revert(s.cache, s.recorded)), work := Idle)
  }

  function DoWork(me: string, s: State, step: Step): State
    requires WorkerStep(step)
  {
    match step
    case Take => TakeNext(me, s)
    case Attempt(p) => TryWrite(s, p)
    case GiveUpAdd => if s.work.Publishing? then s.(work := Idle) else s
    case GiveUpRevert => if s.work.Reverting? then s.(work := Idle) else s
  }

  function Do(me: string, s: State, step: Step): State {
    match step
    case Edit(t) => s.(unseen := s.unseen + Written(Newest(s), t))
    case Observe =>
      if s.unseen == [] then s
      else s.(unseen := s.unseen[1..], cache := s.unseen[0], notices := s.notices + [Update(s.cache, s.unseen[0])])
    case Resync => s.(notices := s.notices + [Update(s.cache, s.cache)])
    case Deliver => if s.notices == [] then s else s.(notices := s.notices[1..], queue := s.queue + [s.notices[0]])
    case OtherTenants(free) => s.(free := free)
    case _ => if s.panicked then s else DoWork(me, s, step)
  }

  function Run(me: string, s: State, steps: seq<Step>): State {
    if steps == [] then s else Do(me, Run(me, s, steps[..|steps| - 1]), steps[|steps| - 1])
  }

  lemma {:induction false} RunOn(me: string, s: State, steps: seq<Step>, step: Step)
    ensures Run(me, s, steps + [step]) == Do(me, Run(me, s, steps), step)
  {
    assert (steps + [step])[..|steps|] == steps;
  }

  lemma {:induction false} RunMore(me: string, s: State, a: seq<Step>, b: seq<Step>)
    ensures Run(me, s, a + b) == Run(me, Run(me, s, a), b)
  {
    if b == [] {
      assert a + b == a;
    } else {
      var n := |b| - 1;
      RunMore(me, s, a, b[..n]);
      assert (a + b)[..|a + b| - 1] == a + b[..n];
    }
  }

  // ---------------------------------------------------------------- the controller object

  /** The attempts of the default retry. */
  const ATTEMPTS := 5

  class Controller {
    const me: string
    const own: Published
    var unseen: seq<Tenant>
    var cache: Tenant
    var notices: seq<Event>
    var queue: seq<Event>
    var work: Work
    var recorded: (int, int)
    var listed: bool
    var devices: set<int>
    var free: nat
    var repeats: nat
    var lost: nat
    var panicked: bool

    constructor (me: string, own: Published, t: Tenant, free: nat)
      ensures this.me == me && this.own == own && Value() == Start(t, free).(queue := [])
    {
      this.me, this.own, cache, unseen, notices, queue := me, own, t, [], [], [];
      work, recorded, listed, devices := Idle, (0, 0), false, {};
      this.free, repeats, lost, panicked := free, 0, 0, false;
    }

    function Value(): State
      reads this
    {
      State(unseen, cache, notices, queue, work, recorded, listed, devices, free, repeats, lost, panicked)
    }

    method HandleAdd()
      modifies this`queue
      ensures queue == old(queue) + [Add]
    {
      queue := queue + [Add];
    }

    method HandleUpdate(was: Tenant, now: Tenant)
      modifies this`queue
      ensures queue == old(queue) + [Update(was, now)]
    {
      queue := queue + [Update(was, now)];
    }

    method HandleDelete(obj: Tenant)
      modifies this`queue
      ensures queue == old(queue) + [Delete(obj)]
    {
      queue := queue + [Delete(obj)];
    }

    /** The block comes from the pool; the entries to publish into come from the list read here. */
    method AddTenantEvent()
      requires work.Idle?
      modifies this
      ensures Value() == BeginAdd(me, old(Value()))
    {
      var member := ExistsNode(cache.nodes, me);
      if member {
        if free > 0 {
          if listed {
            lost := lost + 1;
          }
          free, recorded := free - 1, cache.Fixed();
        } else if !listed {
          panicked := true;
          return;
        }
        if listed {
          repeats := repeats + 1;
        }
        listed := true;
        var todo := OwnIndices(cache.nodes, me);
        work := Publishing(todo);
      }
    }

    method DeleteTenantEvent(was: Tenant)
      modifies this
      ensures Value() == DeleteTenant(me, old(Value()), was)
    {
      var member := ExistsNode(was.nodes, me);
      if member {
        if !listed {
          panicked := true;
          return;
        }
        devices, listed, free := devices - {recorded.0}, false, free + 1;
      }
    }

    method UpdateTenantEvent(was: Tenant, now: Tenant)
      modifies this
      ensures Value() == UpdateTenant(me, old(Value()), was, now)
    {
      var newTenant := now;
      if newTenant == was {
        return;
      }
      if newTenant.nodes != was.nodes {
        var isNow := ExistsNode(newTenant.nodes, me);
        var before := ExistsNode(was.nodes, me);
        if isNow && !before {
          queue := queue + [Add];
          return;
        }
        if !isNow && before {
          queue := queue + [Delete(was)];
          return;
        }
        if isNow {
          newTenant := cache;
          for i := 0 to |newTenant.nodes|
            invariant Value() == old(Value())
            invariant (listed && recorded.0 in devices) || forall j :: 0 <= j < i ==>
              newTenant.nodes[j].name == me || !newTenant.nodes[j].Ready()
          {
            var node := newTenant.nodes[i];
            if node.name != me && node.Ready() && !(listed && recorded.0 in devices) {
              panicked := true;
              return;
            }
          }
        }
      }
      var member := ExistsNode(newTenant.nodes, me);
      if member && newTenant.Fixed() != was.Fixed() {
        if listed {
          work := Reverting;
        } else {
          panicked := true;
        }
      }
    }

    /** One event, up to the first write that it needs. */
    method ProcessNextItem()
      requires queue != [] && work.Idle? && !panicked
      modifies this
      ensures Value() == Do(me, old(Value()), Take)
    {
      var obj := queue[0];
      queue := queue[1..];
      match obj
      case Add => AddTenantEvent();
      case Update(was, now) => UpdateTenantEvent(was, now);
      case Delete(was) => DeleteTenantEvent(was);
    }

    /** One round of a retry: refresh from the lister cache, change the copy, update by version. */
    method TryOnce()
      requires !panicked
      modifies this
      ensures Value() == Do(me, old(Value()), Attempt(own))
    {
      var newTenant := cache;
      match work
      case Idle =>
      case Publishing(todo) =>
        if todo != [] {
          var index := todo[0];
          if index >= |newTenant.nodes| {
            panicked := true;
            return;
          }
          newTenant := PublishInto(newTenant, index, own);
          if unseen == [] {
            unseen := Written(cache, newTenant);
            if |todo| > 1 {
              work := Publishing(todo[1..]);
            } else {
              work := Idle;
              if |newTenant.nodes| > 1 {
                devices := devices + {recorded.0};
              }
            }
          }
        }
      case Reverting =>
        newTenant := Revert(newTenant, recorded);
        if unseen == [] {
          unseen := Written(cache, newTenant);
          work := Idle;
        }
    }

    /** While no version and no event arrives the worker empties the queue: every write ends after at
        most ATTEMPTS rounds, and a re-enqueued event is not re-enqueued again. */
    method Worker() returns (ghost steps: seq<Step>)
      modifies this
      ensures panicked || (queue == [] && work.Idle?)
      ensures Value() == Run(me, old(Value()), steps) && forall i :: 0 <= i < |steps| ==> WorkerStep(steps[i])
    {
      hide Do, Run;
      steps := [];
      var tries := 0;
      assert Value() == Run(me, Value(), []) by { RunNone(me, Value()); }
      while !panicked && (queue != [] || !work.Idle?)
        invariant tries <= ATTEMPTS
        invariant Value() == Run(me, old(Value()), steps)
        invariant forall i :: 0 <= i < |steps| ==> WorkerStep(steps[i])
        decreases Weight(queue), Jobs(work), ATTEMPTS - tries
      {
        ghost var step;
        ghost var s := Value();
        if work.Idle? {
          WeightDrops(me, s);
          ProcessNextItem();
          step, tries := Take, 0;
        } else if tries < ATTEMPTS {
          var before := work;
          TryShape(me, s, own);
          TryOnce();
          step, tries := Attempt(own), if work == before then tries + 1 else 0;
        } else {
          step := if work.Publishing? then GiveUpAdd else GiveUpRevert;
          GiveUpShape(me, s);
          work, tries := Idle, 0;
        }
        assert Value() == Do(me, s, step);
        RunOn(me, old(Value()), steps, step);
        steps := steps + [step];
      }
    }
  }

  lemma {:induction false} RunNone(me: string, s: State)
    ensures Run(me, s, []) == s
  {
  }

  lemma {:induction false} TryShape(me: string, s: State, p: Published)
    ensures var s1 := Do(me, s, Attempt(p));
            && s1.queue == s.queue && s1.cache == s.cache && s1.listed == s.listed && s1.notices == s.notices
            && (s1.work == s.work || Jobs(s1.work) < Jobs(s.work))
  {
  }

  lemma {:induction false} GiveUpShape(me: string, s: State)
    requires !s.panicked && !s.work.Idle?
    ensures Do(me, s, if s.work.Publishing? then GiveUpAdd else GiveUpRevert) == s.(work := Idle)
  {
  }

  function Jobs(work: Work): nat {
    match work
    case Idle => 0
    case Publishing(todo) => |todo| + 1
    case Reverting => 1
  }

  function Weight(queue: seq<Event>): nat {
    if queue == [] then 0 else (if queue[0].Update? then 2 else 1) + Weight(queue[1..])
  }

  lemma {:induction false} WeightAppend(queue: seq<Event>, e: Event)
    ensures Weight(queue + [e]) == Weight(queue) + if e.Update? then 2 else 1
  {
    if queue != [] {
      assert (queue + [e])[1..] == queue[1..] + [e];
      WeightAppend(queue[1..], e);
    }
  }

  lemma {:induction false} WeightDrops(me: string, s: State)
    requires s.queue != [] && s.work.Idle? && !s.panicked
    ensures Weight(Do(me, s, Take).queue) < Weight(s.queue)
  {
    hide Lists, ReadyPeer, Indices;
    forall e ensures Weight(s.queue[1..] + [e]) == Weight(s.queue[1..]) + if e.Update? then 2 else 1 {
      WeightAppend(s.queue[1..], e);
    }
  }

  // ---------------------------------------------------------------- convergence

  /** What an event will do in the end: true for an Add, false for a Delete. */
  function Direct(e: Event): seq<bool> {
    match e
    case Add => [true]
    case Delete(_) => [false]
    case Update(_, _) => []
  }

  function Edge(me: string, e: Event): seq<bool> {
    if !e.Update? || Lists(e.was.nodes, me) == Lists(e.now.nodes, me) then [] else [Lists(e.now.nodes, me)]
  }

  function Directs(q: seq<Event>): seq<bool> {
    if q == [] then [] else Direct(q[0]) + Directs(q[1..])
  }

  function Edges(me: string, q: seq<Event>): seq<bool> {
    if q == [] then [] else Edge(me, q[0]) + Edges(me, q[1..])
  }

  /** The Adds and Deletes still to run, in the order in which they will run: first those already in
      the queue, then those that queued and undelivered updates will enqueue. */
  function Pending(me: string, s: State): seq<bool> {
    Directs(s.queue) + (Edges(me, s.queue) + Edges(me, s.notices))
  }

  lemma {:induction false} AppendEvent(me: string, q: seq<Event>, e: Event)
    ensures Directs(q + [e]) == Directs(q) + Direct(e)
    ensures Edges(me, q + [e]) == Edges(me, q) + Edge(me, e)
  {
    hide Edge, Direct;
    if q == [] {
      assert q + [e] == [e] && [e][1..] == [];
    } else {
      var more := q + [e];
      assert more[0] == q[0] && more[1..] == q[1..] + [e];
      AppendEvent(me, q[1..], e);
      assert Direct(q[0]) + (Directs(q[1..]) + Direct(e)) == (Direct(q[0]) + Directs(q[1..])) + Direct(e);
      assert Edge(me, q[0]) + (Edges(me, q[1..]) + Edge(me, e)) == (Edge(me, q[0]) + Edges(me, q[1..])) + Edge(me, e);
    }
  }

  ghost predicate Alternates(p: seq<bool>) {
    forall i :: 0 <= i < |p| - 1 ==> p[i] != p[i + 1]
  }

  /** Deletes only come from lists that had this node. */
  ghost predicate QueueOk(me: string, s: State) {
    && (forall e :: e in s.queue && e.Delete? ==> Lists(e.was.nodes, me))
    && (forall e :: e in s.notices ==> e.Update?)
  }

  /** Spurious: the first Add of an object that did not list this node is still to run. Early: it ran
      after the list had gained this node, before the Add of that edit. */
  datatype Phase = Spurious | Early | Normal

  /** The pending Adds and Deletes p, whether the tenant is set up and whether the list has this node. */
  ghost predicate Consistent(p: seq<bool>, listed: bool, member: bool, repeats: nat, phase: Phase) {
    var q := if phase.Spurious? && p != [] then p[1..] else p;
    && (phase.Spurious? ==> p != [] && p[0] && !listed && (q != [] ==> q[0]))
    && Alternates(q)
    && (q != [] ==> q[|q| - 1] == member)
    && (q == [] ==> if phase.Spurious? then !member else listed == member)
    && (q != [] && q[0] && phase.Normal? ==> !listed)
    && (phase.Early? ==> q != [] && q[0] && listed)
    && (phase.Normal? || repeats == 0) && repeats <= 1
  }

  ghost predicate Inv(me: string, s: State, phase: Phase) {
    QueueOk(me, s) && Consistent(Pending(me, s), s.listed, Lists(s.cache.nodes, me), s.repeats, phase)
  }

  lemma {:induction false} ConsistentEdge(
      p: seq<bool>, listed: bool, member: bool, now: bool, repeats: nat, phase: Phase)
    requires Consistent(p, listed, member, repeats, phase)
    ensures Consistent(if now == member then p else p + [now], listed, now, repeats, phase)
  {
    if now != member && p != [] {
      assert (p + [now])[1..] == p[1..] + [now];
    }
  }

  lemma {:induction false} ConsistentAdd(p: seq<bool>, listed: bool, member: bool, repeats: nat, phase: Phase)
    requires p != [] && p[0] && Consistent(p, listed, member, repeats, phase)
    ensures var phase1 := if phase.Spurious? && member then Early else Normal;
            Consistent(p[1..], listed || member, member, repeats + (if listed && member then 1 else 0), phase1)
  {
  }

  lemma {:induction false} ConsistentDelete(p: seq<bool>, listed: bool, member: bool, repeats: nat, phase: Phase)
    requires p != [] && !p[0] && Consistent(p, listed, member, repeats, phase)
    ensures phase.Normal? && Consistent(p[1..], false, member, repeats, phase)
  {
  }

  /** An observed version adds its edge, if it is one, at the end. */
  lemma {:induction false} NoticeMoves(me: string, s: State, s1: State, t: Tenant)
    requires s1.queue == s.queue && s1.notices == s.notices + [Update(s.cache, t)]
    ensures Pending(me, s1) == Pending(me, s) + Edge(me, Update(s.cache, t))
  {
    hide Edge, Directs, Edges;
    var e := Update(s.cache, t);
    AppendEvent(me, s.notices, e);
    var d, q, n := Directs(s.queue), Edges(me, s.queue), Edges(me, s.notices);
    assert d + (q + (n + Edge(me, e))) == (d + (q + n)) + Edge(me, e);
  }

  lemma {:induction false} DeliverMoves(me: string, s: State)
    requires s.notices != [] && s.notices[0].Update?
    ensures Pending(me, Do(me, s, Deliver)) == Pending(me, s)
  {
    hide Edge, Directs;
    var e := s.notices[0];
    AppendEvent(me, s.queue, e);
    assert Directs(s.queue + [e]) == Directs(s.queue);
    var q, n := Edges(me, s.queue), Edges(me, s.notices[1..]);
    assert (q + Edge(me, e)) + n == q + (Edge(me, e) + n);
  }

  /** What an update puts at the tail of the queue. */
  function Requeued(me: string, u: Event): seq<Event>
    requires u.Update?
  {
    if Lists(u.now.nodes, me) == Lists(u.was.nodes, me) then []
    else if Lists(u.now.nodes, me) then [Add] else [Delete(u.was)]
  }

  /** The worker takes an event now. */
  predicate Takes(s: State) {
    !s.panicked && s.work.Idle? && s.queue != []
  }

  lemma {:induction false} UpdateShape(me: string, s: State)
    requires Takes(s) && s.queue[0].Update?
    ensures var s1 := Do(me, s, Take);
            && s1.queue == s.queue[1..] + Requeued(me, s.queue[0])
            && s1.cache == s.cache && s1.notices == s.notices && s1.listed == s.listed && s1.repeats == s.repeats
  {
    hide ReadyPeer, Lists;
    var u := s.queue[0];
    assert Lists(u.now.nodes, me) != Lists(u.was.nodes, me) ==> u.now.nodes != u.was.nodes;
  }

  lemma {:induction false} HeadOf(me: string, q: seq<Event>)
    requires q != []
    ensures Directs(q) == Direct(q[0]) + Directs(q[1..])
    ensures Edges(me, q) == Edge(me, q[0]) + Edges(me, q[1..])
  {
  }

  lemma {:induction false} RequeuedOnce(me: string, rest: seq<Event>, u: Event)
    requires u.Update?
    ensures Directs(rest + Requeued(me, u)) == Directs(rest) + Edge(me, u)
    ensures Edges(me, rest + Requeued(me, u)) == Edges(me, rest)
  {
    hide Directs, Edges, Lists;
    var r := Requeued(me, u);
    if r != [] {
      AppendEvent(me, rest, r[0]);
      assert r == [r[0]];
    } else {
      assert rest + r == rest;
    }
  }

  /** Re-enqueueing an edge as an Add or a Delete leaves its place in the order. */
  lemma {:induction false} UpdateMoves(me: string, s: State)
    requires Takes(s) && s.queue[0].Update?
    ensures Pending(me, Do(me, s, Take)) == Pending(me, s)
  {
    UpdateShape(me, s);
    var u, rest := s.queue[0], s.queue[1..];
    HeadOf(me, s.queue);
    RequeuedOnce(me, rest, u);
    hide Do, Lists, Directs, Edges, Edge, Requeued;
    var d, e, q, n := Directs(rest), Edge(me, u), Edges(me, rest), Edges(me, s.notices);
    assert Directs(s.queue) == d;
    assert (d + e) + (q + n) == d + ((e + q) + n);
  }

  lemma {:induction false} DirectMoves(me: string, s: State)
    requires Takes(s) && !s.queue[0].Update?
    ensures Pending(me, s) == Direct(s.queue[0]) + Pending(me, Do(me, s, Take))
  {
    hide Lists, Indices;
    var s1 := Do(me, s, Take);
    assert s1.queue == s.queue[1..] && s1.notices == s.notices;
    assert Edges(me, s.queue) == Edges(me, s1.queue);
    var d, q, n := Directs(s1.queue), Edges(me, s1.queue), Edges(me, s.notices);
    assert (Direct(s.queue[0]) + d) + (q + n) == Direct(s.queue[0]) + (d + (q + n));
  }

  function NextPhase(me: string, s: State, step: Step, phase: Phase): Phase {
    if !step.Take? || !Takes(s) || !s.queue[0].Add? then phase
    else if phase.Spurious? && Lists(s.cache.nodes, me) then Early
    else Normal
  }

  lemma {:induction false} UpdateInv(me: string, s: State, phase: Phase)
    requires Inv(me, s, phase) && Takes(s) && s.queue[0].Update?
    ensures Inv(me, Do(me, s, Take), phase)
  {
    UpdateMoves(me, s);
    UpdateShape(me, s);
    hide Lists, Pending, Do, Consistent;
  }

  /** An observed version, or a resync. */
  lemma {:induction false} NoticeInv(me: string, s: State, s1: State, t: Tenant, phase: Phase)
    requires Inv(me, s, phase)
    requires s1.queue == s.queue && s1.notices == s.notices + [Update(s.cache, t)]
    requires s1.cache == t && s1.listed == s.listed && s1.repeats == s.repeats
    ensures Inv(me, s1, phase)
  {
    NoticeMoves(me, s, s1, t);
    EdgeIs(me, s.cache, t);
    assert QueueOk(me, s1) by { hide Lists, Consistent, Pending; }
    hide Lists, Pending, Consistent, Edge, QueueOk;
    var p, was, now := Pending(me, s), Lists(s.cache.nodes, me), Lists(t.nodes, me);
    ConsistentEdge(p, s.listed, was, now, s.repeats, phase);
    assert p + [] == p;
  }

  lemma {:induction false} EdgeIs(me: string, was: Tenant, now: Tenant)
    ensures Edge(me, Update(was, now)) ==
            if Lists(now.nodes, me) == Lists(was.nodes, me) then [] else [Lists(now.nodes, me)]
  {
  }

  lemma {:induction false} DeliverInv(me: string, s: State, phase: Phase)
    requires Inv(me, s, phase) && s.notices != []
    ensures Inv(me, Do(me, s, Deliver), phase)
  {
    hide Lists, Pending, Consistent;
    DeliverMoves(me, s);
  }

  /** Whatever leaves the events, the cache and the tenant's presence alone. */
  lemma {:induction false} StillInv(me: string, s: State, s1: State, phase: Phase)
    requires Inv(me, s, phase)
    requires s1.queue == s.queue && s1.notices == s.notices && s1.cache == s.cache
    requires s1.listed == s.listed && s1.repeats == s.repeats
    ensures Inv(me, s1, phase)
  {
    hide Lists, Consistent, Directs, Edges;
  }

  lemma {:induction false} DirectEffect(me: string, s: State)
    requires QueueOk(me, s) && Takes(s) && !s.queue[0].Update?
    ensures var s1 := Do(me, s, Take); var member := Lists(s.cache.nodes, me);
            !s1.panicked ==>
              && QueueOk(me, s1) && s1.cache == s.cache
              && s1.listed == (s.queue[0].Add? && (s.listed || member))
              && s1.repeats == s.repeats + (if s.queue[0].Add? && s.listed && member then 1 else 0)
  {
    hide Lists, Indices;
  }

  lemma {:induction false} DirectTail(me: string, s: State)
    requires Takes(s) && !s.queue[0].Update?
    ensures var p := Pending(me, s);
            p != [] && p[0] == s.queue[0].Add? && p[1..] == Pending(me, Do(me, s, Take))
  {
    DirectMoves(me, s);
    hide Pending, Do, Lists;
  }

  lemma {:induction false} DirectInv(me: string, s: State, phase: Phase)
    requires Inv(me, s, phase) && Takes(s) && !s.queue[0].Update?
    ensures var s1 := Do(me, s, Take);
            !s1.panicked ==> Inv(me, s1, NextPhase(me, s, Take, phase))
  {
    DirectTail(me, s);
    DirectEffect(me, s);
    hide Lists, Pending, Do, Consistent, QueueOk;
    var p, member := Pending(me, s), Lists(s.cache.nodes, me);
    if s.queue[0].Add? {
      ConsistentAdd(p, s.listed, member, s.repeats, phase);
    } else {
      ConsistentDelete(p, s.listed, member, s.repeats, phase);
    }
  }

  /** Steps that move no event and leave the cache and the tenant's presence alone. */
  predicate Still(s: State, step: Step) {
    match step
    case Observe => s.unseen == []
    case Resync => false
    case Deliver => s.notices == []
    case Take => !Takes(s)
    case _ => true
  }

  lemma {:induction false} StillShape(me: string, s: State, step: Step)
    requires Still(s, step)
    ensures var s1 := Do(me, s, step);
            && s1.queue == s.queue && s1.notices == s.notices && s1.cache == s.cache
            && s1.listed == s.listed && s1.repeats == s.repeats
  {
  }

  lemma {:induction false} InvStep(me: string, s: State, step: Step, phase: Phase)
    requires Inv(me, s, phase)
    ensures var s1 := Do(me, s, step); !s1.panicked ==> Inv(me, s1, NextPhase(me, s, step, phase))
  {
    hide Inv, Lists, DoWork;
    if Still(s, step) {
      StillShape(me, s, step);
      StillInv(me, s, Do(me, s, step), phase);
    } else {
      match step
      case Observe => NoticeInv(me, s, Do(me, s, step), s.unseen[0], phase);
      case Resync => NoticeInv(me, s, Do(me, s, step), s.cache, phase);
      case Deliver => DeliverInv(me, s, phase);
      case Take =>
        if s.queue[0].Update? {
          UpdateInv(me, s, phase);
        } else {
          DirectInv(me, s, phase);
        }
    }
  }

  lemma {:induction false} DeadStays(me: string, s: State, step: Step)
    requires s.panicked
    ensures Do(me, s, step).panicked
  {
  }

  lemma {:induction false} InvRun(me: string, t: Tenant, free: nat, steps: seq<Step>) returns (phase: Phase)
    ensures var s := Run(me, Start(t, free), steps);
            !s.panicked ==> Inv(me, s, phase) && (Lists(t.nodes, me) ==> phase.Normal? && s.repeats == 0)
  {
    if steps == [] {
      phase := if Lists(t.nodes, me) then Normal else Spurious;
      assert Pending(me, Start(t, free)) == [true];
    } else {
      var n := |steps| - 1;
      phase := InvRun(me, t, free, steps[..n]);
      var s := Run(me, Start(t, free), steps[..n]);
      hide Do, Lists, Inv;
      if !s.panicked {
        InvStep(me, s, steps[n], phase);
        if phase.Normal? {
          NormalRepeats(me, s, steps[n]);
        }
        phase := NextPhase(me, s, steps[n], phase);
      } else {
        DeadStays(me, s, steps[n]);
      }
    }
  }

  /** In step, no Add runs on a tenant that is set up. */
  lemma {:induction false} NormalRepeats(me: string, s: State, step: Step)
    requires Inv(me, s, Normal) && !s.panicked
    ensures Do(me, s, step).repeats == s.repeats
  {
    hide Lists, ReadyPeer, Pending, Indices;
    if step.Take? && Takes(s) && s.queue[0].Add? {
      DirectTail(me, s);
    }
  }

  // ---------------------------------------------------------------- the main results

  /** Whenever nothing is left to deliver or to process, and the operator has not died, the tenant is
      set up on the node exactly when the list last observed has the node, whatever is written by
      whom and however writes, observations, deliveries and the worker interleave; with nothing left to
      observe that list is the latest. */
  lemma {:induction false} MembershipConverges(me: string, t: Tenant, free: nat, steps: seq<Step>)
    requires var s := Run(me, Start(t, free), steps); s.queue == [] && s.notices == [] && !s.panicked
    ensures var s := Run(me, Start(t, free), steps);
            && (s.listed <==> Lists(s.cache.nodes, me))
            && (s.unseen == [] ==> s.cache == Newest(s))
  {
    var phase := InvRun(me, t, free, steps);
    hide Run, Lists;
  }

  /** An object created listing the node never has an Add run on a tenant already set up; one created
      without it has at most one such Add. */
  lemma {:induction false} RepeatedAdds(me: string, t: Tenant, free: nat, steps: seq<Step>)
    ensures var s := Run(me, Start(t, free), steps);
            !s.panicked ==> s.repeats <= 1 && (Lists(t.nodes, me) ==> s.repeats == 0)
  {
    var phase := InvRun(me, t, free, steps);
    hide Run, Lists;
  }

  /** What the worker makes of a node that joins the list before the first Add has run. */
  lemma {:induction false} AddsTwice(me: string, s: State, t: Tenant, now: Tenant)
    requires s.queue == [Add, Update(t, now)] && s.cache == now && s.work.Idle? && !s.panicked && !s.listed && s.free >= 2
    requires !Lists(t.nodes, me) && Lists(now.nodes, me)
    ensures var s1 := Do(me, Do(me, Do(me, Do(me, s, Take), GiveUpAdd), Take), Take);
            && s1.repeats == s.repeats + 1 && s1.lost == s.lost + 1 && s1.listed && s1.queue == []
            && !s1.panicked && s1.free == s.free - 2
  {
    hide Lists, Indices, ReadyPeer;
    assert t.nodes != now.nodes;
    var s2 := Do(me, Do(me, s, Take), GiveUpAdd);
    assert s2.queue == [Update(t, now)] && s2.listed && s2.work.Idle?;
    var s3 := Do(me, s2, Take);
    assert s3 == s2.(queue := [Add]);
  }

  /** One such Add is possible: the list gains the node before the first Add has run. */
  lemma {:induction false} RepeatHappens(me: string, t: Tenant, now: Tenant, free: nat)
    requires !Lists(t.nodes, me) && Lists(now.nodes, me) && free >= 2
    ensures var s := Run(me, Start(t, free), [Edit(now), Observe, Deliver, Take, GiveUpAdd, Take, Take]);
            s.repeats == 1 && s.lost == 1 && s.listed && s.queue == [] && !s.panicked && s.free == free - 2
  {
    var s0 := Start(t, free);
    var s1 := Do(me, Do(me, Do(me, s0, Edit(now)), Observe), Deliver);
    assert s1 == s0.(cache := now, queue := [Add, Update(t, now)]);
    AddsTwice(me, s1, t, now);
    hide Do, Lists, Run;
    var all := [Edit(now), Observe, Deliver, Take, GiveUpAdd, Take, Take];
    assert all[..7] == all;
    RunStep(me, s0, all, 0);
    RunStep(me, s0, all, 1);
    RunStep(me, s0, all, 2);
    RunStep(me, s0, all, 3);
    RunStep(me, s0, all, 4);
    RunStep(me, s0, all, 5);
    RunStep(me, s0, all, 6);
  }

  lemma {:induction false} RunStep(me: string, s: State, all: seq<Step>, k: nat)
    requires k < |all|
    ensures Run(me, s, all[..k + 1]) == Do(me, Run(me, s, all[..k]), all[k])
    ensures k == 0 ==> Run(me, s, all[..k]) == s
  {
    assert all[..k + 1][..k] == all[..k];
  }

  lemma {:induction false} BalanceStep(me: string, s: State, step: Step)
    requires !step.OtherTenants?
    ensures var s1 := Do(me, s, step);
            && s1.free + s1.lost + (if s1.listed then 1 else 0) == s.free + s.lost + (if s.listed then 1 else 0)
            && (s.lost <= s.repeats ==> s1.lost <= s1.repeats)
  {
    hide Lists, ReadyPeer, Indices;
  }

  /** As far as this tenant goes no block is lost or gained but by repeated Adds, which lose at most one
      each: one with an empty pool keeps the old block. */
  lemma {:induction false} PoolBalance(me: string, t: Tenant, free: nat, steps: seq<Step>)
    requires forall i :: 0 <= i < |steps| ==> !steps[i].OtherTenants?
    ensures var s := Run(me, Start(t, free), steps);
            s.free + s.lost + (if s.listed then 1 else 0) == free && s.lost <= s.repeats
  {
    if steps != [] {
      var n := |steps| - 1;
      PoolBalance(me, t, free, steps[..n]);
      BalanceStep(me, Run(me, Start(t, free), steps[..n]), steps[n]);
    }
  }
}
