/** Whole runs of the tenant allocator: sequences of locked calls, each of which may die between its
    two stores. */
module LeaseRuns {
  import opened Options
  import opened Text
  import opened Leases

  datatype Op = Alloc(info: NetInfo) | CrashedAlloc(info: NetInfo) | Rel(id: string) | Chk(id: string)

  ghost function After(mode: Reset, d: TenantData, op: Op): (r: TenantData)
    requires Valid(d)
    ensures Valid(r) && r.base == d.base && r.size == d.size && r.gateway == d.gateway
  {
    match op
    case Alloc(info) => CallsKeepValid(mode, d, info); Allocate(mode, d, info).0
    case CrashedAlloc(info) => CallsKeepValid(mode, d, info); AllocateHalf(mode, d, info)
    case Rel(id) => CallsKeepValid(mode, d, NetInfo(id, "", "", "")); Release(d, id)
    case Chk(_) => d
  }

  ghost function Run(mode: Reset, d: TenantData, ops: seq<Op>): (r: TenantData)
    requires Valid(d)
    ensures Valid(r) && r.base == d.base && r.size == d.size && r.gateway == d.gateway
  {
    if ops == [] then d else After(mode, Run(mode, d, ops[..|ops| - 1]), ops[|ops| - 1])
  }

  /** The call takes a out of the free addresses. */
  ghost predicate Takes(mode: Reset, d: TenantData, op: Op, a: Addr)
    requires Valid(d)
  {
    a !in d.ips && a in After(mode, d, op).ips
  }

  /** ... and completes. */
  ghost predicate NewLease(mode: Reset, d: TenantData, op: Op, a: Addr)
    requires Valid(d)
  {
    op.Alloc? && Takes(mode, d, op, a)
  }

  lemma {:induction false} NewLeaseIs(mode: Reset, d: TenantData, op: Op, a: Addr)
    requires Valid(d) && NewLease(mode, d, op, a)
    ensures Usable(d, a) && After(mode, d, op).last == Some(a) && Holder(d.ips, op.info.id).None?
    ensures Allocate(mode, d, op.info).1 == Ip(a)
    ensures mode == RawText ==> d.last.value < a
  {
    PickedIsFree(mode, d);
  }

  // ---------------------------------------------------------------- delayed reuse

  /** c is leased after the first m calls of the run. */
  ghost predicate LeasedAt(d: TenantData, ops: seq<Op>, m: int, c: Addr)
    requires Valid(d)
  {
    0 <= m <= |ops| && c in Run(ParsedAddr, d, ops[..m]).ips
  }

  /** c was leased at some moment of the run. */
  ghost predicate Seen(d: TenantData, ops: seq<Op>, c: Addr)
    requires Valid(d)
  {
    exists m :: LeasedAt(d, ops, m, c)
  }

  ghost predicate AllSeen(d: TenantData, ops: seq<Op>, a: Addr)
    requires Valid(d)
  {
    forall c: Addr :: Usable(d, c) && c != a ==> Seen(d, ops, c)
  }

  /** Cyclic distance from a, counting a itself as a whole turn. */
  function Turn(d: TenantData, a: Addr, x: Addr): int {
    if x > a then x - a else x - a + d.size - 2
  }

  /** Since a was handed out, everything from a round to the cursor has been leased. */
  ghost predicate SweptTo(d: TenantData, ops: seq<Op>, a: Addr, l: Addr)
    requires Valid(d)
  {
    Usable(d, l) && forall c: Addr :: Usable(d, c) && l != a && Turn(d, a, c) <= Turn(d, a, l) ==> Seen(d, ops, c)
  }

  lemma {:induction false} SeenGrows(d: TenantData, ops: seq<Op>, op: Op, c: Addr)
    requires Valid(d)
    ensures Seen(d, ops, c) ==> Seen(d, ops + [op], c)
    ensures c in Run(ParsedAddr, d, ops).ips ==> Seen(d, ops, c)
    ensures c in After(ParsedAddr, Run(ParsedAddr, d, ops), op).ips ==> Seen(d, ops + [op], c)
  {
    var all := ops + [op];
    assert ops[..|ops|] == ops && all[..|all|] == all && all[..|all| - 1] == ops;
    assert LeasedAt(d, ops, |ops|, c) <==> c in Run(ParsedAddr, d, ops).ips;
    assert LeasedAt(d, all, |all|, c) <==> c in Run(ParsedAddr, d, all).ips;
    if m :| LeasedAt(d, ops, m, c) {
      assert all[..m] == ops[..m];
      assert LeasedAt(d, all, m, c);
    }
  }

  /** Only a new lease moves the cursor. */
  lemma {:induction false} CursorStays(mode: Reset, d: TenantData, op: Op)
    requires Valid(d) && forall a :: !NewLease(mode, d, op, a)
    ensures After(mode, d, op).last == d.last
  {
    if op.Alloc? && Holder(d.ips, op.info.id).None? && ScanResult(mode, d).Picked? {
      PickedIsFree(mode, d);
      assert NewLease(mode, d, op, ScanResult(mode, d).addr);
    }
  }

  lemma {:induction false} SweepStep(d: TenantData, ops: seq<Op>, op: Op, a: Addr)
    requires Valid(d) && Usable(d, a)
    requires var l := Run(ParsedAddr, d, ops).last.value; AllSeen(d, ops, a) || SweptTo(d, ops, a, l)
    ensures var l := Run(ParsedAddr, d, ops + [op]).last.value;
            AllSeen(d, ops + [op], a) || (SweptTo(d, ops + [op], a, l) && !NewLease(ParsedAddr, Run(ParsedAddr, d, ops), op, a))
  {
    var all := ops + [op];
    assert all[..|all| - 1] == ops;
    forall c ensures Seen(d, ops, c) ==> Seen(d, all, c) {
      SeenGrows(d, ops, op, c);
    }
    var d1 := Run(ParsedAddr, d, ops);
    if f: Addr :| NewLease(ParsedAddr, d1, op, f) {
      SweepNewLease(d, ops, op, d1, a, f);
    } else {
      CursorStays(ParsedAddr, d1, op);
    }
  }

  lemma {:induction false} SweepNewLease(d: TenantData, ops: seq<Op>, op: Op, d1: TenantData, a: Addr, f: Addr)
    requires Valid(d) && Usable(d, a) && d1 == Run(ParsedAddr, d, ops)
    requires AllSeen(d, ops, a) || SweptTo(d, ops, a, d1.last.value)
    requires NewLease(ParsedAddr, d1, op, f)
    ensures AllSeen(d, ops + [op], a) || (SweptTo(d, ops + [op], a, f) && f != a)
    ensures After(ParsedAddr, d1, op).last == Some(f)
    ensures NewLease(ParsedAddr, d1, op, a) ==> f == a
  {
    var all := ops + [op];
    NewLeaseIs(ParsedAddr, d1, op, f);
    AllocateIsNextFit(d1, op.info);
    forall c: Addr ensures Seen(d, ops, c) || c in d1.ips || c == f ==> Seen(d, all, c) {
      SeenGrows(d, ops, op, c);
    }
    if !AllSeen(d, ops, a) {
      SweepLease(d, ops, all, d1, a, d1.last.value, f);
    }
  }

  lemma {:induction false} SweepLease(
      d: TenantData, ops: seq<Op>, all: seq<Op>, d1: TenantData, a: Addr, l: Addr, f: Addr)
    requires Valid(d) && Usable(d, a) && Usable(d, f) && SweptTo(d, ops, a, l)
    requires d1.base == d.base && d1.size == d.size && d1.last == Some(l)
    requires forall x: Addr :: Usable(d1, x) && Steps(d1, x) < Steps(d1, f) ==> x in d1.ips
    requires forall c: Addr :: Seen(d, ops, c) || c in d1.ips || c == f ==> Seen(d, all, c)
    ensures AllSeen(d, all, a) || (SweptTo(d, all, a, f) && f != a)
  {
    var swept := if l == a then 0 else Turn(d, a, l);
    if f == a || Turn(d, a, f) <= swept {
      forall c: Addr | Usable(d, c) && c != a ensures Seen(d, all, c) {
        assert Turn(d, a, c) <= swept || Steps(d1, c) < Steps(d1, f);
      }
    } else {
      forall c: Addr | Usable(d, c) && Turn(d, a, c) <= Turn(d, a, f) ensures Seen(d, all, c) {
        assert Turn(d, a, c) <= swept || Steps(d1, c) < Steps(d1, f) || c == f;
      }
    }
  }

  lemma {:induction false} Sweep(d: TenantData, ops: seq<Op>, a: Addr)
    requires Valid(d) && Usable(d, a) && d.last == Some(a)
    ensures AllSeen(d, ops, a) || SweptTo(d, ops, a, Run(ParsedAddr, d, ops).last.value)
  {
    if ops != [] {
      var n := |ops| - 1;
      Sweep(d, ops[..n], a);
      SweepStep(d, ops[..n], ops[n], a);
      assert ops == ops[..n] + [ops[n]];
    }
  }

  lemma {:induction false} ReuseAfterSweep(d: TenantData, ops: seq<Op>, op: Op, a: Addr, c: Addr)
    requires Valid(d) && Usable(d, a) && d.last == Some(a)
    requires Takes(ParsedAddr, Run(ParsedAddr, d, ops), op, a)
    requires Usable(d, c) && c != a
    ensures Seen(d, ops, c)
  {
    var d1 := Run(ParsedAddr, d, ops);
    var completed := if op.CrashedAlloc? then Alloc(op.info) else op;
    assert NewLease(ParsedAddr, d1, completed, a);
    Sweep(d, ops, a);
    SweepStep(d, ops, completed, a);
    var all := ops + [completed];
    assert Seen(d, all, c);
    var p :| LeasedAt(d, all, p, c);
    LastUnseen(d, ops, completed, a, c, p);
  }

  /** From any valid store: after a completed lease of an address, whenever that address is taken
      again every other usable address of the block has been leased at some moment in between, whatever
      is released, repeated, checked or cut short by a death in between. */
  lemma {:induction false} DelayedReuse(
      d: TenantData, first: Op, between: seq<Op>, second: Op, a: Addr, c: Addr)
    requires Valid(d) && NewLease(ParsedAddr, d, first, a)
    requires Takes(ParsedAddr, Run(ParsedAddr, After(ParsedAddr, d, first), between), second, a)
    requires Usable(d, c) && c != a
    ensures Seen(After(ParsedAddr, d, first), between, c)
  {
    NewLeaseIs(ParsedAddr, d, first, a);
    ReuseAfterSweep(After(ParsedAddr, d, first), between, second, a, c);
  }

  lemma {:induction false} LastUnseen(d: TenantData, ops: seq<Op>, op: Op, a: Addr, c: Addr, p: nat)
    requires Valid(d) && NewLease(ParsedAddr, Run(ParsedAddr, d, ops), op, a) && c != a
    requires LeasedAt(d, ops + [op], p, c)
    ensures Seen(d, ops, c)
  {
    var all := ops + [op];
    if p <= |ops| {
      assert all[..p] == ops[..p];
      assert LeasedAt(d, ops, p, c);
    } else {
      assert all[..p] == all && all[..|ops|] == ops && ops[..|ops|] == ops;
      assert Run(ParsedAddr, d, all) == After(ParsedAddr, Run(ParsedAddr, d, ops), op);
      NewLeaseIs(ParsedAddr, Run(ParsedAddr, d, ops), op, a);
      assert LeasedAt(d, ops, |ops|, c);
    }
  }

  /** After a death between its stores the cursor stays behind, so once that lease is released the store is
      as before and the very next lease takes the same address; whatever else was free has stayed so. */
  lemma {:induction false} ReuseAfterCrash(mode: Reset, d: TenantData, x: NetInfo, y: NetInfo, a: Addr)
    requires Valid(d) && Takes(mode, d, CrashedAlloc(x), a) && Holder(d.ips, y.id).None?
    ensures var leased := After(mode, d, CrashedAlloc(x)); var released := After(mode, leased, Rel(x.id));
            && released == d && NewLease(mode, released, Alloc(y), a)
            && leased.ips == d.ips[a := x]
  {
    var d1 := After(mode, d, CrashedAlloc(x));
    HolderIs(d.ips, x.id);
    PickedIsFree(mode, d);
    assert d1 == d.(ips := d.ips[a := x]);
    HolderIs(d1.ips, x.id);
    assert d1.ips - {a} == d.ips;
  }

  /** Whatever comes after this lease of a, a is not taken again before every other usable address has
      been leased. */
  ghost predicate Delays(d: TenantData, first: Op, a: Addr)
    requires Valid(d)
  {
    forall between, second, c: Addr ::
      Takes(ParsedAddr, Run(ParsedAddr, After(ParsedAddr, d, first), between), second, a) && Usable(d, c) && c != a
      ==> Seen(After(ParsedAddr, d, first), between, c)
  }

  ghost predicate OthersLeased(d: TenantData, a: Addr) {
    forall c: Addr :: Usable(d, c) && c != a ==> c in d.ips
  }

  /** A lease delays the reuse of its address in every continuation if and only if its call completed or
      no other usable address was free. */
  lemma {:induction false} DelaysIff(d: TenantData, first: Op, a: Addr)
    requires Valid(d) && Takes(ParsedAddr, d, first, a)
    ensures Delays(d, first, a) <==> first.Alloc? || OthersLeased(d, a)
  {
    TakesIsAlloc(d, first, a);
    hide Run, Takes, Seen;
    if first.Alloc? || OthersLeased(d, a) {
      forall between, second, c: Addr
        | Takes(ParsedAddr, Run(ParsedAddr, After(ParsedAddr, d, first), between), second, a) && Usable(d, c) && c != a
        ensures Seen(After(ParsedAddr, d, first), between, c)
      {
        if first.Alloc? {
          DelayedReuse(d, first, between, second, a, c);
        } else {
          SeenAtStart(d, first, between, c);
        }
      }
    } else {
      CrashDoesNotDelay(d, first.info, a);
    }
  }

  lemma {:induction false} TakesIsAlloc(d: TenantData, op: Op, a: Addr)
    requires Valid(d) && Takes(ParsedAddr, d, op, a)
    ensures op.Alloc? || op.CrashedAlloc?
    ensures Holder(d.ips, op.info.id).None?
  {
  }

  lemma {:induction false} SeenAtStart(d: TenantData, first: Op, between: seq<Op>, c: Addr)
    requires Valid(d) && c in d.ips && !first.Rel?
    ensures Seen(After(ParsedAddr, d, first), between, c)
  {
    var d1 := After(ParsedAddr, d, first);
    assert between[..0] == [] && Run(ParsedAddr, d1, []) == d1;
    assert LeasedAt(d1, between, 0, c);
  }

  lemma {:induction false} CrashDoesNotDelay(d: TenantData, x: NetInfo, a: Addr)
    requires Valid(d) && Takes(ParsedAddr, d, CrashedAlloc(x), a) && Holder(d.ips, x.id).None? && !OthersLeased(d, a)
    ensures !Delays(d, CrashedAlloc(x), a)
  {
    var c: Addr :| Usable(d, c) && c != a && c !in d.ips;
    var d1, rel := After(ParsedAddr, d, CrashedAlloc(x)), [Rel(x.id)];
    ReuseAfterCrash(ParsedAddr, d, x, x, a);
    assert rel[..0] == [] && rel[..1] == rel && Run(ParsedAddr, d1, []) == d1;
    assert Run(ParsedAddr, d1, rel) == d;
    assert Takes(ParsedAddr, Run(ParsedAddr, d1, rel), Alloc(x), a);
    assert forall m :: LeasedAt(d1, rel, m, c) ==> m == 0 || m == 1;
    assert !Seen(d1, rel, c);
  }

  // ---------------------------------------------------------------- as written

  lemma {:induction false} RawCursorRises(d: TenantData, ops: seq<Op>)
    requires Valid(d)
    ensures d.last.value <= Run(RawText, d, ops).last.value
  {
    if ops != [] {
      var n := |ops| - 1;
      RawCursorRises(d, ops[..n]);
      var d1 := Run(RawText, d, ops[..n]);
      if ScanResult(RawText, d1).Picked? {
        PickedIsFree(RawText, d1);
      }
    }
  }

  /** As written, the addresses handed out by completed allocations only ever rise: none is leased a second
      time by one of these. */
  lemma {:induction false} RawNeverReuses(
      d: TenantData, first: Op, between: seq<Op>, second: Op, a: Addr, b: Addr)
    requires Valid(d) && NewLease(RawText, d, first, a)
    requires NewLease(RawText, Run(RawText, After(RawText, d, first), between), second, b)
    ensures a < b
  {
    var d1 := After(RawText, d, first);
    NewLeaseIs(RawText, d, first, a);
    NewLeaseIs(RawText, Run(RawText, d1, between), second, b);
    RawCursorRises(d1, between);
  }

  /** How many calls of the run took a free address and completed. */
  ghost function NewLeases(mode: Reset, d: TenantData, ops: seq<Op>): nat
    requires Valid(d)
  {
    if ops == [] then 0
    else
      var n := |ops| - 1;
      NewLeases(mode, d, ops[..n]) + if exists a :: NewLease(mode, Run(mode, d, ops[..n]), ops[n], a) then 1 else 0
  }

  lemma {:induction false} RawLeasesAdvance(d: TenantData, ops: seq<Op>)
    requires Valid(d)
    ensures d.last.value + NewLeases(RawText, d, ops) <= Run(RawText, d, ops).last.value
  {
    if ops != [] {
      var n := |ops| - 1;
      RawLeasesAdvance(d, ops[..n]);
      var d1 := Run(RawText, d, ops[..n]);
      if a :| NewLease(RawText, d1, ops[n], a) {
        NewLeaseIs(RawText, d1, ops[n], a);
      } else {
        RawCursorRises(d1, [ops[n]]);
        assert [ops[n]][..0] == [];
      }
    }
  }

  /** As written, a tenant that has handed out size - 2 addresses since it was set up (254 in a /24)
      hangs on every further container, even when all of them have been released. */
  lemma {:induction false} RawServesOnce(d: TenantData, ops: seq<Op>, info: NetInfo)
    requires Valid(d) && d.last == Some(d.gateway)
    ensures NewLeases(RawText, d, ops) <= d.size - 2
    ensures var d1 := Run(RawText, d, ops);
            NewLeases(RawText, d, ops) == d.size - 2 && Holder(d1.ips, info.id).None?
            ==> Allocate(RawText, d1, info) == (d1, Hangs)
  {
    RawLeasesAdvance(d, ops);
    RawScanEndsIff(Run(RawText, d, ops));
  }

  lemma {:induction false} HeldStep(mode: Reset, d: TenantData, op: Op, id: string, a: Addr)
    requires Valid(d) && Holder(d.ips, id) == Some(a) && op != Rel(id)
    ensures Holder(After(mode, d, op).ips, id) == Some(a)
  {
    HolderIs(d.ips, id);
    if ScanResult(mode, d).Picked? {
      PickedIsFree(mode, d);
    }
    if op.Rel? {
      HolderIs(d.ips, op.id);
    }
    assert a in After(mode, d, op).ips && After(mode, d, op).ips[a].id == id;
    HolderIs(After(mode, d, op).ips, id);
  }

  /** A container keeps its address, whatever happens, until it is released; so a retry after a death
      between the stores gets the address that was stored. */
  lemma {:induction false} HeldUntilReleased(mode: Reset, d: TenantData, ops: seq<Op>, id: string, a: Addr)
    requires Valid(d) && Holder(d.ips, id) == Some(a)
    requires forall i :: 0 <= i < |ops| ==> ops[i] != Rel(id)
    ensures Holder(Run(mode, d, ops).ips, id) == Some(a)
    ensures forall info: NetInfo :: info.id == id ==>
              Allocate(mode, Run(mode, d, ops), info) == (Run(mode, d, ops), Ip(a))
  {
    if ops != [] {
      var n := |ops| - 1;
      HeldUntilReleased(mode, d, ops[..n], id, a);
      HeldStep(mode, Run(mode, d, ops[..n]), ops[n], id, a);
    }
  }
}
