/** The data of one tenant store and the cyclic scan over it.

    The tenant block starts at base (the VTEP address); base + 1 is the bridge gateway and every
    later address of the block can be leased. AllocateIP restarts its scan with net.IP(gtw), where gtw
    is the printed gateway: that conversion keeps the bytes of the text instead of parsing it. Both
    readings are modelled: RawText is the code as it stands, ParsedAddr is the evident intent. */
module Leases {
  import opened Options
  import opened Text

  datatype NetInfo = NetInfo(id: string, ifName: string, netns: string, podName: string)

  datatype TenantData = TenantData(
    base: Addr, size: nat, gateway: Addr, ips: map<Addr, NetInfo>, last: Option<Addr>)

  ghost predicate Usable(d: TenantData, x: int) {
    d.base + 2 <= x < d.base + d.size
  }

  ghost function UsableSet(d: TenantData): set<Addr> {
    set x: Addr | d.base + 2 <= x < d.base + d.size && Usable(d, x)
  }

  ghost predicate UniqueIds(ips: map<Addr, NetInfo>) {
    forall a, b :: a in ips && b in ips && ips[a].id == ips[b].id ==> a == b
  }

  ghost predicate Valid(d: TenantData) {
    && 2 <= d.size && d.base + d.size <= SPACE && d.gateway == d.base + 1
    && d.last.Some? && d.gateway <= d.last.value < d.base + d.size
    && (forall a :: a in d.ips ==> Usable(d, a))
    && UniqueIds(d.ips)
  }

  // ---------------------------------------------------------------- the loop of AllocateIP

  datatype Reset = RawText | ParsedAddr

  /** A net.IP: a parsed address, or bytes that are neither 4 nor 16 long and so denote none. */
  datatype IP = Parsed(addr: Addr) | Raw(text: string)

  /** Where one pass of the loop leaves it. */
  datatype Scan = Looping(start: IP) | Picked(addr: Addr) | Overflow | NoMoreIPs

  function ResetIP(mode: Reset, gateway: Addr): IP {
    match mode
    case RawText => Raw(PrintAddr(gateway))
    case ParsedAddr => Parsed(gateway)
  }

  function LastIP(mode: Reset, d: TenantData): IP {
    match d.last
    case Some(a) => Parsed(a)
    case None => ResetIP(mode, d.gateway)
  }

  /** The successor of ip when it lies in the block. Bytes that denote no address have none. */
  function NextIP(d: TenantData, ip: IP): Option<Addr> {
    match ip
    case Raw(_) => None
    case Parsed(a) =>
      if a + 1 < SPACE && d.base <= a + 1 < d.base + d.size then Some(a + 1) else None
  }

  function Iterate(mode: Reset, d: TenantData, s: Scan): Scan {
    if !s.Looping? then s
    else
      match NextIP(d, s.start)
      case None =>
        if LastIP(mode, d) != ResetIP(mode, d.gateway) then Looping(ResetIP(mode, d.gateway)) else Overflow
      case Some(next) =>
        if next !in d.ips then Picked(next)
        else if Parsed(next) == LastIP(mode, d) then NoMoreIPs
        else Looping(Parsed(next))
  }

  function IterateN(mode: Reset, d: TenantData, s: Scan, n: nat): Scan
    decreases n
  {
    if n == 0 then s else IterateN(mode, d, Iterate(mode, d, s), n - 1)
  }

  // ---------------------------------------------------------------- its meaning

  /** The k-th usable address after the cursor, wrapping past the VTEP and the gateway. */
  function Candidate(d: TenantData, k: nat): int
    requires d.last.Some?
  {
    var x := d.last.value + k;
    if x < d.base + d.size then x else x - d.size + 2
  }

  /** The first free address among the candidates k .. n. */
  function FirstFree(d: TenantData, k: nat, n: int): Option<Addr>
    requires Valid(d) && n <= d.size - 2
    decreases n - k
  {
    if k > n then None
    else if Candidate(d, k) !in d.ips then Some(Candidate(d, k))
    else FirstFree(d, k + 1, n)
  }

  /** How many candidates there are before the scan leaves the block. */
  function Ahead(d: TenantData): int
    requires d.last.Some?
  {
    d.base + d.size - 1 - d.last.value
  }

  /** What the loop computes. Looping means that it never ends. */
  function ScanResult(mode: Reset, d: TenantData): Scan
    requires Valid(d)
  {
    match mode
    case ParsedAddr => (
      match FirstFree(d, 1, d.size - 2)
      case Some(a) => Picked(a)
      case None => if d.last.value == d.gateway then Overflow else NoMoreIPs)
    case RawText => (
      match FirstFree(d, 1, Ahead(d))
      case Some(a) => Picked(a)
      case None => Looping(Raw(PrintAddr(d.gateway))))
  }

  lemma {:induction false} FirstFreeMeans(d: TenantData, k: nat, n: int)
    requires Valid(d) && n <= d.size - 2
    ensures match FirstFree(d, k, n)
            case None => forall i :: k <= i <= n ==> Candidate(d, i) in d.ips
            case Some(a) =>
              && a !in d.ips
              && exists i :: k <= i <= n && a == Candidate(d, i)
                             && forall j :: k <= j < i ==> Candidate(d, j) in d.ips
    decreases n - k
  {
    if k <= n && Candidate(d, k) in d.ips {
      FirstFreeMeans(d, k + 1, n);
      if FirstFree(d, k, n).Some? {
        var a := FirstFree(d, k, n).value;
        var i :| k + 1 <= i <= n && a == Candidate(d, i)
                 && forall j :: k + 1 <= j < i ==> Candidate(d, j) in d.ips;
        assert k <= i <= n && forall j :: k <= j < i ==> Candidate(d, j) in d.ips;
      }
    } else if k <= n {
      assert k <= k <= n && FirstFree(d, k, n).value == Candidate(d, k);
    }
  }

  /** The candidates 1 .. size - 2 are the usable addresses, each exactly once, ending at the cursor. */
  lemma {:induction false} CandidatesCover(d: TenantData)
    requires Valid(d)
    ensures forall i :: 1 <= i <= d.size - 2 ==> Usable(d, Candidate(d, i))
    ensures forall i, j :: 1 <= i < j <= d.size - 2 ==> Candidate(d, i) != Candidate(d, j)
    ensures forall x :: Usable(d, x) ==> exists i :: 1 <= i <= d.size - 2 && Candidate(d, i) == x
    ensures d.last.value != d.gateway ==> Candidate(d, d.size - 2) == d.last.value
  {
    forall x | Usable(d, x) ensures exists i :: 1 <= i <= d.size - 2 && Candidate(d, i) == x {
      var l := d.last.value;
      var i := if x > l then x - l else x - l + d.size - 2;
      assert 1 <= i <= d.size - 2 && Candidate(d, i) == x;
    }
  }

  lemma {:induction false} ParsedScanFrom(d: TenantData, k: nat) returns (n: nat)
    requires Valid(d) && k <= d.size - 2
    requires k > 0 ==> Candidate(d, k) != d.last.value
    requires forall i :: 1 <= i <= k ==> Candidate(d, i) in d.ips
    requires FirstFree(d, 1, d.size - 2) == FirstFree(d, k + 1, d.size - 2)
    ensures n <= d.size - 2 - k + (if Candidate(d, k) < d.last.value then 0 else 1)
    ensures IterateN(ParsedAddr, d, Looping(Parsed(Candidate(d, k))), n) == ScanResult(ParsedAddr, d)
    decreases d.size - k
  {
    var here := Candidate(d, k);
    var s := Looping(Parsed(here));
    var s1 := Iterate(ParsedAddr, d, s);
    if here + 1 < d.base + d.size {
      n := ParsedScanStep(d, k, s);
    } else if d.last.value == d.gateway {
      assert k == d.size - 2;
      n := 1;
      assert IterateN(ParsedAddr, d, s1, 0) == Overflow;
    } else {
      assert s1 == Looping(Parsed(d.gateway));
      n := ParsedScanStep(d, k, s1);
      n := n + 1;
    }
  }

  /** From a loop state whose successor is candidate k + 1. */
  lemma {:induction false} ParsedScanStep(d: TenantData, k: nat, s: Scan) returns (n: nat)
    requires Valid(d) && k < d.size - 2
    requires forall i :: 1 <= i <= k ==> Candidate(d, i) in d.ips
    requires FirstFree(d, 1, d.size - 2) == FirstFree(d, k + 1, d.size - 2)
    requires s.Looping? && NextIP(d, s.start) == Some(Candidate(d, k + 1))
    ensures n <= d.size - 2 - k + (if Candidate(d, k + 1) <= d.last.value then 0 else 1)
    ensures IterateN(ParsedAddr, d, s, n) == ScanResult(ParsedAddr, d)
    decreases d.size - k, 0
  {
    var s1 := Iterate(ParsedAddr, d, s);
    var next := Candidate(d, k + 1);
    if next !in d.ips || next == d.last.value {
      n := 1;
      assert IterateN(ParsedAddr, d, s1, 0) == s1;
      assert next == d.last.value ==> k + 1 == d.size - 2;
    } else {
      n := ParsedScanFrom(d, k + 1);
      n := n + 1;
    }
  }

  /** With the gateway parsed, the loop ends within size - 1 passes, on every valid store. */
  lemma {:induction false} ParsedScanEnds(d: TenantData)
    requires Valid(d)
    ensures exists n: nat :: n <= d.size - 1 && IterateN(ParsedAddr, d, Looping(LastIP(ParsedAddr, d)), n) == ScanResult(ParsedAddr, d)
    ensures !ScanResult(ParsedAddr, d).Looping?
  {
    var n := ParsedScanFrom(d, 0);
    assert Looping(Parsed(Candidate(d, 0))) == Looping(LastIP(ParsedAddr, d));
  }

  lemma {:induction false} RawScanFrom(d: TenantData, k: nat) returns (n: nat)
    requires Valid(d) && k <= Ahead(d)
    requires forall i :: 1 <= i <= k ==> Candidate(d, i) in d.ips
    requires FirstFree(d, 1, Ahead(d)) == FirstFree(d, k + 1, Ahead(d))
    ensures IterateN(RawText, d, Looping(Parsed(Candidate(d, k))), n) == ScanResult(RawText, d)
    decreases Ahead(d) - k
  {
    var s := Looping(Parsed(Candidate(d, k)));
    var s1 := Iterate(RawText, d, s);
    if k == Ahead(d) || Candidate(d, k + 1) !in d.ips {
      n := 1;
      assert IterateN(RawText, d, s1, 0) == s1;
    } else {
      n := RawScanFrom(d, k + 1);
      n := n + 1;
    }
  }

  /** Bytes that denote no address have no successor, so the loop stays where it is. */
  lemma {:induction false} RawIsStuck(d: TenantData, n: nat)
    requires Valid(d)
    ensures var s := Looping(Raw(PrintAddr(d.gateway))); IterateN(RawText, d, s, n) == s
  {
    if n > 0 {
      RawIsStuck(d, n - 1);
    }
  }

  lemma {:induction false} IterateNSum(mode: Reset, d: TenantData, s: Scan, m: nat, n: nat)
    ensures IterateN(mode, d, IterateN(mode, d, s, m), n) == IterateN(mode, d, s, m + n)
    decreases m
  {
    if m > 0 {
      IterateNSum(mode, d, Iterate(mode, d, s), m - 1, n);
    }
  }

  lemma {:induction false} EndedStays(mode: Reset, d: TenantData, s: Scan, n: nat)
    requires !s.Looping?
    ensures IterateN(mode, d, s, n) == s
    decreases n
  {
    if n > 0 {
      EndedStays(mode, d, s, n - 1);
    }
  }

  /** As written, the loop ends if and only if some address between the cursor and the end of the
      block is free, and then it picks what the intended loop picks. Otherwise no number of passes
      ends it. */
  lemma {:induction false} RawScanEndsIff(d: TenantData)
    requires Valid(d)
    ensures var s := Looping(LastIP(RawText, d));
            var freeAhead := exists x: Addr :: d.last.value < x < d.base + d.size && x !in d.ips;
            && (freeAhead ==> exists n: nat :: IterateN(RawText, d, s, n) == ScanResult(ParsedAddr, d))
            && (freeAhead ==> ScanResult(RawText, d) == ScanResult(ParsedAddr, d) && ScanResult(RawText, d).Picked?)
            && (!freeAhead ==> forall n: nat :: IterateN(RawText, d, s, n).Looping?)
            && (!freeAhead <==> ScanResult(RawText, d).Looping?)
  {
    var s := Looping(LastIP(RawText, d));
    var m := RawScanFrom(d, 0);
    FirstFreeMeans(d, 1, Ahead(d));
    if FirstFree(d, 1, Ahead(d)).Some? {
      FirstFreeSplit(d, 1);
    } else {
      forall x: Addr | d.last.value < x < d.base + d.size ensures x in d.ips {
        assert Candidate(d, x - d.last.value) == x;
      }
      forall n: nat ensures IterateN(RawText, d, s, n).Looping? {
        if n >= m {
          IterateNSum(RawText, d, s, m, n - m);
          RawIsStuck(d, n - m);
        } else if !IterateN(RawText, d, s, n).Looping? {
          IterateNSum(RawText, d, s, n, m - n);
          EndedStays(RawText, d, IterateN(RawText, d, s, n), m - n);
        }
      }
    }
  }

  lemma {:induction false} FirstFreeSplit(d: TenantData, k: nat)
    requires Valid(d) && k >= 1
    ensures FirstFree(d, k, Ahead(d)).Some? ==> FirstFree(d, k, d.size - 2) == FirstFree(d, k, Ahead(d))
    decreases Ahead(d) - k
  {
    if k <= Ahead(d) {
      FirstFreeSplit(d, k + 1);
    }
  }

  /** A file without a cursor: read as intended the scan is the one of a fresh tenant, as written it
      overflows at once. AllocateTenant always writes a cursor, so Valid asks for one. */
  lemma {:induction false} EmptyCursor(d: TenantData, s: Scan, n: nat)
    requires d.last.None?
    ensures var d1 := d.(last := Some(d.gateway));
            && LastIP(ParsedAddr, d) == LastIP(ParsedAddr, d1)
            && IterateN(ParsedAddr, d, s, n) == IterateN(ParsedAddr, d1, s, n)
    ensures Iterate(RawText, d, Looping(LastIP(RawText, d))) == Overflow
    decreases n
  {
    if n > 0 {
      EmptyCursor(d, Iterate(ParsedAddr, d, s), n - 1);
    }
  }

  // ---------------------------------------------------------------- capacity

  lemma {:induction false} IntervalSize(s: set<Addr>, lo: Addr, n: nat)
    requires lo + n <= SPACE && forall x: Addr :: x in s <==> lo <= x < lo + n
    ensures |s| == n
  {
    if n == 0 {
      assert forall x: Addr :: x !in s;
    } else {
      IntervalSize(s - {lo + n - 1}, lo, n - 1);
    }
  }

  lemma {:induction false} SubsetSize<T>(s: set<T>, t: set<T>)
    requires s <= t
    ensures |s| <= |t| && (|s| == |t| ==> s == t)
  {
    if s != {} {
      var x :| x in s;
      SubsetSize(s - {x}, t - {x});
    }
  }

  lemma {:induction false} UsableSize(d: TenantData)
    requires Valid(d)
    ensures |UsableSet(d)| == d.size - 2
  {
    var u := UsableSet(d);
    if d.size > 2 {
      IntervalSize(u, d.base + 2, d.size - 2);
    } else {
      assert u == {};
    }
  }

  /** The scan has nothing to pick if and only if the block holds size - 2 leases, which is 254 in a
      /24; it can never hold more. */
  lemma {:induction false} ExactCapacity(d: TenantData)
    requires Valid(d)
    ensures |d.ips| <= d.size - 2
    ensures ScanResult(ParsedAddr, d).Picked? <==> |d.ips| < d.size - 2
    ensures d.size == 256 ==> (ScanResult(ParsedAddr, d).Picked? <==> |d.ips| < 254)
  {
    var u := UsableSet(d);
    UsableSize(d);
    SubsetSize(d.ips.Keys, u);
    FirstFreeMeans(d, 1, d.size - 2);
    CandidatesCover(d);
    if ScanResult(ParsedAddr, d).Picked? {
      var a := ScanResult(ParsedAddr, d).addr;
      assert a in u && a !in d.ips;
    } else {
      forall x | x in u ensures x in d.ips {
        var i :| 1 <= i <= d.size - 2 && Candidate(d, i) == x;
      }
      assert d.ips.Keys == u;
    }
  }

  // ---------------------------------------------------------------- one locked call

  /** The address held by a container, if any. */
  ghost function Holder(ips: map<Addr, NetInfo>, id: string): Option<Addr> {
    if exists a :: a in ips && ips[a].id == id
    then var a :| a in ips && ips[a].id == id; Some(a)
    else None
  }

  datatype Reply = Ip(addr: Addr) | Failed | Released | Hangs

  ghost function Allocate(mode: Reset, d: TenantData, info: NetInfo): (r: (TenantData, Reply))
    requires Valid(d)
  {
    match Holder(d.ips, info.id)
    case Some(a) => (d, Ip(a))
    case None =>
      match ScanResult(mode, d)
      case Picked(a) => (d.(ips := d.ips[a := info], last := Some(a)), Ip(a))
      case Looping(_) => (d, Hangs)
      case _ => (d, Failed)
  }

  /** The first of the two stores of an allocation: the lease is written with the old cursor. */
  ghost function AllocateHalf(mode: Reset, d: TenantData, info: NetInfo): (r: TenantData)
    requires Valid(d)
  {
    Allocate(mode, d, info).0.(last := d.last)
  }

  ghost function Release(d: TenantData, id: string): TenantData {
    match Holder(d.ips, id)
    case Some(a) => d.(ips := d.ips - {a})
    case None => d
  }

  ghost function Check(d: TenantData, id: string): Reply {
    match Holder(d.ips, id)
    case Some(a) => Ip(a)
    case None => Failed
  }

  lemma {:induction false} HolderIs(ips: map<Addr, NetInfo>, id: string)
    ensures Holder(ips, id).None? <==> forall a :: a in ips ==> ips[a].id != id
    ensures Holder(ips, id).Some? ==> Holder(ips, id).value in ips && ips[Holder(ips, id).value].id == id
    ensures UniqueIds(ips) ==> forall a :: a in ips && ips[a].id == id ==> Holder(ips, id) == Some(a)
  {
  }

  lemma {:induction false} PickedIsFree(mode: Reset, d: TenantData)
    requires Valid(d) && ScanResult(mode, d).Picked?
    ensures var a := ScanResult(mode, d).addr; Usable(d, a) && a !in d.ips
    ensures mode == RawText ==> d.last.value < ScanResult(mode, d).addr
  {
    var n := if mode == RawText then Ahead(d) else d.size - 2;
    FirstFreeMeans(d, 1, n);
    CandidatesCover(d);
  }

  /** Whatever the call, the store stays valid: one address per container, one container per
      address, and only usable addresses; also between the two stores of an allocation. */
  lemma {:induction false} CallsKeepValid(mode: Reset, d: TenantData, info: NetInfo)
    requires Valid(d)
    ensures Valid(Allocate(mode, d, info).0)
    ensures Valid(AllocateHalf(mode, d, info))
    ensures Valid(Release(d, info.id))
  {
    HolderIs(d.ips, info.id);
    if ScanResult(mode, d).Picked? {
      PickedIsFree(mode, d);
    }
  }

  /** An allocation succeeds exactly when the container already holds an address or the block has
      fewer than size - 2 leases; a failure changes nothing; a repeated call changes nothing and
      answers the same; check agrees with it until the container is released. */
  lemma {:induction false} AllocateMeans(d: TenantData, info: NetInfo)
    requires Valid(d)
    ensures var (d1, r) := Allocate(ParsedAddr, d, info);
            && Valid(d1)
            && (r.Ip? <==> Holder(d.ips, info.id).Some? || |d.ips| < d.size - 2)
            && (!r.Ip? ==> d1 == d && r == Failed)
            && (r.Ip? ==> && r.addr in d1.ips && d1.ips[r.addr].id == info.id
                          && (forall again: NetInfo :: again.id == info.id ==>
                                Allocate(ParsedAddr, d1, again) == (d1, r))
                          && Check(d1, info.id) == r
                          && Check(Release(d1, info.id), info.id) == Failed)
  {
    ExactCapacity(d);
    HolderIs(d.ips, info.id);
    CallsKeepValid(ParsedAddr, d, info);
    if ScanResult(ParsedAddr, d).Picked? {
      PickedIsFree(ParsedAddr, d);
    }
    var d1 := Allocate(ParsedAddr, d, info).0;
    HolderIs(d1.ips, info.id);
    HolderIs(Release(d1, info.id).ips, info.id);
  }

  /** A fresh allocation takes the first free address in cyclic order after the cursor: every usable
      address on the way to it is leased. */
  lemma {:induction false} AllocateIsNextFit(d: TenantData, info: NetInfo)
    requires Valid(d) && Holder(d.ips, info.id).None? && Allocate(ParsedAddr, d, info).1.Ip?
    ensures var a := Allocate(ParsedAddr, d, info).1.addr;
            && Usable(d, a) && a !in d.ips
            && Allocate(ParsedAddr, d, info).0 == d.(ips := d.ips[a := info], last := Some(a))
            && forall x: Addr :: Usable(d, x) && Steps(d, x) < Steps(d, a) ==> x in d.ips
  {
    FirstFreeMeans(d, 1, d.size - 2);
    CandidatesCover(d);
    var a := Allocate(ParsedAddr, d, info).1.addr;
    forall x: Addr | Usable(d, x) && Steps(d, x) < Steps(d, a) ensures x in d.ips {
      assert Candidate(d, Steps(d, x)) == x;
    }
  }

  /** How far a usable address lies after the cursor, going round the block; the cursor comes last. */
  function Steps(d: TenantData, x: Addr): int
    requires d.last.Some?
  {
    if x > d.last.value then x - d.last.value else x - d.last.value + d.size - 2
  }
}
