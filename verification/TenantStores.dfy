/** The tenant store and the tenant allocator, as objects updated in place.

    file stands for the JSON file: a load or a store copies it as a whole. locked is the file lock. */
module TenantStores {
  import opened Options
  import opened Text
  import opened Leases

  class TenantStore {
    var data: TenantData
    var file: TenantData
    var locked: bool

    constructor (onDisk: TenantData)
      ensures data == file == onDisk && !locked
    {
      data, file, locked := onDisk, onDisk, false;
    }

    method LoadTenantData()
      modifies this`data
      ensures data == file
    {
      data := file;
    }

    method StoreTenantData()
      modifies this`file
      ensures file == data
    {
      file := data;
    }

    /** Visits the lease map in any order. */
    method GetIPByID(id: string) returns (ip: Option<Addr>)
      ensures ip.Some? ==> ip.value in data.ips && data.ips[ip.value].id == id
      ensures ip.None? ==> forall a :: a in data.ips ==> data.ips[a].id != id
      ensures UniqueIds(data.ips) ==> ip == Holder(data.ips, id)
    {
      HolderIs(data.ips, id);
      var rest := data.ips.Keys;
      while rest != {}
        invariant rest <= data.ips.Keys
        invariant forall a :: a in data.ips.Keys - rest ==> data.ips[a].id != id
      {
        var a :| a in rest;
        if data.ips[a].id == id {
          return Some(a);
        }
        rest := rest - {a};
      }
      return None;
    }

    method Contains(ip: Addr) returns (found: bool)
      ensures found <==> ip in data.ips
    {
      found := ip in data.ips;
    }

    method Add(ip: Addr, info: NetInfo)
      modifies this`data, this`file
      ensures data == old(data).(ips := old(data).ips[ip := info]) && file == data
    {
      data := data.(ips := data.ips[ip := info]);
      StoreTenantData();
    }

    /** Drops the first lease of the container that the map iteration meets, and stores only then. */
    method Del(id: string)
      modifies this`data, this`file
      ensures UniqueIds(old(data).ips) ==> data == Release(old(data), id)
      ensures (forall a :: a in old(data).ips ==> old(data).ips[a].id != id) ==> data == old(data)
      ensures file == if data == old(data) then old(file) else data
    {
      HolderIs(data.ips, id);
      var rest := data.ips.Keys;
      while rest != {}
        invariant data == old(data) && file == old(file)
        invariant rest <= data.ips.Keys
        invariant forall a :: a in data.ips.Keys - rest ==> data.ips[a].id != id
      {
        var a :| a in rest;
        if data.ips[a].id == id {
          data := data.(ips := data.ips - {a});
          assert a !in data.ips && a in old(data).ips;
          StoreTenantData();
          return;
        }
        rest := rest - {a};
      }
    }

    /** The locked allocator call. When the scan never ends the call never returns and keeps the lock;
        the method answers Hangs there. */
    method AllocateIP(mode: Reset, info: NetInfo) returns (reply: Reply)
      requires !locked && Valid(file)
      modifies this
      ensures (file, reply) == Allocate(mode, old(file), info)
      ensures locked <==> reply == Hangs
    {
      locked := true;
      LoadTenantData();
      var held := GetIPByID(info.id);
      if held.Some? {
        locked := false;
        return Ip(held.value);
      }
      var scan := ScanForFree(mode);
      match scan
      case Picked(next) =>
        Add(next, info);
        data := data.(last := Some(next));
        StoreTenantData();
        locked := false;
        return Ip(next);
      case Looping(_) => return Hangs;
      case _ =>
        locked := false;
        return Failed;
    }

    /** The loop of AllocateIP, up to the address it stores. A pass that overflows and leaves start
        where it was repeats for ever in the source; the method answers Looping there. */
    method ScanForFree(mode: Reset) returns (scan: Scan)
      requires Valid(data)
      ensures scan == ScanResult(mode, data)
    {
      ghost var d := data;
      var lastIP := LastIP(mode, data);
      var start := lastIP;
      ghost var k := 0;
      ghost var wrapped := false;
      while true
        invariant lastIP == Parsed(d.last.value)
        invariant k <= d.size - 2 && (mode == RawText ==> k <= Ahead(d))
        invariant forall i :: 1 <= i <= k ==> Candidate(d, i) in d.ips
        invariant FirstFree(d, 1, d.size - 2) == FirstFree(d, k + 1, d.size - 2)
        invariant mode == RawText ==> FirstFree(d, 1, Ahead(d)) == FirstFree(d, k + 1, Ahead(d))
        invariant k > 0 ==> Candidate(d, k) != d.last.value
        invariant wrapped ==> k == Ahead(d) && (mode == ParsedAddr ==> d.last.value != d.gateway)
        invariant start == if wrapped then ResetIP(mode, d.gateway) else Parsed(Candidate(d, k))
        decreases d.size - k, !wrapped
      {
        var next := NextIP(data, start);
        if next.None? && lastIP != ResetIP(mode, data.gateway) {
          if start == ResetIP(mode, data.gateway) {
            return Looping(start);
          }
          start := ResetIP(mode, data.gateway);
          wrapped := true;
          continue;
        } else if next.None? {
          return Overflow;
        }
        assert next.value == Candidate(d, k + 1);
        var taken := Contains(next.value);
        if !taken {
          return Picked(next.value);
        }
        start := Parsed(next.value);
        if start == lastIP {
          break;
        }
        k, wrapped := k + 1, false;
      }
      assert d.last.value == Candidate(d, k + 1) && k + 1 == d.size - 2;
      return NoMoreIPs;
    }

    method ReleaseIP(id: string)
      requires !locked && Valid(file)
      modifies this
      ensures file == Release(old(file), id) && !locked
    {
      locked := true;
      LoadTenantData();
      Del(id);
      locked := false;
    }

    /** The read lock is shared; the file is not written. */
    method CheckIP(id: string) returns (reply: Reply)
      requires !locked && Valid(file)
      modifies this`data
      ensures reply == Check(file, id)
    {
      LoadTenantData();
      var held := GetIPByID(id);
      return if held.Some? then Ip(held.value) else Failed;
    }
  }
}
