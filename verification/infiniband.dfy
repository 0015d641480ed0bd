/**
 * `tools/amgctl/internal/hardware/infiniband.go`: the docker `--device=` flags
 * for the InfiniBand character devices, and the InfiniBand network interfaces
 * with their addresses and link state. Device existence, sysfs, the
 * `/dev/infiniband` listing and `net.Interfaces` are inputs.
 */
module Infiniband {
  import opened Wrappers
  import opened Strings

  const DeviceDir: string := "/dev/infiniband/"
  const RdmaCmDevice: string := "/dev/infiniband/rdma_cm"

  /** `--device=<path>`. */
  function DeviceFlag(path: string): string { "--device=" + path }

  /** `containsDevice`: the scan with an early return. */
  method ContainsDevice(flags: seq<string>, device: string) returns (found: bool)
    ensures found <==> DeviceFlag(device) in flags
  {
    var deviceFlag := DeviceFlag(device);
    for i := 0 to |flags|
      invariant deviceFlag !in flags[..i]
    {
      if flags[i] == deviceFlag {
        return true;
      }
      PrefixSnoc(flags, i);
    }
    PrefixAll(flags);
    return false;
  }

  /** What `sysfs.NewFS("/sys")` and `InfiniBandClass()` report; `names` are the class's device names in iteration order. */
  datatype Sysfs = NoSysfs(error: string) | NoClass(error: string) | Class(names: seq<string>)

  /** The uverbs device for a sysfs name: a leading "mlx" is dropped. */
  function UverbsPath(name: string): string {
    DeviceDir + "uverbs" + TrimPrefix(name, "mlx")
  }

  /** The flags of the sysfs loop: each device's uverbs node, when it exists. */
  function SysfsFlags(names: seq<string>, present: string -> bool): (r: seq<string>)
    ensures |r| <= |names|
    decreases |names|
  {
    if |names| == 0 then []
    else
      var last := names[|names| - 1];
      SysfsFlags(names[..|names| - 1], present)
      + (if present(UverbsPath(last)) then [DeviceFlag(UverbsPath(last))] else [])
  }

  /** The `/dev/infiniband` entries the directory scan considers. */
  predicate Scanned(entry: string) { HasPrefix(entry, "uverbs") || entry == "rdma_cm" }

  /** One step of the directory scan: add the entry's flag unless it is already there. */
  function ScanStep(flags: seq<string>, entry: string): seq<string> {
    if Scanned(entry) && DeviceFlag(DeviceDir + entry) !in flags then flags + [DeviceFlag(DeviceDir + entry)]
    else flags
  }

  /** The directory scan over `entries`, starting from `flags`. */
  function ScanFlags(flags: seq<string>, entries: seq<string>): seq<string>
    decreases |entries|
  {
    if |entries| == 0 then flags else ScanFlags(ScanStep(flags, entries[0]), entries[1..])
  }

  /**
   * The flag list `GetInfinibandDeviceFlags` joins: rdma_cm if present, the
   * sysfs devices, then the directory scan (skipped when `/dev/infiniband`
   * cannot be read, `listing == None`).
   */
  function DeviceFlagList(present: string -> bool, sysfs: Sysfs, listing: Option<seq<string>>): Result<seq<string>>
  {
    if sysfs.NoSysfs? then Err("failed to initialize sysfs: " + sysfs.error)
    else if sysfs.NoClass? then Err("failed to read InfiniBand class information: " + sysfs.error)
    else
      var base := (if present(RdmaCmDevice) then [DeviceFlag(RdmaCmDevice)] else [])
                  + SysfsFlags(sysfs.names, present);
      Ok(if listing.Some? then ScanFlags(base, listing.value) else base)
  }

  /** `GetInfinibandDeviceFlags`: the flags joined by single spaces. */
  function DeviceFlags(present: string -> bool, sysfs: Sysfs, listing: Option<seq<string>>): Result<string>
  {
    var flags := DeviceFlagList(present, sysfs, listing);
    if flags.Err? then Err(flags.error) else Ok(Join(flags.value, " "))
  }

  /** `GetInfinibandDeviceFlags`: three append loops, the last guarded by `containsDevice`. */
  method GetInfinibandDeviceFlags(present: string -> bool, sysfs: Sysfs, listing: Option<seq<string>>)
    returns (r: Result<string>)
    ensures r == DeviceFlags(present, sysfs, listing)
  {
    var deviceFlags: seq<string> := [];
    if present(RdmaCmDevice) {
      deviceFlags := deviceFlags + [DeviceFlag(RdmaCmDevice)];
    }
    if sysfs.NoSysfs? {
      return Err("failed to initialize sysfs: " + sysfs.error);
    }
    if sysfs.NoClass? {
      return Err("failed to read InfiniBand class information: " + sysfs.error);
    }
    ghost var start := deviceFlags;
    var names := sysfs.names;
    for i := 0 to |names|
      invariant deviceFlags == start + SysfsFlags(names[..i], present)
    {
      var uverbsDevice := UverbsPath(names[i]);
      assert names[..i + 1][..i] == names[..i];
      if present(uverbsDevice) {
        AppendAssoc(start, SysfsFlags(names[..i], present), [DeviceFlag(uverbsDevice)]);
        deviceFlags := deviceFlags + [DeviceFlag(uverbsDevice)];
      }
    }
    PrefixAll(names);
    assert deviceFlags == (if present(RdmaCmDevice) then [DeviceFlag(RdmaCmDevice)] else []) + SysfsFlags(names, present);
    if listing.Some? {
      var entries := listing.value;
      ghost var base := deviceFlags;
      for i := 0 to |entries|
        invariant ScanFlags(deviceFlags, entries[i..]) == ScanFlags(base, entries)
      {
        var deviceName := entries[i];
        assert entries[i..][1..] == entries[i + 1..];
        ghost var step := ScanStep(deviceFlags, deviceName);
        if HasPrefix(deviceName, "uverbs") || deviceName == "rdma_cm" {
          var devicePath := DeviceDir + deviceName;
          var found := ContainsDevice(deviceFlags, devicePath);
          if !found {
            deviceFlags := deviceFlags + [DeviceFlag(devicePath)];
          }
        }
        assert deviceFlags == step;
      }
      assert entries[|entries|..] == [];
    }
    return Ok(Join(deviceFlags, " "));
  }

  /** The rdma_cm flag comes first whenever that device exists. */
  lemma RdmaCmFirst(present: string -> bool, sysfs: Sysfs, listing: Option<seq<string>>)
    requires present(RdmaCmDevice) && sysfs.Class?
    ensures DeviceFlagList(present, sysfs, listing).Ok?
    ensures var flags := DeviceFlagList(present, sysfs, listing).value;
      |flags| > 0 && flags[0] == DeviceFlag(RdmaCmDevice)
  {
    var base := [DeviceFlag(RdmaCmDevice)] + SysfsFlags(sysfs.names, present);
    if listing.Some? {
      ScanExtends(base, listing.value);
    }
  }

  /** A sysfs failure is an error; a listing failure only skips the scan. */
  lemma DeviceFlagErrors(present: string -> bool, sysfs: Sysfs, listing: Option<seq<string>>)
    ensures DeviceFlags(present, sysfs, listing).Err? <==> !sysfs.Class?
    ensures sysfs.Class? && listing.None? ==>
      DeviceFlagList(present, sysfs, listing).value
        == (if present(RdmaCmDevice) then [DeviceFlag(RdmaCmDevice)] else []) + SysfsFlags(sysfs.names, present)
  {
  }

  /** The sysfs loop flags exactly the existing uverbs nodes of the listed devices. */
  lemma {:induction false} SysfsFlagsExactly(names: seq<string>, present: string -> bool)
    ensures forall f :: f in SysfsFlags(names, present) <==>
      exists k :: 0 <= k < |names| && present(UverbsPath(names[k])) && f == DeviceFlag(UverbsPath(names[k]))
    decreases |names|
  {
    if |names| > 0 {
      var init := names[..|names| - 1];
      SysfsFlagsExactly(init, present);
      forall f
        ensures f in SysfsFlags(names, present) <==>
          exists k :: 0 <= k < |names| && present(UverbsPath(names[k])) && f == DeviceFlag(UverbsPath(names[k]))
      {
        if f in SysfsFlags(init, present) {
          var k :| 0 <= k < |init| && present(UverbsPath(init[k])) && f == DeviceFlag(UverbsPath(init[k]));
          assert names[k] == init[k];
        }
        if exists k :: 0 <= k < |names| && present(UverbsPath(names[k])) && f == DeviceFlag(UverbsPath(names[k])) {
          var k :| 0 <= k < |names| && present(UverbsPath(names[k])) && f == DeviceFlag(UverbsPath(names[k]));
          if k < |init| {
            assert init[k] == names[k];
          }
        }
      }
    }
  }

  /** No element occurs twice. */
  predicate Distinct(xs: seq<string>) {
    forall i, j :: 0 <= i < j < |xs| ==> xs[i] != xs[j]
  }

  /** The scan only appends: what was there stays, at the front. */
  lemma {:induction false} ScanExtends(flags: seq<string>, entries: seq<string>)
    ensures |flags| <= |ScanFlags(flags, entries)| && ScanFlags(flags, entries)[..|flags|] == flags
    decreases |entries|
  {
    if |entries| > 0 {
      var next := ScanStep(flags, entries[0]);
      ScanExtends(next, entries[1..]);
      assert next[..|flags|] == flags;
      assert ScanFlags(flags, entries)[..|flags|] == ScanFlags(next, entries[1..])[..|next|][..|flags|];
    }
  }

  /** The scan never creates a duplicate. */
  lemma {:induction false} ScanKeepsDistinct(flags: seq<string>, entries: seq<string>)
    requires Distinct(flags)
    ensures Distinct(ScanFlags(flags, entries))
    decreases |entries|
  {
    if |entries| > 0 {
      var next := ScanStep(flags, entries[0]);
      if next != flags {
        var added := DeviceFlag(DeviceDir + entries[0]);
        assert next == flags + [added];
        forall i, j | 0 <= i < j < |next| ensures next[i] != next[j] {
          if j == |flags| {
            assert next[i] == flags[i];
          }
        }
      }
      ScanKeepsDistinct(next, entries[1..]);
    }
  }

  /** After the scan every uverbs or rdma_cm entry of the listing has its flag, and every new flag is one of them. */
  lemma {:induction false} ScanCovers(flags: seq<string>, entries: seq<string>)
    ensures forall e :: e in entries && Scanned(e) ==> DeviceFlag(DeviceDir + e) in ScanFlags(flags, entries)
    ensures forall f :: f in ScanFlags(flags, entries) ==>
      f in flags || exists e :: e in entries && Scanned(e) && f == DeviceFlag(DeviceDir + e)
    decreases |entries|
  {
    if |entries| > 0 {
      var next := ScanStep(flags, entries[0]);
      ScanCovers(next, entries[1..]);
      ScanExtends(next, entries[1..]);
      var result := ScanFlags(flags, entries);
      forall e | e in entries && Scanned(e) ensures DeviceFlag(DeviceDir + e) in result {
        if e == entries[0] {
          var d := DeviceFlag(DeviceDir + e);
          assert d in next;
          var k :| 0 <= k < |next| && next[k] == d;
          assert result[..|next|][k] == d;
        } else {
          assert e in entries[1..];
        }
      }
      forall f | f in result
        ensures f in flags || exists e :: e in entries && Scanned(e) && f == DeviceFlag(DeviceDir + e)
      {
        if f !in flags && f in next {
          assert Scanned(entries[0]) && f == DeviceFlag(DeviceDir + entries[0]);
        }
        if f !in next {
          var e :| e in entries[1..] && Scanned(e) && f == DeviceFlag(DeviceDir + e);
          assert e in entries;
        }
      }
    }
  }

  /** One address-less or addressed entry of `GetInfiniBandNetworkInterfaces`. */
  datatype IbInterface = IbInterface(name: string, ipAddress: string, status: string)

  /** What `net.Interfaces` reports for one interface: its name, `FlagUp`, and its addresses or their error. */
  datatype NetInterface = NetInterface(name: string, up: bool, addrs: Result<seq<string>>)

  const NoIpAssigned: string := "no IP assigned"

  function Status(up: bool): string { if up then "up" else "down" }

  /**
   * The entries of one interface's addresses that are kept: `usable(a)` stands
   * for "parses as CIDR or IP, and is IPv4 or a non-link-local IPv6".
   */
  function AddressEntries(name: string, status: string, addrs: seq<string>, usable: string -> bool): (r: seq<IbInterface>)
    ensures |r| <= |addrs|
    decreases |addrs|
  {
    if |addrs| == 0 then []
    else
      var last := addrs[|addrs| - 1];
      AddressEntries(name, status, addrs[..|addrs| - 1], usable)
      + (if usable(last) then [IbInterface(name, last, status)] else [])
  }

  /** The entries one interface contributes. */
  function InterfaceEntries(iface: NetInterface, usable: string -> bool): seq<IbInterface> {
    if !HasPrefix(iface.name, "ib") || iface.addrs.Err? then []
    else if |iface.addrs.value| == 0 then [IbInterface(iface.name, NoIpAssigned, Status(iface.up))]
    else AddressEntries(iface.name, Status(iface.up), iface.addrs.value, usable)
  }

  /** The entries of all interfaces, interface by interface. */
  function IbInterfaces(ifaces: seq<NetInterface>, usable: string -> bool): seq<IbInterface>
    decreases |ifaces|
  {
    if |ifaces| == 0 then []
    else IbInterfaces(ifaces[..|ifaces| - 1], usable) + InterfaceEntries(ifaces[|ifaces| - 1], usable)
  }

  /** The inner loop of `GetInfiniBandNetworkInterfaces`: one entry per usable address. */
  method AppendAddressEntries(acc: seq<IbInterface>, name: string, status: string, addrs: seq<string>, usable: string -> bool)
    returns (r: seq<IbInterface>)
    ensures r == acc + AddressEntries(name, status, addrs, usable)
  {
    r := acc;
    for j := 0 to |addrs|
      invariant r == acc + AddressEntries(name, status, addrs[..j], usable)
    {
      assert addrs[..j + 1][..j] == addrs[..j];
      if usable(addrs[j]) {
        AppendAssoc(acc, AddressEntries(name, status, addrs[..j], usable), [IbInterface(name, addrs[j], status)]);
        r := r + [IbInterface(name, addrs[j], status)];
      }
    }
    PrefixAll(addrs);
  }

  /** `GetInfiniBandNetworkInterfaces`, given what `net.Interfaces` returned. */
  method GetInfiniBandNetworkInterfaces(interfaces: Result<seq<NetInterface>>, usable: string -> bool)
    returns (r: Result<seq<IbInterface>>)
    ensures interfaces.Err? ==> r == Err("failed to get network interfaces: " + interfaces.error)
    ensures interfaces.Ok? ==> r == Ok(IbInterfaces(interfaces.value, usable))
  {
    if interfaces.Err? {
      return Err("failed to get network interfaces: " + interfaces.error);
    }
    var ifaces := interfaces.value;
    var ibInterfaces: seq<IbInterface> := [];
    for i := 0 to |ifaces|
      invariant ibInterfaces == IbInterfaces(ifaces[..i], usable)
    {
      var iface := ifaces[i];
      assert ifaces[..i + 1][..i] == ifaces[..i];
      ghost var before := ibInterfaces;
      if HasPrefix(iface.name, "ib") && iface.addrs.Ok? {
        var status := if iface.up then "up" else "down";
        var addrs := iface.addrs.value;
        if |addrs| == 0 {
          ibInterfaces := ibInterfaces + [IbInterface(iface.name, NoIpAssigned, status)];
        } else {
          ibInterfaces := AppendAddressEntries(ibInterfaces, iface.name, status, addrs, usable);
        }
      }
      assert ibInterfaces == before + InterfaceEntries(iface, usable);
    }
    PrefixAll(ifaces);
    return Ok(ibInterfaces);
  }

  /** Every entry of one interface carries its name, and "up" exactly when `FlagUp` is set. */
  lemma {:induction false} AddressEntriesOf(name: string, status: string, addrs: seq<string>, usable: string -> bool)
    ensures forall e :: e in AddressEntries(name, status, addrs, usable) ==>
      e.name == name && e.status == status && e.ipAddress in addrs && usable(e.ipAddress)
    decreases |addrs|
  {
    if |addrs| > 0 {
      AddressEntriesOf(name, status, addrs[..|addrs| - 1], usable);
      forall e | e in AddressEntries(name, status, addrs, usable)
        ensures e.name == name && e.status == status && e.ipAddress in addrs && usable(e.ipAddress)
      {
        if e in AddressEntries(name, status, addrs[..|addrs| - 1], usable) {
          assert e.ipAddress in addrs[..|addrs| - 1];
        }
      }
    }
  }

  /**
   * Only "ib*" interfaces appear; status is "up" iff `FlagUp`; an interface
   * without addresses yields the single "no IP assigned" entry.
   */
  lemma InterfaceEntriesOf(iface: NetInterface, usable: string -> bool)
    ensures forall e :: e in InterfaceEntries(iface, usable) ==>
      HasPrefix(iface.name, "ib") && e.name == iface.name && (e.status == "up" <==> iface.up)
    ensures HasPrefix(iface.name, "ib") && iface.addrs == Ok([]) ==>
      InterfaceEntries(iface, usable) == [IbInterface(iface.name, NoIpAssigned, Status(iface.up))]
  {
    if HasPrefix(iface.name, "ib") && iface.addrs.Ok? && |iface.addrs.value| > 0 {
      AddressEntriesOf(iface.name, Status(iface.up), iface.addrs.value, usable);
    }
  }

  /** Interfaces are reported in input order: the listing of a concatenation is the concatenation. */
  lemma {:induction false} IbInterfacesConcat(a: seq<NetInterface>, b: seq<NetInterface>, usable: string -> bool)
    ensures IbInterfaces(a + b, usable) == IbInterfaces(a, usable) + IbInterfaces(b, usable)
    decreases |b|
  {
    if |b| == 0 {
      assert a + b == a;
    } else {
      var b' := b[..|b| - 1];
      IbInterfacesConcat(a, b', usable);
      assert (a + b)[..|a + b| - 1] == a + b';
      assert (a + b)[|a + b| - 1] == b[|b| - 1];
      AppendAssoc(IbInterfaces(a, usable), IbInterfaces(b', usable), InterfaceEntries(b[|b| - 1], usable));
    }
  }

  /** Every reported entry belongs to an "ib*" interface of the input, with that interface's state. */
  lemma {:induction false} IbInterfacesOnlyIb(ifaces: seq<NetInterface>, usable: string -> bool)
    ensures forall e :: e in IbInterfaces(ifaces, usable) ==>
      HasPrefix(e.name, "ib") && exists k :: 0 <= k < |ifaces| && ifaces[k].name == e.name && (e.status == "up" <==> ifaces[k].up)
    decreases |ifaces|
  {
    if |ifaces| > 0 {
      var init := ifaces[..|ifaces| - 1];
      var last := ifaces[|ifaces| - 1];
      IbInterfacesOnlyIb(init, usable);
      InterfaceEntriesOf(last, usable);
      forall e | e in IbInterfaces(ifaces, usable)
        ensures HasPrefix(e.name, "ib") && exists k :: 0 <= k < |ifaces| && ifaces[k].name == e.name && (e.status == "up" <==> ifaces[k].up)
      {
        if e in IbInterfaces(init, usable) {
          var k :| 0 <= k < |init| && init[k].name == e.name && (e.status == "up" <==> init[k].up);
          assert ifaces[k] == init[k];
        } else {
          assert e in InterfaceEntries(last, usable);
          assert ifaces[|ifaces| - 1] == last;
        }
      }
    }
  }
}
