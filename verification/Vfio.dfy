/**
 Moving whole IOMMU groups between kernel drivers (`vfio.py`, with the group queries of
 `capability.py`).

 A PCI address is modelled by the number its digits spell (domain, bus, device, function). The
 digits have fixed width, so the sort order of the strings is the order of these numbers.
 */
module Vfio {
  type Pci = nat

  datatype Driver = NoDriver | VfioPci | Nvidia | OtherDriver(name: string)

  /**
   What sysfs shows of the hardware: the `iommu_group` link of each device that has one, the
   `devices` directory of each group (in the order a directory read yields), which devices
   have a bridge class, and which are NVIDIA's.
   */
  datatype Topology = Topology(group: map<Pci, nat>, devices: map<nat, seq<Pci>>, bridges: set<Pci>, nvidia: set<Pci>)

  /** The kernel's side of the two views: links and directories agree, so groups partition the devices. */
  ghost predicate Partitioned(t: Topology) {
    && (forall p <- t.group :: t.group[p] in t.devices && p in t.devices[t.group[p]])
    && (forall g <- t.devices, p | p in t.devices[g] :: p in t.group && t.group[p] == g)
  }

  // ---------------------------------------------------------------------------
  // Group queries

  /** `sorted(...)` */
  function Insert(p: Pci, s: seq<Pci>): (r: seq<Pci>)
    ensures forall q :: q in r <==> q == p || q in s
  {
    if s == [] || p <= s[0] then [p] + s else [s[0]] + Insert(p, s[1..])
  }

  function Sort(s: seq<Pci>): (r: seq<Pci>)
    ensures forall q :: q in r <==> q in s
  {
    if s == [] then [] else Insert(s[0], Sort(s[1..]))
  }

  function GroupDevices(t: Topology, g: nat): seq<Pci> {
    if g in t.devices then Sort(t.devices[g]) else []
  }

  function WithoutBridges(t: Topology, s: seq<Pci>): (r: seq<Pci>)
    ensures forall p :: p in r <==> p in s && p !in t.bridges
  {
    if s == [] then [] else if s[0] in t.bridges then WithoutBridges(t, s[1..]) else [s[0]] + WithoutBridges(t, s[1..])
  }

  /** `get_iommu_group_non_bridge_devices`: the device alone when it has no group. */
  function NonBridgeDevices(t: Topology, p: Pci): seq<Pci> {
    if p !in t.group then [p] else WithoutBridges(t, GroupDevices(t, t.group[p]))
  }

  /** All devices a list of requested addresses stands for. */
  ghost function Footprint(t: Topology, gpus: seq<Pci>): set<Pci> {
    set p, d | p in gpus && d in NonBridgeDevices(t, p) :: d
  }

  function Elements(s: seq<Pci>): set<Pci> {
    set p | p in s
  }

  lemma ElementsGrow(s: seq<Pci>, i: nat)
    requires i < |s|
    ensures Elements(s[..i + 1]) == Elements(s[..i]) + {s[i]}
    ensures s[i] in Elements(s)
  {
    assert s[..i + 1] == s[..i] + [s[i]];
  }

  /** Membership of a group does not depend on the member one asks about. */
  lemma SameGroup(t: Topology, p: Pci, q: Pci)
    requires Partitioned(t) && q in NonBridgeDevices(t, p)
    ensures NonBridgeDevices(t, q) == NonBridgeDevices(t, p)
  {
    if p in t.group {
      NonBridgeDevicesAre(t, p, q);
    }
  }

  /** For a device that is in a group: exactly the non-bridge devices with the same group link. */
  lemma NonBridgeDevicesAre(t: Topology, p: Pci, d: Pci)
    requires Partitioned(t) && p in t.group
    ensures d in NonBridgeDevices(t, p) <==> d in t.group && t.group[d] == t.group[p] && d !in t.bridges
  {
  }

  // ---------------------------------------------------------------------------
  // Driver state

  datatype Attribute = Unbind | Override | Probe | VfioBind | NvidiaBind

  datatype WriteResult = Completed | TimedOut | Failed

  /** `now` is the driver of the device when the write returned. */
  datatype Write = Write(attribute: Attribute, device: Pci, result: WriteResult, now: Driver)

  /** The driver of every device, and every sysfs write ever issued. */
  datatype Hardware = Hardware(drivers: map<Pci, Driver>, log: seq<Write>)

  function DriverOf(h: Hardware, p: Pci): Driver {
    if p in h.drivers then h.drivers[p] else NoDriver
  }

  ghost predicate AllOnVfio(h: Hardware, devices: set<Pci>) {
    forall d <- devices :: DriverOf(h, d) == VfioPci
  }

  /** A device on vfio-pci stays there. */
  ghost predicate KeptOnVfio(h: Hardware, n: Hardware) {
    forall d :: DriverOf(h, d) == VfioPci ==> DriverOf(n, d) == VfioPci
  }

  /** Between `h` and `n` some attribute of the device was written. */
  ghost predicate Written(h: Hardware, n: Hardware, p: Pci) {
    exists i :: |h.log| <= i < |n.log| && n.log[i].device == p
  }

  /** Between `h` and `n` the device was told to leave its driver. */
  ghost predicate Told(h: Hardware, n: Hardware, p: Pci) {
    exists i :: |h.log| <= i < |n.log| && n.log[i].device == p && n.log[i].attribute == Unbind
  }

  /** From `h` to `n` only these devices were written to, and no device moved without a write to it. */
  ghost predicate Confined(h: Hardware, n: Hardware, devices: set<Pci>) {
    && h.log <= n.log
    && (forall d :: Written(h, n, d) ==> d in devices)
    && (forall d :: DriverOf(n, d) != DriverOf(h, d) ==> Written(h, n, d))
  }

  /**
   What unbinding promises: all of these devices that were on vfio-pci were told to leave it, and
   no other device was written to or moved. Where they went is open.
   */
  ghost predicate Released(h: Hardware, n: Hardware, devices: set<Pci>) {
    && Confined(h, n, devices)
    && (forall d :: Written(h, n, d) ==> DriverOf(h, d) == VfioPci)
    && (forall d <- devices :: DriverOf(h, d) == VfioPci ==> Told(h, n, d))
  }

  lemma WrittenThen(h: Hardware, m: Hardware, n: Hardware, p: Pci)
    requires h.log <= m.log <= n.log
    ensures Written(h, n, p) <==> Written(h, m, p) || Written(m, n, p)
    ensures Told(h, n, p) <==> Told(h, m, p) || Told(m, n, p)
  {
    if Written(h, m, p) {
      var i :| |h.log| <= i < |m.log| && m.log[i].device == p;
      assert n.log[i] == m.log[i];
    }
    if Told(h, m, p) {
      var i :| |h.log| <= i < |m.log| && m.log[i].device == p && m.log[i].attribute == Unbind;
      assert n.log[i] == m.log[i];
    }
    if i :| |h.log| <= i < |n.log| && n.log[i].device == p && i < |m.log| {
      assert n.log[i] == m.log[i];
    }
  }

  lemma ConfinedThen(h: Hardware, m: Hardware, n: Hardware, devices: set<Pci>, more: set<Pci>)
    requires Confined(h, m, devices) && Confined(m, n, more)
    ensures Confined(h, n, devices + more)
  {
    forall d
      ensures Written(h, n, d) ==> d in devices + more
      ensures DriverOf(n, d) != DriverOf(h, d) ==> Written(h, n, d)
    {
      WrittenThen(h, m, n, d);
    }
  }

  lemma ReleasedThen(h: Hardware, m: Hardware, n: Hardware, devices: set<Pci>, more: set<Pci>)
    requires Released(h, m, devices) && Released(m, n, more)
    ensures Released(h, n, devices + more)
  {
    ConfinedThen(h, m, n, devices, more);
    forall d
      ensures Written(h, n, d) ==> DriverOf(h, d) == VfioPci
      ensures d in devices + more && DriverOf(h, d) == VfioPci ==> Told(h, n, d)
    {
      WrittenThen(h, m, n, d);
    }
  }

  /** One device's turn, from the writes it took. */
  lemma IssuedIsConfined(h: Hardware, n: Hardware, p: Pci, issued: seq<Write>)
    requires n.log == h.log + issued && AllFor(issued, p)
    requires forall d | d != p :: DriverOf(n, d) == DriverOf(h, d)
    requires issued == [] ==> DriverOf(n, p) == DriverOf(h, p)
    ensures Confined(h, n, {p})
    ensures Written(h, n, p) <==> issued != []
    ensures issued != [] && issued[0].attribute == Unbind ==> Told(h, n, p)
  {
    assert forall i :: 0 <= i < |issued| ==> n.log[|h.log| + i] == issued[i];
    if issued != [] {
      assert n.log[|h.log|] == issued[0];
    }
    forall d | Written(h, n, d)
      ensures d == p && issued != []
    {
      var i :| |h.log| <= i < |n.log| && n.log[i].device == d;
      assert n.log[i] == issued[i - |h.log|];
    }
  }

  /** The attributes a call wrote, all of one device. */
  function Attributes(issued: seq<Write>): seq<Attribute> {
    seq(|issued|, i requires 0 <= i < |issued| => issued[i].attribute)
  }

  ghost predicate AllFor(issued: seq<Write>, p: Pci) {
    forall w <- issued :: w.device == p
  }

  /** After which writes `bind_to_vfio` goes on: an unbind that hangs must have worked. */
  predicate BindGoesOn(w: Write) {
    w.result != Failed && (w.attribute == Unbind && w.result == TimedOut ==> w.now == NoDriver)
  }

  /**
   The writes of `bind_to_vfio` on a device that was not on vfio-pci: unbind it from its driver if
   it has one, override, probe, and bind explicitly exactly when the probe did not do it. It stops
   at the first write it cannot go on after, and succeeds iff it stops nowhere and the device is
   on vfio-pci at the end. (No write at all: the ids could not be read.)
   */
  ghost predicate BindTrace(before: Driver, ok: bool, issued: seq<Write>) {
    var first := if before == NoDriver then [] else [Unbind];
    var probe := |first| + 1;
    && Attributes(issued) <= first + [Override, Probe, VfioBind]
    && (forall i :: 0 <= i < |issued| - 1 ==> BindGoesOn(issued[i]))
    && (|issued| > probe + 1 ==> issued[probe].now != VfioPci)
    && (ok <==> |issued| > probe && BindGoesOn(issued[|issued| - 1]) && issued[|issued| - 1].now == VfioPci)
    && (!ok && issued != [] && BindGoesOn(issued[|issued| - 1]) ==> |issued| == probe + 2)
  }

  /** After which writes `unbind_from_vfio` goes on. */
  predicate UnbindGoesOn(w: Write) {
    match w.attribute
    case Unbind => w.result != Failed && (w.result == TimedOut ==> w.now != VfioPci)
    case Probe => w.result != Failed
    case _ => true
  }

  /**
   The writes of `unbind_from_vfio` on a device on vfio-pci: unbind, override, probe, and the
   explicit nvidia bind exactly for an NVIDIA device that did not come back. It fails iff it
   stops at a write; an override or nvidia bind that fails does not stop it.
   */
  ghost predicate UnbindTrace(nvidia: bool, ok: bool, issued: seq<Write>) {
    && issued != [] && Attributes(issued) <= [Unbind, Override, Probe, NvidiaBind]
    && (forall i :: 0 <= i < |issued| - 1 ==> UnbindGoesOn(issued[i]))
    && (ok <==> UnbindGoesOn(issued[|issued| - 1]))
    && (ok ==> |issued| == if nvidia && |issued| > 2 && issued[2].now != Nvidia then 4 else 3)
  }

  /**
   The running system's hardware. A write may complete, time out or fail, and whichever it
   does, may change the driver of the device it names - and of no other.
   */
  class Sysfs {
    const topology: Topology
    var drivers: map<Pci, Driver>
    var log: seq<Write>

    function Hw(): Hardware
      reads this
    {
      Hardware(drivers, log)
    }

    constructor (topology: Topology, drivers: map<Pci, Driver>)
      ensures this.topology == topology && Hw() == Hardware(drivers, [])
    {
      this.topology := topology;
      this.drivers := drivers;
      this.log := [];
    }

    method WriteAttribute(attribute: Attribute, p: Pci) returns (r: WriteResult)
      modifies this
      ensures log == old(log) + [Write(attribute, p, r, DriverOf(Hw(), p))]
      ensures forall d | d != p :: DriverOf(Hw(), d) == old(DriverOf(Hw(), d))
    {
      var effect: Driver := *;
      r := *;
      drivers := drivers[p := effect];
      log := log + [Write(attribute, p, r, effect)];
    }

    /**
     `bind_to_vfio`: success means the device is on vfio-pci, because that is read back last.
     A device already there is not touched. It gives up without a write (the ids cannot be
     read), after a write that failed, after an unbind that timed out, or after the explicit bind.
     */
    method BindToVfio(p: Pci) returns (ok: bool, ghost issued: seq<Write>)
      modifies this
      ensures ok ==> DriverOf(Hw(), p) == VfioPci
      ensures Confined(old(Hw()), Hw(), {p})
      ensures log == old(log) + issued && AllFor(issued, p)
      ensures old(DriverOf(Hw(), p)) == VfioPci ==> ok && Hw() == old(Hw())
      ensures old(DriverOf(Hw(), p)) != VfioPci ==> BindTrace(old(DriverOf(Hw(), p)), ok, issued)
    {
      ok, issued := BindSync(p);
      IssuedIsConfined(old(Hw()), Hw(), p, issued);
    }

    /** `_bind_sync` */
    method BindSync(p: Pci) returns (ok: bool, ghost issued: seq<Write>)
      modifies this
      ensures ok ==> DriverOf(Hw(), p) == VfioPci
      ensures forall d | d != p :: DriverOf(Hw(), d) == old(DriverOf(Hw(), d))
      ensures issued == [] ==> Hw() == old(Hw())
      ensures log == old(log) + issued && AllFor(issued, p)
      ensures old(DriverOf(Hw(), p)) == VfioPci ==> ok && issued == []
      ensures old(DriverOf(Hw(), p)) != VfioPci ==> BindTrace(old(DriverOf(Hw(), p)), ok, issued)
    {
      issued := [];
      var w: WriteResult;
      var current := DriverOf(Hw(), p);
      if current == VfioPci {
        return true, [];
      }
      ghost var first := if current == NoDriver then [] else [Unbind];
      var idsReadable: bool := *;
      if !idsReadable {
        return false, [];
      }
      if current != NoDriver {
        w := WriteAttribute(Unbind, p);
        issued := issued + [Write(Unbind, p, w, DriverOf(Hw(), p))];
        if w == Failed || (w == TimedOut && DriverOf(Hw(), p) != NoDriver) {
          return false, issued;
        }
      }
      w := WriteAttribute(Override, p);
      issued := issued + [Write(Override, p, w, DriverOf(Hw(), p))];
      if w == Failed {
        return false, issued;
      }
      w := WriteAttribute(Probe, p);
      issued := issued + [Write(Probe, p, w, DriverOf(Hw(), p))];
      if w == Failed {
        return false, issued;
      }
      assert Attributes(issued) == first + [Override, Probe];
      if DriverOf(Hw(), p) != VfioPci {
        w := WriteAttribute(VfioBind, p);
        issued := issued + [Write(VfioBind, p, w, DriverOf(Hw(), p))];
        assert Attributes(issued) == first + [Override, Probe, VfioBind];
        if w == Failed {
          return false, issued;
        }
      }
      ok := DriverOf(Hw(), p) == VfioPci;
    }

    /**
     `unbind_from_vfio`: ends without checking where the device went, so success promises only
     that a device that was on vfio-pci got its writes: unbind, override, probe, and the explicit
     nvidia bind when an NVIDIA device did not come back. Others are not touched.
     */
    method UnbindFromVfio(p: Pci) returns (ok: bool, ghost issued: seq<Write>)
      modifies this
      ensures Released(old(Hw()), Hw(), {p})
      ensures log == old(log) + issued && AllFor(issued, p)
      ensures old(DriverOf(Hw(), p)) != VfioPci ==> ok && Hw() == old(Hw())
      ensures old(DriverOf(Hw(), p)) == VfioPci ==> UnbindTrace(p in topology.nvidia, ok, issued)
    {
      ok, issued := UnbindSync(p);
      assert issued != [] ==> issued[0].attribute == Attributes(issued)[0] == Unbind;
      IssuedIsConfined(old(Hw()), Hw(), p, issued);
    }

    /** `_unbind_sync` */
    method UnbindSync(p: Pci) returns (ok: bool, ghost issued: seq<Write>)
      modifies this
      ensures forall d | d != p :: DriverOf(Hw(), d) == old(DriverOf(Hw(), d))
      ensures issued == [] ==> Hw() == old(Hw())
      ensures log == old(log) + issued && AllFor(issued, p)
      ensures old(DriverOf(Hw(), p)) != VfioPci ==> ok && issued == []
      ensures old(DriverOf(Hw(), p)) == VfioPci ==> UnbindTrace(p in topology.nvidia, ok, issued)
    {
      issued := [];
      if DriverOf(Hw(), p) != VfioPci {
        return true, [];
      }
      var w := WriteAttribute(Unbind, p);
      issued := issued + [Write(Unbind, p, w, DriverOf(Hw(), p))];
      if w == Failed || (w == TimedOut && DriverOf(Hw(), p) == VfioPci) {
        return false, issued;
      }
      w := WriteAttribute(Override, p);
      issued := issued + [Write(Override, p, w, DriverOf(Hw(), p))];
      w := WriteAttribute(Probe, p);
      issued := issued + [Write(Probe, p, w, DriverOf(Hw(), p))];
      if w == Failed {
        return false, issued;
      }
      if p in topology.nvidia && DriverOf(Hw(), p) != Nvidia {
        w := WriteAttribute(NvidiaBind, p);
        issued := issued + [Write(NvidiaBind, p, w, DriverOf(Hw(), p))];
      }
      return true, issued;
    }

    /** `bind_iommu_group`: all of the group or, on the first failure, a proper part of it in order. */
    method BindIommuGroup(p: Pci) returns (ok: bool, bound: seq<Pci>)
      modifies this
      ensures bound <= NonBridgeDevices(topology, p)
      ensures ok <==> bound == NonBridgeDevices(topology, p)
      ensures AllOnVfio(Hw(), Elements(bound))
      ensures Confined(old(Hw()), Hw(), Elements(NonBridgeDevices(topology, p)))
      ensures KeptOnVfio(old(Hw()), Hw())
    {
      var devices := NonBridgeDevices(topology, p);
      bound := [];
      while |bound| < |devices|
        invariant bound <= devices
        invariant AllOnVfio(Hw(), Elements(bound))
        invariant Confined(old(Hw()), Hw(), Elements(devices))
        invariant KeptOnVfio(old(Hw()), Hw())
        decreases |devices| - |bound|
      {
        var dev := devices[|bound|];
        ghost var before, issued := Hw(), [];
        ok, issued := BindToVfio(dev);
        ConfinedThen(old(Hw()), before, Hw(), Elements(devices), {dev});
        assert Elements(devices) + {dev} == Elements(devices);
        if !ok {
          return;
        }
        bound := bound + [dev];
      }
      ok := true;
    }

    /** `unbind_iommu_group`: every device of the group gets its turn, whatever happens to the others. */
    method UnbindIommuGroup(p: Pci) returns (unbound: seq<Pci>)
      modifies this
      ensures Elements(unbound) <= Elements(NonBridgeDevices(topology, p))
      ensures Released(old(Hw()), Hw(), Elements(NonBridgeDevices(topology, p)))
    {
      var devices := NonBridgeDevices(topology, p);
      unbound := [];
      for i := 0 to |devices|
        invariant Elements(unbound) <= Elements(devices[..i])
        invariant Released(old(Hw()), Hw(), Elements(devices[..i]))
      {
        var dev := devices[i];
        ghost var before := Hw();
        var ok, issued := UnbindFromVfio(dev);
        ReleasedThen(old(Hw()), before, Hw(), Elements(devices[..i]), {dev});
        ElementsGrow(devices, i);
        if ok {
          unbound := unbound + [dev];
        }
      }
      assert devices[..|devices|] == devices;
    }
  }
}
