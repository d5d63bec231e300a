/** Which devices can be handed to VMs, and which of them only together (`capability.py`). */
module Gpus {
  import opened Wrappers
  import opened Vfio

  /** The class prefixes the code distinguishes: 0x0403.., 0x03.., 0x06.., anything else. */
  datatype Class = AudioClass | DisplayClass | BridgeClass | OtherClass

  /**
   `/sys/bus/pci/devices` in the order a directory read yields, the class of each device whose
   class file can be read, and the devices whose vendor and device files read as NVIDIA's.
   */
  datatype Bus = Bus(addresses: seq<Pci>, classes: map<Pci, Class>, nvidiaIds: set<Pci>, topology: Topology)

  datatype Gpu = Gpu(gpuId: nat, pci: Pci, group: nat, audio: Option<Pci>, peers: seq<Pci>)

  ghost predicate Ascending(s: seq<Pci>) {
    forall i, j :: 0 <= i < j < |s| ==> s[i] < s[j]
  }

  ghost predicate NoRepeats(s: seq<Pci>) {
    forall i, j :: 0 <= i < j < |s| ==> s[i] != s[j]
  }

  predicate HasClass(b: Bus, p: Pci, c: Class) {
    p in b.classes && b.classes[p] == c
  }

  ghost predicate Consistent(b: Bus) {
    && Partitioned(b.topology)
    && (forall p :: p in b.topology.bridges <==> HasClass(b, p, BridgeClass))
    && NoRepeats(b.addresses)
  }

  /** The address without its function digit: `rsplit(".", 1)[0]`. */
  function Slot(p: Pci): nat {
    p / 8
  }

  /** `is_iommu_group_viable`: the other non-bridge devices of the group, in directory order. */
  method IsIommuGroupViable(t: Topology, p: Pci) returns (viable: bool, peers: seq<Pci>)
    ensures viable <==> p in t.group && t.group[p] in t.devices
    ensures forall q :: q in peers <==> viable && q in t.devices[t.group[p]] && q != p && q !in t.bridges
  {
    peers := [];
    if p !in t.group || t.group[p] !in t.devices {
      return false, peers;
    }
    var entries := t.devices[t.group[p]];
    for i := 0 to |entries|
      invariant forall q :: q in peers <==> q in entries[..i] && q != p && q !in t.bridges
    {
      if entries[i] != p && entries[i] !in t.bridges {
        peers := peers + [entries[i]];
      }
    }
    assert entries[..|entries|] == entries;
    viable := true;
  }

  /** `get_iommu_group_endpoints`: the same devices, sorted; none without a group. */
  method GetIommuGroupEndpoints(t: Topology, p: Pci) returns (endpoints: seq<Pci>)
    requires forall g <- t.devices :: NoRepeats(t.devices[g])
    ensures Ascending(endpoints)
    ensures forall q :: q in endpoints <==>
              p in t.group && t.group[p] in t.devices && q in t.devices[t.group[p]] && q != p && q !in t.bridges
  {
    endpoints := [];
    if p !in t.group {
      return;
    }
    var devices := GroupDevices(t, t.group[p]);
    if t.group[p] in t.devices {
      SortAscends(t.devices[t.group[p]]);
    }
    assert Ascending(devices);
    for i := 0 to |devices|
      invariant Ascending(endpoints)
      invariant i < |devices| ==> forall k :: 0 <= k < |endpoints| ==> endpoints[k] < devices[i]
      invariant forall q :: q in endpoints <==> q in devices[..i] && q != p && q !in t.bridges
    {
      if devices[i] != p && devices[i] !in t.bridges {
        endpoints := endpoints + [devices[i]];
      }
    }
    assert devices[..|devices|] == devices;
  }

  /** Devices that `discover_vfio_gpus` reports. */
  ghost predicate Discoverable(b: Bus, p: Pci) {
    && HasClass(b, p, DisplayClass) && p in b.nvidiaIds
    && p in b.topology.group && b.topology.group[p] in b.topology.devices
  }

  ghost predicate SameSlotAudio(b: Bus, p: Pci, q: Pci) {
    HasClass(b, q, AudioClass) && Slot(q) == Slot(p)
  }

  /** What a record says about its device. */
  ghost predicate RecordOk(b: Bus, g: Gpu) {
    && Discoverable(b, g.pci)
    && g.group == b.topology.group[g.pci]
    && (forall q :: q in g.peers <==>
              q in b.topology.devices[g.group] && q != g.pci && q !in b.topology.bridges && HasClass(b, q, DisplayClass))
    && (g.audio.Some? ==> g.audio.value in b.topology.devices[g.group] && g.audio.value != g.pci
                          && SameSlotAudio(b, g.pci, g.audio.value))
    && (g.audio.None? ==> forall q <- b.topology.devices[g.group] | q != g.pci && q !in b.topology.bridges ::
                            !SameSlotAudio(b, g.pci, q))
  }

  method Classify(b: Bus, p: Pci, groupPeers: seq<Pci>) returns (audio: Option<Pci>, peers: seq<Pci>)
    ensures forall q :: q in peers <==> q in groupPeers && HasClass(b, q, DisplayClass)
    ensures audio.Some? ==> audio.value in groupPeers && SameSlotAudio(b, p, audio.value)
    ensures audio.None? ==> forall q <- groupPeers :: !SameSlotAudio(b, p, q)
  {
    audio, peers := None, [];
    for i := 0 to |groupPeers|
      invariant forall q :: q in peers <==> q in groupPeers[..i] && HasClass(b, q, DisplayClass)
      invariant audio.Some? ==> audio.value in groupPeers && SameSlotAudio(b, p, audio.value)
      invariant audio.None? ==> forall q <- groupPeers[..i] :: !SameSlotAudio(b, p, q)
    {
      var q := groupPeers[i];
      if HasClass(b, q, AudioClass) && Slot(q) == Slot(p) {
        audio := Some(q);
      }
      if HasClass(b, q, DisplayClass) {
        peers := peers + [q];
      }
    }
    assert groupPeers[..|groupPeers|] == groupPeers;
  }

  /** The report: every discoverable device once, numbered from 0 in address order. */
  ghost predicate Report(b: Bus, gpus: seq<Gpu>) {
    && (forall i :: 0 <= i < |gpus| ==> gpus[i].gpuId == i && RecordOk(b, gpus[i]))
    && (forall i, j :: 0 <= i < j < |gpus| ==> gpus[i].pci < gpus[j].pci)
    && (forall p :: (exists i :: 0 <= i < |gpus| && gpus[i].pci == p) <==> p in b.addresses && Discoverable(b, p))
  }

  /** `Report` after the first `i` of the sorted addresses. */
  ghost predicate ReportUpTo(b: Bus, sorted: seq<Pci>, i: nat, gpus: seq<Gpu>)
    requires i <= |sorted|
  {
    && (forall k :: 0 <= k < |gpus| ==> gpus[k].gpuId == k && RecordOk(b, gpus[k]) && gpus[k].pci in sorted[..i])
    && (forall k, l :: 0 <= k < l < |gpus| ==> gpus[k].pci < gpus[l].pci)
    && (forall p <- sorted[..i] | Discoverable(b, p) :: exists k :: 0 <= k < |gpus| && gpus[k].pci == p)
  }

  method DiscoverVfioGpus(b: Bus) returns (gpus: seq<Gpu>)
    requires Consistent(b)
    ensures Report(b, gpus)
  {
    gpus := [];
    var sorted := Sort(b.addresses);
    SortAscends(b.addresses);
    var gpuId := 0;
    for i := 0 to |sorted|
      invariant gpuId == |gpus|
      invariant ReportUpTo(b, sorted, i, gpus)
    {
      var p := sorted[i];
      assert sorted[..i + 1] == sorted[..i] + [p];
      if !HasClass(b, p, DisplayClass) || p !in b.nvidiaIds || p !in b.topology.group {
        continue;
      }
      var viable, groupPeers := IsIommuGroupViable(b.topology, p);
      if !viable {
        continue;
      }
      var audio, peers := Classify(b, p, groupPeers);
      var gpu := Gpu(gpuId, p, b.topology.group[p], audio, peers);
      RecordExtends(b, sorted, i, gpus, gpu);
      gpus := gpus + [gpu];
      gpuId := gpuId + 1;
    }
    assert sorted[..|sorted|] == sorted;
  }

  lemma RecordExtends(b: Bus, sorted: seq<Pci>, i: nat, gpus: seq<Gpu>, gpu: Gpu)
    requires i < |sorted| && ReportUpTo(b, sorted, i, gpus)
    requires Ascending(sorted)
    requires gpu.pci == sorted[i] && gpu.gpuId == |gpus| && RecordOk(b, gpu)
    ensures ReportUpTo(b, sorted, i + 1, gpus + [gpu])
  {
    var more := gpus + [gpu];
    assert sorted[..i + 1] == sorted[..i] + [gpu.pci];
    forall p <- sorted[..i + 1] | Discoverable(b, p)
      ensures exists k :: 0 <= k < |more| && more[k].pci == p
    {
      if p == gpu.pci {
        assert more[|gpus|].pci == p;
      } else {
        var k :| 0 <= k < |gpus| && gpus[k].pci == p;
        assert more[k].pci == p;
      }
    }
  }

  lemma {:induction false} InsertAscends(p: Pci, s: seq<Pci>)
    requires p !in s && Ascending(s)
    ensures Ascending(Insert(p, s))
  {
    if s != [] && p > s[0] {
      InsertAscends(p, s[1..]);
      var rest := Insert(p, s[1..]);
      forall j | 0 <= j < |rest|
        ensures s[0] < rest[j]
      {
        assert rest[j] in rest;
      }
      assert Insert(p, s) == [s[0]] + rest;
    }
  }

  lemma {:induction false} SortAscends(s: seq<Pci>)
    requires NoRepeats(s)
    ensures Ascending(Sort(s))
  {
    if s != [] {
      SortAscends(s[1..]);
      assert s[0] !in Sort(s[1..]);
      InsertAscends(s[0], Sort(s[1..]));
    }
  }

  // ---------------------------------------------------------------------------
  // The report, device by device

  /** Two addresses share a slot exactly when they differ in the function number alone. */
  lemma SlotMeans(s: nat, u: nat, f: nat, g: nat)
    requires f < 8 && g < 8
    ensures Slot(8 * s + f) == Slot(8 * u + g) <==> s == u
  {
    assert (8 * s + f) / 8 == s && (8 * u + g) / 8 == u;
  }

  /** Reported are exactly the NVIDIA display devices of the bus whose group exists. */
  lemma ReportedIff(b: Bus, gpus: seq<Gpu>, p: Pci)
    requires Consistent(b) && Report(b, gpus)
    ensures (exists i :: 0 <= i < |gpus| && gpus[i].pci == p) <==>
            && p in b.addresses && p in b.classes && b.classes[p] == DisplayClass && p in b.nvidiaIds
            && p in b.topology.group && b.topology.group[p] in b.topology.devices
  {
  }

  /** A record names its group, and as peers exactly the other display devices in it. */
  lemma RecordNamesPeers(b: Bus, gpus: seq<Gpu>, i: nat, q: Pci)
    requires Consistent(b) && Report(b, gpus) && i < |gpus|
    ensures gpus[i].gpuId == i && gpus[i].pci in b.topology.group && gpus[i].group == b.topology.group[gpus[i].pci]
    ensures q in gpus[i].peers <==>
            && q != gpus[i].pci && q in b.classes && b.classes[q] == DisplayClass
            && q in b.topology.group && b.topology.group[q] == gpus[i].group
  {
    assert RecordOk(b, gpus[i]);
    assert !HasClass(b, q, DisplayClass) || q !in b.topology.bridges;
  }

  /** An audio-class device at function `h` of slot `s`, other than `p`, in the given group. */
  predicate AudioAt(b: Bus, group: nat, p: Pci, s: nat, h: nat) {
    && 8 * s + h != p && 8 * s + h in b.classes && b.classes[8 * s + h] == AudioClass
    && 8 * s + h in b.topology.group && b.topology.group[8 * s + h] == group
  }

  /**
   The audio function of a reported GPU at function `f` of slot `s`: one of the same slot and
   group, which is the one if there is just one, and none only if there is none.
   */
  lemma RecordNamesAudio(b: Bus, gpus: seq<Gpu>, i: nat, s: nat, f: nat, g: nat)
    requires Consistent(b) && Report(b, gpus) && i < |gpus| && gpus[i].pci == 8 * s + f && f < 8 && g < 8
    ensures gpus[i].audio == None <==> forall h :: 0 <= h < 8 ==> !AudioAt(b, gpus[i].group, gpus[i].pci, s, h)
    ensures AudioAt(b, gpus[i].group, gpus[i].pci, s, g)
            && (forall h :: 0 <= h < 8 && AudioAt(b, gpus[i].group, gpus[i].pci, s, h) ==> h == g) ==>
              gpus[i].audio == Some(8 * s + g)
  {
    var r := gpus[i];
    assert RecordOk(b, r);
    if r.audio.Some? {
      var q := r.audio.value;
      SlotMeans(s, q / 8, f, q % 8);
      assert q == 8 * s + q % 8;
      assert AudioAt(b, r.group, r.pci, s, q % 8);
    }
    forall h | 0 <= h < 8 && AudioAt(b, r.group, r.pci, s, h)
      ensures r.audio.Some?
    {
      SlotMeans(s, s, f, h);
      assert 8 * s + h in b.topology.devices[r.group];
      assert 8 * s + h !in b.topology.bridges;
      assert SameSlotAudio(b, r.pci, 8 * s + h);
    }
  }

  // ---------------------------------------------------------------------------
  // What the report means for allocation

  /** Between reported GPUs, being a peer is: another GPU of the same group. So it is symmetric. */
  lemma PeersShareGroups(b: Bus, gpus: seq<Gpu>, i: nat, j: nat)
    requires Consistent(b) && Report(b, gpus) && i < |gpus| && j < |gpus|
    ensures gpus[j].pci in gpus[i].peers <==> i != j && gpus[i].group == gpus[j].group
    ensures gpus[j].pci in gpus[i].peers <==> gpus[i].pci in gpus[j].peers
  {
    assert RecordOk(b, gpus[i]) && RecordOk(b, gpus[j]);
    assert i < j || j < i || i == j;
    assert !HasClass(b, gpus[i].pci, BridgeClass) && !HasClass(b, gpus[j].pci, BridgeClass);
  }

  /** Binding one reported GPU's group binds its audio function and all of its peers with it. */
  lemma BindingCoversPeers(b: Bus, gpus: seq<Gpu>, i: nat, q: Pci)
    requires Consistent(b) && Report(b, gpus) && i < |gpus|
    requires q == gpus[i].pci || q in gpus[i].peers || gpus[i].audio == Some(q)
    ensures q in NonBridgeDevices(b.topology, gpus[i].pci)
  {
    assert RecordOk(b, gpus[i]);
    NonBridgeDevicesAre(b.topology, gpus[i].pci, q);
  }

  lemma {:induction false} WithoutBridgesAscends(t: Topology, s: seq<Pci>)
    requires Ascending(s)
    ensures Ascending(WithoutBridges(t, s))
  {
    if s != [] {
      WithoutBridgesAscends(t, s[1..]);
      var rest := WithoutBridges(t, s[1..]);
      forall j | 0 <= j < |rest|
        ensures s[0] < rest[j]
      {
        assert rest[j] in rest && rest[j] in s[1..];
      }
    }
  }

  /** The devices of a group are bound each once, in address order; a device without a group alone. */
  lemma BindingOrder(t: Topology, p: Pci)
    requires Partitioned(t) && forall g <- t.devices :: NoRepeats(t.devices[g])
    ensures Ascending(NonBridgeDevices(t, p))
    ensures p !in t.group ==> NonBridgeDevices(t, p) == [p]
  {
    if p in t.group {
      SortAscends(t.devices[t.group[p]]);
      WithoutBridgesAscends(t, GroupDevices(t, t.group[p]));
    }
  }
}
