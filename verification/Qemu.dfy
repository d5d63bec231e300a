/**
 `QEMUManager` (`qemu/client.py`): which VMs are tracked, and where the devices of their IOMMU
 groups end up, through create, stop, kill, restart and recovery and every exit of each.

 Public operations are atomic steps here. What the file system, QEMU and its monitor answer
 is passed in; what sysfs does is left open by `Sysfs`.
 */
module Qemu {
  import opened Vfio

  datatype Nic = Nic(tap: string, mac: string, ip: string)

  datatype Options = Options(taskId: int, gpus: seq<Pci>, interfaces: seq<Nic>, legacy: Nic)

  datatype Vm = Vm(
    taskId: int, pid: int, ip: string, tap: string, taps: seq<string>, gpus: seq<Pci>,
    createdAt: real, command: seq<string>, sshReady: bool)

  /** `subprocess.run` of QEMU; the error text is read only after a non-zero exit. */
  datatype Start = Exited(code: int, errorReadable: bool) | StartRaised

  /** `PidUnreadable` stands for a missing file or text that is no number. */
  datatype PidFile = Pid(value: int) | PidUnreadable | PidRaised

  datatype CreateEnv = CreateEnv(
    directories: bool, image: bool, overlay: bool, seed: bool,
    command: seq<string>, start: Start, pidFile: PidFile, running: bool, now: real)

  datatype CreateExit =
    | AlreadyExists
    | DirectoryError
    | NoBaseImage
    | OverlayFailed
    | StartFailed
    | CleanedUp(boundUpTo: nat)
    | Created(vm: Vm)

  datatype RestartEnv = RestartEnv(savedCommand: seq<string>, start: Start, pidFile: PidFile, running: bool)

  /**
   `boundUpTo` says how many of the requested addresses had their groups bound when it stopped.
   `NotFound`, `RebindFailed` and `LaunchFailed` return False, `ResetOnly` and `Restarted` True. */
  datatype RestartExit = NotFound | ResetOnly | RebindFailed(boundUpTo: nat) | LaunchFailed | Raised | Restarted

  /** What recovery reads from the store. */
  datatype Saved = Saved(ip: string, tap: string, taps: seq<string>, gpus: seq<Pci>)

  datatype RecoverEnv = RecoverEnv(pidFile: PidFile, running: bool, savedCommand: seq<string>, now: real)

  datatype State = State(vms: map<int, Vm>, hw: Hardware)

  /** `get_interfaces` */
  function Interfaces(o: Options): (r: seq<Nic>)
    ensures r != []
  {
    if o.interfaces != [] then o.interfaces else [o.legacy]
  }

  function Taps(nics: seq<Nic>): seq<string> {
    seq(|nics|, i requires 0 <= i < |nics| => nics[i].tap)
  }

  // ---------------------------------------------------------------------------
  // Outcomes: what each operation may leave behind

  /**
   An attempt to bind the groups of the requested addresses: those of the first `upTo` addresses
   are on vfio-pci; when that is not all, binding stopped at the group of the next one.
   Nothing left vfio-pci.
   */
  ghost predicate BindsUpTo(t: Topology, h: Hardware, n: Hardware, gpus: seq<Pci>, upTo: nat) {
    && upTo <= |gpus|
    && AllOnVfio(n, Footprint(t, gpus[..upTo])) && KeptOnVfio(h, n)
    && (upTo == |gpus| ==> Confined(h, n, Footprint(t, gpus)))
    && (upTo < |gpus| ==> Confined(h, n, Footprint(t, gpus[..upTo + 1])) && gpus[upTo] !in Footprint(t, gpus[..upTo]))
  }

  /** A creation's clean-up: binding got so far, and then everything requested was unbound. */
  ghost predicate Undone(t: Topology, h: Hardware, mid: Hardware, n: Hardware, gpus: seq<Pci>, upTo: nat) {
    BindsUpTo(t, h, mid, gpus, upTo) && Released(mid, n, Footprint(t, gpus))
  }

  /** A restart's reset: everything was unbound, and then binding got so far. */
  ghost predicate Cycled(t: Topology, h: Hardware, mid: Hardware, n: Hardware, gpus: seq<Pci>, upTo: nat) {
    Released(h, mid, Footprint(t, gpus)) && BindsUpTo(t, mid, n, gpus, upTo)
  }

  ghost predicate Reset(t: Topology, h: Hardware, n: Hardware, gpus: seq<Pci>, upTo: nat) {
    exists mid :: Cycled(t, h, mid, n, gpus, upTo)
  }

  /** What the file system and QEMU decide, before and after the binding of the groups. */
  predicate Launches(start: Start, pidFile: PidFile, running: bool) {
    start.Exited? && start.code == 0 && pidFile.Pid? && running
  }

  predicate LaunchRaises(start: Start, pidFile: PidFile) {
    || start.StartRaised?
    || (start.Exited? && start.code != 0 && !start.errorReadable)
    || (start.Exited? && start.code == 0 && pidFile.PidRaised?)
  }

  /**
   `create_vm`. A failed creation changes no entry, and the first three exits nothing at all. When
   the disk cannot be made, the clean-up unbinds what was not bound yet. When QEMU does not come
   up the exit is a VMCreationError, which skips the clean-up: every device stays on vfio-pci. The
   other failures unbind whatever binding had reached.
   */
  ghost predicate CreateOutcome(t: Topology, s: State, o: Options, env: CreateEnv, n: State, r: CreateExit) {
    && (r.AlreadyExists? <==> o.taskId in s.vms)
    && (r.DirectoryError? <==> o.taskId !in s.vms && !env.directories)
    && (r.NoBaseImage? <==> o.taskId !in s.vms && env.directories && !env.image)
    && (r.OverlayFailed? <==> o.taskId !in s.vms && env.directories && env.image && !env.overlay)
    && match r
       case AlreadyExists => n == s
       case DirectoryError => n == s
       case NoBaseImage => n == s
       case OverlayFailed => n.vms == s.vms && Released(s.hw, n.hw, Footprint(t, o.gpus))
       case StartFailed =>
         && env.seed && !LaunchRaises(env.start, env.pidFile) && !Launches(env.start, env.pidFile, env.running)
         && n.vms == s.vms && BindsUpTo(t, s.hw, n.hw, o.gpus, |o.gpus|)
       case CleanedUp(upTo) =>
         && n.vms == s.vms
         && (exists mid :: Undone(t, s.hw, mid, n.hw, o.gpus, upTo))
         && (upTo == |o.gpus| ==> !env.seed || LaunchRaises(env.start, env.pidFile))
       case Created(vm) =>
         && env.seed && Launches(env.start, env.pidFile, env.running)
         && BindsUpTo(t, s.hw, n.hw, o.gpus, |o.gpus|)
         && n.vms == s.vms[o.taskId := vm]
         && vm == Vm(o.taskId, env.pidFile.value, Interfaces(o)[0].ip, Interfaces(o)[0].tap,
                     Taps(Interfaces(o)), o.gpus, env.now, env.command, false)
  }

  /** `stop_vm` and `kill_vm` */
  ghost predicate StopOutcome(t: Topology, s: State, id: int, n: State, found: bool) {
    && found == (id in s.vms)
    && (!found ==> n == s)
    && (found ==> n.vms == s.vms - {id} && Released(s.hw, n.hw, Footprint(t, s.vms[id].gpus)))
  }

  function RestartCommand(vm: Vm, env: RestartEnv): seq<string> {
    if vm.command != [] then vm.command else env.savedCommand
  }

  /**
   `restart_vm`. Without any saved command it only asks QEMU to reset and returns True, whether
   or not that worked. Otherwise all its groups are unbound and bound again, and the VM comes
   back with a new process and otherwise its old entry (but not yet ssh-ready), or it is no
   longer tracked.
   */
  ghost predicate RestartOutcome(t: Topology, s: State, id: int, env: RestartEnv, n: State, r: RestartExit) {
    && (r.NotFound? <==> id !in s.vms)
    && (r.ResetOnly? <==> id in s.vms && RestartCommand(s.vms[id], env) == [])
    && (r.NotFound? || r.ResetOnly? ==> n == s)
    && (!r.NotFound? && !r.ResetOnly? ==>
          && var all := |s.vms[id].gpus|;
          && Reset(t, s.hw, n.hw, s.vms[id].gpus, if r.RebindFailed? then r.boundUpTo else all)
          && match r
             case RebindFailed(upTo) => upTo < all && n.vms == s.vms - {id}
             case LaunchFailed =>
               && !LaunchRaises(env.start, env.pidFile) && !Launches(env.start, env.pidFile, env.running)
               && n.vms == s.vms - {id}
             case Raised => LaunchRaises(env.start, env.pidFile) && n.vms == s.vms - {id}
             case Restarted =>
               && Launches(env.start, env.pidFile, env.running)
               && n.vms == s.vms[id := s.vms[id].(pid := env.pidFile.value, sshReady := false,
                                                  command := RestartCommand(s.vms[id], env))])
  }

  /** `recover_vm` looks at the process only, never at the devices. */
  ghost predicate RecoverOutcome(t: Topology, s: State, id: int, saved: Saved, env: RecoverEnv, n: State, found: bool) {
    && found == (env.pidFile.Pid? && env.running)
    && n.hw == s.hw
    && (!found ==> n.vms == s.vms)
    && (found ==>
          var taps := if saved.taps != [] then saved.taps else if saved.tap != "" then [saved.tap] else [];
          n.vms == s.vms[id := Vm(id, env.pidFile.value, saved.ip, saved.tap, taps, saved.gpus,
                                  env.now, env.savedCommand, true)])
  }

  // ---------------------------------------------------------------------------
  // The loops over requested addresses

  ghost predicate WholeGroups(t: Topology, devices: set<Pci>) {
    forall d <- devices :: Elements(NonBridgeDevices(t, d)) <= devices
  }

  lemma FootprintGrows(t: Topology, gpus: seq<Pci>, i: nat)
    requires Partitioned(t) && i < |gpus|
    ensures Footprint(t, gpus[..i + 1]) == Footprint(t, gpus[..i]) + Elements(NonBridgeDevices(t, gpus[i]))
    ensures WholeGroups(t, Footprint(t, gpus[..i]))
  {
    assert gpus[..i + 1] == gpus[..i] + [gpus[i]];
    forall d <- Footprint(t, gpus[..i])
      ensures Elements(NonBridgeDevices(t, d)) <= Footprint(t, gpus[..i])
    {
      var p :| p in gpus[..i] && d in NonBridgeDevices(t, p);
      SameGroup(t, p, d);
    }
  }

  class QemuManager {
    const sysfs: Sysfs
    var vms: map<int, Vm>

    ghost function View(): State
      reads this, sysfs
    {
      State(vms, sysfs.Hw())
    }

    constructor (sysfs: Sysfs)
      ensures this.sysfs == sysfs && vms == map[]
    {
      this.sysfs := sysfs;
      this.vms := map[];
    }

    /**
     The skip-set loop of `create_vm` and `restart_vm`. What has been bound is exactly the union of
     the groups of the first `upTo` addresses, all addresses on success, and no two visited
     addresses share a group (unless one is itself a bridge).
     */
    method BindAll(gpus: seq<Pci>) returns (bound: set<Pci>, visited: seq<Pci>, upTo: nat)
      requires Partitioned(sysfs.topology)
      modifies sysfs
      ensures BindsUpTo(sysfs.topology, old(sysfs.Hw()), sysfs.Hw(), gpus, upTo)
      ensures bound == Footprint(sysfs.topology, gpus[..upTo])
      ensures (forall p <- visited :: p in gpus) && SeparateVisits(sysfs.topology, visited)
      ensures upTo == |gpus| ==> Footprint(sysfs.topology, visited) == Footprint(sysfs.topology, gpus)
    {
      var t := sysfs.topology;
      bound, visited, upTo := {}, [], 0;
      while upTo < |gpus|
        invariant upTo <= |gpus|
        invariant bound == Footprint(t, gpus[..upTo])
        invariant bound == Footprint(t, visited)
        invariant AllOnVfio(sysfs.Hw(), bound)
        invariant Confined(old(sysfs.Hw()), sysfs.Hw(), bound)
        invariant KeptOnVfio(old(sysfs.Hw()), sysfs.Hw())
        invariant (forall p <- visited :: p in gpus) && SeparateVisits(t, visited)
      {
        NextVisit(t, gpus, upTo, visited);
        var p := gpus[upTo];
        if p !in bound {
          visited := visited + [p];
          ghost var before := sysfs.Hw();
          var ok, groupBound := sysfs.BindIommuGroup(p);
          ConfinedThen(old(sysfs.Hw()), before, sysfs.Hw(), bound, Elements(NonBridgeDevices(t, p)));
          if !ok {
            return;
          }
          bound := bound + Elements(groupBound);
        }
        upTo := upTo + 1;
      }
      assert gpus[..|gpus|] == gpus;
    }

    /** The skip-set loop of `_cleanup_vm`, `_cleanup_vm_on_error` and `restart_vm`: every group gets its turn. */
    method UnbindAll(gpus: seq<Pci>)
      requires Partitioned(sysfs.topology)
      modifies sysfs
      ensures Released(old(sysfs.Hw()), sysfs.Hw(), Footprint(sysfs.topology, gpus))
    {
      var t := sysfs.topology;
      var unbound: set<Pci> := {};
      for i := 0 to |gpus|
        invariant unbound <= Footprint(t, gpus[..i])
        invariant Released(old(sysfs.Hw()), sysfs.Hw(), Footprint(t, gpus[..i]))
      {
        FootprintGrows(t, gpus, i);
        if gpus[i] !in unbound {
          ghost var before := sysfs.Hw();
          var groupUnbound := sysfs.UnbindIommuGroup(gpus[i]);
          ReleasedThen(old(sysfs.Hw()), before, sysfs.Hw(), Footprint(t, gpus[..i]), Elements(NonBridgeDevices(t, gpus[i])));
          unbound := unbound + Elements(groupUnbound);
        }
      }
      assert gpus[..|gpus|] == gpus;
    }

    method CreateVm(o: Options, env: CreateEnv) returns (r: CreateExit)
      requires Partitioned(sysfs.topology)
      modifies this`vms, sysfs
      ensures CreateOutcome(sysfs.topology, old(View()), o, env, View(), r)
    {
      if o.taskId in vms {
        return AlreadyExists;
      }
      if !env.directories {
        return DirectoryError;
      }
      if !env.image {
        return NoBaseImage;
      }
      if !env.overlay {
        UnbindAll(o.gpus);
        return OverlayFailed;
      }
      var bound, visited, upTo := BindAll(o.gpus);
      ghost var mid := sysfs.Hw();
      if upTo < |o.gpus| || !env.seed || LaunchRaises(env.start, env.pidFile) {
        UnbindAll(o.gpus);
        assert Undone(sysfs.topology, old(sysfs.Hw()), mid, sysfs.Hw(), o.gpus, upTo);
        return CleanedUp(upTo);
      }
      if !Launches(env.start, env.pidFile, env.running) {
        return StartFailed;
      }
      var nics := Interfaces(o);
      var vm := Vm(o.taskId, env.pidFile.value, nics[0].ip, nics[0].tap, Taps(nics), o.gpus, env.now, env.command, false);
      vms := vms[o.taskId := vm];
      return Created(vm);
    }

    /** `_cleanup_vm` */
    method CleanupVm(id: int)
      requires Partitioned(sysfs.topology)
      modifies this`vms, sysfs
      ensures StopOutcome(sysfs.topology, old(View()), id, View(), id in old(vms))
    {
      if id !in vms {
        return;
      }
      var vm := vms[id];
      vms := vms - {id};
      UnbindAll(vm.gpus);
    }

    /** The monitor's answer and the wait for the process decide nothing that is kept here. */
    method StopVm(id: int) returns (found: bool)
      requires Partitioned(sysfs.topology)
      modifies this`vms, sysfs
      ensures StopOutcome(sysfs.topology, old(View()), id, View(), found)
    {
      if id !in vms {
        return false;
      }
      CleanupVm(id);
      return true;
    }

    method KillVm(id: int) returns (found: bool)
      requires Partitioned(sysfs.topology)
      modifies this`vms, sysfs
      ensures StopOutcome(sysfs.topology, old(View()), id, View(), found)
    {
      if id !in vms {
        return false;
      }
      CleanupVm(id);
      return true;
    }

    method RestartVm(id: int, env: RestartEnv) returns (r: RestartExit)
      requires Partitioned(sysfs.topology)
      modifies this`vms, sysfs
      ensures RestartOutcome(sysfs.topology, old(View()), id, env, View(), r)
    {
      if id !in vms {
        return NotFound;
      }
      if vms[id].command == [] {
        vms := vms[id := vms[id].(command := env.savedCommand)];
        if vms[id].command == [] {
          return ResetOnly;
        }
      }
      var vm := vms[id];
      vms := vms - {id};
      ghost var mid := sysfs.Hw();
      var upTo := 0;
      if vm.gpus != [] {
        UnbindAll(vm.gpus);
        mid := sysfs.Hw();
        var bound, visited;
        bound, visited, upTo := BindAll(vm.gpus);
      }
      assert Cycled(sysfs.topology, old(sysfs.Hw()), mid, sysfs.Hw(), vm.gpus, upTo);
      assert Reset(sysfs.topology, old(sysfs.Hw()), sysfs.Hw(), vm.gpus, upTo);
      if upTo < |vm.gpus| {
        return RebindFailed(upTo);
      }
      if LaunchRaises(env.start, env.pidFile) {
        return Raised;
      }
      if !Launches(env.start, env.pidFile, env.running) {
        return LaunchFailed;
      }
      vms := vms[id := vm.(pid := env.pidFile.value, sshReady := false)];
      return Restarted;
    }

    method RecoverVm(id: int, saved: Saved, env: RecoverEnv) returns (found: bool)
      modifies this`vms
      ensures RecoverOutcome(sysfs.topology, old(View()), id, saved, env, View(), found)
    {
      if !env.pidFile.Pid? || !env.running {
        return false;
      }
      var taps := if saved.taps != [] then saved.taps else if saved.tap != "" then [saved.tap] else [];
      var vm := Vm(id, env.pidFile.value, saved.ip, saved.tap, taps, saved.gpus, env.now, env.savedCommand, false);
      vms := vms[id := vm.(sshReady := true)];
      return true;
    }
  }

  ghost predicate SeparateVisits(t: Topology, visited: seq<Pci>) {
    forall i, j :: 0 <= i < j < |visited| && visited[j] in NonBridgeDevices(t, visited[j]) ==>
                     Elements(NonBridgeDevices(t, visited[i])) !! Elements(NonBridgeDevices(t, visited[j]))
  }

  /** Groups are equivalence classes. */
  lemma SameOrDisjoint(t: Topology, p: Pci, q: Pci)
    requires Partitioned(t)
    ensures NonBridgeDevices(t, p) == NonBridgeDevices(t, q)
            || Elements(NonBridgeDevices(t, p)) !! Elements(NonBridgeDevices(t, q))
  {
    if d :| d in NonBridgeDevices(t, p) && d in NonBridgeDevices(t, q) {
      SameGroup(t, p, d);
      SameGroup(t, q, d);
    }
  }

  /** An address outside the groups visited so far opens a new group; one inside adds nothing. */
  lemma NextVisit(t: Topology, gpus: seq<Pci>, i: nat, visited: seq<Pci>)
    requires Partitioned(t) && i < |gpus|
    requires SeparateVisits(t, visited) && Footprint(t, visited) == Footprint(t, gpus[..i])
    ensures var p, bound := gpus[i], Footprint(t, visited);
            var more := bound + Elements(NonBridgeDevices(t, p));
            && Footprint(t, gpus[..i + 1]) == more <= Footprint(t, gpus)
            && (p in bound ==> more == bound)
            && (p !in bound ==> Footprint(t, visited + [p]) == more && SeparateVisits(t, visited + [p]))
  {
    var p := gpus[i];
    FootprintGrows(t, gpus, i);
    if p !in Footprint(t, visited) {
      forall q <- visited | p in NonBridgeDevices(t, p)
        ensures Elements(NonBridgeDevices(t, q)) !! Elements(NonBridgeDevices(t, p))
      {
        SameOrDisjoint(t, q, p);
        assert p !in Elements(NonBridgeDevices(t, q));
      }
    }
  }

  // ---------------------------------------------------------------------------
  // Every run

  datatype Op =
    | Create(options: Options, createEnv: CreateEnv, created: CreateExit)
    | Stop(id: int, stopped: bool)
    | Kill(id: int, killed: bool)
    | Restart(id: int, restartEnv: RestartEnv, restarted: RestartExit)
    | Recover(id: int, saved: Saved, recoverEnv: RecoverEnv, recovered: bool)

  ghost predicate Outcome(t: Topology, s: State, op: Op, n: State) {
    match op
    case Create(o, env, r) => CreateOutcome(t, s, o, env, n, r)
    case Stop(id, found) => StopOutcome(t, s, id, n, found)
    case Kill(id, found) => StopOutcome(t, s, id, n, found)
    case Restart(id, env, r) => RestartOutcome(t, s, id, env, n, r)
    case Recover(id, saved, env, found) => RecoverOutcome(t, s, id, saved, env, n, found)
  }

  /** Every device of every tracked VM's groups is on vfio-pci. */
  ghost predicate TrackedOnVfio(t: Topology, s: State) {
    forall id <- s.vms :: AllOnVfio(s.hw, Footprint(t, s.vms[id].gpus))
  }

  /** No tracked VM other than `id` shares a group with these addresses. */
  ghost predicate Apart(t: Topology, s: State, id: int, gpus: seq<Pci>) {
    forall other <- s.vms | other != id :: Footprint(t, gpus) !! Footprint(t, s.vms[other].gpus)
  }

  ghost predicate CoexistApart(t: Topology, s: State) {
    forall id <- s.vms :: Apart(t, s, id, s.vms[id].gpus)
  }

  /**
   What the scheduler has to see to: requested addresses share no group with a tracked VM, and a
   recovered VM's devices are where they were left.
   */
  ghost predicate Allowed(t: Topology, s: State, op: Op) {
    match op
    case Create(o, _, _) => Apart(t, s, o.taskId, o.gpus)
    case Recover(id, saved, _, _) =>
      Apart(t, s, id, saved.gpus) && AllOnVfio(s.hw, Footprint(t, saved.gpus))
    case _ => true
  }

  lemma FootprintOfPrefix(t: Topology, gpus: seq<Pci>, i: nat)
    requires i <= |gpus|
    ensures Footprint(t, gpus[..i]) <= Footprint(t, gpus)
  {
  }

  lemma BindingIsConfined(t: Topology, h: Hardware, n: Hardware, gpus: seq<Pci>, upTo: nat)
    requires BindsUpTo(t, h, n, gpus, upTo)
    ensures Confined(h, n, Footprint(t, gpus))
  {
    if upTo < |gpus| {
      FootprintOfPrefix(t, gpus, upTo + 1);
    }
  }

  /**
   After a creation's clean-up: every requested device that was on vfio-pci before, that binding
   had brought there, or that is still there was told to leave.
   */
  lemma CleanUpTells(t: Topology, h: Hardware, mid: Hardware, n: Hardware, gpus: seq<Pci>, upTo: nat)
    requires Undone(t, h, mid, n, gpus, upTo)
    ensures Confined(h, n, Footprint(t, gpus))
    ensures forall d <- Footprint(t, gpus) ::
              DriverOf(h, d) == VfioPci || d in Footprint(t, gpus[..upTo]) || DriverOf(n, d) == VfioPci ==> Told(h, n, d)
  {
    BindingIsConfined(t, h, mid, gpus, upTo);
    ConfinedThen(h, mid, n, Footprint(t, gpus), Footprint(t, gpus));
    forall d <- Footprint(t, gpus) |
      DriverOf(h, d) == VfioPci || d in Footprint(t, gpus[..upTo]) || DriverOf(n, d) == VfioPci
      ensures Told(h, n, d)
    {
      WrittenThen(h, mid, n, d);
    }
  }

  /**
   After a restart's reset, however far the rebinding got: every device of the VM that was on
   vfio-pci was told to leave, and the groups before the failing one are on vfio-pci again.
   */
  lemma ResetTells(t: Topology, h: Hardware, mid: Hardware, n: Hardware, gpus: seq<Pci>, upTo: nat)
    requires Cycled(t, h, mid, n, gpus, upTo)
    ensures Confined(h, n, Footprint(t, gpus))
    ensures forall d <- Footprint(t, gpus) :: DriverOf(h, d) == VfioPci ==> Told(h, n, d)
    ensures AllOnVfio(n, Footprint(t, gpus[..upTo]))
  {
    BindingIsConfined(t, mid, n, gpus, upTo);
    ConfinedThen(h, mid, n, Footprint(t, gpus), Footprint(t, gpus));
    forall d <- Footprint(t, gpus) | DriverOf(h, d) == VfioPci
      ensures Told(h, n, d)
    {
      WrittenThen(h, mid, n, d);
    }
  }

  /** On no exit does a creation write to, or move, a device outside the requested groups. */
  lemma CreateIsConfined(t: Topology, s: State, o: Options, env: CreateEnv, n: State, r: CreateExit)
    requires CreateOutcome(t, s, o, env, n, r)
    ensures Confined(s.hw, n.hw, Footprint(t, o.gpus))
  {
    match r
    case StartFailed => BindingIsConfined(t, s.hw, n.hw, o.gpus, |o.gpus|);
    case Created(_) => BindingIsConfined(t, s.hw, n.hw, o.gpus, |o.gpus|);
    case CleanedUp(upTo) =>
      var mid :| Undone(t, s.hw, mid, n.hw, o.gpus, upTo);
      CleanUpTells(t, s.hw, mid, n.hw, o.gpus, upTo);
    case _ =>
  }

  /** On every exit past the shutdown; and the rebinding is complete unless that is what failed. */
  lemma RestartResets(t: Topology, s: State, id: int, env: RestartEnv, n: State, r: RestartExit)
    requires RestartOutcome(t, s, id, env, n, r) && id in s.vms
    ensures Confined(s.hw, n.hw, Footprint(t, s.vms[id].gpus))
    ensures !r.ResetOnly? ==>
              forall d <- Footprint(t, s.vms[id].gpus) :: DriverOf(s.hw, d) == VfioPci ==> Told(s.hw, n.hw, d)
    ensures !r.ResetOnly? && !r.RebindFailed? ==> AllOnVfio(n.hw, Footprint(t, s.vms[id].gpus))
  {
    var gpus := s.vms[id].gpus;
    if !r.ResetOnly? {
      var upTo := if r.RebindFailed? then r.boundUpTo else |gpus|;
      var mid :| Cycled(t, s.hw, mid, n.hw, gpus, upTo);
      ResetTells(t, s.hw, mid, n.hw, gpus, upTo);
      assert gpus[..|gpus|] == gpus;
    }
  }

  // ---------------------------------------------------------------------------
  // Which exit is taken

  /**
   `create_vm` for a new id, once the disk is there: unless binding stops at some group or the seed
   image fails, what QEMU and its pidfile do decides. An error QEMU reported, an unreadable
   pidfile or a process gone leave the table as it was and every device on vfio-pci; whatever
   raises anything else is cleaned up; a running process is tracked under its pid.
   */
  lemma CreateExits(t: Topology, s: State, o: Options, env: CreateEnv, n: State, r: CreateExit)
    requires CreateOutcome(t, s, o, env, n, r)
    requires o.taskId !in s.vms && env.directories && env.image && env.overlay
    ensures r.CleanedUp? || r.StartFailed? || r.Created?
    ensures !env.seed ==> r.CleanedUp?
    ensures env.seed && !(r.CleanedUp? && r.boundUpTo < |o.gpus|) ==>
              match env.start
              case StartRaised => r == CleanedUp(|o.gpus|)
              case Exited(code, errorReadable) =>
                if code != 0 then if errorReadable then r == StartFailed else r == CleanedUp(|o.gpus|)
                else
                  match env.pidFile
                  case PidRaised => r == CleanedUp(|o.gpus|)
                  case PidUnreadable => r == StartFailed
                  case Pid(pid) => if env.running then r.Created? && r.vm.pid == pid else r == StartFailed
    ensures r.StartFailed? ==>
              n.vms == s.vms && AllOnVfio(n.hw, Footprint(t, o.gpus)) && KeptOnVfio(s.hw, n.hw)
  {
    assert o.gpus[..|o.gpus|] == o.gpus;
    if r.CleanedUp? {
      var mid :| Undone(t, s.hw, mid, n.hw, o.gpus, r.boundUpTo);
    }
  }

  /** The entry of a created VM: its first interface is the primary one, the legacy one if none is given. */
  lemma CreatedEntry(t: Topology, s: State, o: Options, env: CreateEnv, n: State, vm: Vm)
    requires CreateOutcome(t, s, o, env, n, Created(vm))
    ensures n.vms == s.vms[o.taskId := vm] && o.taskId !in s.vms && AllOnVfio(n.hw, Footprint(t, o.gpus))
    ensures vm.taskId == o.taskId && vm.gpus == o.gpus && vm.command == env.command && vm.createdAt == env.now && !vm.sshReady
    ensures o.interfaces == [] ==> vm.ip == o.legacy.ip && vm.tap == o.legacy.tap && vm.taps == [o.legacy.tap]
    ensures o.interfaces != [] ==>
              && vm.ip == o.interfaces[0].ip && vm.tap == o.interfaces[0].tap && |vm.taps| == |o.interfaces|
              && forall i :: 0 <= i < |o.interfaces| ==> vm.taps[i] == o.interfaces[i].tap
  {
    assert o.gpus[..|o.gpus|] == o.gpus;
  }

  /**
   `restart_vm` for a tracked VM: without a command in its entry or on disk, a reset only; else,
   unless rebinding stops at some group, what QEMU and its pidfile do decides as in a creation.
   The VM that comes back runs the command of its entry, or the one on disk when that was empty.
   */
  lemma RestartExits(t: Topology, s: State, id: int, env: RestartEnv, n: State, r: RestartExit)
    requires RestartOutcome(t, s, id, env, n, r) && id in s.vms
    ensures r == ResetOnly <==> s.vms[id].command == [] && env.savedCommand == []
    ensures !r.ResetOnly? && !r.RebindFailed? ==>
              match env.start
              case StartRaised => r == Raised
              case Exited(code, errorReadable) =>
                if code != 0 then if errorReadable then r == LaunchFailed else r == Raised
                else
                  match env.pidFile
                  case PidRaised => r == Raised
                  case PidUnreadable => r == LaunchFailed
                  case Pid(pid) => if env.running then r == Restarted else r == LaunchFailed
    ensures r == Restarted ==>
              && id in n.vms && env.pidFile == Pid(n.vms[id].pid) && !n.vms[id].sshReady
              && n.vms[id].command == if s.vms[id].command != [] then s.vms[id].command else env.savedCommand
    ensures r.RebindFailed? ==>
              && r.boundUpTo < |s.vms[id].gpus| && id !in n.vms
              && AllOnVfio(n.hw, Footprint(t, s.vms[id].gpus[..r.boundUpTo]))
  {
    if r.RebindFailed? {
      var mid :| Cycled(t, s.hw, mid, n.hw, s.vms[id].gpus, r.boundUpTo);
    }
  }

  /** The entry of an adopted VM: what was saved, with the primary TAP alone where no list was. */
  lemma RecoveredEntry(t: Topology, s: State, id: int, saved: Saved, env: RecoverEnv, n: State)
    requires RecoverOutcome(t, s, id, saved, env, n, true)
    ensures n.vms.Keys == s.vms.Keys + {id} && n.hw == s.hw
    ensures var vm := n.vms[id];
            && env.pidFile == Pid(vm.pid) && vm.taskId == id && vm.ip == saved.ip && vm.tap == saved.tap
            && vm.gpus == saved.gpus && vm.command == env.savedCommand && vm.createdAt == env.now && vm.sshReady
            && (saved.taps != [] ==> vm.taps == saved.taps)
            && (saved.taps == [] && saved.tap != "" ==> vm.taps == [saved.tap])
            && (saved.taps == [] && saved.tap == "" ==> vm.taps == [])
  {
  }

  lemma OutcomeIsConfined(t: Topology, s: State, op: Op, n: State)
    requires Outcome(t, s, op, n)
    ensures Confined(s.hw, n.hw, Footprint(t, Mover(s, op).1))
  {
    match op
    case Create(o, env, r) => CreateIsConfined(t, s, o, env, n, r);
    case Restart(id, env, r) =>
      if id in s.vms {
        RestartResets(t, s, id, env, n, r);
      }
    case _ =>
  }

  /** One VM's devices move; the others keep theirs. */
  lemma ConfinedKeepsOthers(t: Topology, s: State, n: State, id: int, gpus: seq<Pci>)
    requires TrackedOnVfio(t, s) && Apart(t, s, id, gpus)
    requires Confined(s.hw, n.hw, Footprint(t, gpus))
    ensures forall other <- s.vms | other != id :: AllOnVfio(n.hw, Footprint(t, s.vms[other].gpus))
    ensures forall other <- s.vms | other != id, d <- Footprint(t, s.vms[other].gpus) ::
              DriverOf(n.hw, d) == DriverOf(s.hw, d)
  {
  }

  ghost function Mover(s: State, op: Op): (int, seq<Pci>) {
    match op
    case Create(o, _, _) => (o.taskId, o.gpus)
    case Stop(id, _) => (id, if id in s.vms then s.vms[id].gpus else [])
    case Kill(id, _) => (id, if id in s.vms then s.vms[id].gpus else [])
    case Restart(id, _, _) => (id, if id in s.vms then s.vms[id].gpus else [])
    case Recover(id, saved, _, _) => (id, saved.gpus)
  }

  /** No operation, on no exit, touches another VM's entry or another VM's devices. */
  lemma OthersUntouched(t: Topology, s: State, op: Op, n: State, other: int)
    requires CoexistApart(t, s) && TrackedOnVfio(t, s) && Allowed(t, s, op) && Outcome(t, s, op, n)
    requires other in s.vms && other != Mover(s, op).0
    ensures other in n.vms && n.vms[other] == s.vms[other]
    ensures forall d <- Footprint(t, s.vms[other].gpus) :: DriverOf(n.hw, d) == DriverOf(s.hw, d)
  {
    var (id, gpus) := Mover(s, op);
    OutcomeIsConfined(t, s, op, n);
    assert Apart(t, s, id, gpus);
    ConfinedKeepsOthers(t, s, n, id, gpus);
  }

  lemma StepKeepsVfio(t: Topology, s: State, op: Op, n: State)
    requires CoexistApart(t, s) && TrackedOnVfio(t, s) && Allowed(t, s, op) && Outcome(t, s, op, n)
    ensures CoexistApart(t, n) && TrackedOnVfio(t, n)
  {
    var (id, gpus) := Mover(s, op);
    assert id in n.vms ==> n.vms[id].gpus == gpus || (n.vms == s.vms && n.hw == s.hw);
    assert forall other <- n.vms | other != id :: other in s.vms;
    forall other <- n.vms
      ensures AllOnVfio(n.hw, Footprint(t, n.vms[other].gpus))
      ensures Apart(t, n, other, n.vms[other].gpus)
    {
      if other != id {
        OthersUntouched(t, s, op, n, other);
      }
      forall third <- n.vms | third != id
        ensures third in s.vms && n.vms[third] == s.vms[third]
      {
        OthersUntouched(t, s, op, n, third);
      }
    }
  }

  ghost predicate IsRun(t: Topology, states: seq<State>, ops: seq<Op>) {
    && |states| == |ops| + 1
    && states[0].vms == map[]
    && forall i :: 0 <= i < |ops| ==> Allowed(t, states[i], ops[i]) && Outcome(t, states[i], ops[i], states[i + 1])
  }

  /**
   In every state of every run, from no VM at all, through any operations with any outcomes: all
   non-bridge devices of all groups of every tracked VM are on vfio-pci, and tracked VMs share none.
   */
  lemma {:induction false} RunKeepsVfio(t: Topology, states: seq<State>, ops: seq<Op>, i: nat)
    requires IsRun(t, states, ops) && i < |states|
    ensures TrackedOnVfio(t, states[i]) && CoexistApart(t, states[i])
  {
    if i > 0 {
      RunKeepsVfio(t, states, ops, i - 1);
      StepKeepsVfio(t, states[i - 1], ops[i - 1], states[i]);
    }
  }

  // ---------------------------------------------------------------------------
  // The conditions are needed

  /**
   Whatever happens, creating keeps the running VMs' devices on vfio-pci - exactly when the
   request shares no group with them. (A creation that fails before it bound anything
   still unbinds the requested groups.)
   */
  lemma CreateIsSafeIffApart(t: Topology, s: State, o: Options)
    requires TrackedOnVfio(t, s) && o.taskId !in s.vms
    ensures (forall env, n, r :: CreateOutcome(t, s, o, env, n, r) ==> TrackedOnVfio(t, n))
            <==> Apart(t, s, o.taskId, o.gpus)
  {
    if Apart(t, s, o.taskId, o.gpus) {
      forall env, n, r | CreateOutcome(t, s, o, env, n, r)
        ensures TrackedOnVfio(t, n)
      {
        CreateKeepsTracked(t, s, o, env, n, r);
      }
    } else {
      var other :| other in s.vms && other != o.taskId && !(Footprint(t, o.gpus) !! Footprint(t, s.vms[other].gpus));
      var d :| d in Footprint(t, o.gpus) && d in Footprint(t, s.vms[other].gpus);
      var env, n := FailedCreateTakesDevice(t, s, o, d);
      assert !AllOnVfio(n.hw, Footprint(t, s.vms[other].gpus));
    }
  }

  lemma CreateKeepsTracked(t: Topology, s: State, o: Options, env: CreateEnv, n: State, r: CreateExit)
    requires TrackedOnVfio(t, s) && o.taskId !in s.vms && Apart(t, s, o.taskId, o.gpus)
    requires CreateOutcome(t, s, o, env, n, r)
    ensures TrackedOnVfio(t, n)
  {
    CreateIsConfined(t, s, o, env, n, r);
    ConfinedKeepsOthers(t, s, n, o.taskId, o.gpus);
    assert o.gpus[..|o.gpus|] == o.gpus;
  }

  /**
   The disk cannot be created, every write of the clean-up completes, and no driver takes the
   devices up again: a requested device that was on vfio-pci ends without a driver.
   */
  lemma FailedCreateTakesDevice(t: Topology, s: State, o: Options, d: Pci) returns (env: CreateEnv, n: State)
    requires o.taskId !in s.vms && d in Footprint(t, o.gpus) && DriverOf(s.hw, d) == VfioPci
    ensures CreateOutcome(t, s, o, env, n, OverlayFailed) && Told(s.hw, n.hw, d)
    ensures n.vms == s.vms && DriverOf(n.hw, d) == NoDriver
  {
    env := CreateEnv(true, true, false, true, [], StartRaised, PidRaised, false, 0.0);
    var hw := AllLetGo(t, s.hw, Footprint(t, o.gpus));
    n := s.(hw := hw);
  }

  /** What `unbind_from_vfio` writes when the device does not come back to a driver. */
  function FullUnbind(t: Topology, p: Pci): seq<Write> {
    [Write(Unbind, p, Completed, NoDriver), Write(Override, p, Completed, NoDriver), Write(Probe, p, Completed, NoDriver)]
    + if p in t.nvidia then [Write(NvidiaBind, p, Completed, NoDriver)] else []
  }

  lemma FullUnbindIsATrace(t: Topology, p: Pci)
    ensures UnbindTrace(p in t.nvidia, true, FullUnbind(t, p)) && AllFor(FullUnbind(t, p), p)
  {
    var issued := FullUnbind(t, p);
    assert Attributes(issued) == if p in t.nvidia then [Unbind, Override, Probe, NvidiaBind] else [Unbind, Override, Probe];
  }

  lemma OneLetGo(t: Topology, h: Hardware, p: Pci) returns (n: Hardware)
    ensures Released(h, n, {p})
    ensures DriverOf(h, p) == VfioPci ==>
              && DriverOf(n, p) == NoDriver && n.log == h.log + FullUnbind(t, p)
              && UnbindTrace(p in t.nvidia, true, FullUnbind(t, p))
    ensures DriverOf(h, p) != VfioPci ==> n == h
  {
    n := h;
    if DriverOf(h, p) == VfioPci {
      n := Hardware(h.drivers[p := NoDriver], h.log + FullUnbind(t, p));
      FullUnbindIsATrace(t, p);
      assert FullUnbind(t, p)[0].attribute == Unbind;
      IssuedIsConfined(h, n, p, FullUnbind(t, p));
    }
  }

  lemma {:induction false} AllLetGo(t: Topology, h: Hardware, devices: set<Pci>) returns (n: Hardware)
    ensures Released(h, n, devices)
    ensures forall d <- devices :: DriverOf(h, d) == VfioPci ==> DriverOf(n, d) == NoDriver
    decreases devices
  {
    if devices == {} {
      return h;
    }
    var p :| p in devices;
    var m := OneLetGo(t, h, p);
    n := AllLetGo(t, m, devices - {p});
    ReleasedThen(h, m, n, {p}, devices - {p});
    assert {p} + (devices - {p}) == devices;
  }

  /** A remark: recovery adopts a VM without looking at its devices, so they have to be in place already. */
  lemma RecoverIsSafeIff(t: Topology, s: State, id: int, saved: Saved, env: RecoverEnv, n: State)
    requires TrackedOnVfio(t, s) && RecoverOutcome(t, s, id, saved, env, n, true)
    ensures TrackedOnVfio(t, n) <==> AllOnVfio(s.hw, Footprint(t, saved.gpus))
  {
    assert n.vms[id].gpus == saved.gpus;
    if AllOnVfio(s.hw, Footprint(t, saved.gpus)) {
      forall other <- n.vms
        ensures AllOnVfio(n.hw, Footprint(t, n.vms[other].gpus))
      {
        assert other == id || n.vms[other] == s.vms[other];
      }
    }
  }

  /** What a caller may conclude from the Boolean that `restart_vm` returns. */
  function ReturnsTrue(r: RestartExit): bool {
    r.ResetOnly? || r.Restarted?
  }

  /**
   True: the VM is tracked under its id with the same address, TAPs, devices and creation time,
   the same command if it had one, and its devices are on vfio-pci. Anything else for a VM that
   had a command: it is not tracked, and all other VMs are as they were.
   */
  lemma RestartMeans(t: Topology, s: State, id: int, env: RestartEnv, n: State, r: RestartExit)
    requires CoexistApart(t, s) && TrackedOnVfio(t, s) && RestartOutcome(t, s, id, env, n, r) && id in s.vms
    ensures ReturnsTrue(r) ==>
              && id in n.vms && n.vms.Keys == s.vms.Keys
              && n.vms[id].(pid := s.vms[id].pid, command := s.vms[id].command, sshReady := s.vms[id].sshReady) == s.vms[id]
              && (s.vms[id].command != [] ==> n.vms[id].command == s.vms[id].command)
              && AllOnVfio(n.hw, Footprint(t, s.vms[id].gpus))
    ensures !ReturnsTrue(r) ==> id !in n.vms
    ensures forall other <- s.vms | other != id ::
              && other in n.vms && n.vms[other] == s.vms[other]
              && AllOnVfio(n.hw, Footprint(t, s.vms[other].gpus))
  {
    var op := Restart(id, env, r);
    forall other <- s.vms | other != id
      ensures other in n.vms && n.vms[other] == s.vms[other] && AllOnVfio(n.hw, Footprint(t, s.vms[other].gpus))
    {
      OthersUntouched(t, s, op, n, other);
    }
  }
}
