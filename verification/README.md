# Verified models of KohakuRiver

KohakuRiver runs containers and virtual machines on a small cluster. This project models the
parts of it whose correctness depends on several pieces of code staying in step, and proves
what those parts are for. `dafny verify dfyconfig.toml` checks everything.

**The port-forwarding tunnel** (`Frames`, `Logs`, `Connections`, `Forwarders`, `Tunnel`,
`TunnelInvariant`, `TunnelTheorems`, `TunnelProgress`, `TunnelAnswers`, `TunnelClosing`, `TunnelShape`,
`Sessions`). A CLI forwarder multiplexes local TCP
connections over one WebSocket; a client in the container splits them out again, with a bounded
channel and two pumps per connection. `Connections` and `Forwarders` model the two objects as
classes over specification functions; `Tunnel` composes those functions into a step system in
which local peers, coroutines, the relay, the manager, the tasks and the services interleave
freely, WebSockets are lost at any point with an arbitrary tail of what was sent, and tunnel
connections come back with a new manager. One inductive invariant (`TunnelInvariant`) holds in
every reachable state. From it follow isolation and order of the bytes in both directions,
conservation while a connection lives, the exact contents of the manager's map, and
(`TunnelProgress`) that the message loop, which waits whenever one channel is full, is never
stuck, though one service that stops reading starves all others. While the WebSockets a byte
has to cross are up, it can still arrive, in either direction (`TunnelProgress`, `TunnelAnswers`);
what comes back after the CLI's WebSocket is lost never does. Ends travel the same way: a handled
CLOSE or ERROR has closed the local writer, and a hang-up on either side can always reach the
other, after all the data (`TunnelClosing`). All this is about one forwarder.
For several on one container, `Sessions` gives the exact condition for keeping them apart.

**VMs and their devices** (`Vfio`, `Qemu`, `Gpus`). Whole IOMMU groups move between drivers
through sysfs writes that may complete, fail or time out, each changing at most the device it
names. Every exit of every operation of the VM manager is specified; for all runs, each tracked
VM keeps all its groups' devices on vfio-pci as long as coexisting VMs use disjoint groups, and
that condition is shown to be necessary. What unbinding promises is stated per device: whoever
was on vfio-pci was told to leave, and nobody else was written to or moved. GPU discovery is connected to binding.

**Overlay addresses** (`Overlay`, `Text`). The text form and the arithmetic of the address
block: round trips, a partition theorem, and the exact container ranges.

**Sequential cores** (`Tarballs`, `Complexity`, `Names`, `Targets`, `Stores`). The tarball
store in both implementations, the AST depth visitor, the naming round trips, the two-stage
target parser and the task store with decimal keys.

## Where the code and its own words differ

The model follows the code.

- `connection.rs:115-119` says that dropping a connection aborts its task. Dropping a tokio
  JoinHandle detaches the task, so a task outlives its map entry; reverse isolation has to hold
  (and does) for tasks whose entry, or whose manager, is gone.
- `forward.py:230` packs the CONNECT frame outside the `try`. For the id 2^32 `struct.pack`
  raises, the coroutine dies before its `finally`, and its table entry stays. `TableDrains`
  states this as an exact condition.
- `qemu/client.py:307-308` re-raises a `VMCreationError` without clean-up, so when QEMU does not
  come up the devices stay on vfio-pci; the generic exit (309-312) unbinds the requested groups
  even when nothing was bound yet. `CreateIsSafeIffApart` shows what the second can do to another VM.
- `qemu/client.py:401-406` looks as if a failed QMP reset made `restart_vm` return False, but
  `qmp_reset` (637-644) never raises, so this path always returns True.
- `qemu/client.py:504` speaks of preserving runtime state; `ssh_ready` is not carried over.
- `overlay_subnet.py:288` says the container range excludes the host's address. It holds it
  whenever `subnet_bits` > 8 (`HostIsInRangeIff`). The example in the docstring of `default`
  (line 165) is not the value of `DEFAULT_CONFIG` (line 56).
- Every forwarder counts its ids from 1 (`forward.py:176`) and the runner passes them through
  (`runner/services/tunnel_server.py:353-399`), so two forwarders on one container collide with
  their first connections (`FirstConnectionsCollide`).
- `sync_manager.py:146` does not lower-case the file name it writes, while listing and clean-up
  look for the lower-cased name (`TarballListedIffLowercase`, `MixedCaseLosesEnvironment`).

## Model

| member | source | states |
|---|---|---|
| Frames.BuildMessage | src/kohakuriver-tunnel/src/protocol.rs:155-174 | the built frame parses to exactly the given fields, and its payload is the given one |
| Frames.WriteTo | src/kohakuriver-tunnel/src/protocol.rs:142-147 | appends the eight header bytes and touches nothing before them |
| Frames.RustRoundTrip | src/kohakuriver-tunnel/src/protocol.rs:123-174 | parse and payload extraction invert encoding, for every header and payload |
| Frames.RustAcceptsExactly | src/kohakuriver-tunnel/src/protocol.rs:42-81 | accepted iff at least 8 bytes, type 1..7, proto 0..1; wherever Rust accepts, Python reads the same fields |
| Frames.RebuildAccepted | src/kohakuriver-tunnel/src/protocol.rs:202-208 | rebuilding a frame from its header and payload gives the same bytes, in both languages |
| Frames.PythonRoundTrip | src/kohakuriver/tunnel/protocol.py:54-105 | packing succeeds iff all fields are in range, and unpacking inverts it |
| Frames.CodecsAgree | src/kohakuriver/cli/commands/forward.py:50-67 | the codecs write identical bytes for the same typed fields, and each reads the other's |
| Frames.FrameBytes | src/kohakuriver-tunnel/src/protocol.rs:25-81 | the header's eight bytes by number: type codes 1 to 7, protocol 0 or 1, id and port with the high byte first |
| Connections.ConnectionManager.constructor | src/kohakuriver-tunnel/src/connection.rs:42-47 | a new manager has no connections; tasks of earlier managers go on |
| Connections.ConnectionManager.HandleConnect | src/kohakuriver-tunnel/src/connection.rs:50-90 | a new id gets a fresh task and an entry for it; a known id changes nothing |
| Connections.ConnectionManager.HandleData | src/kohakuriver-tunnel/src/connection.rs:93-109 | the payload goes to the end of that id's channel, nowhere for an unknown id or a dropped receiver; waits iff the channel is live and full |
| Connections.ConnectionManager.HandleClose | src/kohakuriver-tunnel/src/connection.rs:112-121 | removes the entry and leaves every task as it is |
| Connections.ConnectionManager.Shutdown | src/kohakuriver-tunnel/src/connection.rs:144-150 | empties the map and leaves every task as it is |
| Connections.ConnectionManager.HandleMessage | src/kohakuriver-tunnel/src/tunnel.rs:160-213 | one received frame has exactly the specified effect and reply, malformed ones none |
| Connections.ConnectOpens | src/kohakuriver-tunnel/src/connection.rs:50-90 | a CONNECT frame starts one fresh task for its own protocol and port, or changes nothing when the id is known |
| Connections.DataIsQueued | src/kohakuriver-tunnel/src/connection.rs:64-109 | a DATA frame goes behind the chunks of its id only, waits exactly when 256 are there, and is dropped without an entry or a receiver |
| Connections.OtherFrames | src/kohakuriver-tunnel/src/tunnel.rs:198-209 | CLOSE forgets its id and nothing else, PING is answered by a PONG with its id, the other types change nothing |
| Connections.MalformedIsIgnored | src/kohakuriver-tunnel/src/tunnel.rs:165-170 | a frame too short or with an unknown type or protocol changes nothing |
| Connections.Run | src/kohakuriver-tunnel/src/tunnel.rs:65-97 | gives up exactly after the first `max` failures in a row, never when `max` is 0 |
| Forwarders.TunnelForwarder.AllocateClientId | src/kohakuriver/cli/commands/forward.py:219-224 | returns the next id and only moves the counter |
| Forwarders.TunnelForwarder.RegisterConnection | src/kohakuriver/cli/commands/forward.py:322-324 | enters the connection under its id and changes nothing else |
| Forwarders.TunnelForwarder.UnregisterConnection | src/kohakuriver/cli/commands/forward.py:326-328 | removes the id's entry and changes nothing else |
| Forwarders.TunnelForwarder.HandleMessage | src/kohakuriver/cli/commands/forward.py:278-320 | DATA goes to the writer of that id only; CLOSE and ERROR remove the entry and close its writer; all else changes nothing |
| Forwarders.EndClosesWriter | src/kohakuriver/cli/commands/forward.py:303-320 | CLOSE or ERROR for a registered id closes exactly that writer and removes exactly that entry |
| Forwarders.DataIsWritten | src/kohakuriver/cli/commands/forward.py:290-301 | DATA for a registered id is written whole to exactly that writer, or a part of it when the write fails |
| Forwarders.OthersAreIgnored | src/kohakuriver/cli/commands/forward.py:278-288 | unknown ids, other types and short frames change nothing |
| Tunnel.Apply | src/kohakuriver/cli/commands/forward.py:353-394 | every step of the composed system, made of the specification functions of the two objects, leads from a consistent state to one |
| TunnelInvariant.ClientMoveKeeps | src/kohakuriver/cli/commands/forward.py:353-394 | every move of a `handle_client` coroutine keeps the invariant |
| TunnelInvariant.CliReceiveKeeps | src/kohakuriver/cli/commands/forward.py:278-320 | every message the CLI handles keeps it |
| TunnelInvariant.DeliverKeeps | src/kohakuriver-tunnel/src/tunnel.rs:160-213 | every message the manager handles keeps it |
| TunnelInvariant.TaskMoveKeeps | src/kohakuriver-tunnel/src/connection.rs:158-254 | every move of a connection task and its pumps keeps it, whatever its WebSocket does |
| TunnelInvariant.LinkDownKeeps | src/kohakuriver-tunnel/src/tunnel.rs:146-156 | losing a tunnel connection, with any tail of what it carried, keeps it |
| TunnelInvariant.LinkUpKeeps | src/kohakuriver-tunnel/src/tunnel.rs:114-118 | reconnecting with a new manager keeps it |
| TunnelInvariant.RunKeeps | src/kohakuriver-tunnel/src/tunnel.rs:65-97 | the invariant holds after every run |
| TunnelTheorems.ForwardIsolation | src/kohakuriver-tunnel/src/connection.rs:227-241 | in every reachable state, what a task wrote to its service is a prefix of what was read from the one local connection with its id; no second task ever has that id |
| TunnelTheorems.ReverseIsolation | src/kohakuriver-tunnel/src/connection.rs:198-225 | what a local writer took is a prefix of what the one task with its id read from its service, also after CLOSE and reconnects |
| TunnelTheorems.AnswersNeedATask | src/kohakuriver/cli/commands/forward.py:290-301 | without a task for its id a local connection gets nothing |
| TunnelTheorems.ForwardConservation | src/kohakuriver-tunnel/src/connection.rs:93-109 | while a task is live, read == written + in hand + in the channel + in flight + not yet sent, in order |
| TunnelTheorems.ReverseConservation | src/kohakuriver-tunnel/src/connection.rs:198-219 | the same towards the local connection |
| TunnelTheorems.MapIsOpenConnections | src/kohakuriver-tunnel/src/connection.rs:58-121 | an id is in the map iff its CONNECT was handled on the present tunnel connection and its CLOSE was not |
| TunnelTheorems.MapDrains | src/kohakuriver/cli/commands/forward.py:386-394 | once all coroutines ended and all messages are handled the map is empty, whichever side closed first |
| TunnelTheorems.TableDrains | src/kohakuriver/cli/commands/forward.py:226-236 | the forwarder's table is then empty too iff no id reached 2^32 |
| TunnelTheorems.ServedOnce | src/kohakuriver-tunnel/src/connection.rs:58-62 | once an id's CONNECT is past and the map lacks it, no later manager holds it and no task starts for it, over any continuation of the run |
| TunnelTheorems.GoneStep | src/kohakuriver-tunnel/src/connection.rs:101-108 | one step of the previous statement: DATA for such an id is dropped |
| TunnelProgress.StalledAtTask | src/kohakuriver-tunnel/src/connection.rs:101-105 | the message loop waits only for room in the full channel of a live task that can move |
| TunnelProgress.OneStalledServiceStarvesAll | src/kohakuriver-tunnel/src/tunnel.rs:189-197 | as long as that task makes no room and the link stays up, no continuation handles any message: no connection opens or closes, and every other service gets at most what its task held |
| TunnelProgress.InFlightCanBeHandled | src/kohakuriver-tunnel/src/tunnel.rs:120-151 | from every reachable state with a tunnel connection, deliveries and tasks alone can handle everything in flight, giving up no connection |
| TunnelProgress.ChannelCanBeWritten | src/kohakuriver-tunnel/src/connection.rs:227-241 | a task whose receiver lives can always empty its channel into the service |
| TunnelProgress.EveryByteCanArrive | src/kohakuriver-tunnel/src/connection.rs:158-254 | while both WebSockets are up and its receiver lives, some continuation gets every byte sent for a connection to its service |
| TunnelProgress.SomeRunDelivers | src/kohakuriver/cli/commands/forward.py:353-383 | for every first chunk there is a run, from the initial state, that delivers it unchanged |
| TunnelAnswers.RunKeepsOrder | src/kohakuriver-tunnel/src/connection.rs:198-225 | after every run, no DATA follows a CLOSE or ERROR of its id on the way back |
| TunnelAnswers.GetsKeepsUpToDate | src/kohakuriver/cli/commands/forward.py:278-320 | a registered local connection loses nothing by the message that unregisters it |
| TunnelAnswers.AnswersCanBeTaken | src/kohakuriver/cli/commands/forward.py:259-276 | from every reachable state the receiving loop alone can hand a registered connection all the data sent back for it; after the loss of the WebSocket, all that had arrived by then |
| TunnelAnswers.EveryAnswerCanArrive | src/kohakuriver/cli/commands/forward.py:290-320 | while the CLI's WebSocket is up, everything a live task read from its service can reach the local connection, up to what the task still holds |
| TunnelAnswers.NothingArrivesAfterLoss | src/kohakuriver/cli/commands/forward.py:402-415 | on no continuation after that loss does a local writer get more than had arrived by then |
| TunnelClosing.HandledEndClosesWriter | src/kohakuriver/cli/commands/forward.py:303-320 | in every reachable state a connection whose CLOSE or ERROR was handled, or whose coroutine ended, has its writer closed and no entry |
| TunnelClosing.EndCanCloseWriter | src/kohakuriver/cli/commands/forward.py:259-276 | while the CLI's WebSocket is up, every CLOSE or ERROR on its way back can be turned into a closed writer |
| TunnelClosing.HangUpReachesLocal | src/kohakuriver-tunnel/src/connection.rs:198-225 | a service that hangs up can have the local writer closed, and a registered open one has then taken all that was read from it |
| TunnelClosing.FailedDialReachesLocal | src/kohakuriver-tunnel/src/connection.rs:172-181 | a service that cannot be dialled can have the local writer closed, by its task's ERROR |
| TunnelClosing.EndReachesService | src/kohakuriver-tunnel/src/connection.rs:227-241 | a task whose channel the manager let go of can write all it was given and then end its side of the service socket |
| TunnelClosing.LocalEndReachesService | src/kohakuriver/cli/commands/forward.py:369-394 | the end of a local connection can reach its service, after all that was read from it |
| TunnelClosing.FailedSendEndsCoroutine | src/kohakuriver/cli/commands/forward.py:363-383 | a CONNECT that cannot be sent closes and unregisters the connection; data that cannot be sent ends the relaying |
| TunnelClosing.FailedSendEndsTask | src/kohakuriver-tunnel/src/connection.rs:184-239 | what a failed CONNECTED, a failed send back and a failed write leave of a task |
| TunnelShape.TasksServeForwardedPort | src/kohakuriver-tunnel/src/connection.rs:50-90 | every task of every run serves the forwarded port over TCP and never holds more than 256 chunks |
| TunnelShape.MessagesAreInShape | src/kohakuriver/cli/commands/forward.py:226-257 | every CONNECT carries the forwarded port, every DATA 1 to 65536 bytes, and on the way back CONNECTED precedes DATA and CLOSE of its id |
| Sessions.IsolatedIffNoSharedIds | src/kohakuriver/runner/services/tunnel_server.py:353-399 | for any merge of well-behaved sessions, every message meets only connections of its own session and every CONNECT opens one, iff no session opens an id that another is using |
| Sessions.FirstConnectionsCollide | src/kohakuriver/cli/commands/forward.py:171-180 | it fails for the first connections of any two forwarders: the second's data goes to the first's service |
| Vfio.NonBridgeDevicesAre | src/kohakuriver/qemu/vfio.py:289-300 | the query returns exactly the non-bridge devices with the same group link |
| Vfio.SameGroup | src/kohakuriver/qemu/vfio.py:289-300 | which group is returned does not depend on the member asked about |
| Vfio.Sysfs.WriteAttribute | src/kohakuriver/qemu/vfio.py:34-60 | a write has any outcome and any effect, on the named device only |
| Vfio.Sysfs.BindToVfio | src/kohakuriver/qemu/vfio.py:127-198 | success means on vfio-pci; the writes, where they stop and when the explicit bind is tried are exactly those of the source for every outcome of each write; a device already there is untouched |
| Vfio.Sysfs.UnbindFromVfio | src/kohakuriver/qemu/vfio.py:210-286 | success promises the writes but not the final driver; a device on vfio-pci is told to leave, one elsewhere is untouched; the writes and where they stop are exactly those of the source |
| Vfio.Sysfs.BindIommuGroup | src/kohakuriver/qemu/vfio.py:303-323 | binds all of the group, or a proper prefix of it up to the first failure; nothing outside moves, nothing leaves vfio-pci |
| Vfio.Sysfs.UnbindIommuGroup | src/kohakuriver/qemu/vfio.py:326-349 | every device of the group that was on vfio-pci was told to leave; no other device is written to or moves |
| Qemu.SameOrDisjoint | src/kohakuriver/qemu/vfio.py:289-300 | two addresses stand for the same devices or for disjoint ones |
| Qemu.NextVisit | src/kohakuriver/qemu/client.py:196-200 | one turn of the skip-set loop: an address outside the bound set opens a new group, one inside adds nothing |
| Qemu.QemuManager.BindAll | src/kohakuriver/qemu/client.py:194-200 | on success exactly the union of the requested groups is bound, by visiting each group once, for any list with repeats and co-grouped members; on failure the groups before the failing one are bound and no later one is touched |
| Qemu.QemuManager.UnbindAll | src/kohakuriver/qemu/client.py:873-883 | every device of every group that was on vfio-pci was told to leave; no other device is written to or moves |
| Qemu.QemuManager.CreateVm | src/kohakuriver/qemu/client.py:145-312 | the entry and device outcome of every exit: untouched, unbound before binding, bound so far and unbound again, or all bound; a failure never changes the table |
| Qemu.CreateExits | src/kohakuriver/qemu/client.py:239-312 | which exit is taken, from QEMU's exit, its error text, the pidfile and the process alone, unless binding stopped or the seed failed; the VMCreationError exit keeps every device on vfio-pci |
| Qemu.CreatedEntry | src/kohakuriver/qemu/client.py:283-302 | the tracked entry, field by field; the first interface is the primary one, the legacy one if none is given |
| Qemu.QemuManager.CleanupVm | src/kohakuriver/qemu/client.py:851-871 | removes the entry; every device of the VM that was on vfio-pci was told to leave, and no other is touched |
| Qemu.QemuManager.StopVm | src/kohakuriver/qemu/client.py:314-354 | the same for a tracked VM; False and no change for an unknown one |
| Qemu.QemuManager.KillVm | src/kohakuriver/qemu/client.py:356-370 | the same for a tracked VM; False and no change for an unknown one |
| Qemu.QemuManager.RestartVm | src/kohakuriver/qemu/client.py:372-522 | the entry and device outcome of every exit: everything was unbound, then bound again completely, or up to the group whose rebinding failed |
| Qemu.RestartExits | src/kohakuriver/qemu/client.py:393-502 | which exit is taken, from the same facts; reset only iff there is no command in the entry or on disk; which command the VM comes back with |
| Qemu.QemuManager.RecoverVm | src/kohakuriver/qemu/client.py:540-586 | adopts the saved entry iff the pidfile names a running process; looks at no device |
| Qemu.RecoveredEntry | src/kohakuriver/qemu/client.py:568-584 | the adopted entry, field by field; the TAP list falls back to the primary TAP, if there is one |
| Qemu.CleanUpTells | src/kohakuriver/qemu/client.py:309-312 | after a clean-up every requested device that was on vfio-pci, or that binding brought there, was told to leave, and nothing else was touched |
| Qemu.RestartResets | src/kohakuriver/qemu/client.py:443-466 | on every exit past the shutdown each device of the VM that was on vfio-pci was told to leave; unless rebinding failed, all are on vfio-pci again |
| Qemu.CreateIsConfined | src/kohakuriver/qemu/client.py:145-312 | on no exit does a creation write to or move a device outside the requested groups |
| Qemu.StepKeepsVfio | src/kohakuriver/qemu/client.py:145-586 | every outcome of every allowed operation keeps all tracked VMs' devices on vfio-pci and their groups disjoint |
| Qemu.RunKeepsVfio | src/kohakuriver/qemu/client.py:145-586 | so it holds in every state of every run |
| Qemu.OthersUntouched | src/kohakuriver/qemu/client.py:433-466 | an operation on one VM leaves every other VM's entry and devices as they were |
| Qemu.CreateIsSafeIffApart | src/kohakuriver/qemu/client.py:307-312 | creating keeps the running VMs safe in all outcomes iff the request shares no group with them |
| Qemu.FailedCreateTakesDevice | src/kohakuriver/qemu/client.py:873-883 | a creation that fails before binding anything can, by the clean-up's own completed writes, take any requested device off vfio-pci |
| Qemu.RecoverIsSafeIff | src/kohakuriver/qemu/client.py:540-586 | a remark: recovery checks nothing, so it keeps the invariant iff the adopted VM's devices are already in place |
| Qemu.RestartMeans | src/kohakuriver/qemu/client.py:408-522 | True: tracked again with the same IP, TAPs, GPUs, command and creation time, devices on vfio-pci; otherwise untracked; all other VMs unchanged either way |
| Gpus.IsIommuGroupViable | src/kohakuriver/qemu/capability.py:300-326 | viable iff the group exists; the peers are exactly its other non-bridge devices |
| Gpus.GetIommuGroupEndpoints | src/kohakuriver/qemu/capability.py:285-297 | the same devices, in ascending order |
| Gpus.Classify | src/kohakuriver/qemu/capability.py:416-445 | exactly the display devices among the peers; an audio function of the same slot iff there is one |
| Gpus.DiscoverVfioGpus | src/kohakuriver/qemu/capability.py:367-474 | every discoverable device exactly once, ids 0..n-1 in address order, with the right group, peers and audio |
| Gpus.SlotMeans | src/kohakuriver/qemu/capability.py:423-424 | two addresses share a slot iff they differ in the function number alone |
| Gpus.ReportedIff | src/kohakuriver/qemu/capability.py:382-414 | reported are exactly the NVIDIA display devices of the bus with an existing group |
| Gpus.RecordNamesPeers | src/kohakuriver/qemu/capability.py:441-445 | a record's peers are exactly the other display devices of its group |
| Gpus.RecordNamesAudio | src/kohakuriver/qemu/capability.py:420-425 | a record has an audio function iff its slot and group hold one, and that one if it is the only one |
| Gpus.BindingOrder | src/kohakuriver/qemu/vfio.py:289-300 | the devices of a group are bound each once, in address order; a device without a group alone |
| Gpus.PeersShareGroups | src/kohakuriver/qemu/capability.py:438-445 | two reported GPUs are peers iff they differ and share a group, hence symmetrically |
| Gpus.BindingCoversPeers | src/kohakuriver/qemu/vfio.py:303-317 | binding one GPU's group covers its peers and its audio function |
| Overlay.ParsedIsHierarchical | src/kohakuriver/models/overlay_subnet.py:73-134 | every accepted text satisfies the bounds and has an aligned base |
| Overlay.AcceptedIff | src/kohakuriver/models/overlay_subnet.py:73-134 | accepted are exactly an address and three counts in decimal digits, slashes between and white space around, with the counts in bounds and summing to 32 |
| Overlay.SpelledIsAccepted | src/kohakuriver/models/overlay_subnet.py:119-134 | such a text, with host bits or leading zeros or not, means those counts and the one aligned base whose block holds the address |
| Overlay.DottedSpells | src/kohakuriver/models/overlay_subnet.py:355 | an address is printed as its four octets, the highest first |
| Overlay.DefaultConfig | src/kohakuriver/models/overlay_subnet.py:56 | the default is 10.128.0.0/12 with 63 runners of 16380 addresses |
| Overlay.RunnerIdsAccepted | src/kohakuriver/models/overlay_subnet.py:345-351 | every query refuses exactly the ids outside 1 to 2^node_bits - 1, or 63 in flat mode |
| Overlay.PrintParseRoundTrip | src/kohakuriver/models/overlay_subnet.py:353-356 | printing and parsing any parsed configuration gives it back |
| Overlay.PrintedFormIsCanonical | src/kohakuriver/models/overlay_subnet.py:59-134 | any accepted text, with host bits or spaces, has one fixed printed form with the same meaning |
| Overlay.PrintsAsItselfIff | src/kohakuriver/models/overlay_subnet.py:353-356 | an accepted text is its own printed form iff no spaces surround it, the counts have no leading zeros and the address no host bits |
| Overlay.FlatPrintIsRejected | src/kohakuriver/models/overlay_subnet.py:136-156 | every flat configuration prints a text that parse rejects, and with which error |
| Overlay.BlocksPartitionNetwork | src/kohakuriver/models/overlay_subnet.py:169-228 | the blocks 0..max_runners are disjoint and cover exactly the base network, below 2^32 |
| Overlay.BlockShape | src/kohakuriver/models/overlay_subnet.py:206-228 | every block has at least 256 addresses, starts at a multiple of 256 and lies in the network |
| Overlay.RunnerSubnetIsOwnBlock | src/kohakuriver/models/overlay_subnet.py:206-228 | the subnet answered for a runner, read back, is its block |
| Overlay.RunnerAddressesInOwnBlock | src/kohakuriver/models/overlay_subnet.py:230-282 | gateway and host address lie in the runner's own block, for every runner |
| Overlay.HostAddressInBlockZero | src/kohakuriver/models/overlay_subnet.py:193-204 | the host's own address lies in block 0 and in no runner's block |
| Overlay.ContainerRange | src/kohakuriver/models/overlay_subnet.py:284-332 | the range runs from offset 2 to size - 3, since the low-byte test always fires, and has `ips_per_runner` addresses |
| Overlay.HostIsInRangeIff | src/kohakuriver/models/overlay_subnet.py:255-332 | the range never holds network, gateway or broadcast address, and holds the host's iff `subnet_bits` > 8 |
| Overlay.FlatRange | src/kohakuriver/models/overlay_subnet.py:301-306 | for every runner id, a flat range leaves out those four addresses and is non-empty iff the prefix is at most 29 |
| Overlay.FlatAddresses | src/kohakuriver/models/overlay_subnet.py:246-276 | the gateway and host address a flat network answers, for every runner id |
| Overlay.FlatSubnet | src/kohakuriver/models/overlay_subnet.py:149-220 | the aligned block of a flat network, answered as the subnet of every runner id |
| Tarballs.TarDirectory.ListSharedContainerTars | src/kohakuriver/docker/utils.py:34-72 | lists the matching files, newest first; nothing when the directory cannot be read |
| Tarballs.TarDirectory.ListSharedTarballs | src/kohakuriver/docker/sync_manager.py:37-69 | the same listing; raises when the directory cannot be read |
| Tarballs.ListedAre | src/kohakuriver/docker/utils.py:54-72 | the listing holds exactly the files that match the lower-cased name, in descending order |
| Tarballs.SortTars | src/kohakuriver/docker/utils.py:71-72 | the result is newest first and a permutation of the input |
| Tarballs.SortIsStable | src/kohakuriver/docker/utils.py:71-72 | files with equal timestamps keep the order of the directory |
| Tarballs.TarDirectory.NeedsSync | src/kohakuriver/docker/utils.py:115-153 | decides by the specified rule on that listing |
| Tarballs.TarDirectory.NeedsSyncMixin | src/kohakuriver/docker/sync_manager.py:71-107 | the same decision for every directory that can be read |
| Tarballs.NeedsSyncMeans | src/kohakuriver/docker/utils.py:132-153 | needed iff some tarball is strictly newer than the local image, or there is one and no image; the chosen file has the greatest timestamp |
| Tarballs.MatchUnique | src/kohakuriver/docker/utils.py:54-60 | a file name matches at most one environment name |
| Tarballs.FileNameMatches | src/kohakuriver/docker/utils.py:239-240 | a generated file name matches its environment with its timestamp |
| Tarballs.MatchMeans | src/kohakuriver/docker/utils.py:54-62 | a file matches iff it is the name, a dash, digits and ".tar"; the digits, leading zeros or not, are the timestamp |
| Tarballs.LowerLeavesNoCapitals | src/kohakuriver/docker/utils.py:54 | lower-casing leaves no capital, changes nothing but case, and nothing at all without capitals |
| Tarballs.LowerEqualIff | src/kohakuriver/docker/sync_manager.py:52 | two names have the same lower case iff they differ only in case |
| Tarballs.CreatedUnderAnySpelling | src/kohakuriver/docker/utils.py:237-240 | under any spelling the file is called by the spelling without capitals, and it is listed under every spelling |
| Tarballs.TarDirectory.CleanupOldTarballs | src/kohakuriver/docker/utils.py:311-325 | removes exactly the older files of the environment that can be removed, and none when the directory cannot be listed |
| Tarballs.TarDirectory.CreateContainerTar | src/kohakuriver/docker/utils.py:218-273 | the directory after success, with or without a clean-up, and after each failure |
| Tarballs.TarDirectory.CreateContainerTarball | src/kohakuriver/docker/sync_manager.py:127-175 | the same with the file name as given, except that a clean-up that cannot list fails the creation and leaves the file |
| Tarballs.CreatedIsNewest | src/kohakuriver/docker/utils.py:237-269 | afterwards the new file is listed, every listed removable file is at least as new, and files of no matching name are as before |
| Tarballs.OtherEnvironmentsUntouched | src/kohakuriver/docker/utils.py:311-325 | the listing of every other environment is as before |
| Tarballs.TarballListedIffLowercase | src/kohakuriver/docker/sync_manager.py:144-163 | the second implementation's file is listed iff the name has no capitals |
| Tarballs.MixedCaseLosesEnvironment | src/kohakuriver/docker/sync_manager.py:144-163 | otherwise a newest tarball, once saved, leaves the environment with an empty listing |
| Complexity.DepthVisitor.Visit | scripts/code_complexity.py:40-76 | restores the current depth and raises the maximum to the recursive depth below |
| Complexity.DepthVisitor.VisitBlock | scripts/code_complexity.py:47-52 | the same for a block node |
| Complexity.DepthIsDeepestChain | scripts/code_complexity.py:47-52 | the recursive depth is the number of block nodes on the deepest downward path: no path has more, one has as many |
| Complexity.FunctionAnalyzer.GetMaxDepth | scripts/code_complexity.py:94-98 | returns that depth |
| Complexity.FunctionAnalyzer.AnalyzeFunction | scripts/code_complexity.py:100-114 | appends one record |
| Complexity.FunctionAnalyzer.Visit | scripts/code_complexity.py:124-137 | appends exactly the specified records, in visiting order |
| Complexity.RecordsCount | scripts/code_complexity.py:124-137 | one record per function node and one more per direct method of a class body |
| Complexity.KindsThatDeepen | scripts/code_complexity.py:54-76 | the eight node kinds that deepen the nesting by one, and no others |
| Complexity.KindsThatAreRecorded | scripts/code_complexity.py:124-130 | a leaf is recorded iff it is a function, synchronous or not |
| Complexity.OuterComesFirst | scripts/code_complexity.py:124-137 | a function's record comes before those of functions in it, a class's methods before all else in it |
| Complexity.LinesOfFunction | scripts/code_complexity.py:87-92 | from first to last line, both included; without a last line, the number of located nodes |
| Complexity.EveryFunctionIsReported | scripts/code_complexity.py:124-137 | every function anywhere has its record, every method also its prefixed one |
| Names.TaskIdRoundTrip | src/kohakuriver/docker/naming.py:236-253 | the id is recovered from task and VPS container names |
| Names.EnvNamesCarryNoTaskId | src/kohakuriver/docker/naming.py:70-80 | no environment container is ever taken for a task's |
| Names.NamesNeverCollide | src/kohakuriver/docker/naming.py:44-80 | names of different kinds differ |
| Names.NamesAreInjective | src/kohakuriver/docker/naming.py:44-80 | names of one kind differ for different ids or environments |
| Names.ExtractedFrom | src/kohakuriver/docker/naming.py:246-253 | an id is found iff the name is a task or VPS prefix and text that reads as it |
| Names.SnapshotTagRoundTrip | src/kohakuriver/docker/naming.py:102-142 | id and timestamp are recovered from every snapshot tag |
| Names.ImagesAreNoSnapshots | src/kohakuriver/docker/naming.py:121-133 | no image tag parses as a snapshot tag |
| Names.ImageTagRoundTripIff | src/kohakuriver/docker/naming.py:88-182 | environment and tag are recovered iff the tag has no colon, whatever the environment holds |
| Names.PartsRebuildReference | src/kohakuriver/docker/naming.py:145-182 | the three parts of any reference, put together, are the reference |
| Names.NamesAreSpelled | src/kohakuriver/docker/naming.py:22-113 | the documented form of every name and tag |
| Targets.CreateVpsPlacement | src/kohakuriver/cli/api/vps.py:62-89 | the placement fields are the specified split of the target; a malformed NUMA part is dropped |
| Targets.HostSurvivesNuma | src/kohakuriver/cli/api/vps.py:65-74 | the host name ends at the first colon and survives any NUMA part; one that is no number is dropped |
| Targets.GpuIdsOfBoth | src/kohakuriver/cli/commands/vps.py:98 | a GPU list is read piece by piece in order, and one bad piece spoils it |
| Targets.GpuIdsOfOne | src/kohakuriver/cli/commands/vps.py:98 | blank pieces count for nothing, numbers count whatever white space surrounds them, all else is an error |
| Targets.PrintParseRoundTripIff | src/kohakuriver/cli/commands/vps.py:81-99 | a printed target is recovered by both stages iff host name and GPU list are non-empty where given and the host name has no colon |
| Targets.TargetIsSpelled | src/kohakuriver/cli/commands/vps.py:81-99 | `host:numa::gpu,gpu` is read as that host, NUMA node and list |
| Targets.ParsedIsExpressible | src/kohakuriver/cli/api/vps.py:62-85 | no target text yields an empty host name, one with a colon, or an empty GPU list |
| Targets.NormalForm | src/kohakuriver/cli/commands/vps.py:94-99 | every accepted target has a printed normal form with the same meaning |
| Targets.DoubleColonIsTheGpuList | src/kohakuriver/cli/commands/vps.py:97-99 | whatever follows the last double colon is read as the GPU list, also in an address |
| Targets.CutsExactlyPairs | src/kohakuriver/cli/commands/vps.py:94-97 | the cut happens iff two colons stand next to each other |
| Stores.TaskStateStore.Pop | src/kohakuriver/storage/vault.py:123-139 | removes the key and returns what it had |
| Stores.TaskStateStore.AddTask | src/kohakuriver/storage/vault.py:164-188 | stores the record under the text of its id |
| Stores.TaskStateStore.RemoveTask | src/kohakuriver/storage/vault.py:190-200 | removes and returns the record of the id |
| Stores.TaskStateStore.GetTask | src/kohakuriver/storage/vault.py:202-212 | looks up the id in the integer map that the vault stands for |
| Stores.TaskStateStore.GetAllTaskIds | src/kohakuriver/storage/vault.py:218-220 | exactly the ids of that map, each once; every key reads as a number |
| Stores.TaskStateStore.Clear | src/kohakuriver/storage/vault.py:118-121 | empties the vault |
| Stores.HistoryRepresents | src/kohakuriver/storage/vault.py:164-220 | after any history of additions and removals the vault stands for the map on integers with the same history |
| Stores.RepresentedIsUnique | src/kohakuriver/storage/vault.py:164-220 | a vault stands for one such map only |
| Stores.LastOperationDecides | src/kohakuriver/storage/vault.py:164-212 | what is found for an id is decided by the last operation that touched it |
| Text.SpacesAre | src/kohakuriver/models/overlay_subnet.py:73 | stripping takes away ASCII's ten white space characters and no others |
| Text.IntTextInjective | src/kohakuriver/storage/vault.py:182-188 | different ids have different keys |
| Text.DigitsSpell | src/kohakuriver/storage/vault.py:182 | a number's text spells its decimal digits, behind a minus sign if it is negative |

## Left out

- Tunnel.Apply: the relay between the two WebSockets (host and runner) is a FIFO that loses what is in line while no tunnel client is connected and any tail at a lost connection; its own code is not part of this model. So the runner's own ERROR when it cannot reach the container, its filter for ids a session has not opened, and the CLOSE it sends for what a lost session left open (`runner/services/tunnel_server.py:363-369`, `380-382`, `501-506`) are absent.
- TunnelTheorems.ForwardIsolation: is about one forwarder process; `Sessions` treats the merge of several on values, without channels and tasks.
- Forwarders.TunnelForwarder.HandleMessage: `drain` and `wait_closed` do not block here; a slow local peer would delay later messages of other connections, which the free interleaving of `CliReceive` steps does not show.
- Connections.ConnectionManager.HandleConnect: what a UDP task does is not modelled, nor is the CLI's UDP side; no run of the TCP forwarder starts one (`TasksServeForwardedPort`).
- Connections.Run: the attempt counter is unbounded, not 32 bits wide; delays are not modelled.
- Cancelling the coroutines when the CLI's receive loop ends is covered only as far as a state in which they never move again.
- Vfio.Sysfs.WriteAttribute: a write that timed out takes effect at once or not at all; one that takes effect later, and a driver link that cannot be read, are not modelled. Neither is stopping and starting nvidia-persistenced.
- PCI addresses are numbers whose order is the order of the fixed-width texts.
- Qemu.RunKeepsVfio: public operations are atomic. The lock of `QEMUManager` covers only the membership test and the inserts, so overlapping calls are not covered.
- Qemu.QemuManager.CreateVm: the contents of the QEMU command, cloud-init, sockets, paths and process signals are inputs or absent.
- `is_iommu_group_clean`, GPU names and vendor texts in `capability.py`: easy expressions and formatting.
- Text: `int()` is taken on an optional minus sign and ASCII digits; Python's leniency (inner underscores, plus sign, surrounding spaces, other digits) and Unicode case folding and whitespace are not modelled.
- Overlay.FlatRange: `from_simple_cidr` takes an address and a prefix length; its netmask notations and its error messages are not modelled.
- Tarballs: regular expressions are an explicit match predicate, so the `$` that also matches before a final newline is not modelled; image commits, Docker and the clock are inputs. `Saved` for a name with capitals depends on a Docker daemon that accepts such a repository name.
- Complexity: reading files and printing reports are absent.
- Stores.TaskStateStore.AddTask: arbitrary keys put in through the dict interface of the base class are not modelled; the VPS and paused stores differ only in their records.
- Targets.CreateVpsPlacement: the other fields of the request and the HTTP call are absent.
- The web front end, scheduler, IP reservation, heartbeat and the remaining settings code are not part of this model.
