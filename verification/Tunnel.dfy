/**
 The tunnel as a step system: one CLI forwarder, the relay, and the tunnel client in the
 container with its managers, tasks and service sockets. Steps interleave freely.

 The relay (host and runner) is a FIFO in each direction. Going to the container it discards
 what is next in line while no tunnel client is connected. When a tunnel connection is lost,
 an arbitrary tail of what was sent over it never arrives; the same holds, in both directions,
 for the CLI's own WebSocket, which is never reconnected.
 */
module Tunnel {
  import opened Wrappers
  import opened Frames
  import opened Logs
  import C = Connections
  import F = Forwarders

  /**
   `alloc` records the client each id was given to. `wire` holds every message the CLI ever
   sent: `wire[..taken]` was handled or discarded, `wire[taken..reach]` is in flight,
   the rest was lost with the CLI's WebSocket. `back` holds the messages of the other
   direction that were not lost at a tunnel connection; the CLI has handled `back[..got]`. Once
   its WebSocket is lost it can handle `back[..hear]` and no more.
   */
  datatype State = State(
    port: u16,
    fwd: F.Forwarder, alloc: seq<nat>, cliUp: bool,
    wire: seq<Message>, taken: nat, reach: nat,
    linkUp: bool, epoch: nat, mgr: C.Manager,
    back: seq<Message>, got: nat, hear: nat)

  /** What one `handle_client` coroutine, or its local peer, may do next. */
  datatype ClientMove =
    | Allocate
    | Register
    | SendConnect
    | LocalRead(data: Bytes)
    | SendData
    | LocalEnd
    | SendClose
    | Finish
    | LocalReset

  /** What one task, or its service, may do next; `ok` is the outcome of a WebSocket send. */
  datatype TaskMove =
    | DialOk
    | DialFail(reason: Bytes, ok: bool)
    | SendConnected(ok: bool)
    | ServiceRead(data: Bytes)
    | SendBack(ok: bool)
    | ReadEnd
    | SendBackClose(ok: bool)
    | Receive
    | Write(accepted: nat)
    | WriterEnd

  datatype Step =
    | Accept
    | Client(k: nat, move: ClientMove)
    | CliReceive(accepted: nat)
    | CliLost(upTo: nat, hear: nat)
    | LinkUp
    | LinkDown(keep: nat)
    | RelayDrop
    | Deliver
    | Task(j: nat, action: TaskMove)

  function Init(port: u16): State {
    State(port, F.Forwarder(1, map[], []), [], true, [], 0, 0, false, 0, C.Manager(map[], []), [], 0, 0)
  }

  /** What the CLI's codec puts on the wire, and what the tunnel client's codec puts on it. */
  function FromCli(m: Message): Bytes {
    PackFrame(Untyped(HeaderOf(m)), m.payload).value
  }

  function FromTask(m: Message): Bytes {
    EncodeFrame(HeaderOf(m), m.payload)
  }

  ghost predicate Consistent(s: State) {
    && F.WellFormed(s.fwd)
    && C.WellFormed(s.mgr)
    && s.taken <= s.reach <= |s.wire|
    && s.got <= |s.back|
    && (s.cliUp ==> s.reach == |s.wire|)
    && (!s.cliUp ==> s.got <= s.hear <= |s.back|)
  }

  /** How much of `back` the CLI gets to handle, as things stand. */
  function Hearable(s: State): nat {
    if s.cliUp then |s.back| else s.hear
  }

  /** The task still belongs to the tunnel connection that is up. */
  predicate Live(s: State, j: nat)
    requires j < |s.mgr.tasks|
  {
    s.linkUp && s.mgr.tasks[j].epoch == s.epoch
  }

  /** The manager's map still holds the sender of the task's channel. */
  predicate HasSender(s: State, j: nat)
    requires j < |s.mgr.tasks|
  {
    var id := s.mgr.tasks[j].id;
    id in s.mgr.connections && s.mgr.connections[id] == j
  }

  // ---------------------------------------------------------------------------
  // Moves of a handle_client coroutine

  predicate ClientMay(c: F.Client, move: ClientMove) {
    match move
    case Allocate => c.pc == F.Start
    case Register => c.pc == F.Allocated
    case SendConnect => c.pc == F.Registered
    case LocalRead(data) => c.pc == F.Relaying && c.pending == [] && 1 <= |data| <= F.READ_SIZE
    case SendData => c.pc == F.Relaying && c.pending != []
    case LocalEnd => c.pc == F.Relaying
    case SendClose => c.pc == F.Closing
    case Finish => c.pc == F.Finishing
    case LocalReset => true
  }

  /** `build_message` raises when the id does not fit; that ends the coroutine on the spot. */
  predicate Raises(c: F.Client, move: ClientMove) {
    && (move.SendConnect? || move.SendData? || move.SendClose?)
    && PackFrame(PyHeader(MsgCode(Connect), ProtoCode(Tcp), c.id, 0), []).Err?
  }

  /** The message a move puts on the wire when the CLI's WebSocket is up. */
  function ClientSays(c: F.Client, move: ClientMove, port: u16): seq<Message> {
    if Raises(c, move) then []
    else
      match move
      case SendConnect => [Message(Connect, c.id, port, [])]
      case SendData => [Message(Data, c.id, 0, c.pending)]
      case SendClose => [Message(Close, c.id, 0, [])]
      case _ => []
  }

  function ClientAfter(c: F.Client, move: ClientMove, nextId: nat, cliUp: bool): F.Client {
    if Raises(c, move) then c.(pc := F.Crashed)
    else
      match move
      case Allocate => c.(pc := F.Allocated, id := nextId)
      case Register => c.(pc := F.Registered)
      case SendConnect => if cliUp then c.(pc := F.Relaying) else c.(pc := F.Done, writerOpen := false)
      case LocalRead(data) => c.(read := c.read + data, pending := data)
      case SendData => if cliUp then c.(pending := []) else c.(pc := F.Closing)
      case LocalEnd => c.(pc := F.Closing)
      case SendClose => c.(pc := F.Finishing)
      case Finish => c.(pc := F.Done, writerOpen := false)
      case LocalReset => c.(writerOpen := false)
  }

  /** What the move does to the counter and the table. */
  function TablesAfter(f: F.Forwarder, k: nat, move: ClientMove, cliUp: bool): F.Forwarder
    requires k < |f.clients|
  {
    var c := f.clients[k];
    if move.Allocate? then F.OnAllocate(f)
    else if move.Register? then F.OnRegister(f, c.id, k)
    else if move.Finish? || (move.SendConnect? && !Raises(c, move) && !cliUp) then F.OnUnregister(f, c.id)
    else f
  }

  function ForwarderAfter(f: F.Forwarder, k: nat, move: ClientMove, cliUp: bool): F.Forwarder
    requires k < |f.clients|
  {
    F.WithClient(TablesAfter(f, k, move, cliUp), k, ClientAfter(f.clients[k], move, f.nextId, cliUp))
  }

  function AfterClientMove(s: State, k: nat, move: ClientMove): (next: State)
    requires Consistent(s) && k < |s.fwd.clients|
    ensures Consistent(next)
  {
    var c := s.fwd.clients[k];
    var wire := if s.cliUp then s.wire + ClientSays(c, move, s.port) else s.wire;
    s.(
    fwd := ForwarderAfter(s.fwd, k, move, s.cliUp),
    alloc := if move.Allocate? then s.alloc + [k] else s.alloc,
    wire := wire,
    reach := if s.cliUp then |wire| else s.reach)
  }

  // ---------------------------------------------------------------------------
  // Moves of a task

  predicate TaskMay(t: C.Task, action: TaskMove, hasSender: bool) {
    match action
    case DialOk => t.dial == C.Dialing
    case DialFail(_, _) => t.dial == C.Dialing
    case SendConnected(_) => t.dial == C.Dialed
    case ServiceRead(data) => t.reader == C.Reading && t.pending == [] && 1 <= |data| <= F.READ_SIZE
    case SendBack(_) => t.reader == C.Reading && t.pending != []
    case ReadEnd => t.reader == C.Reading && t.pending == []
    case SendBackClose(_) => t.reader == C.Closing
    case Receive => t.dial == C.Pumping && t.rxOpen && t.hand == None && t.chan != []
    case Write(_) => t.dial == C.Pumping && t.rxOpen && t.hand.Some?
    case WriterEnd => t.dial == C.Pumping && t.rxOpen && t.hand == None && t.chan == [] && !hasSender
  }

  /** The message a move sends through the task's WebSocket. */
  function TaskSays(t: C.Task, action: TaskMove): seq<Message> {
    match action
    case DialFail(reason, ok) => if ok then [Message(Error, t.id, 0, reason)] else []
    case SendConnected(ok) => if ok then [Message(Connected, t.id, 0, [])] else []
    case SendBack(ok) => if ok then [Message(Data, t.id, 0, t.pending)] else []
    case SendBackClose(ok) => if ok then [Message(Close, t.id, 0, [])] else []
    case _ => []
  }

  function TaskAfter(t: C.Task, action: TaskMove): C.Task
    requires action.Receive? ==> t.chan != []
    requires action.Write? ==> t.hand.Some?
  {
    match action
    case DialOk => t.(dial := C.Dialed)
    case DialFail(_, _) => C.WithReceiverDropped(t.(dial := C.Failed))
    case SendConnected(ok) =>
      if ok then t.(dial := C.Pumping, reader := C.Reading)
      else C.WithReceiverDropped(t.(dial := C.Failed))
    case ServiceRead(data) => t.(read := t.read + data, pending := data)
    case SendBack(ok) => if ok then t.(pending := []) else t.(reader := C.Closing)
    case ReadEnd => t.(reader := C.Closing)
    case SendBackClose(_) => t.(reader := C.Ended)
    case Receive => t.(hand := Some(t.chan[0]), chan := t.chan[1..])
    case Write(accepted) =>
      var data := t.hand.value;
      if accepted >= |data| then t.(written := t.written + data, hand := None)
      else C.WithReceiverDropped(t.(written := t.written + data[..accepted]))
    case WriterEnd => C.WithReceiverDropped(t)
  }

  /** On a tunnel connection that is gone, a send succeeds or fails but reaches nobody. */
  function AfterTaskMove(s: State, j: nat, action: TaskMove): (next: State)
    requires Consistent(s) && j < |s.mgr.tasks| && TaskMay(s.mgr.tasks[j], action, HasSender(s, j))
    ensures Consistent(next)
  {
    var t := s.mgr.tasks[j];
    s.(
    mgr := s.mgr.(tasks := s.mgr.tasks[j := TaskAfter(t, action)]),
    back := if Live(s, j) then s.back + TaskSays(t, action) else s.back)
  }

  // ---------------------------------------------------------------------------
  // The system

  ghost predicate Enabled(s: State, step: Step)
    requires Consistent(s)
  {
    match step
    case Accept => true
    case Client(k, move) => k < |s.fwd.clients| && ClientMay(s.fwd.clients[k], move)
    case CliReceive(_) => s.got < Hearable(s)
    case CliLost(upTo, hear) => s.cliUp && s.taken <= upTo <= |s.wire| && s.got <= hear <= |s.back|
    case LinkUp => !s.linkUp
    case LinkDown(keep) => s.linkUp && (if s.cliUp then s.got else s.hear) <= keep <= |s.back|
    case RelayDrop => !s.linkUp && s.taken < s.reach
    case Deliver =>
      && s.linkUp && s.taken < s.reach
      && C.Dispatch(s.mgr, s.epoch, FromCli(s.wire[s.taken])).Handled?
    case Task(j, action) => j < |s.mgr.tasks| && TaskMay(s.mgr.tasks[j], action, HasSender(s, j))
  }

  function Apply(s: State, step: Step): (next: State)
    requires Consistent(s) && Enabled(s, step)
    ensures Consistent(next)
  {
    match step
    case Accept =>
      s.(fwd := s.fwd.(clients := s.fwd.clients + [F.Client(F.Start, 0, [], [], [], true)]))
    case Client(k, move) => AfterClientMove(s, k, move)
    case CliReceive(accepted) =>
      s.(fwd := F.OnMessage(s.fwd, FromTask(s.back[s.got]), accepted), got := s.got + 1)
    case CliLost(upTo, hear) => s.(cliUp := false, reach := upTo, hear := hear)
    case LinkUp => s.(linkUp := true, epoch := s.epoch + 1, mgr := C.Manager(map[], s.mgr.tasks))
    case LinkDown(keep) => s.(linkUp := false, mgr := C.AfterShutdown(s.mgr), back := s.back[..keep])
    case RelayDrop => s.(taken := s.taken + 1)
    case Deliver =>
      var r := C.Dispatch(s.mgr, s.epoch, FromCli(s.wire[s.taken]));
      s.(mgr := r.mgr, back := s.back + r.reply, taken := s.taken + 1)
    case Task(j, action) => AfterTaskMove(s, j, action)
  }

  /** The state after a run, or None where some step of it was not possible. */
  ghost function Exec(port: u16, steps: seq<Step>): (r: Option<State>)
    ensures r.Some? ==> Consistent(r.value)
  {
    if steps == [] then Some(Init(port))
    else
      match Exec(port, steps[..|steps| - 1])
      case None => None
      case Some(s) =>
        var step := steps[|steps| - 1];
        if Enabled(s, step) then Some(Apply(s, step)) else None
  }
}
